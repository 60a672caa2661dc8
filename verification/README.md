# ioredis: a verified model of its protocol machinery

These Dafny modules model the parts of ioredis in which state, ordering and timing matter, and prove what
they are for:

- **The RESP codec.** `RespMachine` is a byte-at-a-time machine in which every function the streaming parser
  can suspend in is a value; `RespDecoder` (Decoder.dfy) is the parser itself, a class with a cursor and a
  stored continuation, proved method by method to do what the machine does; `RespWire` is the wire form of
  reply trees, and the whole-buffer meaning that every chunked run is proved to have. `JsNumber` is the
  arithmetic of doubles the digit loop runs on. `DataListener` feeds the parser from the data events of a
  stream. `Utf8`, `Command` and `PipelineWrite` are the printer.
  `ReplyTransformers` makes RESP3 replies look like RESP2 ones.
- **The connection protocol.** `DataHandler` matches replies to the queue; `Connection` puts it against a
  server that answers in order and confirms subscriptions one channel at a time. `Queues`, `Outage`,
  `Databases`, `OutageRun`, `RedisClient` and `Lifetime` follow the queues through closing, failed attempts,
  giving up and becoming ready again.
- **Batching.** `AutoPipelining` is the one-batch-per-key scheduler, `PipelineRetry` the retry decision of a
  cluster pipeline with its inserted ASKING commands, `ClusterAutoPipelining` the two together, `Redirects` the
  redirect budget, `DelayQueue` the delayed retries.
- **Cluster state.** `ConnectionPool`, `ClusterSlots`, `ShardedSubscriber`, `SubscriberGroup` and `Himport`.

What the source keeps in objects that it changes step by step is a class here (`Decoder`, `Handler`, `Redis`,
`Pipeline`, `Client`, `Delays`, `Pool`, `Cluster`, `Subscriber`, `Group`, `Coordinator`, `MixedBuffers`,
`PipelineStream`, `Listener`). Its methods are proved against functions on values (`View()` before and after), and the
theorems about every run are lemmas about those functions. Sockets, timers and promises are events that may
come in any order the source allows.

## What the proofs turned up

Each of these is proved, and where a promise fails, so is the exact condition under which it holds.

- A SELECT issued during an outage decides the database afterwards only until the first attempt; later it is
  undone when the connection becomes ready (`SelectIsRememberedIff`).
- Between the connect and the ready event a pipeline waits, but its SELECTs are recorded at once. The record
  then runs ahead of the server, and a command that was outstanding on the recorded database is written to
  another one (`ReadyDatabasesIff`, `RecordRunsAhead`, `WrongDatabaseExample`). The server still ends on the
  remembered database.
- A client that connects again, loses that connection before it is ready and then gives up neither writes nor
  rejects the commands outstanding from before (`EveryEndSettlesIff`, `StrandedExample`). A flush at the retry
  limit leaves them alone likewise once a connect event has come, and without automatic resending becoming
  ready drops them without rejecting them (`NothingIsLost`).
- A resent pipeline that begins with a SELECT of something that is not an integer can put the queue in another
  order than the wire, so that replies meet the wrong commands; when that connection is lost as well, half of the
  pipeline is rejected and the other half waits for it (`ResendKeepsOrderIff`, `ReadyKeepsOrderIff`,
  `ReadyStaysHealthyIff`, `MisplacedExample`).
- A channel with an empty name is not taken out of the record when it is unsubscribed, and is subscribed to again
  on the next connection (`RepliesMatchCommands`, `RevocationKeepsMirrorIff`, `EmptyNameExample`).
- A bare unsubscribe is settled only if nothing of another kind is subscribed (`BareUnsubscribeSettlesIff`).
- With `stringNumbers` and without a reply encoding, scores differ between the protocols
  (`PairReplyIsProtocolIndependent`).
- A cluster pipeline that gets an ASK when its budget is used up resolves with results missing
  (`ResultsMissingIff`, `ResultsMissingExample`), and after an ASK round in which a node accepted an ASKING it
  is not tried again (`AskedRoundIsFinal`).
- An auto-pipelined call of a command that was defined after its batch was begun keeps its callback without having
  a command there: it and every later call of the batch are given the reply of a later call, or none
  (`OwnResultIff`, `FullIff`, `MisalignedExample`). A call of `exec` has the same effect, and makes the batch one
  whose end is never reported (`DeafExample`).
- A batch of auto-pipelined calls that comes back with too few results throws halfway through its callbacks:
  some calls never settle, and the next batch of the key, if it waits without an immediate, is never started
  (`PromisesKeptIff`, `AllCallsSettleIff`, `StuckForever`). A cluster pipeline can come back so
  (`StuckOnCluster`).
- A slot table with a hole makes a subscriber-group reset throw halfway; going back to the former table then
  counts as no change, and channels are resubscribed on the wrong node (`IndexIsInverseIff`,
  `WrongOwnerExample`).
- A resubscribe that is put off until its connection is ready goes out with the channels and to the node of the
  time when it was put off, although another node may own the slot by then (`DeferredReachesOwnerIff`,
  `LateExample`).
- A delayed handler that throws takes the rest of its queue with it (`CallBackRunsIff`, `HandlersRunIff`,
  `LostExample`).
- `addMasterNode` breaks the division of the pool exactly when the key is a replica's
  (`Pool.AddMasterNode`).

## Model

| member | source | states |
|---|---|---|
| RespWire.StreamRoundTrip | lib/resp/decoder.ts:77-102 | For every list of replies and pushes and every way of cutting their bytes into chunks, empty ones included, exactly one callback fires per message, in order, each with the value the message stands for; the run ends between replies with cursor 0 |
| RespWire.DecodeBody | lib/resp/decoder.ts:594-649 | Wherever the wire form of a nested reply of any shape stands in a buffer, decoding it gives the value the tree stands for under the mapping, and stops right after it |
| RespWire.DecodeItems | lib/resp/decoder.ts:676-714 | The elements of an array are decoded in order and appended to those already there |
| RespWire.DecodePairs | lib/resp/decoder.ts:941-1092 | The pairs of a map decoded as an object are entered in order, a later pair replacing an earlier one with the same key |
| RespWire.LastPairWins | lib/resp/decoder.ts:941-1003 | A key of the decoded object has the value of the last pair with that key |
| RespWire.IntImageIsExact | lib/resp/decoder.ts:241-293 | An integer whose magnitude is at most 2^53 is decoded exactly |
| JsNumber.ReadDigitsExact | lib/resp/decoder.ts:278-293 | Reading the digits of any number up to 2^53 with rounding arithmetic gives that number |
| JsNumber.SubtractingZeroLastIsInexact | lib/resp/decoder.ts:278-293 | Subtracting the code of zero last would already misread 2^53 - 1, so the parentheses in the loop matter |
| RespMachine.ChunkingIsIrrelevant | lib/resp/decoder.ts:77-102 | However bytes are cut into chunks, the decoder ends in the same state with the same callbacks fired as for the uncut bytes |
| RespMachine.FeedConcat | lib/resp/decoder.ts:77-102 | Two chunks in a row have the effect of their concatenation, whatever the state before |
| RespMachine.RunThen | lib/resp/decoder.ts:222-225 | A suspended function with an enclosing one behaves as the inner one with its value handed to the outer one, across any suspension |
| RespMachine.RunProgress | lib/resp/decoder.ts:212-225 | A function suspends only with the cursor at or past the end of the chunk |
| RespDecoder.Decoder.Reset | lib/resp/decoder.ts:72-75 | The decoder is back in its first state |
| RespDecoder.Decoder.Write | lib/resp/decoder.ts:77-102 | One call of write moves the decoder exactly as the machine moves over the chunk, callbacks, skip count and stored function included |
| RespDecoder.Decoder.CallNext | lib/resp/decoder.ts:77-102 | Resuming the stored function continues where the previous chunk ended |
| RespDecoder.Decoder.DecodeTypeValue | lib/resp/decoder.ts:109-210 | The body of a top-level value is decoded, or suspended, as the machine does, pushes included |
| RespDecoder.Decoder.HandleDecodedValue | lib/resp/decoder.ts:212-225 | A finished value fires its callback and clears the stored function, an unfinished one is stored |
| RespDecoder.Decoder.DecodeNumber | lib/resp/decoder.ts:241-276 | The optional sign and the digits are read as the machine reads them, in one chunk or over several |
| RespDecoder.Decoder.DecodeUnsignedNumber | lib/resp/decoder.ts:278-293 | The digit loop reads to the carriage return or to the end of the chunk, keeping the number so far |
| RespDecoder.Decoder.FindCRLF | lib/resp/decoder.ts:382-392 | The index of the next carriage return, or none; never called past the end of the chunk |
| RespDecoder.Decoder.DecodeLine | lib/resp/decoder.ts:394-420 | A line is its pieces from all chunks, concatenated |
| RespDecoder.Decoder.DecodeBlobString | lib/resp/decoder.ts:422-449 | A blob string starts with its length, or with the minus sign of a null |
| RespDecoder.Decoder.DecodeStringWithLength | lib/resp/decoder.ts:451-489 | A string of known length is its pieces from all chunks, with the closing line break skipped even when it lies in the next chunk |
| RespDecoder.Decoder.VerbatimWithLength | lib/resp/decoder.ts:510-520 | A verbatim string drops its four bytes of format |
| RespDecoder.Decoder.DecodeDouble | lib/resp/decoder.ts:347-366 | A double is handed over as text, buffer or number text, as the mapping says |
| RespDecoder.Decoder.DecodeError | lib/resp/decoder.ts:559-585 | An error line or blob becomes an error value |
| RespDecoder.Decoder.DecodeNestedType | lib/resp/decoder.ts:587-592 | A nested value starts with a type byte that may come in a later chunk |
| RespDecoder.Decoder.DecodeNestedTypeValue | lib/resp/decoder.ts:594-649 | The type byte chooses the function for the body; an unknown one throws |
| RespDecoder.Decoder.DecodeArray | lib/resp/decoder.ts:651-674 | An array starts with its length, or with the minus sign of a null |
| RespDecoder.Decoder.DecodeArrayItems | lib/resp/decoder.ts:676-714 | The element loop fills the array as the machine does, and an empty rest completes it without reading on |
| RespDecoder.Decoder.MapItems | lib/resp/decoder.ts:796-812 | A map is read as a flat array or as an object, as the mapping says |
| RespDecoder.Decoder.DecodeMapAsObject | lib/resp/decoder.ts:941-1003 | The pair loop enters keys and values as the machine does |
| RespDecoder.Decoder.DecodeMapKeyValue | lib/resp/decoder.ts:869-882 | String keys are decoded as strings whatever the mapping |
| RespDecoder.Decoder.Resume | lib/resp/decoder.ts:104-107 | Calling any bound function with a chunk does what the machine does from that point |
| RespDecoder.Decoder.ReturnTo | lib/resp/decoder.ts:699-714 | Handing a completed inner value to the function that waits for it does what the machine does |
| DataListener.Listener.OnData | lib/DataHandler.ts:81-87 | A data event is written to the decoder, and its exception is reported |
| DataListener.Listener.Receive | lib/DataHandler.ts:62-90 | A connection whose stream delivers the wire form of any messages, cut anywhere, fires one callback per message, in order, each with its value, and ends between replies without an exception |
| Utf8.EncodeConcat | lib/Pipeline.ts:404 | Encoding two strings apart and together gives the same bytes when no surrogate pair forms where they meet |
| Command.StringifyArguments | lib/Command.ts:379-413 | Arguments are stringified one by one, and a Buffer among them selects the buffer path |
| Command.ToWritable | lib/Command.ts:329-377 | The string path and the buffer path both write the RESP array of the name and the arguments |
| Command.ToBufferWritable | lib/Command.ts:338-364 | The buffer path alone writes that array |
| Command.MixedBuffers.Push | lib/Command.ts:661-664 | The accumulated bytes grow by those of the string or buffer, and the length with them |
| Command.MixedBuffers.ToBuffer | lib/Command.ts:666-678 | The buffer holds the accumulated bytes in order |
| PipelineWrite.PipelineStream.Write | lib/Pipeline.ts:382-422 | What is gathered grows by what is written, also across a flush at the maximum string length; the last write sends all of it in one piece and starts over |
| PipelineWrite.ExecPipeline | lib/Pipeline.ts:367-429 | A pipeline's commands go out in one piece, concatenated in queue order |
| PipelineWrite.PipelineRoundTrip | lib/Pipeline.ts:367-429 | A decoder fed that piece, cut in any way, reports exactly the queued commands as arrays of name and arguments, in order |
| ReplyTransformers.FlattenNestedArrayItems | lib/replyTransformers.ts:23-45 | Array items are opened up by one level and other items kept |
| ReplyTransformers.WrapStreamMapPairs | lib/replyTransformers.ts:71-95 | A flat list of streams becomes a list of pairs; anything that is not an array is kept |
| ReplyTransformers.PairReplyIsProtocolIndependent | lib/replyTransformers.ts:107-115 | For score-pair replies of any length, nested or popped without a count, the RESP3 form, transformed, equals the RESP2 form, if and only if there is a reply encoding, or numbers are not strings, or no score occurs |
| ReplyTransformers.StreamReplyIsProtocolIndependent | lib/replyTransformers.ts:117-125 | For stream reads of any number of streams, and for a timed-out read, both protocols give the same value |
| DataHandler.SubscriptionSet.Add | lib/SubscriptionSet.ts:16-18 | The channel is added to its kind and nothing else changes |
| DataHandler.SubscriptionSet.Del | lib/SubscriptionSet.ts:20-22 | The channel is removed from its kind and nothing else changes |
| DataHandler.SubscriptionSet.IsEmpty | lib/SubscriptionSet.ts:28-34 | True exactly when no kind holds a channel |
| DataHandler.Handler.FillSubCommand | lib/DataHandler.ts:444-458 | One confirmation is counted; the last one settles the subscribe, the others leave it to be put back |
| DataHandler.Handler.FillUnsubCommand | lib/DataHandler.ts:460-484 | One confirmation of an unsubscribe is counted; without arguments it waits for a count of zero |
| DataHandler.Handler.ReturnReply | lib/DataHandler.ts:136-170 | A reply changes queue, counters, subscription record and log as the reply function says |
| DataHandler.Handler.ReturnPush | lib/DataHandler.ts:172-239 | A push changes them as the push function says; messages leave the queue alone |
| DataHandler.Handler.ReturnError | lib/DataHandler.ts:111-134 | An error settles the head of the queue |
| DataHandler.Handler.HandleSubscriberReply | lib/DataHandler.ts:256-345 | A RESP2 reply on a subscribed connection is told apart by its first word |
| DataHandler.Handler.ShiftCommand | lib/DataHandler.ts:376-391 | The head is taken, or its absence is reported |
| Connection.RepliesMatchCommands | lib/DataHandler.ts:111-235 | In every state a connection reaches, whatever the channels are named, the queue is the written commands without a last reply, in write order; each command settles once, in order, on its own last reply; messages consume none; the subscription record mirrors the server's confirmed set, and is false exactly when that is empty, if and only if no kind is stale, that is, has had its empty name unsubscribed and not subscribed to again while the server held more; of stale kinds it holds the empty name besides |
| Connection.StepKeepsInv | lib/DataHandler.ts:256-345 | Every write, reply, confirmation, error, message and slot migration keeps that relation, under either protocol |
| Connection.RevocationKeepsMirrorIff | lib/DataHandler.ts:205-219 | One revocation leaves an exact record exact if and only if the name is not empty, or the server did not hold it, or it holds nothing afterwards |
| Connection.EmptyNameExample | lib/DataHandler.ts:205-219 | Subscribing to "a" and "" and unsubscribing from "" leaves the server with "a" and the record with both |
| Connection.BareUnsubscribeSettlesIff | lib/DataHandler.ts:460-477 | A bare unsubscribe is settled by its replies if and only if no channel of another kind is held; otherwise it stays at the head, and the record keeps the empty name if that was among the channels |
| Connection.ResubscribeRestores | lib/redis/event_handler.ts:471-499 | Once every resubscribe of the new connection is confirmed, the server holds exactly the set remembered from before the outage, and the record says so; that is what the server held before if and only if no kind was stale |
| Queues.AbortIncompletePipelines | lib/redis/event_handler.ts:317-332 | The index loop that removes in place computes the pruned queue and the rejected commands |
| Queues.LeadingFragmentIsPruned | lib/redis/event_handler.ts:311-332 | For the rest of a pipeline followed by any whole commands and pipelines, exactly that rest is rejected and exactly the whole ones are kept |
| Queues.BlocksAreKept | lib/redis/event_handler.ts:311-332 | Whole blocks are kept whatever index was expected before them, although the index also advances on mismatches |
| Queues.AbortTransactionFragments | lib/redis/event_handler.ts:337-355 | The loop that stops at a MULTI or removes an EXEC computes the pruned queue and the rejected commands |
| Queues.FragmentsKeepBlocks | lib/redis/event_handler.ts:334-355 | Of a queue of whole blocks, at most a lone EXEC before any MULTI is rejected, and no pipeline is cut |
| Queues.PushKeepsShape | lib/Redis.ts:633-637 | Writing a command or a pipeline keeps the queue a rest of a pipeline followed by whole blocks |
| Queues.ShiftKeepsShape | lib/DataHandler.ts:376-391 | So does settling the head |
| RedisClient.Redis.SendCommand | lib/Redis.ts:501-662 | A command is rejected, queued offline, or written and queued, and its SELECT is recorded in each of the last two cases |
| RedisClient.Redis.FlushQueue | lib/Redis.ts:1014-1036 | Both queues are emptied and their commands rejected, the waiting ones first |
| RedisClient.Redis.PruneQueues | lib/redis/event_handler.ts:368-373 | Closing prunes both queues in place |
| RedisClient.Redis.CloseHandler | lib/redis/event_handler.ts:357-431 | Closing prunes, remembers condition and queue of a ready connection by reference, and goes on to reconnect or to end |
| RedisClient.Redis.Connect | lib/Redis.ts:243-271 | A new attempt replaces the condition object, and only then is the remembered one a different object |
| RedisClient.Redis.ConnectHandler | lib/redis/event_handler.ts:153-175 | A new stream gets a new queue object, and the remembered one keeps its commands |
| RedisClient.Redis.ReadyHandler | lib/redis/event_handler.ts:440-540 | Becoming ready resubscribes, drains the remembered and the waiting queue with SELECTs where needed, and returns to the remembered database |
| RedisClient.Redis.DrainPrevious | lib/redis/event_handler.ts:501-513 | The remembered queue is emptied from the front, each command sent again once |
| RedisClient.Redis.DrainOffline | lib/redis/event_handler.ts:519-533 | The waiting queue is replaced first and then emptied from the front |
| Outage.ReadyWritesEverything | lib/redis/event_handler.ts:467-538 | The outstanding commands, if they are to be resent, and then the waiting ones are written, each once, in order; from the recorded database on, all but SELECTs find the database stored with them; and the record ends on the remembered database |
| Outage.ReadyKeepsOrderIff | lib/redis/event_handler.ts:467-538 | The queue of a connection that has become ready holds what has been written, each once, and in the order of the wire if and only if no pipeline sent again begins with SELECTs of something that is not an integer and then needs another database than the one selected when its turn comes |
| Outage.ResendKeepsOrderIff | lib/redis/event_handler.ts:504-513 | Sending a block again keeps queue and wire in the same order if and only if it needs no SELECT after leading SELECTs of something that is not an integer |
| Outage.ResendBlock | lib/redis/event_handler.ts:504-513 | A block is written in one piece, after a SELECT if needed, and each of its commands finds its database |
| Outage.BlocksOrderIff | lib/redis/event_handler.ts:501-533 | For any blocks sent again one after the other, queue and wire hold the same commands, and in the same order if and only if no block misplaces its SELECT |
| Databases.ReadyDatabasesIff | lib/redis/event_handler.ts:467-538 | Whatever database the server has selected, what becoming ready writes runs on its own databases if and only if record and server agree, or subscribing again selects first, or the first command sent again that is not a SELECT of something else than an integer is missing, a SELECT, or stored with another database than the recorded one; and the server ends on the remembered database if and only if they agree or something is selected on the way |
| Databases.ObeysElsewhereIff | lib/redis/event_handler.ts:504-513 | Writes that suit one database suit another one if and only if no command with a stored database comes before the first SELECT |
| OutageRun.NothingIsLost | lib/redis/event_handler.ts:357-538 | Over one outage, under all options and through any number of attempts that fail before or after the connect event, with flushes at the retry limit, giving up and connecting again by hand included, what was outstanding, waited or is issued meanwhile is rejected or held in this order, each exactly once, and the outstanding commands are rejected only by a flush before the first connect event; what is held is written in this order, except for the outstanding commands without automatic resending, which are dropped; the new queue holds what is written, in that order if and only if no SELECT is misplaced; the server ends on the database selected when the first attempt was made; and all but SELECTs run on their own databases if and only if the state before the ready event meets the condition of ReadyDatabasesIff |
| OutageRun.OutageKeeps | lib/redis/event_handler.ts:357-425 | Through any part of an outage, what was outstanding, waiting or issued is still held, in order, or has been rejected once; the outstanding commands go only by a flush before the first connect event |
| OutageRun.OutageRemembers | lib/redis/event_handler.ts:375-382 | The database to come back to is the one selected when the first attempt is made |
| OutageRun.SelectIsRememberedIff | lib/Redis.ts:655-662 | A SELECT during an outage decides it if and only if it is queued before any attempt has been made, or it selects that database anyway |
| OutageRun.RecordRunsAhead | lib/Redis.ts:596-662 | At the connect event record and server agree, and before the ready event the record is ahead by exactly the SELECTs of what has been issued since |
| OutageRun.EndSettlesIff | lib/redis/event_handler.ts:375-430 | Once a client has given up, everything has been rejected if and only if nothing was outstanding or the queues were flushed before the first connect event; otherwise the outstanding commands are held without being written or rejected |
| Lifetime.EveryOutageIsRecovered | lib/redis/event_handler.ts:357-538 | From any state a client can reach in a life in which becoming ready misplaced no SELECT, however many outages and half-answered pipelines came before, the next outage loses nothing, in the sense of NothingIsLost, whether or not a SELECT is misplaced this time; the commands rejected at once are what pruning rejects of the queue |
| Lifetime.EveryEndSettlesIff | lib/redis/event_handler.ts:375-430 | From any such state, giving up rejects everything if and only if pruning leaves nothing outstanding or a flush comes before the first connect event |
| Lifetime.WrongDatabaseExample | lib/redis/event_handler.ts:504-513 | A client that issues a pipeline with a SELECT between the connect and the ready event writes a command that was outstanding on database 3 to database 0 |
| Lifetime.StrandedExample | lib/redis/event_handler.ts:375-430 | A client that loses its next connection before it is ready and gives up leaves an outstanding command neither written nor rejected |
| Lifetime.StaysHealthyIff | lib/Redis.ts:596-637 | Issuing, answering, closing, failing, flushing, giving up and connecting keep the queues made of whole blocks, and becoming ready does if and only if it misplaces no SELECT |
| Lifetime.ReadyStaysHealthyIff | lib/redis/event_handler.ts:501-538 | A misplaced SELECT parts its pipeline in the queue, and only that does: the rest then stands behind a command of no pipeline |
| Lifetime.MisplacedExample | lib/redis/event_handler.ts:504-513 | A client on database 3 that loses its connection with a SELECT of nothing and a GET in one pipeline writes the SELECT of database 3 first and queues it second; pruning that queue rejects the GET and keeps the other two |
| Lifetime.ReadyQueue | lib/redis/event_handler.ts:501-538 | When no SELECT is misplaced, the queue after becoming ready is again made of whole commands and pipelines with consistent databases |
| AutoPipelining.Client.ExecuteAutoPipeline | lib/autoPipelining.ts:28-82 | A waiting batch is started unless one of its key runs |
| AutoPipelining.Client.ExecuteWithAutoPipelining | lib/autoPipelining.ts:183-222 | A call joins the callbacks of the waiting batch of its key, which is scheduled once, and its commands if the pipeline has the function; it throws, and keeps its place among the callbacks, exactly when the pipeline lacks it |
| AutoPipelining.Client.RunExecutor | lib/autoPipelining.ts:207-222 | The callback is pushed before the function of the pipeline is called, so that it stays when that throws |
| AutoPipelining.Client.ExecCallback | lib/autoPipelining.ts:60-81 | The end of a batch frees its key and queues the callbacks up to the first one without a result; only if every callback has one does it start the next batch, and otherwise it throws |
| AutoPipelining.OneBatchPerKey | lib/autoPipelining.ts:28-82 | In every reachable state, whatever functions the pipelines have and however short the result lists are, executing batches have different keys; per key the calls of completed, executing and waiting batches are the accepted calls in order; and results handed out are those due, each from the index of the call's callback |
| AutoPipelining.OwnResultIff | lib/autoPipelining.ts:60-75 | A call of a completed batch is given the error for all or the result of its own command if and only if there is an error, or there are results up to its index and neither it nor a call before it lacks a command; otherwise it is given the result of a later call, or none |
| AutoPipelining.FullIff | lib/autoPipelining.ts:60-75 | A batch gives every call something if and only if it fails as a whole, or every call has put in a command and every command has a result |
| AutoPipelining.MisalignedExample | lib/autoPipelining.ts:207-222 | A get, then a command defined in the same turn and called, then two more gets: the third call is given the reply of the fourth and the fourth none |
| AutoPipelining.WaitingBatchStarts | lib/autoPipelining.ts:77-80 | A waiting batch is started whole by its immediate when none of its key runs, and otherwise by the end of the running one if and only if that gives every callback a result or the error |
| AutoPipelining.PromisesKeptIff | lib/autoPipelining.ts:60-81 | In a reachable state every waiting batch has an immediate or a running batch that can start it, if and only if no completion on the way gave some callback nothing while a batch of its key waited without an immediate, and no call came while a batch of its key ran on which exec had been called |
| AutoPipelining.StepKeepsPromiseIff | lib/autoPipelining.ts:60-81 | Only such a completion or such a call breaks that promise; every other event keeps it |
| AutoPipelining.StuckForever | lib/autoPipelining.ts:183-222 | A batch left with nothing to start it is never started, whatever happens later, and later calls of its key join it |
| AutoPipelining.EachCallSettlesOnce | lib/autoPipelining.ts:206-222 | No callback is ever run twice, and when nothing waits to start or to be handed out a callback has been run exactly once if and only if its batch came back with something at its index |
| AutoPipelining.AllCallsSettleIff | lib/autoPipelining.ts:60-81 | When nothing is left to do, every accepted call's callback has been run exactly once if and only if every batch has come back and every one of them was full in the sense of FullIff |
| AutoPipelining.StuckExample | lib/autoPipelining.ts:60-81 | Two calls, of which the first comes back without results while the second waits, reach such a state |
| AutoPipelining.DeafExample | lib/Pipeline.ts:296-299 | After a get and an exec in one batch, the next batch of the key is never started |
| AutoPipelining.StepKeepsInv | lib/autoPipelining.ts:28-82 | Every definition of a command, accepted call, with or without a command, immediate, completion, complete or short, and tick keeps the bookkeeping of OneBatchPerKey |
| ClusterAutoPipelining.OutcomeIsFullIff | lib/Pipeline.ts:201-208 | A cluster pipeline gives every callback of its batch something if and only if it was refused or sent every ASKING it put in |
| ClusterAutoPipelining.LastReplyIsFullIff | lib/Pipeline.ts:136-208 | The last reply of a pipeline's last round does so unless it ends in an ASK with the budget used up while some command lacks its ASKING |
| ClusterAutoPipelining.ClusterPromiseIff | lib/autoPipelining.ts:60-81 | When the pipeline of a batch is done, waiting batches still have something to start them if and only if it was refused, or it sent every ASKING it put in and every call of the batch had put in a command, or none of its key waits, or that one is still scheduled |
| ClusterAutoPipelining.StuckOnCluster | lib/autoPipelining.ts:60-81 | The GET of ResultsMissingExample, as a batch of one call, leaves the batch behind it waiting for ever |
| Redirects.Ttl.Handle | lib/cluster/index.ts:898-958 | The budget is set on the first error and counted down on the others, and the first words of the message choose the handler |
| Redirects.RetriesAreBounded | lib/cluster/index.ts:898-909 | Whatever the replies, a command is sent again at most maxRedirections times, and is settled once more replies than that have come |
| Redirects.StillTriedIff | lib/cluster/index.ts:645-698 | A command is still tried if and only if the budget covers all its replies and each is one to follow |
| Redirects.MovesStayInTable | lib/cluster/index.ts:911-921 | Whatever the servers answer, a command writes only slots from 0 to 16383 into the slot table, and at most maxRedirections of them |
| PipelineRetry.Decide | lib/Pipeline.ts:100-136 | A pipeline may be resent exactly when some error counts, all that count have the same name and message, and every success outside a transaction is read-only |
| PipelineRetry.RebuildIsTidy | lib/Pipeline.ts:139-156 | Rebuilding for an ASK keeps the user's commands in order, gives each outside a transaction an ASKING, and never puts two in a row, one inside a transaction, or one at the end |
| PipelineRetry.CompactResults | lib/Pipeline.ts:201-208 | The in-place loop computes the compacted list |
| PipelineRetry.CompactKeepsUsers | lib/Pipeline.ts:201-208 | Skipping at most one ignored command per step takes out exactly the ignored results |
| PipelineRetry.BodyStaysBeforeExec | lib/Pipeline.ts:80-93 | In a tidy queue the commands right before an EXEC are those the user queued before it, also after ASKINGs were put in |
| PipelineRetry.TransactionIsShaped | lib/Pipeline.ts:79-93 | After any number of rounds, ASK rounds included, each element of an EXEC's result is the element that came in for it in the last round, transformed by the user's command it answers |
| PipelineRetry.EveryReplyComesIn | lib/Pipeline.ts:79-209 | In every state a pipeline reaches, the reply to any position without one can come in |
| PipelineRetry.Pipeline.FillResult | lib/Pipeline.ts:79-209 | One reply is stored; the last one of a round sends the pipeline again or resolves it |
| PipelineRetry.Pipeline.RebuildQueue | lib/Pipeline.ts:139-156 | The loop that replaces the queue builds the rebuilt queue |
| PipelineRetry.ResultsMatchCommands | lib/Pipeline.ts:94-208 | After any number of rounds, result i is the reply of the user's i-th command in the last round if and only if that round put in no ASKING that was not sent; otherwise as many results are missing |
| PipelineRetry.ResultsMissingIff | lib/Pipeline.ts:136-208 | Results go missing exactly when an ASK comes with the budget used up and some command lacks its ASKING |
| PipelineRetry.ResultsMissingExample | lib/Pipeline.ts:136-208 | A single GET that is told MOVED and is then asked about, with one redirection allowed, resolves to no result at all |
| PipelineRetry.AskedRoundIsFinal | lib/Pipeline.ts:126-134 | After a round in which an ASKING succeeded the pipeline is not sent again |
| ClusterSlots.Cluster.Refresh | lib/cluster/index.ts:1130-1178 | Each slot has the nodes of the last range that covers it, or keeps its own, and the group numbers match the table |
| ClusterSlots.Cluster.AssignGroups | lib/cluster/index.ts:1162-1178 | Two slots have the same number exactly when their joined node lists are equal and not empty, and none exactly when it is empty |
| ClusterSlots.Cluster.GenerateMultiWithNodes | lib/Pipeline.ts:19-30 | The slot of the first key is returned exactly when all keys have its group |
| ClusterSlots.JoinIsInjective | lib/cluster/index.ts:1166 | Joined lists are equal exactly when the lists of node keys are |
| ClusterSlots.AcceptedKeysShareNodes | lib/Pipeline.ts:19-30 | Keys are accepted together exactly when the same nodes serve all of them, or none serves any |
| DelayQueue.Delays.Add | lib/cluster/DelayQueue.ts:25-42 | A handler joins its bucket, and a timer is armed if the bucket has none |
| DelayQueue.Delays.Drain | lib/cluster/DelayQueue.ts:44-59 | The bucket's queue is taken away and emptied from the front, while handlers may put in further ones; when one throws, the rest is gone |
| DelayQueue.HandlersLeaveOnceInOrder | lib/cluster/DelayQueue.ts:25-59 | In every reachable state the handlers of a bucket that have left its queue, run or lost, followed by those waiting, are those put in, in order, each once; waiting ones have a timer that will be answered |
| DelayQueue.CallBackRunsIff | lib/cluster/DelayQueue.ts:34-59 | When the callback is answered, all that was put in so far has left the queue, also what came in while the slot refresh was pending, and each of these handlers is run if and only if none before it in the queue throws |
| DelayQueue.HandlersRunIff | lib/cluster/DelayQueue.ts:44-59 | Over every run, every handler that has left its queue has been run if and only if no handler but the last of its queue has thrown |
| DelayQueue.LostExample | lib/cluster/DelayQueue.ts:44-59 | Of two handlers of a bucket of which the first throws, the second is gone without having been run |
| ConnectionPool.NewNodesAre | lib/cluster/ConnectionPool.ts:190-201 | A key is kept if and only if it is listed, as a master if and only if it is listed as one at least once, in whatever order |
| ConnectionPool.Pool.FindOrCreate | lib/cluster/ConnectionPool.ts:108-160 | The key's connection is found or made and has the asked role; masters and replicas stay disjoint, together everything, and in line with each connection's own flag; other keys are untouched |
| ConnectionPool.Pool.Recreate | lib/cluster/ConnectionPool.ts:167-184 | The key gets a new connection and the division stays |
| ConnectionPool.Pool.OnEnd | lib/cluster/ConnectionPool.ts:140-150 | A late end removes the key exactly when it is not another connection's |
| ConnectionPool.Pool.Reset | lib/cluster/ConnectionPool.ts:190-214 | Exactly the listed keys are left, master if and only if listed as one at least once, and connections that stay are kept |
| ConnectionPool.Pool.RemoveNode | lib/cluster/ConnectionPool.ts:219-228 | The key is gone from all three maps and other keys are untouched |
| ConnectionPool.Pool.FollowMoved | lib/cluster/index.ts:658-677 | After a MOVED its key has a master connection, the one it had before unless that one answered, and never the one that answered; the division is kept |
| ConnectionPool.Pool.AddMasterNode | lib/cluster/ConnectionPool.ts:55-67 | The division of the pool survives if and only if nothing was added or the key was not a replica's |
| ConnectionPool.RecreateThenStaleEnd | lib/cluster/ConnectionPool.ts:167-184 | The end of a replaced connection leaves its replacement in place |
| ShardedSubscriber.Subscriber.UpdateStatus | lib/cluster/ShardedSubscriber.ts:185-202 | Only the transitions of the table happen |
| ShardedSubscriber.Subscriber.Begin | lib/cluster/ShardedSubscriber.ts:92-111 | Starting is refused exactly for an ended subscriber or one without connection that is not connecting or started |
| ShardedSubscriber.Subscriber.End | lib/cluster/ShardedSubscriber.ts:124-136 | Stopping gives up the connection and ends the subscriber |
| ShardedSubscriber.StatusNeverGoesBack | lib/cluster/ShardedSubscriber.ts:18-35 | Over any sequence of calls and connection events the status never goes back, and ended stays ended |
| ShardedSubscriber.StoppedStaysEnded | lib/cluster/ShardedSubscriber.ts:92-136 | Once stopped, a connect that succeeds later does not bring a subscriber back |
| SubscriberGroup.IndexedIsInverse | lib/cluster/ClusterSubscriberGroup.ts:313-323 | The rebuilt index lists, in order, exactly the slots each node comes first in, and no node without one |
| SubscriberGroup.Group.RefreshSlots | lib/cluster/ClusterSubscriberGroup.ts:300-329 | The rebuild in place leaves table and index as the refresh function says, also when a hole makes it throw |
| SubscriberGroup.Group.AddChannels | lib/cluster/ClusterSubscriberGroup.ts:73-95 | Channels of one slot are added under it and the count grows by their number; others are refused and nothing changes |
| SubscriberGroup.Group.RemoveChannels | lib/cluster/ClusterSubscriberGroup.ts:101-122 | Channels of one slot are taken out from under it, and the count is of those left |
| SubscriberGroup.Group.Rearrange | lib/cluster/ClusterSubscriberGroup.ts:185-274 | The two loops keep healthy subscribers of owners, stop the others, and supply the missing ones |
| SubscriberGroup.Group.ResetTo | lib/cluster/ClusterSubscriberGroup.ts:166-182 | A reset begins, or waits as the one pending reset |
| SubscriberGroup.Group.StartsSettled | lib/cluster/ClusterSubscriberGroup.ts:276-290 | After the starts, live subscribers resubscribe, those whose connection is not ready put it off, and the pending reset, if any, is next |
| SubscriberGroup.Group.SubscriberReady | lib/cluster/ClusterSubscriberGroup.ts:356-366 | When a connection becomes ready, what was put off on it is sent as it was put off |
| SubscriberGroup.LastResetWins | lib/cluster/ClusterSubscriberGroup.ts:166-291 | When overlapping resets have gone idle and no stop discarded the last one, the last topology asked for is applied if and only if its table has no hole |
| SubscriberGroup.RefreshKeepsExactIff | lib/cluster/ClusterSubscriberGroup.ts:300-329 | A refresh leaves the index empty or the exact inverse of the table's first column if and only if the table asked for is full, or starts with a hole, or has its first hole right after as many rows as the former table had, each with the first node it had there |
| SubscriberGroup.IndexIsInverseIff | lib/cluster/ClusterSubscriberGroup.ts:300-329 | In every reachable state the index is empty or that inverse if and only if every harmful table was followed by a harmless other one or by a stop |
| SubscriberGroup.FullTablesKeepIndexExact | lib/cluster/ClusterSubscriberGroup.ts:300-329 | As long as every table asked for is full, it is so in every reachable state |
| SubscriberGroup.ChannelsLieUnderTheirSlot | lib/cluster/ClusterSubscriberGroup.ts:73-122 | In every reachable state tracked channels lie under their own slot |
| SubscriberGroup.ResubscribesGoToOwners | lib/cluster/ClusterSubscriberGroup.ts:336-376 | Every resubscribe that is sent or put off is of the channels of one slot, and unless a harmful table was asked for and not replaced it is on the node that comes first for that slot at that time |
| SubscriberGroup.ResubscribesAll | lib/cluster/ClusterSubscriberGroup.ts:336-376 | Under the same condition every slot with channels whose owner has a live subscriber is resubscribed, at once if its connection is ready and put off otherwise |
| SubscriberGroup.DeferredReachesOwnerIff | lib/cluster/ClusterSubscriberGroup.ts:350-366 | A resubscribe put off is sent when its connection becomes ready; over every run without harm it then reaches the node that comes first for its slot if and only if the last full table refreshed to since, if any, has that node first, and it is of the channels then tracked if and only if those added and removed since make no difference |
| SubscriberGroup.LateExample | lib/cluster/ClusterSubscriberGroup.ts:350-366 | From the start on, with full tables only, a resubscribe put off is sent to a node that no longer owns the slot |
| SubscriberGroup.OwnersAreServed | lib/cluster/ClusterSubscriberGroup.ts:185-274 | Whatever came before, while a reset waits every owner whose node was given has a healthy subscriber, and has it still when the starts settle unless that one failed or ended meanwhile or the group was stopped; nodes that own nothing have none |
| SubscriberGroup.WrongOwnerExample | lib/cluster/ClusterSubscriberGroup.ts:300-329 | From the start on, a table with a hole and then the former table leave the other table's index, and a channel is resubscribed on the wrong node |
| Himport.Coordinator.EnsurePrepared | lib/himport/HimportCoordinator.ts:372-426 | Nothing to wait for when prepared, the promise under way when preparing, and otherwise one new PREPARE |
| Himport.Coordinator.PrepareReplied | lib/himport/HimportCoordinator.ts:393-419 | A reply marks or clears the fieldset only if its own promise is still the one tracked; with a new session the fieldset is ensured there |
| Himport.Coordinator.InterceptCommand | lib/himport/HimportCoordinator.ts:242-291 | A managed SET is let through or held back, and a token is used up when it is let through by it |
| Himport.Coordinator.RejectCommand | lib/himport/HimportCoordinator.ts:309-370 | A first missing-fieldset error starts a recovery, any other error settles the command |
| Himport.Coordinator.InvalidateConnection | lib/himport/HimportCoordinator.ts:168-173 | Every fieldset of the session is forgotten |
| Himport.Coordinator.MarkFieldsetUnprepared | lib/himport/HimportCoordinator.ts:439-447 | A prepared fieldset is forgotten, one being prepared is left alone |
| Himport.Coordinator.RunWaiter | lib/himport/HimportCoordinator.ts:272-289 | A settled promise sends a waiting command again with a token, or rejects it |
| Himport.PreparedWasAcknowledged | lib/himport/HimportCoordinator.ts:372-426 | A fieldset marked prepared was acknowledged by a PREPARE sent in the connection's current session after it was last cleared there |
| Himport.OnePrepareAtATime | lib/himport/HimportCoordinator.ts:376-384 | Of one session and fieldset at most one PREPARE that still counts is unanswered |
| Himport.PreparesAreShared | lib/himport/HimportCoordinator.ts:382-384 | While one is under way, everyone gets its promise and nothing is sent |
| Himport.RecoveriesShare | lib/himport/HimportCoordinator.ts:344-349 | Two commands that fail one after the other wait for the same PREPARE, and at most one is sent |
| Himport.SetsGoOutPrepared | lib/himport/HimportCoordinator.ts:261-270 | On a ready connection a managed SET goes out only when its fieldset is prepared or with its own token |
| Himport.TokensAndRecoveries | lib/himport/HimportCoordinator.ts:300-347 | A token is good for one send, and a command recovers at most once |
| Himport.FailuresSettle | lib/himport/HimportCoordinator.ts:327-347 | Over every run, a command is settled by its second missing-fieldset error, or by any other error |

## Left out

- Sockets, TLS, DNS, Sentinel, wall-clock timers and their lengths: only the order of events is kept.
- Option and URL parsing, tracing, debug output, error stacks, type generation, scripts and argument
  transformers: they are not part of this model.
- The command tables and the key-to-slot hash are parameters: flags of a command, an uninterpreted slot
  function, and the function that reads an integer from a word of an error message.
- Decoder: verbatim strings, sets, maps and big numbers as objects of their own kind, which no mapping of the
  client selects; attribute and streamed types; a length that is not made of digits throws in the model.
- Decoder: a number given to `Number()` stays its text, a string stays its UTF-8 bytes, minus zero is zero, and
  keys of an object that are not strings are not turned into strings.
- Decoder: each function and its continuation are one method with the part already read as a parameter; a
  chunk is a sequence, and slices share no memory.
- RespDecoder.Decoder.Write: a decoder that has thrown reads no more, as its owner disconnects it.
- ReplyTransformers.WrapStreamMapPairs: the missing last value of an odd list is null here.
- Connection.RepliesMatchCommands: a connection carries shard channels or the other kinds, not both, because
  the server counts them apart; command names are lower case; a RESP2 server sends a subscribed connection
  no ordinary reply that looks like a pub/sub message; no shard is unsubscribed by the server while an
  sunsubscribe is at the head; a bare unsubscribe has its own lemma.
- Connection.ResubscribeRestores: the subscribes of the new connection are all confirmed and nothing is
  unsubscribed meanwhile; subscribes that were confirmed in part before the outage are not covered.
- OutageRun.NothingIsLost: the handshake is answered at once, so its commands are not in the queue; a command on
  its own that the new connection writes before it is ready is not part of the outage.
- Lifetime.EveryOutageIsRecovered: the life before has not misplaced a SELECT when it became ready, because the
  queue is then not made of whole pipelines any more (`ReadyStaysHealthyIff`), and the pruning at the next outage
  tears one apart (`MisplacedExample`).
- Lifetime.EveryEndSettlesIff: likewise.
- RedisClient.Redis.SendCommand: of the commands that may be written before the ready event only SELECT is; the
  source also lets auth, hello, client, readonly and info through during the handshake, and after it every
  command that a loading server answers. The refusal of ordinary commands in the RESP2 subscriber mode, quit,
  and the HIMPORT interception, which `Himport` models, are not part of it.
- RedisClient.Redis.ConnectHandler: the handshake is one SELECT, answered at once.
- DataHandler.Handler.ReturnReply: the replies of a connection in monitor mode are not part of it.
- DataHandler.Handler.ReturnError: handling the reconnection an error asks for is reduced to rejecting the command.
- The end of a client by a connector that fails, which flushes the queues without pruning them.
- The monitor mode, quit, reconnectOnError and command timeouts.
- AutoPipelining: the slot key is given; waiting for a cluster's slots and the callback form are left out. A call of
  `exec` sends the commands of its batch at once, and its immediate sends them again; the model has the second
  sending only.
- DataHandler.SubscriptionSet.Add: a channel named `__proto__`, which an object does not store as a key.
- RespDecoder.Decoder.VerbatimWithLength: a length below four throws in the model; the source goes on with a
  negative one, and what it then reads depends on where the chunk ends.
- PipelineRetry.Pipeline.FillResult: every MULTI of a pipeline has its EXEC, so that a rebuild marks no further
  command as part of a transaction; waiting for a cluster's slots is left out.
- Redirects: changing the slot table after a MOVED, and choosing the node to ask.
- ClusterSlots: the table right after a MOVED, which shares its lists between the slots of a range.
- ConnectionPool: the stored options of a node, the emitted events and the connecting itself.
- ConnectionPool.Pool.FollowMoved: which connection the next try of the command picks is not part of it.
- SubscriberGroup: subscribers are values in the group's map; the class for one is `ShardedSubscriber.Subscriber`.
  Back-off delays and failure counts are left out.
- Himport: the token that is granted on an ASK to the node asked (lib/cluster/index.ts:852) is no event of the model;
  promises are settled by events in any order; control commands sent to all masters and the pipeline
  interception are left out, except that both ask for a fieldset as the handshake does.
