/**
 The accumulator a pipeline gives its commands as their stream: strings and buffers are collected and
 written to the connection in one piece when the last command of the pipeline has been added.
 */
module PipelineWrite {
  import opened Bytes
  import opened JsNumber
  import opened RespMachine
  import opened Wrappers
  import opened RespWire
  import opened Utf8
  import opened Command

  datatype Call = Call(name: JsString, args: seq<Arg>)

  function CallReply(c: Call): Resp {
    WireCommand(c.name, c.args)
  }

  function EncodeCalls(calls: seq<Call>): bytes {
    if calls == [] then [] else RespWire.Encode(CallReply(calls[0])) + EncodeCalls(calls[1..])
  }

  lemma {:induction false} EncodeCallsSnoc(calls: seq<Call>, c: Call)
    ensures EncodeCalls(calls + [c]) == EncodeCalls(calls) + RespWire.Encode(CallReply(c))
  {
    hide RespWire.Encode;
    if calls == [] {
      assert calls + [c] == [c];
      assert EncodeCalls([c]) == RespWire.Encode(CallReply(c)) + EncodeCalls([]);
    } else {
      assert (calls + [c])[1..] == calls[1..] + [c];
      EncodeCallsSnoc(calls[1..], c);
    }
  }

  class PipelineStream {
    const size: nat
    const maxStringLength: nat
    var data: JsString
    var buffers: Option<seq<bytes>>
    var writePending: int
    var sent: seq<bytes> // what has been written to the connection, piece by piece

    constructor (size: nat, maxStringLength: nat)
      ensures this.size == size && sent == [] && Gathered() == [] && writePending == size
      ensures size > 0 ==> Valid()
    {
      this.size, this.maxStringLength := size, maxStringLength;
      data, buffers, writePending, sent := [], None, size, [];
    }

    ghost predicate Valid()
      reads this
    {
      0 < writePending <= size && Whole(data)
    }

    ghost function Gathered(): bytes
      reads this
    {
      (if buffers.Some? then Concat(buffers.value) else []) + Utf8.Encode(data)
    }

    /** Moves the text gathered so far into the list of buffers. */
    method FlushText()
      requires Whole(data)
      modifies `data, `buffers
      ensures buffers.Some? && data == []
      ensures Concat(buffers.value) == old(Gathered()) == Gathered()
    {
      hide Utf8.Encode;
      EncodeAscii([]);
      if buffers.None? {
        buffers := Some([]);
      }
      if data != [] {
        ConcatSnoc(buffers.value, Utf8.Encode(data));
        buffers := Some(buffers.value + [Utf8.Encode(data)]);
        data := [];
      } else {
        assert Gathered() == Concat(buffers.value);
      }
    }

    method Write(w: Writable)
      requires Valid() && WholeWritable(w)
      modifies this
      ensures Valid()
      ensures old(writePending) > 1 ==>
                writePending == old(writePending) - 1 && sent == old(sent) && Gathered() == old(Gathered()) + Written(w)
      ensures old(writePending) == 1 ==>
                writePending == size && sent == old(sent) + [old(Gathered()) + Written(w)] && Gathered() == []
    {
      Gather(w);
      writePending := writePending - 1;
      if writePending == 0 {
        if buffers.Some? {
          ConcatSnoc(buffers.value, Utf8.Encode(data));
          ghost var all := Gathered();
          if data != [] {
            buffers := Some(buffers.value + [Utf8.Encode(data)]);
          } else {
            assert Concat(buffers.value) + [] == Concat(buffers.value);
          }
          sent := sent + [Concat(buffers.value)];
        } else {
          assert [] + Utf8.Encode(data) == Utf8.Encode(data);
          sent := sent + [Utf8.Encode(data)];
        }
        // the same stream carries the pipeline again when it is retried
        writePending := size;
        data := [];
        buffers := None;
      }
    }

    method Gather(w: Writable)
      requires Whole(data) && WholeWritable(w)
      modifies `data, `buffers
      ensures Whole(data) && Gathered() == old(Gathered()) + Written(w)
    {
      hide Concat, Utf8.Encode;
      EncodeAscii([]);
      match w {
        case Octets(octets) =>
          FlushText();
          ConcatSnoc(buffers.value, octets);
          buffers := Some(buffers.value + [octets]);
        case Chars(chars) =>
          if |data| + |chars| >= maxStringLength {
            FlushText();
          }
          EncodeConcat(data, chars);
          data := data + chars;
      }
    }
  }

  lemma EncodeNoCalls()
    ensures EncodeCalls([]) == []
  {
  }

  lemma CallReplyIs(c: Call)
    ensures CallReply(c) == WireCommand(c.name, c.args)
  {
  }

  /** Sending a pipeline's commands to its stream writes exactly one piece: all of them, in order. */
  method ExecPipeline(queue: seq<Call>, maxStringLength: nat) returns (stream: PipelineStream)
    requires queue != []
    ensures fresh(stream) && stream.sent == [EncodeCalls(queue)] && stream.Gathered() == [] && stream.Valid()
  {
    hide RespWire.Encode, Utf8.Encode, Concat, EncodeCalls, CallReply, Decimal;
    EncodeNoCalls();
    stream := new PipelineStream(|queue|, maxStringLength);
    for i := 0 to |queue|
      invariant fresh(stream) && stream.size == |queue| && stream.Valid()
      invariant i < |queue| ==>
          stream.writePending == |queue| - i && stream.sent == [] && stream.Gathered() == EncodeCalls(queue[..i])
      invariant i == |queue| ==> stream.sent == [EncodeCalls(queue)] && stream.Gathered() == []
    {
      var bufferMode := exists a :: a in queue[i].args && a.Data?;
      var w := ToWritable(queue[i].name, queue[i].args, bufferMode);
      CallReplyIs(queue[i]);
      assert queue[..i + 1] == queue[..i] + [queue[i]];
      EncodeCallsSnoc(queue[..i], queue[i]);
      stream.Write(w);
      assert queue[..|queue|] == queue;
    }
  }

  predicate Sendable(c: Call) {
    |c.args| + 1 <= MAX_ARRAY_LENGTH && |Utf8.Encode(c.name)| <= MAX_EXACT
    && forall a :: a in c.args ==> |ArgBytes(a)| <= MAX_EXACT
  }

  /** A command as the decoder shows it: an array of buffers, the name and then the arguments. */
  function CallValue(c: Call): Value {
    Arr([Buf(Utf8.Encode(c.name))] + ArgValues(c.args))
  }

  function ArgValues(args: seq<Arg>): (vs: seq<Value>)
    ensures |vs| == |args|
    ensures forall i :: 0 <= i < |args| ==> vs[i] == Buf(ArgBytes(args[i]))
  {
    if args == [] then [] else [Buf(ArgBytes(args[0]))] + ArgValues(args[1..])
  }

  function CallEvents(calls: seq<Call>): seq<Event> {
    if calls == [] then [] else [Event(OnReply, CallValue(calls[0]))] + CallEvents(calls[1..])
  }

  function Messages(calls: seq<Call>): (ms: seq<Message>)
    ensures |ms| == |calls|
    ensures forall i :: 0 <= i < |calls| ==> ms[i] == ReplyMessage(CallReply(calls[i]))
  {
    if calls == [] then [] else [ReplyMessage(CallReply(calls[0]))] + Messages(calls[1..])
  }

  lemma CallImage(c: Call, tm: TypeMapping)
    requires Sendable(c)
    ensures WellFormed(CallReply(c)) && Image(CallReply(c), tm) == CallValue(c)
  {
    var items := Bulks([Text(c.name)] + c.args);
    assert ImageAll(items, tm) == [Buf(Utf8.Encode(c.name))] + ArgValues(c.args);
  }

  lemma {:induction false} CallsAreMessages(calls: seq<Call>, tm: TypeMapping)
    requires forall c :: c in calls ==> Sendable(c)
    ensures EncodeCalls(calls) == EncodeStream(Messages(calls))
    ensures EventsOf(Messages(calls), tm) == CallEvents(calls)
    ensures forall m :: m in Messages(calls) ==> WellFormedMessage(m)
  {
    hide RespWire.Encode, Image, WellFormed, CallValue, CallReply;
    if calls != [] {
      CallImage(calls[0], tm);
      NotAnError(calls[0]);
      CallsAreMessages(calls[1..], tm);
      assert Messages(calls)[1..] == Messages(calls[1..]);
    }
  }

  lemma NotAnError(c: Call)
    ensures CallReply(c).RArray?
  {
  }

  /**
   A decoder fed the single piece a pipeline writes, cut in any way, reports exactly the queued commands,
   in order, each as the array of its name and arguments. This holds under every type mapping.
   */
  lemma PipelineRoundTrip(queue: seq<Call>, chunks: seq<bytes>, tm: TypeMapping)
    requires forall c :: c in queue ==> Sendable(c)
    requires Concat(chunks) == EncodeCalls(queue)
    ensures FeedAll(Initial, chunks, tm) == State(Idle, 0, CallEvents(queue))
  {
    CallsAreMessages(queue, tm);
    StreamRoundTrip(Messages(queue), chunks, tm);
  }
}
