/**
 Replies, errors and pushes matched to the queue of outstanding commands, and the record of what the
 connection is subscribed to.
 */
module DataHandler {
  import opened Wrappers

  datatype Kind = Channel | Pattern | Shard

  /** What the server holds for a connection, and what the client believes it holds. */
  datatype Subs = Subs(subscribe: set<string>, psubscribe: set<string>, ssubscribe: set<string>) {
    function Channels(kind: Kind): set<string> {
      match kind case Channel => subscribe case Pattern => psubscribe case Shard => ssubscribe
    }

    function With(kind: Kind, channels: set<string>): Subs {
      match kind
      case Channel => this.(subscribe := channels)
      case Pattern => this.(psubscribe := channels)
      case Shard => this.(ssubscribe := channels)
    }

    function Add(kind: Kind, channel: string): Subs {
      With(kind, Channels(kind) + {channel})
    }

    function Del(kind: Kind, channel: string): Subs {
      With(kind, Channels(kind) - {channel})
    }

    function Total(): nat {
      |subscribe| + |psubscribe| + |ssubscribe|
    }
  }

  const NoSubs := Subs({}, {}, {})

  class SubscriptionSet {
    var held: Subs

    constructor ()
      ensures held == NoSubs
    {
      held := NoSubs;
    }

    method Add(kind: Kind, channel: string)
      modifies this
      ensures held == old(held).Add(kind, channel)
    {
      held := held.With(kind, held.Channels(kind) + {channel});
    }

    method Del(kind: Kind, channel: string)
      modifies this
      ensures held == old(held).Del(kind, channel)
    {
      held := held.With(kind, held.Channels(kind) - {channel});
    }

    method IsEmpty() returns (empty: bool)
      ensures empty <==> held == NoSubs
    {
      empty := |held.subscribe| == 0 && |held.psubscribe| == 0 && |held.ssubscribe| == 0;
    }
  }

  datatype Name = Subscribe(kind: Kind) | Unsubscribe(kind: Kind) | Ordinary(text: string)

  datatype Command = Command(id: nat, name: Name, args: seq<string>)

  /** The first element of a pub/sub reply: message, subscribe or unsubscribe and their variants. */
  datatype Word = Message(kind: Kind) | Confirm(kind: Kind) | Revoke(kind: Kind)

  /** A reply; `word` is None unless it is an array that starts with a pub/sub word. */
  datatype Reply = Reply(word: Option<Word>, channel: Option<string>, count: int, body: string)

  datatype Protocol = Protocol2 | Protocol3

  datatype Result = CountResult(count: int) | ReplyResult(reply: Reply)

  datatype Entry =
    | Resolved(id: nat, result: Result)
    | Rejected(id: nat, error: string)
    | Emitted(message: Reply)
    | Moved
    | QueueError
    | Crashed

  /** The client's side of a connection; `remaining` counts the confirmations a command still waits for. */
  datatype Client = Client(protocol: Protocol, queue: seq<Command>, remaining: map<nat, nat>,
                           subscriber: Option<Subs>, log: seq<Entry>)
  {
    function Log(entry: Entry): Client {
      this.(log := log + [entry])
    }

    function Remaining(command: Command): nat {
      if command.id in remaining then remaining[command.id] else |command.args|
    }
  }

  // ---------- what the handlers compute ----------

  /** Counts one confirmation of a subscribe; the command goes back to the head until it has all. */
  function FillSub(c: Client, command: Command, count: int): Client {
    var left := c.Remaining(command) - 1;
    if left <= 0 then c.(remaining := c.remaining - {command.id}).Log(Resolved(command.id, CountResult(count)))
    else c.(remaining := c.remaining[command.id := left], queue := [command] + c.queue)
  }

  /** A bare unsubscribe waits for the reply that counts no subscription at all. */
  function FillUnsub(c: Client, command: Command, count: int): Client {
    var left := c.Remaining(command);
    if left == 0 then
      if count == 0 then c.(remaining := c.remaining - {command.id}).Log(Resolved(command.id, CountResult(count)))
      else c.(queue := [command] + c.queue)
    else if left == 1 then c.Log(Resolved(command.id, CountResult(count)))
    else c.(remaining := c.remaining[command.id := left - 1], queue := [command] + c.queue)
  }

  function OnConfirm(c: Client, r: Reply): Client {
    if c.queue == [] then c.Log(QueueError) else FillSub(c.(queue := c.queue[1..]), c.queue[0], r.count)
  }

  /** The subscription record after an unsubscribe reply. */
  function Revoked(subscriber: Option<Subs>, kind: Kind, r: Reply): Option<Subs> {
    if r.count == 0 then None
    else match subscriber
      case None => None
      case Some(subs) =>
        Some(if r.channel.Some? && r.channel.value != "" then subs.Del(kind, r.channel.value) else subs)
  }

  function OnRevoke(c: Client, kind: Kind, r: Reply): Client {
    var d := c.(subscriber := Revoked(c.subscriber, kind, r));
    if d.queue == [] || d.queue[0].name != Unsubscribe(kind) then
      if kind == Shard then d.Log(Moved) else d
    else FillUnsub(d.(queue := d.queue[1..]), d.queue[0], r.count)
  }

  /** In RESP2, every reply of a subscribed connection is told apart by its first word. */
  function OnSubscriberReply(c: Client, r: Reply): Client
    requires c.subscriber.Some?
  {
    match r.word
    case Some(Message(_)) => c.Log(Emitted(r))
    case Some(Confirm(kind)) =>
      if r.channel.None? then c.Log(Crashed)
      else
        var d := OnConfirm(c.(subscriber := Some(c.subscriber.value.Add(kind, r.channel.value))), r);
        if c.queue == [] then d.Log(QueueError) else d
    case Some(Revoke(kind)) => OnRevoke(c, kind, r)
    case None => if c.queue == [] then c.Log(QueueError).Log(QueueError) else OnOrdinary(c, r)
  }

  function OnOrdinary(c: Client, r: Reply): Client
    requires c.queue != []
  {
    c.(queue := c.queue[1..]).Log(Resolved(c.queue[0].id, ReplyResult(r)))
  }

  function OnReplyFrame(c: Client, r: Reply): Client {
    if c.protocol != Protocol3 && c.subscriber.Some? then OnSubscriberReply(c, r)
    else if c.queue == [] then c.Log(QueueError)
    else
      match c.queue[0].name
      case Subscribe(kind) =>
        if r.channel.None? then c.(queue := c.queue[1..], subscriber := Some(NoSubs)).Log(Crashed)
        else
          FillSub(c.(queue := c.queue[1..], subscriber := Some(NoSubs.Add(kind, r.channel.value))), c.queue[0], r.count)
      case Unsubscribe(_) => FillUnsub(c.(queue := c.queue[1..]), c.queue[0], r.count)
      case Ordinary(_) => OnOrdinary(c, r)
  }

  function OnPushFrame(c: Client, r: Reply): Client {
    match r.word
    case None => c
    case Some(Message(_)) => if c.subscriber.Some? then c.Log(Emitted(r)) else c
    case Some(Confirm(kind)) =>
      var subs := if c.subscriber.Some? then c.subscriber.value else NoSubs;
      if r.channel.None? then c.(subscriber := Some(subs)).Log(Crashed)
      else OnConfirm(c.(subscriber := Some(subs.Add(kind, r.channel.value))), r)
    case Some(Revoke(kind)) => OnRevoke(c, kind, r)
  }

  /** An error settles the head; a moved shard subscription also asks for a new topology. */
  function OnErrorFrame(c: Client, error: string, moved: bool): Client {
    if c.queue == [] then c.Log(QueueError)
    else
      var d := c.(queue := c.queue[1..]);
      (if c.queue[0].name == Subscribe(Shard) && moved then d.Log(Moved) else d).Log(Rejected(c.queue[0].id, error))
  }

  // ---------- the handlers ----------

  class Handler {
    const protocol: Protocol
    var commandQueue: seq<Command>
    var remainingReplies: map<nat, nat>
    var subscriber: SubscriptionSet?
    var log: seq<Entry>

    constructor (protocol: Protocol)
      ensures View() == Client(protocol, [], map[], None, [])
    {
      this.protocol := protocol;
      commandQueue, remainingReplies, subscriber, log := [], map[], null, [];
    }

    ghost function View(): Client
      reads this, subscriber
    {
      Client(protocol, commandQueue, remainingReplies, if subscriber == null then None else Some(subscriber.held), log)
    }

    method Emit(entry: Entry)
      modifies `log
      ensures log == old(log) + [entry]
    {
      log := log + [entry];
    }

    method ShiftCommand() returns (item: Option<Command>)
      modifies `commandQueue, `log
      ensures item.None? ==> old(commandQueue) == [] && commandQueue == [] && log == old(log) + [QueueError]
      ensures item.Some? ==> old(commandQueue) == [item.value] + commandQueue && log == old(log)
    {
      if commandQueue == [] {
        Emit(QueueError);
        return None;
      }
      item := Some(commandQueue[0]);
      commandQueue := commandQueue[1..];
    }

    method FillSubCommand(command: Command, count: int)
      modifies `commandQueue, `remainingReplies, `log
      ensures View() == FillSub(old(View()), command, count)
    {
      var remaining := if command.id in remainingReplies then remainingReplies[command.id] else |command.args|;
      remaining := remaining - 1;
      if remaining <= 0 {
        Emit(Resolved(command.id, CountResult(count)));
        remainingReplies := remainingReplies - {command.id};
      } else {
        remainingReplies := remainingReplies[command.id := remaining];
        commandQueue := [command] + commandQueue;
      }
    }

    method FillUnsubCommand(command: Command, count: int)
      modifies `commandQueue, `remainingReplies, `log
      ensures View() == FillUnsub(old(View()), command, count)
    {
      var remaining := if command.id in remainingReplies then remainingReplies[command.id] else |command.args|;
      if remaining == 0 {
        if count == 0 {
          remainingReplies := remainingReplies - {command.id};
          Emit(Resolved(command.id, CountResult(count)));
        } else {
          commandQueue := [command] + commandQueue;
        }
        return;
      }
      remaining := remaining - 1;
      if remaining <= 0 {
        Emit(Resolved(command.id, CountResult(count)));
      } else {
        remainingReplies := remainingReplies[command.id := remaining];
        commandQueue := [command] + commandQueue;
      }
    }

    /** True when the confirmation found its command. */
    method Confirmed(count: int) returns (found: bool)
      modifies `commandQueue, `remainingReplies, `log
      ensures View() == OnConfirm(old(View()), Reply(None, None, count, ""))
      ensures found <==> old(commandQueue) != []
    {
      var item := ShiftCommand();
      match item {
        case None => found := false;
        case Some(command) =>
          assert old(commandQueue)[0] == command && old(commandQueue)[1..] == commandQueue;
          FillSubCommand(command, count);
          found := true;
      }
    }

    method RevokeReply(kind: Kind, r: Reply)
      modifies this, subscriber
      ensures View() == OnRevoke(old(View()), kind, r)
      ensures subscriber == old(subscriber) || subscriber == null
    {
      if subscriber != null && r.channel.Some? && r.channel.value != "" {
        subscriber.Del(kind, r.channel.value);
      }
      if r.count == 0 {
        subscriber := null;
      }
      if HandleUnsolicited(kind) {
        if kind == Shard {
          Emit(Moved);
        }
        return;
      }
      var item := ShiftCommand();
      assert old(commandQueue)[0] == item.value && old(commandQueue)[1..] == commandQueue;
      FillUnsubCommand(item.value, r.count);
    }

    predicate HandleUnsolicited(kind: Kind)
      reads this
    {
      !(commandQueue != [] && commandQueue[0].name == Unsubscribe(kind))
    }

    /** True when the reply was taken care of. */
    method HandleSubscriberReply(r: Reply) returns (handled: bool)
      requires subscriber != null
      modifies this, subscriber
      ensures handled ==> View() == OnSubscriberReply(old(View()), r)
      ensures !handled ==> View().Log(QueueError) == OnSubscriberReply(old(View()), r) && commandQueue == []
    {
      match r.word {
        case Some(Message(_)) =>
          Emit(Emitted(r));
          return true;
        case Some(Confirm(kind)) =>
          if r.channel.None? {
            Emit(Crashed);
            return true;
          }
          subscriber.Add(kind, r.channel.value);
          handled := Confirmed(r.count);
        case Some(Revoke(kind)) =>
          RevokeReply(kind, r);
          return true;
        case None =>
          var item := ShiftCommand();
          if item.None? {
            return false;
          }
          assert old(commandQueue)[0] == item.value && old(commandQueue)[1..] == commandQueue;
          Emit(Resolved(item.value.id, ReplyResult(r)));
          return true;
      }
    }

    method ReturnReply(r: Reply)
      modifies this, subscriber
      ensures View() == OnReplyFrame(old(View()), r)
    {
      if protocol != Protocol3 && subscriber != null {
        var handled := HandleSubscriberReply(r);
        if handled {
          return;
        }
        var none := ShiftCommand();
        return;
      }
      var item := ShiftCommand();
      if item.None? {
        return;
      }
      assert old(commandQueue)[0] == item.value && old(commandQueue)[1..] == commandQueue;
      match item.value.name {
        case Subscribe(kind) =>
          subscriber := new SubscriptionSet();
          if r.channel.None? {
            Emit(Crashed);
            return;
          }
          subscriber.Add(kind, r.channel.value);
          FillSubCommand(item.value, r.count);
        case Unsubscribe(_) => FillUnsubCommand(item.value, r.count);
        case Ordinary(_) => Emit(Resolved(item.value.id, ReplyResult(r)));
      }
    }

    method ReturnPush(r: Reply)
      modifies this, subscriber
      ensures View() == OnPushFrame(old(View()), r)
    {
      match r.word {
        case None =>
        case Some(Message(_)) =>
          if subscriber != null {
            Emit(Emitted(r));
          }
        case Some(Confirm(kind)) =>
          if subscriber == null {
            subscriber := new SubscriptionSet();
          }
          if r.channel.None? {
            Emit(Crashed);
            return;
          }
          subscriber.Add(kind, r.channel.value);
          var found := Confirmed(r.count);
        case Some(Revoke(kind)) => RevokeReply(kind, r);
      }
    }

    method ReturnError(error: string, moved: bool)
      modifies this
      ensures View() == OnErrorFrame(old(View()), error, moved)
    {
      var item := ShiftCommand();
      if item.None? {
        return;
      }
      assert old(commandQueue)[0] == item.value && old(commandQueue)[1..] == commandQueue;
      if item.value.name == Subscribe(Shard) && moved {
        Emit(Moved);
      }
      Emit(Rejected(item.value.id, error));
    }
  }
}
