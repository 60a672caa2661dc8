/**
 From one ready connection to the next: what closing keeps, what failed attempts leave alone, and what
 becoming ready writes.
 */
module Outage {
  import opened Bytes
  import opened Wrappers
  import opened Queues

  datatype Status = Connecting | Connect | Ready | Reconnecting | End

  /** A command that subscribes, on its own. */
  type Subscribing = c: Command | c.verb == Other && c.pipelineIndex == None witness Command(None, Other, None, false)

  /** The selected database, and the subscribe commands that would restore the subscriptions, if any. */
  datatype Condition = Condition(select: int, resubscribe: Option<seq<Subscribing>>)

  /** The condition kept from before an outage is the current object until a new one is made. */
  datatype PrevCondition = NoCondition | SameCondition | OwnCondition(condition: Condition)

  /** Likewise for the queue of unanswered commands. */
  datatype PrevQueue = NoQueue | SameQueue | OwnQueue(items: seq<Item>)

  /** A command on the wire; `wants` is the database recorded with it when it was first issued. */
  datatype Write = Write(command: Command, wants: Option<int>)

  datatype Options = Options(db: int, autoResend: bool, autoResubscribe: bool, offlineQueue: bool)

  datatype Client = Client(options: Options, status: Status, condition: Condition, prevCondition: PrevCondition,
                           queue: seq<Item>, prevQueue: PrevQueue, offline: seq<Item>,
                           gathered: map<nat, seq<Write>>, wire: seq<Write>, rejected: seq<Item>)
  {
    function PrevItems(): seq<Item> {
      match prevQueue case NoQueue => [] case SameQueue => queue case OwnQueue(items) => items
    }

    function Remembered(): Condition {
      match prevCondition case OwnCondition(c) => c case _ => condition
    }
  }

  // ---------- what the handlers compute ----------

  /** A command with a stream waits there until its pipeline is complete. */
  function WriteOut(s: Client, w: Write, stream: Option<Pipe>): Client {
    match stream
    case None => s.(wire := s.wire + [w])
    case Some(pipe) =>
      var all := (if pipe.number in s.gathered then s.gathered[pipe.number] else []) + [w];
      if |all| == pipe.size then s.(wire := s.wire + all, gathered := s.gathered - {pipe.number})
      else s.(gathered := s.gathered[pipe.number := all])
  }

  predicate Writable(s: Client, command: Command, stream: Option<Pipe>) {
    s.status == Ready || (stream == None && s.status == Connect && command.verb.Select?)
  }

  function TrackSelect(s: Client, command: Command): Client {
    if command.verb.Select? && command.verb.db.Some?
    then s.(condition := s.condition.(select := command.verb.db.value)) else s
  }

  function Send(s: Client, command: Command, stream: Option<Pipe>, wants: Option<int>): Client {
    var item := Item(command, stream, s.condition.select);
    if s.status == End then s.(rejected := s.rejected + [item])
    else if Writable(s, command, stream) then
      TrackSelect(WriteOut(s, Write(command, wants), stream).(queue := s.queue + [item]), command)
    else if !s.options.offlineQueue then s.(rejected := s.rejected + [item])
    else TrackSelect(s.(offline := s.offline + [item]), command)
  }

  function SelectCommand(db: int): Command {
    Command(None, Select(Some(db)), None, false)
  }

  function SendSelect(s: Client, db: int): Client {
    if s.condition.select != db then Send(s, SelectCommand(db), None, None) else s
  }

  function Resend(s: Client, item: Item): Client {
    Send(if item.command.verb.Select? then s else SendSelect(s, item.select),
         item.command, item.stream, Some(item.select))
  }

  function ResendAll(s: Client, items: seq<Item>): Client
    decreases |items|
  {
    if items == [] then s else ResendAll(Resend(s, items[0]), items[1..])
  }

  function SendAll(s: Client, commands: seq<Command>): Client
    decreases |commands|
  {
    if commands == [] then s else SendAll(Send(s, commands[0], None, None), commands[1..])
  }

  function Flush(s: Client): Client {
    s.(offline := [], queue := [], rejected := s.rejected + s.offline + s.queue)
  }

  function Prune(s: Client): Client {
    var answered, waiting := Incomplete(s.queue, 0), Fragments(s.offline);
    s.(queue := answered.kept, offline := waiting.kept, rejected := s.rejected + answered.rejected + waiting.rejected)
  }

  /** Only a connection that was ready is remembered. */
  function Remember(s: Client): Client {
    if s.status != Ready then s
    else s.(prevCondition := if s.prevCondition == NoCondition then SameCondition else s.prevCondition,
            prevQueue := if s.queue != [] then SameQueue else s.prevQueue)
  }

  /** `retry` is whether the retry strategy gives a delay, `flush` whether the retry limit is reached. */
  function OnClose(s: Client, retry: bool, flush: bool): Client {
    var kept := Remember(Prune(s));
    if !retry then Flush(kept.(status := End))
    else if flush then Flush(kept.(status := Reconnecting))
    else kept.(status := Reconnecting)
  }

  /** A new attempt starts from a fresh condition. */
  function OnAttempt(s: Client): Client {
    s.(status := Connecting, condition := Condition(s.options.db, None),
       prevCondition := if s.prevCondition == SameCondition then OwnCondition(s.condition) else s.prevCondition)
  }

  /** A new stream: a fresh queue, and a handshake that selects the condition's database and is answered. */
  function OnConnect(s: Client): Client {
    s.(status := Connect, queue := [],
       wire := if s.condition.select != 0 then [Write(SelectCommand(s.condition.select), None)] else [],
       prevQueue := if s.prevQueue == SameQueue then OwnQueue(s.queue) else s.prevQueue)
  }

  function Resubscribe(s: Client, remembered: Condition): Client {
    if remembered.resubscribe.Some? && s.options.autoResubscribe
    then SendAll(SendSelect(s, remembered.select), remembered.resubscribe.value) else s
  }

  function ResendPrevious(s: Client): Client {
    if s.prevQueue == NoQueue then s
    else if !s.options.autoResend then s.(prevQueue := NoQueue)
    else ResendAll(s.(prevQueue := OwnQueue([])), s.PrevItems())
  }

  function ResendOffline(s: Client): Client {
    ResendAll(s.(offline := []), s.offline)
  }

  function OnReady(s: Client): Client {
    var final := s.Remembered().select;
    var r := s.(status := Ready, prevCondition := NoCondition);
    var subscribed := if s.prevCondition == NoCondition then r else Resubscribe(r, s.Remembered());
    SendSelect(ResendOffline(ResendPrevious(subscribed)), final)
  }

  // ---------- the wire ----------

  /** The database a server is on after one more write. */
  function DbStep(db: int, w: Write): int {
    if w.command.verb.Select? && w.command.verb.db.Some? then w.command.verb.db.value else db
  }

  function DbAfter(db: int, ws: seq<Write>): int
    decreases |ws|
  {
    if ws == [] then db else DbAfter(DbStep(db, ws[0]), ws[1..])
  }

  /** Every command that is not a SELECT runs on the database recorded with it. */
  predicate Obeys(db: int, ws: seq<Write>)
    decreases |ws|
  {
    ws == []
    || ((ws[0].wants.Some? && !ws[0].command.verb.Select? ==> db == ws[0].wants.value)
        && Obeys(DbStep(db, ws[0]), ws[1..]))
  }

  lemma {:induction false} WiresAppend(db: int, a: seq<Write>, b: seq<Write>)
    ensures DbAfter(db, a + b) == DbAfter(DbAfter(db, a), b)
    ensures Obeys(db, a + b) <==> Obeys(db, a) && Obeys(DbAfter(db, a), b)
    decreases |a|
  {
    if a == [] {
      assert a + b == b;
    } else {
      assert (a + b)[1..] == a[1..] + b && (a + b)[0] == a[0];
      WiresAppend(DbStep(db, a[0]), a[1..], b);
    }
  }

  /** The writes of commands that were issued before, without the ones inserted on the way. */
  function Originals(ws: seq<Write>): seq<Command> {
    if ws == [] then [] else (if ws[0].wants.Some? then [ws[0].command] else []) + Originals(ws[1..])
  }

  lemma {:induction false} OriginalsAppend(a: seq<Write>, b: seq<Write>)
    ensures Originals(a + b) == Originals(a) + Originals(b)
  {
    if a == [] {
      assert a + b == b;
    } else {
      assert (a + b)[1..] == a[1..] + b;
      OriginalsAppend(a[1..], b);
    }
  }

  function Commands(items: seq<Item>): seq<Command> {
    seq(|items|, i requires 0 <= i < |items| => items[i].command)
  }

  function WireCommands(ws: seq<Write>): seq<Command> {
    seq(|ws|, i requires 0 <= i < |ws| => ws[i].command)
  }

  /**
   What sending a list of commands on a ready connection does: `ws` goes out, and each command that is not a
   SELECT finds its own database.
   */
  ghost predicate Wired(s: Client, t: Client, ws: seq<Write>) {
    && t.status == s.status && t.options == s.options && t.rejected == s.rejected && t.gathered == s.gathered
    && t.wire == s.wire + ws && Obeys(s.condition.select, ws) && t.condition.select == DbAfter(s.condition.select, ws)
  }

  /** The queue of outstanding commands grows by these, in this order. */
  predicate Lined(s: Client, t: Client, commands: seq<Command>) {
    Commands(t.queue) == Commands(s.queue) + commands
  }

  lemma LinedNothing(s: Client)
    ensures Lined(s, s, [])
  {
    assert Commands(s.queue) + [] == Commands(s.queue);
  }

  lemma LinedTrans(s: Client, t: Client, u: Client, a: seq<Command>, b: seq<Command>)
    requires Lined(s, t, a) && Lined(t, u, b)
    ensures Lined(s, u, a + b)
  {
    assert Commands(s.queue) + a + b == Commands(s.queue) + (a + b);
  }

  /** The same, with the queues and the condition of the previous connection untouched. */
  ghost predicate Wrote(s: Client, t: Client, ws: seq<Write>) {
    Wired(s, t, ws) && t.prevCondition == s.prevCondition && t.prevQueue == s.prevQueue && t.offline == s.offline
  }

  lemma WroteNothing(s: Client)
    ensures Wrote(s, s, [])
  {
  }

  lemma WiredTrans(s: Client, t: Client, u: Client, a: seq<Write>, b: seq<Write>)
    requires Wired(s, t, a) && Wired(t, u, b)
    ensures Wired(s, u, a + b)
    ensures Originals(a + b) == Originals(a) + Originals(b)
  {
    WiresAppend(s.condition.select, a, b);
    OriginalsAppend(a, b);
    assert s.wire + a + b == s.wire + (a + b);
  }

  lemma WroteTrans(s: Client, t: Client, u: Client, a: seq<Write>, b: seq<Write>)
    requires Wrote(s, t, a) && Wrote(t, u, b)
    ensures Wrote(s, u, a + b)
    ensures Originals(a + b) == Originals(a) + Originals(b)
  {
    hide Wired;
    WiredTrans(s, t, u, a, b);
  }

  lemma SendWrites(s: Client, command: Command, wants: Option<int>)
    requires s.status == Ready
    requires wants.Some? && !command.verb.Select? ==> wants.value == s.condition.select
    ensures Wrote(s, Send(s, command, None, wants), [Write(command, wants)])
    ensures Lined(s, Send(s, command, None, wants), [command])
  {
    assert [Write(command, wants)][1..] == [];
  }

  lemma SendSelectWrites(s: Client, db: int) returns (ws: seq<Write>)
    requires s.status == Ready
    ensures Wrote(s, SendSelect(s, db), ws) && Originals(ws) == []
    ensures SendSelect(s, db).condition.select == db
    ensures ws == if s.condition.select == db then [] else [Write(SelectCommand(db), None)]
    ensures Lined(s, SendSelect(s, db), WireCommands(ws))
  {
    WroteNothing(s);
    LinedNothing(s);
    ws := [];
    assert WireCommands(ws) == [];
    if s.condition.select != db {
      ws := [Write(SelectCommand(db), None)];
      SendWrites(s, SelectCommand(db), None);
      assert ws[1..] == [] && WireCommands(ws) == [SelectCommand(db)];
    }
  }

  lemma {:induction false} SendAllWrites(s: Client, commands: seq<Command>) returns (ws: seq<Write>)
    requires s.status == Ready
    ensures Wrote(s, SendAll(s, commands), ws) && Originals(ws) == []
    ensures |ws| == |commands| && forall i :: 0 <= i < |ws| ==> ws[i] == Write(commands[i], None)
    ensures Lined(s, SendAll(s, commands), commands)
    decreases |commands|
  {
    if commands == [] {
      WroteNothing(s);
      LinedNothing(s);
      ws := [];
    } else {
      var first := [Write(commands[0], None)];
      SendWrites(s, commands[0], None);
      assert first[1..] == [];
      var rest := SendAllWrites(Send(s, commands[0], None, None), commands[1..]);
      WroteTrans(s, Send(s, commands[0], None, None), SendAll(s, commands), first, rest);
      LinedTrans(s, Send(s, commands[0], None, None), SendAll(s, commands), [commands[0]], commands[1..]);
      assert [commands[0]] + commands[1..] == commands;
      ws := first + rest;
    }
  }

  // ---------- sending blocks again ----------

  function After(item: Item): int {
    if item.command.verb.Select? && item.command.verb.db.Some? then item.command.verb.db.value else item.select
  }

  /** The databases recorded in a block follow from the SELECTs in it, as when its commands are issued together. */
  predicate Chained(b: seq<Item>) {
    forall i :: 0 < i < |b| ==> b[i].select == After(b[i - 1])
  }

  /** How many commands at the front of a block are SELECTs of something that is not an integer. */
  function BadSelects(b: seq<Item>): (n: nat)
    ensures n <= |b|
    ensures forall i :: 0 <= i < n ==> b[i].command.verb == Select(None)
    ensures n < |b| ==> b[n].command.verb != Select(None)
  {
    if b == [] || b[0].command.verb != Select(None) then 0 else 1 + BadSelects(b[1..])
  }

  /**
   A pipeline that starts with such SELECTs gets its own database selected only in its middle: the
   inserted SELECT overtakes the gathered part of the pipeline on the wire, but not in the queue.
   */
  predicate Misplaces(db: int, b: seq<Item>) {
    0 < BadSelects(b) < |b| && !b[BadSelects(b)].command.verb.Select? && b[BadSelects(b)].select != db
  }

  predicate Resendable(bs: seq<seq<Item>>) {
    Blocks(bs) && forall b :: b in bs ==> Chained(b)
  }

  function WritesOf(b: seq<Item>): seq<Write> {
    seq(|b|, i requires 0 <= i < |b| => Write(b[i].command, Some(b[i].select)))
  }

  lemma {:induction false} OriginalsOf(b: seq<Item>)
    ensures Originals(WritesOf(b)) == Commands(b) == WireCommands(WritesOf(b))
  {
    if b != [] {
      OriginalsOf(b[1..]);
      assert WritesOf(b)[1..] == WritesOf(b[1..]);
      assert Commands(b) == [b[0].command] + Commands(b[1..]);
    }
  }

  /** The commands of a chained block find the right database one after the other. */
  lemma {:induction false} ChainedObeys(b: seq<Item>, db: int)
    requires Chained(b)
        && (b != [] ==> db == b[0].select || (b[0].command.verb.Select? && (|b| == 1 || b[0].command.verb.db.Some?)))
    ensures Obeys(db, WritesOf(b))
    decreases |b|
  {
    if b != [] {
      var ws := WritesOf(b);
      assert ws[1..] == WritesOf(b[1..]);
      if |b| > 1 {
        assert b[1..][0].select == After(b[0]) == DbStep(db, ws[0]);
        assert Chained(b[1..]) by {
          forall i | 0 < i < |b[1..]|
            ensures b[1..][i].select == After(b[1..][i - 1])
          {
            assert b[i + 1].select == After(b[i]);
          }
        }
      }
      ChainedObeys(b[1..], DbStep(db, ws[0]));
    }
  }

  /** What stays the same while commands are sent on a ready connection, and how the queue grows. */
  ghost predicate Sent(s: Client, t: Client, commands: seq<Command>) {
    && t.status == s.status && t.options == s.options && t.prevCondition == s.prevCondition
    && t.prevQueue == s.prevQueue
    && t.offline == s.offline && t.rejected == s.rejected
    && Commands(t.queue) == Commands(s.queue) + commands
  }

  lemma SentStatus(s: Client, t: Client, commands: seq<Command>)
    requires Sent(s, t, commands)
    ensures t.status == s.status
  {
  }

  /** Sending a command with a stream, on a connection that is ready. */
  lemma SendStreamed(s: Client, command: Command, pipe: Pipe, wants: int)
    requires s.status == Ready
    ensures var t := Send(s, command, Some(pipe), Some(wants));
            var w := WriteOut(s, Write(command, Some(wants)), Some(pipe));
            Sent(s, t, [command]) && t.wire == w.wire && t.gathered == w.gathered
            && t.condition.select == DbStep(s.condition.select, Write(command, Some(wants)))
  {
    var t := Send(s, command, Some(pipe), Some(wants));
    assert Commands(t.queue) == Commands(s.queue) + [command];
  }

  /** One command of a pipeline whose database is already selected: it waits, or completes the pipeline. */
  lemma ResendInPipeline(s: Client, b: seq<Item>, pipe: Pipe, k: nat)
    requires s.status == Ready && PipelineFrom(b, pipe, 0) && k < |b|
    requires s.gathered == if k == 0 then map[] else map[pipe.number := WritesOf(b[..k])]
    requires s.condition.select == b[k].select || b[k].command.verb.Select?
    ensures var t := Resend(s, b[k]);
            Sent(s, t, [b[k].command])
            && t.condition.select == DbStep(s.condition.select, WritesOf(b)[k])
            && (k + 1 < |b| ==> t.wire == s.wire && t.gathered == map[pipe.number := WritesOf(b[..k + 1])])
            && (k + 1 == |b| ==> t.wire == s.wire + WritesOf(b) && t.gathered == map[])
  {
    hide Send, Sent;
    var w := Write(b[k].command, Some(b[k].select));
    assert WritesOf(b[..k + 1]) == WritesOf(b[..k]) + [w];
    assert b[..|b|] == b;
    assert k == 0 ==> WritesOf(b[..k]) == [];
    SendStreamed(s, b[k].command, pipe, b[k].select);
  }

  lemma SentTrans(s: Client, t: Client, u: Client, a: seq<Command>, b: seq<Command>)
    requires Sent(s, t, a) && Sent(t, u, b)
    ensures Sent(s, u, a + b)
  {
    assert Commands(s.queue) + a + b == Commands(s.queue) + (a + b);
  }

  lemma OneWrite(db: int, w: Write, rest: seq<Write>)
    ensures DbAfter(db, [w] + rest) == DbAfter(DbStep(db, w), rest)
  {
    assert ([w] + rest)[1..] == rest;
  }

  /** The rest of a pipeline, from a position whose database is already selected. */
  lemma {:induction false} ResendPipeline(s: Client, b: seq<Item>, pipe: Pipe, k: nat)
    requires s.status == Ready && PipelineFrom(b, pipe, 0) && Chained(b) && k < |b|
    requires s.gathered == if k == 0 then map[] else map[pipe.number := WritesOf(b[..k])]
    requires s.condition.select == b[k].select
        || (b[k].command.verb.Select? && (k + 1 == |b| || b[k].command.verb.db.Some?))
    ensures var t := ResendAll(s, b[k..]);
            Sent(s, t, Commands(b[k..]))
            && t.condition.select == DbAfter(s.condition.select, WritesOf(b[k..]))
            && t.wire == s.wire + WritesOf(b) && t.gathered == map[]
    decreases |b| - k
  {
    hide Resend, Sent, PipelineFrom;
    ResendInPipeline(s, b, pipe, k);
    var u := Resend(s, b[k]);
    assert b[k..][1..] == b[k + 1..] && b[k..][0] == b[k];
    assert WritesOf(b[k..]) == [WritesOf(b)[k]] + WritesOf(b[k + 1..]);
    OneWrite(s.condition.select, WritesOf(b)[k], WritesOf(b[k + 1..]));
    assert Commands(b[k..]) == [b[k].command] + Commands(b[k + 1..]);
    SentStatus(s, u, [b[k].command]);
    if k + 1 < |b| {
      assert u.condition.select == b[k + 1].select by {
        assert b[k + 1].select == After(b[k]);
      }
      ResendPipeline(u, b, pipe, k + 1);
      SentTrans(s, u, ResendAll(s, b[k..]), [b[k].command], Commands(b[k + 1..]));
    } else {
      assert b[k + 1..] == [];
      assert Commands(b[k..]) == [b[k].command];
    }
  }

  lemma {:induction false} ResendAllAppend(s: Client, a: seq<Item>, b: seq<Item>)
    ensures ResendAll(s, a + b) == ResendAll(ResendAll(s, a), b)
    decreases |a|
  {
    hide Resend;
    if a == [] {
      assert a + b == b;
    } else {
      assert (a + b)[1..] == a[1..] + b && (a + b)[0] == a[0];
      ResendAllAppend(Resend(s, a[0]), a[1..], b);
    }
  }

  lemma {:induction false} BadSelectsChangeNothing(b: seq<Item>, db: int)
    requires forall i :: 0 <= i < |b| ==> b[i].command.verb == Select(None)
    ensures DbAfter(db, WritesOf(b)) == db && Obeys(db, WritesOf(b))
    decreases |b|
  {
    if b != [] {
      assert WritesOf(b)[1..] == WritesOf(b[1..]);
      BadSelectsChangeNothing(b[1..], db);
    }
  }

  /** The leading bad SELECTs of a pipeline are gathered and select nothing. */
  lemma {:induction false} ResendBadSelects(s: Client, b: seq<Item>, pipe: Pipe, k: nat)
    requires s.status == Ready && s.gathered == map[] && PipelineFrom(b, pipe, 0) && k <= BadSelects(b) && k < |b|
    ensures var u := ResendAll(s, b[..k]);
            Sent(s, u, Commands(b[..k])) && u.condition.select == s.condition.select && u.wire == s.wire
            && u.gathered == if k == 0 then map[] else map[pipe.number := WritesOf(b[..k])]
    decreases k
  {
    hide Resend, PipelineFrom;
    if k == 0 {
      assert Commands(b[..0]) == [] && Commands(s.queue) + [] == Commands(s.queue);
    } else {
      ResendBadSelects(s, b, pipe, k - 1);
      var u := ResendAll(s, b[..k - 1]);
      ResendInPipeline(u, b, pipe, k - 1);
      assert b[..k] == b[..k - 1] + [b[k - 1]];
      ResendAllAppend(s, b[..k - 1], [b[k - 1]]);
      ResendAllOne(u, b[k - 1]);
      SentTrans(s, u, Resend(u, b[k - 1]), Commands(b[..k - 1]), [b[k - 1].command]);
      assert Commands(b[..k]) == Commands(b[..k - 1]) + [b[k - 1].command];
    }
  }

  lemma ResendAllOne(s: Client, item: Item)
    ensures ResendAll(s, [item]) == Resend(s, item)
  {
    hide Resend;
    assert [item][1..] == [];
    assert ResendAll(Resend(s, item), []) == Resend(s, item);
  }

  /** Selecting first and then sending is what sending does. */
  lemma AlignedFirst(s: Client, b: seq<Item>, aligned: Client)
    requires b != [] && s.status == Ready && !b[0].command.verb.Select? && aligned == SendSelect(s, b[0].select)
    ensures ResendAll(s, b) == ResendAll(aligned, b)
    ensures aligned.condition.select == b[0].select
  {
    assert aligned.condition.select == b[0].select;
    assert Resend(s, b[0]) == Resend(aligned, b[0]);
  }

  /** A pipeline on a connection that has its database, or that needs no other one before its first SELECT. */
  lemma ResendAligned(s: Client, b: seq<Item>, pipe: Pipe)
    requires s.status == Ready && s.gathered == map[] && PipelineFrom(b, pipe, 0) && Chained(b) && b != []
    requires !Misplaces(s.condition.select, b)
    requires BadSelects(b) == 0 && !b[0].command.verb.Select? ==> s.condition.select == b[0].select
    ensures Wrote(s, ResendAll(s, b), WritesOf(b)) && Lined(s, ResendAll(s, b), Commands(b))
  {
    hide Resend, PipelineFrom, Chained, ResendAll;
    var n := BadSelects(b);
    var k := if n == |b| then n - 1 else n;
    assert b == b[..k] + b[k..];
    ResendBadSelects(s, b, pipe, k);
    ResendAllAppend(s, b[..k], b[k..]);
    var u := ResendAll(s, b[..k]);
    SentStatus(s, u, Commands(b[..k]));
    ResendPipeline(u, b, pipe, k);
    SentTrans(s, u, ResendAll(s, b), Commands(b[..k]), Commands(b[k..]));
    assert Commands(b) == Commands(b[..k]) + Commands(b[k..]);
    OriginalsOf(b);
    assert WritesOf(b) == WritesOf(b[..k]) + WritesOf(b[k..]);
    WiresAppend(s.condition.select, WritesOf(b[..k]), WritesOf(b[k..]));
    BadSelectsChangeNothing(b[..k], s.condition.select);
    ChainedTail(b, k);
    ChainedObeys(b[k..], s.condition.select);
  }

  lemma ChainedTail(b: seq<Item>, k: nat)
    requires Chained(b) && k <= |b|
    ensures Chained(b[k..])
  {
    forall i | 0 < i < |b[k..]|
      ensures b[k..][i].select == After(b[k..][i - 1])
    {
      assert b[k + i].select == After(b[k + i - 1]);
    }
  }

  /** The SELECT that goes out before a block, if any: it is for the first command that needs its database. */
  function Alignment(db: int, b: seq<Item>): seq<Write> {
    if Misplaces(db, b) then [Write(SelectCommand(b[BadSelects(b)].select), None)]
    else if b == [] || b[0].command.verb.Select? || b[0].select == db then []
    else [Write(SelectCommand(b[0].select), None)]
  }

  /** The order in which a block and the SELECT for it are queued: a misplaced one stands in the block's middle. */
  function BlockQueue(db: int, b: seq<Item>): seq<Command> {
    var n := BadSelects(b);
    if Misplaces(db, b) then Commands(b[..n]) + WireCommands(Alignment(db, b)) + Commands(b[n..])
    else WireCommands(Alignment(db, b)) + Commands(b)
  }

  /** A block is written in one piece, after a SELECT when it needs another database. */
  lemma ResendBlock(s: Client, b: seq<Item>) returns (ws: seq<Write>)
    requires s.status == Ready && s.gathered == map[] && Block(b) && Chained(b)
    ensures Wrote(s, ResendAll(s, b), ws) && Originals(ws) == Commands(b)
    ensures ws == Alignment(s.condition.select, b) + WritesOf(b)
    ensures Lined(s, ResendAll(s, b), BlockQueue(s.condition.select, b))
  {
    if Misplaces(s.condition.select, b) {
      ws := ResendMisplaced(s, b);
    } else {
      ws := ResendPlaced(s, b);
    }
  }

  lemma ResendPlaced(s: Client, b: seq<Item>) returns (ws: seq<Write>)
    requires s.status == Ready && s.gathered == map[] && Block(b) && Chained(b) && !Misplaces(s.condition.select, b)
    ensures Wrote(s, ResendAll(s, b), ws) && Originals(ws) == Commands(b)
    ensures ws == Alignment(s.condition.select, b) + WritesOf(b)
    ensures Lined(s, ResendAll(s, b), WireCommands(Alignment(s.condition.select, b)) + Commands(b))
  {
    hide Resend, ResendAll, Chained, Wrote, Lined;
    var select: seq<Write> := [];
    var aligned := s;
    WroteNothing(s);
    LinedNothing(s);
    assert WireCommands(select) == [];
    if !b[0].command.verb.Select? {
      select := SendSelectWrites(s, b[0].select);
      aligned := SendSelect(s, b[0].select);
      AlignedFirst(s, b, aligned);
      WroteReady(s, aligned, select);
    }
    OriginalsOf(b);
    if b[0].stream == None {
      assert b == [b[0]];
      assert WritesOf(b) == [Write(b[0].command, Some(b[0].select))] && Commands(b) == [b[0].command];
      ResendAllOne(aligned, b[0]);
      ResendIsSend(aligned, b[0]);
      SendWrites(aligned, b[0].command, Some(b[0].select));
    } else {
      ResendAligned(aligned, b, b[0].stream.value);
    }
    WroteTrans(s, aligned, ResendAll(s, b), select, WritesOf(b));
    LinedTrans(s, aligned, ResendAll(s, b), WireCommands(select), Commands(b));
    ws := select + WritesOf(b);
  }

  lemma ResendMisplaced(s: Client, b: seq<Item>) returns (ws: seq<Write>)
    requires s.status == Ready && s.gathered == map[] && Block(b) && Chained(b) && Misplaces(s.condition.select, b)
    ensures Wrote(s, ResendAll(s, b), ws) && Originals(ws) == Commands(b)
    ensures ws == Alignment(s.condition.select, b) + WritesOf(b)
    ensures Lined(s, ResendAll(s, b), BlockQueue(s.condition.select, b))
  {
    hide ResendAll, PipelineFrom, Chained;
    var n, db := BadSelects(b), s.condition.select;
    var select := Write(SelectCommand(b[n].select), None);
    assert b[0].stream.Some?;
    MisplacedOrder(s, b, b[0].stream.value);
    ws := [select] + WritesOf(b);
    assert s.wire + [select] + WritesOf(b) == s.wire + ws;
    OriginalsOf(b);
    assert ws[1..] == WritesOf(b);
    assert WireCommands([select]) == [SelectCommand(b[n].select)];
    assert WritesOf(b) == WritesOf(b[..n]) + WritesOf(b[n..]) && b[n..][0] == b[n];
    WiresAppend(b[n].select, WritesOf(b[..n]), WritesOf(b[n..]));
    BadSelectsChangeNothing(b[..n], b[n].select);
    ChainedTail(b, n);
    ChainedObeys(b[n..], b[n].select);
  }

  lemma ResendIsSend(s: Client, item: Item)
    requires item.command.verb.Select? || s.condition.select == item.select
    ensures Resend(s, item) == Send(s, item.command, item.stream, Some(item.select))
  {
  }

  /** A block keeps queue and wire in the same order if and only if it does not misplace its SELECT. */
  lemma BlockOrderIff(db: int, b: seq<Item>)
    requires b != []
    ensures BlockQueue(db, b) == WireCommands(Alignment(db, b) + WritesOf(b)) <==> !Misplaces(db, b)
    ensures |BlockQueue(db, b)| == |Alignment(db, b) + WritesOf(b)|
    ensures multiset(BlockQueue(db, b)) == multiset(WireCommands(Alignment(db, b) + WritesOf(b)))
  {
    var n := BadSelects(b);
    assert WireCommands(Alignment(db, b) + WritesOf(b)) == WireCommands(Alignment(db, b)) + Commands(b);
    assert b == b[..n] + b[n..] && Commands(b) == Commands(b[..n]) + Commands(b[n..]);
    if Misplaces(db, b) {
      var select := SelectCommand(b[n].select);
      assert WireCommands(Alignment(db, b)) == [select];
      assert BlockQueue(db, b)[0] == b[0].command != select;
      assert (WireCommands(Alignment(db, b)) + Commands(b))[0] == select;
    }
  }

  /**
   Sending a block again keeps the queue in the order of the wire, on which the matching of replies
   rests, if and only if it does not misplace a SELECT.
   */
  lemma ResendKeepsOrderIff(s: Client, b: seq<Item>)
    requires s.status == Ready && s.gathered == map[] && Block(b) && Chained(b)
    ensures var t := ResendAll(s, b);
            |t.wire| >= |s.wire|
            && (Commands(t.queue) == Commands(s.queue) + WireCommands(t.wire[|s.wire|..])
                <==> !Misplaces(s.condition.select, b))
  {
    hide Resend, ResendAll, Chained, BlockQueue, Misplaces, Alignment;
    var t, db := ResendAll(s, b), s.condition.select;
    var ws := ResendBlock(s, b);
    assert t.wire[|s.wire|..] == ws;
    BlockOrderIff(db, b);
    SameRest(Commands(s.queue), BlockQueue(db, b), WireCommands(ws));
  }

  lemma SameRest<T>(prefix: seq<T>, a: seq<T>, b: seq<T>)
    ensures prefix + a == prefix + b <==> a == b
  {
    if prefix + a == prefix + b {
      assert (prefix + a)[|prefix|..] == a && (prefix + b)[|prefix|..] == b;
    }
  }

  lemma MisplacedOrder(s: Client, b: seq<Item>, pipe: Pipe)
    requires s.status == Ready && s.gathered == map[] && PipelineFrom(b, pipe, 0) && Chained(b)
    requires Misplaces(s.condition.select, b)
    ensures var n, t := BadSelects(b), ResendAll(s, b);
            && t.wire == s.wire + [Write(SelectCommand(b[n].select), None)] + WritesOf(b)
            && t.status == s.status && t.options == s.options && t.rejected == s.rejected && t.gathered == s.gathered
            && t.prevCondition == s.prevCondition && t.prevQueue == s.prevQueue && t.offline == s.offline
            && t.condition.select == DbAfter(b[n].select, WritesOf(b[n..]))
            && Commands(t.queue)
                == Commands(s.queue) + (Commands(b[..n]) + [SelectCommand(b[n].select)] + Commands(b[n..]))
  {
    hide Resend, ResendAll, Chained, Sent, PipelineFrom;
    var n := BadSelects(b);
    assert b == b[..n] + b[n..];
    ResendBadSelects(s, b, pipe, n);
    ResendAllAppend(s, b[..n], b[n..]);
    var u := ResendAll(s, b[..n]);
    SentStatus(s, u, Commands(b[..n]));
    var v := SendSelect(u, b[n].select);
    SelectSent(u, b[n].select);
    AlignedFirst(u, b[n..], v);
    ResendPipeline(v, b, pipe, n);
    var t := ResendAll(s, b);
    SentTrans(s, u, v, Commands(b[..n]), [SelectCommand(b[n].select)]);
    SentTrans(s, v, t, Commands(b[..n]) + [SelectCommand(b[n].select)], Commands(b[n..]));
    SentQueue(s, t, Commands(b[..n]) + [SelectCommand(b[n].select)] + Commands(b[n..]));
  }

  lemma SentQueue(s: Client, t: Client, commands: seq<Command>)
    requires Sent(s, t, commands)
    ensures Commands(t.queue) == Commands(s.queue) + commands
  {
  }

  lemma SelectSent(s: Client, db: int)
    requires s.status == Ready && s.condition.select != db
    ensures var t := SendSelect(s, db);
            t.status == Ready && Sent(s, t, [SelectCommand(db)]) && t.condition.select == db && t.gathered == s.gathered
            && t.wire == s.wire + [Write(SelectCommand(db), None)]
  {
    assert Commands(SendSelect(s, db).queue) == Commands(s.queue) + [SelectCommand(db)];
  }

  lemma CommandsAppend(a: seq<Item>, b: seq<Item>)
    ensures Commands(a + b) == Commands(a) + Commands(b)
  {
  }

  /** What sending blocks again one after the other writes, and what it queues. */
  function BlocksWrites(db: int, bs: seq<seq<Item>>): seq<Write>
    decreases |bs|
  {
    if bs == [] then []
    else
      var first := Alignment(db, bs[0]) + WritesOf(bs[0]);
      first + BlocksWrites(DbAfter(db, first), bs[1..])
  }

  function BlocksQueue(db: int, bs: seq<seq<Item>>): seq<Command>
    decreases |bs|
  {
    if bs == [] then []
    else
      var first := Alignment(db, bs[0]) + WritesOf(bs[0]);
      BlockQueue(db, bs[0]) + BlocksQueue(DbAfter(db, first), bs[1..])
  }

  /** Some block of the list misplaces a SELECT when its turn comes. */
  predicate MisplacesSome(db: int, bs: seq<seq<Item>>)
    decreases |bs|
  {
    bs != []
    && (Misplaces(db, bs[0]) || MisplacesSome(DbAfter(db, Alignment(db, bs[0]) + WritesOf(bs[0])), bs[1..]))
  }

  lemma {:induction false} ResendBlocks(s: Client, bs: seq<seq<Item>>) returns (ws: seq<Write>)
    requires s.status == Ready && s.gathered == map[] && Resendable(bs)
    ensures Wrote(s, ResendAll(s, Concat(bs)), ws) && Originals(ws) == Commands(Concat(bs))
    ensures ws == BlocksWrites(s.condition.select, bs)
    ensures Lined(s, ResendAll(s, Concat(bs)), BlocksQueue(s.condition.select, bs))
    decreases |bs|
  {
    hide Resend, Chained, Block, Alignment, BlockQueue, Misplaces, Lined;
    if bs == [] {
      WroteNothing(s);
      LinedNothing(s);
      ws := [];
    } else {
      var b, rest := bs[0], bs[1..];
      assert b in bs && forall x :: x in rest ==> x in bs;
      var first := ResendBlock(s, b);
      var t := ResendAll(s, b);
      ResendAllAppend(s, b, Concat(rest));
      var others := ResendBlocks(t, rest);
      WroteTrans(s, t, ResendAll(t, Concat(rest)), first, others);
      LinedTrans(s, t, ResendAll(t, Concat(rest)), BlockQueue(s.condition.select, b),
                 BlocksQueue(t.condition.select, rest));
      CommandsAppend(b, Concat(rest));
      ws := first + others;
    }
  }

  /** Queue and wire have the same order if and only if no block misplaces a SELECT. */
  lemma {:induction false} BlocksOrderIff(db: int, bs: seq<seq<Item>>)
    requires Blocks(bs)
    ensures BlocksQueue(db, bs) == WireCommands(BlocksWrites(db, bs)) <==> !MisplacesSome(db, bs)
    ensures multiset(BlocksQueue(db, bs)) == multiset(WireCommands(BlocksWrites(db, bs)))
    decreases |bs|
  {
    hide Block, Alignment, BlockQueue, Misplaces;
    if bs == [] {
      assert WireCommands([]) == [];
    } else {
      var b, rest := bs[0], bs[1..];
      assert b in bs && forall x :: x in rest ==> x in bs;
      assert b != [] by {
        BlockIsSome(b);
      }
      var first := Alignment(db, b) + WritesOf(b);
      var after := DbAfter(db, first);
      BlockOrderIff(db, b);
      BlocksOrderIff(after, rest);
      var others := BlocksWrites(after, rest);
      assert WireCommands(first + others) == WireCommands(first) + WireCommands(others);
      SameHalves(BlockQueue(db, b), WireCommands(first), BlocksQueue(after, rest), WireCommands(others));
    }
  }

  lemma BlockIsSome(b: seq<Item>)
    requires Block(b)
    ensures b != []
  {
  }

  lemma SameHalves<T>(a: seq<T>, b: seq<T>, c: seq<T>, d: seq<T>)
    requires |a| == |b|
    ensures a + c == b + d <==> a == b && c == d
  {
    if a + c == b + d {
      assert (a + c)[..|a|] == a && (b + d)[..|a|] == b && (a + c)[|a|..] == c && (b + d)[|a|..] == d;
    }
  }

  // ---------- becoming ready ----------

  /**
   What a connection that is about to be ready has to hold: `prev` outstanding from before, `waiting` queued
   since.
   */
  ghost predicate Primed(s: Client, prev: seq<seq<Item>>, waiting: seq<seq<Item>>) {
    && s.status == Connect && s.queue == [] && s.gathered == map[]
    && s.prevQueue != SameQueue && s.PrevItems() == Concat(prev) && s.offline == Concat(waiting)
    && Resendable(prev) && Resendable(waiting) && Originals(s.wire) == []
  }

  /** Whether subscribing again starts with a SELECT. */
  predicate ResubscribeSelects(s: Client) {
    s.prevCondition != NoCondition && s.Remembered().resubscribe.Some? && s.options.autoResubscribe
    && s.condition.select != s.Remembered().select
  }

  function ResubscribePart(s: Client): seq<Write> {
    if s.prevCondition == NoCondition || s.Remembered().resubscribe == None || !s.options.autoResubscribe then []
    else
      (if s.condition.select == s.Remembered().select then [] else [Write(SelectCommand(s.Remembered().select), None)])
      + Inserted(s.Remembered().resubscribe.value)
  }

  function Inserted(commands: seq<Command>): seq<Write> {
    seq(|commands|, i requires 0 <= i < |commands| => Write(commands[i], None))
  }

  lemma ResubscribeWrites(s: Client) returns (r: Client, t: Client)
    ensures r == s.(status := Ready, prevCondition := NoCondition)
    ensures t == if s.prevCondition == NoCondition then r else Resubscribe(r, s.Remembered())
    ensures Wrote(r, t, ResubscribePart(s)) && Originals(ResubscribePart(s)) == []
    ensures Lined(r, t, WireCommands(ResubscribePart(s)))
  {
    r := s.(status := Ready, prevCondition := NoCondition);
    t := if s.prevCondition == NoCondition then r else Resubscribe(r, s.Remembered());
    WroteNothing(r);
    LinedNothing(r);
    assert WireCommands([]) == [];
    if s.prevCondition != NoCondition && s.Remembered().resubscribe.Some? && s.options.autoResubscribe {
      var commands := s.Remembered().resubscribe.value;
      var a := SendSelectWrites(r, s.Remembered().select);
      var selected := SendSelect(r, s.Remembered().select);
      var b := SendAllWrites(selected, commands);
      assert b == Inserted(commands);
      WroteTrans(r, selected, SendAll(selected, commands), a, b);
      LinedTrans(r, selected, SendAll(selected, commands), WireCommands(a), commands);
      assert WireCommands(a + b) == WireCommands(a) + commands;
    }
  }

  /** What is resent of the outstanding blocks. */
  function Resent(options: Options, bs: seq<seq<Item>>): seq<seq<Item>> {
    if options.autoResend then bs else []
  }

  lemma ResendPreviousWrites(s: Client, prev: seq<seq<Item>>) returns (ws: seq<Write>)
    requires s.status == Ready && s.gathered == map[]
    requires s.prevQueue != SameQueue && s.PrevItems() == Concat(prev) && Resendable(prev)
    ensures var t := ResendPrevious(s);
            Wired(s, t, ws) && Originals(ws) == Commands(Concat(Resent(s.options, prev)))
            && t.prevCondition == s.prevCondition && t.offline == s.offline
            && t.PrevItems() == [] && t.prevQueue != SameQueue
            && ws == BlocksWrites(s.condition.select, Resent(s.options, prev))
            && Lined(s, t, BlocksQueue(s.condition.select, Resent(s.options, prev)))
  {
    hide ResendAll, BlocksWrites, BlocksQueue;
    if s.prevQueue == NoQueue || !s.options.autoResend {
      WroteNothing(s);
      NothingResent(s, prev);
      ws := [];
    } else {
      ws := ResendBlocks(s.(prevQueue := OwnQueue([])), prev);
    }
  }

  lemma NothingResent(s: Client, prev: seq<seq<Item>>)
    requires Blocks(prev) && (Concat(prev) == [] || !s.options.autoResend)
    ensures BlocksWrites(s.condition.select, Resent(s.options, prev)) == []
    ensures Lined(s, s.(prevQueue := NoQueue), BlocksQueue(s.condition.select, Resent(s.options, prev)))
    ensures Commands(Concat(Resent(s.options, prev))) == []
  {
    if prev != [] {
      assert prev[0] in prev;
    }
    LinedNothing(s);
  }

  /** The final SELECT, if one is needed. */
  function FinalPart(v: Client, db: int): seq<Write> {
    if v.condition.select == db then [] else [Write(SelectCommand(db), None)]
  }

  /**
   The parts of what becoming ready writes: subscribing again, the outstanding and the waiting commands, and a
   SELECT.
   */
  lemma ReadyParts(s: Client, prev: seq<seq<Item>>, waiting: seq<seq<Item>>)
    returns (r: Client, subscribed: Client, b: seq<Write>, cleared: Client, c: seq<Write>, v: Client)
    requires Primed(s, prev, waiting)
    ensures r == s.(status := Ready, prevCondition := NoCondition)
    ensures subscribed == if s.prevCondition == NoCondition then r else Resubscribe(r, s.Remembered())
    ensures Wrote(r, subscribed, ResubscribePart(s))
    ensures cleared == ResendPrevious(subscribed).(offline := []) && Wired(subscribed, cleared, b)
    ensures subscribed.status == Ready && subscribed.gathered == map[] && subscribed.options == s.options
    ensures subscribed.prevQueue != SameQueue && subscribed.PrevItems() == Concat(prev)
    ensures cleared.status == Ready && cleared.gathered == map[] && cleared.PrevItems() == []
        && cleared.prevQueue != SameQueue
    ensures cleared.prevCondition == NoCondition
    ensures v == ResendAll(cleared, Concat(waiting)) && Wrote(cleared, v, c) && v.status == Ready
    ensures OnReady(s) == SendSelect(v, s.Remembered().select)
    ensures Wrote(v, OnReady(s), FinalPart(v, s.Remembered().select))
        && OnReady(s).condition.select == s.Remembered().select
    ensures Originals(ResubscribePart(s)) == [] && Originals(b) == Commands(Concat(Resent(s.options, prev)))
    ensures Originals(c) == Commands(Concat(waiting)) && Originals(FinalPart(v, s.Remembered().select)) == []
    ensures b == BlocksWrites(subscribed.condition.select, Resent(s.options, prev))
    ensures c == BlocksWrites(cleared.condition.select, waiting)
    ensures Lined(r, subscribed, WireCommands(ResubscribePart(s)))
    ensures Lined(subscribed, cleared, BlocksQueue(subscribed.condition.select, Resent(s.options, prev)))
    ensures Lined(cleared, v, BlocksQueue(cleared.condition.select, waiting))
    ensures Lined(v, OnReady(s), WireCommands(FinalPart(v, s.Remembered().select)))
  {
    hide BlocksWrites, BlocksQueue;
    hide ResendAll, SendAll, SendSelect, Send, Resendable, Wired, ResubscribePart;
    r, subscribed := ResubscribeWrites(s);
    WroteReady(r, subscribed, ResubscribePart(s));
    b := ResendPreviousWrites(subscribed, prev);
    var u := ResendPrevious(subscribed);
    WiredReady(subscribed, u, b);
    cleared := u.(offline := []);
    WiredWithoutOffline(subscribed, u, b);
    c := ResendBlocks(cleared, waiting);
    v := ResendOffline(u);
    WroteReady(cleared, v, c);
    var d := SendSelectWrites(v, s.Remembered().select);
  }

  /**
   Becoming ready writes the outstanding commands in their original order, if they are to be resent, and then
   the waiting ones in theirs, each exactly once; from the recorded database on, each that is not a SELECT finds
   its own; and the record ends on the database remembered from before the outage.
   */
  lemma ReadyWritesEverything(s: Client, prev: seq<seq<Item>>, waiting: seq<seq<Item>>) returns (ws: seq<Write>)
    requires Primed(s, prev, waiting)
    ensures var t := OnReady(s);
            && t.status == Ready && t.wire == s.wire + ws && t.rejected == s.rejected
            && Originals(ws) == Commands(Concat(Resent(s.options, prev))) + Commands(Concat(waiting))
            && Obeys(s.condition.select, ws)
            && t.condition.select == DbAfter(s.condition.select, ws) == s.Remembered().select
            && t.offline == [] && t.PrevItems() == [] && t.prevQueue != SameQueue && t.gathered == map[]
            && t.prevCondition == NoCondition && t.options == s.options
  {
    hide ResendAll, SendSelect, Resendable, Wired, ResubscribePart, FinalPart, OnReady;
    var r, subscribed, b, cleared, c, v := ReadyParts(s, prev, waiting);
    var a, d := ResubscribePart(s), FinalPart(v, s.Remembered().select);
    WiredTrans(r, subscribed, cleared, a, b);
    WiredTrans(r, cleared, v, a + b, c);
    WiredTrans(r, v, OnReady(s), a + b + c, d);
    ws := a + b + c + d;
    WiredMeans(s, r, OnReady(s), ws);
    assert [] + Originals(b) == Originals(b);
    ReadyRest(v, s.Remembered().select, c, d, cleared);
  }

  lemma ReadyRest(v: Client, db: int, c: seq<Write>, d: seq<Write>, cleared: Client)
    requires Wrote(cleared, v, c) && Wrote(v, SendSelect(v, db), d) && cleared.offline == []
        && cleared.PrevItems() == []
    requires cleared.prevQueue != SameQueue && cleared.prevCondition == NoCondition
    ensures var t := SendSelect(v, db);
            t.offline == [] && t.PrevItems() == [] && t.prevQueue != SameQueue && t.prevCondition == NoCondition
  {
  }

  lemma WroteReady(r: Client, t: Client, ws: seq<Write>)
    requires Wrote(r, t, ws)
    ensures t.status == r.status && t.gathered == r.gathered && t.options == r.options
  {
  }

  lemma WiredReady(r: Client, t: Client, ws: seq<Write>)
    requires Wired(r, t, ws)
    ensures t.status == r.status && t.gathered == r.gathered && t.options == r.options
  {
  }

  lemma WiredWithoutOffline(r: Client, t: Client, ws: seq<Write>)
    requires Wired(r, t, ws)
    ensures Wired(r, t.(offline := []), ws)
  {
  }

  lemma WiredMeans(s: Client, r: Client, t: Client, ws: seq<Write>)
    requires Wired(r, t, ws) && r == s.(status := Ready, prevCondition := NoCondition)
    requires s.queue == []
    ensures t.status == Ready && t.wire == s.wire + ws && t.rejected == s.rejected && t.gathered == s.gathered
    ensures t.options == s.options
    ensures Obeys(s.condition.select, ws) && t.condition.select == DbAfter(s.condition.select, ws)
  {
  }

  // ---------- the order of the new queue ----------

  /** How many items at the front of a queue make up its first command or pipeline. */
  function FirstSize(items: seq<Item>): (n: nat)
    requires items != []
    ensures 0 < n <= |items|
  {
    if items[0].stream == None || !(0 < items[0].stream.value.size <= |items|) then 1 else items[0].stream.value.size
  }

  /** A queue taken apart into its commands and pipelines. */
  function Parsed(items: seq<Item>): seq<seq<Item>>
    decreases |items|
  {
    if items == [] then [] else [items[..FirstSize(items)]] + Parsed(items[FirstSize(items)..])
  }

  lemma {:induction false} ParsedBlocks(bs: seq<seq<Item>>)
    requires Blocks(bs)
    ensures Parsed(Concat(bs)) == bs
    decreases |bs|
  {
    if bs != [] {
      var b, rest := bs[0], bs[1..];
      assert b in bs && forall x :: x in rest ==> x in bs;
      var items := Concat(bs);
      assert items[0] == b[0] && FirstSize(items) == |b|;
      assert items[..|b|] == b && items[|b|..] == Concat(rest);
      ParsedBlocks(rest);
    }
  }

  /** What a connection that is about to be ready is going to send again, in order. */
  function ToResend(s: Client): seq<Item> {
    (if s.options.autoResend then s.PrevItems() else []) + s.offline
  }

  /** Becoming ready misplaces a SELECT in some pipeline that it sends again. */
  predicate ReadyMisplaces(s: Client) {
    MisplacesSome(DbAfter(s.condition.select, ResubscribePart(s)), Parsed(ToResend(s)))
  }

  lemma {:induction false} BlocksAppend(db: int, a: seq<seq<Item>>, b: seq<seq<Item>>)
    ensures BlocksWrites(db, a + b) == BlocksWrites(db, a) + BlocksWrites(DbAfter(db, BlocksWrites(db, a)), b)
    ensures BlocksQueue(db, a + b) == BlocksQueue(db, a) + BlocksQueue(DbAfter(db, BlocksWrites(db, a)), b)
    decreases |a|
  {
    hide Alignment, BlockQueue;
    if a == [] {
      assert a + b == b;
    } else {
      assert (a + b)[0] == a[0] && (a + b)[1..] == a[1..] + b;
      var first := Alignment(db, a[0]) + WritesOf(a[0]);
      var after := DbAfter(db, first);
      BlocksAppend(after, a[1..], b);
      WiresAppend(db, first, BlocksWrites(after, a[1..]));
    }
  }

  lemma ToResendBlocks(s: Client, prev: seq<seq<Item>>, waiting: seq<seq<Item>>)
    requires Primed(s, prev, waiting)
    ensures ToResend(s) == Concat(Resent(s.options, prev)) + Concat(waiting)
    ensures Blocks(Resent(s.options, prev) + waiting) && Parsed(ToResend(s)) == Resent(s.options, prev) + waiting
  {
    ConcatAppend(Resent(s.options, prev), waiting);
    ParsedBlocks(Resent(s.options, prev) + waiting);
  }

  /** The queue and the wire of the parts, put together. */
  lemma PartsInOrderIff(a: seq<Write>, db: int, bs: seq<seq<Item>>, d: seq<Write>)
    requires Blocks(bs)
    ensures var ws, queue := a + BlocksWrites(db, bs) + d, WireCommands(a) + BlocksQueue(db, bs) + WireCommands(d);
            && (queue == WireCommands(ws) <==> !MisplacesSome(db, bs))
            && multiset(queue) == multiset(WireCommands(ws))
  {
    hide BlocksWrites, BlocksQueue, MisplacesSome;
    BlocksOrderIff(db, bs);
    var x, y := BlocksQueue(db, bs), WireCommands(BlocksWrites(db, bs));
    assert WireCommands(a + BlocksWrites(db, bs) + d) == WireCommands(a) + y + WireCommands(d);
    assert multiset(x) == multiset(y);
    SameLength(x, y);
    SameHalves(WireCommands(a) + x, WireCommands(a) + y, WireCommands(d), WireCommands(d));
    SameRest(WireCommands(a), x, y);
  }

  lemma SameLength<T>(x: seq<T>, y: seq<T>)
    requires multiset(x) == multiset(y)
    ensures |x| == |y|
  {
    assert |multiset(x)| == |x| && |multiset(y)| == |y|;
  }

  /** The new queue and what is written, in their parts. */
  lemma ReadyLine(s: Client, prev: seq<seq<Item>>, waiting: seq<seq<Item>>)
    returns (a: seq<Write>, db: int, d: seq<Write>)
    requires Primed(s, prev, waiting)
    ensures db == DbAfter(s.condition.select, ResubscribePart(s))
    ensures var bs := Resent(s.options, prev) + waiting;
            && OnReady(s).wire == s.wire + (a + BlocksWrites(db, bs) + d)
            && Commands(OnReady(s).queue) == WireCommands(a) + BlocksQueue(db, bs) + WireCommands(d)
  {
    hide *;
    var r, subscribed, b, cleared, c, v := ReadyParts(s, prev, waiting);
    a, d := ResubscribePart(s), FinalPart(v, s.Remembered().select);
    ReadyWire(s, r, subscribed, cleared, v, a, b, c, d);
    db := subscribed.condition.select;
    var sent := Resent(s.options, prev);
    BlocksAppend(db, sent, waiting);
    LinedTrans(r, subscribed, cleared, WireCommands(a), BlocksQueue(db, sent));
    var later := BlocksQueue(cleared.condition.select, waiting);
    LinedTrans(r, cleared, v, WireCommands(a) + BlocksQueue(db, sent), later);
    LinedTrans(r, v, OnReady(s), WireCommands(a) + BlocksQueue(db, sent) + later, WireCommands(d));
    assert a + b + c + d == a + (b + c) + d;
    var queue := WireCommands(a) + BlocksQueue(db, sent + waiting) + WireCommands(d);
    assert WireCommands(a) + BlocksQueue(db, sent) + later + WireCommands(d) == queue;
    EmptyQueueLines(s, r, OnReady(s), prev, waiting, queue);
  }

  /**
   The queue of a connection that has become ready holds what has been written, each once; in the order of the
   wire if and only if no SELECT is misplaced in a pipeline sent again.
   */
  lemma ReadyKeepsOrderIff(s: Client, prev: seq<seq<Item>>, waiting: seq<seq<Item>>, ws: seq<Write>)
    requires Primed(s, prev, waiting) && OnReady(s).wire == s.wire + ws
    ensures Commands(OnReady(s).queue) == WireCommands(ws) <==> !ReadyMisplaces(s)
    ensures multiset(Commands(OnReady(s).queue)) == multiset(WireCommands(ws))
  {
    hide *;
    var a, db, d := ReadyLine(s, prev, waiting);
    var bs := Resent(s.options, prev) + waiting;
    SameRest(s.wire, ws, a + BlocksWrites(db, bs) + d);
    ToResendBlocks(s, prev, waiting);
    PartsInOrderIff(a, db, bs, d);
    MisplacesIs(s, db, bs);
  }

  lemma MisplacesIs(s: Client, db: int, bs: seq<seq<Item>>)
    requires db == DbAfter(s.condition.select, ResubscribePart(s)) && Parsed(ToResend(s)) == bs
    ensures ReadyMisplaces(s) <==> MisplacesSome(db, bs)
  {
  }

  lemma EmptyQueueLines(s: Client, r: Client, t: Client, prev: seq<seq<Item>>, waiting: seq<seq<Item>>,
                        queue: seq<Command>)
    requires Primed(s, prev, waiting) && r == s.(status := Ready, prevCondition := NoCondition) && Lined(r, t, queue)
    ensures Commands(t.queue) == queue
  {
    assert Commands(r.queue) == [];
    assert [] + queue == queue;
  }

  lemma ReadyWire(s: Client, r: Client, subscribed: Client, cleared: Client, v: Client, a: seq<Write>, b: seq<Write>,
                  c: seq<Write>, d: seq<Write>)
    requires r == s.(status := Ready, prevCondition := NoCondition) && Wrote(r, subscribed, a)
    requires Wired(subscribed, cleared, b) && Wrote(cleared, v, c) && Wrote(v, OnReady(s), d)
    ensures OnReady(s).wire == s.wire + (a + b + c + d)
    ensures subscribed.condition.select == DbAfter(s.condition.select, a)
    ensures cleared.condition.select == DbAfter(subscribed.condition.select, b)
  {
    hide OnReady;
    assert s.wire + a + b + c + d == s.wire + (a + b + c + d);
  }
}
