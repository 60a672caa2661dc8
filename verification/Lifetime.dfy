/**
 The whole life of a client, from its first attempt on: in every state it can reach, its queues are made
 of whole commands and pipelines, so that every outage can be recovered from.
 */
module Lifetime {
  import opened Bytes
  import opened Wrappers
  import opened Queues
  import opened Outage
  import opened Databases
  import opened OutageRun

  // ---------- what sending does to the queue ----------

  /** A block can be sent on this database without a SELECT in its middle. */
  predicate Settles(db: int, b: seq<Item>)
    decreases |b|
  {
    b == [] || db == b[0].select
    || (b[0].command.verb.Select? && (b[0].command.verb.db.Some? || Settles(db, b[1..])))
  }

  lemma {:induction false} BadSelectsSettle(db: int, b: seq<Item>)
    requires BadSelects(b) < |b| ==> b[BadSelects(b)].command.verb.Select? || b[BadSelects(b)].select == db
    ensures Settles(db, b)
    decreases |b|
  {
    if b != [] && b[0].command.verb == Select(None) {
      BadSelectsSettle(db, b[1..]);
    }
  }

  lemma PlacedSettles(db: int, b: seq<Item>)
    requires !Misplaces(db, b) && b != [] && (b[0].command.verb.Select? || db == b[0].select)
    ensures Settles(db, b)
  {
    if b[0].command.verb == Select(None) {
      BadSelectsSettle(db, b);
    }
  }

  predicate SameStream(b: seq<Item>, stream: Option<Pipe>) {
    forall i :: 0 <= i < |b| ==> b[i].stream == stream
  }

  /** The items a block makes when it is sent again on a database. */
  function Again(db: int, b: seq<Item>): seq<Item> {
    if b == [] then [] else Issued(db, Issue(Commands(b), b[0].stream))
  }

  lemma ResendOneItem(s: Client, item: Item)
    requires s.status == Ready && (item.command.verb.Select? || s.condition.select == item.select)
    ensures var t := Resend(s, item);
            t.status == Ready && t.queue == s.queue + [Item(item.command, item.stream, s.condition.select)]
            && t.condition.select == CommandDb(s.condition.select, item.command)
  {
  }

  lemma {:induction false} ResendQueue(s: Client, b: seq<Item>, stream: Option<Pipe>)
    requires s.status == Ready && Chained(b) && Settles(s.condition.select, b) && SameStream(b, stream)
    ensures ResendAll(s, b).queue == s.queue + Issued(s.condition.select, Issue(Commands(b), stream))
    decreases |b|
  {
    hide Resend;
    if b == [] {
      assert s.queue + [] == s.queue;
    } else {
      var item, rest := b[0], b[1..];
      ResendOneItem(s, item);
      var u := Resend(s, item);
      ChainedTail(b, 1);
      assert Commands(b)[1..] == Commands(rest);
      if rest != [] {
        assert rest[0].select == After(item);
      }
      ResendQueue(u, rest, stream);
      assert s.queue + [Item(item.command, stream, s.condition.select)]
          + Issued(u.condition.select, Issue(Commands(rest), stream))
          == s.queue + Issued(s.condition.select, Issue(Commands(b), stream));
    }
  }

  /** A pipeline that is sent while the connection is ready leaves nothing gathered. */
  lemma {:induction false} SendEachReady(s: Client, commands: seq<Command>, pipe: Pipe, ws: seq<Write>)
    requires s.status == Ready && commands != [] && |ws| + |commands| == pipe.size
    requires s.gathered == if ws == [] then map[] else map[pipe.number := ws]
    ensures var t := SendEach(s, commands, Some(pipe));
            && t.status == Ready && t.gathered == map[] && t.options == s.options && t.offline == s.offline
            && t.rejected == s.rejected
            && t.prevCondition == s.prevCondition && t.prevQueue == s.prevQueue
            && t.condition.resubscribe == s.condition.resubscribe
            && t.queue == s.queue + Issued(s.condition.select, Issue(commands, Some(pipe)))
    decreases |commands|
  {
    var w := Write(commands[0], None);
    var u := Send(s, commands[0], Some(pipe), None);
    var rest := Issue(commands[1..], Some(pipe));
    assert u.queue == s.queue + [Item(commands[0], Some(pipe), s.condition.select)];
    assert u.condition.select == CommandDb(s.condition.select, commands[0]);
    assert s.queue + [Item(commands[0], Some(pipe), s.condition.select)] + Issued(u.condition.select, rest)
        == s.queue + Issued(s.condition.select, Issue(commands, Some(pipe)));
    if commands[1..] != [] {
      SendEachReady(u, commands[1..], pipe, ws + [w]);
    }
  }

  /** A command or pipeline issued on a ready connection joins the queue as one more whole block. */
  lemma SubmitReady(s: Client, issue: Issue)
    requires s.status == Ready && s.gathered == map[] && WellFormed(issue)
    ensures var t := SendEach(s, issue.commands, issue.stream);
            && t.status == Ready && t.gathered == map[] && t.options == s.options && t.offline == s.offline
            && t.rejected == s.rejected
            && t.prevCondition == s.prevCondition && t.prevQueue == s.prevQueue
            && t.condition.resubscribe == s.condition.resubscribe
            && t.queue == s.queue + Issued(s.condition.select, issue)
  {
    IssuedItems(0, issue);
    var b := Issued(0, issue);
    if issue.stream.Some? {
      SendEachReady(s, issue.commands, issue.stream.value, []);
    } else {
      assert issue.commands == [issue.commands[0]] && issue.commands[1..] == [];
      var t := Send(s, issue.commands[0], None, None);
      assert SendEach(s, issue.commands, None) == SendEach(t, [], None) == t;
      assert Issued(s.condition.select, issue) == [Item(issue.commands[0], None, s.condition.select)] + [];
    }
  }

  // ---------- the queue after becoming ready ----------

  ghost predicate Grown(s: Client, t: Client, bs: seq<seq<Item>>) {
    t.queue == s.queue + Concat(bs) && Resendable(bs)
  }

  lemma GrownNothing(s: Client)
    ensures Grown(s, s, [])
  {
    assert s.queue + [] == s.queue;
  }

  lemma GrownTrans(s: Client, t: Client, u: Client, a: seq<seq<Item>>, b: seq<seq<Item>>)
    requires Grown(s, t, a) && Grown(t, u, b)
    ensures Grown(s, u, a + b)
  {
    ConcatAppend(a, b);
    assert s.queue + Concat(a) + Concat(b) == s.queue + (Concat(a) + Concat(b));
  }

  lemma GrownBlock(s: Client, t: Client, b: seq<Item>)
    requires t.queue == s.queue + b && Block(b) && Chained(b)
    ensures Grown(s, t, [b])
  {
    assert Concat([b]) == b by {
      assert [b][1..] == [];
    }
  }

  lemma SingleBlock(c: Command, db: int)
    requires c.pipelineIndex == None
    ensures Block([Item(c, None, db)]) && Chained([Item(c, None, db)])
  {
  }

  lemma SendGrows(s: Client, c: Command)
    requires s.status == Ready && c.pipelineIndex == None
    ensures Grown(s, Send(s, c, None, None), [[Item(c, None, s.condition.select)]])
    ensures Send(s, c, None, None).status == Ready
  {
    SingleBlock(c, s.condition.select);
    GrownBlock(s, Send(s, c, None, None), [Item(c, None, s.condition.select)]);
  }

  lemma SendSelectGrows(s: Client, db: int) returns (bs: seq<seq<Item>>)
    requires s.status == Ready
    ensures Grown(s, SendSelect(s, db), bs) && SendSelect(s, db).status == Ready
        && SendSelect(s, db).condition.select == db
  {
    GrownNothing(s);
    bs := [];
    if s.condition.select != db {
      SendGrows(s, SelectCommand(db));
      bs := [[Item(SelectCommand(db), None, s.condition.select)]];
    }
  }

  lemma {:induction false} SendAllGrows(s: Client, commands: seq<Subscribing>) returns (bs: seq<seq<Item>>)
    requires s.status == Ready
    ensures Grown(s, SendAll(s, commands), bs) && SendAll(s, commands).status == Ready
    decreases |commands|
  {
    hide Send, Grown;
    if commands == [] {
      GrownNothing(s);
      bs := [];
    } else {
      SendGrows(s, commands[0]);
      var t := Send(s, commands[0], None, None);
      var rest := SendAllGrows(t, commands[1..]);
      GrownTrans(s, t, SendAll(t, commands[1..]), [[Item(commands[0], None, s.condition.select)]], rest);
      bs := [[Item(commands[0], None, s.condition.select)]] + rest;
    }
  }

  lemma BlockStream(b: seq<Item>)
    requires Block(b)
    ensures b != [] && SameStream(b, b[0].stream)
  {
  }

  /** What is sent again of a block is a block again. */
  lemma AgainIsBlock(db: int, b: seq<Item>)
    requires Block(b) && Chained(b)
    ensures Block(Again(db, b)) && Chained(Again(db, b))
  {
    var issue := Issue(Commands(b), b[0].stream);
    IssuedItems(db, issue);
  }

  lemma ResendBlockGrows(s: Client, b: seq<Item>) returns (bs: seq<seq<Item>>)
    requires s.status == Ready && Block(b) && Chained(b) && !Misplaces(s.condition.select, b)
    ensures Grown(s, ResendAll(s, b), bs)
  {
    hide Resend, ResendAll, Send, Grown, Issued, Settles, Chained, SendSelect;
    BlockStream(b);
    GrownNothing(s);
    bs := [];
    var aligned := s;
    if !b[0].command.verb.Select? {
      bs := SendSelectGrows(s, b[0].select);
      aligned := SendSelect(s, b[0].select);
      AlignedFirst(s, b, aligned);
    }
    AlignedPlaces(s.condition.select, aligned.condition.select, b);
    PlacedSettles(aligned.condition.select, b);
    ResendQueue(aligned, b, b[0].stream);
    var again := Again(aligned.condition.select, b);
    AgainIsBlock(aligned.condition.select, b);
    GrownBlock(aligned, ResendAll(s, b), again);
    GrownTrans(s, aligned, ResendAll(s, b), bs, [again]);
    bs := bs + [again];
  }

  /** Selecting the database of a block's first command misplaces nothing. */
  lemma AlignedPlaces(db: int, aligned: int, b: seq<Item>)
    requires b != [] && !Misplaces(db, b) && (aligned == db || !b[0].command.verb.Select?)
    ensures !Misplaces(aligned, b)
  {
  }

  lemma {:induction false} ResendBlocksGrow(s: Client, bs: seq<seq<Item>>) returns (after: seq<seq<Item>>)
    requires s.status == Ready && s.gathered == map[] && Resendable(bs) && !MisplacesSome(s.condition.select, bs)
    ensures Grown(s, ResendAll(s, Concat(bs)), after)
    decreases |bs|
  {
    hide Resend, Chained, Block, Grown, Wrote, Alignment, Misplaces, Lined;
    if bs == [] {
      GrownNothing(s);
      after := [];
    } else {
      var b, rest := bs[0], bs[1..];
      assert b in bs && forall x :: x in rest ==> x in bs;
      var first := ResendBlockGrows(s, b);
      var t := ResendAll(s, b);
      var ws := ResendBlock(s, b);
      WroteReady(s, t, ws);
      WroteWire(s, t, ws);
      ResendAllAppend(s, b, Concat(rest));
      var others := ResendBlocksGrow(t, rest);
      GrownTrans(s, t, ResendAll(t, Concat(rest)), first, others);
      after := first + others;
    }
  }

  lemma ResubscribeGrows(r: Client, remembered: Condition) returns (bs: seq<seq<Item>>)
    requires r.status == Ready
    ensures Grown(r, Resubscribe(r, remembered), bs)
  {
    hide SendSelect, SendAll, Grown;
    GrownNothing(r);
    bs := [];
    if remembered.resubscribe.Some? && r.options.autoResubscribe {
      var a := SendSelectGrows(r, remembered.select);
      var t := SendSelect(r, remembered.select);
      var b := SendAllGrows(t, remembered.resubscribe.value);
      GrownTrans(r, t, SendAll(t, remembered.resubscribe.value), a, b);
      bs := a + b;
    }
  }

  /** Taking a list of blocks apart, none of either part misplaces a SELECT when its turn comes. */
  lemma {:induction false} MisplacesAppend(db: int, a: seq<seq<Item>>, b: seq<seq<Item>>)
    ensures MisplacesSome(db, a + b) <==> MisplacesSome(db, a) || MisplacesSome(DbAfter(db, BlocksWrites(db, a)), b)
    decreases |a|
  {
    hide Alignment, Misplaces;
    if a == [] {
      assert a + b == b;
    } else {
      assert (a + b)[0] == a[0] && (a + b)[1..] == a[1..] + b;
      var first := Alignment(db, a[0]) + WritesOf(a[0]);
      MisplacesAppend(DbAfter(db, first), a[1..], b);
      WiresAppend(db, first, BlocksWrites(DbAfter(db, first), a[1..]));
    }
  }

  /** When becoming ready misplaces no SELECT, the new queue is made of whole blocks. */
  lemma ReadyQueue(s: Client, prev: seq<seq<Item>>, waiting: seq<seq<Item>>) returns (bs: seq<seq<Item>>)
    requires Primed(s, prev, waiting) && !ReadyMisplaces(s)
    ensures OnReady(s).queue == Concat(bs) && Resendable(bs)
  {
    hide *;
    var r, subscribed, b0, cleared, c0, v := ReadyParts(s, prev, waiting);
    PrimedBlocks(s, prev, waiting);
    ToResendBlocks(s, prev, waiting);
    var sent := Resent(s.options, prev);
    WroteWire(r, subscribed, ResubscribePart(s));
    WiredWire(subscribed, cleared, b0);
    MisplacesIs(s, subscribed.condition.select, sent + waiting);
    MisplacesAppend(subscribed.condition.select, sent, waiting);
    var a: seq<seq<Item>> := [];
    GrownNothing(r);
    if s.prevCondition != NoCondition {
      a := ResubscribeGrows(r, s.Remembered());
    }
    var b, u := PreviousGrows(subscribed, prev);
    GrownTrans(r, subscribed, u, a, b);
    var c := ResendBlocksGrow(cleared, waiting);
    OfflineIgnored(u, v, c);
    GrownTrans(r, u, v, a + b, c);
    var d := SendSelectGrows(v, s.Remembered().select);
    GrownTrans(r, v, OnReady(s), a + b + c, d);
    bs := a + b + c + d;
    GrownFromEmpty(r, OnReady(s), bs);
  }

  lemma GrownFromEmpty(r: Client, t: Client, bs: seq<seq<Item>>)
    requires Grown(r, t, bs) && r.queue == []
    ensures t.queue == Concat(bs) && Resendable(bs)
  {
  }

  lemma OfflineIgnored(u: Client, v: Client, bs: seq<seq<Item>>)
    requires Grown(u.(offline := []), v, bs)
    ensures Grown(u, v, bs)
  {
  }

  lemma PreviousGrows(s: Client, prev: seq<seq<Item>>) returns (bs: seq<seq<Item>>, t: Client)
    requires s.status == Ready && s.gathered == map[]
    requires s.prevQueue != SameQueue && s.PrevItems() == Concat(prev) && Resendable(prev)
    requires !MisplacesSome(s.condition.select, Resent(s.options, prev))
    ensures t == ResendPrevious(s) && Grown(s, t, bs) && t.status == Ready && t.gathered == map[]
        && t.offline == s.offline
  {
    hide ResendAll, Wired, Grown, MisplacesSome;
    t := ResendPrevious(s);
    var ws := ResendPreviousWrites(s, prev);
    WiredReady(s, t, ws);
    if s.prevQueue == NoQueue || !s.options.autoResend {
      GrownNothing(s);
      ForgottenGrows(s);
      bs := [];
    } else {
      var drained := s.(prevQueue := OwnQueue([]));
      bs := ResendBlocksGrow(drained, prev);
      DrainedIgnored(s, t, bs);
    }
  }

  lemma ForgottenGrows(s: Client)
    ensures Grown(s, s.(prevQueue := NoQueue), [])
  {
    assert s.queue + [] == s.queue;
  }

  lemma DrainedIgnored(s: Client, t: Client, bs: seq<seq<Item>>)
    requires Grown(s.(prevQueue := OwnQueue([])), t, bs)
    ensures Grown(s, t, bs)
  {
  }

  // ---------- a life ----------

  datatype LifeEvent =
    | Issues(issue: Issue)
    | Answer
    | Subscribed(resubscribe: Option<seq<Subscribing>>)
    | Close(retry: bool, flush: bool)
    | Away(event: OutageRun.Event)
    | BecomeReady

  /** A new client is in its first attempt. */
  function Start(options: Options): Client {
    Client(options, Connecting, Condition(options.db, None), NoCondition, [], NoQueue, [], map[], [], [])
  }

  predicate CanHappen(s: Client, e: LifeEvent) {
    match e
    case Issues(issue) => s.status == Ready && WellFormed(issue)
    case Answer => s.status == Ready && s.queue != []
    case Subscribed(resubscribe) => s.status == Ready
    case Close(_, _) => s.status == Ready
    case Away(event) => s.status != Ready && Enabled(s, event)
    case BecomeReady => s.status == Connect
  }

  function Happen(s: Client, e: LifeEvent): Client
    requires CanHappen(s, e)
  {
    match e
    case Issues(issue) => SendEach(s, issue.commands, issue.stream)
    case Answer => s.(queue := s.queue[1..])
    case Subscribed(resubscribe) => s.(condition := s.condition.(resubscribe := resubscribe))
    case Close(retry, flush) => OnClose(s, retry, flush)
    case Away(event) => OutageRun.Step(s, event)
    case BecomeReady => OnReady(s)
  }

  ghost predicate Lives(s: Client, events: seq<LifeEvent>, t: Client)
    decreases |events|
  {
    if events == [] then s == t else CanHappen(s, events[0]) && Lives(Happen(s, events[0]), events[1..], t)
  }

  /** No SELECT is misplaced when the client becomes ready. */
  predicate Orderly(s: Client, e: LifeEvent) {
    e.BecomeReady? ==> !ReadyMisplaces(s)
  }

  predicate OrderlyLife(s: Client, events: seq<LifeEvent>)
    decreases |events|
  {
    events == []
    || (CanHappen(s, events[0]) && Orderly(s, events[0]) && OrderlyLife(Happen(s, events[0]), events[1..]))
  }

  ghost predicate Healthy(s: Client) {
    if s.status == Ready then exists fragment, prev, waiting :: Answering(s, fragment, prev, waiting)
       else exists prev, waiting :: OutageRun.Away(s, prev, waiting)
  }

  // ---------- every step ----------

  lemma IssueStaysHealthy(s: Client, issue: Issue)
    requires Healthy(s) && s.status == Ready && WellFormed(issue)
    ensures Healthy(SendEach(s, issue.commands, issue.stream))
  {
    hide WellFormed, SendEach, Resendable, Closed, Shape;
    var fragment, prev, waiting :| Answering(s, fragment, prev, waiting);
    SubmitReady(s, issue);
    IssuedBlock(s.condition.select, issue);
    var t, b := SendEach(s, issue.commands, issue.stream), Issued(s.condition.select, issue);
    PushKeepsShape(s.queue, fragment, prev, b);
    ResendableSnoc(prev, b);
    assert Answering(t, fragment, prev + [b], waiting);
  }

  lemma AnswerStaysHealthy(s: Client)
    requires Healthy(s) && s.status == Ready && s.queue != []
    ensures Healthy(s.(queue := s.queue[1..]))
  {
    hide Closed, Shape, Block, Chained;
    var fragment, prev, waiting :| Answering(s, fragment, prev, waiting);
    var fragment', prev' := ShiftKeepsShape(s.queue, fragment, prev);
    assert Answering(s.(queue := s.queue[1..]), fragment', prev', waiting);
  }

  lemma CloseStaysHealthy(s: Client, retry: bool, flush: bool)
    requires Healthy(s) && s.status == Ready
    ensures Healthy(OnClose(s, retry, flush))
  {
    hide OnClose, Answering, OutageRun.Away, LeftOf;
    var fragment, prev, waiting :| Answering(s, fragment, prev, waiting);
    var flushes := ClosesFlushing(retry, flush);
    CloseKeeps(s, fragment, prev, waiting, retry, flush);
    AwayMeans(OnClose(s, retry, flush), LeftOf(prev, flushes), LeftOf(KeptBlocks(waiting), flushes));
  }

  lemma AwayStaysHealthy(s: Client, e: OutageRun.Event)
    requires Healthy(s) && s.status != Ready && Enabled(s, e)
    ensures Healthy(OutageRun.Step(s, e))
  {
    hide OutageRun.Step, Enabled, OutageRun.Away;
    var prev, waiting :| OutageRun.Away(s, prev, waiting);
    var prev', waiting', dropped := StepKeeps(s, prev, waiting, e);
    AwayMeans(s, prev, waiting);
    AwayMeans(OutageRun.Step(s, e), prev', waiting');
  }

  lemma AwayMeans(s: Client, prev: seq<seq<Item>>, waiting: seq<seq<Item>>)
    requires OutageRun.Away(s, prev, waiting)
    ensures s.status != Ready
  {
  }

  lemma ReadyStaysHealthy(s: Client)
    requires Healthy(s) && s.status == Connect && !ReadyMisplaces(s)
    ensures Healthy(OnReady(s))
  {
    hide OnReady, Resendable, OutageRun.Away, Primed, ReadyMisplaces;
    var prev, waiting :| OutageRun.Away(s, prev, waiting);
    AwayIsPrimed(s, prev, waiting);
    var ws := ReadyWritesEverything(s, prev, waiting);
    var bs := ReadyQueue(s, prev, waiting);
    var t := OnReady(s);
    assert Blocks(bs) by {
      ResendableBlocks(bs);
    }
    BlocksShape(bs);
    NothingWaiting();
    assert Answering(t, [], bs, []);
  }

  lemma ResendableBlocks(bs: seq<seq<Item>>)
    requires Resendable(bs)
    ensures Blocks(bs)
  {
  }

  lemma NothingWaiting()
    ensures Resendable([]) && Closed([])
  {
  }

  /** Some command of a pipeline, not its first, stands behind a command of no pipeline. */
  predicate Severed(commands: seq<Command>) {
    exists i :: 0 < i < |commands| && commands[i].pipelineIndex.Some? && commands[i].pipelineIndex.value > 0
                && commands[i - 1].pipelineIndex == None
  }

  lemma SeveredInside(a: seq<Command>, b: seq<Command>, c: seq<Command>)
    requires Severed(b)
    ensures Severed(a + b + c)
  {
    var i :| 0 < i < |b| && b[i].pipelineIndex.Some? && b[i].pipelineIndex.value > 0 && b[i - 1].pipelineIndex == None;
    var all := a + b + c;
    assert all[|a| + i] == b[i] && all[|a| + i - 1] == b[i - 1];
  }

  lemma MisplacedSevers(db: int, b: seq<Item>)
    requires Block(b) && Misplaces(db, b)
    ensures Severed(BlockQueue(db, b))
  {
    var n, queue := BadSelects(b), BlockQueue(db, b);
    assert queue[n] == SelectCommand(b[n].select) && queue[n + 1] == b[n].command;
  }

  lemma {:induction false} MisplacesSever(db: int, bs: seq<seq<Item>>)
    requires Blocks(bs) && MisplacesSome(db, bs)
    ensures Severed(BlocksQueue(db, bs))
    decreases |bs|
  {
    hide Alignment, BlockQueue, Misplaces, Severed, Block;
    var b, rest := bs[0], bs[1..];
    assert b in bs && forall x :: x in rest ==> x in bs;
    var after := DbAfter(db, Alignment(db, b) + WritesOf(b));
    var first, others := BlockQueue(db, b), BlocksQueue(after, rest);
    assert BlocksQueue(db, bs) == first + others;
    assert [] + first + others == first + others && first + others + [] == first + others;
    if Misplaces(db, b) {
      MisplacedSevers(db, b);
      SeveredInside([], first, others);
    } else {
      MisplacesSever(after, rest);
      SeveredInside(first, others, []);
    }
  }

  /** In a queue made of the rest of a pipeline and whole blocks nothing is severed. */
  lemma {:induction false} ShapeIsWhole(fragment: seq<Item>, pipe: Pipe, k: nat, bs: seq<seq<Item>>)
    requires k > 0 && PipelineFrom(fragment, pipe, k) && Blocks(bs)
    ensures !Severed(Commands(fragment + Concat(bs)))
    decreases |bs|
  {
    if bs == [] {
      assert fragment + Concat(bs) == fragment;
    } else {
      var last, front := bs[|bs| - 1], bs[..|bs| - 1];
      assert last in bs && bs == front + [last];
      ShapeIsWhole(fragment, pipe, k, front);
      ConcatSnoc(front, last);
      var start := fragment + Concat(front);
      assert fragment + Concat(bs) == start + last;
      BlockIsWhole(start, last);
    }
  }

  lemma BlockIsWhole(start: seq<Item>, b: seq<Item>)
    requires !Severed(Commands(start)) && Block(b)
    ensures !Severed(Commands(start + b))
  {
    var all, commands := start + b, Commands(start + b);
    forall i | 0 < i < |commands| && commands[i].pipelineIndex.Some? && commands[i].pipelineIndex.value > 0
      ensures commands[i - 1].pipelineIndex != None
    {
      if i < |start| {
        assert Commands(start)[i] == commands[i] && Commands(start)[i - 1] == commands[i - 1];
      } else {
        assert all[i] == b[i - |start|];
        assert i - |start| > 0 && all[i - 1] == b[i - 1 - |start|];
      }
    }
  }

  /**
   Becoming ready leaves queues made of whole commands and pipelines if and only if it misplaces no SELECT: a
   misplaced one parts a pipeline in the queue, whose rest pruning would take for one that was half answered.
   */
  lemma ReadyStaysHealthyIff(s: Client)
    requires Healthy(s) && s.status == Connect
    ensures Healthy(OnReady(s)) <==> !ReadyMisplaces(s)
    ensures ReadyMisplaces(s) ==> Severed(Commands(OnReady(s).queue))
  {
    hide *;
    if !ReadyMisplaces(s) {
      ReadyStaysHealthy(s);
    } else {
      ReadySevers(s);
      if Healthy(OnReady(s)) {
        HealthyIsWhole(OnReady(s));
      }
    }
  }

  lemma HealthyIsWhole(s: Client)
    requires Healthy(s) && s.status == Ready
    ensures !Severed(Commands(s.queue))
  {
    hide Severed;
    var fragment, prev, waiting :| Answering(s, fragment, prev, waiting);
    var pipe: Pipe, k: nat :| k > 0 && PipelineFrom(fragment, pipe, k);
    ShapeIsWhole(fragment, pipe, k, prev);
  }

  lemma ReadySevers(s: Client)
    requires Healthy(s) && s.status == Connect && ReadyMisplaces(s)
    ensures Severed(Commands(OnReady(s).queue)) && OnReady(s).status == Ready
  {
    hide OnReady, OutageRun.Away, Primed, ReadyMisplaces, MisplacesSome, BlocksQueue, Severed;
    var prev, waiting :| OutageRun.Away(s, prev, waiting);
    AwayIsPrimed(s, prev, waiting);
    var ws := ReadyWritesEverything(s, prev, waiting);
    var a, db, d := ReadyLine(s, prev, waiting);
    ToResendBlocks(s, prev, waiting);
    var bs := Resent(s.options, prev) + waiting;
    MisplacesIs(s, db, bs);
    MisplacesSever(db, bs);
    SeveredInside(WireCommands(a), BlocksQueue(db, bs), WireCommands(d));
  }

  /** Whatever happens leaves whole queues, unless becoming ready misplaces a SELECT. */
  lemma StaysHealthyIff(s: Client, e: LifeEvent)
    requires Healthy(s) && CanHappen(s, e)
    ensures Healthy(Happen(s, e)) <==> Orderly(s, e)
  {
    hide ReadyMisplaces, OnReady, Severed, Healthy;
    match e
    case Issues(issue) => IssueStaysHealthy(s, issue);
    case Answer => AnswerStaysHealthy(s);
    case Subscribed(resubscribe) => SubscribedStaysHealthy(s, resubscribe);
    case Close(retry, flush) => CloseStaysHealthy(s, retry, flush);
    case Away(event) => AwayStaysHealthy(s, event);
    case BecomeReady => ReadyStaysHealthyIff(s);
  }

  lemma SubscribedStaysHealthy(s: Client, resubscribe: Option<seq<Subscribing>>)
    requires Healthy(s) && s.status == Ready
    ensures Healthy(s.(condition := s.condition.(resubscribe := resubscribe)))
  {
    hide Closed, Shape, Block, Chained;
    var fragment, prev, waiting :| Answering(s, fragment, prev, waiting);
    assert Answering(s.(condition := s.condition.(resubscribe := resubscribe)), fragment, prev, waiting);
  }

  lemma {:induction false} LivesHealthy(s: Client, events: seq<LifeEvent>, t: Client)
    requires Healthy(s) && Lives(s, events, t) && OrderlyLife(s, events)
    ensures Healthy(t)
    decreases |events|
  {
    hide Healthy, Happen, CanHappen, Orderly;
    if events != [] {
      StaysHealthyIff(s, events[0]);
      LivesHealthy(Happen(s, events[0]), events[1..], t);
    }
  }

  lemma StartIsHealthy(options: Options)
    ensures Healthy(Start(options))
  {
    assert OutageRun.Away(Start(options), [], []);
  }

  /**
   Whatever a client has lived through in order, its next outage loses nothing: with q the queue of a ready client,
   the commands at the front of q that pruning rejects are the rest of one pipeline; all others, then what
   waited or is issued meanwhile, are rejected or held in this order, each exactly once, and the others of q are
   held unless a flush comes before the first connect event; what is held is written, in this order, except
   for those of q without automatic resending; the new queue holds what is written, in the order of the wire if
   and only if no SELECT is misplaced this time; the server ends on the database that was selected when the
   first attempt was made; and everything but a SELECT goes to its own database if and only if the state before
   the ready event finds the databases.
   */
  lemma EveryOutageIsRecovered(options: Options, life: seq<LifeEvent>, s: Client, retry: bool, flush: bool,
                               events: seq<OutageRun.Event>, u: Client)
    returns (ws: seq<Write>, dropped: seq<Item>)
    requires Lives(Start(options), life, s) && OrderlyLife(Start(options), life) && s.status == Ready
    requires Reaches(OnClose(s, retry, flush), events, u) && u.status == Connect
    ensures var t, pruned := OnReady(u), Incomplete(s.queue, 0);
            && s.queue == pruned.rejected + pruned.kept
            && t.wire == u.wire + ws && Originals(u.wire) == []
            && t.rejected == s.rejected + pruned.rejected + dropped
            && Splits(Commands(pruned.kept + s.offline) + Submitted(events),
                      Commands(Held(u)), multiset(Commands(dropped)))
            && u.PrevItems() == (if !retry || flush || FlushedFirst(events) then [] else pruned.kept)
            && Originals(ws) == Commands((if s.options.autoResend then u.PrevItems() else []) + u.offline)
            && t.condition.select == DbAfter(0, t.wire)
               == DbAfterIssue(s.condition.select, if retry then Queued(s, Early(events)) else [])
            && multiset(Commands(t.queue)) == multiset(WireCommands(ws))
            && (Commands(t.queue) == WireCommands(ws) <==> !ReadyMisplaces(u))
    ensures Obeys(DbAfter(0, u.wire), ws) <==> FindsDatabases(u)
    ensures u.condition.select == DbAfterIssue(DbAfter(0, u.wire), Queued(s, Late(events)))
  {
    hide Splits, Reaches, OnClose, OnReady, Lives, Answering, DbAfterIssue, Obeys, DbAfter, FindsDatabases;
    hide FlushedFirst, OrderlyLife, ReadyMisplaces;
    StartIsHealthy(options);
    LivesHealthy(Start(options), life, s);
    var fragment, prev, waiting :| Answering(s, fragment, prev, waiting);
    AnsweringPruned(s, fragment, prev, waiting);
    ws, dropped := NothingIsLost(s, fragment, prev, waiting, retry, flush, events, u);
  }

  /**
   Whatever a client has lived through in order, when it gives up everything has been rejected if and only if pruning
   left nothing outstanding or the queues were flushed before the first connect event; otherwise what was
   outstanding is held without being written or rejected.
   */
  lemma EveryEndSettlesIff(options: Options, life: seq<LifeEvent>, s: Client, retry: bool, flush: bool,
                           events: seq<OutageRun.Event>, u: Client)
    returns (dropped: seq<Item>)
    requires Lives(Start(options), life, s) && OrderlyLife(Start(options), life) && s.status == Ready
    requires Reaches(OnClose(s, retry, flush), events, u) && u.status == End
    ensures var pruned := Incomplete(s.queue, 0);
            && u.rejected == s.rejected + pruned.rejected + dropped
            && (multiset(Commands(dropped)) == multiset(Commands(pruned.kept + s.offline) + Submitted(events))
                <==> pruned.kept == [] || !retry || flush || FlushedFirst(events))
            && u.PrevItems() == if !retry || flush || FlushedFirst(events) then [] else pruned.kept
  {
    hide Reaches, OnClose, Lives, Answering, FlushedFirst, OrderlyLife;
    StartIsHealthy(options);
    LivesHealthy(Start(options), life, s);
    var fragment, prev, waiting :| Answering(s, fragment, prev, waiting);
    AnsweringPruned(s, fragment, prev, waiting);
    NoItemsNoBlocks(prev);
    dropped := EndSettlesIff(s, fragment, prev, waiting, retry, flush, events, u);
  }

  lemma AnsweringPruned(s: Client, fragment: seq<Item>, prev: seq<seq<Item>>, waiting: seq<seq<Item>>)
    requires Answering(s, fragment, prev, waiting)
    ensures Incomplete(s.queue, 0) == Pruned(Concat(prev), fragment) && s.queue == fragment + Concat(prev)
    ensures Blocks(prev)
  {
    var pipe: Pipe, k: nat :| k > 0 && PipelineFrom(fragment, pipe, k);
    LeadingFragmentIsPruned(fragment, pipe, k, prev);
  }

  // ---------- a command on the wrong database ----------

  lemma IssueOne(s: Client, command: Command)
    requires s.status == Ready
    ensures SendEach(s, [command], None) == Send(s, command, None, None)
    ensures command.pipelineIndex == None && !command.inTransaction ==> WellFormed(Issue([command], None))
  {
    assert [command][1..] == [];
    assert SendEach(Send(s, command, None, None), [], None) == Send(s, command, None, None);
    assert Issued(0, Issue([command], None)) == [Item(command, None, 0)] + [];
  }

  const EXAMPLE_OPTIONS := Options(0, true, true, true)
  const SELECT_THREE := Command(Some(0), Select(Some(3)), None, false)
  const GET := Command(Some(1), Other, None, false)
  const LATE := Issue([Command(Some(2), Select(Some(3)), Some(0), false)], Some(Pipe(0, 1)))

  /** One more event before a life. */
  lemma LivesFrom(s: Client, e: LifeEvent, rest: seq<LifeEvent>, t: Client)
    requires CanHappen(s, e) && Orderly(s, e) && Lives(Happen(s, e), rest, t) && OrderlyLife(Happen(s, e), rest)
    ensures Lives(s, [e] + rest, t) && OrderlyLife(s, [e] + rest)
  {
    hide CanHappen, Happen, Orderly;
    assert ([e] + rest)[1..] == rest;
  }

  lemma StartsReady()
    ensures var start := Start(EXAMPLE_OPTIONS);
            && OnConnect(start) == start.(status := Connect) && !ReadyMisplaces(start.(status := Connect))
            && OnReady(start.(status := Connect)) == start.(status := Ready)
  {
  }

  /** The rest of a life, from the first time the client is ready. */
  lemma FromStart(rest: seq<LifeEvent>, t: Client) returns (life: seq<LifeEvent>)
    requires Lives(Start(EXAMPLE_OPTIONS).(status := Ready), rest, t)
    requires OrderlyLife(Start(EXAMPLE_OPTIONS).(status := Ready), rest)
    ensures Lives(Start(EXAMPLE_OPTIONS), life, t) && OrderlyLife(Start(EXAMPLE_OPTIONS), life)
  {
    StartsReady();
    hide OnConnect, OnReady, ReadyMisplaces, Lives, OrderlyLife;
    var start := Start(EXAMPLE_OPTIONS);
    LivesFrom(start.(status := Connect), BecomeReady, rest, t);
    life := [LifeEvent.BecomeReady] + rest;
    LivesFrom(start, LifeEvent.Away(Connected), life, t);
    life := [LifeEvent.Away(Connected)] + life;
  }

  /** A client on database 3 that has sent a command and waits for its reply. */
  lemma ExampleLife() returns (life: seq<LifeEvent>, s: Client)
    ensures Lives(Start(EXAMPLE_OPTIONS), life, s) && OrderlyLife(Start(EXAMPLE_OPTIONS), life)
    ensures s == Client(EXAMPLE_OPTIONS, Ready, Condition(3, None), NoCondition,
                        [Item(GET, None, 3)], NoQueue, [], map[],
                        [Write(SELECT_THREE, None), Write(GET, None)], [])
  {
    var selected, answered := Selected();
    s := Send(answered, GET, None, None);
    assert s == Client(EXAMPLE_OPTIONS, Ready, Condition(3, None), NoCondition, [Item(GET, None, 3)], NoQueue, [],
                       map[], [Write(SELECT_THREE, None), Write(GET, None)], []);
    IssueOne(answered, GET);
    hide SendEach, Send, WellFormed;
    LivesFrom(answered, Issues(Issue([GET], None)), [], s);
    life := FromSelected(selected, answered, [LifeEvent.Issues(Issue([GET], None))] + [], s);
  }

  /** A new client that selects database 3, before and after the reply. */
  lemma Selected() returns (selected: Client, answered: Client)
    ensures selected == Send(Start(EXAMPLE_OPTIONS).(status := Ready), SELECT_THREE, None, None)
    ensures selected.status == Ready && selected.queue != [] && answered == selected.(queue := selected.queue[1..])
    ensures answered == Client(EXAMPLE_OPTIONS, Ready, Condition(3, None), NoCondition, [], NoQueue, [], map[],
                               [Write(SELECT_THREE, None)], [])
  {
    selected := Send(Start(EXAMPLE_OPTIONS).(status := Ready), SELECT_THREE, None, None);
    assert selected.queue == [Item(SELECT_THREE, None, 0)];
    assert selected.queue[1..] == [];
    answered := selected.(queue := selected.queue[1..]);
  }

  /** The rest of a life, from where database 3 is selected. */
  lemma FromSelected(selected: Client, answered: Client, rest: seq<LifeEvent>, t: Client)
    returns (life: seq<LifeEvent>)
    requires selected == Send(Start(EXAMPLE_OPTIONS).(status := Ready), SELECT_THREE, None, None)
    requires selected.status == Ready && selected.queue != [] && answered == selected.(queue := selected.queue[1..])
    requires Lives(answered, rest, t) && OrderlyLife(answered, rest)
    ensures Lives(Start(EXAMPLE_OPTIONS), life, t) && OrderlyLife(Start(EXAMPLE_OPTIONS), life)
  {
    IssueOne(Start(EXAMPLE_OPTIONS).(status := Ready), SELECT_THREE);
    hide SendEach, Send, Lives, OrderlyLife, WellFormed;
    LivesFrom(selected, LifeEvent.Answer, rest, t);
    life := [LifeEvent.Answer] + rest;
    LivesFrom(Start(EXAMPLE_OPTIONS).(status := Ready), Issues(Issue([SELECT_THREE], None)), life, t);
    life := FromStart([LifeEvent.Issues(Issue([SELECT_THREE], None))] + life, t);
  }

  lemma ExampleCloses(s: Client, item: Item)
    requires s.status == Ready && s.queue == [item] && item.command == GET && s.offline == [] && s.rejected == []
    requires s.prevCondition == NoCondition
    ensures OnClose(s, true, false)
         == s.(status := Reconnecting, prevCondition := SameCondition, prevQueue := SameQueue)
  {
    assert [item][1..] == [] && [item] + [] == [item];
    assert Incomplete([], 0) == Pruned([], []);
    assert Incomplete([item], 0) == Pruned([item], []);
  }

  lemma Misdirected(u: Client, item: Item)
    requires u.prevQueue == OwnQueue([item]) && item.command == GET && item.select == u.condition.select == 3
    requires u.options.autoResend && u.wire == [] && u.prevCondition == OwnCondition(Condition(3, None))
    ensures !FindsDatabases(u)
  {
    assert ToResend(u)[0] == item;
  }

  lemma LateIs(s: Client)
    requires s.status == Connect && s.options.offlineQueue && s.condition.select == 0 && s.offline == []
    ensures Enabled(s, Submit(LATE))
    ensures Step(s, Submit(LATE))
         == s.(offline := [Item(LATE.commands[0], LATE.stream, 0)], condition := s.condition.(select := 3))
  {
    SubmitWaits(s, LATE);
    assert Issued(0, LATE) == [Item(LATE.commands[0], LATE.stream, 0)] + Issued(3, Issue([], LATE.stream));
    assert DbAfterIssue(0, LATE.commands) == DbAfterIssue(3, []);
  }

  /**
   A client loses its connection with a command outstanding on database 3; after the connect event and before
   the ready event a pipeline selects database 3. The outstanding command is then written to database 0.
   */
  lemma WrongDatabaseExample() returns (life: seq<LifeEvent>, s: Client, events: seq<OutageRun.Event>, u: Client)
    ensures Lives(Start(EXAMPLE_OPTIONS), life, s) && OrderlyLife(Start(EXAMPLE_OPTIONS), life) && s.status == Ready
    ensures Reaches(OnClose(s, true, false), events, u) && u.status == Connect
    ensures exists ws ::
      OnReady(u).wire == u.wire + ws && !Obeys(DbAfter(0, u.wire), ws)
  {
    life, s := ExampleLife();
    var c, item := OnClose(s, true, false), Item(GET, None, 3);
    ExampleCloses(s, item);
    hide OnClose, SendEach, FindsDatabases, Obeys;
    var a, k := Step(c, Attempt), Step(Step(c, Attempt), Connected);
    assert k == s.(status := Connect, condition := Condition(0, None),
                   prevCondition := OwnCondition(Condition(3, None)),
                   queue := [], prevQueue := OwnQueue([item]), wire := []);
    LateIs(k);
    u := Step(k, Submit(LATE));
    var events2 := [Submit(LATE)];
    var events1 := [Connected] + events2;
    events := [Attempt] + events1;
    assert events2[1..] == [] && events1[1..] == events2 && events[1..] == events1;
    assert Reaches(u, [], u);
    assert Reaches(k, events2, u);
    assert Reaches(a, events1, u);
    var ws, dropped := EveryOutageIsRecovered(EXAMPLE_OPTIONS, life, s, true, false, events, u);
    Misdirected(u, item);
  }

  /**
   A client loses its connection with a command outstanding, connects again, loses that connection before it is
   ready and gives up: the command is neither written again nor rejected.
   */
  lemma StrandedExample() returns (life: seq<LifeEvent>, s: Client, events: seq<OutageRun.Event>, u: Client)
    ensures Lives(Start(EXAMPLE_OPTIONS), life, s) && OrderlyLife(Start(EXAMPLE_OPTIONS), life)
    ensures s.status == Ready && Commands(s.queue) == [GET]
    ensures Reaches(OnClose(s, true, false), events, u) && u.status == End
    ensures u.rejected == [] && Commands(u.PrevItems()) == [GET]
  {
    life, s := ExampleLife();
    var c, item := OnClose(s, true, false), Item(GET, None, 3);
    ExampleCloses(s, item);
    var a, k := Step(c, Attempt), Step(Step(c, Attempt), Connected);
    u := Step(k, GiveUp);
    EmptyIncomplete();
    assert u.rejected == [] && u.prevQueue == OwnQueue([item]);
    var events2 := [GiveUp];
    var events1 := [Connected] + events2;
    events := [Attempt] + events1;
    assert events2[1..] == [] && events1[1..] == events2 && events[1..] == events1;
    assert Reaches(u, [], u);
    assert Reaches(k, events2, u);
    assert Reaches(a, events1, u);
  }

  // ---------- a SELECT in the wrong place ----------

  const PIPE := Pipe(0, 2)
  const BAD_SELECT := Command(Some(1), Select(None), Some(0), false)
  const SECOND := Command(Some(2), Other, Some(1), false)
  const PIPELINE := [Item(BAD_SELECT, Some(PIPE), 3), Item(SECOND, Some(PIPE), 3)]

  /** A ready client on database 3 that waits for the replies to a pipeline, a SELECT of nothing and a command. */
  lemma PipelineLife() returns (life: seq<LifeEvent>, s: Client)
    ensures Lives(Start(EXAMPLE_OPTIONS), life, s) && OrderlyLife(Start(EXAMPLE_OPTIONS), life)
    ensures s == Client(EXAMPLE_OPTIONS, Ready, Condition(3, None), NoCondition, PIPELINE, NoQueue, [], map[],
                        [Write(SELECT_THREE, None), Write(BAD_SELECT, None), Write(SECOND, None)], [])
  {
    var selected, answered := Selected();
    var issue := Issue([BAD_SELECT, SECOND], Some(PIPE));
    s := SendEach(answered, issue.commands, issue.stream);
    PipelineSent(answered, issue);
    hide SendEach, Send, WellFormed;
    LivesFrom(answered, Issues(issue), [], s);
    life := FromSelected(selected, answered, [LifeEvent.Issues(issue)] + [], s);
  }

  lemma FirstGathered(s: Client, w: Write)
    requires s.gathered == map[]
    ensures WriteOut(s, w, Some(PIPE)) == s.(gathered := map[0 := [w]])
  {
    assert [] + [w] == [w];
    assert s.gathered[0 := [w]] == map[0 := [w]];
  }

  lemma PipelineSent(s: Client, issue: Issue)
    requires issue == Issue([BAD_SELECT, SECOND], Some(PIPE)) && s.status == Ready && s.condition.select == 3
    requires s.gathered == map[] && s.queue == []
    ensures WellFormed(issue)
    ensures SendEach(s, issue.commands, issue.stream)
         == s.(queue := PIPELINE, wire := s.wire + [Write(BAD_SELECT, None), Write(SECOND, None)])
  {
    var first := Send(s, BAD_SELECT, Some(PIPE), None);
    var second := Send(first, SECOND, Some(PIPE), None);
    FirstGathered(s, Write(BAD_SELECT, None));
    assert first == s.(queue := [PIPELINE[0]], gathered := map[0 := [Write(BAD_SELECT, None)]]);
    assert second == s.(queue := PIPELINE, wire := s.wire + [Write(BAD_SELECT, None), Write(SECOND, None)]);
    assert issue.commands[1..] == [SECOND] && [SECOND][1..] == [];
    assert SendEach(second, [], issue.stream) == second;
    assert SendEach(first, [SECOND], issue.stream) == second;
    var rest := Issue([SECOND], issue.stream);
    assert Issued(0, Issue([], issue.stream)) == [];
    assert Issued(0, rest) == [Item(SECOND, Some(PIPE), 0)];
    assert Issued(0, issue) == [Item(BAD_SELECT, Some(PIPE), 0), Item(SECOND, Some(PIPE), 0)];
  }

  lemma PipelineCloses(s: Client)
    requires s.status == Ready && s.queue == PIPELINE && s.offline == [] && s.rejected == []
    requires s.prevCondition == NoCondition
    ensures OnClose(s, true, false)
         == s.(status := Reconnecting, prevCondition := SameCondition, prevQueue := SameQueue)
  {
    assert PIPELINE[1..] == [PIPELINE[1]] && [PIPELINE[1]][1..] == [];
    assert Incomplete([], 2) == Pruned([], []);
    assert Incomplete([PIPELINE[1]], 1) == Pruned([PIPELINE[1]], []);
    assert Incomplete(PIPELINE, 0) == Pruned(PIPELINE, []);
  }

  /** On database 0 the SELECT of the pipeline's database overtakes its first command. */
  lemma PipelineAgain(s: Client)
    requires s.status == Ready && s.condition.select == 0 && s.queue == [] && s.gathered == map[] && s.wire == []
    ensures var t := ResendAll(s, PIPELINE);
            && WireCommands(t.wire) == [SelectCommand(3), BAD_SELECT, SECOND] && t.condition.select == 3
            && t.queue == [Item(BAD_SELECT, Some(PIPE), 0), Item(SelectCommand(3), None, 0), PIPELINE[1]]
            && t.options == s.options && t.offline == s.offline && t.status == Ready
  {
    var first := Resend(s, PIPELINE[0]);
    FirstGathered(s, Write(BAD_SELECT, Some(3)));
    assert first == s.(queue := [Item(BAD_SELECT, Some(PIPE), 0)],
                       gathered := map[0 := [Write(BAD_SELECT, Some(3))]]);
    var second := Resend(first, PIPELINE[1]);
    assert PIPELINE[1..] == [PIPELINE[1]] && [PIPELINE[1]][1..] == [];
    assert ResendAll(second, []) == second;
    assert ResendAll(first, [PIPELINE[1]]) == second;
  }

  lemma PipelineMisplaces()
    ensures Misplaces(0, PIPELINE) && MisplacesSome(0, Parsed(PIPELINE))
  {
    assert PIPELINE[1..] == [PIPELINE[1]];
    assert BadSelects([PIPELINE[1]]) == 0 && BadSelects(PIPELINE) == 1;
    assert PIPELINE[..2] == PIPELINE && PIPELINE[2..] == [];
    assert Parsed(PIPELINE) == [PIPELINE] + Parsed([]);
  }

  lemma PipelineResent(u: Client)
    requires u.options == EXAMPLE_OPTIONS && u.status == Connect && u.condition == Condition(0, None)
    requires u.prevCondition == OwnCondition(Condition(3, None)) && u.prevQueue == OwnQueue(PIPELINE)
    requires u.queue == [] && u.offline == [] && u.gathered == map[] && u.wire == []
    ensures var t := OnReady(u);
            && WireCommands(t.wire) == [SelectCommand(3), BAD_SELECT, SECOND]
            && t.queue == [Item(BAD_SELECT, Some(PIPE), 0), Item(SelectCommand(3), None, 0), PIPELINE[1]]
            && Commands(t.queue) == [BAD_SELECT, SelectCommand(3), SECOND]
    ensures Misplaces(u.condition.select, u.PrevItems()) && ReadyMisplaces(u)
  {
    hide ResendAll, Send, MisplacesSome, Parsed, Misplaces;
    var r := u.(status := Ready, prevCondition := NoCondition);
    var s := r.(prevQueue := OwnQueue([]));
    PipelineAgain(s);
    var t := ResendAll(s, PIPELINE);
    assert t.(offline := []) == t;
    assert ResendAll(t, []) == t by {
      NothingResends(t);
    }
    assert ToResend(u) == PIPELINE;
    PipelineMisplaces();
  }

  /** The connection of such a client is lost, and another one connects. */
  lemma PipelineOutage(s: Client) returns (events: seq<OutageRun.Event>, u: Client)
    requires s == Client(EXAMPLE_OPTIONS, Ready, Condition(3, None), NoCondition, PIPELINE, NoQueue, [], map[],
                         [Write(SELECT_THREE, None), Write(BAD_SELECT, None), Write(SECOND, None)], [])
    ensures Reaches(OnClose(s, true, false), events, u)
    ensures u == s.(status := Connect, condition := Condition(0, None), queue := [], wire := [],
                    prevCondition := OwnCondition(Condition(3, None)), prevQueue := OwnQueue(PIPELINE))
  {
    PipelineCloses(s);
    hide OnClose, SendEach;
    var c := OnClose(s, true, false);
    var a := Step(c, Attempt);
    u := Step(a, Connected);
    var events1 := [Connected];
    events := [Attempt] + events1;
    assert events1[1..] == [] && events[1..] == events1;
    assert Reaches(u, [], u);
    assert Reaches(a, events1, u);
  }

  lemma NothingResends(s: Client)
    ensures ResendAll(s, []) == s
  {
  }

  /** The second command is no longer known to belong to a pipeline whose first one was never answered. */
  lemma SeveredPrunes(queue: seq<Item>)
    requires queue == [Item(BAD_SELECT, Some(PIPE), 0), Item(SelectCommand(3), None, 0), PIPELINE[1]]
    ensures Incomplete(queue, 0) == Pruned(queue[..2], queue[2..])
    ensures Commands(queue[..2]) == [BAD_SELECT, SelectCommand(3)] && Commands(queue[2..]) == [SECOND]
  {
    assert queue[2..][1..] == [] && queue[1..] == [queue[1]] + queue[2..] && queue[1..][1..] == queue[2..];
    assert Incomplete([], 1) == Pruned([], []);
    assert Incomplete(queue[2..], 0) == Pruned([], queue[2..]);
    assert Incomplete(queue[1..], 1) == Pruned([queue[1]], queue[2..]);
  }

  /**
   A client on database 3 loses its connection with a pipeline outstanding that begins with a SELECT of nothing.
   Sent again, its own SELECT goes out before the pipeline but is queued in its middle, so that the replies meet
   the wrong commands; and if this connection is lost as well, the pipeline is torn: its second command is
   rejected and its first one kept, to wait in the stream for the second.
   */
  lemma MisplacedExample() returns (life: seq<LifeEvent>, s: Client, events: seq<OutageRun.Event>, u: Client)
    ensures Lives(Start(EXAMPLE_OPTIONS), life, s) && OrderlyLife(Start(EXAMPLE_OPTIONS), life) && s.status == Ready
    ensures Reaches(OnClose(s, true, false), events, u) && u.status == Connect
    ensures Misplaces(u.condition.select, u.PrevItems()) && ReadyMisplaces(u)
    ensures var t := OnReady(u);
            && WireCommands(t.wire) == [SelectCommand(3), BAD_SELECT, SECOND]
            && Commands(t.queue) == [BAD_SELECT, SelectCommand(3), SECOND]
            && Commands(Incomplete(t.queue, 0).kept) == [BAD_SELECT, SelectCommand(3)]
            && Commands(Incomplete(t.queue, 0).rejected) == [SECOND]
  {
    life, s := PipelineLife();
    hide *;
    events, u := PipelineOutage(s);
    PipelineResent(u);
    SeveredPrunes(OnReady(u).queue);
  }
}
