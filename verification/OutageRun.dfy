/**
 A whole outage: a ready connection closes, any number of attempts fail, commands keep being issued, and
 an attempt succeeds.
 */
module OutageRun {
  import opened Bytes
  import opened Wrappers
  import opened Queues
  import opened Outage
  import opened Databases

  // ---------- taking a list apart ----------

  /** `whole` is an interleaving of `kept`, in this order, and `dropped`, in any order. */
  ghost predicate Splits<T>(whole: seq<T>, kept: seq<T>, dropped: multiset<T>)
    decreases |whole|
  {
    if whole == [] then kept == [] && dropped == multiset{}
    else
      || (kept != [] && kept[0] == whole[0] && Splits(whole[1..], kept[1..], dropped))
      || (whole[0] in dropped && Splits(whole[1..], kept, dropped - multiset{whole[0]}))
  }

  lemma {:induction false} SplitsNothing<T>(whole: seq<T>)
    ensures Splits(whole, whole, multiset{})
    decreases |whole|
  {
    if whole != [] {
      SplitsNothing(whole[1..]);
    }
  }

  lemma {:induction false} SplitsAround<T>(prefix: seq<T>, whole: seq<T>, kept: seq<T>, dropped: multiset<T>)
    requires Splits(whole, kept, dropped)
    ensures Splits(prefix + whole, prefix + kept, dropped)
    decreases |prefix|
  {
    if prefix == [] {
      assert prefix + whole == whole && prefix + kept == kept;
    } else {
      assert (prefix + whole)[1..] == prefix[1..] + whole && (prefix + kept)[1..] == prefix[1..] + kept;
      SplitsAround(prefix[1..], whole, kept, dropped);
    }
  }

  lemma {:induction false} SplitsMore<T>(whole: seq<T>, kept: seq<T>, dropped: multiset<T>, more: seq<T>)
    requires Splits(whole, kept, dropped)
    ensures Splits(whole + more, kept + more, dropped)
    decreases |whole|
  {
    if whole == [] {
      assert whole + more == more && kept + more == more;
      SplitsNothing(more);
    } else {
      assert (whole + more)[1..] == whole[1..] + more && (whole + more)[0] == whole[0];
      if kept != [] && kept[0] == whole[0] && Splits(whole[1..], kept[1..], dropped) {
        assert (kept + more)[1..] == kept[1..] + more;
        SplitsMore(whole[1..], kept[1..], dropped, more);
      } else {
        SplitsMore(whole[1..], kept, dropped - multiset{whole[0]}, more);
      }
    }
  }

  lemma {:induction false} SplitsTwice<T>(whole: seq<T>, kept: seq<T>, dropped: multiset<T>, left: seq<T>,
                                          gone: multiset<T>)
    requires Splits(whole, kept, dropped) && Splits(kept, left, gone)
    ensures Splits(whole, left, dropped + gone)
    decreases |whole|
  {
    if whole != [] {
      if kept != [] && kept[0] == whole[0] && Splits(whole[1..], kept[1..], dropped) {
        if left != [] && left[0] == kept[0] && Splits(kept[1..], left[1..], gone) {
          SplitsTwice(whole[1..], kept[1..], dropped, left[1..], gone);
        } else {
          SplitsTwice(whole[1..], kept[1..], dropped, left, gone - multiset{kept[0]});
          assert dropped + (gone - multiset{kept[0]}) == dropped + gone - multiset{whole[0]};
        }
      } else {
        SplitsTwice(whole[1..], kept, dropped - multiset{whole[0]}, left, gone);
        assert dropped - multiset{whole[0]} + gone == dropped + gone - multiset{whole[0]};
      }
    }
  }

  // ---------- issuing commands while there is no connection ----------

  /** A command on its own, or all the commands of a pipeline with its stream. */
  datatype Issue = Issue(commands: seq<Command>, stream: Option<Pipe>)

  /**
   Losing a connection leads to another attempt, after `flush` has rejected what is queued when the retry limit
   is reached; giving up leads to the end, which a caller may leave by connecting again.
   */
  datatype Event = Submit(issue: Issue) | Attempt | Connected | Lose(flush: bool) | GiveUp

  function SendEach(s: Client, commands: seq<Command>, stream: Option<Pipe>): Client
    decreases |commands|
  {
    if commands == [] then s else SendEach(Send(s, commands[0], stream, None), commands[1..], stream)
  }

  function CommandDb(db: int, command: Command): int {
    if command.verb.Select? && command.verb.db.Some? then command.verb.db.value else db
  }

  /** The queue items of an issue when database `db` is selected. */
  function Issued(db: int, issue: Issue): seq<Item>
    decreases |issue.commands|
  {
    if issue.commands == [] then []
    else [Item(issue.commands[0], issue.stream, db)]
         + Issued(CommandDb(db, issue.commands[0]), Issue(issue.commands[1..], issue.stream))
  }

  function DbAfterIssue(db: int, commands: seq<Command>): int
    decreases |commands|
  {
    if commands == [] then db else DbAfterIssue(CommandDb(db, commands[0]), commands[1..])
  }

  /** What a caller can issue: commands on their own, and pipelines with their transactions whole. */
  predicate WellFormed(issue: Issue) {
    var b := Issued(0, issue);
    Block(b) && TransactionsInside(b)
  }

  /** Nothing that is issued reaches the wire before the connection is ready. */
  predicate Waits(s: Client, issue: Issue) {
    s.status == Reconnecting || s.status == Connecting
    || (s.status == Connect && (issue.stream.Some? || forall c :: c in issue.commands ==> !c.verb.Select?))
  }

  lemma {:induction false} IssuedItems(db: int, issue: Issue)
    ensures var b := Issued(db, issue);
            |b| == |issue.commands| && Commands(b) == issue.commands
            && (forall i :: 0 <= i < |b| ==> b[i].command == issue.commands[i] && b[i].stream == issue.stream)
            && (b != [] ==> b[0].select == db) && Chained(b)
    decreases |issue.commands|
  {
    if issue.commands != [] {
      var rest := Issue(issue.commands[1..], issue.stream);
      IssuedItems(CommandDb(db, issue.commands[0]), rest);
      var b, tail := Issued(db, issue), Issued(CommandDb(db, issue.commands[0]), rest);
      assert b[1..] == tail;
      forall i | 0 < i < |b|
        ensures b[i].select == After(b[i - 1])
      {
        if i > 1 {
          assert tail[i - 1].select == After(tail[i - 2]);
        }
      }
    }
  }

  lemma IssuedBlock(db: int, issue: Issue)
    requires WellFormed(issue)
    ensures var b := Issued(db, issue);
            Block(b) && TransactionsInside(b) && Chained(b) && Commands(b) == issue.commands
  {
    hide Issued, After;
    IssuedItems(0, issue);
    IssuedItems(db, issue);
    var a, b := Issued(0, issue), Issued(db, issue);
    SameInside(a, b);
  }

  lemma SameInside(a: seq<Item>, b: seq<Item>)
    requires |a| == |b| && forall i :: 0 <= i < |a| ==> a[i].command == b[i].command && a[i].stream == b[i].stream
    requires TransactionsInside(a)
    ensures TransactionsInside(b)
  {
    forall i | 0 <= i < |b| && (b[i].command.inTransaction || (b[i].command.verb == Exec && b[i].stream.Some?))
      ensures exists j :: 0 <= j <= i && b[j].command.verb == Multi
    {
      assert a[i].command.inTransaction || (a[i].command.verb == Exec && a[i].stream.Some?);
      var j :| 0 <= j <= i && a[j].command.verb == Multi;
      assert b[j].command.verb == Multi;
    }
  }

  lemma {:induction false} SubmitWaits(s: Client, issue: Issue)
    requires Waits(s, issue) && s.options.offlineQueue
    ensures SendEach(s, issue.commands, issue.stream)
         == s.(offline := s.offline + Issued(s.condition.select, issue),
               condition := s.condition.(select := DbAfterIssue(s.condition.select, issue.commands)))
    decreases |issue.commands|
  {
    if issue.commands != [] {
      var c := issue.commands[0];
      var rest := Issue(issue.commands[1..], issue.stream);
      var u := Send(s, c, issue.stream, None);
      assert forall x :: x in rest.commands ==> x in issue.commands;
      assert c in issue.commands;
      assert u.condition.select == CommandDb(s.condition.select, c);
      SubmitWaits(u, rest);
      assert s.offline + [Item(c, issue.stream, s.condition.select)] + Issued(u.condition.select, rest)
          == s.offline + Issued(s.condition.select, issue);
    }
  }

  /** At the end every command is refused, and without an offline queue before that as well. */
  predicate Refuses(s: Client) {
    s.status == End || !s.options.offlineQueue
  }

  function Refused(db: int, commands: seq<Command>, stream: Option<Pipe>): seq<Item> {
    seq(|commands|, i requires 0 <= i < |commands| => Item(commands[i], stream, db))
  }

  lemma {:induction false} SubmitIsRefused(s: Client, commands: seq<Command>, stream: Option<Pipe>)
    requires s.status == End || (!s.options.offlineQueue && Waits(s, Issue(commands, stream)))
    ensures SendEach(s, commands, stream)
         == s.(rejected := s.rejected + Refused(s.condition.select, commands, stream))
    decreases |commands|
  {
    if commands == [] {
      assert s.rejected + Refused(s.condition.select, commands, stream) == s.rejected;
    } else {
      var item := Item(commands[0], stream, s.condition.select);
      assert commands[0] in commands && forall c :: c in commands[1..] ==> c in commands;
      SubmitIsRefused(Send(s, commands[0], stream, None), commands[1..], stream);
      assert s.rejected + [item] + Refused(s.condition.select, commands[1..], stream)
          == s.rejected + Refused(s.condition.select, commands, stream);
    }
  }

  // ---------- the outage ----------

  predicate Enabled(s: Client, e: Event) {
    match e
    case Submit(issue) => (s.status == End || Waits(s, issue)) && WellFormed(issue)
    case Attempt => s.status == Reconnecting || s.status == End
    case Connected => s.status == Connecting
    case Lose(_) => s.status == Connecting || s.status == Connect
    case GiveUp => s.status == Connecting || s.status == Connect
  }

  function Step(s: Client, e: Event): Client {
    match e
    case Submit(issue) => SendEach(s, issue.commands, issue.stream)
    case Attempt => OnAttempt(s)
    case Connected => OnConnect(s)
    case Lose(flush) => OnClose(s, true, flush)
    case GiveUp => OnClose(s, false, false)
  }

  predicate Flushes(e: Event) {
    e == GiveUp || e == Lose(true)
  }

  /** The queues are flushed while the outstanding commands are still in the queue of their own connection. */
  predicate FlushedFirst(events: seq<Event>) {
    events != [] && !events[0].Connected? && (Flushes(events[0]) || FlushedFirst(events[1..]))
  }

  ghost predicate Reaches(s: Client, events: seq<Event>, t: Client)
    decreases |events|
  {
    if events == [] then s == t else Enabled(s, events[0]) && Reaches(Step(s, events[0]), events[1..], t)
  }

  function SubmittedBy(e: Event): seq<Command> {
    if e.Submit? then e.issue.commands else []
  }

  function Submitted(events: seq<Event>): seq<Command> {
    if events == [] then [] else SubmittedBy(events[0]) + Submitted(events[1..])
  }

  /** Whole blocks outstanding from before, whole blocks waiting, and everything else dropped. */
  ghost predicate Outside(s: Client, prev: seq<seq<Item>>, waiting: seq<seq<Item>>) {
    && s.gathered == map[] && s.PrevItems() == Concat(prev) && Resendable(prev)
    && s.offline == Concat(waiting) && Resendable(waiting) && Closed(waiting)
  }

  ghost predicate Away(s: Client, prev: seq<seq<Item>>, waiting: seq<seq<Item>>) {
    && Outside(s, prev, waiting)
    && s.status != Ready
    && (s.prevCondition == SameCondition ==> s.status == Reconnecting || s.status == End)
    && (s.prevQueue != SameQueue ==> s.queue == [])
    && (s.status == End ==> s.offline == [] && s.queue == [])
    && (s.status == Connect ==>
          s.prevQueue != SameQueue && Originals(s.wire) == [] && Tracks(s))
  }

  predicate SelectsSomewhere(items: seq<Item>) {
    exists i :: 0 <= i < |items| && SelectsDb(items[i].command)
  }

  /** The recorded database is the server's, or a SELECT is waiting that has been recorded already. */
  predicate Tracks(s: Client) {
    s.condition.select == DbAfter(0, s.wire) || SelectsSomewhere(s.offline)
  }

  lemma {:induction false} IssuedSelects(db: int, issue: Issue)
    ensures DbAfterIssue(db, issue.commands) == db || SelectsSomewhere(Issued(db, issue))
    decreases |issue.commands|
  {
    if issue.commands != [] {
      var c := issue.commands[0];
      var rest := Issue(issue.commands[1..], issue.stream);
      var b := Issued(db, issue);
      if SelectsDb(c) {
        assert SelectsDb(b[0].command);
      } else {
        IssuedSelects(db, rest);
        if SelectsSomewhere(Issued(db, rest)) {
          var i :| 0 <= i < |Issued(db, rest)| && SelectsDb(Issued(db, rest)[i].command);
          assert SelectsDb(b[i + 1].command);
        }
      }
    }
  }

  lemma SelectsAppend(a: seq<Item>, b: seq<Item>)
    requires SelectsSomewhere(a) || SelectsSomewhere(b)
    ensures SelectsSomewhere(a + b)
  {
    if SelectsSomewhere(a) {
      var i :| 0 <= i < |a| && SelectsDb(a[i].command);
      assert SelectsDb((a + b)[i].command);
    } else {
      var i :| 0 <= i < |b| && SelectsDb(b[i].command);
      assert SelectsDb((a + b)[|a| + i].command);
    }
  }

  lemma SubmitTracks(s: Client, issue: Issue)
    requires Waits(s, issue) && s.options.offlineQueue && Tracks(s)
    ensures Tracks(Step(s, Submit(issue)))
  {
    hide SelectsSomewhere, SendEach;
    SubmitWaits(s, issue);
    var b := Issued(s.condition.select, issue);
    IssuedSelects(s.condition.select, issue);
    if SelectsSomewhere(s.offline) || SelectsSomewhere(b) {
      SelectsAppend(s.offline, b);
    }
  }

  /** So the server is on the recorded database once everything waiting has been sent. */
  lemma TracksEnds(s: Client)
    requires Tracks(s)
    ensures EndsTogether(s)
  {
    var d, items := s.condition.select, ToResend(s);
    if d != DbAfter(0, s.wire) {
      var i :| 0 <= i < |s.offline| && SelectsDb(s.offline[i].command);
      assert items[|items| - |s.offline| + i] == s.offline[i];
    }
  }

  /** What a client still has to write or reject, in order. */
  function Held(s: Client): seq<Item> {
    s.PrevItems() + s.offline
  }

  lemma SubmitKeeps(s: Client, prev: seq<seq<Item>>, waiting: seq<seq<Item>>, issue: Issue)
    requires Outside(s, prev, waiting) && Waits(s, issue) && s.options.offlineQueue && WellFormed(issue)
    ensures var b, t := Issued(s.condition.select, issue), Step(s, Submit(issue));
            Outside(t, prev, waiting + [b]) && t.status == s.status && t.queue == s.queue && t.rejected == s.rejected
            && t.wire == s.wire && t.prevQueue == s.prevQueue && t.prevCondition == s.prevCondition
            && t.options == s.options
            && t.condition.select == DbAfterIssue(s.condition.select, issue.commands)
            && Commands(Held(t)) == Commands(Held(s)) + issue.commands
  {
    hide WellFormed, Closed, Resendable, Waits, SendEach, Issued, DbAfterIssue;
    SubmitWaits(s, issue);
    IssuedBlock(s.condition.select, issue);
    ConcatSnoc(waiting, Issued(s.condition.select, issue));
    ClosedSnoc(waiting, Issued(s.condition.select, issue));
    ResendableSnoc(waiting, Issued(s.condition.select, issue));
    assert s.PrevItems() + (s.offline + Issued(s.condition.select, issue))
        == Held(s) + Issued(s.condition.select, issue);
    CommandsAppend(Held(s), Issued(s.condition.select, issue));
  }

  lemma ClosedSnoc(bs: seq<seq<Item>>, b: seq<Item>)
    requires Closed(bs) && Block(b) && TransactionsInside(b)
    ensures Closed(bs + [b])
  {
  }

  lemma ResendableSnoc(bs: seq<seq<Item>>, b: seq<Item>)
    requires Resendable(bs) && Block(b) && Chained(b)
    ensures Resendable(bs + [b])
  {
  }

  lemma {:induction false} KeptBlocksSplit(bs: seq<seq<Item>>)
    ensures Splits(Commands(Concat(bs)), Commands(Concat(KeptBlocks(bs))), multiset(Commands(LoneExec(bs))))
    ensures forall b :: b in KeptBlocks(bs) ==> b in bs
    decreases |bs|
  {
    hide Splits;
    if bs == [] || (exists i :: 0 <= i < |bs[0]| && bs[0][i].command.verb == Multi) {
      SplitsNothing(Commands(Concat(bs)));
      assert Commands([]) == [];
    } else {
      var b, rest := bs[0], bs[1..];
      CommandsAppend(b, Concat(rest));
      if |b| == 1 && b[0].command.verb == Exec {
        DropOne(b[0].command, Commands(Concat(rest)));
        assert Commands(b) == [b[0].command];
      } else {
        KeptBlocksSplit(rest);
        CommandsAppend(b, Concat(KeptBlocks(rest)));
        assert Concat([b] + KeptBlocks(rest)) == b + Concat(KeptBlocks(rest)) by {
          assert ([b] + KeptBlocks(rest))[1..] == KeptBlocks(rest);
        }
        SplitsAround(Commands(b), Commands(Concat(rest)), Commands(Concat(KeptBlocks(rest))),
            multiset(Commands(LoneExec(rest))));
      }
    }
  }

  lemma DropOne<T>(x: T, rest: seq<T>)
    ensures Splits([x] + rest, rest, multiset([x]))
  {
    SplitsNothing(rest);
    assert ([x] + rest)[1..] == rest;
    assert multiset([x]) - multiset{x} == multiset{};
  }

  lemma EmptyIncomplete()
    ensures Incomplete([], 0) == Pruned([], [])
  {
  }

  lemma {:induction false} SplitsNone<T>(whole: seq<T>)
    ensures Splits(whole, [], multiset(whole))
    decreases |whole|
  {
    if whole != [] {
      assert whole == [whole[0]] + whole[1..];
      assert multiset(whole) - multiset{whole[0]} == multiset(whole[1..]);
      SplitsNone(whole[1..]);
    }
  }

  lemma {:induction false} SplitsCounts<T>(whole: seq<T>, kept: seq<T>, dropped: multiset<T>)
    requires Splits(whole, kept, dropped)
    ensures multiset(whole) == multiset(kept) + dropped
    decreases |whole|
  {
    if whole != [] {
      assert whole == [whole[0]] + whole[1..];
      if kept != [] && kept[0] == whole[0] && Splits(whole[1..], kept[1..], dropped) {
        assert kept == [kept[0]] + kept[1..];
        SplitsCounts(whole[1..], kept[1..], dropped);
      } else {
        SplitsCounts(whole[1..], kept, dropped - multiset{whole[0]});
      }
    }
  }

  /** What closing again prunes and, if it flushes, what it rejects besides. */
  function Shed(s: Client, waiting: seq<seq<Item>>, flushes: bool): seq<Item> {
    LoneExec(waiting) + if flushes then Concat(KeptBlocks(waiting)) + s.queue else []
  }

  lemma PruneIs(s: Client, prev: seq<seq<Item>>, waiting: seq<seq<Item>>)
    requires Away(s, prev, waiting)
    ensures Prune(s) == s.(offline := Concat(KeptBlocks(waiting)), rejected := s.rejected + LoneExec(waiting))
    ensures Closed(KeptBlocks(waiting))
  {
    hide Block, Chained, Fragments, Incomplete, TransactionsInside, KeptBlocks, LoneExec, Tracks;
    BlocksAreKept(prev, 0);
    EmptyIncomplete();
    FragmentsKeepBlocks(waiting);
    assert s.rejected + [] + LoneExec(waiting) == s.rejected + LoneExec(waiting);
  }

  /** Nothing outstanding is pruned again, and of what waits whole blocks are left, or nothing after a flush. */
  lemma ShutIs(s: Client, prev: seq<seq<Item>>, waiting: seq<seq<Item>>, e: Event)
    requires Away(s, prev, waiting) && Enabled(s, e) && (e.Lose? || e.GiveUp?)
    ensures Step(s, e) == s.(offline := if Flushes(e) then [] else Concat(KeptBlocks(waiting)),
                             queue := if Flushes(e) then [] else s.queue,
                             status := if e.GiveUp? then End else Reconnecting,
                             rejected := s.rejected + Shed(s, waiting, Flushes(e)))
    ensures Closed(KeptBlocks(waiting))
  {
    hide Prune, Closed, Resendable, KeptBlocks, LoneExec, Tracks;
    PruneIs(s, prev, waiting);
    assert s.rejected + LoneExec(waiting) == s.rejected + (LoneExec(waiting) + []);
    assert s.rejected + LoneExec(waiting) + Concat(KeptBlocks(waiting)) + s.queue
        == s.rejected + (LoneExec(waiting) + (Concat(KeptBlocks(waiting)) + s.queue));
  }

  /** The blocks that are left of the outstanding and of the waiting ones. */
  function LeftOf(bs: seq<seq<Item>>, gone: bool): seq<seq<Item>> {
    if gone then [] else bs
  }

  lemma ShutKeeps(s: Client, prev: seq<seq<Item>>, waiting: seq<seq<Item>>, e: Event)
    requires Away(s, prev, waiting) && Enabled(s, e) && (e.Lose? || e.GiveUp?)
    ensures var t := Step(s, e);
            Away(t, LeftOf(prev, Flushes(e) && s.prevQueue == SameQueue), LeftOf(KeptBlocks(waiting), Flushes(e)))
            && t.rejected == s.rejected + Shed(s, waiting, Flushes(e)) && t.prevQueue == s.prevQueue
            && t.options == s.options
  {
    hide Step, KeptBlocks, LoneExec, Resendable, Closed, Tracks, Shed, Flushes, Enabled;
    ShutIs(s, prev, waiting, e);
    KeptBlocksResend(waiting);
    ShutEnabled(s, e);
  }

  lemma ShutEnabled(s: Client, e: Event)
    requires Enabled(s, e) && (e.Lose? || e.GiveUp?)
    ensures s.status == Connecting || s.status == Connect
    ensures e.GiveUp? ==> Flushes(e)
  {
  }

  lemma KeptBlocksResend(bs: seq<seq<Item>>)
    requires Resendable(bs)
    ensures Resendable(KeptBlocks(bs)) && Resendable([]) && Closed([])
  {
    KeptBlocksSplit(bs);
  }

  /** Outstanding commands p and waiting ones w: `lone` goes first, and then all of k, or of p and k. */
  lemma ShedSplits(p: seq<Item>, w: seq<Item>, k: seq<Item>, lone: seq<Item>, same: bool, flushes: bool)
    requires Splits(Commands(w), Commands(k), multiset(Commands(lone)))
    ensures var shed := lone + if flushes then k + (if same then p else []) else [];
            Splits(Commands(p + w), Commands(if !flushes then p + k else if same then [] else p),
                   multiset(Commands(shed)))
  {
    hide Splits;
    CommandsAppend(p, w);
    CommandsAppend(p, k);
    SplitsAround(Commands(p), Commands(w), Commands(k), multiset(Commands(lone)));
    assert lone + [] == lone && Commands([]) == [];
    if flushes {
      var more := k + if same then p else [];
      CommandsAppend(lone, more);
      if same {
        CommandsAppend(k, p);
        SplitsNone(Commands(p + k));
        assert multiset(Commands(p + k)) == multiset(Commands(more));
        SplitsTwice(Commands(p + w), Commands(p + k), multiset(Commands(lone)), [], multiset(Commands(more)));
      } else {
        assert k + [] == k && Commands(p) + [] == Commands(p);
        SplitsNone(Commands(k));
        SplitsAround(Commands(p), Commands(k), [], multiset(Commands(k)));
        SplitsTwice(Commands(p + w), Commands(p + k), multiset(Commands(lone)), Commands(p), multiset(Commands(k)));
      }
    }
  }

  lemma ShutSplits(s: Client, prev: seq<seq<Item>>, waiting: seq<seq<Item>>, e: Event)
    requires Away(s, prev, waiting) && Enabled(s, e) && (e.Lose? || e.GiveUp?)
    ensures Splits(Commands(Held(s)), Commands(Held(Step(s, e))),
                   multiset(Commands(Shed(s, waiting, Flushes(e)))))
  {
    hide Step, Splits, KeptBlocks, LoneExec, Resendable, Closed, Tracks;
    ShutIs(s, prev, waiting, e);
    KeptBlocksSplit(waiting);
    var p, k := s.PrevItems(), Concat(KeptBlocks(waiting));
    ShedSplits(p, s.offline, k, LoneExec(waiting), s.prevQueue == SameQueue, Flushes(e));
    assert p + [] == p;
  }

  lemma ConnectKeeps(s: Client, prev: seq<seq<Item>>, waiting: seq<seq<Item>>)
    requires Away(s, prev, waiting) && Enabled(s, Connected)
    ensures var t := OnConnect(s);
            Away(t, prev, waiting) && t.rejected == s.rejected && Held(t) == Held(s) && t.prevQueue != SameQueue
            && t.options == s.options
  {
    if s.condition.select != 0 {
      assert OnConnect(s).wire[1..] == [];
    }
  }

  lemma RefusedKeeps(s: Client, prev: seq<seq<Item>>, waiting: seq<seq<Item>>, issue: Issue)
    returns (dropped: seq<Item>)
    requires Away(s, prev, waiting) && Refuses(s) && (s.status == End || Waits(s, issue))
    ensures var t := Step(s, Submit(issue));
            && Away(t, prev, waiting) && t.rejected == s.rejected + dropped && t.prevQueue == s.prevQueue
            && t.options == s.options
            && Splits(Commands(Held(s)) + issue.commands, Commands(Held(t)), multiset(Commands(dropped)))
  {
    hide Splits, SendEach, Resendable, Closed, Waits;
    SubmitIsRefused(s, issue.commands, issue.stream);
    dropped := Refused(s.condition.select, issue.commands, issue.stream);
    assert Commands(dropped) == issue.commands;
    var held := Commands(Held(s));
    assert held + [] == held;
    SplitsNone(issue.commands);
    SplitsAround(held, issue.commands, [], multiset(issue.commands));
  }

  lemma StepKeeps(s: Client, prev: seq<seq<Item>>, waiting: seq<seq<Item>>, e: Event)
    returns (prev': seq<seq<Item>>, waiting': seq<seq<Item>>, dropped: seq<Item>)
    requires Away(s, prev, waiting) && Enabled(s, e)
    ensures Away(Step(s, e), prev', waiting') && Step(s, e).rejected == s.rejected + dropped
    ensures Splits(Commands(Held(s)) + SubmittedBy(e), Commands(Held(Step(s, e))), multiset(Commands(dropped)))
    ensures prev' == LeftOf(prev, Flushes(e) && s.prevQueue == SameQueue)
    ensures Step(s, e).prevQueue == SameQueue <==> s.prevQueue == SameQueue && !e.Connected?
    ensures Step(s, e).options == s.options
  {
    hide Splits, SendEach, OnClose, OnConnect, WellFormed, Closed, Resendable, Tracks, Shed, Held;
    var held := Commands(Held(s));
    assert held + [] == held && Commands([]) == [];
    assert s.rejected + [] == s.rejected;
    prev', waiting', dropped := prev, waiting, [];
    match e
    case Submit(issue) =>
      if Refuses(s) {
        dropped := RefusedKeeps(s, prev, waiting, issue);
      } else {
        SubmitKeeps(s, prev, waiting, issue);
        if s.status == Connect {
          SubmitTracks(s, issue);
        }
        waiting' := waiting + [Issued(s.condition.select, issue)];
        SplitsNothing(Commands(Held(Step(s, e))));
      }
    case Attempt =>
      assert Held(Step(s, e)) == Held(s) by {
        AttemptHolds(s);
      }
      SplitsNothing(held);
    case Connected =>
      ConnectKeeps(s, prev, waiting);
      SplitsNothing(held);
    case _ =>
      ShutKeeps(s, prev, waiting, e);
      ShutSplits(s, prev, waiting, e);
      prev' := LeftOf(prev, Flushes(e) && s.prevQueue == SameQueue);
      waiting', dropped := LeftOf(KeptBlocks(waiting), Flushes(e)), Shed(s, waiting, Flushes(e));
  }

  lemma AttemptHolds(s: Client)
    ensures Held(OnAttempt(s)) == Held(s)
  {
  }

  lemma SplitsThen<T>(a: seq<T>, first: seq<T>, b: seq<T>, gone: multiset<T>, rest: seq<T>, c: seq<T>,
                      dropped: multiset<T>)
    requires Splits(a + first, b, gone) && Splits(b + rest, c, dropped)
    ensures Splits(a + (first + rest), c, gone + dropped)
  {
    hide Splits;
    SplitsMore(a + first, b, gone, rest);
    SplitsTwice(a + first + rest, b + rest, gone, c, dropped);
    assert a + first + rest == a + (first + rest);
  }

  /**
   Through any part of an outage, what was outstanding, waiting or issued is either still held, in order, or has
   been rejected; and what was outstanding is rejected only while its queue is still that of its own connection.
   */
  lemma {:induction false} OutageKeeps(s: Client, prev: seq<seq<Item>>, waiting: seq<seq<Item>>, events: seq<Event>,
                                       t: Client)
    returns (prev': seq<seq<Item>>, waiting': seq<seq<Item>>, dropped: seq<Item>)
    requires Away(s, prev, waiting) && Reaches(s, events, t)
    ensures Away(t, prev', waiting') && t.rejected == s.rejected + dropped
    ensures Splits(Commands(Held(s)) + Submitted(events), Commands(Held(t)), multiset(Commands(dropped)))
    ensures prev' == LeftOf(prev, s.prevQueue == SameQueue && FlushedFirst(events)) && t.options == s.options
    decreases |events|
  {
    hide Splits, Step, Enabled, Away, Held;
    if events == [] {
      prev', waiting', dropped := prev, waiting, [];
      assert Commands(Held(s)) + [] == Commands(Held(s)) && Commands([]) == [];
      assert s.rejected + [] == s.rejected;
      SplitsNothing(Commands(Held(s)));
    } else {
      var u := Step(s, events[0]);
      var left, next, gone := StepKeeps(s, prev, waiting, events[0]);
      var later;
      prev', waiting', later := OutageKeeps(u, left, next, events[1..], t);
      dropped := gone + later;
      SplitsThen(Commands(Held(s)), SubmittedBy(events[0]), Commands(Held(u)), multiset(Commands(gone)),
                 Submitted(events[1..]), Commands(Held(t)), multiset(Commands(later)));
      CommandsAppend(gone, later);
      assert s.rejected + gone + later == s.rejected + dropped;
    }
  }

  // ---------- the database afterwards ----------

  /** What is issued before the first attempt. */
  function Early(events: seq<Event>): seq<Command> {
    if events == [] || events[0].Attempt? then [] else SubmittedBy(events[0]) + Early(events[1..])
  }

  /** What is issued before the first attempt and not refused. */
  function Noted(s: Client, events: seq<Event>): seq<Command> {
    if Refuses(s) then [] else Early(events)
  }

  lemma {:induction false} DbAfterIssues(db: int, a: seq<Command>, b: seq<Command>)
    ensures DbAfterIssue(db, a + b) == DbAfterIssue(DbAfterIssue(db, a), b)
    decreases |a|
  {
    if a == [] {
      assert a + b == b;
    } else {
      assert (a + b)[1..] == a[1..] + b;
      DbAfterIssues(CommandDb(db, a[0]), a[1..], b);
    }
  }

  /** An outage with a condition kept from before, which is still the current object until the first attempt. */
  predicate Remembering(s: Client) {
    s.prevCondition.OwnCondition?
    || (s.prevCondition == SameCondition && (s.status == Reconnecting || s.status == End))
  }

  lemma RememberStep(s: Client, e: Event)
    requires Remembering(s) && Enabled(s, e)
    ensures var u := Step(s, e);
            && Remembering(u) && (u.prevCondition == SameCondition <==> s.prevCondition == SameCondition && !e.Attempt?)
            && (u.prevCondition == SameCondition ==> u.status == s.status) && u.options == s.options
            && u.Remembered().select
               == (if s.prevCondition == SameCondition && !Refuses(s)
                   then DbAfterIssue(s.condition.select, SubmittedBy(e)) else s.Remembered().select)
  {
    if e.Submit? {
      if Refuses(s) {
        SubmitIsRefused(s, e.issue.commands, e.issue.stream);
      } else {
        SubmitWaits(s, e.issue);
      }
    }
  }

  /** The database to come back to is fixed at the first attempt; what is selected after that does not move it. */
  lemma {:induction false} OutageRemembers(s: Client, events: seq<Event>, t: Client)
    requires Reaches(s, events, t) && Remembering(s)
    ensures Remembering(t)
    ensures t.Remembered().select
         == if s.prevCondition == SameCondition then DbAfterIssue(s.condition.select, Noted(s, events))
            else s.Remembered().select
    decreases |events|
  {
    hide Step, Enabled, DbAfterIssue, Remembering;
    NothingIssued(s.condition.select);
    if events != [] {
      var e, u := events[0], Step(s, events[0]);
      RememberStep(s, e);
      OutageRemembers(u, events[1..], t);
      if s.prevCondition == SameCondition && !e.Attempt? {
        assert u.Remembered().select == u.condition.select;
        NothingIssued(u.condition.select);
        DbAfterIssues(s.condition.select, SubmittedBy(e), Early(events[1..]));
      }
    }
  }

  lemma NothingIssued(db: int)
    ensures DbAfterIssue(db, []) == db
  {
  }

  // ---------- the recorded database before the ready event ----------

  /** What has been issued since the last connect event, with `late` issued before these events. */
  function LateAfter(late: seq<Command>, events: seq<Event>): seq<Command>
    decreases |events|
  {
    if events == [] then late
    else LateAfter(if events[0].Submit? then late + events[0].issue.commands else [], events[1..])
  }

  function Late(events: seq<Event>): seq<Command> {
    LateAfter([], events)
  }

  /** The commands that wait for the ready event: none without an offline queue. */
  function Queued(s: Client, commands: seq<Command>): seq<Command> {
    if s.options.offlineQueue then commands else []
  }

  lemma LateStep(s: Client, e: Event, late: seq<Command>)
    requires Enabled(s, e)
    requires s.status == Connect ==> s.condition.select == DbAfterIssue(DbAfter(0, s.wire), Queued(s, late))
    ensures var u := Step(s, e);
            && u.options == s.options
            && (u.status == Connect ==>
                  u.condition.select
                  == DbAfterIssue(DbAfter(0, u.wire), Queued(s, if e.Submit? then late + e.issue.commands else [])))
  {
    match e
    case Submit(issue) =>
      if Refuses(s) {
        SubmitIsRefused(s, issue.commands, issue.stream);
      } else {
        SubmitWaits(s, issue);
      }
      if s.status == Connect {
        DbAfterIssues(DbAfter(0, s.wire), late, issue.commands);
      }
    case Connected =>
      if s.condition.select != 0 {
        assert OnConnect(s).wire[1..] == [];
      }
    case _ =>
  }

  /** At a connect event record and server agree; from then on the record runs ahead by what is issued late. */
  lemma {:induction false} RecordRunsAhead(s: Client, late: seq<Command>, events: seq<Event>, u: Client)
    requires Reaches(s, events, u)
    requires s.status == Connect ==> s.condition.select == DbAfterIssue(DbAfter(0, s.wire), Queued(s, late))
    ensures u.status == Connect ==>
        u.condition.select == DbAfterIssue(DbAfter(0, u.wire), Queued(s, LateAfter(late, events)))
    decreases |events|
  {
    hide Step, Enabled, DbAfterIssue, DbAfter;
    if events != [] {
      var e := events[0];
      LateStep(s, e, late);
      RecordRunsAhead(Step(s, e), if e.Submit? then late + e.issue.commands else [], events[1..], u);
    }
  }

  // ---------- the whole outage ----------

  /** A ready connection: perhaps in the middle of a pipeline's replies, then whole blocks. */
  ghost predicate Answering(s: Client, fragment: seq<Item>, prev: seq<seq<Item>>, waiting: seq<seq<Item>>) {
    && s.status == Ready && s.gathered == map[]
    && s.prevCondition == NoCondition && s.prevQueue != SameQueue && s.PrevItems() == []
    && Shape(s.queue, fragment, prev) && Resendable(prev)
    && s.offline == Concat(waiting) && Resendable(waiting) && Closed(waiting)
  }

  /** The queues of a ready connection are flushed when it closes. */
  predicate ClosesFlushing(retry: bool, flush: bool) {
    !retry || flush
  }

  /** What closing a ready connection rejects after what is left of a pipeline. */
  function ClosingShed(prev: seq<seq<Item>>, waiting: seq<seq<Item>>, flushes: bool): seq<Item> {
    LoneExec(waiting) + if flushes then Concat(KeptBlocks(waiting)) + Concat(prev) else []
  }

  lemma CloseIs(s: Client, fragment: seq<Item>, prev: seq<seq<Item>>, waiting: seq<seq<Item>>, retry: bool, flush: bool)
    requires Answering(s, fragment, prev, waiting)
    ensures var flushes := ClosesFlushing(retry, flush);
            OnClose(s, retry, flush)
            == s.(offline := if flushes then [] else Concat(KeptBlocks(waiting)),
                  queue := if flushes then [] else Concat(prev),
                  status := if retry then Reconnecting else End,
                  prevCondition := SameCondition,
                  prevQueue := if Concat(prev) != [] then SameQueue else s.prevQueue,
                  rejected := s.rejected + fragment + ClosingShed(prev, waiting, flushes))
    ensures Closed(KeptBlocks(waiting))
  {
    hide Block, Chained, Fragments, Incomplete, TransactionsInside, KeptBlocks, LoneExec;
    var pipe: Pipe, k: nat :| k > 0 && PipelineFrom(fragment, pipe, k);
    LeadingFragmentIsPruned(fragment, pipe, k, prev);
    FragmentsKeepBlocks(waiting);
    var lone, left := LoneExec(waiting), Concat(KeptBlocks(waiting));
    assert s.rejected + fragment + lone == s.rejected + fragment + (lone + []);
    assert s.rejected + fragment + lone + left + Concat(prev) == s.rejected + fragment + (lone + (left + Concat(prev)));
  }

  lemma CloseKeeps(s: Client, fragment: seq<Item>, prev: seq<seq<Item>>, waiting: seq<seq<Item>>,
                   retry: bool, flush: bool)
    requires Answering(s, fragment, prev, waiting)
    ensures var t, flushes := OnClose(s, retry, flush), ClosesFlushing(retry, flush);
            && Away(t, LeftOf(prev, flushes), LeftOf(KeptBlocks(waiting), flushes))
            && t.rejected == s.rejected + fragment + ClosingShed(prev, waiting, flushes)
            && t.condition == s.condition && t.prevCondition == SameCondition && Remembering(t)
            && t.status == (if retry then Reconnecting else End) && t.options == s.options
            && (t.prevQueue == SameQueue || prev == [])
            && Splits(Commands(Concat(prev) + s.offline), Commands(Held(t)),
                      multiset(Commands(ClosingShed(prev, waiting, flushes))))
  {
    hide OnClose, Splits, KeptBlocks, LoneExec, Chained, Block;
    CloseIs(s, fragment, prev, waiting, retry, flush);
    KeptBlocksSplit(waiting);
    NoItemsNoBlocks(prev);
    var p, k := Concat(prev), Concat(KeptBlocks(waiting));
    ShedSplits(p, s.offline, k, LoneExec(waiting), true, ClosesFlushing(retry, flush));
  }

  lemma NoItemsNoBlocks(bs: seq<seq<Item>>)
    requires Blocks(bs)
    ensures Concat(bs) == [] <==> bs == []
  {
    if bs != [] {
      assert bs[0] in bs;
    }
  }

  lemma AwayIsPrimed(s: Client, prev: seq<seq<Item>>, waiting: seq<seq<Item>>)
    requires Away(s, prev, waiting) && s.status == Connect
    ensures Primed(s, prev, waiting) && Originals(s.wire) == [] && s.offline == Concat(waiting) && Tracks(s)
  {
  }

  /**
   Over one outage, through any number of attempts that fail before or after the connect event, flushes and ends
   included, nothing is lost, duplicated or reordered. What was outstanding, waited or is issued meanwhile is
   either rejected or still held, in this order, when the connection becomes ready, each exactly once; of the
   outstanding commands what was left of the pipeline being answered is rejected, and the others only by a
   flush before the first connect event. What is held is then written, in this order, each exactly once; only
   without automatic resending the outstanding ones are neither written nor rejected. The connection ends on the
   database that was selected when the first attempt was made. Everything but a SELECT is written on its own
   database if and only if the state before the ready event finds the databases, as it does when what has been
   issued since the connect event leaves the database alone. The new queue holds what has been written, in the
   order of the wire if and only if no SELECT is misplaced in a pipeline sent again.
   */
  lemma NothingIsLost(s: Client, fragment: seq<Item>, prev: seq<seq<Item>>, waiting: seq<seq<Item>>,
                      retry: bool, flush: bool, events: seq<Event>, u: Client)
    returns (ws: seq<Write>, dropped: seq<Item>)
    requires Answering(s, fragment, prev, waiting)
    requires Reaches(OnClose(s, retry, flush), events, u) && u.status == Connect
    ensures var t := OnReady(u);
            && t.status == Ready && t.wire == u.wire + ws && Originals(u.wire) == []
            && t.rejected == s.rejected + fragment + dropped
            && Splits(Commands(Concat(prev) + s.offline) + Submitted(events),
                      Commands(Held(u)), multiset(Commands(dropped)))
            && u.PrevItems() == (if !retry || flush || FlushedFirst(events) then [] else Concat(prev))
            && Originals(ws) == Commands((if s.options.autoResend then u.PrevItems() else []) + u.offline)
            && t.condition.select == DbAfter(0, t.wire)
               == DbAfterIssue(s.condition.select, if retry then Queued(s, Early(events)) else [])
            && t.offline == [] && t.PrevItems() == []
            && multiset(Commands(t.queue)) == multiset(WireCommands(ws))
            && (Commands(t.queue) == WireCommands(ws) <==> !ReadyMisplaces(u))
    ensures Obeys(DbAfter(0, u.wire), ws) <==> FindsDatabases(u)
    ensures u.condition.select == DbAfterIssue(DbAfter(0, u.wire), Queued(s, Late(events)))
  {
    hide Splits, Reaches, OnClose, OnReady, Primed, Away, Answering, DbAfterIssue, DbAfter, Obeys, EndsTogether, Tracks;
    hide FindsDatabases, Held, ReadyMisplaces;
    var c := OnClose(s, retry, flush);
    var left, between;
    left, between, dropped := Outlasts(s, fragment, prev, waiting, retry, flush, events, u);
    AwayIsPrimed(u, left, between);
    ws := ReadyWritesEverything(u, left, between);
    CommandsAppend(Concat(Resent(u.options, left)), Concat(between));
    PrimedBlocks(u, left, between);
    ReadyDatabasesIff(u, left, between, ws);
    ReadyKeepsOrderIff(u, left, between, ws);
    TracksEnds(u);
    CloseKeeps(s, fragment, prev, waiting, retry, flush);
    OutageRemembers(c, events, u);
    RecordRunsAhead(c, [], events, u);
  }

  /** From closing on, through any part of the outage. */
  lemma Outlasts(s: Client, fragment: seq<Item>, prev: seq<seq<Item>>, waiting: seq<seq<Item>>,
                 retry: bool, flush: bool, events: seq<Event>, u: Client)
    returns (left: seq<seq<Item>>, between: seq<seq<Item>>, dropped: seq<Item>)
    requires Answering(s, fragment, prev, waiting) && Reaches(OnClose(s, retry, flush), events, u)
    ensures Away(u, left, between) && u.rejected == s.rejected + fragment + dropped
    ensures left == LeftOf(prev, !retry || flush || FlushedFirst(events)) && u.options == s.options
    ensures Splits(Commands(Concat(prev) + s.offline) + Submitted(events), Commands(Held(u)),
                   multiset(Commands(dropped)))
  {
    hide Splits, Reaches, OnClose, Away, Answering, Held, ClosingShed;
    var c, first := OnClose(s, retry, flush), ClosingShed(prev, waiting, ClosesFlushing(retry, flush));
    CloseKeeps(s, fragment, prev, waiting, retry, flush);
    var gone;
    left, between, gone := OutageKeeps(c, LeftOf(prev, ClosesFlushing(retry, flush)),
                                       LeftOf(KeptBlocks(waiting), ClosesFlushing(retry, flush)), events, u);
    dropped := first + gone;
    var all := Commands(Concat(prev) + s.offline);
    SplitsMore(all, Commands(Held(c)), multiset(Commands(first)), Submitted(events));
    SplitsTwice(all + Submitted(events), Commands(Held(c)) + Submitted(events), multiset(Commands(first)),
                Commands(Held(u)), multiset(Commands(gone)));
    CommandsAppend(first, gone);
    assert s.rejected + fragment + first + gone == s.rejected + fragment + dropped;
  }

  /**
   Once a client has given up, everything has been rejected if and only if nothing was outstanding, or the
   queues were flushed before the first connect event. Otherwise the commands that were outstanding are held
   without being written or rejected.
   */
  lemma EndSettlesIff(s: Client, fragment: seq<Item>, prev: seq<seq<Item>>, waiting: seq<seq<Item>>,
                      retry: bool, flush: bool, events: seq<Event>, u: Client)
    returns (dropped: seq<Item>)
    requires Answering(s, fragment, prev, waiting)
    requires Reaches(OnClose(s, retry, flush), events, u) && u.status == End
    ensures u.rejected == s.rejected + fragment + dropped
    ensures multiset(Commands(dropped)) == multiset(Commands(Concat(prev) + s.offline) + Submitted(events))
       <==> prev == [] || !retry || flush || FlushedFirst(events)
    ensures u.PrevItems() == if !retry || flush || FlushedFirst(events) then [] else Concat(prev)
  {
    hide Splits, Reaches, OnClose, Chained, Block;
    var left, between;
    left, between, dropped := Outlasts(s, fragment, prev, waiting, retry, flush, events, u);
    var all, held := Commands(Concat(prev) + s.offline) + Submitted(events), Commands(Held(u));
    SplitsCounts(all, held, multiset(Commands(dropped)));
    assert Held(u) == Concat(left);
    if Concat(left) == [] {
      NoItemsNoBlocks(prev);
      assert held == [];
    } else {
      assert held[0] in multiset(held);
      assert multiset(held)[held[0]] > 0;
    }
  }

  // ---------- databases selected during an outage ----------

  /** A SELECT issued during an outage decides the database to come back to only until the first attempt. */
  lemma SelectIsRememberedIff(s: Client, issue: Issue, db: int)
    requires Remembering(s) && Waits(s, issue) && issue.commands == [SelectCommand(db)]
    ensures Step(s, Submit(issue)).Remembered().select == db
       <==> (s.prevCondition == SameCondition && s.options.offlineQueue) || s.Remembered().select == db
  {
    if s.options.offlineQueue {
      SubmitWaits(s, issue);
    } else {
      SubmitIsRefused(s, issue.commands, issue.stream);
    }
    assert DbAfterIssue(s.condition.select, issue.commands) == db by {
      assert issue.commands[1..] == [];
    }
  }
}
