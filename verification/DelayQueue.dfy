/** The queue of things to do after a delay, one bucket per reason, with one timer per bucket. */
module DelayQueue {
  type Bucket = string

  /** A handler may put further handlers in the queue while it runs, and it may throw after that. */
  datatype Handler = Handler(id: nat, spawns: seq<Push>, throws: bool)
  datatype Push = Push(bucket: Bucket, handler: Handler)

  /** A timer runs, and when it has elapsed the callback (a slot refresh, or the next tick) is waited for. */
  datatype Timer = Armed | Calling

  datatype Entry = Entry(bucket: Bucket, id: nat)

  /** A handler that has left its queue, with whether it has been run. */
  datatype Gone = Gone(entry: Entry, ran: bool)

  /** `pushed` and `gone` are history. */
  datatype State = State(queues: map<Bucket, seq<Handler>>, timeouts: map<Bucket, Timer>, pushed: seq<Entry>,
                         gone: seq<Gone>)

  const Empty := State(map[], map[], [], [])

  datatype Event = Add(push: Push) | Elapse(bucket: Bucket) | CallBack(bucket: Bucket)

  function Queue(s: State, bucket: Bucket): seq<Handler> {
    if bucket in s.queues then s.queues[bucket] else []
  }

  function OnPush(s: State, p: Push): State {
    s.(queues := s.queues[p.bucket := Queue(s, p.bucket) + [p.handler]],
       timeouts := if p.bucket in s.timeouts then s.timeouts else s.timeouts[p.bucket := Armed],
       pushed := s.pushed + [Entry(p.bucket, p.handler.id)])
  }

  function PushAll(s: State, pushes: seq<Push>): State
    decreases |pushes|
  {
    if pushes == [] then s else PushAll(OnPush(s, pushes[0]), pushes[1..])
  }

  function Missed(bucket: Bucket, handlers: seq<Handler>): seq<Gone> {
    seq(|handlers|, i requires 0 <= i < |handlers| => Gone(Entry(bucket, handlers[i].id), false))
  }

  function RunFirst(s: State, bucket: Bucket, handler: Handler): State {
    PushAll(s.(gone := s.gone + [Gone(Entry(bucket, handler.id), true)]), handler.spawns)
  }

  /** A handler that throws ends the loop, and those after it are not run: their queue has been taken away. */
  function RunAll(s: State, bucket: Bucket, handlers: seq<Handler>): State
    decreases |handlers|
  {
    if handlers == [] then s
    else
      var t := RunFirst(s, bucket, handlers[0]);
      if handlers[0].throws then t.(gone := t.gone + Missed(bucket, handlers[1..]))
      else RunAll(t, bucket, handlers[1..])
  }

  /** The bucket's queue is taken away before its handlers run. */
  function Execute(s: State, bucket: Bucket): State {
    if Queue(s, bucket) == [] then s else RunAll(s.(queues := s.queues - {bucket}), bucket, Queue(s, bucket))
  }

  predicate Enabled(s: State, e: Event) {
    match e
    case Add(_) => true
    case Elapse(bucket) => bucket in s.timeouts && s.timeouts[bucket] == Armed
    case CallBack(bucket) => bucket in s.timeouts && s.timeouts[bucket] == Calling
  }

  function Step(s: State, e: Event): State {
    match e
    case Add(p) => OnPush(s, p)
    case Elapse(bucket) => s.(timeouts := s.timeouts[bucket := Calling])
    case CallBack(bucket) => Execute(s.(timeouts := s.timeouts - {bucket}), bucket)
  }

  class Delays {
    var queues: map<Bucket, seq<Handler>>
    var timeouts: map<Bucket, Timer>
    ghost var pushed: seq<Entry>
    ghost var gone: seq<Gone>

    ghost function View(): State
      reads this
    {
      State(queues, timeouts, pushed, gone)
    }

    constructor ()
      ensures View() == Empty
    {
      queues, timeouts, pushed, gone := map[], map[], [], [];
    }

    method Add(bucket: Bucket, handler: Handler)
      modifies this
      ensures View() == OnPush(old(View()), Push(bucket, handler))
    {
      if bucket !in queues {
        queues := queues[bucket := []];
      }
      queues := queues[bucket := queues[bucket] + [handler]];
      pushed := pushed + [Entry(bucket, handler.id)];
      if bucket !in timeouts {
        timeouts := timeouts[bucket := Armed];
      }
    }

    method TimerElapsed(bucket: Bucket)
      modifies this
      ensures View() == Step(old(View()), Elapse(bucket))
    {
      timeouts := timeouts[bucket := Calling];
    }

    method CalledBack(bucket: Bucket) returns (threw: bool)
      modifies this
      ensures View() == Step(old(View()), CallBack(bucket))
    {
      timeouts := timeouts - {bucket};
      threw := Drain(bucket);
    }

    /** A handler adds what it spawns. */
    method Run(bucket: Bucket, handler: Handler) returns (threw: bool)
      modifies this
      ensures View() == RunFirst(old(View()), bucket, handler) && threw == handler.throws
    {
      gone := gone + [Gone(Entry(bucket, handler.id), true)];
      ghost var start := View();
      for i := 0 to |handler.spawns|
        invariant PushAll(View(), handler.spawns[i..]) == PushAll(start, handler.spawns)
      {
        assert handler.spawns[i..][1..] == handler.spawns[i + 1..];
        Add(handler.spawns[i].bucket, handler.spawns[i].handler);
      }
      threw := handler.throws;
    }

    /** True when a handler has thrown; its exception leaves the loop. */
    method Drain(bucket: Bucket) returns (threw: bool)
      modifies this
      ensures View() == Execute(old(View()), bucket)
      ensures threw <==> exists i :: 0 <= i < |Queue(old(View()), bucket)| && Queue(old(View()), bucket)[i].throws
    {
      hide RunFirst;
      if bucket !in queues || queues[bucket] == [] {
        return false;
      }
      var queue := queues[bucket];
      ghost var all, done := queue, 0;
      queues := queues - {bucket};
      ghost var target := RunAll(View(), bucket, queue);
      while queue != []
        invariant RunAll(View(), bucket, queue) == target
        invariant done <= |all| && queue == all[done..] && forall i :: 0 <= i < done ==> !all[i].throws
        decreases |queue|
      {
        var handler := queue[0];
        queue := queue[1..];
        var failed := Run(bucket, handler);
        if failed {
          gone := gone + Missed(bucket, queue);
          return true;
        }
        done := done + 1;
      }
      return false;
    }
  }

  // ---------- every handler leaves its queue once, in order ----------

  function IdsIn(log: seq<Entry>, bucket: Bucket): seq<nat> {
    if log == [] then []
    else IdsIn(log[..|log| - 1], bucket) + (if log[|log| - 1].bucket == bucket then [log[|log| - 1].id] else [])
  }

  function Entries(gone: seq<Gone>): seq<Entry> {
    seq(|gone|, i requires 0 <= i < |gone| => gone[i].entry)
  }

  function Ids(handlers: seq<Handler>): seq<nat> {
    seq(|handlers|, i requires 0 <= i < |handlers| => handlers[i].id)
  }

  /** `taken` are handlers of bucket `draining` that have left its queue and are not accounted for yet. */
  ghost predicate Accounts(s: State, draining: Bucket, taken: seq<Handler>) {
    forall b ::
      IdsIn(Entries(s.gone), b) + (if b == draining then Ids(taken) else []) + Ids(Queue(s, b)) == IdsIn(s.pushed, b)
  }

  ghost predicate Timed(s: State) {
    forall b :: Queue(s, b) != [] ==> b in s.timeouts
  }

  lemma IdsInSnoc(log: seq<Entry>, e: Entry, bucket: Bucket)
    ensures IdsIn(log + [e], bucket) == IdsIn(log, bucket) + (if e.bucket == bucket then [e.id] else [])
  {
    assert (log + [e])[..|log|] == log;
  }

  lemma GoneSnoc(gone: seq<Gone>, g: Gone, bucket: Bucket)
    ensures IdsIn(Entries(gone + [g]), bucket)
         == IdsIn(Entries(gone), bucket) + (if g.entry.bucket == bucket then [g.entry.id] else [])
  {
    assert Entries(gone + [g]) == Entries(gone) + [g.entry];
    IdsInSnoc(Entries(gone), g.entry, bucket);
  }

  lemma PushAccounts(s: State, p: Push, draining: Bucket, taken: seq<Handler>)
    requires Accounts(s, draining, taken) && Timed(s)
    ensures Accounts(OnPush(s, p), draining, taken) && Timed(OnPush(s, p)) && OnPush(s, p).gone == s.gone
  {
    hide Entries;
    var t := OnPush(s, p);
    forall b
      ensures IdsIn(Entries(t.gone), b) + (if b == draining then Ids(taken) else []) + Ids(Queue(t, b))
           == IdsIn(t.pushed, b)
    {
      IdsInSnoc(s.pushed, Entry(p.bucket, p.handler.id), b);
      if b == p.bucket {
        assert Ids(Queue(t, b)) == Ids(Queue(s, b)) + [p.handler.id];
      }
    }
  }

  lemma {:induction false} PushAllAccounts(s: State, pushes: seq<Push>, draining: Bucket, taken: seq<Handler>)
    requires Accounts(s, draining, taken) && Timed(s)
    ensures Accounts(PushAll(s, pushes), draining, taken) && Timed(PushAll(s, pushes))
    decreases |pushes|
  {
    hide OnPush, Accounts, Timed;
    if pushes != [] {
      PushAccounts(s, pushes[0], draining, taken);
      PushAllAccounts(OnPush(s, pushes[0]), pushes[1..], draining, taken);
    }
  }

  lemma {:induction false} PushAllGone(s: State, pushes: seq<Push>)
    ensures PushAll(s, pushes).gone == s.gone
    decreases |pushes|
  {
    if pushes != [] {
      PushAllGone(OnPush(s, pushes[0]), pushes[1..]);
    }
  }

  lemma OneGone(s: State, bucket: Bucket, handlers: seq<Handler>, ran: bool)
    requires handlers != [] && Accounts(s, bucket, handlers) && Timed(s)
    ensures var t := s.(gone := s.gone + [Gone(Entry(bucket, handlers[0].id), ran)]);
            Accounts(t, bucket, handlers[1..]) && Timed(t)
  {
    hide Entries;
    var t := s.(gone := s.gone + [Gone(Entry(bucket, handlers[0].id), ran)]);
    forall b
      ensures IdsIn(Entries(t.gone), b) + (if b == bucket then Ids(handlers[1..]) else []) + Ids(Queue(t, b))
           == IdsIn(t.pushed, b)
    {
      GoneSnoc(s.gone, Gone(Entry(bucket, handlers[0].id), ran), b);
      assert Ids(handlers) == [handlers[0].id] + Ids(handlers[1..]);
    }
  }

  lemma {:induction false} MissedAccounts(s: State, bucket: Bucket, handlers: seq<Handler>)
    requires Accounts(s, bucket, handlers) && Timed(s)
    ensures var t := s.(gone := s.gone + Missed(bucket, handlers));
            Accounts(t, bucket, []) && Timed(t)
    decreases |handlers|
  {
    hide Accounts, Timed;
    if handlers == [] {
      assert s.gone + Missed(bucket, handlers) == s.gone;
    } else {
      var first := Gone(Entry(bucket, handlers[0].id), false);
      OneGone(s, bucket, handlers, false);
      MissedAccounts(s.(gone := s.gone + [first]), bucket, handlers[1..]);
      assert s.gone + [first] + Missed(bucket, handlers[1..]) == s.gone + Missed(bucket, handlers);
    }
  }

  lemma {:induction false} RunAllAccounts(s: State, bucket: Bucket, handlers: seq<Handler>)
    requires Accounts(s, bucket, handlers) && Timed(s)
    ensures Accounts(RunAll(s, bucket, handlers), bucket, []) && Timed(RunAll(s, bucket, handlers))
    decreases |handlers|
  {
    hide Accounts, PushAll, Timed, Missed;
    if handlers != [] {
      OneGone(s, bucket, handlers, true);
      var ran := s.(gone := s.gone + [Gone(Entry(bucket, handlers[0].id), true)]);
      PushAllAccounts(ran, handlers[0].spawns, bucket, handlers[1..]);
      var t := RunFirst(s, bucket, handlers[0]);
      if handlers[0].throws {
        MissedAccounts(t, bucket, handlers[1..]);
      } else {
        RunAllAccounts(t, bucket, handlers[1..]);
      }
    }
  }

  lemma NothingTaken(s: State, a: Bucket, b: Bucket)
    requires Accounts(s, a, [])
    ensures Accounts(s, b, [])
  {
    assert Ids([]) == [];
  }

  lemma ExecuteAccounts(s: State, bucket: Bucket)
    requires Accounts(s, bucket, []) && forall b :: b != bucket && Queue(s, b) != [] ==> b in s.timeouts
    ensures Accounts(Execute(s, bucket), bucket, []) && Timed(Execute(s, bucket))
  {
    if Queue(s, bucket) != [] {
      var t := s.(queues := s.queues - {bucket});
      forall b
        ensures IdsIn(Entries(t.gone), b) + (if b == bucket then Ids(Queue(s, bucket)) else []) + Ids(Queue(t, b))
             == IdsIn(t.pushed, b)
      {
        assert Ids([]) == [];
      }
      RunAllAccounts(t, bucket, Queue(s, bucket));
    }
  }

  ghost predicate Inv(s: State) {
    Accounts(s, "", []) && Timed(s)
  }

  lemma StepKeepsInv(s: State, e: Event)
    requires Inv(s) && Enabled(s, e)
    ensures Inv(Step(s, e))
  {
    hide Accounts, Execute;
    match e
    case Add(p) => PushAccounts(s, p, "", []);
    case Elapse(bucket) => SameAccounts(s, Step(s, e));
    case CallBack(bucket) =>
      var t := s.(timeouts := s.timeouts - {bucket});
      SameAccounts(s, t);
      NothingTaken(t, "", bucket);
      ExecuteAccounts(t, bucket);
      NothingTaken(Execute(t, bucket), bucket, "");
  }

  lemma SameAccounts(s: State, t: State)
    requires Accounts(s, "", []) && t.queues == s.queues && t.gone == s.gone && t.pushed == s.pushed
    ensures Accounts(t, "", [])
  {
    forall b
      ensures IdsIn(Entries(t.gone), b) + (if b == "" then Ids([]) else []) + Ids(Queue(t, b)) == IdsIn(t.pushed, b)
    {
      assert Queue(t, b) == Queue(s, b);
    }
  }

  ghost predicate Reaches(s: State, events: seq<Event>, t: State)
    decreases |events|
  {
    if events == [] then s == t else Enabled(s, events[0]) && Reaches(Step(s, events[0]), events[1..], t)
  }

  lemma {:induction false} ReachesKeepsInv(s: State, events: seq<Event>, t: State)
    requires Inv(s) && Reaches(s, events, t)
    ensures Inv(t)
    decreases |events|
  {
    hide Inv, Step;
    if events != [] {
      StepKeepsInv(s, events[0]);
      ReachesKeepsInv(Step(s, events[0]), events[1..], t);
    }
  }

  /**
   In every reachable state, the handlers of a bucket that have left its queue, run or missed, and those that wait
   are together exactly those that were put in, in that order, each once; and a bucket with waiting handlers has
   a timer that has not been answered.
   */
  lemma HandlersLeaveOnceInOrder(events: seq<Event>, s: State, bucket: Bucket)
    requires Reaches(Empty, events, s)
    ensures IdsIn(Entries(s.gone), bucket) + Ids(Queue(s, bucket)) == IdsIn(s.pushed, bucket)
    ensures Queue(s, bucket) != [] ==> Enabled(s, Elapse(bucket)) || Enabled(s, CallBack(bucket))
  {
    hide Reaches;
    EmptyInv();
    ReachesKeepsInv(Empty, events, s);
    InvMeans(s, bucket);
  }

  lemma EmptyInv()
    ensures Inv(Empty)
  {
    forall b
      ensures IdsIn(Entries([]), b) + (if b == "" then Ids([]) else []) + Ids(Queue(Empty, b)) == IdsIn([], b)
    {
      assert Ids([]) == [] && Entries([]) == [];
    }
  }

  lemma InvMeans(s: State, bucket: Bucket)
    requires Inv(s)
    ensures IdsIn(Entries(s.gone), bucket) + Ids(Queue(s, bucket)) == IdsIn(s.pushed, bucket)
    ensures Queue(s, bucket) != [] ==> bucket in s.timeouts
  {
    hide IdsIn, Entries;
    assert Ids([]) == [];
    assert IdsIn(Entries(s.gone), bucket) + [] == IdsIn(Entries(s.gone), bucket);
  }

  // ---------- which handlers run ----------

  /** No handler before this position throws. */
  predicate NoneThrows(handlers: seq<Handler>, i: nat)
    requires i <= |handlers|
  {
    forall j :: 0 <= j < i ==> !handlers[j].throws
  }

  function Outcomes(bucket: Bucket, handlers: seq<Handler>): seq<Gone> {
    seq(|handlers|, i requires 0 <= i < |handlers| =>
      Gone(Entry(bucket, handlers[i].id), NoneThrows(handlers, i)))
  }

  lemma {:induction false} RunAllGone(s: State, bucket: Bucket, handlers: seq<Handler>)
    ensures RunAll(s, bucket, handlers).gone == s.gone + Outcomes(bucket, handlers)
    decreases |handlers|
  {
    hide PushAll;
    if handlers == [] {
      assert Outcomes(bucket, handlers) == [];
      assert s.gone + [] == s.gone;
    } else {
      var first, rest := Gone(Entry(bucket, handlers[0].id), true), handlers[1..];
      PushAllGone(s.(gone := s.gone + [first]), handlers[0].spawns);
      var t := RunFirst(s, bucket, handlers[0]);
      OutcomesRest(bucket, handlers);
      if !handlers[0].throws {
        RunAllGone(t, bucket, rest);
        assert s.gone + [first] + Outcomes(bucket, rest) == s.gone + ([first] + Outcomes(bucket, rest));
      } else {
        assert s.gone + [first] + Missed(bucket, rest) == s.gone + ([first] + Missed(bucket, rest));
      }
    }
  }

  lemma OutcomesRest(bucket: Bucket, handlers: seq<Handler>)
    requires handlers != []
    ensures Outcomes(bucket, handlers) == [Gone(Entry(bucket, handlers[0].id), true)]
              + if handlers[0].throws then Missed(bucket, handlers[1..]) else Outcomes(bucket, handlers[1..])
  {
    var rest := handlers[1..];
    forall i | 0 < i < |handlers|
      ensures NoneThrows(handlers, i) <==> !handlers[0].throws && NoneThrows(rest, i - 1)
    {
      if !handlers[0].throws && NoneThrows(rest, i - 1) {
        assert forall j :: 0 < j < i ==> handlers[j] == rest[j - 1];
      }
      if NoneThrows(handlers, i) {
        assert forall j :: 0 <= j < i - 1 ==> rest[j] == handlers[j + 1];
      }
    }
  }

  /**
   When the callback of a bucket is answered, everything put into the bucket and not gone before leaves its queue,
   what came in while the callback was pending included, and each of these is run if and only if none before it
   in the queue throws. Only what the handlers themselves put in waits again.
   */
  lemma CallBackRunsIff(events: seq<Event>, s: State, bucket: Bucket)
    requires Reaches(Empty, events, s) && Enabled(s, CallBack(bucket))
    ensures Step(s, CallBack(bucket)).gone == s.gone + Outcomes(bucket, Queue(s, bucket))
    ensures IdsIn(Entries(Step(s, CallBack(bucket)).gone), bucket) == IdsIn(s.pushed, bucket)
  {
    hide Reaches, Outcomes, Entries, IdsIn;
    HandlersLeaveOnceInOrder(events, s, bucket);
    var t, q := s.(timeouts := s.timeouts - {bucket}), Queue(s, bucket);
    if q != [] {
      RunAllGone(t.(queues := t.queues - {bucket}), bucket, q);
    } else {
      NoOutcomes(bucket);
      assert s.gone + [] == s.gone;
    }
    GoneIds(s.gone, bucket, q);
  }

  lemma NoOutcomes(bucket: Bucket)
    ensures Outcomes(bucket, []) == []
  {
  }

  lemma {:induction false} GoneIds(gone: seq<Gone>, bucket: Bucket, handlers: seq<Handler>)
    ensures IdsIn(Entries(gone + Outcomes(bucket, handlers)), bucket) == IdsIn(Entries(gone), bucket) + Ids(handlers)
    decreases |handlers|
  {
    hide Entries, IdsIn;
    if handlers == [] {
      assert gone + Outcomes(bucket, handlers) == gone;
    } else {
      var n := |handlers| - 1;
      var front, last := handlers[..n], Outcomes(bucket, handlers)[n];
      assert forall i :: 0 <= i < n ==> (NoneThrows(front, i) <==> NoneThrows(handlers, i));
      assert gone + Outcomes(bucket, handlers) == gone + Outcomes(bucket, front) + [last];
      GoneSnoc(gone + Outcomes(bucket, front), last, bucket);
      GoneIds(gone, bucket, front);
      assert Ids(handlers) == Ids(front) + [handlers[n].id];
    }
  }

  /** Answering a callback does not lose a handler: only the last one of its queue may throw. */
  predicate Spares(s: State, e: Event) {
    e.CallBack? && Queue(s, e.bucket) != [] ==> NoneThrows(Queue(s, e.bucket), |Queue(s, e.bucket)| - 1)
  }

  ghost predicate NoneLost(s: State, events: seq<Event>)
    decreases |events|
  {
    events == [] || (Enabled(s, events[0]) && Spares(s, events[0]) && NoneLost(Step(s, events[0]), events[1..]))
  }

  predicate AllRan(gone: seq<Gone>) {
    forall g :: g in gone ==> g.ran
  }

  lemma StepRunsIff(s: State, e: Event)
    requires Enabled(s, e)
    ensures AllRan(Step(s, e).gone) <==> AllRan(s.gone) && Spares(s, e)
  {
    if e.CallBack? {
      var t, q := s.(timeouts := s.timeouts - {e.bucket}), Queue(s, e.bucket);
      assert Queue(t, e.bucket) == q;
      if q != [] {
        RunAllGone(t.(queues := t.queues - {e.bucket}), e.bucket, q);
        OutcomesRan(e.bucket, q);
      }
    }
  }

  lemma OutcomesRan(bucket: Bucket, handlers: seq<Handler>)
    requires handlers != []
    ensures AllRan(Outcomes(bucket, handlers)) <==> NoneThrows(handlers, |handlers| - 1)
  {
    var last := Outcomes(bucket, handlers)[|handlers| - 1];
    assert last in Outcomes(bucket, handlers);
  }

  lemma {:induction false} RunRunsIff(s: State, events: seq<Event>, t: State)
    requires Reaches(s, events, t)
    ensures AllRan(t.gone) <==> AllRan(s.gone) && NoneLost(s, events)
    decreases |events|
  {
    hide Step, AllRan, Spares;
    if events != [] {
      StepRunsIff(s, events[0]);
      RunRunsIff(Step(s, events[0]), events[1..], t);
    }
  }

  /**
   Every handler that has left its queue has been run, once, if and only if in no answered callback a handler
   other than the last one of the queue threw.
   */
  lemma HandlersRunIff(events: seq<Event>, s: State)
    requires Reaches(Empty, events, s)
    ensures AllRan(s.gone) <==> NoneLost(Empty, events)
  {
    RunRunsIff(Empty, events, s);
  }

  const THROWS := Handler(0, [], true)
  const LATER := Handler(1, [], false)

  /** Two handlers of a bucket, of which the first throws. */
  const LOSING_RUN: seq<Event> :=
    [Add(Push("moved", THROWS)), Add(Push("moved", LATER)), Elapse("moved"), CallBack("moved")]

  /** The second one is gone without having been run, and nothing will run it. */
  lemma LostExample() returns (s: State)
    ensures Reaches(Empty, LOSING_RUN, s) && Queue(s, "moved") == []
    ensures s.gone == [Gone(Entry("moved", 0), true), Gone(Entry("moved", 1), false)]
  {
    var e := LOSING_RUN;
    var s1 := Step(Empty, e[0]);
    var s2 := Step(s1, e[1]);
    assert Queue(s2, "moved") == [THROWS, LATER];
    var s3 := Step(s2, e[2]);
    s := Step(s3, e[3]);
    var q := [THROWS, LATER];
    assert s3.queues == map["moved" := q];
    var t := s3.(timeouts := s3.timeouts - {"moved"}, queues := map[]);
    assert s3.queues - {"moved"} == map[];
    assert q[1..] == [LATER];
    assert s == RunAll(t, "moved", q);
    RunAllGone(t, "moved", q);
    assert NoneThrows(q, 0) && !NoneThrows(q, 1);
    assert PushAll(t.(gone := t.gone + [Gone(Entry("moved", 0), true)]), []).queues == map[];
    assert e[3..][1..] == [] && e[2..][1..] == e[3..] && e[1..][1..] == e[2..];
    assert Reaches(s, [], s);
    assert Reaches(s3, e[3..], s);
    assert Reaches(s2, e[2..], s);
    assert Reaches(s1, e[1..], s);
  }
}
