/**
 Automatic pipelining: calls made in the same turn of the event loop are gathered in one batch per slot
 key, at most one batch of a key is executing, and the next one starts when it is done.
 */
module AutoPipelining {
  type Key = string

  /** `queued` is whether the call has put a command in the queue of its pipeline. */
  datatype Call = Call(id: nat, name: string, queued: bool)

  /** What a caller's callback is given: an error or a reply. */
  datatype Result = Rejected(error: string) | Replied(reply: string)

  /** The callback of an executed pipeline gets one error for all, or a list of results. */
  datatype Outcome = Failure(error: string) | Results(results: seq<Result>)

  /**
   A pipeline that has not been executed: the functions copied from its client when it was made, its command
   queue, the calls whose callbacks it keeps, and whether it is scheduled. It is deaf once `exec` has been called
   on it: the callback passed to a later exec is then never attached.
   */
  datatype Batch = Batch(functions: set<string>, commands: seq<Call>, callbacks: seq<Call>, scheduled: bool, deaf: bool)

  /** An executing pipeline, with the callbacks kept by the closure passed to exec. */
  datatype Flight = Flight(key: Key, commands: seq<Call>, callbacks: seq<Call>, deaf: bool)

  datatype Tick = Tick(id: nat, result: Result)

  datatype Completion = Completion(flight: Flight, outcome: Outcome)

  datatype Issued = Issued(key: Key, call: Call)

  /**
   `functions` are the client's own; `immediates` and `ticks` are what the event loop still has to run. The last
   four fields are history: the callbacks run, the calls accepted, the batches started and those completed.
   */
  datatype State = State(functions: set<string>, waiting: map<Key, Batch>, running: set<Key>,
                         immediates: multiset<Key>, flights: seq<Flight>, ticks: seq<Tick>, settled: seq<Tick>,
                         issued: seq<Issued>, started: seq<Flight>, completed: seq<Completion>)

  /** A client that has been made with these functions. */
  function Idle(functions: set<string>): State {
    State(functions, map[], {}, multiset{}, [], [], [], [], [], [])
  }

  datatype Event =
    | Define(name: string)
    | Accept(key: Key, name: string)
    | Immediate(key: Key)
    | Complete(index: nat, outcome: Outcome)
    | NextTick

  /** A pipeline comes back with at most one result for each of its commands. */
  predicate Enabled(s: State, e: Event) {
    match e
    case Define(_) => true
    case Accept(_, name) => name in s.functions
    case Immediate(key) => key in s.immediates
    case Complete(i, outcome) =>
      i < |s.flights| && !s.flights[i].deaf && (outcome.Results? ==> |outcome.results| <= |s.flights[i].commands|)
    case NextTick => s.ticks != []
  }

  /** Starting the waiting batch of a key, unless one is running or there is none. */
  function Execute(s: State, key: Key): State {
    if key in s.running || key !in s.waiting then s
    else
      var flight := FlightOf(key, s.waiting[key]);
      s.(running := s.running + {key}, waiting := s.waiting - {key},
         flights := s.flights + [flight], started := s.started + [flight])
  }

  function FlightOf(key: Key, batch: Batch): Flight {
    Flight(key, batch.commands, batch.callbacks, batch.deaf)
  }

  const EXEC := "exec"

  function CallOf(batch: Batch, id: nat, name: string): Call {
    Call(id, name, name != EXEC && name in batch.functions)
  }

  /** Pushing the callback of a call and calling the function of the pipeline; one that it lacks throws. */
  function Called(batch: Batch, id: nat, name: string): Batch {
    var call := CallOf(batch, id, name);
    batch.(callbacks := batch.callbacks + [call], scheduled := true,
           commands := if call.queued then batch.commands + [call] else batch.commands,
           deaf := batch.deaf || name == EXEC)
  }

  function OnAccept(s: State, key: Key, name: string): State {
    var batch := if key in s.waiting then s.waiting[key] else Batch(s.functions, [], [], false, false);
    s.(waiting := s.waiting[key := Called(batch, |s.issued|, name)],
       immediates := if batch.scheduled then s.immediates else s.immediates + multiset{key},
       issued := s.issued + [Issued(key, CallOf(batch, |s.issued|, name))])
  }

  /** There is an error for all, or a result for each of n callbacks. */
  predicate Full(n: nat, outcome: Outcome) {
    outcome.Results? ==> |outcome.results| >= n
  }

  /** How many of n callbacks are given something before a missing result throws. */
  function Given(n: nat, outcome: Outcome): (given: nat)
    ensures given <= n && (given == n <==> Full(n, outcome))
  {
    if outcome.Failure? then n else if |outcome.results| < n then |outcome.results| else n
  }

  /** The callback at index i gets the error, or the result at index i, as long as there is one. */
  function Ticks(callbacks: seq<Call>, outcome: Outcome): seq<Tick> {
    seq(Given(|callbacks|, outcome), i requires 0 <= i < Given(|callbacks|, outcome) =>
      Tick(callbacks[i].id, if outcome.Failure? then Rejected(outcome.error) else outcome.results[i]))
  }

  function Removed(flights: seq<Flight>, i: nat): seq<Flight>
    requires i < |flights|
  {
    flights[..i] + flights[i + 1..]
  }

  /** A batch that is done leaves its key free. */
  function Landed(s: State, i: nat, outcome: Outcome): State
    requires i < |s.flights|
  {
    var flight := s.flights[i];
    s.(running := s.running - {flight.key}, flights := Removed(s.flights, i),
       ticks := s.ticks + Ticks(flight.callbacks, outcome),
       completed := s.completed + [Completion(flight, outcome)])
  }

  /** The next batch is started after the last callback has been given its result; a missing one throws before. */
  function OnComplete(s: State, i: nat, outcome: Outcome): State
    requires i < |s.flights|
  {
    var flight, t := s.flights[i], Landed(s, i, outcome);
    if Full(|flight.callbacks|, outcome) then Execute(t, flight.key) else t
  }

  function Step(s: State, e: Event): State
    requires Enabled(s, e)
  {
    match e
    case Define(name) => s.(functions := s.functions + {name})
    case Accept(key, name) => OnAccept(s, key, name)
    case Immediate(key) => Execute(s.(immediates := s.immediates - multiset{key}), key)
    case Complete(i, outcome) => OnComplete(s, i, outcome)
    case NextTick => s.(ticks := s.ticks[1..], settled := s.settled + [s.ticks[0]])
  }

  /** Being scheduled or not before makes no difference to what a call leaves. */
  lemma CalledIs(batch: Batch, scheduled: bool, id: nat, name: string)
    ensures Called(batch.(scheduled := scheduled), id, name) == Called(batch, id, name)
    ensures Called(batch, id, name).functions == batch.functions
  {
  }

  // ---------- the client object ----------

  class Client {
    var functions: set<string>
    var autoPipelines: map<Key, Batch>
    var runningAutoPipelines: set<Key>
    var immediates: multiset<Key>
    var flights: seq<Flight>
    var ticks: seq<Tick>
    var settled: seq<Tick>
    var issued: seq<Issued>
    var started: seq<Flight>
    var completed: seq<Completion>

    ghost function View(): State
      reads this
    {
      State(functions, autoPipelines, runningAutoPipelines, immediates, flights, ticks, settled, issued, started,
            completed)
    }

    constructor (functions: set<string>)
      ensures View() == Idle(functions)
    {
      this.functions, autoPipelines, runningAutoPipelines := functions, map[], {};
      immediates, flights, ticks, settled := multiset{}, [], [], [];
      issued, started, completed := [], [], [];
    }

    method DefineCommand(name: string)
      modifies this`functions
      ensures View() == Step(old(View()), Define(name))
    {
      functions := functions + {name};
    }

    method ExecuteAutoPipeline(slotKey: Key)
      modifies this
      ensures View() == Execute(old(View()), slotKey)
    {
      if slotKey in runningAutoPipelines {
        return;
      }
      if slotKey !in autoPipelines {
        return;
      }
      runningAutoPipelines := runningAutoPipelines + {slotKey};
      var pipeline := autoPipelines[slotKey];
      autoPipelines := autoPipelines - {slotKey};
      var flight := FlightOf(slotKey, pipeline);
      flights := flights + [flight];
      started := started + [flight];
    }

    /** The callback is pushed first; calling a function that the pipeline lacks then throws, and it stays. */
    static method RunExecutor(batch: Batch, id: nat, name: string) returns (pipeline: Batch, threw: bool)
      requires batch.scheduled
      ensures pipeline == Called(batch, id, name)
      ensures threw <==> name != EXEC && name !in batch.functions
    {
      var call := CallOf(batch, id, name);
      pipeline := batch.(callbacks := batch.callbacks + [call]);
      threw := false;
      if name == EXEC {
        pipeline := pipeline.(deaf := true);
      } else if name in pipeline.functions {
        pipeline := pipeline.(commands := pipeline.commands + [call]);
      } else {
        threw := true;
      }
    }

    method ExecuteWithAutoPipelining(slotKey: Key, name: string) returns (id: nat, threw: bool)
      requires name in functions
      modifies this
      ensures View() == OnAccept(old(View()), slotKey, name) && id == |old(issued)|
      ensures threw <==> name != EXEC && name !in autoPipelines[slotKey].functions
    {
      hide Called;
      if slotKey !in autoPipelines {
        autoPipelines := autoPipelines[slotKey := Batch(functions, [], [], false, false)];
      }
      var scheduled := autoPipelines[slotKey].scheduled;
      if !scheduled {
        autoPipelines := autoPipelines[slotKey := autoPipelines[slotKey].(scheduled := true)];
        immediates := immediates + multiset{slotKey};
      }
      id := |issued|;
      var batch := autoPipelines[slotKey];
      CalledIs(batch, scheduled, id, name);
      var pipeline;
      pipeline, threw := RunExecutor(batch, id, name);
      autoPipelines := autoPipelines[slotKey := pipeline];
      issued := issued + [Issued(slotKey, CallOf(batch, id, name))];
    }

    /** The callback passed to exec; spreading a result that is missing throws. */
    method ExecCallback(i: nat, outcome: Outcome) returns (threw: bool)
      requires i < |flights|
      modifies this
      ensures View() == OnComplete(old(View()), i, outcome)
      ensures threw <==> !Full(|old(flights[i]).callbacks|, outcome)
    {
      var flight := flights[i];
      ghost var landed := Landed(View(), i, outcome);
      flights := flights[..i] + flights[i + 1..];
      completed := completed + [Completion(flight, outcome)];
      runningAutoPipelines := runningAutoPipelines - {flight.key};
      ghost var before, due := ticks, Ticks(flight.callbacks, outcome);
      for k := 0 to |flight.callbacks|
        invariant k <= |due| && ticks == before + due[..k]
        invariant View() == landed.(ticks := ticks)
      {
        if outcome.Results? && k >= |outcome.results| {
          assert due[..k] == due;
          return true;
        }
        var result := if outcome.Failure? then Rejected(outcome.error) else outcome.results[k];
        ticks := ticks + [Tick(flight.callbacks[k].id, result)];
      }
      assert due[..|flight.callbacks|] == due;
      if flight.key in autoPipelines {
        ExecuteAutoPipeline(flight.key);
      }
      return false;
    }
  }

  // ---------- what holds in every reachable state ----------

  function Ids(calls: seq<Call>): seq<nat> {
    seq(|calls|, i requires 0 <= i < |calls| => calls[i].id)
  }

  /** The calls of a batch that have put a command in its queue. */
  function Queued(calls: seq<Call>): seq<Call> {
    if calls == [] then [] else (if calls[0].queued then [calls[0]] else []) + Queued(calls[1..])
  }

  /** The commands of a batch are its queued calls, in order, and its calls are among the first n accepted, in order. */
  predicate Fits(commands: seq<Call>, callbacks: seq<Call>, n: nat) {
    && commands == Queued(callbacks) && callbacks != []
    && (forall i :: 0 <= i < |callbacks| ==> callbacks[i].id < n)
    && (forall i, j :: 0 <= i < j < |callbacks| ==> callbacks[i].id < callbacks[j].id)
  }

  /** There are no more results than commands. */
  predicate Possible(c: Completion) {
    c.outcome.Results? ==> |c.outcome.results| <= |c.flight.commands|
  }

  ghost predicate Paired(s: State) {
    && (forall k :: k in s.waiting ==> Fits(s.waiting[k].commands, s.waiting[k].callbacks, |s.issued|))
    && (forall f :: f in s.flights ==> Fits(f.commands, f.callbacks, |s.issued|))
    && (forall c :: c in s.completed ==> Fits(c.flight.commands, c.flight.callbacks, |s.issued|) && Possible(c))
  }

  lemma {:induction false} QueuedSnoc(calls: seq<Call>, call: Call)
    ensures Queued(calls + [call]) == Queued(calls) + (if call.queued then [call] else [])
    decreases |calls|
  {
    if calls == [] {
      assert [call][1..] == [];
    } else {
      assert (calls + [call])[1..] == calls[1..] + [call];
      QueuedSnoc(calls[1..], call);
    }
  }

  /** The calls accepted for a key, in order. */
  function Accepted(issued: seq<Issued>, key: Key): seq<Call> {
    if issued == [] then []
    else
      Accepted(issued[..|issued| - 1], key)
      + (if issued[|issued| - 1].key == key then [issued[|issued| - 1].call] else [])
  }

  /** The commands of the batches of a key, in order. */
  function CallsOf(flights: seq<Flight>, key: Key): seq<Call> {
    if flights == [] then []
    else CallsOf(flights[..|flights| - 1], key)
         + (if flights[|flights| - 1].key == key then flights[|flights| - 1].callbacks else [])
  }

  function Flights(completed: seq<Completion>): seq<Flight> {
    seq(|completed|, i requires 0 <= i < |completed| => completed[i].flight)
  }

  function Waiting(s: State, key: Key): seq<Call> {
    if key in s.waiting then s.waiting[key].callbacks else []
  }

  /** The results due: for each completed batch, the call at each index with the result at that index. */
  function Due(completed: seq<Completion>): seq<Tick> {
    if completed == [] then []
    else
      var c := completed[|completed| - 1];
      Due(completed[..|completed| - 1]) + Ticks(c.flight.callbacks, c.outcome)
  }

  predicate FullCompletion(c: Completion) {
    Full(|c.flight.callbacks|, c.outcome)
  }

  ghost predicate Inv(s: State) {
    Scheduled(s) && Accounted(s)
  }

  lemma CallsOfSnoc(flights: seq<Flight>, f: Flight, key: Key)
    ensures CallsOf(flights + [f], key) == CallsOf(flights, key) + (if f.key == key then f.callbacks else [])
  {
    assert (flights + [f])[..|flights|] == flights;
  }

  lemma {:induction false} NoCallsOf(flights: seq<Flight>, key: Key)
    requires forall f :: f in flights ==> f.key != key
    ensures CallsOf(flights, key) == []
    decreases |flights|
  {
    if flights != [] {
      assert flights[|flights| - 1] in flights;
      NoCallsOf(flights[..|flights| - 1], key);
    }
  }

  predicate DistinctKeys(flights: seq<Flight>) {
    forall i, j :: 0 <= i < j < |flights| ==> flights[i].key != flights[j].key
  }

  lemma RemovedHas(flights: seq<Flight>, i: nat, f: Flight)
    requires i < |flights| && DistinctKeys(flights)
    ensures f in Removed(flights, i) <==> f in flights && f.key != flights[i].key
  {
    var rest := Removed(flights, i);
    if f in rest {
      var j :| 0 <= j < |rest| && rest[j] == f;
      assert f == flights[if j < i then j else j + 1];
    }
    if f in flights && f.key != flights[i].key {
      var j :| 0 <= j < |flights| && flights[j] == f;
      assert rest[if j < i then j else j - 1] == f;
    }
  }

  /** Taking one batch out leaves the others, and nothing of its key. */
  lemma RemovedIs(flights: seq<Flight>, i: nat)
    requires i < |flights| && DistinctKeys(flights)
    ensures DistinctKeys(Removed(flights, i))
    ensures forall f :: f in Removed(flights, i) <==> f in flights && f.key != flights[i].key
  {
    assert DistinctKeys(Removed(flights, i));
    hide DistinctKeys, Removed;
    forall f
      ensures f in Removed(flights, i) <==> f in flights && f.key != flights[i].key
    {
      RemovedHas(flights, i, f);
    }
  }

  lemma {:induction false} CallsOfConcat(a: seq<Flight>, b: seq<Flight>, key: Key)
    ensures CallsOf(a + b, key) == CallsOf(a, key) + CallsOf(b, key)
    decreases |b|
  {
    if b == [] {
      assert a + b == a && CallsOf(a, key) + [] == CallsOf(a, key);
    } else {
      var front, last := b[..|b| - 1], b[|b| - 1];
      assert a + b == (a + front) + [last] && b == front + [last];
      CallsOfConcat(a, front, key);
      CallsOfSnoc(a + front, last, key);
      CallsOfSnoc(front, last, key);
    }
  }

  /** Taking one batch out of those executing takes out its commands, which are all of its key. */
  lemma CallsOfWithout(flights: seq<Flight>, i: nat, key: Key)
    requires i < |flights| && DistinctKeys(flights)
    ensures if flights[i].key == key
            then CallsOf(flights, key) == flights[i].callbacks && CallsOf(Removed(flights, i), key) == []
            else CallsOf(Removed(flights, i), key) == CallsOf(flights, key)
  {
    hide CallsOf;
    var before, after := flights[..i], flights[i + 1..];
    assert flights == before + [flights[i]] + after;
    CallsOfConcat(before + [flights[i]], after, key);
    CallsOfSnoc(before, flights[i], key);
    CallsOfConcat(before, after, key);
    if flights[i].key == key {
      forall f | f in before || f in after
        ensures f.key != key
      {
        assert exists j :: 0 <= j < |flights| && j != i && flights[j] == f by {
          if f in before {
            var j :| 0 <= j < |before| && before[j] == f;
            assert flights[j] == f;
          } else {
            var j :| 0 <= j < |after| && after[j] == f;
            assert flights[i + 1 + j] == f;
          }
        }
      }
      NoCallsOf(before, key);
      NoCallsOf(after, key);
    }
  }

  /** The part of the invariant about scheduling. */
  ghost predicate Scheduled(s: State) {
    && Paired(s)
    && DistinctKeys(s.flights)
    && (forall k :: k in s.running <==> exists f :: f in s.flights && f.key == k)
    && (forall k :: k in s.waiting ==> s.waiting[k].scheduled)
  }

  /** The part about what has been accepted, started, completed and settled. */
  ghost predicate Accounted(s: State) {
    && (forall i :: 0 <= i < |s.issued| ==> s.issued[i].call.id == i)
    && s.settled + s.ticks == Due(s.completed)
    && (forall k :: CallsOf(s.started, k) + Waiting(s, k) == Accepted(s.issued, k))
    && (forall k :: CallsOf(Flights(s.completed), k) + CallsOf(s.flights, k) == CallsOf(s.started, k))
  }

  lemma ExecuteSchedules(s: State, key: Key)
    requires Scheduled(s)
    ensures Scheduled(Execute(s, key))
  {
    var t := Execute(s, key);
    if t != s {
      var flight := t.flights[|s.flights|];
      assert forall f :: f in t.flights <==> f in s.flights || f == flight;
    }
  }

  lemma ExecuteAccounts(s: State, key: Key)
    requires Accounted(s)
    ensures Accounted(Execute(s, key))
  {
    hide CallsOf, Accepted, Due;
    var t := Execute(s, key);
    if t != s {
      var flight := t.flights[|s.flights|];
      forall k
        ensures CallsOf(t.started, k) + Waiting(t, k) == Accepted(t.issued, k)
        ensures CallsOf(Flights(t.completed), k) + CallsOf(t.flights, k) == CallsOf(t.started, k)
      {
        CallsOfSnoc(s.started, flight, k);
        CallsOfSnoc(s.flights, flight, k);
        assert CallsOf(s.started, k) + [] == CallsOf(s.started, k);
        assert CallsOf(Flights(s.completed), k) + (CallsOf(s.flights, k) + flight.callbacks)
            == CallsOf(Flights(s.completed), k) + CallsOf(s.flights, k) + flight.callbacks;
      }
    }
  }

  lemma FitsMore(commands: seq<Call>, callbacks: seq<Call>, n: nat, call: Call)
    requires (Fits(commands, callbacks, n) || (callbacks == [] && commands == [])) && call.id == n
    ensures Fits(commands + (if call.queued then [call] else []), callbacks + [call], n + 1)
    ensures callbacks != [] ==> Fits(commands, callbacks, n + 1)
  {
    QueuedSnoc(callbacks, call);
    assert Queued([]) == [];
  }

  lemma AcceptSchedules(s: State, key: Key, name: string)
    requires Scheduled(s)
    ensures Scheduled(OnAccept(s, key, name))
  {
    hide DistinctKeys, Fits;
    var batch := if key in s.waiting then s.waiting[key] else Batch(s.functions, [], [], false, false);
    var t := OnAccept(s, key, name);
    var call := t.issued[|s.issued|].call;
    FitsMore(batch.commands, batch.callbacks, |s.issued|, call);
    assert batch.commands + [] == batch.commands;
    forall commands, callbacks | Fits(commands, callbacks, |s.issued|)
      ensures Fits(commands, callbacks, |t.issued|)
    {
      FitsLater(commands, callbacks, |s.issued|, |t.issued|);
    }
  }

  lemma FitsLater(commands: seq<Call>, callbacks: seq<Call>, n: nat, m: nat)
    requires Fits(commands, callbacks, n) && n <= m
    ensures Fits(commands, callbacks, m)
  {
  }

  lemma AcceptedSnoc(issued: seq<Issued>, i: Issued, key: Key)
    ensures Accepted(issued + [i], key) == Accepted(issued, key) + (if i.key == key then [i.call] else [])
  {
    assert (issued + [i])[..|issued|] == issued;
  }

  lemma AcceptAccounts(s: State, key: Key, name: string)
    requires Accounted(s)
    ensures Accounted(OnAccept(s, key, name))
  {
    hide CallsOf, Accepted, Due;
    var t := OnAccept(s, key, name);
    var call := t.issued[|s.issued|].call;
    forall k
      ensures CallsOf(t.started, k) + Waiting(t, k) == Accepted(t.issued, k)
    {
      AcceptedSnoc(s.issued, Issued(key, call), k);
      if k == key {
        assert CallsOf(s.started, k) + (Waiting(s, k) + [call]) == CallsOf(s.started, k) + Waiting(s, k) + [call];
      } else {
        assert Accepted(s.issued, k) + [] == Accepted(s.issued, k);
      }
    }
  }

  lemma LandedSchedules(s: State, i: nat, outcome: Outcome)
    requires Scheduled(s) && Enabled(s, Complete(i, outcome))
    ensures Scheduled(Landed(s, i, outcome))
  {
    hide Removed, Ticks, Ids, DistinctKeys;
    RemovedIs(s.flights, i);
    var key, t := s.flights[i].key, Landed(s, i, outcome);
    forall k
      ensures k in t.running <==> exists f :: f in t.flights && f.key == k
    {
      if k in s.running && k != key {
        var f :| f in s.flights && f.key == k;
        assert f in t.flights;
      }
    }
  }

  lemma DueSnoc(front: seq<Completion>, last: Completion)
    ensures Due(front + [last]) == Due(front) + Ticks(last.flight.callbacks, last.outcome)
  {
    assert (front + [last])[..|front|] == front;
  }

  lemma LandedAccounts(s: State, i: nat, outcome: Outcome)
    requires Inv(s) && i < |s.flights|
    ensures Accounted(Landed(s, i, outcome))
  {
    hide CallsOf, Accepted, Due, Ticks, Removed, DistinctKeys;
    var flight := s.flights[i];
    var done, t := Completion(flight, outcome), Landed(s, i, outcome);
    DueSnoc(s.completed, done);
    var due := Ticks(flight.callbacks, outcome);
    assert s.settled + (s.ticks + due) == s.settled + s.ticks + due;
    forall k
      ensures CallsOf(Flights(t.completed), k) + CallsOf(t.flights, k) == CallsOf(s.started, k)
    {
      LandedKeeps(s, i, done, k);
    }
  }

  lemma LandedKeeps(s: State, i: nat, done: Completion, k: Key)
    requires i < |s.flights| && DistinctKeys(s.flights) && done.flight == s.flights[i]
    ensures CallsOf(Flights(s.completed + [done]), k) + CallsOf(Removed(s.flights, i), k)
         == CallsOf(Flights(s.completed), k) + CallsOf(s.flights, k)
  {
    hide CallsOf, Removed, DistinctKeys;
    assert Flights(s.completed + [done]) == Flights(s.completed) + [done.flight];
    CallsOfSnoc(Flights(s.completed), done.flight, k);
    CallsOfWithout(s.flights, i, k);
    var a, b := CallsOf(Flights(s.completed), k), CallsOf(s.flights, k);
    assert a + [] == a && a + b + [] == a + b;
  }

  lemma CompleteKeepsInv(s: State, i: nat, outcome: Outcome)
    requires Inv(s) && Enabled(s, Complete(i, outcome))
    ensures Inv(OnComplete(s, i, outcome))
  {
    hide Accounted, Ticks, Execute;
    assert s.flights[i] in s.flights;
    LandedSchedules(s, i, outcome);
    LandedAccounts(s, i, outcome);
    var t := Landed(s, i, outcome);
    ExecuteSchedules(t, s.flights[i].key);
    ExecuteAccounts(t, s.flights[i].key);
  }

  lemma ImmediateKeepsInv(s: State, key: Key)
    requires Inv(s) && Enabled(s, Immediate(key))
    ensures Inv(Execute(s.(immediates := s.immediates - multiset{key}), key))
  {
    hide Execute, DistinctKeys, Accepted, CallsOf, Due, Ids;
    var t := s.(immediates := s.immediates - multiset{key});
    ExecuteSchedules(t, key);
    assert forall k :: Waiting(t, k) == Waiting(s, k);
    ExecuteAccounts(t, key);
  }

  lemma TickKeepsInv(s: State)
    requires Inv(s) && s.ticks != []
    ensures Inv(s.(ticks := s.ticks[1..], settled := s.settled + [s.ticks[0]]))
  {
    hide DistinctKeys, Accepted, CallsOf, Due, Ids;
    var t := s.(ticks := s.ticks[1..], settled := s.settled + [s.ticks[0]]);
    assert s.settled + s.ticks == (s.settled + [s.ticks[0]]) + s.ticks[1..];
    assert forall k :: Waiting(t, k) == Waiting(s, k);
  }

  lemma DefineKeepsInv(s: State, name: string)
    requires Inv(s)
    ensures Inv(s.(functions := s.functions + {name}))
  {
    hide DistinctKeys, Accepted, CallsOf, Due, Ids, Fits;
    var t := s.(functions := s.functions + {name});
    assert forall k :: Waiting(t, k) == Waiting(s, k);
  }

  lemma StepKeepsInv(s: State, e: Event)
    requires Inv(s) && Enabled(s, e)
    ensures Inv(Step(s, e))
  {
    hide Scheduled, Accounted, OnAccept, OnComplete, Execute;
    match e
    case Define(name) =>
      DefineKeepsInv(s, name);
    case Accept(key, name) =>
      AcceptSchedules(s, key, name);
      AcceptAccounts(s, key, name);
    case Immediate(key) => ImmediateKeepsInv(s, key);
    case Complete(i, outcome) => CompleteKeepsInv(s, i, outcome);
    case NextTick => TickKeepsInv(s);
  }

  // ---------- every run ----------

  ghost predicate Reaches(s: State, events: seq<Event>, t: State)
    decreases |events|
  {
    if events == [] then s == t else Enabled(s, events[0]) && Reaches(Step(s, events[0]), events[1..], t)
  }

  lemma {:induction false} ReachesKeepsInv(s: State, events: seq<Event>, t: State)
    requires Inv(s) && Reaches(s, events, t)
    ensures Inv(t)
    decreases |events|
  {
    hide Inv, Step;
    if events != [] {
      StepKeepsInv(s, events[0]);
      ReachesKeepsInv(Step(s, events[0]), events[1..], t);
    }
  }

  /**
   In every reachable state, however long the result lists were: no two executing batches have the same
   key; for each key the calls of the completed, executing and waiting batches are exactly the accepted
   calls, in the order of acceptance; and the results handed out or about to be are those due, each call's
   from the index of its callback.
   */
  lemma OneBatchPerKey(functions: set<string>, events: seq<Event>, s: State)
    requires Reaches(Idle(functions), events, s)
    ensures DistinctKeys(s.flights)
    ensures forall k ::
              CallsOf(Flights(s.completed), k) + CallsOf(s.flights, k) + Waiting(s, k) == Accepted(s.issued, k)
    ensures s.settled + s.ticks == Due(s.completed)
  {
    hide Reaches;
    ReachableInv(functions, events, s);
  }

  // ---------- which result a call gets ----------

  /** How many calls of a batch come before the first one without a command. */
  function Aligned(calls: seq<Call>): (n: nat)
    ensures n <= |calls|
    ensures forall i :: 0 <= i < n ==> calls[i].queued
    ensures n < |calls| ==> !calls[n].queued
  {
    if calls == [] || !calls[0].queued then 0 else 1 + Aligned(calls[1..])
  }

  /** The command at an index is the call's own before the first call without one, and a later call's after it. */
  lemma {:induction false} QueuedAt(calls: seq<Call>, i: nat)
    requires i < |Queued(calls)|
    requires forall i, j :: 0 <= i < j < |calls| ==> calls[i].id < calls[j].id
    ensures |Queued(calls)| <= |calls|
    ensures if i < Aligned(calls) then Queued(calls)[i] == calls[i] else Queued(calls)[i].id > calls[i].id
    ensures exists j :: i <= j < |calls| && Queued(calls)[i] == calls[j]
    decreases |calls|
  {
    QueuedSize(calls);
    var rest := calls[1..];
    if calls[0].queued {
      if i == 0 {
        assert Queued(calls)[0] == calls[0];
      } else {
        QueuedAt(rest, i - 1);
        var j :| i - 1 <= j < |rest| && Queued(rest)[i - 1] == rest[j];
        assert Queued(calls)[i] == calls[j + 1];
      }
    } else {
      QueuedAt(rest, i);
      var j :| i <= j < |rest| && Queued(rest)[i] == rest[j];
      assert Queued(calls)[i] == calls[j + 1];
    }
  }

  lemma {:induction false} QueuedSize(calls: seq<Call>)
    ensures |Queued(calls)| <= |calls|
    ensures |Queued(calls)| == |calls| <==> Aligned(calls) == |calls|
    ensures Aligned(calls) <= |Queued(calls)|
    decreases |calls|
  {
    if calls != [] {
      QueuedSize(calls[1..]);
    }
  }

  /** The call at index i of a batch has been given the error for all, or the result of its own command. */
  predicate GivenOwn(c: Completion, i: nat)
    requires i < |c.flight.callbacks|
  {
    i < Given(|c.flight.callbacks|, c.outcome)
    && (c.outcome.Results? ==> i < |c.flight.commands| && c.flight.commands[i] == c.flight.callbacks[i])
  }

  /**
   In every reachable state, a call of a completed batch has been given the error for all or the result of its
   own command, if and only if there is an error for all, or there are results up to its index and every call
   before it and it itself have put in a command. Otherwise it is given the result of a later call, or none.
   */
  lemma OwnResultIff(functions: set<string>, events: seq<Event>, s: State, c: Completion, i: nat)
    requires Reaches(Idle(functions), events, s) && c in s.completed && i < |c.flight.callbacks|
    ensures GivenOwn(c, i)
       <==> c.outcome.Failure? || (i < |c.outcome.results| && i < Aligned(c.flight.callbacks))
    ensures c.outcome.Results? && Aligned(c.flight.callbacks) <= i < |c.outcome.results| ==>
              i < |c.flight.commands| && c.flight.commands[i].id > c.flight.callbacks[i].id
  {
    hide Reaches;
    ReachableInv(functions, events, s);
    assert Fits(c.flight.commands, c.flight.callbacks, |s.issued|);
    QueuedSize(c.flight.callbacks);
    if c.outcome.Results? && i < |c.flight.commands| {
      QueuedAt(c.flight.callbacks, i);
    }
  }

  /**
   A batch gives every call something if and only if it fails as a whole, or each call has put in a command and
   each command has a result.
   */
  lemma FullIff(functions: set<string>, events: seq<Event>, s: State, c: Completion)
    requires Reaches(Idle(functions), events, s) && c in s.completed
    ensures FullCompletion(c)
       <==> c.outcome.Failure?
            || (|c.outcome.results| == |c.flight.commands| && Aligned(c.flight.callbacks) == |c.flight.callbacks|)
  {
    hide Reaches;
    ReachableInv(functions, events, s);
    assert Fits(c.flight.commands, c.flight.callbacks, |s.issued|);
    QueuedSize(c.flight.callbacks);
  }

  // ---------- what will start a waiting batch ----------

  /** A deaf batch of the key runs: its end is never reported. */
  predicate Deafened(s: State, key: Key) {
    exists f :: f in s.flights && f.key == key && f.deaf
  }

  /** A waiting batch that nothing will start: its key is taken for good, or no immediate is scheduled for it. */
  predicate Stuck(s: State, key: Key) {
    key in s.waiting && if key in s.running then Deafened(s, key) else key !in s.immediates
  }

  ghost predicate Promised(s: State) {
    forall k :: !Stuck(s, k)
  }

  predicate Starts(s: State, t: State, key: Key)
    requires key in s.waiting
  {
    t.started == s.started + [FlightOf(key, s.waiting[key])] && key !in t.waiting
  }

  /**
   A waiting batch is started by its immediate when no batch of its key runs, and otherwise by the end of
   the one that runs if and only if that gives every callback something; the end of a deaf one never comes.
   */
  lemma WaitingBatchStarts(s: State, key: Key)
    requires Inv(s) && key in s.waiting
    ensures key !in s.running && key in s.immediates ==> Starts(s, Step(s, Immediate(key)), key)
    ensures key in s.running ==>
              exists i :: 0 <= i < |s.flights| && s.flights[i].key == key && EndStartsIffFull(s, i, key)
  {
    if key in s.running {
      var f :| f in s.flights && f.key == key;
      var i :| 0 <= i < |s.flights| && s.flights[i] == f;
      assert EndStartsIffFull(s, i, key);
    }
  }

  ghost predicate EndStartsIffFull(s: State, i: nat, key: Key)
    requires i < |s.flights| && key in s.waiting
  {
    forall outcome :: Enabled(s, Complete(i, outcome)) ==>
      (Starts(s, Step(s, Complete(i, outcome)), key) <==> Full(|s.flights[i].callbacks|, outcome))
  }

  /**
   A completion that leaves a waiting batch with nothing to start it, or a call that comes while a deaf batch of
   its key runs.
   */
  predicate Strands(s: State, e: Event)
    requires Enabled(s, e)
  {
    match e
    case Complete(i, outcome) =>
      !Full(|s.flights[i].callbacks|, outcome) && s.flights[i].key in s.waiting && s.flights[i].key !in s.immediates
    case Accept(key, _) => Deafened(s, key)
    case _ => false
  }

  /**
   The end of a batch keeps the promise to the waiting ones if and only if it gives every callback something,
   or none of its key waits, or an immediate is still scheduled; a call keeps it if and only if no deaf batch of
   its key runs; other events always keep it.
   */
  lemma StepKeepsPromiseIff(s: State, e: Event)
    requires Inv(s) && Promised(s) && Enabled(s, e)
    ensures Promised(Step(s, e)) <==> !Strands(s, e)
  {
    hide Accounted, DistinctKeys, Ids, Ticks, Removed, Fits, Strands;
    StrandsIs(s, e);
    match e
    case Define(_) =>
      SamePromise(s, Step(s, e));
    case Accept(key, name) =>
      AcceptPromiseIff(s, key, name);
    case Immediate(key) =>
      ImmediatePromise(s, key);
    case Complete(i, outcome) =>
      CompletePromiseIff(s, i, outcome);
    case NextTick =>
      SamePromise(s, Step(s, e));
  }

  lemma StrandsIs(s: State, e: Event)
    requires Enabled(s, e)
    ensures e.Accept? ==> (Strands(s, e) <==> Deafened(s, e.key))
    ensures !e.Accept? && !e.Complete? ==> !Strands(s, e)
  {
  }

  lemma SamePromise(s: State, t: State)
    requires t == s.(functions := t.functions, ticks := t.ticks, settled := t.settled)
    ensures Promised(t) <==> Promised(s)
  {
    forall k
      ensures Stuck(t, k) <==> Stuck(s, k)
    {
    }
  }

  lemma AcceptPromiseIff(s: State, key: Key, name: string)
    requires Inv(s) && Promised(s)
    ensures Promised(OnAccept(s, key, name)) <==> !Deafened(s, key)
  {
    hide Accounted, DistinctKeys, Fits;
    var t := OnAccept(s, key, name);
    assert forall k :: Deafened(t, k) == Deafened(s, k);
    if Deafened(s, key) {
      assert Stuck(t, key);
    } else {
      forall k
        ensures !Stuck(t, k)
      {
        assert !Stuck(s, k);
      }
    }
  }

  lemma ImmediatePromise(s: State, key: Key)
    requires Inv(s) && Promised(s) && key in s.immediates
    ensures Promised(Step(s, Immediate(key)))
  {
    hide Accounted, DistinctKeys, Fits;
    var t := Step(s, Immediate(key));
    forall k
      ensures !Stuck(t, k)
    {
      assert !Stuck(s, k);
      if Deafened(t, k) && k != key {
        var f :| f in t.flights && f.key == k && f.deaf;
        assert f in s.flights;
      }
      if Deafened(t, k) && k == key && key in s.running {
        assert t.flights == s.flights;
      }
    }
  }

  lemma CompletePromiseIff(s: State, i: nat, outcome: Outcome)
    requires Inv(s) && Promised(s) && Enabled(s, Complete(i, outcome))
    ensures Promised(OnComplete(s, i, outcome)) <==> !Strands(s, Complete(i, outcome))
  {
    hide Accounted, DistinctKeys, Ids, Ticks, Removed, Fits;
    var key, t := s.flights[i].key, OnComplete(s, i, outcome);
    assert s.flights[i] in s.flights && key in s.running;
    RemovedIs(s.flights, i);
    if Strands(s, Complete(i, outcome)) {
      assert Stuck(t, key);
    } else {
      forall k
        ensures !Stuck(t, k)
      {
        assert !Stuck(s, k);
        if k != key && Deafened(t, k) {
          var f :| f in t.flights && f.key == k && f.deaf;
          assert f in s.flights;
        }
      }
    }
  }

  /** A batch that is stuck stays stuck: later calls join it, but it is never started. */
  lemma StepKeepsStuck(s: State, e: Event, key: Key)
    requires Inv(s) && Enabled(s, e) && Stuck(s, key)
    ensures Stuck(Step(s, e), key) && s.waiting[key].callbacks <= Step(s, e).waiting[key].callbacks
  {
    hide Accounted, Ids, Ticks, Removed, Fits;
    var t := Step(s, e);
    if e.Complete? {
      assert s.flights[e.index] in s.flights;
      RemovedIs(s.flights, e.index);
      if key in s.running {
        var f :| f in s.flights && f.key == key && f.deaf;
        DeafIsOther(s, e.index, f);
        assert f in t.flights;
      }
    } else if key in s.running {
      var f :| f in s.flights && f.key == key && f.deaf;
      assert f in t.flights;
    }
  }

  /** A deaf batch has another key than one that comes back. */
  lemma DeafIsOther(s: State, i: nat, f: Flight)
    requires DistinctKeys(s.flights) && i < |s.flights| && !s.flights[i].deaf && f in s.flights && f.deaf
    ensures f.key != s.flights[i].key
  {
    var j :| 0 <= j < |s.flights| && s.flights[j] == f;
    if j < i {
      assert s.flights[j].key != s.flights[i].key;
    } else {
      assert s.flights[i].key != s.flights[j].key;
    }
  }

  lemma {:induction false} StuckForever(s: State, events: seq<Event>, t: State, key: Key)
    requires Inv(s) && Stuck(s, key) && Reaches(s, events, t)
    ensures Stuck(t, key) && s.waiting[key].callbacks <= t.waiting[key].callbacks
    decreases |events|
  {
    hide Inv, Step;
    if events != [] {
      StepKeepsInv(s, events[0]);
      StepKeepsStuck(s, events[0], key);
      StuckForever(Step(s, events[0]), events[1..], t, key);
    }
  }

  /** No event of a run strands a batch. */
  ghost predicate NoneStrands(s: State, events: seq<Event>)
    decreases |events|
  {
    events == []
    || (Enabled(s, events[0]) && !Strands(s, events[0]) && NoneStrands(Step(s, events[0]), events[1..]))
  }

  lemma {:induction false} RunKeepsPromiseIff(s: State, events: seq<Event>, t: State)
    requires Inv(s) && Promised(s) && Reaches(s, events, t)
    ensures Promised(t) <==> NoneStrands(s, events)
    decreases |events|
  {
    hide Inv, Step, Strands, Promised;
    if events != [] {
      var u := Step(s, events[0]);
      StepKeepsInv(s, events[0]);
      StepKeepsPromiseIff(s, events[0]);
      if Promised(u) {
        RunKeepsPromiseIff(u, events[1..], t);
      } else {
        var key := StuckKey(u);
        StuckForever(u, events[1..], t, key);
        StuckBreaks(t, key);
      }
    }
  }

  lemma StuckKey(s: State) returns (key: Key)
    requires !Promised(s)
    ensures Stuck(s, key)
  {
    key :| Stuck(s, key);
  }

  lemma StuckBreaks(s: State, key: Key)
    requires Stuck(s, key)
    ensures !Promised(s)
  {
  }

  /**
   In a reachable state every waiting batch has a scheduled immediate or a running batch of its key that can
   start it, if and only if no completion on the way came back short while a batch of its key waited without an
   immediate, and no call came while a deaf batch of its key ran.
   */
  lemma PromisesKeptIff(functions: set<string>, events: seq<Event>, s: State)
    requires Reaches(Idle(functions), events, s)
    ensures Promised(s) <==> NoneStrands(Idle(functions), events)
  {
    hide Reaches;
    IdleInv(functions);
    assert Promised(Idle(functions));
    RunKeepsPromiseIff(Idle(functions), events, s);
  }

  // ---------- exactly once ----------

  function TickIds(ticks: seq<Tick>): seq<nat> {
    seq(|ticks|, i requires 0 <= i < |ticks| => ticks[i].id)
  }

  /** The calls of a batch that were given nothing when it came back. */
  function MissedBy(c: Completion): seq<nat> {
    Ids(c.flight.callbacks)[Given(|c.flight.callbacks|, c.outcome)..]
  }

  function Missed(completed: seq<Completion>): seq<nat> {
    if completed == [] then []
    else Missed(completed[..|completed| - 1]) + MissedBy(completed[|completed| - 1])
  }

  /** How often a call occurs in a list. */
  function Times(ids: seq<nat>, id: nat): nat {
    if ids == [] then 0 else (if ids[0] == id then 1 else 0) + Times(ids[1..], id)
  }

  lemma {:induction false} TimesAppend(a: seq<nat>, b: seq<nat>, id: nat)
    ensures Times(a + b, id) == Times(a, id) + Times(b, id)
    decreases |a|
  {
    if a == [] {
      assert a + b == b;
    } else {
      assert (a + b)[1..] == a[1..] + b;
      TimesAppend(a[1..], b, id);
    }
  }

  lemma {:induction false} TimesZero(ids: seq<nat>, id: nat)
    ensures Times(ids, id) == 0 <==> id !in ids
  {
    if ids != [] {
      TimesZero(ids[1..], id);
    }
  }

  lemma TimesOne(a: seq<nat>, x: nat, id: nat)
    ensures Times(a + [x], id) == Times(a, id) + (if x == id then 1 else 0)
  {
    TimesAppend(a, [x], id);
    assert [x][1..] == [];
  }

  lemma {:induction false} AcceptedIds(issued: seq<Issued>, key: Key, id: nat)
    requires forall i :: 0 <= i < |issued| ==> issued[i].call.id == i
    ensures Times(Ids(Accepted(issued, key)), id) == if id < |issued| && issued[id].key == key then 1 else 0
    decreases |issued|
  {
    if issued != [] {
      var front, last := issued[..|issued| - 1], issued[|issued| - 1];
      AcceptedIds(front, key, id);
      if last.key == key {
        assert Ids(Accepted(issued, key)) == Ids(Accepted(front, key)) + [last.call.id];
        TimesOne(Ids(Accepted(front, key)), last.call.id, id);
      } else {
        assert Accepted(issued, key) == Accepted(front, key) + [] == Accepted(front, key);
      }
    }
  }

  lemma MissedSnoc(front: seq<Completion>, last: Completion)
    ensures Missed(front + [last]) == Missed(front) + MissedBy(last)
  {
    assert (front + [last])[..|front|] == front;
  }

  lemma DueIdsSnoc(front: seq<Completion>, last: Completion)
    ensures TickIds(Due(front + [last]))
         == TickIds(Due(front)) + Ids(last.flight.callbacks)[..Given(|last.flight.callbacks|, last.outcome)]
  {
    hide Due;
    DueSnoc(front, last);
    var ids := Ids(last.flight.callbacks);
    assert TickIds(Ticks(last.flight.callbacks, last.outcome)) == ids[..Given(|ids|, last.outcome)];
  }

  /** How often a batch's calls are due, and how often missed, is how often they are in it. */
  lemma GivenOrMissed(c: Completion, id: nat)
    ensures var ids := Ids(c.flight.callbacks);
            Times(ids[..Given(|ids|, c.outcome)], id) + Times(MissedBy(c), id) == Times(ids, id)
  {
    var ids := Ids(c.flight.callbacks);
    var n := Given(|ids|, c.outcome);
    assert ids == ids[..n] + ids[n..];
    TimesAppend(ids[..n], ids[n..], id);
  }

  /** The results due for one call, and the misses, all come from batches of its key. */
  lemma {:induction false} DueIds(completed: seq<Completion>, key: Key, id: nat)
    requires forall c :: c in completed && c.flight.key != key ==> id !in Ids(c.flight.callbacks)
    ensures Times(TickIds(Due(completed)), id) + Times(Missed(completed), id)
         == Times(Ids(CallsOf(Flights(completed), key)), id)
    decreases |completed|
  {
    hide Due, Ids, TickIds, Times, Missed, MissedBy;
    if completed == [] {
      NothingDue(key, id);
    } else {
      var front, last := completed[..|completed| - 1], completed[|completed| - 1];
      assert completed == front + [last] && last in completed;
      DueIds(front, key, id);
      OneMoreDue(front, last, key, id);
    }
  }

  lemma OneMoreDue(front: seq<Completion>, last: Completion, key: Key, id: nat)
    requires last.flight.key != key ==> id !in Ids(last.flight.callbacks)
    ensures Times(TickIds(Due(front + [last])), id) + Times(Missed(front + [last]), id)
         == Times(TickIds(Due(front)), id) + Times(Missed(front), id)
            + (if last.flight.key == key then Times(Ids(last.flight.callbacks), id) else 0)
    ensures Times(Ids(CallsOf(Flights(front + [last]), key)), id)
         == Times(Ids(CallsOf(Flights(front), key)), id)
            + (if last.flight.key == key then Times(Ids(last.flight.callbacks), id) else 0)
  {
    hide Due, TickIds, Times, Missed, MissedBy, CallsOf;
    var ids := Ids(last.flight.callbacks);
    var n := Given(|ids|, last.outcome);
    DueIdsSnoc(front, last);
    MissedSnoc(front, last);
    TimesAppend(TickIds(Due(front)), ids[..n], id);
    TimesAppend(Missed(front), MissedBy(last), id);
    GivenOrMissed(last, id);
    TimesZero(ids, id);
    assert Flights(front + [last]) == Flights(front) + [last.flight];
    CallsIdsSnoc(Flights(front), last.flight, key, id);
  }

  lemma NothingDue(key: Key, id: nat)
    ensures Times(TickIds(Due([])), id) == Times(Missed([]), id) == Times(Ids(CallsOf(Flights([]), key)), id) == 0
  {
    assert TickIds(Due([])) == [] && Ids(CallsOf(Flights([]), key)) == [];
  }

  lemma CallsIdsSnoc(flights: seq<Flight>, f: Flight, key: Key, id: nat)
    ensures Times(Ids(CallsOf(flights + [f], key)), id)
         == Times(Ids(CallsOf(flights, key)), id) + (if f.key == key then Times(Ids(f.callbacks), id) else 0)
  {
    CallsOfSnoc(flights, f, key);
    if f.key == key {
      assert Ids(CallsOf(flights, key) + f.callbacks) == Ids(CallsOf(flights, key)) + Ids(f.callbacks);
      TimesAppend(Ids(CallsOf(flights, key)), Ids(f.callbacks), id);
    } else {
      assert CallsOf(flights, key) + [] == CallsOf(flights, key);
    }
  }

  lemma {:induction false} CallsIn(flights: seq<Flight>, f: Flight, id: nat)
    requires f in flights
    ensures Times(Ids(f.callbacks), id) <= Times(Ids(CallsOf(flights, f.key)), id)
    decreases |flights|
  {
    hide Ids, Times;
    var front, last := flights[..|flights| - 1], flights[|flights| - 1];
    assert flights == front + [last];
    CallsIdsSnoc(front, last, f.key, id);
    if f != last {
      CallsIn(front, f, id);
    }
  }

  lemma IdsSplit(a: seq<Call>, b: seq<Call>, whole: seq<Call>, id: nat)
    requires a + b == whole
    ensures Times(Ids(whole), id) == Times(Ids(a), id) + Times(Ids(b), id)
  {
    assert Ids(whole) == Ids(a) + Ids(b);
    TimesAppend(Ids(a), Ids(b), id);
  }

  /** What a key's completed batches hold of a call: at most the one acceptance, and only under its own key. */
  lemma CompletedOnce(s: State, key: Key, id: nat)
    requires Inv(s) && id < |s.issued|
    ensures Times(Ids(CallsOf(Flights(s.completed), key)), id) <= if s.issued[id].key == key then 1 else 0
    ensures s.waiting == map[] ==>
              Times(Ids(CallsOf(Flights(s.completed), key)), id) + Times(Ids(CallsOf(s.flights, key)), id)
              == if s.issued[id].key == key then 1 else 0
  {
    hide Ids, Times;
    var done, left := CallsOf(Flights(s.completed), key), CallsOf(s.flights, key) + Waiting(s, key);
    AcceptedIds(s.issued, key, id);
    assert done + left == CallsOf(s.started, key) + Waiting(s, key);
    IdsSplit(done, left, Accepted(s.issued, key), id);
    IdsSplit(CallsOf(s.flights, key), Waiting(s, key), left, id);
    if s.waiting == map[] {
      TimesNone(id);
    }
  }

  lemma TimesNone(id: nat)
    ensures Times(Ids([]), id) == 0
  {
  }

  /** A call of a batch that has not come back. */
  predicate InFlight(s: State, id: nat) {
    exists f :: f in s.flights && id in Ids(f.callbacks)
  }

  lemma {:induction false} NotInCalls(flights: seq<Flight>, key: Key, id: nat)
    requires forall f :: f in flights ==> id !in Ids(f.callbacks)
    ensures Times(Ids(CallsOf(flights, key)), id) == 0
    decreases |flights|
  {
    hide Ids, Times;
    if flights == [] {
      TimesNone(id);
    } else {
      var front, last := flights[..|flights| - 1], flights[|flights| - 1];
      assert flights == front + [last] && last in flights;
      NotInCalls(front, key, id);
      CallsIdsSnoc(front, last, key, id);
      TimesZero(Ids(last.callbacks), id);
    }
  }

  /** A call is in flight if and only if its key's batches that have not come back hold it. */
  lemma InFlightIff(s: State, id: nat)
    requires Inv(s) && id < |s.issued| && s.waiting == map[]
    ensures InFlight(s, id) <==> Times(Ids(CallsOf(s.flights, s.issued[id].key)), id) > 0
  {
    hide Ids, Times, CallsOf;
    if InFlight(s, id) {
      var f :| f in s.flights && id in Ids(f.callbacks);
      CallsIn(s.flights, f, id);
      TimesZero(Ids(f.callbacks), id);
      CompletedOnce(s, f.key, id);
    } else {
      NotInCalls(s.flights, s.issued[id].key, id);
    }
  }

  lemma OtherKeysLack(s: State, id: nat)
    requires Inv(s) && id < |s.issued|
    ensures forall c :: c in s.completed && c.flight.key != s.issued[id].key ==> id !in Ids(c.flight.callbacks)
  {
    hide Ids, Times;
    forall c | c in s.completed && c.flight.key != s.issued[id].key
      ensures id !in Ids(c.flight.callbacks)
    {
      var i :| 0 <= i < |s.completed| && s.completed[i] == c;
      assert Flights(s.completed)[i] == c.flight;
      CallsIn(Flights(s.completed), c.flight, id);
      CompletedOnce(s, c.flight.key, id);
      TimesZero(Ids(c.flight.callbacks), id);
    }
  }

  /** For one call: what is due and what was missed is what its key's completed batches hold of it. */
  lemma DueOrMissed(s: State, id: nat)
    requires Inv(s) && id < |s.issued|
    ensures Times(TickIds(s.settled + s.ticks), id) + Times(Missed(s.completed), id) <= 1
    ensures s.waiting == map[] ==>
              Times(TickIds(s.settled + s.ticks), id) + Times(Missed(s.completed), id)
              == if InFlight(s, id) then 0 else 1
  {
    hide Ids, Times, TickIds, Due, Missed, CallsOf;
    OtherKeysLack(s, id);
    DueIds(s.completed, s.issued[id].key, id);
    CompletedOnce(s, s.issued[id].key, id);
    if s.waiting == map[] {
      InFlightIff(s, id);
    }
  }

  /**
   In every reachable state no call's callback has been run more than once. When nothing waits and no callback is
   about to run, it has been run exactly once if and only if the call's batch has come back with something at
   its index, and otherwise not at all.
   */
  lemma EachCallSettlesOnce(functions: set<string>, events: seq<Event>, s: State, id: nat)
    requires Reaches(Idle(functions), events, s) && id < |s.issued|
    ensures Times(TickIds(s.settled + s.ticks), id) <= 1
    ensures s.waiting == map[] && s.ticks == [] ==>
              Times(TickIds(s.settled), id) == if id in Missed(s.completed) || InFlight(s, id) then 0 else 1
  {
    hide Ids, Times, TickIds, Due, Reaches, Missed;
    ReachableInv(functions, events, s);
    DueOrMissed(s, id);
    TimesZero(Missed(s.completed), id);
    if s.ticks == [] {
      assert s.settled + s.ticks == s.settled;
    }
  }

  lemma {:induction false} MissedIffShort(completed: seq<Completion>)
    ensures Missed(completed) == [] <==> forall c :: c in completed ==> FullCompletion(c)
    decreases |completed|
  {
    hide Ids;
    if completed != [] {
      var front, last := completed[..|completed| - 1], completed[|completed| - 1];
      MissedIffShort(front);
      MissedByIffShort(last);
      assert last in completed;
      assert forall c :: c in completed <==> c in front || c == last;
    }
  }

  lemma MissedByIffShort(c: Completion)
    ensures MissedBy(c) == [] <==> FullCompletion(c)
  {
  }

  lemma {:induction false} MissedIn(completed: seq<Completion>, id: nat)
    requires id in Missed(completed)
    ensures exists c :: c in completed && id in Ids(c.flight.callbacks)
    decreases |completed|
  {
    var front, last := completed[..|completed| - 1], completed[|completed| - 1];
    assert last in completed;
    if id in Missed(front) {
      MissedIn(front, id);
      var c :| c in front && id in Ids(c.flight.callbacks);
      assert c in completed;
    } else {
      assert id in MissedBy(last);
      assert id in Ids(last.flight.callbacks);
    }
  }

  /** Only accepted calls can be missed. */
  lemma MissedIsAccepted(s: State, id: nat)
    requires Inv(s) && id in Missed(s.completed)
    ensures id < |s.issued|
  {
    hide Accounted, DistinctKeys;
    MissedIn(s.completed, id);
    var c :| c in s.completed && id in Ids(c.flight.callbacks);
    assert Fits(c.flight.commands, c.flight.callbacks, |s.issued|);
  }

  /** Nothing more happens by itself: what still runs is deaf. */
  predicate AtRest(s: State) {
    s.waiting == map[] && s.ticks == [] && forall f :: f in s.flights ==> f.deaf
  }

  /**
   At rest, the callback of every accepted call has been run exactly once if and only if every batch has come back
   full; by FullIff these are the batches that fail as a whole, or whose calls have all put in a command and
   whose commands all have a result.
   */
  lemma AllCallsSettleIff(functions: set<string>, events: seq<Event>, s: State)
    requires Reaches(Idle(functions), events, s) && AtRest(s)
    ensures (forall id :: 0 <= id < |s.issued| ==> Times(TickIds(s.settled), id) == 1)
       <==> s.flights == [] && forall c :: c in s.completed ==> FullCompletion(c)
  {
    hide Ids, Times, TickIds, Due, Reaches, Missed, Inv, InFlight;
    ReachableInv(functions, events, s);
    MissedIffShort(s.completed);
    forall id | 0 <= id < |s.issued|
      ensures Times(TickIds(s.settled), id) == if id in Missed(s.completed) || InFlight(s, id) then 0 else 1
    {
      EachCallSettlesOnce(functions, events, s, id);
    }
    if Missed(s.completed) != [] {
      var id := Missed(s.completed)[0];
      MissedIsAccepted(s, id);
      assert Times(TickIds(s.settled), id) == 0;
    }
    if s.flights != [] {
      var id := FlownCall(s);
      assert Times(TickIds(s.settled), id) == 0;
    } else {
      NothingFlies(s);
    }
  }

  lemma FlownCall(s: State) returns (id: nat)
    requires Inv(s) && s.flights != []
    ensures id < |s.issued| && InFlight(s, id)
  {
    var f := s.flights[0];
    assert f in s.flights && Fits(f.commands, f.callbacks, |s.issued|);
    id := f.callbacks[0].id;
    assert Ids(f.callbacks)[0] == id;
  }

  lemma NothingFlies(s: State)
    requires s.flights == []
    ensures forall id :: !InFlight(s, id)
  {
  }

  lemma ReachableInv(functions: set<string>, events: seq<Event>, s: State)
    requires Reaches(Idle(functions), events, s)
    ensures Inv(s)
  {
    hide Reaches;
    IdleInv(functions);
    ReachesKeepsInv(Idle(functions), events, s);
  }

  lemma IdleInv(functions: set<string>)
    ensures Inv(Idle(functions))
  {
  }

  /** The first call of a batch. */
  lemma OpensBatch(s: State, key: Key, name: string)
    requires s.waiting == map[] && name in s.functions && name != EXEC
    ensures var call := Call(|s.issued|, name, true);
            OnAccept(s, key, name)
            == s.(waiting := map[key := Batch(s.functions, [call], [call], true, false)],
                  immediates := s.immediates + multiset{key}, issued := s.issued + [Issued(key, call)])
  {
    var call := Call(|s.issued|, name, true);
    assert Called(Batch(s.functions, [], [], false, false), |s.issued|, name)
        == Batch(s.functions, [call], [call], true, false);
    assert s.waiting[key := Batch(s.functions, [call], [call], true, false)]
        == map[key := Batch(s.functions, [call], [call], true, false)];
  }

  /** The calls and completions that leave the second batch of a key with nothing to start it. */
  function StuckRun(key: Key): seq<Event> {
    [Accept(key, "get"), Immediate(key), Accept(key, "get"), Immediate(key), Complete(0, Results([]))]
  }

  /** A batch of one call that comes back without results strands the batch that waits behind it. */
  lemma StuckExample(key: Key) returns (s: State)
    ensures Reaches(Idle({"get"}), StuckRun(key), s) && Stuck(s, key)
    ensures s.waiting[key].callbacks == [Call(1, "get", true)]
  {
    var first, second := Call(0, "get", true), Call(1, "get", true);
    var s0 := Idle({"get"});
    var s1 := Step(s0, Accept(key, "get"));
    OpensBatch(s0, key, "get");
    var s2 := Step(s1, Immediate(key));
    assert s2.waiting == map[] && s2.flights == [Flight(key, [first], [first], false)] && s2.immediates == multiset{};
    var s3 := Step(s2, Accept(key, "get"));
    OpensBatch(s2, key, "get");
    assert s3.immediates == multiset{key};
    var s4 := Step(s3, Immediate(key));
    assert s4 == s3.(immediates := multiset{});
    s := Step(s4, Complete(0, Results([])));
    hide Step;
    var events := StuckRun(key);
    assert Reaches(s, [], s);
    assert Reaches(s4, events[4..], s) by {
      assert events[4..][1..] == [];
    }
    assert Reaches(s3, events[3..], s) by {
      assert events[3..][1..] == events[4..];
    }
    assert Reaches(s2, events[2..], s) by {
      assert events[2..][1..] == events[3..];
    }
    assert Reaches(s1, events[1..], s) by {
      assert events[1..][1..] == events[2..];
    }
  }

  /** A function is defined while a batch waits whose pipeline does not have it. */
  function MisalignedRun(key: Key): seq<Event> {
    [Accept(key, "get"), Define("foo"), Accept(key, "foo"), Accept(key, "get"), Accept(key, "get"), Immediate(key),
     Complete(0, THREE)]
  }

  const THREE := Results([Replied("a"), Replied("b"), Replied("c")])
  const FOUR_CALLS := [Call(0, "get", true), Call(1, "foo", false), Call(2, "get", true), Call(3, "get", true)]
  const THREE_COMMANDS := [Call(0, "get", true), Call(2, "get", true), Call(3, "get", true)]

  /** One more call of a batch that is scheduled. */
  lemma JoinsBatch(s: State, key: Key, name: string, batch: Batch)
    requires s.waiting == map[key := batch] && batch.scheduled
    ensures OnAccept(s, key, name)
         == s.(waiting := map[key := Called(batch, |s.issued|, name)],
               issued := s.issued + [Issued(key, CallOf(batch, |s.issued|, name))])
  {
    assert s.waiting[key := Called(batch, |s.issued|, name)] == map[key := Called(batch, |s.issued|, name)];
  }

  lemma CalledThrice(batch: Batch)
    requires batch == Batch({"get"}, THREE_COMMANDS[..1], FOUR_CALLS[..1], true, false)
    ensures var b3 := Called(batch, 1, "foo");
            && b3.scheduled && Called(b3, 2, "get").scheduled
            && Called(Called(b3, 2, "get"), 3, "get") == Batch({"get"}, THREE_COMMANDS, FOUR_CALLS, true, false)
  {
  }

  lemma {:induction false} ReachesThen(s: State, a: seq<Event>, t: State, b: seq<Event>, u: State)
    requires Reaches(s, a, t) && Reaches(t, b, u)
    ensures Reaches(s, a + b, u)
    decreases |a|
  {
    hide Step, Enabled;
    if a == [] {
      assert a + b == b;
    } else {
      assert (a + b)[0] == a[0] && (a + b)[1..] == a[1..] + b;
      ReachesThen(Step(s, a[0]), a[1..], t, b, u);
    }
  }

  lemma OneStep(s: State, e: Event)
    requires Enabled(s, e)
    ensures Reaches(s, [e], Step(s, e))
  {
    hide Step;
    assert [e][1..] == [] && Reaches(Step(s, e), [], Step(s, e));
  }

  lemma MisalignedStart(key: Key) returns (s: State)
    ensures Reaches(Idle({"get"}), [Accept(key, "get"), Define("foo")], s)
    ensures s == State({"get", "foo"},
                       map[key := Batch({"get"}, THREE_COMMANDS[..1], FOUR_CALLS[..1], true, false)], {}, multiset{key},
                       [], [], [], [Issued(key, FOUR_CALLS[0])], [], [])
  {
    var idle, first, second := Idle({"get"}), Accept(key, "get"), Define("foo");
    OpensBatch(idle, key, "get");
    var begun := Step(idle, first);
    s := Step(begun, second);
    OneStep(idle, first);
    OneStep(begun, second);
    ReachesThen(idle, [first], begun, [second], s);
    assert [first] + [second] == [first, second];
    assert [FOUR_CALLS[0]] == THREE_COMMANDS[..1] == FOUR_CALLS[..1];
    assert {"get"} + {"foo"} == {"get", "foo"};
  }

  lemma MisalignedBatch(key: Key) returns (s: State)
    ensures Reaches(Idle({"get"}), MisalignedRun(key)[..5], s)
    ensures s.waiting == map[key := Batch({"get"}, THREE_COMMANDS, FOUR_CALLS, true, false)]
    ensures s.running == {} && key in s.immediates && s.flights == s.started == [] && s.completed == []
    ensures s.ticks == s.settled == [] && |s.issued| == 4
  {
    var s2 := MisalignedStart(key);
    hide OnAccept, Called, Reaches;
    var b1 := s2.waiting[key];
    CalledThrice(b1);
    var foo, get := Accept(key, "foo"), Accept(key, "get");
    JoinsBatch(s2, key, "foo", b1);
    var s3 := Step(s2, foo);
    var b3 := Called(b1, 1, "foo");
    JoinsBatch(s3, key, "get", b3);
    var s4 := Step(s3, get);
    JoinsBatch(s4, key, "get", Called(b3, 2, "get"));
    s := Step(s4, get);
    OneStep(s2, foo);
    OneStep(s3, get);
    OneStep(s4, get);
    ReachesThen(s2, [foo], s3, [get], s4);
    ReachesThen(s2, [foo] + [get], s4, [get], s);
    var first := [Accept(key, "get"), Define("foo")];
    ReachesThen(Idle({"get"}), first, s2, [foo] + [get] + [get], s);
    assert first + ([foo] + [get] + [get]) == MisalignedRun(key)[..5];
  }

  /** The third call is then given the reply of the fourth, and the fourth none. */
  lemma MisalignedExample(key: Key) returns (s: State)
    ensures Reaches(Idle({"get"}), MisalignedRun(key), s) && |s.issued| == 4
    ensures s.completed == [Completion(Flight(key, THREE_COMMANDS, FOUR_CALLS, false), THREE)]
    ensures s.ticks == [Tick(0, Replied("a")), Tick(1, Replied("b")), Tick(2, Replied("c"))]
  {
    var waits := MisalignedBatch(key);
    var first, last := MisalignedRun(key)[..5], [Immediate(key), Complete(0, THREE)];
    var started := Step(waits, Immediate(key));
    var flight := Flight(key, THREE_COMMANDS, FOUR_CALLS, false);
    assert started.flights == [flight];
    s := Step(started, Complete(0, THREE));
    assert s.completed == [] + [Completion(flight, THREE)];
    assert Given(4, THREE) == 3;
    assert s.ticks == Ticks(FOUR_CALLS, THREE);
    assert last[1..] == [Complete(0, THREE)] && last[1..][1..] == [];
    assert Reaches(s, [], s);
    assert Reaches(started, last[1..], s);
    assert Reaches(waits, last, s);
    assert MisalignedRun(key) == first + last;
    ReachesThen(Idle({"get"}), first, waits, last, s);
  }

  /** Once exec has been called on a batch and it has started, the next batch of the key waits for ever. */
  function DeafRun(key: Key): seq<Event> {
    [Accept(key, "get"), Accept(key, EXEC), Immediate(key), Accept(key, "get")]
  }

  lemma DeafExample(key: Key) returns (s: State)
    ensures Reaches(Idle({"get", EXEC}), DeafRun(key), s) && Stuck(s, key)
  {
    var e := DeafRun(key);
    var s0 := Idle({"get", EXEC});
    var s1 := Step(s0, e[0]);
    var s2 := Step(s1, e[1]);
    assert key in s2.immediates && s2.waiting[key].deaf;
    var s3 := Step(s2, e[2]);
    assert s3.flights == [s3.flights[0]] && s3.flights[0].deaf;
    s := Step(s3, e[3]);
    assert e[3..][1..] == [] && e[2..][1..] == e[3..] && e[1..][1..] == e[2..];
    assert Reaches(s, [], s);
    assert Reaches(s3, e[3..], s);
    assert Reaches(s2, e[2..], s);
    assert Reaches(s1, e[1..], s);
    assert s.flights[0] in s.flights;
  }
}
