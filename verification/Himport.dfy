/**
 Preparing fieldsets on connections before commands use them: one PREPARE per session and fieldset, shared
 by everyone who needs it, and one recovery per command when the server has forgotten.
 */
module Himport {
  import opened Wrappers

  type Connection = nat
  type Name = string
  type Id = nat

  /** A fieldset of a session is being prepared, with the promise of the PREPARE sent, or it is prepared. */
  datatype Entry = Preparing(promise: nat) | Prepared

  /** A session object; a new one is made for every connect. */
  datatype Session = Session(number: nat, fieldsets: map<Name, Entry>)

  /** A promise is settled by the reply to its own PREPARE, or follows the promise of a later session. */
  datatype Promise = Pending | Follows(other: nat) | Fulfilled | Broken

  datatype Reply = Waiting | Acknowledged | Refused

  /** A PREPARE that was sent: where, when, and what came back. Its promise has the same index. */
  datatype Prepare = Prepare(connection: Connection, session: nat, name: Name, at: nat, reply: Reply, promise: Promise)

  /** `granted` and `used` count the send tokens given to a command and consumed by it; they are history. */
  datatype Context = Context(name: Name, lastConnection: Option<Connection>, attempts: nat, token: Option<Connection>,
                             settled: bool, granted: nat, used: nat)

  /** What runs when a promise settles; `promise` is None for one that was fulfilled from the start. */
  datatype Waiter = Waiter(command: Id, connection: Connection, promise: Option<nat>, recovery: bool)

  /** A managed SET that was let through. */
  datatype Pass = Pass(command: Id, connection: Connection, ready: bool, token: bool, prepared: bool)

  /**
   `clock` counts events, `cleared` says when a session's fieldset was last cleared; both are history, as is
   `passes`.
   */
  datatype State = State(sessions: map<Connection, Session>, made: nat, prepares: seq<Prepare>,
                         contexts: map<Id, Context>,
                         waiters: seq<Waiter>, clock: nat, cleared: map<(nat, Name), nat>, passes: seq<Pass>)

  const Initial := State(map[], 0, [], map[], [], 0, map[], [])

  function ClearedAt(s: State, session: nat, name: Name): nat {
    if (session, name) in s.cleared then s.cleared[(session, name)] else 0
  }

  function Tick(s: State): State {
    s.(clock := s.clock + 1)
  }

  // ---------- sessions ----------

  function NewSession(s: State, c: Connection): State {
    s.(sessions := s.sessions[c := Session(s.made, map[])], made := s.made + 1)
  }

  function Opened(s: State, c: Connection): State {
    if c in s.sessions then s else NewSession(s, c)
  }

  /** Forgetting every fieldset of a session. */
  function Invalidate(s: State, c: Connection): State {
    if c !in s.sessions then s
    else
      var session := s.sessions[c];
      s.(sessions := s.sessions[c := session.(fieldsets := map[])],
         cleared := s.cleared + map name | name in session.fieldsets :: (session.number, name) := s.clock)
  }

  /** Forgetting one prepared fieldset. */
  function MarkUnprepared(s: State, c: Connection, name: Name): State {
    var t := Opened(s, c);
    var session := t.sessions[c];
    if name in session.fieldsets && session.fieldsets[name] == Prepared
    then t.(sessions := t.sessions[c := session.(fieldsets := session.fieldsets - {name})],
            cleared := t.cleared[(session.number, name) := t.clock])
    else t
  }

  datatype Ensured = Ensured(state: State, promise: Option<nat>)

  function SendPrepare(s: State, c: Connection, name: Name): State
    requires c in s.sessions
  {
    var session, n := s.sessions[c], |s.prepares|;
    s.(prepares := s.prepares + [Prepare(c, session.number, name, s.clock, Waiting, Pending)],
       sessions := s.sessions[c := session.(fieldsets := session.fieldsets[name := Preparing(n)])])
  }

  /** The promise to wait for, if any; a PREPARE is sent only when none is under way. */
  function Ensure(s: State, c: Connection, name: Name): Ensured {
    var t := Opened(s, c);
    var fieldsets := t.sessions[c].fieldsets;
    if name in fieldsets then Ensured(t, if fieldsets[name] == Prepared then None else Some(fieldsets[name].promise))
    else Ensured(SendPrepare(t, c, name), Some(|t.prepares|))
  }

  /** Recording the reply and the outcome of the promise. */
  function SettlePrepare(s: State, n: nat, reply: Reply, promise: Promise): State
    requires n < |s.prepares|
  {
    s.(prepares := s.prepares[n := s.prepares[n].(reply := reply, promise := promise)])
  }

  /** With a new session meanwhile, the fieldset is ensured there, whatever the reply. */
  function OnReply(s: State, n: nat, ok: bool): State
    requires n < |s.prepares|
  {
    var p := s.prepares[n];
    var reply := if ok then Acknowledged else Refused;
    if p.connection !in s.sessions || s.sessions[p.connection].number != p.session then
      var e := Ensure(s, p.connection, p.name);
      SettlePrepare(e.state, n, reply, if e.promise == None then Fulfilled else Follows(e.promise.value))
    else
      var session := s.sessions[p.connection];
      var latest := p.name in session.fieldsets && session.fieldsets[p.name] == Preparing(n);
      var fieldsets := if !latest then session.fieldsets
                       else if ok then session.fieldsets[p.name := Prepared]
                       else session.fieldsets - {p.name};
      SettlePrepare(s, n, reply, if ok then Fulfilled else Broken)
        .(sessions := s.sessions[p.connection := session.(fieldsets := fieldsets)])
  }

  // ---------- commands ----------

  /** What a command is to the coordinator. */
  datatype Kind = Managed(name: Name) | Resets | Other

  function Classified(s: State, id: Id, name: Name): Context {
    if id in s.contexts then s.contexts[id] else Context(name, None, 0, None, false, 0, 0)
  }

  /** Sending a command on a connection: the new state, and whether the coordinator holds the command back. */
  function Intercept(s: State, c: Connection, id: Id, kind: Kind, ready: bool): (State, bool) {
    if id in s.contexts && s.contexts[id].settled then (s, true)
    else if kind.Resets? then (Invalidate(s, c), false)
    else if kind.Other? then (s, false)
    else
      var known := Classified(s, id, kind.name);
      var maySend := known.token == Some(c);
      var context := known.(lastConnection := Some(c), token := if maySend then None else known.token,
                            used := if maySend then known.used + 1 else known.used);
      var t := s.(contexts := s.contexts[id := context]);
      if !ready || maySend then (Passed(t, c, id, ready, maySend), false)
      else
        var e := Ensure(t, c, context.name);
        if e.promise == None then (Passed(e.state, c, id, ready, maySend), false)
        else (e.state.(waiters := e.state.waiters + [Waiter(id, c, e.promise, false)]), true)
  }

  function IsPrepared(s: State, c: Connection, name: Name): bool {
    c in s.sessions && name in s.sessions[c].fieldsets && s.sessions[c].fieldsets[name] == Prepared
  }

  function Passed(s: State, c: Connection, id: Id, ready: bool, token: bool): State
    requires id in s.contexts
  {
    s.(passes := s.passes + [Pass(id, c, ready, token, IsPrepared(s, c, s.contexts[id].name))])
  }

  function SettleCommand(s: State, id: Id): State
    requires id in s.contexts
  {
    s.(contexts := s.contexts[id := s.contexts[id].(settled := true)])
  }

  predicate Recovers(context: Context, missing: bool) {
    !context.settled && context.attempts == 0 && context.lastConnection.Some? && missing
  }

  /** The reject that was installed on a managed command; `missing` is whether the error names a missing fieldset. */
  function OnReject(s: State, id: Id, missing: bool): State
    requires id in s.contexts
  {
    var context := s.contexts[id];
    if context.settled then s
    else if !Recovers(context, missing) then SettleCommand(s, id)
    else
      var c := context.lastConnection.value;
      var t := s.(contexts := s.contexts[id := context.(attempts := context.attempts + 1)]);
      var e := Ensure(MarkUnprepared(t, c, context.name), c, context.name);
      e.state.(waiters := e.state.waiters + [Waiter(id, c, e.promise, true)])
  }

  function Allow(s: State, c: Connection, id: Id): State
    requires id in s.contexts
  {
    var context := s.contexts[id];
    s.(contexts := s.contexts[id := context.(token := Some(c), granted := context.granted + 1)])
  }

  /** How the promise of a waiter stands. */
  function Outcome(s: State, w: Waiter): Promise {
    if w.promise == None then Fulfilled
    else if w.promise.value < |s.prepares| then s.prepares[w.promise.value].promise
    else Pending
  }

  /** A settled promise lets a waiting command be sent again, with a token, or rejects it. */
  function OnWaiter(s: State, i: nat, ready: bool, missing: bool): State
    requires i < |s.waiters| && s.waiters[i].command in s.contexts
  {
    var w := s.waiters[i];
    var t := s.(waiters := s.waiters[..i] + s.waiters[i + 1..]);
    var context := s.contexts[w.command];
    if context.settled then t
    else if Outcome(s, w) == Fulfilled then
      Intercept(Allow(t, w.connection, w.command), w.connection, w.command, Managed(context.name), ready).0
    else if w.recovery then SettleCommand(t, w.command)
    else OnReject(t, w.command, missing)
  }

  // ---------- the coordinator as an object ----------

  class Coordinator {
    var sessions: map<Connection, Session>
    var managedSets: map<Id, Context>
    var waiters: seq<Waiter>
    var prepares: seq<Prepare>
    var made: nat
    var clock: nat
    ghost var cleared: map<(nat, Name), nat>
    ghost var passes: seq<Pass>

    ghost function View(): State
      reads this
    {
      State(sessions, made, prepares, managedSets, waiters, clock, cleared, passes)
    }

    constructor ()
      ensures View() == Initial
    {
      sessions, managedSets, waiters, prepares, made := map[], map[], [], [], 0;
      clock, cleared, passes := 0, map[], [];
    }

    method BeginSession(connection: Connection)
      modifies this
      ensures View() == NewSession(old(View()), connection)
    {
      sessions := sessions[connection := Session(made, map[])];
      made := made + 1;
    }

    method DetachConnection(connection: Connection)
      modifies this`sessions
      ensures View() == old(View()).(sessions := old(sessions) - {connection})
    {
      sessions := sessions - {connection};
    }

    method InvalidateConnection(connection: Connection)
      modifies this
      ensures View() == Invalidate(old(View()), connection)
    {
      if connection in sessions {
        var session := sessions[connection];
        cleared := cleared + map name | name in session.fieldsets :: (session.number, name) := clock;
        sessions := sessions[connection := session.(fieldsets := map[])];
      }
    }

    method GetSession(connection: Connection)
      modifies this
      ensures View() == Opened(old(View()), connection) && connection in sessions
    {
      if connection !in sessions {
        BeginSession(connection);
      }
    }

    /** None when the fieldset is prepared; otherwise the promise of the PREPARE under way, sent now if need be. */
    method EnsurePrepared(connection: Connection, name: Name) returns (promise: Option<nat>)
      modifies this
      ensures Ensured(View(), promise) == Ensure(old(View()), connection, name)
    {
      GetSession(connection);
      var session := sessions[connection];
      if name in session.fieldsets && session.fieldsets[name] == Prepared {
        return None;
      }
      if name in session.fieldsets && session.fieldsets[name].Preparing? {
        return Some(session.fieldsets[name].promise);
      }
      promise := Some(|prepares|);
      prepares := prepares + [Prepare(connection, session.number, name, clock, Waiting, Pending)];
      sessions := sessions[connection := session.(fieldsets := session.fieldsets[name := Preparing(promise.value)])];
    }

    method MarkFieldsetUnprepared(connection: Connection, name: Name)
      modifies this
      ensures View() == MarkUnprepared(old(View()), connection, name)
    {
      GetSession(connection);
      var session := sessions[connection];
      if name in session.fieldsets && session.fieldsets[name] == Prepared {
        sessions := sessions[connection := session.(fieldsets := session.fieldsets - {name})];
        cleared := cleared[(session.number, name) := clock];
      }
    }

    /** The reply to PREPARE n. */
    method PrepareReplied(n: nat, ok: bool)
      requires n < |prepares|
      modifies this
      ensures View() == OnReply(old(View()), n, ok)
    {
      var p := prepares[n];
      var reply := if ok then Acknowledged else Refused;
      if p.connection !in sessions || sessions[p.connection].number != p.session {
        var next := EnsurePrepared(p.connection, p.name);
        prepares := prepares[n := prepares[n].(reply := reply,
                                               promise := if next == None then Fulfilled else Follows(next.value))];
        return;
      }
      var session := sessions[p.connection];
      if p.name in session.fieldsets && session.fieldsets[p.name] == Preparing(n) {
        if ok {
          session := session.(fieldsets := session.fieldsets[p.name := Prepared]);
        } else {
          session := session.(fieldsets := session.fieldsets - {p.name});
        }
      }
      sessions := sessions[p.connection := session];
      prepares := prepares[n := prepares[n].(reply := reply, promise := if ok then Fulfilled else Broken)];
    }

    method InterceptCommand(connection: Connection, id: Id, kind: Kind, ready: bool) returns (held: bool)
      modifies this
      ensures (View(), held) == Intercept(old(View()), connection, id, kind, ready)
    {
      hide Ensure, Invalidate;
      if id in managedSets && managedSets[id].settled {
        return true;
      }
      if kind.Resets? {
        InvalidateConnection(connection);
        return false;
      }
      if kind.Other? {
        return false;
      }
      var context := if id in managedSets then managedSets[id] else Context(kind.name, None, 0, None, false, 0, 0);
      context := context.(lastConnection := Some(connection));
      var maySend := context.token == Some(connection);
      if maySend {
        context := context.(token := None, used := context.used + 1);
      }
      managedSets := managedSets[id := context];
      if !ready || maySend {
        passes := Passed(View(), connection, id, ready, maySend).passes;
        return false;
      }
      EnsureContexts(View(), connection, context.name);
      var promise := EnsurePrepared(connection, context.name);
      if promise == None {
        passes := Passed(View(), connection, id, ready, maySend).passes;
        return false;
      }
      waiters := waiters + [Waiter(id, connection, promise, false)];
      return true;
    }

    /** The reject installed on a managed command. */
    method RejectCommand(id: Id, missing: bool)
      requires id in managedSets
      modifies this
      ensures View() == OnReject(old(View()), id, missing)
    {
      hide Ensure, MarkUnprepared;
      var context := managedSets[id];
      if context.settled {
        return;
      }
      if context.attempts > 0 || context.lastConnection == None || !missing {
        managedSets := managedSets[id := context.(settled := true)];
        return;
      }
      managedSets := managedSets[id := context.(attempts := context.attempts + 1)];
      MarkFieldsetUnprepared(context.lastConnection.value, context.name);
      var promise := EnsurePrepared(context.lastConnection.value, context.name);
      waiters := waiters + [Waiter(id, context.lastConnection.value, promise, true)];
    }

    /** What was to happen after a promise that has now settled. */
    method RunWaiter(i: nat, ready: bool, missing: bool)
      requires i < |waiters| && waiters[i].command in managedSets
      modifies this
      ensures View() == OnWaiter(old(View()), i, ready, missing)
    {
      hide Intercept, OnReject;
      var w := waiters[i];
      var outcome := if w.promise == None then Fulfilled
                     else if w.promise.value < |prepares| then prepares[w.promise.value].promise else Pending;
      waiters := waiters[..i] + waiters[i + 1..];
      var context := managedSets[w.command];
      if context.settled {
        return;
      }
      if outcome == Fulfilled {
        managedSets := managedSets[w.command := context.(token := Some(w.connection), granted := context.granted + 1)];
        var held := InterceptCommand(w.connection, w.command, Managed(context.name), ready);
      } else if w.recovery {
        managedSets := managedSets[w.command := context.(settled := true)];
      } else {
        RejectCommand(w.command, missing);
      }
    }
  }

  lemma EnsureContexts(s: State, c: Connection, name: Name)
    ensures Ensure(s, c, name).state.contexts == s.contexts
  {
  }

  datatype Event =
    | Begin(c: Connection)
    | Detach(c: Connection)
    | Forget(c: Connection)
    | Prepares(c: Connection, name: Name)
    | Send(c: Connection, id: Id, kind: Kind, ready: bool)
    | Replied(n: nat, ok: bool)
    | Adopt(n: nat)
    | Wake(i: nat, ready: bool, missing: bool)
    | Fail(id: Id, missing: bool)
    | Succeed(id: Id)

  predicate Enabled(s: State, e: Event) {
    match e
    case Replied(n, _) => n < |s.prepares| && s.prepares[n].reply == Waiting
    case Adopt(n) => n < |s.prepares| && s.prepares[n].promise.Follows? && s.prepares[n].promise.other < |s.prepares|
                     && (s.prepares[s.prepares[n].promise.other].promise.Fulfilled?
                         || s.prepares[s.prepares[n].promise.other].promise.Broken?)
    case Wake(i, _, _) => i < |s.waiters| && s.waiters[i].command in s.contexts
                          && (Outcome(s, s.waiters[i]).Fulfilled? || Outcome(s, s.waiters[i]).Broken?)
    case Fail(id, _) => id in s.contexts
    case Succeed(id) => id in s.contexts
    case _ => true
  }

  function Step(before: State, e: Event): State
    requires Enabled(before, e)
  {
    var s := Tick(before);
    match e
    case Begin(c) => NewSession(s, c)
    case Detach(c) => s.(sessions := s.sessions - {c})
    case Forget(c) => Invalidate(s, c)
    case Prepares(c, name) => Ensure(s, c, name).state
    case Send(c, id, kind, ready) => Intercept(s, c, id, kind, ready).0
    case Replied(n, ok) => OnReply(s, n, ok)
    case Adopt(n) => SettlePrepare(s, n, s.prepares[n].reply, s.prepares[s.prepares[n].promise.other].promise)
    case Wake(i, ready, missing) => OnWaiter(s, i, ready, missing)
    case Fail(id, missing) => OnReject(s, id, missing)
    case Succeed(id) => SettleCommand(s, id)
  }

  ghost predicate Reaches(s: State, events: seq<Event>, t: State)
    decreases |events|
  {
    if events == [] then s == t else Enabled(s, events[0]) && Reaches(Step(s, events[0]), events[1..], t)
  }

  // ---------- what holds in every reachable state ----------

  /** A PREPARE of the current session of its connection, sent since the fieldset was last cleared there. */
  predicate Current(s: State, n: nat)
    requires n < |s.prepares|
  {
    var p := s.prepares[n];
    p.connection in s.sessions && s.sessions[p.connection].number == p.session
        && p.at >= ClearedAt(s, p.session, p.name)
  }

  /** The fieldset's entry was put there by this PREPARE. */
  predicate For(p: Prepare, c: Connection, name: Name) {
    p.connection == c && p.name == name
  }

  ghost predicate EntryHolds(s: State, c: Connection, name: Name)
    requires c in s.sessions && name in s.sessions[c].fieldsets
  {
    match s.sessions[c].fieldsets[name]
    case Preparing(n) => n < |s.prepares| && For(s.prepares[n], c, name) && Current(s, n)
        && s.prepares[n].reply == Waiting
    case Prepared => exists n ::
      0 <= n < |s.prepares| && For(s.prepares[n], c, name) && Current(s, n) && s.prepares[n].reply == Acknowledged
  }

  predicate Tracked(s: State, n: nat)
    requires n < |s.prepares|
  {
    var p := s.prepares[n];
    p.connection in s.sessions && p.name in s.sessions[p.connection].fieldsets
        && s.sessions[p.connection].fieldsets[p.name] == Preparing(n)
  }

  ghost predicate Sound(s: State) {
    && (forall c :: c in s.sessions ==> s.sessions[c].number < s.made)
    && (forall c, d :: c in s.sessions && d in s.sessions && s.sessions[c].number == s.sessions[d].number ==> c == d)
    && (forall n :: 0 <= n < |s.prepares| ==> s.prepares[n].session < s.made && s.prepares[n].at <= s.clock)
    && (forall k :: k in s.cleared ==> s.cleared[k] <= s.clock && k.0 < s.made)
    && (forall c, name :: c in s.sessions && name in s.sessions[c].fieldsets ==> EntryHolds(s, c, name))
    && (forall n :: 0 <= n < |s.prepares| && s.prepares[n].reply == Waiting && Current(s, n) ==> Tracked(s, n))
  }

  predicate ContextHolds(x: Context) {
    x.attempts <= 1 && x.used + (if x.token.Some? then 1 else 0) <= x.granted
  }

  ghost predicate Disciplined(s: State) {
    && (forall id :: id in s.contexts ==> ContextHolds(s.contexts[id]))
    && (forall p :: p in s.passes ==> p.ready ==> p.token || p.prepared)
  }

  /** Everything sent so far was sent in an earlier event. */
  predicate Earlier(s: State) {
    forall n :: 0 <= n < |s.prepares| ==> s.prepares[n].at < s.clock
  }

  lemma TickSound(s: State)
    requires Sound(s)
    ensures Sound(Tick(s)) && Earlier(Tick(s))
  {
    var t := Tick(s);
    SameEntries(s, t);
  }

  /** Sessions, prepares and clearings decide what holds; nothing else does. */
  lemma SameEntries(s: State, t: State)
    requires Sound(s) && t.sessions == s.sessions && t.made == s.made && t.prepares == s.prepares
        && t.cleared == s.cleared && t.clock >= s.clock
    ensures Sound(t)
  {
    forall n | 0 <= n < |s.prepares|
      ensures Current(t, n) == Current(s, n) && Tracked(t, n) == Tracked(s, n)
    {
    }
    forall c, name | c in s.sessions && name in s.sessions[c].fieldsets
      ensures EntryHolds(t, c, name)
    {
      assert EntryHolds(s, c, name);
      if s.sessions[c].fieldsets[name] == Prepared {
        var n :| 0 <= n < |s.prepares| && For(s.prepares[n], c, name) && Current(s, n)
            && s.prepares[n].reply == Acknowledged;
        assert Current(t, n);
      }
    }
  }

  lemma NewSessionSound(s: State, c: Connection)
    requires Sound(s)
    ensures Sound(NewSession(s, c)) && (Earlier(s) ==> Earlier(NewSession(s, c)))
  {
    var t := NewSession(s, c);
    forall n | 0 <= n < |s.prepares|
      ensures s.prepares[n].connection == c ==> !Current(t, n)
      ensures s.prepares[n].connection != c ==> Current(t, n) == Current(s, n) && Tracked(t, n) == Tracked(s, n)
    {
    }
    forall d, name | d in t.sessions && name in t.sessions[d].fieldsets
      ensures EntryHolds(t, d, name)
    {
      assert d != c && EntryHolds(s, d, name);
      if s.sessions[d].fieldsets[name] == Prepared {
        var n :| 0 <= n < |s.prepares| && For(s.prepares[n], d, name) && Current(s, n)
            && s.prepares[n].reply == Acknowledged;
        assert Current(t, n);
      }
    }
  }

  lemma DetachSound(s: State, c: Connection)
    requires Sound(s)
    ensures Sound(s.(sessions := s.sessions - {c}))
  {
    var t := s.(sessions := s.sessions - {c});
    forall n | 0 <= n < |s.prepares|
      ensures s.prepares[n].connection == c ==> !Current(t, n)
      ensures s.prepares[n].connection != c ==> Current(t, n) == Current(s, n) && Tracked(t, n) == Tracked(s, n)
    {
    }
    forall d, name | d in t.sessions && name in t.sessions[d].fieldsets
      ensures EntryHolds(t, d, name)
    {
      assert d != c && EntryHolds(s, d, name);
      if s.sessions[d].fieldsets[name] == Prepared {
        var n :| 0 <= n < |s.prepares| && For(s.prepares[n], d, name) && Current(s, n)
            && s.prepares[n].reply == Acknowledged;
        assert Current(t, n);
      }
    }
  }

  /** Taking some entries out of a session and noting the time keeps the rest. */
  lemma ClearSound(s: State, c: Connection, names: set<Name>, t: State)
    requires Sound(s) && Earlier(s) && c in s.sessions && names <= s.sessions[c].fieldsets.Keys
    requires t == s.(sessions := s.sessions[c := s.sessions[c].(fieldsets := s.sessions[c].fieldsets - names)],
        cleared := t.cleared)
    requires forall k :: k in t.cleared <==> k in s.cleared || (k.0 == s.sessions[c].number && k.1 in names)
    requires forall k :: k in t.cleared ==>
      t.cleared[k] == if k.0 == s.sessions[c].number && k.1 in names then s.clock else s.cleared[k]
    ensures Sound(t) && Earlier(t)
  {
    var number := s.sessions[c].number;
    forall n | 0 <= n < |s.prepares|
      ensures Current(t, n) ==> Current(s, n) && !(s.prepares[n].connection == c && s.prepares[n].name in names)
      ensures Current(s, n) && !(s.prepares[n].connection == c && s.prepares[n].name in names) ==> Current(t, n)
    {
      var p := s.prepares[n];
      if p.connection in s.sessions && s.sessions[p.connection].number == p.session {
        assert (p.session, p.name) in t.cleared && p.connection == c && p.name in names ==>
            ClearedAt(t, p.session, p.name) == s.clock;
        assert !(p.connection == c && p.name in names) ==>
            ClearedAt(t, p.session, p.name) == ClearedAt(s, p.session, p.name);
      }
    }
    forall d, name | d in t.sessions && name in t.sessions[d].fieldsets
      ensures EntryHolds(t, d, name)
    {
      assert name in s.sessions[d].fieldsets && EntryHolds(s, d, name)
          && t.sessions[d].fieldsets[name] == s.sessions[d].fieldsets[name];
      if s.sessions[d].fieldsets[name] == Prepared {
        var n :| 0 <= n < |s.prepares| && For(s.prepares[n], d, name) && Current(s, n)
            && s.prepares[n].reply == Acknowledged;
        assert Current(t, n);
      }
    }
    forall n | 0 <= n < |t.prepares| && t.prepares[n].reply == Waiting && Current(t, n)
      ensures Tracked(t, n)
    {
      assert Tracked(s, n);
    }
  }

  lemma InvalidateSound(s: State, c: Connection)
    requires Sound(s) && Earlier(s)
    ensures Sound(Invalidate(s, c))
  {
    if c in s.sessions {
      var session := s.sessions[c];
      var t := Invalidate(s, c);
      assert session.fieldsets - session.fieldsets.Keys == map[];
      ClearSound(s, c, session.fieldsets.Keys, t);
    }
  }

  lemma MarkSound(s: State, c: Connection, name: Name)
    requires Sound(s) && Earlier(s)
    ensures Sound(MarkUnprepared(s, c, name)) && c in MarkUnprepared(s, c, name).sessions
    ensures MarkUnprepared(s, c, name).contexts == s.contexts && MarkUnprepared(s, c, name).passes == s.passes
  {
    NewSessionSound(s, c);
    var t := Opened(s, c);
    var session := t.sessions[c];
    if name in session.fieldsets && session.fieldsets[name] == Prepared {
      ClearSound(t, c, {name}, MarkUnprepared(s, c, name));
    }
  }

  /** The entries of the other fieldsets do not notice a new PREPARE. */
  lemma PrepareElsewhere(s: State, c: Connection, name: Name, d: Connection, other: Name)
    requires Sound(s) && c in s.sessions && name !in s.sessions[c].fieldsets
    requires d in s.sessions && other in s.sessions[d].fieldsets
    ensures EntryHolds(SendPrepare(s, c, name), d, other)
  {
    var t, m := SendPrepare(s, c, name), |s.prepares|;
    assert EntryHolds(s, d, other);
    if s.sessions[d].fieldsets[other] == Prepared {
      var n :| 0 <= n < m && For(s.prepares[n], d, other) && Current(s, n) && s.prepares[n].reply == Acknowledged;
      assert Current(t, n) && t.prepares[n] == s.prepares[n];
    }
  }

  lemma SendPrepareSound(s: State, c: Connection, name: Name)
    requires Sound(s) && c in s.sessions && name !in s.sessions[c].fieldsets
    ensures Sound(SendPrepare(s, c, name))
  {
    hide EntryHolds;
    var t, m := SendPrepare(s, c, name), |s.prepares|;
    var number := s.sessions[c].number;
    assert (number, name) in s.cleared ==> s.cleared[(number, name)] <= s.clock;
    NewEntryHolds(s, c, name);
    forall d, other | d in t.sessions && other in t.sessions[d].fieldsets
      ensures EntryHolds(t, d, other)
    {
      if d != c || other != name {
        PrepareElsewhere(s, c, name, d, other);
      }
    }
    forall n | 0 <= n < |t.prepares| && t.prepares[n].reply == Waiting && Current(t, n)
      ensures Tracked(t, n)
    {
      if n < m {
        assert Current(s, n) && Tracked(s, n);
      }
    }
  }

  lemma NewEntryHolds(s: State, c: Connection, name: Name)
    requires Sound(s) && c in s.sessions
    ensures EntryHolds(SendPrepare(s, c, name), c, name)
  {
    var number := s.sessions[c].number;
    assert (number, name) in s.cleared ==> s.cleared[(number, name)] <= s.clock;
  }

  lemma EnsureSound(s: State, c: Connection, name: Name)
    requires Sound(s)
    ensures var e := Ensure(s, c, name);
            && Sound(e.state) && e.state.contexts == s.contexts && e.state.passes == s.passes
            && e.state.waiters == s.waiters
            && (e.promise == None <==> IsPrepared(s, c, name)) && (e.promise == None ==> IsPrepared(e.state, c, name))
            && (e.promise.Some? ==> e.promise.value < |e.state.prepares|)
            && |e.state.prepares| >= |s.prepares|
            && forall n :: 0 <= n < |s.prepares| ==> e.state.prepares[n] == s.prepares[n]
  {
    NewSessionSound(s, c);
    var t := Opened(s, c);
    if name in t.sessions[c].fieldsets {
      assert EntryHolds(t, c, name);
    } else {
      SendPrepareSound(t, c, name);
    }
  }

  /** The reply to a PREPARE that is not current is only recorded. */
  lemma StaleSound(s: State, n: nat, reply: Reply, promise: Promise)
    requires Sound(s) && n < |s.prepares| && s.prepares[n].reply == Waiting && !Current(s, n)
    ensures Sound(SettlePrepare(s, n, reply, promise))
  {
    SettledSound(s, n, reply, promise);
  }

  lemma SettledSound(s: State, n: nat, reply: Reply, promise: Promise)
    requires Sound(s) && n < |s.prepares|
    requires reply == s.prepares[n].reply || (s.prepares[n].reply == Waiting && !Current(s, n) && reply != Waiting)
    ensures Sound(SettlePrepare(s, n, reply, promise))
  {
    var t := SettlePrepare(s, n, reply, promise);
    forall m | 0 <= m < |s.prepares|
      ensures Current(t, m) == Current(s, m) && Tracked(t, m) == Tracked(s, m)
    {
    }
    forall c, name | c in t.sessions && name in t.sessions[c].fieldsets
      ensures EntryHolds(t, c, name)
    {
      assert EntryHolds(s, c, name);
      if s.sessions[c].fieldsets[name] == Prepared {
        var m :| 0 <= m < |s.prepares| && For(s.prepares[m], c, name) && Current(s, m)
            && s.prepares[m].reply == Acknowledged;
        assert Current(t, m) && t.prepares[m].reply == Acknowledged;
      }
    }
    forall m | 0 <= m < |t.prepares| && t.prepares[m].reply == Waiting && Current(t, m)
      ensures Tracked(t, m)
    {
      assert Tracked(s, m);
    }
  }

  lemma TrackedReplyElsewhere(s: State, n: nat, ok: bool, c: Connection, name: Name)
    requires Sound(s) && n < |s.prepares| && s.prepares[n].reply == Waiting && Tracked(s, n) && Current(s, n)
    requires c in s.sessions && name in s.sessions[c].fieldsets && !For(s.prepares[n], c, name)
    ensures var t := OnReply(s, n, ok); c in t.sessions && name in t.sessions[c].fieldsets && EntryHolds(t, c, name)
  {
    var t := OnReply(s, n, ok);
    assert EntryHolds(s, c, name);
    if s.sessions[c].fieldsets[name] == Prepared {
      var m :| 0 <= m < |s.prepares| && For(s.prepares[m], c, name) && Current(s, m)
          && s.prepares[m].reply == Acknowledged;
      assert Current(t, m) && t.prepares[m] == s.prepares[m];
    }
  }

  lemma TrackedReplyHere(s: State, n: nat, ok: bool)
    requires Sound(s) && n < |s.prepares| && s.prepares[n].reply == Waiting && Tracked(s, n) && Current(s, n)
    ensures var t, p := OnReply(s, n, ok), s.prepares[n];
            p.connection in t.sessions
            && if ok then p.name in t.sessions[p.connection].fieldsets && EntryHolds(t, p.connection, p.name)
               else p.name !in t.sessions[p.connection].fieldsets
  {
    var t := OnReply(s, n, ok);
    assert Current(t, n);
  }

  lemma TrackedReplyTracks(s: State, n: nat, ok: bool, m: nat)
    requires Sound(s) && n < |s.prepares| && s.prepares[n].reply == Waiting && Tracked(s, n) && Current(s, n)
    requires m < |s.prepares| && m != n && s.prepares[m].reply == Waiting
    ensures var t := OnReply(s, n, ok); Current(t, m) ==> Tracked(t, m)
  {
    if Current(s, m) {
      assert Tracked(s, m);
    }
  }

  /** The reply to the PREPARE that is tracked marks the fieldset, or makes room for another try. */
  lemma TrackedReplySound(s: State, n: nat, ok: bool)
    requires Sound(s) && n < |s.prepares| && s.prepares[n].reply == Waiting && Tracked(s, n) && Current(s, n)
    ensures Sound(OnReply(s, n, ok))
  {
    var t, p := OnReply(s, n, ok), s.prepares[n];
    TrackedReplyHere(s, n, ok);
    hide EntryHolds, Current;
    forall m | 0 <= m < |t.prepares| && t.prepares[m].reply == Waiting && Current(t, m)
      ensures Tracked(t, m)
    {
      TrackedReplyTracks(s, n, ok, m);
    }
    forall c, name | c in t.sessions && name in t.sessions[c].fieldsets
      ensures EntryHolds(t, c, name)
    {
      if !For(p, c, name) {
        TrackedReplyElsewhere(s, n, ok, c, name);
      }
    }
  }

  lemma OnReplySound(s: State, n: nat, ok: bool)
    requires Sound(s) && n < |s.prepares| && s.prepares[n].reply == Waiting
    ensures Sound(OnReply(s, n, ok)) && OnReply(s, n, ok).contexts == s.contexts && OnReply(s, n, ok).passes == s.passes
  {
    var p := s.prepares[n];
    if p.connection !in s.sessions || s.sessions[p.connection].number != p.session {
      EnsureSound(s, p.connection, p.name);
      var t := Ensure(s, p.connection, p.name).state;
      assert t.prepares[n] == p;
      OpenedIsNew(s, p.connection, p.session);
      StaleSound(t, n, if ok then Acknowledged else Refused,
                 if Ensure(s, p.connection, p.name).promise == None then Fulfilled
                 else Follows(Ensure(s, p.connection, p.name).promise.value));
    } else if Tracked(s, n) {
      assert EntryHolds(s, p.connection, p.name);
      TrackedReplySound(s, n, ok);
    } else {
      StaleSound(s, n, if ok then Acknowledged else Refused, if ok then Fulfilled else Broken);
      assert s.sessions[p.connection := s.sessions[p.connection]] == s.sessions;
    }
  }

  lemma OpenedIsNew(s: State, c: Connection, number: nat)
    requires number < s.made && (c in s.sessions ==> s.sessions[c].number != number)
    ensures forall name ::
      c in Ensure(s, c, name).state.sessions && Ensure(s, c, name).state.sessions[c].number != number
  {
  }

  lemma InterceptSound(s: State, c: Connection, id: Id, kind: Kind, ready: bool)
    requires Sound(s) && Earlier(s) && Disciplined(s)
    ensures Sound(Intercept(s, c, id, kind, ready).0) && Disciplined(Intercept(s, c, id, kind, ready).0)
  {
    hide Sound, Earlier, Ensure, Invalidate;
    if id in s.contexts && s.contexts[id].settled {
    } else if kind.Resets? {
      InvalidateSound(s, c);
      InvalidateKeeps(s, c);
    } else if kind.Managed? {
      var known := Classified(s, id, kind.name);
      var maySend := known.token == Some(c);
      var context := known.(lastConnection := Some(c), token := if maySend then None else known.token,
                            used := if maySend then known.used + 1 else known.used);
      var t := s.(contexts := s.contexts[id := context]);
      SameEntries(s, t);
      EnsureSound(t, c, context.name);
      var e := Ensure(t, c, context.name);
      SameEntries(t, Passed(t, c, id, ready, maySend));
      SameEntries(e.state, Passed(e.state, c, id, ready, maySend));
      SameEntries(e.state, e.state.(waiters := e.state.waiters + [Waiter(id, c, e.promise, false)]));
    }
  }

  lemma InvalidateKeeps(s: State, c: Connection)
    ensures Invalidate(s, c).contexts == s.contexts && Invalidate(s, c).passes == s.passes
        && Invalidate(s, c).waiters == s.waiters
  {
  }

  lemma RejectSound(s: State, id: Id, missing: bool)
    requires Sound(s) && Earlier(s) && Disciplined(s) && id in s.contexts
    ensures Sound(OnReject(s, id, missing)) && Disciplined(OnReject(s, id, missing))
  {
    hide Sound, Earlier, Ensure, MarkUnprepared;
    var context := s.contexts[id];
    assert ContextHolds(context);
    SameEntries(s, SettleCommand(s, id));
    if Recovers(context, missing) {
      var c := context.lastConnection.value;
      var t := s.(contexts := s.contexts[id := context.(attempts := context.attempts + 1)]);
      SameEntries(s, t);
      EarlierSame(s, t);
      MarkSound(t, c, context.name);
      EnsureSound(MarkUnprepared(t, c, context.name), c, context.name);
      var e := Ensure(MarkUnprepared(t, c, context.name), c, context.name);
      SameEntries(e.state, e.state.(waiters := e.state.waiters + [Waiter(id, c, e.promise, true)]));
    }
  }

  lemma EarlierSame(s: State, t: State)
    requires Earlier(s) && t.prepares == s.prepares && t.clock == s.clock
    ensures Earlier(t)
  {
  }

  lemma WaiterSound(s: State, i: nat, ready: bool, missing: bool)
    requires Sound(s) && Earlier(s) && Disciplined(s) && i < |s.waiters| && s.waiters[i].command in s.contexts
    ensures Sound(OnWaiter(s, i, ready, missing)) && Disciplined(OnWaiter(s, i, ready, missing))
  {
    hide Sound, Earlier, Intercept, OnReject;
    var w := s.waiters[i];
    var t := s.(waiters := s.waiters[..i] + s.waiters[i + 1..]);
    SameEntries(s, t);
    EarlierSame(s, t);
    var context := s.contexts[w.command];
    assert ContextHolds(context);
    if !context.settled {
      var u := Allow(t, w.connection, w.command);
      SameEntries(t, u);
      EarlierSame(t, u);
      InterceptSound(u, w.connection, w.command, Managed(context.name), ready);
      SameEntries(t, SettleCommand(t, w.command));
      RejectSound(t, w.command, missing);
    }
  }

  lemma StepKeeps(s: State, e: Event)
    requires Sound(s) && Disciplined(s) && Enabled(s, e)
    ensures Sound(Step(s, e)) && Disciplined(Step(s, e))
  {
    hide Sound, Earlier, Intercept, OnReject, OnWaiter, OnReply, Ensure, Invalidate, NewSession;
    TickSound(s);
    var t := Tick(s);
    match e
    case Begin(c) =>
      NewSessionSound(t, c);
      NewSessionKeeps(t, c);
    case Detach(c) => DetachSound(t, c);
    case Forget(c) =>
      InvalidateSound(t, c);
      InvalidateKeeps(t, c);
    case Prepares(c, name) => EnsureSound(t, c, name);
    case Send(c, id, kind, ready) => InterceptSound(t, c, id, kind, ready);
    case Replied(n, ok) => OnReplySound(t, n, ok);
    case Adopt(n) => SettledSound(t, n, t.prepares[n].reply, t.prepares[t.prepares[n].promise.other].promise);
    case Wake(i, ready, missing) => WaiterSound(t, i, ready, missing);
    case Fail(id, missing) => RejectSound(t, id, missing);
    case Succeed(id) => SameEntries(t, SettleCommand(t, id));
  }

  lemma NewSessionKeeps(s: State, c: Connection)
    ensures NewSession(s, c).contexts == s.contexts && NewSession(s, c).passes == s.passes
  {
  }

  lemma {:induction false} ReachesKeeps(s: State, events: seq<Event>, t: State)
    requires Sound(s) && Disciplined(s) && Reaches(s, events, t)
    ensures Sound(t) && Disciplined(t)
    decreases |events|
  {
    hide Sound, Disciplined, Step;
    if events != [] {
      StepKeeps(s, events[0]);
      ReachesKeeps(Step(s, events[0]), events[1..], t);
    }
  }

  lemma ReachableHolds(events: seq<Event>, s: State)
    requires Reaches(Initial, events, s)
    ensures Sound(s) && Disciplined(s)
  {
    ReachesKeeps(Initial, events, s);
  }

  /**
   A fieldset that is marked prepared was acknowledged by a PREPARE sent on that connection, in its current
   session, after the fieldset was last cleared there.
   */
  lemma PreparedWasAcknowledged(events: seq<Event>, s: State, c: Connection, name: Name)
    requires Reaches(Initial, events, s) && IsPrepared(s, c, name)
    ensures exists n ::
      0 <= n < |s.prepares| && For(s.prepares[n], c, name) && Current(s, n) && s.prepares[n].reply == Acknowledged
  {
    ReachableHolds(events, s);
    assert EntryHolds(s, c, name);
  }

  /** Of one session and fieldset, at most one PREPARE that still counts is without a reply. */
  lemma OnePrepareAtATime(events: seq<Event>, s: State, m: nat, n: nat)
    requires Reaches(Initial, events, s) && m < |s.prepares| && n < |s.prepares|
    requires s.prepares[m].reply == Waiting && s.prepares[n].reply == Waiting && Current(s, m) && Current(s, n)
    requires s.prepares[m].connection == s.prepares[n].connection && s.prepares[m].name == s.prepares[n].name
    ensures m == n
  {
    ReachableHolds(events, s);
    assert Tracked(s, m) && Tracked(s, n);
  }

  /** Whoever needs the fieldset while one is under way shares its promise, and nothing is sent. */
  lemma PreparesAreShared(events: seq<Event>, s: State, n: nat)
    requires Reaches(Initial, events, s) && n < |s.prepares| && s.prepares[n].reply == Waiting && Current(s, n)
    ensures Ensure(s, s.prepares[n].connection, s.prepares[n].name) == Ensured(s, Some(n))
  {
    ReachableHolds(events, s);
    assert Tracked(s, n);
  }

  /** Two commands of a fieldset that fail one after the other wait for the same PREPARE. */
  lemma RecoveriesShare(events: seq<Event>, s: State, a: Id, b: Id)
    requires Reaches(Initial, events, s) && a != b && a in s.contexts && b in s.contexts
    requires Recovers(s.contexts[a], true) && Recovers(s.contexts[b], true)
    requires s.contexts[a].lastConnection == s.contexts[b].lastConnection && s.contexts[a].name == s.contexts[b].name
    ensures var t := Step(Step(s, Fail(a, true)), Fail(b, true));
            && |t.waiters| == |s.waiters| + 2 && t.waiters[|s.waiters|].promise == t.waiters[|s.waiters| + 1].promise
            && |t.prepares| <= |s.prepares| + 1
  {
    hide Reaches, OnReject;
    RecoveryWaits(Tick(s), a);
    var t := Step(s, Fail(a, true));
    var q := t.waiters[|s.waiters|].promise.value;
    assert IsPreparing(Tick(t), s.contexts[b].lastConnection.value, s.contexts[b].name, q);
    RecoveryWaits(Tick(t), b);
    var u := Step(t, Fail(b, true));
    assert u.waiters[..|t.waiters|][|s.waiters|] == t.waiters[|s.waiters|];
  }

  predicate IsPreparing(s: State, c: Connection, name: Name, n: nat) {
    c in s.sessions && name in s.sessions[c].fieldsets && s.sessions[c].fieldsets[name] == Preparing(n)
  }

  /** A recovering command waits for the PREPARE that is under way, or for a new one. */
  lemma RecoveryWaits(s: State, id: Id)
    requires id in s.contexts && Recovers(s.contexts[id], true)
    ensures var t, c, name := OnReject(s, id, true), s.contexts[id].lastConnection.value, s.contexts[id].name;
            && |t.waiters| == |s.waiters| + 1 && t.waiters[..|s.waiters|] == s.waiters
            && t.waiters[|s.waiters|].promise.Some? && IsPreparing(t, c, name, t.waiters[|s.waiters|].promise.value)
            && t.contexts == s.contexts[id := s.contexts[id].(attempts := s.contexts[id].attempts + 1)]
            && |t.prepares| <= |s.prepares| + 1
            && forall n :: IsPreparing(s, c, name, n) ==>
              t.prepares == s.prepares && t.waiters[|s.waiters|].promise.value == n
  {
    var context := s.contexts[id];
    var c := context.lastConnection.value;
    var t := s.(contexts := s.contexts[id := context.(attempts := context.attempts + 1)]);
    var m := MarkUnprepared(t, c, context.name);
    assert c in m.sessions && !IsPrepared(m, c, context.name) && m.prepares == s.prepares && m.waiters == s.waiters;
    assert forall n :: IsPreparing(s, c, context.name, n) ==> m == t;
  }

  /** On a ready connection a managed SET goes out only when its fieldset is prepared or with a token of its own. */
  lemma SetsGoOutPrepared(events: seq<Event>, s: State, p: Pass)
    requires Reaches(Initial, events, s) && p in s.passes && p.ready
    ensures p.token || p.prepared
  {
    ReachableHolds(events, s);
  }

  /** A token is good for one send, and a command is recovered at most once. */
  lemma TokensAndRecoveries(events: seq<Event>, s: State, id: Id)
    requires Reaches(Initial, events, s) && id in s.contexts
    ensures s.contexts[id].used <= s.contexts[id].granted && s.contexts[id].attempts <= 1
  {
    ReachableHolds(events, s);
    assert ContextHolds(s.contexts[id]);
  }

  /** How often a command has failed in a run, with a missing fieldset or otherwise. */
  function Failures(events: seq<Event>, id: Id, missing: bool): nat {
    if events == [] then 0
    else Failures(events[..|events| - 1], id, missing) + (if events[|events| - 1] == Fail(id, missing) then 1 else 0)
  }

  /** A command that was sent stays known, settled if it was, and with no fewer recoveries. */
  predicate Later(x: Context, y: Context) {
    y.name == x.name && (x.settled ==> y.settled) && y.attempts >= x.attempts && y.lastConnection.Some?
  }

  ghost predicate Connected(s: State) {
    forall id :: id in s.contexts ==> s.contexts[id].lastConnection.Some?
  }

  ghost predicate Progress(s: State, t: State) {
    Connected(t) && forall id :: id in s.contexts ==> id in t.contexts && Later(s.contexts[id], t.contexts[id])
  }

  lemma EnsureKeepsContexts(s: State, c: Connection, name: Name)
    ensures Ensure(s, c, name).state.contexts == s.contexts
    ensures MarkUnprepared(s, c, name).contexts == s.contexts
  {
  }

  lemma InterceptProgress(s: State, c: Connection, id: Id, kind: Kind, ready: bool)
    requires Connected(s)
    ensures Progress(s, Intercept(s, c, id, kind, ready).0)
  {
    hide Ensure, Invalidate;
    InvalidateKeeps(s, c);
    if kind.Managed? {
      var known := Classified(s, id, kind.name);
      var maySend := known.token == Some(c);
      var context := known.(lastConnection := Some(c), token := if maySend then None else known.token,
                            used := if maySend then known.used + 1 else known.used);
      EnsureKeepsContexts(s.(contexts := s.contexts[id := context]), c, context.name);
    }
  }

  lemma RejectProgress(s: State, id: Id, missing: bool)
    requires Connected(s) && id in s.contexts
    ensures var t := OnReject(s, id, missing);
            Progress(s, t)
            && (t.contexts[id].settled
                || (missing && s.contexts[id].attempts == 0 && t.contexts[id].attempts == 1))
  {
    hide Ensure, MarkUnprepared;
    var context := s.contexts[id];
    if Recovers(context, missing) {
      var c := context.lastConnection.value;
      var t := s.(contexts := s.contexts[id := context.(attempts := context.attempts + 1)]);
      EnsureKeepsContexts(t, c, context.name);
      EnsureKeepsContexts(MarkUnprepared(t, c, context.name), c, context.name);
    }
  }

  lemma WaiterProgress(s: State, i: nat, ready: bool, missing: bool)
    requires Connected(s) && i < |s.waiters| && s.waiters[i].command in s.contexts
    ensures Progress(s, OnWaiter(s, i, ready, missing))
  {
    hide Intercept, OnReject;
    var w := s.waiters[i];
    var t := s.(waiters := s.waiters[..i] + s.waiters[i + 1..]);
    if !s.contexts[w.command].settled {
      var u := Allow(t, w.connection, w.command);
      InterceptProgress(u, w.connection, w.command, Managed(s.contexts[w.command].name), ready);
      RejectProgress(t, w.command, missing);
    }
  }

  lemma StepProgress(s: State, e: Event)
    requires Connected(s) && Enabled(s, e)
    ensures Progress(s, Step(s, e))
    ensures e.Fail? ==> Step(s, e).contexts[e.id].settled
                        || (e.missing && s.contexts[e.id].attempts == 0 && Step(s, e).contexts[e.id].attempts == 1)
  {
    hide Intercept, OnReject, OnWaiter, Ensure, Invalidate, NewSession;
    var t := Tick(s);
    match e
    case Begin(c) => NewSessionKeeps(t, c);
    case Detach(_) =>
    case Forget(c) => InvalidateKeeps(t, c);
    case Prepares(c, name) => EnsureKeepsContexts(t, c, name);
    case Send(c, id, kind, ready) => InterceptProgress(t, c, id, kind, ready);
    case Replied(n, ok) => EnsureKeepsContexts(t, t.prepares[n].connection, t.prepares[n].name);
    case Adopt(_) =>
    case Wake(i, ready, missing) => WaiterProgress(t, i, ready, missing);
    case Fail(id, missing) => RejectProgress(t, id, missing);
    case Succeed(_) =>
  }

  lemma {:induction false} ReachesFront(s: State, events: seq<Event>, t: State) returns (u: State)
    requires Reaches(s, events, t) && events != []
    ensures Reaches(s, events[..|events| - 1], u) && Enabled(u, events[|events| - 1])
        && t == Step(u, events[|events| - 1])
    decreases |events|
  {
    hide Step, Enabled;
    if |events| == 1 {
      u := s;
      assert events[1..] == [] && events[..0] == [];
    } else {
      u := ReachesFront(Step(s, events[0]), events[1..], t);
      assert events[1..][..|events| - 2] == events[..|events| - 1][1..];
      assert events[1..][|events| - 2] == events[|events| - 1];
    }
  }

  /**
   Over every run, a command that has failed is known, and settled unless its one failure so far was a
   missing fieldset, which it recovers from once: by its second missing fieldset, or by any other error, it
   is settled.
   */
  lemma {:induction false} FailuresSettle(events: seq<Event>, s: State, id: Id)
    requires Reaches(Initial, events, s)
    ensures Connected(s)
    ensures Failures(events, id, true) >= 1 ==>
        id in s.contexts && (s.contexts[id].settled || s.contexts[id].attempts >= 1)
    ensures Failures(events, id, true) >= 2 || Failures(events, id, false) >= 1 ==>
        id in s.contexts && s.contexts[id].settled
    decreases |events|
  {
    hide Step, Enabled, Reaches;
    if events == [] {
      NothingYet(s);
    } else {
      var u := ReachesFront(Initial, events, s);
      var last := events[|events| - 1];
      FailuresSettle(events[..|events| - 1], u, id);
      FailIsKnown(u, last);
      StepProgress(u, last);
    }
  }

  lemma NothingYet(s: State)
    requires Reaches(Initial, [], s)
    ensures s == Initial
  {
  }

  lemma FailIsKnown(s: State, e: Event)
    requires Enabled(s, e)
    ensures e.Fail? ==> e.id in s.contexts
  {
  }
}
