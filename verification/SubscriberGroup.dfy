/**
 The sharded subscribers of a cluster: which node answers for which slots, which channels belong to which
 slot, and topology resets that overlap.
 */
module SubscriberGroup {
  import opened Wrappers
  import opened ShardedSubscriber

  type Key = string

  /** The nodes of each slot; a slot the cluster does not cover can be a hole in the table. */
  type Table = seq<Option<seq<Key>>>

  /** A slot whose list is empty has no first node, and that counts as a key of its own. */
  type Owner = Option<Key>

  type Index = map<Owner, seq<nat>>

  datatype Topology = Topology(table: Table, nodes: set<Key>)

  // ---------- the slots of each node ----------

  function First(row: seq<Key>): Owner {
    if row == [] then None else Some(row[0])
  }

  predicate Owns(table: Table, owner: Owner, slot: nat) {
    slot < |table| && table[slot].Some? && First(table[slot].value) == owner
  }

  predicate Full(table: Table) {
    forall slot :: 0 <= slot < |table| ==> table[slot].Some?
  }

  function SlotsOf(index: Index, owner: Owner): seq<nat> {
    if owner in index then index[owner] else []
  }

  /** The rows before the first hole. */
  function Rows(table: Table): (n: nat)
    ensures n <= |table| && forall slot :: 0 <= slot < n ==> table[slot].Some?
    ensures n < |table| ==> table[n] == None
    ensures n == |table| <==> Full(table)
  {
    if table == [] || table[0] == None then 0
    else
      var n := Rows(table[1..]);
      assert forall slot :: 0 < slot < |table| ==> table[slot] == table[1..][slot - 1];
      n + 1
  }

  function Indexed(table: Table, n: nat): Index
    requires n <= |table| && forall slot :: 0 <= slot < n ==> table[slot].Some?
  {
    if n == 0 then map[]
    else
      var before, owner := Indexed(table, n - 1), First(table[n - 1].value);
      before[owner := SlotsOf(before, owner) + [n - 1]]
  }

  /** The index lists, in order, exactly the slots in which each owner comes first, and nobody without one. */
  ghost predicate InverseTo(index: Index, table: Table, n: nat) {
    && (forall owner, slot: nat :: slot in SlotsOf(index, owner) <==> slot < n && Owns(table, owner, slot))
    && (forall owner :: owner in index ==> index[owner] != [] && Ascending(index[owner]))
  }

  predicate Ascending(slots: seq<nat>) {
    forall i, j :: 0 <= i < j < |slots| ==> slots[i] < slots[j]
  }

  ghost predicate Inverse(index: Index, table: Table) {
    InverseTo(index, table, |table|)
  }

  lemma {:induction false} IndexedIsInverse(table: Table, n: nat)
    requires n <= |table| && forall slot :: 0 <= slot < n ==> table[slot].Some?
    ensures InverseTo(Indexed(table, n), table, n)
    decreases n
  {
    if n > 0 {
      IndexedIsInverse(table, n - 1);
      var before, owner := Indexed(table, n - 1), First(table[n - 1].value);
      var after := Indexed(table, n);
      forall i | 0 <= i < |SlotsOf(before, owner)|
        ensures SlotsOf(before, owner)[i] < n - 1
      {
        assert SlotsOf(before, owner)[i] in SlotsOf(before, owner);
      }
      forall other, slot: nat
        ensures slot in SlotsOf(after, other) <==> slot < n && Owns(table, other, slot)
      {
        assert slot in SlotsOf(before, other) <==> slot < n - 1 && Owns(table, other, slot);
        if other == owner {
          assert SlotsOf(after, other) == SlotsOf(before, owner) + [n - 1];
        }
      }
    }
  }

  datatype Outcome = Unchanged | Rebuilt | Threw

  datatype Refreshed = Refreshed(table: Table, index: Index, outcome: Outcome)

  /** Reading the first node of a hole throws, with the index rebuilt as far as the hole and the table kept. */
  function Refresh(table: Table, index: Index, target: Table): Refreshed {
    if table == target && index != map[] then Refreshed(table, index, Unchanged)
    else if !Full(target) then Refreshed(table, Indexed(target, Rows(target)), Threw)
    else Refreshed(target, Indexed(target, |target|), Rebuilt)
  }

  // ---------- the group ----------

  /** What a resubscribe sends: all channels of a slot, on the subscriber of a node. */
  datatype Subscribe = Subscribe(owner: Owner, slot: nat, channels: seq<string>)

  /**
   `deferred` is what waits for the ready event of a subscriber's connection, with the channels as they were.
   `sent` is what the last resubscribe sent, and `fired` what the last ready event sent. `requested` is the last
   topology asked for and `dropped` whether a stop has discarded it; these are history.
   */
  datatype State = State(subscribers: map<Owner, Sub>, table: Table, index: Index, channels: map<nat, seq<string>>,
                         resetting: bool, pending: Option<Topology>, deferred: set<Subscribe>,
                         sent: set<Subscribe>, fired: set<Subscribe>, requested: Option<Topology>, dropped: bool)

  const Initial := State(map[], [], map[], map[], false, None, {}, {}, {}, None, false)

  predicate Known(nodes: set<Key>, owner: Owner) {
    owner.Some? && owner.value in nodes
  }

  predicate HasChannels(channels: map<nat, seq<string>>, slots: seq<nat>) {
    exists i :: 0 <= i < |slots| && slots[i] in channels && channels[slots[i]] != []
  }

  predicate ShouldStart(s: State, lazy: bool, owner: Owner, sub: Sub) {
    !sub.IsStarted() && (!lazy || HasChannels(s.channels, SlotsOf(s.index, owner)))
  }

  function MaybeStart(s: State, lazy: bool, owner: Owner, sub: Sub): Sub {
    if ShouldStart(s, lazy, owner, sub) then OnStart(sub) else sub
  }

  predicate Kept(s: State, owner: Owner) {
    owner in s.subscribers && s.subscribers[owner].IsHealthy()
  }

  /** Healthy subscribers of owners stay, the others go, and owners without one get a new one if their node is known. */
  function Rearranged(s: State, lazy: bool, nodes: set<Key>): map<Owner, Sub> {
    map owner | owner in s.index && (Kept(s, owner) || Known(nodes, owner)) ::
      MaybeStart(s, lazy, owner, if Kept(s, owner) then s.subscribers[owner] else Fresh)
  }

  /** What waits on subscribers that stay; stopping one removes its listeners. */
  function Waiting(s: State): set<Subscribe> {
    set x | x in s.deferred && x.owner in s.index && Kept(s, x.owner)
  }

  predicate Unhealthy(s: State) {
    (exists k :: k in s.subscribers && !s.subscribers[k].IsHealthy())
    || (exists k :: k in s.index && k !in s.subscribers)
  }

  /** Starting a reset; it is over at once unless subscribers have to be waited for. */
  function Begin(s: State, lazy: bool, to: Topology): State
    decreases if s.pending.Some? then 1 else 0, 1
  {
    var r := Refresh(s.table, s.index, to.table);
    var t := s.(table := r.table, index := r.index);
    if r.outcome == Threw || (r.outcome == Unchanged && !Unhealthy(t)) then Finish(t, lazy)
    else t.(subscribers := Rearranged(t, lazy, to.nodes), deferred := Waiting(t))
  }

  /** The end of a reset: the last topology asked for meanwhile is next. */
  function Finish(s: State, lazy: bool): State
    decreases if s.pending.Some? then 1 else 0, 0
  {
    if s.pending == None then s.(resetting := false)
    else Begin(s.(pending := None, resetting := true), lazy, s.pending.value)
  }

  function OnReset(s: State, lazy: bool, to: Topology): State {
    var t := s.(requested := Some(to), dropped := false);
    if s.resetting then t.(pending := Some(to)) else Begin(t.(resetting := true), lazy, to)
  }

  predicate Live(sub: Sub) {
    sub.instance && sub.link != Shut
  }

  predicate Resubscribes(s: State, owner: Owner, slot: nat) {
    && owner in s.subscribers && Live(s.subscribers[owner]) && slot in SlotsOf(s.index, owner)
    && slot in s.channels && s.channels[slot] != []
  }

  /** What resubscribing sends or puts off, one subscribe for each slot. */
  function Resubscribe(s: State): set<Subscribe> {
    set owner, slot | owner in s.subscribers && slot in s.channels && Resubscribes(s, owner, slot) ::
      Subscribe(owner, slot, s.channels[slot])
  }

  predicate IsOpen(s: State, owner: Owner) {
    owner in s.subscribers && s.subscribers[owner].link == Open
  }

  /** On a connection that is ready a subscribe is sent at once, and otherwise it is put off to the ready event. */
  function Resubscribed(s: State): State {
    s.(sent := (set x | x in Resubscribe(s) && IsOpen(s, x.owner)),
       deferred := s.deferred + (set x | x in Resubscribe(s) && !IsOpen(s, x.owner)))
  }

  /** All the start promises have settled. */
  function OnSettled(s: State, lazy: bool): State {
    Finish(Resubscribed(s), lazy)
  }

  function OnStopAll(s: State): State {
    s.(subscribers := map[], index := map[], pending := None, deferred := {}, dropped := s.dropped || s.pending.Some?)
  }

  predicate SameSlot(channels: seq<string>, slotOf: string -> nat) {
    forall i :: 0 <= i < |channels| ==> slotOf(channels[i]) == slotOf(channels[0])
  }

  function ChannelsOf(s: State, slot: nat): seq<string> {
    if slot in s.channels then s.channels[slot] else []
  }

  function OnAdd(s: State, channels: seq<string>, slotOf: string -> nat): State
    requires channels != []
  {
    if !SameSlot(channels, slotOf) then s
    else s.(channels := s.channels[slotOf(channels[0]) := ChannelsOf(s, slotOf(channels[0])) + channels])
  }

  function Without(from: seq<string>, channels: seq<string>): seq<string> {
    if from == [] then []
    else Without(from[..|from| - 1], channels) + (if from[|from| - 1] in channels then [] else [from[|from| - 1]])
  }

  function OnRemove(s: State, channels: seq<string>, slotOf: string -> nat): State
    requires channels != []
  {
    var slot := slotOf(channels[0]);
    if !SameSlot(channels, slotOf) || slot !in s.channels then s
    else s.(channels := s.channels[slot := Without(s.channels[slot], channels)])
  }

  function On(subscribes: set<Subscribe>, owner: Owner): set<Subscribe> {
    set x | x in subscribes && x.owner == owner
  }

  /** A subscriber's own events. Becoming ready sends what was put off; a stop removes the listeners. */
  function OnSub(s: State, owner: Owner, e: ShardedSubscriber.Event): State {
    if owner !in s.subscribers then s
    else
      var sub := s.subscribers[owner];
      var t := s.(subscribers := s.subscribers[owner := ShardedSubscriber.Step(sub, e)]);
      if e == Ready && sub.instance && sub.link == Opening
      then t.(fired := On(s.deferred, owner), deferred := s.deferred - On(s.deferred, owner))
      else if e == Stop then t.(deferred := s.deferred - On(s.deferred, owner))
      else t
  }

  predicate IsSent(s: State, x: Subscribe) {
    Resubscribes(s, x.owner, x.slot) && x.channels == s.channels[x.slot]
  }

  ghost predicate Holds(subscribers: map<Owner, Sub>, owner: Owner, sub: Option<Sub>) {
    if sub.Some? then owner in subscribers && subscribers[owner] == sub.value else owner !in subscribers
  }

  function KeptSub(s: State, owner: Owner): Option<Sub> {
    if owner in s.index && Kept(s, owner) then Some(s.subscribers[owner]) else None
  }

  function Wanted(s: State, lazy: bool, nodes: set<Key>, owner: Owner): Option<Sub> {
    if owner !in s.index || !(Kept(s, owner) || Known(nodes, owner)) then None
    else Some(MaybeStart(s, lazy, owner, if Kept(s, owner) then s.subscribers[owner] else Fresh))
  }

  lemma SameStart(s: State, t: State, lazy: bool, owner: Owner)
    requires s.channels == t.channels && s.index == t.index
    ensures forall sub :: MaybeStart(s, lazy, owner, sub) == MaybeStart(t, lazy, owner, sub)
  {
  }

  lemma WantedAll(s: State, lazy: bool, nodes: set<Key>, subscribers: map<Owner, Sub>)
    requires forall owner :: Holds(subscribers, owner, Wanted(s, lazy, nodes, owner))
    ensures subscribers == Rearranged(s, lazy, nodes)
  {
    hide MaybeStart, Known;
    forall owner
      ensures owner in subscribers <==> owner in Rearranged(s, lazy, nodes)
      ensures owner in subscribers ==> subscribers[owner] == Rearranged(s, lazy, nodes)[owner]
    {
      assert Holds(subscribers, owner, Wanted(s, lazy, nodes, owner));
    }
  }

  lemma SentIgnored(s: State, sent: set<Subscribe>, deferred: set<Subscribe>)
    ensures forall x :: IsSent(s.(sent := sent, deferred := deferred), x) <==> IsSent(s, x)
    ensures forall owner :: IsOpen(s.(sent := sent, deferred := deferred), owner) <==> IsOpen(s, owner)
  {
  }

  lemma SentAll(s: State, sent: set<Subscribe>, deferred: set<Subscribe>)
    requires forall x :: x in sent <==> x.owner in s.subscribers && IsSent(s, x) && IsOpen(s, x.owner)
    requires forall x :: x in deferred <==>
      x in s.deferred || (x.owner in s.subscribers && IsSent(s, x) && !IsOpen(s, x.owner))
    ensures s.(sent := sent, deferred := deferred) == Resubscribed(s)
  {
    forall x
      ensures x in sent <==> x in Resubscribed(s).sent
      ensures x in deferred <==> x in Resubscribed(s).deferred
    {
      assert IsSent(s, x) ==> x in Resubscribe(s);
    }
  }

  // ---------- the group as an object ----------

  /** How many channels are tracked. */
  ghost function Total(channels: map<nat, seq<string>>): nat {
    if channels == map[] then 0
    else
      var slot :| slot in channels;
      |channels[slot]| + Total(channels - {slot})
  }

  lemma {:induction false} TotalTakesOut(channels: map<nat, seq<string>>, slot: nat)
    requires slot in channels
    ensures Total(channels) == |channels[slot]| + Total(channels - {slot})
    decreases |channels|
  {
    var first :| first in channels && Total(channels) == |channels[first]| + Total(channels - {first});
    if first != slot {
      TotalTakesOut(channels - {first}, slot);
      TotalTakesOut(channels - {slot}, first);
      assert channels - {first} - {slot} == channels - {slot} - {first};
    }
  }

  class Group {
    const lazy: bool
    var shardedSubscribers: map<Owner, Sub>
    var clusterSlots: Table
    var subscriberToSlotsIndex: Index
    var channels: map<nat, seq<string>>
    var isResetting: bool
    var pendingReset: Option<Topology>
    var deferred: set<Subscribe>
    var sent: set<Subscribe>
    var fired: set<Subscribe>
    ghost var requested: Option<Topology>
    ghost var dropped: bool

    ghost function View(): State
      reads this
    {
      State(shardedSubscribers, clusterSlots, subscriberToSlotsIndex, channels, isResetting, pendingReset, deferred,
            sent, fired, requested, dropped)
    }

    constructor (lazy: bool)
      ensures View() == Initial && this.lazy == lazy
    {
      this.lazy := lazy;
      shardedSubscribers, clusterSlots, subscriberToSlotsIndex, channels := map[], [], map[], map[];
      isResetting, pendingReset, deferred, sent, fired := false, None, {}, {}, {};
      requested, dropped := None, false;
    }

    method CountChannels() returns (count: nat)
      ensures count == Total(channels)
    {
      count := 0;
      var left := channels;
      while left != map[]
        invariant count + Total(left) == Total(channels)
        decreases |left|
      {
        var slot :| slot in left;
        TotalTakesOut(left, slot);
        count := count + |left[slot]|;
        left := left - {slot};
      }
    }

    method AllInSlot(names: seq<string>, slotOf: string -> nat) returns (same: bool)
      requires names != []
      ensures same == SameSlot(names, slotOf)
    {
      var slot := slotOf(names[0]);
      for i := 0 to |names|
        invariant forall k :: 0 <= k < i ==> slotOf(names[k]) == slot
      {
        if slotOf(names[i]) != slot {
          return false;
        }
      }
      return true;
    }

    /** None when the channels are not all of one slot, and otherwise the number of channels tracked. */
    method AddChannels(names: seq<string>, slotOf: string -> nat) returns (count: Option<nat>)
      requires names != []
      modifies this`channels
      ensures View() == OnAdd(old(View()), names, slotOf)
      ensures count == if SameSlot(names, slotOf) then Some(Total(old(channels)) + |names|) else None
    {
      var same := AllInSlot(names, slotOf);
      if !same {
        return None;
      }
      var slot := slotOf(names[0]);
      ghost var before := channels;
      if slot in channels {
        TotalTakesOut(before, slot);
        channels := channels[slot := channels[slot] + names];
      } else {
        channels := channels[slot := names];
        assert before - {slot} == before && [] + names == names;
      }
      TotalTakesOut(channels, slot);
      assert channels - {slot} == before - {slot};
      var n := CountChannels();
      count := Some(n);
    }

    method RemoveChannels(names: seq<string>, slotOf: string -> nat) returns (count: Option<nat>)
      requires names != []
      modifies this`channels
      ensures View() == OnRemove(old(View()), names, slotOf)
      ensures count == if SameSlot(names, slotOf) then Some(Total(channels)) else None
    {
      var same := AllInSlot(names, slotOf);
      if !same {
        return None;
      }
      var slot := slotOf(names[0]);
      if slot in channels {
        var left := [];
        var current := channels[slot];
        for i := 0 to |current|
          invariant left == Without(current[..i], names)
        {
          assert current[..i + 1][..i] == current[..i];
          if current[i] !in names {
            left := left + [current[i]];
          }
        }
        assert current[..|current|] == current;
        channels := channels[slot := left];
      }
      var n := CountChannels();
      count := Some(n);
    }

    /** The index is rebuilt in place; reading the first node of a hole throws. */
    method RefreshSlots(target: Table) returns (outcome: Outcome)
      modifies this`clusterSlots, this`subscriberToSlotsIndex
      ensures Refreshed(clusterSlots, subscriberToSlotsIndex, outcome)
          == Refresh(old(clusterSlots), old(subscriberToSlotsIndex), target)
    {
      if clusterSlots == target && subscriberToSlotsIndex != map[] {
        return Unchanged;
      }
      subscriberToSlotsIndex := map[];
      for slot := 0 to |target|
        invariant forall k :: 0 <= k < slot ==> target[k].Some?
        invariant subscriberToSlotsIndex == Indexed(target, slot) && clusterSlots == old(clusterSlots)
      {
        if target[slot] == None {
          return Threw;
        }
        var node := First(target[slot].value);
        if node !in subscriberToSlotsIndex {
          subscriberToSlotsIndex := subscriberToSlotsIndex[node := []];
        }
        subscriberToSlotsIndex := subscriberToSlotsIndex[node := subscriberToSlotsIndex[node] + [slot]];
      }
      clusterSlots := target;
      return Rebuilt;
    }

    method BeginReset(to: Topology)
      modifies this
      ensures View() == Begin(old(View()), lazy, to)
      decreases if pendingReset.Some? then 1 else 0, 1
    {
      hide Rearranged, Refresh;
      var outcome := RefreshSlots(to.table);
      if outcome == Threw {
        FinishReset();
        return;
      }
      var unhealthy := (exists k :: k in shardedSubscribers && !shardedSubscribers[k].IsHealthy())
        || (exists k :: k in subscriberToSlotsIndex && k !in shardedSubscribers);
      if outcome == Unchanged && !unhealthy {
        FinishReset();
        return;
      }
      Rearrange(to.nodes);
    }

    method FinishReset()
      modifies this
      ensures View() == Finish(old(View()), lazy)
      decreases if pendingReset.Some? then 1 else 0, 0
    {
      isResetting := false;
      if pendingReset.Some? {
        var to := pendingReset.value;
        pendingReset := None;
        isResetting := true;
        BeginReset(to);
      }
    }

    /** Subscribers that are not needed or not healthy are stopped, with what waits on them, and removed. */
    method RemoveUnneeded()
      modifies this`shardedSubscribers, this`deferred
      ensures deferred == set x | x in old(deferred) && x.owner in subscriberToSlotsIndex && Kept(old(View()), x.owner)
      ensures shardedSubscribers ==
        map k | k in old(shardedSubscribers) && k in subscriberToSlotsIndex && old(shardedSubscribers)[k].IsHealthy() ::
          old(shardedSubscribers)[k]
    {
      ghost var before := shardedSubscribers;
      var keys := shardedSubscribers.Keys;
      var waiting := set x | x in deferred && x.owner in keys;
      while keys != {}
        invariant keys <= before.Keys
        invariant shardedSubscribers ==
          map k | k in before && (k in keys || (k in subscriberToSlotsIndex && before[k].IsHealthy())) :: before[k]
        invariant forall x ::
          x in waiting <==> x in old(deferred) && x.owner in shardedSubscribers
        decreases |keys|
      {
        var key :| key in keys;
        if !(key in subscriberToSlotsIndex && shardedSubscribers[key].IsHealthy()) {
          shardedSubscribers := shardedSubscribers - {key};
          waiting := waiting - On(waiting, key);
        }
        keys := keys - {key};
      }
      deferred := waiting;
    }

    method ShouldStartSubscriber(owner: Owner, sub: Sub) returns (start: bool)
      ensures start == ShouldStart(View(), lazy, owner, sub)
    {
      if sub.IsStarted() {
        return false;
      }
      if !lazy {
        return true;
      }
      if owner !in subscriberToSlotsIndex {
        return false;
      }
      var slots := subscriberToSlotsIndex[owner];
      for i := 0 to |slots|
        invariant forall k :: 0 <= k < i ==> !(slots[k] in channels && channels[slots[k]] != [])
      {
        if slots[i] in channels && channels[slots[i]] != [] {
          return true;
        }
      }
      return false;
    }

    /** The subscriber an owner is to have, started when it should be. */
    method Supply(owner: Owner, nodes: set<Key>) returns (sub: Option<Sub>)
      ensures sub ==
        if owner in shardedSubscribers then Some(MaybeStart(View(), lazy, owner, shardedSubscribers[owner]))
        else if Known(nodes, owner) then Some(MaybeStart(View(), lazy, owner, Fresh))
        else None
    {
      var candidate := Fresh;
      if owner in shardedSubscribers {
        candidate := shardedSubscribers[owner];
      } else if !(owner.Some? && owner.value in nodes) {
        return None;
      }
      var begin := ShouldStartSubscriber(owner, candidate);
      if begin {
        candidate := OnStart(candidate);
      }
      return Some(candidate);
    }

    /** Supplying every owner in the index, when only the subscribers that are kept are left of those from `start`. */
    method SupplyAll(ghost start: State, nodes: set<Key>)
      requires start.channels == channels && start.index == subscriberToSlotsIndex
      requires forall k :: Holds(shardedSubscribers, k, KeptSub(start, k))
      modifies this`shardedSubscribers
      ensures forall k :: Holds(shardedSubscribers, k, Wanted(start, lazy, nodes, k))
    {
      hide MaybeStart, Known, Kept;
      ghost var kept := shardedSubscribers;
      var keys := subscriberToSlotsIndex.Keys;
      while keys != {}
        invariant keys <= start.index.Keys
        invariant forall k :: k in keys || k !in start.index ==>
                    Holds(shardedSubscribers, k, KeptSub(start, k))
        invariant forall k :: k in start.index && k !in keys ==>
          Holds(shardedSubscribers, k, Wanted(start, lazy, nodes, k))
        decreases |keys|
      {
        var key :| key in keys;
        assert Holds(shardedSubscribers, key, KeptSub(start, key));
        var sub := Supply(key, nodes);
        SameStart(start, View(), lazy, key);
        assert sub == Wanted(start, lazy, nodes, key);
        if sub.Some? {
          shardedSubscribers := shardedSubscribers[key := sub.value];
        }
        keys := keys - {key};
      }
    }

    method Rearrange(nodes: set<Key>)
      modifies this`shardedSubscribers, this`deferred
      ensures View() == old(View()).(subscribers := Rearranged(old(View()), lazy, nodes),
                                     deferred := Waiting(old(View())))
    {
      hide Rearranged, Wanted;
      RemoveUnneeded();
      SupplyAll(old(View()), nodes);
      WantedAll(old(View()), lazy, nodes, shardedSubscribers);
    }

    method ResetTo(to: Topology)
      modifies this
      ensures View() == OnReset(old(View()), lazy, to)
    {
      requested, dropped := Some(to), false;
      if isResetting {
        pendingReset := Some(to);
        return;
      }
      isResetting := true;
      BeginReset(to);
    }

    /** What is sent or put off on the subscriber of one owner, slot by slot. */
    method ResubscribeOn(owner: Owner)
      requires owner in shardedSubscribers
      modifies this`sent, this`deferred
      ensures forall x ::
        x in sent <==> x in old(sent) || (x.owner == owner && IsSent(old(View()), x) && IsOpen(old(View()), owner))
      ensures forall x ::
        x in deferred <==>
          x in old(deferred) || (x.owner == owner && IsSent(old(View()), x) && !IsOpen(old(View()), owner))
    {
      var slots := if owner in subscriberToSlotsIndex then subscriberToSlotsIndex[owner] else [];
      var sub := shardedSubscribers[owner];
      for i := 0 to |slots|
        invariant forall x ::
          x in sent <==>
            x in old(sent) || (x.owner == owner && x.slot in slots[..i] && IsSent(old(View()), x) && sub.link == Open)
        invariant forall x ::
          x in deferred <==>
            x in old(deferred)
            || (x.owner == owner && x.slot in slots[..i] && IsSent(old(View()), x) && sub.link != Open)
      {
        assert slots[..i + 1] == slots[..i] + [slots[i]];
        if slots[i] in channels && channels[slots[i]] != [] && sub.instance && sub.link != Shut {
          var subscribe := Subscribe(owner, slots[i], channels[slots[i]]);
          if sub.link == Open {
            sent := sent + {subscribe};
          } else {
            deferred := deferred + {subscribe};
          }
        }
      }
      assert slots[..|slots|] == slots;
    }

    /** Every subscriber that is live resubscribes. */
    method ResubscribeAll()
      modifies this`sent, this`deferred
      ensures View() == Resubscribed(old(View()))
    {
      hide Resubscribes, Resubscribed;
      sent := {};
      ghost var start := old(View());
      var keys := shardedSubscribers.Keys;
      while keys != {}
        invariant keys <= shardedSubscribers.Keys
        invariant View() == start.(sent := sent, deferred := deferred)
        invariant forall x ::
          x in sent <==> x.owner in shardedSubscribers.Keys - keys && IsSent(start, x) && IsOpen(start, x.owner)
        invariant forall x ::
          x in deferred <==>
            x in start.deferred
            || (x.owner in shardedSubscribers.Keys - keys && IsSent(start, x) && !IsOpen(start, x.owner))
        decreases |keys|
      {
        var key :| key in keys;
        SentIgnored(start, sent, deferred);
        ResubscribeOn(key);
        keys := keys - {key};
      }
      SentAll(start, sent, deferred);
    }

    /** Running the listeners that were put on the connection of a subscriber. */
    method FireDeferred(owner: Owner)
      modifies this`fired, this`deferred
      ensures fired == On(old(deferred), owner) && deferred == old(deferred) - fired
    {
      var left, mine := deferred, {};
      while left != {}
        invariant left <= deferred && mine == On(deferred - left, owner)
        decreases |left|
      {
        var x :| x in left;
        if x.owner == owner {
          mine := mine + {x};
        }
        left := left - {x};
      }
      assert deferred - {} == deferred;
      fired, deferred := mine, deferred - mine;
    }

    method SubscriberReady(owner: Owner)
      requires owner in shardedSubscribers && shardedSubscribers[owner].instance
      requires shardedSubscribers[owner].link == Opening
      modifies this`shardedSubscribers, this`fired, this`deferred
      ensures View() == OnSub(old(View()), owner, Ready)
    {
      hide On;
      shardedSubscribers := shardedSubscribers[owner := shardedSubscribers[owner].(link := Open)];
      FireDeferred(owner);
    }

    /** The start promises have settled. */
    method StartsSettled()
      modifies this
      ensures View() == OnSettled(old(View()), lazy)
    {
      ResubscribeAll();
      FinishReset();
    }

    method StopGroup()
      modifies this
      ensures View() == OnStopAll(old(View()))
    {
      dropped := dropped || pendingReset.Some?;
      pendingReset := None;
      shardedSubscribers, subscriberToSlotsIndex, deferred := map[], map[], {};
    }
  }

  datatype Event =
    | Reset(to: Topology)
    | Settled
    | StopAll
    | Add(channels: seq<string>)
    | Remove(channels: seq<string>)
    | OfSubscriber(owner: Owner, event: ShardedSubscriber.Event)

  predicate Enabled(s: State, e: Event) {
    match e
    case Settled => s.resetting
    case Add(channels) => channels != []
    case Remove(channels) => channels != []
    case _ => true
  }

  function Step(s: State, e: Event, lazy: bool, slotOf: string -> nat): State
    requires Enabled(s, e)
  {
    match e
    case Reset(to) => OnReset(s, lazy, to)
    case Settled => OnSettled(s, lazy)
    case StopAll => OnStopAll(s)
    case Add(channels) => OnAdd(s, channels, slotOf)
    case Remove(channels) => OnRemove(s, channels, slotOf)
    case OfSubscriber(owner, event) => OnSub(s, owner, event)
  }

  ghost predicate Reaches(s: State, events: seq<Event>, t: State, lazy: bool, slotOf: string -> nat)
    decreases |events|
  {
    if events == [] then s == t
    else Enabled(s, events[0]) && Reaches(Step(s, events[0], lazy, slotOf), events[1..], t, lazy, slotOf)
  }

  // ---------- what holds in every reachable state ----------

  /** Tracked channels lie under their own slot. */
  ghost predicate Placed(s: State, slotOf: string -> nat) {
    forall slot :: slot in s.channels ==> forall c :: c in s.channels[slot] ==> slotOf(c) == slot
  }

  /** The last request is waiting, or applied, or could not be applied, or was discarded by a stop. */
  ghost predicate Follows(s: State) {
    && (s.pending.Some? ==> s.resetting && s.pending == s.requested && !s.dropped)
    && (s.pending == None && s.requested.Some? && !s.dropped ==>
          (s.table == s.requested.value.table || !Full(s.requested.value.table)))
  }

  /** Every subscribe that has been sent or put off is of channels of its slot; one that waits has its subscriber. */
  ghost predicate SentRight(s: State, slotOf: string -> nat) {
    && (forall x :: x in s.sent + s.fired + s.deferred ==> forall c :: c in x.channels ==> slotOf(c) == x.slot)
    && (forall x :: x in s.deferred ==> x.owner in s.subscribers)
  }

  ghost predicate Inv(s: State, slotOf: string -> nat) {
    Full(s.table) && Follows(s) && Placed(s, slotOf) && SentRight(s, slotOf)
  }

  lemma RefreshIs(s: State, target: Table)
    requires Full(s.table)
    ensures var r := Refresh(s.table, s.index, target);
            Full(r.table) && (r.outcome == Threw <==> !Full(target)) && (r.outcome != Threw ==> r.table == target)
  {
  }

  /** What `Begin` and `Finish` leave alone, and of what waits they may drop some. */
  predicate SameRest(s: State, t: State) {
    t.channels == s.channels && t.sent == s.sent && t.fired == s.fired && t.requested == s.requested
    && t.dropped == s.dropped && t.deferred <= s.deferred && (Held(s) ==> Held(t))
  }

  /** What waits does so on a subscriber of the group. */
  predicate Held(s: State) {
    forall x :: x in s.deferred ==> x.owner in s.subscribers
  }

  lemma {:induction false} BeginKeeps(s: State, lazy: bool, to: Topology)
    requires Full(s.table) && s.resetting && !s.dropped
    requires if s.pending.Some? then s.pending == s.requested else s.requested == Some(to)
    ensures var t := Begin(s, lazy, to); Full(t.table) && Follows(t) && SameRest(s, t)
    decreases if s.pending.Some? then 1 else 0, 1
  {
    hide Unhealthy, Full, Inverse, MaybeStart;
    RefreshIs(s, to.table);
    var r := Refresh(s.table, s.index, to.table);
    var t := s.(table := r.table, index := r.index);
    if r.outcome == Threw || (r.outcome == Unchanged && !Unhealthy(t)) {
      FinishKeeps(t, lazy);
    }
  }

  lemma {:induction false} FinishKeeps(s: State, lazy: bool)
    requires Full(s.table) && s.resetting
    requires s.pending.Some? ==> s.pending == s.requested && !s.dropped
    requires s.pending == None && s.requested.Some? && !s.dropped ==>
        s.table == s.requested.value.table || !Full(s.requested.value.table)
    ensures var t := Finish(s, lazy); Full(t.table) && Follows(t) && SameRest(s, t)
    decreases if s.pending.Some? then 1 else 0, 0
  {
    hide Full, Inverse;
    if s.pending.Some? {
      BeginKeeps(s.(pending := None, resetting := true), lazy, s.pending.value);
    }
  }

  lemma {:induction false} WithoutIn(from: seq<string>, channels: seq<string>)
    ensures forall c :: c in Without(from, channels) <==> c in from && c !in channels
    decreases |from|
  {
    if from != [] {
      WithoutIn(from[..|from| - 1], channels);
      assert from == from[..|from| - 1] + [from[|from| - 1]];
    }
  }

  lemma AddPlaces(s: State, channels: seq<string>, slotOf: string -> nat)
    requires Placed(s, slotOf) && channels != []
    ensures Placed(OnAdd(s, channels, slotOf), slotOf) && Placed(OnRemove(s, channels, slotOf), slotOf)
  {
    WithoutIn(ChannelsOf(s, slotOf(channels[0])), channels);
    if SameSlot(channels, slotOf) {
      forall c | c in channels
        ensures slotOf(c) == slotOf(channels[0])
      {
        var i :| 0 <= i < |channels| && channels[i] == c;
      }
    }
  }

  lemma ResubscribeIsRight(s: State, slotOf: string -> nat)
    requires Placed(s, slotOf)
    ensures forall x :: x in Resubscribe(s) ==> forall c :: c in x.channels ==> slotOf(c) == x.slot
    ensures Held(s) ==> Held(Resubscribed(s))
  {
  }

  lemma StepKeepsInv(s: State, e: Event, lazy: bool, slotOf: string -> nat)
    requires Inv(s, slotOf) && Enabled(s, e)
    ensures Inv(Step(s, e, lazy, slotOf), slotOf)
  {
    hide Begin, Finish, Full, Inverse, Placed, Without, Resubscribe;
    match e
    case Reset(to) =>
      if !s.resetting {
        BeginKeeps(s.(requested := Some(to), dropped := false, resetting := true), lazy, to);
        SamePlaced(s, Step(s, e, lazy, slotOf), slotOf);
      } else {
        SamePlaced(s, Step(s, e, lazy, slotOf), slotOf);
      }
    case Settled =>
      ResubscribeIsRight(s, slotOf);
      FinishKeeps(Resubscribed(s), lazy);
      SamePlaced(s, Step(s, e, lazy, slotOf), slotOf);
    case StopAll => SamePlaced(s, Step(s, e, lazy, slotOf), slotOf);
    case Add(channels) => AddPlaces(s, channels, slotOf);
    case Remove(channels) => AddPlaces(s, channels, slotOf);
    case OfSubscriber(_, _) => SamePlaced(s, Step(s, e, lazy, slotOf), slotOf);
  }

  lemma SamePlaced(s: State, t: State, slotOf: string -> nat)
    requires Placed(s, slotOf) && t.channels == s.channels
    ensures Placed(t, slotOf)
  {
  }

  lemma {:induction false} ReachesKeepsInv(s: State, events: seq<Event>, t: State, lazy: bool, slotOf: string -> nat)
    requires Inv(s, slotOf) && Reaches(s, events, t, lazy, slotOf)
    ensures Inv(t, slotOf)
    decreases |events|
  {
    hide Inv, Step;
    if events != [] {
      StepKeepsInv(s, events[0], lazy, slotOf);
      ReachesKeepsInv(Step(s, events[0], lazy, slotOf), events[1..], t, lazy, slotOf);
    }
  }

  lemma ReachableInv(events: seq<Event>, s: State, lazy: bool, slotOf: string -> nat)
    requires Reaches(Initial, events, s, lazy, slotOf)
    ensures Inv(s, slotOf)
  {
    assert Inv(Initial, slotOf);
    ReachesKeepsInv(Initial, events, s, lazy, slotOf);
  }

  /**
   When resets have gone idle and no stop has discarded the last one, the last topology asked for is the
   one applied, if and only if its table has no hole.
   */
  lemma LastResetWins(events: seq<Event>, s: State, lazy: bool, slotOf: string -> nat)
    requires Reaches(Initial, events, s, lazy, slotOf)
    requires !s.resetting && s.requested.Some? && !s.dropped
    ensures s.table == s.requested.value.table <==> Full(s.requested.value.table)
  {
    ReachableInv(events, s, lazy, slotOf);
  }

  /** Tracked channels lie under their own slot in every reachable state. */
  lemma ChannelsLieUnderTheirSlot(events: seq<Event>, s: State, lazy: bool, slotOf: string -> nat)
    requires Reaches(Initial, events, s, lazy, slotOf)
    ensures Placed(s, slotOf)
  {
    ReachableInv(events, s, lazy, slotOf);
  }

  // ---------- when the index is the inverse ----------

  /** The index is empty, as after a stop, or the exact inverse of the table's first column. */
  ghost predicate Exact(index: Index, table: Table) {
    index == map[] || Inverse(index, table)
  }

  /**
   A table that can be asked for without harm to the index: the part before its first hole says what the old one
   says.
   */
  predicate Harmless(table: Table, target: Table)
    requires Full(table)
  {
    || Full(target)
    || Rows(target) == 0
    || (Rows(target) == |table|
        && forall slot :: 0 <= slot < |table| ==> First(target[slot].value) == First(table[slot].value))
  }

  lemma PartialIsInverseIff(table: Table, target: Table)
    requires Full(table)
    ensures Exact(Indexed(target, Rows(target)), table)
       <==> Rows(target) == 0
            || (Rows(target) == |table|
                && forall slot :: 0 <= slot < |table| ==> First(target[slot].value) == First(table[slot].value))
  {
    var n := Rows(target);
    var index := Indexed(target, n);
    IndexedIsInverse(target, n);
    if n > 0 {
      assert Owns(target, First(target[0].value), 0) && 0 in SlotsOf(index, First(target[0].value));
      if Inverse(index, table) {
        SameColumns(table, target, n, index);
      } else if n == |table| && forall slot :: 0 <= slot < |table| ==>
        First(target[slot].value) == First(table[slot].value) {
        forall owner, slot: nat
          ensures slot in SlotsOf(index, owner) <==> slot < |table| && Owns(table, owner, slot)
        {
          assert slot in SlotsOf(index, owner) <==> slot < n && Owns(target, owner, slot);
        }
        assert false;
      }
    }
  }

  lemma SameColumns(table: Table, target: Table, n: nat, index: Index)
    requires Full(table) && n <= |target| && forall slot :: 0 <= slot < n ==> target[slot].Some?
    requires InverseTo(index, target, n) && Inverse(index, table)
    ensures n == |table| && forall slot :: 0 <= slot < |table| ==> First(target[slot].value) == First(table[slot].value)
  {
    forall slot | 0 <= slot < n
      ensures slot < |table| && First(target[slot].value) == First(table[slot].value)
    {
      var owner := First(target[slot].value);
      assert Owns(target, owner, slot) && slot in SlotsOf(index, owner);
      assert Owns(table, owner, slot);
    }
    assert n > 0 ==> target[n - 1].Some? && n - 1 < |table|;
    if n < |table| {
      assert Owns(table, First(table[n].value), n);
      assert false;
    }
  }

  /**
   A refresh leaves the index exact if and only if the table asked for is harmless; asking for the current
   table again leaves it as it was.
   */
  lemma RefreshKeepsExactIff(table: Table, index: Index, target: Table)
    requires Full(table)
    ensures var r := Refresh(table, index, target);
            Exact(r.index, r.table) <==>
              if table == target && index != map[] then Exact(index, table) else Harmless(table, target)
  {
    hide Exact, Inverse;
    if Full(target) {
      RebuiltIsExact(target);
    } else {
      PartialIsInverseIff(table, target);
    }
  }

  lemma RebuiltIsExact(target: Table)
    requires Full(target)
    ensures Exact(Indexed(target, |target|), target)
  {
    IndexedIsInverse(target, |target|);
  }

  /** The topology that an event makes the group refresh to, if any. */
  function Applies(s: State, e: Event): Option<Topology> {
    if e.Reset? && !s.resetting then Some(e.to) else if e.Settled? then s.pending else None
  }

  /** Whether the index is exact after an event, from whether it was before. */
  predicate ExactAfter(s: State, e: Event, exact: bool)
    requires Full(s.table)
  {
    if e.StopAll? then true
    else
      var to := Applies(s, e);
      if to == None || (s.table == to.value.table && s.index != map[]) then exact else Harmless(s.table, to.value.table)
  }

  /** A refresh with nothing pending behind it. */
  lemma BeginRefreshes(s: State, lazy: bool, to: Topology)
    requires s.pending == None
    ensures var r, t := Refresh(s.table, s.index, to.table), Begin(s, lazy, to);
            t.index == r.index && t.table == r.table && t.pending == None
  {
  }

  lemma StepExactIff(s: State, e: Event, lazy: bool, slotOf: string -> nat)
    requires Inv(s, slotOf) && Enabled(s, e)
    ensures var t := Step(s, e, lazy, slotOf);
            Exact(t.index, t.table) <==> ExactAfter(s, e, Exact(s.index, s.table))
  {
    hide Begin, Exact, Harmless, Full, Placed, Resubscribe, Without, Refresh;
    match e
    case Reset(to) =>
      if !s.resetting {
        RefreshKeepsExactIff(s.table, s.index, to.table);
        BeginRefreshes(s.(requested := Some(to), dropped := false, resetting := true), lazy, to);
      }
    case Settled =>
      if s.pending.Some? {
        RefreshKeepsExactIff(s.table, s.index, s.pending.value.table);
        BeginRefreshes(Resubscribed(s).(pending := None, resetting := true), lazy, s.pending.value);
      }
    case StopAll => EmptyIsExact(s.table);
    case Add(_) =>
    case Remove(_) =>
    case OfSubscriber(_, _) =>
  }

  lemma EmptyIsExact(table: Table)
    ensures Exact(map[], table)
  {
  }

  /** No table asked for on the way has done harm that was not made good by a later one or by a stop. */
  ghost predicate Unharmed(s: State, events: seq<Event>, exact: bool, lazy: bool, slotOf: string -> nat)
    decreases |events|
  {
    if events == [] then exact
    else
      && Full(s.table) && Enabled(s, events[0])
      && Unharmed(Step(s, events[0], lazy, slotOf), events[1..], ExactAfter(s, events[0], exact), lazy, slotOf)
  }

  lemma {:induction false} RunExactIff(s: State, events: seq<Event>, t: State, lazy: bool, slotOf: string -> nat)
    requires Inv(s, slotOf) && Reaches(s, events, t, lazy, slotOf)
    ensures Exact(t.index, t.table) <==> Unharmed(s, events, Exact(s.index, s.table), lazy, slotOf)
    decreases |events|
  {
    hide Step, Exact, Harmless, Placed, SentRight, Follows;
    if events != [] {
      StepKeepsInv(s, events[0], lazy, slotOf);
      StepExactIff(s, events[0], lazy, slotOf);
      RunExactIff(Step(s, events[0], lazy, slotOf), events[1..], t, lazy, slotOf);
    }
  }

  /**
   In a reachable state the index is empty or the exact inverse of the table's first column, if and only if
   every table that did harm was followed by a harmless other one or by a stop.
   */
  lemma IndexIsInverseIff(events: seq<Event>, s: State, lazy: bool, slotOf: string -> nat)
    requires Reaches(Initial, events, s, lazy, slotOf)
    ensures Exact(s.index, s.table) <==> Unharmed(Initial, events, true, lazy, slotOf)
  {
    hide Reaches;
    InitialInv(slotOf);
    RunExactIff(Initial, events, s, lazy, slotOf);
  }

  lemma InitialInv(slotOf: string -> nat)
    ensures Inv(Initial, slotOf)
  {
  }

  /** Every table asked for covers all its slots. */
  predicate AllFull(events: seq<Event>) {
    forall e :: e in events && e.Reset? ==> Full(e.to.table)
  }

  lemma {:induction false} FullRunIsUnharmed(s: State, events: seq<Event>, t: State, lazy: bool, slotOf: string -> nat)
    requires Inv(s, slotOf) && Reaches(s, events, t, lazy, slotOf) && AllFull(events)
    requires s.pending.Some? ==> Full(s.pending.value.table)
    ensures Unharmed(s, events, true, lazy, slotOf)
    decreases |events|
  {
    hide Step, Placed, SentRight, Full;
    if events != [] {
      var e, u := events[0], Step(s, events[0], lazy, slotOf);
      assert e in events && forall x :: x in events[1..] ==> x in events;
      StepKeepsInv(s, e, lazy, slotOf);
      PendingStaysFull(s, e, lazy, slotOf);
      assert ExactAfter(s, e, true);
      FullRunIsUnharmed(u, events[1..], t, lazy, slotOf);
    }
  }

  lemma PendingStaysFull(s: State, e: Event, lazy: bool, slotOf: string -> nat)
    requires Enabled(s, e) && (s.pending.Some? ==> Full(s.pending.value.table)) && (e.Reset? ==> Full(e.to.table))
    requires s.pending.Some? ==> s.resetting
    ensures var t := Step(s, e, lazy, slotOf); t.pending.Some? ==> Full(t.pending.value.table)
  {
    hide Full, Resubscribe, Without, Begin;
    if e.Reset? && !s.resetting {
      BeginRefreshes(s.(requested := Some(e.to), dropped := false, resetting := true), lazy, e.to);
    } else if e.Settled? && s.pending.Some? {
      BeginRefreshes(Resubscribed(s).(pending := None, resetting := true), lazy, s.pending.value);
    }
  }

  /** As long as every table asked for is full, the index is empty or exact in every reachable state. */
  lemma FullTablesKeepIndexExact(events: seq<Event>, s: State, lazy: bool, slotOf: string -> nat)
    requires Reaches(Initial, events, s, lazy, slotOf) && AllFull(events)
    ensures Unharmed(Initial, events, true, lazy, slotOf) && Exact(s.index, s.table)
  {
    hide Reaches, Unharmed, Exact;
    InitialInv(slotOf);
    FullRunIsUnharmed(Initial, events, s, lazy, slotOf);
    IndexIsInverseIff(events, s, lazy, slotOf);
  }

  // ---------- resubscribing ----------

  /**
   Unless harm was done, every subscribe that a resubscribe sends or puts off is of channels of one slot, on the
   node that comes first for that slot then; whatever was done, it is of channels of one slot.
   */
  lemma ResubscribesGoToOwners(events: seq<Event>, s: State, lazy: bool, slotOf: string -> nat, x: Subscribe)
    requires Reaches(Initial, events, s, lazy, slotOf) && x in Resubscribe(s)
    ensures x.owner in s.subscribers && x.slot in s.channels && x.channels == s.channels[x.slot] != []
    ensures forall c :: c in x.channels ==> slotOf(c) == x.slot
    ensures Unharmed(Initial, events, true, lazy, slotOf) ==> Owns(s.table, x.owner, x.slot)
  {
    hide Reaches, Unharmed;
    ReachableInv(events, s, lazy, slotOf);
    ResubscribeIsRight(s, slotOf);
    IndexIsInverseIff(events, s, lazy, slotOf);
    assert Resubscribes(s, x.owner, x.slot);
  }

  /**
   And then nothing is left out: every slot with channels whose owner has a live subscriber is resubscribed, at
   once if and only if its connection is ready.
   */
  lemma ResubscribesAll(events: seq<Event>, s: State, lazy: bool, slotOf: string -> nat, owner: Owner, slot: nat)
    requires Reaches(Initial, events, s, lazy, slotOf) && Unharmed(Initial, events, true, lazy, slotOf)
        && s.index != map[]
    requires Owns(s.table, owner, slot) && owner in s.subscribers && Live(s.subscribers[owner])
    requires slot in s.channels && s.channels[slot] != []
    ensures var x := Subscribe(owner, slot, s.channels[slot]);
            && (x in Resubscribed(s).sent <==> s.subscribers[owner].link == Open)
            && (s.subscribers[owner].link != Open ==> x in Resubscribed(s).deferred)
  {
    hide Reaches, Unharmed;
    IndexIsInverseIff(events, s, lazy, slotOf);
    assert Resubscribes(s, owner, slot);
    assert Subscribe(owner, slot, s.channels[slot]) in Resubscribe(s);
  }

  // ---------- subscribes that are put off ----------

  /** The table after an event: the one it makes the group refresh to, unless that has a hole. */
  function TableAfter(s: State, e: Event): Table {
    var to := Applies(s, e);
    if to.Some? && Full(to.value.table) then to.value.table else s.table
  }

  lemma StepTable(s: State, e: Event, lazy: bool, slotOf: string -> nat)
    requires Inv(s, slotOf) && Enabled(s, e)
    ensures Step(s, e, lazy, slotOf).table == TableAfter(s, e)
  {
    hide Begin, Full, Placed, Resubscribe, Without, Rows, Indexed, Unhealthy;
    if e.Reset? && !s.resetting {
      BeginRefreshes(s.(requested := Some(e.to), dropped := false, resetting := true), lazy, e.to);
    } else if e.Settled? && s.pending.Some? {
      BeginRefreshes(Resubscribed(s).(pending := None, resetting := true), lazy, s.pending.value);
    }
  }

  /** Whether an owner comes first in a slot after a run: the last full table refreshed to decides. */
  ghost predicate StillFirst(s: State, events: seq<Event>, owner: Owner, slot: nat, first: bool, lazy: bool,
                             slotOf: string -> nat)
    decreases |events|
  {
    if events == [] then first
    else
      && Enabled(s, events[0])
      && StillFirst(Step(s, events[0], lazy, slotOf), events[1..], owner, slot,
                    Owns(TableAfter(s, events[0]), owner, slot), lazy, slotOf)
  }

  lemma {:induction false} RunOwnsIff(s: State, events: seq<Event>, t: State, lazy: bool, slotOf: string -> nat,
                                      owner: Owner, slot: nat)
    requires Inv(s, slotOf) && Reaches(s, events, t, lazy, slotOf)
    ensures Owns(t.table, owner, slot)
       <==> StillFirst(s, events, owner, slot, Owns(s.table, owner, slot), lazy, slotOf)
    decreases |events|
  {
    hide Step, Inv, Owns, TableAfter;
    if events != [] {
      StepKeepsInv(s, events[0], lazy, slotOf);
      StepTable(s, events[0], lazy, slotOf);
      RunOwnsIff(Step(s, events[0], lazy, slotOf), events[1..], t, lazy, slotOf, owner, slot);
    }
  }

  /** The channels tracked in a slot after a run of events. */
  function ChannelsAfter(tracked: seq<string>, events: seq<Event>, slot: nat, slotOf: string -> nat): seq<string>
    decreases |events|
  {
    if events == [] then tracked
    else ChannelsAfter(ChannelsThen(tracked, events[0], slot, slotOf), events[1..], slot, slotOf)
  }

  function ChannelsThen(tracked: seq<string>, e: Event, slot: nat, slotOf: string -> nat): seq<string> {
    match e
    case Add(names) =>
      if names != [] && SameSlot(names, slotOf) && slotOf(names[0]) == slot then tracked + names else tracked
    case Remove(names) =>
      if names != [] && SameSlot(names, slotOf) && slotOf(names[0]) == slot then Without(tracked, names) else tracked
    case _ => tracked
  }

  lemma StepChannels(s: State, e: Event, lazy: bool, slotOf: string -> nat, slot: nat)
    requires Inv(s, slotOf) && Enabled(s, e)
    ensures ChannelsOf(Step(s, e, lazy, slotOf), slot) == ChannelsThen(ChannelsOf(s, slot), e, slot, slotOf)
  {
    hide Begin, Finish, Full, Placed, Resubscribe, SentRight;
    match e
    case Reset(to) =>
      if !s.resetting {
        BeginKeeps(s.(requested := Some(to), dropped := false, resetting := true), lazy, to);
      }
    case Settled => FinishKeeps(Resubscribed(s), lazy);
    case _ =>
  }

  lemma {:induction false} RunChannels(s: State, events: seq<Event>, t: State, lazy: bool, slotOf: string -> nat,
                                       slot: nat)
    requires Inv(s, slotOf) && Reaches(s, events, t, lazy, slotOf)
    ensures ChannelsOf(t, slot) == ChannelsAfter(ChannelsOf(s, slot), events, slot, slotOf)
    decreases |events|
  {
    hide Step, Inv, ChannelsOf, ChannelsThen;
    if events != [] {
      StepKeepsInv(s, events[0], lazy, slotOf);
      StepChannels(s, events[0], lazy, slotOf, slot);
      RunChannels(Step(s, events[0], lazy, slotOf), events[1..], t, lazy, slotOf, slot);
    }
  }

  /**
   A subscribe that was put off and still waits when its connection becomes ready is sent then, as it was put off.
   If no harm had been done, it reaches the node that comes first for its slot if and only if the last full table
   refreshed to since, if any, still has that node first; and it is of the channels then tracked if and only if
   those added to and removed from the slot since have made no difference.
   */
  lemma DeferredReachesOwnerIff(events: seq<Event>, s: State, later: seq<Event>, u: State, lazy: bool,
                                slotOf: string -> nat, x: Subscribe)
    requires Reaches(Initial, events, s, lazy, slotOf) && s.resetting && x in Resubscribe(s) && !IsOpen(s, x.owner)
    requires Reaches(s, [Settled] + later, u, lazy, slotOf) && x in u.deferred
    requires x.owner in u.subscribers && u.subscribers[x.owner].instance && u.subscribers[x.owner].link == Opening
    ensures x in OnSub(u, x.owner, Ready).fired
    ensures Unharmed(Initial, events, true, lazy, slotOf) ==>
      (Owns(u.table, x.owner, x.slot) <==> StillFirst(s, [Settled] + later, x.owner, x.slot, true, lazy, slotOf))
    ensures x.channels == ChannelsOf(u, x.slot) <==> ChannelsAfter(x.channels, later, x.slot, slotOf) == x.channels
  {
    hide Reaches, Unharmed, StillFirst, Resubscribe, Inv, Owns, ChannelsAfter;
    ReachableInv(events, s, lazy, slotOf);
    ResubscribesGoToOwners(events, s, lazy, slotOf, x);
    RunOwnsIff(s, [Settled] + later, u, lazy, slotOf, x.owner, x.slot);
    RunChannels(s, [Settled] + later, u, lazy, slotOf, x.slot);
    SettledFirst(x.channels, later, x.slot, slotOf);
  }

  lemma SettledFirst(tracked: seq<string>, later: seq<Event>, slot: nat, slotOf: string -> nat)
    ensures ChannelsAfter(tracked, [Settled] + later, slot, slotOf) == ChannelsAfter(tracked, later, slot, slotOf)
  {
    assert ([Settled] + later)[1..] == later;
  }

  // ---------- a reset that waits for its subscribers ----------

  /** Nothing that happens while a reset waits for its subscribers takes the one of this owner away. */
  predicate Undisturbed(events: seq<Event>, owner: Owner) {
    forall e :: e in events ==>
      || e.Reset? || e.Add? || e.Remove?
      || (e.OfSubscriber? && (e.owner == owner ==> e.event in {Start, Ready, Lost, Settle(true)}))
  }

  /** The part of a state that such events leave alone. */
  ghost predicate Serves(s: State, index: Index, owner: Owner) {
    s.resetting && s.index == index && owner in s.subscribers && s.subscribers[owner].IsHealthy()
  }

  lemma {:induction false} StillServes(s: State, events: seq<Event>, t: State, lazy: bool, slotOf: string -> nat,
                                       index: Index, owner: Owner)
    requires Reaches(s, events, t, lazy, slotOf) && Undisturbed(events, owner) && Serves(s, index, owner)
    ensures Serves(t, index, owner)
    decreases |events|
  {
    if events != [] {
      assert events[0] in events && forall x :: x in events[1..] ==> x in events;
      StepServes(s, events[0], lazy, slotOf, index, owner);
      StillServes(Step(s, events[0], lazy, slotOf), events[1..], t, lazy, slotOf, index, owner);
    }
  }

  lemma StepServes(s: State, e: Event, lazy: bool, slotOf: string -> nat, index: Index, owner: Owner)
    requires Enabled(s, e) && Undisturbed([e], owner) && Serves(s, index, owner)
    ensures Serves(Step(s, e, lazy, slotOf), index, owner)
  {
    assert e in [e];
  }

  lemma BeginServes(s: State, lazy: bool, to: Topology)
    requires s.pending == None && Begin(s, lazy, to).resetting
    ensures var t := Begin(s, lazy, to);
            && (forall owner :: owner in t.index && Known(to.nodes, owner) ==> Serves(t, t.index, owner))
            && (forall owner :: owner in t.subscribers ==> owner in t.index)
  {
    hide Refresh, Unhealthy;
  }

  /**
   Whatever came before, when a reset has begun and waits for its subscribers, every owner in the index whose
   node was given has a healthy one, and has it still when the starts have settled, unless that subscriber
   itself has failed or ended meanwhile or the group was stopped; nodes that own nothing have none.
   */
  lemma OwnersAreServed(events: seq<Event>, s: State, e: Event, to: Topology, later: seq<Event>, u: State,
                        lazy: bool, slotOf: string -> nat, owner: Owner)
    requires Reaches(Initial, events, s, lazy, slotOf) && Enabled(s, e) && Applies(s, e) == Some(to)
    requires Step(s, e, lazy, slotOf).resetting && owner in Step(s, e, lazy, slotOf).index && Known(to.nodes, owner)
    requires Reaches(Step(s, e, lazy, slotOf), later, u, lazy, slotOf) && Undisturbed(later, owner)
    ensures u.resetting && owner in u.subscribers && u.subscribers[owner].IsHealthy()
    ensures forall k :: k in Step(s, e, lazy, slotOf).subscribers ==> k in Step(s, e, lazy, slotOf).index
  {
    hide Reaches, Begin;
    ReachableInv(events, s, lazy, slotOf);
    var t := Step(s, e, lazy, slotOf);
    if e.Reset? {
      BeginServes(s.(requested := Some(to), dropped := false, resetting := true), lazy, to);
    } else {
      BeginServes(Resubscribed(s).(pending := None, resetting := true), lazy, to);
    }
    StillServes(t, later, u, lazy, slotOf, t.index, owner);
  }

  // ---------- a table with a hole ----------

  const OLD: Table := [Some(["a"])]
  const HOLED: Table := [Some(["b"]), None]

  /**
   Node "a" serves the only slot and a channel is subscribed; then a table with a hole is asked for, and the old
   one.
   */
  function HoledRun(nodes: set<Key>): seq<Event> {
    [Reset(Topology(OLD, nodes)), Settled, Add(["c"]), Reset(Topology(HOLED, nodes)), Reset(Topology(OLD, nodes))]
  }

  lemma ExampleTables()
    ensures Full(OLD) && !Full(HOLED) && Rows(HOLED) == 1 && |OLD| == 1
    ensures Indexed(OLD, 1) == map[Some("a") := [0]] && Indexed(HOLED, 1) == map[Some("b") := [0]]
    ensures Some("a") != Some("b")
  {
    assert "a"[0] != "b"[0];
    assert OLD[0].value == ["a"] && First(OLD[0].value) == Some("a");
    assert HOLED[0].value == ["b"] && First(HOLED[0].value) == Some("b") && HOLED[1] == None;
    assert Indexed(OLD, 0) == map[] && Indexed(HOLED, 0) == map[];
    assert SlotsOf(map[], Some("a")) == [] && SlotsOf(map[], Some("b")) == [] && [] + [0] == [0];
    assert HOLED[0].Some? && Rows(HOLED) >= 1;
  }

  /** The first reset creates the subscriber of node "a". */
  lemma ExampleFirst(nodes: set<Key>)
    requires "a" in nodes
    ensures OnReset(Initial, true, Topology(OLD, nodes))
         == State(map[Some("a") := Fresh], OLD, map[Some("a") := [0]], map[], true, None, {}, {}, {},
                  Some(Topology(OLD, nodes)), false)
  {
    ExampleTables();
    var to := Topology(OLD, nodes);
    var s := Initial.(requested := Some(to), resetting := true);
    var t := s.(table := OLD, index := map[Some("a") := [0]]);
    assert Refresh(s.table, s.index, OLD) == Refreshed(OLD, map[Some("a") := [0]], Rebuilt);
    assert Begin(s, true, to) == t.(subscribers := Rearranged(t, true, nodes));
    assert Known(nodes, Some("a")) && !Kept(t, Some("a"));
    assert MaybeStart(t, true, Some("a"), Fresh) == Fresh;
    assert Rearranged(t, true, nodes) == map[Some("a") := Fresh];
  }

  lemma ExampleHoled(s: State, nodes: set<Key>)
    requires !s.resetting && s.pending == None && s.table == OLD
    ensures OnReset(s, true, Topology(HOLED, nodes))
         == s.(requested := Some(Topology(HOLED, nodes)), dropped := false, index := map[Some("b") := [0]])
  {
    ExampleTables();
    var to := Topology(HOLED, nodes);
    var t := s.(requested := Some(to), dropped := false, resetting := true);
    var u := t.(index := map[Some("b") := [0]]);
    assert Refresh(t.table, t.index, HOLED) == Refreshed(OLD, map[Some("b") := [0]], Threw);
    assert Begin(t, true, to) == Finish(u, true);
    assert Finish(u, true) == u.(resetting := false);
  }

  /** Going back to the first table, with the index of the other one. */
  lemma ExampleBack(u: State, nodes: set<Key>)
    requires !u.resetting && u.pending == None && "b" in nodes && u.channels == map[0 := ["c"]]
    requires u.table == OLD && u.index == map[Some("b") := [0]] && u.subscribers == map[Some("a") := Fresh]
    ensures var t := OnReset(u, true, Topology(OLD, nodes));
            t.table == OLD && t.resetting && Subscribe(Some("b"), 0, ["c"]) in Resubscribe(t)
                && !Owns(OLD, Some("b"), 0)
  {
    ExampleTables();
    var to := Topology(OLD, nodes);
    var v := u.(requested := Some(to), dropped := false, resetting := true);
    assert Some("b") in v.index && Some("b") !in v.subscribers;
    assert Unhealthy(v) && Refresh(v.table, v.index, to.table).outcome == Unchanged;
    var t := OnReset(u, true, to);
    assert t == v.(subscribers := Rearranged(v, true, nodes), deferred := Waiting(v));
    assert Known(nodes, Some("b")) && !Kept(v, Some("b"));
    assert t.subscribers[Some("b")] == MaybeStart(v, true, Some("b"), Fresh);
    assert Live(t.subscribers[Some("b")]);
    assert SlotsOf(t.index, Some("b")) == [0] && 0 in SlotsOf(t.index, Some("b"));
    assert Resubscribes(t, Some("b"), 0);
    assert OLD[0].value == ["a"] && First(OLD[0].value) == Some("a");
  }

  /**
   After a refresh that threw, going back to the table from before counts as no change, and the index stays
   that of the other table: the channel of node "a" is then resubscribed on node "b".
   */
  lemma WrongOwnerExample(slotOf: string -> nat) returns (t: State)
    requires slotOf("c") == 0
    ensures Reaches(Initial, HoledRun({"a", "b"}), t, true, slotOf)
    ensures t.table == OLD && t.resetting && Subscribe(Some("b"), 0, ["c"]) in Resubscribe(t)
        && !Owns(OLD, Some("b"), 0)
  {
    hide OnReset, OnSettled, Resubscribe, Owns;
    var nodes := {"a", "b"};
    var events := HoledRun(nodes);
    ExampleFirst(nodes);
    var s1 := Step(Initial, events[0], true, slotOf);
    ExampleSettled(s1);
    var s2 := Step(s1, events[1], true, slotOf);
    ExampleAdded(s2, slotOf);
    var s3 := Step(s2, events[2], true, slotOf);
    ExampleHoled(s3, nodes);
    var s4 := Step(s3, events[3], true, slotOf);
    ExampleBack(s4, nodes);
    t := Step(s4, events[4], true, slotOf);
    assert Reaches(t, [], t, true, slotOf);
    assert Reaches(s4, events[4..], t, true, slotOf) by {
      assert events[4..][1..] == [];
    }
    assert Reaches(s3, events[3..], t, true, slotOf) by {
      assert events[3..][1..] == events[4..];
    }
    assert Reaches(s2, events[2..], t, true, slotOf) by {
      assert events[2..][1..] == events[3..];
    }
    assert Reaches(s1, events[1..], t, true, slotOf) by {
      assert events[1..][1..] == events[2..];
    }
  }

  lemma ExampleSettled(s: State)
    requires s.resetting && s.pending == None
    ensures OnSettled(s, true) == Resubscribed(s).(resetting := false)
  {
  }

  lemma ExampleAdded(s: State, slotOf: string -> nat)
    requires s.channels == map[] && slotOf("c") == 0
    ensures OnAdd(s, ["c"], slotOf) == s.(channels := map[0 := ["c"]])
  {
    assert SameSlot(["c"], slotOf) && ChannelsOf(s, 0) + ["c"] == ["c"];
  }

  // ---------- a subscribe that is sent too late ----------

  const BOTH_A: Table := [Some(["a"]), Some(["a"])]
  const A_THEN_B: Table := [Some(["a"]), Some(["b"])]
  const B_THEN_A: Table := [Some(["b"]), Some(["a"])]

  /** The subscribe put off to the ready event of node "a". */
  const LATE := Subscribe(Some("a"), 0, ["c"])

  /**
   Node "a" serves both slots, a channel of the first one starts its subscriber, and the table changes twice
   before that is ready.
   */
  function LateRun(nodes: set<Key>): seq<Event> {
    [Reset(Topology(BOTH_A, nodes)), Settled, Add(["c"]), OfSubscriber(Some("a"), Start),
     Reset(Topology(A_THEN_B, nodes)), Settled, Reset(Topology(B_THEN_A, nodes)), OfSubscriber(Some("a"), Ready)]
  }

  lemma LateTables()
    ensures Full(BOTH_A) && Full(A_THEN_B) && Full(B_THEN_A)
    ensures Owns(BOTH_A, Some("a"), 0) && Owns(A_THEN_B, Some("a"), 0) && Owns(B_THEN_A, Some("a"), 1)
    ensures Owns(B_THEN_A, Some("b"), 0) && !Owns(B_THEN_A, Some("a"), 0)
    ensures BOTH_A != A_THEN_B && A_THEN_B != B_THEN_A && BOTH_A != []
  {
    assert "a"[0] != "b"[0];
    assert BOTH_A[1] == Some(["a"]) && A_THEN_B[1] == Some(["b"]) && B_THEN_A[1] == Some(["a"]);
    assert A_THEN_B[0] == Some(["a"]) && B_THEN_A[0] == Some(["b"]);
    assert A_THEN_B[1].value[0] == "b" && B_THEN_A[0].value[0] == "b" && BOTH_A[1].value[0] == "a";
  }

  /** A group that is idle, or waits for its starts, with the subscriber of node "a". */
  ghost predicate Has(s: State, table: Table, resetting: bool, sub: Sub) {
    && Full(table) && s.table == table && s.index == Indexed(table, |table|)
    && s.resetting == resetting && s.pending == None
    && Some("a") in s.subscribers && s.subscribers[Some("a")] == sub
  }

  lemma OwnerIsIndexed(table: Table, owner: Owner, slot: nat)
    requires Full(table) && Owns(table, owner, slot)
    ensures owner in Indexed(table, |table|) && slot in SlotsOf(Indexed(table, |table|), owner)
  {
    IndexedIsInverse(table, |table|);
  }

  lemma LateFirst(nodes: set<Key>)
    requires "a" in nodes
    ensures var t := OnReset(Initial, true, Topology(BOTH_A, nodes));
            Has(t, BOTH_A, true, Fresh) && t.channels == map[]
  {
    hide Indexed, Rows;
    LateTables();
    OwnerIsIndexed(BOTH_A, Some("a"), 0);
    var to := Topology(BOTH_A, nodes);
    var s := Initial.(requested := Some(to), resetting := true);
    assert Refresh(s.table, s.index, BOTH_A) == Refreshed(BOTH_A, Indexed(BOTH_A, 2), Rebuilt);
    var t := s.(table := BOTH_A, index := Indexed(BOTH_A, 2));
    assert Begin(s, true, to) == t.(subscribers := Rearranged(t, true, nodes), deferred := Waiting(t));
    assert MaybeStart(t, true, Some("a"), Fresh) == Fresh;
  }

  /** Another table that still has the node keeps its started subscriber and what waits on it. */
  lemma LateReset(s: State, from: Table, table: Table, slot: nat, nodes: set<Key>, sub: Sub)
    requires Has(s, from, false, sub) && table != from && Full(table) && Owns(table, Some("a"), slot)
    requires sub.IsStarted() && sub.IsHealthy()
    ensures var t := OnReset(s, true, Topology(table, nodes));
            Has(t, table, true, sub) && t.channels == s.channels
            && forall x :: x in s.deferred && x.owner == Some("a") ==> x in t.deferred
  {
    hide Indexed, Rows;
    OwnerIsIndexed(table, Some("a"), slot);
    var to := Topology(table, nodes);
    var u := s.(requested := Some(to), dropped := false, resetting := true);
    assert Refresh(u.table, u.index, table) == Refreshed(table, Indexed(table, |table|), Rebuilt);
    var t := u.(table := table, index := Indexed(table, |table|));
    assert Begin(u, true, to) == t.(subscribers := Rearranged(t, true, nodes), deferred := Waiting(t));
    assert Kept(t, Some("a")) && MaybeStart(t, true, Some("a"), sub) == sub;
  }

  lemma LateSettled(s: State, table: Table, sub: Sub)
    requires Has(s, table, true, sub)
    ensures var t := OnSettled(s, true);
            && t == Resubscribed(s).(resetting := false) && Has(t, table, false, sub) && t.channels == s.channels
  {
    hide Indexed;
    ExampleSettled(s);
  }

  lemma LateDeferred(s: State, sub: Sub)
    requires Has(s, A_THEN_B, true, sub) && s.channels == map[0 := ["c"]] && sub.instance && sub.link == Opening
    ensures LATE in Resubscribe(s) && LATE in OnSettled(s, true).deferred
  {
    hide Indexed;
    LateTables();
    OwnerIsIndexed(A_THEN_B, Some("a"), 0);
    LateSettled(s, A_THEN_B, sub);
    assert Resubscribes(s, Some("a"), 0);
  }

  const OPENING := Sub(Starting, true, true, Opening)

  /** The first half of the run, up to the start of the subscriber. */
  lemma LateStarts(slotOf: string -> nat, nodes: set<Key>) returns (t: State)
    requires slotOf("c") == 0 && "a" in nodes
    ensures Reaches(Initial, LateRun(nodes)[..4], t, true, slotOf)
    ensures Has(t, BOTH_A, false, OPENING) && t.channels == map[0 := ["c"]]
  {
    hide OnReset, OnSettled, OnAdd, Owns, Resubscribe, Full, Indexed, Reaches;
    var e := LateRun(nodes)[..4];
    LateFirst(nodes);
    var s1 := Step(Initial, e[0], true, slotOf);
    LateSettled(s1, BOTH_A, Fresh);
    var s2 := Step(s1, e[1], true, slotOf);
    ExampleAdded(s2, slotOf);
    var s3 := Step(s2, e[2], true, slotOf);
    t := Step(s3, e[3], true, slotOf);
    FourSteps(Initial, s1, s2, s3, t, e, slotOf);
  }

  /** The second half, with the ready event last. */
  lemma LateEnds(s: State, slotOf: string -> nat, nodes: set<Key>) returns (t: State)
    requires Has(s, BOTH_A, false, OPENING) && s.channels == map[0 := ["c"]]
    ensures Reaches(s, LateRun(nodes)[4..], t, true, slotOf)
    ensures LATE in t.fired && t.table == B_THEN_A
  {
    hide OnReset, OnSettled, Owns, Resubscribe, Full, Indexed, Reaches;
    var e := LateRun(nodes)[4..];
    LateTables();
    LateReset(s, BOTH_A, A_THEN_B, 0, nodes, OPENING);
    var s1 := Step(s, e[0], true, slotOf);
    LateSettled(s1, A_THEN_B, OPENING);
    LateDeferred(s1, OPENING);
    var s2 := Step(s1, e[1], true, slotOf);
    LateReset(s2, A_THEN_B, B_THEN_A, 1, nodes, OPENING);
    var s3 := Step(s2, e[2], true, slotOf);
    t := Step(s3, e[3], true, slotOf);
    FourSteps(s, s1, s2, s3, t, e, slotOf);
  }

  lemma FourSteps(s: State, s1: State, s2: State, s3: State, t: State, e: seq<Event>, slotOf: string -> nat)
    requires |e| == 4 && Enabled(s, e[0]) && s1 == Step(s, e[0], true, slotOf)
    requires Enabled(s1, e[1]) && s2 == Step(s1, e[1], true, slotOf)
    requires Enabled(s2, e[2]) && s3 == Step(s2, e[2], true, slotOf)
    requires Enabled(s3, e[3]) && t == Step(s3, e[3], true, slotOf)
    ensures Reaches(s, e, t, true, slotOf)
  {
    hide Step, Enabled;
    assert e[3..][1..] == [] && e[2..][1..] == e[3..] && e[1..][1..] == e[2..];
    assert Reaches(t, [], t, true, slotOf);
    assert Reaches(s3, e[3..], t, true, slotOf);
    assert Reaches(s2, e[2..], t, true, slotOf);
    assert Reaches(s1, e[1..], t, true, slotOf);
  }

  lemma {:induction false} RunThen(s: State, a: seq<Event>, t: State, b: seq<Event>, u: State, lazy: bool,
                                   slotOf: string -> nat)
    requires Reaches(s, a, t, lazy, slotOf) && Reaches(t, b, u, lazy, slotOf)
    ensures Reaches(s, a + b, u, lazy, slotOf)
    decreases |a|
  {
    hide Step, Enabled;
    if a == [] {
      assert a + b == b;
    } else {
      assert (a + b)[0] == a[0] && (a + b)[1..] == a[1..] + b;
      RunThen(Step(s, a[0], lazy, slotOf), a[1..], t, b, u, lazy, slotOf);
    }
  }

  /** All the tables are full, and still the channel is subscribed on a node that does not own its slot any more. */
  lemma LateExample(slotOf: string -> nat) returns (t: State)
    requires slotOf("c") == 0
    ensures Reaches(Initial, LateRun({"a", "b"}), t, true, slotOf) && AllFull(LateRun({"a", "b"}))
    ensures LATE in t.fired && t.table == B_THEN_A && !Owns(t.table, LATE.owner, LATE.slot)
  {
    hide Step, Owns, Full, Has, Reaches, LateRun;
    var nodes := {"a", "b"};
    var s := LateStarts(slotOf, nodes);
    t := LateEnds(s, slotOf, nodes);
    LateIsFull(nodes);
    var e := LateRun(nodes);
    RunThen(Initial, e[..4], s, e[4..], t, true, slotOf);
    assert e[..4] + e[4..] == e;
    LateTables();
  }

  lemma LateIsFull(nodes: set<Key>)
    ensures AllFull(LateRun(nodes)) && |LateRun(nodes)| == 8
  {
    LateTables();
  }
}
