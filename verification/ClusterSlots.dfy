/** The slot table of a cluster, the group numbers that stand for node lists, and the check on a pipeline's keys. */
module ClusterSlots {
  import opened Wrappers

  const SLOTS := 16384

  type NodeKey = string

  /** One range of the reply to CLUSTER SLOTS: the first node is the master. */
  datatype Range = Range(first: nat, last: nat, nodes: seq<NodeKey>)

  type Table = map<nat, seq<NodeKey>>

  function NodesOf(table: Table, slot: nat): seq<NodeKey> {
    if slot in table then table[slot] else []
  }

  /** A list of keys joined by semicolons. */
  function Join(keys: seq<NodeKey>): string {
    if keys == [] then "" else if |keys| == 1 then keys[0] else keys[0] + ";" + Join(keys[1..])
  }

  /** The last range of the reply that covers a slot. */
  function Covering(ranges: seq<Range>, slot: nat): Option<Range> {
    if ranges == [] then None
    else if ranges[|ranges| - 1].first <= slot <= ranges[|ranges| - 1].last then Some(ranges[|ranges| - 1])
    else Covering(ranges[..|ranges| - 1], slot)
  }

  /** The name of a slot's node list. */
  function Target(table: Table, slot: nat): string {
    Join(NodesOf(table, slot))
  }

  /** Slots have the same group exactly when their node lists have the same name, and none when that is empty. */
  predicate GroupsMatch(table: Table, groups: map<nat, nat>) {
    && (forall a :: 0 <= a < SLOTS ==> (a in groups <==> Target(table, a) != ""))
    && (forall a, b :: 0 <= a < SLOTS && 0 <= b < SLOTS && a in groups && b in groups ==>
          (groups[a] == groups[b] <==> Target(table, a) == Target(table, b)))
  }

  /** The nodes of a slot after the ranges: those of the range that covers it, or else the ones it had. */
  function Assigned(ranges: seq<Range>, table: Table, slot: nat): seq<NodeKey> {
    match Covering(ranges, slot) case Some(r) => r.nodes case None => NodesOf(table, slot)
  }

  class Cluster {
    var slots: Table
    var groupsIds: map<string, nat>
    var groupsBySlot: map<nat, nat>

    constructor ()
      ensures slots == map[] && groupsBySlot == map[]
    {
      slots, groupsIds, groupsBySlot := map[], map[], map[];
    }

    /** Later ranges win over earlier ones, and slots outside all of them keep their nodes. */
    method AssignRanges(ranges: seq<Range>)
      modifies this`slots
      ensures forall slot :: NodesOf(slots, slot) == Assigned(ranges, old(slots), slot)
    {
      for i := 0 to |ranges|
        invariant forall slot :: NodesOf(slots, slot) == Assigned(ranges[..i], old(slots), slot)
      {
        assert ranges[..i + 1][..i] == ranges[..i];
        var r := ranges[i];
        ghost var before := slots;
        var slot := r.first;
        while slot <= r.last
          invariant r.first <= slot && (slot <= r.last + 1 || r.first > r.last)
          invariant forall s: nat ::
            NodesOf(slots, s) == if r.first <= s < slot && s <= r.last then r.nodes else NodesOf(before, s)
          decreases r.last + 1 - slot
        {
          ghost var sofar := slots;
          slots := slots[slot := r.nodes];
          assert forall s: nat :: NodesOf(slots, s) == if s == slot then r.nodes else NodesOf(sofar, s);
          slot := slot + 1;
        }
      }
      assert ranges[..|ranges|] == ranges;
    }

    /** Numbers are given to joined node lists, and a slot without nodes has none. */
    method AssignGroups()
      modifies this`groupsIds, this`groupsBySlot
      ensures GroupsMatch(slots, groupsBySlot)
    {
      hide Target, GroupsMatch;
      groupsIds := map[];
      var j := 0;
      for i := 0 to SLOTS
        invariant Numbered(groupsIds, j) && GroupedTo(slots, groupsIds, groupsBySlot, i)
      {
        var target := Target(slots, i);
        if |target| == 0 {
          groupsBySlot := groupsBySlot - {i};
          continue;
        }
        if target !in groupsIds {
          j := j + 1;
          groupsIds := groupsIds[target := j];
        }
        groupsBySlot := groupsBySlot[i := groupsIds[target]];
      }
      GroupedAll(slots, groupsIds, groupsBySlot, j);
    }

    /** What getting the slots from a node does to the table and the groups. */
    method Refresh(ranges: seq<Range>)
      modifies this
      ensures GroupsMatch(slots, groupsBySlot)
      ensures forall slot :: NodesOf(slots, slot) == Assigned(ranges, old(slots), slot)
    {
      AssignRanges(ranges);
      AssignGroups();
    }

    /** The slot of the first key when all keys are in its group, and otherwise none. */
    method GenerateMultiWithNodes(keys: seq<string>, slotOf: string -> nat) returns (slot: Option<nat>)
      requires keys != []
      ensures slot.Some? <==> forall i :: 0 <= i < |keys| ==>
        Group(groupsBySlot, slotOf(keys[i])) == Group(groupsBySlot, slotOf(keys[0]))
      ensures slot.Some? ==> slot.value == slotOf(keys[0])
    {
      var first := slotOf(keys[0]);
      var target := Group(groupsBySlot, first);
      for i := 1 to |keys|
        invariant forall k :: 0 <= k < i ==> Group(groupsBySlot, slotOf(keys[k])) == target
      {
        if Group(groupsBySlot, slotOf(keys[i])) != target {
          return None;
        }
      }
      return Some(first);
    }
  }

  /** Different names have different numbers, none of them above the last one given. */
  predicate Numbered(ids: map<string, nat>, last: nat) {
    && (forall t :: t in ids ==> 1 <= ids[t] <= last)
    && (forall t, u :: t in ids && u in ids && ids[t] == ids[u] ==> t == u)
  }

  predicate GroupedTo(table: Table, ids: map<string, nat>, groups: map<nat, nat>, i: nat) {
    forall a :: 0 <= a < i ==>
      (if Target(table, a) == "" then a !in groups
       else Target(table, a) in ids && a in groups && groups[a] == ids[Target(table, a)])
  }

  lemma GroupedAll(table: Table, ids: map<string, nat>, groups: map<nat, nat>, last: nat)
    requires Numbered(ids, last) && GroupedTo(table, ids, groups, SLOTS)
    ensures GroupsMatch(table, groups)
  {
    hide Target;
  }

  function Group(groups: map<nat, nat>, slot: nat): Option<nat> {
    if slot in groups then Some(groups[slot]) else None
  }

  /** A key as made from a host and a port: not empty, and without a semicolon. */
  predicate IsNodeKey(key: NodeKey) {
    key != "" && ';' !in key
  }

  /** The part of a joined list before its first semicolon is the first key. */
  lemma SameHead(a: string, x: string, b: string, y: string)
    requires a + ";" + x == b + ";" + y && ';' !in a && ';' !in b
    ensures a == b && x == y
  {
    var s := a + ";" + x;
    assert s[|a|] == ';' && s[|b|] == ';';
    assert forall k :: 0 <= k < |a| ==> s[k] == a[k] && s[k] in a;
    assert forall k :: 0 <= k < |b| ==> s[k] == b[k] && s[k] in b;
    assert |a| == |b|;
    assert s[..|a|] == a && s[..|b|] == b;
    assert s[|a| + 1..] == x && s[|b| + 1..] == y;
  }

  lemma NoSemicolon(a: string, b: string, y: string)
    requires a == b + ";" + y
    ensures ';' in a
  {
    assert a[|b|] == ';';
  }

  /** Joining tells node lists apart. */
  lemma {:induction false} JoinIsInjective(a: seq<NodeKey>, b: seq<NodeKey>)
    requires (forall k :: k in a ==> IsNodeKey(k)) && (forall k :: k in b ==> IsNodeKey(k))
    ensures Join(a) == Join(b) <==> a == b
    decreases |a|
  {
    if Join(a) == Join(b) {
      if a == [] || b == [] {
        JoinIsEmptyIff(a);
        JoinIsEmptyIff(b);
      } else {
        assert a[0] in a && b[0] in b;
        if |a| == 1 && |b| == 1 {
          assert a == [a[0]] && b == [b[0]];
        } else if |a| == 1 {
          NoSemicolon(a[0], b[0], Join(b[1..]));
        } else if |b| == 1 {
          NoSemicolon(b[0], a[0], Join(a[1..]));
        } else {
          SameHead(a[0], Join(a[1..]), b[0], Join(b[1..]));
          JoinIsInjective(a[1..], b[1..]);
          assert a == [a[0]] + a[1..] && b == [b[0]] + b[1..];
        }
      }
    }
  }

  lemma JoinIsEmptyIff(a: seq<NodeKey>)
    requires forall k :: k in a ==> IsNodeKey(k)
    ensures Join(a) == "" <==> a == []
  {
    if a != [] {
      assert a[0] in a;
    }
  }

  /**
   After a refresh, two slots have the same group exactly when the same nodes serve them, in the same order,
   or none does; so the keys that a pipeline accepts are all served by the same nodes, or all by none.
   */
  lemma AcceptedKeysShareNodes(table: Table, groups: map<nat, nat>, keys: seq<string>, slotOf: string -> nat)
    requires GroupsMatch(table, groups) && forall k :: k in keys ==> slotOf(k) < SLOTS
    requires forall slot :: slot in table ==> forall k :: k in table[slot] ==> IsNodeKey(k)
    requires keys != []
    ensures (forall i :: 0 <= i < |keys| ==> Group(groups, slotOf(keys[i])) == Group(groups, slotOf(keys[0])))
       <==> forall i :: 0 <= i < |keys| ==> NodesOf(table, slotOf(keys[i])) == NodesOf(table, slotOf(keys[0]))
  {
    var first := slotOf(keys[0]);
    forall i | 0 <= i < |keys|
      ensures Group(groups, slotOf(keys[i])) == Group(groups, first)
          <==> NodesOf(table, slotOf(keys[i])) == NodesOf(table, first)
    {
      var slot := slotOf(keys[i]);
      JoinIsInjective(NodesOf(table, slot), NodesOf(table, first));
      JoinIsEmptyIff(NodesOf(table, slot));
      JoinIsEmptyIff(NodesOf(table, first));
    }
  }
}
