/** The connections of a cluster by node key, and their division into masters and replicas. */
module ConnectionPool {
  type Key = string

  datatype Node = Node(key: Key, readOnly: bool)

  class Connection {
    const key: Key
    var readOnly: bool

    constructor (key: Key, readOnly: bool)
      ensures this.key == key && this.readOnly == readOnly
    {
      this.key := key;
      this.readOnly := readOnly;
    }
  }

  /** The node kept for each key: a later master replaces what is there, a later replica does not. */
  function NewNodes(nodes: seq<Node>): map<Key, Node> {
    if nodes == [] then map[]
    else
      var before, node := NewNodes(nodes[..|nodes| - 1]), nodes[|nodes| - 1];
      if node.readOnly && node.key in before then before else before[node.key := node]
  }

  predicate Listed(nodes: seq<Node>, key: Key) {
    exists i :: 0 <= i < |nodes| && nodes[i].key == key
  }

  predicate ListedAsMaster(nodes: seq<Node>, key: Key) {
    exists i :: 0 <= i < |nodes| && nodes[i] == Node(key, false)
  }

  /** A key is a master if and only if it is listed as one at least once, in whatever order. */
  lemma {:induction false} NewNodesAre(nodes: seq<Node>, key: Key)
    ensures key in NewNodes(nodes) <==> Listed(nodes, key)
    ensures key in NewNodes(nodes) ==> NewNodes(nodes)[key] == Node(key, !ListedAsMaster(nodes, key))
    decreases |nodes|
  {
    if nodes != [] {
      var front, last := nodes[..|nodes| - 1], nodes[|nodes| - 1];
      NewNodesAre(front, key);
      if Listed(front, key) {
        var i :| 0 <= i < |front| && front[i].key == key;
        assert nodes[i].key == key;
      }
      if ListedAsMaster(front, key) {
        var i :| 0 <= i < |front| && front[i] == Node(key, false);
        assert nodes[i] == Node(key, false);
      }
      assert last.key == key ==> Listed(nodes, key) && (!last.readOnly ==> last == Node(key, false));
    }
  }

  class Pool {
    var all: map<Key, Connection>
    var master: map<Key, Connection>
    var slave: map<Key, Connection>

    /** Every connection is in one of the two roles, the one its own flag says, under its own key. */
    ghost predicate Valid()
      reads this, all.Values
    {
      && master.Keys !! slave.Keys && master.Keys + slave.Keys == all.Keys
      && (forall k :: k in master ==> master[k] == all[k] && !all[k].readOnly)
      && (forall k :: k in slave ==> slave[k] == all[k] && all[k].readOnly)
      && (forall k :: k in all ==> all[k].key == k)
    }

    /** Everything about the other keys is as it was. */
    twostate predicate Others(key: Key)
      reads this, all.Values
    {
      && all.Keys - {key} == old(all.Keys) - {key}
      && forall k :: k in all && k != key ==>
        k in old(all) && all[k] == old(all[k]) && (k in master <==> k in old(master))
    }

    constructor ()
      ensures Valid() && all == map[]
    {
      all, master, slave := map[], map[], map[];
    }

    method FindOrCreate(node: Node) returns (redis: Connection)
      requires Valid()
      modifies this, all.Values
      ensures Valid() && Others(node.key)
      ensures node.key in all && all[node.key] == redis && (node.key in slave <==> node.readOnly)
      ensures if node.key in old(all) then redis == old(all[node.key]) else fresh(redis)
    {
      var key := node.key;
      if key in all {
        redis := all[key];
        if redis.readOnly != node.readOnly {
          redis.readOnly := node.readOnly;
          if node.readOnly {
            master := master - {key};
            slave := slave[key := redis];
          } else {
            slave := slave - {key};
            master := master[key := redis];
          }
        }
      } else {
        redis := new Connection(key, node.readOnly);
        all := all[key := redis];
        if node.readOnly {
          slave := slave[key := redis];
        } else {
          master := master[key := redis];
        }
      }
    }

    method RemoveNode(key: Key)
      requires Valid()
      modifies this
      ensures Valid() && Others(key) && key !in all
      ensures all == old(all) - {key}
    {
      if key in all {
        all := all - {key};
      }
      master := master - {key};
      slave := slave - {key};
    }

    /** The "end" event of a connection that was created under this key, at any later time. */
    method OnEnd(redis: Connection)
      requires Valid()
      modifies this
      ensures Valid() && Others(redis.key)
      ensures if redis.key in old(all) && old(all[redis.key]) != redis
              then all == old(all) && master == old(master) && slave == old(slave)
              else redis.key !in all
    {
      if redis.key in all && all[redis.key] != redis {
        return;
      }
      RemoveNode(redis.key);
    }

    method Recreate(node: Node) returns (redis: Connection)
      requires Valid()
      modifies this, all.Values
      ensures Valid() && Others(node.key)
      ensures fresh(redis) && node.key in all && all[node.key] == redis && (node.key in slave <==> node.readOnly)
    {
      if node.key in all {
        RemoveNode(node.key);
      }
      redis := FindOrCreate(node);
    }

    /**
     Following a MOVED redirect: when it points back at the connection that sent it, that connection is
     replaced, so the one that the key has afterwards is never the one that answered.
     */
    method FollowMoved(last: Connection?, key: Key) returns (redis: Connection)
      requires Valid()
      modifies this, all.Values
      ensures Valid() && Others(key) && key in all && all[key] == redis && key in master
      ensures last != null && last.key == key ==> redis != last
      ensures key in old(all) && (last == null || last != old(all[key])) ==> redis == old(all[key])
    {
      if last != null && last.key == key && key in all && all[key] == last {
        redis := Recreate(Node(key, false));
      } else {
        redis := FindOrCreate(Node(key, false));
      }
    }

    method Collect(nodes: seq<Node>) returns (newNodes: map<Key, Node>)
      ensures newNodes == NewNodes(nodes)
    {
      newNodes := map[];
      for i := 0 to |nodes|
        invariant newNodes == NewNodes(nodes[..i])
      {
        assert nodes[..i + 1][..i] == nodes[..i];
        if !(nodes[i].readOnly && nodes[i].key in newNodes) {
          newNodes := newNodes[nodes[i].key := nodes[i]];
        }
      }
      assert nodes[..|nodes|] == nodes;
    }

    /**
     Exactly the listed keys are left, each as a master if and only if it is listed as one at least once,
     and connections to nodes that stay are kept.
     */
    method Reset(nodes: seq<Node>)
      requires Valid()
      modifies this, all.Values
      ensures Valid()
      ensures forall k :: k in all <==> Listed(nodes, k)
      ensures forall k :: k in all ==> (k in master <==> ListedAsMaster(nodes, k))
      ensures forall k :: k in all && k in old(all) ==> all[k] == old(all[k])
      ensures forall k :: k in all && k !in old(all) ==> fresh(all[k])
    {
      var newNodes := Collect(nodes);
      forall k
        ensures k in newNodes <==> Listed(nodes, k)
        ensures k in newNodes ==> newNodes[k] == Node(k, !ListedAsMaster(nodes, k))
      {
        NewNodesAre(nodes, k);
      }
      hide Listed, ListedAsMaster, NewNodes;
      RemoveUnlisted(newNodes.Keys);
      AddListed(newNodes);
    }

    method AddListed(newNodes: map<Key, Node>)
      requires Valid() && all.Keys <= newNodes.Keys && forall k :: k in newNodes ==> newNodes[k].key == k
      modifies this, all.Values
      ensures Valid() && all.Keys == newNodes.Keys
      ensures forall k :: k in all ==> (k in slave <==> newNodes[k].readOnly)
      ensures forall k :: k in old(all) ==> all[k] == old(all[k])
      ensures forall k :: k in all && k !in old(all) ==> fresh(all[k])
    {
      var keys := newNodes.Keys;
      while keys != {}
        invariant Valid() && keys <= newNodes.Keys
        invariant old(all.Keys) <= all.Keys <= newNodes.Keys && newNodes.Keys - keys <= all.Keys
        invariant forall k :: k in newNodes && k !in keys ==> (k in slave <==> newNodes[k].readOnly)
        invariant forall k :: k in old(all) ==> all[k] == old(all[k])
        invariant forall k :: k in all && k !in old(all) ==> fresh(all[k])
        decreases keys
      {
        label Before:
        var key :| key in keys;
        var redis := FindOrCreate(newNodes[key]);
        KeysAround(key, old@Before(all.Keys), all.Keys);
        keys := keys - {key};
      }
    }

    method RemoveUnlisted(listed: set<Key>)
      requires Valid()
      modifies this
      ensures Valid() && all == (map k | k in old(all) && k in listed :: old(all[k]))
    {
      var keys := all.Keys;
      while keys != {}
        invariant Valid() && keys <= old(all.Keys)
        invariant all == map k | k in old(all) && (k in listed || k in keys) :: old(all[k])
        decreases keys
      {
        var key :| key in keys;
        if key !in listed {
          RemoveNode(key);
        }
        keys := keys - {key};
      }
    }

    /** Adding a master overwrites the entry of its key, but leaves a replica of that key where it is. */
    method AddMasterNode(node: Node) returns (added: bool)
      requires Valid()
      modifies this
      ensures added == !node.readOnly
      ensures added ==> node.key in all && fresh(all[node.key]) && all == old(all)[node.key := all[node.key]]
      ensures !added ==> all == old(all) && master == old(master) && slave == old(slave)
      ensures Valid() <==> !added || node.key !in old(slave)
    {
      var redis := new Connection(node.key, node.readOnly);
      if !node.readOnly {
        all := all[node.key := redis];
        master := master[node.key := redis];
        assert node.key in master;
        return true;
      }
      return false;
    }
  }

  /** The "end" of a connection that was replaced comes late, and the replacement stays. */
  method RecreateThenStaleEnd(pool: Pool, node: Node) returns (redis: Connection)
    requires pool.Valid() && node.key in pool.all
    modifies pool, pool.all.Values
    ensures pool.Valid() && fresh(redis) && node.key in pool.all && pool.all[node.key] == redis
    ensures node.key in pool.slave <==> node.readOnly
    ensures forall k :: k != node.key ==> (k in pool.all <==> k in old(pool.all))
  {
    var stale := pool.all[node.key];
    redis := pool.Recreate(node);
    KeysAround(node.key, old(pool.all.Keys), pool.all.Keys);
    pool.OnEnd(stale);
  }

  lemma KeysAround(key: Key, before: set<Key>, after: set<Key>)
    requires before - {key} == after - {key} && key in after
    ensures after == before + {key}
  {
    assert after == (after - {key}) + {key};
  }
}
