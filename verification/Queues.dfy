/**
 What a closed connection leaves behind: the queue of written but unanswered commands and the queue of
 commands waiting to be written, and the pruning that makes them safe to send again.
 */
module Queues {
  import opened Bytes
  import opened Wrappers

  datatype Verb = Select(db: Option<int>) | Multi | Exec | Other

  /** `id` is None for a command the client inserts on its own. */
  datatype Command = Command(id: Option<nat>, verb: Verb, pipelineIndex: Option<nat>, inTransaction: bool)

  /** The accumulator of a pipeline of `size` commands. */
  datatype Pipe = Pipe(number: nat, size: nat)

  /** A queued command with its stream and the database it was issued on. */
  datatype Item = Item(command: Command, stream: Option<Pipe>, select: int)

  datatype Pruned = Pruned(kept: seq<Item>, rejected: seq<Item>)

  /** A double-ended queue, shared by reference. */
  class Deque {
    var items: seq<Item>

    constructor ()
      ensures items == []
    {
      items := [];
    }

    method Push(item: Item)
      modifies this
      ensures items == old(items) + [item]
    {
      items := items + [item];
    }

    method Shift() returns (item: Item)
      requires items != []
      modifies this
      ensures old(items) == [item] + items
    {
      item := items[0];
      items := items[1..];
    }

    method RemoveAt(i: nat)
      requires i < |items|
      modifies this
      ensures items == old(items[..i]) + old(items[i + 1..])
    {
      items := items[..i] + items[i + 1..];
    }
  }

  // ---------- half-answered pipelines ----------

  /** The pruning of the rest of a queue when the next pipeline index is expected to be `expected`. */
  function Incomplete(q: seq<Item>, expected: nat): Pruned {
    if q == [] then Pruned([], [])
    else
      var index := q[0].command.pipelineIndex;
      var due := if index == None || index == Some(0) then 0 else expected;
      if index.Some? && index.value != due then
        var rest := Incomplete(q[1..], due + 1);
        Pruned(rest.kept, [q[0]] + rest.rejected)
      else
        var rest := Incomplete(q[1..], if index.Some? then due + 1 else due);
        Pruned([q[0]] + rest.kept, rest.rejected)
  }

  method AbortIncompletePipelines(q: Deque) returns (rejected: seq<Item>)
    modifies q
    ensures Pruned(q.items, rejected) == Incomplete(old(q.items), 0)
  {
    hide Incomplete, Scanned;
    var expectedIndex, i := 0, 0;
    rejected := [];
    ScannedEnds(q.items, rejected, expectedIndex);
    while i < |q.items|
      invariant 0 <= i <= |q.items|
      invariant Incomplete(old(q.items), 0) == Scanned(q.items, i, rejected, expectedIndex)
      decreases |q.items| - i
    {
      ScannedStep(q.items, i, rejected, expectedIndex);
      var item := q.items[i];
      var index := item.command.pipelineIndex;
      if index == None || index == Some(0) {
        expectedIndex := 0;
      }
      if index.Some? {
        var mismatch := index.value != expectedIndex;
        expectedIndex := expectedIndex + 1;
        if mismatch {
          q.RemoveAt(i);
          rejected := rejected + [item];
          continue;
        }
      }
      i := i + 1;
    }
    ScannedEnds(q.items, rejected, expectedIndex);
  }

  /** The outcome of pruning from position i on, when everything before it is kept. */
  function Scanned(q: seq<Item>, i: nat, rejected: seq<Item>, expected: nat): Pruned
    requires i <= |q|
  {
    Pruned(q[..i] + Incomplete(q[i..], expected).kept, rejected + Incomplete(q[i..], expected).rejected)
  }

  lemma ScannedEnds(q: seq<Item>, rejected: seq<Item>, expected: nat)
    ensures Scanned(q, |q|, rejected, expected) == Pruned(q, rejected)
    ensures Scanned(q, 0, [], expected) == Incomplete(q, expected)
  {
    assert q[..|q|] == q && q[|q|..] == [] && q[0..] == q && q[..0] == [];
    assert rejected + [] == rejected && q + [] == q;
    assert [] + Incomplete(q, expected).kept == Incomplete(q, expected).kept;
    assert [] + Incomplete(q, expected).rejected == Incomplete(q, expected).rejected;
  }

  lemma ScannedStep(q: seq<Item>, i: nat, rejected: seq<Item>, expected: nat)
    requires i < |q|
    ensures var index := q[i].command.pipelineIndex;
            var due := if index == None || index == Some(0) then 0 else expected;
            Scanned(q, i, rejected, expected) ==
              if index.Some? && index.value != due then Scanned(q[..i] + q[i + 1..], i, rejected + [q[i]], due + 1)
              else Scanned(q, i + 1, rejected, if index.Some? then due + 1 else due)
  {
    var index := q[i].command.pipelineIndex;
    var due := if index == None || index == Some(0) then 0 else expected;
    assert q[i..][1..] == q[i + 1..] && q[i..][0] == q[i];
    if index.Some? && index.value != due {
      var without := q[..i] + q[i + 1..];
      assert without[..i] == q[..i] && without[i..] == q[i + 1..];
      var rest := Incomplete(q[i + 1..], due + 1);
      assert rejected + ([q[i]] + rest.rejected) == rejected + [q[i]] + rest.rejected;
    } else {
      assert q[..i + 1] == q[..i] + [q[i]];
      var rest := Incomplete(q[i + 1..], if index.Some? then due + 1 else due);
      assert q[..i] + ([q[i]] + rest.kept) == q[..i] + [q[i]] + rest.kept;
    }
  }

  /** A pipeline's commands from position k on, as its writer queued them. */
  predicate PipelineFrom(b: seq<Item>, pipe: Pipe, k: nat) {
    k + |b| == pipe.size
    && forall i :: 0 <= i < |b| ==> b[i].stream == Some(pipe) && b[i].command.pipelineIndex == Some(k + i)
  }

  /** A command on its own, or a whole pipeline. */
  predicate Block(b: seq<Item>) {
    b != [] && (if b[0].stream == None then |b| == 1 && b[0].command.pipelineIndex == None
                else PipelineFrom(b, b[0].stream.value, 0))
  }

  predicate Blocks(bs: seq<seq<Item>>) {
    forall b :: b in bs ==> Block(b)
  }

  lemma {:induction false} FragmentIsRejected(fragment: seq<Item>, pipe: Pipe, k: nat, rest: seq<Item>, expected: nat)
    requires PipelineFrom(fragment, pipe, k) && k > expected
    ensures Incomplete(fragment + rest, expected)
         == Pruned(Incomplete(rest, expected + |fragment|).kept,
                   fragment + Incomplete(rest, expected + |fragment|).rejected)
    decreases |fragment|
  {
    if fragment == [] {
      assert fragment + rest == rest;
      assert fragment + Incomplete(rest, expected).rejected == Incomplete(rest, expected).rejected;
    } else {
      assert (fragment + rest)[1..] == fragment[1..] + rest;
      FragmentIsRejected(fragment[1..], pipe, k + 1, rest, expected + 1);
      assert [fragment[0]] + (fragment[1..] + Incomplete(rest, expected + |fragment|).rejected)
          == fragment + Incomplete(rest, expected + |fragment|).rejected;
    }
  }

  lemma {:induction false} PipelineIsKept(b: seq<Item>, pipe: Pipe, k: nat, rest: seq<Item>, expected: nat)
    requires PipelineFrom(b, pipe, k) && (k == expected || k == 0) && b != []
    ensures Incomplete(b + rest, expected)
         == Pruned(b + Incomplete(rest, k + |b|).kept, Incomplete(rest, k + |b|).rejected)
    decreases |b|
  {
    assert (b + rest)[1..] == b[1..] + rest;
    if |b| == 1 {
      assert b[1..] + rest == rest;
    } else {
      PipelineIsKept(b[1..], pipe, k + 1, rest, k + 1);
    }
    assert [b[0]] + (b[1..] + Incomplete(rest, k + |b|).kept) == b + Incomplete(rest, k + |b|).kept;
  }

  /** Whole blocks are kept whatever index was expected before them. */
  lemma {:induction false} BlocksAreKept(bs: seq<seq<Item>>, expected: nat)
    requires Blocks(bs)
    ensures Incomplete(Concat(bs), expected) == Pruned(Concat(bs), [])
    decreases |bs|
  {
    if bs != [] {
      var b, rest := bs[0], Concat(bs[1..]);
      assert b in bs && forall x :: x in bs[1..] ==> x in bs;
      if b[0].stream == None {
        assert (b + rest)[1..] == rest && b == [b[0]];
        BlocksAreKept(bs[1..], 0);
      } else {
        PipelineIsKept(b, b[0].stream.value, 0, rest, expected);
        BlocksAreKept(bs[1..], |b|);
      }
    }
  }

  /**
   When replies have been taken off the front of a queue of commands and whole pipelines, pruning
   rejects exactly what is left of the pipeline that was being answered and keeps every whole block.
   */
  lemma LeadingFragmentIsPruned(fragment: seq<Item>, pipe: Pipe, k: nat, bs: seq<seq<Item>>)
    requires PipelineFrom(fragment, pipe, k) && k > 0 && Blocks(bs)
    ensures Incomplete(fragment + Concat(bs), 0) == Pruned(Concat(bs), fragment)
  {
    FragmentIsRejected(fragment, pipe, k, Concat(bs), 0);
    BlocksAreKept(bs, |fragment|);
    assert fragment + [] == fragment;
  }

  /** The queues a connection can have: perhaps the rest of a pipeline, then whole blocks. */
  ghost predicate Shape(q: seq<Item>, fragment: seq<Item>, bs: seq<seq<Item>>) {
    && q == fragment + Concat(bs) && Blocks(bs)
    && exists pipe: Pipe, k: nat :: k > 0 && PipelineFrom(fragment, pipe, k)
  }

  lemma BlocksShape(bs: seq<seq<Item>>)
    requires Blocks(bs)
    ensures Shape(Concat(bs), [], bs)
  {
    assert PipelineFrom([], Pipe(0, 1), 1);
    assert [] + Concat(bs) == Concat(bs);
  }

  /** Writing a block keeps the shape. */
  lemma PushKeepsShape(q: seq<Item>, fragment: seq<Item>, bs: seq<seq<Item>>, b: seq<Item>)
    requires Shape(q, fragment, bs) && Block(b)
    ensures Shape(q + b, fragment, bs + [b])
  {
    ConcatSnoc(bs, b);
    assert q + b == fragment + (Concat(bs) + b);
  }

  /** Settling the head keeps the shape. */
  lemma ShiftKeepsShape(q: seq<Item>, fragment: seq<Item>, bs: seq<seq<Item>>)
    returns (fragment': seq<Item>, bs': seq<seq<Item>>)
    requires Shape(q, fragment, bs) && q != []
    ensures Shape(q[1..], fragment', bs') && forall b :: b in bs' ==> b in bs
  {
    if fragment != [] {
      var pipe: Pipe, k: nat :| k > 0 && PipelineFrom(fragment, pipe, k);
      fragment', bs' := fragment[1..], bs;
      assert PipelineFrom(fragment', pipe, k + 1);
      assert q[1..] == fragment' + Concat(bs);
    } else {
      var b := bs[0];
      assert b in bs && forall x :: x in bs[1..] ==> x in bs;
      fragment', bs' := b[1..], bs[1..];
      assert q[1..] == fragment' + Concat(bs');
      if b[0].stream == None {
        assert PipelineFrom(fragment', Pipe(0, 1), 1);
      } else {
        assert PipelineFrom(fragment', b[0].stream.value, 1);
      }
    }
  }

  // ---------- transaction fragments ----------

  /** Up to the first MULTI: transaction commands go, and the first EXEC goes and ends the search. */
  function Fragments(q: seq<Item>): Pruned {
    if q == [] || q[0].command.verb == Multi then Pruned(q, [])
    else if q[0].command.verb == Exec then Pruned(q[1..], [q[0]])
    else
      var rest := Fragments(q[1..]);
      if q[0].command.inTransaction then Pruned(rest.kept, [q[0]] + rest.rejected)
      else Pruned([q[0]] + rest.kept, rest.rejected)
  }

  method AbortTransactionFragments(q: Deque) returns (rejected: seq<Item>)
    modifies q
    ensures Pruned(q.items, rejected) == Fragments(old(q.items))
  {
    hide Fragments, Spliced;
    var i := 0;
    rejected := [];
    SplicedEnds(q.items, 0, rejected);
    while i < |q.items| && q.items[i].command.verb != Multi
      invariant 0 <= i <= |q.items|
      invariant Fragments(old(q.items)) == Spliced(q.items, i, rejected)
      decreases |q.items| - i
    {
      var item := q.items[i];
      SplicedStep(q.items, i, rejected);
      if item.command.verb == Exec {
        q.RemoveAt(i);
        rejected := rejected + [item];
        return;
      }
      if item.command.inTransaction {
        q.RemoveAt(i);
        rejected := rejected + [item];
      } else {
        i := i + 1;
      }
    }
    SplicedEnds(q.items, i, rejected);
  }

  lemma SplicedEnds(q: seq<Item>, i: nat, rejected: seq<Item>)
    requires i <= |q|
    ensures Spliced(q, 0, []) == Fragments(q)
    ensures i == |q| || q[i].command.verb == Multi ==> Spliced(q, i, rejected) == Pruned(q, rejected)
  {
    assert q[0..] == q && q[..0] == [] && q[..i] + q[i..] == q;
    assert [] + Fragments(q).kept == Fragments(q).kept && [] + Fragments(q).rejected == Fragments(q).rejected;
    assert rejected + [] == rejected;
  }

  /** The outcome of pruning from position i on, when everything before it is kept. */
  ghost function Spliced(q: seq<Item>, i: nat, rejected: seq<Item>): Pruned
    requires i <= |q|
  {
    Pruned(q[..i] + Fragments(q[i..]).kept, rejected + Fragments(q[i..]).rejected)
  }

  lemma SplicedStep(q: seq<Item>, i: nat, rejected: seq<Item>)
    requires i < |q| && q[i].command.verb != Multi
    ensures var without := q[..i] + q[i + 1..];
            Spliced(q, i, rejected) ==
              if q[i].command.verb == Exec then Pruned(without, rejected + [q[i]])
              else if q[i].command.inTransaction then Spliced(without, i, rejected + [q[i]])
              else Spliced(q, i + 1, rejected)
  {
    var without := q[..i] + q[i + 1..];
    assert q[i..][1..] == q[i + 1..];
    assert without[..i] == q[..i] && without[i..] == q[i + 1..];
    assert q[..i + 1] == q[..i] + [q[i]];
    var rest := Fragments(q[i + 1..]);
    assert q[..i] + ([q[i]] + rest.kept) == q[..i + 1] + rest.kept;
    assert rejected + ([q[i]] + rest.rejected) == rejected + [q[i]] + rest.rejected;
  }

  /** In a block, commands of a transaction follow a MULTI of the same pipeline. */
  predicate TransactionsInside(b: seq<Item>) {
    forall i :: 0 <= i < |b| && (b[i].command.inTransaction || (b[i].command.verb == Exec && b[i].stream.Some?)) ==>
      exists j :: 0 <= j <= i && b[j].command.verb == Multi
  }

  predicate Closed(bs: seq<seq<Item>>) {
    Blocks(bs) && forall b :: b in bs ==> TransactionsInside(b)
  }

  /** The whole blocks that pruning keeps: a lone EXEC before any MULTI goes, and nothing else. */
  function KeptBlocks(bs: seq<seq<Item>>): seq<seq<Item>> {
    if bs == [] || (exists i :: 0 <= i < |bs[0]| && bs[0][i].command.verb == Multi) then bs
    else if |bs[0]| == 1 && bs[0][0].command.verb == Exec then bs[1..]
    else [bs[0]] + KeptBlocks(bs[1..])
  }

  function LoneExec(bs: seq<seq<Item>>): seq<Item> {
    if bs == [] || (exists i :: 0 <= i < |bs[0]| && bs[0][i].command.verb == Multi) then []
    else if |bs[0]| == 1 && bs[0][0].command.verb == Exec then bs[0]
    else LoneExec(bs[1..])
  }

  /** Up to a MULTI nothing of a pipeline goes. */
  lemma {:induction false} FragmentsUpToMulti(b: seq<Item>, rest: seq<Item>)
    requires exists i :: 0 <= i < |b| && b[i].command.verb == Multi
    requires TransactionsInside(b)
    requires forall i :: 0 <= i < |b| && b[i].command.verb == Exec ==> b[i].stream.Some?
    ensures Fragments(b + rest) == Pruned(b + rest, [])
    decreases |b|
  {
    if b[0].command.verb != Multi {
      assert !b[0].command.inTransaction && b[0].command.verb != Exec;
      assert (b + rest)[1..] == b[1..] + rest;
      assert TransactionsInside(b[1..]) by {
        forall i | 0 <= i < |b[1..]|
          && (b[1..][i].command.inTransaction || (b[1..][i].command.verb == Exec && b[1..][i].stream.Some?))
          ensures exists j :: 0 <= j <= i && b[1..][j].command.verb == Multi
        {
          var j :| 0 <= j <= i + 1 && b[j].command.verb == Multi;
          assert b[1..][j - 1].command.verb == Multi;
        }
      }
      var i :| 0 <= i < |b| && b[i].command.verb == Multi;
      assert b[1..][i - 1].command.verb == Multi;
      FragmentsUpToMulti(b[1..], rest);
      assert [b[0]] + (b[1..] + rest) == b + rest;
    }
  }

  lemma {:induction false} FragmentsPass(b: seq<Item>, rest: seq<Item>)
    requires forall i :: 0 <= i < |b| ==>
      b[i].command.verb != Multi && b[i].command.verb != Exec && !b[i].command.inTransaction
    ensures Fragments(b + rest) == Pruned(b + Fragments(rest).kept, Fragments(rest).rejected)
    decreases |b|
  {
    if b == [] {
      assert b + rest == rest;
      assert b + Fragments(rest).kept == Fragments(rest).kept;
    } else {
      assert (b + rest)[1..] == b[1..] + rest;
      FragmentsPass(b[1..], rest);
      assert [b[0]] + (b[1..] + Fragments(rest).kept) == b + Fragments(rest).kept;
    }
  }

  lemma ExecGoes(b: seq<Item>, rest: seq<Item>)
    requires |b| == 1 && b[0].command.verb == Exec
    ensures Fragments(b + rest) == Pruned(rest, b)
  {
    assert (b + rest)[1..] == rest && b == [b[0]];
  }

  /** Pruning a queue of whole blocks leaves whole blocks: it never cuts a pipeline. */
  lemma {:induction false} FragmentsKeepBlocks(bs: seq<seq<Item>>)
    requires Closed(bs)
    ensures Fragments(Concat(bs)) == Pruned(Concat(KeptBlocks(bs)), LoneExec(bs))
    ensures Closed(KeptBlocks(bs))
    decreases |bs|
  {
    if bs != [] {
      var b, rest := bs[0], Concat(bs[1..]);
      assert b in bs && forall x :: x in bs[1..] ==> x in bs;
      if exists i :: 0 <= i < |b| && b[i].command.verb == Multi {
        FragmentsUpToMulti(b, rest);
      } else if |b| == 1 && b[0].command.verb == Exec {
        ExecGoes(b, rest);
      } else {
        FragmentsPass(b, rest);
        FragmentsKeepBlocks(bs[1..]);
      }
    }
  }
}
