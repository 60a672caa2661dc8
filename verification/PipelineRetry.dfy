/**
 A pipeline on a cluster: whether its replies allow it to be sent again, the ASKING commands put in for an
 ASK redirect, and the results with theirs taken out.
 */
module PipelineRetry {
  import opened Wrappers
  import opened Redirects

  datatype Verb = Asking | Exec | Other(name: string)

  /** `id` is the index among the commands the user queued, None for a command put in by the pipeline. */
  datatype Command = Command(id: Option<nat>, verb: Verb, inTransaction: bool, ignore: bool, readonly: bool)

  datatype Error = Error(name: string, message: string)

  /** An element of the reply to EXEC, as received, or as transformed by the command with an index. */
  datatype Element = Raw(text: string) | Shaped(command: Option<nat>, text: string) | Failed(error: Error)

  datatype Value = Text(text: string) | Elements(elements: seq<Element>)

  datatype Slot = Missing | Success(value: Value) | Failure(error: Error)

  const EXECABORT := "EXECABORT Transaction discarded because of previous errors."

  /** Whether the command table flags ASKING as read-only is a parameter of the model. */
  function AskingCommand(readonly: bool): Command {
    Command(None, Asking, false, true, readonly)
  }

  // ---------- taking in one reply ----------

  /** The elements of a transaction's reply are transformed by the commands right before its EXEC. */
  function ShapeElement(queue: seq<Command>, position: nat, elements: seq<Element>, i: nat): Element
    requires i < |elements|
  {
    var at := position - (|elements| - i);
    if !elements[i].Raw? then elements[i]
    else if 0 <= at < |queue| then Shaped(queue[at].id, elements[i].text)
    else Failed(Error("TypeError", "Cannot read properties of undefined"))
  }

  function ShapeAll(queue: seq<Command>, position: nat, elements: seq<Element>): seq<Element> {
    seq(|elements|, i requires 0 <= i < |elements| => ShapeElement(queue, position, elements, i))
  }

  function Filled(queue: seq<Command>, position: nat, slot: Slot): Slot
    requires position < |queue|
  {
    if queue[position].verb == Exec && slot.Success? && slot.value.Elements?
    then Success(Elements(ShapeAll(queue, position, slot.value.elements)))
    else slot
  }

  /** Assigning to an index of a JavaScript array. */
  function Put(result: seq<Slot>, i: nat, slot: Slot): (r: seq<Slot>)
    ensures |r| == if i < |result| then |result| else i + 1
    ensures r[i] == slot && forall j :: 0 <= j < |result| && j != i ==> r[j] == result[j]
  {
    if i < |result| then result[i := slot] else result + seq(i - |result|, _ => Missing) + [slot]
  }

  function Get(result: seq<Slot>, i: nat): Slot {
    if i < |result| then result[i] else Missing
  }

  // ---------- the decision ----------

  /** An error that counts: all but the EXEC of a transaction that was discarded. */
  predicate Considered(command: Command, slot: Slot) {
    slot.Failure? && !(command.verb == Exec && slot.error.message == EXECABORT)
  }

  /** A success that must not be repeated. */
  predicate Final(command: Command, slot: Slot) {
    !slot.Failure? && !command.inTransaction && !command.readonly
  }

  /** The replies allow sending the pipeline again, for this error. */
  ghost predicate Agreed(queue: seq<Command>, result: seq<Slot>, error: Error)
    requires |result| == |queue|
  {
    && (exists i :: 0 <= i < |queue| && Considered(queue[i], result[i]))
    && (forall i :: 0 <= i < |queue| && Considered(queue[i], result[i]) ==> result[i].error == error)
    && (forall i :: 0 <= i < |queue| ==> !Final(queue[i], result[i]))
  }

  ghost function Decision(queue: seq<Command>, result: seq<Slot>): (common: Option<Error>)
    requires |result| == |queue|
    ensures forall e :: common == Some(e) <==> Agreed(queue, result, e)
  {
    if exists e :: Agreed(queue, result, e) then
      var e :| Agreed(queue, result, e);
      var i :| 0 <= i < |queue| && Considered(queue[i], result[i]);
      assert forall other :: Agreed(queue, result, other) ==> result[i].error == other;
      Some(e)
    else None
  }

  /**
   The pipeline may be sent again exactly when there is an error that counts, all of those have the same
   name and message, and every success outside a transaction is of a read-only command.
   */
  method Decide(queue: seq<Command>, result: seq<Slot>) returns (common: Option<Error>)
    requires |result| == |queue|
    ensures forall e :: common == Some(e) <==> Agreed(queue, result, e)
  {
    common := None;
    for i := 0 to |result|
      invariant common.None? ==> forall k :: 0 <= k < i ==> !Considered(queue[k], result[k])
      invariant common.Some? ==> exists k :: 0 <= k < i && Considered(queue[k], result[k])
      invariant forall k :: 0 <= k < i && Considered(queue[k], result[k]) ==> common == Some(result[k].error)
      invariant forall k :: 0 <= k < i ==> !Final(queue[k], result[k])
    {
      if result[i].Failure? {
        if queue[i].verb == Exec && result[i].error.message == EXECABORT {
          assert !Considered(queue[i], result[i]);
          continue;
        }
        assert Considered(queue[i], result[i]);
        if common.None? {
          common := Some(result[i].error);
        } else if common.value.name != result[i].error.name || common.value.message != result[i].error.message {
          return None;
        }
      } else if !queue[i].inTransaction && !queue[i].readonly {
        assert Final(queue[i], result[i]);
        return None;
      }
    }
  }

  // ---------- the queue with ASKING commands ----------

  /** The i-th command needs an ASKING of its own before it. */
  predicate Needs(queue: seq<Command>, i: nat)
    requires i < |queue|
  {
    && !(i > 0 && queue[i - 1].inTransaction)
    && queue[i].verb != Asking && !(i > 0 && queue[i - 1].verb == Asking)
  }

  /** The first n commands, each that needs one after an ASKING. */
  function Rebuilt(queue: seq<Command>, asking: Command, n: nat): seq<Command>
    requires n <= |queue|
  {
    if n == 0 then []
    else Rebuilt(queue, asking, n - 1) + (if Needs(queue, n - 1) then [asking] else []) + [queue[n - 1]]
  }

  /** The commands of the user. */
  function Users(queue: seq<Command>): seq<Command> {
    if queue == [] then []
    else Users(queue[..|queue| - 1]) + (if queue[|queue| - 1].ignore then [] else [queue[|queue| - 1]])
  }

  /** Inserted commands are ASKINGs, never two in a row, never inside a transaction, and never last. */
  predicate Tidy(queue: seq<Command>) {
    Growing(queue) && (queue != [] ==> !queue[|queue| - 1].ignore)
  }

  /** A queue that is tidy but for its last command. */
  predicate Growing(queue: seq<Command>) {
    && (forall i :: 0 <= i < |queue| && queue[i].ignore ==> queue[i].verb == Asking && !queue[i].inTransaction)
    && (forall i :: 0 < i < |queue| && queue[i].ignore ==> !queue[i - 1].ignore && !queue[i - 1].inTransaction)
  }

  predicate Asked(queue: seq<Command>, i: nat)
    requires i < |queue|
  {
    queue[i].verb == Asking || (i > 0 && (queue[i - 1].inTransaction || queue[i - 1].verb == Asking))
  }

  /** Every command outside a transaction comes after an ASKING, or is one. */
  predicate Asks(queue: seq<Command>) {
    forall i :: 0 <= i < |queue| ==> Asked(queue, i)
  }

  lemma UsersSnoc(queue: seq<Command>, command: Command)
    ensures Users(queue + [command]) == Users(queue) + (if command.ignore then [] else [command])
  {
    assert (queue + [command])[..|queue|] == queue;
  }

  lemma GrowOne(queue: seq<Command>, c: Command)
    requires Growing(queue) && Asks(queue)
    requires c.ignore ==> c.verb == Asking && !c.inTransaction
    requires c.ignore && queue != [] ==> !queue[|queue| - 1].ignore && !queue[|queue| - 1].inTransaction
    requires c.verb == Asking
        || (queue != [] && (queue[|queue| - 1].inTransaction || queue[|queue| - 1].verb == Asking))
    ensures Growing(queue + [c]) && Asks(queue + [c])
  {
    var r := queue + [c];
    forall i | 0 <= i < |r|
      ensures Asked(r, i)
    {
      if i < |queue| {
        assert Asked(queue, i);
      }
    }
  }

  /** The part of the rebuilt queue that is done so far: it ends as the original does, and asks where it has to. */
  lemma {:induction false} RebuildKeeps(queue: seq<Command>, asking: Command, n: nat)
    requires Tidy(queue) && n <= |queue| && asking.ignore && asking.verb == Asking && !asking.inTransaction
    ensures var r := Rebuilt(queue, asking, n);
            && (if n > 0 then r != [] && r[|r| - 1] == queue[n - 1] else r == [])
            && Users(r) == Users(queue[..n]) && Asks(r) && Growing(r)
    decreases n
  {
    hide Asks, Growing, Users, Tidy;
    if n > 0 {
      TidyAt(queue, n - 1);
    }
    if n == 0 {
      NothingAsks();
    } else {
      RebuildKeeps(queue, asking, n - 1);
      var before, last := Rebuilt(queue, asking, n - 1), queue[n - 1];
      assert queue[..n] == queue[..n - 1] + [last];
      UsersSnoc(queue[..n - 1], last);
      var middle := before;
      if Needs(queue, n - 1) {
        middle := before + [asking];
        GrowOne(before, asking);
        UsersSnoc(before, asking);
        assert Users(before) + [] == Users(before);
      } else {
        assert before + [] == before;
      }
      assert Rebuilt(queue, asking, n) == middle + [last];
      GrowOne(middle, last);
      UsersSnoc(middle, last);
    }
  }

  lemma TidyAt(queue: seq<Command>, i: nat)
    requires Tidy(queue) && i < |queue|
    ensures queue[i].ignore ==> queue[i].verb == Asking && !queue[i].inTransaction
    ensures queue[i].ignore && i > 0 ==> !queue[i - 1].ignore && !queue[i - 1].inTransaction
    ensures i > 0 && queue[i - 1].ignore ==> queue[i - 1].verb == Asking
  {
  }

  lemma NothingAsks()
    ensures Asks([]) && Growing([]) && Users([]) == []
  {
  }

  /**
   Rebuilding for an ASK keeps the user's commands in order, puts an ASKING before each command outside a
   transaction that lacks one, and never puts two in a row or one at the end, however often it is done.
   */
  lemma RebuildIsTidy(queue: seq<Command>, readonly: bool)
    requires Tidy(queue)
    ensures var r := Rebuilt(queue, AskingCommand(readonly), |queue|);
            Tidy(r) && Users(r) == Users(queue) && Asks(r)
  {
    RebuildKeeps(queue, AskingCommand(readonly), |queue|);
    assert queue[..|queue|] == queue;
  }

  // ---------- taking the ignored results out ----------

  /** One index at a time, over the queue and the results, with at most one ignored command skipped per step. */
  function Compacted(queue: seq<Command>, result: seq<Slot>, i: nat, ignored: nat): (seq<Slot>, nat)
    requires i + ignored <= |queue|
    decreases |queue| - ignored - i
  {
    if i + ignored >= |queue| then (result, ignored)
    else
      var now := if queue[i + ignored].ignore then ignored + 1 else ignored;
      if i + now >= |queue| then (Put(result, i, Get(result, i + now)), now)
      else Compacted(queue, Put(result, i, Get(result, i + now)), i + 1, now)
  }

  /** `slice(0, end)` of a JavaScript array. */
  function Slice(result: seq<Slot>, end: int): seq<Slot> {
    if end > |result| then result
    else if end >= 0 then result[..end]
    else if |result| + end >= 0 then result[..|result| + end]
    else []
  }

  function Compact(queue: seq<Command>, result: seq<Slot>): seq<Slot> {
    var (r, ignored) := Compacted(queue, result, 0, 0);
    Slice(r, |r| - ignored)
  }

  method CompactResults(queue: seq<Command>, result: seq<Slot>) returns (r: seq<Slot>)
    ensures r == Compact(queue, result)
  {
    var ignoredCount, i := 0, 0;
    r := result;
    while i < |queue| - ignoredCount
      invariant i + ignoredCount <= |queue|
          || (i + ignoredCount == |queue| + 1 && Compacted(queue, result, 0, 0) == (r, ignoredCount))
      invariant i + ignoredCount <= |queue| ==> Compacted(queue, r, i, ignoredCount) == Compacted(queue, result, 0, 0)
      decreases |queue| - i
    {
      if queue[i + ignoredCount].ignore {
        ignoredCount := ignoredCount + 1;
      }
      r := Put(r, i, Get(r, i + ignoredCount));
      i := i + 1;
    }
    r := Slice(r, |r| - ignoredCount);
  }

  /** The results of the user's commands. */
  function Kept(queue: seq<Command>, result: seq<Slot>): seq<Slot>
    requires |result| == |queue|
  {
    if queue == [] then []
    else Kept(queue[..|queue| - 1], result[..|queue| - 1])
         + (if queue[|queue| - 1].ignore then [] else [result[|queue| - 1]])
  }

  lemma {:induction false} KeptLength(queue: seq<Command>, result: seq<Slot>)
    requires |result| == |queue|
    ensures |Kept(queue, result)| == |Users(queue)| <= |queue|
    decreases |queue|
  {
    if queue != [] {
      KeptLength(queue[..|queue| - 1], result[..|queue| - 1]);
    }
  }

  lemma KeptSnoc(queue: seq<Command>, result: seq<Slot>, n: nat)
    requires n < |queue| == |result|
    ensures Kept(queue[..n + 1], result[..n + 1])
        == Kept(queue[..n], result[..n]) + (if queue[n].ignore then [] else [result[n]])
  {
    assert queue[..n + 1][..n] == queue[..n] && result[..n + 1][..n] == result[..n];
  }

  /** What the compaction has done when it reaches index i with some ignored commands behind it. */
  ghost predicate CompactedTo(queue: seq<Command>, original: seq<Slot>, r: seq<Slot>, i: nat, ignored: nat) {
    && |original| == |queue| == |r| && i + ignored <= |queue|
    && r[..i] == Kept(queue[..i + ignored], original[..i + ignored])
    && forall k :: i + ignored <= k < |queue| ==> r[k] == original[k]
  }

  lemma CompactStep(queue: seq<Command>, original: seq<Slot>, r: seq<Slot>, i: nat, ignored: nat)
    requires Tidy(queue) && CompactedTo(queue, original, r, i, ignored) && i + ignored < |queue|
    ensures var now := if queue[i + ignored].ignore then ignored + 1 else ignored;
            i + now < |queue| && CompactedTo(queue, original, Put(r, i, Get(r, i + now)), i + 1, now)
  {
    hide Kept;
    var n := i + ignored;
    KeptSnoc(queue, original, n);
    if queue[n].ignore {
      assert n + 1 < |queue| && !queue[n + 1].ignore;
      KeptSnoc(queue, original, n + 1);
      var s := Put(r, i, Get(r, n + 1));
      assert s[..i + 1] == r[..i] + [original[n + 1]];
    } else {
      var s := Put(r, i, Get(r, n));
      assert s[..i + 1] == r[..i] + [original[n]];
    }
  }

  lemma CompactDone(queue: seq<Command>, original: seq<Slot>, r: seq<Slot>, i: nat, ignored: nat)
    requires CompactedTo(queue, original, r, i, ignored) && i + ignored == |queue|
    ensures |r| == |queue| && r[..|queue| - ignored] == Kept(queue, original)
  {
    assert queue[..|queue|] == queue && original[..|queue|] == original;
  }

  lemma {:induction false} CompactedRun(queue: seq<Command>, original: seq<Slot>, r: seq<Slot>, i: nat, ignored: nat)
    requires Tidy(queue) && CompactedTo(queue, original, r, i, ignored) && i + ignored <= |queue| == |original|
    ensures var c := Compacted(queue, r, i, ignored);
            |c.0| == |queue| && c.1 <= |queue| && c.0[..|queue| - c.1] == Kept(queue, original)
    decreases |queue| - ignored - i
  {
    hide Tidy, CompactedTo, Kept, Put, Get;
    if i + ignored < |queue| {
      CompactStep(queue, original, r, i, ignored);
      var now := if queue[i + ignored].ignore then ignored + 1 else ignored;
      var next := Put(r, i, Get(r, i + now));
      CompactedRun(queue, original, next, i + 1, now);
      assert Compacted(queue, r, i, ignored) == Compacted(queue, next, i + 1, now);
    } else {
      CompactDone(queue, original, r, i, ignored);
    }
  }

  /** The loop that skips at most one ignored command per step takes out exactly the ignored results. */
  lemma CompactKeepsUsers(queue: seq<Command>, result: seq<Slot>)
    requires Tidy(queue) && |result| == |queue|
    ensures Compact(queue, result) == Kept(queue, result)
  {
    hide Compacted, Tidy;
    assert CompactedTo(queue, result, result, 0, 0);
    CompactedRun(queue, result, result, 0, 0);
  }

  // ---------- the rounds of a pipeline ----------

  datatype Phase = Built | Running | Done

  datatype Config = Config(cluster: bool, askingReadonly: bool, options: Options, number: Option<string> -> Option<int>)

  /**
   `outstanding` are the positions without a reply in the current round. The last two fields are history:
   the replies of the current round as they came in, and how many ASKINGs were put in without being sent.
   */
  datatype State = State(queue: seq<Command>, result: seq<Slot>, replyPending: nat, phase: Phase, ttl: Option<int>,
                         resolved: Option<seq<Slot>>, outstanding: set<nat>, round: map<nat, Slot>, unsent: int)

  function Initial(user: seq<Command>): State {
    State(user, [], 0, Built, None, None, {}, map[], 0)
  }

  function Positions(n: nat): (ps: set<nat>)
    ensures |ps| == n && forall i :: i in ps <==> 0 <= i < n
  {
    if n == 0 then {} else Positions(n - 1) + {n - 1}
  }

  /** Sending the queue; with keys of different nodes the pipeline is refused instead. */
  function OnExec(s: State, refused: bool): State {
    if refused then s.(phase := Done)
    else if s.queue == [] then s.(phase := Done, resolved := Some([]))
    else s.(phase := Running, replyPending := |s.queue|, outstanding := Positions(|s.queue|), round := map[])
  }

  function Resolve(s: State, queue: seq<Command>): State {
    s.(queue := queue, phase := Done, resolved := Some(Compact(queue, s.result)), unsent := |queue| - |s.queue|)
  }

  /** Every reply of a round is in. */
  ghost function Finish(config: Config, s: State, ready: bool): State
    requires |s.result| == |s.queue|
  {
    var common := if config.cluster then Decision(s.queue, s.result) else None;
    if common == None then Resolve(s, s.queue)
    else
      var message := common.value.message;
      var queue :=
        if Words(message)[0] == "ASK" then Rebuilt(s.queue, AskingCommand(config.askingReadonly), |s.queue|)
        else s.queue;
      var h := HandleError(s.ttl, message, config.options, ready, config.number);
      if h.action.Retries() then s.(queue := queue, ttl := Some(h.ttl), phase := Built)
      else Resolve(s.(ttl := Some(h.ttl)), queue)
  }

  function Fill(s: State, position: nat, slot: Slot): State
    requires position < |s.queue| && s.replyPending > 0
  {
    var filled := Filled(s.queue, position, slot);
    s.(result := Put(s.result, position, filled), replyPending := s.replyPending - 1,
       outstanding := s.outstanding - {position}, round := s.round[position := slot])
  }

  ghost function OnReply(config: Config, s: State, position: nat, slot: Slot, ready: bool): State
    requires position < |s.queue| && s.replyPending > 0
    requires s.replyPending == 1 ==> |Put(s.result, position, Missing)| == |s.queue|
  {
    var t := Fill(s, position, slot);
    if t.replyPending > 0 then t else Finish(config, t, ready)
  }

  class Pipeline {
    const config: Config
    var queue: seq<Command>
    var result: seq<Slot>
    var replyPending: nat
    var phase: Phase
    var leftRedirections: Ttl
    var resolved: Option<seq<Slot>>
    ghost var outstanding: set<nat>
    ghost var round: map<nat, Slot>
    ghost var unsent: int

    ghost function View(): State
      reads this, leftRedirections
    {
      State(queue, result, replyPending, phase, leftRedirections.value, resolved, outstanding, round, unsent)
    }

    constructor (config: Config, user: seq<Command>)
      ensures View() == Initial(user) && this.config == config && fresh(leftRedirections)
    {
      this.config := config;
      queue, result, replyPending, phase, resolved := user, [], 0, Built, None;
      leftRedirections := new Ttl();
      outstanding, round, unsent := {}, map[], 0;
    }

    method Send(refused: bool)
      modifies this
      ensures View() == OnExec(old(View()), refused) && leftRedirections == old(leftRedirections)
    {
      if refused {
        phase := Done;
        return;
      }
      if queue == [] {
        phase, resolved := Done, Some([]);
        return;
      }
      phase, replyPending, outstanding, round := Running, |queue|, Positions(|queue|), map[];
    }

    /** Replacing the queue while walking the old one. */
    method RebuildQueue()
      modifies this`queue
      ensures queue == Rebuilt(old(queue), AskingCommand(config.askingReadonly), |old(queue)|)
    {
      var previous := queue;
      var inTransaction := false;
      queue := [];
      for i := 0 to |previous|
        invariant queue == Rebuilt(previous, AskingCommand(config.askingReadonly), i)
        invariant inTransaction == (i > 0 && previous[i - 1].inTransaction)
      {
        if !inTransaction && previous[i].verb != Asking && (i == 0 || previous[i - 1].verb != Asking) {
          queue := queue + [AskingCommand(config.askingReadonly)];
        }
        queue := queue + [previous[i]];
        inTransaction := previous[i].inTransaction;
      }
    }

    method Shape(elements: seq<Element>, position: nat) returns (shaped: seq<Element>)
      ensures shaped == ShapeAll(queue, position, elements)
    {
      shaped := elements;
      for i := 0 to |elements|
        invariant |shaped| == |elements|
        invariant forall k :: 0 <= k < i ==> shaped[k] == ShapeElement(queue, position, elements, k)
        invariant forall k :: i <= k < |elements| ==> shaped[k] == elements[k]
      {
        if !shaped[i].Raw? {
          continue;
        }
        var at := position - (|elements| - i);
        shaped := shaped[i := if 0 <= at < |queue| then Shaped(queue[at].id, shaped[i].text)
                              else Failed(Error("TypeError", "Cannot read properties of undefined"))];
      }
    }

    method TakeIn(position: nat, slot: Slot)
      requires position < |queue| && replyPending > 0
      modifies this`result, this`replyPending, this`outstanding, this`round
      ensures View() == Fill(old(View()), position, slot)
    {
      var value := slot;
      if queue[position].verb == Exec && slot.Success? && slot.value.Elements? {
        var shaped := Shape(slot.value.elements, position);
        value := Success(Elements(shaped));
      }
      result := Put(result, position, value);
      replyPending := replyPending - 1;
      outstanding, round := outstanding - {position}, round[position := slot];
    }

    /** The last reply of a round: send the pipeline again, or resolve it. */
    method Conclude(ready: bool)
      requires |result| == |queue|
      modifies this`queue, this`phase, this`resolved, this`unsent, leftRedirections
      ensures View() == Finish(config, old(View()), ready)
    {
      hide Decision, Compact, Rebuilt, HandleError, Words;
      var common := None;
      if config.cluster {
        common := Decide(queue, result);
        SameDecision(queue, result, common);
      }
      ghost var sent := |queue|;
      if common.Some? {
        if Words(common.value.message)[0] == "ASK" {
          RebuildQueue();
        }
        var action := leftRedirections.Handle(common.value.message, config.options, ready, config.number);
        if action.Retries() {
          phase := Built;
          return;
        }
      }
      var settled := CompactResults(queue, result);
      phase, resolved, unsent := Done, Some(settled), |queue| - sent;
    }

    method FillResult(position: nat, slot: Slot, ready: bool)
      requires position < |queue| && replyPending > 0
      requires replyPending == 1 ==> |Put(result, position, Missing)| == |queue|
      modifies this, leftRedirections
      ensures View() == OnReply(config, old(View()), position, slot, ready) && leftRedirections == old(leftRedirections)
    {
      hide Finish, Filled;
      TakeIn(position, slot);
      if replyPending > 0 {
        return;
      }
      Conclude(ready);
    }
  }

  lemma SameDecision(queue: seq<Command>, result: seq<Slot>, common: Option<Error>)
    requires |result| == |queue| && forall e :: common == Some(e) <==> Agreed(queue, result, e)
    ensures common == Decision(queue, result)
  {
    hide Agreed;
    if common.Some? {
      assert Agreed(queue, result, common.value);
    }
  }

  /** What holds between events, for the commands the user queued. */
  ghost predicate Inv(user: seq<Command>, s: State) {
    && Tidy(s.queue) && Users(s.queue) == user && |s.result| <= |s.queue|
    && (s.phase == Running ==> s.outstanding != {} && Answered(s))
    && s.resolved == None && s.unsent == 0
  }

  ghost predicate Answered(s: State) {
    && s.outstanding <= Positions(|s.queue|) && s.replyPending == |s.outstanding|
    && forall p :: 0 <= p < |s.queue| && p !in s.outstanding ==> TakenIn(s, p)
  }

  /** The reply at a position is stored, an EXEC's with its elements transformed. */
  predicate TakenIn(s: State, p: nat)
    requires p < |s.queue|
  {
    p in s.round && !s.round[p].Missing? && p < |s.result| && s.result[p] == Filled(s.queue, p, s.round[p])
  }

  ghost predicate AllTakenIn(s: State) {
    |s.result| == |s.queue| && forall p :: 0 <= p < |s.queue| ==> TakenIn(s, p)
  }

  /** The results of the last round, in the order of the user's commands. */
  ghost predicate Delivers(user: seq<Command>, s: State) {
    && s.resolved.Some? && |s.resolved.value| == |user|
    && forall i :: 0 <= i < |user| ==> DeliveredAt(user, s, i)
  }

  ghost predicate DeliveredAt(user: seq<Command>, s: State, i: nat)
    requires s.resolved.Some? && i < |user| == |s.resolved.value|
  {
    exists p :: 0 <= p < |s.queue| && !s.queue[p].ignore && s.queue[p] == user[i] && Rank(s.queue, p) == i
                && p in s.round && !s.round[p].Missing? && s.resolved.value[i] == Filled(s.queue, p, s.round[p])
  }

  /** The index among the user's commands that a position has. */
  function Rank(queue: seq<Command>, p: nat): nat
    requires p <= |queue|
  {
    |Users(queue[..p])|
  }

  lemma RankStep(queue: seq<Command>, p: nat)
    requires p < |queue|
    ensures Rank(queue, p + 1) == Rank(queue, p) + (if queue[p].ignore then 0 else 1)
  {
    assert queue[..p + 1] == queue[..p] + [queue[p]];
    UsersSnoc(queue[..p], queue[p]);
  }

  lemma {:induction false} UsersAt(queue: seq<Command>, p: nat)
    requires p < |queue| && !queue[p].ignore
    ensures Rank(queue, p) < |Users(queue)| && Users(queue)[Rank(queue, p)] == queue[p]
    decreases |queue|
  {
    var front := queue[..|queue| - 1];
    if p < |front| {
      assert front[..p] == queue[..p];
      UsersAt(front, p);
    } else {
      assert queue[..p] == front;
    }
  }

  lemma {:induction false} KeptAt(queue: seq<Command>, result: seq<Slot>, i: nat) returns (p: nat)
    requires |result| == |queue| && i < |Users(queue)|
    ensures p < |queue| && !queue[p].ignore && Rank(queue, p) == i && queue[p] == Users(queue)[i]
    ensures |Kept(queue, result)| == |Users(queue)| && Kept(queue, result)[i] == result[p]
    decreases |queue|
  {
    var front, rest := queue[..|queue| - 1], result[..|queue| - 1];
    KeptLength(queue, result);
    KeptLength(front, rest);
    if i < |Users(front)| {
      p := KeptAt(front, rest, i);
      assert front[..p] == queue[..p];
    } else {
      p := |queue| - 1;
      assert queue[..p] == front;
    }
  }

  /**
   In a transaction's reply each element is transformed by the user's command it answers, also after
   ASKINGs have been put in: the commands right before EXEC are those the user queued before it.
   */
  lemma {:induction false} BodyStaysBeforeExec(queue: seq<Command>, p: nat, m: nat)
    requires Tidy(queue) && p < |queue| && !queue[p].ignore && m <= Rank(queue, p)
    requires forall k :: Rank(queue, p) - m <= k < Rank(queue, p) && k < |Users(queue)| ==>
      Users(queue)[k].inTransaction
    ensures m <= p && !queue[p - m].ignore && Rank(queue, p - m) == Rank(queue, p) - m
    ensures Rank(queue, p) - m < |Users(queue)| && queue[p - m] == Users(queue)[Rank(queue, p) - m]
    decreases m
  {
    hide Users;
    UsersAt(queue, p);
    if m > 0 {
      BodyStaysBeforeExec(queue, p, m - 1);
      var q := p - (m - 1);
      RankZero(queue);
      assert q > 0;
      RankStep(queue, q - 1);
      if queue[q - 1].ignore {
        assert q - 1 > 0;
        RankStep(queue, q - 2);
        UsersAt(queue, q - 2);
        assert false;
      }
      UsersAt(queue, q - 1);
    }
  }

  lemma RankZero(queue: seq<Command>)
    ensures Rank(queue, 0) == 0
  {
  }

  // ---------- every run ----------

  datatype Event = Start(refused: bool) | Reply(position: nat, slot: Slot, ready: bool)

  /** A reply comes in for a position that has none; the sizes follow from the invariant. */
  predicate Enabled(s: State, e: Event) {
    match e
    case Start(_) => s.phase == Built
    case Reply(position, slot, _) =>
      s.phase == Running && position in s.outstanding && !slot.Missing? && Sized(s, position)
  }

  predicate Sized(s: State, position: nat) {
    position < |s.queue| && s.replyPending > 0
        && (s.replyPending == 1 ==> |Put(s.result, position, Missing)| == |s.queue|)
  }

  ghost function Step(config: Config, s: State, e: Event): State
    requires Enabled(s, e)
  {
    match e
    case Start(refused) => OnExec(s, refused)
    case Reply(position, slot, ready) => OnReply(config, s, position, slot, ready)
  }

  ghost predicate Reaches(config: Config, s: State, events: seq<Event>, t: State)
    decreases |events|
  {
    if events == [] then s == t
    else Enabled(s, events[0]) && Reaches(config, Step(config, s, events[0]), events[1..], t)
  }

  lemma LastOutstanding(outstanding: set<nat>, position: nat)
    requires position in outstanding && |outstanding| == 1
    ensures outstanding == {position}
  {
    var rest := outstanding - {position};
    assert |rest| == 0 && outstanding == rest + {position};
  }

  lemma RepliesAreSized(user: seq<Command>, s: State, position: nat)
    requires Inv(user, s) && s.phase == Running && position in s.outstanding
    ensures Sized(s, position)
  {
    if s.replyPending == 1 {
      LastOutstanding(s.outstanding, position);
      var last := if position < |s.queue| - 1 then |s.queue| - 1 else position - 1;
      if last >= 0 {
        assert last !in s.outstanding && TakenIn(s, last);
      }
    }
  }

  lemma FillKeeps(user: seq<Command>, s: State, position: nat, slot: Slot)
    requires Inv(user, s) && s.phase == Running && position in s.outstanding && Sized(s, position) && !slot.Missing?
    ensures var t := Fill(s, position, slot);
            t.queue == s.queue && t.phase == Running && t.ttl == s.ttl && t.resolved == None && t.unsent == 0
            && |t.result| <= |t.queue| && Answered(t)
            && (t.replyPending > 0 <==> t.outstanding != {}) && (t.replyPending == 0 ==> AllTakenIn(t))
  {
    hide Filled, Tidy, Users;
    if s.replyPending == 1 {
      LastOutstanding(s.outstanding, position);
    }
    var t := Fill(s, position, slot);
    forall p | 0 <= p < |t.queue| && p !in t.outstanding
      ensures TakenIn(t, p)
    {
      assert p == position || TakenIn(s, p);
    }
  }

  lemma {:induction false} RebuiltSize(queue: seq<Command>, asking: Command, n: nat)
    requires n <= |queue|
    ensures |Rebuilt(queue, asking, n)| >= n
    ensures |Rebuilt(queue, asking, n)| == n ==> Rebuilt(queue, asking, n) == queue[..n]
    decreases n
  {
    if n > 0 {
      RebuiltSize(queue, asking, n - 1);
      assert queue[..n] == queue[..n - 1] + [queue[n - 1]];
    }
  }

  /** However it goes, the compaction drops as many results as there are ignored commands in the queue it walks. */
  lemma {:induction false} CompactedSize(queue: seq<Command>, r: seq<Slot>, i: nat, ignored: nat)
    requires Tidy(queue) && i + ignored <= |queue| && Rank(queue, i + ignored) == i && |Users(queue)| <= |r|
    ensures var c := Compacted(queue, r, i, ignored); |c.0| == |r| && c.1 == |queue| - |Users(queue)|
    decreases |queue| - ignored - i
  {
    hide Users, Tidy, Growing, Put, Get;
    var n := i + ignored;
    if n < |queue| {
      RankStep(queue, n);
      if queue[n].ignore {
        TidyNext(queue, n);
        RankStep(queue, n + 1);
        UsersAt(queue, n + 1);
        CompactedSize(queue, Put(r, i, Get(r, n + 1)), i + 1, ignored + 1);
      } else {
        UsersAt(queue, n);
        CompactedSize(queue, Put(r, i, Get(r, n)), i + 1, ignored);
      }
    } else {
      assert queue[..n] == queue;
    }
  }

  lemma TidyNext(queue: seq<Command>, i: nat)
    requires Tidy(queue) && i < |queue| && queue[i].ignore
    ensures i + 1 < |queue| && !queue[i + 1].ignore
  {
  }

  lemma UsersSize(queue: seq<Command>)
    ensures |Users(queue)| <= |queue|
  {
  }

  /** How a pipeline that is not sent again resolves. */
  lemma ResolveDelivers(user: seq<Command>, s: State, queue: seq<Command>, asking: Command)
    requires Tidy(s.queue) && Users(s.queue) == user && Tidy(queue) && Users(queue) == user
    requires AllTakenIn(s)
    requires queue == s.queue || queue == Rebuilt(s.queue, asking, |s.queue|)
    ensures var t := Resolve(s, queue);
            t.unsent >= 0 && |t.resolved.value| == |user| - t.unsent && (t.unsent == 0 ==> Delivers(user, t))
  {
    hide Tidy, Users, Compacted;
    RebuiltSize(s.queue, asking, |s.queue|);
    assert s.queue[..|s.queue|] == s.queue;
    UsersSize(queue);
    UsersSize(s.queue);
    RankZero(queue);
    CompactedSize(queue, s.result, 0, 0);
    UnsentBound(s.queue, asking, |s.queue|);
    var t := Resolve(s, queue);
    if t.unsent == 0 {
      assert queue == s.queue;
      CompactKeepsUsers(queue, s.result);
      KeptLength(queue, s.result);
      forall i | 0 <= i < |user|
        ensures DeliveredAt(user, t, i)
      {
        var p := KeptAt(queue, s.result, i);
        assert TakenIn(s, p);
      }
    }
  }

  /** At most one ASKING per command of the user is put in. */
  lemma {:induction false} UnsentBound(queue: seq<Command>, asking: Command, n: nat)
    requires n <= |queue| && Tidy(queue)
    ensures |Rebuilt(queue, asking, n)| - n <= |Users(queue[..n])| <= |Users(queue)|
    decreases n
  {
    hide Growing;
    if n == 0 {
      assert queue[..0] == [];
      UsersPrefix(queue, 0);
    } else {
      UnsentBound(queue, asking, n - 1);
      UsersPrefix(queue, n);
      TidyAt(queue, n - 1);
      assert queue[..n] == queue[..n - 1] + [queue[n - 1]];
      UsersSnoc(queue[..n - 1], queue[n - 1]);
    }
  }

  lemma {:induction false} UsersPrefix(queue: seq<Command>, n: nat)
    requires n <= |queue|
    ensures |Users(queue[..n])| <= |Users(queue)|
    decreases |queue|
  {
    if n == |queue| {
      assert queue[..n] == queue;
    } else {
      assert queue[..|queue| - 1][..n] == queue[..n];
      UsersPrefix(queue[..|queue| - 1], n);
    }
  }

  /** Resolved with a result per command of the user, or with as many too few as ASKINGs were put in and not sent. */
  ghost predicate Outcome(user: seq<Command>, s: State) {
    && s.phase == Done
    && (s.resolved.Some? ==>
          s.unsent >= 0 && |s.resolved.value| == |user| - s.unsent
          && (s.unsent == 0 ==> Delivers(user, s) && Tidy(s.queue) && Users(s.queue) == user))
  }

  lemma FinishKeeps(config: Config, user: seq<Command>, s: State, ready: bool)
    requires Tidy(s.queue) && Users(s.queue) == user && s.resolved == None && s.unsent == 0
    requires AllTakenIn(s)
    ensures var t := Finish(config, s, ready); Outcome(user, t) || (t.phase == Built && Inv(user, t))
  {
    hide Tidy, Users, Words, HandleError, Compact, Decision, Delivers, Rebuilt;
    var asking := AskingCommand(config.askingReadonly);
    RebuildIsTidy(s.queue, config.askingReadonly);
    ResolveDelivers(user, s, s.queue, asking);
    var rebuilt := Rebuilt(s.queue, asking, |s.queue|);
    RebuiltSize(s.queue, asking, |s.queue|);
    var common := if config.cluster then Decision(s.queue, s.result) else None;
    if common.Some? {
      var h := HandleError(s.ttl, common.value.message, config.options, ready, config.number);
      var u := s.(ttl := Some(h.ttl));
      forall p | 0 <= p < |u.queue|
        ensures TakenIn(u, p)
      {
        assert TakenIn(s, p);
      }
      ResolveDelivers(user, u, s.queue, asking);
      ResolveDelivers(user, u, rebuilt, asking);
    }
  }

  lemma StartKeeps(user: seq<Command>, s: State, refused: bool)
    requires Inv(user, s) && s.phase == Built
    ensures var t := OnExec(s, refused); Outcome(user, t) || (t.phase == Running && Inv(user, t))
  {
    var t := OnExec(s, refused);
    if s.queue != [] && !refused {
      assert 0 in t.outstanding;
    }
  }

  lemma StepKeeps(config: Config, user: seq<Command>, s: State, e: Event)
    requires Inv(user, s) && Enabled(s, e)
    ensures var t := Step(config, s, e); Outcome(user, t) || (t.phase != Done && Inv(user, t))
  {
    hide Tidy, Users, Finish, Filled;
    match e
    case Start(refused) =>
      StartKeeps(user, s, refused);
    case Reply(position, slot, ready) =>
      FillKeeps(user, s, position, slot);
      var t := Fill(s, position, slot);
      if t.replyPending == 0 {
        FinishKeeps(config, user, t, ready);
      }
  }

  lemma {:induction false} ReachesKeeps(config: Config, user: seq<Command>, s: State, events: seq<Event>, t: State)
    requires Inv(user, s) && Reaches(config, s, events, t)
    ensures Outcome(user, t) || Inv(user, t)
    decreases |events|
  {
    hide Step, Inv, Outcome;
    if events != [] {
      var u := Step(config, s, events[0]);
      StepKeeps(config, user, s, events[0]);
      if Outcome(user, u) {
        DoneStays(config, user, u, events[1..], t);
      } else {
        ReachesKeeps(config, user, u, events[1..], t);
      }
    }
  }

  lemma {:induction false} ReachesMore(config: Config, s: State, events: seq<Event>, t: State, last: Event)
    requires Reaches(config, s, events, t) && Enabled(t, last)
    ensures Reaches(config, s, events + [last], Step(config, t, last))
    decreases |events|
  {
    hide Step, Enabled;
    if events == [] {
      assert ([] + [last])[1..] == [];
      assert Reaches(config, Step(config, t, last), [], Step(config, t, last));
    } else {
      assert (events + [last])[1..] == events[1..] + [last];
      ReachesMore(config, Step(config, s, events[0]), events[1..], t, last);
    }
  }

  lemma DoneStays(config: Config, user: seq<Command>, s: State, events: seq<Event>, t: State)
    requires Outcome(user, s) && Reaches(config, s, events, t)
    ensures s == t
  {
  }

  lemma InitialInv(user: seq<Command>)
    requires forall c :: c in user ==> !c.ignore
    ensures Inv(user, Initial(user))
  {
    AllUsers(user);
  }

  lemma FilledBack(queue: seq<Command>, p: nat, slot: Slot)
    requires p < |queue|
    ensures Filled(queue, p, slot).Success? ==> slot.Success?
    ensures Filled(queue, p, slot).Success? ==> (Filled(queue, p, slot).value.Elements? <==> slot.value.Elements?)
  {
  }

  function ShapedFor(command: Command, element: Element): Element {
    if element.Raw? then Shaped(command.id, element.text) else element
  }

  /**
   After any number of rounds, a pipeline that resolves gives result i the reply that the user's i-th
   command got in the last round, unless that round put ASKINGs in that were never sent; then as many
   results as ASKINGs are missing.
   */
  lemma ResultsMatchCommands(config: Config, user: seq<Command>, events: seq<Event>, t: State)
    requires forall c :: c in user ==> !c.ignore
    requires Reaches(config, Initial(user), events, t) && t.phase == Done && t.resolved.Some?
    ensures |t.resolved.value| == |user| - t.unsent && t.unsent >= 0
    ensures Delivers(user, t) <==> t.unsent == 0
  {
    hide Reaches, Delivers, DeliveredAt;
    InitialInv(user);
    ReachesKeeps(config, user, Initial(user), events, t);
    DeliversSize(user, t);
  }

  /** In every state a pipeline reaches, the reply to any position that has none yet can come in. */
  lemma EveryReplyComesIn(config: Config, user: seq<Command>, events: seq<Event>, s: State, position: nat,
                          slot: Slot, ready: bool)
    requires forall c :: c in user ==> !c.ignore
    requires Reaches(config, Initial(user), events, s) && s.phase == Running && position in s.outstanding
        && !slot.Missing?
    ensures Enabled(s, Reply(position, slot, ready))
  {
    hide Reaches, Delivers;
    InitialInv(user);
    ReachesKeeps(config, user, Initial(user), events, s);
    RepliesAreSized(user, s, position);
  }

  /**
   After any number of rounds, ASK rounds included, each element of a transaction's result is the element
   that came in for its EXEC in the last round, transformed by the user's command it answers: the elements of
   the i-th command's reply belong to the commands that the user queued right before it.
   */
  lemma TransactionIsShaped(config: Config, user: seq<Command>, events: seq<Event>, t: State, i: nat)
    returns (elements: seq<Element>)
    requires forall c :: c in user ==> !c.ignore
    requires Reaches(config, Initial(user), events, t) && t.phase == Done && t.resolved.Some? && t.unsent == 0
    requires i < |user| == |t.resolved.value| && user[i].verb == Exec
    requires t.resolved.value[i].Success? && t.resolved.value[i].value.Elements?
    requires |t.resolved.value[i].value.elements| <= i
    requires forall k :: i - |t.resolved.value[i].value.elements| <= k < i ==> user[k].inTransaction
    ensures exists p :: p in t.round && t.round[p] == Success(Elements(elements))
    ensures |elements| == |t.resolved.value[i].value.elements|
    ensures forall k :: 0 <= k < |elements| ==>
              t.resolved.value[i].value.elements[k] == ShapedFor(user[i - |elements| + k], elements[k])
  {
    hide Reaches, Users, Tidy, Rank;
    InitialInv(user);
    ReachesKeeps(config, user, Initial(user), events, t);
    assert DeliveredAt(user, t, i);
    var p :| 0 <= p < |t.queue| && !t.queue[p].ignore && t.queue[p] == user[i] && Rank(t.queue, p) == i
          && p in t.round && t.resolved.value[i] == Filled(t.queue, p, t.round[p]);
    FilledBack(t.queue, p, t.round[p]);
    elements := t.round[p].value.elements;
    forall k | 0 <= k < |elements|
      ensures t.resolved.value[i].value.elements[k] == ShapedFor(user[i - |elements| + k], elements[k])
    {
      BodyStaysBeforeExec(t.queue, p, |elements| - k);
    }
  }

  lemma DeliversSize(user: seq<Command>, t: State)
    ensures Delivers(user, t) ==> t.resolved.Some? && |t.resolved.value| == |user|
  {
  }

  lemma {:induction false} AllUsers(user: seq<Command>)
    requires forall c :: c in user ==> !c.ignore
    ensures Users(user) == user
    decreases |user|
  {
    hide Users;
    if user == [] {
      NothingAsks();
    }
    if user != [] {
      var front := user[..|user| - 1];
      assert user[|user| - 1] in user && forall c :: c in front ==> c in user;
      AllUsers(front);
      UsersSnoc(front, user[|user| - 1]);
      assert user == front + [user[|user| - 1]];
    }
  }

  lemma {:induction false} RebuiltGrowsIff(queue: seq<Command>, asking: Command, n: nat)
    requires n <= |queue|
    ensures |Rebuilt(queue, asking, n)| >= n
    ensures |Rebuilt(queue, asking, n)| > n <==> exists i :: 0 <= i < n && Needs(queue, i)
    decreases n
  {
    hide Needs;
    if n > 0 {
      RebuiltGrowsIff(queue, asking, n - 1);
      if exists i :: 0 <= i < n && Needs(queue, i) {
        var i :| 0 <= i < n && Needs(queue, i);
        assert i == n - 1 || (0 <= i < n - 1 && Needs(queue, i));
      }
    }
  }

  function Left(ttl: Option<int>, options: Options): int {
    if ttl == None then options.maxRedirections else ttl.value - 1
  }

  /** A round ends in an ASK that the budget no longer covers, while some command lacks its ASKING. */
  ghost predicate LosesResults(config: Config, s: State)
    requires |s.result| == |s.queue|
  {
    && config.cluster && Decision(s.queue, s.result).Some?
    && Words(Decision(s.queue, s.result).value.message)[0] == "ASK"
    && Left(s.ttl, config.options) <= 0
    && exists i :: 0 <= i < |s.queue| && Needs(s.queue, i)
  }

  /** Results go missing exactly then. */
  lemma ResultsMissingIff(config: Config, s: State, ready: bool)
    requires |s.result| == |s.queue|
    ensures Finish(config, s, ready).phase == Done && Finish(config, s, ready).unsent > 0 <==> LosesResults(config, s)
  {
    hide Needs, Words, Compact, Decision;
    RebuiltGrowsIff(s.queue, AskingCommand(config.askingReadonly), |s.queue|);
  }

  /**
   An ASKING that succeeded is a success of a command that is not read-only, outside a transaction: after
   an ASK round in which the node took one, the pipeline is not sent again, whatever the other errors are.
   */
  lemma AskedRoundIsFinal(config: Config, s: State, ready: bool, p: nat)
    requires |s.result| == |s.queue| && p < |s.queue|
    requires s.queue[p] == AskingCommand(false) && s.result[p].Success?
    ensures Finish(config, s, ready) == Resolve(s, s.queue)
  {
    assert Final(s.queue[p], s.result[p]);
    assert forall e :: !Agreed(s.queue, s.result, e);
  }

  /** The words of a message with a space are those on its two sides. */
  lemma {:induction false} WordsAround(word: string, rest: string)
    requires ' ' !in word
    ensures Words(word + " " + rest) == [word] + Words(rest)
    decreases |word|
  {
    var message := word + " " + rest;
    if word == "" {
      assert message[1..] == rest;
    } else {
      assert message[1..] == word[1..] + " " + rest;
      WordsAround(word[1..], rest);
      assert [word[0]] + word[1..] == word;
    }
  }

  /** The round of a pipeline of one command that fails. */
  lemma OneReply(config: Config, command: Command, s: State, error: Error, ready: bool)
    requires s.queue == [command] && s.phase == Built && |s.result| <= 1 && !command.ignore && command.verb.Other?
    ensures var sent := OnExec(s, false);
            var reply := Reply(0, Failure(error), ready);
            Enabled(s, Start(false)) && Enabled(sent, reply)
            && Step(config, sent, reply)
            == Finish(config, sent.(result := [Failure(error)], replyPending := 0, outstanding := {},
                                    round := map[0 := Failure(error)]), ready)
  {
    var sent := OnExec(s, false);
    assert 0 in sent.outstanding && sent.outstanding - {0} == {};
    assert Put(sent.result, 0, Failure(error)) == [Failure(error)];
  }

  lemma OneErrorAgrees(command: Command, error: Error)
    requires command.verb.Other?
    ensures Decision([command], [Failure(error)]) == Some(error)
  {
    assert Considered([command][0], [Failure(error)][0]);
    assert Agreed([command], [Failure(error)], error);
  }

  const GET := Command(Some(0), Other("get"), false, false, true)

  const MOVED_MESSAGE := "MOVED" + " " + ("0" + " " + "h:1")
  const ASK_MESSAGE := "ASK" + " " + "0 h:1"

  /** A single GET is moved, and then told to ask elsewhere. */
  function MissingRun(ready: bool): seq<Event> {
    [Start(false), Reply(0, Failure(Error("ReplyError", MOVED_MESSAGE)), ready),
     Start(false), Reply(0, Failure(Error("ReplyError", ASK_MESSAGE)), ready)]
  }

  /** With one redirection allowed, that GET resolves to no result at all. */
  lemma ResultsMissingExample(number: Option<string> -> Option<int>, ready: bool) returns (t: State)
    requires number(Some("0")) == Some(0)
    ensures var config := Config(true, false, Options(1, 0, 0, 0, 0), number);
            Reaches(config, Initial([GET]), MissingRun(ready), t)
            && t.phase == Done && t.resolved == Some([]) && t.unsent == 1
  {
    hide Finish, Words;
    var config := Config(true, false, Options(1, 0, 0, 0, 0), number);
    var moved, ask := Error("ReplyError", MOVED_MESSAGE), Error("ReplyError", ASK_MESSAGE);
    var events := MissingRun(ready);
    var s1 := OnExec(Initial([GET]), false);
    OneReply(config, GET, Initial([GET]), moved, ready);
    var s2 := Step(config, s1, events[1]);
    MovedIs(config, s1.(result := [Failure(moved)], replyPending := 0, outstanding := {},
                        round := map[0 := Failure(moved)]), moved, ready);
    var s3 := OnExec(s2, false);
    OneReply(config, GET, s2, ask, ready);
    t := Step(config, s3, events[3]);
    AskIs(config, s3.(result := [Failure(ask)], replyPending := 0, outstanding := {}, round := map[0 := Failure(ask)]),
          ask, ready);
    assert Reaches(config, t, [], t);
    assert Reaches(config, s3, events[3..], t) by {
      assert events[3..][1..] == [];
    }
    assert Reaches(config, s2, events[2..], t) by {
      assert events[2..][1..] == events[3..];
    }
    assert Reaches(config, s1, events[1..], t) by {
      assert events[1..][1..] == events[2..];
    }
  }

  lemma MovedIs(config: Config, s: State, error: Error, ready: bool)
    requires config.cluster && config.options == Options(1, 0, 0, 0, 0) && error.message == MOVED_MESSAGE
    requires config.number(Some("0")) == Some(0)
    requires s.queue == [GET] && s.result == [Failure(error)] && s.ttl == None
    ensures Finish(config, s, ready) == s.(ttl := Some(1), phase := Built)
  {
    hide Words;
    WordsAround("MOVED", "0" + " " + "h:1");
    WordsAround("0", "h:1");
    OneErrorAgrees(GET, error);
  }

  lemma AskIs(config: Config, s: State, error: Error, ready: bool)
    requires config.cluster && config.options == Options(1, 0, 0, 0, 0) && error.message == ASK_MESSAGE
    requires s.queue == [GET] && s.result == [Failure(error)] && s.ttl == Some(1)
    ensures var t := Finish(config, s, ready); t.phase == Done && t.resolved == Some([]) && t.unsent == 1
  {
    hide Words, Compact;
    WordsAround("ASK", "0 h:1");
    OneErrorAgrees(GET, error);
    var asking := AskingCommand(config.askingReadonly);
    var rebuilt := Rebuilt([GET], asking, 1);
    assert rebuilt == Rebuilt([GET], asking, 0) + [asking] + [GET] == [asking, GET];
    CompactsToNothing(asking, s.result);
  }

  lemma CompactsToNothing(asking: Command, result: seq<Slot>)
    requires asking.ignore && |result| == 1
    ensures Compact([asking, GET], result) == []
  {
    assert Compacted([asking, GET], result, 0, 0) == (Put(result, 0, Missing), 1);
  }
}
