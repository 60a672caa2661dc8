/**
 Automatic pipelining on a cluster: what a batch is given when the pipeline that carries it has been retried
 and redirected.
 */
module ClusterAutoPipelining {
  import opened Wrappers
  import A = AutoPipelining
  import P = PipelineRetry
  import R = Redirects

  /** The results a caller can be given: those before the first one that is undefined. */
  function Defined(slots: seq<P.Slot>, show: P.Value -> string): seq<A.Result> {
    if slots == [] || slots[0].Missing? then []
    else [if slots[0].Success? then A.Replied(show(slots[0].value)) else A.Rejected(slots[0].error.message)]
         + Defined(slots[1..], show)
  }

  /** What the callback passed to exec is given by a pipeline that is done. */
  function OutcomeOf(t: P.State, refusal: string, show: P.Value -> string): A.Outcome {
    if t.resolved == None then A.Failure(refusal) else A.Results(Defined(t.resolved.value, show))
  }

  lemma {:induction false} DefinedSize(slots: seq<P.Slot>, show: P.Value -> string)
    ensures |Defined(slots, show)| <= |slots|
    ensures (forall i :: 0 <= i < |slots| ==> !slots[i].Missing?) ==> |Defined(slots, show)| == |slots|
    decreases |slots|
  {
    if slots != [] {
      DefinedSize(slots[1..], show);
      assert forall i :: 0 < i < |slots| ==> slots[i] == slots[1..][i - 1];
    }
  }

  lemma DeliveredIsDefined(user: seq<P.Command>, t: P.State)
    requires P.Delivers(user, t)
    ensures forall i :: 0 <= i < |t.resolved.value| ==> !t.resolved.value[i].Missing?
  {
    forall i | 0 <= i < |t.resolved.value|
      ensures !t.resolved.value[i].Missing?
    {
      assert P.DeliveredAt(user, t, i);
    }
  }

  /** A pipeline gives every callback of its batch something if and only if it sent every ASKING it put in. */
  lemma OutcomeIsFullIff(config: P.Config, user: seq<P.Command>, events: seq<P.Event>, t: P.State,
                         refusal: string, show: P.Value -> string)
    requires forall c :: c in user ==> !c.ignore
    requires P.Reaches(config, P.Initial(user), events, t) && t.phase == P.Done
    ensures A.Full(|user|, OutcomeOf(t, refusal, show)) <==> t.resolved == None || t.unsent == 0
  {
    if t.resolved.Some? {
      hide P.Reaches, P.Delivers;
      P.ResultsMatchCommands(config, user, events, t);
      DefinedSize(t.resolved.value, show);
      if t.unsent == 0 {
        DeliveredIsDefined(user, t);
      }
    }
  }

  /**
   The last reply of a round that is not followed by another one gives every callback something, unless the
   round ends in an ASK that the budget no longer covers while some command lacks its ASKING.
   */
  lemma LastReplyIsFullIff(config: P.Config, user: seq<P.Command>, events: seq<P.Event>, s: P.State, last: P.Event,
                           refusal: string, show: P.Value -> string)
    requires forall c :: c in user ==> !c.ignore
    requires P.Reaches(config, P.Initial(user), events, s)
    requires last.Reply? && P.Enabled(s, last) && s.replyPending == 1 && P.Step(config, s, last).phase == P.Done
    ensures A.Full(|user|, OutcomeOf(P.Step(config, s, last), refusal, show))
       <==> !P.LosesResults(config, P.Fill(s, last.position, last.slot))
  {
    hide P.Reaches, P.LosesResults, P.Fill, P.Delivers, R.HandleError, P.Rebuilt;
    P.ReachesMore(config, P.Initial(user), events, s, last);
    var f, t := P.Fill(s, last.position, last.slot), P.Step(config, s, last);
    OutcomeIsFullIff(config, user, events + [last], t, refusal, show);
    FilledSize(s, last.position, last.slot);
    P.ResultsMissingIff(config, f, last.ready);
    assert t == P.Finish(config, f, last.ready) && t.resolved.Some?;
    P.ResultsMatchCommands(config, user, events + [last], t);
  }

  lemma FilledSize(s: P.State, position: nat, slot: P.Slot)
    requires P.Sized(s, position) && s.replyPending == 1
    ensures |P.Fill(s, position, slot).result| == |P.Fill(s, position, slot).queue|
    ensures P.Fill(s, position, slot).replyPending == 0
  {
  }

  lemma OutcomeFits(config: P.Config, user: seq<P.Command>, events: seq<P.Event>, t: P.State,
                    refusal: string, show: P.Value -> string)
    requires forall c :: c in user ==> !c.ignore
    requires P.Reaches(config, P.Initial(user), events, t) && t.phase == P.Done
    ensures var outcome := OutcomeOf(t, refusal, show);
            outcome.Results? ==> |outcome.results| <= |user|
  {
    if t.resolved.Some? {
      hide P.Reaches, P.Delivers;
      P.ResultsMatchCommands(config, user, events, t);
      DefinedSize(t.resolved.value, show);
    }
  }

  /**
   When the pipeline of a batch is done, each waiting batch still has something to start it, if and only if
   the pipeline was refused, or sent every ASKING it put in while every call of the batch has put in a command,
   or none of its key waits, or one that waits is still scheduled.
   */
  lemma ClusterPromiseIff(s: A.State, i: nat, config: P.Config, user: seq<P.Command>, events: seq<P.Event>, t: P.State,
                          refusal: string, show: P.Value -> string)
    requires A.Inv(s) && A.Promised(s) && i < |s.flights| && !s.flights[i].deaf && |s.flights[i].commands| == |user|
    requires forall c :: c in user ==> !c.ignore
    requires P.Reaches(config, P.Initial(user), events, t) && t.phase == P.Done
    ensures A.Enabled(s, A.Complete(i, OutcomeOf(t, refusal, show)))
    ensures A.Promised(A.Step(s, A.Complete(i, OutcomeOf(t, refusal, show))))
       <==> t.resolved == None || (t.unsent == 0 && A.Aligned(s.flights[i].callbacks) == |s.flights[i].callbacks|)
            || s.flights[i].key !in s.waiting || s.flights[i].key in s.immediates
  {
    hide P.Reaches, A.Accounted, A.DistinctKeys, A.Promised, A.Step;
    OutcomeIsFullIff(config, user, events, t, refusal, show);
    OutcomeFits(config, user, events, t, refusal, show);
    var f := s.flights[i];
    assert f in s.flights && A.Fits(f.commands, f.callbacks, |s.issued|);
    A.QueuedSize(f.callbacks);
    A.StepKeepsPromiseIff(s, A.Complete(i, OutcomeOf(t, refusal, show)));
  }

  /**
   The GET that resolves to nothing, as a batch of one call: the batch behind it is never started, whatever
   happens afterwards, and calls that are made later wait with it.
   */
  lemma StuckOnCluster(key: A.Key, number: Option<string> -> Option<int>, ready: bool, refusal: string,
                       show: P.Value -> string)
    returns (t: P.State, s: A.State)
    requires number(Some("0")) == Some(0)
    ensures var config := P.Config(true, false, R.Options(1, 0, 0, 0, 0), number);
            P.Reaches(config, P.Initial([P.GET]), P.MissingRun(ready), t)
    ensures A.StuckRun(key)[4] == A.Complete(0, OutcomeOf(t, refusal, show))
    ensures A.Reaches(A.Idle({"get"}), A.StuckRun(key), s) && A.Stuck(s, key)
    ensures forall later, u :: A.Reaches(s, later, u) ==> A.Stuck(u, key)
  {
    hide A.Inv, A.Stuck, A.Reaches;
    t := P.ResultsMissingExample(number, ready);
    s := A.StuckExample(key);
    A.ReachableInv({"get"}, A.StuckRun(key), s);
    forall later, u | A.Reaches(s, later, u)
      ensures A.Stuck(u, key)
    {
      A.StuckForever(s, later, u, key);
    }
  }
}
