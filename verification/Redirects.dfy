/**
 How the cluster reacts to an error reply: which errors are followed or tried again, and the budget that
 bounds how often.
 */
module Redirects {
  import opened Wrappers

  const SLOTS := 16384
  const CONNECTION_CLOSED := "Connection is closed."

  /** `retryDelayOnMoved` and the like are delays in milliseconds; zero means none is configured. */
  datatype Options = Options(maxRedirections: int, retryDelayOnMoved: nat, retryDelayOnTryAgain: nat,
                             retryDelayOnClusterDown: int, retryDelayOnFailover: int)

  /** The handler to call, at once or through a bucket of the delay queue. */
  datatype Action =
    | Moved(slot: nat, key: Option<string>, delayed: bool)
    | Ask(askedSlot: Option<string>, key: Option<string>)
    | TryAgain
    | ClusterDown
    | Failover
    | MaxRedirections
    | Defaults
  {
    predicate Retries() {
      !MaxRedirections? && !Defaults?
    }
  }

  datatype Handled = Handled(ttl: int, action: Action)

  /** The words of a message, as separated by single spaces. */
  function Words(message: string): (ws: seq<string>)
    ensures ws != []
  {
    if message == "" then [""]
    else
      var rest := Words(message[1..]);
      if message[0] == ' ' then [""] + rest else [[message[0]] + rest[0]] + rest[1..]
  }

  function Word(message: string, i: nat): Option<string> {
    var ws := Words(message);
    if i < |ws| then Some(ws[i]) else None
  }

  /** `ttl` is None until the first error; `number` is the integer a word stands for, if it stands for one. */
  function HandleError(ttl: Option<int>, message: string, options: Options, ready: bool,
                       number: Option<string> -> Option<int>): Handled {
    var left := if ttl == None then options.maxRedirections else ttl.value - 1;
    if left <= 0 then Handled(left, MaxRedirections)
    else
      var first := Words(message)[0];
      if first == "MOVED" then
        var slot := number(Word(message, 1));
        if slot == None || slot.value < 0 || slot.value >= SLOTS then Handled(left, Defaults)
        else Handled(left, Moved(slot.value, Word(message, 2), options.retryDelayOnMoved > 0))
      else if first == "ASK" then Handled(left, Ask(Word(message, 1), Word(message, 2)))
      else if first == "TRYAGAIN" then Handled(left, TryAgain)
      else if first == "CLUSTERDOWN" && options.retryDelayOnClusterDown > 0 then Handled(left, ClusterDown)
      else if message == CONNECTION_CLOSED && options.retryDelayOnFailover > 0 && ready then Handled(left, Failover)
      else Handled(left, Defaults)
  }

  /** The budget that a command or a pipeline carries along. */
  class Ttl {
    var value: Option<int>

    constructor ()
      ensures value == None
    {
      value := None;
    }

    method Handle(message: string, options: Options, ready: bool,
                  number: Option<string> -> Option<int>) returns (action: Action)
      modifies this
      ensures value.Some? && Handled(value.value, action) == HandleError(old(value), message, options, ready, number)
    {
      if value == None {
        value := Some(options.maxRedirections);
      } else {
        value := Some(value.value - 1);
      }
      if value.value <= 0 {
        return MaxRedirections;
      }
      var errv := Words(message);
      if errv[0] == "MOVED" {
        var slot := number(if |errv| > 1 then Some(errv[1]) else None);
        if slot == None || slot.value < 0 || slot.value >= SLOTS {
          return Defaults;
        }
        action := Moved(slot.value, if |errv| > 2 then Some(errv[2]) else None, options.retryDelayOnMoved > 0);
      } else if errv[0] == "ASK" {
        action := Ask(if |errv| > 1 then Some(errv[1]) else None, if |errv| > 2 then Some(errv[2]) else None);
      } else if errv[0] == "TRYAGAIN" {
        action := TryAgain;
      } else if errv[0] == "CLUSTERDOWN" && options.retryDelayOnClusterDown > 0 {
        action := ClusterDown;
      } else if message == CONNECTION_CLOSED && options.retryDelayOnFailover > 0 && ready {
        action := Failover;
      } else {
        action := Defaults;
      }
    }
  }

  // ---------- one command ----------

  /** A command between its first write and its settlement; an error hands it to the overwritten reject. */
  datatype Trial = Trying(ttl: Option<int>, retries: nat) | Resolved(retries: nat) | Rejected(retries: nat)

  /** None is a reply that is not an error. */
  type Reply = Option<string>

  function Answer(t: Trial, reply: Reply, options: Options, ready: bool, number: Option<string> -> Option<int>): Trial {
    if !t.Trying? then t
    else if reply == None then Resolved(t.retries)
    else
      var h := HandleError(t.ttl, reply.value, options, ready, number);
      if h.action.Retries() then Trying(Some(h.ttl), t.retries + 1) else Rejected(t.retries)
  }

  function AnswerAll(t: Trial, replies: seq<(Reply, bool)>, options: Options,
                     number: Option<string> -> Option<int>): Trial
    decreases |replies|
  {
    if replies == [] then t
    else AnswerAll(Answer(t, replies[0].0, options, replies[0].1, number), replies[1..], options, number)
  }

  function Budget(options: Options): nat {
    if options.maxRedirections > 0 then options.maxRedirections else 0
  }

  /** While a command is tried, its budget is what has not been used up. */
  predicate WithinBudget(t: Trial, options: Options) {
    t.retries <= Budget(options)
    && (t.Trying? ==> if t.retries == 0 then t.ttl == None
                      else t.ttl == Some(options.maxRedirections - t.retries + 1) && t.ttl.value > 0)
  }

  lemma AnswerKeepsBudget(t: Trial, reply: Reply, options: Options, ready: bool,
                          number: Option<string> -> Option<int>)
    requires WithinBudget(t, options)
    ensures var u := Answer(t, reply, options, ready, number);
            WithinBudget(u, options) && (u.Trying? ==> t.Trying? && u.retries == t.retries + 1)
  {
  }

  lemma {:induction false} BudgetIsKept(t: Trial, replies: seq<(Reply, bool)>, options: Options,
                                        number: Option<string> -> Option<int>)
    requires WithinBudget(t, options)
    ensures var u := AnswerAll(t, replies, options, number);
            WithinBudget(u, options)
            && (u.Trying? ==> t.Trying? && u.retries == t.retries + |replies|)
    decreases |replies|
  {
    hide Answer, WithinBudget;
    if replies != [] {
      var u := Answer(t, replies[0].0, options, replies[0].1, number);
      AnswerKeepsBudget(t, replies[0].0, options, replies[0].1, number);
      BudgetIsKept(u, replies[1..], options, number);
    }
  }

  /**
   Whatever the replies are, a command is sent again at most `maxRedirections` times, and it is settled
   once more replies than that have come in.
   */
  lemma RetriesAreBounded(replies: seq<(Reply, bool)>, options: Options, number: Option<string> -> Option<int>)
    ensures var t := AnswerAll(Trying(None, 0), replies, options, number);
            t.retries <= Budget(options) && (|replies| > Budget(options) ==> !t.Trying?)
  {
    BudgetIsKept(Trying(None, 0), replies, options, number);
  }

  /** A reply that the handlers follow, whatever is left of the budget. */
  predicate Followed(reply: Reply, options: Options, ready: bool, number: Option<string> -> Option<int>) {
    reply.Some? && HandleError(None, reply.value, options.(maxRedirections := 1), ready, number).action.Retries()
  }

  lemma {:induction false} FollowedRun(t: Trial, replies: seq<(Reply, bool)>, options: Options,
                                       number: Option<string> -> Option<int>)
    requires WithinBudget(t, options) && t.Trying?
    ensures AnswerAll(t, replies, options, number).Trying?
       <==> t.retries + |replies| <= Budget(options)
            && forall i :: 0 <= i < |replies| ==> Followed(replies[i].0, options, replies[i].1, number)
    decreases |replies|
  {
    if replies != [] {
      var u := Answer(t, replies[0].0, options, replies[0].1, number);
      assert WithinBudget(u, options);
      assert u.Trying? <==> t.retries + 1 <= Budget(options) && Followed(replies[0].0, options, replies[0].1, number);
      if u.Trying? {
        FollowedRun(u, replies[1..], options, number);
        assert forall i :: 0 < i < |replies| ==> replies[i] == replies[1..][i - 1];
      } else {
        BudgetIsKept(u, replies[1..], options, number);
      }
    }
  }

  /** A command is still being tried if and only if the budget covers every reply and every reply is one to follow. */
  lemma StillTriedIff(replies: seq<(Reply, bool)>, options: Options, number: Option<string> -> Option<int>)
    ensures AnswerAll(Trying(None, 0), replies, options, number).Trying?
       <==> |replies| <= Budget(options)
            && forall i :: 0 <= i < |replies| ==> Followed(replies[i].0, options, replies[i].1, number)
  {
    FollowedRun(Trying(None, 0), replies, options, number);
  }

  /** The slots that a run of one command writes in the slot table, one for each MOVED it follows. */
  function Moves(t: Trial, replies: seq<(Reply, bool)>, options: Options,
                 number: Option<string> -> Option<int>): seq<nat>
    decreases |replies|
  {
    if replies == [] then []
    else
      var rest := Moves(Answer(t, replies[0].0, options, replies[0].1, number), replies[1..], options, number);
      if t.Trying? && replies[0].0.Some? then
        var action := HandleError(t.ttl, replies[0].0.value, options, replies[0].1, number).action;
        if action.Moved? then [action.slot] + rest else rest
      else rest
  }

  lemma {:induction false} MovesAreBounded(t: Trial, replies: seq<(Reply, bool)>, options: Options,
                                           number: Option<string> -> Option<int>)
    requires WithinBudget(t, options)
    ensures forall slot :: slot in Moves(t, replies, options, number) ==> slot < SLOTS
    ensures |Moves(t, replies, options, number)| + t.retries <= Budget(options)
    decreases |replies|
  {
    hide Words;
    if replies != [] {
      var u := Answer(t, replies[0].0, options, replies[0].1, number);
      assert WithinBudget(u, options);
      MovesAreBounded(u, replies[1..], options, number);
    }
  }

  /**
   Whatever the servers answer, a command writes only slots of the cluster in the slot table, and at most
   `maxRedirections` of them.
   */
  lemma MovesStayInTable(replies: seq<(Reply, bool)>, options: Options, number: Option<string> -> Option<int>)
    ensures forall slot :: slot in Moves(Trying(None, 0), replies, options, number) ==> slot < SLOTS
    ensures |Moves(Trying(None, 0), replies, options, number)| <= Budget(options)
  {
    MovesAreBounded(Trying(None, 0), replies, options, number);
  }
}
