/** One subscriber connection of a sharded cluster: a status that only moves forward. */
module ShardedSubscriber {
  datatype Status = Idle | Starting | Connected | Stopping | Ended

  /** The statuses that may follow a status. */
  function Allowed(status: Status): set<Status> {
    match status
    case Idle => {Starting, Stopping, Ended}
    case Starting => {Connected, Stopping, Ended}
    case Connected => {Stopping, Ended}
    case Stopping => {Ended}
    case Ended => {}
  }

  function Update(status: Status, next: Status): Status {
    if next in Allowed(status) then next else status
  }

  /** The status of the connection object: wait, on the way to ready, ready, or end. */
  datatype Link = Unopened | Opening | Open | Shut

  /** `connecting` is whether a connect promise is pending, `instance` whether the connection object is still held. */
  datatype Sub = Sub(status: Status, instance: bool, connecting: bool, link: Link) {
    predicate IsStarted() {
      status == Connected || status == Starting
    }

    predicate IsHealthy() {
      (status == Idle || status == Connected || status == Starting) && instance
    }
  }

  const Fresh := Sub(Idle, true, false, Unopened)

  /**
   The connection becomes ready or is lost; the connect promise settles and the end event comes after that.
   Connections are not opened a second time.
   */
  datatype Event = Start | Ready | Lost | Settle(connected: bool) | Stop | ConnectionEnd

  function OnStart(s: Sub): Sub {
    if s.connecting || s.IsStarted() || s.status == Ended || !s.instance then s
    else s.(status := Update(s.status, Starting), connecting := true,
            link := if s.link == Unopened then Opening else s.link)
  }

  function OnSettle(s: Sub, connected: bool): Sub {
    s.(status := Update(s.status, if connected then Connected else Ended), connecting := false)
  }

  function OnStop(s: Sub): Sub {
    s.(status := Update(Update(s.status, Stopping), Ended), instance := false)
  }

  function Step(s: Sub, e: Event): Sub {
    match e
    case Start => OnStart(s)
    case Ready => if s.link == Opening then s.(link := Open) else s
    case Lost => if s.link == Opening || s.link == Open then s.(link := Shut) else s
    case Settle(connected) => if s.connecting && Settles(s, connected) then OnSettle(s, connected) else s
    case Stop => OnStop(s)
    case ConnectionEnd => if s.link == Shut then s.(status := Update(s.status, Ended)) else s
  }

  /** A connect promise is resolved by the ready event and rejected when the connection is lost before it. */
  predicate Settles(s: Sub, connected: bool) {
    s.link == Shut || (connected && s.link == Open)
  }

  function Run(s: Sub, events: seq<Event>): Sub
    decreases |events|
  {
    if events == [] then s else Run(Step(s, events[0]), events[1..])
  }

  class Subscriber {
    var status: Status
    var instance: bool
    var connecting: bool
    var link: Link

    function View(): Sub
      reads this
    {
      Sub(status, instance, connecting, link)
    }

    constructor ()
      ensures View() == Fresh
    {
      status, instance, connecting, link := Idle, true, false, Unopened;
    }

    method UpdateStatus(next: Status)
      modifies this`status
      ensures status == Update(old(status), next)
    {
      if status == next {
        return;
      }
      if next !in Allowed(status) {
        return;
      }
      status := next;
    }

    method Begin() returns (refused: bool)
      modifies this
      ensures View() == OnStart(old(View()))
      ensures refused <==> !old(connecting) && !old(View()).IsStarted() && (old(status) == Ended || !old(instance))
    {
      refused := false;
      if connecting {
        return;
      }
      if status == Starting || status == Connected {
        return;
      }
      if status == Ended || !instance {
        return true;
      }
      UpdateStatus(Starting);
      if link == Unopened {
        link := Opening;
      }
      connecting := true;
    }

    method ConnectSettled(connected: bool)
      modifies this
      ensures View() == OnSettle(old(View()), connected)
    {
      if connected {
        UpdateStatus(Connected);
      } else {
        UpdateStatus(Ended);
      }
      connecting := false;
    }

    method End()
      modifies this
      ensures View() == OnStop(old(View()))
    {
      UpdateStatus(Stopping);
      if instance {
        instance := false;
      }
      UpdateStatus(Ended);
    }

    method OnEnd()
      requires link == Shut
      modifies this
      ensures View() == Step(old(View()), ConnectionEnd)
    {
      UpdateStatus(Ended);
    }
  }

  function Rank(status: Status): nat {
    match status case Idle => 0 case Starting => 1 case Connected => 2 case Stopping => 3 case Ended => 4
  }

  /** Stopping ends a subscriber from any status, and a status never goes back. */
  lemma StepMovesForward(s: Sub, e: Event)
    ensures Rank(Step(s, e).status) >= Rank(s.status)
    ensures !s.instance ==> !Step(s, e).instance
    ensures e == Stop ==> Step(s, e).status == Ended && !Step(s, e).instance
  {
  }

  /** Whatever is called and whatever the connection does, a status never goes back; once ended, always ended. */
  lemma {:induction false} StatusNeverGoesBack(s: Sub, events: seq<Event>)
    ensures Rank(Run(s, events).status) >= Rank(s.status)
    ensures s.status == Ended ==> Run(s, events).status == Ended
    decreases |events|
  {
    if events != [] {
      StepMovesForward(s, events[0]);
      StatusNeverGoesBack(Step(s, events[0]), events[1..]);
    }
  }

  /** A connect promise that resolves after the subscriber was stopped does not bring it back. */
  lemma {:induction false} StoppedStaysEnded(s: Sub, events: seq<Event>)
    requires Stop in events
    ensures Run(s, events).status == Ended && !Run(s, events).IsHealthy()
    decreases |events|
  {
    if events[0] == Stop {
      StatusNeverGoesBack(Step(s, Stop), events[1..]);
    } else {
      StoppedStaysEnded(Step(s, events[0]), events[1..]);
    }
  }
}
