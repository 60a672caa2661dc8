/**
 One connection, from ready to close: a client that writes commands, and a server that answers them in
 order, sending one confirmation per channel of a subscribe or unsubscribe and messages in between.
 */
module Connection {
  import opened Wrappers
  import opened DataHandler

  /**
   `written` is every command written so far, of which the first `answered` have had their last reply,
   and the next one has had `got` confirmations. `subs` is the server's subscription set as confirmed so
   far and `due` is what the client should have logged by now. `stale` are the kinds of which the empty channel
   name has been unsubscribed while something else was held, and since then neither has it been subscribed to
   again nor has everything been unsubscribed.
   */
  datatype System = System(client: Client, sharded: bool, written: seq<Command>, answered: nat, got: nat, subs: Subs,
                           stale: set<Kind>, due: seq<Entry>)

  datatype Event =
    | Send(name: Name, args: seq<string>)
    | Answer(reply: Reply)
    | AnswerError(error: string, moved: bool)
    | ConfirmNext
    | RevokeNext
    | Publish(kind: Kind, channel: string, body: string)
    | MigrateSlot(channel: string)

  function Initial(protocol: Protocol, sharded: bool): System {
    System(Client(protocol, [], map[], None, []), sharded, [], 0, 0, NoSubs, {}, [])
  }

  function Head(s: System): Command
    requires s.answered < |s.written|
  {
    s.written[s.answered]
  }

  /** A connection carries either shard channels or the other kinds, whose counts the server keeps apart. */
  predicate KindAllowed(s: System, kind: Kind) {
    s.sharded <==> kind == Shard
  }

  /** What the client may write and what a server that keeps the protocol may send next. */
  predicate Enabled(s: System, e: Event) {
    match e
    case Send(name, args) => name.Ordinary? || (args != [] && KindAllowed(s, name.kind))
    case Answer(reply) =>
      && s.answered < |s.written| && Head(s).name.Ordinary?
      && (s.client.protocol == Protocol2 && s.subs != NoSubs ==> reply.word.None?)
    case AnswerError(_, _) => s.answered < |s.written| && s.got == 0
    case ConfirmNext => s.answered < |s.written| && Head(s).name.Subscribe? && s.got < |Head(s).args|
    case RevokeNext => s.answered < |s.written| && Head(s).name.Unsubscribe? && s.got < |Head(s).args|
    case Publish(kind, channel, _) => s.subs != NoSubs
    case MigrateSlot(channel) =>
      && channel in s.subs.ssubscribe
      && (s.answered < |s.written| ==> Head(s).name != Unsubscribe(Shard))
  }

  /** Pub/sub replies are pushes in RESP3 and plain replies in RESP2. */
  function Receive(c: Client, r: Reply): Client {
    if c.protocol == Protocol3 then OnPushFrame(c, r) else OnReplyFrame(c, r)
  }

  function Answered(s: System, entries: seq<Entry>): System {
    s.(answered := s.answered + 1, got := 0, due := s.due + entries)
  }

  /** One confirmation has been sent; the last one settles the command with its count. */
  function Counted(s: System, count: nat): System
    requires s.answered < |s.written|
  {
    if s.got + 1 >= |Head(s).args| then Answered(s, [Resolved(Head(s).id, CountResult(count))])
    else s.(got := s.got + 1)
  }

  /** The stale kinds after one more channel has been unsubscribed, or subscribed to. */
  function StaleAfter(stale: set<Kind>, subs: Subs, kind: Kind, channel: string): set<Kind> {
    if subs.Del(kind, channel) == NoSubs then {}
    else if channel == "" && "" in subs.Channels(kind) then stale + {kind}
    else stale
  }

  function FreshAfter(stale: set<Kind>, kind: Kind, channel: string): set<Kind> {
    if channel == "" then stale - {kind} else stale
  }

  function Step(s: System, e: Event): System
    requires Enabled(s, e)
  {
    match e
    case Send(name, args) =>
      var command := Command(|s.written|, name, args);
      s.(written := s.written + [command], client := s.client.(queue := s.client.queue + [command]))
    case Answer(reply) =>
      Answered(s, [Resolved(Head(s).id, ReplyResult(reply))]).(client := OnReplyFrame(s.client, reply))
    case AnswerError(error, moved) =>
      Answered(s, (if moved && Head(s).name == Subscribe(Shard) then [Moved] else []) + [Rejected(Head(s).id, error)])
        .(client := OnErrorFrame(s.client, error, moved))
    case ConfirmNext =>
      var channel := Head(s).args[s.got];
      var subs := s.subs.Add(Head(s).name.kind, channel);
      var r := Reply(Some(Confirm(Head(s).name.kind)), Some(channel), subs.Total(), "");
      Counted(s.(subs := subs, stale := FreshAfter(s.stale, Head(s).name.kind, channel)), subs.Total())
        .(client := Receive(s.client, r))
    case RevokeNext =>
      var channel := Head(s).args[s.got];
      var subs := s.subs.Del(Head(s).name.kind, channel);
      var r := Reply(Some(Revoke(Head(s).name.kind)), Some(channel), subs.Total(), "");
      Counted(s.(subs := subs, stale := StaleAfter(s.stale, s.subs, Head(s).name.kind, channel)), subs.Total())
        .(client := Receive(s.client, r))
    case Publish(kind, channel, body) =>
      var r := Reply(Some(Message(kind)), Some(channel), 0, body);
      s.(client := Receive(s.client, r), due := s.due + [Emitted(r)])
    case MigrateSlot(channel) =>
      var subs := s.subs.Del(Shard, channel);
      var r := Reply(Some(Revoke(Shard)), Some(channel), subs.Total(), "");
      s.(client := Receive(s.client, r), subs := subs, stale := StaleAfter(s.stale, s.subs, Shard, channel),
         due := s.due + [Moved])
  }

  /** A record of exactly what the server holds: false when that is empty. */
  function Mirror(subs: Subs): Option<Subs> {
    if subs == NoSubs then None else Some(subs)
  }

  /** The client's record: it keeps the empty name of a stale kind, as an unsubscribe does not take that out. */
  function Record(subs: Subs, stale: set<Kind>): Option<Subs> {
    Mirror(if subs == NoSubs then NoSubs else Kept(subs, stale))
  }

  function Kept(subs: Subs, stale: set<Kind>): Subs {
    Subs(subs.subscribe + EmptyName(stale, Channel), subs.psubscribe + EmptyName(stale, Pattern),
         subs.ssubscribe + EmptyName(stale, Shard))
  }

  function EmptyName(stale: set<Kind>, kind: Kind): set<string> {
    if kind in stale then {""} else {}
  }

  /** Stale kinds are kinds whose empty name the server does not hold, and there are none when it holds nothing. */
  predicate Staleness(subs: Subs, stale: set<Kind>) {
    (subs == NoSubs ==> stale == {}) && forall kind :: kind in stale ==> "" !in subs.Channels(kind)
  }

  /** So the record is exact if and only if no kind is stale. */
  lemma RecordIsMirrorIff(subs: Subs, stale: set<Kind>)
    requires Staleness(subs, stale)
    ensures Record(subs, stale) == Mirror(subs) <==> stale == {}
    ensures Record(subs, stale).None? <==> subs == NoSubs
  {
    if subs != NoSubs {
      HoldsSome(subs, stale);
    }
    if stale != {} {
      var kind :| kind in stale;
      assert "" in Kept(subs, stale).Channels(kind) && "" !in subs.Channels(kind);
    } else {
      assert Kept(subs, stale) == subs;
    }
  }

  lemma HoldsSome(subs: Subs, stale: set<Kind>)
    requires subs != NoSubs
    ensures Kept(subs, stale) != NoSubs
  {
    var kept := Kept(subs, stale);
    if x :| x in subs.subscribe {
      assert x in kept.subscribe;
    } else if x :| x in subs.psubscribe {
      assert x in kept.psubscribe;
    } else if x :| x in subs.ssubscribe {
      assert x in kept.ssubscribe;
    }
  }

  /** From an exact record, one revocation leaves an exact one unless it is of a held empty name beside others. */
  lemma RevocationKeepsMirrorIff(subs: Subs, kind: Kind, channel: string)
    ensures var after := subs.Del(kind, channel);
            var r := Reply(Some(Revoke(kind)), Some(channel), after.Total(), "");
            Revoked(Mirror(subs), kind, r) == Mirror(after) <==>
              (channel != "" || channel !in subs.Channels(kind) || after == NoSubs)
  {
    EmptyTotal(subs.Del(kind, channel));
    assert channel !in subs.Channels(kind) ==> subs.Del(kind, channel) == subs;
    assert channel !in subs.Del(kind, channel).Channels(kind);
  }

  ghost predicate Inv(s: System) {
    && s.answered <= |s.written|
    && (forall i :: 0 <= i < |s.written| ==> s.written[i].id == i)
    && (forall c :: c in s.written && !c.name.Ordinary? ==>
      c.args != [] && KindAllowed(s, c.name.kind))
    && s.client.queue == s.written[s.answered..]
    && s.client.log == s.due
    && s.client.subscriber == Record(s.subs, s.stale) && Staleness(s.subs, s.stale)
    && (if s.sharded then s.subs.subscribe == {} && s.subs.psubscribe == {} else s.subs.ssubscribe == {})
    && (s.got > 0 ==> s.answered < |s.written| && !Head(s).name.Ordinary? && s.got < |Head(s).args|)
    && (forall id :: id in s.client.remaining && id >= s.answered ==>
          id == s.answered && s.got > 0)
    && (s.got > 0 ==> s.answered in s.client.remaining && s.client.remaining[s.answered] == |Head(s).args| - s.got)
  }

  lemma EmptyTotal(subs: Subs)
    ensures subs.Total() == 0 <==> subs == NoSubs
  {
  }

  lemma QueueHead(s: System)
    requires Inv(s) && s.answered < |s.written|
    ensures s.client.queue != [] && s.client.queue[0] == Head(s) && s.client.queue[1..] == s.written[s.answered + 1..]
    ensures Head(s).id == s.answered && Head(s) in s.written
    ensures !Head(s).name.Ordinary? ==> s.client.Remaining(Head(s)) == |Head(s).args| - s.got
  {
  }

  lemma SendKeepsInv(s: System, name: Name, args: seq<string>)
    requires Inv(s) && Enabled(s, Send(name, args))
    ensures Inv(Step(s, Send(name, args)))
  {
    var after := Step(s, Send(name, args));
    assert after.written[s.answered..] == s.written[s.answered..] + [Command(|s.written|, name, args)];
  }

  lemma AnswerKeepsInv(s: System, e: Event)
    requires Inv(s) && Enabled(s, e) && (e.Answer? || e.AnswerError?)
    ensures Inv(Step(s, e))
  {
    QueueHead(s);
    RecordIsMirrorIff(s.subs, s.stale);
  }

  /** Counting one confirmation, on both sides, when the client counts as the handlers do. */
  lemma CountedKeepsInv(s: System, subs: Subs, stale: set<Kind>, c: Client)
    requires Inv(s) && s.answered < |s.written| && !Head(s).name.Ordinary? && s.got < |Head(s).args|
    requires if s.sharded then subs.subscribe == {} && subs.psubscribe == {} else subs.ssubscribe == {}
    requires c.protocol == s.client.protocol && c.subscriber == Record(subs, stale) && Staleness(subs, stale)
    requires if s.got + 1 >= |Head(s).args|
             then c.queue == s.client.queue[1..]
                 && c.log == s.client.log + [Resolved(Head(s).id, CountResult(subs.Total()))]
                  && (c.remaining == s.client.remaining || c.remaining == s.client.remaining - {Head(s).id})
             else c.queue == s.client.queue && c.log == s.client.log
                  && c.remaining == s.client.remaining[Head(s).id := |Head(s).args| - s.got - 1]
    ensures Inv(Counted(s.(subs := subs, stale := stale), subs.Total()).(client := c))
  {
    hide Record, Staleness;
    QueueHead(s);
  }

  lemma FillSubCounts(c: Client, command: Command, count: int)
    requires c.Remaining(command) >= 1
    ensures var d := FillSub(c, command, count);
            d.protocol == c.protocol && d.subscriber == c.subscriber
            && if c.Remaining(command) == 1
               then d.queue == c.queue && d.log == c.log + [Resolved(command.id, CountResult(count))]
                    && d.remaining == c.remaining - {command.id}
               else
                 && d.queue == [command] + c.queue && d.log == c.log
                 && d.remaining == c.remaining[command.id := c.Remaining(command) - 1]
  {
  }

  lemma FillUnsubCounts(c: Client, command: Command, count: int)
    requires c.Remaining(command) >= 1
    ensures var d := FillUnsub(c, command, count);
            d.protocol == c.protocol && d.subscriber == c.subscriber
            && if c.Remaining(command) == 1
               then d.queue == c.queue && d.log == c.log + [Resolved(command.id, CountResult(count))]
                   && d.remaining == c.remaining
               else
                 && d.queue == [command] + c.queue && d.log == c.log
                 && d.remaining == c.remaining[command.id := c.Remaining(command) - 1]
  {
  }

  lemma ConfirmKeepsInv(s: System)
    requires Inv(s) && Enabled(s, ConfirmNext)
    ensures Inv(Step(s, ConfirmNext))
  {
    hide FillSub, Record, Staleness, FreshAfter, Kept;
    QueueHead(s);
    var kind, channel := Head(s).name.kind, Head(s).args[s.got];
    var subs := s.subs.Add(kind, channel);
    assert channel in subs.Channels(kind);
    var c := ConfirmReceived(s.client, kind, channel, s.subs, s.stale);
    FillSubCounts(c, Head(s), subs.Total());
    assert [Head(s)] + s.client.queue[1..] == s.client.queue;
    assert channel in Head(s).args && Head(s) in s.written;
    CountedKeepsInv(s, subs, FreshAfter(s.stale, kind, channel), FillSub(c, Head(s), subs.Total()));
  }

  lemma AddedStaleness(subs: Subs, stale: set<Kind>, kind: Kind, channel: string)
    requires Staleness(subs, stale)
    ensures var after := subs.Add(kind, channel);
            Staleness(after, FreshAfter(stale, kind, channel)) && after != NoSubs
            && Kept(subs, stale).Add(kind, channel) == Kept(after, FreshAfter(stale, kind, channel))
  {
    var after := subs.Add(kind, channel);
    assert channel in after.Channels(kind);
  }

  /** A confirmation counts for the head of the queue, with the record grown by its channel, under either protocol. */
  lemma ConfirmReceived(c: Client, kind: Kind, channel: string, subs: Subs, stale: set<Kind>) returns (d: Client)
    requires c.queue != [] && c.queue[0].name == Subscribe(kind)
    requires c.subscriber == Record(subs, stale) && Staleness(subs, stale)
    ensures var after := subs.Add(kind, channel);
            && d == c.(queue := c.queue[1..], subscriber := Record(after, FreshAfter(stale, kind, channel)))
            && Staleness(after, FreshAfter(stale, kind, channel))
            && Receive(c, Reply(Some(Confirm(kind)), Some(channel), after.Total(), ""))
                == FillSub(d, c.queue[0], after.Total())
  {
    hide FillSub, Kept;
    var after := subs.Add(kind, channel);
    AddedStaleness(subs, stale, kind, channel);
    RecordIsMirrorIff(subs, stale);
    HoldsSome(after, FreshAfter(stale, kind, channel));
    if subs != NoSubs {
      HoldsSome(subs, stale);
    } else {
      assert Kept(NoSubs, {}) == NoSubs by {
        NothingKept();
      }
    }
    d := c.(queue := c.queue[1..], subscriber := Record(after, FreshAfter(stale, kind, channel)));
  }

  lemma NothingKept()
    ensures Kept(NoSubs, {}) == NoSubs
  {
  }

  lemma RevokedStaleness(subs: Subs, stale: set<Kind>, kind: Kind, channel: string)
    requires Staleness(subs, stale)
    ensures var after, later := subs.Del(kind, channel), StaleAfter(stale, subs, kind, channel);
            Staleness(after, later)
            && Revoked(Record(subs, stale), kind, Reply(Some(Revoke(kind)), Some(channel), after.Total(), ""))
               == Record(after, later)
  {
    hide Kept;
    var after, later := subs.Del(kind, channel), StaleAfter(stale, subs, kind, channel);
    EmptyTotal(after);
    if after != NoSubs {
      DeletedLess(subs, kind, channel);
      HoldsSome(subs, stale);
      HoldsSome(after, later);
      if channel != "" {
        NameGoes(subs, stale, kind, channel);
      } else if "" in subs.Channels(kind) {
        EmptyNameStays(subs, stale, kind);
      }
    }
  }

  lemma DeletedLess(subs: Subs, kind: Kind, channel: string)
    ensures subs == NoSubs ==> subs.Del(kind, channel) == NoSubs
    ensures channel !in subs.Channels(kind) ==> subs.Del(kind, channel) == subs
    ensures channel !in subs.Del(kind, channel).Channels(kind)
    ensures forall other, x :: x in subs.Del(kind, channel).Channels(other) ==> x in subs.Channels(other)
  {
  }

  lemma NameGoes(subs: Subs, stale: set<Kind>, kind: Kind, channel: string)
    requires channel != ""
    ensures Kept(subs, stale).Del(kind, channel) == Kept(subs.Del(kind, channel), stale)
  {
  }

  lemma EmptyNameStays(subs: Subs, stale: set<Kind>, kind: Kind)
    requires "" in subs.Channels(kind)
    ensures Kept(subs.Del(kind, ""), stale + {kind}) == Kept(subs, stale)
  {
    assert subs.Channels(kind) - {""} + {""} == subs.Channels(kind);
  }

  /** A revocation counts for the unsubscribe at the head of the queue, with the record as it leaves it. */
  lemma RevokeReceived(c: Client, kind: Kind, channel: string, subs: Subs, stale: set<Kind>) returns (d: Client)
    requires c.queue != [] && c.queue[0].name == Unsubscribe(kind)
    requires c.subscriber == Record(subs, stale) && Staleness(subs, stale)
    ensures var after, later := subs.Del(kind, channel), StaleAfter(stale, subs, kind, channel);
            && d == c.(queue := c.queue[1..], subscriber := Record(after, later)) && Staleness(after, later)
            && Receive(c, Reply(Some(Revoke(kind)), Some(channel), after.Total(), ""))
                == FillUnsub(d, c.queue[0], after.Total())
  {
    hide FillUnsub, Revoked, Record, StaleAfter;
    var after, later := subs.Del(kind, channel), StaleAfter(stale, subs, kind, channel);
    RevokedStaleness(subs, stale, kind, channel);
    RecordIsMirrorIff(subs, stale);
    if subs == NoSubs {
      NothingRevoked(kind, channel, stale);
    }
    d := c.(queue := c.queue[1..], subscriber := Record(after, later));
  }

  lemma NothingRevoked(kind: Kind, channel: string, stale: set<Kind>)
    ensures NoSubs.Del(kind, channel) == NoSubs && Record(NoSubs, StaleAfter(stale, NoSubs, kind, channel)) == None
  {
  }

  lemma RevokeKeepsInv(s: System)
    requires Inv(s) && Enabled(s, RevokeNext)
    ensures Inv(Step(s, RevokeNext))
  {
    hide FillUnsub, Record, Staleness, StaleAfter, Kept;
    QueueHead(s);
    var kind, channel := Head(s).name.kind, Head(s).args[s.got];
    var subs := s.subs.Del(kind, channel);
    assert channel in Head(s).args && Head(s) in s.written;
    var c := RevokeReceived(s.client, kind, channel, s.subs, s.stale);
    FillUnsubCounts(c, Head(s), subs.Total());
    assert [Head(s)] + s.client.queue[1..] == s.client.queue;
    CountedKeepsInv(s, subs, StaleAfter(s.stale, s.subs, kind, channel), FillUnsub(c, Head(s), subs.Total()));
  }

  lemma PublishKeepsInv(s: System, e: Event)
    requires Inv(s) && Enabled(s, e) && e.Publish?
    ensures Inv(Step(s, e))
  {
    hide Record, Staleness;
    RecordIsMirrorIff(s.subs, s.stale);
    if s.answered < |s.written| {
      QueueHead(s);
    }
  }

  lemma MigrateKeepsInv(s: System, e: Event)
    requires Inv(s) && Enabled(s, e) && e.MigrateSlot?
    ensures Inv(Step(s, e))
  {
    hide Record, Staleness, StaleAfter, Revoked, Kept;
    RecordIsMirrorIff(s.subs, s.stale);
    RevokedStaleness(s.subs, s.stale, Shard, e.channel);
    assert s.subs != NoSubs;
    if s.answered < |s.written| {
      QueueHead(s);
    }
  }

  lemma StepKeepsInv(s: System, e: Event)
    requires Inv(s) && Enabled(s, e)
    ensures Inv(Step(s, e))
  {
    match e
    case Send(name, args) => SendKeepsInv(s, name, args);
    case Answer(_) => AnswerKeepsInv(s, e);
    case AnswerError(_, _) => AnswerKeepsInv(s, e);
    case ConfirmNext => ConfirmKeepsInv(s);
    case RevokeNext => RevokeKeepsInv(s);
    case Publish(_, _, _) => PublishKeepsInv(s, e);
    case MigrateSlot(_) => MigrateKeepsInv(s, e);
  }

  /** The states a connection can be in after some events. */
  ghost predicate Reaches(s: System, events: seq<Event>, t: System)
    decreases |events|
  {
    if events == [] then s == t
    else Enabled(s, events[0]) && Reaches(Step(s, events[0]), events[1..], t)
  }

  lemma {:induction false} ReachesKeepsInv(s: System, events: seq<Event>, t: System)
    requires Inv(s) && Reaches(s, events, t)
    ensures Inv(t)
    decreases |events|
  {
    if events != [] {
      StepKeepsInv(s, events[0]);
      ReachesKeepsInv(Step(s, events[0]), events[1..], t);
    }
  }

  /** The identifiers of the commands settled in a log, in order. */
  function SettledIds(log: seq<Entry>): seq<nat> {
    if log == [] then []
    else (if log[0].Resolved? || log[0].Rejected? then [log[0].id] else []) + SettledIds(log[1..])
  }

  lemma {:induction false} SettledIdsAppend(a: seq<Entry>, b: seq<Entry>)
    ensures SettledIds(a + b) == SettledIds(a) + SettledIds(b)
    decreases |a|
  {
    if a == [] {
      assert a + b == b;
    } else {
      assert (a + b)[1..] == a[1..] + b && (a + b)[0] == a[0];
      SettledIdsAppend(a[1..], b);
      var first: seq<nat> := if a[0].Resolved? || a[0].Rejected? then [a[0].id] else [];
      assert first + (SettledIds(a[1..]) + SettledIds(b)) == first + SettledIds(a[1..]) + SettledIds(b);
    }
  }

  function FirstIds(n: nat): seq<nat> {
    seq(n, i => i)
  }

  /** Appending entries that settle the next command, or none. */
  lemma DueSettles(due: seq<Entry>, entries: seq<Entry>, answered: nat, settles: bool)
    requires SettledIds(due) == FirstIds(answered)
    requires SettledIds(entries) == if settles then [answered] else []
    ensures SettledIds(due + entries) == FirstIds(if settles then answered + 1 else answered)
  {
    SettledIdsAppend(due, entries);
    assert FirstIds(answered + 1) == FirstIds(answered) + [answered];
  }

  lemma OneEntry(entry: Entry)
    ensures SettledIds([entry]) == if entry.Resolved? || entry.Rejected? then [entry.id] else []
    ensures SettledIds([Moved] + [entry]) == SettledIds([entry])
  {
    assert ([Moved] + [entry])[1..] == [entry];
    assert [entry][1..] == [];
  }

  lemma StepSettles(s: System, e: Event)
    requires Inv(s) && Enabled(s, e) && SettledIds(s.due) == FirstIds(s.answered)
    ensures SettledIds(Step(s, e).due) == FirstIds(Step(s, e).answered)
  {
    hide SettledIds, Receive, OnReplyFrame, OnErrorFrame, Inv;
    match e
    case Send(_, _) =>
    case Answer(reply) =>
      HeadId(s);
      OneEntry(Resolved(Head(s).id, ReplyResult(reply)));
      DueSettles(s.due, [Resolved(Head(s).id, ReplyResult(reply))], s.answered, true);
    case AnswerError(error, moved) =>
      HeadId(s);
      OneEntry(Rejected(Head(s).id, error));
      var entries := (if moved && Head(s).name == Subscribe(Shard) then [Moved] else [])
          + [Rejected(Head(s).id, error)];
      assert [] + [Rejected(Head(s).id, error)] == [Rejected(Head(s).id, error)];
      DueSettles(s.due, entries, s.answered, true);
    case ConfirmNext =>
      CountedSettles(s, s.subs.Add(Head(s).name.kind, Head(s).args[s.got]).Total());
    case RevokeNext =>
      CountedSettles(s, s.subs.Del(Head(s).name.kind, Head(s).args[s.got]).Total());
    case Publish(kind, channel, body) =>
      var r := Reply(Some(Message(kind)), Some(channel), 0, body);
      OneEntry(Emitted(r));
      DueSettles(s.due, [Emitted(r)], s.answered, false);
    case MigrateSlot(_) =>
      OneEntry(Moved);
      DueSettles(s.due, [Moved], s.answered, false);
  }

  lemma HeadId(s: System)
    requires Inv(s) && s.answered < |s.written|
    ensures Head(s).id == s.answered
  {
  }

  lemma CountedSettles(s: System, count: nat)
    requires Inv(s) && s.answered < |s.written| && SettledIds(s.due) == FirstIds(s.answered)
    ensures SettledIds(Counted(s, count).due) == FirstIds(Counted(s, count).answered)
  {
    hide SettledIds;
    HeadId(s);
    OneEntry(Resolved(Head(s).id, CountResult(count)));
    DueSettles(s.due, [Resolved(Head(s).id, CountResult(count))], s.answered, true);
  }

  lemma {:induction false} ReachesSettles(s: System, events: seq<Event>, t: System)
    requires Inv(s) && Reaches(s, events, t) && SettledIds(s.due) == FirstIds(s.answered)
    ensures SettledIds(t.due) == FirstIds(t.answered)
    decreases |events|
  {
    if events != [] {
      StepKeepsInv(s, events[0]);
      StepSettles(s, events[0]);
      ReachesSettles(Step(s, events[0]), events[1..], t);
    }
  }

  lemma InitialInv(protocol: Protocol, sharded: bool)
    ensures Inv(Initial(protocol, sharded))
  {
  }

  /**
   In every state a connection reaches: the command queue is exactly the written commands without a last
   reply, in write order; the client has logged exactly what each last reply and each message calls for;
   the commands settled are the answered ones, each once, in write order; and the record of subscriptions
   is the server's confirmed set, or false when that is empty, if and only if no kind is stale. Otherwise it
   holds the empty name of each stale kind besides.
   */
  lemma RepliesMatchCommands(protocol: Protocol, sharded: bool, events: seq<Event>, t: System)
    requires Reaches(Initial(protocol, sharded), events, t)
    ensures t.answered <= |t.written| && t.client.queue == t.written[t.answered..]
    ensures t.client.log == t.due
    ensures SettledIds(t.client.log) == FirstIds(t.answered)
    ensures t.client.subscriber == Mirror(t.subs) <==> t.stale == {}
    ensures t.client.subscriber == Record(t.subs, t.stale) && Staleness(t.subs, t.stale)
  {
    InitialInv(protocol, sharded);
    ReachesKeepsInv(Initial(protocol, sharded), events, t);
    ReachesSettles(Initial(protocol, sharded), events, t);
    RecordIsMirrorIff(t.subs, t.stale);
  }

  // ---------- unsubscribing from everything of one kind ----------

  /** The replies to a bare unsubscribe: one per channel of the kind, or a single one without a channel. */
  function BareReplies(kind: Kind, channels: seq<string>, subs: Subs): seq<Reply> {
    if channels == [] then [Reply(Some(Revoke(kind)), None, subs.Total(), "")] else RevokeEach(kind, channels, subs)
  }

  function RevokeEach(kind: Kind, channels: seq<string>, subs: Subs): seq<Reply> {
    if channels == [] then []
    else
      var left := subs.Del(kind, channels[0]);
      [Reply(Some(Revoke(kind)), Some(channels[0]), left.Total(), "")] + RevokeEach(kind, channels[1..], left)
  }

  function ReceiveAll(c: Client, replies: seq<Reply>): Client
    decreases |replies|
  {
    if replies == [] then c else ReceiveAll(Receive(c, replies[0]), replies[1..])
  }

  ghost predicate Lists(channels: seq<string>, held: set<string>) {
    && (forall c :: c in channels <==> c in held)
    && (forall i, j :: 0 <= i < j < |channels| ==> channels[i] != channels[j])
  }

  /** One reply to a bare unsubscribe settles it when nothing is held any more, and otherwise leaves it at the head. */
  lemma BareReply(c: Client, kind: Kind, channel: string, subs: Subs, stale: set<Kind>)
    requires c.queue != [] && c.queue[0].name == Unsubscribe(kind) && c.queue[0].args == []
        && c.queue[0].id !in c.remaining
    requires c.subscriber == Record(subs, stale) && Staleness(subs, stale)
    ensures var left, later := subs.Del(kind, channel), StaleAfter(stale, subs, kind, channel);
            var d := Receive(c, Reply(Some(Revoke(kind)), Some(channel), left.Total(), ""));
            && Staleness(left, later)
            && if left == NoSubs
               then d == c.(queue := c.queue[1..], subscriber := None).Log(Resolved(c.queue[0].id, CountResult(0)))
               else d == c.(subscriber := Record(left, later))
  {
    hide Receive, Record;
    var left, later := subs.Del(kind, channel), StaleAfter(stale, subs, kind, channel);
    EmptyTotal(left);
    var d := RevokeReceived(c, kind, channel, subs, stale);
    RecordIsMirrorIff(left, later);
    assert [c.queue[0]] + c.queue[1..] == c.queue;
    assert d.remaining - {c.queue[0].id} == c.remaining;
  }

  /** The stale kinds after everything of a kind has been unsubscribed. */
  function StaleWithout(stale: set<Kind>, subs: Subs, kind: Kind): set<Kind> {
    if subs.With(kind, {}) == NoSubs then {} else if "" in subs.Channels(kind) then stale + {kind} else stale
  }

  lemma ListsRest(channels: seq<string>, held: set<string>)
    requires channels != [] && Lists(channels, held)
    ensures Lists(channels[1..], held - {channels[0]}) && channels[0] in held
    ensures channels[1..] == [] ==> held - {channels[0]} == {}
  {
    assert channels[0] in channels;
    forall x
      ensures x in channels[1..] <==> x in held - {channels[0]}
    {
      if x in channels[1..] {
        var i :| 0 <= i < |channels[1..]| && channels[1..][i] == x;
        assert channels[i + 1] == x && channels[i + 1] in channels;
      }
    }
    if channels[1..] == [] {
      assert forall x :: x in held ==> x in channels && x == channels[0];
    }
  }

  lemma {:induction false} RevokeEachSettles(c: Client, kind: Kind, channels: seq<string>, subs: Subs, stale: set<Kind>)
    requires channels != [] && Lists(channels, subs.Channels(kind))
    requires c.subscriber == Record(subs, stale) && Staleness(subs, stale)
    requires c.queue != [] && c.queue[0].name == Unsubscribe(kind) && c.queue[0].args == []
        && c.queue[0].id !in c.remaining
    ensures var d := ReceiveAll(c, RevokeEach(kind, channels, subs));
            var left := subs.With(kind, {});
            d.subscriber == Record(left, StaleWithout(stale, subs, kind))
            && (left == NoSubs ==>
                d.queue == c.queue[1..] && d.log == c.log + [Resolved(c.queue[0].id, CountResult(0))])
            && (left != NoSubs ==> d.queue == c.queue && d.log == c.log)
    decreases |channels|
  {
    hide Receive, Lists, Record, Staleness, StaleAfter, StaleWithout;
    var first, rest := channels[0], channels[1..];
    ListsRest(channels, subs.Channels(kind));
    StaleRest(stale, subs, kind, first);
    var left, later := subs.Del(kind, first), StaleAfter(stale, subs, kind, first);
    BareReply(c, kind, first, subs, stale);
    var r := Reply(Some(Revoke(kind)), Some(first), left.Total(), "");
    var d := Receive(c, r);
    assert ReceiveAll(c, RevokeEach(kind, channels, subs)) == ReceiveAll(d, RevokeEach(kind, rest, left)) by {
      assert RevokeEach(kind, channels, subs) == [r] + RevokeEach(kind, rest, left);
      assert ([r] + RevokeEach(kind, rest, left))[1..] == RevokeEach(kind, rest, left);
    }
    if rest == [] {
      assert left == subs.With(kind, {});
      RecordIsMirrorIff(left, later);
      NothingRecorded(StaleWithout(stale, subs, kind));
    } else {
      StillHeld(rest, left, kind);
      RevokeEachSettles(d, kind, rest, left, later);
    }
  }

  /** Unsubscribing from one channel of a kind and then from the rest is unsubscribing from all of them. */
  lemma StaleRest(stale: set<Kind>, subs: Subs, kind: Kind, first: string)
    requires first in subs.Channels(kind)
    ensures var left, later := subs.Del(kind, first), StaleAfter(stale, subs, kind, first);
            && left.With(kind, {}) == subs.With(kind, {})
            && (left != NoSubs || subs.With(kind, {}) == left ==>
                  Record(subs.With(kind, {}), StaleWithout(later, left, kind))
                  == Record(subs.With(kind, {}), StaleWithout(stale, subs, kind)))
            && (subs.Channels(kind) == {first} && left != NoSubs ==> later == StaleWithout(stale, subs, kind))
  {
    var left, later := subs.Del(kind, first), StaleAfter(stale, subs, kind, first);
    assert left.Channels(kind) == subs.Channels(kind) - {first};
    assert subs.Channels(kind) == {first} ==> left == subs.With(kind, {});
    if "" in subs.Channels(kind) && first == "" {
      assert later == {} || later == stale + {kind};
    }
  }

  lemma StillHeld(channels: seq<string>, subs: Subs, kind: Kind)
    requires channels != [] && Lists(channels, subs.Channels(kind))
    ensures subs != NoSubs
  {
    assert channels[0] in channels;
  }

  /**
   An unsubscribe without arguments is settled by its replies if and only if no subscription of another
   kind is held; otherwise it stays at the head of the queue, where the replies to later commands find it, and
   the record keeps the empty name if that was among the channels of the kind.
   */
  lemma BareUnsubscribeSettlesIff(c: Client, kind: Kind, channels: seq<string>, subs: Subs, stale: set<Kind>)
    requires Lists(channels, subs.Channels(kind)) && c.subscriber == Record(subs, stale) && Staleness(subs, stale)
    requires c.queue != [] && c.queue[0].name == Unsubscribe(kind) && c.queue[0].args == []
        && c.queue[0].id !in c.remaining
    ensures var d := ReceiveAll(c, BareReplies(kind, channels, subs));
            if subs.With(kind, {}) == NoSubs
            then
              && d.queue == c.queue[1..] && d.log == c.log + [Resolved(c.queue[0].id, CountResult(0))]
              && d.subscriber == None
            else
              && d.queue == c.queue && d.log == c.log
              && d.subscriber == Record(subs.With(kind, {}), StaleWithout(stale, subs, kind))
  {
    hide Record, Staleness, Kept;
    RecordIsMirrorIff(subs, stale);
    if channels == [] {
      assert subs.Channels(kind) == {} by {
        assert forall x :: x in subs.Channels(kind) ==> x in channels;
      }
      assert subs.With(kind, {}) == subs;
      EmptyTotal(subs);
      assert [c.queue[0]] + c.queue[1..] == c.queue;
      var r := BareReplies(kind, channels, subs)[0];
      assert ReceiveAll(c, [r]) == ReceiveAll(Receive(c, r), []);
    } else {
      RevokeEachSettles(c, kind, channels, subs, stale);
      NothingRecorded(StaleWithout(stale, subs, kind));
    }
  }

  lemma NothingRecorded(stale: set<Kind>)
    ensures Record(NoSubs, stale) == None
  {
  }

  // ---------- resubscribing after an outage ----------

  /** The channels of a kind that subscribe commands have been confirmed for. */
  function ConfirmedBy(commands: seq<Command>, kind: Kind): set<string> {
    if commands == [] then {}
    else
      (if commands[0].name == Subscribe(kind) then ArgSet(commands[0].args) else {})
      + ConfirmedBy(commands[1..], kind)
  }

  function ArgSet(args: seq<string>): set<string> {
    set a | a in args
  }

  lemma {:induction false} ConfirmedBySnoc(commands: seq<Command>, c: Command, kind: Kind)
    ensures ConfirmedBy(commands + [c], kind)
         == ConfirmedBy(commands, kind) + (if c.name == Subscribe(kind) then ArgSet(c.args) else {})
  {
    if commands == [] {
      assert commands + [c] == [c];
      assert ConfirmedBy([c], kind)
          == (if c.name == Subscribe(kind) then ArgSet(c.args) else {}) + ConfirmedBy([], kind);
    } else {
      assert (commands + [c])[1..] == commands[1..] + [c];
      ConfirmedBySnoc(commands[1..], c, kind);
    }
  }

  /** With only subscribes and no errors, the server holds what has been confirmed so far. */
  ghost predicate HoldsConfirmed(s: System) {
    && Inv(s) && s.stale == {}
    && (forall c :: c in s.written ==> !c.name.Unsubscribe?)
    && forall kind :: s.subs.Channels(kind) == ConfirmedBy(s.written[..s.answered], kind) + HeadConfirmed(s, kind)
  }

  /** Events that subscribe, answer and publish, but neither unsubscribe nor refuse. */
  predicate Benign(e: Event) {
    !e.AnswerError? && !e.MigrateSlot? && !e.RevokeNext? && !(e.Send? && e.name.Unsubscribe?)
  }

  function HeadConfirmed(s: System, kind: Kind): set<string> {
    if 0 < s.got && s.answered < |s.written| && s.got <= |Head(s).args| && Head(s).name == Subscribe(kind)
    then ArgSet(Head(s).args[..s.got]) else {}
  }

  lemma ArgSetPrefix(args: seq<string>, n: nat)
    requires n < |args|
    ensures ArgSet(args[..n + 1]) == ArgSet(args[..n]) + {args[n]}
    ensures ArgSet(args[..0]) == {}
    ensures n + 1 == |args| ==> args[..n + 1] == args
  {
    assert args[..n + 1] == args[..n] + [args[n]];
  }

  lemma AddedChannels(subs: Subs, kind: Kind, channel: string, other: Kind)
    ensures subs.Add(kind, channel).Channels(other) == subs.Channels(other) + (if other == kind then {channel} else {})
  {
  }

  /** The confirmed part of the head's channels, with none when the head is of another kind. */
  lemma HeadConfirmedIs(s: System, kind: Kind)
    requires s.answered < |s.written| && s.got <= |Head(s).args|
    ensures HeadConfirmed(s, kind) == if Head(s).name == Subscribe(kind) then ArgSet(Head(s).args[..s.got]) else {}
  {
    assert s.got == 0 ==> ArgSet(Head(s).args[..s.got]) == {};
  }

  /** One more confirmation adds its channel to what the commands have been confirmed for. */
  lemma CountedConfirms(s: System, count: nat, kind: Kind)
    requires s.answered < |s.written| && s.got < |Head(s).args|
    ensures var t := Counted(s, count);
            t.answered <= |t.written|
            && ConfirmedBy(t.written[..t.answered], kind) + HeadConfirmed(t, kind)
            == ConfirmedBy(s.written[..s.answered], kind) + HeadConfirmed(s, kind)
               + (if Head(s).name == Subscribe(kind) then {Head(s).args[s.got]} else {})
  {
    hide ConfirmedBy, ArgSet;
    var t := Counted(s, count);
    ArgSetPrefix(Head(s).args, s.got);
    HeadConfirmedIs(s, kind);
    if t.answered == s.answered + 1 {
      assert t.written[..t.answered] == s.written[..s.answered] + [Head(s)];
      ConfirmedBySnoc(s.written[..s.answered], Head(s), kind);
    } else {
      HeadConfirmedIs(t, kind);
    }
  }

  lemma ConfirmHoldsConfirmed(s: System, kind: Kind)
    requires HoldsConfirmed(s) && Enabled(s, ConfirmNext)
    ensures var t := Step(s, ConfirmNext);
            t.answered <= |t.written|
            && t.subs.Channels(kind) == ConfirmedBy(t.written[..t.answered], kind) + HeadConfirmed(t, kind)
  {
    hide Receive, ConfirmedBy, ArgSet, Inv, FreshAfter;
    var subs := s.subs.Add(Head(s).name.kind, Head(s).args[s.got]);
    var stale := FreshAfter(s.stale, Head(s).name.kind, Head(s).args[s.got]);
    CountedConfirms(s.(subs := subs, stale := stale), subs.Total(), kind);
    AddedChannels(s.subs, Head(s).name.kind, Head(s).args[s.got], kind);
  }

  lemma StepHoldsConfirmed(s: System, e: Event)
    requires HoldsConfirmed(s) && Enabled(s, e) && Benign(e)
    ensures HoldsConfirmed(Step(s, e))
  {
    hide Receive, OnReplyFrame, ConfirmedBy;
    StepKeepsInv(s, e);
    var t := Step(s, e);
    forall kind
      ensures t.subs.Channels(kind) == ConfirmedBy(t.written[..t.answered], kind) + HeadConfirmed(t, kind)
    {
      match e
      case ConfirmNext => ConfirmHoldsConfirmed(s, kind);
      case Answer(_) =>
        assert t.written[..t.answered] == s.written[..s.answered] + [Head(s)];
        ConfirmedBySnoc(s.written[..s.answered], Head(s), kind);
      case Send(_, _) => assert t.written[..s.answered] == s.written[..s.answered];
      case Publish(_, _, _) =>
    }
  }

  lemma {:induction false} ReachesHoldsConfirmed(s: System, events: seq<Event>, t: System)
    requires HoldsConfirmed(s) && Reaches(s, events, t) && forall e :: e in events ==> Benign(e)
    ensures HoldsConfirmed(t)
    decreases |events|
  {
    if events != [] {
      assert events[0] in events;
      StepHoldsConfirmed(s, events[0]);
      ReachesHoldsConfirmed(Step(s, events[0]), events[1..], t);
    }
  }

  /** The names and arguments of the commands the ready handler sends for the set it remembers. */
  function Resubscribe(channels: seq<string>, patterns: seq<string>, shards: seq<string>): seq<(Name, seq<string>)> {
    (if channels == [] then [] else [(Subscribe(Channel), channels)])
    + (if patterns == [] then [] else [(Subscribe(Pattern), patterns)])
    + seq(|shards|, i requires 0 <= i < |shards| => (Subscribe(Shard), [shards[i]]))
  }

  ghost predicate ListsAll(channels: seq<string>, patterns: seq<string>, shards: seq<string>, subs: Subs) {
    Lists(channels, subs.subscribe) && Lists(patterns, subs.psubscribe) && Lists(shards, subs.ssubscribe)
  }

  /** The commands written are the resubscribes and ordinary commands, in any order. */
  ghost predicate WroteResubscribes(written: seq<Command>, sent: seq<(Name, seq<string>)>) {
    && (forall c :: c in written && c.name.Subscribe? ==> (c.name, c.args) in sent)
    && (forall r :: r in sent ==> exists c :: c in written && c.name == r.0 && c.args == r.1)
  }

  lemma {:induction false} InConfirmedBy(commands: seq<Command>, kind: Kind, x: string)
    ensures x in ConfirmedBy(commands, kind) <==> exists c :: c in commands && c.name == Subscribe(kind) && x in c.args
  {
    if commands != [] {
      InConfirmedBy(commands[1..], kind, x);
      if c :| c in commands && c.name == Subscribe(kind) && x in c.args {
        assert c == commands[0] || c in commands[1..];
      }
      if c :| c in commands[1..] && c.name == Subscribe(kind) && x in c.args {
        assert c in commands;
      }
      assert commands[0] in commands;
    }
  }

  lemma InResubscribe(channels: seq<string>, patterns: seq<string>, shards: seq<string>, kind: Kind, x: string)
    ensures (exists r :: r in Resubscribe(channels, patterns, shards) && r.0 == Subscribe(kind) && x in r.1)
       <==> x in (match kind case Channel => channels case Pattern => patterns case Shard => shards)
  {
    var sent := Resubscribe(channels, patterns, shards);
    var each := seq(|shards|, i requires 0 <= i < |shards| => (Subscribe(Shard), [shards[i]]));
    if kind == Channel && x in channels {
      assert (Subscribe(Channel), channels) in sent;
    } else if kind == Pattern && x in patterns {
      assert (Subscribe(Pattern), patterns) in sent;
    } else if kind == Shard && x in shards {
      var i :| 0 <= i < |shards| && shards[i] == x;
      assert each[i] in each && each[i] in sent && each[i].1 == [x];
    }
  }

  lemma WrittenConfirms(written: seq<Command>, kind: Kind, x: string, before: Subs,
                        channels: seq<string>, patterns: seq<string>, shards: seq<string>)
    requires ListsAll(channels, patterns, shards, before)
    requires WroteResubscribes(written, Resubscribe(channels, patterns, shards))
    ensures x in ConfirmedBy(written, kind) <==> x in before.Channels(kind)
  {
    hide ConfirmedBy, Resubscribe;
    var sent := Resubscribe(channels, patterns, shards);
    InConfirmedBy(written, kind, x);
    InResubscribe(channels, patterns, shards, kind, x);
    if c :| c in written && c.name == Subscribe(kind) && x in c.args {
      assert (c.name, c.args) in sent;
    }
    if r :| r in sent && r.0 == Subscribe(kind) && x in r.1 {
      var c :| c in written && c.name == r.0 && c.args == r.1;
      assert c in written && c.name == Subscribe(kind) && x in c.args;
    }
  }

  lemma SameChannels(a: Subs, b: Subs)
    requires forall kind :: a.Channels(kind) == b.Channels(kind)
    ensures a == b
  {
    assert a.Channels(Channel) == b.subscribe && a.Channels(Pattern) == b.psubscribe;
    assert a.Channels(Shard) == b.ssubscribe;
  }

  /** Once everything has been answered, the server holds what the subscribes written were for. */
  lemma AllConfirmed(s: System, kind: Kind)
    requires HoldsConfirmed(s) && s.answered == |s.written|
    ensures s.subs.Channels(kind) == ConfirmedBy(s.written, kind) && s.stale == {}
  {
    hide ConfirmedBy;
    assert s.written[..s.answered] == s.written;
  }

  /**
   After an outage, once every resubscribe of the new connection is confirmed, the server holds exactly the set
   remembered from before, and the client's record says so, whatever else is written and answered in between.
   That is the set the server held before if and only if no kind was stale when the connection was lost.
   */
  lemma ResubscribeRestores(protocol: Protocol, sharded: bool, earlier: seq<Event>, b: System, before: Subs,
                            next: Protocol, events: seq<Event>, t: System,
                            channels: seq<string>, patterns: seq<string>, shards: seq<string>)
    requires Reaches(Initial(protocol, sharded), earlier, b) && b.client.subscriber == Some(before)
    requires Reaches(Initial(next, sharded), events, t)
    requires forall e :: e in events ==> Benign(e)
    requires ListsAll(channels, patterns, shards, before)
    requires WroteResubscribes(t.written, Resubscribe(channels, patterns, shards)) && t.answered == |t.written|
    ensures t.subs == before && t.client.subscriber == Mirror(before)
    ensures t.subs == b.subs <==> b.stale == {}
  {
    hide Reaches, ConfirmedBy, Resubscribe, ListsAll, WroteResubscribes, Record, Staleness, Inv;
    InitialHolds(next, sharded);
    ReachesHoldsConfirmed(Initial(next, sharded), events, t);
    forall kind
      ensures t.subs.Channels(kind) == before.Channels(kind)
    {
      AllConfirmed(t, kind);
      forall x
        ensures x in t.subs.Channels(kind) <==> x in before.Channels(kind)
      {
        WrittenConfirms(t.written, kind, x, before, channels, patterns, shards);
      }
    }
    SameChannels(t.subs, before);
    AllConfirmed(t, Channel);
    RepliesMatchCommands(next, sharded, events, t);
    RepliesMatchCommands(protocol, sharded, earlier, b);
    RecordIsMirrorIff(b.subs, b.stale);
  }

  lemma InitialHolds(protocol: Protocol, sharded: bool)
    ensures HoldsConfirmed(Initial(protocol, sharded))
  {
    InitialInv(protocol, sharded);
  }

  // ---------- the empty channel name ----------

  /** Subscribing to "a" and "" and then unsubscribing from "". */
  const EMPTY_NAME_RUN: seq<Event> :=
    [Send(Subscribe(Channel), ["a", ""]), ConfirmNext, ConfirmNext, Send(Unsubscribe(Channel), [""]), RevokeNext]

  /** The state of the server and of the record's stale kinds. */
  predicate ServerIs(s: System, written: seq<Command>, answered: nat, got: nat, subs: Subs, stale: set<Kind>) {
    s.written == written && s.answered == answered && s.got == got && s.subs == subs && s.stale == stale && !s.sharded
  }

  const SUBSCRIBE_BOTH := Command(0, Subscribe(Channel), ["a", ""])
  const UNSUBSCRIBE_EMPTY := Command(1, Unsubscribe(Channel), [""])

  lemma BothNames()
    ensures NoSubs.Add(Channel, "a") == Subs({"a"}, {}, {})
    ensures Subs({"a"}, {}, {}).Add(Channel, "") == Subs({"a", ""}, {}, {})
    ensures FreshAfter({}, Channel, "a") == FreshAfter({}, Channel, "") == {}
  {
  }

  lemma SubscribedBoth(protocol: Protocol) returns (t: System)
    ensures Reaches(Initial(protocol, false), EMPTY_NAME_RUN[..3], t)
    ensures ServerIs(t, [SUBSCRIBE_BOTH], 1, 0, Subs({"a", ""}, {}, {}), {})
  {
    hide Receive, FreshAfter;
    var e, s0 := EMPTY_NAME_RUN[..3], Initial(protocol, false);
    var s1 := Step(s0, e[0]);
    assert ServerIs(s1, [SUBSCRIBE_BOTH], 0, 0, NoSubs, {});
    var s2 := Step(s1, e[1]);
    BothNames();
    assert ServerIs(s2, [SUBSCRIBE_BOTH], 0, 1, Subs({"a"}, {}, {}), {});
    t := Step(s2, e[2]);
    hide Step;
    assert e[2..][1..] == [] && e[1..][1..] == e[2..];
    assert Reaches(t, [], t);
    assert Reaches(s2, e[2..], t);
    assert Reaches(s1, e[1..], t);
  }

  lemma UnsubscribedEmpty(s: System) returns (t: System)
    requires ServerIs(s, [SUBSCRIBE_BOTH], 1, 0, Subs({"a", ""}, {}, {}), {})
    ensures Reaches(s, EMPTY_NAME_RUN[3..], t) && t.subs == Subs({"a"}, {}, {}) && t.stale == {Channel}
  {
    hide Receive;
    var e := EMPTY_NAME_RUN[3..];
    var s1 := Step(s, e[0]);
    assert s1.written == [SUBSCRIBE_BOTH, UNSUBSCRIBE_EMPTY] && Head(s1) == UNSUBSCRIBE_EMPTY;
    t := Step(s1, e[1]);
    var both := Subs({"a", ""}, {}, {});
    assert {"a", ""} - {""} == {"a"};
    assert both.Del(Channel, "") == Subs({"a"}, {}, {}) && "" in both.Channels(Channel);
    assert "a" in Subs({"a"}, {}, {}).subscribe && StaleAfter({}, both, Channel, "") == {Channel};
    hide Step;
    assert e[1..][1..] == [];
    assert Reaches(t, [], t);
    assert Reaches(s1, e[1..], t);
  }

  lemma {:induction false} RunThen(s: System, a: seq<Event>, t: System, b: seq<Event>, u: System)
    requires Reaches(s, a, t) && Reaches(t, b, u)
    ensures Reaches(s, a + b, u)
    decreases |a|
  {
    hide Step, Enabled;
    if a == [] {
      assert a + b == b;
    } else {
      assert (a + b)[0] == a[0] && (a + b)[1..] == a[1..] + b;
      RunThen(Step(s, a[0]), a[1..], t, b, u);
    }
  }

  /** The server then holds "a" only, and the record "" as well. */
  lemma EmptyNameExample(protocol: Protocol) returns (t: System)
    ensures Reaches(Initial(protocol, false), EMPTY_NAME_RUN, t)
    ensures t.subs == Subs({"a"}, {}, {}) && t.client.subscriber == Some(Subs({"a", ""}, {}, {}))
  {
    hide Reaches, ServerIs;
    var s := SubscribedBoth(protocol);
    t := UnsubscribedEmpty(s);
    RunThen(Initial(protocol, false), EMPTY_NAME_RUN[..3], s, EMPTY_NAME_RUN[3..], t);
    assert EMPTY_NAME_RUN[..3] + EMPTY_NAME_RUN[3..] == EMPTY_NAME_RUN;
    RepliesMatchCommands(protocol, false, EMPTY_NAME_RUN, t);
    EmptyNameRecord();
  }

  lemma EmptyNameRecord()
    ensures Record(Subs({"a"}, {}, {}), {Channel}) == Some(Subs({"a", ""}, {}, {}))
  {
    assert "a" in Subs({"a"}, {}, {}).subscribe;
    assert {"a"} + {""} == {"a", ""};
    assert Kept(Subs({"a"}, {}, {}), {Channel}) == Subs({"a", ""}, {}, {});
  }
}
