/**
 Which database the commands of a new connection run on when the database recorded by the client is not the
 one the server has selected, as after a pipeline with a SELECT issued before the connection is ready.
 */
module Databases {
  import opened Bytes
  import opened Wrappers
  import opened Queues
  import opened Outage

  predicate SelectsDb(command: Command) {
    command.verb.Select? && command.verb.db.Some?
  }

  /** A command with a recorded database is written before the first SELECT. */
  predicate Exposed(ws: seq<Write>) {
    ws != [] && !SelectsDb(ws[0].command)
    && ((ws[0].wants.Some? && !ws[0].command.verb.Select?) || Exposed(ws[1..]))
  }

  predicate SelectsIn(ws: seq<Write>) {
    ws != [] && (SelectsDb(ws[0].command) || SelectsIn(ws[1..]))
  }

  /** Writes that suit one database suit another one if and only if no command is exposed. */
  lemma {:induction false} ObeysElsewhereIff(d: int, e: int, ws: seq<Write>)
    requires Obeys(d, ws) && d != e
    ensures Obeys(e, ws) <==> !Exposed(ws)
    decreases |ws|
  {
    if ws != [] && !SelectsDb(ws[0].command) {
      ObeysElsewhereIff(d, e, ws[1..]);
    }
  }

  lemma {:induction false} DbAfterElsewhere(d: int, e: int, ws: seq<Write>)
    requires d != e
    ensures DbAfter(d, ws) == DbAfter(e, ws) <==> SelectsIn(ws)
    ensures !SelectsIn(ws) ==> DbAfter(d, ws) == d && DbAfter(e, ws) == e
    decreases |ws|
  {
    if ws != [] && !SelectsDb(ws[0].command) {
      DbAfterElsewhere(d, e, ws[1..]);
    }
  }

  lemma {:induction false} NoSelectKeepsDb(d: int, ws: seq<Write>)
    requires !SelectsIn(ws)
    ensures DbAfter(d, ws) == d
    decreases |ws|
  {
    if ws != [] {
      NoSelectKeepsDb(d, ws[1..]);
    }
  }

  lemma {:induction false} ExposedAppend(a: seq<Write>, b: seq<Write>)
    ensures Exposed(a + b) <==> Exposed(a) || (!SelectsIn(a) && Exposed(b))
    ensures SelectsIn(a + b) <==> SelectsIn(a) || SelectsIn(b)
    decreases |a|
  {
    if a == [] {
      assert a + b == b;
    } else {
      assert (a + b)[1..] == a[1..] + b && (a + b)[0] == a[0];
      ExposedAppend(a[1..], b);
    }
  }

  // ---------- the same in terms of what is waiting ----------

  /**
   The first item that is not a SELECT of something else than an integer is no SELECT and is recorded on this
   database.
   */
  predicate ExposedBy(db: int, items: seq<Item>) {
    items != []
    && if items[0].command.verb == Select(None) then ExposedBy(db, items[1..])
       else !items[0].command.verb.Select? && items[0].select == db
  }

  /** Nothing selects another database: no item does itself, and none but SELECTs is recorded on another one. */
  predicate StillBy(db: int, items: seq<Item>) {
    forall i :: 0 <= i < |items| ==>
      items[i].command.verb == Select(None) || (!items[i].command.verb.Select? && items[i].select == db)
  }

  lemma {:induction false} ExposedByAppend(db: int, a: seq<Item>, b: seq<Item>)
    ensures StillBy(db, a) && !ExposedBy(db, a) ==> (ExposedBy(db, a + b) <==> ExposedBy(db, b))
    ensures ExposedBy(db, a) ==> ExposedBy(db, a + b)
    ensures !StillBy(db, a) && !ExposedBy(db, a) ==> !ExposedBy(db, a + b)
    ensures StillBy(db, a + b) <==> StillBy(db, a) && StillBy(db, b)
    decreases |a|
  {
    StillByAppend(db, a, b);
    if a == [] {
      assert a + b == b;
    } else {
      assert (a + b)[1..] == a[1..] + b && (a + b)[0] == a[0];
      assert a == [a[0]] + a[1..];
      StillByAppend(db, [a[0]], a[1..]);
      ExposedByAppend(db, a[1..], b);
    }
  }

  lemma StillByAppend(db: int, a: seq<Item>, b: seq<Item>)
    ensures StillBy(db, a + b) <==> StillBy(db, a) && StillBy(db, b)
  {
    var ab := a + b;
    if StillBy(db, ab) {
      forall i | 0 <= i < |a|
        ensures a[i].command.verb == Select(None) || (!a[i].command.verb.Select? && a[i].select == db)
      {
        assert ab[i] == a[i];
      }
      forall i | 0 <= i < |b|
        ensures b[i].command.verb == Select(None) || (!b[i].command.verb.Select? && b[i].select == db)
      {
        assert ab[|a| + i] == b[i];
      }
    }
  }

  /** The writes of a block that needs no SELECT before it: behind bad SELECTs comes a SELECT or its database fits. */
  lemma {:induction false} WritesExposed(db: int, b: seq<Item>)
    requires Chained(b)
    requires BadSelects(b) < |b| ==> b[BadSelects(b)].command.verb.Select? || b[BadSelects(b)].select == db
    ensures Exposed(WritesOf(b)) <==> ExposedBy(db, b)
    ensures SelectsIn(WritesOf(b)) <==> !StillBy(db, b)
    decreases |b|
  {
    if b != [] {
      var rest := b[1..];
      assert WritesOf(b)[1..] == WritesOf(rest);
      assert b == [b[0]] + rest;
      StillByAppend(db, [b[0]], rest);
      if b[0].command.verb == Select(None) {
        ChainedTail(b, 1);
        WritesExposed(db, rest);
      } else if !SelectsDb(b[0].command) {
        WritesStill(db, b);
      }
    }
  }

  /** Without a SELECT, the databases of a chained block are all the same. */
  lemma {:induction false} WritesStill(db: int, b: seq<Item>)
    requires Chained(b) && (b != [] ==> b[0].select == db)
    ensures SelectsIn(WritesOf(b)) <==> !StillBy(db, b)
    decreases |b|
  {
    if b != [] {
      var rest := b[1..];
      assert WritesOf(b)[1..] == WritesOf(rest);
      assert b == [b[0]] + rest;
      StillByAppend(db, [b[0]], rest);
      ChainedTail(b, 1);
      if rest != [] {
        assert rest[0].select == After(b[0]);
      }
      if !SelectsDb(b[0].command) {
        WritesStill(db, rest);
      }
    }
  }

  /** A whole block, with the SELECT it may need. */
  lemma BlockExposed(db: int, b: seq<Item>)
    requires Block(b) && Chained(b)
    ensures var ws := Alignment(db, b) + WritesOf(b);
            && (Exposed(ws) <==> ExposedBy(db, b)) && (SelectsIn(ws) <==> !StillBy(db, b))
  {
    hide Block;
    BlockIsSome(b);
    var n := BadSelects(b);
    if Misplaces(db, b) {
      SelectFirst(b[n].select, WritesOf(b));
      MisplacedExposed(db, b);
    } else if Alignment(db, b) == [] {
      assert Alignment(db, b) + WritesOf(b) == WritesOf(b);
      WritesExposed(db, b);
    } else {
      SelectFirst(b[0].select, WritesOf(b));
      assert !StillBy(db, b);
    }
  }

  lemma SelectFirst(db: int, ws: seq<Write>)
    ensures var all := [Write(SelectCommand(db), None)] + ws;
            !Exposed(all) && SelectsIn(all)
  {
  }

  lemma {:induction false} MisplacedExposed(db: int, b: seq<Item>)
    requires var n := BadSelects(b); n < |b| && !b[n].command.verb.Select? && b[n].select != db
    ensures !ExposedBy(db, b) && !StillBy(db, b)
    decreases |b|
  {
    var n := BadSelects(b);
    if n > 0 {
      assert b == [b[0]] + b[1..];
      MisplacedExposed(db, b[1..]);
      StillByAppend(db, [b[0]], b[1..]);
    } else {
      assert b[0].command.verb != Select(None);
    }
  }

  /** Blocks that are sent again one after the other. */
  lemma {:induction false} BlocksExposed(s: Client, bs: seq<seq<Item>>, ws: seq<Write>)
    requires s.status == Ready && s.gathered == map[] && Resendable(bs)
    requires ResendAll(s, Concat(bs)).wire == s.wire + ws
    ensures Exposed(ws) <==> ExposedBy(s.condition.select, Concat(bs))
    ensures SelectsIn(ws) <==> !StillBy(s.condition.select, Concat(bs))
    decreases |bs|
  {
    hide Resend, Block, Wrote, ExposedBy, StillBy, Exposed, SelectsIn, Alignment, Chained;
    var db := s.condition.select;
    if bs == [] {
      assert s.wire + [] == s.wire;
      assert ws == [];
      NothingExposed(db);
    } else {
      var b, rest := bs[0], bs[1..];
      assert b in bs && forall x :: x in rest ==> x in bs;
      var first := ResendBlock(s, b);
      var t := ResendAll(s, b);
      WroteWire(s, t, first);
      ResendAllAppend(s, b, Concat(rest));
      var others := ResendBlocks(t, rest);
      WroteWire(t, ResendAll(t, Concat(rest)), others);
      assert s.wire + (first + others) == s.wire + first + others;
      SameSuffix(s.wire, ws, first + others);
      BlockExposed(db, b);
      BlocksExposed(t, rest, others);
      ExposedAppend(first, others);
      ExposedByAppend(db, b, Concat(rest));
      if !SelectsIn(first) {
        NoSelectKeepsDb(db, first);
      }
    }
  }

  lemma SameSuffix<T>(prefix: seq<T>, a: seq<T>, b: seq<T>)
    requires prefix + a == prefix + b
    ensures a == b
  {
    assert (prefix + a)[|prefix|..] == a && (prefix + b)[|prefix|..] == b;
  }

  lemma NothingExposed(db: int)
    ensures !Exposed([]) && !SelectsIn([]) && !ExposedBy(db, []) && StillBy(db, [])
  {
  }

  lemma WroteWire(s: Client, t: Client, ws: seq<Write>)
    requires Wrote(s, t, ws)
    ensures t.wire == s.wire + ws && t.condition.select == DbAfter(s.condition.select, ws)
    ensures t.status == s.status && t.gathered == s.gathered
  {
  }

  // ---------- becoming ready ----------

  /**
   Every command will find its own database: the recorded one is the server's, or subscribing again selects
   one first, or the first command to be resent that is not a SELECT of something else than an integer is
   missing, or a SELECT, or recorded on another database than the recorded one.
   */
  predicate FindsDatabases(s: Client) {
    s.condition.select == DbAfter(0, s.wire) || ResubscribeSelects(s) || !ExposedBy(s.condition.select, ToResend(s))
  }

  /** The server ends where the record does: they agree, or something is selected on the way. */
  predicate EndsTogether(s: Client) {
    s.condition.select == DbAfter(0, s.wire)
    || s.Remembered().select != s.condition.select || !StillBy(s.condition.select, ToResend(s))
  }

  lemma {:induction false} InsertedExposes(commands: seq<Subscribing>)
    ensures !Exposed(Inserted(commands)) && !SelectsIn(Inserted(commands))
    decreases |commands|
  {
    if commands != [] {
      assert Inserted(commands)[1..] == Inserted(commands[1..]);
      InsertedExposes(commands[1..]);
    }
  }

  lemma ResubscribeExposes(s: Client)
    ensures !Exposed(ResubscribePart(s)) && (SelectsIn(ResubscribePart(s)) <==> ResubscribeSelects(s))
  {
    if s.prevCondition != NoCondition && s.Remembered().resubscribe.Some? && s.options.autoResubscribe {
      var commands := s.Remembered().resubscribe.value;
      InsertedExposes(commands);
      var select := if s.condition.select == s.Remembered().select then []
                    else [Write(SelectCommand(s.Remembered().select), None)];
      ExposedAppend(select, Inserted(commands));
      if select != [] {
        assert SelectsDb(select[0].command);
      }
    }
  }

  lemma FinalExposes(v: Client, db: int)
    ensures !Exposed(FinalPart(v, db)) && (SelectsIn(FinalPart(v, db)) <==> v.condition.select != db)
  {
    if v.condition.select != db {
      assert SelectsDb(FinalPart(v, db)[0].command);
    }
  }

  /** The outstanding commands of a connection that has become ready. */
  lemma PreviousExposed(s: Client, prev: seq<seq<Item>>, b: seq<Write>)
    requires s.status == Ready && s.gathered == map[]
    requires s.prevQueue != SameQueue && s.PrevItems() == Concat(prev) && Resendable(prev)
    requires ResendPrevious(s).wire == s.wire + b
    ensures Exposed(b) <==> ExposedBy(s.condition.select, Concat(Resent(s.options, prev)))
    ensures SelectsIn(b) <==> !StillBy(s.condition.select, Concat(Resent(s.options, prev)))
  {
    hide Exposed, SelectsIn, ExposedBy, StillBy, ResendAll, Resendable;
    if s.prevQueue == NoQueue || !s.options.autoResend {
      assert s.wire + [] == s.wire;
      assert b == [] && Concat(Resent(s.options, prev)) == [];
      NothingExposed(s.condition.select);
    } else {
      BlocksExposed(s.(prevQueue := OwnQueue([])), prev, b);
    }
  }

  lemma WiredWire(s: Client, t: Client, ws: seq<Write>)
    requires Wired(s, t, ws)
    ensures t.wire == s.wire + ws && t.condition.select == DbAfter(s.condition.select, ws)
  {
  }

  /** Writes in four parts, of which the first and the last expose nothing. */
  lemma PartsExposed(d: int, a: seq<Write>, b: seq<Write>, c: seq<Write>, e: seq<Write>)
    requires !Exposed(a) && !Exposed(e)
    ensures Exposed(a + (b + (c + e))) <==> !SelectsIn(a) && (Exposed(b) || (!SelectsIn(b) && Exposed(c)))
    ensures SelectsIn(a + (b + (c + e))) <==> SelectsIn(a) || SelectsIn(b) || SelectsIn(c) || SelectsIn(e)
    ensures !SelectsIn(a) ==> DbAfter(d, a) == d
    ensures !SelectsIn(b) ==> DbAfter(d, b) == d
    ensures !SelectsIn(c) ==> DbAfter(d, c) == d
  {
    hide Exposed, SelectsIn, DbAfter;
    ExposedAppend(a, b + (c + e));
    ExposedAppend(b, c + e);
    ExposedAppend(c, e);
    if !SelectsIn(a) {
      NoSelectKeepsDb(d, a);
    }
    if !SelectsIn(b) {
      NoSelectKeepsDb(d, b);
    }
    if !SelectsIn(c) {
      NoSelectKeepsDb(d, c);
    }
  }

  /** The parts of what becoming ready writes, with the databases recorded between them. */
  lemma ReadySplit(s: Client, prev: seq<seq<Item>>, waiting: seq<seq<Item>>, ws: seq<Write>)
    returns (subscribed: Client, b: seq<Write>, cleared: Client, c: seq<Write>, v: Client)
    requires Primed(s, prev, waiting) && OnReady(s).wire == s.wire + ws
    ensures ws == ResubscribePart(s) + (b + (c + FinalPart(v, s.Remembered().select)))
    ensures subscribed.condition.select == DbAfter(s.condition.select, ResubscribePart(s))
    ensures cleared.condition.select == DbAfter(subscribed.condition.select, b)
    ensures v.condition.select == DbAfter(cleared.condition.select, c)
    ensures Exposed(b) <==> ExposedBy(subscribed.condition.select, Concat(Resent(s.options, prev)))
    ensures SelectsIn(b) <==> !StillBy(subscribed.condition.select, Concat(Resent(s.options, prev)))
    ensures Exposed(c) <==> ExposedBy(cleared.condition.select, Concat(waiting))
    ensures SelectsIn(c) <==> !StillBy(cleared.condition.select, Concat(waiting))
  {
    hide *;
    var r;
    r, subscribed, b, cleared, c, v := ReadyParts(s, prev, waiting);
    var a, e := ResubscribePart(s), FinalPart(v, s.Remembered().select);
    WroteWire(r, subscribed, a);
    WiredWire(subscribed, cleared, b);
    WroteWire(cleared, v, c);
    WroteWire(v, OnReady(s), e);
    assert s.wire + (a + (b + (c + e))) == s.wire + a + b + c + e;
    SameSuffix(s.wire, ws, a + (b + (c + e)));
    PrimedBlocks(s, prev, waiting);
    ClearedWire(subscribed, cleared);
    PreviousExposed(subscribed, prev, b);
    BlocksExposed(cleared, waiting, c);
  }

  lemma ClearedWire(subscribed: Client, cleared: Client)
    requires cleared == ResendPrevious(subscribed).(offline := [])
    ensures ResendPrevious(subscribed).wire == cleared.wire
  {
    hide ResendPrevious;
  }

  /** What becoming ready writes is exposed, and selects nothing, exactly as the state before says. */
  lemma ReadyExposed(s: Client, prev: seq<seq<Item>>, waiting: seq<seq<Item>>, ws: seq<Write>)
    requires Primed(s, prev, waiting) && OnReady(s).wire == s.wire + ws
    ensures var d := s.condition.select;
            && (Exposed(ws) <==> !ResubscribeSelects(s) && ExposedBy(d, ToResend(s)))
            && (SelectsIn(ws) <==> s.Remembered().select != d || !StillBy(d, ToResend(s)))
  {
    hide OnReady, Primed, ResubscribePart, FinalPart, DbAfter, ToResend, Exposed, SelectsIn, ExposedBy, StillBy;
    var subscribed, b, cleared, c, v := ReadySplit(s, prev, waiting, ws);
    var d, final := s.condition.select, s.Remembered().select;
    PrimedBlocks(s, prev, waiting);
    ResubscribeExposes(s);
    FinalExposes(v, final);
    ExposedByAppend(d, Concat(Resent(s.options, prev)), Concat(waiting));
    PartsExposed(d, ResubscribePart(s), b, c, FinalPart(v, final));
  }

  lemma PrimedBlocks(s: Client, prev: seq<seq<Item>>, waiting: seq<seq<Item>>)
    requires Primed(s, prev, waiting)
    ensures Resendable(prev) && Resendable(waiting) && ToResend(s) == Concat(Resent(s.options, prev)) + Concat(waiting)
    ensures s.queue == []
  {
  }

  /**
   Whatever database the server has selected: the commands that becoming ready writes all run on their own
   databases, and the server ends on the remembered one, exactly under the two conditions above.
   */
  lemma ReadyDatabasesIff(s: Client, prev: seq<seq<Item>>, waiting: seq<seq<Item>>, ws: seq<Write>)
    requires Primed(s, prev, waiting) && OnReady(s).wire == s.wire + ws
    ensures Obeys(DbAfter(0, s.wire), ws) <==> FindsDatabases(s)
    ensures DbAfter(0, OnReady(s).wire) == s.Remembered().select <==> EndsTogether(s)
  {
    hide OnReady, Exposed, SelectsIn, ExposedBy, StillBy, Primed, Obeys, DbAfter;
    var written := ReadyWritesEverything(s, prev, waiting);
    SameSuffix(s.wire, ws, written);
    ReadyExposed(s, prev, waiting, ws);
    WiresAppend(0, s.wire, ws);
    var d, e := s.condition.select, DbAfter(0, s.wire);
    if d != e {
      ObeysElsewhereIff(d, e, ws);
      DbAfterElsewhere(d, e, ws);
    }
  }
}
