/**
 The RESP decoder as a machine that reads one byte at a time.

 Every function the streaming decoder binds and stores as "what to do with the next chunk" is a
 constructor of Cont; a chain of them (a value inside an array inside a map) is a stack of Frames
 under a Cont. StepCont says what one byte does to a stored continuation. Run folds it over a chunk
 from a cursor, which may end past the end of the chunk: the excess is still to be skipped.
 */
module RespMachine {
  import opened Bytes
  import opened JsNumber
  import opened Wrappers

  /** What a run of text becomes: a Buffer or a (UTF-8, undecoded) string. */
  datatype Target = AsBuffer | AsString

  datatype DoubleTarget = DoubleBuffer | DoubleString | DoubleNumber

  datatype ReplyMapping = Legacy | Resp3

  /**
   The choices in which the client's type mappings differ. All of them map simple, blob and verbatim
   strings to Buffer, big numbers to String and sets to Array.
   */
  datatype TypeMapping = TypeMapping(numberAsString: bool, double: DoubleTarget, booleanAsNumber: bool,
                                     mapAsArray: bool)

  function ParserTypeMapping(replyMapping: ReplyMapping, stringNumbers: bool): TypeMapping {
    var base := match replyMapping
      case Resp3 => TypeMapping(false, DoubleNumber, false, false)
      case Legacy => TypeMapping(false, DoubleBuffer, true, true);
    if stringNumbers then base.(numberAsString := true, double := DoubleString) else base
  }

  /** A decoded reply. Real holds the text given to Number(); an Obj is a JavaScript object. */
  datatype Value =
    | Null
    | Bool(b: bool)
    | Num(n: int)
    | Str(text: bytes)
    | Buf(data: bytes)
    | Real(of: Value)
    | Err(blob: bool, message: Value)
    | Arr(items: seq<Value>)
    | Obj(entries: map<Value, Value>)

  function TextValue(text: bytes, target: Target): Value {
    match target case AsBuffer => Buf(text) case AsString => Str(text)
  }

  type pos = n: nat | n > 0 witness 1

  datatype Frame =
    | Signed(negative: bool)
    | ParseDouble
    | MakeError(blob: bool)
    | BlobLength(target: Target)
    | VerbatimLength
    | ArrayLength(tm: TypeMapping)
    | SetLength(tm: TypeMapping)
    | MapLength(tm: TypeMapping)
    | Item(done: seq<Value>, left: pos, tm: TypeMapping)
    | MapKey(entries: map<Value, Value>, remaining: pos, tm: TypeMapping)
    | MapValue(entries: map<Value, Value>, remaining: pos, key: Value, tm: TypeMapping)

  datatype Cont =
    | NullBody
    | BooleanBody(asNumber: bool)
    | NumberBody
    | Digits(number: int)
    | Line(read: bytes, target: Target)
    | Blob(target: Target)
    | BlobBody(length: nat, target: Target)
    | BlobRest(length: nat, read: bytes, target: Target)
    | ArrayBody(tm: TypeMapping)
    | Items(done: seq<Value>, left: pos, tm: TypeMapping)
    | Pairs(entries: map<Value, Value>, remaining: pos, tm: TypeMapping)
    | NestedType(tm: TypeMapping)
    | NestedTypeValue(tag: byte, tm: TypeMapping)
    | MapKeyValue(tag: byte, tm: TypeMapping)
    | Then(frame: Frame, inner: Cont)
  {
    function Height(): nat {
      match this
      case Then(_, inner) => 1 + inner.Height()
      case Digits(_) => 0
      case NumberBody => 3
      case Blob(_) => 3
      case ArrayBody(_) => 3
      case NestedTypeValue(_, _) => 6
      case MapKeyValue(_, _) => 7
      case _ => 1
    }
  }

  const NULL_TAG: byte := 95
  const BOOLEAN_TAG: byte := 35
  const NUMBER_TAG: byte := 58
  const BIG_NUMBER_TAG: byte := 40
  const DOUBLE_TAG: byte := 44
  const SIMPLE_STRING_TAG: byte := 43
  const BLOB_STRING_TAG: byte := 36
  const VERBATIM_STRING_TAG: byte := 61
  const SIMPLE_ERROR_TAG: byte := 45
  const BLOB_ERROR_TAG: byte := 33
  const ARRAY_TAG: byte := 42
  const SET_TAG: byte := 126
  const MAP_TAG: byte := 37
  const PUSH_TAG: byte := 62
  const LETTER_T: byte := 116

  const MAX_ARRAY_LENGTH: int := 4294967295

  /** How the body of a value starts, by type byte; None for a type byte the decoder does not know. */
  function Entry(tag: byte, tm: TypeMapping): Option<Cont> {
    if tag == NULL_TAG then Some(NullBody)
    else if tag == BOOLEAN_TAG then Some(BooleanBody(tm.booleanAsNumber))
    else if tag == NUMBER_TAG then Some(if tm.numberAsString then Line([], AsString) else NumberBody)
    else if tag == BIG_NUMBER_TAG then Some(Line([], AsString))
    else if tag == DOUBLE_TAG then Some(DoubleEntry(tm.double))
    else if tag == SIMPLE_STRING_TAG then Some(Line([], AsBuffer))
    else if tag == BLOB_STRING_TAG then Some(Blob(AsBuffer))
    else if tag == VERBATIM_STRING_TAG then Some(Then(VerbatimLength, Digits(0)))
    else if tag == SIMPLE_ERROR_TAG then Some(Then(MakeError(false), Line([], AsString)))
    else if tag == BLOB_ERROR_TAG then Some(Then(MakeError(true), Blob(AsString)))
    else if tag == ARRAY_TAG then Some(ArrayBody(tm))
    else if tag == SET_TAG then Some(Then(SetLength(tm), Digits(0)))
    else if tag == MAP_TAG then Some(Then(MapLength(tm), Digits(0)))
    else None
  }

  function DoubleEntry(target: DoubleTarget): Cont {
    match target
    case DoubleBuffer => Line([], AsBuffer)
    case DoubleString => Line([], AsString)
    case DoubleNumber => Then(ParseDouble, Line([], AsString))
  }

  /** A map key keeps strings as strings, whatever the mapping. */
  function KeyEntry(tag: byte, tm: TypeMapping): Cont {
    if tag == SIMPLE_STRING_TAG then Line([], AsString)
    else if tag == BLOB_STRING_TAG then Blob(AsString)
    else NestedTypeValue(tag, tm)
  }

  /** What a completed inner value does: complete the outer one, or go on after skipping bytes. */
  datatype Turn = Emit(value: Value) | Go(next: Cont, skip: nat) | Bad

  function NumberOf(v: Value): int {
    if v.Num? then v.n else 0
  }

  function StartItems(count: int, tm: TypeMapping): Turn {
    if count < 0 || count > MAX_ARRAY_LENGTH then Bad
    else if count == 0 then Emit(Arr([]))
    else Go(Items([], count, tm), 0)
  }

  function StartPairs(count: int, tm: TypeMapping): Turn {
    if tm.mapAsArray then StartItems(Double(count * 2), tm)
    else if count <= 0 then Emit(Obj(map[]))
    else Go(Pairs(map[], count, tm), 0)
  }

  function Return(frame: Frame, v: Value): Turn {
    match frame
    case Signed(negative) => Emit(Num(if negative then -NumberOf(v) else NumberOf(v)))
    case ParseDouble => Emit(Real(v))
    case MakeError(blob) => Emit(Err(blob, v))
    case BlobLength(target) => if NumberOf(v) < 0 then Bad else Go(BlobBody(NumberOf(v), target), 0)
    case VerbatimLength => if NumberOf(v) < 4 then Bad else Go(BlobBody(NumberOf(v) - 4, AsBuffer), 4)
    case ArrayLength(tm) => StartItems(NumberOf(v), tm)
    case SetLength(tm) => StartItems(NumberOf(v), tm)
    case MapLength(tm) => StartPairs(NumberOf(v), tm)
    case Item(done, left, tm) =>
      if left == 1 then Emit(Arr(done + [v])) else Go(Items(done + [v], left - 1, tm), 0)
    case MapKey(entries, remaining, tm) => Go(Then(MapValue(entries, remaining, v, tm), NestedType(tm)), 0)
    case MapValue(entries, remaining, key, tm) =>
      if remaining == 1 then Emit(Obj(entries[key := v])) else Go(Pairs(entries[key := v], remaining - 1, tm), 0)
  }

  /** The effect of one byte: a value, or a continuation, either after skipping some bytes unseen. */
  datatype Res = Done(value: Value, skip: nat) | More(cont: Cont, skip: nat) | Fault

  function Resolve(turn: Turn, skip: nat): Res {
    match turn
    case Emit(v) => Done(v, skip)
    case Go(k, extra) => More(k, skip + extra)
    case Bad => Fault
  }

  lemma EntryIsLow(tag: byte, tm: TypeMapping)
    ensures Entry(tag, tm).Some? ==> Entry(tag, tm).value.Height() <= 4
  {
    assert Then(ParseDouble, Line([], AsString)).Height() == 2;
    assert Then(MakeError(false), Line([], AsString)).Height() == 2;
    assert Then(MakeError(true), Blob(AsString)).Height() == 4;
  }

  function StepCont(k: Cont, b: byte): Res
    decreases k.Height()
  {
    match k
    case NullBody => Done(Null, 1)
    case BooleanBody(asNumber) =>
      var t := b == LETTER_T;
      Done(if asNumber then Num(if t then 1 else 0) else Bool(t), 2)
    case NumberBody =>
      if b == PLUS then More(Then(Signed(false), Digits(0)), 0)
      else if b == MINUS then More(Then(Signed(true), Digits(0)), 0)
      else StepCont(Then(Signed(false), Digits(0)), b)
    case Digits(number) => if b == CR then Done(Num(number), 1) else More(Digits(AddDigit(number, b)), 0)
    case Line(read, target) => if b == CR then Done(TextValue(read, target), 1) else More(Line(read + [b], target), 0)
    case Blob(target) =>
      var length := Then(BlobLength(target), Digits(0));
      assert length.Height() == 1;
      if b == MINUS then Done(Null, 3) else StepCont(length, b)
    case BlobBody(length, target) =>
      if length == 0 then Done(TextValue([], target), 1) else More(BlobRest(length - 1, [b], target), 0)
    case BlobRest(length, read, target) =>
      if length == 0 then Done(TextValue(read, target), 1) else More(BlobRest(length - 1, read + [b], target), 0)
    case ArrayBody(tm) =>
      var length := Then(ArrayLength(tm), Digits(0));
      assert length.Height() == 1;
      if b == MINUS then Done(Null, 3) else StepCont(length, b)
    case Items(done, left, tm) => More(Then(Item(done, left, tm), NestedTypeValue(b, tm)), 0)
    case Pairs(entries, remaining, tm) => More(Then(MapKey(entries, remaining, tm), MapKeyValue(b, tm)), 0)
    case NestedType(tm) => More(NestedTypeValue(b, tm), 0)
    case NestedTypeValue(tag, tm) =>
      EntryIsLow(tag, tm);
      (match Entry(tag, tm) case None => Fault case Some(entry) => StepCont(entry, b))
    case MapKeyValue(tag, tm) => StepCont(KeyEntry(tag, tm), b)
    case Then(frame, inner) =>
      match StepCont(inner, b)
      case Done(v, skip) => Resolve(Return(frame, v), skip)
      case More(next, skip) => More(Then(frame, next), skip)
      case Fault => Fault
  }

  /** The outcome of resuming a continuation on a chunk: the cursor may end past the chunk. */
  datatype Out = Finished(value: Value, cursor: nat) | Suspended(cont: Cont, cursor: nat) | Threw

  function Run(k: Cont, chunk: bytes, cursor: nat): Out
    decreases |chunk| - cursor
  {
    if cursor >= |chunk| then Suspended(k, cursor)
    else
      match StepCont(k, chunk[cursor])
      case Done(v, skip) => Finished(v, cursor + 1 + skip)
      case More(next, skip) => Run(next, chunk, cursor + 1 + skip)
      case Fault => Threw
  }

  /** What a frame makes of the outcome of the value below it. */
  function Bind(frame: Frame, inner: Out, chunk: bytes): Out {
    match inner
    case Suspended(k, cursor) => Suspended(Then(frame, k), cursor)
    case Finished(v, cursor) => Continue(Return(frame, v), chunk, cursor)
    case Threw => Threw
  }

  function Continue(turn: Turn, chunk: bytes, cursor: nat): Out {
    match turn
    case Emit(v) => Finished(v, cursor)
    case Go(k, skip) => Run(k, chunk, cursor + skip)
    case Bad => Threw
  }

  /** Running a framed continuation is running the inner one and handing its value to the frame. */
  lemma {:induction false} RunThen(frame: Frame, inner: Cont, chunk: bytes, cursor: nat)
    ensures Run(Then(frame, inner), chunk, cursor) == Bind(frame, Run(inner, chunk, cursor), chunk)
    decreases |chunk| - cursor
  {
    if cursor < |chunk| {
      match StepCont(inner, chunk[cursor])
      case Done(v, skip) =>
      case More(next, skip) => RunThen(frame, next, chunk, cursor + 1 + skip);
      case Fault =>
    }
  }

  // ---------- the top level ----------

  datatype Callback = OnReply | OnErrorReply | OnPush

  datatype Event = Event(callback: Callback, value: Value)

  /** The stored `next`: none between replies, after a type byte alone, or inside a value. */
  datatype Next = Idle | AwaitTypeValue(tag: byte) | AwaitValue(callback: Callback, cont: Cont)

  function CallbackFor(tag: byte): Callback {
    if tag == PUSH_TAG then OnPush
    else if tag == SIMPLE_ERROR_TAG || tag == BLOB_ERROR_TAG then OnErrorReply
    else OnReply
  }

  /** Pushes are arrays that only the top level knows. */
  function TopEntry(tag: byte, tm: TypeMapping): Option<Cont> {
    if tag == PUSH_TAG then Some(ArrayBody(tm)) else Entry(tag, tm)
  }

  /** The state of a decoder and the callbacks it has fired; Dead after it has thrown. */
  datatype State = State(next: Next, cursor: nat, fired: seq<Event>) | Dead(fired: seq<Event>)

  const Initial := State(Idle, 0, [])

  function Settle(callback: Callback, res: Res, cursor: nat, fired: seq<Event>): State {
    match res
    case Done(v, skip) => State(Idle, cursor + 1 + skip, fired + [Event(callback, v)])
    case More(k, skip) => State(AwaitValue(callback, k), cursor + 1 + skip, fired)
    case Fault => Dead(fired)
  }

  /** The outcome of an array that holds `done` so far: complete without reading on when nothing is left. */
  function ItemsFrom(done: seq<Value>, left: nat, tm: TypeMapping, chunk: bytes, cursor: nat): Out {
    if left == 0 then Finished(Arr(done), cursor) else Run(Items(done, left, tm), chunk, cursor)
  }

  function StepTop(next: Next, b: byte, cursor: nat, fired: seq<Event>, tm: TypeMapping): (st: State)
    ensures st.State? ==> st.cursor > cursor
  {
    match next
    case Idle => State(AwaitTypeValue(b), cursor + 1, fired)
    case AwaitTypeValue(tag) =>
      (match TopEntry(tag, tm)
       case None => Dead(fired)
       case Some(k) => Settle(CallbackFor(tag), StepCont(k, b), cursor, fired))
    case AwaitValue(callback, k) => Settle(callback, StepCont(k, b), cursor, fired)
  }

  /** Reading a chunk byte by byte, with the cursor left relative to the chunk's start. */
  function Scan(st: State, chunk: bytes, tm: TypeMapping): (after: State)
    ensures after.State? ==> after.cursor >= |chunk|
    decreases |chunk| - (if st.State? then st.cursor else |chunk|)
  {
    if st.Dead? || st.cursor >= |chunk| then st
    else Scan(StepTop(st.next, chunk[st.cursor], st.cursor, st.fired, tm), chunk, tm)
  }

  /** Reading a chunk and rebasing the cursor to the next one. */
  function Feed(st: State, chunk: bytes, tm: TypeMapping): State {
    var after := Scan(st, chunk, tm);
    if after.Dead? then after else after.(cursor := after.cursor - |chunk|)
  }

  function FeedAll(st: State, chunks: seq<bytes>, tm: TypeMapping): State
    decreases |chunks|
  {
    if chunks == [] then st else FeedAll(Feed(st, chunks[0], tm), chunks[1..], tm)
  }

  function Shift(st: State, offset: int): State
    requires st.State? ==> st.cursor + offset >= 0
  {
    if st.Dead? then st else st.(cursor := st.cursor + offset)
  }

  lemma {:induction false} ScanPrefix(st: State, a: bytes, b: bytes, tm: TypeMapping)
    ensures Scan(st, a + b, tm) == Scan(Scan(st, a, tm), a + b, tm)
    decreases |a| - (if st.State? then st.cursor else |a|)
  {
    if st.State? && st.cursor < |a| {
      assert (a + b)[st.cursor] == a[st.cursor];
      ScanPrefix(StepTop(st.next, a[st.cursor], st.cursor, st.fired, tm), a, b, tm);
    }
  }

  lemma {:induction false} ScanSuffix(st: State, a: bytes, b: bytes, tm: TypeMapping)
    requires st.State? ==> st.cursor >= |a|
    ensures Shift(Scan(st, a + b, tm), -|a|) == Scan(Shift(st, -|a|), b, tm)
    decreases |a| + |b| - (if st.State? then st.cursor else |a| + |b|)
  {
    if st.State? && st.cursor < |a + b| {
      assert (a + b)[st.cursor] == b[st.cursor - |a|];
      ScanSuffix(StepTop(st.next, (a + b)[st.cursor], st.cursor, st.fired, tm), a, b, tm);
    }
  }

  lemma FeedConcat(st: State, a: bytes, b: bytes, tm: TypeMapping)
    ensures Feed(st, a + b, tm) == Feed(Feed(st, a, tm), b, tm)
  {
    ScanPrefix(st, a, b, tm);
    ScanSuffix(Scan(st, a, tm), a, b, tm);
  }

  /** However the bytes are cut into chunks, empty ones included, the decoder ends in the same state. */
  lemma {:induction false} ChunkingIsIrrelevant(st: State, chunks: seq<bytes>, tm: TypeMapping)
    ensures FeedAll(st, chunks, tm) == Feed(st, Concat(chunks), tm)
    decreases |chunks|
  {
    if chunks != [] {
      FeedConcat(st, chunks[0], Concat(chunks[1..]), tm);
      ChunkingIsIrrelevant(Feed(st, chunks[0], tm), chunks[1..], tm);
    }
  }

  /** What the top level makes of the outcome of a value's continuation. */
  function Deliver(callback: Callback, out: Out, fired: seq<Event>): State {
    match out
    case Finished(v, cursor) => State(Idle, cursor, fired + [Event(callback, v)])
    case Suspended(k, cursor) => State(AwaitValue(callback, k), cursor, fired)
    case Threw => Dead(fired)
  }

  lemma {:induction false} ScanValue(callback: Callback, k: Cont, cursor: nat, fired: seq<Event>, chunk: bytes,
                                     tm: TypeMapping)
    ensures Scan(State(AwaitValue(callback, k), cursor, fired), chunk, tm)
         == Scan(Deliver(callback, Run(k, chunk, cursor), fired), chunk, tm)
    decreases |chunk| - cursor
  {
    if cursor < |chunk| {
      match StepCont(k, chunk[cursor])
      case Done(v, skip) =>
      case More(next, skip) => ScanValue(callback, next, cursor + 1 + skip, fired, chunk, tm);
      case Fault =>
    }
  }

  /** The body of a top-level value, from its first byte on. */
  lemma ScanTypeValue(tag: byte, cursor: nat, fired: seq<Event>, chunk: bytes, tm: TypeMapping)
    requires cursor < |chunk|
    ensures Scan(State(AwaitTypeValue(tag), cursor, fired), chunk, tm)
         == match TopEntry(tag, tm)
            case None => Dead(fired)
            case Some(k) => Scan(Deliver(CallbackFor(tag), Run(k, chunk, cursor), fired), chunk, tm)
  {
    var callback := CallbackFor(tag);
    match TopEntry(tag, tm)
    case None =>
    case Some(k) =>
      ScanValue(callback, k, cursor, fired, chunk, tm);
      assert Scan(State(AwaitTypeValue(tag), cursor, fired), chunk, tm)
          == Scan(Settle(callback, StepCont(k, chunk[cursor]), cursor, fired), chunk, tm);
  }

  /** A continuation given a byte reads it, and suspends only at the end of the chunk. */
  lemma {:induction false} RunProgress(k: Cont, chunk: bytes, cursor: nat)
    requires cursor < |chunk|
    ensures var out := Run(k, chunk, cursor);
            (out.Finished? ==> out.cursor > cursor) && (out.Suspended? ==> out.cursor >= |chunk| && out.cursor > cursor)
    decreases |chunk| - cursor
  {
    match StepCont(k, chunk[cursor])
    case Done(v, skip) =>
    case More(next, skip) =>
      if cursor + 1 + skip < |chunk| {
        RunProgress(next, chunk, cursor + 1 + skip);
      }
    case Fault =>
  }
}
