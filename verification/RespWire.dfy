/**
 The wire form of a reply, as the RESP2 and RESP3 specifications write it, and the JavaScript value
 it stands for under a type mapping. The decoder is proved to turn the first into the second.
 */
module RespWire {
  import opened Bytes
  import opened JsNumber
  import opened RespMachine
  import opened Wrappers

  /** A reply of either protocol. The children of a map alternate: key, value, key, value. */
  datatype Resp =
    | RNull
    | RBool(b: bool)
    | RInt(n: int, plus: bool)
    | RBig(text: bytes)
    | RDouble(text: bytes)
    | RSimple(text: bytes)
    | RBulk(data: bytes)
    | RNullBulk
    | RVerbatim(format: bytes, data: bytes)
    | RError(text: bytes)
    | RBulkError(data: bytes)
    | RNullBulkError
    | RArray(items: seq<Resp>)
    | RNullArray
    | RSet(items: seq<Resp>)
    | RMap(children: seq<Resp>)

  /** Text lines hold no CR; lengths are ones a JavaScript array or an exact double can hold. */
  predicate WellFormed(t: Resp) {
    match t
    case RBig(text) => CR !in text
    case RDouble(text) => CR !in text
    case RSimple(text) => CR !in text
    case RError(text) => CR !in text
    case RBulk(data) => |data| <= MAX_EXACT
    case RBulkError(data) => |data| <= MAX_EXACT
    case RVerbatim(format, data) => |format| == 3 && |data| + 4 <= MAX_EXACT
    case RArray(items) => WellFormedAll(items)
    case RSet(items) => WellFormedAll(items)
    case RMap(children) => |children| % 2 == 0 && WellFormedAll(children)
    case _ => true
  }

  predicate WellFormedAll(ts: seq<Resp>) {
    |ts| <= MAX_ARRAY_LENGTH && forall t :: t in ts ==> WellFormed(t)
  }

  // ---------- the wire form ----------

  function Tag(t: Resp): byte {
    match t
    case RNull => NULL_TAG
    case RBool(_) => BOOLEAN_TAG
    case RInt(_, _) => NUMBER_TAG
    case RBig(_) => BIG_NUMBER_TAG
    case RDouble(_) => DOUBLE_TAG
    case RSimple(_) => SIMPLE_STRING_TAG
    case RBulk(_) => BLOB_STRING_TAG
    case RNullBulk => BLOB_STRING_TAG
    case RVerbatim(_, _) => VERBATIM_STRING_TAG
    case RError(_) => SIMPLE_ERROR_TAG
    case RBulkError(_) => BLOB_ERROR_TAG
    case RNullBulkError => BLOB_ERROR_TAG
    case RArray(_) => ARRAY_TAG
    case RNullArray => ARRAY_TAG
    case RSet(_) => SET_TAG
    case RMap(_) => MAP_TAG
  }

  const MinusOne: bytes := [MINUS, 49, CR, LF]

  function Abs(n: int): nat {
    if n < 0 then -n else n
  }

  function IntText(n: int, plus: bool): bytes {
    (if n < 0 then [MINUS] else if plus then [PLUS] else []) + Decimal(Abs(n))
  }

  function BulkText(data: bytes): bytes {
    Decimal(|data|) + CRLF + (data + CRLF)
  }

  /** What follows the type byte. */
  function Payload(t: Resp): (p: bytes)
    ensures |p| >= 2
    decreases t, 0
  {
    match t
    case RNull => CRLF
    case RBool(b) => [if b then LETTER_T else 102] + CRLF
    case RInt(n, plus) => IntText(n, plus) + CRLF
    case RBig(text) => text + CRLF
    case RDouble(text) => text + CRLF
    case RSimple(text) => text + CRLF
    case RError(text) => text + CRLF
    case RBulk(data) => BulkText(data)
    case RBulkError(data) => BulkText(data)
    case RNullBulk => MinusOne
    case RNullBulkError => MinusOne
    case RNullArray => MinusOne
    case RVerbatim(format, data) => BulkText(format + [58] + data)
    case RArray(items) => Decimal(|items|) + CRLF + EncodeAll(items)
    case RSet(items) => Decimal(|items|) + CRLF + EncodeAll(items)
    case RMap(children) => Decimal(|children| / 2) + CRLF + EncodeAll(children)
  }

  function Encode(t: Resp): bytes
    decreases t, 1
  {
    [Tag(t)] + Payload(t)
  }

  function EncodeAll(ts: seq<Resp>): bytes {
    if ts == [] then [] else Encode(ts[0]) + EncodeAll(ts[1..])
  }

  // ---------- the value it stands for ----------

  function IntImage(n: int): int {
    var read := ReadDigits(0, Decimal(Abs(n)));
    if n < 0 then -read else read
  }

  lemma IntImageIsExact(n: int)
    requires -MAX_EXACT <= n <= MAX_EXACT
    ensures IntImage(n) == n
  {
    ReadDigitsExact(Abs(n));
  }

  function DoubleImage(text: bytes, target: DoubleTarget): Value {
    match target
    case DoubleBuffer => Buf(text)
    case DoubleString => Str(text)
    case DoubleNumber => Real(Str(text))
  }

  function Image(t: Resp, tm: TypeMapping): Value
    decreases t, 0
  {
    match t
    case RNull => Null
    case RBool(b) => if tm.booleanAsNumber then Num(if b then 1 else 0) else Bool(b)
    case RInt(n, plus) => if tm.numberAsString then Str(IntText(n, plus)) else Num(IntImage(n))
    case RBig(text) => Str(text)
    case RDouble(text) => DoubleImage(text, tm.double)
    case RSimple(text) => Buf(text)
    case RBulk(data) => Buf(data)
    case RNullBulk => Null
    case RVerbatim(format, data) => Buf(data)
    case RError(text) => Err(false, Str(text))
    case RBulkError(data) => Err(true, Str(data))
    case RNullBulkError => Err(true, Null)
    case RArray(items) => Arr(ImageAll(items, tm))
    case RNullArray => Null
    case RSet(items) => Arr(ImageAll(items, tm))
    case RMap(children) => if tm.mapAsArray then Arr(ImageAll(children, tm)) else Obj(Entries(map[], children, tm))
  }

  function ImageAll(ts: seq<Resp>, tm: TypeMapping): (vs: seq<Value>)
    ensures |vs| == |ts|
    ensures forall i :: 0 <= i < |ts| ==> vs[i] == Image(ts[i], tm)
  {
    if ts == [] then [] else [Image(ts[0], tm)] + ImageAll(ts[1..], tm)
  }

  /** Keys that are strings stay strings. */
  function KeyImage(t: Resp, tm: TypeMapping): Value
    decreases t, 1
  {
    match t
    case RSimple(text) => Str(text)
    case RBulk(data) => Str(data)
    case _ => Image(t, tm)
  }

  /** The properties of an object after the pairs have been assigned in order. */
  function Entries(before: map<Value, Value>, children: seq<Resp>, tm: TypeMapping): map<Value, Value>
    decreases children
  {
    if |children| < 2 then before
    else Entries(before[KeyImage(children[0], tm) := Image(children[1], tm)], children[2..], tm)
  }

  /** The position of the last pair with a key, if there is one. */
  ghost predicate LastPair(children: seq<Resp>, tm: TypeMapping, key: Value, i: nat) {
    && 2 * i + 1 < |children| && KeyImage(children[2 * i], tm) == key
    && forall j :: i < j && 2 * j + 1 < |children| ==> KeyImage(children[2 * j], tm) != key
  }

  /** An object has exactly the keys of its pairs, and each keeps the value of the last pair that names it. */
  lemma {:induction false} LastPairWins(before: map<Value, Value>, children: seq<Resp>, tm: TypeMapping, key: Value)
    ensures key in Entries(before, children, tm) <==> key in before || exists i :: LastPair(children, tm, key, i)
    ensures forall i :: LastPair(children, tm, key, i) ==>
              key in Entries(before, children, tm)
                  && Entries(before, children, tm)[key] == Image(children[2 * i + 1], tm)
    ensures (!exists i :: LastPair(children, tm, key, i)) && key in before ==>
              key in Entries(before, children, tm) && Entries(before, children, tm)[key] == before[key]
    decreases |children|
  {
    hide Image, KeyImage;
    if |children| >= 2 {
      var rest := children[2..];
      var first := KeyImage(children[0], tm);
      LastPairWins(before[first := Image(children[1], tm)], rest, tm, key);
      forall i: nat
        ensures LastPair(children, tm, key, i + 1) <==> LastPair(rest, tm, key, i)
      {
        assert forall j: nat :: 2 * j + 1 < |rest| ==> rest[2 * j] == children[2 * (j + 1)];
        if LastPair(rest, tm, key, i) {
          forall j | i + 1 < j && 2 * j + 1 < |children|
            ensures KeyImage(children[2 * j], tm) != key
          {
            assert rest[2 * (j - 1)] == children[2 * j];
          }
        }
        if LastPair(children, tm, key, i + 1) {
          forall j | i < j && 2 * j + 1 < |rest|
            ensures KeyImage(rest[2 * j], tm) != key
          {
            assert rest[2 * j] == children[2 * (j + 1)];
          }
        }
      }
      forall i: nat | LastPair(children, tm, key, i)
        ensures key in Entries(before, children, tm)
            && Entries(before, children, tm)[key] == Image(children[2 * i + 1], tm)
      {
        if i > 0 {
          assert LastPair(rest, tm, key, i - 1);
          assert rest[2 * (i - 1) + 1] == children[2 * i + 1];
        } else {
          forall j: nat
            ensures !LastPair(rest, tm, key, j)
          {
            assert 2 * j + 1 < |rest| ==> rest[2 * j] == children[2 * (j + 1)];
          }
        }
      }
      if j: nat :| LastPair(rest, tm, key, j) {
        assert LastPair(children, tm, key, j + 1);
      } else if first == key {
        forall j | 0 < j && 2 * j + 1 < |children|
          ensures KeyImage(children[2 * j], tm) != key
        {
          assert rest[2 * (j - 1)] == children[2 * j];
          if KeyImage(rest[2 * (j - 1)], tm) == key {
            var last := SomeLastPair(rest, tm, key, j - 1);
            assert false;
          }
        }
        assert LastPair(children, tm, key, 0);
      }
    }
  }

  /** A list with a pair that has the key has a last such pair. */
  lemma {:induction false} SomeLastPair(children: seq<Resp>, tm: TypeMapping, key: Value, i: nat) returns (last: nat)
    requires 2 * i + 1 < |children| && KeyImage(children[2 * i], tm) == key
    ensures LastPair(children, tm, key, last)
    decreases |children| - i
  {
    hide KeyImage;
    if j :| i < j && 2 * j + 1 < |children| && KeyImage(children[2 * j], tm) == key {
      last := SomeLastPair(children, tm, key, j);
    } else {
      last := i;
    }
  }

  // ---------- decoding the wire form ----------

  ghost predicate At(chunk: bytes, cursor: nat, part: bytes) {
    cursor + |part| <= |chunk| && chunk[cursor..cursor + |part|] == part
  }

  lemma AtSplit(chunk: bytes, cursor: nat, a: bytes, b: bytes)
    requires At(chunk, cursor, a + b)
    ensures At(chunk, cursor, a) && At(chunk, cursor + |a|, b)
  {
    var both := chunk[cursor..cursor + |a + b|];
    assert both[..|a|] == a && both[|a|..] == b;
    assert both[..|a|] == chunk[cursor..cursor + |a|];
    assert both[|a|..] == chunk[cursor + |a|..cursor + |a + b|];
  }

  lemma AtHead(chunk: bytes, cursor: nat, part: bytes)
    requires At(chunk, cursor, part) && |part| > 0
    ensures cursor < |chunk| && chunk[cursor] == part[0]
    ensures At(chunk, cursor + 1, part[1..])
  {
    assert chunk[cursor..cursor + |part|][0] == chunk[cursor];
    assert part == [part[0]] + part[1..];
    AtSplit(chunk, cursor, [part[0]], part[1..]);
  }

  lemma {:induction false} RunDigits(number: int, digits: bytes, chunk: bytes, cursor: nat)
    requires At(chunk, cursor, digits) && CR !in digits
    ensures Run(Digits(number), chunk, cursor) == Run(Digits(ReadDigits(number, digits)), chunk, cursor + |digits|)
    decreases |digits|
  {
    if digits != [] {
      AtHead(chunk, cursor, digits);
      assert digits[0] in digits;
      RunDigits(AddDigit(number, digits[0]), digits[1..], chunk, cursor + 1);
    }
  }

  lemma RunNumber(number: int, digits: bytes, chunk: bytes, cursor: nat)
    requires At(chunk, cursor, digits + CRLF) && CR !in digits
    ensures Run(Digits(number), chunk, cursor) == Finished(Num(ReadDigits(number, digits)), cursor + |digits| + 2)
  {
    hide Run, ReadDigits;
    AtSplit(chunk, cursor, digits, CRLF);
    RunDigits(number, digits, chunk, cursor);
    AtHead(chunk, cursor + |digits|, CRLF);
    RunDigitsEnd(ReadDigits(number, digits), chunk, cursor + |digits|);
  }

  lemma RunDigitsEnd(number: int, chunk: bytes, cursor: nat)
    requires cursor < |chunk| && chunk[cursor] == CR
    ensures Run(Digits(number), chunk, cursor) == Finished(Num(number), cursor + 2)
  {
  }

  /** A length and its CRLF, read for the frame that waits for it. */
  lemma RunLength(frame: Frame, n: nat, rest: bytes, chunk: bytes, cursor: nat)
    requires n <= MAX_EXACT && At(chunk, cursor, Decimal(n) + CRLF + rest)
    ensures Run(Then(frame, Digits(0)), chunk, cursor)
        == Continue(Return(frame, Num(n)), chunk, cursor + |Decimal(n)| + 2)
    ensures At(chunk, cursor + |Decimal(n)| + 2, rest)
    ensures cursor < |chunk| && chunk[cursor] != MINUS
  {
    hide Run, StepCont, ReadDigits, Decimal, Return, Continue;
    AtSplit(chunk, cursor, Decimal(n) + CRLF, rest);
    RunNumber(0, Decimal(n), chunk, cursor);
    ReadDigitsExact(n);
    RunThen(frame, Digits(0), chunk, cursor);
    AtHead(chunk, cursor, Decimal(n) + CRLF);
    assert Decimal(n)[0] in Decimal(n);
  }

  lemma {:induction false} RunText(read: bytes, text: bytes, target: Target, chunk: bytes, cursor: nat)
    requires At(chunk, cursor, text + CRLF) && CR !in text
    ensures Run(Line(read, target), chunk, cursor) == Finished(TextValue(read + text, target), cursor + |text| + 2)
    decreases |text|
  {
    AtHead(chunk, cursor, text + CRLF);
    if text == [] {
      assert read + text == read;
    } else {
      assert text[0] in text;
      assert (text + CRLF)[1..] == text[1..] + CRLF;
      RunText(read + [text[0]], text[1..], target, chunk, cursor + 1);
      assert read + [text[0]] + text[1..] == read + text;
    }
  }

  lemma {:induction false} RunRest(read: bytes, data: bytes, target: Target, chunk: bytes, cursor: nat)
    requires At(chunk, cursor, data + CRLF)
    ensures Run(BlobRest(|data|, read, target), chunk, cursor)
        == Finished(TextValue(read + data, target), cursor + |data| + 2)
    decreases |data|
  {
    AtHead(chunk, cursor, data + CRLF);
    if data == [] {
      assert read + data == read;
    } else {
      assert (data + CRLF)[1..] == data[1..] + CRLF;
      RunRest(read + [data[0]], data[1..], target, chunk, cursor + 1);
      assert read + [data[0]] + data[1..] == read + data;
    }
  }

  lemma RunBody(data: bytes, target: Target, chunk: bytes, cursor: nat)
    requires At(chunk, cursor, data + CRLF)
    ensures Run(BlobBody(|data|, target), chunk, cursor) == Finished(TextValue(data, target), cursor + |data| + 2)
  {
    AtHead(chunk, cursor, data + CRLF);
    RunRest([], data, target, chunk, cursor);
    assert [] + data == data;
    if data != [] {
      assert [] + [data[0]] == [data[0]];
    }
  }

  lemma RunBlob(data: bytes, target: Target, chunk: bytes, cursor: nat)
    requires |data| <= MAX_EXACT && At(chunk, cursor, BulkText(data))
    ensures Run(Blob(target), chunk, cursor) == Finished(TextValue(data, target), cursor + |BulkText(data)|)
  {
    hide Run, StepCont, Decimal;
    RunLength(BlobLength(target), |data|, data + CRLF, chunk, cursor);
    RunBody(data, target, chunk, cursor + |Decimal(|data|)| + 2);
    BlobHasLength(target, chunk, cursor);
  }

  /** A string or array whose body does not start with '-' has a length. */
  lemma BlobHasLength(target: Target, chunk: bytes, cursor: nat)
    requires cursor < |chunk| && chunk[cursor] != MINUS
    ensures Run(Blob(target), chunk, cursor) == Run(Then(BlobLength(target), Digits(0)), chunk, cursor)
  {
  }

  lemma ArrayHasLength(tm: TypeMapping, chunk: bytes, cursor: nat)
    requires cursor < |chunk| && chunk[cursor] != MINUS
    ensures Run(ArrayBody(tm), chunk, cursor) == Run(Then(ArrayLength(tm), Digits(0)), chunk, cursor)
  {
  }

  lemma RunVerbatim(format: bytes, data: bytes, chunk: bytes, cursor: nat)
    requires |format| == 3 && |data| + 4 <= MAX_EXACT && At(chunk, cursor, BulkText(format + [58] + data))
    ensures Run(Then(VerbatimLength, Digits(0)), chunk, cursor)
        == Finished(Buf(data), cursor + |BulkText(format + [58] + data)|)
  {
    hide Run, StepCont, Decimal;
    var all := format + [58] + data;
    RunLength(VerbatimLength, |all|, all + CRLF, chunk, cursor);
    var start := cursor + |Decimal(|all|)| + 2;
    assert all + CRLF == format + [58] + (data + CRLF);
    AtSplit(chunk, start, format + [58], data + CRLF);
    RunBody(data, AsBuffer, chunk, start + 4);
  }

  /** An optional sign, and then digits. */
  lemma NumberStarts(chunk: bytes, cursor: nat)
    requires cursor < |chunk|
    ensures Run(NumberBody, chunk, cursor)
         == if chunk[cursor] == PLUS || chunk[cursor] == MINUS
            then Run(Then(Signed(chunk[cursor] == MINUS), Digits(0)), chunk, cursor + 1)
            else Run(Then(Signed(false), Digits(0)), chunk, cursor)
  {
  }

  lemma RunSigned(negative: bool, digits: bytes, chunk: bytes, cursor: nat)
    requires At(chunk, cursor, digits + CRLF) && CR !in digits
    ensures Run(Then(Signed(negative), Digits(0)), chunk, cursor)
         == Continue(Return(Signed(negative), Num(ReadDigits(0, digits))), chunk, cursor + |digits| + 2)
  {
    hide Run, StepCont, ReadDigits;
    RunNumber(0, digits, chunk, cursor);
    RunThen(Signed(negative), Digits(0), chunk, cursor);
  }

  lemma RunInt(n: int, plus: bool, chunk: bytes, cursor: nat)
    requires At(chunk, cursor, IntText(n, plus) + CRLF)
    ensures Run(NumberBody, chunk, cursor) == Finished(Num(IntImage(n)), cursor + |IntText(n, plus)| + 2)
  {
    hide Run, StepCont, ReadDigits, Decimal;
    var digits := Decimal(Abs(n));
    AtHead(chunk, cursor, IntText(n, plus) + CRLF);
    NumberStarts(chunk, cursor);
    assert digits[0] in digits;
    if n < 0 || plus {
      assert (IntText(n, plus) + CRLF)[1..] == digits + CRLF;
      RunSigned(n < 0, digits, chunk, cursor + 1);
    } else {
      assert IntText(n, plus) == digits;
      RunSigned(false, digits, chunk, cursor);
    }
  }

  lemma RunMinusOne(chunk: bytes, cursor: nat)
    requires At(chunk, cursor, MinusOne)
    ensures forall target :: Run(Blob(target), chunk, cursor) == Finished(Null, cursor + 4)
    ensures forall tm :: Run(ArrayBody(tm), chunk, cursor) == Finished(Null, cursor + 4)
  {
    AtHead(chunk, cursor, MinusOne);
  }

  /** Between elements, the next byte is a type byte. */
  lemma ItemsStart(done: seq<Value>, left: pos, tm: TypeMapping, chunk: bytes, cursor: nat)
    requires cursor < |chunk|
    ensures Run(Items(done, left, tm), chunk, cursor)
         == Run(Then(Item(done, left, tm), NestedTypeValue(chunk[cursor], tm)), chunk, cursor + 1)
  {
  }

  lemma PairsStart(entries: map<Value, Value>, remaining: pos, tm: TypeMapping, chunk: bytes, cursor: nat)
    requires cursor < |chunk|
    ensures Run(Pairs(entries, remaining, tm), chunk, cursor)
         == Run(Then(MapKey(entries, remaining, tm), MapKeyValue(chunk[cursor], tm)), chunk, cursor + 1)
    ensures Run(NestedType(tm), chunk, cursor) == Run(NestedTypeValue(chunk[cursor], tm), chunk, cursor + 1)
  {
  }

  lemma EntryRuns(tag: byte, tm: TypeMapping, chunk: bytes, cursor: nat)
    requires cursor < |chunk| && Entry(tag, tm).Some?
    ensures Run(NestedTypeValue(tag, tm), chunk, cursor) == Run(Entry(tag, tm).value, chunk, cursor)
  {
  }

  lemma KeyEntryRuns(tag: byte, tm: TypeMapping, chunk: bytes, cursor: nat)
    requires cursor < |chunk|
    ensures Run(MapKeyValue(tag, tm), chunk, cursor) == Run(KeyEntry(tag, tm), chunk, cursor)
  {
  }

  lemma RunFixed(chunk: bytes, cursor: nat)
    requires cursor < |chunk|
    ensures Run(NullBody, chunk, cursor) == Finished(Null, cursor + 2)
    ensures Run(BooleanBody(true), chunk, cursor)
        == Finished(Num(if chunk[cursor] == LETTER_T then 1 else 0), cursor + 3)
    ensures Run(BooleanBody(false), chunk, cursor) == Finished(Bool(chunk[cursor] == LETTER_T), cursor + 3)
  {
  }

  lemma IntTextHasNoCR(n: int, plus: bool)
    ensures CR !in IntText(n, plus)
  {
  }

  lemma RunDouble(text: bytes, target: DoubleTarget, chunk: bytes, cursor: nat)
    requires At(chunk, cursor, text + CRLF) && CR !in text
    ensures Run(DoubleEntry(target), chunk, cursor) == Finished(DoubleImage(text, target), cursor + |text| + 2)
  {
    RunText([], text, AsString, chunk, cursor);
    RunText([], text, AsBuffer, chunk, cursor);
    assert [] + text == text;
    RunThen(ParseDouble, Line([], AsString), chunk, cursor);
  }

  /** Replies that hold no others. */
  lemma DecodeScalar(t: Resp, tm: TypeMapping, chunk: bytes, cursor: nat)
    requires WellFormed(t) && At(chunk, cursor, Payload(t)) && cursor < |chunk| && Entry(Tag(t), tm).Some?
    requires !t.RArray? && !t.RSet? && !t.RMap?
    ensures Run(Entry(Tag(t), tm).value, chunk, cursor) == Finished(Image(t, tm), cursor + |Payload(t)|)
  {
    hide StepCont, Run, Decimal, EncodeAll, ReadDigits;
    match t
    case RNull => RunFixed(chunk, cursor);
    case RBool(b) => RunFixed(chunk, cursor);
    case RInt(n, plus) =>
      IntTextHasNoCR(n, plus);
      RunText([], IntText(n, plus), AsString, chunk, cursor);
      assert [] + IntText(n, plus) == IntText(n, plus);
      RunInt(n, plus, chunk, cursor);
    case RBig(text) =>
      RunText([], text, AsString, chunk, cursor);
      assert [] + text == text;
    case RDouble(text) => RunDouble(text, tm.double, chunk, cursor);
    case RSimple(text) =>
      RunText([], text, AsBuffer, chunk, cursor);
      assert [] + text == text;
    case RError(text) =>
      RunText([], text, AsString, chunk, cursor);
      assert [] + text == text;
      RunThen(MakeError(false), Line([], AsString), chunk, cursor);
    case RBulk(data) => RunBlob(data, AsBuffer, chunk, cursor);
    case RBulkError(data) =>
      RunBlob(data, AsString, chunk, cursor);
      RunThen(MakeError(true), Blob(AsString), chunk, cursor);
    case RNullBulk => RunMinusOne(chunk, cursor);
    case RNullBulkError =>
      RunMinusOne(chunk, cursor);
      RunThen(MakeError(true), Blob(AsString), chunk, cursor);
    case RNullArray => RunMinusOne(chunk, cursor);
    case RVerbatim(format, data) => RunVerbatim(format, data, chunk, cursor);
  }

  /**
   The decoder turns the wire form of any nested reply into the value it stands for, whatever precedes
   and follows it in the buffer, and stops right after it.
   */
  lemma {:induction false} DecodeBody(t: Resp, tm: TypeMapping, chunk: bytes, cursor: nat)
    requires WellFormed(t) && At(chunk, cursor, Payload(t))
    ensures Run(NestedTypeValue(Tag(t), tm), chunk, cursor) == Finished(Image(t, tm), cursor + |Payload(t)|)
    decreases t, 1
  {
    hide StepCont, Run, Decimal, EncodeAll, ReadDigits;
    AtHead(chunk, cursor, Payload(t));
    EntryRuns(Tag(t), tm, chunk, cursor);
    match t
    case RArray(items) => DecodeArrayBody(items, tm, chunk, cursor);
    case RSet(items) => DecodeSetBody(items, tm, chunk, cursor);
    case RMap(children) => DecodeMapBody(children, tm, chunk, cursor);
    case _ => DecodeScalar(t, tm, chunk, cursor);
  }

  lemma {:induction false} DecodeArrayBody(items: seq<Resp>, tm: TypeMapping, chunk: bytes, cursor: nat)
    requires WellFormedAll(items) && At(chunk, cursor, Decimal(|items|) + CRLF + EncodeAll(items))
    ensures Run(ArrayBody(tm), chunk, cursor)
         == Finished(Arr(ImageAll(items, tm)), cursor + |Decimal(|items|) + CRLF + EncodeAll(items)|)
    decreases items, 3
  {
    hide StepCont, Run, Decimal, EncodeAll, ReadDigits;
    RunLength(ArrayLength(tm), |items|, EncodeAll(items), chunk, cursor);
    ArrayHasLength(tm, chunk, cursor);
    DecodeAll(items, tm, chunk, cursor + |Decimal(|items|)| + 2);
  }

  lemma {:induction false} DecodeSetBody(items: seq<Resp>, tm: TypeMapping, chunk: bytes, cursor: nat)
    requires WellFormedAll(items) && At(chunk, cursor, Decimal(|items|) + CRLF + EncodeAll(items))
    ensures Run(Then(SetLength(tm), Digits(0)), chunk, cursor)
         == Finished(Arr(ImageAll(items, tm)), cursor + |Decimal(|items|) + CRLF + EncodeAll(items)|)
    decreases items, 3
  {
    hide StepCont, Run, Decimal, EncodeAll, ReadDigits;
    RunLength(SetLength(tm), |items|, EncodeAll(items), chunk, cursor);
    DecodeAll(items, tm, chunk, cursor + |Decimal(|items|)| + 2);
  }

  lemma {:induction false} DecodeMapBody(children: seq<Resp>, tm: TypeMapping, chunk: bytes, cursor: nat)
    requires WellFormedAll(children) && |children| % 2 == 0
    requires At(chunk, cursor, Decimal(|children| / 2) + CRLF + EncodeAll(children))
    ensures Run(Then(MapLength(tm), Digits(0)), chunk, cursor)
         == Finished(if tm.mapAsArray then Arr(ImageAll(children, tm)) else Obj(Entries(map[], children, tm)),
                     cursor + |Decimal(|children| / 2) + CRLF + EncodeAll(children)|)
    decreases children, 3
  {
    hide StepCont, Run, Decimal, EncodeAll, ReadDigits, Double;
    var half := |children| / 2;
    RunLength(MapLength(tm), half, EncodeAll(children), chunk, cursor);
    var start := cursor + |Decimal(half)| + 2;
    DoubleIsExact(half * 2);
    assert half * 2 == |children|;
    if tm.mapAsArray {
      DecodeAll(children, tm, chunk, start);
    } else {
      DecodePairs(map[], children, tm, chunk, start);
    }
  }

  lemma {:induction false} DecodeItem(done: seq<Value>, items: seq<Resp>, tm: TypeMapping, chunk: bytes, cursor: nat)
    requires items != [] && WellFormed(items[0]) && At(chunk, cursor, Encode(items[0]))
    ensures ItemsFrom(done, |items|, tm, chunk, cursor)
         == ItemsFrom(done + [Image(items[0], tm)], |items| - 1, tm, chunk, cursor + |Encode(items[0])|)
    decreases items, 0
  {
    hide StepCont, Run, Image, WellFormed;
    var first := items[0];
    AtHead(chunk, cursor, Encode(first));
    assert Encode(first)[1..] == Payload(first);
    RunThen(Item(done, |items|, tm), NestedTypeValue(Tag(first), tm), chunk, cursor + 1);
    ItemsStart(done, |items|, tm, chunk, cursor);
    DecodeBody(first, tm, chunk, cursor + 1);
  }

  lemma {:induction false} DecodeItems(done: seq<Value>, items: seq<Resp>, tm: TypeMapping, chunk: bytes, cursor: nat)
    requires WellFormedAll(items) && At(chunk, cursor, EncodeAll(items))
    ensures ItemsFrom(done, |items|, tm, chunk, cursor)
         == Finished(Arr(done + ImageAll(items, tm)), cursor + |EncodeAll(items)|)
    decreases items, 1
  {
    hide StepCont, Run, Image, Encode, WellFormed;
    if items == [] {
      assert done + ImageAll(items, tm) == done;
    } else {
      var rest := items[1..];
      AtSplit(chunk, cursor, Encode(items[0]), EncodeAll(rest));
      assert forall t :: t in rest ==> t in items;
      DecodeItem(done, items, tm, chunk, cursor);
      DecodeItems(done + [Image(items[0], tm)], rest, tm, chunk, cursor + |Encode(items[0])|);
      ImagesAppend(done, items, tm);
    }
  }

  lemma ImagesAppend(done: seq<Value>, items: seq<Resp>, tm: TypeMapping)
    requires items != []
    ensures done + [Image(items[0], tm)] + ImageAll(items[1..], tm) == done + ImageAll(items, tm)
  {
    hide Image;
  }

  /** All the elements of an array, from the first. */
  lemma {:induction false} DecodeAll(items: seq<Resp>, tm: TypeMapping, chunk: bytes, cursor: nat)
    requires WellFormedAll(items) && At(chunk, cursor, EncodeAll(items))
    ensures ItemsFrom([], |items|, tm, chunk, cursor) == Finished(Arr(ImageAll(items, tm)), cursor + |EncodeAll(items)|)
    decreases items, 2
  {
    hide Run;
    DecodeItems([], items, tm, chunk, cursor);
    assert [] + ImageAll(items, tm) == ImageAll(items, tm);
  }

  lemma {:induction false} DecodeKey(key: Resp, tm: TypeMapping, chunk: bytes, cursor: nat)
    requires WellFormed(key) && At(chunk, cursor, Payload(key))
    ensures Run(MapKeyValue(Tag(key), tm), chunk, cursor) == Finished(KeyImage(key, tm), cursor + |Payload(key)|)
    decreases key, 2
  {
    hide StepCont, Run, Decimal;
    AtHead(chunk, cursor, Payload(key));
    KeyEntryRuns(Tag(key), tm, chunk, cursor);
    match key
    case RSimple(text) =>
      RunText([], text, AsString, chunk, cursor);
      assert [] + text == text;
    case RBulk(data) => RunBlob(data, AsString, chunk, cursor);
    case RNullBulk => RunMinusOne(chunk, cursor);
    case _ => DecodeBody(key, tm, chunk, cursor);
  }

  /** The pairs still to come of an object. */
  lemma {:induction false} DecodePairs(before: map<Value, Value>, children: seq<Resp>, tm: TypeMapping, chunk: bytes,
                                       cursor: nat)
    requires WellFormedAll(children) && |children| % 2 == 0 && At(chunk, cursor, EncodeAll(children))
    ensures (if children == [] then Finished(Obj(before), cursor)
             else Run(Pairs(before, |children| / 2, tm), chunk, cursor))
         == Finished(Obj(Entries(before, children, tm)), cursor + |EncodeAll(children)|)
    decreases children, 1
  {
    hide StepCont, Run, Image, KeyImage, Encode, WellFormed;
    if children != [] {
      var key, value, rest := children[0], children[1], children[2..];
      assert children[1..][0] == value && children[1..][1..] == rest;
      assert EncodeAll(children) == Encode(key) + (Encode(value) + EncodeAll(rest));
      AtSplit(chunk, cursor, Encode(key), Encode(value) + EncodeAll(rest));
      var mid := cursor + |Encode(key)|;
      AtSplit(chunk, mid, Encode(value), EncodeAll(rest));
      assert forall t :: t in rest ==> t in children;
      DecodePair(before, |children| / 2, children, tm, chunk, cursor);
      DecodePairs(before[KeyImage(key, tm) := Image(value, tm)], rest, tm, chunk, mid + |Encode(value)|);
    }
  }

  lemma {:induction false} DecodePair(before: map<Value, Value>, remaining: pos, children: seq<Resp>, tm: TypeMapping,
                                      chunk: bytes, cursor: nat)
    requires |children| >= 2 && WellFormedAll(children)
    requires At(chunk, cursor, Encode(children[0])) && At(chunk, cursor + |Encode(children[0])|, Encode(children[1]))
    ensures Run(Pairs(before, remaining, tm), chunk, cursor)
         == Continue(Return(MapValue(before, remaining, KeyImage(children[0], tm), tm), Image(children[1], tm)), chunk,
                     cursor + |Encode(children[0])| + |Encode(children[1])|)
    decreases children, 0
  {
    hide StepCont, Run;
    var key, value := children[0], children[1];
    var mid := cursor + |Encode(key)|;
    AtHead(chunk, cursor, Encode(key));
    AtHead(chunk, mid, Encode(value));
    assert Encode(key)[1..] == Payload(key) && Encode(value)[1..] == Payload(value);
    assert key in children && value in children;
    PairsStart(before, remaining, tm, chunk, cursor);
    PairsStart(before, remaining, tm, chunk, mid);
    RunThen(MapKey(before, remaining, tm), MapKeyValue(Tag(key), tm), chunk, cursor + 1);
    DecodeKey(key, tm, chunk, cursor + 1);
    RunThen(MapValue(before, remaining, KeyImage(key, tm), tm), NestedType(tm), chunk, mid);
    DecodeBody(value, tm, chunk, mid + 1);
  }

  // ---------- whole streams ----------

  datatype Message = ReplyMessage(reply: Resp) | PushMessage(items: seq<Resp>)

  predicate WellFormedMessage(m: Message) {
    match m case ReplyMessage(t) => WellFormed(t) case PushMessage(items) => WellFormedAll(items)
  }

  function EncodeMessage(m: Message): bytes {
    match m
    case ReplyMessage(t) => Encode(t)
    case PushMessage(items) => [PUSH_TAG] + (Decimal(|items|) + CRLF + EncodeAll(items))
  }

  function EventOf(m: Message, tm: TypeMapping): Event {
    match m
    case ReplyMessage(t) =>
      Event(if t.RError? || t.RBulkError? || t.RNullBulkError? then OnErrorReply else OnReply, Image(t, tm))
    case PushMessage(items) => Event(OnPush, Arr(ImageAll(items, tm)))
  }

  function EncodeStream(ms: seq<Message>): bytes {
    if ms == [] then [] else EncodeMessage(ms[0]) + EncodeStream(ms[1..])
  }

  function EventsOf(ms: seq<Message>, tm: TypeMapping): seq<Event> {
    if ms == [] then [] else [EventOf(ms[0], tm)] + EventsOf(ms[1..], tm)
  }

  /** Between replies, the next byte is a type byte. */
  lemma ScanTag(cursor: nat, fired: seq<Event>, chunk: bytes, tm: TypeMapping)
    requires cursor < |chunk|
    ensures Scan(State(Idle, cursor, fired), chunk, tm)
        == Scan(State(AwaitTypeValue(chunk[cursor]), cursor + 1, fired), chunk, tm)
  {
  }

  lemma DecodeReply(t: Resp, tm: TypeMapping, fired: seq<Event>, chunk: bytes, cursor: nat)
    requires WellFormed(t) && At(chunk, cursor, Encode(t))
    ensures Scan(State(Idle, cursor, fired), chunk, tm)
         == Scan(State(Idle, cursor + |Encode(t)|, fired + [EventOf(ReplyMessage(t), tm)]), chunk, tm)
  {
    hide StepCont, Run, Scan, StepTop, Image, WellFormed, Payload;
    AtHead(chunk, cursor, Encode(t));
    ScanTag(cursor, fired, chunk, tm);
    assert Encode(t)[1..] == Payload(t);
    AtHead(chunk, cursor + 1, Payload(t));
    EntryRuns(Tag(t), tm, chunk, cursor + 1);
    DecodeBody(t, tm, chunk, cursor + 1);
    ScanTypeValue(Tag(t), cursor + 1, fired, chunk, tm);
  }

  lemma DecodePush(items: seq<Resp>, tm: TypeMapping, fired: seq<Event>, chunk: bytes, cursor: nat)
    requires WellFormedAll(items) && At(chunk, cursor, EncodeMessage(PushMessage(items)))
    ensures Scan(State(Idle, cursor, fired), chunk, tm)
         == Scan(State(Idle, cursor + |EncodeMessage(PushMessage(items))|, fired + [EventOf(PushMessage(items), tm)]),
                 chunk, tm)
  {
    hide StepCont, Run, Scan, StepTop, ImageAll, WellFormedAll, EncodeAll, Decimal;
    var wire := EncodeMessage(PushMessage(items));
    AtHead(chunk, cursor, wire);
    ScanTag(cursor, fired, chunk, tm);
    var body := Decimal(|items|) + CRLF + EncodeAll(items);
    assert wire[1..] == body;
    AtHead(chunk, cursor + 1, body);
    DecodeArrayBody(items, tm, chunk, cursor + 1);
    ScanTypeValue(PUSH_TAG, cursor + 1, fired, chunk, tm);
  }

  lemma DecodeMessage(m: Message, tm: TypeMapping, fired: seq<Event>, chunk: bytes, cursor: nat)
    requires WellFormedMessage(m) && At(chunk, cursor, EncodeMessage(m))
    ensures Scan(State(Idle, cursor, fired), chunk, tm)
         == Scan(State(Idle, cursor + |EncodeMessage(m)|, fired + [EventOf(m, tm)]), chunk, tm)
  {
    hide Scan, EventOf, Encode, WellFormed, WellFormedAll, EncodeAll, Decimal;
    match m
    case ReplyMessage(t) => DecodeReply(t, tm, fired, chunk, cursor);
    case PushMessage(items) => DecodePush(items, tm, fired, chunk, cursor);
  }

  lemma {:induction false} DecodeStream(ms: seq<Message>, tm: TypeMapping, fired: seq<Event>, chunk: bytes, cursor: nat)
    requires forall m :: m in ms ==> WellFormedMessage(m)
    requires At(chunk, cursor, EncodeStream(ms)) && cursor + |EncodeStream(ms)| == |chunk|
    ensures Scan(State(Idle, cursor, fired), chunk, tm) == State(Idle, |chunk|, fired + EventsOf(ms, tm))
    decreases |ms|
  {
    hide StepTop, EncodeMessage, EventOf;
    if ms == [] {
      assert fired + EventsOf(ms, tm) == fired;
    } else {
      AtSplit(chunk, cursor, EncodeMessage(ms[0]), EncodeStream(ms[1..]));
      DecodeMessage(ms[0], tm, fired, chunk, cursor);
      var after := fired + [EventOf(ms[0], tm)];
      DecodeStream(ms[1..], tm, after, chunk, cursor + |EncodeMessage(ms[0])|);
      assert after + EventsOf(ms[1..], tm) == fired + EventsOf(ms, tm);
    }
  }

  /**
   For every list of messages and every way of cutting their wire form into chunks, the decoder fires
   exactly one callback per message, in order, each with the value the message stands for, and ends
   between replies with nothing left to skip.
   */
  lemma StreamRoundTrip(ms: seq<Message>, chunks: seq<bytes>, tm: TypeMapping)
    requires forall m :: m in ms ==> WellFormedMessage(m)
    requires Concat(chunks) == EncodeStream(ms)
    ensures FeedAll(Initial, chunks, tm) == State(Idle, 0, EventsOf(ms, tm))
  {
    ChunkingIsIrrelevant(Initial, chunks, tm);
    var all := EncodeStream(ms);
    assert all[0..0 + |all|] == all;
    DecodeStream(ms, tm, [], all, 0);
    assert [] + EventsOf(ms, tm) == EventsOf(ms, tm);
  }
}
