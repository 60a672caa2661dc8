/**
 The streaming RESP decoder as the client runs it: a cursor and a stored continuation that nearly
 every method updates, and loops that scan a whole chunk at a time. Each method is proved to do what
 the byte-at-a-time machine does with the continuation the method would be bound as.
 */
module RespDecoder {
  import opened Bytes
  import opened JsNumber
  import opened RespMachine

  /** What a decoding method hands back: a value, a function to call with the next chunk, or an exception. */
  datatype Reply = Value(value: RespMachine.Value) | Function(cont: Cont) | Exception

  datatype PairReply = Added(entries: map<RespMachine.Value, RespMachine.Value>) | Stopped(reply: Reply)

  datatype Count = Count(number: int) | Counting(cont: Cont)

  ghost function Outcome(r: Reply, cursor: nat): Out {
    match r
    case Value(v) => Finished(v, cursor)
    case Function(k) => Suspended(k, cursor)
    case Exception => Threw
  }

  class Decoder {
    const typeMapping: TypeMapping
    var cursor: nat
    var next: Next
    var fired: seq<Event>
    var dead: bool

    constructor (typeMapping: TypeMapping)
      ensures this.typeMapping == typeMapping && View() == Initial
    {
      this.typeMapping := typeMapping;
      cursor, next, fired, dead := 0, Idle, [], false;
    }

    ghost function View(): State
      reads this
    {
      if dead then Dead(fired) else State(next, cursor, fired)
    }

    ghost function Left(chunk: bytes): nat
      reads this
    {
      if cursor < |chunk| then |chunk| - cursor else 0
    }

    method Reset()
      modifies this
      ensures next == Idle && cursor == 0 && fired == old(fired) && dead == old(dead)
    {
      cursor := 0;
      next := Idle;
    }

    /** Reads one chunk. A decoder that has thrown is disconnected by its owner and reads no more. */
    method Write(chunk: bytes) returns (ok: bool)
      requires !dead
      modifies this
      ensures View() == Feed(old(View()), chunk, typeMapping)
      ensures ok == !dead
    {
      if cursor >= |chunk| {
        cursor := cursor - |chunk|;
        return true;
      }
      ghost var target := Scan(View(), chunk, typeMapping);
      if next != Idle {
        var status := CallNext(chunk);
        if dead {
          return false;
        }
        if status || cursor >= |chunk| {
          cursor := cursor - |chunk|;
          return true;
        }
      }
      while cursor < |chunk|
        invariant !dead && next == Idle
        invariant target == Scan(View(), chunk, typeMapping)
        decreases |chunk| - cursor
      {
        var tag := chunk[cursor];
        cursor := cursor + 1;
        if cursor == |chunk| {
          next := AwaitTypeValue(tag);
          break;
        }
        var suspended := DecodeTypeValue(tag, chunk);
        if dead {
          return false;
        }
        if suspended {
          break;
        }
      }
      cursor := cursor - |chunk|;
      return true;
    }

    /** Calls the stored continuation; true when it stored another one. */
    method CallNext(chunk: bytes) returns (suspended: bool)
      requires !dead && next != Idle && cursor < |chunk|
      modifies this
      ensures Scan(View(), chunk, typeMapping) == Scan(old(View()), chunk, typeMapping)
      ensures !dead ==> suspended == (next != Idle) && cursor > old(cursor) && (suspended ==> cursor >= |chunk|)
    {
      match next {
        case AwaitTypeValue(tag) =>
          next := Idle;
          suspended := DecodeTypeValue(tag, chunk);
        case AwaitValue(callback, k) =>
          ScanValue(callback, k, cursor, fired, chunk, typeMapping);
          RunProgress(k, chunk, cursor);
          next := Idle;
          var r := Resume(k, chunk);
          suspended := HandleDecodedValue(callback, r);
      }
    }

    /** Decodes the body of a top-level value whose type byte has been read. */
    method DecodeTypeValue(tag: byte, chunk: bytes) returns (suspended: bool)
      requires !dead && next == Idle && cursor < |chunk|
      modifies this
      ensures Scan(View(), chunk, typeMapping)
          == Scan(State(AwaitTypeValue(tag), old(cursor), old(fired)), chunk, typeMapping)
      ensures !dead ==> suspended == (next != Idle) && cursor > old(cursor) && (suspended ==> cursor >= |chunk|)
    {
      ScanTypeValue(tag, cursor, fired, chunk, typeMapping);
      var r;
      if tag == PUSH_TAG {
        RunProgress(ArrayBody(typeMapping), chunk, cursor);
        r := DecodeArray(typeMapping, chunk);
      } else {
        RunProgress(NestedTypeValue(tag, typeMapping), chunk, cursor);
        r := DecodeNestedTypeValue(tag, typeMapping, chunk);
      }
      suspended := HandleDecodedValue(CallbackFor(tag), r);
    }

    /** Stores a function for the next chunk, or fires the callback with the value. */
    method HandleDecodedValue(callback: Callback, r: Reply) returns (suspended: bool)
      requires !dead && next == Idle
      modifies `next, `fired, `dead
      ensures View() == Deliver(callback, Outcome(r, cursor), old(fired))
      ensures suspended == r.Function?
    {
      match r {
        case Function(k) =>
          next := AwaitValue(callback, k);
          suspended := true;
        case Value(v) =>
          fired := fired + [Event(callback, v)];
          suspended := false;
        case Exception =>
          dead := true;
          suspended := false;
      }
    }

    method DecodeUnsignedNumber(start: int, chunk: bytes) returns (r: Count)
      requires cursor < |chunk|
      modifies `cursor
      ensures match r
              case Count(n) => Run(Digits(start), chunk, old(cursor)) == Finished(Num(n), cursor)
              case Counting(k) => Run(Digits(start), chunk, old(cursor)) == Suspended(k, cursor) && cursor == |chunk|
      ensures cursor > old(cursor)
    {
      var number, i := start, cursor;
      while i < |chunk|
        invariant cursor <= i <= |chunk| && cursor == old(cursor)
        invariant Run(Digits(start), chunk, old(cursor)) == Run(Digits(number), chunk, i)
      {
        if chunk[i] == CR {
          cursor := i + 2;
          return Count(number);
        }
        number := AddDigit(number, chunk[i]);
        i := i + 1;
      }
      cursor := i;
      return Counting(Digits(number));
    }

    /** The index of the next CR, with the cursor moved past its LF; -1 when the chunk holds none. */
    method FindCRLF(chunk: bytes, start: nat) returns (index: int)
      requires start == cursor < |chunk|
      modifies `cursor
      ensures index == -1 ==> cursor == |chunk| && CR !in chunk[start..]
      ensures index != -1 ==>
          start <= index < |chunk| && chunk[index] == CR && CR !in chunk[start..index] && cursor == index + 2
    {
      var i := start;
      while chunk[i] != CR
        invariant start <= i < |chunk|
        invariant CR !in chunk[start..i]
        invariant cursor == old(cursor)
        decreases |chunk| - i
      {
        i := i + 1;
        if i == |chunk| {
          cursor := |chunk|;
          return -1;
        }
      }
      cursor := i + 2;
      return i;
    }

    /** `read` holds what earlier chunks contributed; a line that starts in this chunk has none. */
    method DecodeLine(read: bytes, target: Target, chunk: bytes) returns (r: Reply)
      requires cursor < |chunk|
      modifies `cursor
      ensures Outcome(r, cursor) == Run(Line(read, target), chunk, old(cursor))
      ensures cursor > old(cursor)
    {
      var start := cursor;
      var index := FindCRLF(chunk, start);
      if index == -1 {
        RunLine(read, target, chunk, start, |chunk|);
        assert chunk[start..] == chunk[start..|chunk|];
        return Function(Line(read + chunk[start..], target));
      }
      RunLine(read, target, chunk, start, index);
      return Value(TextValue(read + chunk[start..index], target));
    }

    method DecodeBlobString(target: Target, chunk: bytes) returns (r: Reply)
      requires cursor < |chunk|
      modifies `cursor
      ensures Outcome(r, cursor) == Run(Blob(target), chunk, old(cursor))
      ensures cursor > old(cursor)
      decreases Left(chunk), 4
    {
      if chunk[cursor] == MINUS {
        cursor := cursor + 4; // skip -1\r\n
        return Value(Null);
      }
      r := DecodeWithLength(BlobLength(target), chunk);
    }

    /** Reads the length that precedes a string, array, set or map, and then what it counts. */
    method DecodeWithLength(frame: Frame, chunk: bytes) returns (r: Reply)
      requires cursor < |chunk|
      modifies `cursor
      ensures Outcome(r, cursor) == Run(Then(frame, Digits(0)), chunk, old(cursor))
      ensures cursor > old(cursor)
      decreases Left(chunk), 3
    {
      RunThen(frame, Digits(0), chunk, cursor);
      var length := DecodeUnsignedNumber(0, chunk);
      match length {
        case Counting(k) => r := Function(Then(frame, k));
        case Count(n) => r := ReturnTo(frame, Num(n), chunk);
      }
    }

    method BlobWithLength(length: int, target: Target, chunk: bytes) returns (r: Reply)
      modifies `cursor
      ensures Outcome(r, cursor) == Continue(Return(BlobLength(target), Num(length)), chunk, old(cursor))
      ensures cursor >= old(cursor)
    {
      if length < 0 {
        return Exception; // a length that is not made of digits
      }
      if cursor >= |chunk| {
        return Function(BlobBody(length, target));
      }
      RunBlobBody(length, target, chunk, cursor);
      r := DecodeStringWithLength(length, [], target, chunk);
    }

    method DecodeStringWithLength(length: nat, read: bytes, target: Target, chunk: bytes) returns (r: Reply)
      requires cursor < |chunk|
      modifies `cursor
      ensures Outcome(r, cursor) == Run(BlobRest(length, read, target), chunk, old(cursor))
      ensures cursor > old(cursor)
    {
      var end := cursor + length;
      if end >= |chunk| {
        RunBlobRest(length, read, target, chunk, cursor, |chunk|);
        assert chunk[cursor..] == chunk[cursor..|chunk|];
        r := Function(BlobRest(length - (|chunk| - cursor), read + chunk[cursor..], target));
        cursor := |chunk|;
        return;
      }
      RunBlobRest(length, read, target, chunk, cursor, end);
      r := Value(TextValue(read + chunk[cursor..end], target));
      cursor := end + 2;
    }

    method DecodeNestedType(tm: TypeMapping, chunk: bytes) returns (r: Reply)
      requires cursor < |chunk|
      modifies `cursor
      ensures Outcome(r, cursor) == Run(NestedType(tm), chunk, old(cursor))
      ensures cursor > old(cursor)
      decreases Left(chunk), 0
    {
      var tag := chunk[cursor];
      cursor := cursor + 1;
      if cursor == |chunk| {
        return Function(NestedTypeValue(tag, tm));
      }
      r := DecodeNestedTypeValue(tag, tm, chunk);
    }

    method DecodeNestedTypeValue(tag: byte, tm: TypeMapping, chunk: bytes) returns (r: Reply)
      requires cursor < |chunk|
      modifies `cursor
      ensures Outcome(r, cursor) == Run(NestedTypeValue(tag, tm), chunk, old(cursor))
      ensures if r.Exception? then cursor >= old(cursor) else cursor > old(cursor)
      decreases Left(chunk), 6
    {
      if tag == NULL_TAG {
        r := DecodeFixed(NullBody, chunk);
      } else if tag == BOOLEAN_TAG {
        r := DecodeFixed(BooleanBody(tm.booleanAsNumber), chunk);
      } else if tag == NUMBER_TAG {
        r := DecodeNumber(tm.numberAsString, chunk);
      } else if tag == BIG_NUMBER_TAG {
        r := DecodeLine([], AsString, chunk);
      } else if tag == DOUBLE_TAG {
        r := DecodeDouble(tm.double, chunk);
      } else if tag == SIMPLE_STRING_TAG {
        r := DecodeLine([], AsBuffer, chunk);
      } else if tag == BLOB_STRING_TAG {
        r := DecodeBlobString(AsBuffer, chunk);
      } else if tag == VERBATIM_STRING_TAG {
        r := DecodeWithLength(VerbatimLength, chunk);
      } else if tag == SIMPLE_ERROR_TAG || tag == BLOB_ERROR_TAG {
        r := DecodeError(tag == BLOB_ERROR_TAG, chunk);
      } else if tag == ARRAY_TAG {
        r := DecodeArray(tm, chunk);
      } else if tag == SET_TAG {
        r := DecodeWithLength(SetLength(tm), chunk);
      } else if tag == MAP_TAG {
        r := DecodeWithLength(MapLength(tm), chunk);
      } else {
        r := Exception; // Unknown RESP type
      }
    }

    /** Null and booleans: the bytes after the first are skipped unread. */
    method DecodeFixed(k: Cont, chunk: bytes) returns (r: Reply)
      requires cursor < |chunk| && (k.NullBody? || k.BooleanBody?)
      modifies `cursor
      ensures Outcome(r, cursor) == Run(k, chunk, old(cursor))
      ensures cursor > old(cursor)
    {
      if k.NullBody? {
        cursor := cursor + 2; // skip \r\n
        return Value(Null);
      }
      var t := chunk[cursor] == LETTER_T;
      cursor := cursor + 3; // skip {t | f}\r\n
      return Value(if k.asNumber then Num(if t then 1 else 0) else Bool(t));
    }

    method DecodeNumber(asString: bool, chunk: bytes) returns (r: Reply)
      requires cursor < |chunk|
      modifies `cursor
      ensures Outcome(r, cursor) == Run(if asString then Line([], AsString) else NumberBody, chunk, old(cursor))
      ensures cursor > old(cursor)
    {
      if asString {
        r := DecodeLine([], AsString, chunk);
        return;
      }
      var negative := chunk[cursor] == MINUS;
      RunThen(Signed(false), Digits(0), chunk, cursor);
      RunThen(Signed(negative), Digits(0), chunk, cursor + 1);
      if chunk[cursor] == PLUS || chunk[cursor] == MINUS {
        cursor := cursor + 1;
        if cursor == |chunk| {
          return Function(Then(Signed(negative), Digits(0)));
        }
      }
      r := DecodeNumberValue(negative, 0, chunk);
    }

    method DecodeNumberValue(negative: bool, number: int, chunk: bytes) returns (r: Reply)
      requires cursor < |chunk|
      modifies `cursor
      ensures Outcome(r, cursor) == Bind(Signed(negative), Run(Digits(number), chunk, old(cursor)), chunk)
      ensures cursor > old(cursor)
    {
      var count := DecodeUnsignedNumber(number, chunk);
      match count {
        case Counting(k) => r := Function(Then(Signed(negative), k));
        case Count(n) => r := Value(Num(if negative then -n else n));
      }
    }

    method DecodeDouble(target: DoubleTarget, chunk: bytes) returns (r: Reply)
      requires cursor < |chunk|
      modifies `cursor
      ensures Outcome(r, cursor) == Run(DoubleEntry(target), chunk, old(cursor))
      ensures cursor > old(cursor)
    {
      if target != DoubleNumber {
        r := DecodeLine([], if target == DoubleString then AsString else AsBuffer, chunk);
        return;
      }
      RunThen(ParseDouble, Line([], AsString), chunk, cursor);
      var text := DecodeLine([], AsString, chunk);
      r := Wrap(ParseDouble, text);
    }

    /** Turns a decoded text into a number or an error, now or when its text is complete. */
    method Wrap(frame: Frame, r: Reply) returns (wrapped: Reply)
      requires frame.ParseDouble? || frame.MakeError?
      ensures Outcome(wrapped, cursor) == Bind(frame, Outcome(r, cursor), [])
    {
      match r {
        case Function(k) => wrapped := Function(Then(frame, k));
        case Value(v) => wrapped := Value(if frame.ParseDouble? then Real(v) else Err(frame.blob, v));
        case Exception => wrapped := Exception;
      }
    }

    method DecodeError(blob: bool, chunk: bytes) returns (r: Reply)
      requires cursor < |chunk|
      modifies `cursor
      ensures Outcome(r, cursor)
          == Run(Then(MakeError(blob), if blob then Blob(AsString) else Line([], AsString)), chunk, old(cursor))
      ensures cursor > old(cursor)
      decreases Left(chunk), 5
    {
      RunThen(MakeError(blob), if blob then Blob(AsString) else Line([], AsString), chunk, cursor);
      var message;
      if blob {
        message := DecodeBlobString(AsString, chunk);
      } else {
        message := DecodeLine([], AsString, chunk);
      }
      r := Wrap(MakeError(blob), message);
    }

    method VerbatimWithLength(length: int, chunk: bytes) returns (r: Reply)
      modifies `cursor
      ensures Outcome(r, cursor) == Continue(Return(VerbatimLength, Num(length)), chunk, old(cursor))
      ensures cursor >= old(cursor)
    {
      if length < 4 {
        return Exception; // shorter than <format>:
      }
      cursor := cursor + 4; // skip <format>:
      if cursor >= |chunk| {
        return Function(BlobBody(length - 4, AsBuffer));
      }
      RunBlobBody(length - 4, AsBuffer, chunk, cursor);
      r := DecodeStringWithLength(length - 4, [], AsBuffer, chunk);
    }

    method DecodeArray(tm: TypeMapping, chunk: bytes) returns (r: Reply)
      requires cursor < |chunk|
      modifies `cursor
      ensures Outcome(r, cursor) == Run(ArrayBody(tm), chunk, old(cursor))
      ensures cursor > old(cursor)
      decreases Left(chunk), 4
    {
      if chunk[cursor] == MINUS {
        cursor := cursor + 4; // skip -1\r\n
        return Value(Null);
      }
      r := DecodeWithLength(ArrayLength(tm), chunk);
    }

    method ArrayWithLength(length: int, tm: TypeMapping, chunk: bytes) returns (r: Reply)
      modifies `cursor
      ensures Outcome(r, cursor) == Continue(StartItems(length, tm), chunk, old(cursor))
      ensures cursor >= old(cursor)
      decreases Left(chunk), 2
    {
      if length < 0 || length > MAX_ARRAY_LENGTH {
        return Exception; // Invalid array length
      }
      r := DecodeArrayItems([], length, tm, chunk);
    }

    method DecodeArrayItems(filled: seq<RespMachine.Value>, left: nat, tm: TypeMapping, chunk: bytes) returns (r: Reply)
      modifies `cursor
      ensures Outcome(r, cursor) == ItemsFrom(filled, left, tm, chunk, old(cursor))
      ensures cursor >= old(cursor)
      ensures left > 0 && old(cursor) < |chunk| ==> cursor > old(cursor)
      decreases Left(chunk), 1
    {
      var items := filled;
      for i := 0 to left
        invariant cursor >= old(cursor) && (i > 0 ==> cursor > old(cursor))
        invariant ItemsFrom(filled, left, tm, chunk, old(cursor)) == ItemsFrom(items, left - i, tm, chunk, cursor)
      {
        if cursor >= |chunk| {
          return Function(Items(items, left - i, tm));
        }
        RunThen(Item(items, left - i, tm), NestedType(tm), chunk, cursor);
        var item := DecodeNestedType(tm, chunk);
        match item {
          case Function(k) => return Function(Then(Item(items, left - i, tm), k));
          case Exception => return Exception;
          case Value(v) => items := items + [v];
        }
      }
      return Value(Arr(items));
    }

    method MapItems(length: int, tm: TypeMapping, chunk: bytes) returns (r: Reply)
      modifies `cursor
      ensures Outcome(r, cursor) == Continue(StartPairs(length, tm), chunk, old(cursor))
      ensures cursor >= old(cursor)
      decreases Left(chunk), 3
    {
      if tm.mapAsArray {
        r := ArrayWithLength(Double(length * 2), tm, chunk);
      } else if length <= 0 {
        r := Value(Obj(map[]));
      } else {
        r := DecodeMapAsObject(map[], length, tm, chunk);
      }
    }

    ghost function PairsFrom(entries: map<RespMachine.Value, RespMachine.Value>, remaining: nat, tm: TypeMapping,
                             chunk: bytes, at: nat): Out {
      if remaining == 0 then Finished(Obj(entries), at) else Run(Pairs(entries, remaining, tm), chunk, at)
    }

    method DecodeMapAsObject(entries: map<RespMachine.Value, RespMachine.Value>, count: nat, tm: TypeMapping,
                             chunk: bytes)
      returns (r: Reply)
      modifies `cursor
      ensures Outcome(r, cursor) == PairsFrom(entries, count, tm, chunk, old(cursor))
      ensures cursor >= old(cursor)
      ensures count > 0 && old(cursor) < |chunk| ==> cursor > old(cursor)
      decreases Left(chunk), 2
    {
      var obj, remaining := entries, count;
      while remaining > 0
        invariant 0 <= remaining <= count && cursor >= old(cursor)
        invariant remaining < count ==> cursor > old(cursor)
        invariant PairsFrom(entries, count, tm, chunk, old(cursor)) == PairsFrom(obj, remaining, tm, chunk, cursor)
      {
        if cursor >= |chunk| {
          return Function(Pairs(obj, remaining, tm));
        }
        RunThen(MapKey(obj, remaining, tm), MapKeyValue(chunk[cursor], tm), chunk, cursor + 1);
        var key := DecodeMapKey(tm, chunk);
        match key {
          case Function(k) => return Function(Then(MapKey(obj, remaining, tm), k));
          case Exception => return Exception;
          case Value(name) =>
            var pair := DecodeMapValue(obj, remaining, name, tm, chunk);
            match pair {
              case Stopped(early) => return early;
              case Added(extended) => obj, remaining := extended, remaining - 1;
            }
        }
      }
      return Value(Obj(obj));
    }

    /** Decodes the value of a key that has been read, and adds the pair to the object. */
    method DecodeMapValue(entries: map<RespMachine.Value, RespMachine.Value>, remaining: pos, key: RespMachine.Value,
                          tm: TypeMapping, chunk: bytes)
      returns (r: PairReply)
      modifies `cursor
      ensures Continue(Return(MapKey(entries, remaining, tm), key), chunk, old(cursor))
           == match r
              case Added(extended) => PairsFrom(extended, remaining - 1, tm, chunk, cursor)
              case Stopped(early) => Outcome(early, cursor)
      ensures cursor >= old(cursor)
      decreases Left(chunk), 1
    {
      RunThen(MapValue(entries, remaining, key, tm), NestedType(tm), chunk, cursor);
      if cursor >= |chunk| {
        return Stopped(Function(Then(MapValue(entries, remaining, key, tm), NestedType(tm))));
      }
      var value := DecodeNestedType(tm, chunk);
      match value {
        case Function(k) => r := Stopped(Function(Then(MapValue(entries, remaining, key, tm), k)));
        case Exception => r := Stopped(Exception);
        case Value(v) => r := Added(entries[key := v]);
      }
    }

    method DecodeMapKey(tm: TypeMapping, chunk: bytes) returns (r: Reply)
      requires cursor < |chunk|
      modifies `cursor
      ensures Outcome(r, cursor) == Run(MapKeyValue(chunk[old(cursor)], tm), chunk, old(cursor) + 1)
      ensures cursor > old(cursor)
      decreases Left(chunk), 0
    {
      var tag := chunk[cursor];
      cursor := cursor + 1;
      if cursor == |chunk| {
        return Function(MapKeyValue(tag, tm));
      }
      r := DecodeMapKeyValue(tag, tm, chunk);
    }

    method DecodeMapKeyValue(tag: byte, tm: TypeMapping, chunk: bytes) returns (r: Reply)
      requires cursor < |chunk|
      modifies `cursor
      ensures Outcome(r, cursor) == Run(MapKeyValue(tag, tm), chunk, old(cursor))
      ensures if r.Exception? then cursor >= old(cursor) else cursor > old(cursor)
      decreases Left(chunk), 7
    {
      if tag == SIMPLE_STRING_TAG {
        r := DecodeLine([], AsString, chunk);
      } else if tag == BLOB_STRING_TAG {
        r := DecodeBlobString(AsString, chunk);
      } else {
        r := DecodeNestedTypeValue(tag, tm, chunk);
      }
    }

    /** Calls a bound function with a chunk. */
    method Resume(k: Cont, chunk: bytes) returns (r: Reply)
      requires cursor < |chunk|
      modifies `cursor
      ensures Outcome(r, cursor) == Run(k, chunk, old(cursor))
      ensures if r.Exception? then cursor >= old(cursor) else cursor > old(cursor)
      decreases Left(chunk), 10 + k.Height()
    {
      match k {
        case Digits(number) =>
          var count := DecodeUnsignedNumber(number, chunk);
          match count {
            case Counting(more) => r := Function(more);
            case Count(n) => r := Value(Num(n));
          }
        case Line(read, target) => r := DecodeLine(read, target, chunk);
        case BlobBody(length, target) =>
          RunBlobBody(length, target, chunk, cursor);
          r := DecodeStringWithLength(length, [], target, chunk);
        case BlobRest(length, read, target) => r := DecodeStringWithLength(length, read, target, chunk);
        case Items(done, left, tm) => r := DecodeArrayItems(done, left, tm, chunk);
        case Pairs(entries, remaining, tm) => r := DecodeMapAsObject(entries, remaining, tm, chunk);
        case NestedType(tm) => r := DecodeNestedType(tm, chunk);
        case NestedTypeValue(tag, tm) => r := DecodeNestedTypeValue(tag, tm, chunk);
        case MapKeyValue(tag, tm) => r := DecodeMapKeyValue(tag, tm, chunk);
        case Then(frame, inner) =>
          RunThen(frame, inner, chunk, cursor);
          var value := Resume(inner, chunk);
          match value {
            case Function(more) => r := Function(Then(frame, more));
            case Exception => r := Exception;
            case Value(v) => r := ReturnTo(frame, v, chunk);
          }
        case NullBody | BooleanBody(_) => r := DecodeFixed(k, chunk);
        case NumberBody => r := DecodeNumber(false, chunk);
        case Blob(target) => r := DecodeBlobString(target, chunk);
        case ArrayBody(tm) => r := DecodeArray(tm, chunk);
      }
    }

    /** Hands a completed inner value to the frame that waits for it. */
    method ReturnTo(frame: Frame, v: RespMachine.Value, chunk: bytes) returns (r: Reply)
      modifies `cursor
      ensures Outcome(r, cursor) == Continue(Return(frame, v), chunk, old(cursor))
      ensures cursor >= old(cursor)
      decreases Left(chunk), 9
    {
      match frame {
        case Signed(negative) => r := Value(Num(if negative then -NumberOf(v) else NumberOf(v)));
        case ParseDouble => r := Value(Real(v));
        case MakeError(blob) => r := Value(Err(blob, v));
        case BlobLength(target) => r := BlobWithLength(NumberOf(v), target, chunk);
        case VerbatimLength => r := VerbatimWithLength(NumberOf(v), chunk);
        case ArrayLength(tm) => r := ArrayWithLength(NumberOf(v), tm, chunk);
        case SetLength(tm) => r := ArrayWithLength(NumberOf(v), tm, chunk);
        case MapLength(tm) => r := MapItems(NumberOf(v), tm, chunk);
        case Item(done, left, tm) => r := DecodeArrayItems(done + [v], left - 1, tm, chunk);
        case MapKey(entries, remaining, tm) =>
          var pair := DecodeMapValue(entries, remaining, v, tm, chunk);
          match pair {
            case Stopped(early) => r := early;
            case Added(extended) => r := DecodeMapAsObject(extended, remaining - 1, tm, chunk);
          }
        case MapValue(entries, remaining, key, tm) =>
          r := DecodeMapAsObject(entries[key := v], remaining - 1, tm, chunk);
      }
    }
  }

  /** A string body that starts in this chunk has read nothing before it. */
  lemma RunBlobBody(length: nat, target: Target, chunk: bytes, cursor: nat)
    requires cursor < |chunk|
    ensures Run(BlobBody(length, target), chunk, cursor) == Run(BlobRest(length, [], target), chunk, cursor)
  {
    assert [] + [chunk[cursor]] == [chunk[cursor]];
  }

  lemma {:induction false} RunLine(read: bytes, target: Target, chunk: bytes, start: nat, end: nat)
    requires start <= end <= |chunk| && CR !in chunk[start..end]
    ensures Run(Line(read, target), chunk, start) == Run(Line(read + chunk[start..end], target), chunk, end)
    decreases end - start
  {
    if start == end {
      assert read + chunk[start..end] == read;
    } else {
      assert chunk[start..end][0] == chunk[start];
      assert chunk[start..end] == [chunk[start]] + chunk[start + 1..end];
      RunLine(read + [chunk[start]], target, chunk, start + 1, end);
      assert read + [chunk[start]] + chunk[start + 1..end] == read + chunk[start..end];
    }
  }

  lemma {:induction false} RunBlobRest(length: nat, read: bytes, target: Target, chunk: bytes, start: nat, end: nat)
    requires start <= end <= |chunk| && end - start <= length
    ensures Run(BlobRest(length, read, target), chunk, start)
         == Run(BlobRest(length - (end - start), read + chunk[start..end], target), chunk, end)
    decreases end - start
  {
    if start == end {
      assert read + chunk[start..end] == read;
    } else {
      assert chunk[start..end] == [chunk[start]] + chunk[start + 1..end];
      RunBlobRest(length - 1, read + [chunk[start]], target, chunk, start + 1, end);
      assert read + [chunk[start]] + chunk[start + 1..end] == read + chunk[start..end];
    }
  }
}
