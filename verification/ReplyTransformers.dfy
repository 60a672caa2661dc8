/**
 The reply transformers that hide the protocol from the user: under the legacy mapping a reply has the
 same shape whether it came over RESP2 or RESP3.
 */
module ReplyTransformers {
  import opened Bytes
  import opened RespMachine
  import opened Wrappers
  import opened RespWire

  datatype Protocol = Protocol2 | Protocol3

  function Opened(v: Value): seq<Value> {
    if v.Arr? then v.items else [v]
  }

  /** The array items of a list opened up by one level. */
  function FlattenItems(items: seq<Value>): seq<Value> {
    if items == [] then []
    else Opened(items[0]) + FlattenItems(items[1..])
  }

  lemma {:induction false} FlattenItemsSnoc(items: seq<Value>, v: Value)
    ensures FlattenItems(items + [v]) == FlattenItems(items) + Opened(v)
  {
    if items == [] {
      assert items + [v] == [v];
    } else {
      assert (items + [v])[1..] == items[1..] + [v];
      FlattenItemsSnoc(items[1..], v);
    }
  }

  method FlattenNestedArrayItems(result: Value) returns (r: Value)
    ensures r == if result.Arr? then Arr(FlattenItems(result.items)) else result
  {
    if !result.Arr? {
      return result;
    }
    var items := result.items;
    var flat: Option<seq<Value>> := None;
    for i := 0 to |items|
      invariant FlattenItems(items[..i]) == if flat.Some? then flat.value else items[..i]
    {
      var item := items[i];
      assert items[..i + 1] == items[..i] + [item];
      FlattenItemsSnoc(items[..i], item);
      if item.Arr? {
        if flat.None? {
          flat := Some(items[..i]);
        }
        flat := Some(flat.value + item.items);
      } else if flat.Some? {
        flat := Some(flat.value + [item]);
      }
    }
    assert items[..|items|] == items;
    return if flat.Some? then Arr(flat.value) else result;
  }

  /** Neighbours taken two by two. */
  function WrapItems(items: seq<Value>): seq<Value> {
    if |items| < 2 then (if items == [] then [] else [Arr([items[0], Null])])
    else [Arr([items[0], items[1]])] + WrapItems(items[2..])
  }

  lemma {:induction false} WrapItemsAppend(items: seq<Value>, rest: seq<Value>)
    requires |items| % 2 == 0
    ensures WrapItems(items + rest) == WrapItems(items) + WrapItems(rest)
    decreases |items|
  {
    if items == [] {
      assert items + rest == rest;
    } else {
      assert (items + rest)[2..] == items[2..] + rest;
      WrapItemsAppend(items[2..], rest);
    }
  }

  /** A missing last value is undefined in JavaScript; it stands as Null here. */
  method WrapStreamMapPairs(result: Value) returns (r: Value)
    ensures r == if result.Arr? then Arr(WrapItems(result.items)) else result
  {
    if !result.Arr? {
      return result;
    }
    var items := result.items;
    var wrapped: seq<Value>, i := [], 0;
    while i < |items|
      invariant 0 <= i <= |items| && (i % 2 == 0 || i == |items|)
      invariant i % 2 == 0 ==> wrapped == WrapItems(items[..i])
      invariant i % 2 == 1 ==> wrapped == WrapItems(items)
      decreases |items| - i
    {
      if i + 1 < |items| {
        assert items[..i + 2] == items[..i] + [items[i], items[i + 1]];
        WrapItemsAppend(items[..i], [items[i], items[i + 1]]);
        assert WrapItems([items[i], items[i + 1]]) == [Arr([items[i], items[i + 1]])] + WrapItems([]);
        wrapped := wrapped + [Arr([items[i], items[i + 1]])];
        i := i + 2;
      } else {
        assert items == items[..i] + [items[i]];
        WrapItemsAppend(items[..i], [items[i]]);
        wrapped := wrapped + [Arr([items[i], Null])];
        i := i + 1;
      }
    }
    assert items[..|items|] == items;
    return Arr(wrapped);
  }

  datatype Transformer = PairReply | StreamReply

  /** The table of transformers by protocol and mapping. */
  function Transform(kind: Transformer, protocol: Protocol, mapping: ReplyMapping, v: Value): Value {
    if protocol == Protocol3 && mapping == Legacy && v.Arr? then
      match kind
      case PairReply => Arr(FlattenItems(v.items))
      case StreamReply => Arr(WrapItems(v.items))
    else v
  }

  /** Buffers become strings at every depth; done before the transformer for commands with a reply encoding. */
  function Strings(v: Value): Value {
    match v
    case Buf(data) => Str(data)
    case Arr(items) => Arr(AllStrings(items))
    case _ => v
  }

  function AllStrings(vs: seq<Value>): seq<Value> {
    if vs == [] then [] else [Strings(vs[0])] + AllStrings(vs[1..])
  }

  function TransformReply(encoded: bool, kind: Transformer, protocol: Protocol, mapping: ReplyMapping,
                          v: Value): Value {
    Transform(kind, protocol, mapping, if encoded then Strings(v) else v)
  }

  // ---------- score pairs ----------

  /**
   One element of a sorted-set or hash reply: a member alone, or with a score or value, or the one member and
   score that popping without a count gives.
   */
  datatype Element =
    | Member(data: bytes)
    | Paired(data: bytes, text: bytes, numeric: bool)
    | Popped(data: bytes, text: bytes)

  /** RESP2 puts the two halves of a pair side by side, both as bulk strings. */
  function Resp2Element(e: Element): seq<Resp> {
    match e
    case Member(data) => [RBulk(data)]
    case Paired(data, text, _) => [RBulk(data), RBulk(text)]
    case Popped(data, text) => [RBulk(data), RBulk(text)]
  }

  /** RESP3 nests a pair unless it is popped without a count, and sends a score as a double. */
  function Resp3Element(e: Element): seq<Resp> {
    match e
    case Member(data) => [RBulk(data)]
    case Paired(data, text, numeric) => [RArray([RBulk(data), if numeric then RDouble(text) else RBulk(text)])]
    case Popped(data, text) => [RBulk(data), RDouble(text)]
  }

  function Resp2Elements(es: seq<Element>): seq<Resp> {
    if es == [] then [] else Resp2Element(es[0]) + Resp2Elements(es[1..])
  }

  function Resp3Elements(es: seq<Element>): seq<Resp> {
    if es == [] then [] else Resp3Element(es[0]) + Resp3Elements(es[1..])
  }

  lemma ImageAllAppend(a: seq<Resp>, b: seq<Resp>, tm: TypeMapping)
    ensures ImageAll(a + b, tm) == ImageAll(a, tm) + ImageAll(b, tm)
  {
  }

  lemma AllStringsAppend(a: seq<Value>, b: seq<Value>)
    ensures AllStrings(a + b) == AllStrings(a) + AllStrings(b)
    decreases |a|
  {
    if a == [] {
      assert a + b == b;
    } else {
      assert (a + b)[1..] == a[1..] + b;
      AllStringsAppend(a[1..], b);
    }
  }

  predicate Scored(e: Element) {
    e.Popped? || (e.Paired? && e.numeric)
  }

  predicate HasScore(es: seq<Element>) {
    exists e :: e in es && Scored(e)
  }

  function Shown(vs: seq<Value>, encoded: bool): seq<Value> {
    if encoded then AllStrings(vs) else vs
  }

  lemma {:induction false} FlattenItemsAppend(a: seq<Value>, b: seq<Value>)
    ensures FlattenItems(a + b) == FlattenItems(a) + FlattenItems(b)
  {
    if a == [] {
      assert a + b == b;
    } else {
      assert (a + b)[1..] == a[1..] + b;
      FlattenItemsAppend(a[1..], b);
    }
  }

  lemma TwoShown(x: Resp, y: Resp, tm: TypeMapping, encoded: bool)
    ensures var a, b := Image(x, tm), Image(y, tm);
            && Shown(ImageAll([x, y], tm), encoded) == (if encoded then [Strings(a), Strings(b)] else [a, b])
            && Shown(ImageAll([x], tm), encoded) == (if encoded then [Strings(a)] else [a])
  {
    hide Image, Strings;
    var a, b := Image(x, tm), Image(y, tm);
    assert ImageAll([x, y], tm) == [a, b] && ImageAll([x], tm) == [a];
    assert [a, b][1..] == [b] && [b][1..] == [] && [a][1..] == [];
    assert AllStrings([b]) == [Strings(b)] && AllStrings([a]) == [Strings(a)];
  }

  /** The halves of an element as RESP2 shows them, and as RESP3 does once they are opened up. */
  lemma ElementShown(e: Element, tm: TypeMapping, encoded: bool)
    requires tm.double != DoubleNumber
    ensures var first := if encoded then Str(e.data) else Buf(e.data);
            && FlattenItems(Shown(ImageAll(Resp3Element(e), tm), encoded))
               == (if e.Member? then [first]
                   else if encoded || (Scored(e) && tm.double == DoubleString) then [first, Str(e.text)]
                   else [first, Buf(e.text)])
            && Shown(ImageAll(Resp2Element(e), tm), encoded)
               == (if e.Member? then [first] else [first, if encoded then Str(e.text) else Buf(e.text)])
  {
    hide ImageAll, AllStrings, Shown;
    var data := RBulk(e.data);
    if e.Member? {
      TwoShown(data, data, tm, encoded);
      assert FlattenItems([Image(data, tm)]) == [Image(data, tm)];
      assert FlattenItems([Strings(Image(data, tm))]) == [Strings(Image(data, tm))];
    } else {
      var second := if Scored(e) then RDouble(e.text) else RBulk(e.text);
      TwoShown(data, RBulk(e.text), tm, encoded);
      TwoShown(data, second, tm, encoded);
      OpenPair(data, second, tm, encoded);
    }
  }

  /** A pair is the same opened up or side by side, when neither half is an array. */
  lemma OpenPair(x: Resp, y: Resp, tm: TypeMapping, encoded: bool)
    requires !Image(x, tm).Arr? && !Image(y, tm).Arr?
    ensures FlattenItems(Shown(ImageAll([x, y], tm), encoded)) == Shown(ImageAll([x, y], tm), encoded)
         == FlattenItems(Shown(ImageAll([RArray([x, y])], tm), encoded))
  {
    TwoShown(x, y, tm, encoded);
    PairShown(x, y, tm, encoded);
    var shown := Shown(ImageAll([x, y], tm), encoded);
    assert shown[1..] == [shown[1]] && [shown[1]][1..] == [];
    assert FlattenItems(shown) == Opened(shown[0]) + (Opened(shown[1]) + FlattenItems([]));
    assert FlattenItems([Arr(shown)]) == shown + FlattenItems([]);
  }

  lemma {:induction false} ElementsAgree(es: seq<Element>, tm: TypeMapping, encoded: bool)
    requires tm.double != DoubleNumber
    ensures FlattenItems(Shown(ImageAll(Resp3Elements(es), tm), encoded))
        == Shown(ImageAll(Resp2Elements(es), tm), encoded)
       <==> encoded || tm.double == DoubleBuffer || !HasScore(es)
    ensures |FlattenItems(Shown(ImageAll(Resp3Elements(es), tm), encoded))|
        == |Shown(ImageAll(Resp2Elements(es), tm), encoded)|
    decreases |es|
  {
    hide ImageAll;
    if es == [] {
      assert ImageAll([], tm) == [] by {
        NoImages(tm);
      }
    } else {
      var e, rest := es[0], es[1..];
      ElementsAgree(rest, tm, encoded);
      ShownAppend(Resp2Element(e), Resp2Elements(rest), tm, encoded);
      ShownAppend(Resp3Element(e), Resp3Elements(rest), tm, encoded);
      ElementShown(e, tm, encoded);
      var head3 := Shown(ImageAll(Resp3Element(e), tm), encoded);
      var rest3 := Shown(ImageAll(Resp3Elements(rest), tm), encoded);
      FlattenItemsAppend(head3, rest3);
      assert HasScore(es) <==> Scored(e) || HasScore(rest) by {
        assert forall x :: x in es <==> x == e || x in rest;
      }
      SplitEqual(FlattenItems(head3), FlattenItems(rest3), Shown(ImageAll(Resp2Element(e), tm), encoded),
                 Shown(ImageAll(Resp2Elements(rest), tm), encoded));
    }
  }

  lemma NoImages(tm: TypeMapping)
    ensures ImageAll([], tm) == []
  {
  }

  lemma ShownAppend(a: seq<Resp>, b: seq<Resp>, tm: TypeMapping, encoded: bool)
    ensures Shown(ImageAll(a + b, tm), encoded) == Shown(ImageAll(a, tm), encoded) + Shown(ImageAll(b, tm), encoded)
  {
    ImageAllAppend(a, b, tm);
    AllStringsAppend(ImageAll(a, tm), ImageAll(b, tm));
  }

  lemma SplitEqual<T>(a: seq<T>, b: seq<T>, c: seq<T>, d: seq<T>)
    requires |a| == |c|
    ensures a + b == c + d <==> a == c && b == d
  {
    if a + b == c + d {
      assert a == (a + b)[..|a|] && c == (c + d)[..|a|];
      assert b == (a + b)[|a|..] && d == (c + d)[|a|..];
    }
  }

  /**
   For a pair reply of any length under the legacy mapping, nested or popped without a count, decoding the RESP3
   form and transforming it gives the value the RESP2 form gives, with one exception: with `stringNumbers` set and
   no reply encoding (the Buffer variants of the commands), a score is a string under RESP3 and a buffer under
   RESP2.
   */
  lemma PairReplyIsProtocolIndependent(es: seq<Element>, stringNumbers: bool, encoded: bool)
    ensures PairOver3(es, ParserTypeMapping(Legacy, stringNumbers), encoded)
              == PairOver2(es, ParserTypeMapping(Legacy, stringNumbers), encoded)
       <==> encoded || !stringNumbers || !HasScore(es)
  {
    var tm := ParserTypeMapping(Legacy, stringNumbers);
    hide ImageAll, FlattenItems, AllStrings;
    ElementsAgree(es, tm, encoded);
    ArrayImage(Resp3Elements(es), tm);
    ArrayImage(Resp2Elements(es), tm);
    ArrayStrings(ImageAll(Resp3Elements(es), tm));
    ArrayStrings(ImageAll(Resp2Elements(es), tm));
  }

  function PairOver3(es: seq<Element>, tm: TypeMapping, encoded: bool): Value {
    TransformReply(encoded, PairReply, Protocol3, Legacy, Image(RArray(Resp3Elements(es)), tm))
  }

  function PairOver2(es: seq<Element>, tm: TypeMapping, encoded: bool): Value {
    TransformReply(encoded, PairReply, Protocol2, Legacy, Image(RArray(Resp2Elements(es)), tm))
  }

  lemma ArrayStrings(vs: seq<Value>)
    ensures Strings(Arr(vs)) == Arr(AllStrings(vs))
  {
  }

  // ---------- stream reads ----------

  datatype StreamEntry = StreamEntry(key: bytes, entries: Resp)

  /** RESP3 answers XREAD with a map from stream to entries, RESP2 with an array of pairs. */
  function Resp3Streams(ss: seq<StreamEntry>): seq<Resp> {
    if ss == [] then [] else [RBulk(ss[0].key), ss[0].entries] + Resp3Streams(ss[1..])
  }

  function Resp2Streams(ss: seq<StreamEntry>): seq<Resp> {
    if ss == [] then [] else [RArray([RBulk(ss[0].key), ss[0].entries])] + Resp2Streams(ss[1..])
  }

  lemma {:induction false} StreamsAgree(ss: seq<StreamEntry>, tm: TypeMapping, encoded: bool)
    ensures WrapItems(Shown(ImageAll(Resp3Streams(ss), tm), encoded)) == Shown(ImageAll(Resp2Streams(ss), tm), encoded)
    decreases |ss|
  {
    hide Image, ImageAll, Shown, Strings;
    if ss == [] {
      NothingShown(tm, encoded);
    } else {
      var rest := ss[1..];
      StreamsAgree(rest, tm, encoded);
      var pair := [RBulk(ss[0].key), ss[0].entries];
      ShownAppend(pair, Resp3Streams(rest), tm, encoded);
      ShownAppend([RArray(pair)], Resp2Streams(rest), tm, encoded);
      var shown, tail := Shown(ImageAll(pair, tm), encoded), Shown(ImageAll(Resp3Streams(rest), tm), encoded);
      PairShown(pair[0], pair[1], tm, encoded);
      assert shown == [shown[0], shown[1]];
      assert (shown + tail)[2..] == tail;
    }
  }

  lemma NothingShown(tm: TypeMapping, encoded: bool)
    ensures Shown(ImageAll([], tm), encoded) == []
  {
  }

  /** A nested pair shows as an array of the two values that a pair side by side shows. */
  lemma PairShown(x: Resp, y: Resp, tm: TypeMapping, encoded: bool)
    ensures |Shown(ImageAll([x, y], tm), encoded)| == 2
    ensures Shown(ImageAll([RArray([x, y])], tm), encoded) == [Arr(Shown(ImageAll([x, y], tm), encoded))]
  {
    TwoShown(x, y, tm, encoded);
    TwoShown(RArray([x, y]), RArray([x, y]), tm, encoded);
    ArrayImage([x, y], tm);
    ArrayStrings(ImageAll([x, y], tm));
  }

  lemma ArrayImage(items: seq<Resp>, tm: TypeMapping)
    ensures Image(RArray(items), tm) == Arr(ImageAll(items, tm))
  {
  }

  /** Stream reads agree for any number of streams, and for the null reply of a timed-out read. */
  lemma StreamReplyIsProtocolIndependent(ss: seq<StreamEntry>, tm: TypeMapping, encoded: bool)
    requires tm.mapAsArray
    ensures TransformReply(encoded, StreamReply, Protocol3, Legacy, Image(RMap(Resp3Streams(ss)), tm))
         == TransformReply(encoded, StreamReply, Protocol2, Legacy, Image(RArray(Resp2Streams(ss)), tm))
    ensures TransformReply(encoded, StreamReply, Protocol3, Legacy, Image(RNull, tm))
         == TransformReply(encoded, StreamReply, Protocol2, Legacy, Image(RNullArray, tm))
  {
    hide ImageAll, WrapItems, AllStrings;
    StreamsAgree(ss, tm, encoded);
    MapImage(Resp3Streams(ss), tm);
    ArrayImage(Resp2Streams(ss), tm);
    ArrayStrings(ImageAll(Resp3Streams(ss), tm));
    ArrayStrings(ImageAll(Resp2Streams(ss), tm));
  }

  lemma MapImage(children: seq<Resp>, tm: TypeMapping)
    requires tm.mapAsArray
    ensures Image(RMap(children), tm) == Arr(ImageAll(children, tm))
  {
  }
}
