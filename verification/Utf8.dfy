/** JavaScript strings as UTF-16 code units, and the UTF-8 bytes that writing one to a socket produces. */
module Utf8 {
  import opened Bytes

  type Unit = u: int | 0 <= u < 0x10000
  type JsString = seq<Unit>

  predicate High(u: Unit) { 0xD800 <= u < 0xDC00 }
  predicate Low(u: Unit) { 0xDC00 <= u < 0xE000 }

  /** One code unit on its own; half a surrogate pair becomes the replacement character. */
  function EncodeUnit(u: Unit): bytes {
    if u < 0x80 then [u]
    else if u < 0x800 then [0xC0 + u / 0x40, 0x80 + u % 0x40]
    else if High(u) || Low(u) then [0xEF, 0xBF, 0xBD]
    else [0xE0 + u / 0x1000, 0x80 + u / 0x40 % 0x40, 0x80 + u % 0x40]
  }

  function EncodePair(high: Unit, low: Unit): bytes
    requires High(high) && Low(low)
  {
    var point := 0x10000 + (high - 0xD800) * 0x400 + (low - 0xDC00);
    [0xF0 + point / 0x40000, 0x80 + point / 0x1000 % 0x40, 0x80 + point / 0x40 % 0x40, 0x80 + point % 0x40]
  }

  function Encode(s: JsString): bytes {
    if s == [] then []
    else if |s| > 1 && High(s[0]) && Low(s[1]) then EncodePair(s[0], s[1]) + Encode(s[2..])
    else EncodeUnit(s[0]) + Encode(s[1..])
  }

  /** Where two strings meet, no surrogate pair forms. */
  predicate Seam(a: JsString, b: JsString) {
    a == [] || b == [] || !High(a[|a| - 1]) || !Low(b[0])
  }

  lemma {:induction false} EncodeConcat(a: JsString, b: JsString)
    requires Seam(a, b)
    ensures Encode(a + b) == Encode(a) + Encode(b)
    decreases |a|
  {
    hide EncodeUnit, EncodePair;
    if a == [] {
      assert a + b == b;
    } else if |a| > 1 && High(a[0]) && Low(a[1]) {
      assert (a + b)[2..] == a[2..] + b;
      EncodeConcat(a[2..], b);
    } else {
      assert (a + b)[1..] == a[1..] + b;
      EncodeConcat(a[1..], b);
    }
  }

  predicate Ascii(s: seq<int>) {
    forall u :: u in s ==> 0 <= u < 0x80
  }

  lemma {:induction false} EncodeAscii(s: JsString)
    requires Ascii(s)
    ensures Encode(s) == s
    decreases |s|
  {
    hide EncodePair;
    if s != [] {
      assert s[0] in s && !High(s[0]) && EncodeUnit(s[0]) == [s[0]];
      assert forall u :: u in s[1..] ==> u in s;
      EncodeAscii(s[1..]);
    }
  }
}
