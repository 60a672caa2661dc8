/** Bytes, ASCII text and concatenation: the vocabulary shared by the codec modules. */
module Bytes {
  type byte = b: int | 0 <= b < 256
  type bytes = seq<byte>

  const CR: byte := 13
  const LF: byte := 10
  const PLUS: byte := 43
  const MINUS: byte := 45
  const ZERO: byte := 48
  const CRLF: bytes := [CR, LF]

  /** The concatenation of a list of sequences. */
  function Concat<T>(parts: seq<seq<T>>): seq<T> {
    if parts == [] then [] else parts[0] + Concat(parts[1..])
  }

  lemma {:induction false} ConcatAppend<T>(xs: seq<seq<T>>, ys: seq<seq<T>>)
    ensures Concat(xs + ys) == Concat(xs) + Concat(ys)
    decreases |xs|
  {
    if xs == [] {
      assert xs + ys == ys;
    } else {
      ConcatAppend(xs[1..], ys);
      assert (xs + ys)[1..] == xs[1..] + ys && (xs + ys)[0] == xs[0];
      assert xs[0] + (Concat(xs[1..]) + Concat(ys)) == xs[0] + Concat(xs[1..]) + Concat(ys);
    }
  }

  lemma ConcatSnoc<T>(xs: seq<seq<T>>, y: seq<T>)
    ensures Concat(xs + [y]) == Concat(xs) + y
  {
    ConcatAppend(xs, [y]);
    assert Concat([y]) == y;
  }

  /** The decimal digits of a number, most significant first. */
  function Decimal(n: nat): (d: bytes)
    ensures |d| >= 1
    ensures forall b :: b in d ==> ZERO <= b <= 57
  {
    if n < 10 then [ZERO + n] else Decimal(n / 10) + [ZERO + n % 10]
  }
}
