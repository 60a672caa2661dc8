/**
 The part of IEEE 754 double arithmetic the decoder relies on: integers whose
 magnitude passes 2^53 are rounded to 53 significant bits, ties to even. The
 range is not bounded above (no overflow to infinity).
 */
module JsNumber {
  import opened Bytes

  const MAX_EXACT: int := 9007199254740992 // 2^53

  /** The spacing of doubles near m: the power of two that leaves 53 significant bits. */
  function Spacing(m: nat): (p: nat)
    ensures p >= 1
  {
    if m < MAX_EXACT then 1 else 2 * Spacing(m / 2)
  }

  function RoundNat(m: nat): int {
    var p := Spacing(m);
    var q, r := m / p, m % p;
    if 2 * r < p || (2 * r == p && q % 2 == 0) then q * p else (q + 1) * p
  }

  /** The double nearest to an integer. */
  function Double(x: int): int {
    if x < 0 then -RoundNat(-x) else RoundNat(x)
  }

  lemma DoubleIsExact(x: int)
    requires -MAX_EXACT <= x <= MAX_EXACT
    ensures Double(x) == x
  {
    var m := if x < 0 then -x else x;
    if m == MAX_EXACT {
      assert Spacing(m) == 2;
    }
  }

  /** One turn of the digit loop: `number * 10 + (byte - 48)`, each operation rounded. */
  function AddDigit(number: int, b: byte): int {
    Double(Double(number * 10) + (b - ZERO))
  }

  /** The digit loop over a run of digits. */
  function ReadDigits(number: int, digits: bytes): int
    decreases |digits|
  {
    if digits == [] then number else ReadDigits(AddDigit(number, digits[0]), digits[1..])
  }

  lemma {:induction false} ReadDigitsSnoc(number: int, digits: bytes, b: byte)
    ensures ReadDigits(number, digits + [b]) == AddDigit(ReadDigits(number, digits), b)
    decreases |digits|
  {
    if digits == [] {
      assert digits + [b] == [b];
      assert [b][1..] == [];
    } else {
      assert (digits + [b])[1..] == digits[1..] + [b];
      ReadDigitsSnoc(AddDigit(number, digits[0]), digits[1..], b);
    }
  }

  /** Every integer up to 2^53 is read back exactly: no intermediate value exceeds the final one. */
  lemma {:induction false} ReadDigitsExact(n: nat)
    requires n <= MAX_EXACT
    ensures ReadDigits(0, Decimal(n)) == n
  {
    if n < 10 {
      assert Decimal(n) == [] + [ZERO + n];
      ReadDigitsSnoc(0, [], ZERO + n);
      DoubleIsExact(0);
      DoubleIsExact(n);
    } else {
      ReadDigitsExact(n / 10);
      ReadDigitsSnoc(0, Decimal(n / 10), ZERO + n % 10);
      DoubleIsExact(n / 10 * 10);
      DoubleIsExact(n);
    }
  }

  /** Subtracting '0' last instead of first, `number * 10 + byte - 48`, already rounds 2^53 - 1. */
  lemma SubtractingZeroLastIsInexact()
    ensures ReadDigits(0, Decimal(MAX_EXACT - 1)) == MAX_EXACT - 1
    ensures Double(Double(Double((MAX_EXACT - 1) / 10 * 10) + (ZERO + (MAX_EXACT - 1) % 10)) - ZERO) == MAX_EXACT
  {
    ReadDigitsExact(MAX_EXACT - 1);
    DoubleIsExact((MAX_EXACT - 1) / 10 * 10);
    var m := (MAX_EXACT - 1) / 10 * 10 + ZERO + (MAX_EXACT - 1) % 10;
    assert m == 9007199254741039;
    assert Spacing(m / 2) == 1 && Spacing(m) == 2;
    assert Double(m) == 9007199254741040;
    DoubleIsExact(9007199254740992);
  }
}
