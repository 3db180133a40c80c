/** UTF-16 text and decimal numerals, as JavaScript's `String` and `Number` produce and read them for integers. */
module Decimals {
  import opened Options

  newtype CodeUnit = u: int | 0 <= u < 0x10000

  type Text = seq<CodeUnit>

  predicate IsDigit(u: CodeUnit) {
    48 <= u <= 57
  }

  predicate AllDigits(t: Text) {
    forall i :: 0 <= i < |t| ==> IsDigit(t[i])
  }

  function Decimal(n: nat): (t: Text)
    ensures t != [] && AllDigits(t)
  {
    if n < 10 then [(48 + n) as CodeUnit] else Decimal(n / 10) + [(48 + n % 10) as CodeUnit]
  }

  function Value(t: Text): nat
    requires AllDigits(t)
  {
    if t == [] then 0 else 10 * Value(t[..|t| - 1]) + (t[|t| - 1] as int - 48)
  }

  lemma {:induction false} DecimalRoundTrip(n: nat)
    ensures Value(Decimal(n)) == n
  {
    if n >= 10 {
      DecimalRoundTrip(n / 10);
      assert Decimal(n)[..|Decimal(n)| - 1] == Decimal(n / 10);
    } else {
      assert Decimal(n)[..0] == [];
    }
  }

  /** What follows a number in JSON text never continues it. */
  predicate Stops(rest: Text) {
    rest == [] || !IsDigit(rest[0])
  }

  lemma Overlap(x: Text, r: Text, y: Text, q: Text)
    requires x + r == y + q
    ensures |x| < |y| ==> r != [] && r[0] == y[|x|]
    ensures |x| == |y| ==> x == y && r == q
  {
    if |x| < |y| {
      assert (x + r)[|x|] == (y + q)[|x|];
    } else if |x| == |y| {
      assert x == (x + r)[..|x|] && y == (y + q)[..|x|];
      assert r == (x + r)[|x|..] && q == (y + q)[|x|..];
    }
  }

  /** A numeral can be read back in only one way. */
  lemma DecimalReadOnce(a: nat, r: Text, b: nat, q: Text)
    requires Decimal(a) + r == Decimal(b) + q && Stops(r) && Stops(q)
    ensures a == b && r == q
  {
    Overlap(Decimal(a), r, Decimal(b), q);
    Overlap(Decimal(b), q, Decimal(a), r);
    DecimalRoundTrip(a);
    DecimalRoundTrip(b);
  }

  /** The largest integer up to which every integer is a double. */
  const MAX_SAFE_INTEGER: nat := 9007199254740991

  /** `Number` on the text of a bigint column; None where a double would round. */
  function NumberOf(t: Text): Option<nat> {
    if t == [] || !AllDigits(t) || Value(t) > MAX_SAFE_INTEGER then None else Some(Value(t))
  }

  /** Amounts survive being stored as text and read back. */
  lemma AmountsSurvive(amountMinor: nat)
    requires 1 <= amountMinor <= 1000000000000
    ensures NumberOf(Decimal(amountMinor)) == Some(amountMinor)
  {
    DecimalRoundTrip(amountMinor);
  }
}
