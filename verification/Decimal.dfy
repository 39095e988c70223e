/** Exact decimal normalisation of JSON numbers (canonicalJSONNumber): equal
    canonical text means equal decimal value, however large the exponent. */
module Decimal {
  /** A number token of section 6 of RFC 8259: sign, integer digits, fraction
      digits and exponent. Digits are values, most significant first. */
  type Digit = d: nat | d < 10

  datatype Number = Number(negative: bool, integer: seq<Digit>, fraction: seq<Digit>, exponent: int)

  /** n with k zeros appended: n times ten to the power k. */
  function Scale(n: nat, k: nat): nat { if k == 0 then n else 10 * Scale(n, k - 1) }

  /** The natural number that the first n digits denote. */
  function NatTo(s: seq<Digit>, n: nat): nat
    requires n <= |s|
  {
    if n == 0 then 0 else 10 * NatTo(s, n - 1) + s[n - 1]
  }

  function NatOf(s: seq<Digit>): nat { NatTo(s, |s|) }

  /** The first position from i on that does not hold the digit 0. */
  function FirstNonzero(s: seq<Digit>, i: nat): (k: nat)
    requires i <= |s|
    ensures i <= k <= |s| && (k < |s| ==> s[k] != 0) && forall j | i <= j < k :: s[j] == 0
    decreases |s| - i
  {
    if i == |s| || s[i] != 0 then i else FirstNonzero(s, i + 1)
  }

  /** The end of the digits before n without zeros at the end. */
  function LastNonzero(s: seq<Digit>, n: nat): (k: nat)
    requires n <= |s|
    ensures k <= n && (k > 0 ==> s[k - 1] != 0) && forall j | k <= j < n :: s[j] == 0
  {
    if n == 0 || s[n - 1] != 0 then n else LastNonzero(s, n - 1)
  }

  function TrimLeft(s: seq<Digit>): seq<Digit> { s[FirstNonzero(s, 0)..] }

  function TrimRight(s: seq<Digit>): seq<Digit> { s[..LastNonzero(s, |s|)] }

  /** The canonical form: zero, or a coefficient that neither starts nor ends with
      the digit 0, and its exponent. */
  datatype Canonical = Zero | Scaled(negative: bool, digits: seq<Digit>, exponent: int)

  /** The sign, the digits without the point, and the scale of the last digit. */
  datatype Parts = Parts(negative: bool, digits: seq<Digit>, exponent: int)

  function PartsOf(n: Number): Parts { Parts(n.negative, n.integer + n.fraction, n.exponent - |n.fraction|) }

  /** canonicalJSONNumber, before printing. */
  function CanonicalOf(n: Number): Canonical { Canonicalise(PartsOf(n)) }

  function Canonicalise(p: Parts): Canonical {
    var digits := TrimLeft(p.digits);
    if digits == [] then Zero
    else
      var trimmed := TrimRight(digits);
      Scaled(p.negative, trimmed, p.exponent + (|digits| - |trimmed|))
  }

  function Signed(negative: bool, x: nat): int { if negative then -(x as int) else x }

  function Least(a: int, b: int): int { if a < b then a else b }

  /** Equal decimal values: the signed magnitudes agree at the smaller of the two scales. */
  predicate SameValue(a: Number, b: Number) { SameParts(PartsOf(a), PartsOf(b)) }

  predicate SameParts(a: Parts, b: Parts) {
    var scale := Least(a.exponent, b.exponent);
    Signed(a.negative, Scale(NatOf(a.digits), a.exponent - scale)) == Signed(b.negative, Scale(NatOf(b.digits), b.exponent - scale))
  }

  // Scaling ---------------------------------------------------------------------------------

  lemma {:induction false} ScaleTwice(n: nat, j: nat, k: nat)
    ensures Scale(Scale(n, j), k) == Scale(n, j + k)
  {
    if k > 0 { ScaleTwice(n, j, k - 1); }
  }

  lemma {:induction false} ScaleSign(n: nat, k: nat)
    ensures Scale(n, k) > 0 <==> n > 0
  {
    if k > 0 { ScaleSign(n, k - 1); }
  }

  lemma Tenfold(n: nat, k: nat)
    requires k > 0
    ensures Scale(n, k) % 10 == 0
  {
  }

  /** A coefficient not divisible by 10 and its exponent are unique. */
  lemma {:induction false} UniqueScale(c: nat, d: nat, m: nat, n: nat)
    requires c % 10 != 0 && d % 10 != 0 && Scale(c, m) == Scale(d, n)
    ensures m == n && c == d
  {
    if m > 0 && n > 0 { UniqueScale(c, d, m - 1, n - 1); }
    else if m > 0 { Tenfold(c, m); }
    else if n > 0 { Tenfold(d, n); }
  }

  // Digits ----------------------------------------------------------------------------------

  lemma {:induction false} SameValueTo(s: seq<Digit>, t: seq<Digit>, k: nat, n: nat)
    requires k + n <= |s| && n <= |t| && NatTo(s, k) == 0 && forall i | 0 <= i < n :: s[k + i] == t[i]
    ensures NatTo(s, k + n) == NatTo(t, n)
  {
    if n > 0 { SameValueTo(s, t, k, n - 1); }
  }

  lemma {:induction false} TrailingZeros(s: seq<Digit>, k: nat, n: nat)
    requires k <= n <= |s| && forall i | k <= i < n :: s[i] == 0
    ensures NatTo(s, n) == Scale(NatTo(s, k), n - k)
  {
    if k < n { TrailingZeros(s, k, n - 1); }
  }

  lemma {:induction false} ZeroScaled(k: nat)
    ensures Scale(0, k) == 0
  {
    if k > 0 { ZeroScaled(k - 1); }
  }

  predicate NoLeadingZero(s: seq<Digit>) { s == [] || s[0] != 0 }

  lemma {:induction false} PositiveDigits(s: seq<Digit>, n: nat)
    requires 0 < n <= |s| && s[0] != 0
    ensures NatTo(s, n) > 0
  {
    if n > 1 { PositiveDigits(s, n - 1); }
  }

  /** A number has one notation without leading zeros. */
  lemma {:induction false} UniqueDigits(s: seq<Digit>, t: seq<Digit>, m: nat, n: nat)
    requires m <= |s| && n <= |t| && NoLeadingZero(s) && NoLeadingZero(t) && NatTo(s, m) == NatTo(t, n)
    ensures m == n && forall i | 0 <= i < m :: s[i] == t[i]
  {
    if m > 0 { PositiveDigits(s, m); }
    if n > 0 { PositiveDigits(t, n); }
    if m > 0 && n > 0 { UniqueDigits(s, t, m - 1, n - 1); }
  }

  // Canonical forms -------------------------------------------------------------------------

  predicate CanonicalForm(c: Canonical) {
    c.Scaled? ==> TrimmedDigits(c.digits)
  }

  predicate TrimmedDigits(s: seq<Digit>) { s != [] && s[0] != 0 && s[|s| - 1] != 0 }

  lemma LeftValue(s: seq<Digit>)
    ensures NatOf(TrimLeft(s)) == NatOf(s) && (TrimLeft(s) != [] ==> TrimLeft(s)[0] != 0)
  {
    var i := FirstNonzero(s, 0);
    TrailingZeros(s, 0, i);
    ZeroScaled(i);
    SameValueTo(s, TrimLeft(s), i, |s| - i);
  }

  lemma RightTrimmed(s: seq<Digit>)
    requires s != [] && s[0] != 0
    ensures TrimmedDigits(TrimRight(s))
  {
  }

  lemma RightValue(s: seq<Digit>)
    ensures NatOf(s) == Scale(NatOf(TrimRight(s)), |s| - |TrimRight(s)|)
  {
    var k := LastNonzero(s, |s|);
    TrailingZeros(s, k, |s|);
    SameValueTo(s, TrimRight(s), 0, k);
  }

  /** The value of a token, read off its canonical form at any smaller scale. */
  lemma CanonicalValue(p: Parts, c: Canonical, scale: int)
    requires scale <= p.exponent && c == Canonicalise(p) && c.Scaled?
    ensures TrimmedDigits(c.digits) && c.negative == p.negative && c.exponent >= scale
    ensures Scale(NatOf(p.digits), p.exponent - scale) == Scale(NatOf(c.digits), c.exponent - scale)
  {
    var digits := TrimLeft(p.digits);
    LeftValue(p.digits);
    RightValue(digits);
    RightTrimmed(digits);
    ScaleTwice(NatOf(c.digits), |digits| - |c.digits|, p.exponent - scale);
  }

  lemma CanonicalForms(p: Parts)
    ensures CanonicalForm(Canonicalise(p))
  {
    LeftValue(p.digits);
    if TrimLeft(p.digits) != [] { RightTrimmed(TrimLeft(p.digits)); }
  }

  lemma ZeroMagnitude(p: Parts, scale: int)
    requires scale <= p.exponent && Canonicalise(p).Zero?
    ensures Scale(NatOf(p.digits), p.exponent - scale) == 0
  {
    TrailingZeros(p.digits, 0, |p.digits|);
    ZeroScaled(|p.digits|);
    ZeroScaled(p.exponent - scale);
  }

  /** Signed multiples of trimmed coefficients are equal only if everything is. */
  lemma SameScaled(left: bool, c: seq<Digit>, m: nat, right: bool, d: seq<Digit>, n: nat)
    requires TrimmedDigits(c) && TrimmedDigits(d)
    ensures Signed(left, Scale(NatOf(c), m)) == Signed(right, Scale(NatOf(d), n)) <==> left == right && c == d && m == n
    ensures Scale(NatOf(c), m) > 0
  {
    PositiveDigits(c, |c|);
    PositiveDigits(d, |d|);
    ScaleSign(NatOf(c), m);
    ScaleSign(NatOf(d), n);
    if Scale(NatOf(c), m) == Scale(NatOf(d), n) {
      UniqueScale(NatOf(c), NatOf(d), m, n);
      UniqueDigits(c, d, |c|, |d|);
    }
  }

  lemma ScaledDecides(a: Parts, b: Parts, c: Canonical, d: Canonical, scale: int)
    requires c == Canonicalise(a) && d == Canonicalise(b) && c.Scaled? && d.Scaled? && scale == Least(a.exponent, b.exponent)
    ensures c == d <==> SameParts(a, b)
  {
    CanonicalValue(a, c, scale);
    CanonicalValue(b, d, scale);
    ReadOff(a, b, c, d, scale);
  }

  lemma ReadOff(a: Parts, b: Parts, c: Canonical, d: Canonical, scale: int)
    requires c.Scaled? && d.Scaled? && TrimmedDigits(c.digits) && TrimmedDigits(d.digits) && scale == Least(a.exponent, b.exponent)
    requires c.negative == a.negative && d.negative == b.negative && c.exponent >= scale && d.exponent >= scale
    requires Scale(NatOf(a.digits), a.exponent - scale) == Scale(NatOf(c.digits), c.exponent - scale)
    requires Scale(NatOf(b.digits), b.exponent - scale) == Scale(NatOf(d.digits), d.exponent - scale)
    ensures c == d <==> SameParts(a, b)
  {
    SameScaled(c.negative, c.digits, c.exponent - scale, d.negative, d.digits, d.exponent - scale);
  }

  lemma ZeroDecides(a: Parts, b: Parts, scale: int)
    requires Canonicalise(a).Zero? && scale == Least(a.exponent, b.exponent)
    ensures Canonicalise(b).Zero? <==> Scale(NatOf(b.digits), b.exponent - scale) == 0
    ensures Scale(NatOf(a.digits), a.exponent - scale) == 0
  {
    ZeroMagnitude(a, scale);
    if Canonicalise(b).Zero? {
      ZeroMagnitude(b, scale);
    } else {
      var d := Canonicalise(b);
      CanonicalValue(b, d, scale);
      SameScaled(d.negative, d.digits, d.exponent - scale, d.negative, d.digits, d.exponent - scale);
    }
  }

  lemma PartsDecide(a: Parts, b: Parts)
    ensures Canonicalise(a) == Canonicalise(b) <==> SameParts(a, b)
  {
    var scale := Least(a.exponent, b.exponent);
    if Canonicalise(a).Zero? { ZeroDecides(a, b, scale); }
    else if Canonicalise(b).Zero? { ZeroDecides(b, a, scale); }
    else { ScaledDecides(a, b, Canonicalise(a), Canonicalise(b), scale); }
  }

  /** Canonical numbers decide equality: two JSON numbers have the same canonical
      form exactly when they are the same decimal value, whatever their signs of
      zero, trailing zeros and exponents. */
  lemma CanonicalDecidesValue(a: Number, b: Number)
    ensures CanonicalOf(a) == CanonicalOf(b) <==> SameValue(a, b)
  {
    PartsDecide(PartsOf(a), PartsOf(b));
  }
}
