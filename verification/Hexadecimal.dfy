/** Fixed-width lower-case hexadecimal text. */
module Hexadecimal {
  function HexDigit(n: nat): (c: char)
    requires n < 16
  {
    "0123456789abcdef"[n]
  }

  function Pow16(k: nat): nat { if k == 0 then 1 else 16 * Pow16(k - 1) }

  function Hex(n: nat, width: nat): (s: string)
    ensures |s| == width
  {
    if width == 0 then "" else Hex(n / 16, width - 1) + [HexDigit(n % 16)]
  }

  lemma {:induction false} HexInjective(m: nat, n: nat, width: nat)
    requires m < Pow16(width) && n < Pow16(width) && Hex(m, width) == Hex(n, width)
    ensures m == n
  {
    if width > 0 {
      var i := width - 1;
      assert Hex(m, width)[..i] == Hex(m / 16, i) && Hex(n, width)[..i] == Hex(n / 16, i);
      assert Hex(m, width)[i] == HexDigit(m % 16) && Hex(n, width)[i] == HexDigit(n % 16);
      DigitInjective(m % 16, n % 16);
      HexInjective(m / 16, n / 16, i);
    }
  }

  lemma DigitInjective(m: nat, n: nat)
    requires m < 16 && n < 16 && HexDigit(m) == HexDigit(n)
    ensures m == n
  {
  }

  /** The digit that a character stands for, in either case. */
  function DigitOf(c: char): (d: int)
    ensures -1 <= d < 16
  {
    if '0' <= c <= '9' then c as int - '0' as int
    else if 'a' <= c <= 'f' then c as int - 'a' as int + 10
    else if 'A' <= c <= 'F' then c as int - 'A' as int + 10
    else -1
  }

  predicate IsHex(s: string) { forall i | 0 <= i < |s| :: DigitOf(s[i]) >= 0 }

  function ValueOf(s: string): (n: nat)
    requires IsHex(s)
  {
    if s == [] then 0 else 16 * ValueOf(s[..|s| - 1]) + DigitOf(s[|s| - 1])
  }

  lemma DigitRoundTrip(n: nat)
    requires n < 16
    ensures DigitOf(HexDigit(n)) == n
  {
  }

  lemma {:induction false} HexRoundTrip(n: nat, width: nat)
    requires n < Pow16(width)
    ensures IsHex(Hex(n, width)) && ValueOf(Hex(n, width)) == n
  {
    if width > 0 {
      HexRoundTrip(n / 16, width - 1);
      DigitRoundTrip(n % 16);
      var s := Hex(n, width);
      assert s[..width - 1] == Hex(n / 16, width - 1) && s[width - 1] == HexDigit(n % 16);
      assert forall i | 0 <= i < width - 1 :: s[i] == Hex(n / 16, width - 1)[i];
    }
  }

  lemma {:induction false} ValueBound(s: string)
    requires IsHex(s)
    ensures ValueOf(s) < Pow16(|s|)
  {
    if s != [] { ValueBound(s[..|s| - 1]); }
  }
}
