/** Decimal text of integers, as the wrapper produces it in two places:
    `std::to_string(int)` for the throttle key and fmt's zero-padded
    `{:0Nd}` for the date stamp of an extra log file. Each rendering comes
    with a parser so that its meaning is stated as a round trip. */
module Decimal {

  predicate IsDigit(c: char) {
    '0' <= c <= '9'
  }

  predicate AllDigits(s: string) {
    forall i :: 0 <= i < |s| ==> IsDigit(s[i])
  }

  /** Text that `std::to_string` can produce: digits, optionally after one minus sign. */
  predicate IsIntText(s: string) {
    || (|s| >= 1 && AllDigits(s))
    || (|s| >= 2 && s[0] == '-' && AllDigits(s[1..]))
  }

  function DigitChar(d: nat): (c: char)
    requires d < 10
    ensures IsDigit(c)
  {
    (('0' as int) + d) as char
  }

  function DigitValue(c: char): (d: nat)
    requires IsDigit(c)
    ensures d < 10 && DigitChar(d) == c
  {
    (c as int) - ('0' as int)
  }

  function Pow10(k: nat): (p: nat)
    ensures p >= 1
  {
    if k == 0 then 1 else 10 * Pow10(k - 1)
  }

  function Max(a: int, b: int): int {
    if a < b then b else a
  }

  /** The value of a string of decimal digits, most significant first. */
  function ParseNat(s: string): nat
    requires AllDigits(s)
  {
    if s == [] then 0 else DigitValue(s[0]) * Pow10(|s| - 1) + ParseNat(s[1..])
  }

  /** The value of text shaped like `std::to_string`'s output. */
  function ParseInt(s: string): int
    requires IsIntText(s)
  {
    if s[0] == '-' then 0 - ParseNat(s[1..]) as int else ParseNat(s)
  }

  /** The shortest decimal text of `n`: no leading zero unless `n` is zero. */
  function NatDigits(n: nat): (s: string)
    ensures |s| >= 1 && AllDigits(s)
    ensures s[0] == '0' ==> n == 0 && |s| == 1
  {
    if n < 10 then [DigitChar(n)] else NatDigits(n / 10) + [DigitChar(n % 10)]
  }

  lemma {:induction false} ParseNatSnoc(s: string, c: char)
    requires AllDigits(s) && IsDigit(c)
    ensures AllDigits(s + [c])
    ensures ParseNat(s + [c]) == ParseNat(s) * 10 + DigitValue(c)
  {
    if s != [] {
      var rest := s[1..];
      assert (s + [c])[1..] == rest + [c];
      ParseNatSnoc(rest, c);
      var d := DigitValue(s[0]);
      calc {
        ParseNat(s + [c]);
        d * Pow10(|s|) + ParseNat(rest + [c]);
        d * (10 * Pow10(|s| - 1)) + ParseNat(rest) * 10 + DigitValue(c);
        { assert d * (10 * Pow10(|s| - 1)) == (d * Pow10(|s| - 1)) * 10; }
        (d * Pow10(|s| - 1) + ParseNat(rest)) * 10 + DigitValue(c);
      }
    } else {
      assert [c][1..] == [];
    }
  }

  /** Reading back the digits of `n` gives `n`. */
  lemma {:induction false} ParseNatDigits(n: nat)
    ensures ParseNat(NatDigits(n)) == n
  {
    if n < 10 {
      assert [DigitChar(n)][1..] == [];
    } else {
      ParseNatDigits(n / 10);
      ParseNatSnoc(NatDigits(n / 10), DigitChar(n % 10));
    }
  }

  /** `std::to_string` on an int: a minus sign for negative values, then the shortest digits. */
  function IntToString(n: int): (s: string)
    ensures IsIntText(s) && ParseInt(s) == n
    ensures s[0] == '-' <==> n < 0
    ensures var d := if n < 0 then s[1..] else s; d[0] == '0' ==> n == 0 && |d| == 1
    ensures forall i :: 0 <= i < |s| ==> s[i] != ':'
  {
    if n < 0 then
      ParseNatDigits(-n);
      var s := "-" + NatDigits(-n);
      assert s[1..] == NatDigits(-n);
      s
    else
      ParseNatDigits(n);
      NatDigits(n)
  }

  function Zeros(k: int): (s: string)
    ensures |s| == Max(k, 0) && AllDigits(s)
    ensures forall i :: 0 <= i < |s| ==> s[i] == '0'
  {
    if k <= 0 then "" else "0" + Zeros(k - 1)
  }

  lemma {:induction false} LeadingZeros(k: int, s: string)
    requires AllDigits(s)
    ensures AllDigits(Zeros(k) + s) && ParseNat(Zeros(k) + s) == ParseNat(s)
  {
    if k > 0 {
      var t := Zeros(k) + s;
      assert t[0] == '0' && t[1..] == Zeros(k - 1) + s;
      LeadingZeros(k - 1, s);
      assert AllDigits(t);
      assert DigitValue(t[0]) == 0;
    } else {
      assert Zeros(k) + s == s;
    }
  }

  /** fmt's `{:0<width>d}`: the decimal text of `n` padded with zeros after
      the sign up to `width` characters; never truncated. */
  function ZeroPad(n: int, width: nat): (s: string)
    ensures IsIntText(s) && ParseInt(s) == n
    ensures s[0] == '-' <==> n < 0
    ensures |s| == Max(width, |IntToString(n)|)
  {
    if n >= 0 then
      var d := NatDigits(n);
      ParseNatDigits(n);
      LeadingZeros(width - |d|, d);
      Zeros(width - |d|) + d
    else
      var d := NatDigits(-n);
      ParseNatDigits(-n);
      LeadingZeros(width - 1 - |d|, d);
      var s := "-" + (Zeros(width - 1 - |d|) + d);
      assert s[1..] == Zeros(width - 1 - |d|) + d;
      s
  }

  lemma {:induction false} NatDigitsFit(n: nat, k: nat)
    requires 1 <= k && n < Pow10(k)
    ensures |NatDigits(n)| <= k
  {
    if n >= 10 {
      assert k >= 2;
      NatDigitsFit(n / 10, k - 1);
    }
  }

  /** A non-negative value below 10^width is padded to exactly `width` digits
      that read back as that value. */
  lemma ZeroPadExact(n: int, width: nat)
    requires 1 <= width && 0 <= n < Pow10(width)
    ensures |ZeroPad(n, width)| == width && AllDigits(ZeroPad(n, width))
    ensures ParseNat(ZeroPad(n, width)) == n
  {
    NatDigitsFit(n, width);
  }
}
