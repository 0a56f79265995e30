/**
 * Decimal rendering of non-negative integers (`Number.prototype.toString()`
 * for integral values) and `String.prototype.padStart`, as used for order
 * numbers, client order ids and one-time passwords.
 */
module Decimal {
  import opened Text

  predicate AllDigits(s: string)
  {
    forall i :: 0 <= i < |s| ==> IsDigit(s[i])
  }

  function DigitChar(d: nat): (c: char)
    requires d < 10
    ensures IsDigit(c) && (c as int) - ('0' as int) == d
  {
    (('0' as int) + d) as char
  }

  function DigitValue(c: char): (d: nat)
    requires IsDigit(c)
    ensures d < 10
  {
    (c as int) - ('0' as int)
  }

  /** `n.toString()`: shortest decimal numeral, no leading zero. */
  function NatToString(n: nat): (s: string)
    ensures |s| >= 1 && AllDigits(s)
    ensures |s| > 1 ==> s[0] != '0'
    ensures n > 0 ==> s[0] != '0'
  {
    if n < 10 then [DigitChar(n)] else NatToString(n / 10) + [DigitChar(n % 10)]
  }

  /** The value of a string of decimal digits (most significant first). */
  function ParseDigits(s: string): nat
    requires AllDigits(s)
  {
    if s == [] then 0 else 10 * ParseDigits(s[..|s| - 1]) + DigitValue(s[|s| - 1])
  }

  function Pow10(k: nat): nat
  {
    if k == 0 then 1 else 10 * Pow10(k - 1)
  }

  /** Rendering and parsing are inverse: `parseInt(String(n)) === n`. */
  lemma {:induction false} ParseNatToString(n: nat)
    ensures ParseDigits(NatToString(n)) == n
  {
    var s := NatToString(n);
    if n >= 10 {
      ParseNatToString(n / 10);
      assert s[..|s| - 1] == NatToString(n / 10);
    }
  }

  /** The numeral of `n` has exactly `k` digits when `10^(k-1) <= n < 10^k`. */
  lemma {:induction false} NatToStringLength(n: nat, k: nat)
    requires k >= 1 && Pow10(k - 1) <= n < Pow10(k)
    ensures |NatToString(n)| == k
  {
    if n >= 10 {
      assert k >= 2;
      NatToStringLength(n / 10, k - 1);
    }
  }

  /** A numeral of `k` digits is below `10^k`. */
  lemma {:induction false} ParseBelow(s: string)
    requires AllDigits(s)
    ensures ParseDigits(s) < Pow10(|s|)
  {
    if s != [] {
      ParseBelow(s[..|s| - 1]);
    }
  }

  /** A numeral of `k` digits whose first digit is not zero is at least `10^(k-1)`. */
  lemma {:induction false} ParseAtLeast(s: string)
    requires AllDigits(s) && |s| >= 1 && s[0] != '0'
    ensures Pow10(|s| - 1) <= ParseDigits(s)
  {
    if |s| > 1 {
      ParseAtLeast(s[..|s| - 1]);
    } else {
      assert s[..0] == [];
    }
  }

  /** Distinct numbers render to distinct numerals. */
  lemma NatToStringInjective(m: nat, n: nat)
    requires NatToString(m) == NatToString(n)
    ensures m == n
  {
    ParseNatToString(m);
    ParseNatToString(n);
  }

  function Repeat(c: char, k: nat): (r: string)
    ensures |r| == k && forall i :: 0 <= i < k ==> r[i] == c
  {
    if k == 0 then [] else [c] + Repeat(c, k - 1)
  }

  /** `s.padStart(width, c)` for a one-character pad string. */
  function PadStart(s: string, width: nat, c: char): (r: string)
    ensures |r| == if |s| >= width then |s| else width
    ensures r[|r| - |s|..] == s
    ensures forall i :: 0 <= i < |r| - |s| ==> r[i] == c
  {
    if |s| >= width then s else Repeat(c, width - |s|) + s
  }

  /** Leading zeros added by padding do not change the value of a numeral. */
  lemma {:induction false} ParseLeadingZeros(z: nat, s: string)
    requires AllDigits(s)
    ensures AllDigits(Repeat('0', z) + s)
    ensures ParseDigits(Repeat('0', z) + s) == ParseDigits(s)
  {
    var t := Repeat('0', z) + s;
    if s == [] {
      ParseZeros(z);
      assert t == Repeat('0', z);
    } else {
      var init := s[..|s| - 1];
      ParseLeadingZeros(z, init);
      assert t[..|t| - 1] == Repeat('0', z) + init;
      assert t[|t| - 1] == s[|s| - 1];
    }
  }

  lemma {:induction false} ParseZeros(z: nat)
    ensures AllDigits(Repeat('0', z))
    ensures ParseDigits(Repeat('0', z)) == 0
  {
    if z > 0 {
      var r := Repeat('0', z);
      ParseZeros(z - 1);
      assert r[..|r| - 1] == Repeat('0', z - 1);
    }
  }
}
