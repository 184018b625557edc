/**
 * Decimal text of integers as JavaScript's `String(n)` writes it (no leading
 * zeros, a `-` before negative values), `padStart` with a fill character, and
 * a reader for the same text used to state round trips.
 */
module Decimal {
  import opened Wrappers

  predicate IsDigit(c: char) {
    '0' <= c <= '9'
  }

  predicate AllDigits(s: string) {
    forall i :: 0 <= i < |s| ==> IsDigit(s[i])
  }

  function DigitValue(c: char): (d: nat)
    requires IsDigit(c)
    ensures d < 10
  {
    (c as int) - ('0' as int)
  }

  function DigitChar(d: nat): (c: char)
    requires d < 10
    ensures IsDigit(c) && DigitValue(c) == d
  {
    (('0' as int) + d) as char
  }

  function Pow10(k: nat): (p: nat)
    ensures p >= 1
  {
    if k == 0 then 1 else 10 * Pow10(k - 1)
  }

  /** `String(n)` for a non-negative integer. */
  function NatToString(n: nat): (s: string)
    ensures |s| >= 1 && AllDigits(s)
    ensures s[0] == '0' ==> n == 0
  {
    if n < 10 then [DigitChar(n)] else NatToString(n / 10) + [DigitChar(n % 10)]
  }

  /** `String(i)` for any integer. */
  function IntToString(i: int): (s: string)
    ensures |s| >= 1
    ensures s[0] == '-' <==> i < 0
  {
    if i < 0 then "-" + NatToString(-i) else NatToString(i)
  }

  /** `s.padStart(width, [fill])`: fill is prepended until the text is `width` long. */
  function PadStart(s: string, width: nat, fill: char): (r: string)
    ensures |r| == if |s| >= width then |s| else width
    ensures r[|r| - |s|..] == s
    ensures forall i :: 0 <= i < |r| - |s| ==> r[i] == fill
  {
    if |s| >= width then s else seq(width - |s|, _ => fill) + s
  }

  /** Reads a non-empty run of decimal digits (leading zeros allowed). */
  function ParseNat(s: string): (r: Option<nat>)
    ensures r.Some? <==> |s| >= 1 && AllDigits(s)
    decreases |s|
  {
    if |s| == 0 || !IsDigit(s[|s| - 1]) then None
    else if |s| == 1 then Some(DigitValue(s[0]))
    else match ParseNat(s[..|s| - 1])
      case None => None
      case Some(p) => Some(10 * p + DigitValue(s[|s| - 1]))
  }

  /** Reads what `IntToString` writes. */
  function ParseInt(s: string): (r: Option<int>)
    ensures r.Some? ==> |s| >= 1 && (r.value < 0 <==> s[0] == '-')
  {
    if |s| > 0 && s[0] == '-' then
      match ParseNat(s[1..])
      case None => None
      case Some(n) => if n == 0 then None else Some(-(n as int))
    else
      match ParseNat(s)
      case None => None
      case Some(n) => Some(n)
  }

  lemma {:induction false} ParseNatToString(n: nat)
    ensures ParseNat(NatToString(n)) == Some(n)
  {
    if n >= 10 {
      var s := NatToString(n);
      assert s[..|s| - 1] == NatToString(n / 10);
      ParseNatToString(n / 10);
    }
  }

  lemma ParseIntToString(i: int)
    ensures ParseInt(IntToString(i)) == Some(i)
  {
    ParseNatToString(if i < 0 then -i else i);
    if i < 0 {
      assert IntToString(i)[1..] == NatToString(-i);
    } else {
      assert NatToString(i)[0] != '-';
    }
  }

  /** The text of `n` is `k + 1` digits long exactly when 10^k <= n < 10^(k+1). */
  lemma {:induction false} NatToStringLength(n: nat, k: nat)
    requires Pow10(k) <= n < Pow10(k + 1)
    ensures |NatToString(n)| == k + 1
  {
    if k > 0 {
      NatToStringLength(n / 10, k - 1);
    }
  }

  lemma TextOfOneDigit(k: nat)
    requires k < 10
    ensures NatToString(k) == [DigitChar(k)]
  {
  }

  lemma TextOfTwoDigits(k: nat)
    requires 10 <= k <= 99
    ensures NatToString(k) == [DigitChar(k / 10), DigitChar(k % 10)]
  {
    TextOfOneDigit(k / 10);
  }

  lemma ParseTwoChars(a: char, b: char)
    requires IsDigit(a) && IsDigit(b)
    ensures ParseNat([a, b]) == Some(10 * DigitValue(a) + DigitValue(b))
  {
    assert [a, b][..1] == [a];
  }

  /** A number from 1 to 99 padded to two characters gives its two decimal digits. */
  lemma TwoDigits(k: nat)
    requires 1 <= k <= 99
    ensures var r := PadStart(NatToString(k), 2, '0');
      r == [DigitChar(k / 10), DigitChar(k % 10)] && ParseNat(r) == Some(k)
  {
    var r := PadStart(NatToString(k), 2, '0');
    if k < 10 {
      TextOfOneDigit(k);
      assert r == seq(1, _ => '0') + [DigitChar(k)];
      assert seq(1, _ => '0') == [DigitChar(0)];
    } else {
      TextOfTwoDigits(k);
    }
    ParseTwoChars(DigitChar(k / 10), DigitChar(k % 10));
  }
}
