/** Decimal text forms of numbers, as Python's `str`/`unicode` and `%0Nd` formatting
    write them, and the parsers that read them back. */
module Digits {
  import opened Wrappers

  predicate IsDigit(c: char) { '0' <= c <= '9' }

  predicate AllDigits(s: string) { forall i :: 0 <= i < |s| ==> IsDigit(s[i]) }

  function DigitChar(d: nat): (c: char)
    requires d < 10
    ensures IsDigit(c)
  {
    ('0' as int + d) as char
  }

  function DigitValue(c: char): (d: nat)
    requires IsDigit(c)
    ensures d < 10
  {
    c as int - '0' as int
  }

  function Pow10(k: nat): (r: nat)
    ensures r >= 1
  {
    if k == 0 then 1 else 10 * Pow10(k - 1)
  }

  /** The value of a string of decimal digits, most significant first. */
  function ParseDigits(s: string): nat
    requires AllDigits(s)
  {
    if s == [] then 0 else 10 * ParseDigits(s[..|s| - 1]) + DigitValue(s[|s| - 1])
  }

  /** The last `width` decimal digits of `n`, zero-padded on the left (`'%0*d' % (width, n)`
      for `n` below `10^width`). */
  function Padded(n: nat, width: nat): (s: string)
    ensures |s| == width && AllDigits(s)
  {
    if width == 0 then "" else Padded(n / 10, width - 1) + [DigitChar(n % 10)]
  }

  /** `str(n)` for a non-negative integer: the shortest decimal form, without leading zeros. */
  function NatText(n: nat): (s: string)
    ensures 1 <= |s| && AllDigits(s)
    ensures s[0] == '0' ==> n == 0
  {
    if n < 10 then [DigitChar(n)] else NatText(n / 10) + [DigitChar(n % 10)]
  }

  /** `str(i)` for any integer. */
  function IntText(i: int): (s: string)
    ensures s != ""
  {
    if i < 0 then "-" + NatText(-i) else NatText(i)
  }

  /** Reads back what `IntText` writes: an optional minus sign and at least one digit. */
  function ParseInt(s: string): Option<int>
  {
    if |s| >= 2 && s[0] == '-' && AllDigits(s[1..]) then Some(-(ParseDigits(s[1..]) as int))
    else if |s| >= 1 && AllDigits(s) then Some(ParseDigits(s))
    else None
  }

  lemma {:induction false} PaddedRoundTrip(n: nat, width: nat)
    requires n < Pow10(width)
    ensures ParseDigits(Padded(n, width)) == n
  {
    if width > 0 {
      var s := Padded(n, width);
      assert s[..width - 1] == Padded(n / 10, width - 1);
      PaddedRoundTrip(n / 10, width - 1);
    }
  }

  lemma {:induction false} NatTextRoundTrip(n: nat)
    ensures ParseDigits(NatText(n)) == n
  {
    if n >= 10 {
      var s := NatText(n);
      assert s[..|s| - 1] == NatText(n / 10);
      NatTextRoundTrip(n / 10);
    } else {
      assert NatText(n)[..0] == [];
    }
  }

  lemma IntTextRoundTrip(i: int)
    ensures ParseInt(IntText(i)) == Some(i)
  {
    var s := IntText(i);
    if i < 0 {
      var t := NatText(-i);
      assert s == "-" + t && s[1..] == t && |s| >= 2 && s[0] == '-';
      NatTextRoundTrip(-i);
    } else {
      assert s == NatText(i) && IsDigit(s[0]) && s[0] != '-';
      NatTextRoundTrip(i);
    }
  }
}
