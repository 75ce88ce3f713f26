/**
 Python's `str(n)` for an integer: the decimal text that the `%s`
 conversion writes for an HTTP status number, and its inverse.
 */
module Decimal {

  predicate IsDigit(c: char)
  {
    '0' <= c <= '9'
  }

  /** A non-empty run of decimal digits. */
  predicate IsDigits(s: string)
  {
    |s| > 0 && forall i :: 0 <= i < |s| ==> IsDigit(s[i])
  }

  function DigitChar(d: nat): (c: char)
    requires d < 10
    ensures IsDigit(c) && DigitValue(c) == d
  {
    ('0' as int + d) as char
  }

  function DigitValue(c: char): nat
    requires IsDigit(c)
  {
    c as int - '0' as int
  }

  /** Decimal digits of `n`, most significant first, without leading zeros. */
  function NatStr(n: nat): (s: string)
    ensures IsDigits(s)
    ensures s[0] == '0' <==> n == 0
    decreases n
  {
    if n < 10 then [DigitChar(n)] else NatStr(n / 10) + [DigitChar(n % 10)]
  }

  /** `str(n)`: a leading `-` for negative numbers, then the digits. */
  function Str(n: int): (s: string)
    ensures |s| > 0
    ensures s[0] == '-' <==> n < 0
  {
    if n < 0 then "-" + NatStr(-n) else NatStr(n)
  }

  /** The value of a run of decimal digits. */
  function ParseNat(s: string): nat
    requires IsDigits(s)
    decreases |s|
  {
    var last := s[|s| - 1];
    if |s| == 1 then DigitValue(last)
    else
      var init := s[..|s| - 1];
      assert IsDigits(init) by {
        forall i | 0 <= i < |init| ensures IsDigit(init[i]) {
          assert init[i] == s[i];
        }
      }
      ParseNat(init) * 10 + DigitValue(last)
  }

  /** The texts `Parse` accepts: digits, optionally after a `-`. */
  predicate IsIntText(s: string)
  {
    IsDigits(s) || (|s| > 1 && s[0] == '-' && IsDigits(s[1..]))
  }

  /** Python's `int(s)` on the texts that `str` produces. */
  function Parse(s: string): int
    requires IsIntText(s)
  {
    if s[0] == '-' then -(ParseNat(s[1..]) as int) else ParseNat(s)
  }

  lemma {:induction false} NatStrRoundTrip(n: nat)
    ensures ParseNat(NatStr(n)) == n
    decreases n
  {
    if n >= 10 {
      NatStrRoundTrip(n / 10);
      var s := NatStr(n);
      assert s[..|s| - 1] == NatStr(n / 10);
      assert s[|s| - 1] == DigitChar(n % 10);
    }
  }

  /** Reading back the text of a status gives the status: no two statuses share a text. */
  lemma StrRoundTrip(n: int)
    ensures IsIntText(Str(n)) && Parse(Str(n)) == n
  {
    if n < 0 {
      NatStrRoundTrip(-n);
      assert Str(n)[1..] == NatStr(-n);
    } else {
      NatStrRoundTrip(n);
    }
  }

  /** The text of a number holds no space, so it ends where `" - "` begins. */
  lemma NoSpaceInStr(n: int)
    ensures ' ' !in Str(n)
  {
    var d := NatStr(if n < 0 then -n else n);
    assert forall i :: 0 <= i < |d| ==> IsDigit(d[i]);
    if n < 0 {
      assert Str(n) == "-" + d;
      assert forall i :: 1 <= i < |Str(n)| ==> Str(n)[i] == d[i - 1];
    }
  }

  lemma StrInjective(a: int, b: int)
    ensures Str(a) == Str(b) <==> a == b
  {
    StrRoundTrip(a);
    StrRoundTrip(b);
  }
}
