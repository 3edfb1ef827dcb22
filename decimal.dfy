/** Decimal text of natural numbers, as JavaScript's `Number.prototype.toString()`
    writes the non-negative integers a double holds exactly below 10^21 (from
    10^21 it switches to exponent form, and above 2^53 it rounds), and the value
    a digit string has under unary `+` (leading zeros are ignored). */
module Decimal {

  /** 10 to the power k. */
  function Pow10(k: nat): (p: nat)
    ensures p >= 1
    ensures k >= 1 ==> p >= 10
  {
    if k == 0 then 1 else 10 * Pow10(k - 1)
  }

  predicate IsDigit(c: char) {
    '0' <= c <= '9'
  }

  function DigitChar(d: nat): (c: char)
    requires d < 10
    ensures IsDigit(c)
  {
    "0123456789"[d]
  }

  function DigitValue(c: char): (d: nat)
    ensures d < 10
    ensures IsDigit(c) ==> DigitChar(d) == c
  {
    if IsDigit(c) then (c as int) - ('0' as int) else 0
  }

  /** The decimal text of n: no sign, no leading zero, "0" for zero. */
  function NatToString(n: nat): (s: string)
    ensures 1 <= |s|
    ensures forall i :: 0 <= i < |s| ==> IsDigit(s[i])
    ensures |s| > 1 ==> s[0] != '0'
    ensures n < 10 <==> |s| == 1
  {
    if n < 10 then [DigitChar(n)] else NatToString(n / 10) + [DigitChar(n % 10)]
  }

  /** The value of a digit string, most significant digit first. */
  function ParseDigits(s: string): nat {
    if s == [] then 0 else 10 * ParseDigits(s[..|s| - 1]) + DigitValue(s[|s| - 1])
  }

  lemma DivModUnique(n: int, d: int, q: int, r: int)
    requires d > 0 && 0 <= r < d && n == q * d + r
    ensures n / d == q && n % d == r
  {
    var q0, r0 := n / d, n % d;
    var x := q - q0;
    assert x * d == r0 - r by {
      assert q * d == q0 * d + x * d;
    }
    MulBound(x, d);
  }

  lemma MulBound(x: int, d: int)
    requires d > 0
    ensures x >= 1 ==> x * d >= d
    ensures x <= -1 ==> x * d <= -d
  {
    if x >= 1 {
      assert x * d == (x - 1) * d + d;
      assert (x - 1) * d >= 0;
    } else if x <= -1 {
      assert x * d == -((-x) * d);
      assert (-x - 1) * d >= 0;
      assert (-x) * d == (-x - 1) * d + d;
    }
  }

  /** Dropping the last decimal digit, then k more, drops k + 1 digits. */
  lemma DivModStep(n: nat, p: nat)
    requires p >= 1
    ensures (n / 10) / p == n / (10 * p)
    ensures 10 * ((n / 10) % p) + n % 10 == n % (10 * p)
  {
    var a := n / 10;
    assert a == (a / p) * p + a % p;
    assert n == (a / p) * (10 * p) + (10 * (a % p) + n % 10);
    DivModUnique(n, 10 * p, a / p, 10 * (a % p) + n % 10);
  }

  /** Unary `+` recovers the number from its own decimal text. */
  lemma {:induction false} ParseNatToString(n: nat)
    ensures ParseDigits(NatToString(n)) == n
  {
    var s := NatToString(n);
    if n >= 10 {
      var t := NatToString(n / 10);
      ParseNatToString(n / 10);
      assert s == t + [DigitChar(n % 10)];
      assert s[..|s| - 1] == t;
      ParseLast(s, n % 10);
    } else {
      ParseLast(s, n);
      assert s[..0] == [];
    }
  }

  /** The text of n has at most k digits exactly when n < 10^k. */
  lemma {:induction false} LengthBound(n: nat, k: nat)
    requires k >= 1
    ensures |NatToString(n)| <= k <==> n < Pow10(k)
  {
    if n >= 10 && k >= 2 {
      LengthBound(n / 10, k - 1);
    }
  }

  /** n with its last k decimal digits dropped. */
  function DropDigits(n: nat, k: nat): nat {
    if k == 0 then n else DropDigits(n / 10, k - 1)
  }

  /** The number formed by the last k decimal digits of n. */
  function LowDigits(n: nat, k: nat): nat {
    if k == 0 then 0 else 10 * LowDigits(n / 10, k - 1) + n % 10
  }

  /** Dropping and keeping the last k digits are division and remainder by 10^k. */
  lemma {:induction false} DropLowDivMod(n: nat, k: nat)
    ensures DropDigits(n, k) == n / Pow10(k)
    ensures LowDigits(n, k) == n % Pow10(k)
  {
    if k > 0 {
      DropLowDivMod(n / 10, k - 1);
      DivModStep(n, Pow10(k - 1));
    }
  }

  /** Splitting the text of n before its last k digits: the head is the text of
      n without those digits. */
  lemma {:induction false} SplitHead(n: nat, k: nat)
    requires |NatToString(n)| > k
    ensures NatToString(n)[..|NatToString(n)| - k] == NatToString(DropDigits(n, k))
  {
    var s := NatToString(n);
    if k > 0 {
      var t := NatToString(n / 10);
      assert s == t + [DigitChar(n % 10)];
      SplitHead(n / 10, k - 1);
      assert s[..|s| - k] == t[..|t| - (k - 1)];
    }
  }

  /** ... and the last k characters read back, under unary `+`, as the number
      they form. */
  lemma {:induction false} SplitTail(n: nat, k: nat)
    requires |NatToString(n)| > k
    ensures ParseDigits(NatToString(n)[|NatToString(n)| - k..]) == LowDigits(n, k)
  {
    var s := NatToString(n);
    if k == 0 {
      assert s[|s|..] == [];
    } else {
      var t := NatToString(n / 10);
      assert s == t + [DigitChar(n % 10)];
      SplitTail(n / 10, k - 1);
      var tail := s[|s| - k..];
      assert tail[..|tail| - 1] == t[|t| - (k - 1)..];
      assert tail[|tail| - 1] == DigitChar(n % 10);
      ParseLast(tail, n % 10);
    }
  }

  lemma ParseLast(s: string, d: nat)
    requires |s| >= 1 && d < 10 && s[|s| - 1] == DigitChar(d)
    ensures ParseDigits(s) == 10 * ParseDigits(s[..|s| - 1]) + d
  {
    assert DigitValue(DigitChar(d)) == d;
  }
}
