/**
 * Decimal numerals, Java's BigInteger(String) parser, and the MOD 97-10 check of ISO/IEC 7064
 * that ISO 13616-1 applies to IBANs.
 */
module Mod97 {
  import opened Outcomes
  import opened Chars

  function Pow10(n: nat): (p: nat)
    ensures p >= 1
  {
    if n == 0 then 1 else 10 * Pow10(n - 1)
  }

  /** The value of a string of decimal digits, read most significant digit first. */
  function NumeralValue(d: string): int {
    if d == [] then 0 else NumeralValue(d[..|d| - 1]) * 10 + DigitValue(d[|d| - 1])
  }

  lemma {:induction false} NumeralValueBounds(d: string)
    requires AllDigits(d)
    ensures 0 <= NumeralValue(d) < Pow10(|d|)
  {
    if d != [] {
      NumeralValueBounds(d[..|d| - 1]);
    }
  }

  /** Reading a numeral in two parts: the value of a + b is a's value shifted by |b| digits plus b's. */
  lemma {:induction false} NumeralConcat(a: string, b: string)
    ensures NumeralValue(a + b) == NumeralValue(a) * Pow10(|b|) + NumeralValue(b)
  {
    if b == [] {
      assert a + b == a;
    } else {
      var b' := b[..|b| - 1];
      assert (a + b)[..|a + b| - 1] == a + b';
      NumeralConcat(a, b');
      calc {
        NumeralValue(a + b);
        NumeralValue(a + b') * 10 + DigitValue(b[|b| - 1]);
        (NumeralValue(a) * Pow10(|b'|) + NumeralValue(b')) * 10 + DigitValue(b[|b| - 1]);
        NumeralValue(a) * (Pow10(|b'|) * 10) + (NumeralValue(b') * 10 + DigitValue(b[|b| - 1]));
        NumeralValue(a) * Pow10(|b|) + NumeralValue(b);
      }
    }
  }

  /** Reading back the digits Integer.toString writes for a natural number gives that number. */
  lemma {:induction false} NatToDecimalValue(n: nat)
    ensures NumeralValue(NatToDecimal(n)) == n
  {
    if n >= 10 {
      var s := NatToDecimal(n / 10) + [DigitChar(n % 10)];
      assert s[..|s| - 1] == NatToDecimal(n / 10);
      NatToDecimalValue(n / 10);
    }
  }

  /**
   * new BigInteger(s) in radix 10: an optional '-' or '+' followed by one or more decimal digits;
   * anything else raises NumberFormatException, modelled as None.
   */
  function ParseBigInteger(s: string): (r: Option<int>)
    ensures r.Some? <==> (AllDigits(s) && |s| >= 1) || (|s| >= 2 && (s[0] == '-' || s[0] == '+') && AllDigits(s[1..]))
    ensures r.Some? && AllDigits(s) ==> r.value == NumeralValue(s)
  {
    if |s| >= 1 && (s[0] == '-' || s[0] == '+') then
      if |s| >= 2 && AllDigits(s[1..]) then
        Some(if s[0] == '-' then -NumeralValue(s[1..]) else NumeralValue(s[1..]))
      else None
    else if |s| >= 1 && AllDigits(s) then Some(NumeralValue(s))
    else None
  }

  /** Parsing is the inverse of Integer.toString, for every int. */
  lemma ParseIntToDecimal(n: int)
    ensures ParseBigInteger(IntToDecimal(n)) == Some(n)
  {
    if n < 0 {
      var s := "-" + NatToDecimal(-n);
      assert s[1..] == NatToDecimal(-n);
      NatToDecimalValue(-n);
    } else {
      NatToDecimalValue(n);
    }
  }

  /**
   * new BigInteger(numeral).mod(BigInteger.valueOf(97)).intValue() == 1, and false when the numeral
   * does not parse. BigInteger.mod never returns a negative value, like Dafny's % on int.
   */
  predicate Mod97Check(numeral: string)
    ensures Mod97Check(numeral) ==> ParseBigInteger(numeral).Some?
    ensures AllDigits(numeral) && |numeral| >= 1 ==> (Mod97Check(numeral) <==> NumeralValue(numeral) % 97 == 1)
  {
    match ParseBigInteger(numeral)
    case None => false
    case Some(v) => v % 97 == 1
  }

  /**
   * The remainder of ISO/IEC 7064 MOD 97-10 computed piece by piece: starting from the running
   * remainder r, for each of the first n digits of d the running remainder is multiplied by ten,
   * the digit added, and the sum reduced modulo 97.
   */
  function RunningRemainder(r: int, d: string, n: nat): (q: int)
    requires 0 <= r < 97 && n <= |d|
    ensures 0 <= q < 97
  {
    if n == 0 then r else (RunningRemainder(r, d, n - 1) * 10 + DigitValue(d[n - 1])) % 97
  }

  /** The piecewise remainder of a whole numeral, starting from 0. */
  function PiecewiseRemainder(d: string): (r: int)
    ensures 0 <= r < 97
  {
    RunningRemainder(0, d, |d|)
  }

  /** The running remainder over the first n digits of d is that of the value of those digits. */
  lemma {:induction false} RunningRemainderIsRemainder(d: string, n: nat)
    requires n <= |d|
    ensures RunningRemainder(0, d, n) == NumeralValue(d[..n]) % 97
  {
    if n > 0 {
      RunningRemainderIsRemainder(d, n - 1);
      assert d[..n][..n - 1] == d[..n - 1];
      ModTimesTenPlus(NumeralValue(d[..n - 1]), DigitValue(d[n - 1]));
    }
  }

  /** The piecewise remainder is the remainder of the whole numeral. */
  lemma PiecewiseIsRemainder(d: string)
    ensures PiecewiseRemainder(d) == NumeralValue(d) % 97
  {
    RunningRemainderIsRemainder(d, |d|);
    assert d[..|d|] == d;
  }

  /** Digits after the first n do not affect the running remainder over the first n. */
  lemma {:induction false} RunningRemainderPrefix(r: int, a: string, b: string, n: nat)
    requires 0 <= r < 97 && n <= |a|
    ensures RunningRemainder(r, a + b, n) == RunningRemainder(r, a, n)
  {
    if n > 0 {
      RunningRemainderPrefix(r, a, b, n - 1);
      assert (a + b)[n - 1] == a[n - 1];
    }
  }

  /** The piecewise computation over a + b continues the one over a with the digits of b. */
  lemma {:induction false} RunningRemainderConcat(r: int, a: string, b: string, n: nat)
    requires 0 <= r < 97 && n <= |b|
    ensures RunningRemainder(r, a + b, |a| + n) == RunningRemainder(RunningRemainder(r, a, |a|), b, n)
  {
    if n == 0 {
      RunningRemainderPrefix(r, a, b, |a|);
    } else {
      RunningRemainderConcat(r, a, b, n - 1);
      assert (a + b)[|a| + n - 1] == b[n - 1];
    }
  }

  /** The piecewise remainder of a + b, from the piecewise remainder of a. */
  lemma PiecewiseConcat(a: string, b: string)
    ensures PiecewiseRemainder(a + b) == RunningRemainder(PiecewiseRemainder(a), b, |b|)
  {
    RunningRemainderConcat(0, a, b, |b|);
  }

  lemma ModTimesTenPlus(v: int, x: int)
    ensures ((v % 97) * 10 + x) % 97 == (v * 10 + x) % 97
  {
    var q := v / 97;
    assert v == 97 * q + v % 97;
    assert v * 10 + x == 97 * (10 * q) + ((v % 97) * 10 + x);
  }

  /** For an all-digit numeral, Mod97Check is the ISO 7064 MOD 97-10 test "remainder is 1". */
  lemma Mod97CheckOfDigits(d: string)
    requires 1 <= |d| && AllDigits(d)
    ensures Mod97Check(d) <==> PiecewiseRemainder(d) == 1
  {
    PiecewiseIsRemainder(d);
  }

  /** 97 is prime and does not divide 10: x * 10 is a multiple of 97 only when x is. */
  lemma TimesTenMultipleOf97(x: int)
    requires (x * 10) % 97 == 0
    ensures x % 97 == 0
  {
    var q := (x * 10) / 97;
    assert x * 10 == 97 * q;
    assert x == 97 * (68 * q - 7 * x);
  }

  /** A non-zero difference smaller than 97, shifted by any number of decimal places, is never a multiple of 97. */
  lemma {:induction false} ShiftedDifferenceNotMultiple(delta: int, m: nat)
    requires 0 < delta < 97 || -97 < delta < 0
    ensures (delta * Pow10(m)) % 97 != 0
  {
    if m > 0 {
      ShiftedDifferenceNotMultiple(delta, m - 1);
      assert delta * Pow10(m) == (delta * Pow10(m - 1)) * 10;
      if (delta * Pow10(m)) % 97 == 0 {
        TimesTenMultipleOf97(delta * Pow10(m - 1));
      }
    }
  }

  /**
   * Replacing one block of a numeral by another block of the same length whose value differs by less
   * than 97 always changes the remainder modulo 97: the substitution is detected.
   */
  lemma SubstitutionChangesRemainder(a: string, x: string, y: string, b: string)
    requires |x| == |y|
    requires NumeralValue(x) != NumeralValue(y)
    requires -97 < NumeralValue(x) - NumeralValue(y) < 97
    ensures NumeralValue(a + x + b) % 97 != NumeralValue(a + y + b) % 97
  {
    NumeralConcat(a, x);
    NumeralConcat(a, y);
    NumeralConcat(a + x, b);
    NumeralConcat(a + y, b);
    var wx, wy := NumeralValue(a + x), NumeralValue(a + y);
    var u, v := NumeralValue(a + x + b), NumeralValue(a + y + b);
    var pb := Pow10(|b|);
    var delta := NumeralValue(x) - NumeralValue(y);
    assert wx - wy == delta;
    assert u - v == wx * pb - wy * pb;
    MulDifference(wx, wy, pb);
    ShiftedDifferenceNotMultiple(delta, |b|);
    DifferentRemainders(u, v);
  }

  lemma MulDifference(p: int, q: int, r: int)
    ensures p * r - q * r == (p - q) * r
  {
  }

  lemma DifferentRemainders(u: int, v: int)
    requires (u - v) % 97 != 0
    ensures u % 97 != v % 97
  {
  }
}
