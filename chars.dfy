/**
 * Character classes and string helpers of the Java standard library that the scanner relies on,
 * restricted to ASCII (see README, "Left out").
 */
module Chars {

  predicate IsUpper(c: char) { 'A' <= c <= 'Z' }

  predicate IsLower(c: char) { 'a' <= c <= 'z' }

  /** Character.isDigit and the regex class \d, on ASCII. */
  predicate IsDigit(c: char) { '0' <= c <= '9' }

  /** The regex class [A-Z0-9]. */
  predicate IsUpperAlnum(c: char) { IsUpper(c) || IsDigit(c) }

  /** The regex class \w, which also decides where \b holds. */
  predicate IsWordChar(c: char) { IsUpper(c) || IsLower(c) || IsDigit(c) || c == '_' }

  /** The regex class \s: space, tab, line feed, vertical tab, form feed, carriage return. */
  predicate IsRegexSpace(c: char) {
    c == ' ' || c == '\t' || c == '\n' || c == '\U{B}' || c == '\U{C}' || c == '\r'
  }

  /** Character.isWhitespace on ASCII: \s plus the four information separators U+001C..U+001F. */
  predicate IsJavaWhitespace(c: char) { IsRegexSpace(c) || '\U{1C}' <= c <= '\U{1F}' }

  predicate AllDigits(s: string) { forall k :: 0 <= k < |s| ==> IsDigit(s[k]) }

  predicate AllUpperAlnum(s: string) { forall k :: 0 <= k < |s| ==> IsUpperAlnum(s[k]) }

  function DigitValue(c: char): int { c as int - '0' as int }

  function DigitChar(d: nat): (c: char)
    requires d < 10
    ensures IsDigit(c) && DigitValue(c) == d
  {
    ('0' as int + d) as char
  }

  /** The decimal numeral of a natural number, most significant digit first, no leading zero. */
  function NatToDecimal(n: nat): (s: string)
    ensures 1 <= |s| && AllDigits(s)
    ensures n < 10 <==> |s| == 1
    ensures n < 100 ==> |s| <= 2
  {
    if n < 10 then [DigitChar(n)] else NatToDecimal(n / 10) + [DigitChar(n % 10)]
  }

  /** Integer.toString, which StringBuilder.append(int) uses: a minus sign for negative values. */
  function IntToDecimal(n: int): string {
    if n < 0 then "-" + NatToDecimal(-n) else NatToDecimal(n)
  }

  /** String.startsWith. */
  predicate StartsWith(s: string, prefix: string) {
    |prefix| <= |s| && s[..|prefix|] == prefix
  }

  /** String.join(sep, xs). */
  function Join(sep: string, xs: seq<string>): string {
    if |xs| == 0 then ""
    else if |xs| == 1 then xs[0]
    else xs[0] + sep + Join(sep, xs[1..])
  }

  /** Joining one more string appends the separator and that string. */
  lemma {:induction false} JoinSnoc(sep: string, xs: seq<string>, x: string)
    requires |xs| >= 1
    ensures Join(sep, xs + [x]) == Join(sep, xs) + sep + x
    decreases |xs|
  {
    if |xs| > 1 {
      assert (xs + [x])[1..] == xs[1..] + [x];
      JoinSnoc(sep, xs[1..], x);
    }
  }

  /** Every joined string occurs in the result, at offset p. */
  lemma {:induction false} JoinHasElement(sep: string, xs: seq<string>, i: nat) returns (p: nat)
    requires i < |xs|
    ensures p + |xs[i]| <= |Join(sep, xs)| && Join(sep, xs)[p..p + |xs[i]|] == xs[i]
    decreases i
  {
    if i == 0 {
      p := 0;
      assert Join(sep, xs)[..|xs[0]|] == xs[0];
    } else {
      var q := JoinHasElement(sep, xs[1..], i - 1);
      var rest := Join(sep, xs[1..]);
      p := |xs[0]| + |sep| + q;
      assert Join(sep, xs) == (xs[0] + sep) + rest;
      assert Join(sep, xs)[p..p + |xs[i]|] == rest[q..q + |xs[i]|];
    }
  }

  /** ASCII upper-casing of one character (String.toUpperCase restricted to ASCII). */
  function UpperChar(c: char): (u: char)
    ensures IsLower(c) ==> IsUpper(u)
    ensures !IsLower(c) ==> u == c
  {
    if IsLower(c) then (c as int - 32) as char else c
  }
}
