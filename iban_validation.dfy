/**
 * IbanValidationService: the order-preserving filter over candidate IBANs. Each IBAN is sanitised,
 * checked against the configured pattern and length set, then handed to iban4j's IbanUtil.validate
 * (an oracle here); when iban4j does not know the country, a hand-written MOD 97-10 check decides.
 */
module IbanValidation {
  import opened Outcomes
  import opened Failures
  import opened Chars
  import opened Mod97
  import opened Lists

  /**
   * How IbanUtil.validate ends for a sanitised IBAN: it returns, or throws UnsupportedCountryException,
   * IbanFormatException or InvalidCheckDigitException. The last extends Iban4jException, not
   * IbanFormatException, so neither catch clause of isValidIban handles it.
   */
  datatype LibraryVerdict = Accepted | UnsupportedCountry | FormatRejected | CheckDigitRejected

  /**
   * The iban.validation configuration properties: the configured regular expression, as the
   * predicate "the pattern matches the whole string", and the set of accepted lengths.
   */
  datatype ValidationProperties = ValidationProperties(ibanPattern: string -> bool, validLengths: set<int>)

  /** The pattern ^[A-Z]{2}\d{2}[A-Z0-9]+$ that the service is configured with in its tests. */
  predicate ConfiguredPattern(s: string) {
    |s| >= 5 && IsUpper(s[0]) && IsUpper(s[1]) && IsDigit(s[2]) && IsDigit(s[3]) && AllUpperAlnum(s[4..])
  }

  /** The lengths 15 to 34 that the service is configured with in its tests. */
  const TestedLengths: set<int> := set n | 15 <= n <= 34

  const TestedProperties: ValidationProperties := ValidationProperties(ConfiguredPattern, TestedLengths)

  /** iban.replaceAll("\\s+", "").toUpperCase(): every \s character removed, ASCII letters upper-cased. */
  function Sanitize(iban: string): (s: string)
    ensures |s| <= |iban|
    ensures forall k :: 0 <= k < |s| ==> !IsRegexSpace(s[k]) && !IsLower(s[k])
  {
    if iban == [] then []
    else
      var c := iban[|iban| - 1];
      Sanitize(iban[..|iban| - 1]) + (if IsRegexSpace(c) then [] else [UpperChar(c)])
  }

  /** Sanitising works character by character: it distributes over concatenation. */
  lemma {:induction false} SanitizeConcat(a: string, b: string)
    ensures Sanitize(a + b) == Sanitize(a) + Sanitize(b)
  {
    if b != [] {
      var b' := b[..|b| - 1];
      assert (a + b)[..|a + b| - 1] == a + b';
      assert (a + b)[|a + b| - 1] == b[|b| - 1];
      SanitizeConcat(a, b');
    } else {
      assert a + b == a;
    }
  }

  /** A string without whitespace and lower-case letters is left as it is. */
  lemma {:induction false} SanitizeFixed(s: string)
    requires forall k :: 0 <= k < |s| ==> !IsRegexSpace(s[k]) && !IsLower(s[k])
    ensures Sanitize(s) == s
  {
    if s != [] {
      SanitizeFixed(s[..|s| - 1]);
    }
  }

  /** Sanitising twice is sanitising once. */
  lemma SanitizeIdempotent(iban: string)
    ensures Sanitize(Sanitize(iban)) == Sanitize(iban)
  {
    SanitizeFixed(Sanitize(iban));
  }

  /** isValidBasicFormat: the configured pattern matches the whole string and its length is configured. */
  predicate IsValidBasicFormat(props: ValidationProperties, iban: string) {
    props.ibanPattern(iban) && |iban| in props.validLengths
  }

  /** What convertIbanToDigits appends for one character: a digit itself, anything else c - 'A' + 10. */
  function DigitsBlock(c: char): string {
    if IsDigit(c) then [c] else IntToDecimal(c as int - 'A' as int + 10)
  }

  /** The numeral convertIbanToDigits builds; letters A..Z become the two-digit numbers 10..35. */
  function IbanDigits(s: string): (d: string)
    ensures AllUpperAlnum(s) ==> AllDigits(d) && |d| >= |s|
  {
    if s == [] then []
    else
      var c := s[|s| - 1];
      BlockShape(c);
      IbanDigits(s[..|s| - 1]) + DigitsBlock(c)
  }

  /**
   * The block of a digit is that digit; the block of an upper-case letter is the two digits of its
   * position in the alphabet plus ten.
   */
  lemma BlockShape(c: char)
    ensures IsDigit(c) ==> DigitsBlock(c) == [c]
    ensures IsUpper(c) ==> |DigitsBlock(c)| == 2 && AllDigits(DigitsBlock(c))
    ensures IsUpper(c) ==> NumeralValue(DigitsBlock(c)) == c as int - 'A' as int + 10
  {
    if IsUpper(c) {
      NatToDecimalValue(c as int - 'A' as int + 10);
    }
  }

  /** The conversion works character by character: it distributes over concatenation. */
  lemma {:induction false} IbanDigitsConcat(a: string, b: string)
    ensures IbanDigits(a + b) == IbanDigits(a) + IbanDigits(b)
  {
    if b != [] {
      var b' := b[..|b| - 1];
      assert (a + b)[..|a + b| - 1] == a + b';
      assert (a + b)[|a + b| - 1] == b[|b| - 1];
      IbanDigitsConcat(a, b');
    } else {
      assert a + b == a;
    }
  }

  /** Digits pass through the conversion unchanged. */
  lemma {:induction false} IbanDigitsOfDigits(d: string)
    requires AllDigits(d)
    ensures IbanDigits(d) == d
  {
    if d != [] {
      IbanDigitsOfDigits(d[..|d| - 1]);
    }
  }

  /** convertIbanToDigits: the StringBuilder loop over the characters of iban. */
  method ConvertIbanToDigits(iban: string) returns (digits: string)
    ensures digits == IbanDigits(iban)
  {
    digits := "";
    for i := 0 to |iban|
      invariant digits == IbanDigits(iban[..i])
    {
      assert iban[..i + 1][..i] == iban[..i];
      var c := iban[i];
      if IsDigit(c) {
        digits := digits + [c];
      } else {
        digits := digits + IntToDecimal(c as int - 'A' as int + 10);
      }
    }
    assert iban[..|iban|] == iban;
  }

  /** The first four characters moved to the end: a rotation left by four. */
  function Rearranged(s: string): (r: string)
    requires |s| >= 4
    ensures |r| == |s|
    ensures forall k :: 0 <= k < |s| - 4 ==> r[k] == s[k + 4]
    ensures forall k :: |s| - 4 <= k < |s| ==> r[k] == s[k + 4 - |s|]
  {
    s[4..] + s[..4]
  }

  /**
   * isValidIbanChecksum: substring(4) throws StringIndexOutOfBoundsException on fewer than four
   * characters; otherwise the rearranged IBAN is converted to digits and mod97Check decides.
   */
  function IsValidIbanChecksum(iban: string): (r: Result<bool, Failure>)
    ensures r.Err? <==> |iban| < 4
    ensures r.Err? ==> r.error.Runtime?
  {
    if |iban| < 4 then
      Err(Runtime("begin 4, end " + NatToDecimal(|iban|) + ", length " + NatToDecimal(|iban|)))
    else
      Ok(Mod97Check(IbanDigits(Rearranged(iban))))
  }

  /**
   * isValidIban: the checks run on the sanitised IBAN. The basic format is checked before iban4j is
   * consulted; a library format error rejects, an unsupported country falls back to the
   * hand-written checksum, and a check-digit error escapes as a RuntimeException.
   */
  function IsValidIban(props: ValidationProperties, validate: string -> LibraryVerdict, iban: string): (r: Result<bool, Failure>)
    ensures r == Ok(true) ==> IsValidBasicFormat(props, Sanitize(iban))
                              && (validate(Sanitize(iban)) == Accepted || validate(Sanitize(iban)) == UnsupportedCountry)
    ensures r.Err? <==> IsValidBasicFormat(props, Sanitize(iban))
                        && (validate(Sanitize(iban)) == CheckDigitRejected
                            || (validate(Sanitize(iban)) == UnsupportedCountry && |Sanitize(iban)| < 4))
    ensures r.Err? ==> r.error.Runtime?
  {
    var s := Sanitize(iban);
    if !IsValidBasicFormat(props, s) then Ok(false)
    else
      match validate(s)
      case Accepted => Ok(true)
      case UnsupportedCountry => IsValidIbanChecksum(s)
      case FormatRejected => Ok(false)
      case CheckDigitRejected => Err(Runtime("[" + s + "] has invalid check digit"))
  }

  /** iban4j rejects the check digits of an IBAN that passed the basic format: isValidIban throws. */
  predicate ThrowsOnCheckDigit(props: ValidationProperties, validate: string -> LibraryVerdict, iban: string) {
    IsValidBasicFormat(props, Sanitize(iban)) && validate(Sanitize(iban)) == CheckDigitRejected
  }

  /**
   * The stream filter of validateIbans. An exception thrown by the predicate on some element ends
   * the stream; elements are tested in list order.
   */
  function FilterValid(props: ValidationProperties, validate: string -> LibraryVerdict, ibans: seq<string>): (r: Result<seq<string>, Failure>)
    ensures r.Ok? ==> |r.value| <= |ibans| && forall x :: x in r.value ==> x in ibans
    ensures r.Err? ==> r.error.Runtime?
  {
    if ibans == [] then Ok([])
    else
      match IsValidIban(props, validate, ibans[0])
      case Err(e) => Err(e)
      case Ok(keep) =>
        match FilterValid(props, validate, ibans[1..])
        case Err(e) => Err(e)
        case Ok(rest) => Ok(if keep then [ibans[0]] + rest else rest)
  }

  /**
   * validateIbans: a null list, or an empty one, gives an empty list; otherwise the stream filter
   * over the list.
   */
  function ValidateIbans(props: ValidationProperties, validate: string -> LibraryVerdict, ibans: Option<seq<string>>): (r: Result<seq<string>, Failure>)
    ensures ibans.None? || ibans.value == [] ==> r == Ok([])
  {
    match ibans
    case None => Ok([])
    case Some(xs) => FilterValid(props, validate, xs)
  }

  /**
   * The filter keeps the order of the input: what it returns is a subsequence of the original,
   * unsanitised IBANs.
   */
  lemma {:induction false} FilterValidKeepsOrder(props: ValidationProperties, validate: string -> LibraryVerdict, ibans: seq<string>)
    ensures FilterValid(props, validate, ibans).Ok? ==> IsSubsequence(FilterValid(props, validate, ibans).value, ibans)
  {
    if ibans != [] {
      var tail := ibans[1..];
      FilterValidKeepsOrder(props, validate, tail);
      var rest := FilterValid(props, validate, tail);
      if IsValidIban(props, validate, ibans[0]).Ok? && rest.Ok? {
        if IsValidIban(props, validate, ibans[0]) == Ok(true) {
          var out := [ibans[0]] + rest.value;
          assert out[1..] == rest.value;
        } else {
          assert ibans == [ibans[0]] + tail;
          SubsequenceOfTail(rest.value, tail, ibans[0]);
        }
      }
    }
  }

  /**
   * The filter returns each IBAN that passes isValidIban as often as the input holds it, and no
   * other.
   */
  lemma {:induction false} FilterValidCounts(props: ValidationProperties, validate: string -> LibraryVerdict, ibans: seq<string>)
    ensures var r := FilterValid(props, validate, ibans);
      r.Ok? ==> forall x :: multiset(r.value)[x] == if IsValidIban(props, validate, x) == Ok(true) then multiset(ibans)[x] else 0
  {
    if ibans != [] {
      assert ibans == [ibans[0]] + ibans[1..];
      FilterValidCounts(props, validate, ibans[1..]);
    }
  }

  /**
   * The filter fails exactly when isValidIban fails on some element, and then with the failure of
   * the first such element: the stream stops there.
   */
  lemma {:induction false} FilterValidFailure(props: ValidationProperties, validate: string -> LibraryVerdict, ibans: seq<string>)
    ensures var r := FilterValid(props, validate, ibans);
      && (r.Ok? <==> forall k :: 0 <= k < |ibans| ==> IsValidIban(props, validate, ibans[k]).Ok?)
      && (r.Err? ==> exists k :: 0 <= k < |ibans| && IsValidIban(props, validate, ibans[k]) == Err(r.error)
                                 && forall j :: 0 <= j < k ==> IsValidIban(props, validate, ibans[j]).Ok?)
  {
    if ibans != [] {
      var tail := ibans[1..];
      FilterValidFailure(props, validate, tail);
      assert forall j :: 1 <= j < |ibans| ==> ibans[j] == tail[j - 1];
      var rest := FilterValid(props, validate, tail);
      if IsValidIban(props, validate, ibans[0]).Ok? && rest.Err? {
        var k :| 0 <= k < |tail| && IsValidIban(props, validate, tail[k]) == Err(rest.error)
                 && forall j :: 0 <= j < k ==> IsValidIban(props, validate, tail[j]).Ok?;
        assert IsValidIban(props, validate, ibans[k + 1]) == Err(rest.error);
      }
    }
  }

  /** A single rejected IBAN leaves nothing. */
  lemma FilterValidDropsOne(props: ValidationProperties, validate: string -> LibraryVerdict, x: string)
    requires IsValidIban(props, validate, x) == Ok(false)
    ensures FilterValid(props, validate, [x]) == Ok([])
  {
    assert [x][1..] == [];
  }

  /** Two IBANs that both pass are both returned, in order. */
  lemma FilterValidKeepsPair(props: ValidationProperties, validate: string -> LibraryVerdict, a: string, b: string)
    requires IsValidIban(props, validate, a) == Ok(true) && IsValidIban(props, validate, b) == Ok(true)
    ensures FilterValid(props, validate, [a, b]) == Ok([a, b])
  {
    assert [a, b][1..] == [b];
    assert [b][1..] == [];
    assert [b] + [] == [b] && [a] + [b] == [a, b];
    assert FilterValid(props, validate, [b]) == Ok([b]);
  }

  /** A rejected IBAN between two that pass is dropped; the other two keep their order. */
  lemma FilterValidDropsMiddle(props: ValidationProperties, validate: string -> LibraryVerdict, a: string, x: string, b: string)
    requires IsValidIban(props, validate, a) == Ok(true) && IsValidIban(props, validate, b) == Ok(true)
    requires IsValidIban(props, validate, x) == Ok(false)
    ensures FilterValid(props, validate, [a, x, b]) == Ok([a, b])
  {
    assert [a, x, b][1..] == [x, b];
    assert [x, b][1..] == [b];
    assert [b][1..] == [];
    assert [b] + [] == [b] && [a] + [b] == [a, b];
    assert FilterValid(props, validate, [b]) == Ok([b]);
    assert FilterValid(props, validate, [x, b]) == Ok([b]);
  }

  /** Two rejected IBANs leave nothing. */
  lemma FilterValidDropsPair(props: ValidationProperties, validate: string -> LibraryVerdict, x: string, y: string)
    requires IsValidIban(props, validate, x) == Ok(false) && IsValidIban(props, validate, y) == Ok(false)
    ensures FilterValid(props, validate, [x, y]) == Ok([])
  {
    assert [x, y][1..] == [y];
    assert [y][1..] == [];
    assert FilterValid(props, validate, [y]) == Ok([]);
  }

  /** Whitespace and case in the input make no difference: only the sanitised IBAN is judged. */
  lemma ValidityDependsOnSanitized(props: ValidationProperties, validate: string -> LibraryVerdict, iban: string)
    ensures IsValidIban(props, validate, iban) == IsValidIban(props, validate, Sanitize(iban))
  {
    SanitizeIdempotent(iban);
  }

  /**
   * When the basic format fails, the answer is false whatever iban4j would say: the library and the
   * checksum are never reached.
   */
  lemma BasicFormatDecidesFirst(props: ValidationProperties, v1: string -> LibraryVerdict, v2: string -> LibraryVerdict, iban: string)
    requires !IsValidBasicFormat(props, Sanitize(iban))
    ensures IsValidIban(props, v1, iban) == IsValidIban(props, v2, iban) == Ok(false)
  {
  }

  /**
   * Once the basic format holds, the library's own verdict decides whenever it knows the country,
   * an unsupported country falls back to the hand-written checksum, and a check-digit error is
   * not caught.
   */
  lemma LibraryVerdictDecides(props: ValidationProperties, validate: string -> LibraryVerdict, iban: string)
    requires IsValidBasicFormat(props, Sanitize(iban))
    ensures validate(Sanitize(iban)) == Accepted ==> IsValidIban(props, validate, iban) == Ok(true)
    ensures validate(Sanitize(iban)) == FormatRejected ==> IsValidIban(props, validate, iban) == Ok(false)
    ensures validate(Sanitize(iban)) == UnsupportedCountry ==> IsValidIban(props, validate, iban) == IsValidIbanChecksum(Sanitize(iban))
    ensures validate(Sanitize(iban)) == CheckDigitRejected ==> IsValidIban(props, validate, iban).Err?
  {
  }

  /**
   * The fallback for an unsupported country, on an IBAN of at least four characters of [A-Z0-9]
   * once sanitised: isValidIban holds exactly when the MOD 97-10 remainder of the rearranged,
   * digit-converted IBAN is 1, and that branch never throws.
   */
  lemma UnsupportedCountryFallsBack(props: ValidationProperties, validate: string -> LibraryVerdict, iban: string)
    requires IsValidBasicFormat(props, Sanitize(iban)) && validate(Sanitize(iban)) == UnsupportedCountry
    requires AllUpperAlnum(Sanitize(iban)) && |Sanitize(iban)| >= 4
    ensures IsValidIban(props, validate, iban) == Ok(PiecewiseRemainder(IbanDigits(Rearranged(Sanitize(iban)))) == 1)
  {
    FallbackIsMod97(Sanitize(iban));
  }

  lemma RearrangedUpperAlnum(s: string)
    requires AllUpperAlnum(s) && |s| >= 4
    ensures AllUpperAlnum(Rearranged(s)) && |Rearranged(s)| == |s|
  {
    var r := Rearranged(s);
    forall k | 0 <= k < |r|
      ensures IsUpperAlnum(r[k])
    {
      if k < |s| - 4 {
        assert r[k] == s[k + 4];
      } else {
        assert r[k] == s[k - (|s| - 4)];
      }
    }
  }

  /**
   * The fallback on a string of A-Z and 0-9 is the MOD 97-10 test of ISO/IEC 7064: the numeral is
   * made of digits only (so BigInteger never throws), and the IBAN is accepted exactly when the
   * remainder of that numeral modulo 97 is 1.
   */
  lemma FallbackIsMod97(iban: string)
    requires AllUpperAlnum(iban) && |iban| >= 4
    ensures AllDigits(IbanDigits(Rearranged(iban)))
    ensures ParseBigInteger(IbanDigits(Rearranged(iban))) == Some(NumeralValue(IbanDigits(Rearranged(iban))))
    ensures IsValidIbanChecksum(iban) == Ok(PiecewiseRemainder(IbanDigits(Rearranged(iban))) == 1)
  {
    RearrangedUpperAlnum(iban);
    Mod97CheckOfDigits(IbanDigits(Rearranged(iban)));
  }

  /** Everything the configured pattern lets through is made of A-Z and 0-9 and is long enough. */
  lemma ConfiguredPatternShape(s: string)
    requires ConfiguredPattern(s)
    ensures AllUpperAlnum(s) && |s| >= 4
  {
    forall k | 0 <= k < |s|
      ensures IsUpperAlnum(s[k])
    {
      if k >= 4 {
        assert s[k] == s[4..][k - 4];
      }
    }
  }

  /**
   * With the tested pattern, the NumberFormatException branch of mod97Check is unreachable, and
   * isValidIban throws exactly when iban4j rejects the check digits.
   */
  lemma ConfiguredPatternThrowsOnlyOnCheckDigit(props: ValidationProperties, validate: string -> LibraryVerdict, iban: string)
    requires ConfiguredPattern(Sanitize(iban))
    ensures ParseBigInteger(IbanDigits(Rearranged(Sanitize(iban)))).Some?
    ensures IsValidIban(props, validate, iban).Err? <==> ThrowsOnCheckDigit(props, validate, iban)
  {
    ConfiguredPatternShape(Sanitize(iban));
    FallbackIsMod97(Sanitize(iban));
  }

  /**
   * When every configured length is at least four, the substring(4) of the fallback cannot throw,
   * and validateIbans fails exactly when iban4j rejects the check digits of some listed IBAN.
   */
  lemma ValidateIbansFailures(props: ValidationProperties, validate: string -> LibraryVerdict, ibans: Option<seq<string>>)
    requires forall n :: n in props.validLengths ==> n >= 4
    ensures ValidateIbans(props, validate, ibans).Err?
        <==> ibans.Some? && exists k :: 0 <= k < |ibans.value| && ThrowsOnCheckDigit(props, validate, ibans.value[k])
  {
    if ibans.Some? {
      FilterValidFailure(props, validate, ibans.value);
    }
  }

  /** The conversion of a single character is its block. */
  lemma IbanDigitsOfChar(c: char)
    ensures IbanDigits([c]) == DigitsBlock(c)
  {
    assert [c][..0] == [];
  }

  /** The conversion around position q: what comes before, the block of r[q], what comes after. */
  lemma IbanDigitsSplit(r: string, q: nat)
    requires q < |r|
    ensures IbanDigits(r) == IbanDigits(r[..q]) + DigitsBlock(r[q]) + IbanDigits(r[q + 1..])
  {
    SplitAt(r, q);
    IbanDigitsAround(r[..q], r[q], r[q + 1..]);
  }

  /** A string is what comes before position q, the character at q, and what comes after. */
  lemma SplitAt(r: string, q: nat)
    requires q < |r|
    ensures r == r[..q] + [r[q]] + r[q + 1..]
  {
  }

  /** The conversion of a character between two parts. */
  lemma IbanDigitsAround(a: string, c: char, b: string)
    ensures IbanDigits(a + [c] + b) == IbanDigits(a) + DigitsBlock(c) + IbanDigits(b)
  {
    IbanDigitsConcat(a + [c], b);
    IbanDigitsConcat(a, [c]);
    IbanDigitsOfChar(c);
  }

  /** A single digit block is worth that digit. */
  lemma DigitBlockValue(c: char)
    requires IsDigit(c)
    ensures NumeralValue(DigitsBlock(c)) == DigitValue(c)
  {
    assert [c][..0] == [];
  }

  /** Two different digits, or two different letters, convert to blocks of one length whose values differ by less than 97. */
  lemma BlockDifference(c1: char, c2: char)
    requires c1 != c2
    requires (IsDigit(c1) && IsDigit(c2)) || (IsUpper(c1) && IsUpper(c2))
    ensures |DigitsBlock(c1)| == |DigitsBlock(c2)|
    ensures NumeralValue(DigitsBlock(c1)) - NumeralValue(DigitsBlock(c2)) == c1 as int - c2 as int
  {
    BlockShape(c1);
    BlockShape(c2);
    if IsDigit(c1) {
      DigitBlockValue(c1);
      DigitBlockValue(c2);
    }
  }

  /** Replacing the block of one digit by another's, or of one letter by another's, changes the remainder. */
  lemma BlockSubstitution(a: string, c1: char, c2: char, b: string)
    requires c1 != c2
    requires (IsDigit(c1) && IsDigit(c2)) || (IsUpper(c1) && IsUpper(c2))
    ensures NumeralValue(a + DigitsBlock(c1) + b) % 97 != NumeralValue(a + DigitsBlock(c2) + b) % 97
  {
    BlockDifference(c1, c2);
    var delta := c1 as int - c2 as int;
    assert delta != 0 && -97 < delta < 97;
    SubstitutionChangesRemainder(a, DigitsBlock(c1), DigitsBlock(c2), b);
  }

  /**
   * Two strings of A-Z and 0-9 that differ in one position only, digit against digit or letter
   * against letter, convert to numerals with different remainders modulo 97.
   */
  lemma SubstitutionInDigits(r1: string, r2: string, q: nat)
    requires |r1| == |r2| && q < |r1|
    requires r1[..q] == r2[..q] && r1[q + 1..] == r2[q + 1..]
    requires r1[q] != r2[q]
    requires (IsDigit(r1[q]) && IsDigit(r2[q])) || (IsUpper(r1[q]) && IsUpper(r2[q]))
    ensures NumeralValue(IbanDigits(r1)) % 97 != NumeralValue(IbanDigits(r2)) % 97
  {
    IbanDigitsSplit(r1, q);
    IbanDigitsSplit(r2, q);
    BlockSubstitution(IbanDigits(r1[..q]), r1[q], r2[q], IbanDigits(r1[q + 1..]));
  }

  /**
   * The check detects every single substitution of a digit by another digit or of a letter by
   * another letter: an IBAN of A-Z and 0-9 and the IBAN with one such character replaced never both
   * pass the fallback.
   */
  lemma SingleSubstitutionDetected(s: string, p: nat, c: char)
    requires AllUpperAlnum(s) && |s| >= 4 && p < |s|
    requires c != s[p]
    requires (IsDigit(c) && IsDigit(s[p])) || (IsUpper(c) && IsUpper(s[p]))
    ensures !(IsValidIbanChecksum(s) == Ok(true) && IsValidIbanChecksum(s[p := c]) == Ok(true))
  {
    var t := s[p := c];
    assert AllUpperAlnum(t) by {
      forall k | 0 <= k < |t| ensures IsUpperAlnum(t[k]) {
        if k != p {
          assert t[k] == s[k];
        }
      }
    }
    var q := if p >= 4 then p - 4 else |s| - 4 + p;
    var r1, r2 := Rearranged(s), Rearranged(t);
    assert r1[q] == s[p] && r2[q] == c;
    assert r1[..q] == r2[..q];
    assert r1[q + 1..] == r2[q + 1..];
    SubstitutionInDigits(r1, r2, q);
    FallbackIsMod97(s);
    FallbackIsMod97(t);
    PiecewiseIsRemainder(IbanDigits(r1));
    PiecewiseIsRemainder(IbanDigits(r2));
  }

  /** With check digits k in 2..98, "remainder 1" pins k down to 98 minus the remainder of the rest. */
  lemma CheckDigitArithmetic(w: int, k: int)
    requires 2 <= k <= 98
    ensures (w + k) % 97 == 1 <==> k == 98 - w % 97
  {
    var m := w % 97;
    var q := w / 97;
    assert w + k == 97 * q + (m + k);
    assert (w + k) % 97 == (m + k) % 97;
    if m + k < 97 {
      assert (m + k) % 97 == m + k;
    } else if m + k < 194 {
      assert (m + k) % 97 == m + k - 97;
    } else {
      assert (m + k) % 97 == 0;
    }
  }

  /** Appending two digits to a numeral: its value times 100 plus theirs. */
  lemma AppendTwoDigits(d: string, ck: string)
    requires |ck| == 2
    ensures NumeralValue(d + ck) == NumeralValue(d) * 100 + NumeralValue(ck)
  {
    NumeralConcat(d, ck);
    assert Pow10(2) == 100;
  }

  /**
   * Two trailing check digits: "remainder 1" holds exactly when they are 98 minus the remainder of
   * the rest followed by 00 (the rest's value times 100).
   */
  lemma CheckDigitsNumeral(u: string, ck: string)
    requires AllUpperAlnum(u)
    requires |ck| == 2 && AllDigits(ck) && 2 <= NumeralValue(ck) <= 98
    ensures (PiecewiseRemainder(IbanDigits(u + ck)) == 1) == (NumeralValue(ck) == 98 - (NumeralValue(IbanDigits(u)) * 100) % 97)
  {
    IbanDigitsAppendDigits(u, ck);
    AppendedCheckDigits(IbanDigits(u), ck);
  }

  /** Digits appended to an IBAN pass through the conversion. */
  lemma IbanDigitsAppendDigits(u: string, ck: string)
    requires AllDigits(ck)
    ensures IbanDigits(u + ck) == IbanDigits(u) + ck
  {
    IbanDigitsConcat(u, ck);
    IbanDigitsOfDigits(ck);
  }

  /** Two check digits appended to a numeral: "remainder 1" pins them down. */
  lemma AppendedCheckDigits(d: string, ck: string)
    requires |ck| == 2 && 2 <= NumeralValue(ck) <= 98
    ensures (PiecewiseRemainder(d + ck) == 1) == (NumeralValue(ck) == 98 - (NumeralValue(d) * 100) % 97)
  {
    AppendTwoDigits(d, ck);
    PiecewiseIsRemainder(d + ck);
    CheckDigitArithmetic(NumeralValue(d) * 100, NumeralValue(ck));
  }

  lemma AllUpperAlnumConcat(a: string, b: string)
    requires AllUpperAlnum(a) && AllUpperAlnum(b)
    ensures AllUpperAlnum(a + b)
  {
    forall k | 0 <= k < |a + b| ensures IsUpperAlnum((a + b)[k]) {
      if k >= |a| {
        assert (a + b)[k] == b[k - |a|];
      }
    }
  }

  /**
   * The fallback agrees with the check-digit computation of ISO 13616-1: with the country code
   * and 00 moved behind the BBAN, the check digits of a valid IBAN are 98 minus the remainder
   * modulo 97 of that numeral.
   */
  lemma CheckDigitsIso13616(cc: string, ck: string, bban: string)
    requires |cc| == 2 && IsUpper(cc[0]) && IsUpper(cc[1])
    requires |ck| == 2 && AllDigits(ck) && 2 <= NumeralValue(ck) <= 98
    requires AllUpperAlnum(bban)
    ensures IsValidIbanChecksum(cc + ck + bban) == Ok(NumeralValue(ck) == 98 - (NumeralValue(IbanDigits(bban + cc)) * 100) % 97)
  {
    assert AllUpperAlnum(cc) && AllUpperAlnum(ck);
    AllUpperAlnumConcat(cc, ck);
    AllUpperAlnumConcat(cc + ck, bban);
    AllUpperAlnumConcat(bban, cc);
    RearrangedParts(cc, ck, bban);
    FallbackIsMod97(cc + ck + bban);
    CheckDigitsNumeral(bban + cc, ck);
  }

  /** Rearranging an IBAN moves the country code and the check digits behind the BBAN. */
  lemma RearrangedParts(cc: string, ck: string, bban: string)
    requires |cc| == 2 && |ck| == 2
    ensures Rearranged(cc + ck + bban) == bban + cc + ck
  {
    var s := cc + ck + bban;
    assert s[4..] == bban && s[..4] == cc + ck;
    assert bban + (cc + ck) == bban + cc + ck;
  }
}
