/**
 * The configured pattern and the test vectors of IbanValidationService, worked out on the model:
 * which IBANs the service keeps, and why.
 */
module IbanValidationExamples {
  import opened Outcomes
  import opened Chars
  import opened Mod97
  import opened IbanValidation

  /** Two letters are converted block by block. */
  lemma IbanDigitsOfPair(x: char, y: char)
    ensures IbanDigits([x, y]) == DigitsBlock(x) + DigitsBlock(y)
  {
    var s := [x, y];
    assert s[..1] == [x] && s[1] == y;
    assert [x][..0] == [];
    assert IbanDigits([x]) == IbanDigits([]) + DigitsBlock(x);
    assert IbanDigits(s) == IbanDigits([x]) + DigitsBlock(y);
  }

  /** The digits convertIbanToDigits writes for an upper-case letter. */
  lemma LetterBlock(c: char)
    requires IsUpper(c)
    ensures DigitsBlock(c) == [DigitChar((c as int - 'A' as int + 10) / 10), DigitChar((c as int - 'A' as int + 10) % 10)]
  {
    var n := c as int - 'A' as int + 10;
    assert NatToDecimal(n / 10) == [DigitChar(n / 10)];
  }

  /** The blocks of the letters in the country codes of the test IBANs. */
  lemma CountryLetterBlocks()
    ensures DigitsBlock('B') == "11" && DigitsBlock('D') == "13" && DigitsBlock('E') == "14" && DigitsBlock('X') == "33"
  {
    LetterBlock('B');
    LetterBlock('D');
    LetterBlock('E');
    LetterBlock('X');
  }

  /** Two upper-case letters, two digits and a non-empty run of digits fit the configured pattern. */
  lemma ShapeOf(cc: string, ck: string, bban: string)
    requires |cc| == 2 && IsUpper(cc[0]) && IsUpper(cc[1])
    requires |ck| == 2 && AllDigits(ck) && |bban| >= 1 && AllDigits(bban)
    ensures ConfiguredPattern(cc + ck + bban)
    ensures Sanitize(cc + ck + bban) == cc + ck + bban
  {
    var s := cc + ck + bban;
    assert s[4..] == bban;
    SanitizeFixed(s);
  }

  /** IbanDigits of the rearranged IBAN when only the country code holds letters. */
  lemma DigitsOfRearranged(cc: string, ck: string, bban: string)
    requires |cc| == 2 && |ck| == 2 && AllDigits(ck) && AllDigits(bban)
    ensures Rearranged(cc + ck + bban) == bban + cc + ck
    ensures IbanDigits(Rearranged(cc + ck + bban)) == bban + DigitsBlock(cc[0]) + DigitsBlock(cc[1]) + ck
  {
    var s := cc + ck + bban;
    assert s[4..] == bban;
    assert s[..4] == cc + ck;
    assert Rearranged(s) == bban + cc + ck;
    calc {
      IbanDigits(bban + cc + ck);
      { IbanDigitsConcat(bban + cc, ck); }
      IbanDigits(bban + cc) + IbanDigits(ck);
      { IbanDigitsConcat(bban, cc); }
      IbanDigits(bban) + IbanDigits(cc) + IbanDigits(ck);
      { IbanDigitsOfDigits(bban); IbanDigitsOfDigits(ck); }
      bban + IbanDigits(cc) + ck;
      { assert cc == [cc[0], cc[1]]; IbanDigitsOfPair(cc[0], cc[1]); }
      bban + DigitsBlock(cc[0]) + DigitsBlock(cc[1]) + ck;
    }
  }

  /**
   * An IBAN made of a two-letter country code, two check digits and a BBAN of digits only is its own
   * sanitised form, fits the configured pattern, and its fallback checksum holds exactly when the
   * piecewise remainder of `numeral`, the digits of its rearranged form, is 1.
   */
  lemma FallbackOf(iban: string, cc: string, ck: string, bban: string, numeral: string)
    requires iban == cc + ck + bban
    requires |cc| == 2 && IsUpper(cc[0]) && IsUpper(cc[1])
    requires |ck| == 2 && AllDigits(ck) && |bban| >= 1 && AllDigits(bban)
    requires bban + DigitsBlock(cc[0]) + DigitsBlock(cc[1]) + ck == numeral
    ensures Sanitize(iban) == iban && ConfiguredPattern(iban)
    ensures IbanDigits(Rearranged(iban)) == numeral
    ensures IsValidIbanChecksum(iban) == Ok(PiecewiseRemainder(numeral) == 1)
  {
    ShapeOf(cc, ck, bban);
    DigitsOfRearranged(cc, ck, bban);
    ConfiguredPatternShape(iban);
    FallbackIsMod97(iban);
  }

  /**
   * Such an IBAN of a tested length is kept when iban4j accepts it, or when iban4j does not know
   * its country and the fallback remainder is 1; a check-digit error from iban4j escapes, and every
   * other verdict drops it.
   */
  lemma VerdictOf(iban: string, cc: string, ck: string, bban: string, numeral: string, validate: string -> LibraryVerdict)
    requires iban == cc + ck + bban && 15 <= |iban| <= 34
    requires |cc| == 2 && IsUpper(cc[0]) && IsUpper(cc[1])
    requires |ck| == 2 && AllDigits(ck) && |bban| >= 1 && AllDigits(bban)
    requires bban + DigitsBlock(cc[0]) + DigitsBlock(cc[1]) + ck == numeral
    ensures IbanDigits(Rearranged(iban)) == numeral
    ensures validate(iban) != CheckDigitRejected ==>
              IsValidIban(TestedProperties, validate, iban)
              == Ok(validate(iban) == Accepted || (validate(iban) == UnsupportedCountry && PiecewiseRemainder(numeral) == 1))
    ensures validate(iban) == CheckDigitRejected ==> IsValidIban(TestedProperties, validate, iban).Err?
  {
    FallbackOf(iban, cc, ck, bban, numeral);
    assert |iban| in TestedLengths;
    LibraryVerdictDecides(TestedProperties, validate, iban);
  }

  /** VerdictOf for an IBAN whose fallback remainder is not 1, under a verdict that does not throw or accept. */
  lemma DroppedBy(iban: string, cc: string, ck: string, bban: string, numeral: string, validate: string -> LibraryVerdict)
    requires iban == cc + ck + bban && 15 <= |iban| <= 34
    requires |cc| == 2 && IsUpper(cc[0]) && IsUpper(cc[1])
    requires |ck| == 2 && AllDigits(ck) && |bban| >= 1 && AllDigits(bban)
    requires bban + DigitsBlock(cc[0]) + DigitsBlock(cc[1]) + ck == numeral
    requires validate(iban) != Accepted && validate(iban) != CheckDigitRejected && PiecewiseRemainder(numeral) != 1
    ensures IbanDigits(Rearranged(iban)) == numeral
    ensures IsValidIban(TestedProperties, validate, iban) == Ok(false)
  {
    VerdictOf(iban, cc, ck, bban, numeral, validate);
  }

  /** VerdictOf for an IBAN whose fallback remainder is 1, under a verdict that accepts or falls back. */
  lemma KeptBy(iban: string, cc: string, ck: string, bban: string, numeral: string, validate: string -> LibraryVerdict)
    requires iban == cc + ck + bban && 15 <= |iban| <= 34
    requires |cc| == 2 && IsUpper(cc[0]) && IsUpper(cc[1])
    requires |ck| == 2 && AllDigits(ck) && |bban| >= 1 && AllDigits(bban)
    requires bban + DigitsBlock(cc[0]) + DigitsBlock(cc[1]) + ck == numeral
    requires (validate(iban) == Accepted || validate(iban) == UnsupportedCountry) && PiecewiseRemainder(numeral) == 1
    ensures IsValidIban(TestedProperties, validate, iban) == Ok(true)
  {
    VerdictOf(iban, cc, ck, bban, numeral, validate);
  }

  /** The example of the hyphenated IBAN: the pattern rejects it before anything else runs. */
  lemma HyphenatedIbanRejected(props: ValidationProperties, validate: string -> LibraryVerdict)
    requires props.ibanPattern == ConfiguredPattern
    ensures IsValidIban(props, validate, "BE68-5390-0754-70345") == Ok(false)
    ensures ValidateIbans(props, validate, Some(["BE68-5390-0754-70345"])) == Ok([])
  {
    HyphenatedSanitized();
    assert "BE68-5390-0754-70345"[4..][0] == '-';
    FilterValidDropsOne(props, validate, "BE68-5390-0754-70345");
  }

  lemma HyphenatedSanitized()
    ensures Sanitize("BE68-5390-0754-70345") == "BE68-5390-0754-70345"
  {
    var s := "BE68-5390-0754-70345";
    assert forall k :: 0 <= k < |s| ==> !IsRegexSpace(s[k]) && !IsLower(s[k]);
    SanitizeFixed(s);
  }

  lemma XxRemainderPart1()
    ensures PiecewiseRemainder("345678") == 67
  {
    assert RunningRemainder(0, "345678", 1) == 3;
    assert RunningRemainder(0, "345678", 2) == 34;
    assert RunningRemainder(0, "345678", 3) == 54;
    assert RunningRemainder(0, "345678", 4) == 61;
    assert RunningRemainder(0, "345678", 5) == 35;
    assert RunningRemainder(0, "345678", 6) == 67;
  }

  lemma XxRemainderPart2()
    ensures PiecewiseRemainder("345678" + "901234") == 70
  {
    XxRemainderPart1();
    PiecewiseConcat("345678", "901234");
    assert RunningRemainder(67, "901234", 1) == 0;
    assert RunningRemainder(67, "901234", 2) == 0;
    assert RunningRemainder(67, "901234", 3) == 1;
    assert RunningRemainder(67, "901234", 4) == 12;
    assert RunningRemainder(67, "901234", 5) == 26;
    assert RunningRemainder(67, "901234", 6) == 70;
  }

  lemma XxRemainderPart3()
    ensures PiecewiseRemainder("345678" + "901234" + "567890") == 2
  {
    XxRemainderPart2();
    PiecewiseConcat("345678" + "901234", "567890");
    assert RunningRemainder(70, "567890", 1) == 26;
    assert RunningRemainder(70, "567890", 2) == 72;
    assert RunningRemainder(70, "567890", 3) == 48;
    assert RunningRemainder(70, "567890", 4) == 3;
    assert RunningRemainder(70, "567890", 5) == 39;
    assert RunningRemainder(70, "567890", 6) == 2;
  }

  lemma XxRemainder()
    ensures PiecewiseRemainder("345678901234567890333312") == 74
  {
    assert "345678901234567890333312" == "345678" + "901234" + "567890" + "333312";
    XxRemainderPart3();
    PiecewiseConcat("345678" + "901234" + "567890", "333312");
    assert RunningRemainder(2, "333312", 1) == 23;
    assert RunningRemainder(2, "333312", 2) == 39;
    assert RunningRemainder(2, "333312", 3) == 5;
    assert RunningRemainder(2, "333312", 4) == 53;
    assert RunningRemainder(2, "333312", 5) == 46;
    assert RunningRemainder(2, "333312", 6) == 74;
  }

  lemma BelgianRemainderPart1()
    ensures PiecewiseRemainder("539007") == 75
  {
    assert RunningRemainder(0, "539007", 1) == 5;
    assert RunningRemainder(0, "539007", 2) == 53;
    assert RunningRemainder(0, "539007", 3) == 54;
    assert RunningRemainder(0, "539007", 4) == 55;
    assert RunningRemainder(0, "539007", 5) == 65;
    assert RunningRemainder(0, "539007", 6) == 75;
  }

  lemma BelgianRemainderPart2()
    ensures PiecewiseRemainder("539007" + "547034") == 39
  {
    BelgianRemainderPart1();
    PiecewiseConcat("539007", "547034");
    assert RunningRemainder(75, "547034", 1) == 76;
    assert RunningRemainder(75, "547034", 2) == 85;
    assert RunningRemainder(75, "547034", 3) == 81;
    assert RunningRemainder(75, "547034", 4) == 34;
    assert RunningRemainder(75, "547034", 5) == 52;
    assert RunningRemainder(75, "547034", 6) == 39;
  }

  lemma BelgianRemainder()
    ensures PiecewiseRemainder("539007547034111468") == 1
  {
    assert "539007547034111468" == "539007" + "547034" + "111468";
    BelgianRemainderPart2();
    PiecewiseConcat("539007" + "547034", "111468");
    assert RunningRemainder(39, "111468", 1) == 3;
    assert RunningRemainder(39, "111468", 2) == 31;
    assert RunningRemainder(39, "111468", 3) == 20;
    assert RunningRemainder(39, "111468", 4) == 10;
    assert RunningRemainder(39, "111468", 5) == 9;
    assert RunningRemainder(39, "111468", 6) == 1;
  }

  lemma GermanRemainderPart1()
    ensures PiecewiseRemainder("370400") == 54
  {
    assert RunningRemainder(0, "370400", 1) == 3;
    assert RunningRemainder(0, "370400", 2) == 37;
    assert RunningRemainder(0, "370400", 3) == 79;
    assert RunningRemainder(0, "370400", 4) == 18;
    assert RunningRemainder(0, "370400", 5) == 83;
    assert RunningRemainder(0, "370400", 6) == 54;
  }

  lemma GermanRemainderPart2()
    ensures PiecewiseRemainder("370400" + "440532") == 58
  {
    GermanRemainderPart1();
    PiecewiseConcat("370400", "440532");
    assert RunningRemainder(54, "440532", 1) == 59;
    assert RunningRemainder(54, "440532", 2) == 12;
    assert RunningRemainder(54, "440532", 3) == 23;
    assert RunningRemainder(54, "440532", 4) == 41;
    assert RunningRemainder(54, "440532", 5) == 25;
    assert RunningRemainder(54, "440532", 6) == 58;
  }

  lemma GermanRemainderPart3()
    ensures PiecewiseRemainder("370400" + "440532" + "013000") == 16
  {
    GermanRemainderPart2();
    PiecewiseConcat("370400" + "440532", "013000");
    assert RunningRemainder(58, "013000", 1) == 95;
    assert RunningRemainder(58, "013000", 2) == 78;
    assert RunningRemainder(58, "013000", 3) == 7;
    assert RunningRemainder(58, "013000", 4) == 70;
    assert RunningRemainder(58, "013000", 5) == 21;
    assert RunningRemainder(58, "013000", 6) == 16;
  }

  lemma GermanRemainder()
    ensures PiecewiseRemainder("370400440532013000131489") == 1
  {
    assert "370400440532013000131489" == "370400" + "440532" + "013000" + "131489";
    GermanRemainderPart3();
    PiecewiseConcat("370400" + "440532" + "013000", "131489");
    assert RunningRemainder(16, "131489", 1) == 64;
    assert RunningRemainder(16, "131489", 2) == 61;
    assert RunningRemainder(16, "131489", 3) == 29;
    assert RunningRemainder(16, "131489", 4) == 3;
    assert RunningRemainder(16, "131489", 5) == 38;
    assert RunningRemainder(16, "131489", 6) == 1;
  }

  lemma ZeroCheckRemainderPart1()
    ensures PiecewiseRemainder("000000") == 0
  {
    assert RunningRemainder(0, "000000", 1) == 0;
    assert RunningRemainder(0, "000000", 2) == 0;
    assert RunningRemainder(0, "000000", 3) == 0;
    assert RunningRemainder(0, "000000", 4) == 0;
    assert RunningRemainder(0, "000000", 5) == 0;
    assert RunningRemainder(0, "000000", 6) == 0;
  }

  lemma ZeroCheckRemainderPart2()
    ensures PiecewiseRemainder("000000" + "000000") == 0
  {
    ZeroCheckRemainderPart1();
    PiecewiseConcat("000000", "000000");
    assert RunningRemainder(0, "000000", 1) == 0;
    assert RunningRemainder(0, "000000", 2) == 0;
    assert RunningRemainder(0, "000000", 3) == 0;
    assert RunningRemainder(0, "000000", 4) == 0;
    assert RunningRemainder(0, "000000", 5) == 0;
    assert RunningRemainder(0, "000000", 6) == 0;
  }

  lemma ZeroCheckRemainderPart3()
    ensures PiecewiseRemainder("000000" + "000000" + "001114") == 47
  {
    ZeroCheckRemainderPart2();
    PiecewiseConcat("000000" + "000000", "001114");
    assert RunningRemainder(0, "001114", 1) == 0;
    assert RunningRemainder(0, "001114", 2) == 0;
    assert RunningRemainder(0, "001114", 3) == 1;
    assert RunningRemainder(0, "001114", 4) == 11;
    assert RunningRemainder(0, "001114", 5) == 14;
    assert RunningRemainder(0, "001114", 6) == 47;
  }

  lemma ZeroCheckRemainder()
    ensures PiecewiseRemainder("00000000000000111400") == 44
  {
    assert "00000000000000111400" == "000000" + "000000" + "001114" + "00";
    ZeroCheckRemainderPart3();
    PiecewiseConcat("000000" + "000000" + "001114", "00");
    assert RunningRemainder(47, "00", 1) == 82;
    assert RunningRemainder(47, "00", 2) == 44;
  }

  lemma ShortBelgianRemainderPart2()
    ensures PiecewiseRemainder("539007" + "547031") == 36
  {
    BelgianRemainderPart1();
    PiecewiseConcat("539007", "547031");
    assert RunningRemainder(75, "547031", 1) == 76;
    assert RunningRemainder(75, "547031", 2) == 85;
    assert RunningRemainder(75, "547031", 3) == 81;
    assert RunningRemainder(75, "547031", 4) == 34;
    assert RunningRemainder(75, "547031", 5) == 52;
    assert RunningRemainder(75, "547031", 6) == 36;
  }

  lemma ShortBelgianRemainder()
    ensures PiecewiseRemainder("53900754703111468") == 61
  {
    assert "53900754703111468" == "539007" + "547031" + "11468";
    ShortBelgianRemainderPart2();
    PiecewiseConcat("539007" + "547031", "11468");
    assert RunningRemainder(36, "11468", 1) == 70;
    assert RunningRemainder(36, "11468", 2) == 22;
    assert RunningRemainder(36, "11468", 3) == 30;
    assert RunningRemainder(36, "11468", 4) == 15;
    assert RunningRemainder(36, "11468", 5) == 61;
  }

  /**
   * The country XX: iban4j does not know it and the fallback computes the remainder 74, not 1, so
   * the IBAN is dropped; so it is under any verdict but acceptance or a check-digit error.
   */
  lemma UnsupportedCountryRejected(validate: string -> LibraryVerdict)
    requires validate("XX12345678901234567890") != Accepted && validate("XX12345678901234567890") != CheckDigitRejected
    ensures PiecewiseRemainder(IbanDigits(Rearranged("XX12345678901234567890"))) == 74
    ensures ValidateIbans(TestedProperties, validate, Some(["XX12345678901234567890"])) == Ok([])
  {
    assert "XX12345678901234567890" == "XX" + "12" + "345678901234567890";
    assert AllDigits("12") && AllDigits("345678901234567890");
    assert "345678901234567890" + "33" + "33" + "12" == "345678901234567890333312";
    CountryLetterBlocks();
    XxRemainder();
    DroppedBy("XX12345678901234567890", "XX", "12", "345678901234567890", "345678901234567890333312", validate);
    FilterValidDropsOne(TestedProperties, validate, "XX12345678901234567890");
  }

  /** Check digits 00 do not satisfy the fallback: the remainder is 44. */
  lemma InvalidChecksumRejected(validate: string -> LibraryVerdict)
    requires validate("BE0000000000000000") != Accepted && validate("BE0000000000000000") != CheckDigitRejected
    ensures PiecewiseRemainder(IbanDigits(Rearranged("BE0000000000000000"))) == 44
    ensures ValidateIbans(TestedProperties, validate, Some(["BE0000000000000000"])) == Ok([])
  {
    assert "BE0000000000000000" == "BE" + "00" + "00000000000000";
    assert AllDigits("00") && AllDigits("00000000000000");
    assert "00000000000000" + "11" + "14" + "00" == "00000000000000111400";
    CountryLetterBlocks();
    ZeroCheckRemainder();
    DroppedBy("BE0000000000000000", "BE", "00", "00000000000000", "00000000000000111400", validate);
    FilterValidDropsOne(TestedProperties, validate, "BE0000000000000000");
  }

  lemma InvalidIbanFailsPattern(validate: string -> LibraryVerdict)
    ensures IsValidIban(TestedProperties, validate, "INVALID_IBAN") == Ok(false)
  {
    SanitizeFixed("INVALID_IBAN");
    assert !IsDigit("INVALID_IBAN"[2]);
  }

  /**
   * "INVALID_IBAN" fails the pattern; the fifteen-character Belgian IBAN has the remainder 61 on the
   * fallback, so both are dropped; iban4j rejects the second by its length (a format error), and
   * any verdict but acceptance or a check-digit error drops it.
   */
  lemma InvalidIbansRejected(validate: string -> LibraryVerdict)
    requires validate("BE6853900754703") != Accepted && validate("BE6853900754703") != CheckDigitRejected
    ensures ValidateIbans(TestedProperties, validate, Some(["INVALID_IBAN", "BE6853900754703"])) == Ok([])
  {
    assert "BE6853900754703" == "BE" + "68" + "53900754703";
    assert AllDigits("68") && AllDigits("53900754703");
    assert "53900754703" + "11" + "14" + "68" == "53900754703111468";
    CountryLetterBlocks();
    ShortBelgianRemainder();
    DroppedBy("BE6853900754703", "BE", "68", "53900754703", "53900754703111468", validate);
    InvalidIbanFailsPattern(validate);
    FilterValidDropsPair(TestedProperties, validate, "INVALID_IBAN", "BE6853900754703");
  }

  /**
   * The two valid test IBANs have the remainder 1, so they are kept when iban4j accepts them and
   * when it does not know their country.
   */
  lemma ValidPairKept(validate: string -> LibraryVerdict)
    requires validate("BE68539007547034") == Accepted || validate("BE68539007547034") == UnsupportedCountry
    requires validate("DE89370400440532013000") == Accepted || validate("DE89370400440532013000") == UnsupportedCountry
    ensures IsValidIban(TestedProperties, validate, "BE68539007547034") == Ok(true)
    ensures IsValidIban(TestedProperties, validate, "DE89370400440532013000") == Ok(true)
  {
    assert "BE68539007547034" == "BE" + "68" + "539007547034";
    assert "DE89370400440532013000" == "DE" + "89" + "370400440532013000";
    assert AllDigits("68") && AllDigits("539007547034");
    assert AllDigits("89") && AllDigits("370400440532013000");
    assert "539007547034" + "11" + "14" + "68" == "539007547034111468";
    assert "370400440532013000" + "13" + "14" + "89" == "370400440532013000131489";
    CountryLetterBlocks();
    assert IsValidIban(TestedProperties, validate, "BE68539007547034") == Ok(true) by {
      BelgianRemainder();
      KeptBy("BE68539007547034", "BE", "68", "539007547034", "539007547034111468", validate);
    }
    assert IsValidIban(TestedProperties, validate, "DE89370400440532013000") == Ok(true) by {
      GermanRemainder();
      KeptBy("DE89370400440532013000", "DE", "89", "370400440532013000", "370400440532013000131489", validate);
    }
  }

  /**
   * The two valid test IBANs pass whether iban4j accepts them or reports their country unsupported
   * (their remainders are 1), and they are returned in input order.
   */
  lemma ValidIbansKept(validate: string -> LibraryVerdict)
    requires validate("BE68539007547034") == Accepted || validate("BE68539007547034") == UnsupportedCountry
    requires validate("DE89370400440532013000") == Accepted || validate("DE89370400440532013000") == UnsupportedCountry
    ensures ValidateIbans(TestedProperties, validate, Some(["BE68539007547034", "DE89370400440532013000"]))
         == Ok(["BE68539007547034", "DE89370400440532013000"])
  {
    ValidPairKept(validate);
    FilterValidKeepsPair(TestedProperties, validate, "BE68539007547034", "DE89370400440532013000");
  }

  /** The IBAN that fails the pattern is dropped from between the two valid ones. */
  lemma ValidAndInvalidIbans(validate: string -> LibraryVerdict)
    requires validate("BE68539007547034") == Accepted || validate("BE68539007547034") == UnsupportedCountry
    requires validate("DE89370400440532013000") == Accepted || validate("DE89370400440532013000") == UnsupportedCountry
    ensures ValidateIbans(TestedProperties, validate, Some(["BE68539007547034", "INVALID_IBAN", "DE89370400440532013000"]))
         == Ok(["BE68539007547034", "DE89370400440532013000"])
  {
    ValidPairKept(validate);
    InvalidIbanFailsPattern(validate);
    FilterValidDropsMiddle(TestedProperties, validate, "BE68539007547034", "INVALID_IBAN", "DE89370400440532013000");
  }

  /**
   * One digit off the valid German IBAN: iban4j knows the country and throws
   * InvalidCheckDigitException, which isValidIban does not catch, so validateIbans fails; the
   * fallback checksum would have rejected it (its remainder is 0).
   */
  lemma CheckDigitTypoThrows(validate: string -> LibraryVerdict)
    requires validate("DE88370400440532013000") == CheckDigitRejected
    ensures PiecewiseRemainder(IbanDigits(Rearranged("DE88370400440532013000"))) == 0
    ensures IsValidIban(TestedProperties, validate, "DE88370400440532013000").Err?
    ensures ValidateIbans(TestedProperties, validate, Some(["DE88370400440532013000"])).Err?
  {
    TypoVerdict(validate);
  }

  lemma TypoVerdict(validate: string -> LibraryVerdict)
    requires validate("DE88370400440532013000") == CheckDigitRejected
    ensures PiecewiseRemainder(IbanDigits(Rearranged("DE88370400440532013000"))) == 0
    ensures IsValidIban(TestedProperties, validate, "DE88370400440532013000").Err?
  {
    assert "DE88370400440532013000" == "DE" + "88" + "370400440532013000";
    assert AllDigits("88") && AllDigits("370400440532013000");
    assert "370400440532013000" + "13" + "14" + "88" == "370400440532013000131488";
    CountryLetterBlocks();
    assert PiecewiseRemainder(IbanDigits(Rearranged("DE88370400440532013000"))) == 0 by {
      TypoRemainder();
      FallbackOf("DE88370400440532013000", "DE", "88", "370400440532013000", "370400440532013000131488");
    }
    VerdictOf("DE88370400440532013000", "DE", "88", "370400440532013000", "370400440532013000131488", validate);
  }

  lemma TypoRemainder()
    ensures PiecewiseRemainder("370400440532013000131488") == 0
  {
    assert "370400440532013000131488" == "370400" + "440532" + "013000" + "131488";
    GermanRemainderPart3();
    PiecewiseConcat("370400" + "440532" + "013000", "131488");
    assert RunningRemainder(16, "131488", 1) == 64;
    assert RunningRemainder(16, "131488", 2) == 61;
    assert RunningRemainder(16, "131488", 3) == 29;
    assert RunningRemainder(16, "131488", 4) == 3;
    assert RunningRemainder(16, "131488", 5) == 38;
    assert RunningRemainder(16, "131488", 6) == 0;
  }

  // The IBAN of the extraction service's test document.

  lemma ScannedRemainderPart1()
    ensures PiecewiseRemainder("500105") == 70
  {
    assert RunningRemainder(0, "500105", 1) == 5;
    assert RunningRemainder(0, "500105", 2) == 50;
    assert RunningRemainder(0, "500105", 3) == 15;
    assert RunningRemainder(0, "500105", 4) == 54;
    assert RunningRemainder(0, "500105", 5) == 55;
    assert RunningRemainder(0, "500105", 6) == 70;
  }

  lemma ScannedRemainderPart2()
    ensures PiecewiseRemainder("500105" + "175407") == 78
  {
    ScannedRemainderPart1();
    PiecewiseConcat("500105", "175407");
    assert RunningRemainder(70, "175407", 1) == 22;
    assert RunningRemainder(70, "175407", 2) == 33;
    assert RunningRemainder(70, "175407", 3) == 44;
    assert RunningRemainder(70, "175407", 4) == 56;
    assert RunningRemainder(70, "175407", 5) == 75;
    assert RunningRemainder(70, "175407", 6) == 78;
  }

  lemma ScannedRemainderPart3()
    ensures PiecewiseRemainder("500105" + "175407" + "324931") == 50
  {
    ScannedRemainderPart2();
    PiecewiseConcat("500105" + "175407", "324931");
    assert RunningRemainder(78, "324931", 1) == 7;
    assert RunningRemainder(78, "324931", 2) == 72;
    assert RunningRemainder(78, "324931", 3) == 45;
    assert RunningRemainder(78, "324931", 4) == 71;
    assert RunningRemainder(78, "324931", 5) == 34;
    assert RunningRemainder(78, "324931", 6) == 50;
  }

  lemma ScannedRemainder()
    ensures PiecewiseRemainder("500105175407324931131444") == 1
  {
    assert "500105175407324931131444" == "500105" + "175407" + "324931" + "131444";
    ScannedRemainderPart3();
    PiecewiseConcat("500105" + "175407" + "324931", "131444");
    assert RunningRemainder(50, "131444", 1) == 16;
    assert RunningRemainder(50, "131444", 2) == 66;
    assert RunningRemainder(50, "131444", 3) == 79;
    assert RunningRemainder(50, "131444", 4) == 18;
    assert RunningRemainder(50, "131444", 5) == 87;
    assert RunningRemainder(50, "131444", 6) == 1;
  }

  lemma ScannedFallback()
    ensures PiecewiseRemainder(IbanDigits(Rearranged("DE44500105175407324931"))) == 1
    ensures IsValidIbanChecksum("DE44500105175407324931") == Ok(true)
  {
    assert "DE44500105175407324931" == "DE" + "44" + "500105175407324931";
    assert AllDigits("44") && AllDigits("500105175407324931");
    assert "500105175407324931" + "13" + "14" + "44" == "500105175407324931131444";
    CountryLetterBlocks();
    ScannedRemainder();
    FallbackOf("DE44500105175407324931", "DE", "44", "500105175407324931", "500105175407324931131444");
  }
}
