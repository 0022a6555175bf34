/**
 * The texts of IbanExtractionServiceTest worked out on the model: the one with an IBAN printed in
 * groups of four yields exactly that IBAN without its spaces, the one without digits yields nothing.
 */
module IbanExtractionExamples {
  import opened Outcomes
  import opened Chars
  import opened IbanExtraction
  import opened IbanPrinted
  import IbanValidation
  import IbanValidationExamples

  const ScannedLabel := "Valid IBAN: "
  const ScannedIban := "DE44500105175407324931"
  const ScannedText := "Valid IBAN: DE44 5001 0517 5407 3249 31"
  const NoIbanText := "This document contains no IBANs."

  /** The groups of the IBAN's last two characters. */
  lemma ScannedGroups1()
    ensures SpacedGroups("31") == " 31"
  {
    assert "31"[2..] == [];
  }

  lemma ScannedGroups2()
    ensures SpacedGroups("324931") == " 3249 31"
  {
    assert "3249" + "31" == "324931";
    assert [' '] + "3249" + " 31" == " 3249 31";
    SpacedGroupsStep("3249", "31");
    ScannedGroups1();
  }

  lemma ScannedGroups3()
    ensures SpacedGroups("5407324931") == " 5407 3249 31"
  {
    assert "5407" + "324931" == "5407324931";
    assert [' '] + "5407" + " 3249 31" == " 5407 3249 31";
    SpacedGroupsStep("5407", "324931");
    ScannedGroups2();
  }

  lemma ScannedGroups4()
    ensures SpacedGroups("05175407324931") == " 0517 5407 3249 31"
  {
    assert "0517" + "5407324931" == "05175407324931";
    assert [' '] + "0517" + " 5407 3249 31" == " 0517 5407 3249 31";
    SpacedGroupsStep("0517", "5407324931");
    ScannedGroups3();
  }

  lemma ScannedGroups5()
    ensures SpacedGroups("500105175407324931") == " 5001 0517 5407 3249 31"
  {
    assert "5001" + "05175407324931" == "500105175407324931";
    assert [' '] + "5001" + " 0517 5407 3249 31" == " 5001 0517 5407 3249 31";
    SpacedGroupsStep("5001", "05175407324931");
    ScannedGroups4();
  }

  /** The test's text, put together from the label, the first four characters and the groups. */
  lemma ScannedTextParts(lead: string, head: string, groups: string)
    requires lead == "Valid IBAN: " && head == "DE44" && groups == " 5001 0517 5407 3249 31"
    ensures lead + (head + groups) == ScannedText
  {
  }

  /** The test's text is the label followed by the printed IBAN. */
  lemma ScannedTextPrinted()
    ensures ScannedLabel + Printed(ScannedIban) == ScannedText
  {
    var head, rest := ScannedIban[..4], ScannedIban[4..];
    assert head == "DE44" && rest == "500105175407324931";
    ScannedGroups5();
    var groups := SpacedGroups(rest);
    assert Printed(ScannedIban) == head + groups;
    ScannedTextParts(ScannedLabel, head, groups);
  }

  /** The IBAN of the test has the candidate shape, and the label has no digit and ends in a space. */
  lemma ScannedParts()
    ensures CandidateShape(ScannedIban)
    ensures forall k :: 0 <= k < |ScannedLabel| ==> !IsDigit(ScannedLabel[k]) && !IsLineSeparator(ScannedLabel[k])
    ensures !IsWordChar(ScannedLabel[|ScannedLabel| - 1])
  {
    assert ScannedIban[4..] == "500105175407324931";
  }

  /**
   * testExtractIbans_ValidPdf: the test's line, followed by whatever blanks the text stripper puts
   * after it, yields exactly the IBAN with its spaces removed.
   */
  lemma ScannedTextIbans(post: string)
    requires Blank(post)
    ensures CandidatesFrom(Normalize(ScannedText + post), 0) == [ScannedIban]
    ensures TextIbans(ScannedText + post) == {ScannedIban}
  {
    ScannedTextPrinted();
    ScannedParts();
    IbanValidationExamples.ScannedFallback();
    PrintedCandidates(ScannedLabel, ScannedIban, post);
    PrintedIbanExtracted(ScannedLabel, ScannedIban, post);
  }

  /** A text without digits yields no candidate and no IBAN: no match starts without two digits. */
  lemma NoDigitsNoIbans(t: string)
    requires forall k :: 0 <= k < |t| ==> !IsDigit(t[k])
    ensures CandidatesFrom(Normalize(t), 0) == []
    ensures TextIbans(t) == {}
  {
    var n := Normalize(t);
    assert forall k :: 0 <= k < |n| ==> !IsDigit(n[k]);
    NoPrefixNoMatch(n, 0);
  }

  /** testExtractIbans_NoIbansPdf: the text without digits, and any blanks after it, yield nothing. */
  lemma NoIbanTextYieldsNothing(post: string)
    requires Blank(post)
    ensures CandidatesFrom(Normalize(NoIbanText + post), 0) == []
    ensures TextIbans(NoIbanText + post) == {}
  {
    var t := NoIbanText + post;
    assert forall k :: 0 <= k < |t| ==> !IsDigit(t[k]) by {
      forall k | 0 <= k < |t|
        ensures !IsDigit(t[k])
      {
        if k < |NoIbanText| {
          assert t[k] == NoIbanText[k];
        } else {
          assert t[k] == post[k - |NoIbanText|];
        }
      }
    }
    NoDigitsNoIbans(t);
  }
}
