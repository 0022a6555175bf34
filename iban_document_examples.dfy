/**
 * The documents of IbanExtractionServiceTest worked out on the model: a one-page document showing
 * one line of text, which every text stripper returns as that line followed by blanks.
 */
module IbanDocumentExamples {
  import opened Outcomes
  import opened Lists
  import opened IbanExtraction
  import opened IbanPrinted
  import opened IbanDocument
  import opened IbanExtractionExamples

  /** A one-page, unencrypted document whose strippers all return text. */
  function OnePage(text: string): (pdf: PdfFile)
    ensures pdf.Loaded? && !pdf.encrypted && |pdf.pages| == 1
  {
    Loaded(false, TextOk(text), [Page(TextOk(text), RegionOk(Some(text)))])
  }

  /** A one-page document yields the IBANs of its text: the three scans of it agree. */
  lemma OnePageIbans(text: string)
    requires text != ""
    ensures DocumentIbans(OnePage(text)) == Ok(TextIbans(text))
  {
    var page := Page(TextOk(text), RegionOk(Some(text)));
    assert RegionChunks(page.region) == Some([text]);
    assert [text] + [text] == [text, text];
    assert PageChunks(page) == Some([text, text]);
    assert PagesChunks([page], 0) == Some([]);
    assert PagesChunks([page], 1) == Some([] + [text, text]);
    assert [] + [text, text] == [text, text];
    assert DocumentChunks(OnePage(text)) == Ok([text] + [text, text]);
    assert [text] + [text, text] == [text, text, text];
    var cs := [text, text, text];
    var two, one: seq<string> := [text, text], [text];
    assert cs[..2] == two && two[..1] == one && one[..0] == [];
    assert ChunksIbans(one) == TextIbans(text);
    assert ChunksIbans(two) == TextIbans(text);
    assert ChunksIbans(cs) == TextIbans(text);
  }

  /** testExtractIbans_ValidPdf: the document yields the IBAN, and nothing else. */
  lemma ValidPdfYieldsIban(post: string)
    requires Blank(post)
    ensures DocumentIbans(OnePage(ScannedText + post)) == Ok({ScannedIban})
  {
    ScannedTextIbans(post);
    OnePageIbans(ScannedText + post);
  }

  /** testExtractIbans_NoIbansPdf: the document yields no IBAN. */
  lemma NoIbanPdfYieldsNothing(post: string)
    requires Blank(post)
    ensures DocumentIbans(OnePage(NoIbanText + post)) == Ok({})
  {
    NoIbanTextYieldsNothing(post);
    OnePageIbans(NoIbanText + post);
  }

  /** extractIbans on a document whose only IBAN is iban: the list is not empty and starts with it. */
  method ScanSingleIban(pdf: PdfFile, iban: string) returns (ibans: seq<string>)
    requires DocumentIbans(pdf) == Ok({iban})
    ensures ibans != [] && ibans[0] == iban
    ensures forall x :: x in ibans ==> x == iban
  {
    var r := ExtractIbans(pdf);
    ibans := r.value;
    assert iban in ibans;
    assert ibans[0] in ibans;
  }

  /** testExtractIbans_ValidPdf as written: the list is not empty and its first element is the IBAN. */
  method ScanValidPdf(post: string) returns (ibans: seq<string>)
    requires Blank(post)
    ensures ibans != [] && ibans[0] == ScannedIban
  {
    ValidPdfYieldsIban(post);
    ibans := ScanSingleIban(OnePage(ScannedText + post), ScannedIban);
  }
}
