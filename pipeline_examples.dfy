/**
 * processPdfForIbans wired to the modelled services: the stream filter of IbanValidationService and
 * the store-backed blacklist check. Also two scenarios of TaskOrchestratorServiceTest.
 */
module PipelineExamples {
  import opened Outcomes
  import opened Failures
  import opened Lists
  import opened IbanValidation
  import opened Blacklist
  import opened TaskOrchestrator

  /** The filter of validateIbans only ever deletes IBANs, so it qualifies for SuccessIsDistinctAndFound. */
  lemma ValidationKeepsOrder(props: ValidationProperties, validate: string -> LibraryVerdict)
    ensures forall xs :: ValidateIbans(props, validate, Some(xs)).Ok? ==> IsSubsequence(ValidateIbans(props, validate, Some(xs)).value, xs)
  {
    forall xs | ValidateIbans(props, validate, Some(xs)).Ok?
      ensures IsSubsequence(ValidateIbans(props, validate, Some(xs)).value, xs)
    {
      FilterValidKeepsOrder(props, validate, xs);
    }
  }

  /**
   * With the real validation and blacklist check, every IBAN of a successful run was found in one of
   * the downloaded files, passes isValidIban, is not in the blacklist store, and occurs once.
   */
  lemma EndToEnd<F>(s: Services<F>, url: Option<string>, props: ValidationProperties,
                    validate: string -> LibraryVerdict, entries: seq<BlacklistedIban>)
    requires forall xs :: s.validate(xs) == ValidateIbans(props, validate, Some(xs))
    requires forall xs :: s.checkBlacklist(xs) == Reconciled(xs, EntriesIn(entries, xs))
    requires ProcessPdfForIbans(s, url).result.Ok?
    ensures var files := s.download(url).value;
      var valid := ProcessPdfForIbans(s, url).result.value;
      && NoDuplicates(valid)
      && forall x :: x in valid ==>
           && IsValidIban(props, validate, x) == Ok(true)
           && (exists k :: 0 <= k < |files| && s.extract(files[k]).Ok? && x in s.extract(files[k]).value)
           && !exists e :: e in entries && e.iban == x
  {
    ValidationKeepsOrder(props, validate);
    SuccessfulRun(s, url);
    SuccessIsDistinctAndFound(s, url);
    var files := s.download(url).value;
    var extracted := Distinct(ExtractAll(s, files).value);
    var valid := ProcessPdfForIbans(s, url).result.value;
    FilterValidCounts(props, validate, extracted);
    ReconciledOk(entries, valid);
    forall x | x in valid
      ensures IsValidIban(props, validate, x) == Ok(true)
    {
      assert multiset(valid)[x] > 0;
    }
  }

  const MockPdf := "mock.pdf"
  const ValidIban := "DE44500105175407324931"
  const PdfUrl := Some("http://example.com/sample.pdf")

  /** One downloaded file holding one IBAN, which validation keeps and the blacklist check accepts. */
  function Mocked(extract: string -> Result<seq<string>, Failure>): Services<string> {
    Services(u => Ok([MockPdf]), extract, f => f, xs => Ok(xs), xs => Ok(()))
  }

  function OneIban(file: string): Result<seq<string>, Failure> {
    Ok([ValidIban])
  }

  function ExtractionFails(file: string): Result<seq<string>, Failure> {
    Err(PdfProcessing("Extraction failed"))
  }

  /** The successful scenario: the IBAN is returned, and each service was called once, in order. */
  lemma SuccessfulScenario()
    ensures ProcessPdfForIbans(Mocked(OneIban), PdfUrl)
      == Run(Ok([ValidIban]), [Download(PdfUrl), Extract(MockPdf), Validate([ValidIban]), CheckBlacklist([ValidIban])])
  {
    var s := Mocked(OneIban);
    assert s.download(PdfUrl) == Ok([MockPdf]);
    assert s.extract(MockPdf) == Ok([ValidIban]);
    assert [MockPdf][1..] == [];
    assert ExtractAll(s, []) == Ok([]);
    assert [ValidIban] + [] == [ValidIban];
    assert ExtractAll(s, [MockPdf]) == Ok([ValidIban]);
    assert [ValidIban][1..] == [];
    assert ValidIban !in [];
    assert Distinct([ValidIban]) == [ValidIban] + DistinctAfter([], [] + [ValidIban]);
    assert s.validate([ValidIban]) == Ok([ValidIban]);
    assert s.checkBlacklist([ValidIban]) == Ok(());
    assert ExtractCalls(s, [MockPdf]) == [Extract(MockPdf)];
  }

  /** Extraction throws: PdfProcessingException naming the file, and validation is never reached. */
  lemma ExtractionFailsScenario()
    ensures ProcessPdfForIbans(Mocked(ExtractionFails), PdfUrl)
      == Run(Err(PdfProcessing("Failed to extract IBANs from the provided URL: mock.pdf")), [Download(PdfUrl), Extract(MockPdf)])
  {
    var s := Mocked(ExtractionFails);
    assert ExtractFailedPrefix + MockPdf == "Failed to extract IBANs from the provided URL: mock.pdf";
    assert ExtractCalls(s, [MockPdf]) == [Extract(MockPdf)];
  }
}
