/**
 * TaskOrchestratorService.processPdfForIbans: download, extract from every file, drop duplicates,
 * validate, check the blacklist. The four services it calls are given as functions from their
 * argument to what they return or throw, and a run records which calls were made, so that "stage k
 * is never reached" can be stated about every input.
 */
module TaskOrchestrator {
  import opened Outcomes
  import opened Failures
  import opened Chars
  import opened Lists

  /** The collaborating services, over a type F of downloaded files. */
  datatype Services<!F> = Services(
    download: Option<string> -> Result<seq<F>, Failure>,  // PdfDownloadService.downloadPdfs
    extract: F -> Result<seq<string>, Failure>,           // IbanExtractionService.extractIbans
    fileName: F -> string,                                // File.getName
    validate: seq<string> -> Result<seq<string>, Failure>, // IbanValidationService.validateIbans
    checkBlacklist: seq<string> -> Result<(), Failure>)   // BlacklistedIbanCheckService.checkForBlacklistedIbans

  /** One call to a collaborating service, with its argument. */
  datatype Call<F> = Download(url: Option<string>) | Extract(file: F) | Validate(ibans: seq<string>) | CheckBlacklist(ibans: seq<string>)

  /** What processPdfForIbans returns or throws, and the calls it made, in order. */
  datatype Run<F> = Run(result: Result<seq<string>, Failure>, calls: seq<Call<F>>)

  const ExtractFailedPrefix := "Failed to extract IBANs from the provided URL: "
  const NoIbansMessage := "No IBANs found in the provided documents."
  const InvalidIbansPrefix := "Extracted IBANs are not valid.: "

  /**
   * The flatMap over the files, in file order: each file's IBANs, concatenated; the first file whose
   * extraction throws ends the stream with a PdfProcessingException naming that file.
   */
  function ExtractAll<F>(s: Services<F>, files: seq<F>): (r: Result<seq<string>, Failure>)
    ensures r.Err? ==> r.error.PdfProcessing?
  {
    if files == [] then Ok([])
    else
      match s.extract(files[0])
      case Err(_) => Err(PdfProcessing(ExtractFailedPrefix + s.fileName(files[0])))
      case Ok(xs) =>
        match ExtractAll(s, files[1..])
        case Err(e) => Err(e)
        case Ok(ys) => Ok(xs + ys)
  }

  /** The extraction calls the flatMap makes: one per file, up to and including the first failure. */
  function ExtractCalls<F>(s: Services<F>, files: seq<F>): seq<Call<F>> {
    if files == [] then []
    else [Extract(files[0])] + (if s.extract(files[0]).Err? then [] else ExtractCalls(s, files[1..]))
  }

  /** One extraction call per file, in file order. */
  function ExtractEach<F>(files: seq<F>): (calls: seq<Call<F>>)
    ensures |calls| == |files| && forall k :: 0 <= k < |files| ==> calls[k] == Extract(files[k])
  {
    seq(|files|, k requires 0 <= k < |files| => Extract(files[k]))
  }

  /** processPdfForIbans, step by step; each early throw ends the run. */
  function ProcessPdfForIbans<F>(s: Services<F>, url: Option<string>): (r: Run<F>)
    ensures |r.calls| >= 1 && r.calls[0] == Download(url)
    ensures r.result.Ok? ==> r.result.value != [] && r.calls[|r.calls| - 1] == CheckBlacklist(r.result.value)
  {
    match s.download(url)
    case Err(e) => Run(Err(e), [Download(url)])
    case Ok(files) =>
      var calls := [Download(url)] + ExtractCalls(s, files);
      match ExtractAll(s, files)
      case Err(e) => Run(Err(e), calls)
      case Ok(all) =>
        var extracted := Distinct(all);
        if extracted == [] then Run(Err(NoIbanFound(NoIbansMessage)), calls)
        else
          var calls' := calls + [Validate(extracted)];
          match s.validate(extracted)
          case Err(e) => Run(Err(e), calls')
          case Ok(valid) =>
            if valid == [] then Run(Err(InvalidIbans(InvalidIbansPrefix + Join(",", extracted))), calls')
            else
              var calls'' := calls' + [CheckBlacklist(valid)];
              match s.checkBlacklist(valid)
              case Err(e) => Run(Err(e), calls'')
              case Ok(_) => Run(Ok(valid), calls'')
  }

  /** Neither validation nor the blacklist check is among the calls. */
  predicate StopsBeforeValidation<F>(calls: seq<Call<F>>) {
    forall k :: 0 <= k < |calls| ==> calls[k].Download? || calls[k].Extract?
  }

  /** The first file, in order, whose extraction throws. */
  predicate FirstFailing<F>(s: Services<F>, files: seq<F>, k: int) {
    0 <= k < |files| && s.extract(files[k]).Err? && forall j :: 0 <= j < k ==> s.extract(files[j]).Ok?
  }

  /**
   * The flatMap succeeds exactly when every file's extraction does, and then holds exactly the
   * IBANs of all files; otherwise it fails with PdfProcessingException naming the first failing file.
   * Either way it calls nothing but extraction.
   */
  lemma {:induction false} ExtractAllSpec<F>(s: Services<F>, files: seq<F>)
    ensures ExtractAll(s, files).Ok? <==> forall k :: 0 <= k < |files| ==> s.extract(files[k]).Ok?
    ensures ExtractAll(s, files).Ok? ==> forall x :: x in ExtractAll(s, files).value <==>
      exists k :: 0 <= k < |files| && s.extract(files[k]).Ok? && x in s.extract(files[k]).value
    ensures ExtractAll(s, files).Err? ==>
      exists k :: FirstFailing(s, files, k) && ExtractAll(s, files).error == PdfProcessing(ExtractFailedPrefix + s.fileName(files[k]))
    ensures StopsBeforeValidation(ExtractCalls(s, files))
  {
    if files != [] {
      var tail := files[1..];
      ExtractAllSpec(s, tail);
      assert forall k :: 1 <= k < |files| ==> files[k] == tail[k - 1];
      var rest := ExtractAll(s, tail);
      if s.extract(files[0]).Err? {
        assert FirstFailing(s, files, 0);
      } else if rest.Err? {
        var k :| FirstFailing(s, tail, k) && rest.error == PdfProcessing(ExtractFailedPrefix + s.fileName(tail[k]));
        assert FirstFailing(s, files, k + 1);
      } else {
        var xs := s.extract(files[0]).value;
        forall x | x in xs + rest.value
          ensures exists k :: 0 <= k < |files| && s.extract(files[k]).Ok? && x in s.extract(files[k]).value
        {
          if x !in xs {
            var k :| 0 <= k < |tail| && s.extract(tail[k]).Ok? && x in s.extract(tail[k]).value;
            assert files[k + 1] == tail[k];
          }
        }
        forall x | exists k :: 0 <= k < |files| && s.extract(files[k]).Ok? && x in s.extract(files[k]).value
          ensures x in xs + rest.value
        {
          var k :| 0 <= k < |files| && s.extract(files[k]).Ok? && x in s.extract(files[k]).value;
          if k > 0 {
            assert tail[k - 1] == files[k];
          }
        }
      }
    }
  }

  /** When every extraction succeeds, there is one extraction call per file, in file order. */
  lemma {:induction false} ExtractCallsAll<F>(s: Services<F>, files: seq<F>)
    requires forall k :: 0 <= k < |files| ==> s.extract(files[k]).Ok?
    ensures ExtractCalls(s, files) == ExtractEach(files)
  {
    if files != [] {
      assert s.extract(files[0]).Ok?;
      ExtractCallsAll(s, files[1..]);
      assert ExtractEach(files) == [Extract(files[0])] + ExtractEach(files[1..]);
    }
  }

  /** A download failure propagates unchanged, and no other service is called. */
  lemma DownloadFailureStops<F>(s: Services<F>, url: Option<string>)
    requires s.download(url).Err?
    ensures ProcessPdfForIbans(s, url).result == Err(s.download(url).error)
    ensures ProcessPdfForIbans(s, url).calls == [Download(url)]
  {
  }

  /**
   * When some file's extraction throws, the run ends with PdfProcessingException naming the first
   * such file, and neither validation nor the blacklist check is called.
   */
  lemma ExtractionFailureStops<F>(s: Services<F>, url: Option<string>, k: int)
    requires s.download(url).Ok? && FirstFailing(s, s.download(url).value, k)
    ensures ProcessPdfForIbans(s, url).result == Err(PdfProcessing(ExtractFailedPrefix + s.fileName(s.download(url).value[k])))
    ensures StopsBeforeValidation(ProcessPdfForIbans(s, url).calls)
  {
    var files := s.download(url).value;
    ExtractAllSpec(s, files);
    var j :| FirstFailing(s, files, j) && ExtractAll(s, files).error == PdfProcessing(ExtractFailedPrefix + s.fileName(files[j]));
    FirstFailingUnique(s, files, j, k);
  }

  lemma FirstFailingUnique<F>(s: Services<F>, files: seq<F>, j: int, k: int)
    requires FirstFailing(s, files, j) && FirstFailing(s, files, k)
    ensures j == k
  {
  }

  /**
   * When every extraction succeeds, the list handed on is the files' IBANs without duplicates:
   * every IBAN of every file exactly once (Lists.DistinctSnoc gives their order). When it is empty the run
   * ends with NoIbanFoundException before validation.
   */
  lemma ExtractedIbans<F>(s: Services<F>, url: Option<string>)
    requires s.download(url).Ok?
    requires ExtractAll(s, s.download(url).value).Ok?
    ensures var files := s.download(url).value;
      var extracted := Distinct(ExtractAll(s, files).value);
      && NoDuplicates(extracted)
      && IsSubsequence(extracted, ExtractAll(s, files).value)
      && (forall x :: x in extracted <==> exists k :: 0 <= k < |files| && s.extract(files[k]).Ok? && x in s.extract(files[k]).value)
      && (extracted == [] ==> ProcessPdfForIbans(s, url) == Run(Err(NoIbanFound(NoIbansMessage)), [Download(url)] + ExtractEach(files)))
      && (extracted != [] ==> var calls := ProcessPdfForIbans(s, url).calls;
            |calls| >= 2 + |files| && calls[..2 + |files|] == [Download(url)] + ExtractEach(files) + [Validate(extracted)])
  {
    var files := s.download(url).value;
    ExtractAllSpec(s, files);
    ExtractCallsAll(s, files);
    DistinctSpec(ExtractAll(s, files).value);
  }

  /**
   * When validation leaves nothing, the run ends with InvalidIbansException listing the extracted
   * IBANs joined by commas, and the blacklist check is not called.
   */
  lemma NoValidIbansStops<F>(s: Services<F>, url: Option<string>)
    requires s.download(url).Ok? && ExtractAll(s, s.download(url).value).Ok?
    requires var extracted := Distinct(ExtractAll(s, s.download(url).value).value);
      extracted != [] && s.validate(extracted) == Ok([])
    ensures var extracted := Distinct(ExtractAll(s, s.download(url).value).value);
      ProcessPdfForIbans(s, url).result == Err(InvalidIbans(InvalidIbansPrefix + Join(",", extracted)))
    ensures forall k :: 0 <= k < |ProcessPdfForIbans(s, url).calls| ==> !ProcessPdfForIbans(s, url).calls[k].CheckBlacklist?
  {
    ExtractAllSpec(s, s.download(url).value);
  }

  /**
   * A run that gets past validation calls the blacklist check with exactly the validated list as its
   * last call; the check's failure propagates unchanged, and otherwise the validated list is returned.
   */
  lemma BlacklistDecides<F>(s: Services<F>, url: Option<string>)
    requires s.download(url).Ok? && ExtractAll(s, s.download(url).value).Ok?
    requires var extracted := Distinct(ExtractAll(s, s.download(url).value).value);
      extracted != [] && s.validate(extracted).Ok? && s.validate(extracted).value != []
    ensures var valid := s.validate(Distinct(ExtractAll(s, s.download(url).value).value)).value;
      var run := ProcessPdfForIbans(s, url);
      && run.calls[|run.calls| - 1] == CheckBlacklist(valid)
      && run.result == (if s.checkBlacklist(valid).Err? then Err(s.checkBlacklist(valid).error) else Ok(valid))
  {
    DistinctSpec(ExtractAll(s, s.download(url).value).value);
  }

  /**
   * A successful run made every call once, in pipeline order, and returns exactly what validation
   * returned, which is not empty and passed the blacklist check.
   */
  lemma SuccessfulRun<F>(s: Services<F>, url: Option<string>)
    requires ProcessPdfForIbans(s, url).result.Ok?
    ensures var files := s.download(url).value;
      var extracted := Distinct(ExtractAll(s, files).value);
      var valid := ProcessPdfForIbans(s, url).result.value;
      && s.download(url).Ok? && ExtractAll(s, files).Ok? && extracted != []
      && s.validate(extracted) == Ok(valid) && valid != [] && s.checkBlacklist(valid).Ok?
      && ProcessPdfForIbans(s, url).calls == [Download(url)] + ExtractEach(files) + [Validate(extracted), CheckBlacklist(valid)]
  {
    var files := s.download(url).value;
    ExtractAllSpec(s, files);
    ExtractCallsAll(s, files);
  }

  /**
   * With a validation that only ever keeps a subsequence of its input, as the stream filter of
   * validateIbans does, every IBAN a successful run returns was found in some file, and none twice.
   */
  lemma SuccessIsDistinctAndFound<F>(s: Services<F>, url: Option<string>)
    requires forall xs :: s.validate(xs).Ok? ==> IsSubsequence(s.validate(xs).value, xs)
    requires ProcessPdfForIbans(s, url).result.Ok?
    ensures var files := s.download(url).value;
      var valid := ProcessPdfForIbans(s, url).result.value;
      && NoDuplicates(valid)
      && forall x :: x in valid ==> exists k :: 0 <= k < |files| && s.extract(files[k]).Ok? && x in s.extract(files[k]).value
  {
    var files := s.download(url).value;
    SuccessfulRun(s, url);
    ExtractAllSpec(s, files);
    var extracted := Distinct(ExtractAll(s, files).value);
    DistinctSpec(ExtractAll(s, files).value);
    var valid := s.validate(extracted).value;
    SubsequenceNoDuplicates(valid, extracted);
    SubsequenceMembers(valid, extracted);
  }
}
