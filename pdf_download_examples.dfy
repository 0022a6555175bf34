/** The scenarios of PdfDownloadServiceTest, against a server whose answer is given. */
module PdfDownloadExamples {
  import opened Outcomes
  import opened Failures
  import opened PdfDownload

  /** A URL that does not start with "http" is rejected with the URL in the message. */
  lemma InvalidUrlMessage()
    ensures ValidateUrl(Some("invalid-url")) == Err(InvalidUrl("Invalid URL format: invalid-url"))
  {
    ValidateUrlSpec(Some("invalid-url"));
    assert "Invalid URL format: " + "invalid-url" == "Invalid URL format: invalid-url";
  }

  /** A null URL is rejected, and the message renders it as "null". */
  lemma NullUrlMessage()
    ensures ValidateUrl(None) == Err(InvalidUrl("Invalid URL format: null"))
  {
    BlankUrlRejected(None);
    assert "Invalid URL format: " + "null" == "Invalid URL format: null";
  }

  const ValidPdfUrl := "http://localhost:8081/valid.pdf"
  const MissingPdfUrl := "http://localhost:8081/missing.pdf"
  const RemotePdfUrl := "https://example.com/a.pdf"

  /** The URLs of the scenarios below all pass validation. */
  lemma ScenarioUrlsAccepted()
    ensures ValidateUrl(Some(ValidPdfUrl)) == Ok(())
    ensures ValidateUrl(Some(MissingPdfUrl)) == Ok(())
    ensures ValidateUrl(Some(RemotePdfUrl)) == Ok(())
  {
    ValidateUrlSpec(Some(ValidPdfUrl));
    ValidateUrlSpec(Some(MissingPdfUrl));
    ValidateUrlSpec(Some(RemotePdfUrl));
  }

  /** A 200 answer with a five-byte body yields one file holding those five bytes. */
  method DownloadValidPdf() returns (files: seq<TempFile>)
    ensures |files| == 1 && files[0].contents == [1, 2, 3, 4, 5]
  {
    var body := new ByteSource([1, 2, 3, 4, 5], None);
    var server := new Server(Response(HttpOk, body));
    ScenarioUrlsAccepted();
    var r := DownloadPdfs(Some(ValidPdfUrl), server, true);
    assert body.data[0..body.Stop()] == [1, 2, 3, 4, 5];
    files := r.value;
  }

  /** "invalid-url" fails validation and no connection is opened. */
  method DownloadInvalidUrl() returns (r: Result<seq<TempFile>, Failure>)
    ensures r == Err(InvalidUrl("Invalid URL format: invalid-url"))
  {
    var body := new ByteSource([], None);
    var server := new Server(Response(HttpOk, body));
    InvalidUrlMessage();
    r := DownloadPdfs(Some("invalid-url"), server, true);
    assert server.connections == [];
  }

  /** A 400 or a 404 answer is "No PDFs found at the given URL." */
  method DownloadErrorStatus(status: int) returns (r: Result<seq<TempFile>, Failure>)
    requires status == 400 || status == 404
    ensures r == Err(PdfNotFound("No PDFs found at the given URL."))
  {
    var body := new ByteSource([60, 104, 116, 109, 108, 62], None);
    var server := new Server(Response(status, body));
    ScenarioUrlsAccepted();
    r := DownloadPdfs(Some(MissingPdfUrl), server, true);
  }

  /** A connection dropped in the middle of the body is PdfProcessingException. */
  method DownloadDroppedConnection() returns (r: Result<seq<TempFile>, Failure>)
    ensures r == Err(PdfProcessing("Failed to process downloaded PDFs from the provided URL."))
  {
    var body := new ByteSource([1, 2, 3, 4, 5], Some(3));
    var server := new Server(Response(HttpOk, body));
    ScenarioUrlsAccepted();
    r := DownloadPdfs(Some(RemotePdfUrl), server, true);
  }
}
