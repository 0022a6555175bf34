/**
 * PdfDownloadService: the URL pre-check, the classification of the server's answer, and the loop
 * that copies the response body into a temporary file through a 1024-byte buffer. The network, the
 * input stream and the file system are collaborators modelled as small classes whose state the
 * service changes.
 */
module PdfDownload {
  import opened Outcomes
  import opened Chars
  import opened Failures

  newtype byte = b: int | 0 <= b < 256

  /** The size of the copy buffer, new byte[1024]. */
  const BufferSize: nat := 1024

  /** HttpStatus.OK.value(). */
  const HttpOk: int := 200

  const NoPdfsMessage := "No PDFs found at the given URL."
  const DownloadFailedMessage := "Failed to process downloaded PDFs from the provided URL."
  const UrlPrefix := "http"

  /** How Java's string concatenation renders the URL: a null reference becomes "null". */
  function UrlText(url: Option<string>): string {
    match url
    case None => "null"
    case Some(s) => s
  }

  /** StringUtils.hasText: not null and holding at least one character that is not whitespace. */
  predicate HasText(url: Option<string>)
    ensures HasText(url) ==> url.Some? && |url.value| >= 1
    ensures url.Some? && |url.value| >= 1 && !IsJavaWhitespace(url.value[0]) ==> HasText(url)
  {
    url.Some? && exists k :: 0 <= k < |url.value| && !IsJavaWhitespace(url.value[k])
  }

  /** validateUrl: InvalidUrlException("Invalid URL format: " + url) unless the URL has text and starts with "http". */
  function ValidateUrl(url: Option<string>): (r: Result<(), Failure>)
    ensures r.Err? ==> r.error.InvalidUrl?
  {
    if !HasText(url) || !StartsWith(url.value, UrlPrefix) then
      Err(InvalidUrl("Invalid URL format: " + UrlText(url)))
    else
      Ok(())
  }

  /**
   * A URL passes exactly when it is present and its first four characters are "http"; the hasText
   * test never rejects such a URL, since 'h' is not whitespace. Every rejection carries the URL.
   */
  lemma ValidateUrlSpec(url: Option<string>)
    ensures ValidateUrl(url).Ok? <==>
      (url.Some? && |url.value| >= 4 && url.value[0] == 'h' && url.value[1] == 't' && url.value[2] == 't' && url.value[3] == 'p')
    ensures ValidateUrl(url).Err? ==> ValidateUrl(url).error.message == "Invalid URL format: " + UrlText(url)
  {
    if url.Some? && |url.value| >= 4 {
      var s := url.value;
      if s[0] == 'h' && s[1] == 't' && s[2] == 't' && s[3] == 'p' {
        assert !IsJavaWhitespace(s[0]);
        assert s[..4] == UrlPrefix;
      } else {
        assert s[..4][0] == s[0] && s[..4][1] == s[1] && s[..4][2] == s[2] && s[..4][3] == s[3];
      }
    }
  }

  /** A missing, empty or whitespace-only URL is rejected before anything else is looked at. */
  lemma BlankUrlRejected(url: Option<string>)
    requires url.None? || forall k :: 0 <= k < |url.value| ==> IsJavaWhitespace(url.value[k])
    ensures ValidateUrl(url) == Err(InvalidUrl("Invalid URL format: " + UrlText(url)))
  {
  }

  /**
   * The body of an HTTP response as an InputStream: the bytes the server sends, and optionally the
   * offset at which reading raises an IOException (a dropped connection).
   */
  class ByteSource {
    const data: seq<byte>
    const failAt: Option<nat>
    var pos: nat

    predicate Valid()
      reads this
    {
      pos <= |data| && (failAt.Some? ==> pos <= failAt.value)
    }

    /** Whether reading ends in an IOException instead of the end of the stream. */
    predicate Fails() {
      failAt.Some? && failAt.value <= |data|
    }

    /** The offset at which reading stops, by failure or by the end of the stream. */
    function Stop(): (n: nat)
      ensures n <= |data|
    {
      if Fails() then failAt.value else |data|
    }

    constructor (data: seq<byte>, failAt: Option<nat>)
      ensures this.data == data && this.failAt == failAt && pos == 0
      ensures Valid()
    {
      this.data := data;
      this.failAt := failAt;
      pos := 0;
    }

    /**
     * InputStream.read(buffer): -1 at the end of the stream, an IOException at the failure point,
     * and otherwise between one and buffer.Length of the next bytes, copied into the front of the buffer.
     */
    method Read(buffer: array<byte>) returns (r: Result<int, Failure>)
      requires Valid() && buffer.Length > 0
      modifies this`pos, buffer
      ensures Valid() && old(pos) <= pos <= Stop()
      ensures old(pos) == Stop() && Fails() ==> r.Err? && r.error.IOError? && pos == old(pos)
      ensures old(pos) == Stop() && !Fails() ==> r == Ok(-1) && pos == old(pos)
      ensures old(pos) < Stop() ==>
        r.Ok? && 1 <= r.value <= buffer.Length && pos == old(pos) + r.value && buffer[..r.value] == data[old(pos)..pos]
    {
      if pos == Stop() {
        if Fails() {
          return Err(IOError("Connection reset"));
        }
        return Ok(-1);
      }
      var n := if Stop() - pos < buffer.Length then Stop() - pos else buffer.Length;
      var i := 0;
      while i < n
        invariant 0 <= i <= n && pos == old(pos)
        invariant buffer[..i] == data[pos..pos + i]
      {
        buffer[i] := data[pos + i];
        i := i + 1;
      }
      pos := pos + n;
      r := Ok(n);
    }
  }

  /** The temporary file File.createTempFile("pdf_download_", ".pdf") and what has been written to it. */
  class TempFile {
    var contents: seq<byte>

    constructor ()
      ensures contents == []
    {
      contents := [];
    }

    /** OutputStream.write(buffer, off, len): appends buffer[off..off + len]. */
    method Write(buffer: array<byte>, off: nat, len: nat)
      requires off + len <= buffer.Length
      modifies this
      ensures contents == old(contents) + buffer[off..off + len]
    {
      contents := contents + buffer[off..off + len];
    }
  }

  /**
   * savePdfFromStream: creates a temporary file (which itself can fail with an IOException, given
   * here as created == false) and copies the stream into it through a buffer of BufferSize bytes
   * until read returns -1. The file then holds exactly the bytes read, in order; a read failure
   * propagates as an IOException.
   */
  method SavePdfFromStream(input: ByteSource, created: bool) returns (r: Result<TempFile, Failure>)
    requires input.Valid()
    modifies input`pos
    ensures input.Valid()
    ensures !created ==> r.Err? && r.error.IOError? && input.pos == old(input.pos)
    ensures created ==> input.pos == input.Stop()
    ensures created && input.Fails() ==> r.Err? && r.error.IOError?
    ensures created && !input.Fails() ==>
      r.Ok? && fresh(r.value) && r.value.contents == input.data[old(input.pos)..input.Stop()]
  {
    if !created {
      return Err(IOError("Unable to create temporary file"));
    }
    var file := new TempFile();
    var buffer := new byte[BufferSize];
    var start := input.pos;
    while true
      invariant input.Valid() && start <= input.pos <= input.Stop()
      invariant file.contents == input.data[start..input.pos]
      decreases input.Stop() - input.pos
    {
      ghost var before := input.pos;
      var n := input.Read(buffer);
      if n.Err? {
        return Err(n.error);
      }
      if n.value == -1 {
        break;
      }
      file.Write(buffer, 0, n.value);
      assert input.data[start..input.pos] == input.data[start..before] + input.data[before..input.pos];
    }
    return Ok(file);
  }

  /** What opening a connection yields: an IOException (a malformed URL, an unreachable host), or a response. */
  datatype Answer = Unreachable | Response(status: int, body: ByteSource)

  /** The remote end of the connection, and the URLs connections have been opened to. */
  class Server {
    const answer: Answer
    ghost var connections: seq<string>

    constructor (answer: Answer)
      ensures this.answer == answer && connections == []
    {
      this.answer := answer;
      connections := [];
    }

    /** new URL(url).openConnection() followed by getResponseCode(). */
    method Open(url: string) returns (a: Answer)
      modifies this`connections
      ensures a == answer && connections == old(connections) + [url]
    {
      connections := connections + [url];
      a := answer;
    }
  }

  /** The body stream of the server's answer, the only stream downloading may read from. */
  function BodyOf(server: Server): set<ByteSource> {
    if server.answer.Response? then {server.answer.body} else {}
  }

  /**
   * downloadPdfs: validation first, and no connection at all when it fails; then any status other
   * than 200 is PdfNotFoundException, an IOException anywhere is PdfProcessingException, and a
   * 200 answer yields a list of exactly one file holding the body's bytes.
   */
  method DownloadPdfs(url: Option<string>, server: Server, canCreateFile: bool) returns (r: Result<seq<TempFile>, Failure>)
    requires server.answer.Response? ==> server.answer.body.Valid()
    modifies server`connections, BodyOf(server)
    ensures ValidateUrl(url).Err? ==> r == Err(ValidateUrl(url).error) && server.connections == old(server.connections)
    ensures ValidateUrl(url).Ok? ==> server.connections == old(server.connections) + [url.value]
    ensures ValidateUrl(url).Ok? && server.answer.Unreachable? ==> r == Err(PdfProcessing(DownloadFailedMessage))
    ensures ValidateUrl(url).Ok? && server.answer.Response? && server.answer.status != HttpOk ==>
      r == Err(PdfNotFound(NoPdfsMessage))
    ensures ValidateUrl(url).Ok? && server.answer.Response? && server.answer.status == HttpOk ==>
      var body := server.answer.body;
      if canCreateFile && !body.Fails() then
        r.Ok? && |r.value| == 1 && fresh(r.value[0]) && r.value[0].contents == body.data[old(body.pos)..body.Stop()]
      else
        r == Err(PdfProcessing(DownloadFailedMessage))
  {
    var valid := ValidateUrl(url);
    if valid.Err? {
      return Err(valid.error);
    }
    var answer := server.Open(url.value);
    match answer
    case Unreachable =>
      return Err(PdfProcessing(DownloadFailedMessage));
    case Response(status, body) =>
      if status != HttpOk {
        return Err(PdfNotFound(NoPdfsMessage));
      }
      var saved := SavePdfFromStream(body, canCreateFile);
      if saved.Err? {
        return Err(PdfProcessing(DownloadFailedMessage));
      }
      return Ok([saved.value]);
  }
}
