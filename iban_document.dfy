/**
 * Document-level extraction of IbanExtractionService: an encrypted or unreadable PDF is refused,
 * otherwise the text of the whole document, of every page and of every page's whole-page region is
 * scanned, and the IBANs found are collected into one set.
 */
module IbanDocument {
  import opened Outcomes
  import opened Failures
  import opened Lists
  import opened IbanExtraction
  import IbanValidation

  const ReadErrorMessage := "Error while reading PDF file."
  const EncryptedMessage := "PDF is encrypted and cannot be processed."

  /** What PDFTextStripper.getText yields: the text, or an IOException. */
  datatype TextRead = TextOk(text: string) | TextIOError

  /** What PDFTextStripperByArea yields for the whole-page region: possibly null text, or an IOException. */
  datatype RegionRead = RegionOk(text: Option<string>) | RegionIOError

  /** One page: its text through the page-range stripper and through the area stripper. */
  datatype Page = Page(text: TextRead, region: RegionRead)

  /**
   * A PDF file as PDFBox sees it: either Loader.loadPDF fails with an IOException, or the document
   * is loaded with its encryption flag, the text of all pages at once, and its pages in order.
   */
  datatype PdfFile = Unloadable | Loaded(encrypted: bool, whole: TextRead, pages: seq<Page>)

  // ---------------------------------------------------------------------------------------------
  // The texts the service scans
  // ---------------------------------------------------------------------------------------------

  /**
   * The texts extractIbansFromAnnotations scans: none when the region text is null or empty, the
   * region text otherwise; None stands for the IOException PDFBox throws.
   */
  function RegionChunks(region: RegionRead): (r: Option<seq<string>>)
    ensures r.None? <==> region.RegionIOError?
    ensures r.Some? ==> forall c :: c in r.value <==> region.text.Some? && region.text.value != "" && c == region.text.value
  {
    match region
    case RegionIOError => None
    case RegionOk(text) => if text.Some? && text.value != "" then Some([text.value]) else Some([])
  }

  /** The texts one turn of the page loop scans: the page's text, then its region's; None when either read throws. */
  function PageChunks(page: Page): (r: Option<seq<string>>)
    ensures r.None? <==> PageFails(page)
  {
    match page.text
    case TextIOError => None
    case TextOk(s) =>
      match RegionChunks(page.region)
      case None => None
      case Some(a) => Some([s] + a)
  }

  /** A page fails to read when either of its strippers throws. */
  predicate PageFails(page: Page) {
    page.text.TextIOError? || page.region.RegionIOError?
  }

  /** The texts the first n pages yield, in order, or None when one of them throws. */
  function PagesChunks(pages: seq<Page>, n: nat): (r: Option<seq<string>>)
    requires n <= |pages|
    ensures r.Some? ==> |r.value| >= n
  {
    if n == 0 then Some([])
    else
      match PagesChunks(pages, n - 1)
      case None => None
      case Some(s) =>
        match PageChunks(pages[n - 1])
        case None => None
        case Some(p) => Some(s + p)
  }

  /**
   * The texts extractIbans scans, or the PdfProcessingException it throws: for a file that does
   * not load, an encrypted document, and every IOException while stripping text.
   */
  function DocumentChunks(pdf: PdfFile): (r: Result<seq<string>, Failure>)
    ensures r.Err? ==> r.error.PdfProcessing?
    ensures r.Ok? ==> pdf.Loaded? && !pdf.encrypted && |r.value| >= 1 + |pdf.pages|
  {
    match pdf
    case Unloadable => Err(PdfProcessing(ReadErrorMessage))
    case Loaded(encrypted, whole, pages) =>
      if encrypted then Err(PdfProcessing(EncryptedMessage))
      else if whole.TextIOError? then Err(PdfProcessing(ReadErrorMessage))
      else
        match PagesChunks(pages, |pages|)
        case None => Err(PdfProcessing(ReadErrorMessage))
        case Some(s) => Ok([whole.text] + s)
  }

  /** The union of the IBANs found in each of the texts. */
  function ChunksIbans(cs: seq<string>): (r: set<string>)
    ensures forall c :: c in r ==> ExtractionChecksum(Some(c))
  {
    if cs == [] then {} else ChunksIbans(cs[..|cs| - 1]) + TextIbans(cs[|cs| - 1])
  }

  /** extractIbans as a set: the union over the texts it scans, or the exception it throws. */
  function DocumentIbans(pdf: PdfFile): (r: Result<set<string>, Failure>)
    ensures r.Err? ==> r.error.PdfProcessing?
    ensures r.Ok? ==> forall c :: c in r.value ==> ExtractionChecksum(Some(c))
  {
    match DocumentChunks(pdf)
    case Err(f) => Err(f)
    case Ok(cs) => Ok(ChunksIbans(cs))
  }

  // ---------------------------------------------------------------------------------------------
  // Properties
  // ---------------------------------------------------------------------------------------------

  /** The union over a + b is the union over a joined with the union over b. */
  lemma {:induction false} ChunksIbansConcat(a: seq<string>, b: seq<string>)
    ensures ChunksIbans(a + b) == ChunksIbans(a) + ChunksIbans(b)
  {
    if b != [] {
      assert (a + b)[..|a + b| - 1] == a + b[..|b| - 1];
      ChunksIbansConcat(a, b[..|b| - 1]);
    } else {
      assert a + b == a;
    }
  }

  /** An IBAN is in the union exactly when one of the texts yields it. */
  lemma {:induction false} ChunksIbansSpec(cs: seq<string>)
    ensures forall x :: x in ChunksIbans(cs) <==> exists c :: c in cs && x in TextIbans(c)
  {
    if cs != [] {
      var init, last := cs[..|cs| - 1], cs[|cs| - 1];
      ChunksIbansSpec(init);
      assert cs == init + [last];
      assert ChunksIbans(cs) == ChunksIbans(init) + TextIbans(last);
      forall x | x in ChunksIbans(cs)
        ensures exists c :: c in cs && x in TextIbans(c)
      {
        if x !in TextIbans(last) {
          var c :| c in init && x in TextIbans(c);
          assert c in cs;
        }
      }
    }
  }

  /** The pages throw exactly when one of them fails. */
  lemma {:induction false} PagesFailure(pages: seq<Page>, n: nat)
    requires n <= |pages|
    ensures PagesChunks(pages, n).None? <==> exists j :: 0 <= j < n && PageFails(pages[j])
  {
    if n > 0 {
      PagesFailure(pages, n - 1);
    }
  }

  /** Otherwise the texts of the pages are those of each page, page after page. */
  lemma {:induction false} PagesChunksSpec(pages: seq<Page>, n: nat)
    requires n <= |pages| && PagesChunks(pages, n).Some?
    ensures forall c :: c in PagesChunks(pages, n).value <==>
      exists j :: 0 <= j < n && PageChunks(pages[j]).Some? && c in PageChunks(pages[j]).value
  {
    if n > 0 {
      PagesChunksSpec(pages, n - 1);
      var before, here := PagesChunks(pages, n - 1).value, PageChunks(pages[n - 1]).value;
      assert PagesChunks(pages, n).value == before + here;
      forall c | c in before + here
        ensures exists j :: 0 <= j < n && PageChunks(pages[j]).Some? && c in PageChunks(pages[j]).value
      {
        if c in here {
          assert PageChunks(pages[n - 1]).Some? && c in PageChunks(pages[n - 1]).value;
        }
      }
    }
  }

  /**
   * When extractIbans throws: PdfProcessingException with the encryption message for an encrypted
   * document, with the read-error message for a file that does not load and for every IOException
   * while stripping the whole text, a page's text or a page's region.
   */
  lemma DocumentFailure(pdf: PdfFile)
    ensures DocumentIbans(pdf).Err? <==>
      pdf.Unloadable? || pdf.encrypted || pdf.whole.TextIOError? || exists j :: 0 <= j < |pdf.pages| && PageFails(pdf.pages[j])
    ensures DocumentIbans(pdf).Err? ==>
      DocumentIbans(pdf).error == PdfProcessing(if pdf.Loaded? && pdf.encrypted then EncryptedMessage else ReadErrorMessage)
  {
    if pdf.Loaded? && !pdf.encrypted && pdf.whole.TextOk? {
      PagesFailure(pdf.pages, |pdf.pages|);
    }
  }

  /**
   * What extractIbans returns otherwise: exactly the IBANs of the whole text and of every page's
   * text and non-empty region text.
   */
  lemma DocumentIbansSpec(pdf: PdfFile)
    requires DocumentIbans(pdf).Ok?
    ensures forall x :: x in DocumentIbans(pdf).value <==>
      x in TextIbans(pdf.whole.text) ||
      exists j, c :: 0 <= j < |pdf.pages| && PageChunks(pdf.pages[j]).Some? && c in PageChunks(pdf.pages[j]).value && x in TextIbans(c)
  {
    var cs := DocumentChunks(pdf).value;
    var rest := PagesChunks(pdf.pages, |pdf.pages|).value;
    assert cs == [pdf.whole.text] + rest;
    ChunksIbansSpec(cs);
    PagesChunksSpec(pdf.pages, |pdf.pages|);
    forall x | exists j, c :: 0 <= j < |pdf.pages| && PageChunks(pdf.pages[j]).Some? && c in PageChunks(pdf.pages[j]).value && x in TextIbans(c)
      ensures x in DocumentIbans(pdf).value
    {
      var j, c :| 0 <= j < |pdf.pages| && PageChunks(pdf.pages[j]).Some? && c in PageChunks(pdf.pages[j]).value && x in TextIbans(c);
      assert c in rest;
      assert c in cs;
    }
    if x :| x in TextIbans(pdf.whole.text) {
      assert pdf.whole.text in cs;
    }
  }

  /**
   * Every IBAN extractIbans returns has the candidate shape and is accepted by the validation
   * service's fallback check.
   */
  lemma DocumentIbansValid(pdf: PdfFile)
    requires DocumentIbans(pdf).Ok?
    ensures forall x :: x in DocumentIbans(pdf).value ==> CandidateShape(x) && IbanValidation.IsValidIbanChecksum(x) == Ok(true)
  {
    var cs := DocumentChunks(pdf).value;
    ChunksIbansSpec(cs);
    forall x | x in DocumentIbans(pdf).value
      ensures CandidateShape(x) && IbanValidation.IsValidIbanChecksum(x) == Ok(true)
    {
      var c :| c in cs && x in TextIbans(c);
      TextIbansSpec(c);
    }
  }

  // ---------------------------------------------------------------------------------------------
  // The service's methods
  // ---------------------------------------------------------------------------------------------

  /** extractIbansFromAnnotations: the region text, checked for null and emptiness, then its IBANs. */
  method ExtractIbansFromAnnotations(region: RegionRead) returns (r: Option<set<string>>)
    ensures r.None? <==> region.RegionIOError?
    ensures r.Some? ==> r.value == ChunksIbans(RegionChunks(region).value)
  {
    if region.RegionIOError? {
      return None;
    }
    var areaText := region.text;
    if areaText.Some? && areaText.value != "" {
      var found := ExtractIbansFromText(areaText.value);
      assert [areaText.value][..0] == [];
      return Some(found);
    }
    return Some({});
  }

  /** One turn of extractIbans's page loop: the page's text, then its region. */
  method ScanPage(page: Page) returns (r: Option<set<string>>)
    ensures r.None? <==> PageFails(page)
    ensures r.Some? ==> r.value == ChunksIbans(PageChunks(page).value)
  {
    if page.text.TextIOError? {
      return None;
    }
    var pageIbans := ExtractIbansFromText(page.text.text);
    var annotated := ExtractIbansFromAnnotations(page.region);
    if annotated.None? {
      return None;
    }
    ChunksIbansConcat([page.text.text], RegionChunks(page.region).value);
    assert [page.text.text][..0] == [];
    return Some(pageIbans + annotated.value);
  }

  /** The page loop of extractIbans: pages 1 to getNumberOfPages(), stopping at the first IOException. */
  method ScanPages(pages: seq<Page>) returns (r: Option<set<string>>)
    ensures r.None? <==> PagesChunks(pages, |pages|).None?
    ensures r.Some? ==> r.value == ChunksIbans(PagesChunks(pages, |pages|).value)
  {
    var ibanSet: set<string> := {};
    var i := 1;
    while i <= |pages|
      invariant 1 <= i <= |pages| + 1
      invariant PagesChunks(pages, i - 1).Some?
      invariant ibanSet == ChunksIbans(PagesChunks(pages, i - 1).value)
    {
      var pageIbans := ScanPage(pages[i - 1]);
      if pageIbans.None? {
        FailureStays(pages, i, |pages|);
        return None;
      }
      ChunksIbansConcat(PagesChunks(pages, i - 1).value, PageChunks(pages[i - 1]).value);
      ibanSet := ibanSet + pageIbans.value;
      i := i + 1;
    }
    return Some(ibanSet);
  }

  /** Once one of the first n pages throws, so do the first m >= n. */
  lemma {:induction false} FailureStays(pages: seq<Page>, n: nat, m: nat)
    requires n <= m <= |pages| && PagesChunks(pages, n).None?
    ensures PagesChunks(pages, m).None?
    decreases m - n
  {
    if n < m {
      FailureStays(pages, n, m - 1);
    }
  }

  /** new ArrayList<>(set): every element once, in an order the model leaves open. */
  method SetToList(s: set<string>) returns (xs: seq<string>)
    ensures NoDuplicates(xs)
    ensures forall x :: x in xs <==> x in s
  {
    xs := [];
    var rest := s;
    while rest != {}
      invariant forall x :: x in xs <==> x in s && x !in rest
      invariant rest <= s
      invariant NoDuplicates(xs)
      decreases |rest|
    {
      var x :| x in rest;
      xs := xs + [x];
      rest := rest - {x};
    }
  }

  /**
   * extractIbans: the whole text first, then page by page the page's text and its region; an
   * encrypted document or an IOException anywhere ends the scan with PdfProcessingException.
   */
  method ExtractIbans(pdf: PdfFile) returns (r: Result<seq<string>, Failure>)
    ensures r.Err? <==> DocumentIbans(pdf).Err?
    ensures r.Err? ==> r.error == DocumentIbans(pdf).error
    ensures r.Ok? ==> NoDuplicates(r.value) && forall x :: x in r.value <==> x in DocumentIbans(pdf).value
  {
    if pdf.Unloadable? {
      return Err(PdfProcessing(ReadErrorMessage));
    }
    if pdf.encrypted {
      return Err(PdfProcessing(EncryptedMessage));
    }
    if pdf.whole.TextIOError? {
      return Err(PdfProcessing(ReadErrorMessage));
    }
    var ibanSet := ExtractIbansFromText(pdf.whole.text);
    var pageSet := ScanPages(pdf.pages);
    if pageSet.None? {
      return Err(PdfProcessing(ReadErrorMessage));
    }
    ChunksIbansConcat([pdf.whole.text], PagesChunks(pdf.pages, |pdf.pages|).value);
    assert [pdf.whole.text][..0] == [];
    var list := SetToList(ibanSet + pageSet.value);
    return Ok(list);
  }
}
