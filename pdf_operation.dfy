/** The operation for a PDF file (`PDFOCROperation`): it opens the document and
    refuses one without pages before any stream exists, then renders and recognizes
    every page in order. A page that fails is reported on standard error and skipped;
    the stream always finishes normally. */
module PdfOperation {
  import opened Common
  import opened Host
  import opened Paths
  import opened RequestValidation
  import opened Recognition
  import opened OperationBase

  /** What `document.cgImage(at:)` gives for one page: the rendered image, or the
      error it throws (a page that is not found, an image that cannot be made). */
  datatype PageRender = Rendered(image: Image) | RenderFailed(error: Error)

  /** An opened `CGPDFDocument`: the rendering of each page, page 1 first. */
  datatype PdfDocument = PdfDocument(pages: seq<PageRender>)

  /** The text of one page, or the error that stops it. */
  function PageText(render: PageRender, customLanguages: seq<string>, query: SupportedQuery,
                    engine: Engine): (r: Result<string>)
    ensures render.RenderFailed? ==> r == Err(render.error)
    ensures render.Rendered? ==>
              r == RecognizeWith(render.image, ValidateLanguagesPrivately(customLanguages, query), engine)
  {
    match render
    case RenderFailed(e) => Err(e)
    case Rendered(image) => RecognizeWith(image, ValidateLanguagesPrivately(customLanguages, query), engine)
  }

  /** The outcome of every page, in page order. */
  function PageOutcomes(pages: seq<PageRender>, customLanguages: seq<string>, query: SupportedQuery,
                        engine: Engine): (outcomes: seq<Result<string>>)
    ensures |outcomes| == |pages|
    ensures forall i :: 0 <= i < |pages| ==> outcomes[i] == PageText(pages[i], customLanguages, query, engine)
  {
    seq(|pages|, i requires 0 <= i < |pages| => PageText(pages[i], customLanguages, query, engine))
  }

  /** The name of the result for page `page`: `<basename>-<page>`. */
  function PageName(basename: string, page: nat): (name: string)
    ensures StartsWith(basename + "-", name)
  {
    var name := basename + "-" + NatToString(page);
    assert name[..|basename + "-"|] == basename + "-";
    name
  }

  /** The warning written for a page that failed. */
  function PageWarning(url: string, page: nat, e: Error): (line: string)
    ensures StartsWith("WARN: Error processing PDF page #", line)
  {
    var lead := "WARN: Error processing PDF page #";
    var line := lead + NatToString(page) + " at " + url + ": " + Interpolated(e) + "\n";
    assert line[..|lead|] == lead;
    line
  }

  /** The results yielded for the first `n` pages. */
  function PageResults(outcomes: seq<Result<string>>, basename: string, n: nat): (results: seq<OCRResult>)
    requires n <= |outcomes|
    ensures |results| <= n
    ensures forall i :: 0 <= i < |results| ==> StartsWith(basename + "-", results[i].suggestedFilename)
  {
    if n == 0 then []
    else
      var earlier := PageResults(outcomes, basename, n - 1);
      if outcomes[n - 1].Ok? then earlier + [OCRResult(outcomes[n - 1].value, PageName(basename, n))]
      else earlier
  }

  /** The warnings written for the first `n` pages. */
  function PageWarnings(outcomes: seq<Result<string>>, url: string, n: nat): (warnings: string)
    requires n <= |outcomes|
    ensures warnings == "" || StartsWith("WARN: Error processing PDF page #", warnings)
  {
    if n == 0 then ""
    else
      var earlier := PageWarnings(outcomes, url, n - 1);
      if outcomes[n - 1].Err? then
        var warning := PageWarning(url, n, outcomes[n - 1].error);
        if earlier == "" then
          assert earlier + warning == warning;
          earlier + warning
        else
          StartsWithAppend(earlier, warning);
          StartsWithTransitive("WARN: Error processing PDF page #", earlier, earlier + warning);
          earlier + warning
      else earlier
  }

  /** The page numbers, among the first `n`, whose page gave a result. */
  function SucceededPages(outcomes: seq<Result<string>>, n: nat): (pages: seq<nat>)
    requires n <= |outcomes|
    ensures forall i :: 0 <= i < |pages| ==> 1 <= pages[i] <= n && outcomes[pages[i] - 1].Ok?
  {
    if n == 0 then []
    else if outcomes[n - 1].Ok? then SucceededPages(outcomes, n - 1) + [n]
    else SucceededPages(outcomes, n - 1)
  }

  /** The page numbers, among the first `n`, whose page failed. */
  function FailedPages(outcomes: seq<Result<string>>, n: nat): (pages: seq<nat>)
    requires n <= |outcomes|
    ensures forall i :: 0 <= i < |pages| ==> 1 <= pages[i] <= n && outcomes[pages[i] - 1].Err?
  {
    if n == 0 then []
    else if outcomes[n - 1].Err? then FailedPages(outcomes, n - 1) + [n]
    else FailedPages(outcomes, n - 1)
  }

  /** What `run(fast:)` gives for the document at `url`, opened as `pdf`: the
      error it throws, or the stream once every page has been visited. */
  function PdfStream(pdf: Option<PdfDocument>, url: string, customLanguages: seq<string>,
                     query: SupportedQuery, engine: Engine): (r: Result<Stream>)
    ensures pdf.None? ==> r == Err(Failure("Failed to read PDF at " + url))
    ensures pdf.Some? && pdf.value.pages == [] ==> r == Err(Failure("PDF has no pages at " + url))
    ensures r.Ok? <==> pdf.Some? && pdf.value.pages != []
    ensures r.Ok? ==> r.value.end == Some(Finished)
                      && |r.value.results| <= |pdf.value.pages|
  {
    if pdf.None? then Err(Failure("Failed to read PDF at " + url))
    else if |pdf.value.pages| == 0 then Err(Failure("PDF has no pages at " + url))
    else
      var outcomes := PageOutcomes(pdf.value.pages, customLanguages, query, engine);
      PartitionPages(outcomes, |outcomes|);
      ResultsFollowPages(outcomes, FileStem(url), |outcomes|);
      Ok(Stream(PageResults(outcomes, FileStem(url), |outcomes|), Some(Finished)))
  }

  /** What `run(fast:)` writes to standard error for the document at `url`. */
  function PdfWarnings(pdf: Option<PdfDocument>, url: string, customLanguages: seq<string>,
                       query: SupportedQuery, engine: Engine): string
  {
    if pdf.None? || |pdf.value.pages| == 0 then ""
    else
      var outcomes := PageOutcomes(pdf.value.pages, customLanguages, query, engine);
      PageWarnings(outcomes, url, |outcomes|)
  }

  /** Every visited page either succeeds or fails, and the two lists of page numbers
      are ascending, within 1..n, and together as long as the pages visited. */
  lemma {:induction false} PartitionPages(outcomes: seq<Result<string>>, n: nat)
    requires n <= |outcomes|
    ensures |SucceededPages(outcomes, n)| + |FailedPages(outcomes, n)| == n
    ensures forall i, j :: 0 <= i < j < |SucceededPages(outcomes, n)| ==>
              SucceededPages(outcomes, n)[i] < SucceededPages(outcomes, n)[j]
    ensures forall p :: 1 <= p <= n && outcomes[p - 1].Ok? ==> p in SucceededPages(outcomes, n)
    ensures forall p :: 1 <= p <= n && outcomes[p - 1].Err? ==> p in FailedPages(outcomes, n)
  {
    if n > 0 {
      PartitionPages(outcomes, n - 1);
    }
  }

  /** The i-th result is the text of the i-th page that succeeded, named after that
      page. */
  lemma {:induction false} ResultsFollowPages(outcomes: seq<Result<string>>, basename: string, n: nat)
    requires n <= |outcomes|
    ensures |PageResults(outcomes, basename, n)| == |SucceededPages(outcomes, n)| <= n
    ensures forall i :: 0 <= i < |PageResults(outcomes, basename, n)| ==>
              var page := SucceededPages(outcomes, n)[i];
              1 <= page <= n && outcomes[page - 1].Ok?
              && PageResults(outcomes, basename, n)[i]
                 == OCRResult(outcomes[page - 1].value, PageName(basename, page))
  {
    if n > 0 {
      ResultsFollowPages(outcomes, basename, n - 1);
      PartitionPages(outcomes, n);
    }
  }

  /** Results of different pages never share a file name. */
  lemma DistinctPageNames(outcomes: seq<Result<string>>, basename: string, n: nat)
    requires n <= |outcomes|
    ensures var results := PageResults(outcomes, basename, n);
            forall i, j :: 0 <= i < j < |results| ==>
              results[i].suggestedFilename != results[j].suggestedFilename
  {
    var results := PageResults(outcomes, basename, n);
    var pages := SucceededPages(outcomes, n);
    ResultsFollowPages(outcomes, basename, n);
    PartitionPages(outcomes, n);
    forall i, j | 0 <= i < j < |results|
      ensures results[i].suggestedFilename != results[j].suggestedFilename
    {
      if results[i].suggestedFilename == results[j].suggestedFilename {
        NamesDetermineNumber(basename, pages[i], pages[j]);
      }
    }
  }

  /** A page name gives back its page number. */
  lemma NamesDetermineNumber(basename: string, p: nat, q: nat)
    requires PageName(basename, p) == PageName(basename, q)
    ensures p == q
  {
    var lead := basename + "-";
    assert PageName(basename, p)[|lead|..] == NatToString(p);
    assert PageName(basename, q)[|lead|..] == NatToString(q);
    NatToStringInjective(p, q);
  }

  /** Standard error stays silent exactly when every page was recognized. */
  lemma {:induction false} WarningsOnlyForFailures(outcomes: seq<Result<string>>, url: string, n: nat)
    requires n <= |outcomes|
    ensures PageWarnings(outcomes, url, n) == "" <==> FailedPages(outcomes, n) == []
    ensures |PageWarnings(outcomes, url, n)| >= |FailedPages(outcomes, n)|
  {
    if n > 0 {
      WarningsOnlyForFailures(outcomes, url, n - 1);
    }
  }

  /** The warnings for the given failed pages, one after the other. */
  function WarningsFor(outcomes: seq<Result<string>>, url: string, pages: seq<nat>): string
    requires forall i :: 0 <= i < |pages| ==> 1 <= pages[i] <= |outcomes| && outcomes[pages[i] - 1].Err?
  {
    if pages == [] then ""
    else
      var page := pages[|pages| - 1];
      WarningsFor(outcomes, url, pages[..|pages| - 1]) + PageWarning(url, page, outcomes[page - 1].error)
  }

  /** Standard error gets exactly one warning per failed page, in page order, each
      naming its page and its error. */
  lemma {:induction false} WarningsFollowFailedPages(outcomes: seq<Result<string>>, url: string, n: nat)
    requires n <= |outcomes|
    ensures PageWarnings(outcomes, url, n) == WarningsFor(outcomes, url, FailedPages(outcomes, n))
  {
    if n > 0 {
      WarningsFollowFailedPages(outcomes, url, n - 1);
      if outcomes[n - 1].Err? {
        var failed := FailedPages(outcomes, n);
        assert failed[..|failed| - 1] == FailedPages(outcomes, n - 1);
      }
    }
  }

  /** The warning of every failed page reaches standard error. */
  lemma {:induction false} FailedPageWarned(outcomes: seq<Result<string>>, url: string, n: nat, p: nat)
    requires n <= |outcomes| && 1 <= p <= n && outcomes[p - 1].Err?
    ensures IsInfix(PageWarning(url, p, outcomes[p - 1].error), PageWarnings(outcomes, url, n))
  {
    var earlier := PageWarnings(outcomes, url, n - 1);
    if p == n {
      var warning := PageWarning(url, p, outcomes[p - 1].error);
      assert InfixAt(warning, warning, 0);
      InfixOfAppend(warning, earlier, warning);
    } else {
      FailedPageWarned(outcomes, url, n - 1, p);
      if outcomes[n - 1].Err? {
        StartsWithAppend(earlier, PageWarning(url, n, outcomes[n - 1].error));
        InfixOfPrefix(PageWarning(url, p, outcomes[p - 1].error), earlier, PageWarnings(outcomes, url, n));
      }
    }
  }

  class PDFOCROperation {
    const documentURL: string
    const customLanguages: seq<string>

    constructor (fileURL: string, customLanguages: seq<string>)
      ensures documentURL == fileURL && this.customLanguages == customLanguages
    {
      documentURL := fileURL;
      this.customLanguages := customLanguages;
    }

    /** The body of the page loop up to the yield: render the page, then recognize
        the image with a fresh `CGImageOCR`. */
    method RecognizePage(render: PageRender, query: SupportedQuery, engine: Engine) returns (text: Result<string>)
      ensures text == PageText(render, customLanguages, query, engine)
    {
      match render
      case RenderFailed(e) =>
        text := Err(e);
      case Rendered(image) =>
        var ocr := new CGImageOCR(image, customLanguages);
        text := ocr.Run(query, engine);
    }

    /** The page loop: pages 1 to N in order, yielding each recognized page and
        warning about each failed one. */
    method VisitPages(document: PdfDocument, basename: string, query: SupportedQuery, engine: Engine,
                      continuation: Continuation, console: Console)
      requires continuation.yielded == [] && continuation.end == None
      modifies continuation, console
      ensures var outcomes := PageOutcomes(document.pages, customLanguages, query, engine);
              && continuation.yielded == PageResults(outcomes, basename, |outcomes|)
              && continuation.end == None
              && console.stdout == old(console.stdout)
              && console.stderr == old(console.stderr) + PageWarnings(outcomes, documentURL, |outcomes|)
    {
      ghost var outcomes := PageOutcomes(document.pages, customLanguages, query, engine);
      ghost var start := console.stderr;
      var page := 1;
      while page <= |document.pages|
        invariant 1 <= page <= |document.pages| + 1
        invariant continuation.yielded == PageResults(outcomes, basename, page - 1)
        invariant continuation.end == None
        invariant console.stdout == old(console.stdout)
        invariant console.stderr == start + PageWarnings(outcomes, documentURL, page - 1)
      {
        var text := RecognizePage(document.pages[page - 1], query, engine);
        assert text == outcomes[page - 1];
        ghost var warnings := PageWarnings(outcomes, documentURL, page - 1);
        if text.Ok? {
          continuation.Yield(OCRResult(text.value, PageName(basename, page)));
        } else {
          var warning := PageWarning(documentURL, page, text.error);
          console.PutError(warning);
          assert PageWarnings(outcomes, documentURL, page) == warnings + warning;
          AppendTwice(start, warnings, warning);
        }
        page := page + 1;
      }
    }

    /** `run(fast:)` for the document opened as `pdf`; the page task is run to
        completion before the stream is returned. */
    method Run(pdf: Option<PdfDocument>, query: SupportedQuery, engine: Engine, console: Console)
      returns (r: Result<Stream>)
      modifies console
      ensures r == PdfStream(pdf, documentURL, customLanguages, query, engine)
      ensures console.stdout == old(console.stdout)
      ensures console.stderr
              == old(console.stderr) + PdfWarnings(pdf, documentURL, customLanguages, query, engine)
    {
      var basename := FileStem(documentURL);
      if pdf.None? {
        return Err(Failure("Failed to read PDF at " + documentURL));
      }
      var document := pdf.value;
      if |document.pages| == 0 {
        return Err(Failure("PDF has no pages at " + documentURL));
      }
      var continuation := new Continuation();
      VisitPages(document, basename, query, engine, continuation, console);
      continuation.Finish(Finished);
      r := Ok(continuation.Observed());
    }
  }
}
