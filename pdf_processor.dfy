/**
 * utils/pdf_processor.py: text extraction, the sufficiency threshold, advisory
 * language detection and the `process_pdf` pipeline that runs them in order.
 * The PDF is what pdfplumber makes of the file (its pages' texts, or the
 * exception it raises); the language detector is a parameter.
 */
module PdfProcessor {
  import opened Wrappers
  import opened Text
  import opened Errors

  /** What opening and reading the file with pdfplumber yields. */
  datatype PdfDoc =
    | Opened(pages: seq<Option<string>>)  // `page.extract_text()` of each page, in order
    | SyntaxError(error: Exc)             // pdfplumber raised PDFSyntaxError
    | ReadFailure(error: Exc)             // any other exception while opening or reading

  /** The outcome of langdetect's `detect(text)`. */
  datatype Detection = Detected(lang: string) | LangDetectError

  const DefaultMinTextLength := 50
  const DefaultLang := "en"
  const NoPagesMessage := "PDF file has no pages."

  /** Python truthiness of a page's extracted text: `None` and `""` are false. */
  predicate HasText(t: Option<string>) {
    t.Some? && t.value != ""
  }

  /** The texts of the pages that have text, in page order (the `full_text` list). */
  function PageTexts(pages: seq<Option<string>>): (ts: seq<string>)
    ensures |ts| <= |pages|
    ensures forall i :: 0 <= i < |ts| ==> ts[i] != ""
  {
    if pages == [] then []
    else
      var last := pages[|pages| - 1];
      PageTexts(pages[..|pages| - 1]) + (if HasText(last) then [last.value] else [])
  }

  /** Collecting page texts distributes over splitting the document. */
  lemma {:induction false} PageTextsAppend(a: seq<Option<string>>, b: seq<Option<string>>)
    ensures PageTexts(a + b) == PageTexts(a) + PageTexts(b)
    decreases |b|
  {
    if b != [] {
      var b' := b[..|b| - 1];
      assert (a + b)[..|a + b| - 1] == a + b';
      PageTextsAppend(a, b');
    } else {
      assert a + b == a;
    }
  }

  /** A page without text contributes nothing; a page with text contributes exactly its text. */
  lemma PageTextsOfOnePage(p: Option<string>)
    ensures PageTexts([p]) == if HasText(p) then [p.value] else []
  {
    assert [p][..0] == [];
  }

  /** The specification of `extract_text_from_pdf(path)`, where `fileExists` is
      `os.path.exists(path)`. The no-pages error is raised inside the `try` and so
      is caught and re-wrapped by the generic handler. */
  function Extract(fileExists: bool, path: string, doc: PdfDoc): (r: Result<string, Exc>)
    ensures r.Err? ==> r.error.PdfError?
    ensures r.Ok? ==> fileExists && doc.Opened? && doc.pages != []
  {
    if !fileExists then Err(PDFProcessingError("PDF file not found: " + path))
    else match doc
      case SyntaxError(e) =>
        Err(PDFProcessingError("Invalid PDF file or syntax error: " + Basename(path), Some(e)))
      case ReadFailure(e) =>
        Err(PDFProcessingError("Failed to extract text from PDF: " + Basename(path), Some(e)))
      case Opened(pages) =>
        if pages == [] then
          Err(PDFProcessingError("Failed to extract text from PDF: " + Basename(path),
                                 Some(PDFProcessingError(NoPagesMessage))))
        else Ok(Strip(Join(PageTexts(pages), "\n")))
  }

  /** `extract_text_from_pdf`: the page loop that appends each page's text when it has any. */
  method ExtractTextFromPdf(fileExists: bool, path: string, doc: PdfDoc) returns (r: Result<string, Exc>)
    ensures r == Extract(fileExists, path, doc)
  {
    if !fileExists {
      return Err(PDFProcessingError("PDF file not found: " + path));
    }
    match doc {
      case SyntaxError(e) =>
        return Err(PDFProcessingError("Invalid PDF file or syntax error: " + Basename(path), Some(e)));
      case ReadFailure(e) =>
        return Err(PDFProcessingError("Failed to extract text from PDF: " + Basename(path), Some(e)));
      case Opened(pages) =>
        if pages == [] {
          var noPages := PDFProcessingError(NoPagesMessage);
          return Err(PDFProcessingError("Failed to extract text from PDF: " + Basename(path), Some(noPages)));
        }
        var fullText: seq<string> := [];
        for i := 0 to |pages|
          invariant fullText == PageTexts(pages[..i])
        {
          var pageText := pages[i];
          if pageText.Some? && pageText.value != "" {
            fullText := fullText + [pageText.value];
          }
          assert pages[..i + 1][..i] == pages[..i];
        }
        assert pages[..|pages|] == pages;
        r := Ok(Strip(Join(fullText, "\n")));
    }
  }

  /** A missing file fails with "PDF file not found" whatever the file would have contained:
      nothing is opened. */
  lemma MissingFileFailsBeforeOpening(path: string, d1: PdfDoc, d2: PdfDoc)
    ensures Extract(false, path, d1) == Extract(false, path, d2)
    ensures Extract(false, path, d1) == Err(PdfError("PDF file not found: " + path, None))
  {
  }

  /** A document with zero pages never yields text, and the text the user sees still
      names the no-pages cause. */
  lemma NoPagesAlwaysFails(path: string)
    ensures Extract(true, path, Opened([])).Err?
    ensures Contains(Str(Extract(true, path, Opened([])).error), "PDF file has no pages")
  {
    var prefix := "Failed to extract text from PDF: " + Basename(path);
    var e := Extract(true, path, Opened([])).error;
    assert Str(e) == prefix + ": " + "PDF file has no pages" + ".";
    ContainsMiddle(prefix + ": ", "PDF file has no pages", ".");
  }

  /** Pages that exist but carry no text give the empty text, without error:
      sufficiency is not the extractor's concern. */
  lemma {:induction false} TextlessPagesGiveEmptyText(path: string, pages: seq<Option<string>>)
    requires pages != []
    requires forall i :: 0 <= i < |pages| ==> !HasText(pages[i])
    ensures Extract(true, path, Opened(pages)) == Ok("")
  {
    assert PageTexts(pages) == [] by {
      var n := |pages|;
      var k := 0;
      while k < n
        invariant 0 <= k <= n
        invariant PageTexts(pages[..k]) == []
      {
        PageTextsAppend(pages[..k], [pages[k]]);
        PageTextsOfOnePage(pages[k]);
        assert pages[..k + 1] == pages[..k] + [pages[k]];
        k := k + 1;
      }
      assert pages[..n] == pages;
    }
    StripEmptyIffBlank("");
  }

  /** Every failure of the extractor is a PDFProcessingError, and every error from the
      parser is kept as its cause. */
  lemma ExtractFailsOnlyWithPdfError(fileExists: bool, path: string, doc: PdfDoc)
    ensures Extract(fileExists, path, doc).Err? ==> Extract(fileExists, path, doc).error.PdfError?
    ensures fileExists && (doc.SyntaxError? || doc.ReadFailure?) ==>
              Extract(fileExists, path, doc).Err? && Extract(fileExists, path, doc).error.cause == Some(doc.error)
  {
  }

  /** Two pages with text come back as their texts joined by one newline (when the
      texts carry no surrounding whitespace, the final strip removes nothing). */
  lemma TwoPagesJoinedByNewline(path: string, t: string, u: string)
    requires t != "" && u != ""
    requires !IsSpace(t[0]) && !IsSpace(u[|u| - 1])
    ensures Extract(true, path, Opened([Some(t), Some(u)])) == Ok(t + "\n" + u)
  {
    var pages := [Some(t), Some(u)];
    PageTextsAppend([Some(t)], [Some(u)]);
    PageTextsOfOnePage(Some(t));
    PageTextsOfOnePage(Some(u));
    assert pages == [Some(t)] + [Some(u)];
    assert [t, u][..1] == [t];
    var j := t + "\n" + u;
    assert Join(PageTexts(pages), "\n") == j;
    assert j[0] == t[0] && j[|j| - 1] == u[|u| - 1];
    assert AllSpace(j[..0]) && AllSpace(j[|j|..]);
    StripIsCore(j, 0, |j|);
    assert j[0..|j|] == j;
  }

  /** `is_text_sufficient`: the text is long enough when it has at least `minLength` characters. */
  predicate IsTextSufficient(text: string, minLength: int := DefaultMinTextLength) {
    |text| >= minLength
  }

  /** The threshold is inclusive: a text of exactly the minimum length passes, one
      character fewer fails, and lengthening a sufficient text keeps it sufficient. */
  lemma SufficiencyBoundary(text: string, more: string, minLength: nat)
    ensures |text| == minLength ==> IsTextSufficient(text, minLength)
    ensures |text| + 1 == minLength ==> !IsTextSufficient(text, minLength)
    ensures IsTextSufficient(text, minLength) ==> IsTextSufficient(text + more, minLength)
  {
  }

  /** `detect_document_language`: blank text gets the default without consulting the
      detector; a detector failure also gets the default. */
  function DetectDocumentLanguage(text: string, detector: string -> Detection,
                                  defaultLang: string := DefaultLang): (lang: string)
    ensures lang == defaultLang || (detector(text).Detected? && lang == detector(text).lang)
  {
    if text == "" || Strip(text) == "" then defaultLang
    else match detector(text)
      case Detected(lang) => lang
      case LangDetectError => defaultLang
  }

  /** Language detection never fails: it returns the detector's answer on the unmodified
      text when there is one, and otherwise the default; blank text never reaches the
      detector, so any two detectors agree on it. */
  lemma DetectionIsAdvisory(text: string, detector: string -> Detection, other: string -> Detection,
                            defaultLang: string)
    ensures AllSpace(text) ==>
              DetectDocumentLanguage(text, detector, defaultLang) == defaultLang
              == DetectDocumentLanguage(text, other, defaultLang)
    ensures !AllSpace(text) && detector(text).Detected? ==>
              DetectDocumentLanguage(text, detector, defaultLang) == detector(text).lang
    ensures !AllSpace(text) && detector(text).LangDetectError? ==>
              DetectDocumentLanguage(text, detector, defaultLang) == defaultLang
  {
    StripEmptyIffBlank(text);
  }

  /** `process_pdf`: extract, then check sufficiency, then detect the language. */
  function ProcessPdf(fileExists: bool, path: string, doc: PdfDoc, minLength: int,
                      detector: string -> Detection): (r: Result<(string, string), Exc>)
    ensures r.Err? ==> r.error.PdfError?
    ensures r.Ok? ==> IsTextSufficient(r.value.0, minLength)
  {
    match Extract(fileExists, path, doc)
    case Err(e) => Err(e)
    case Ok(text) =>
      if !IsTextSufficient(text, minLength) then
        Err(PDFProcessingError("Extracted text from '" + Basename(path) + "' is insufficient for analysis."))
      else Ok((text, DetectDocumentLanguage(text, detector)))
  }

  /** An extraction error is passed on unchanged: no later stage runs. */
  lemma ProcessPdfStopsAtExtraction(fileExists: bool, path: string, doc: PdfDoc, minLength: int,
                                    detector: string -> Detection)
    requires Extract(fileExists, path, doc).Err?
    ensures ProcessPdf(fileExists, path, doc, minLength, detector) == Err(Extract(fileExists, path, doc).error)
  {
  }

  /** Text that is too short fails with the "insufficient" error before detection is
      reached, so the detector cannot change the outcome. */
  lemma ProcessPdfRejectsShortText(fileExists: bool, path: string, doc: PdfDoc, minLength: int,
                                   detector: string -> Detection, other: string -> Detection)
    requires Extract(fileExists, path, doc).Ok?
    requires |Extract(fileExists, path, doc).value| < minLength
    ensures var r := ProcessPdf(fileExists, path, doc, minLength, detector);
      && r == ProcessPdf(fileExists, path, doc, minLength, other)
      && r.Err? && r.error.PdfError?
      && Contains(Str(r.error), "insufficient for analysis")
  {
    var msg := "Extracted text from '" + Basename(path) + "' is insufficient for analysis.";
    var r := ProcessPdf(fileExists, path, doc, minLength, detector);
    assert r == Err(PdfError(msg, None));
    assert Str(r.error) == msg;
    InsufficientMessageNamesReason(Basename(path));
  }

  lemma InsufficientMessageNamesReason(b: string)
    ensures Contains("Extracted text from '" + b + "' is insufficient for analysis.", "insufficient for analysis")
  {
    ContainsMiddle("Extracted text from '" + b + "' is ", "insufficient for analysis", ".");
    assert "Extracted text from '" + b + "' is " + "insufficient for analysis" + "."
        == "Extracted text from '" + b + "' is insufficient for analysis.";
  }

  /** On success the extracted text comes back unchanged, long enough, with its detected language. */
  lemma ProcessPdfSuccess(fileExists: bool, path: string, doc: PdfDoc, minLength: int,
                          detector: string -> Detection)
    requires ProcessPdf(fileExists, path, doc, minLength, detector).Ok?
    ensures var text := ProcessPdf(fileExists, path, doc, minLength, detector).value.0;
      && Extract(fileExists, path, doc) == Ok(text)
      && |text| >= minLength
      && ProcessPdf(fileExists, path, doc, minLength, detector).value.1 == DetectDocumentLanguage(text, detector)
  {
  }

  /** Every failure of `process_pdf` is a PDFProcessingError. */
  lemma ProcessPdfFailsOnlyWithPdfError(fileExists: bool, path: string, doc: PdfDoc, minLength: int,
                                        detector: string -> Detection)
    ensures ProcessPdf(fileExists, path, doc, minLength, detector).Err? ==>
              ProcessPdf(fileExists, path, doc, minLength, detector).error.PdfError?
  {
    ExtractFailsOnlyWithPdfError(fileExists, path, doc);
  }
}
