/**
 * The application's exception values: the base error of utils/errors.py, the two
 * subclasses under exceptions/, and any other Python exception, together with
 * the `str(e)` rules that decide the text a user is finally shown.
 */
module Errors {
  import opened Wrappers
  import opened Text

  /** A raised exception. The first three variants are the application's own
      classes; `Other` is any other exception (`kind` is its class name, `text`
      is what `str(e)` gives for it). */
  datatype Exc =
    | AppError(message: string, cause: Option<Exc>)                         // TelegramCaseBotError
    | PdfError(message: string, cause: Option<Exc>)                         // PDFProcessingError
    | GeminiError(message: string, statusCode: Option<int>, cause: Option<Exc>)  // GeminiAPIError
    | Other(kind: string, text: string)
  {
    /** `isinstance(e, TelegramCaseBotError)`: both subclasses inherit from the base class. */
    predicate IsAppError() {
      !Other?
    }
  }

  const DefaultAppMessage := "An application error occurred"
  const DefaultPdfMessage := "An error occurred during PDF processing"
  const DefaultGeminiMessage := "An error occurred with the Gemini API"

  /** `TelegramCaseBotError(message, original_exception)`. */
  function TelegramCaseBotError(message: string := DefaultAppMessage, cause: Option<Exc> := None): (e: Exc)
    ensures e.AppError? && e.message == message && e.cause == cause
  {
    AppError(message, cause)
  }

  /** `PDFProcessingError(message, original_exception)`: the cause is handed to the base class unchanged. */
  function PDFProcessingError(message: string := DefaultPdfMessage, cause: Option<Exc> := None): (e: Exc)
    ensures e.PdfError? && e.IsAppError() && UsesBaseStr(e)
    ensures e.message == message && e.cause == cause
  {
    PdfError(message, cause)
  }

  /** `GeminiAPIError(message, status_code, original_exception)`. */
  function GeminiAPIError(message: string := DefaultGeminiMessage, statusCode: Option<int> := None,
                          cause: Option<Exc> := None): (e: Exc)
    ensures e.GeminiError? && e.IsAppError() && e.message == message && e.statusCode == statusCode && e.cause == cause
  {
    GeminiError(message, statusCode, cause)
  }

  /** Python truthiness of `status_code`: `None` and `0` are both false. */
  predicate HasStatus(statusCode: Option<int>) {
    statusCode.Some? && statusCode.value != 0
  }

  /** `str(e)`. The base rule (also inherited by PDFProcessingError) appends the
      cause's own text after ": " when there is a cause; GeminiAPIError overrides it
      and never shows the cause. */
  function Str(e: Exc): (r: string)
    ensures UsesBaseStr(e) ==> StartsWith(r, e.message)
    ensures e.GeminiError? ==> StartsWith(r, "Gemini API Error")
    decreases e
  {
    match e
    case AppError(m, c) => if c.Some? then m + ": " + Str(c.value) else m
    case PdfError(m, c) => if c.Some? then m + ": " + Str(c.value) else m
    case GeminiError(m, s, _) =>
      if HasStatus(s) then "Gemini API Error (Status " + IntToString(s.value) + "): " + m
      else "Gemini API Error: " + m
    case Other(_, t) => t
  }

  /** The string rule of the base class, which PDFProcessingError inherits. */
  predicate UsesBaseStr(e: Exc) {
    e.AppError? || e.PdfError?
  }

  /** Under the base rule the message always leads, and `str(e)` is the bare message
      exactly when there is no cause. */
  lemma BaseStrIsMessageIffNoCause(e: Exc)
    requires UsesBaseStr(e)
    ensures StartsWith(Str(e), e.message)
    ensures Str(e) == e.message <==> e.cause.None?
  {
    if e.cause.Some? {
      assert |Str(e)| >= |e.message| + 2;
      assert Str(e)[..|e.message|] == e.message;
    }
  }

  /** Under the base rule the cause's own text is part of `str(e)`, at every depth
      of a chain of base-rule errors. */
  lemma {:induction false} BaseStrShowsCauseChain(e: Exc, inner: Exc)
    requires UsesBaseStr(e)
    requires CauseChain(e, inner)
    ensures Contains(Str(e), Str(inner))
    decreases e
  {
    var m, c := e.message, e.cause.value;
    assert Str(e) == m + ": " + Str(c);
    if c == inner {
      ContainsMiddle(m + ": ", Str(c), "");
      assert m + ": " + Str(c) + "" == Str(e);
    } else {
      BaseStrShowsCauseChain(c, inner);
      ContainsWithin(Str(c), Str(inner), m + ": ", "");
      assert m + ": " + Str(c) + "" == Str(e);
    }
  }

  /** `inner` is reached from `e` by following causes through base-rule errors. */
  predicate CauseChain(e: Exc, inner: Exc)
    decreases e
  {
    UsesBaseStr(e) && e.cause.Some? &&
    (e.cause.value == inner || (UsesBaseStr(e.cause.value) && CauseChain(e.cause.value, inner)))
  }

  /** GeminiAPIError's text never depends on the stored cause. */
  lemma GeminiStrIgnoresCause(m: string, s: Option<int>, c1: Option<Exc>, c2: Option<Exc>)
    ensures Str(GeminiAPIError(m, s, c1)) == Str(GeminiAPIError(m, s, c2))
  {
  }

  /** The status appears in GeminiAPIError's text exactly when `status_code` is truthy,
      and the text always ends with the message. */
  lemma GeminiStrShowsStatusIff(e: Exc)
    requires e.GeminiError?
    ensures StartsWith(Str(e), "Gemini API Error (Status ") <==> HasStatus(e.statusCode)
    ensures EndsWith(Str(e), e.message)
  {
    var t := Str(e);
    if !HasStatus(e.statusCode) {
      assert t[16] == ':';
      assert "Gemini API Error (Status "[16] == ' ';
    } else {
      assert t[..25] == "Gemini API Error (Status ";
    }
    assert t[|t| - |e.message|..] == e.message;
  }

  /** A status code of 0 reads exactly as no status code. */
  lemma GeminiZeroStatusIsAbsent(m: string, c: Option<Exc>)
    ensures Str(GeminiAPIError(m, Some(0), c)) == Str(GeminiAPIError(m, None, c)) == "Gemini API Error: " + m
  {
  }
}
