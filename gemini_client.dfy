/**
 * utils/gemini_client.py: `analyze_text_with_gemini`. The credential check, the
 * prompt, collapsing the response into one text, and wrapping every failure
 * into a GeminiAPIError. The backend (model construction plus
 * `generate_content`) is a parameter: given the model name and the prompt it
 * either returns a response or raises.
 */
module GeminiClient {
  import opened Wrappers
  import opened Text
  import opened Errors

  const DefaultModelName := "gemini-pro"
  const PlaceholderKey := "YOUR_GEMINI_API_KEY_HERE"

  const PromptPrefix :=
    "Please analyze the following political case document. "
    + "Identify key arguments, potential inconsistencies, and provide a brief summary and recommendations. "
    + "Focus on factual analysis and avoid expressing personal opinions. "
    + "Present the output clearly, perhaps with sections for Summary, Arguments, Inconsistencies, and Recommendations.\n\n"
    + "Document Text:\n"

  const EmptyResponseMessage := "Gemini API returned an empty response or content was blocked."
  const NoKeyMessage := "Gemini API key is not configured."
  const WrapPrefix := "Failed to get analysis from Gemini: "

  /** One response part; `None` when the part has no `text` attribute. */
  datatype Part = Part(text: Option<string>)

  /** A `generate_content` response: its parts and its `text` attribute (`None` when absent). */
  datatype Response = Response(parts: seq<Part>, text: Option<string>)

  /** What `GenerativeModel(model_name).generate_content(prompt)` does. */
  datatype Call = Replied(response: Response) | Raised(error: Exc)

  /** `GEMINI_API_KEY` is set and is not the placeholder. */
  predicate KeyConfigured(apiKey: Option<string>) {
    apiKey.Some? && apiKey.value != "" && apiKey.value != PlaceholderKey
  }

  /** The request text: the fixed instructions, then the document text verbatim. */
  function Prompt(text: string): string {
    PromptPrefix + text
  }

  /** The document text can be read back from the prompt, so distinct texts give
      distinct requests and nothing of the text is cut. */
  lemma PromptEmbedsTextVerbatim(text: string, other: string)
    ensures StartsWith(Prompt(text), PromptPrefix)
    ensures Prompt(text)[|PromptPrefix|..] == text
    ensures Prompt(text) == Prompt(other) ==> text == other
  {
    assert Prompt(text)[|PromptPrefix|..] == text;
    assert Prompt(other)[|PromptPrefix|..] == other;
  }

  /** `"".join(part.text for part in parts if hasattr(part, 'text'))`. */
  function CollapseParts(parts: seq<Part>): string {
    if parts == [] then ""
    else
      var last := parts[|parts| - 1];
      CollapseParts(parts[..|parts| - 1]) + (if last.text.Some? then last.text.value else "")
  }

  /** Collapsing distributes over splitting the parts: the parts' texts come out in order. */
  lemma {:induction false} CollapsePartsAppend(a: seq<Part>, b: seq<Part>)
    ensures CollapseParts(a + b) == CollapseParts(a) + CollapseParts(b)
    decreases |b|
  {
    if b == [] {
      assert a + b == a;
    } else {
      assert (a + b)[..|a + b| - 1] == a + b[..|b| - 1];
      CollapsePartsAppend(a, b[..|b| - 1]);
    }
  }

  /** Parts without a `text` attribute add nothing; so parts none of which has text give "". */
  lemma {:induction false} CollapseTextlessParts(parts: seq<Part>)
    requires forall i :: 0 <= i < |parts| ==> parts[i].text.None?
    ensures CollapseParts(parts) == ""
    decreases |parts|
  {
    if parts != [] {
      CollapseTextlessParts(parts[..|parts| - 1]);
    }
  }

  /** The response handling inside the `try`: parts win; otherwise a non-empty `text`;
      otherwise the empty-response error. */
  function ReadResponse(r: Response): (res: Result<string, Exc>)
    ensures res.Err? <==> r.parts == [] && (r.text.None? || r.text.value == "")
    ensures res.Err? ==> res.error.GeminiError?
  {
    if r.parts != [] then Ok(CollapseParts(r.parts))
    else if r.text.Some? && r.text.value != "" then Ok(r.text.value)
    else Err(GeminiAPIError(EmptyResponseMessage))
  }

  /** `analyze_text_with_gemini(text_content, model_name)`. */
  function AnalyzeText(text: string, apiKey: Option<string>, backend: (string, string) -> Call,
                       modelName: string := DefaultModelName): (res: Result<string, Exc>)
    ensures res.Err? ==> res.error.GeminiError?
  {
    if !KeyConfigured(apiKey) then Err(GeminiAPIError(NoKeyMessage))
    else
      var inner := match backend(modelName, Prompt(text))
        case Raised(e) => Err(e)
        case Replied(r) => ReadResponse(r);
      match inner
      case Ok(t) => Ok(t)
      case Err(e) => Err(GeminiAPIError(WrapPrefix + Str(e), None, Some(e)))
  }

  /** Without a usable key the call fails with "Gemini API key is not configured" and the
      backend is never consulted: any two backends give the same result. */
  lemma MissingKeyFailsBeforeBackend(text: string, apiKey: Option<string>, b1: (string, string) -> Call,
                                     b2: (string, string) -> Call, modelName: string)
    requires !KeyConfigured(apiKey)
    ensures AnalyzeText(text, apiKey, b1, modelName) == AnalyzeText(text, apiKey, b2, modelName)
    ensures AnalyzeText(text, apiKey, b1, modelName) == Err(GeminiError(NoKeyMessage, None, None))
  {
  }

  /** Exactly one request is made, to the named model, with the prompt built from the text:
      backends that agree on that one request give the same result. */
  lemma OneRequestDecides(text: string, apiKey: Option<string>, b1: (string, string) -> Call,
                          b2: (string, string) -> Call, modelName: string)
    requires b1(modelName, Prompt(text)) == b2(modelName, Prompt(text))
    ensures AnalyzeText(text, apiKey, b1, modelName) == AnalyzeText(text, apiKey, b2, modelName)
  {
  }

  /** Every failure is a GeminiAPIError; with a key configured it is the wrapping error,
      which keeps the original as its cause and whose message starts with
      "Failed to get analysis from Gemini". */
  lemma FailuresAreWrapped(text: string, apiKey: Option<string>, backend: (string, string) -> Call,
                           modelName: string)
    requires AnalyzeText(text, apiKey, backend, modelName).Err?
    ensures var e := AnalyzeText(text, apiKey, backend, modelName).error;
      && e.GeminiError?
      && (KeyConfigured(apiKey) ==> e.cause.Some? && StartsWith(e.message, WrapPrefix)
                                    && e.message[|WrapPrefix|..] == Str(e.cause.value))
  {
    var e := AnalyzeText(text, apiKey, backend, modelName).error;
    if KeyConfigured(apiKey) {
      assert e.message == WrapPrefix + Str(e.cause.value);
      assert e.message[..|WrapPrefix|] == WrapPrefix;
    }
  }

  /** A backend error is wrapped with the original exception attached. */
  lemma BackendErrorKeptAsCause(text: string, apiKey: Option<string>, backend: (string, string) -> Call,
                                modelName: string)
    requires KeyConfigured(apiKey) && backend(modelName, Prompt(text)).Raised?
    ensures var e := backend(modelName, Prompt(text)).error;
      AnalyzeText(text, apiKey, backend, modelName) == Err(GeminiError(WrapPrefix + Str(e), None, Some(e)))
  {
  }

  /** When the response has parts, the result is their texts in order, "" if none has text. */
  lemma PartsAreCollapsed(text: string, apiKey: Option<string>, backend: (string, string) -> Call,
                          modelName: string)
    requires KeyConfigured(apiKey)
    requires backend(modelName, Prompt(text)).Replied?
    requires backend(modelName, Prompt(text)).response.parts != []
    ensures var ps := backend(modelName, Prompt(text)).response.parts;
      && AnalyzeText(text, apiKey, backend, modelName) == Ok(CollapseParts(ps))
      && ((forall i :: 0 <= i < |ps| ==> ps[i].text.None?) ==> AnalyzeText(text, apiKey, backend, modelName) == Ok(""))
  {
    var ps := backend(modelName, Prompt(text)).response.parts;
    if forall i :: 0 <= i < |ps| ==> ps[i].text.None? {
      CollapseTextlessParts(ps);
    }
  }

  /** Without parts, a non-empty `text` is returned as is; with neither, the call fails
      with the empty-response error, wrapped, and the user-visible text names it. */
  lemma TextOrEmptyResponse(text: string, apiKey: Option<string>, backend: (string, string) -> Call,
                            modelName: string)
    requires KeyConfigured(apiKey)
    requires backend(modelName, Prompt(text)).Replied?
    requires backend(modelName, Prompt(text)).response.parts == []
    ensures var t := backend(modelName, Prompt(text)).response.text;
      var r := AnalyzeText(text, apiKey, backend, modelName);
      && (t.Some? && t.value != "" ==> r == Ok(t.value))
      && (t.None? || t.value == "" ==> r.Err? && Contains(Str(r.error), EmptyResponseMessage))
  {
    var t := backend(modelName, Prompt(text)).response.text;
    if t.None? || t.value == "" {
      var inner := GeminiError(EmptyResponseMessage, None, None);
      var r := AnalyzeText(text, apiKey, backend, modelName);
      assert r.error == GeminiError(WrapPrefix + Str(inner), None, Some(inner));
      assert Str(r.error) == "Gemini API Error: " + WrapPrefix + "Gemini API Error: " + EmptyResponseMessage + "";
      ContainsMiddle("Gemini API Error: " + WrapPrefix + "Gemini API Error: ", EmptyResponseMessage, "");
    }
  }
}
