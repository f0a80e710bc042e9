# Asylum case bot: document pipeline and agreement gate

This project models the core of a Telegram bot that analyses case documents.
A user first accepts a user agreement. They then send a PDF. The bot:

- downloads the PDF;
- extracts its text with pdfplumber and checks that there is enough of it;
- asks the Gemini API for an analysis;
- assembles a reportlab report (a "story" of paragraphs, a table and spacers);
- sends the report back;
- cleans up its temporary files.

Each Python module is one Dafny module:

| Dafny file | module | source |
|---|---|---|
| errors.dfy | `Errors` | utils/errors.py, exceptions/pdf_processing_error.py, exceptions/gemini_api_error.py |
| pdf_processor.dfy | `PdfProcessor` | utils/pdf_processor.py |
| gemini_client.dfy | `GeminiClient` | utils/gemini_client.py |
| report_generator.dfy | `ReportGenerator` | report_generator.py |
| document_handler.dfy | `DocumentHandler` | handlers/document_handler.py |
| bot.dfy | `Bot` | bot.py |
| text.dfy, wrappers.dfy | `Text`, `Wrappers` | the Python string and path built-ins they rely on; Option and Result |

How each kind of code is modelled:

- **Error classes.** These are one datatype, `Errors.Exc`, with `Str` giving Python's `str(e)`.
- **Extraction and analysis.** These are pure functions over abstract inputs:
  - a PDF is a sequence of optional page texts, or one of the ways opening it fails;
  - langdetect is a function from text to a detection outcome;
  - the Gemini backend is a function from (model, prompt) to a response or an exception.
- **Page loop.** The page loop of `extract_text_from_pdf` is a method, proved equal to the function `Extract`.
- **Report generator.** This is imperative, like the source:
  - a `StyleSheet` class whose `Add` extends it in place;
  - methods that append to the story step by step, each proved against a story function (`Story`).
- **Document handler.** This is a `Workspace` class:
  - the files and directories on disk are sets of paths;
  - the messages sent to the user are an outbox of symbolic replies, and `ReplyText` gives their exact texts;
  - `Workspace.HandleDocument` is proved to equal the function `Handle`, which the lemmas reason about.
- **The stages the handler calls** (download, `process_pdf`, the analysis, the report, sending, removals that fail) are the fields of a `Stages` record. The end-to-end lemmas tie those fields to the modelled `ProcessPdf`, `AnalyzeText` and `Report`.
- **Agreement gate.** This is a `TelegramBot` class. It holds:
  - the per-user acceptance flag (`context.user_data`);
  - each user's conversation state;
  - what was sent;
  - which documents reached `handle_document`.

  Its dispatch follows python-telegram-bot's rule: each handler group handles an update with its first matching handler, and every group gets its turn.

## Model

| member | source | states |
|---|---|---|
| Errors.TelegramCaseBotError | utils/errors.py:5-8 | the base error keeps its message and its cause exactly as given; the defaults are "An application error occurred" and no cause |
| Errors.PDFProcessingError | exceptions/pdf_processing_error.py:14-18 | a PDF error is an application error that keeps its message and hands its cause to the base class unchanged; the default message is "An error occurred during PDF processing" |
| Errors.GeminiAPIError | exceptions/gemini_api_error.py:14-19 | a Gemini error is an application error that keeps its message, its status code and its cause |
| Errors.BaseStrIsMessageIffNoCause | utils/errors.py:10-13 | under the base rule `str(e)` starts with the message, and it is exactly the message if and only if there is no cause |
| Errors.BaseStrShowsCauseChain | utils/errors.py:11-12 | under the base rule, the text of every cause along the chain appears inside `str(e)` |
| Errors.GeminiStrIgnoresCause | exceptions/gemini_api_error.py:17-24 | the text of a Gemini error is the same whatever its stored cause |
| Errors.GeminiStrShowsStatusIff | exceptions/gemini_api_error.py:21-24 | the "(Status …)" form appears if and only if the status code is truthy; the text always ends with the message |
| Errors.Str | utils/errors.py:10-13 | `str(e)`: under the base rule it starts with the message (then ": " and the cause's text when there is a cause); a Gemini error's text starts with "Gemini API Error" |
| Errors.GeminiZeroStatusIsAbsent | exceptions/gemini_api_error.py:22-24 | a status code of 0 reads exactly like no status code: "Gemini API Error: " + message |
| PdfProcessor.PageTexts | utils/pdf_processor.py:48-51 | the collected page texts are never empty and are no more than the pages |
| PdfProcessor.PageTextsAppend | utils/pdf_processor.py:48-51 | collecting page texts distributes over splitting the document, so texts keep page order |
| PdfProcessor.PageTextsOfOnePage | utils/pdf_processor.py:49-51 | a page contributes its text exactly when the text is truthy |
| PdfProcessor.Extract | utils/pdf_processor.py:24-62 | `extract_text_from_pdf`: every failure is a PDF processing error, and text comes back only from an existing file that opened with at least one page |
| PdfProcessor.ExtractTextFromPdf | utils/pdf_processor.py:24-62 | the page loop returns the specified extraction result: the joined, stripped texts or a PDF error |
| PdfProcessor.MissingFileFailsBeforeOpening | utils/pdf_processor.py:37-39 | a missing file fails with "PDF file not found: path", whatever the file would contain |
| PdfProcessor.NoPagesAlwaysFails | utils/pdf_processor.py:44-46 | a document with no pages always fails, and the re-wrapped message still contains "PDF file has no pages" |
| PdfProcessor.TextlessPagesGiveEmptyText | utils/pdf_processor.py:48-55 | pages that all lack text give "" with no error |
| PdfProcessor.ExtractFailsOnlyWithPdfError | utils/pdf_processor.py:57-62 | every extraction failure is a PDF processing error, and a parser failure is kept as its cause |
| PdfProcessor.TwoPagesJoinedByNewline | utils/pdf_processor.py:53 | two pages with text come back as their texts joined by one newline |
| PdfProcessor.IsTextSufficient | utils/pdf_processor.py:65-80 | `is_text_sufficient`: at least the minimum number of characters; its properties are in SufficiencyBoundary |
| PdfProcessor.SufficiencyBoundary | utils/pdf_processor.py:76-77 | sufficiency is inclusive at the minimum length, fails one below it, and is kept when text is appended |
| PdfProcessor.DetectDocumentLanguage | utils/pdf_processor.py:83-105 | `detect_document_language` never fails: the result is the default or the detector's answer on the text |
| PdfProcessor.DetectionIsAdvisory | utils/pdf_processor.py:95-105 | blank text gets the default without the detector; otherwise the detector's answer on the unmodified text, or the default when it fails |
| PdfProcessor.ProcessPdf | utils/pdf_processor.py:108-131 | `process_pdf`: every failure is a PDF processing error, and a returned text is sufficient |
| PdfProcessor.ProcessPdfStopsAtExtraction | utils/pdf_processor.py:123 | an extraction error is passed on unchanged and no later step runs |
| PdfProcessor.ProcessPdfRejectsShortText | utils/pdf_processor.py:125-126 | text below the minimum fails with a PDF error naming the file as insufficient for analysis, whatever the detector |
| PdfProcessor.InsufficientMessageNamesReason | utils/pdf_processor.py:126 | the insufficiency message contains "insufficient for analysis" |
| PdfProcessor.ProcessPdfSuccess | utils/pdf_processor.py:123-131 | on success the text is the extracted text unchanged and long enough, and the language is the detection result |
| PdfProcessor.ProcessPdfFailsOnlyWithPdfError | utils/pdf_processor.py:108-131 | every failure of `process_pdf` is a PDF processing error |
| GeminiClient.PromptEmbedsTextVerbatim | utils/gemini_client.py:63-70 | the prompt is the fixed instructions followed by the document text verbatim, so distinct texts give distinct prompts |
| GeminiClient.CollapsePartsAppend | utils/gemini_client.py:79-80 | collapsing parts distributes over splitting them, so the part texts come out in order |
| GeminiClient.CollapseTextlessParts | utils/gemini_client.py:79-80 | parts none of which has text collapse to "" |
| GeminiClient.ReadResponse | utils/gemini_client.py:79-87 | the response handling fails if and only if there are no parts and no non-empty `text`, and then with a Gemini error |
| GeminiClient.AnalyzeText | utils/gemini_client.py:38-98 | `analyze_text_with_gemini`: every failure is a Gemini error |
| GeminiClient.MissingKeyFailsBeforeBackend | utils/gemini_client.py:52-54 | a missing or placeholder key fails with "Gemini API key is not configured" whatever the backend would do |
| GeminiClient.OneRequestDecides | utils/gemini_client.py:74 | the outcome depends only on the one request for the named model and the built prompt |
| GeminiClient.FailuresAreWrapped | utils/gemini_client.py:92-98 | every failure is a Gemini error; with a key it is "Failed to get analysis from Gemini: …" with the inner error as its cause |
| GeminiClient.BackendErrorKeptAsCause | utils/gemini_client.py:94-98 | an exception from the backend becomes the cause of the wrapping error |
| GeminiClient.PartsAreCollapsed | utils/gemini_client.py:79-80 | a response with parts gives the in-order concatenation of their texts, "" when none has text |
| GeminiClient.TextOrEmptyResponse | utils/gemini_client.py:81-87 | with no parts, a non-empty `text` is returned; otherwise the call fails with the wrapped empty-response error |
| ReportGenerator.StyleSheet.Sample | report_generator.py:58 | the sheet starts as the sample stylesheet |
| ReportGenerator.StyleSheet.Add | report_generator.py:61-64 | adding a style defines its name; a name already defined is refused and the sheet stays as it was |
| ReportGenerator.Lookup | report_generator.py:27 | `styles[name]` succeeds exactly for a defined name, with that name's style |
| ReportGenerator.NonBlank | report_generator.py:25-27 | a falsy paragraph text renders as "N/A"; any other text as itself |
| ReportGenerator.StyledParagraph | report_generator.py:25-27 | a styled paragraph exists exactly when the style is defined; it has that style and non-empty text |
| ReportGenerator.SampleSheetLacksReportStyles | report_generator.py:58-64 | the sample sheet has "Normal" but none of the four added names, so the four `add` calls all succeed |
| ReportGenerator.ReportFileName | report_generator.py:49 | the report's file name starts with "Analysis_Report_{case_id}_" and ends in ".pdf" |
| ReportGenerator.ReportFileNameOfPdf | report_generator.py:49-50 | an upload named stem + ".pdf" gives "Analysis_Report_{case}_{stem}.pdf" under the reports directory |
| ReportGenerator.ReportFileNameKeepsOtherNames | report_generator.py:50 | a name containing no ".pdf" is kept whole in the report name |
| ReportGenerator.AppendOpening | report_generator.py:69-97 | appends the title, the metadata table and the introduction to the story |
| ReportGenerator.AppendSection | report_generator.py:108-117 | one section appends its heading, its content (one "• point" per list item) and a spacer |
| ReportGenerator.AppendSections | report_generator.py:108-117 | the sections loop appends every section's items, in order |
| ReportGenerator.AppendClosing | report_generator.py:120-127 | appends the conclusion heading and text |
| ReportGenerator.BuildStory | report_generator.py:58-129 | building the story on a sheet with the report's styles gives the specified story, or the final line's error |
| ReportGenerator.GenerateWithTrailer | report_generator.py:45-138 | report generation returns the path when the story is built and rendered; any failure becomes "Report generation failed for {name}: {e}" |
| ReportGenerator.GenerateAnalysisReportAsWritten | report_generator.py:45-138 | the generator as written equals the report function with the two-argument final call |
| ReportGenerator.GenerateAnalysisReport | report_generator.py:45-138 | the generator with the final line styled 'Normal' equals the report function with that call |
| ReportGenerator.Story | report_generator.py:66-129 | the story is built exactly when its final line is: every other paragraph uses a style the sheet defines; its layout is in StoryLayout |
| ReportGenerator.Report | report_generator.py:29-138 | `generate_analysis_report`: a success returns the path derived from the case id and the file name; every failure is the wrapping `Exception` |
| ReportGenerator.BulletItemsLayout | report_generator.py:110-113 | a list gives one "• point" paragraph and one spacer per point, in order; an empty list gives nothing |
| ReportGenerator.StoryLayout | report_generator.py:66-129 | the story is the opening, then Summary, Key Arguments, Potential Inconsistencies and Recommendations in that order, then the closing and the final line |
| ReportGenerator.SectionShape | report_generator.py:108-117 | every section is its title as a heading, its content, and a spacer, so no heading is omitted |
| ReportGenerator.SectionContentShown | report_generator.py:101-116 | a missing key shows that section's placeholder; `None` or "" shows "N/A"; a list shows its points |
| ReportGenerator.ReportWordingIsShown | report_generator.py:69-127 | the title, the conclusion and the four "No … by the AI." placeholders are shown as written |
| ReportGenerator.IntroQuotesName | report_generator.py:90-97 | the introduction quotes the original file name |
| ReportGenerator.StoryOpening | report_generator.py:69-97 | the story opens with the title, the three-row metadata table (Report ID, Original Document, Analysis Date) and an introduction quoting the name |
| ReportGenerator.StoryClosing | report_generator.py:120-129 | the story ends with the conclusion heading, its text, a spacer and the "End of Report - …" line |
| ReportGenerator.CaseIdOnlyInMetadata | report_generator.py:73-86 | the case id appears only in the metadata table: stories for two case ids differ in that item alone |
| ReportGenerator.AsWrittenReportAlwaysFails | report_generator.py:129 | as written, generation fails with the wrapped missing-argument TypeError for any data whose paragraphs reportlab accepts, whatever the renderer |
| ReportGenerator.ReportProducedIffRendered | report_generator.py:131-138 | corrected, a report is produced if and only if rendering accepts the full story; then its path is returned, else the wrapped rendering error |
| ReportGenerator.ReportPathWhenRendered | report_generator.py:131-134 | corrected, with a renderer that never fails, the report path is returned |
| DocumentHandler.CaptionNamesDocument | handlers/document_handler.py:46 | the report's caption quotes the original file name |
| DocumentHandler.WithDetail | handlers/document_handler.py:64-78 | an error notice is the fixed prefix plus " " plus the caller's text when it is non-empty, else the fixed default |
| DocumentHandler.SendReport | handlers/document_handler.py:45-61 | the report is sent under its base name unless sending fails or the file is gone, when the fallback notice is sent; afterwards the report file is removed unless removal fails, and no other file changes |
| DocumentHandler.Attempt | handlers/document_handler.py:127-172 | the upload notice comes first, then one to three stage replies; the download path is recorded exactly when the download succeeds |
| DocumentHandler.Cleanup | handlers/document_handler.py:173-189 | cleanup removes only the recorded PDF and the case directory; the PDF survives only if its removal fails; the directory survives only if it is not empty or its removal fails |
| DocumentHandler.Workspace.constructor | handlers/document_handler.py:118-125 | the workspace starts with the given files and directories and nothing sent |
| DocumentHandler.Workspace.Send | handlers/document_handler.py:36-43 | sending appends one reply and changes no file |
| DocumentHandler.Workspace.NotifyReportReady | handlers/document_handler.py:45-61 | sends the report or the fallback notice and removes the report file, as `SendReport` specifies |
| DocumentHandler.Workspace.GenerateAndSend | handlers/document_handler.py:155-162 | generating the report and sending it give the replies and files the report stage specifies |
| DocumentHandler.Workspace.ProcessAndAnalyze | handlers/document_handler.py:136-162 | processing, analysis and report give the replies and files the processing stage specifies |
| DocumentHandler.Workspace.RunStages | handlers/document_handler.py:127-172 | the `try` block gives the replies, files and recorded download path that `Attempt` specifies |
| DocumentHandler.Workspace.CleanUp | handlers/document_handler.py:173-189 | the `finally` block changes files and directories as `Cleanup` specifies and sends nothing |
| DocumentHandler.Workspace.HandleDocument | handlers/document_handler.py:90-189 | the handler's replies, files, directories and any escaping exception are the ones `Handle` specifies |
| DocumentHandler.Check | handlers/document_handler.py:107-116 | the pre-flight checks let a document proceed only with a name ending in ".pdf" (case-insensitively) and a size within the limit |
| DocumentHandler.NoticeFor | handlers/document_handler.py:164-172 | each exception maps to a processing notice, the API notice naming Gemini, or the generic notice |
| DocumentHandler.Handle | handlers/document_handler.py:90-189 | `handle_document`: an exception that leaves the handler does so before any reply or any change on disk |
| DocumentHandler.MissingMessageHasNoEffect | handlers/document_handler.py:95-97 | without a message or a document nothing is sent and nothing changes |
| DocumentHandler.NonPdfRejectedBeforeAnyIO | handlers/document_handler.py:107-110 | a name not ending in ".pdf" (case-insensitively) gets the upload error alone: no directory, no download, no stage |
| DocumentHandler.SizeLimitIsInclusive | handlers/document_handler.py:112-116 | a PDF is rejected with the size notice if and only if it is larger than the limit in bytes; a file of exactly the limit proceeds |
| DocumentHandler.NoticeMappingIsTotal | handlers/document_handler.py:164-172 | a PDF error gives the processing notice with `str(e)`, a Gemini error the API notice naming Gemini, and every other exception the generic notice |
| DocumentHandler.DownloadFailureReported | handlers/document_handler.py:127-134 | a failed download gives the upload notice and that exception's notice, and touches no file |
| DocumentHandler.ProcessingFailureStopsPipeline | handlers/document_handler.py:136-137 | when `process_pdf` raises, its notice follows the upload notice, and the analysis and the report do not affect the outcome |
| DocumentHandler.AnalysisFailureStopsPipeline | handlers/document_handler.py:140-143 | when the analysis raises, its notice follows the analysis notice, and the report does not affect the outcome |
| DocumentHandler.ReportStageOutcome | handlers/document_handler.py:155-162 | after an analysis there are four replies; the last is the failure notice, the report or the fallback notice; the report file remains only if its removal fails |
| DocumentHandler.CleanupOnEveryPath | handlers/document_handler.py:173-189 | for every upload that passes the pre-flight checks (and whose temp directory is created), the `finally` block runs and never raises; it removes the temp PDF unless that fails; it removes the case directory if and only if it is empty and removal succeeds; only the PDF and the report can disappear |
| DocumentHandler.AnalysisDataFillsEverySection | handlers/document_handler.py:147-152 | the report receives the analysis as its summary and fixed texts for the other three sections, so no placeholder appears |
| DocumentHandler.PipelineStages | handlers/document_handler.py:11-13 | the handler's stages are the modelled `process_pdf`, `analyze_text_with_gemini` and `generate_analysis_report` |
| DocumentHandler.PagelessPdfExplained | handlers/document_handler.py:137 | a PDF with no pages gets two replies, the upload notice and a processing notice whose text contains "PDF file has no pages" |
| DocumentHandler.AsWrittenPipelineNeverDelivers | handlers/document_handler.py:155-172 | with the generator as written, a document that passes processing and analysis ends with the generic notice, never a report |
| DocumentHandler.CorrectedPipelineDelivers | handlers/document_handler.py:155-162 | with the corrected generator, such a document is answered with its report, named after the upload, and the report file is removed unless that fails |
| Bot.TelegramBot.constructor | bot.py:120-126 | the bot starts with no flags, no conversations and nothing sent or handled |
| Bot.TelegramBot.Reply | bot.py:41 | replying appends one message for that user and changes nothing else |
| Bot.TelegramBot.StartCommand | bot.py:35-65 | a user with the flag is welcomed back and goes to HANDLE_PDF; any other user gets the agreement and goes to AGREEMENT |
| Bot.TelegramBot.AgreementCallback | bot.py:68-82 | "agreement_accept" sets the flag and goes to HANDLE_PDF; any other data ends the conversation and keeps the flag |
| Bot.TelegramBot.CancelCommand | bot.py:109-117 | cancel replies, removes the flag if there is one, and ends the conversation |
| Bot.TelegramBot.AgreementDeclinedDirectUpload | bot.py:85-89 | asks the user to accept the agreement first |
| Bot.TelegramBot.HandleDocument | bot.py:161 | the document reaches `handle_document` for that user |
| Bot.TelegramBot.IndependentPdfHandler | bot.py:148-161 | a PDF goes to `handle_document` if the sender has the flag; otherwise the sender is asked to accept first |
| Bot.TelegramBot.DispatchGroupZero | bot.py:132-144 | group 0 (the conversation, then /help) handles an update as `GroupZero` routes it, and says whether it took it |
| Bot.TelegramBot.Dispatch | bot.py:132-171 | one update as bot.py registers the handlers: group 0, then the group-1 PDF handler on every fresh PDF |
| Bot.TelegramBot.DispatchCorrected | bot.py:163-169 | one update with the group-1 handler consulted only when group 0 did not take it |
| Bot.Start | bot.py:35-65 | `start_command` sends one reply, moves to a conversation state and changes no flag |
| Bot.AgreementAnswer | bot.py:68-82 | `agreement_callback` can only set the sender's flag, never clear one; the sender has it afterwards if and only if they had it or pressed "accept" |
| Bot.Cancel | bot.py:109-117 | `cancel_command` clears the sender's flag, keeps everyone else's, and ends the conversation |
| Bot.Independent | bot.py:148-161 | `independent_pdf_handler` forwards the document if and only if the sender has the flag, and changes no flag or conversation |
| Bot.GroupZero | bot.py:132-144 | group 0 (the conversation, then /help) leaves everything unchanged when none of its handlers takes the update |
| Bot.Step | bot.py:166-169 | one update as registered: group 0, then the group-1 handler on every fresh PDF; its properties are in the lemmas below |
| Bot.StepCorrected | bot.py:163-165 | one update with the group-1 handler run only when group 0 did not take it |
| Bot.StepKeepsConsistent | bot.py:64-78 | inside a conversation, a user is in HANDLE_PDF exactly when they have the flag, and both routings keep this |
| Bot.RunKeepsConsistent | bot.py:132-169 | every sequence of updates keeps that consistency |
| Bot.StartPromptsIffNoFlag | bot.py:40-45 | /start sends the agreement if and only if the user has no flag, and a welcome back if and only if they have it |
| Bot.AcceptIsIdempotent | bot.py:74-78 | accepting sets the flag and goes to HANDLE_PDF; accepting again leaves the flags as they are |
| Bot.DeclineKeepsFlag | bot.py:79-82 | any other callback data sends the decline notice, ends the conversation and keeps the flag |
| Bot.KeyboardButtonsDecide | bot.py:47-50 | the "accept" button sets the flag and the "decline" button leaves the flags unchanged |
| Bot.CancelClearsFlag | bot.py:109-117 | /cancel in a conversation removes the flag and ends it; outside one, nothing happens |
| Bot.AgreementStateTakesNoDocuments | bot.py:134-137 | in AGREEMENT only callback queries and the two fallback commands are routed, and a document is never handled |
| Bot.CorrectedGateForwardsIffAccepted | bot.py:154-161 | with the corrected routing, a fresh PDF is handled once if and only if its sender has the flag; otherwise they are asked to accept |
| Bot.AsWrittenHandlesTwiceInHandlePdf | bot.py:166-169 | as registered, a fresh PDF sent in HANDLE_PDF reaches `handle_document` twice |
| Bot.RoutingsAgreeOutsideHandlePdf | bot.py:163-169 | outside HANDLE_PDF the two routings behave the same |
| Bot.OtherUsersUntouched | bot.py:68-117 | an update leaves every other user's flag and conversation as they were; what it sends or forwards concerns its sender only |
| Bot.ForwardsOnlyWithFlag | bot.py:154-161 | a document is forwarded only for a sender who has the flag, and only the sender's documents are added |
| Bot.NoDocumentWithoutAcceptance | bot.py:68-82 | a user who never presses "accept" never has a document reach `handle_document`, under either routing |

## Left out

- **Telegram transport.** `reply_text`, `reply_document`, `get_file`, `download_to_drive`, `InputFile`, message editing, `answer()`, and building and polling the `Application` are not modelled. A sent message is an outbox entry. A download is a stage that either saves the file at the requested path or raises.
- **reportlab.** Fonts, margins, table styling, spacer heights and the PDF bytes written by `doc.build` are not modelled. The stylesheet only tracks style names. `doc.build` is a parameter that either accepts the story or raises.
- **Library internals.** These are parameters:
  - pdfplumber's parsing is a page sequence or an opening failure;
  - langdetect is a detector function;
  - the Gemini model is a backend function.

  The import-time `genai.configure` call and the `GEMINI_API_KEY` lookup are left out; the key is a parameter.
- **Non-deterministic inputs.** `datetime.now()` and `uuid.uuid4()` are parameters: the analysis date, the end time and the case id.
- Extract: the model assumes `pdfplumber.exceptions.PDFSyntaxError` at utils/pdf_processor.py:57 resolves to pdfminer's syntax error class. If that attribute is missing in the installed pdfplumber, evaluating the first `except` clause raises AttributeError. Every failure inside the `try` at utils/pdf_processor.py:41-55 would then leave `extract_text_from_pdf` as that AttributeError, not a PDF processing error. That includes the no-pages error. `handle_document` would then send the generic notice. The pdfplumber package is not part of this model, so the model follows the code's evident reading. NoPagesAlwaysFails, ExtractFailsOnlyWithPdfError, ProcessPdfFailsOnlyWithPdfError and PagelessPdfExplained rest on this assumption.
- Handle: `os.makedirs(case_temp_dir)` at handlers/document_handler.py:118-119 is assumed to succeed. It runs before the `try`, so if it raised, the exception would leave the handler with no reply and no cleanup. The model always adds both directories.
- Report: `os.makedirs(GENERATED_REPORTS_PATH)` at report_generator.py:47 runs before the `try` at :54 and is assumed to succeed. An OSError there would leave `generate_analysis_report` unwrapped; `handle_document` would still send the generic notice. The reports directory is not tracked in the workspace.
- StyledParagraph: reportlab's `Paragraph` parses its text as markup when it is built and raises ValueError on a malformed tag. The model treats building a paragraph as never failing. Gemini's analysis and the file name both reach paragraphs. For a text with bad markup an earlier paragraph raises first, and that error is the one wrapped at report_generator.py:135-138. So `Story`, StoryLayout and AsWrittenReportAlwaysFails hold only for texts reportlab accepts. The report still fails in both cases.
- ReportFilePath: `GeneratedReportsPath` is "data/generated_reports/", the value of the import fallback at report_generator.py:18. config.py is not part of this model, so its `GENERATED_REPORTS_PATH` is not modelled.
- **Missing module.** config.py is not part of this model. `MAX_FILE_SIZE_MB` is an optional setting (absent means the `.get` default of 20). `MIN_TEXT_LENGTH` is a parameter.
- **Infrastructure.** Logging, the import-fallback blocks, the `__main__` demo blocks, exceptions/__init__.py (re-exports only) and utils/openai_client.py (unused) are left out.
- **Paths and text.** Paths are plain strings joined with one '/'; `os.path.join` normalisation is not modelled. `str.lower` is modelled on ASCII letters only, and `str.strip` on a fixed whitespace set.
- **Conversation keys.** Conversations are keyed by user only (python-telegram-bot's default also keys by chat). Updates without a sender are not modelled.
- **Other handlers.** `help_command` is modelled only as the reply it sends. `notify_error_report_generation` is defined but never called, so it has no member.
- **Analysis content.** Values in the analysis data other than text, a list of points or `None` are not modelled.
- **Tests that contradict the code.** Two tests expect a text below the minimum length to be sufficient, and one fixture uses an undefined `monkeypatch`. The model follows `is_text_sufficient`, not those tests.

Three behaviours of the code that the model keeps as they are:

- a Gemini response whose parts carry no text gives "" as a success;
- `/cancel` outside a conversation has no handler and does nothing;
- a document without a file name or size raises before the handler's `try`, so the exception leaves `handle_document` (`Outcome.escaped`).

## Findings

| source | as written | input that shows it | evidently intended | confidence | as-written member | corrected member |
|---|---|---|---|---|---|---|
| report_generator.py:129 | the final line calls `create_styled_paragraph` with two arguments; the function (report_generator.py:25) takes three, so a TypeError is raised after the story is built and every report fails | any analysis data, such as the one `handle_document` builds | style the "End of Report" line with the 'Normal' style from the sheet and return the report path | high, not executed | ReportGenerator.AsWrittenReportAlwaysFails | ReportGenerator.ReportProducedIffRendered |
| bot.py:166-169 | the PDF handler in group 1 runs on every fresh PDF, including one the group-0 conversation already handled in HANDLE_PDF, so `handle_document` runs twice | a user who accepted the agreement sends one PDF in HANDLE_PDF | the comment above the registration: the group-1 handler acts only when the conversation did not take the update | high, not executed | Bot.AsWrittenHandlesTwiceInHandlePdf | Bot.CorrectedGateForwardsIffAccepted |
