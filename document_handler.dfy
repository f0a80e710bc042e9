/**
 * handlers/document_handler.py: what happens to one uploaded document. The
 * pre-flight checks on its name and size, the per-case temp directory, the
 * four pipeline stages (download, PDF processing, analysis, report), the map
 * from the exception a stage raises to the notice the user receives, and the
 * clean-up in `finally`.
 *
 * Replies are kept as `Reply` values in an outbox; `ReplyText` gives the exact
 * text of each. The stages are abstract outcomes held in a `Stages` record;
 * `PipelineStages` fills it with the modelled PDF processor, analysis client
 * and report generator.
 */
module DocumentHandler {
  import opened Wrappers
  import opened Text
  import opened Errors
  import PdfProcessor
  import GeminiClient
  import ReportGenerator

  const TempRoot := "temp_files"
  /** The fallback of `PDF_PROCESSING_SETTINGS.get("MAX_FILE_SIZE_MB", 20)`. */
  const DefaultMaxFileSizeMb := 20

  // Fixed notification texts.
  const FileUploadedText := "✅ Ваш файл успешно загружен. Начинается анализ данных, это может занять несколько минут."
  const AnalysisStartedText := "🔍 Анализ загруженного кейса начался. Мы проверяем документ. Это займет некоторое время."
  const ReportGeneratingText := "⏳ Анализ завершен, и отчет готовится. Это займет всего несколько секунд."
  const CaptionLead := "📄 Ваш отчет по документу "
  const CaptionTail := " готов."
  const ReportSendFailedText := "⚠️ Не удалось отправить готовый отчет. Пожалуйста, свяжитесь с поддержкой."
  const UploadErrorPrefix := "❌ Ошибка загрузки файла."
  const UploadErrorDefault := " Убедитесь, что загружаемый файл является PDF и его размер не превышает допустимый лимит."
  const ProcessingErrorPrefix := "⚠️ Ошибка при обработке файла."
  const ProcessingErrorDefault := " Возможно, ваш PDF-документ содержит только изображения или текст недостаточной длины. Попробуйте загрузить файл с текстовым содержимым."
  const ApiErrorLead := "⚠️ Произошла ошибка при анализе кейса с помощью "
  const ApiErrorTail := ". Пожалуйста, попробуйте позже. Если проблема повторяется, обратитесь в техническую поддержку."
  const UnexpectedErrorText := "⚠️ Произошла непредвиденная ошибка при обработке вашего документа. Мы уже разбираемся."
  const NotPdfDetail := "Пожалуйста, загрузите файл в формате PDF."
  const SizeDetailLead := "Размер файла превышает лимит в "
  const SizeDetailTail := "MB."

  // The three fixed entries of the analysis data.
  const ArgumentsPlaceholder := "Extracted arguments will be detailed here if parsed separately."
  const InconsistenciesPlaceholder := "Noted inconsistencies will be detailed here if parsed separately."
  const RecommendationsPlaceholder := "Specific recommendations will be detailed here if parsed separately."

  /** A message the bot sends back to the user. */
  datatype Reply =
    | FileUploaded
    | AnalysisStarted
    | ReportGenerating
    | ReportDocument(fileName: string, originalFilename: string)  // the report file, with its caption
    | ReportSendFailed
    | UploadError(detail: string)
    | ProcessingError(detail: string)
    | ApiError(service: string)
    | UnexpectedError

  /** The message of `notify_error_upload` and `notify_error_processing`: the prefix,
      then " " and the caller's text when that is non-empty, else the fixed fallback. */
  function WithDetail(prefix: string, errorMessage: string, fallback: string): (message: string)
    ensures StartsWith(message, prefix)
    ensures errorMessage != "" ==> message[|prefix|..] == " " + errorMessage
    ensures errorMessage == "" ==> message[|prefix|..] == fallback
  {
    var message := prefix;
    if errorMessage != "" then message + " " + errorMessage else message + fallback
  }

  function UploadErrorText(errorMessage: string): string {
    WithDetail(UploadErrorPrefix, errorMessage, UploadErrorDefault)
  }

  function ProcessingErrorText(errorMessage: string): string {
    WithDetail(ProcessingErrorPrefix, errorMessage, ProcessingErrorDefault)
  }

  function ApiErrorText(serviceName: string): string {
    ApiErrorLead + serviceName + ApiErrorTail
  }

  function Caption(originalFilename: string): string {
    CaptionLead + ("'" + originalFilename + "'") + CaptionTail
  }

  /** The text the user sees for each reply (for a document, its caption). */
  function ReplyText(r: Reply): string {
    match r
    case FileUploaded => FileUploadedText
    case AnalysisStarted => AnalysisStartedText
    case ReportGenerating => ReportGeneratingText
    case ReportDocument(_, originalFilename) => Caption(originalFilename)
    case ReportSendFailed => ReportSendFailedText
    case UploadError(detail) => UploadErrorText(detail)
    case ProcessingError(detail) => ProcessingErrorText(detail)
    case ApiError(service) => ApiErrorText(service)
    case UnexpectedError => UnexpectedErrorText
  }

  /** The caption quotes the original file name. */
  lemma CaptionNamesDocument(originalFilename: string)
    ensures Contains(Caption(originalFilename), "'" + originalFilename + "'")
  {
    ContainsMiddle(CaptionLead, "'" + originalFilename + "'", CaptionTail);
  }

  /** The user's document as Telegram describes it: either field may be missing. */
  datatype Upload = Upload(fileName: Option<string>, fileSize: Option<int>)

  /** How the pre-flight checks end: go on with the file name, reject the upload
      with a detail for `notify_error_upload`, or raise before the `try` block so
      that the exception leaves `handle_document`. */
  datatype Preflight = Proceed(name: string) | Reject(detail: string) | Escape(error: Exc)

  const NoneHasNoLower := Other("AttributeError", "'NoneType' object has no attribute 'lower'")
  const NoneNotComparable := Other("TypeError", "'>' not supported between instances of 'NoneType' and 'int'")
  const SizeSettingMissing := Other("KeyError", "'MAX_FILE_SIZE_MB'")

  predicate IsPdfName(name: string) {
    EndsWith(Lower(name), ".pdf")
  }

  /** `int(PDF_PROCESSING_SETTINGS.get("MAX_FILE_SIZE_MB", 20)) * 1024 * 1024`. */
  function SizeLimitBytes(setting: Option<int>): int {
    (if setting.Some? then setting.value else DefaultMaxFileSizeMb) * 1024 * 1024
  }

  function SizeDetail(maxFileSizeMb: int): string {
    SizeDetailLead + IntToString(maxFileSizeMb) + SizeDetailTail
  }

  /** The extension check, then the size check; the size message reads the setting
      with `[...]`, so a missing setting raises there. */
  function Check(u: Upload, setting: Option<int>): (p: Preflight)
    ensures p.Proceed? ==> u.fileName == Some(p.name) && IsPdfName(p.name)
                           && u.fileSize.Some? && u.fileSize.value <= SizeLimitBytes(setting)
    ensures p.Reject? ==> u.fileName.Some?
  {
    if u.fileName.None? then Escape(NoneHasNoLower)
    else if !IsPdfName(u.fileName.value) then Reject(NotPdfDetail)
    else if u.fileSize.None? then Escape(NoneNotComparable)
    else if u.fileSize.value <= SizeLimitBytes(setting) then Proceed(u.fileName.value)
    else if setting.None? then Escape(SizeSettingMissing)
    else Reject(SizeDetail(setting.value))
  }

  function CaseDir(caseId: string): string {
    PathJoin(TempRoot, caseId)
  }

  function TempPdf(caseId: string, name: string): string {
    PathJoin(CaseDir(caseId), name)
  }

  /** The `parsed_analysis_data` dict handed to the report generator. */
  function AnalysisData(analysis: string): map<string, ReportGenerator.Content> {
    map["summary" := ReportGenerator.Block(analysis),
        "arguments" := ReportGenerator.Block(ArgumentsPlaceholder),
        "inconsistencies" := ReportGenerator.Block(InconsistenciesPlaceholder),
        "recommendations" := ReportGenerator.Block(RecommendationsPlaceholder)]
  }

  /** The `except` clauses: a PDFProcessingError shows its own text, a GeminiAPIError
      names the service, and every other exception gets the generic notice. */
  function NoticeFor(e: Exc): (n: Reply)
    ensures n.ProcessingError? || n == ApiError("Gemini") || n == UnexpectedError
  {
    match e
    case PdfError(_, _) => ProcessingError(Str(e))
    case GeminiError(_, _, _) => ApiError("Gemini")
    case _ => UnexpectedError
  }

  /** The outcomes of everything outside this module that `handle_document` relies on. */
  datatype Stages = Stages(
    download: Option<Exc>,                            // None: the PDF is saved at the requested path
    process: (bool, string) -> Result<(string, string), Exc>,  // process_pdf, given whether the file exists
    analyze: string -> Result<string, Exc>,           // analyze_text_with_gemini
    report: (string, string, map<string, ReportGenerator.Content>) -> Result<string, Exc>,  // generate_analysis_report
    sendFails: bool,                                  // opening or sending the report raises
    faults: set<string>)                              // paths whose os.remove / os.rmdir raises OSError

  /** `notify_report_ready`: the report is sent with its caption, or the fallback
      notice replaces it; either way the report file is then removed. */
  function SendReport(files: set<string>, path: string, originalFilename: string, sendFails: bool,
                      faults: set<string>): (r: (Reply, set<string>))
    ensures r.0 == ReportSendFailed <==> sendFails || path !in files
    ensures r.0 != ReportSendFailed ==> r.0 == ReportDocument(Basename(path), originalFilename)
    ensures path in r.1 <==> path in files && path in faults
    ensures forall f | f != path :: f in r.1 <==> f in files
  {
    var reply := if path in files && !sendFails then ReportDocument(Basename(path), originalFilename)
                 else ReportSendFailed;
    var files' := if path in files && path !in faults then files - {path} else files;
    (reply, files')
  }

  /** What part of the `try` block leaves behind: the replies it sent, the files,
      and the report path when one was generated. */
  datatype Leg = Leg(replies: seq<Reply>, files: set<string>, report: Option<string>)

  /** `generate_analysis_report` on the fixed analysis data, then `notify_report_ready`. */
  function ReportStage(files: set<string>, caseId: string, name: string, analysis: string, st: Stages): (l: Leg)
    ensures |l.replies| == 2 && l.replies[0] == ReportGenerating
  {
    match st.report(caseId, name, AnalysisData(analysis))
    case Err(e) => Leg([ReportGenerating, NoticeFor(e)], files, None)
    case Ok(path) =>
      var sent := SendReport(files + {path}, path, name, st.sendFails, st.faults);
      Leg([ReportGenerating, sent.0], sent.1, Some(path))
  }

  /** The stages after the download: `process_pdf`, the analysis, then the report. */
  function ProcessStage(files: set<string>, caseId: string, name: string, tempPdf: string, st: Stages): (l: Leg)
    ensures 1 <= |l.replies| <= 3
  {
    match st.process(tempPdf in files, tempPdf)
    case Err(e) => Leg([NoticeFor(e)], files, None)
    case Ok(extracted) =>
      match st.analyze(extracted.0)
      case Err(e) => Leg([AnalysisStarted, NoticeFor(e)], files, None)
      case Ok(analysis) =>
        var l := ReportStage(files, caseId, name, analysis, st);
        Leg([AnalysisStarted] + l.replies, l.files, l.report)
  }

  /** What the `try` block leaves behind, with the path the download recorded. */
  datatype Trial = Trial(replies: seq<Reply>, files: set<string>, downloaded: Option<string>,
                         report: Option<string>)

  /** The `try` block of `handle_document`, with the matching `except` clause. */
  function Attempt(files: set<string>, caseId: string, name: string, tempPdf: string, st: Stages): (t: Trial)
    ensures 2 <= |t.replies| <= 4 && t.replies[0] == FileUploaded
    ensures t.downloaded.Some? <==> st.download.None?
    ensures t.downloaded.Some? ==> t.downloaded.value == tempPdf
  {
    if st.download.Some? then Trial([FileUploaded, NoticeFor(st.download.value)], files, None, None)
    else
      var l := ProcessStage(files + {tempPdf}, caseId, name, tempPdf, st);
      Trial([FileUploaded] + l.replies, l.files, Some(tempPdf), l.report)
  }

  /** The directory holds no file and no directory. */
  predicate IsEmptyDir(d: string, files: set<string>, dirs: set<string>) {
    (forall f | f in files :: !Under(f, d)) && (forall x | x in dirs :: !Under(x, d))
  }

  /** The `finally` block: remove the downloaded PDF if a path was recorded and the
      file exists, then the case directory if it exists and is empty. A removal that
      fails is logged and skipped. */
  function Cleanup(files: set<string>, dirs: set<string>, downloaded: Option<string>, caseDir: string,
                   faults: set<string>): (r: (set<string>, set<string>))
    ensures r.0 <= files && r.1 <= dirs
    ensures forall f | f in files && f !in r.0 :: downloaded == Some(f)
    ensures downloaded.Some? ==> (downloaded.value in r.0 <==> downloaded.value in files && downloaded.value in faults)
    ensures forall x | x in dirs && x !in r.1 :: x == caseDir
    ensures caseDir in dirs ==> (caseDir in r.1 <==> !IsEmptyDir(caseDir, r.0, dirs) || caseDir in faults)
  {
    var files' := if downloaded.Some? && downloaded.value in files && downloaded.value !in faults
                  then files - {downloaded.value} else files;
    var dirs' := if caseDir in dirs && IsEmptyDir(caseDir, files', dirs) && caseDir !in faults
                 then dirs - {caseDir} else dirs;
    (files', dirs')
  }

  /** What one call of `handle_document` produces. */
  datatype Outcome = Outcome(replies: seq<Reply>, files: set<string>, dirs: set<string>, escaped: Option<Exc>)

  /** `handle_document` on a message that may lack a document. */
  function Handle(files: set<string>, dirs: set<string>, upload: Option<Upload>, caseId: string,
                  setting: Option<int>, st: Stages): (o: Outcome)
    ensures o.escaped.Some? ==> o.replies == [] && o.files == files && o.dirs == dirs
  {
    if upload.None? then Outcome([], files, dirs, None)
    else
      match Check(upload.value, setting)
      case Escape(e) => Outcome([], files, dirs, Some(e))
      case Reject(detail) => Outcome([UploadError(detail)], files, dirs, None)
      case Proceed(name) =>
        var t := Attempt(files, caseId, name, TempPdf(caseId, name), st);
        var c := Cleanup(t.files, dirs + {TempRoot, CaseDir(caseId)}, t.downloaded, CaseDir(caseId), st.faults);
        Outcome(t.replies, c.0, c.1, None)
  }

  /** The files and directories the bot works in, and what it has sent to the user. */
  class Workspace {
    var files: set<string>
    var dirs: set<string>
    var outbox: seq<Reply>

    constructor(files0: set<string>, dirs0: set<string>)
      ensures files == files0 && dirs == dirs0 && outbox == []
    {
      files := files0;
      dirs := dirs0;
      outbox := [];
    }

    method Send(r: Reply)
      modifies this
      ensures outbox == old(outbox) + [r]
      ensures files == old(files) && dirs == old(dirs)
    {
      outbox := outbox + [r];
    }

    method NotifyReportReady(path: string, originalFilename: string, sendFails: bool, faults: set<string>)
      modifies this
      ensures var sent := SendReport(old(files), path, originalFilename, sendFails, faults);
              outbox == old(outbox) + [sent.0] && files == sent.1 && dirs == old(dirs)
    {
      if path in files && !sendFails {
        Send(ReportDocument(Basename(path), originalFilename));
      } else {
        Send(ReportSendFailed);
      }
      if path in files && path !in faults {
        files := files - {path};
      }
    }

    method GenerateAndSend(caseId: string, name: string, analysis: string, st: Stages)
      modifies this
      ensures var l := ReportStage(old(files), caseId, name, analysis, st);
              outbox == old(outbox) + l.replies && files == l.files && dirs == old(dirs)
    {
      Send(ReportGenerating);
      var report := st.report(caseId, name, AnalysisData(analysis));
      if report.Err? {
        Send(NoticeFor(report.error));
        return;
      }
      files := files + {report.value};
      NotifyReportReady(report.value, name, st.sendFails, st.faults);
    }

    method ProcessAndAnalyze(caseId: string, name: string, tempPdf: string, st: Stages)
      modifies this
      ensures var l := ProcessStage(old(files), caseId, name, tempPdf, st);
              outbox == old(outbox) + l.replies && files == l.files && dirs == old(dirs)
    {
      var extracted := st.process(tempPdf in files, tempPdf);
      if extracted.Err? {
        Send(NoticeFor(extracted.error));
        return;
      }
      Send(AnalysisStarted);
      var analysis := st.analyze(extracted.value.0);
      if analysis.Err? {
        Send(NoticeFor(analysis.error));
        return;
      }
      GenerateAndSend(caseId, name, analysis.value, st);
    }

    /** The `try` block; returns the path the download recorded. */
    method RunStages(caseId: string, name: string, tempPdf: string, st: Stages)
      returns (downloaded: Option<string>)
      modifies this
      ensures var t := Attempt(old(files), caseId, name, tempPdf, st);
              outbox == old(outbox) + t.replies && files == t.files && dirs == old(dirs)
              && downloaded == t.downloaded
    {
      Send(FileUploaded);
      if st.download.Some? {
        Send(NoticeFor(st.download.value));
        return None;
      }
      files := files + {tempPdf};
      downloaded := Some(tempPdf);
      ProcessAndAnalyze(caseId, name, tempPdf, st);
    }

    /** The `finally` block. */
    method CleanUp(downloaded: Option<string>, caseDir: string, faults: set<string>)
      modifies this
      ensures (files, dirs) == Cleanup(old(files), old(dirs), downloaded, caseDir, faults)
      ensures outbox == old(outbox)
    {
      if downloaded.Some? && downloaded.value in files && downloaded.value !in faults {
        files := files - {downloaded.value};
      }
      if caseDir in dirs && IsEmptyDir(caseDir, files, dirs) && caseDir !in faults {
        dirs := dirs - {caseDir};
      }
    }

    /** `handle_document`; `escaped` is the exception that leaves it, if any. */
    method HandleDocument(upload: Option<Upload>, caseId: string, setting: Option<int>, st: Stages)
      returns (escaped: Option<Exc>)
      modifies this
      ensures var o := Handle(old(files), old(dirs), upload, caseId, setting, st);
              outbox == old(outbox) + o.replies && files == o.files && dirs == o.dirs && escaped == o.escaped
    {
      if upload.None? {
        return None;
      }
      var u := upload.value;
      if u.fileName.None? {
        return Some(NoneHasNoLower);
      }
      var name := u.fileName.value;
      if !IsPdfName(name) {
        Send(UploadError(NotPdfDetail));
        return None;
      }
      var maxSizeBytes := SizeLimitBytes(setting);
      if u.fileSize.None? {
        return Some(NoneNotComparable);
      }
      if u.fileSize.value > maxSizeBytes {
        if setting.None? {
          return Some(SizeSettingMissing);
        }
        Send(UploadError(SizeDetail(setting.value)));
        return None;
      }
      var caseDir := CaseDir(caseId);
      dirs := dirs + {TempRoot, caseDir};
      var tempPdf := PathJoin(caseDir, name);
      var downloaded := RunStages(caseId, name, tempPdf, st);
      CleanUp(downloaded, caseDir, st.faults);
      escaped := None;
    }
  }

  // ----- Properties of the handler -----

  /** Without a message or a document nothing happens. */
  lemma MissingMessageHasNoEffect(files: set<string>, dirs: set<string>, caseId: string, setting: Option<int>,
                                  st: Stages)
    ensures Handle(files, dirs, None, caseId, setting, st) == Outcome([], files, dirs, None)
  {
  }

  /** A file whose lower-cased name does not end in ".pdf" gets an upload error and
      nothing else: no directory, no download, no stage, whatever its size. */
  lemma NonPdfRejectedBeforeAnyIO(files: set<string>, dirs: set<string>, u: Upload, caseId: string,
                                  setting: Option<int>, st: Stages)
    requires u.fileName.Some? && !IsPdfName(u.fileName.value)
    ensures Handle(files, dirs, Some(u), caseId, setting, st) == Outcome([UploadError(NotPdfDetail)], files, dirs, None)
  {
  }

  /** A PDF is rejected for its size exactly when it is larger than the limit, so a
      file of exactly the limit goes on to the download. */
  lemma SizeLimitIsInclusive(files: set<string>, dirs: set<string>, name: string, size: int, caseId: string,
                             limitMb: int, st: Stages)
    requires IsPdfName(name)
    ensures var o := Handle(files, dirs, Some(Upload(Some(name), Some(size))), caseId, Some(limitMb), st);
            && (size > limitMb * 1024 * 1024 <==> o == Outcome([UploadError(SizeDetail(limitMb))], files, dirs, None))
            && (size <= limitMb * 1024 * 1024 ==> o.replies[0] == FileUploaded && o.escaped == None)
  {
  }

  /** Every exception is sent to exactly one notice. */
  lemma NoticeMappingIsTotal(e: Exc)
    ensures NoticeFor(e) == ProcessingError(Str(e)) <==> e.PdfError?
    ensures NoticeFor(e) == ApiError("Gemini") <==> e.GeminiError?
    ensures NoticeFor(e) == UnexpectedError <==> e.AppError? || e.Other?
  {
  }

  /** A download that raises ends the run with that exception's notice; nothing
      was recorded, so the temp PDF is not touched. */
  lemma DownloadFailureReported(files: set<string>, dirs: set<string>, u: Upload, name: string, caseId: string,
                                setting: Option<int>, st: Stages)
    requires Check(u, setting) == Proceed(name) && st.download.Some?
    ensures var o := Handle(files, dirs, Some(u), caseId, setting, st);
            o.replies == [FileUploaded, NoticeFor(st.download.value)] && o.files == files && o.escaped == None
  {
  }

  /** When `process_pdf` raises, the user gets its notice right after the upload
      notice, and neither the analysis nor the report is reached: stages that
      differ only from the analysis on give the same outcome. */
  lemma ProcessingFailureStopsPipeline(files: set<string>, dirs: set<string>, u: Upload, name: string,
                                       caseId: string, setting: Option<int>, st: Stages, other: Stages)
    requires Check(u, setting) == Proceed(name) && st.download.None?
    requires st.process(true, TempPdf(caseId, name)).Err?
    requires other.download == st.download && other.process == st.process && other.faults == st.faults
    ensures Handle(files, dirs, Some(u), caseId, setting, st) == Handle(files, dirs, Some(u), caseId, setting, other)
    ensures Handle(files, dirs, Some(u), caseId, setting, st).replies
            == [FileUploaded, NoticeFor(st.process(true, TempPdf(caseId, name)).error)]
  {
  }

  /** When the analysis raises, the report is never generated. */
  lemma AnalysisFailureStopsPipeline(files: set<string>, dirs: set<string>, u: Upload, name: string,
                                     caseId: string, setting: Option<int>, st: Stages, other: Stages)
    requires Check(u, setting) == Proceed(name) && st.download.None?
    requires st.process(true, TempPdf(caseId, name)).Ok?
    requires st.analyze(st.process(true, TempPdf(caseId, name)).value.0).Err?
    requires other.download == st.download && other.process == st.process && other.analyze == st.analyze
    requires other.faults == st.faults
    ensures Handle(files, dirs, Some(u), caseId, setting, st) == Handle(files, dirs, Some(u), caseId, setting, other)
    ensures Handle(files, dirs, Some(u), caseId, setting, st).replies
            == [FileUploaded, AnalysisStarted,
                NoticeFor(st.analyze(st.process(true, TempPdf(caseId, name)).value.0).error)]
  {
  }

  /** After a successful analysis the report receives the analysis as its summary.
      A report failure ends with that failure's notice; a generated report is sent
      (or the fallback notice is) and its file is gone afterwards unless its removal
      failed. */
  lemma ReportStageOutcome(files: set<string>, dirs: set<string>, u: Upload, name: string, caseId: string,
                           setting: Option<int>, st: Stages, analysis: string)
    requires Check(u, setting) == Proceed(name) && st.download.None?
    requires st.process(true, TempPdf(caseId, name)).Ok?
    requires st.analyze(st.process(true, TempPdf(caseId, name)).value.0) == Ok(analysis)
    ensures var o := Handle(files, dirs, Some(u), caseId, setting, st);
            var r := st.report(caseId, name, AnalysisData(analysis));
            && |o.replies| == 4
            && o.replies[..3] == [FileUploaded, AnalysisStarted, ReportGenerating]
            && (r.Err? ==> o.replies[3] == NoticeFor(r.error))
            && (r.Ok? && !st.sendFails ==> o.replies[3] == ReportDocument(Basename(r.value), name))
            && (r.Ok? && st.sendFails ==> o.replies[3] == ReportSendFailed)
            && (r.Ok? ==> (r.value in o.files <==> r.value in st.faults))
  {
  }

  /** The `finally` block always runs and never raises: the downloaded PDF is gone
      unless its removal failed, the case directory survives only when it is not
      empty or its removal failed, the only new files are ones whose removal failed,
      and the only files removed are the temp PDF and the generated report. */
  lemma CleanupOnEveryPath(files: set<string>, dirs: set<string>, u: Upload, name: string, caseId: string,
                           setting: Option<int>, st: Stages)
    requires Check(u, setting) == Proceed(name)
    ensures var o := Handle(files, dirs, Some(u), caseId, setting, st);
            var tempPdf := TempPdf(caseId, name);
            && o.escaped == None
            && (st.download.None? ==> (tempPdf in o.files <==> tempPdf in st.faults))
            && (CaseDir(caseId) in o.dirs <==> !IsEmptyDir(CaseDir(caseId), o.files, o.dirs) || CaseDir(caseId) in st.faults)
            && o.files - files <= st.faults
            && (forall f | f in files && f !in o.files :: f == tempPdf || Attempt(files, caseId, name, tempPdf, st).report == Some(f))
            && o.dirs - dirs <= {TempRoot, CaseDir(caseId)}
            && dirs - o.dirs <= {CaseDir(caseId)}
  {
  }

  /** The sections of the report built from the analysis data: the analysis is the
      summary and the other three carry the fixed texts, so no section falls back to
      its "No … by the AI." placeholder. */
  lemma AnalysisDataFillsEverySection(w: ReportGenerator.Wording, analysis: string)
    ensures ReportGenerator.Sections(w, AnalysisData(analysis))
            == [("Summary", ReportGenerator.Block(analysis)),
                ("Key Arguments", ReportGenerator.Block(ArgumentsPlaceholder)),
                ("Potential Inconsistencies", ReportGenerator.Block(InconsistenciesPlaceholder)),
                ("Recommendations", ReportGenerator.Block(RecommendationsPlaceholder))]
  {
  }

  // ----- The handler over the modelled stages -----

  /** The PDF stage is the modelled `process_pdf` on the given document. */
  ghost predicate ProcessesWith(st: Stages, doc: PdfProcessor.PdfDoc, minLength: int,
                                detector: string -> PdfProcessor.Detection)
  {
    forall fileExists, path ::
      st.process(fileExists, path) == PdfProcessor.ProcessPdf(fileExists, path, doc, minLength, detector)
  }

  /** The analysis stage is the modelled `analyze_text_with_gemini`. */
  ghost predicate AnalyzesWith(st: Stages, apiKey: Option<string>, backend: (string, string) -> GeminiClient.Call) {
    forall text :: st.analyze(text) == GeminiClient.AnalyzeText(text, apiKey, backend)
  }

  /** The report stage is the modelled `generate_analysis_report`. */
  ghost predicate ReportsWith(st: Stages, w: ReportGenerator.Wording, analysisDate: string, endTime: string,
                              render: seq<ReportGenerator.Flowable> -> Option<Exc>,
                              trailer: ReportGenerator.TrailerCall)
  {
    forall caseId, name, data ::
      st.report(caseId, name, data) == ReportGenerator.Report(w, caseId, name, data, analysisDate, endTime, render, trailer)
  }

  /** The stages as the modelled `process_pdf`, `analyze_text_with_gemini` and
      `generate_analysis_report` compute them. */
  function PipelineStages(w: ReportGenerator.Wording, doc: PdfProcessor.PdfDoc, minLength: int,
                          detector: string -> PdfProcessor.Detection, apiKey: Option<string>,
                          backend: (string, string) -> GeminiClient.Call, analysisDate: string, endTime: string,
                          render: seq<ReportGenerator.Flowable> -> Option<Exc>,
                          trailer: ReportGenerator.TrailerCall, download: Option<Exc>, sendFails: bool,
                          faults: set<string>): (st: Stages)
    ensures st.download == download && st.sendFails == sendFails && st.faults == faults
    ensures ProcessesWith(st, doc, minLength, detector)
    ensures AnalyzesWith(st, apiKey, backend)
    ensures ReportsWith(st, w, analysisDate, endTime, render, trailer)
  {
    Stages(download,
           (fileExists, path) => PdfProcessor.ProcessPdf(fileExists, path, doc, minLength, detector),
           text => GeminiClient.AnalyzeText(text, apiKey, backend),
           (caseId, name, data) => ReportGenerator.Report(w, caseId, name, data, analysisDate, endTime, render, trailer),
           sendFails, faults)
  }

  /** A PDF with no pages gets a processing notice whose text names the reason,
      whatever the later stages would do. */
  lemma PagelessPdfExplained(files: set<string>, dirs: set<string>, u: Upload, name: string, caseId: string,
                             setting: Option<int>, st: Stages, minLength: int,
                             detector: string -> PdfProcessor.Detection)
    requires Check(u, setting) == Proceed(name) && st.download.None?
    requires ProcessesWith(st, PdfProcessor.Opened([]), minLength, detector)
    ensures var o := Handle(files, dirs, Some(u), caseId, setting, st);
            && |o.replies| == 2 && o.replies[0] == FileUploaded && o.replies[1].ProcessingError?
            && Contains(o.replies[1].detail, "PDF file has no pages")
            && Contains(ProcessingErrorText(o.replies[1].detail), "PDF file has no pages")
  {
    var path := TempPdf(caseId, name);
    PdfProcessor.NoPagesAlwaysFails(path);
    PdfProcessor.ProcessPdfStopsAtExtraction(true, path, PdfProcessor.Opened([]), minLength, detector);
    var e := PdfProcessor.Extract(true, path, PdfProcessor.Opened([])).error;
    assert st.process(true, path) == Err(e);
    ProcessingFailureStopsPipeline(files, dirs, u, name, caseId, setting, st, st);
    ContainsWithin(Str(e), "PDF file has no pages", ProcessingErrorPrefix + " ", "");
    assert ProcessingErrorPrefix + " " + Str(e) + "" == ProcessingErrorText(Str(e));
  }

  /** As written, the report generator always raises, so a document that passes the
      PDF checks and the analysis ends with the generic notice and never a report. */
  lemma AsWrittenPipelineNeverDelivers(files: set<string>, dirs: set<string>, u: Upload, name: string,
                                       caseId: string, setting: Option<int>, st: Stages,
                                       w: ReportGenerator.Wording, analysisDate: string, endTime: string,
                                       render: seq<ReportGenerator.Flowable> -> Option<Exc>)
    requires Check(u, setting) == Proceed(name) && st.download.None?
    requires ReportsWith(st, w, analysisDate, endTime, render, ReportGenerator.StylesArgumentMissing)
    requires st.process(true, TempPdf(caseId, name)).Ok?
    requires st.analyze(st.process(true, TempPdf(caseId, name)).value.0).Ok?
    ensures Handle(files, dirs, Some(u), caseId, setting, st).replies
            == [FileUploaded, AnalysisStarted, ReportGenerating, UnexpectedError]
  {
    var analysis := st.analyze(st.process(true, TempPdf(caseId, name)).value.0).value;
    ReportGenerator.AsWrittenReportAlwaysFails(w, caseId, name, AnalysisData(analysis), analysisDate, endTime, render);
    ReportStageOutcome(files, dirs, u, name, caseId, setting, st, analysis);
  }

  /** With the corrected report generator and a renderer that succeeds, a document
      that passes the PDF checks and the analysis is answered with its report,
      named after the upload, and the report file is removed afterwards. */
  lemma CorrectedPipelineDelivers(files: set<string>, dirs: set<string>, u: Upload, name: string,
                                  caseId: string, setting: Option<int>, st: Stages,
                                  w: ReportGenerator.Wording, analysisDate: string, endTime: string,
                                  render: seq<ReportGenerator.Flowable> -> Option<Exc>)
    requires Check(u, setting) == Proceed(name) && st.download.None? && !st.sendFails
    requires ReportsWith(st, w, analysisDate, endTime, render, ReportGenerator.WithStyleName("Normal"))
    requires forall story :: render(story).None?
    requires st.process(true, TempPdf(caseId, name)).Ok?
    requires st.analyze(st.process(true, TempPdf(caseId, name)).value.0).Ok?
    ensures var o := Handle(files, dirs, Some(u), caseId, setting, st);
            var path := ReportGenerator.ReportFilePath(caseId, name);
            && o.replies == [FileUploaded, AnalysisStarted, ReportGenerating, ReportDocument(Basename(path), name)]
            && (path in o.files <==> path in st.faults)
  {
    var analysis := st.analyze(st.process(true, TempPdf(caseId, name)).value.0).value;
    ReportGenerator.ReportPathWhenRendered(w, caseId, name, AnalysisData(analysis), analysisDate, endTime, render);
    ReportStageOutcome(files, dirs, u, name, caseId, setting, st, analysis);
  }
}
