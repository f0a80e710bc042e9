/**
 * report_generator.py: the report's "story" (the flowables handed to reportlab),
 * the report's file name, and the wrapping of any failure. Rendering the story
 * into PDF bytes (`doc.build`) is a parameter that either succeeds or raises.
 * The two `datetime.now()` readings are parameters.
 */
module ReportGenerator {
  import opened Wrappers
  import opened Text
  import opened Errors

  const GeneratedReportsPath := "data/generated_reports/"
  const IntroductionTitle := "Introduction"
  const ConclusionTitle := "Conclusion"
  const SectionTitles := ["Summary", "Key Arguments", "Potential Inconsistencies", "Recommendations"]
  const SectionKeys := ["summary", "arguments", "inconsistencies", "recommendations"]

  /** The report's longer fixed texts. The story is defined for any wording, so that what is
      proved about its shape does not hinge on their letters; `ReportWording` is the one used. */
  datatype Wording = Wording(
    title: string,
    introBefore: string,
    introAfter: string,
    conclusion: string,
    noSummary: string,
    noArguments: string,
    noInconsistencies: string,
    noRecommendations: string)

  const ReportWording := Wording(
    "Political Case Analysis Report",
    "This report contains the automated analysis of the political case document titled ",
    ". The analysis was performed using an advanced AI model to identify key aspects, potential issues, and provide recommendations based on the text provided.",
    "This automated analysis is intended to provide insights based on the textual content of the document. It is recommended to cross-verify these findings with human expertise and other sources. The AI's interpretation is based on its training data and the provided text only.",
    "No summary provided by the AI.",
    "No key arguments identified by the AI.",
    "No inconsistencies identified by the AI.",
    "No recommendations provided by the AI.")

  /** A paragraph style; only its name matters to the story's structure. */
  datatype ParagraphStyle = ParagraphStyle(name: string)

  /** How the final "End of Report" line calls `create_styled_paragraph`: with a style name
      and the sheet, or (as report_generator.py:129 does) with only two arguments. */
  datatype TrailerCall = WithStyleName(styleName: string) | StylesArgumentMissing

  /** One element of the story. Spacer heights and table styling are left out. */
  datatype Flowable = Paragraph(text: string, style: ParagraphStyle) | Table(rows: seq<seq<string>>) | Spacer

  /** A value in the analysis-data dict: a text block, a list of points, or `None`. */
  datatype Content = Block(text: string) | Bullets(points: seq<string>) | Null

  const Justify := ParagraphStyle("Justify")
  const CenterBold := ParagraphStyle("CenterBold")
  const SectionTitle := ParagraphStyle("SectionTitle")
  const NormalLeft := ParagraphStyle("NormalLeft")
  const Normal := ParagraphStyle("Normal")

  /** A subset of the names reportlab's sample stylesheet defines: its main styles, without
      the aliases (`title`, `h1`…`h6`, `bu`, `df`) and the list styles. The report only
      relies on "Normal" being defined and on none of its four own names being defined. */
  const SampleStyleNames: set<string> :=
    {"Normal", "BodyText", "Italic", "Heading1", "Heading2", "Heading3", "Heading4", "Heading5",
     "Heading6", "Title", "Bullet", "Definition", "Code"}

  function SampleSheet(): map<string, ParagraphStyle> {
    map n | n in SampleStyleNames :: ParagraphStyle(n)
  }

  /** The sample sheet after the four `styles.add` calls. */
  function ReportSheet(): map<string, ParagraphStyle> {
    SampleSheet()["Justify" := Justify]["CenterBold" := CenterBold]["SectionTitle" := SectionTitle]
      ["NormalLeft" := NormalLeft]
  }

  /** The stylesheet the report builds on, which `styles.add` extends in place. */
  class StyleSheet {
    var byName: map<string, ParagraphStyle>

    /** `getSampleStyleSheet()`. */
    constructor Sample()
      ensures byName == SampleSheet()
    {
      byName := SampleSheet();
    }

    /** `styles.add(style)`: a name already defined is refused with a KeyError. */
    method Add(style: ParagraphStyle) returns (err: Option<Exc>)
      modifies this
      ensures style.name in old(byName) ==> err.Some? && byName == old(byName)
      ensures style.name !in old(byName) ==> err == None && byName == old(byName)[style.name := style]
    {
      if style.name in byName {
        err := Some(Other("KeyError", "\"Style '" + style.name + "' already defined in stylesheet\""));
      } else {
        byName := byName[style.name := style];
        err := None;
      }
    }
  }

  /** `styles[name]`: only a name the sheet defines resolves; any other is a KeyError. */
  function Lookup(byName: map<string, ParagraphStyle>, name: string): (r: Result<ParagraphStyle, Exc>)
    ensures r.Ok? <==> name in byName
    ensures r.Ok? ==> r.value == byName[name]
  {
    if name in byName then Ok(byName[name])
    else Err(Other("KeyError", "\"Style '" + name + "' not found in stylesheet\""))
  }

  /** What calling `create_styled_paragraph` with two arguments raises. */
  const MissingStylesArgument :=
    Other("TypeError", "create_styled_paragraph() missing 1 required positional argument: 'styles'")

  /** Python truthiness of a paragraph text: `None` and "" render as "N/A". */
  function NonBlank(text: Option<string>): (r: string)
    ensures r != ""
    ensures text.Some? && text.value != "" ==> r == text.value
  {
    if text.Some? && text.value != "" then text.value else "N/A"
  }

  /** `create_styled_paragraph(text, style_name, styles)`. */
  function StyledParagraph(text: Option<string>, styleName: string, byName: map<string, ParagraphStyle>)
    : (r: Result<Flowable, Exc>)
    ensures r.Ok? <==> styleName in byName
    ensures r.Ok? ==> r.value.Paragraph? && r.value.text != "" && r.value.style == byName[styleName]
  {
    match Lookup(byName, styleName)
    case Ok(style) => Ok(Paragraph(NonBlank(text), style))
    case Err(e) => Err(e)
  }

  /** The sheet defines the styles the story asks for by name. */
  predicate HasReportStyles(byName: map<string, ParagraphStyle>) {
    && "Justify" in byName && byName["Justify"] == Justify
    && "CenterBold" in byName && byName["CenterBold"] == CenterBold
    && "SectionTitle" in byName && byName["SectionTitle"] == SectionTitle
  }

  /** `Analysis_Report_{case_id}_{original_filename.replace('.pdf', '')}.pdf`. */
  function ReportFileName(caseId: string, originalFilename: string): (name: string)
    ensures StartsWith(name, "Analysis_Report_" + caseId + "_")
    ensures EndsWith(name, ".pdf")
  {
    "Analysis_Report_" + caseId + "_" + RemoveAll(originalFilename, ".pdf") + ".pdf"
  }

  function ReportFilePath(caseId: string, originalFilename: string): string {
    PathJoin(GeneratedReportsPath, ReportFileName(caseId, originalFilename))
  }

  /** For an upload named `stem + ".pdf"` (no other ".pdf" in it) the report is
      `Analysis_Report_{case_id}_{stem}.pdf` in the reports directory. */
  lemma ReportFileNameOfPdf(caseId: string, stem: string)
    requires forall i: nat :: i < |stem| ==> !OccursAt(stem + ".pdf", ".pdf", i)
    ensures ReportFilePath(caseId, stem + ".pdf")
         == GeneratedReportsPath + "Analysis_Report_" + caseId + "_" + stem + ".pdf"
  {
    RemoveAllSuffix(stem, ".pdf");
  }

  /** A name without ".pdf" in it is kept whole. */
  lemma ReportFileNameKeepsOtherNames(caseId: string, name: string)
    requires forall i: nat :: !OccursAt(name, ".pdf", i)
    ensures ReportFileName(caseId, name) == "Analysis_Report_" + caseId + "_" + name + ".pdf"
  {
    RemoveAllFree(name, ".pdf");
  }

  function IntroText(w: Wording, originalFilename: string): string {
    w.introBefore + "'" + originalFilename + "'" + w.introAfter
  }

  function MetadataRows(caseId: string, originalFilename: string, analysisDate: string): seq<seq<string>> {
    [["Report ID:", caseId], ["Original Document:", originalFilename], ["Analysis Date:", analysisDate]]
  }

  /** The value of `analysis_data.get(key, placeholder)`. */
  function Get(data: map<string, Content>, key: string, placeholder: string): Content {
    if key in data then data[key] else Block(placeholder)
  }

  /** The placeholder of the k-th section. */
  function Placeholder(w: Wording, k: nat): string
    requires k < 4
  {
    [w.noSummary, w.noArguments, w.noInconsistencies, w.noRecommendations][k]
  }

  /** The `sections` dict, in its insertion order. */
  function Sections(w: Wording, data: map<string, Content>): seq<(string, Content)> {
    [(SectionTitles[0], Get(data, SectionKeys[0], w.noSummary)),
     (SectionTitles[1], Get(data, SectionKeys[1], w.noArguments)),
     (SectionTitles[2], Get(data, SectionKeys[2], w.noInconsistencies)),
     (SectionTitles[3], Get(data, SectionKeys[3], w.noRecommendations))]
  }

  function Heading(title: string): Flowable {
    Paragraph(NonBlank(Some(title)), SectionTitle)
  }

  /** One "• point" paragraph and a spacer per point. */
  function BulletItems(points: seq<string>): seq<Flowable> {
    if points == [] then []
    else BulletItems(points[..|points| - 1]) + [Paragraph("• " + points[|points| - 1], Justify), Spacer]
  }

  function ContentItems(c: Content): seq<Flowable> {
    match c
    case Bullets(points) => BulletItems(points)
    case Block(t) => [Paragraph(NonBlank(Some(t)), Justify)]
    case Null => [Paragraph(NonBlank(None), Justify)]
  }

  function SectionItems(s: (string, Content)): seq<Flowable> {
    [Heading(s.0)] + ContentItems(s.1) + [Spacer]
  }

  function SectionsItems(ss: seq<(string, Content)>): seq<Flowable> {
    if ss == [] then [] else SectionItems(ss[0]) + SectionsItems(ss[1..])
  }

  /** Title, metadata table and introduction. */
  function Opening(w: Wording, caseId: string, originalFilename: string, analysisDate: string): seq<Flowable> {
    [Paragraph(NonBlank(Some(w.title)), CenterBold), Spacer,
     Table(MetadataRows(caseId, originalFilename, analysisDate)), Spacer,
     Heading(IntroductionTitle), Paragraph(NonBlank(Some(IntroText(w, originalFilename))), Justify), Spacer]
  }

  function Closing(w: Wording): seq<Flowable> {
    [Heading(ConclusionTitle), Paragraph(NonBlank(Some(w.conclusion)), Justify), Spacer]
  }

  function EndLine(endTime: string): string {
    "End of Report - " + endTime
  }

  /** The final line, or what its call raises. */
  function Trailer(byName: map<string, ParagraphStyle>, endTime: string, trailer: TrailerCall)
    : Result<Flowable, Exc>
  {
    match trailer
    case StylesArgumentMissing => Err(MissingStylesArgument)
    case WithStyleName(n) => StyledParagraph(Some(EndLine(endTime)), n, byName)
  }

  /** The story, given the sheet and how the final line is made. */
  function Story(w: Wording, byName: map<string, ParagraphStyle>, caseId: string, originalFilename: string,
                 data: map<string, Content>, analysisDate: string, endTime: string,
                 trailer: TrailerCall): (r: Result<seq<Flowable>, Exc>)
    ensures r.Ok? <==> Trailer(byName, endTime, trailer).Ok?
  {
    match Trailer(byName, endTime, trailer)
    case Err(e) => Err(e)
    case Ok(last) =>
      Ok(Opening(w, caseId, originalFilename, analysisDate) + SectionsItems(Sections(w, data)) + Closing(w) + [last])
  }

  /** The title, the metadata table and the introduction. */
  method AppendOpening(w: Wording, sheet: map<string, ParagraphStyle>, story: seq<Flowable>, caseId: string,
                       originalFilename: string, analysisDate: string)
    returns (story': seq<Flowable>)
    requires HasReportStyles(sheet)
    ensures story' == story + Opening(w, caseId, originalFilename, analysisDate)
  {
    var title := StyledParagraph(Some(w.title), "CenterBold", sheet).value;
    var introHeading := StyledParagraph(Some(IntroductionTitle), "SectionTitle", sheet).value;
    var intro := StyledParagraph(Some(IntroText(w, originalFilename)), "Justify", sheet).value;
    story' := story + [title, Spacer, Table(MetadataRows(caseId, originalFilename, analysisDate)), Spacer,
                       introHeading, intro, Spacer];
  }

  /** One pass of the sections loop: the heading, then the content (one "• point" paragraph
      and a spacer per point of a list), then a spacer. */
  method AppendSection(sheet: map<string, ParagraphStyle>, story: seq<Flowable>, section: (string, Content))
    returns (story': seq<Flowable>)
    requires HasReportStyles(sheet)
    ensures story' == story + SectionItems(section)
  {
    var (title, content) := section;
    story' := story + [StyledParagraph(Some(title), "SectionTitle", sheet).value];
    match content {
      case Bullets(points) =>
        for j := 0 to |points|
          invariant story' == story + [Heading(title)] + BulletItems(points[..j])
        {
          story' := story' + [StyledParagraph(Some("• " + points[j]), "Justify", sheet).value, Spacer];
          assert points[..j + 1][..j] == points[..j];
        }
        assert points[..|points|] == points;
      case Block(t) =>
        story' := story' + [StyledParagraph(Some(t), "Justify", sheet).value];
      case Null =>
        story' := story' + [StyledParagraph(None, "Justify", sheet).value];
    }
    story' := story' + [Spacer];
  }

  /** The loop over the `sections` dict's items, in order. */
  method AppendSections(sheet: map<string, ParagraphStyle>, story: seq<Flowable>, sections: seq<(string, Content)>)
    returns (story': seq<Flowable>)
    requires HasReportStyles(sheet)
    ensures story' == story + SectionsItems(sections)
  {
    story' := story;
    assert sections[0..] == sections;
    for k := 0 to |sections|
      invariant story' + SectionsItems(sections[k..]) == story + SectionsItems(sections)
    {
      SectionsItemsFrom(sections, k);
      story' := AppendSection(sheet, story', sections[k]);
    }
    assert sections[|sections|..] == [];
  }

  /** The conclusion heading and text. */
  method AppendClosing(w: Wording, sheet: map<string, ParagraphStyle>, story: seq<Flowable>)
    returns (story': seq<Flowable>)
    requires HasReportStyles(sheet)
    ensures story' == story + Closing(w)
  {
    story' := story + [StyledParagraph(Some(ConclusionTitle), "SectionTitle", sheet).value];
    story' := story' + [StyledParagraph(Some(w.conclusion), "Justify", sheet).value, Spacer];
  }

  /** The story-building part of `generate_analysis_report`: appends to `story` in order. */
  method BuildStory(w: Wording, styles: StyleSheet, caseId: string, originalFilename: string,
                    data: map<string, Content>, analysisDate: string, endTime: string, trailer: TrailerCall)
    returns (r: Result<seq<Flowable>, Exc>)
    requires HasReportStyles(styles.byName)
    ensures r == Story(w, styles.byName, caseId, originalFilename, data, analysisDate, endTime, trailer)
  {
    var sheet := styles.byName;
    var story := AppendOpening(w, sheet, [], caseId, originalFilename, analysisDate);
    assert story == Opening(w, caseId, originalFilename, analysisDate);
    story := AppendSections(sheet, story, Sections(w, data));
    story := AppendClosing(w, sheet, story);
    var last: Result<Flowable, Exc>;
    match trailer {
      case StylesArgumentMissing => last := Err(MissingStylesArgument);
      case WithStyleName(n) => last := StyledParagraph(Some(EndLine(endTime)), n, sheet);
    }
    if last.Err? {
      return Err(last.error);
    }
    r := Ok(story + [last.value]);
  }

  /** The exception `generate_analysis_report` raises for any failure inside its `try`. */
  function ReportFailure(originalFilename: string, e: Exc): Exc {
    Other("Exception", "Report generation failed for " + originalFilename + ": " + Str(e))
  }

  /** The result of `generate_analysis_report`, given how `doc.build` treats the story. */
  function Report(w: Wording, caseId: string, originalFilename: string, data: map<string, Content>,
                  analysisDate: string, endTime: string, render: seq<Flowable> -> Option<Exc>,
                  trailer: TrailerCall): (r: Result<string, Exc>)
    ensures r.Ok? ==> r.value == ReportFilePath(caseId, originalFilename)
    ensures r.Err? ==> r.error.Other? && r.error.kind == "Exception"
  {
    match Story(w, ReportSheet(), caseId, originalFilename, data, analysisDate, endTime, trailer)
    case Err(e) => Err(ReportFailure(originalFilename, e))
    case Ok(story) =>
      match render(story)
      case Some(e) => Err(ReportFailure(originalFilename, e))
      case None => Ok(ReportFilePath(caseId, originalFilename))
  }

  lemma SampleSheetLacksReportStyles()
    ensures "Justify" !in SampleSheet() && "CenterBold" !in SampleSheet()
    ensures "SectionTitle" !in SampleSheet() && "NormalLeft" !in SampleSheet()
    ensures "Normal" in SampleSheet() && SampleSheet()["Normal"] == Normal
  {
  }

  method GenerateWithTrailer(w: Wording, caseId: string, originalFilename: string, data: map<string, Content>,
                             analysisDate: string, endTime: string, render: seq<Flowable> -> Option<Exc>,
                             trailer: TrailerCall)
    returns (r: Result<string, Exc>)
    ensures r == Report(w, caseId, originalFilename, data, analysisDate, endTime, render, trailer)
  {
    var reportFilepath := ReportFilePath(caseId, originalFilename);
    var styles := new StyleSheet.Sample();
    SampleSheetLacksReportStyles();
    // None of the four names is in the sample sheet, so no `add` is refused.
    var clash := styles.Add(Justify);
    assert clash == None;
    clash := styles.Add(CenterBold);
    assert clash == None;
    clash := styles.Add(SectionTitle);
    assert clash == None;
    clash := styles.Add(NormalLeft);
    assert clash == None;
    var story := BuildStory(w, styles, caseId, originalFilename, data, analysisDate, endTime, trailer);
    if story.Err? {
      return Err(ReportFailure(originalFilename, story.error));
    }
    var built := render(story.value);
    if built.Some? {
      return Err(ReportFailure(originalFilename, built.value));
    }
    r := Ok(reportFilepath);
  }

  /** `generate_analysis_report` as written: the final line calls `create_styled_paragraph`
      with `styles['Normal']` as its second argument and no third. */
  method GenerateAnalysisReportAsWritten(caseId: string, originalFilename: string, data: map<string, Content>,
                                         analysisDate: string, endTime: string,
                                         render: seq<Flowable> -> Option<Exc>)
    returns (r: Result<string, Exc>)
    ensures r == Report(ReportWording, caseId, originalFilename, data, analysisDate, endTime, render,
                        StylesArgumentMissing)
  {
    r := GenerateWithTrailer(ReportWording, caseId, originalFilename, data, analysisDate, endTime, render,
                             StylesArgumentMissing);
  }

  /** `generate_analysis_report` with the final line styled by the name 'Normal'. */
  method GenerateAnalysisReport(caseId: string, originalFilename: string, data: map<string, Content>,
                                analysisDate: string, endTime: string, render: seq<Flowable> -> Option<Exc>)
    returns (r: Result<string, Exc>)
    ensures r == Report(ReportWording, caseId, originalFilename, data, analysisDate, endTime, render,
                        WithStyleName("Normal"))
  {
    r := GenerateWithTrailer(ReportWording, caseId, originalFilename, data, analysisDate, endTime, render,
                             WithStyleName("Normal"));
  }

  // Properties of the story and of the report's outcome.

  /** A list of points becomes one "• point" paragraph and one spacer per point, in order. */
  lemma {:induction false} BulletItemsLayout(points: seq<string>)
    ensures |BulletItems(points)| == 2 * |points|
    ensures forall i :: 0 <= i < |points| ==>
      BulletItems(points)[2 * i] == Paragraph("• " + points[i], Justify) && BulletItems(points)[2 * i + 1] == Spacer
  {
    if points != [] {
      var init := points[..|points| - 1];
      BulletItemsLayout(init);
      forall i | 0 <= i < |points|
        ensures BulletItems(points)[2 * i] == Paragraph("• " + points[i], Justify)
        ensures BulletItems(points)[2 * i + 1] == Spacer
      {
        if i < |init| {
          assert init[i] == points[i];
        }
      }
    }
  }

  lemma {:induction false} SectionsItemsAppend(a: seq<(string, Content)>, b: seq<(string, Content)>)
    ensures SectionsItems(a + b) == SectionsItems(a) + SectionsItems(b)
  {
    if a == [] {
      assert a + b == b;
    } else {
      assert (a + b)[1..] == a[1..] + b;
      SectionsItemsAppend(a[1..], b);
    }
  }

  lemma SectionsItemsSnoc(ss: seq<(string, Content)>, x: (string, Content))
    ensures SectionsItems(ss + [x]) == SectionsItems(ss) + SectionItems(x)
  {
    SectionsItemsAppend(ss, [x]);
    assert [x][1..] == [];
  }

  lemma SectionsItemsCons(x: (string, Content), rest: seq<(string, Content)>)
    ensures SectionsItems([x] + rest) == SectionItems(x) + SectionsItems(rest)
  {
    assert ([x] + rest)[1..] == rest;
  }

  lemma SectionsItemsFrom(ss: seq<(string, Content)>, k: nat)
    requires k < |ss|
    ensures SectionsItems(ss[k..]) == SectionItems(ss[k]) + SectionsItems(ss[k + 1..])
  {
    assert ss[k..] == [ss[k]] + ss[k + 1..];
    SectionsItemsCons(ss[k], ss[k + 1..]);
  }

  lemma FourSectionsItems(s0: (string, Content), s1: (string, Content), s2: (string, Content),
                          s3: (string, Content))
    ensures SectionsItems([s0, s1, s2, s3])
         == SectionItems(s0) + SectionItems(s1) + SectionItems(s2) + SectionItems(s3)
  {
    assert [s0, s1, s2, s3] == [s0] + [s1, s2, s3];
    assert [s1, s2, s3] == [s1] + [s2, s3];
    assert [s2, s3] == [s2] + [s3];
    SectionsItemsCons(s0, [s1, s2, s3]);
    SectionsItemsCons(s1, [s2, s3]);
    SectionsItemsCons(s2, [s3]);
    SectionsItemsSnoc([], s3);
  }

  /** The report's layout: opening, then the Summary, Key Arguments, Potential Inconsistencies and
      Recommendations sections in that order, then the conclusion and the final line. */
  lemma StoryLayout(w: Wording, byName: map<string, ParagraphStyle>, caseId: string, originalFilename: string,
                    data: map<string, Content>, analysisDate: string, endTime: string, trailer: TrailerCall)
    requires Story(w, byName, caseId, originalFilename, data, analysisDate, endTime, trailer).Ok?
    ensures var story := Story(w, byName, caseId, originalFilename, data, analysisDate, endTime, trailer).value;
            var ss := Sections(w, data);
            story == Opening(w, caseId, originalFilename, analysisDate)
                     + (SectionItems(ss[0]) + SectionItems(ss[1]) + SectionItems(ss[2]) + SectionItems(ss[3]))
                     + Closing(w) + [story[|story| - 1]]
  {
    FourSectionsItems((SectionTitles[0], Get(data, SectionKeys[0], w.noSummary)),
                      (SectionTitles[1], Get(data, SectionKeys[1], w.noArguments)),
                      (SectionTitles[2], Get(data, SectionKeys[2], w.noInconsistencies)),
                      (SectionTitles[3], Get(data, SectionKeys[3], w.noRecommendations)));
  }

  /** Each section is its title as a heading, its content, and a spacer. */
  lemma SectionShape(w: Wording, data: map<string, Content>, k: nat)
    requires k < 4
    ensures SectionItems(Sections(w, data)[k])
         == [Paragraph(SectionTitles[k], SectionTitle)] + ContentItems(Sections(w, data)[k].1) + [Spacer]
  {
    assert NonBlank(Some(SectionTitles[k])) == SectionTitles[k];
  }

  /** A section the analysis data lacks shows its placeholder; one whose value is `None` or ""
      shows "N/A"; a list shows its points. */
  lemma SectionContentShown(w: Wording, data: map<string, Content>, k: nat)
    requires k < 4
    ensures SectionKeys[k] !in data ==>
      ContentItems(Sections(w, data)[k].1) == [Paragraph(NonBlank(Some(Placeholder(w, k))), Justify)]
    ensures SectionKeys[k] in data && data[SectionKeys[k]] in {Null, Block("")} ==>
      ContentItems(Sections(w, data)[k].1) == [Paragraph("N/A", Justify)]
    ensures SectionKeys[k] in data && data[SectionKeys[k]].Bullets? ==>
      ContentItems(Sections(w, data)[k].1) == BulletItems(data[SectionKeys[k]].points)
  {
  }

  /** The report's placeholders and fixed texts are shown as written. */
  lemma ReportWordingIsShown()
    ensures NonBlank(Some(ReportWording.title)) == ReportWording.title
    ensures NonBlank(Some(ReportWording.conclusion)) == ReportWording.conclusion
    ensures forall k :: 0 <= k < 4 ==> NonBlank(Some(Placeholder(ReportWording, k))) == Placeholder(ReportWording, k)
  {
    assert ReportWording.title != "";
    assert ReportWording.conclusion != "";
    forall k | 0 <= k < 4
      ensures NonBlank(Some(Placeholder(ReportWording, k))) == Placeholder(ReportWording, k)
    {
      assert Placeholder(ReportWording, k) != "";
    }
  }

  /** The introduction quotes the document's name. */
  lemma IntroQuotesName(w: Wording, originalFilename: string)
    ensures NonBlank(Some(IntroText(w, originalFilename))) == IntroText(w, originalFilename)
    ensures Contains(IntroText(w, originalFilename), "'" + originalFilename + "'")
  {
    var quoted := "'" + originalFilename + "'";
    assert IntroText(w, originalFilename) == w.introBefore + quoted + w.introAfter;
    ContainsMiddle(w.introBefore, quoted, w.introAfter);
  }

  /** The report opens with its title, the metadata table and an introduction quoting the
      document's name. */
  lemma StoryOpening(w: Wording, byName: map<string, ParagraphStyle>, caseId: string, originalFilename: string,
                     data: map<string, Content>, analysisDate: string, endTime: string, trailer: TrailerCall)
    requires Story(w, byName, caseId, originalFilename, data, analysisDate, endTime, trailer).Ok?
    ensures var story := Story(w, byName, caseId, originalFilename, data, analysisDate, endTime, trailer).value;
            && |story| >= 7
            && story[0] == Paragraph(NonBlank(Some(w.title)), CenterBold)
            && story[2] == Table([["Report ID:", caseId], ["Original Document:", originalFilename],
                                  ["Analysis Date:", analysisDate]])
            && story[5] == Paragraph(IntroText(w, originalFilename), Justify)
            && Contains(story[5].text, "'" + originalFilename + "'")
  {
    IntroQuotesName(w, originalFilename);
  }

  /** The report closes with the conclusion and the "End of Report" line. */
  lemma StoryClosing(w: Wording, byName: map<string, ParagraphStyle>, caseId: string, originalFilename: string,
                     data: map<string, Content>, analysisDate: string, endTime: string, trailer: TrailerCall)
    requires Story(w, byName, caseId, originalFilename, data, analysisDate, endTime, trailer).Ok?
    ensures var story := Story(w, byName, caseId, originalFilename, data, analysisDate, endTime, trailer).value;
            && |story| >= 4
            && story[|story| - 4..|story| - 1] == Closing(w)
            && story[|story| - 1].Paragraph? && story[|story| - 1].text == EndLine(endTime)
  {
    var story := Story(w, byName, caseId, originalFilename, data, analysisDate, endTime, trailer).value;
    var front := Opening(w, caseId, originalFilename, analysisDate) + SectionsItems(Sections(w, data));
    assert story == front + Closing(w) + [story[|story| - 1]];
    assert EndLine(endTime) != [];
  }

  /** The case id shows only in the metadata table: two reports differing only in it differ only there. */
  lemma CaseIdOnlyInMetadata(w: Wording, byName: map<string, ParagraphStyle>, caseId1: string, caseId2: string,
                             originalFilename: string, data: map<string, Content>, analysisDate: string,
                             endTime: string, trailer: TrailerCall)
    ensures var r1 := Story(w, byName, caseId1, originalFilename, data, analysisDate, endTime, trailer);
            var r2 := Story(w, byName, caseId2, originalFilename, data, analysisDate, endTime, trailer);
            && r1.Ok? == r2.Ok?
            && (r1.Ok? ==> |r1.value| == |r2.value|
                           && forall i :: 0 <= i < |r1.value| && i != 2 ==> r1.value[i] == r2.value[i])
  {
  }

  /** As written, no report is ever produced: whatever the data and however rendering would go,
      generation fails with the missing-argument TypeError, wrapped. */
  lemma AsWrittenReportAlwaysFails(w: Wording, caseId: string, originalFilename: string,
                                   data: map<string, Content>, analysisDate: string, endTime: string,
                                   render: seq<Flowable> -> Option<Exc>)
    ensures Report(w, caseId, originalFilename, data, analysisDate, endTime, render, StylesArgumentMissing)
         == Err(Other("Exception", "Report generation failed for " + originalFilename + ": "
                      + "create_styled_paragraph() missing 1 required positional argument: 'styles'"))
  {
  }

  /** With the final line styled by name, the report is produced exactly when rendering accepts
      the full story, and then its path is the one derived from the case id and file name. */
  lemma ReportProducedIffRendered(w: Wording, caseId: string, originalFilename: string,
                                  data: map<string, Content>, analysisDate: string, endTime: string,
                                  render: seq<Flowable> -> Option<Exc>)
    ensures var story := Opening(w, caseId, originalFilename, analysisDate) + SectionsItems(Sections(w, data))
                         + Closing(w) + [Paragraph(EndLine(endTime), Normal)];
            var r := Report(w, caseId, originalFilename, data, analysisDate, endTime, render, WithStyleName("Normal"));
            && (r.Ok? <==> render(story) == None)
            && (r.Ok? ==> r.value == ReportFilePath(caseId, originalFilename))
            && (r.Err? ==> r.error == ReportFailure(originalFilename, render(story).value))
  {
    SampleSheetLacksReportStyles();
    assert EndLine(endTime) != [];
  }

  /** With a renderer that always succeeds, the corrected generator returns the report path. */
  lemma ReportPathWhenRendered(w: Wording, caseId: string, originalFilename: string,
                               data: map<string, Content>, analysisDate: string, endTime: string,
                               render: seq<Flowable> -> Option<Exc>)
    requires forall story :: render(story).None?
    ensures Report(w, caseId, originalFilename, data, analysisDate, endTime, render, WithStyleName("Normal"))
            == Ok(ReportFilePath(caseId, originalFilename))
  {
    ReportProducedIffRendered(w, caseId, originalFilename, data, analysisDate, endTime, render);
  }
}
