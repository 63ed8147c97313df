/**
 * Export of stored analyses: the fixed plain-text rendering of one report,
 * its Markdown and plain-text attachments, and the archive of a project's
 * whole history with one Markdown entry per analysis.
 *
 * `slugify`, `str(datetime)` and `strftime('%Y-%m-%d_%H-%M')` are not
 * modelled; they are supplied as functions. The archive is the sequence of
 * its (filename, content) entries; compression is not modelled.
 */
module ExportViews {
  import opened Text
  import opened Records

  /** The formatting helpers the export relies on. */
  datatype Formatters = Formatters(
    slugify: string -> string,
    dateText: Timestamp -> string,
    fileStamp: Timestamp -> string)

  const ReportTitle := "Security Analysis Report"
  const TestingPlanHeading := "\n\nSecurity Testing Plan\n---------------------\n"

  /** The pieces joined end to end. */
  function Concat(parts: seq<string>): string {
    if parts == [] then [] else parts[0] + Concat(parts[1..])
  }

  lemma {:induction false} ConcatAppend(p: seq<string>, q: seq<string>)
    ensures Concat(p + q) == Concat(p) + Concat(q)
  {
    if p == [] {
      assert p + q == q;
    } else {
      assert (p + q)[0] == p[0] && (p + q)[1..] == p[1..] + q;
      ConcatAppend(p[1..], q);
    }
  }

  /** The report's first lines: title, project name, date, and the score with its category. */
  function PreambleParts(a: Analysis, fmt: Formatters): seq<string> {
    [ReportTitle + "\n========================\n\nProject: ", a.project.name,
     "\nDate: ", fmt.dateText(a.createdAt),
     "\nSecurity Score: ", IntToDecimal(a.securityScore), " (", a.riskCategory, ")\n"]
  }

  /**
   * The stored sections under their literal headings, in the order
   * architecture, threat model, SDLC recommendations, cost estimation,
   * closing with the heading of the testing plan.
   */
  function SectionParts(a: Analysis): seq<string> {
    ["\nSystem Architecture\n-------------------\n", a.architecture,
     "\n\nThreat Model\n------------\n", a.threatModel,
     "\n\nSecure SDLC Recommendations\n---------------------------\n", a.sdlsRecommendations,
     "\n\nCost Estimation\n---------------\n", a.costEstimation,
     TestingPlanHeading]
  }

  /** The report template from its title up to the line before the testing plan. */
  function ReportHead(a: Analysis, fmt: Formatters): string {
    Concat(PreambleParts(a, fmt) + SectionParts(a))
  }

  /**
   * The head opens with the preamble, so with the title's 'S', and closes
   * with the rule under the testing plan's heading and a newline.
   */
  lemma HeadShape(a: Analysis, fmt: Formatters)
    ensures |ReportHead(a, fmt)| >= 2 && ReportHead(a, fmt)[0] == 'S'
    ensures ReportHead(a, fmt)[|ReportHead(a, fmt)| - 1] == '\n'
    ensures ReportHead(a, fmt)[|ReportHead(a, fmt)| - 2] == '-'
    ensures StartsWith(ReportHead(a, fmt)[..|ReportHead(a, fmt)| - 1], Concat(PreambleParts(a, fmt)))
  {
    var pre := PreambleParts(a, fmt);
    var sec := SectionParts(a);
    var head := ReportHead(a, fmt);
    ConcatAppend(pre, sec);
    assert Concat(pre) == pre[0] + Concat(pre[1..]);
    assert sec == sec[..8] + [TestingPlanHeading];
    ConcatAppend(sec[..8], [TestingPlanHeading]);
    assert Concat([TestingPlanHeading]) == TestingPlanHeading + Concat([]);
    var body := Concat(pre) + Concat(sec[..8]);
    assert head == body + TestingPlanHeading;
    assert head[..|head| - 1] == Concat(pre) + (Concat(sec[..8]) + TestingPlanHeading[..|TestingPlanHeading| - 1]);
    StartsWithAppend(Concat(pre), Concat(sec[..8]) + TestingPlanHeading[..|TestingPlanHeading| - 1]);
  }

  /**
   * A template that opens with a newline, then a head starting with a
   * non-space character and ending in "-\n", then a last field and a
   * newline, stripped of surrounding whitespace: only the leading newline and
   * the whitespace after the field go, and when the field is blank the
   * head's final newline goes too.
   */
  function StripTemplate(head: string, field: string): (r: string)
    requires |head| >= 2 && !IsSpace(head[0]) && head[|head| - 1] == '\n' && head[|head| - 2] == '-'
    ensures RStrip(field) != [] ==> r == head + RStrip(field)
    ensures RStrip(field) == [] ==> r == head[..|head| - 1]
  {
    var template := "\n" + head + field + "\n";
    assert template[1..] == head + (field + "\n");
    assert LStrip(template) == head + (field + "\n");
    assert RStrip(field + "\n") == RStrip(field) by {
      assert (field + "\n")[..|field|] == field;
    }
    RStripAppend(head, field + "\n");
    assert RStrip(head) == RStrip(head[..|head| - 1]) == head[..|head| - 1];
    Strip(template)
  }

  /**
   * `build_export_content`: the report template stripped of surrounding
   * whitespace. Every field stays verbatim except the testing plan, which
   * loses its trailing whitespace; when the testing plan is blank, the
   * newline after its heading's rule goes too.
   */
  function BuildExportContent(a: Analysis, fmt: Formatters): (r: string)
    ensures RStrip(a.testingPlan) != [] ==> r == ReportHead(a, fmt) + RStrip(a.testingPlan)
    ensures RStrip(a.testingPlan) == [] ==>
              |ReportHead(a, fmt)| >= 1 && r == ReportHead(a, fmt)[..|ReportHead(a, fmt)| - 1]
  {
    HeadShape(a, fmt);
    StripTemplate(ReportHead(a, fmt), a.testingPlan)
  }

  /** The export opens with the preamble, and so with the report title. */
  lemma ExportLayout(a: Analysis, fmt: Formatters)
    ensures StartsWith(BuildExportContent(a, fmt), Concat(PreambleParts(a, fmt)))
    ensures StartsWith(BuildExportContent(a, fmt), ReportTitle)
  {
    HeadShape(a, fmt);
    var content := BuildExportContent(a, fmt);
    var pre := PreambleParts(a, fmt);
    var title := Concat(pre);
    assert title == pre[0] + Concat(pre[1..]);
    assert title[..|ReportTitle|] == ReportTitle;
    assert content[..|title|] == title;
    assert content[..|ReportTitle|] == title[..|ReportTitle|];
  }

  /**
   * The preamble ends with the score line "Security Score: <score> (<category>)",
   * right after the project and date lines.
   */
  lemma PreambleEndsWithScoreLine(a: Analysis, fmt: Formatters)
    ensures Concat(PreambleParts(a, fmt)) ==
              Concat(PreambleParts(a, fmt)[..4])
              + "\nSecurity Score: " + IntToDecimal(a.securityScore) + " (" + a.riskCategory + ")\n"
  {
    var pre := PreambleParts(a, fmt);
    assert pre == pre[..4] + pre[4..];
    ConcatAppend(pre[..4], pre[4..]);
    var tail := pre[4..];
    assert Concat(tail[4..]) == tail[4] + Concat([]) by { assert tail[4..][1..] == []; }
    assert Concat(tail[3..]) == tail[3] + Concat(tail[4..]) by { assert tail[3..][1..] == tail[4..]; }
    assert Concat(tail[2..]) == tail[2] + Concat(tail[3..]) by { assert tail[2..][1..] == tail[3..]; }
    assert Concat(tail[1..]) == tail[1] + Concat(tail[2..]) by { assert tail[1..][1..] == tail[2..]; }
  }

  // ---------------------------------------------------------------------
  // Single-report attachments
  // ---------------------------------------------------------------------

  /** An HTTP response carrying a file: its body, content type and attachment filename. */
  datatype Attachment = Attachment(content: string, contentType: string, filename: string)

  /** `export_analysis_md` once the analysis has been found. */
  function ExportAnalysisMd(a: Analysis, analysisId: int, fmt: Formatters): Attachment {
    Attachment(BuildExportContent(a, fmt), "text/markdown", "analysis_" + IntToDecimal(analysisId) + ".md")
  }

  /** `export_analysis_txt` once the analysis has been found. */
  function ExportAnalysisTxt(a: Analysis, analysisId: int, fmt: Formatters): Attachment {
    Attachment(BuildExportContent(a, fmt), "text/plain", "analysis_" + IntToDecimal(analysisId) + ".txt")
  }

  /** The two single-report exports carry the same text and differ only in content type and file extension. */
  lemma MarkdownAndTextExportsAgree(a: Analysis, analysisId: int, fmt: Formatters)
    ensures ExportAnalysisMd(a, analysisId, fmt).content == ExportAnalysisTxt(a, analysisId, fmt).content
    ensures ExportAnalysisMd(a, analysisId, fmt).contentType != ExportAnalysisTxt(a, analysisId, fmt).contentType
    ensures var md := ExportAnalysisMd(a, analysisId, fmt).filename;
            var txt := ExportAnalysisTxt(a, analysisId, fmt).filename;
            md == "analysis_" + IntToDecimal(analysisId) + ".md"
            && txt == "analysis_" + IntToDecimal(analysisId) + ".txt"
  {
  }

  // ---------------------------------------------------------------------
  // History archive
  // ---------------------------------------------------------------------

  /** One named entry of the archive. */
  datatype ZipEntry = ZipEntry(filename: string, content: string)

  /** The response of the history export: a message when there is nothing to export, else the named archive. */
  datatype HistoryExport = NothingToExport(message: string) | Archive(filename: string, entries: seq<ZipEntry>)

  const NoAnalysesMessage := "No analyses available to export."

  /** The archive entry for one analysis: the slugified project name, the creation minute, ".md". */
  function HistoryEntry(project: Project, a: Analysis, fmt: Formatters): ZipEntry {
    ZipEntry(fmt.slugify(project.name) + "_" + fmt.fileStamp(a.createdAt) + ".md", BuildExportContent(a, fmt))
  }

  /**
   * `export_analysis_history_zip` once the project has been found, given
   * its analyses in the order of the creation-time query: the message when
   * there are none, otherwise one entry per analysis in that same order.
   */
  method ExportAnalysisHistoryZip(project: Project, analyses: seq<Analysis>, fmt: Formatters)
    returns (r: HistoryExport)
    ensures analyses == [] <==> r == NothingToExport(NoAnalysesMessage)
    ensures analyses != [] ==> r.Archive?
    ensures r.Archive? ==> r.filename == fmt.slugify(project.name) + "_analysis_history.zip"
    ensures r.Archive? ==> |r.entries| == |analyses|
    ensures r.Archive? ==> forall i :: 0 <= i < |analyses| ==> r.entries[i] == HistoryEntry(project, analyses[i], fmt)
  {
    if analyses == [] {
      return NothingToExport(NoAnalysesMessage);
    }

    var entries: seq<ZipEntry> := [];
    var i := 0;
    while i < |analyses|
      invariant 0 <= i <= |analyses|
      invariant |entries| == i
      invariant forall j :: 0 <= j < i ==> entries[j] == HistoryEntry(project, analyses[j], fmt)
    {
      var analysis := analyses[i];
      var filename := fmt.slugify(project.name) + "_" + fmt.fileStamp(analysis.createdAt) + ".md";
      var content := BuildExportContent(analysis, fmt);
      entries := entries + [ZipEntry(filename, content)];
      i := i + 1;
    }

    r := Archive(fmt.slugify(project.name) + "_analysis_history.zip", entries);
  }

  /** Every archive entry is a full report: it opens with the report title. */
  lemma HistoryEntriesAreReports(project: Project, analyses: seq<Analysis>, fmt: Formatters, i: nat)
    requires i < |analyses|
    ensures StartsWith(HistoryEntry(project, analyses[i], fmt).content, ReportTitle)
    ensures StartsWith(HistoryEntry(project, analyses[i], fmt).content, Concat(PreambleParts(analyses[i], fmt)))
  {
    ExportLayout(analyses[i], fmt);
  }
}
