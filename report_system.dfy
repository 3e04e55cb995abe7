/** `ValuationReportSystem` of `main.py`: the three stages (query
    planning, collection, analysis) with their early error returns, the
    citations gathered for the professional formatter, the metadata of the
    result, the name of the saved file and the reformatting of its content.
    The stages' results are the given values: the plan's status, the
    collection, and the two analyst calls as functions of the collected
    text. */
module ReportSystem {
  import opened Wrappers
  import opened Text
  import opened JsonValue
  import opened Patterns
  import InformationCollector
  import FormatReport

  /** What an analyst call returns, with the keys `generate_report` reads. */
  datatype Analysis = Analysis(status: string, error: Option<string>, report: Option<string>,
                               summary: Option<string>, reportJson: Option<Json>)

  /** The metadata handed to the professional formatter. */
  datatype RunMetadata = RunMetadata(elapsed: real, queriesSuccessful: nat, queriesExecuted: nat)

  /** The metadata of a generated report; `savedFile` only when it was saved. */
  datatype Metadata = Metadata(analysisType: string, reportType: string, queriesExecuted: nat,
                               queriesSuccessful: nat, elapsed: real, timestamp: string,
                               savedFile: Option<string>)

  /** What `generate_report` returns. */
  datatype Generated =
    | Failed(error: string)
    | Generated(company: string, report: Option<string>, metadata: Metadata)

  /** What a call of `generate_report` comes to: a result, or the message of
      the exception that leaves it. */
  datatype Outcome = Returned(result: Generated) | Raised(message: string)

  /** The professional formatter's report for a company, its report JSON,
      the run metadata and the citations. */
  type Formatter = (string, Json, RunMetadata, seq<string>) -> string

  const PlanFailed := "查询规划失败"
  const CollectionFailed := "信息收集失败"
  const AnalysisFailedPrefix := "深度分析失败: "
  const UnknownError := "未知错误"

  // ---------------------------------------------------------------------
  // Citations

  /** A collected result as the citation loop reads it: whether its status
      is success, and its citations (none when the key is absent). */
  datatype Cited = Cited(success: bool, citations: seq<string>)

  /** The citations of the successful results, in order, with repeats. */
  function AllCitations(rs: seq<Cited>): (r: seq<string>)
  {
    if |rs| == 0 then []
    else AllCitations(rs[..|rs| - 1]) + (if rs[|rs| - 1].success then rs[|rs| - 1].citations else [])
  }

  /** Each value once, at its first occurrence. */
  function Dedup(xs: seq<string>): seq<string>
  {
    if |xs| == 0 then []
    else
      var d := Dedup(xs[..|xs| - 1]);
      if xs[|xs| - 1] in d then d else d + [xs[|xs| - 1]]
  }

  /** The de-duplicated list holds exactly the values of the list, each
      once. */
  lemma {:induction false} DedupMembers(xs: seq<string>)
    ensures forall x :: x in Dedup(xs) <==> x in xs
    ensures forall i, j :: 0 <= i < j < |Dedup(xs)| ==> Dedup(xs)[i] != Dedup(xs)[j]
  {
    if |xs| > 0 {
      DedupMembers(xs[..|xs| - 1]);
      assert xs == xs[..|xs| - 1] + [xs[|xs| - 1]];
    }
  }

  /** The index of the first occurrence of `x`. */
  function FirstIndex(xs: seq<string>, x: string): (k: nat)
    requires x in xs
    ensures k < |xs| && xs[k] == x && forall j :: 0 <= j < k ==> xs[j] != x
  {
    if xs[0] == x then 0 else 1 + FirstIndex(xs[1..], x)
  }

  lemma FirstIndexPrefix(xs: seq<string>, m: nat, y: string)
    requires m <= |xs| && y in xs[..m]
    ensures y in xs && FirstIndex(xs, y) == FirstIndex(xs[..m], y)
  {
    var k2 := FirstIndex(xs[..m], y);
    assert xs[k2] == y;
  }

  /** Every value of `r` occurs in `xs`, and `r` lists them in the order of
      their first occurrences there. */
  predicate InFirstOrder(xs: seq<string>, r: seq<string>) {
    (forall i :: 0 <= i < |r| ==> r[i] in xs)
    && (forall i, j :: 0 <= i < j < |r| ==> FirstIndex(xs, r[i]) < FirstIndex(xs, r[j]))
  }

  /** The de-duplicated citations keep the order of their first
      occurrences. */
  lemma {:induction false} DedupFirstOrder(xs: seq<string>)
    ensures InFirstOrder(xs, Dedup(xs))
  {
    if |xs| > 0 {
      var n := |xs| - 1;
      DedupFirstOrder(xs[..n]);
      if xs[n] in Dedup(xs[..n]) {
        OrderInPrefix(xs, n, Dedup(xs[..n]));
      } else {
        DedupMembers(xs[..n]);
        OrderAppend(xs, n, Dedup(xs[..n]));
      }
    }
  }

  lemma OrderInPrefix(xs: seq<string>, n: nat, d: seq<string>)
    requires n <= |xs| && InFirstOrder(xs[..n], d)
    ensures InFirstOrder(xs, d)
    ensures forall i :: 0 <= i < |d| ==> FirstIndex(xs, d[i]) < n
  {
    forall i | 0 <= i < |d|
      ensures d[i] in xs && FirstIndex(xs, d[i]) == FirstIndex(xs[..n], d[i]) < n
    {
      FirstIndexPrefix(xs, n, d[i]);
    }
  }

  lemma OrderAppend(xs: seq<string>, n: nat, d: seq<string>)
    requires n < |xs| && InFirstOrder(xs[..n], d) && xs[n] !in xs[..n]
    ensures InFirstOrder(xs, d + [xs[n]])
  {
    OrderInPrefix(xs, n, d);
    var e := d + [xs[n]];
    assert FirstIndex(xs, xs[n]) == n;
    forall i, j | 0 <= i < j < |e|
      ensures FirstIndex(xs, e[i]) < FirstIndex(xs, e[j])
    {
      assert e[i] == d[i];
      if j < |d| {
        assert e[j] == d[j];
      }
    }
  }

  lemma AllCitationsStep(rs: seq<Cited>, i: nat)
    requires i < |rs|
    ensures AllCitations(rs[..i + 1]) == AllCitations(rs[..i]) + (if rs[i].success then rs[i].citations else [])
  {
    assert rs[..i + 1][..i] == rs[..i];
  }

  lemma DedupStep(xs: seq<string>, x: string)
    ensures Dedup(xs + [x]) == if x in Dedup(xs) then Dedup(xs) else Dedup(xs) + [x]
  {
    assert (xs + [x])[..|xs|] == xs;
  }

  lemma DedupExtend(prior: seq<string>, cs: seq<string>, j: nat)
    requires j < |cs|
    ensures Dedup(prior + cs[..j + 1])
            == if cs[j] in Dedup(prior + cs[..j]) then Dedup(prior + cs[..j]) else Dedup(prior + cs[..j]) + [cs[j]]
  {
    assert prior + cs[..j + 1] == prior + cs[..j] + [cs[j]];
    DedupStep(prior + cs[..j], cs[j]);
  }

  /** Lines 114-119: the citations of the successful results, each added
      unless it is already in the list. */
  method CollectCitations(results: seq<Cited>) returns (all: seq<string>)
    ensures all == Dedup(AllCitations(results))
  {
    all := [];
    for i := 0 to |results|
      invariant all == Dedup(AllCitations(results[..i]))
    {
      AllCitationsStep(results, i);
      if results[i].success && results[i].citations != [] {
        all := AddCitations(all, AllCitations(results[..i]), results[i].citations);
      } else {
        var none: seq<string> := [];
        assert (if results[i].success then results[i].citations else []) == none;
        assert AllCitations(results[..i]) + none == AllCitations(results[..i]);
      }
    }
    assert results[..|results|] == results;
  }

  /** The inner loop: each citation of one result not yet listed is added. */
  method AddCitations(all: seq<string>, prior: seq<string>, cs: seq<string>) returns (r: seq<string>)
    requires all == Dedup(prior)
    ensures r == Dedup(prior + cs)
  {
    r := all;
    assert prior + cs[..0] == prior;
    for j := 0 to |cs|
      invariant r == Dedup(prior + cs[..j])
    {
      DedupExtend(prior, cs, j);
      if cs[j] !in r {
        r := r + [cs[j]];
      }
    }
    assert cs[..|cs|] == cs;
  }

  /** The collector's organised results carry no citations. */
  function CitedOf(rs: seq<InformationCollector.Organized>): (r: seq<Cited>)
    ensures |r| == |rs|
    ensures forall i :: 0 <= i < |rs| ==> r[i] == Cited(rs[i].Succeeded?, [])
  {
    if |rs| == 0 then [] else CitedOf(rs[..|rs| - 1]) + [Cited(rs[|rs| - 1].Succeeded?, [])]
  }

  /** So the citations handed on from a real collection are always none. */
  lemma {:induction false} NoCitationsFromCollector(rs: seq<InformationCollector.Organized>)
    ensures AllCitations(CitedOf(rs)) == []
  {
    if |rs| > 0 {
      NoCitationsFromCollector(rs[..|rs| - 1]);
      assert CitedOf(rs)[..|rs| - 1] == CitedOf(rs[..|rs| - 1]);
    }
  }

  // ---------------------------------------------------------------------
  // Reformatting with the professional formatter

  const CitationsKeywordError := "ProfessionalReportFormatter.format_professional_report() got an unexpected keyword argument 'citations'"

  /** Lines 122-127 as written: `format_professional_report` takes no
      `citations` parameter, so the call raises before the formatter runs. */
  function Reformat(company: string, reportJson: Json, meta: RunMetadata, citations: seq<string>): (r: Result<string>)
  {
    Err(CitationsKeywordError)
  }

  /** The call as evidently intended: the formatter receives the citations. */
  function ReformatCorrected(format: Formatter, company: string, reportJson: Json, meta: RunMetadata,
                             citations: seq<string>): (r: Result<string>)
    ensures r.Ok? && r.value == format(company, reportJson, meta, citations)
  {
    Ok(format(company, reportJson, meta, citations))
  }

  /** Whatever the report, the call as written raises. */
  lemma ReformatRaises(company: string, reportJson: Json, meta: RunMetadata, citations: seq<string>)
    ensures Reformat(company, reportJson, meta, citations) == Err(CitationsKeywordError)
  {
  }

  // ---------------------------------------------------------------------
  // The saved file

  /** `company.replace(" ", "_").replace("/", "_")`. */
  function SafeName(company: string): (r: string)
    ensures |r| == |company| && ' ' !in r && '/' !in r
    ensures forall i :: 0 <= i < |company| ==> r[i] == if company[i] == ' ' || company[i] == '/' then '_' else company[i]
  {
    if |company| == 0 then ""
    else [if company[0] == ' ' || company[0] == '/' then '_' else company[0]] + SafeName(company[1..])
  }

  /** Replacing one character by another everywhere. */
  function MapChar(s: string, a: char, b: char): (r: string)
    ensures |r| == |s|
  {
    if |s| == 0 then "" else [if s[0] == a then b else s[0]] + MapChar(s[1..], a, b)
  }

  lemma {:induction false} ReplaceOneChar(s: string, a: char, b: char)
    ensures ReplaceAll(s, [a], [b]) == MapChar(s, a, b)
    decreases |s|
  {
    if |s| > 0 {
      ReplaceOneChar(s[1..], a, b);
      assert s[..1] == [s[0]];
    }
  }

  lemma {:induction false} SafeNameMaps(company: string)
    ensures SafeName(company) == MapChar(MapChar(company, ' ', '_'), '/', '_')
    decreases |company|
  {
    if |company| > 0 {
      SafeNameMaps(company[1..]);
    }
  }

  /** The name agrees with the two `str.replace` calls. */
  lemma SafeNameReplaces(company: string)
    ensures SafeName(company) == ReplaceAll(ReplaceAll(company, " ", "_"), "/", "_")
  {
    ReplaceOneChar(company, ' ', '_');
    ReplaceOneChar(MapChar(company, ' ', '_'), '/', '_');
    SafeNameMaps(company);
  }

  /** `reports/{safe_company}_{timestamp}.md`. */
  function SavedFilename(company: string, stamp: string): string {
    "reports/" + SafeName(company) + "_" + stamp + ".md"
  }

  /** With a timestamp of digits and underscores, the file lies directly in
      `reports/`: its only `/` is the one after the directory. */
  lemma SavedFileInReports(company: string, stamp: string)
    requires '/' !in stamp
    ensures StartsWith(SavedFilename(company, stamp), "reports/")
    ensures CountChar(SavedFilename(company, stamp), '/') == 1
  {
    var rest := SafeName(company) + "_" + stamp + ".md";
    assert SavedFilename(company, stamp) == "reports/" + rest;
    assert '/' !in rest;
    InDirectory("reports/" + rest, "reports", rest);
  }

  /** A name made of a directory, a `/` and a rest without `/`. */
  lemma InDirectory(f: string, dir: string, rest: string)
    requires f == dir + "/" + rest && '/' !in dir && '/' !in rest
    ensures StartsWith(f, dir + "/") && CountChar(f, '/') == 1
  {
    assert f[..|dir| + 1] == dir + "/";
    CountCharAppend(dir + "/", rest, '/');
    CountCharAppend(dir, "/", '/');
    CountCharZero(dir, '/');
    CountCharZero(rest, '/');
  }

  // ---------------------------------------------------------------------
  // The content of the saved file

  /** `_format_report_content`: without the HTML parser the content is
      left alone; otherwise tables (from `tbody` rows only) become pipe
      tables, the tag passes run and four or more newlines become three. */
  function FormatReportContent(content: string, parserAvailable: bool, parse: string -> FormatReport.ParsedTable): (r: string)
    ensures !parserAvailable ==> r == content
    ensures parserAvailable ==> NoRun(r, '\n', 4)
  {
    if !parserAvailable then content
    else
      var s := SubPairs(content, "<table", "</table>", false,
                        Whole((h: string) => FormatReport.ConvertedTable(h, BodyOnly(parse(h)))));
      var s := FormatReport.Untagged(s);
      CollapseRunsBound(s, '\n', 4, 3, 4);
      CollapseRuns(s, '\n', 4, 3)
  }

  /** This conversion reads no rows outside `tbody`. */
  function BodyOnly(t: FormatReport.ParsedTable): FormatReport.ParsedTable {
    FormatReport.ParsedTable(t.headers, t.bodyRows, [])
  }

  /** Without a header or without a non-empty `tbody` row the table is left
      as it is, even when it has other rows. */
  lemma BodyOnlyUnchanged(html: string, t: FormatReport.ParsedTable)
    requires t.headers == [] || FormatReport.NonEmpty(t.bodyRows) == []
    ensures FormatReport.ConvertedTable(html, BodyOnly(t)) == html
  {
    assert FormatReport.DataRows(BodyOnly(t)) == FormatReport.NonEmpty(t.bodyRows);
  }

  /** Otherwise the table becomes the header line, the separator and one
      line per non-empty `tbody` row, each fitted to the header's width. */
  lemma BodyOnlyConverted(html: string, t: FormatReport.ParsedTable)
    requires t.headers != [] && FormatReport.NonEmpty(t.bodyRows) != []
    ensures FormatReport.ConvertedTable(html, BodyOnly(t))
            == "\n" + FormatReport.RowLine(t.headers) + FormatReport.SepLine(|t.headers|)
               + FormatReport.RowLines(FormatReport.NonEmpty(t.bodyRows), |t.headers|) + "\n"
  {
    assert FormatReport.DataRows(BodyOnly(t)) == FormatReport.NonEmpty(t.bodyRows);
  }

  // ---------------------------------------------------------------------
  // The stages

  /** The analyst the report type selects. */
  function Chosen(reportType: string, quick: string -> Analysis, valuation: string -> Analysis, info: string): Analysis {
    if reportType == "quick" then quick(info) else valuation(info)
  }

  function ErrorText(a: Analysis): string {
    if a.error.Some? then a.error.value else UnknownError
  }

  /** `report or summary`: an empty or missing report gives the summary. */
  function ReportOrSummary(report: Option<string>, summary: Option<string>): (r: Option<string>)
    ensures report.Some? && report.value != "" ==> r == report
    ensures report.None? || report.value == "" ==> r == summary
  {
    if report.Some? && report.value != "" then report else summary
  }

  /** A truthy `report_json` sends the report through the professional
      formatter again. */
  predicate Reformats(a: Analysis) {
    a.reportJson.Some? && Truthy(a.reportJson.value)
  }

  /** `report_content += result["report"]` in `_save_report` raises when
      neither a report nor a summary came back. */
  const NoneReportError := "can only concatenate str (not \"NoneType\") to str"

  /** `r` is the success dictionary for `report`, with the run's metadata
      and, when the report was saved, the file's name. */
  predicate GeneratedAs(r: Outcome, company: string, analysisType: string, reportType: string, saveToFile: bool,
                        collection: InformationCollector.Collection, elapsed: real, timestamp: string, stamp: string,
                        report: Option<string>)
    requires collection.Collected?
  {
    r.Returned? && r.result.Generated? && r.result.company == company && r.result.report == report
    && r.result.metadata.queriesExecuted == collection.totalQueries
    && r.result.metadata.queriesSuccessful == collection.successCount
    && r.result.metadata.analysisType == analysisType && r.result.metadata.reportType == reportType
    && r.result.metadata.timestamp == timestamp && r.result.metadata.elapsed == elapsed
    && (saveToFile <==> r.result.metadata.savedFile.Some?)
    && (saveToFile ==> r.result.metadata.savedFile.value == SavedFilename(company, stamp))
  }

  /** The reformatting call as a parameter: the call as written, or as
      corrected. */
  type Reformatter = (string, Json, RunMetadata, seq<string>) -> Result<string>

  /** `generate_report`, with the reformatting call given. Planning failure
      and collection failure return before anything else runs; an analysis
      failure carries its message with a prefix; a report JSON is reformatted
      with the de-duplicated citations of the successful results, and an
      exception of that call leaves the method; saving a report that is
      `None` raises. */
  method GenerateWith(company: string, analysisType: string, reportType: string, saveToFile: bool,
                      planStatus: string, collection: InformationCollector.Collection, show: Json -> string,
                      quick: string -> Analysis, valuation: string -> Analysis, reformat: Reformatter,
                      elapsed: real, timestamp: string, stamp: string)
    returns (r: Outcome)
    ensures planStatus != "success" ==> r == Returned(Failed(PlanFailed))
    ensures planStatus == "success" && collection.CollectError? ==> r == Returned(Failed(CollectionFailed))
    ensures planStatus == "success" && collection.Collected? ==>
              var a := Chosen(reportType, quick, valuation, InformationCollector.Formatted(collection, show));
              var meta := RunMetadata(elapsed, collection.successCount, collection.totalQueries);
              var cites := Dedup(AllCitations(CitedOf(collection.results)));
              (a.status != "success" ==> r == Returned(Failed(AnalysisFailedPrefix + ErrorText(a))))
              && (a.status == "success" && Reformats(a) && reformat(company, a.reportJson.value, meta, cites).Err? ==>
                    r == Raised(reformat(company, a.reportJson.value, meta, cites).error))
              && (a.status == "success" && !(Reformats(a) && reformat(company, a.reportJson.value, meta, cites).Err?) ==>
                    var report := ReportOrSummary(
                      if Reformats(a) then Some(reformat(company, a.reportJson.value, meta, cites).value) else a.report,
                      a.summary);
                    (saveToFile && report.None? ==> r == Raised(NoneReportError))
                    && (!(saveToFile && report.None?) ==>
                          GeneratedAs(r, company, analysisType, reportType, saveToFile, collection, elapsed,
                                      timestamp, stamp, report)))
  {
    if planStatus != "success" {
      return Returned(Failed(PlanFailed));
    }
    if collection.CollectError? {
      return Returned(Failed(CollectionFailed));
    }
    var info := InformationCollector.FormatForAnalysis(collection, show);
    var analysis;
    if reportType == "quick" {
      analysis := quick(info);
    } else {
      analysis := valuation(info);
    }
    if analysis.status != "success" {
      return Returned(Failed(AnalysisFailedPrefix + ErrorText(analysis)));
    }
    var report := analysis.report;
    if Reformats(analysis) {
      var meta := RunMetadata(elapsed, collection.successCount, collection.totalQueries);
      var citations := CollectCitations(CitedOf(collection.results));
      var reformatted := reformat(company, analysis.reportJson.value, meta, citations);
      if reformatted.Err? {
        return Raised(reformatted.error);
      }
      report := Some(reformatted.value);
    }
    report := ReportOrSummary(report, analysis.summary);
    var saved: Option<string> := None;
    if saveToFile {
      if report.None? {
        return Raised(NoneReportError);
      }
      saved := Some(SavedFilename(company, stamp));
    }
    var metadata := Metadata(analysisType, reportType, collection.totalQueries, collection.successCount,
                             elapsed, timestamp, saved);
    r := Returned(Generated(company, report, metadata));
  }

  /** `generate_report` as written: every truthy report JSON makes the
      reformatting call raise, and the exception leaves the method. */
  method GenerateReport(company: string, analysisType: string, reportType: string, saveToFile: bool,
                        planStatus: string, collection: InformationCollector.Collection, show: Json -> string,
                        quick: string -> Analysis, valuation: string -> Analysis,
                        elapsed: real, timestamp: string, stamp: string)
    returns (r: Outcome)
    ensures planStatus != "success" ==> r == Returned(Failed(PlanFailed))
    ensures planStatus == "success" && collection.CollectError? ==> r == Returned(Failed(CollectionFailed))
    ensures planStatus == "success" && collection.Collected? ==>
              var a := Chosen(reportType, quick, valuation, InformationCollector.Formatted(collection, show));
              (a.status != "success" ==> r == Returned(Failed(AnalysisFailedPrefix + ErrorText(a))))
              && (a.status == "success" && Reformats(a) ==> r == Raised(CitationsKeywordError))
              && (a.status == "success" && !Reformats(a) ==>
                    var report := ReportOrSummary(a.report, a.summary);
                    (saveToFile && report.None? ==> r == Raised(NoneReportError))
                    && (!(saveToFile && report.None?) ==>
                          GeneratedAs(r, company, analysisType, reportType, saveToFile, collection, elapsed,
                                      timestamp, stamp, report)))
  {
    r := GenerateWith(company, analysisType, reportType, saveToFile, planStatus, collection, show, quick, valuation,
                      (c, j, m, cs) => Reformat(c, j, m, cs), elapsed, timestamp, stamp);
  }

  /** `generate_report` with the reformatting call corrected: a truthy
      report JSON is replaced by the formatter's report. */
  method GenerateReportCorrected(company: string, analysisType: string, reportType: string, saveToFile: bool,
                                 planStatus: string, collection: InformationCollector.Collection, show: Json -> string,
                                 quick: string -> Analysis, valuation: string -> Analysis, format: Formatter,
                                 elapsed: real, timestamp: string, stamp: string)
    returns (r: Outcome)
    ensures planStatus != "success" ==> r == Returned(Failed(PlanFailed))
    ensures planStatus == "success" && collection.CollectError? ==> r == Returned(Failed(CollectionFailed))
    ensures planStatus == "success" && collection.Collected? ==>
              var a := Chosen(reportType, quick, valuation, InformationCollector.Formatted(collection, show));
              (a.status != "success" ==> r == Returned(Failed(AnalysisFailedPrefix + ErrorText(a))))
              && (a.status == "success" ==>
                    var report := ReportOrSummary(
                      if Reformats(a)
                      then Some(format(company, a.reportJson.value,
                                       RunMetadata(elapsed, collection.successCount, collection.totalQueries),
                                       Dedup(AllCitations(CitedOf(collection.results)))))
                      else a.report,
                      a.summary);
                    (saveToFile && report.None? ==> r == Raised(NoneReportError))
                    && (!(saveToFile && report.None?) ==>
                          GeneratedAs(r, company, analysisType, reportType, saveToFile, collection, elapsed,
                                      timestamp, stamp, report)))
  {
    r := GenerateWith(company, analysisType, reportType, saveToFile, planStatus, collection, show, quick, valuation,
                      (c, j, m, cs) => ReformatCorrected(format, c, j, m, cs), elapsed, timestamp, stamp);
  }
}
