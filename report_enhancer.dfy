/** The table repair and clean-up passes of the report enhancer: broken
    (pipe-less) table runs are rebuilt by a schema-specific rebuilder, pipe
    rows are normalised, six HTML character references are decoded, and
    Markdown tables are parsed and printed. */
module ReportEnhancer {
  import opened Wrappers
  import opened Text
  import opened PipeTable
  import opened LineScan
  import opened Seqs

  // ---------------------------------------------------------------------
  // Broken-line detection

  const ProseWords: seq<string> := [" the ", " and ", " with ", " that ", " this ", " are ", " for "]
  const TableWords: seq<string> := ["Metric", "Segment", "Ratio", "Year", "Initiative"]

  /** How many of `words` occur in the lower-cased text. */
  function WordCount(t: string, words: seq<string>): (n: nat)
    ensures n <= |words|
    decreases |words|
  {
    if |words| == 0 then 0
    else (if Contains(Lower(t), words[0]) then 1 else 0) + WordCount(t, words[1..])
  }

  /** More than 25 spaces and more than two common joining words, without a
      table word: an ordinary paragraph. */
  predicate LooksLikeProse(t: string) {
    CountChar(t, ' ') > 25 && WordCount(t, ProseWords) > 2
    && !(exists k :: 0 <= k < |TableWords| && Contains(t, TableWords[k]))
  }

  /** Length of the longest prefix whose characters satisfy `p`. */
  function RunOf(s: string, p: char -> bool): (n: nat)
    ensures n <= |s|
    decreases |s|
  {
    if |s| > 0 && p(s[0]) then 1 + RunOf(s[1..], p) else 0
  }

  predicate IsDigitOrDot(c: char) { IsDigit(c) || c == '.' }

  predicate IsScale(c: char) { c == 'B' || c == 'M' || c == 'K' }

  /** `^[A-Z][a-z]+[A-Z][\d.]+`, e.g. `MetricQ246.7`. */
  predicate WordThenCode(t: string) {
    |t| > 0 && IsUpper(t[0])
    && var n := RunOf(t[1..], IsLower);
    n >= 1 && n + 2 < |t| && IsUpper(t[n + 1]) && IsDigitOrDot(t[n + 2])
  }

  /** `\$[\d.]+[BMK]` at the start of `s`: its length, or 0. */
  function AmountAt(s: string): (n: nat)
    ensures n <= |s|
  {
    if |s| > 0 && s[0] == '$' then
      var m := RunOf(s[1..], IsDigitOrDot);
      if m >= 1 && m + 1 < |s| && IsScale(s[m + 1]) then m + 2 else 0
    else 0
  }

  /** `^[A-Z][a-z]+\$[\d.]+[BMK]\$[\d.]+[BMK]`: a label and two adjacent amounts. */
  predicate LabelThenAmounts(t: string) {
    |t| > 0 && IsUpper(t[0])
    && var n := RunOf(t[1..], IsLower);
    n >= 1
    && var a := AmountAt(t[n + 1..]);
    a > 0 && AmountAt(t[n + 1 + a..]) > 0
  }

  predicate IsRatioData(c: char) {
    IsDigitOrDot(c) || c == '–' || c == '~' || c == '<' || c == '>'
  }

  /** `^Ratio[A-Z]+[\d.–~<>]`. */
  predicate RatioThenData(t: string) {
    StartsWith(t, "Ratio")
    && var u := RunOf(t[5..], IsUpper);
    u >= 1 && 5 + u < |t| && IsRatioData(t[5 + u])
  }

  /** `^Segment[A-Z][a-z]+[\d%]`. */
  predicate SegmentThenData(t: string) {
    StartsWith(t, "Segment") && |t| > 7 && IsUpper(t[7])
    && var n := RunOf(t[8..], IsLower);
    n >= 1 && 8 + n < |t| && (IsDigit(t[8 + n]) || t[8 + n] == '%')
  }

  predicate IsMetricData(c: char) { IsDigitOrDot(c) || c == '%' }

  /** `.*[\d.%]` at the start of `s`: a data character before any newline. */
  predicate DataAhead(s: string)
    decreases |s|
  {
    |s| > 0 && s[0] != '\n' && (IsMetricData(s[0]) || DataAhead(s[1..]))
  }

  /** `.*FY\d{4}.*[\d.%]` at the start of `s`. */
  predicate YearThenData(s: string)
    decreases |s|
  {
    |s| > 0
    && ((|s| >= 6 && s[..2] == "FY" && RunOf(s[2..6], IsDigit) == 4 && DataAhead(s[6..]))
        || (s[0] != '\n' && YearThenData(s[1..])))
  }

  /** `^Metric.*FY\d{4}.*[\d.%]`. */
  predicate MetricYearData(t: string) {
    StartsWith(t, "Metric") && YearThenData(t[6..])
  }

  /** `^MetricQ\d`. */
  predicate MetricQuarter(t: string) {
    StartsWith(t, "MetricQ") && |t| > 7 && IsDigit(t[7])
  }

  /** One of the seven broken-row shapes matches at the start of the line. */
  predicate BrokenShape(t: string) {
    WordThenCode(t) || LabelThenAmounts(t) || StartsWith(t, "RatioValue") || RatioThenData(t)
    || SegmentThenData(t) || MetricYearData(t) || MetricQuarter(t)
  }

  /** `_is_broken_table_line`. */
  predicate IsBrokenTableLine(line: string) {
    var t := Strip(line);
    !(t == "" || StartsWith(t, "#") || StartsWith(t, "|") || StartsWith(t, "```"))
    && |t| >= 30
    && !LooksLikeProse(t)
    && BrokenShape(t)
  }

  /** Blank lines, headings, pipe rows, code fences and lines under 30
      characters are never broken table lines. */
  lemma NotBrokenWhenExcluded(line: string)
    requires var t := Strip(line);
             t == "" || StartsWith(t, "#") || StartsWith(t, "|") || StartsWith(t, "```") || |t| < 30
    ensures !IsBrokenTableLine(line)
  {
  }

  /** Every broken-row shape begins with a capital letter, so a line that
      starts otherwise is never a broken table line. */
  lemma ShapeStartsUpper(t: string)
    requires BrokenShape(t)
    ensures |t| > 0 && IsUpper(t[0])
  {
    if StartsWith(t, "RatioValue") {
      assert t[0] == t[..10][0];
    } else if RatioThenData(t) {
      assert t[0] == t[..5][0];
    } else if SegmentThenData(t) {
      assert t[0] == t[..7][0];
    } else if MetricYearData(t) {
      assert t[0] == t[..6][0];
    } else if MetricQuarter(t) {
      assert t[0] == t[..7][0];
    }
  }

  // ---------------------------------------------------------------------
  // Rebuilder dispatch, on the first line, case-insensitively

  /** `p1.*p2.*...`: the patterns occur in this order, without overlap. The
      leftmost occurrence of each leaves the most room for the rest. */
  predicate InOrder(s: string, ps: seq<string>)
    decreases |ps|
  {
    |ps| == 0
    || (var k := IndexOf(s, ps[0]);
        k >= 0 && InOrder(s[k + |ps[0]|..], ps[1..]))
  }

  /** `q\d` somewhere in `s`. */
  predicate QuarterAhead(s: string)
    decreases |s|
  {
    |s| > 1 && ((s[0] == 'q' && IsDigit(s[1])) || QuarterAhead(s[1..]))
  }

  /** `Metric.*FY.*YoY|Metric.*Q\d`. */
  predicate IsFinancialHeader(first: string) {
    var l := Lower(first);
    InOrder(l, ["metric", "fy", "yoy"])
    || (IndexOf(l, "metric") >= 0 && QuarterAhead(l[IndexOf(l, "metric") + 6..]))
  }

  /** `Ratio.*Value.*Industry|Ratio.*NVIDIA.*Sector|Ratio.*Interpretation`. */
  predicate IsValuationHeader(first: string) {
    var l := Lower(first);
    InOrder(l, ["ratio", "value", "industry"]) || InOrder(l, ["ratio", "nvidia", "sector"])
    || InOrder(l, ["ratio", "interpretation"])
  }

  /** `Segment.*Market.*Share|Products`. */
  predicate IsMarketShareHeader(first: string) {
    var l := Lower(first);
    InOrder(l, ["segment", "market", "share"]) || Contains(l, "products")
  }

  /** The patterns of an ordered match all occur. */
  lemma {:induction false} InOrderContains(s: string, ps: seq<string>, i: nat)
    requires InOrder(s, ps) && i < |ps|
    ensures Contains(s, ps[i])
    decreases |ps|
  {
    var k := IndexOf(s, ps[0]);
    if i == 0 {
      ContainsAt(s, ps[0], k);
    } else {
      InOrderContains(s[k + |ps[0]|..], ps[1..], i - 1);
      assert ps[1..][i - 1] == ps[i];
      ContainsInSuffix(s, ps[i], k + |ps[0]|);
    }
  }

  // ---------------------------------------------------------------------
  // What the regular expressions inside the rebuilders capture

  /** The five groups of the financial row pattern on one line. */
  datatype FinancialGroups = FinancialGroups(name: string, v1: string, v2: string, v3: string, change: string)

  /** The regular-expression searches the rebuilders run, as given results:
      `financialRow` searches one line for the row pattern, `metricValues`
      searches the joined text for a named metric (case-insensitively),
      `ratioValues` and `premiumValues` search it for a ratio given by the
      pattern text, and `shareSplit` is `re.split(..., maxsplit=1)` with the
      matched share in the middle. */
  datatype Matchers = Matchers(
    financialRow: string -> Option<FinancialGroups>,
    metricValues: (string, string) -> Option<(string, string, string)>,
    ratioValues: (string, string) -> Option<(string, string)>,
    premiumValues: (string, string) -> Option<(string, string, string)>,
    shareSplit: string -> Option<(string, string, string)>)

  function HasDigit(s: string): bool {
    exists i :: 0 <= i < |s| && IsDigit(s[i])
  }

  // ---------------------------------------------------------------------
  // Financial metrics rebuild

  const FinancialColumns: seq<string> := ["Metric", "Q2 FY2026", "Q1 FY2026", "YoY Change"]
  const Metrics: seq<string> := ["Revenue", "Net Income", "Gross Margin", "Operating Margin", "EBITDA", "EPS"]

  function DollarPrefixed(v: string): string {
    if StartsWith(v, "$") then v else "$" + v
  }

  /** The groups with surrounding whitespace removed. */
  function StripGroups(g: FinancialGroups): FinancialGroups {
    FinancialGroups(Strip(g.name), Strip(g.v1), Strip(g.v2), Strip(g.v3), Strip(g.change))
  }

  predicate GroupsPipeFree(g: FinancialGroups) {
    '|' !in g.name && '|' !in g.v1 && '|' !in g.v2 && '|' !in g.v3 && '|' !in g.change
  }

  /** The cells printed for stripped groups: the first two values get a `$`
      when the line holds `$B` or the label names revenue or income; a
      non-empty change gives a fifth cell. */
  function PricedCells(line: string, s: FinancialGroups): (cells: seq<string>)
    ensures |cells| == if s.change != "" then 5 else 4
  {
    var money := MoneyRow(line, s.name);
    var w1 := if money then DollarPrefixed(s.v1) else s.v1;
    var w2 := if money && s.v2 != "*" then DollarPrefixed(s.v2) else s.v2;
    if s.change != "" then [s.name, w1, w2, s.v3, s.change] else [s.name, w1, w2, s.v3]
  }

  /** The cells printed for one matched line. */
  function FinancialCells(line: string, g: FinancialGroups): seq<string> {
    PricedCells(line, StripGroups(g))
  }

  /** Amounts in billions, or a revenue or income label. */
  predicate MoneyRow(line: string, name: string) {
    Contains(line, "$B") || Contains(name, "Revenue") || Contains(name, "Income")
  }

  function FinancialRowLine(line: string, g: FinancialGroups): string {
    Row(FinancialCells(line, g))
  }

  /** The row for one line, when the row pattern matches it. */
  function FinancialRow(line: string, m: Matchers): seq<string> {
    match m.financialRow(line) case Some(g) => [FinancialRowLine(line, g)] case None => []
  }

  /** The rows found line by line, in order. */
  function FinancialRows(lines: seq<string>, m: Matchers): seq<string>
    decreases |lines|
  {
    if |lines| == 0 then []
    else FinancialRows(lines[..|lines| - 1], m) + FinancialRow(lines[|lines| - 1], m)
  }

  lemma FinancialRowsStep(lines: seq<string>, i: nat, m: Matchers)
    requires i < |lines|
    ensures FinancialRows(lines[..i + 1], m) == FinancialRows(lines[..i], m) + FinancialRow(lines[i], m)
  {
    PrefixStep(lines, i);
  }

  /** The row printed for a named metric found in the joined text. */
  function MetricRowLine(metric: string, a: string, b: string, c: string): string {
    var v1, v2, change := Strip(a), Strip(b), Strip(c);
    if !Contains(metric, "Margin") then
      var w1 := if HasDigit(v1) then DollarPrefixed(v1) else v1;
      var w2 := if HasDigit(v2) && !Contains(Lower(v2), "not") then DollarPrefixed(v2) else v2;
      Row([metric, w1, w2, change])
    else
      var w1 := if '%' !in v1 && HasDigit(v1) then v1 + "%" else v1;
      Row([metric, w1, v2, change])
  }

  /** The row for one metric, when the joined text names it with values. */
  function MetricRow(metric: string, fullText: string, m: Matchers): seq<string> {
    match m.metricValues(metric, fullText) case Some((a, b, c)) => [MetricRowLine(metric, a, b, c)] case None => []
  }

  /** The rows found metric by metric in the joined text, in metric order. */
  function MetricRows(metrics: seq<string>, fullText: string, m: Matchers): seq<string>
    decreases |metrics|
  {
    if |metrics| == 0 then []
    else MetricRows(metrics[..|metrics| - 1], fullText, m) + MetricRow(metrics[|metrics| - 1], fullText, m)
  }

  lemma MetricRowsStep(metrics: seq<string>, k: nat, fullText: string, m: Matchers)
    requires k < |metrics|
    ensures MetricRows(metrics[..k + 1], fullText, m)
            == MetricRows(metrics[..k], fullText, m) + MetricRow(metrics[k], fullText, m)
  {
    PrefixStep(metrics, k);
  }

  const FinancialFenceTitle := "Financial table (unable to parse):"

  /** The fixed four-column header and its separator. */
  function FinancialHeader(): (h: seq<string>)
    ensures |h| == 2
  {
    [Row(FinancialColumns), Separator(|FinancialColumns|)]
  }

  /** `_rebuild_financial_metrics_table`: the fixed header, then the rows
      matched line by line or, when there are none, metric by metric; with
      no row at all the original lines follow in a fence. */
  function FinancialRebuild(lines: seq<string>, m: Matchers): (r: seq<string>)
    ensures |r| >= 3 && r[|r| - 1] == ""
  {
    var byLine := FinancialRows(lines, m);
    var rows := if |byLine| > 0 then byLine else MetricRows(Metrics, Join(lines, " "), m);
    FinancialHeader() + rows + (if |rows| == 0 then ["```", FinancialFenceTitle] + lines + ["```"] else []) + [""]
  }

  /** The line-by-line search of `_rebuild_financial_metrics_table`. */
  method CollectFinancialRows(lines: seq<string>, m: Matchers) returns (rows: seq<string>)
    ensures rows == FinancialRows(lines, m)
  {
    rows := [];
    var i := 0;
    while i < |lines|
      invariant 0 <= i <= |lines|
      invariant rows == FinancialRows(lines[..i], m)
    {
      FinancialRowsStep(lines, i, m);
      match m.financialRow(lines[i]) {
        case Some(g) =>
          rows := rows + [FinancialRowLine(lines[i], g)];
        case None =>
      }
      i := i + 1;
    }
    assert lines[..i] == lines;
  }

  /** The metric-by-metric fallback of `_rebuild_financial_metrics_table`. */
  method CollectMetricRows(fullText: string, m: Matchers) returns (rows: seq<string>)
    ensures rows == MetricRows(Metrics, fullText, m)
  {
    rows := [];
    var k := 0;
    while k < |Metrics|
      invariant 0 <= k <= |Metrics|
      invariant rows == MetricRows(Metrics[..k], fullText, m)
    {
      MetricRowsStep(Metrics, k, fullText, m);
      match m.metricValues(Metrics[k], fullText) {
        case Some((a, b, c)) =>
          rows := rows + [MetricRowLine(Metrics[k], a, b, c)];
        case None =>
      }
      k := k + 1;
    }
    assert Metrics[..k] == Metrics;
  }

  /** `_rebuild_financial_metrics_table`, appending to `result`. */
  method RebuildFinancial(lines: seq<string>, m: Matchers) returns (result: seq<string>)
    ensures result == FinancialRebuild(lines, m)
  {
    var rows := CollectFinancialRows(lines, m);
    if |rows| == 0 {
      rows := CollectMetricRows(Join(lines, " "), m);
    }
    var fence: seq<string> := [];
    if |rows| == 0 {
      fence := ["```", FinancialFenceTitle] + lines + ["```"];
    }
    result := FinancialHeader() + rows + fence + [""];
  }

  /** With no row found, the header and separator are followed by a fence
      holding the original lines verbatim. */
  lemma FinancialUnparsed(lines: seq<string>, m: Matchers)
    requires |FinancialRows(lines, m)| == 0 && |MetricRows(Metrics, Join(lines, " "), m)| == 0
    ensures FinancialRebuild(lines, m) == FinancialHeader() + ["```", FinancialFenceTitle] + lines + ["```", ""]
  {
    FenceShape(FinancialHeader(), MetricRows(Metrics, Join(lines, " "), m), FinancialFenceTitle, lines);
  }

  lemma FenceShape(h: seq<string>, rows: seq<string>, title: string, lines: seq<string>)
    requires |rows| == 0
    ensures h + rows + (["```", title] + lines + ["```"]) + [""] == h + ["```", title] + lines + ["```", ""]
  {
    assert rows == [];
  }

  lemma DollarPipeFree(v: string)
    requires '|' !in v
    ensures '|' !in DollarPrefixed(v)
  {
  }

  lemma StripGroupsPipeFree(g: FinancialGroups)
    requires GroupsPipeFree(g)
    ensures GroupsPipeFree(StripGroups(g))
  {
    StripExcludes(g.name, '|');
    StripExcludes(g.v1, '|');
    StripExcludes(g.v2, '|');
    StripExcludes(g.v3, '|');
    StripExcludes(g.change, '|');
  }

  lemma PricedCellsPipeFree(line: string, s: FinancialGroups)
    requires GroupsPipeFree(s)
    ensures PipeFree(PricedCells(line, s))
  {
    DollarPipeFree(s.v1);
    DollarPipeFree(s.v2);
  }

  /** A line whose match captures a change is printed with five cells under
      the four-column header: the rows are one cell wider than the header. */
  lemma FinancialRowWiderThanHeader(line: string, g: FinancialGroups)
    requires Strip(g.change) != "" && GroupsPipeFree(g)
    ensures CountChar(FinancialRowLine(line, g), '|') == 6
    ensures CountChar(Row(FinancialColumns), '|') == 5
  {
    StripGroupsPipeFree(g);
    PricedCellsPipeFree(line, StripGroups(g));
    RowPipes(FinancialCells(line, g));
    ColumnsPipeFree();
    RowPipes(FinancialColumns);
  }

  lemma ColumnsPipeFree()
    ensures PipeFree(FinancialColumns)
  {
    forall k | 0 <= k < |FinancialColumns|
      ensures '|' !in FinancialColumns[k]
    {
    }
  }

  // ---------------------------------------------------------------------
  // Valuation rebuild

  /** The ratios of the interpreted layout: the printed name is the text of
      the capturing pattern, the second element the pattern searched for. */
  const InterpretedRatios: seq<(string, string)> := [
    ("(Gross\\s+Margin)", "Gross\\s+Margin"), ("(Net\\s+Margin)", "Net\\s+Margin"), ("(ROE)", "ROE"),
    ("(Operating\\s+Margin)", "Operating\\s+Margin"), ("(ROIC)", "ROIC")]
  const SectorRatios: seq<(string, string)> := [
    ("P/E (TTM)", "P/E\\s*\\(TTM\\)"), ("P/S (TTM)", "P/S\\s*\\(TTM\\)"), ("P/B", "P/B(?!\\w)"),
    ("EV/EBITDA", "EV/EBITDA"), ("Forward P/E", "Forward\\s*P/E")]
  const InterpretedColumns: seq<string> := ["Ratio", "Value", "Industry Avg.", "Interpretation"]
  const SectorColumns: seq<string> := ["Ratio", "NVIDIA", "Semiconductor Sector Avg.", "Premium/Discount"]
  const ValuationFenceTitle := "Valuation table (unable to parse):"

  /** The cells for one interpreted ratio, from the second and third groups
      of its match. The pattern has three groups, so the interpretation
      starts empty; an industry average without a digit moves into it. */
  function InterpretedCells(name: string, g2: string, g3: string): (cells: seq<string>)
    ensures |cells| == 4
  {
    var value, industry := Strip(g2), Strip(g3);
    var moved := industry != "" && !HasDigit(industry);
    var interpretation := if moved then industry + " " else "";
    [name, value, if moved then "" else industry, interpretation[..Min(60, |interpretation|)] + "..."]
  }

  function Min(a: nat, b: nat): nat { if a <= b then a else b }

  /** The rows of the interpreted layout, in ratio order. */
  function InterpretedRows(ratios: seq<(string, string)>, fullText: string, m: Matchers): seq<string>
    decreases |ratios|
  {
    if |ratios| == 0 then []
    else InterpretedRows(ratios[..|ratios| - 1], fullText, m) + InterpretedRow(ratios[|ratios| - 1], fullText, m)
  }

  /** The row for one named ratio pattern, when it matches the joined text. */
  function InterpretedRow(ratio: (string, string), fullText: string, m: Matchers): seq<string> {
    match m.ratioValues(ratio.1, fullText)
    case Some((g2, g3)) => [Row(InterpretedCells(ratio.0, g2, g3))]
    case None => []
  }

  lemma InterpretedRowsStep(ratios: seq<(string, string)>, k: nat, fullText: string, m: Matchers)
    requires k < |ratios|
    ensures InterpretedRows(ratios[..k + 1], fullText, m)
            == InterpretedRows(ratios[..k], fullText, m) + InterpretedRow(ratios[k], fullText, m)
  {
    PrefixStep(ratios, k);
  }

  /** The rows of the sector layout, in ratio order. */
  function SectorRows(ratios: seq<(string, string)>, fullText: string, m: Matchers): seq<string>
    decreases |ratios|
  {
    if |ratios| == 0 then []
    else SectorRows(ratios[..|ratios| - 1], fullText, m) + SectorRow(ratios[|ratios| - 1], fullText, m)
  }

  /** The row for one sector ratio, when its premium pattern matches. */
  function SectorRow(ratio: (string, string), fullText: string, m: Matchers): seq<string> {
    match m.premiumValues(ratio.1, fullText)
    case Some((a, b, c)) => [Row([ratio.0, a, b, c])]
    case None => []
  }

  lemma SectorRowsStep(ratios: seq<(string, string)>, k: nat, fullText: string, m: Matchers)
    requires k < |ratios|
    ensures SectorRows(ratios[..k + 1], fullText, m)
            == SectorRows(ratios[..k], fullText, m) + SectorRow(ratios[k], fullText, m)
  {
    PrefixStep(ratios, k);
  }

  /** The joined text names a value, an industry average and an interpretation. */
  predicate IsInterpretedLayout(fullText: string) {
    Contains(fullText, "Value") && Contains(fullText, "Industry") && Contains(fullText, "Interpretation")
  }

  /** `_rebuild_valuation_table`: the layout is chosen on the joined lines;
      without any row the result is only a fence around the joined lines. */
  function ValuationRebuild(lines: seq<string>, m: Matchers): (r: seq<string>)
    ensures |r| >= 3 && r[|r| - 1] == ""
  {
    var fullText := Join(lines, " ");
    var interpreted := IsInterpretedLayout(fullText);
    var rows := if interpreted then InterpretedRows(InterpretedRatios, fullText, m)
                else SectorRows(SectorRatios, fullText, m);
    var columns := if interpreted then InterpretedColumns else SectorColumns;
    if |rows| == 0 then ["```", ValuationFenceTitle, Join(lines, "\n"), "```", ""]
    else [Row(columns), Separator(|columns|)] + rows + [""]
  }

  method CollectInterpretedRows(fullText: string, m: Matchers) returns (rows: seq<string>)
    ensures rows == InterpretedRows(InterpretedRatios, fullText, m)
  {
    rows := [];
    var k := 0;
    while k < |InterpretedRatios|
      invariant 0 <= k <= |InterpretedRatios|
      invariant rows == InterpretedRows(InterpretedRatios[..k], fullText, m)
    {
      InterpretedRowsStep(InterpretedRatios, k, fullText, m);
      var (name, pattern) := InterpretedRatios[k];
      match m.ratioValues(pattern, fullText) {
        case Some((g2, g3)) =>
          rows := rows + [Row(InterpretedCells(name, g2, g3))];
        case None =>
      }
      k := k + 1;
    }
    assert InterpretedRatios[..k] == InterpretedRatios;
  }

  method CollectSectorRows(fullText: string, m: Matchers) returns (rows: seq<string>)
    ensures rows == SectorRows(SectorRatios, fullText, m)
  {
    rows := [];
    var k := 0;
    while k < |SectorRatios|
      invariant 0 <= k <= |SectorRatios|
      invariant rows == SectorRows(SectorRatios[..k], fullText, m)
    {
      SectorRowsStep(SectorRatios, k, fullText, m);
      var (name, pattern) := SectorRatios[k];
      match m.premiumValues(pattern, fullText) {
        case Some((a, b, c)) =>
          rows := rows + [Row([name, a, b, c])];
        case None =>
      }
      k := k + 1;
    }
    assert SectorRatios[..k] == SectorRatios;
  }

  /** `_rebuild_valuation_table`, appending to `result`. */
  method RebuildValuation(lines: seq<string>, m: Matchers) returns (result: seq<string>)
    ensures result == ValuationRebuild(lines, m)
  {
    var fullText := Join(lines, " ");
    var rows;
    if IsInterpretedLayout(fullText) {
      result := [Row(InterpretedColumns), Separator(|InterpretedColumns|)];
      rows := CollectInterpretedRows(fullText, m);
    } else {
      result := [Row(SectorColumns), Separator(|SectorColumns|)];
      rows := CollectSectorRows(fullText, m);
    }
    result := result + rows;
    if |result| == 2 {
      return ["```", ValuationFenceTitle, Join(lines, "\n"), "```", ""];
    }
    result := result + [""];
  }

  /** The interpreted pattern's third group starts with a capital letter and
      holds no digit, so every interpreted row has an empty industry column
      and the group, followed by a space, as its interpretation. */
  lemma InterpretedIndustryEmpty(name: string, g2: string, g3: string)
    requires |g3| > 0 && IsUpper(g3[0]) && !HasDigit(g3)
    ensures InterpretedCells(name, g2, g3)[2] == ""
    ensures var t := Strip(g3) + " ";
            InterpretedCells(name, g2, g3)[3] == t[..Min(60, |t|)] + "..."
  {
    StripId(g3[..1]);
    var i := StripSlice(g3);
    assert !IsSpace(g3[0]);
    assert Strip(g3) != [] by {
      StripNonEmpty(g3, 0);
    }
    var t := Strip(g3);
    forall j | 0 <= j < |t|
      ensures !IsDigit(t[j])
    {
      assert t[j] == g3[i + j];
    }
  }

  // ---------------------------------------------------------------------
  // Market-share rebuild

  const MarketColumns: seq<string> := ["Segment", "Market Share", "Key Products/Platforms"]

  /** The row for one line split around its first share figure, when both
      the segment and the share are non-empty. */
  function ShareRow(line: string, m: Matchers): seq<string> {
    match m.shareSplit(line)
    case Some((a, b, c)) =>
      var segment, share, products := Strip(a), Strip(b), Strip(c);
      if segment != "" && share != "" then [Row([segment, share, products])] else []
    case None => []
  }

  function MarketRows(lines: seq<string>, m: Matchers): (rows: seq<string>)
    ensures |rows| <= |lines|
    decreases |lines|
  {
    if |lines| == 0 then []
    else MarketRows(lines[..|lines| - 1], m) + ShareRow(lines[|lines| - 1], m)
  }

  /** `_rebuild_market_share_table`: the header, one row per line that
      splits, and a blank line; it never fences. */
  function MarketRebuild(lines: seq<string>, m: Matchers): (r: seq<string>)
    ensures |r| >= 3 && r[|r| - 1] == ""
  {
    [Row(MarketColumns), Separator(|MarketColumns|)] + MarketRows(lines, m) + [""]
  }

  lemma MarketRowsStep(lines: seq<string>, i: nat, m: Matchers)
    requires i < |lines|
    ensures MarketRows(lines[..i + 1], m) == MarketRows(lines[..i], m) + ShareRow(lines[i], m)
  {
    PrefixStep(lines, i);
  }

  method RebuildMarketShare(lines: seq<string>, m: Matchers) returns (result: seq<string>)
    ensures result == MarketRebuild(lines, m)
  {
    var rows: seq<string> := [];
    var i := 0;
    while i < |lines|
      invariant 0 <= i <= |lines|
      invariant rows == MarketRows(lines[..i], m)
    {
      MarketRowsStep(lines, i, m);
      rows := rows + ShareRow(lines[i], m);
      i := i + 1;
    }
    assert lines[..i] == lines;
    result := [Row(MarketColumns), Separator(|MarketColumns|)] + rows + [""];
  }

  // ---------------------------------------------------------------------
  // Generic rebuild

  const GenericFenceTitle := "Table data (unable to parse):"

  /** Number of matches of `[A-Z][a-z]+`: each starts at a capital letter
      followed by a lower-case one. */
  function CapitalWords(s: string): (n: nat)
    ensures n <= |s|
    decreases |s|
  {
    if |s| < 2 then 0
    else (if IsUpper(s[0]) && IsLower(s[1]) then 1 else 0) + CapitalWords(s[1..])
  }

  /** `_rebuild_generic_table`: with fewer than two capitalised words on the
      first line the joined lines come back as they are, otherwise fenced. */
  function GenericRebuild(lines: seq<string>): (r: seq<string>)
    requires |lines| > 0
    ensures Join(lines, "\n") in r
    ensures |r| >= 2 && r[|r| - 1] == ""
  {
    if CapitalWords(lines[0]) < 2 then [Join(lines, "\n"), ""]
    else ["```", GenericFenceTitle, Join(lines, "\n"), "```", ""]
  }

  // ---------------------------------------------------------------------
  // Dispatch

  /** `_rebuild_table`: the first rebuilder whose first-line pattern matches. */
  function Rebuilt(lines: seq<string>, m: Matchers): (r: seq<string>)
    ensures |lines| > 0 <==> |r| > 0
    ensures |lines| > 0 ==> |r| >= 2 && r[|r| - 1] == ""
  {
    if |lines| == 0 then []
    else if IsFinancialHeader(lines[0]) then FinancialRebuild(lines, m)
    else if IsValuationHeader(lines[0]) then ValuationRebuild(lines, m)
    else if IsMarketShareHeader(lines[0]) then MarketRebuild(lines, m)
    else GenericRebuild(lines)
  }

  /** `_rebuild_table`, calling the rebuilders. */
  method RebuildTable(lines: seq<string>, m: Matchers) returns (r: seq<string>)
    ensures r == Rebuilt(lines, m)
  {
    if |lines| == 0 {
      return [];
    }
    var first := lines[0];
    if IsFinancialHeader(first) {
      r := RebuildFinancial(lines, m);
    } else if IsValuationHeader(first) {
      r := RebuildValuation(lines, m);
    } else if IsMarketShareHeader(first) {
      r := RebuildMarketShare(lines, m);
    } else {
      r := GenericRebuild(lines);
    }
  }

  // ---------------------------------------------------------------------
  // Pipe-row normalisation

  /** Index of the first empty cell, or -1: what `cells.index('')` finds. */
  function FirstEmpty(cells: seq<string>): (k: int)
    ensures -1 <= k < |cells|
    ensures k >= 0 ==> cells[k] == "" && forall j :: 0 <= j < k ==> cells[j] != ""
    ensures k == -1 ==> forall j :: 0 <= j < |cells| ==> cells[j] != ""
    decreases |cells|
  {
    if |cells| == 0 then -1
    else if cells[0] == "" then 0
    else var k := FirstEmpty(cells[1..]); if k < 0 then -1 else k + 1
  }

  /** The filter `c or cells.index(c) == 0 or cells.index(c) == len(cells)-1`:
      every empty cell has the index of the first one, so either all empty
      cells stay or all go. */
  function KeptCells(cells: seq<string>): seq<string> {
    var k := FirstEmpty(cells);
    if k == 0 || k == |cells| - 1 then cells else NonEmpty(cells)
  }

  /** `c == '' or c.strip() == ''`. */
  predicate Blank(c: string) {
    c == "" || Strip(c) == ""
  }

  function DropFirstBlank(cells: seq<string>): seq<string> {
    if |cells| > 0 && Blank(cells[0]) then cells[1..] else cells
  }

  function DropLastBlank(cells: seq<string>): seq<string> {
    if |cells| > 0 && Blank(cells[|cells| - 1]) then cells[..|cells| - 1] else cells
  }

  /** One leading and one trailing blank cell are dropped. */
  function TrimEnds(cells: seq<string>): seq<string> {
    DropLastBlank(DropFirstBlank(cells))
  }

  /** `_fix_table_row`: the row printed again with single-space padding, or
      the line itself when no cell is left. */
  function FixTableRow(line: string): string {
    var cells := TrimEnds(KeptCells(SplitCells(line)));
    if |cells| == 0 then line else Row(cells)
  }

  /** Stripped cells without `|`: what reading a row yields. */
  predicate TidyCells(cells: seq<string>) {
    PipeFree(cells) && forall k :: 0 <= k < |cells| ==> Stripped(cells[k])
  }

  /** A row printed from tidy cells is left as it is. */
  lemma FixTableRowOfRow(cells: seq<string>)
    requires |cells| >= 1 && TidyCells(cells)
    ensures FixTableRow(Row(cells)) == Row(cells)
  {
    SplitCellsOfRow(cells);
    KeptFramed(cells);
    TrimEndsFramed(cells);
  }

  lemma KeptFramed(cells: seq<string>)
    ensures KeptCells([""] + cells + [""]) == [""] + cells + [""]
  {
    var all := [""] + cells + [""];
    assert all[0] == "";
    assert FirstEmpty(all) == 0;
  }

  lemma TrimEndsFramed(cells: seq<string>)
    ensures TrimEnds([""] + cells + [""]) == cells
  {
    var all := [""] + cells + [""];
    assert all[0] == "";
    var a := all[1..];
    assert DropFirstBlank(all) == a;
    assert a == cells + [""];
    assert a[|a| - 1] == "";
    assert a[..|a| - 1] == cells;
  }

  /** `_fix_table_row` is idempotent. */
  lemma FixTableRowIdempotent(line: string)
    ensures FixTableRow(FixTableRow(line)) == FixTableRow(line)
  {
    var split := SplitCells(line);
    var cells := TrimEnds(KeptCells(split));
    if |cells| > 0 {
      SplitCellsPipeFree(line);
      SplitCellsStripped(line);
      assert TidyCells(split);
      KeptTidy(split);
      TrimEndsTidy(KeptCells(split));
      FixTableRowOfRow(cells);
    }
  }

  lemma KeptTidy(cells: seq<string>)
    requires TidyCells(cells)
    ensures TidyCells(KeptCells(cells))
  {
    var k := FirstEmpty(cells);
    if !(k == 0 || k == |cells| - 1) {
      NonEmptyTidy(cells);
    }
  }

  lemma {:induction false} NonEmptyTidy(cells: seq<string>)
    requires TidyCells(cells)
    ensures TidyCells(NonEmpty(cells))
    decreases |cells|
  {
    if |cells| > 0 {
      NonEmptyTidy(cells[1..]);
    }
  }

  /** Any slice of tidy cells is tidy. */
  lemma TidySlice(cells: seq<string>, i: int, j: int)
    requires 0 <= i <= j <= |cells| && TidyCells(cells)
    ensures TidyCells(cells[i..j])
  {
    forall k | 0 <= k < j - i
      ensures Stripped(cells[i..j][k]) && '|' !in cells[i..j][k]
    {
      assert cells[i..j][k] == cells[i + k];
    }
  }

  lemma TrimEndsTidy(cells: seq<string>)
    requires TidyCells(cells)
    ensures TidyCells(TrimEnds(cells))
  {
    var a := DropFirstBlank(cells);
    if |cells| > 0 && Blank(cells[0]) {
      TidySlice(cells, 1, |cells|);
    }
    if |a| > 0 && Blank(a[|a| - 1]) {
      TidySlice(a, 0, |a| - 1);
    }
  }

  // ---------------------------------------------------------------------
  // The table pass over the whole report

  /** The rebuilder as a block rewrite. */
  function RebuildWith(m: Matchers): seq<string> -> seq<string> {
    lines => Rebuilt(lines, m)
  }

  /** A line whose stripped text starts with `|`. */
  predicate IsPipeLine(line: string) {
    '|' in line && StartsWith(Strip(line), "|")
  }

  /** What happens to a line outside a broken run. */
  function FixIfPipeRow(line: string): string {
    if IsPipeLine(line) then FixTableRow(line) else line
  }

  function BrokenTest(): string -> bool {
    line => IsBrokenTableLine(line)
  }

  /** The output lines of `_fix_all_tables`. */
  function RepairLines(lines: seq<string>, m: Matchers): seq<string> {
    ScanLines(lines, BrokenTest(), RebuildWith(m), FixIfPipeRow)
  }

  method RepairStep(lines: seq<string>, i: nat, m: Matchers) returns (chunk: seq<string>, j: nat)
    requires i < |lines|
    ensures i < j <= |lines|
    ensures RepairLines(lines[i..], m) == chunk + RepairLines(lines[j..], m)
  {
    var isBroken := BrokenTest();
    if isBroken(lines[i]) {
      j := RunEnd(lines, i, isBroken);
      ScanRun(lines, i, j, isBroken, RebuildWith(m), FixIfPipeRow);
      chunk := RebuildTable(lines[i..j], m);
    } else {
      ScanOther(lines, i, isBroken, RebuildWith(m), FixIfPipeRow);
      var line := lines[i];
      if IsPipeLine(line) {
        line := FixTableRow(line);
      }
      chunk := [line];
      j := i + 1;
    }
  }

  /** `_fix_all_tables`: split into lines, repair them, join them again. */
  method FixAllTables(content: string, m: Matchers) returns (out: string)
    ensures out == Join(RepairLines(Split(content, '\n'), m), "\n")
  {
    var fixed := RepairEachLine(Split(content, '\n'), m);
    out := Join(fixed, "\n");
  }

  /** The line loop of `_fix_all_tables`, walking the lines with an index. */
  method RepairEachLine(lines: seq<string>, m: Matchers) returns (fixed: seq<string>)
    ensures fixed == RepairLines(lines, m)
  {
    fixed := [];
    var i := 0;
    assert lines[0..] == lines;
    while i < |lines|
      invariant 0 <= i <= |lines|
      invariant fixed + RepairLines(lines[i..], m) == RepairLines(lines, m)
    {
      var chunk, j := RepairStep(lines, i, m);
      AppendAssoc(fixed, chunk, RepairLines(lines[j..], m));
      fixed := fixed + chunk;
      i := j;
    }
    RepairLinesEnd(lines, m);
    EmptyTail(fixed);
  }

  lemma RepairLinesEnd(lines: seq<string>, m: Matchers)
    ensures RepairLines(lines[|lines|..], m) == []
  {
    EmptyTail(lines);
  }

  /** A line that is neither broken nor a pipe row is copied unchanged, at
      its place, and separates the repair before it from the repair after. */
  lemma PlainLineUnchanged(a: seq<string>, line: string, b: seq<string>, m: Matchers)
    requires !IsBrokenTableLine(line) && !IsPipeLine(line)
    ensures RepairLines(a + [line] + b, m) == RepairLines(a, m) + [line] + RepairLines(b, m)
  {
    ScanKeepsPlainLine(a, line, b, BrokenTest(), RebuildWith(m), FixIfPipeRow);
  }

  /** A broken run followed by a line that is not broken is replaced by the
      rebuilt block of exactly that run. */
  lemma BrokenRunRebuilt(run: seq<string>, rest: seq<string>, m: Matchers)
    requires |run| > 0 && forall k :: 0 <= k < |run| ==> IsBrokenTableLine(run[k])
    requires |rest| > 0 ==> !IsBrokenTableLine(rest[0])
    ensures RepairLines(run + rest, m) == Rebuilt(run, m) + RepairLines(rest, m)
  {
    var lines := run + rest;
    ScanRun(lines, 0, |run|, BrokenTest(), RebuildWith(m), FixIfPipeRow);
    assert lines[0..] == lines;
    assert lines[0..|run|] == run;
    assert lines[|run|..] == rest;
  }
}
