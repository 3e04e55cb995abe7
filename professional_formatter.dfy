/** `ProfessionalReportFormatter` of `agents/professional_formatter.py`: the
    four report sections are laid out under fixed headings, every Markdown
    table block gets a numbered caption from a per-section counter kept on
    the instance, and the executive summary reads a recommendation and a
    target price off the valuation text. The clock-dependent parts of the
    cover page (the timestamp, the report id and the formatted duration) are
    parameters. */
module ProfessionalFormatter {
  import opened Wrappers
  import opened Text
  import opened Patterns
  import opened Seqs

  // ---------------------------------------------------------------------
  // Table blocks: `\|[^\n]+\|(?:\n\|[^\n]+\|)+`

  /** The last `|` of `line` at index 2 or later, or -1. */
  function LastBar(line: string): (j: int)
    ensures j == -1 || (2 <= j < |line| && line[j] == '|')
    decreases |line|
  {
    if |line| <= 2 then -1
    else if line[|line| - 1] == '|' then |line| - 1
    else LastBar(line[..|line| - 1])
  }

  /** `\|[^\n]+\|` at the start of `s`: the greedy middle ends at the last
      `|` of the line that leaves it non-empty. The length matched. */
  function RowAt(s: string): (r: Option<nat>)
    ensures r.Some? ==> 3 <= r.value <= LineLen(s) && s[0] == '|' && s[r.value - 1] == '|'
  {
    if |s| > 0 && s[0] == '|' then
      var j := LastBar(s[..LineLen(s)]);
      if j < 0 then None else Some(j + 1)
    else None
  }

  /** `(?:\n\|[^\n]+\|)*` at the start of `s`, greedy: a row can only be
      followed by another when it ends at its line's end. */
  function MoreRows(s: string): (n: nat)
    ensures n <= |s|
    decreases |s|
  {
    if |s| > 0 && s[0] == '\n' && RowAt(s[1..]).Some? then
      var m := RowAt(s[1..]).value;
      1 + m + (if m == LineLen(s[1..]) then MoreRows(s[1 + m..]) else 0)
    else 0
  }

  /** The table block that starts `s`, if any: a first row that fills its
      line, then at least one more row. Its length. */
  function BlockAt(s: string): (r: Option<nat>)
    ensures r.Some? ==> 0 < r.value <= |s|
  {
    var first := RowAt(s);
    if first.Some? && first.value == LineLen(s) && MoreRows(s[first.value..]) > 0 then
      Some(first.value + MoreRows(s[first.value..]))
    else None
  }

  /** `re.sub` over the blocks of `s`, scanning left to right: before each
      block goes `caption(k)`, where `k` counts on from `n`. */
  function Numbered(s: string, caption: nat -> string, n: nat): string
    decreases |s|
  {
    if |s| == 0 then ""
    else
      match BlockAt(s)
      case Some(k) => caption(n + 1) + s[..k] + Numbered(s[k..], caption, n + 1)
      case None => [s[0]] + Numbered(s[1..], caption, n)
  }

  /** The number of blocks the scan finds. */
  function BlockCount(s: string): nat
    decreases |s|
  {
    if |s| == 0 then 0
    else
      match BlockAt(s)
      case Some(k) => 1 + BlockCount(s[k..])
      case None => BlockCount(s[1..])
  }

  /** The caption's subject, chosen once from the whole section text. */
  function TableTitle(content: string): (t: string)
    ensures Contains(Lower(content), "financial") ==> t == "Financial Metrics"
    ensures !Contains(Lower(content), "financial") && Contains(Lower(content), "revenue") ==> t == "Revenue Analysis"
    ensures (!Contains(Lower(content), "financial") && !Contains(Lower(content), "revenue")
             && Contains(Lower(content), "valuation")) ==> t == "Valuation Metrics"
    ensures (!Contains(Lower(content), "financial") && !Contains(Lower(content), "revenue")
             && !Contains(Lower(content), "valuation")) ==> t == "Key Data Points"
  {
    var lower := Lower(content);
    if Contains(lower, "financial") then "Financial Metrics"
    else if Contains(lower, "revenue") then "Revenue Analysis"
    else if Contains(lower, "valuation") then "Valuation Metrics"
    else "Key Data Points"
  }

  function CaptionText(section: string, k: nat, title: string): string {
    "\n**Table " + section + "." + NatToString(k) + "**: " + title + "\n\n"
  }

  function Captions(section: string, title: string): nat -> string {
    (k: nat) => CaptionText(section, k, title)
  }

  // ---------------------------------------------------------------------
  // _clean_html_content

  /** h2 and h3 become `####` and `#####` lines, paragraphs are unwrapped,
      all other tags go, and four or more newlines become three. */
  function CleanHtmlContent(content: string): (r: string)
    ensures NoRun(r, '\n', 4)
  {
    CleanAfterH2(SubPairs(content, "<h2", "</h2>", false, Wrap("#### ", "\n", false)))
  }

  /** The passes of the cleaning after the h2 one. */
  function CleanAfterH2(s: string): (r: string)
    ensures NoRun(r, '\n', 4)
  {
    var s := SubPairs(s, "<h3", "</h3>", false, Wrap("##### ", "\n", false));
    var s := SubPairs(s, "<p", "</p>", false, Wrap("", "\n\n", false));
    var s := StripTags(s);
    CollapseRunsBound(s, '\n', 4, 3, 4);
    CollapseRuns(s, '\n', 4, 3)
  }

  // ---------------------------------------------------------------------
  // Sections

  function SectionHead(num: string, titleEn: string, titleCn: string): string {
    "\n---\n\n## " + num + ". " + titleEn + " (" + titleCn + ")\n\n"
  }

  function Heading(num: string, i: nat, sub: string): string {
    "### " + num + "." + NatToString(i) + " " + sub + "\n\n"
  }

  /** The subsection headings, numbered from 1 in the given order. */
  function Headings(num: string, subs: seq<string>): string {
    if |subs| == 0 then "" else Headings(num, subs[..|subs| - 1]) + Heading(num, |subs|, subs[|subs| - 1])
  }

  /** What `_format_section` returns when the section's counter stands at `n`. */
  function SectionText(num: string, titleEn: string, titleCn: string, content: string, subs: seq<string>, n: nat): string {
    SectionHead(num, titleEn, titleCn) + Headings(num, subs)
    + CleanHtmlContent(Numbered(content, Captions(num, TableTitle(content)), n)) + "\n\n"
  }

  // ---------------------------------------------------------------------
  // Executive summary

  /** BUY when the valuation mentions buying, else SELL when it mentions
      selling, else HOLD; letters are compared in lower case. */
  function Recommendation(valuation: string): (r: string)
    ensures r == "BUY" <==> Contains(Lower(valuation), "buy")
    ensures r == "SELL" <==> !Contains(Lower(valuation), "buy") && Contains(Lower(valuation), "sell")
    ensures r == "HOLD" <==> !Contains(Lower(valuation), "buy") && !Contains(Lower(valuation), "sell")
  {
    var lower := Lower(valuation);
    BuyInStrongBuy(lower);
    if Contains(lower, "buy") || Contains(lower, "strong buy") then "BUY"
    else if Contains(lower, "sell") then "SELL"
    else "HOLD"
  }

  /** "strong buy" contains "buy", so the second test never decides. */
  lemma BuyInStrongBuy(s: string)
    ensures Contains(s, "strong buy") ==> Contains(s, "buy")
  {
    if Contains(s, "strong buy") {
      var i := ContainsWitness(s, "strong buy");
      assert s[i + 7..i + 10] == "buy";
      ContainsAt(s, "buy", i + 7);
    }
  }

  function Stars(recommendation: string): (r: string)
    ensures |r| == (if recommendation == "BUY" then 4 else 3)
  {
    if recommendation == "BUY" then "⭐⭐⭐⭐" else "⭐⭐⭐"
  }

  /** `\s*(?:target|price)`, ignoring case, at the start of `s`. */
  predicate KeywordAt(s: string) {
    var w := SpaceRun(s);
    StartsWithCase(s[w..], "target", true) || StartsWithCase(s[w..], "price", true)
  }

  /** The digits of the first match of `\$?(\d+)\s*(?:target|price)`. A
      match can only start a digit run and take all of it, because no digit
      can be followed by the space or the keyword. */
  function TargetDigits(s: string): (r: Option<string>)
    ensures r.Some? ==> |r.value| > 0 && AllDigits(r.value)
    decreases |s|
  {
    if |s| == 0 then None
    else if IsDigit(s[0]) then
      var n := DigitRun(s);
      if KeywordAt(s[n..]) then Some(s[..n]) else TargetDigits(s[n..])
    else TargetDigits(s[1..])
  }

  function TargetPrice(valuation: string): (r: string)
    ensures r == "TBD" || (|r| > 1 && r[0] == '$' && AllDigits(r[1..]))
  {
    match TargetDigits(valuation)
    case Some(d) => "$" + d
    case None => "TBD"
  }

  /** `_generate_executive_summary`; `dataPoints` is the metadata's
      `queries_successful`. */
  function ExecutiveSummary(valuation: string, dataPoints: nat, body: string): string {
    var rec := Recommendation(valuation);
    "## Executive Summary\n\n**Investment Recommendation**: **" + rec + "** " + Stars(rec)
    + "  \n**Target Price**: " + TargetPrice(valuation)
    + "  \n**Risk Level**: Medium  \n**Report Confidence**: High (based on " + NatToString(dataPoints)
    + " verified data points)\n\n" + body
  }

  // ---------------------------------------------------------------------
  // Fixed parts of the report

  /** `_generate_cover_page`; the timestamp, the report id stamp and the
      duration (formatted to one decimal) come from the clock. */
  function CoverPage(company: string, timestamp: string, stamp: string, duration: string, dataPoints: nat, tail: string): string {
    "# " + company + "\n\n## Professional Equity Analysis Report\n\n**Report Generated**: " + timestamp
    + "  \n**Analysis Type**: Comprehensive Fundamental Valuation  \n**Report ID**: RPT-" + stamp
    + "  \n**Analysis Duration**: " + duration + " seconds  \n**Data Points Analyzed**: " + NatToString(dataPoints)
    + " real-time queries  \n\n---\n\n" + tail
  }

  /** The arguments of one `_format_section` call: the section number, its
      English and Chinese titles, the report key it reads and its
      subsection headings. */
  datatype SectionSpec = SectionSpec(num: string, titleEn: string, titleCn: string, key: string, subs: seq<string>)

  const Section1: SectionSpec := SectionSpec("1", "Fundamental Analysis", "基本面分析", "fundamentalAnalysis",
    ["1.1 Company Overview", "1.2 Key Financial Metrics", "1.3 Latest Performance"])
  const Section2: SectionSpec := SectionSpec("2", "Business Segments Analysis", "业务板块分析", "businessSegments",
    ["2.1 Revenue Breakdown", "2.2 Segment Performance", "2.3 Market Position"])
  const Section3: SectionSpec := SectionSpec("3", "Growth Catalysts and Strategic Initiatives", "增长催化剂与战略举措", "growthCatalysts",
    ["3.1 Growth Drivers", "3.2 Strategic Initiatives", "3.3 Market Opportunities"])
  const Section4: SectionSpec := SectionSpec("4", "Valuation Analysis and Investment Recommendation", "估值分析与投资建议", "valuationAnalysis",
    ["4.1 DCF Analysis", "4.2 Comparable Companies", "4.3 Price Target"])

  /** `report_json.get(key, "")`. */
  function Field(report: map<string, string>, key: string): string {
    if key in report then report[key] else ""
  }

  /** The report around its four sections, closed by the data sources and
      the disclaimer. */
  function Assembled(cover: string, summary: string, s1: string, s2: string, s3: string, s4: string,
                     sources: string, disclaimer: string): string {
    cover + summary + "\n---\n\n" + s1 + s2 + s3 + s4 + sources + disclaimer
  }

  /** The fixed prose of a report. */
  datatype Prose = Prose(coverTail: string, summaryBody: string, sources: string, disclaimer: string)

  /** What the section of `spec` reads when its counter stands at `n`. */
  function SpecText(spec: SectionSpec, report: map<string, string>, n: nat): string {
    SectionText(spec.num, spec.titleEn, spec.titleCn, Field(report, spec.key), spec.subs, n)
  }

  /** The four sections when the counters stand at `c1`..`c4`, laid into
      the report with `prose`. */
  function ReportText(cover: string, report: map<string, string>, dataPoints: nat, c1: nat, c2: nat, c3: nat, c4: nat,
                      prose: Prose): string {
    Assembled(cover, ExecutiveSummary(Field(report, "valuationAnalysis"), dataPoints, prose.summaryBody),
      SpecText(Section1, report, c1), SpecText(Section2, report, c2), SpecText(Section3, report, c3), SpecText(Section4, report, c4),
      prose.sources, prose.disclaimer)
  }

  // ---------------------------------------------------------------------
  // The formatter and its table counters

  class Formatter {
    /** Tables numbered so far, per section "1".."4"; kept across reports. */
    var tableCounter: map<string, nat>

    /** The fixed prose the report methods return; it never changes. */
    const prose: Prose

    constructor(prose: Prose)
      ensures tableCounter == map["1" := 0, "2" := 0, "3" := 0, "4" := 0]
      ensures this.prose == prose
    {
      tableCounter := map["1" := 0, "2" := 0, "3" := 0, "4" := 0];
      this.prose := prose;
    }

    /** `_add_table_numbers`: each block is captioned with the next number
        of its section, and the counter moves on by one per block. The
        caption's subject is read off the whole content. */
    method AddTableNumbers(content: string, section: string) returns (r: string)
      requires section in tableCounter
      modifies this
      ensures r == Numbered(content, Captions(section, TableTitle(content)), old(tableCounter[section]))
      ensures tableCounter.Keys == old(tableCounter).Keys
      ensures tableCounter[section] == old(tableCounter[section]) + BlockCount(content)
      ensures forall key :: key in tableCounter && key != section ==> tableCounter[key] == old(tableCounter)[key]
    {
      var title := TableTitle(content);
      r := NumberBlocks(content, section, title);
    }

    /** The `re.sub` scan of `_add_table_numbers`, with the caption subject
        already chosen. */
    method NumberBlocks(content: string, section: string, title: string) returns (r: string)
      requires section in tableCounter
      modifies this
      ensures r == Numbered(content, Captions(section, title), old(tableCounter[section]))
      ensures tableCounter.Keys == old(tableCounter).Keys
      ensures tableCounter[section] == old(tableCounter[section]) + BlockCount(content)
      ensures forall key :: key in tableCounter && key != section ==> tableCounter[key] == old(tableCounter)[key]
    {
      ghost var caption := Captions(section, title);
      ghost var n0 := tableCounter[section];
      r := "";
      var rest := content;
      while |rest| > 0
        invariant tableCounter.Keys == old(tableCounter).Keys
        invariant forall key :: key in tableCounter && key != section ==> tableCounter[key] == old(tableCounter)[key]
        invariant r + Numbered(rest, caption, tableCounter[section]) == Numbered(content, caption, n0)
        invariant tableCounter[section] + BlockCount(rest) == n0 + BlockCount(content)
        decreases |rest|
      {
        ghost var n := tableCounter[section];
        var block := BlockAt(rest);
        if block.Some? {
          var k := block.value;
          BlockStep(r, rest, caption, n, Numbered(content, caption, n0));
          tableCounter := tableCounter[section := tableCounter[section] + 1];
          var c := CaptionText(section, tableCounter[section], title);
          assert c == caption(n + 1);
          r := r + (c + rest[..k]);
          rest := rest[k..];
        } else {
          CharStep(r, rest, caption, n, Numbered(content, caption, n0));
          r := r + [rest[0]];
          rest := rest[1..];
        }
      }
      assert BlockCount(rest) == 0 && Numbered(rest, caption, tableCounter[section]) == "";
      assert r + "" == r;
      assert tableCounter[section] == n0 + BlockCount(content);
    }

    /** `_format_section`: the heading, the numbered subsection headings,
        then the content with its tables captioned and its HTML cleaned. */
    method FormatSection(num: string, titleEn: string, titleCn: string, content: string, subs: seq<string>)
      returns (section: string, ghost start: nat)
      requires num in tableCounter
      modifies this
      ensures start == old(tableCounter[num])
      ensures section == SectionText(num, titleEn, titleCn, content, subs, start)
      ensures tableCounter.Keys == old(tableCounter).Keys
      ensures tableCounter[num] == start + BlockCount(content)
      ensures forall key :: key in tableCounter && key != num ==> tableCounter[key] == old(tableCounter)[key]
    {
      start := tableCounter[num];
      section := SectionHead(num, titleEn, titleCn);
      for i := 0 to |subs|
        invariant section == SectionHead(num, titleEn, titleCn) + Headings(num, subs[..i])
      {
        assert subs[..i + 1][..i] == subs[..i];
        section := section + Heading(num, i + 1, subs[i]);
      }
      assert subs[..|subs|] == subs;
      var numbered := AddTableNumbers(content, num);
      section := section + CleanHtmlContent(numbered) + "\n\n";
    }

    /** The four `_format_section` calls of `format_professional_report`,
        in order; each section's counter moves on by its own tables. */
    method FormatSections(report: map<string, string>, a: SectionSpec, b: SectionSpec, c: SectionSpec, d: SectionSpec)
      returns (s1: string, s2: string, s3: string, s4: string)
      requires a.num in tableCounter && b.num in tableCounter && c.num in tableCounter && d.num in tableCounter
      requires a.num != b.num && a.num != c.num && a.num != d.num && b.num != c.num && b.num != d.num && c.num != d.num
      modifies this
      ensures tableCounter.Keys == old(tableCounter).Keys
      ensures s1 == SpecText(a, report, old(tableCounter[a.num]))
      ensures s2 == SpecText(b, report, old(tableCounter[b.num]))
      ensures s3 == SpecText(c, report, old(tableCounter[c.num]))
      ensures s4 == SpecText(d, report, old(tableCounter[d.num]))
      ensures tableCounter[a.num] == old(tableCounter[a.num]) + BlockCount(Field(report, a.key))
      ensures tableCounter[b.num] == old(tableCounter[b.num]) + BlockCount(Field(report, b.key))
      ensures tableCounter[c.num] == old(tableCounter[c.num]) + BlockCount(Field(report, c.key))
      ensures tableCounter[d.num] == old(tableCounter[d.num]) + BlockCount(Field(report, d.key))
    {
      ghost var n1, n2, n3, n4;
      s1, n1 := FormatSection(a.num, a.titleEn, a.titleCn, Field(report, a.key), a.subs);
      s2, n2 := FormatSection(b.num, b.titleEn, b.titleCn, Field(report, b.key), b.subs);
      s3, n3 := FormatSection(c.num, c.titleEn, c.titleCn, Field(report, c.key), c.subs);
      s4, n4 := FormatSection(d.num, d.titleEn, d.titleCn, Field(report, d.key), d.subs);
    }

    /** `format_professional_report`: the cover, the summary, the four
        sections in order and the closing parts; each section's counter
        moves on by the number of tables in that section. */
    method FormatProfessionalReport(company: string, report: map<string, string>, timestamp: string, stamp: string,
                                    duration: string, dataPoints: nat) returns (r: string)
      requires Section1.num in tableCounter && Section2.num in tableCounter && Section3.num in tableCounter && Section4.num in tableCounter
      modifies this
      ensures tableCounter.Keys == old(tableCounter).Keys
      ensures r == ReportText(CoverPage(company, timestamp, stamp, duration, dataPoints, prose.coverTail), report, dataPoints,
                              old(tableCounter[Section1.num]), old(tableCounter[Section2.num]), old(tableCounter[Section3.num]), old(tableCounter[Section4.num]), prose)
      ensures tableCounter[Section1.num] == old(tableCounter[Section1.num]) + BlockCount(Field(report, Section1.key))
      ensures tableCounter[Section2.num] == old(tableCounter[Section2.num]) + BlockCount(Field(report, Section2.key))
      ensures tableCounter[Section3.num] == old(tableCounter[Section3.num]) + BlockCount(Field(report, Section3.key))
      ensures tableCounter[Section4.num] == old(tableCounter[Section4.num]) + BlockCount(Field(report, Section4.key))
    {
      var cover := CoverPage(company, timestamp, stamp, duration, dataPoints, prose.coverTail);
      var summary := ExecutiveSummary(Field(report, "valuationAnalysis"), dataPoints, prose.summaryBody);
      var s1, s2, s3, s4 := FormatSections(report, Section1, Section2, Section3, Section4);
      r := Assembled(cover, summary, s1, s2, s3, s4, prose.sources, prose.disclaimer);
    }
  }

  /** The scan past a block, as the loop of `NumberBlocks` takes it. */
  lemma BlockStep(r: string, rest: string, caption: nat -> string, n: nat, total: string)
    requires |rest| > 0 && BlockAt(rest).Some?
    requires r + Numbered(rest, caption, n) == total
    ensures (r + (caption(n + 1) + rest[..BlockAt(rest).value])) + Numbered(rest[BlockAt(rest).value..], caption, n + 1) == total
    ensures BlockCount(rest) == 1 + BlockCount(rest[BlockAt(rest).value..])
  {
    var k := BlockAt(rest).value;
    assert Numbered(rest, caption, n) == (caption(n + 1) + rest[..k]) + Numbered(rest[k..], caption, n + 1);
    AppendAssoc(r, caption(n + 1) + rest[..k], Numbered(rest[k..], caption, n + 1));
  }

  /** The scan past one character outside any block. */
  lemma CharStep(r: string, rest: string, caption: nat -> string, n: nat, total: string)
    requires |rest| > 0 && BlockAt(rest).None?
    requires r + Numbered(rest, caption, n) == total
    ensures (r + [rest[0]]) + Numbered(rest[1..], caption, n) == total
    ensures BlockCount(rest) == BlockCount(rest[1..])
  {
    assert Numbered(rest, caption, n) == [rest[0]] + Numbered(rest[1..], caption, n);
    AppendAssoc(r, [rest[0]], Numbered(rest[1..], caption, n));
  }

  // ---------------------------------------------------------------------
  // Properties

  /** The caption that adds nothing. */
  function NoCaption(k: nat): string {
    ""
  }

  /** Only captions are added: with empty captions the scan gives the
      content back, so every block and all text around it stay verbatim. */
  lemma {:induction false} OnlyCaptionsAdded(s: string, n: nat)
    ensures Numbered(s, NoCaption, n) == s
    decreases |s|, 1
  {
    if |s| > 0 {
      if BlockAt(s).Some? {
        BlockKept(s, n);
      } else {
        CharKept(s, n);
      }
    }
  }

  lemma {:induction false} BlockKept(s: string, n: nat)
    requires |s| > 0 && BlockAt(s).Some?
    ensures Numbered(s, NoCaption, n) == s
    decreases |s|, 0
  {
    var k := BlockAt(s).value;
    assert Numbered(s, NoCaption, n) == (NoCaption(n + 1) + s[..k]) + Numbered(s[k..], NoCaption, n + 1);
    OnlyCaptionsAdded(s[k..], n + 1);
    Rejoin(s, k, n + 1);
  }

  lemma Rejoin(s: string, k: nat, m: nat)
    requires k <= |s|
    ensures (NoCaption(m) + s[..k]) + s[k..] == s
  {
    assert NoCaption(m) + s[..k] == s[..k];
    assert s[..k] + s[k..] == s;
  }

  lemma {:induction false} CharKept(s: string, n: nat)
    requires |s| > 0 && BlockAt(s).None?
    ensures Numbered(s, NoCaption, n) == s
    decreases |s|, 0
  {
    assert Numbered(s, NoCaption, n) == [s[0]] + Numbered(s[1..], NoCaption, n);
    OnlyCaptionsAdded(s[1..], n);
    assert [s[0]] + s[1..] == s;
  }

  /** Content without a table block is left as it is. */
  lemma {:induction false} NoBlockUnchanged(s: string, caption: nat -> string, n: nat)
    requires BlockCount(s) == 0
    ensures Numbered(s, caption, n) == s
    decreases |s|
  {
    if |s| > 0 {
      match BlockAt(s)
      case Some(k) =>
        assert false;
      case None =>
        NoBlockUnchanged(s[1..], caption, n);
        assert [s[0]] + s[1..] == s;
    }
  }

  /** A block takes two lines, so text on one line has none. */
  lemma {:induction false} OneLineNoBlock(s: string)
    requires '\n' !in s
    ensures BlockCount(s) == 0
    decreases |s|
  {
    if |s| > 0 {
      var first := RowAt(s);
      if first.Some? && first.value == LineLen(s) {
        assert s[first.value..] == [] by {
          LineLenPrefix(s, []);
          assert s + [] == s;
        }
      }
      assert '\n' !in s[1..];
      OneLineNoBlock(s[1..]);
    }
  }

  /** A line `|a|` is a whole row when it ends at a newline or at the end. */
  lemma BarRow(a: string, rest: string)
    requires |a| > 0 && '\n' !in a && (|rest| == 0 || rest[0] == '\n')
    ensures LineLen(("|" + a + "|") + rest) == |a| + 2
    ensures RowAt(("|" + a + "|") + rest) == Some(|a| + 2)
  {
    var row := "|" + a + "|";
    assert '\n' !in row;
    LineLenPrefix(row, rest);
    assert (row + rest)[..|row|] == row;
    assert row[|row| - 1] == '|';
    assert LastBar(row) == |row| - 1;
  }

  /** A first line with no newline of its own, ended by a newline or by
      the end of the text, is that whole line. */
  lemma {:induction false} LineLenPrefix(x: string, rest: string)
    requires '\n' !in x && (|rest| == 0 || rest[0] == '\n')
    ensures LineLen(x + rest) == |x|
    decreases |x|
  {
    if |x| == 0 {
      assert x + rest == rest;
    } else {
      assert (x + rest)[0] == x[0];
      assert (x + rest)[1..] == x[1..] + rest;
      assert '\n' !in x[1..];
      LineLenPrefix(x[1..], rest);
    }
  }

  /** Two rows `|a|` and `|b|` on consecutive lines are one block. */
  lemma TwoRowBlock(a: string, b: string)
    requires |a| > 0 && |b| > 0 && '\n' !in a && '\n' !in b
    ensures var t := "|" + a + "|\n|" + b + "|";
            BlockAt(t) == Some(|t|)
  {
    var row1 := "|" + a + "|";
    var row2 := "|" + b + "|";
    var tail := "\n" + row2;
    var t := row1 + tail;
    assert t == "|" + a + "|\n|" + b + "|";
    BarRow(a, tail);
    BarRow(b, []);
    assert row2 + [] == row2;
    assert t[|row1|..] == tail;
    assert tail[1..] == row2;
    assert row2[|row2|..] == [];
    assert MoreRows(tail) == 1 + |row2|;
  }

  /** Two rows `|a|` and `|b|` make one block: it gets the caption
      numbered one past the counter and the counter moves on by one. */
  lemma TwoRowTable(a: string, b: string, caption: nat -> string, n: nat)
    requires |a| > 0 && |b| > 0 && '\n' !in a && '\n' !in b
    ensures var t := "|" + a + "|\n|" + b + "|";
            Numbered(t, caption, n) == caption(n + 1) + t && BlockCount(t) == 1
  {
    var t := "|" + a + "|\n|" + b + "|";
    TwoRowBlock(a, b);
    assert Numbered(t, caption, n) == (caption(n + 1) + t[..|t|]) + Numbered(t[|t|..], caption, n + 1);
    assert t[|t|..] == [];
    assert t[..|t|] == t;
  }

  /** Plain text, without tags and without four newlines in a row, passes
      the cleaning unchanged. */
  lemma CleanPlainText(s: string)
    requires '<' !in s && NoRun(s, '\n', 4)
    ensures CleanHtmlContent(s) == s
  {
    NoLtNoOpen(s, "<h2");
    SubPairsAbsent(s, "<h2", "</h2>", false, Wrap("#### ", "\n", false));
    PlainAfterH2(s);
  }

  lemma PlainAfterH2(s: string)
    requires '<' !in s && NoRun(s, '\n', 4)
    ensures CleanAfterH2(s) == s
  {
    NoLtNoOpen(s, "<h3");
    SubPairsAbsent(s, "<h3", "</h3>", false, Wrap("##### ", "\n", false));
    NoLtNoOpen(s, "<p");
    SubPairsAbsent(s, "<p", "</p>", false, Wrap("", "\n\n", false));
    StripTagsId(s);
    CollapseRunsId(s, '\n', 4, 3);
  }

  /** An h2 element becomes a `####` heading line. */
  lemma CleanH2(x: string)
    requires '<' !in x && '\n' !in x
    ensures CleanHtmlContent("<h2>" + x + "</h2>") == "#### " + x + "\n"
  {
    var s := "<h2" + ("" + ">" + (x + "</h2>"));
    assert s == "<h2>" + x + "</h2>";
    H2Element(s, x);
    H2Plain("#### " + x + "\n", x);
  }

  lemma H2Element(s: string, x: string)
    requires '<' !in x && s == "<h2" + ("" + ">" + (x + "</h2>"))
    ensures SubPairs(s, "<h2", "</h2>", false, Wrap("#### ", "\n", false)) == "#### " + x + "\n"
  {
    assert StartsWithCase(s, "<h2", false) by {
      assert s[..3] == "<h2";
    }
    SubPairsElement("<h2", "", x, "</h2>", false, Wrap("#### ", "\n", false));
  }

  lemma H2Plain(h: string, x: string)
    requires '<' !in x && '\n' !in x && h == "#### " + x + "\n"
    ensures CleanAfterH2(h) == h
  {
    assert '<' !in h;
    assert h[..|h| - 1] == "#### " + x;
    NoRunLast(h, '\n', 4);
    PlainAfterH2(h);
  }

  /** The three subsection headings come out in the order given, numbered
      1 to 3 under the section's number. */
  lemma ThreeHeadings(num: string, a: string, b: string, c: string)
    ensures Headings(num, [a, b, c]) == Heading(num, 1, a) + Heading(num, 2, b) + Heading(num, 3, c)
  {
    assert [a][..0] == [];
    assert Headings(num, [a]) == Heading(num, 1, a);
    assert [a, b][..1] == [a];
    assert Headings(num, [a, b]) == Heading(num, 1, a) + Heading(num, 2, b);
    assert [a, b, c][..2] == [a, b];
  }

  /** A number written before "price" or "target" becomes the target. */
  lemma TargetOfPhrase(x: string, d: string, y: string)
    requires forall i :: 0 <= i < |x| ==> !IsDigit(x[i])
    requires |d| > 0 && AllDigits(d)
    ensures TargetPrice(x + d + " price" + y) == "$" + d
  {
    var s := x + d + " price" + y;
    SkipNonDigits(x, d + " price" + y);
    assert s == x + (d + " price" + y);
    var t := d + " price" + y;
    DigitRunOf(d, " price" + y);
    assert t == d + (" price" + y);
    assert t[|d|..] == " price" + y;
    var u := " price" + y;
    assert SpaceRun(u) == 1 by {
      assert IsSpace(u[0]) && !IsSpace(u[1]);
      assert SpaceRun(u[1..]) == 0;
    }
    assert u[1..][..5] == "price";
    assert StartsWithCase(u[1..], "price", true);
    assert t[..|d|] == d;
  }

  lemma {:induction false} SkipNonDigits(x: string, rest: string)
    requires forall i :: 0 <= i < |x| ==> !IsDigit(x[i])
    ensures TargetDigits(x + rest) == TargetDigits(rest)
    decreases |x|
  {
    if |x| > 0 {
      assert (x + rest)[0] == x[0] && !IsDigit(x[0]);
      assert TargetDigits(x + rest) == TargetDigits((x + rest)[1..]);
      assert (x + rest)[1..] == x[1..] + rest;
      assert forall i :: 0 <= i < |x[1..]| ==> !IsDigit(x[1..][i]);
      SkipNonDigits(x[1..], rest);
    } else {
      assert x + rest == rest;
    }
  }

  lemma {:induction false} DigitRunOf(d: string, rest: string)
    requires AllDigits(d) && (|rest| == 0 || !IsDigit(rest[0]))
    ensures DigitRun(d + rest) == |d|
    decreases |d|
  {
    if |d| > 0 {
      assert (d + rest)[1..] == d[1..] + rest;
      assert IsDigit(d[0]);
      DigitRunOf(d[1..], rest);
    } else {
      assert d + rest == rest;
    }
  }

  /** Without any digit there is no target: the summary says TBD. */
  lemma {:induction false} NoDigitNoTarget(s: string)
    requires forall i :: 0 <= i < |s| ==> !IsDigit(s[i])
    ensures TargetPrice(s) == "TBD"
  {
    SkipNonDigits(s, "");
    assert s + "" == s;
  }

  /** BUY earns four stars, SELL and HOLD three. */
  lemma StarsFollowRecommendation(valuation: string)
    ensures |Stars(Recommendation(valuation))| == 4 <==> Contains(Lower(valuation), "buy")
  {
  }
}
