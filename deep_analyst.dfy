/** The post-response half of `DeepAnalystAgent.generate_valuation_report`
    in `agents/deep_analyst.py`: the model's answer is cut down to a JSON
    object, checked for the four required sections, cleaned by the word
    fixer, normalised by the format enhancer, checked for table minimums and
    assembled into Markdown.

    `json.loads` is a parameter: the value it produced for the extracted
    candidate, or `None` for a decode error. */
module DeepAnalyst {
  import opened Wrappers
  import opened Text
  import opened JsonValue
  import WordFixer
  import FormatEnhancer

  /** What `generate_valuation_report` returns: `status "success"` with or
      without `report_json`, or `status "error"`. */
  datatype Outcome =
    | Success(company: string, report: string, reportJson: Option<map<string, Json>>, reportType: string)
    | Failure(error: string, company: string)

  const RequiredKeys: seq<string> := FormatEnhancer.SectionKeys
  const InsightsKey := "aiInsights"

  /** `{` and `}`, the characters the brace rule cuts at. */
  const LeftBrace: char := '\U{7B}'
  const RightBrace: char := '\U{7D}'

  // ---------------------------------------------------------------------
  // Cutting the answer down to a JSON candidate

  /** Python `s.rfind(c)`: the last index of `c`, or -1. */
  function LastIndexOfChar(s: string, c: char): (k: int)
    ensures -1 <= k < |s|
    ensures k >= 0 ==> s[k] == c
    ensures forall j :: k < j < |s| ==> s[j] != c
    decreases |s|
  {
    if |s| == 0 then -1
    else if s[|s| - 1] == c then |s| - 1
    else LastIndexOfChar(s[..|s| - 1], c)
  }

  /** The fence rule: the text after the first ```` ```json ```` up to the
      next ```` ``` ````; else the text between the first two ```` ``` ````;
      else the text itself. */
  function FenceStripped(s: string): string {
    if Contains(s, "```json") then Strip(Between(s, "```json", "```"))
    else if Contains(s, "```") then Strip(Between(s, "```", "```"))
    else s
  }

  /** From the first `open` to the last `close` inclusive, when both
      occur. A last `close` before the first `open` gives Python's empty
      slice. */
  function Sliced(s: string, open: char, close: char): (r: string)
    ensures |r| <= |s|
  {
    var a := IndexOf(s, [open]);
    var b := LastIndexOfChar(s, close);
    if a != -1 && b != -1 then (if a <= b + 1 then s[a..b + 1] else "")
    else s
  }

  /** The brace rule: from the first `{` to the last `}`. */
  function BraceSliced(s: string): (r: string)
    ensures |r| <= |s|
  {
    Sliced(s, LeftBrace, RightBrace)
  }

  /** The JSON candidate cut out of the model's answer. */
  function Candidate(response: string): string {
    BraceSliced(FenceStripped(Strip(response)))
  }

  // ---------------------------------------------------------------------
  // Cleaning every string value

  /** One value of `cleaned_json`: strings go through `fix_all_issues`. */
  function CleanValue(v: Json): Json {
    if v.JStr? then JStr(WordFixer.AllIssuesFixed(v.s)) else v
  }

  function Cleaned(fields: map<string, Json>): map<string, Json> {
    map k | k in fields :: CleanValue(fields[k])
  }

  /** The loop that builds `cleaned_json`, one key at a time. */
  method CleanFields(fields: map<string, Json>) returns (cleaned: map<string, Json>)
    ensures cleaned == Cleaned(fields)
  {
    cleaned := map[];
    var remaining := fields.Keys;
    while remaining != {}
      invariant remaining <= fields.Keys
      invariant cleaned.Keys == fields.Keys - remaining
      invariant forall k :: k in cleaned ==> cleaned[k] == CleanValue(fields[k])
      decreases remaining
    {
      var k :| k in remaining;
      var v := fields[k];
      if v.JStr? {
        var fixed := WordFixer.FixAllIssues(v.s);
        cleaned := cleaned[k := JStr(fixed)];
      } else {
        cleaned := cleaned[k := v];
      }
      remaining := remaining - {k};
    }
  }

  // ---------------------------------------------------------------------
  // Table minimums and assembly

  /** `sections_to_validate`: three tables per section, and two for the
      insights section when the answer had one. */
  function TableMinimums(hasInsights: bool): (r: seq<(string, nat)>)
  {
    [(RequiredKeys[0], 3), (RequiredKeys[1], 3), (RequiredKeys[2], 3), (RequiredKeys[3], 3)]
    + (if hasInsights then [(InsightsKey, 2)] else [])
  }

  const TypeErrorText := "expected string or bytes-like object"

  /** The first exception the table checks raise, if any: a missing key is a
      `KeyError`, a value that is not text a `TypeError` in `re.findall`. */
  function TableCheckError(enhanced: map<string, Json>, mins: seq<(string, nat)>): (r: Option<string>)
    ensures r.None? <==> forall i :: 0 <= i < |mins| ==> mins[i].0 in enhanced && enhanced[mins[i].0].JStr?
    decreases |mins|
  {
    if |mins| == 0 then None
    else if mins[0].0 !in enhanced then Some("'" + mins[0].0 + "'")
    else if !enhanced[mins[0].0].JStr? then Some(TypeErrorText)
    else
      var r := TableCheckError(enhanced, mins[1..]);
      assert forall i :: 1 <= i < |mins| ==> mins[i] == mins[1..][i - 1];
      r
  }

  /** What the checks print: section key, whether it passed, table count.
      Defined where every checked value is text. */
  function TableReport(enhanced: map<string, Json>, mins: seq<(string, nat)>): (r: seq<(string, bool, nat)>)
    requires TableCheckError(enhanced, mins).None?
    ensures |r| == |mins|
    ensures forall i :: 0 <= i < |r| ==>
              r[i].0 == mins[i].0
              && (r[i].1, r[i].2) == FormatEnhancer.ValidateTables(enhanced[mins[i].0].s, mins[i].1)
  {
    seq(|mins|, i requires 0 <= i < |mins| =>
      var v := FormatEnhancer.ValidateTables(enhanced[mins[i].0].s, mins[i].1);
      (mins[i].0, v.0, v.1))
  }

  const Headings: seq<string> := [
    "## 1. 基本面分析 (Fundamental Analysis)",
    "## 2. 业务板块分析 (Business Segments)",
    "## 3. 增长催化剂 (Growth Catalysts)",
    "## 4. 估值分析 (Valuation Analysis)"]
  const InsightsHeading := "## 5. 🤖 AI深度洞察与预测 (AI-Powered Deep Insights & Predictions)"

  function Title(company: string): string {
    "# " + company + " 估值分析报告\n\n"
  }

  function Block(heading: string, body: string): string {
    heading + "\n\n" + body + "\n\n"
  }

  /** The assembled Markdown report: the title, sections 1 to 4 in order,
      and section 5 when there is an insights text. */
  function MarkdownReport(company: string, bodies: seq<string>, insights: Option<string>): string
    requires |bodies| == 4
  {
    Title(company) + Block(Headings[0], bodies[0]) + Block(Headings[1], bodies[1])
    + Block(Headings[2], bodies[2]) + Block(Headings[3], bodies[3])
    + (if insights.Some? then Block(InsightsHeading, insights.value) else "")
  }

  /** The string concatenation of lines 766-779, one `+=` per step. */
  method AssembleMarkdown(company: string, bodies: seq<string>, insights: Option<string>) returns (r: string)
    requires |bodies| == 4
    ensures r == MarkdownReport(company, bodies, insights)
  {
    r := Title(company);
    r := r + Block(Headings[0], bodies[0]);
    r := r + Block(Headings[1], bodies[1]);
    r := r + Block(Headings[2], bodies[2]);
    r := r + Block(Headings[3], bodies[3]);
    if insights.Some? {
      r := r + Block(InsightsHeading, insights.value);
    }
  }

  /** Lines 745-787: the table checks (which only print), then assembly.
      The insights section is looked up in the enhanced dictionary. */
  function Finish(company: string, reportType: string, hasInsights: bool, enhanced: map<string, Json>): Outcome {
    var mins := TableMinimums(hasInsights);
    match TableCheckError(enhanced, mins)
    case Some(e) => Failure(e, company)
    case None =>
      var bodies := seq(4, i requires 0 <= i < 4 => enhanced[mins[i].0].s);
      var insights :=
        if !hasInsights then None
        else
          assert mins[4].0 == InsightsKey;
          if Truthy(enhanced[InsightsKey]) then Some(enhanced[InsightsKey].s) else None;
      Success(company, MarkdownReport(company, bodies, insights), Some(enhanced), reportType)
  }

  // ---------------------------------------------------------------------
  // The whole post-processing

  /** `key in report_json` for a value that is not an object: membership
      for a list, substring for a string. */
  function HasKey(j: Json, key: string): bool
    requires j.JArr? || j.JStr? || j.JObj?
  {
    match j
    case JObj(fields) => key in fields
    case JArr(items) => JStr(key) in items
    case JStr(s) => Contains(s, key)
  }

  function TypeName(j: Json): string {
    match j
    case JNull => "NoneType"
    case JBool(_) => "bool"
    case JNum(_) => "int"
    case JStr(_) => "str"
    case JArr(_) => "list"
    case JObj(_) => "dict"
  }

  const MissingValidator := "type object 'TextCleaner' has no attribute 'validate_text_quality'"

  /** The steps shared by both readings up to the required-keys check:
      `Err` carries an exception's message, `Ok(None)` means the answer is
      returned raw, `Ok(Some(fields))` the complete object. */
  function Completed(parsed: Option<Json>): Result<Option<map<string, Json>>> {
    if parsed.None? then Ok(None)
    else
      var j := parsed.value;
      if !(j.JArr? || j.JStr? || j.JObj?) then Err("argument of type '" + TypeName(j) + "' is not iterable")
      else if !(forall i :: 0 <= i < |RequiredKeys| ==> HasKey(j, RequiredKeys[i])) then Ok(None)
      else if !j.JObj? then Err("'" + TypeName(j) + "' object has no attribute 'items'")
      else Ok(Some(j.fields))
  }

  /** The post-processing as written: the text-quality check at line 732
      calls a method `TextCleaner` does not define. */
  function PostProcess(response: string, company: string, reportType: string, parsed: Option<Json>): Outcome {
    match Completed(parsed)
    case Err(e) => Failure(e, company)
    case Ok(None) => Success(company, response, None, reportType)
    case Ok(Some(fields)) => Failure(MissingValidator, company)
  }

  /** The enhancement with the insights section kept and normalised like
      the other four. */
  function EnhancedWithInsights(cleaned: map<string, Json>, formatTable: string -> string): Result<map<string, Json>> {
    match FormatEnhancer.EnhancedReport(cleaned, formatTable)
    case Err(e) => Err(e)
    case Ok(m) =>
      if InsightsKey !in cleaned then Ok(m)
      else
        match FormatEnhancer.EnhanceValue(cleaned[InsightsKey], formatTable)
        case Err(e) => Err(e)
        case Ok(v) => Ok(m[InsightsKey := v])
  }

  /** The post-processing as evidently intended: the advisory text-quality
      check raises nothing, and the insights section survives enhancement. */
  function PostProcessCorrected(response: string, company: string, reportType: string, parsed: Option<Json>,
                                formatTable: string -> string): Outcome {
    match Completed(parsed)
    case Err(e) => Failure(e, company)
    case Ok(None) => Success(company, response, None, reportType)
    case Ok(Some(fields)) =>
      var cleaned := Cleaned(fields);
      match EnhancedWithInsights(cleaned, formatTable)
      case Err(e) => Failure(e, company)
      case Ok(enhanced) => Finish(company, reportType, InsightsKey in fields, enhanced)
  }

  // ---------------------------------------------------------------------
  // Properties of the extraction

  /** A pattern whose first character does not occur before it is found
      where it is placed. */
  lemma IndexOfAfter(p: string, x: string, rest: string)
    requires |x| > 0 && x[0] !in p
    ensures IndexOf(p + x + rest, x) == |p|
  {
    var s := p + x + rest;
    assert s[|p|..|p| + |x|] == x;
    ContainsAt(s, x, |p|);
    var k := IndexOf(s, x);
    assert s[k..k + |x|][0] == s[k];
    assert StartsWith(s[|p|..], x) by {
      assert s[|p|..][..|x|] == x;
    }
  }

  /** A fenced ```` ```json ```` block yields its stripped body, whatever
      follows the closing fence. */
  lemma FenceJsonBody(p: string, b: string, q: string)
    requires '`' !in p && '`' !in b
    ensures FenceStripped(p + "```json" + b + "```" + q) == Strip(b)
  {
    var s := p + "```json" + b + "```" + q;
    assert s == p + "```json" + (b + "```" + q);
    IndexOfAfter(p, "```json", b + "```" + q);
    var after := s[|p| + 7..];
    assert after == b + "```" + q;
    IndexOfAfter(b, "```", q);
    assert after[..|b|] == b;
  }

  lemma JsonFenceIsFence(s: string)
    ensures Contains(s, "```json") ==> Contains(s, "```")
  {
    if Contains(s, "```json") {
      var i := ContainsWitness(s, "```json");
      assert s[i..i + 3] == s[i..i + 7][..3] == "```";
      ContainsAt(s, "```", i);
    }
  }

  /** Text without a fence is left as it is. */
  lemma NoFenceUnchanged(s: string)
    requires !Contains(s, "```")
    ensures FenceStripped(s) == s
  {
    JsonFenceIsFence(s);
  }

  /** The brace rule cuts from the first `{` to the last `}`: braces inside
      the object are kept. */
  lemma BraceSlicedObject(p: string, body: string, q: string)
    requires LeftBrace !in p && RightBrace !in q
    ensures BraceSliced(p + "{" + body + "}" + q) == "{" + body + "}"
  {
    var s := p + "{" + body + "}" + q;
    var e := |p| + 1 + |body|;
    assert IndexOf(s, "{") == |p| by {
      assert s == p + "{" + (body + "}" + q);
      IndexOfAfter(p, "{", body + "}" + q);
    }
    forall j | e < j < |s|
      ensures s[j] != RightBrace
    {
      assert s[j] == q[j - e - 1];
    }
    assert s[e] == RightBrace;
    assert LastIndexOfChar(s, RightBrace) == e;
    assert s[|p|..e + 1] == "{" + body + "}";
  }

  /** Without both braces the text is left as it is. */
  lemma BraceSlicedNoPair(s: string)
    requires LeftBrace !in s || RightBrace !in s
    ensures BraceSliced(s) == s
  {
    ContainsChar(s, LeftBrace);
    assert "{" == [LeftBrace];
  }

  /** A last `}` before the first `{` gives an empty candidate, which
      `json.loads` rejects. */
  lemma BraceSlicedReversed()
    ensures BraceSliced("}{") == ""
  {
    IndexOfAfter("}", "{", "");
    assert "}" + "{" + "" == "}{";
  }

  /** An answer that is one fenced JSON object, with no backtick before
      the object's end, yields exactly that object. */
  lemma CandidateOfFencedObject(p: string, body: string, q: string)
    requires '`' !in p && '`' !in body
    requires p == [] || !IsSpace(p[0])
    requires q == [] || !IsSpace(q[|q| - 1])
    ensures Candidate(p + "```json" + ("{" + body + "}") + "```" + q) == "{" + body + "}"
  {
    var o := "{" + body + "}";
    var s := p + "```json" + o + "```" + q;
    FencedStripped(p, o, q);
    FenceJsonBody(p, o, q);
    ObjectStripped(body);
    ObjectSliced(body);
  }

  lemma FencedStripped(p: string, o: string, q: string)
    requires p == [] || !IsSpace(p[0])
    requires q == [] || !IsSpace(q[|q| - 1])
    ensures Strip(p + "```json" + o + "```" + q) == p + "```json" + o + "```" + q
  {
    var s := p + "```json" + o + "```" + q;
    if p == [] {
      assert s[0] == '`';
    } else {
      assert s[0] == p[0];
    }
    if q == [] {
      assert s[|s| - 1] == '`';
    } else {
      assert s[|s| - 1] == q[|q| - 1];
    }
    StripId(s);
  }

  lemma ObjectStripped(body: string)
    ensures Strip("{" + body + "}") == "{" + body + "}"
  {
    var o := "{" + body + "}";
    assert o[0] == LeftBrace && o[|o| - 1] == RightBrace;
    StripId(o);
  }

  lemma ObjectSliced(body: string)
    ensures BraceSliced("{" + body + "}") == "{" + body + "}"
  {
    BraceSlicedObject("", body, "");
    assert "" + "{" + body + "}" + "" == "{" + body + "}";
  }

  // ---------------------------------------------------------------------
  // Properties of cleaning, checking and assembly

  /** `cleaned_json` has the same keys; string values are fixed and carry
      no emphasis marker, other values are copied. */
  lemma CleanedShape(fields: map<string, Json>)
    ensures Cleaned(fields).Keys == fields.Keys
    ensures forall k :: k in fields && !fields[k].JStr? ==> Cleaned(fields)[k] == fields[k]
    ensures forall k :: k in fields && fields[k].JStr? ==>
              Cleaned(fields)[k] == JStr(WordFixer.AllIssuesFixed(fields[k].s))
              && '*' !in Cleaned(fields)[k].s && '_' !in Cleaned(fields)[k].s
  {
    forall k | k in fields && fields[k].JStr?
      ensures '*' !in Cleaned(fields)[k].s && '_' !in Cleaned(fields)[k].s
    {
      WordFixer.AllIssuesFixedClean(fields[k].s);
    }
  }

  /** Only the required keys decide completeness; `aiInsights` is optional. */
  lemma CompletedObject(fields: map<string, Json>)
    ensures Completed(Some(JObj(fields))) ==
            if forall i :: 0 <= i < |RequiredKeys| ==> RequiredKeys[i] in fields then Ok(Some(fields)) else Ok(None)
  {
  }

  /** A decode error or an incomplete object returns the raw answer as the
      report, with no `report_json`. */
  lemma RawAnswerReturned(response: string, company: string, reportType: string, parsed: Option<Json>,
                          formatTable: string -> string)
    requires Completed(parsed) == Ok(None)
    ensures PostProcess(response, company, reportType, parsed) == Success(company, response, None, reportType)
    ensures PostProcessCorrected(response, company, reportType, parsed, formatTable)
            == Success(company, response, None, reportType)
  {
  }

  /** A JSON number, boolean or null makes the membership test raise. */
  lemma ScalarFails(response: string, company: string, reportType: string, j: Json)
    requires j.JNull? || j.JBool? || j.JNum?
    ensures PostProcess(response, company, reportType, Some(j)).Failure?
    ensures PostProcess(response, company, reportType, Some(j)).company == company
  {
  }

  /** As written, a complete report never reaches the format enhancer: the
      call at line 732 raises, and the generic error is returned. */
  lemma CompleteReportFails(response: string, company: string, reportType: string, fields: map<string, Json>)
    requires forall i :: 0 <= i < |RequiredKeys| ==> RequiredKeys[i] in fields
    ensures PostProcess(response, company, reportType, Some(JObj(fields))) == Failure(MissingValidator, company)
  {
  }

  /** As written, no outcome carries `report_json`. */
  lemma NeverEnhanced(response: string, company: string, reportType: string, parsed: Option<Json>)
    ensures PostProcess(response, company, reportType, parsed).Success? ==>
              PostProcess(response, company, reportType, parsed).reportJson.None?
  {
  }

  /** The table minimums: three for each section in order, two for the
      insights section, which is checked only when present. */
  lemma TableMinimumsShape(hasInsights: bool)
    ensures |TableMinimums(hasInsights)| == if hasInsights then 5 else 4
    ensures forall i :: 0 <= i < 4 ==> TableMinimums(hasInsights)[i] == (FormatEnhancer.SectionKeys[i], 3)
    ensures hasInsights ==> TableMinimums(hasInsights)[4] == (InsightsKey, 2)
  {
  }

  /** A shortfall of tables never blocks: once every checked value is text
      the report is assembled, whatever the counts. */
  lemma ShortfallNeverBlocks(company: string, reportType: string, hasInsights: bool, enhanced: map<string, Json>)
    requires TableCheckError(enhanced, TableMinimums(hasInsights)).None?
    ensures Finish(company, reportType, hasInsights, enhanced).Success?
    ensures Finish(company, reportType, hasInsights, enhanced).reportJson == Some(enhanced)
  {
  }

  lemma ConcatEnds(t: string, b0: string, b1: string, b2: string, b3: string, tail: string)
    ensures StartsWith(t + b0 + b1 + b2 + b3 + tail, t)
    ensures EndsWith(t + b0 + b1 + b2 + b3 + tail, tail)
    ensures EndsWith(t + b0 + b1 + b2 + b3 + "", b3)
  {
    var r := t + b0 + b1 + b2 + b3;
    assert (r + tail)[..|t|] == t;
    assert (r + tail)[|r + tail| - |tail|..] == tail;
    assert (r + "")[|r| - |b3|..] == b3;
  }

  /** The report starts with its title; section 5 comes last when present,
      otherwise section 4 does. */
  lemma MarkdownOrder(company: string, bodies: seq<string>, insights: Option<string>)
    requires |bodies| == 4
    ensures StartsWith(MarkdownReport(company, bodies, insights), Title(company))
    ensures insights.Some? ==> EndsWith(MarkdownReport(company, bodies, insights), Block(InsightsHeading, insights.value))
    ensures insights.None? ==> EndsWith(MarkdownReport(company, bodies, insights), Block(Headings[3], bodies[3]))
  {
    ConcatEnds(Title(company), Block(Headings[0], bodies[0]), Block(Headings[1], bodies[1]),
      Block(Headings[2], bodies[2]), Block(Headings[3], bodies[3]),
      if insights.Some? then Block(InsightsHeading, insights.value) else "");
  }

  /** With the four sections all text, the enhancement succeeds and every
      section stays text. */
  lemma SectionsStayText(cleaned: map<string, Json>, formatTable: string -> string)
    requires forall i :: 0 <= i < |RequiredKeys| ==> RequiredKeys[i] in cleaned ==> cleaned[RequiredKeys[i]].JStr?
    ensures FormatEnhancer.EnhancedReport(cleaned, formatTable).Ok?
    ensures forall i :: 0 <= i < |RequiredKeys| ==>
              RequiredKeys[i] in FormatEnhancer.EnhancedReport(cleaned, formatTable).value
              && FormatEnhancer.EnhancedReport(cleaned, formatTable).value[RequiredKeys[i]].JStr?
  {
    FormatEnhancer.EnhancedReportShape(cleaned, formatTable);
  }

  /** Even without the line-732 call, enhancing with the four section keys
      alone drops `aiInsights`, and the table check of line 759 raises
      `KeyError` when the answer had one. */
  lemma InsightsKeyError(company: string, reportType: string, cleaned: map<string, Json>, formatTable: string -> string)
    requires InsightsKey in cleaned
    requires forall i :: 0 <= i < |RequiredKeys| ==> RequiredKeys[i] in cleaned ==> cleaned[RequiredKeys[i]].JStr?
    ensures FormatEnhancer.EnhancedReport(cleaned, formatTable).Ok?
    ensures Finish(company, reportType, true, FormatEnhancer.EnhancedReport(cleaned, formatTable).value)
            == Failure("'aiInsights'", company)
  {
    SectionsStayText(cleaned, formatTable);
    FormatEnhancer.AiInsightsDropped(cleaned, formatTable);
    var m := FormatEnhancer.EnhancedReport(cleaned, formatTable).value;
    var mins := TableMinimums(true);
    assert mins[1..][1..][1..][1..] == [(InsightsKey, 2)];
  }

  /** The corrected enhancement of text sections: it succeeds, keeps the
      four sections and `aiInsights` exactly when present, all as text. */
  lemma EnhancedWithInsightsText(cleaned: map<string, Json>, formatTable: string -> string)
    requires forall i :: 0 <= i < |RequiredKeys| ==> RequiredKeys[i] in cleaned && cleaned[RequiredKeys[i]].JStr?
    requires InsightsKey in cleaned ==> cleaned[InsightsKey].JStr?
    ensures EnhancedWithInsights(cleaned, formatTable).Ok?
    ensures var e := EnhancedWithInsights(cleaned, formatTable).value;
            (forall i :: 0 <= i < |RequiredKeys| ==> RequiredKeys[i] in e && e[RequiredKeys[i]].JStr?)
            && (InsightsKey in e <==> InsightsKey in cleaned)
            && (InsightsKey in e ==> e[InsightsKey].JStr?)
  {
    SectionsStayText(cleaned, formatTable);
    FormatEnhancer.AiInsightsDropped(cleaned, formatTable);
    assert forall i :: 0 <= i < |RequiredKeys| ==> RequiredKeys[i] != InsightsKey;
  }

  /** With the corrections, a complete answer whose sections are text is
      reported: `report_json` has the four sections, plus `aiInsights`
      exactly when the answer had it, and section 5 closes the report when
      the enhanced insights are not empty. */
  lemma CompleteReportSucceeds(response: string, company: string, reportType: string, fields: map<string, Json>,
                               formatTable: string -> string)
    requires forall i :: 0 <= i < |RequiredKeys| ==> RequiredKeys[i] in fields && fields[RequiredKeys[i]].JStr?
    requires InsightsKey in fields ==> fields[InsightsKey].JStr?
    ensures var out := PostProcessCorrected(response, company, reportType, Some(JObj(fields)), formatTable);
            out.Success? && out.reportJson.Some?
            && (forall i :: 0 <= i < |RequiredKeys| ==> RequiredKeys[i] in out.reportJson.value)
            && (InsightsKey in out.reportJson.value <==> InsightsKey in fields)
            && (InsightsKey in fields && out.reportJson.value[InsightsKey] != JStr("") ==>
                  EndsWith(out.report, Block(InsightsHeading, out.reportJson.value[InsightsKey].s)))
  {
    var cleaned := Cleaned(fields);
    CompletedObject(fields);
    CleanedShape(fields);
    EnhancedWithInsightsText(cleaned, formatTable);
    var enhanced := EnhancedWithInsights(cleaned, formatTable).value;
    var h := InsightsKey in fields;
    assert PostProcessCorrected(response, company, reportType, Some(JObj(fields)), formatTable)
           == Finish(company, reportType, h, enhanced);
    FinishText(company, reportType, h, enhanced);
  }

  /** Assembly over text sections: the report carries the dictionary, and
      section 5 closes it when the insights text is not empty. */
  lemma FinishText(company: string, reportType: string, hasInsights: bool, enhanced: map<string, Json>)
    requires forall i :: 0 <= i < |RequiredKeys| ==> RequiredKeys[i] in enhanced && enhanced[RequiredKeys[i]].JStr?
    requires hasInsights <==> InsightsKey in enhanced
    requires InsightsKey in enhanced ==> enhanced[InsightsKey].JStr?
    ensures var out := Finish(company, reportType, hasInsights, enhanced);
            out.Success? && out.reportJson == Some(enhanced)
            && (hasInsights && enhanced[InsightsKey] != JStr("") ==>
                  EndsWith(out.report, Block(InsightsHeading, enhanced[InsightsKey].s)))
  {
    var mins := TableMinimums(hasInsights);
    TableMinimumsShape(hasInsights);
    assert TableCheckError(enhanced, mins).None?;
    if hasInsights && enhanced[InsightsKey] != JStr("") {
      var bodies := seq(4, i requires 0 <= i < 4 => enhanced[mins[i].0].s);
      MarkdownOrder(company, bodies, Some(enhanced[InsightsKey].s));
    }
  }
}
