/** `QueryPlannerAgent` of `agents/query_planner.py`: the model's answer is
    unfenced and parsed, its queries are cut to `MAX_SONAR_QUERIES` and
    normalised into dictionaries, and any failure falls back to a fixed plan
    of eight queries. The model's answer (or the exception `simple_prompt`
    raised) and `json.loads` are parameters. */
module QueryPlanner {
  import opened Wrappers
  import opened Text
  import opened JsonValue
  import DeepAnalyst

  /** The default of `MAX_SONAR_QUERIES` in `config.py`. */
  const MaxSonarQueries: nat := 8

  const FallbackNote := "使用备用查询计划"

  /** What `generate_search_plan` returns; its `status` is always
      `"success"`. `note` is present only on the fallback plan. */
  datatype Plan = Plan(plan: map<string, Json>, company: string, note: Option<string>)

  /** The priority a plain-text query gets from its position. */
  function PriorityAt(i: nat): (p: string)
    ensures i < 3 ==> p == "high"
    ensures 3 <= i < 6 ==> p == "medium"
    ensures 6 <= i ==> p == "low"
  {
    if i < 3 then "high" else if i < 6 then "medium" else "low"
  }

  /** The dictionary a plain-text query at position `i` becomes. */
  function TextQuery(q: string, i: nat): map<string, Json> {
    map["query" := JStr(q), "purpose" := JStr("查询 " + NatToString(i + 1)), "priority" := JStr(PriorityAt(i))]
  }

  /** What the entry at position `i` contributes: text becomes a
      dictionary, a dictionary is kept, anything else is skipped. */
  function EntryAt(q: Json, i: nat): (r: seq<map<string, Json>>)
    ensures |r| <= 1
    ensures |r| == 1 <==> q.JStr? || q.JObj?
  {
    match q
    case JStr(s) => [TextQuery(s, i)]
    case JObj(fields) => [fields]
    case _ => []
  }

  /** The normalised queries, in their original order. */
  function Normalized(qs: seq<Json>): (r: seq<map<string, Json>>)
    ensures |r| <= |qs|
  {
    if |qs| == 0 then [] else Normalized(qs[..|qs| - 1]) + EntryAt(qs[|qs| - 1], |qs| - 1)
  }

  /** The normalisation loop of `generate_search_plan`. */
  method NormalizeQueries(queries: seq<Json>) returns (normalized: seq<map<string, Json>>)
    ensures normalized == Normalized(queries)
  {
    normalized := [];
    for i := 0 to |queries|
      invariant normalized == Normalized(queries[..i])
    {
      assert queries[..i + 1][..i] == queries[..i];
      match queries[i]
      case JStr(s) =>
        normalized := normalized + [TextQuery(s, i)];
      case JObj(fields) =>
        normalized := normalized + [fields];
      case _ =>
    }
    assert queries[..|queries|] == queries;
  }

  /** `plan["queries"][:MAX_SONAR_QUERIES]`: a list is cut; a string is
      cut and then iterated character by character; any other value makes
      the slice raise. */
  function Truncated(v: Json): (r: Option<seq<Json>>)
    ensures r.Some? <==> v.JArr? || v.JStr?
    ensures r.Some? ==> |r.value| <= MaxSonarQueries
    ensures v.JArr? ==> r.value == Take(v.items, MaxSonarQueries)
  {
    match v
    case JArr(items) => Some(Take(items, MaxSonarQueries))
    case JStr(s) =>
      var cut := Take(s, MaxSonarQueries);
      Some(seq(|cut|, i requires 0 <= i < |cut| => JStr([cut[i]])))
    case _ => None
  }

  function Objects(ms: seq<map<string, Json>>): (r: seq<Json>)
    ensures |r| == |ms| && forall i :: 0 <= i < |ms| ==> r[i] == JObj(ms[i])
  {
    seq(|ms|, i requires 0 <= i < |ms| => JObj(ms[i]))
  }

  // ---------------------------------------------------------------------
  // The fallback plan

  /** One fallback query: a search about `company` on `topic`. */
  function FallbackEntry(company: string, topic: string, purpose: string, priority: string): map<string, Json> {
    map["query" := JStr(company + " " + topic), "purpose" := JStr(purpose), "priority" := JStr(priority)]
  }

  const FallbackTopics: seq<string> :=
    [ "latest financial results revenue profit 2024 2025",
      "valuation PE ratio market cap stock price analysis",
      "recent news major events announcements",
      "competitive advantage market position industry",
      "growth forecast future outlook strategy",
      "analyst ratings price target recommendations",
      "risks challenges concerns",
      "industry trends market conditions macro environment" ]

  const FallbackPurposes: seq<string> :=
    ["最新财务数据", "估值指标", "最新新闻", "竞争地位", "增长预期", "分析师观点", "风险因素", "行业趋势"]

  const FallbackPriorities: seq<string> :=
    ["high", "high", "high", "medium", "medium", "medium", "low", "low"]

  /** `_get_fallback_plan`'s eight queries about `company`. */
  function FallbackQueries(company: string): (r: seq<map<string, Json>>)
    ensures |r| == 8
    ensures forall i :: 0 <= i < 8 ==> r[i] == FallbackEntry(company, FallbackTopics[i], FallbackPurposes[i], FallbackPriorities[i])
  {
    seq(8, i requires 0 <= i < 8 => FallbackEntry(company, FallbackTopics[i], FallbackPurposes[i], FallbackPriorities[i]))
  }

  function FallbackPlan(company: string): Plan {
    Plan(map["queries" := JArr(Objects(Take(FallbackQueries(company), MaxSonarQueries)))], company, Some(FallbackNote))
  }

  // ---------------------------------------------------------------------
  // generate_search_plan

  /** The plan for `company`, given the model's answer (or the error it
      raised) and the parser. Every failure gives the fallback plan. */
  function SearchPlan(company: string, answer: Result<string>, parse: string -> Option<Json>): Plan {
    if answer.Err? then FallbackPlan(company)
    else
      var parsed := parse(DeepAnalyst.FenceStripped(Strip(answer.value)));
      if parsed.None? || !parsed.value.JObj? || "queries" !in parsed.value.fields then FallbackPlan(company)
      else
        var fields := parsed.value.fields;
        var cut := Truncated(fields["queries"]);
        if cut.None? then FallbackPlan(company)
        else Plan(fields["queries" := JArr(Objects(Normalized(cut.value)))], company, None)
  }

  /** `generate_search_plan`. */
  method GenerateSearchPlan(company: string, answer: Result<string>, parse: string -> Option<Json>) returns (p: Plan)
    ensures p == SearchPlan(company, answer, parse)
  {
    if answer.Err? {
      return FallbackPlan(company);
    }
    var response := Strip(answer.value);
    response := DeepAnalyst.FenceStripped(response);
    var parsed := parse(response);
    if parsed.None? || !parsed.value.JObj? || "queries" !in parsed.value.fields {
      return FallbackPlan(company);
    }
    var fields := parsed.value.fields;
    var cut := Truncated(fields["queries"]);
    if cut.None? {
      return FallbackPlan(company);
    }
    var normalized := NormalizeQueries(cut.value);
    p := Plan(fields["queries" := JArr(Objects(normalized))], company, None);
  }

  // ---------------------------------------------------------------------
  // Properties

  /** When every entry is text or a dictionary, nothing is dropped and
      entry `i` is normalised with its own position. */
  lemma {:induction false} NormalizedEach(qs: seq<Json>)
    requires forall i :: 0 <= i < |qs| ==> qs[i].JStr? || qs[i].JObj?
    ensures |Normalized(qs)| == |qs|
    ensures forall i :: 0 <= i < |qs| ==>
              Normalized(qs)[i] == if qs[i].JStr? then TextQuery(qs[i].s, i) else qs[i].fields
  {
    if |qs| > 0 {
      var init := qs[..|qs| - 1];
      assert forall i :: 0 <= i < |init| ==> init[i] == qs[i];
      NormalizedEach(init);
    }
  }

  /** Entries that are neither text nor dictionaries leave nothing. */
  lemma {:induction false} NormalizedDropsOthers(qs: seq<Json>)
    requires forall i :: 0 <= i < |qs| ==> !qs[i].JStr? && !qs[i].JObj?
    ensures Normalized(qs) == []
  {
    if |qs| > 0 {
      var init := qs[..|qs| - 1];
      assert forall i :: 0 <= i < |init| ==> init[i] == qs[i];
      NormalizedDropsOthers(init);
    }
  }

  /** Whatever the model answers, the plan holds at most `MAX_SONAR_QUERIES`
      queries, each a dictionary, and keeps the company. */
  lemma PlanBounded(company: string, answer: Result<string>, parse: string -> Option<Json>)
    ensures var p := SearchPlan(company, answer, parse);
            p.company == company && "queries" in p.plan && p.plan["queries"].JArr?
            && |p.plan["queries"].items| <= MaxSonarQueries
            && forall i :: 0 <= i < |p.plan["queries"].items| ==> p.plan["queries"].items[i].JObj?
  {
  }

  /** A failed call or an unparsable answer gives the fallback plan, which
      carries its note; a parsed plan carries none. */
  lemma FallbackOnFailure(company: string, answer: Result<string>, parse: string -> Option<Json>)
    ensures answer.Err? ==> SearchPlan(company, answer, parse) == FallbackPlan(company)
    ensures answer.Ok? && parse(DeepAnalyst.FenceStripped(Strip(answer.value))).None? ==>
              SearchPlan(company, answer, parse) == FallbackPlan(company)
    ensures SearchPlan(company, answer, parse).note.Some? <==> SearchPlan(company, answer, parse) == FallbackPlan(company)
  {
  }

  /** The fallback plan has eight queries about the company, and its
      priorities are the ones the position rule gives: three high, three
      medium, two low. */
  lemma FallbackShape(company: string)
    ensures |FallbackQueries(company)| == MaxSonarQueries
    ensures forall i :: 0 <= i < |FallbackQueries(company)| ==>
              FallbackQueries(company)[i]["priority"] == JStr(PriorityAt(i))
              && FallbackQueries(company)[i]["query"].JStr?
              && StartsWith(FallbackQueries(company)[i]["query"].s, company + " ")
  {
    var qs := FallbackQueries(company);
    forall i | 0 <= i < |qs|
      ensures qs[i]["priority"] == JStr(PriorityAt(i)) && qs[i]["query"].JStr?
              && StartsWith(qs[i]["query"].s, company + " ")
    {
      var q := qs[i]["query"].s;
      assert q[..|company + " "|] == company + " ";
    }
  }

  /** A list of text queries gives one dictionary per query, in order,
      numbered from 1, and cut at `MAX_SONAR_QUERIES`. */
  lemma TextQueriesNumbered(company: string, answer: Result<string>, parse: string -> Option<Json>, queries: seq<Json>)
    requires answer.Ok?
    requires var parsed := parse(DeepAnalyst.FenceStripped(Strip(answer.value)));
             parsed.Some? && parsed.value.JObj? && "queries" in parsed.value.fields
             && parsed.value.fields["queries"] == JArr(queries)
    requires forall i :: 0 <= i < |queries| ==> queries[i].JStr?
    ensures var p := SearchPlan(company, answer, parse).plan;
            "queries" in p && p["queries"].JArr?
            && |p["queries"].items| == (if |queries| < MaxSonarQueries then |queries| else MaxSonarQueries)
            && forall i :: 0 <= i < |p["queries"].items| ==> p["queries"].items[i] == JObj(TextQuery(queries[i].s, i))
  {
    var fields := parse(DeepAnalyst.FenceStripped(Strip(answer.value))).value.fields;
    var cut := Truncated(fields["queries"]).value;
    NormalizedEach(cut);
  }
}
