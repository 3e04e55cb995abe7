/** `InformationCollectorAgent` of `agents/information_collector.py`: the
    query plan is checked, every query is searched, the results are
    organised in query order and counted, and the successful ones are
    formatted for the analyst, grouped by priority. */
module InformationCollector {
  import opened Wrappers
  import opened Text
  import opened JsonValue
  import opened SonarClient
  import Seqs

  /** One planned query, with the fields the collector reads from it. */
  datatype QueryInfo = QueryInfo(query: string, purpose: string, priority: string)

  datatype PlanBody = PlanBody(queries: Option<seq<QueryInfo>>)

  /** The query plan as the collector receives it: a dictionary (with its
      `status`, `plan` and `company` entries) or some other value. */
  datatype PlanInput =
    | NotADict(typeName: string)
    | PlanDict(status: Option<string>, plan: Option<PlanBody>, company: string)

  /** One organised result. Citations are not carried over. */
  datatype Organized =
    | Succeeded(query: string, purpose: string, priority: string, content: Json)
    | Errored(query: string, purpose: string, priority: string, error: string)

  datatype Collection =
    | CollectError(error: string)
    | Collected(company: string, results: seq<Organized>, successCount: nat, totalQueries: nat)

  const UnknownError := "未知错误"

  /** The three checks made before any search: the company and the queries
      of a usable plan, or the error to return. */
  function PlanQueries(plan: PlanInput): (r: Result<(string, seq<QueryInfo>)>)
    ensures r.Ok? <==> plan.PlanDict? && plan.status == Some("success") && plan.plan.Some? && plan.plan.value.queries.Some?
  {
    match plan
    case NotADict(t) => Err("查询计划格式错误: 期望字典，得到 <class '" + t + "'>")
    case PlanDict(status, body, company) =>
      if status != Some("success") then Err("无效的查询计划")
      else if body.None? || body.value.queries.None? then Err("查询计划缺少必需字段")
      else Ok((company, body.value.queries.value))
  }

  /** The entry for query `info` and its search result. */
  function Organize(info: QueryInfo, r: SearchResult): (o: Organized)
    ensures o.Succeeded? <==> r.Found?
    ensures o.query == r.query && o.purpose == info.purpose && o.priority == info.priority
    ensures o.Succeeded? ==> o.content == r.content
    ensures o.Errored? && r.error.Some? ==> o.error == r.error.value
    ensures o.Errored? && r.error.None? ==> o.error == UnknownError
  {
    if r.Found? then Succeeded(r.query, info.purpose, info.priority, r.content)
    else Errored(r.query, info.purpose, info.priority, if r.error.Some? then r.error.value else UnknownError)
  }

  /** The number of successful results. */
  function Successes(rs: seq<SearchResult>): (n: nat)
    ensures n <= |rs|
  {
    if |rs| == 0 then 0 else Successes(rs[..|rs| - 1]) + (if rs[|rs| - 1].Found? then 1 else 0)
  }

  function QueryStrings(qs: seq<QueryInfo>): (r: seq<string>)
    ensures |r| == |qs| && forall i :: 0 <= i < |qs| ==> r[i] == qs[i].query
  {
    seq(|qs|, i requires 0 <= i < |qs| => qs[i].query)
  }

  /** The loop of `collect_information` over the results: one entry per
      result, in order, and the count of successes. */
  method OrganizeResults(queries: seq<QueryInfo>, results: seq<SearchResult>) returns (organized: seq<Organized>, successCount: nat)
    requires |queries| == |results|
    ensures |organized| == |results|
    ensures forall j :: 0 <= j < |results| ==> organized[j] == Organize(queries[j], results[j])
    ensures successCount == Successes(results)
  {
    organized := [];
    successCount := 0;
    for i := 0 to |results|
      invariant |organized| == i
      invariant forall j :: 0 <= j < i ==> organized[j] == Organize(queries[j], results[j])
      invariant successCount == Successes(results[..i])
    {
      assert results[..i + 1][..i] == results[..i];
      organized := organized + [Organize(queries[i], results[i])];
      if results[i].Found? {
        successCount := successCount + 1;
      }
    }
    assert results[..|results|] == results;
  }

  /** `collect_information`. Which exchange each query meets is the
      parameter `answer`. */
  method CollectInformation(plan: PlanInput, answer: nat -> Exchange) returns (c: Collection)
    ensures PlanQueries(plan).Err? ==> c == CollectError(PlanQueries(plan).error)
    ensures PlanQueries(plan).Ok? ==>
              var company := PlanQueries(plan).value.0;
              var qs := PlanQueries(plan).value.1;
              var results := BatchSearch(QueryStrings(qs), answer);
              c.Collected? && c.company == company && c.totalQueries == |qs|
              && |c.results| == |qs|
              && (forall i :: 0 <= i < |qs| ==> c.results[i] == Organize(qs[i], results[i]))
              && c.successCount == Successes(results)
  {
    var checked := PlanQueries(plan);
    if checked.Err? {
      return CollectError(checked.error);
    }
    var company := checked.value.0;
    var queries := checked.value.1;
    var queryStrings := QueryStrings(queries);
    var results := BatchSearch(queryStrings, answer);
    var organized, successCount := OrganizeResults(queries, results);
    c := Collected(company, organized, successCount, |queryStrings|);
  }

  // ---------------------------------------------------------------------
  // Formatting for the analyst

  const Priorities: seq<string> := ["high", "medium", "low"]

  function Label(priority: string): string {
    if priority == "high" then "核心信息" else if priority == "medium" then "重要信息" else "补充信息"
  }

  /** The successful entries of one priority, in their original order. */
  function InGroup(rs: seq<Organized>, priority: string): (g: seq<Organized>)
    ensures forall o :: o in g <==> o in rs && o.Succeeded? && o.priority == priority
    ensures forall i :: 0 <= i < |g| ==> g[i].Succeeded? && g[i].priority == priority
  {
    if |rs| == 0 then []
    else
      var g := InGroup(rs[..|rs| - 1], priority);
      assert rs == rs[..|rs| - 1] + [rs[|rs| - 1]];
      var o := rs[|rs| - 1];
      if o.Succeeded? && o.priority == priority then g + [o] else g
  }

  /** `str()` of a content value: text is itself; other values are shown
      by the parameter `show`. */
  function Shown(content: Json, show: Json -> string): string {
    if content.JStr? then content.s else show(content)
  }

  function ItemText(o: Organized, show: Json -> string): string
    requires o.Succeeded?
  {
    "### " + o.purpose + "\n" + "查询: " + o.query + "\n\n" + Shown(o.content, show) + "\n\n" + "---\n\n"
  }

  function ItemsText(items: seq<Organized>, show: Json -> string): string
    requires forall i :: 0 <= i < |items| ==> items[i].Succeeded?
  {
    if |items| == 0 then ""
    else ItemsText(items[..|items| - 1], show) + ItemText(items[|items| - 1], show)
  }

  function GroupHead(priority: string): string {
    "## " + Label(priority) + "\n\n"
  }

  function GroupText(rs: seq<Organized>, priority: string, show: Json -> string): string {
    var g := InGroup(rs, priority);
    if |g| == 0 then "" else GroupHead(priority) + ItemsText(g, show)
  }

  function GroupsText(rs: seq<Organized>, priorities: seq<string>, show: Json -> string): string {
    if |priorities| == 0 then ""
    else GroupsText(rs, priorities[..|priorities| - 1], show) + GroupText(rs, priorities[|priorities| - 1], show)
  }

  function Header(company: string, successCount: nat, totalQueries: nat): string {
    "# " + company + " - 实时信息汇总\n\n" + "收集时间: 当前\n"
    + "成功查询: " + NatToString(successCount) + "/" + NatToString(totalQueries) + "\n\n"
  }

  const CollectionFailed := "信息收集失败"

  lemma GroupsTextStep(rs: seq<Organized>, priorities: seq<string>, p: nat, show: Json -> string)
    requires p < |priorities|
    ensures GroupsText(rs, priorities[..p + 1], show) == GroupsText(rs, priorities[..p], show) + GroupText(rs, priorities[p], show)
  {
    assert priorities[..p + 1][..p] == priorities[..p];
  }

  /** The text `format_for_analysis` builds. */
  function Formatted(c: Collection, show: Json -> string): string {
    if c.CollectError? then CollectionFailed
    else Header(c.company, c.successCount, c.totalQueries) + GroupsText(c.results, Priorities, show)
  }

  /** The entries of one group appended to `text`, one after another. */
  method AppendItems(text: string, items: seq<Organized>, show: Json -> string) returns (t: string)
    requires forall i :: 0 <= i < |items| ==> items[i].Succeeded?
    ensures t == text + ItemsText(items, show)
  {
    t := text;
    for j := 0 to |items|
      invariant t == text + ItemsText(items[..j], show)
    {
      assert items[..j + 1][..j] == items[..j];
      t := t + ItemText(items[j], show);
    }
    assert items[..|items|] == items;
  }

  /** One priority's section appended to `text`: nothing when no entry of
      that priority succeeded. */
  method AppendGroup(text: string, rs: seq<Organized>, priority: string, show: Json -> string) returns (t: string)
    ensures t == text + GroupText(rs, priority, show)
  {
    var group := InGroup(rs, priority);
    t := text;
    if |group| > 0 {
      t := t + GroupHead(priority);
      t := AppendItems(t, group, show);
    }
  }

  /** `format_for_analysis`: the text grows group by group, entry by entry. */
  method FormatForAnalysis(c: Collection, show: Json -> string) returns (text: string)
    ensures text == Formatted(c, show)
  {
    if c.CollectError? {
      return CollectionFailed;
    }
    text := Header(c.company, c.successCount, c.totalQueries);
    for p := 0 to |Priorities|
      invariant text == Header(c.company, c.successCount, c.totalQueries) + GroupsText(c.results, Priorities[..p], show)
    {
      GroupsTextStep(c.results, Priorities, p, show);
      Seqs.AppendAssoc(Header(c.company, c.successCount, c.totalQueries),
                       GroupsText(c.results, Priorities[..p], show), GroupText(c.results, Priorities[p], show));
      text := AppendGroup(text, c.results, Priorities[p], show);
    }
    assert Priorities[..|Priorities|] == Priorities;
  }

  // ---------------------------------------------------------------------
  // Properties

  /** Every query succeeded exactly when the count reaches the total, and
      none did exactly when it is zero. */
  lemma {:induction false} SuccessesBounds(rs: seq<SearchResult>)
    ensures Successes(rs) == |rs| <==> forall i :: 0 <= i < |rs| ==> rs[i].Found?
    ensures Successes(rs) == 0 <==> forall i :: 0 <= i < |rs| ==> rs[i].Failed?
  {
    if |rs| > 0 {
      var init := rs[..|rs| - 1];
      SuccessesBounds(init);
      assert forall i :: 0 <= i < |init| ==> init[i] == rs[i];
    }
  }

  /** Grouping distributes over concatenation: entries keep their order. */
  lemma {:induction false} InGroupAppend(a: seq<Organized>, b: seq<Organized>, priority: string)
    ensures InGroup(a + b, priority) == InGroup(a, priority) + InGroup(b, priority)
  {
    if |b| == 0 {
      assert a + b == a;
    } else {
      var init := b[..|b| - 1];
      InGroupAppend(a, init, priority);
      assert (a + b)[..|a + b| - 1] == a + init;
    }
  }

  /** An entry that failed, or whose priority is none of `priorities`,
      adds nothing to the text. */
  lemma {:induction false} GroupsIgnore(rs: seq<Organized>, o: Organized, priorities: seq<string>, show: Json -> string)
    requires o.Errored? || o.priority !in priorities
    ensures GroupsText(rs + [o], priorities, show) == GroupsText(rs, priorities, show)
  {
    if |priorities| > 0 {
      var init := priorities[..|priorities| - 1];
      var last := priorities[|priorities| - 1];
      assert o.priority !in priorities ==> o.priority !in init;
      GroupsIgnore(rs, o, init, show);
      InGroupAppend(rs, [o], last);
    }
  }

  /** A successful collection's text opens with its header, which reports
      the success count and the total; a failed one is a fixed message. */
  lemma FormattedShape(c: Collection, show: Json -> string)
    ensures c.CollectError? ==> Formatted(c, show) == CollectionFailed
    ensures c.Collected? ==>
              StartsWith(Formatted(c, show), Header(c.company, c.successCount, c.totalQueries))
              && DigitsValue(NatToString(c.successCount)) == c.successCount
              && DigitsValue(NatToString(c.totalQueries)) == c.totalQueries
  {
    if c.Collected? {
      NatToStringValue(c.successCount);
      NatToStringValue(c.totalQueries);
      var h := Header(c.company, c.successCount, c.totalQueries);
      assert Formatted(c, show)[..|h|] == h;
    }
  }
}
