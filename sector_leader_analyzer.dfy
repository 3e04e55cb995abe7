/** `SectorLeaderAnalyzer` of `agents/sector_leader_analyzer.py`: today's
    hot sectors from four market searches and one language-model analysis,
    then, for the first three of them, the leading companies of each market
    extracted by the language model from a search answer and brought to one
    standard record.

    The search API and the language model are parameters. For the hot-spot
    analysis `exchange(i)` is what the search API answered to query `i` and
    `ai(data)` what `simple_prompt` returned for the prompt made from the
    market data `data` (`Err` stands for an exception it raised). For the
    leader searches `Replies` bundles the search answer and the model's
    answer for one market. `parse` stands for `json.loads` (`None` where it
    raises) and `show` for `str()` of a value that is not text. */
module SectorLeaderAnalyzer {
  import opened Wrappers
  import opened Text
  import opened JsonValue
  import opened SonarClient
  import opened Seqs
  import DeepAnalyst
  import InformationCollector

  // ---------------------------------------------------------------------
  // analyze_market_hotspots

  /** The four searches, the date spliced into each. */
  function HotspotQueries(date: string): (q: seq<string>)
    ensures |q| == 4
  {
    [ "today's hottest stock sectors " + date + " market performance trading volume",
      "今日A股热门板块涨幅排行 " + date,
      "Hong Kong stock market sector performance " + date,
      "US stock sectors leaders gainers " + date ]
  }

  /** The market data entry of one successful search. */
  function Part(query: string, r: SearchResult, show: Json -> string): string
    requires r.Found?
  {
    "Query: " + query + "\n" + InformationCollector.Shown(r.content, show)
  }

  /** The entries of the first `n` pairs of `zip(queries, results)` whose
      search succeeded, in order. */
  function Parts(queries: seq<string>, results: seq<SearchResult>, n: nat, show: Json -> string): seq<string>
    requires n <= |queries| && n <= |results|
  {
    if n == 0 then []
    else
      Parts(queries, results, n - 1, show)
      + (if results[n - 1].Found? then [Part(queries[n - 1], results[n - 1], show)] else [])
  }

  /** The positions among the first `n` results whose search succeeded: all
      of them, in increasing order. */
  function SuccessIndices(results: seq<SearchResult>, n: nat): (idx: seq<nat>)
    requires n <= |results|
    ensures forall k :: 0 <= k < |idx| ==> idx[k] < n && results[idx[k]].Found?
    ensures forall k, l :: 0 <= k < l < |idx| ==> idx[k] < idx[l]
    ensures forall i :: 0 <= i < n && results[i].Found? ==> i in idx
  {
    if n == 0 then []
    else SuccessIndices(results, n - 1) + (if results[n - 1].Found? then [n - 1] else [])
  }

  function Min(a: nat, b: nat): nat { if a <= b then a else b }

  /** The successful searches joined by blank lines; `zip` stops at the
      shorter list. */
  function MarketData(queries: seq<string>, results: seq<SearchResult>, show: Json -> string): string {
    Join(Parts(queries, results, Min(|queries|, |results|), show), "\n\n")
  }

  /** The market data holds exactly the successful searches, in order, each
      with the query at its own position. */
  lemma {:induction false} PartsPaired(queries: seq<string>, results: seq<SearchResult>, n: nat, show: Json -> string)
    requires n <= |queries| && n <= |results|
    ensures |Parts(queries, results, n, show)| == |SuccessIndices(results, n)|
    ensures forall k :: 0 <= k < |SuccessIndices(results, n)| ==>
              Parts(queries, results, n, show)[k]
              == Part(queries[SuccessIndices(results, n)[k]], results[SuccessIndices(results, n)[k]], show)
  {
    if n > 0 {
      PartsPaired(queries, results, n - 1, show);
    }
  }

  /** Without a successful search the market data is empty. */
  lemma {:induction false} NoSuccessNoData(queries: seq<string>, results: seq<SearchResult>, n: nat, show: Json -> string)
    requires n <= |queries| && n <= |results|
    requires forall i :: 0 <= i < n ==> !results[i].Found?
    ensures Parts(queries, results, n, show) == []
  {
    if n > 0 {
      NoSuccessNoData(queries, results, n - 1, show);
    }
  }

  /** The object `_analyze_hotspots_with_ai` returns when anything fails. */
  function ErrorResult(error: string): (r: map<string, Json>)
    ensures IsErrorResult(r) && r["error"] == JStr(error)
  {
    map["status" := JStr("error"), "error" := JStr(error), "top_sectors" := JArr([])]
  }

  /** The shape of that error object. */
  predicate IsErrorResult(r: map<string, Json>) {
    r.Keys == {"status", "error", "top_sectors"} && r["status"] == JStr("error")
    && r["error"].JStr? && r["top_sectors"] == JArr([])
  }

  /** Stands for the text of the `JSONDecodeError` raised by `json.loads`. */
  const DecodeError := "invalid JSON"

  /** The exception of `result["status"] = ...` on a parsed value that is
      not an object. */
  function AssignError(j: Json): string {
    if j.JArr? then "list indices must be integers or slices, not str"
    else "'" + DeepAnalyst.TypeName(j) + "' object does not support item assignment"
  }

  /** `_analyze_hotspots_with_ai`: the model's object marked as a success,
      or the error object. The object's `top_sectors` is measured with
      `len` inside the `try`, so one without a length is an error too. */
  function AnalyzeWithAi(answer: Result<string>, parse: string -> Option<Json>): (r: map<string, Json>)
    ensures "status" in r
    ensures r["status"] == JStr("success") || IsErrorResult(r)
    ensures r["status"] == JStr("success") ==>
              answer.Ok? && parse(DeepAnalyst.Candidate(answer.value)).Some?
              && parse(DeepAnalyst.Candidate(answer.value)).value.JObj?
  {
    if answer.Err? then ErrorResult(answer.error)
    else match parse(DeepAnalyst.Candidate(answer.value))
      case None => ErrorResult(DecodeError)
      case Some(j) =>
        if !j.JObj? then ErrorResult(AssignError(j))
        else
          var top := Get(j.fields, "top_sectors", JArr([]));
          if JsonLen(top).None? then ErrorResult("object of type '" + DeepAnalyst.TypeName(top) + "' has no len()")
          else j.fields["status" := JStr("success")]
  }

  /** An object with a measurable `top_sectors` succeeds, keeping every
      field of the model's object but `status`. */
  lemma AnalysisSucceeds(answer: Result<string>, parse: string -> Option<Json>, fields: map<string, Json>)
    requires answer.Ok? && parse(DeepAnalyst.Candidate(answer.value)) == Some(JObj(fields))
    requires JsonLen(Get(fields, "top_sectors", JArr([]))).Some?
    ensures AnalyzeWithAi(answer, parse)["status"] == JStr("success")
    ensures forall k :: k in fields ==> k in AnalyzeWithAi(answer, parse)
    ensures forall k :: k in fields && k != "status" ==> AnalyzeWithAi(answer, parse)[k] == fields[k]
  {
    assert AnalyzeWithAi(answer, parse) == fields["status" := JStr("success")];
  }

  /** `analyze_market_hotspots(date)`. */
  function AnalyzeMarketHotspots(date: string, exchange: nat -> Exchange, ai: string -> Result<string>,
                                 parse: string -> Option<Json>, show: Json -> string): map<string, Json>
  {
    var queries := HotspotQueries(date);
    AnalyzeWithAi(ai(MarketData(queries, BatchSearch(queries, exchange), show)), parse)
  }

  // ---------------------------------------------------------------------
  // Ticker extraction: `\(([A-Z0-9.]+)\)` and `\s*\([A-Z0-9.]+\)`

  predicate TickerChar(c: char) { 'A' <= c <= 'Z' || '0' <= c <= '9' || c == '.' }

  /** Length of the run of ticker characters at the start of `s`. */
  function TickerRun(s: string): (n: nat)
    ensures n <= |s|
    ensures forall k :: 0 <= k < n ==> TickerChar(s[k])
    ensures n < |s| ==> !TickerChar(s[n])
  {
    if |s| == 0 || !TickerChar(s[0]) then 0 else 1 + TickerRun(s[1..])
  }

  /** The length of the ticker when `s` starts with `(`, a non-empty run of
      ticker characters and `)`. */
  function GroupAt(s: string): (n: Option<nat>)
    ensures n.Some? ==> 0 < n.value && n.value + 2 <= |s| && s[0] == '(' && s[n.value + 1] == ')'
    ensures n.Some? ==> forall k :: 1 <= k <= n.value ==> TickerChar(s[k])
  {
    if |s| == 0 || s[0] != '(' then None
    else
      var n := TickerRun(s[1..]);
      if n > 0 && n + 1 < |s| && s[n + 1] == ')' then Some(n) else None
  }

  /** `re.search(r'\(([A-Z0-9.]+)\)', s).group(1)`: the leftmost match. */
  function FindTicker(s: string): (t: Option<string>)
    ensures t.Some? ==> |t.value| > 0 && forall k :: 0 <= k < |t.value| ==> TickerChar(t.value[k])
  {
    if |s| == 0 then None
    else match GroupAt(s)
      case Some(n) => Some(s[1..n + 1])
      case None => FindTicker(s[1..])
  }

  /** The length of a match of `\s*\([A-Z0-9.]+\)` at the start of `s`. */
  function TickerEnd(s: string): (e: Option<nat>)
    ensures e.Some? ==> 0 < e.value <= |s|
  {
    var w := SpaceRun(s);
    match GroupAt(s[w..])
    case Some(n) => Some(w + n + 2)
    case None => None
  }

  /** `re.sub(r'\s*\([A-Z0-9.]+\)', '', s)`: every match, left to right,
      removed. */
  function RemoveTickers(s: string): (r: string)
    ensures |r| <= |s|
    decreases |s|
  {
    if |s| == 0 then ""
    else match TickerEnd(s)
      case Some(e) => RemoveTickers(s[e..])
      case None => [s[0]] + RemoveTickers(s[1..])
  }

  /** A run of ticker characters followed by a non-ticker character. */
  lemma {:induction false} TickerRunOf(t: string, rest: string)
    requires forall k :: 0 <= k < |t| ==> TickerChar(t[k])
    requires rest == [] || !TickerChar(rest[0])
    ensures TickerRun(t + rest) == |t|
  {
    if |t| > 0 {
      assert (t + rest)[1..] == t[1..] + rest;
      TickerRunOf(t[1..], rest);
    } else {
      assert t + rest == rest;
    }
  }

  /** `(t)` is a group of length `|t|`. */
  lemma GroupOf(t: string, rest: string)
    requires |t| > 0 && forall k :: 0 <= k < |t| ==> TickerChar(t[k])
    ensures GroupAt("(" + t + ")" + rest) == Some(|t|)
  {
    var s := "(" + t + ")" + rest;
    assert s[1..] == t + (")" + rest);
    TickerRunOf(t, ")" + rest);
  }

  /** The ticker after a name without `(` is the one found. */
  lemma {:induction false} FindTickerAfter(name: string, t: string, rest: string)
    requires '(' !in name
    requires |t| > 0 && forall k :: 0 <= k < |t| ==> TickerChar(t[k])
    ensures FindTicker(name + "(" + t + ")" + rest) == Some(t)
  {
    var s := name + "(" + t + ")" + rest;
    if |name| == 0 {
      assert s == "(" + t + ")" + rest;
      GroupOf(t, rest);
      assert s[1..|t| + 1] == t;
    } else {
      assert s[0] == name[0];
      assert s[1..] == name[1..] + "(" + t + ")" + rest;
      FindTickerAfter(name[1..], t, rest);
    }
  }

  /** A whitespace run stops at the first character that is not
      whitespace. */
  lemma {:induction false} SpaceRunStops(q: string, i: nat)
    requires i < |q| && !IsSpace(q[i])
    ensures SpaceRun(q) <= i
  {
    if i > 0 && IsSpace(q[0]) {
      SpaceRunStops(q[1..], i - 1);
    }
  }

  /** No match of `\s*\([A-Z0-9.]+\)` starts inside a prefix that has no
      `(` and does not end in whitespace. */
  lemma NoTickerAt(p: string, s: string, q: string)
    requires |p| > 0 && '(' !in p && !IsSpace(p[|p| - 1])
    requires q == p + s
    ensures TickerEnd(q) == None
  {
    SpaceRunStops(q, |p| - 1);
    var w := SpaceRun(q);
    assert q[w..][0] == p[w];
  }

  /** Without a match at the start, `re.sub` keeps the first character. */
  lemma KeepsFirst(q: string)
    requires |q| > 0 && TickerEnd(q) == None
    ensures RemoveTickers(q) == [q[0]] + RemoveTickers(q[1..])
  {
  }

  /** `re.sub` leaves a prefix alone that has no `(` and does not end in
      whitespace. */
  lemma {:induction false} RemoveTickersKeeps(p: string, s: string)
    requires '(' !in p
    requires p == [] || !IsSpace(p[|p| - 1])
    ensures RemoveTickers(p + s) == p + RemoveTickers(s)
    decreases |p|
  {
    if |p| == 0 {
      assert p + s == s;
    } else {
      var q := p + s;
      assert q[1..] == p[1..] + s;
      NoTickerAt(p, s, q);
      KeepsFirst(q);
      RemoveTickersKeeps(p[1..], s);
      assert [p[0]] + p[1..] == p;
      AppendAssoc([p[0]], p[1..], RemoveTickers(s));
    }
  }

  /** ` (TICKER)` on its own is removed entirely. */
  lemma TickerSuffixRemoved(t: string, tail: string)
    requires |t| > 0 && forall k :: 0 <= k < |t| ==> TickerChar(t[k])
    requires tail == " (" + t + ")"
    ensures RemoveTickers(tail) == ""
  {
    assert tail[0] == ' ' && tail[1] == '(';
    assert tail[1..] == "(" + t + ")" + "";
    assert SpaceRun(tail) == 1 by {
      assert !IsSpace(tail[1..][0]);
    }
    GroupOf(t, "");
    assert TickerEnd(tail) == Some(|tail|);
    assert tail[|tail|..] == "";
  }

  /** A name followed by ` (TICKER)` loses exactly that suffix. */
  lemma RemoveTickerSuffix(name: string, t: string, s: string)
    requires '(' !in name && (name == [] || !IsSpace(name[|name| - 1]))
    requires |t| > 0 && forall k :: 0 <= k < |t| ==> TickerChar(t[k])
    requires s == name + " (" + t + ")"
    ensures RemoveTickers(s) == name
  {
    var tail := " (" + t + ")";
    assert s == name + tail;
    RemoveTickersKeeps(name, tail);
    TickerSuffixRemoved(t, tail);
    assert name + "" == name;
  }

  // ---------------------------------------------------------------------
  // Standardisation of one extracted company

  /** One company as `_extract_leaders_with_ai` returns it; the three
      metrics are its `key_metrics` object. */
  datatype Leader = Leader(company: Json, ticker: Json, marketCap: Json, rank: Json,
                           revenue: Json, marketShare: Json, growthRate: Json,
                           advantages: Json, performance: Json)

  /** `a or b`. */
  function Or(a: Json, b: Json): Json { if Truthy(a) then a else b }

  /** `d.get(key)`: `None` when absent. */
  function Field(fields: map<string, Json>, key: string): Json { Get(fields, key, JNull) }

  /** `c in j` for a one-character `c`; `None` where Python raises. */
  function HasChar(j: Json, c: char): Option<bool> {
    match j
    case JStr(s) => Some(c in s)
    case JArr(items) => Some(JStr([c]) in items)
    case JObj(fields) => Some([c] in fields)
    case _ => None
  }

  /** The company name and ticker after the ticker is taken from a name
      such as `Apple Inc. (AAPL)` when none was given; `None` where the
      membership test or the regular expression raises. */
  function SplitTicker(company: Json, ticker: Json): Option<(Json, Json)> {
    if Truthy(ticker) || !Truthy(company) then Some((company, ticker))
    else match (HasChar(company, '('), HasChar(company, ')'))
      case (Some(true), Some(true)) =>
        if !company.JStr? then None
        else (match FindTicker(company.s)
          case Some(t) => Some((JStr(Strip(RemoveTickers(company.s))), JStr(t)))
          case None => Some((company, ticker)))
      case (Some(_), Some(_)) => Some((company, ticker))
      case _ => None
  }

  /** A metric: the top-level value when truthy, else the one in
      `key_metrics`, which must then be an object. */
  function Metric(fields: map<string, Json>, metrics: Json, key: string): Option<Json> {
    if Truthy(Field(fields, key)) then Some(Field(fields, key))
    else if metrics.JObj? then Some(Get(metrics.fields, key, JStr("")))
    else None
  }

  /** The advantages, a single text made a one-element list. */
  function Advantages(fields: map<string, Json>): (a: Json)
    ensures !a.JStr?
  {
    var a := Or(Field(fields, "competitive_advantages"), Get(fields, "advantages", JArr([])));
    if a.JStr? then JArr([a]) else a
  }

  /** The standard record of the raw entry at `position`; `None` where the
      loop body raises, which ends the whole extraction. */
  function Standardize(raw: Json, position: nat): Option<Leader>
  {
    if !raw.JObj? then None
    else
      var f := raw.fields;
      var names := SplitTicker(Or(Field(f, "company"), Get(f, "company_name", JStr(""))),
                               Or(Field(f, "ticker"), Get(f, "symbol", JStr(""))));
      var metrics := Get(f, "key_metrics", JObj(map[]));
      var revenue := Metric(f, metrics, "revenue");
      var share := Metric(f, metrics, "market_share");
      var growth := Metric(f, metrics, "growth_rate");
      if names.None? || revenue.None? || share.None? || growth.None? then None
      else
        Some(Leader(names.value.0, names.value.1,
                    Or(Field(f, "market_cap"), Get(f, "marketCap", JStr(""))),
                    Get(f, "rank", JNum(position + 1)),
                    revenue.value, share.value, growth.value,
                    Advantages(f),
                    Or(Field(f, "recent_performance"), Get(f, "performance", JStr("")))))
  }

  /** The standard record: the rank defaults to the position plus one, the
      advantages are never a bare text, a truthy top-level metric or market
      capitalisation wins over the nested or alternative one, and a given
      ticker leaves the company name untouched. */
  lemma StandardizeFields(raw: Json, position: nat)
    ensures var r := Standardize(raw, position);
            (r.Some? ==> raw.JObj?)
            && (r.Some? ==> r.value.rank == (if "rank" in raw.fields then raw.fields["rank"] else JNum(position + 1)))
            && (r.Some? ==> !r.value.advantages.JStr?)
            && (r.Some? && Truthy(Field(raw.fields, "market_cap")) ==> r.value.marketCap == raw.fields["market_cap"])
            && (r.Some? && Truthy(Field(raw.fields, "revenue")) ==> r.value.revenue == raw.fields["revenue"])
            && (r.Some? && Truthy(Field(raw.fields, "market_share")) ==> r.value.marketShare == raw.fields["market_share"])
            && (r.Some? && Truthy(Field(raw.fields, "growth_rate")) ==> r.value.growthRate == raw.fields["growth_rate"])
            && (r.Some? && Truthy(Field(raw.fields, "ticker")) ==>
                  r.value.ticker == raw.fields["ticker"]
                  && r.value.company == Or(Field(raw.fields, "company"), Get(raw.fields, "company_name", JStr(""))))
  {
  }

  /** A name holding both brackets and a ticker, and no ticker given: the
      ticker is taken out of the name. */
  lemma SplitFound(s: string, t: string)
    requires '(' in s && ')' in s && FindTicker(s) == Some(t)
    ensures SplitTicker(JStr(s), JStr("")) == Some((JStr(Strip(RemoveTickers(s))), JStr(t)))
  {
  }

  /** A name followed by ` (TICKER)` and no ticker splits into the two. */
  lemma SplitTickerOfName(name: string, t: string, s: string)
    requires '(' !in name && name != [] && !IsSpace(name[0]) && !IsSpace(name[|name| - 1])
    requires |t| > 0 && forall k :: 0 <= k < |t| ==> TickerChar(t[k])
    requires s == name + " (" + t + ")"
    ensures SplitTicker(JStr(s), JStr("")) == Some((JStr(name), JStr(t)))
  {
    assert s[|name| + 1] == '(' && s[|s| - 1] == ')';
    assert s == (name + " ") + "(" + t + ")" + "";
    FindTickerAfter(name + " ", t, "");
    RemoveTickerSuffix(name, t, s);
    StripId(name);
    SplitFound(s, t);
  }

  /** `{"company": "Name (TICKER)"}` standardises to the name and the ticker
      split apart, the other fields at their defaults. */
  lemma TickerFromName(name: string, t: string, position: nat)
    requires '(' !in name && name != [] && !IsSpace(name[0]) && !IsSpace(name[|name| - 1])
    requires |t| > 0 && forall k :: 0 <= k < |t| ==> TickerChar(t[k])
    ensures Standardize(JObj(map["company" := JStr(name + " (" + t + ")")]), position)
            == Some(Leader(JStr(name), JStr(t), JStr(""), JNum(position + 1), JStr(""), JStr(""), JStr(""),
                           JArr([]), JStr("")))
  {
    var s := name + " (" + t + ")";
    SplitTickerOfName(name, t, s);
    CompanyOnly(map["company" := JStr(s)], s);
  }

  /** The fields of `{"company": s}` as the standardisation reads them. */
  lemma CompanyOnly(f: map<string, Json>, s: string)
    requires f == map["company" := JStr(s)]
    ensures Or(Field(f, "company"), Get(f, "company_name", JStr(""))) == JStr(s)
    ensures Or(Field(f, "ticker"), Get(f, "symbol", JStr(""))) == JStr("")
    ensures Get(f, "key_metrics", JObj(map[])) == JObj(map[])
    ensures Metric(f, JObj(map[]), "revenue") == Some(JStr(""))
    ensures Metric(f, JObj(map[]), "market_share") == Some(JStr(""))
    ensures Metric(f, JObj(map[]), "growth_rate") == Some(JStr(""))
    ensures Advantages(f) == JArr([])
  {
    assert "ticker" !in f && "symbol" !in f && "key_metrics" !in f;
    assert "revenue" !in f && "market_share" !in f && "growth_rate" !in f;
  }

  /** An object whose company is text (or missing) and whose `key_metrics`
      is an object (or missing) always standardises. */
  lemma ObjectStandardizes(fields: map<string, Json>, position: nat)
    requires var c := Or(Field(fields, "company"), Get(fields, "company_name", JStr(""))); c.JStr? || !Truthy(c)
    requires Get(fields, "key_metrics", JObj(map[])).JObj?
    ensures Standardize(JObj(fields), position).Some?
  {
  }

  /** Every raw entry standardised at its own position, or `None` when one
      of them raises. */
  function AllStandardized(raws: seq<Json>): Option<seq<Leader>> {
    if forall i :: 0 <= i < |raws| ==> Standardize(raws[i], i).Some? then
      Some(seq(|raws|, i requires 0 <= i < |raws| => Standardize(raws[i], i).value))
    else None
  }

  /** The standardisation loop: one record per raw entry, in order, the
      default rank being the entry's position plus one. */
  method StandardizeLeaders(raws: seq<Json>) returns (leaders: Option<seq<Leader>>)
    ensures leaders.Some? <==> forall i :: 0 <= i < |raws| ==> Standardize(raws[i], i).Some?
    ensures leaders.Some? ==> |leaders.value| == |raws|
    ensures leaders.Some? ==> forall i :: 0 <= i < |raws| ==> Standardize(raws[i], i) == Some(leaders.value[i])
    ensures leaders == AllStandardized(raws)
  {
    var acc: seq<Leader> := [];
    for i := 0 to |raws|
      invariant |acc| == i
      invariant forall j :: 0 <= j < i ==> Standardize(raws[j], j) == Some(acc[j])
    {
      var s := Standardize(raws[i], |acc|);
      if s.None? {
        return None;
      }
      acc := acc + [s.value];
    }
    assert acc == seq(|raws|, i requires 0 <= i < |raws| => Standardize(raws[i], i).value);
    return Some(acc);
  }

  /** The debug line slices the first company's name when it is truthy;
      that raises unless the name is text or a list. */
  predicate SampleShown(leaders: seq<Leader>) {
    leaders == [] || !Truthy(leaders[0].company) || leaders[0].company.JStr? || leaders[0].company.JArr?
  }

  /** The array rule: from the first `[` to the last `]`. */
  function ArrayCandidate(response: string): string {
    DeepAnalyst.Sliced(DeepAnalyst.FenceStripped(Strip(response)), '[', ']')
  }

  /** `_extract_leaders_with_ai` (with the slice of `content` made while
      its prompt is built): the standardised companies of the model's
      array, or none when anything raises. A parsed value that is not an
      array gives none too: `len` or `.get` raises on it, or it has no
      entries. */
  function ExtractedLeaders(content: Json, answer: Result<string>, parse: string -> Option<Json>): (r: seq<Leader>)
    ensures r != [] ==> (content.JStr? || content.JArr?) && answer.Ok?
  {
    if !(content.JStr? || content.JArr?) || answer.Err? then []
    else match parse(ArrayCandidate(answer.value))
      case Some(JArr(raws)) =>
        (match AllStandardized(raws)
         case Some(leaders) => if SampleShown(leaders) then leaders else []
         case None => [])
      case _ => []
  }

  // ---------------------------------------------------------------------
  // find_sector_leaders / _find_market_leaders

  /** What the search API and the language model answer for one market. */
  datatype Replies = Replies(search: Exchange, answer: Result<string>)

  /** The search for one market; an unknown market gets a generic query. */
  function MarketQuery(sector: string, market: string): string {
    if market == "A-share" then sector + " A股龙头股票 市值最大 行业领先 2024"
    else if market == "HK" then sector + " Hong Kong stock market leaders largest market cap 2024"
    else if market == "US" then sector + " sector US stock market leaders top companies by market cap revenue 2024"
    else sector + " " + market + " market leaders"
  }

  /** `_find_market_leaders`: a failed search gives no leaders. */
  function MarketLeaders(sector: string, market: string, r: Replies, parse: string -> Option<Json>): seq<Leader> {
    var result := Search(MarketQuery(sector, market), r.search);
    if !result.Found? then [] else ExtractedLeaders(result.content, r.answer, parse)
  }

  /** A search that does not answer gives no leaders. */
  lemma FailedSearchNoLeaders(sector: string, market: string, r: Replies, parse: string -> Option<Json>)
    requires !r.search.Answered?
    ensures MarketLeaders(sector, market, r, parse) == []
  {
    OnlyAnswersSucceed(MarketQuery(sector, market), r.search);
  }

  /** A model answer that cannot be had gives no leaders either. */
  lemma FailedAnswerNoLeaders(sector: string, market: string, r: Replies, parse: string -> Option<Json>)
    requires r.answer.Err?
    ensures MarketLeaders(sector, market, r, parse) == []
  {
  }

  /** The dictionary built by `d[keys[i]] = values[i]` for the first `n`
      positions in turn. */
  function Assigned<T>(keys: seq<string>, values: seq<T>, n: nat): map<string, T>
    requires n <= |keys| && n <= |values|
  {
    if n == 0 then map[] else Assigned(keys, values, n - 1)[keys[n - 1] := values[n - 1]]
  }

  /** Its keys are the first `n` keys. */
  lemma {:induction false} AssignedKeys<T>(keys: seq<string>, values: seq<T>, n: nat)
    requires n <= |keys| && n <= |values|
    ensures forall m :: m in Assigned(keys, values, n) <==> m in keys[..n]
  {
    if n > 0 {
      AssignedKeys(keys, values, n - 1);
      assert keys[..n] == keys[..n - 1] + [keys[n - 1]];
    }
  }

  /** A key repeated among the first `n` keeps the value of its last
      occurrence `j`. */
  lemma {:induction false} LastAssignmentWins<T>(keys: seq<string>, values: seq<T>, n: nat, j: nat)
    requires j < n <= |keys| && n <= |values|
    requires forall l :: j < l < n ==> keys[l] != keys[j]
    ensures keys[j] in Assigned(keys, values, n) && Assigned(keys, values, n)[keys[j]] == values[j]
  {
    if j < n - 1 {
      LastAssignmentWins(keys, values, n - 1, j);
    }
  }

  /** `_find_market_leaders(sector, market)` for the `i`-th market asked
      about, which meets `replies(i)`. */
  function MarketLookup(sector: string, replies: nat -> Replies, parse: string -> Option<Json>): (string, nat) -> seq<Leader> {
    (market: string, i: nat) => MarketLeaders(sector, market, replies(i), parse)
  }

  /** The leaders `lookup` gives for each market in turn. */
  function Answers(markets: seq<string>, lookup: (string, nat) -> seq<Leader>): (a: seq<seq<Leader>>)
    ensures |a| == |markets|
  {
    seq(|markets|, i requires 0 <= i < |markets| => lookup(markets[i], i))
  }

  /** The result of `find_sector_leaders`; its `status` is always
      `success`. */
  datatype SectorLeaders = SectorLeaders(sector: Json, markets: map<string, seq<Leader>>)

  /** `find_sector_leaders(sector, markets)`: the sector's name is spliced
      into each market's query, market `i` meets `replies(i)`. */
  function SectorLeadersOf(sector: Json, markets: seq<string>, replies: nat -> Replies,
                           parse: string -> Option<Json>, show: Json -> string): SectorLeaders
  {
    var lookup := MarketLookup(InformationCollector.Shown(sector, show), replies, parse);
    SectorLeaders(sector, Assigned(markets, Answers(markets, lookup), |markets|))
  }

  /** The `markets` object has one entry per market asked for. */
  lemma SectorLeadersKeys(sector: Json, markets: seq<string>, replies: nat -> Replies,
                          parse: string -> Option<Json>, show: Json -> string)
    ensures var r := SectorLeadersOf(sector, markets, replies, parse, show);
            r.sector == sector && forall m :: m in r.markets <==> m in markets
  {
    var lookup := MarketLookup(InformationCollector.Shown(sector, show), replies, parse);
    AssignedKeys(markets, Answers(markets, lookup), |markets|);
    assert markets[..|markets|] == markets;
  }

  /** A market asked for at position `j` and not again later holds the
      leaders found by its own search. */
  lemma SectorLeadersLast(sector: Json, markets: seq<string>, replies: nat -> Replies,
                          parse: string -> Option<Json>, show: Json -> string, j: nat)
    requires j < |markets|
    requires forall l :: j < l < |markets| ==> markets[l] != markets[j]
    ensures var r := SectorLeadersOf(sector, markets, replies, parse, show);
            markets[j] in r.markets
            && r.markets[markets[j]] == MarketLeaders(InformationCollector.Shown(sector, show), markets[j], replies(j), parse)
  {
    var lookup := MarketLookup(InformationCollector.Shown(sector, show), replies, parse);
    var answers := Answers(markets, lookup);
    LastAssignmentWins(markets, answers, |markets|, j);
    assert answers[j] == lookup(markets[j], j);
  }

  /** The loop of `find_sector_leaders`; `lookup` stands for
      `_find_market_leaders` with the sector fixed. */
  method FindSectorLeaders(sector: Json, markets: seq<string>, lookup: (string, nat) -> seq<Leader>)
    returns (r: SectorLeaders)
    ensures r == SectorLeaders(sector, Assigned(markets, Answers(markets, lookup), |markets|))
  {
    ghost var answers := Answers(markets, lookup);
    var results: map<string, seq<Leader>> := map[];
    for i := 0 to |markets|
      invariant results == Assigned(markets, answers, i)
    {
      var leaders := lookup(markets[i], i);
      results := results[markets[i] := leaders];
    }
    r := SectorLeaders(sector, results);
  }

  // ---------------------------------------------------------------------
  // generate_hotspot_report

  /** The markets `find_sector_leaders` is asked about. */
  const AllMarkets: seq<string> := ["A-share", "HK", "US"]

  /** A sector tagged with a known market is looked up there only; any
      other tag looks in all three. */
  function MarketsFor(market: Json): (ms: seq<string>)
    ensures market.JStr? && market.s in AllMarkets ==> ms == [market.s]
    ensures !(market.JStr? && market.s in AllMarkets) ==> ms == AllMarkets
  {
    if market == JStr("A-share") then ["A-share"]
    else if market == JStr("HK") then ["HK"]
    else if market == JStr("US") then ["US"]
    else AllMarkets
  }

  /** `hotspots.get("top_sectors", [])[:3]`; `None` where slicing raises.
      The characters of a text become one-character texts. */
  function TopSectors(j: Json): (top: Option<seq<Json>>)
    ensures top.Some? ==> |top.value| <= 3
    ensures j.JArr? ==> top == Some(j.items[..Min(3, |j.items|)])
  {
    match j
    case JArr(items) => Some(items[..Min(3, |items|)])
    case JStr(s) => Some(seq(Min(3, |s|), k requires 0 <= k < Min(3, |s|) => JStr([s[k]])))
    case _ => None
  }

  /** A value Python can use as a dictionary key. */
  predicate Hashable(j: Json) { !(j.JArr? || j.JObj?) }

  /** One hot sector's entry: its name and its leaders; `None` where the
      loop body raises on an entry that is not an object or on a sector
      name that cannot be a key. */
  function SectorEntry(info: Json, replies: nat -> Replies, parse: string -> Option<Json>,
                       show: Json -> string): (e: Option<(Json, SectorLeaders)>)
    ensures e.Some? ==> Hashable(e.value.0) && e.value.1.sector == e.value.0
  {
    if !info.JObj? then None
    else
      var name := Get(info.fields, "sector", JStr(""));
      if !Hashable(name) then None
      else Some((name, SectorLeadersOf(name, MarketsFor(Get(info.fields, "market", JStr(""))), replies, parse, show)))
  }

  // ---------------------------------------------------------------------
  // Python dictionaries keyed by parsed values

  /** The slot a key takes in a Python dictionary. `True == 1` and
      `False == 0`, and they hash alike, so a boolean shares the slot of its
      number; every other value has a slot of its own. */
  function DictKey(j: Json): Json {
    if j.JBool? then JNum(if j.b then 1 else 0) else j
  }

  /** The position of the first entry in `key`'s slot, or -1. */
  function SlotOf<V>(d: seq<(Json, V)>, key: Json): (i: int)
    ensures -1 <= i < |d|
    ensures i >= 0 ==> DictKey(d[i].0) == DictKey(key)
    ensures forall k :: 0 <= k < |d| && (i < 0 || k < i) ==> DictKey(d[k].0) != DictKey(key)
    decreases |d|
  {
    if |d| == 0 then -1
    else if DictKey(d[0].0) == DictKey(key) then 0
    else
      var i := SlotOf(d[1..], key);
      if i < 0 then -1 else i + 1
  }

  /** No two entries share a slot, as in every Python dictionary. */
  predicate DistinctSlots<V>(d: seq<(Json, V)>) {
    forall i, j :: 0 <= i < j < |d| ==> DictKey(d[i].0) != DictKey(d[j].0)
  }

  /** `d[key]`: the value in `key`'s slot; `None` where Python raises
      `KeyError`. */
  function Lookup<V>(d: seq<(Json, V)>, key: Json): (v: Option<V>)
    ensures v.None? <==> forall k :: 0 <= k < |d| ==> DictKey(d[k].0) != DictKey(key)
  {
    var i := SlotOf(d, key);
    if i < 0 then None else Some(d[i].1)
  }

  /** `d[key] = v` on a dictionary given by its entries in insertion order:
      a key whose slot is taken overwrites the value and leaves the first
      key and the order alone; a new slot is added at the end. */
  function Assign<V>(d: seq<(Json, V)>, key: Json, v: V): (r: seq<(Json, V)>)
    ensures Lookup(d, key).Some? ==> |r| == |d| && forall i :: 0 <= i < |d| ==> r[i].0 == d[i].0
    ensures Lookup(d, key).None? ==> r == d + [(key, v)]
  {
    var i := SlotOf(d, key);
    if i < 0 then d + [(key, v)] else d[i := (d[i].0, v)]
  }

  /** The first entry in a slot is determined by the slot alone. */
  lemma SlotUnique<V>(d: seq<(Json, V)>, key: Json, i: int)
    requires -1 <= i < |d| && (i >= 0 ==> DictKey(d[i].0) == DictKey(key))
    requires forall k :: 0 <= k < |d| && (i < 0 || k < i) ==> DictKey(d[k].0) != DictKey(key)
    ensures SlotOf(d, key) == i
  {
  }

  /** Reading after writing: the slot written holds the new value, every
      other slot what it held before. */
  lemma AssignGet<V>(d: seq<(Json, V)>, key: Json, v: V, k: Json)
    ensures Lookup(Assign(d, key, v), k) == if DictKey(k) == DictKey(key) then Some(v) else Lookup(d, k)
  {
    var r := Assign(d, key, v);
    var i := SlotOf(d, key);
    var j := SlotOf(d, k);
    if i < 0 {
      if j >= 0 {
        SlotUnique(r, k, j);
      } else if DictKey(k) == DictKey(key) {
        SlotUnique(r, k, |d|);
      } else {
        SlotUnique(r, k, -1);
      }
    } else {
      SlotUnique(r, k, j);
      if DictKey(k) == DictKey(key) {
        SlotUnique(d, k, i);
      }
    }
  }

  /** Writing keeps the slots distinct. */
  lemma AssignDistinct<V>(d: seq<(Json, V)>, key: Json, v: V)
    requires DistinctSlots(d)
    ensures DistinctSlots(Assign(d, key, v))
  {
  }

  /** The dictionary built by `d[k] = v` for each of the first `n` entries
      `(k, v)` in turn; `None` from the first entry that raises on. */
  function Collected<V>(entries: seq<Option<(Json, V)>>, n: nat): Option<seq<(Json, V)>>
    requires n <= |entries|
  {
    if n == 0 then Some([])
    else match Collected(entries, n - 1)
      case None => None
      case Some(acc) =>
        match entries[n - 1]
        case None => None
        case Some(e) => Some(Assign(acc, e.0, e.1))
  }

  /** The value of the last of the first `n` entries in `key`'s slot. */
  function LastWrite<V>(entries: seq<Option<(Json, V)>>, n: nat, key: Json): Option<V>
    requires n <= |entries|
  {
    if n == 0 then None
    else if entries[n - 1].Some? && DictKey(entries[n - 1].value.0) == DictKey(key) then Some(entries[n - 1].value.1)
    else LastWrite(entries, n - 1, key)
  }

  /** The key of the first of the first `n` entries in `key`'s slot. */
  function FirstWrite<V>(entries: seq<Option<(Json, V)>>, n: nat, key: Json): Option<Json>
    requires n <= |entries|
  {
    if n == 0 then None
    else
      var f := FirstWrite(entries, n - 1, key);
      if f.None? && entries[n - 1].Some? && DictKey(entries[n - 1].value.0) == DictKey(key) then Some(entries[n - 1].value.0)
      else f
  }

  /** Once an entry has raised, the dictionary is never had. */
  lemma {:induction false} RaisedStays<V>(entries: seq<Option<(Json, V)>>, k: nat, n: nat)
    requires k <= n <= |entries|
    requires Collected(entries, k) == None
    ensures Collected(entries, n) == None
    decreases n - k
  {
    if k < n {
      RaisedStays(entries, k + 1, n);
    }
  }

  /** The dictionary has no more keys than entries, and no two of its keys
      share a slot. */
  lemma {:induction false} CollectedSize<V>(entries: seq<Option<(Json, V)>>, n: nat)
    requires n <= |entries|
    requires Collected(entries, n).Some?
    ensures |Collected(entries, n).value| <= n
    ensures DistinctSlots(Collected(entries, n).value)
  {
    if n > 0 {
      CollectedSize(entries, n - 1);
      var acc := Collected(entries, n - 1).value;
      var e := entries[n - 1].value;
      AssignDistinct(acc, e.0, e.1);
    }
  }

  /** Every slot holds the value written to it last: `d[k] = v` overwrites. */
  lemma {:induction false} CollectedFrom<V>(entries: seq<Option<(Json, V)>>, n: nat, key: Json)
    requires n <= |entries|
    requires Collected(entries, n).Some?
    ensures Lookup(Collected(entries, n).value, key) == LastWrite(entries, n, key)
  {
    if n > 0 {
      CollectedFrom(entries, n - 1, key);
      var e := entries[n - 1].value;
      AssignGet(Collected(entries, n - 1).value, e.0, e.1, key);
    }
  }

  /** Every key of the dictionary is the first key written to its slot:
      a later `d[k] = v` in the same slot keeps the stored key. */
  lemma {:induction false} CollectedKeys<V>(entries: seq<Option<(Json, V)>>, n: nat, i: nat)
    requires n <= |entries|
    requires Collected(entries, n).Some? && i < |Collected(entries, n).value|
    ensures FirstWrite(entries, n, Collected(entries, n).value[i].0) == Some(Collected(entries, n).value[i].0)
  {
    var d := Collected(entries, n).value;
    var acc := Collected(entries, n - 1).value;
    var e := entries[n - 1].value;
    if i < |acc| {
      assert d[i].0 == acc[i].0;
      CollectedKeys(entries, n - 1, i);
    } else {
      assert Lookup(acc, e.0).None? && d[i].0 == e.0;
      CollectedFrom(entries, n - 1, e.0);
      LastWriteNone(entries, n - 1, e.0);
    }
  }

  /** No value was written to a slot exactly when no key was. */
  lemma {:induction false} LastWriteNone<V>(entries: seq<Option<(Json, V)>>, n: nat, key: Json)
    requires n <= |entries|
    ensures LastWrite(entries, n, key).None? <==> FirstWrite(entries, n, key).None?
  {
    if n > 0 {
      LastWriteNone(entries, n - 1, key);
    }
  }

  /** A value written last came from an entry in that slot. */
  lemma {:induction false} LastWriteFrom<V>(entries: seq<Option<(Json, V)>>, n: nat, key: Json)
    requires n <= |entries| && LastWrite(entries, n, key).Some?
    ensures exists k :: 0 <= k < n && entries[k].Some? && DictKey(entries[k].value.0) == DictKey(key)
                        && entries[k].value.1 == LastWrite(entries, n, key).value
  {
    if !(entries[n - 1].Some? && DictKey(entries[n - 1].value.0) == DictKey(key)) {
      LastWriteFrom(entries, n - 1, key);
    }
  }

  /** `d[True] = a` then `d[1] = b` leaves one entry: the key `True` with
      the value `b`. */
  lemma TrueAndOneShareSlot<V>(a: V, b: V)
    ensures Collected([Some((JBool(true), a)), Some((JNum(1), b))], 2) == Some([(JBool(true), b)])
  {
    var entries := [Some((JBool(true), a)), Some((JNum(1), b))];
    assert Collected(entries, 0) == Some([]);
    assert Assign([], JBool(true), a) == [(JBool(true), a)];
    assert Collected(entries, 1) == Some([(JBool(true), a)]);
    assert DictKey(JBool(true)) == DictKey(JNum(1));
    assert SlotOf([(JBool(true), a)], JNum(1)) == 0;
    assert Assign([(JBool(true), a)], JNum(1), b) == [(JBool(true), b)];
  }

  /** The hot sectors' entries, sector `k` meeting `replies(k)`. */
  function SectorEntries(top: seq<Json>, replies: nat -> nat -> Replies, parse: string -> Option<Json>,
                         show: Json -> string): (es: seq<Option<(Json, SectorLeaders)>>)
    ensures |es| == |top|
    ensures forall k :: 0 <= k < |top| ==> es[k] == SectorEntry(top[k], replies(k), parse, show)
  {
    seq(|top|, k requires 0 <= k < |top| => SectorEntry(top[k], replies(k), parse, show))
  }

  /** What `generate_hotspot_report` returns (the Markdown report apart), or
      that it raised; the leaders are the dictionary's entries in insertion
      order. */
  datatype HotspotReport =
    | HotspotFailed(error: string)
    | HotspotRaised
    | HotspotDone(hotspots: map<string, Json>, sectorLeaders: seq<(Json, SectorLeaders)>)

  const HotspotError := "热点分析失败"

  /** What `generate_hotspot_report` comes to for the analysis `hotspots`. */
  function HotspotOutcome(hotspots: map<string, Json>, replies: nat -> nat -> Replies,
                          parse: string -> Option<Json>, show: Json -> string): HotspotReport
  {
    if Get(hotspots, "status", JNull) != JStr("success") then HotspotFailed(HotspotError)
    else match TopSectors(Get(hotspots, "top_sectors", JArr([])))
      case None => HotspotRaised
      case Some(top) =>
        match Collected(SectorEntries(top, replies, parse, show), |top|)
        case None => HotspotRaised
        case Some(m) => HotspotDone(hotspots, m)
  }

  /** `generate_hotspot_report` after the analysis `hotspots`: the hot
      sectors' leaders, looked up one sector after the other. */
  method ReportFor(hotspots: map<string, Json>, replies: nat -> nat -> Replies,
                   parse: string -> Option<Json>, show: Json -> string) returns (r: HotspotReport)
    ensures r == HotspotOutcome(hotspots, replies, parse, show)
  {
    if Get(hotspots, "status", JNull) != JStr("success") {
      return HotspotFailed(HotspotError);
    }
    var sliced := TopSectors(Get(hotspots, "top_sectors", JArr([])));
    if sliced.None? {
      return HotspotRaised;
    }
    var top := sliced.value;
    ghost var entries := SectorEntries(top, replies, parse, show);
    var leaders: seq<(Json, SectorLeaders)> := [];
    for k := 0 to |top|
      invariant Collected(entries, k) == Some(leaders)
    {
      var info := top[k];
      assert entries[k] == SectorEntry(info, replies(k), parse, show);
      if !info.JObj? {
        assert Collected(entries, k + 1) == None;
        RaisedStays(entries, k + 1, |top|);
        return HotspotRaised;
      }
      var name := Get(info.fields, "sector", JStr(""));
      var lookup := MarketLookup(InformationCollector.Shown(name, show), replies(k), parse);
      var found := FindSectorLeaders(name, MarketsFor(Get(info.fields, "market", JStr(""))), lookup);
      if !Hashable(name) {
        assert Collected(entries, k + 1) == None;
        RaisedStays(entries, k + 1, |top|);
        return HotspotRaised;
      }
      assert entries[k] == Some((name, found));
      leaders := Assign(leaders, name, found);
    }
    return HotspotDone(hotspots, leaders);
  }

  /** `generate_hotspot_report`, the hot-spot analysis run for `today`. */
  method GenerateHotspotReport(exchange: nat -> Exchange, ai: string -> Result<string>,
                               replies: nat -> nat -> Replies, parse: string -> Option<Json>,
                               show: Json -> string) returns (r: HotspotReport)
    ensures r == HotspotOutcome(AnalyzeMarketHotspots("today", exchange, ai, parse, show), replies, parse, show)
  {
    var hotspots := AnalyzeMarketHotspots("today", exchange, ai, parse, show);
    r := ReportFor(hotspots, replies, parse, show);
  }

  /** A report covers at most three sectors in distinct slots; each holds
      the leaders of a sector whose name is equal, as Python compares keys,
      to the key it is stored under. */
  lemma SectorsOfReport(hotspots: map<string, Json>, replies: nat -> nat -> Replies,
                        parse: string -> Option<Json>, show: Json -> string)
    requires HotspotOutcome(hotspots, replies, parse, show).HotspotDone?
    ensures |HotspotOutcome(hotspots, replies, parse, show).sectorLeaders| <= 3
    ensures DistinctSlots(HotspotOutcome(hotspots, replies, parse, show).sectorLeaders)
    ensures forall i :: 0 <= i < |HotspotOutcome(hotspots, replies, parse, show).sectorLeaders| ==>
              var e := HotspotOutcome(hotspots, replies, parse, show).sectorLeaders[i];
              Hashable(e.0) && DictKey(e.1.sector) == DictKey(e.0)
  {
    var top := TopSectors(Get(hotspots, "top_sectors", JArr([]))).value;
    var entries := SectorEntries(top, replies, parse, show);
    var m := Collected(entries, |top|).value;
    assert HotspotOutcome(hotspots, replies, parse, show).sectorLeaders == m;
    CollectedSize(entries, |top|);
    forall i | 0 <= i < |m|
      ensures Hashable(m[i].0) && DictKey(m[i].1.sector) == DictKey(m[i].0)
    {
      SlotUnique(m, m[i].0, i);
      CollectedFrom(entries, |top|, m[i].0);
      LastWriteFrom(entries, |top|, m[i].0);
    }
  }

  /** When the language model's analysis cannot be had, the report is the
      analysis error. */
  lemma AnalysisFailureStops(exchange: nat -> Exchange, ai: string -> Result<string>,
                             replies: nat -> nat -> Replies, parse: string -> Option<Json>, show: Json -> string)
    requires var q := HotspotQueries("today"); ai(MarketData(q, BatchSearch(q, exchange), show)).Err?
    ensures HotspotOutcome(AnalyzeMarketHotspots("today", exchange, ai, parse, show), replies, parse, show)
            == HotspotFailed(HotspotError)
  {
  }
}
