/** The small computations of the web front end: how a saved report is
    classified and counted, how the report list is filtered and paged, the
    heat level of a sector, how the batch and comparison inputs become
    company lists, and the session's analysis history. The page widgets,
    file times and sizes are not part of this model. */
module WebApp {
  import opened Text
  import Seqs

  // ---------------------------------------------------------------------
  // Paths

  /** `os.path.basename`: what follows the last `/`. */
  function BaseName(path: string): (r: string)
    ensures '/' !in r && |r| <= |path|
    decreases |path|
  {
    if |path| == 0 || path[|path| - 1] == '/' then ""
    else BaseName(path[..|path| - 1]) + [path[|path| - 1]]
  }

  /** The base name of a file inside a directory is the file's own name. */
  lemma {:induction false} BaseNameOfPath(dir: string, name: string)
    requires '/' !in name
    ensures BaseName(dir + "/" + name) == name
    decreases |name|
  {
    if |name| > 0 {
      var n := |name| - 1;
      BaseNameOfPath(dir, name[..n]);
      BaseNameSnoc(dir + "/" + name[..n], name[n]);
      assert dir + "/" + name == (dir + "/" + name[..n]) + [name[n]];
      Seqs.Snoc(name);
    } else {
      BaseNameSlash(dir);
      assert dir + "/" + name == dir + "/";
    }
  }

  lemma BaseNameSnoc(p: string, c: char)
    requires c != '/'
    ensures BaseName(p + [c]) == BaseName(p) + [c]
  {
    assert (p + [c])[..|p|] == p;
  }

  lemma BaseNameSlash(p: string)
    ensures BaseName(p + "/") == ""
  {
  }

  // ---------------------------------------------------------------------
  // Classification

  datatype ReportKind = Hotspot | Comparison | Enhanced | Pdf | Valuation

  /** The label the page shows and filters by. */
  function Label(k: ReportKind): string {
    match k
    case Hotspot => "🔥 行业热点"
    case Comparison => "🔄 比较分析"
    case Enhanced => "📊 增强报告"
    case Pdf => "📄 PDF报告"
    case Valuation => "📈 估值报告"
  }

  /** Distinct kinds have distinct labels. */
  lemma LabelInjective(a: ReportKind, b: ReportKind)
    requires Label(a) == Label(b)
    ensures a == b
  {
    assert Label(a)[0] == Label(b)[0];
  }

  /** `classify_report`: keywords in the lower-cased base name, checked in
      order hotspot, comparison, enhanced; then the `.pdf` ending of the
      whole path, compared case-sensitively; else a valuation report. */
  function Classify(filename: string): ReportKind {
    KindOf(Lower(BaseName(filename)), EndsWith(filename, ".pdf"))
  }

  /** The kind of a report given its lower-cased base name and whether its
      path ends in `.pdf`. */
  function KindOf(b: string, pdf: bool): ReportKind {
    if Contains(b, "hotspot") || Contains(b, "sector_hotspot") then Hotspot
    else if Contains(b, "comparison") then Comparison
    else if Contains(b, "enhanced") then Enhanced
    else if pdf then Pdf
    else Valuation
  }

  /** A text containing `a + b` contains `b`. */
  lemma ContainsTail(s: string, a: string, b: string)
    requires Contains(s, a + b)
    ensures Contains(s, b)
  {
    var i := ContainsWitness(s, a + b);
    assert s[i + |a|..i + |a| + |b|] == (a + b)[|a|..];
    ContainsAt(s, b, i + |a|);
  }

  /** The `sector_hotspot` test adds nothing: such a name already contains
      `hotspot`. */
  lemma HotspotIff(filename: string)
    ensures Classify(filename) == Hotspot <==> Contains(Lower(BaseName(filename)), "hotspot")
  {
    var b := Lower(BaseName(filename));
    if Contains(b, "sector_hotspot") {
      assert "sector_hotspot" == "sector_" + "hotspot";
      ContainsTail(b, "sector_", "hotspot");
    }
  }

  /** A PDF file is labelled as one only when no keyword matched first. */
  lemma PdfPrecedence(filename: string)
    ensures Classify(filename) == Pdf <==>
              (EndsWith(filename, ".pdf")
               && !Contains(Lower(BaseName(filename)), "hotspot")
               && !Contains(Lower(BaseName(filename)), "comparison")
               && !Contains(Lower(BaseName(filename)), "enhanced"))
  {
    HotspotIff(filename);
  }

  /** The extension test is case-sensitive: `X.PDF` is no PDF report. */
  lemma UpperPdfNotPdf(filename: string)
    requires EndsWith(filename, ".PDF")
    ensures Classify(filename) != Pdf
  {
    assert filename[|filename| - 1] == 'F';
  }

  /** `.pdf` ends a file's path exactly when it ends the file's name. */
  lemma EndsWithPdfOfPath(dir: string, name: string)
    requires '/' !in name
    ensures EndsWith(dir + "/" + name, ".pdf") <==> EndsWith(name, ".pdf")
  {
    var path := dir + "/" + name;
    if |name| >= 4 {
      assert path[|path| - 4..] == name[|name| - 4..];
    } else {
      assert path[|path| - |name| - 1] == '/';
      assert !EndsWith(name, ".pdf");
    }
  }

  /** The directory a report lies in does not affect its kind. */
  lemma ClassifyIgnoresDirectory(dir: string, name: string)
    requires '/' !in name
    ensures Classify(dir + "/" + name) == Classify(name)
  {
    BaseNameOfPath(dir, name);
    NoSlashBaseName(name);
    EndsWithPdfOfPath(dir, name);
  }

  /** A name without `/` is its own base name. */
  lemma {:induction false} NoSlashBaseName(name: string)
    requires '/' !in name
    ensures BaseName(name) == name
    decreases |name|
  {
    if |name| > 0 {
      var n := |name| - 1;
      NoSlashBaseName(name[..n]);
      assert name == name[..n] + [name[n]];
    }
  }

  // ---------------------------------------------------------------------
  // Counting the kinds

  /** How many of the reports `classify` puts under kind `k`. */
  function CountOf(reports: seq<string>, classify: string -> ReportKind, k: ReportKind): (n: nat)
    ensures n <= |reports|
  {
    if |reports| == 0 then 0
    else CountOf(reports[..|reports| - 1], classify, k) + (if classify(reports[|reports| - 1]) == k then 1 else 0)
  }

  /** `dict.get(k, 0)`. */
  function Get(counts: map<ReportKind, nat>, k: ReportKind): nat {
    if k in counts then counts[k] else 0
  }

  lemma CountOfStep(reports: seq<string>, i: nat, k: ReportKind)
    requires i < |reports|
    ensures CountOf(reports[..i + 1], Classify, k) == CountOf(reports[..i], Classify, k) + (if Classify(reports[i]) == k then 1 else 0)
  {
    assert reports[..i + 1][..i] == reports[..i];
  }

  /** Lines 877-880: one count per kind that occurs. */
  method CountReportTypes(reports: seq<string>) returns (counts: map<ReportKind, nat>)
    ensures forall k :: Get(counts, k) == CountOf(reports, Classify, k)
    ensures forall k :: k in counts <==> CountOf(reports, Classify, k) > 0
  {
    counts := map[];
    for i := 0 to |reports|
      invariant forall k :: Get(counts, k) == CountOf(reports[..i], Classify, k)
      invariant forall k :: k in counts <==> CountOf(reports[..i], Classify, k) > 0
    {
      var t := Classify(reports[i]);
      forall k
        ensures CountOf(reports[..i + 1], Classify, k) == CountOf(reports[..i], Classify, k) + (if t == k then 1 else 0)
      {
        CountOfStep(reports, i, k);
      }
      counts := counts[t := Get(counts, t) + 1];
    }
    assert reports[..|reports|] == reports;
  }

  /** Every report is counted under exactly one kind. */
  lemma {:induction false} CountsAddUp(reports: seq<string>, classify: string -> ReportKind)
    ensures CountOf(reports, classify, Hotspot) + CountOf(reports, classify, Comparison)
            + CountOf(reports, classify, Enhanced) + CountOf(reports, classify, Pdf)
            + CountOf(reports, classify, Valuation) == |reports|
  {
    if |reports| > 0 {
      CountsAddUp(reports[..|reports| - 1], classify);
    }
  }

  // ---------------------------------------------------------------------
  // Filtering

  /** The elements of `xs` that `keep` accepts, in order. */
  function Filter<T>(xs: seq<T>, keep: T -> bool): (r: seq<T>)
    ensures |r| <= |xs|
  {
    if |xs| == 0 then []
    else Filter(xs[..|xs| - 1], keep) + (if keep(xs[|xs| - 1]) then [xs[|xs| - 1]] else [])
  }

  lemma {:induction false} FilterMembers<T>(xs: seq<T>, keep: T -> bool)
    ensures forall x :: x in Filter(xs, keep) <==> x in xs && keep(x)
  {
    if |xs| > 0 {
      FilterMembers(xs[..|xs| - 1], keep);
      assert xs == xs[..|xs| - 1] + [xs[|xs| - 1]];
    }
  }

  /** Filtering keeps the order: the filtered parts of two lists follow
      each other. */
  lemma {:induction false} FilterAppend<T>(a: seq<T>, b: seq<T>, keep: T -> bool)
    ensures Filter(a + b, keep) == Filter(a, keep) + Filter(b, keep)
    decreases |b|
  {
    if |b| > 0 {
      var n := |b| - 1;
      assert (a + b)[..|a + b| - 1] == a + b[..n];
      FilterAppend(a, b[..n], keep);
    } else {
      assert a + b == a;
    }
  }

  /** Filtering by one test and then another gives the same list as the
      other way round. */
  lemma {:induction false} FilterCommute<T>(xs: seq<T>, p: T -> bool, q: T -> bool)
    ensures Filter(Filter(xs, p), q) == Filter(Filter(xs, q), p)
  {
    if |xs| > 0 {
      var init := xs[..|xs| - 1];
      var x := xs[|xs| - 1];
      FilterCommute(init, p, q);
      FilterAppend(Filter(init, p), if p(x) then [x] else [], q);
      FilterAppend(Filter(init, q), if q(x) then [x] else [], p);
      assert [x][..0] == [];
    }
  }

  const AllTypes := "全部"

  /** The type filter's test. */
  predicate OfType(x: string, filterType: string) {
    Label(Classify(x)) == filterType
  }

  /** The search's test: the search text, lower-cased, inside the
      lower-cased base name. */
  predicate Matches(x: string, term: string) {
    Contains(Lower(BaseName(x)), Lower(term))
  }

  /** Lines 913-919: the type filter unless `全部` is chosen, then the
      case-insensitive search in the base names unless the search is empty. */
  function Filtered(reports: seq<string>, filterType: string, term: string): seq<string> {
    var byType := if filterType != AllTypes then Filter(reports, (x: string) => OfType(x, filterType)) else reports;
    if term != "" then Filter(byType, (x: string) => Matches(x, term)) else byType
  }

  /** A report is listed exactly when it passes both tests that apply. */
  lemma FilteredMembers(reports: seq<string>, filterType: string, term: string)
    ensures forall x :: x in Filtered(reports, filterType, term) <==>
              x in reports && (filterType == AllTypes || OfType(x, filterType)) && (term == "" || Matches(x, term))
  {
    var byType := if filterType != AllTypes then Filter(reports, (x: string) => OfType(x, filterType)) else reports;
    FilterMembers(reports, (x: string) => OfType(x, filterType));
    FilterMembers(byType, (x: string) => Matches(x, term));
  }

  /** Choosing a kind's label keeps exactly the reports of that kind. */
  lemma FilterByKind(reports: seq<string>, k: ReportKind)
    ensures forall x :: x in Filtered(reports, Label(k), "") <==> x in reports && Classify(x) == k
  {
    FilteredMembers(reports, Label(k), "");
    assert Label(k) != AllTypes by {
      assert Label(k)[0] != AllTypes[0];
    }
    forall x | OfType(x, Label(k))
      ensures Classify(x) == k
    {
      LabelInjective(Classify(x), k);
    }
  }

  // ---------------------------------------------------------------------
  // Pagination

  const PerPage := 10

  /** Line 926, for a non-empty list. */
  function TotalPages(n: nat): (pages: nat)
    requires n >= 1
    ensures pages >= 1 && (pages - 1) * PerPage < n <= pages * PerPage
  {
    (n - 1) / PerPage + 1
  }

  function PageStart(p: nat): nat
    requires p >= 1
  {
    (p - 1) * PerPage
  }

  function PageEnd(n: nat, p: nat): nat
    requires p >= 1
  {
    if PageStart(p) + PerPage < n then PageStart(p) + PerPage else n
  }

  /** Lines 939-941: the reports page `p` shows, at most ten and at least
      one. */
  function Page<T>(xs: seq<T>, p: nat): (r: seq<T>)
    requires |xs| >= 1 && 1 <= p <= TotalPages(|xs|)
    ensures PageStart(p) < PageEnd(|xs|, p) <= |xs|
    ensures 1 <= |r| <= PerPage && r == xs[PageStart(p)..PageEnd(|xs|, p)]
  {
    xs[PageStart(p)..PageEnd(|xs|, p)]
  }

  /** Pages 1 to `k`, one after another. */
  function Pages<T>(xs: seq<T>, k: nat): seq<T>
    requires |xs| >= 1 && k <= TotalPages(|xs|)
  {
    if k == 0 then [] else Pages(xs, k - 1) + Page(xs, k)
  }

  lemma {:induction false} PagesPrefix<T>(xs: seq<T>, k: nat)
    requires |xs| >= 1 && k <= TotalPages(|xs|)
    ensures Pages(xs, k) == xs[..if k * PerPage < |xs| then k * PerPage else |xs|]
  {
    if k > 0 {
      PagesPrefix(xs, k - 1);
      assert PageStart(k) == (k - 1) * PerPage;
      assert (k - 1) * PerPage < |xs|;
      var e := PageEnd(|xs|, k);
      assert xs[..PageStart(k)] + xs[PageStart(k)..e] == xs[..e];
    }
  }

  /** The pages partition the list: together, in order, they are the whole
      list. */
  lemma PagesPartition<T>(xs: seq<T>)
    requires |xs| >= 1
    ensures Pages(xs, TotalPages(|xs|)) == xs
  {
    PagesPrefix(xs, TotalPages(|xs|));
    assert xs[..|xs|] == xs;
  }

  /** Line 944: the number shown beside the `i`-th report of page `p`. */
  function ItemNumber(p: nat, i: nat): nat
    requires p >= 1
  {
    PageStart(p) + 1 + i
  }

  /** The report at index `g` is on exactly one page, `g / 10 + 1`, where
      it is numbered `g + 1`. */
  lemma PageOfIndex(n: nat, g: nat, p: nat)
    requires g < n && 1 <= p <= TotalPages(n)
    ensures PageStart(p) <= g < PageEnd(n, p) <==> p == g / PerPage + 1
    ensures p == g / PerPage + 1 ==> ItemNumber(p, g - PageStart(p)) == g + 1
  {
  }

  // ---------------------------------------------------------------------
  // Heat levels

  datatype Heat = Extreme | Hot | Active

  /** Lines 474-482. */
  function HeatOf(score: int): Heat {
    if score >= 80 then Extreme else if score >= 60 then Hot else Active
  }

  function HeatLabel(h: Heat): string {
    match h
    case Extreme => "极度火热"
    case Hot => "热门板块"
    case Active => "活跃板块"
  }

  function Rank(h: Heat): nat {
    match h
    case Extreme => 2
    case Hot => 1
    case Active => 0
  }

  /** A higher score never gets a lower level, and the thresholds are 60
      and 80. */
  lemma HeatMonotone(a: int, b: int)
    requires a <= b
    ensures Rank(HeatOf(a)) <= Rank(HeatOf(b))
    ensures HeatOf(a) == Extreme <==> a >= 80
    ensures HeatOf(a) == Active <==> a < 60
  {
  }

  // ---------------------------------------------------------------------
  // Inputs

  /** The stripped non-blank lines, in order. */
  function NonBlank(lines: seq<string>): (r: seq<string>)
    ensures |r| <= |lines|
  {
    if |lines| == 0 then []
    else NonBlank(lines[..|lines| - 1]) + (if Strip(lines[|lines| - 1]) != "" then [Strip(lines[|lines| - 1])] else [])
  }

  /** Line 731: one company per non-blank line of the batch input. */
  function BatchCompanies(input: string): seq<string> {
    NonBlank(Split(input, '\n'))
  }

  /** A company name as the batch yields it: non-empty, stripped and on one
      line. */
  predicate CleanName(s: string) {
    s != "" && Strip(s) == s && '\n' !in s
  }

  predicate AllClean(names: seq<string>) {
    forall i :: 0 <= i < |names| ==> CleanName(names[i])
  }

  lemma AllCleanAppend(a: seq<string>, b: seq<string>)
    requires AllClean(a) && AllClean(b)
    ensures AllClean(a + b)
  {
    forall i | 0 <= i < |a + b|
      ensures CleanName((a + b)[i])
    {
      if i < |a| {
        assert (a + b)[i] == a[i];
      } else {
        assert (a + b)[i] == b[i - |a|];
      }
    }
  }

  lemma StrippedLineClean(line: string)
    requires '\n' !in line && Strip(line) != ""
    ensures CleanName(Strip(line))
  {
    StripExcludes(line, '\n');
    StripId(Strip(line));
  }

  lemma {:induction false} NonBlankClean(lines: seq<string>)
    requires forall k :: 0 <= k < |lines| ==> '\n' !in lines[k]
    ensures AllClean(NonBlank(lines))
  {
    if |lines| > 0 {
      var n := |lines| - 1;
      NonBlankClean(lines[..n]);
      var t := if Strip(lines[n]) != "" then [Strip(lines[n])] else [];
      if Strip(lines[n]) != "" {
        StrippedLineClean(lines[n]);
      }
      assert AllClean(t);
      AllCleanAppend(NonBlank(lines[..n]), t);
    }
  }

  /** Each company of the batch is non-empty, stripped and a single line. */
  lemma BatchClean(input: string)
    ensures AllClean(BatchCompanies(input))
  {
    NonBlankClean(Split(input, '\n'));
  }

  lemma {:induction false} NonBlankId(names: seq<string>)
    requires AllClean(names)
    ensures NonBlank(names) == names
  {
    if |names| > 0 {
      var n := |names| - 1;
      CleanPrefix(names, n);
      NonBlankId(names[..n]);
      NonBlankKeepsLast(names);
      Seqs.Snoc(names);
    }
  }

  lemma CleanPrefix(names: seq<string>, n: nat)
    requires AllClean(names) && n <= |names|
    ensures AllClean(names[..n])
  {
    forall i | 0 <= i < n
      ensures CleanName(names[..n][i])
    {
      assert names[..n][i] == names[i];
    }
  }

  lemma NonBlankKeepsLast(names: seq<string>)
    requires |names| > 0 && CleanName(names[|names| - 1])
    ensures NonBlank(names) == NonBlank(names[..|names| - 1]) + [names[|names| - 1]]
  {
  }

  /** Names written one per line come back as they were. */
  lemma BatchOfLines(names: seq<string>)
    requires AllClean(names)
    ensures BatchCompanies(Join(names, "\n")) == names
  {
    if |names| == 0 {
      assert Split("", '\n') == [""];
      assert Strip("") == "";
    } else {
      SplitJoin(names, '\n');
      NonBlankId(names);
    }
  }

  /** Line 774: the non-empty names among the three fields, in order. */
  function ComparisonList(c1: string, c2: string, c3: string): seq<string> {
    Filter([c1, c2, c3], Filled)
  }

  predicate Filled(c: string) {
    c != ""
  }

  /** Line 777: a comparison needs at least two names. */
  predicate CanCompare(c1: string, c2: string, c3: string) {
    |ComparisonList(c1, c2, c3)| >= 2
  }

  /** A comparison runs exactly when at least two fields are filled. */
  lemma CanCompareIff(c1: string, c2: string, c3: string)
    ensures CanCompare(c1, c2, c3) <==> (c1 != "" && c2 != "") || (c1 != "" && c3 != "") || (c2 != "" && c3 != "")
  {
    assert [c1][..0] == [];
    assert Filter([c1], Filled) == if c1 != "" then [c1] else [];
    assert [c1, c2][..1] == [c1];
    assert Filter([c1, c2], Filled) == Filter([c1], Filled) + if c2 != "" then [c2] else [];
    assert [c1, c2, c3][..2] == [c1, c2];
    assert ComparisonList(c1, c2, c3) == Filter([c1, c2], Filled) + if c3 != "" then [c3] else [];
  }

  // ---------------------------------------------------------------------
  // History

  datatype Entry = Entry(company: string, time: string, kind: string)

  /** The elements of `xs` from last to first. */
  function Reversed<T>(xs: seq<T>): (r: seq<T>)
    ensures |r| == |xs|
    ensures forall i :: 0 <= i < |xs| ==> r[i] == xs[|xs| - 1 - i]
  {
    if |xs| == 0 then [] else [xs[|xs| - 1]] + Reversed(xs[..|xs| - 1])
  }

  /** `st.session_state.analysis_history`. */
  class History {
    var entries: seq<Entry>

    /** Line 69: the history starts empty. */
    constructor()
      ensures entries == []
    {
      entries := [];
    }

    /** Lines 743-747 and 798-802: an analysis is recorded at the end. */
    method Record(e: Entry)
      modifies this
      ensures entries == old(entries) + [e]
    {
      entries := entries + [e];
    }

    /** Line 830: the last twenty entries, newest first. */
    function Recent(): (r: seq<Entry>)
      reads this
      ensures |r| == if |entries| < 20 then |entries| else 20
      ensures forall i :: 0 <= i < |r| ==> r[i] == entries[|entries| - 1 - i]
    {
      Reversed(if |entries| < 20 then entries else entries[|entries| - 20..])
    }
  }
}
