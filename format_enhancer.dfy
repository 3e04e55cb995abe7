/** The report-format normaliser of `agents/format_enhancer.py`.

    Each of the four report sections is rewritten by a fixed chain of
    substitutions: line endings, spaces, heading, table, paragraph and
    emphasis tags, number spacing, and blank-line runs. BeautifulSoup's
    rewriting of a matched `<table>` element is a parameter. */
module FormatEnhancer {
  import opened Wrappers
  import opened Text
  import opened Patterns
  import opened JsonValue

  /** The four sections `enhance_report_format` keeps, in order. */
  const SectionKeys: seq<string> := ["fundamentalAnalysis", "businessSegments", "growthCatalysts", "valuationAnalysis"]

  // ---------------------------------------------------------------------
  // Whitespace

  /** `.replace('\r\n', '\n').replace('\r', '\n')`. */
  function NormalizeNewlines(s: string): (r: string)
    ensures '\r' !in r
  {
    ReplaceAllRemovesChar(ReplaceAll(s, "\r\n", "\n"), '\r', "\n");
    ReplaceAll(ReplaceAll(s, "\r\n", "\n"), "\r", "\n")
  }

  /** `re.sub(r'\n +', '\n', s)`: spaces after a newline go. */
  function DropIndent(s: string): (r: string)
    ensures |s| > 0 ==> |r| > 0 && r[0] == s[0]
    decreases |s|
  {
    if |s| == 0 then ""
    else if s[0] == '\n' then "\n" + DropIndent(s[1 + RunOf(s[1..], ' ')..])
    else [s[0]] + DropIndent(s[1..])
  }

  /** Whether ` +\n` matches at the start of `s`. */
  predicate TrailingAt(s: string) {
    |s| > 0 && s[0] == ' ' && RunOf(s, ' ') < |s| && s[RunOf(s, ' ')] == '\n'
  }

  /** `re.sub(r' +\n', '\n', s)`: spaces before a newline go. */
  function DropTrailing(s: string): (r: string)
    ensures |s| > 0 && s[0] != ' ' ==> |r| > 0 && r[0] == s[0]
    decreases |s|
  {
    if |s| == 0 then ""
    else if TrailingAt(s) then DropTrailing(s[RunOf(s, ' ')..])
    else [s[0]] + DropTrailing(s[1..])
  }

  /** Step 1 and 2 of `_enhance_section`: line endings, then `' +'` to one
      space, then spaces at the start and end of lines. */
  function WhitespacePass(s: string): string {
    DropTrailing(DropIndent(CollapseRuns(NormalizeNewlines(s), ' ', 1, 1)))
  }

  // ---------------------------------------------------------------------
  // Tags

  /** `_normalize_headings`: each `<hN ...>x</hN>` becomes a bare heading
      with a blank line on each side. */
  function NormalizeHeadings(s: string): string {
    var s := SubPairs(s, "<h2", "</h2>", true, Wrap("\n\n<h2>", "</h2>\n\n", true));
    var s := SubPairs(s, "<h3", "</h3>", true, Wrap("\n\n<h3>", "</h3>\n\n", true));
    SubPairs(s, "<h4", "</h4>", true, Wrap("\n\n<h4>", "</h4>\n\n", true))
  }

  /** `_normalize_tables`: every `<table ...>...</table>` is handed to the
      table formatter. */
  function NormalizeTables(s: string, formatTable: string -> string): string {
    SubPairs(s, "<table", "</table>", true, Whole(formatTable))
  }

  /** `_normalize_paragraphs`: paragraphs get a newline on each side, `<b>`
      becomes `<strong>`, `<i>` becomes `<em>`, and attributes go. */
  function NormalizeParagraphs(s: string): string {
    var s := SubPairs(s, "<p", "</p>", true, Wrap("\n<p>", "</p>\n", true));
    var s := SubPairs(s, "<strong", "</strong>", true, Wrap("<strong>", "</strong>", true));
    var s := SubPairs(s, "<em", "</em>", true, Wrap("<em>", "</em>", true));
    var s := SubPairs(s, "<b", "</b>", true, Wrap("<strong>", "</strong>", true));
    SubPairs(s, "<i", "</i>", true, Wrap("<em>", "</em>", true))
  }

  // ---------------------------------------------------------------------
  // Numbers

  /** Whether `L\s+R` matches at the start of `s`: a left character, a
      whitespace run, and a right character. */
  predicate GapAt(s: string, left: char -> bool, right: char -> bool) {
    |s| > 1 && left(s[0]) && SpaceRun(s[1..]) > 0 && 1 + SpaceRun(s[1..]) < |s|
    && right(s[1 + SpaceRun(s[1..])])
  }

  /** `re.sub(r'(L)\s+(R)', r'\1\2', s)`: the whitespace between a left and a
      right character goes. The greedy `\s+` can only succeed on the whole
      run, since the right character is not whitespace. */
  function CloseGap(s: string, left: char -> bool, right: char -> bool): (r: string)
    ensures |s| > 0 ==> |r| > 0 && r[0] == s[0]
    decreases |s|
  {
    if |s| == 0 then ""
    else if GapAt(s, left, right) then
      var n := SpaceRun(s[1..]);
      [s[0], s[1 + n]] + CloseGap(s[2 + n..], left, right)
    else [s[0]] + CloseGap(s[1..], left, right)
  }

  predicate IsDollar(c: char) { c == '$' }
  predicate IsPercent(c: char) { c == '%' }
  predicate IsPlus(c: char) { c == '+' }
  predicate IsMinus(c: char) { c == '-' }

  /** `_normalize_numbers`. */
  function NormalizeNumbers(s: string): string {
    var s := CloseGap(s, IsDollar, IsDigit);
    var s := CloseGap(s, IsDigit, IsPercent);
    var s := CloseGap(s, IsPlus, IsDigit);
    CloseGap(s, IsMinus, IsDigit)
  }

  // ---------------------------------------------------------------------
  // A section

  /** `_enhance_section`, as a value: empty content is returned as it is. */
  function SectionEnhanced(content: string, formatTable: string -> string): string {
    if content == "" then content
    else
      var c := NormalizeNumbers(NormalizeParagraphs(NormalizeTables(NormalizeHeadings(WhitespacePass(content)), formatTable)));
      Strip(CollapseRuns(c, '\n', 4, 3))
  }

  /** `_enhance_section`: the content is rewritten step by step. */
  method EnhanceSection(content: string, formatTable: string -> string) returns (r: string)
    ensures r == SectionEnhanced(content, formatTable)
  {
    if content == "" {
      return content;
    }
    r := NormalizeNewlines(content);
    r := CollapseRuns(r, ' ', 1, 1);
    r := DropIndent(r);
    r := DropTrailing(r);
    r := NormalizeHeadings(r);
    r := NormalizeTables(r, formatTable);
    r := NormalizeParagraphs(r);
    r := NormalizeNumbers(r);
    r := CollapseRuns(r, '\n', 4, 3);
    r := Strip(r);
  }

  // ---------------------------------------------------------------------
  // The report

  /** A section value: falsy values are returned as they are, strings are
      enhanced, and any other value fails on `.replace`. */
  function EnhanceValue(v: Json, formatTable: string -> string): Result<Json> {
    if !Truthy(v) then Ok(v)
    else if v.JStr? then Ok(JStr(SectionEnhanced(v.s, formatTable)))
    else Err("AttributeError")
  }

  /** The entry `enhance_report_format` stores for one section key. */
  function SectionEntry(report: map<string, Json>, key: string, formatTable: string -> string): Result<Json> {
    if key in report then EnhanceValue(report[key], formatTable) else Ok(JStr(""))
  }

  /** The dictionary after the first `n` section keys. */
  function EnhancedPrefix(report: map<string, Json>, n: nat, formatTable: string -> string): Result<map<string, Json>>
    requires n <= |SectionKeys|
  {
    if n == 0 then Ok(map[])
    else
      match EnhancedPrefix(report, n - 1, formatTable)
      case Err(e) => Err(e)
      case Ok(m) =>
        match SectionEntry(report, SectionKeys[n - 1], formatTable)
        case Err(e) => Err(e)
        case Ok(v) => Ok(m[SectionKeys[n - 1] := v])
  }

  function EnhancedReport(report: map<string, Json>, formatTable: string -> string): Result<map<string, Json>> {
    EnhancedPrefix(report, |SectionKeys|, formatTable)
  }

  /** `FormatEnhancer.enhance_report_format`: the result dictionary is
      filled one section key at a time. */
  method EnhanceReportFormat(report: map<string, Json>, formatTable: string -> string)
    returns (r: Result<map<string, Json>>)
    ensures r == EnhancedReport(report, formatTable)
  {
    var enhanced: map<string, Json> := map[];
    for i := 0 to |SectionKeys|
      invariant EnhancedPrefix(report, i, formatTable) == Ok(enhanced)
    {
      var key := SectionKeys[i];
      if key in report {
        var v := EnhanceValue(report[key], formatTable);
        if v.Err? {
          ErrorStops(report, i + 1, |SectionKeys|, formatTable);
          return Err(v.error);
        }
        enhanced := enhanced[key := v.value];
      } else {
        enhanced := enhanced[key := JStr("")];
      }
    }
    return Ok(enhanced);
  }

  /** Once a section fails, the whole call fails with its error. */
  lemma {:induction false} ErrorStops(report: map<string, Json>, i: nat, n: nat, formatTable: string -> string)
    requires i <= n <= |SectionKeys| && EnhancedPrefix(report, i, formatTable).Err?
    ensures EnhancedPrefix(report, n, formatTable) == EnhancedPrefix(report, i, formatTable)
    decreases n
  {
    if n > i {
      ErrorStops(report, i, n - 1, formatTable);
    }
  }

  /** `FormatEnhancer.validate_tables`: whether there are enough `<table>`
      elements, and how many. */
  function ValidateTables(content: string, minTables: int): (r: (bool, nat))
    ensures r.1 == CountPairs(content, "<table", "</table>", true)
    ensures r.0 <==> r.1 >= minTables
  {
    var n := CountPairs(content, "<table", "</table>", true);
    (n >= minTables, n)
  }

  const DefaultMinTables := 3

  // ---------------------------------------------------------------------
  // The report keeps exactly the four sections

  lemma SectionKeysDistinct()
    ensures forall i, j :: 0 <= i < j < |SectionKeys| ==> SectionKeys[i] != SectionKeys[j]
  {
  }

  lemma {:induction false} PrefixOk(report: map<string, Json>, n: nat, formatTable: string -> string)
    requires n <= |SectionKeys|
    ensures EnhancedPrefix(report, n, formatTable).Ok?
            <==> forall j :: 0 <= j < n ==> SectionEntry(report, SectionKeys[j], formatTable).Ok?
    decreases n
  {
    if n > 0 {
      PrefixOk(report, n - 1, formatTable);
    }
  }

  lemma {:induction false} PrefixKeys(report: map<string, Json>, n: nat, formatTable: string -> string)
    requires n <= |SectionKeys|
    requires EnhancedPrefix(report, n, formatTable).Ok?
    ensures forall k :: k in EnhancedPrefix(report, n, formatTable).value <==> k in SectionKeys[..n]
    decreases n
  {
    if n > 0 {
      PrefixKeys(report, n - 1, formatTable);
      assert SectionKeys[..n] == SectionKeys[..n - 1] + [SectionKeys[n - 1]];
    }
  }

  lemma {:induction false} PrefixValues(report: map<string, Json>, n: nat, formatTable: string -> string)
    requires n <= |SectionKeys|
    requires EnhancedPrefix(report, n, formatTable).Ok?
    ensures forall j :: 0 <= j < n ==>
              SectionEntry(report, SectionKeys[j], formatTable).Ok?
              && SectionKeys[j] in EnhancedPrefix(report, n, formatTable).value
              && EnhancedPrefix(report, n, formatTable).value[SectionKeys[j]]
                 == SectionEntry(report, SectionKeys[j], formatTable).value
    decreases n
  {
    if n > 0 {
      PrefixValues(report, n - 1, formatTable);
      var key := SectionKeys[n - 1];
      var m := EnhancedPrefix(report, n - 1, formatTable).value;
      var next := EnhancedPrefix(report, n, formatTable).value;
      assert next == m[key := SectionEntry(report, key, formatTable).value];
      SectionKeysDistinct();
      forall j | 0 <= j < n - 1
        ensures SectionKeys[j] in next && next[SectionKeys[j]] == m[SectionKeys[j]]
      {
        assert SectionKeys[j] != key;
      }
    }
  }

  /** `enhance_report_format` fails exactly when a present section holds a
      truthy value that is not a string. Otherwise the result has exactly the
      four section keys (so `aiInsights` and any other key are dropped), an
      absent section maps to `""`, and a present one to its enhanced value. */
  lemma EnhancedReportShape(report: map<string, Json>, formatTable: string -> string)
    ensures EnhancedReport(report, formatTable).Err?
            <==> exists k :: k in SectionKeys && k in report && Truthy(report[k]) && !report[k].JStr?
    ensures EnhancedReport(report, formatTable).Ok? ==>
              var m := EnhancedReport(report, formatTable).value;
              (forall k :: k in m <==> k in SectionKeys)
              && (forall k :: k in SectionKeys && k !in report ==> m[k] == JStr(""))
              && (forall k :: k in SectionKeys && k in report ==> m[k] == EnhanceValue(report[k], formatTable).value)
  {
    PrefixOk(report, |SectionKeys|, formatTable);
    if EnhancedReport(report, formatTable).Ok? {
      PrefixKeys(report, |SectionKeys|, formatTable);
      PrefixValues(report, |SectionKeys|, formatTable);
    }
    assert SectionKeys[..|SectionKeys|] == SectionKeys;
    forall k | k in SectionKeys
      ensures exists j :: 0 <= j < |SectionKeys| && SectionKeys[j] == k
    {
    }
  }

  lemma AiInsightsDropped(report: map<string, Json>, formatTable: string -> string)
    requires EnhancedReport(report, formatTable).Ok?
    ensures "aiInsights" !in EnhancedReport(report, formatTable).value
  {
    EnhancedReportShape(report, formatTable);
  }

  // ---------------------------------------------------------------------
  // Whitespace

  /** No character `a` directly followed by `b`. */
  predicate NoPair(s: string, a: char, b: char) {
    forall i :: 0 <= i < |s| - 1 ==> !(s[i] == a && s[i + 1] == b)
  }

  lemma NoPairCons(x: char, rest: string, a: char, b: char)
    requires NoPair(rest, a, b) && (x == a && |rest| > 0 ==> rest[0] != b)
    ensures NoPair([x] + rest, a, b)
  {
    var r := [x] + rest;
    forall i | 0 <= i < |r| - 1
      ensures !(r[i] == a && r[i + 1] == b)
    {
      if i > 0 {
        assert r[i] == rest[i - 1] && r[i + 1] == rest[i];
      }
    }
  }

  lemma NoPairSuffix(s: string, k: nat, a: char, b: char)
    requires k <= |s| && NoPair(s, a, b)
    ensures NoPair(s[k..], a, b)
  {
    forall i | 0 <= i < |s[k..]| - 1
      ensures !(s[k..][i] == a && s[k..][i + 1] == b)
    {
      assert s[k..][i] == s[k + i] && s[k..][i + 1] == s[k + i + 1];
    }
  }

  lemma NoRunPair(s: string, c: char)
    requires NoRun(s, c, 2)
    ensures NoPair(s, c, c)
  {
    forall i | 0 <= i < |s| - 1
      ensures !(s[i] == c && s[i + 1] == c)
    {
      assert s[i..][1..] == s[i + 1..];
      assert RunOf(s[i..], c) < 2;
    }
  }

  lemma {:induction false} DropIndentExcludes(s: string, c: char)
    requires c != '\n' && c !in s
    ensures c !in DropIndent(s)
    decreases |s|
  {
    if |s| > 0 {
      if s[0] == '\n' {
        DropIndentExcludes(s[1 + RunOf(s[1..], ' ')..], c);
      } else {
        DropIndentExcludes(s[1..], c);
      }
    }
  }

  lemma {:induction false} DropTrailingExcludes(s: string, c: char)
    requires c !in s
    ensures c !in DropTrailing(s)
    decreases |s|
  {
    if |s| > 0 {
      if TrailingAt(s) {
        DropTrailingExcludes(s[RunOf(s, ' ')..], c);
      } else {
        DropTrailingExcludes(s[1..], c);
      }
    }
  }

  /** After dropping indentation no newline is followed by a space, and no
      two spaces have been brought together. */
  lemma {:induction false} DropIndentPairs(s: string)
    requires NoPair(s, ' ', ' ')
    ensures NoPair(DropIndent(s), ' ', ' ') && NoPair(DropIndent(s), '\n', ' ')
    decreases |s|
  {
    if |s| > 0 {
      if s[0] == '\n' {
        var k := 1 + RunOf(s[1..], ' ');
        var rest := s[k..];
        assert rest == s[1..][k - 1..];
        NoPairSuffix(s, k, ' ', ' ');
        DropIndentPairs(rest);
        var r := DropIndent(rest);
        NoPairCons('\n', r, ' ', ' ');
        NoPairCons('\n', r, '\n', ' ');
        assert "\n" + r == ['\n'] + r;
      } else {
        NoPairSuffix(s, 1, ' ', ' ');
        DropIndentPairs(s[1..]);
        var r := DropIndent(s[1..]);
        NoPairCons(s[0], r, ' ', ' ');
        NoPairCons(s[0], r, '\n', ' ');
      }
    }
  }

  /** After dropping trailing spaces no space is followed by a newline, and
      the two earlier guarantees still hold. */
  lemma {:induction false} DropTrailingPairs(s: string)
    requires NoPair(s, ' ', ' ') && NoPair(s, '\n', ' ')
    ensures NoPair(DropTrailing(s), ' ', ' ') && NoPair(DropTrailing(s), '\n', ' ')
    ensures NoPair(DropTrailing(s), ' ', '\n')
    decreases |s|
  {
    if |s| > 0 {
      if TrailingAt(s) {
        var k := RunOf(s, ' ');
        NoPairSuffix(s, k, ' ', ' ');
        NoPairSuffix(s, k, '\n', ' ');
        DropTrailingPairs(s[k..]);
      } else {
        NoPairSuffix(s, 1, ' ', ' ');
        NoPairSuffix(s, 1, '\n', ' ');
        DropTrailingPairs(s[1..]);
        var r := DropTrailing(s[1..]);
        if |s| > 1 {
          assert !(s[0] == ' ' && s[1] == ' ') && !(s[0] == '\n' && s[1] == ' ');
          if s[0] == ' ' {
            assert RunOf(s, ' ') == 1 by {
              assert s[1..][0] == s[1];
            }
          }
        }
        NoPairCons(s[0], r, ' ', ' ');
        NoPairCons(s[0], r, '\n', ' ');
        NoPairCons(s[0], r, ' ', '\n');
      }
    }
  }

  /** After the whitespace pass there is no carriage return, no two spaces
      in a row, and no space next to a newline. */
  lemma WhitespacePassClean(s: string)
    ensures '\r' !in WhitespacePass(s)
    ensures NoPair(WhitespacePass(s), ' ', ' ')
    ensures NoPair(WhitespacePass(s), '\n', ' ') && NoPair(WhitespacePass(s), ' ', '\n')
  {
    var t0 := NormalizeNewlines(s);
    var t1 := CollapseRuns(t0, ' ', 1, 1);
    CollapseRunsBound(t0, ' ', 1, 1, 2);
    NoRunPair(t1, ' ');
    var t2 := DropIndent(t1);
    DropIndentExcludes(t1, '\r');
    DropIndentPairs(t1);
    DropTrailingExcludes(t2, '\r');
    DropTrailingPairs(t2);
  }

  // ---------------------------------------------------------------------
  // Numbers

  /** No left character is separated from a right character by whitespace
      alone. */
  predicate NoGap(s: string, left: char -> bool, right: char -> bool) {
    forall i :: 0 <= i < |s| ==> !GapAt(s[i..], left, right)
  }

  /** The pattern's two character classes are non-space and disjoint. */
  predicate GapClasses(left: char -> bool, right: char -> bool) {
    (forall c :: left(c) ==> !IsSpace(c) && !right(c)) && (forall c :: right(c) ==> !IsSpace(c))
  }

  /** Whitespace at the front passes through a gap-closing pass unchanged. */
  lemma {:induction false} CloseGapSpaces(w: string, u: string, left: char -> bool, right: char -> bool)
    requires GapClasses(left, right) && AllSpace(w)
    ensures CloseGap(w + u, left, right) == w + CloseGap(u, left, right)
    decreases |w|
  {
    if |w| == 0 {
      assert w + u == u;
    } else {
      var t := w + u;
      assert t[0] == w[0] && t[1..] == w[1..] + u;
      assert !left(t[0]);
      CloseGapSpaces(w[1..], u, left, right);
      assert w + CloseGap(u, left, right) == [w[0]] + (w[1..] + CloseGap(u, left, right));
    }
  }

  lemma CloseGapHead(x: char, t: string, left: char -> bool, right: char -> bool)
    requires GapClasses(left, right)
    requires !GapAt([x] + t, left, right)
    ensures !GapAt([x] + CloseGap(t, left, right), left, right)
  {
    var n := SpaceRun(t);
    assert t == t[..n] + t[n..];
    CloseGapSpaces(t[..n], t[n..], left, right);
    var rest := CloseGap(t[n..], left, right);
    assert ([x] + t)[1..] == t;
    assert ([x] + CloseGap(t, left, right))[1..] == t[..n] + rest;
    SpaceRunAppend(t[..n], rest);
    if n < |t| {
      assert SpaceRun(rest) == 0;
      assert (t[..n] + rest)[n] == t[n];
    } else {
      assert rest == [];
    }
  }

  /** A gap-closing pass leaves no gap of its own kind. */
  lemma {:induction false} CloseGapNoGap(s: string, left: char -> bool, right: char -> bool)
    requires GapClasses(left, right)
    ensures NoGap(CloseGap(s, left, right), left, right)
    decreases |s|
  {
    if |s| > 0 {
      var r := CloseGap(s, left, right);
      if GapAt(s, left, right) {
        var n := SpaceRun(s[1..]);
        var rest := CloseGap(s[2 + n..], left, right);
        CloseGapNoGap(s[2 + n..], left, right);
        assert r == [s[0], s[1 + n]] + rest;
        forall i | 0 <= i < |r|
          ensures !GapAt(r[i..], left, right)
        {
          if i >= 2 {
            assert r[i..] == rest[i - 2..];
          } else if i == 1 {
            assert r[1..][0] == s[1 + n];
          } else {
            assert r[1..][0] == s[1 + n];
            assert SpaceRun(r[1..]) == 0;
          }
        }
      } else {
        CloseGapNoGap(s[1..], left, right);
        var rest := CloseGap(s[1..], left, right);
        assert s == [s[0]] + s[1..];
        CloseGapHead(s[0], s[1..], left, right);
        forall i | 0 <= i < |r|
          ensures !GapAt(r[i..], left, right)
        {
          if i >= 1 {
            assert r[i..] == rest[i - 1..];
          }
        }
      }
    }
  }

  /** Dropping whitespace between two pieces leaves the non-space text. */
  lemma NonSpaceDropSpaces(x: string, w: string, y: string)
    requires AllSpace(w)
    ensures NonSpace(x + w + y) == NonSpace(x + y)
  {
    NonSpaceAppend(x + w, y);
    NonSpaceAppend(x, w);
    NonSpaceOfAllSpace(w);
    NonSpaceAppend(x, y);
  }

  lemma GapNonSpace(x: char, w: string, y: char, u: string, v: string)
    requires AllSpace(w) && NonSpace(v) == NonSpace(u)
    ensures NonSpace([x] + ([y] + v)) == NonSpace([x] + w + ([y] + u))
  {
    NonSpaceDropSpaces([x], w, [y] + u);
    NonSpaceAppend([x], [y] + v);
    NonSpaceAppend([x], [y] + u);
    NonSpaceAppend([y], v);
    NonSpaceAppend([y], u);
  }

  /** One closed gap: the text after it keeps its non-space characters, so
      the whole text does. */
  lemma GapStepNonSpace(s: string, left: char -> bool, right: char -> bool)
    requires GapAt(s, left, right)
    requires NonSpace(CloseGap(s[2 + SpaceRun(s[1..])..], left, right)) == NonSpace(s[2 + SpaceRun(s[1..])..])
    ensures NonSpace(CloseGap(s, left, right)) == NonSpace(s)
  {
    var n := SpaceRun(s[1..]);
    var w, u := s[1..1 + n], s[2 + n..];
    CloseGapAtGap(s, left, right);
    SpaceGapSplit(s, n);
    GapNonSpace(s[0], w, s[1 + n], u, CloseGap(u, left, right));
  }

  lemma CloseGapAtGap(s: string, left: char -> bool, right: char -> bool)
    requires GapAt(s, left, right)
    ensures CloseGap(s, left, right)
            == [s[0]] + ([s[1 + SpaceRun(s[1..])]] + CloseGap(s[2 + SpaceRun(s[1..])..], left, right))
  {
    var n := SpaceRun(s[1..]);
    var t := CloseGap(s[2 + n..], left, right);
    assert CloseGap(s, left, right) == [s[0], s[1 + n]] + t;
    assert [s[0], s[1 + n]] == [s[0]] + [s[1 + n]];
    Seqs.AppendAssoc([s[0]], [s[1 + n]], t);
  }

  /** A text cut around the whitespace run after its first character. */
  lemma SpaceGapSplit(s: string, n: nat)
    requires |s| > 0 && n == SpaceRun(s[1..]) && 1 + n < |s|
    ensures AllSpace(s[1..1 + n])
    ensures s == [s[0]] + s[1..1 + n] + ([s[1 + n]] + s[2 + n..])
  {
    assert s[1..1 + n] == s[1..][..n];
  }

  /** A gap-closing pass removes whitespace only. */
  lemma {:induction false} CloseGapNonSpace(s: string, left: char -> bool, right: char -> bool)
    ensures NonSpace(CloseGap(s, left, right)) == NonSpace(s)
    decreases |s|
  {
    if |s| > 0 {
      if GapAt(s, left, right) {
        CloseGapNonSpace(s[2 + SpaceRun(s[1..])..], left, right);
        GapStepNonSpace(s, left, right);
      } else {
        CloseGapNonSpace(s[1..], left, right);
        NonSpaceAppend([s[0]], CloseGap(s[1..], left, right));
        assert s == [s[0]] + s[1..];
        NonSpaceAppend([s[0]], s[1..]);
      }
    }
  }

  /** Each of the four passes of `_normalize_numbers` removes the whitespace
      in its own pattern: after `$`, before `%`, after `+` and after `-`
      where a digit is on the other side. */
  lemma NumberPassesClose(s: string)
    ensures NoGap(CloseGap(s, IsDollar, IsDigit), IsDollar, IsDigit)
    ensures NoGap(CloseGap(s, IsDigit, IsPercent), IsDigit, IsPercent)
    ensures NoGap(CloseGap(s, IsPlus, IsDigit), IsPlus, IsDigit)
    ensures NoGap(CloseGap(s, IsMinus, IsDigit), IsMinus, IsDigit)
  {
    CloseGapNoGap(s, IsDollar, IsDigit);
    CloseGapNoGap(s, IsDigit, IsPercent);
    CloseGapNoGap(s, IsPlus, IsDigit);
    CloseGapNoGap(s, IsMinus, IsDigit);
  }

  // ---------------------------------------------------------------------
  // The section as a whole

  /** The last two steps of a section: no run of four newlines survives
      them, and the result carries no whitespace at either end. */
  lemma FinalStepShape(c: string)
    ensures NoRun(Strip(CollapseRuns(c, '\n', 4, 3)), '\n', 4)
    ensures Strip(Strip(CollapseRuns(c, '\n', 4, 3))) == Strip(CollapseRuns(c, '\n', 4, 3))
  {
    var d := CollapseRuns(c, '\n', 4, 3);
    CollapseRunsBound(c, '\n', 4, 3, 4);
    var i := StripSlice(d);
    NoRunSlice(d, '\n', 4, i, i + |Strip(d)|);
    StripIdempotent(d);
  }

  /** An enhanced section has no run of four newlines and no whitespace at
      either end; empty content stays empty. */
  lemma SectionEnhancedShape(content: string, formatTable: string -> string)
    ensures content == "" ==> SectionEnhanced(content, formatTable) == ""
    ensures NoRun(SectionEnhanced(content, formatTable), '\n', 4)
    ensures Strip(SectionEnhanced(content, formatTable)) == SectionEnhanced(content, formatTable)
  {
    if content != "" {
      FinalStepShape(NormalizeNumbers(NormalizeParagraphs(NormalizeTables(NormalizeHeadings(WhitespacePass(content)), formatTable))));
    }
  }

  // ---------------------------------------------------------------------
  // Counting tables

  /** Text without `<table` has no table: with a positive minimum it fails. */
  lemma NoTableCountsZero(content: string, minTables: int)
    requires !ContainsCase(content, "<table", true)
    ensures ValidateTables(content, minTables) == (0 >= minTables, 0)
  {
    CountPairsAbsent(content, "<table", "</table>", true);
  }

  /** One `<table>` element, without `>` in its attributes and without
      nested tags, counts once. */
  lemma OneTableCountsOne(attrs: string, inner: string)
    requires '>' !in attrs && '<' !in inner
    ensures ValidateTables("<table" + (attrs + ">" + (inner + "</table>")), 1) == (true, 1)
  {
    var s := "<table" + (attrs + ">" + (inner + "</table>"));
    assert s[..|"<table"|] == "<table";
    PairAtElement("<table", attrs, inner, "</table>", true);
    assert s[|s|..] == [];
  }
}
