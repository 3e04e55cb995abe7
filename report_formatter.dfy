/** The conversions of agents/report_formatter.py: HTML to Markdown, the
    four-section JSON report, the clean-up of HTML for display and the
    extraction of headline metrics. Every one of them is a pure function of
    its text arguments; the regular expressions are written out as the
    left-to-right scans `re.sub` and `re.search` perform. */
module ReportFormatter {
  import opened Wrappers
  import opened Text
  import opened Patterns
  import opened Seqs

  /** The double quote that closes an attribute value. */
  const Quote: char := '\U{22}'

  // ---------------------------------------------------------------------
  // html_to_markdown

  /** One pass `re.sub(open[^>]*>(.*?)close, replacement, s, flags=DOTALL)`. */
  datatype TagRule = TagRule(open: string, close: string, rw: Rewrite)

  /** The number of tag passes of `html_to_markdown`. */
  const PassCount := 9

  /** The tag passes of `html_to_markdown`, numbered in the order they run. */
  function MarkdownRule(i: nat): TagRule
    requires i < PassCount
  {
    if i == 0 then TagRule("<h1", "</h1>", Wrap("# ", "", false))
    else if i == 1 then TagRule("<h2", "</h2>", Wrap("## ", "", false))
    else if i == 2 then TagRule("<h3", "</h3>", Wrap("### ", "", false))
    else if i == 3 then TagRule("<p", "</p>", Wrap("", "\n\n", false))
    else if i == 4 then TagRule("<ul", "</ul>", Wrap("", "", false))
    else if i == 5 then TagRule("<li", "</li>", Wrap("- ", "", false))
    else if i == 6 then TagRule("<strong", "</strong>", Wrap("**", "**", false))
    else if i == 7 then TagRule("<b", "</b>", Wrap("**", "**", false))
    else TagRule("<em", "</em>", Wrap("*", "*", false))
  }

  /** Runs the passes from number `i` on. */
  function ApplyRules(s: string, i: nat): string
    decreases PassCount - i
  {
    if i >= PassCount then s
    else
      var rule := MarkdownRule(i);
      ApplyRules(SubPairs(s, rule.open, rule.close, false, rule.rw), i + 1)
  }

  /** The rest of `<a[^>]*href="([^"]*)"[^>]*>(.*?)</a>` once `href="` has
      matched and the value starts at `v`: `([^"]*)"` runs to the next `"`,
      wherever it is (a `>` does not stop it); `[^>]*>` runs to the first
      `>` after that quote; the lazy `(.*?)</a>` to the first `</a>` after
      that. `None` when one of them is missing; otherwise the end of the
      match, the link and the link text. */
  function AnchorRest(s: string, v: nat): (m: Option<(nat, string, string)>)
    requires v <= |s|
    ensures m.Some? ==> v < m.value.0 <= |s| && Quote !in m.value.1
  {
    var q := FindCase(s[v..], "\"", false);
    if q < 0 then None
    else
      var t := FindCase(s[v + q + 1..], ">", false);
      if t < 0 then None
      else
        var b := v + q + t + 2;
        var c := FindCase(s[b..], "</a>", false);
        if c < 0 then None
        else
          QuoteFreeValue(s[v..], q);
          assert s[v..v + q] == s[v..][..q];
          Some((b + c + 4, s[v..v + q], s[b..b + c]))
  }

  /** The text before the first quote holds no quote. */
  lemma QuoteFreeValue(t: string, q: int)
    requires q == FindCase(t, "\"", false) && q >= 0
    ensures Quote !in t[..q]
  {
    FindCaseFound(t, "\"", false);
    forall j | 0 <= j < q
      ensures t[j] != Quote
    {
      assert t[j..][..1] == [t[j]];
    }
  }

  /** The candidates for `href="`, tried from position `i` down to 2: the
      greedy `[^>]*` after `<a` gives back one character at a time, and the
      first candidate whose rest matches wins. */
  function AnchorFrom(s: string, i: int): (m: Option<(nat, string, string)>)
    requires i < |s|
    ensures m.Some? ==> 0 < m.value.0 <= |s| && Quote !in m.value.1
    decreases i
  {
    if i < 2 then None
    else if StartsWith(s[i..], "href=\"") && AnchorRest(s, i + 6).Some? then AnchorRest(s, i + 6)
    else AnchorFrom(s, i - 1)
  }

  /** Whether `<a[^>]*href="([^"]*)"[^>]*>(.*?)</a>` matches at the start of
      `s`; if so the end of the match, the link and the link text. The
      `[^>]*` after `<a` stops before the first `>`, so `href="` is looked
      for in front of it, from the right. */
  function AnchorAt(s: string): (m: Option<(nat, string, string)>)
    ensures m.Some? ==> 0 < m.value.0 <= |s| && Quote !in m.value.1
  {
    if !StartsWith(s, "<a") then None
    else
      var g := FindCase(s[2..], ">", false);
      // Without a `>` after `<a` the final `[^>]*>` cannot match either.
      if g < 0 then None else AnchorFrom(s, 1 + g)
  }

  /** `re.sub(r'<a[^>]*href="([^"]*)"[^>]*>(.*?)</a>', r'[\2](\1)', s, flags=DOTALL)`. */
  function SubAnchors(s: string): string
    decreases |s|
  {
    if |s| == 0 then ""
    else
      match AnchorAt(s)
      case Some((e, href, text)) => "[" + text + "](" + href + ")" + SubAnchors(s[e..])
      case None => [s[0]] + SubAnchors(s[1..])
  }

  /** No white space at either end and no run of three or more newlines. */
  predicate Tidy(r: string) {
    (r == [] || (!IsSpace(r[0]) && !IsSpace(r[|r| - 1]))) && NoRun(r, '\n', 3)
  }

  /** `ReportFormatter.html_to_markdown`: the tag passes, then the rest of
      the clean-up. */
  function HtmlToMarkdown(html: string): (r: string)
    ensures Tidy(r)
  {
    Finish(ApplyRules(html, 0))
  }

  /** The steps after the tag passes: links rewritten, runs of three or
      more newlines cut to two, both ends stripped. */
  function Finish(s: string): (r: string)
    ensures Tidy(r)
  {
    var a := SubAnchors(s);
    CollapseRunsBound(a, '\n', 3, 2, 3);
    StripNoRun(CollapseRuns(a, '\n', 3, 2), '\n', 3);
    Strip(CollapseRuns(a, '\n', 3, 2))
  }

  /** Passes whose opening tag does not occur leave the text as it is. */
  lemma {:induction false} RulesAbsent(s: string, i: nat, j: nat)
    requires i <= j <= PassCount
    requires forall k :: i <= k < j ==> !ContainsCase(s, MarkdownRule(k).open, false)
    ensures ApplyRules(s, i) == ApplyRules(s, j)
    decreases j - i
  {
    if i < j {
      var rule := MarkdownRule(i);
      SubPairsAbsent(s, rule.open, rule.close, false, rule.rw);
      assert ApplyRules(s, i) == ApplyRules(SubPairs(s, rule.open, rule.close, false, rule.rw), i + 1);
      RulesAbsent(s, i + 1, j);
    }
  }

  /** Every opening tag is `<` and one more character; none has `a` or
      `/` second, and only the last pass has `e`. */
  lemma MarkdownOpens(i: nat)
    requires i < PassCount
    ensures var p := MarkdownRule(i).open;
            |p| >= 2 && p[0] == '<' && p[1] != 'a' && p[1] != '/' && (i < PassCount - 1 ==> p[1] != 'e')
  {
  }

  /** Passes leave text without `<` as it is. */
  lemma RulesOnPlain(s: string, i: nat)
    requires i <= PassCount && '<' !in s
    ensures ApplyRules(s, i) == s
  {
    forall k | i <= k < PassCount
      ensures !ContainsCase(s, MarkdownRule(k).open, false)
    {
      MarkdownOpens(k);
      NoLtNoOpen(s, MarkdownRule(k).open);
    }
    RulesAbsent(s, i, PassCount);
  }

  /** No pass from `i` to `j` opens in a text whose every `<` is followed
      by `a` or `/`, or by `e` when the last pass is not among them. */
  lemma NoOpenAfterLt(s: string, i: nat, j: nat)
    requires i <= j <= PassCount
    requires forall n :: 0 <= n < |s| && s[n] == '<' ==>
               n + 1 < |s| && (s[n + 1] == 'a' || s[n + 1] == '/' || (s[n + 1] == 'e' && j < PassCount))
    ensures forall k :: i <= k < j ==> !ContainsCase(s, MarkdownRule(k).open, false)
  {
    forall k | i <= k < j
      ensures !ContainsCase(s, MarkdownRule(k).open, false)
    {
      MarkdownOpens(k);
      if ContainsCase(s, MarkdownRule(k).open, false) {
        OpenWitness(s, MarkdownRule(k).open);
      }
    }
  }

  /** Where a found tag starts, its first two characters are in the text. */
  lemma OpenWitness(s: string, p: string)
    requires |p| >= 2 && ContainsCase(s, p, false)
    ensures var k := FindCase(s, p, false);
            0 <= k && k + 1 < |s| && s[k] == p[0] && s[k + 1] == p[1]
  {
    FindCaseFound(s, p, false);
    var k := FindCase(s, p, false);
    assert s[k..][..|p|] == p;
    assert s[k..][..|p|][0] == s[k] && s[k..][..|p|][1] == s[k + 1];
  }

  /** Text without `<` has no link to rewrite. */
  lemma {:induction false} SubAnchorsAbsent(s: string)
    requires '<' !in s
    ensures SubAnchors(s) == s
    decreases |s|
  {
    if |s| > 0 {
      assert !StartsWith(s, "<a") by {
        if |s| >= 2 {
          assert s[..2][0] == s[0];
        }
      }
      SubAnchorsAbsent(s[1..]);
      assert [s[0]] + s[1..] == s;
    }
  }

  /** Without markup and without three newlines in a row, the clean-up
      only strips the ends. */
  lemma FinishPlain(h: string)
    requires '<' !in h && NoRun(h, '\n', 3)
    ensures Finish(h) == Strip(h)
  {
    SubAnchorsAbsent(h);
    CollapseRunsId(h, '\n', 3, 2);
  }

  /** Text without markup and without three newlines in a row only loses
      the white space at its ends. */
  lemma PlainMarkdown(s: string)
    requires '<' !in s && NoRun(s, '\n', 3)
    ensures HtmlToMarkdown(s) == Strip(s)
  {
    RulesOnPlain(s, 0);
    FinishPlain(s);
  }

  /** When the tag passes leave a text without markup and newlines, the
      clean-up only strips its ends. */
  lemma TaggedMarkdown(s: string, h: string)
    requires ApplyRules(s, 0) == h && '<' !in h && '\n' !in h
    ensures HtmlToMarkdown(s) == Strip(h)
  {
    NoRunAbsent(h, '\n', 3);
    FinishPlain(h);
  }

  /** The tag passes turn a heading `<h1>` element into a `# ` line. */
  lemma HeadingTags(x: string)
    requires '<' !in x
    ensures ApplyRules("<h1>" + x + "</h1>", 0) == "# " + x
  {
    var s := "<h1>" + x + "</h1>";
    H1Pass(s, x);
    FirstRule(s);
    RulesOnPlain("# " + x, 1);
  }

  lemma H1Pass(s: string, x: string)
    requires '<' !in x && s == "<h1>" + x + "</h1>"
    ensures SubPairs(s, "<h1", "</h1>", false, Wrap("# ", "", false)) == "# " + x
  {
    assert s == "<h1" + ">" + x + "</h1>";
    ElementPass(s, "<h1", x, "</h1>", Wrap("# ", "", false));
  }

  lemma FirstRule(s: string)
    ensures ApplyRules(s, 0) == ApplyRules(SubPairs(s, "<h1", "</h1>", false, Wrap("# ", "", false)), 1)
  {
  }

  /** A pass on a bare element of its own tag. */
  lemma ElementPass(s: string, open: string, x: string, close: string, rw: Rewrite)
    requires |open| > 0 && |close| > 0 && close[0] == '<' && '<' !in x
    requires s == open + ">" + x + close
    ensures SubPairs(s, open, close, false, rw) == Apply(rw, s, x)
  {
    assert s == open + ("" + ">" + (x + close));
    assert StartsWithCase(s, open, false) by { assert s[..|open|] == open; }
    SubPairsElement(open, "", x, close, false, rw);
  }

  /** An `<em>` element passes every earlier rule untouched and becomes
      `*text*`. */
  lemma EmphasisTags(x: string)
    requires '<' !in x
    ensures ApplyRules("<em>" + x + "</em>", 0) == "*" + x + "*"
  {
    var s := "<em>" + x + "</em>";
    assert s == "<em" + ">" + x + "</em>";
    forall n | 0 <= n < |s| && s[n] == '<'
      ensures n + 1 < |s| && (s[n + 1] == 'a' || s[n + 1] == '/' || (s[n + 1] == 'e' && PassCount - 1 < PassCount))
    {
      assert n == 0 || n == |s| - 5;
    }
    NoOpenAfterLt(s, 0, PassCount - 1);
    RulesAbsent(s, 0, PassCount - 1);
    ElementPass(s, "<em", x, "</em>", Wrap("*", "*", false));
    assert Apply(Wrap("*", "*", false), s, x) == "*" + x + "*";
  }

  /** A link element becomes `[text](href)`. */
  lemma LinkMarkdown(href: string, text: string)
    requires Quote !in href && (href == [] || href[|href| - 1] != '=') && '<' !in href && '\n' !in href
    requires '<' !in text && '\n' !in text
    ensures HtmlToMarkdown("<a href=\"" + href + "\">" + text + "</a>") == "[" + text + "](" + href + ")"
  {
    LinkTags(href, text);
    AnchorElement(href, text);
    LinkEnds("[" + text + "](" + href + ")", href, text);
  }

  /** A Markdown link without newlines comes through the clean-up whole. */
  lemma LinkEnds(h: string, href: string, text: string)
    requires '\n' !in href && '\n' !in text
    requires h == "[" + text + "](" + href + ")"
    ensures Strip(CollapseRuns(h, '\n', 3, 2)) == h
  {
    forall i | 0 <= i < |h|
      ensures h[i] != '\n'
    {
      if i > 0 && i < |text| + 1 {
        assert h[i] == text[i - 1];
      } else if i >= |text| + 3 && i < |h| - 1 {
        assert h[i] == href[i - |text| - 3];
      }
    }
    NoRunAbsent(h, '\n', 3);
    CollapseRunsId(h, '\n', 3, 2);
    assert h[0] == '[' && h[|h| - 1] == ')';
    StripId(h);
  }

  /** No tag pass opens a link element. */
  lemma LinkTags(href: string, text: string)
    requires '<' !in href && '<' !in text
    ensures ApplyRules("<a href=\"" + href + "\">" + text + "</a>", 0)
            == "<a href=\"" + href + "\">" + text + "</a>"
  {
    var s := "<a href=\"" + href + "\">" + text + "</a>";
    LinkLts(s, href, text);
    NoOpenAfterLt(s, 0, PassCount);
    RulesAbsent(s, 0, PassCount);
  }

  /** In a link element every `<` opens the element or its end tag. */
  lemma LinkLts(s: string, href: string, text: string)
    requires '<' !in href && '<' !in text
    requires s == "<a href=\"" + href + "\">" + text + "</a>"
    ensures forall n :: 0 <= n < |s| && s[n] == '<' ==> n + 1 < |s| && (s[n + 1] == 'a' || s[n + 1] == '/')
  {
    var m := 11 + |href|;
    forall n | 0 < n < |s| - 4
      ensures s[n] != '<'
    {
      if 9 <= n < 9 + |href| {
        assert s[n] == href[n - 9];
      } else if m <= n < m + |text| {
        assert s[n] == text[n - m];
      } else if n < 9 {
        assert s[n] == "<a href=\""[n];
      } else {
        assert s[n] == "\">"[n - 9 - |href|];
      }
    }
    assert s[|s| - 4..] == "</a>";
  }

  /** The anchor pass on one link element. The link may hold `>`, which
      the value group `[^"]*` passes over. */
  lemma AnchorElement(href: string, text: string)
    requires Quote !in href && (href == [] || href[|href| - 1] != '=') && '<' !in text
    ensures SubAnchors("<a href=\"" + href + "\">" + text + "</a>") == "[" + text + "](" + href + ")"
  {
    var s := "<a href=\"" + href + "\">" + text + "</a>";
    AnchorAtElement(s, href, text);
    assert SubAnchors(s) == "[" + text + "](" + href + ")" + SubAnchors(s[|s|..]);
    assert s[|s|..] == [];
  }

  lemma AnchorAtElement(s: string, href: string, text: string)
    requires s == "<a href=\"" + href + "\">" + text + "</a>"
    requires Quote !in href && (href == [] || href[|href| - 1] != '=') && '<' !in text
    ensures AnchorAt(s) == Some((|s|, href, text))
  {
    var g := GtBounds(s, href, text);
    NoCandidates(s, href, text, 1 + g);
    SkipCandidates(s, 3, 1 + g);
    RestOfElement(s, href, text);
    CandidateMatches(s, 3);
    OpenedAnchor(s, g);
  }

  /** With two `href` attributes the greedy `[^>]*` gives back only as far
      as the later one, whose value wins; that value may hold a `>`. */
  lemma AnchorAtLastHref(s: string, a: string, v: string, text: string)
    requires s == "<a href=\"" + a + "\" href=\"" + v + "\">" + text + "</a>"
    requires Quote !in a && '>' !in a
    requires Quote !in v && (v == [] || v[|v| - 1] != '=') && '<' !in text
    ensures AnchorAt(s) == Some((|s|, v, text))
  {
    var g := LaterGt(s, a, v, text);
    forall j | 11 + |a| < j <= 1 + g
      ensures !StartsWith(s[j..], "href=\"")
    {
      NoLaterCandidate(s, a, v, text, j);
    }
    SkipCandidates(s, 11 + |a|, 1 + g);
    SecondHref(s, a, v, text);
    CandidateMatches(s, 11 + |a|);
    OpenedAnchor(s, g);
  }

  /** The anchor pass on a link element with two `href` attributes keeps
      the later link. */
  lemma AnchorLastHref(a: string, v: string, text: string)
    requires Quote !in a && '>' !in a
    requires Quote !in v && (v == [] || v[|v| - 1] != '=') && '<' !in text
    ensures SubAnchors("<a href=\"" + a + "\" href=\"" + v + "\">" + text + "</a>")
            == "[" + text + "](" + v + ")"
  {
    var s := "<a href=\"" + a + "\" href=\"" + v + "\">" + text + "</a>";
    AnchorAtLastHref(s, a, v, text);
    assert SubAnchors(s) == "[" + text + "](" + v + ")" + SubAnchors(s[|s|..]);
    assert s[|s|..] == [];
  }

  /** The first `>` after `<a` lies between the opening of the second value
      and its closing quote. */
  lemma LaterGt(s: string, a: string, v: string, text: string) returns (g: int)
    requires s == "<a href=\"" + a + "\" href=\"" + v + "\">" + text + "</a>"
    requires '>' !in a
    ensures StartsWith(s, "<a")
    ensures g == FindCase(s[2..], ">", false) && 15 + |a| <= g <= 16 + |a| + |v|
  {
    var h := a + "\" href=\"" + v;
    assert s == "<a href=\"" + h + "\">" + text + "</a>";
    g := GtBounds(s, h, text);
    FindCaseFound(s[2..], ">", false);
    assert s[2..][g..][..1] == ">";
    forall k | 2 <= k < 17 + |a|
      ensures s[k] != '>'
    {
      if 9 <= k < 9 + |a| {
        assert s[k] == a[k - 9];
      }
    }
  }

  /** The second `href="` is followed by a value, its quote, `>`, the text
      and `</a>`. */
  lemma SecondHref(s: string, a: string, v: string, text: string)
    requires s == "<a href=\"" + a + "\" href=\"" + v + "\">" + text + "</a>"
    requires Quote !in v && '<' !in text
    ensures StartsWith(s[11 + |a|..], "href=\"")
    ensures AnchorRest(s, 17 + |a|) == Some((|s|, v, text))
  {
    assert s[11 + |a|..][..6] == "href=\"";
    assert s[17 + |a|..] == v + "\"" + (">" + text + "</a>");
    TailMatches(s, 17 + |a|, v, text);
  }

  /** Between the second `href="` and the first `>` after `<a` no other
      `href="` starts. */
  lemma NoLaterCandidate(s: string, a: string, v: string, text: string, j: int)
    requires s == "<a href=\"" + a + "\" href=\"" + v + "\">" + text + "</a>"
    requires Quote !in v && (v == [] || v[|v| - 1] != '=')
    requires 11 + |a| < j <= 17 + |a| + |v|
    ensures !StartsWith(s[j..], "href=\"")
  {
    var e := 17 + |a| + |v|;
    if j + 6 <= |s| {
      var w := s[j..][..6];
      if j + 5 < e {
        assert w[5] == v[j + 5 - 17 - |a|];
        assert w[5] != "href=\""[5];
      } else if j + 5 == e {
        if |v| > 0 {
          assert w[4] == v[|v| - 1];
        } else {
          assert w[4] == s[16 + |a|];
        }
        assert w[4] != "href=\""[4];
      } else {
        assert w[e + 1 - j] == s[e + 1] == '>';
        assert w[e + 1 - j] != "href=\""[e + 1 - j];
      }
    }
  }

  /** Once `<a` and a `>` after it are found, the candidates are tried from
      just before that `>`. */
  lemma OpenedAnchor(s: string, g: int)
    requires StartsWith(s, "<a") && g == FindCase(s[2..], ">", false) && g >= 0
    ensures AnchorAt(s) == AnchorFrom(s, 1 + g)
  {
  }

  /** A candidate whose rest matches is the match. */
  lemma CandidateMatches(s: string, i: int)
    requires 2 <= i < |s| && StartsWith(s[i..], "href=\"") && AnchorRest(s, i + 6).Some?
    ensures AnchorFrom(s, i) == AnchorRest(s, i + 6)
  {
  }

  lemma NoCandidates(s: string, href: string, text: string, hi: int)
    requires s == "<a href=\"" + href + "\">" + text + "</a>"
    requires Quote !in href && (href == [] || href[|href| - 1] != '=')
    requires hi <= 9 + |href|
    ensures forall j :: 3 < j <= hi ==> !StartsWith(s[j..], "href=\"")
  {
    forall j | 3 < j <= hi
      ensures !StartsWith(s[j..], "href=\"")
    {
      NoCandidateAt(s, href, text, j);
    }
  }

  /** In a link element the first `>` after `<a` lies between the
      opening quote and the end of the start tag. */
  lemma GtBounds(s: string, href: string, text: string) returns (g: int)
    requires s == "<a href=\"" + href + "\">" + text + "</a>"
    ensures StartsWith(s, "<a")
    ensures g == FindCase(s[2..], ">", false) && 7 <= g <= 8 + |href|
  {
    assert s[..2] == "<a";
    g := FindCase(s[2..], ">", false);
    assert s[2..][8 + |href|] == '>';
    FindCharAtMost(s[2..], '>', 8 + |href|);
    FindCaseFound(s[2..], ">", false);
    assert s[2..][g..][..1] == ">";
    assert s[2 + g] == '>';
  }

  /** `FindCase` of one character stops at its first occurrence. */
  lemma {:induction false} FindCharAtMost(t: string, c: char, k: nat)
    requires k < |t| && t[k] == c
    ensures 0 <= FindCase(t, [c], false) <= k
    decreases k
  {
    assert t[..1] == [t[0]];
    if k > 0 && t[0] != c {
      FindCharAtMost(t[1..], c, k - 1);
    }
  }

  /** Candidates that are not `href="` are passed over. */
  lemma {:induction false} SkipCandidates(s: string, lo: int, hi: int)
    requires 2 <= lo <= hi < |s|
    requires forall j :: lo < j <= hi ==> !StartsWith(s[j..], "href=\"")
    ensures AnchorFrom(s, hi) == AnchorFrom(s, lo)
    decreases hi
  {
    if hi > lo {
      SkipCandidates(s, lo, hi - 1);
    }
  }

  /** In a link element no `href="` starts after the one at 3 and before
      the first `>`: its quote would have to lie inside the link, or its
      `=` just before the closing quote, or it would cover the `>`. */
  lemma NoCandidateAt(s: string, href: string, text: string, j: int)
    requires s == "<a href=\"" + href + "\">" + text + "</a>"
    requires Quote !in href && (href == [] || href[|href| - 1] != '=')
    requires 3 < j <= 9 + |href|
    ensures !StartsWith(s[j..], "href=\"")
  {
    if j + 6 <= |s| {
      var w := s[j..][..6];
      if j + 5 < 9 + |href| {
        assert w[5] == href[j - 4];
        assert w[5] != "href=\""[5];
      } else if j + 5 == 9 + |href| {
        if |href| > 0 {
          assert w[4] == href[|href| - 1];
        } else {
          assert w[4] == s[8];
        }
        assert w[4] != "href=\""[4];
      } else {
        assert w[10 + |href| - j] == s[10 + |href|] == '>';
        assert w[10 + |href| - j] != "href=\""[10 + |href| - j];
      }
    }
  }

  /** After `href="` at 3 the value is the link, the tag ends right after
      the closing quote and the text runs to `</a>`. */
  lemma RestOfElement(s: string, href: string, text: string)
    requires s == "<a href=\"" + href + "\">" + text + "</a>"
    requires Quote !in href && '<' !in text
    ensures StartsWith(s[3..], "href=\"")
    ensures AnchorRest(s, 9) == Some((|s|, href, text))
  {
    assert s[3..][..6] == "href=\"";
    assert s[9..] == href + "\"" + (">" + text + "</a>");
    TailMatches(s, 9, href, text);
  }

  /** A value without quotes, its closing quote, `>`, a text without `<`
      and `</a>` make up the rest of a match that ends the string. */
  lemma TailMatches(s: string, v: nat, href: string, text: string)
    requires v <= |s| && s[v..] == href + "\"" + (">" + text + "</a>")
    requires Quote !in href && '<' !in text
    ensures AnchorRest(s, v) == Some((|s|, href, text))
  {
    var u := v + |href| + 1;
    FirstQuote(s, v, href, ">" + text + "</a>");
    TextToClose(s, u, text);
    RestFound(s, v, |href|, 0, |text|);
  }

  /** The first quote after `v` closes a value without quotes. */
  lemma FirstQuote(s: string, v: nat, href: string, rest: string)
    requires v <= |s| && s[v..] == href + "\"" + rest && Quote !in href
    ensures FindCase(s[v..], "\"", false) == |href|
    ensures s[v..v + |href|] == href && s[v + |href| + 1..] == rest
  {
    FindCharFirst(href, Quote, rest);
    assert s[v..v + |href|] == s[v..][..|href|];
    assert s[v + |href| + 1..] == s[v..][|href| + 1..];
  }

  /** `>`, a text without `<` and `</a>` end the string. */
  lemma TextToClose(s: string, u: nat, text: string)
    requires u <= |s| && s[u..] == ">" + text + "</a>" && '<' !in text
    ensures FindCase(s[u..], ">", false) == 0
    ensures FindCase(s[u + 1..], "</a>", false) == |text|
    ensures s[u + 1..u + 1 + |text|] == text && |s| == u + |text| + 5
  {
    assert s[u..][..1] == ">";
    assert s[u + 1..] == s[u..][1..] == text + "</a>";
    FindAfter(text, "</a>", false);
    assert s[u + 1..u + 1 + |text|] == s[u + 1..][..|text|];
  }

  /** `AnchorRest` in terms of where its three searches stop. */
  lemma RestFound(s: string, v: nat, q: int, t: int, c: int)
    requires v <= |s| && q == FindCase(s[v..], "\"", false) && q >= 0
    requires t == FindCase(s[v + q + 1..], ">", false) && t >= 0
    requires c == FindCase(s[v + q + t + 2..], "</a>", false) && c >= 0
    ensures AnchorRest(s, v) == Some((v + q + t + c + 6, s[v..v + q], s[v + q + t + 2..v + q + t + 2 + c]))
  {
  }

  /** The first `c` in `t + [c] + rest` is the one after `t` when `t` has none. */
  lemma {:induction false} FindCharFirst(t: string, c: char, rest: string)
    requires c !in t
    ensures FindCase(t + [c] + rest, [c], false) == |t|
    decreases |t|
  {
    var u := t + [c] + rest;
    if |t| > 0 {
      assert u[..1] == [t[0]];
      assert u[1..] == t[1..] + [c] + rest;
      FindCharFirst(t[1..], c, rest);
    } else {
      assert u[..1] == [c];
    }
  }

  // ---------------------------------------------------------------------
  // format_json_report

  /** The number of sections of the JSON report. */
  const SectionCount := 4

  /** The report key and the heading of section `i`, in the order they are
      emitted. */
  function JsonSection(i: nat): (section: (string, string))
    requires i < SectionCount
  {
    if i == 0 then ("fundamentalAnalysis", "1. 基本面分析 (Fundamental Analysis)")
    else if i == 1 then ("businessSegments", "2. 业务板块分析 (Business Segments)")
    else if i == 2 then ("growthCatalysts", "3. 增长催化剂 (Growth Catalysts)")
    else ("valuationAnalysis", "4. 估值分析 (Valuation Analysis)")
  }

  /** A section's body: content with a `<table` is kept as it is (the
      display renders HTML tables), anything else is converted. */
  function SectionBody(content: string): string {
    if Contains(content, "<table") then content else HtmlToMarkdown(content)
  }

  /** Whether section `i` is present: its key holds a non-empty text. */
  predicate HasSection(report: map<string, string>, i: nat)
    requires i < SectionCount
  {
    JsonSection(i).0 in report && report[JsonSection(i).0] != ""
  }

  /** Section `i`: its heading, its body and a rule, or nothing when absent. */
  function SectionBlock(report: map<string, string>, i: nat): string
    requires i < SectionCount
  {
    if HasSection(report, i) then
      "## " + JsonSection(i).1 + "\n\n" + (SectionBody(report[JsonSection(i).0]) + "\n\n---\n\n")
    else ""
  }

  /** The sections from number `i` on. */
  function Blocks(report: map<string, string>, i: nat): string
    decreases SectionCount - i
  {
    if i >= SectionCount then ""
    else SectionBlock(report, i) + Blocks(report, i + 1)
  }

  function ReportHeader(company: string): string {
    "# " + company + " 深度估值报告\n\n" + "---\n\n"
  }

  /** `ReportFormatter.format_json_report`. */
  function FormatJsonReport(report: map<string, string>, company: string): (r: string)
    ensures StartsWith(r, ReportHeader(company))
  {
    ReportHeader(company) + Blocks(report, 0)
  }

  /** A section is emitted exactly when it is present, under its heading
      and closed by a rule. */
  lemma SectionShape(report: map<string, string>, i: nat)
    requires i < SectionCount
    ensures SectionBlock(report, i) != [] <==> HasSection(report, i)
    ensures HasSection(report, i) ==>
              StartsWith(SectionBlock(report, i), "## " + JsonSection(i).1 + "\n\n")
              && EndsWith(SectionBlock(report, i), "\n\n---\n\n")
  {
    if HasSection(report, i) {
      var h := "## " + JsonSection(i).1 + "\n\n";
      var b := SectionBody(report[JsonSection(i).0]) + "\n\n---\n\n";
      assert SectionBlock(report, i) == h + b;
      assert (h + b)[..|h|] == h;
      assert (h + b)[|h + b| - 7..] == b[|b| - 7..];
      assert b[|b| - 7..] == "\n\n---\n\n";
    }
  }

  /** The report is the header and then the four sections in the fixed order. */
  lemma FourSections(report: map<string, string>, company: string)
    ensures FormatJsonReport(report, company)
            == ReportHeader(company)
               + (SectionBlock(report, 0) + (SectionBlock(report, 1)
               + (SectionBlock(report, 2) + SectionBlock(report, 3))))
  {
    assert Blocks(report, 0) == SectionBlock(report, 0) + Blocks(report, 1);
    assert Blocks(report, 1) == SectionBlock(report, 1) + Blocks(report, 2);
    assert Blocks(report, 2) == SectionBlock(report, 2) + Blocks(report, 3);
    assert Blocks(report, 3) == SectionBlock(report, 3) + Blocks(report, 4);
    assert SectionBlock(report, 3) + "" == SectionBlock(report, 3);
  }

  /** With none of the sections from `i` on present, nothing is emitted. */
  lemma {:induction false} NoBlocks(report: map<string, string>, i: nat)
    requires forall k :: i <= k < SectionCount ==> !HasSection(report, k)
    ensures Blocks(report, i) == ""
    decreases SectionCount - i
  {
    if i < SectionCount {
      NoBlocks(report, i + 1);
    }
  }

  /** With none of the four keys holding text, only the header is left. */
  lemma EmptyJsonReport(report: map<string, string>, company: string)
    requires forall k :: 0 <= k < SectionCount ==> !HasSection(report, k)
    ensures FormatJsonReport(report, company) == ReportHeader(company)
  {
    NoBlocks(report, 0);
  }

  /** Content with a table is copied into its section verbatim. */
  lemma TableKept(report: map<string, string>, i: nat)
    requires i < SectionCount
    requires JsonSection(i).0 in report && Contains(report[JsonSection(i).0], "<table")
    ensures SectionBlock(report, i)
            == "## " + JsonSection(i).1 + "\n\n" + (report[JsonSection(i).0] + "\n\n---\n\n")
  {
    assert report[JsonSection(i).0] != "";
  }

  /** Content without a table is converted to Markdown in its section. */
  lemma ProseConverted(report: map<string, string>, i: nat)
    requires i < SectionCount && HasSection(report, i)
    requires !Contains(report[JsonSection(i).0], "<table")
    ensures SectionBlock(report, i)
            == "## " + JsonSection(i).1 + "\n\n" + (HtmlToMarkdown(report[JsonSection(i).0]) + "\n\n---\n\n")
  {
  }

  // ---------------------------------------------------------------------
  // clean_html_for_display

  /** What follows a tag name up to its first `>` (or to the end). */
  function TagRegion(t: string): (r: string)
    ensures '>' !in r && |r| <= |t| && r == t[..|r|]
  {
    t[..RunWithout(t, '>')]
  }

  /** `re.sub(tag + '(?![^>]*' + word + ')', tag + attr, s)`: every `tag`
      not followed by `word` before the next `>` gets `attr` after it. */
  function AddAttr(s: string, tag: string, word: string, attr: string): string
    requires |tag| > 0
    decreases |s|
  {
    if |s| == 0 then ""
    else if StartsWith(s, tag) && !Contains(TagRegion(s[|tag|..]), word) then
      tag + attr + AddAttr(s[|tag|..], tag, word, attr)
    else [s[0]] + AddAttr(s[1..], tag, word, attr)
  }

  /** `ReportFormatter.clean_html_for_display`. */
  function CleanHtmlForDisplay(html: string): string {
    var s := SubPairs(html, "<script", "</script>", false, Remove);
    var s := AddAttr(s, "<table", "class", " class=\"metric-table\"");
    AddAttr(s, "<a", "target", " target=\"_blank\"")
  }

  /** The pass only inserts: with an empty attribute it changes nothing. */
  lemma {:induction false} AddAttrOnlyInserts(s: string, tag: string, word: string)
    requires |tag| > 0
    ensures AddAttr(s, tag, word, "") == s
    decreases |s|
  {
    if |s| > 0 {
      if StartsWith(s, tag) && !Contains(TagRegion(s[|tag|..]), word) {
        var rest := s[|tag|..];
        AddAttrOnlyInserts(rest, tag, word);
        assert tag + "" + rest == s;
      } else {
        AddAttrOnlyInserts(s[1..], tag, word);
        assert [s[0]] + s[1..] == s;
      }
    }
  }

  /** Text without the tag is left as it is. */
  lemma {:induction false} AddAttrAbsent(s: string, tag: string, word: string, attr: string)
    requires |tag| > 0 && !Contains(s, tag)
    ensures AddAttr(s, tag, word, attr) == s
    decreases |s|
  {
    if |s| > 0 {
      AddAttrAbsent(s[1..], tag, word, attr);
      assert [s[0]] + s[1..] == s;
    }
  }

  /** A tag without the word before its `>` gets the attribute; one that
      has it is copied. */
  lemma AddAttrAtTag(tag: string, rest: string, word: string, attr: string)
    requires |tag| > 0
    ensures !Contains(TagRegion(rest), word) ==>
              AddAttr(tag + rest, tag, word, attr) == tag + attr + AddAttr(rest, tag, word, attr)
    ensures Contains(TagRegion(rest), word) ==>
              AddAttr(tag + rest, tag, word, attr) == [tag[0]] + AddAttr((tag + rest)[1..], tag, word, attr)
  {
    assert (tag + rest)[..|tag|] == tag;
    assert (tag + rest)[|tag|..] == rest;
  }

  /** A script element on its own disappears. */
  lemma ScriptRemoved(attrs: string, code: string)
    requires '>' !in attrs && '<' !in code
    ensures CleanHtmlForDisplay("<script" + attrs + ">" + code + "</script>") == ""
  {
    var s := "<script" + (attrs + ">" + (code + "</script>"));
    assert s == "<script" + attrs + ">" + code + "</script>";
    assert StartsWithCase(s, "<script", false) by { assert s[..7] == "<script"; }
    SubPairsElement("<script", attrs, code, "</script>", false, Remove);
  }

  /** Text without markup is displayed as it is. */
  lemma PlainDisplay(s: string)
    requires '<' !in s
    ensures CleanHtmlForDisplay(s) == s
  {
    NoLtNoOpen(s, "<script");
    SubPairsAbsent(s, "<script", "</script>", false, Remove);
    FirstCharAbsent(s, "<table");
    FirstCharAbsent(s, "<a");
    AddAttrAbsent(s, "<table", "class", " class=\"metric-table\"");
    AddAttrAbsent(s, "<a", "target", " target=\"_blank\"");
  }

  // ---------------------------------------------------------------------
  // extract_key_metrics

  /** The four headline fields; `growth_rate` is never filled in. */
  datatype Metrics = Metrics(recommendation: string, targetPrice: string, peRatio: string, growthRate: string)

  /** An uppercased text cannot contain a word with a lower-case letter. */
  lemma UpperLacksWord(s: string, w: string, j: nat)
    requires j < |w| && IsLower(w[j])
    ensures !Contains(Upper(s), w)
  {
    if Contains(Upper(s), w) {
      var i := ContainsWitness(Upper(s), w);
    }
  }

  /** The recommendation: 买入, then 持有, then 卖出, checked in that order.
      The English alternatives look for mixed-case words in an uppercased
      copy of the text, so only the Chinese words decide. */
  function Recommendation(content: string): (r: string)
    ensures Contains(content, "买入") ==> r == "买入 (Buy)"
    ensures !Contains(content, "买入") && Contains(content, "持有") ==> r == "持有 (Hold)"
    ensures !Contains(content, "买入") && !Contains(content, "持有") && Contains(content, "卖出")
            ==> r == "卖出 (Sell)"
    ensures !Contains(content, "买入") && !Contains(content, "持有") && !Contains(content, "卖出")
            ==> r == "N/A"
  {
    var up := Upper(content);
    UpperLacksWord(content, "Buy", 1);
    UpperLacksWord(content, "Hold", 1);
    UpperLacksWord(content, "Sell", 1);
    if Contains(content, "买入") || Contains(up, "Buy") then "买入 (Buy)"
    else if Contains(content, "持有") || Contains(up, "Hold") then "持有 (Hold)"
    else if Contains(content, "卖出") || Contains(up, "Sell") then "卖出 (Sell)"
    else "N/A"
  }

  /** The recommendation with the English words compared in upper case, as
      the uppercasing evidently means. */
  function RecommendationCorrected(content: string): (r: string)
    ensures r == "买入 (Buy)" <==> Contains(content, "买入") || Contains(Upper(content), "BUY")
    ensures r == "持有 (Hold)" <==> !Contains(content, "买入") && !Contains(Upper(content), "BUY")
                                   && (Contains(content, "持有") || Contains(Upper(content), "HOLD"))
    ensures r == "卖出 (Sell)" <==> !Contains(content, "买入") && !Contains(Upper(content), "BUY")
                                   && !Contains(content, "持有") && !Contains(Upper(content), "HOLD")
                                   && (Contains(content, "卖出") || Contains(Upper(content), "SELL"))
  {
    var up := Upper(content);
    if Contains(content, "买入") || Contains(up, "BUY") then "买入 (Buy)"
    else if Contains(content, "持有") || Contains(up, "HOLD") then "持有 (Hold)"
    else if Contains(content, "卖出") || Contains(up, "SELL") then "卖出 (Sell)"
    else "N/A"
  }

  /** As written, a text that says only "Buy" gets no recommendation. */
  lemma EnglishBuyIgnored()
    ensures Recommendation("Buy") == "N/A"
  {
    assert !Contains("Buy", "买入") by { FirstCharAbsent("Buy", "买入"); }
    assert !Contains("Buy", "持有") by { FirstCharAbsent("Buy", "持有"); }
    assert !Contains("Buy", "卖出") by { FirstCharAbsent("Buy", "卖出"); }
  }

  /** With the upper-case comparison, "buy" in any letter case is a buy. */
  lemma EnglishBuyCounted(pre: string, w: string, post: string)
    requires |w| == 3 && Upper(w) == "BUY"
    ensures RecommendationCorrected(pre + w + post) == "买入 (Buy)"
  {
    var s := pre + w + post;
    assert Upper(s)[|pre|..|pre| + 3] == Upper(w);
    ContainsAt(Upper(s), "BUY", |pre|);
  }

  /** Length of the match of `\d+\.?\d*` at the start of `s`, or 0. */
  function NumberLen(s: string): (n: nat)
    ensures n <= |s|
  {
    var d := DigitRun(s);
    if d == 0 then 0
    else if d < |s| && s[d] == '.' then d + 1 + DigitRun(s[d + 1..])
    else d
  }

  /** Digits, then possibly a dot and more digits. */
  predicate IsDecimal(v: string) {
    |v| > 0 && IsDigit(v[0])
    && forall i :: 0 <= i < |v| ==> IsDigit(v[i]) || (v[i] == '.' && AllDigits(v[..i]))
  }

  lemma NumberIsDecimal(s: string)
    requires NumberLen(s) > 0
    ensures IsDecimal(s[..NumberLen(s)])
  {
    var d := DigitRun(s);
    var n := NumberLen(s);
    var v := s[..n];
    assert AllDigits(s[..d]);
    forall i | 0 <= i < n
      ensures IsDigit(v[i]) || (v[i] == '.' && AllDigits(v[..i]))
    {
      if i < d {
        assert s[..d][i] == v[i];
      } else if i > d {
        var e := DigitRun(s[d + 1..]);
        assert AllDigits(s[d + 1..][..e]);
        assert s[d + 1..][..e][i - d - 1] == v[i];
      } else {
        assert v[..i] == s[..d];
      }
    }
  }

  /** The three numeric patterns of `extract_key_metrics`. */
  datatype Figure =
    | PriceEarnings  // `P/E[:\s]*(\d+\.?\d*)`, ignoring case
    | TargetCn       // `目标价[:\s]*\$?(\d+\.?\d*)`
    | TargetEn       // `[Tt]arget [Pp]rice[:\s]*\$?(\d+\.?\d*)`

  function LabelLen(f: Figure): nat {
    match f
    case PriceEarnings => 3
    case TargetCn => 3
    case TargetEn => 12
  }

  predicate LabelAt(f: Figure, s: string) {
    match f
    case PriceEarnings => StartsWithCase(s, "p/e", true)
    case TargetCn => StartsWith(s, "目标价")
    case TargetEn =>
      |s| >= 12 && (s[0] == 'T' || s[0] == 't') && s[1..7] == "arget "
      && (s[7] == 'P' || s[7] == 'p') && s[8..12] == "rice"
  }

  /** Length of the run of `:` and white space at the start of `s`. */
  function SeparatorRun(s: string): (n: nat)
    ensures n <= |s|
    decreases |s|
  {
    if |s| > 0 && (s[0] == ':' || IsSpace(s[0])) then 1 + SeparatorRun(s[1..]) else 0
  }

  /** The number the pattern captures when it matches at the start of `s`.
      The separator run and the optional `$` cannot give back characters
      that would let the number start elsewhere, so the greedy reading is
      the only one. */
  function FigureAt(f: Figure, s: string): (v: Option<string>)
    ensures v.Some? ==> IsDecimal(v.value)
  {
    if !LabelAt(f, s) then None
    else
      var k := LabelLen(f) + SeparatorRun(s[LabelLen(f)..]);
      var k := if f != PriceEarnings && k < |s| && s[k] == '$' then k + 1 else k;
      var n := NumberLen(s[k..]);
      if n == 0 then None
      else
        NumberIsDecimal(s[k..]);
        Some(s[k..][..n])
  }

  /** `re.search`: the first position where the pattern matches. */
  function FindFigure(f: Figure, s: string): (v: Option<string>)
    ensures v.Some? ==> IsDecimal(v.value)
    decreases |s|
  {
    match FigureAt(f, s)
    case Some(x) => Some(x)
    case None => if |s| == 0 then None else FindFigure(f, s[1..])
  }

  /** `ReportFormatter.extract_key_metrics`. */
  function ExtractKeyMetrics(content: string): (m: Metrics)
    ensures m.growthRate == "N/A"
    ensures m.recommendation == Recommendation(content)
    ensures m.peRatio == "N/A" || IsDecimal(m.peRatio)
    ensures m.targetPrice == "N/A" || (|m.targetPrice| > 1 && m.targetPrice[0] == '$' && IsDecimal(m.targetPrice[1..]))
  {
    var pe := FindFigure(PriceEarnings, content);
    var target := match FindFigure(TargetCn, content)
      case Some(v) => Some(v)
      case None => FindFigure(TargetEn, content);
    Metrics(Recommendation(content),
            if target.Some? then "$" + target.value else "N/A",
            if pe.Some? then pe.value else "N/A",
            "N/A")
  }

  /** `extract_key_metrics` with the English recommendation words looked
      for in upper case: only the recommendation changes. */
  function ExtractKeyMetricsCorrected(content: string): (m: Metrics)
    ensures m.recommendation == RecommendationCorrected(content)
    ensures m.targetPrice == ExtractKeyMetrics(content).targetPrice
    ensures m.peRatio == ExtractKeyMetrics(content).peRatio
    ensures m.growthRate == "N/A"
  {
    ExtractKeyMetrics(content).(recommendation := RecommendationCorrected(content))
  }

  /** A text without digits yields neither a ratio nor a target. */
  lemma {:induction false} NoDigitNoFigure(f: Figure, s: string)
    requires forall i :: 0 <= i < |s| ==> !IsDigit(s[i])
    ensures FindFigure(f, s) == None
    decreases |s|
  {
    if |s| > 0 {
      NoDigitNoFigure(f, s[1..]);
    }
  }

  lemma NoDigitNoMetrics(content: string)
    requires forall i :: 0 <= i < |content| ==> !IsDigit(content[i])
    ensures ExtractKeyMetrics(content).peRatio == "N/A"
    ensures ExtractKeyMetrics(content).targetPrice == "N/A"
  {
    NoDigitNoFigure(PriceEarnings, content);
    NoDigitNoFigure(TargetCn, content);
    NoDigitNoFigure(TargetEn, content);
  }

  /** The Chinese pattern wins over the English one wherever each occurs. */
  lemma ChineseTargetFirst(content: string)
    requires FindFigure(TargetCn, content).Some?
    ensures ExtractKeyMetrics(content).targetPrice == "$" + FindFigure(TargetCn, content).value
  {
  }

  /** `目标价: $` and a whole number at the start of the text is the target. */
  lemma TargetOfLabel(d: string, rest: string)
    requires |d| > 0 && AllDigits(d)
    requires rest == [] || (!IsDigit(rest[0]) && rest[0] != '.')
    ensures ExtractKeyMetrics("目标价: $" + d + rest).targetPrice == "$" + d
  {
    var s := "目标价" + (": $" + (d + rest));
    assert s == "目标价: $" + d + rest;
    ChineseTargetAt(d, rest);
  }

  lemma ChineseTargetAt(d: string, rest: string)
    requires |d| > 0 && AllDigits(d)
    requires rest == [] || (!IsDigit(rest[0]) && rest[0] != '.')
    ensures FigureAt(TargetCn, "目标价" + (": $" + (d + rest))) == Some(d)
  {
    var s := "目标价" + (": $" + (d + rest));
    assert LabelAt(TargetCn, s) by { assert s[..3] == "目标价"; }
    assert s[3..] == ": $" + (d + rest);
    ColonSpaceDollar("$" + (d + rest));
    assert ": $" + (d + rest) == ": " + ("$" + (d + rest));
    assert s[5] == '$';
    assert s[6..] == d + rest;
    DigitRunAll(d, rest);
    assert (d + rest)[..|d|] == d;
  }

  lemma ColonSpaceDollar(t: string)
    requires |t| > 0 && t[0] == '$'
    ensures SeparatorRun(": " + t) == 2
  {
    assert (": " + t)[1..] == " " + t;
    assert (" " + t)[1..] == t;
    assert !IsSpace('$');
    assert SeparatorRun(t) == 0;
    assert SeparatorRun(" " + t) == 1;
  }

  /** The digit run of digits followed by a non-digit is the digits. */
  lemma {:induction false} DigitRunAll(d: string, rest: string)
    requires AllDigits(d)
    requires rest == [] || !IsDigit(rest[0])
    ensures DigitRun(d + rest) == |d|
    decreases |d|
  {
    if |d| > 0 {
      assert (d + rest)[1..] == d[1..] + rest;
      DigitRunAll(d[1..], rest);
    } else {
      assert d + rest == rest;
    }
  }
}
