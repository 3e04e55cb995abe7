/** The regular-expression rewrites that the report formatters share, each
    written out as the left-to-right scan that Python's `re.sub` and
    `re.findall` perform:
      - `open[^>]*>(.*?)close` with DOTALL (a tag pair, lazy inner text);
      - `<[^>]+>` (any tag);
      - `c{m,}` (a run of at least `m` copies of one character).
    Case-insensitive matching folds ASCII letters only. */
module Patterns {
  import opened Seqs
  import opened Text
  import opened Wrappers

  // ---------------------------------------------------------------------
  // Literal search, optionally ignoring case

  predicate StartsWithCase(s: string, p: string, ci: bool) {
    |p| <= |s| && (if ci then Lower(s[..|p|]) == Lower(p) else s[..|p|] == p)
  }

  /** The first index at which `p` occurs in `s`, or -1. */
  function FindCase(s: string, p: string, ci: bool): (k: int)
    ensures k == -1 || (0 <= k && k + |p| <= |s|)
    decreases |s|
  {
    if StartsWithCase(s, p, ci) then 0
    else if |s| == 0 then -1
    else
      var k := FindCase(s[1..], p, ci);
      if k < 0 then -1 else k + 1
  }

  /** A found index is an occurrence, and none comes before it. */
  lemma {:induction false} FindCaseFound(s: string, p: string, ci: bool)
    requires FindCase(s, p, ci) >= 0
    ensures StartsWithCase(s[FindCase(s, p, ci)..], p, ci)
    ensures forall j :: 0 <= j < FindCase(s, p, ci) ==> !StartsWithCase(s[j..], p, ci)
    decreases |s|
  {
    if !StartsWithCase(s, p, ci) {
      FindCaseFound(s[1..], p, ci);
      var k := FindCase(s[1..], p, ci);
      assert s[k + 1..] == s[1..][k..];
      forall j | 0 < j < k + 1
        ensures !StartsWithCase(s[j..], p, ci)
      {
        assert s[j..] == s[1..][j - 1..];
      }
    }
  }

  predicate ContainsCase(s: string, p: string, ci: bool) {
    FindCase(s, p, ci) >= 0
  }

  /** Not finding `p` in `s` means not finding it at the start nor further on. */
  lemma NotFoundShift(s: string, p: string, ci: bool)
    requires |s| > 0 && !ContainsCase(s, p, ci)
    ensures !StartsWithCase(s, p, ci) && !ContainsCase(s[1..], p, ci)
  {
  }

  // ---------------------------------------------------------------------
  // Tag pairs: `open[^>]*>(.*?)close`, DOTALL

  /** Whether the pattern matches at the start of `s`; if so, where the
      inner text starts and where `close` starts. `[^>]*>` ends at the first
      `>` after `open`, and the lazy `(.*?)` stops at the first `close`. */
  function PairAt(s: string, open: string, close: string, ci: bool): (m: Option<(nat, nat)>)
    ensures m.Some? ==> |open| < m.value.0 <= m.value.1 && m.value.1 + |close| <= |s|
  {
    if !StartsWithCase(s, open, ci) then None
    else
      var g := FindCase(s[|open|..], ">", false);
      if g < 0 then None
      else
        var b := |open| + g + 1;
        var c := FindCase(s[b..], close, ci);
        if c < 0 then None else Some((b, b + c))
  }

  /** What replaces a match, given the whole match and its inner text. */
  datatype Rewrite =
    | Wrap(pre: string, post: string, trim: bool)  // `pre + \1 + post`; `trim` when `\s*` surrounds the group
    | Remove                                       // the empty replacement
    | Whole(f: string -> string)                   // a callback on the whole match

  function Apply(rw: Rewrite, whole: string, inner: string): string {
    match rw
    case Wrap(pre, post, trim) => pre + (if trim then Strip(inner) else inner) + post
    case Remove => ""
    case Whole(f) => f(whole)
  }

  /** `re.sub(open[^>]*>(.*?)close, rw, s, flags=DOTALL)`. With `trim` the
      pattern is `open[^>]*>\s*(.*?)\s*close`: the greedy `\s*` and the lazy
      group leave exactly the stripped inner text in the group. */
  function SubPairs(s: string, open: string, close: string, ci: bool, rw: Rewrite): string
    decreases |s|
  {
    if |s| == 0 then ""
    else
      match PairAt(s, open, close, ci)
      case Some(m) =>
        var e := m.1 + |close|;
        Apply(rw, s[..e], s[m.0..m.1]) + SubPairs(s[e..], open, close, ci, rw)
      case None => [s[0]] + SubPairs(s[1..], open, close, ci, rw)
  }

  /** `len(re.findall(open[^>]*>.*?close, s, flags))`. */
  function CountPairs(s: string, open: string, close: string, ci: bool): (n: nat)
    ensures n <= |s|
    decreases |s|
  {
    if |s| == 0 then 0
    else
      match PairAt(s, open, close, ci)
      case Some(m) => 1 + CountPairs(s[m.1 + |close|..], open, close, ci)
      case None => CountPairs(s[1..], open, close, ci)
  }

  /** Text without the opening tag is left as it is. */
  lemma {:induction false} SubPairsAbsent(s: string, open: string, close: string, ci: bool, rw: Rewrite)
    requires !ContainsCase(s, open, ci)
    ensures SubPairs(s, open, close, ci, rw) == s
    decreases |s|
  {
    if |s| > 0 {
      NotFoundShift(s, open, ci);
      SubPairsAbsent(s[1..], open, close, ci, rw);
      assert [s[0]] + s[1..] == s;
    }
  }

  /** Text without the opening tag has no match. */
  lemma {:induction false} CountPairsAbsent(s: string, open: string, close: string, ci: bool)
    requires !ContainsCase(s, open, ci)
    ensures CountPairs(s, open, close, ci) == 0
    decreases |s|
  {
    if |s| > 0 {
      NotFoundShift(s, open, ci);
      CountPairsAbsent(s[1..], open, close, ci);
    }
  }

  /** One element, `open` + attributes + `>` + inner + `close`, with no `>`
      in the attributes and no `<` inside, is rewritten on its own. */
  lemma PairAtElement(open: string, attrs: string, inner: string, close: string, ci: bool)
    requires '>' !in attrs && |close| > 0 && close[0] == '<' && '<' !in inner
    requires StartsWithCase(open + (attrs + ">" + (inner + close)), open, ci)
    ensures PairAt(open + (attrs + ">" + (inner + close)), open, close, ci)
            == Some((|open| + |attrs| + 1, |open| + |attrs| + 1 + |inner|))
  {
    var rest := attrs + ">" + (inner + close);
    var s := open + rest;
    assert s[|open|..] == rest;
    FindGt(attrs, inner + close);
    var b := |open| + |attrs| + 1;
    assert s[b..] == inner + close by {
      assert rest[|attrs| + 1..] == inner + close;
    }
    FindAfter(inner, close, ci);
    PairAtFound(s, open, close, ci, |attrs|, |inner|);
  }

  /** One element on its own is replaced by what the rewrite makes of its
      inner text. */
  lemma SubPairsElement(open: string, attrs: string, inner: string, close: string, ci: bool, rw: Rewrite)
    requires '>' !in attrs && |close| > 0 && close[0] == '<' && '<' !in inner
    requires StartsWithCase(open + (attrs + ">" + (inner + close)), open, ci)
    ensures SubPairs(open + (attrs + ">" + (inner + close)), open, close, ci, rw)
            == Apply(rw, open + (attrs + ">" + (inner + close)), inner)
  {
    var s := open + (attrs + ">" + (inner + close));
    var b := |open| + |attrs| + 1;
    PairAtElement(open, attrs, inner, close, ci);
    InnerOfElement(s, open, attrs, inner, close);
    ElementRewrite(s, open, close, ci, rw, b, inner);
  }

  lemma ElementRewrite(s: string, open: string, close: string, ci: bool, rw: Rewrite, b: nat, inner: string)
    requires b + |inner| + |close| == |s| && s[b..b + |inner|] == inner
    requires PairAt(s, open, close, ci) == Some((b, b + |inner|))
    ensures SubPairs(s, open, close, ci, rw) == Apply(rw, s, inner)
  {
    SubPairsWholeMatch(s, open, close, ci, rw, b, b + |inner|);
  }

  lemma InnerOfElement(s: string, open: string, attrs: string, inner: string, close: string)
    requires s == open + (attrs + ">" + (inner + close))
    ensures s[|open| + |attrs| + 1..|open| + |attrs| + 1 + |inner|] == inner
    ensures |open| + |attrs| + 1 + |inner| + |close| == |s|
  {
    var t := attrs + ">" + (inner + close);
    assert s[|open|..] == t;
    assert t[|attrs| + 1..] == inner + close;
  }

  /** A match that spans the whole text is its only rewrite. */
  lemma SubPairsWholeMatch(s: string, open: string, close: string, ci: bool, rw: Rewrite, b: nat, c: nat)
    requires PairAt(s, open, close, ci) == Some((b, c)) && c + |close| == |s|
    ensures SubPairs(s, open, close, ci, rw) == Apply(rw, s, s[b..c])
  {
    assert s[..|s|] == s;
    assert s[|s|..] == [];
  }

  /** `PairAt` in terms of the two searches it makes. */
  lemma PairAtFound(s: string, open: string, close: string, ci: bool, g: nat, c: nat)
    requires StartsWithCase(s, open, ci)
    requires FindCase(s[|open|..], ">", false) == g
    requires |open| + g + 1 <= |s| && FindCase(s[|open| + g + 1..], close, ci) == c
    ensures PairAt(s, open, close, ci) == Some((|open| + g + 1, |open| + g + 1 + c))
  {
  }

  lemma {:induction false} FindGt(attrs: string, rest: string)
    requires '>' !in attrs
    ensures FindCase(attrs + ">" + rest, ">", false) == |attrs|
    decreases |attrs|
  {
    if |attrs| > 0 {
      assert (attrs + ">" + rest)[1..] == attrs[1..] + ">" + rest;
      assert (attrs + ">" + rest)[..1] == [attrs[0]];
      FindGt(attrs[1..], rest);
    } else {
      assert (attrs + ">" + rest)[..1] == ">";
    }
  }

  /** A text can only start with a closing tag if it starts with `<`. */
  lemma StartsWithLt(x: string, close: string, ci: bool)
    requires |close| > 0 && close[0] == '<' && StartsWithCase(x, close, ci)
    ensures x[0] == '<'
  {
    if ci {
      assert Lower(x[..|close|])[0] == Lower(close)[0];
    } else {
      assert x[..|close|][0] == close[0];
    }
  }

  lemma {:induction false} FindAfter(inner: string, close: string, ci: bool)
    requires |close| > 0 && close[0] == '<' && '<' !in inner
    ensures FindCase(inner + close, close, ci) == |inner|
    decreases |inner|
  {
    if |inner| > 0 {
      if StartsWithCase(inner + close, close, ci) {
        StartsWithLt(inner + close, close, ci);
        assert false;
      }
      assert (inner + close)[1..] == inner[1..] + close;
      FindAfter(inner[1..], close, ci);
    } else {
      assert (inner + close)[..|close|] == close;
    }
  }

  // ---------------------------------------------------------------------
  // Any tag: `<[^>]+>` replaced by ''

  /** `re.sub(r'<[^>]+>', '', s)`: a `<`, at least one character that is not
      `>`, up to the first `>`. */
  function StripTags(s: string): (r: string)
    ensures forall x :: x in r ==> x in s
    ensures |s| > 0 && s[0] != '<' ==> |r| > 0 && r[0] == s[0]
    decreases |s|
  {
    if |s| == 0 then ""
    else if s[0] == '<' && |s| > 1 && s[1] != '>' && FindCase(s[1..], ">", false) > 0 then
      StripTags(s[FindCase(s[1..], ">", false) + 2..])
    else [s[0]] + StripTags(s[1..])
  }

  /** No tag is left: every `<` is either directly followed by `>` or has no
      `>` anywhere after it. */
  predicate NoTag(s: string) {
    forall i :: 0 <= i < |s| && s[i] == '<' ==> (i + 1 < |s| && s[i + 1] == '>') || '>' !in s[i + 1..]
  }

  lemma {:induction false} StripTagsNoTag(s: string)
    ensures NoTag(StripTags(s))
    decreases |s|
  {
    if |s| > 0 {
      if s[0] == '<' && |s| > 1 && s[1] != '>' && FindCase(s[1..], ">", false) > 0 {
        StripTagsNoTag(s[FindCase(s[1..], ">", false) + 2..]);
      } else {
        StripTagsNoTag(s[1..]);
        StripTagsHead(s);
      }
    }
  }

  /** A `<` that survives heads a text where the tag cannot close. */
  lemma StripTagsHead(s: string)
    requires |s| > 0 && NoTag(StripTags(s[1..]))
    requires !(s[0] == '<' && |s| > 1 && s[1] != '>' && FindCase(s[1..], ">", false) > 0)
    ensures NoTag([s[0]] + StripTags(s[1..]))
  {
    var rest := StripTags(s[1..]);
    var r := [s[0]] + rest;
    assert r[1..] == rest;
    if s[0] == '<' && |s| > 1 {
      if s[1] == '>' {
        assert rest[0] == '>';
      } else {
        GtAbsent(s[1..]);
        assert '>' !in rest;
      }
    }
    forall i | 1 <= i < |r| && r[i] == '<'
      ensures (i + 1 < |r| && r[i + 1] == '>') || '>' !in r[i + 1..]
    {
      assert r[i + 1..] == rest[i..];
      assert rest[i - 1] == '<';
    }
  }

  /** When `>` is not found after a first character that is not `>`, there is none. */
  lemma GtAbsent(t: string)
    requires |t| > 0 && t[0] != '>' && FindCase(t, ">", false) <= 0
    ensures '>' !in t
  {
    assert !StartsWithCase(t, ">", false) by { assert t[..1] == [t[0]]; }
    NotFoundChar(t, '>');
  }

  lemma {:induction false} NotFoundChar(t: string, c: char)
    requires FindCase(t, [c], false) < 0
    ensures c !in t
    decreases |t|
  {
    if |t| > 0 {
      assert t[..1] == [t[0]];
      NotFoundChar(t[1..], c);
      assert t == [t[0]] + t[1..];
    }
  }

  // ---------------------------------------------------------------------
  // Runs of one character: `c{m,}` replaced by `t` copies of `c`

  /** The first `n` characters of `s` are copies of `c`. */
  predicate RunPrefix(s: string, c: char, n: nat) {
    n <= |s| && AllIs(s[..n], c)
  }

  function Rep(c: char, n: nat): (r: string)
    ensures |r| == n && AllIs(r, c)
  {
    if n == 0 then "" else [c] + Rep(c, n - 1)
  }

  /** Length of the run of `c` at the start of `s`. */
  function RunOf(s: string, c: char): (n: nat)
    ensures RunPrefix(s, c, n)
    ensures n < |s| ==> s[n] != c
    decreases |s|
  {
    if |s| == 0 || s[0] != c then 0 else 1 + RunOf(s[1..], c)
  }

  /** `re.sub(c{m,}, c * t, s)`: each maximal run of at least `m` copies of
      `c` becomes `t` copies; shorter runs stay. */
  function CollapseRuns(s: string, c: char, m: nat, t: nat): (r: string)
    requires m >= 1
    ensures forall x :: x in r ==> x in s || x == c
    ensures |s| > 0 && s[0] != c ==> |r| > 0 && r[0] == s[0]
    decreases |s|
  {
    if |s| == 0 then ""
    else if s[0] != c then [s[0]] + CollapseRuns(s[1..], c, m, t)
    else
      var n := RunOf(s, c);
      (if n >= m then Rep(c, t) else s[..n]) + CollapseRuns(s[n..], c, m, t)
  }

  /** No `k` consecutive copies of `c`. */
  predicate NoRun(s: string, c: char, k: nat) {
    forall i :: 0 <= i < |s| ==> RunOf(s[i..], c) < k
  }

  /** After collapsing, no run is longer than `t` or `m - 1`. */
  lemma {:induction false} CollapseRunsBound(s: string, c: char, m: nat, t: nat, k: nat)
    requires m >= 1 && k > t && k >= m
    ensures NoRun(CollapseRuns(s, c, m, t), c, k)
    decreases |s|
  {
    if |s| > 0 {
      if s[0] != c {
        CollapseRunsBound(s[1..], c, m, t, k);
        NoRunCons(s[0], CollapseRuns(s[1..], c, m, t), c, k);
      } else {
        var n := RunOf(s, c);
        CollapseRunsBound(s[n..], c, m, t, k);
        var block := if n >= m then Rep(c, t) else s[..n];
        NoRunBlock(block, CollapseRuns(s[n..], c, m, t), c, k);
      }
    }
  }

  lemma NoRunCons(x: char, rest: string, c: char, k: nat)
    requires x != c && k > 0 && NoRun(rest, c, k)
    ensures NoRun([x] + rest, c, k)
  {
    var r := [x] + rest;
    forall i | 0 <= i < |r|
      ensures RunOf(r[i..], c) < k
    {
      if i > 0 {
        assert r[i..] == rest[i - 1..];
      }
    }
  }

  /** A run of `c` at the front of a text adds its length to the text's run. */
  lemma {:induction false} RunOfAppend(a: string, b: string, c: char)
    requires AllIs(a, c)
    ensures RunOf(a + b, c) == |a| + RunOf(b, c)
    decreases |a|
  {
    if |a| > 0 {
      assert (a + b)[1..] == a[1..] + b;
      RunOfAppend(a[1..], b, c);
    } else {
      assert a + b == b;
    }
  }

  /** A short block of `c` followed by a text that does not start with `c`. */
  lemma NoRunBlock(block: string, rest: string, c: char, k: nat)
    requires AllIs(block, c) && |block| < k && NoRun(rest, c, k)
    requires rest == [] || rest[0] != c
    ensures NoRun(block + rest, c, k)
  {
    var r := block + rest;
    forall i | 0 <= i < |r|
      ensures RunOf(r[i..], c) < k
    {
      if i < |block| {
        assert r[i..] == block[i..] + rest;
        RunOfAppend(block[i..], rest, c);
      } else {
        assert r[i..] == rest[i - |block|..];
      }
    }
  }

  /** A text without `c` has no run of it. */
  lemma NoRunAbsent(s: string, c: char, k: nat)
    requires c !in s && k > 0
    ensures NoRun(s, c, k)
  {
    forall i | 0 <= i < |s|
      ensures RunOf(s[i..], c) < k
    {
      assert s[i..][0] == s[i];
    }
  }

  /** Stripping the ends keeps a text free of long runs. */
  lemma StripNoRun(s: string, c: char, k: nat)
    requires NoRun(s, c, k)
    ensures NoRun(Strip(s), c, k)
  {
    var i := StripAt(s);
    NoRunOfSlice(Strip(s), s, c, k, i);
  }

  lemma NoRunOfSlice(t: string, s: string, c: char, k: nat, a: nat)
    requires a + |t| <= |s| && t == s[a..a + |t|] && NoRun(s, c, k)
    ensures NoRun(t, c, k)
  {
    NoRunSlice(s, c, k, a, a + |t|);
  }

  /** A run inside a prefix is no longer than the run in the whole text. */
  lemma {:induction false} RunOfPrefix(t: string, n: nat, c: char)
    requires n <= |t|
    ensures RunOf(t[..n], c) <= RunOf(t, c)
    decreases n
  {
    if n > 0 && t[0] == c {
      assert t[..n][1..] == t[1..][..n - 1];
      RunOfPrefix(t[1..], n - 1, c);
    }
  }

  /** A slice of a text without long runs has none either. */
  lemma NoRunSlice(s: string, c: char, k: nat, a: nat, b: nat)
    requires a <= b <= |s| && NoRun(s, c, k)
    ensures NoRun(s[a..b], c, k)
  {
    forall i | 0 <= i < b - a
      ensures RunOf(s[a..b][i..], c) < k
    {
      RunOfSlice(s, c, a, b, i);
    }
  }

  lemma RunOfSlice(s: string, c: char, a: nat, b: nat, i: nat)
    requires a <= b <= |s| && i < b - a
    ensures RunOf(s[a..b][i..], c) <= RunOf(s[a + i..], c)
  {
    assert s[a..b][i..] == s[a + i..][..b - a - i];
    RunOfPrefix(s[a + i..], b - a - i, c);
  }

  // ---------------------------------------------------------------------
  // Text the rewrites leave alone

  /** A pattern that opens with `<` does not occur in text without `<`. */
  lemma NoLtNoOpen(s: string, p: string)
    requires |p| > 0 && p[0] == '<' && '<' !in s
    ensures !ContainsCase(s, p, false)
  {
    if ContainsCase(s, p, false) {
      FindCaseFound(s, p, false);
      assert false;
    }
  }

  /** Text without `<` has no tag to strip. */
  lemma {:induction false} StripTagsId(s: string)
    requires '<' !in s
    ensures StripTags(s) == s
    decreases |s|
  {
    if |s| > 0 {
      StripTagsId(s[1..]);
      assert [s[0]] + s[1..] == s;
    }
  }

  /** Text without a run of `m` copies of `c` is left as it is. */
  lemma {:induction false} CollapseRunsId(s: string, c: char, m: nat, t: nat)
    requires m >= 1 && NoRun(s, c, m)
    ensures CollapseRuns(s, c, m, t) == s
    decreases |s|
  {
    if |s| > 0 {
      if s[0] != c {
        NoRunSlice(s, c, m, 1, |s|);
        assert s[1..|s|] == s[1..];
        CollapseRunsId(s[1..], c, m, t);
        assert [s[0]] + s[1..] == s;
      } else {
        var n := RunOf(s, c);
        assert s[0..] == s;
        NoRunSlice(s, c, m, n, |s|);
        assert s[n..|s|] == s[n..];
        CollapseRunsId(s[n..], c, m, t);
        assert s[..n] + s[n..] == s;
      }
    }
  }

  /** A text whose only copy of `c` is its last character has no run of two. */
  lemma NoRunLast(s: string, c: char, k: nat)
    requires |s| > 0 && c !in s[..|s| - 1] && k >= 2
    ensures NoRun(s, c, k)
  {
    forall i | 0 <= i < |s|
      ensures RunOf(s[i..], c) < k
    {
      if i < |s| - 1 {
        assert s[i..][0] == s[..|s| - 1][i];
      } else {
        assert s[i..][1..] == [];
      }
    }
  }
}
