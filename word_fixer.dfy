/** The split-word repairer of `agents/word_fixer.py`.

    Model output sometimes arrives with words broken by stray spaces
    ("Ch in a", "a nd"). The repairer rewrites a fixed dictionary of such
    fragments, longest fragment first, then drops Markdown emphasis markers
    and normalises spaces and blank lines. */
module WordFixer {
  import opened Seqs
  import opened Text
  import opened Patterns

  /** Every dictionary key begins and ends with a letter, so `\b` on
      either side means "no word character touches it". */
  predicate KeyShape(key: string) {
    |key| > 0 && IsWordChar(key[0]) && IsWordChar(key[|key| - 1])
  }

  /** Every repaired word is made of letters and spaces. */
  predicate Letters(w: string) {
    forall j :: 0 <= j < |w| ==> IsUpper(w[j]) || IsLower(w[j]) || w[j] == ' '
  }

  type Key = k: string | KeyShape(k) witness "a"
  type Word = w: string | Letters(w)

  /** A dictionary entry: the broken fragment and its repaired word. */
  datatype Entry = Entry(key: Key, value: Word)

  /** `SPLIT_WORDS_DICT` in its insertion order, written in groups of four
      entries so that each group's literals are checked on their own. */
  const Words0: seq<Entry> := [Entry("R are", "Rare"), Entry("r are", "rare"), Entry("Mag net", "Magnet"), Entry("mag net", "magnet")]
  const Words1: seq<Entry> := [Entry("a dditional", "additional"), Entry("A dditional", "Additional"), Entry("a dditionally", "additionally"), Entry("A dditionally", "Additionally")]
  const Words2: seq<Entry> := [Entry("Ch in a", "China"), Entry("ch in a", "china"), Entry("Ch ina", "China"), Entry("ch ina", "china")]
  const Words3: seq<Entry> := [Entry("a nd", "and"), Entry("A nd", "And"), Entry("a djusted", "adjusted"), Entry("A djusted", "Adjusted")]
  const Words4: seq<Entry> := [Entry("a nalyst", "analyst"), Entry("A nalyst", "Analyst"), Entry("a nticipated", "anticipated"), Entry("A nticipated", "Anticipated")]
  const Words5: seq<Entry> := [Entry("o perational", "operational"), Entry("O perational", "Operational"), Entry("p rior", "prior"), Entry("P rior", "Prior")]
  const Words6: seq<Entry> := [Entry("v alidates", "validates"), Entry("V alidates", "Validates"), Entry("e bitda", "ebitda"), Entry("E bitda", "EBITDA")]
  const Words7: seq<Entry> := [Entry("e ps", "eps"), Entry("E ps", "EPS"), Entry("E B I T D A", "EBITDA"), Entry("E P S", "EPS")]
  const Words8: seq<Entry> := [Entry("be at", "beat"), Entry("Be at", "Beat"), Entry("Th e", "The"), Entry("th e", "the")]
  const Words9: seq<Entry> := [Entry("Th is", "This"), Entry("th is", "this"), Entry("Th at", "That"), Entry("th at", "that")]
  const Words10: seq<Entry> := [Entry("Co mpany", "Company"), Entry("co mpany", "company"), Entry("Re venue", "Revenue"), Entry("re venue", "revenue")]
  const Words11: seq<Entry> := [Entry("Ma terial", "Material"), Entry("ma terial", "material"), Entry("Ma terials", "Materials"), Entry("ma terials", "materials")]
  const Words12: seq<Entry> := [Entry("o f t h e", "of the"), Entry("o f", "of"), Entry("t h e", "the"), Entry("i n", "in")]
  const Words13: seq<Entry> := [Entry("a t", "at"), Entry("i s", "is"), Entry("o n", "on"), Entry("b y", "by")]
  const Words14: seq<Entry> := [Entry("t o", "to"), Entry("f o r", "for"), Entry("a n d", "and")]

  const SplitWords: seq<Entry> :=
    Words0 + Words1 + Words2 + Words3 + Words4 + Words5 + Words6 + Words7 + Words8 +
    Words9 + Words10 + Words11 + Words12 + Words13 + Words14

  /** A repaired word carries no Markdown emphasis marker. */
  lemma WordMarkerFree(w: Word)
    ensures '*' !in w && '_' !in w
  {
  }

  // ---------------------------------------------------------------------
  // Ordering: `sorted(items, key=len(key), reverse=True)`

  /** Insert `e` before the first entry whose key is no longer than its own,
      so that among keys of equal length the earlier entry stays first. */
  function InsertByLength(e: Entry, es: seq<Entry>): (r: seq<Entry>)
    ensures |r| == |es| + 1
    decreases |es|
  {
    if |es| == 0 || |es[0].key| <= |e.key| then [e] + es
    else [es[0]] + InsertByLength(e, es[1..])
  }

  /** Python's stable sort by descending key length. */
  function SortByLength(es: seq<Entry>): (r: seq<Entry>)
    ensures |r| == |es|
    decreases |es|
  {
    if |es| == 0 then [] else InsertByLength(es[0], SortByLength(es[1..]))
  }

  predicate LongestFirst(es: seq<Entry>) {
    forall i, j :: 0 <= i < j < |es| ==> |es[i].key| >= |es[j].key|
  }

  /** No key longer than `n`. */
  predicate KeysAtMost(es: seq<Entry>, n: nat) {
    forall i :: 0 <= i < |es| ==> |es[i].key| <= n
  }

  /** The entries whose key has length `n`, in order. */
  function WithLength(es: seq<Entry>, n: nat): seq<Entry>
    decreases |es|
  {
    if |es| == 0 then []
    else (if |es[0].key| == n then [es[0]] else []) + WithLength(es[1..], n)
  }

  lemma {:induction false} InsertPermutes(e: Entry, es: seq<Entry>)
    ensures multiset(InsertByLength(e, es)) == multiset(es) + multiset{e}
    decreases |es|
  {
    if |es| > 0 && |es[0].key| > |e.key| {
      InsertPermutes(e, es[1..]);
      assert es == [es[0]] + es[1..];
    }
  }

  lemma {:induction false} InsertKeysAtMost(e: Entry, es: seq<Entry>, n: nat)
    requires KeysAtMost(es, n) && |e.key| <= n
    ensures KeysAtMost(InsertByLength(e, es), n)
    decreases |es|
  {
    if |es| > 0 && |es[0].key| > |e.key| {
      InsertKeysAtMost(e, es[1..], n);
      var r := InsertByLength(e, es[1..]);
      assert InsertByLength(e, es) == [es[0]] + r;
    }
  }

  lemma LongestFirstCons(x: Entry, ys: seq<Entry>)
    requires LongestFirst(ys) && KeysAtMost(ys, |x.key|)
    ensures LongestFirst([x] + ys)
  {
    var r := [x] + ys;
    forall i, j | 0 <= i < j < |r|
      ensures |r[i].key| >= |r[j].key|
    {
      if i > 0 {
        assert r[i] == ys[i - 1] && r[j] == ys[j - 1];
      } else {
        assert r[j] == ys[j - 1];
      }
    }
  }

  lemma {:induction false} InsertLongestFirst(e: Entry, es: seq<Entry>)
    requires LongestFirst(es)
    ensures LongestFirst(InsertByLength(e, es))
    decreases |es|
  {
    if |es| == 0 || |es[0].key| <= |e.key| {
      assert KeysAtMost(es, |e.key|) by {
        forall i | 0 <= i < |es| ensures |es[i].key| <= |e.key| {
          assert |es[i].key| <= |es[0].key|;
        }
      }
      LongestFirstCons(e, es);
    } else {
      var tail := es[1..];
      assert LongestFirst(tail) by {
        forall i, j | 0 <= i < j < |tail| ensures |tail[i].key| >= |tail[j].key| {
          assert tail[i] == es[i + 1] && tail[j] == es[j + 1];
        }
      }
      InsertLongestFirst(e, tail);
      assert KeysAtMost(tail, |es[0].key|) by {
        forall i | 0 <= i < |tail| ensures |tail[i].key| <= |es[0].key| {
          assert tail[i] == es[i + 1];
        }
      }
      InsertKeysAtMost(e, tail, |es[0].key|);
      LongestFirstCons(es[0], InsertByLength(e, tail));
    }
  }

  /** The dictionary is applied longest key first, and the order is a
      permutation of the dictionary. */
  lemma {:induction false} SortByLengthSorted(es: seq<Entry>)
    ensures LongestFirst(SortByLength(es))
    ensures multiset(SortByLength(es)) == multiset(es)
    decreases |es|
  {
    if |es| > 0 {
      SortByLengthSorted(es[1..]);
      InsertLongestFirst(es[0], SortByLength(es[1..]));
      InsertPermutes(es[0], SortByLength(es[1..]));
      assert es == [es[0]] + es[1..];
    }
  }

  lemma {:induction false} InsertWithLength(e: Entry, es: seq<Entry>, n: nat)
    requires LongestFirst(es)
    ensures WithLength(InsertByLength(e, es), n)
            == (if |e.key| == n then [e] else []) + WithLength(es, n)
    decreases |es|
  {
    if |es| == 0 || |es[0].key| <= |e.key| {
      assert InsertByLength(e, es) == [e] + es;
      assert ([e] + es)[1..] == es;
      if |e.key| == n {
        assert WithLength([e] + es, n) == [e] + WithLength(es, n);
      } else {
        assert WithLength([e] + es, n) == WithLength(es, n);
      }
    } else {
      var tail := es[1..];
      assert LongestFirst(tail) by {
        forall i, j | 0 <= i < j < |tail| ensures |tail[i].key| >= |tail[j].key| {
          assert tail[i] == es[i + 1] && tail[j] == es[j + 1];
        }
      }
      InsertWithLength(e, tail, n);
      var r := InsertByLength(e, tail);
      assert InsertByLength(e, es) == [es[0]] + r;
      assert ([es[0]] + r)[1..] == r;
      if |e.key| == n {
        // every key in `es` is at least as long as the first one, which is
        // longer than `e`'s
        assert WithLength(es, n) == WithLength(tail, n) by {
          assert |es[0].key| != n;
        }
      }
    }
  }

  /** The sort is stable: entries whose keys have the same length keep their
      dictionary order. */
  lemma {:induction false} SortByLengthStable(es: seq<Entry>, n: nat)
    ensures WithLength(SortByLength(es), n) == WithLength(es, n)
    decreases |es|
  {
    if |es| > 0 {
      SortByLengthStable(es[1..], n);
      SortByLengthSorted(es[1..]);
      InsertWithLength(es[0], SortByLength(es[1..]), n);
    }
  }

  // ---------------------------------------------------------------------
  // One entry: `re.sub(r'\b' + re.escape(key) + r'\b', value, s, re.I)`,
  // then `s.replace(key, value)`

  /** A case-insensitive word-bounded occurrence of `key` at `i`. */
  predicate WordAt(s: string, key: string, i: nat) {
    i + |key| <= |s| && Lower(s[i..i + |key|]) == Lower(key)
    && (i == 0 || !IsWordChar(s[i - 1]))
    && (i + |key| == |s| || !IsWordChar(s[i + |key|]))
  }

  /** The left-to-right scan of `re.sub` from position `i` of `s`; the
      boundaries are judged on the original text. */
  function WordSub(s: string, key: string, value: string, i: nat): (r: string)
    requires i <= |s| && |key| > 0
    decreases |s| - i
  {
    if i == |s| then ""
    else if WordAt(s, key, i) then value + WordSub(s, key, value, i + |key|)
    else [s[i]] + WordSub(s, key, value, i + 1)
  }

  /** The rewrite of one dictionary entry. */
  function FixEntry(s: string, e: Entry): string {
    ReplaceAll(WordSub(s, e.key, e.value, 0), e.key, e.value)
  }

  /** The entries applied one after the other, first to last. */
  function ApplyEntries(s: string, es: seq<Entry>): string
    decreases |es|
  {
    if |es| == 0 then s
    else FixEntry(ApplyEntries(s, es[..|es| - 1]), es[|es| - 1])
  }

  /** `fix_split_words`: empty text is returned as it is. */
  function SplitWordsFixed(text: string): string {
    if text == "" then text else ApplyEntries(text, SortByLength(SplitWords))
  }

  /** `WordFixer.fix_split_words`. */
  method FixSplitWords(text: string) returns (r: string)
    ensures r == SplitWordsFixed(text)
  {
    if text == "" {
      return text;
    }
    var sorted := SortByLength(SplitWords);
    r := text;
    for i := 0 to |sorted|
      invariant r == ApplyEntries(text, sorted[..i])
    {
      PrefixStep(sorted, i);
      r := FixEntry(r, sorted[i]);
    }
    Seqs.FullSlice(sorted);
  }

  // ---------------------------------------------------------------------
  // What the rewrite cannot introduce

  lemma {:induction false} WordSubExcludes(s: string, key: string, value: string, i: nat, c: char)
    requires i <= |s| && |key| > 0 && c !in s && c !in value
    ensures c !in WordSub(s, key, value, i)
    decreases |s| - i
  {
    if i < |s| {
      if WordAt(s, key, i) {
        WordSubExcludes(s, key, value, i + |key|, c);
      } else {
        WordSubExcludes(s, key, value, i + 1, c);
      }
    }
  }

  /** The dictionary rewrite introduces no emphasis marker. */
  lemma {:induction false} ApplyEntriesMarkerFree(s: string, es: seq<Entry>, c: char)
    requires c !in s && (c == '*' || c == '_')
    ensures c !in ApplyEntries(s, es)
    decreases |es|
  {
    if |es| > 0 {
      var e := es[|es| - 1];
      ApplyEntriesMarkerFree(s, es[..|es| - 1], c);
      WordMarkerFree(e.value);
      WordSubExcludes(ApplyEntries(s, es[..|es| - 1]), e.key, e.value, 0, c);
    }
  }

  /** With no word-bounded occurrence of the key, the `re.sub` step leaves
      the text alone. */
  lemma {:induction false} WordSubNoMatch(s: string, key: string, value: string, i: nat)
    requires i <= |s| && |key| > 0
    requires forall j :: i <= j < |s| ==> !WordAt(s, key, j)
    ensures WordSub(s, key, value, i) == s[i..]
    decreases |s| - i
  {
    if i < |s| {
      WordSubNoMatch(s, key, value, i + 1);
      assert s[i..] == [s[i]] + s[i + 1..];
    }
  }

  /** A word-bounded occurrence in any letter case is replaced by the
      mapped word exactly as the dictionary writes it. */
  lemma WordSubWritesValue(s: string, key: string, value: string, i: nat)
    requires i <= |s| && |key| > 0 && WordAt(s, key, i)
    ensures WordSub(s, key, value, i)[..|value|] == value
  {
  }

  /** "A nd" is repaired to "and", not "And": the two entries have keys of
      the same length, the lower-case one comes first in the dictionary and
      matches regardless of case. */
  lemma CaseNotPreserved()
    ensures FixEntry("A nd", Entry("a nd", "and")) == "and"
  {
    assert WordAt("A nd", "a nd", 0) by {
      assert Lower("A nd") == Lower("a nd");
    }
    assert WordSub("A nd", "a nd", "and", 0) == "and";
  }

  // ---------------------------------------------------------------------
  // fix_all_issues

  /** One past the last newline of `t`, or 0 when it has none. */
  function AfterLastNewline(t: string): (e: nat)
    ensures e <= |t| && (e > 0 ==> t[e - 1] == '\n')
    ensures |t| > 0 && t[0] == '\n' ==> e > 0
    decreases |t|
  {
    if |t| == 0 then 0
    else if t[|t| - 1] == '\n' then |t|
    else AfterLastNewline(t[..|t| - 1])
  }

  /** Regex `\n\s*\n\s*\n+` matches at the start of `s`: a newline opens a
      whitespace run holding at least three newlines. */
  predicate BlankRunAt(s: string) {
    |s| > 0 && s[0] == '\n' && CountChar(s[..SpaceRun(s)], '\n') >= 3
  }

  /** `re.sub(r'\n\s*\n\s*\n+', '\n\n', s)`: the match runs from the opening
      newline to the last newline of the run (the greedy `\s*` give back just
      enough for the final `\n+`), and becomes one blank line. */
  function CollapseBlank(s: string): (r: string)
    ensures |s| > 0 ==> |r| > 0 && r[0] == s[0]
    decreases |s|
  {
    if |s| == 0 then ""
    else if BlankRunAt(s) then "\n\n" + CollapseBlank(s[AfterLastNewline(s[..SpaceRun(s)])..])
    else [s[0]] + CollapseBlank(s[1..])
  }

  /** `WordFixer.fix_all_issues`, as a value. */
  function AllIssuesFixed(text: string): string {
    if text == "" then text
    else
      var t := Unwrap(Unwrap(text, '*', 2), '_', 2);
      var t := RemoveChar(RemoveChar(t, '*'), '_');
      var t := SplitWordsFixed(t);
      Strip(CollapseBlank(CollapseRuns(t, ' ', 2, 1)))
  }

  /** `WordFixer.fix_all_issues`: each step reassigns the text. */
  method FixAllIssues(text: string) returns (r: string)
    ensures r == AllIssuesFixed(text)
  {
    if text == "" {
      return text;
    }
    r := Unwrap(text, '*', 2);
    r := Unwrap(r, '_', 2);
    r := RemoveChar(r, '*');
    r := RemoveChar(r, '_');
    r := FixSplitWords(r);
    r := CollapseRuns(r, ' ', 2, 1);
    r := CollapseBlank(r);
    r := Strip(r);
  }

  // ---------------------------------------------------------------------
  // What fix_all_issues promises

  /** Empty text comes back as it is from both repairers. */
  lemma EmptyUnchanged()
    ensures SplitWordsFixed("") == "" && AllIssuesFixed("") == ""
  {
  }

  /** The output has no emphasis marker, no two spaces in a row, and no
      whitespace at either end. */
  lemma {:induction false} AllIssuesFixedClean(text: string)
    ensures '*' !in AllIssuesFixed(text) && '_' !in AllIssuesFixed(text)
    ensures NoRun(AllIssuesFixed(text), ' ', 2)
    ensures Strip(AllIssuesFixed(text)) == AllIssuesFixed(text)
  {
    if text != "" {
      var t0 := Unwrap(Unwrap(text, '*', 2), '_', 2);
      var t1 := RemoveChar(RemoveChar(t0, '*'), '_');
      assert '*' !in t1 && '_' !in t1;
      var t2 := SplitWordsFixed(t1);
      if t1 != "" {
        ApplyEntriesMarkerFree(t1, SortByLength(SplitWords), '*');
        ApplyEntriesMarkerFree(t1, SortByLength(SplitWords), '_');
      }
      var t3 := CollapseRuns(t2, ' ', 2, 1);
      CollapseRunsBound(t2, ' ', 2, 1, 2);
      var t4 := CollapseBlank(t3);
      CollapseBlankExcludes(t3, '*');
      CollapseBlankExcludes(t3, '_');
      CollapseBlankNoRun(t3);
      StripExcludes(t4, '*');
      StripExcludes(t4, '_');
      var i := StripSlice(t4);
      NoRunSlice(t4, ' ', 2, i, i + |Strip(t4)|);
      StripIdempotent(t4);
    }
  }

  lemma {:induction false} CollapseBlankExcludes(s: string, c: char)
    requires c != '\n' && c !in s
    ensures c !in CollapseBlank(s)
    decreases |s|
  {
    if |s| > 0 {
      if BlankRunAt(s) {
        CollapseBlankExcludes(s[AfterLastNewline(s[..SpaceRun(s)])..], c);
      } else {
        CollapseBlankExcludes(s[1..], c);
      }
    }
  }

  /** Collapsing blank lines creates no run of spaces. */
  lemma {:induction false} CollapseBlankNoRun(s: string)
    requires NoRun(s, ' ', 2)
    ensures NoRun(CollapseBlank(s), ' ', 2)
    decreases |s|
  {
    if |s| > 0 {
      if BlankRunAt(s) {
        var e := AfterLastNewline(s[..SpaceRun(s)]);
        NoRunSlice(s, ' ', 2, e, |s|);
        assert s[e..|s|] == s[e..];
        CollapseBlankNoRun(s[e..]);
        var rest := CollapseBlank(s[e..]);
        NoRunCons('\n', rest, ' ', 2);
        NoRunCons('\n', "\n" + rest, ' ', 2);
        assert "\n\n" + rest == ['\n'] + (['\n'] + rest);
      } else {
        NoRunSlice(s, ' ', 2, 1, |s|);
        assert s[1..|s|] == s[1..];
        CollapseBlankNoRun(s[1..]);
        var rest := CollapseBlank(s[1..]);
        if s[0] == ' ' {
          assert RunOf(s[0..], ' ') < 2;
          assert s[0..] == s;
          NoRunBlock([' '], rest, ' ', 2);
        } else {
          NoRunCons(s[0], rest, ' ', 2);
        }
      }
    }
  }

  /** Text with fewer than three newlines has no blank run to collapse. */
  lemma {:induction false} CollapseBlankFew(s: string)
    requires CountChar(s, '\n') < 3
    ensures CollapseBlank(s) == s
    decreases |s|
  {
    if |s| > 0 {
      CountSplit(s, SpaceRun(s), '\n');
      CountSplit(s, 1, '\n');
      CollapseBlankFew(s[1..]);
      assert s == [s[0]] + s[1..];
    }
  }

  /** A newline-led whitespace run with at least three newlines, up to its
      last newline, becomes exactly one blank line; the whitespace after the
      last newline stays. */
  lemma CollapseBlankRun(a: string, b: string)
    requires |a| > 0 && a[0] == '\n' && a[|a| - 1] == '\n' && AllSpace(a)
    requires CountChar(a, '\n') >= 3 && '\n' !in b[..SpaceRun(b)]
    ensures CollapseBlank(a + b) == "\n\n" + CollapseBlank(b)
  {
    var s := a + b;
    SpaceRunAppend(a, b);
    var w := b[..SpaceRun(b)];
    assert s[..SpaceRun(s)] == a + w;
    CountCharAppend(a, w, '\n');
    assert BlankRunAt(s);
    AfterLastNewlineAppend(a, w);
    assert s[|a|..] == b;
  }

  lemma {:induction false} AfterLastNewlineAppend(a: string, w: string)
    requires |a| > 0 && a[|a| - 1] == '\n' && '\n' !in w
    ensures AfterLastNewline(a + w) == |a|
    decreases |w|
  {
    if |w| > 0 {
      assert (a + w)[..|a + w| - 1] == a + w[..|w| - 1];
      assert w[|w| - 1] in w;
      AfterLastNewlineAppend(a, w[..|w| - 1]);
    } else {
      assert a + w == a;
    }
  }
}
