/** String operations with the meaning of the Python `str` methods and the
    simple regular expressions the report pipeline applies to model output.

    Characters are Unicode code points. Whitespace is exactly the set for
    which Python's `str.isspace()` holds, which is also what `\s` matches in a
    `str` pattern. Case conversion is ASCII only. */
module Text {
  import opened Seqs

  /** Python `str.isspace()` for a single character (and regex `\s`). */
  predicate IsSpace(c: char) {
    var n := c as int;
    n == 32 || (9 <= n <= 13) || (28 <= n <= 31) || n == 0x85 || n == 0xA0
    || n == 0x1680 || (0x2000 <= n <= 0x200A) || n == 0x2028 || n == 0x2029
    || n == 0x202F || n == 0x205F || n == 0x3000
  }

  predicate IsDigit(c: char) { '0' <= c <= '9' }
  predicate IsUpper(c: char) { 'A' <= c <= 'Z' }
  predicate IsLower(c: char) { 'a' <= c <= 'z' }

  /** Regex `\w` restricted to ASCII: letters, digits and underscore. */
  predicate IsWordChar(c: char) { IsUpper(c) || IsLower(c) || IsDigit(c) || c == '_' }

  function LowerChar(c: char): (r: char)
    ensures !IsUpper(r)
    ensures IsUpper(c) ==> r as int == c as int + 32
    ensures !IsUpper(c) ==> r == c
  {
    if IsUpper(c) then (c as int + 32) as char else c
  }

  function UpperChar(c: char): (r: char)
    ensures !IsLower(r)
    ensures IsLower(c) ==> r as int == c as int - 32
    ensures !IsLower(c) ==> r == c
  {
    if IsLower(c) then (c as int - 32) as char else c
  }

  /** `s.lower()` on ASCII letters; other characters are left as they are. */
  function Lower(s: string): (r: string)
    ensures |r| == |s|
    ensures forall i :: 0 <= i < |s| ==> r[i] == LowerChar(s[i])
  {
    seq(|s|, i requires 0 <= i < |s| => LowerChar(s[i]))
  }

  /** `s.upper()` on ASCII letters. */
  function Upper(s: string): (r: string)
    ensures |r| == |s|
    ensures forall i :: 0 <= i < |s| ==> r[i] == UpperChar(s[i])
  {
    seq(|s|, i requires 0 <= i < |s| => UpperChar(s[i]))
  }

  // ---------------------------------------------------------------------
  // Prefixes, suffixes, substrings

  predicate StartsWith(s: string, p: string) {
    |p| <= |s| && s[..|p|] == p
  }

  predicate EndsWith(s: string, p: string) {
    |p| <= |s| && s[|s| - |p|..] == p
  }

  /** Python `p in s`. */
  predicate Contains(s: string, p: string)
    decreases |s|
  {
    StartsWith(s, p) || (|s| > 0 && Contains(s[1..], p))
  }

  /** `p` occurs in `s` at index `i`. */
  predicate OccursAt(s: string, p: string, i: nat) {
    i + |p| <= |s| && s[i..i + |p|] == p
  }

  /** A word whose first character the text lacks does not occur in it. */
  lemma FirstCharAbsent(s: string, w: string)
    requires |w| > 0 && w[0] !in s
    ensures !Contains(s, w)
  {
    if Contains(s, w) {
      var i := ContainsWitness(s, w);
    }
  }

  /** Python `s.find(p)`: the first index of `p` in `s`, or -1. */
  function IndexOf(s: string, p: string): (k: int)
    ensures k == -1 || 0 <= k <= |s| - |p|
    ensures k == -1 <==> !Contains(s, p)
    ensures k >= 0 ==> OccursAt(s, p, k)
    ensures k >= 0 ==> forall j :: 0 <= j < k ==> !StartsWith(s[j..], p)
    decreases |s|
  {
    if StartsWith(s, p) then 0
    else if |s| == 0 then -1
    else
      var k := IndexOf(s[1..], p);
      if k < 0 then -1
      else
        assert forall j :: 1 <= j < k + 1 ==> s[j..] == s[1..][j - 1..];
        k + 1
  }

  lemma ContainsAt(s: string, p: string, i: nat)
    requires i + |p| <= |s| && s[i..i + |p|] == p
    ensures Contains(s, p)
    decreases i
  {
    if i > 0 {
      assert s[1..][i - 1..i - 1 + |p|] == s[i..i + |p|];
      ContainsAt(s[1..], p, i - 1);
    }
  }

  /** What a suffix contains, the whole string contains. */
  lemma ContainsInSuffix(s: string, p: string, m: nat)
    requires m <= |s| && Contains(s[m..], p)
    ensures Contains(s, p)
  {
    var j := ContainsWitness(s[m..], p);
    assert s[m + j..m + j + |p|] == s[m..][j..j + |p|];
    ContainsAt(s, p, m + j);
  }

  lemma ContainsWitness(s: string, p: string) returns (i: nat)
    requires Contains(s, p)
    ensures OccursAt(s, p, i)
    decreases |s|
  {
    if StartsWith(s, p) {
      i := 0;
    } else {
      var j := ContainsWitness(s[1..], p);
      i := j + 1;
      assert s[i..i + |p|] == s[1..][j..j + |p|];
    }
  }

  /** A one-character pattern is contained exactly when the character occurs. */
  lemma ContainsChar(s: string, c: char)
    ensures Contains(s, [c]) <==> c in s
    decreases |s|
  {
    if |s| > 0 {
      ContainsChar(s[1..], c);
      assert c in s <==> s[0] == c || c in s[1..];
    }
  }

  /** The text after the first `open` up to the next `close` (or the end):
      Python `s.split(open)[1].split(close)[0]`, given that `open` occurs in `s`
      and starts with `close`. */
  function Between(s: string, open: string, close: string): (r: string)
    requires Contains(s, open)
    ensures |r| <= |s|
  {
    var k := IndexOf(s, open);
    var after := s[k + |open|..];
    var e := IndexOf(after, close);
    if e < 0 then after else after[..e]
  }

  // ---------------------------------------------------------------------
  // Counting and filtering characters

  function CountChar(s: string, c: char): (n: nat)
    ensures n <= |s|
    decreases |s|
  {
    if |s| == 0 then 0 else (if s[0] == c then 1 else 0) + CountChar(s[1..], c)
  }

  lemma {:induction false} CountCharZero(s: string, c: char)
    ensures CountChar(s, c) == 0 <==> c !in s
    decreases |s|
  {
    if |s| > 0 {
      CountCharZero(s[1..], c);
      assert c in s <==> s[0] == c || c in s[1..];
    }
  }

  lemma CountCharAppend(a: string, b: string, c: char)
    ensures CountChar(a + b, c) == CountChar(a, c) + CountChar(b, c)
    decreases |a|
  {
    if |a| > 0 {
      assert (a + b)[1..] == a[1..] + b;
      CountCharAppend(a[1..], b, c);
    } else {
      assert a + b == b;
    }
  }

  /** Python `s.replace(c, '')` for one character. */
  function RemoveChar(s: string, c: char): (r: string)
    ensures c !in r
    ensures |r| <= |s|
    ensures forall x :: x in r ==> x in s
    ensures forall x :: x != c ==> CountChar(r, x) == CountChar(s, x)
    decreases |s|
  {
    if |s| == 0 then ""
    else if s[0] == c then RemoveChar(s[1..], c)
    else [s[0]] + RemoveChar(s[1..], c)
  }

  /** The non-whitespace characters of `s`, in order. */
  function NonSpace(s: string): (r: string)
    ensures forall x :: x in r ==> !IsSpace(x)
    decreases |s|
  {
    if |s| == 0 then ""
    else if IsSpace(s[0]) then NonSpace(s[1..])
    else [s[0]] + NonSpace(s[1..])
  }

  lemma NonSpaceAppend(a: string, b: string)
    ensures NonSpace(a + b) == NonSpace(a) + NonSpace(b)
    decreases |a|
  {
    if |a| > 0 {
      assert (a + b)[1..] == a[1..] + b;
      NonSpaceAppend(a[1..], b);
    } else {
      assert a + b == b;
    }
  }

  predicate AllSpace(s: string) {
    forall i :: 0 <= i < |s| ==> IsSpace(s[i])
  }

  /** The first `n` characters of `s` are whitespace. */
  predicate SpacePrefix(s: string, n: nat) {
    n <= |s| && AllSpace(s[..n])
  }

  lemma NonSpaceOfAllSpace(s: string)
    requires AllSpace(s)
    ensures NonSpace(s) == ""
    decreases |s|
  {
    if |s| > 0 {
      NonSpaceOfAllSpace(s[1..]);
    }
  }

  /** Length of the whitespace run at the start of `s`. */
  function SpaceRun(s: string): (n: nat)
    ensures SpacePrefix(s, n) && (n < |s| ==> !IsSpace(s[n]))
    decreases |s|
  {
    if |s| == 0 || !IsSpace(s[0]) then 0 else 1 + SpaceRun(s[1..])
  }

  lemma {:induction false} SpaceRunAppend(a: string, b: string)
    requires AllSpace(a)
    ensures SpaceRun(a + b) == |a| + SpaceRun(b)
    decreases |a|
  {
    if |a| > 0 {
      assert (a + b)[1..] == a[1..] + b;
      SpaceRunAppend(a[1..], b);
    } else {
      assert a + b == b;
    }
  }

  // ---------------------------------------------------------------------
  // split / join

  /** Python `s.split(d)` for a one-character separator. */
  function Split(s: string, d: char): (r: seq<string>)
    ensures |r| == CountChar(s, d) + 1
    ensures forall k :: 0 <= k < |r| ==> d !in r[k]
    decreases |s|
  {
    if |s| == 0 then [""]
    else
      var rest := Split(s[1..], d);
      if s[0] == d then [""] + rest
      else [[s[0]] + rest[0]] + rest[1..]
  }

  /** Python `sep.join(parts)`. */
  function Join(parts: seq<string>, sep: string): (r: string)
    decreases |parts|
  {
    if |parts| == 0 then ""
    else if |parts| == 1 then parts[0]
    else parts[0] + sep + Join(parts[1..], sep)
  }

  lemma JoinSplit(s: string, d: char)
    ensures Join(Split(s, d), [d]) == s
    decreases |s|
  {
    if |s| > 0 {
      JoinSplit(s[1..], d);
      var rest := Split(s[1..], d);
      if s[0] != d && |rest| > 1 {
        assert Join(rest, [d]) == rest[0] + [d] + Join(rest[1..], [d]);
      }
    }
  }

  lemma SplitNoSep(x: string, d: char)
    requires d !in x
    ensures Split(x, d) == [x]
    decreases |x|
  {
    if |x| > 0 {
      SplitNoSep(x[1..], d);
      assert x == [x[0]] + x[1..];
    }
  }

  lemma SplitAtSep(x: string, y: string, d: char)
    requires d !in x
    ensures Split(x + [d] + y, d) == [x] + Split(y, d)
    decreases |x|
  {
    if |x| > 0 {
      assert (x + [d] + y)[1..] == x[1..] + [d] + y;
      SplitAtSep(x[1..], y, d);
      assert x == [x[0]] + x[1..];
    } else {
      assert x + [d] + y == [d] + y;
    }
  }

  lemma SplitJoin(parts: seq<string>, d: char)
    requires |parts| >= 1
    requires forall k :: 0 <= k < |parts| ==> d !in parts[k]
    ensures Split(Join(parts, [d]), d) == parts
    decreases |parts|
  {
    if |parts| == 1 {
      SplitNoSep(parts[0], d);
    } else {
      assert d !in parts[0];
      SplitJoin(parts[1..], d);
      SplitJoinStep(parts, d);
    }
  }

  lemma SplitJoinStep(parts: seq<string>, d: char)
    requires |parts| > 1 && d !in parts[0]
    requires Split(Join(parts[1..], [d]), d) == parts[1..]
    ensures Split(Join(parts, [d]), d) == parts
  {
    var rest := parts[1..];
    SplitAtSep(parts[0], Join(rest, [d]), d);
    assert Join(parts, [d]) == parts[0] + [d] + Join(rest, [d]);
    assert [parts[0]] + rest == parts;
  }

  /** Joining separator-free parts yields one separator per gap. */
  lemma CountJoin(parts: seq<string>, d: char)
    requires |parts| >= 1
    requires forall k :: 0 <= k < |parts| ==> d !in parts[k]
    ensures CountChar(Join(parts, [d]), d) == |parts| - 1
    decreases |parts|
  {
    CountCharZero(parts[0], d);
    if |parts| > 1 {
      CountJoin(parts[1..], d);
      CountCharAppend(parts[0] + [d], Join(parts[1..], [d]), d);
      CountCharAppend(parts[0], [d], d);
    }
  }

  lemma JoinAppend(parts: seq<string>, last: string, sep: string)
    requires |parts| >= 1
    ensures Join(parts + [last], sep) == Join(parts, sep) + sep + last
    decreases |parts|
  {
    if |parts| > 1 {
      assert (parts + [last])[1..] == parts[1..] + [last];
      JoinAppend(parts[1..], last, sep);
    }
  }

  /** A character that neither the parts nor the separator contain is absent
      from the joined string. */
  lemma JoinExcludes(parts: seq<string>, sep: string, c: char)
    requires c !in sep
    requires forall k :: 0 <= k < |parts| ==> c !in parts[k]
    ensures c !in Join(parts, sep)
    decreases |parts|
  {
    if |parts| > 1 {
      JoinExcludes(parts[1..], sep, c);
    }
  }

  // ---------------------------------------------------------------------
  // strip

  /** Python `s.lstrip()`. */
  function LStrip(s: string): (r: string)
    ensures |r| <= |s| && r == s[|s| - |r|..]
    ensures r == [] || !IsSpace(r[0])
    ensures AllSpace(s[..|s| - |r|])
    decreases |s|
  {
    if |s| > 0 && IsSpace(s[0]) then LStrip(s[1..]) else s
  }

  /** Python `s.rstrip()`. */
  function RStrip(s: string): (r: string)
    ensures |r| <= |s| && r == s[..|r|]
    ensures r == [] || !IsSpace(r[|r| - 1])
    ensures AllSpace(s[|r|..])
    decreases |s|
  {
    if |s| > 0 && IsSpace(s[|s| - 1]) then
      var r := RStrip(s[..|s| - 1]);
      TrailingSpace(s, r);
      r
    else s
  }

  /** What is cut from `s` without its last, whitespace character is cut
      from `s` itself. */
  lemma TrailingSpace(s: string, r: string)
    requires |s| > 0 && IsSpace(s[|s| - 1])
    requires |r| <= |s| - 1 && r == s[..|s| - 1][..|r|] && AllSpace(s[..|s| - 1][|r|..])
    ensures r == s[..|r|] && AllSpace(s[|r|..])
  {
    assert s[|r|..] == s[..|s| - 1][|r|..] + [s[|s| - 1]];
  }

  /** Python `s.strip()`. */
  function Strip(s: string): (r: string)
    ensures |r| <= |s|
    ensures r == [] || (!IsSpace(r[0]) && !IsSpace(r[|r| - 1]))
  {
    RStrip(LStrip(s))
  }

  /** Stripping adds no character. */
  lemma StripExcludes(s: string, c: char)
    requires c !in s
    ensures c !in Strip(s)
  {
    var i := StripSlice(s);
    forall k | 0 <= k < |Strip(s)|
      ensures Strip(s)[k] != c
    {
      assert Strip(s)[k] == s[i + k];
    }
  }

  /** `s.strip()` is the slice of `s` left once the whitespace on both sides is cut. */
  lemma StripSlice(s: string) returns (i: nat)
    ensures i + |Strip(s)| <= |s| && Strip(s) == s[i..i + |Strip(s)|]
    ensures AllSpace(s[..i]) && AllSpace(s[i + |Strip(s)|..])
  {
    var l := LStrip(s);
    var r := RStrip(l);
    i := |s| - |l|;
    assert Strip(s) == r;
    SliceOfSuffix(s, l, r, i);
    assert AllSpace(s[..i]);
    assert AllSpace(l[|r|..]);
  }

  /** A prefix `r` of the suffix `l` of `s` that starts at `i`. */
  lemma SliceOfSuffix(s: string, l: string, r: string, i: nat)
    requires i <= |s| && l == s[i..] && |r| <= |l| && r == l[..|r|]
    ensures i + |r| <= |s| && r == s[i..i + |r|] && l[|r|..] == s[i + |r|..]
  {
  }

  /** Where the stripped text starts inside `s`. */
  lemma StripAt(s: string) returns (i: nat)
    ensures i + |Strip(s)| <= |s| && Strip(s) == s[i..i + |Strip(s)|]
  {
    i := StripSlice(s);
  }

  lemma LStripId(s: string)
    requires s == [] || !IsSpace(s[0])
    ensures LStrip(s) == s
  {
  }

  lemma RStripId(s: string)
    requires s == [] || !IsSpace(s[|s| - 1])
    ensures RStrip(s) == s
  {
  }

  lemma StripId(s: string)
    requires s == [] || (!IsSpace(s[0]) && !IsSpace(s[|s| - 1]))
    ensures Strip(s) == s
  {
    LStripId(s);
    RStripId(s);
  }

  lemma StripIdempotent(s: string)
    ensures Strip(Strip(s)) == Strip(s)
  {
    StripId(Strip(s));
  }

  /** A string with a non-space character has a non-empty strip. */
  lemma StripNonEmpty(s: string, i: nat)
    requires i < |s| && !IsSpace(s[i])
    ensures Strip(s) != []
  {
    var j := StripSlice(s);
  }

  /** Padding a stripped string with one space on each side and stripping
      again gives it back. */
  lemma StripPadded(c: string)
    requires c == [] || (!IsSpace(c[0]) && !IsSpace(c[|c| - 1]))
    ensures Strip(" " + c + " ") == c
  {
    var p := " " + c + " ";
    assert p[1..] == c + " ";
    assert LStrip(p) == LStrip(c + " ");
    if c == [] {
      assert LStrip(" ") == LStrip(" "[1..]);
    } else {
      assert LStrip(c + " ") == c + " ";
      assert (c + " ")[..|c|] == c;
      assert RStrip(c + " ") == RStrip(c);
    }
  }

  /** Python `s.strip(chars)` for a set of characters. */
  function StripChars(s: string, chars: set<char>): (r: string)
    ensures |r| <= |s|
    ensures r == [] || (r[0] !in chars && r[|r| - 1] !in chars)
    decreases |s|
  {
    if |s| == 0 then s
    else if s[0] in chars then StripChars(s[1..], chars)
    else if s[|s| - 1] in chars then StripChars(s[..|s| - 1], chars)
    else s
  }

  // ---------------------------------------------------------------------
  // replace

  /** Python `s.replace(pat, rep)`: every non-overlapping occurrence of `pat`,
      scanning left to right, is replaced by `rep`. */
  function ReplaceAll(s: string, pat: string, rep: string): (r: string)
    requires |pat| > 0
    ensures forall x :: x in r ==> x in s || x in rep
    decreases |s|
  {
    if |s| < |pat| then s
    else if s[..|pat|] == pat then rep + ReplaceAll(s[|pat|..], pat, rep)
    else [s[0]] + ReplaceAll(s[1..], pat, rep)
  }

  /** Replacing leaves the count of a character alone when neither the
      pattern nor the replacement mentions it. */
  lemma ReplaceAllKeepsCount(s: string, pat: string, rep: string, c: char)
    requires |pat| > 0 && c !in pat && c !in rep
    ensures CountChar(ReplaceAll(s, pat, rep), c) == CountChar(s, c)
    decreases |s|
  {
    CountCharZero(pat, c);
    CountCharZero(rep, c);
    if |s| >= |pat| {
      if s[..|pat|] == pat {
        ReplaceAllKeepsCount(s[|pat|..], pat, rep, c);
        CountCharAppend(rep, ReplaceAll(s[|pat|..], pat, rep), c);
        assert s == pat + s[|pat|..];
        CountCharAppend(pat, s[|pat|..], c);
      } else {
        ReplaceAllKeepsCount(s[1..], pat, rep, c);
        CountCharAppend([s[0]], ReplaceAll(s[1..], pat, rep), c);
        assert s == [s[0]] + s[1..];
        CountCharAppend([s[0]], s[1..], c);
      }
    }
  }

  /** `pat` no longer occurs once it has been replaced by text that cannot
      take part in a new occurrence; for a one-character pattern it is enough
      that the replacement does not contain that character. */
  lemma ReplaceAllRemovesChar(s: string, c: char, rep: string)
    requires c !in rep
    ensures c !in ReplaceAll(s, [c], rep)
    decreases |s|
  {
    if |s| >= 1 {
      ReplaceAllRemovesChar(s[1..], c, rep);
    }
  }

  // ---------------------------------------------------------------------
  // Delimited spans: regex `D([^c]+)D` where D is the character c repeated
  // k times, replaced by `pre + inner + post`.

  predicate AllIs(s: string, c: char) {
    forall i :: 0 <= i < |s| ==> s[i] == c
  }

  /** None of the first `n` characters of `s` is `c`. */
  predicate AbsentBefore(s: string, c: char, n: nat) {
    n <= |s| && c !in s[..n]
  }

  /** Length of the longest prefix of `s` without `c`. */
  function RunWithout(s: string, c: char): (n: nat)
    ensures AbsentBefore(s, c, n)
    ensures n < |s| ==> s[n] == c
    decreases |s|
  {
    if |s| == 0 || s[0] == c then 0 else 1 + RunWithout(s[1..], c)
  }

  /** Whether a span `D inner D` starts at the beginning of `s`; if so its
      inner length. Greedy `[^c]+` can only stop where `c` follows, so the
      inner part is exactly the maximal run without `c`. */
  function SpanAt(s: string, c: char, k: nat): (n: nat)
    requires k >= 1
    ensures n > 0 ==> k + n + k <= |s|
  {
    if |s| >= k && AllIs(s[..k], c) then
      var n := RunWithout(s[k..], c);
      if n >= 1 && k + n + k <= |s| && AllIs(s[k + n..k + n + k], c) then n else 0
    else 0
  }

  /** Python `re.sub(D([^c]+)D, pre + r'\1' + post, s)`. */
  function ReplaceSpans(s: string, c: char, k: nat, pre: string, post: string): (r: string)
    requires k >= 1
    ensures forall x :: x in r ==> x in s || x in pre || x in post
    decreases |s|
  {
    if |s| == 0 then ""
    else
      var n := SpanAt(s, c, k);
      if n > 0 then
        pre + s[k..k + n] + post + ReplaceSpans(s[k + n + k..], c, k, pre, post)
      else [s[0]] + ReplaceSpans(s[1..], c, k, pre, post)
  }

  /** One step of the left-to-right scan of `re.sub(D([^c]+)D, r'\1', s)`:
      the text this step keeps and the position where the scan resumes. */
  function UnwrapStep(s: string, c: char, k: nat): (r: (string, nat))
    requires k >= 1 && |s| > 0
    ensures 0 < r.1 <= |s|
  {
    var n := SpanAt(s, c, k);
    if n > 0 then (s[k..k + n], k + n + k) else ([s[0]], 1)
  }

  /** Python `re.sub(D([^c]+)D, r'\1', s)`: the wrapped text is kept, the
      delimiters go. */
  function Unwrap(s: string, c: char, k: nat): (r: string)
    requires k >= 1
    ensures |r| <= |s|
    decreases |s|
  {
    if |s| == 0 then ""
    else
      var st := UnwrapStep(s, c, k);
      st.0 + Unwrap(s[st.1..], c, k)
  }

  /** Unwrapping removes nothing but the delimiter character. */
  lemma {:induction false} UnwrapKeepsOtherCounts(s: string, c: char, k: nat, x: char)
    requires k >= 1 && x != c
    ensures CountChar(Unwrap(s, c, k), x) == CountChar(s, x)
    decreases |s|
  {
    if |s| > 0 {
      var st := UnwrapStep(s, c, k);
      UnwrapKeepsOtherCounts(s[st.1..], c, k, x);
      UnwrapStepCount(s, c, k, x);
      CountCharAppend(st.0, Unwrap(s[st.1..], c, k), x);
    }
  }

  /** A step keeps every character but the delimiters it skips. */
  lemma UnwrapStepCount(s: string, c: char, k: nat, x: char)
    requires k >= 1 && |s| > 0 && x != c
    ensures CountChar(s, x) == CountChar(UnwrapStep(s, c, k).0, x) + CountChar(s[UnwrapStep(s, c, k).1..], x)
  {
    var n := SpanAt(s, c, k);
    if n > 0 {
      SpanAtDelimited(s, c, k);
      CountWithoutDelimiters(s, c, k, n, x);
    } else {
      CountSplit(s, 1, x);
      assert s[..1] == [s[0]];
    }
  }

  lemma {:induction false} CountSplit(s: string, i: nat, x: char)
    requires i <= |s|
    ensures CountChar(s, x) == CountChar(s[..i], x) + CountChar(s[i..], x)
  {
    assert s == s[..i] + s[i..];
    CountCharAppend(s[..i], s[i..], x);
  }

  /** The count of `x` in `s` is the count in the inner part plus the count
      after the closing delimiter, when both delimiters are runs of `c`. */
  lemma CountWithoutDelimiters(s: string, c: char, k: nat, n: nat, x: char)
    requires k + n + k <= |s| && x != c
    requires AllIs(s[..k], c) && AllIs(s[k + n..k + n + k], c)
    ensures CountChar(s, x) == CountChar(s[k..k + n], x) + CountChar(s[k + n + k..], x)
  {
    AllIsExcludes(s[..k], c, x);
    AllIsExcludes(s[k + n..k + n + k], c, x);
    CountSplit(s, k, x);
    var r := s[k..];
    CountSplit(r, n, x);
    assert r[..n] == s[k..k + n] && r[n..] == s[k + n..];
    var q := s[k + n..];
    CountSplit(q, k, x);
    assert q[..k] == s[k + n..k + n + k] && q[k..] == s[k + n + k..];
  }

  /** A span found by `SpanAt` lies between two delimiters of `k` characters `c`. */
  lemma SpanAtDelimited(s: string, c: char, k: nat)
    requires k >= 1 && SpanAt(s, c, k) > 0
    ensures AllIs(s[..k], c) && AllIs(s[k + SpanAt(s, c, k)..k + SpanAt(s, c, k) + k], c)
  {
  }

  lemma AllIsExcludes(s: string, c: char, x: char)
    requires AllIs(s, c) && x != c
    ensures CountChar(s, x) == 0
  {
  }

  /** No span starts at a character other than the delimiter. */
  lemma NoSpanWithoutDelimiter(s: string, c: char, k: nat)
    requires k >= 1 && |s| > 0 && s[0] != c
    ensures SpanAt(s, c, k) == 0 && UnwrapStep(s, c, k) == ([s[0]], 1)
  {
    if |s| >= k {
      assert s[..k][0] == s[0];
    }
  }

  /** Unwrapping text that has no delimiter character changes nothing. */
  lemma {:induction false} UnwrapAbsent(s: string, c: char, k: nat)
    requires k >= 1 && c !in s
    ensures Unwrap(s, c, k) == s
    decreases |s|
  {
    if |s| > 0 {
      NoSpanWithoutDelimiter(s, c, k);
      UnwrapAbsent(s[1..], c, k);
      assert s == [s[0]] + s[1..];
    }
  }

  /** A span `D x D` on its own unwraps to `x`. */
  lemma UnwrapSpan(x: string, c: char, k: nat, d: string)
    requires k >= 1 && |x| > 0 && c !in x && |d| == k && AllIs(d, c)
    ensures Unwrap(d + x + d, c, k) == x
  {
    var s := d + x + d;
    SpanOfWrapped(x, c, k, d);
    assert UnwrapStep(s, c, k) == (x, |s|);
    assert s[|s|..] == [];
  }

  lemma SpanOfWrapped(x: string, c: char, k: nat, d: string)
    requires k >= 1 && |x| > 0 && c !in x && |d| == k && AllIs(d, c)
    ensures SpanAt(d + x + d, c, k) == |x| && (d + x + d)[k..k + |x|] == x
  {
    var s := d + x + d;
    assert s[..k] == d && s[k..] == x + d;
    RunWithoutPrefix(x, d, c);
    assert s[k + |x|..k + |x| + k] == d;
  }

  lemma {:induction false} RunWithoutPrefix(x: string, d: string, c: char)
    requires c !in x && |d| > 0 && d[0] == c
    ensures RunWithout(x + d, c) == |x|
    decreases |x|
  {
    if |x| > 0 {
      assert (x + d)[1..] == x[1..] + d;
      RunWithoutPrefix(x[1..], d, c);
    }
  }

  /** Every piece of a split is made of characters of the split string. */
  lemma {:induction false} SplitPiecesWithin(s: string, d: char, x: char)
    requires x !in s
    ensures forall k :: 0 <= k < |Split(s, d)| ==> x !in Split(s, d)[k]
    decreases |s|
  {
    if |s| > 0 {
      SplitPiecesWithin(s[1..], d, x);
    }
  }

  // ---------------------------------------------------------------------
  // Slices and numbers

  /** Length of the first line of `s`, up to its newline. */
  function LineLen(s: string): (n: nat)
    ensures n <= |s| && (n < |s| ==> s[n] == '\n')
    decreases |s|
  {
    if |s| == 0 || s[0] == '\n' then 0 else 1 + LineLen(s[1..])
  }

  /** Python `s[:n]`: at most the first `n` characters. */
  function Take<T>(s: seq<T>, n: nat): (r: seq<T>)
    ensures |r| == if n < |s| then n else |s|
    ensures r == s[..|r|]
  {
    if n < |s| then s[..n] else s
  }

  function DigitChar(d: nat): (c: char)
    requires d < 10
    ensures IsDigit(c)
  {
    ('0' as int + d) as char
  }

  function DigitValue(c: char): (d: nat)
    requires IsDigit(c)
    ensures d < 10
  {
    c as int - '0' as int
  }

  /** Python `str(n)` for a natural number. */
  function NatToString(n: nat): (r: string)
    ensures |r| > 0 && forall i :: 0 <= i < |r| ==> IsDigit(r[i])
    decreases n
  {
    if n < 10 then [DigitChar(n)] else NatToString(n / 10) + [DigitChar(n % 10)]
  }

  predicate AllDigits(s: string) {
    forall i :: 0 <= i < |s| ==> IsDigit(s[i])
  }

  /** The first `n` characters of `s` are ASCII digits. */
  predicate DigitPrefix(s: string, n: nat) {
    n <= |s| && AllDigits(s[..n])
  }

  /** Length of the longest prefix of ASCII digits (regex `\d*`). */
  function DigitRun(s: string): (n: nat)
    ensures DigitPrefix(s, n) && (n < |s| ==> !IsDigit(s[n]))
    decreases |s|
  {
    if |s| == 0 || !IsDigit(s[0]) then 0 else 1 + DigitRun(s[1..])
  }

  /** Python `int(s)` on a string of ASCII digits. */
  function DigitsValue(s: string): nat
    requires AllDigits(s)
  {
    if |s| == 0 then 0 else 10 * DigitsValue(s[..|s| - 1]) + DigitValue(s[|s| - 1])
  }

  /** Reading back the decimal form gives the number. */
  lemma {:induction false} NatToStringValue(n: nat)
    ensures DigitsValue(NatToString(n)) == n
    decreases n
  {
    if n >= 10 {
      NatToStringValue(n / 10);
      var r := NatToString(n);
      assert r[..|r| - 1] == NatToString(n / 10);
    }
  }
}
