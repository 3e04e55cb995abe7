// The text-handling helpers of `ProfessionalPDFGenerator` (pdf_generator.py):
// what counts as table data, how `Label: Value` lines become table rows, how
// Markdown and entities are cleaned for the PDF paragraphs, how a section is
// cut into paragraphs, which sections are rendered and in what order, and how
// a Markdown report is cut into the four sections and named.
//
// The rendering itself (reportlab styles, the document build) is not part of
// this model: a rendered document is the list of `Block`s its story holds.

module PdfGenerator {
  import opened Wrappers
  import opened Seqs
  import opened Text
  import opened JsonValue
  import Patterns

  // ---------------------------------------------------------------------
  // _looks_like_table_data

  /** The number of digits in `s`. */
  function Digits(s: string): (n: nat)
    ensures n <= |s|
    decreases |s|
  {
    if |s| == 0 then 0 else (if IsDigit(s[0]) then 1 else 0) + Digits(s[1..])
  }

  /** The number of matches of `\d+` in `s`: maximal runs of digits. */
  function DigitRuns(s: string): (n: nat)
    ensures n <= Digits(s)
    ensures n == 0 <==> Digits(s) == 0
    decreases |s|
  {
    if |s| == 0 then 0
    else if IsDigit(s[0]) then
      var k := DigitRun(s);
      DigitsOfRun(s, k);
      1 + DigitRuns(s[k..])
    else DigitRuns(s[1..])
  }

  /** The digits of `s` are those of its leading run plus those after it. */
  lemma {:induction false} DigitsOfRun(s: string, k: nat)
    requires k <= |s| && AllDigits(s[..k])
    ensures Digits(s) == k + Digits(s[k..])
    decreases k
  {
    if k > 0 {
      assert IsDigit(s[..k][0]);
      assert s[1..][..k - 1] == s[..k][1..];
      DigitsOfRun(s[1..], k - 1);
      assert s[1..][k - 1..] == s[k..];
    }
  }

  /** The count of `%`, `$` and `~` characters. */
  function SpecialChars(s: string): nat {
    CountChar(s, '%') + CountChar(s, '$') + CountChar(s, '~')
  }

  /** `_looks_like_table_data`: short text with more than five numbers and
      more than two of `%`, `$`, `~`. */
  predicate LooksLikeTableData(text: string) {
    |text| <= 500 && DigitRuns(text) > 5 && SpecialChars(text) > 2
  }

  /** Text over 500 characters, text with at most five digits and text with
      at most two special characters are never table data. */
  lemma NotTableData(text: string)
    ensures |text| > 500 ==> !LooksLikeTableData(text)
    ensures Digits(text) <= 5 ==> !LooksLikeTableData(text)
    ensures CountChar(text, '%') + CountChar(text, '$') + CountChar(text, '~') <= 2 ==> !LooksLikeTableData(text)
  {
  }

  /** Numbers on the two sides of a non-digit are counted separately. */
  lemma {:induction false} DigitRunsSplit(a: string, c: char, b: string)
    requires !IsDigit(c)
    ensures DigitRuns(a + [c] + b) == DigitRuns(a) + DigitRuns(b)
    decreases |a|
  {
    var s := a + [c] + b;
    if |a| == 0 {
      assert s == [c] + b && s[1..] == b;
    } else if IsDigit(a[0]) {
      var k := DigitRun(a);
      DigitRunPrefix(a, [c] + b);
      assert s == a + ([c] + b);
      assert s[k..] == a[k..] + [c] + b;
      DigitRunsSplit(a[k..], c, b);
    } else {
      assert s[1..] == a[1..] + [c] + b;
      DigitRunsSplit(a[1..], c, b);
    }
  }

  /** The leading digit run of `a` ends inside `a` when what follows starts
      with a non-digit. */
  lemma {:induction false} DigitRunPrefix(a: string, rest: string)
    requires |rest| > 0 && !IsDigit(rest[0])
    ensures DigitRun(a + rest) == DigitRun(a)
    decreases |a|
  {
    if |a| == 0 {
      assert a + rest == rest;
    } else {
      assert (a + rest)[1..] == a[1..] + rest;
      DigitRunPrefix(a[1..], rest);
    }
  }

  // ---------------------------------------------------------------------
  // _parse_and_create_table: `Label: Value` rows

  /** A table row: the label cell and the value cell. */
  type Row = (string, string)

  /** The row of a line holding a `:`: split at the first `:`, both sides
      stripped. */
  function RowOf(line: string): (r: Row)
    requires ':' in line
    ensures ':' !in r.0
  {
    var k := RunWithout(line, ':');
    StripExcludes(line[..k], ':');
    (Strip(line[..k]), Strip(line[k + 1..]))
  }

  /** A line `head:value` whose head has no `:` splits there; further
      colons stay in the value. */
  lemma RowOfLabelValue(line: string, head: string, value: string)
    requires ':' !in head && line == head + ":" + value
    ensures ':' in line && RowOf(line) == (Strip(head), Strip(value))
  {
    assert line[|head|] == ':';
    RunWithoutPrefix(head, ":" + value, ':');
    assert line == head + (":" + value);
    assert line[..|head|] == head && line[|head| + 1..] == value;
  }

  /** The rows of the lines, in order: one per line holding a `:`. */
  function Rows(lines: seq<string>): seq<Row>
    decreases |lines|
  {
    if |lines| == 0 then []
    else
      var last := lines[|lines| - 1];
      Rows(lines[..|lines| - 1]) + (if ':' in last then [RowOf(last)] else [])
  }

  /** Every line with a `:` gives its row. */
  lemma {:induction false} RowsComplete(lines: seq<string>, i: nat)
    requires i < |lines| && ':' in lines[i]
    ensures RowOf(lines[i]) in Rows(lines)
    decreases |lines|
  {
    var init := lines[..|lines| - 1];
    if i < |lines| - 1 {
      assert init[i] == lines[i];
      RowsComplete(init, i);
    }
  }

  /** Every row comes from a line with a `:`. */
  lemma {:induction false} RowsSound(lines: seq<string>, r: Row)
    requires r in Rows(lines)
    ensures exists i :: 0 <= i < |lines| && ':' in lines[i] && r == RowOf(lines[i])
    decreases |lines|
  {
    var init := lines[..|lines| - 1];
    if r in Rows(init) {
      RowsSound(init, r);
      var i :| 0 <= i < |init| && ':' in init[i] && r == RowOf(init[i]);
      assert init[i] == lines[i];
    } else {
      assert r == RowOf(lines[|lines| - 1]);
    }
  }

  /** There are no rows exactly when no line has a `:`. */
  lemma {:induction false} RowsEmpty(lines: seq<string>)
    ensures Rows(lines) == [] <==> forall i :: 0 <= i < |lines| ==> ':' !in lines[i]
    decreases |lines|
  {
    if |lines| > 0 {
      var init := lines[..|lines| - 1];
      RowsEmpty(init);
      assert forall i :: 0 <= i < |init| ==> init[i] == lines[i];
    }
  }

  /** The table `_parse_and_create_table` builds from a paragraph, or `None`
      when no line holds a `:`. */
  function TableRows(text: string): Option<seq<Row>> {
    var rows := Rows(Split(text, '\n'));
    if rows == [] then None else Some(rows)
  }

  /** The row loop of `_parse_and_create_table`. */
  method ParseAndCreateTable(text: string) returns (table: Option<seq<Row>>)
    ensures table == TableRows(text)
  {
    var lines := Split(text, '\n');
    var rows: seq<Row> := [];
    for i := 0 to |lines|
      invariant rows == Rows(lines[..i])
    {
      assert lines[..i + 1][..i] == lines[..i];
      if ':' in lines[i] {
        rows := rows + [RowOf(lines[i])];
      }
    }
    assert lines[..|lines|] == lines;
    if rows != [] {
      table := Some(rows);
    } else {
      table := None;
    }
  }

  // ---------------------------------------------------------------------
  // _clean_text

  /** `re.sub(r'\*\*([^*]+)\*\*', r'<b>\1</b>', s)`. */
  function Bold(s: string): string {
    ReplaceSpans(s, '*', 2, "<b>", "</b>")
  }

  /** `re.sub(r'\*([^*]+)\*', r'<i>\1</i>', s)`. */
  function Italic(s: string): string {
    ReplaceSpans(s, '*', 1, "<i>", "</i>")
  }

  /** `re.sub(r'^#+\s+', '', s)`: without the multi-line flag only a marker
      at the very start of the text is removed. */
  function StripHeading(s: string): (r: string)
    ensures |r| <= |s|
  {
    var h := Patterns.RunOf(s, '#');
    if h >= 1 && SpaceRun(s[h..]) >= 1 then s[h + SpaceRun(s[h..])..] else s
  }

  /** The three entity replacements, `&lt;` first and `&amp;` last. */
  function DecodeEntities(s: string): string {
    ReplaceAll(ReplaceAll(ReplaceAll(s, "&lt;", "<"), "&gt;", ">"), "&amp;", "&")
  }

  /** `_clean_text`. */
  function CleanText(s: string): string {
    DecodeEntities(StripHeading(Unwrap(Italic(Bold(s)), '~', 2)))
  }

  /** Text without the delimiter has no span to replace. */
  lemma {:induction false} ReplaceSpansAbsent(s: string, c: char, k: nat, pre: string, post: string)
    requires k >= 1 && c !in s
    ensures ReplaceSpans(s, c, k, pre, post) == s
    decreases |s|
  {
    if |s| > 0 {
      NoSpanWithoutDelimiter(s, c, k);
      ReplaceSpansAbsent(s[1..], c, k, pre, post);
      assert s == [s[0]] + s[1..];
    }
  }

  /** A lone delimiter character at the end of text without it is no span
      of two or more. */
  lemma {:induction false} ReplaceSpansLone(y: string, c: char, k: nat, pre: string, post: string)
    requires k >= 2 && c !in y
    ensures ReplaceSpans(y + [c], c, k, pre, post) == y + [c]
    decreases |y|
  {
    var s := y + [c];
    if |y| == 0 {
      assert |s| == 1 && s[1..] == [];
    } else {
      NoSpanWithoutDelimiter(s, c, k);
      assert s[1..] == y[1..] + [c];
      ReplaceSpansLone(y[1..], c, k, pre, post);
    }
  }

  /** `D x D` on its own becomes `pre + x + post`. */
  lemma ReplaceWrapped(s: string, x: string, c: char, k: nat, d: string, pre: string, post: string, r: string)
    requires k >= 1 && |x| > 0 && c !in x && |d| == k && AllIs(d, c) && s == d + x + d
    requires r == pre + x + post
    ensures ReplaceSpans(s, c, k, pre, post) == r
  {
    SpanOfWrapped(x, c, k, d);
    assert s[k + |x| + k..] == [];
  }

  /** Replacing a pattern that does not occur changes nothing. */
  lemma {:induction false} ReplaceAllAbsent(s: string, pat: string, rep: string)
    requires |pat| > 0 && pat[0] !in s
    ensures ReplaceAll(s, pat, rep) == s
    decreases |s|
  {
    if |s| >= |pat| {
      assert s[..|pat|][0] == s[0];
      ReplaceAllAbsent(s[1..], pat, rep);
      assert s == [s[0]] + s[1..];
    }
  }

  /** Text without `&` has no entity to decode. */
  lemma DecodeAbsent(s: string)
    requires '&' !in s
    ensures DecodeEntities(s) == s
  {
    ReplaceAllAbsent(s, "&lt;", "<");
    ReplaceAllAbsent(s, "&gt;", ">");
    ReplaceAllAbsent(s, "&amp;", "&");
  }

  /** `&amp;` is decoded last, so what it turns into is not decoded again:
      `&amp;lt;` becomes `&lt;`, not `<`. */
  lemma AmpersandDecodedLast(s: string, x: string)
    requires '&' !in x && s == "&amp;" + x
    ensures DecodeEntities(s) == "&" + x
  {
    assert s[..4] != "&lt;" && s[..4] != "&gt;";
    assert s[1..] == "amp;" + x;
    ReplaceAllAbsent(s[1..], "&lt;", "<");
    assert ReplaceAll(s, "&lt;", "<") == s;
    ReplaceAllAbsent(s[1..], "&gt;", ">");
    assert ReplaceAll(s, "&gt;", ">") == s;
    assert s[..5] == "&amp;" && s[5..] == x;
    ReplaceAllAbsent(x, "&amp;", "&");
  }

  /** A heading marker at the start goes; text starting otherwise keeps
      its first character. */
  lemma StripHeadingAt(s: string, h: string, w: string, x: string)
    requires s == h + w + x && |h| > 0 && AllIs(h, '#') && |w| > 0 && AllSpace(w)
    requires x == [] || (x[0] != '#' && !IsSpace(x[0]))
    ensures StripHeading(s) == x
    ensures forall t :: t == [] || t[0] != '#' ==> StripHeading(t) == t
  {
    assert s == h + (w + x);
    RunOfPrefix(h, w + x);
    assert s[|h|..] == w + x;
    if x == [] {
      assert w + x == w;
    }
    SpaceRunAppend(w, x);
    assert SpaceRun(x) == 0;
    assert s[|h| + |w|..] == x;
  }

  /** The `#` run at the start ends where the text after it starts with
      something else. */
  lemma {:induction false} RunOfPrefix(h: string, rest: string)
    requires AllIs(h, '#') && |rest| > 0 && rest[0] != '#'
    ensures Patterns.RunOf(h + rest, '#') == |h|
    decreases |h|
  {
    if |h| > 0 {
      assert (h + rest)[1..] == h[1..] + rest;
      RunOfPrefix(h[1..], rest);
    } else {
      assert h + rest == rest;
    }
  }

  /** The passes after the bold and italic ones leave alone text without
      markup that does not start with `#`. */
  lemma LaterPassesKeep(t: string)
    requires '~' !in t && '&' !in t && (t == [] || t[0] != '#')
    ensures DecodeEntities(StripHeading(Unwrap(t, '~', 2))) == t
  {
    UnwrapAbsent(t, '~', 2);
    DecodeAbsent(t);
  }

  /** `**x**` becomes `<b>x</b>` when `x` holds no markup. */
  lemma CleanBold(s: string, x: string, r: string)
    requires |x| > 0 && '*' !in x && '~' !in x && '&' !in x
    requires s == "**" + x + "**" && r == "<b>" + x + "</b>"
    ensures CleanText(s) == r
  {
    ReplaceWrapped(s, x, '*', 2, "**", "<b>", "</b>", r);
    Wrapped(r, "<b>", x, "</b>");
    ReplaceSpansAbsent(r, '*', 1, "<i>", "</i>");
    LaterPassesKeep(r);
  }

  /** `*x*` becomes `<i>x</i>`: the bold pass leaves a single star alone. */
  lemma CleanItalic(s: string, x: string, r: string)
    requires |x| > 0 && '*' !in x && '~' !in x && '&' !in x
    requires s == "*" + x + "*" && r == "<i>" + x + "</i>"
    ensures CleanText(s) == r
  {
    ItalicOfSingle(s, x, r);
    Wrapped(r, "<i>", x, "</i>");
    LaterPassesKeep(r);
  }

  /** A tag pair around text without markup holds no markup and starts
      with `<`. */
  lemma Wrapped(r: string, open: string, x: string, close: string)
    requires r == open + x + close && |open| > 0 && open[0] == '<'
    requires '*' !in open + close && '~' !in open + close && '&' !in open + close
    requires '*' !in x && '~' !in x && '&' !in x
    ensures '*' !in r && '~' !in r && '&' !in r && r[0] == '<'
  {
  }

  /** The bold and italic passes turn `*x*` into `<i>x</i>`. */
  lemma ItalicOfSingle(s: string, x: string, r: string)
    requires |x| > 0 && '*' !in x && s == "*" + x + "*" && r == "<i>" + x + "</i>"
    ensures Italic(Bold(s)) == r
  {
    BoldKeepsSingle(s, x);
    ReplaceWrapped(s, x, '*', 1, "*", "<i>", "</i>", r);
  }

  /** The bold pass finds no `**` span in `*x*`. */
  lemma BoldKeepsSingle(s: string, x: string)
    requires |x| > 0 && '*' !in x && s == "*" + x + "*"
    ensures Bold(s) == s
  {
    assert s[1] == x[0] && s[..2] != "**";
    assert s[1..] == x + "*";
    ReplaceSpansLone(x, '*', 2, "<b>", "</b>");
  }

  /** `~~x~~` keeps only `x`. */
  lemma CleanStrike(s: string, x: string)
    requires |x| > 0 && '*' !in x && '~' !in x && '&' !in x && '#' !in x
    requires s == "~~" + x + "~~"
    ensures CleanText(s) == x
  {
    ReplaceSpansAbsent(s, '*', 2, "<b>", "</b>");
    ReplaceSpansAbsent(s, '*', 1, "<i>", "</i>");
    UnwrapSpan(x, '~', 2, "~~");
    assert StripHeading(x) == x;
    DecodeAbsent(x);
  }

  /** A heading marker at the start of plain text is dropped. */
  lemma CleanHeading(s: string, h: string, w: string, x: string)
    requires s == h + w + x && |h| > 0 && AllIs(h, '#') && |w| > 0 && AllSpace(w)
    requires x == [] || (x[0] != '#' && !IsSpace(x[0]))
    requires '*' !in s && '~' !in s && '&' !in s
    ensures CleanText(s) == x
  {
    assert Bold(s) == s by { ReplaceSpansAbsent(s, '*', 2, "<b>", "</b>"); }
    assert Italic(s) == s by { ReplaceSpansAbsent(s, '*', 1, "<i>", "</i>"); }
    assert Unwrap(s, '~', 2) == s by { UnwrapAbsent(s, '~', 2); }
    assert StripHeading(s) == x by { StripHeadingAt(s, h, w, x); }
    assert '&' !in x by {
      assert s == (h + w) + x;
      assert forall k :: 0 <= k < |x| ==> x[k] == s[|h + w| + k];
    }
    DecodeAbsent(x);
  }

  // ---------------------------------------------------------------------
  // _create_section

  /** Python `s.split(sep)` for a separator of one or more characters:
      cut at each occurrence, scanning left to right. */
  function SplitOn(s: string, sep: string): (r: seq<string>)
    requires |sep| > 0
    ensures |r| >= 1
    decreases |s|
  {
    var k := IndexOf(s, sep);
    if k < 0 then [s] else [s[..k]] + SplitOn(s[k + |sep|..], sep)
  }

  /** Joining the pieces with the separator gives the text back. */
  lemma {:induction false} JoinSplitOn(s: string, sep: string)
    requires |sep| > 0
    ensures Join(SplitOn(s, sep), sep) == s
    decreases |s|
  {
    var k := IndexOf(s, sep);
    if k >= 0 {
      var rest := s[k + |sep|..];
      var r := SplitOn(rest, sep);
      JoinSplitOn(rest, sep);
      JoinCons(s[..k], r, sep);
      CutAround(s, k, sep);
    }
  }

  lemma JoinCons(a: string, r: seq<string>, sep: string)
    requires |r| >= 1
    ensures Join([a] + r, sep) == a + sep + Join(r, sep)
  {
    assert ([a] + r)[1..] == r;
  }

  /** Text with `sep` at `k` is what comes before, `sep`, and what comes after. */
  lemma CutAround(s: string, k: nat, sep: string)
    requires k + |sep| <= |s| && s[k..k + |sep|] == sep
    ensures s == s[..k] + sep + s[k + |sep|..]
  {
  }

  /** A prefix ending before the first occurrence does not contain it. */
  lemma {:induction false} BeforeFirst(s: string, sep: string, k: nat)
    requires |sep| > 0 && k <= |s| && forall j :: 0 <= j < k ==> !StartsWith(s[j..], sep)
    ensures !Contains(s[..k], sep)
    decreases k
  {
    if k > 0 {
      assert !StartsWith(s[0..], sep) && s[0..] == s;
      assert forall j :: 0 <= j < k - 1 ==> s[1..][j..] == s[j + 1..];
      BeforeFirst(s[1..], sep, k - 1);
      assert s[..k][1..] == s[1..][..k - 1];
      if |sep| <= k {
        assert s[..k][..|sep|] == s[..|sep|];
      }
    }
  }

  /** No piece contains the separator. */
  lemma {:induction false} SplitOnPieces(s: string, sep: string)
    requires |sep| > 0
    ensures forall i :: 0 <= i < |SplitOn(s, sep)| ==> !Contains(SplitOn(s, sep)[i], sep)
    decreases |s|
  {
    var k := IndexOf(s, sep);
    if k >= 0 {
      SplitOnPieces(s[k + |sep|..], sep);
      BeforeFirst(s, sep, k);
    }
  }

  /** What the PDF story holds; the reportlab styles are not modelled.
      Spacer heights are in tenths of an inch. */
  datatype Block =
    | Cover(company: string, dataPoints: Json)
    | PageBreak
    | Spacer(tenths: nat)
    | Heading(title: string)
    | Body(text: string)
    | Code(text: string)
    | Table(rows: seq<Row>)

  /** The blocks of one paragraph: nothing for a blank paragraph; else a
      table (or, when no row parses, a code block) for table-like text and
      a body paragraph for the rest, then a small spacer. */
  function ParagraphBlocks(para: string): seq<Block> {
    var p := Strip(para);
    if p == "" then [] else ParagraphBody(p) + [Spacer(1)]
  }

  /** The blocks of a non-blank stripped paragraph before its spacer; none
      of them is a heading. */
  function ParagraphBody(p: string): (blocks: seq<Block>)
    ensures forall k :: 0 <= k < |blocks| ==> !blocks[k].Heading?
  {
    if LooksLikeTableData(p) then
      match TableRows(p)
      case Some(rows) => [Table(rows), Spacer(2)]
      case None => [Code(p)]
    else
      var c := CleanText(p);
      if c != "" then [Body(c)] else []
  }

  /** The concatenation of `f(x)` for the elements `x` in order. */
  function FlatMap<T, U>(xs: seq<T>, f: T -> seq<U>): seq<U>
    decreases |xs|
  {
    if |xs| == 0 then [] else FlatMap(xs[..|xs| - 1], f) + f(xs[|xs| - 1])
  }

  lemma FlatMapStep<T, U>(xs: seq<T>, f: T -> seq<U>, i: nat)
    requires i < |xs|
    ensures FlatMap(xs[..i + 1], f) == FlatMap(xs[..i], f) + f(xs[i])
  {
    assert xs[..i + 1][..i] == xs[..i];
  }

  /** The blank paragraphs contribute nothing. */
  lemma {:induction false} BlankParagraphsSkipped(paras: seq<string>)
    requires forall i :: 0 <= i < |paras| ==> Strip(paras[i]) == ""
    ensures FlatMap(paras, ParagraphBlocks) == []
    decreases |paras|
  {
    if |paras| > 0 {
      BlankParagraphsSkipped(paras[..|paras| - 1]);
    }
  }

  /** A section: its bold title, a spacer, and the blocks of the text's
      `\n\n`-separated paragraphs. */
  function SectionBlocks(title: string, content: string): seq<Block> {
    [Heading(title), Spacer(1)] + FlatMap(Paragraphs(content), ParagraphBlocks)
  }

  /** `content.split('\n\n')`. */
  function Paragraphs(content: string): seq<string> {
    SplitOn(content, "\n\n")
  }

  /** A paragraph gives no block exactly when it is blank; otherwise its
      blocks end with a small spacer, and none of them is a heading. */
  lemma ParagraphShape(para: string)
    ensures var r := ParagraphBlocks(para);
            (r == [] <==> Strip(para) == "")
            && (r != [] ==> r[|r| - 1] == Spacer(1))
            && forall k :: 0 <= k < |r| ==> !r[k].Heading?
  {
    var p := Strip(para);
    if p != "" {
      SpacerEnded(ParagraphBody(p));
    }
  }

  lemma SpacerEnded(blocks: seq<Block>)
    requires forall k :: 0 <= k < |blocks| ==> !blocks[k].Heading?
    ensures var r := blocks + [Spacer(1)];
            r[|r| - 1] == Spacer(1) && forall k :: 0 <= k < |r| ==> !r[k].Heading?
  {
  }

  /** `_create_section`. */
  method CreateSection(title: string, content: string) returns (story: seq<Block>)
    ensures story == SectionBlocks(title, content)
  {
    var paras := Paragraphs(content);
    story := [Heading(title), Spacer(1)];
    for i := 0 to |paras|
      invariant story == [Heading(title), Spacer(1)] + FlatMap(paras[..i], ParagraphBlocks)
    {
      SectionStep([Heading(title), Spacer(1)], paras, i);
      story := AddParagraph(story, paras[i]);
    }
    assert paras[..|paras|] == paras;
  }

  lemma SectionStep(front: seq<Block>, paras: seq<string>, i: nat)
    requires i < |paras|
    ensures front + FlatMap(paras[..i], ParagraphBlocks) + ParagraphBlocks(paras[i])
            == front + FlatMap(paras[..i + 1], ParagraphBlocks)
  {
    FlatMapStep(paras, ParagraphBlocks, i);
    AppendAssoc(front, FlatMap(paras[..i], ParagraphBlocks), ParagraphBlocks(paras[i]));
  }

  /** One turn of the paragraph loop of `_create_section`. */
  method AddParagraph(story: seq<Block>, paragraph: string) returns (r: seq<Block>)
    ensures r == story + ParagraphBlocks(paragraph)
  {
    r := story;
    var para := Strip(paragraph);
    if para != "" {
      var blocks: seq<Block> := [];
      if LooksLikeTableData(para) {
        var table := ParseAndCreateTable(para);
        if table.Some? {
          blocks := [Table(table.value), Spacer(2)];
        } else {
          blocks := [Code(para)];
        }
      } else {
        var clean := CleanText(para);
        if clean != "" {
          blocks := [Body(clean)];
        }
      }
      AppendAssoc(story, blocks, [Spacer(1)]);
      r := story + blocks + [Spacer(1)];
    }
  }

  /** The titles of the headings among the blocks, in order. */
  function Headings(blocks: seq<Block>): seq<string>
    decreases |blocks|
  {
    if |blocks| == 0 then []
    else
      var last := blocks[|blocks| - 1];
      Headings(blocks[..|blocks| - 1]) + (if last.Heading? then [last.title] else [])
  }

  lemma {:induction false} HeadingsAppend(a: seq<Block>, b: seq<Block>)
    ensures Headings(a + b) == Headings(a) + Headings(b)
    decreases |b|
  {
    if |b| == 0 {
      assert a + b == a;
    } else {
      assert (a + b)[..|a + b| - 1] == a + b[..|b| - 1];
      HeadingsAppend(a, b[..|b| - 1]);
    }
  }

  /** Paragraphs never produce a heading. */
  lemma {:induction false} ParagraphsHaveNoHeading(paras: seq<string>)
    ensures Headings(FlatMap(paras, ParagraphBlocks)) == []
    decreases |paras|
  {
    if |paras| > 0 {
      var init := paras[..|paras| - 1];
      ParagraphsHaveNoHeading(init);
      var b := ParagraphBlocks(paras[|paras| - 1]);
      HeadingsAppend(FlatMap(init, ParagraphBlocks), b);
      ParagraphShape(paras[|paras| - 1]);
      NoHeading(b);
    }
  }

  lemma {:induction false} NoHeading(b: seq<Block>)
    requires forall k :: 0 <= k < |b| ==> !b[k].Heading?
    ensures Headings(b) == []
    decreases |b|
  {
    if |b| > 0 {
      NoHeading(b[..|b| - 1]);
    }
  }

  /** A section has exactly one heading, its title. */
  lemma SectionHeadings(title: string, content: string)
    ensures Headings(SectionBlocks(title, content)) == [title]
  {
    var head := [Heading(title), Spacer(1)];
    var paras := Paragraphs(content);
    ParagraphsHaveNoHeading(paras);
    HeadingsAppend(head, FlatMap(paras, ParagraphBlocks));
    TitleHeadings(title);
  }

  lemma TitleHeadings(title: string)
    ensures Headings([Heading(title), Spacer(1)]) == [title]
  {
    var head := [Heading(title), Spacer(1)];
    assert head[..1] == [Heading(title)];
    assert Headings(head) == Headings([Heading(title)]);
    assert [Heading(title)][..0] == [];
  }

  // ---------------------------------------------------------------------
  // generate_report_pdf

  /** The `report_data` dictionary: its metadata and its text entries. The
      generator reads the sections as text. */
  datatype ReportData = ReportData(metadata: map<string, Json>, sections: map<string, string>)

  /** The key of the `i`-th of the four sections. */
  function SectionKey(i: nat): string
    requires i < 4
  {
    if i == 0 then "fundamentalAnalysis"
    else if i == 1 then "businessSegments"
    else if i == 2 then "growthCatalysts"
    else "valuationAnalysis"
  }

  /** The title of the `i`-th of the four sections. */
  function SectionTitle(i: nat): string
    requires i < 4
  {
    if i == 0 then "1. Fundamental Analysis"
    else if i == 1 then "2. Business Segments Analysis"
    else if i == 2 then "3. Growth Catalysts and Strategic Initiatives"
    else "4. Valuation Analysis and Investment Recommendation"
  }

  const SummaryKey := "executive_summary"
  const SummaryTitle := "Executive Summary"

  /** Section `i` is rendered when its key is present with non-empty text. */
  predicate Rendered(data: ReportData, i: nat)
    requires i < 4
  {
    SectionKey(i) in data.sections && data.sections[SectionKey(i)] != ""
  }

  /** The executive summary, rendered whenever its key is present, even
      with empty text. */
  function SummaryBlocks(data: ReportData): seq<Block> {
    if SummaryKey in data.sections then
      [Heading(SummaryTitle), Spacer(1), Body(CleanText(data.sections[SummaryKey])), Spacer(3)]
    else []
  }

  /** The blocks of section `i`, followed by its spacer, or nothing. */
  function SectionPart(data: ReportData, i: nat): seq<Block>
    requires i < 4
  {
    if Rendered(data, i) then SectionBlocks(SectionTitle(i), data.sections[SectionKey(i)]) + [Spacer(2)] else []
  }

  /** The first `n` sections in their fixed order. */
  function SectionParts(data: ReportData, n: nat): seq<Block>
    requires n <= 4
  {
    if n == 0 then [] else SectionParts(data, n - 1) + SectionPart(data, n - 1)
  }

  /** The story of `generate_report_pdf`: the cover, a page break, the
      summary, the four sections. */
  function Story(company: string, data: ReportData): seq<Block> {
    [Cover(company, Get(data.metadata, "queries_successful", JStr("N/A"))), PageBreak]
      + SummaryBlocks(data) + SectionParts(data, 4)
  }

  /** `generate_report_pdf` up to the document build. */
  method GenerateReportPdf(company: string, data: ReportData) returns (story: seq<Block>)
    ensures story == Story(company, data)
  {
    story := [Cover(company, Get(data.metadata, "queries_successful", JStr("N/A"))), PageBreak];
    if SummaryKey in data.sections {
      var clean := CleanText(data.sections[SummaryKey]);
      story := story + [Heading(SummaryTitle), Spacer(1), Body(clean), Spacer(3)];
    }
    ghost var front := story;
    assert front == [Cover(company, Get(data.metadata, "queries_successful", JStr("N/A"))), PageBreak]
      + SummaryBlocks(data);
    for i := 0 to 4
      invariant story == front + SectionParts(data, i)
    {
      if SectionKey(i) in data.sections && data.sections[SectionKey(i)] != "" {
        var blocks := CreateSection(SectionTitle(i), data.sections[SectionKey(i)]);
        PartsStep(data, i, blocks);
        AppendAssoc(front, SectionParts(data, i), blocks + [Spacer(2)]);
        story := story + (blocks + [Spacer(2)]);
      } else {
        PartsSkip(data, i);
      }
    }
  }

  lemma PartsStep(data: ReportData, i: nat, blocks: seq<Block>)
    requires i < 4 && Rendered(data, i)
    requires blocks == SectionBlocks(SectionTitle(i), data.sections[SectionKey(i)])
    ensures SectionParts(data, i + 1) == SectionParts(data, i) + (blocks + [Spacer(2)])
  {
  }

  lemma PartsSkip(data: ReportData, i: nat)
    requires i < 4 && !Rendered(data, i)
    ensures SectionParts(data, i + 1) == SectionParts(data, i)
  {
  }

  /** The titles of the rendered sections among the first `n`, in order. */
  function RenderedTitles(data: ReportData, n: nat): seq<string>
    requires n <= 4
  {
    if n == 0 then [] else RenderedTitles(data, n - 1) + (if Rendered(data, n - 1) then [SectionTitle(n - 1)] else [])
  }

  /** The headings of the story: the summary's when its key is present,
      then the titles of the present, non-empty sections in their fixed
      order. */
  lemma StoryHeadings(company: string, data: ReportData)
    ensures Headings(Story(company, data))
            == (if SummaryKey in data.sections then [SummaryTitle] else []) + RenderedTitles(data, 4)
  {
    var cover := [Cover(company, Get(data.metadata, "queries_successful", JStr("N/A"))), PageBreak];
    NoHeading(cover);
    SummaryHeadings(data);
    PartsHeadings(data, 4);
    HeadingsOfThree(cover, SummaryBlocks(data), SectionParts(data, 4));
  }

  lemma HeadingsOfThree(a: seq<Block>, b: seq<Block>, c: seq<Block>)
    requires Headings(a) == []
    ensures Headings(a + b + c) == Headings(b) + Headings(c)
  {
    HeadingsAppend(a, b);
    HeadingsAppend(a + b, c);
  }

  lemma SummaryHeadings(data: ReportData)
    ensures Headings(SummaryBlocks(data)) == if SummaryKey in data.sections then [SummaryTitle] else []
  {
    if SummaryKey in data.sections {
      SummaryShape(CleanText(data.sections[SummaryKey]));
    }
  }

  lemma SummaryShape(text: string)
    ensures Headings([Heading(SummaryTitle), Spacer(1), Body(text), Spacer(3)]) == [SummaryTitle]
  {
    var b := [Heading(SummaryTitle), Spacer(1), Body(text), Spacer(3)];
    HeadingsAppend(b[..1], b[1..]);
    assert b == b[..1] + b[1..];
    NoHeading(b[1..]);
    assert b[..1] == [Heading(SummaryTitle)] && [Heading(SummaryTitle)][..0] == [];
  }

  lemma {:induction false} PartsHeadings(data: ReportData, n: nat)
    requires n <= 4
    ensures Headings(SectionParts(data, n)) == RenderedTitles(data, n)
  {
    if n > 0 {
      PartsHeadings(data, n - 1);
      HeadingsAppend(SectionParts(data, n - 1), SectionPart(data, n - 1));
      if Rendered(data, n - 1) {
        var title := SectionTitle(n - 1);
        var s := SectionBlocks(title, data.sections[SectionKey(n - 1)]);
        SectionHeadings(title, data.sections[SectionKey(n - 1)]);
        HeadingsAppend(s, [Spacer(2)]);
        NoHeading([Spacer(2)]);
      }
    }
  }

  // ---------------------------------------------------------------------
  // convert_markdown_to_pdf

  /** The four consecutive slices of the Markdown text, cut at `n//4`,
      `n//2` and `3*n//4`. */
  function Quarters(content: string): (q: seq<string>)
    ensures |q| == 4
  {
    var n := |content|;
    QuarterBounds(n);
    [content[..n / 4], content[n / 4..n / 2], content[n / 2..3 * n / 4], content[3 * n / 4..]]
  }

  lemma QuarterBounds(n: nat)
    ensures 0 <= n / 4 <= n / 2 <= 3 * n / 4 <= n
    ensures n / 2 - n / 4 <= n / 4 + 1 && 3 * n / 4 - n / 2 <= n / 4 + 1 && n - 3 * n / 4 <= n / 4 + 1
  {
    var q := n / 4;
    var r := n % 4;
    assert n == 4 * q + r;
    assert n / 2 == 2 * q + r / 2;
    assert 3 * n / 4 == 3 * q + (3 * r) / 4;
  }

  /** The slices put back together give the text, and each holds at most a
      quarter of it plus one character. */
  lemma QuartersCover(content: string)
    ensures var q := Quarters(content);
            q[0] + q[1] + q[2] + q[3] == content
            && forall i :: 0 <= i < 4 ==> |q[i]| <= |content| / 4 + 1
  {
    var n := |content|;
    QuarterBounds(n);
    var q := Quarters(content);
    assert q[0] + q[1] == content[..n / 2];
    assert q[0] + q[1] + q[2] == content[..3 * n / 4];
  }

  /** The report data built from the Markdown text: eight successful
      queries and the four slices as the four sections. */
  function ConvertedData(content: string): ReportData {
    var q := Quarters(content);
    ReportData(map["queries_successful" := JNum(8)],
               map[SectionKey(0) := q[0], SectionKey(1) := q[1], SectionKey(2) := q[2], SectionKey(3) := q[3]])
  }

  /** Each slice lands under its own section key. */
  lemma ConvertedSections(content: string)
    ensures var d := ConvertedData(content);
            forall i :: 0 <= i < 4 ==> SectionKey(i) in d.sections && d.sections[SectionKey(i)] == Quarters(content)[i]
    ensures SummaryKey !in ConvertedData(content).sections
  {
    var d := ConvertedData(content);
    var q := Quarters(content);
    assert SectionKey(0) != SectionKey(1) && SectionKey(0) != SectionKey(2) && SectionKey(0) != SectionKey(3);
    assert SectionKey(1) != SectionKey(2) && SectionKey(1) != SectionKey(3) && SectionKey(2) != SectionKey(3);
    assert SummaryKey != SectionKey(0) && SummaryKey != SectionKey(1);
    assert SummaryKey != SectionKey(2) && SummaryKey != SectionKey(3);
  }

  /** `markdown_path.replace('.md', '.pdf')`: every occurrence is replaced. */
  function PdfPath(markdownPath: string): string {
    ReplaceAll(markdownPath, ".md", ".pdf")
  }

  /** A path whose only `.md` is its extension gets the extension `.pdf`
      and is otherwise unchanged. */
  lemma {:induction false} PdfPathOfMarkdown(stem: string)
    requires !Contains(stem, ".md")
    ensures PdfPath(stem + ".md") == stem + ".pdf"
    decreases |stem|
  {
    var s := stem + ".md";
    if |stem| == 0 {
      assert s == ".md";
    } else {
      assert s[..3] != ".md" by {
        if |stem| >= 3 {
          assert s[..3] == stem[..3];
        } else {
          assert s[|stem|] == '.';
        }
      }
      PdfPathOfMarkdown(stem[1..]);
      assert s[1..] == stem[1..] + ".md";
      assert stem + ".pdf" == [stem[0]] + (stem[1..] + ".pdf");
    }
  }

  /** The suffix of the title line the company name is taken from. */
  const ReportSuffix := "估值报告"

  /** Where `^` matches with the multi-line flag. */
  predicate LineStart(s: string, p: nat) {
    p == 0 || (0 < p <= |s| && s[p - 1] == '\n')
  }

  /** `(.+?)\s+估值报告` tried at `i` with a name of at least `l`
      characters: the shortest name, of no newline, followed by whitespace
      and the suffix. Only the longest whitespace run can be followed by
      the suffix, whose first character is not whitespace. */
  function LazyName(s: string, i: nat, l: nat): (r: Option<nat>)
    requires i <= |s| && l >= 1
    ensures r.Some? ==> l <= r.value && i + r.value <= |s|
    decreases |s| - i - l + 1
  {
    if i + l > |s| || s[i + l - 1] == '\n' then None
    else
      var q := i + l;
      var v := SpaceRun(s[q..]);
      if v >= 1 && StartsWith(s[q + v..], ReportSuffix) then Some(l)
      else LazyName(s, i, l + 1)
  }

  /** `#\s+` followed by the lazy name, the whitespace after `#` taking `w`
      characters and giving them back one at a time. */
  function AfterHash(s: string, p: nat, w: nat): (r: Option<(nat, nat)>)
    requires p + 1 + w <= |s|
    ensures r.Some? ==> r.value.0 + r.value.1 <= |s|
    decreases w
  {
    if w == 0 then None
    else
      match LazyName(s, p + 1 + w, 1)
      case Some(l) => Some((p + 1 + w, l))
      case None => AfterHash(s, p, w - 1)
  }

  /** `re.search(r'^#\s+(.+?)\s+估值报告', s, re.MULTILINE)` from position
      `p` on: the first group of the leftmost match. */
  function SearchFrom(s: string, p: nat): (r: Option<string>)
    decreases |s| - p
  {
    if p >= |s| then None
    else if LineStart(s, p) && s[p] == '#' then
      match AfterHash(s, p, SpaceRun(s[p + 1..]))
      case Some(m) => Some(s[m.0..m.0 + m.1])
      case None => SearchFrom(s, p + 1)
    else SearchFrom(s, p + 1)
  }

  /** The company named by the report's title line, or `Company`. */
  function CompanyName(content: string): string {
    match SearchFrom(content, 0)
    case Some(name) => name
    case None => "Company"
  }

  /** Without a `#` there is no title line to read. */
  lemma {:induction false} NoTitleFrom(s: string, p: nat)
    requires '#' !in s
    ensures SearchFrom(s, p) == None
    decreases |s| - p
  {
    if p < |s| {
      NoTitleFrom(s, p + 1);
    }
  }

  lemma NoTitle(content: string)
    requires '#' !in content
    ensures CompanyName(content) == "Company"
  {
    NoTitleFrom(content, 0);
  }

  /** A report whose first line is `# <name> 估值报告` is about `name`,
      when the name has no whitespace at either end, no newline and no
      `估`. */
  lemma CompanyOfTitle(s: string, name: string, tail: string, rest: string)
    requires |name| > 0 && !IsSpace(name[0]) && !IsSpace(name[|name| - 1])
    requires '\n' !in name && ReportSuffix[0] !in name
    requires tail == " " + ReportSuffix + rest && s == "# " + name + tail
    ensures CompanyName(s) == name
  {
    assert s[0] == '#' && LineStart(s, 0);
    assert s[1..] == " " + name + tail;
    assert SpaceRun(s[1..]) == 1 by {
      assert s[1..][1..] == name + tail;
    }
    assert s[2..] == name + tail;
    LazyScan(s, name, tail, rest, 1);
    assert s[2..2 + |name|] == name;
  }

  /** The lazy name grows past every shorter candidate up to the full name. */
  lemma {:induction false} LazyScan(s: string, name: string, tail: string, rest: string, l: nat)
    requires |name| > 0 && !IsSpace(name[|name| - 1])
    requires '\n' !in name && ReportSuffix[0] !in name
    requires tail == " " + ReportSuffix + rest && |s| >= 2 && s[2..] == name + tail
    requires 1 <= l <= |name|
    ensures LazyName(s, 2, l) == Some(|name|)
    decreases |name| - l
  {
    if l < |name| {
      LazyStep(s, name, tail, l);
      LazyScan(s, name, tail, rest, l + 1);
    } else {
      LazyEnd(s, name, tail, rest);
    }
  }

  /** A candidate shorter than the name is not followed by whitespace and
      the suffix. */
  lemma LazyStep(s: string, name: string, tail: string, l: nat)
    requires |name| > 0 && !IsSpace(name[|name| - 1])
    requires '\n' !in name && ReportSuffix[0] !in name
    requires |s| >= 2 && s[2..] == name + tail
    requires 1 <= l < |name|
    ensures LazyName(s, 2, l) == LazyName(s, 2, l + 1)
  {
    assert s[2 + l - 1] == name[l - 1];
    var q := 2 + l;
    var v := SpaceRun(s[q..]);
    if v >= 1 {
      SpaceStops(s, name, tail, l);
      assert s[q + v..][0] == name[l + v];
    }
  }

  /** The whole name is followed by one space and the suffix. */
  lemma LazyEnd(s: string, name: string, tail: string, rest: string)
    requires |name| > 0 && '\n' !in name
    requires tail == " " + ReportSuffix + rest && |s| >= 2 && s[2..] == name + tail
    ensures LazyName(s, 2, |name|) == Some(|name|)
  {
    var q := 2 + |name|;
    assert s[q - 1] == name[|name| - 1] by { assert s[2..][|name| - 1] == name[|name| - 1]; }
    assert s[q..] == tail by { assert s[2..][|name|..] == tail; }
    var after := ReportSuffix + rest;
    assert s[q + 1..] == after by { assert tail[1..] == after; }
    assert SpaceRun(tail) == 1 by {
      assert tail[1..] == after;
      assert SpaceRun(after) == 0 by { assert after[0] == ReportSuffix[0]; }
    }
    assert StartsWith(after, ReportSuffix) by { assert after[..|ReportSuffix|] == ReportSuffix; }
    LazyHit(s, 2, |name|);
  }

  /** A candidate followed by whitespace and the suffix is the lazy name. */
  lemma LazyHit(s: string, i: nat, l: nat)
    requires l >= 1 && i + l <= |s| && s[i + l - 1] != '\n'
    requires SpaceRun(s[i + l..]) >= 1 && StartsWith(s[i + l + SpaceRun(s[i + l..])..], ReportSuffix)
    ensures LazyName(s, i, l) == Some(l)
  {
  }

  /** Whitespace inside the name ends before the name does. */
  lemma SpaceStops(s: string, name: string, tail: string, l: nat)
    requires |name| > 0 && !IsSpace(name[|name| - 1])
    requires |s| >= 2 && s[2..] == name + tail && l < |name|
    ensures l + SpaceRun(s[2 + l..]) < |name|
  {
    assert s[2 + l..][|name| - 1 - l] == name[|name| - 1];
  }

  /** `(output_path, story)` of `convert_markdown_to_pdf` for the file's
      path and text. */
  function ConvertMarkdownToPdf(markdownPath: string, content: string): (string, seq<Block>) {
    (PdfPath(markdownPath), Story(CompanyName(content), ConvertedData(content)))
  }
}
