/** `format_report.py`: the HTML tables of a saved report become Markdown
    pipe tables, the remaining markup becomes Markdown text, and a rule is
    put before every numbered section heading. What the HTML parser finds in
    a table element is the given `ParsedTable`. */
module FormatReport {
  import opened Text
  import opened Patterns
  import opened Seqs

  /** What the HTML parser reads from one `<table>` element: the stripped
      texts of the `th` cells inside `thead`; for each `tr` inside `tbody`,
      the stripped texts of its `td` cells (no `tbody`: no rows); for each
      `tr` of the whole table, the stripped texts of its `td` and `th` cells. */
  datatype ParsedTable = ParsedTable(headers: seq<string>, bodyRows: seq<seq<string>>, allRows: seq<seq<string>>)

  // ---------------------------------------------------------------------
  // One table

  /** The rows that have at least one cell, in their order (`if row:`). */
  function NonEmpty(rows: seq<seq<string>>): (r: seq<seq<string>>)
    ensures |r| <= |rows|
    ensures forall row :: row in r <==> row in rows && row != []
  {
    if |rows| == 0 then []
    else if rows[0] == [] then NonEmpty(rows[1..])
    else [rows[0]] + NonEmpty(rows[1..])
  }

  /** The data rows: the non-empty `tbody` rows or, when there are none,
      the non-empty rows after the first `tr` of the table. */
  function DataRows(t: ParsedTable): (r: seq<seq<string>>)
    ensures NonEmpty(t.bodyRows) != [] ==> r == NonEmpty(t.bodyRows)
    ensures NonEmpty(t.bodyRows) == [] ==> r == NonEmpty(if |t.allRows| == 0 then [] else t.allRows[1..])
  {
    var rows := NonEmpty(t.bodyRows);
    if rows != [] then rows else NonEmpty(if |t.allRows| == 0 then [] else t.allRows[1..])
  }

  /** A row padded with empty cells up to `w`, then cut to its first `w`. */
  function Fit(row: seq<string>, w: nat): (r: seq<string>)
    ensures |r| == w
    ensures forall i :: 0 <= i < w ==> r[i] == if i < |row| then row[i] else ""
    decreases w - |row|
  {
    if |row| >= w then row[..w] else Fit(row + [""], w)
  }

  /** `"| " + " | ".join(cells) + " |\n"`. */
  function RowLine(cells: seq<string>): string {
    "| " + Join(cells, " | ") + " |\n"
  }

  /** `w` separator cells. */
  function Dashes(w: nat): (r: seq<string>)
    ensures |r| == w && forall i :: 0 <= i < w ==> r[i] == "---"
  {
    if w == 0 then [] else Dashes(w - 1) + ["---"]
  }

  /** `"|" + "|".join(["---"] * w) + "|\n"`. */
  function SepLine(w: nat): string {
    "|" + Join(Dashes(w), "|") + "|\n"
  }

  /** The data lines for `rows`, each fitted to `w` cells. */
  function RowLines(rows: seq<seq<string>>, w: nat): string {
    if |rows| == 0 then "" else RowLines(rows[..|rows| - 1], w) + RowLine(Fit(rows[|rows| - 1], w))
  }

  /** The Markdown that `html_table_to_markdown` returns. */
  function ConvertedTable(html: string, t: ParsedTable): (r: string)
    ensures t.headers == [] || DataRows(t) == [] ==> r == html
    ensures t.headers != [] && DataRows(t) != [] ==>
              r == "\n" + RowLine(t.headers) + SepLine(|t.headers|) + RowLines(DataRows(t), |t.headers|) + "\n"
  {
    var rows := DataRows(t);
    if t.headers == [] || rows == [] then html
    else "\n" + RowLine(t.headers) + SepLine(|t.headers|) + RowLines(rows, |t.headers|) + "\n"
  }

  /** Padding a short row by one empty cell does not change its fitted form. */
  lemma FitPad(row: seq<string>, w: nat)
    requires |row| < w
    ensures Fit(row + [""], w) == Fit(row, w)
  {
  }

  /** `html_table_to_markdown`: the table is returned as it is when the
      parser found no header or no data row; otherwise each row is padded
      with empty cells while it is shorter than the header and cut to the
      header's width. */
  method HtmlTableToMarkdown(html: string, t: ParsedTable) returns (md: string)
    ensures md == ConvertedTable(html, t)
  {
    var rows := DataRows(t);
    if t.headers == [] || rows == [] {
      return html;
    }
    var w := |t.headers|;
    var head := "\n" + RowLine(t.headers) + SepLine(w);
    md := head;
    var i := 0;
    while i < |rows|
      invariant 0 <= i <= |rows|
      invariant md == head + RowLines(rows[..i], w)
    {
      var row := rows[i];
      while |row| < w
        invariant Fit(row, w) == Fit(rows[i], w)
        decreases w - |row|
      {
        FitPad(row, w);
        row := row + [""];
      }
      assert row[..w] == Fit(rows[i], w);
      PrefixStep(rows, i);
      assert RowLines(rows[..i + 1], w) == RowLines(rows[..i], w) + RowLine(Fit(rows[i], w));
      AppendAssoc(head, RowLines(rows[..i], w), RowLine(row[..w]));
      md := md + RowLine(row[..w]);
      i := i + 1;
    }
    Seqs.FullSlice(rows);
    md := md + "\n";
  }

  // ---------------------------------------------------------------------
  // Widths of the emitted lines

  /** Each cell with the two spaces that surround it in a row line. */
  function Spaced(cells: seq<string>): (r: seq<string>)
    ensures |r| == |cells| && forall i :: 0 <= i < |cells| ==> r[i] == " " + cells[i] + " "
  {
    if |cells| == 0 then [] else [" " + cells[0] + " "] + Spaced(cells[1..])
  }

  lemma {:induction false} JoinSpaced(cells: seq<string>)
    requires |cells| >= 1
    ensures " " + Join(cells, " | ") + " " == Join(Spaced(cells), "|")
    decreases |cells|
  {
    if |cells| > 1 {
      JoinSpaced(cells[1..]);
      assert Spaced(cells)[1..] == Spaced(cells[1..]);
      calc {
        " " + Join(cells, " | ") + " ";
        " " + (cells[0] + " | " + Join(cells[1..], " | ")) + " ";
        (" " + cells[0] + " ") + "|" + (" " + Join(cells[1..], " | ") + " ");
        (" " + cells[0] + " ") + "|" + Join(Spaced(cells[1..]), "|");
        Join(Spaced(cells), "|");
      }
    }
  }

  /** Putting a separator before and a separator and `end` after the joined
      parts is joining them between an empty first part and `end`. */
  lemma JoinFramed(parts: seq<string>, sep: string, end: string)
    requires |parts| >= 1
    ensures Join([""] + parts + [end], sep) == sep + Join(parts, sep) + sep + end
  {
    var all := [""] + parts + [end];
    assert all[0] == "" && all[1..] == parts + [end];
    assert Join(all, sep) == "" + sep + Join(parts + [end], sep);
    JoinAppend(parts, end, sep);
  }

  /** The cells of a line between its bars, when no cell holds a bar. */
  lemma FramedCells(parts: seq<string>, line: string)
    requires |parts| >= 1 && forall i :: 0 <= i < |parts| ==> '|' !in parts[i]
    requires line == "|" + Join(parts, "|") + "|" + "\n"
    ensures Split(line, '|') == [""] + parts + ["\n"]
  {
    var all := [""] + parts + ["\n"];
    forall k | 0 <= k < |all|
      ensures '|' !in all[k]
    {
      if 0 < k < |all| - 1 {
        assert all[k] == parts[k - 1];
      }
    }
    JoinFramed(parts, "|", "\n");
    SplitJoin(all, '|');
  }

  /** The separator line has one `---` cell per header. */
  lemma SeparatorCells(w: nat)
    requires w >= 1
    ensures Split(SepLine(w), '|') == [""] + Dashes(w) + ["\n"]
  {
    assert SepLine(w) == "|" + Join(Dashes(w), "|") + "|" + "\n";
    FramedCells(Dashes(w), SepLine(w));
  }

  lemma RowFrame(j: string)
    ensures "| " + j + " |\n" == "|" + (" " + j + " ") + "|" + "\n"
  {
    assert "| " == "|" + " ";
    assert " |\n" == " " + "|" + "\n";
  }

  /** A row line splits on its bars into exactly its cells, each between two
      spaces, when no cell holds a bar. */
  lemma RowLineCells(cells: seq<string>)
    requires |cells| >= 1 && forall i :: 0 <= i < |cells| ==> '|' !in cells[i]
    ensures Split(RowLine(cells), '|') == [""] + Spaced(cells) + ["\n"]
  {
    JoinSpaced(cells);
    RowFrame(Join(cells, " | "));
    forall i | 0 <= i < |cells|
      ensures '|' !in Spaced(cells)[i]
    {
      assert Spaced(cells)[i] == " " + cells[i] + " ";
    }
    FramedCells(Spaced(cells), RowLine(cells));
  }

  /** Every data line of a converted table has exactly as many cells as the
      header line: the row's own cells, then empty ones. */
  lemma DataLineWidth(row: seq<string>, w: nat)
    requires w >= 1 && forall i :: 0 <= i < |row| ==> '|' !in row[i]
    ensures Split(RowLine(Fit(row, w)), '|') == [""] + Spaced(Fit(row, w)) + ["\n"]
    ensures |Split(RowLine(Fit(row, w)), '|')| == w + 2
  {
    var f := Fit(row, w);
    forall i | 0 <= i < w
      ensures '|' !in f[i]
    {
      if i < |row| {
        assert f[i] == row[i];
      }
    }
    RowLineCells(f);
  }

  // ---------------------------------------------------------------------
  // Numbered section headings: `(## \d\. .*?\n)` -> `\n---\n\n\1`

  /** The length of a match of `## \d\. .*?\n` at the start of `s`, or 0.
      `.` does not match a newline, so the lazy part stops at the first one. */
  function HeadingAt(s: string): (n: nat)
    ensures n == 0 || (7 <= n <= |s| && s[n - 1] == '\n')
  {
    if |s| >= 6 && s[..3] == "## " && IsDigit(s[3]) && s[4] == '.' && s[5] == ' ' then
      var k := LineLen(s[6..]);
      if 6 + k < |s| then 7 + k else 0
    else 0
  }

  /** `re.sub(r'(## \d\. .*?\n)', r'\n---\n\n\1', s)`: the search finds a
      heading at any position, also after other characters of a line. */
  function AddSeparators(s: string): string
    decreases |s|
  {
    if |s| == 0 then ""
    else
      var n := HeadingAt(s);
      if n > 0 then "\n---\n\n" + s[..n] + AddSeparators(s[n..])
      else [s[0]] + AddSeparators(s[1..])
  }

  /** The rule insertion as evidently intended: only a heading at the start
      of a line (`re.M` with `^`) gets a rule. */
  function LineStartSeparators(s: string, lineStart: bool): string
    decreases |s|
  {
    if |s| == 0 then ""
    else
      var n := if lineStart then HeadingAt(s) else 0;
      if n > 0 then "\n---\n\n" + s[..n] + LineStartSeparators(s[n..], true)
      else [s[0]] + LineStartSeparators(s[1..], s[0] == '\n')
  }

  /** A numbered heading line: `## `, a digit, `. `, a title, a newline. */
  predicate HeadingLine(line: string, title: string) {
    '\n' !in title && |line| >= 6 && line[..3] == "## " && IsDigit(line[3]) && line[4..6] == ". "
    && line[6..] == title + "\n"
  }

  lemma HeadingAtLine(line: string, title: string, rest: string)
    requires HeadingLine(line, title)
    ensures HeadingAt(line + rest) == |line|
  {
    var s := line + rest;
    assert s[..3] == line[..3] && s[3] == line[3] && s[4] == line[4] && s[5] == line[5];
    assert s[6..] == title + ("\n" + rest);
    LineLenNoBreak(title, "\n" + rest);
  }

  lemma {:induction false} LineLenNoBreak(x: string, rest: string)
    requires '\n' !in x && |rest| > 0 && rest[0] == '\n'
    ensures LineLen(x + rest) == |x|
    decreases |x|
  {
    if |x| > 0 {
      assert (x + rest)[1..] == x[1..] + rest;
      LineLenNoBreak(x[1..], rest);
    }
  }

  /** A heading line at the start of the text gets a rule before it. */
  lemma SeparatorBeforeHeading(line: string, title: string, rest: string)
    requires HeadingLine(line, title)
    ensures AddSeparators(line + rest) == "\n---\n\n" + line + AddSeparators(rest)
  {
    var s := line + rest;
    HeadingAtLine(line, title, rest);
    assert s[..|line|] == line && s[|line|..] == rest;
  }

  /** A `### N. title` line, as the h2 pass writes it, is cut after its
      first `#`: the rule lands inside the line. */
  lemma SeparatorSplitsSubheading(line: string, title: string, rest: string)
    requires HeadingLine(line, title)
    ensures AddSeparators("#" + line + rest) == "#" + "\n---\n\n" + line + AddSeparators(rest)
  {
    var s := "#" + line + rest;
    assert s[..3] == "###";
    assert HeadingAt(s) == 0;
    assert s[1..] == line + rest;
    SeparatorBeforeHeading(line, title, rest);
  }

  /** Text without `#` gets no rule. */
  lemma {:induction false} SeparatorsNoHash(s: string)
    requires '#' !in s
    ensures AddSeparators(s) == s
    decreases |s|
  {
    if |s| > 0 {
      assert HeadingAt(s) == 0 by {
        if |s| >= 6 { assert s[0] != '#'; }
      }
      SeparatorsNoHash(s[1..]);
      assert [s[0]] + s[1..] == s;
    }
  }

  /** Text without `#` gets no rule from the corrected insertion either. */
  lemma {:induction false} LineStartNoHash(s: string, lineStart: bool)
    requires '#' !in s
    ensures LineStartSeparators(s, lineStart) == s
    decreases |s|
  {
    if |s| > 0 {
      assert HeadingAt(s) == 0 by {
        if |s| >= 6 { assert s[0] != '#'; }
      }
      LineStartNoHash(s[1..], s[0] == '\n');
      assert [s[0]] + s[1..] == s;
    }
  }

  /** The rest of a line is copied, and the next line starts a line. */
  lemma {:induction false} LineStartCopiesLine(x: string, rest: string)
    requires '\n' !in x
    ensures LineStartSeparators(x + "\n" + rest, false) == x + "\n" + LineStartSeparators(rest, true)
    decreases |x|
  {
    var s := x + "\n" + rest;
    if |x| == 0 {
      assert s[0] == '\n' && s[1..] == rest;
    } else {
      assert s[0] == x[0] && s[1..] == x[1..] + "\n" + rest;
      LineStartCopiesLine(x[1..], rest);
      assert [x[0]] + (x[1..] + "\n" + LineStartSeparators(rest, true)) == x + "\n" + LineStartSeparators(rest, true);
    }
  }

  /** The corrected insertion still puts a rule before a heading that starts
      a line. */
  lemma LineStartSeparatorBeforeHeading(line: string, title: string, rest: string)
    requires HeadingLine(line, title)
    ensures LineStartSeparators(line + rest, true) == "\n---\n\n" + line + LineStartSeparators(rest, true)
  {
    var s := line + rest;
    HeadingAtLine(line, title, rest);
    assert s[..|line|] == line && s[|line|..] == rest;
  }

  /** The corrected insertion leaves a `### N. title` line whole. */
  lemma LineStartKeepsSubheading(line: string, title: string, rest: string)
    requires HeadingLine(line, title)
    ensures LineStartSeparators("#" + line + rest, true) == "#" + line + LineStartSeparators(rest, true)
  {
    var s := "#" + line + rest;
    assert s[..3] == "###";
    assert HeadingAt(s) == 0;
    var x := line[..|line| - 1];
    assert line == x + "\n";
    assert '\n' !in x by {
      assert x == line[..6] + title;
      assert '\n' !in line[..6] by { assert line[..6] == line[..3] + [line[3]] + line[4..6]; }
    }
    assert s[1..] == x + "\n" + rest;
    LineStartCopiesLine(x, rest);
    assert s[0] == '#';
  }

  // ---------------------------------------------------------------------
  // The whole report

  /** Every table element replaced by its Markdown conversion. */
  function ConvertTables(content: string, parse: string -> ParsedTable): string {
    SubPairs(content, "<table", "</table>", false, Whole((h: string) => ConvertedTable(h, parse(h))))
  }

  /** The tag passes of `format_report`: h2 and h3 become `###` and `####`
      headings, paragraphs are unwrapped, other tags removed. */
  function Untagged(s: string): string {
    var s := SubPairs(s, "<h2", "</h2>", false, Wrap("### ", "\n", false));
    var s := SubPairs(s, "<h3", "</h3>", false, Wrap("#### ", "\n", false));
    var s := SubPairs(s, "<p", "</p>", false, Wrap("", "\n\n", false));
    StripTags(s)
  }

  /** `format_report`: tables, then the tag passes, then the rules before
      numbered headings (wherever the search finds one, as written), then
      four or more newlines become three. */
  function FormatReport(content: string, parse: string -> ParsedTable): (r: string)
    ensures NoRun(r, '\n', 4)
  {
    var s := AddSeparators(Untagged(ConvertTables(content, parse)));
    CollapseRunsBound(s, '\n', 4, 3, 4);
    CollapseRuns(s, '\n', 4, 3)
  }

  /** `format_report` with the rules inserted only before a numbered
      heading that starts a line. */
  function FormatReportCorrected(content: string, parse: string -> ParsedTable): (r: string)
    ensures NoRun(r, '\n', 4)
  {
    var s := LineStartSeparators(Untagged(ConvertTables(content, parse)), true);
    CollapseRunsBound(s, '\n', 4, 3, 4);
    CollapseRuns(s, '\n', 4, 3)
  }

  lemma UntaggedPlain(s: string)
    requires '<' !in s
    ensures Untagged(s) == s
  {
    NoLtNoOpen(s, "<h2");
    SubPairsAbsent(s, "<h2", "</h2>", false, Wrap("### ", "\n", false));
    NoLtNoOpen(s, "<h3");
    SubPairsAbsent(s, "<h3", "</h3>", false, Wrap("#### ", "\n", false));
    NoLtNoOpen(s, "<p");
    SubPairsAbsent(s, "<p", "</p>", false, Wrap("", "\n\n", false));
    StripTagsId(s);
  }

  /** Text with no markup, no heading marks and no run of four newlines is
      left exactly as it is. */
  lemma FormatPlainText(content: string, parse: string -> ParsedTable)
    requires '<' !in content && '#' !in content && NoRun(content, '\n', 4)
    ensures FormatReport(content, parse) == content
    ensures FormatReportCorrected(content, parse) == content
  {
    NoLtNoOpen(content, "<table");
    SubPairsAbsent(content, "<table", "</table>", false, Whole((h: string) => ConvertedTable(h, parse(h))));
    UntaggedPlain(content);
    SeparatorsNoHash(content);
    LineStartNoHash(content, true);
    CollapseRunsId(content, '\n', 4, 3);
  }

  // ---------------------------------------------------------------------
  // The output file name

  /** The default output name: every `.md` replaced by `_formatted.md`. */
  function OutputName(input: string): string {
    ReplaceAll(input, ".md", "_formatted.md")
  }

  /** A name ending in its only `.md` gets `_formatted` before the suffix. */
  lemma {:induction false} OutputNameOfMarkdown(stem: string)
    requires !Contains(stem, ".md")
    ensures OutputName(stem + ".md") == stem + "_formatted.md"
    decreases |stem|
  {
    var s := stem + ".md";
    if |stem| == 0 {
      assert s == ".md";
    } else {
      NoSuffixMatch(stem);
      OutputNameOfMarkdown(stem[1..]);
      assert s[1..] == stem[1..] + ".md";
      assert [stem[0]] + (stem[1..] + "_formatted.md") == stem + "_formatted.md";
    }
  }

  /** Without `.md` in `stem`, the name `stem + ".md"` does not start with
      `.md` and its tail has no `.md` before the suffix either. */
  lemma NoSuffixMatch(stem: string)
    requires |stem| > 0 && !Contains(stem, ".md")
    ensures (stem + ".md")[..3] != ".md" && !Contains(stem[1..], ".md")
  {
    var s := stem + ".md";
    assert !StartsWith(stem, ".md") && !Contains(stem[1..], ".md");
    if |stem| >= 3 {
      assert s[..3] == stem[..3];
    } else {
      assert s[|stem|] == '.' && ".md"[|stem|] != '.';
    }
  }
}
