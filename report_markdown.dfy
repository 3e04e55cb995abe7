/** The clean-up and table passes of the report enhancer that work on
    well-formed pipe tables: decoding six HTML character references and
    stripping stray emphasis near tables, re-printing pipe rows, and reading
    and printing Markdown tables. Tables follow the pipe-table syntax of
    section 4.10 of the GitHub Flavored Markdown spec, without alignment
    colons and without escaped pipes. */
module ReportMarkdown {
  import opened Wrappers
  import opened Text
  import opened PipeTable
  import opened ReportEnhancer
  import opened Seqs

  // ---------------------------------------------------------------------
  // `_clean_html_entities`

  /** The six named character references of section 13.5 of the WHATWG HTML
      Living Standard that the enhancer decodes, in the order it applies them. */
  const Entities: seq<(string, string)> :=
    [("&lt;", "<"), ("&gt;", ">"), ("&amp;", "&"), ("&quot;", "\""), ("&#39;", "'"), ("&nbsp;", " ")]

  lemma EntityFacts(k: nat)
    requires k < |Entities|
    ensures |Entities[k].0| > 0 && Entities[k].0[0] == '&'
    ensures '\n' !in Entities[k].0 && '\n' !in Entities[k].1
    ensures '|' !in Entities[k].1
  {
  }

  /** The text after the first `n` replacements, each over the whole text. */
  function Decoded(s: string, n: nat): string
    requires n <= |Entities|
  {
    if n == 0 then s
    else
      EntityFacts(n - 1);
      ReplaceAll(Decoded(s, n - 1), Entities[n - 1].0, Entities[n - 1].1)
  }

  function DecodeEntities(s: string): string {
    Decoded(s, |Entities|)
  }

  /** Whether line `i` holds a `|` or sits next to a line that does. */
  predicate NearPipe(lines: seq<string>, i: nat)
    requires i < |lines|
  {
    '|' in lines[i] || (i > 0 && '|' in lines[i - 1]) || (i < |lines| - 1 && '|' in lines[i + 1])
  }

  /** `~~x~~` is unwrapped; when the line then holds more than four `*` or
      more than four `_`, `*x*` and then `_x_` are unwrapped too. */
  function CleanMarkup(line: string): string {
    var a := Unwrap(line, '~', 2);
    if CountChar(a, '*') > 4 || CountChar(a, '_') > 4 then Unwrap(Unwrap(a, '*', 1), '_', 1) else a
  }

  function CleanedLine(lines: seq<string>, i: nat): string
    requires i < |lines|
  {
    if NearPipe(lines, i) then CleanMarkup(lines[i]) else lines[i]
  }

  /** The first `n` cleaned lines. */
  function CleanedLines(lines: seq<string>, n: nat): (r: seq<string>)
    requires n <= |lines|
    ensures |r| == n
  {
    if n == 0 then [] else CleanedLines(lines, n - 1) + [CleanedLine(lines, n - 1)]
  }

  /** The text `_clean_html_entities` returns. */
  function CleanHtmlText(content: string): string {
    var lines := Split(DecodeEntities(content), '\n');
    Join(CleanedLines(lines, |lines|), "\n")
  }

  /** `_clean_html_entities`: one pass per reference, then one pass over the lines. */
  method CleanHtmlEntities(content: string) returns (r: string)
    ensures r == CleanHtmlText(content)
  {
    var text := DecodeAll(content);
    var cleaned := CleanLines(Split(text, '\n'));
    r := Join(cleaned, "\n");
  }

  /** The reference loop of `_clean_html_entities`. */
  method DecodeAll(content: string) returns (text: string)
    ensures text == DecodeEntities(content)
  {
    text := content;
    var e := 0;
    while e < |Entities|
      invariant 0 <= e <= |Entities|
      invariant text == Decoded(content, e)
    {
      EntityFacts(e);
      text := ReplaceAll(text, Entities[e].0, Entities[e].1);
      e := e + 1;
    }
  }

  /** The line loop of `_clean_html_entities`. */
  method CleanLines(lines: seq<string>) returns (cleaned: seq<string>)
    ensures cleaned == CleanedLines(lines, |lines|)
  {
    cleaned := [];
    var i := 0;
    while i < |lines|
      invariant 0 <= i <= |lines|
      invariant cleaned == CleanedLines(lines, i)
    {
      var line := CleanLineAt(lines, i);
      cleaned := cleaned + [line];
      i := i + 1;
    }
  }

  /** One line of the line loop: markup is cleaned only near a table. */
  method CleanLineAt(lines: seq<string>, i: nat) returns (line: string)
    requires i < |lines|
    ensures line == CleanedLine(lines, i)
  {
    line := lines[i];
    if '|' in line || (i > 0 && '|' in lines[i - 1]) || (i < |lines| - 1 && '|' in lines[i + 1]) {
      line := Unwrap(line, '~', 2);
      if CountChar(line, '*') > 4 || CountChar(line, '_') > 4 {
        line := Unwrap(line, '*', 1);
        line := Unwrap(line, '_', 1);
      }
    }
  }

  /** Replacing a pattern whose first character does not occur changes nothing. */
  lemma {:induction false} ReplaceNoLead(s: string, pat: string, rep: string)
    requires |pat| > 0 && pat[0] !in s
    ensures ReplaceAll(s, pat, rep) == s
    decreases |s|
  {
    if |s| >= |pat| {
      assert s[..|pat|][0] == s[0];
      ReplaceNoLead(s[1..], pat, rep);
      assert s == [s[0]] + s[1..];
    }
  }

  /** A pattern that does not match at the start and whose first character
      does not occur later leaves the text unchanged. */
  lemma ReplaceNoMatch(s: string, pat: string, rep: string)
    requires |pat| > 0 && |s| > 0 && pat[0] !in s[1..]
    requires |s| < |pat| || s[..|pat|] != pat
    ensures ReplaceAll(s, pat, rep) == s
  {
    if |s| >= |pat| {
      ReplaceNoLead(s[1..], pat, rep);
      Snoc0(s);
    }
  }

  lemma Snoc0(s: string)
    requires |s| > 0
    ensures [s[0]] + s[1..] == s
  {
  }

  /** Every reference is decoded once, in order: `&amp;lt;` becomes `&lt;`,
      not `<`. */
  lemma AmpDecodedOnce()
    ensures DecodeEntities("&amp;lt;") == "&lt;"
  {
    var s := "&amp;lt;";
    assert s[1..] == "amp;lt;";
    assert s[..4][1] == 'a';
    ReplaceNoMatch(s, "&lt;", "<");
    ReplaceNoMatch(s, "&gt;", ">");
    AmpStep();
    var d := "&lt;";
    assert d[1..] == "lt;";
    assert d[..4] == d;
    ReplaceNoMatch(d, "&quot;", "\"");
    ReplaceNoMatch(d, "&#39;", "'");
    ReplaceNoMatch(d, "&nbsp;", " ");
    assert Decoded(s, 1) == s;
    assert Decoded(s, 2) == s;
    assert Decoded(s, 3) == d;
    assert Decoded(s, 4) == d;
    assert Decoded(s, 5) == d;
  }

  lemma AmpStep()
    ensures ReplaceAll("&amp;lt;", "&amp;", "&") == "&lt;"
  {
    var s := "&amp;lt;";
    assert s[..5] == "&amp;";
    assert s[5..] == "lt;";
    ReplaceNoLead("lt;", "&amp;", "&");
  }

  /** Decoding changes no line break. */
  lemma {:induction false} DecodedKeepsBreaks(s: string, n: nat)
    requires n <= |Entities|
    ensures CountChar(Decoded(s, n), '\n') == CountChar(s, '\n')
  {
    if n > 0 {
      DecodedKeepsBreaks(s, n - 1);
      EntityFacts(n - 1);
      ReplaceAllKeepsCount(Decoded(s, n - 1), Entities[n - 1].0, Entities[n - 1].1, '\n');
    }
  }

  /** Decoding brings in no `|`. */
  lemma {:induction false} DecodedAddsNoPipe(s: string, n: nat)
    requires n <= |Entities| && '|' !in s
    ensures '|' !in Decoded(s, n)
  {
    if n > 0 {
      DecodedAddsNoPipe(s, n - 1);
      EntityFacts(n - 1);
    }
  }

  /** Stripping emphasis keeps every other character, `|` and line breaks
      among them, so the cell structure of a table row is unchanged. */
  lemma CleanMarkupKeepsCounts(line: string, x: char)
    requires x != '~' && x != '*' && x != '_'
    ensures CountChar(CleanMarkup(line), x) == CountChar(line, x)
  {
    var a := Unwrap(line, '~', 2);
    UnwrapKeepsOtherCounts(line, '~', 2, x);
    UnwrapKeepsOtherCounts(a, '*', 1, x);
    UnwrapKeepsOtherCounts(Unwrap(a, '*', 1), '_', 1, x);
  }

  lemma {:induction false} CleanedLinesNoBreak(lines: seq<string>, n: nat)
    requires n <= |lines|
    requires forall k :: 0 <= k < |lines| ==> '\n' !in lines[k]
    ensures forall k :: 0 <= k < n ==> '\n' !in CleanedLines(lines, n)[k]
  {
    if n > 0 {
      CleanedLinesNoBreak(lines, n - 1);
      var line := lines[n - 1];
      CleanMarkupKeepsCounts(line, '\n');
      CountCharZero(line, '\n');
      CountCharZero(CleanMarkup(line), '\n');
    }
  }

  /** `_clean_html_entities` keeps the number of lines. */
  lemma CleanHtmlKeepsLineCount(content: string)
    ensures CountChar(CleanHtmlText(content), '\n') == CountChar(content, '\n')
  {
    var text := DecodeEntities(content);
    var lines := Split(text, '\n');
    DecodedKeepsBreaks(content, |Entities|);
    CleanedLinesNoBreak(lines, |lines|);
    CountJoin(CleanedLines(lines, |lines|), '\n');
  }

  lemma {:induction false} CleanedLinesAwayFromPipes(lines: seq<string>, n: nat)
    requires n <= |lines|
    requires forall k :: 0 <= k < |lines| ==> '|' !in lines[k]
    ensures CleanedLines(lines, n) == lines[..n]
  {
    if n > 0 {
      CleanedLinesAwayFromPipes(lines, n - 1);
      PrefixStep(lines, n - 1);
    }
  }

  /** Text without any `|` is only decoded: emphasis away from tables is kept. */
  lemma CleanHtmlWithoutTables(content: string)
    requires '|' !in content
    ensures CleanHtmlText(content) == DecodeEntities(content)
  {
    var text := DecodeEntities(content);
    DecodedAddsNoPipe(content, |Entities|);
    var lines := Split(text, '\n');
    SplitPiecesWithin(text, '\n', '|');
    CleanedLinesAwayFromPipes(lines, |lines|);
    FullSlice(lines);
    JoinSplit(text, '\n');
  }

  // ---------------------------------------------------------------------
  // `_enhance_table_formatting`

  /** `c.strip('-').strip() == ''` for every cell. */
  predicate AllDashCells(cells: seq<string>) {
    forall k :: 0 <= k < |cells| ==> Strip(StripChars(cells[k], {'-'})) == ""
  }

  /** One line of `_enhance_table_formatting`: a pipe line with cells is
      printed again, as a `---` separator when every cell is dashes. */
  function EnhanceLine(line: string): string {
    if IsPipeLine(line) then
      var cells := NonEmpty(SplitCells(line));
      if |cells| == 0 then line
      else if AllDashCells(cells) then Separator(|cells|)
      else Row(cells)
    else line
  }

  function EnhancedLines(lines: seq<string>, n: nat): (r: seq<string>)
    requires n <= |lines|
    ensures |r| == n
  {
    if n == 0 then [] else EnhancedLines(lines, n - 1) + [EnhanceLine(lines[n - 1])]
  }

  function EnhancedText(content: string): string {
    var lines := Split(content, '\n');
    Join(EnhancedLines(lines, |lines|), "\n")
  }

  /** `_enhance_table_formatting`, line by line. */
  method EnhanceTableFormatting(content: string) returns (r: string)
    ensures r == EnhancedText(content)
  {
    var lines := Split(content, '\n');
    var enhanced: seq<string> := [];
    var i := 0;
    while i < |lines|
      invariant 0 <= i <= |lines|
      invariant enhanced == EnhancedLines(lines, i)
    {
      var line := EnhanceRow(lines[i]);
      enhanced := enhanced + [line];
      i := i + 1;
    }
    r := Join(enhanced, "\n");
  }

  /** The body of the loop of `_enhance_table_formatting`, for one line. */
  method EnhanceRow(line: string) returns (out: string)
    ensures out == EnhanceLine(line)
  {
    out := line;
    if '|' in line && StartsWith(Strip(line), "|") {
      var cells := NonEmpty(SplitCells(line));
      if |cells| > 0 {
        if AllDashCells(cells) {
          out := Separator(|cells|);
        } else {
          out := Row(cells);
        }
      }
    }
  }

  /** The cells read from a line are cell text. */
  lemma CellsAreCellText(line: string)
    ensures forall k :: 0 <= k < |NonEmpty(SplitCells(line))| ==> IsCellText(NonEmpty(SplitCells(line))[k])
  {
    var split := SplitCells(line);
    SplitCellsPipeFree(line);
    SplitCellsStripped(line);
    NonEmptyTidy(split);
  }

  /** Cells read from a line without `x` do not contain `x`. */
  lemma CellsExclude(line: string, x: char)
    requires x !in line
    ensures forall k :: 0 <= k < |NonEmpty(SplitCells(line))| ==> x !in NonEmpty(SplitCells(line))[k]
  {
    var parts := Split(line, '|');
    var split := SplitCells(line);
    var cells := NonEmpty(split);
    SplitPiecesWithin(line, '|', x);
    forall j | 0 <= j < |split|
      ensures x !in split[j]
    {
      StripExcludes(parts[j], x);
    }
    forall k | 0 <= k < |cells|
      ensures x !in cells[k]
    {
      assert cells[k] in split;
    }
  }

  /** A printed row starts and ends with `|` and is its own strip. */
  lemma RowIsPipeLine(cells: seq<string>)
    ensures PrintedPipeLine(Row(cells))
  {
    FramedIsPipeLine(Join(cells, " | "));
  }

  lemma FramedIsPipeLine(j: string)
    ensures PrintedPipeLine("| " + j + " |")
  {
    PipeLed("| " + j + " |");
  }

  /** A line that starts and ends with `|` is its own strip and a pipe line. */
  lemma PipeLed(r: string)
    requires |r| > 0 && r[0] == '|' && r[|r| - 1] == '|'
    ensures IsPipeLine(r) && Strip(r) == r
  {
    PipeLedStrip(r);
    PipeLedPrefix(r);
  }

  lemma PipeLedStrip(r: string)
    requires |r| > 0 && r[0] == '|' && r[|r| - 1] == '|'
    ensures Strip(r) == r
  {
    StripId(r);
  }

  lemma PipeLedPrefix(r: string)
    requires |r| > 0 && r[0] == '|'
    ensures StartsWith(r, "|")
  {
    assert r[..1] == "|";
  }

  lemma RowExcludes(cells: seq<string>, x: char)
    requires x != '|' && x != ' '
    requires forall k :: 0 <= k < |cells| ==> x !in cells[k]
    ensures x !in Row(cells)
  {
    JoinExcludes(cells, " | ", x);
  }

  lemma DashesAreCellText(n: nat)
    ensures forall k :: 0 <= k < n ==> IsCellText(Dashes(n)[k]) && '\n' !in Dashes(n)[k]
  {
  }

  lemma DashesAreDashCells(n: nat)
    ensures AllDashCells(Dashes(n))
  {
    var d := "---";
    assert StripChars(d, {'-'}) == StripChars(d[1..], {'-'});
    assert StripChars(d[1..], {'-'}) == StripChars(d[2..], {'-'});
    assert StripChars(d[2..], {'-'}) == StripChars(d[3..], {'-'});
    assert StripChars("", {'-'}) == "";
    assert Strip("") == "";
  }

  /** Reading back an enhanced pipe line gives the same number of cells: the
      line's own cells, or `---` for each cell of a dash row. */
  lemma EnhancedCells(line: string)
    requires IsPipeLine(line) && NonEmpty(SplitCells(line)) != []
    ensures var cells := NonEmpty(SplitCells(line));
      NonEmpty(SplitCells(EnhanceLine(line))) == if AllDashCells(cells) then Dashes(|cells|) else cells
  {
    var cells := NonEmpty(SplitCells(line));
    if AllDashCells(cells) {
      DashesAreCellText(|cells|);
      RowRoundTrip(Dashes(|cells|));
    } else {
      CellsAreCellText(line);
      RowRoundTrip(cells);
    }
  }

  /** Enhancing an already enhanced line changes nothing. */
  lemma EnhanceLineIdempotent(line: string)
    ensures EnhanceLine(EnhanceLine(line)) == EnhanceLine(line)
  {
    var out := EnhanceLine(line);
    if IsPipeLine(line) {
      var cells := NonEmpty(SplitCells(line));
      if |cells| > 0 {
        EnhancedCells(line);
        if AllDashCells(cells) {
          RowIsPipeLine(Dashes(|cells|));
          DashesAreDashCells(|cells|);
        } else {
          RowIsPipeLine(cells);
        }
      }
    }
  }

  lemma EnhanceLineNoBreak(line: string)
    requires '\n' !in line
    ensures '\n' !in EnhanceLine(line)
  {
    if IsPipeLine(line) {
      var cells := NonEmpty(SplitCells(line));
      if |cells| > 0 {
        if AllDashCells(cells) {
          DashesAreCellText(|cells|);
          RowExcludes(Dashes(|cells|), '\n');
        } else {
          CellsExclude(line, '\n');
          RowExcludes(cells, '\n');
        }
      }
    }
  }

  lemma {:induction false} EnhancedLinesNoBreak(lines: seq<string>, n: nat)
    requires n <= |lines|
    requires forall k :: 0 <= k < |lines| ==> '\n' !in lines[k]
    ensures forall k :: 0 <= k < n ==> '\n' !in EnhancedLines(lines, n)[k]
  {
    if n > 0 {
      EnhancedLinesNoBreak(lines, n - 1);
      EnhanceLineNoBreak(lines[n - 1]);
    }
  }

  /** Every input line gives exactly one output line. */
  lemma EnhanceKeepsLineCount(content: string)
    ensures CountChar(EnhancedText(content), '\n') == CountChar(content, '\n')
  {
    var lines := Split(content, '\n');
    EnhancedLinesNoBreak(lines, |lines|);
    CountJoin(EnhancedLines(lines, |lines|), '\n');
  }

  lemma {:induction false} EnhancedLinesWithoutPipes(lines: seq<string>, n: nat)
    requires n <= |lines|
    requires forall k :: 0 <= k < |lines| ==> '|' !in lines[k]
    ensures EnhancedLines(lines, n) == lines[..n]
  {
    if n > 0 {
      EnhancedLinesWithoutPipes(lines, n - 1);
      PrefixStep(lines, n - 1);
    }
  }

  /** Text without pipe lines is left as it is. */
  lemma EnhanceWithoutTables(content: string)
    requires '|' !in content
    ensures EnhancedText(content) == content
  {
    var lines := Split(content, '\n');
    SplitPiecesWithin(content, '\n', '|');
    EnhancedLinesWithoutPipes(lines, |lines|);
    FullSlice(lines);
    JoinSplit(content, '\n');
  }

  // ---------------------------------------------------------------------
  // `_parse_table` and `_table_to_markdown`

  datatype Table = Table(headers: seq<string>, rows: seq<seq<string>>)

  /** Every character is one of `|`, `-`, `:` or space: a rule line. */
  predicate OnlyRule(line: string) {
    forall i :: 0 <= i < |line| ==> line[i] in "|-: "
  }

  /** A data line: not blank and not a rule line. */
  predicate IsDataLine(line: string) {
    Strip(line) != "" && !OnlyRule(line)
  }

  /** The row a line contributes: its cells, when it is a data line with
      `width` cells. */
  function RowOf(line: string, width: nat): (r: seq<seq<string>>)
    ensures |r| <= 1
  {
    var cells := NonEmpty(SplitCells(line));
    if IsDataLine(line) && |cells| == width then [cells] else []
  }

  /** The rows of the data lines among `lines` that have `width` cells. */
  function DataRows(lines: seq<string>, width: nat): (rows: seq<seq<string>>)
    ensures |rows| <= |lines|
  {
    if |lines| == 0 then []
    else DataRows(lines[..|lines| - 1], width) + RowOf(lines[|lines| - 1], width)
  }

  /** What `_parse_table` returns: headers from the first line, the second
      line skipped, rows of header width from the rest. */
  function ParsedTable(lines: seq<string>): Option<Table> {
    if |lines| < 3 then None
    else
      var headers := NonEmpty(SplitCells(lines[0]));
      var rows := DataRows(lines[2..], |headers|);
      if rows == [] then None else Some(Table(headers, rows))
  }

  /** `_parse_table`. */
  method ParseTable(lines: seq<string>) returns (r: Option<Table>)
    ensures r == ParsedTable(lines)
  {
    if |lines| < 3 {
      return None;
    }
    var headers := NonEmpty(SplitCells(lines[0]));
    var rows := CollectRows(lines[2..], |headers|);
    if rows == [] {
      return None;
    }
    r := Some(Table(headers, rows));
  }

  /** The data-line loop of `_parse_table`. */
  method CollectRows(data: seq<string>, width: nat) returns (rows: seq<seq<string>>)
    ensures rows == DataRows(data, width)
  {
    rows := [];
    var i := 0;
    while i < |data|
      invariant 0 <= i <= |data|
      invariant rows == DataRows(data[..i], width)
    {
      var line := data[i];
      var cells := NonEmpty(SplitCells(line));
      DataRowsStep(data, i, width);
      if IsDataLine(line) && |cells| == width {
        rows := rows + [cells];
      } else {
        EmptyTail(rows);
      }
      i := i + 1;
    }
    FullSlice(data);
  }

  lemma DataRowsStep(lines: seq<string>, i: nat, width: nat)
    requires i < |lines|
    ensures DataRows(lines[..i + 1], width) == DataRows(lines[..i], width) + RowOf(lines[i], width)
  {
    PrefixStep(lines, i);
  }

  /** Every row has as many cells as there are headers, and no cell is empty. */
  predicate WellFormed(t: Table) {
    |t.rows| > 0 &&
    forall r :: 0 <= r < |t.rows| ==>
      |t.rows[r]| == |t.headers| && forall k :: 0 <= k < |t.rows[r]| ==> t.rows[r][k] != ""
  }

  lemma {:induction false} DataRowsShape(lines: seq<string>, width: nat)
    ensures forall r :: 0 <= r < |DataRows(lines, width)| ==>
      |DataRows(lines, width)[r]| == width &&
      forall k :: 0 <= k < width ==> DataRows(lines, width)[r][k] != ""
    decreases |lines|
  {
    if |lines| > 0 {
      DataRowsShape(lines[..|lines| - 1], width);
      RowOfShape(lines[|lines| - 1], width);
    }
  }

  lemma RowOfShape(line: string, width: nat)
    ensures forall r :: 0 <= r < |RowOf(line, width)| ==>
      |RowOf(line, width)[r]| == width &&
      forall k :: 0 <= k < width ==> RowOf(line, width)[r][k] != ""
  {
  }

  /** `_parse_table` gives `None` exactly for fewer than three lines or when
      no line is a data row of header width. */
  lemma ParsedTableNone(lines: seq<string>)
    ensures ParsedTable(lines).None? <==>
      |lines| < 3 || DataRows(lines[2..], |NonEmpty(SplitCells(lines[0]))|) == []
  {
  }

  /** A parsed table has rows, all of header width. */
  lemma ParsedTableWellFormed(lines: seq<string>)
    ensures ParsedTable(lines).Some? ==> WellFormed(ParsedTable(lines).value)
  {
    if |lines| >= 3 {
      DataRowsShape(lines[2..], |NonEmpty(SplitCells(lines[0]))|);
    }
  }

  function RowLines(rows: seq<seq<string>>): (r: seq<string>)
    ensures |r| == |rows|
  {
    if |rows| == 0 then [] else RowLines(rows[..|rows| - 1]) + [Row(rows[|rows| - 1])]
  }

  /** The text `_table_to_markdown` returns. */
  function Markdown(t: Table): string {
    Join([Row(t.headers), Separator(|t.headers|)] + RowLines(t.rows), "\n")
  }

  /** `_table_to_markdown`. */
  method TableToMarkdown(t: Table) returns (s: string)
    ensures s == Markdown(t)
  {
    var lines := [Row(t.headers), Separator(|t.headers|)];
    var i := 0;
    while i < |t.rows|
      invariant 0 <= i <= |t.rows|
      invariant lines == [Row(t.headers), Separator(|t.headers|)] + RowLines(t.rows[..i])
    {
      PrefixStep(t.rows, i);
      lines := lines + [Row(t.rows[i])];
      i := i + 1;
    }
    FullSlice(t.rows);
    s := Join(lines, "\n");
  }

  /** Cells that print and read back unchanged and hold no line break. */
  predicate PrintableCells(cells: seq<string>) {
    forall k :: 0 <= k < |cells| ==> IsCellText(cells[k]) && '\n' !in cells[k]
  }

  /** A table that survives printing: at least one header and one row, clean
      cells, rows of header width, and no row that prints as a rule line. */
  predicate Printable(t: Table) {
    |t.headers| >= 1 && |t.rows| >= 1 && PrintableCells(t.headers) &&
    forall r :: 0 <= r < |t.rows| ==>
      |t.rows[r]| == |t.headers| && PrintableCells(t.rows[r]) && !OnlyRule(Row(t.rows[r]))
  }

  lemma {:induction false} RowLinesNoBreak(rows: seq<seq<string>>)
    requires forall r :: 0 <= r < |rows| ==> PrintableCells(rows[r])
    ensures forall k :: 0 <= k < |rows| ==> '\n' !in RowLines(rows)[k]
  {
    if |rows| > 0 {
      RowLinesNoBreak(rows[..|rows| - 1]);
      RowExcludes(rows[|rows| - 1], '\n');
    }
  }

  /** A printed row is read back as a data row with its own cells. */
  lemma RowIsDataRow(cells: seq<string>)
    requires |cells| >= 1 && PrintableCells(cells) && !OnlyRule(Row(cells))
    ensures IsDataLine(Row(cells)) && NonEmpty(SplitCells(Row(cells))) == cells
  {
    var r := Row(cells);
    assert r[0] == '|';
    StripNonEmpty(r, 0);
    RowRoundTrip(cells);
  }

  lemma RowOfPrinted(cells: seq<string>)
    requires |cells| >= 1 && PrintableCells(cells) && !OnlyRule(Row(cells))
    ensures RowOf(Row(cells), |cells|) == [cells]
  {
    RowIsDataRow(cells);
  }

  lemma {:induction false} DataRowsOfRowLines(rows: seq<seq<string>>, width: nat)
    requires width >= 1
    requires forall r :: 0 <= r < |rows| ==>
      |rows[r]| == width && PrintableCells(rows[r]) && !OnlyRule(Row(rows[r]))
    ensures DataRows(RowLines(rows), width) == rows
  {
    if |rows| > 0 {
      var n := |rows|;
      var lines := RowLines(rows);
      DataRowsOfRowLines(rows[..n - 1], width);
      SnocPrefix(RowLines(rows[..n - 1]), Row(rows[n - 1]));
      RowOfPrinted(rows[n - 1]);
      Snoc(rows);
    }
  }

  /** The printed lines of a printable table hold no line break, so the
      text splits back into them. */
  lemma PrintedLines(t: Table)
    requires Printable(t)
    ensures Split(Markdown(t), '\n') == [Row(t.headers), Separator(|t.headers|)] + RowLines(t.rows)
  {
    var w := |t.headers|;
    var lines := [Row(t.headers), Separator(w)] + RowLines(t.rows);
    RowExcludes(t.headers, '\n');
    DashesAreCellText(w);
    RowExcludes(Dashes(w), '\n');
    RowLinesNoBreak(t.rows);
    forall k | 0 <= k < |lines|
      ensures '\n' !in lines[k]
    {
      if k >= 2 {
        assert lines[k] == RowLines(t.rows)[k - 2];
      }
    }
    SplitJoin(lines, '\n');
  }

  /** Printing a table and parsing the printed lines gives the table back. */
  lemma ParsePrinted(t: Table)
    requires Printable(t)
    ensures ParsedTable(Split(Markdown(t), '\n')) == Some(t)
  {
    var w := |t.headers|;
    var lines := [Row(t.headers), Separator(w)] + RowLines(t.rows);
    PrintedLines(t);
    assert lines[2..] == RowLines(t.rows);
    RowRoundTrip(t.headers);
    DataRowsOfRowLines(t.rows, w);
  }

  // ---------------------------------------------------------------------
  // `_extract_tables`

  /** The scanner's state: tables found, the stripped lines of the table
      being read, and whether a table is being read. */
  datatype Extraction = Extraction(tables: seq<Table>, current: seq<string>, inTable: bool)

  /** The table parsed from a finished block, if any. */
  function Found(current: seq<string>): seq<Table> {
    if current == [] then []
    else match ParsedTable(current)
      case Some(t) => [t]
      case None => []
  }

  function ExtractStep(st: Extraction, line: string): Extraction {
    if IsPipeLine(line) then Extraction(st.tables, st.current + [Strip(line)], true)
    else if st.inTable then Extraction(st.tables + Found(st.current), [], false)
    else st
  }

  function ExtractState(lines: seq<string>): Extraction {
    if |lines| == 0 then Extraction([], [], false)
    else ExtractStep(ExtractState(lines[..|lines| - 1]), lines[|lines| - 1])
  }

  /** The tables found once the last line has been read. */
  function Finish(st: Extraction): seq<Table> {
    st.tables + Found(st.current)
  }

  /** The tables `_extract_tables` returns for these lines. */
  function ExtractedTables(lines: seq<string>): seq<Table> {
    Finish(ExtractState(lines))
  }

  /** `_extract_tables`. */
  method ExtractTables(content: string) returns (tables: seq<Table>)
    ensures tables == ExtractedTables(Split(content, '\n'))
  {
    var lines := Split(content, '\n');
    tables := [];
    var current: seq<string> := [];
    var inTable := false;
    var i := 0;
    while i < |lines|
      invariant 0 <= i <= |lines|
      invariant Extraction(tables, current, inTable) == ExtractState(lines[..i])
    {
      PrefixStep(lines, i);
      tables, current, inTable := ExtractLine(tables, current, inTable, lines[i]);
      i := i + 1;
    }
    FullSlice(lines);
    if current != [] {
      var parsed := ParseTable(current);
      if parsed.Some? {
        tables := tables + [parsed.value];
      }
    }
  }

  /** The body of the loop of `_extract_tables`, for one line. */
  method ExtractLine(tables: seq<Table>, current: seq<string>, inTable: bool, line: string)
    returns (tablesOut: seq<Table>, currentOut: seq<string>, inTableOut: bool)
    ensures Extraction(tablesOut, currentOut, inTableOut) == ExtractStep(Extraction(tables, current, inTable), line)
  {
    tablesOut, currentOut, inTableOut := tables, current, inTable;
    if '|' in line && StartsWith(Strip(line), "|") {
      inTableOut := true;
      currentOut := current + [Strip(line)];
    } else if inTable {
      if current != [] {
        var parsed := ParseTable(current);
        if parsed.Some? {
          tablesOut := tables + [parsed.value];
        }
      }
      currentOut := [];
      inTableOut := false;
    }
  }

  lemma FoundWellFormed(current: seq<string>)
    ensures forall k :: 0 <= k < |Found(current)| ==> WellFormed(Found(current)[k])
  {
    ParsedTableWellFormed(current);
  }

  /** The scanner reads a table exactly while its buffer is non-empty, and
      every table it has found is well formed. */
  lemma {:induction false} ExtractStateValid(lines: seq<string>)
    ensures ExtractState(lines).inTable <==> ExtractState(lines).current != []
    ensures forall k :: 0 <= k < |ExtractState(lines).tables| ==> WellFormed(ExtractState(lines).tables[k])
  {
    if |lines| > 0 {
      var st := ExtractState(lines[..|lines| - 1]);
      ExtractStateValid(lines[..|lines| - 1]);
      FoundWellFormed(st.current);
    }
  }

  /** Every extracted table has rows, all of header width. */
  lemma ExtractedWellFormed(lines: seq<string>)
    ensures forall k :: 0 <= k < |ExtractedTables(lines)| ==> WellFormed(ExtractedTables(lines)[k])
  {
    ExtractStateValid(lines);
    FoundWellFormed(ExtractState(lines).current);
  }

  /** A pipe line that is its own strip, as `_table_to_markdown` prints them. */
  predicate PrintedPipeLine(line: string) {
    IsPipeLine(line) && Strip(line) == line
  }

  lemma ExtractStepPrinted(st: Extraction, line: string)
    requires PrintedPipeLine(line)
    ensures ExtractStep(st, line) == Extraction(st.tables, st.current + [line], true)
  {
  }

  /** A run of printed pipe lines is buffered whole. */
  lemma {:induction false} ExtractPipeRun(lines: seq<string>)
    requires forall k :: 0 <= k < |lines| ==> PrintedPipeLine(lines[k])
    ensures ExtractState(lines) == Extraction([], lines, |lines| > 0)
  {
    if |lines| > 0 {
      var init := lines[..|lines| - 1];
      var last := lines[|lines| - 1];
      ExtractPipeRun(init);
      ExtractStepPrinted(ExtractState(init), last);
      Snoc(lines);
    }
  }

  /** A printed table, alone in the text, is extracted as itself. */
  lemma ExtractPrinted(t: Table)
    requires Printable(t)
    ensures ExtractedTables(Split(Markdown(t), '\n')) == [t]
  {
    ParsePrinted(t);
    PrintedAllPipeLines(t);
    ExtractWholeTable(Split(Markdown(t), '\n'), t);
  }

  /** Lines that are all printed pipe lines and parse as `t` are extracted as `t`. */
  lemma ExtractWholeTable(lines: seq<string>, t: Table)
    requires ParsedTable(lines) == Some(t)
    requires forall k :: 0 <= k < |lines| ==> PrintedPipeLine(lines[k])
    ensures ExtractedTables(lines) == [t]
  {
    ExtractPipeRun(lines);
    FinishRun(lines, t);
  }

  lemma FinishRun(lines: seq<string>, t: Table)
    requires ParsedTable(lines) == Some(t)
    ensures Finish(Extraction([], lines, true)) == [t]
  {
    FoundParsed(lines, t);
  }

  lemma FoundParsed(current: seq<string>, t: Table)
    requires ParsedTable(current) == Some(t)
    ensures Found(current) == [t]
  {
  }

  lemma PrintedAllPipeLines(t: Table)
    requires Printable(t)
    ensures forall k :: 0 <= k < |Split(Markdown(t), '\n')| ==> PrintedPipeLine(Split(Markdown(t), '\n')[k])
  {
    PrintedLines(t);
    PrintedRowsPipeLines(t.headers, t.rows);
  }

  lemma PrintedRowsPipeLines(headers: seq<string>, rows: seq<seq<string>>)
    ensures var lines := [Row(headers), Separator(|headers|)] + RowLines(rows);
      forall k :: 0 <= k < |lines| ==> PrintedPipeLine(lines[k])
  {
    var lines := [Row(headers), Separator(|headers|)] + RowLines(rows);
    RowLinesAt(rows);
    forall k | 0 <= k < |lines|
      ensures PrintedPipeLine(lines[k])
    {
      if k == 0 {
        assert lines[k] == Row(headers);
        RowIsPipeLine(headers);
      } else if k == 1 {
        assert lines[k] == Row(Dashes(|headers|));
        RowIsPipeLine(Dashes(|headers|));
      } else {
        assert lines[k] == Row(rows[k - 2]);
        RowIsPipeLine(rows[k - 2]);
      }
    }
  }

  lemma {:induction false} RowLinesAt(rows: seq<seq<string>>)
    ensures forall k :: 0 <= k < |rows| ==> RowLines(rows)[k] == Row(rows[k])
  {
    if |rows| > 0 {
      RowLinesAt(rows[..|rows| - 1]);
    }
  }

  // ---------------------------------------------------------------------
  // `_is_numeric_table`

  /** Where the pattern `[\d.]+[%BMK]?|\$[\d.]+` can start a match. */
  predicate NumberAt(cell: string, i: nat)
    requires i < |cell|
  {
    IsDigitOrDot(cell[i]) || (cell[i] == '$' && i + 1 < |cell| && IsDigitOrDot(cell[i + 1]))
  }

  /** `re.search` of the number pattern succeeds. */
  predicate HasNumber(cell: string) {
    exists i :: 0 <= i < |cell| && NumberAt(cell, i)
  }

  /** The pattern is found exactly when the cell holds a digit or a dot. */
  lemma HasNumberIff(cell: string)
    ensures HasNumber(cell) <==> exists i :: 0 <= i < |cell| && IsDigitOrDot(cell[i])
  {
    if HasNumber(cell) {
      var i :| 0 <= i < |cell| && NumberAt(cell, i);
      if !IsDigitOrDot(cell[i]) {
        assert IsDigitOrDot(cell[i + 1]);
      }
    }
    if exists i :: 0 <= i < |cell| && IsDigitOrDot(cell[i]) {
      var i :| 0 <= i < |cell| && IsDigitOrDot(cell[i]);
      assert NumberAt(cell, i);
    }
  }

  /** A cell after the first column of some row holds a number. */
  predicate NumericCell(t: Table, r: int, k: int) {
    0 <= r < |t.rows| && 1 <= k < |t.rows[r]| && HasNumber(t.rows[r][k])
  }

  /** `_is_numeric_table`: the first cell of each row is the label and is
      not looked at. */
  method IsNumericTable(t: Table) returns (b: bool)
    ensures b <==> exists r, k :: NumericCell(t, r, k)
  {
    var r := 0;
    while r < |t.rows|
      invariant 0 <= r <= |t.rows|
      invariant forall earlier, k :: earlier < r ==> !NumericCell(t, earlier, k)
    {
      var row := t.rows[r];
      var k := 1;
      while k < |row|
        invariant 1 <= k <= |row| || (|row| == 0 && k == 1)
        invariant forall left :: left < k ==> !NumericCell(t, r, left)
      {
        if HasNumber(row[k]) {
          assert NumericCell(t, r, k);
          return true;
        }
        k := k + 1;
      }
      r := r + 1;
    }
    return false;
  }
}
