/** The compact-table repairer of `agents/table_fixer.py`.

    A report line is "compact" when it looks like a table whose `|`
    separators were lost. The repairer walks the lines of a report, replaces
    every maximal run of compact lines by a rebuilt pipe table (or by a fenced
    quarantine block), and strips emphasis markup from the cells of lines that
    already contain `|`. */
module TableFixer {
  import opened Text
  import opened PipeTable
  import opened LineScan
  import opened Seqs

  // ---------------------------------------------------------------------
  // The classifier

  /** How often each regular expression of the classifier matches the
      stripped line: CamelCase clusters `[A-Z][a-z]+[A-Z][a-z]+`, money or
      percent values `[$%][\d.]+[BMK]?`, signed changes `[+\-]\d+\.?\d*%`,
      and number-unit tokens `\d+\.?\d*[%$BMK]`. */
  datatype Features = Features(camelClusters: nat, moneyValues: nat, signedChanges: nat, unitNumbers: nat)

  const CommonWords: seq<string> := ["the", "is", "are", "was", "were", "will", "has", "have"]

  /** Some common English word occurs, as a substring, in the lower-cased line. */
  predicate HasCommonWord(t: string) {
    exists k :: 0 <= k < |CommonWords| && Contains(Lower(t), CommonWords[k])
  }

  /** A stripped line longer than 100 characters without a common word. */
  predicate LongWithoutProse(t: string) {
    |t| > 100 && !HasCommonWord(t)
  }

  /** The weighted score: 2 each for CamelCase clusters and money values,
      1 each for signed changes, a long line without prose, and number-unit
      tokens. */
  function Score(f: Features, longWithoutProse: bool): (n: nat)
    ensures n <= 7
  {
    (if f.camelClusters >= 2 then 2 else 0)
    + (if f.moneyValues >= 2 then 2 else 0)
    + (if f.signedChanges >= 2 then 1 else 0)
    + (if longWithoutProse then 1 else 0)
    + (if f.unitNumbers >= 3 then 1 else 0)
  }

  /** Stripped lines the classifier rejects before scoring: blank, a heading,
      shorter than 40 characters, or already framed by `|`. */
  predicate Excluded(t: string) {
    t == "" || t[0] == '#' || |t| < 40 || (StartsWith(t, "|") && EndsWith(t, "|"))
  }

  /** `_is_compact_table_line`; `features` gives the regular-expression
      match counts of a stripped line. */
  predicate IsCompactTableLine(line: string, features: string -> Features) {
    var t := Strip(line);
    !Excluded(t) && Score(features(t), LongWithoutProse(t)) >= 3
  }

  predicate Camel(f: Features) { f.camelClusters >= 2 }
  predicate Money(f: Features) { f.moneyValues >= 2 }
  predicate Changes(f: Features) { f.signedChanges >= 2 }
  predicate Units(f: Features) { f.unitNumbers >= 3 }

  /** The score reaches 3 exactly when two strong signals fire, or one
      strong and one weak signal, or all three weak signals. */
  lemma ScoreCases(f: Features, prose: bool)
    ensures Score(f, prose) >= 3 <==>
              (Camel(f) && Money(f)) || ((Camel(f) || Money(f)) && (Changes(f) || prose || Units(f)))
              || (Changes(f) && prose && Units(f))
  {
  }

  /** Blank lines, headings, lines shorter than 40 characters and lines
      framed by `|` are never compact, whatever their features. */
  lemma ExcludedNeverCompact(line: string, features: string -> Features)
    requires Excluded(Strip(line))
    ensures !IsCompactTableLine(line, features)
  {
  }

  /** A line of at most 100 characters needs a strong signal to be compact. */
  lemma ShortCompactNeedsStrongSignal(line: string, features: string -> Features)
    requires IsCompactTableLine(line, features) && |Strip(line)| <= 100
    ensures var f := features(Strip(line)); f.camelClusters >= 2 || f.moneyValues >= 2
  {
    var t := Strip(line);
    assert !LongWithoutProse(t);
    ScoreCases(features(t), false);
  }

  // ---------------------------------------------------------------------
  // Cell cleanup of lines that contain `|`

  /** Emphasis markup removed from one cell: `**x**`, `*x*`, `~~x~~`,
      `__x__`, `_x_`, each pass over the whole cell, in that order. */
  function CleanCell(part: string): string {
    Unwrap(Unwrap(Unwrap(Unwrap(Unwrap(part, '*', 2), '*', 1), '~', 2), '_', 2), '_', 1)
  }

  function CleanCells(parts: seq<string>): (r: seq<string>)
    ensures |r| == |parts|
    ensures forall k :: 0 <= k < |r| ==> r[k] == CleanCell(parts[k])
    decreases |parts|
  {
    if |parts| == 0 then [] else [CleanCell(parts[0])] + CleanCells(parts[1..])
  }

  /** `_clean_table_formatting`: the line split at `|`, each piece cleaned,
      and the pieces joined again with `|`. */
  function CleanRow(line: string): string {
    if '|' !in line then line else Join(CleanCells(Split(line, '|')), "|")
  }

  lemma CleanCellKeepsOthers(part: string, x: char)
    requires x != '*' && x != '~' && x != '_'
    ensures CountChar(CleanCell(part), x) == CountChar(part, x)
  {
    var a := Unwrap(part, '*', 2);
    var b := Unwrap(a, '*', 1);
    var c := Unwrap(b, '~', 2);
    var d := Unwrap(c, '_', 2);
    UnwrapKeepsOtherCounts(part, '*', 2, x);
    UnwrapKeepsOtherCounts(a, '*', 1, x);
    UnwrapKeepsOtherCounts(b, '~', 2, x);
    UnwrapKeepsOtherCounts(c, '_', 2, x);
    UnwrapKeepsOtherCounts(d, '_', 1, x);
  }

  /** Cleaning a row never adds or removes a `|`, so the number of cells is kept. */
  lemma CleanRowKeepsPipes(line: string)
    ensures CountChar(CleanRow(line), '|') == CountChar(line, '|')
    ensures |Split(CleanRow(line), '|')| == |Split(line, '|')|
  {
    if '|' in line {
      var parts := Split(line, '|');
      var cleaned := CleanCells(parts);
      forall k | 0 <= k < |cleaned|
        ensures '|' !in cleaned[k]
      {
        CleanCellKeepsOthers(parts[k], '|');
        CountCharZero(parts[k], '|');
        CountCharZero(cleaned[k], '|');
      }
      CountJoin(cleaned, '|');
    }
  }

  /** A row without emphasis characters is left exactly as it was. */
  lemma CleanRowWithoutMarkup(line: string)
    requires '*' !in line && '~' !in line && '_' !in line
    ensures CleanRow(line) == line
  {
    if '|' in line {
      var parts := Split(line, '|');
      SplitPiecesWithin(line, '|', '*');
      SplitPiecesWithin(line, '|', '~');
      SplitPiecesWithin(line, '|', '_');
      forall k | 0 <= k < |parts|
        ensures CleanCell(parts[k]) == parts[k]
      {
        UnwrapAbsent(parts[k], '*', 2);
        UnwrapAbsent(parts[k], '*', 1);
        UnwrapAbsent(parts[k], '~', 2);
        UnwrapAbsent(parts[k], '_', 2);
        UnwrapAbsent(parts[k], '_', 1);
      }
      assert CleanCells(parts) == parts;
      JoinSplit(line, '|');
    }
  }

  /** `_clean_table_formatting`, building the cleaned pieces in a loop. */
  method CleanTableFormatting(line: string) returns (r: string)
    ensures r == CleanRow(line)
  {
    if '|' !in line {
      return line;
    }
    var parts := Split(line, '|');
    var cleaned: seq<string> := [];
    var k := 0;
    while k < |parts|
      invariant 0 <= k <= |parts|
      invariant cleaned == CleanCells(parts[..k])
    {
      CleanCellsSnoc(parts[..k], parts[k]);
      PrefixStep(parts, k);
      cleaned := cleaned + [CleanCell(parts[k])];
      k := k + 1;
    }
    FullSlice(parts);
    r := Join(cleaned, "|");
  }

  lemma CleanCellsSnoc(parts: seq<string>, p: string)
    ensures CleanCells(parts + [p]) == CleanCells(parts) + [CleanCell(p)]
  {
  }

  // ---------------------------------------------------------------------
  // Regular-expression scanners of the financial rebuild

  /** Length of the longest prefix of lower-case ASCII letters. */
  function LowerRun(s: string): (n: nat)
    ensures n <= |s|
    decreases |s|
  {
    if |s| > 0 && IsLower(s[0]) then 1 + LowerRun(s[1..]) else 0
  }

  /** Length of the longest whitespace prefix. */
  function SpaceRun(s: string): (n: nat)
    ensures n <= |s|
    decreases |s|
  {
    if |s| > 0 && IsSpace(s[0]) then 1 + SpaceRun(s[1..]) else 0
  }

  /** `re.match(r'^[A-Z][a-z]+[A-Z]', line)`. */
  predicate HeaderStart(line: string) {
    |line| >= 3 && IsUpper(line[0])
    && var l := LowerRun(line[1..]);
       l >= 1 && 1 + l < |line| && IsUpper(line[1 + l])
  }

  predicate IsHeaderText(s: string) {
    forall i :: 0 <= i < |s| ==> IsUpper(s[i]) || IsLower(s[i]) || IsSpace(s[i])
  }

  /** The first `n` characters of `s` are header text. */
  predicate HeaderPrefix(s: string, n: nat) {
    n <= |s| && IsHeaderText(s[..n])
  }

  /** Length of a capitalised word `[A-Z][a-z]+` at the start, or 0. */
  function CamelWordAt(s: string): (n: nat)
    ensures n <= |s|
    ensures n > 0 ==> n >= 2 && IsUpper(s[0]) && HeaderPrefix(s, n)
  {
    if |s| >= 2 && IsUpper(s[0]) then
      var l := LowerRun(s[1..]);
      if l >= 1 then
        assert IsHeaderText(s[..1 + l]) by { LowerRunText(s[1..]); }
        1 + l
      else 0
    else 0
  }

  lemma {:induction false} LowerRunText(s: string)
    ensures forall i :: 0 <= i < LowerRun(s) ==> IsLower(s[i])
    decreases |s|
  {
    if |s| > 0 && IsLower(s[0]) {
      LowerRunText(s[1..]);
    }
  }

  lemma {:induction false} SpaceRunText(s: string)
    ensures forall i :: 0 <= i < SpaceRun(s) ==> IsSpace(s[i])
    decreases |s|
  {
    if |s| > 0 && IsSpace(s[0]) {
      SpaceRunText(s[1..]);
    }
  }

  lemma SpaceRunHeader(s: string)
    ensures IsHeaderText(s[..SpaceRun(s)])
  {
    SpaceRunText(s);
  }

  /** Three consecutive pieces of header text make header text. */
  lemma ThreePartText(s: string, w: nat, m: nat, rest: nat)
    requires w + m + rest <= |s|
    requires IsHeaderText(s[..w]) && IsHeaderText(s[w..][..m]) && IsHeaderText(s[w + m..][..rest])
    ensures IsHeaderText(s[..w + m + rest])
  {
    assert s[..w + m + rest] == s[..w] + s[w..][..m] + s[w + m..][..rest];
    HeaderTextAppend(s[..w], s[w..][..m]);
    HeaderTextAppend(s[..w] + s[w..][..m], s[w + m..][..rest]);
  }

  lemma HeaderTextAppend(a: string, b: string)
    ensures IsHeaderText(a) && IsHeaderText(b) ==> IsHeaderText(a + b)
  {
    assert forall i :: 0 <= i < |a + b| ==> (a + b)[i] == if i < |a| then a[i] else b[i - |a|];
  }

  /** Length of the greedy repetition `(?:\s+[A-Z][a-z]+)*` at the start. */
  function PhraseTail(s: string): (n: nat)
    ensures HeaderPrefix(s, n)
    decreases |s|
  {
    var w := SpaceRun(s);
    if w >= 1 && CamelWordAt(s[w..]) > 0 then
      var m := CamelWordAt(s[w..]);
      var rest := PhraseTail(s[w + m..]);
      SpaceRunHeader(s);
      ThreePartText(s, w, m, rest);
      w + m + rest
    else 0
  }

  /** Length of a header phrase `[A-Z][a-z]+(?:\s+[A-Z][a-z]+)*` at the start, or 0. */
  function PhraseAt(s: string): (n: nat)
    ensures n <= |s|
    ensures n > 0 ==> HeaderPrefix(s, n)
  {
    var w := CamelWordAt(s);
    if w > 0 then
      var t := PhraseTail(s[w..]);
      assert s[..w + t] == s[..w] + s[w..][..t];
      HeaderTextAppend(s[..w], s[w..][..t]);
      w + t
    else 0
  }

  /** `re.findall(r'[A-Z][a-z]+(?:\s+[A-Z][a-z]+)*', s)`: every match is a
      non-empty run of letters and whitespace. */
  function Phrases(s: string): (r: seq<string>)
    ensures forall k :: 0 <= k < |r| ==> r[k] != "" && IsHeaderText(r[k])
    decreases |s|
  {
    if |s| == 0 then []
    else
      var n := PhraseAt(s);
      if n > 0 then [s[..n]] + Phrases(s[n..]) else Phrases(s[1..])
  }

  /** `re.sub(r'([a-z])([A-Z])', r'\1 \2', h)`: a space between every
      lower-case letter and the upper-case letter after it. */
  function SplitCamel(h: string): (r: string)
    ensures IsHeaderText(h) ==> IsHeaderText(r)
    decreases |h|
  {
    if |h| >= 2 && IsLower(h[0]) && IsUpper(h[1]) then
      var rest := SplitCamel(h[2..]);
      assert IsHeaderText(h) ==> IsHeaderText([h[0], ' ', h[1]]);
      HeaderTextAppend([h[0], ' ', h[1]], rest);
      [h[0], ' ', h[1]] + rest
    else if |h| == 0 then ""
    else
      var rest := SplitCamel(h[1..]);
      HeaderTextAppend([h[0]], rest);
      [h[0]] + rest
  }

  /** Splitting CamelCase only inserts spaces: the letters stay as they were. */
  lemma {:induction false} SplitCamelKeepsLetters(h: string)
    ensures NonSpace(SplitCamel(h)) == NonSpace(h)
    decreases |h|
  {
    if |h| >= 2 && IsLower(h[0]) && IsUpper(h[1]) {
      SplitCamelKeepsLetters(h[2..]);
      CamelSplitStep(h);
    } else if |h| > 0 {
      SplitCamelKeepsLetters(h[1..]);
      CamelCopyStep(h);
    }
  }

  /** A split point: the inserted space is no letter. */
  lemma CamelSplitStep(h: string)
    requires |h| >= 2 && IsLower(h[0]) && IsUpper(h[1])
    requires NonSpace(SplitCamel(h[2..])) == NonSpace(h[2..])
    ensures NonSpace(SplitCamel(h)) == NonSpace(h)
  {
    NonSpaceAppend([h[0], ' ', h[1]], SplitCamel(h[2..]));
    assert h == [h[0], h[1]] + h[2..];
    NonSpaceAppend([h[0], h[1]], h[2..]);
    NonSpaceSkipsSpace(h[0], h[1]);
  }

  lemma NonSpaceSkipsSpace(a: char, b: char)
    ensures NonSpace([a, ' ', b]) == NonSpace([a, b])
  {
    assert [a, ' ', b] == [a] + [' '] + [b];
    assert [a, b] == [a] + [b];
    NonSpaceAppend([a] + [' '], [b]);
    NonSpaceAppend([a], [' ']);
    NonSpaceAppend([a], [b]);
    assert [' '][1..] == [];
  }

  /** Any other character is copied. */
  lemma CamelCopyStep(h: string)
    requires |h| > 0 && !(|h| >= 2 && IsLower(h[0]) && IsUpper(h[1]))
    requires NonSpace(SplitCamel(h[1..])) == NonSpace(h[1..])
    ensures NonSpace(SplitCamel(h)) == NonSpace(h)
  {
    NonSpaceAppend([h[0]], SplitCamel(h[1..]));
    assert h == [h[0]] + h[1..];
    NonSpaceAppend([h[0]], h[1..]);
  }

  function SplitCamelAll(hs: seq<string>): (r: seq<string>)
    ensures |r| == |hs|
    ensures forall k :: 0 <= k < |r| ==> r[k] == SplitCamel(hs[k])
    decreases |hs|
  {
    if |hs| == 0 then [] else [SplitCamel(hs[0])] + SplitCamelAll(hs[1..])
  }

  predicate IsNameChar(c: char) {
    IsUpper(c) || IsLower(c) || IsSpace(c) || c == ',' || c == '&'
  }

  /** Length of the longest prefix of `[A-Za-z\s,&]` characters. */
  function NameRun(s: string): (n: nat)
    ensures n <= |s|
    ensures forall i :: 0 <= i < n ==> IsNameChar(s[i])
    ensures n < |s| ==> !IsNameChar(s[n])
    decreases |s|
  {
    if |s| > 0 && IsNameChar(s[0]) then 1 + NameRun(s[1..]) else 0
  }

  predicate IsValueStart(c: char) {
    c == '$' || IsDigit(c) || c == '%' || c == '+' || c == '-'
  }

  /** Where `re.match(r'^([A-Za-z\s,&]+?)([\$\d%+\-].*)', line)` splits the
      line, or 0 when it does not match. The lazy name group can only stop
      at the first character outside its class, since that class and the
      class of the next character are disjoint. */
  function DataSplit(line: string): (k: nat)
    ensures k <= |line|
    ensures k > 0 ==> k < |line| && IsValueStart(line[k]) && forall i :: 0 <= i < k ==> IsNameChar(line[i])
  {
    var k := NameRun(line);
    if k >= 1 && k < |line| && IsValueStart(line[k]) then k else 0
  }

  predicate IsValueChar(c: char) {
    c == '$' || IsDigit(c) || c == '.' || c == 'B' || c == 'M' || c == 'K' || c == '%' || c == '+' || c == '-'
  }

  /** Length of the longest prefix of digits and dots. */
  function NumberRun(s: string): (n: nat)
    ensures n <= |s|
    decreases |s|
  {
    if |s| > 0 && (IsDigit(s[0]) || s[0] == '.') then 1 + NumberRun(s[1..]) else 0
  }

  lemma {:induction false} NumberRunText(s: string)
    ensures forall i :: 0 <= i < NumberRun(s) ==> IsDigit(s[i]) || s[i] == '.'
    decreases |s|
  {
    if |s| > 0 && (IsDigit(s[0]) || s[0] == '.') {
      NumberRunText(s[1..]);
    }
  }

  lemma {:induction false} DigitRunText(s: string)
    ensures forall i :: 0 <= i < DigitRun(s) ==> IsDigit(s[i])
    decreases |s|
  {
    if |s| > 0 && IsDigit(s[0]) {
      DigitRunText(s[1..]);
    }
  }

  /** Length of a match of `[\$]?[\d.]+[BMK]?%?|[+\-]\d+\.?\d*%` at the start
      of `s`, or 0. */
  function ValueAt(s: string): (n: nat)
    ensures n <= |s|
    ensures forall i :: 0 <= i < n ==> IsValueChar(s[i])
  {
    var d := if |s| > 0 && s[0] == '$' then 1 else 0;
    var m := NumberRun(s[d..]);
    NumberRunText(s[d..]);
    if m > 0 then
      var e := d + m;
      var e2 := if e < |s| && (s[e] == 'B' || s[e] == 'M' || s[e] == 'K') then e + 1 else e;
      if e2 < |s| && s[e2] == '%' then e2 + 1 else e2
    else if |s| > 0 && (s[0] == '+' || s[0] == '-') then
      var a := DigitRun(s[1..]);
      DigitRunText(s[1..]);
      if a == 0 then 0
      else
        var p := 1 + a;
        var p2 := if p < |s| && s[p] == '.' then p + 1 else p;
        var b := DigitRun(s[p2..]);
        DigitRunText(s[p2..]);
        var p3 := p2 + b;
        if p3 < |s| && s[p3] == '%' then p3 + 1 else 0
    else 0
  }

  /** `re.findall(r'[\$]?[\d.]+[BMK]?%?|[+\-]\d+\.?\d*%', s)`. */
  function ValueTokens(s: string): (r: seq<string>)
    ensures forall k :: 0 <= k < |r| ==> r[k] != "" && forall i :: 0 <= i < |r[k]| ==> IsValueChar(r[k][i])
    decreases |s|
  {
    if |s| == 0 then []
    else
      var n := ValueAt(s);
      if n > 0 then [s[..n]] + ValueTokens(s[n..]) else ValueTokens(s[1..])
  }

  // ---------------------------------------------------------------------
  // The financial rebuild, line by line

  /** What one line of a compact financial table becomes. */
  datatype LineFix =
    | HeaderCells(cells: seq<string>)           // a header row and its separator
    | Skipped                                   // a header-like line with fewer than 2 headers
    | DataRow(name: string, values: seq<string>) // a label and its values
    | Unparsed(text: string)                    // neither; kept as a comment

  function Min(a: nat, b: nat): nat { if a <= b then a else b }

  /** The branch `_fix_financial_table` takes for one line. */
  function FixFinancialLine(line: string): (r: LineFix)
    ensures r.HeaderCells? ==> (2 <= |r.cells| <= 6
                                && forall k :: 0 <= k < |r.cells| ==> IsHeaderText(r.cells[k]))
    ensures r.HeaderCells? || r.Skipped? ==> HeaderStart(line)
    ensures r.DataRow? ==> |r.values| >= 1
    ensures r.Unparsed? ==> r.text == line
  {
    var headers := Phrases(line);
    if HeaderStart(line) && |headers| > 0 then
      var clean := SplitCamelAll(headers);
      if |clean| > 6 then HeaderCells(clean[..6])
      else if |clean| < 2 then Skipped
      else HeaderCells(clean)
    else
      var k := DataSplit(line);
      if k > 0 && |ValueTokens(line[k..])| > 0 then DataRow(Strip(line[..k]), ValueTokens(line[k..]))
      else Unparsed(line)
  }

  /** The output lines of one classified line. */
  function Render(f: LineFix): (r: seq<string>)
    ensures f.Unparsed? ==> r == ["<!-- Unable to parse table line: " + f.text[..Min(50, |f.text|)] + "... -->"]
  {
    match f
    case HeaderCells(cells) => [Row(cells), Separator(|cells|)]
    case Skipped => []
    case DataRow(name, values) => [Row([name] + values)]
    case Unparsed(text) => ["<!-- Unable to parse table line: " + text[..Min(50, |text|)] + "... -->"]
  }

  /** The lines `_fix_financial_table` collects for `lines`, in order. */
  function FinancialLines(lines: seq<string>): seq<string>
    decreases |lines|
  {
    if |lines| == 0 then []
    else FinancialLines(lines[..|lines| - 1]) + Render(FixFinancialLine(lines[|lines| - 1]))
  }

  const CompactFenceTitle := "Compact table (unable to parse):"
  const GenericFenceTitle := "Compact table detected (manual review needed):"

  /** `_fix_financial_table`: the collected lines, or the original lines in a
      fence when fewer than two lines were collected. */
  function FinancialTable(lines: seq<string>): (r: seq<string>)
    ensures |r| >= 2
    ensures |FinancialLines(lines)| < 2 ==> |r| == |lines| + 4 && r[2..2 + |lines|] == lines
  {
    var fixed := FinancialLines(lines);
    if |fixed| < 2 then ["```", CompactFenceTitle] + lines + ["```", ""] else fixed
  }

  /** `_fix_generic_compact_table`: the original lines, always fenced. */
  function GenericFence(lines: seq<string>): (r: seq<string>)
    ensures |r| == |lines| + 5 && r[3..3 + |lines|] == lines
  {
    ["", "```", GenericFenceTitle] + lines + ["```", ""]
  }

  const TableKeywords: seq<string> := ["Segment", "Metric", "Ratio", "Revenue", "Metric"]

  predicate HasTableKeyword(line: string) {
    exists k :: 0 <= k < |TableKeywords| && Contains(line, TableKeywords[k])
  }

  /** `_fix_compact_table`: the financial rebuild when the first line names a
      table keyword, else the generic fence. */
  function CompactTable(lines: seq<string>): seq<string> {
    if |lines| == 0 then lines
    else if HasTableKeyword(lines[0]) then FinancialTable(lines)
    else GenericFence(lines)
  }

  /** A rebuilt header has between 2 and 6 cells and its separator has the
      same number of cells. */
  lemma HeaderMatchesSeparator(line: string)
    requires FixFinancialLine(line).HeaderCells?
    ensures var cells := FixFinancialLine(line).cells;
            2 <= |cells| <= 6
            && CountChar(Row(cells), '|') == |cells| + 1
            && CountChar(Separator(|cells|), '|') == |cells| + 1
  {
    var cells := FixFinancialLine(line).cells;
    forall k | 0 <= k < |cells|
      ensures '|' !in cells[k]
    {
      HeaderTextPipeFree(cells[k]);
    }
    RowPipes(cells);
    RowPipes(Dashes(|cells|));
  }

  lemma HeaderTextPipeFree(s: string)
    requires IsHeaderText(s)
    ensures '|' !in s
  {
    forall i | 0 <= i < |s|
      ensures s[i] != '|'
    {
    }
  }

  /** The label of a data row contains no `|`. */
  lemma DataNamePipeFree(line: string)
    ensures '|' !in Strip(line[..DataSplit(line)])
  {
    var t := line[..DataSplit(line)];
    forall i | 0 <= i < |t|
      ensures t[i] != '|'
    {
      if DataSplit(line) > 0 {
        assert IsNameChar(line[i]);
      }
    }
    StripExcludes(t, '|');
  }

  /** No value token contains `|`. */
  lemma ValuesPipeFree(s: string)
    ensures PipeFree(ValueTokens(s))
  {
    var r := ValueTokens(s);
    forall m | 0 <= m < |r|
      ensures '|' !in r[m]
    {
      forall i | 0 <= i < |r[m]|
        ensures r[m][i] != '|'
      {
        assert IsValueChar(r[m][i]);
      }
    }
  }

  /** A data row has one cell for the label and one per value found, however
      many cells the header has: the width is not forced to the header's. */
  lemma DataRowWidth(line: string)
    requires FixFinancialLine(line).DataRow?
    ensures var f := FixFinancialLine(line);
            CountChar(Render(f)[0], '|') == |f.values| + 2
  {
    var f := FixFinancialLine(line);
    var k := DataSplit(line);
    DataNamePipeFree(line);
    ValuesPipeFree(line[k..]);
    ConsPipeFree(f.name, f.values);
    RowPipes([f.name] + f.values);
  }

  /** A header-like line that yields fewer than two headers produces no
      output line at all. */
  lemma ShortHeaderDropped(line: string)
    requires HeaderStart(line) && 0 < |Phrases(line)| < 2
    ensures Render(FixFinancialLine(line)) == []
  {
  }

  /** `_fix_financial_table`, appending to `fixed_lines` in a loop. */
  method FixFinancialTable(lines: seq<string>) returns (r: seq<string>)
    ensures r == FinancialTable(lines)
  {
    var fixed: seq<string> := [];
    var i := 0;
    while i < |lines|
      invariant 0 <= i <= |lines|
      invariant fixed == FinancialLines(lines[..i])
    {
      var f := FixFinancialLine(lines[i]);
      assert lines[..i + 1][..i] == lines[..i];
      fixed := fixed + Render(f);
      i := i + 1;
    }
    assert lines[..i] == lines;
    if |fixed| < 2 {
      r := ["```", CompactFenceTitle] + lines + ["```", ""];
    } else {
      r := fixed;
    }
  }

  /** `_fix_compact_table`. */
  method FixCompactTable(lines: seq<string>) returns (r: seq<string>)
    ensures r == CompactTable(lines)
  {
    if |lines| == 0 {
      return lines;
    }
    if HasTableKeyword(lines[0]) {
      r := FixFinancialTable(lines);
    } else {
      r := GenericFence(lines);
    }
  }

  // ---------------------------------------------------------------------
  // The line scanner

  /** The classifier as a line test. */
  function CompactTest(features: string -> Features): string -> bool {
    line => IsCompactTableLine(line, features)
  }

  /** The output lines of `fix_all_tables`: each maximal run of compact lines
      is replaced by its rebuilt table, every other line is cell-cleaned. */
  function FixLines(lines: seq<string>, features: string -> Features): seq<string> {
    ScanLines(lines, CompactTest(features), CompactTable, CleanRow)
  }

  /** A line that is neither compact nor contains `|` is copied unchanged, at
      its place, and separates the repair of what comes before from what
      comes after. */
  lemma PlainLineKept(a: seq<string>, line: string, b: seq<string>, features: string -> Features)
    requires !IsCompactTableLine(line, features) && '|' !in line
    ensures FixLines(a + [line] + b, features) == FixLines(a, features) + [line] + FixLines(b, features)
  {
    ScanKeepsPlainLine(a, line, b, CompactTest(features), CompactTable, CleanRow);
  }

  /** Two pieces that do not continue one compact run across their boundary
      are repaired independently. */
  lemma FixLinesAppend(a: seq<string>, b: seq<string>, features: string -> Features)
    requires a == [] || b == [] || !IsCompactTableLine(a[|a| - 1], features) || !IsCompactTableLine(b[0], features)
    ensures FixLines(a + b, features) == FixLines(a, features) + FixLines(b, features)
  {
    ScanAppend(a, b, CompactTest(features), CompactTable, CleanRow);
  }

  /** One step of `fix_all_tables` at line `i`: a whole run of compact lines
      is rebuilt, any other line is cell-cleaned. */
  method FixStep(lines: seq<string>, i: nat, features: string -> Features) returns (chunk: seq<string>, j: nat)
    requires i < |lines|
    ensures i < j <= |lines|
    ensures FixLines(lines[i..], features) == chunk + FixLines(lines[j..], features)
  {
    var isTable := CompactTest(features);
    if isTable(lines[i]) {
      j := RunEnd(lines, i, isTable);
      ScanRun(lines, i, j, isTable, CompactTable, CleanRow);
      chunk := FixCompactTable(lines[i..j]);
    } else {
      ScanOther(lines, i, isTable, CompactTable, CleanRow);
      var cleaned := CleanTableFormatting(lines[i]);
      chunk := [cleaned];
      j := i + 1;
    }
  }

  /** `fix_all_tables`: split into lines, repair them, join them again. */
  method FixAllTables(content: string, features: string -> Features) returns (out: string)
    ensures out == Join(FixLines(Split(content, '\n'), features), "\n")
  {
    var fixed := FixEachLine(Split(content, '\n'), features);
    out := Join(fixed, "\n");
  }

  /** The line loop of `fix_all_tables`, walking the lines with an index. */
  method FixEachLine(lines: seq<string>, features: string -> Features) returns (fixed: seq<string>)
    ensures fixed == FixLines(lines, features)
  {
    fixed := [];
    var i := 0;
    assert lines[0..] == lines;
    while i < |lines|
      invariant 0 <= i <= |lines|
      invariant fixed + FixLines(lines[i..], features) == FixLines(lines, features)
    {
      var chunk, j := FixStep(lines, i, features);
      AppendAssoc(fixed, chunk, FixLines(lines[j..], features));
      fixed := fixed + chunk;
      i := j;
    }
    FixLinesEnd(lines, features);
    EmptyTail(fixed);
  }

  lemma FixLinesEnd(lines: seq<string>, features: string -> Features)
    ensures FixLines(lines[|lines|..], features) == []
  {
    EmptyTail(lines);
  }

  /** A report without compact lines and without `|` is returned unchanged. */
  lemma FixAllTablesPlain(content: string, features: string -> Features)
    requires '|' !in content
    requires forall k :: 0 <= k < |Split(content, '\n')| ==> !IsCompactTableLine(Split(content, '\n')[k], features)
    ensures Join(FixLines(Split(content, '\n'), features), "\n") == content
  {
    var lines := Split(content, '\n');
    SplitPiecesWithin(content, '\n', '|');
    ScanWithoutTables(lines, CompactTest(features), CompactTable, CleanRow);
    assert FixLines(lines, features) == lines;
    JoinSplit(content, '\n');
  }
}
