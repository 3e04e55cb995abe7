/** Pipe-table rows as the report pipeline prints and reads them: a row is
    `| c1 | c2 | ... |`, cells are read back by splitting at every `|` and
    stripping. This is the pipe-table syntax of section 4.10 of the GitHub
    Flavored Markdown spec without alignment colons and without escaped pipes. */
module PipeTable {
  import opened Text
  import opened Seqs

  /** `'| ' + ' | '.join(cells) + ' |'`. */
  function Row(cells: seq<string>): string {
    "| " + Join(cells, " | ") + " |"
  }

  function Dashes(n: nat): (r: seq<string>)
    ensures |r| == n && forall k :: 0 <= k < n ==> r[k] == "---"
  {
    seq(n, _ => "---")
  }

  /** The separator row `| --- | ... |` with `n` cells. */
  function Separator(n: nat): string {
    Row(Dashes(n))
  }

  /** `[cell.strip() for cell in line.split('|')]`. */
  function SplitCells(line: string): (r: seq<string>)
    ensures |r| == CountChar(line, '|') + 1
  {
    StripAll(Split(line, '|'))
  }

  /** `[p.strip() for p in parts]`. */
  function StripAll(parts: seq<string>): (r: seq<string>)
    ensures |r| == |parts|
    ensures forall k :: 0 <= k < |r| ==> r[k] == Strip(parts[k])
    decreases |parts|
  {
    if |parts| == 0 then [] else [Strip(parts[0])] + StripAll(parts[1..])
  }

  /** `[c for c in cells if c]`. */
  function NonEmpty(cells: seq<string>): (r: seq<string>)
    ensures |r| <= |cells|
    ensures forall k :: 0 <= k < |r| ==> r[k] != "" && r[k] in cells
    decreases |cells|
  {
    if |cells| == 0 then []
    else if cells[0] == "" then NonEmpty(cells[1..])
    else [cells[0]] + NonEmpty(cells[1..])
  }

  /** A cell that prints and reads back as itself: non-empty, stripped, and
      without `|`. */
  predicate IsCellText(c: string) {
    c != "" && '|' !in c && !IsSpace(c[0]) && !IsSpace(c[|c| - 1])
  }

  /** A string without surrounding whitespace (possibly empty). */
  predicate Stripped(c: string) {
    c == [] || (!IsSpace(c[0]) && !IsSpace(c[|c| - 1]))
  }

  predicate PipeFree(cells: seq<string>) {
    forall k :: 0 <= k < |cells| ==> '|' !in cells[k]
  }

  function Padded(cells: seq<string>): (r: seq<string>)
    ensures |r| == |cells|
    ensures forall k :: 0 <= k < |r| ==> r[k] == " " + cells[k] + " "
    decreases |cells|
  {
    if |cells| == 0 then [] else [" " + cells[0] + " "] + Padded(cells[1..])
  }

  lemma {:induction false} JoinPadded(cells: seq<string>)
    requires |cells| >= 1
    ensures Join(Padded(cells), "|") == " " + Join(cells, " | ") + " "
    decreases |cells|
  {
    if |cells| > 1 {
      JoinPadded(cells[1..]);
      assert Padded(cells)[1..] == Padded(cells[1..]);
      calc {
        Join(Padded(cells), "|");
        Padded(cells)[0] + "|" + Join(Padded(cells[1..]), "|");
        (" " + cells[0] + " ") + "|" + (" " + Join(cells[1..], " | ") + " ");
        " " + (cells[0] + " | " + Join(cells[1..], " | ")) + " ";
      }
    }
  }

  /** A row is the `|`-join of an empty first piece, the padded cells and an
      empty last piece. */
  lemma RowAsJoin(cells: seq<string>)
    requires |cells| >= 1
    ensures Row(cells) == Join([""] + Padded(cells) + [""], "|")
  {
    var p := Padded(cells);
    JoinPadded(cells);
    JoinAppend(p, "", "|");
    JoinFront("", p + [""], "|");
    AppendAssoc([""], p, [""]);
    Framed(Join(cells, " | "));
  }

  lemma JoinFront(x: string, rest: seq<string>, sep: string)
    requires |rest| >= 1
    ensures Join([x] + rest, sep) == x + sep + Join(rest, sep)
  {
    assert ([x] + rest)[1..] == rest;
  }

  lemma Framed(j: string)
    ensures "" + "|" + ((" " + j + " ") + "|" + "") == "| " + j + " |"
  {
    assert "| " == "|" + " ";
    assert " |" == " " + "|";
  }

  /** Splitting a row at `|` gives back the padded cells between two empty pieces. */
  lemma SplitRow(cells: seq<string>)
    requires |cells| >= 1 && PipeFree(cells)
    ensures Split(Row(cells), '|') == [""] + Padded(cells) + [""]
  {
    RowAsJoin(cells);
    FramedPipeFree(cells);
    SplitJoin([""] + Padded(cells) + [""], '|');
  }

  /** Padding pipe-free cells and framing them with empty pieces adds no `|`. */
  lemma FramedPipeFree(cells: seq<string>)
    requires PipeFree(cells)
    ensures PipeFree([""] + Padded(cells) + [""])
  {
    var parts := [""] + Padded(cells) + [""];
    forall k | 0 <= k < |parts|
      ensures '|' !in parts[k]
    {
      if 1 <= k <= |cells| {
        assert parts[k] == " " + cells[k - 1] + " ";
      }
    }
  }

  lemma ConsPipeFree(first: string, rest: seq<string>)
    requires '|' !in first && PipeFree(rest)
    ensures PipeFree([first] + rest)
  {
    var cells := [first] + rest;
    forall k | 0 <= k < |cells|
      ensures '|' !in cells[k]
    {
      if k > 0 {
        assert cells[k] == rest[k - 1];
      }
    }
  }

  /** A row of pipe-free cells has one more `|` than it has cells. */
  lemma RowPipes(cells: seq<string>)
    requires |cells| >= 1 && PipeFree(cells)
    ensures CountChar(Row(cells), '|') == |cells| + 1
  {
    SplitRow(cells);
  }

  lemma {:induction false} StripPaddedAll(cells: seq<string>)
    requires forall k :: 0 <= k < |cells| ==> Stripped(cells[k])
    ensures StripAll(Padded(cells)) == cells
    decreases |cells|
  {
    if |cells| > 0 {
      StripPadded(cells[0]);
      StripPaddedAll(cells[1..]);
    }
  }

  lemma {:induction false} NonEmptyAll(cells: seq<string>)
    requires forall k :: 0 <= k < |cells| ==> cells[k] != ""
    ensures NonEmpty(cells) == cells
    decreases |cells|
  {
    if |cells| > 0 {
      NonEmptyAll(cells[1..]);
    }
  }

  lemma {:induction false} StripAllAppend(a: seq<string>, b: seq<string>)
    ensures StripAll(a + b) == StripAll(a) + StripAll(b)
    decreases |a|
  {
    if |a| > 0 {
      assert (a + b)[1..] == a[1..] + b;
      StripAllAppend(a[1..], b);
    } else {
      assert a + b == b;
    }
  }

  /** Reading back a row of stripped, pipe-free cells gives the cells between
      two empty pieces. */
  lemma SplitCellsOfRow(cells: seq<string>)
    requires |cells| >= 1 && PipeFree(cells)
    requires forall k :: 0 <= k < |cells| ==> Stripped(cells[k])
    ensures SplitCells(Row(cells)) == [""] + cells + [""]
  {
    SplitRow(cells);
    StripAllAppend([""] + Padded(cells), [""]);
    StripAllAppend([""], Padded(cells));
    StripPaddedAll(cells);
    assert Strip("") == "";
  }

  /** Printing clean cells as a row and reading the row back gives the same cells. */
  lemma RowRoundTrip(cells: seq<string>)
    requires |cells| >= 1
    requires forall k :: 0 <= k < |cells| ==> IsCellText(cells[k])
    ensures NonEmpty(SplitCells(Row(cells))) == cells
  {
    assert PipeFree(cells);
    SplitCellsOfRow(cells);
    NonEmptyAppend([""] + cells, [""]);
    NonEmptyAppend([""], cells);
    NonEmptyAll(cells);
  }

  lemma {:induction false} NonEmptyAppend(a: seq<string>, b: seq<string>)
    ensures NonEmpty(a + b) == NonEmpty(a) + NonEmpty(b)
    decreases |a|
  {
    if |a| > 0 {
      assert (a + b)[1..] == a[1..] + b;
      NonEmptyAppend(a[1..], b);
    } else {
      assert a + b == b;
    }
  }

  /** The cells read from any line hold no `|`. */
  lemma {:induction false} SplitCellsPipeFree(line: string)
    ensures PipeFree(SplitCells(line))
  {
    var parts := Split(line, '|');
    var cells := SplitCells(line);
    forall k | 0 <= k < |cells|
      ensures '|' !in cells[k]
    {
      StripExcludes(parts[k], '|');
    }
  }

  /** The cells read from any line are stripped. */
  lemma {:induction false} SplitCellsStripped(line: string)
    ensures forall k :: 0 <= k < |SplitCells(line)| ==> Stripped(SplitCells(line)[k])
  {
    var parts := Split(line, '|');
    var cells := SplitCells(line);
    forall k | 0 <= k < |cells|
      ensures Stripped(cells[k])
    {
      var c := Strip(parts[k]);
      assert cells[k] == c;
      assert c == [] || (!IsSpace(c[0]) && !IsSpace(c[|c| - 1]));
    }
  }
}
