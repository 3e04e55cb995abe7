/** The line scanner shared by the two table repairers: walk the lines of a
    report, replace every maximal run of table-candidate lines by a rebuilt
    block, and pass every other line through a per-line rewrite. */
module LineScan {
  import opened Seqs

  /** Length of the run of candidate lines at the start of `lines`. */
  function RunLength(lines: seq<string>, isTable: string -> bool): (n: nat)
    ensures n <= |lines|
    ensures forall k :: 0 <= k < n ==> isTable(lines[k])
    ensures n < |lines| ==> !isTable(lines[n])
    decreases |lines|
  {
    if |lines| == 0 || !isTable(lines[0]) then 0 else 1 + RunLength(lines[1..], isTable)
  }

  /** The scanner's output: each maximal run of candidate lines becomes
      `rebuild(run)`, each other line becomes `other(line)`. */
  function ScanLines(lines: seq<string>, isTable: string -> bool,
                     rebuild: seq<string> -> seq<string>, other: string -> string): seq<string>
    decreases |lines|
  {
    if |lines| == 0 then []
    else if isTable(lines[0]) then
      var n := RunLength(lines, isTable);
      rebuild(lines[..n]) + ScanLines(lines[n..], isTable, rebuild, other)
    else [other(lines[0])] + ScanLines(lines[1..], isTable, rebuild, other)
  }

  /** A run length is determined by where the candidate lines stop. */
  lemma {:induction false} RunLengthExact(lines: seq<string>, m: nat, isTable: string -> bool)
    requires m <= |lines|
    requires forall k :: 0 <= k < m ==> isTable(lines[k])
    requires m < |lines| ==> !isTable(lines[m])
    ensures RunLength(lines, isTable) == m
    decreases m
  {
    if m > 0 {
      RunLengthExact(lines[1..], m - 1, isTable);
    }
  }

  /** A run that reaches the end of `a` continues into `b`. */
  lemma {:induction false} RunLengthAppend(a: seq<string>, b: seq<string>, isTable: string -> bool)
    ensures RunLength(a + b, isTable)
            == if RunLength(a, isTable) < |a| then RunLength(a, isTable) else |a| + RunLength(b, isTable)
    decreases |a|
  {
    if |a| == 0 {
      assert a + b == b;
    } else {
      assert (a + b)[0] == a[0];
      if isTable(a[0]) {
        assert (a + b)[1..] == a[1..] + b;
        RunLengthAppend(a[1..], b, isTable);
      }
    }
  }

  /** The scan is local: two pieces that do not both continue one run across
      their boundary are processed independently. */
  lemma {:induction false} ScanAppend(a: seq<string>, b: seq<string>, isTable: string -> bool,
                                      rebuild: seq<string> -> seq<string>, other: string -> string)
    requires a == [] || b == [] || !isTable(a[|a| - 1]) || !isTable(b[0])
    ensures ScanLines(a + b, isTable, rebuild, other)
            == ScanLines(a, isTable, rebuild, other) + ScanLines(b, isTable, rebuild, other)
    decreases |a|
  {
    if |a| == 0 {
      assert a + b == b;
    } else if !isTable(a[0]) {
      if |a| > 1 {
        LastOfDrop(a, 1);
      }
      ScanAppend(a[1..], b, isTable, rebuild, other);
      ScanAppendOther(a, b, isTable, rebuild, other);
    } else {
      var n := RunLength(a, isTable);
      RunLengthAppend(a, b, isTable);
      if n == |a| && b != [] {
        assert isTable(a[|a| - 1]);
      }
      if n < |a| {
        LastOfDrop(a, n);
      }
      ScanAppend(a[n..], b, isTable, rebuild, other);
      ScanAppendRun(a, b, n, isTable, rebuild, other);
    }
  }

  lemma LastOfDrop(a: seq<string>, n: nat)
    requires n < |a|
    ensures |a[n..]| > 0 && a[n..][|a[n..]| - 1] == a[|a| - 1]
  {
  }

  /** The plain-line branch of `ScanAppend`, given the scan of what follows. */
  lemma ScanAppendOther(a: seq<string>, b: seq<string>, isTable: string -> bool,
                        rebuild: seq<string> -> seq<string>, other: string -> string)
    requires |a| > 0 && !isTable(a[0])
    requires ScanLines(a[1..] + b, isTable, rebuild, other)
             == ScanLines(a[1..], isTable, rebuild, other) + ScanLines(b, isTable, rebuild, other)
    ensures ScanLines(a + b, isTable, rebuild, other)
            == ScanLines(a, isTable, rebuild, other) + ScanLines(b, isTable, rebuild, other)
  {
    CutAppend(a, b, 1);
  }

  /** The run branch of `ScanAppend`, given the scan of what follows the run. */
  lemma ScanAppendRun(a: seq<string>, b: seq<string>, n: nat, isTable: string -> bool,
                      rebuild: seq<string> -> seq<string>, other: string -> string)
    requires 0 < n <= |a| && isTable(a[0])
    requires RunLength(a, isTable) == n && RunLength(a + b, isTable) == n
    requires ScanLines(a[n..] + b, isTable, rebuild, other)
             == ScanLines(a[n..], isTable, rebuild, other) + ScanLines(b, isTable, rebuild, other)
    ensures ScanLines(a + b, isTable, rebuild, other)
            == ScanLines(a, isTable, rebuild, other) + ScanLines(b, isTable, rebuild, other)
  {
    CutAppend(a, b, n);
  }

  /** A line that is no candidate and that `other` leaves alone is copied
      unchanged, at its place, and separates what comes before from what
      comes after. */
  lemma ScanKeepsPlainLine(a: seq<string>, line: string, b: seq<string>, isTable: string -> bool,
                           rebuild: seq<string> -> seq<string>, other: string -> string)
    requires !isTable(line) && other(line) == line
    ensures ScanLines(a + [line] + b, isTable, rebuild, other)
            == ScanLines(a, isTable, rebuild, other) + [line] + ScanLines(b, isTable, rebuild, other)
  {
    SnocPrefix(a, line);
    ScanAppend(a + [line], b, isTable, rebuild, other);
    ScanAppend(a, [line], isTable, rebuild, other);
    ScanSingle(line, isTable, rebuild, other);
  }

  lemma ScanSingle(line: string, isTable: string -> bool,
                   rebuild: seq<string> -> seq<string>, other: string -> string)
    requires !isTable(line)
    ensures ScanLines([line], isTable, rebuild, other) == [other(line)]
  {
    assert [line][1..] == [];
  }

  /** Without candidate lines the scan is a line-by-line rewrite. */
  lemma {:induction false} ScanWithoutTables(lines: seq<string>, isTable: string -> bool,
                                             rebuild: seq<string> -> seq<string>, other: string -> string)
    requires forall k :: 0 <= k < |lines| ==> !isTable(lines[k])
    ensures |ScanLines(lines, isTable, rebuild, other)| == |lines|
    ensures forall k :: 0 <= k < |lines| ==> ScanLines(lines, isTable, rebuild, other)[k] == other(lines[k])
    decreases |lines|
  {
    if |lines| > 0 {
      ScanWithoutTables(lines[1..], isTable, rebuild, other);
    }
  }

  /** Replacing one run: the scan of a run followed by a non-candidate line
      (or by nothing) is the rebuilt run followed by the scan of the rest. */
  lemma ScanRun(lines: seq<string>, i: nat, j: nat, isTable: string -> bool,
                rebuild: seq<string> -> seq<string>, other: string -> string)
    requires i < j <= |lines|
    requires forall k :: i <= k < j ==> isTable(lines[k])
    requires j < |lines| ==> !isTable(lines[j])
    ensures ScanLines(lines[i..], isTable, rebuild, other)
            == rebuild(lines[i..j]) + ScanLines(lines[j..], isTable, rebuild, other)
  {
    RunLengthExact(lines[i..], j - i, isTable);
    assert lines[i..][..j - i] == lines[i..j];
    assert lines[i..][j - i..] == lines[j..];
  }

  /** Stepping over one non-candidate line. */
  lemma ScanOther(lines: seq<string>, i: nat, isTable: string -> bool,
                  rebuild: seq<string> -> seq<string>, other: string -> string)
    requires i < |lines| && !isTable(lines[i])
    ensures ScanLines(lines[i..], isTable, rebuild, other)
            == [other(lines[i])] + ScanLines(lines[i + 1..], isTable, rebuild, other)
  {
    assert lines[i..][1..] == lines[i + 1..];
  }

  /** The end of the run of candidate lines that starts at `i`. */
  method RunEnd(lines: seq<string>, i: nat, isTable: string -> bool) returns (j: nat)
    requires i < |lines| && isTable(lines[i])
    ensures i < j <= |lines|
    ensures forall k :: i <= k < j ==> isTable(lines[k])
    ensures j < |lines| ==> !isTable(lines[j])
  {
    j := i + 1;
    while j < |lines| && isTable(lines[j])
      invariant i < j <= |lines|
      invariant forall k :: i <= k < j ==> isTable(lines[k])
    {
      j := j + 1;
    }
  }
}
