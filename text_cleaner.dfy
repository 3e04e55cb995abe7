/** The whitespace cleaner of `agents/text_cleaner.py`. */
module TextCleaner {
  import opened Seqs
  import opened Text

  /** `re.sub(r'\s+', ' ', s)`: every maximal whitespace run becomes one space. */
  function SquashSpace(s: string): (r: string)
    ensures |s| > 0 ==> |r| > 0 && (if IsSpace(s[0]) then r[0] == ' ' else r[0] == s[0])
    decreases |s|
  {
    if |s| == 0 then ""
    else if IsSpace(s[0]) then " " + SquashSpace(s[SpaceRun(s)..])
    else [s[0]] + SquashSpace(s[1..])
  }

  /** `TextCleaner.clean_text`: empty text gives the empty string. */
  function CleanText(text: string): string {
    if text == "" then "" else Strip(SquashSpace(text))
  }

  /** `TextCleaner.extract_markdown_content`. Its guard for empty text is
      redundant: the result is `strip` in every case. */
  function ExtractMarkdownContent(text: string): (r: string)
    ensures r == Strip(text)
  {
    if text == "" then "" else Strip(text)
  }

  /** The only whitespace is a single space between two other characters. */
  predicate SingleSpaced(r: string) {
    forall i :: 0 <= i < |r| && IsSpace(r[i]) ==> r[i] == ' ' && (i + 1 == |r| || !IsSpace(r[i + 1]))
  }

  lemma SingleSpacedCons(x: char, rest: string)
    requires SingleSpaced(rest)
    requires IsSpace(x) ==> x == ' ' && (rest == [] || !IsSpace(rest[0]))
    ensures SingleSpaced([x] + rest)
  {
    var r := [x] + rest;
    forall i | 0 <= i < |r| && IsSpace(r[i])
      ensures r[i] == ' ' && (i + 1 == |r| || !IsSpace(r[i + 1]))
    {
      if i > 0 {
        assert r[i] == rest[i - 1];
        if i + 1 < |r| { assert r[i + 1] == rest[i]; }
      }
    }
  }

  lemma SingleSpacedSlice(s: string, a: nat, b: nat)
    requires a <= b <= |s| && SingleSpaced(s)
    ensures SingleSpaced(s[a..b])
  {
    var r := s[a..b];
    forall i | 0 <= i < |r| && IsSpace(r[i])
      ensures r[i] == ' ' && (i + 1 == |r| || !IsSpace(r[i + 1]))
    {
      assert r[i] == s[a + i];
      if i + 1 < |r| { assert r[i + 1] == s[a + i + 1]; }
    }
  }

  lemma {:induction false} SquashSpaceSingle(s: string)
    ensures SingleSpaced(SquashSpace(s))
    decreases |s|
  {
    if |s| > 0 {
      if IsSpace(s[0]) {
        var n := SpaceRun(s);
        SquashSpaceSingle(s[n..]);
        SingleSpacedCons(' ', SquashSpace(s[n..]));
        assert " " + SquashSpace(s[n..]) == [' '] + SquashSpace(s[n..]);
      } else {
        SquashSpaceSingle(s[1..]);
        SingleSpacedCons(s[0], SquashSpace(s[1..]));
      }
    }
  }

  lemma {:induction false} SquashSpaceNonSpace(s: string)
    ensures NonSpace(SquashSpace(s)) == NonSpace(s)
    decreases |s|
  {
    if |s| > 0 {
      if IsSpace(s[0]) {
        var n := SpaceRun(s);
        SquashSpaceNonSpace(s[n..]);
        NonSpaceAppend(" ", SquashSpace(s[n..]));
        assert s == s[..n] + s[n..];
        NonSpaceAppend(s[..n], s[n..]);
        NonSpaceOfAllSpace(s[..n]);
      } else {
        SquashSpaceNonSpace(s[1..]);
        NonSpaceAppend([s[0]], SquashSpace(s[1..]));
        assert s == [s[0]] + s[1..];
        NonSpaceAppend([s[0]], s[1..]);
      }
    }
  }

  lemma StripNonSpace(s: string)
    ensures NonSpace(Strip(s)) == NonSpace(s)
  {
    var i := StripSlice(s);
    var m := |Strip(s)|;
    NonSpaceSplit(s, i);
    NonSpaceOfAllSpace(s[..i]);
    var t := s[i..];
    NonSpaceSplit(t, m);
    SubSlice(s, i, m);
    NonSpaceOfAllSpace(s[i + m..]);
  }

  lemma NonSpaceSplit(s: string, i: nat)
    requires i <= |s|
    ensures NonSpace(s) == NonSpace(s[..i]) + NonSpace(s[i..])
  {
    assert s == s[..i] + s[i..];
    NonSpaceAppend(s[..i], s[i..]);
  }

  /** Text that is already single-spaced is left as it is by the squash. */
  lemma {:induction false} SquashSpaceId(s: string)
    requires SingleSpaced(s)
    ensures SquashSpace(s) == s
    decreases |s|
  {
    if |s| > 0 {
      SingleSpacedSlice(s, 1, |s|);
      assert s[1..|s|] == s[1..];
      SquashSpaceId(s[1..]);
      if IsSpace(s[0]) {
        assert SpaceRun(s) == 1 by {
          if |s| > 1 { assert !IsSpace(s[1]); }
        }
      }
      assert s == [s[0]] + s[1..];
    }
  }

  /** `clean_text` leaves no whitespace at the ends and only single spaces
      inside, and keeps every other character in order. */
  lemma CleanTextShape(text: string)
    ensures SingleSpaced(CleanText(text))
    ensures Strip(CleanText(text)) == CleanText(text)
    ensures NonSpace(CleanText(text)) == NonSpace(text)
  {
    if text != "" {
      var q := SquashSpace(text);
      SquashSpaceSingle(text);
      var i := StripSlice(q);
      SingleSpacedSlice(q, i, i + |Strip(q)|);
      StripIdempotent(q);
      StripNonSpace(q);
      SquashSpaceNonSpace(text);
    }
  }

  /** Cleaning twice is cleaning once. */
  lemma CleanTextIdempotent(text: string)
    ensures CleanText(CleanText(text)) == CleanText(text)
  {
    var r := CleanText(text);
    CleanTextShape(text);
    if r != "" {
      SquashSpaceId(r);
    }
  }
}
