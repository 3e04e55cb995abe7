/** Generic facts about sequences, stated once so that the proofs about
    lines and cells can use them without reasoning about extensionality in a
    crowded context. */
module Seqs {

  /** A non-empty sequence is its prefix followed by its last element. */
  lemma Snoc<T>(xs: seq<T>)
    requires |xs| > 0
    ensures xs[..|xs| - 1] + [xs[|xs| - 1]] == xs
  {
  }

  /** Appending one element and dropping it again gives the sequence back. */
  lemma SnocPrefix<T>(xs: seq<T>, x: T)
    ensures (xs + [x])[..|xs|] == xs && (xs + [x])[|xs|] == x
  {
  }

  /** The prefix of length `i + 1` extends the prefix of length `i` by `xs[i]`. */
  lemma PrefixStep<T>(xs: seq<T>, i: nat)
    requires i < |xs|
    ensures xs[..i + 1][..i] == xs[..i] && xs[..i + 1] == xs[..i] + [xs[i]]
    ensures |xs[..i + 1]| == i + 1 && xs[..i + 1][i] == xs[i]
  {
  }

  lemma FullSlice<T>(xs: seq<T>)
    ensures xs[..|xs|] == xs
  {
  }

  lemma EmptyTail<T>(xs: seq<T>)
    ensures xs[|xs|..] == [] && xs + [] == xs
  {
  }

  /** Slicing a suffix is slicing the whole sequence further on. */
  lemma SubSlice<T>(xs: seq<T>, i: nat, n: nat)
    requires i + n <= |xs|
    ensures xs[i..][..n] == xs[i..i + n] && xs[i..][n..] == xs[i + n..]
  {
  }

  lemma AppendAssoc<T>(a: seq<T>, b: seq<T>, c: seq<T>)
    ensures a + b + c == a + (b + c)
  {
  }

  lemma Regroup<T>(a: seq<T>, b: seq<T>, c: seq<T>, d: seq<T>)
    ensures a + (b + c + d) == a + b + c + d
  {
  }

  /** Cutting `a + b` inside `a` cuts `a`. */
  lemma CutAppend<T>(a: seq<T>, b: seq<T>, n: nat)
    requires 0 < n <= |a|
    ensures (a + b)[0] == a[0] && (a + b)[..n] == a[..n] && (a + b)[n..] == a[n..] + b
  {
  }
}
