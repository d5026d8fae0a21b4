/** Sequence helpers: duplicate-free sequences and first-occurrence deduplication. */
module Seqs {

  predicate NoDup<T(==)>(s: seq<T>) {
    forall i, j :: 0 <= i < j < |s| ==> s[i] != s[j]
  }

  /** The index of the first occurrence of `x` in `s`. */
  function FirstIndex<T(==)>(s: seq<T>, x: T): (i: nat)
    requires x in s
    ensures i < |s| && s[i] == x && x !in s[..i]
  {
    if s[0] == x then 0 else 1 + FirstIndex(s[1..], x)
  }

  /**
   * The elements of `s` with later repetitions dropped, as a loop that appends every
   * element it has not seen yet to its output computes them.
   */
  function Dedup<T(==)>(s: seq<T>): (d: seq<T>)
    ensures NoDup(d)
    ensures forall i :: 0 <= i < |d| ==> d[i] in s
    ensures forall i :: 0 <= i < |s| ==> s[i] in d
    ensures |d| <= |s|
  {
    if |s| == 0 then []
    else
      var d := Dedup(s[..|s| - 1]);
      if s[|s| - 1] in d then d else d + [s[|s| - 1]]
  }

  /** The first index is the one position holding `x` with no `x` before it. */
  lemma FirstIndexIs<T>(s: seq<T>, x: T, k: nat)
    requires k < |s| && s[k] == x
    requires forall t :: 0 <= t < k ==> s[t] != x
    ensures FirstIndex(s, x) == k
  {
    var k' := FirstIndex(s, x);
    forall t | 0 <= t < k'
      ensures s[t] != x
    {
      assert s[..k'][t] == s[t];
    }
  }

  lemma FirstIndexOfPrefix<T>(s: seq<T>, n: nat, x: T)
    requires n <= |s| && x in s[..n]
    ensures x in s && FirstIndex(s, x) == FirstIndex(s[..n], x)
  {
    var k := FirstIndex(s[..n], x);
    forall t | 0 <= t < k
      ensures s[t] != x
    {
      assert s[..n][..k][t] == s[t];
    }
    FirstIndexIs(s, x, k);
  }

  /** Dedup of a non-empty sequence extends the dedup of its prefix, by the last element at most. */
  lemma DedupPrefix<T>(s: seq<T>, k: nat)
    requires |s| > 0 && k < |Dedup(s[..|s| - 1])|
    ensures k < |Dedup(s)| && Dedup(s)[k] == Dedup(s[..|s| - 1])[k]
  {
  }

  /** When Dedup grows at the last element, that element occurs nowhere before. */
  lemma DedupLastNew<T>(s: seq<T>)
    requires |s| > 0 && |Dedup(s)| > |Dedup(s[..|s| - 1])|
    ensures Dedup(s) == Dedup(s[..|s| - 1]) + [s[|s| - 1]]
    ensures FirstIndex(s, s[|s| - 1]) == |s| - 1
  {
    var n := |s| - 1;
    var s' := s[..n];
    assert s[n] !in Dedup(s');
    forall t | 0 <= t < n
      ensures s[t] != s[n]
    {
      assert s'[t] == s[t];
    }
    FirstIndexIs(s, s[n], n);
  }

  /** Dedup keeps the first occurrences in the order in which they occur in `s`. */
  lemma {:induction false} DedupFirstOccurrenceOrder<T>(s: seq<T>, i: nat, j: nat)
    requires i < j < |Dedup(s)|
    ensures Dedup(s)[i] in s && Dedup(s)[j] in s
    ensures FirstIndex(s, Dedup(s)[i]) < FirstIndex(s, Dedup(s)[j])
    decreases |s|
  {
    var n := |s| - 1;
    var s' := s[..n];
    var d' := Dedup(s');
    DedupPrefix(s, i);
    if j < |d'| {
      DedupPrefix(s, j);
      DedupFirstOccurrenceOrder(s', i, j);
      FirstIndexOfPrefix(s, n, d'[i]);
      FirstIndexOfPrefix(s, n, d'[j]);
    } else {
      DedupLastNew(s);
      FirstIndexOfPrefix(s, n, d'[i]);
    }
  }
}
