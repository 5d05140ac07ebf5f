/** Facts about taking one element out of a sequence, shared by the
    order-independence proofs. */
module Seqs {

  /** The prefix of length n is the shorter prefix and the element at n - 1. */
  lemma TakeSnoc<T>(s: seq<T>, n: nat)
    requires 0 < n <= |s|
    ensures s[..n] == s[..n - 1] + [s[n - 1]]
  {
  }

  lemma TakeAll<T>(s: seq<T>)
    ensures s[..|s|] == s
  {
  }

  /** Taking out the element at k shifts the later ones down by one. */
  lemma RemoveAtShape<T>(s: seq<T>, k: nat)
    requires k < |s|
    ensures var r := s[..k] + s[k + 1..];
      && |r| == |s| - 1
      && (forall i :: 0 <= i < k ==> r[i] == s[i])
      && (forall i :: k <= i < |r| ==> r[i] == s[i + 1])
  {
  }

  lemma SplitAt<T>(s: seq<T>, i: nat)
    requires i < |s|
    ensures s[..i] + [s[i]] + s[i + 1..] == s
  {
  }

  /** Taking out the element at i takes one copy of it out of the multiset. */
  lemma RemoveAt<T>(s: seq<T>, i: nat)
    requires i < |s|
    ensures multiset(s[..i] + s[i + 1..]) == multiset(s) - multiset{s[i]}
  {
    SplitAt(s, i);
  }

  /** An element of one arrangement sits at some index i of any other, and
      taking it out of both leaves two arrangements of the same multiset. */
  lemma RemoveMatching<T>(a: seq<T>, b: seq<T>, k: nat) returns (i: nat)
    requires multiset(a) == multiset(b) && k < |a|
    ensures i < |b| && b[i] == a[k]
    ensures multiset(a[..k] + a[k + 1..]) == multiset(b[..i] + b[i + 1..])
  {
    assert a[k] in multiset(b);
    i :| 0 <= i < |b| && b[i] == a[k];
    RemoveAt(a, k);
    RemoveAt(b, i);
  }
}
