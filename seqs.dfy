/** Sequence helpers shared by the cart, the card registry and the string functions. */
module Seqs {

  /** The elements of `s` that satisfy `keep`, in their original order
      (JavaScript's `Array.prototype.filter`). */
  function Filter<T>(s: seq<T>, keep: T -> bool): (r: seq<T>)
    ensures |r| <= |s|
    ensures forall i :: 0 <= i < |r| ==> keep(r[i])
  {
    if s == [] then [] else (if keep(s[0]) then [s[0]] else []) + Filter(s[1..], keep)
  }

  /** An element survives the filter exactly when it is in the input and satisfies `keep`. */
  lemma {:induction false} FilterMembership<T>(s: seq<T>, keep: T -> bool, x: T)
    ensures x in Filter(s, keep) <==> x in s && keep(x)
  {
    if s != [] {
      FilterMembership(s[1..], keep, x);
      assert s == [s[0]] + s[1..];
    }
  }

  /** Filtering a concatenation filters each part: the survivors keep their relative order. */
  lemma {:induction false} FilterConcat<T>(a: seq<T>, b: seq<T>, keep: T -> bool)
    ensures Filter(a + b, keep) == Filter(a, keep) + Filter(b, keep)
  {
    if a == [] {
      assert a + b == b;
    } else {
      assert (a + b)[1..] == a[1..] + b;
      FilterConcat(a[1..], b, keep);
    }
  }

  /** A filter that rejects nothing returns its input. */
  lemma {:induction false} FilterKeepsAll<T>(s: seq<T>, keep: T -> bool)
    requires forall i :: 0 <= i < |s| ==> keep(s[i])
    ensures Filter(s, keep) == s
  {
    if s != [] {
      FilterKeepsAll(s[1..], keep);
    }
  }

  /** A filter that rejects exactly the element at index `k` removes that one element. */
  lemma FilterDropsOne<T>(s: seq<T>, keep: T -> bool, k: nat)
    requires k < |s| && !keep(s[k])
    requires forall i :: 0 <= i < |s| && i != k ==> keep(s[i])
    ensures Filter(s, keep) == s[..k] + s[k + 1..]
  {
    var front, back := s[..k], s[k + 1..];
    forall i | 0 <= i < |front| ensures keep(front[i]) { assert front[i] == s[i]; }
    forall i | 0 <= i < |back| ensures keep(back[i]) { assert back[i] == s[k + 1 + i]; }
    FilterKeepsAll(front, keep);
    FilterKeepsAll(back, keep);
    SplitAt(s, k);
    FilterJoin(front, s[k], back, keep);
  }

  lemma SplitAt<T>(s: seq<T>, k: nat)
    requires k < |s|
    ensures s == s[..k] + [s[k]] + s[k + 1..]
  {
  }

  lemma FilterJoin<T>(front: seq<T>, x: T, back: seq<T>, keep: T -> bool)
    requires Filter(front, keep) == front && !keep(x) && Filter(back, keep) == back
    ensures Filter(front + [x] + back, keep) == front + back
  {
    assert Filter([x], keep) == [] by {
      assert [x][1..] == [];
    }
    FilterConcat(front, [x], keep);
    FilterConcat(front + [x], back, keep);
  }

  /** Every element satisfies `p`. */
  predicate All<T>(s: seq<T>, p: T -> bool) {
    forall i :: 0 <= i < |s| ==> p(s[i])
  }

  /** No element of `s` is related to `x`. */
  predicate Unrelated<T>(s: seq<T>, x: T, rel: (T, T) -> bool) {
    forall i :: 0 <= i < |s| ==> !rel(s[i], x)
  }

  /** No element is related to a later one. */
  predicate Pairwise<T>(s: seq<T>, rel: (T, T) -> bool) {
    forall i, j :: 0 <= i < j < |s| ==> !rel(s[i], s[j])
  }

  lemma AllAppend<T>(s: seq<T>, x: T, p: T -> bool)
    requires All(s, p) && p(x)
    ensures All(s + [x], p)
  {
    var r := s + [x];
    forall i | 0 <= i < |r| ensures p(r[i]) {
      if i < |s| { assert r[i] == s[i]; }
    }
  }

  /** Appending an element unrelated to all before it keeps the sequence pairwise unrelated. */
  lemma PairwiseAppend<T>(s: seq<T>, x: T, rel: (T, T) -> bool)
    requires Pairwise(s, rel) && Unrelated(s, x, rel)
    ensures Pairwise(s + [x], rel)
  {
    var r := s + [x];
    forall i, j | 0 <= i < j < |r| ensures !rel(r[i], r[j]) {
      assert r[i] == s[i];
      if j < |s| { assert r[j] == s[j]; }
    }
  }

  /** A pairwise-unrelated sequence is its head, unrelated to the (pairwise-unrelated) tail. */
  lemma PairwiseTail<T>(s: seq<T>, rel: (T, T) -> bool)
    requires s != [] && Pairwise(s, rel)
    ensures Pairwise(s[1..], rel)
    ensures forall i :: 0 <= i < |s[1..]| ==> !rel(s[0], s[1..][i])
  {
  }

  lemma PairwiseCons<T>(x: T, s: seq<T>, rel: (T, T) -> bool)
    requires Pairwise(s, rel)
    requires forall i :: 0 <= i < |s| ==> !rel(x, s[i])
    ensures Pairwise([x] + s, rel)
  {
    var r := [x] + s;
    forall i, j | 0 <= i < j < |r| ensures !rel(r[i], r[j]) {
      assert r[j] == s[j - 1];
      if i > 0 { assert r[i] == s[i - 1]; }
    }
  }

  /** Filtering keeps every survivor's property. */
  lemma {:induction false} FilterKeepsAllOf<T>(s: seq<T>, keep: T -> bool, p: T -> bool)
    requires All(s, p)
    ensures All(Filter(s, keep), p)
  {
    if s != [] {
      FilterKeepsAllOf(s[1..], keep, p);
    }
  }

  /** Filtering never brings two related elements together. */
  lemma {:induction false} FilterKeepsPairwise<T>(s: seq<T>, keep: T -> bool, rel: (T, T) -> bool)
    requires Pairwise(s, rel)
    ensures Pairwise(Filter(s, keep), rel)
  {
    if s != [] {
      PairwiseTail(s, rel);
      FilterKeepsPairwise(s[1..], keep, rel);
      var rest := Filter(s[1..], keep);
      if keep(s[0]) {
        forall i | 0 <= i < |rest| ensures !rel(s[0], rest[i]) {
          FilterMembership(s[1..], keep, rest[i]);
        }
        PairwiseCons(s[0], rest, rel);
      }
    }
  }
}
