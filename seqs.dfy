/**
  `Array.prototype.filter` on sequences, with the facts the application relies
  on: the result is the order-preserving subsequence of exactly the elements
  that satisfy the predicate.
 */
module Seqs {

  function Filter<T>(s: seq<T>, p: T -> bool): (r: seq<T>)
    ensures |r| <= |s|
    ensures forall k :: 0 <= k < |r| ==> p(r[k])
  {
    if s == [] then [] else (if p(s[0]) then [s[0]] else []) + Filter(s[1..], p)
  }

  ghost predicate Increasing(idx: seq<nat>)
  {
    forall a, b :: 0 <= a < b < |idx| ==> idx[a] < idx[b]
  }

  function Shift(idx: seq<nat>): (r: seq<nat>)
    ensures |r| == |idx|
    ensures forall k :: 0 <= k < |idx| ==> r[k] == idx[k] + 1
  {
    seq(|idx|, k requires 0 <= k < |idx| => idx[k] + 1)
  }

  /** The positions of `s` whose elements `Filter` keeps, in increasing order. */
  function FilterIndices<T>(s: seq<T>, p: T -> bool): (idx: seq<nat>)
    ensures |idx| == |Filter(s, p)|
    ensures forall k :: 0 <= k < |idx| ==> idx[k] < |s|
  {
    if s == [] then [] else (if p(s[0]) then [0] else []) + Shift(FilterIndices(s[1..], p))
  }

  /** The k-th kept element is the element at the k-th kept position. */
  lemma {:induction false} FilterAt<T>(s: seq<T>, p: T -> bool, k: nat)
    requires k < |Filter(s, p)|
    ensures Filter(s, p)[k] == s[FilterIndices(s, p)[k]]
  {
    if p(s[0]) && k == 0 {
    } else {
      var h := if p(s[0]) then 1 else 0;
      FilterAt(s[1..], p, k - h);
      assert Filter(s, p)[k] == Filter(s[1..], p)[k - h];
      assert FilterIndices(s, p)[k] == FilterIndices(s[1..], p)[k - h] + 1;
    }
  }

  /** Kept positions increase, so the kept elements are in input order. */
  lemma {:induction false} FilterIndicesIncreasing<T>(s: seq<T>, p: T -> bool)
    ensures Increasing(FilterIndices(s, p))
  {
    if s != [] {
      FilterIndicesIncreasing(s[1..], p);
      var h: seq<nat> := if p(s[0]) then [0] else [];
      var rest := Shift(FilterIndices(s[1..], p));
      assert FilterIndices(s, p) == h + rest;
      assert forall k :: 0 <= k < |rest| ==> rest[k] > 0;
    }
  }

  lemma ShiftMembership(idx: seq<nat>, i: nat)
    ensures i in Shift(idx) <==> i > 0 && i - 1 in idx
  {
  }

  /** A position is kept exactly when its element satisfies `p`. */
  lemma {:induction false} FilterIndicesExact<T>(s: seq<T>, p: T -> bool, i: nat)
    requires i < |s|
    ensures i in FilterIndices(s, p) <==> p(s[i])
  {
    var h: seq<nat> := if p(s[0]) then [0] else [];
    var rest := Shift(FilterIndices(s[1..], p));
    assert FilterIndices(s, p) == h + rest;
    assert i in h + rest <==> i in h || i in rest;
    ShiftMembership(FilterIndices(s[1..], p), i);
    if i > 0 {
      FilterIndicesExact(s[1..], p, i - 1);
    }
  }

  /**
    `Filter` keeps an order-preserving subsequence: the k-th kept element is
    the element at the k-th kept position, positions increase, and a position
    is kept exactly when its element satisfies `p`.
   */
  lemma FilterPositions<T>(s: seq<T>, p: T -> bool)
    ensures Increasing(FilterIndices(s, p))
    ensures forall k :: 0 <= k < |Filter(s, p)| ==> Filter(s, p)[k] == s[FilterIndices(s, p)[k]]
    ensures forall i :: 0 <= i < |s| ==> (i in FilterIndices(s, p) <==> p(s[i]))
  {
    FilterIndicesIncreasing(s, p);
    forall k | 0 <= k < |Filter(s, p)| ensures Filter(s, p)[k] == s[FilterIndices(s, p)[k]] {
      FilterAt(s, p, k);
    }
    forall i | 0 <= i < |s| ensures i in FilterIndices(s, p) <==> p(s[i]) {
      FilterIndicesExact(s, p, i);
    }
  }

  /** An element is kept exactly when it occurs in `s` and satisfies `p`. */
  lemma {:induction false} FilterMembership<T>(s: seq<T>, p: T -> bool, x: T)
    ensures x in Filter(s, p) <==> x in s && p(x)
  {
    if s != [] {
      FilterMembership(s[1..], p, x);
      assert s == [s[0]] + s[1..];
    }
  }

  /** When every element satisfies `p`, filtering changes nothing. */
  lemma {:induction false} FilterKeepsAll<T>(s: seq<T>, p: T -> bool)
    requires forall k :: 0 <= k < |s| ==> p(s[k])
    ensures Filter(s, p) == s
  {
    if s != [] {
      FilterKeepsAll(s[1..], p);
    }
  }
}
