/** Generic sequence operations that mirror `Array.prototype.filter` and counting with a predicate. */
module Seqs {

  /** `xs.filter(p)`: the elements satisfying `p`, in their original order. */
  function Filter<T>(xs: seq<T>, p: T -> bool): (r: seq<T>)
    ensures |r| <= |xs|
    decreases |xs|
  {
    if xs == [] then []
    else Filter(xs[..|xs| - 1], p) + (if p(xs[|xs| - 1]) then [xs[|xs| - 1]] else [])
  }

  /** `xs.filter(p).length`. */
  function Count<T>(xs: seq<T>, p: T -> bool): nat
  {
    |Filter(xs, p)|
  }

  lemma {:induction false} FilterAppend<T>(xs: seq<T>, x: T, p: T -> bool)
    ensures Filter(xs + [x], p) == Filter(xs, p) + (if p(x) then [x] else [])
  {
    assert (xs + [x])[..|xs|] == xs;
  }

  /** Filtering with a predicate every element satisfies keeps the list. */
  lemma {:induction false} FilterAll<T>(xs: seq<T>, p: T -> bool)
    requires forall i :: 0 <= i < |xs| ==> p(xs[i])
    ensures Filter(xs, p) == xs
    decreases |xs|
  {
    if xs != [] {
      FilterAll(xs[..|xs| - 1], p);
    }
  }

  /** Filtering with a predicate no element satisfies gives the empty list. */
  lemma {:induction false} FilterNone<T>(xs: seq<T>, p: T -> bool)
    requires forall i :: 0 <= i < |xs| ==> !p(xs[i])
    ensures Filter(xs, p) == []
    decreases |xs|
  {
    if xs != [] {
      FilterNone(xs[..|xs| - 1], p);
    }
  }

  /** When the first `k` elements fail `p` and the rest pass, filtering keeps the rest. */
  lemma {:induction false} FilterDropsPrefix<T>(xs: seq<T>, k: nat, p: T -> bool)
    requires k <= |xs|
    requires forall i :: 0 <= i < k ==> !p(xs[i])
    requires forall i :: k <= i < |xs| ==> p(xs[i])
    ensures Filter(xs, p) == xs[k..]
    decreases |xs|
  {
    if |xs| == k {
      FilterNone(xs, p);
    } else {
      var init, last := xs[..|xs| - 1], xs[|xs| - 1];
      assert forall i :: 0 <= i < |init| ==> init[i] == xs[i];
      FilterDropsPrefix(init, k, p);
      assert xs[k..] == init[k..] + [last];
    }
  }

  lemma {:induction false} FilterConcat<T>(xs: seq<T>, ys: seq<T>, p: T -> bool)
    ensures Filter(xs + ys, p) == Filter(xs, p) + Filter(ys, p)
    decreases |ys|
  {
    if ys == [] {
      assert xs + ys == xs;
    } else {
      var init := ys[..|ys| - 1];
      var last := ys[|ys| - 1];
      calc {
        Filter(xs + ys, p);
        { assert xs + ys == (xs + init) + [last]; }
        Filter((xs + init) + [last], p);
        { FilterAppend(xs + init, last, p); }
        Filter(xs + init, p) + (if p(last) then [last] else []);
        { FilterConcat(xs, init, p); }
        Filter(xs, p) + Filter(init, p) + (if p(last) then [last] else []);
        { assert ys == init + [last]; FilterAppend(init, last, p); }
        Filter(xs, p) + Filter(ys, p);
      }
    }
  }

  /** An element is kept by `Filter` exactly when it occurs in the input and satisfies `p`. */
  lemma {:induction false} FilterMembership<T>(xs: seq<T>, p: T -> bool, y: T)
    ensures y in Filter(xs, p) <==> y in xs && p(y)
    decreases |xs|
  {
    if xs != [] {
      var init := xs[..|xs| - 1];
      assert xs == init + [xs[|xs| - 1]];
      FilterMembership(init, p, y);
    }
  }

  /** Filtering with `p` and with its negation splits the input: nothing is lost or duplicated. */
  lemma {:induction false} FilterPartition<T>(xs: seq<T>, p: T -> bool, q: T -> bool)
    requires forall x :: q(x) == !p(x)
    ensures |Filter(xs, p)| + |Filter(xs, q)| == |xs|
    ensures multiset(Filter(xs, p)) + multiset(Filter(xs, q)) == multiset(xs)
    decreases |xs|
  {
    if xs != [] {
      var init := xs[..|xs| - 1];
      assert xs == init + [xs[|xs| - 1]];
      FilterPartition(init, p, q);
    }
  }

  /** Filtering by a stronger predicate after a weaker one is the same as filtering by the
      stronger one alone: a stricter filter keeps a subsequence of what a looser one keeps. */
  lemma {:induction false} FilterStronger<T>(xs: seq<T>, p: T -> bool, q: T -> bool)
    requires forall x :: q(x) ==> p(x)
    ensures Filter(Filter(xs, p), q) == Filter(xs, q)
    decreases |xs|
  {
    if xs != [] {
      var init := xs[..|xs| - 1];
      var last := xs[|xs| - 1];
      FilterStronger(init, p, q);
      var tail := if p(last) then [last] else [];
      FilterConcat(Filter(init, p), tail, q);
      if p(last) {
        assert tail == [] + [last];
        FilterAppend([], last, q);
      }
    }
  }

  /** `sub` is obtained from `xs` by deleting elements, keeping the order of the rest. */
  ghost predicate IsSubsequence<T>(sub: seq<T>, xs: seq<T>)
  {
    exists idx: seq<nat> ::
      && |idx| == |sub|
      && (forall k :: 0 <= k < |idx| ==> idx[k] < |xs| && sub[k] == xs[idx[k]])
      && (forall k, l :: 0 <= k < l < |idx| ==> idx[k] < idx[l])
  }

  /** `Filter` yields an order-preserving subsequence of its input. */
  lemma {:induction false} FilterIsSubsequence<T>(xs: seq<T>, p: T -> bool)
    ensures IsSubsequence(Filter(xs, p), xs)
    decreases |xs|
  {
    if xs == [] {
      var idx: seq<nat> := [];
      assert |idx| == |Filter(xs, p)|;
    } else {
      var init, last := xs[..|xs| - 1], xs[|xs| - 1];
      assert xs == init + [last];
      FilterIsSubsequence(init, p);
      SubsequenceSnoc(Filter(init, p), init, last);
    }
  }

  /** A subsequence stays one when an element is appended to the sequence, whether or not it
      is appended to the subsequence too. */
  lemma SubsequenceSnoc<T>(sub: seq<T>, xs: seq<T>, x: T)
    requires IsSubsequence(sub, xs)
    ensures IsSubsequence(sub, xs + [x]) && IsSubsequence(sub + [x], xs + [x])
  {
    var idx: seq<nat> :|
      && |idx| == |sub|
      && (forall k :: 0 <= k < |idx| ==> idx[k] < |xs| && sub[k] == xs[idx[k]])
      && (forall k, l :: 0 <= k < l < |idx| ==> idx[k] < idx[l]);
    var ys := xs + [x];
    assert forall k :: 0 <= k < |idx| ==> idx[k] < |ys| && sub[k] == ys[idx[k]];
    var idx' := idx + [|xs|];
    var sub' := sub + [x];
    assert forall k :: 0 <= k < |idx'| ==> idx'[k] < |ys| && sub'[k] == ys[idx'[k]];
    assert forall k, l :: 0 <= k < l < |idx'| ==> idx'[k] < idx'[l];
  }
}
