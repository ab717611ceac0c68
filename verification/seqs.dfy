/** `Array.prototype.filter` over sequences, with an index-level description
    of what it keeps: the derived lists of the pages are all stable filters. */
module Seqs {

  /** The elements of `xs` satisfying `keep`, in their original order. */
  function Filter<T>(xs: seq<T>, keep: T -> bool): (r: seq<T>)
    ensures |r| <= |xs|
    ensures forall k :: 0 <= k < |r| ==> keep(r[k]) && r[k] in xs
    ensures forall i :: 0 <= i < |xs| && keep(xs[i]) ==> xs[i] in r
  {
    if xs == [] then []
    else
      var init := Filter(xs[..|xs| - 1], keep);
      var last := xs[|xs| - 1];
      assert forall k :: 0 <= k < |init| ==> init[k] in xs[..|xs| - 1];
      assert forall i :: 0 <= i < |xs| - 1 ==> xs[i] == xs[..|xs| - 1][i];
      if keep(last) then init + [last] else init
  }

  /** Indices of the elements satisfying `keep`, ascending. */
  function Positions<T>(xs: seq<T>, keep: T -> bool): (idx: seq<nat>)
    ensures forall k :: 0 <= k < |idx| ==> idx[k] < |xs|
  {
    if xs == [] then []
    else Positions(xs[..|xs| - 1], keep) + (if keep(xs[|xs| - 1]) then [|xs| - 1] else [])
  }

  /** `idx` lists, strictly ascending, exactly the positions of `xs` whose
      element satisfies `keep`, and `r` is the sequence of those elements. */
  ghost predicate Selects<T>(r: seq<T>, xs: seq<T>, keep: T -> bool, idx: seq<nat>) {
    && |idx| == |r|
    && (forall k :: 0 <= k < |idx| ==> idx[k] < |xs| && r[k] == xs[idx[k]])
    && (forall k, l :: 0 <= k < l < |idx| ==> idx[k] < idx[l])
    && (forall i :: 0 <= i < |xs| ==> (keep(xs[i]) <==> i in idx))
  }

  lemma {:induction false} PositionsAscending<T>(xs: seq<T>, keep: T -> bool)
    ensures forall k, l :: 0 <= k < l < |Positions(xs, keep)| ==> Positions(xs, keep)[k] < Positions(xs, keep)[l]
  {
    if xs != [] {
      PositionsAscending(xs[..|xs| - 1], keep);
    }
  }

  lemma {:induction false} PositionsExact<T>(xs: seq<T>, keep: T -> bool)
    ensures forall i :: 0 <= i < |xs| ==> (keep(xs[i]) <==> i in Positions(xs, keep))
  {
    if xs != [] {
      var n := |xs| - 1;
      var init := xs[..n];
      PositionsExact(init, keep);
      var idx0 := Positions(init, keep);
      assert n !in idx0;
      forall i | 0 <= i < |xs|
        ensures keep(xs[i]) <==> i in Positions(xs, keep)
      {
        if i < n {
          assert init[i] == xs[i];
        }
      }
    }
  }

  lemma {:induction false} FilterAtPositions<T>(xs: seq<T>, keep: T -> bool)
    ensures |Filter(xs, keep)| == |Positions(xs, keep)|
    ensures forall k :: 0 <= k < |Filter(xs, keep)| ==> Filter(xs, keep)[k] == xs[Positions(xs, keep)[k]]
  {
    if xs != [] {
      var n := |xs| - 1;
      var init := xs[..n];
      FilterAtPositions(init, keep);
      var r0, idx0 := Filter(init, keep), Positions(init, keep);
      var r, idx := Filter(xs, keep), Positions(xs, keep);
      forall k | 0 <= k < |r|
        ensures r[k] == xs[idx[k]]
      {
        if k < |r0| {
          assert r[k] == r0[k] && idx[k] == idx0[k];
          assert init[idx0[k]] == xs[idx0[k]];
        }
      }
    }
  }

  /** The filter result is precisely the order-preserving selection of the
      elements that satisfy the predicate. */
  lemma FilterSelects<T>(xs: seq<T>, keep: T -> bool)
    ensures Selects(Filter(xs, keep), xs, keep, Positions(xs, keep))
  {
    PositionsAscending(xs, keep);
    PositionsExact(xs, keep);
    FilterAtPositions(xs, keep);
  }

  /** Filtering one more element appends it exactly when it is kept. */
  lemma FilterSnoc<T>(xs: seq<T>, x: T, keep: T -> bool)
    ensures Filter(xs + [x], keep) == Filter(xs, keep) + (if keep(x) then [x] else [])
  {
    assert (xs + [x])[..|xs|] == xs;
  }

  /** Filtering a sequence with one more element in front prepends that
      element exactly when it passes. */
  lemma {:induction false} FilterCons<T>(x: T, xs: seq<T>, keep: T -> bool)
    ensures Filter([x] + xs, keep) == (if keep(x) then [x] else []) + Filter(xs, keep)
    decreases |xs|
  {
    if xs == [] {
      FilterSnoc([], x, keep);
      assert [] + [x] == [x] + xs;
    } else {
      var ys, y := xs[..|xs| - 1], xs[|xs| - 1];
      assert xs == ys + [y];
      assert [x] + xs == ([x] + ys) + [y];
      FilterSnoc([x] + ys, y, keep);
      FilterCons(x, ys, keep);
      FilterSnoc(ys, y, keep);
    }
  }

  /** Filtering an already filtered sequence changes nothing. */
  lemma {:induction false} FilterIdempotent<T>(xs: seq<T>, keep: T -> bool)
    ensures Filter(Filter(xs, keep), keep) == Filter(xs, keep)
  {
    if xs != [] {
      var init := xs[..|xs| - 1];
      FilterIdempotent(init, keep);
      var r := Filter(init, keep);
      if keep(xs[|xs| - 1]) {
        assert (r + [xs[|xs| - 1]])[..|r|] == r;
      }
    }
  }

  /** A predicate that holds of every element keeps the whole sequence. */
  lemma {:induction false} FilterKeepsAll<T>(xs: seq<T>, keep: T -> bool)
    requires forall i :: 0 <= i < |xs| ==> keep(xs[i])
    ensures Filter(xs, keep) == xs
  {
    if xs != [] {
      FilterKeepsAll(xs[..|xs| - 1], keep);
      assert xs[..|xs| - 1] + [xs[|xs| - 1]] == xs;
    }
  }

  /** Distinct elements: no value occurs twice. */
  predicate Distinct<T(==)>(xs: seq<T>) {
    forall i, j :: 0 <= i < j < |xs| ==> xs[i] != xs[j]
  }

  /** The test "is equal to `x`". */
  function Equals<T(==)>(x: T): T -> bool
  {
    y => y == x
  }

  /** In a list of distinct elements, at most one equals a given value, and one
      does exactly when the value occurs. */
  lemma {:induction false} DistinctMatchesOnce<T>(xs: seq<T>, x: T)
    requires Distinct(xs)
    ensures |Filter(xs, Equals(x))| == if x in xs then 1 else 0
  {
    if xs != [] {
      var init := xs[..|xs| - 1];
      assert Distinct(init);
      DistinctMatchesOnce(init, x);
      assert xs == init + [xs[|xs| - 1]];
      if xs[|xs| - 1] == x {
        assert x !in init;
      }
    }
  }
}
