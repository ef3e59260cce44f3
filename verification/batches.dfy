/** A loop over a listing, seen from outside: each entry contributes a piece of
    output (`Concat`) or updates a state (`Fold`), one entry after the other in
    listing order. The lemmas here hold whatever the per-entry step is. */
module Batches {

  /** The entries that `keep` accepts, in their original order. */
  function Filter<E>(keep: E -> bool, xs: seq<E>): (r: seq<E>)
    ensures |r| <= |xs|
    ensures forall k :: 0 <= k < |r| ==> keep(r[k]) && r[k] in xs
    ensures forall x :: x in xs && keep(x) ==> x in r
  {
    if xs == [] then []
    else Filter(keep, xs[..|xs| - 1]) + if keep(xs[|xs| - 1]) then [xs[|xs| - 1]] else []
  }

  /** The pieces of all entries, concatenated in order. */
  function Concat<E, T>(step: E -> seq<T>, xs: seq<E>): seq<T> {
    if xs == [] then []
    else Concat(step, xs[..|xs| - 1]) + step(xs[|xs| - 1])
  }

  /** The state after applying `step` to each entry in order. */
  function Fold<S, E>(step: (S, E) -> S, init: S, xs: seq<E>): S {
    if xs == [] then init
    else step(Fold(step, init, xs[..|xs| - 1]), xs[|xs| - 1])
  }

  /** A one-entry listing yields that entry's piece. */
  lemma ConcatOne<E, T>(step: E -> seq<T>, x: E)
    ensures Concat(step, [x]) == step(x)
  {
    assert [x][..0] == [];
  }

  /** A one-entry listing applies the step once. */
  lemma FoldOne<S, E>(step: (S, E) -> S, init: S, x: E)
    ensures Fold(step, init, [x]) == step(init, x)
  {
    assert [x][..0] == [];
  }

  lemma SplitLast<E>(xs: seq<E>, ys: seq<E>)
    requires ys != []
    ensures (xs + ys)[..|xs + ys| - 1] == xs + ys[..|ys| - 1]
    ensures (xs + ys)[|xs + ys| - 1] == ys[|ys| - 1]
  {
  }

  /** The output of `xs + ys` is that of `xs` followed by that of `ys`. */
  lemma {:induction false} ConcatSplit<E, T>(step: E -> seq<T>, xs: seq<E>, ys: seq<E>)
    ensures Concat(step, xs + ys) == Concat(step, xs) + Concat(step, ys)
    decreases |ys|
  {
    if ys == [] {
      assert xs + ys == xs;
    } else {
      SplitLast(xs, ys);
      ConcatSplit(step, xs, ys[..|ys| - 1]);
    }
  }

  /** Folding `xs + ys` is folding `ys` from the state `xs` leaves behind. */
  lemma {:induction false} FoldSplit<S, E>(step: (S, E) -> S, init: S, xs: seq<E>, ys: seq<E>)
    ensures Fold(step, init, xs + ys) == Fold(step, Fold(step, init, xs), ys)
    decreases |ys|
  {
    if ys == [] {
      assert xs + ys == xs;
    } else {
      SplitLast(xs, ys);
      FoldSplit(step, init, xs, ys[..|ys| - 1]);
    }
  }

  /** Entries whose piece is empty can be dropped without changing the output. */
  lemma {:induction false} ConcatFilter<E, T>(step: E -> seq<T>, keep: E -> bool, xs: seq<E>)
    requires forall x :: !keep(x) ==> step(x) == []
    ensures Concat(step, xs) == Concat(step, Filter(keep, xs))
  {
    if xs != [] {
      var pre, last := xs[..|xs| - 1], xs[|xs| - 1];
      ConcatFilter(step, keep, pre);
      var f := Filter(keep, pre);
      if keep(last) {
        assert (f + [last])[..|f|] == f;
      } else {
        assert Filter(keep, xs) == f;
      }
    }
  }

  /** Entries that leave the state alone can be dropped without changing the result. */
  lemma {:induction false} FoldFilter<S, E>(step: (S, E) -> S, keep: E -> bool, init: S, xs: seq<E>)
    requires forall s, x :: !keep(x) ==> step(s, x) == s
    ensures Fold(step, init, xs) == Fold(step, init, Filter(keep, xs))
  {
    if xs != [] {
      var pre, last := xs[..|xs| - 1], xs[|xs| - 1];
      FoldFilter(step, keep, init, pre);
      var f := Filter(keep, pre);
      if keep(last) {
        assert (f + [last])[..|f|] == f;
      } else {
        assert Filter(keep, xs) == f;
      }
    }
  }

  /** Filtering keeps order and multiplicity: it distributes over `+`. */
  lemma {:induction false} FilterAppend<E>(keep: E -> bool, xs: seq<E>, ys: seq<E>)
    ensures Filter(keep, xs + ys) == Filter(keep, xs) + Filter(keep, ys)
    decreases |ys|
  {
    if ys == [] {
      assert xs + ys == xs;
    } else {
      SplitLast(xs, ys);
      FilterAppend(keep, xs, ys[..|ys| - 1]);
    }
  }

  /** A sequence none of whose items is kept filters to nothing. */
  lemma {:induction false} FilterNone<E>(keep: E -> bool, xs: seq<E>)
    requires forall k :: 0 <= k < |xs| ==> !keep(xs[k])
    ensures Filter(keep, xs) == []
  {
    if xs != [] {
      FilterNone(keep, xs[..|xs| - 1]);
    }
  }

  /** The per-entry step that keeps only the marked items of each piece. */
  function Marked<E, T>(mark: T -> bool, step: E -> seq<T>): E -> seq<T> {
    x => Filter(mark, step(x))
  }

  /** The marked items of the whole output are the marked items of each piece, in order. */
  lemma {:induction false} FilterConcat<E, T>(mark: T -> bool, step: E -> seq<T>, xs: seq<E>)
    ensures Filter(mark, Concat(step, xs)) == Concat(Marked(mark, step), xs)
  {
    if xs != [] {
      var pre := xs[..|xs| - 1];
      FilterConcat(mark, step, pre);
      FilterAppend(mark, Concat(step, pre), step(xs[|xs| - 1]));
    }
  }

  /** When every kept entry contributes exactly one item and every other entry
      none, the output holds the kept entries' items, in order. */
  lemma {:induction false} ConcatSingles<E, T>(step: E -> seq<T>, keep: E -> bool, f: E -> T, xs: seq<E>)
    requires forall x :: step(x) == if keep(x) then [f(x)] else []
    ensures |Concat(step, xs)| == |Filter(keep, xs)|
    ensures forall k :: 0 <= k < |Filter(keep, xs)| ==> Concat(step, xs)[k] == f(Filter(keep, xs)[k])
  {
    if xs != [] {
      var pre, last := xs[..|xs| - 1], xs[|xs| - 1];
      ConcatSingles(step, keep, f, pre);
      if keep(last) {
        assert Filter(keep, xs) == Filter(keep, pre) + [last];
      } else {
        assert Filter(keep, xs) == Filter(keep, pre);
        assert Concat(step, xs) == Concat(step, pre) + [];
      }
    }
  }
}
