/** The elements of a sequence that pass a test, in their order. */
module Filters {
  function Filter<T>(xs: seq<T>, keep: T -> bool): (kept: seq<T>)
    ensures |kept| <= |xs|
  {
    if xs == [] then []
    else
      var last := xs[|xs| - 1];
      Filter(xs[..|xs| - 1], keep) + if keep(last) then [last] else []
  }

  lemma {:induction false} FilterAppend<T>(xs: seq<T>, ys: seq<T>, keep: T -> bool)
    ensures Filter(xs + ys, keep) == Filter(xs, keep) + Filter(ys, keep)
    decreases ys
  {
    if ys == [] {
      assert xs + ys == xs;
    } else {
      var last := |ys| - 1;
      FilterAppend(xs, ys[..last], keep);
      assert (xs + ys)[..|xs| + last] == xs + ys[..last];
    }
  }

  // From the other end.
  lemma FilterHead<T>(xs: seq<T>, keep: T -> bool)
    requires xs != []
    ensures Filter(xs, keep) == (if keep(xs[0]) then [xs[0]] else []) + Filter(xs[1..], keep)
  {
    assert xs == [xs[0]] + xs[1..];
    FilterAppend([xs[0]], xs[1..], keep);
    FilterOne(xs[0], keep);
  }

  lemma FilterOne<T>(x: T, keep: T -> bool)
    ensures Filter([x], keep) == if keep(x) then [x] else []
  {
    assert [x][..0] == [];
  }

  // What is kept comes from increasing positions, and a position is among them exactly if it passes.
  ghost predicate Positions<T>(xs: seq<T>, keep: T -> bool, at: seq<nat>) {
    && (forall i, j :: 0 <= i < j < |at| ==> at[i] < at[j])
    && forall p: nat :: p in at <==> p < |xs| && keep(xs[p])
  }

  /** The kept elements are those at the passing positions, in increasing order, each once. */
  lemma {:induction false} FilterPositions<T>(xs: seq<T>, keep: T -> bool) returns (at: seq<nat>)
    ensures Positions(xs, keep, at)
    ensures |at| == |Filter(xs, keep)| && forall i :: 0 <= i < |at| ==> at[i] < |xs| && Filter(xs, keep)[i] == xs[at[i]]
    decreases xs
  {
    if xs == [] {
      at := [];
    } else {
      var last := |xs| - 1;
      var before := FilterPositions(xs[..last], keep);
      forall i | 0 <= i < |before| ensures before[i] < last { assert before[i] in before; }
      at := before + if keep(xs[last]) then [last] else [];
      forall p: nat ensures p in at <==> p < |xs| && keep(xs[p]) {
        assert p in at <==> p in before || (p == last && keep(xs[last]));
      }
    }
  }
}
