/** The running best of the search scripts and of the parsers' per-shift fallback: a
    strict comparison against a best value that starts at infinity (or minus infinity), so
    the first of several equal optima is kept. */
module Extremum {
  import opened Wrappers

  datatype Objective = Minimize | Maximize

  /** A shift paired with its DTW-norm, as in `results.append((shift, norm))`. */
  datatype Scored = Scored(shift: int, norm: real)

  /** `norm < best_norm` when minimising, `norm > best_norm` when maximising. */
  predicate Better(obj: Objective, a: real, b: real) {
    if obj == Minimize then a < b else a > b
  }

  /** Where the running best ends up after visiting `xs` in order: `None` while
      `best_shift` is still `None`. The first element always replaces the infinite start. */
  function Best(xs: seq<Scored>, obj: Objective): (r: Option<nat>)
    ensures r.Some? ==> r.value < |xs|
  {
    if xs == [] then None
    else
      var b := Best(xs[..|xs| - 1], obj);
      if b.None? || Better(obj, xs[|xs| - 1].norm, xs[b.value].norm) then Some(|xs| - 1) else b
  }

  /** The element the running best holds, if any. */
  function BestOf(xs: seq<Scored>, obj: Objective): (r: Option<Scored>)
    ensures r.None? <==> xs == []
    ensures r.Some? ==> r.value in xs
  {
    BestIsSomeIffNonEmpty(xs, obj);
    match Best(xs, obj)
    case None => None
    case Some(i) => Some(xs[i])
  }

  /** The reference definition: no element is better than the one at `i`, and `i` is
      strictly better than every element before it (so it is the first optimum). */
  predicate IsFirstOptimum(xs: seq<Scored>, obj: Objective, i: nat) {
    && i < |xs|
    && (forall j | 0 <= j < |xs| :: !Better(obj, xs[j].norm, xs[i].norm))
    && (forall j | 0 <= j < i :: Better(obj, xs[i].norm, xs[j].norm))
  }

  lemma {:induction false} BestIsSomeIffNonEmpty(xs: seq<Scored>, obj: Objective)
    ensures Best(xs, obj).None? <==> xs == []
  {
  }

  /** `Better` is a strict order: irreflexive, transitive, and total on distinct values. */
  lemma {:induction false} BetterOrder(obj: Objective, a: real, b: real, c: real)
    ensures !Better(obj, a, a)
    ensures Better(obj, a, b) && Better(obj, b, c) ==> Better(obj, a, c)
    ensures a != b ==> Better(obj, a, b) || Better(obj, b, a)
    ensures Better(obj, a, b) ==> !Better(obj, b, a)
  {
  }

  /** The running best is the first optimum. */
  lemma {:induction false} BestIsFirstOptimum(xs: seq<Scored>, obj: Objective)
    requires xs != []
    ensures Best(xs, obj).Some? && IsFirstOptimum(xs, obj, Best(xs, obj).value)
  {
    var n := |xs| - 1;
    var pre := xs[..n];
    if pre == [] {
      assert Best(xs, obj) == Some(0);
    } else {
      BestIsFirstOptimum(pre, obj);
      var b := Best(pre, obj).value;
      if Better(obj, xs[n].norm, xs[b].norm) {
        forall j | 0 <= j < n ensures Better(obj, xs[n].norm, xs[j].norm) {
          assert xs[j] == pre[j];
          if j != b {
            assert !Better(obj, pre[j].norm, pre[b].norm);
          }
        }
      } else {
        forall j | 0 <= j < |xs| ensures !Better(obj, xs[j].norm, xs[b].norm) {
          if j < n {
            assert xs[j] == pre[j];
          }
        }
        forall j | 0 <= j < b ensures Better(obj, xs[b].norm, xs[j].norm) {
          assert xs[j] == pre[j];
        }
      }
    }
  }

  /** There is only one first optimum, so the reference definition pins `Best` down. */
  lemma {:induction false} FirstOptimumUnique(xs: seq<Scored>, obj: Objective, i: nat, k: nat)
    requires IsFirstOptimum(xs, obj, i) && IsFirstOptimum(xs, obj, k)
    ensures i == k
  {
    assert !Better(obj, xs[k].norm, xs[i].norm);
    assert !Better(obj, xs[i].norm, xs[k].norm);
  }

  /** `Best` returns an index exactly when it is the first optimum. */
  lemma {:induction false} BestIff(xs: seq<Scored>, obj: Objective, i: nat)
    ensures Best(xs, obj) == Some(i) <==> IsFirstOptimum(xs, obj, i)
  {
    if xs != [] {
      BestIsFirstOptimum(xs, obj);
      if IsFirstOptimum(xs, obj, i) {
        FirstOptimumUnique(xs, obj, i, Best(xs, obj).value);
      }
    }
  }

  /** Ties go to the earliest: an element equal in norm to the best comes no earlier. */
  lemma {:induction false} BestTiesGoFirst(xs: seq<Scored>, obj: Objective, j: nat)
    requires j < |xs| && Best(xs, obj).Some? && xs[j].norm == xs[Best(xs, obj).value].norm
    ensures Best(xs, obj).value <= j
  {
    BestIsFirstOptimum(xs, obj);
  }

  /** The best over a sequence extended by one element: the definition's own step, stated
      for the loops that build the sequence front to back. */
  lemma {:induction false} BestSnoc(xs: seq<Scored>, x: Scored, obj: Objective)
    ensures Best(xs + [x], obj) ==
      var b := Best(xs, obj);
      if b.None? || Better(obj, x.norm, xs[b.value].norm) then Some(|xs|) else b
  {
    assert (xs + [x])[..|xs|] == xs;
  }

  /** The same step for the element the best holds. */
  lemma {:induction false} BestOfSnoc(xs: seq<Scored>, x: Scored, obj: Objective)
    ensures BestOf(xs + [x], obj) ==
      var b := BestOf(xs, obj);
      if b.None? || Better(obj, x.norm, b.value.norm) then Some(x) else b
  {
    BestSnoc(xs, x, obj);
    var b := Best(xs, obj);
    if b.Some? {
      assert (xs + [x])[b.value] == xs[b.value];
    }
  }
}
