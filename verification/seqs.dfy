/** Small facts about sequences used as ordered sets and as arrays of
    possibly-undefined entries. */
module Seqs {
  import opened Wrappers

  /** A JavaScript `Set` seen through `Array.from`: insertion-ordered, no repeats. */
  predicate NoDuplicates<T(==)>(xs: seq<T>) {
    forall i, j :: 0 <= i < j < |xs| ==> xs[i] != xs[j]
  }

  /** `Set.prototype.delete` on an insertion-ordered set. */
  function Remove<T(==)>(xs: seq<T>, x: T): (r: seq<T>)
    ensures forall y :: y in r ==> y in xs && y != x
    ensures forall y :: y in xs && y != x ==> y in r
    ensures NoDuplicates(xs) ==> NoDuplicates(r)
    ensures x !in xs ==> r == xs
    ensures |r| <= |xs|
  {
    if xs == [] then []
    else if xs[0] == x then Remove(xs[1..], x)
    else
      var rest := Remove(xs[1..], x);
      assert NoDuplicates(xs) ==> NoDuplicates(xs[1..]) && xs[0] !in xs[1..];
      [xs[0]] + rest
  }

  /** Deleting keeps the order of what remains: removing from a
      concatenation is removing from each part. With `Remove([y], x)` being
      `[]` when `y == x` and `[y]` otherwise, this pins `Remove` down as the
      order-preserving filter. */
  lemma {:induction false} RemoveAppend<T>(xs: seq<T>, ys: seq<T>, x: T)
    ensures Remove(xs + ys, x) == Remove(xs, x) + Remove(ys, x)
  {
    if xs == [] {
      assert xs + ys == ys;
    } else {
      assert (xs + ys)[0] == xs[0];
      assert (xs + ys)[1..] == xs[1..] + ys;
      RemoveAppend(xs[1..], ys, x);
      if xs[0] != x {
        assert [xs[0]] + Remove(xs[1..], x) + Remove(ys, x) == [xs[0]] + (Remove(xs[1..], x) + Remove(ys, x));
      }
    }
  }

  /** All entries defined, or None as soon as one is `undefined`. */
  function AllDefined<T>(xs: seq<Option<T>>): (r: Option<seq<T>>)
    ensures r.Some? <==> forall i :: 0 <= i < |xs| ==> xs[i].Some?
    ensures r.Some? ==> |r.value| == |xs| && forall i :: 0 <= i < |xs| ==> xs[i] == Some(r.value[i])
  {
    if xs == [] then Some([])
    else match (xs[0], AllDefined(xs[1..]))
      case (Some(x), Some(rest)) => Some([x] + rest)
      case _ => None
  }
}
