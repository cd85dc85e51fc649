/** pandas' `fillna(method='bfill')` on one column: every missing entry
    takes the nearest present entry below it; entries with nothing present
    below them stay missing. The fill runs over the whole column, with no
    notion of engine boundaries. */
module Backfill {
  import opened Wrappers

  function Bfill<T>(xs: seq<Option<T>>): (r: seq<Option<T>>)
    ensures |r| == |xs|
    ensures forall i :: 0 <= i < |xs| && xs[i].Some? ==> r[i] == xs[i]
    ensures forall i {:trigger xs[i]} :: 0 <= i < |xs| - 1 && xs[i].None? ==> r[i] == r[i + 1]
    ensures |xs| > 0 && xs[|xs| - 1].None? ==> r[|xs| - 1].None?
  {
    if |xs| == 0 then []
    else
      var rest := Bfill(xs[1..]);
      if xs[0].Some? then [xs[0]] + rest
      else [if |rest| == 0 then None else rest[0]] + rest
  }

  /** `j` is the first index at or after `i` holding a value. */
  ghost predicate NearestDefined<T>(xs: seq<Option<T>>, i: nat, j: nat)
  {
    && i <= j < |xs|
    && xs[j].Some?
    && forall m :: i <= m < j ==> xs[m].None?
  }

  /** A missing entry receives the nearest present value below it. */
  lemma {:induction false} BfillTakesNearest<T>(xs: seq<Option<T>>, i: nat, j: nat)
    requires NearestDefined(xs, i, j)
    ensures Bfill(xs)[i] == xs[j]
    decreases j - i
  {
    if i < j {
      BfillTakesNearest(xs, i + 1, j);
    }
  }

  /** An entry with nothing present at or below it stays missing. */
  lemma {:induction false} BfillMissingAtTail<T>(xs: seq<Option<T>>, i: nat)
    requires i < |xs|
    requires forall m :: i <= m < |xs| ==> xs[m].None?
    ensures Bfill(xs)[i].None?
    decreases |xs| - i
  {
    if i < |xs| - 1 {
      BfillMissingAtTail(xs, i + 1);
    }
  }

  /** Conversely, an entry left missing has nothing present at or below
      it; with `BfillMissingAtTail`, the fill leaves exactly the tail of
      missing entries missing. */
  lemma {:induction false} BfillMissingOnlyAtTail<T>(xs: seq<Option<T>>, i: nat, m: nat)
    requires i <= m < |xs|
    requires Bfill(xs)[i].None?
    ensures xs[m].None?
    decreases m - i
  {
    if i < m {
      BfillMissingOnlyAtTail(xs, i + 1, m);
    }
  }
}
