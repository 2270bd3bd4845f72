/**
  Both reference selectors sort their candidates with Python's stable
  `sorted` and take the head of the result. For a total preorder
  `atLeastAsGood` that head is the EARLIEST element (in list order) that is
  at least as good as every element. This module defines that element once.
*/
module Picking {

  /** `atLeastAsGood` is total and transitive on the elements of `xs`. */
  ghost predicate TotalPreorderOn<T>(xs: seq<T>, atLeastAsGood: (T, T) -> bool) {
    && (forall i, j | 0 <= i < |xs| && 0 <= j < |xs| ::
          atLeastAsGood(xs[i], xs[j]) || atLeastAsGood(xs[j], xs[i]))
    && (forall i, j, k | 0 <= i < |xs| && 0 <= j < |xs| && 0 <= k < |xs| ::
          atLeastAsGood(xs[i], xs[j]) && atLeastAsGood(xs[j], xs[k]) ==> atLeastAsGood(xs[i], xs[k]))
  }

  /**
    Index `b` is what a stable sort puts first among the first `n` elements:
    it beats or ties every one of them, and every element before it is
    strictly worse.
  */
  ghost predicate IsFirstBestAmong<T>(xs: seq<T>, atLeastAsGood: (T, T) -> bool, n: nat, b: nat) {
    && b < n <= |xs|
    && (forall j | 0 <= j < n :: atLeastAsGood(xs[b], xs[j]))
    && (forall j | 0 <= j < b :: !atLeastAsGood(xs[j], xs[b]))
  }

  ghost predicate IsFirstBest<T>(xs: seq<T>, atLeastAsGood: (T, T) -> bool, b: nat) {
    IsFirstBestAmong(xs, atLeastAsGood, |xs|, b)
  }

  /** The head of a stable sort of `xs[..n]` by `atLeastAsGood`. */
  function FirstBestAmong<T>(xs: seq<T>, atLeastAsGood: (T, T) -> bool, n: nat): (b: nat)
    requires 0 < n <= |xs|
    requires TotalPreorderOn(xs, atLeastAsGood)
    ensures IsFirstBestAmong(xs, atLeastAsGood, n, b)
  {
    if n == 1 then 0
    else
      var b := FirstBestAmong(xs, atLeastAsGood, n - 1);
      if atLeastAsGood(xs[b], xs[n - 1]) then b else n - 1
  }

  function FirstBest<T>(xs: seq<T>, atLeastAsGood: (T, T) -> bool): (b: nat)
    requires |xs| > 0
    requires TotalPreorderOn(xs, atLeastAsGood)
    ensures IsFirstBest(xs, atLeastAsGood, b)
  {
    FirstBestAmong(xs, atLeastAsGood, |xs|)
  }

  /** There is only one such index, so "the first best" is well defined. */
  lemma FirstBestUnique<T>(xs: seq<T>, atLeastAsGood: (T, T) -> bool, b1: nat, b2: nat)
    requires IsFirstBest(xs, atLeastAsGood, b1)
    requires IsFirstBest(xs, atLeastAsGood, b2)
    ensures b1 == b2
  {
    assert atLeastAsGood(xs[b1], xs[b2]) && atLeastAsGood(xs[b2], xs[b1]);
  }
}
