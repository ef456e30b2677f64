/** Sampling without replacement, as `random.sample(population, k)` does it.
    The random choice itself is not modelled: the caller supplies the positions
    that were drawn, and `ValidPicks` says what a draw of `k` positions out of
    `n` looks like (the right count, in range, no position twice). */
module Sampling {

  function Min(a: int, b: int): int {
    if a <= b then a else b
  }

  /** No element occurs twice. */
  predicate Distinct<T(==)>(s: seq<T>) {
    forall i, j :: 0 <= i < j < |s| ==> s[i] != s[j]
  }

  /** `picks` is what `random.sample` may draw when asked for `min(k, n)`
      positions of a population of size `n`. */
  predicate ValidPicks(picks: seq<nat>, n: nat, k: nat) {
    && |picks| == Min(k, n)
    && (forall i :: 0 <= i < |picks| ==> picks[i] < n)
    && Distinct(picks)
  }

  /** The elements of `pop` at the drawn positions, in the order drawn. */
  function Sample<T(==)>(pop: seq<T>, picks: seq<nat>): (r: seq<T>)
    requires forall i :: 0 <= i < |picks| ==> picks[i] < |pop|
    ensures |r| == |picks|
    ensures forall x :: x in r ==> x in pop
    ensures Distinct(pop) && Distinct(picks) ==> Distinct(r)
  {
    seq(|picks|, i requires 0 <= i < |picks| => pop[picks[i]])
  }
}
