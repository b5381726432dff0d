/** Lists read off another list at ascending positions. */
module Positions {
  predicate Ascending(at: seq<nat>, n: nat) {
    (forall j :: 0 <= j < |at| ==> at[j] < n) && (forall j, k :: 0 <= j < k < |at| ==> at[j] < at[k])
  }

  /** `r` is what `f` makes of the elements of `xs` at the positions `at`, in order. */
  predicate Picks<T, U(==)>(xs: seq<T>, r: seq<U>, at: seq<nat>, f: T -> U) {
    |at| == |r| && Ascending(at, |xs|) && forall j :: 0 <= j < |at| ==> r[j] == f(xs[at[j]])
  }

  function Same<T>(x: T): T {
    x
  }

  lemma PicksNothing<T, U>(f: T -> U)
    ensures Picks([], [], [], f)
  {
  }

  lemma PicksNext<T, U>(xs: seq<T>, n: nat, r: seq<U>, at: seq<nat>, f: T -> U)
    requires n == |xs| - 1 && Picks(xs[..n], r, at, f)
    ensures Picks(xs, r, at, f) && Picks(xs, r + [f(xs[n])], at + [n], f) && n !in at
  {
    forall j | 0 <= j < |at| ensures r[j] == f(xs[at[j]]) { assert xs[..n][at[j]] == xs[at[j]]; }
  }

  /** The positions kept so far, and the next one if it is kept. */
  function Also(at: seq<nat>, n: nat, keep: bool): (r: seq<nat>)
    ensures forall i :: i in r <==> i in at || (keep && i == n)
  {
    if keep then at + [n] else at
  }

  lemma PicksAlso<T, U>(xs: seq<T>, n: nat, r: seq<U>, at: seq<nat>, f: T -> U, keep: bool, r': seq<U>)
    requires n == |xs| - 1 && Picks(xs[..n], r, at, f)
    requires r' == if keep then r + [f(xs[n])] else r
    ensures Picks(xs, r', Also(at, n, keep), f) && n !in at
  {
    PicksNext(xs, n, r, at, f);
  }
}
