/** Sizes of sets of integers: what counting ticks or list positions comes down to. */
module Ranges {
  /** The integers [from, from + n). */
  ghost function Range(from: int, n: nat): (r: set<int>)
    ensures forall x :: x in r <==> from <= x < from + n
    ensures |r| == n
  {
    if n == 0 then {} else Range(from, n - 1) + {from + n - 1}
  }

  lemma {:induction false} SubsetSize<T>(a: set<T>, b: set<T>)
    requires a <= b
    ensures |a| <= |b|
  {
    assert b == a + (b - a);
  }

  lemma Single<T>(s: set<T>, x: T)
    requires x in s && forall y :: y in s ==> y == x
    ensures s == {x} && |s| == 1
  {
  }
}
