/** Rearrangements of multiset sums. */
module Multisets {

  lemma SumUnder<T>(a: multiset<T>, x: multiset<T>, y: multiset<T>, z: multiset<T>, w: multiset<T>)
    requires x + y == z + w
    ensures (a + x) + y == (a + z) + w
  {
    assert (a + x) + y == a + (x + y);
    assert (a + z) + w == a + (z + w);
  }

  lemma Cancel<T>(x: multiset<T>, y: multiset<T>, r: multiset<T>)
    requires x + r == y + r
    ensures x == y
  {
    forall e: T
      ensures x[e] == y[e]
    {
      assert (x + r)[e] == (y + r)[e];
    }
  }

  /** `r` moves from the first summand to the second. */
  lemma Move<T>(x: multiset<T>, r: multiset<T>, y: multiset<T>)
    ensures (x + r) + y == x + (r + y)
    ensures (x + y) + r == x + (r + y)
    ensures (x + r) + y == x + (y + r)
  {
  }

  /** A sum of four parts grows by what one of its parts grows. */
  lemma Grow<T>(a: multiset<T>, b: multiset<T>, c: multiset<T>, d: multiset<T>, r: multiset<T>)
    ensures (a + r) + b + c + d == (a + b + c + d) + r
    ensures a + (b + r) + c + d == (a + b + c + d) + r
    ensures a + b + (c + r) + d == (a + b + c + d) + r
    ensures a + b + c + (d + r) == (a + b + c + d) + r
  {
  }
}
