/** `Array.prototype.filter` and counting by a predicate, shared by the pages
    that derive views from the lists they hold. */
module Lists {

  /** `xs.filter(keep)`: the kept elements, in their original order. */
  function Filter<T(!new)>(xs: seq<T>, keep: T -> bool): (r: seq<T>)
    ensures |r| <= |xs|
    ensures forall x :: x in r <==> x in xs && keep(x)
    ensures forall i :: 0 <= i < |r| ==> keep(r[i])
  {
    if |xs| == 0 then []
    else
      var rest := Filter(xs[1..], keep);
      assert forall x :: x in xs <==> x == xs[0] || x in xs[1..];
      if keep(xs[0]) then [xs[0]] + rest else rest
  }

  /** Filtering distributes over concatenation, so the kept elements keep
      their relative order. */
  lemma {:induction false} FilterAppend<T(!new)>(a: seq<T>, b: seq<T>, keep: T -> bool)
    ensures Filter(a + b, keep) == Filter(a, keep) + Filter(b, keep)
  {
    if |a| == 0 {
      assert a + b == b;
    } else {
      assert (a + b)[1..] == a[1..] + b;
      FilterAppend(a[1..], b, keep);
    }
  }

  /** When every element is kept the list comes back unchanged. */
  lemma {:induction false} FilterKeepsAll<T(!new)>(xs: seq<T>, keep: T -> bool)
    requires forall i :: 0 <= i < |xs| ==> keep(xs[i])
    ensures Filter(xs, keep) == xs
  {
    if |xs| > 0 {
      FilterKeepsAll(xs[1..], keep);
    }
  }

  /** Filtering by the same test twice is filtering once. */
  lemma {:induction false} FilterIdempotent<T(!new)>(xs: seq<T>, keep: T -> bool)
    ensures Filter(Filter(xs, keep), keep) == Filter(xs, keep)
  {
    FilterKeepsAll(Filter(xs, keep), keep);
  }

  /** Two tests that agree on every element select the same list. */
  lemma {:induction false} FilterSameTest<T(!new)>(xs: seq<T>, p: T -> bool, q: T -> bool)
    requires forall i :: 0 <= i < |xs| ==> p(xs[i]) == q(xs[i])
    ensures Filter(xs, p) == Filter(xs, q)
  {
    if |xs| > 0 {
      FilterSameTest(xs[1..], p, q);
    }
  }

  /** Leaving out one element makes the list shorter. */
  lemma {:induction false} FilterLeavesOut<T(!new)>(xs: seq<T>, keep: T -> bool, i: int)
    requires 0 <= i < |xs| && !keep(xs[i])
    ensures |Filter(xs, keep)| < |xs|
  {
    if i > 0 {
      FilterLeavesOut(xs[1..], keep, i - 1);
    }
  }

  /** `xs.filter(keep).length`. */
  function Count<T(!new)>(xs: seq<T>, keep: T -> bool): nat {
    |Filter(xs, keep)|
  }

  /** Two tests no element passes together count at most the whole list. */
  lemma {:induction false} CountDisjoint<T(!new)>(xs: seq<T>, p: T -> bool, q: T -> bool)
    requires forall i :: 0 <= i < |xs| ==> !(p(xs[i]) && q(xs[i]))
    ensures Count(xs, p) + Count(xs, q) <= |xs|
  {
    if |xs| > 0 {
      CountDisjoint(xs[1..], p, q);
    }
  }
}
