/** Sequence helpers standing in for Python list comprehensions. */
module Lists {

  /** The elements of `xs` that `keep` accepts, in their order. */
  function Filter<T>(xs: seq<T>, keep: T -> bool): (r: seq<T>)
    ensures |r| <= |xs|
    decreases |xs|
  {
    if xs == [] then []
    else
      var n := |xs| - 1;
      Filter(xs[..n], keep) + (if keep(xs[n]) then [xs[n]] else [])
  }

  /** `Filter` keeps exactly the accepted elements. */
  lemma {:induction false} FilterMembers<T>(xs: seq<T>, keep: T -> bool)
    ensures forall x :: x in Filter(xs, keep) <==> x in xs && keep(x)
    decreases |xs|
  {
    if xs != [] {
      var n := |xs| - 1;
      FilterMembers(xs[..n], keep);
      assert xs == xs[..n] + [xs[n]];
    }
  }

  /** `f` of each element of `xs` that `keep` accepts, in order: a list comprehension with a condition. */
  function Select<T, U>(xs: seq<T>, keep: T -> bool, f: T -> U): seq<U>
    decreases |xs|
  {
    if xs == [] then []
    else
      var n := |xs| - 1;
      Select(xs[..n], keep, f) + (if keep(xs[n]) then [f(xs[n])] else [])
  }

  lemma {:induction false} SelectMembers<T, U>(xs: seq<T>, keep: T -> bool, f: T -> U, v: U)
    ensures v in Select(xs, keep, f) <==> exists k | 0 <= k < |xs| :: keep(xs[k]) && f(xs[k]) == v
    decreases |xs|
  {
    if xs != [] {
      var n := |xs| - 1;
      SelectMembers(xs[..n], keep, f, v);
      if exists k | 0 <= k < |xs| :: keep(xs[k]) && f(xs[k]) == v {
        var k :| 0 <= k < |xs| && keep(xs[k]) && f(xs[k]) == v;
        if k < n {
          assert xs[..n][k] == xs[k];
        }
      }
      if exists k | 0 <= k < n :: keep(xs[..n][k]) && f(xs[..n][k]) == v {
        var k :| 0 <= k < n && keep(xs[..n][k]) && f(xs[..n][k]) == v;
        assert xs[k] == xs[..n][k];
      }
    }
  }
}
