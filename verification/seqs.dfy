/** The array operations the application uses on its lists: `filter`,
    `slice(-n)` and `reverse`. */
module Seqs {

  /** `xs.filter(keep)`: the elements satisfying `keep`, in their original order. */
  function Filter<T(!new)>(xs: seq<T>, keep: T -> bool): (r: seq<T>)
    ensures |r| <= |xs|
    ensures forall x :: x in r <==> x in xs && keep(x)
  {
    if |xs| == 0 then []
    else
      var rest := Filter(xs[1..], keep);
      assert xs == [xs[0]] + xs[1..];
      if keep(xs[0]) then [xs[0]] + rest else rest
  }

  /** Every kept value keeps its full multiplicity; every other value is gone. */
  lemma {:induction false} FilterCounts<T(!new)>(xs: seq<T>, keep: T -> bool)
    ensures forall x :: multiset(Filter(xs, keep))[x] == if keep(x) then multiset(xs)[x] else 0
  {
    if |xs| > 0 {
      FilterCounts(xs[1..], keep);
      assert xs == [xs[0]] + xs[1..];
    }
  }

  /** Filtering a concatenation filters each part: the kept elements keep
      their relative order. */
  lemma {:induction false} FilterAppend<T(!new)>(a: seq<T>, b: seq<T>, keep: T -> bool)
    ensures Filter(a + b, keep) == Filter(a, keep) + Filter(b, keep)
  {
    if |a| > 0 {
      assert (a + b)[1..] == a[1..] + b;
      FilterAppend(a[1..], b, keep);
    } else {
      assert a + b == b;
    }
  }

  /** A filter that keeps every element changes nothing. */
  lemma {:induction false} FilterKeepAll<T(!new)>(xs: seq<T>, keep: T -> bool)
    requires forall i :: 0 <= i < |xs| ==> keep(xs[i])
    ensures Filter(xs, keep) == xs
  {
    if |xs| > 0 {
      FilterKeepAll(xs[1..], keep);
    }
  }

  /** Filtering twice with the same predicate is filtering once. */
  lemma {:induction false} FilterIdempotent<T(!new)>(xs: seq<T>, keep: T -> bool)
    ensures Filter(Filter(xs, keep), keep) == Filter(xs, keep)
  {
    var r := Filter(xs, keep);
    assert forall i :: 0 <= i < |r| ==> r[i] in r;
    FilterKeepAll(r, keep);
  }

  /** `xs.slice(-n)`: the last `min(n, |xs|)` elements, in order. As in
      JavaScript, `-0` is `0`, so `n == 0` keeps the whole list. */
  function TakeLast<T>(xs: seq<T>, n: nat): (r: seq<T>)
    ensures |r| == if n == 0 || |xs| < n then |xs| else n
    ensures xs[..|xs| - |r|] + r == xs
    ensures forall i :: 0 <= i < |r| ==> r[i] == xs[|xs| - |r| + i]
  {
    if n == 0 || |xs| < n then xs else xs[|xs| - n..]
  }

  /** `xs.reverse()`. */
  function Reverse<T>(xs: seq<T>): (r: seq<T>)
    ensures |r| == |xs|
    ensures forall i :: 0 <= i < |xs| ==> r[i] == xs[|xs| - 1 - i]
  {
    if |xs| == 0 then [] else Reverse(xs[1..]) + [xs[0]]
  }
}
