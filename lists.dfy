/**
 * The JavaScript array operations the pages build on (`find`, `findIndex`,
 * `filter`, `map` with a conditional update, `some`, `reduce` for a sum),
 * each specified once and reused by every page module.
 */
module Lists {
  import opened Wrappers

  /** `xs.findIndex(p)`: the first index whose element satisfies `p`. */
  function FirstIndex<T>(xs: seq<T>, p: T -> bool): (r: Option<nat>)
    ensures r.Some? ==> r.value < |xs| && p(xs[r.value])
    ensures r.Some? ==> forall j :: 0 <= j < r.value ==> !p(xs[j])
    ensures r.None? <==> forall j :: 0 <= j < |xs| ==> !p(xs[j])
  {
    if |xs| == 0 then None
    else if p(xs[0]) then Some(0)
    else match FirstIndex(xs[1..], p)
      case None => None
      case Some(k) => Some(k + 1)
  }

  /** `xs.find(p)`: the first element that satisfies `p`. */
  function Find<T>(xs: seq<T>, p: T -> bool): (r: Option<T>)
    ensures r.None? <==> forall j :: 0 <= j < |xs| ==> !p(xs[j])
    ensures r.Some? ==> exists k :: 0 <= k < |xs| && xs[k] == r.value && p(xs[k])
                                    && forall j :: 0 <= j < k ==> !p(xs[j])
  {
    match FirstIndex(xs, p)
    case None => None
    case Some(k) => Some(xs[k])
  }

  /** `xs.some(p)`. */
  predicate Any<T>(xs: seq<T>, p: T -> bool)
  {
    exists j :: 0 <= j < |xs| && p(xs[j])
  }

  /** `xs.filter(p)`. */
  function Filter<T(!new)>(xs: seq<T>, p: T -> bool): (r: seq<T>)
    ensures |r| <= |xs|
    ensures forall j :: 0 <= j < |r| ==> p(r[j])
    ensures forall x :: x in r <==> x in xs && p(x)
    ensures (forall j :: 0 <= j < |xs| ==> p(xs[j])) ==> r == xs
  {
    if |xs| == 0 then []
    else if p(xs[0]) then [xs[0]] + Filter(xs[1..], p)
    else Filter(xs[1..], p)
  }

  /** `a` is `b` with some elements dropped and the rest kept in order. */
  predicate IsSubsequence<T(==)>(a: seq<T>, b: seq<T>)
    decreases |b|
  {
    if |a| == 0 then true
    else if |b| == 0 then false
    else if a[0] == b[0] then IsSubsequence(a[1..], b[1..])
    else IsSubsequence(a, b[1..])
  }

  lemma {:induction false} FilterIsSubsequence<T(!new)>(xs: seq<T>, p: T -> bool)
    ensures IsSubsequence(Filter(xs, p), xs)
  {
    if |xs| > 0 {
      FilterIsSubsequence(xs[1..], p);
      if p(xs[0]) {
        var r := Filter(xs, p);
        assert r[0] == xs[0] && r[1..] == Filter(xs[1..], p);
      } else {
        var r := Filter(xs, p);
        if |r| > 0 {
          assert r[0] in r;
          assert r[0] != xs[0];
        }
      }
    }
  }

  lemma {:induction false} FilterAppend<T(!new)>(xs: seq<T>, ys: seq<T>, p: T -> bool)
    ensures Filter(xs + ys, p) == Filter(xs, p) + Filter(ys, p)
  {
    if |xs| > 0 {
      assert (xs + ys)[0] == xs[0];
      assert (xs + ys)[1..] == xs[1..] + ys;
      FilterAppend(xs[1..], ys, p);
    } else {
      assert xs + ys == ys;
    }
  }

  /** Filtering twice is filtering once by both predicates. */
  lemma {:induction false} FilterFilter<T(!new)>(xs: seq<T>, p: T -> bool, q: T -> bool)
    ensures Filter(Filter(xs, p), q) == Filter(xs, x => p(x) && q(x))
  {
    if |xs| > 0 {
      FilterFilter(xs[1..], p, q);
      if p(xs[0]) {
        var fp := Filter(xs, p);
        assert fp == [xs[0]] + Filter(xs[1..], p);
        assert fp[0] == xs[0] && fp[1..] == Filter(xs[1..], p);
      }
    }
  }

  /** Two filters in a row keep an order-preserving part of the input. */
  lemma FilterFilterIsSubsequence<T(!new)>(xs: seq<T>, p: T -> bool, q: T -> bool, pq: T -> bool)
    requires forall x :: pq(x) == (p(x) && q(x))
    ensures Filter(Filter(xs, p), q) == Filter(xs, pq)
    ensures IsSubsequence(Filter(Filter(xs, p), q), xs)
  {
    FilterFilter(xs, p, q);
    FilterSameOn(xs, x => p(x) && q(x), pq);
    FilterIsSubsequence(xs, pq);
  }

  /** `xs.map(x => p(x) ? f(x) : x)`: update every element that matches. */
  function MapWhere<T>(xs: seq<T>, p: T -> bool, f: T -> T): (r: seq<T>)
    ensures |r| == |xs|
    ensures forall j :: 0 <= j < |xs| ==> r[j] == (if p(xs[j]) then f(xs[j]) else xs[j])
  {
    seq(|xs|, j requires 0 <= j < |xs| => if p(xs[j]) then f(xs[j]) else xs[j])
  }

  /** `xs.map((x, j) => j === i ? f(x) : x)`: update the element at index `i`, if any. */
  function UpdateAt<T>(xs: seq<T>, i: int, f: T -> T): (r: seq<T>)
    ensures |r| == |xs|
    ensures forall j :: 0 <= j < |xs| && j != i ==> r[j] == xs[j]
    ensures 0 <= i < |xs| ==> r[i] == f(xs[i])
  {
    if 0 <= i < |xs| then xs[i := f(xs[i])] else xs
  }

  /** `xs.filter((_, j) => j !== i)`: drop the element at index `i`, if any. */
  function RemoveAt<T>(xs: seq<T>, i: int): (r: seq<T>)
    ensures 0 <= i < |xs| ==> |r| == |xs| - 1
    ensures 0 <= i < |xs| ==> forall j :: 0 <= j < i ==> r[j] == xs[j]
    ensures 0 <= i < |xs| ==> forall j :: i <= j < |r| ==> r[j] == xs[j + 1]
    ensures !(0 <= i < |xs|) ==> r == xs
  {
    if 0 <= i < |xs| then xs[..i] + xs[i + 1..] else xs
  }

  /** `xs.reduce((sum, x) => sum + f(x), 0)`. */
  /** `xs.slice(0, n)`: the first `n` elements, or all of them when there are fewer. */
  function Take<T>(xs: seq<T>, n: nat): (r: seq<T>)
    ensures |r| <= n && |r| <= |xs| && r == xs[..|r|]
    ensures |xs| <= n ==> r == xs
    ensures |xs| > n ==> |r| == n
  {
    if |xs| <= n then xs else xs[..n]
  }

  function SumOf<T>(xs: seq<T>, f: T -> real): (r: real)
    ensures (forall j :: 0 <= j < |xs| ==> f(xs[j]) >= 0.0) ==> r >= 0.0
  {
    if |xs| == 0 then 0.0 else SumOf(xs[..|xs| - 1], f) + f(xs[|xs| - 1])
  }

  lemma {:induction false} SumOfAppend<T>(xs: seq<T>, ys: seq<T>, f: T -> real)
    ensures SumOf(xs + ys, f) == SumOf(xs, f) + SumOf(ys, f)
  {
    if |ys| == 0 {
      assert xs + ys == xs;
    } else {
      assert (xs + ys)[..|xs + ys| - 1] == xs + ys[..|ys| - 1];
      SumOfAppend(xs, ys[..|ys| - 1], f);
    }
  }

  lemma SumOfSingle<T>(x: T, f: T -> real)
    ensures SumOf([x], f) == f(x)
  {
    assert [x][..0] == [];
  }

  /** Replacing one element changes the sum by the difference of the two terms. */
  lemma {:induction false} SumOfUpdate<T>(xs: seq<T>, i: nat, y: T, f: T -> real)
    requires i < |xs|
    ensures SumOf(xs[i := y], f) == SumOf(xs, f) - f(xs[i]) + f(y)
  {
    assert xs == xs[..i] + [xs[i]] + xs[i + 1..];
    assert xs[i := y] == xs[..i] + [y] + xs[i + 1..];
    SumOfAppend(xs[..i] + [xs[i]], xs[i + 1..], f);
    SumOfAppend(xs[..i], [xs[i]], f);
    SumOfAppend(xs[..i] + [y], xs[i + 1..], f);
    SumOfAppend(xs[..i], [y], f);
    SumOfSingle(xs[i], f);
    SumOfSingle(y, f);
  }

  /** Sum over the elements that satisfy `p`, in order. */
  lemma {:induction false} SumOfFilterAppend<T(!new)>(xs: seq<T>, x: T, p: T -> bool, f: T -> real)
    ensures SumOf(Filter(xs + [x], p), f) == SumOf(Filter(xs, p), f) + (if p(x) then f(x) else 0.0)
  {
    FilterAppend(xs, [x], p);
    assert Filter([x], p) == if p(x) then [x] else [];
    SumOfAppend(Filter(xs, p), Filter([x], p), f);
    if p(x) { SumOfSingle(x, f); }
    else { assert Filter(xs, p) + [] == Filter(xs, p); }
  }

  lemma FilterPrepend<T(!new)>(x: T, xs: seq<T>, p: T -> bool)
    ensures Filter([x] + xs, p) == (if p(x) then [x] else []) + Filter(xs, p)
  {
    assert ([x] + xs)[1..] == xs;
  }

  /** Filters by predicates that agree on the elements give the same result. */
  lemma {:induction false} FilterSameOn<T(!new)>(xs: seq<T>, p: T -> bool, q: T -> bool)
    requires forall i :: 0 <= i < |xs| ==> p(xs[i]) == q(xs[i])
    ensures Filter(xs, p) == Filter(xs, q)
  {
    if |xs| > 0 {
      FilterSameOn(xs[1..], p, q);
    }
  }

  lemma SumOfPrepend<T>(x: T, xs: seq<T>, f: T -> real)
    ensures SumOf([x] + xs, f) == f(x) + SumOf(xs, f)
  {
    SumOfAppend([x], xs, f);
    SumOfSingle(x, f);
  }
}
