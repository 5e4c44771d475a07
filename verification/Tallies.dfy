// Sums of attempt counts and dollars over any list.
module Tallies {
  /// What a list of costs adds up to, in unbounded numbers.
  datatype Tally = Tally(count: nat, unpriced: nat, dollars: real)

  function Nothing(): Tally {
    Tally(0, 0, 0.0)
  }

  function Plus(a: Tally, b: Tally): Tally {
    Tally(a.count + b.count, a.unpriced + b.unpriced, a.dollars + b.dollars)
  }

  function Sum<T>(xs: seq<T>, f: T -> Tally): Tally {
    SumTo(xs, f, |xs|)
  }

  /// The sum of the first n.
  function SumTo<T>(xs: seq<T>, f: T -> Tally, n: nat): Tally
    requires n <= |xs|
  {
    if n == 0 then Nothing() else Plus(SumTo(xs, f, n - 1), f(xs[n - 1]))
  }

  lemma {:induction false} SumToConcat<T>(a: seq<T>, b: seq<T>, f: T -> Tally, n: nat)
    requires n <= |a| + |b|
    ensures SumTo(a + b, f, n) == if n <= |a| then SumTo(a, f, n) else Plus(Sum(a, f), SumTo(b, f, n - |a|))
  {
    if n > 0 {
      SumToConcat(a, b, f, n - 1);
      assert (a + b)[n - 1] == if n <= |a| then a[n - 1] else b[n - 1 - |a|];
    }
  }

  lemma SumConcat<T>(a: seq<T>, b: seq<T>, f: T -> Tally)
    ensures Sum(a + b, f) == Plus(Sum(a, f), Sum(b, f))
  {
    SumToConcat(a, b, f, |a| + |b|);
  }

  lemma SumSnoc<T>(xs: seq<T>, x: T, f: T -> Tally)
    ensures Sum(xs + [x], f) == Plus(Sum(xs, f), f(x))
  {
    SumConcat(xs, [x], f);
    assert SumTo([x], f, 1) == Plus(SumTo([x], f, 0), f(x));
  }

  lemma SumOne<T>(x: T, f: T -> Tally)
    ensures Sum([x], f) == f(x)
  {
    assert SumTo([x], f, 1) == Plus(SumTo([x], f, 0), f(x));
  }

  lemma TakeOut<T>(b: seq<T>, i: nat, f: T -> Tally)
    requires i < |b|
    ensures Sum(b, f) == Plus(Sum(b[..i] + b[i + 1..], f), f(b[i]))
  {
    assert b == (b[..i] + [b[i]]) + b[i + 1..];
    SumConcat(b[..i] + [b[i]], b[i + 1..], f);
    SumSnoc(b[..i], b[i], f);
    SumConcat(b[..i], b[i + 1..], f);
  }

  lemma Cancel<T>(m: multiset<T>, n: multiset<T>, x: T)
    requires m + multiset{x} == n + multiset{x}
    ensures m == n
  {
    forall e ensures m[e] == n[e] {
      assert (m + multiset{x})[e] == (n + multiset{x})[e];
    }
  }

  lemma SameWithout<T>(rest: seq<T>, last: T, b: seq<T>) returns (i: nat)
    requires multiset(rest + [last]) == multiset(b)
    ensures i < |b| && b[i] == last && multiset(rest) == multiset(b[..i] + b[i + 1..])
  {
    assert last in multiset(b);
    i :| 0 <= i < |b| && b[i] == last;
    assert b == b[..i] + ([last] + b[i + 1..]);
    assert multiset(b) == multiset(b[..i] + b[i + 1..]) + multiset{last};
    Cancel(multiset(rest), multiset(b[..i] + b[i + 1..]), last);
  }

  /// A sum does not depend on the order of its list.
  lemma {:induction false} SumIsOrderFree<T>(a: seq<T>, b: seq<T>, f: T -> Tally)
    requires multiset(a) == multiset(b)
    ensures Sum(a, f) == Sum(b, f)
  {
    if a == [] {
      assert |b| == |multiset(b)| == 0;
    } else {
      var last, rest := a[|a| - 1], a[..|a| - 1];
      assert a == rest + [last];
      var i := SameWithout(rest, last, b);
      SumIsOrderFree(rest, b[..i] + b[i + 1..], f);
      TakeOut(b, i, f);
      SumSnoc(rest, last, f);
    }
  }

  lemma PlusSwaps(a: Tally, b: Tally, c: Tally, d: Tally)
    ensures Plus(Plus(a, b), Plus(c, d)) == Plus(Plus(a, c), Plus(b, d))
  {
  }

  lemma {:induction false} SumSplits<T>(xs: seq<T>, f: T -> Tally, g: T -> Tally, h: T -> Tally, n: nat)
    requires n <= |xs| && forall k :: 0 <= k < |xs| ==> h(xs[k]) == Plus(f(xs[k]), g(xs[k]))
    ensures SumTo(xs, h, n) == Plus(SumTo(xs, f, n), SumTo(xs, g, n))
  {
    if n > 0 {
      SumSplits(xs, f, g, h, n - 1);
      PlusSwaps(SumTo(xs, f, n - 1), SumTo(xs, g, n - 1), f(xs[n - 1]), g(xs[n - 1]));
    }
  }

  /// A sum with no term that is not nothing.
  lemma {:induction false} SumOfNothing<T>(xs: seq<T>, f: T -> Tally, n: nat)
    requires n <= |xs| && forall k :: 0 <= k < n ==> f(xs[k]) == Nothing()
    ensures SumTo(xs, f, n) == Nothing()
  {
    if n > 0 {
      SumOfNothing(xs, f, n - 1);
    }
  }

  /// A sum with one term that is not nothing.
  lemma {:induction false} SumOfOne<T>(xs: seq<T>, i: nat, f: T -> Tally, n: nat)
    requires i < n <= |xs| && forall k :: 0 <= k < n && k != i ==> f(xs[k]) == Nothing()
    ensures SumTo(xs, f, n) == f(xs[i])
  {
    if i < n - 1 {
      SumOfOne(xs, i, f, n - 1);
    } else {
      SumOfNothing(xs, f, n - 1);
    }
  }
}
