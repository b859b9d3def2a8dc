/** List operations the source writes as loops and comprehensions:
    the first-match search (`for x in xs: if ...: break`), deleting at an
    index (`del xs[i]`), filtering (`[x for x in xs if ...]`) and sums. */
module Seqs {
  import opened Wrappers

  /** Index of the first element satisfying p, searching from index `from`. */
  function FirstMatchFrom<T>(s: seq<T>, p: T -> bool, from: nat): (r: Option<nat>)
    requires from <= |s|
    ensures r.Some? ==> from <= r.value < |s| && p(s[r.value])
    ensures r.Some? ==> forall j :: from <= j < r.value ==> !p(s[j])
    ensures r.None? ==> forall j :: from <= j < |s| ==> !p(s[j])
    decreases |s| - from
  {
    if from == |s| then None
    else if p(s[from]) then Some(from)
    else FirstMatchFrom(s, p, from + 1)
  }

  /** Index of the first element satisfying p, if any. */
  function FirstMatch<T>(s: seq<T>, p: T -> bool): Option<nat> {
    FirstMatchFrom(s, p, 0)
  }

  /** The two clauses that characterise the first match, which fix it uniquely. */
  lemma FirstMatchUnique<T>(s: seq<T>, p: T -> bool, k: Option<nat>)
    requires k.Some? ==> k.value < |s| && p(s[k.value]) && forall j :: 0 <= j < k.value ==> !p(s[j])
    requires k.None? ==> forall j :: 0 <= j < |s| ==> !p(s[j])
    ensures k == FirstMatch(s, p)
  {
  }

  /** The search loop `for i, x in enumerate(s): if p(x): found = i; break`. */
  method FindFirst<T>(s: seq<T>, p: T -> bool) returns (k: Option<nat>)
    ensures k == FirstMatch(s, p)
    ensures k.Some? ==> k.value < |s| && p(s[k.value])
  {
    var i := 0;
    k := None;
    while i < |s|
      invariant 0 <= i <= |s|
      invariant forall j :: 0 <= j < i ==> !p(s[j])
    {
      if p(s[i]) {
        k := Some(i);
        FirstMatchUnique(s, p, k);
        return;
      }
      i := i + 1;
    }
    FirstMatchUnique(s, p, k);
  }

  /** `del s[k]`. */
  function RemoveAt<T>(s: seq<T>, k: nat): (r: seq<T>)
    requires k < |s|
    ensures |r| == |s| - 1
    ensures forall j :: 0 <= j < k ==> r[j] == s[j]
    ensures forall j :: k <= j < |r| ==> r[j] == s[j + 1]
    ensures multiset(r) + multiset{s[k]} == multiset(s)
  {
    assert s == s[..k] + [s[k]] + s[k + 1..];
    s[..k] + s[k + 1..]
  }

  /** Delete the first element satisfying p; nothing when none does. */
  function RemoveFirst<T>(s: seq<T>, p: T -> bool): seq<T> {
    match FirstMatch(s, p)
    case None => s
    case Some(k) => RemoveAt(s, k)
  }

  lemma RemoveFirstLength<T>(s: seq<T>, p: T -> bool)
    ensures |RemoveFirst(s, p)| == if exists j :: 0 <= j < |s| && p(s[j]) then |s| - 1 else |s|
  {
  }

  /** `[x for x in s if p(x)]`. */
  function Filter<T>(s: seq<T>, p: T -> bool): (r: seq<T>)
    ensures |r| <= |s|
    ensures forall x :: x in r ==> x in s && p(x)
  {
    if s == [] then []
    else if p(s[|s| - 1]) then Filter(s[..|s| - 1], p) + [s[|s| - 1]]
    else Filter(s[..|s| - 1], p)
  }

  lemma {:induction false} FilterKeeps<T>(s: seq<T>, p: T -> bool, x: T)
    requires x in s && p(x)
    ensures x in Filter(s, p)
  {
    if s[|s| - 1] != x {
      assert s == s[..|s| - 1] + [s[|s| - 1]];
      FilterKeeps(s[..|s| - 1], p, x);
    }
  }

  lemma {:induction false} FilterAppend<T>(a: seq<T>, b: seq<T>, p: T -> bool)
    ensures Filter(a + b, p) == Filter(a, p) + Filter(b, p)
  {
    if b != [] {
      assert (a + b)[..|a + b| - 1] == a + b[..|b| - 1];
      FilterAppend(a, b[..|b| - 1], p);
    } else {
      assert a + b == a;
    }
  }

  /** Filtering twice is filtering once by the stronger condition. */
  lemma {:induction false} FilterFilter<T>(s: seq<T>, p: T -> bool, q: T -> bool)
    requires forall x :: q(x) ==> p(x)
    ensures Filter(Filter(s, p), q) == Filter(s, q)
  {
    if s != [] {
      FilterFilter(s[..|s| - 1], p, q);
      if p(s[|s| - 1]) {
        var f := Filter(s[..|s| - 1], p) + [s[|s| - 1]];
        assert f[..|f| - 1] == Filter(s[..|s| - 1], p);
      }
    }
  }

  /** Filtering by a condition nothing satisfies gives the empty list. */
  lemma {:induction false} FilterNone<T>(s: seq<T>, p: T -> bool)
    requires forall j :: 0 <= j < |s| ==> !p(s[j])
    ensures Filter(s, p) == []
  {
    if s != [] {
      FilterNone(s[..|s| - 1], p);
    }
  }

  /** Filtering by a condition everything satisfies changes nothing. */
  lemma {:induction false} FilterAll<T>(s: seq<T>, p: T -> bool)
    requires forall j :: 0 <= j < |s| ==> p(s[j])
    ensures Filter(s, p) == s
  {
    if s != [] {
      FilterAll(s[..|s| - 1], p);
      assert s == s[..|s| - 1] + [s[|s| - 1]];
    }
  }

  function SumReals(s: seq<real>): real {
    if s == [] then 0.0 else SumReals(s[..|s| - 1]) + s[|s| - 1]
  }

  /** k equal parts of size x add up to k * x. */
  lemma {:induction false} SumOfConstant(s: seq<real>, x: real)
    requires forall i :: 0 <= i < |s| ==> s[i] == x
    ensures SumReals(s) == |s| as real * x
  {
    if s != [] {
      SumOfConstant(s[..|s| - 1], x);
    }
  }
}
