/**
 * Sequence combinators behind the source's list comprehensions and its one
 * sort: `[f(x) for x in xs]` where `f` may raise, `[x for x in xs if p(x)]`,
 * and "the first element of a stable sort", i.e. the first minimum.
 */
module Collections {
  import opened Wrappers

  /**
   * `[f(x) for x in items]`: the elements are converted in order and the
   * first one that raises ends the comprehension with that error.
   */
  function MapAll<A, B, E>(items: seq<A>, f: A -> Result<B, E>): (r: Result<seq<B>, E>)
    ensures r.Ok? <==> forall i :: 0 <= i < |items| ==> f(items[i]).Ok?
    ensures r.Ok? ==> |r.value| == |items|
    ensures r.Ok? ==> forall i :: 0 <= i < |items| ==> f(items[i]) == Ok(r.value[i])
    ensures r.Err? ==> exists i :: 0 <= i < |items| && f(items[i]) == Err(r.error)
                                   && forall j :: 0 <= j < i ==> f(items[j]).Ok?
  {
    if items == [] then Ok([])
    else
      match f(items[0])
      case Err(e) => Err(e)
      case Ok(x) =>
        match MapAll(items[1..], f)
        case Err(e) =>
          ghost var i :| 0 <= i < |items[1..]| && f(items[1..][i]) == Err(e)
                         && forall j :: 0 <= j < i ==> f(items[1..][j]).Ok?;
          assert f(items[i + 1]) == Err(e);
          Err(e)
        case Ok(xs) => Ok([x] + xs)
  }

  /** `[x for x in s if p(x)]`, defined from the last element so that prefixes are easy to reason about. */
  function Filter<T>(s: seq<T>, p: T -> bool): (r: seq<T>)
    ensures |r| <= |s|
    ensures forall i :: 0 <= i < |r| ==> r[i] in s && p(r[i])
    ensures forall i :: 0 <= i < |s| && p(s[i]) ==> s[i] in r
  {
    if s == [] then []
    else
      var init := s[..|s| - 1];
      assert s == init + [s[|s| - 1]];
      Filter(init, p) + (if p(s[|s| - 1]) then [s[|s| - 1]] else [])
  }

  /** How many elements before position `u` pass the filter: where `s[u]` lands in `Filter(s, p)`. */
  function Rank<T>(s: seq<T>, p: T -> bool, u: nat): nat
    requires u <= |s|
  {
    |Filter(s[..u], p)|
  }

  /** Filtering a prefix gives a prefix of the filtered sequence. */
  lemma {:induction false} FilterPrefix<T>(s: seq<T>, p: T -> bool, u: nat)
    requires u <= |s|
    ensures Filter(s[..u], p) <= Filter(s, p)
    decreases |s| - u
  {
    if u < |s| {
      var init := s[..|s| - 1];
      FilterPrefix(init, p, u);
      assert init[..u] == s[..u];
    } else {
      assert s[..u] == s;
    }
  }

  /** Filtering never looks at more than one element at a time: concatenation commutes with it. */
  lemma {:induction false} FilterAppend<T>(a: seq<T>, b: seq<T>, p: T -> bool)
    ensures Filter(a + b, p) == Filter(a, p) + Filter(b, p)
    decreases |b|
  {
    if b == [] {
      assert a + b == a;
    } else {
      var binit := b[..|b| - 1];
      FilterAppend(a, binit, p);
      assert (a + b)[..|a + b| - 1] == a + binit;
    }
  }

  /** Filtering twice is filtering once by the conjunction. */
  lemma {:induction false} FilterFilter<T>(s: seq<T>, p: T -> bool, q: T -> bool, pq: T -> bool)
    requires forall i :: 0 <= i < |s| ==> pq(s[i]) == (p(s[i]) && q(s[i]))
    ensures Filter(Filter(s, p), q) == Filter(s, pq)
    decreases |s|
  {
    if s != [] {
      var init := s[..|s| - 1];
      var last := s[|s| - 1];
      FilterFilter(init, p, q, pq);
      FilterAppend(Filter(init, p), if p(last) then [last] else [], q);
      assert [last][..0] == [];
    }
  }

  /** Two predicates that agree on every element filter alike. */
  lemma {:induction false} FilterCongruent<T>(s: seq<T>, p: T -> bool, q: T -> bool)
    requires forall i :: 0 <= i < |s| ==> p(s[i]) == q(s[i])
    ensures Filter(s, p) == Filter(s, q)
    decreases |s|
  {
    if s != [] {
      FilterCongruent(s[..|s| - 1], p, q);
    }
  }

  /** An element that passes the filter sits at its rank in the filtered sequence. */
  lemma FilterAt<T>(s: seq<T>, p: T -> bool, u: nat)
    requires u < |s| && p(s[u])
    ensures Rank(s, p, u) < |Filter(s, p)| && Filter(s, p)[Rank(s, p, u)] == s[u]
  {
    var pre := s[..u + 1];
    assert pre[..|pre| - 1] == s[..u];
    assert Filter(pre, p) == Filter(s[..u], p) + [s[u]];
    FilterPrefix(s, p, u + 1);
  }

  /** Ranks respect the order of the original sequence. */
  lemma RankMonotone<T>(s: seq<T>, p: T -> bool, u: nat, t: nat)
    requires u < t <= |s| && p(s[u])
    ensures Rank(s, p, u) < Rank(s, p, t)
  {
    var pre := s[..t];
    FilterPrefix(pre, p, u + 1);
    assert pre[..u + 1] == s[..u + 1];
    var upto := s[..u + 1];
    assert upto[..|upto| - 1] == s[..u];
    assert Filter(upto, p) == Filter(s[..u], p) + [s[u]];
  }

  /** Every position of the filtered sequence comes from some element of the original. */
  lemma {:induction false} RankSurjective<T>(s: seq<T>, p: T -> bool, i: nat) returns (u: nat)
    requires i < |Filter(s, p)|
    ensures u < |s| && p(s[u]) && Rank(s, p, u) == i
    decreases |s|
  {
    var init := s[..|s| - 1];
    if i < |Filter(init, p)| {
      u := RankSurjective(init, p, i);
      assert init[..u] == s[..u];
    } else {
      u := |s| - 1;
      assert s[..u] == init;
    }
  }

  /** The position a stable sort by these keys would move to the front: the first minimum. */
  function FirstMinimum(keys: seq<real>): (i: nat)
    requires |keys| > 0
    ensures i < |keys|
    ensures forall j :: 0 <= j < |keys| ==> keys[i] <= keys[j]
    ensures forall j :: 0 <= j < i ==> keys[j] > keys[i]
  {
    if |keys| == 1 then 0
    else
      var k := FirstMinimum(keys[1..]) + 1;
      if keys[0] <= keys[k] then 0 else k
  }
}
