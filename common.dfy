/** Values shared by every part of the model: optional values, the failures the
    modelled code can raise, calendar timestamps, and sums over sequences. */
module Common {

  datatype Option<T> = None | Some(value: T)

  /** The exceptions the modelled code can raise, grouped by where they come from. */
  datatype Failure =
    | ModelRaised(reason: string)  // raised inside the statistical library
    | ShapeError                   // pandas or scikit-learn refusing arrays of the wrong length
    | NaTDate                      // a date range asked to start at "not a time"

  /** The outcome of a call that may raise. */
  datatype Result<T> = Ok(value: T) | Err(error: Failure)

  /** A parsed timestamp: a calendar day (an ordinal) and a time of day in seconds. */
  datatype Timestamp = Timestamp(day: int, timeOfDay: nat)

  function Sum(s: seq<real>): real
  {
    if s == [] then 0.0 else Sum(s[..|s| - 1]) + s[|s| - 1]
  }

  /** The arithmetic mean, as numpy's `mean` computes it on a non-empty list. */
  function Mean(s: seq<real>): real
    requires |s| > 0
  {
    Sum(s) / |s| as real
  }

  lemma {:induction false} SumNonNegative(s: seq<real>)
    requires forall k :: 0 <= k < |s| ==> s[k] >= 0.0
    ensures Sum(s) >= 0.0
  {
    if s != [] {
      SumNonNegative(s[..|s| - 1]);
    }
  }

  /** A sum of non-negative terms is zero exactly when every term is zero. */
  lemma {:induction false} SumZeroIff(s: seq<real>)
    requires forall k :: 0 <= k < |s| ==> s[k] >= 0.0
    ensures Sum(s) == 0.0 <==> forall k :: 0 <= k < |s| ==> s[k] == 0.0
  {
    if s != [] {
      var init := s[..|s| - 1];
      SumZeroIff(init);
      SumNonNegative(init);
      assert forall k :: 0 <= k < |init| ==> init[k] == s[k];
    }
  }

  lemma MeanNonNegative(s: seq<real>)
    requires |s| > 0
    requires forall k :: 0 <= k < |s| ==> s[k] >= 0.0
    ensures Mean(s) >= 0.0
  {
    SumNonNegative(s);
    DivNonNegative(Sum(s), |s| as real);
  }

  /** A mean of non-negative terms is zero exactly when every term is zero. */
  lemma MeanZeroIff(s: seq<real>)
    requires |s| > 0
    requires forall k :: 0 <= k < |s| ==> s[k] >= 0.0
    ensures Mean(s) == 0.0 <==> forall k :: 0 <= k < |s| ==> s[k] == 0.0
  {
    SumZeroIff(s);
    DivZeroIff(Sum(s), |s| as real);
  }

  lemma DivNonNegative(x: real, n: real)
    requires x >= 0.0 && n > 0.0
    ensures x / n >= 0.0
  {
  }

  lemma DivZeroIff(x: real, n: real)
    requires n > 0.0
    ensures x / n == 0.0 <==> x == 0.0
  {
    if x / n == 0.0 {
      assert x == (x / n) * n;
    }
  }

  /** The elements of `s` that satisfy `p`, in their original order. */
  function Filter<T>(s: seq<T>, p: T -> bool): (r: seq<T>)
    ensures |r| <= |s|
    ensures forall k :: 0 <= k < |r| ==> p(r[k])
  {
    if s == [] then [] else (if p(s[0]) then [s[0]] else []) + Filter(s[1..], p)
  }

  /** Each element that satisfies `p` is kept as often as it occurs in `s`,
      and every other element is gone. */
  lemma {:induction false} FilterMembers<T>(s: seq<T>, p: T -> bool)
    ensures forall x :: multiset(Filter(s, p))[x] == if p(x) then multiset(s)[x] else 0
    ensures forall x :: x in Filter(s, p) <==> x in s && p(x)
  {
    if s != [] {
      FilterMembers(s[1..], p);
      assert s == [s[0]] + s[1..];
      assert multiset(s) == multiset{s[0]} + multiset(s[1..]);
    }
  }

  /** The order is kept: filtering a list is judging its first element and then
      filtering the rest. */
  lemma FilterCons<T>(x: T, s: seq<T>, p: T -> bool)
    ensures Filter([x] + s, p) == (if p(x) then [x] else []) + Filter(s, p)
  {
    assert ([x] + s)[1..] == s;
  }

  lemma {:induction false} FilterConcat<T>(a: seq<T>, b: seq<T>, p: T -> bool)
    ensures Filter(a + b, p) == Filter(a, p) + Filter(b, p)
  {
    if a == [] {
      assert a + b == b;
    } else {
      assert (a + b)[1..] == a[1..] + b;
      FilterConcat(a[1..], b, p);
    }
  }

  /** The present results of `f` over `s`, in order: a filter and a map in one pass. */
  function FilterMap<T, U>(s: seq<T>, f: T -> Option<U>): (r: seq<U>)
    ensures |r| <= |s|
  {
    if s == [] then []
    else (match f(s[0]) case Some(u) => [u] case None => []) + FilterMap(s[1..], f)
  }

  /** A value is among the results exactly when `f` yields it on some element of `s`. */
  lemma {:induction false} FilterMapMember<T, U>(s: seq<T>, f: T -> Option<U>, u: U)
    ensures u in FilterMap(s, f) <==> exists x :: x in s && f(x) == Some(u)
  {
    if s != [] {
      var rest := s[1..];
      FilterMapMember(rest, f, u);
      assert s == [s[0]] + rest;
      if f(s[0]) != Some(u) && u in FilterMap(s, f) {
        assert u in FilterMap(rest, f);
        var x :| x in rest && f(x) == Some(u);
        assert x in s;
      }
    }
  }

  lemma {:induction false} FilterMapConcat<T, U>(a: seq<T>, b: seq<T>, f: T -> Option<U>)
    ensures FilterMap(a + b, f) == FilterMap(a, f) + FilterMap(b, f)
  {
    if a == [] {
      assert a + b == b;
    } else {
      assert (a + b)[1..] == a[1..] + b;
      FilterMapConcat(a[1..], b, f);
    }
  }
}
