/**
 * Counting over sequences: how often a value occurs, and the distinct
 * values in the order in which they are first seen. This is what a
 * JavaScript object used as a counter (`acc[k]++`) gives back through
 * `Object.keys`, whose order is insertion order for non-numeric keys.
 */
module Tally {

  /** Number of positions of `s` holding `x` (counted from the end, like a left fold). */
  function Occurrences<T(==)>(s: seq<T>, x: T): nat
  {
    if s == [] then 0
    else Occurrences(s[..|s| - 1], x) + (if s[|s| - 1] == x then 1 else 0)
  }

  /** The distinct values of `s`, each once, in order of first occurrence. */
  function FirstSeen<T(==)>(s: seq<T>): seq<T>
  {
    if s == [] then []
    else
      var seen := FirstSeen(s[..|s| - 1]);
      if s[|s| - 1] in seen then seen else seen + [s[|s| - 1]]
  }

  /** Index of the first occurrence of `x` in `s`. */
  function FirstIndex<T(==)>(s: seq<T>, x: T): (i: nat)
    requires x in s
    ensures i < |s| && s[i] == x
    ensures forall j :: 0 <= j < i ==> s[j] != x
  {
    if s[0] == x then 0 else 1 + FirstIndex(s[1..], x)
  }

  ghost predicate Distinct<T>(s: seq<T>)
  {
    forall i, j :: 0 <= i < j < |s| ==> s[i] != s[j]
  }

  /** Sum of the occurrence counts in `s` of each value listed in `keys`. */
  function CountSum<T(==)>(s: seq<T>, keys: seq<T>): nat
  {
    if keys == [] then 0 else Occurrences(s, keys[0]) + CountSum(s, keys[1..])
  }

  /** One more element: how the first-seen list grows. */
  lemma FirstSeenSnoc<T>(p: seq<T>, x: T)
    ensures FirstSeen(p + [x]) == if x in FirstSeen(p) then FirstSeen(p) else FirstSeen(p) + [x]
  {
    assert (p + [x])[..|p + [x]| - 1] == p;
  }

  /** One more element: how the count of `y` grows. */
  lemma OccurrencesSnoc<T>(p: seq<T>, x: T, y: T)
    ensures Occurrences(p + [x], y) == Occurrences(p, y) + (if x == y then 1 else 0)
  {
    assert (p + [x])[..|p + [x]| - 1] == p;
  }

  lemma {:induction false} FirstSeenMembers<T>(s: seq<T>)
    ensures forall x :: x in FirstSeen(s) ==> x in s
    ensures forall x :: x in s ==> x in FirstSeen(s)
  {
    if s != [] {
      var p := s[..|s| - 1];
      FirstSeenMembers(p);
      assert s == p + [s[|s| - 1]];
    }
  }

  lemma {:induction false} FirstSeenLength<T>(s: seq<T>)
    ensures |FirstSeen(s)| <= |s|
  {
    if s != [] {
      FirstSeenLength(s[..|s| - 1]);
    }
  }

  lemma {:induction false} FirstSeenDistinct<T>(s: seq<T>)
    ensures Distinct(FirstSeen(s))
  {
    if s != [] {
      FirstSeenDistinct(s[..|s| - 1]);
    }
  }

  lemma {:induction false} FirstIndexSnoc<T>(p: seq<T>, x: T, y: T)
    requires y in p
    ensures FirstIndex(p + [x], y) == FirstIndex(p, y)
  {
    if p[0] != y {
      assert (p + [x])[1..] == p[1..] + [x];
      FirstIndexSnoc(p[1..], x, y);
    }
  }

  /** Every value of `keys` occurs in `s`, and `keys` lists them by increasing first occurrence. */
  ghost predicate InFirstOccurrenceOrder<T>(s: seq<T>, keys: seq<T>)
  {
    && (forall i :: 0 <= i < |keys| ==> keys[i] in s)
    && forall i, j :: 0 <= i < j < |keys| ==> FirstIndex(s, keys[i]) < FirstIndex(s, keys[j])
  }

  lemma {:induction false} FirstSeenOrder<T>(s: seq<T>)
    ensures InFirstOccurrenceOrder(s, FirstSeen(s))
  {
    if s != [] {
      var p, x := s[..|s| - 1], s[|s| - 1];
      assert s == p + [x];
      FirstSeenOrder(p);
      FirstSeenMembers(p);
      var fp := FirstSeen(p);
      forall i | 0 <= i < |fp|
        ensures fp[i] in p && fp[i] in s && FirstIndex(s, fp[i]) == FirstIndex(p, fp[i])
      {
        FirstIndexSnoc(p, x, fp[i]);
      }
      if x in fp {
        assert FirstSeen(s) == fp;
      } else {
        var fs := fp + [x];
        assert FirstSeen(s) == fs;
        assert FirstIndex(s, x) == |p| by {
          assert x !in p;
        }
        forall i, j | 0 <= i < j < |fs|
          ensures fs[i] in s && fs[j] in s && FirstIndex(s, fs[i]) < FirstIndex(s, fs[j])
        {
          assert fs[i] == fp[i];
          if j < |fp| {
            assert fs[j] == fp[j];
          }
        }
      }
    }
  }

  lemma {:induction false} CountSumSnoc<T>(p: seq<T>, x: T, keys: seq<T>)
    requires Distinct(keys)
    ensures CountSum(p + [x], keys) == CountSum(p, keys) + (if x in keys then 1 else 0)
  {
    if keys != [] {
      assert (p + [x])[..|p + [x]| - 1] == p;
      CountSumSnoc(p, x, keys[1..]);
      assert x in keys <==> x == keys[0] || x in keys[1..];
    }
  }

  lemma {:induction false} OccurrencesEmpty<T>(s: seq<T>, x: T)
    requires x !in s
    ensures Occurrences(s, x) == 0
  {
    if s != [] {
      OccurrencesEmpty(s[..|s| - 1], x);
    }
  }

  lemma {:induction false} CountSumAppend<T>(s: seq<T>, keys: seq<T>, x: T)
    ensures CountSum(s, keys + [x]) == CountSum(s, keys) + Occurrences(s, x)
  {
    if keys != [] {
      assert (keys + [x])[1..] == keys[1..] + [x];
      CountSumAppend(s, keys[1..], x);
    }
  }

  /** Every element of `s` is counted exactly once under its first-seen key. */
  lemma {:induction false} FirstSeenCountsAll<T>(s: seq<T>)
    ensures CountSum(s, FirstSeen(s)) == |s|
  {
    if s != [] {
      var p, x := s[..|s| - 1], s[|s| - 1];
      assert s == p + [x];
      FirstSeenCountsAll(p);
      FirstSeenDistinct(p);
      FirstSeenMembers(p);
      var fp := FirstSeen(p);
      CountSumSnoc(p, x, fp);
      if x !in fp {
        CountSumAppend(s, fp, x);
        CountSumSnoc(p, x, fp);
        assert Occurrences(s, x) == Occurrences(p, x) + 1;
        OccurrencesEmpty(p, x);
      }
    }
  }
}
