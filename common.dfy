/** Small value types and sequence helpers shared by every module of the model. */
module Common {

  datatype Option<T> = None | Some(value: T)

  /** `s` has no repeated element. */
  ghost predicate NoDup<T>(s: seq<T>)
  {
    forall i, j :: 0 <= i < j < |s| ==> s[i] != s[j]
  }

  /** The ascending sequence 0, 1, ..., n-1. */
  function Range(n: nat): (r: seq<nat>)
    ensures |r| == n
    ensures forall i :: 0 <= i < n ==> r[i] == i
  {
    if n == 0 then [] else Range(n - 1) + [n - 1]
  }

  /** `s` is strictly increasing. */
  ghost predicate StrictlyIncreasing(s: seq<nat>)
  {
    forall i, j :: 0 <= i < j < |s| ==> s[i] < s[j]
  }

  /** Every element of `0..n-1` occurs exactly once in `Range(n)`. */
  lemma {:induction false} RangeMultiplicity(n: nat, x: nat)
    ensures multiset(Range(n))[x] == if x < n then 1 else 0
  {
    if n > 0 {
      RangeMultiplicity(n - 1, x);
      assert Range(n) == Range(n - 1) + [n - 1];
      assert multiset(Range(n))[x] == multiset(Range(n - 1))[x] + (if x == n - 1 then 1 else 0);
    }
  }

  /** A sequence in which nothing occurs twice has no repeated element. */
  lemma MultiplicityOneNoDup<T>(s: seq<T>)
    requires forall x :: multiset(s)[x] <= 1
    ensures NoDup(s)
  {
    forall i, j | 0 <= i < j < |s|
      ensures s[i] != s[j]
    {
      assert s == s[..i] + [s[i]] + s[i + 1..j] + [s[j]] + s[j + 1..];
      assert multiset(s)[s[i]] >= 1 + multiset([s[j]])[s[i]];
    }
  }

  /** `acc` with `x` appended, unless `x` is in it already. */
  function AddNew<T(==)>(acc: seq<T>, x: T): seq<T>
  {
    if x in acc then acc else acc + [x]
  }

  /** The elements of `s`, each once, in the order of their first occurrence. */
  function Dedup<T(==)>(s: seq<T>): seq<T>
  {
    if s == [] then [] else AddNew(Dedup(s[..|s| - 1]), s[|s| - 1])
  }

  /** Dedup keeps exactly the elements of `s`, once each, and no more of them than `s` has. */
  lemma {:induction false} DedupFacts<T>(s: seq<T>)
    ensures NoDup(Dedup(s))
    ensures forall x :: x in Dedup(s) <==> x in s
    ensures |Dedup(s)| <= |s|
  {
    if s != [] {
      var init := s[..|s| - 1];
      DedupFacts(init);
      assert s == init + [s[|s| - 1]];
    }
  }

  /** Deduplicating one more element adds it unless it is already there. */
  lemma DedupSnoc<T>(s: seq<T>, x: T)
    ensures Dedup(s + [x]) == AddNew(Dedup(s), x)
  {
    assert (s + [x])[..|s|] == s;
  }

  /** First-occurrence order: deduplicating a prefix gives a prefix of the result. */
  lemma {:induction false} DedupPrefix<T>(s: seq<T>, k: nat)
    requires k <= |s|
    ensures Dedup(s[..k]) <= Dedup(s)
  {
    if k < |s| {
      var init := s[..|s| - 1];
      DedupPrefix(init, k);
      assert init[..k] == s[..k];
    } else {
      assert s[..k] == s;
    }
  }

  /** The position of the first occurrence of `x` in `s`. */
  function IndexOf<T(==)>(s: seq<T>, x: T): (i: nat)
    requires x in s
    ensures i < |s| && s[i] == x
    ensures forall j | 0 <= j < i :: s[j] != x
  {
    if s[0] == x then 0 else 1 + IndexOf(s[1..], x)
  }

  /** A position holding `x` with no `x` before it is the first occurrence. */
  lemma IndexOfUnique<T>(s: seq<T>, x: T, i: nat)
    requires i < |s| && s[i] == x
    requires forall j | 0 <= j < i :: s[j] != x
    ensures IndexOf(s, x) == i
  {
    var k := IndexOf(s, x);
    assert !(k < i) && !(i < k);
  }

  /** Appending to a sequence does not move the first occurrence of what it already holds. */
  lemma IndexOfExtend<T>(a: seq<T>, b: seq<T>, x: T)
    requires x in a
    ensures x in a + b && IndexOf(a + b, x) == IndexOf(a, x)
  {
    var i := IndexOf(a, x);
    assert (a + b)[i] == x;
    forall j | 0 <= j < i ensures (a + b)[j] != x {
      assert (a + b)[j] == a[j];
    }
    IndexOfUnique(a + b, x, i);
  }

  /** The numbers 0, 1, ..., n-1 as a set. */
  function Below(n: nat): (r: set<int>)
    ensures |r| == n
    ensures forall x :: x in r <==> 0 <= x < n
  {
    if n == 0 then {} else
      var r := Below(n - 1);
      assert n - 1 !in r;
      r + {n - 1}
  }

  /** A sequence without repetitions has as many distinct elements as it is long. */
  lemma {:induction false} NoDupCard<T>(s: seq<T>)
    requires NoDup(s)
    ensures |set x | x in s| == |s|
  {
    if s != [] {
      var init := s[..|s| - 1];
      NoDupCard(init);
      var last := s[|s| - 1];
      assert (set x | x in s) == (set x | x in init) + {last};
      assert last !in (set x | x in init);
    }
  }

  lemma {:induction false} SubsetCard<T>(a: set<T>, b: set<T>)
    requires a <= b
    ensures |a| <= |b|
    decreases a
  {
    if a != {} {
      var x :| x in a;
      SubsetCard(a - {x}, b - {x});
    }
  }

  /** Pigeonhole: distinct numbers below `n` are at most `n` many. */
  lemma NoDupBelow(s: seq<int>, n: nat)
    requires NoDup(s)
    requires forall x | x in s :: 0 <= x < n
    ensures |s| <= n
  {
    NoDupCard(s);
    var r := Below(n);
    SubsetCard((set x | x in s), r);
  }
}

/** The time interval of the vex data model: a start and a stop in modified Julian days. */
module Intervals {

  datatype Interval = Interval(mjdStart: real, mjdStop: real)

  const SecondsPerDay: real := 86400.0

  /** Length of the interval in days. */
  function Duration(iv: Interval): real
  {
    iv.mjdStop - iv.mjdStart
  }

  /** Length of the interval in seconds. */
  function DurationSeconds(iv: Interval): real
  {
    Duration(iv) * SecondsPerDay
  }
}
