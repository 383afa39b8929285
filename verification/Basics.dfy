/** What several modules share. */
module Basics {

  type Byte = b: int | 0 <= b < 256

  datatype Option<+T> = None | Some(value: T)

  /** A second in nanoseconds. */
  const SECOND := 1_000_000_000

  predicate Distinct<T(==)>(xs: seq<T>) {
    forall i, j :: 0 <= i < j < |xs| ==> xs[i] != xs[j]
  }

  /** A subset is no larger. */
  lemma SubsetSize<T>(a: set<T>, b: set<T>)
    requires a <= b
    ensures |a| <= |b|
  {
    assert b == a + (b - a);
  }

  /** The first n parts, one after the other. */
  function Joined<T>(parts: seq<seq<T>>, n: nat): seq<T>
    requires n <= |parts|
  {
    if n == 0 then [] else Joined(parts, n - 1) + parts[n - 1]
  }

  lemma {:induction false} JoinedHas<T>(parts: seq<seq<T>>, n: nat, x: T)
    requires n <= |parts|
    ensures x in Joined(parts, n) <==> exists i :: 0 <= i < n && x in parts[i]
  {
    if n > 0 {
      JoinedHas(parts, n - 1, x);
      if i :| 0 <= i < n && x in parts[i] {
        assert i < n - 1 || x in parts[n - 1];
      }
    }
  }

  lemma DistinctConcat<T>(a: seq<T>, b: seq<T>)
    requires Distinct(a) && Distinct(b) && forall i :: 0 <= i < |a| ==> a[i] !in b
    ensures Distinct(a + b)
  {
    forall i, j | 0 <= i < j < |a + b| ensures (a + b)[i] != (a + b)[j] {
      if i < |a| <= j {
        assert a[i] !in b && b[j - |a|] in b;
      }
    }
  }

  lemma {:induction false} JoinedDistinct<T>(parts: seq<seq<T>>, n: nat)
    requires n <= |parts| && forall i :: 0 <= i < |parts| ==> Distinct(parts[i])
    requires forall i, j, x :: 0 <= i < j < |parts| && x in parts[i] ==> x !in parts[j]
    ensures Distinct(Joined(parts, n))
  {
    if n > 0 {
      var before := Joined(parts, n - 1);
      JoinedDistinct(parts, n - 1);
      forall k | 0 <= k < |before| ensures before[k] !in parts[n - 1] {
        JoinedHas(parts, n - 1, before[k]);
        var i :| 0 <= i < n - 1 && before[k] in parts[i];
      }
      DistinctConcat(before, parts[n - 1]);
    }
  }
}
