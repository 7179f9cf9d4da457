/** Results, byte strings and the counting facts shared by the other modules. */
module Basics {

  type byte = x: int | 0 <= x < 256
  type Bytes = seq<byte>

  datatype Option<+T> = None | Some(value: T)

  datatype Result<+T, +E> = Success(value: T) | Failure(error: E)

  predicate Distinct<T(==)>(s: seq<T>) {
    forall i, j :: 0 <= i < j < |s| ==> s[i] != s[j]
  }

  lemma ConcatFirst<T>(a: seq<T>, b: seq<T>)
    requires b != []
    ensures a + b == a + [b[0]] + b[1..]
  {
  }

  lemma ConcatLast<T>(a: seq<T>, b: seq<T>)
    requires b != []
    ensures a + b == a + b[..|b| - 1] + [b[|b| - 1]]
  {
  }

  lemma ConcatNothing<T>(a: seq<T>)
    ensures a + [] == a
  {
  }

  lemma SplitLast<T>(a: seq<T>)
    requires a != []
    ensures a == a[..|a| - 1] + [a[|a| - 1]]
  {
  }

  lemma ConcatAssociates<T>(a: seq<T>, b: seq<T>, c: seq<T>)
    ensures a + (b + c) == a + b + c
  {
  }

  ghost function Elements<T>(s: seq<T>): set<T> {
    set x | x in s
  }

  /** The positions `s` lists are pairwise distinct and are exactly `0..n`. */
  ghost predicate Covers(s: seq<int>, n: int) {
    && Distinct(s)
    && forall i :: i in s <==> 0 <= i < n
  }

  /** Any element: the clients iterate over maps in no promised order. */
  method Pick<T(==)>(s: set<T>) returns (x: T)
    requires s != {}
    ensures x in s
  {
    x :| x in s;
  }

  lemma DistinctConcat(b: seq<int>, d: seq<int>)
    requires Distinct(b) && Distinct(d) && forall i :: !(i in b && i in d)
    ensures Distinct(b + d)
  {
    var all := b + d;
    forall i, j | 0 <= i < j < |all| ensures all[i] != all[j] {
      if i < |b| <= j {
        assert all[i] in b && all[j] in d;
      }
    }
  }

  lemma CoversConcat(a: seq<int>, b: seq<int>, n: int)
    requires Distinct(a) && Distinct(b)
    requires forall i :: i in a || i in b <==> 0 <= i < n
    requires forall i :: !(i in a && i in b)
    ensures Covers(a + b, n)
  {
    var all := a + b;
    forall i, j | 0 <= i < j < |all| ensures all[i] != all[j] {
      if i < |a| <= j {
        assert all[i] in a && all[j] in b;
      }
    }
  }

  lemma {:induction false} DistinctCardinality<T>(s: seq<T>)
    requires Distinct(s)
    ensures |Elements(s)| == |s|
  {
    if s == [] {
      assert Elements(s) == {};
    } else {
      var front, last := s[..|s| - 1], s[|s| - 1];
      DistinctCardinality(front);
      assert Elements(s) == Elements(front) + {last};
      assert last !in front;
    }
  }

  /** Pigeonhole: a subset with as many elements as the whole is the whole. */
  lemma SubsetExhausts<T>(part: set<T>, whole: set<T>)
    requires part <= whole && |part| == |whole|
    ensures part == whole
  {
    if exists x :: x in whole && x !in part {
      var x :| x in whole && x !in part;
      SubsetCardinality(part, whole - {x});
    }
  }

  /** As many distinct entries as `b` has, all of them from `b`: the same entries. */
  lemma SameIndices(a: seq<int>, b: seq<int>)
    requires Distinct(a) && Distinct(b) && |a| == |b| && forall i :: i in a ==> i in b
    ensures forall i :: i in b ==> i in a
  {
    DistinctCardinality(a);
    DistinctCardinality(b);
    SubsetExhausts(Elements(a), Elements(b));
    forall i | i in b ensures i in a {
      assert i in Elements(b);
    }
  }

  lemma {:induction false} SubsetCardinality<T>(a: set<T>, b: set<T>)
    requires a <= b
    ensures |a| <= |b|
  {
    if a != {} {
      var x :| x in a;
      SubsetCardinality(a - {x}, b - {x});
    }
  }

  ghost function Below(n: nat): (r: set<int>)
    ensures |r| == n && forall i :: i in r <==> 0 <= i < n
  {
    if n == 0 then {} else Below(n - 1) + {n - 1}
  }

  /** A list that covers `0..n` has exactly `n` entries. */
  lemma CoversCount(s: seq<int>, n: nat)
    requires Covers(s, n)
    ensures |s| == n
  {
    DistinctCardinality(s);
    assert Elements(s) == Below(n);
  }

  lemma TwiceInMultiset<T>(s: seq<T>, i: nat, j: nat)
    requires i < j < |s| && s[i] == s[j]
    ensures multiset(s)[s[i]] >= 2
  {
    assert s == s[..j] + [s[j]] + s[j + 1..];
    assert s[..j][i] == s[i];
    assert s[i] in multiset(s[..j]);
  }
}
