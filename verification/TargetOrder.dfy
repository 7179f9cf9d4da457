/** Targets in ascending position, as the guarded flow processes them. */
module TargetOrder {
  import opened Gathering

  function Insert(t: Target, sorted: seq<Target>): seq<Target> {
    if sorted == [] then [t]
    else if t.index <= sorted[0].index then [t] + sorted
    else [sorted[0]] + Insert(t, sorted[1..])
  }

  function SortByIndex(targets: seq<Target>): seq<Target> {
    if targets == [] then [] else Insert(targets[0], SortByIndex(targets[1..]))
  }

  ghost predicate Ascending(targets: seq<Target>) {
    |targets| <= 1 || (targets[0].index <= targets[1].index && Ascending(targets[1..]))
  }

  lemma {:induction false} InsertKeeps(t: Target, sorted: seq<Target>)
    ensures multiset(Insert(t, sorted)) == multiset(sorted) + multiset{t}
    ensures forall x :: x in Insert(t, sorted) ==> x == t || x in sorted
  {
    if sorted != [] && t.index > sorted[0].index {
      InsertKeeps(t, sorted[1..]);
      assert sorted == [sorted[0]] + sorted[1..];
    }
  }

  lemma {:induction false} InsertSorts(t: Target, sorted: seq<Target>)
    requires Ascending(sorted)
    ensures Ascending(Insert(t, sorted))
  {
    if sorted != [] && t.index > sorted[0].index {
      var rest := Insert(t, sorted[1..]);
      InsertSorts(t, sorted[1..]);
      assert Insert(t, sorted)[1..] == rest;
    } else {
      assert Insert(t, sorted)[1..] == sorted;
    }
  }

  lemma {:induction false} SortByIndexSorts(targets: seq<Target>)
    ensures Ascending(SortByIndex(targets))
    ensures multiset(SortByIndex(targets)) == multiset(targets)
  {
    if targets != [] {
      var rest := SortByIndex(targets[1..]);
      SortByIndexSorts(targets[1..]);
      InsertSorts(targets[0], rest);
      InsertKeeps(targets[0], rest);
      assert targets == [targets[0]] + targets[1..];
    }
  }

  lemma SortedMembers(targets: seq<Target>)
    ensures |SortByIndex(targets)| == |targets|
    ensures forall t :: t in SortByIndex(targets) <==> t in targets
  {
    SortByIndexSorts(targets);
    SameMembers(SortByIndex(targets), targets);
  }

  lemma SameMembers<T>(a: seq<T>, b: seq<T>)
    requires multiset(a) == multiset(b)
    ensures |a| == |b| && forall x :: x in a <==> x in b
  {
    assert |multiset(a)| == |a| && |multiset(b)| == |b|;
    assert forall x :: x in a <==> x in multiset(a);
    assert forall x :: x in b <==> x in multiset(b);
  }
}
