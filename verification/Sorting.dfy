/** Insertion sort over an arbitrary total preorder, and why its result is canonical. */
module Sorting {
  import opened Common

  ghost predicate TotalPreorder<T(!new)>(leq: (T, T) -> bool) {
    && (forall x, y :: leq(x, y) || leq(y, x))
    && (forall x, y, z :: leq(x, y) && leq(y, z) ==> leq(x, z))
  }

  ghost predicate Ordered<T>(leq: (T, T) -> bool, s: seq<T>) {
    forall i, j :: 0 <= i < j < |s| ==> leq(s[i], s[j])
  }

  // No two different elements of s are tied.
  ghost predicate Untied<T>(leq: (T, T) -> bool, s: seq<T>) {
    forall x, y :: x in s && y in s && leq(x, y) && leq(y, x) ==> x == y
  }

  function Insert<T>(leq: (T, T) -> bool, x: T, s: seq<T>): (r: seq<T>)
    ensures |r| == |s| + 1
  {
    if s == [] || leq(x, s[0]) then [x] + s else [s[0]] + Insert(leq, x, s[1..])
  }

  function Sorted<T>(leq: (T, T) -> bool, s: seq<T>): (r: seq<T>)
    ensures |r| == |s|
  {
    if s == [] then [] else Insert(leq, s[0], Sorted(leq, s[1..]))
  }

  // Everything in an insertion is above a common lower bound.
  lemma {:induction false} InsertAbove<T>(leq: (T, T) -> bool, x: T, s: seq<T>, low: T)
    requires leq(low, x)
    requires forall i :: 0 <= i < |s| ==> leq(low, s[i])
    ensures forall i :: 0 <= i < |Insert(leq, x, s)| ==> leq(low, Insert(leq, x, s)[i])
  {
    if s != [] && !leq(x, s[0]) {
      InsertAbove(leq, x, s[1..], low);
    }
  }

  lemma {:induction false} InsertIsOrdered<T(!new)>(leq: (T, T) -> bool, x: T, s: seq<T>)
    requires TotalPreorder(leq) && Ordered(leq, s)
    ensures Ordered(leq, Insert(leq, x, s))
  {
    if s != [] && !leq(x, s[0]) {
      var rest := Insert(leq, x, s[1..]);
      InsertIsOrdered(leq, x, s[1..]);
      InsertAbove(leq, x, s[1..], s[0]);
      forall i, j | 0 <= i < j < |rest| + 1 ensures leq(([s[0]] + rest)[i], ([s[0]] + rest)[j]) {
        assert ([s[0]] + rest)[j] == rest[j - 1];
      }
    }
  }

  lemma {:induction false} InsertAdds<T>(leq: (T, T) -> bool, x: T, s: seq<T>)
    ensures multiset(Insert(leq, x, s)) == multiset(s) + multiset{x}
  {
    if s != [] && !leq(x, s[0]) {
      InsertAdds(leq, x, s[1..]);
      assert s == [s[0]] + s[1..];
    }
  }

  lemma {:induction false} SortedIsPermutation<T>(leq: (T, T) -> bool, s: seq<T>)
    ensures multiset(Sorted(leq, s)) == multiset(s)
  {
    if s != [] {
      SortedIsPermutation(leq, s[1..]);
      InsertAdds(leq, s[0], Sorted(leq, s[1..]));
      assert s == [s[0]] + s[1..];
    }
  }

  lemma {:induction false} SortedIsOrdered<T(!new)>(leq: (T, T) -> bool, s: seq<T>)
    requires TotalPreorder(leq)
    ensures Ordered(leq, Sorted(leq, s))
  {
    if s != [] {
      SortedIsOrdered(leq, s[1..]);
      InsertIsOrdered(leq, s[0], Sorted(leq, s[1..]));
    }
  }

  lemma OrderedHeads<T>(leq: (T, T) -> bool, a: seq<T>, b: seq<T>)
    requires Ordered(leq, a) && Ordered(leq, b) && multiset(a) == multiset(b) && a != [] && b != []
    requires Untied(leq, a)
    ensures a[0] == b[0]
  {
    assert a[0] in multiset(b) && b[0] in multiset(a);
    var i :| 0 <= i < |b| && b[i] == a[0];
    var j :| 0 <= j < |a| && a[j] == b[0];
  }

  lemma SameHeads<T>(a: seq<T>, b: seq<T>)
    requires a != [] && b != [] && a[0] == b[0] && multiset(a) == multiset(b)
    ensures multiset(a[1..]) == multiset(b[1..])
  {
    assert a == [a[0]] + a[1..] && b == [b[0]] + b[1..];
    assert multiset(a[1..]) == multiset(a) - multiset{a[0]} == multiset(b[1..]);
  }

  // Without ties an ordered sequence is determined by its elements.
  lemma {:induction false} OrderedIsUnique<T>(leq: (T, T) -> bool, a: seq<T>, b: seq<T>)
    requires Ordered(leq, a) && Ordered(leq, b) && multiset(a) == multiset(b) && Untied(leq, a)
    ensures a == b
  {
    assert |a| == |multiset(a)| == |multiset(b)| == |b|;
    if a != [] {
      OrderedHeads(leq, a, b);
      SameHeads(a, b);
      OrderedIsUnique(leq, a[1..], b[1..]);
    }
  }

  /** Sorting forgets the order the elements were given in, as long as no two of them
      are tied. */
  lemma SortedIsCanonical<T(!new)>(leq: (T, T) -> bool, a: seq<T>, b: seq<T>)
    requires TotalPreorder(leq) && multiset(a) == multiset(b) && Untied(leq, a)
    ensures Sorted(leq, a) == Sorted(leq, b)
  {
    SortedIsPermutation(leq, a);
    SortedIsPermutation(leq, b);
    SortedIsOrdered(leq, a);
    SortedIsOrdered(leq, b);
    assert forall x :: x in Sorted(leq, a) ==> x in multiset(a) && x in a;
    OrderedIsUnique(leq, Sorted(leq, a), Sorted(leq, b));
  }

  lemma SortedHasSameElements<T>(leq: (T, T) -> bool, s: seq<T>)
    ensures forall x :: x in Sorted(leq, s) <==> x in s
  {
    SortedIsPermutation(leq, s);
    assert forall x :: x in Sorted(leq, s) <==> x in multiset(Sorted(leq, s));
    assert forall x :: x in s <==> x in multiset(s);
  }

  // The first element can be found in any rearrangement and removed from both.
  lemma TakeOut<T>(a: seq<T>, b: seq<T>) returns (j: nat)
    requires a != [] && multiset(a) == multiset(b)
    ensures j < |b| && b[j] == a[0]
    ensures multiset(a[1..]) == multiset(b[..j] + b[j + 1..])
  {
    assert a[0] in multiset(b);
    j :| 0 <= j < |b| && b[j] == a[0];
    assert a == [a[0]] + a[1..] && b == b[..j] + [b[j]] + b[j + 1..];
    forall x ensures multiset(a[1..])[x] == multiset(b[..j] + b[j + 1..])[x] {
      assert multiset(a)[x] == multiset{a[0]}[x] + multiset(a[1..])[x];
      assert multiset(b)[x] == multiset(b[..j])[x] + multiset{b[j]}[x] + multiset(b[j + 1..])[x];
    }
  }

  predicate NoRepeats<T(==)>(s: seq<T>) {
    forall i, j :: 0 <= i < j < |s| ==> s[i] != s[j]
  }

  lemma {:induction false} NoRepeatsMeansOnce<T>(s: seq<T>)
    ensures NoRepeats(s) <==> forall x :: multiset(s)[x] <= 1
  {
    if s != [] {
      NoRepeatsMeansOnce(s[1..]);
      assert s == [s[0]] + s[1..];
      if NoRepeats(s) {
        assert forall j :: 0 <= j < |s[1..]| ==> s[1..][j] == s[j + 1];
        assert s[0] !in multiset(s[1..]);
      } else if NoRepeats(s[1..]) {
        var i, j :| 0 <= i < j < |s| && s[i] == s[j];
        assert s[1..][j - 1] == s[j];
        assert i == 0;
        assert multiset(s)[s[0]] >= 2;
      } else {
        var x :| multiset(s[1..])[x] > 1;
        assert multiset(s)[x] > 1;
      }
    }
  }

  /** A rearrangement repeats nothing that the original does not repeat. */
  lemma NoRepeatsSurvives<T>(a: seq<T>, b: seq<T>)
    requires NoRepeats(a) && multiset(a) == multiset(b)
    ensures NoRepeats(b)
  {
    NoRepeatsMeansOnce(a);
    NoRepeatsMeansOnce(b);
  }
}
