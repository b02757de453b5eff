/**
 Sorting as Python's `sorted` does it: stable, by a total preorder.  A stable insertion sort stands
 for the library routine; `SortedUnique` shows that under an antisymmetric order the result depends
 on the elements alone, so nothing hangs on that choice.
 */
module Order {
  import opened Prelude

  ghost predicate TotalPreorder<T(!new)>(leq: (T, T) -> bool) {
    && (forall a, b :: leq(a, b) || leq(b, a))
    && (forall a, b, c :: leq(a, b) && leq(b, c) ==> leq(a, c))
  }

  ghost predicate Antisymmetric<T(!new)>(leq: (T, T) -> bool) {
    forall a, b :: leq(a, b) && leq(b, a) ==> a == b
  }

  predicate Sorted<T>(leq: (T, T) -> bool, s: seq<T>) {
    forall i, j :: 0 <= i < j < |s| ==> leq(s[i], s[j])
  }

  function Insert<T>(leq: (T, T) -> bool, x: T, s: seq<T>): seq<T> {
    if s == [] then [x]
    else if leq(x, s[0]) then [x] + s
    else [s[0]] + Insert(leq, x, s[1..])
  }

  function Sort<T>(leq: (T, T) -> bool, s: seq<T>): seq<T> {
    if s == [] then [] else Insert(leq, s[0], Sort(leq, s[1..]))
  }

  lemma {:induction false} InsertElements<T>(leq: (T, T) -> bool, x: T, s: seq<T>)
    ensures multiset(Insert(leq, x, s)) == multiset(s) + multiset{x}
  {
    if s != [] && !leq(x, s[0]) {
      var rest := s[1..];
      assert s == [s[0]] + rest;
      InsertElements(leq, x, rest);
      assert multiset([s[0]] + Insert(leq, x, rest)) == multiset{s[0]} + multiset(rest) + multiset{x};
    }
  }

  lemma SortedCons<T(!new)>(leq: (T, T) -> bool, x: T, s: seq<T>)
    requires Sorted(leq, s)
    requires forall y :: y in multiset(s) ==> leq(x, y)
    ensures Sorted(leq, [x] + s)
  {
    forall i, j | 0 <= i < j < |s| + 1
      ensures leq(([x] + s)[i], ([x] + s)[j])
    {
      assert s[j - 1] in multiset(s);
    }
  }

  lemma {:induction false} InsertSorted<T(!new)>(leq: (T, T) -> bool, x: T, s: seq<T>)
    requires TotalPreorder(leq) && Sorted(leq, s)
    ensures Sorted(leq, Insert(leq, x, s))
  {
    if s != [] {
      forall y | y in multiset(s)
        ensures leq(s[0], y)
      {
        var j :| 0 <= j < |s| && s[j] == y;
        if j > 0 { assert leq(s[0], s[j]); }
      }
      if leq(x, s[0]) {
        SortedCons(leq, x, s);
      } else {
        InsertSorted(leq, x, s[1..]);
        InsertElements(leq, x, s[1..]);
        assert s == [s[0]] + s[1..];
        SortedCons(leq, s[0], Insert(leq, x, s[1..]));
      }
    }
  }

  lemma {:induction false} SortElements<T>(leq: (T, T) -> bool, s: seq<T>)
    ensures multiset(Sort(leq, s)) == multiset(s)
  {
    if s != [] {
      SortElements(leq, s[1..]);
      InsertElements(leq, s[0], Sort(leq, s[1..]));
      assert s == [s[0]] + s[1..];
    }
  }

  lemma {:induction false} SortSorts<T(!new)>(leq: (T, T) -> bool, s: seq<T>)
    requires TotalPreorder(leq)
    ensures Sorted(leq, Sort(leq, s))
  {
    if s != [] {
      SortSorts(leq, s[1..]);
      InsertSorted(leq, s[0], Sort(leq, s[1..]));
    }
  }

  lemma SamePieces<T(!new)>(s: seq<T>, t: seq<T>)
    requires multiset(s) == multiset(t)
    ensures |s| == |t| && forall x :: x in s <==> x in t
  {
    assert |multiset(t)| == |t| && |multiset(s)| == |s|;
    forall x ensures x in t <==> x in s {
      assert x in t <==> x in multiset(t);
      assert x in s <==> x in multiset(s);
    }
  }

  lemma SortCorrect<T(!new)>(leq: (T, T) -> bool, s: seq<T>)
    requires TotalPreorder(leq)
    ensures Sorted(leq, Sort(leq, s))
    ensures multiset(Sort(leq, s)) == multiset(s)
    ensures |Sort(leq, s)| == |s|
    ensures forall x :: x in Sort(leq, s) <==> x in s
  {
    SortElements(leq, s);
    SortSorts(leq, s);
    SamePieces(s, Sort(leq, s));
  }

  /** No two members of s tie. */
  ghost predicate NoTies<T(!new)>(leq: (T, T) -> bool, s: seq<T>) {
    forall a, b :: a in s && b in s && leq(a, b) && leq(b, a) ==> a == b
  }

  lemma HeadsAgree<T(!new)>(leq: (T, T) -> bool, s: seq<T>, t: seq<T>)
    requires s != [] && t != []
    requires Sorted(leq, s) && Sorted(leq, t) && multiset(s) == multiset(t) && NoTies(leq, s)
    ensures s[0] == t[0]
  {
    assert s[0] in multiset(t) && t[0] in multiset(s);
    var i :| 0 <= i < |t| && t[i] == s[0];
    var j :| 0 <= j < |s| && s[j] == t[0];
    if i > 0 && j > 0 {
      assert leq(t[0], t[i]) && leq(s[0], s[j]);
    }
  }

  lemma RestMultiset<T>(s: seq<T>)
    requires s != []
    ensures multiset(s[1..]) == multiset(s) - multiset{s[0]}
    ensures forall x :: x in s[1..] ==> x in s
  {
    assert s == [s[0]] + s[1..];
  }

  lemma RestSorted<T>(leq: (T, T) -> bool, s: seq<T>)
    requires s != [] && Sorted(leq, s)
    ensures Sorted(leq, s[1..])
  {
  }

  /** One step of the comparison: equal heads, and rests of which the same can be said. */
  lemma SortedRests<T(!new)>(leq: (T, T) -> bool, s: seq<T>, t: seq<T>)
    requires s != [] && Sorted(leq, s) && Sorted(leq, t) && multiset(s) == multiset(t) && NoTies(leq, s)
    ensures t != [] && s[0] == t[0]
    ensures Sorted(leq, s[1..]) && Sorted(leq, t[1..]) && multiset(s[1..]) == multiset(t[1..]) && NoTies(leq, s[1..])
  {
    assert s[0] in multiset(t);
    HeadsAgree(leq, s, t);
    RestMultiset(s);
    RestMultiset(t);
    RestSorted(leq, s);
    RestSorted(leq, t);
  }

  /** Sorted lists over the same elements are equal when no two elements tie. */
  lemma {:induction false} SortedUnique<T(!new)>(leq: (T, T) -> bool, s: seq<T>, t: seq<T>)
    requires Sorted(leq, s) && Sorted(leq, t) && multiset(s) == multiset(t) && NoTies(leq, s)
    ensures s == t
  {
    if s == [] {
      assert |multiset(t)| == |t| && |multiset(s)| == 0;
    } else {
      SortedRests(leq, s, t);
      SortedUnique(leq, s[1..], t[1..]);
      assert s == [s[0]] + s[1..] && t == [t[0]] + t[1..];
    }
  }

  /** A permutation of the input does not change the sorted result. */
  lemma SortPermutation<T(!new)>(leq: (T, T) -> bool, s: seq<T>, t: seq<T>)
    requires TotalPreorder(leq) && multiset(s) == multiset(t) && NoTies(leq, s)
    ensures Sort(leq, s) == Sort(leq, t)
  {
    SortCorrect(leq, s);
    SortCorrect(leq, t);
    SortedUnique(leq, Sort(leq, s), Sort(leq, t));
  }

  // ----- elements that tie -----

  lemma {:induction false} InsertStable<T(!new)>(leq: (T, T) -> bool, x: T, s: seq<T>, y: T, ties: T -> bool)
    requires TotalPreorder(leq) && forall z :: ties(z) <==> leq(z, y) && leq(y, z)
    ensures Filter(ties, Insert(leq, x, s)) == if ties(x) then [x] + Filter(ties, s) else Filter(ties, s)
  {
    if s == [] || leq(x, s[0]) {
      FilterCons(ties, x, s);
      assert [x] + [] == [x];
    } else {
      InsertStable(leq, x, s[1..], y, ties);
      FilterCons(ties, s[0], Insert(leq, x, s[1..]));
      assert s == [s[0]] + s[1..];
    }
  }

  /** Elements that tie keep their order. */
  lemma {:induction false} SortStable<T(!new)>(leq: (T, T) -> bool, s: seq<T>, y: T, ties: T -> bool)
    requires TotalPreorder(leq) && forall z :: ties(z) <==> leq(z, y) && leq(y, z)
    ensures Filter(ties, Sort(leq, s)) == Filter(ties, s)
  {
    if s != [] {
      SortStable(leq, s[1..], y, ties);
      InsertStable(leq, s[0], Sort(leq, s[1..]), y, ties);
    }
  }

  // ----- code-point order on strings -----

  predicate StringLeq(a: string, b: string) {
    a == [] || (b != [] && (a[0] < b[0] || (a[0] == b[0] && StringLeq(a[1..], b[1..]))))
  }

  lemma {:induction false} StringTotal(a: string, b: string)
    ensures StringLeq(a, b) || StringLeq(b, a)
  {
    if a != [] && b != [] { StringTotal(a[1..], b[1..]); }
  }

  lemma {:induction false} StringTransitive(a: string, b: string, c: string)
    requires StringLeq(a, b) && StringLeq(b, c)
    ensures StringLeq(a, c)
  {
    if a != [] && a[0] == b[0] == c[0] { StringTransitive(a[1..], b[1..], c[1..]); }
  }

  lemma {:induction false} StringAntisymmetric(a: string, b: string)
    requires StringLeq(a, b) && StringLeq(b, a)
    ensures a == b
  {
    if a != [] {
      StringAntisymmetric(a[1..], b[1..]);
      assert a == [a[0]] + a[1..] && b == [b[0]] + b[1..];
    }
  }

  ghost predicate FirstDifference(a: string, b: string, i: nat) { i < |a| && i < |b| && a[..i] == b[..i] && a[i] != b[i] }

  lemma {:induction false} LeqDiffers(a: string, b: string) returns (i: nat)
    requires StringLeq(a, b) && !(a <= b)
    ensures FirstDifference(a, b, i) && a[i] < b[i]
  {
    i := 0;
    if a[0] == b[0] {
      assert a == [a[0]] + a[1..] && b == [b[0]] + b[1..];
      var j := LeqDiffers(a[1..], b[1..]);
      i := j + 1;
      assert a[..i] == [a[0]] + a[1..][..j] && b[..i] == [b[0]] + b[1..][..j];
    }
  }

  lemma {:induction false} DiffersLeq(a: string, b: string, i: nat)
    requires FirstDifference(a, b, i) && a[i] < b[i]
    ensures StringLeq(a, b)
  {
    if i > 0 {
      assert a[..i][0] == b[..i][0];
      assert a[1..][..i - 1] == a[..i][1..] && b[1..][..i - 1] == b[..i][1..];
      DiffersLeq(a[1..], b[1..], i - 1);
    }
  }

  lemma {:induction false} PrefixLeq(a: string, b: string)
    requires a <= b
    ensures StringLeq(a, b)
  {
    if a != [] { PrefixLeq(a[1..], b[1..]); }
  }

  /** A text comes before those it begins, and before those that have a greater character where the two first differ. */
  lemma StringLeqIs(a: string, b: string)
    ensures StringLeq(a, b) <==> a <= b || exists i: nat :: FirstDifference(a, b, i) && a[i] < b[i]
  {
    if a <= b {
      PrefixLeq(a, b);
    } else if StringLeq(a, b) {
      var i := LeqDiffers(a, b);
    } else if exists i: nat :: FirstDifference(a, b, i) && a[i] < b[i] {
      var i: nat :| FirstDifference(a, b, i) && a[i] < b[i];
      DiffersLeq(a, b, i);
    }
  }

  lemma StringOrder()
    ensures TotalPreorder(StringLeq) && Antisymmetric(StringLeq)
  {
    forall a, b ensures StringLeq(a, b) || StringLeq(b, a) { StringTotal(a, b); }
    forall a, b, c | StringLeq(a, b) && StringLeq(b, c) ensures StringLeq(a, c) { StringTransitive(a, b, c); }
    forall a, b | StringLeq(a, b) && StringLeq(b, a) ensures a == b { StringAntisymmetric(a, b); }
  }
}
