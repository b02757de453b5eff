/** Small shared vocabulary: optional values, slicing in Python's sense, and sequence maps and filters. */
module Prelude {
  datatype Option<+T> = None | Some(value: T)

  /** `s[:k]` of Python: a negative bound counts from the end. */
  function Take<T>(s: seq<T>, k: int): (r: seq<T>)
    ensures r <= s
    ensures 0 <= k ==> |r| == if k < |s| then k else |s|
  {
    if k >= 0 then (if k <= |s| then s[..k] else s)
    else if -k <= |s| then s[..|s| + k] else []
  }

  predicate All<T>(s: seq<T>, p: T -> bool) { forall i :: 0 <= i < |s| ==> p(s[i]) }

  function Map<A, B>(f: A -> B, s: seq<A>): (r: seq<B>)
    ensures |r| == |s|
    ensures forall i :: 0 <= i < |s| ==> r[i] == f(s[i])
  {
    if s == [] then [] else [f(s[0])] + Map(f, s[1..])
  }

  /** The concatenation of f's results. */
  function FlatMap<A, B>(f: A -> seq<B>, s: seq<A>): seq<B> {
    if s == [] then [] else FlatMap(f, s[..|s| - 1]) + f(s[|s| - 1])
  }

  lemma FlatMapMore<A, B>(f: A -> seq<B>, s: seq<A>, i: nat)
    requires i < |s|
    ensures FlatMap(f, s[..i + 1]) == FlatMap(f, s[..i]) + f(s[i])
  {
    assert s[..i + 1][..i] == s[..i];
  }

  lemma {:induction false} FlatMapAll<A, B>(f: A -> seq<B>, s: seq<A>, p: B -> bool)
    requires forall i :: 0 <= i < |s| ==> All(f(s[i]), p)
    ensures All(FlatMap(f, s), p)
  {
    if s != [] {
      FlatMapAll(f, s[..|s| - 1], p);
      AllAppend(FlatMap(f, s[..|s| - 1]), f(s[|s| - 1]), p);
    }
  }

  lemma {:induction false} FlatMapSingles<A, B>(f: A -> seq<B>, g: A -> B, s: seq<A>)
    requires forall i :: 0 <= i < |s| ==> f(s[i]) == [g(s[i])]
    ensures FlatMap(f, s) == Map(g, s)
  {
    if s != [] {
      var front, last := s[..|s| - 1], s[|s| - 1];
      FlatMapSingles(f, g, front);
      assert s == front + [last];
      MapAppend(g, front, [last]);
      assert Map(g, [last]) == [g(last)];
    }
  }

  lemma {:induction false} FlatMapSame<A>(f: A -> seq<A>, s: seq<A>)
    requires forall i :: 0 <= i < |s| ==> f(s[i]) == [s[i]]
    ensures FlatMap(f, s) == s
  {
    if s != [] { FlatMapSame(f, s[..|s| - 1]); }
  }

  lemma AllAppend<T>(a: seq<T>, b: seq<T>, p: T -> bool)
    requires All(a, p) && All(b, p)
    ensures All(a + b, p)
  {
    forall i | 0 <= i < |a + b| ensures p((a + b)[i]) { assert (a + b)[i] == if i < |a| then a[i] else b[i - |a|]; }
  }

  /** A loop that carries a state and may fail. */
  function Fold<A, S>(step: (S, A) -> Option<S>, start: S, s: seq<A>): Option<S> {
    if s == [] then Some(start)
    else
      match Fold(step, start, s[..|s| - 1])
      case Some(state) => step(state, s[|s| - 1])
      case None => None
  }

  lemma FoldMore<A, S>(step: (S, A) -> Option<S>, start: S, s: seq<A>, i: nat)
    requires i < |s|
    ensures Fold(step, start, s[..i + 1]) == match Fold(step, start, s[..i]) case Some(state) => step(state, s[i]) case None => None
  {
    assert s[..i + 1][..i] == s[..i];
  }

  lemma {:induction false} FoldFails<A, S>(step: (S, A) -> Option<S>, start: S, s: seq<A>, i: nat)
    requires i <= |s| && Fold(step, start, s[..i]).None?
    ensures Fold(step, start, s).None?
    decreases |s| - i
  {
    if i < |s| {
      FoldMore(step, start, s, i);
      FoldFails(step, start, s, i + 1);
    } else {
      assert s[..i] == s;
    }
  }

  lemma {:induction false} FoldKeeps<A(!new), S(!new)>(step: (S, A) -> Option<S>, start: S, s: seq<A>, inv: S -> bool)
    requires inv(start) && forall state, x :: inv(state) && step(state, x).Some? ==> inv(step(state, x).value)
    requires Fold(step, start, s).Some?
    ensures inv(Fold(step, start, s).value)
  {
    if s != [] { FoldKeeps(step, start, s[..|s| - 1], inv); }
  }

  /** When failing is up to the element alone, the loop fails exactly on a bad element. */
  lemma {:induction false} FoldFailsIff<A(!new), S(!new)>(step: (S, A) -> Option<S>, start: S, s: seq<A>, bad: A -> bool)
    requires forall state, x :: step(state, x).None? <==> bad(x)
    ensures Fold(step, start, s).None? <==> exists i :: 0 <= i < |s| && bad(s[i])
  {
    if s != [] {
      var n := |s| - 1;
      FoldFailsIff(step, start, s[..n], bad);
      if Fold(step, start, s).None? {
        if Fold(step, start, s[..n]).None? {
          var i :| 0 <= i < n && bad(s[..n][i]);
          assert bad(s[i]);
        } else {
          assert bad(s[n]);
        }
      } else {
        forall i | 0 <= i < |s| ensures !bad(s[i]) { if i < n { assert !bad(s[..n][i]); } }
      }
    }
  }

  /** All of f's results, or none when one is missing. */
  function Each<A, B>(f: A -> Option<B>, s: seq<A>): Option<seq<B>> {
    if s == [] then Some([])
    else
      match (Each(f, s[..|s| - 1]), f(s[|s| - 1]))
      case (Some(front), Some(last)) => Some(front + [last])
      case (_, _) => None
  }

  lemma {:induction false} EachIs<A, B>(f: A -> Option<B>, s: seq<A>, r: seq<B>)
    requires |s| == |r| && forall i :: 0 <= i < |s| ==> f(s[i]) == Some(r[i])
    ensures Each(f, s) == Some(r)
  {
    if s != [] {
      var n := |s| - 1;
      EachIs(f, s[..n], r[..n]);
      assert r == r[..n] + [r[n]];
    } else {
      assert r == [];
    }
  }

  lemma EachAppend<A, B>(f: A -> Option<B>, front: seq<A>, last: A)
    ensures Each(f, front + [last]) ==
      match (Each(f, front), f(last)) case (Some(r), Some(x)) => Some(r + [x]) case (_, _) => None
  {
    var all := front + [last];
    assert all[..|all| - 1] == front && all[|all| - 1] == last;
  }

  lemma {:induction false} EachConcat<A, B>(f: A -> Option<B>, a: seq<A>, b: seq<A>)
    ensures Each(f, a + b) == match (Each(f, a), Each(f, b)) case (Some(r), Some(t)) => Some(r + t) case (_, _) => None
  {
    if b == [] {
      assert a + b == a;
      if Each(f, a).Some? { assert Each(f, a).value + [] == Each(f, a).value; }
    } else {
      var n := |b| - 1;
      EachConcat(f, a, b[..n]);
      EachAppend(f, a + b[..n], b[n]);
      assert a + b == (a + b[..n]) + [b[n]];
      if Each(f, a).Some? && Each(f, b).Some? { Assoc(Each(f, a).value, Each(f, b[..n]).value, [f(b[n]).value]); }
    }
  }

  function Filter<T(!new)>(keep: T -> bool, s: seq<T>): (r: seq<T>)
    ensures |r| <= |s|
    ensures forall x :: x in r <==> x in s && keep(x)
  {
    if s == [] then []
    else if keep(s[0]) then [s[0]] + Filter(keep, s[1..])
    else Filter(keep, s[1..])
  }

  lemma Assoc<T>(a: seq<T>, b: seq<T>, c: seq<T>)
    ensures (a + b) + c == a + (b + c)
  {
  }

  lemma FilterCons<T(!new)>(keep: T -> bool, x: T, s: seq<T>)
    ensures Filter(keep, [x] + s) == if keep(x) then [x] + Filter(keep, s) else Filter(keep, s)
  {
    assert ([x] + s)[1..] == s;
  }

  lemma {:induction false} FilterAppend<T(!new)>(keep: T -> bool, s: seq<T>, t: seq<T>)
    ensures Filter(keep, s + t) == Filter(keep, s) + Filter(keep, t)
  {
    if s == [] {
      assert s + t == t;
    } else {
      var rest := s[1..];
      assert s == [s[0]] + rest;
      Assoc([s[0]], rest, t);
      FilterAppend(keep, rest, t);
      FilterCons(keep, s[0], rest + t);
      if keep(s[0]) { Assoc([s[0]], Filter(keep, rest), Filter(keep, t)); }
    }
  }

  lemma {:induction false} MapAppend<A, B>(f: A -> B, s: seq<A>, t: seq<A>)
    ensures Map(f, s + t) == Map(f, s) + Map(f, t)
  {
  }

  lemma MapMore<A, B>(f: A -> B, s: seq<A>, x: A)
    ensures Map(f, s + [x]) == Map(f, s) + [f(x)]
  {
    MapAppend(f, s, [x]);
  }

  lemma FilterMore<T(!new)>(keep: T -> bool, s: seq<T>, x: T)
    ensures Filter(keep, s + [x]) == Filter(keep, s) + if keep(x) then [x] else []
  {
    FilterAppend(keep, s, [x]);
    FilterCons(keep, x, []);
    assert [x] + [] == [x];
  }

  predicate Distinct<T(==)>(s: seq<T>) {
    forall i, j :: 0 <= i < j < |s| ==> s[i] != s[j]
  }

  lemma {:induction false} CountDistinct<T>(s: seq<T>, x: T)
    requires Distinct(s)
    ensures multiset(s)[x] <= 1
  {
    if s != [] {
      assert s == [s[0]] + s[1..];
      CountDistinct(s[1..], x);
      if s[0] == x { assert x !in s[1..]; assert x !in multiset(s[1..]); }
    }
  }

  lemma {:induction false} FilterMultiset<T(!new)>(keep: T -> bool, s: seq<T>, x: T)
    ensures multiset(Filter(keep, s))[x] == if keep(x) then multiset(s)[x] else 0
  {
    if s != [] {
      assert s == [s[0]] + s[1..];
      FilterMultiset(keep, s[1..], x);
    }
  }

  lemma {:induction false} FilterAll<T(!new)>(keep: T -> bool, s: seq<T>)
    requires forall x :: x in s ==> keep(x)
    ensures Filter(keep, s) == s
  {
    if s != [] { FilterAll(keep, s[1..]); }
  }

  lemma {:induction false} FilterTwice<T(!new)>(p: T -> bool, q: T -> bool, both: T -> bool, s: seq<T>)
    requires forall x :: x in s ==> (both(x) <==> p(x) && q(x))
    ensures Filter(q, Filter(p, s)) == Filter(both, s)
  {
    if s != [] {
      FilterTwice(p, q, both, s[1..]);
      if p(s[0]) { FilterCons(q, s[0], Filter(p, s[1..])); }
    }
  }

  lemma {:induction false} FilterSame<T(!new)>(p: T -> bool, q: T -> bool, s: seq<T>)
    requires forall x :: x in s ==> (p(x) <==> q(x))
    ensures Filter(p, s) == Filter(q, s)
  {
    if s != [] { FilterSame(p, q, s[1..]); }
  }

  lemma {:induction false} FilterNone<T(!new)>(s: seq<T>)
    ensures Filter((x: T) => false, s) == []
  {
    if s != [] { FilterNone(s[1..]); }
  }

  lemma {:induction false} FilterLength<T(!new)>(keep: T -> bool, s: seq<T>)
    ensures |Filter(keep, s)| == |s| <==> forall x :: x in s ==> keep(x)
  {
    if s != [] {
      FilterLength(keep, s[1..]);
      assert s == [s[0]] + s[1..];
    }
  }

  lemma {:induction false} FilterDistinct<T(!new)>(keep: T -> bool, s: seq<T>)
    requires Distinct(s)
    ensures Distinct(Filter(keep, s))
  {
    if s != [] {
      FilterDistinct(keep, s[1..]);
      assert s[0] !in s[1..];
    }
  }

  lemma OneMore(before: set<int>, after: set<int>, n: int)
    requires n !in before && before <= after <= before + {n}
    ensures |after| == |before| + if n in after then 1 else 0
  {
    assert after == if n in after then before + {n} else before;
  }

  lemma SamePiecesDistinct<T>(s: seq<T>, t: seq<T>)
    requires Distinct(s) && multiset(s) == multiset(t)
    ensures Distinct(t)
  {
    forall i, j | 0 <= i < j < |t|
      ensures t[i] != t[j]
    {
      if t[i] == t[j] {
        assert t == t[..i] + [t[i]] + t[i + 1..j] + [t[j]] + t[j + 1..];
        assert multiset(t)[t[i]] >= 2;
        CountDistinct(s, t[i]);
      }
    }
  }

  /** Two lists without repetition and with the same members have the same length. */
  lemma {:induction false} DistinctCard<T>(s: seq<T>, members: set<T>)
    requires Distinct(s)
    requires forall x :: x in s ==> x in members
    ensures |s| <= |members|
    ensures |s| == |members| ==> forall x :: x in members ==> x in s
  {
    if s == [] {
      if |members| == 0 { assert members == {}; }
    } else {
      var last := |s| - 1;
      DistinctCard(s[..last], members - {s[last]});
      forall x | x in members && |s| == |members|
        ensures x in s
      {
        if x != s[last] { assert x in s[..last]; }
      }
    }
  }
}
