/** Grouping a list by an optional key, as a dictionary of lists filled in order: keys in order of first appearance. */
module Grouping {
  import opened Prelude

  function Members<T(!new)>(key: T -> Option<string>, s: seq<T>, c: string): seq<T> {
    Filter((x: T) => key(x) == Some(c), s)
  }

  function FirstSeen<T>(key: T -> Option<string>, s: seq<T>): (cs: seq<string>)
    ensures Distinct(cs)
    ensures forall c :: c in cs <==> exists i :: 0 <= i < |s| && key(s[i]) == Some(c)
  {
    if s == [] then []
    else
      var n := |s| - 1;
      var front := FirstSeen(key, s[..n]);
      assert forall i :: 0 <= i < n ==> s[..n][i] == s[i];
      if key(s[n]).None? || key(s[n]).value in front then front else front + [key(s[n]).value]
  }

  lemma MembersNonempty<T(!new)>(key: T -> Option<string>, s: seq<T>, c: string)
    ensures Members(key, s, c) != [] <==> c in FirstSeen(key, s)
  {
    if c in FirstSeen(key, s) {
      var i :| 0 <= i < |s| && key(s[i]) == Some(c);
      assert s[i] in Members(key, s, c);
    }
    if Members(key, s, c) != [] { assert Members(key, s, c)[0] in Members(key, s, c); }
  }

  lemma MembersOneMore<T(!new)>(key: T -> Option<string>, s: seq<T>, x: T, c: string)
    ensures Members(key, s + [x], c) == if key(x) == Some(c) then Members(key, s, c) + [x] else Members(key, s, c)
  {
    var keep := (y: T) => key(y) == Some(c);
    FilterAppend(keep, s, [x]);
    FilterCons(keep, x, []);
    assert [x] + [] == [x];
  }

  lemma MembersOneMoreAll<T(!new)>(key: T -> Option<string>, s: seq<T>, x: T)
    ensures forall c :: Members(key, s + [x], c) == if key(x) == Some(c) then Members(key, s, c) + [x] else Members(key, s, c)
  {
    forall c ensures Members(key, s + [x], c) == if key(x) == Some(c) then Members(key, s, c) + [x] else Members(key, s, c) {
      MembersOneMore(key, s, x, c);
    }
  }

  lemma MembersDistinct<T(!new)>(key: T -> Option<string>, s: seq<T>, c: string)
    requires Distinct(s)
    ensures Distinct(Members(key, s, c))
  {
    FilterDistinct((x: T) => key(x) == Some(c), s);
  }

  lemma FirstSeenOneMore<T>(key: T -> Option<string>, s: seq<T>, x: T)
    ensures FirstSeen(key, s + [x])
         == if key(x).None? || key(x).value in FirstSeen(key, s) then FirstSeen(key, s) else FirstSeen(key, s) + [key(x).value]
  {
    assert (s + [x])[..|s|] == s;
  }

  ghost predicate GroupedBy<T(!new)>(groups: map<string, seq<T>>, key: T -> Option<string>, s: seq<T>) {
    && (forall c :: c in groups <==> c in FirstSeen(key, s))
    && (forall c :: c in groups ==> groups[c] == Members(key, s, c))
  }

  method GroupBy<T(!new)>(key: T -> Option<string>, s: seq<T>) returns (order: seq<string>, groups: map<string, seq<T>>)
    ensures order == FirstSeen(key, s) && GroupedBy(groups, key, s)
  {
    order, groups := [], map[];
    for i := 0 to |s|
      invariant order == FirstSeen(key, s[..i]) && GroupedBy(groups, key, s[..i])
    {
      order, groups := AddToGroup(key, s[..i], s[i], order, groups);
      assert s[..i + 1] == s[..i] + [s[i]];
    }
    assert s[..|s|] == s;
  }

  method AddToGroup<T(!new)>(key: T -> Option<string>, ghost before: seq<T>, x: T, order: seq<string>, groups: map<string, seq<T>>)
      returns (newOrder: seq<string>, newGroups: map<string, seq<T>>)
    requires order == FirstSeen(key, before) && GroupedBy(groups, key, before)
    ensures newOrder == FirstSeen(key, before + [x]) && GroupedBy(newGroups, key, before + [x])
  {
    FirstSeenOneMore(key, before, x);
    MembersOneMoreAll(key, before, x);
    newOrder, newGroups := order, groups;
    if key(x).Some? {
      var c := key(x).value;
      MembersNonempty(key, before, c);
      if c in groups {
        newGroups := groups[c := groups[c] + [x]];
      } else {
        newOrder, newGroups := order + [c], groups[c := [x]];
      }
    }
  }
}
