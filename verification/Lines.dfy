/** Cutting a stream at a separator: the complete lines, and the unfinished tail. */
module Lines {

  /** Position of the first `sep`, or |s| when there is none. */
  function IndexOf<T(==)>(s: seq<T>, sep: T): (i: nat)
    ensures i <= |s|
    ensures i < |s| ==> s[i] == sep
    ensures forall k :: 0 <= k < i ==> s[k] != sep
  {
    if s == [] || s[0] == sep then 0 else 1 + IndexOf(s[1..], sep)
  }

  function Complete<T(==)>(s: seq<T>, sep: T): seq<seq<T>> {
    var i := IndexOf(s, sep);
    if i == |s| then [] else [s[..i]] + Complete(s[i + 1..], sep)
  }

  function Tail<T(==)>(s: seq<T>, sep: T): seq<T> {
    var i := IndexOf(s, sep);
    if i == |s| then s else Tail(s[i + 1..], sep)
  }

  /** The inverse of cutting: every line followed by the separator. */
  function Join<T>(lines: seq<seq<T>>, sep: T): seq<T> {
    if lines == [] then [] else lines[0] + [sep] + Join(lines[1..], sep)
  }

  ghost predicate SeparatorFree<T(!new)>(lines: seq<seq<T>>, sep: T) {
    forall i :: 0 <= i < |lines| ==> sep !in lines[i]
  }

  lemma IndexOfUnique<T>(s: seq<T>, sep: T, i: nat)
    requires i <= |s| && (i < |s| ==> s[i] == sep)
    requires forall k :: 0 <= k < i ==> s[k] != sep
    ensures IndexOf(s, sep) == i
  {
  }

  lemma CutNone<T>(s: seq<T>, sep: T)
    requires sep !in s
    ensures Complete(s, sep) == [] && Tail(s, sep) == s
  {
    IndexOfUnique(s, sep, |s|);
  }

  lemma CutFirst<T>(a: seq<T>, b: seq<T>, sep: T)
    requires sep !in a
    ensures Complete(a + [sep] + b, sep) == [a] + Complete(b, sep)
    ensures Tail(a + [sep] + b, sep) == Tail(b, sep)
  {
    var s := a + [sep] + b;
    IndexOfUnique(s, sep, |a|);
    assert s[..|a|] == a && s[|a| + 1..] == b;
  }

  lemma CutLine<T>(line: seq<T>, sep: T)
    requires sep !in line
    ensures Complete(line + [sep], sep) == [line] && Tail(line + [sep], sep) == []
  {
    CutFirst(line, [], sep);
    CutNone<T>([], sep);
    assert line + [sep] + [] == line + [sep];
  }

  /** The first line of s and what follows it. */
  lemma FirstLine<T>(s: seq<T>, sep: T) returns (a: seq<T>, b: seq<T>)
    requires sep in s
    ensures s == a + [sep] + b && sep !in a && |b| < |s|
    ensures Complete(s, sep) == [a] + Complete(b, sep) && Tail(s, sep) == Tail(b, sep)
  {
    var i := IndexOf(s, sep);
    a, b := s[..i], s[i + 1..];
  }

  lemma Regroup<T>(a: seq<T>, m: seq<T>, x: seq<T>, y: seq<T>)
    ensures (a + m + x) + y == a + m + (x + y)
  {
  }

  lemma JoinCons<T>(a: seq<T>, lines: seq<seq<T>>, sep: T)
    ensures Join([a] + lines, sep) == a + [sep] + Join(lines, sep)
  {
    assert ([a] + lines)[1..] == lines;
  }

  /** Cutting is characterised by: rejoining gives the stream back, and no piece holds a separator. */
  lemma {:induction false} CutInverse<T(!new)>(s: seq<T>, sep: T)
    ensures Join(Complete(s, sep), sep) + Tail(s, sep) == s
    ensures SeparatorFree(Complete(s, sep), sep) && sep !in Tail(s, sep)
    decreases |s|
  {
    if sep in s {
      var a, b := FirstLine(s, sep);
      CutInverse(b, sep);
      JoinCons(a, Complete(b, sep), sep);
      Regroup(a, [sep], Join(Complete(b, sep), sep), Tail(b, sep));
    } else {
      CutNone(s, sep);
    }
  }

  lemma {:induction false} CutJoin<T(!new)>(lines: seq<seq<T>>, tail: seq<T>, sep: T)
    requires SeparatorFree(lines, sep) && sep !in tail
    ensures Complete(Join(lines, sep) + tail, sep) == lines
    ensures Tail(Join(lines, sep) + tail, sep) == tail
  {
    if lines == [] {
      assert Join(lines, sep) + tail == tail;
      CutNone(tail, sep);
    } else {
      var rest := lines[1..];
      var more := Join(rest, sep) + tail;
      CutJoin(rest, tail, sep);
      assert Join(lines, sep) + tail == lines[0] + [sep] + more by { Regroup(lines[0], [sep], Join(rest, sep), tail); }
      CutFirst(lines[0], more, sep);
      assert lines == [lines[0]] + rest;
    }
  }

  lemma {:induction false} JoinAppend<T>(a: seq<seq<T>>, b: seq<seq<T>>, sep: T)
    ensures Join(a + b, sep) == Join(a, sep) + Join(b, sep)
  {
    if a == [] {
      assert a + b == b;
    } else {
      assert (a + b)[1..] == a[1..] + b;
      JoinAppend(a[1..], b, sep);
      Regroup(a[0], [sep], Join(a[1..], sep), Join(b, sep));
    }
  }

  /** Cutting can be resumed from the tail: this is what makes chunk boundaries invisible. */
  lemma {:induction false} CutAppend<T(!new)>(s: seq<T>, more: seq<T>, sep: T)
    ensures Complete(s + more, sep) == Complete(s, sep) + Complete(Tail(s, sep) + more, sep)
    ensures Tail(s + more, sep) == Tail(Tail(s, sep) + more, sep)
    decreases |s|
  {
    if sep in s {
      var a, b := FirstLine(s, sep);
      CutAppend(b, more, sep);
      Regroup(a, [sep], b, more);
      CutFirst(a, b + more, sep);
    } else {
      CutNone(s, sep);
    }
  }
}
