/** The string operations of Python that the modelled code leans on. */
module PyString {
  import opened Prelude

  /** What `str.strip()` removes. */
  predicate IsSpace(c: char) {
    || '\U{0009}' <= c <= '\U{000d}' || '\U{001c}' <= c <= '\U{0020}' || c == '\U{0085}' || c == '\U{00a0}' || c == '\U{1680}'
    || '\U{2000}' <= c <= '\U{200a}' || c == '\U{2028}' || c == '\U{2029}' || c == '\U{202f}' || c == '\U{205f}' || c == '\U{3000}'
  }

  function StripLeft(s: string): string {
    if s == [] || !IsSpace(s[0]) then s else StripLeft(s[1..])
  }

  function StripRight(s: string): string {
    if s == [] || !IsSpace(s[|s| - 1]) then s else StripRight(s[..|s| - 1])
  }

  function Strip(s: string): string { StripRight(StripLeft(s)) }

  /** No white space at either end. */
  predicate Trimmed(s: string) { s == "" || (!IsSpace(s[0]) && !IsSpace(s[|s| - 1])) }

  lemma {:induction false} StripLeftTrims(s: string)
    ensures |StripLeft(s)| <= |s| && (StripLeft(s) != [] ==> !IsSpace(StripLeft(s)[0]))
  {
    if s != [] && IsSpace(s[0]) { StripLeftTrims(s[1..]); }
  }

  lemma {:induction false} StripRightTrims(s: string)
    ensures StripRight(s) <= s && (StripRight(s) != [] ==> !IsSpace(StripRight(s)[|StripRight(s)| - 1]))
  {
    if s != [] && IsSpace(s[|s| - 1]) { StripRightTrims(s[..|s| - 1]); }
  }

  lemma StripTrims(s: string)
    ensures Trimmed(Strip(s)) && |Strip(s)| <= |s|
  {
    StripLeftTrims(s);
    StripRightTrims(StripLeft(s));
  }

  lemma {:induction false} StripLeftAll(s: string, ok: char -> bool)
    requires All(s, ok)
    ensures All(StripLeft(s), ok)
  {
    if s != [] && IsSpace(s[0]) { StripLeftAll(s[1..], ok); }
  }

  lemma {:induction false} StripRightAll(s: string, ok: char -> bool)
    requires All(s, ok)
    ensures All(StripRight(s), ok)
  {
    if s != [] && IsSpace(s[|s| - 1]) { StripRightAll(s[..|s| - 1], ok); }
  }

  lemma StripAll(s: string, ok: char -> bool)
    requires All(s, ok)
    ensures All(Strip(s), ok)
  {
    StripLeftAll(s, ok);
    StripRightAll(StripLeft(s), ok);
  }

  lemma StripTrimmed(s: string)
    requires Trimmed(s)
    ensures Strip(s) == s
  {
  }

  lemma StripIdempotent(s: string)
    ensures Strip(Strip(s)) == Strip(s)
  {
    StripTrims(s);
    StripTrimmed(Strip(s));
  }

  function LowerChar(c: char): char { if 'A' <= c <= 'Z' then (c as int + 32) as char else c }

  /** Lower case, of the ASCII letters. */
  function Lower(s: string): (r: string)
    ensures |r| == |s| && forall i :: 0 <= i < |s| ==> r[i] == LowerChar(s[i])
  {
    if s == [] then [] else [LowerChar(s[0])] + Lower(s[1..])
  }

  lemma {:induction false} LowerFixed(s: string)
    requires All(s, c => LowerChar(c) == c)
    ensures Lower(s) == s
  {
    if s != [] { LowerFixed(s[1..]); }
  }

  predicate NoCapitals(s: string) { forall i :: 0 <= i < |s| ==> !('A' <= s[i] <= 'Z') }

  lemma LowerKeeps(s: string)
    requires NoCapitals(s)
    ensures Lower(s) == s
  {
    LowerFixed(s);
  }

  lemma LowerStripFixed(s: string)
    ensures Lower(Strip(Lower(s))) == Strip(Lower(s))
  {
    var lower := Lower(s);
    StripAll(lower, c => LowerChar(c) == c);
    LowerFixed(Strip(lower));
  }

  lemma {:induction false} LowerAppend(a: string, b: string)
    ensures Lower(a + b) == Lower(a) + Lower(b)
  {
    if a == "" { assert a + b == b; } else { assert (a + b)[1..] == a[1..] + b; LowerAppend(a[1..], b); }
  }

  lemma SpaceLower(c: char)
    ensures IsSpace(LowerChar(c)) <==> IsSpace(c)
  {
  }

  lemma {:induction false} StripRightLower(s: string)
    ensures StripRight(Lower(s)) == Lower(StripRight(s))
  {
    if s != "" {
      var n := |s| - 1;
      assert s == s[..n] + [s[n]];
      LowerAppend(s[..n], [s[n]]);
      SpaceLower(s[n]);
      assert Lower(s)[..n] == Lower(s[..n]);
      StripRightLower(s[..n]);
    }
  }

  lemma {:induction false} StripRightAppend(a: string, b: string)
    requires a != "" && !IsSpace(a[0]) && !IsSpace(a[|a| - 1])
    ensures Strip(a + b) == a + StripRight(b)
  {
    StripRightAfter(a, b);
  }

  lemma {:induction false} StripRightAfter(a: string, b: string)
    requires a != "" && !IsSpace(a[|a| - 1])
    ensures StripRight(a + b) == a + StripRight(b)
  {
    if b == "" {
      assert a + b == a;
    } else {
      var n := |b| - 1;
      assert (a + b)[|a + b| - 1] == b[n] && (a + b)[..|a + b| - 1] == a + b[..n];
      if IsSpace(b[n]) { StripRightAfter(a, b[..n]); }
    }
  }

  /** Stripping removes white space at the ends, as far as it goes, and nothing else. */
  lemma StripSplits(s: string) returns (a: string, b: string)
    ensures s == a + Strip(s) + b && All(a, IsSpace) && All(b, IsSpace)
  {
    a := StripLeftSplits(s);
    b := StripRightSplits(StripLeft(s));
    assert s == a + (Strip(s) + b);
  }

  lemma {:induction false} StripLeftSplits(s: string) returns (a: string)
    ensures s == a + StripLeft(s) && All(a, IsSpace)
  {
    a := "";
    if s != "" && IsSpace(s[0]) {
      var rest := StripLeftSplits(s[1..]);
      a := [s[0]] + rest;
    }
  }

  lemma {:induction false} StripRightSplits(s: string) returns (b: string)
    ensures s == StripRight(s) + b && All(b, IsSpace)
  {
    b := "";
    if s != "" && IsSpace(s[|s| - 1]) {
      var n := |s| - 1;
      var front := StripRightSplits(s[..n]);
      b := front + [s[n]];
      assert s == s[..n] + [s[n]];
    }
  }

  /** Stripping leaves nothing exactly of white space. */
  lemma {:induction false} BlankIff(s: string)
    ensures Strip(s) == "" <==> All(s, IsSpace)
  {
    var a, b := StripSplits(s);
    if Strip(s) == "" {
      AllAppend(a, b, IsSpace);
      assert s == a + b;
    } else {
      StripTrims(s);
      assert s[|a|] == Strip(s)[0];
    }
  }

  /** `sep.join(parts)`. */
  function Join(sep: string, parts: seq<string>): string {
    if parts == [] then []
    else if |parts| == 1 then parts[0]
    else parts[0] + sep + Join(sep, parts[1..])
  }

  lemma {:induction false} JoinMore(sep: string, parts: seq<string>, p: string)
    ensures Join(sep, parts + [p]) == if parts == [] then p else Join(sep, parts) + sep + p
  {
    if parts == [] {
      assert parts + [p] == [p];
    } else {
      assert (parts + [p])[1..] == parts[1..] + [p];
      JoinMore(sep, parts[1..], p);
      if |parts| > 1 { Assoc(parts[0] + sep, Join(sep, parts[1..]), sep + p); Assoc(Join(sep, parts[1..]), sep, p); }
    }
  }
}
