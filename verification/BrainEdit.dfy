/** The edit of the brain's line told as the regular expression is: what it matches, and which match it replaces. */
module BrainEdit {
  import opened Prelude
  import opened PyString
  import opened BrainSync
  import Lines

  // ----- one match -----

  /** t is `current_brain`, space, an equals sign, space, a text in quotes, and then r. */
  predicate Reads(t: string, a: string, b: string, q: string, r: string) {
    && All(a, IsSpace) && All(b, IsSpace) && '"' !in q
    && t == "current_brain" + (a + ("=" + (b + ("\"" + (q + ("\"" + r))))))
  }

  lemma {:induction false} SpacesStrip(a: string, m: string)
    requires All(a, IsSpace) && m != "" && !IsSpace(m[0])
    ensures StripLeft(a + m) == m
  {
    if a == "" {
      assert a + m == m;
    } else {
      assert (a + m)[0] == a[0] && (a + m)[1..] == a[1..] + m;
      SpacesStrip(a[1..], m);
    }
  }

  lemma CharAfter(a: string, c: string, u: string)
    requires All(a, IsSpace) && |c| == 1 && !IsSpace(c[0])
    ensures AfterChar(a + (c + u), c[0]) == Some(u)
  {
    assert (c + u)[0] == c[0] && (c + u)[1..] == u;
    SpacesStrip(a, c + u);
  }

  lemma AfterSpace(t: string, c: char) returns (a: string)
    requires AfterChar(t, c).Some?
    ensures All(a, IsSpace) && t == a + ([c] + AfterChar(t, c).value)
  {
    a := StripLeftSplits(t);
    FirstAndRest(StripLeft(t), c);
  }

  lemma FirstAndRest(u: string, c: char)
    requires u != "" && u[0] == c
    ensures u == [c] + u[1..]
  {
  }

  lemma ReadsMatches(t: string, a: string, b: string, q: string, r: string)
    requires Reads(t, a, b, q, r)
    ensures MatchHead(t) == Some(r)
  {
    var w := q + ("\"" + r);
    var v := b + ("\"" + w);
    KeyRead(a + ("=" + v));
    CharAfter(a, "=", v);
    CharAfter(b, "\"", w);
    QuoteEnds(q, r);
  }

  lemma MatchReads(t: string) returns (a: string, b: string, q: string)
    requires MatchHead(t).Some?
    ensures Reads(t, a, b, q, MatchHead(t).value)
  {
    var u := AfterKey(t).value;
    var v := AfterChar(u, '=').value;
    var w := AfterChar(v, '"').value;
    var r := AfterQuote(w).value;
    a := AfterSpace(u, '=');
    b := AfterSpace(v, '"');
    var n := Lines.IndexOf(w, '"');
    q := w[..n];
    assert w == q + ("\"" + r);
    assert t == "current_brain" + u;
  }

  /** Exactly the texts of that form are matched, and what the match leaves is what follows. */
  lemma MatchIff(t: string, r: string)
    ensures MatchHead(t) == Some(r) <==> exists a, b, q :: Reads(t, a, b, q, r)
  {
    if MatchHead(t) == Some(r) {
      var a, b, q := MatchReads(t);
    } else if exists a, b, q :: Reads(t, a, b, q, r) {
      var a, b, q :| Reads(t, a, b, q, r);
      ReadsMatches(t, a, b, q, r);
    }
  }

  // ----- which match -----

  /** A line of t begins at i; `start` says whether one begins at its head. */
  predicate Begins(t: string, start: bool, i: nat) { i <= |t| && if i == 0 then start else t[i - 1] == '\n' }

  predicate MatchAt(t: string, start: bool, i: nat) { Begins(t, start, i) && MatchHead(t[i..]).Some? }

  lemma NextMatch(t: string, start: bool, i: nat)
    requires t != "" && i < |t|
    ensures MatchAt(t[1..], t[0] == '\n', i) <==> MatchAt(t, start, i + 1)
  {
    assert t[1..][i..] == t[i + 1..];
  }

  lemma {:induction false} NoMatch(t: string, start: bool, line: string)
    requires forall i :: 0 <= i <= |t| ==> !MatchAt(t, start, i)
    ensures Replace(t, start, line) == t
    decreases t
  {
    assert t[0..] == t;
    assert !MatchAt(t, start, 0);
    if t != "" {
      var rest, next := t[1..], t[0] == '\n';
      forall i | 0 <= i <= |rest| ensures !MatchAt(rest, next, i) { NextMatch(t, start, i); }
      NoMatch(rest, next, line);
    }
  }

  lemma {:induction false} FirstMatch(t: string, start: bool, line: string, i: nat)
    requires MatchAt(t, start, i) && forall j :: 0 <= j < i ==> !MatchAt(t, start, j)
    ensures Replace(t, start, line) == t[..i] + (line + MatchHead(t[i..]).value)
    decreases t
  {
    assert t[0..] == t;
    if i > 0 {
      assert !MatchAt(t, start, 0);
      var next := t[0] == '\n';
      forall j | 0 <= j < i - 1 ensures !MatchAt(t[1..], next, j) { NextMatch(t, start, j); }
      NextMatch(t, start, i - 1);
      assert t[1..][i - 1..] == t[i..];
      FirstMatch(t[1..], next, line, i - 1);
      assert t[..i] == [t[0]] + t[1..][..i - 1];
      Assoc([t[0]], t[1..][..i - 1], line + MatchHead(t[i..]).value);
    } else {
      assert t[..0] == "";
    }
  }

  /** A line begins at the head of the content and after each line break. */
  predicate LineAt(content: string, i: nat) { i <= |content| && (i == 0 || content[i - 1] == '\n') }

  predicate MatchLine(content: string, i: nat) { LineAt(content, i) && MatchHead(content[i..]).Some? }

  predicate FirstMatchLine(content: string, i: nat) { MatchLine(content, i) && forall j :: 0 <= j < i ==> !MatchLine(content, j) }

  /**
   The switch writes its line over the first match at the start of a line, and leaves everything else as it is; a file
   without a match, and every file when the name is refused, stays the same.
   */
  lemma SyncEdits(content: string, name: string)
    ensures !SyncName(name) ==> Sync(content, name) == content
    ensures (forall i :: 0 <= i <= |content| ==> !MatchLine(content, i)) ==> Sync(content, name) == content
    ensures forall i :: 0 <= i <= |content| && SyncName(name) && FirstMatchLine(content, i) ==>
      Sync(content, name) == content[..i] + ("current_brain = \"" + (name + "\"") + MatchHead(content[i..]).value)
  {
    LineIs(name);
    forall i: nat ensures MatchAt(content, true, i) <==> MatchLine(content, i) {}
    if forall i :: 0 <= i <= |content| ==> !MatchLine(content, i) { NoMatch(content, true, BrainLine(name)); }
    forall i | 0 <= i <= |content| && FirstMatchLine(content, i)
      ensures Replace(content, true, BrainLine(name)) == content[..i] + (BrainLine(name) + MatchHead(content[i..]).value)
    {
      FirstMatch(content, true, BrainLine(name), i);
    }
  }

  lemma LineIs(name: string)
    ensures BrainLine(name) == "current_brain = \"" + (name + "\"")
  {
    assert BrainLine(name) == "current_brain" + " = \"" + (name + "\"");
  }
}
