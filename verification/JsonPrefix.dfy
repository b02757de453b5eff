/**
 A message read after leftover text: an object whose first name starts with a letter is read as it was written
 after white space, and not at all after anything else.
 */
module JsonPrefix {
  import opened Prelude
  import opened Utf8
  import opened Json

  /** The text of an object: `{"`, a letter, and the rest of one value. */
  ghost predicate ObjectText(p: Text) {
    |p| >= 3 && p[0] == OPEN_OBJECT && p[1] == QUOTE && 97 <= p[2] <= 122 && ParseValue(p).Ok? && ParseValue(p).rest == []
  }

  predicate Ends(t: Text, p: Text) { |p| <= |t| && t[|t| - |p|..] == p }

  lemma EndsAfter(t: Text, p: Text, n: nat)
    requires Ends(t, p) && n + |p| <= |t|
    ensures Ends(t[n..], p)
  {
    assert t[n..][|t| - n - |p|..] == t[|t| - |p|..];
  }

  lemma EndsUnit(t: Text, p: Text)
    requires Ends(t, p) && p != []
    ensures t[|t| - |p|] == p[0]
  {
    assert t[|t| - |p|..][0] == p[0];
  }

  /** What is left when less than p has been read. */
  lemma StillEnds(t: Text, p: Text)
    requires ObjectText(p) && Ends(t, p) && t[0] != OPEN_OBJECT
    ensures Ends(t[1..], p)
  {
    EndsUnit(t, p);
    EndsAfter(t, p, 1);
  }

  lemma {:induction false} SpaceEnds(t: Text, p: Text)
    requires ObjectText(p) && Ends(t, p)
    ensures Ends(SkipSpace(t), p)
  {
    if IsSpace(t[0]) {
      StillEnds(t, p);
      SpaceEnds(t[1..], p);
    }
  }

  // ----- inside a string -----

  /** No escape reaches into p. */
  lemma EscapeEnds(t: Text, p: Text, e: Escape)
    requires ObjectText(p) && Ends(t, p) && t[0] == BACKSLASH && ReadEscape(t) == Some(e)
    ensures Ends(t[e.length..], p)
  {
    EndsUnit(t, p);
    assert Unescape(OPEN_OBJECT) == None && HexValue(OPEN_OBJECT) == None;
    EndsAfter(t, p, e.length);
  }

  lemma StringThrough(t: Text, p: Text)
    requires ObjectText(p) && t == p
    ensures ParseString(t).Ok? && ParseString(t).rest == p[2..]
  {
    assert p[1..][0] == QUOTE && p[1..][1..] == p[2..];
    assert ParseString(p[1..]) == Ok([], p[2..]);
  }

  /** An open string ends before p, or at its first quote. */
  lemma {:induction false} StringEnds(t: Text, p: Text)
    requires ObjectText(p) && Ends(t, p) && ParseString(t).Ok?
    ensures Ends(ParseString(t).rest, p) || ParseString(t).rest == p[2..]
    decreases |t|
  {
    if |t| == |p| {
      assert t == t[0..];
      StringThrough(t, p);
    } else if t[0] == BACKSLASH {
      var e := ReadEscape(t).value;
      EscapeEnds(t, p, e);
      StringEnds(t[e.length..], p);
    } else {
      EndsAfter(t, p, 1);
      if t[0] != QUOTE { StringEnds(t[1..], p); }
    }
  }

  // ----- numbers and words -----

  lemma NumberEnds(t: Text, p: Text)
    requires ObjectText(p) && Ends(t, p) && ParseNumber(t).Ok?
    ensures Ends(ParseNumber(t).rest, p)
  {
    EndsUnit(t, p);
    assert !NumberUnit(OPEN_OBJECT);
    EndsAfter(t, p, NumberSpan(t));
  }

  lemma WordFits(t: Text, p: Text, word: Text)
    requires ObjectText(p) && Ends(t, p) && word <= t && OPEN_OBJECT !in word
    ensures Ends(t[|word|..], p)
  {
    EndsUnit(t, p);
    assert forall k :: 0 <= k < |word| ==> word[k] == t[k] && word[k] != OPEN_OBJECT;
    EndsAfter(t, p, |word|);
  }

  lemma WordEnds(t: Text, p: Text)
    requires ObjectText(p) && Ends(t, p) && ParseWord(t).Ok?
    ensures Ends(ParseWord(t).rest, p)
  {
    if NULL_TEXT <= t { WordFits(t, p, NULL_TEXT); }
    else if TRUE_TEXT <= t { WordFits(t, p, TRUE_TEXT); }
    else { WordFits(t, p, FALSE_TEXT); }
  }

  // ----- values -----

  /** Read up to somewhere before p, or across its first quote. */
  ghost predicate Through(r: Text, p: Text) { Ends(r, p) || (|p| >= 2 && r == p[2..]) }

  lemma NoDelimiter(p: Text)
    requires ObjectText(p)
    ensures SkipSpace(p[2..]) == p[2..] && p[2..] != [] && p[2..][0] == p[2]
  {
  }

  lemma ValueFromSpace(t: Text)
    ensures ParseValue(t) == ParseValue(SkipSpace(t))
  {
    SkipTwice(t);
  }

  lemma {:induction false} SkipTwice(t: Text)
    ensures SkipSpace(SkipSpace(t)) == SkipSpace(t)
  {
    if t != [] && IsSpace(t[0]) { SkipTwice(t[1..]); }
  }

  lemma {:induction false} ValueEnds(t: Text, p: Text)
    requires ObjectText(p) && Ends(t, p) && ParseValue(t).Ok?
    ensures Through(ParseValue(t).rest, p) || (SkipSpace(t) == p && ParseValue(t).rest == [])
    decreases |t|, 1
  {
    var s := SkipSpace(t);
    SpaceEnds(t, p);
    ValueFromSpace(t);
    if |s| == |p| {
      assert s == s[0..];
    } else {
      EndsAfter(s, p, 1);
      SpaceEnds(s[1..], p);
      if s[0] == QUOTE { StringEnds(s[1..], p); }
      else if s[0] == OPEN_ARRAY { ArrayEnds(s, p); }
      else if s[0] == OPEN_OBJECT { ObjectEnds(s, p); }
      else if NumberUnit(s[0]) { NumberEnds(s, p); }
      else { WordEnds(s, p); }
    }
  }

  lemma {:induction false} ArrayEnds(s: Text, p: Text)
    requires ObjectText(p) && s != [] && Ends(s[1..], p)
    ensures ParseItems(s[1..]).Ok? ==> Ends(ParseItems(s[1..]).rest, p)
    ensures var u := SkipSpace(s[1..]); u != [] && u[0] == CLOSE_ARRAY ==> Ends(u[1..], p)
    decreases |s|, 0
  {
    SpaceEnds(s[1..], p);
    var u := SkipSpace(s[1..]);
    if u[0] == CLOSE_ARRAY { StillEnds(u, p); }
    if ParseItems(s[1..]).Ok? { ItemsEnd(s[1..], p); }
  }

  lemma {:induction false} ObjectEnds(s: Text, p: Text)
    requires ObjectText(p) && s != [] && Ends(s[1..], p)
    ensures ParseMembers(s[1..]).Ok? ==> Ends(ParseMembers(s[1..]).rest, p)
    ensures var u := SkipSpace(s[1..]); u != [] && u[0] == CLOSE_OBJECT ==> Ends(u[1..], p)
    decreases |s|, 0
  {
    SpaceEnds(s[1..], p);
    var u := SkipSpace(s[1..]);
    if u[0] == CLOSE_OBJECT { StillEnds(u, p); }
    if ParseMembers(s[1..]).Ok? { MembersEnd(s[1..], p); }
  }

  predicate Delimiter(c: Unit) { c == COMMA || c == COLON || c == CLOSE_ARRAY || c == CLOSE_OBJECT }

  lemma DelimiterBefore(r: Text, p: Text)
    requires ObjectText(p) && Ends(r, p)
    ensures var u := SkipSpace(r); u != [] && (Delimiter(u[0]) ==> Ends(u[1..], p))
  {
    SpaceEnds(r, p);
    if Delimiter(SkipSpace(r)[0]) { StillEnds(SkipSpace(r), p); }
  }

  /** The delimiter that was read lies before p. */
  lemma DelimiterEnds(r: Text, p: Text)
    requires ObjectText(p) && (Through(r, p) || r == [])
    ensures var u := SkipSpace(r); u != [] && Delimiter(u[0]) ==> Ends(u[1..], p)
  {
    if Ends(r, p) { DelimiterBefore(r, p); } else if r != [] { NoDelimiter(p); }
  }

  lemma {:induction false} ItemsEnd(t: Text, p: Text)
    requires ObjectText(p) && Ends(t, p) && ParseItems(t).Ok?
    ensures Ends(ParseItems(t).rest, p)
    decreases |t|, 2
  {
    var v := ParseValue(t);
    var u := SkipSpace(v.rest);
    ValueEnds(t, p);
    DelimiterEnds(v.rest, p);
    if u[0] == COMMA { ItemsEnd(u[1..], p); }
  }

  lemma {:induction false} MemberEnds(t: Text, p: Text)
    requires ObjectText(p) && Ends(t, p) && ParseMember(t).Ok?
    ensures Through(ParseMember(t).rest, p) || ParseMember(t).rest == []
    decreases |t|, 1
  {
    var s := SkipSpace(t);
    SpaceEnds(t, p);
    StillEnds(s, p);
    StringEnds(s[1..], p);
    var name := ParseString(s[1..]);
    DelimiterEnds(name.rest, p);
    ValueEnds(SkipSpace(name.rest)[1..], p);
  }

  lemma {:induction false} MembersEnd(t: Text, p: Text)
    requires ObjectText(p) && Ends(t, p) && ParseMembers(t).Ok?
    ensures Ends(ParseMembers(t).rest, p)
    decreases |t|, 2
  {
    var m := ParseMember(t);
    var u := SkipSpace(m.rest);
    MemberEnds(t, p);
    DelimiterEnds(m.rest, p);
    if u[0] == COMMA { MembersEnd(u[1..], p); }
  }

  // ----- result -----

  predicate Spaces(t: Text) { All(t, IsSpace) }

  lemma {:induction false} SkipAll(l: Text, p: Text)
    requires Spaces(l) && p != [] && !IsSpace(p[0])
    ensures SkipSpace(l + p) == p
  {
    if l == [] {
      assert l + p == p;
    } else {
      assert (l + p)[1..] == l[1..] + p;
      SkipAll(l[1..], p);
    }
  }

  lemma {:induction false} SkippedWere(l: Text, p: Text)
    requires SkipSpace(l + p) == p
    ensures Spaces(l)
  {
    if l != [] {
      assert (l + p)[1..] == l[1..] + p;
      if !IsSpace((l + p)[0]) { assert false; }
      SkippedWere(l[1..], p);
      assert l == [l[0]] + l[1..];
    }
  }

  /** After white space the object is read as it stands; after anything else nothing is. */
  lemma ParseAfter(l: Text, p: Text)
    requires ObjectText(p)
    ensures Parse(l + p) == if Spaces(l) then Parse(p) else None
  {
    var t := l + p;
    assert t[|l|..] == p;
    if Spaces(l) {
      SkipAll(l, p);
      SkipAll([], p);
      ValueFromSpace(t);
    } else if Parse(t).Some? {
      var r := ParseValue(t).rest;
      ValueEnds(t, p);
      if Ends(r, p) { SpaceEnds(r, p); }
      NoDelimiter(p);
      SkippedWere(l, p);
    }
  }
}
