/** What each pattern of the configuration accepts, its characters and lengths spelled out. */
module Patterns {
  import opened Prelude
  import opened PyString
  import opened Sanitize
  import opened ReasoningConfig
  import opened BrainSync

  // ----- characters -----

  predicate Letter(c: char) { c in "abcdefghijklmnopqrstuvwxyz" || c in "ABCDEFGHIJKLMNOPQRSTUVWXYZ" }

  /** A letter, a digit or one of these. */
  predicate Allowed(c: char, extra: string) { Letter(c) || c in "0123456789" || c in extra }

  lemma InSmall(c: char)
    ensures c in "abcdefghijklmnopqrstuvwxyz" <==> 'a' <= c <= 'z'
  {
    InRange("abcdefghijklmnopqrstuvwxyz", 'a', c);
  }

  lemma InCapital(c: char)
    ensures c in "ABCDEFGHIJKLMNOPQRSTUVWXYZ" <==> 'A' <= c <= 'Z'
  {
    InRange("ABCDEFGHIJKLMNOPQRSTUVWXYZ", 'A', c);
  }

  /** Characters in a row. */
  lemma InRange(s: string, first: char, c: char)
    requires forall i :: 0 <= i < |s| ==> s[i] as int == first as int + i
    ensures c in s <==> first as int <= c as int < first as int + |s|
  {
    if first as int <= c as int < first as int + |s| { assert s[c as int - first as int] == c; }
  }

  lemma WordIs(c: char)
    ensures Word(c) <==> Allowed(c, "")
  {
    InSmall(c);
    InCapital(c);
    InRange("0123456789", '0', c);
  }

  lemma Classes(c: char)
    ensures StrChar(c) <==> Allowed(c, "_-./ ")
    ensures GlobChar(c) <==> Allowed(c, "_-./ *?[]")
    ensures UrlChar(c) <==> Allowed(c, "-._~:/?#[]@!$&()*+,;=%")
    ensures ArgvChar(c) <==> Allowed(c, "_-./:={}")
    ensures ModelChar(c) <==> Allowed(c, "._*?-")
    ensures BrainChar(c) <==> Allowed(c, "_-.")
  {
    WordIs(c);
  }

  // ----- patterns -----

  predicate AllAllowed(s: string, extra: string) { forall i :: 0 <= i < |s| ==> Allowed(s[i], extra) }

  /** Only allowed characters, a final line break aside. */
  predicate Fits(s: string, extra: string) {
    AllAllowed(s, extra) || (s != "" && s[|s| - 1] == '\n' && AllAllowed(s[..|s| - 1], extra))
  }

  lemma MatchesIs(s: string, ok: char -> bool, extra: string)
    requires forall c :: ok(c) <==> Allowed(c, extra)
    ensures Matches(s, ok) <==> Fits(s, extra)
    ensures All(s, ok) <==> AllAllowed(s, extra)
  {
  }

  lemma CleanIs(value: string, ok: char -> bool, extra: string)
    requires forall c :: ok(c) <==> Allowed(c, extra)
    ensures var s := Strip(value); var cut := if |s| <= 128 then s else s[..128];
      Clean(value, ok) == if Fits(cut, extra) then cut else ""
  {
    var s := Strip(value);
    MatchesIs(Take(s, 128), ok, extra);
    assert Take(s, 128) == if |s| <= 128 then s else s[..128];
  }

  /** A plain text is stripped and cut to 128 characters, and then taken only if it is of these characters. */
  lemma StrIs(value: string)
    ensures var s := Strip(value); var cut := if |s| <= 128 then s else s[..128];
      Str(value) == if Fits(cut, "_-./ ") then cut else ""
  {
    forall c ensures StrChar(c) <==> Allowed(c, "_-./ ") { Classes(c); }
    CleanIs(value, StrChar, "_-./ ");
  }

  /** A name pattern likewise. */
  lemma GlobIs(value: string)
    ensures var s := Strip(value); var cut := if |s| <= 128 then s else s[..128];
      Glob(value) == if Fits(cut, "_-./ *?[]") then cut else ""
  {
    forall c ensures GlobChar(c) <==> Allowed(c, "_-./ *?[]") { Classes(c); }
    CleanIs(value, GlobChar, "_-./ *?[]");
  }

  /** An address is stripped, and refused when it is longer than 256 characters or has any other character. */
  lemma UrlIs(value: string)
    ensures var s := Strip(value);
      Url(value) == if |s| <= 256 && AllAllowed(s, "-._~:/?#[]@!$&()*+,;=%") then s else ""
  {
    forall c ensures UrlChar(c) <==> Allowed(c, "-._~:/?#[]@!$&()*+,;=%") { Classes(c); }
    var s := Strip(value);
    StripTrims(value);
    TrimmedMatches(s, UrlChar);
    MatchesIs(s, UrlChar, "-._~:/?#[]@!$&()*+,;=%");
  }

  /** A part of a command: not empty. */
  lemma ArgvPartIs(s: string)
    ensures ArgvPart(s) <==> Fits(s, "_-./:={}") && s != "" && s != "\n"
  {
    forall c ensures ArgvChar(c) <==> Allowed(c, "_-./:={}") { Classes(c); }
    MatchesIs(s, ArgvChar, "_-./:={}");
  }

  /** A model name has up to 128 of these characters. */
  lemma ModelNameIs(s: string)
    ensures ModelName(s) <==>
      || (1 <= |s| <= 128 && AllAllowed(s, "._*?-"))
      || (2 <= |s| <= 129 && s[|s| - 1] == '\n' && AllAllowed(s[..|s| - 1], "._*?-"))
  {
    forall c ensures ModelChar(c) <==> Allowed(c, "._*?-") { Classes(c); }
    MatchesIs(s, ModelChar, "._*?-");
    if s != "" { MatchesIs(s[..|s| - 1], ModelChar, "._*?-"); }
  }

  /** The names that the switch takes begin with a letter or a digit; those that are saved and read need not. */
  lemma BrainNames(s: string)
    ensures SyncName(s) <==> s != "" && Allowed(s[0], "") && Fits(s, "_-.")
    ensures SaveName(s) <==> s != "" && s != "\n" && Fits(s, "_-.")
  {
    forall c ensures BrainChar(c) <==> Allowed(c, "_-.") { Classes(c); }
    MatchesIs(s, BrainChar, "_-.");
    if s != "" { WordIs(s[0]); }
  }
}
