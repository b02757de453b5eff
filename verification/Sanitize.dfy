/**
 The string sanitisers of the configuration printer.  Two of them strip and then truncate, so they settle
 only on the second application; and `$` in a pattern also matches before a final line break.
 */
module Sanitize {
  import opened Prelude
  import opened PyString
  import Toml

  const STR_MAX_LEN := 128
  const URL_MAX_LEN := 256

  predicate Word(c: char) { 'a' <= c <= 'z' || 'A' <= c <= 'Z' || '0' <= c <= '9' }

  predicate StrChar(c: char) { Word(c) || c == '_' || c == '-' || c == '.' || c == '/' || c == ' ' }

  predicate GlobChar(c: char) { StrChar(c) || c == '*' || c == '?' || c == '[' || c == ']' }

  predicate UrlChar(c: char) {
    Word(c) || c == '-' || c == '.' || c == '_' || c == '~' || c == ':' || c == '/' || c == '?' || c == '#' || c == '['
    || c == ']' || c == '@' || c == '!' || c == '$' || c == '&' || c == '(' || c == ')' || c == '*' || c == '+' || c == ','
    || c == ';' || c == '=' || c == '%'
  }

  predicate ArgvChar(c: char) {
    Word(c) || c == '_' || c == '-' || c == '.' || c == '/' || c == ':' || c == '=' || c == '{' || c == '}'
  }

  predicate ModelChar(c: char) { Word(c) || c == '.' || c == '_' || c == '*' || c == '?' || c == '-' }

  /** `^[...]*$`: all characters allowed, or all but a final line break. */
  predicate Matches(s: string, ok: char -> bool) {
    All(s, ok) || (s != "" && s[|s| - 1] == '\n' && All(s[..|s| - 1], ok))
  }

  /** The sanitiser of that character class. */
  function Clean(value: string, ok: char -> bool): string { Checked(Take(Strip(value), STR_MAX_LEN), ok) }

  function Checked(s: string, ok: char -> bool): string { if Matches(s, ok) then s else "" }

  function Str(value: string): string { Clean(value, StrChar) }

  function Glob(value: string): string { Clean(value, GlobChar) }

  function Url(value: string): string { Whole(Strip(value)) }

  function Whole(s: string): string { if |s| > URL_MAX_LEN || !Matches(s, UrlChar) then "" else s }

  // ----- on trimmed strings -----

  /** A trimmed string does not end in a line break, so `$` means the end. */
  lemma TrimmedMatches(s: string, ok: char -> bool)
    requires Trimmed(s)
    ensures Matches(s, ok) <==> All(s, ok)
  {
    assert IsSpace('\n');
  }

  lemma CheckedTrimmed(s: string, ok: char -> bool)
    requires Trimmed(s)
    ensures Checked(s, ok) == (if All(s, ok) then s else "")
    ensures All(Checked(s, ok), ok) && Trimmed(Checked(s, ok)) && |Checked(s, ok)| <= |s|
  {
    TrimmedMatches(s, ok);
  }

  /** Up to the limit nothing is cut, and what is let through is clean and trimmed. */
  lemma CleanShort(value: string, ok: char -> bool)
    requires |value| <= STR_MAX_LEN
    ensures Clean(value, ok) == Checked(Strip(value), ok)
    ensures Clean(value, ok) == (if All(Strip(value), ok) then Strip(value) else "")
    ensures All(Clean(value, ok), ok) && Trimmed(Clean(value, ok)) && |Clean(value, ok)| <= |value|
  {
    var s := Strip(value);
    StripTrims(value);
    assert Take(s, STR_MAX_LEN) == s;
    CheckedTrimmed(s, ok);
  }

  /** Clean, trimmed and short. */
  predicate Settled(s: string, ok: char -> bool) { All(s, ok) && Trimmed(s) && |s| <= STR_MAX_LEN }

  lemma CleanShortSettled(value: string, ok: char -> bool)
    requires |value| <= STR_MAX_LEN
    ensures Settled(Clean(value, ok), ok) && |Clean(value, ok)| <= |value|
    ensures Clean(Clean(value, ok), ok) == Clean(value, ok)
  {
    CleanShort(value, ok);
    CleanFixed(Clean(value, ok), ok);
  }

  /** What is clean, trimmed and short passes unchanged. */
  lemma CleanFixed(value: string, ok: char -> bool)
    requires All(value, ok) && Trimmed(value) && |value| <= STR_MAX_LEN
    ensures Clean(value, ok) == value
  {
    StripTrimmed(value);
  }

  lemma MatchesStrip(s: string, ok: char -> bool)
    requires Matches(s, ok)
    ensures All(Strip(s), ok)
  {
    if All(s, ok) {
      StripAll(s, ok);
    } else {
      var front := s[..|s| - 1];
      assert s == front + "\n";
      StripBreak(front);
      StripAll(front, ok);
    }
  }

  lemma StripRightBreak(s: string)
    ensures StripRight(s + "\n") == StripRight(s)
  {
    assert (s + "\n")[..|s|] == s;
    assert IsSpace('\n');
  }

  lemma {:induction false} StripBreak(s: string)
    ensures Strip(s + "\n") == Strip(s)
  {
    assert IsSpace('\n');
    if s == "" {
      assert "" + "\n" == "\n";
      assert "\n"[1..] == "";
      assert StripLeft("\n") == StripLeft("") == "";
    } else if IsSpace(s[0]) {
      assert (s + "\n")[1..] == s[1..] + "\n";
      StripBreak(s[1..]);
    } else {
      StripRightBreak(s);
    }
  }

  /** The second application settles: a third changes nothing. */
  lemma CleanSettles(value: string, ok: char -> bool)
    ensures var once := Clean(value, ok); var twice := Clean(once, ok);
      Clean(twice, ok) == twice && twice == Strip(once) && All(twice, ok)
  {
    var once := Clean(value, ok);
    if once == "" {
      CleanFixed("", ok);
    } else {
      MatchesStrip(once, ok);
      CleanShort(once, ok);
      CleanFixed(Clean(once, ok), ok);
    }
  }

  /** Stripping a non-empty string changes it exactly when a space stands at either end. */
  lemma StripFixedIff(s: string)
    ensures Strip(s) == s <==> Trimmed(s)
  {
    StripTrims(s);
    if Trimmed(s) { StripTrimmed(s); }
  }

  /** One application is enough exactly when it does not cut the value right after a space. */
  lemma CleanIdempotentIff(value: string, ok: char -> bool)
    ensures Clean(Clean(value, ok), ok) == Clean(value, ok) <==>
      (|Strip(value)| <= STR_MAX_LEN || !IsSpace(Strip(value)[STR_MAX_LEN - 1]) || !Matches(Take(Strip(value), STR_MAX_LEN), ok))
  {
    CleanSettles(value, ok);
    StripTrims(value);
    StripFixedIff(Clean(value, ok));
    CutTrimmedIff(Strip(value), ok);
  }

  lemma CutTrimmedIff(s: string, ok: char -> bool)
    requires Trimmed(s)
    ensures Trimmed(Checked(Take(s, STR_MAX_LEN), ok)) <==>
      (|s| <= STR_MAX_LEN || !IsSpace(s[STR_MAX_LEN - 1]) || !Matches(Take(s, STR_MAX_LEN), ok))
  {
    var cut := Take(s, STR_MAX_LEN);
    if |s| > STR_MAX_LEN {
      assert cut[0] == s[0] && cut[|cut| - 1] == s[STR_MAX_LEN - 1];
    } else {
      assert cut == s;
    }
  }

  /** The URL sanitiser rejects what is too long instead of cutting it, and is idempotent. */
  lemma UrlIdempotent(value: string)
    ensures Url(Url(value)) == Url(value)
    ensures All(Url(value), UrlChar) && Trimmed(Url(value)) && |Url(value)| <= URL_MAX_LEN
  {
    StripTrims(value);
    WholeFixed(Strip(value));
    StripFixedIff(Url(value));
  }

  lemma WholeFixed(s: string)
    requires Trimmed(s)
    ensures All(Whole(s), UrlChar) && Trimmed(Whole(s)) && Whole(Whole(s)) == Whole(s) && |Whole(s)| <= URL_MAX_LEN
  {
    TrimmedMatches(s, UrlChar);
  }

  // ----- what may be printed between quotes -----

  lemma GlobPlain(s: string)
    requires All(s, GlobChar)
    ensures All(s, Toml.PlainChar)
  {
  }

  lemma UrlPlain(s: string)
    requires All(s, UrlChar)
    ensures All(s, Toml.PlainChar)
  {
  }

  lemma ArgvPlain(s: string)
    requires All(s, ArgvChar)
    ensures All(s, Toml.PlainChar) && Trimmed(s)
  {
  }

  lemma ModelGlob(s: string)
    requires All(s, ModelChar) && s != "" && |s| <= STR_MAX_LEN
    ensures Glob(s) == s && Trimmed(s)
  {
    CleanFixed(s, GlobChar);
  }
}
