/**
 Switching the current brain: one writer edits a single line of the configuration file by a regular expression, the
 other prints the whole file, and a reader parses it.  White space, and what follows the head of the file, are arbitrary.
 */
module BrainSync {
  import opened Prelude
  import opened PyString
  import opened Sanitize
  import Lines

  const KEY := "current_brain"

  // ----- the edit -----

  /** The text after the key. */
  function AfterKey(t: string): Option<string> { if KEY <= t then Some(t[|KEY|..]) else None }

  /** The text after white space and then this character. */
  function AfterChar(t: string, c: char): Option<string> {
    var u := StripLeft(t);
    if u != "" && u[0] == c then Some(u[1..]) else None
  }

  function AfterQuote(t: string): Option<string> {
    var n := Lines.IndexOf(t, '"');
    if n < |t| then Some(t[n + 1..]) else None
  }

  function Then(t: Option<string>, after: string -> Option<string>): Option<string> {
    match t case Some(u) => after(u) case None => None
  }

  /** What follows a match of `current_brain\s*=\s*"[^"]*"` at the head of t. */
  function MatchHead(t: string): Option<string> {
    match AfterKey(t)
    case None => None
    case Some(u) => Then(Then(AfterChar(u, '='), (v: string) => AfterChar(v, '"')), AfterQuote)
  }

  /** The first match at the start of a line is replaced; `start` says whether t starts one. */
  function Replace(t: string, start: bool, line: string): string
    decreases t
  {
    if start && MatchHead(t).Some? then line + MatchHead(t).value
    else if t == "" then ""
    else [t[0]] + Replace(t[1..], t[0] == '\n', line)
  }

  predicate BrainChar(c: char) { Word(c) || c == '.' || c == '_' || c == '-' }

  /** `^[a-zA-Z0-9][a-zA-Z0-9._-]*$`: a final line break passes. */
  predicate SyncName(name: string) { name != "" && Word(name[0]) && Matches(name, BrainChar) }

  /** `^[a-zA-Z0-9_\-\.]+$`. */
  predicate SaveName(name: string) { name != "" && name != "\n" && Matches(name, BrainChar) }

  function BrainLine(name: string): string { KEY + (" " + ("=" + (" " + ("\"" + (name + "\""))))) }

  function Sync(content: string, name: string): string {
    if SyncName(name) then Replace(content, true, BrainLine(name)) else content
  }

  // ----- the file as it is saved -----

  const TITLE := "# Surreal-Memory Configuration"
  const NOTE := "# This config is shared" + (" by CLI, MCP server," + " and all integrations")

  function VersionLine(version: string): string { "version = \"" + (version + "\"") }

  /** A line put before the rest of the text. */
  function Above(line: string, rest: string): string { line + ("\n" + rest) }

  /** `rest` is what follows from the line of the storage backend on. */
  function Saved(version: string, brain: string, rest: string): string {
    Above(TITLE, Above(NOTE, Above("", Above(VersionLine(version), Above(BrainLine(brain), rest)))))
  }

  /** A name that could break out of its quotes is refused. */
  function Save(version: string, brain: string, rest: string): Option<string> {
    if SaveName(brain) then Some(Saved(version, brain, rest)) else None
  }

  /** Saving is refused exactly for the names outside the pattern; else the file is its five first lines and the rest. */
  lemma SaveIff(version: string, brain: string, rest: string)
    ensures Save(version, brain, rest) == None <==> !SaveName(brain)
    ensures SaveName(brain) ==>
      Save(version, brain, rest) == Some(
        "# Surreal-Memory Configuration" + ("\n" +
        ("# This config is shared" + (" by CLI, MCP server," + " and all integrations") + ("\n" +
        ("\n" +
        ("version = \"" + (version + "\"") + ("\n" +
        (BrainLine(brain) + ("\n" + rest)))))))))
  {
    assert Above("", Above(VersionLine(version), Above(BrainLine(brain), rest)))
        == "\n" + Above(VersionLine(version), Above(BrainLine(brain), rest));
  }

  // ----- matching -----

  lemma NameQuoteFree(name: string)
    requires Matches(name, BrainChar)
    ensures '"' !in name
  {
  }

  lemma QuoteEnds(name: string, r: string)
    requires '"' !in name
    ensures AfterQuote(name + ("\"" + r)) == Some(r)
  {
    var t := name + ("\"" + r);
    assert t[|name|] == '"';
    Lines.IndexOfUnique(t, '"', |name|);
    assert t[|name| + 1..] == r;
  }

  lemma KeyRead(u: string)
    ensures AfterKey(KEY + u) == Some(u)
  {
  }

  lemma CharRead(c: string, w: string)
    requires |c| == 1 && !IsSpace(c[0])
    ensures AfterChar(" " + (c + w), c[0]) == Some(w)
  {
    var t := " " + (c + w);
    assert t[0] == ' ' && t[1..] == c + w;
    assert (c + w)[0] == c[0] && (c + w)[1..] == w;
    assert StripLeft(t) == StripLeft(t[1..]) == c + w;
  }

  lemma LineGrouped(name: string, r: string)
    ensures BrainLine(name) + r == KEY + (" " + ("=" + (" " + ("\"" + (name + ("\"" + r))))))
  {
    Assoc(name, "\"", r);
    Assoc("\"", name + "\"", r);
    Assoc(" ", "\"" + (name + "\""), r);
    Assoc("=", " " + ("\"" + (name + "\"")), r);
    Assoc(" ", "=" + (" " + ("\"" + (name + "\""))), r);
    Assoc(KEY, " " + ("=" + (" " + ("\"" + (name + "\"")))), r);
  }

  lemma LineMatches(name: string, r: string)
    requires '"' !in name
    ensures MatchHead(BrainLine(name) + r) == Some(r)
  {
    var w := name + ("\"" + r);
    var v := " " + ("\"" + w);
    LineGrouped(name, r);
    KeyRead(" " + ("=" + v));
    CharRead("=", v);
    CharRead("\"", w);
    QuoteEnds(name, r);
  }

  /** A line that does not begin like the key is left alone. */
  lemma SkipLine(a: string, t: string, line: string)
    requires '\n' !in a && (a == "" || a[0] != 'c')
    ensures Replace(Above(a, t), true, line) == Above(a, Replace(t, true, line))
  {
    var s := Above(a, t);
    assert s[0] == if a == "" then '\n' else a[0];
    assert KEY[0] == 'c';
    assert MatchHead(s).None?;
    SkipRest(a, t, line);
    assert Replace(s, true, line) == Replace(s, false, line);
  }

  lemma {:induction false} SkipRest(a: string, t: string, line: string)
    requires '\n' !in a
    ensures Replace(Above(a, t), false, line) == Above(a, Replace(t, true, line))
  {
    var s := Above(a, t);
    if a == "" {
      assert s[0] == '\n' && s[1..] == t;
    } else {
      assert s[0] == a[0] && s[1..] == Above(a[1..], t);
      SkipRest(a[1..], t, line);
      assert [a[0]] + Above(a[1..], Replace(t, true, line)) == Above(a, Replace(t, true, line));
    }
  }

  lemma ReplaceHere(brain: string, rest: string, line: string)
    requires '"' !in brain
    ensures Replace(Above(BrainLine(brain), rest), true, line) == Above(line, rest)
  {
    LineMatches(brain, "\n" + rest);
  }

  lemma TitlesPlain()
    ensures '\n' !in TITLE && TITLE[0] == '#' && '\n' !in NOTE && NOTE[0] == '#'
  {
    assert '\n' !in "# This config is shared" && '\n' !in " by CLI, MCP server," && '\n' !in " and all integrations";
  }

  lemma VersionPlain(version: string)
    requires '\n' !in version
    ensures '\n' !in VersionLine(version) && VersionLine(version)[0] == 'v'
  {
  }

  lemma SkipFour(a: string, b: string, c: string, d: string, t: string, line: string)
    requires '\n' !in a && (a == "" || a[0] != 'c') && '\n' !in b && (b == "" || b[0] != 'c')
    requires '\n' !in c && (c == "" || c[0] != 'c') && '\n' !in d && (d == "" || d[0] != 'c')
    ensures Replace(Above(a, Above(b, Above(c, Above(d, t)))), true, line) == Above(a, Above(b, Above(c, Above(d, Replace(t, true, line)))))
  {
    SkipLine(d, t, line);
    SkipLine(c, Above(d, t), line);
    SkipLine(b, Above(c, Above(d, t)), line);
    SkipLine(a, Above(b, Above(c, Above(d, t))), line);
  }

  lemma SyncSaved(version: string, brain: string, rest: string, name: string)
    requires '\n' !in version && '"' !in brain && SyncName(name)
    ensures Sync(Saved(version, brain, rest), name) == Saved(version, name, rest)
  {
    TitlesPlain();
    VersionPlain(version);
    ReplaceHere(brain, rest, BrainLine(name));
    SkipFour(TITLE, NOTE, "", VersionLine(version), Above(BrainLine(brain), rest), BrainLine(name));
  }

  /** The one-line edit of a saved file is the file saved with the other brain. */
  lemma SyncIsSave(version: string, brain: string, rest: string, name: string)
    requires '\n' !in version && SaveName(brain) && SyncName(name)
    ensures Save(version, brain, rest) == Some(Saved(version, brain, rest))
    ensures Save(version, name, rest) == Some(Sync(Saved(version, brain, rest), name))
  {
    NameQuoteFree(brain);
    SyncSaved(version, brain, rest, name);
    SyncNameSaves(name);
  }

  lemma SyncNameSaves(name: string)
    requires SyncName(name)
    ensures SaveName(name)
  {
    assert !Word('\n');
  }

  // ----- any content -----

  lemma {:induction false} StripLeftBefore(l: string, m: string)
    requires m != "" && !IsSpace(m[0])
    ensures StripLeft(l + m) == StripLeft(l) + m
  {
    if l == "" {
      assert l + m == m;
    } else {
      assert (l + m)[0] == l[0] && (l + m)[1..] == l[1..] + m;
      if IsSpace(l[0]) { StripLeftBefore(l[1..], m); }
    }
  }

  /** Text that may stand where the match does: it begins like the key and has a quote. */
  predicate KeyLike(m: string) { m != "" && m[0] == 'c' && '"' in m }

  lemma OneC(i: nat)
    requires 0 < i < |KEY|
    ensures KEY[i] != 'c'
  {
  }

  lemma KeyBefore(l: string, m: string)
    requires l != "" && KeyLike(m)
    ensures AfterKey(l + m) == match AfterKey(l) case Some(u) => Some(u + m) case None => None
  {
    var t := l + m;
    if KEY <= l {
      assert KEY <= t && t[|KEY|..] == l[|KEY|..] + m;
    } else if |l| < |KEY| {
      OneC(|l|);
      assert t[|l|] == 'c';
    } else {
      assert t[..|KEY|] == l[..|KEY|];
    }
  }

  lemma CharBefore(l: string, m: string, c: char)
    requires KeyLike(m) && c != 'c'
    ensures AfterChar(l + m, c) == match AfterChar(l, c) case Some(u) => Some(u + m) case None => None
  {
    StripLeftBefore(l, m);
    var u := StripLeft(l);
    if u == "" { assert u + m == m; } else { assert (u + m)[0] == u[0] && (u + m)[1..] == u[1..] + m; }
  }

  lemma QuoteFound(l: string, m: string)
    requires KeyLike(m)
    ensures AfterQuote(l + m).Some?
  {
    var i :| 0 <= i < |m| && m[i] == '"';
    assert (l + m)[|l| + i] == '"';
  }

  /** Whether a match starts before m does not depend on m. */
  lemma MatchBefore(l: string, m: string)
    requires l != "" && KeyLike(m)
    ensures MatchHead(l + m).Some? <==>
      (AfterKey(l).Some? && Then(AfterChar(AfterKey(l).value, '='), (v: string) => AfterChar(v, '"')).Some?)
  {
    KeyBefore(l, m);
    if AfterKey(l).Some? {
      var u := AfterKey(l).value;
      CharBefore(u, m, '=');
      if AfterChar(u, '=').Some? {
        var v := AfterChar(u, '=').value;
        CharBefore(v, m, '"');
        if AfterChar(v, '"').Some? { QuoteFound(AfterChar(v, '"').value, m); }
      }
    }
  }

  lemma {:induction false} StripLeftSuffix(t: string)
    ensures |StripLeft(t)| <= |t| && StripLeft(t) == t[|t| - |StripLeft(t)|..]
  {
    if t != "" && IsSpace(t[0]) { StripLeftSuffix(t[1..]); }
  }

  lemma HasQuote(t: string, c: char)
    requires AfterChar(t, c).Some?
    ensures (c == '"' ==> '"' in t) && ('"' in AfterChar(t, c).value ==> '"' in t)
  {
    StripLeftSuffix(t);
    var u := StripLeft(t);
    forall x | x in u ensures x in t {}
    assert u[0] in u;
    if '"' in u[1..] { assert '"' in u; }
  }

  lemma MatchKeyLike(t: string)
    requires MatchHead(t).Some?
    ensures KeyLike(t)
  {
    var u := AfterKey(t).value;
    assert t[0] == KEY[0] == 'c';
    var v := AfterChar(u, '=').value;
    HasQuote(v, '"');
    HasQuote(u, '=');
    assert forall x :: x in u ==> x in t;
  }

  /** Where the edit takes place, if it does. */
  lemma {:induction false} Decompose(t: string, start: bool, line: string) returns (found: bool, l: string, m: string, r: string)
    ensures !found ==> Replace(t, start, line) == t
    ensures found ==> t == l + m && KeyLike(m) && Replace(t, start, line) == l + (line + r)
    decreases t
  {
    if start && MatchHead(t).Some? {
      found, l, m, r := true, "", t, MatchHead(t).value;
      MatchKeyLike(t);
    } else if t == "" {
      found, l, m, r := false, "", "", "";
    } else {
      found, l, m, r := Decompose(t[1..], t[0] == '\n', line);
      if found {
        Assoc([t[0]], l, m);
        Assoc([t[0]], l, line + r);
        l := [t[0]] + l;
      }
    }
  }

  lemma LineKeyLike(name: string, r: string)
    ensures KeyLike(BrainLine(name) + r)
  {
    var quoted := "\"" + (name + ("\"" + r));
    LineGrouped(name, r);
    assert (BrainLine(name) + r)[0] == KEY[0];
    assert quoted[0] == '"' && '"' in quoted;
    InLater(KEY, " " + ("=" + (" " + quoted)), '"');
    InLater(" ", "=" + (" " + quoted), '"');
    InLater("=", " " + quoted, '"');
    InLater(" ", quoted, '"');
  }

  lemma InLater(a: string, b: string, c: char)
    ensures c in b ==> c in a + b
  {
  }

  /** An earlier edit brings about no match before its own place. */
  lemma NoEarlierMatch(c: char, t: string, start: bool, name: string)
    requires MatchHead([c] + t).None?
    ensures MatchHead([c] + Replace(t, start, BrainLine(name))).None?
  {
    var line := BrainLine(name);
    var found, l, m, r := Decompose(t, start, line);
    if found {
      LineKeyLike(name, r);
      Assoc([c], l, m);
      Assoc([c], l, line + r);
      MatchBefore([c] + l, m);
      MatchBefore([c] + l, line + r);
    }
  }

  lemma {:induction false} ReplaceTwice(t: string, start: bool, a: string, b: string)
    requires '"' !in a
    ensures Replace(Replace(t, start, BrainLine(a)), start, BrainLine(b)) == Replace(t, start, BrainLine(b))
    decreases t
  {
    if start && MatchHead(t).Some? {
      LineMatches(a, MatchHead(t).value);
    } else if t != "" {
      var next := t[0] == '\n';
      var once := Replace(t[1..], next, BrainLine(a));
      ReplaceTwice(t[1..], next, a, b);
      assert t == [t[0]] + t[1..];
      if start { NoEarlierMatch(t[0], t[1..], next, a); }
      assert ([t[0]] + once)[0] == t[0] && ([t[0]] + once)[1..] == once;
    }
  }

  /** Whatever the file, the last switch is the only one that shows. */
  lemma LastSyncWins(content: string, a: string, b: string)
    requires SyncName(b)
    ensures Sync(Sync(content, a), b) == Sync(content, b)
  {
    if SyncName(a) {
      NameQuoteFree(a);
      ReplaceTwice(content, true, a, b);
    }
  }
}
