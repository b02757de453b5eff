/** The reader of the current brain, and what it finds after a switch. */
module BrainReader {
  import opened Prelude
  import opened Sanitize
  import opened BrainSync
  import opened Toml
  import L = TomlLines
  import Lines

  function RootValue(doc: Doc, key: string): Option<Value> {
    match TableAt(doc, [])
    case Some(es) => Lookup(es, key)
    case None => None
  }

  /** The brain named in the file; a file that does not parse, another type and an unsafe name all count as none. */
  function ReadBrain(text: string): Option<string> {
    match Parse(text)
    case Some(doc) =>
      (match RootValue(doc, KEY)
       case Some(Str(name)) => if SaveName(name) then Some(name) else None
       case _ => None)
    case None => None
  }

  // ----- the lines of the file -----

  function LinesOf(t: string): seq<string> { Lines.Complete(t, '\n') + [Lines.Tail(t, '\n')] }

  lemma LinesAbove(a: string, t: string)
    requires '\n' !in a
    ensures LinesOf(Above(a, t)) == [a] + LinesOf(t)
  {
    assert Above(a, t) == a + ['\n'] + t;
    Lines.CutFirst(a, t, '\n');
    Assoc([a], Lines.Complete(t, '\n'), [Lines.Tail(t, '\n')]);
  }

  function HeadLines(version: string): seq<string> { [TITLE] + ([NOTE] + ([""] + [VersionLine(version)])) }

  lemma LinesBelow(version: string, t: string)
    requires '\n' !in version
    ensures LinesOf(Above(TITLE, Above(NOTE, Above("", Above(VersionLine(version), t))))) == HeadLines(version) + LinesOf(t)
  {
    TitlesPlain();
    VersionPlain(version);
    LinesAbove(VersionLine(version), t);
    LinesAbove("", Above(VersionLine(version), t));
    LinesAbove(NOTE, Above("", Above(VersionLine(version), t)));
    LinesAbove(TITLE, Above(NOTE, Above("", Above(VersionLine(version), t))));
    Assoc([TITLE], [NOTE] + ([""] + [VersionLine(version)]), LinesOf(t));
    Assoc([NOTE], [""] + [VersionLine(version)], LinesOf(t));
    Assoc([""], [VersionLine(version)], LinesOf(t));
  }

  /** The file is read as its head, the line of the brain, and the rest. */
  lemma ParseParts(version: string, line: string, rest: string)
    requires '\n' !in version && '\n' !in line
    ensures Parse(Above(TITLE, Above(NOTE, Above("", Above(VersionLine(version), Above(line, rest))))))
         == match (ParseLines(HeadLines(version)), ParseLine(line), ParseLines(LinesOf(rest)))
            case (Some(head), Some(item), Some(more)) => Build(EMPTY, head + ([item] + more))
            case (_, _, _) => None
  {
    LinesBelow(version, Above(line, rest));
    LinesAbove(line, rest);
    EachConcat(ParseLine, HeadLines(version), [line] + LinesOf(rest));
    EachConcat(ParseLine, [line], LinesOf(rest));
    EachOne(ParseLine, line);
  }

  lemma EachOne<A, B>(f: A -> Option<B>, x: A)
    ensures Each(f, [x]) == match f(x) case Some(y) => Some([y]) case None => None
  {
    var none: seq<A> := [];
    EachAppend(f, none, x);
    assert none + [x] == [x] && Each(f, none) == Some([]);
    if f(x).Some? { assert [] + [f(x).value] == [f(x).value]; }
  }

  lemma BrainLineIs(name: string)
    ensures BrainLine(name) == KEY + (" = " + ("\"" + (name + "\"")))
  {
    Assoc(" =", " ", "\"" + (name + "\""));
    Assoc(" ", "=", " " + ("\"" + (name + "\"")));
  }

  lemma BrainLineRead(name: string)
    requires All(name, BrainChar)
    ensures ParseLine(BrainLine(name)) == Some(Pair(KEY, Str(name))) && '\n' !in BrainLine(name)
  {
    var line := L.Line(Pair(KEY, Str(name)), false);
    BrainLineIs(name);
    NamePlain(name);
    KeyBare();
    Assoc("\"", name, "\"");
    assert Put(Str(name), "") == Quoted(name) + "" == "\"" + (name + "\"");
    L.LineBack(line);
    L.LineUnbroken(line);
  }

  lemma KeyBare()
    ensures IsBare(KEY)
  {
  }

  lemma NamePlain(name: string)
    requires All(name, BrainChar)
    ensures All(name, PlainChar) && '\n' !in name && '"' !in name
  {
  }

  lemma EachFour<A, B>(f: A -> Option<B>, a: A, b: A, c: A, d: A, w: B, x: B, y: B, z: B)
    requires f(a) == Some(w) && f(b) == Some(x) && f(c) == Some(y) && f(d) == Some(z)
    ensures Each(f, [a] + ([b] + ([c] + [d]))) == Some([w, x, y, z])
  {
    EachOne(f, a);
    EachOne(f, b);
    EachOne(f, c);
    EachOne(f, d);
    EachConcat(f, [c], [d]);
    EachConcat(f, [b], [c] + [d]);
    EachConcat(f, [a], [b] + ([c] + [d]));
    assert [w] + ([x] + ([y] + [z])) == [w, x, y, z];
  }

  lemma CommentRead(line: string)
    requires line != "" && line[0] == '#' && All(line[1..], CommentChar)
    ensures ParseLine(line) == Some(Comment(line[1..]))
  {
    assert line == "#" + line[1..];
    L.LineBack(L.Line(Comment(line[1..]), false));
  }

  lemma TitleRead()
    ensures ParseLine(TITLE) == Some(Comment(TITLE[1..]))
  {
    var p: char -> bool := CommentChar;
    AllAppend(" Surreal-Memory", " Configuration", p);
    assert TITLE[1..] == " Surreal-Memory" + " Configuration";
    CommentRead(TITLE);
  }

  lemma NoteRead()
    ensures ParseLine(NOTE) == Some(Comment(NOTE[1..]))
  {
    var p: char -> bool := CommentChar;
    AllAppend(" by CLI, MCP server,", " and all integrations", p);
    AllAppend("# This config is shared", " by CLI, MCP server," + " and all integrations", p);
    CommentRead(NOTE);
  }

  lemma VersionRead(version: string)
    requires All(version, PlainChar)
    ensures ParseLine(VersionLine(version)) == Some(Pair("version", Str(version)))
  {
    var line := L.Line(Pair("version", Str(version)), false);
    assert Put(Str(version), "") == "\"" + (version + "\"");
    assert L.LineText(line) == "version" + (" = " + Put(Str(version), ""));
    assert VersionLine(version) == L.LineText(line);
    L.LineBack(line);
  }

  /** The head of a saved file: two comments, a blank line and the version. */
  lemma HeadRead(version: string)
    requires All(version, PlainChar)
    ensures ParseLines(HeadLines(version)) == Some([Comment(TITLE[1..]), Comment(NOTE[1..]), Blank, Pair("version", Str(version))])
  {
    TitleRead();
    NoteRead();
    L.LineBack(L.Line(Blank, false));
    VersionRead(version);
    EachFour(ParseLine, TITLE, NOTE, "", VersionLine(version),
             Comment(TITLE[1..]), Comment(NOTE[1..]), Blank, Pair("version", Str(version)));
  }

  // ----- building with one value changed -----

  function Keys(es: seq<Entry>): seq<string> { Map((e: Entry) => e.key, es) }

  lemma HasKeyIff(es: seq<Entry>, key: string)
    ensures HasKey(es, key) <==> key in Keys(es)
  {
    if HasKey(es, key) {
      var i :| 0 <= i < |es| && es[i].key == key;
      assert Keys(es)[i] == key;
    }
  }

  lemma SameHasKey(es: seq<Entry>, fs: seq<Entry>)
    requires Keys(es) == Keys(fs)
    ensures forall key :: HasKey(es, key) <==> HasKey(fs, key)
  {
    forall key ensures HasKey(es, key) <==> HasKey(fs, key) { HasKeyIff(es, key); HasKeyIff(fs, key); }
  }

  /** Two documents that differ in values only. */
  ghost predicate SameShape(d: Doc, e: Doc) {
    |d| == |e| && forall i :: 0 <= i < |d| ==> d[i].path == e[i].path && Keys(d[i].entries) == Keys(e[i].entries)
  }

  lemma SameClashes(d: Doc, e: Doc, path: seq<string>, key: string)
    requires d != [] && SameShape(d, e)
    ensures HeaderClashes(d, path) <==> HeaderClashes(e, path)
    ensures KeyClashes(d, key) <==> KeyClashes(e, key)
  {
    forall i | 0 <= i < |d| ensures forall k :: HasKey(d[i].entries, k) <==> HasKey(e[i].entries, k) { SameHasKey(d[i].entries, e[i].entries); }
  }

  lemma AddPairShape(d: Doc, e: Doc, key: string, v: Value, w: Value)
    requires d != [] && SameShape(d, e)
    ensures SameShape(AddPair(d, key, v), AddPair(e, key, w))
  {
    var n := |d| - 1;
    MapAppend((x: Entry) => x.key, d[n].entries, [Entry(key, v)]);
    MapAppend((x: Entry) => x.key, e[n].entries, [Entry(key, w)]);
    assert Keys([Entry(key, v)]) == [key] == Keys([Entry(key, w)]);
  }

  lemma AddItemShape(d: Doc, e: Doc, item: Item)
    requires d != [] && SameShape(d, e)
    ensures AddItem(d, item).Some? <==> AddItem(e, item).Some?
    ensures AddItem(d, item).Some? ==> AddItem(d, item).value != [] && SameShape(AddItem(d, item).value, AddItem(e, item).value)
  {
    match item
    case Header(path) => SameClashes(d, e, path, "");
    case Pair(key, value) =>
      SameClashes(d, e, [], key);
      AddPairShape(d, e, key, value, value);
    case _ =>
  }

  lemma {:induction false} BuildShape(d: Doc, e: Doc, items: seq<Item>)
    requires d != [] && SameShape(d, e)
    ensures Build(d, items).Some? <==> Build(e, items).Some?
    decreases |items|
  {
    if items != [] {
      AddItemShape(d, e, items[0]);
      if AddItem(d, items[0]).Some? { BuildShape(AddItem(d, items[0]).value, AddItem(e, items[0]).value, items[1..]); }
    }
  }

  // ----- the root table -----

  /** The root keeps its entries. */
  ghost predicate RootGrows(d: Doc, e: Doc) { d != [] && e != [] && d[0].path == e[0].path && d[0].entries <= e[0].entries }

  lemma {:induction false} BuildGrows(d: Doc, items: seq<Item>)
    requires d != [] && Build(d, items).Some?
    ensures RootGrows(d, Build(d, items).value)
    decreases |items|
  {
    if items != [] {
      assert RootGrows(d, AddItem(d, items[0]).value);
      BuildGrows(AddItem(d, items[0]).value, items[1..]);
    }
  }

  /** No header begins like this. */
  predicate Ordinary(line: string) { line == "" || (!IsWs(line[0]) && line[0] != '[') }

  lemma PairKind(key: Option<(string, string)>)
    ensures PairAfter(key).Some? ==> !PairAfter(key).value.Header?
  {
  }

  lemma LineKind(line: string)
    requires Ordinary(line)
    ensures ParseLine(line).Some? ==> !ParseLine(line).value.Header?
  {
    SkipNone(line);
    PairKind(ParseKey(line));
    if line != "" && line[0] != '#' { assert ParseLine(line) == PairAfter(ParseKey(line)); }
  }

  lemma AllFour(a: string, b: string, c: string, d: string, p: string -> bool)
    requires p(a) && p(b) && p(c) && p(d)
    ensures All([a] + ([b] + ([c] + [d])), p)
  {
    AllAppend([c], [d], p);
    AllAppend([b], [c] + [d], p);
    AllAppend([a], [b] + ([c] + [d]), p);
  }

  lemma HeadKinds(version: string)
    requires '\n' !in version
    ensures All(HeadLines(version), Ordinary)
  {
    TitlesPlain();
    VersionPlain(version);
    AllFour(TITLE, NOTE, "", VersionLine(version), Ordinary);
  }

  lemma {:induction false} EachKinds(lines: seq<string>, items: seq<Item>)
    requires ParseLines(lines) == Some(items) && All(lines, Ordinary)
    ensures forall i :: 0 <= i < |items| ==> !items[i].Header?
  {
    if lines != [] {
      var n := |lines| - 1;
      LineKind(lines[n]);
      EachKinds(lines[..n], Each(ParseLine, lines[..n]).value);
    }
  }

  /** Without headers there is but the root. */
  lemma {:induction false} RootOnly(d: Doc, items: seq<Item>)
    requires |d| == 1 && Build(d, items).Some? && forall i :: 0 <= i < |items| ==> !items[i].Header?
    ensures |Build(d, items).value| == 1 && Build(d, items).value[0].path == d[0].path
    decreases |items|
  {
    if items != [] { RootOnly(AddItem(d, items[0]).value, items[1..]); }
  }

  lemma {:induction false} LookupFirst(es: seq<Entry>, key: string, v: Value, fs: seq<Entry>)
    requires !HasKey(es, key) && es + [Entry(key, v)] <= fs
    ensures Lookup(fs, key) == Some(v)
  {
    if es == [] {
      assert fs[0] == Entry(key, v);
    } else {
      assert (es + [Entry(key, v)])[0] == es[0] == fs[0] && es[0].key != key;
      assert (es + [Entry(key, v)])[1..] == es[1..] + [Entry(key, v)];
      forall i | 0 <= i < |es[1..]| ensures es[1..][i].key != key { assert es[i + 1].key != key; }
      LookupFirst(es[1..], key, v, fs[1..]);
    }
  }

  /** A pair put into the root is found there in the end. */
  lemma PairFound(root: Table, key: string, v: Value, more: seq<Item>, doc: Doc)
    requires root.path == [] && !HasKey(root.entries, key)
    requires Build(AddPair([root], key, v), more) == Some(doc)
    ensures RootValue(doc, key) == Some(v)
  {
    var d := AddPair([root], key, v);
    BuildGrows(d, more);
    assert d == [Table([], root.entries + [Entry(key, v)])];
    LookupFirst(root.entries, key, v, doc[0].entries);
  }

  lemma ThreeParts(head: seq<Item>, item: Item, more: seq<Item>, d: Doc)
    requires Build(EMPTY, head) == Some(d)
    ensures Build(EMPTY, head + ([item] + more)) == match AddItem(d, item) case Some(next) => Build(next, more) case None => None
  {
    L.BuildAppend(EMPTY, head, [item] + more);
    assert ([item] + more)[0] == item && ([item] + more)[1..] == more;
  }

  lemma NotTaken(root: Table, key: string)
    requires !KeyClashes([root], key)
    ensures !HasKey(root.entries, key)
  {
    assert [root][|[root]| - 1] == root;
  }

  /** With another value for a pair of the root the document still builds, and has that value. */
  lemma OtherRootValue(root: Table, key: string, v: Value, w: Value, more: seq<Item>)
    requires root.path == [] && !KeyClashes([root], key) && Build(AddPair([root], key, v), more).Some?
    ensures Build(AddPair([root], key, w), more).Some?
    ensures RootValue(Build(AddPair([root], key, w), more).value, key) == Some(w)
  {
    AddPairShape([root], [root], key, v, w);
    BuildShape(AddPair([root], key, v), AddPair([root], key, w), more);
    NotTaken(root, key);
    PairFound(root, key, w, more, Build(AddPair([root], key, w), more).value);
  }

  /** The same, below a head without headers. */
  lemma OtherValue(head: seq<Item>, key: string, v: Value, w: Value, more: seq<Item>)
    requires forall i :: 0 <= i < |head| ==> !head[i].Header?
    requires Build(EMPTY, head + ([Pair(key, v)] + more)).Some?
    ensures Build(EMPTY, head + ([Pair(key, w)] + more)).Some?
    ensures RootValue(Build(EMPTY, head + ([Pair(key, w)] + more)).value, key) == Some(w)
  {
    L.BuildAppend(EMPTY, head, [Pair(key, v)] + more);
    var d := Build(EMPTY, head).value;
    RootOnly(EMPTY, head);
    ThreeParts(head, Pair(key, v), more, d);
    ThreeParts(head, Pair(key, w), more, d);
    assert d == [d[0]];
    OtherRootValue(d[0], key, v, w, more);
  }

  // ----- results -----

  lemma SavedReads(version: string, brain: string, rest: string, name: string)
    requires '\n' !in version && All(brain, BrainChar) && Parse(Saved(version, brain, rest)).Some?
    requires name != "" && All(name, BrainChar)
    ensures ReadBrain(Saved(version, name, rest)) == Some(name)
  {
    BrainLineRead(brain);
    BrainLineRead(name);
    ParseParts(version, BrainLine(brain), rest);
    ParseParts(version, BrainLine(name), rest);
    var head := ParseLines(HeadLines(version)).value;
    HeadKinds(version);
    EachKinds(HeadLines(version), head);
    OtherValue(head, KEY, Str(brain), Str(name), ParseLines(LinesOf(rest)).value);
  }

  lemma OpenString(n: string)
    requires All(n, BrainChar)
    ensures ParseValue("\"" + n) == None
  {
    var t := "\"" + n;
    assert t[1..] == n;
    NamePlain(n);
    SpanOf(n, "", PlainChar);
    assert n + "" == n;
  }

  /** A string that is not closed on its line is no value. */
  lemma OpenLineRefused(n: string)
    requires All(n, BrainChar)
    ensures ParseLine(KEY + (" = " + ("\"" + n))) == None
  {
    var text := "\"" + n;
    var rest := L.Equals(text);
    KeyBare();
    L.KeyBack(KEY, false, rest);
    L.KeyLine(KEY + rest);
    OpenString(n);
    assert PairAfter(Some((KEY, rest))) == PairEnd(KEY, ParseValue(text));
  }

  lemma BrokenLine(n: string, rest: string)
    requires All(n, BrainChar)
    ensures Above(BrainLine(n + "\n"), rest) == Above(KEY + (" = " + ("\"" + n)), "\"" + ("\n" + rest))
    ensures '\n' !in KEY + (" = " + ("\"" + n))
  {
    BrainLineIs(n + "\n");
    NamePlain(n);
    assert '\n' !in KEY && '\n' !in " = " && '\n' !in "\"";
    var open, tail := KEY + (" = " + ("\"" + n)), "\"" + ("\n" + rest);
    Assoc(n, "\n", "\"");
    Assoc("\"", n, "\n" + "\"");
    Assoc(" = ", "\"" + n, "\n" + "\"");
    Assoc(KEY, " = " + ("\"" + n), "\n" + "\"");
    assert BrainLine(n + "\n") == open + ("\n" + "\"");
    Assoc(open, "\n" + "\"", "\n" + rest);
    Assoc("\n", "\"", "\n" + rest);
  }

  lemma BrokenNeverReads(version: string, n: string, rest: string)
    requires '\n' !in version && All(n, BrainChar)
    ensures ReadBrain(Saved(version, n + "\n", rest)) == None
  {
    var open, tail := KEY + (" = " + ("\"" + n)), "\"" + ("\n" + rest);
    BrokenLine(n, rest);
    OpenLineRefused(n);
    ParseParts(version, open, tail);
  }

  /**
   After a switch in a saved file that could be read, the reader finds the new brain, unless its name ends in a line
   break: the switch lets such a name pass, and the file can then no longer be read.
   */
  lemma SwitchIsRead(version: string, brain: string, rest: string, name: string)
    requires '\n' !in version && SaveName(brain) && '\n' !in brain && SyncName(name)
    requires Parse(Saved(version, brain, rest)).Some?
    ensures ReadBrain(Sync(Saved(version, brain, rest), name)) == if '\n' in name then None else Some(name)
  {
    NameQuoteFree(brain);
    SyncSaved(version, brain, rest, name);
    if All(name, BrainChar) {
      NamePlain(name);
      SavedReads(version, brain, rest, name);
    } else {
      var n := name[..|name| - 1];
      assert name == n + "\n";
      BrokenNeverReads(version, n, rest);
    }
  }
}
