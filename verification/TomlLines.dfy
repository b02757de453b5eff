/** Whole lines and whole documents: what is printed line by line reads back as the same items. */
module TomlLines {
  import opened Prelude
  import opened Toml
  import Lines

  /** A printed line: an item, and for a pair whether its key is quoted. */
  datatype Line = Line(item: Item, quotedKey: bool)

  function PutKey(key: string, quoted: bool, rest: string): string {
    if quoted then "\"" + (key + ("\"" + rest)) else key + rest
  }

  function LineText(line: Line): string {
    match line.item
    case Blank => ""
    case Comment(text) => "#" + text
    case Header(path) =>
      if path == [] then "[]"
      else if |path| == 1 then "[" + (path[0] + "]")
      else "[" + (path[0] + ("." + (path[1] + "]")))
    case Pair(key, value) => PutKey(key, line.quotedKey, " = " + Put(value, ""))
  }

  predicate WellFormed(line: Line) {
    match line.item
    case Blank => true
    case Comment(text) => All(text, CommentChar)
    case Header(path) => 1 <= |path| <= 2 && forall i :: 0 <= i < |path| ==> IsBare(path[i])
    case Pair(key, value) => Printable(value) && if line.quotedKey then All(key, PlainChar) else IsBare(key)
  }

  // ----- one line -----

  lemma KeyBack(key: string, quoted: bool, rest: string)
    requires if quoted then All(key, PlainChar) else IsBare(key)
    requires quoted || rest == "" || !BareChar(rest[0])
    ensures ParseKey(PutKey(key, quoted, rest)) == Some((key, rest))
    ensures var s := PutKey(key, quoted, rest); s != "" && !IsWs(s[0]) && s[0] != '#' && s[0] != '['
  {
    if quoted {
      Behead("\"", key + ("\"" + rest));
      Assoc(key, "\"", rest);
      ScanQuoted(key, rest);
    } else {
      SpanOf(key, rest, BareChar);
      HeadKept(key, rest);
      assert BareChar(key[0]);
    }
  }

  lemma Equals(text: string) returns (rest: string)
    requires text != "" && !IsWs(text[0])
    ensures rest == " = " + text && rest != "" && !BareChar(rest[0])
    ensures SkipWs(rest) != "" && SkipWs(rest)[0] == '=' && SkipWs(SkipWs(rest)[1..]) == text
  {
    var after := " " + text;
    var equals := "=" + after;
    rest := " " + equals;
    Assoc(" ", "=", after);
    Assoc(" =", " ", text);
    Behead("=", after);
    SkipOne(equals);
    SkipOne(text);
  }

  lemma PairLine(key: string, rest: string, text: string, value: Value)
    requires SkipWs(rest) != "" && SkipWs(rest)[0] == '=' && SkipWs(SkipWs(rest)[1..]) == text
    requires ParseValue(text) == Some((value, ""))
    ensures PairAfter(Some((key, rest))) == Some(Pair(key, value))
  {
    assert Ends("");
  }

  lemma KeyLine(s: string)
    requires s != "" && !IsWs(s[0]) && s[0] != '#' && s[0] != '['
    ensures ParseLine(s) == PairAfter(ParseKey(s))
  {
    SkipNone(s);
  }

  lemma PairBack(key: string, quoted: bool, value: Value)
    requires Printable(value) && if quoted then All(key, PlainChar) else IsBare(key)
    ensures ParseLine(PutKey(key, quoted, " = " + Put(value, ""))) == Some(Pair(key, value))
  {
    PutStarts(value, "");
    ValueBack(value, "");
    var rest := Equals(Put(value, ""));
    KeyBack(key, quoted, rest);
    PairLine(key, rest, Put(value, ""), value);
    KeyLine(PutKey(key, quoted, rest));
  }

  lemma KeyStart(key: string, rest: string)
    requires IsBare(key) && (rest == "" || !BareChar(rest[0]))
    ensures SkipWs(key + rest) == key + rest && ParseKey(key + rest) == Some((key, rest))
  {
    KeyBack(key, false, rest);
    SkipNone(key + rest);
  }

  lemma Punctuation(c: string, rest: string)
    requires c == "]" || c == "."
    ensures c + rest != "" && SkipWs(c + rest) == c + rest && (c + rest)[0] == c[0] && (c + rest)[1..] == rest && !BareChar((c + rest)[0])
  {
    Behead(c, rest);
    SkipNone(c + rest);
  }

  lemma HeaderLine(line: string, s: string)
    requires line != "" && line[0] == '[' && line[1..] == s
    ensures ParseLine(line) == ParseHeader(s)
  {
    assert !IsWs(line[0]);
    SkipNone(line);
    assert SkipWs(line) == line;
    assert line[0] != '#';
    assert ParseLine(line) == ParseHeader(line[1..]);
  }

  lemma OnePart(key: string)
    ensures HeaderAfter(Some((key, "]"))) == Some(Header([key]))
  {
    SkipNone("]");
    assert "]"[1..] == "";
    assert Ends("");
  }

  lemma TwoParts(key: string, t: string, sub: string)
    requires SkipWs(t) == t && ParseKey(t) == Some((sub, "]"))
    ensures HeaderAfter(Some((key, "." + t))) == Some(Header([key, sub]))
  {
    Punctuation(".", t);
    LastPart(key, sub);
  }

  lemma LastPart(key: string, sub: string)
    ensures HeaderEnd(key, Some((sub, "]"))) == Some(Header([key, sub]))
  {
    SkipNone("]");
    assert "]"[1..] == "";
    assert Ends("");
  }

  lemma OneHeader(key: string)
    requires IsBare(key)
    ensures ParseLine("[" + (key + "]")) == Some(Header([key]))
  {
    var s := key + "]";
    KeyStart(key, "]");
    OnePart(key);
    Behead("[", s);
    HeaderLine("[" + s, s);
  }

  lemma TwoHeader(key: string, sub: string)
    requires IsBare(key) && IsBare(sub)
    ensures ParseLine("[" + (key + ("." + (sub + "]")))) == Some(Header([key, sub]))
  {
    var t := sub + "]";
    var s := key + ("." + t);
    KeyStart(sub, "]");
    Punctuation(".", t);
    KeyStart(key, "." + t);
    TwoParts(key, t, sub);
    Behead("[", s);
    HeaderLine("[" + s, s);
  }

  lemma HeaderText(path: seq<string>)
    ensures |path| == 1 ==> path == [path[0]] && LineText(Line(Header(path), false)) == "[" + (path[0] + "]")
    ensures |path| == 2 ==>
      path == [path[0], path[1]] && LineText(Line(Header(path), false)) == "[" + (path[0] + ("." + (path[1] + "]")))
  {
  }

  lemma HeaderBack(path: seq<string>)
    requires 1 <= |path| <= 2 && forall i :: 0 <= i < |path| ==> IsBare(path[i])
    ensures ParseLine(LineText(Line(Header(path), false))) == Some(Header(path))
  {
    HeaderText(path);
    if |path| == 1 { OneHeader(path[0]); } else { TwoHeader(path[0], path[1]); }
  }

  lemma LineBack(line: Line)
    requires WellFormed(line)
    ensures ParseLine(LineText(line)) == Some(line.item)
  {
    match line.item
    case Blank =>
    case Comment(text) =>
      Behead("#", text);
      SkipNone("#" + text);
    case Header(path) => HeaderBack(path);
    case Pair(key, value) => PairBack(key, line.quotedKey, value);
  }

  // ----- no line breaks -----

  predicate NoBreak(c: char) { c != '\n' }

  lemma QuotedUnbroken(s: string, rest: string)
    requires All(s, PlainChar) && All(rest, NoBreak)
    ensures All(Quoted(s) + rest, NoBreak)
  {
    AllAppend("\"", s, NoBreak);
    AllAppend("\"" + s, "\"", NoBreak);
    AllAppend(Quoted(s), rest, NoBreak);
  }

  lemma TokenUnbroken(token: string, rest: string)
    requires All(token, TokenChar) && All(rest, NoBreak)
    ensures All(token + rest, NoBreak)
  {
    AllAppend(token, rest, NoBreak);
  }

  lemma {:induction false} PutUnbroken(v: Value, rest: string)
    requires Printable(v) && All(rest, NoBreak)
    ensures All(Put(v, rest), NoBreak)
    decreases v, 0
  {
    match v
    case Str(s) => QuotedUnbroken(s, rest);
    case Int(n) =>
      IntTextIsInt(n);
      TokenUnbroken(NatText(n), rest);
    case Float(text) => TokenUnbroken(text, rest);
    case Bool(b) => TokenUnbroken(if b then "true" else "false", rest);
    case Arr(items) =>
      ElementsUnbroken(items, rest);
      AllAppend("[", PutElements(items, rest), NoBreak);
  }

  lemma {:induction false} ElementsUnbroken(items: seq<Value>, rest: string)
    requires (forall i :: 0 <= i < |items| ==> Printable(items[i])) && All(rest, NoBreak)
    ensures All(PutElements(items, rest), NoBreak)
    decreases items, 1
  {
    AllAppend("]", rest, NoBreak);
    if |items| == 1 {
      PutUnbroken(items[0], "]" + rest);
    } else if |items| > 1 {
      ElementsUnbroken(items[1..], rest);
      AllAppend(", ", PutElements(items[1..], rest), NoBreak);
      PutUnbroken(items[0], ", " + PutElements(items[1..], rest));
    }
  }

  lemma LineUnbroken(line: Line)
    requires WellFormed(line)
    ensures '\n' !in LineText(line)
  {
    match line.item
    case Blank =>
    case Comment(text) => AllAppend("#", text, NoBreak);
    case Header(path) =>
      if |path| == 1 {
        AllAppend(path[0], "]", NoBreak);
        AllAppend("[", path[0] + "]", NoBreak);
      } else {
        var last := path[1] + "]";
        AllAppend(path[1], "]", NoBreak);
        AllAppend(".", last, NoBreak);
        AllAppend(path[0], "." + last, NoBreak);
        AllAppend("[", path[0] + ("." + last), NoBreak);
      }
    case Pair(key, value) =>
      PutUnbroken(value, "");
      var rest := " = " + Put(value, "");
      AllAppend(" = ", Put(value, ""), NoBreak);
      if line.quotedKey {
        AllAppend("\"", rest, NoBreak);
        AllAppend(key, "\"" + rest, NoBreak);
        AllAppend("\"", key + ("\"" + rest), NoBreak);
      } else {
        AllAppend(key, rest, NoBreak);
      }
    assert All(LineText(line), NoBreak);
  }

  // ----- whole documents -----

  function LineTexts(lines: seq<Line>): seq<string> { Map(LineText, lines) }

  function ItemsOf(lines: seq<Line>): seq<Item> { Map((l: Line) => l.item, lines) }

  /** The lines, each ended by a line break. */
  function Text(lines: seq<Line>): string { Lines.Join(LineTexts(lines), '\n') }

  lemma LinesBack(lines: seq<Line>)
    requires forall i :: 0 <= i < |lines| ==> WellFormed(lines[i])
    ensures ParseLines(LineTexts(lines)) == Some(ItemsOf(lines))
  {
    forall i | 0 <= i < |lines|
      ensures ParseLine(LineTexts(lines)[i]) == Some(ItemsOf(lines)[i])
    {
      LineBack(lines[i]);
    }
    EachIs(ParseLine, LineTexts(lines), ItemsOf(lines));
  }

  lemma {:induction false} BuildAppend(doc: Doc, a: seq<Item>, b: seq<Item>)
    requires doc != []
    ensures Build(doc, a + b) == match Build(doc, a) case Some(d) => Build(d, b) case None => None
    decreases |a|
  {
    if a == [] {
      assert a + b == b;
    } else {
      assert (a + b)[0] == a[0] && (a + b)[1..] == a[1..] + b;
      match AddItem(doc, a[0])
      case Some(next) => BuildAppend(next, a[1..], b);
      case None =>
    }
  }

  lemma BuildOne(doc: Doc, item: Item)
    requires doc != []
    ensures Build(doc, [item]) == AddItem(doc, item)
  {
    assert [item][1..] == [];
    match AddItem(doc, item)
    case Some(next) => assert Build(next, []) == Some(next);
    case None =>
  }

  /** Reading a printed document is building from its items. */
  lemma TextBack(lines: seq<Line>)
    requires forall i :: 0 <= i < |lines| ==> WellFormed(lines[i])
    ensures Parse(Text(lines)) == Build(EMPTY, ItemsOf(lines))
  {
    var texts := LineTexts(lines);
    forall i | 0 <= i < |texts| ensures '\n' !in texts[i] { LineUnbroken(lines[i]); }
    Lines.CutJoin(texts, "", '\n');
    assert Text(lines) + "" == Text(lines);
    LinesBack(lines);
    EachAppend(ParseLine, texts, "");
    BuildAppend(EMPTY, ItemsOf(lines), [Blank]);
    match Build(EMPTY, ItemsOf(lines))
    case Some(d) => BuildOne(d, Blank);
    case None =>
  }

  // ----- a run of pairs -----

  predicate DistinctKeys(entries: seq<Entry>) {
    forall i, j :: 0 <= i < j < |entries| ==> entries[i].key != entries[j].key
  }

  function PairItems(entries: seq<Entry>): seq<Item> { Map((e: Entry) => Pair(e.key, e.value), entries) }

  /** No table lies below the key of any of these entries in the current table. */
  ghost predicate Unshadowed(doc: Doc, entries: seq<Entry>)
    requires doc != []
  {
    forall i, j :: 0 <= i < |entries| && 0 <= j < |doc| ==> !(doc[|doc| - 1].path + [entries[i].key] <= doc[j].path)
  }

  function WithEntries(doc: Doc, entries: seq<Entry>): (r: Doc)
    requires doc != []
    ensures |r| == |doc|
  {
    var n := |doc| - 1;
    doc[..n] + [Table(doc[n].path, entries)]
  }

  /** Pairs are accepted exactly when their keys are new and different; then they are stored in order. */
  lemma {:induction false} BuildPairs(doc: Doc, before: seq<Entry>, entries: seq<Entry>)
    requires doc != [] && DistinctKeys(before) && Unshadowed(doc, entries)
    ensures Build(WithEntries(doc, before), PairItems(entries))
         == if DistinctKeys(before + entries) then Some(WithEntries(doc, before + entries)) else None
    decreases |entries|
  {
    if entries == [] {
      assert before + entries == before;
    } else {
      var e, rest := entries[0], entries[1..];
      var d := WithEntries(doc, before);
      assert entries == [e] + rest;
      assert PairItems(entries)[1..] == PairItems(rest);
      NextPair(doc, before, e);
      Assoc(before, [e], rest);
      if HasKey(before, e.key) {
        var i :| 0 <= i < |before| && before[i].key == e.key;
        assert (before + entries)[i].key == (before + entries)[|before|].key;
      } else {
        assert DistinctKeys(before + [e]);
        BuildPairs(doc, before + [e], rest);
      }
    }
  }

  lemma NextPair(doc: Doc, before: seq<Entry>, e: Entry)
    requires doc != [] && Unshadowed(doc, [e])
    ensures AddItem(WithEntries(doc, before), Pair(e.key, e.value))
         == if HasKey(before, e.key) then None else Some(WithEntries(doc, before + [e]))
  {
    var d := WithEntries(doc, before);
    forall j | 0 <= j < |d|
      ensures !(d[|d| - 1].path + [e.key] <= d[j].path)
    {
      assert d[j].path == doc[j].path && [e][0] == e;
    }
    assert AddPair(d, e.key, e.value) == WithEntries(doc, before + [e]);
  }
}
