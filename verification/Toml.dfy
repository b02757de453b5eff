/**
 A reader for the part of TOML v1.0.0 that the configuration printer uses: comments, one- and two-part table
 headers, bare and quoted keys, basic strings without escapes, integers, floats, booleans and single-line
 arrays.  Anything else, and whatever the standard forbids, is rejected.
 */
module Toml {
  import opened Prelude
  import Decimal
  import Lines

  /** A float is kept as its text. */
  datatype Value =
    | Str(s: string)
    | Int(n: int)
    | Float(text: string)
    | Bool(b: bool)
    | Arr(items: seq<Value>)

  datatype Item =
    | Blank
    | Comment(text: string)
    | Header(path: seq<string>)
    | Pair(key: string, value: Value)

  // ----- characters -----

  predicate IsWs(c: char) { c == ' ' || c == '\t' }

  predicate IsDigit(c: char) { '0' <= c <= '9' }

  predicate BareChar(c: char) { 'a' <= c <= 'z' || 'A' <= c <= 'Z' || IsDigit(c) || c == '_' || c == '-' }

  /** May stand in a basic string as itself. */
  predicate PlainChar(c: char) { c == '\t' || (c >= ' ' && c != '"' && c != '\\' && c != '\U{007f}') }

  predicate CommentChar(c: char) { c == '\t' || (c >= ' ' && c != '\U{007f}') }

  predicate TokenChar(c: char) { BareChar(c) || c == '+' || c == '.' }

  /** Length of the longest prefix of s whose characters satisfy p. */
  function Span(s: string, p: char -> bool): (n: nat)
    ensures n <= |s|
    ensures forall i :: 0 <= i < n ==> p(s[i])
    ensures n < |s| ==> !p(s[n])
  {
    if s == [] || !p(s[0]) then 0 else 1 + Span(s[1..], p)
  }

  /** A prefix a of characters satisfying p, at whose end p fails, is the longest. */
  lemma SpanOf(a: string, b: string, p: char -> bool)
    requires All(a, p) && (b == [] || !p(b[0]))
    ensures Span(a + b, p) == |a| && (a + b)[..|a|] == a && (a + b)[|a|..] == b
  {
    var s := a + b;
    assert s[..|a|] == a && s[|a|..] == b;
    assert forall i :: 0 <= i < |a| ==> s[i] == a[i];
    assert b != [] ==> s[|a|] == b[0];
  }

  function SkipWs(s: string): (r: string)
    ensures |r| <= |s|
  {
    s[Span(s, IsWs)..]
  }

  // ----- scalars -----

  function Digits(s: string): seq<Decimal.Digit>
    requires All(s, IsDigit)
  {
    seq(|s|, i requires 0 <= i < |s| => (s[i] as int - '0' as int) as Decimal.Digit)
  }

  function DigitText(ds: seq<Decimal.Digit>): (s: string)
    ensures |s| == |ds| && All(s, IsDigit)
  {
    seq(|ds|, i requires 0 <= i < |ds| => ('0' as int + ds[i] as int) as char)
  }

  lemma DigitsOfText(ds: seq<Decimal.Digit>)
    ensures Digits(DigitText(ds)) == ds
  {
  }

  function NatText(n: nat): string { DigitText(Decimal.ToDigits(n)) }

  function IntText(n: int): string { if n < 0 then "-" + NatText(-n) else NatText(n) }

  /** Digits without a leading zero. */
  predicate IsNat(s: string) { s != "" && All(s, IsDigit) && (|s| > 1 ==> s[0] != '0') }

  function Unsigned(s: string): string { if s != "" && (s[0] == '-' || s[0] == '+') then s[1..] else s }

  predicate IsInt(s: string) { IsNat(Unsigned(s)) }

  function IntOf(s: string): int
    requires IsInt(s)
  {
    var n: int := Decimal.FromDigits(Digits(Unsigned(s)));
    if s[0] == '-' then -n else n
  }

  /** An integer part, then a fraction, an exponent or both. */
  predicate IsFloat(s: string) {
    var u := Unsigned(s);
    var n := Span(u, IsDigit);
    IsNat(u[..n]) && n < |u| &&
    (if u[n] == '.' then
       var m := Span(u[n + 1..], IsDigit);
       m > 0 && (n + 1 + m == |u| || IsExponent(u[n + 1 + m..]))
     else IsExponent(u[n..]))
  }

  predicate IsExponent(s: string) {
    s != "" && (s[0] == 'e' || s[0] == 'E') && Unsigned(s[1..]) != "" && All(Unsigned(s[1..]), IsDigit)
  }

  function Scalar(token: string): Option<Value> {
    if token == "true" then Some(Bool(true))
    else if token == "false" then Some(Bool(false))
    else if IsInt(token) then Some(Int(IntOf(token)))
    else if IsFloat(token) then Some(Float(token))
    else None
  }

  // ----- values -----

  function ScanString(s: string): Option<(string, string)> {
    var n := Span(s, PlainChar);
    if n < |s| && s[n] == '"' then Some((s[..n], s[n + 1..])) else None
  }

  function ParseValue(s: string): (r: Option<(Value, string)>)
    ensures r.Some? ==> |r.value.1| < |s|
    decreases |s|, 1
  {
    if s == "" then None
    else if s[0] == '"' then
      if |s| >= 3 && s[1] == '"' && s[2] == '"' then None
      else
        match ScanString(s[1..])
        case Some(p) => Some((Str(p.0), p.1))
        case None => None
    else if s[0] == '[' then
      match ParseElements(SkipWs(s[1..]))
      case Some(p) => Some((Arr(p.0), p.1))
      case None => None
    else
      var n := Span(s, TokenChar);
      match Scalar(s[..n])
      case Some(v) => if n > 0 then Some((v, s[n..])) else None
      case None => None
  }

  function ParseElements(s: string): (r: Option<(seq<Value>, string)>)
    ensures r.Some? ==> |r.value.1| < |s|
    decreases |s|, 2
  {
    if s != "" && s[0] == ']' then Some(([], s[1..]))
    else
      match ParseValue(s)
      case None => None
      case Some(p) =>
        var rest := SkipWs(p.1);
        if rest == "" then None
        else if rest[0] == ']' then Some(([p.0], rest[1..]))
        else if rest[0] == ',' then
          match ParseElements(SkipWs(rest[1..]))
          case Some(q) => Some(([p.0] + q.0, q.1))
          case None => None
        else None
  }

  // ----- lines -----

  function ParseKey(s: string): Option<(string, string)> {
    if s != "" && s[0] == '"' then ScanString(s[1..])
    else
      var n := Span(s, BareChar);
      if n == 0 then None else Some((s[..n], s[n..]))
  }

  /** Nothing but a comment may follow. */
  predicate Ends(s: string) {
    var rest := SkipWs(s);
    rest == "" || (rest[0] == '#' && All(rest[1..], CommentChar))
  }

  function ParseHeader(s: string): Option<Item> { HeaderAfter(ParseKey(SkipWs(s))) }

  /** The rest of a header, its first key read. */
  function HeaderAfter(key: Option<(string, string)>): Option<Item> {
    match key
    case None => None
    case Some(p) =>
      var rest := SkipWs(p.1);
      if rest == "" then None
      else if rest[0] == ']' then (if Ends(rest[1..]) then Some(Header([p.0])) else None)
      else if rest[0] == '.' then HeaderEnd(p.0, ParseKey(SkipWs(rest[1..])))
      else None
  }

  function HeaderEnd(first: string, key: Option<(string, string)>): Option<Item> {
    match key
    case None => None
    case Some(q) =>
      var last := SkipWs(q.1);
      if last != "" && last[0] == ']' && Ends(last[1..]) then Some(Header([first, q.0])) else None
  }

  function ParsePair(s: string): Option<Item> { PairAfter(ParseKey(s)) }

  function PairAfter(key: Option<(string, string)>): Option<Item> {
    match key
    case None => None
    case Some(p) =>
      var rest := SkipWs(p.1);
      if rest == "" || rest[0] != '=' then None else PairEnd(p.0, ParseValue(SkipWs(rest[1..])))
  }

  function PairEnd(key: string, value: Option<(Value, string)>): Option<Item> {
    match value
    case Some(q) => if Ends(q.1) then Some(Pair(key, q.0)) else None
    case None => None
  }

  function ParseLine(line: string): Option<Item> {
    var s := SkipWs(line);
    if s == "" then Some(Blank)
    else if s[0] == '#' then (if All(s[1..], CommentChar) then Some(Comment(s[1..])) else None)
    else if s[0] == '[' then ParseHeader(s[1..])
    else ParsePair(s)
  }

  function ParseLines(lines: seq<string>): Option<seq<Item>> { Each(ParseLine, lines) }

  // ----- the document -----

  datatype Entry = Entry(key: string, value: Value)

  datatype Table = Table(path: seq<string>, entries: seq<Entry>)

  /** The tables in order of their headers, the root first; a pair goes to the last. */
  type Doc = seq<Table>

  predicate HasKey(entries: seq<Entry>, key: string) { exists i :: 0 <= i < |entries| && entries[i].key == key }

  /** The path is taken by a table, or leads through a value. */
  predicate HeaderClashes(doc: Doc, path: seq<string>) {
    exists i :: 0 <= i < |doc| && (doc[i].path == path || (doc[i].path < path && HasKey(doc[i].entries, path[|doc[i].path|])))
  }

  /** The key is taken in the table, or names a table. */
  predicate KeyClashes(doc: Doc, key: string)
    requires doc != []
  {
    var current := doc[|doc| - 1];
    HasKey(current.entries, key) || exists i :: 0 <= i < |doc| && current.path + [key] <= doc[i].path
  }

  function AddPair(doc: Doc, key: string, value: Value): Doc
    requires doc != []
  {
    var n := |doc| - 1;
    doc[..n] + [doc[n].(entries := doc[n].entries + [Entry(key, value)])]
  }

  function AddItem(doc: Doc, item: Item): Option<Doc>
    requires doc != []
  {
    match item
    case Blank => Some(doc)
    case Comment(_) => Some(doc)
    case Header(path) => if HeaderClashes(doc, path) then None else Some(doc + [Table(path, [])])
    case Pair(key, value) => if KeyClashes(doc, key) then None else Some(AddPair(doc, key, value))
  }

  function Build(doc: Doc, items: seq<Item>): (r: Option<Doc>)
    requires doc != []
    ensures r.Some? ==> r.value != []
    decreases |items|
  {
    if items == [] then Some(doc)
    else
      match AddItem(doc, items[0])
      case Some(next) => Build(next, items[1..])
      case None => None
  }

  const EMPTY: Doc := [Table([], [])]

  function Parse(text: string): Option<Doc> {
    match ParseLines(Lines.Complete(text, '\n') + [Lines.Tail(text, '\n')])
    case Some(items) => Build(EMPTY, items)
    case None => None
  }

  function Lookup(es: seq<Entry>, key: string): Option<Value> {
    if es == [] then None else if es[0].key == key then Some(es[0].value) else Lookup(es[1..], key)
  }

  function TableAt(doc: Doc, path: seq<string>): Option<seq<Entry>> {
    if doc == [] then None else if doc[0].path == path then Some(doc[0].entries) else TableAt(doc[1..], path)
  }

  // ----- printing -----

  function Quoted(s: string): string { "\"" + s + "\"" }

  /** The text of a value, and then rest. */
  function Put(v: Value, rest: string): string
    decreases v, 0
  {
    match v
    case Str(s) => Quoted(s) + rest
    case Int(n) => IntText(n) + rest
    case Float(text) => text + rest
    case Bool(b) => (if b then "true" else "false") + rest
    case Arr(items) => "[" + PutElements(items, rest)
  }

  /** The elements separated by a comma and a space, the closing bracket, and then rest. */
  function PutElements(items: seq<Value>, rest: string): string
    decreases items, 1
  {
    if items == [] then "]" + rest
    else if |items| == 1 then Put(items[0], "]" + rest)
    else Put(items[0], ", " + PutElements(items[1..], rest))
  }

  predicate IsBare(key: string) { key != "" && All(key, BareChar) }

  predicate Printable(v: Value) {
    match v
    case Str(s) => All(s, PlainChar)
    case Int(n) => n >= 0
    case Float(text) => IsFloat(text) && All(text, TokenChar)
    case Bool(_) => true
    case Arr(items) => forall i :: 0 <= i < |items| ==> Printable(items[i])
  }

  // ----- reading what was printed -----

  lemma SkipNone(s: string)
    requires s == "" || !IsWs(s[0])
    ensures SkipWs(s) == s
  {
  }

  lemma SkipOne(s: string)
    requires s == "" || !IsWs(s[0])
    ensures SkipWs(" " + s) == s
  {
    SpanOf(" ", s, IsWs);
  }

  lemma ScanQuoted(s: string, rest: string)
    requires All(s, PlainChar)
    ensures ScanString(s + "\"" + rest) == Some((s, rest))
  {
    Assoc(s, "\"", rest);
    SpanOf(s, "\"" + rest, PlainChar);
    var t := s + ("\"" + rest);
    assert t[|s| + 1..] == rest by { assert (t[|s|..])[1..] == rest; }
  }

  lemma IntTextIsInt(n: nat)
    ensures IsInt(NatText(n)) && IntOf(NatText(n)) == n && All(NatText(n), TokenChar)
    ensures Scalar(NatText(n)) == Some(Int(n))
  {
    var ds := Decimal.ToDigits(n);
    var s := NatText(n);
    DigitsOfText(ds);
    Decimal.FromToDigits(n);
    assert IsDigit(s[0]);
    assert Unsigned(s) == s;
    assert s[0] != "true"[0] && s[0] != "false"[0];
  }

  lemma FloatStarts(s: string)
    requires IsFloat(s)
    ensures s != "" && (IsDigit(s[0]) || s[0] == '-' || s[0] == '+') && !IsInt(s)
    ensures Scalar(s) == Some(Float(s))
  {
    var u := Unsigned(s);
    var n := Span(u, IsDigit);
    assert IsDigit(u[..n][0]);
    assert !IsDigit(u[n]);
    assert s[0] != "true"[0] && s[0] != "false"[0];
  }

  /** What may follow a value: it ends tokens, and is no quote. */
  predicate Follows(rest: string) { rest == "" || (!TokenChar(rest[0]) && rest[0] != '"') }

  lemma TokenValue(token: string, rest: string)
    requires token != "" && All(token, TokenChar) && Follows(rest)
    ensures ParseValue(token + rest) == (match Scalar(token) case Some(v) => Some((v, rest)) case None => None)
  {
    SpanOf(token, rest, TokenChar);
    var s := token + rest;
    assert s[0] == token[0] && TokenChar(token[0]);
  }

  lemma StringValue(s: string, rest: string)
    requires All(s, PlainChar) && Follows(rest)
    ensures ParseValue(Quoted(s) + rest) == Some((Str(s), rest))
  {
    var t := Quoted(s) + rest;
    assert t[1..] == s + "\"" + rest;
    ScanQuoted(s, rest);
    assert s != "" ==> t[1] == s[0];
    assert s == "" && rest != "" ==> t[2] == rest[0];
  }

  lemma HeadKept(a: string, b: string)
    requires a != ""
    ensures a + b != "" && (a + b)[0] == a[0]
  {
  }

  lemma PutStarts(v: Value, rest: string)
    requires Printable(v)
    ensures var s := Put(v, rest); s != "" && !IsWs(s[0]) && s[0] != ']'
  {
    match v
    case Int(n) =>
      IntTextIsInt(n);
      HeadKept(IntText(n), rest);
    case Float(text) =>
      FloatStarts(text);
      HeadKept(text, rest);
    case _ =>
  }

  lemma ElementsStart(items: seq<Value>, rest: string)
    requires forall i :: 0 <= i < |items| ==> Printable(items[i])
    ensures var s := PutElements(items, rest); s != "" && !IsWs(s[0]) && (items != [] ==> s[0] != ']')
  {
    if items == [] {
    } else if |items| == 1 {
      PutStarts(items[0], "]" + rest);
    } else {
      PutStarts(items[0], ", " + PutElements(items[1..], rest));
    }
  }

  lemma Delimiter(s: string)
    requires s != "" && (s[0] == ']' || s[0] == ',')
    ensures SkipWs(s) == s && Follows(s)
  {
    SkipNone(s);
  }

  lemma Behead(c: string, rest: string)
    requires |c| == 1
    ensures c + rest != "" && (c + rest)[0] == c[0] && (c + rest)[1..] == rest
  {
  }

  lemma Bracket(rest: string)
    ensures Follows("]" + rest) && ("]" + rest)[1..] == rest && SkipWs("]" + rest) == "]" + rest
  {
    Behead("]", rest);
    Delimiter("]" + rest);
  }

  lemma Comma(tail: string)
    requires tail == "" || !IsWs(tail[0])
    ensures Follows(", " + tail) && SkipWs(", " + tail) == ", " + tail && SkipWs((", " + tail)[1..]) == tail
  {
    Assoc(",", " ", tail);
    Behead(",", " " + tail);
    Delimiter("," + (" " + tail));
    SkipOne(tail);
  }

  lemma LastElement(s: string, v: Value, bracket: string)
    requires s != "" && s[0] != ']' && ParseValue(s) == Some((v, bracket))
    requires bracket != "" && bracket[0] == ']' && SkipWs(bracket) == bracket
    ensures ParseElements(s) == Some(([v], bracket[1..]))
  {
  }

  lemma NextElement(s: string, v: Value, comma: string, tail: string, more: seq<Value>, rest: string)
    requires s != "" && s[0] != ']' && ParseValue(s) == Some((v, comma))
    requires comma != "" && comma[0] == ',' && SkipWs(comma) == comma && SkipWs(comma[1..]) == tail
    requires ParseElements(tail) == Some((more, rest))
    ensures ParseElements(s) == Some(([v] + more, rest))
  {
  }

  lemma ArrayValue(s: string, items: seq<Value>, rest: string)
    requires s != "" && s[0] == '[' && SkipWs(s[1..]) == s[1..] && ParseElements(s[1..]) == Some((items, rest))
    ensures ParseValue(s) == Some((Arr(items), rest))
  {
  }

  /** Reading gives back what was printed, and leaves what follows. */
  lemma {:induction false} ValueBack(v: Value, rest: string)
    requires Printable(v) && Follows(rest)
    ensures ParseValue(Put(v, rest)) == Some((v, rest))
    decreases v, 0
  {
    match v
    case Str(s) => StringValue(s, rest);
    case Int(n) =>
      IntTextIsInt(n);
      TokenValue(NatText(n), rest);
    case Float(text) =>
      FloatStarts(text);
      TokenValue(text, rest);
    case Bool(b) => TokenValue(if b then "true" else "false", rest);
    case Arr(items) =>
      var body := PutElements(items, rest);
      ElementsBack(items, rest);
      ElementsStart(items, rest);
      Behead("[", body);
      SkipNone(body);
      ArrayValue("[" + body, items, rest);
  }

  lemma {:induction false} ElementsBack(items: seq<Value>, rest: string)
    requires forall i :: 0 <= i < |items| ==> Printable(items[i])
    ensures ParseElements(PutElements(items, rest)) == Some((items, rest))
    decreases items, 1
  {
    Bracket(rest);
    if items != [] {
      if |items| == 1 {
        PutStarts(items[0], "]" + rest);
        ValueBack(items[0], "]" + rest);
        LastElement(Put(items[0], "]" + rest), items[0], "]" + rest);
        assert items == [items[0]];
      } else {
        MoreElements(items, rest);
      }
    }
  }

  lemma {:induction false} MoreElements(items: seq<Value>, rest: string)
    requires |items| > 1 && forall i :: 0 <= i < |items| ==> Printable(items[i])
    ensures ParseElements(PutElements(items, rest)) == Some((items, rest))
    decreases items, 0
  {
    var more := items[1..];
    var tail := PutElements(more, rest);
    ElementsBack(more, rest);
    ElementsStart(more, rest);
    Comma(tail);
    PutStarts(items[0], ", " + tail);
    ValueBack(items[0], ", " + tail);
    NextElement(Put(items[0], ", " + tail), items[0], ", " + tail, tail, more, rest);
    assert items == [items[0]] + more;
  }
}
