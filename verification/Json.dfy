/**
 JSON text (RFC 8259) over 16-bit code units: the reader accepts the full grammar, the printer is
 `JSON.stringify` without indentation.  A number is kept as its lexeme, because the text of a double
 is the runtime's business; `IntegerValue` says which integer, if any, a lexeme denotes.
 */
module Json {
  import opened Prelude
  import opened Utf8
  import Decimal

  type Text = seq<Unit>

  datatype Value =
    | Null
    | Bool(b: bool)
    | Num(lexeme: Text)
    | Str(text: Text)
    | Arr(items: seq<Value>)
    | Obj(members: seq<Member>)

  datatype Member = Member(name: Text, value: Value)

  const QUOTE: Unit := 34
  const BACKSLASH: Unit := 92
  const COMMA: Unit := 44
  const COLON: Unit := 58
  const OPEN_ARRAY: Unit := 91
  const CLOSE_ARRAY: Unit := 93
  const OPEN_OBJECT: Unit := 123
  const CLOSE_OBJECT: Unit := 125
  const MINUS: Unit := 45
  const DOT: Unit := 46
  const LETTER_U: Unit := 117
  const NULL_TEXT: Text := [110, 117, 108, 108]
  const TRUE_TEXT: Text := [116, 114, 117, 101]
  const FALSE_TEXT: Text := [102, 97, 108, 115, 101]

  // ----- numbers (section 6) -----

  predicate IsDigit(c: Unit) { 48 <= c <= 57 }

  predicate NumberUnit(c: Unit) {
    IsDigit(c) || c == MINUS || c == DOT || c == 43 || c == 69 || c == 101
  }

  function NumberSpan(t: Text): (n: nat)
    ensures n <= |t|
    ensures n < |t| ==> !NumberUnit(t[n])
    ensures forall i :: 0 <= i < n ==> NumberUnit(t[i])
  {
    if t == [] || !NumberUnit(t[0]) then 0 else 1 + NumberSpan(t[1..])
  }

  lemma NumberSpanUnique(t: Text, n: nat)
    requires n <= |t| && (n < |t| ==> !NumberUnit(t[n]))
    requires forall i :: 0 <= i < n ==> NumberUnit(t[i])
    ensures NumberSpan(t) == n
  {
  }

  /** A run of digits, by value, and what follows it. */
  datatype Run = Run(digits: seq<Decimal.Digit>, rest: Text)

  function DigitRun(t: Text): Run {
    if t == [] || !IsDigit(t[0]) then Run([], t) else
      var r := DigitRun(t[1..]);
      Run([(t[0] - 48) as Decimal.Digit] + r.digits, r.rest)
  }

  function Fraction(t: Text): Option<Run> {
    if t == [] || t[0] != DOT then Some(Run([], t)) else
      var r := DigitRun(t[1..]);
      if r.digits == [] then None else Some(r)
  }

  datatype Power = Power(negative: bool, digits: seq<Decimal.Digit>)

  function Exponent(t: Text): Option<Power> {
    if t == [] then Some(Power(false, []))
    else if t[0] != 69 && t[0] != 101 then None
    else
      var signed := |t| > 1 && (t[1] == 43 || t[1] == MINUS);
      var r := DigitRun(if signed then t[2..] else t[1..]);
      if r.digits == [] || r.rest != [] then None
      else Some(Power(signed && t[1] == MINUS, r.digits))
  }

  datatype Number = Number(negative: bool, whole: seq<Decimal.Digit>, fraction: seq<Decimal.Digit>, power: Power)

  function NumberParts(l: Text): Option<Number> {
    var negative := l != [] && l[0] == MINUS;
    var whole := DigitRun(if negative then l[1..] else l);
    if whole.digits == [] || (|whole.digits| > 1 && whole.digits[0] == 0) then None else
      match Fraction(whole.rest)
      case None => None
      case Some(fraction) =>
        match Exponent(fraction.rest)
        case None => None
        case Some(power) => Some(Number(negative, whole.digits, fraction.digits, power))
  }

  predicate ValidNumber(l: Text) {
    NumberSpan(l) == |l| && NumberParts(l).Some?
  }

  function Scaled(mantissa: int, scale: int): Option<int> {
    if scale >= 0 then Some(mantissa * Decimal.Pow10(scale))
    else if mantissa % Decimal.Pow10(-scale) == 0 then Some(mantissa / Decimal.Pow10(-scale))
    else None
  }

  function PartsValue(p: Number): Option<int> {
    var size: int := Decimal.FromDigits(p.whole + p.fraction);
    var exponent: int := Decimal.FromDigits(p.power.digits);
    Scaled(if p.negative then -size else size,
           (if p.power.negative then -exponent else exponent) - |p.fraction|)
  }

  /** The integer a number lexeme denotes exactly, when it denotes one (`1`, `1.0` and `10e-1` all denote 1). */
  function IntegerValue(l: Text): Option<int> {
    match NumberParts(l)
    case None => None
    case Some(p) => PartsValue(p)
  }

  function DigitUnits(ds: seq<Decimal.Digit>): (t: Text)
    ensures |t| == |ds|
  {
    if ds == [] then [] else [ds[0] as Unit + 48] + DigitUnits(ds[1..])
  }

  lemma RunOfDigit(d: Decimal.Digit, t: Text)
    ensures var c := d as Unit + 48;
      IsDigit(c) && c != MINUS && DigitRun([c] + t) == Run([d] + DigitRun(t).digits, DigitRun(t).rest)
  {
    var c := d as Unit + 48;
    assert ([c] + t)[0] == c && ([c] + t)[1..] == t;
    assert (c - 48) as Decimal.Digit == d;
  }

  lemma {:induction false} DigitUnitsRun(ds: seq<Decimal.Digit>)
    ensures DigitRun(DigitUnits(ds)) == Run(ds, [])
    ensures ds != [] ==> DigitUnits(ds)[0] != MINUS
  {
    if ds != [] {
      DigitUnitsRun(ds[1..]);
      RunOfDigit(ds[0], DigitUnits(ds[1..]));
      assert ds == [ds[0]] + ds[1..];
    }
  }

  lemma {:induction false} DigitUnitsSpan(ds: seq<Decimal.Digit>)
    ensures NumberSpan(DigitUnits(ds)) == |ds|
  {
    if ds != [] {
      DigitUnitsSpan(ds[1..]);
      assert DigitUnits(ds)[1..] == DigitUnits(ds[1..]);
    }
  }

  function Nat(n: nat): Value { Num(DigitUnits(Decimal.ToDigits(n))) }

  lemma PlainNumber(ds: seq<Decimal.Digit>)
    requires ds != [] && (|ds| > 1 ==> ds[0] != 0)
    ensures ValidNumber(DigitUnits(ds))
    ensures NumberParts(DigitUnits(ds)) == Some(Number(false, ds, [], Power(false, [])))
  {
    DigitUnitsRun(ds);
    DigitUnitsSpan(ds);
  }

  lemma NatNumber(n: nat)
    ensures ValidNumber(Nat(n).lexeme)
    ensures IntegerValue(Nat(n).lexeme) == Some(n)
  {
    var ds := Decimal.ToDigits(n);
    PlainNumber(ds);
    Decimal.FromToDigits(n);
    assert ds + [] == ds;
  }

  // ----- strings (section 7) -----

  function HexUnit(d: Unit): Unit
    requires d < 16
  {
    if d < 10 then 48 + d else 87 + d
  }

  function HexValue(c: Unit): (d: Option<Unit>)
    ensures d.Some? ==> d.value < 16
  {
    if IsDigit(c) then Some(c - 48)
    else if 65 <= c <= 70 then Some(c - 55)
    else if 97 <= c <= 102 then Some(c - 87)
    else None
  }

  function UnicodeEscape(c: Unit): Text {
    [BACKSLASH, LETTER_U, HexUnit(c / 16 / 16 / 16), HexUnit(c / 16 / 16 % 16), HexUnit(c / 16 % 16), HexUnit(c % 16)]
  }

  /** Letter of a two-unit escape. */
  function ShortEscape(c: Unit): Option<Unit> {
    if c == QUOTE || c == BACKSLASH then Some(c)
    else if c == 8 then Some(98)
    else if c == 9 then Some(116)
    else if c == 10 then Some(110)
    else if c == 12 then Some(102)
    else if c == 13 then Some(114)
    else None
  }

  function Unescape(letter: Unit): Option<Unit> {
    if letter == QUOTE || letter == BACKSLASH || letter == 47 then Some(letter)
    else if letter == 98 then Some(8)
    else if letter == 116 then Some(9)
    else if letter == 110 then Some(10)
    else if letter == 102 then Some(12)
    else if letter == 114 then Some(13)
    else None
  }

  function EscapeUnit(c: Unit): Text {
    if ShortEscape(c).Some? then [BACKSLASH, ShortEscape(c).value]
    else if c < 0x20 || High(c) || Low(c) then UnicodeEscape(c)
    else [c]
  }

  function QuoteBody(s: Text): Text {
    if s == [] then []
    else if StartsPair(s) then [s[0], s[1]] + QuoteBody(s[2..])
    else EscapeUnit(s[0]) + QuoteBody(s[1..])
  }

  datatype Parsed<+T> = Fail | Ok(value: T, rest: Text)

  datatype Escape = Escape(u: Unit, length: nat)

  function HexEscape(t: Text): Option<Escape>
    requires |t| >= 6
  {
    match (HexValue(t[2]), HexValue(t[3]), HexValue(t[4]), HexValue(t[5]))
    case (Some(a), Some(b), Some(c), Some(d)) => Some(Escape(a * 0x1000 + b * 0x100 + c * 16 + d, 6))
    case _ => None
  }

  /** The escape at the head of t, which starts with a backslash. */
  function ReadEscape(t: Text): (r: Option<Escape>)
    ensures r.Some? ==> 2 <= r.value.length <= |t|
  {
    if |t| < 2 then None
    else if t[1] != LETTER_U then
      (match Unescape(t[1])
       case None => None
       case Some(c) => Some(Escape(c, 2)))
    else if |t| < 6 then None
    else HexEscape(t)
  }

  /** Reads a string body up to and including the closing quote. */
  function ParseString(t: Text): (r: Parsed<Text>)
    ensures r.Ok? ==> |r.rest| < |t|
  {
    if t == [] || t[0] < 0x20 then Fail
    else if t[0] == QUOTE then Ok([], t[1..])
    else if t[0] != BACKSLASH then Prepend(t[0], ParseString(t[1..]))
    else
      match ReadEscape(t)
      case None => Fail
      case Some(e) => Prepend(e.u, ParseString(t[e.length..]))
  }

  function Prepend(c: Unit, r: Parsed<Text>): (p: Parsed<Text>)
    ensures p.Ok? <==> r.Ok?
    ensures p.Ok? ==> p.rest == r.rest
  {
    if r.Fail? then Fail else Ok([c] + r.value, r.rest)
  }

  predicate Plain(c: Unit) { c >= 0x20 && c != QUOTE && c != BACKSLASH }

  lemma ParsePlain(c: Unit, t: Text)
    requires Plain(c)
    ensures ParseString([c] + t) == Prepend(c, ParseString(t))
  {
    assert ([c] + t)[1..] == t;
  }

  lemma HexRoundTrip(d: Unit)
    requires d < 16
    ensures HexValue(HexUnit(d)) == Some(d)
  {
  }

  lemma FourNibbles(c: Unit, q: Unit, r: Unit)
    requires q == c / 16 && r == q / 16
    ensures r / 16 < 16
    ensures c as int == r as int / 16 * 0x1000 + r as int % 16 * 0x100 + q as int % 16 * 16 + c as int % 16
  {
    var c', q', r' := c as int, q as int, r as int;
    assert c' == q' * 16 + c' % 16;
    assert q' == r' * 16 + q' % 16;
    assert r' == r' / 16 * 16 + r' % 16;
  }

  lemma ParseUnicodeEscape(c: Unit, t: Text)
    ensures ParseString(UnicodeEscape(c) + t) == Prepend(c, ParseString(t))
  {
    var e, s := UnicodeEscape(c), UnicodeEscape(c) + t;
    assert |e| == 6 && s[6..] == t && s[..6] == e;
    assert s[0] == BACKSLASH && s[1] == LETTER_U;
    assert s[2] == e[2] && s[3] == e[3] && s[4] == e[4] && s[5] == e[5];
    var q := c / 16;
    var r := q / 16;
    FourNibbles(c, q, r);
    HexRoundTrip(r / 16);
    HexRoundTrip(r % 16);
    HexRoundTrip(q % 16);
    HexRoundTrip(c % 16);
  }

  lemma ParseShortEscape(c: Unit, t: Text)
    requires ShortEscape(c).Some?
    ensures ParseString([BACKSLASH, ShortEscape(c).value] + t) == Prepend(c, ParseString(t))
  {
    var s := [BACKSLASH, ShortEscape(c).value] + t;
    assert s[2..] == t;
  }

  lemma ParseEscapeUnit(c: Unit, t: Text)
    ensures ParseString(EscapeUnit(c) + t) == Prepend(c, ParseString(t))
  {
    if ShortEscape(c).Some? {
      ParseShortEscape(c, t);
    } else if c < 0x20 || High(c) || Low(c) {
      ParseUnicodeEscape(c, t);
    } else {
      ParsePlain(c, t);
    }
  }

  lemma QuoteBodyPair(s: Text, k: Text)
    requires StartsPair(s)
    ensures QuoteBody(s) + k == [s[0]] + ([s[1]] + (QuoteBody(s[2..]) + k))
    ensures s == [s[0]] + ([s[1]] + s[2..])
  {
    var tail := QuoteBody(s[2..]);
    assert [s[0], s[1]] == [s[0]] + [s[1]];
    Assoc([s[0], s[1]], tail, k);
    Assoc([s[0]], [s[1]], tail + k);
  }

  lemma QuoteBodyOne(s: Text, k: Text)
    requires s != [] && !StartsPair(s)
    ensures QuoteBody(s) + k == EscapeUnit(s[0]) + (QuoteBody(s[1..]) + k)
    ensures s == [s[0]] + s[1..]
  {
    Assoc(EscapeUnit(s[0]), QuoteBody(s[1..]), k);
  }

  lemma {:induction false} ParseQuoteBody(s: Text, k: Text)
    ensures ParseString(QuoteBody(s) + ([QUOTE] + k)) == Ok(s, k)
    decreases |s|
  {
    var closing := [QUOTE] + k;
    if s == [] {
      assert QuoteBody(s) + closing == closing;
      assert closing[1..] == k;
    } else if StartsPair(s) {
      var u := QuoteBody(s[2..]) + closing;
      QuoteBodyPair(s, closing);
      ParseQuoteBody(s[2..], k);
      ParsePlain(s[1], u);
      ParsePlain(s[0], [s[1]] + u);
    } else {
      var u := QuoteBody(s[1..]) + closing;
      QuoteBodyOne(s, closing);
      ParseQuoteBody(s[1..], k);
      ParseEscapeUnit(s[0], u);
    }
  }

  // ----- values -----

  function Print(v: Value): Text
    decreases v, 0
  {
    match v
    case Null => NULL_TEXT
    case Bool(b) => if b then TRUE_TEXT else FALSE_TEXT
    case Num(l) => l
    case Str(s) => Quote(s)
    case Arr(items) => [OPEN_ARRAY] + (PrintItems(items) + [CLOSE_ARRAY])
    case Obj(members) => [OPEN_OBJECT] + (PrintMembers(members) + [CLOSE_OBJECT])
  }

  function Quote(s: Text): Text {
    [QUOTE] + (QuoteBody(s) + [QUOTE])
  }

  function PrintItems(items: seq<Value>): Text
    decreases items, 1
  {
    if items == [] then []
    else if |items| == 1 then Print(items[0])
    else Print(items[0]) + ([COMMA] + PrintItems(items[1..]))
  }

  function PrintMember(m: Member): Text
    decreases m, 0
  {
    Quote(m.name) + ([COLON] + Print(m.value))
  }

  function PrintMembers(members: seq<Member>): Text
    decreases members, 1
  {
    if members == [] then []
    else if |members| == 1 then PrintMember(members[0])
    else PrintMember(members[0]) + ([COMMA] + PrintMembers(members[1..]))
  }

  predicate IsSpace(c: Unit) { c == 32 || c == 9 || c == 10 || c == 13 }

  function SkipSpace(t: Text): (r: Text)
    ensures |r| <= |t|
  {
    if t != [] && IsSpace(t[0]) then SkipSpace(t[1..]) else t
  }

  function Wrap<A, B>(f: A -> B, r: Parsed<A>): (p: Parsed<B>)
    ensures p.Ok? <==> r.Ok?
    ensures p.Ok? ==> p.rest == r.rest
  {
    if r.Fail? then Fail else Ok(f(r.value), r.rest)
  }

  function ParseNumber(t: Text): (r: Parsed<Value>)
    ensures r.Ok? ==> |r.rest| < |t|
  {
    var n := NumberSpan(t);
    if n > 0 && NumberParts(t[..n]).Some? then Ok(Num(t[..n]), t[n..]) else Fail
  }

  function ParseWord(t: Text): (r: Parsed<Value>)
    ensures r.Ok? ==> |r.rest| < |t|
  {
    if NULL_TEXT <= t then Ok(Null, t[4..])
    else if TRUE_TEXT <= t then Ok(Bool(true), t[4..])
    else if FALSE_TEXT <= t then Ok(Bool(false), t[5..])
    else Fail
  }

  function ParseValue(t: Text): (r: Parsed<Value>)
    ensures r.Ok? ==> |r.rest| < |t|
    decreases |t|, 0
  {
    var s := SkipSpace(t);
    if s == [] then Fail
    else if s[0] == QUOTE then Wrap(x => Str(x), ParseString(s[1..]))
    else if s[0] == OPEN_ARRAY then
      var u := SkipSpace(s[1..]);
      if u != [] && u[0] == CLOSE_ARRAY then Ok(Arr([]), u[1..]) else Wrap(x => Arr(x), ParseItems(s[1..]))
    else if s[0] == OPEN_OBJECT then
      var u := SkipSpace(s[1..]);
      if u != [] && u[0] == CLOSE_OBJECT then Ok(Obj([]), u[1..]) else Wrap(x => Obj(x), ParseMembers(s[1..]))
    else if NumberUnit(s[0]) then ParseNumber(s)
    else ParseWord(s)
  }

  /** One or more values up to and including the closing bracket. */
  function ParseItems(t: Text): (r: Parsed<seq<Value>>)
    ensures r.Ok? ==> |r.rest| < |t|
    decreases |t|, 2
  {
    var v := ParseValue(t);
    if v.Fail? then Fail else
      var u := SkipSpace(v.rest);
      if u != [] && u[0] == CLOSE_ARRAY then Ok([v.value], u[1..])
      else if u != [] && u[0] == COMMA then Wrap((x: seq<Value>) => [v.value] + x, ParseItems(u[1..]))
      else Fail
  }

  function ParseMember(t: Text): (r: Parsed<Member>)
    ensures r.Ok? ==> |r.rest| < |t|
    decreases |t|, 1
  {
    var s := SkipSpace(t);
    if s == [] || s[0] != QUOTE then Fail else
      var name := ParseString(s[1..]);
      if name.Fail? then Fail else
        var u := SkipSpace(name.rest);
        if u == [] || u[0] != COLON then Fail
        else Wrap(x => Member(name.value, x), ParseValue(u[1..]))
  }

  function ParseMembers(t: Text): (r: Parsed<seq<Member>>)
    ensures r.Ok? ==> |r.rest| < |t|
    decreases |t|, 2
  {
    var m := ParseMember(t);
    if m.Fail? then Fail else
      var u := SkipSpace(m.rest);
      if u != [] && u[0] == CLOSE_OBJECT then Ok([m.value], u[1..])
      else if u != [] && u[0] == COMMA then Wrap((x: seq<Member>) => [m.value] + x, ParseMembers(u[1..]))
      else Fail
  }

  /** `JSON.parse`: one value and nothing after it but whitespace. */
  function Parse(t: Text): Option<Value> {
    var r := ParseValue(t);
    if r.Ok? && SkipSpace(r.rest) == [] then Some(r.value) else None
  }

  // ----- reading back what was printed -----

  predicate Valid(v: Value) {
    match v
    case Num(l) => ValidNumber(l)
    case Arr(items) => forall i :: 0 <= i < |items| ==> Valid(items[i])
    case Obj(members) => forall i :: 0 <= i < |members| ==> Valid(members[i].value)
    case _ => true
  }

  /** What may follow a value without being absorbed by it. */
  predicate Stops(k: Text) { k == [] || (!NumberUnit(k[0]) && !IsSpace(k[0])) }

  /** A printed value starts with something other than whitespace or a closing bracket. */
  predicate Opens(t: Text) {
    t != [] && !IsSpace(t[0]) && t[0] != CLOSE_ARRAY && t[0] != CLOSE_OBJECT
  }

  lemma PrintOpens(v: Value, k: Text)
    requires Valid(v)
    ensures Opens(Print(v) + k)
  {
    if v.Num? {
      assert v.lexeme != [];
      NumberSpanUnique(v.lexeme, |v.lexeme|);
    }
  }

  lemma ItemsOpen(items: seq<Value>, k: Text)
    requires items != [] && Valid(Arr(items))
    ensures Opens(PrintItems(items) + k)
  {
    PrintOpens(items[0], []);
    assert Print(items[0]) + [] == Print(items[0]);
  }

  lemma ParsePrintNumber(l: Text, k: Text)
    requires ValidNumber(l) && Stops(k)
    ensures ParseValue(l + k) == Ok(Num(l), k)
  {
    var t := l + k;
    NumberSpanUnique(t, |l|);
    assert t[..|l|] == l && t[|l|..] == k;
    assert t[0] == l[0] && NumberUnit(l[0]);
  }

  lemma ParsePrintWord(v: Value, k: Text)
    requires v.Null? || v.Bool?
    ensures ParseValue(Print(v) + k) == Ok(v, k)
  {
    var t := Print(v) + k;
    assert t[|Print(v)|..] == k && t[..|Print(v)|] == Print(v);
    assert t[0] == Print(v)[0];
  }

  lemma ParseQuote(s: Text, k: Text)
    ensures var t := Quote(s) + k;
      t != [] && t[0] == QUOTE && ParseString(t[1..]) == Ok(s, k)
  {
    ParseQuoteBody(s, k);
    Assoc([QUOTE], QuoteBody(s) + [QUOTE], k);
    Assoc(QuoteBody(s), [QUOTE], k);
    assert (Quote(s) + k)[1..] == QuoteBody(s) + ([QUOTE] + k);
  }

  lemma ParseEmptyArray(k: Text)
    ensures ParseValue([OPEN_ARRAY] + ([CLOSE_ARRAY] + k)) == Ok(Arr([]), k)
  {
    var u := [CLOSE_ARRAY] + k;
    assert ([OPEN_ARRAY] + u)[1..] == u && u[1..] == k;
  }

  lemma ParseFullArray(u: Text, items: seq<Value>, k: Text)
    requires Opens(u) && ParseItems(u) == Ok(items, k)
    ensures ParseValue([OPEN_ARRAY] + u) == Ok(Arr(items), k)
  {
    assert ([OPEN_ARRAY] + u)[1..] == u;
  }

  lemma ParseArray(items: seq<Value>, k: Text)
    requires Valid(Arr(items))
    requires items != [] ==> ParseItems(PrintItems(items) + ([CLOSE_ARRAY] + k)) == Ok(items, k)
    ensures ParseValue(Print(Arr(items)) + k) == Ok(Arr(items), k)
  {
    Assoc([OPEN_ARRAY], PrintItems(items) + [CLOSE_ARRAY], k);
    Assoc(PrintItems(items), [CLOSE_ARRAY], k);
    if items == [] {
      assert PrintItems(items) + ([CLOSE_ARRAY] + k) == [CLOSE_ARRAY] + k;
      ParseEmptyArray(k);
    } else {
      ItemsOpen(items, [CLOSE_ARRAY] + k);
      ParseFullArray(PrintItems(items) + ([CLOSE_ARRAY] + k), items, k);
    }
  }

  lemma ParseEmptyObject(k: Text)
    ensures ParseValue([OPEN_OBJECT] + ([CLOSE_OBJECT] + k)) == Ok(Obj([]), k)
  {
    var u := [CLOSE_OBJECT] + k;
    assert ([OPEN_OBJECT] + u)[1..] == u && u[1..] == k;
  }

  lemma ParseFullObject(u: Text, members: seq<Member>, k: Text)
    requires Opens(u) && ParseMembers(u) == Ok(members, k)
    ensures ParseValue([OPEN_OBJECT] + u) == Ok(Obj(members), k)
  {
    assert ([OPEN_OBJECT] + u)[1..] == u;
  }

  lemma ParseObject(members: seq<Member>, k: Text)
    requires members != [] ==> ParseMembers(PrintMembers(members) + ([CLOSE_OBJECT] + k)) == Ok(members, k)
    ensures ParseValue(Print(Obj(members)) + k) == Ok(Obj(members), k)
  {
    Assoc([OPEN_OBJECT], PrintMembers(members) + [CLOSE_OBJECT], k);
    Assoc(PrintMembers(members), [CLOSE_OBJECT], k);
    if members == [] {
      assert PrintMembers(members) + ([CLOSE_OBJECT] + k) == [CLOSE_OBJECT] + k;
      ParseEmptyObject(k);
    } else {
      assert PrintMembers(members)[0] == QUOTE;
      ParseFullObject(PrintMembers(members) + ([CLOSE_OBJECT] + k), members, k);
    }
  }

  lemma {:induction false} ParsePrint(v: Value, k: Text)
    requires Valid(v) && Stops(k)
    ensures ParseValue(Print(v) + k) == Ok(v, k)
    decreases v, 0
  {
    match v
    case Null => ParsePrintWord(v, k);
    case Bool(_) => ParsePrintWord(v, k);
    case Num(l) => ParsePrintNumber(l, k);
    case Str(s) => ParseQuote(s, k);
    case Arr(items) =>
      if items != [] { ParsePrintItems(items, k); }
      ParseArray(items, k);
    case Obj(members) =>
      if members != [] { ParsePrintMembers(members, k); }
      ParseObject(members, k);
  }

  lemma LastItem(t: Text, v: Value, k: Text)
    requires ParseValue(t) == Ok(v, [CLOSE_ARRAY] + k)
    ensures ParseItems(t) == Ok([v], k)
  {
    assert ([CLOSE_ARRAY] + k)[1..] == k;
  }

  lemma NextItem(t: Text, v: Value, u: Text, items: seq<Value>, k: Text)
    requires ParseValue(t) == Ok(v, [COMMA] + u) && ParseItems(u) == Ok(items, k)
    ensures ParseItems(t) == Ok([v] + items, k)
  {
    assert ([COMMA] + u)[1..] == u;
  }

  lemma LastMember(t: Text, m: Member, k: Text)
    requires ParseMember(t) == Ok(m, [CLOSE_OBJECT] + k)
    ensures ParseMembers(t) == Ok([m], k)
  {
    assert ([CLOSE_OBJECT] + k)[1..] == k;
  }

  lemma NextMember(t: Text, m: Member, u: Text, members: seq<Member>, k: Text)
    requires ParseMember(t) == Ok(m, [COMMA] + u) && ParseMembers(u) == Ok(members, k)
    ensures ParseMembers(t) == Ok([m] + members, k)
  {
    assert ([COMMA] + u)[1..] == u;
  }

  lemma OneItem(items: seq<Value>, k: Text)
    requires |items| == 1
    requires ParseValue(Print(items[0]) + ([CLOSE_ARRAY] + k)) == Ok(items[0], [CLOSE_ARRAY] + k)
    ensures ParseItems(PrintItems(items) + ([CLOSE_ARRAY] + k)) == Ok(items, k)
  {
    LastItem(PrintItems(items) + ([CLOSE_ARRAY] + k), items[0], k);
    assert items == [items[0]];
  }

  lemma MoreItems(items: seq<Value>, u: Text, k: Text)
    requires |items| > 1 && u == PrintItems(items[1..]) + ([CLOSE_ARRAY] + k)
    requires ParseValue(Print(items[0]) + ([COMMA] + u)) == Ok(items[0], [COMMA] + u)
    requires ParseItems(u) == Ok(items[1..], k)
    ensures ParseItems(PrintItems(items) + ([CLOSE_ARRAY] + k)) == Ok(items, k)
  {
    ItemsParts(items, [CLOSE_ARRAY] + k);
    NextItem(Print(items[0]) + ([COMMA] + u), items[0], u, items[1..], k);
    assert items == [items[0]] + items[1..];
  }

  lemma {:induction false} ParsePrintItems(items: seq<Value>, k: Text)
    requires items != [] && Valid(Arr(items))
    ensures ParseItems(PrintItems(items) + ([CLOSE_ARRAY] + k)) == Ok(items, k)
    decreases items, 1
  {
    if |items| == 1 {
      ParsePrint(items[0], [CLOSE_ARRAY] + k);
      OneItem(items, k);
    } else {
      var u := PrintItems(items[1..]) + ([CLOSE_ARRAY] + k);
      ParsePrint(items[0], [COMMA] + u);
      ParsePrintItems(items[1..], k);
      MoreItems(items, u, k);
    }
  }

  lemma ItemsParts(items: seq<Value>, k: Text)
    requires |items| > 1
    ensures PrintItems(items) + k == Print(items[0]) + ([COMMA] + (PrintItems(items[1..]) + k))
  {
    var tail := PrintItems(items[1..]);
    Assoc(Print(items[0]), [COMMA] + tail, k);
    Assoc([COMMA], tail, k);
  }

  lemma MembersParts(members: seq<Member>, k: Text)
    requires |members| > 1
    ensures PrintMembers(members) + k == PrintMember(members[0]) + ([COMMA] + (PrintMembers(members[1..]) + k))
  {
    var tail := PrintMembers(members[1..]);
    Assoc(PrintMember(members[0]), [COMMA] + tail, k);
    Assoc([COMMA], tail, k);
  }

  lemma MemberParts(m: Member, k: Text)
    ensures PrintMember(m) + k == Quote(m.name) + ([COLON] + (Print(m.value) + k))
  {
    Assoc(Quote(m.name), [COLON] + Print(m.value), k);
    Assoc([COLON], Print(m.value), k);
  }

  lemma {:induction false} ParsePrintMember(m: Member, k: Text)
    requires Valid(m.value) && Stops(k)
    ensures ParseMember(PrintMember(m) + k) == Ok(m, k)
    decreases m, 1
  {
    var u := Print(m.value) + k;
    var v := [COLON] + u;
    assert v[1..] == u;
    MemberParts(m, k);
    ParseQuote(m.name, v);
    ParsePrint(m.value, k);
  }

  lemma OneMember(members: seq<Member>, k: Text)
    requires |members| == 1
    requires ParseMember(PrintMember(members[0]) + ([CLOSE_OBJECT] + k)) == Ok(members[0], [CLOSE_OBJECT] + k)
    ensures ParseMembers(PrintMembers(members) + ([CLOSE_OBJECT] + k)) == Ok(members, k)
  {
    LastMember(PrintMembers(members) + ([CLOSE_OBJECT] + k), members[0], k);
    assert members == [members[0]];
  }

  lemma MoreMembers(members: seq<Member>, u: Text, k: Text)
    requires |members| > 1 && u == PrintMembers(members[1..]) + ([CLOSE_OBJECT] + k)
    requires ParseMember(PrintMember(members[0]) + ([COMMA] + u)) == Ok(members[0], [COMMA] + u)
    requires ParseMembers(u) == Ok(members[1..], k)
    ensures ParseMembers(PrintMembers(members) + ([CLOSE_OBJECT] + k)) == Ok(members, k)
  {
    MembersParts(members, [CLOSE_OBJECT] + k);
    NextMember(PrintMember(members[0]) + ([COMMA] + u), members[0], u, members[1..], k);
    assert members == [members[0]] + members[1..];
  }

  lemma {:induction false} ParsePrintMembers(members: seq<Member>, k: Text)
    requires members != [] && Valid(Obj(members))
    ensures ParseMembers(PrintMembers(members) + ([CLOSE_OBJECT] + k)) == Ok(members, k)
    decreases members, 2
  {
    if |members| == 1 {
      ParsePrintMember(members[0], [CLOSE_OBJECT] + k);
      OneMember(members, k);
    } else {
      var u := PrintMembers(members[1..]) + ([CLOSE_OBJECT] + k);
      ParsePrintMember(members[0], [COMMA] + u);
      ParsePrintMembers(members[1..], k);
      MoreMembers(members, u, k);
    }
  }

  /** `JSON.parse` undoes `JSON.stringify`, for every value. */
  lemma RoundTrip(v: Value)
    requires Valid(v)
    ensures Parse(Print(v)) == Some(v)
  {
    ParsePrint(v, []);
    assert Print(v) + [] == Print(v);
  }

  // ----- printed text is well-formed and free of control characters -----

  predicate Clean(t: Text) {
    WellFormed(t) && forall i :: 0 <= i < |t| ==> t[i] >= 0x20
  }

  lemma {:induction false} WellFormedAppend(a: Text, b: Text)
    requires WellFormed(a) && WellFormed(b)
    ensures WellFormed(a + b)
  {
    if a == [] {
      assert a + b == b;
    } else if StartsPair(a) {
      WellFormedAppend(a[2..], b);
      assert (a + b)[2..] == a[2..] + b;
    } else {
      WellFormedAppend(a[1..], b);
      assert (a + b)[1..] == a[1..] + b;
    }
  }

  lemma {:induction false} PlainWellFormed(t: Text)
    requires forall i :: 0 <= i < |t| ==> !High(t[i]) && !Low(t[i])
    ensures WellFormed(t)
  {
    if t != [] { PlainWellFormed(t[1..]); }
  }

  lemma {:induction false} QuoteBodyClean(s: Text)
    ensures Clean(QuoteBody(s))
  {
    if s == [] {
    } else if StartsPair(s) {
      QuoteBodyClean(s[2..]);
      var pair := [s[0], s[1]];
      assert pair[2..] == [];
      WellFormedAppend(pair, QuoteBody(s[2..]));
    } else {
      QuoteBodyClean(s[1..]);
      PlainWellFormed(EscapeUnit(s[0]));
      WellFormedAppend(EscapeUnit(s[0]), QuoteBody(s[1..]));
    }
  }

  lemma CleanAppend(a: Text, b: Text)
    requires Clean(a) && Clean(b)
    ensures Clean(a + b)
  {
    WellFormedAppend(a, b);
  }

  /** a, then one separator unit, then b. */
  lemma CleanAround(a: Text, c: Unit, b: Text)
    requires Clean(a) && Clean(b) && c >= 0x20 && !High(c) && !Low(c)
    ensures Clean([c] + b) && Clean(a + ([c] + b))
  {
    assert [c][1..] == [];
    CleanAppend([c], b);
    CleanAppend(a, [c] + b);
  }

  lemma CleanBetween(open: Unit, inner: Text, close: Unit)
    requires Clean(inner) && open >= 0x20 && !High(open) && !Low(open) && close >= 0x20 && !High(close) && !Low(close)
    ensures Clean([open] + (inner + [close]))
  {
    CleanAround(inner, close, []);
    assert [close] + [] == [close];
    CleanAround([], open, inner + [close]);
  }

  lemma QuoteClean(s: Text)
    ensures Clean(Quote(s))
  {
    QuoteBodyClean(s);
    CleanBetween(QUOTE, QuoteBody(s), QUOTE);
  }

  lemma NumberClean(l: Text)
    requires NumberSpan(l) == |l|
    ensures Clean(l)
  {
    PlainWellFormed(l);
  }

  lemma WordClean(v: Value)
    requires v.Null? || v.Bool?
    ensures Clean(Print(v))
  {
    PlainWellFormed(Print(v));
  }

  lemma {:induction false} PrintClean(v: Value)
    requires Valid(v)
    ensures Clean(Print(v))
    decreases v, 0
  {
    match v
    case Num(l) => NumberClean(l);
    case Str(s) => QuoteClean(s);
    case Arr(items) =>
      PrintItemsClean(items);
      CleanBetween(OPEN_ARRAY, PrintItems(items), CLOSE_ARRAY);
    case Obj(members) =>
      PrintMembersClean(members);
      CleanBetween(OPEN_OBJECT, PrintMembers(members), CLOSE_OBJECT);
    case _ => WordClean(v);
  }

  lemma {:induction false} PrintItemsClean(items: seq<Value>)
    requires Valid(Arr(items))
    ensures Clean(PrintItems(items))
    decreases items, 1
  {
    if items != [] {
      PrintClean(items[0]);
      if |items| > 1 {
        PrintItemsClean(items[1..]);
        CleanAround(Print(items[0]), COMMA, PrintItems(items[1..]));
      }
    }
  }

  lemma {:induction false} PrintMembersClean(members: seq<Member>)
    requires Valid(Obj(members))
    ensures Clean(PrintMembers(members))
    decreases members, 1
  {
    if members != [] {
      PrintClean(members[0].value);
      QuoteClean(members[0].name);
      CleanAround(Quote(members[0].name), COLON, Print(members[0].value));
      if |members| > 1 {
        PrintMembersClean(members[1..]);
        CleanAround(PrintMember(members[0]), COMMA, PrintMembers(members[1..]));
      }
    }
  }
}
