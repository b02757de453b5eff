/**
 UTF-8 (section 3 of RFC 3629) as the client's runtime uses it: strings are sequences of 16-bit code
 units, decoding never fails (each maximal ill-formed prefix becomes U+FFFD), and encoding replaces a
 lone surrogate by U+FFFD.
 */
module Utf8 {
  import opened Lines
  import opened Prelude

  newtype Byte = b: int | 0 <= b < 0x100
  newtype Unit = u: int | 0 <= u < 0x1_0000

  const NEWLINE: Byte := 10
  const LINE_FEED: Unit := 10
  const REPLACEMENT: Unit := 0xFFFD

  predicate High(u: Unit) { 0xD800 <= u < 0xDC00 }

  predicate Low(u: Unit) { 0xDC00 <= u < 0xE000 }

  // ----- decoding -----

  /** How many continuation bytes a lead byte announces; 0 for a byte that leads nothing. */
  function Following(b: Byte): nat {
    if 0xC2 <= b <= 0xDF then 1
    else if 0xE0 <= b <= 0xEF then 2
    else if 0xF0 <= b <= 0xF4 then 3
    else 0
  }

  /** Range allowed for the byte after the lead: excludes overlong forms, surrogates and values past U+10FFFF. */
  predicate SecondByte(lead: Byte, b: Byte) {
    (if lead == 0xE0 then 0xA0 else if lead == 0xF0 then 0x90 else 0x80) <= b
      <= (if lead == 0xED then 0x9F else if lead == 0xF4 then 0x8F else 0xBF)
  }

  predicate Continuation(b: Byte) { 0x80 <= b <= 0xBF }

  datatype Decoded = Decoded(units: seq<Unit>, length: nat)

  function SurrogatePair(point: int): (r: seq<Unit>)
    requires 0x1_0000 <= point < 0x11_0000
    ensures |r| == 2 && High(r[0]) && Low(r[1])
  {
    [(0xD800 + (point - 0x1_0000) / 0x400) as Unit, (0xDC00 + (point - 0x1_0000) % 0x400) as Unit]
  }

  function DecodeOne(s: seq<Byte>): (r: Decoded)
    requires s != []
    ensures 1 <= r.length <= |s|
    ensures LINE_FEED in r.units <==> s[0] == NEWLINE
  {
    var b := s[0];
    if b < 0x80 then Decoded([b as Unit], 1)
    else if Following(b) == 0 || |s| < 2 || !SecondByte(b, s[1]) then Decoded([REPLACEMENT], 1)
    else if Following(b) == 1 then Decoded([((b as int - 0xC0) * 0x40 + (s[1] as int - 0x80)) as Unit], 2)
    else if |s| < 3 || !Continuation(s[2]) then Decoded([REPLACEMENT], 2)
    else if Following(b) == 2 then
      Decoded([((b as int - 0xE0) * 0x1000 + (s[1] as int - 0x80) * 0x40 + (s[2] as int - 0x80)) as Unit], 3)
    else if |s| < 4 || !Continuation(s[3]) then Decoded([REPLACEMENT], 3)
    else
      var point := (b as int - 0xF0) * 0x4_0000 + (s[1] as int - 0x80) * 0x1000
                   + (s[2] as int - 0x80) * 0x40 + (s[3] as int - 0x80);
      Decoded(SurrogatePair(point), 4)
  }

  function Decode(s: seq<Byte>): seq<Unit> {
    if s == [] then [] else
      var one := DecodeOne(s);
      one.units + Decode(s[one.length..])
  }

  lemma {:induction false} DecodeNewlineFree(s: seq<Byte>)
    ensures NEWLINE !in s ==> LINE_FEED !in Decode(s)
  {
    if s != [] {
      DecodeNewlineFree(s[DecodeOne(s).length..]);
    }
  }

  /** An ASCII byte after a byte string is invisible to its first form. */
  lemma DecodeOneLocal(a: seq<Byte>, b: seq<Byte>)
    requires a != [] && b != [] && b[0] < 0x80
    ensures DecodeOne(a + b) == DecodeOne(a)
  {
    var s := a + b;
    assert forall k :: 0 <= k < |a| ==> s[k] == a[k];
    assert s[|a|] == b[0];
  }

  /** An ASCII byte is never swallowed by a multi-byte form, however malformed the bytes before it. */
  lemma {:induction false} DecodeBeforeAscii(a: seq<Byte>, b: seq<Byte>)
    requires b != [] && b[0] < 0x80
    ensures Decode(a + b) == Decode(a) + Decode(b)
  {
    if a == [] {
      assert a + b == b;
    } else {
      var one := DecodeOne(a);
      DecodeOneLocal(a, b);
      assert (a + b)[one.length..] == a[one.length..] + b;
      DecodeBeforeAscii(a[one.length..], b);
      Assoc(one.units, Decode(a[one.length..]), Decode(b));
    }
  }

  lemma DecodeAcrossNewline(a: seq<Byte>, b: seq<Byte>)
    ensures Decode(a + [NEWLINE] + b) == Decode(a) + [LINE_FEED] + Decode(b)
  {
    var rest := [NEWLINE] + b;
    DecodeBeforeAscii(a, rest);
    assert rest[1..] == b;
    assert Decode(rest) == [LINE_FEED] + Decode(b);
    Assoc(a, [NEWLINE], b);
    Assoc(Decode(a), [LINE_FEED], Decode(b));
  }

  lemma {:induction false} DecodeTail(s: seq<Byte>)
    ensures Tail(Decode(s), LINE_FEED) == Decode(Tail(s, NEWLINE))
  {
    var i := IndexOf(s, NEWLINE);
    if i == |s| {
      DecodeNewlineFree(s);
      CutNone(Decode(s), LINE_FEED);
    } else {
      var a, b := s[..i], s[i + 1..];
      assert s == a + [NEWLINE] + b;
      DecodeAcrossNewline(a, b);
      DecodeNewlineFree(a);
      CutFirst(Decode(a), Decode(b), LINE_FEED);
      DecodeTail(b);
    }
  }

  /** Decoding line by line agrees with decoding the whole stream and cutting afterwards. */
  lemma {:induction false} DecodeLines(s: seq<Byte>)
    ensures Complete(Decode(s), LINE_FEED) == Map(Decode, Complete(s, NEWLINE))
  {
    var i := IndexOf(s, NEWLINE);
    if i == |s| {
      DecodeNewlineFree(s);
      CutNone(Decode(s), LINE_FEED);
    } else {
      var a, b := s[..i], s[i + 1..];
      assert s == a + [NEWLINE] + b;
      DecodeAcrossNewline(a, b);
      DecodeNewlineFree(a);
      CutFirst(Decode(a), Decode(b), LINE_FEED);
      DecodeLines(b);
    }
  }

  // ----- encoding -----

  function EncodePoint(c: int): (r: seq<Byte>)
    requires 0 <= c < 0x11_0000
    ensures r != [] && (NEWLINE in r <==> c == 10)
  {
    if c < 0x80 then [c as Byte]
    else if c < 0x800 then [(0xC0 + c / 0x40) as Byte, (0x80 + c % 0x40) as Byte]
    else if c < 0x1_0000 then [(0xE0 + c / 0x40 / 0x40) as Byte, (0x80 + c / 0x40 % 0x40) as Byte, (0x80 + c % 0x40) as Byte]
    else
      [(0xF0 + c / 0x40 / 0x40 / 0x40) as Byte, (0x80 + c / 0x40 / 0x40 % 0x40) as Byte,
       (0x80 + c / 0x40 % 0x40) as Byte, (0x80 + c % 0x40) as Byte]
  }

  function PairPoint(high: Unit, low: Unit): int {
    0x1_0000 + (high as int - 0xD800) * 0x400 + (low as int - 0xDC00)
  }

  predicate StartsPair(u: seq<Unit>) { |u| >= 2 && High(u[0]) && Low(u[1]) }

  function Encode(u: seq<Unit>): seq<Byte> {
    if u == [] then []
    else if StartsPair(u) then EncodePoint(PairPoint(u[0], u[1])) + Encode(u[2..])
    else if High(u[0]) || Low(u[0]) then EncodePoint(REPLACEMENT as int) + Encode(u[1..])
    else EncodePoint(u[0] as int) + Encode(u[1..])
  }

  /** Every surrogate is half of a high-low pair. */
  predicate WellFormed(u: seq<Unit>) {
    u == []
    || (StartsPair(u) && WellFormed(u[2..]))
    || (!High(u[0]) && !Low(u[0]) && WellFormed(u[1..]))
  }

  lemma DecodeTwo(a: int, b: int, rest: seq<Byte>)
    requires 2 <= a < 0x20 && 0 <= b < 0x40
    ensures DecodeOne([(0xC0 + a) as Byte, (0x80 + b) as Byte] + rest) == Decoded([(a * 0x40 + b) as Unit], 2)
  {
  }

  lemma DecodeThree(a: int, b: int, c: int, rest: seq<Byte>)
    requires 0 <= a < 0x10 && 0 <= b < 0x40 && 0 <= c < 0x40
    requires a == 0 ==> b >= 0x20
    requires a == 0xD ==> b < 0x20
    ensures DecodeOne([(0xE0 + a) as Byte, (0x80 + b) as Byte, (0x80 + c) as Byte] + rest)
         == Decoded([(a * 0x1000 + b * 0x40 + c) as Unit], 3)
  {
  }

  lemma DecodeFour(a: int, b: int, c: int, d: int, rest: seq<Byte>)
    requires 0 <= a < 5 && 0 <= b < 0x40 && 0 <= c < 0x40 && 0 <= d < 0x40
    requires a == 0 ==> b >= 0x10
    requires a == 4 ==> b < 0x10
    ensures DecodeOne([(0xF0 + a) as Byte, (0x80 + b) as Byte, (0x80 + c) as Byte, (0x80 + d) as Byte] + rest)
         == Decoded(SurrogatePair(a * 0x4_0000 + b * 0x1000 + c * 0x40 + d), 4)
  {
  }

  lemma SixBitGroups(c: int, q: int, r: int)
    requires q == c / 0x40 && r == q / 0x40
    ensures c == q * 0x40 + c % 0x40
    ensures c == r * 0x1000 + q % 0x40 * 0x40 + c % 0x40
    ensures c == r / 0x40 * 0x4_0000 + r % 0x40 * 0x1000 + q % 0x40 * 0x40 + c % 0x40
  {
    assert q == r * 0x40 + q % 0x40;
    assert r == r / 0x40 * 0x40 + r % 0x40;
  }

  lemma DecodeEncodedPoint(c: int, rest: seq<Byte>)
    requires 0 <= c < 0x11_0000 && !(0xD800 <= c < 0xE000)
    ensures DecodeOne(EncodePoint(c) + rest)
         == Decoded(if c < 0x1_0000 then [c as Unit] else SurrogatePair(c), |EncodePoint(c)|)
  {
    var q := c / 0x40;
    var r := q / 0x40;
    SixBitGroups(c, q, r);
    if c < 0x80 {
    } else if c < 0x800 {
      DecodeTwo(q, c % 0x40, rest);
    } else if c < 0x1_0000 {
      DecodeThree(r, q % 0x40, c % 0x40, rest);
    } else {
      DecodeFour(r / 0x40, r % 0x40, q % 0x40, c % 0x40, rest);
    }
  }

  function HeadPoint(u: seq<Unit>): (c: int)
    requires u != [] && (StartsPair(u) || (!High(u[0]) && !Low(u[0])))
    ensures 0 <= c < 0x11_0000 && !(0xD800 <= c < 0xE000)
    ensures StartsPair(u) ==> c >= 0x1_0000 && SurrogatePair(c) == [u[0], u[1]]
  {
    if StartsPair(u) then PairPoint(u[0], u[1]) else u[0] as int
  }

  lemma DecodeFrom(e: seq<Byte>, units: seq<Unit>, rest: seq<Byte>)
    requires e != [] && DecodeOne(e + rest) == Decoded(units, |e|)
    ensures Decode(e + rest) == units + Decode(rest)
  {
    assert (e + rest)[|e|..] == rest;
  }

  lemma {:induction false} DecodeEncode(u: seq<Unit>)
    requires WellFormed(u)
    ensures Decode(Encode(u)) == u
  {
    if u != [] {
      var n := if StartsPair(u) then 2 else 1;
      var c, rest := HeadPoint(u), u[n..];
      assert Encode(u) == EncodePoint(c) + Encode(rest);
      DecodeEncodedPoint(c, Encode(rest));
      DecodeEncode(rest);
      DecodeFrom(EncodePoint(c), u[..n], Encode(rest));
      assert u == u[..n] + rest;
    }
  }

  lemma {:induction false} EncodeNewlineFree(u: seq<Unit>)
    ensures NEWLINE in Encode(u) <==> LINE_FEED in u
  {
    if u != [] {
      EncodeNewlineFree(u[if StartsPair(u) then 2 else 1..]);
    }
  }

  lemma {:induction false} EncodeLine(u: seq<Unit>)
    ensures Encode(u + [LINE_FEED]) == Encode(u) + [NEWLINE]
  {
    var s := u + [LINE_FEED];
    if u == [] {
      assert s[1..] == [];
    } else {
      var n := if StartsPair(u) then 2 else 1;
      assert s[n..] == u[n..] + [LINE_FEED];
      EncodeLine(u[n..]);
    }
  }
}
