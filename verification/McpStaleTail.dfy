/**
 What a dead process leaves in the buffer.  It is kept across the exit and the next connection attempt, and put
 before what the next process writes.
 */
module McpStaleTail {
  import opened Prelude
  import opened Lines
  import opened Utf8
  import opened McpProtocol
  import opened McpSafety
  import opened McpFraming
  import Json
  import JsonPrefix

  /** A partial line left by a dead process is kept across its exit and the next connection attempt. */
  lemma TailSurvivesReconnect(s: State, code: Option<int>, params: Json.Value, writable: bool)
    ensures Step(Step(s, Exit(code)), Ensure(params, writable)).buffer == s.buffer
  {
  }

  /** The next process is read as it wrote exactly when nothing was left over. */
  lemma LinesIntactIff(leftover: seq<Byte>, stream: seq<Byte>)
    requires NEWLINE !in leftover && NEWLINE in stream
    ensures Complete(leftover + stream, NEWLINE) == Complete(stream, NEWLINE) <==> leftover == []
  {
    var a, b := FirstLine(stream, NEWLINE);
    Assoc(leftover, a + [NEWLINE], b);
    Assoc(leftover, a, [NEWLINE]);
    CutFirst(leftover + a, b, NEWLINE);
    assert ([leftover + a] + Complete(b, NEWLINE))[0] == leftover + a;
    assert ([a] + Complete(b, NEWLINE))[0] == a;
    if leftover + a == a { assert |leftover| == 0; }
    if leftover == [] { assert leftover + a == a; }
  }

  // ----- white space, before and after decoding -----

  predicate SpaceByte(b: Byte) { b == 32 || b == 9 || b == 10 || b == 13 }

  predicate Spaces(s: seq<Byte>) { All(s, SpaceByte) }

  lemma FirstSpace(s: seq<Byte>)
    requires s != []
    ensures DecodeOne(s).units != [] && (Json.IsSpace(DecodeOne(s).units[0]) <==> SpaceByte(s[0]))
    ensures SpaceByte(s[0]) ==> DecodeOne(s) == Decoded([s[0] as Unit], 1)
  {
    if s[0] >= 0x80 { WideUnit(s); }
  }

  lemma WideUnit(s: seq<Byte>)
    requires s != [] && s[0] >= 0x80
    ensures DecodeOne(s).units != [] && DecodeOne(s).units[0] >= 0x80
  {
  }

  lemma {:induction false} SpacesDecode(s: seq<Byte>)
    ensures JsonPrefix.Spaces(Decode(s)) <==> Spaces(s)
  {
    if s != [] {
      var one := DecodeOne(s);
      FirstSpace(s);
      if SpaceByte(s[0]) {
        SpacesDecode(s[1..]);
        assert s == [s[0]] + s[1..];
        assert Decode(s) == [s[0] as Unit] + Decode(s[1..]);
        HeadAndTail(s[0], s[1..], SpaceByte);
        HeadAndTail(s[0] as Unit, Decode(s[1..]), Json.IsSpace);
      } else {
        assert Decode(s)[0] == one.units[0];
      }
    }
  }

  lemma HeadAndTail<A>(x: A, s: seq<A>, p: A -> bool)
    ensures All([x] + s, p) <==> p(x) && All(s, p)
  {
    var all := [x] + s;
    assert all[0] == x;
    if All(all, p) { forall i | 0 <= i < |s| ensures p(s[i]) { assert all[i + 1] == s[i]; } }
  }

  // ----- a response after leftover bytes -----

  lemma NameText(rest: Json.Text)
    ensures var q := Json.Quote(JSONRPC) + rest; |q| >= 2 && q[0] == Json.QUOTE && q[1] == 106
  {
    assert !StartsPair(JSONRPC) && Json.EscapeUnit(106) == [106];
    assert Json.QuoteBody(JSONRPC) == [106] + Json.QuoteBody(JSONRPC[1..]);
  }

  lemma ResponseText(id: nat, result: Json.Value)
    requires Json.Valid(result)
    ensures JsonPrefix.ObjectText(Json.Print(Response(id, result)))
  {
    var m := Response(id, result);
    var p := Json.Print(m);
    ResponseFields(id, result);
    Json.ParsePrint(m, []);
    assert p + [] == p;
    OpensWithName(m.members);
  }

  lemma OpensWithName(ms: seq<Json.Member>)
    requires |ms| == 3 && ms[0].name == JSONRPC
    ensures var p := Json.Print(Json.Obj(ms)); |p| >= 3 && p[0] == Json.OPEN_OBJECT && p[1] == Json.QUOTE && p[2] == 106
  {
    var value, more := Json.Print(ms[0].value), Json.PrintMembers(ms[1..]);
    var rest := [Json.COLON] + value;
    NameText(rest);
    assert Json.PrintMembers(ms) == (Json.Quote(JSONRPC) + rest) + ([Json.COMMA] + more);
    var inner := Json.PrintMembers(ms) + [Json.CLOSE_OBJECT];
    assert inner[0] == Json.QUOTE && inner[1] == 106;
  }

  lemma BodyStart(m: Json.Value)
    requires Message(m)
    ensures Body(m) != [] && Body(m)[0] == 123
  {
    var p := Json.Print(m);
    assert p[0] == Json.OPEN_OBJECT && !StartsPair(p);
    assert Body(m) == EncodePoint(123) + Encode(p[1..]);
  }

  lemma TextAfter(leftover: seq<Byte>, m: Json.Value)
    requires Message(m)
    ensures Decode(leftover + Body(m)) == Decode(leftover) + Json.Print(m)
    ensures !Blank(Decode(leftover + Body(m)))
  {
    BodyStart(m);
    FrameIsOneLine(m);
    DecodeBeforeAscii(leftover, Body(m));
    assert (Decode(leftover) + Json.Print(m))[|Decode(leftover)|] == Json.OPEN_OBJECT;
  }

  /** What becomes of a response that is read after these bytes. */
  function AfterLeftover(r: Requests, leftover: seq<Byte>, id: nat, result: Json.Value): Requests
    requires id in r.pending
  {
    if Spaces(leftover) then Settle(r, id, Resolved(Some(result))) else r.(logged := r.logged + 1)
  }

  lemma ParsedAfter(leftover: seq<Byte>, id: nat, result: Json.Value)
    requires Json.Valid(result)
    ensures Json.Parse(Decode(leftover + Body(Response(id, result)))) == if Spaces(leftover) then Some(Response(id, result)) else None
  {
    var m := Response(id, result);
    ResponseFields(id, result);
    ResponseText(id, result);
    TextAfter(leftover, m);
    SpacesDecode(leftover);
    JsonPrefix.ParseAfter(Decode(leftover), Json.Print(m));
    Json.RoundTrip(m);
  }

  lemma ResponseHandled(r: Requests, id: nat, result: Json.Value)
    requires id in r.pending && Json.Valid(result)
    ensures Handle(r, Response(id, result)) == Settle(r, id, Resolved(Some(result)))
  {
    ResponseFields(id, result);
    Json.NatNumber(id);
  }

  lemma LineAfter(r: Requests, leftover: seq<Byte>, id: nat, result: Json.Value)
    requires id in r.pending && Json.Valid(result)
    ensures HandleLine(r, leftover + Body(Response(id, result))) == AfterLeftover(r, leftover, id, result)
  {
    ResponseFields(id, result);
    TextAfter(leftover, Response(id, result));
    ParsedAfter(leftover, id, result);
    ResponseHandled(r, id, result);
  }

  /**
   A response sent whole by a fresh process, however it is cut into chunks, settles its request exactly when nothing
   but white space was left over; otherwise it is discarded.
   */
  lemma LeftoverDecides(s: State, id: nat, result: Json.Value, chunks: seq<seq<Byte>>, writable: bool)
    requires NEWLINE !in s.buffer && id in s.requests.pending && Json.Valid(result)
    requires chunks != [] && WithinCap(s.buffer, chunks) && Concat(chunks) == Frame(Response(id, result))
    ensures Feed(s, chunks, writable)
         == Resume(s.(buffer := [], requests := AfterLeftover(s.requests, s.buffer, id, result)), writable)
  {
    var m := Response(id, result);
    var line := s.buffer + Body(m);
    ResponseFields(id, result);
    FrameIsOneLine(m);
    Assoc(s.buffer, Body(m), [NEWLINE]);
    assert s.buffer + Concat(chunks) == line + [NEWLINE];
    CutLine(line, NEWLINE);
    ChunkingInvisible(s, chunks, writable);
    assert [line][1..] == [];
    assert HandleLines(s.requests, [line]) == HandleLine(s.requests, line);
    LineAfter(s.requests, s.buffer, id, result);
  }

  // ----- a whole run -----

  /** A process dies before its handshake, leaving some bytes, and the client connects again. */
  function Reconnected(p: Json.Value, leftover: seq<Byte>, code: Option<int>, q: Json.Value): State {
    Run(INITIAL, [Ensure(p, true), Data(leftover, true), Exit(code), Ensure(q, true)])
  }

  lemma {:induction false} RunTwo(s: State, a: Event, rest: seq<Event>)
    ensures Run(s, [a] + rest) == Run(Step(s, a), rest)
  {
    assert ([a] + rest)[1..] == rest;
  }

  lemma FourSteps(s: State, a: Event, b: Event, c: Event, d: Event)
    ensures Run(s, [a, b, c, d]) == Step(Step(Step(Step(s, a), b), c), d)
  {
    RunTwo(s, a, [b, c, d]);
    RunTwo(Step(s, a), b, [c, d]);
    RunTwo(Step(Step(s, a), b), c, [d]);
    RunTwo(Step(Step(Step(s, a), b), c), d, []);
    assert [a] + [b, c, d] == [a, b, c, d] && [b] + [c, d] == [b, c, d] && [c] + [d] == [c, d] && [d] + [] == [d];
  }

  function Started(p: Json.Value): State { Step(INITIAL, Ensure(p, true)) }

  lemma StartedIs(p: Json.Value)
    ensures var s := Started(p);
      && s.requests == Requests(1, map[1 := 0], map[0 := 1], 1, [], 0)
      && s.attempts == Attempts(Some(1), 1, [], {0}, map[], 1)
      && s.hasProcess && !s.connected && s.buffer == []
  {
  }

  lemma LeftoverKept(s: State, leftover: seq<Byte>)
    requires s.buffer == [] && NEWLINE !in leftover && |leftover| <= MAX_BUFFER_BYTES
    requires s.attempts.inFlight.Some? ==> OutcomeOf(s.requests.settled, s.attempts.inFlight.value).None?
    ensures Step(s, Data(leftover, true)) == s.(buffer := leftover)
  {
    assert [] + leftover == leftover;
    CutNone(leftover, NEWLINE);
  }

  lemma FirstProcessDies(s: State, code: Option<int>)
    requires s.requests == Requests(1, map[1 := 0], map[0 := 1], 1, [], 0)
    requires s.attempts == Attempts(Some(1), 1, [], {0}, map[], 1)
    ensures var t := Step(s, Exit(code));
      && t.requests == Requests(1, map[], map[], 1, [Settlement(1, Rejected(Exited(code)))], 0)
      && t.attempts == Attempts(None, 1, [false], {}, map[0 := Shared(0, false)], 1)
      && !t.connected && t.buffer == s.buffer
  {
    var settled := [Settlement(1, Rejected(Exited(code)))];
    var r := s.requests;
    assert RejectUpTo(r, Exited(code), 0) == r;
    assert RejectAll(r, Exited(code)) == Settle(r, 1, Rejected(Exited(code)));
    assert OutcomeOf(settled, 1) == Some(Rejected(Exited(code)));
  }

  lemma ReconnectedIs(p: Json.Value, leftover: seq<Byte>, code: Option<int>, q: Json.Value)
    requires NEWLINE !in leftover && |leftover| <= MAX_BUFFER_BYTES
    ensures var s := Reconnected(p, leftover, code, q);
      && s.buffer == leftover && !s.connected
      && s.requests == Requests(2, map[2 := 1], map[1 := 2], 2, [Settlement(1, Rejected(Exited(code)))], 0)
      && s.attempts.inFlight == Some(2) && s.attempts.outcomes == [false]
  {
    FourSteps(INITIAL, Ensure(p, true), Data(leftover, true), Exit(code), Ensure(q, true));
    StartedIs(p);
    LeftoverKept(Started(p), leftover);
    FirstProcessDies(Started(p).(buffer := leftover), code);
  }

  /**
   A run from the start.  The new process answers the handshake at once and correctly.  After white space the client is
   connected; after any other leftover the answer is discarded and the attempt can only end by its timeout.
   */
  lemma StaleTailRun(p: Json.Value, leftover: seq<Byte>, code: Option<int>, q: Json.Value, result: Json.Value)
    requires NEWLINE !in leftover && Json.Valid(result) && |leftover + Frame(Response(2, result))| <= MAX_BUFFER_BYTES
    ensures var s := Reconnected(p, leftover, code, q);
      var t := Step(s, Data(Frame(Response(2, result)), true));
      && (Spaces(leftover) ==> t.connected && t.attempts.outcomes == [false, true] && t.requests.pending == map[])
      && (!Spaces(leftover) ==> !t.connected && t.attempts.inFlight == Some(2) && 2 in t.requests.pending
                                && t.attempts.outcomes == [false] && t.requests.logged == 1
                                && Step(t, Fire(1)).attempts.outcomes == [false, false])
  {
    var s := Reconnected(p, leftover, code, q);
    var frame := Frame(Response(2, result));
    ReconnectedIs(p, leftover, code, q);
    assert [frame][1..] == [] && Concat([]) == [];
    assert Concat([frame]) == frame + [] == frame;
    LeftoverDecides(s, 2, result, [frame], true);
    assert Feed(s, [frame], true) == Step(s, Data(frame, true));
    AnswerResumes(s, leftover, result);
  }

  lemma AnswerResumes(s: State, leftover: seq<Byte>, result: Json.Value)
    requires !s.connected && s.requests.pending == map[2 := 1] && s.requests.timers == map[1 := 2]
    requires s.requests.logged == 0 && s.attempts.inFlight == Some(2) && s.attempts.outcomes == [false]
    requires |s.requests.settled| == 1 && s.requests.settled[0].id == 1
    ensures var t := Resume(s.(buffer := [], requests := AfterLeftover(s.requests, leftover, 2, result)), true);
      && (Spaces(leftover) ==> t.connected && t.attempts.outcomes == [false, true] && t.requests.pending == map[])
      && (!Spaces(leftover) ==> !t.connected && t.attempts.inFlight == Some(2) && 2 in t.requests.pending
                                && t.attempts.outcomes == [false] && t.requests.logged == 1
                                && Step(t, Fire(1)).attempts.outcomes == [false, false])
  {
    var before := s.requests.settled;
    assert before[1..] == [] && OutcomeOf(before, 2) == None;
    OutcomeStable(before, [Settlement(2, Resolved(Some(result)))], 2);
    OutcomeStable(before, [Settlement(2, Rejected(Timeout))], 2);
  }
}
