/** Newline framing: chunk boundaries are invisible, frames read back, and what an overfull buffer does. */
module McpFraming {
  import opened Prelude
  import opened Lines
  import opened Utf8
  import opened McpProtocol
  import opened McpSafety
  import Json

  function Concat(chunks: seq<seq<Byte>>): seq<Byte> {
    if chunks == [] then [] else chunks[0] + Concat(chunks[1..])
  }

  function Feed(s: State, chunks: seq<seq<Byte>>, writable: bool): State
    decreases |chunks|
  {
    if chunks == [] then s else Feed(Receive(s, chunks[0], writable), chunks[1..], writable)
  }

  /** Leftover plus chunk stays within the cap, ten mebibytes, at every delivery. */
  predicate WithinCap(leftover: seq<Byte>, chunks: seq<seq<Byte>>)
    decreases |chunks|
  {
    chunks == []
    || (|leftover + chunks[0]| <= 10485760 && WithinCap(Tail(leftover + chunks[0], NEWLINE), chunks[1..]))
  }

  // ----- chunking -----

  lemma {:induction false} HandleLinesAppend(r: Requests, a: seq<seq<Byte>>, b: seq<seq<Byte>>)
    ensures HandleLines(r, a + b) == HandleLines(HandleLines(r, a), b)
    decreases |a|
  {
    if a == [] {
      assert a + b == b;
    } else {
      assert (a + b)[1..] == a[1..] + b;
      HandleLinesAppend(HandleLine(r, a[0]), a[1..], b);
    }
  }

  lemma {:induction false} HandleLinesLog(r: Requests, lines: seq<seq<Byte>>)
    ensures r.settled <= HandleLines(r, lines).settled
    decreases |lines|
  {
    if lines != [] { HandleLinesLog(HandleLine(r, lines[0]), lines[1..]); }
  }

  /** Whether the continuation runs early or late does not show in the end. */
  lemma ResumeEarly(s: State, buffer: seq<Byte>, r: Requests, writable: bool)
    requires s.requests.settled <= r.settled
    ensures Resume(Resume(s, writable).(buffer := buffer, requests := r), writable)
         == Resume(s.(buffer := buffer, requests := r), writable)
  {
    if s.attempts.inFlight.Some? {
      assert r.settled == s.requests.settled + r.settled[|s.requests.settled|..];
      OutcomeStable(s.requests.settled, r.settled[|s.requests.settled|..], s.attempts.inFlight.value);
    }
  }

  /** However a stream is cut into chunks, the outcome is that of its newline split, handled in order. */
  lemma {:induction false} ChunkingInvisible(s: State, chunks: seq<seq<Byte>>, writable: bool)
    requires chunks != [] && WithinCap(s.buffer, chunks)
    ensures var total := s.buffer + Concat(chunks);
      Feed(s, chunks, writable)
        == Resume(s.(buffer := Tail(total, NEWLINE), requests := HandleLines(s.requests, Complete(total, NEWLINE))), writable)
    decreases |chunks|
  {
    var b, rest := s.buffer + chunks[0], chunks[1..];
    var more := Concat(rest);
    var r := HandleLines(s.requests, Complete(b, NEWLINE));
    var s1 := s.(buffer := Tail(b, NEWLINE), requests := r);
    Assoc(s.buffer, chunks[0], more);
    CutAppend(b, more, NEWLINE);
    if rest == [] {
      assert b + more == b;
      assert Feed(s, chunks, writable) == Receive(s, chunks[0], writable);
    } else {
      var t := Receive(s, chunks[0], writable);
      assert t == Resume(s1, writable) && t.buffer == s1.buffer && t.requests == r;
      ChunkingInvisible(t, rest, writable);
      var total := s1.buffer + more;
      var r2 := HandleLines(r, Complete(total, NEWLINE));
      HandleLinesAppend(s.requests, Complete(b, NEWLINE), Complete(total, NEWLINE));
      HandleLinesLog(r, Complete(total, NEWLINE));
      ResumeEarly(s1, Tail(total, NEWLINE), r2, writable);
    }
  }

  /** Two ways of cutting the same stream cannot be told apart. */
  lemma SameStreamSameOutcome(s: State, a: seq<seq<Byte>>, b: seq<seq<Byte>>, writable: bool)
    requires a != [] && b != [] && Concat(a) == Concat(b)
    requires WithinCap(s.buffer, a) && WithinCap(s.buffer, b)
    ensures Feed(s, a, writable) == Feed(s, b, writable)
    ensures NEWLINE !in Feed(s, a, writable).buffer
  {
    ChunkingInvisible(s, a, writable);
    ChunkingInvisible(s, b, writable);
    CutInverse(s.buffer + Concat(a), NEWLINE);
  }

  // ----- frames -----

  predicate Message(m: Json.Value) { m.Obj? && Json.Valid(m) }

  /** The frame writeMessage puts on the wire: JSON text, UTF-8, one newline. */
  function Frame(m: Json.Value): seq<Byte> { Encode(Json.Print(m) + [LINE_FEED]) }

  function Body(m: Json.Value): seq<Byte> { Encode(Json.Print(m)) }

  lemma FrameIsOneLine(m: Json.Value)
    requires Message(m)
    ensures Frame(m) == Body(m) + [NEWLINE] && NEWLINE !in Body(m)
    ensures Decode(Body(m)) == Json.Print(m) && Json.Parse(Json.Print(m)) == Some(m)
    ensures !Blank(Json.Print(m))
  {
    Json.PrintClean(m);
    EncodeLine(Json.Print(m));
    EncodeNewlineFree(Json.Print(m));
    DecodeEncode(Json.Print(m));
    Json.RoundTrip(m);
    assert Json.Print(m)[0] == Json.OPEN_OBJECT;
  }

  function Frames(ms: seq<Json.Value>): seq<Byte> {
    if ms == [] then [] else Frame(ms[0]) + Frames(ms[1..])
  }

  lemma {:induction false} FramesAppend(ms: seq<Json.Value>, m: Json.Value)
    ensures Frames(ms + [m]) == Frames(ms) + Frame(m)
  {
    if ms == [] {
      assert [m][1..] == [];
    } else {
      assert (ms + [m])[1..] == ms[1..] + [m];
      FramesAppend(ms[1..], m);
      Assoc(Frame(ms[0]), Frames(ms[1..]), Frame(m));
    }
  }

  function HandleAll(r: Requests, ms: seq<Json.Value>): Requests
    decreases |ms|
  {
    if ms == [] then r else HandleAll(Handle(r, ms[0]), ms[1..])
  }

  lemma {:induction false} FramesHandled(r: Requests, ms: seq<Json.Value>)
    requires forall i :: 0 <= i < |ms| ==> Message(ms[i])
    ensures HandleLines(r, Complete(Frames(ms), NEWLINE)) == HandleAll(r, ms)
    ensures Tail(Frames(ms), NEWLINE) == []
    decreases |ms|
  {
    if ms == [] {
      CutNone(Frames(ms), NEWLINE);
    } else {
      var m, rest := ms[0], Frames(ms[1..]);
      FrameIsOneLine(m);
      assert Message(m);
      CutFirst(Body(m), rest, NEWLINE);
      FramesHandled(Handle(r, m), ms[1..]);
      assert ([Body(m)] + Complete(rest, NEWLINE))[1..] == Complete(rest, NEWLINE);
    }
  }

  /** Frames written by one side are read by the other as the same messages, in order, whatever the chunking. */
  lemma MessagesArrive(s: State, ms: seq<Json.Value>, chunks: seq<seq<Byte>>, writable: bool)
    requires s.buffer == [] && chunks != [] && WithinCap([], chunks)
    requires Concat(chunks) == Frames(ms) && forall i :: 0 <= i < |ms| ==> Message(ms[i])
    ensures Feed(s, chunks, writable) == Resume(s.(requests := HandleAll(s.requests, ms)), writable)
  {
    ChunkingInvisible(s, chunks, writable);
    assert s.buffer + Concat(chunks) == Frames(ms);
    FramesHandled(s.requests, ms);
  }

  function Response(id: nat, result: Json.Value): Json.Value {
    Json.Obj([Json.Member(JSONRPC, Json.Str(VERSION)), Json.Member(ID, Json.Nat(id)), Json.Member(RESULT, result)])
  }

  lemma FieldAppend(ms: seq<Json.Member>, m: Json.Member, name: Json.Text)
    ensures Field(ms + [m], name) == if m.name == name then Some(m.value) else Field(ms, name)
  {
    assert (ms + [m])[..|ms|] == ms;
  }

  lemma ThreeFields(a: Json.Member, b: Json.Member, c: Json.Member, name: Json.Text)
    ensures Field([a, b, c], name) ==
      if c.name == name then Some(c.value) else if b.name == name then Some(b.value) else if a.name == name then Some(a.value) else None
  {
    assert [a, b, c] == [a, b] + [c] && [a, b] == [a] + [b] && [a] == [] + [a];
    FieldAppend([a, b], c, name);
    FieldAppend([a], b, name);
    FieldAppend([], a, name);
  }

  lemma NamesDiffer()
    ensures RESULT != ERROR && RESULT != ID && ID != ERROR && JSONRPC != ERROR
  {
    assert |RESULT| == 6 && |ERROR| == 5 && |ID| == 2 && |JSONRPC| == 7;
  }

  lemma ResponseValid(id: nat, result: Json.Value)
    requires Json.Valid(result)
    ensures Message(Response(id, result))
  {
    Json.NatNumber(id);
  }

  lemma ResponseFields(id: nat, result: Json.Value)
    requires Json.Valid(result)
    ensures Message(Response(id, result))
    ensures Field(Response(id, result).members, ID) == Some(Json.Nat(id))
    ensures Field(Response(id, result).members, RESULT) == Some(result)
    ensures Field(Response(id, result).members, ERROR) == None
  {
    var version, ident := Json.Member(JSONRPC, Json.Str(VERSION)), Json.Member(ID, Json.Nat(id));
    var answer := Json.Member(RESULT, result);
    ResponseValid(id, result);
    NamesDiffer();
    ThreeFields(version, ident, answer, ID);
    ThreeFields(version, ident, answer, RESULT);
    ThreeFields(version, ident, answer, ERROR);
  }

  // ----- past the cap -----

  ghost predicate OnlyRejects(before: seq<Settlement>, after: seq<Settlement>) {
    && before <= after
    && forall i :: |before| <= i < |after| ==> after[i].outcome.Rejected?
  }

  ghost predicate OnlyFailures(before: seq<bool>, after: seq<bool>) {
    before <= after && forall i :: |before| <= i < |after| ==> !after[i]
  }

  lemma {:induction false} RejectOnlyRejects(r: Requests, reason: Reason, n: nat)
    ensures OnlyRejects(r.settled, RejectUpTo(r, reason, n).settled)
  {
    if n > 0 { RejectOnlyRejects(r, reason, n - 1); }
  }

  lemma {:induction false} RejectedOutcome(log: seq<Settlement>, id: nat)
    requires forall i :: 0 <= i < |log| ==> log[i].outcome.Rejected?
    ensures OutcomeOf(log, id).Some? ==> OutcomeOf(log, id).value.Rejected?
  {
    if log != [] { RejectedOutcome(log[1..], id); }
  }

  lemma ResumeFails(s: State, r: Requests, writable: bool)
    requires s.attempts.inFlight.Some? ==> OutcomeOf(s.requests.settled, s.attempts.inFlight.value).None?
    requires OnlyRejects(s.requests.settled, r.settled)
    ensures var t := Resume(s.(connected := false, requests := r), writable);
      OnlyFailures(s.attempts.outcomes, t.attempts.outcomes) && !t.connected
  {
    if s.attempts.inFlight.Some? {
      var more := r.settled[|s.requests.settled|..];
      assert r.settled == s.requests.settled + more;
      OutcomeStable(s.requests.settled, more, s.attempts.inFlight.value);
      RejectedOutcome(more, s.attempts.inFlight.value);
    }
  }

  /** The client past its cap: every read is refused, so requests can only fail. */
  ghost predicate Wedged(s: State, t: State) {
    && |t.buffer| > MAX_BUFFER_BYTES
    && OnlyRejects(s.requests.settled, t.requests.settled)
    && OnlyFailures(s.attempts.outcomes, t.attempts.outcomes)
    && (t.connected ==> s.connected)
  }

  lemma LoseWedged(s: State, reason: Reason)
    requires Inv(s) && |s.buffer| > MAX_BUFFER_BYTES
    ensures Wedged(s, Resume(Lose(s, reason), false))
  {
    RejectOnlyRejects(s.requests, reason, s.requests.lastId);
    if s.attempts.inFlight.Some? { CountOutcome(s.requests.settled, s.attempts.inFlight.value); }
    ResumeFails(s, RejectAll(s.requests, reason), false);
  }

  lemma ExpireWedged(s: State, timer: nat)
    requires Inv(s) && |s.buffer| > MAX_BUFFER_BYTES && timer in s.requests.timers
    ensures Wedged(s, Expire(s, timer))
  {
    if s.attempts.inFlight.Some? {
      CountOutcome(s.requests.settled, s.attempts.inFlight.value);
      ResumeFails(s, Settle(s.requests, s.requests.timers[timer], Rejected(Timeout)), false);
    }
  }

  lemma StepWedged(s: State, e: Event)
    requires Inv(s) && |s.buffer| > MAX_BUFFER_BYTES && e != Close
    ensures Wedged(s, Step(s, e))
  {
    match e
    case Exit(code) => LoseWedged(s, Exited(code));
    case Fail(message) => LoseWedged(s, ProcessError(message));
    case Fire(timer) =>
      if timer in s.requests.timers { ExpireWedged(s, timer); }
    case _ =>
  }

  /**
   Once the buffer has passed the cap, only `close` clears it: until then no request is ever resolved
   and no connection attempt succeeds, however often the client reconnects.
   */
  lemma {:induction false} OverflowWedges(s: State, events: seq<Event>)
    requires Inv(s) && |s.buffer| > 10485760 && Close !in events
    ensures Wedged(s, Run(s, events))
    decreases |events|
  {
    if events != [] {
      var t := Step(s, events[0]);
      StepKeeps(s, events[0]);
      StepWedged(s, events[0]);
      OverflowWedges(t, events[1..]);
      assert events[0] in events;
    }
  }
}
