/**
 What each event does, told by what the server wrote and what the caller asked: which replies reject, how a handshake
 ends, what a lost process and a fired timer leave behind, and what goes out on the wire.
 */
module McpEffects {
  import opened Prelude
  import opened Lines
  import opened Utf8
  import opened McpProtocol
  import opened McpSafety
  import opened McpFraming
  import opened McpStaleTail
  import Json
  import PyString

  // ----- names -----

  /** The ASCII text of the string. */
  predicate Spells(t: Json.Text, s: string) { |t| == |s| && forall i :: 0 <= i < |t| ==> t[i] as int == s[i] as int }

  lemma NamesSpelled()
    ensures Spells(JSONRPC, "jsonrpc") && Spells(VERSION, "2.0") && Spells(ID, "id")
    ensures Spells(METHOD, "method") && Spells(PARAMS, "params") && Spells(RESULT, "result") && Spells(ERROR, "error")
  {
  }

  lemma InitializeSpelled()
    ensures Spells(INITIALIZE, "initialize")
  {
  }

  lemma InitializedSpelled()
    ensures Spells(INITIALIZED[..14], "notifications/") && Spells(INITIALIZED[14..], "initialized")
  {
  }

  /** A blank line is one of JavaScript's white space: Python's without the separators 28 to 31 and 133, and with U+FEFF. */
  lemma TrimmedUnits(c: Unit)
    ensures TrimSpace(c) <==>
      c == 0xFEFF || ((c < 0xD800 || 0xE000 <= c) && PyString.IsSpace(c as int as char) && !(28 <= c <= 31) && c != 133)
  {
  }

  // ----- replies -----

  /** The reply's `error` is there, and is not null, false, zero or the empty string. */
  predicate SaysError(members: seq<Json.Member>) {
    var e := Field(members, ERROR);
    && e.Some? && e != Some(Json.Null) && e != Some(Json.Bool(false)) && e != Some(Json.Str([]))
    && !(e.value.Num? && Json.IntegerValue(e.value.lexeme) == Some(0))
  }

  /** The message has this id. */
  predicate HasId(members: seq<Json.Member>, id: nat) {
    match Field(members, ID)
    case Some(Num(l)) => Json.IntegerValue(l) == Some(id)
    case _ => false
  }

  lemma {:induction false} SkipBlank(t: Json.Text)
    requires Blank(t)
    ensures Blank(Json.SkipSpace(t)) && (Json.SkipSpace(t) == [] || !Json.IsSpace(Json.SkipSpace(t)[0]))
  {
    if t != [] && Json.IsSpace(t[0]) { SkipBlank(t[1..]); }
  }

  /** White space alone is no value. */
  lemma BlankUnparsed(t: Json.Text)
    requires Blank(t)
    ensures Json.Parse(t) == None
  {
    SkipBlank(t);
    var s := Json.SkipSpace(t);
    if s != [] {
      assert TrimSpace(s[0]);
      assert !(Json.NULL_TEXT <= s) && !(Json.TRUE_TEXT <= s) && !(Json.FALSE_TEXT <= s);
      assert Json.ParseWord(s).Fail?;
    }
  }

  /** A reply to a pending request rejects it with its error, if it has one, and else resolves it with its result. */
  lemma ReplySettles(r: Requests, line: seq<Byte>, members: seq<Json.Member>, id: nat)
    requires Json.Parse(Decode(line)) == Some(Json.Obj(members)) && HasId(members, id) && id in r.pending
    ensures var t := HandleLine(r, line);
      && t.pending == r.pending - {id} && t.timers == r.timers - {r.pending[id]}
      && t.lastId == r.lastId && t.nextTimer == r.nextTimer && t.logged == r.logged
      && (SaysError(members) ==> t.settled == r.settled + [Settlement(id, Rejected(RpcError(Field(members, ERROR).value)))])
      && (!SaysError(members) ==> t.settled == r.settled + [Settlement(id, Resolved(Field(members, RESULT)))])
  {
    if Blank(Decode(line)) { BlankUnparsed(Decode(line)); }
  }

  /** Any other line settles nothing; what is neither blank nor JSON, and a bare null, is reported. */
  lemma OtherLineSettlesNothing(r: Requests, line: seq<Byte>)
    requires var m := Json.Parse(Decode(line)); m.Some? && m.value.Obj? ==> forall id :: id in r.pending ==> !HasId(m.value.members, id)
    ensures var m := Json.Parse(Decode(line));
      HandleLine(r, line) ==
        if (m == None && exists i :: 0 <= i < |Decode(line)| && !TrimSpace(Decode(line)[i])) || m == Some(Json.Null)
        then r.(logged := r.logged + 1) else r
  {
    if Blank(Decode(line)) { BlankUnparsed(Decode(line)); }
  }

  // ----- the handshake -----

  /** A reply to the first handshake, in any chunks. */
  lemma HandshakeEnds(p: Json.Value, m: Json.Value, chunks: seq<seq<Byte>>)
    requires Message(m) && HasId(m.members, 1)
    requires chunks != [] && WithinCap([], chunks) && Concat(chunks) == Frame(m)
    ensures var s, t := Started(p), Feed(Started(p), chunks, true);
      && t.requests.pending == map[] && t.requests.timers == map[] && t.attempts.inFlight == None && t.attempts.waiting == {}
      && (SaysError(m.members) ==>
            && !t.connected && t.attempts.outcomes == [false] && t.attempts.answers == map[0 := Shared(0, false)]
            && t.requests.settled == [Settlement(1, Rejected(RpcError(Field(m.members, ERROR).value)))] && t.written == s.written)
      && (!SaysError(m.members) ==>
            && t.connected && t.attempts.outcomes == [true] && t.attempts.answers == map[0 := Shared(0, true)]
            && t.requests.settled == [Settlement(1, Resolved(Field(m.members, RESULT)))]
            && |t.written| == |s.written| + 1 && s.written <= t.written && Tells(t.written[|s.written|], INITIALIZED, Json.Obj([])))
  {
    NotificationTells(INITIALIZED, Json.Obj([]));
    var s := Started(p);
    StartedIs(p);
    assert Frames([m]) == Frame(m) + Frames([]) == Frame(m);
    MessagesArrive(s, [m], chunks, true);
    assert [m][1..] == [];
    assert HandleAll(s.requests, [m]) == Handle(s.requests, m);
    FrameIsOneLine(m);
    ReplySettles(s.requests, Body(m), m.members, 1);
    assert HandleLine(s.requests, Body(m)) == Handle(s.requests, m);
    ResumesStarted(s, Handle(s.requests, m));
  }

  lemma ResumesStarted(s: State, r: Requests)
    requires s.attempts == Attempts(Some(1), 1, [], {0}, map[], 1) && s.hasProcess && !s.connected
    requires |r.settled| == 1 && r.settled[0].id == 1
    ensures var t := Resume(s.(requests := r), true);
      var ok := r.settled[0].outcome.Resolved?;
      && t.requests == r && t.connected == ok
      && t.attempts == Attempts(None, 1, [ok], {}, map[0 := Shared(0, ok)], 1)
      && t.written == s.written + (if ok then [Notification(INITIALIZED, Json.Obj([]))] else [])
  {
    assert OutcomeOf(r.settled, 1) == Some(r.settled[0].outcome);
  }

  /** A notification as its fields say; it has no id. */
  ghost predicate Tells(m: Json.Value, name: Json.Text, params: Json.Value) {
    && m.Obj? && |m.members| == 3 && Field(m.members, ID) == None
    && Field(m.members, JSONRPC) == Some(Json.Str(VERSION))
    && Field(m.members, METHOD) == Some(Json.Str(name)) && Field(m.members, PARAMS) == Some(params)
  }

  lemma NotificationTells(name: Json.Text, params: Json.Value)
    ensures Tells(Notification(name, params), name, params)
  {
    var a, b, c := Json.Member(JSONRPC, Json.Str(VERSION)), Json.Member(METHOD, Json.Str(name)), Json.Member(PARAMS, params);
    assert |JSONRPC| == 7 && |ID| == 2 && |METHOD| == 6 && |PARAMS| == 6 && METHOD[0] != PARAMS[0];
    ThreeFields(a, b, c, ID);
    ThreeFields(a, b, c, JSONRPC);
    ThreeFields(a, b, c, METHOD);
    ThreeFields(a, b, c, PARAMS);
  }

  function ErrorReply(id: nat, error: Json.Value): Json.Value {
    Json.Obj([Json.Member(JSONRPC, Json.Str(VERSION)), Json.Member(ID, Json.Nat(id)), Json.Member(ERROR, error)])
  }

  /** A server that refuses the handshake leaves the client unconnected, the caller told so, and nothing pending. */
  lemma RefusedHandshake(p: Json.Value, error: Json.Value, chunks: seq<seq<Byte>>)
    requires Json.Valid(error) && (error.Obj? || error == Json.Bool(true) || (error.Str? && error.text != []))
    requires chunks != [] && WithinCap([], chunks) && Concat(chunks) == Frame(ErrorReply(1, error))
    ensures var t := Feed(Started(p), chunks, true);
      && !t.connected && t.attempts.outcomes == [false] && t.attempts.answers == map[0 := Shared(0, false)]
      && t.requests.settled == [Settlement(1, Rejected(RpcError(error)))] && t.requests.pending == map[]
  {
    ErrorReplyFields(1, error);
    HandshakeEnds(p, ErrorReply(1, error), chunks);
  }

  lemma ErrorReplyFields(id: nat, error: Json.Value)
    requires Json.Valid(error)
    ensures Message(ErrorReply(id, error)) && HasId(ErrorReply(id, error).members, id)
    ensures Field(ErrorReply(id, error).members, ERROR) == Some(error)
  {
    Json.NatNumber(id);
    NamesDiffer();
    var version, ident := Json.Member(JSONRPC, Json.Str(VERSION)), Json.Member(ID, Json.Nat(id));
    ThreeFields(version, ident, Json.Member(ERROR, error), ID);
    ThreeFields(version, ident, Json.Member(ERROR, error), ERROR);
  }

  // ----- a lost process -----

  /** The settlements from this place on are rejections for this reason, in the order of the requests up to n. */
  ghost predicate InRequestOrder(log: seq<Settlement>, start: nat, n: nat, reason: Reason) {
    && (forall i :: start <= i < |log| ==> log[i].id <= n && log[i].outcome == Rejected(reason))
    && (forall i, j :: start <= i < j < |log| ==> log[i].id < log[j].id)
  }

  lemma OneRejected(r: Requests, id: nat, reason: Reason)
    requires RequestsMatch(r) && id in r.pending
    ensures OutcomeOf(Settle(r, id, Rejected(reason)).settled, id) == Some(Rejected(reason))
  {
    CountOutcome(r.settled, id);
    OutcomeStable(r.settled, [Settlement(id, Rejected(reason))], id);
  }

  /** Requests up to n that were pending are rejected for this reason, in their order, and no other was touched. */
  ghost predicate RejectedUpTo(r: Requests, t: Requests, n: nat, reason: Reason) {
    && r.settled <= t.settled && InRequestOrder(t.settled, |r.settled|, n, reason)
    && forall id :: id in r.pending && id <= n ==> OutcomeOf(t.settled, id) == Some(Rejected(reason))
  }

  lemma RejectNext(r: Requests, t: Requests, n: nat, reason: Reason)
    requires RejectedUpTo(r, t, n, reason) && n + 1 in t.pending && OutcomeOf(t.settled, n + 1).None?
    ensures RejectedUpTo(r, Settle(t, n + 1, Rejected(reason)), n + 1, reason)
  {
    OutcomeStable(t.settled, [Settlement(n + 1, Rejected(reason))], n + 1);
    forall id | id in r.pending && id <= n
      ensures OutcomeOf(t.settled + [Settlement(n + 1, Rejected(reason))], id) == Some(Rejected(reason))
    {
      OutcomeStable(t.settled, [Settlement(n + 1, Rejected(reason))], id);
    }
  }

  lemma SkipNext(r: Requests, t: Requests, n: nat, reason: Reason)
    requires RejectedUpTo(r, t, n, reason) && n + 1 !in r.pending
    ensures RejectedUpTo(r, t, n + 1, reason)
  {
  }

  lemma NothingRejected(r: Requests, reason: Reason)
    requires RequestsMatch(r)
    ensures RejectedUpTo(r, r, 0, reason)
  {
    assert forall id :: id in r.pending ==> id >= 1;
  }

  /** The next request is pending still, if it was, and not settled. */
  ghost predicate NextReady(r: Requests, t: Requests, id: nat) {
    && (id in r.pending ==> id in t.pending)
    && (id in t.pending ==> OutcomeOf(t.settled, id).None?)
  }

  lemma StepRejects(r: Requests, t: Requests, u: Requests, n: nat, reason: Reason)
    requires RejectedUpTo(r, t, n, reason) && NextReady(r, t, n + 1)
    requires u == if n + 1 in t.pending then Settle(t, n + 1, Rejected(reason)) else t
    ensures RejectedUpTo(r, u, n + 1, reason)
  {
    if n + 1 in t.pending { RejectNext(r, t, n, reason); } else { SkipNext(r, t, n, reason); }
  }

  lemma RejectReady(r: Requests, reason: Reason, n: nat)
    requires RequestsMatch(r)
    ensures NextReady(r, RejectUpTo(r, reason, n), n + 1)
  {
    var t := RejectUpTo(r, reason, n);
    RejectKeeps(r, reason, n);
    PendingAbove(r, reason, n, n + 1);
    CountOutcome(t.settled, n + 1);
  }

  lemma {:induction false} RejectsEach(r: Requests, reason: Reason, n: nat)
    requires RequestsMatch(r)
    ensures RejectedUpTo(r, RejectUpTo(r, reason, n), n, reason)
  {
    if n == 0 {
      NothingRejected(r, reason);
    } else {
      RejectsEach(r, reason, n - 1);
      RejectReady(r, reason, n - 1);
      StepRejects(r, RejectUpTo(r, reason, n - 1), RejectUpTo(r, reason, n), n - 1, reason);
    }
  }

  lemma {:induction false} PendingAbove(r: Requests, reason: Reason, n: nat, id: nat)
    requires id > n
    ensures id in r.pending ==> id in RejectUpTo(r, reason, n).pending
  {
    if n > 0 { PendingAbove(r, reason, n - 1, id); }
  }

  function LossReason(e: Event): Reason
    requires e.Exit? || e.Fail? || e.Close?
  {
    match e
    case Exit(code) => Exited(code)
    case Fail(message) => ProcessError(message)
    case Close => Closing
  }

  lemma RejectAllEach(r: Requests, reason: Reason)
    requires RequestsMatch(r)
    ensures var t := RejectAll(r, reason);
      && t.pending == map[] && t.timers == map[] && t.lastId == r.lastId && t.logged == r.logged
      && r.settled <= t.settled && InRequestOrder(t.settled, |r.settled|, r.lastId, reason)
      && forall id :: id in r.pending ==> OutcomeOf(t.settled, id) == Some(Rejected(reason))
  {
    RejectsEach(r, reason, r.lastId);
    RejectAllKeeps(r, reason);
    LoggedKept(r, reason, r.lastId);
  }

  lemma {:induction false} LoggedKept(r: Requests, reason: Reason, n: nat)
    ensures RejectUpTo(r, reason, n).logged == r.logged
  {
    if n > 0 { LoggedKept(r, reason, n - 1); }
  }

  /** The attempt in flight fails with the rejection of its request. */
  lemma LostAttempt(s: State, r: Requests, hasProcess: bool, buffer: seq<Byte>)
    requires s.attempts.inFlight.Some? ==>
      OutcomeOf(r.settled, s.attempts.inFlight.value).Some? && OutcomeOf(r.settled, s.attempts.inFlight.value).value.Rejected?
    ensures var t := Resume(s.(connected := false, requests := r, hasProcess := hasProcess, buffer := buffer), false);
      && t.requests == r && !t.connected && t.written == s.written && t.hasProcess == hasProcess && t.buffer == buffer
      && t.attempts == if s.attempts.inFlight.Some? then Conclude(s.attempts, false) else s.attempts
  {
  }

  /**
   An exit, an error of the process or a close disconnects, rejects every pending request with its own reason and in
   the order of the requests, and ends the attempt in flight as failed; a close also forgets the process and its bytes.
   */
  lemma LossRejectsAll(s: State, e: Event)
    requires Inv(s) && (e.Exit? || e.Fail? || e.Close?)
    ensures var t := Step(s, e);
      && !t.connected && t.requests.pending == map[] && t.requests.timers == map[] && t.written == s.written
      && (forall id :: id in s.requests.pending ==> OutcomeOf(t.requests.settled, id) == Some(Rejected(LossReason(e))))
      && s.requests.settled <= t.requests.settled
      && InRequestOrder(t.requests.settled, |s.requests.settled|, s.requests.lastId, LossReason(e))
      && t.attempts.inFlight == None
      && t.attempts.outcomes == s.attempts.outcomes + (if s.attempts.inFlight.Some? then [false] else [])
      && (if e.Close? then !t.hasProcess && t.buffer == [] else t.hasProcess == s.hasProcess && t.buffer == s.buffer)
  {
    var r := RejectAll(s.requests, LossReason(e));
    RejectAllEach(s.requests, LossReason(e));
    if e.Close? { LostAttempt(s, r, false, []); } else { LostAttempt(s, r, s.hasProcess, s.buffer); }
  }

  // ----- timers -----

  /** A live timer rejects its own request with a timeout and nothing else; a stale one does nothing. */
  lemma TimerRejects(s: State, timer: nat)
    requires Inv(s)
    ensures var t := Step(s, Fire(timer));
      if timer in s.requests.timers then
        var id := s.requests.timers[timer];
        && t.requests.settled == s.requests.settled + [Settlement(id, Rejected(Timeout))]
        && t.requests.pending == s.requests.pending - {id} && t.requests.timers == s.requests.timers - {timer}
        && t.connected == s.connected && t.written == s.written && t.buffer == s.buffer
        && t.attempts.outcomes == s.attempts.outcomes + (if s.attempts.inFlight == Some(id) then [false] else [])
      else t == s
  {
    if timer in s.requests.timers {
      var id := s.requests.timers[timer];
      OneRejected(s.requests, id, Timeout);
      if s.attempts.inFlight.Some? {
        var flight := s.attempts.inFlight.value;
        CountOutcome(s.requests.settled, flight);
        OutcomeStable(s.requests.settled, [Settlement(id, Rejected(Timeout))], flight);
        assert [Settlement(id, Rejected(Timeout))][1..] == [];
      }
    }
  }

  // ----- what is sent -----

  lemma FourFields(a: Json.Member, b: Json.Member, c: Json.Member, d: Json.Member, name: Json.Text)
    ensures Field([a, b, c, d], name) == if d.name == name then Some(d.value) else Field([a, b, c], name)
  {
    assert [a, b, c, d] == [a, b, c] + [d];
    FieldAppend([a, b, c], d, name);
  }

  /** A message as its fields say. */
  ghost predicate Asks(m: Json.Value, id: nat, name: Json.Text, params: Json.Value) {
    && m.Obj? && |m.members| == 4
    && Field(m.members, JSONRPC) == Some(Json.Str(VERSION)) && HasId(m.members, id)
    && Field(m.members, METHOD) == Some(Json.Str(name)) && Field(m.members, PARAMS) == Some(params)
  }

  lemma RequestAsks(id: nat, name: Json.Text, params: Json.Value)
    ensures Asks(Request(id, name, params), id, name, params)
  {
    Json.NatNumber(id);
    var a, b := Json.Member(JSONRPC, Json.Str(VERSION)), Json.Member(ID, Json.Nat(id));
    var c, d := Json.Member(METHOD, Json.Str(name)), Json.Member(PARAMS, params);
    assert |JSONRPC| == 7 && |ID| == 2 && |METHOD| == 6 && |PARAMS| == 6 && METHOD[0] != PARAMS[0];
    FourFields(a, b, c, d, JSONRPC);
    FourFields(a, b, c, d, ID);
    FourFields(a, b, c, d, METHOD);
    FourFields(a, b, c, d, PARAMS);
    ThreeFields(a, b, c, JSONRPC);
    ThreeFields(a, b, c, ID);
    ThreeFields(a, b, c, METHOD);
  }

  /** A request gets the next id, its own timer and one message on the wire; without a writable process nothing happens. */
  lemma SendAsks(s: State, name: Json.Text, params: Json.Value, writable: bool)
    ensures var t := Step(s, Event.Send(name, params, writable)); var id := s.requests.lastId + 1;
      if s.hasProcess && writable then
        && |t.written| == |s.written| + 1 && s.written <= t.written && Asks(t.written[|s.written|], id, name, params)
        && t.requests.lastId == id && t.requests.pending == s.requests.pending[id := s.requests.nextTimer]
        && t.requests.timers == s.requests.timers[s.requests.nextTimer := id] && t.requests.nextTimer == s.requests.nextTimer + 1
        && t.requests.settled == s.requests.settled && t.attempts == s.attempts && t.connected == s.connected && t.buffer == s.buffer
      else t == s
  {
    RequestAsks(s.requests.lastId + 1, name, params);
  }

  /** A connected client answers at once; during an attempt the caller waits for it. */
  lemma EnsureJoins(s: State, params: Json.Value, writable: bool)
    requires s.connected || s.attempts.inFlight.Some?
    ensures var t := Step(s, Ensure(params, writable)); var c := s.attempts.nextCaller;
      && t.requests == s.requests && t.written == s.written && t.buffer == s.buffer && t.connected == s.connected
      && t.attempts.nextCaller == c + 1 && t.attempts.inFlight == s.attempts.inFlight && t.attempts.outcomes == s.attempts.outcomes
      && (s.connected ==> t.attempts.answers == s.attempts.answers[c := AlreadyConnected] && t.attempts.waiting == s.attempts.waiting)
      && (!s.connected ==> t.attempts.waiting == s.attempts.waiting + {c} && t.attempts.answers == s.attempts.answers)
  {
  }

  /** Otherwise an attempt starts with an initialize request, or fails at once when the new process cannot be written to. */
  lemma EnsureStarts(s: State, params: Json.Value, writable: bool)
    requires Inv(s) && !s.connected && s.attempts.inFlight.None?
    ensures var t := Step(s, Ensure(params, writable)); var c, id, n := s.attempts.nextCaller, s.requests.lastId + 1, |s.attempts.outcomes|;
      && t.attempts.nextCaller == c + 1 && t.buffer == s.buffer && !t.connected && t.hasProcess
      && (if writable then
            && t.attempts.inFlight == Some(id) && t.attempts.waiting == {c} && id in t.requests.pending
            && t.attempts.outcomes == s.attempts.outcomes && t.attempts.answers == s.attempts.answers
            && |t.written| == |s.written| + 1 && s.written <= t.written && Asks(t.written[|s.written|], id, INITIALIZE, params)
          else
            && t.attempts.inFlight == None && t.attempts.waiting == {} && t.attempts.outcomes == s.attempts.outcomes + [false]
            && t.attempts.answers == s.attempts.answers[c := Shared(n, false)] && t.requests == s.requests && t.written == s.written)
  {
    RequestAsks(s.requests.lastId + 1, INITIALIZE, params);
    ConcludeOne(JoinAttempt(s.attempts).(spawned := s.attempts.spawned + 1), s.attempts.nextCaller, false);
  }

  lemma ConcludeOne(a: Attempts, c: nat, ok: bool)
    requires a.waiting == {c}
    ensures Conclude(a, ok).answers == a.answers[c := Shared(|a.outcomes|, ok)]
  {
  }
}
