/** What every run of the client keeps, and what settles a request. */
module McpSafety {
  import opened Prelude
  import opened Lines
  import opened Utf8
  import opened McpProtocol
  import Json

  // ----- the settlement log -----

  lemma CountAppend(log: seq<Settlement>, e: Settlement, id: nat)
    ensures Count(log + [e], id) == Count(log, id) + if e.id == id then 1 else 0
  {
    assert (log + [e])[..|log|] == log;
  }

  lemma {:induction false} OutcomeStable(log: seq<Settlement>, more: seq<Settlement>, id: nat)
    ensures OutcomeOf(log, id).Some? ==> OutcomeOf(log + more, id) == OutcomeOf(log, id)
    ensures OutcomeOf(log, id).None? ==> OutcomeOf(log + more, id) == OutcomeOf(more, id)
  {
    if log == [] {
      assert log + more == more;
    } else {
      assert (log + more)[1..] == log[1..] + more;
      OutcomeStable(log[1..], more, id);
    }
  }

  lemma {:induction false} CountOutcome(log: seq<Settlement>, id: nat)
    ensures OutcomeOf(log, id).Some? <==> Count(log, id) > 0
  {
    if log != [] {
      var front, last := log[..|log| - 1], log[|log| - 1];
      assert log == front + [last];
      CountOutcome(front, id);
      OutcomeStable(front, [last], id);
      assert [last][1..] == [];
    }
  }

  // ----- requests -----

  /** t comes from r by settling some pending requests and logging. */
  ghost predicate OnlySettles(r: Requests, t: Requests) {
    && t.lastId == r.lastId && t.nextTimer == r.nextTimer
    && r.settled <= t.settled
    && (forall id :: id in t.pending ==> id in r.pending && t.pending[id] == r.pending[id])
  }

  lemma SettleKeeps(r: Requests, id: nat, o: Outcome)
    requires id in r.pending && RequestsMatch(r)
    ensures RequestsMatch(Settle(r, id, o)) && OnlySettles(r, Settle(r, id, o))
  {
    var t := Settle(r, id, o);
    forall k: nat
      ensures Count(t.settled, k) + (if k in t.pending then 1 else 0) == if 1 <= k <= t.lastId then 1 else 0
    {
      CountAppend(r.settled, Settlement(id, o), k);
    }
  }

  lemma HandleLineKeeps(r: Requests, line: seq<Byte>)
    requires RequestsMatch(r)
    ensures RequestsMatch(HandleLine(r, line)) && OnlySettles(r, HandleLine(r, line))
  {
    match Json.Parse(Decode(line))
    case None =>
    case Some(m) =>
      match Addressee(r, m)
      case None =>
      case Some(id) => SettleKeeps(r, id, ResponseOutcome(m.members));
  }

  lemma {:induction false} HandleLinesKeeps(r: Requests, lines: seq<seq<Byte>>)
    requires RequestsMatch(r)
    ensures RequestsMatch(HandleLines(r, lines)) && OnlySettles(r, HandleLines(r, lines))
    decreases |lines|
  {
    if lines != [] {
      HandleLineKeeps(r, lines[0]);
      HandleLinesKeeps(HandleLine(r, lines[0]), lines[1..]);
    }
  }

  lemma {:induction false} RejectKeeps(r: Requests, reason: Reason, n: nat)
    requires RequestsMatch(r)
    ensures var t := RejectUpTo(r, reason, n);
      RequestsMatch(t) && OnlySettles(r, t) && forall id :: id in t.pending ==> id > n
  {
    if n > 0 {
      var t := RejectUpTo(r, reason, n - 1);
      RejectKeeps(r, reason, n - 1);
      if n in t.pending { SettleKeeps(t, n, Rejected(reason)); }
    }
  }

  lemma RejectAllKeeps(r: Requests, reason: Reason)
    requires RequestsMatch(r)
    ensures var t := RejectAll(r, reason);
      RequestsMatch(t) && OnlySettles(r, t) && t.pending == map[] && t.timers == map[]
  {
    RejectKeeps(r, reason, r.lastId);
    var t := RejectAll(r, reason);
    assert t.pending.Keys == {};
    assert t.timers.Keys == {};
  }

  lemma RegisterKeeps(r: Requests)
    requires RequestsMatch(r)
    ensures RequestsMatch(Register(r))
  {
  }

  // ----- attempts -----

  lemma ConcludeKeeps(a: Attempts, ok: bool)
    requires CallersMatch(a) && a.spawned == |a.outcomes| + 1
    ensures AttemptsMatch(Conclude(a, ok))
  {
    var t := Conclude(a, ok);
    forall c | c in t.answers
      ensures c < t.nextCaller && Truthful(t.outcomes, t.answers[c])
    {
      if c !in a.waiting { assert Truthful(a.outcomes, a.answers[c]); }
    }
  }

  lemma JoinAttemptKeeps(a: Attempts)
    requires CallersMatch(a)
    ensures CallersMatch(JoinAttempt(a))
  {
  }

  /** The continuation closes an attempt exactly when its request is no longer pending. */
  lemma ResumeKeeps(s: State, writable: bool)
    requires Running(s)
    ensures Inv(Resume(s, writable))
  {
    if s.attempts.inFlight.Some? {
      CountOutcome(s.requests.settled, s.attempts.inFlight.value);
      ConcludeKeeps(s.attempts, true);
      ConcludeKeeps(s.attempts, false);
    }
  }

  lemma EnsureKeeps(s: State, params: Json.Value, writable: bool)
    requires Inv(s)
    ensures Inv(EnsureConnected(s, params, writable))
  {
    if !s.connected {
      JoinAttemptKeeps(s.attempts);
      if s.attempts.inFlight.None? {
        var a := JoinAttempt(s.attempts).(spawned := s.attempts.spawned + 1);
        RegisterKeeps(s.requests);
        if !writable { ConcludeKeeps(a, false); }
      }
    }
  }

  // ----- steps and runs -----

  lemma ReceiveKeeps(s: State, chunk: seq<Byte>, writable: bool)
    requires Inv(s)
    ensures Inv(Receive(s, chunk, writable))
  {
    var b := s.buffer + chunk;
    if |b| <= MAX_BUFFER_BYTES {
      CutInverse(b, NEWLINE);
      var r := HandleLines(s.requests, Complete(b, NEWLINE));
      HandleLinesKeeps(s.requests, Complete(b, NEWLINE));
      ResumeKeeps(s.(buffer := Tail(b, NEWLINE), requests := r), writable);
    }
  }

  lemma ExpireKeeps(s: State, timer: nat)
    requires Inv(s)
    ensures Inv(Expire(s, timer))
  {
    if timer in s.requests.timers {
      var id := s.requests.timers[timer];
      SettleKeeps(s.requests, id, Rejected(Timeout));
      ResumeKeeps(s.(requests := Settle(s.requests, id, Rejected(Timeout))), false);
    }
  }

  lemma LoseKeeps(s: State, reason: Reason)
    requires Inv(s)
    ensures Inv(Resume(Lose(s, reason), false))
    ensures Inv(Resume(Lose(s, reason).(hasProcess := false, buffer := []), false))
  {
    RejectAllKeeps(s.requests, reason);
    ResumeKeeps(Lose(s, reason), false);
    ResumeKeeps(Lose(s, reason).(hasProcess := false, buffer := []), false);
  }

  lemma StepKeeps(s: State, e: Event)
    requires Inv(s)
    ensures Inv(Step(s, e))
  {
    match e
    case Send(_, _, _) => RegisterKeeps(s.requests);
    case Ensure(params, writable) => EnsureKeeps(s, params, writable);
    case Data(chunk, writable) => ReceiveKeeps(s, chunk, writable);
    case Fire(timer) => ExpireKeeps(s, timer);
    case Exit(code) => LoseKeeps(s, Exited(code));
    case Fail(message) => LoseKeeps(s, ProcessError(message));
    case Close => LoseKeeps(s, Closing);
  }

  lemma {:induction false} RunKeeps(s: State, events: seq<Event>)
    requires Inv(s)
    ensures Inv(Run(s, events))
    decreases |events|
  {
    if events != [] {
      StepKeeps(s, events[0]);
      RunKeeps(Step(s, events[0]), events[1..]);
    }
  }

  /** A one-to-one correspondence leaves equally many timers and requests. */
  lemma {:induction false} TimersCard(r: Requests)
    requires TimersMatch(r)
    ensures |r.timers| == |r.pending|
    decreases |r.pending|
  {
    if r.pending.Keys == {} {
      assert r.timers.Keys == {};
    } else {
      var id :| id in r.pending;
      var h := r.pending[id];
      var t := r.(pending := r.pending - {id}, timers := r.timers - {h});
      assert t.pending.Keys == r.pending.Keys - {id};
      assert t.timers.Keys == r.timers.Keys - {h};
      TimersCard(t);
    }
  }

  /**
   Over every interleaving from the start: a request is pending or has been settled once, never both,
   and the live timers are exactly the pending requests' own.
   */
  lemma ExactlyOnce(events: seq<Event>, id: nat)
    ensures var r := Run(INITIAL, events).requests;
      && Count(r.settled, id) + (if id in r.pending then 1 else 0) == (if 1 <= id <= r.lastId then 1 else 0)
      && (forall h :: h in r.timers ==> r.timers[h] in r.pending && r.pending[r.timers[h]] == h)
      && (id in r.pending ==> r.pending[id] in r.timers)
      && |r.timers| == |r.pending|
  {
    assert Inv(INITIAL);
    RunKeeps(INITIAL, events);
    TimersCard(Run(INITIAL, events).requests);
  }

  // ----- settled once, settled for good -----

  /** The logs only grow and request ids only rise. */
  ghost predicate Extends(s: State, t: State) {
    && s.requests.settled <= t.requests.settled
    && s.requests.lastId <= t.requests.lastId
    && s.attempts.outcomes <= t.attempts.outcomes
  }

  lemma ResumeExtends(s: State, writable: bool)
    ensures Extends(s, Resume(s, writable)) && Resume(s, writable).requests == s.requests
  {
  }

  lemma ReceiveExtends(s: State, chunk: seq<Byte>, writable: bool)
    requires Inv(s)
    ensures Extends(s, Receive(s, chunk, writable))
  {
    var b := s.buffer + chunk;
    HandleLinesKeeps(s.requests, Complete(b, NEWLINE));
    ResumeExtends(s.(buffer := Tail(b, NEWLINE), requests := HandleLines(s.requests, Complete(b, NEWLINE))), writable);
  }

  lemma LoseExtends(s: State, reason: Reason)
    requires Inv(s)
    ensures Extends(s, Resume(Lose(s, reason), false))
    ensures Extends(s, Resume(Lose(s, reason).(hasProcess := false, buffer := []), false))
  {
    RejectAllKeeps(s.requests, reason);
    ResumeExtends(Lose(s, reason), false);
    ResumeExtends(Lose(s, reason).(hasProcess := false, buffer := []), false);
  }

  lemma StepExtends(s: State, e: Event)
    requires Inv(s)
    ensures Extends(s, Step(s, e))
  {
    match e
    case Send(_, _, _) =>
    case Ensure(_, _) =>
    case Data(chunk, writable) => ReceiveExtends(s, chunk, writable);
    case Fire(timer) =>
    case Exit(code) => LoseExtends(s, Exited(code));
    case Fail(message) => LoseExtends(s, ProcessError(message));
    case Close => LoseExtends(s, Closing);
  }

  lemma {:induction false} RunExtends(s: State, events: seq<Event>)
    requires Inv(s)
    ensures Extends(s, Run(s, events))
    decreases |events|
  {
    if events != [] {
      StepKeeps(s, events[0]);
      StepExtends(s, events[0]);
      RunExtends(Step(s, events[0]), events[1..]);
    }
  }

  /**
   Whatever happens after a request has been settled (late and duplicate responses, its stale timer,
   reconnects, new requests), its outcome stays, it is not settled again, and its id is not reissued.
   */
  lemma SettledForever(s: State, events: seq<Event>, id: nat)
    requires Inv(s) && OutcomeOf(s.requests.settled, id).Some?
    ensures var t := Run(s, events).requests;
      && OutcomeOf(t.settled, id) == OutcomeOf(s.requests.settled, id)
      && Count(t.settled, id) == 1
      && id !in t.pending
      && id <= s.requests.lastId <= t.lastId
  {
    var before, after := s.requests.settled, Run(s, events).requests.settled;
    RunKeeps(s, events);
    RunExtends(s, events);
    assert after == before + after[|before|..];
    OutcomeStable(before, after[|before|..], id);
    CountOutcome(before, id);
    CountOutcome(after, id);
  }

  /** A line that is a message with this id. */
  predicate Names(line: seq<Byte>, id: nat) {
    match Json.Parse(Decode(line))
    case Some(Obj(members)) =>
      (match Field(members, ID)
       case Some(Num(l)) => Json.IntegerValue(l) == Some(id)
       case _ => false)
    case _ => false
  }

  /** Request k stands as it did: pending under the same timer, or settled in the same way. */
  ghost predicate Untouched(r: Requests, t: Requests, k: nat) {
    && (k in t.pending <==> k in r.pending)
    && (k in r.pending ==> t.pending[k] == r.pending[k])
    && OutcomeOf(t.settled, k) == OutcomeOf(r.settled, k)
  }

  lemma OtherLine(r: Requests, line: seq<Byte>, k: nat)
    requires !Names(line, k)
    ensures Untouched(r, HandleLine(r, line), k)
  {
    match Json.Parse(Decode(line))
    case None =>
    case Some(m) =>
      match Addressee(r, m)
      case None =>
      case Some(id) =>
        OutcomeStable(r.settled, [Settlement(id, ResponseOutcome(m.members))], k);
        assert [Settlement(id, ResponseOutcome(m.members))][1..] == [];
  }

  /** Whatever the server writes, only a message with its own id moves a request. */
  lemma {:induction false} OthersUntouched(r: Requests, lines: seq<seq<Byte>>, k: nat)
    requires forall i :: 0 <= i < |lines| ==> !Names(lines[i], k)
    ensures Untouched(r, HandleLines(r, lines), k)
    decreases |lines|
  {
    if lines != [] {
      OtherLine(r, lines[0], k);
      OthersUntouched(HandleLine(r, lines[0]), lines[1..], k);
    }
  }

  function Fires(handles: seq<nat>): seq<Event> {
    if handles == [] then [] else [Fire(handles[0])] + Fires(handles[1..])
  }

  lemma FireEffect(s: State, h: nat)
    requires Inv(s)
    ensures Step(s, Fire(h)).requests.timers == s.requests.timers - {h}
  {
  }

  lemma FirstFires(s: State, handles: seq<nat>)
    requires handles != []
    ensures Run(s, Fires(handles)) == Run(Step(s, Fire(handles[0])), Fires(handles[1..]))
  {
    var e, rest := Fire(handles[0]), Fires(handles[1..]);
    assert ([e] + rest)[1..] == rest;
  }

  lemma FirstAndRest(handles: seq<nat>)
    requires handles != []
    ensures (set h | h in handles) == {handles[0]} + (set h | h in handles[1..])
  {
    assert handles == [handles[0]] + handles[1..];
  }

  lemma {:induction false} FiresEffect(s: State, handles: seq<nat>)
    requires Inv(s)
    ensures Run(s, Fires(handles)).requests.timers == s.requests.timers - (set h | h in handles)
    decreases |handles|
  {
    if handles != [] {
      StepKeeps(s, Fire(handles[0]));
      FireEffect(s, handles[0]);
      FirstFires(s, handles);
      FirstAndRest(handles);
      FiresEffect(Step(s, Fire(handles[0])), handles[1..]);
    }
  }

  /** Nobody hangs: once every live timer has fired, in any order, nothing is pending and nobody waits. */
  lemma NothingHangs(s: State, handles: seq<nat>)
    requires Inv(s) && forall h :: h in s.requests.timers ==> h in handles
    ensures var t := Run(s, Fires(handles));
      && t.requests.pending == map[] && t.attempts.inFlight == None && t.attempts.waiting == {}
      && (forall id :: id in s.requests.pending ==> Count(t.requests.settled, id) == 1)
  {
    var t := Run(s, Fires(handles)).requests;
    RunKeeps(s, Fires(handles));
    RunExtends(s, Fires(handles));
    FiresEffect(s, handles);
    assert t.timers.Keys == {};
    TimersCard(t);
  }

  // ----- shared connection attempts -----

  /** At most one attempt is in flight, and only an unconnected client without one starts another. */
  lemma OneAttemptInFlight(events: seq<Event>, params: Json.Value, writable: bool)
    ensures var s := Run(INITIAL, events);
      var a, b := s.attempts, Step(s, Ensure(params, writable)).attempts;
      && |a.outcomes| <= a.spawned <= |a.outcomes| + 1
      && (a.spawned == |a.outcomes| + 1 <==> a.inFlight.Some?)
      && (a.inFlight.Some? ==> a.inFlight.value in s.requests.pending)
      && b.spawned == a.spawned + (if s.connected || a.inFlight.Some? then 0 else 1)
  {
    assert Inv(INITIAL);
    RunKeeps(INITIAL, events);
  }

  ghost predicate WaitsOrShares(a: Attempts, c: nat, attempt: nat) {
    || (c in a.waiting && |a.outcomes| == attempt)
    || (c in a.answers && attempt < |a.outcomes| && a.answers[c] == Shared(attempt, a.outcomes[attempt]))
  }

  lemma ResumeShares(s: State, writable: bool, c: nat, attempt: nat)
    requires WaitsOrShares(s.attempts, c, attempt) && CallersMatch(s.attempts)
    ensures WaitsOrShares(Resume(s, writable).attempts, c, attempt)
  {
  }

  lemma StepShares(s: State, e: Event, c: nat, attempt: nat)
    requires Inv(s) && WaitsOrShares(s.attempts, c, attempt)
    ensures WaitsOrShares(Step(s, e).attempts, c, attempt)
  {
    match e
    case Send(_, _, _) =>
    case Ensure(params, writable) =>
    case Data(chunk, writable) =>
      var b := s.buffer + chunk;
      ResumeShares(s.(buffer := Tail(b, NEWLINE), requests := HandleLines(s.requests, Complete(b, NEWLINE))),
                   writable, c, attempt);
    case Fire(timer) =>
      if timer in s.requests.timers {
        ResumeShares(s.(requests := Settle(s.requests, s.requests.timers[timer], Rejected(Timeout))), false, c, attempt);
      }
    case Exit(code) => ResumeShares(Lose(s, Exited(code)), false, c, attempt);
    case Fail(message) => ResumeShares(Lose(s, ProcessError(message)), false, c, attempt);
    case Close => ResumeShares(Lose(s, Closing).(hasProcess := false, buffer := []), false, c, attempt);
  }

  lemma {:induction false} RunShares(s: State, events: seq<Event>, c: nat, attempt: nat)
    requires Inv(s) && WaitsOrShares(s.attempts, c, attempt)
    ensures WaitsOrShares(Run(s, events).attempts, c, attempt)
    decreases |events|
  {
    if events != [] {
      StepKeeps(s, events[0]);
      StepShares(s, events[0], c, attempt);
      RunShares(Step(s, events[0]), events[1..], c, attempt);
    }
  }

  /**
   A caller arriving while an attempt is in flight is told that attempt's outcome and no other's, and is
   told as soon as the attempt is over.
   */
  lemma CallersShareTheOutcome(s: State, params: Json.Value, writable: bool, events: seq<Event>)
    requires Inv(s) && s.attempts.inFlight.Some?
    ensures var t := Run(Step(s, Ensure(params, writable)), events).attempts;
      var n, c := |s.attempts.outcomes|, s.attempts.nextCaller;
      && (|t.outcomes| > n ==> c in t.answers && t.answers[c] == Shared(n, t.outcomes[n]))
      && (|t.outcomes| == n ==> c in t.waiting)
      && |t.outcomes| >= n
  {
    StepKeeps(s, Ensure(params, writable));
    var t := Step(s, Ensure(params, writable));
    RunShares(t, events, s.attempts.nextCaller, |s.attempts.outcomes|);
    RunKeeps(t, events);
    RunExtends(t, events);
  }
}
