/** The client itself: fields updated in place by one method per callback, each tied to the transition system. */
module McpClient {
  import opened Prelude
  import opened Lines
  import opened Utf8
  import P = McpProtocol
  import McpSafety
  import McpFraming
  import Json

  lemma NextLine(r: P.Requests, line: seq<Byte>, rest: seq<seq<Byte>>)
    ensures P.HandleLines(r, [line] + rest) == P.HandleLines(P.HandleLine(r, line), rest)
  {
    assert ([line] + rest)[1..] == rest;
  }

  class SurrealMemoryMcpClient {
    var hasProcess: bool
    var requestId: nat
    var pending: map<nat, nat>
    var timers: map<nat, nat>
    var nextTimer: nat
    var rawBuffer: seq<Byte>
    var connected: bool
    var connecting: P.Attempts           // the attempt in flight, who awaits it, and what came of the others
    var settled: seq<P.Settlement>
    ghost var written: seq<Json.Value>   // what the bytes on stdin say
    var stdin: seq<Byte>
    var logged: nat

    function Requests(): P.Requests
      reads `requestId, `pending, `timers, `nextTimer, `settled, `logged
    {
      P.Requests(requestId, pending, timers, nextTimer, settled, logged)
    }

    ghost function State(): P.State
      reads this
    {
      P.State(Requests(), connecting, hasProcess, connected, rawBuffer, written)
    }

    ghost predicate OnTheWire()
      reads this`stdin, this`written
    {
      stdin == McpFraming.Frames(written)
    }

    ghost predicate Valid()
      reads this
    {
      P.Inv(State()) && OnTheWire()
    }

    constructor ()
      ensures Valid() && State() == P.INITIAL
    {
      hasProcess, connected := false, false;
      requestId, nextTimer, logged := 0, 0, 0;
      pending, timers := map[], map[];
      settled, written, stdin, rawBuffer := [], [], [], [];
      connecting := P.Attempts(None, 0, [], {}, map[], 0);
    }

    method WriteMessage(message: Json.Value, writable: bool)
      requires OnTheWire()
      modifies this`written, this`stdin
      ensures OnTheWire() && written == old(written) + if hasProcess && writable then [message] else []
    {
      if !hasProcess || !writable { return; }
      var frame := Encode(Json.Print(message) + [LINE_FEED]);
      McpFraming.FramesAppend(written, message);
      stdin, written := stdin + frame, written + [message];
    }

    /** The next id, its timer, its entry in the table, and the frame. */
    method SendRequest(name: Json.Text, params: Json.Value) returns (id: nat)
      requires hasProcess && OnTheWire()
      modifies this`requestId, this`pending, this`timers, this`nextTimer, this`written, this`stdin
      ensures Requests() == P.Register(old(Requests())) && id == old(requestId) + 1
      ensures OnTheWire() && written == old(written) + [P.Request(id, name, params)]
    {
      id := requestId + 1;
      requestId, timers, pending, nextTimer := id, timers[nextTimer := id], pending[id := nextTimer], nextTimer + 1;
      WriteMessage(P.Request(id, name, params), true);
    }

    /** Registers a request, or refuses it when there is no process to take it. */
    method Send(name: Json.Text, params: Json.Value, writable: bool) returns (id: Option<nat>)
      requires Valid()
      modifies this
      ensures Valid() && State() == P.Step(old(State()), P.Event.Send(name, params, writable))
      ensures id == if old(hasProcess) && writable then Some(old(requestId) + 1) else None
    {
      McpSafety.StepKeeps(State(), P.Event.Send(name, params, writable));
      if !hasProcess || !writable { return None; }
      var next := SendRequest(name, params);
      id := Some(next);
    }

    method HandleMessage(message: Json.Value)
      modifies this`pending, this`timers, this`settled, this`logged
      ensures Requests() == P.Handle(old(Requests()), message)
    {
      if message.Null? {
        logged := logged + 1;
        return;
      }
      var addressee := P.Addressee(Requests(), message);
      if addressee.None? { return; }
      var id := addressee.value;
      timers := timers - {pending[id]};
      pending := pending - {id};
      settled := settled + [P.Settlement(id, P.ResponseOutcome(message.members))];
    }

    /** Cuts complete lines off the front of the buffer and handles each. */
    method DrainBuffer()
      modifies this`rawBuffer, this`pending, this`timers, this`settled, this`logged
      ensures Requests() == P.HandleLines(old(Requests()), Complete(old(rawBuffer), NEWLINE))
      ensures rawBuffer == Tail(old(rawBuffer), NEWLINE)
    {
      ghost var lines := Complete(rawBuffer, NEWLINE);
      while true
        invariant P.HandleLines(Requests(), Complete(rawBuffer, NEWLINE)) == P.HandleLines(old(Requests()), lines)
        invariant Tail(rawBuffer, NEWLINE) == Tail(old(rawBuffer), NEWLINE)
        decreases |rawBuffer|
      {
        var newlineIndex := IndexOf(rawBuffer, NEWLINE);
        if newlineIndex == |rawBuffer| { break; }
        var bytes := rawBuffer[..newlineIndex];
        var line := Decode(bytes);
        NextLine(Requests(), bytes, Complete(rawBuffer[newlineIndex + 1..], NEWLINE));
        rawBuffer := rawBuffer[newlineIndex + 1..];
        if P.Blank(line) { continue; }
        var message := Json.Parse(line);
        if message.Some? {
          HandleMessage(message.value);
        } else {
          logged := logged + 1;
        }
      }
    }

    /** The microtasks after a callback: connect() resumes when its initialize request has been settled. */
    method Resume(writable: bool)
      requires OnTheWire()
      modifies this
      ensures OnTheWire() && State() == P.Resume(old(State()), writable)
    {
      if connecting.inFlight.None? { return; }
      var outcome := P.OutcomeOf(settled, connecting.inFlight.value);
      if outcome.None? { return; }
      var ok := outcome.value.Resolved?;
      if ok {
        WriteMessage(P.Notification(P.INITIALIZED, Json.Obj([])), writable);
        connected := true;
      }
      FinishAttempt(ok);
    }

    /** The shared promise settles: every caller awaiting it gets its outcome. */
    method FinishAttempt(ok: bool)
      modifies this`connecting
      ensures connecting == P.Conclude(old(connecting), ok)
    {
      var n, callers, todo := |connecting.outcomes|, connecting.waiting, connecting.waiting;
      var replies := connecting.answers;
      while todo != {}
        invariant todo <= callers && connecting == old(connecting)
        invariant replies == connecting.answers + map c | c in callers - todo :: P.Shared(n, ok)
      {
        var c :| c in todo;
        replies := replies[c := P.Shared(n, ok)];
        todo := todo - {c};
      }
      assert callers - todo == callers;
      connecting := connecting.(inFlight := None, outcomes := connecting.outcomes + [ok], waiting := {}, answers := replies);
    }

    method OnData(chunk: seq<Byte>, writable: bool)
      requires Valid()
      modifies this
      ensures Valid() && State() == P.Step(old(State()), P.Data(chunk, writable))
    {
      McpSafety.StepKeeps(State(), P.Data(chunk, writable));
      rawBuffer := rawBuffer + chunk;
      if |rawBuffer| > P.MAX_BUFFER_BYTES { return; }   // the process is killed; its exit comes later
      DrainBuffer();
      Resume(writable);
    }

    method OnTimer(timer: nat)
      requires Valid()
      modifies this
      ensures Valid() && State() == P.Step(old(State()), P.Fire(timer))
    {
      McpSafety.StepKeeps(State(), P.Fire(timer));
      if timer !in timers { return; }   // cleared, or already fired
      var id := timers[timer];
      pending := pending - {id};
      timers := timers - {timer};
      settled := settled + [P.Settlement(id, P.Rejected(P.Timeout))];
      Resume(false);
    }

    method RejectAll(reason: P.Reason)
      requires P.RequestsMatch(Requests())
      modifies this`pending, this`timers, this`settled
      ensures Requests() == P.RejectAll(old(Requests()), reason)
    {
      ghost var r := Requests();
      for id := 1 to requestId + 1
        invariant pending == r.pending && requestId == r.lastId && nextTimer == r.nextTimer && logged == r.logged
        invariant timers == P.RejectUpTo(r, reason, id - 1).timers
        invariant settled == P.RejectUpTo(r, reason, id - 1).settled
        invariant RemainsAfter(r, P.RejectUpTo(r, reason, id - 1), id - 1)
      {
        if id in pending {
          timers := timers - {pending[id]};
          settled := settled + [P.Settlement(id, P.Rejected(reason))];
        }
      }
      pending := map[];
      assert P.RejectAll(r, reason).pending.Keys == {};
    }

    /** t is r with the requests up to n taken out of pending. */
    static ghost predicate RemainsAfter(r: P.Requests, t: P.Requests, n: nat) {
      && t.lastId == r.lastId && t.nextTimer == r.nextTimer && t.logged == r.logged
      && forall k :: (k in t.pending <==> k in r.pending && k > n) && (k in t.pending ==> t.pending[k] == r.pending[k])
    }

    method Lose(reason: P.Reason)
      requires P.RequestsMatch(Requests())
      modifies this`connected, this`pending, this`timers, this`settled
      ensures State() == P.Lose(old(State()), reason)
    {
      connected := false;
      RejectAll(reason);
    }

    method OnExit(code: Option<int>)
      requires Valid()
      modifies this
      ensures Valid() && State() == P.Step(old(State()), P.Exit(code))
    {
      McpSafety.StepKeeps(State(), P.Exit(code));
      Lose(P.Exited(code));
      Resume(false);
    }

    method OnError(message: string)
      requires Valid()
      modifies this
      ensures Valid() && State() == P.Step(old(State()), P.Fail(message))
    {
      McpSafety.StepKeeps(State(), P.Fail(message));
      Lose(P.ProcessError(message));
      Resume(false);
    }

    method Close()
      requires Valid()
      modifies this
      ensures Valid() && State() == P.Step(old(State()), P.Close)
    {
      McpSafety.StepKeeps(State(), P.Close);
      Lose(P.Closing);
      hasProcess, rawBuffer := false, [];
      Resume(false);
    }

    /** Spawns the process and starts the handshake. */
    method Connect(params: Json.Value, writable: bool)
      requires OnTheWire()
      modifies this
      ensures OnTheWire() && State() == P.Connect(old(State()), params, writable)
    {
      hasProcess := true;
      connecting := connecting.(spawned := connecting.spawned + 1);
      if writable {
        var id := SendRequest(P.INITIALIZE, params);
        connecting := connecting.(inFlight := Some(id));
      } else {
        FinishAttempt(false);
      }
    }

    /** A caller finds no connection: it joins the attempt in flight, or starts one. */
    method AwaitConnection(params: Json.Value, writable: bool)
      requires OnTheWire() && !connected
      modifies this
      ensures OnTheWire() && State() == P.EnsureConnected(old(State()), params, writable)
    {
      ghost var s := State();
      connecting := P.JoinAttempt(connecting);
      assert State() == s.(attempts := P.JoinAttempt(s.attempts));
      if connecting.inFlight.None? { Connect(params, writable); }
    }

    /** Returns the number of the call, by which its answer is recorded. */
    method EnsureConnected(params: Json.Value, writable: bool) returns (caller: nat)
      requires Valid()
      modifies this
      ensures Valid() && State() == P.Step(old(State()), P.Ensure(params, writable))
      ensures caller == old(connecting.nextCaller)
    {
      McpSafety.StepKeeps(State(), P.Ensure(params, writable));
      caller := connecting.nextCaller;
      if connected {
        connecting := connecting.(answers := connecting.answers[caller := P.AlreadyConnected], nextCaller := caller + 1);
      } else {
        AwaitConnection(params, writable);
      }
    }
  }
}
