/**
 The JSON-RPC client as a transition system.  One event is one callback of the runtime together with
 the microtasks it triggers.  `State` holds the client's fields, plus three logs of what it did:
 promises settled, frames written, and connection attempts finished.
 */
module McpProtocol {
  import opened Prelude
  import opened Lines
  import opened Utf8
  import Json

  const MAX_BUFFER_BYTES: nat := 10 * 1024 * 1024

  datatype Reason =
    | Timeout
    | Exited(code: Option<int>)
    | ProcessError(message: string)
    | Closing
    | RpcError(error: Json.Value)

  datatype Outcome = Resolved(result: Option<Json.Value>) | Rejected(reason: Reason)

  datatype Settlement = Settlement(id: nat, outcome: Outcome)

  /** What a caller of ensureConnected was told: nothing to do, or the outcome of a numbered attempt. */
  datatype Answer = AlreadyConnected | Shared(attempt: nat, ok: bool)

  /** Requests made through send. */
  datatype Requests = Requests(
    lastId: nat,
    pending: map<nat, nat>,        // request id -> handle of its timer
    timers: map<nat, nat>,         // live timer handle -> request id captured by its callback
    nextTimer: nat,
    settled: seq<Settlement>,      // every resolve and reject performed, in order
    logged: nat                    // lines reported as unparsable
  )

  /** Calls of ensureConnected and the connection attempts they share. */
  datatype Attempts = Attempts(
    inFlight: Option<nat>,         // id of the initialize request of the attempt in flight
    spawned: nat,                  // attempts started
    outcomes: seq<bool>,           // outcomes of the attempts that settled, in order
    waiting: set<nat>,             // callers awaiting the attempt in flight
    answers: map<nat, Answer>,     // callers already answered
    nextCaller: nat
  )

  datatype State = State(
    requests: Requests,
    attempts: Attempts,
    hasProcess: bool,
    connected: bool,
    buffer: seq<Byte>,
    written: seq<Json.Value>       // messages put on the child's stdin, in order
  )

  const INITIAL: State :=
    State(Requests(0, map[], map[], 0, [], 0), Attempts(None, 0, [], {}, map[], 0), false, false, [], [])

  datatype Event =
    | Send(name: Json.Text, params: Json.Value, writable: bool)
    | Ensure(params: Json.Value, writable: bool)
    | Data(chunk: seq<Byte>, writable: bool)
    | Fire(timer: nat)
    | Exit(code: Option<int>)
    | Fail(message: string)
    | Close

  // ----- messages -----

  const JSONRPC: Json.Text := [106, 115, 111, 110, 114, 112, 99]
  const VERSION: Json.Text := [50, 46, 48]
  const ID: Json.Text := [105, 100]
  const METHOD: Json.Text := [109, 101, 116, 104, 111, 100]
  const PARAMS: Json.Text := [112, 97, 114, 97, 109, 115]
  const RESULT: Json.Text := [114, 101, 115, 117, 108, 116]
  const ERROR: Json.Text := [101, 114, 114, 111, 114]
  const INITIALIZE: Json.Text := [105, 110, 105, 116, 105, 97, 108, 105, 122, 101]
  const INITIALIZED: Json.Text :=
    [110, 111, 116, 105, 102, 105, 99, 97, 116, 105, 111, 110, 115, 47,
     105, 110, 105, 116, 105, 97, 108, 105, 122, 101, 100]

  function Request(id: nat, name: Json.Text, params: Json.Value): Json.Value {
    Json.Obj([Json.Member(JSONRPC, Json.Str(VERSION)), Json.Member(ID, Json.Nat(id)),
              Json.Member(METHOD, Json.Str(name)), Json.Member(PARAMS, params)])
  }

  function Notification(name: Json.Text, params: Json.Value): Json.Value {
    Json.Obj([Json.Member(JSONRPC, Json.Str(VERSION)),
              Json.Member(METHOD, Json.Str(name)), Json.Member(PARAMS, params)])
  }

  /** A member of a parsed object; a repeated name keeps its last value. */
  function Field(members: seq<Json.Member>, name: Json.Text): Option<Json.Value> {
    if members == [] then None
    else
      var last := members[|members| - 1];
      if last.name == name then Some(last.value) else Field(members[..|members| - 1], name)
  }

  predicate Truthy(v: Json.Value) {
    match v
    case Null => false
    case Bool(b) => b
    case Num(l) => Json.IntegerValue(l) != Some(0)
    case Str(s) => s != []
    case _ => true
  }

  // ----- settling requests -----

  function Settle(r: Requests, id: nat, o: Outcome): Requests
    requires id in r.pending
  {
    r.(pending := r.pending - {id}, timers := r.timers - {r.pending[id]},
       settled := r.settled + [Settlement(id, o)])
  }

  function ResponseOutcome(members: seq<Json.Member>): Outcome {
    match Field(members, ERROR)
    case Some(e) => if Truthy(e) then Rejected(RpcError(e)) else Resolved(Field(members, RESULT))
    case None => Resolved(Field(members, RESULT))
  }

  /** The pending request a message answers, if any. */
  function Addressee(r: Requests, m: Json.Value): (id: Option<nat>)
    ensures id.Some? ==> id.value in r.pending && m.Obj?
  {
    if !m.Obj? then None else
      match Field(m.members, ID)
      case Some(Num(l)) =>
        (match Json.IntegerValue(l)
         case Some(i) => if i >= 0 && i in r.pending then Some(i) else None
         case None => None)
      case _ => None
  }

  function Handle(r: Requests, m: Json.Value): Requests {
    if m.Null? then r.(logged := r.logged + 1)   // reading a field of null throws; the throw is logged
    else
      match Addressee(r, m)
      case None => r
      case Some(id) => Settle(r, id, ResponseOutcome(m.members))
  }

  /** White_Space of the runtime's `trim`. */
  predicate TrimSpace(c: Unit) {
    9 <= c <= 13 || c == 32 || c == 0xA0 || c == 0x1680 || 0x2000 <= c <= 0x200A
    || c == 0x2028 || c == 0x2029 || c == 0x202F || c == 0x205F || c == 0x3000 || c == 0xFEFF
  }

  predicate Blank(t: Json.Text) { forall i :: 0 <= i < |t| ==> TrimSpace(t[i]) }

  function HandleLine(r: Requests, line: seq<Byte>): Requests {
    var text := Decode(line);
    if Blank(text) then r
    else
      match Json.Parse(text)
      case None => r.(logged := r.logged + 1)
      case Some(m) => Handle(r, m)
  }

  function HandleLines(r: Requests, lines: seq<seq<Byte>>): Requests
    decreases |lines|
  {
    if lines == [] then r else HandleLines(HandleLine(r, lines[0]), lines[1..])
  }

  /** rejectAll, in the order requests were made. */
  function RejectUpTo(r: Requests, reason: Reason, n: nat): Requests {
    if n == 0 then r else
      var t := RejectUpTo(r, reason, n - 1);
      if n in t.pending then Settle(t, n, Rejected(reason)) else t
  }

  function RejectAll(r: Requests, reason: Reason): Requests { RejectUpTo(r, reason, r.lastId) }

  // ----- the connection attempt -----

  /** The outcome of the first settlement of a request. */
  function OutcomeOf(log: seq<Settlement>, id: nat): Option<Outcome> {
    if log == [] then None
    else if log[0].id == id then Some(log[0].outcome)
    else OutcomeOf(log[1..], id)
  }

  /** The attempt in flight is over: its callers are answered and the next one may start. */
  function Conclude(a: Attempts, ok: bool): Attempts {
    a.(inFlight := None, outcomes := a.outcomes + [ok], waiting := {},
       answers := a.answers + map c | c in a.waiting :: Shared(|a.outcomes|, ok))
  }

  /** The continuation of connect(), run once its initialize request has been settled. */
  function Resume(s: State, writable: bool): State {
    match s.attempts.inFlight
    case None => s
    case Some(id) =>
      match OutcomeOf(s.requests.settled, id)
      case None => s
      case Some(Rejected(_)) => s.(attempts := Conclude(s.attempts, false))
      case Some(Resolved(_)) =>
        s.(attempts := Conclude(s.attempts, true), connected := true,
           written := s.written + (if s.hasProcess && writable then [Notification(INITIALIZED, Json.Obj([]))] else []))
  }

  function Register(r: Requests): Requests {
    r.(lastId := r.lastId + 1, pending := r.pending[r.lastId + 1 := r.nextTimer],
       timers := r.timers[r.nextTimer := r.lastId + 1], nextTimer := r.nextTimer + 1)
  }

  function SendRequest(s: State, name: Json.Text, params: Json.Value): State {
    s.(requests := Register(s.requests), written := s.written + [Request(s.requests.lastId + 1, name, params)])
  }

  /** A caller joins the attempt in flight, or the one about to start. */
  function JoinAttempt(a: Attempts): Attempts {
    a.(waiting := a.waiting + {a.nextCaller}, nextCaller := a.nextCaller + 1)
  }

  function Connect(s: State, params: Json.Value, writable: bool): State {
    var a := s.attempts.(spawned := s.attempts.spawned + 1);
    if writable then
      State(Register(s.requests), a.(inFlight := Some(s.requests.lastId + 1)), true, s.connected, s.buffer,
            s.written + [Request(s.requests.lastId + 1, INITIALIZE, params)])
    else State(s.requests, Conclude(a, false), true, s.connected, s.buffer, s.written)
  }

  function EnsureConnected(s: State, params: Json.Value, writable: bool): State {
    var a := s.attempts;
    if s.connected then
      s.(attempts := a.(answers := a.answers[a.nextCaller := AlreadyConnected], nextCaller := a.nextCaller + 1))
    else if a.inFlight.Some? then s.(attempts := JoinAttempt(a))
    else Connect(s.(attempts := JoinAttempt(a)), params, writable)
  }

  function Receive(s: State, chunk: seq<Byte>, writable: bool): State {
    var b := s.buffer + chunk;
    if |b| > MAX_BUFFER_BYTES then s.(buffer := b)
    else Resume(s.(buffer := Tail(b, NEWLINE), requests := HandleLines(s.requests, Complete(b, NEWLINE))), writable)
  }

  function Expire(s: State, timer: nat): State {
    if timer !in s.requests.timers then s else
      var id := s.requests.timers[timer];
      if id !in s.requests.pending then s
      else Resume(s.(requests := Settle(s.requests, id, Rejected(Timeout))), false)
  }

  /** The process is gone, as far as the client can tell. */
  function Lose(s: State, reason: Reason): State {
    s.(connected := false, requests := RejectAll(s.requests, reason))
  }

  function Step(s: State, e: Event): State {
    match e
    case Send(name, params, writable) => if s.hasProcess && writable then SendRequest(s, name, params) else s
    case Ensure(params, writable) => EnsureConnected(s, params, writable)
    case Data(chunk, writable) => Receive(s, chunk, writable)
    case Fire(timer) => Expire(s, timer)
    case Exit(code) => Resume(Lose(s, Exited(code)), false)
    case Fail(message) => Resume(Lose(s, ProcessError(message)), false)
    case Close => Resume(Lose(s, Closing).(hasProcess := false, buffer := []), false)
  }

  function Run(s: State, events: seq<Event>): State
    decreases |events|
  {
    if events == [] then s else Run(Step(s, events[0]), events[1..])
  }

  // ----- the invariant -----

  function Count(log: seq<Settlement>, id: nat): nat {
    if log == [] then 0
    else Count(log[..|log| - 1], id) + if log[|log| - 1].id == id then 1 else 0
  }

  /** Conservation: a registered request is pending or settled, once; nothing else was ever settled. */
  ghost predicate Conserved(r: Requests) {
    && (forall id :: id in r.pending ==> 1 <= id <= r.lastId)
    && (forall id: nat :: Count(r.settled, id) + (if id in r.pending then 1 else 0)
                       == if 1 <= id <= r.lastId then 1 else 0)
  }

  /** Live timers and pending requests correspond one to one. */
  ghost predicate TimersMatch(r: Requests) {
    && (forall id :: id in r.pending ==> r.pending[id] in r.timers && r.timers[r.pending[id]] == id)
    && (forall h :: h in r.timers ==> h < r.nextTimer && r.timers[h] in r.pending && r.pending[r.timers[h]] == h)
  }

  predicate Truthful(outcomes: seq<bool>, a: Answer) {
    a.Shared? ==> a.attempt < |outcomes| && a.ok == outcomes[a.attempt]
  }

  /** Every caller waits for the attempt in flight or was told the outcome of a finished one. */
  ghost predicate CallersMatch(a: Attempts) {
    && (forall c :: c in a.waiting ==> c < a.nextCaller && c !in a.answers)
    && (forall c :: 0 <= c < a.nextCaller ==> c in a.waiting || c in a.answers)
    && (forall c :: c in a.answers ==> c < a.nextCaller && Truthful(a.outcomes, a.answers[c]))
  }

  ghost predicate AttemptsMatch(a: Attempts) {
    && a.spawned == |a.outcomes| + (if a.inFlight.Some? then 1 else 0)
    && (a.inFlight.None? ==> a.waiting == {})
    && CallersMatch(a)
  }

  ghost predicate RequestsMatch(r: Requests) { Conserved(r) && TimersMatch(r) }

  ghost predicate Framed(s: State) {
    |s.buffer| <= MAX_BUFFER_BYTES ==> NEWLINE !in s.buffer
  }

  /** All of the invariant that also holds before the continuation of connect() has run. */
  ghost predicate Running(s: State) {
    && RequestsMatch(s.requests) && AttemptsMatch(s.attempts) && Framed(s)
    && (s.attempts.inFlight.Some? ==> 1 <= s.attempts.inFlight.value <= s.requests.lastId && !s.connected)
  }

  ghost predicate Inv(s: State) {
    Running(s) && (s.attempts.inFlight.Some? ==> s.attempts.inFlight.value in s.requests.pending)
  }
}
