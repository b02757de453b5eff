/**
 The process-wide bridge loop: double-checked locking by any number of threads, and the reset that a
 forked child runs.  Every read or write of a module global, and every lock operation, is one step.
 */
module BridgeLoop {
  import opened Prelude

  type Loop = nat
  type Lock = nat

  /** Where a thread stands in `_get_bridge_loop`; the lock is the object it loaded from the module global. */
  datatype Pc =
    | Idle
    | Entering
    | Locking
    | Waiting(lock: Lock)
    | Checking(lock: Lock)
    | Creating(lock: Lock)
    | Starting(lock: Lock, loop: Loop)
    | Publishing(lock: Lock, loop: Loop)
    | Leaving(lock: Lock, loop: Loop)

  /** Module globals, who holds which lock object, and the loops some thread of this process drives. */
  datatype Memory = Memory(global: Option<Loop>, lock: Lock, holders: map<Lock, nat>, running: set<Loop>)

  /** What happened in this process since it began, and what it was born with. */
  datatype History = History(created: seq<Loop>, answers: seq<Loop>, inherited: set<Loop>, oldLocks: set<Lock>)

  datatype Process = Process(memory: Memory, threads: seq<Pc>, history: History)

  datatype World = World(processes: seq<Process>, nextLoop: Loop, nextLock: Lock)

  datatype Event =
    | Spawn(pid: nat)
    | Call(pid: nat, thread: nat)
    | Move(pid: nat, thread: nat)
    | Fork(pid: nat, thread: nat)

  // ----- steps -----

  predicate CanMove(p: Process, t: nat)
    requires t < |p.threads|
  {
    !p.threads[t].Idle? && (p.threads[t].Waiting? ==> p.threads[t].lock !in p.memory.holders)
  }

  function Goto(p: Process, t: nat, pc: Pc): Process
    requires t < |p.threads|
  {
    p.(threads := p.threads[t := pc])
  }

  function Answer(p: Process, t: nat, loop: Loop): Process
    requires t < |p.threads|
  {
    Goto(p, t, Idle).(history := p.history.(answers := p.history.answers + [loop]))
  }

  function Advance(p: Process, t: nat, newLoop: Loop): Process
    requires t < |p.threads| && CanMove(p, t)
  {
    var m, h := p.memory, p.history;
    match p.threads[t]
    case Idle => p
    case Entering => if m.global.Some? then Answer(p, t, m.global.value) else Goto(p, t, Locking)
    case Locking => Goto(p, t, Waiting(m.lock))
    case Waiting(k) => Goto(p, t, Checking(k)).(memory := m.(holders := m.holders[k := t]))
    case Checking(k) => Goto(p, t, if m.global.Some? then Leaving(k, m.global.value) else Creating(k))
    case Creating(k) => Goto(p, t, Starting(k, newLoop)).(history := h.(created := h.created + [newLoop]))
    case Starting(k, l) => Goto(p, t, Publishing(k, l)).(memory := m.(running := m.running + {l}))
    case Publishing(k, l) => Goto(p, t, Leaving(k, l)).(memory := m.(global := Some(l)))
    case Leaving(k, l) => Answer(p, t, l).(memory := m.(holders := m.holders - {k}))
  }

  /** The child has the forking thread only, copies of all memory, and has run the reset. */
  function Child(p: Process, newLock: Lock): Process {
    Process(
      Memory(None, newLock, p.memory.holders, {}),
      [Idle],
      History([], [], p.history.inherited + Loops(p), p.history.oldLocks + {p.memory.lock}))
  }

  function Loops(p: Process): set<Loop> { set l | l in p.history.created }

  /** An event that cannot happen leaves the world alone.  A thread forks between its calls, not inside one. */
  function Next(w: World, e: Event): World {
    var ps := w.processes;
    if e.pid >= |ps| then w
    else
      var p := ps[e.pid];
      match e
      case Spawn(i) => w.(processes := ps[i := p.(threads := p.threads + [Idle])])
      case Call(i, t) => if t < |p.threads| && p.threads[t].Idle? then w.(processes := ps[i := Goto(p, t, Entering)]) else w
      case Move(i, t) =>
        if t < |p.threads| && CanMove(p, t) then
          w.(processes := ps[i := Advance(p, t, w.nextLoop)], nextLoop := w.nextLoop + 1)
        else w
      case Fork(i, t) =>
        if t < |p.threads| && p.threads[t].Idle? then
          w.(processes := ps + [Child(p, w.nextLock)], nextLock := w.nextLock + 1)
        else w
  }

  function Run(w: World, events: seq<Event>): World
    decreases |events|
  {
    if events == [] then w else Run(Next(w, events[0]), events[1..])
  }

  /** One process, one thread, nothing created. */
  function Start(): World {
    World([Process(Memory(None, 0, map[], {}), [Idle], History([], [], {}, {}))], 0, 1)
  }

  // ----- the invariant -----

  predicate Critical(pc: Pc) { pc.Checking? || pc.Creating? || pc.Starting? || pc.Publishing? || pc.Leaving? }

  predicate Holds(p: Process, t: nat) { p.memory.lock in p.memory.holders && p.memory.holders[p.memory.lock] == t }

  /** The lock is the process's own, and exactly its holder is inside. */
  ghost predicate MutualExclusion(p: Process) {
    && (forall t :: 0 <= t < |p.threads| && (Critical(p.threads[t]) || p.threads[t].Waiting?) ==> p.threads[t].lock == p.memory.lock)
    && (forall t :: 0 <= t < |p.threads| ==> (Critical(p.threads[t]) <==> Holds(p, t)))
    && (p.memory.lock in p.memory.holders ==> p.memory.holders[p.memory.lock] < |p.threads|)
    && p.memory.lock !in p.history.oldLocks
  }

  /** The loop being made by the lock's holder, if any. */
  function InMaking(p: Process): seq<Loop> {
    if p.memory.lock in p.memory.holders && p.memory.holders[p.memory.lock] < |p.threads| then
      var pc := p.threads[p.memory.holders[p.memory.lock]];
      if pc.Starting? || pc.Publishing? then [pc.loop] else []
    else []
  }

  ghost predicate OneLoop(p: Process) {
    && p.history.created == (if p.memory.global.Some? then [p.memory.global.value] else InMaking(p))
    && (p.memory.global.Some? ==> p.memory.global.value in p.memory.running)
    && (forall t :: 0 <= t < |p.threads| ==> ThreadAgrees(p, p.threads[t]))
    && (forall i :: 0 <= i < |p.history.answers| ==> Some(p.history.answers[i]) == p.memory.global)
  }

  predicate ThreadAgrees(p: Process, pc: Pc) {
    && (pc.Creating? || pc.Starting? || pc.Publishing? ==> p.memory.global.None?)
    && (pc.Publishing? ==> pc.loop in p.memory.running)
    && (pc.Leaving? ==> p.memory.global == Some(pc.loop))
  }

  ghost predicate FreshIds(p: Process, nextLoop: Loop, nextLock: Lock) {
    && (forall l :: l in p.history.created ==> l !in p.history.inherited && l < nextLoop)
    && (forall l :: l in p.history.inherited ==> l < nextLoop)
    && (forall k :: k in p.history.oldLocks || k in p.memory.holders ==> k < nextLock)
    && p.memory.lock < nextLock
  }

  ghost predicate Good(p: Process, nextLoop: Loop, nextLock: Lock) {
    MutualExclusion(p) && OneLoop(p) && FreshIds(p, nextLoop, nextLock)
  }

  ghost predicate Apart(p: Process, q: Process) { Loops(p) !! Loops(q) }

  ghost predicate Inv(w: World) {
    && (forall i :: 0 <= i < |w.processes| ==> Good(w.processes[i], w.nextLoop, w.nextLock))
    && (forall i, j :: 0 <= i < j < |w.processes| ==> Apart(w.processes[i], w.processes[j]))
  }

  // ----- every step keeps it -----

  lemma MoveExcludes(p: Process, t: nat, newLoop: Loop)
    requires MutualExclusion(p) && t < |p.threads| && CanMove(p, t)
    ensures MutualExclusion(Advance(p, t, newLoop))
  {
    assert Holds(p, t) <==> Critical(p.threads[t]);
  }

  lemma MoveAgrees(p: Process, t: nat, newLoop: Loop)
    requires MutualExclusion(p) && OneLoop(p) && t < |p.threads| && CanMove(p, t)
    ensures var q := Advance(p, t, newLoop); forall u :: 0 <= u < |q.threads| ==> ThreadAgrees(q, q.threads[u])
  {
    var q := Advance(p, t, newLoop);
    forall u | 0 <= u < |q.threads|
      ensures ThreadAgrees(q, q.threads[u])
    {
      assert ThreadAgrees(p, p.threads[u]) && (Holds(p, u) <==> Critical(p.threads[u])) && (Holds(p, t) <==> Critical(p.threads[t]));
    }
  }

  lemma MoveKeepsOneLoop(p: Process, t: nat, newLoop: Loop)
    requires MutualExclusion(p) && OneLoop(p) && t < |p.threads| && CanMove(p, t)
    ensures OneLoop(Advance(p, t, newLoop))
  {
    MoveAgrees(p, t, newLoop);
    assert ThreadAgrees(p, p.threads[t]) && (Holds(p, t) <==> Critical(p.threads[t]));
  }

  lemma MoveKeeps(p: Process, t: nat, newLoop: Loop, nextLock: Lock)
    requires Good(p, newLoop, nextLock) && t < |p.threads| && CanMove(p, t)
    ensures Good(Advance(p, t, newLoop), newLoop + 1, nextLock)
    ensures Loops(Advance(p, t, newLoop)) <= Loops(p) + {newLoop}
  {
    MoveExcludes(p, t, newLoop);
    MoveKeepsOneLoop(p, t, newLoop);
  }

  lemma CallKeeps(p: Process, t: nat, nextLoop: Loop, nextLock: Lock)
    requires Good(p, nextLoop, nextLock) && t < |p.threads| && p.threads[t].Idle?
    ensures Good(Goto(p, t, Entering), nextLoop, nextLock)
  {
  }

  lemma SpawnKeeps(p: Process, nextLoop: Loop, nextLock: Lock)
    requires Good(p, nextLoop, nextLock)
    ensures Good(p.(threads := p.threads + [Idle]), nextLoop, nextLock)
  {
  }

  lemma ForkKeeps(p: Process, nextLoop: Loop, newLock: Lock)
    requires Good(p, nextLoop, newLock)
    ensures Good(Child(p, newLock), nextLoop, newLock + 1)
  {
  }

  lemma GoodLater(p: Process, nextLoop: Loop, nextLock: Lock, laterLoop: Loop, laterLock: Lock)
    requires Good(p, nextLoop, nextLock) && nextLoop <= laterLoop && nextLock <= laterLock
    ensures Good(p, laterLoop, laterLock)
  {
  }

  lemma ReplaceKeeps(w: World, i: nat, q: Process, nextLoop: Loop)
    requires Inv(w) && i < |w.processes| && w.nextLoop <= nextLoop && Good(q, nextLoop, w.nextLock)
    requires forall l :: l in Loops(q) ==> l in Loops(w.processes[i]) || w.nextLoop <= l
    ensures Inv(w.(processes := w.processes[i := q], nextLoop := nextLoop))
  {
    forall j | 0 <= j < |w.processes|
      ensures Good(w.processes[j], nextLoop, w.nextLock)
      ensures i != j ==> Apart(q, w.processes[j])
    {
      GoodLater(w.processes[j], w.nextLoop, w.nextLock, nextLoop, w.nextLock);
      if i != j { assert Apart(w.processes[i], w.processes[j]) || Apart(w.processes[j], w.processes[i]); }
    }
  }

  lemma NextKeeps(w: World, e: Event)
    requires Inv(w)
    ensures Inv(Next(w, e))
  {
    var ps := w.processes;
    if e.pid < |ps| {
      var p := ps[e.pid];
      match e
      case Spawn(i) =>
        SpawnKeeps(p, w.nextLoop, w.nextLock);
        ReplaceKeeps(w, i, p.(threads := p.threads + [Idle]), w.nextLoop);
      case Call(i, t) =>
        if t < |p.threads| && p.threads[t].Idle? {
          CallKeeps(p, t, w.nextLoop, w.nextLock);
          ReplaceKeeps(w, i, Goto(p, t, Entering), w.nextLoop);
        }
      case Move(i, t) =>
        if t < |p.threads| && CanMove(p, t) {
          MoveKeeps(p, t, w.nextLoop, w.nextLock);
          ReplaceKeeps(w, i, Advance(p, t, w.nextLoop), w.nextLoop + 1);
        }
      case Fork(i, t) =>
        if t < |p.threads| && p.threads[t].Idle? { ForkWorld(w, p, i); }
    }
  }

  lemma ForkWorld(w: World, p: Process, i: nat)
    requires Inv(w) && i < |w.processes| && p == w.processes[i]
    ensures Inv(w.(processes := w.processes + [Child(p, w.nextLock)], nextLock := w.nextLock + 1))
  {
    ForkKeeps(p, w.nextLoop, w.nextLock);
    forall j | 0 <= j < |w.processes|
      ensures Good(w.processes[j], w.nextLoop, w.nextLock + 1)
    {
      GoodLater(w.processes[j], w.nextLoop, w.nextLock, w.nextLoop, w.nextLock + 1);
    }
  }

  lemma {:induction false} RunKeeps(w: World, events: seq<Event>)
    requires Inv(w)
    ensures Inv(Run(w, events))
    decreases |events|
  {
    if events != [] {
      NextKeeps(w, events[0]);
      RunKeeps(Next(w, events[0]), events[1..]);
    }
  }

  // ----- what it says of every run -----

  /**
   In every process of every run: at most one loop was ever created, every call answered gave that loop,
   the loop has a driver thread in that process, and it is not one the process inherited.
   */
  lemma OneLoopPerProcess(events: seq<Event>, pid: nat)
    requires pid < |Run(Start(), events).processes|
    ensures var p := Run(Start(), events).processes[pid];
      && |p.history.created| <= 1
      && forall i :: 0 <= i < |p.history.answers| ==>
           && p.history.created == [p.history.answers[i]]
           && p.history.answers[i] in p.memory.running
           && p.history.answers[i] !in p.history.inherited
  {
    RunKeeps(Start(), events);
    var p := Run(Start(), events).processes[pid];
    assert Good(p, Run(Start(), events).nextLoop, Run(Start(), events).nextLock);
    forall i | 0 <= i < |p.history.answers|
      ensures p.history.created == [p.history.answers[i]]
    {
      assert Some(p.history.answers[i]) == p.memory.global;
    }
  }

  /** A loop becomes visible to other threads only once it is driven. */
  lemma StartedBeforePublished(events: seq<Event>, pid: nat)
    requires pid < |Run(Start(), events).processes|
    ensures var m := Run(Start(), events).processes[pid].memory;
      m.global.Some? ==> m.global.value in m.running
  {
    RunKeeps(Start(), events);
    var w := Run(Start(), events);
    assert Good(w.processes[pid], w.nextLoop, w.nextLock);
  }

  /** No thread waits for, or holds, a lock that existed before its process was forked. */
  lemma NoInheritedLock(events: seq<Event>, pid: nat, t: nat)
    requires pid < |Run(Start(), events).processes| && t < |Run(Start(), events).processes[pid].threads|
    ensures var p := Run(Start(), events).processes[pid];
      p.threads[t].Waiting? || Critical(p.threads[t]) ==> p.threads[t].lock !in p.history.oldLocks
  {
    RunKeeps(Start(), events);
    var w := Run(Start(), events);
    assert Good(w.processes[pid], w.nextLoop, w.nextLock);
  }

  /** No two processes ever create the same loop. */
  lemma LoopsApart(events: seq<Event>, i: nat, j: nat)
    requires i < j < |Run(Start(), events).processes|
    ensures Loops(Run(Start(), events).processes[i]) !! Loops(Run(Start(), events).processes[j])
  {
    RunKeeps(Start(), events);
    assert Apart(Run(Start(), events).processes[i], Run(Start(), events).processes[j]);
  }

  // ----- why the reset is there -----

  /** The child as the fork alone would leave it. */
  function Unreset(p: Process): Process {
    Process(p.memory.(running := {}), [Idle], History([], [], p.history.inherited + Loops(p), p.history.oldLocks))
  }

  /**
   Without the reset the child's first call either is answered with a loop nobody drives or, forked while
   the first loop was being made, waits for a lock whose holder it does not have.
   */
  lemma ResetNeeded(p: Process, newLoop: Loop)
    requires p.memory.global.Some? || p.memory.lock in p.memory.holders
    ensures var first := Advance(Goto(Unreset(p), 0, Entering), 0, newLoop);
      if p.memory.global.Some? then
        first.history.answers == [p.memory.global.value] && p.memory.global.value !in first.memory.running
      else
        first.threads == [Locking] && Advance(first, 0, newLoop).threads[0].Waiting? && !CanMove(Advance(first, 0, newLoop), 0)
  {
    var called := Goto(Unreset(p), 0, Entering);
    assert called.threads == [Entering];
  }

  // ----- no call hangs -----

  lemma Movable(p: Process, nextLoop: Loop, nextLock: Lock, t: nat)
    requires Good(p, nextLoop, nextLock) && t < |p.threads| && !p.threads[t].Idle?
    ensures exists u :: 0 <= u < |p.threads| && CanMove(p, u)
  {
    if !CanMove(p, t) { assert CanMove(p, p.memory.holders[p.memory.lock]); }
  }

  /** Unless every thread is between calls, one of them can move, forks included. */
  lemma SomeThreadMoves(events: seq<Event>, pid: nat, t: nat)
    requires pid < |Run(Start(), events).processes| && t < |Run(Start(), events).processes[pid].threads|
    requires !Run(Start(), events).processes[pid].threads[t].Idle?
    ensures exists u :: 0 <= u < |Run(Start(), events).processes[pid].threads| && CanMove(Run(Start(), events).processes[pid], u)
  {
    RunKeeps(Start(), events);
    var w := Run(Start(), events);
    Movable(w.processes[pid], w.nextLoop, w.nextLock, t);
  }

  function Rank(pc: Pc): nat {
    match pc
    case Idle => 0
    case Leaving(_, _) => 1
    case Publishing(_, _) => 2
    case Starting(_, _) => 3
    case Creating(_) => 4
    case Checking(_) => 5
    case Waiting(_) => 6
    case Locking => 7
    case Entering => 8
  }

  function Work(threads: seq<Pc>): nat {
    if threads == [] then 0 else Rank(threads[0]) + Work(threads[1..])
  }

  lemma {:induction false} WorkUpdate(threads: seq<Pc>, t: nat, pc: Pc)
    requires t < |threads|
    ensures Work(threads[t := pc]) == Work(threads) - Rank(threads[t]) + Rank(pc)
  {
    if t > 0 {
      assert threads[t := pc][1..] == threads[1..][t - 1 := pc];
      WorkUpdate(threads[1..], t - 1, pc);
    } else {
      assert threads[0 := pc][1..] == threads[1..];
    }
  }

  lemma MoveWorks(p: Process, t: nat, newLoop: Loop)
    requires t < |p.threads| && CanMove(p, t)
    ensures Work(Advance(p, t, newLoop).threads) < Work(p.threads)
  {
    var q := Advance(p, t, newLoop);
    assert q.threads == p.threads[t := q.threads[t]];
    WorkUpdate(p.threads, t, q.threads[t]);
  }

  ghost predicate Schedule(p: Process, moves: seq<nat>, newLoop: Loop)
    decreases |moves|
  {
    moves == [] || (moves[0] < |p.threads| && CanMove(p, moves[0])
                    && Schedule(Advance(p, moves[0], newLoop), moves[1..], newLoop + 1))
  }

  /** Any order of moves ends, within eight moves per pending call: no schedule keeps callers from their loop. */
  lemma {:induction false} SchedulesEnd(p: Process, moves: seq<nat>, newLoop: Loop)
    requires Schedule(p, moves, newLoop)
    ensures |moves| <= Work(p.threads) <= 8 * |p.threads|
    decreases |moves|
  {
    WorkBound(p.threads);
    if moves != [] {
      MoveWorks(p, moves[0], newLoop);
      SchedulesEnd(Advance(p, moves[0], newLoop), moves[1..], newLoop + 1);
    }
  }

  lemma {:induction false} WorkBound(threads: seq<Pc>)
    ensures Work(threads) <= 8 * |threads|
  {
    if threads != [] { WorkBound(threads[1..]); }
  }

  // ----- every call is answered -----

  /** The calls under way. */
  function Pending(threads: seq<Pc>): nat {
    if threads == [] then 0 else (if threads[0].Idle? then 0 else 1) + Pending(threads[1..])
  }

  lemma {:induction false} PendingUpdate(threads: seq<Pc>, t: nat, pc: Pc)
    requires t < |threads|
    ensures Pending(threads[t := pc]) + (if threads[t].Idle? then 0 else 1) == Pending(threads) + (if pc.Idle? then 0 else 1)
  {
    if t > 0 {
      assert threads[t := pc][1..] == threads[1..][t - 1 := pc];
      PendingUpdate(threads[1..], t - 1, pc);
    } else {
      assert threads[0 := pc][1..] == threads[1..];
    }
  }

  lemma {:induction false} NonePending(threads: seq<Pc>)
    requires forall t :: 0 <= t < |threads| ==> threads[t].Idle?
    ensures Pending(threads) == 0
  {
    if threads != [] { NonePending(threads[1..]); }
  }

  /** A move that ends a call answers it, and no other move answers anything. */
  lemma MoveAnswers(p: Process, t: nat, newLoop: Loop)
    requires t < |p.threads| && CanMove(p, t)
    ensures var q := Advance(p, t, newLoop);
      && p.history.answers <= q.history.answers
      && |q.history.answers| + Pending(q.threads) == |p.history.answers| + Pending(p.threads)
  {
    var q := Advance(p, t, newLoop);
    assert q.threads == p.threads[t := q.threads[t]];
    PendingUpdate(p.threads, t, q.threads[t]);
  }

  ghost function After(p: Process, moves: seq<nat>, newLoop: Loop): Process
    requires Schedule(p, moves, newLoop)
    decreases |moves|
  {
    if moves == [] then p else After(Advance(p, moves[0], newLoop), moves[1..], newLoop + 1)
  }

  lemma {:induction false} ScheduleAnswers(p: Process, moves: seq<nat>, newLoop: Loop, nextLock: Lock)
    requires Good(p, newLoop, nextLock) && Schedule(p, moves, newLoop)
    ensures var q := After(p, moves, newLoop);
      && Good(q, newLoop + |moves|, nextLock) && p.history.answers <= q.history.answers
      && |q.history.answers| + Pending(q.threads) == |p.history.answers| + Pending(p.threads)
    decreases |moves|
  {
    if moves != [] {
      MoveKeeps(p, moves[0], newLoop, nextLock);
      MoveAnswers(p, moves[0], newLoop);
      ScheduleAnswers(Advance(p, moves[0], newLoop), moves[1..], newLoop + 1, nextLock);
    }
  }

  lemma GoodAnswers(p: Process, nextLoop: Loop, nextLock: Lock, i: nat)
    requires Good(p, nextLoop, nextLock) && i < |p.history.answers|
    ensures p.history.created == [p.history.answers[i]]
  {
    assert Some(p.history.answers[i]) == p.memory.global;
  }

  /**
   However the threads of a process are scheduled, once no thread can move each call that was under way has got its one
   answer, and every answer is the one loop the process made.
   */
  lemma EveryCallAnswered(events: seq<Event>, pid: nat, moves: seq<nat>)
    requires pid < |Run(Start(), events).processes|
    requires Schedule(Run(Start(), events).processes[pid], moves, Run(Start(), events).nextLoop)
    requires var q := After(Run(Start(), events).processes[pid], moves, Run(Start(), events).nextLoop);
      forall t :: 0 <= t < |q.threads| ==> !CanMove(q, t)
    ensures var p := Run(Start(), events).processes[pid]; var q := After(p, moves, Run(Start(), events).nextLoop);
      && Pending(q.threads) == 0
      && p.history.answers <= q.history.answers && |q.history.answers| == |p.history.answers| + Pending(p.threads)
      && forall i :: 0 <= i < |q.history.answers| ==> q.history.created == [q.history.answers[i]]
  {
    var w := Run(Start(), events);
    RunKeeps(Start(), events);
    ScheduleAnswers(w.processes[pid], moves, w.nextLoop, w.nextLock);
    var q := After(w.processes[pid], moves, w.nextLoop);
    forall t | 0 <= t < |q.threads| ensures q.threads[t].Idle? {
      if !q.threads[t].Idle? { Movable(q, w.nextLoop + |moves|, w.nextLock, t); }
    }
    NonePending(q.threads);
    forall i | 0 <= i < |q.history.answers| ensures q.history.created == [q.history.answers[i]] {
      GoodAnswers(q, w.nextLoop + |moves|, w.nextLock, i);
    }
  }

  // ----- in a world of processes -----

  function MoveEvents(pid: nat, moves: seq<nat>): seq<Event> {
    if moves == [] then [] else [Move(pid, moves[0])] + MoveEvents(pid, moves[1..])
  }

  /** The moves of one process leave the others alone. */
  lemma {:induction false} MovesRun(w: World, pid: nat, moves: seq<nat>)
    requires pid < |w.processes| && Schedule(w.processes[pid], moves, w.nextLoop)
    ensures Run(w, MoveEvents(pid, moves))
         == World(w.processes[pid := After(w.processes[pid], moves, w.nextLoop)], w.nextLoop + |moves|, w.nextLock)
    decreases |moves|
  {
    if moves == [] {
      assert w.processes[pid := w.processes[pid]] == w.processes;
    } else {
      var next := Next(w, Move(pid, moves[0]));
      assert MoveEvents(pid, moves)[1..] == MoveEvents(pid, moves[1..]);
      MovesRun(next, pid, moves[1..]);
      assert next.processes == w.processes[pid := Advance(w.processes[pid], moves[0], w.nextLoop)];
    }
  }

  lemma {:induction false} RunAppend(w: World, first: seq<Event>, more: seq<Event>)
    ensures Run(w, first + more) == Run(Run(w, first), more)
    decreases |first|
  {
    if first == [] {
      assert first + more == more;
    } else {
      assert (first + more)[0] == first[0] && (first + more)[1..] == first[1..] + more;
      RunAppend(Next(w, first[0]), first[1..], more);
    }
  }

  lemma NobodyMoves(p: Process, nextLoop: Loop, nextLock: Lock)
    requires Good(p, nextLoop, nextLock)
    ensures (forall t :: 0 <= t < |p.threads| ==> !CanMove(p, t)) ==> Pending(p.threads) == 0
  {
    if forall t :: 0 <= t < |p.threads| ==> !CanMove(p, t) {
      forall t | 0 <= t < |p.threads| ensures p.threads[t].Idle? {
        if !p.threads[t].Idle? { Movable(p, nextLoop, nextLock, t); }
      }
      NonePending(p.threads);
    }
  }

  /** Some order of moves answers all calls under way. */
  lemma {:induction false} Finish(p: Process, newLoop: Loop, nextLock: Lock) returns (moves: seq<nat>)
    requires Good(p, newLoop, nextLock)
    ensures Schedule(p, moves, newLoop) && Pending(After(p, moves, newLoop).threads) == 0
    decreases Work(p.threads)
  {
    moves := [];
    if t: nat :| t < |p.threads| && CanMove(p, t) {
      MoveWorks(p, t, newLoop);
      MoveKeeps(p, t, newLoop, nextLock);
      var rest := Finish(Advance(p, t, newLoop), newLoop + 1, nextLock);
      moves := [t] + rest;
      assert moves[1..] == rest;
    } else {
      NobodyMoves(p, newLoop, nextLock);
    }
  }

  /** A call puts one thread under way and changes nothing else. */
  lemma CallPends(w: World, pid: nat, t: nat)
    requires pid < |w.processes| && t < |w.processes[pid].threads| && w.processes[pid].threads[t].Idle?
    ensures var p := w.processes[pid]; var r := Next(w, Call(pid, t));
      && |r.processes| == |w.processes| && r.nextLoop == w.nextLoop && r.nextLock == w.nextLock
      && r.processes[pid].memory == p.memory && r.processes[pid].history == p.history
      && Pending(r.processes[pid].threads) == Pending(p.threads) + 1
      && forall i :: 0 <= i < |w.processes| && i != pid ==> r.processes[i] == w.processes[i]
  {
    PendingUpdate(w.processes[pid].threads, t, Entering);
  }

  /** Whatever happened before, a thread that calls now can get its answer, by moves of its own process alone. */
  lemma CallGetsAnswer(events: seq<Event>, pid: nat, t: nat) returns (moves: seq<nat>)
    requires var w := Run(Start(), events);
      pid < |w.processes| && t < |w.processes[pid].threads| && w.processes[pid].threads[t].Idle?
    ensures var p := Run(Start(), events).processes[pid];
      var w := Run(Start(), events + ([Call(pid, t)] + MoveEvents(pid, moves)));
      && pid < |w.processes| && Pending(w.processes[pid].threads) == 0
      && |w.processes[pid].history.answers| == |p.history.answers| + Pending(p.threads) + 1
  {
    var w := Run(Start(), events);
    var called := Next(w, Call(pid, t));
    RunKeeps(Start(), events);
    NextKeeps(w, Call(pid, t));
    CallPends(w, pid, t);
    var q := called.processes[pid];
    assert Good(q, called.nextLoop, called.nextLock);
    moves := Finish(q, called.nextLoop, called.nextLock);
    ScheduleAnswers(q, moves, called.nextLoop, called.nextLock);
    MovesRun(called, pid, moves);
    RunAppend(Start(), events, [Call(pid, t)] + MoveEvents(pid, moves));
    assert ([Call(pid, t)] + MoveEvents(pid, moves))[1..] == MoveEvents(pid, moves);
  }

  /** A new thread is idle; nothing else changes. */
  lemma SpawnIdles(w: World, pid: nat)
    requires pid < |w.processes|
    ensures var p := w.processes[pid]; var r := Next(w, Spawn(pid));
      && |r.processes| == |w.processes| && |r.processes[pid].threads| == |p.threads| + 1 && r.processes[pid].threads[|p.threads|].Idle?
      && p.threads <= r.processes[pid].threads && r.processes[pid].memory == p.memory && r.processes[pid].history == p.history
  {
  }

  /** A child begins with the forking thread alone, no loop and a lock of its own, and remembers what it was born with. */
  lemma ForkLeaves(w: World, pid: nat, t: nat)
    requires pid < |w.processes| && t < |w.processes[pid].threads| && w.processes[pid].threads[t].Idle?
    ensures var p := w.processes[pid]; var r := Next(w, Fork(pid, t)); var child := r.processes[|w.processes|];
      && |r.processes| == |w.processes| + 1 && r.processes[..|w.processes|] == w.processes
      && child.threads == [Idle] && child.memory.global == None && child.memory.lock == w.nextLock && child.memory.running == {}
      && child.memory.holders == p.memory.holders && child.history.created == [] && child.history.answers == []
      && (forall l :: l in child.history.inherited <==> l in p.history.inherited || l in p.history.created)
      && (forall k :: k in child.history.oldLocks <==> k in p.history.oldLocks || k == p.memory.lock)
  {
  }
}
