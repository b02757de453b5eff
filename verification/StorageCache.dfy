/**
 The in-memory storage backend under concurrent callers.  Tasks interleave at their await points only;
 any await may fail or be cancelled, which leaves the `async with` block and so releases the lock.
 */
module StorageCache {
  import opened Prelude

  type Id = nat

  /** A store: the brain it is bound to, and the brains saved in it. */
  datatype Storage = Storage(bound: Option<string>, brains: set<string>)

  /** Where a task stands: outside, waiting for the lock, or inside it at one of three awaits on a new store. */
  datatype Task =
    | Idle
    | Queued(name: string)
    | Probing(name: string, id: Id)
    | Searching(name: string, id: Id)
    | Saving(name: string, id: Id)

  datatype Answer = Answer(name: string, id: Id)

  /** `made` and `abandoned` count, by name, the stores constructed and the constructions that failed. */
  datatype History = History(answers: seq<Answer>, made: multiset<string>, abandoned: multiset<string>)

  datatype State = State(
    tasks: seq<Task>,
    holder: Option<nat>,
    storages: seq<Storage>,
    cache: map<string, Id>,
    currentBrain: string,
    history: History)

  datatype Event =
    | Spawn
    | Ask(task: nat, brainName: Option<string>, env: string, disk: Option<string>)
    | Enter(task: nat)
    | Resume(task: nat)
    | Abort(task: nat)

  const PREFIX := "memory:"

  function Key(name: string): string { PREFIX + name }

  lemma KeyInjective(a: string, b: string)
    requires Key(a) == Key(b)
    ensures a == b
  {
    assert Key(a)[|PREFIX|..] == a && Key(b)[|PREFIX|..] == b;
  }

  // ----- steps -----

  /** Explicit name, else environment, else the file's brain, which the configuration then follows. */
  function Follow(s: State, brainName: Option<string>, env: string, disk: Option<string>): string {
    if brainName.None? && env == "" && disk.Some? then disk.value else s.currentBrain
  }

  function Chosen(s: State, brainName: Option<string>, env: string, disk: Option<string>): string {
    if brainName.Some? then brainName.value
    else if env != "" then env
    else Follow(s, brainName, env, disk)
  }

  function Goto(s: State, t: nat, task: Task): State
    requires t < |s.tasks|
  {
    s.(tasks := s.tasks[t := task])
  }

  function Bind(s: State, id: Id, name: string): State
    requires id < |s.storages|
  {
    s.(storages := s.storages[id := s.storages[id].(bound := Some(name))])
  }

  function Reply(s: State, t: nat, name: string, id: Id): State
    requires t < |s.tasks|
  {
    Goto(s, t, Idle).(holder := None, history := s.history.(answers := s.history.answers + [Answer(name, id)]))
  }

  function Publish(s: State, t: nat, name: string, id: Id): State
    requires t < |s.tasks| && id < |s.storages|
  {
    var r := Reply(Bind(s, id, name), t, name, id);
    r.(cache := r.cache[Key(name) := id])
  }

  /** The lock is taken and everything up to the next await runs. */
  function Entered(s: State, t: nat, name: string): State
    requires t < |s.tasks|
  {
    if Key(name) in s.cache && s.cache[Key(name)] < |s.storages| then
      Reply(Bind(s, s.cache[Key(name)], name), t, name, s.cache[Key(name)])
    else
      var id := |s.storages|;
      Goto(s, t, Probing(name, id)).(
        holder := Some(t),
        storages := s.storages + [Storage(None, {})],
        history := s.history.(made := s.history.made + multiset{name}))
  }

  function Resumed(s: State, t: nat): State
    requires t < |s.tasks|
  {
    match s.tasks[t]
    case Probing(name, id) =>
      if id >= |s.storages| then s
      else if name in s.storages[id].brains then Publish(s, t, name, id)
      else Goto(s, t, Searching(name, id))
    case Searching(name, id) =>
      if id >= |s.storages| then s
      else if name in s.storages[id].brains then Publish(s, t, name, id)
      else Goto(s, t, Saving(name, id))
    case Saving(name, id) =>
      if id >= |s.storages| then s
      else
        var saved := s.(storages := s.storages[id := s.storages[id].(brains := s.storages[id].brains + {name})]);
        Publish(saved, t, name, id)
    case _ => s
  }

  predicate Inside(task: Task) { task.Probing? || task.Searching? || task.Saving? }

  function Aborted(s: State, t: nat): State
    requires t < |s.tasks|
  {
    if Inside(s.tasks[t]) then
      Goto(s, t, Idle).(
        holder := None,
        history := s.history.(abandoned := s.history.abandoned + multiset{s.tasks[t].name}))
    else Goto(s, t, Idle)
  }

  function Next(s: State, e: Event): State {
    match e
    case Spawn => s.(tasks := s.tasks + [Idle])
    case Ask(t, brainName, env, disk) =>
      if t < |s.tasks| && s.tasks[t].Idle? then
        Goto(s, t, Queued(Chosen(s, brainName, env, disk))).(currentBrain := Follow(s, brainName, env, disk))
      else s
    case Enter(t) =>
      if t < |s.tasks| && s.tasks[t].Queued? && s.holder.None? then Entered(s, t, s.tasks[t].name) else s
    case Resume(t) => if t < |s.tasks| then Resumed(s, t) else s
    case Abort(t) => if t < |s.tasks| then Aborted(s, t) else s
  }

  function Run(s: State, events: seq<Event>): State
    decreases |events|
  {
    if events == [] then s else Run(Next(s, events[0]), events[1..])
  }

  function Start(currentBrain: string): State {
    State([], None, [], map[], currentBrain, History([], multiset{}, multiset{}))
  }

  // ----- the invariant -----

  ghost predicate LockHeldByBuilder(s: State) {
    forall t :: 0 <= t < |s.tasks| ==> (Inside(s.tasks[t]) <==> s.holder == Some(t))
  }

  predicate HolderIsTask(s: State) { s.holder.Some? ==> s.holder.value < |s.tasks| && Inside(s.tasks[s.holder.value]) }

  /** The name and store under construction: at most one at any time. */
  function Building(s: State): Option<Answer> {
    if s.holder.Some? && s.holder.value < |s.tasks| && Inside(s.tasks[s.holder.value]) then
      Some(Answer(s.tasks[s.holder.value].name, s.tasks[s.holder.value].id))
    else None
  }

  ghost predicate BuildingUnpublished(s: State) {
    Building(s).Some? ==>
      && Building(s).value.id < |s.storages|
      && s.storages[Building(s).value.id].bound.None?
      && Key(Building(s).value.name) !in s.cache
  }

  ghost predicate Cached(s: State, name: string, id: Id) { Key(name) in s.cache && s.cache[Key(name)] == id }

  ghost predicate CacheBound(s: State) {
    forall name: string, id: Id :: Cached(s, name, id) ==> id < |s.storages| && s.storages[id].bound == Some(name)
  }

  ghost predicate AnswersCached(s: State) {
    forall i :: 0 <= i < |s.history.answers| ==> Cached(s, s.history.answers[i].name, s.history.answers[i].id)
  }

  function One(b: bool): nat { if b then 1 else 0 }

  /** Every store constructed for a name is the published one, the one under construction, or an abandoned one. */
  ghost predicate Accounted(s: State) {
    forall name: string ::
      s.history.made[name] ==
        s.history.abandoned[name] + One(Key(name) in s.cache) + One(Building(s).Some? && Building(s).value.name == name)
  }

  ghost predicate Inv(s: State) {
    LockHeldByBuilder(s) && HolderIsTask(s) && BuildingUnpublished(s) && CacheBound(s) && AnswersCached(s) && Accounted(s)
  }

  // ----- every step keeps it -----

  lemma ReuseKeeps(s: State, t: nat, name: string)
    requires Inv(s) && t < |s.tasks| && s.tasks[t].Queued? && s.holder.None? && Key(name) in s.cache
    ensures Inv(Entered(s, t, name))
  {
    var id := s.cache[Key(name)];
    assert Cached(s, name, id);
    var r := Entered(s, t, name);
    assert r.storages == s.storages && r.cache == s.cache;
    assert forall n: string, i: Id :: Cached(r, n, i) <==> Cached(s, n, i);
    forall i | 0 <= i < |r.history.answers|
      ensures Cached(r, r.history.answers[i].name, r.history.answers[i].id)
    {
      if i < |s.history.answers| { assert Cached(s, s.history.answers[i].name, s.history.answers[i].id); }
    }
    assert Building(r).None? && Building(s).None?;
  }

  lemma CreateKeeps(s: State, t: nat, name: string)
    requires Inv(s) && t < |s.tasks| && s.tasks[t].Queued? && s.holder.None? && Key(name) !in s.cache
    ensures Inv(Entered(s, t, name))
  {
    var r := Entered(s, t, name);
    assert Building(s).None? && Building(r) == Some(Answer(name, |s.storages|));
    assert forall n: string, i: Id :: Cached(r, n, i) <==> Cached(s, n, i);
    forall i | 0 <= i < |r.history.answers|
      ensures Cached(r, r.history.answers[i].name, r.history.answers[i].id)
    {
      assert Cached(s, s.history.answers[i].name, s.history.answers[i].id);
    }
  }

  lemma PublishKeeps(s: State, t: nat, name: string, id: Id)
    requires Inv(s) && t < |s.tasks| && Inside(s.tasks[t]) && name == s.tasks[t].name && id == s.tasks[t].id
    requires id < |s.storages|
    ensures Inv(Publish(s, t, name, id))
  {
    assert Building(s) == Some(Answer(name, id));
    var r := Publish(s, t, name, id);
    assert Building(r).None?;
    forall n: string, i: Id
      ensures Cached(r, n, i) <==> Cached(s, n, i) || (n == name && i == id)
    {
      if Key(n) == Key(name) { KeyInjective(n, name); }
    }
    forall n: string, i: Id | Cached(r, n, i)
      ensures i < |r.storages| && r.storages[i].bound == Some(n)
    {
      assert Cached(s, n, i) || (n == name && i == id);
    }
    forall i | 0 <= i < |r.history.answers|
      ensures Cached(r, r.history.answers[i].name, r.history.answers[i].id)
    {
      if i < |s.history.answers| { assert Cached(s, s.history.answers[i].name, s.history.answers[i].id); }
    }
    forall n: string
      ensures Key(n) in r.cache <==> Key(n) in s.cache || n == name
    {
      if Key(n) == Key(name) { KeyInjective(n, name); }
    }
  }

  lemma QuietKeeps(s: State, r: State)
    requires Inv(s) && LockHeldByBuilder(r) && HolderIsTask(r)
    requires Building(r) == Building(s) && r.cache == s.cache && r.history == s.history
    requires |r.storages| == |s.storages| && forall i :: 0 <= i < |s.storages| ==> r.storages[i].bound == s.storages[i].bound
    ensures Inv(r)
  {
    forall n: string, i: Id ensures Cached(r, n, i) <==> Cached(s, n, i) {}
    forall i | 0 <= i < |r.history.answers|
      ensures Cached(r, r.history.answers[i].name, r.history.answers[i].id)
    {
      assert Cached(s, s.history.answers[i].name, s.history.answers[i].id);
    }
  }

  lemma ResumeKeeps(s: State, t: nat)
    requires Inv(s) && t < |s.tasks|
    ensures Inv(Resumed(s, t))
  {
    if Inside(s.tasks[t]) {
      var name, id := s.tasks[t].name, s.tasks[t].id;
      assert Building(s) == Some(Answer(name, id));
      if s.tasks[t].Saving? {
        var saved := s.(storages := s.storages[id := s.storages[id].(brains := s.storages[id].brains + {name})]);
        QuietKeeps(s, saved);
        PublishKeeps(saved, t, name, id);
      } else if name in s.storages[id].brains {
        PublishKeeps(s, t, name, id);
      } else {
        QuietKeeps(s, Resumed(s, t));
      }
    }
  }

  lemma AbortKeeps(s: State, t: nat)
    requires Inv(s) && t < |s.tasks|
    ensures Inv(Aborted(s, t))
  {
    var r := Aborted(s, t);
    if Inside(s.tasks[t]) {
      assert Building(s) == Some(Answer(s.tasks[t].name, s.tasks[t].id)) && Building(r).None?;
      forall n: string, i: Id ensures Cached(r, n, i) <==> Cached(s, n, i) {}
      forall i | 0 <= i < |r.history.answers|
        ensures Cached(r, r.history.answers[i].name, r.history.answers[i].id)
      {
        assert Cached(s, s.history.answers[i].name, s.history.answers[i].id);
      }
    } else {
      QuietKeeps(s, r);
    }
  }

  lemma NextKeeps(s: State, e: Event)
    requires Inv(s)
    ensures Inv(Next(s, e))
  {
    match e
    case Spawn => QuietKeeps(s, Next(s, e));
    case Ask(t, _, _, _) => if t < |s.tasks| && s.tasks[t].Idle? { QuietKeeps(s, Next(s, e)); }
    case Enter(t) =>
      if t < |s.tasks| && s.tasks[t].Queued? && s.holder.None? {
        if Key(s.tasks[t].name) in s.cache { ReuseKeeps(s, t, s.tasks[t].name); }
        else { CreateKeeps(s, t, s.tasks[t].name); }
      }
    case Resume(t) => if t < |s.tasks| { ResumeKeeps(s, t); }
    case Abort(t) => if t < |s.tasks| { AbortKeeps(s, t); }
  }

  lemma {:induction false} RunKeeps(s: State, events: seq<Event>)
    requires Inv(s)
    ensures Inv(Run(s, events))
    decreases |events|
  {
    if events != [] {
      NextKeeps(s, events[0]);
      RunKeeps(Next(s, events[0]), events[1..]);
    }
  }

  lemma RunAppend(s: State, first: seq<Event>, more: seq<Event>)
    ensures Run(s, first + more) == Run(Run(s, first), more)
    decreases |first|
  {
    if first == [] {
      assert first + more == more;
    } else {
      assert (first + more)[0] == first[0] && (first + more)[1..] == first[1..] + more;
      RunAppend(Next(s, first[0]), first[1..], more);
    }
  }

  // ----- what it says of every run -----

  /** All callers for a name get one store, bound to that name; callers for different names get different stores. */
  lemma OneStorePerName(brain: string, events: seq<Event>, i: nat, j: nat)
    requires i < |Run(Start(brain), events).history.answers| && j < |Run(Start(brain), events).history.answers|
    ensures var s := Run(Start(brain), events);
      var a, b := s.history.answers[i], s.history.answers[j];
      && (a.name == b.name <==> a.id == b.id)
      && a.id < |s.storages| && s.storages[a.id].bound == Some(a.name)
  {
    RunKeeps(Start(brain), events);
    var s := Run(Start(brain), events);
    var a, b := s.history.answers[i], s.history.answers[j];
    assert Cached(s, a.name, a.id) && Cached(s, b.name, b.id);
  }

  /** A store handed out stays bound to its name whatever happens later. */
  lemma NeverRebound(brain: string, events: seq<Event>, more: seq<Event>, i: nat)
    requires i < |Run(Start(brain), events).history.answers|
    ensures var a := Run(Start(brain), events).history.answers[i];
      var s := Run(Start(brain), events + more);
      a in s.history.answers && a.id < |s.storages| && s.storages[a.id].bound == Some(a.name)
  {
    var s := Run(Start(brain), events);
    RunAppend(Start(brain), events, more);
    AnswersGrow(s, more);
    var later := Run(s, more);
    var a := s.history.answers[i];
    assert a == later.history.answers[i];
    OneStorePerName(brain, events + more, i, i);
  }

  lemma {:induction false} AnswersGrow(s: State, events: seq<Event>)
    ensures s.history.answers <= Run(s, events).history.answers
    decreases |events|
  {
    if events != [] {
      assert s.history.answers <= Next(s, events[0]).history.answers;
      AnswersGrow(Next(s, events[0]), events[1..]);
    }
  }

  /**
   Every store constructed for a name is the one handed out, the one under construction, or one whose construction
   failed: so without failures one store per name is made in the life of the process.
   */
  lemma CreationsAccounted(brain: string, events: seq<Event>, name: string)
    ensures var s := Run(Start(brain), events);
      && s.history.made[name] == s.history.abandoned[name] + One(Key(name) in s.cache) + One(Building(s).Some? && Building(s).value.name == name)
      && s.history.made[name] <= 1 + s.history.abandoned[name]
  {
    RunKeeps(Start(brain), events);
  }

  /** The lock is never lost: whoever waits, somebody can take a step. */
  lemma SomeTaskSteps(brain: string, events: seq<Event>, t: nat)
    requires t < |Run(Start(brain), events).tasks| && !Run(Start(brain), events).tasks[t].Idle?
    ensures var s := Run(Start(brain), events);
      exists u :: 0 <= u < |s.tasks| && (Inside(s.tasks[u]) || (s.tasks[u].Queued? && s.holder.None?))
  {
    RunKeeps(Start(brain), events);
    var s := Run(Start(brain), events);
    if s.tasks[t].Queued? && s.holder.Some? { assert Inside(s.tasks[s.holder.value]); }
  }

  /** All these tasks and answers are for allowed names. */
  ghost predicate NamesIn(s: State, allowed: set<string>) {
    && (forall t :: 0 <= t < |s.tasks| && !s.tasks[t].Idle? ==> s.tasks[t].name in allowed)
    && (forall i :: 0 <= i < |s.history.answers| ==> s.history.answers[i].name in allowed)
  }

  /** An ask of a process whose environment names a brain, or that names one itself. */
  predicate Isolated(e: Event, allowed: set<string>) {
    e.Ask? ==> if e.brainName.Some? then e.brainName.value in allowed else e.env != "" && e.env in allowed
  }

  lemma NextIsolated(s: State, e: Event, allowed: set<string>)
    requires NamesIn(s, allowed) && Isolated(e, allowed)
    ensures NamesIn(Next(s, e), allowed) && Next(s, e).currentBrain == s.currentBrain
  {
  }

  lemma {:induction false} RunIsolated(s: State, events: seq<Event>, allowed: set<string>)
    requires NamesIn(s, allowed) && forall i :: 0 <= i < |events| ==> Isolated(events[i], allowed)
    ensures NamesIn(Run(s, events), allowed) && Run(s, events).currentBrain == s.currentBrain
    decreases |events|
  {
    if events != [] {
      NextIsolated(s, events[0], allowed);
      RunIsolated(Next(s, events[0]), events[1..], allowed);
    }
  }

  /**
   In every run of a process whose environment names a brain, or in which every caller names one, the configured brain
   stays as it was whatever the file on disk says, and no store is handed out for any other name.
   */
  lemma IsolationHolds(brain: string, events: seq<Event>, allowed: set<string>)
    requires forall i :: 0 <= i < |events| ==> Isolated(events[i], allowed)
    ensures var s := Run(Start(brain), events);
      s.currentBrain == brain && forall i :: 0 <= i < |s.history.answers| ==> s.history.answers[i].name in allowed
  {
    RunIsolated(Start(brain), events, allowed);
  }

  // ----- which brain an ask means -----

  /** The task waits for this name, and the configuration has this brain; nothing else changed. */
  predicate Queues(s: State, r: State, t: nat, name: string, configured: string) {
    && t < |s.tasks| && r.tasks == s.tasks[t := Queued(name)] && r.currentBrain == configured
    && r.holder == s.holder && r.storages == s.storages && r.cache == s.cache && r.history == s.history
  }

  /** An explicit name first, then the environment's, then the file's, which the configuration then has, then its own. */
  lemma AskMeans(s: State, t: nat, name: string, env: string, disk: Option<string>)
    requires t < |s.tasks| && s.tasks[t].Idle?
    ensures Queues(s, Next(s, Ask(t, Some(name), env, disk)), t, name, s.currentBrain)
    ensures env != "" ==> Queues(s, Next(s, Ask(t, None, env, disk)), t, env, s.currentBrain)
    ensures Queues(s, Next(s, Ask(t, None, "", Some(name))), t, name, name)
    ensures Queues(s, Next(s, Ask(t, None, "", None)), t, s.currentBrain, s.currentBrain)
  {
  }

  // ----- what a store holds -----

  /** A store under construction is empty, and a published one holds the brain of its name and no other. */
  ghost predicate Filled(s: State) {
    && (Building(s).Some? && Building(s).value.id < |s.storages| ==> s.storages[Building(s).value.id].brains == {})
    && forall name: string, id: Id :: Cached(s, name, id) && id < |s.storages| ==> s.storages[id].brains == {name}
  }

  lemma PublishFills(s: State, t: nat, name: string, id: Id)
    requires Inv(s) && t < |s.tasks| && Inside(s.tasks[t]) && name == s.tasks[t].name && id == s.tasks[t].id && id < |s.storages|
    requires forall n: string, i: Id :: Cached(s, n, i) && i < |s.storages| ==> s.storages[i].brains == {n}
    requires s.storages[id].brains == {name}
    ensures Filled(Publish(s, t, name, id))
  {
    PublishKeeps(s, t, name, id);
    var r := Publish(s, t, name, id);
    forall n: string, i: Id | Cached(r, n, i) && i < |r.storages|
      ensures r.storages[i].brains == {n}
    {
      if Key(n) == Key(name) { KeyInjective(n, name); } else { assert Cached(s, n, i); }
    }
  }

  lemma ResumeFills(s: State, t: nat)
    requires Inv(s) && Filled(s) && t < |s.tasks|
    ensures Filled(Resumed(s, t))
  {
    if Inside(s.tasks[t]) {
      var name, id := s.tasks[t].name, s.tasks[t].id;
      assert Building(s) == Some(Answer(name, id));
      assert s.storages[id].brains == {};
      if s.tasks[t].Saving? {
        var saved := s.(storages := s.storages[id := s.storages[id].(brains := s.storages[id].brains + {name})]);
        QuietKeeps(s, saved);
        forall n: string, i: Id | Cached(saved, n, i) && i < |saved.storages| ensures saved.storages[i].brains == {n} {
          assert Cached(s, n, i);
        }
        PublishFills(saved, t, name, id);
      } else {
        assert Building(Resumed(s, t)) == Some(Answer(name, id));
        SameCacheFills(s, Resumed(s, t));
      }
    }
  }

  lemma SameCacheFills(s: State, r: State)
    requires CacheBound(s) && Filled(s) && r.cache == s.cache && |s.storages| <= |r.storages|
    requires forall i :: 0 <= i < |s.storages| ==> r.storages[i].brains == s.storages[i].brains
    requires Building(r).Some? && Building(r).value.id < |r.storages| ==> r.storages[Building(r).value.id].brains == {}
    ensures Filled(r)
  {
    forall n: string, i: Id | Cached(r, n, i) && i < |r.storages|
      ensures r.storages[i].brains == {n}
    {
      assert Cached(s, n, i);
    }
  }

  lemma EnterFills(s: State, t: nat, name: string)
    requires Inv(s) && Filled(s) && t < |s.tasks| && s.tasks[t].Queued? && s.holder.None? && name == s.tasks[t].name
    ensures Filled(Entered(s, t, name))
  {
    if Key(name) in s.cache { assert Cached(s, name, s.cache[Key(name)]); }
    SameCacheFills(s, Entered(s, t, name));
  }

  lemma NextFills(s: State, e: Event)
    requires Inv(s) && Filled(s)
    ensures Filled(Next(s, e))
  {
    match e
    case Spawn => SameCacheFills(s, Next(s, e));
    case Ask(t, _, _, _) => SameCacheFills(s, Next(s, e));
    case Enter(t) => if t < |s.tasks| && s.tasks[t].Queued? && s.holder.None? { EnterFills(s, t, s.tasks[t].name); }
    case Resume(t) => if t < |s.tasks| { ResumeFills(s, t); }
    case Abort(t) => SameCacheFills(s, Next(s, e));
  }

  lemma {:induction false} RunFills(s: State, events: seq<Event>)
    requires Inv(s) && Filled(s)
    ensures Filled(Run(s, events))
    decreases |events|
  {
    if events != [] {
      NextKeeps(s, events[0]);
      NextFills(s, events[0]);
      RunFills(Next(s, events[0]), events[1..]);
    }
  }

  /** Whoever is given a store finds in it the brain asked for, saved, and no other. */
  lemma BrainIsThere(brain: string, events: seq<Event>, i: nat)
    requires i < |Run(Start(brain), events).history.answers|
    ensures var s := Run(Start(brain), events); var a := s.history.answers[i];
      a.id < |s.storages| && s.storages[a.id].brains == {a.name}
  {
    OneStorePerName(brain, events, i, i);
    RunKeeps(Start(brain), events);
    RunFills(Start(brain), events);
    var s := Run(Start(brain), events);
    assert Cached(s, s.history.answers[i].name, s.history.answers[i].id);
  }

  // ----- an ask alone -----

  /** With the lock free, an ask for a name that has a store is answered with it in one step; nothing is made. */
  lemma KnownIsReused(s: State, t: nat, name: string)
    requires Inv(s) && t < |s.tasks| && s.tasks[t] == Queued(name) && s.holder.None? && Key(name) in s.cache
    ensures var r := Next(s, Enter(t));
      && r.history == s.history.(answers := s.history.answers + [Answer(name, s.cache[Key(name)])])
      && r.storages == s.storages && r.cache == s.cache && r.holder == None && r.tasks == s.tasks[t := Idle]
  {
    assert Cached(s, name, s.cache[Key(name)]);
  }

  /** Inside the lock, with a new empty store as the last. */
  predicate Makes(s: State, r: State, t: nat, name: string, task: Task) {
    && t < |s.tasks| && r.tasks == s.tasks[t := task] && r.holder == Some(t) && r.storages == s.storages + [Storage(None, {})]
    && r.cache == s.cache && r.currentBrain == s.currentBrain
    && r.history == s.history.(made := s.history.made + multiset{name})
  }

  lemma MakesOn(s: State, r: State, t: nat, name: string, id: Id)
    requires id == |s.storages|
    ensures Makes(s, r, t, name, Probing(name, id)) ==> Makes(s, Next(r, Resume(t)), t, name, Searching(name, id))
    ensures Makes(s, r, t, name, Searching(name, id)) ==> Makes(s, Next(r, Resume(t)), t, name, Saving(name, id))
  {
  }

  /** The new store is saved into, published and handed out. */
  predicate Made(s: State, r: State, t: nat, name: string, id: Id) {
    && r.history.answers == s.history.answers + [Answer(name, id)]
    && r.history.made == s.history.made + multiset{name} && r.history.abandoned == s.history.abandoned
    && r.storages == s.storages + [Storage(Some(name), {name})] && r.cache == s.cache[Key(name) := id]
    && t < |s.tasks| && r.tasks == s.tasks[t := Idle] && r.holder == None && r.currentBrain == s.currentBrain
  }

  lemma SaveMakes(s: State, r: State, t: nat, name: string, id: Id)
    requires id == |s.storages| && Makes(s, r, t, name, Saving(name, id))
    ensures Made(s, Next(r, Resume(t)), t, name, id)
  {
    var saved := r.(storages := r.storages[id := r.storages[id].(brains := r.storages[id].brains + {name})]);
    assert saved.storages[id] == Storage(None, {name});
    var d := Publish(saved, t, name, id);
    assert d.storages == s.storages + [Storage(Some(name), {name})];
    assert d.tasks == s.tasks[t := Idle];
  }

  /** A name without a store gets a new one, after the three awaits, and later asks will find it. */
  lemma UnknownIsMade(s: State, t: nat, name: string)
    requires Inv(s) && t < |s.tasks| && s.tasks[t] == Queued(name) && s.holder.None? && Key(name) !in s.cache
    ensures Made(s, Run(s, [Enter(t), Resume(t), Resume(t), Resume(t)]), t, name, |s.storages|)
  {
    var id := |s.storages|;
    var a := Next(s, Enter(t));
    var b := Next(a, Resume(t));
    var c := Next(b, Resume(t));
    assert Makes(s, a, t, name, Probing(name, id));
    MakesOn(s, a, t, name, id);
    MakesOn(s, b, t, name, id);
    SaveMakes(s, c, t, name, id);
    RunFirst(s, Enter(t), [Resume(t), Resume(t), Resume(t)]);
    RunFirst(a, Resume(t), [Resume(t), Resume(t)]);
    RunFirst(b, Resume(t), [Resume(t)]);
    RunFirst(c, Resume(t), []);
  }

  lemma RunFirst(s: State, e: Event, rest: seq<Event>)
    ensures Run(s, [e] + rest) == Run(Next(s, e), rest)
  {
    assert ([e] + rest)[1..] == rest;
  }

  /** The first ask of a process: a task of its own, and one new store. */
  lemma FirstAsk(brain: string, name: string, env: string, disk: Option<string>)
    ensures var s := Run(Start(brain), [Spawn, Ask(0, Some(name), env, disk)] + [Enter(0), Resume(0), Resume(0), Resume(0)]);
      && s.history.answers == [Answer(name, 0)] && s.storages == [Storage(Some(name), {name})]
      && s.tasks == [Idle] && s.holder == None && s.currentBrain == brain
  {
    var asked := Run(Start(brain), [Spawn, Ask(0, Some(name), env, disk)]);
    RunKeeps(Start(brain), [Spawn, Ask(0, Some(name), env, disk)]);
    RunFirst(Start(brain), Spawn, [Ask(0, Some(name), env, disk)]);
    RunFirst(Next(Start(brain), Spawn), Ask(0, Some(name), env, disk), []);
    assert asked.tasks == [Queued(name)];
    RunAppend(Start(brain), [Spawn, Ask(0, Some(name), env, disk)], [Enter(0), Resume(0), Resume(0), Resume(0)]);
    UnknownIsMade(asked, 0, name);
  }

  /** A failure or a cancellation at an await leaves the lock free and the cache as it was: the next ask can go on. */
  lemma FailureReleases(s: State, t: nat)
    requires Inv(s) && t < |s.tasks| && Inside(s.tasks[t])
    ensures var r := Next(s, Abort(t));
      && r.holder == None && r.tasks == s.tasks[t := Idle] && r.cache == s.cache && r.storages == s.storages
      && r.history == s.history.(abandoned := s.history.abandoned + multiset{s.tasks[t].name})
  {
  }
}
