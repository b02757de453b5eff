/**
 Chat turns kept as fibers of a shared store and replayed per session.  The store answers a tag query
 in any order and with at most a thousand fibers; the clock, fiber ids and whatever else the encoder adds are inputs.
 */
module ChatHistory {
  import opened Prelude
  import Order
  import PyString

  const LIMIT := 1000
  const SESSION_PREFIX := "lc-session:"
  const TAG := "langchain"

  datatype Message = AI(content: string) | System(content: string) | Human(content: string)

  /** The metadata of a fiber as far as this adapter looks at it. */
  datatype Meta = Meta(role: Option<string>, session: Option<string>, content: Option<string>, stamp: Option<int>)

  datatype Fiber = Fiber(id: nat, tags: set<string>, salience: real, timeStart: Option<int>, createdAt: int, meta: Meta)

  // ----- pure parts -----

  function NormalizeTag(tag: string): string { PyString.Strip(PyString.Lower(tag)) }

  function SessionTag(session: string): string { NormalizeTag(SESSION_PREFIX + session) }

  /** The encoder normalises tags once more: the reader's tag must be stable under that. */
  lemma NormalizeTagIdempotent(tag: string)
    ensures NormalizeTag(NormalizeTag(tag)) == NormalizeTag(tag)
  {
    PyString.LowerStripFixed(tag);
    PyString.StripIdempotent(PyString.Lower(tag));
  }

  lemma TagBehind(prefix: string, session: string)
    requires prefix != "" && !PyString.IsSpace(prefix[0]) && !PyString.IsSpace(prefix[|prefix| - 1]) && PyString.Lower(prefix) == prefix
    ensures NormalizeTag(prefix + session) == prefix + PyString.Lower(PyString.StripRight(session))
  {
    PyString.LowerAppend(prefix, session);
    PyString.StripRightLower(session);
    PyString.StripRightAppend(prefix, PyString.Lower(session));
  }

  lemma PrefixEnds()
    ensures SESSION_PREFIX != "" && SESSION_PREFIX[0] == 'l' && SESSION_PREFIX[|SESSION_PREFIX| - 1] == ':'
    ensures PyString.NoCapitals(SESSION_PREFIX)
  {
  }

  /** The tag is the session's id behind its prefix, in lower case and without white space after it. */
  lemma SessionTagIs(session: string)
    ensures SessionTag(session) == "lc-session:" + PyString.Lower(PyString.StripRight(session))
  {
    PrefixEnds();
    PyString.LowerKeeps(SESSION_PREFIX);
    TagBehind(SESSION_PREFIX, session);
  }

  function Role(kind: string): string {
    match kind
    case "human" => "human"
    case "ai" => "ai"
    case "system" => "system"
    case other => other
  }

  function FromStored(role: string, content: string): Message {
    if role == "ai" then AI(content) else if role == "system" then System(content) else Human(content)
  }

  datatype Moment = Moment(time: int, stamp: int)

  function Key(f: Fiber): Moment {
    Moment(if f.timeStart.Some? then f.timeStart.value else f.createdAt, if f.meta.stamp.Some? then f.meta.stamp.value else 0)
  }

  predicate Before(a: Fiber, b: Fiber) {
    Key(a).time < Key(b).time || (Key(a).time == Key(b).time && Key(a).stamp <= Key(b).stamp)
  }

  predicate Belongs(f: Fiber, session: string) { f.meta.session == Some(session) }

  predicate Replayable(f: Fiber, session: string) {
    Belongs(f, session) && f.meta.role.Some? && f.meta.content.Some?
  }

  function Turn(f: Fiber): Message {
    FromStored(if f.meta.role.Some? then f.meta.role.value else "", if f.meta.content.Some? then f.meta.content.value else "")
  }

  function Own(fibers: seq<Fiber>, session: string): seq<Fiber> { Filter((f: Fiber) => Replayable(f, session), fibers) }

  function Turns(own: seq<Fiber>): seq<Message> { Map(Turn, own) }

  function Replay(found: seq<Fiber>, session: string): seq<Message> { Turns(Own(Order.Sort(Before, found), session)) }

  function Tagged(fibers: seq<Fiber>, tag: string): seq<Fiber> { Filter((f: Fiber) => tag in f.tags, fibers) }

  /** What a tag query may answer: that many of the matching fibers, in any order. */
  ghost predicate Finds(fibers: seq<Fiber>, tag: string, limit: nat, found: seq<Fiber>) {
    && multiset(found) <= multiset(Tagged(fibers, tag))
    && |found| == (if |Tagged(fibers, tag)| <= limit then |Tagged(fibers, tag)| else limit)
  }

  // ----- the store -----

  class Store {
    var fibers: seq<Fiber>

    constructor ()
      ensures fibers == []
    {
      fibers := [];
    }

    method Find(tag: string, limit: nat) returns (found: seq<Fiber>)
      ensures Finds(fibers, tag, if limit <= 1000 then limit else 1000, found)
    {
      var matching := [];
      for i := 0 to |fibers|
        invariant matching == Tagged(fibers[..i], tag)
      {
        assert fibers[..i + 1] == fibers[..i] + [fibers[i]];
        OneMoreTagged(fibers[..i], fibers[i], tag);
        if tag in fibers[i].tags { matching := matching + [fibers[i]]; }
      }
      assert fibers[..|fibers|] == fibers;
      var ranked := Order.Sort(MoreSalient, matching);
      SalienceOrder();
      Order.SortCorrect(MoreSalient, matching);
      found := Take(ranked, if limit <= 1000 then limit else 1000);
      PrefixMultiset(ranked, |found|);
      assert multiset(ranked[..|found|]) <= multiset(Tagged(fibers, tag));
    }

    method Add(f: Fiber)
      modifies this
      ensures fibers == old(fibers) + [f]
    {
      fibers := fibers + [f];
    }

    method Delete(id: nat)
      modifies this
      ensures fibers == Filter((f: Fiber) => f.id != id, old(fibers))
    {
      fibers := Filter((f: Fiber) => f.id != id, fibers);
    }
  }

  lemma OneMoreTagged(fibers: seq<Fiber>, f: Fiber, tag: string)
    ensures Tagged(fibers + [f], tag) == Tagged(fibers, tag) + (if tag in f.tags then [f] else [])
  {
    var keep := (g: Fiber) => tag in g.tags;
    FilterAppend(keep, fibers, [f]);
    FilterCons(keep, f, []);
    assert [f] + [] == [f];
  }

  predicate MoreSalient(a: Fiber, b: Fiber) { a.salience >= b.salience }

  lemma SalienceOrder()
    ensures Order.TotalPreorder(MoreSalient)
  {
  }

  lemma PrefixMultiset<T>(s: seq<T>, n: nat)
    requires n <= |s|
    ensures multiset(s[..n]) <= multiset(s)
  {
    assert s == s[..n] + s[n..];
  }

  // ----- sorting and filtering -----

  lemma BeforeOrder()
    ensures Order.TotalPreorder(Before)
  {
  }

  lemma {:induction false} FilterSorted<T(!new)>(leq: (T, T) -> bool, keep: T -> bool, s: seq<T>)
    requires Order.Sorted(leq, s)
    ensures Order.Sorted(leq, Filter(keep, s))
  {
    if s != [] {
      FilterSorted(leq, keep, s[1..]);
      if keep(s[0]) {
        var rest := Filter(keep, s[1..]);
        forall y | y in multiset(rest)
          ensures leq(s[0], y)
        {
          assert y in rest;
          var j :| 0 <= j < |s[1..]| && s[1..][j] == y;
          assert leq(s[0], s[j + 1]);
        }
        Order.SortedCons(leq, s[0], rest);
      }
    }
  }

  /** Time never goes back along the list, and write stamps rise. */
  predicate InOrder(own: seq<Fiber>) {
    forall i, j :: 0 <= i < j < |own| ==> Key(own[i]).time <= Key(own[j]).time && Key(own[i]).stamp < Key(own[j]).stamp
  }

  /** The own turns that the query returned, in the order they were written. */
  function Returned(fibers: seq<Fiber>, session: string, found: seq<Fiber>): seq<Fiber> {
    Filter((f: Fiber) => f in found, Own(fibers, session))
  }

  /** Where a turn belongs: its start, or else its creation; among these its write stamp, or else zero. */
  predicate NotAfter(a: Fiber, b: Fiber) {
    var s := match a.timeStart case Some(t) => t case None => a.createdAt;
    var t := match b.timeStart case Some(u) => u case None => b.createdAt;
    s < t || (s == t && (match a.meta.stamp case Some(m) => m case None => 0) <= (match b.meta.stamp case Some(m) => m case None => 0))
  }

  /** For any store and any answer, replay is in that order, and is of the session's found turns, all and only. */
  lemma ReplayOrdered(found: seq<Fiber>, session: string)
    ensures var own := Own(Order.Sort(Before, found), session);
      && Replay(found, session) == Turns(own)
      && (forall i, j :: 0 <= i < j < |own| ==> NotAfter(own[i], own[j]))
      && (forall f :: multiset(own)[f] == if f.meta.session == Some(session) && f.meta.role != None && f.meta.content != None then multiset(found)[f] else 0)
  {
    var sorted := Order.Sort(Before, found);
    BeforeOrder();
    Order.SortCorrect(Before, found);
    FilterSorted(Before, (f: Fiber) => Replayable(f, session), sorted);
    forall f
      ensures multiset(Own(sorted, session))[f]
           == if f.meta.session == Some(session) && f.meta.role != None && f.meta.content != None then multiset(found)[f] else 0
    {
      FilterMultiset((g: Fiber) => Replayable(g, session), sorted, f);
    }
  }

  lemma ReturnedMultiset(fibers: seq<Fiber>, session: string, found: seq<Fiber>)
    requires multiset(found) <= multiset(fibers) && Distinct(fibers)
    ensures multiset(Returned(fibers, session, found)) == multiset(Own(found, session))
  {
    forall f: Fiber
      ensures multiset(Returned(fibers, session, found))[f] == multiset(Own(found, session))[f]
    {
      FilterMultiset((g: Fiber) => g in found, Own(fibers, session), f);
      FilterMultiset((g: Fiber) => Replayable(g, session), fibers, f);
      FilterMultiset((g: Fiber) => Replayable(g, session), found, f);
      CountDistinct(fibers, f);
      assert f in found <==> multiset(found)[f] > 0;
    }
  }

  lemma {:induction false} FilterInOrder(own: seq<Fiber>, keep: Fiber -> bool)
    requires InOrder(own)
    ensures InOrder(Filter(keep, own))
  {
    if own != [] {
      FilterInOrder(own[1..], keep);
      var rest := Filter(keep, own[1..]);
      forall j | 0 <= j < |rest|
        ensures Key(own[0]).time <= Key(rest[j]).time && Key(own[0]).stamp < Key(rest[j]).stamp
      {
        assert rest[j] in rest;
        assert rest[j] in own[1..];
        var k :| 0 <= k < |own[1..]| && own[1..][k] == rest[j];
        assert own[k + 1] == rest[j];
      }
    }
  }

  lemma InOrderSorted(own: seq<Fiber>)
    requires InOrder(own)
    ensures Order.Sorted(Before, own) && Order.NoTies(Before, own)
  {
  }

  /** Whatever order the store answers in, replay gives the returned turns of this session in write order. */
  lemma ReplayInWriteOrder(fibers: seq<Fiber>, session: string, found: seq<Fiber>)
    requires multiset(found) <= multiset(fibers) && Distinct(fibers) && InOrder(Own(fibers, session))
    ensures Replay(found, session) == Turns(Returned(fibers, session, found))
  {
    var sorted := Order.Sort(Before, found);
    var mine, expected := Own(sorted, session), Returned(fibers, session, found);
    BeforeOrder();
    Order.SortCorrect(Before, found);
    FilterSorted(Before, (f: Fiber) => Replayable(f, session), sorted);
    FilterInOrder(Own(fibers, session), (f: Fiber) => f in found);
    InOrderSorted(expected);
    ReturnedMultiset(fibers, session, found);
    forall f: Fiber
      ensures multiset(mine)[f] == multiset(Own(found, session))[f]
    {
      FilterMultiset((g: Fiber) => Replayable(g, session), sorted, f);
      FilterMultiset((g: Fiber) => Replayable(g, session), found, f);
    }
    Order.SortedUnique(Before, expected, mine);
  }

  // ----- the history of one session -----

  /** The fiber the encoder builds for a turn. */
  function Encoded(id: nat, session: string, kind: string, content: string, time: int, stamp: int,
                   autoTags: set<string>, salience: real): Fiber {
    Fiber(id, {NormalizeTag(TAG), NormalizeTag(SessionTag(session))} + autoTags, salience, Some(time), time,
          Meta(Some(Role(kind)), Some(session), Some(content), Some(stamp)))
  }

  class SurrealMemoryChatMessageHistory {
    const sessionId: string
    const store: Store

    constructor (sessionId: string, store: Store)
      ensures this.sessionId == sessionId && this.store == store
    {
      this.sessionId := sessionId;
      this.store := store;
    }

    method AddMessage(id: nat, kind: string, content: string, time: int, stamp: int, autoTags: set<string>, salience: real)
      modifies store
      ensures store.fibers == old(store.fibers) + [Encoded(id, sessionId, kind, content, time, stamp, autoTags, salience)]
    {
      store.Add(Encoded(id, sessionId, kind, content, time, stamp, autoTags, salience));
    }

    method GetMessages() returns (messages: seq<Message>)
      ensures exists found :: Finds(store.fibers, SessionTag(sessionId), LIMIT, found) && messages == Replay(found, sessionId)
    {
      var found := store.Find(SessionTag(sessionId), LIMIT);
      messages := Rebuild(Order.Sort(Before, found));
    }

    method Rebuild(ordered: seq<Fiber>) returns (messages: seq<Message>)
      ensures messages == Turns(Own(ordered, sessionId))
    {
      messages := [];
      for i := 0 to |ordered|
        invariant messages == Turns(Own(ordered[..i], sessionId))
      {
        var fiber := ordered[i];
        assert ordered[..i + 1] == ordered[..i] + [fiber];
        OneMoreTurn(ordered[..i], fiber, sessionId);
        if !Belongs(fiber, sessionId) { continue; }
        if fiber.meta.role.None? || fiber.meta.content.None? { continue; }
        messages := messages + [FromStored(fiber.meta.role.value, fiber.meta.content.value)];
      }
      assert ordered[..|ordered|] == ordered;
    }

    method Clear()
      modifies store
      ensures exists found ::
        (Finds(old(store.fibers), SessionTag(sessionId), LIMIT, found) && store.fibers == Cleared(old(store.fibers), found, sessionId))
    {
      var found := store.Find(SessionTag(sessionId), LIMIT);
      DeleteOwn(found);
    }

    method DeleteOwn(found: seq<Fiber>)
      modifies store
      ensures store.fibers == Cleared(old(store.fibers), found, sessionId)
    {
      ghost var before := store.fibers;
      DeleteNone(before, sessionId);
      for i := 0 to |found|
        invariant store.fibers == Cleared(before, found[..i], sessionId)
      {
        var fiber := found[i];
        assert found[..i + 1] == found[..i] + [fiber];
        DeleteOneMore(before, found[..i], fiber, sessionId);
        if !Belongs(fiber, sessionId) { continue; }
        store.Delete(fiber.id);
      }
      assert found[..|found|] == found;
    }
  }

  /** Deletion goes by id. */
  predicate ToDelete(f: Fiber, found: seq<Fiber>, session: string) {
    exists g :: g in found && Belongs(g, session) && g.id == f.id
  }

  function Cleared(fibers: seq<Fiber>, found: seq<Fiber>, session: string): seq<Fiber> {
    Filter((f: Fiber) => !ToDelete(f, found, session), fibers)
  }

  lemma OneMoreTurn(fibers: seq<Fiber>, f: Fiber, session: string)
    ensures Turns(Own(fibers + [f], session)) == Turns(Own(fibers, session)) + (if Replayable(f, session) then [Turn(f)] else [])
  {
    var keep := (g: Fiber) => Replayable(g, session);
    FilterAppend(keep, fibers, [f]);
    FilterCons(keep, f, []);
    assert [f] + [] == [f];
    MapAppend(Turn, Own(fibers, session), Own([f], session));
  }

  lemma DeleteNone(fibers: seq<Fiber>, session: string)
    ensures Cleared(fibers, [], session) == fibers
  {
    FilterAll((f: Fiber) => !ToDelete(f, [], session), fibers);
  }

  lemma DeleteOneMore(fibers: seq<Fiber>, found: seq<Fiber>, g: Fiber, session: string)
    ensures Cleared(fibers, found + [g], session)
         == var kept := Cleared(fibers, found, session);
            if Belongs(g, session) then Filter((f: Fiber) => f.id != g.id, kept) else kept
  {
    var p := (f: Fiber) => !ToDelete(f, found, session);
    var both := (f: Fiber) => !ToDelete(f, found + [g], session);
    var q := (f: Fiber) => Belongs(g, session) ==> f.id != g.id;
    FilterTwice(p, q, both, fibers);
    var kept := Filter(p, fibers);
    if Belongs(g, session) {
      FilterSame(q, (f: Fiber) => f.id != g.id, kept);
    } else {
      FilterAll(q, kept);
    }
  }

  // ----- completeness, isolation -----

  predicate UniqueIds(fibers: seq<Fiber>) {
    forall i, j :: 0 <= i < j < |fibers| ==> fibers[i].id != fibers[j].id
  }

  lemma FoundMembers(fibers: seq<Fiber>, tag: string, limit: nat, found: seq<Fiber>)
    requires Finds(fibers, tag, limit, found)
    ensures multiset(found) <= multiset(fibers)
    ensures forall f :: f in found ==> f in fibers && tag in f.tags
    ensures |Tagged(fibers, tag)| <= limit ==> forall f :: f in fibers && tag in f.tags ==> f in found
  {
    forall f: Fiber
      ensures multiset(found)[f] <= multiset(fibers)[f]
    {
      FilterMultiset((g: Fiber) => tag in g.tags, fibers, f);
      assert multiset(found)[f] <= multiset(Tagged(fibers, tag))[f];
    }
    forall f | f in found
      ensures f in Tagged(fibers, tag)
    {
      assert f in multiset(found);
    }
    if |Tagged(fibers, tag)| <= limit {
      SameSize(multiset(found), multiset(Tagged(fibers, tag)));
      forall f | f in fibers && tag in f.tags
        ensures f in found
      {
        assert f in Tagged(fibers, tag);
        assert f in multiset(found);
      }
    }
  }

  lemma SameSize<T>(a: multiset<T>, b: multiset<T>)
    requires a <= b && |a| == |b|
    ensures a == b
  {
    assert b == a + (b - a);
  }

  /** Replay is complete exactly when the query returned every own turn; past a thousand it cannot be. */
  lemma ReplayCompleteIff(fibers: seq<Fiber>, session: string, found: seq<Fiber>)
    requires Finds(fibers, SessionTag(session), LIMIT, found) && UniqueIds(fibers) && InOrder(Own(fibers, session))
    ensures Replay(found, session) == Turns(Own(fibers, session)) <==> forall f :: f in Own(fibers, session) ==> f in found
    ensures |Replay(found, session)| <= 1000
  {
    var own := Own(fibers, session);
    FoundMembers(fibers, SessionTag(session), LIMIT, found);
    ReplayInWriteOrder(fibers, session, found);
    FilterLength((f: Fiber) => f in found, own);
    if forall f :: f in own ==> f in found { FilterAll((f: Fiber) => f in found, own); }
    BeforeOrder();
    Order.SortCorrect(Before, found);
  }

  /** Clearing a session leaves the turns of every other session as they were, even under the same tag. */
  lemma ClearSparesOthers(fibers: seq<Fiber>, session: string, other: string, found: seq<Fiber>)
    requires UniqueIds(fibers) && Finds(fibers, SessionTag(session), LIMIT, found) && session != other
    ensures Own(Cleared(fibers, found, session), other) == Own(fibers, other)
  {
    var keep := (f: Fiber) => !ToDelete(f, found, session);
    var mine := (f: Fiber) => Replayable(f, other);
    FoundMembers(fibers, SessionTag(session), LIMIT, found);
    forall f | f in fibers
      ensures mine(f) <==> keep(f) && mine(f)
    {
      if ToDelete(f, found, session) {
        var g :| g in found && Belongs(g, session) && g.id == f.id;
        SameId(fibers, f, g);
      }
    }
    FilterTwice(keep, mine, mine, fibers);
  }

  lemma SameId(fibers: seq<Fiber>, f: Fiber, g: Fiber)
    requires UniqueIds(fibers) && f in fibers && g in fibers && f.id == g.id
    ensures f == g
  {
    var i :| 0 <= i < |fibers| && fibers[i] == f;
    var j :| 0 <= j < |fibers| && fibers[j] == g;
  }

  function Wiped(fibers: seq<Fiber>, session: string): seq<Fiber> { Filter((f: Fiber) => !Belongs(f, session), fibers) }

  /** At most a thousand fibers lie under the session's tag, or none is its own. */
  ghost predicate Roomy(fibers: seq<Fiber>, session: string) {
    |Tagged(fibers, SessionTag(session))| <= 1000 || forall f :: f in fibers ==> !Belongs(f, session)
  }

  ghost predicate OwnTagged(fibers: seq<Fiber>, session: string) {
    forall f :: f in fibers && Belongs(f, session) ==> SessionTag(session) in f.tags
  }

  lemma ClearIsWipe(fibers: seq<Fiber>, session: string, found: seq<Fiber>)
    requires UniqueIds(fibers) && Finds(fibers, SessionTag(session), LIMIT, found)
    requires Roomy(fibers, session) && OwnTagged(fibers, session)
    ensures Cleared(fibers, found, session) == Wiped(fibers, session)
  {
    FoundMembers(fibers, SessionTag(session), LIMIT, found);
    forall f | f in fibers
      ensures ToDelete(f, found, session) <==> Belongs(f, session)
    {
      if ToDelete(f, found, session) {
        var g :| g in found && Belongs(g, session) && g.id == f.id;
        SameId(fibers, f, g);
      }
      if Belongs(f, session) { assert f in found; }
    }
    FilterSame((f: Fiber) => !ToDelete(f, found, session), (f: Fiber) => !Belongs(f, session), fibers);
  }

  lemma UniqueDistinct(fibers: seq<Fiber>)
    requires UniqueIds(fibers)
    ensures Distinct(fibers)
  {
  }

  function Without(s: seq<Fiber>, x: Fiber): seq<Fiber> { Filter((f: Fiber) => f != x, s) }

  lemma {:induction false} WithoutOne(s: seq<Fiber>, x: Fiber)
    ensures |Without(s, x)| + multiset(s)[x] == |s|
  {
    if s != [] {
      assert s == [s[0]] + s[1..];
      WithoutOne(s[1..], x);
    }
  }

  /** Past the limit a query may leave out any one of the matching fibers. */
  lemma LeavesOut(fibers: seq<Fiber>, tag: string, limit: nat, f: Fiber) returns (found: seq<Fiber>)
    requires UniqueIds(fibers) && |Tagged(fibers, tag)| > limit
    ensures Finds(fibers, tag, limit, found) && f !in found
  {
    var tagged := Tagged(fibers, tag);
    var rest := Without(tagged, f);
    UniqueDistinct(fibers);
    FilterDistinct((g: Fiber) => tag in g.tags, fibers);
    CountDistinct(tagged, f);
    WithoutOne(tagged, f);
    found := rest[..limit];
    assert forall g :: g in found ==> g in rest;
    PrefixMultiset(rest, limit);
    forall g: Fiber
      ensures multiset(found)[g] <= multiset(tagged)[g]
    {
      FilterMultiset((h: Fiber) => h != f, tagged, g);
      assert multiset(found)[g] <= multiset(rest)[g];
    }
  }

  lemma LeftOutStays(fibers: seq<Fiber>, session: string, found: seq<Fiber>, f: Fiber)
    requires UniqueIds(fibers) && Finds(fibers, SessionTag(session), LIMIT, found) && f in fibers && f !in found
    ensures f in Cleared(fibers, found, session)
  {
    FoundMembers(fibers, SessionTag(session), LIMIT, found);
    if ToDelete(f, found, session) {
      var g :| g in found && Belongs(g, session) && g.id == f.id;
      SameId(fibers, f, g);
    }
  }

  /** Clear removes exactly the session's turns, whatever the query answers, exactly when there is room for them. */
  lemma ClearIsWipeIff(fibers: seq<Fiber>, session: string)
    requires UniqueIds(fibers) && OwnTagged(fibers, session)
    ensures (forall found :: Finds(fibers, SessionTag(session), LIMIT, found) ==> Cleared(fibers, found, session) == Wiped(fibers, session))
       <==> Roomy(fibers, session)
  {
    if Roomy(fibers, session) {
      forall found | Finds(fibers, SessionTag(session), LIMIT, found)
        ensures Cleared(fibers, found, session) == Wiped(fibers, session)
      {
        ClearIsWipe(fibers, session, found);
      }
    } else {
      var f :| f in fibers && Belongs(f, session);
      var found := LeavesOut(fibers, SessionTag(session), LIMIT, f);
      LeftOutStays(fibers, session, found, f);
      assert f !in Wiped(fibers, session);
    }
  }

  lemma OwnFound(fibers: seq<Fiber>, session: string, found: seq<Fiber>)
    requires Finds(fibers, SessionTag(session), LIMIT, found) && Roomy(fibers, session) && OwnTagged(fibers, session)
    ensures forall f :: f in Own(fibers, session) ==> f in found
  {
    FoundMembers(fibers, SessionTag(session), LIMIT, found);
  }

  /** Replay gives every turn of the session, whatever the query answers, exactly when there is room for them. */
  lemma ReplayAlwaysCompleteIff(fibers: seq<Fiber>, session: string)
    requires UniqueIds(fibers) && OwnTagged(fibers, session) && InOrder(Own(fibers, session))
    ensures (forall found :: Finds(fibers, SessionTag(session), LIMIT, found) ==> Replay(found, session) == Turns(Own(fibers, session)))
       <==> |Tagged(fibers, SessionTag(session))| <= 1000 || Own(fibers, session) == []
  {
    if |Tagged(fibers, SessionTag(session))| <= LIMIT || Own(fibers, session) == [] {
      forall found | Finds(fibers, SessionTag(session), LIMIT, found)
        ensures Replay(found, session) == Turns(Own(fibers, session))
      {
        FoundMembers(fibers, SessionTag(session), LIMIT, found);
        ReplayCompleteIff(fibers, session, found);
      }
    } else {
      var f := Own(fibers, session)[0];
      var found := LeavesOut(fibers, SessionTag(session), LIMIT, f);
      ReplayCompleteIff(fibers, session, found);
      assert f in Own(fibers, session);
    }
  }

  // ----- whole runs, any sessions interleaved -----

  /** A turn added, a fiber stored by some other part of the program, or a session cleared after what its query found. */
  datatype Op =
    | Say(session: string, kind: string, content: string, id: nat, time: int, stamp: int, autoTags: set<string>, salience: real)
    | Note(fiber: Fiber)
    | Wipe(session: string, found: seq<Fiber>)

  function Built(op: Op): Fiber
    requires op.Say?
  {
    Encoded(op.id, op.session, op.kind, op.content, op.time, op.stamp, op.autoTags, op.salience)
  }

  function Apply(fibers: seq<Fiber>, op: Op): seq<Fiber> {
    match op
    case Say(_, _, _, _, _, _, _, _) => fibers + [Built(op)]
    case Note(f) => fibers + [f]
    case Wipe(s, found) => Cleared(fibers, found, s)
  }

  function After(ops: seq<Op>): seq<Fiber> {
    if ops == [] then [] else Apply(After(ops[..|ops| - 1]), ops[|ops| - 1])
  }

  predicate FreshId(fibers: seq<Fiber>, id: nat) { forall i :: 0 <= i < |fibers| ==> fibers[i].id != id }

  /** Ids are new, other parts of the program name no session, and a clear acts on what the store answered. */
  ghost predicate Happens(fibers: seq<Fiber>, op: Op) {
    match op
    case Say(_, _, _, id, _, _, _, _) => FreshId(fibers, id)
    case Note(f) => FreshId(fibers, f.id) && f.meta.session.None?
    case Wipe(s, found) => Finds(fibers, SessionTag(s), LIMIT, found)
  }

  ghost predicate IsRun(ops: seq<Op>) {
    ops != [] ==> IsRun(ops[..|ops| - 1]) && Happens(After(ops[..|ops| - 1]), ops[|ops| - 1])
  }

  /** A turn as it was said: by the model, by the system, or else by a person. */
  function Spoken(kind: string, content: string): Message {
    match kind
    case "ai" => AI(content)
    case "system" => System(content)
    case _ => Human(content)
  }

  /** What a session should hear: its messages since it was last cleared, of the kinds they were said in. */
  function Said(ops: seq<Op>, session: string): seq<Message> {
    if ops == [] then []
    else
      var front, op := ops[..|ops| - 1], ops[|ops| - 1];
      match op
      case Say(s, kind, content, _, _, _, _, _) =>
        if s == session then Said(front, session) + [Spoken(kind, content)] else Said(front, session)
      case Note(_) => Said(front, session)
      case Wipe(s, _) => if s == session then [] else Said(front, session)
  }

  /** Clocks: time never goes back and write stamps rise. */
  ghost predicate Ticks(ops: seq<Op>) {
    forall i, j :: 0 <= i < j < |ops| && ops[i].Say? && ops[j].Say? ==> ops[i].time <= ops[j].time && ops[i].stamp < ops[j].stamp
  }

  /** There was room for the session each time it was cleared. */
  ghost predicate RoomAtWipes(ops: seq<Op>, session: string) {
    forall i :: 0 <= i < |ops| && ops[i].Wipe? && ops[i].session == session ==> Roomy(After(ops[..i]), session)
  }

  ghost predicate WrittenAt(ops: seq<Op>, f: Fiber) {
    exists i :: 0 <= i < |ops| && ops[i].Say? && Key(f) == Moment(ops[i].time, ops[i].stamp)
  }

  lemma OwnOneMore(fibers: seq<Fiber>, f: Fiber, session: string)
    ensures Own(fibers + [f], session) == Own(fibers, session) + (if Replayable(f, session) then [f] else [])
  {
    var keep := (g: Fiber) => Replayable(g, session);
    FilterAppend(keep, fibers, [f]);
    FilterCons(keep, f, []);
    assert [f] + [] == [f];
  }

  /** Clearing keeps what is left in order. */
  lemma OwnCleared(fibers: seq<Fiber>, found: seq<Fiber>, wiped: string, session: string)
    ensures Own(Cleared(fibers, found, wiped), session) == Filter((f: Fiber) => !ToDelete(f, found, wiped), Own(fibers, session))
  {
    var keep := (f: Fiber) => !ToDelete(f, found, wiped);
    var mine := (f: Fiber) => Replayable(f, session);
    var both := (f: Fiber) => Replayable(f, session) && !ToDelete(f, found, wiped);
    FilterTwice(keep, mine, both, fibers);
    FilterTwice(mine, keep, both, fibers);
  }

  lemma OwnWiped(fibers: seq<Fiber>, session: string)
    ensures Own(Wiped(fibers, session), session) == []
  {
    FilterTwice((f: Fiber) => !Belongs(f, session), (f: Fiber) => Replayable(f, session), (f: Fiber) => false, fibers);
    FilterNone(fibers);
  }

  lemma NextTurn(front: seq<Op>, op: Op, own: seq<Fiber>, f: Fiber)
    requires Ticks(front + [op]) && op.Say? && Key(f) == Moment(op.time, op.stamp)
    requires InOrder(own) && forall g :: g in own ==> WrittenAt(front, g)
    ensures InOrder(own + [f])
  {
    var ops := front + [op];
    forall j | 0 <= j < |own|
      ensures Key(own[j]).time <= Key(f).time && Key(own[j]).stamp < Key(f).stamp
    {
      assert WrittenAt(front, own[j]);
      var i :| 0 <= i < |front| && front[i].Say? && Key(own[j]) == Moment(front[i].time, front[i].stamp);
      assert ops[i] == front[i] && ops[|front|] == op;
    }
  }

  lemma WrittenLater(front: seq<Op>, op: Op, own: seq<Fiber>)
    requires forall f :: f in own ==> WrittenAt(front, f)
    ensures forall f :: f in own ==> WrittenAt(front + [op], f)
    ensures op.Say? ==> WrittenAt(front + [op], Built(op))
  {
    var ops := front + [op];
    assert ops[|front|] == op;
    forall f | f in own
      ensures WrittenAt(ops, f)
    {
      var i :| 0 <= i < |front| && front[i].Say? && Key(f) == Moment(front[i].time, front[i].stamp);
      assert ops[i] == front[i];
    }
  }

  lemma StepUnique(fibers: seq<Fiber>, op: Op)
    requires UniqueIds(fibers) && Happens(fibers, op)
    ensures UniqueIds(Apply(fibers, op))
  {
    if op.Wipe? { FilterUnique((f: Fiber) => !ToDelete(f, op.found, op.session), fibers); }
  }

  lemma {:induction false} RunUnique(ops: seq<Op>)
    requires IsRun(ops)
    ensures UniqueIds(After(ops))
  {
    if ops != [] {
      var n := |ops| - 1;
      RunUnique(ops[..n]);
      StepUnique(After(ops[..n]), ops[n]);
    }
  }

  lemma {:induction false} FilterUnique(keep: Fiber -> bool, fibers: seq<Fiber>)
    requires UniqueIds(fibers)
    ensures UniqueIds(Filter(keep, fibers))
  {
    if fibers != [] {
      var rest := Filter(keep, fibers[1..]);
      FilterUnique(keep, fibers[1..]);
      forall j | 0 <= j < |rest|
        ensures rest[j].id != fibers[0].id
      {
        assert rest[j] in rest;
        var k :| 0 <= k < |fibers[1..]| && fibers[1..][k] == rest[j];
        assert fibers[k + 1] == rest[j];
      }
    }
  }

  ghost predicate Ordered(ops: seq<Op>, own: seq<Fiber>) { InOrder(own) && forall f :: f in own ==> WrittenAt(ops, f) }

  lemma TicksFront(front: seq<Op>, op: Op)
    requires Ticks(front + [op])
    ensures Ticks(front)
  {
    var ops := front + [op];
    assert forall i :: 0 <= i < |front| ==> ops[i] == front[i];
  }

  lemma {:induction false} RunOrdered(ops: seq<Op>, session: string)
    requires Ticks(ops) && IsRun(ops)
    ensures Ordered(ops, Own(After(ops), session))
  {
    if ops != [] {
      var n := |ops| - 1;
      assert ops == ops[..n] + [ops[n]];
      TicksFront(ops[..n], ops[n]);
      RunOrdered(ops[..n], session);
      StepOrdered(ops[..n], ops[n], After(ops[..n]), session);
    }
  }

  lemma StepOrdered(front: seq<Op>, op: Op, fibers: seq<Fiber>, session: string)
    requires Ticks(front + [op]) && Happens(fibers, op) && Ordered(front, Own(fibers, session))
    ensures Ordered(front + [op], Own(Apply(fibers, op), session))
  {
    var own := Own(fibers, session);
    WrittenLater(front, op, own);
    match op
    case Say(s, _, _, _, _, _, _, _) =>
      OwnOneMore(fibers, Built(op), session);
      if s == session { NextTurn(front, op, own, Built(op)); }
    case Note(f) => OwnOneMore(fibers, f, session);
    case Wipe(s, found) =>
      OwnCleared(fibers, found, s, session);
      FilterInOrder(own, (f: Fiber) => !ToDelete(f, found, s));
  }

  /** A session's tag as written is the tag its reader asks for. */
  lemma {:induction false} TagsAgree(ops: seq<Op>, session: string)
    requires IsRun(ops)
    ensures OwnTagged(After(ops), session)
  {
    if ops != [] {
      var front, op := ops[..|ops| - 1], ops[|ops| - 1];
      TagsAgree(front, session);
      if op.Say? { NormalizeTagIdempotent(SESSION_PREFIX + op.session); }
    }
  }

  lemma WipeLeaves(front: seq<Op>, op: Op, session: string)
    requires IsRun(front) && op.Wipe? && Happens(After(front), op) && (op.session == session ==> Roomy(After(front), session))
    ensures Own(Apply(After(front), op), session) == if op.session == session then [] else Own(After(front), session)
  {
    RunUnique(front);
    TagsAgree(front, session);
    if op.session == session {
      ClearIsWipe(After(front), session, op.found);
      OwnWiped(After(front), session);
    } else {
      ClearSparesOthers(After(front), op.session, session, op.found);
    }
  }

  lemma TagTwice(session: string)
    ensures NormalizeTag(SessionTag(session)) == SessionTag(session)
  {
    NormalizeTagIdempotent(SESSION_PREFIX + session);
  }

  lemma LowerTag()
    ensures PyString.Lower(TAG) == TAG
  {
    PyString.LowerKeeps(TAG);
  }

  lemma TrimmedTag()
    ensures PyString.Strip(TAG) == TAG
  {
    assert TAG[0] == 'l' && TAG[|TAG| - 1] == 'n';
    PyString.StripTrimmed(TAG);
  }

  lemma AdapterTag()
    ensures NormalizeTag(TAG) == TAG
  {
    LowerTag();
    TrimmedTag();
  }

  /** The two tags of a turn: the adapter's, and the session's, in lower case and without white space after it. */
  lemma TagsOfTurn(session: string)
    ensures {NormalizeTag(TAG), NormalizeTag(SessionTag(session))} == {"langchain", "lc-session:" + PyString.Lower(PyString.StripRight(session))}
  {
    AdapterTag();
    TagTwice(session);
    SessionTagIs(session);
  }

  /** The stored role is the message's own kind. */
  lemma RoleIsKind(kind: string)
    ensures Role(kind) == kind
  {
  }

  /** What a turn is stored as: its kind, session and verbatim text, its time and write stamp, and the encoder's tags too. */
  lemma StoredTurn(id: nat, session: string, kind: string, content: string, time: int, stamp: int, autoTags: set<string>, salience: real)
    ensures var f := Encoded(id, session, kind, content, time, stamp, autoTags, salience);
      && f.id == id && f.meta == Meta(Some(kind), Some(session), Some(content), Some(stamp))
      && f.timeStart == Some(time) && f.createdAt == time && f.salience == salience && autoTags <= f.tags
  {
    RoleIsKind(kind);
  }

  lemma NoteSpared(fibers: seq<Fiber>, found: seq<Fiber>, session: string, f: Fiber)
    requires UniqueIds(fibers) && Finds(fibers, SessionTag(session), LIMIT, found) && f in fibers && f.meta.session.None?
    ensures f in Cleared(fibers, found, session)
  {
    FoundMembers(fibers, SessionTag(session), LIMIT, found);
    if ToDelete(f, found, session) {
      var g :| g in found && Belongs(g, session) && g.id == f.id;
      SameId(fibers, f, g);
    }
  }

  /** A fiber of no session is there, and no other has its id. */
  predicate Keeps(fibers: seq<Fiber>, f: Fiber) { UniqueIds(fibers) && f in fibers && f.meta.session.None? }

  lemma StepKeeps(fibers: seq<Fiber>, op: Op, f: Fiber)
    requires Keeps(fibers, f) && Happens(fibers, op)
    ensures Keeps(Apply(fibers, op), f)
  {
    StepUnique(fibers, op);
    if op.Wipe? { NoteSpared(fibers, op.found, op.session, f); }
  }

  lemma NoteKeeps(ops: seq<Op>, f: Fiber)
    requires ops != [] && IsRun(ops) && ops[|ops| - 1] == Note(f)
    ensures Keeps(After(ops), f)
  {
    RunUnique(ops);
  }

  lemma {:induction false} NoteStays(ops: seq<Op>, i: nat, f: Fiber)
    requires IsRun(ops) && i < |ops| && ops[i] == Note(f)
    ensures Keeps(After(ops), f)
  {
    var n := |ops| - 1;
    if i == n {
      NoteKeeps(ops, f);
    } else {
      NoteStays(ops[..n], i, f);
      StepKeeps(After(ops[..n]), ops[n], f);
    }
  }

  /** What other parts of the program stored stays, whatever sessions say and clear. */
  lemma NotesKept(ops: seq<Op>, i: nat)
    requires IsRun(ops) && i < |ops| && ops[i].Note?
    ensures ops[i].fiber in After(ops)
  {
    NoteStays(ops, i, ops[i].fiber);
  }

  /** A stored turn is read back as it was said. */
  lemma KindKept(kind: string, content: string)
    ensures FromStored(Role(kind), content) == Spoken(kind, content)
  {
  }

  lemma BuiltTurn(op: Op)
    requires op.Say?
    ensures Turn(Built(op)) == Spoken(op.kind, op.content)
    ensures forall session :: Replayable(Built(op), session) <==> op.session == session
  {
    KindKept(op.kind, op.content);
  }

  lemma SayAdds(fibers: seq<Fiber>, op: Op, session: string)
    requires op.Say?
    ensures Turns(Own(Apply(fibers, op), session))
         == Turns(Own(fibers, session)) + (if op.session == session then [Spoken(op.kind, op.content)] else [])
  {
    BuiltTurn(op);
    OneMoreTurn(fibers, Built(op), session);
  }

  lemma {:induction false} RunSaid(ops: seq<Op>, session: string)
    requires IsRun(ops) && RoomAtWipes(ops, session)
    ensures Turns(Own(After(ops), session)) == Said(ops, session)
  {
    if ops != [] {
      var n := |ops| - 1;
      var front, op := ops[..n], ops[n];
      forall i | 0 <= i < n ensures ops[..i] == front[..i] {}
      RunSaid(front, session);
      match op
      case Say(_, _, _, _, _, _, _, _) => SayAdds(After(front), op, session);
      case Note(f) => OwnOneMore(After(front), f, session);
      case Wipe(_, _) => WipeLeaves(front, op, session);
    }
  }

  /**
   After any interleaving of sessions, as long as there was room for this one whenever it was cleared and now,
   replay gives exactly the messages said in it since it was last cleared, in the order they were said.
   */
  lemma ReplayRoundTrip(ops: seq<Op>, session: string, found: seq<Fiber>)
    requires Ticks(ops) && IsRun(ops) && RoomAtWipes(ops, session)
    requires Finds(After(ops), SessionTag(session), LIMIT, found) && Roomy(After(ops), session)
    ensures Replay(found, session) == Said(ops, session)
  {
    RunUnique(ops);
    RunOrdered(ops, session);
    RunSaid(ops, session);
    TagsAgree(ops, session);
    OwnFound(After(ops), session, found);
    ReplayCompleteIff(After(ops), session, found);
  }
}
