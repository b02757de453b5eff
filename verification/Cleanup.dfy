/**
 Cleaning up duplicate summary fibers: cluster identity, duplicate groups, and the deleting loop.  SHA-256 is
 a parameter; which deletions the storage refuses, and which neuron calls raise, are inputs.
 */
module Cleanup {
  import opened Prelude
  import opened Grouping
  import Lines
  import Order
  import PyString

  datatype Fiber = Fiber(
    id: nat,
    createdAt: int,
    marker: Option<string>,
    clusterKey: Option<string>,
    sources: Option<seq<string>>,
    anchor: Option<nat>)

  const SUMMARY_MARKER := "summary_fiber"
  const LOAD_LIMIT := 100000

  // ----- cluster identity -----

  function Joined(parts: seq<string>): string { PyString.Join("|", parts) }

  function Identity(sources: seq<string>): string { Joined(Order.Sort(Order.StringLeq, sources)) }

  function ClusterKey(hash: string -> string, sources: seq<string>): string { hash(Identity(sources)) }

  function GroupKey(hash: string -> string, f: Fiber): Option<string> {
    if f.clusterKey.Some? && f.clusterKey.value != "" then f.clusterKey
    else if f.sources.Some? && f.sources.value != [] then Some(ClusterKey(hash, f.sources.value))
    else None
  }

  /** The key a fiber is grouped by: an empty one is none. */
  function Key(hash: string -> string): Fiber -> Option<string> {
    (f: Fiber) => if GroupKey(hash, f) == Some("") then None else GroupKey(hash, f)
  }

  /** The key stored with a summary, or else the hash of its sources' identity; nothing and the empty text are no key. */
  lemma KeyIs(hash: string -> string, f: Fiber)
    ensures f.clusterKey.Some? && f.clusterKey.value != "" ==> Key(hash)(f) == f.clusterKey
    ensures (f.clusterKey == None || f.clusterKey == Some("")) && (f.sources == None || f.sources == Some([])) ==> Key(hash)(f) == None
    ensures (f.clusterKey == None || f.clusterKey == Some("")) && f.sources.Some? && f.sources.value != [] ==>
      var key := hash(Identity(f.sources.value)); Key(hash)(f) == if key == "" then None else Some(key)
  {
  }

  /** A summary from before keys were stored meets the copies that have one, in whatever order it lists its sources. */
  lemma OldMeetsNew(hash: string -> string, f: Fiber, g: Fiber, sources: seq<string>)
    requires (f.clusterKey == None || f.clusterKey == Some("")) && f.sources.Some? && f.sources.value != []
    requires multiset(sources) == multiset(f.sources.value) && hash(Identity(sources)) != "" && g.clusterKey == Some(hash(Identity(sources)))
    ensures Key(hash)(f) == Key(hash)(g) == g.clusterKey
  {
    KeyIs(hash, f);
    KeyIs(hash, g);
    IdentityIgnoresOrder(sources, f.sources.value);
  }

  /** The order in which a summary lists its sources does not matter. */
  lemma IdentityIgnoresOrder(sources: seq<string>, others: seq<string>)
    requires multiset(sources) == multiset(others)
    ensures Identity(sources) == Identity(others)
  {
    Order.StringOrder();
    Order.SortPermutation(Order.StringLeq, sources, others);
  }

  lemma {:induction false} JoinedLines(parts: seq<string>)
    requires parts != []
    ensures Joined(parts) + "|" == Lines.Join(parts, '|')
  {
    if |parts| == 1 {
      assert parts[1..] == [];
      assert Lines.Join(parts, '|') == parts[0] + "|" + [];
    } else {
      JoinedLines(parts[1..]);
      Lines.Regroup(parts[0], "|", Joined(parts[1..]), "|");
    }
  }

  // ----- when two clusters look the same -----

  /** What an id is cut into at its bars. */
  function Pieces(id: string): seq<string> { Lines.Complete(id + "|", '|') }

  function AllPieces(ids: seq<string>): seq<string> { if ids == [] then [] else Pieces(ids[0]) + AllPieces(ids[1..]) }

  lemma PiecesRejoin(id: string)
    ensures Lines.Join(Pieces(id), '|') == id + "|" && Lines.SeparatorFree(Pieces(id), '|')
  {
    var tail := Lines.Tail(id, '|');
    Lines.CutInverse(id, '|');
    Lines.CutAppend(id, "|", '|');
    Lines.CutLine(tail, '|');
    Lines.CutInverse(id + "|", '|');
    assert Lines.Join(Pieces(id), '|') + [] == Lines.Join(Pieces(id), '|');
  }

  lemma {:induction false} AllPiecesRejoin(ids: seq<string>)
    ensures Lines.Join(AllPieces(ids), '|') == Lines.Join(ids, '|') && Lines.SeparatorFree(AllPieces(ids), '|')
  {
    if ids != [] {
      PiecesRejoin(ids[0]);
      AllPiecesRejoin(ids[1..]);
      Lines.JoinAppend(Pieces(ids[0]), AllPieces(ids[1..]), '|');
    }
  }

  lemma JoinedIff(parts: seq<string>, others: seq<string>)
    requires parts != [] && others != []
    ensures Joined(parts) == Joined(others) <==> AllPieces(parts) == AllPieces(others)
  {
    JoinedLines(parts);
    JoinedLines(others);
    AllPiecesRejoin(parts);
    AllPiecesRejoin(others);
    Lines.CutJoin(AllPieces(parts), [], '|');
    Lines.CutJoin(AllPieces(others), [], '|');
    assert Lines.Join(parts, '|') + [] == Lines.Join(parts, '|') && Lines.Join(others, '|') + [] == Lines.Join(others, '|');
    Unended(Joined(parts), Joined(others));
  }

  lemma Unended(a: string, b: string)
    ensures a + "|" == b + "|" <==> a == b
  {
    assert (a + "|")[..|a|] == a && (b + "|")[..|b|] == b;
    if a + "|" == b + "|" { assert |a + "|"| == |b + "|"|; }
  }

  lemma SortedSame(ids: seq<string>)
    ensures multiset(Order.Sort(Order.StringLeq, ids)) == multiset(ids) && |Order.Sort(Order.StringLeq, ids)| == |ids|
  {
    Order.SortElements(Order.StringLeq, ids);
    assert |multiset(ids)| == |ids| && |multiset(Order.Sort(Order.StringLeq, ids))| == |Order.Sort(Order.StringLeq, ids)|;
  }

  /** Two clusters have one identity exactly when their sorted ids, cut at every bar, give the same pieces. */
  lemma IdentityIff(sources: seq<string>, others: seq<string>)
    requires sources != [] && others != []
    ensures Identity(sources) == Identity(others) <==>
      AllPieces(Order.Sort(Order.StringLeq, sources)) == AllPieces(Order.Sort(Order.StringLeq, others))
  {
    SortedSame(sources);
    SortedSame(others);
    JoinedIff(Order.Sort(Order.StringLeq, sources), Order.Sort(Order.StringLeq, others));
  }

  ghost predicate BarFree(ids: seq<string>) { forall i :: 0 <= i < |ids| ==> '|' !in ids[i] }

  lemma {:induction false} WholePieces(ids: seq<string>)
    requires BarFree(ids)
    ensures AllPieces(ids) == ids
  {
    if ids != [] {
      Lines.CutLine(ids[0], '|');
      WholePieces(ids[1..]);
      assert ids == [ids[0]] + ids[1..];
    }
  }

  lemma SortedBarFree(ids: seq<string>)
    requires BarFree(ids)
    ensures BarFree(Order.Sort(Order.StringLeq, ids))
  {
    SortedSame(ids);
    var s := Order.Sort(Order.StringLeq, ids);
    forall i | 0 <= i < |s|
      ensures '|' !in s[i]
    {
      assert s[i] in multiset(s);
      assert s[i] in ids;
    }
  }

  /** Where ids hold no bar that is: exactly when they have the same sources. */
  lemma IdentityExact(sources: seq<string>, others: seq<string>)
    requires sources != [] && others != [] && BarFree(sources) && BarFree(others)
    ensures Identity(sources) == Identity(others) <==> multiset(sources) == multiset(others)
  {
    SortedBarFree(sources);
    SortedBarFree(others);
    WholePieces(Order.Sort(Order.StringLeq, sources));
    WholePieces(Order.Sort(Order.StringLeq, others));
    IdentityIff(sources, others);
    SortedSame(sources);
    SortedSame(others);
    if multiset(sources) == multiset(others) { IdentityIgnoresOrder(sources, others); }
  }

  lemma SortOne(a: string)
    ensures Order.Sort(Order.StringLeq, [a]) == [a]
  {
    assert [a][1..] == [];
    assert Order.Sort(Order.StringLeq, []) == [];
  }

  lemma SortTwo(a: string, b: string)
    ensures Order.Sort(Order.StringLeq, [a, b]) == if Order.StringLeq(a, b) then [a, b] else [b, a]
  {
    SortOne(b);
    assert [a, b][1..] == [b];
    assert Order.Insert(Order.StringLeq, a, []) == [a] && [b][1..] == [];
  }

  lemma PiecesOfOne(id: string)
    ensures AllPieces([id]) == Pieces(id)
  {
    var none: seq<string> := [id][1..];
    assert none == [] && AllPieces(none) == [];
    assert Pieces(id) + [] == Pieces(id);
  }

  lemma TwoPieces(a: string, b: string)
    requires '|' !in a && '|' !in b
    ensures AllPieces([a + ("|" + b)]) == [a, b]
  {
    var id, rest := a + ("|" + b), b + "|";
    PiecesOfOne(id);
    Assoc(a, "|" + b, "|");
    Assoc("|", b, "|");
    Assoc(a, "|", rest);
    Lines.CutFirst(a, rest, '|');
    Lines.CutLine(b, '|');
    assert [a] + [b] == [a, b];
  }

  /** For instance, an id with one bar is taken for its two halves exactly when these are in order. */
  lemma BarCollidesIff(a: string, b: string)
    requires '|' !in a && '|' !in b
    ensures Identity([a + ("|" + b)]) == Identity([a, b]) <==> Order.StringLeq(a, b)
    ensures multiset([a + ("|" + b)]) != multiset([a, b])
  {
    var id := a + ("|" + b);
    SortOne(id);
    SortTwo(a, b);
    TwoPieces(a, b);
    WholePieces(Order.Sort(Order.StringLeq, [a, b]));
    IdentityIff([id], [a, b]);
    OneOrTwo(id, a, b);
    if [a, b] == [b, a] { Order.StringTotal(a, a); }
  }

  lemma OneOrTwo(id: string, a: string, b: string)
    ensures multiset([id]) != multiset([a, b]) && ([a, b] == [b, a] ==> a == b)
  {
    assert |multiset([id])| == 1 && |multiset([a, b])| == 2;
    assert [a, b][0] == a && [b, a][0] == b;
  }

  // ----- who goes -----

  predicate Older(a: Fiber, b: Fiber) { a.createdAt <= b.createdAt }

  predicate Newer(a: Fiber, b: Fiber) { a.createdAt >= b.createdAt }

  predicate IsSummary(f: Fiber) { f.marker == Some(SUMMARY_MARKER) }

  /** The newest fibers up to the limit, of which the summaries. */
  function Load(fibers: seq<Fiber>): seq<Fiber> {
    Filter(IsSummary, Take(Order.Sort(Newer, fibers), LOAD_LIMIT))
  }

  /** Everything except the oldest member. */
  function Victims(group: seq<Fiber>): seq<Fiber> {
    if group == [] then [] else Order.Sort(Older, group)[1..]
  }

  function Keeper(group: seq<Fiber>): Fiber
    requires group != []
  {
    SortLength(group);
    Order.Sort(Older, group)[0]
  }

  lemma {:induction false} SortLength(group: seq<Fiber>)
    ensures |Order.Sort(Older, group)| == |group|
  {
    Order.SortElements(Older, group);
    assert |multiset(group)| == |group| && |multiset(Order.Sort(Older, group))| == |Order.Sort(Older, group)|;
  }

  /** The victims of the groups of these keys, in turn. */
  function Doomed(hash: string -> string, summaries: seq<Fiber>, keys: seq<string>): seq<Fiber> {
    if keys == [] then []
    else Doomed(hash, summaries, keys[..|keys| - 1]) + Victims(Members(Key(hash), summaries, keys[|keys| - 1]))
  }

  function AllDoomed(hash: string -> string, summaries: seq<Fiber>): seq<Fiber> {
    Doomed(hash, summaries, FirstSeen(Key(hash), summaries))
  }

  // ----- the store and the loop -----

  /** The fiber is deleted by its id unless the storage refuses. */
  predicate Goes(f: Fiber, victims: seq<Fiber>, refused: set<nat>) {
    f.id !in refused && exists v :: v in victims && v.id == f.id
  }

  function Survivors(fibers: seq<Fiber>, victims: seq<Fiber>, refused: set<nat>): seq<Fiber> {
    Filter((f: Fiber) => !Goes(f, victims, refused), fibers)
  }

  class Storage {
    var fibers: seq<Fiber>
    /** Neuron id, and whether consolidation made it as a summary. */
    var neurons: map<nat, bool>
    const refused: set<nat>
    const stuck: set<nat>

    constructor (fibers: seq<Fiber>, neurons: map<nat, bool>, refused: set<nat>, stuck: set<nat>)
      ensures this.fibers == fibers && this.neurons == neurons && this.refused == refused && this.stuck == stuck
    {
      this.fibers, this.neurons, this.refused, this.stuck := fibers, neurons, refused, stuck;
    }

    method DeleteFiber(id: nat) returns (ok: bool)
      modifies `fibers
      ensures ok <==> id !in refused && exists f :: f in old(fibers) && f.id == id
      ensures fibers == if ok then Filter((f: Fiber) => f.id != id, old(fibers)) else old(fibers)
    {
      ok := id !in refused && exists f :: f in fibers && f.id == id;
      if ok { fibers := Filter((f: Fiber) => f.id != id, fibers); }
    }

    /** The neuron that heads a deleted summary goes too; an exception is reported and passed over. */
    method DeleteConcept(anchor: Option<nat>) returns (deleted: bool)
      modifies `neurons
      ensures deleted <==> anchor.Some? && anchor.value !in stuck && anchor.value in old(neurons) && old(neurons)[anchor.value]
      ensures neurons == if deleted then old(neurons) - {anchor.value} else old(neurons)
    {
      deleted := anchor.Some? && anchor.value !in stuck && anchor.value in neurons && neurons[anchor.value];
      if deleted { neurons := neurons - {anchor.value}; }
    }
  }

  predicate UniqueIds(fibers: seq<Fiber>) {
    forall i, j :: 0 <= i < j < |fibers| ==> fibers[i].id != fibers[j].id
  }

  /** Some fiber of those that the storage deletes is headed by this neuron. */
  ghost predicate Heads(n: nat, victims: seq<Fiber>, refused: set<nat>) {
    exists v :: v in victims && v.id !in refused && v.anchor == Some(n)
  }

  /** Only concept neurons of deleted victims may be gone, and none whose deletion raises. */
  ghost predicate OnlyConceptsGone(before: map<nat, bool>, after: map<nat, bool>, victims: seq<Fiber>, refused: set<nat>, stuck: set<nat>) {
    && (forall n :: n in after ==> n in before && after[n] == before[n])
    && (forall n :: n in before && n !in after ==> before[n] && n !in stuck && Heads(n, victims, refused))
  }

  ghost predicate AllConceptsGone(before: map<nat, bool>, after: map<nat, bool>, victims: seq<Fiber>, refused: set<nat>, stuck: set<nat>) {
    forall n :: n in before && before[n] && n !in stuck && Heads(n, victims, refused) ==> n !in after
  }

  /** Different fibers of the store. */
  ghost predicate Present(fibers: seq<Fiber>, victims: seq<Fiber>) { UniqueIds(victims) && forall v :: v in victims ==> v in fibers }

  /** The victims are gone unless refused, and with them their concept neurons; both are counted. */
  ghost predicate Deleted(fibers: seq<Fiber>, now: seq<Fiber>, neurons: map<nat, bool>, neuronsNow: map<nat, bool>, victims: seq<Fiber>,
                          refused: set<nat>, stuck: set<nat>, deleted: nat, gone: nat)
  {
    && now == Survivors(fibers, victims, refused)
    && (UniqueIds(fibers) ==> |now| + deleted == |fibers|)
    && gone <= deleted && |neuronsNow| + gone == |neurons|
    && OnlyConceptsGone(neurons, neuronsNow, victims, refused, stuck)
    && (UniqueIds(fibers) && Present(fibers, victims) ==> AllConceptsGone(neurons, neuronsNow, victims, refused, stuck))
  }

  lemma HeadsMore(victims: seq<Fiber>, more: seq<Fiber>, refused: set<nat>)
    ensures forall n :: Heads(n, victims + more, refused) <==> Heads(n, victims, refused) || Heads(n, more, refused)
  {
    forall n
      ensures Heads(n, victims + more, refused) <==> Heads(n, victims, refused) || Heads(n, more, refused)
    {
      assert forall v :: v in victims + more <==> v in victims || v in more;
    }
  }

  lemma ConceptsTogether(a: map<nat, bool>, b: map<nat, bool>, c: map<nat, bool>, victims: seq<Fiber>, more: seq<Fiber>, refused: set<nat>,
                         stuck: set<nat>)
    requires OnlyConceptsGone(a, b, victims, refused, stuck) && OnlyConceptsGone(b, c, more, refused, stuck)
    ensures OnlyConceptsGone(a, c, victims + more, refused, stuck)
    ensures AllConceptsGone(a, b, victims, refused, stuck) && AllConceptsGone(b, c, more, refused, stuck) ==>
      AllConceptsGone(a, c, victims + more, refused, stuck)
  {
    HeadsMore(victims, more, refused);
  }

  /** Who is still to be deleted is still there. */
  lemma PresentLater(fibers: seq<Fiber>, victims: seq<Fiber>, more: seq<Fiber>, refused: set<nat>)
    requires Present(fibers, victims + more)
    ensures Present(fibers, victims) && Present(Survivors(fibers, victims, refused), more)
  {
    var all := victims + more;
    forall i, j | 0 <= i < j < |victims| ensures victims[i].id != victims[j].id { assert all[i].id != all[j].id; }
    forall i, j | 0 <= i < j < |more| ensures more[i].id != more[j].id { assert all[|victims| + i].id != all[|victims| + j].id; }
    forall v | v in victims ensures v in fibers { assert v in all; }
    forall v | v in more
      ensures v in Survivors(fibers, victims, refused)
    {
      assert v in all;
      var j :| 0 <= j < |more| && more[j] == v;
      if u :| u in victims && u.id == v.id {
        var i :| 0 <= i < |victims| && victims[i] == u;
        assert all[i].id != all[|victims| + j].id;
      }
    }
  }

  lemma DeletedTogether(fibers: seq<Fiber>, now: seq<Fiber>, later: seq<Fiber>, a: map<nat, bool>, b: map<nat, bool>, c: map<nat, bool>,
                        victims: seq<Fiber>, more: seq<Fiber>, refused: set<nat>, stuck: set<nat>, d: nat, g: nat, e: nat, h: nat)
    requires Deleted(fibers, now, a, b, victims, refused, stuck, d, g) && Deleted(now, later, b, c, more, refused, stuck, e, h)
    ensures Deleted(fibers, later, a, c, victims + more, refused, stuck, d + e, g + h)
  {
    SurvivorsMore(fibers, victims, more, refused);
    ConceptsTogether(a, b, c, victims, more, refused, stuck);
    if UniqueIds(fibers) {
      SurvivorsUnique(fibers, victims, refused);
      if Present(fibers, victims + more) { PresentLater(fibers, victims, more, refused); }
    }
  }

  lemma NothingDeleted(fibers: seq<Fiber>, neurons: map<nat, bool>, refused: set<nat>, stuck: set<nat>)
    ensures Deleted(fibers, fibers, neurons, neurons, [], refused, stuck, 0, 0)
  {
    SurvivorsNone(fibers, refused);
  }

  lemma {:induction false} RemoveOne(fibers: seq<Fiber>, id: nat)
    requires UniqueIds(fibers)
    ensures |Filter((f: Fiber) => f.id != id, fibers)| + (if exists f :: f in fibers && f.id == id then 1 else 0) == |fibers|
  {
    if fibers != [] {
      var rest := fibers[1..];
      RemoveOne(rest, id);
      assert fibers == [fibers[0]] + rest;
      if fibers[0].id == id {
        forall f | f in rest ensures f.id != id {
          var k :| 0 <= k < |rest| && rest[k] == f;
          assert fibers[k + 1] == f;
        }
      }
      if exists f :: f in fibers && f.id == id { var f :| f in fibers && f.id == id; assert f == fibers[0] || f in rest; }
    }
  }

  lemma OneDeleted(fibers: seq<Fiber>, now: seq<Fiber>, victim: Fiber, refused: set<nat>, ok: bool)
    requires ok <==> victim.id !in refused && exists f :: f in fibers && f.id == victim.id
    requires now == if ok then Filter((f: Fiber) => f.id != victim.id, fibers) else fibers
    ensures now == Survivors(fibers, [victim], refused)
    ensures UniqueIds(fibers) ==> |now| + (if ok then 1 else 0) == |fibers|
  {
    SurvivorsNone(fibers, refused);
    SurvivorsOneMore(fibers, [], victim, refused);
    assert [] + [victim] == [victim];
    if UniqueIds(fibers) { RemoveOne(fibers, victim.id); }
  }

  /** A refused deletion leaves the concept neuron as well. */
  method DeleteOne(store: Storage, victim: Fiber) returns (ok: bool, gone: bool)
    modifies store
    ensures Deleted(old(store.fibers), store.fibers, old(store.neurons), store.neurons, [victim], store.refused, store.stuck,
                    if ok then 1 else 0, if gone then 1 else 0)
  {
    gone := false;
    ok := store.DeleteFiber(victim.id);
    OneDeleted(old(store.fibers), store.fibers, victim, store.refused, ok);
    assert victim in [victim];
    if ok { gone := store.DeleteConcept(victim.anchor); }
    assert Present(old(store.fibers), [victim]) && !ok ==> victim.id in store.refused;
  }

  /** Deletes the victims one by one: each is counted as deleted or as failed. */
  method DeleteVictims(store: Storage, victims: seq<Fiber>) returns (deleted: nat, neurons: nat, failed: nat)
    modifies store
    ensures Deleted(old(store.fibers), store.fibers, old(store.neurons), store.neurons, victims, store.refused, store.stuck, deleted, neurons)
    ensures deleted + failed == |victims|
  {
    deleted, neurons, failed := 0, 0, 0;
    ghost var before, start := store.fibers, store.neurons;
    NothingDeleted(before, start, store.refused, store.stuck);
    for i := 0 to |victims|
      invariant Deleted(before, store.fibers, start, store.neurons, victims[..i], store.refused, store.stuck, deleted, neurons)
      invariant deleted + failed == i
    {
      var victim := victims[i];
      ghost var had, kept := store.neurons, store.fibers;
      assert victims[..i + 1] == victims[..i] + [victim];
      var ok, gone := DeleteOne(store, victim);
      DeletedTogether(before, kept, store.fibers, start, had, store.neurons, victims[..i], [victim], store.refused, store.stuck,
                      deleted, neurons, if ok then 1 else 0, if gone then 1 else 0);
      if ok {
        deleted := deleted + 1;
        if gone { neurons := neurons + 1; }
      } else {
        failed := failed + 1;
      }
    }
    assert victims[..|victims|] == victims;
  }

  lemma SurvivorsNone(fibers: seq<Fiber>, refused: set<nat>)
    ensures Survivors(fibers, [], refused) == fibers
  {
    FilterAll((f: Fiber) => !Goes(f, [], refused), fibers);
  }

  lemma SurvivorsOneMore(fibers: seq<Fiber>, victims: seq<Fiber>, v: Fiber, refused: set<nat>)
    ensures var kept := Survivors(fibers, victims, refused);
      && Survivors(fibers, victims + [v], refused) == (if v.id in refused then kept else Filter((f: Fiber) => f.id != v.id, kept))
      && ((forall f :: f in kept ==> f.id != v.id) ==> Survivors(fibers, victims + [v], refused) == kept)
  {
    var p := (f: Fiber) => !Goes(f, victims, refused);
    var q := (f: Fiber) => v.id in refused || f.id != v.id;
    var kept := Filter(p, fibers);
    FilterTwice(p, q, (f: Fiber) => !Goes(f, victims + [v], refused), fibers);
    if v.id in refused { FilterAll(q, kept); } else { FilterSame(q, (f: Fiber) => f.id != v.id, kept); }
    if forall f :: f in kept ==> f.id != v.id { FilterAll(q, kept); }
  }

  /** A group of one has no victims. */
  method CleanGroup(store: Storage, group: seq<Fiber>) returns (deleted: nat, neurons: nat, failed: nat)
    modifies store
    ensures Deleted(old(store.fibers), store.fibers, old(store.neurons), store.neurons, Victims(group), store.refused, store.stuck,
                    deleted, neurons)
    ensures deleted + failed == |Victims(group)|
  {
    if |group| > 1 {
      deleted, neurons, failed := DeleteVictims(store, Victims(group));
    } else {
      SortLength(group);
      NothingDeleted(store.fibers, store.neurons, store.refused, store.stuck);
      deleted, neurons, failed := 0, 0, 0;
    }
  }

  /** `--apply`: the announced number of victims, and what became of them. */
  method Apply(store: Storage, hash: string -> string) returns (announced: nat, deleted: nat, neurons: nat, failed: nat)
    modifies store
    ensures Deleted(old(store.fibers), store.fibers, old(store.neurons), store.neurons, AllDoomed(hash, Load(old(store.fibers))),
                    store.refused, store.stuck, deleted, neurons)
    ensures announced == |AllDoomed(hash, Load(old(store.fibers)))| == deleted + failed
    ensures UniqueIds(old(store.fibers)) ==>
      AllConceptsGone(old(store.neurons), store.neurons, AllDoomed(hash, Load(old(store.fibers))), store.refused, store.stuck)
  {
    var summaries := Load(store.fibers);
    var order, groups := GroupBy(Key(hash), summaries);
    ghost var before, start := store.fibers, store.neurons;
    announced, deleted, neurons, failed := 0, 0, 0, 0;
    NothingDeleted(before, start, store.refused, store.stuck);
    ghost var done: seq<Fiber> := [];
    for i := 0 to |order|
      invariant done == Doomed(hash, summaries, order[..i])
      invariant Deleted(before, store.fibers, start, store.neurons, done, store.refused, store.stuck, deleted, neurons)
      invariant announced == |done| == deleted + failed
    {
      ghost var had, kept := store.neurons, store.fibers;
      var group := groups[order[i]];
      DoomedOneMore(hash, summaries, order, i);
      var d, n, x := CleanGroup(store, group);
      DeletedTogether(before, kept, store.fibers, start, had, store.neurons, done, Victims(group), store.refused, store.stuck,
                      deleted, neurons, d, n);
      done := done + Victims(group);
      announced, deleted, neurons, failed := announced + |Victims(group)|, deleted + d, neurons + n, failed + x;
    }
    assert order[..|order|] == order;
    if UniqueIds(before) { DoomedPresent(hash, before, order); }
  }

  lemma DoomedOneMore(hash: string -> string, summaries: seq<Fiber>, keys: seq<string>, i: nat)
    requires i < |keys|
    ensures Doomed(hash, summaries, keys[..i + 1])
         == Doomed(hash, summaries, keys[..i]) + Victims(Members(Key(hash), summaries, keys[i]))
  {
    assert keys[..i + 1][..i] == keys[..i];
  }

  lemma SurvivorsMore(fibers: seq<Fiber>, first: seq<Fiber>, more: seq<Fiber>, refused: set<nat>)
    ensures Survivors(Survivors(fibers, first, refused), more, refused) == Survivors(fibers, first + more, refused)
  {
    FilterTwice((f: Fiber) => !Goes(f, first, refused), (f: Fiber) => !Goes(f, more, refused),
                (f: Fiber) => !Goes(f, first + more, refused), fibers);
  }

  // ----- what is left -----

  lemma InConcat<T>(a: seq<T>, b: seq<T>, x: T)
    ensures x in a + b <==> x in a || x in b
  {
  }

  ghost predicate SomeVictim(hash: string -> string, summaries: seq<Fiber>, keys: seq<string>, f: Fiber) {
    exists c :: c in keys && IsVictim(hash, summaries, c, f)
  }

  lemma SomeVictimSplit(hash: string -> string, summaries: seq<Fiber>, keys: seq<string>, f: Fiber)
    requires keys != []
    ensures SomeVictim(hash, summaries, keys, f) <==>
      SomeVictim(hash, summaries, keys[..|keys| - 1], f) || IsVictim(hash, summaries, keys[|keys| - 1], f)
  {
    var front, last := keys[..|keys| - 1], keys[|keys| - 1];
    assert keys == front + [last];
    forall c ensures c in keys <==> c in front || c == last {}
  }

  lemma DoomedSplit(hash: string -> string, summaries: seq<Fiber>, keys: seq<string>, f: Fiber)
    requires keys != []
    ensures f in Doomed(hash, summaries, keys) <==>
      f in Doomed(hash, summaries, keys[..|keys| - 1]) || IsVictim(hash, summaries, keys[|keys| - 1], f)
  {
    InConcat(Doomed(hash, summaries, keys[..|keys| - 1]), Victims(Members(Key(hash), summaries, keys[|keys| - 1])), f);
  }

  lemma {:induction false} DoomedAre(hash: string -> string, summaries: seq<Fiber>, keys: seq<string>, f: Fiber)
    ensures f in Doomed(hash, summaries, keys) <==> SomeVictim(hash, summaries, keys, f)
  {
    if keys != [] {
      DoomedSplit(hash, summaries, keys, f);
      SomeVictimSplit(hash, summaries, keys, f);
      DoomedAre(hash, summaries, keys[..|keys| - 1], f);
    }
  }

  predicate IsVictim(hash: string -> string, summaries: seq<Fiber>, c: string, f: Fiber) {
    f in Victims(Members(Key(hash), summaries, c))
  }

  lemma OlderOrder()
    ensures Order.TotalPreorder(Older) && Order.TotalPreorder(Newer)
  {
  }

  /** A group is its keeper, which is no younger than any member, and its victims. */
  lemma GroupSplit(group: seq<Fiber>)
    requires group != [] && Distinct(group)
    ensures forall f :: f in group <==> f == Keeper(group) || f in Victims(group)
    ensures Keeper(group) !in Victims(group)
    ensures forall f :: f in group ==> Keeper(group).createdAt <= f.createdAt
  {
    var s := Order.Sort(Older, group);
    OlderOrder();
    Order.SortCorrect(Older, group);
    SamePiecesDistinct(group, s);
    assert s == [s[0]] + s[1..];
    forall f | f in group
      ensures Keeper(group).createdAt <= f.createdAt
    {
      var i :| 0 <= i < |s| && s[i] == f;
      if i > 0 { assert Older(s[0], s[i]); }
    }
  }

  lemma IdsDistinct(fibers: seq<Fiber>)
    requires UniqueIds(fibers)
    ensures Distinct(fibers)
  {
  }

  lemma SortedOnce(fibers: seq<Fiber>)
    requires UniqueIds(fibers)
    ensures var s := Order.Sort(Newer, fibers);
      Distinct(s) && Order.Sorted(Newer, s) && |s| == |fibers| && forall f :: f in s <==> f in fibers
  {
    var s := Order.Sort(Newer, fibers);
    OlderOrder();
    Order.SortCorrect(Newer, fibers);
    IdsDistinct(fibers);
    SamePiecesDistinct(fibers, s);
    assert |multiset(fibers)| == |fibers| && |multiset(s)| == |s|;
    forall f ensures f in s <==> f in fibers { assert f in s <==> f in multiset(s); }
  }

  /** Loading finds summaries, each once; with at most the limit it finds them all. */
  lemma LoadSome(fibers: seq<Fiber>)
    requires UniqueIds(fibers)
    ensures Distinct(Load(fibers)) && forall f :: f in Load(fibers) ==> f in fibers && IsSummary(f)
    ensures |fibers| <= 100000 ==> forall f :: f in fibers && IsSummary(f) ==> f in Load(fibers)
  {
    SortedOnce(fibers);
    FilterDistinct(IsSummary, Take(Order.Sort(Newer, fibers), LOAD_LIMIT));
  }

  /** What is not loaded is no younger than anything that is. */
  lemma UnloadedOlder(fibers: seq<Fiber>, f: Fiber, g: Fiber)
    requires UniqueIds(fibers) && f in fibers && IsSummary(f) && f !in Load(fibers) && g in Load(fibers)
    ensures f.createdAt <= g.createdAt
  {
    var s := Order.Sort(Newer, fibers);
    SortedOnce(fibers);
    var taken := Take(s, LOAD_LIMIT);
    var i :| 0 <= i < |s| && s[i] == f;
    var j :| 0 <= j < |taken| && taken[j] == g;
    assert forall k :: 0 <= k < |taken| ==> taken[k] == s[k];
    assert Newer(s[j], s[i]);
  }

  lemma SameId(fibers: seq<Fiber>, f: Fiber, g: Fiber)
    requires UniqueIds(fibers) && f in fibers && g in fibers && f.id == g.id
    ensures f == g
  {
    var i :| 0 <= i < |fibers| && fibers[i] == f;
    var j :| 0 <= j < |fibers| && fibers[j] == g;
  }

  lemma MemberOf(hash: string -> string, summaries: seq<Fiber>, f: Fiber, c: string)
    requires Distinct(summaries)
    ensures f in Members(Key(hash), summaries, c) <==> f in summaries && Key(hash)(f) == Some(c)
    ensures Distinct(Members(Key(hash), summaries, c))
  {
    MembersDistinct(Key(hash), summaries, c);
  }

  lemma DoomedMember(hash: string -> string, summaries: seq<Fiber>, f: Fiber)
    requires Distinct(summaries)
    ensures f in AllDoomed(hash, summaries) <==>
      && f in summaries && Key(hash)(f).Some?
      && f != Keeper(Members(Key(hash), summaries, Key(hash)(f).value))
  {
    var keys := FirstSeen(Key(hash), summaries);
    DoomedAre(hash, summaries, keys, f);
    forall c
      ensures IsVictim(hash, summaries, c, f) <==>
        f in summaries && Key(hash)(f) == Some(c) && Members(Key(hash), summaries, c) != [] && f != Keeper(Members(Key(hash), summaries, c))
    {
      MemberOf(hash, summaries, f, c);
      if Members(Key(hash), summaries, c) != [] { GroupSplit(Members(Key(hash), summaries, c)); }
    }
    if f in summaries && Key(hash)(f).Some? {
      var c := Key(hash)(f).value;
      MemberOf(hash, summaries, f, c);
      MembersNonempty(Key(hash), summaries, c);
    }
  }

  lemma IdsApart(fibers: seq<Fiber>, f: Fiber, g: Fiber)
    requires UniqueIds(fibers) && f in fibers && g in fibers && f != g
    ensures f.id != g.id
  {
    var i :| 0 <= i < |fibers| && fibers[i] == f;
    var j :| 0 <= j < |fibers| && fibers[j] == g;
    assert if i < j then fibers[i].id != fibers[j].id else fibers[j].id != fibers[i].id;
  }

  lemma VictimsUnique(hash: string -> string, fibers: seq<Fiber>, c: string)
    requires UniqueIds(fibers)
    ensures Present(fibers, Victims(Members(Key(hash), Load(fibers), c)))
    ensures forall v :: v in Victims(Members(Key(hash), Load(fibers), c)) ==> Key(hash)(v) == Some(c)
  {
    var group := Members(Key(hash), Load(fibers), c);
    LoadSome(fibers);
    forall f ensures f in group <==> f in Load(fibers) && Key(hash)(f) == Some(c) { MemberOf(hash, Load(fibers), f, c); }
    if group != [] {
      MemberOf(hash, Load(fibers), group[0], c);
      GroupSplit(group);
      var s := Order.Sort(Older, group);
      OlderOrder();
      Order.SortCorrect(Older, group);
      SamePiecesDistinct(group, s);
      var victims := s[1..];
      forall i, j | 0 <= i < j < |victims|
        ensures victims[i].id != victims[j].id
      {
        assert victims[i] == s[i + 1] && victims[j] == s[j + 1];
        assert victims[i] in Victims(group) && victims[j] in Victims(group);
        IdsApart(fibers, s[i + 1], s[j + 1]);
      }
    }
  }

  lemma PresentTogether(fibers: seq<Fiber>, a: seq<Fiber>, b: seq<Fiber>)
    requires UniqueIds(fibers) && Present(fibers, a) && Present(fibers, b) && forall v :: v in a ==> v !in b
    ensures Present(fibers, a + b)
  {
    var all := a + b;
    forall v | v in all ensures v in fibers { assert v in a || v in b; }
    forall i, j | 0 <= i < j < |all|
      ensures all[i].id != all[j].id
    {
      if i < |a| <= j {
        assert a[i] in a && b[j - |a|] in b;
        IdsApart(fibers, a[i], b[j - |a|]);
      }
    }
  }

  /** No fiber is to be deleted twice. */
  lemma {:induction false} DoomedPresent(hash: string -> string, fibers: seq<Fiber>, keys: seq<string>)
    requires UniqueIds(fibers) && Distinct(keys)
    ensures Present(fibers, Doomed(hash, Load(fibers), keys))
  {
    if keys != [] {
      var n := |keys| - 1;
      var front, last := Doomed(hash, Load(fibers), keys[..n]), Victims(Members(Key(hash), Load(fibers), keys[n]));
      DoomedPresent(hash, fibers, keys[..n]);
      VictimsUnique(hash, fibers, keys[n]);
      forall v | v in front
        ensures v !in last
      {
        DoomedAre(hash, Load(fibers), keys[..n], v);
        var c :| c in keys[..n] && IsVictim(hash, Load(fibers), c, v);
        VictimsUnique(hash, fibers, c);
      }
      PresentTogether(fibers, front, last);
    }
  }

  /** The fibers after a run in which the storage refuses these. */
  function Cleaned(hash: string -> string, fibers: seq<Fiber>, refused: set<nat>): seq<Fiber> {
    Survivors(fibers, AllDoomed(hash, Load(fibers)), refused)
  }

  predicate Copies(hash: string -> string, fibers: seq<Fiber>, c: string, f: Fiber) {
    f in fibers && IsSummary(f) && Key(hash)(f) == Some(c)
  }

  lemma CleanedMember(hash: string -> string, fibers: seq<Fiber>, refused: set<nat>, f: Fiber)
    requires UniqueIds(fibers)
    ensures f in Cleaned(hash, fibers, refused) <==>
      f in fibers && (f.id in refused || f !in AllDoomed(hash, Load(fibers)))
  {
    LoadSome(fibers);
    var doomed := AllDoomed(hash, Load(fibers));
    if f in fibers && Goes(f, doomed, refused) {
      var v :| v in doomed && v.id == f.id;
      DoomedMember(hash, Load(fibers), v);
      SameId(fibers, f, v);
    }
  }

  /** The copies of a cluster that were loaded. */
  function Group(hash: string -> string, fibers: seq<Fiber>, c: string): seq<Fiber> { Members(Key(hash), Load(fibers), c) }

  lemma InGroup(hash: string -> string, fibers: seq<Fiber>, c: string, f: Fiber)
    requires UniqueIds(fibers)
    ensures f in Group(hash, fibers, c) <==> f in Load(fibers) && Copies(hash, fibers, c, f)
    ensures Distinct(Group(hash, fibers, c))
  {
    LoadSome(fibers);
    MemberOf(hash, Load(fibers), f, c);
  }

  /** For every cluster, what is left are the copies not loaded, the oldest one loaded, and those whose deletion was refused. */
  lemma CopiesLeft(hash: string -> string, fibers: seq<Fiber>, refused: set<nat>, c: string, f: Fiber)
    requires UniqueIds(fibers)
    ensures Copies(hash, Cleaned(hash, fibers, refused), c, f) <==>
      Copies(hash, fibers, c, f) && (f !in Group(hash, fibers, c) || f == Keeper(Group(hash, fibers, c)) || f.id in refused)
  {
    InGroup(hash, fibers, c, f);
    LoadSome(fibers);
    CleanedMember(hash, fibers, refused, f);
    DoomedMember(hash, Load(fibers), f);
  }

  // ----- how many are left -----

  /** All copies of a cluster in the store, and those of them that were not loaded. */
  function AllCopies(hash: string -> string, fibers: seq<Fiber>, c: string): seq<Fiber> {
    Filter((f: Fiber) => Copies(hash, fibers, c, f), fibers)
  }

  function Unloaded(hash: string -> string, fibers: seq<Fiber>, c: string): seq<Fiber> {
    Filter((f: Fiber) => Copies(hash, fibers, c, f) && f !in Load(fibers), fibers)
  }

  lemma SameMembers<T>(a: seq<T>, b: seq<T>)
    requires Distinct(a) && Distinct(b) && forall x :: x in a <==> x in b
    ensures |a| == |b|
  {
    var members := set x | x in a;
    DistinctCard(a, members);
    DistinctCard(b, members);
    assert (set x | x in b) == members;
    CardOf(a);
    CardOf(b);
  }

  lemma {:induction false} CardOf<T>(s: seq<T>)
    ensures |set x | x in s| <= |s|
  {
    if s != [] {
      CardOf(s[1..]);
      assert s == [s[0]] + s[1..];
      assert (set x | x in s) == {s[0]} + (set x | x in s[1..]);
    }
  }

  lemma CopiesDistinct(hash: string -> string, fibers: seq<Fiber>, c: string)
    requires UniqueIds(fibers)
    ensures Distinct(AllCopies(hash, fibers, c)) && Distinct(Unloaded(hash, fibers, c))
  {
    IdsDistinct(fibers);
    FilterDistinct((f: Fiber) => Copies(hash, fibers, c, f), fibers);
    FilterDistinct((f: Fiber) => Copies(hash, fibers, c, f) && f !in Load(fibers), fibers);
  }

  lemma DistinctTogether<T>(a: seq<T>, b: seq<T>)
    requires Distinct(a) && Distinct(b) && forall x :: x in a ==> x !in b
    ensures Distinct(a + b)
  {
    var all := a + b;
    forall i, j | 0 <= i < j < |all|
      ensures all[i] != all[j]
    {
      if i < |a| <= j { assert a[i] in a && b[j - |a|] in b; }
    }
  }

  lemma CopiesSplit(hash: string -> string, fibers: seq<Fiber>, c: string)
    requires UniqueIds(fibers)
    ensures |AllCopies(hash, fibers, c)| == |Unloaded(hash, fibers, c)| + |Group(hash, fibers, c)|
  {
    var out, group := Unloaded(hash, fibers, c), Group(hash, fibers, c);
    CopiesDistinct(hash, fibers, c);
    forall f
      ensures f in group <==> f in Load(fibers) && Copies(hash, fibers, c, f)
      ensures Distinct(group)
    {
      InGroup(hash, fibers, c, f);
    }
    DistinctTogether(out, group);
    SameMembers(AllCopies(hash, fibers, c), out + group);
  }

  /**
   With no refusal, a run leaves of each cluster the copies it did not load and one of those it did.  So exactly one
   stays exactly when those two numbers add up to one.
   */
  lemma CountLeft(hash: string -> string, fibers: seq<Fiber>, c: string)
    requires UniqueIds(fibers)
    ensures |AllCopies(hash, Cleaned(hash, fibers, {}), c)|
         == |Unloaded(hash, fibers, c)| + (if Group(hash, fibers, c) == [] then 0 else 1)
  {
    var after, out, group := Cleaned(hash, fibers, {}), Unloaded(hash, fibers, c), Group(hash, fibers, c);
    var kept := if group == [] then [] else [Keeper(group)];
    SurvivorsUnique(fibers, AllDoomed(hash, Load(fibers)), {});
    CopiesDistinct(hash, fibers, c);
    CopiesDistinct(hash, after, c);
    KeeperLoaded(hash, fibers, c);
    DistinctTogether(out, kept);
    forall f
      ensures f in AllCopies(hash, after, c) <==> f in out + kept
    {
      CopiesLeft(hash, fibers, {}, c, f);
      InGroup(hash, fibers, c, f);
    }
    SameMembers(AllCopies(hash, after, c), out + kept);
  }

  lemma KeeperLoaded(hash: string -> string, fibers: seq<Fiber>, c: string)
    requires UniqueIds(fibers)
    ensures Group(hash, fibers, c) != [] ==> Keeper(Group(hash, fibers, c)) in Group(hash, fibers, c)
    ensures Group(hash, fibers, c) != [] ==> Keeper(Group(hash, fibers, c)) in Load(fibers)
  {
    var group := Group(hash, fibers, c);
    if group != [] {
      InGroup(hash, fibers, c, group[0]);
      GroupSplit(group);
      InGroup(hash, fibers, c, Keeper(group));
    }
  }

  /**
   Of a cluster of which something was loaded, the oldest copy of all is kept exactly when none outside is older;
   and whatever is outside is no younger.
   */
  lemma OldestStaysIff(hash: string -> string, fibers: seq<Fiber>, c: string)
    requires UniqueIds(fibers) && Group(hash, fibers, c) != []
    ensures var kept := Keeper(Group(hash, fibers, c));
      && Copies(hash, Cleaned(hash, fibers, {}), c, kept)
      && (forall f :: f in Unloaded(hash, fibers, c) ==> f.createdAt <= kept.createdAt)
      && ((forall f :: Copies(hash, fibers, c, f) ==> kept.createdAt <= f.createdAt) <==>
          (forall f :: f in Unloaded(hash, fibers, c) ==> f.createdAt == kept.createdAt))
  {
    var group := Group(hash, fibers, c);
    var kept := Keeper(group);
    KeeperLoaded(hash, fibers, c);
    InGroup(hash, fibers, c, kept);
    CopiesLeft(hash, fibers, {}, c, kept);
    GroupSplit(group);
    forall f | f in Unloaded(hash, fibers, c) ensures f.createdAt <= kept.createdAt { UnloadedOlder(fibers, f, kept); }
    forall f | Copies(hash, fibers, c, f)
      ensures f in Unloaded(hash, fibers, c) || kept.createdAt <= f.createdAt
    {
      InGroup(hash, fibers, c, f);
    }
  }

  /** Fibers that are no summaries, and summaries without an identity, are left alone. */
  lemma OthersUntouched(hash: string -> string, fibers: seq<Fiber>, refused: set<nat>, f: Fiber)
    requires UniqueIds(fibers) && f in fibers
    requires f.marker != Some("summary_fiber") || Key(hash)(f).None?
    ensures f in Cleaned(hash, fibers, refused)
  {
    LoadSome(fibers);
    CleanedMember(hash, fibers, refused, f);
    DoomedMember(hash, Load(fibers), f);
  }

  lemma SurvivorsUnique(fibers: seq<Fiber>, victims: seq<Fiber>, refused: set<nat>)
    requires UniqueIds(fibers)
    ensures UniqueIds(Survivors(fibers, victims, refused)) && |Survivors(fibers, victims, refused)| <= |fibers|
  {
    FilterIds((f: Fiber) => !Goes(f, victims, refused), fibers);
  }

  lemma {:induction false} FilterIds(keep: Fiber -> bool, fibers: seq<Fiber>)
    requires UniqueIds(fibers)
    ensures UniqueIds(Filter(keep, fibers))
  {
    if fibers != [] {
      FilterIds(keep, fibers[1..]);
      var rest := Filter(keep, fibers[1..]);
      forall j | 0 <= j < |rest|
        ensures rest[j].id != fibers[0].id
      {
        assert rest[j] in rest;
        assert rest[j] in fibers[1..];
        var k :| 0 <= k < |fibers[1..]| && fibers[1..][k] == rest[j];
        assert fibers[k + 1] == rest[j];
      }
    }
  }

  /** A run has nothing to delete exactly when no cluster was loaded twice. */
  lemma IdleIff(hash: string -> string, fibers: seq<Fiber>)
    requires UniqueIds(fibers)
    ensures AllDoomed(hash, Load(fibers)) == [] <==> forall c :: |Group(hash, fibers, c)| <= 1
  {
    var doomed := AllDoomed(hash, Load(fibers));
    LoadSome(fibers);
    if doomed != [] {
      var f := doomed[0];
      assert f in doomed;
      DoomedMember(hash, Load(fibers), f);
      var c := Key(hash)(f).value;
      InGroup(hash, fibers, c, f);
      KeeperLoaded(hash, fibers, c);
      assert |Group(hash, fibers, c)| > 1;
    } else {
      forall c
        ensures |Group(hash, fibers, c)| <= 1
      {
        if |Group(hash, fibers, c)| > 1 { TwoDoom(hash, fibers, c); }
      }
    }
  }

  lemma TwoDoom(hash: string -> string, fibers: seq<Fiber>, c: string)
    requires UniqueIds(fibers) && |Group(hash, fibers, c)| > 1
    ensures AllDoomed(hash, Load(fibers)) != []
  {
    var group := Group(hash, fibers, c);
    InGroup(hash, fibers, c, group[0]);
    InGroup(hash, fibers, c, group[1]);
    LoadSome(fibers);
    var f := if group[0] == Keeper(group) then group[1] else group[0];
    assert group[0] != group[1];
    DoomedMember(hash, Load(fibers), f);
    assert f in AllDoomed(hash, Load(fibers));
  }

  /** What a run without refusals leaves of a cluster, if the next run loads all that is left. */
  lemma NextGroup(hash: string -> string, fibers: seq<Fiber>, c: string)
    requires UniqueIds(fibers) && |Cleaned(hash, fibers, {})| <= LOAD_LIMIT
    ensures |Group(hash, Cleaned(hash, fibers, {}), c)| == |Unloaded(hash, fibers, c)| + (if Group(hash, fibers, c) == [] then 0 else 1)
  {
    var after := Cleaned(hash, fibers, {});
    SurvivorsUnique(fibers, AllDoomed(hash, Load(fibers)), {});
    CountLeft(hash, fibers, c);
    NoneUnloaded(hash, after, c);
    CopiesSplit(hash, after, c);
  }

  /** Of no cluster with a loaded copy was another left out, nor two of any other. */
  ghost predicate AtMostOneStays(hash: string -> string, fibers: seq<Fiber>) {
    forall c :: |Unloaded(hash, fibers, c)| + (if Group(hash, fibers, c) == [] then 0 else 1) <= 1
  }

  /**
   After a run without refusals a second one has nothing to do exactly when no cluster has two copies among what it
   loads; if it loads all that is left, exactly when each cluster had at most one copy outside the first load, and none
   if it had one inside; and so always if the first run loaded everything.
   */
  lemma SecondRunIdleIff(hash: string -> string, fibers: seq<Fiber>)
    requires UniqueIds(fibers)
    ensures var after := Cleaned(hash, fibers, {});
      && (AllDoomed(hash, Load(after)) == [] <==> forall c :: |Group(hash, after, c)| <= 1)
      && (|after| <= 100000 ==> (AllDoomed(hash, Load(after)) == [] <==> AtMostOneStays(hash, fibers)))
      && (|fibers| <= 100000 ==> AllDoomed(hash, Load(after)) == [])
  {
    var after := Cleaned(hash, fibers, {});
    SurvivorsUnique(fibers, AllDoomed(hash, Load(fibers)), {});
    IdleIff(hash, after);
    if |after| <= LOAD_LIMIT {
      forall c
        ensures |Group(hash, after, c)| == |Unloaded(hash, fibers, c)| + (if Group(hash, fibers, c) == [] then 0 else 1)
        ensures |fibers| <= LOAD_LIMIT ==> |Unloaded(hash, fibers, c)| == 0
      {
        NextGroup(hash, fibers, c);
        if |fibers| <= LOAD_LIMIT { NoneUnloaded(hash, fibers, c); }
      }
    }
  }

  lemma NoneUnloaded(hash: string -> string, fibers: seq<Fiber>, c: string)
    requires UniqueIds(fibers) && |fibers| <= LOAD_LIMIT
    ensures Unloaded(hash, fibers, c) == []
  {
    LoadSome(fibers);
    FilterSame((f: Fiber) => Copies(hash, fibers, c, f) && f !in Load(fibers), (f: Fiber) => false, fibers);
    FilterNone(fibers);
  }

  // ----- past the limit -----

  lemma WholeGroup(hash: string -> string, loaded: seq<Fiber>, c: string)
    requires forall f :: f in loaded ==> IsSummary(f) && Key(hash)(f) == Some(c)
    ensures Members(Key(hash), Filter(IsSummary, loaded), c) == loaded
  {
    FilterAll(IsSummary, loaded);
    FilterAll((f: Fiber) => Key(hash)(f) == Some(c), loaded);
  }

  lemma FullGroup(hash: string -> string, fibers: seq<Fiber>, c: string)
    requires UniqueIds(fibers) && |fibers| > LOAD_LIMIT && forall f :: f in fibers ==> Copies(hash, fibers, c, f)
    ensures |Group(hash, fibers, c)| == LOAD_LIMIT
  {
    var s := Order.Sort(Newer, fibers);
    var taken := Take(s, LOAD_LIMIT);
    SortedOnce(fibers);
    forall f | f in taken
      ensures IsSummary(f) && Key(hash)(f) == Some(c)
    {
      assert f in s;
      assert Copies(hash, fibers, c, f);
    }
    WholeGroup(hash, taken, c);
  }

  /** A store of copies of one cluster: as many stay as do not fit the query, and one. */
  lemma OneCluster(hash: string -> string, fibers: seq<Fiber>, c: string)
    requires UniqueIds(fibers) && |fibers| > LOAD_LIMIT && forall f :: f in fibers ==> Copies(hash, fibers, c, f)
    ensures |AllCopies(hash, Cleaned(hash, fibers, {}), c)| == |fibers| - LOAD_LIMIT + 1
  {
    FullGroup(hash, fibers, c);
    FilterAll((f: Fiber) => Copies(hash, fibers, c, f), fibers);
    CopiesSplit(hash, fibers, c);
    CountLeft(hash, fibers, c);
  }

  /** Written one after another, all with the same sources. */
  function Repeated(n: nat): seq<Fiber> { seq(n, i requires 0 <= i < n => Fiber(i, i, Some(SUMMARY_MARKER), Some("key"), None, None)) }

  /** One copy more than the query returns: two stay, and not only the oldest; a second run has work to do. */
  lemma PastTheLimit(hash: string -> string)
    ensures var fibers := Repeated(LOAD_LIMIT + 1); var after := Cleaned(hash, fibers, {});
      && UniqueIds(fibers) && (forall f :: f in fibers ==> Copies(hash, fibers, "key", f))
      && |AllCopies(hash, after, "key")| == 2
      && AllDoomed(hash, Load(after)) != []
  {
    var fibers := Repeated(LOAD_LIMIT + 1);
    OneCluster(hash, fibers, "key");
    var after := Cleaned(hash, fibers, {});
    SurvivorsUnique(fibers, AllDoomed(hash, Load(fibers)), {});
    FilterAll((f: Fiber) => Copies(hash, after, "key", f), after);
    NoneUnloaded(hash, after, "key");
    CopiesSplit(hash, after, "key");
    TwoDoom(hash, after, "key");
  }
}
