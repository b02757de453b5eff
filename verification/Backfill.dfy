/**
 The fiber-vector backfill: a paged scan that collects what to embed, then batches that are embedded and
 written.  What the provider answers and where a write fails are inputs, batch by batch.
 */
module Backfill {
  import opened Prelude
  import PyString

  const PAGE_SIZE := 500
  const MAX_NEURONS_PER_FIBER := 8
  const MAX_TEXT_LEN := 2000

  datatype Row = Row(id: string, summary: Option<string>, neuronIds: seq<string>, hasVector: bool)

  datatype Candidate = Candidate(id: string, text: string)

  // ----- the text of a fiber -----

  function Summary(row: Row): string { PyString.Strip(if row.summary.Some? then row.summary.value else "") }

  function Neurons(row: Row): seq<string> { Take(row.neuronIds, MAX_NEURONS_PER_FIBER) }

  function Content(contents: map<string, string>, id: string): string { if id in contents then contents[id] else "" }

  function Part(id: string, contents: map<string, string>): seq<string> {
    var p := Content(contents, id);
    if PyString.Strip(p) != "" then [p] else []
  }

  function Parts(ids: seq<string>, contents: map<string, string>): seq<string> {
    if ids == [] then [] else Part(ids[0], contents) + Parts(ids[1..], contents)
  }

  function MemberText(ids: seq<string>, contents: map<string, string>): string {
    PyString.Strip(Take(PyString.Join("\n", Parts(ids, contents)), MAX_TEXT_LEN))
  }

  function FiberText(row: Row, contents: map<string, string>): string {
    if Summary(row) != "" then Summary(row) else MemberText(Neurons(row), contents)
  }

  /** The texts known for these neurons and not blank, one after the other, a line break between. */
  function Gathered(ids: seq<string>, contents: map<string, string>): string {
    if ids == [] then ""
    else
      var n := |ids| - 1;
      var before := Gathered(ids[..n], contents);
      if ids[n] !in contents || All(contents[ids[n]], PyString.IsSpace) then before
      else if before == "" then contents[ids[n]]
      else before + "\n" + contents[ids[n]]
  }

  lemma {:induction false} PartsMore(ids: seq<string>, contents: map<string, string>, id: string)
    ensures Parts(ids + [id], contents) == Parts(ids, contents) + Part(id, contents)
  {
    var all := ids + [id];
    if ids != [] {
      assert all[0] == ids[0] && all[1..] == ids[1..] + [id];
      PartsMore(ids[1..], contents, id);
    } else {
      assert all == [id] && Parts([], contents) == [];
    }
  }

  lemma PartIs(id: string, contents: map<string, string>)
    ensures Part(id, contents) == if id !in contents || All(contents[id], PyString.IsSpace) then [] else [contents[id]]
  {
    PyString.BlankIff(Content(contents, id));
  }

  lemma {:induction false} GatheredIs(ids: seq<string>, contents: map<string, string>)
    ensures Gathered(ids, contents) == PyString.Join("\n", Parts(ids, contents))
    ensures Gathered(ids, contents) == "" ==> Parts(ids, contents) == []
  {
    if ids != [] {
      var n := |ids| - 1;
      var parts := Parts(ids[..n], contents);
      GatheredIs(ids[..n], contents);
      assert ids == ids[..n] + [ids[n]];
      PartsMore(ids[..n], contents, ids[n]);
      PartIs(ids[n], contents);
      if Part(ids[n], contents) == [] {
        assert parts + [] == parts;
      } else {
        PyString.JoinMore("\n", parts, contents[ids[n]]);
      }
    }
  }

  lemma MemberMeaning(ids: seq<string>, contents: map<string, string>)
    ensures var text := Gathered(ids, contents);
      MemberText(ids, contents) == PyString.Strip(if |text| <= 2000 then text else text[..2000])
  {
    GatheredIs(ids, contents);
    var text := Gathered(ids, contents);
    assert Take(text, 2000) == if |text| <= 2000 then text else text[..2000];
  }

  /** What is embedded for a fiber: its summary, or else what its first eight neurons say, cut to 2000 characters; stripped. */
  lemma TextMeaning(row: Row, contents: map<string, string>)
    ensures FiberText(row, contents) ==
      if row.summary.Some? && !All(row.summary.value, PyString.IsSpace) then PyString.Strip(row.summary.value)
      else
        var text := Gathered(if |row.neuronIds| <= 8 then row.neuronIds else row.neuronIds[..8], contents);
        PyString.Strip(if |text| <= 2000 then text else text[..2000])
  {
    var summary := if row.summary.Some? then row.summary.value else "";
    PyString.BlankIff(summary);
    MemberMeaning(Neurons(row), contents);
    assert Neurons(row) == if |row.neuronIds| <= 8 then row.neuronIds else row.neuronIds[..8];
  }

  lemma {:induction false} PartsLocal(ids: seq<string>, contents: map<string, string>, neurons: map<string, string>)
    requires forall id :: id in ids ==> Content(contents, id) == Content(neurons, id)
    ensures Parts(ids, contents) == Parts(ids, neurons)
  {
    if ids != [] { PartsLocal(ids[1..], contents, neurons); }
  }

  lemma MemberTextLocal(ids: seq<string>, contents: map<string, string>, neurons: map<string, string>)
    requires Right(contents, neurons) && forall id :: id in ids && id in neurons ==> id in contents
    ensures MemberText(ids, contents) == MemberText(ids, neurons)
  {
    PartsLocal(ids, contents, neurons);
  }

  function Fetch(neurons: map<string, string>, ids: seq<string>): map<string, string> {
    map id | id in ids && id in neurons :: neurons[id]
  }

  /** What is fetched is right, and enough for this row. */
  ghost predicate Right(contents: map<string, string>, neurons: map<string, string>) {
    forall id :: id in contents ==> id in neurons && contents[id] == neurons[id]
  }

  ghost predicate Enough(contents: map<string, string>, neurons: map<string, string>, row: Row) {
    Summary(row) == "" ==> forall id :: id in Neurons(row) && id in neurons ==> id in contents
  }

  lemma FetchEnough(contents: map<string, string>, more: map<string, string>, neurons: map<string, string>, row: Row)
    requires Right(contents, neurons) && more == contents + Fetch(neurons, Neurons(row))
    ensures Right(more, neurons) && Enough(more, neurons, row)
  {
  }

  lemma StillEnough(contents: map<string, string>, more: map<string, string>, neurons: map<string, string>, row: Row)
    requires contents.Keys <= more.Keys && Enough(contents, neurons, row)
    ensures Enough(more, neurons, row)
  {
    forall id | id in contents ensures id in more { assert id in contents.Keys; }
  }

  method PageContents(page: seq<Row>, neurons: map<string, string>) returns (contents: map<string, string>)
    ensures Right(contents, neurons) && forall i :: 0 <= i < |page| ==> Enough(contents, neurons, page[i])
  {
    contents := map[];
    for i := 0 to |page|
      invariant Right(contents, neurons) && forall j :: 0 <= j < i ==> Enough(contents, neurons, page[j])
    {
      if Summary(page[i]) == "" {
        ghost var had := contents;
        contents := contents + Fetch(neurons, Neurons(page[i]));
        FetchEnough(had, contents, neurons, page[i]);
        forall j | 0 <= j < i ensures Enough(contents, neurons, page[j]) { StillEnough(had, contents, neurons, page[j]); }
      }
    }
  }

  /** text gives each row's text, all neurons being at hand. */
  ghost predicate IsText(text: Row -> string, neurons: map<string, string>) {
    forall row {:trigger FiberText(row, neurons)} :: text(row) == FiberText(row, neurons)
  }

  /** A row's text does not depend on what else its page fetched. */
  method TextOf(row: Row, contents: map<string, string>, ghost neurons: map<string, string>, ghost text: Row -> string)
      returns (t: string)
    requires Right(contents, neurons) && Enough(contents, neurons, row) && IsText(text, neurons)
    ensures t == text(row)
  {
    t := FiberText(row, contents);
    assert text(row) == FiberText(row, neurons);
    if Summary(row) == "" { MemberTextLocal(Neurons(row), contents, neurons); }
  }

  // ----- the scan -----

  datatype Scan = Scan(candidates: seq<Candidate>, hasVector: nat, noText: nat)

  function ScanRow(scan: Scan, row: Row, text: string, all: bool): Scan {
    if row.hasVector && !all then scan.(hasVector := scan.hasVector + 1)
    else if text == "" then scan.(noText := scan.noText + 1)
    else scan.(candidates := scan.candidates + [Candidate(row.id, text)])
  }

  /** The scan of the first n rows, each with its text. */
  function Scanned(table: seq<Row>, n: nat, text: Row -> string, all: bool): Scan
    requires n <= |table|
  {
    if n == 0 then Scan([], 0, 0) else ScanRow(Scanned(table, n - 1, text, all), table[n - 1], text(table[n - 1]), all)
  }

  function Page(table: seq<Row>, offset: nat, limit: nat): (page: seq<Row>)
    requires offset <= |table|
    ensures |page| == if offset + limit <= |table| then limit else |table| - offset
    ensures forall i :: 0 <= i < |page| ==> page[i] == table[offset + i]
  {
    if offset + limit <= |table| then table[offset..offset + limit] else table[offset..]
  }

  /** One page, row by row. */
  method ScanPage(ghost table: seq<Row>, ghost offset: nat, page: seq<Row>, neurons: map<string, string>, all: bool, sofar: Scan,
                  ghost text: Row -> string)
      returns (scan: Scan)
    requires IsText(text, neurons)
    requires offset + |page| <= |table| && forall i :: 0 <= i < |page| ==> page[i] == table[offset + i]
    requires sofar == Scanned(table, offset, text, all)
    ensures scan == Scanned(table, offset + |page|, text, all)
  {
    var contents := PageContents(page, neurons);
    scan := sofar;
    for i := 0 to |page|
      invariant scan == Scanned(table, offset + i, text, all)
    {
      if page[i].hasVector && !all {
        scan := scan.(hasVector := scan.hasVector + 1);
        continue;
      }
      var t := TextOf(page[i], contents, neurons, text);
      if t == "" {
        scan := scan.(noText := scan.noText + 1);
        continue;
      }
      scan := scan.(candidates := scan.candidates + [Candidate(page[i].id, t)]);
    }
  }

  /** The scan ends, and has seen each row of the table once, in order. */
  method ScanTable(table: seq<Row>, neurons: map<string, string>, all: bool, ghost text: Row -> string) returns (scan: Scan)
    requires IsText(text, neurons)
    ensures scan == Scanned(table, |table|, text, all)
  {
    scan := Scan([], 0, 0);
    var offset := 0;
    while true
      invariant offset <= |table| && scan == Scanned(table, offset, text, all)
      decreases |table| - offset
    {
      var page := Page(table, offset, PAGE_SIZE);
      if page == [] { break; }
      scan := ScanPage(table, offset, page, neurons, all, scan, text);
      offset := offset + |page|;
      if |page| < PAGE_SIZE { break; }
    }
  }

  /** Every row is counted once: to embed, already vectored, or without text. */
  lemma {:induction false} ScanAccounts(table: seq<Row>, n: nat, text: Row -> string, all: bool)
    requires n <= |table|
    ensures var s := Scanned(table, n, text, all); |s.candidates| + s.hasVector + s.noText == n
  {
    if n > 0 { ScanAccounts(table, n - 1, text, all); }
  }

  ghost predicate Wanted(row: Row, text: Row -> string, all: bool, c: Candidate) {
    (all || !row.hasVector) && c == Candidate(row.id, text(row)) && c.text != ""
  }

  /** The candidates are the rows wanted, each with its own text and none empty. */
  lemma {:induction false} CandidatesAre(table: seq<Row>, n: nat, text: Row -> string, all: bool, c: Candidate)
    requires n <= |table|
    ensures c in Scanned(table, n, text, all).candidates <==> exists i :: 0 <= i < n && Wanted(table[i], text, all, c)
  {
    if n > 0 { CandidatesAre(table, n - 1, text, all, c); }
  }

  predicate Vectored(row: Row, all: bool) { row.hasVector && !all }

  predicate Textless(row: Row, text: Row -> string, all: bool) { (all || !row.hasVector) && text(row) == "" }

  ghost function VectoredRows(table: seq<Row>, n: nat, all: bool): set<int>
    requires n <= |table|
  {
    set i | 0 <= i < n && Vectored(table[i], all)
  }

  ghost function TextlessRows(table: seq<Row>, n: nat, text: Row -> string, all: bool): set<int>
    requires n <= |table|
  {
    set i | 0 <= i < n && Textless(table[i], text, all)
  }

  /** The two tallies of rows passed over, each told by itself. */
  lemma ScanTallies(table: seq<Row>, n: nat, text: Row -> string, all: bool)
    requires n <= |table|
    ensures Scanned(table, n, text, all).hasVector == |VectoredRows(table, n, all)|
    ensures Scanned(table, n, text, all).noText == |TextlessRows(table, n, text, all)|
  {
    VectoredTally(table, n, text, all);
    TextlessTally(table, n, text, all);
  }

  lemma {:induction false} VectoredTally(table: seq<Row>, n: nat, text: Row -> string, all: bool)
    requires n <= |table|
    ensures Scanned(table, n, text, all).hasVector == |VectoredRows(table, n, all)|
  {
    if n > 0 {
      VectoredTally(table, n - 1, text, all);
      RowTallies(Scanned(table, n - 1, text, all), table[n - 1], text, all);
      OneMore(VectoredRows(table, n - 1, all), VectoredRows(table, n, all), n - 1);
    }
  }

  lemma {:induction false} TextlessTally(table: seq<Row>, n: nat, text: Row -> string, all: bool)
    requires n <= |table|
    ensures Scanned(table, n, text, all).noText == |TextlessRows(table, n, text, all)|
  {
    if n > 0 {
      TextlessTally(table, n - 1, text, all);
      RowTallies(Scanned(table, n - 1, text, all), table[n - 1], text, all);
      OneMore(TextlessRows(table, n - 1, text, all), TextlessRows(table, n, text, all), n - 1);
    }
  }

  lemma RowTallies(scan: Scan, row: Row, text: Row -> string, all: bool)
    ensures var after := ScanRow(scan, row, text(row), all);
      && after.hasVector == scan.hasVector + (if Vectored(row, all) then 1 else 0)
      && after.noText == scan.noText + (if Textless(row, text, all) then 1 else 0)
  {
  }

  function Kept(rows: seq<Row>, wanted: Row -> bool, candidate: Row -> Candidate): seq<Candidate> {
    Map(candidate, Filter(wanted, rows))
  }

  /** The candidates come in the order of their rows. */
  lemma {:induction false} InRowOrder(table: seq<Row>, n: nat, text: Row -> string, all: bool, wanted: Row -> bool, candidate: Row -> Candidate)
    requires n <= |table|
    requires forall row: Row :: wanted(row) <==> (all || !row.hasVector) && text(row) != ""
    requires forall row: Row :: candidate(row) == Candidate(row.id, text(row))
    ensures Scanned(table, n, text, all).candidates == Kept(table[..n], wanted, candidate)
  {
    if n == 0 {
      KeptNone(table[..0], wanted, candidate);
    } else {
      InRowOrder(table, n - 1, text, all, wanted, candidate);
      assert table[..n] == table[..n - 1] + [table[n - 1]];
      KeptMore(table[..n - 1], table[n - 1], wanted, candidate);
      RowKept(Scanned(table, n - 1, text, all), table[n - 1], text, all, wanted, candidate);
    }
  }

  lemma KeptNone(rows: seq<Row>, wanted: Row -> bool, candidate: Row -> Candidate)
    requires rows == []
    ensures Kept(rows, wanted, candidate) == []
  {
  }

  lemma RowKept(scan: Scan, row: Row, text: Row -> string, all: bool, wanted: Row -> bool, candidate: Row -> Candidate)
    requires wanted(row) <==> (all || !row.hasVector) && text(row) != ""
    requires candidate(row) == Candidate(row.id, text(row))
    ensures ScanRow(scan, row, text(row), all).candidates == scan.candidates + if wanted(row) then [candidate(row)] else []
  {
  }

  lemma KeptMore(rows: seq<Row>, row: Row, wanted: Row -> bool, candidate: Row -> Candidate)
    ensures Kept(rows + [row], wanted, candidate) == Kept(rows, wanted, candidate) + if wanted(row) then [candidate(row)] else []
  {
    FilterAppend(wanted, rows, [row]);
    assert Filter(wanted, [row]) == if wanted(row) then [row] else [];
    MapAppend(candidate, Filter(wanted, rows), Filter(wanted, [row]));
  }

  predicate UniqueRows(table: seq<Row>) {
    forall i, j :: 0 <= i < j < |table| ==> table[i].id != table[j].id
  }

  lemma {:induction false} CandidateIds(table: seq<Row>, n: nat, text: Row -> string, all: bool)
    requires n <= |table| && UniqueRows(table)
    ensures UniqueIds(Scanned(table, n, text, all).candidates)
  {
    if n > 0 {
      CandidateIds(table, n - 1, text, all);
      var before := Scanned(table, n - 1, text, all).candidates;
      forall j | 0 <= j < |before|
        ensures before[j].id != table[n - 1].id
      {
        assert before[j] in before;
        CandidatesAre(table, n - 1, text, all, before[j]);
      }
    }
  }

  // ----- the batches -----

  type Vector = seq<real>

  /** What the provider does with a batch. */
  datatype Reply = Raises | Vectors(vs: seq<Vector>)

  datatype Outcome = Finished(embedded: nat, failed: nat) | Mismatch

  class VectorStore {
    var vectors: map<string, Vector>

    constructor (vectors: map<string, Vector>)
      ensures this.vectors == vectors
    {
      this.vectors := vectors;
    }

    /** Writes the pairs in order; a failing write may have stored the first few. */
    method Update(pairs: seq<(string, Vector)>, failsAfter: Option<nat>) returns (ok: bool)
      modifies this
      ensures ok <==> failsAfter.None?
      ensures vectors == Written(old(vectors), if ok then pairs else Take(pairs, failsAfter.value))
    {
      ok := failsAfter.None?;
      vectors := Written(vectors, if ok then pairs else Take(pairs, failsAfter.value));
    }
  }

  function Written(vectors: map<string, Vector>, pairs: seq<(string, Vector)>): map<string, Vector> {
    if pairs == [] then vectors
    else Written(vectors, pairs[..|pairs| - 1])[pairs[|pairs| - 1].0 := pairs[|pairs| - 1].1]
  }

  /** `candidates[start : start + 50]` for start = 50 * batch. */
  function Chunk(candidates: seq<Candidate>, batch: nat): seq<Candidate> {
    if 50 * batch >= |candidates| then [] else Take(candidates[50 * batch..], 50)
  }

  /** The reply has one vector for each text. */
  predicate Fits(candidates: seq<Candidate>, replies: nat -> Reply, batch: nat) {
    replies(batch).Vectors? ==> |replies(batch).vs| == |Chunk(candidates, batch)|
  }

  predicate Done(replies: nat -> Reply, writes: nat -> Option<nat>, batch: nat) {
    replies(batch).Vectors? && writes(batch).None?
  }

  /** Every stored vector was there before or is the embedding of that fiber's own text. */
  ghost predicate OwnVectors(before: map<string, Vector>, after: map<string, Vector>, candidates: seq<Candidate>, embed: string -> Vector) {
    && (forall id :: id in before ==> id in after)
    && (forall id :: Fresh(before, after, id) ==>
          exists i :: 0 <= i < |candidates| && candidates[i].id == id && after[id] == embed(candidates[i].text))
  }

  ghost predicate AllStored(after: map<string, Vector>, chunk: seq<Candidate>, embed: string -> Vector) {
    forall i :: 0 <= i < |chunk| ==> chunk[i].id in after && after[chunk[i].id] == embed(chunk[i].text)
  }

  function Pairs(chunk: seq<Candidate>, vs: seq<Vector>): (r: seq<(string, Vector)>)
    requires |chunk| == |vs|
    ensures |r| == |chunk| && forall i :: 0 <= i < |r| ==> r[i] == (chunk[i].id, vs[i])
  {
    seq(|chunk|, i requires 0 <= i < |chunk| => (chunk[i].id, vs[i]))
  }

  predicate UniqueIds(candidates: seq<Candidate>) {
    forall i, j :: 0 <= i < j < |candidates| ==> candidates[i].id != candidates[j].id
  }

  ghost predicate Fresh(vectors: map<string, Vector>, after: map<string, Vector>, id: string) {
    id in after && (id !in vectors || after[id] != vectors[id])
  }

  /** A write loses nothing, and what it changes comes from the pairs. */
  lemma {:induction false} WrittenFrom(vectors: map<string, Vector>, pairs: seq<(string, Vector)>)
    ensures forall id :: id in vectors ==> id in Written(vectors, pairs)
    ensures forall id :: Fresh(vectors, Written(vectors, pairs), id) ==>
      exists i :: 0 <= i < |pairs| && pairs[i] == (id, Written(vectors, pairs)[id])
  {
    if pairs != [] {
      var n := |pairs| - 1;
      var front := pairs[..n];
      WrittenFrom(vectors, front);
      var was, now := Written(vectors, front), Written(vectors, pairs);
      forall id | Fresh(vectors, now, id)
        ensures exists i :: 0 <= i < |pairs| && pairs[i] == (id, now[id])
      {
        if id == pairs[n].0 {
          assert pairs[n] == (id, now[id]);
        } else {
          assert Fresh(vectors, was, id);
          var i :| 0 <= i < |front| && front[i] == (id, was[id]);
          assert pairs[i] == (id, now[id]);
        }
      }
    }
  }

  /** The last pair for an id is what is stored. */
  lemma {:induction false} WrittenLast(vectors: map<string, Vector>, pairs: seq<(string, Vector)>, i: nat)
    requires i < |pairs| && forall j :: i < j < |pairs| ==> pairs[j].0 != pairs[i].0
    ensures pairs[i].0 in Written(vectors, pairs) && Written(vectors, pairs)[pairs[i].0] == pairs[i].1
  {
    var n := |pairs| - 1;
    if i < n { WrittenLast(vectors, pairs[..n], i); }
  }

  /** One batch written: what was there stays unless it is a vector of the chunk's own. */
  lemma ChunkOwn(before: map<string, Vector>, chunk: seq<Candidate>, count: int, embed: string -> Vector, vs: seq<Vector>)
    requires |vs| == |chunk| && forall i :: 0 <= i < |chunk| ==> vs[i] == embed(chunk[i].text)
    ensures OwnVectors(before, Written(before, Take(Pairs(chunk, vs), count)), chunk, embed)
  {
    var some := Take(Pairs(chunk, vs), count);
    var after := Written(before, some);
    WrittenFrom(before, some);
    forall id | Fresh(before, after, id)
      ensures exists i :: 0 <= i < |chunk| && chunk[i].id == id && after[id] == embed(chunk[i].text)
    {
      var i :| 0 <= i < |some| && some[i] == (id, after[id]);
      assert some[i] == Pairs(chunk, vs)[i];
    }
  }

  lemma ChunkStored(before: map<string, Vector>, chunk: seq<Candidate>, embed: string -> Vector, vs: seq<Vector>)
    requires |vs| == |chunk| && UniqueIds(chunk) && forall i :: 0 <= i < |chunk| ==> vs[i] == embed(chunk[i].text)
    ensures AllStored(Written(before, Pairs(chunk, vs)), chunk, embed)
  {
    var pairs := Pairs(chunk, vs);
    forall i | 0 <= i < |chunk|
      ensures chunk[i].id in Written(before, pairs) && Written(before, pairs)[chunk[i].id] == embed(chunk[i].text)
    {
      WrittenLast(before, pairs, i);
    }
  }

  lemma OwnVectorsMore(a: map<string, Vector>, b: map<string, Vector>, c: map<string, Vector>, candidates: seq<Candidate>,
                       chunk: seq<Candidate>, embed: string -> Vector)
    requires OwnVectors(a, b, candidates, embed) && OwnVectors(b, c, chunk, embed)
    requires forall x :: x in chunk ==> x in candidates
    ensures OwnVectors(a, c, candidates, embed)
  {
    forall id | Fresh(a, c, id)
      ensures exists i :: 0 <= i < |candidates| && candidates[i].id == id && c[id] == embed(candidates[i].text)
    {
      if !Fresh(b, c, id) {
        assert Fresh(a, b, id);
      } else {
        var i :| 0 <= i < |chunk| && chunk[i].id == id && c[id] == embed(chunk[i].text);
        assert chunk[i] in candidates;
      }
    }
  }

  /** What the caller relies on: a reply of the right length holds the embeddings of the texts, in their order. */
  ghost predicate Faithful(candidates: seq<Candidate>, replies: nat -> Reply, embed: string -> Vector) {
    forall b: nat :: TrueReply(Chunk(candidates, b), replies(b), embed)
  }

  ghost predicate TrueReply(chunk: seq<Candidate>, reply: Reply, embed: string -> Vector) {
    reply.Vectors? && |reply.vs| == |chunk| ==> forall i :: 0 <= i < |chunk| ==> reply.vs[i] == embed(chunk[i].text)
  }

  /** With an identity each, all of the chunk is stored. */
  ghost predicate ChunkKept(after: map<string, Vector>, chunk: seq<Candidate>, embed: string -> Vector) {
    UniqueIds(chunk) ==> AllStored(after, chunk, embed)
  }

  /** Candidates of the batches before b whose batch was embedded and written. */
  ghost predicate StoredBefore(after: map<string, Vector>, candidates: seq<Candidate>, b: nat, replies: nat -> Reply,
                               writes: nat -> Option<nat>, embed: string -> Vector)
  {
    forall a: nat :: a < b && Done(replies, writes, a) ==> AllStored(after, Chunk(candidates, a), embed)
  }

  method EmbedBatch(store: VectorStore, candidates: seq<Candidate>, b: nat, reply: Reply, write: Option<nat>, ghost embed: string -> Vector)
      returns (fits: bool, ok: bool)
    requires TrueReply(Chunk(candidates, b), reply, embed)
    modifies store
    ensures fits <==> (reply.Vectors? ==> |reply.vs| == |Chunk(candidates, b)|)
    ensures ok <==> fits && reply.Vectors? && write.None?
    ensures OwnVectors(old(store.vectors), store.vectors, Chunk(candidates, b), embed)
    ensures ok ==> ChunkKept(store.vectors, Chunk(candidates, b), embed)
  {
    var chunk := Chunk(candidates, b);
    fits, ok := true, false;
    if reply.Raises? { return; }
    if |reply.vs| != |chunk| {
      fits := false;
      return;
    }
    var pairs := Pairs(chunk, reply.vs);
    ghost var before := store.vectors;
    ok := store.Update(pairs, write);
    assert Take(pairs, |pairs|) == pairs;
    ChunkOwn(before, chunk, if ok then |pairs| else write.value, embed, reply.vs);
    if ok && UniqueIds(chunk) { ChunkStored(before, chunk, embed, reply.vs); }
  }

  /** There is a batch b. */
  predicate HasBatch(candidates: seq<Candidate>, b: nat) { 50 * b < |candidates| }

  lemma ChunkOf(candidates: seq<Candidate>, b: nat)
    ensures HasBatch(candidates, b) ==> |Chunk(candidates, b)| == (if 50 * b + 50 <= |candidates| then 50 else |candidates| - 50 * b)
    ensures forall i :: 0 <= i < |Chunk(candidates, b)| ==>
      50 * b + i < |candidates| && Chunk(candidates, b)[i] == candidates[50 * b + i]
    ensures forall x :: x in Chunk(candidates, b) ==> x in candidates
    ensures UniqueIds(candidates) ==> UniqueIds(Chunk(candidates, b))
  {
    var chunk := Chunk(candidates, b);
    forall i | 0 <= i < |chunk|
      ensures 50 * b + i < |candidates| && chunk[i] == candidates[50 * b + i]
    {
      var rest := candidates[50 * b..];
      assert chunk == Take(rest, 50) && chunk <= rest;
      assert chunk[i] == rest[i];
    }
    forall x | x in chunk ensures x in candidates {
      var i :| 0 <= i < |chunk| && chunk[i] == x;
      assert chunk[i] == candidates[50 * b + i];
    }
  }

  lemma SameCandidate(candidates: seq<Candidate>, c: Candidate, e: Candidate)
    requires UniqueIds(candidates) && c in candidates && e in candidates && c.id == e.id
    ensures c == e
  {
    var x :| 0 <= x < |candidates| && candidates[x] == c;
    var y :| 0 <= y < |candidates| && candidates[y] == e;
  }

  lemma StoredKept(before: map<string, Vector>, after: map<string, Vector>, candidates: seq<Candidate>, stored: seq<Candidate>,
                   chunk: seq<Candidate>, embed: string -> Vector)
    requires UniqueIds(candidates) && AllStored(before, stored, embed) && OwnVectors(before, after, chunk, embed)
    requires (forall x :: x in stored ==> x in candidates) && forall x :: x in chunk ==> x in candidates
    ensures AllStored(after, stored, embed)
  {
    forall i | 0 <= i < |stored|
      ensures stored[i].id in after && after[stored[i].id] == embed(stored[i].text)
    {
      var c := stored[i];
      assert c in candidates;
      if Fresh(before, after, c.id) {
        var j :| 0 <= j < |chunk| && chunk[j].id == c.id && after[c.id] == embed(chunk[j].text);
        SameCandidate(candidates, c, chunk[j]);
      }
    }
  }

  lemma StoredMore(before: map<string, Vector>, after: map<string, Vector>, candidates: seq<Candidate>, b: nat,
                   replies: nat -> Reply, writes: nat -> Option<nat>, embed: string -> Vector)
    requires UniqueIds(candidates) && StoredBefore(before, candidates, b, replies, writes, embed)
    requires OwnVectors(before, after, Chunk(candidates, b), embed)
    requires Done(replies, writes, b) ==> AllStored(after, Chunk(candidates, b), embed)
    ensures StoredBefore(after, candidates, b + 1, replies, writes, embed)
  {
    ChunkOf(candidates, b);
    forall a: nat | a < b && Done(replies, writes, a)
      ensures AllStored(after, Chunk(candidates, a), embed)
    {
      ChunkOf(candidates, a);
      StoredKept(before, after, candidates, Chunk(candidates, a), Chunk(candidates, b), embed);
    }
  }

  /**
   The batches in turn.  A reply of another length stops the run; otherwise every candidate is counted as
   embedded or failed, and a fiber's new vector is always the embedding of its own text.
   */
  method EmbedAll(store: VectorStore, candidates: seq<Candidate>, replies: nat -> Reply, writes: nat -> Option<nat>,
                  ghost embed: string -> Vector)
      returns (outcome: Outcome)
    requires Faithful(candidates, replies, embed)
    modifies store
    ensures outcome.Mismatch? <==> exists b: nat :: HasBatch(candidates, b) && !Fits(candidates, replies, b)
    ensures outcome.Finished? ==> outcome.embedded + outcome.failed == |candidates|
    ensures outcome.Finished? ==> outcome.embedded == |DoneAtAll(candidates, replies, writes)|
    ensures outcome.Finished? ==> (outcome.failed == 0 <==> AllDone(candidates, |candidates|, replies, writes))
    ensures OwnVectors(old(store.vectors), store.vectors, candidates, embed)
    ensures outcome.Finished? && UniqueIds(candidates) ==>
      StoredBefore(store.vectors, candidates, |candidates|, replies, writes, embed)
  {
    ghost var start := store.vectors;
    ghost var holds := (now: map<string, Vector>, b: nat, embedded: nat, failed: nat) =>
      Progress(start, now, candidates, b, replies, writes, embed, embedded, failed);
    var b;
    outcome, b := EmbedBatches(store, start, candidates, replies, writes, embed, holds);
    if outcome.Finished? {
      ProgressEnds(start, store.vectors, candidates, b, replies, writes, embed, outcome.embedded, outcome.failed);
    } else {
      assert HasBatch(candidates, b) && !Fits(candidates, replies, b);
    }
  }

  /** The loop ends after the last batch, or at one whose reply does not fit. */
  method EmbedBatches(store: VectorStore, ghost start: map<string, Vector>, candidates: seq<Candidate>, replies: nat -> Reply,
                      writes: nat -> Option<nat>, ghost embed: string -> Vector, ghost holds: (map<string, Vector>, nat, nat, nat) -> bool)
      returns (outcome: Outcome, b: nat)
    requires Faithful(candidates, replies, embed) && IsProgress(holds, start, candidates, replies, writes, embed)
    requires holds(store.vectors, 0, 0, 0)
    modifies store
    ensures match outcome
            case Finished(embedded, failed) =>
              50 * (b - 1) < |candidates| <= 50 * b && holds(store.vectors, b, embedded, failed)
            case Mismatch =>
              50 * b < |candidates| && !Fits(candidates, replies, b) && OwnVectors(start, store.vectors, candidates, embed)
  {
    b := 0;
    var embedded: nat, failed: nat := 0, 0;
    while 50 * b < |candidates|
      invariant 50 * (b - 1) < |candidates| && holds(store.vectors, b, embedded, failed)
      decreases |candidates| - 50 * b
    {
      var fits: bool;
      fits, embedded, failed := EmbedNext(store, start, candidates, b, replies, writes, embed, embedded, failed, holds);
      if !fits { return Mismatch, b; }
      b := b + 1;
    }
    outcome := Finished(embedded, failed);
  }

  /** holds says how far the run is. */
  ghost predicate IsProgress(holds: (map<string, Vector>, nat, nat, nat) -> bool, start: map<string, Vector>, candidates: seq<Candidate>,
                             replies: nat -> Reply, writes: nat -> Option<nat>, embed: string -> Vector)
  {
    forall now, b: nat, embedded: nat, failed: nat {:trigger Progress(start, now, candidates, b, replies, writes, embed, embedded, failed)} ::
      holds(now, b, embedded, failed) == Progress(start, now, candidates, b, replies, writes, embed, embedded, failed)
  }

  /** One batch, counted as embedded or failed. */
  method EmbedNext(store: VectorStore, ghost start: map<string, Vector>, candidates: seq<Candidate>, b: nat, replies: nat -> Reply,
                   writes: nat -> Option<nat>, ghost embed: string -> Vector, embedded: nat, failed: nat,
                   ghost holds: (map<string, Vector>, nat, nat, nat) -> bool)
      returns (fits: bool, embedded': nat, failed': nat)
    requires HasBatch(candidates, b) && Faithful(candidates, replies, embed)
    requires IsProgress(holds, start, candidates, replies, writes, embed) && holds(store.vectors, b, embedded, failed)
    modifies store
    ensures fits <==> Fits(candidates, replies, b)
    ensures OwnVectors(start, store.vectors, candidates, embed)
    ensures fits ==> holds(store.vectors, b + 1, embedded', failed')
  {
    ghost var before := store.vectors;
    assert Progress(start, before, candidates, b, replies, writes, embed, embedded, failed);
    var ok;
    fits, ok := EmbedBatch(store, candidates, b, replies(b), writes(b), embed);
    ProgressNext(start, before, store.vectors, candidates, b, replies, writes, embed, embedded, failed);
    var n := |Chunk(candidates, b)|;
    embedded', failed' := if ok then embedded + n else embedded, if ok then failed else failed + n;
    assert fits ==> Progress(start, store.vectors, candidates, b + 1, replies, writes, embed, embedded', failed');
  }

  /** After the batches before b, all of which fitted. */
  ghost predicate Progress(start: map<string, Vector>, now: map<string, Vector>, candidates: seq<Candidate>, b: nat, replies: nat -> Reply,
                           writes: nat -> Option<nat>, embed: string -> Vector, embedded: nat, failed: nat)
  {
    && Tallied(candidates, b, replies, writes, embedded, failed) && AllFit(candidates, b, replies)
    && Stored(start, now, candidates, b, replies, writes, embed)
  }

  lemma ProgressNext(start: map<string, Vector>, was: map<string, Vector>, now: map<string, Vector>, candidates: seq<Candidate>, b: nat,
                     replies: nat -> Reply, writes: nat -> Option<nat>, embed: string -> Vector, embedded: nat, failed: nat)
    requires HasBatch(candidates, b) && Progress(start, was, candidates, b, replies, writes, embed, embedded, failed)
    requires OwnVectors(was, now, Chunk(candidates, b), embed)
    requires Done(replies, writes, b) && Fits(candidates, replies, b) ==> ChunkKept(now, Chunk(candidates, b), embed)
    ensures OwnVectors(start, now, candidates, embed)
    ensures var n := |Chunk(candidates, b)|; var done := Done(replies, writes, b);
      Fits(candidates, replies, b) ==>
        Progress(start, now, candidates, b + 1, replies, writes, embed,
                 if done then embedded + n else embedded, if done then failed else failed + n)
  {
    StoredNext(start, was, now, candidates, b, replies, writes, embed);
    FitMore(candidates, b, replies);
    TalliedMore(candidates, b, replies, writes, embedded, failed);
  }

  lemma ProgressEnds(start: map<string, Vector>, now: map<string, Vector>, candidates: seq<Candidate>, b: nat, replies: nat -> Reply,
                     writes: nat -> Option<nat>, embed: string -> Vector, embedded: nat, failed: nat)
    requires 50 * (b - 1) < |candidates| <= 50 * b
    requires Progress(start, now, candidates, b, replies, writes, embed, embedded, failed)
    ensures forall a: nat :: HasBatch(candidates, a) ==> Fits(candidates, replies, a)
    ensures embedded + failed == |candidates| && embedded == |DoneAtAll(candidates, replies, writes)|
    ensures failed == 0 <==> AllDone(candidates, |candidates|, replies, writes)
    ensures OwnVectors(start, now, candidates, embed)
    ensures UniqueIds(candidates) ==> StoredBefore(now, candidates, |candidates|, replies, writes, embed)
  {
    LastBatch(candidates, b, replies, writes);
    TalliedAll(candidates, b, replies, writes, embedded, failed);
    if UniqueIds(candidates) { StoredAll(now, candidates, b, replies, writes, embed); }
  }

  /** After the batches before b. */
  ghost predicate Stored(start: map<string, Vector>, now: map<string, Vector>, candidates: seq<Candidate>, b: nat,
                         replies: nat -> Reply, writes: nat -> Option<nat>, embed: string -> Vector)
  {
    && OwnVectors(start, now, candidates, embed)
    && (UniqueIds(candidates) ==> StoredBefore(now, candidates, b, replies, writes, embed))
  }

  /** One batch on, if it went as far as its reply fitting. */
  lemma StoredNext(start: map<string, Vector>, was: map<string, Vector>, now: map<string, Vector>, candidates: seq<Candidate>, b: nat,
                   replies: nat -> Reply, writes: nat -> Option<nat>, embed: string -> Vector)
    requires Stored(start, was, candidates, b, replies, writes, embed)
    requires OwnVectors(was, now, Chunk(candidates, b), embed)
    requires Done(replies, writes, b) && Fits(candidates, replies, b) ==> ChunkKept(now, Chunk(candidates, b), embed)
    ensures OwnVectors(start, now, candidates, embed)
    ensures Fits(candidates, replies, b) ==> Stored(start, now, candidates, b + 1, replies, writes, embed)
  {
    ChunkOf(candidates, b);
    OwnVectorsMore(start, was, now, candidates, Chunk(candidates, b), embed);
    if UniqueIds(candidates) && Fits(candidates, replies, b) { StoredMore(was, now, candidates, b, replies, writes, embed); }
  }

  /** The candidates of the batches before b that were embedded and written. */
  ghost function DoneBefore(candidates: seq<Candidate>, b: nat, replies: nat -> Reply, writes: nat -> Option<nat>): set<int> {
    set i | 0 <= i < |candidates| && i < 50 * b && Done(replies, writes, i / 50)
  }

  /** Those of all batches, fifty to a batch. */
  ghost function DoneAtAll(candidates: seq<Candidate>, replies: nat -> Reply, writes: nat -> Option<nat>): set<int> {
    set i | 0 <= i < |candidates| && Done(replies, writes, i / 50)
  }

  ghost predicate Tallied(candidates: seq<Candidate>, b: nat, replies: nat -> Reply, writes: nat -> Option<nat>, embedded: nat, failed: nat) {
    && embedded == |DoneBefore(candidates, b, replies, writes)|
    && embedded + failed == (if 50 * b <= |candidates| then 50 * b else |candidates|)
    && (failed == 0 <==> AllDone(candidates, b, replies, writes))
  }

  lemma TalliedMore(candidates: seq<Candidate>, b: nat, replies: nat -> Reply, writes: nat -> Option<nat>, embedded: nat, failed: nat)
    requires HasBatch(candidates, b) && Tallied(candidates, b, replies, writes, embedded, failed)
    ensures var n := |Chunk(candidates, b)|; var done := Done(replies, writes, b);
      Tallied(candidates, b + 1, replies, writes, if done then embedded + n else embedded, if done then failed else failed + n)
  {
    ChunkOf(candidates, b);
    OneMoreBatch(candidates, b, replies, writes);
    DoneMore(candidates, b, replies, writes);
  }

  lemma TalliedAll(candidates: seq<Candidate>, b: nat, replies: nat -> Reply, writes: nat -> Option<nat>, embedded: nat, failed: nat)
    requires |candidates| <= 50 * b && b <= |candidates| && Tallied(candidates, b, replies, writes, embedded, failed)
    ensures embedded == |DoneAtAll(candidates, replies, writes)| && embedded + failed == |candidates|
    ensures failed == 0 <==> AllDone(candidates, |candidates|, replies, writes)
  {
    LastBatch(candidates, b, replies, writes);
    assert DoneBefore(candidates, b, replies, writes) == DoneAtAll(candidates, replies, writes);
  }

  lemma DoneMore(candidates: seq<Candidate>, b: nat, replies: nat -> Reply, writes: nat -> Option<nat>)
    requires HasBatch(candidates, b)
    ensures |DoneBefore(candidates, b + 1, replies, writes)| ==
      |DoneBefore(candidates, b, replies, writes)| + if Done(replies, writes, b) then |Chunk(candidates, b)| else 0
  {
    ChunkOf(candidates, b);
    var before, after := DoneBefore(candidates, b, replies, writes), DoneBefore(candidates, b + 1, replies, writes);
    var more := if Done(replies, writes, b) then Range(50 * b, |Chunk(candidates, b)|) else {};
    forall i ensures i in after <==> i in before || i in more { NextIs(candidates, b, replies, writes, i); }
    assert after == before + more && before !! more;
  }

  lemma NextIs(candidates: seq<Candidate>, b: nat, replies: nat -> Reply, writes: nat -> Option<nat>, i: int)
    requires HasBatch(candidates, b)
    ensures i in DoneBefore(candidates, b + 1, replies, writes) <==>
      i in DoneBefore(candidates, b, replies, writes) || (Done(replies, writes, b) && 50 * b <= i < 50 * b + |Chunk(candidates, b)|)
  {
    ChunkOf(candidates, b);
    if 50 * b <= i < 50 * b + 50 { assert i / 50 == b; }
  }

  ghost function Range(lo: int, n: nat): (r: set<int>)
    ensures |r| == n && forall i :: i in r <==> lo <= i < lo + n
  {
    if n == 0 then {} else Range(lo, n - 1) + {lo + n - 1}
  }

  /** The batches before b that there are were all embedded and written. */
  ghost predicate AllDone(candidates: seq<Candidate>, b: nat, replies: nat -> Reply, writes: nat -> Option<nat>) {
    forall a: nat :: a < b && HasBatch(candidates, a) ==> Done(replies, writes, a)
  }

  ghost predicate AllFit(candidates: seq<Candidate>, b: nat, replies: nat -> Reply) {
    forall a: nat :: a < b && HasBatch(candidates, a) ==> Fits(candidates, replies, a)
  }

  lemma OneMoreBatch(candidates: seq<Candidate>, b: nat, replies: nat -> Reply, writes: nat -> Option<nat>)
    requires HasBatch(candidates, b)
    ensures AllDone(candidates, b + 1, replies, writes) <==> AllDone(candidates, b, replies, writes) && Done(replies, writes, b)
  {
  }

  lemma FitMore(candidates: seq<Candidate>, b: nat, replies: nat -> Reply)
    requires HasBatch(candidates, b)
    ensures AllFit(candidates, b + 1, replies) <==> AllFit(candidates, b, replies) && Fits(candidates, replies, b)
  {
  }

  lemma LastBatch(candidates: seq<Candidate>, b: nat, replies: nat -> Reply, writes: nat -> Option<nat>)
    requires |candidates| <= 50 * b && b <= |candidates|
    ensures AllDone(candidates, b, replies, writes) <==> AllDone(candidates, |candidates|, replies, writes)
    ensures AllFit(candidates, b, replies) ==> forall a: nat :: HasBatch(candidates, a) ==> Fits(candidates, replies, a)
  {
  }

  lemma StoredAll(after: map<string, Vector>, candidates: seq<Candidate>, b: nat, replies: nat -> Reply, writes: nat -> Option<nat>,
                  embed: string -> Vector)
    requires |candidates| <= 50 * b && StoredBefore(after, candidates, b, replies, writes, embed)
    ensures StoredBefore(after, candidates, |candidates|, replies, writes, embed)
  {
    forall a: nat | a < |candidates| && Done(replies, writes, a)
      ensures AllStored(after, Chunk(candidates, a), embed)
    {
      if a >= b { assert Chunk(candidates, a) == []; }
    }
  }

  /** When nothing failed, every candidate has the embedding of its own text. */
  lemma NothingFailed(after: map<string, Vector>, candidates: seq<Candidate>, replies: nat -> Reply, writes: nat -> Option<nat>,
                      embed: string -> Vector)
    requires AllDone(candidates, |candidates|, replies, writes)
    requires StoredBefore(after, candidates, |candidates|, replies, writes, embed)
    ensures AllStored(after, candidates, embed)
  {
    forall i | 0 <= i < |candidates|
      ensures candidates[i].id in after && after[candidates[i].id] == embed(candidates[i].text)
    {
      var b: nat := i / 50;
      ChunkOf(candidates, b);
      assert HasBatch(candidates, b);
      assert Chunk(candidates, b)[i - 50 * b] == candidates[i];
    }
  }

  // ----- a whole run -----

  /** The rows say which fibers have a vector. */
  ghost predicate Shown(table: seq<Row>, vectors: map<string, Vector>) {
    forall i :: 0 <= i < |table| ==> (table[i].hasVector <==> table[i].id in vectors)
  }

  ghost predicate Embedded(after: map<string, Vector>, table: seq<Row>, text: Row -> string, all: bool, embed: string -> Vector) {
    forall i :: 0 <= i < |table| && (all || !table[i].hasVector) && text(table[i]) != "" ==>
      table[i].id in after && after[table[i].id] == embed(text(table[i]))
  }

  ghost predicate Selected(table: seq<Row>, text: Row -> string, all: bool, id: string) {
    exists i :: 0 <= i < |table| && table[i].id == id && (all || !table[i].hasVector) && text(table[i]) != ""
  }

  lemma RowsEmbedded(after: map<string, Vector>, table: seq<Row>, text: Row -> string, all: bool, embed: string -> Vector)
    requires AllStored(after, Scanned(table, |table|, text, all).candidates, embed)
    ensures Embedded(after, table, text, all, embed)
  {
    var candidates := Scanned(table, |table|, text, all).candidates;
    forall i | 0 <= i < |table| && (all || !table[i].hasVector) && text(table[i]) != ""
      ensures table[i].id in after && after[table[i].id] == embed(text(table[i]))
    {
      var c := Candidate(table[i].id, text(table[i]));
      CandidatesAre(table, |table|, text, all, c);
      assert Wanted(table[i], text, all, c);
      var j :| 0 <= j < |candidates| && candidates[j] == c;
    }
  }

  lemma OthersKept(before: map<string, Vector>, after: map<string, Vector>, table: seq<Row>, text: Row -> string, all: bool,
                   embed: string -> Vector, id: string)
    requires OwnVectors(before, after, Scanned(table, |table|, text, all).candidates, embed)
    requires id in before && !Selected(table, text, all, id)
    ensures id in after && after[id] == before[id]
  {
    var candidates := Scanned(table, |table|, text, all).candidates;
    if Fresh(before, after, id) {
      var j :| 0 <= j < |candidates| && candidates[j].id == id;
      assert candidates[j] in candidates;
      CandidatesAre(table, |table|, text, all, candidates[j]);
    }
  }

  /**
   `--apply`.  A run that reports no failure leaves every row it was to embed with the embedding of its own text, and so
   no row with a text is without a vector; the vectors of all other fibers are as they were.
   */
  method Apply(store: VectorStore, table: seq<Row>, neurons: map<string, string>, all: bool, replies: nat -> Reply,
               writes: nat -> Option<nat>, ghost text: Row -> string, ghost embed: string -> Vector)
      returns (outcome: Outcome)
    requires IsText(text, neurons) && Faithful(Scanned(table, |table|, text, all).candidates, replies, embed)
    modifies store
    ensures UniqueRows(table) && outcome.Finished? && outcome.failed == 0 ==> Embedded(store.vectors, table, text, all, embed)
    ensures UniqueRows(table) && outcome.Finished? && outcome.failed == 0 && Shown(table, old(store.vectors)) ==>
      forall i :: 0 <= i < |table| && text(table[i]) != "" ==> table[i].id in store.vectors
    ensures forall id :: id in old(store.vectors) ==> id in store.vectors
    ensures forall id :: id in old(store.vectors) && !Selected(table, text, all, id) ==> store.vectors[id] == old(store.vectors)[id]
  {
    ghost var before := store.vectors;
    var scan := ScanTable(table, neurons, all, text);
    outcome := EmbedAll(store, scan.candidates, replies, writes, embed);
    if UniqueRows(table) && outcome.Finished? && outcome.failed == 0 {
      CandidateIds(table, |table|, text, all);
      NothingFailed(store.vectors, scan.candidates, replies, writes, embed);
      RowsEmbedded(store.vectors, table, text, all, embed);
    }
    forall id | id in before && !Selected(table, text, all, id)
      ensures id in store.vectors && store.vectors[id] == before[id]
    {
      OthersKept(before, store.vectors, table, text, all, embed, id);
    }
  }
}
