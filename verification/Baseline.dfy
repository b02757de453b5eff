/** The keyword-overlap ranker and its evaluation.  The tokenizer is a parameter. */
module Baseline {
  import opened Prelude
  import opened BenchmarkReports
  import opened Grouping
  import Metrics
  import Order

  datatype Memory = Memory(id: string, content: string)

  datatype Result = Result(id: string, content: string, score: real, shared: set<string>)

  function OverlapScore(query: set<string>, memory: set<string>): real {
    if query == {} then 0.0 else |query * memory| as real / |query| as real
  }

  /** The share of the query's keywords: none, all, or in between. */
  lemma OverlapMeaning(query: set<string>, memory: set<string>)
    ensures Unit(OverlapScore(query, memory))
    ensures OverlapScore(query, memory) > 0.0 <==> query * memory != {}
    ensures OverlapScore(query, memory) == 1.0 <==> query != {} && query <= memory
    ensures OverlapScore(query, memory) * |query| as real == |query * memory| as real
  {
    if query != {} {
      var shared := query * memory;
      Smaller(shared, query);
      Metrics.Quotient(|shared| as real, |query| as real);
      if shared != {} { assert |shared| as real / |query| as real * |query| as real == |shared| as real; }
      assert query <= memory <==> shared == query;
    } else {
      assert query * memory == {};
    }
  }

  lemma Smaller<T>(a: set<T>, b: set<T>)
    requires a <= b
    ensures |a| <= |b| && (|a| == |b| <==> a == b)
  {
    assert b == a + (b - a);
  }

  function Judge(query: set<string>, m: Memory, tokenize: string -> set<string>): Result {
    Result(m.id, m.content, OverlapScore(query, tokenize(m.content)), query * tokenize(m.content))
  }

  function Scored(query: set<string>, tokenize: string -> set<string>): Memory -> Result {
    (m: Memory) => Judge(query, m, tokenize)
  }

  predicate Positive(r: Result) { r.score > 0.0 }

  /** What the loop collects. */
  function Matches(query: set<string>, memories: seq<Memory>, tokenize: string -> set<string>): seq<Result> {
    Filter(Positive, Map(Scored(query, tokenize), memories))
  }

  /** The sort key (-score, id). */
  predicate Better(a: Result, b: Result) {
    a.score > b.score || (a.score == b.score && Order.StringLeq(a.id, b.id))
  }

  function Ranked(query: set<string>, memories: seq<Memory>, topK: int, tokenize: string -> set<string>): seq<Result> {
    Take(Order.Sort(Better, Matches(query, memories, tokenize)), topK)
  }

  method RankMemories(query: string, memories: seq<Memory>, topK: int, tokenize: string -> set<string>) returns (r: seq<Result>)
    ensures r == Ranked(tokenize(query), memories, topK, tokenize)
  {
    var results := CollectMatches(tokenize(query), memories, tokenize);
    r := Take(Order.Sort(Better, results), topK);
  }

  method CollectMatches(tokens: set<string>, memories: seq<Memory>, tokenize: string -> set<string>) returns (results: seq<Result>)
    ensures results == Matches(tokens, memories, tokenize)
  {
    results := [];
    for i := 0 to |memories|
      invariant results == Matches(tokens, memories[..i], tokenize)
    {
      var m := memories[i];
      assert memories[..i + 1] == memories[..i] + [m];
      OneMoreMatch(tokens, memories[..i], m, tokenize);
      var score := OverlapScore(tokens, tokenize(m.content));
      if score > 0.0 {
        results := results + [Result(m.id, m.content, score, tokens * tokenize(m.content))];
      }
    }
    assert memories[..|memories|] == memories;
  }

  lemma OneMoreMatch(query: set<string>, memories: seq<Memory>, m: Memory, tokenize: string -> set<string>)
    ensures Matches(query, memories + [m], tokenize)
         == Matches(query, memories, tokenize) + (if Positive(Judge(query, m, tokenize)) then [Judge(query, m, tokenize)] else [])
  {
    var f := Scored(query, tokenize);
    MapAppend(f, memories, [m]);
    assert Map(f, [m]) == [f(m)];
    FilterAppend(Positive, Map(f, memories), [f(m)]);
    FilterCons(Positive, f(m), []);
    assert [f(m)] + [] == [f(m)];
  }

  // ----- the ordering -----

  lemma BetterOrder()
    ensures Order.TotalPreorder(Better)
  {
    Order.StringOrder();
  }

  predicate UniqueIds(memories: seq<Memory>) {
    forall i, j :: 0 <= i < j < |memories| ==> memories[i].id != memories[j].id
  }

  predicate DistinctIds(rs: seq<Result>) {
    forall i, j :: 0 <= i < j < |rs| ==> rs[i].id != rs[j].id
  }

  lemma {:induction false} FilterIds(rs: seq<Result>)
    requires DistinctIds(rs)
    ensures DistinctIds(Filter(Positive, rs))
  {
    if rs != [] {
      FilterIds(rs[1..]);
      var rest := Filter(Positive, rs[1..]);
      forall j | 0 <= j < |rest|
        ensures rest[j].id != rs[0].id
      {
        assert rest[j] in rest;
        assert rest[j] in rs[1..];
        var k :| 0 <= k < |rs[1..]| && rs[1..][k] == rest[j];
        assert rs[k + 1] == rest[j];
      }
    }
  }

  lemma MatchIds(query: set<string>, memories: seq<Memory>, tokenize: string -> set<string>)
    requires UniqueIds(memories)
    ensures DistinctIds(Matches(query, memories, tokenize))
    ensures Order.NoTies(Better, Matches(query, memories, tokenize))
  {
    var all := Map(Scored(query, tokenize), memories);
    var ms := Matches(query, memories, tokenize);
    FilterIds(all);
    forall a, b | a in ms && b in ms && Better(a, b) && Better(b, a)
      ensures a == b
    {
      Order.StringAntisymmetric(a.id, b.id);
      var i :| 0 <= i < |ms| && ms[i] == a;
      var j :| 0 <= j < |ms| && ms[j] == b;
    }
  }

  lemma SortedIds(ms: seq<Result>, sorted: seq<Result>)
    requires DistinctIds(ms) && multiset(ms) == multiset(sorted)
    ensures DistinctIds(sorted)
  {
    forall i, j | 0 <= i < j < |sorted|
      ensures sorted[i].id != sorted[j].id
    {
      Distinguish(ms);
      SamePiecesDistinct(ms, sorted);
      assert sorted[i] in multiset(ms) && sorted[j] in multiset(ms);
      var a :| 0 <= a < |ms| && ms[a] == sorted[i];
      var b :| 0 <= b < |ms| && ms[b] == sorted[j];
    }
  }

  lemma Distinguish(ms: seq<Result>)
    requires DistinctIds(ms)
    ensures Distinct(ms)
  {
  }

  // ----- results -----

  /** No memory is ranked twice. */
  lemma RankedIdsDistinct(query: set<string>, memories: seq<Memory>, topK: int, tokenize: string -> set<string>)
    requires UniqueIds(memories)
    ensures DistinctIds(Ranked(query, memories, topK, tokenize))
  {
    var ms := Matches(query, memories, tokenize);
    BetterOrder();
    Order.SortCorrect(Better, ms);
    MatchIds(query, memories, tokenize);
    SortedIds(ms, Order.Sort(Better, ms));
  }

  /**
   The result is the first topK of the one list that holds exactly the memories sharing a keyword with the
   query, best score first and ids ascending among equals.
   */
  lemma RankedIsUnique(query: set<string>, memories: seq<Memory>, topK: int, tokenize: string -> set<string>, ordering: seq<Result>)
    requires UniqueIds(memories) && Order.Sorted(Better, ordering)
    requires multiset(ordering) == multiset(Matches(query, memories, tokenize))
    ensures Ranked(query, memories, topK, tokenize) == Take(ordering, topK)
  {
    var ms := Matches(query, memories, tokenize);
    BetterOrder();
    Order.SortCorrect(Better, ms);
    MatchIds(query, memories, tokenize);
    Order.SortedUnique(Better, Order.Sort(Better, ms), ordering);
  }

  /** The memory's own id and text, the keywords it shares with the query, and the share these are of the query's. */
  predicate JudgedAs(r: Result, query: set<string>, m: Memory, tokenize: string -> set<string>) {
    && r.id == m.id && r.content == m.content && r.shared == query * tokenize(m.content)
    && r.score * |query| as real == |r.shared| as real
  }

  lemma JudgeIs(r: Result, query: set<string>, m: Memory, tokenize: string -> set<string>)
    requires query * tokenize(m.content) != {}
    ensures JudgedAs(r, query, m, tokenize) <==> r == Judge(query, m, tokenize)
  {
    OverlapMeaning(query, tokenize(m.content));
    if JudgedAs(r, query, m, tokenize) { SameFactor(r.score, OverlapScore(query, tokenize(m.content)), |query| as real); }
  }

  lemma SameFactor(x: real, y: real, n: real)
    requires n > 0.0 && x * n == y * n
    ensures x == y
  {
    if x > y { Metrics.Scale(x, y, n); }
    if y > x { Metrics.Scale(y, x, n); }
  }

  /** The matches are the memories that share a keyword with the query, each judged by itself. */
  lemma MatchesJudged(query: set<string>, memories: seq<Memory>, tokenize: string -> set<string>, r: Result)
    ensures r in Matches(query, memories, tokenize) <==>
      exists m :: m in memories && JudgedAs(r, query, m, tokenize) && query * tokenize(m.content) != {}
  {
    MatchesAre(query, memories, tokenize, r);
    if m :| m in memories && r == Judge(query, m, tokenize) && query * tokenize(m.content) != {} { JudgeIs(r, query, m, tokenize); }
    if m :| m in memories && JudgedAs(r, query, m, tokenize) && query * tokenize(m.content) != {} { JudgeIs(r, query, m, tokenize); }
  }

  /** Best score first; among equal scores, ids as texts are ordered. */
  predicate NoWorse(a: Result, b: Result) { a.score > b.score || (a.score == b.score && Order.StringLeq(a.id, b.id)) }

  /** The ranking is in that order. */
  lemma RankedInOrder(query: set<string>, memories: seq<Memory>, topK: int, tokenize: string -> set<string>)
    ensures var r := Ranked(query, memories, topK, tokenize);
      forall i, j :: 0 <= i < j < |r| ==> NoWorse(r[i], r[j])
  {
    var ms := Matches(query, memories, tokenize);
    BetterOrder();
    Order.SortCorrect(Better, ms);
    var all, r := Order.Sort(Better, ms), Ranked(query, memories, topK, tokenize);
    forall i, j | 0 <= i < j < |r|
      ensures NoWorse(r[i], r[j])
    {
      assert r[i] == all[i] && r[j] == all[j];
    }
  }

  lemma MatchesAre(query: set<string>, memories: seq<Memory>, tokenize: string -> set<string>, r: Result)
    ensures r in Matches(query, memories, tokenize) <==>
      exists m :: m in memories && r == Judge(query, m, tokenize) && query * tokenize(m.content) != {}
  {
    var f := Scored(query, tokenize);
    var all := Map(f, memories);
    forall m: Memory ensures Positive(f(m)) <==> query * tokenize(m.content) != {} { OverlapMeaning(query, tokenize(m.content)); }
    if r in Matches(query, memories, tokenize) {
      var i :| 0 <= i < |all| && all[i] == r;
      assert memories[i] in memories && r == f(memories[i]);
    }
    if m :| m in memories && r == f(m) && query * tokenize(m.content) != {} {
      var i :| 0 <= i < |memories| && memories[i] == m;
      assert all[i] == r;
    }
  }

  /** Nothing left out beats anything kept. */
  lemma RankedIsBest(query: set<string>, memories: seq<Memory>, topK: int, tokenize: string -> set<string>, kept: Result, other: Result)
    requires kept in Ranked(query, memories, topK, tokenize)
    requires other in Matches(query, memories, tokenize) && other !in Ranked(query, memories, topK, tokenize)
    ensures NoWorse(kept, other)
  {
    var ms := Matches(query, memories, tokenize);
    BetterOrder();
    Order.SortCorrect(Better, ms);
    var all, top := Order.Sort(Better, ms), Ranked(query, memories, topK, tokenize);
    assert other in all;
    var i :| 0 <= i < |top| && top[i] == kept;
    var j :| 0 <= j < |all| && all[j] == other;
    assert all[i] == kept;
    if j < |top| { assert top[j] == other; }
  }

  lemma PermutedIds(memories: seq<Memory>, others: seq<Memory>)
    requires UniqueIds(memories) && multiset(memories) == multiset(others)
    ensures UniqueIds(others) && forall m :: m in memories <==> m in others
  {
    Order.SamePieces(memories, others);
    assert Distinct(memories);
    SamePiecesDistinct(memories, others);
    forall i, j | 0 <= i < j < |others|
      ensures others[i].id != others[j].id
    {
      assert others[i] in memories && others[j] in memories;
      var a :| 0 <= a < |memories| && memories[a] == others[i];
      var b :| 0 <= b < |memories| && memories[b] == others[j];
    }
  }

  lemma SameMembers(s: seq<Result>, t: seq<Result>)
    requires DistinctIds(s) && DistinctIds(t) && forall r :: r in s <==> r in t
    ensures multiset(s) == multiset(t)
  {
    Distinguish(s);
    Distinguish(t);
    forall r: Result
      ensures multiset(s)[r] == multiset(t)[r]
    {
      CountDistinct(s, r);
      CountDistinct(t, r);
      assert r in s <==> r in multiset(s);
      assert r in t <==> r in multiset(t);
    }
  }

  /** The order in which the memories come does not matter. */
  lemma RankedIgnoresOrder(query: set<string>, memories: seq<Memory>, others: seq<Memory>, topK: int, tokenize: string -> set<string>)
    requires UniqueIds(memories) && multiset(memories) == multiset(others)
    ensures Ranked(query, memories, topK, tokenize) == Ranked(query, others, topK, tokenize)
  {
    PermutedIds(memories, others);
    MatchIds(query, others, tokenize);
    forall r: Result
      ensures r in Matches(query, memories, tokenize) <==> r in Matches(query, others, tokenize)
    {
      MatchesAre(query, memories, tokenize, r);
      MatchesAre(query, others, tokenize, r);
    }
    BetterOrder();
    MatchIds(query, memories, tokenize);
    SameMembers(Matches(query, memories, tokenize), Matches(query, others, tokenize));
    Order.SortPermutation(Better, Matches(query, memories, tokenize), Matches(query, others, tokenize));
  }

  // ----- the evaluation -----

  datatype Query = Query(text: string, category: string, expected: set<string>)

  const OVERALL := "overall"

  function Ids(ranked: seq<Result>): seq<string> { Map((r: Result) => r.id, ranked) }

  /** One evaluation per query, in order, each of the ids the ranker returned for it. */
  ghost predicate Judged(qs: seq<QueryMetrics>, queries: seq<Query>, memories: seq<Memory>, k: int,
                         tokenize: string -> set<string>, d: nat -> real)
  {
    && |qs| == |queries|
    && forall i :: 0 <= i < |qs| ==> JudgedOne(qs[i], queries[i], memories, k, tokenize, d)
  }

  ghost predicate JudgedOne(q: QueryMetrics, query: Query, memories: seq<Memory>, k: int,
                            tokenize: string -> set<string>, d: nat -> real)
  {
    && q.query == query.text && q.category == query.category
    && Measures(q, Ids(Ranked(tokenize(query.text), memories, k, tokenize)), query.expected, k, d)
    && (UniqueIds(memories) ==> UnitMetrics(q))
  }

  ghost predicate ReportsOn(result: map<string, Row>, qs: seq<QueryMetrics>) {
    && (forall c :: c in result <==> c == OVERALL || Group(qs, c) != [])
    && (forall c :: c in result && Group(qs, c) != [] ==> result[c] == Summary(Group(qs, c)))
    && (OVERALL in result && Group(qs, OVERALL) == [] ==>
          result[OVERALL] == if qs == [] then Row(0.0, 0.0, 0.0, 0.0, None) else Summary(qs).(count := None))
  }

  method JudgeOne(query: Query, memories: seq<Memory>, k: int, tokenize: string -> set<string>, d: nat -> real)
      returns (q: QueryMetrics)
    requires Metrics.Discount(d)
    ensures JudgedOne(q, query, memories, k, tokenize, d)
  {
    var ranked := RankMemories(query.text, memories, k, tokenize);
    if UniqueIds(memories) { RankedIdsDistinct(tokenize(query.text), memories, k, tokenize); }
    q := EvaluateQuery(query.text, query.category, Ids(ranked), query.expected, k, d);
  }

  /** The report on the queries; a category called `overall` hides the total. */
  method EvaluateBaseline(queries: seq<Query>, memories: seq<Memory>, k: int, tokenize: string -> set<string>, d: nat -> real)
      returns (result: map<string, Row>)
    requires Metrics.Discount(d)
    ensures exists qs :: Judged(qs, queries, memories, k, tokenize, d) && ReportsOn(result, qs)
  {
    var report := new BenchmarkReport();
    report.queryMetrics := JudgeAll(queries, memories, k, tokenize, d);
    report.ComputeAggregates();
    result := map[OVERALL := report.Overall()] + report.categoryBreakdown;
    Assembled(report.Overall(), report.categoryBreakdown, report.queryMetrics);
  }

  method JudgeAll(queries: seq<Query>, memories: seq<Memory>, k: int, tokenize: string -> set<string>, d: nat -> real)
      returns (qs: seq<QueryMetrics>)
    requires Metrics.Discount(d)
    ensures Judged(qs, queries, memories, k, tokenize, d)
  {
    qs := [];
    for i := 0 to |queries|
      invariant Judged(qs, queries[..i], memories, k, tokenize, d)
    {
      var q := JudgeOne(queries[i], memories, k, tokenize, d);
      JudgedOneMore(qs, q, queries[..i], queries[i], memories, k, tokenize, d);
      assert queries[..i + 1] == queries[..i] + [queries[i]];
      qs := qs + [q];
    }
    assert queries[..|queries|] == queries;
  }

  lemma JudgedOneMore(qs: seq<QueryMetrics>, q: QueryMetrics, queries: seq<Query>, query: Query, memories: seq<Memory>, k: int,
                      tokenize: string -> set<string>, d: nat -> real)
    requires Judged(qs, queries, memories, k, tokenize, d) && JudgedOne(q, query, memories, k, tokenize, d)
    ensures Judged(qs + [q], queries + [query], memories, k, tokenize, d)
  {
    forall i | 0 <= i < |qs| + 1
      ensures JudgedOne((qs + [q])[i], (queries + [query])[i], memories, k, tokenize, d)
    {
      if i < |qs| { assert JudgedOne(qs[i], queries[i], memories, k, tokenize, d); }
    }
  }

  lemma Assembled(overall: Row, rows: map<string, Row>, qs: seq<QueryMetrics>)
    requires qs == [] ==> overall == Row(0.0, 0.0, 0.0, 0.0, None) && rows == map[]
    requires qs != [] ==> overall == Summary(qs).(count := None) && BreaksDown(rows, map[], qs)
    ensures ReportsOn(map[OVERALL := overall] + rows, qs)
  {
    if qs == [] { forall c ensures Group(qs, c) == [] {} }
  }

  /** Over memories with distinct ids every reported score lies in [0, 1], and so does every average. */
  lemma ReportedScoresUnit(result: map<string, Row>, qs: seq<QueryMetrics>, queries: seq<Query>, memories: seq<Memory>, k: int,
                           tokenize: string -> set<string>, d: nat -> real)
    requires Judged(qs, queries, memories, k, tokenize, d) && ReportsOn(result, qs) && UniqueIds(memories)
    ensures forall c :: c in result ==> UnitRow(result[c])
  {
    forall i | 0 <= i < |qs| ensures UnitMetrics(qs[i]) { assert JudgedOne(qs[i], queries[i], memories, k, tokenize, d); }
    if qs != [] { SummaryUnit(qs); }
    forall c | Group(qs, c) != [] ensures UnitRow(Summary(Group(qs, c))) { GroupUnit(qs, c); }
  }

  /** The total is reported unless some query's category takes its name. */
  lemma TotalReportedIff(result: map<string, Row>, qs: seq<QueryMetrics>, queries: seq<Query>, memories: seq<Memory>, k: int,
                         tokenize: string -> set<string>, d: nat -> real)
    requires Judged(qs, queries, memories, k, tokenize, d) && ReportsOn(result, qs)
    ensures "overall" in result && (result["overall"].count.None? <==> forall i :: 0 <= i < |queries| ==> queries[i].category != "overall")
  {
    forall i | 0 <= i < |qs| ensures qs[i].category == queries[i].category { assert JudgedOne(qs[i], queries[i], memories, k, tokenize, d); }
    GroupOf(qs, queries, OVERALL);
  }

  lemma GroupOf(qs: seq<QueryMetrics>, queries: seq<Query>, c: string)
    requires |qs| == |queries| && forall j :: 0 <= j < |qs| ==> qs[j].category == queries[j].category
    ensures Group(qs, c) != [] <==> exists i :: 0 <= i < |queries| && queries[i].category == c
  {
    MembersNonempty(Category, qs, c);
  }

  lemma GroupUnit(qs: seq<QueryMetrics>, c: string)
    requires Group(qs, c) != [] && forall i :: 0 <= i < |qs| ==> UnitMetrics(qs[i])
    ensures UnitRow(Summary(Group(qs, c)))
  {
    forall i | 0 <= i < |Group(qs, c)|
      ensures UnitMetrics(Group(qs, c)[i])
    {
      assert Group(qs, c)[i] in Group(qs, c);
    }
    SummaryUnit(Group(qs, c));
  }
}
