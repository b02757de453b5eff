/** Per-query evaluation and the aggregation of a benchmark run. */
module BenchmarkReports {
  import opened Prelude
  import opened Grouping
  import opened Metrics

  datatype QueryMetrics = QueryMetrics(
    query: string,
    category: string,
    precision: real,
    recall: real,
    reciprocalRank: real,
    ndcg: real,
    k: int,
    relevantFound: nat,
    totalRelevant: nat)

  /** `count` is given for categories only. */
  datatype Row = Row(precision: real, recall: real, mrr: real, ndcg: real, count: Option<nat>)

  predicate Unit(x: real) { 0.0 <= x <= 1.0 }

  predicate UnitMetrics(q: QueryMetrics) { Unit(q.precision) && Unit(q.recall) && Unit(q.reciprocalRank) && Unit(q.ndcg) }

  predicate UnitRow(r: Row) { Unit(r.precision) && Unit(r.recall) && Unit(r.mrr) && Unit(r.ndcg) }

  ghost predicate Measures(q: QueryMetrics, ids: seq<string>, relevant: set<string>, k: int, d: nat -> real) {
    && q.precision == PrecisionAtK(ids, relevant, k)
    && q.recall == RecallAtK(ids, relevant, k)
    && q.reciprocalRank == Reciprocal(ids, relevant)
    && q.ndcg == Ndcg(ids, relevant, k, d)
    && q.k == k && q.relevantFound == Hits(Take(ids, k), relevant) && q.totalRelevant == |relevant|
  }

  method EvaluateQuery(query: string, category: string, ids: seq<string>, relevant: set<string>, k: int, d: nat -> real)
      returns (q: QueryMetrics)
    requires Discount(d)
    ensures q.query == query && q.category == category && Measures(q, ids, relevant, k, d)
    ensures Distinct(ids) ==> UnitMetrics(q)
  {
    var rr := ReciprocalRank(ids, relevant);
    var ndcg := NdcgAtK(ids, relevant, k, d);
    q := QueryMetrics(query, category, PrecisionAtK(ids, relevant, k), RecallAtK(ids, relevant, k), rr, ndcg,
                      k, Hits(Take(ids, k), relevant), |relevant|);
    if Distinct(ids) {
      ReciprocalUnit(ids, relevant);
      NdcgRange(ids, relevant, k, d);
      PrecisionRecallRange(ids, relevant, k);
    }
  }

  lemma ReciprocalUnit(ids: seq<string>, relevant: set<string>)
    ensures Unit(Reciprocal(ids, relevant))
  {
    ReciprocalIs(ids, relevant);
  }

  // ----- sums and groups -----

  function Sum(qs: seq<QueryMetrics>, f: QueryMetrics -> real): real {
    if qs == [] then 0.0 else f(qs[0]) + Sum(qs[1..], f)
  }

  function Mean(qs: seq<QueryMetrics>, f: QueryMetrics -> real): real
    requires qs != []
  {
    Sum(qs, f) / |qs| as real
  }

  function Category(q: QueryMetrics): Option<string> { Some(q.category) }

  function Group(qs: seq<QueryMetrics>, category: string): seq<QueryMetrics> { Members(Category, qs, category) }

  /** The categories in order of first appearance. */
  function Categories(qs: seq<QueryMetrics>): seq<string> { FirstSeen(Category, qs) }

  function Summary(qs: seq<QueryMetrics>): Row
    requires qs != []
  {
    Row(Mean(qs, (q: QueryMetrics) => q.precision), Mean(qs, (q: QueryMetrics) => q.recall),
        Mean(qs, (q: QueryMetrics) => q.reciprocalRank), Mean(qs, (q: QueryMetrics) => q.ndcg), Some(|qs|))
  }

  /** One more query, column by column: each mean is of its own scores, and with the empty list this determines them. */
  lemma SummaryMore(qs: seq<QueryMetrics>, q: QueryMetrics)
    ensures var n, after := |qs| as real, Summary(qs + [q]);
      && after.count == Some(|qs| + 1)
      && after.precision * (n + 1.0) == (if qs == [] then 0.0 else Summary(qs).precision * n) + q.precision
      && after.recall * (n + 1.0) == (if qs == [] then 0.0 else Summary(qs).recall * n) + q.recall
      && after.mrr * (n + 1.0) == (if qs == [] then 0.0 else Summary(qs).mrr * n) + q.reciprocalRank
      && after.ndcg * (n + 1.0) == (if qs == [] then 0.0 else Summary(qs).ndcg * n) + q.ndcg
  {
    MeanMore(qs, q, (r: QueryMetrics) => r.precision);
    MeanMore(qs, q, (r: QueryMetrics) => r.recall);
    MeanMore(qs, q, (r: QueryMetrics) => r.reciprocalRank);
    MeanMore(qs, q, (r: QueryMetrics) => r.ndcg);
  }

  lemma MeanMore(qs: seq<QueryMetrics>, q: QueryMetrics, f: QueryMetrics -> real)
    ensures Mean(qs + [q], f) * (|qs| as real + 1.0) == (if qs == [] then 0.0 else Mean(qs, f) * |qs| as real) + f(q)
  {
    SumMore(qs, q, f);
    MeanTimes(qs + [q], f);
    if qs != [] { MeanTimes(qs, f); }
  }

  lemma {:induction false} SumMore(qs: seq<QueryMetrics>, q: QueryMetrics, f: QueryMetrics -> real)
    ensures Sum(qs + [q], f) == Sum(qs, f) + f(q)
  {
    if qs == [] {
      assert qs + [q] == [q];
    } else {
      assert (qs + [q])[1..] == qs[1..] + [q];
      SumMore(qs[1..], q, f);
    }
  }

  // ----- aggregation -----

  /** The breakdown as it should be: a row for each category present, older rows kept. */
  ghost predicate BreaksDown(rows: map<string, Row>, before: map<string, Row>, qs: seq<QueryMetrics>) {
    forall c: string ::
      && (c in rows <==> c in before || Group(qs, c) != [])
      && (Group(qs, c) != [] ==> c in rows && rows[c] == Summary(Group(qs, c)))
      && (Group(qs, c) == [] && c in before ==> c in rows && rows[c] == before[c])
  }

  class BenchmarkReport {
    var queryMetrics: seq<QueryMetrics>
    var meanPrecision: real
    var meanRecall: real
    var mrr: real
    var meanNdcg: real
    var categoryBreakdown: map<string, Row>

    constructor ()
      ensures queryMetrics == [] && categoryBreakdown == map[] && Overall() == Row(0.0, 0.0, 0.0, 0.0, None)
    {
      queryMetrics := [];
      meanPrecision, meanRecall, mrr, meanNdcg := 0.0, 0.0, 0.0, 0.0;
      categoryBreakdown := map[];
    }

    function Overall(): Row
      reads this
    {
      Row(meanPrecision, meanRecall, mrr, meanNdcg, None)
    }

    method ComputeAggregates()
      modifies `meanPrecision, `meanRecall, `mrr, `meanNdcg, `categoryBreakdown
      ensures queryMetrics == [] ==> Overall() == old(Overall()) && categoryBreakdown == old(categoryBreakdown)
      ensures queryMetrics != [] ==> Overall() == Summary(queryMetrics).(count := None)
      ensures queryMetrics != [] ==> BreaksDown(categoryBreakdown, old(categoryBreakdown), queryMetrics)
    {
      if queryMetrics == [] { return; }
      meanPrecision := Mean(queryMetrics, (q: QueryMetrics) => q.precision);
      meanRecall := Mean(queryMetrics, (q: QueryMetrics) => q.recall);
      mrr := Mean(queryMetrics, (q: QueryMetrics) => q.reciprocalRank);
      meanNdcg := Mean(queryMetrics, (q: QueryMetrics) => q.ndcg);
      var order, groups := GroupBy(Category, queryMetrics);
      FillBreakdown(order, groups, queryMetrics);
    }

    method FillBreakdown(order: seq<string>, groups: map<string, seq<QueryMetrics>>, ghost qs: seq<QueryMetrics>)
      requires order == Categories(qs) && GroupedBy(groups, Category, qs)
      modifies `categoryBreakdown
      ensures BreaksDown(categoryBreakdown, old(categoryBreakdown), qs)
    {
      OrderPresent(order, groups, qs);
      ghost var before := categoryBreakdown;
      for i := 0 to |order|
        invariant FilledTo(categoryBreakdown, before, order[..i], groups)
      {
        FilledStep(categoryBreakdown, before, order, i, groups);
        categoryBreakdown := categoryBreakdown[order[i] := Summary(groups[order[i]])];
      }
      assert order[..|order|] == order;
      FilledAll(categoryBreakdown, before, order, groups, qs);
    }
  }

  lemma CategoriesPresent(qs: seq<QueryMetrics>)
    ensures forall c :: Group(qs, c) != [] <==> c in Categories(qs)
  {
    forall c ensures Group(qs, c) != [] <==> c in Categories(qs) { MembersNonempty(Category, qs, c); }
  }

  /** Each of these categories has results. */
  ghost predicate AllPresent(order: seq<string>, groups: map<string, seq<QueryMetrics>>) {
    forall i :: 0 <= i < |order| ==> order[i] in groups && groups[order[i]] != []
  }

  lemma OrderPresent(order: seq<string>, groups: map<string, seq<QueryMetrics>>, qs: seq<QueryMetrics>)
    requires order == Categories(qs) && GroupedBy(groups, Category, qs)
    ensures AllPresent(order, groups)
  {
    CategoriesPresent(qs);
    forall i | 0 <= i < |order| ensures order[i] in groups && groups[order[i]] != [] { assert order[i] in order; }
  }

  lemma FilledStep(rows: map<string, Row>, before: map<string, Row>, order: seq<string>, i: nat, groups: map<string, seq<QueryMetrics>>)
    requires i < |order| && AllPresent(order, groups) && FilledTo(rows, before, order[..i], groups)
    ensures FilledTo(rows[order[i] := Summary(groups[order[i]])], before, order[..i + 1], groups)
  {
    assert order[..i + 1] == order[..i] + [order[i]];
    FilledOneMore(rows, before, order[..i], order[i], groups);
  }

  lemma FilledAll(rows: map<string, Row>, before: map<string, Row>, order: seq<string>, groups: map<string, seq<QueryMetrics>>, qs: seq<QueryMetrics>)
    requires FilledTo(rows, before, order, groups) && order == Categories(qs) && GroupedBy(groups, Category, qs)
    ensures BreaksDown(rows, before, qs)
  {
    CategoriesPresent(qs);
    FilledBreaksDown(rows, before, order, groups, qs);
  }

  lemma FilledOneMore(rows: map<string, Row>, before: map<string, Row>, done: seq<string>, c: string,
                      groups: map<string, seq<QueryMetrics>>)
    requires FilledTo(rows, before, done, groups) && c in groups && groups[c] != []
    ensures FilledTo(rows[c := Summary(groups[c])], before, done + [c], groups)
  {
  }

  lemma FilledBreaksDown(rows: map<string, Row>, before: map<string, Row>, done: seq<string>,
                         groups: map<string, seq<QueryMetrics>>, qs: seq<QueryMetrics>)
    requires FilledTo(rows, before, done, groups) && GroupedBy(groups, Category, qs)
    requires forall c :: Group(qs, c) != [] <==> c in done
    ensures BreaksDown(rows, before, qs)
  {
  }

  ghost predicate FilledTo(rows: map<string, Row>, before: map<string, Row>, done: seq<string>, groups: map<string, seq<QueryMetrics>>) {
    && (forall c :: c in rows <==> c in before || c in done)
    && (forall c :: c in done ==> c in groups && groups[c] != [] && c in rows && rows[c] == Summary(groups[c]))
    && (forall c :: c in before && c !in done ==> c in rows && rows[c] == before[c])
  }

  // ----- what the aggregates mean -----

  lemma {:induction false} SumUnit(qs: seq<QueryMetrics>, f: QueryMetrics -> real)
    requires forall i :: 0 <= i < |qs| ==> Unit(f(qs[i]))
    ensures 0.0 <= Sum(qs, f) <= |qs| as real
  {
    if qs != [] { SumUnit(qs[1..], f); }
  }

  /** Averages of scores in [0, 1] lie in [0, 1]. */
  lemma MeanUnit(qs: seq<QueryMetrics>, f: QueryMetrics -> real)
    requires qs != [] && forall i :: 0 <= i < |qs| ==> Unit(f(qs[i]))
    ensures Unit(Mean(qs, f))
  {
    SumUnit(qs, f);
    Quotient(Sum(qs, f), |qs| as real);
  }

  lemma SummaryUnit(qs: seq<QueryMetrics>)
    requires qs != [] && forall i :: 0 <= i < |qs| ==> UnitMetrics(qs[i])
    ensures UnitRow(Summary(qs))
  {
    MeanUnit(qs, (q: QueryMetrics) => q.precision);
    MeanUnit(qs, (q: QueryMetrics) => q.recall);
    MeanUnit(qs, (q: QueryMetrics) => q.reciprocalRank);
    MeanUnit(qs, (q: QueryMetrics) => q.ndcg);
  }

  /** The category rows weighted by their counts, added up over a list of categories. */
  function Weighted(categories: seq<string>, qs: seq<QueryMetrics>, f: QueryMetrics -> real): real {
    if categories == [] then 0.0
    else
      var group := Group(qs, categories[0]);
      (if group == [] then 0.0 else |group| as real * Mean(group, f)) + Weighted(categories[1..], qs, f)
  }

  function GroupSums(categories: seq<string>, qs: seq<QueryMetrics>, f: QueryMetrics -> real): real {
    if categories == [] then 0.0 else Sum(Group(qs, categories[0]), f) + GroupSums(categories[1..], qs, f)
  }

  lemma Undivide(n: real, s: real)
    requires n != 0.0
    ensures n * (s / n) == s
  {
  }

  lemma {:induction false} WeightedSums(categories: seq<string>, qs: seq<QueryMetrics>, f: QueryMetrics -> real)
    ensures Weighted(categories, qs, f) == GroupSums(categories, qs, f)
  {
    if categories != [] {
      WeightedSums(categories[1..], qs, f);
      var group := Group(qs, categories[0]);
      if group != [] { MeanTimes(group, f); }
    }
  }

  lemma {:induction false} GroupSumsCons(categories: seq<string>, q: QueryMetrics, rest: seq<QueryMetrics>, f: QueryMetrics -> real)
    requires Distinct(categories)
    ensures GroupSums(categories, [q] + rest, f)
         == GroupSums(categories, rest, f) + (if q.category in categories then f(q) else 0.0)
  {
    if categories != [] {
      var c, more := categories[0], categories[1..];
      assert categories == [c] + more;
      GroupSumsCons(more, q, rest, f);
      FilterCons((r: QueryMetrics) => Category(r) == Some(c), q, rest);
      if q.category == c {
        assert c !in more;
        assert ([q] + Group(rest, c))[1..] == Group(rest, c);
      }
    }
  }

  lemma {:induction false} GroupSumsNone(categories: seq<string>, f: QueryMetrics -> real)
    ensures GroupSums(categories, [], f) == 0.0
  {
    if categories != [] { GroupSumsNone(categories[1..], f); }
  }

  lemma {:induction false} GroupSumsTotal(categories: seq<string>, qs: seq<QueryMetrics>, f: QueryMetrics -> real)
    requires Distinct(categories) && forall i :: 0 <= i < |qs| ==> qs[i].category in categories
    ensures GroupSums(categories, qs, f) == Sum(qs, f)
  {
    if qs == [] {
      GroupSumsNone(categories, f);
    } else {
      assert qs == [qs[0]] + qs[1..];
      GroupSumsTotal(categories, qs[1..], f);
      GroupSumsCons(categories, qs[0], qs[1..], f);
    }
  }

  lemma MeanTimes(qs: seq<QueryMetrics>, f: QueryMetrics -> real)
    requires qs != []
    ensures |qs| as real * Mean(qs, f) == Sum(qs, f)
  {
    Undivide(|qs| as real, Sum(qs, f));
  }

  lemma RecombinesOver(categories: seq<string>, qs: seq<QueryMetrics>, f: QueryMetrics -> real)
    requires qs != [] && Distinct(categories) && forall i :: 0 <= i < |qs| ==> qs[i].category in categories
    ensures Weighted(categories, qs, f) == |qs| as real * Mean(qs, f)
  {
    WeightedSums(categories, qs, f);
    GroupSumsTotal(categories, qs, f);
    MeanTimes(qs, f);
  }

  /** The breakdown recombines: category means weighted by their counts give the overall mean. */
  lemma Recombines(qs: seq<QueryMetrics>, f: QueryMetrics -> real)
    requires qs != []
    ensures Weighted(Categories(qs), qs, f) == |qs| as real * Mean(qs, f)
  {
    RecombinesOver(Categories(qs), qs, f);
  }
}
