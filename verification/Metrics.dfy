/**
 The ranking metrics, over the reals.  The discount 1/log2(i + 2) appears as any positive, strictly
 decreasing function of the position: nothing else about the logarithm is used.
 */
module Metrics {
  import opened Prelude

  ghost predicate Discount(d: nat -> real) {
    (forall i: nat :: d(i) > 0.0) && (forall i: nat, j: nat :: i < j ==> d(i) > d(j))
  }

  // ----- definitions -----

  function Hits(ids: seq<string>, relevant: set<string>): (n: nat)
    ensures n <= |ids|
  {
    if ids == [] then 0
    else Hits(ids[..|ids| - 1], relevant) + (if ids[|ids| - 1] in relevant then 1 else 0)
  }

  function Gain(ids: seq<string>, relevant: set<string>, d: nat -> real): real {
    if ids == [] then 0.0
    else Gain(ids[..|ids| - 1], relevant, d) + (if ids[|ids| - 1] in relevant then d(|ids| - 1) else 0.0)
  }

  /** The gain of n relevant results in the first n places. */
  function Ideal(n: nat, d: nat -> real): real {
    if n == 0 then 0.0 else Ideal(n - 1, d) + d(n - 1)
  }

  function Dcg(ids: seq<string>, relevant: set<string>, k: int, d: nat -> real): real { Gain(Take(ids, k), relevant, d) }

  /** `min(len(relevant_ids), k)`, and none for a negative k. */
  function Goal(relevant: set<string>, k: int): nat {
    if k <= 0 then 0 else if |relevant| <= k then |relevant| else k
  }

  function Ndcg(ids: seq<string>, relevant: set<string>, k: int, d: nat -> real): real {
    var ideal := Ideal(Goal(relevant, k), d);
    if ideal == 0.0 then 0.0 else Dcg(ids, relevant, k, d) / ideal
  }

  function PrecisionAtK(ids: seq<string>, relevant: set<string>, k: int): real {
    if k <= 0 || Take(ids, k) == [] then 0.0 else Hits(Take(ids, k), relevant) as real / k as real
  }

  function RecallAtK(ids: seq<string>, relevant: set<string>, k: int): real {
    if relevant == {} then 1.0 else Hits(Take(ids, k), relevant) as real / |relevant| as real
  }

  // ----- loops of the source -----

  method DcgAtK(ids: seq<string>, relevant: set<string>, k: int, d: nat -> real) returns (dcg: real)
    ensures dcg == Dcg(ids, relevant, k, d)
  {
    dcg := 0.0;
    var top := Take(ids, k);
    for i := 0 to |top|
      invariant dcg == Gain(top[..i], relevant, d)
    {
      assert top[..i + 1][..i] == top[..i];
      dcg := dcg + (if top[i] in relevant then d(i) else 0.0);
    }
    assert top[..|top|] == top;
  }

  method NdcgAtK(ids: seq<string>, relevant: set<string>, k: int, d: nat -> real) returns (ndcg: real)
    ensures ndcg == Ndcg(ids, relevant, k, d)
  {
    var actual := DcgAtK(ids, relevant, k, d);
    var ideal := 0.0;
    for i := 0 to Goal(relevant, k)
      invariant ideal == Ideal(i, d)
    {
      ideal := ideal + d(i);
    }
    ndcg := if ideal == 0.0 then 0.0 else actual / ideal;
  }

  /** One over the rank of the first relevant result. */
  function Reciprocal(ids: seq<string>, relevant: set<string>): real {
    if ids == [] then 0.0
    else
      var before := Reciprocal(ids[..|ids| - 1], relevant);
      if before > 0.0 then before else if ids[|ids| - 1] in relevant then 1.0 / |ids| as real else 0.0
  }

  method ReciprocalRank(ids: seq<string>, relevant: set<string>) returns (rr: real)
    ensures rr == Reciprocal(ids, relevant)
  {
    for i := 0 to |ids|
      invariant forall j :: 0 <= j < i ==> ids[j] !in relevant
    {
      if ids[i] in relevant {
        ReciprocalFirst(ids, relevant, i);
        return 1.0 / (i + 1) as real;
      }
    }
    ReciprocalNone(ids, relevant);
    rr := 0.0;
  }

  lemma {:induction false} ReciprocalNone(ids: seq<string>, relevant: set<string>)
    requires forall j :: 0 <= j < |ids| ==> ids[j] !in relevant
    ensures Reciprocal(ids, relevant) == 0.0
  {
    if ids != [] { ReciprocalNone(ids[..|ids| - 1], relevant); }
  }

  lemma {:induction false} ReciprocalFirst(ids: seq<string>, relevant: set<string>, i: nat)
    requires i < |ids| && ids[i] in relevant && forall j :: 0 <= j < i ==> ids[j] !in relevant
    ensures Reciprocal(ids, relevant) == 1.0 / (i + 1) as real
  {
    var n := |ids| - 1;
    Reciprocals(1.0, (i + 1) as real);
    if i < n { ReciprocalFirst(ids[..n], relevant, i); } else { ReciprocalNone(ids[..n], relevant); }
  }

  /** Zero exactly without a relevant result; else one over the rank of the first, which is the best any of them gives. */
  lemma ReciprocalIs(ids: seq<string>, relevant: set<string>)
    ensures Reciprocal(ids, relevant) == 0.0 <==> forall i :: 0 <= i < |ids| ==> ids[i] !in relevant
    ensures forall i :: 0 <= i < |ids| && ids[i] in relevant ==> 0.0 < 1.0 / (i + 1) as real <= Reciprocal(ids, relevant) <= 1.0
    ensures (exists i :: 0 <= i < |ids| && ids[i] in relevant) ==>
      exists i :: 0 <= i < |ids| && ids[i] in relevant && Reciprocal(ids, relevant) == 1.0 / (i + 1) as real
  {
    if exists i :: 0 <= i < |ids| && ids[i] in relevant {
      var first := FirstOf(ids, relevant);
      ReciprocalFirst(ids, relevant, first);
      Reciprocals(1.0, (first + 1) as real);
      forall i | 0 <= i < |ids| && ids[i] in relevant
        ensures 0.0 < 1.0 / (i + 1) as real <= Reciprocal(ids, relevant) <= 1.0
      {
        Reciprocals((first + 1) as real, (i + 1) as real);
      }
    } else {
      ReciprocalNone(ids, relevant);
    }
  }

  lemma {:induction false} FirstOf(ids: seq<string>, relevant: set<string>) returns (first: nat)
    requires exists i :: 0 <= i < |ids| && ids[i] in relevant
    ensures first < |ids| && ids[first] in relevant && forall j :: 0 <= j < first ==> ids[j] !in relevant
  {
    if ids[0] in relevant {
      first := 0;
    } else {
      var i :| 0 <= i < |ids| && ids[i] in relevant;
      assert ids[1..][i - 1] == ids[i];
      var later := FirstOf(ids[1..], relevant);
      first := later + 1;
    }
  }

  lemma Reciprocals(a: real, b: real)
    requires 0.0 < a <= b
    ensures 0.0 < 1.0 / b <= 1.0 / a
  {
    var x, y := 1.0 / a, 1.0 / b;
    assert x * a == 1.0 && y * b == 1.0;
    if y > x {
      Scale(y, x, b);
      if a < b { Scale(b, a, x); }
    }
  }

  lemma Scale(x: real, y: real, b: real)
    requires x > y && b > 0.0
    ensures x * b > y * b
  {
  }

  // ----- the exchange argument -----

  lemma {:induction false} IdealGrows(m: nat, n: nat, d: nat -> real)
    requires Discount(d) && m <= n
    ensures Ideal(m, d) <= Ideal(n, d)
    ensures m < n ==> Ideal(m, d) < Ideal(n, d)
  {
    if m < n { IdealGrows(m, n - 1, d); }
  }

  ghost predicate AllIn(ids: seq<string>, relevant: set<string>) { forall i :: 0 <= i < |ids| ==> ids[i] in relevant }

  lemma {:induction false} HitsAll(ids: seq<string>, relevant: set<string>)
    ensures Hits(ids, relevant) == |ids| <==> AllIn(ids, relevant)
  {
    if ids != [] {
      var n := |ids| - 1;
      HitsAll(ids[..n], relevant);
      AllInFront(ids, relevant);
    }
  }

  lemma AllInFront(ids: seq<string>, relevant: set<string>)
    requires ids != []
    ensures AllIn(ids, relevant) <==> AllIn(ids[..|ids| - 1], relevant) && ids[|ids| - 1] in relevant
  {
    var n := |ids| - 1;
    if AllIn(ids[..n], relevant) && ids[n] in relevant {
      forall i | 0 <= i < |ids| ensures ids[i] in relevant { if i < n { assert ids[..n][i] == ids[i]; } }
    }
  }

  /** Among arrangements with as many hits, the ideal one has all of them in front, and is the only one as good. */
  lemma {:induction false} GainAtMostIdeal(ids: seq<string>, relevant: set<string>, d: nat -> real)
    requires Discount(d)
    ensures 0.0 <= Gain(ids, relevant, d) <= Ideal(Hits(ids, relevant), d)
    ensures Gain(ids, relevant, d) == Ideal(Hits(ids, relevant), d) <==> AllIn(ids[..Hits(ids, relevant)], relevant)
  {
    if ids != [] {
      var n := |ids| - 1;
      var front, m := ids[..n], Hits(ids[..n], relevant);
      GainAtMostIdeal(front, relevant, d);
      HitsAll(front, relevant);
      assert ids[..m] == front[..m];
      if ids[n] in relevant { LastHit(ids, relevant); }
    }
  }

  /** A hit in the last place leaves all hits in front only if there was no miss before it. */
  lemma LastHit(ids: seq<string>, relevant: set<string>)
    requires ids != [] && ids[|ids| - 1] in relevant
    ensures var n := |ids| - 1;
      AllIn(ids[..Hits(ids, relevant)], relevant) <==> Hits(ids[..n], relevant) == n
  {
    var n := |ids| - 1;
    var front, m := ids[..n], Hits(ids[..n], relevant);
    HitsAll(front, relevant);
    if m == n {
      assert ids[..n + 1] == ids;
    } else {
      assert ids[..m + 1] == front[..m + 1];
      HitsAll(front[..m + 1], relevant);
      FrontHits(front, m + 1, relevant);
    }
  }

  /** A proper prefix all of whose members are hits has no more hits than the whole. */
  lemma {:induction false} FrontHits(ids: seq<string>, n: nat, relevant: set<string>)
    requires n <= |ids|
    ensures Hits(ids[..n], relevant) <= Hits(ids, relevant)
  {
    if n < |ids| {
      var front := ids[..|ids| - 1];
      FrontHits(front, n, relevant);
      assert front[..n] == ids[..n];
    } else {
      assert ids[..n] == ids;
    }
  }

  lemma {:induction false} DistinctHits(ids: seq<string>, relevant: set<string>)
    requires Distinct(ids)
    ensures Hits(ids, relevant) <= |relevant|
    ensures Hits(ids, relevant) == |relevant| <==> forall r :: r in relevant ==> r in ids
  {
    if ids == [] {
      if |relevant| == 0 { assert relevant == {}; }
      else { var r :| r in relevant; }
    } else {
      var n := |ids| - 1;
      var front, last := ids[..n], ids[n];
      assert ids == front + [last];
      if last in relevant {
        var others := relevant - {last};
        DistinctHits(front, others);
        SameHits(front, relevant, others);
        assert (forall r :: r in relevant ==> r in ids) <==> (forall r :: r in others ==> r in front) by {
          forall r | r in others && r in ids ensures r in front { assert r != last; }
        }
      } else {
        DistinctHits(front, relevant);
        assert (forall r :: r in relevant ==> r in ids) <==> (forall r :: r in relevant ==> r in front);
      }
    }
  }

  lemma {:induction false} SameHits(ids: seq<string>, relevant: set<string>, others: set<string>)
    requires forall i :: 0 <= i < |ids| ==> (ids[i] in relevant <==> ids[i] in others)
    ensures Hits(ids, relevant) == Hits(ids, others)
  {
    if ids != [] { SameHits(ids[..|ids| - 1], relevant, others); }
  }

  lemma TakeDistinct(ids: seq<string>, k: int)
    requires Distinct(ids)
    ensures Distinct(Take(ids, k))
  {
  }

  // ----- results -----

  /** With no more hits than there are relevant results, the score is normalised. */
  lemma NdcgNormalised(ids: seq<string>, relevant: set<string>, k: int, d: nat -> real)
    requires Discount(d) && Hits(Take(ids, k), relevant) <= |relevant|
    ensures 0.0 <= Ndcg(ids, relevant, k, d) <= 1.0
    ensures k > 0 && relevant != {} ==>
      (Ndcg(ids, relevant, k, d) == 1.0 <==>
        Goal(relevant, k) <= |ids| && AllIn(ids[..Goal(relevant, k)], relevant))
  {
    var top, n := Take(ids, k), Goal(relevant, k);
    if n > 0 {
      var m := Hits(top, relevant);
      GainAtMostIdeal(top, relevant, d);
      IdealGrows(m, n, d);
      IdealGrows(0, n, d);
      Quotient(Gain(top, relevant, d), Ideal(n, d));
      if m == n { assert top[..m] == ids[..n]; }
      if n <= |ids| && AllIn(ids[..n], relevant) {
        assert top[..n] == ids[..n];
        HitsAll(top[..n], relevant);
        FrontHits(top, n, relevant);
      }
    }
  }

  lemma Unit(q: real, b: real)
    requires b > 0.0
    ensures q * b < b <==> q < 1.0
    ensures q * b == b <==> q == 1.0
  {
    if q < 1.0 { Scale(1.0, q, b); }
    if q > 1.0 { Scale(q, 1.0, b); }
  }

  lemma Quotient(a: real, b: real)
    requires 0.0 <= a <= b && b > 0.0
    ensures 0.0 <= a / b <= 1.0
    ensures a / b == 1.0 <==> a == b
  {
    assert a / b * b == a;
    Unit(a / b, b);
  }

  /** For a ranking without repetition NDCG lies in [0, 1], and is 1 exactly when the leading places are all relevant. */
  lemma NdcgRange(ids: seq<string>, relevant: set<string>, k: int, d: nat -> real)
    requires Discount(d) && Distinct(ids)
    ensures 0.0 <= Ndcg(ids, relevant, k, d) <= 1.0
    ensures k > 0 && relevant != {} ==>
      (Ndcg(ids, relevant, k, d) == 1.0 <==>
        Goal(relevant, k) <= |ids| && AllIn(ids[..Goal(relevant, k)], relevant))
  {
    TakeDistinct(ids, k);
    DistinctHits(Take(ids, k), relevant);
    NdcgNormalised(ids, relevant, k, d);
  }

  lemma {:induction false} GainGrows(ids: seq<string>, n: nat, relevant: set<string>, d: nat -> real)
    requires Discount(d) && n <= |ids|
    ensures Gain(ids[..n], relevant, d) <= Gain(ids, relevant, d)
    decreases |ids|
  {
    if n < |ids| {
      var m := |ids| - 1;
      assert ids[..m][..n] == ids[..n];
      GainGrows(ids[..m], n, relevant, d);
    } else {
      assert ids[..n] == ids;
    }
  }

  lemma AtMostOneIff(a: real, b: real)
    requires b > 0.0
    ensures a / b <= 1.0 <==> a <= b
  {
  }

  /** Recall is a share exactly when there are no more hits than relevant results. */
  lemma RecallAtMostOneIff(ids: seq<string>, relevant: set<string>, k: int)
    requires relevant != {}
    ensures RecallAtK(ids, relevant, k) <= 1.0 <==> Hits(Take(ids, k), relevant) <= |relevant|
  {
    AtMostOneIff(Hits(Take(ids, k), relevant) as real, |relevant| as real);
  }

  /** More leading hits than relevant results, which takes a repetition, push NDCG and recall past 1. */
  lemma RepeatsOverflow(ids: seq<string>, relevant: set<string>, k: nat, d: nat -> real)
    requires Discount(d) && relevant != {} && |relevant| < |Take(ids, k)|
    requires AllIn(Take(ids, k)[..|relevant| + 1], relevant)
    ensures Ndcg(ids, relevant, k, d) > 1.0 && RecallAtK(ids, relevant, k) > 1.0
  {
    var top, n := Take(ids, k), |relevant| + 1;
    var front := top[..n];
    HitsAll(front, relevant);
    FrontHits(top, n, relevant);
    assert front[..n] == front;
    GainAtMostIdeal(front, relevant, d);
    GainGrows(top, n, relevant, d);
    IdealGrows(n - 1, n, d);
    IdealGrows(0, n - 1, d);
    Exceeds(Gain(top, relevant, d), Ideal(n - 1, d));
    RecallAtMostOneIff(ids, relevant, k);
  }

  lemma Exceeds(a: real, b: real)
    requires a > b > 0.0
    ensures a / b > 1.0
  {
    assert a / b * b == a;
    Unit(a / b, b);
  }

  function Contribution(id: string, relevant: set<string>, i: nat, d: nat -> real): real {
    if id in relevant then d(i) else 0.0
  }

  lemma {:induction false} GainUpdate(ids: seq<string>, relevant: set<string>, i: nat, id: string, d: nat -> real)
    requires i < |ids|
    ensures Gain(ids[i := id], relevant, d)
         == Gain(ids, relevant, d) - Contribution(ids[i], relevant, i, d) + Contribution(id, relevant, i, d)
  {
    var n := |ids| - 1;
    var front, updated := ids[..n], ids[i := id];
    if i == n {
      assert updated[..n] == front;
    } else {
      assert updated[..n] == front[i := id];
      GainUpdate(front, relevant, i, id, d);
    }
  }

  /** Moving a relevant result ahead of an irrelevant one within the top k strictly raises DCG. */
  lemma SwapRaises(ids: seq<string>, relevant: set<string>, k: int, i: nat, j: nat, d: nat -> real)
    requires Discount(d) && i < j < |ids| && j < k && ids[i] !in relevant && ids[j] in relevant
    ensures Dcg(ids[i := ids[j]][j := ids[i]], relevant, k, d) > Dcg(ids, relevant, k, d)
  {
    var top := Take(ids, k);
    var once := top[i := ids[j]];
    assert Take(ids[i := ids[j]][j := ids[i]], k) == once[j := ids[i]];
    GainUpdate(top, relevant, i, ids[j], d);
    GainUpdate(once, relevant, j, ids[i], d);
  }

  /** Precision and recall of a ranking without repetition lie in [0, 1], and say when they are full. */
  lemma PrecisionRecallRange(ids: seq<string>, relevant: set<string>, k: int)
    requires Distinct(ids)
    ensures 0.0 <= PrecisionAtK(ids, relevant, k) <= 1.0
    ensures 0.0 <= RecallAtK(ids, relevant, k) <= 1.0
    ensures k > 0 ==> (PrecisionAtK(ids, relevant, k) == 1.0 <==> k <= |ids| && AllIn(ids[..k], relevant))
    ensures RecallAtK(ids, relevant, k) == 1.0 <==> forall r :: r in relevant ==> r in Take(ids, k)
  {
    var top := Take(ids, k);
    TakeDistinct(ids, k);
    DistinctHits(top, relevant);
    HitsAll(top, relevant);
    if relevant != {} { Quotient(Hits(top, relevant) as real, |relevant| as real); }
    if k > 0 { Quotient(Hits(top, relevant) as real, k as real); }
  }

  // ----- the scores as counts -----

  /** `ids[:k]` goes up to here. */
  function Cutoff(n: nat, k: int): int { if k >= 0 then k else n + k }

  lemma {:induction false} HitsCount(ids: seq<string>, relevant: set<string>)
    ensures Hits(ids, relevant) == |set i | 0 <= i < |ids| && ids[i] in relevant|
  {
    if ids != [] {
      var n := |ids| - 1;
      HitsCount(ids[..n], relevant);
      var before, after := set i | 0 <= i < n && ids[..n][i] in relevant, set i | 0 <= i < |ids| && ids[i] in relevant;
      OneMore(before, after, n);
    }
  }

  lemma TopHits(ids: seq<string>, relevant: set<string>, k: int)
    ensures Hits(Take(ids, k), relevant) == |set i | 0 <= i < |ids| && i < Cutoff(|ids|, k) && ids[i] in relevant|
  {
    var top := Take(ids, k);
    HitsCount(top, relevant);
    assert (set i | 0 <= i < |top| && top[i] in relevant) == set i | 0 <= i < |ids| && i < Cutoff(|ids|, k) && ids[i] in relevant;
  }

  lemma Undo(a: real, b: real)
    requires b != 0.0
    ensures a / b * b == a
  {
  }

  lemma PrecisionTimes(ids: seq<string>, relevant: set<string>, k: int)
    ensures if k > 0 then PrecisionAtK(ids, relevant, k) * k as real == Hits(Take(ids, k), relevant) as real
            else PrecisionAtK(ids, relevant, k) == 0.0
  {
    if k > 0 { Undo(Hits(Take(ids, k), relevant) as real, k as real); }
  }

  lemma RecallTimes(ids: seq<string>, relevant: set<string>, k: int)
    ensures if relevant == {} then RecallAtK(ids, relevant, k) == 1.0
            else RecallAtK(ids, relevant, k) * |relevant| as real == Hits(Take(ids, k), relevant) as real
  {
    if relevant != {} { Undo(Hits(Take(ids, k), relevant) as real, |relevant| as real); }
  }

  /** Precision counts the relevant places among the first k against k; recall counts them against the relevant results. */
  lemma ScoresCount(ids: seq<string>, relevant: set<string>, k: int)
    ensures var hits := |set i | 0 <= i < |ids| && i < Cutoff(|ids|, k) && ids[i] in relevant|;
      && (if k > 0 then PrecisionAtK(ids, relevant, k) * k as real == hits as real else PrecisionAtK(ids, relevant, k) == 0.0)
      && (if relevant == {} then RecallAtK(ids, relevant, k) == 1.0 else RecallAtK(ids, relevant, k) * |relevant| as real == hits as real)
  {
    TopHits(ids, relevant, k);
    PrecisionTimes(ids, relevant, k);
    RecallTimes(ids, relevant, k);
  }

  /** NDCG is zero exactly when there is nothing to find or nothing was found. */
  lemma NdcgZeroIff(ids: seq<string>, relevant: set<string>, k: int, d: nat -> real)
    requires Discount(d)
    ensures Ndcg(ids, relevant, k, d) == 0.0 <==> k <= 0 || relevant == {} || Hits(Take(ids, k), relevant) == 0
  {
    var top, n := Take(ids, k), Goal(relevant, k);
    GainAtMostIdeal(top, relevant, d);
    GainPositive(top, relevant, d);
    IdealGrows(0, n, d);
    if n > 0 { QuotientZero(Gain(top, relevant, d), Ideal(n, d)); }
  }

  lemma QuotientZero(a: real, b: real)
    requires b > 0.0
    ensures a / b == 0.0 <==> a == 0.0
  {
    assert a / b * b == a;
  }

  lemma {:induction false} GainPositive(ids: seq<string>, relevant: set<string>, d: nat -> real)
    requires Discount(d)
    ensures Gain(ids, relevant, d) >= 0.0 && (Gain(ids, relevant, d) == 0.0 <==> Hits(ids, relevant) == 0)
  {
    if ids != [] { GainPositive(ids[..|ids| - 1], relevant, d); }
  }
}
