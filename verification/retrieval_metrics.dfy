/**
  Retrieval-quality metrics: hit rate, recall and reciprocal rank over ranked results, their means
  over a population, and the inequalities that tie them together. Averages are exact reals.
 */
module RetrievalMetrics {
  import opened Collections
  import opened Outcomes

  /** One ranked result with the ground-truth targets it matches. Texts are already normalised. */
  datatype Hit = Hit(rank: int, chunkId: string, matched: set<string>)

  datatype Evaluation = Evaluation(targets: set<string>, hits: seq<Hit>)

  datatype Defect = NoTargets | RankGap | DuplicateChunk | UnknownTarget

  datatype MetricError = NonPositiveK

  predicate Relevant(h: Hit) {
    h.matched != {}
  }

  // ----- Construction of a result -----

  predicate WellFormedHits(targets: set<string>, hits: seq<Hit>) {
    && (forall i :: 0 <= i < |hits| ==> hits[i].rank == i + 1 && hits[i].matched <= targets)
    && (forall i, j :: 0 <= i < j < |hits| ==> hits[i].chunkId != hits[j].chunkId)
  }

  predicate Valid(e: Evaluation) {
    e.targets != {} && WellFormedHits(e.targets, e.hits)
  }

  /** The constructor accepts exactly the valid results. */
  method Construct(targets: set<string>, hits: seq<Hit>) returns (r: Result<Evaluation, Defect>)
    ensures r.Ok? <==>
              && targets != {}
              && (forall i :: 0 <= i < |hits| ==> hits[i].rank == i + 1)
              && (forall i, j :: 0 <= i < j < |hits| ==> hits[i].chunkId != hits[j].chunkId)
              && (forall h :: h in hits ==> h.matched <= targets)
    ensures r.Ok? ==> r.value == Evaluation(targets, hits) && Valid(r.value)
    ensures r == Err(NoTargets) <==> targets == {}
  {
    if targets == {} {
      return Err(NoTargets);
    }
    var expected := 1;
    var seen: set<string> := {};
    for i := 0 to |hits|
      invariant expected == i + 1
      invariant WellFormedHits(targets, hits[..i])
      invariant forall c :: c in seen <==> exists j :: 0 <= j < i && hits[j].chunkId == c
    {
      var hit := hits[i];
      if hit.rank != expected {
        assert hits[i].rank != i + 1;
        return Err(RankGap);
      }
      if hit.chunkId in seen {
        return Err(DuplicateChunk);
      }
      if hit.matched - targets != {} {
        assert !(hits[i].matched <= targets);
        return Err(UnknownTarget);
      }
      assert hit.matched == hit.matched - targets + hit.matched * targets;
      assert hits[..i + 1] == hits[..i] + [hit];
      seen := seen + {hit.chunkId};
      expected := expected + 1;
    }
    assert hits[..|hits|] == hits;
    r := Ok(Evaluation(targets, hits));
  }

  // ----- Per-case metrics -----

  /** Index of the first relevant hit; the number of hits when there is none. */
  function FirstRelevant(hits: seq<Hit>): (n: nat)
    ensures n <= |hits|
    ensures n < |hits| ==> Relevant(hits[n])
    ensures forall j :: 0 <= j < n ==> !Relevant(hits[j])
  {
    if hits == [] || Relevant(hits[0]) then 0 else 1 + FirstRelevant(hits[1..])
  }

  ghost function HitAt(e: Evaluation, k: int): real {
    if exists i :: 0 <= i < |e.hits| && e.hits[i].rank <= k && Relevant(e.hits[i]) then 1.0 else 0.0
  }

  function ReciprocalRank(e: Evaluation): real {
    var n := FirstRelevant(e.hits);
    if n < |e.hits| then 1.0 / (n + 1) as real else 0.0
  }

  /** The targets matched by any hit of rank at most k. */
  ghost function MatchedWithin(hits: seq<Hit>, k: int): set<string> {
    set i, t | 0 <= i < |hits| && hits[i].rank <= k && t in hits[i].matched :: t
  }

  ghost function RecallAt(e: Evaluation, k: int): real
    requires Valid(e)
  {
    |MatchedWithin(e.hits, k)| as real / |e.targets| as real
  }

  /** Early exit at the first relevant hit. */
  method ComputeReciprocalRank(e: Evaluation) returns (r: real)
    requires Valid(e)
    ensures r == ReciprocalRank(e)
  {
    for i := 0 to |e.hits|
      invariant forall j :: 0 <= j < i ==> !Relevant(e.hits[j])
    {
      if Relevant(e.hits[i]) {
        assert FirstRelevant(e.hits) == i;
        return 1.0 / e.hits[i].rank as real;
      }
    }
    return 0.0;
  }

  lemma OneMoreHit(hits: seq<Hit>, i: nat, k: int)
    requires i < |hits| && hits[i].rank <= k
    ensures MatchedWithin(hits[..i + 1], k) == MatchedWithin(hits[..i], k) + hits[i].matched
  {
    assert hits[..i + 1] == hits[..i] + [hits[i]];
  }

  lemma LaterHitsDoNotCount(hits: seq<Hit>, i: nat, k: int)
    requires i <= |hits| && forall j :: i <= j < |hits| ==> hits[j].rank > k
    ensures MatchedWithin(hits, k) == MatchedWithin(hits[..i], k)
  {
  }

  /** The loop stops at the first rank beyond k; contiguous ranks make that the union over all ranks up to k. */
  method ComputeRecall(e: Evaluation, k: int) returns (r: Result<real, MetricError>)
    requires Valid(e)
    ensures r == if k <= 0 then Err(NonPositiveK) else Ok(RecallAt(e, k))
  {
    if k <= 0 {
      return Err(NonPositiveK);
    }
    var matched: set<string> := {};
    var i := 0;
    while i < |e.hits|
      invariant 0 <= i <= |e.hits|
      invariant matched == MatchedWithin(e.hits[..i], k)
    {
      if e.hits[i].rank > k {
        break;
      }
      OneMoreHit(e.hits, i, k);
      matched := matched + e.hits[i].matched;
      i := i + 1;
    }
    LaterHitsDoNotCount(e.hits, i, k);
    r := Ok(|matched| as real / |e.targets| as real);
  }

  /** Looks for a relevant hit within k: one is found exactly when some target is matched there. */
  method ComputeHit(e: Evaluation, k: int) returns (r: Result<real, MetricError>)
    ensures r.Ok? <==> k > 0
    ensures r.Err? ==> r.error == NonPositiveK
    ensures r.Ok? ==> r.value == HitAt(e, k) == if MatchedWithin(e.hits, k) != {} then 1.0 else 0.0
  {
    if k <= 0 {
      return Err(NonPositiveK);
    }
    for i := 0 to |e.hits|
      invariant forall j :: 0 <= j < i ==> !(e.hits[j].rank <= k && Relevant(e.hits[j]))
    {
      if e.hits[i].rank <= k && Relevant(e.hits[i]) {
        var t :| t in e.hits[i].matched;
        assert t in MatchedWithin(e.hits, k);
        return Ok(1.0);
      }
    }
    return Ok(0.0);
  }

  // ----- How the three metrics determine one another -----

  lemma HitIsFirstRelevant(e: Evaluation, k: int)
    requires Valid(e)
    ensures HitAt(e, k) == 1.0 <==> FirstRelevant(e.hits) < |e.hits| && FirstRelevant(e.hits) + 1 <= k
  {
    var n := FirstRelevant(e.hits);
    if n < |e.hits| && n + 1 <= k {
      assert e.hits[n].rank <= k;
    }
  }

  lemma Product(a: real, b: real)
    requires a > 0.0 && b > 0.0
    ensures a * b > 0.0
  {
  }

  lemma ReciprocalDifference(a: real, b: real)
    requires a > 0.0 && b > 0.0
    ensures (1.0 / a - 1.0 / b) * (a * b) == b - a
  {
    var x, y := 1.0 / a, 1.0 / b;
    assert x * a == 1.0 && y * b == 1.0;
    assert x * (a * b) == (x * a) * b;
    assert y * (a * b) == (y * b) * a;
    assert (x - y) * (a * b) == x * (a * b) - y * (a * b);
  }

  /** A product with a positive factor has the sign of the other. */
  lemma SignOf(p: real, q: real, r: real)
    requires q > 0.0 && p * q == r
    ensures p >= 0.0 <==> r >= 0.0
  {
    if p < 0.0 {
      Product(-p, q);
      assert (-p) * q == -r;
    }
  }

  lemma ReciprocalOrder(a: int, b: int)
    requires a > 0 && b > 0
    ensures 1.0 / a as real >= 1.0 / b as real <==> a <= b
  {
    var (x, y) := (a as real, b as real);
    Product(x, y);
    ReciprocalDifference(x, y);
    SignOf(1.0 / x - 1.0 / y, x * y, y - x);
  }

  lemma Fraction(n: nat, d: nat)
    requires n <= d && d > 0
    ensures 0.0 <= n as real / d as real <= 1.0
    ensures n as real / d as real > 0.0 <==> n > 0
  {
    var q := n as real / d as real;
    assert q * d as real == n as real;
  }

  /** A hit within k, positive recall at k and a reciprocal rank of at least 1/k are the same thing. */
  lemma HitRecallRankAgree(e: Evaluation, k: int)
    requires Valid(e) && k > 0
    ensures HitAt(e, k) == 1.0 <==> RecallAt(e, k) > 0.0
    ensures HitAt(e, k) == 1.0 <==> ReciprocalRank(e) >= 1.0 / k as real
  {
    var n := FirstRelevant(e.hits);
    HitIsFirstRelevant(e, k);
    RecallInRange(e, k);
    var matched := MatchedWithin(e.hits, k);
    if HitAt(e, k) == 1.0 {
      var t :| t in e.hits[n].matched;
      assert t in matched;
      ReciprocalOrder(n + 1, k);
    } else {
      assert matched == {};
      assert 1.0 / k as real > 0.0;
      if n < |e.hits| {
        ReciprocalOrder(n + 1, k);
      }
    }
  }

  lemma RecallInRange(e: Evaluation, k: int)
    requires Valid(e)
    ensures 0.0 <= RecallAt(e, k) <= 1.0
    ensures RecallAt(e, k) > 0.0 <==> MatchedWithin(e.hits, k) != {}
  {
    SubsetSize(MatchedWithin(e.hits, k), e.targets);
    Fraction(|MatchedWithin(e.hits, k)|, |e.targets|);
  }

  lemma RecallMonotone(e: Evaluation, k: int, l: int)
    requires Valid(e) && k <= l
    ensures RecallAt(e, k) <= RecallAt(e, l)
  {
    var a, b, d := |MatchedWithin(e.hits, k)|, |MatchedWithin(e.hits, l)|, |e.targets|;
    SubsetSize(MatchedWithin(e.hits, k), MatchedWithin(e.hits, l));
    assert (b - a) as real / d as real >= 0.0;
    assert a as real / d as real + (b - a) as real / d as real == b as real / d as real;
  }

  lemma RecallAtMostHit(e: Evaluation, k: int)
    requires Valid(e) && k > 0
    ensures RecallAt(e, k) <= HitAt(e, k)
  {
    RecallInRange(e, k);
    HitRecallRankAgree(e, k);
  }

  /** One case: the reciprocal rank is pinned between the hit indicators at 1, 3 and 5. */
  lemma CaseBounds(e: Evaluation)
    requires Valid(e)
    ensures var (h1, h3, h5, rr) := (HitAt(e, 1), HitAt(e, 3), HitAt(e, 5), ReciprocalRank(e));
            && h1 + (h3 - h1) / 3.0 + (h5 - h3) / 5.0 <= rr <= h1 + (h3 - h1) / 2.0 + (h5 - h3) / 4.0 + (1.0 - h5) / 6.0
            && 0.0 <= rr <= 1.0
  {
    HitIsFirstRelevant(e, 1);
    HitIsFirstRelevant(e, 3);
    HitIsFirstRelevant(e, 5);
    var n := FirstRelevant(e.hits);
    if 5 <= n < |e.hits| {
      ReciprocalOrder(6, n + 1);
      ReciprocalOrder(n + 1, n + 1);
      assert 1.0 / 6.0 >= 1.0 / (n + 1) as real > 0.0;
    }
  }

  // ----- Means over a population -----

  ghost function Sum(es: seq<Evaluation>, f: Evaluation -> real): real {
    if es == [] then 0.0 else f(es[0]) + Sum(es[1..], f)
  }

  ghost function Mean(es: seq<Evaluation>, f: Evaluation -> real): real {
    if es == [] then 0.0 else Sum(es, f) / |es| as real
  }

  predicate AllValid(es: seq<Evaluation>) {
    forall i :: 0 <= i < |es| ==> Valid(es[i])
  }

  ghost function HitRate(es: seq<Evaluation>, k: int): real {
    Mean(es, HitFunction(k))
  }

  ghost function HitFunction(k: int): Evaluation -> real {
    (e: Evaluation) => HitAt(e, k)
  }

  ghost function MeanRecall(es: seq<Evaluation>, k: int): real {
    Mean(es, RecallFunction(k))
  }

  ghost function RecallFunction(k: int): Evaluation -> real {
    (e: Evaluation) => if Valid(e) then RecallAt(e, k) else 0.0
  }

  ghost function Mrr(es: seq<Evaluation>): real {
    Mean(es, ReciprocalRank)
  }

  lemma {:induction false} SumOrdered(es: seq<Evaluation>, f: Evaluation -> real, g: Evaluation -> real)
    requires forall i :: 0 <= i < |es| ==> f(es[i]) <= g(es[i])
    ensures Sum(es, f) <= Sum(es, g)
  {
    if es != [] {
      assert forall i :: 0 <= i < |es[1..]| ==> es[1..][i] == es[i + 1];
      SumOrdered(es[1..], f, g);
    }
  }

  lemma {:induction false} SumInRange(es: seq<Evaluation>, f: Evaluation -> real)
    requires forall i :: 0 <= i < |es| ==> 0.0 <= f(es[i]) <= 1.0
    ensures 0.0 <= Sum(es, f) <= |es| as real
  {
    if es != [] {
      assert forall i :: 0 <= i < |es[1..]| ==> es[1..][i] == es[i + 1];
      SumInRange(es[1..], f);
    }
  }

  lemma Quotient(a: real, b: real, n: real)
    requires a <= b && n > 0.0
    ensures a / n <= b / n
  {
    assert (b - a) / n >= 0.0;
    assert a / n + (b - a) / n == b / n;
  }

  lemma MeanOrdered(es: seq<Evaluation>, f: Evaluation -> real, g: Evaluation -> real)
    requires forall i :: 0 <= i < |es| ==> f(es[i]) <= g(es[i])
    ensures Mean(es, f) <= Mean(es, g)
  {
    SumOrdered(es, f, g);
    if es != [] {
      Quotient(Sum(es, f), Sum(es, g), |es| as real);
    }
  }

  lemma MeanInRange(es: seq<Evaluation>, f: Evaluation -> real)
    requires forall i :: 0 <= i < |es| ==> 0.0 <= f(es[i]) <= 1.0
    ensures 0.0 <= Mean(es, f) <= 1.0
  {
    SumInRange(es, f);
    if es != [] {
      var n := |es| as real;
      Quotient(0.0, Sum(es, f), n);
      Quotient(Sum(es, f), n, n);
    }
  }

  lemma HitRateMonotone(es: seq<Evaluation>, k: int, l: int)
    requires AllValid(es) && k <= l
    ensures HitRate(es, k) <= HitRate(es, l)
  {
    MeanOrdered(es, HitFunction(k), HitFunction(l));
  }

  lemma MeanRecallMonotone(es: seq<Evaluation>, k: int, l: int)
    requires AllValid(es) && k <= l
    ensures MeanRecall(es, k) <= MeanRecall(es, l)
  {
    forall i | 0 <= i < |es|
      ensures RecallFunction(k)(es[i]) <= RecallFunction(l)(es[i])
    {
      RecallMonotone(es[i], k, l);
    }
    MeanOrdered(es, RecallFunction(k), RecallFunction(l));
  }

  lemma MeanRecallAtMostHitRate(es: seq<Evaluation>, k: int)
    requires AllValid(es) && k > 0
    ensures MeanRecall(es, k) <= HitRate(es, k)
  {
    forall i | 0 <= i < |es|
      ensures RecallFunction(k)(es[i]) <= HitFunction(k)(es[i])
    {
      RecallAtMostHit(es[i], k);
    }
    MeanOrdered(es, RecallFunction(k), HitFunction(k));
  }

  lemma {:induction false} SumBounds(es: seq<Evaluation>)
    requires AllValid(es)
    ensures var (s1, s3, s5, sr) :=
              (Sum(es, HitFunction(1)), Sum(es, HitFunction(3)), Sum(es, HitFunction(5)), Sum(es, ReciprocalRank));
            s1 + (s3 - s1) / 3.0 + (s5 - s3) / 5.0 <= sr <= s1 + (s3 - s1) / 2.0 + (s5 - s3) / 4.0
                + (|es| as real - s5) / 6.0
  {
    if es != [] {
      CaseBounds(es[0]);
      assert forall i :: 0 <= i < |es[1..]| ==> es[1..][i] == es[i + 1];
      SumBounds(es[1..]);
    }
  }

  /** The mean reciprocal rank of a non-empty population is pinned between its three hit rates. */
  lemma MrrBetweenHitRates(es: seq<Evaluation>)
    requires AllValid(es) && es != []
    ensures var (h1, h3, h5) := (HitRate(es, 1), HitRate(es, 3), HitRate(es, 5));
            h1 + (h3 - h1) / 3.0 + (h5 - h3) / 5.0 <= Mrr(es) <= h1 + (h3 - h1) / 2.0 + (h5 - h3) / 4.0
                + (1.0 - h5) / 6.0
  {
    var n := |es| as real;
    var (s1, s3, s5, sr) := (Sum(es, HitFunction(1)), Sum(es, HitFunction(3)), Sum(es, HitFunction(5)),
        Sum(es, ReciprocalRank));
    SumBounds(es);
    Quotient(s1 + (s3 - s1) / 3.0 + (s5 - s3) / 5.0, sr, n);
    Quotient(sr, s1 + (s3 - s1) / 2.0 + (s5 - s3) / 4.0 + (n - s5) / 6.0, n);
    Spread(s1, s3, s5, n);
  }

  lemma Spread(s1: real, s3: real, s5: real, n: real)
    requires n > 0.0
    ensures var (h1, h3, h5) := (s1 / n, s3 / n, s5 / n);
            && (s1 + (s3 - s1) / 3.0 + (s5 - s3) / 5.0) / n == h1 + (h3 - h1) / 3.0 + (h5 - h3) / 5.0
            && (s1 + (s3 - s1) / 2.0 + (s5 - s3) / 4.0 + (n - s5) / 6.0) / n
                 == h1 + (h3 - h1) / 2.0 + (h5 - h3) / 4.0 + (1.0 - h5) / 6.0
  {
    var i := 1.0 / n;
    assert s1 / n == s1 * i && s3 / n == s3 * i && s5 / n == s5 * i && n * i == 1.0;
    var a, b := s1 + (s3 - s1) / 3.0 + (s5 - s3) / 5.0, s1 + (s3 - s1) / 2.0 + (s5 - s3) / 4.0 + (n - s5) / 6.0;
    assert a / n == a * i && b / n == b * i;
  }

  // ----- The benchmark summary -----

  datatype Summary = Summary(
    caseCount: int, hit1: real, hit3: real, hit5: real, recall1: real, recall3: real, recall5: real, mrr: real)

  /** What the constructor of the summary checks: a non-negative count and seven values in [0, 1]. */
  predicate Accepted(s: Summary) {
    && s.caseCount >= 0
    && forall v :: v in [s.hit1, s.hit3, s.hit5, s.recall1, s.recall3, s.recall5, s.mrr] ==> 0.0 <= v <= 1.0
  }

  ghost function ComputeMetrics(es: seq<Evaluation>): Summary {
    Summary(|es|, HitRate(es, 1), HitRate(es, 3), HitRate(es, 5),
            MeanRecall(es, 1), MeanRecall(es, 3), MeanRecall(es, 5), Mrr(es))
  }

  /** The summary never refuses its own output, and its fields are ordered as ranks widen. */
  lemma SummaryIsAccepted(es: seq<Evaluation>)
    requires AllValid(es)
    ensures var s := ComputeMetrics(es);
            && Accepted(s)
            && s.hit1 <= s.hit3 <= s.hit5 && s.recall1 <= s.recall3 <= s.recall5
            && s.recall1 <= s.hit1 <= s.mrr && s.recall3 <= s.hit3 && s.recall5 <= s.hit5
  {
    RatesInRange(es, 1);
    RatesInRange(es, 3);
    RatesInRange(es, 5);
    forall i | 0 <= i < |es|
      ensures 0.0 <= ReciprocalRank(es[i]) <= 1.0
    {
      CaseBounds(es[i]);
    }
    MeanInRange(es, ReciprocalRank);
    HitRateMonotone(es, 1, 3);
    HitRateMonotone(es, 3, 5);
    MeanRecallMonotone(es, 1, 3);
    MeanRecallMonotone(es, 3, 5);
    if es != [] {
      MrrBetweenHitRates(es);
    }
  }

  lemma RatesInRange(es: seq<Evaluation>, k: int)
    requires AllValid(es) && k > 0
    ensures 0.0 <= MeanRecall(es, k) <= HitRate(es, k) <= 1.0
  {
    forall i | 0 <= i < |es|
      ensures 0.0 <= RecallFunction(k)(es[i]) <= 1.0
    {
      RecallInRange(es[i], k);
    }
    MeanInRange(es, RecallFunction(k));
    MeanInRange(es, HitFunction(k));
    MeanRecallAtMostHitRate(es, k);
  }
}
