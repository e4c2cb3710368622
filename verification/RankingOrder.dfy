/**
  What a ranking prefers, mode by mode, in terms of the fields of the routes; and why a
  route is rejected, code by code.
  */
module RankingOrder {
  import opened Domain
  import opened Sorting
  import opened Evaluation
  import opened Ranking

  // ---- the first field that differs

  /** The first key in which the two differ is smaller in x. */
  ghost predicate Leads(x: seq<real>, y: seq<real>) {
    exists k :: 0 <= k < |x| && k < |y| && x[..k] == y[..k] && x[k] < y[k]
  }

  /** Smaller in the first key that differs; where none does, not behind by identifier. */
  ghost predicate Preferred(x: seq<real>, y: seq<real>, a: string, b: string) {
    Leads(x, y) || (x == y && (a == b || TextBefore(a, b)))
  }

  lemma LeadsByHead(x: seq<real>, y: seq<real>)
    requires x != [] && y != []
    ensures Leads(x, y) <==> x[0] < y[0] || (x[0] == y[0] && Leads(x[1..], y[1..]))
  {
    if Leads(x, y) {
      var k :| 0 <= k < |x| && k < |y| && x[..k] == y[..k] && x[k] < y[k];
      if k > 0 {
        assert x[0] == x[..k][0] && y[0] == y[..k][0];
        assert x[1..][..k - 1] == x[..k][1..] && y[1..][..k - 1] == y[..k][1..];
        assert x[1..][k - 1] < y[1..][k - 1];
      }
    }
    if x[0] < y[0] { assert x[..0] == y[..0]; }
    if x[0] == y[0] && Leads(x[1..], y[1..]) {
      var k :| 0 <= k < |x[1..]| && k < |y[1..]| && x[1..][..k] == y[1..][..k] && x[1..][k] < y[1..][k];
      assert x[..k + 1] == [x[0]] + x[1..][..k] && y[..k + 1] == [y[0]] + y[1..][..k];
      assert x[k + 1] < y[k + 1];
    }
  }

  /** The values of the getters on a route. */
  ghost predicate Reads(getters: seq<Getter>, c: Candidate, keys: seq<real>) {
    |keys| == |getters| && forall k :: 0 <= k < |keys| ==> getters[k](c) == keys[k]
  }

  lemma {:induction false} TupleMeans(a: Candidate, b: Candidate, getters: seq<Getter>, x: seq<real>, y: seq<real>)
    requires Reads(getters, a, x) && Reads(getters, b, y)
    ensures CompareTuple(a, b, getters) <= 0 <==> Preferred(x, y, a.id, b.id)
  {
    if getters == [] {
      CompareTextMeans(a.id, b.id);
    } else {
      LeadsByHead(x, y);
      assert x == [x[0]] + x[1..] && y == [y[0]] + y[1..];
      TupleMeans(a, b, getters[1..], x[1..], y[1..]);
    }
  }

  // ---- the keys of each mode

  function StrictGreenKeys(c: Candidate): seq<real> {
    [UnknownRatio(c.metrics.unknownDuration, c.live), UnknownRatio(c.metrics.unknownDistance, c.distance),
     c.metrics.redDuration as real, c.metrics.redDistance as real, c.metrics.orangeDuration as real,
     1.0 - c.confidence.score, c.metrics.totalDelay as real, c.metrics.worstContinuousCongestion as real,
     c.live as real, c.distance as real]
  }

  /** What every second more than the fastest route takes counts against red seconds. */
  function LatenessPenalty(request: Request, config: ScoringConfig): real {
    config.greenestExtraTimePenalty * (1.7 - Clamp01(request.strictness))
  }

  function GreenestKeys(c: Candidate, fastest: Candidate, penalty: real): seq<real> {
    [UnknownRatio(c.metrics.unknownDuration, c.live), UnknownRatio(c.metrics.unknownDistance, c.distance),
     c.metrics.redDuration as real + Max(0, c.live - fastest.live) as real * penalty,
     c.metrics.redDistance as real, c.metrics.orangeDuration as real,
     1.0 - c.confidence.score, c.metrics.totalDelay as real, c.live as real, c.distance as real]
  }

  function BestEffortKeys(c: Candidate): seq<real> {
    var m := c.metrics;
    [1.0 - CoverageRatio(m.greenDistance, c.distance), 1.0 - CoverageRatio(m.greenDuration, c.live),
     CoverageRatio(m.redDistance, c.distance), CoverageRatio(m.redDuration, c.live),
     CoverageRatio(m.orangeDistance, c.distance), CoverageRatio(m.orangeDuration, c.live),
     CoverageRatio(m.yellowDistance, c.distance), CoverageRatio(m.yellowDuration, c.live),
     CoverageRatio(m.unknownDistance, c.distance), CoverageRatio(m.unknownDuration, c.live),
     1.0 - Clamp01(c.confidence.score), c.live as real, c.distance as real]
  }

  /** The shares the keys speak of: the part of the whole, at most one; without a whole unknown traffic counts fully. */
  lemma RatiosAreShares(value: int, total: int)
    ensures 0 <= value <= total && total > 0 ==>
              CoverageRatio(value, total) * total as real == UnknownRatio(value, total) * total as real == value as real
    ensures value > total > 0 ==> CoverageRatio(value, total) == UnknownRatio(value, total) == 1.0
    ensures value <= 0 ==> CoverageRatio(value, total) == UnknownRatio(value, total) == 0.0
    ensures value > 0 && total <= 0 ==> CoverageRatio(value, total) == 0.0 && UnknownRatio(value, total) == 1.0
  {
    if 0 < value && 0 < total {
      var share := value as real / total as real;
      assert share * total as real == value as real;
      if value <= total { assert share <= 1.0; } else { assert share > 1.0; }
    }
  }

  /** An earlier route of the ranking compares no worse. */
  lemma EligibleSorted(pool: seq<Candidate>, request: Request, config: ScoringConfig, i: nat, j: nat)
    requires pool != [] && i < j < |RankOf(pool, request, config).eligible|
    ensures var eligible := RankOf(pool, request, config).eligible;
            CompareTuple(eligible[i], eligible[j], RouteGetters(FastestOf(pool), request, config)) <= 0
    ensures RankOf(pool, request, config).selected == Some(RankOf(pool, request, config).eligible[0])
  {
    var rules := RulesFor(FastestOf(pool), request, config);
    TupleOrder(rules.getters);
    StableSortSorts(Map(Accepted(pool, rules), rules.score), ByTuple(rules.getters));
    var eligible := Arrange(pool, rules).eligible;
    CompareTupleAntisymmetric(eligible[i], eligible[j], rules.getters);
  }

  /** FASTEST: the eligible routes, the selected one first, rise by duration, then distance, then identifier. */
  lemma FastestOrder(pool: seq<Candidate>, request: Request, config: ScoringConfig, i: nat, j: nat)
    requires request.mode == Fastest && pool != [] && i < j < |RankOf(pool, request, config).eligible|
    ensures RankOf(pool, request, config).selected == Some(RankOf(pool, request, config).eligible[0])
    ensures var a, b := RankOf(pool, request, config).eligible[i], RankOf(pool, request, config).eligible[j];
            || a.live < b.live
            || (a.live == b.live && a.distance < b.distance)
            || (a.live == b.live && a.distance == b.distance && (a.id == b.id || TextBefore(a.id, b.id)))
  {
    var a, b := RankOf(pool, request, config).eligible[i], RankOf(pool, request, config).eligible[j];
    EligibleSorted(pool, request, config, i, j);
    FastestCompares(a, b, FastestOf(pool), request, config);
  }

  lemma FastestCompares(a: Candidate, b: Candidate, fastest: Candidate, request: Request, config: ScoringConfig)
    requires request.mode == Fastest && CompareTuple(a, b, RouteGetters(fastest, request, config)) <= 0
    ensures || a.live < b.live
            || (a.live == b.live && a.distance < b.distance)
            || (a.live == b.live && a.distance == b.distance && (a.id == b.id || TextBefore(a.id, b.id)))
  {
    var getters := RouteGetters(fastest, request, config);
    var x, y := [a.live as real, a.distance as real], [b.live as real, b.distance as real];
    TupleMeans(a, b, getters, x, y);
    if Leads(x, y) {
      LeadsByHead(x, y);
      LeadsByHead(x[1..], y[1..]);
    } else {
      assert x[0] == y[0] && x[1] == y[1];
    }
  }

  /** STRICT_GREEN: the eligible routes rise in the first of these keys in which they differ, then by identifier. */
  lemma StrictGreenOrder(pool: seq<Candidate>, request: Request, config: ScoringConfig, i: nat, j: nat)
    requires request.mode == StrictGreen && pool != [] && i < j < |RankOf(pool, request, config).eligible|
    ensures RankOf(pool, request, config).selected == Some(RankOf(pool, request, config).eligible[0])
    ensures var a, b := RankOf(pool, request, config).eligible[i], RankOf(pool, request, config).eligible[j];
            Preferred(StrictGreenKeys(a), StrictGreenKeys(b), a.id, b.id)
  {
    var eligible, fastest := RankOf(pool, request, config).eligible, FastestOf(pool);
    EligibleSorted(pool, request, config, i, j);
    StrictGreenCompares(eligible[i], eligible[j], fastest, request, config);
  }

  lemma StrictGreenCompares(a: Candidate, b: Candidate, fastest: Candidate, request: Request, config: ScoringConfig)
    requires request.mode == StrictGreen && CompareTuple(a, b, RouteGetters(fastest, request, config)) <= 0
    ensures Preferred(StrictGreenKeys(a), StrictGreenKeys(b), a.id, b.id)
  {
    StrictGreenReads(a);
    StrictGreenReads(b);
    TupleMeans(a, b, STRICT_GREEN_GETTERS, StrictGreenKeys(a), StrictGreenKeys(b));
  }

  lemma StrictGreenReads(c: Candidate)
    ensures Reads(STRICT_GREEN_GETTERS, c, StrictGreenKeys(c))
  {
  }

  /**
    GREENEST: unknown shares first, then red seconds plus the penalty of every second more
    than the fastest route takes, then the milder keys.
    */
  lemma GreenestOrder(pool: seq<Candidate>, request: Request, config: ScoringConfig, i: nat, j: nat)
    requires request.mode == Greenest && pool != [] && i < j < |RankOf(pool, request, config).eligible|
    ensures RankOf(pool, request, config).selected == Some(RankOf(pool, request, config).eligible[0])
    ensures var a, b := RankOf(pool, request, config).eligible[i], RankOf(pool, request, config).eligible[j];
            var fastest, penalty := FastestOf(pool), LatenessPenalty(request, config);
            Preferred(GreenestKeys(a, fastest, penalty), GreenestKeys(b, fastest, penalty), a.id, b.id)
  {
    var eligible, fastest := RankOf(pool, request, config).eligible, FastestOf(pool);
    EligibleSorted(pool, request, config, i, j);
    GreenestCompares(eligible[i], eligible[j], fastest, request, config);
  }

  lemma GreenestCompares(a: Candidate, b: Candidate, fastest: Candidate, request: Request, config: ScoringConfig)
    requires request.mode == Greenest && CompareTuple(a, b, RouteGetters(fastest, request, config)) <= 0
    ensures var penalty := LatenessPenalty(request, config);
            Preferred(GreenestKeys(a, fastest, penalty), GreenestKeys(b, fastest, penalty), a.id, b.id)
  {
    var penalty := LatenessPenalty(request, config);
    GreenestReads(a, fastest, request, config);
    GreenestReads(b, fastest, request, config);
    TupleMeans(a, b, RouteGetters(fastest, request, config), GreenestKeys(a, fastest, penalty),
               GreenestKeys(b, fastest, penalty));
  }

  lemma GreenestReads(c: Candidate, fastest: Candidate, request: Request, config: ScoringConfig)
    requires request.mode == Greenest
    ensures Reads(RouteGetters(fastest, request, config), c, GreenestKeys(c, fastest, LatenessPenalty(request, config)))
  {
  }

  // ---- BALANCED

  /** By how much each respect raises the cost of a route above one, for a strictness between zero and one. */
  datatype Burden = Burden(traffic: real, time: real, distance: real, doubt: real, toll: real)
  {
    predicate NoHeavier(other: Burden) {
      && traffic <= other.traffic && time <= other.time && distance <= other.distance && doubt <= other.doubt
      && toll <= other.toll
    }

    function Sum(): real { traffic + time + distance + doubt + toll }
  }

  function Excess(value: int, reference: int): real {
    if value > reference > 0 then (value - reference) as real / reference as real else 0.0
  }

  function TrafficBurden(percent: real, strictness: real, config: ScoringConfig): real {
    config.balancedTrafficWeight * (0.3 + strictness) * (RealMin(100.0, percent) / 100.0)
  }

  function ExtraBurden(weight: real, value: int, reference: int, strictness: real): real {
    weight * (1.49 - 0.7 * strictness) * Excess(value, reference)
  }

  function DoubtBurden(score: real, config: ScoringConfig): real {
    config.balancedUncertaintyWeight * (1.0 - score)
  }

  function BurdenOf(c: Candidate, fastest: Candidate, strictness: real, config: ScoringConfig): Burden {
    Burden(TrafficBurden(c.metrics.congestedDurationPercent + Percent(c.metrics.unknownDuration, c.live), strictness,
                         config),
           ExtraBurden(config.balancedEtaWeight, c.live, fastest.live, strictness),
           ExtraBurden(config.balancedDistanceWeight, c.distance, fastest.distance, strictness),
           DoubtBurden(c.confidence.score, config), if c.tolls then config.balancedTollWeight else 0.0)
  }

  function Factors(b: Burden): seq<real> {
    [1.0 + b.traffic, 1.0 + b.time, 1.0 + b.distance, 1.0 + b.doubt, 1.0 + b.toll]
  }

  const NO_BURDEN := Burden(0.0, 0.0, 0.0, 0.0, 0.0)

  lemma TrafficAgrees(c: Candidate, request: Request, fastest: Candidate, config: ScoringConfig)
    ensures TrafficPenalty(c, request, config) ==
            1.0 + BurdenOf(c, fastest, Clamp01(request.strictness), config).traffic
  {
    var congested := c.metrics.congestedDurationPercent + Percent(c.metrics.unknownDuration, c.live);
    assert RealMin(1.0, congested / 100.0) == RealMin(100.0, congested) / 100.0;
    assert 1.0 + StrictnessDelta(request) == 0.3 + Clamp01(request.strictness);
  }

  lemma ExtraAgrees(weight: real, value: int, reference: int, request: Request)
    ensures ExtraPenalty(weight, value, reference, request) ==
            1.0 + ExtraBurden(weight, value, reference, Clamp01(request.strictness))
  {
    assert 1.0 - 0.7 * StrictnessDelta(request) == 1.49 - 0.7 * Clamp01(request.strictness);
    assert PositiveRatio(value - reference, reference) == Excess(value, reference);
  }

  lemma ProductOfFive(a: real, b: real, c: real, d: real, e: real)
    ensures Product([a, b, c, d, e]) == a * b * c * d * e
  {
    var f := [a, b, c, d, e];
    assert f[..4][..3] == f[..3] && f[..3][..2] == f[..2] && f[..2][..1] == f[..1] && f[..1][..0] == [];
    assert Product(f[..1]) == a && Product(f[..2]) == a * b && Product(f[..3]) == a * b * c;
    assert Product(f[..4]) == a * b * c * d;
  }

  /** In the other modes a red second scores 1000 orange ones, and an orange one 1000 seconds. */
  lemma OtherScores(a: Candidate, b: Candidate, fastest: Candidate, request: Request, config: ScoringConfig)
    requires request.mode != Balanced
    ensures RouteScore(a, fastest, request, config) - RouteScore(b, fastest, request, config) ==
            1000000.0 * (a.metrics.redDuration - b.metrics.redDuration) as real
            + 1000.0 * (a.metrics.orangeDuration - b.metrics.orangeDuration) as real + (a.live - b.live) as real
  {
  }

  /** The score is the product of one plus each burden, to eight decimals. */
  lemma ScoreIsCost(c: Candidate, fastest: Candidate, request: Request, config: ScoringConfig)
    requires request.mode == Balanced
    ensures RouteScore(c, fastest, request, config) ==
            Round(Product(Factors(BurdenOf(c, fastest, Clamp01(request.strictness), config))), 100000000.0)
    ensures BurdenOf(c, fastest, Clamp01(request.strictness), config) == NO_BURDEN ==>
              RouteScore(c, fastest, request, config) == 1.0
  {
    ProductOfFive(1.0, 1.0, 1.0, 1.0, 1.0);
    TrafficAgrees(c, request, fastest, config);
    ExtraAgrees(config.balancedEtaWeight, c.live, fastest.live, request);
    ExtraAgrees(config.balancedDistanceWeight, c.distance, fastest.distance, request);
    var b := BurdenOf(c, fastest, Clamp01(request.strictness), config);
    var traffic, doubt, toll :=
      TrafficPenalty(c, request, config), UncertaintyPenalty(c, config), TollPenalty(c, config);
    var time := ExtraPenalty(config.balancedEtaWeight, c.live, fastest.live, request);
    var distance := ExtraPenalty(config.balancedDistanceWeight, c.distance, fastest.distance, request);
    assert traffic == 1.0 + b.traffic && time == 1.0 + b.time && distance == 1.0 + b.distance;
    assert doubt == 1.0 + b.doubt && toll == 1.0 + b.toll;
    assert [traffic, time, distance, doubt, toll] == Factors(b);
  }

  /** One more factor, and by how much the product rises. */
  lemma FactorRises(p: real, q: real, x: real, y: real, gap: real)
    requires 1.0 <= p <= q && 1.0 <= x <= y && q - p >= gap
    ensures 1.0 <= p * x <= q * y && q * y - p * x >= gap + (y - x)
  {
    ProductIsNonNegative(q - 1.0, y - x);
    ProductIsNonNegative(x - 1.0, q - p);
    ProductIsNonNegative(p - 1.0, x - 1.0);
    assert (q - 1.0) * (y - x) == q * y - q * x - (y - x);
    assert (x - 1.0) * (q - p) == q * x - p * x - (q - p);
    assert (p - 1.0) * (x - 1.0) == p * x - p - x + 1.0;
  }

  function Sum(factors: seq<real>): real {
    if factors == [] then 0.0 else Sum(factors[..|factors| - 1]) + factors[|factors| - 1]
  }

  lemma {:induction false} ProductRises(x: seq<real>, y: seq<real>)
    requires |x| == |y| && forall i :: 0 <= i < |x| ==> 1.0 <= x[i] <= y[i]
    ensures 1.0 <= Product(x) <= Product(y) && Product(y) - Product(x) >= Sum(y) - Sum(x)
  {
    if x != [] {
      var n := |x| - 1;
      ProductRises(x[..n], y[..n]);
      FactorRises(Product(x[..n]), Product(y[..n]), x[n], y[n], Sum(y[..n]) - Sum(x[..n]));
    }
  }

  lemma SumOfFactors(b: Burden)
    ensures Sum(Factors(b)) == 5.0 + b.Sum()
  {
    var f := Factors(b);
    assert f[..4][..3] == f[..3] && f[..3][..2] == f[..2] && f[..2][..1] == f[..1] && f[..1][..0] == [];
    assert Sum(f[..1]) == f[0] && Sum(f[..2]) == f[0] + f[1] && Sum(f[..3]) == f[0] + f[1] + f[2];
    assert Sum(f) == Sum(f[..3]) + f[3] + f[4];
  }

  lemma CostRises(a: Burden, b: Burden)
    requires NO_BURDEN.NoHeavier(a) && a.NoHeavier(b)
    ensures Product(Factors(b)) - Product(Factors(a)) >= b.Sum() - a.Sum()
  {
    ProductRises(Factors(a), Factors(b));
    SumOfFactors(a);
    SumOfFactors(b);
  }

  const SCORE_PRECISION := 0.00000001

  /**
    BALANCED: a route that is no better than another in any respect scores no lower, and
    higher by at least the sum of what it is worse by, up to the precision of a score.
    */
  lemma BalancedScoreRises(a: Candidate, b: Candidate, fastest: Candidate, request: Request, config: ScoringConfig)
    requires request.mode == Balanced
    requires var s := Clamp01(request.strictness);
             && NO_BURDEN.NoHeavier(BurdenOf(a, fastest, s, config))
             && BurdenOf(a, fastest, s, config).NoHeavier(BurdenOf(b, fastest, s, config))
    ensures var s := Clamp01(request.strictness);
            var low, high := RouteScore(a, fastest, request, config), RouteScore(b, fastest, request, config);
            && low <= high
            && high - low >= BurdenOf(b, fastest, s, config).Sum() - BurdenOf(a, fastest, s, config).Sum()
                             - SCORE_PRECISION
  {
    var s := Clamp01(request.strictness);
    var x, y := BurdenOf(a, fastest, s, config), BurdenOf(b, fastest, s, config);
    ScoreIsCost(a, fastest, request, config);
    ScoreIsCost(b, fastest, request, config);
    CostRises(x, y);
    RoundedCostRises(Product(Factors(x)), Product(Factors(y)), y.Sum() - x.Sum());
  }

  lemma RoundedCostRises(low: real, high: real, gap: real)
    requires high - low >= gap >= 0.0
    ensures Round(low, 100000000.0) <= Round(high, 100000000.0)
    ensures Round(high, 100000000.0) - Round(low, 100000000.0) >= gap - SCORE_PRECISION
  {
    RoundIsNear(low, 100000000.0);
    RoundIsNear(high, 100000000.0);
    RoundRises(low, high, 100000000.0);
  }

  /** The score of an eligible route is that of its own fields. */
  lemma {:induction false} EligibleIsScored(pool: seq<Candidate>, request: Request, config: ScoringConfig, c: Candidate)
    requires pool != [] && c in RankOf(pool, request, config).eligible
    ensures c.score == RouteScore(c, FastestOf(pool), request, config)
  {
    var fastest := FastestOf(pool);
    var origin := EligibleOrigin(pool, RulesFor(fastest, request, config), c);
    assert c == Scored(origin, fastest, request, config);
    ScoreIgnoresScore(origin, c.score, fastest, request, config);
  }

  lemma BurdenIgnoresScore(c: Candidate, score: real, fastest: Candidate, strictness: real, config: ScoringConfig)
    ensures BurdenOf(c.(score := score), fastest, strictness, config) == BurdenOf(c, fastest, strictness, config)
  {
  }

  lemma ScoreIgnoresScore(c: Candidate, score: real, fastest: Candidate, request: Request, config: ScoringConfig)
    ensures RouteScore(c.(score := score), fastest, request, config) == RouteScore(c, fastest, request, config)
  {
    var d := c.(score := score);
    if request.mode == Balanced {
      ScoreIsCost(c, fastest, request, config);
      ScoreIsCost(d, fastest, request, config);
      BurdenIgnoresScore(c, score, fastest, Clamp01(request.strictness), config);
    }
  }

  lemma BalancedCompares(a: Candidate, b: Candidate, fastest: Candidate, request: Request, config: ScoringConfig)
    requires request.mode == Balanced && CompareTuple(a, b, RouteGetters(fastest, request, config)) <= 0
    ensures a.score < b.score || (a.score == b.score && (a.id == b.id || TextBefore(a.id, b.id)))
  {
    TupleMeans(a, b, RouteGetters(fastest, request, config), [a.score], [b.score]);
    LeadsByHead([a.score], [b.score]);
    assert [a.score] == [b.score] ==> [a.score][0] == [b.score][0];
  }

  /**
    BALANCED: the eligible routes rise by score, then identifier; and none that follows is
    better in every respect than one before it, unless by less than the precision of a score.
    */
  lemma BalancedOrder(pool: seq<Candidate>, request: Request, config: ScoringConfig, i: nat, j: nat)
    requires request.mode == Balanced && pool != [] && i < j < |RankOf(pool, request, config).eligible|
    ensures RankOf(pool, request, config).selected == Some(RankOf(pool, request, config).eligible[0])
    ensures var a, b := RankOf(pool, request, config).eligible[i], RankOf(pool, request, config).eligible[j];
            var s, fastest := Clamp01(request.strictness), FastestOf(pool);
            var x, y := BurdenOf(a, fastest, s, config), BurdenOf(b, fastest, s, config);
            && (a.score < b.score || (a.score == b.score && (a.id == b.id || TextBefore(a.id, b.id))))
            && (NO_BURDEN.NoHeavier(y) && y.NoHeavier(x) ==> x.Sum() - y.Sum() <= SCORE_PRECISION)
  {
    var a, b := RankOf(pool, request, config).eligible[i], RankOf(pool, request, config).eligible[j];
    var s, fastest := Clamp01(request.strictness), FastestOf(pool);
    EligibleSorted(pool, request, config, i, j);
    EligibleIsScored(pool, request, config, a);
    EligibleIsScored(pool, request, config, b);
    BalancedCompares(a, b, fastest, request, config);
    var x, y := BurdenOf(a, fastest, s, config), BurdenOf(b, fastest, s, config);
    if NO_BURDEN.NoHeavier(y) && y.NoHeavier(x) {
      BalancedScoreRises(b, a, fastest, request, config);
    }
  }

  // ---- best effort

  /** A violation of the evidence contract is among the violations exactly when the route is not proven green. */
  lemma ShownIsUnproven(c: Candidate, fastest: Candidate, request: Request, config: ScoringConfig)
    ensures RulesFor(fastest, request, config).Shows(c) <==> request.mode == StrictGreen && !ProvenGreen(c, config)
  {
    StrictGreenIsExact(c, config);
    var strict, roads := StrictGreenViolations(c, config), RoadViolations(c.tolls, c.unpaved, request);
    var limits := LimitViolations(c, fastest, request, config);
    if request.mode == StrictGreen {
      LimitsAreNotStrict(limits, LimitChecks(c, fastest, request, config), roads, c, request);
      EvidenceIsStrict(strict, EvidenceChecksOf(c, config));
      StrictCodeBetween(limits, strict, roads);
    }
  }

  lemma StrictCodeBetween(limits: seq<Violation>, strict: seq<Violation>, roads: seq<Violation>)
    requires forall i :: 0 <= i < |limits| ==> !IsStrictCode(limits[i])
    requires forall i :: 0 <= i < |roads| ==> !IsStrictCode(roads[i])
    requires strict != [] ==> IsStrictCode(strict[0])
    ensures HasStrictCode(limits + strict + roads) <==> strict != []
  {
    var all := limits + strict + roads;
    if strict != [] { assert all[|limits|] == strict[0]; }
  }

  lemma LimitsAreNotStrict(limits: seq<Violation>, checks: seq<bool>, roads: seq<Violation>, c: Candidate,
                           request: Request)
    requires |checks| == |LIMIT_CODES| && limits == Raised(checks, LIMIT_CODES)
    requires roads == RoadViolations(c.tolls, c.unpaved, request)
    ensures forall i :: 0 <= i < |limits| ==> !IsStrictCode(limits[i])
    ensures forall i :: 0 <= i < |roads| ==> !IsStrictCode(roads[i])
  {
    forall i | 0 <= i < |limits| ensures !IsStrictCode(limits[i]) {
      RaisedMember(checks, LIMIT_CODES, limits[i]);
    }
  }

  lemma EvidenceIsStrict(strict: seq<Violation>, checks: seq<bool>)
    requires |checks| == |EVIDENCE_CODES| && strict == Raised(checks, EVIDENCE_CODES)
    ensures strict != [] ==> IsStrictCode(strict[0])
  {
    if strict != [] { RaisedMember(checks, EVIDENCE_CODES, strict[0]); }
  }

  lemma BestEffortReads(c: Candidate)
    ensures Reads(BEST_EFFORT_GETTERS, c, BestEffortKeys(c))
  {
  }

  lemma BestEffortCompares(a: Candidate, b: Candidate)
    requires CompareTuple(a, b, BEST_EFFORT_GETTERS) <= 0
    ensures Preferred(BestEffortKeys(a), BestEffortKeys(b), a.id, b.id)
  {
    BestEffortReads(a);
    BestEffortReads(b);
    TupleMeans(a, b, BEST_EFFORT_GETTERS, BestEffortKeys(a), BestEffortKeys(b));
  }

  lemma {:induction false} SortedCompares(s: seq<Candidate>, getters: seq<Getter>, i: nat, j: nat)
    requires i < j < |s|
    ensures var sorted := StableSort(s, ByTuple(getters)); CompareTuple(sorted[i], sorted[j], getters) <= 0
  {
    TupleOrder(getters);
    StableSortSorts(s, ByTuple(getters));
    var sorted := StableSort(s, ByTuple(getters));
    CompareTupleAntisymmetric(sorted[i], sorted[j], getters);
  }

  ghost predicate BestEffortPrefers(a: Candidate, b: Candidate) {
    Preferred(BestEffortKeys(a), BestEffortKeys(b), a.id, b.id)
  }

  ghost predicate InBestEffortOrder(s: seq<Candidate>) {
    forall i, j :: 0 <= i < j < |s| ==> BestEffortPrefers(s[i], s[j])
  }

  lemma {:induction false} SortedIsInOrder(all: seq<Candidate>)
    ensures InBestEffortOrder(StableSort(all, ByTuple(BEST_EFFORT_GETTERS)))
  {
    var sorted := StableSort(all, ByTuple(BEST_EFFORT_GETTERS));
    forall i, j | 0 <= i < j < |sorted| ensures BestEffortPrefers(sorted[i], sorted[j]) {
      SortedCompares(all, BEST_EFFORT_GETTERS, i, j);
      BestEffortCompares(sorted[i], sorted[j]);
    }
  }

  lemma CutFollowsThree(sorted: seq<Candidate>, c: Candidate)
    requires InBestEffortOrder(sorted) && c in sorted && c !in AtMost(sorted, 3)
    ensures var shown := AtMost(sorted, 3); |shown| == 3 && forall i :: 0 <= i < 3 ==> BestEffortPrefers(shown[i], c)
  {
    var j :| 0 <= j < |sorted| && sorted[j] == c;
  }

  lemma {:induction false} UnprovenMember(pool: seq<Candidate>, fastest: Candidate, request: Request,
                                          config: ScoringConfig, c: Candidate)
    ensures var all := Shown(pool, RulesFor(fastest, request, config));
            c in StableSort(all, ByTuple(BEST_EFFORT_GETTERS)) <==>
            c in pool && request.mode == StrictGreen && !ProvenGreen(c, config)
  {
    var all := Shown(pool, RulesFor(fastest, request, config));
    var sorted := StableSort(all, ByTuple(BEST_EFFORT_GETTERS));
    assert c in sorted <==> c in multiset(sorted);
    assert c in all <==> c in multiset(all);
    ShownMember(pool, RulesFor(fastest, request, config), c);
    ShownIsUnproven(c, fastest, request, config);
  }

  /**
    STRICT_GREEN shows the routes of the pool that are not proven green, largest green share
    first: a shown route is preferred to every later one, and a route is left out only after
    three that are preferred to it. No other mode shows any.
    */
  lemma BestEffortOrder(pool: seq<Candidate>, request: Request, config: ScoringConfig, c: Candidate)
    requires pool != []
    ensures var shown := RankOf(pool, request, config).bestEffort;
            && |shown| <= 3 && InBestEffortOrder(shown)
            && (c in shown ==> c in pool && request.mode == StrictGreen && !ProvenGreen(c, config))
            && (c in pool && request.mode == StrictGreen && !ProvenGreen(c, config) ==>
                  || c in shown
                  || (|shown| == 3 && forall i :: 0 <= i < 3 ==> BestEffortPrefers(shown[i], c)))
  {
    var all := Shown(pool, RulesFor(FastestOf(pool), request, config));
    var sorted := ShownIsCut(pool, request, config);
    UnprovenMember(pool, FastestOf(pool), request, config, c);
    SortedIsInOrder(all);
    if c in sorted && c !in AtMost(sorted, 3) {
      CutFollowsThree(sorted, c);
    }
  }

  lemma ShownIsCut(pool: seq<Candidate>, request: Request, config: ScoringConfig) returns (sorted: seq<Candidate>)
    requires pool != []
    ensures sorted ==
            StableSort(Shown(pool, RulesFor(FastestOf(pool), request, config)), ByTuple(BEST_EFFORT_GETTERS))
    ensures RankOf(pool, request, config).bestEffort == AtMost(sorted, 3)
  {
    sorted := StableSort(Shown(pool, RulesFor(FastestOf(pool), request, config)), ByTuple(BEST_EFFORT_GETTERS));
  }

  // ---- what STRICT_GREEN accepts

  /** The segment covers ground or takes time. */
  predicate Counts(x: Segment) { x.distance > 0 || x.live > 0 }

  predicate ConfidentlyGreen(x: Segment, config: ScoringConfig) {
    && x.congestion == Green && x.confidence.score >= config.minimumRouteConfidence
    && (x.confidence.level == High || x.confidence.level == Medium)
  }

  /** The evidence contract in terms of the fields of the route and its segments. */
  lemma StrictGreenInFields(c: Candidate, config: ScoringConfig)
    ensures StrictGreenViolations(c, config) == [] <==>
            && (c.dataType == Realtime || c.dataType == Forecast)
            && (c.confidence.level == High || c.confidence.level == Medium)
            && (exists i :: 0 <= i < |c.segments| && Counts(c.segments[i]))
            && (forall i :: 0 <= i < |c.segments| && Counts(c.segments[i]) ==> ConfidentlyGreen(c.segments[i], config))
            && TotalDistance(Floored(c.segments)) == c.distance && TotalLive(Floored(c.segments)) == c.live
  {
    StrictGreenIsExact(c, config);
    assert forall i :: 0 <= i < |c.segments| ==> (Counts(c.segments[i]) <==> Meaningful(c.segments[i]));
    assert forall i :: 0 <= i < |c.segments| ==>
                         (ConfidentlyGreen(c.segments[i], config) <==>
                          c.segments[i].congestion == Green && !WeakSegment(c.segments[i], config));
  }

  // ---- why a route is rejected

  ghost predicate SomeOf(s: seq<Segment>, kind: CongestionClass) {
    exists i :: 0 <= i < |s| && Meaningful(s[i]) && s[i].congestion == kind
  }

  lemma SomeOfFront(s: seq<Segment>, kind: CongestionClass)
    requires s != []
    ensures SomeOf(s, kind) <==> SomeOf(Front(s), kind) || (Meaningful(Last(s)) && Last(s).congestion == kind)
  {
    if SomeOf(Front(s), kind) {
      var i :| 0 <= i < |Front(s)| && Meaningful(Front(s)[i]) && Front(s)[i].congestion == kind;
      assert s[i] == Front(s)[i];
    }
    if SomeOf(s, kind) {
      var i :| 0 <= i < |s| && Meaningful(s[i]) && s[i].congestion == kind;
      assert i < |s| - 1 ==> Front(s)[i] == s[i];
    }
  }

  lemma {:induction false} FlagsNameClasses(s: seq<Segment>, config: ScoringConfig)
    ensures var flags := FlagsOf(s, config);
            && (flags.red <==> SomeOf(s, Red)) && (flags.orange <==> SomeOf(s, Orange))
            && (flags.yellow <==> SomeOf(s, Yellow))
            && (flags.unknown <==> SomeOf(s, Unknown) || SomeOf(s, Unrecognized))
  {
    if s != [] {
      FlagsNameClasses(Front(s), config);
      SomeOfFront(s, Red);
      SomeOfFront(s, Orange);
      SomeOfFront(s, Yellow);
      SomeOfFront(s, Unknown);
      SomeOfFront(s, Unrecognized);
    }
  }

  /** What each code says of a route. */
  ghost predicate Deserves(v: Violation, c: Candidate, fastest: Candidate, request: Request, config: ScoringConfig) {
    var extra, strict := c.distance - fastest.distance, request.mode == StrictGreen;
    match v
    case RouteBlocked => c.blocked
    case InvalidGeometry => |c.geometry| < 2 || c.distance <= 0 || c.live <= 0
    case ExtraDistance => request.maxExtraDistance >= 0 && extra > request.maxExtraDistance
    case ExtraDistancePercent =>
      && request.maxExtraDistancePercent > 0.0 && fastest.distance > 0
      && Percent(extra, fastest.distance) > request.maxExtraDistancePercent
    case ExtraTime => request.maxExtraTime >= 0 && c.live - fastest.live > request.maxExtraTime
    case ConfidenceBelowMinimum => c.confidence.score < config.minimumRouteConfidence
    case TollsNotAllowed => request.avoidTolls && c.tolls
    case UnpavedNotAllowed => request.avoidUnpaved && c.unpaved
    case StrictEvidenceRequired => strict && c.dataType != Realtime && c.dataType != Forecast
    case StrictRouteConfidence => strict && c.confidence.level == Low
    case StrictSegmentsRequired => strict && !SomeMeaningful(c.segments)
    case StrictNonGreen => strict && !AllGreen(c.segments)
    case StrictRed => strict && SomeOf(c.segments, Red)
    case StrictOrange => strict && SomeOf(c.segments, Orange)
    case StrictYellow => strict && SomeOf(c.segments, Yellow)
    case StrictUnknown => strict && (SomeOf(c.segments, Unknown) || SomeOf(c.segments, Unrecognized))
    case StrictSegmentConfidence => strict && !AllConfident(c.segments, config)
    case StrictCoverage =>
      && strict && SomeMeaningful(c.segments)
      && !(TotalDistance(Floored(c.segments)) == c.distance && TotalLive(Floored(c.segments)) == c.live)
  }

  lemma LimitMember(v: Violation, c: Candidate, fastest: Candidate, request: Request, config: ScoringConfig)
    ensures v in LimitViolations(c, fastest, request, config) <==>
            !IsStrictCode(v) && !v.TollsNotAllowed? && !v.UnpavedNotAllowed? && Deserves(v, c, fastest, request, config)
  {
    var checks := LimitChecks(c, fastest, request, config);
    RaisedMember(checks, LIMIT_CODES, v);
    assert (exists i :: 0 <= i < |checks| && checks[i] && LIMIT_CODES[i] == v) <==>
           || (checks[0] && v.RouteBlocked?) || (checks[1] && v.InvalidGeometry?) || (checks[2] && v.ExtraDistance?)
           || (checks[3] && v.ExtraDistancePercent?) || (checks[4] && v.ExtraTime?)
           || (checks[5] && v.ConfidenceBelowMinimum?);
  }

  /** The check that stands for this code fires. */
  predicate Fires(v: Violation, checks: seq<bool>)
    requires |checks| == |EVIDENCE_CODES|
  {
    match v
    case StrictEvidenceRequired => checks[0]
    case StrictRouteConfidence => checks[1]
    case StrictSegmentsRequired => checks[2]
    case StrictNonGreen => checks[3]
    case StrictRed => checks[4]
    case StrictOrange => checks[5]
    case StrictYellow => checks[6]
    case StrictUnknown => checks[7]
    case StrictSegmentConfidence => checks[8]
    case StrictCoverage => checks[9]
    case _ => false
  }

  lemma RaisedEvidence(v: Violation, checks: seq<bool>)
    requires |checks| == |EVIDENCE_CODES|
    ensures v in Raised(checks, EVIDENCE_CODES) <==> Fires(v, checks)
  {
    RaisedMember(checks, EVIDENCE_CODES, v);
    if Fires(v, checks) {
      var i :| 0 <= i < |checks| && EVIDENCE_CODES[i] == v && checks[i];
    }
  }

  /** The checks of the evidence contract, in terms of the promise. */
  ghost predicate ChecksMean(checks: seq<bool>, c: Candidate, config: ScoringConfig) {
    && |checks| == |EVIDENCE_CODES|
    && (checks[0] <==> c.dataType != Realtime && c.dataType != Forecast)
    && (checks[1] <==> c.confidence.level == Low)
    && (checks[2] <==> !SomeMeaningful(c.segments))
    && (checks[3] <==> !AllGreen(c.segments))
    && (checks[4] <==> SomeOf(c.segments, Red))
    && (checks[5] <==> SomeOf(c.segments, Orange))
    && (checks[6] <==> SomeOf(c.segments, Yellow))
    && (checks[7] <==> SomeOf(c.segments, Unknown) || SomeOf(c.segments, Unrecognized))
    && (checks[8] <==> !AllConfident(c.segments, config))
    && (checks[9] <==>
        && SomeMeaningful(c.segments)
        && !(TotalDistance(Floored(c.segments)) == c.distance && TotalLive(Floored(c.segments)) == c.live))
  }

  lemma EvidenceChecksMean(c: Candidate, config: ScoringConfig)
    ensures ChecksMean(EvidenceChecksOf(c, config), c, config)
  {
    var s := c.segments;
    FlagsMean(s, config);
    FlagsNameClasses(s, config);
    ChecksInOrder(c.dataType != Realtime && c.dataType != Forecast, WeakLevel(c.confidence), FlagsOf(s, config),
                  TotalDistance(Floored(s)) != c.distance || TotalLive(Floored(s)) != c.live);
  }

  lemma ChecksInOrder(unobserved: bool, doubtful: bool, flags: Flags, uncovered: bool)
    ensures var c := EvidenceChecks(unobserved, doubtful, flags, uncovered);
            && c[0] == unobserved && c[1] == doubtful && c[2] == !flags.meaningful && c[3] == flags.nonGreen
            && c[4] == flags.red && c[5] == flags.orange && c[6] == flags.yellow && c[7] == flags.unknown
            && c[8] == flags.weak && c[9] == (flags.meaningful && uncovered)
  {
  }

  lemma EvidenceDeserved(v: Violation, checks: seq<bool>, c: Candidate, fastest: Candidate, request: Request,
                         config: ScoringConfig)
    requires request.mode == StrictGreen && ChecksMean(checks, c, config)
    ensures Fires(v, checks) <==> IsStrictCode(v) && Deserves(v, c, fastest, request, config)
  {
  }

  lemma EvidenceMember(v: Violation, c: Candidate, fastest: Candidate, request: Request, config: ScoringConfig)
    requires request.mode == StrictGreen
    ensures v in StrictGreenViolations(c, config) <==> IsStrictCode(v) && Deserves(v, c, fastest, request, config)
  {
    EvidenceChecksMean(c, config);
    EvidenceDeserved(v, EvidenceChecksOf(c, config), c, fastest, request, config);
    RaisedEvidence(v, EvidenceChecksOf(c, config));
  }

  /** A code is reported if and only if what it says is so. */
  lemma CodesAreExact(v: Violation, c: Candidate, fastest: Candidate, request: Request, config: ScoringConfig)
    ensures v in HardConstraintViolations(c, fastest, request, config) <==> Deserves(v, c, fastest, request, config)
  {
    LimitMember(v, c, fastest, request, config);
    if request.mode == StrictGreen {
      EvidenceMember(v, c, fastest, request, config);
    }
  }

  ghost predicate AtFault(c: Candidate, fastest: Candidate, request: Request, config: ScoringConfig) {
    exists v :: Deserves(v, c, fastest, request, config)
  }

  lemma RejectedUnder(pool: seq<Candidate>, rules: Rules, c: Candidate)
    requires DistinctIds(pool) && c in pool
    ensures var rejected := Rejections(pool, rules);
            && (c.id in rejected <==> rules.violations(c) != [])
            && (c.id in rejected ==> rejected[c.id] == rules.violations(c))
  {
    RejectionsByMembership(pool, rules);
    RejectedIsNotAccepted(pool, rules, c);
  }

  /** With distinct identifiers: exactly the routes that deserve a code are rejected, under exactly those codes. */
  lemma RejectionIsExplained(pool: seq<Candidate>, request: Request, config: ScoringConfig, c: Candidate)
    requires DistinctIds(pool) && c in pool
    ensures var rejected, fastest := RankOf(pool, request, config).rejected, FastestOf(pool);
            && (c.id in rejected <==> AtFault(c, fastest, request, config))
            && (c.id in rejected ==> forall v :: v in rejected[c.id] <==> Deserves(v, c, fastest, request, config))
  {
    var fastest, rejected := FastestOf(pool), RankOf(pool, request, config).rejected;
    var violations := HardConstraintViolations(c, fastest, request, config);
    RejectedUnder(pool, RulesFor(fastest, request, config), c);
    assert rejected == Rejections(pool, RulesFor(fastest, request, config));
    assert RulesFor(fastest, request, config).violations(c) == violations;
    assert c.id in rejected ==> rejected[c.id] == violations;
    CodesOf(violations, c, fastest, request, config);
  }

  lemma CodesOf(violations: seq<Violation>, c: Candidate, fastest: Candidate, request: Request, config: ScoringConfig)
    requires violations == HardConstraintViolations(c, fastest, request, config)
    ensures violations != [] <==> AtFault(c, fastest, request, config)
    ensures forall v :: v in violations <==> Deserves(v, c, fastest, request, config)
  {
    forall v ensures v in violations <==> Deserves(v, c, fastest, request, config) {
      CodesAreExact(v, c, fastest, request, config);
    }
    if violations != [] { assert Deserves(violations[0], c, fastest, request, config); }
  }
}
