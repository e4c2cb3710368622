/**
  Hard constraints, the fail-closed STRICT_GREEN evidence contract, and the ranking
  of a candidate pool.
  */
module Ranking {
  import opened Domain
  import opened Sorting
  import opened Evaluation

  // ---- STRICT_GREEN evidence

  datatype Violation =
    | RouteBlocked | InvalidGeometry | ExtraDistance | ExtraDistancePercent | ExtraTime | ConfidenceBelowMinimum
    | TollsNotAllowed | UnpavedNotAllowed
    | StrictEvidenceRequired | StrictRouteConfidence | StrictSegmentsRequired | StrictNonGreen
    | StrictRed | StrictOrange | StrictYellow | StrictUnknown | StrictSegmentConfidence | StrictCoverage

  predicate IsStrictCode(v: Violation) {
    v in {StrictEvidenceRequired, StrictRouteConfidence, StrictSegmentsRequired, StrictNonGreen,
          StrictRed, StrictOrange, StrictYellow, StrictUnknown, StrictSegmentConfidence, StrictCoverage}
  }

  predicate Meaningful(segment: Segment) {
    !(segment.distance <= 0 && segment.live <= 0)
  }

  predicate WeakLevel(confidence: Confidence) {
    confidence.level != High && confidence.level != Medium
  }

  predicate WeakSegment(segment: Segment, config: ScoringConfig) {
    segment.confidence.score < config.minimumRouteConfidence || WeakLevel(segment.confidence)
  }

  /** The codes whose check fires, in order. */
  function Raised(checks: seq<bool>, codes: seq<Violation>): seq<Violation>
    requires |checks| == |codes|
  {
    if checks == [] then []
    else
      var n := |checks| - 1;
      Raised(checks[..n], codes[..n]) + if checks[n] then [codes[n]] else []
  }

  lemma {:induction false} RaisedMember(checks: seq<bool>, codes: seq<Violation>, v: Violation)
    requires |checks| == |codes|
    ensures v in Raised(checks, codes) <==> exists i :: 0 <= i < |checks| && checks[i] && codes[i] == v
  {
    if checks != [] {
      var n := |checks| - 1;
      RaisedMember(checks[..n], codes[..n], v);
      assert forall i :: 0 <= i < n ==> checks[..n][i] == checks[i] && codes[..n][i] == codes[i];
    }
  }

  lemma NothingRaised(checks: seq<bool>, codes: seq<Violation>)
    requires |checks| == |codes|
    ensures Raised(checks, codes) == [] <==> forall i :: 0 <= i < |checks| ==> !checks[i]
  {
    var raised := Raised(checks, codes);
    if raised != [] {
      assert raised[0] in raised;
      RaisedMember(checks, codes, raised[0]);
    }
    forall i | 0 <= i < |checks| && checks[i] ensures raised != [] {
      RaisedMember(checks, codes, codes[i]);
    }
  }

  const LIMIT_CODES := [RouteBlocked, InvalidGeometry, ExtraDistance, ExtraDistancePercent, ExtraTime,
                        ConfidenceBelowMinimum]

  const EVIDENCE_CODES := [StrictEvidenceRequired, StrictRouteConfidence, StrictSegmentsRequired, StrictNonGreen,
                           StrictRed, StrictOrange, StrictYellow, StrictUnknown, StrictSegmentConfidence,
                           StrictCoverage]

  /** The flags the evidence loop raises while it walks the segments. */
  datatype Flags = Flags(meaningful: bool, nonGreen: bool, red: bool, orange: bool, yellow: bool, unknown: bool,
                         weak: bool)

  function Raise(flags: Flags, x: Segment, config: ScoringConfig): Flags {
    var seen := flags.(meaningful := true, weak := flags.weak || WeakSegment(x, config));
    match x.congestion
    case Green => seen
    case Yellow => seen.(nonGreen := true, yellow := true)
    case Orange => seen.(nonGreen := true, orange := true)
    case Red => seen.(nonGreen := true, red := true)
    case _ => seen.(nonGreen := true, unknown := true)
  }

  function FlagsOf(s: seq<Segment>, config: ScoringConfig): Flags {
    if s == [] then Flags(false, false, false, false, false, false, false)
    else if !Meaningful(Last(s)) then FlagsOf(Front(s), config)
    else Raise(FlagsOf(Front(s), config), Last(s), config)
  }

  ghost predicate SomeMeaningful(s: seq<Segment>) {
    exists i :: 0 <= i < |s| && Meaningful(s[i])
  }

  ghost predicate AllGreen(s: seq<Segment>) {
    forall i :: 0 <= i < |s| && Meaningful(s[i]) ==> s[i].congestion == Green
  }

  ghost predicate AllConfident(s: seq<Segment>, config: ScoringConfig) {
    forall i :: 0 <= i < |s| && Meaningful(s[i]) ==> !WeakSegment(s[i], config)
  }

  lemma FrontSays(s: seq<Segment>, config: ScoringConfig)
    requires s != []
    ensures SomeMeaningful(s) <==> SomeMeaningful(Front(s)) || Meaningful(Last(s))
    ensures AllGreen(s) <==> AllGreen(Front(s)) && (Meaningful(Last(s)) ==> Last(s).congestion == Green)
    ensures AllConfident(s, config) <==>
            AllConfident(Front(s), config) && (Meaningful(Last(s)) ==> !WeakSegment(Last(s), config))
  {
    var front := Front(s);
    assert forall i :: 0 <= i < |front| ==> front[i] == s[i];
    assert s[|s| - 1] == Last(s);
  }

  /** The flags mean what the promise quantifies over. */
  lemma {:induction false} FlagsMean(s: seq<Segment>, config: ScoringConfig)
    ensures var flags := FlagsOf(s, config);
            && (flags.meaningful <==> SomeMeaningful(s))
            && (!flags.nonGreen <==> AllGreen(s))
            && (!flags.nonGreen ==> !flags.red && !flags.orange && !flags.yellow && !flags.unknown)
            && (!flags.weak <==> AllConfident(s, config))
  {
    if s != [] {
      FlagsMean(Front(s), config);
      FrontSays(s, config);
    }
  }

  /** The checks of the evidence contract, from what the loop found. */
  function EvidenceChecks(unobserved: bool, doubtful: bool, flags: Flags, uncovered: bool): (r: seq<bool>)
    ensures |r| == |EVIDENCE_CODES|
  {
    [unobserved, doubtful, !flags.meaningful, flags.nonGreen, flags.red, flags.orange, flags.yellow, flags.unknown,
     flags.weak, flags.meaningful && uncovered]
  }

  function EvidenceChecksOf(candidate: Candidate, config: ScoringConfig): (r: seq<bool>)
    ensures |r| == |EVIDENCE_CODES|
  {
    var s := candidate.segments;
    EvidenceChecks(candidate.dataType != Realtime && candidate.dataType != Forecast,
                   WeakLevel(candidate.confidence), FlagsOf(s, config),
                   TotalDistance(Floored(s)) != candidate.distance || TotalLive(Floored(s)) != candidate.live)
  }

  function StrictGreenViolations(candidate: Candidate, config: ScoringConfig): seq<Violation> {
    Raised(EvidenceChecksOf(candidate, config), EVIDENCE_CODES)
  }

  lemma FlagsStep(s: seq<Segment>, x: Segment, config: ScoringConfig)
    ensures FlagsOf(s + [x], config) ==
            if Meaningful(x) then Raise(FlagsOf(s, config), x, config) else FlagsOf(s, config)
  {
    assert Front(s + [x]) == s;
  }

  /** The evidence loop: flags and covered measurements of the meaningful segments. */
  method ScanEvidence(segments: seq<Segment>, config: ScoringConfig)
    returns (flags: Flags, covered: int, coveredLive: int)
    ensures flags == FlagsOf(segments, config)
    ensures covered == TotalDistance(Floored(segments)) && coveredLive == TotalLive(Floored(segments))
  {
    covered, coveredLive := 0, 0;
    flags := Flags(false, false, false, false, false, false, false);
    for i := 0 to |segments|
      invariant flags == FlagsOf(segments[..i], config)
      invariant covered == TotalDistance(Floored(segments[..i])) && coveredLive == TotalLive(Floored(segments[..i]))
    {
      var segment := segments[i];
      assert segments[..i + 1] == segments[..i] + [segment];
      CoverageStep(segments[..i], segment);
      FlagsStep(segments[..i], segment, config);
      if Meaningful(segment) {
        covered, coveredLive := covered + Max(segment.distance, 0), coveredLive + Max(segment.live, 0);
        flags := Raise(flags, segment, config);
      }
    }
    assert segments[..|segments|] == segments;
  }

  method StrictGreenEvidence(candidate: Candidate, config: ScoringConfig) returns (violations: seq<Violation>)
    ensures violations == StrictGreenViolations(candidate, config)
  {
    var flags, covered, coveredLive := ScanEvidence(candidate.segments, config);
    violations := Raised(EvidenceChecks(candidate.dataType != Realtime && candidate.dataType != Forecast,
                                        WeakLevel(candidate.confidence), flags,
                                        covered != candidate.distance || coveredLive != candidate.live),
                         EVIDENCE_CODES);
  }

  /**
    The STRICT_GREEN promise: observed or forecast evidence, at least one meaningful
    segment, every meaningful segment confidently GREEN, and segment measurements that
    add up exactly to the route's.
    */
  ghost predicate ProvenGreen(candidate: Candidate, config: ScoringConfig) {
    && (candidate.dataType == Realtime || candidate.dataType == Forecast)
    && (candidate.confidence.level == High || candidate.confidence.level == Medium)
    && SomeMeaningful(candidate.segments)
    && AllGreen(candidate.segments)
    && AllConfident(candidate.segments, config)
    && TotalDistance(Floored(candidate.segments)) == candidate.distance
    && TotalLive(Floored(candidate.segments)) == candidate.live
  }

  /** The evidence check passes exactly the routes that are proven green. */
  lemma StrictGreenIsExact(candidate: Candidate, config: ScoringConfig)
    ensures StrictGreenViolations(candidate, config) == [] <==> ProvenGreen(candidate, config)
  {
    var checks := EvidenceChecksOf(candidate, config);
    NothingRaised(checks, EVIDENCE_CODES);
    assert (forall i :: 0 <= i < |checks| ==> !checks[i]) <==>
           && !checks[0] && !checks[1] && !checks[2] && !checks[3] && !checks[4] && !checks[5] && !checks[6]
           && !checks[7] && !checks[8] && !checks[9];
    FlagsMean(candidate.segments, config);
  }

  // ---- hard constraints

  /** Blocked, malformed, too long, too long in percent, too slow, too uncertain. */
  function LimitChecks(candidate: Candidate, fastest: Candidate, request: Request,
                       config: ScoringConfig): (r: seq<bool>)
    ensures |r| == |LIMIT_CODES|
  {
    var extra := candidate.distance - fastest.distance;
    [candidate.blocked, |candidate.geometry| < 2 || candidate.distance <= 0 || candidate.live <= 0,
     request.maxExtraDistance >= 0 && extra > request.maxExtraDistance,
     request.maxExtraDistancePercent > 0.0 && fastest.distance > 0
     && Percent(extra, fastest.distance) > request.maxExtraDistancePercent,
     request.maxExtraTime >= 0 && candidate.live - fastest.live > request.maxExtraTime,
     candidate.confidence.score < config.minimumRouteConfidence]
  }

  function LimitViolations(candidate: Candidate, fastest: Candidate, request: Request,
                           config: ScoringConfig): seq<Violation> {
    Raised(LimitChecks(candidate, fastest, request, config), LIMIT_CODES)
  }

  function RoadViolations(tolls: bool, unpaved: bool, request: Request): seq<Violation> {
    (if request.avoidTolls && tolls then [TollsNotAllowed] else [])
    + (if request.avoidUnpaved && unpaved then [UnpavedNotAllowed] else [])
  }

  function HardConstraintViolations(candidate: Candidate, fastest: Candidate, request: Request,
                                    config: ScoringConfig): seq<Violation> {
    LimitViolations(candidate, fastest, request, config)
    + (if request.mode == StrictGreen then StrictGreenViolations(candidate, config) else [])
    + RoadViolations(candidate.tolls, candidate.unpaved, request)
  }

  /** What a request demands of a route whatever the others are. */
  ghost predicate MeetsAlone(candidate: Candidate, request: Request, config: ScoringConfig) {
    && !candidate.blocked && |candidate.geometry| >= 2 && candidate.distance > 0 && candidate.live > 0
    && candidate.confidence.score >= config.minimumRouteConfidence
    && (request.mode == StrictGreen ==> ProvenGreen(candidate, config))
    && (request.avoidTolls ==> !candidate.tolls) && (request.avoidUnpaved ==> !candidate.unpaved)
  }

  /** What it demands against the fastest route. */
  predicate WithinExtra(candidate: Candidate, fastest: Candidate, request: Request) {
    && (request.maxExtraDistance >= 0 ==> candidate.distance <= fastest.distance + request.maxExtraDistance)
    && (request.maxExtraDistancePercent > 0.0 && fastest.distance > 0 ==>
          Percent(candidate.distance - fastest.distance, fastest.distance) <= request.maxExtraDistancePercent)
    && (request.maxExtraTime >= 0 ==> candidate.live <= fastest.live + request.maxExtraTime)
  }

  ghost predicate Meets(candidate: Candidate, fastest: Candidate, request: Request, config: ScoringConfig) {
    MeetsAlone(candidate, request, config) && WithinExtra(candidate, fastest, request)
  }

  lemma LimitsAreExact(candidate: Candidate, fastest: Candidate, request: Request, config: ScoringConfig)
    ensures LimitViolations(candidate, fastest, request, config) == [] <==>
            Meets(candidate, fastest, request.(mode := Fastest, avoidTolls := false, avoidUnpaved := false), config)
  {
    var checks := LimitChecks(candidate, fastest, request, config);
    NothingRaised(checks, LIMIT_CODES);
    assert (forall i :: 0 <= i < |checks| ==> !checks[i]) <==>
           !checks[0] && !checks[1] && !checks[2] && !checks[3] && !checks[4] && !checks[5];
  }

  /** A route is accepted exactly when it meets every demand. */
  lemma ConstraintsAreExact(candidate: Candidate, fastest: Candidate, request: Request, config: ScoringConfig)
    ensures HardConstraintViolations(candidate, fastest, request, config) == [] <==>
            Meets(candidate, fastest, request, config)
  {
    LimitsAreExact(candidate, fastest, request, config);
    StrictGreenIsExact(candidate, config);
  }

  // ---- comparators

  type Getter = Candidate -> real

  function CompareReals(a: real, b: real): int { if a < b then -1 else if a > b then 1 else 0 }

  /** Lexicographic comparison by the getters, then by identifier. */
  function CompareTuple(a: Candidate, b: Candidate, getters: seq<Getter>): int {
    if getters == [] then CompareText(a.id, b.id)
    else
      var first := CompareReals(getters[0](a), getters[0](b));
      if first != 0 then first else CompareTuple(a, b, getters[1..])
  }

  lemma {:induction false} CompareTupleAntisymmetric(a: Candidate, b: Candidate, getters: seq<Getter>)
    ensures CompareTuple(a, b, getters) == -CompareTuple(b, a, getters)
    ensures CompareTuple(a, b, getters) == 0 ==> a.id == b.id
  {
    if getters == [] {
      CompareTextAntisymmetric(a.id, b.id);
    } else {
      CompareTupleAntisymmetric(a, b, getters[1..]);
    }
  }

  lemma {:induction false} CompareTupleTransitive(a: Candidate, b: Candidate, c: Candidate, getters: seq<Getter>)
    requires CompareTuple(a, b, getters) <= 0 && CompareTuple(b, c, getters) <= 0
    ensures CompareTuple(a, c, getters) <= 0
  {
    if getters == [] {
      CompareTextTransitive(a.id, b.id, c.id);
    } else if getters[0](a) == getters[0](b) == getters[0](c) {
      CompareTupleTransitive(a, b, c, getters[1..]);
    }
  }

  function ByTuple(getters: seq<Getter>): (Candidate, Candidate) -> bool {
    (a, b) => CompareTuple(a, b, getters) < 0
  }

  /** For distinct identifiers every tuple comparator is a strict total order. */
  lemma TupleOrder(getters: seq<Getter>)
    ensures WeakOrder(ByTuple(getters))
    ensures forall a: Candidate, b: Candidate :: a.id != b.id ==> ByTuple(getters)(a, b) || ByTuple(getters)(b, a)
  {
    var less := ByTuple(getters);
    forall a: Candidate, b: Candidate
      ensures less(a, b) ==> !less(b, a)
      ensures a.id != b.id ==> less(a, b) || less(b, a)
    {
      CompareTupleAntisymmetric(a, b, getters);
    }
    forall a: Candidate, b: Candidate, c: Candidate | !less(b, a) && !less(c, b) ensures !less(c, a) {
      CompareTupleAntisymmetric(a, b, getters);
      CompareTupleAntisymmetric(b, c, getters);
      CompareTupleAntisymmetric(a, c, getters);
      CompareTupleTransitive(a, b, c, getters);
    }
  }

  function CoverageRatio(value: int, total: int): real {
    if value <= 0 || total <= 0 then 0.0 else RealMin(1.0, value as real / total as real)
  }

  function UnknownRatio(value: int, total: int): real {
    if value <= 0 then 0.0 else if total <= 0 then 1.0 else RealMin(1.0, value as real / total as real)
  }

  const BEST_EFFORT_GETTERS: seq<Getter> := [
    (c: Candidate) => 1.0 - CoverageRatio(c.metrics.greenDistance, c.distance),
    (c: Candidate) => 1.0 - CoverageRatio(c.metrics.greenDuration, c.live),
    (c: Candidate) => CoverageRatio(c.metrics.redDistance, c.distance),
    (c: Candidate) => CoverageRatio(c.metrics.redDuration, c.live),
    (c: Candidate) => CoverageRatio(c.metrics.orangeDistance, c.distance),
    (c: Candidate) => CoverageRatio(c.metrics.orangeDuration, c.live),
    (c: Candidate) => CoverageRatio(c.metrics.yellowDistance, c.distance),
    (c: Candidate) => CoverageRatio(c.metrics.yellowDuration, c.live),
    (c: Candidate) => CoverageRatio(c.metrics.unknownDistance, c.distance),
    (c: Candidate) => CoverageRatio(c.metrics.unknownDuration, c.live),
    (c: Candidate) => 1.0 - Clamp01(c.confidence.score),
    (c: Candidate) => c.live as real,
    (c: Candidate) => c.distance as real]

  const STRICT_GREEN_GETTERS: seq<Getter> := [
    (c: Candidate) => UnknownRatio(c.metrics.unknownDuration, c.live),
    (c: Candidate) => UnknownRatio(c.metrics.unknownDistance, c.distance),
    (c: Candidate) => c.metrics.redDuration as real,
    (c: Candidate) => c.metrics.redDistance as real,
    (c: Candidate) => c.metrics.orangeDuration as real,
    (c: Candidate) => 1.0 - c.confidence.score,
    (c: Candidate) => c.metrics.totalDelay as real,
    (c: Candidate) => c.metrics.worstContinuousCongestion as real,
    (c: Candidate) => c.live as real,
    (c: Candidate) => c.distance as real]

  function RouteGetters(fastest: Candidate, request: Request, config: ScoringConfig): seq<Getter> {
    match request.mode
    case Fastest => [(c: Candidate) => c.live as real, (c: Candidate) => c.distance as real]
    case StrictGreen => STRICT_GREEN_GETTERS
    case Greenest =>
      var penalty := config.greenestExtraTimePenalty * (1.7 - Clamp01(request.strictness));
      [(c: Candidate) => UnknownRatio(c.metrics.unknownDuration, c.live),
       (c: Candidate) => UnknownRatio(c.metrics.unknownDistance, c.distance),
       (c: Candidate) => c.metrics.redDuration as real + RealMax(0.0, (c.live - fastest.live) as real) * penalty,
       (c: Candidate) => c.metrics.redDistance as real,
       (c: Candidate) => c.metrics.orangeDuration as real,
       (c: Candidate) => 1.0 - c.confidence.score,
       (c: Candidate) => c.metrics.totalDelay as real,
       (c: Candidate) => c.live as real,
       (c: Candidate) => c.distance as real]
    case Balanced => [(c: Candidate) => c.score]
  }

  function PositiveRatio(value: int, total: int): real {
    if value <= 0 || total <= 0 then 0.0 else value as real / total as real
  }

  function StrictnessDelta(request: Request): real { Clamp01(request.strictness) - 0.7 }

  function TrafficPenalty(c: Candidate, request: Request, config: ScoringConfig): real {
    var congested := c.metrics.congestedDurationPercent + Percent(c.metrics.unknownDuration, c.live);
    1.0 + config.balancedTrafficWeight * (1.0 + StrictnessDelta(request)) * RealMin(1.0, congested / 100.0)
  }

  /** What exceeding the fastest route costs, in seconds or in metres. */
  function ExtraPenalty(weight: real, value: int, reference: int, request: Request): real {
    1.0 + weight * (1.0 - 0.7 * StrictnessDelta(request)) * PositiveRatio(value - reference, reference)
  }

  function UncertaintyPenalty(c: Candidate, config: ScoringConfig): real {
    1.0 + config.balancedUncertaintyWeight * (1.0 - c.confidence.score)
  }

  function TollPenalty(c: Candidate, config: ScoringConfig): real {
    if c.tolls then 1.0 + config.balancedTollWeight else 1.0
  }

  function Product(factors: seq<real>): real {
    if factors == [] then 1.0 else Product(factors[..|factors| - 1]) * factors[|factors| - 1]
  }

  function RouteScore(c: Candidate, fastest: Candidate, request: Request, config: ScoringConfig): real {
    if request.mode != Balanced then
      (c.metrics.redDuration * 1000000 + c.metrics.orangeDuration * 1000) as real + c.live as real
    else
      Round(Product([TrafficPenalty(c, request, config),
                     ExtraPenalty(config.balancedEtaWeight, c.live, fastest.live, request),
                     ExtraPenalty(config.balancedDistanceWeight, c.distance, fastest.distance, request),
                     UncertaintyPenalty(c, config), TollPenalty(c, config)]),
            100000000.0)
  }

  // ---- the ranking

  datatype Ranked = Ranked(
    selected: Option<Candidate>,
    eligible: seq<Candidate>,
    bestEffort: seq<Candidate>,
    rejected: map<string, seq<Violation>>)

  predicate Quicker(a: Candidate, b: Candidate) {
    a.live < b.live || (a.live == b.live && CompareText(a.id, b.id) < 0)
  }

  function FastestOf(candidates: seq<Candidate>): (r: Candidate)
    requires candidates != []
    ensures r in candidates
  {
    if |candidates| == 1 then candidates[0]
    else
      var best := FastestOf(candidates[..|candidates| - 1]);
      if Quicker(candidates[|candidates| - 1], best) then candidates[|candidates| - 1] else best
  }

  function Scored(c: Candidate, fastest: Candidate, request: Request, config: ScoringConfig): Candidate {
    c.(score := RouteScore(c, fastest, request, config))
  }

  predicate HasStrictCode(violations: seq<Violation>) {
    exists i :: 0 <= i < |violations| && IsStrictCode(violations[i])
  }

  /** Everything ranking consults once the fastest route is known. */
  datatype Rules = Rules(
    violations: Candidate -> seq<Violation>,
    strict: bool,
    score: Candidate -> Candidate,
    getters: seq<Getter>)
  {
    predicate Accepts(c: Candidate) { violations(c) == [] }

    predicate Shows(c: Candidate) { strict && HasStrictCode(violations(c)) }
  }

  function RulesFor(fastest: Candidate, request: Request, config: ScoringConfig): Rules {
    Rules((c: Candidate) => HardConstraintViolations(c, fastest, request, config), request.mode == StrictGreen,
          (c: Candidate) => Scored(c, fastest, request, config), RouteGetters(fastest, request, config))
  }

  function Accepted(s: seq<Candidate>, rules: Rules): seq<Candidate> {
    if s == [] then []
    else Accepted(s[..|s| - 1], rules) + if rules.Accepts(s[|s| - 1]) then [s[|s| - 1]] else []
  }

  function Shown(s: seq<Candidate>, rules: Rules): seq<Candidate> {
    if s == [] then []
    else Shown(s[..|s| - 1], rules) + if rules.Shows(s[|s| - 1]) then [s[|s| - 1]] else []
  }

  function Rejections(s: seq<Candidate>, rules: Rules): map<string, seq<Violation>> {
    if s == [] then map[]
    else
      var earlier, c := Rejections(s[..|s| - 1], rules), s[|s| - 1];
      if rules.Accepts(c) then earlier else earlier[c.id := rules.violations(c)]
  }

  function FirstOf(s: seq<Candidate>): Option<Candidate> {
    if s == [] then None else Some(s[0])
  }

  function Arrange(candidates: seq<Candidate>, rules: Rules): Ranked {
    var eligible := StableSort(Map(Accepted(candidates, rules), rules.score), ByTuple(rules.getters));
    Ranked(FirstOf(eligible), eligible,
           AtMost(StableSort(Shown(candidates, rules), ByTuple(BEST_EFFORT_GETTERS)), 3), Rejections(candidates, rules))
  }

  /** Rank as one expression over the whole pool. */
  function RankOf(candidates: seq<Candidate>, request: Request, config: ScoringConfig): Ranked {
    if candidates == [] then Ranked(None, [], [], map[])
    else Arrange(candidates, RulesFor(FastestOf(candidates), request, config))
  }

  method FindFastest(candidates: seq<Candidate>) returns (fastest: Candidate)
    requires candidates != []
    ensures fastest == FastestOf(candidates)
  {
    fastest := candidates[0];
    for i := 1 to |candidates|
      invariant fastest == FastestOf(candidates[..i])
    {
      assert candidates[..i + 1][..i] == candidates[..i];
      if Quicker(candidates[i], fastest) {
        fastest := candidates[i];
      }
    }
    assert candidates[..|candidates|] == candidates;
  }

  lemma ScreenStep(before: seq<Candidate>, c: Candidate, rules: Rules)
    ensures Accepted(before + [c], rules) == Accepted(before, rules) + if rules.Accepts(c) then [c] else []
    ensures Shown(before + [c], rules) == Shown(before, rules) + if rules.Shows(c) then [c] else []
    ensures Rejections(before + [c], rules) ==
            if rules.Accepts(c) then Rejections(before, rules)
            else Rejections(before, rules)[c.id := rules.violations(c)]
  {
    assert (before + [c])[..|before|] == before;
  }

  /** The filtering loop of Rank. */
  method Screen(candidates: seq<Candidate>, rules: Rules)
    returns (eligible: seq<Candidate>, bestEffort: seq<Candidate>, rejected: map<string, seq<Violation>>)
    ensures eligible == Map(Accepted(candidates, rules), rules.score)
    ensures bestEffort == Shown(candidates, rules)
    ensures rejected == Rejections(candidates, rules)
  {
    eligible, bestEffort, rejected := [], [], map[];
    for i := 0 to |candidates|
      invariant eligible == Map(Accepted(candidates[..i], rules), rules.score)
      invariant bestEffort == Shown(candidates[..i], rules)
      invariant rejected == Rejections(candidates[..i], rules)
    {
      var candidate := candidates[i];
      assert candidates[..i + 1] == candidates[..i] + [candidate];
      ScreenStep(candidates[..i], candidate, rules);
      MapConcat(Accepted(candidates[..i], rules), [candidate], rules.score);
      var violations := rules.violations(candidate);
      if |violations| > 0 {
        rejected := rejected[candidate.id := violations];
        if rules.strict && HasStrictCode(violations) {
          bestEffort := bestEffort + [candidate];
        }
      } else {
        eligible := eligible + [rules.score(candidate)];
      }
    }
    assert candidates[..|candidates|] == candidates;
  }

  method Rank(candidates: seq<Candidate>, request: Request, config: ScoringConfig) returns (result: Ranked)
    ensures result == RankOf(candidates, request, config)
  {
    if |candidates| == 0 {
      return Ranked(None, [], [], map[]);
    }
    var fastest := FindFastest(candidates);
    var rules := RulesFor(fastest, request, config);
    var eligible, bestEffort, rejected := Screen(candidates, rules);
    eligible := StableSort(eligible, ByTuple(rules.getters));
    bestEffort := AtMost(StableSort(bestEffort, ByTuple(BEST_EFFORT_GETTERS)), 3);
    result := Ranked(FirstOf(eligible), eligible, bestEffort, rejected);
  }

  // ---- what ranking guarantees

  ghost predicate DistinctIds(candidates: seq<Candidate>) {
    forall i, j :: 0 <= i < j < |candidates| ==> candidates[i].id != candidates[j].id
  }

  lemma DistinctIdsByMembership(candidates: seq<Candidate>)
    requires DistinctIds(candidates)
    ensures forall a, b :: a in candidates && b in candidates && a != b ==> a.id != b.id
  {
  }

  /** The fastest route is no slower than any other; ties go to the smaller identifier. */
  lemma {:induction false} FastestIsLeast(candidates: seq<Candidate>, c: Candidate)
    requires c in candidates
    ensures !Quicker(c, FastestOf(candidates))
  {
    var last := candidates[|candidates| - 1];
    if |candidates| == 1 {
      CompareTextAntisymmetric(c.id, c.id);
    } else {
      var front := candidates[..|candidates| - 1];
      var best := FastestOf(front);
      CompareTextAntisymmetric(last.id, last.id);
      CompareTextAntisymmetric(last.id, best.id);
      CompareTextAntisymmetric(c.id, last.id);
      CompareTextAntisymmetric(c.id, best.id);
      if c in front {
        FastestIsLeast(front, c);
        if CompareText(last.id, best.id) <= 0 && CompareText(c.id, last.id) <= 0 {
          CompareTextTransitive(c.id, last.id, best.id);
        }
      } else {
        assert candidates == front + [last];
      }
    }
  }

  lemma QuickerMeans(a: Candidate, b: Candidate)
    ensures Quicker(a, b) <==> a.live < b.live || (a.live == b.live && TextBefore(a.id, b.id))
    ensures !Quicker(a, b) <==> b.live < a.live || (a.live == b.live && (a.id == b.id || TextBefore(b.id, a.id)))
  {
    CompareTextMeans(a.id, b.id);
    CompareTextMeans(b.id, a.id);
    CompareTextAntisymmetric(a.id, b.id);
  }

  /** In terms of the fields: least by duration, ties by identifier. */
  lemma FastestIsQuickest(candidates: seq<Candidate>, c: Candidate)
    requires c in candidates
    ensures var f := FastestOf(candidates);
            f.live < c.live || (f.live == c.live && (f.id == c.id || TextBefore(f.id, c.id)))
  {
    FastestIsLeast(candidates, c);
    QuickerMeans(c, FastestOf(candidates));
  }

  lemma {:induction false} FastestForgetsOrder(a: seq<Candidate>, b: seq<Candidate>)
    requires a != [] && multiset(a) == multiset(b) && DistinctIds(a)
    ensures b != [] && FastestOf(a) == FastestOf(b)
  {
    assert |multiset(a)| == |multiset(b)|;
    var x, y := FastestOf(a), FastestOf(b);
    assert x in multiset(b) && y in multiset(a);
    FastestIsLeast(a, y);
    FastestIsLeast(b, x);
    CompareTextAntisymmetric(x.id, y.id);
    DistinctIdsByMembership(a);
  }

  lemma {:induction false} AcceptedCount(s: seq<Candidate>, rules: Rules, c: Candidate)
    ensures multiset(Accepted(s, rules))[c] == if rules.Accepts(c) then multiset(s)[c] else 0
  {
    if s != [] {
      AcceptedCount(s[..|s| - 1], rules, c);
      assert s == s[..|s| - 1] + [s[|s| - 1]];
    }
  }

  lemma {:induction false} ShownCount(s: seq<Candidate>, rules: Rules, c: Candidate)
    ensures multiset(Shown(s, rules))[c] == if rules.Shows(c) then multiset(s)[c] else 0
  {
    if s != [] {
      ShownCount(s[..|s| - 1], rules, c);
      assert s == s[..|s| - 1] + [s[|s| - 1]];
    }
  }

  lemma AcceptedMember(s: seq<Candidate>, rules: Rules, c: Candidate)
    ensures c in Accepted(s, rules) <==> c in s && rules.Accepts(c)
  {
    AcceptedCount(s, rules, c);
    assert c in s <==> c in multiset(s);
    assert c in Accepted(s, rules) <==> c in multiset(Accepted(s, rules));
  }

  lemma ShownMember(s: seq<Candidate>, rules: Rules, c: Candidate)
    ensures c in Shown(s, rules) <==> c in s && rules.Shows(c)
  {
    ShownCount(s, rules, c);
    assert c in s <==> c in multiset(s);
    assert c in Shown(s, rules) <==> c in multiset(Shown(s, rules));
  }

  lemma {:induction false} ScreeningForgetsOrder(a: seq<Candidate>, b: seq<Candidate>, rules: Rules)
    requires multiset(a) == multiset(b)
    ensures multiset(Accepted(a, rules)) == multiset(Accepted(b, rules))
    ensures multiset(Shown(a, rules)) == multiset(Shown(b, rules))
  {
    forall c: Candidate
      ensures multiset(Accepted(a, rules))[c] == multiset(Accepted(b, rules))[c]
      ensures multiset(Shown(a, rules))[c] == multiset(Shown(b, rules))[c]
    {
      AcceptedCount(a, rules, c);
      AcceptedCount(b, rules, c);
      ShownCount(a, rules, c);
      ShownCount(b, rules, c);
    }
  }

  ghost predicate Rejects(s: seq<Candidate>, rules: Rules, id: string) {
    exists c :: c in s && c.id == id && !rules.Accepts(c)
  }

  lemma {:induction false} RejectionsByMembership(s: seq<Candidate>, rules: Rules)
    requires DistinctIds(s)
    ensures var r := Rejections(s, rules);
            && (forall id :: id in r <==> Rejects(s, rules, id))
            && (forall c :: c in s && !rules.Accepts(c) ==> c.id in r && r[c.id] == rules.violations(c))
  {
    if s != [] {
      var front, last := s[..|s| - 1], s[|s| - 1];
      assert s == front + [last];
      RejectionsByMembership(front, rules);
      forall id
        ensures Rejects(s, rules, id) <==> Rejects(front, rules, id) || (last.id == id && !rules.Accepts(last))
      {
      }
    }
  }

  lemma RejectionsForgetOrder(a: seq<Candidate>, b: seq<Candidate>, rules: Rules)
    requires DistinctIds(a) && DistinctIds(b) && multiset(a) == multiset(b)
    ensures Rejections(a, rules) == Rejections(b, rules)
  {
    RejectionsByMembership(a, rules);
    RejectionsByMembership(b, rules);
    assert forall c :: c in a <==> c in multiset(a);
    assert forall c :: c in b <==> c in multiset(b);
    assert forall id :: Rejects(a, rules, id) <==> Rejects(b, rules, id);
  }

  lemma DistinctIdsForgetOrder(a: seq<Candidate>, b: seq<Candidate>)
    requires DistinctIds(a) && multiset(a) == multiset(b)
    ensures DistinctIds(b)
  {
    DistinctIdsByMembership(a);
    forall i, j | 0 <= i < j < |b| ensures b[i].id != b[j].id {
      assert b[i] in multiset(a) && b[j] in multiset(a);
      OccursOnce(a, b[i]);
      RepeatedElement(b, i, j);
    }
  }

  lemma RepeatedElement(s: seq<Candidate>, i: nat, j: nat)
    requires i < j < |s|
    ensures s[i] == s[j] ==> multiset(s)[s[i]] >= 2
  {
    assert s == s[..i] + [s[i]] + s[i + 1..j] + [s[j]] + s[j + 1..];
  }

  lemma {:induction false} OccursOnce(s: seq<Candidate>, c: Candidate)
    requires DistinctIds(s)
    ensures multiset(s)[c] <= 1
  {
    if s != [] {
      var front, last := s[..|s| - 1], s[|s| - 1];
      assert s == front + [last];
      OccursOnce(front, c);
      assert c in front ==> last.id != c.id;
    }
  }

  lemma SortForgetsOrder(a: seq<Candidate>, b: seq<Candidate>, getters: seq<Getter>)
    requires multiset(a) == multiset(b)
    requires forall x, y :: x in a && y in a && x != y ==> x.id != y.id
    ensures StableSort(a, ByTuple(getters)) == StableSort(b, ByTuple(getters))
  {
    TupleOrder(getters);
    StableSortPermutation(a, b, ByTuple(getters));
  }

  lemma ScoredIdsDiffer(kept: seq<Candidate>, score: Candidate -> Candidate)
    requires forall c :: score(c).id == c.id
    requires forall x, y :: x in kept && y in kept && x != y ==> x.id != y.id
    ensures forall x, y :: x in Map(kept, score) && y in Map(kept, score) && x != y ==> x.id != y.id
  {
    var scored := Map(kept, score);
    forall x, y | x in scored && y in scored && x != y ensures x.id != y.id {
      var i :| 0 <= i < |scored| && scored[i] == x;
      var j :| 0 <= j < |scored| && scored[j] == y;
      assert kept[i] in kept && kept[j] in kept && kept[i] != kept[j];
    }
  }

  lemma EligibleForgetsOrder(a: seq<Candidate>, b: seq<Candidate>, rules: Rules)
    requires multiset(Accepted(a, rules)) == multiset(Accepted(b, rules))
    requires forall c :: rules.score(c).id == c.id
    requires forall x, y :: x in a && y in a && x != y ==> x.id != y.id
    ensures StableSort(Map(Accepted(a, rules), rules.score), ByTuple(rules.getters))
         == StableSort(Map(Accepted(b, rules), rules.score), ByTuple(rules.getters))
  {
    forall c ensures c in Accepted(a, rules) ==> c in a {
      AcceptedMember(a, rules, c);
    }
    ScoredIdsDiffer(Accepted(a, rules), rules.score);
    MapForgetsOrder(Accepted(a, rules), Accepted(b, rules), rules.score);
    SortForgetsOrder(Map(Accepted(a, rules), rules.score), Map(Accepted(b, rules), rules.score), rules.getters);
  }

  lemma ShownForgetsOrder(a: seq<Candidate>, b: seq<Candidate>, rules: Rules)
    requires multiset(Shown(a, rules)) == multiset(Shown(b, rules))
    requires forall x, y :: x in a && y in a && x != y ==> x.id != y.id
    ensures StableSort(Shown(a, rules), ByTuple(BEST_EFFORT_GETTERS)) ==
            StableSort(Shown(b, rules), ByTuple(BEST_EFFORT_GETTERS))
  {
    forall c ensures c in Shown(a, rules) ==> c in a {
      ShownMember(a, rules, c);
    }
    SortForgetsOrder(Shown(a, rules), Shown(b, rules), BEST_EFFORT_GETTERS);
  }

  lemma ArrangementForgetsOrder(a: seq<Candidate>, b: seq<Candidate>, rules: Rules)
    requires DistinctIds(a) && multiset(a) == multiset(b)
    requires forall c :: rules.score(c).id == c.id
    ensures Arrange(a, rules) == Arrange(b, rules)
  {
    DistinctIdsForgetOrder(a, b);
    DistinctIdsByMembership(a);
    RejectionsForgetOrder(a, b, rules);
    ScreeningForgetsOrder(a, b, rules);
    ShownForgetsOrder(a, b, rules);
    EligibleForgetsOrder(a, b, rules);
  }

  /** With distinct identifiers, Rank does not depend on the order of the pool. */
  lemma RankForgetsOrder(a: seq<Candidate>, b: seq<Candidate>, request: Request, config: ScoringConfig)
    requires DistinctIds(a) && multiset(a) == multiset(b)
    ensures RankOf(a, request, config) == RankOf(b, request, config)
  {
    assert |multiset(a)| == |multiset(b)|;
    if a != [] {
      FastestForgetsOrder(a, b);
      ArrangementForgetsOrder(a, b, RulesFor(FastestOf(a), request, config));
    }
  }

  /** Without distinct identifiers it may: two equal keys stay in input order. */
  lemma EqualIdsKeepInputOrder(c: Candidate, d: Candidate, getters: seq<Getter>)
    requires c.id == d.id && c != d && forall i :: 0 <= i < |getters| ==> getters[i](c) == getters[i](d)
    ensures StableSort([c, d], ByTuple(getters)) != StableSort([d, c], ByTuple(getters))
  {
    EqualTuples(c, d, getters);
    CompareTupleAntisymmetric(c, d, getters);
    assert Sorted([c, d], ByTuple(getters)) && Sorted([d, c], ByTuple(getters));
    StableSortFixpoint([c, d], ByTuple(getters));
    StableSortFixpoint([d, c], ByTuple(getters));
    assert [c, d][0] != [d, c][0];
  }

  lemma {:induction false} EqualTuples(c: Candidate, d: Candidate, getters: seq<Getter>)
    requires c.id == d.id && forall i :: 0 <= i < |getters| ==> getters[i](c) == getters[i](d)
    ensures CompareTuple(c, d, getters) == 0
  {
    if getters == [] {
      CompareTextAntisymmetric(c.id, d.id);
    } else {
      EqualTuples(c, d, getters[1..]);
    }
  }

  lemma RejectedIsNotAccepted(candidates: seq<Candidate>, rules: Rules, c: Candidate)
    requires DistinctIds(candidates) && c in candidates
    ensures c.id in Rejections(candidates, rules) <==> !rules.Accepts(c)
  {
    RejectionsByMembership(candidates, rules);
    DistinctIdsByMembership(candidates);
  }

  /** Best-effort routes are at most three rejected routes of a STRICT_GREEN search. */
  lemma BestEffortIsRejected(candidates: seq<Candidate>, rules: Rules, c: Candidate)
    ensures |Arrange(candidates, rules).bestEffort| <= 3
    ensures c in Arrange(candidates, rules).bestEffort ==> c in candidates && rules.strict && !rules.Accepts(c)
  {
    var shown := Shown(candidates, rules);
    var sorted := StableSort(shown, ByTuple(BEST_EFFORT_GETTERS));
    if c in Arrange(candidates, rules).bestEffort {
      assert c in sorted;
      assert c in multiset(sorted);
      assert c in multiset(shown);
      ShownMember(candidates, rules, c);
    }
  }

  /**
    Eligible and rejected routes partition the pool: the eligible list is the accepted
    routes, scored and reordered, and every other route is rejected under its identifier.
    */
  lemma ArrangementPartitions(candidates: seq<Candidate>, rules: Rules, c: Candidate)
    ensures multiset(Arrange(candidates, rules).eligible) == multiset(Map(Accepted(candidates, rules), rules.score))
    ensures c in Accepted(candidates, rules) <==> c in candidates && rules.Accepts(c)
    ensures DistinctIds(candidates) && c in candidates ==>
            (c.id in Arrange(candidates, rules).rejected <==> !rules.Accepts(c))
  {
    AcceptedMember(candidates, rules, c);
    if DistinctIds(candidates) && c in candidates {
      RejectedIsNotAccepted(candidates, rules, c);
    }
  }

  /** The selected route is the least eligible route of the mode's order. */
  lemma SelectedIsBest(candidates: seq<Candidate>, rules: Rules, c: Candidate)
    requires c in Arrange(candidates, rules).eligible
    ensures var r := Arrange(candidates, rules);
            r.selected.Some? && CompareTuple(r.selected.value, c, rules.getters) <= 0
  {
    TupleOrder(rules.getters);
    StableSortSorts(Map(Accepted(candidates, rules), rules.score), ByTuple(rules.getters));
    var eligible := Arrange(candidates, rules).eligible;
    var i :| 0 <= i < |eligible| && eligible[i] == c;
    CompareTupleAntisymmetric(eligible[0], c, rules.getters);
  }

  lemma EligibleOrigin(candidates: seq<Candidate>, rules: Rules, c: Candidate) returns (origin: Candidate)
    requires c in Arrange(candidates, rules).eligible
    ensures origin in candidates && rules.Accepts(origin) && c == rules.score(origin)
  {
    var kept := Accepted(candidates, rules);
    var scored := Map(kept, rules.score);
    assert c in multiset(Arrange(candidates, rules).eligible);
    assert c in scored;
    var i :| 0 <= i < |scored| && scored[i] == c;
    origin := kept[i];
    assert origin in kept;
    AcceptedMember(candidates, rules, origin);
  }

  lemma AcceptedIsProvenGreen(candidate: Candidate, fastest: Candidate, request: Request, config: ScoringConfig)
    requires request.mode == StrictGreen && HardConstraintViolations(candidate, fastest, request, config) == []
    ensures ProvenGreen(candidate, config)
  {
    assert StrictGreenViolations(candidate, config) == [];
    StrictGreenIsExact(candidate, config);
  }

  /** STRICT_GREEN fails closed: whatever the pool, every eligible route is proven green. */
  lemma StrictGreenFailsClosed(candidates: seq<Candidate>, request: Request, config: ScoringConfig)
    requires request.mode == StrictGreen
    ensures var r := RankOf(candidates, request, config);
            && (forall c :: c in r.eligible ==> ProvenGreen(c, config))
            && (r.selected.Some? ==> ProvenGreen(r.selected.value, config))
  {
    if candidates != [] {
      var fastest := FastestOf(candidates);
      var rules := RulesFor(fastest, request, config);
      var r := RankOf(candidates, request, config);
      forall c | c in r.eligible ensures ProvenGreen(c, config) {
        var origin := EligibleOrigin(candidates, rules, c);
        AcceptedIsProvenGreen(origin, fastest, request, config);
        assert c.segments == origin.segments;
      }
    }
  }
}
