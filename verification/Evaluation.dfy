/**
  Traffic evaluation of one route: per-segment classification and confidence, the
  five-class metrics, and the share of green driving recomputed from segments.
  */
module Evaluation {
  import opened Domain

  datatype Evidence = Evidence(
    available: bool,
    dataType: TrafficDataType,
    ageKnown: bool,
    ageSeconds: int,
    providerErrors: int,
    hasAlternatives: bool)

  // ---- one segment

  function ClassifyTraffic(ratio: real, similarity: real, config: ScoringConfig): CongestionClass {
    if ratio <= 0.0 || similarity < config.minimumGeometrySimilarity then Unknown
    else if ratio < config.greenMaxTrafficRatio then Green
    else if ratio < config.yellowMaxTrafficRatio then Yellow
    else if ratio < config.orangeMaxTrafficRatio then Orange
    else Red
  }

  function Graded(score: real): Confidence {
    var level := if score >= 0.8 then High else if score >= 0.55 then Medium else Low;
    Confidence(level, Round(score, 10000.0))
  }

  function ProviderClassConfidence(congestion: CongestionClass, evidence: Evidence): Confidence {
    if congestion == Unknown || !evidence.available then Graded(0.25)
    else
      var forecast := if evidence.dataType == Forecast then 0.08 else 0.0;
      var age := if evidence.ageSeconds > 900 then 0.15 else if !evidence.ageKnown then 0.05 else 0.0;
      Graded(Clamp01(0.70 - forecast - age))
  }

  /** What a segment's confidence is graded from. */
  function SegmentCertainty(segment: Segment, evidence: Evidence): real {
    var missing := if !evidence.available || segment.baseline <= 0 then 0.55 else 0.0;
    var mismatch := if segment.similarity < 0.9 then (0.9 - Clamp01(segment.similarity)) * 0.65 else 0.0;
    var age := if evidence.ageSeconds > 900 then 0.15
               else if evidence.available && !evidence.ageKnown then 0.05 else 0.0;
    var forecast := if evidence.dataType == Forecast then 0.08 else 0.0;
    Clamp01(1.0 - missing - mismatch - age - forecast)
  }

  function SegmentConfidence(segment: Segment, evidence: Evidence): Confidence {
    Graded(SegmentCertainty(segment, evidence))
  }

  /** The class and confidence of one segment; measurements are never touched. */
  function EvaluateSegment(segment: Segment, evidence: Evidence, config: ScoringConfig): (r: Segment)
    ensures r.congestion != Unrecognized
    ensures r.distance == segment.distance && r.live == segment.live && r.baseline == segment.baseline
  {
    if segment.source == DgisTrafficColor then
      var congestion :=
        if !evidence.available || segment.congestion == Unrecognized then Unknown else segment.congestion;
      segment.(ratio := 0.0, similarity := 1.0, congestion := congestion,
      confidence := ProviderClassConfidence(congestion, evidence))
    else
      var ratio :=
        if segment.baseline > 0 && segment.live > 0 then segment.live as real / segment.baseline as real else 0.0;
      var similarity := if !evidence.available || evidence.dataType == UnknownData then 0.0 else segment.similarity;
      segment.(ratio := ratio, congestion := ClassifyTraffic(ratio, similarity, config),
      confidence := SegmentConfidence(segment, evidence))
  }

  function EvaluateSegments(segments: seq<Segment>, evidence: Evidence, config: ScoringConfig): (r: seq<Segment>)
    ensures |r| == |segments|
    ensures forall i :: 0 <= i < |r| ==> r[i] == EvaluateSegment(segments[i], evidence, config)
  {
    if segments == [] then []
    else
      EvaluateSegments(segments[..|segments| - 1], evidence, config)
      + [EvaluateSegment(segments[|segments| - 1], evidence, config)]
  }

  // ---- sums over segments

  function Last(segments: seq<Segment>): Segment
    requires segments != []
  {
    segments[|segments| - 1]
  }

  function Front(segments: seq<Segment>): seq<Segment>
    requires segments != []
  {
    segments[..|segments| - 1]
  }

  function TotalDistance(segments: seq<Segment>): int {
    if segments == [] then 0 else TotalDistance(Front(segments)) + Last(segments).distance
  }

  function TotalLive(segments: seq<Segment>): int {
    if segments == [] then 0 else TotalLive(Front(segments)) + Last(segments).live
  }

  function ClassDistance(segments: seq<Segment>, kind: CongestionClass): int {
    if segments == [] then 0
    else ClassDistance(Front(segments), kind) + if Last(segments).congestion == kind then Last(segments).distance else 0
  }

  function ClassLive(segments: seq<Segment>, kind: CongestionClass): int {
    if segments == [] then 0
    else ClassLive(Front(segments), kind) + if Last(segments).congestion == kind then Last(segments).live else 0
  }

  function TotalDelay(segments: seq<Segment>): int {
    if segments == [] then 0
    else TotalDelay(Front(segments))
         + if Last(segments).baseline > 0 then Max(0, Last(segments).live - Last(segments).baseline) else 0
  }

  function WeightedSimilarity(segments: seq<Segment>): real {
    if segments == [] then 0.0
    else WeightedSimilarity(Front(segments)) + Last(segments).similarity * (Max(Last(segments).distance, 1) as real)
  }

  predicate Congested(segment: Segment) {
    segment.congestion == Orange || segment.congestion == Red
  }

  /** Length of the congested run that ends the list. */
  function TrailingRun(segments: seq<Segment>): int {
    if segments == [] || !Congested(Last(segments)) then 0
    else TrailingRun(Front(segments)) + Last(segments).distance
  }

  function WorstRun(segments: seq<Segment>): int {
    if segments == [] then 0
    else if Congested(Last(segments)) then Max(WorstRun(Front(segments)), TrailingRun(segments))
    else WorstRun(Front(segments))
  }

  ghost predicate Measured(segments: seq<Segment>) {
    forall i :: 0 <= i < |segments| ==> segments[i].distance >= 0 && segments[i].live >= 0
  }

  ghost predicate Classified(segments: seq<Segment>) {
    forall i :: 0 <= i < |segments| ==> segments[i].congestion != Unrecognized
  }

  /** The five classes partition the segments, so their totals add up. */
  lemma {:induction false} ClassesPartition(segments: seq<Segment>)
    requires Classified(segments)
    ensures ClassDistance(segments, Green) + ClassDistance(segments, Yellow) + ClassDistance(segments, Orange)
            + ClassDistance(segments, Red) + ClassDistance(segments, Unknown) == TotalDistance(segments)
    ensures ClassLive(segments, Green) + ClassLive(segments, Yellow) + ClassLive(segments, Orange)
            + ClassLive(segments, Red) + ClassLive(segments, Unknown) == TotalLive(segments)
  {
    if segments != [] {
      ClassesPartition(Front(segments));
    }
  }

  ghost predicate CongestedRun(segments: seq<Segment>, i: nat, j: nat) {
    i <= j <= |segments| && forall k :: i <= k < j ==> segments[k].congestion == Orange || segments[k].congestion == Red
  }

  lemma {:induction false} TrailingRunBounds(segments: seq<Segment>, i: nat)
    requires Measured(segments) && CongestedRun(segments, i, |segments|)
    ensures TotalDistance(segments[i..]) <= TrailingRun(segments)
  {
    if i < |segments| {
      TrailingRunBounds(Front(segments), i);
      assert Front(segments[i..]) == Front(segments)[i..];
    } else {
      TrailingRunNonNegative(segments);
    }
  }

  lemma {:induction false} TrailingRunNonNegative(segments: seq<Segment>)
    requires Measured(segments)
    ensures TrailingRun(segments) >= 0
  {
    if segments != [] {
      TrailingRunNonNegative(Front(segments));
    }
  }

  lemma {:induction false} TrailingRunAttained(segments: seq<Segment>) returns (i: nat)
    ensures CongestedRun(segments, i, |segments|) && TotalDistance(segments[i..]) == TrailingRun(segments)
  {
    if segments == [] || !Congested(Last(segments)) {
      i := |segments|;
    } else {
      i := TrailingRunAttained(Front(segments));
      assert Front(segments[i..]) == Front(segments)[i..];
    }
  }

  /** No contiguous ORANGE/RED stretch is longer than the reported worst one ... */
  lemma {:induction false} WorstRunBounds(segments: seq<Segment>, i: nat, j: nat)
    requires Measured(segments) && CongestedRun(segments, i, j)
    ensures TotalDistance(segments[i..j]) <= WorstRun(segments)
  {
    if segments != [] {
      assert Measured(Front(segments));
      if j < |segments| {
        assert CongestedRun(Front(segments), i, j);
        WorstRunBounds(Front(segments), i, j);
        assert Front(segments)[i..j] == segments[i..j];
      } else if i < j {
        TrailingRunBounds(segments, i);
        assert segments[i..j] == segments[i..];
      } else {
        WorstRunBounds(Front(segments), 0, 0);
        assert segments[i..j] == Front(segments)[0..0] == [];
      }
    }
  }

  /** ... and the worst one occurs. */
  lemma {:induction false} WorstRunAttained(segments: seq<Segment>) returns (i: nat, j: nat)
    ensures CongestedRun(segments, i, j) && TotalDistance(segments[i..j]) == WorstRun(segments)
  {
    i, j := 0, 0;
    if segments != [] {
      i, j := WorstRunAttained(Front(segments));
      assert Front(segments)[i..j] == segments[i..j];
      if WorstRun(segments) != WorstRun(Front(segments)) {
        i := TrailingRunAttained(segments);
        j := |segments|;
        assert segments[i..j] == segments[i..];
      }
    }
  }

  // ---- the route

  function WithSegments(candidate: Candidate): seq<Segment> {
    if candidate.segments == [] then
      [Segment(candidate.geometry, candidate.distance, candidate.live, candidate.baseline, 0.0, Unrecognized,
               Confidence(Low, 0.0), 1.0, OtherSource)]
    else candidate.segments
  }

  function MetricsOf(segments: seq<Segment>, distance: int, live: int): Metrics {
    var totalDistance, totalLive := TotalDistance(segments), TotalLive(segments);
    var allDistance, allLive := Max(distance, totalDistance), Max(live, totalLive);
    var orangeDistance, redDistance := ClassDistance(segments, Orange), ClassDistance(segments, Red);
    var orangeLive, redLive := ClassLive(segments, Orange), ClassLive(segments, Red);
    Metrics(
      ClassDistance(segments, Green), ClassDistance(segments, Yellow), orangeDistance, redDistance,
      ClassDistance(segments, Unknown) + allDistance - totalDistance,
      ClassLive(segments, Green), ClassLive(segments, Yellow), orangeLive, redLive,
      ClassLive(segments, Unknown) + allLive - totalLive,
      TotalDelay(segments),
      Percent(orangeDistance + redDistance, allDistance),
      Percent(orangeLive + redLive, allLive),
      Percent(ClassDistance(segments, Green), allDistance),
      WorstRun(segments))
  }

  /** What the average similarity to the baseline route speaks against a route. */
  function Mismatch(average: real, config: ScoringConfig): real {
    if average < config.minimumGeometrySimilarity then 0.35
    else if average < 0.9 then (0.9 - average) * 0.5 else 0.0
  }

  /** Everything but unknown stretches that speaks against a route. */
  function Deductions(distance: int, weightedSimilarity: real, evidence: Evidence, config: ScoringConfig): real {
    var unavailable := if !evidence.available then 0.45 else 0.0;
    var mismatch := if distance > 0 then Mismatch(weightedSimilarity / distance as real, config) else 0.0;
    var alone := if !evidence.hasAlternatives then 0.08 else 0.0;
    var errors := if evidence.providerErrors > 0 then RealMin(0.25, evidence.providerErrors as real * 0.08) else 0.0;
    var age :=
      if evidence.ageSeconds > 300 then RealMin(0.2, (evidence.ageSeconds - 300) as real / 3600.0 * 0.2)
      else if evidence.available && !evidence.ageKnown then 0.05 else 0.0;
    var forecast := if evidence.dataType == Forecast then 0.08 else 0.0;
    unavailable + mismatch + alone + errors + age + forecast
  }

  function RouteConfidence(distance: int, unknownDistance: int, weightedSimilarity: real, evidence: Evidence,
                           config: ScoringConfig): Confidence {
    var unknownPercent := Percent(unknownDistance, distance);
    Capped(Graded(Certainty(unknownPercent, Deductions(distance, weightedSimilarity, evidence, config))),
           unknownPercent, config)
  }

  lemma PercentRises(a: int, b: int, total: int)
    requires a <= b
    ensures Percent(a, total) <= Percent(b, total)
  {
    if total > 0 && a > 0 {
      var x, y := a as real / total as real, b as real / total as real;
      assert y - x == (b - a) as real / total as real >= 0.0;
      assert Nearest(x * 100.0 * 1000.0) <= Nearest(y * 100.0 * 1000.0);
    }
  }

  function Standing(level: ConfidenceLevel): int {
    match level case High => 2 case Medium => 1 case Low => 0
  }

  lemma GradedRises(a: real, b: real)
    requires 0.0 <= a <= b
    ensures Graded(a).score <= Graded(b).score && Standing(Graded(a).level) <= Standing(Graded(b).level)
  {
    assert Nearest(a * 10000.0) <= Nearest(b * 10000.0);
  }

  /** What a route's confidence is graded from, for given unknown percentage and other deductions. */
  function Certainty(unknownPercent: real, deductions: real): real {
    Clamp01(1.0 - deductions - if unknownPercent > 0.0 then RealMin(0.5, unknownPercent / 100.0 * 0.65) else 0.0)
  }

  function Capped(graded: Confidence, unknownPercent: real, config: ScoringConfig): Confidence {
    if unknownPercent > config.unknownMediumConfidenceMaxPercent then graded.(level := Low)
    else if unknownPercent > config.unknownHighConfidenceMaxPercent && graded.level == High then
      graded.(level := Medium)
    else graded
  }

  /** More unknown distance never raises the confidence of a route, in score or in level. */
  lemma UnknownNeverRaisesConfidence(distance: int, less: int, more: int, similarity: real, evidence: Evidence,
                                     config: ScoringConfig)
    requires less <= more
    ensures var a := RouteConfidence(distance, more, similarity, evidence, config);
            var b := RouteConfidence(distance, less, similarity, evidence, config);
            a.score <= b.score && Standing(a.level) <= Standing(b.level)
  {
    var p, q, d := Percent(less, distance), Percent(more, distance), Deductions(distance, similarity, evidence, config);
    PercentRises(less, more, distance);
    GradedRises(Certainty(q, d), Certainty(p, d));
  }

  /** What Evaluate computes, as one expression over the evaluated segments. */
  function Evaluated(candidate: Candidate, evidence: Evidence, config: ScoringConfig): Candidate {
    var segments := EvaluateSegments(WithSegments(candidate), evidence, config);
    var metrics := MetricsOf(segments, candidate.distance, candidate.live);
    candidate.(segments := segments, metrics := metrics, delay := metrics.totalDelay,
    baseline := if candidate.baseline <= 0 then Max(0, candidate.live - metrics.totalDelay) else candidate.baseline,
    confidence := RouteConfidence(candidate.distance, metrics.unknownDistance, WeightedSimilarity(segments), evidence,
                                  config))
  }

  datatype Tally = Tally(green: int, yellow: int, orange: int, red: int, unknown: int)

  function Count(tally: Tally, kind: CongestionClass, amount: int): Tally {
    match kind
    case Green => tally.(green := tally.green + amount)
    case Yellow => tally.(yellow := tally.yellow + amount)
    case Orange => tally.(orange := tally.orange + amount)
    case Red => tally.(red := tally.red + amount)
    case Unknown => tally.(unknown := tally.unknown + amount)
    case Unrecognized => tally
  }

  function DistanceTally(segments: seq<Segment>): Tally {
    Tally(ClassDistance(segments, Green), ClassDistance(segments, Yellow), ClassDistance(segments, Orange),
          ClassDistance(segments, Red), ClassDistance(segments, Unknown))
  }

  function LiveTally(segments: seq<Segment>): Tally {
    Tally(ClassLive(segments, Green), ClassLive(segments, Yellow), ClassLive(segments, Orange),
          ClassLive(segments, Red), ClassLive(segments, Unknown))
  }

  /** Everything the evaluation loop accumulates. */
  datatype Totals = Totals(
    distances: Tally, lives: Tally, distance: int, live: int, delay: int,
    weightedSimilarity: real, continuous: int, worst: int)

  function TotalsOf(segments: seq<Segment>): Totals {
    Totals(DistanceTally(segments), LiveTally(segments), TotalDistance(segments), TotalLive(segments),
           TotalDelay(segments),
           WeightedSimilarity(segments), TrailingRun(segments), WorstRun(segments))
  }

  /** The accumulating half of one loop iteration. */
  method AddSegment(totals: Totals, segment: Segment, ghost before: seq<Segment>) returns (t: Totals)
    requires totals == TotalsOf(before)
    ensures t == TotalsOf(before + [segment])
  {
    ghost var after := before + [segment];
    assert Front(after) == before && Last(after) == segment;
    t := totals.(live := totals.live + segment.live, distance := totals.distance + segment.distance,
    weightedSimilarity := totals.weightedSimilarity + segment.similarity * (Max(segment.distance, 1) as real),
    distances := Count(totals.distances, segment.congestion, segment.distance),
    lives := Count(totals.lives, segment.congestion, segment.live));
    if segment.baseline > 0 {
      t := t.(delay := t.delay + Max(0, segment.live - segment.baseline));
    }
    if Congested(segment) {
      t := t.(continuous := t.continuous + segment.distance);
      t := t.(worst := Max(t.worst, t.continuous));
    } else {
      t := t.(continuous := 0);
    }
  }

  /** The closing half: uncovered length is UNKNOWN, then percentages and route confidence. */
  method CloseMetrics(totals: Totals, candidate: Candidate, ghost segments: seq<Segment>) returns (metrics: Metrics)
    requires totals == TotalsOf(segments)
    ensures metrics == MetricsOf(segments, candidate.distance, candidate.live)
  {
    var t := totals;
    if candidate.distance > t.distance {
      t := t.(distances := t.distances.(unknown := t.distances.unknown + candidate.distance - t.distance),
      distance := candidate.distance);
    }
    if candidate.live > t.live {
      t := t.(lives := t.lives.(unknown := t.lives.unknown + candidate.live - t.live), live := candidate.live);
    }
    metrics := Metrics(
      t.distances.green, t.distances.yellow, t.distances.orange, t.distances.red, t.distances.unknown,
      t.lives.green, t.lives.yellow, t.lives.orange, t.lives.red, t.lives.unknown, t.delay,
      if t.distance > 0 then Percent(t.distances.orange + t.distances.red, t.distance) else 0.0,
      if t.live > 0 then Percent(t.lives.orange + t.lives.red, t.live) else 0.0,
      if t.distance > 0 then Percent(t.distances.green, t.distance) else 0.0,
      t.worst);
  }

  /** The evaluation loop: one pass that rewrites segments and accumulates every metric. */
  method AccumulateSegments(input: seq<Segment>, evidence: Evidence, config: ScoringConfig)
    returns (segments: seq<Segment>, totals: Totals)
    ensures segments == EvaluateSegments(input, evidence, config) && totals == TotalsOf(segments)
  {
    segments := input;
    ghost var evaluated := EvaluateSegments(input, evidence, config);
    totals := Totals(Tally(0, 0, 0, 0, 0), Tally(0, 0, 0, 0, 0), 0, 0, 0, 0.0, 0, 0);
    for i := 0 to |input|
      invariant |segments| == |input|
      invariant segments[..i] == evaluated[..i] && segments[i..] == input[i..]
      invariant totals == TotalsOf(evaluated[..i])
    {
      assert segments[i] == segments[i..][0] == input[i];
      var segment := EvaluateSegment(segments[i], evidence, config);
      totals := AddSegment(totals, segment, evaluated[..i]);
      assert evaluated[..i] + [segment] == evaluated[..i + 1];
      segments := segments[i := segment];
    }
    assert segments[..|input|] == segments && evaluated[..|input|] == evaluated;
  }

  method Evaluate(candidate: Candidate, evidence: Evidence, config: ScoringConfig) returns (r: Candidate)
    ensures r == Evaluated(candidate, evidence, config)
  {
    var segments, totals := AccumulateSegments(WithSegments(candidate), evidence, config);
    var metrics := CloseMetrics(totals, candidate, segments);
    r := candidate.(segments := segments, metrics := metrics, delay := metrics.totalDelay);
    if candidate.baseline <= 0 {
      r := r.(baseline := Max(0, candidate.live - metrics.totalDelay));
    }
    r := r.(confidence := RouteConfidence(candidate.distance, metrics.unknownDistance, totals.weightedSimilarity,
                                          evidence, config));
  }

  // ---- what the evaluation guarantees

  function FiveClassDistance(m: Metrics): int {
    m.greenDistance + m.yellowDistance + m.orangeDistance + m.redDistance + m.unknownDistance
  }

  function FiveClassDuration(m: Metrics): int {
    m.greenDuration + m.yellowDuration + m.orangeDuration + m.redDuration + m.unknownDuration
  }

  lemma {:induction false} EvaluationKeepsMeasurements(segments: seq<Segment>, evidence: Evidence,
                                                       config: ScoringConfig)
    ensures TotalDistance(EvaluateSegments(segments, evidence, config)) == TotalDistance(segments)
    ensures TotalLive(EvaluateSegments(segments, evidence, config)) == TotalLive(segments)
  {
    if segments != [] {
      EvaluationKeepsMeasurements(Front(segments), evidence, config);
      assert Front(EvaluateSegments(segments, evidence, config)) == EvaluateSegments(Front(segments), evidence, config);
    }
  }

  /** Conservation: every metre and second of the route, or of its segments if longer, lands in one class. */
  lemma EvidenceIsConserved(candidate: Candidate, evidence: Evidence, config: ScoringConfig)
    ensures var r := Evaluated(candidate, evidence, config);
            && FiveClassDistance(r.metrics) == Max(candidate.distance, TotalDistance(WithSegments(candidate)))
            && FiveClassDuration(r.metrics) == Max(candidate.live, TotalLive(WithSegments(candidate)))
  {
    EvaluationKeepsMeasurements(WithSegments(candidate), evidence, config);
    ClassesPartition(Evaluated(candidate, evidence, config).segments);
  }

  /** The reported worst stretch is the longest contiguous ORANGE/RED run of the evaluated route. */
  lemma WorstStretchIsLongestRun(candidate: Candidate, evidence: Evidence, config: ScoringConfig)
    returns (i: nat, j: nat)
    requires Measured(WithSegments(candidate))
    ensures var r := Evaluated(candidate, evidence, config);
            && CongestedRun(r.segments, i, j)
            && TotalDistance(r.segments[i..j]) == r.metrics.worstContinuousCongestion
            && forall a: nat, b: nat {:trigger CongestedRun(r.segments, a, b)} :: CongestedRun(r.segments, a, b) ==>
                 TotalDistance(r.segments[a..b]) <= r.metrics.worstContinuousCongestion
  {
    var r := Evaluated(candidate, evidence, config);
    i, j := WorstRunAttained(r.segments);
    forall a: nat, b: nat | CongestedRun(r.segments, a, b)
      ensures TotalDistance(r.segments[a..b]) <= r.metrics.worstContinuousCongestion
    {
      WorstRunBounds(r.segments, a, b);
    }
  }

  // ---- green share

  datatype Share = Share(green: int, total: int)

  /** The segments with negative measurements read as zero, as greenShare reads them. */
  function Floored(segments: seq<Segment>): (r: seq<Segment>)
    ensures |r| == |segments|
  {
    if segments == [] then []
    else
      Floored(Front(segments))
      + [Last(segments).(distance := Max(0, Last(segments).distance), live := Max(0, Last(segments).live))]
  }

  lemma {:induction false} FlooredIsIdentity(segments: seq<Segment>)
    requires Measured(segments)
    ensures Floored(segments) == segments
  {
    if segments != [] {
      FlooredIsIdentity(Front(segments));
    }
  }

  lemma CoverageStep(s: seq<Segment>, x: Segment)
    ensures TotalDistance(Floored(s + [x])) == TotalDistance(Floored(s)) + Max(x.distance, 0)
    ensures TotalLive(Floored(s + [x])) == TotalLive(Floored(s)) + Max(x.live, 0)
    ensures ClassDistance(Floored(s + [x]), Green) ==
            ClassDistance(Floored(s), Green) + if x.congestion == Green then Max(x.distance, 0) else 0
    ensures ClassLive(Floored(s + [x]), Green) ==
            ClassLive(Floored(s), Green) + if x.congestion == Green then Max(x.live, 0) else 0
  {
    var t := s + [x];
    assert Front(t) == s && Last(t) == x;
    assert Front(Floored(t)) == Floored(s);
  }

  /** The green and the whole duration and distance of a list of segments. */
  datatype GreenTotals = GreenTotals(live: Share, distance: Share)

  function GreenTotalsOf(segments: seq<Segment>): GreenTotals {
    var s := Floored(segments);
    GreenTotals(Share(ClassLive(s, Green), TotalLive(s)), Share(ClassDistance(s, Green), TotalDistance(s)))
  }

  /** One iteration of greenShare. */
  method AddGreen(t: GreenTotals, segment: Segment, ghost before: seq<Segment>) returns (r: GreenTotals)
    requires t == GreenTotalsOf(before)
    ensures r == GreenTotalsOf(before + [segment])
  {
    CoverageStep(before, segment);
    var live, distance := Max(0, segment.live), Max(0, segment.distance);
    r := GreenTotals(t.live.(total := t.live.total + live), t.distance.(total := t.distance.total + distance));
    if segment.congestion == Green {
      r := GreenTotals(r.live.(green := t.live.green + live), r.distance.(green := t.distance.green + distance));
    }
  }

  /** greenShare's numerator and denominator, by time and by distance. */
  method GreenShare(candidate: Candidate) returns (duration: Share, distance: Share)
    ensures var segments := Floored(candidate.segments);
            && duration == Share(ClassLive(segments, Green), Max(TotalLive(segments), candidate.live))
            && distance == Share(ClassDistance(segments, Green), Max(TotalDistance(segments), candidate.distance))
  {
    var segments := candidate.segments;
    var totals := GreenTotals(Share(0, 0), Share(0, 0));
    for i := 0 to |segments|
      invariant totals == GreenTotalsOf(segments[..i])
    {
      assert segments[..i + 1] == segments[..i] + [segments[i]];
      totals := AddGreen(totals, segments[i], segments[..i]);
    }
    assert segments[..|segments|] == segments;
    duration := totals.live.(total := Max(totals.live.total, candidate.live));
    distance := totals.distance.(total := Max(totals.distance.total, candidate.distance));
  }

  /** greenShare of an evaluated route divides Evaluate's green metrics by Evaluate's five-class total. */
  method GreenShareAgreesWithEvaluate(candidate: Candidate, evidence: Evidence, config: ScoringConfig)
    returns (duration: Share, distance: Share)
    requires Measured(WithSegments(candidate))
    ensures var m := Evaluated(candidate, evidence, config).metrics;
            && duration == Share(m.greenDuration, FiveClassDuration(m))
            && distance == Share(m.greenDistance, FiveClassDistance(m))
  {
    var r := Evaluate(candidate, evidence, config);
    EvidenceIsConserved(candidate, evidence, config);
    EvaluationKeepsMeasurements(WithSegments(candidate), evidence, config);
    FlooredIsIdentity(r.segments);
    duration, distance := GreenShare(r);
  }
}
