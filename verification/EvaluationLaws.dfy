/**
  What an evaluation says of a route in terms of what the provider measured: when a segment
  is green, what lowers confidence, and what the metrics add up.
  */
module EvaluationLaws {
  import opened Domain
  import opened Evaluation

  // ---- the class of a segment

  /** There is something to classify: observed traffic, a baseline, and a baseline route that is similar enough. */
  predicate Comparable(x: Segment, evidence: Evidence, config: ScoringConfig) {
    && x.baseline > 0 && x.live > 0
    && config.minimumGeometrySimilarity <=
       if evidence.available && evidence.dataType != UnknownData then x.similarity else 0.0
  }

  /** The measured duration is below this multiple of the baseline. */
  predicate Below(x: Segment, factor: real) {
    x.live as real < factor * x.baseline as real
  }

  lemma RatioBelow(x: Segment, factor: real)
    requires x.baseline > 0
    ensures x.live as real / x.baseline as real < factor <==> Below(x, factor)
  {
    var ratio := x.live as real / x.baseline as real;
    assert ratio * x.baseline as real == x.live as real;
    if ratio < factor {
      assert (factor - ratio) * x.baseline as real > 0.0;
    } else {
      assert (ratio - factor) * x.baseline as real >= 0.0;
    }
  }

  /** A coloured segment has no ratio; any other keeps its similarity and compares with its baseline. */
  lemma SegmentRatio(x: Segment, evidence: Evidence, config: ScoringConfig)
    ensures var r := EvaluateSegment(x, evidence, config);
            if x.source == DgisTrafficColor then r.ratio == 0.0 && r.similarity == 1.0
            else
              && r.similarity == x.similarity
              && if x.baseline > 0 && x.live > 0 then r.ratio * x.baseline as real == x.live as real else r.ratio == 0.0
  {
  }

  /**
    A segment without a provider colour is classified by how many times its baseline it
    takes, and is UNKNOWN without something to compare; a provider colour is kept as long as
    there is traffic data.
    */
  lemma SegmentClassIsExact(x: Segment, evidence: Evidence, config: ScoringConfig)
    ensures var class' := EvaluateSegment(x, evidence, config).congestion;
            if x.source == DgisTrafficColor then
              class' == if evidence.available && x.congestion != Unrecognized then x.congestion else Unknown
            else
              var green, yellow, orange :=
                Below(x, config.greenMaxTrafficRatio), Below(x, config.yellowMaxTrafficRatio),
                Below(x, config.orangeMaxTrafficRatio);
              && (class' == Unknown <==> !Comparable(x, evidence, config))
              && (class' == Green <==> Comparable(x, evidence, config) && green)
              && (class' == Yellow <==> Comparable(x, evidence, config) && !green && yellow)
              && (class' == Orange <==> Comparable(x, evidence, config) && !green && !yellow && orange)
              && (class' == Red <==> Comparable(x, evidence, config) && !green && !yellow && !orange)
  {
    if x.source != DgisTrafficColor && x.baseline > 0 && x.live > 0 {
      RatioBelow(x, config.greenMaxTrafficRatio);
      RatioBelow(x, config.yellowMaxTrafficRatio);
      RatioBelow(x, config.orangeMaxTrafficRatio);
      assert x.live as real / x.baseline as real > 0.0;
    }
  }

  // ---- confidence

  /** A grade keeps the score to four decimals; its level is decided before rounding. */
  lemma GradeIsExact(score: real)
    ensures Graded(score).level == High <==> score >= 0.8
    ensures Graded(score).level == Low <==> score < 0.55
    ensures -0.00005 <= Graded(score).score - score <= 0.00005
  {
    RoundIsNear(score, 10000.0);
  }

  /** A provider colour is trusted halfway, unless there is none or it is a forecast made from stale data. */
  lemma ProviderColourIsMedium(x: Segment, evidence: Evidence, config: ScoringConfig)
    requires x.source == DgisTrafficColor
    ensures var r := EvaluateSegment(x, evidence, config);
            && r.confidence.level == (if r.congestion == Unknown || (evidence.dataType == Forecast
                                                                     && evidence.ageSeconds > 900) then Low else Medium)
            && (r.congestion == Unknown <==> r.confidence.score == 0.25)
            && r.confidence.score <= 0.7
  {
  }

  /** How well a segment is supported; the first is supported no better than the second. */
  predicate NoBetterSegment(a: Segment, e: Evidence, b: Segment, f: Evidence) {
    && (e.available && a.baseline > 0 ==> f.available && b.baseline > 0) && a.similarity <= b.similarity
    && f.ageKnown && f.ageSeconds <= e.ageSeconds && (f.dataType == Forecast ==> e.dataType == Forecast)
  }

  lemma MismatchFalls(a: real, b: real)
    requires a <= b
    ensures b < 0.9 ==> 0.0 <= (0.9 - Clamp01(b)) * 0.65 <= (0.9 - Clamp01(a)) * 0.65
    ensures a < 0.9 ==> 0.0 <= (0.9 - Clamp01(a)) * 0.65
  {
  }

  /** Weaker support never raises the confidence of a segment. */
  lemma WeakerSegmentIsNoSurer(a: Segment, e: Evidence, b: Segment, f: Evidence)
    requires NoBetterSegment(a, e, b, f)
    ensures var weak, strong := SegmentConfidence(a, e), SegmentConfidence(b, f);
            weak.score <= strong.score && Standing(weak.level) <= Standing(strong.level)
  {
    MismatchFalls(a.similarity, b.similarity);
    GradedRises(SegmentCertainty(a, e), SegmentCertainty(b, f));
  }

  predicate Fresh(e: Evidence) {
    e.available && e.ageKnown && e.ageSeconds <= 900 && e.dataType != Forecast
  }

  /** What each lack costs a segment; one that lacks nothing is fully trusted. */
  lemma SegmentDoubtsCost(x: Segment, e: Evidence)
    ensures var c := SegmentConfidence(x, e);
            && (!e.available || x.baseline <= 0 ==> c.level == Low && c.score <= 0.45)
            && (x.similarity < 0.9 ==> c.score <= 1.0 - 0.65 * (0.9 - Clamp01(x.similarity)) + 0.00005)
            && (e.ageSeconds > 900 ==> c.score <= 0.85)
            && (e.available && !e.ageKnown ==> c.score <= 0.95)
            && (e.dataType == Forecast ==> c.score <= 0.92)
            && (Fresh(e) && x.baseline > 0 && x.similarity >= 0.9 ==> c == Confidence(High, 1.0))
  {
    GradeIsExact(SegmentCertainty(x, e));
    GradedRises(SegmentCertainty(x, e), RealMax(SegmentCertainty(x, e), 0.45));
    GradedRises(SegmentCertainty(x, e), RealMax(SegmentCertainty(x, e), 0.85));
    GradedRises(SegmentCertainty(x, e), RealMax(SegmentCertainty(x, e), 0.95));
    GradedRises(SegmentCertainty(x, e), RealMax(SegmentCertainty(x, e), 0.92));
  }

  predicate Near(x: real, y: real) { -0.00005 <= x - y <= 0.00005 }

  /** Each lack, where it is the only one, costs a segment exactly its share. */
  lemma SegmentLackIsExact(x: Segment, e: Evidence)
    requires e.available
    ensures var score, recent := SegmentConfidence(x, e).score, e.ageKnown && e.ageSeconds <= 900;
            && (Fresh(e) && x.similarity >= 0.9 && x.baseline <= 0 ==> score == 0.45)
            && (Fresh(e) && x.baseline > 0 && x.similarity < 0.9 ==>
                  Near(score, 1.0 - 0.65 * (0.9 - Clamp01(x.similarity))))
            && (x.baseline > 0 && x.similarity >= 0.9 && recent && e.dataType == Forecast ==> score == 0.92)
            && (x.baseline > 0 && x.similarity >= 0.9 && e.dataType != Forecast && e.ageSeconds > 900 ==> score == 0.85)
            && (x.baseline > 0 && x.similarity >= 0.9 && e.dataType != Forecast && e.ageSeconds <= 900
                ==> e.ageKnown || score == 0.95)
  {
    GradeIsExact(SegmentCertainty(x, e));
  }

  /** The evidence of one route is no better than that of another. */
  predicate NoBetter(e: Evidence, f: Evidence) {
    && (e.available ==> f.available) && f.ageKnown && f.ageSeconds <= e.ageSeconds
    && f.providerErrors <= e.providerErrors && (e.hasAlternatives ==> f.hasAlternatives)
    && (f.dataType == Forecast ==> e.dataType == Forecast)
  }

  /** A route more like its baseline is never charged more if and only if the minimum similarity is at least 0.2. */
  lemma MismatchFallsIsExact(config: ScoringConfig)
    ensures (forall a, b :: a <= b ==> Mismatch(b, config) <= Mismatch(a, config)) <==>
            config.minimumGeometrySimilarity >= 0.2
  {
    var least := config.minimumGeometrySimilarity;
    if least < 0.2 {
      assert Mismatch(least, config) > 0.35 && Mismatch(least - 1.0, config) == 0.35;
      assert least - 1.0 <= least;
    }
  }

  lemma AverageRises(distance: int, a: real, b: real)
    requires distance > 0 && a <= b
    ensures a / distance as real <= b / distance as real
  {
    var x, y := a / distance as real, b / distance as real;
    assert x * distance as real == a && y * distance as real == b;
  }

  lemma DeductionsFall(distance: int, a: real, b: real, e: Evidence, f: Evidence, config: ScoringConfig)
    requires a <= b && NoBetter(e, f) && config.minimumGeometrySimilarity >= 0.2
    ensures Deductions(distance, b, f, config) <= Deductions(distance, a, e, config)
  {
    MismatchFallsIsExact(config);
    if distance > 0 {
      AverageRises(distance, a, b);
      assert Mismatch(b / distance as real, config) <= Mismatch(a / distance as real, config);
    }
  }

  /** Weaker evidence, less similarity and more unknown distance never raise the confidence of a route. */
  lemma WeakerRouteIsNoSurer(distance: int, less: int, more: int, a: real, b: real, e: Evidence, f: Evidence,
                             config: ScoringConfig)
    requires less <= more && a <= b && NoBetter(e, f) && config.minimumGeometrySimilarity >= 0.2
    ensures var weak := RouteConfidence(distance, more, a, e, config);
            var strong := RouteConfidence(distance, less, b, f, config);
            weak.score <= strong.score && Standing(weak.level) <= Standing(strong.level)
  {
    var p, q := Percent(less, distance), Percent(more, distance);
    PercentRises(less, more, distance);
    DeductionsFall(distance, a, b, e, f, config);
    GradedRises(Certainty(q, Deductions(distance, a, e, config)), Certainty(p, Deductions(distance, b, f, config)));
  }

  /** Nothing that speaks against a route goes unnoticed: each lack costs at least its share. */
  lemma RouteDoubtsCost(distance: int, unknown: int, similarity: real, e: Evidence, config: ScoringConfig)
    ensures var d := Deductions(distance, similarity, e, config);
            && d >= 0.0 && (!e.available ==> d >= 0.45) && (!e.hasAlternatives ==> d >= 0.08)
            && (e.dataType == Forecast ==> d >= 0.08)
            && (e.available && !e.ageKnown && e.ageSeconds <= 300 ==> d >= 0.05)
            && (e.providerErrors > 0 ==> d >= RealMin(0.25, 0.08 * e.providerErrors as real))
            && (e.ageSeconds > 300 ==> d >= RealMin(0.2, (e.ageSeconds - 300) as real / 18000.0))
            && (distance > 0 && similarity < config.minimumGeometrySimilarity * distance as real ==> d >= 0.35)
    ensures var c := RouteConfidence(distance, unknown, similarity, e, config);
            var p := Percent(unknown, distance);
            && c.score <= RealMax(0.0, 1.0 - Deductions(distance, similarity, e, config)) + 0.00005
            && c.score <= RealMax(0.5, 1.0 - 0.0065 * p) + 0.00005
            && (p > config.unknownMediumConfidenceMaxPercent ==> c.level == Low)
            && (p > config.unknownHighConfidenceMaxPercent ==> c.level != High)
  {
    var d, p := Deductions(distance, similarity, e, config), Percent(unknown, distance);
    GradeIsExact(Certainty(p, d));
    PercentIsShare(unknown, distance);
    if distance > 0 && similarity < config.minimumGeometrySimilarity * distance as real {
      DissimilarAverage(similarity, distance, config.minimumGeometrySimilarity);
    }
  }

  lemma DissimilarAverage(similarity: real, distance: int, least: real)
    requires distance > 0 && similarity < least * distance as real
    ensures similarity / distance as real < least
  {
    var average := similarity / distance as real;
    assert average * distance as real == similarity;
    assert (average - least) * distance as real < 0.0;
  }

  /** What speaks against a route adds up, each with its own share, whatever else does. */
  lemma DeductionsAdd(distance: int, similarity: real, e: Evidence, config: ScoringConfig)
    ensures var d := Deductions(distance, similarity, e, config);
            var errors := if e.providerErrors > 0 then RealMin(0.25, 0.08 * e.providerErrors as real) else 0.0;
            && d == Deductions(distance, similarity, e.(hasAlternatives := true), config)
                    + (if e.hasAlternatives then 0.0 else 0.08)
            && d == Deductions(distance, similarity, e.(providerErrors := 0), config) + errors
            && d == Deductions(distance, similarity, e.(dataType := Realtime), config)
                    + (if e.dataType == Forecast then 0.08 else 0.0)
            && (e.ageKnown ==> d == Deductions(distance, similarity, e.(available := true), config)
                                    + (if e.available then 0.0 else 0.45))
  {
  }

  /** Data older than five minutes costs up to 0.2 over the next hour, and data of unknown age 0.05. */
  lemma AgeAdds(distance: int, similarity: real, e: Evidence, config: ScoringConfig)
    ensures var d := Deductions(distance, similarity, e, config);
            var current := Deductions(distance, similarity, e.(ageKnown := true, ageSeconds := 0), config);
            if e.ageSeconds > 300 then d == current + RealMin(0.2, (e.ageSeconds - 300) as real / 3600.0 * 0.2)
            else d == current + if e.available && !e.ageKnown then 0.05 else 0.0
  {
  }

  /** A similarity below the minimum costs 0.35, one below 0.9 half of what it lacks. */
  lemma MismatchIsExact(distance: int, similarity: real, e: Evidence, config: ScoringConfig)
    requires distance > 0
    ensures var average := similarity / distance as real;
            Deductions(distance, similarity, e, config) - Deductions(0, similarity, e, config) ==
            if average < config.minimumGeometrySimilarity then 0.35
            else if average < 0.9 then (0.9 - average) / 2.0 else 0.0
  {
  }

  /** The confidence of a route is what all this and its unknown distance leave, to four decimals. */
  lemma RouteScoreIsExact(distance: int, unknown: int, similarity: real, e: Evidence, config: ScoringConfig)
    ensures var p, d := Percent(unknown, distance), Deductions(distance, similarity, e, config);
            Near(RouteConfidence(distance, unknown, similarity, e, config).score,
                 Clamp01(1.0 - d - RealMin(0.5, 0.0065 * p)))
  {
    PercentIsShare(unknown, distance);
    PercentRises(Min(0, unknown), unknown, distance);
    GradeIsExact(Certainty(Percent(unknown, distance), Deductions(distance, similarity, e, config)));
  }

  /** A route nothing speaks against is fully trusted. */
  lemma NoDoubtIsCertain(distance: int, unknown: int, similarity: real, e: Evidence, config: ScoringConfig)
    requires e.available && e.ageKnown && e.ageSeconds <= 300 && e.hasAlternatives && e.providerErrors <= 0
    requires e.dataType != Forecast && distance > 0 && unknown <= 0
    requires similarity >= 0.9 * distance as real && config.minimumGeometrySimilarity <= 0.9
    requires config.unknownMediumConfidenceMaxPercent >= 0.0 && config.unknownHighConfidenceMaxPercent >= 0.0
    ensures RouteConfidence(distance, unknown, similarity, e, config) == Confidence(High, 1.0)
  {
    var average := similarity / distance as real;
    assert average * distance as real == similarity;
    AverageRises(distance, 0.9 * distance as real, similarity);
    assert 0.9 * distance as real / distance as real == 0.9;
    GradeIsExact(1.0);
  }

  // ---- the metrics

  /** The percentage of a whole, up to half a thousandth; zero where there is nothing of it. */
  predicate IsPercent(percent: real, value: int, total: int) {
    if value <= 0 || total <= 0 then percent == 0.0
    else -0.0005 * total as real <= percent * total as real - 100.0 * value as real <= 0.0005 * total as real
  }

  /** A route without segments is evaluated as one segment with its own measurements and no provider colour. */
  lemma SegmentlessRoute(candidate: Candidate, evidence: Evidence, config: ScoringConfig)
    requires candidate.segments == []
    ensures var s := Evaluated(candidate, evidence, config).segments;
            && |s| == 1 && s[0].geometry == candidate.geometry && s[0].distance == candidate.distance
            && s[0].live == candidate.live && s[0].baseline == candidate.baseline
            && s[0].similarity == 1.0 && s[0].source == OtherSource
  {
    assert EvaluateSegments(WithSegments(candidate), evidence, config)[0] ==
           EvaluateSegment(WithSegments(candidate)[0], evidence, config);
  }

  lemma PercentIsPercent(value: int, total: int)
    ensures IsPercent(Percent(value, total), value, total)
  {
    PercentIsShare(value, total);
  }

  /** The metres and seconds of each class are those of its segments; what no segment covers is unknown. */
  lemma MetricsAreClassTotals(candidate: Candidate, evidence: Evidence, config: ScoringConfig)
    ensures var r := Evaluated(candidate, evidence, config);
            var m, s := r.metrics, r.segments;
            && m.greenDistance == ClassDistance(s, Green) && m.greenDuration == ClassLive(s, Green)
            && m.yellowDistance == ClassDistance(s, Yellow) && m.yellowDuration == ClassLive(s, Yellow)
            && m.orangeDistance == ClassDistance(s, Orange) && m.orangeDuration == ClassLive(s, Orange)
            && m.redDistance == ClassDistance(s, Red) && m.redDuration == ClassLive(s, Red)
            && m.unknownDistance == ClassDistance(s, Unknown) + Max(0, candidate.distance - TotalDistance(s))
            && m.unknownDuration == ClassLive(s, Unknown) + Max(0, candidate.live - TotalLive(s))
    ensures var r := Evaluated(candidate, evidence, config);
            && r.delay == r.metrics.totalDelay == TotalDelay(r.segments)
            && r.baseline == (if candidate.baseline > 0 then candidate.baseline else Max(0, candidate.live - r.delay))
            && r.confidence == RouteConfidence(candidate.distance, r.metrics.unknownDistance,
                                               WeightedSimilarity(r.segments), evidence, config)
  {
  }

  lemma MetricPercentages(segments: seq<Segment>, distance: int, live: int)
    requires Classified(segments)
    ensures var m := MetricsOf(segments, distance, live);
            && IsPercent(m.congestedDistancePercent, m.orangeDistance + m.redDistance, FiveClassDistance(m))
            && IsPercent(m.congestedDurationPercent, m.orangeDuration + m.redDuration, FiveClassDuration(m))
            && IsPercent(m.greenDistancePercent, m.greenDistance, FiveClassDistance(m))
  {
    var m := MetricsOf(segments, distance, live);
    ClassesPartition(segments);
    PercentIsPercent(m.orangeDistance + m.redDistance, FiveClassDistance(m));
    PercentIsPercent(m.orangeDuration + m.redDuration, FiveClassDuration(m));
    PercentIsPercent(m.greenDistance, FiveClassDistance(m));
  }

  /** Percentages are of the five-class totals. */
  lemma PercentagesAreShares(candidate: Candidate, evidence: Evidence, config: ScoringConfig)
    ensures var m := Evaluated(candidate, evidence, config).metrics;
            && IsPercent(m.congestedDistancePercent, m.orangeDistance + m.redDistance, FiveClassDistance(m))
            && IsPercent(m.congestedDurationPercent, m.orangeDuration + m.redDuration, FiveClassDuration(m))
            && IsPercent(m.greenDistancePercent, m.greenDistance, FiveClassDistance(m))
  {
    MetricPercentages(EvaluateSegments(WithSegments(candidate), evidence, config), candidate.distance, candidate.live);
  }

  lemma WeightedStep(a: real, sum: real, before: real, value: real, here: real)
    requires a * before <= sum && a <= value && here >= 0.0
    ensures a * (before + here) <= sum + value * here
  {
    ProductIsNonNegative(value - a, here);
    assert (value - a) * here == value * here - a * here;
    assert a * (before + here) == a * before + a * here;
  }

  lemma WeightedStepAbove(b: real, sum: real, before: real, value: real, here: real)
    requires sum <= b * before && value <= b && here >= 0.0
    ensures sum + value * here <= b * (before + here)
  {
    ProductIsNonNegative(b - value, here);
    assert (b - value) * here == b * here - value * here;
    assert b * (before + here) == b * before + b * here;
  }

  /** The similarity of a route is the average over its length: it lies between those of its segments. */
  lemma {:induction false} SimilarityIsAverage(s: seq<Segment>, a: real, b: real)
    requires forall i :: 0 <= i < |s| ==> s[i].distance >= 1 && a <= s[i].similarity <= b
    ensures a * TotalDistance(s) as real <= WeightedSimilarity(s) <= b * TotalDistance(s) as real
  {
    if s == [] {
      assert WeightedSimilarity(s) == 0.0 && TotalDistance(s) as real == 0.0;
    } else {
      var front, last := Front(s), Last(s);
      SimilarityIsAverage(front, a, b);
      var before, here := TotalDistance(front) as real, last.distance as real;
      WeightedStep(a, WeightedSimilarity(front), before, last.similarity, here);
      WeightedStepAbove(b, WeightedSimilarity(front), before, last.similarity, here);
      assert TotalDistance(s) as real == before + here;
      assert WeightedSimilarity(s) == WeightedSimilarity(front) + last.similarity * here;
    }
  }

  function TotalBaseline(segments: seq<Segment>): int {
    if segments == [] then 0 else TotalBaseline(Front(segments)) + Last(segments).baseline
  }

  ghost predicate AllBased(segments: seq<Segment>) {
    forall i :: 0 <= i < |segments| ==> segments[i].baseline > 0
  }

  /**
    The delay is never negative and, where every segment has a baseline, at least the time
    lost in all; it is exactly that when no segment is quicker than its baseline.
    */
  lemma {:induction false} DelayIsTimeLost(s: seq<Segment>)
    ensures TotalDelay(s) >= 0
    ensures AllBased(s) ==> TotalDelay(s) >= TotalLive(s) - TotalBaseline(s)
    ensures AllBased(s) ==>
              (TotalDelay(s) == TotalLive(s) - TotalBaseline(s) <==>
               forall i :: 0 <= i < |s| ==> s[i].live >= s[i].baseline)
  {
    if s != [] {
      var front := Front(s);
      DelayIsTimeLost(front);
      assert forall i :: 0 <= i < |front| ==> front[i] == s[i];
      assert s[|s| - 1] == Last(s);
    }
  }
}
