/** Values shared by the routing services: routes, segments, requests and scoring settings. */
module Domain {

  datatype Option<+T> = None | Some(value: T)

  datatype GeoPoint = GeoPoint(latitude: real, longitude: real)

  datatype RoutingMode = Fastest | Balanced | Greenest | StrictGreen

  /** Unrecognized stands for every other text a provider may send. */
  datatype CongestionClass = Green | Yellow | Orange | Red | Unknown | Unrecognized

  datatype ConfidenceLevel = High | Medium | Low

  datatype Confidence = Confidence(level: ConfidenceLevel, score: real)

  /** Unspecified is the empty text of candidates created before the field existed. */
  datatype TrafficDataType = Realtime | Forecast | Baseline | Synthetic | UnknownData | Unspecified

  /** Only 2GIS traffic colours are kept as evidence; every other source is reclassified. */
  datatype SegmentSource = DgisTrafficColor | OtherSource

  datatype Segment = Segment(
    geometry: seq<GeoPoint>,
    distance: int,
    live: int,
    baseline: int,
    ratio: real,
    congestion: CongestionClass,
    confidence: Confidence,
    similarity: real,
    source: SegmentSource)

  datatype Metrics = Metrics(
    greenDistance: int, yellowDistance: int, orangeDistance: int, redDistance: int, unknownDistance: int,
    greenDuration: int, yellowDuration: int, orangeDuration: int, redDuration: int, unknownDuration: int,
    totalDelay: int,
    congestedDistancePercent: real, congestedDurationPercent: real, greenDistancePercent: real,
    worstContinuousCongestion: int)

  const NO_METRICS := Metrics(0, 0, 0, 0, 0, 0, 0, 0, 0, 0, 0, 0.0, 0.0, 0.0, 0)

  datatype Candidate = Candidate(
    id: string,
    dataType: TrafficDataType,
    geometry: seq<GeoPoint>,
    distance: int,
    live: int,
    baseline: int,
    delay: int,
    segments: seq<Segment>,
    blocked: bool,
    tolls: bool,
    unpaved: bool,
    confidence: Confidence,
    score: real,
    metrics: Metrics)

  datatype Request = Request(
    origin: GeoPoint,
    destination: GeoPoint,
    waypoints: seq<GeoPoint>,
    mode: RoutingMode,
    maxExtraDistance: int,
    maxExtraDistancePercent: real,
    maxExtraTime: int,
    avoidTolls: bool,
    avoidUnpaved: bool,
    strictness: real)

  datatype ScoringConfig = ScoringConfig(
    greenMaxTrafficRatio: real, yellowMaxTrafficRatio: real, orangeMaxTrafficRatio: real,
    minimumGeometrySimilarity: real, minimumRouteConfidence: real,
    unknownHighConfidenceMaxPercent: real, unknownMediumConfidenceMaxPercent: real,
    balancedTrafficWeight: real, balancedEtaWeight: real, balancedDistanceWeight: real,
    balancedUncertaintyWeight: real, balancedTollWeight: real, greenestExtraTimePenalty: real)

  const DEFAULT_SCORING := ScoringConfig(1.15, 1.35, 1.65, 0.72, 0.35, 5.0, 25.0, 0.40, 0.25, 0.15, 0.15, 0.05, 0.15)

  function Max(a: int, b: int): int { if a > b then a else b }

  function Min(a: int, b: int): int { if a < b then a else b }

  function RealMin(a: real, b: real): real { if a < b then a else b }

  function RealMax(a: real, b: real): real { if a > b then a else b }

  function Clamp01(x: real): real { RealMax(0.0, RealMin(1.0, x)) }

  /** Nearest integer, halves away from zero. */
  function Nearest(x: real): int {
    if x >= 0.0 then (x + 0.5).Floor else -((-x + 0.5).Floor)
  }

  /** Decimal rounding with a power-of-ten factor. */
  function Round(x: real, factor: real): real
    requires factor > 0.0
  {
    Nearest(x * factor) as real / factor
  }

  /** Rounding moves a number by at most half a unit, and a half away from zero. */
  lemma NearestIsNear(x: real)
    ensures -1.0 <= 2.0 * (Nearest(x) as real - x) <= 1.0
    ensures x >= 0.0 ==> Nearest(x) >= 0 && 2.0 * (Nearest(x) as real - x) > -1.0
    ensures x <= 0.0 ==> Nearest(x) <= 0 && 2.0 * (Nearest(x) as real - x) < 1.0
  {
  }

  lemma RoundIsNear(x: real, factor: real)
    requires factor > 0.0
    ensures -1.0 <= 2.0 * factor * (Round(x, factor) - x) <= 1.0
  {
    NearestIsNear(x * factor);
    var n := Nearest(x * factor) as real;
    assert factor * (n / factor) == n;
    assert factor * (Round(x, factor) - x) == n - x * factor;
  }

  lemma RoundRises(x: real, y: real, factor: real)
    requires factor > 0.0 && x <= y
    ensures Round(x, factor) <= Round(y, factor)
  {
    assert (y - x) * factor == y * factor - x * factor >= 0.0;
    NearestRises(x * factor, y * factor);
    Divided(Nearest(x * factor), Nearest(y * factor), factor);
  }

  lemma NearestRises(x: real, y: real)
    requires x <= y
    ensures Nearest(x) <= Nearest(y)
  {
  }

  lemma Divided(a: int, b: int, factor: real)
    requires factor > 0.0 && a <= b
    ensures a as real / factor <= b as real / factor
  {
  }

  /** The percentage that value makes of total, to three decimals. */
  function Percent(value: int, total: int): real {
    if total <= 0 || value <= 0 then 0.0 else Round(value as real / total as real * 100.0, 1000.0)
  }

  /** It is that percentage up to half a thousandth. */
  lemma PercentIsShare(value: int, total: int)
    ensures value > 0 && total > 0 ==>
              -0.0005 * total as real <= Percent(value, total) * total as real - 100.0 * value as real
              <= 0.0005 * total as real
    ensures value <= 0 || total <= 0 ==> Percent(value, total) == 0.0
  {
    if value > 0 && total > 0 {
      var share := value as real / total as real * 100.0;
      RoundIsNear(share, 1000.0);
      ShareOf(value as real, total as real);
      Scaled(Percent(value, total), share, value as real, total as real);
    }
  }

  lemma ProductIsNonNegative(a: real, b: real)
    requires a >= 0.0 && b >= 0.0
    ensures a * b >= 0.0
  {
  }

  lemma ShareOf(value: real, total: real)
    requires total > 0.0
    ensures value / total * 100.0 * total == 100.0 * value
  {
    var share := value / total;
    assert share * total == value;
    assert share * 100.0 * total == 100.0 * (share * total);
  }

  lemma Scaled(percent: real, share: real, value: real, total: real)
    requires -0.0005 <= percent - share <= 0.0005 && total > 0.0 && share * total == 100.0 * value
    ensures -0.0005 * total <= percent * total - 100.0 * value <= 0.0005 * total
  {
    var d := percent - share;
    assert d * total == percent * total - share * total;
    ProductIsNonNegative(0.0005 - d, total);
    ProductIsNonNegative(d + 0.0005, total);
    assert (0.0005 - d) * total == 0.0005 * total - d * total && (d + 0.0005) * total == d * total + 0.0005 * total;
  }

  /** The front of a list, up to a limit. */
  function AtMost<T>(s: seq<T>, limit: nat): seq<T> {
    if |s| > limit then s[..limit] else s
  }
}
