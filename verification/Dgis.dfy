/**
  Normalization of a 2GIS route: integer apportionment of the route totals over its
  coloured geometry parts, and what the orchestrator can conclude from the result.
  */
module Dgis {
  import opened Domain
  import opened Evaluation
  import opened Ranking

  // ---- apportionment

  function Sum(weights: seq<real>): real {
    if weights == [] then 0.0 else weights[0] + Sum(weights[1..])
  }

  function Total(shares: seq<int>): int {
    if shares == [] then 0 else shares[0] + Total(shares[1..])
  }

  ghost predicate Positive(weights: seq<real>) {
    forall i :: 0 <= i < |weights| ==> weights[i] > 0.0
  }

  lemma {:induction false} SumPositive(weights: seq<real>)
    requires Positive(weights)
    ensures Sum(weights) >= 0.0 && (weights != [] ==> Sum(weights) > 0.0)
  {
    if weights != [] {
      SumPositive(weights[1..]);
    }
  }

  /** The exact share of total that weight part deserves of whole. */
  function Quota(total: real, part: real, whole: real): real
    requires whole != 0.0
  {
    total * part / whole
  }

  /** The share a part would get by plain proportional rounding. */
  function Proportional(total: int, weight: real, allWeight: real): int
    requires allWeight != 0.0
  {
    Nearest(Quota(total as real, weight, allWeight))
  }

  /** That share, leaving at least one unit for itself and for every later part. */
  function Share(total: int, weight: real, allWeight: real, later: int): int
    requires allWeight != 0.0
  {
    Max(1, Min(Proportional(total, weight, allWeight), total - later))
  }

  function FirstShare(total: int, weights: seq<real>): int
    requires weights != [] && Sum(weights) != 0.0
  {
    Share(total, weights[0], Sum(weights), |weights| - 1)
  }

  /** Parts are served in order; the last one takes whatever is left. */
  ghost function Shares(total: int, weights: seq<real>): (shares: seq<int>)
    requires weights != [] && Positive(weights)
    ensures |shares| == |weights|
    decreases |weights|
  {
    SumPositive(weights);
    if |weights| == 1 then [total]
    else [FirstShare(total, weights)] + Shares(total - FirstShare(total, weights), weights[1..])
  }

  /** Every part gets at least one unit and nothing is lost. */
  lemma {:induction false} SharesConserve(total: int, weights: seq<real>)
    requires weights != [] && Positive(weights) && total >= |weights|
    ensures Total(Shares(total, weights)) == total
    ensures forall i :: 0 <= i < |weights| ==> Shares(total, weights)[i] >= 1
    decreases |weights|
  {
    SumPositive(weights);
    if |weights| == 1 {
      assert Shares(total, weights)[1..] == [];
    } else {
      var share := FirstShare(total, weights);
      SharesConserve(total - share, weights[1..]);
      assert Shares(total, weights)[1..] == Shares(total - share, weights[1..]);
    }
  }

  method TotalWeight(weights: seq<real>) returns (total: Option<real>)
    ensures total.Some? <==> Positive(weights)
    ensures total.Some? ==> total.value == Sum(weights)
  {
    var sum := 0.0;
    for i := 0 to |weights|
      invariant Positive(weights[..i])
      invariant sum + Sum(weights[i..]) == Sum(weights)
    {
      if weights[i] <= 0.0 {
        return None;
      }
      assert weights[i..][1..] == weights[i + 1..];
      sum := sum + weights[i];
    }
    assert weights[..|weights|] == weights;
    total := Some(sum);
  }

  lemma ServeFirst(total: int, weights: seq<real>, index: nat)
    requires Positive(weights) && index < |weights| - 1
    ensures Sum(weights[index..]) == weights[index] + Sum(weights[index + 1..]) && Sum(weights[index..]) > 0.0
    ensures var share := Share(total, weights[index], Sum(weights[index..]), |weights| - index - 1);
            Shares(total, weights[index..]) == [share] + Shares(total - share, weights[index + 1..])
  {
    SumPositive(weights[index..]);
    assert weights[index..][1..] == weights[index + 1..];
  }

  /** The apportioning loop; it refuses exactly the totals and weights that cannot be served. */
  method AllocateMeasurements(total: int, weights: seq<real>) returns (result: Option<seq<int>>)
    ensures result.Some? <==> weights != [] && total >= |weights| && Positive(weights)
    ensures result.Some? ==> result.value == Shares(total, weights)
  {
    if |weights| == 0 || total < |weights| {
      return None;
    }
    var allWeight := TotalWeight(weights);
    if allWeight.None? {
      return None;
    }
    var remainingTotal, remainingWeight, shares := total, allWeight.value, [];
    var index := 0;
    assert weights[0..] == weights;
    while index < |weights| - 1
      invariant 0 <= index <= |weights| - 1 && |shares| == index
      invariant remainingWeight == Sum(weights[index..])
      invariant shares + Shares(remainingTotal, weights[index..]) == Shares(total, weights)
    {
      ServeFirst(remainingTotal, weights, index);
      var share := Share(remainingTotal, weights[index], remainingWeight, |weights| - index - 1);
      shares := shares + [share];
      remainingTotal := remainingTotal - share;
      remainingWeight := remainingWeight - weights[index];
      index := index + 1;
    }
    result := Some(shares + [remainingTotal]);
  }

  /** No share was changed by the clamp. */
  ghost predicate Unclamped(total: int, weights: seq<real>)
    requires weights != [] && Positive(weights)
    decreases |weights|
  {
    SumPositive(weights);
    |weights| == 1 || (FirstShare(total, weights) == Proportional(total, weights[0], Sum(weights))
                       && Unclamped(total - FirstShare(total, weights), weights[1..]))
  }

  lemma NearestIsClose(x: real)
    ensures -0.5 <= Nearest(x) as real - x <= 0.5
  {
  }

  lemma {:induction false} SumSuffix(weights: seq<real>, k: nat)
    requires Positive(weights) && k <= |weights|
    ensures 0.0 <= Sum(weights[k..]) <= Sum(weights)
  {
    SumPositive(weights[k..]);
    if k > 0 {
      SumSuffix(weights[1..], k - 1);
      assert weights[1..][k - 1..] == weights[k..];
    }
  }

  lemma ScaledDown(x: real, t: real)
    requires 0.0 <= t <= 1.0 && 0.0 <= x
    ensures 0.0 <= x * t <= x
  {
    var rest := 1.0 - t;
    assert x * rest >= 0.0;
    assert x * t + x * rest == x * (t + rest);
  }

  /** A rounding error of at most one half stays so when scaled down. */
  lemma ScaledError(error: real, t: real)
    requires 0.0 <= t <= 1.0 && -0.5 <= error <= 0.5
    ensures -0.5 <= error * t <= 0.5
  {
    if error >= 0.0 {
      ScaledDown(error, t);
    } else {
      ScaledDown(-error, t);
      assert (-error) * t == -(error * t);
    }
  }

  lemma Fraction(part: real, whole: real) returns (t: real)
    requires whole > 0.0 && 0.0 <= part <= whole
    ensures 0.0 <= t <= 1.0 && part == whole * t
  {
    t := part / whole;
  }

  lemma QuotaScales(x: real, whole: real, t: real)
    requires whole > 0.0
    ensures Quota(x, whole * t, whole) == x * t
  {
    assert x * (whole * t) == (x * t) * whole;
  }

  lemma QuotaSplits(total: real, first: real, rest: real)
    requires first + rest > 0.0
    ensures Quota(total, first, first + rest) + Quota(total, rest, first + rest) == total
  {
    var whole := first + rest;
    var x, y := Quota(total, first, whole), Quota(total, rest, whole);
    assert x * whole == total * first && y * whole == total * rest;
    assert (x + y) * whole == total * whole;
  }

  lemma QuotaSlides(total: real, part: real, t: real, whole: real)
    requires whole > 0.0
    ensures Quota(total, part * t, whole) == Quota(total, part, whole) * t
  {
    var x := Quota(total, part, whole);
    assert x * whole == total * part;
    assert (x * t) * whole == total * (part * t);
  }

  lemma ScaledDifference(a: real, b: real, t: real)
    requires 0.0 <= t <= 1.0 && Within(a, b, 0.5)
    ensures Within(a * t, b * t, 0.5)
  {
    assert a * t - b * t == (a - b) * t;
    ScaledError(a - b, t);
  }

  /** Two quantities at most bound apart. */
  ghost predicate Within(x: real, y: real, bound: real) {
    x <= y + bound && y <= x + bound
  }

  /** Serving the first part moves a later part's quota by at most one half. */
  lemma QuotaMoves(total: real, share: real, first: real, w1: real, wk: real)
    requires first > 0.0 && w1 > 0.0 && 0.0 <= wk <= w1
    requires Within(share, Quota(total, first, first + w1), 0.5)
    ensures Within(Quota(total - share, wk, w1), Quota(total, wk, first + w1), 0.5)
  {
    var t := Fraction(wk, w1);
    var ahead := Quota(total, w1, first + w1);
    QuotaSplits(total, first, w1);
    ScaledDifference(total - share, ahead, t);
    QuotaScales(total - share, w1, t);
    QuotaSlides(total, w1, t, first + w1);
  }

  /** Serving one part proportionally adds at most one half to the deviation of the remainder. */
  lemma ErrorGrowth(total: real, share: real, remainder: real, first: real, w1: real, wk: real, w0: real, bound: real)
    requires first > 0.0 && w1 > 0.0 && 0.0 <= wk <= w1 && w0 == first + w1
    requires Within(share, Quota(total, first, w0), 0.5)
    requires Within(remainder, Quota(total - share, wk, w1), bound)
    ensures Within(remainder, Quota(total, wk, w0), bound + 0.5)
  {
    QuotaMoves(total, share, first, w1, wk);
  }

  lemma ServedTotal(total: int, weights: seq<real>, k: nat)
    requires Positive(weights) && 0 < k < |weights|
    ensures Sum(weights) == weights[0] + Sum(weights[1..]) && Sum(weights) > 0.0 && Sum(weights[1..]) > 0.0
    ensures var share := FirstShare(total, weights);
            Total(Shares(total, weights)[..k]) == share + Total(Shares(total - share, weights[1..])[..k - 1])
  {
    SumPositive(weights);
    SumPositive(weights[1..]);
    var shares, share := Shares(total, weights), FirstShare(total, weights);
    var tail := Shares(total - share, weights[1..]);
    assert shares[..k][1..] == tail[..k - 1];
  }

  function Half(k: nat): (h: real)
    ensures h == k as real / 2.0
  {
    if k == 0 then 0.0 else Half(k - 1) + 0.5
  }

  lemma QuotaOfWhole(total: real, whole: real)
    requires whole > 0.0
    ensures Within(total, Quota(total, whole, whole), 0.0)
  {
  }

  /** One part of the induction below. */
  lemma RemainderStep(total: int, share: int, served: int, first: real, w1: real, wk: real, w0: real, bound: real)
    requires first > 0.0 && w1 > 0.0 && 0.0 <= wk <= w1 && w0 == first + w1
    requires share == Proportional(total, first, w0)
    requires Within((total - share - served) as real, Quota((total - share) as real, wk, w1), bound)
    ensures Within((total - (share + served)) as real, Quota(total as real, wk, w0), bound + 0.5)
  {
    NearestIsClose(Quota(total as real, first, w0));
    assert (total - share) as real == total as real - share as real;
    ErrorGrowth(total as real, share as real, (total - share - served) as real, first, w1, wk, w0, bound);
  }

  /** After k parts the remainder is within k/2 of its proportional value. */
  lemma {:induction false} RemainderStaysProportional(total: int, weights: seq<real>, k: nat)
    requires weights != [] && Positive(weights) && Unclamped(total, weights) && k < |weights|
    ensures Sum(weights) > 0.0
    ensures Within((total - Total(Shares(total, weights)[..k])) as real,
                   Quota(total as real, Sum(weights[k..]), Sum(weights)), Half(k))
    decreases k
  {
    SumPositive(weights);
    if k == 0 {
      assert weights[0..] == weights && Shares(total, weights)[..0] == [];
      QuotaOfWhole(total as real, Sum(weights));
    } else {
      var rest, share := weights[1..], FirstShare(total, weights);
      ServedTotal(total, weights, k);
      RemainderStaysProportional(total - share, rest, k - 1);
      assert rest[k - 1..] == weights[k..];
      SumSuffix(rest, k - 1);
      RemainderStep(total, share, Total(Shares(total - share, rest)[..k - 1]),
                    weights[0], Sum(rest), Sum(weights[k..]), Sum(weights), Half(k - 1));
    }
  }

  // ---- the normalized route

  /** A geometry part; its colour is already trimmed and in lower case. */
  datatype Part = Part(geometry: seq<GeoPoint>, weight: real, colour: string)

  /** Marker parts cover no ground and carry no evidence. */
  predicate CoversGround(part: Part) {
    |part.geometry| >= 2 && part.weight > 0.0
  }

  function CoveringParts(parts: seq<Part>): (r: seq<Part>)
    ensures forall i :: 0 <= i < |r| ==> CoversGround(r[i])
  {
    if parts == [] then []
    else CoveringParts(parts[..|parts| - 1]) + if CoversGround(parts[|parts| - 1]) then [parts[|parts| - 1]] else []
  }

  /** Exactly the parts that cover ground stay. */
  lemma {:induction false} CoveringIsExact(parts: seq<Part>, part: Part)
    ensures part in CoveringParts(parts) <==> part in parts && |part.geometry| >= 2 && part.weight > 0.0
  {
    if parts != [] {
      CoveringIsExact(parts[..|parts| - 1], part);
      assert parts == parts[..|parts| - 1] + [parts[|parts| - 1]];
    }
  }

  function ColourClass(colour: string): (c: CongestionClass)
    ensures c != Unrecognized
  {
    if colour == "fast" || colour == "free" then Green
    else if colour == "normal" then Yellow
    else if colour == "fluid" then Orange
    else if colour == "slow" || colour == "slow-jams" then Red
    else Unknown
  }

  function ColourConfidence(colour: string): Confidence {
    if ColourClass(colour) == Unknown then Confidence(Low, 0.25) else Confidence(Medium, 0.7)
  }

  function Weights(parts: seq<Part>): (w: seq<real>)
    ensures |w| == |parts|
    ensures forall i :: 0 <= i < |w| ==> w[i] == parts[i].weight
  {
    seq(|parts|, i requires 0 <= i < |parts| => parts[i].weight)
  }

  /** A traffic segment of the normalized route. */
  function TrafficSegment(part: Part, distance: int, live: int): Segment {
    Segment(part.geometry, distance, live, 0, 0.0, ColourClass(part.colour), ColourConfidence(part.colour), 1.0,
            DgisTrafficColor)
  }

  function BaselineSegment(part: Part, distance: int, duration: int): Segment {
    Segment(part.geometry, distance, 0, duration, 0.0, Unknown, Confidence(Low, 0.5), 1.0, OtherSource)
  }

  /** What a successful traffic normalization yields, stated without its loop. */
  ghost predicate NormalizedTraffic(c: Candidate, parts: seq<Part>, distance: int, duration: int) {
    && parts != [] && |parts| <= distance && |parts| <= duration
    && (forall i :: 0 <= i < |parts| ==> CoversGround(parts[i]))
    && Positive(Weights(parts))
    && (c.dataType == Realtime || c.dataType == Forecast)
    && c.distance == distance && c.live == duration
    && |c.segments| == |parts|
    && forall i :: 0 <= i < |parts| ==>
         c.segments[i] == TrafficSegment(parts[i], Shares(distance, Weights(parts))[i],
                                         Shares(duration, Weights(parts))[i])
  }

  /** What a successful normalization without traffic yields: baselines shared out, and no evidence of traffic. */
  ghost predicate NormalizedBaseline(c: Candidate, parts: seq<Part>, distance: int, duration: int) {
    && parts != [] && |parts| <= distance && |parts| <= duration && Positive(Weights(parts))
    && |c.segments| == |parts|
    && forall i :: 0 <= i < |parts| ==>
         && c.segments[i].geometry == parts[i].geometry && c.segments[i].live == 0
         && c.segments[i].distance == Shares(distance, Weights(parts))[i]
         && c.segments[i].baseline == Shares(duration, Weights(parts))[i]
         && c.segments[i].congestion == Unknown && c.segments[i].confidence == Confidence(Low, 0.5)
         && c.segments[i].ratio == 0.0 && c.segments[i].similarity == 1.0 && c.segments[i].source == OtherSource
  }

  /** The segments and measurements of a route whose parts have been gathered. */
  method AssembleRoute(id: string, traffic: bool, forecast: bool, geometry: seq<GeoPoint>, distance: int, duration: int,
                       rawParts: seq<Part>, tolls: bool) returns (result: Option<Candidate>)
    ensures result.Some? <==>
            && distance > 0 && duration > 0 && |geometry| >= 2 && CoveringParts(rawParts) != []
            && |CoveringParts(rawParts)| <= distance && |CoveringParts(rawParts)| <= duration
    ensures result.Some? ==>
              && var parts := CoveringParts(rawParts);
              && var c := result.value;
              && c.distance == distance && c.geometry == geometry && c.tolls == tolls
              && TotalDistance(c.segments) == distance
              && (traffic ==>
                    c.dataType == (if forecast then Forecast else Realtime) && c.live == duration && c.baseline == 0)
              && (!traffic ==> c.dataType == Baseline && c.baseline == duration && c.live == 0)
              && |c.segments| == |parts|
              && forall i :: 0 <= i < |parts| ==>
                   var d, t := Shares(distance, Weights(parts))[i], Shares(duration, Weights(parts))[i];
                   c.segments[i] == if traffic then TrafficSegment(parts[i], d, t) else BaselineSegment(parts[i], d, t)
    ensures result.Some? && traffic ==> NormalizedTraffic(result.value, CoveringParts(rawParts), distance, duration)
    ensures result.Some? && !traffic ==> NormalizedBaseline(result.value, CoveringParts(rawParts), distance, duration)
  {
    if distance <= 0 || duration <= 0 {
      return None;
    }
    var parts := CoveringParts(rawParts);
    if |geometry| < 2 || |parts| == 0 {
      return None;
    }
    var weights := Weights(parts);
    var distances := AllocateMeasurements(distance, weights);
    if distances.None? {
      return None;
    }
    var durations := AllocateMeasurements(duration, weights);
    if durations.None? {
      return None;
    }
    var segments: seq<Segment> := [];
    for i := 0 to |parts|
      invariant |segments| == i
      invariant forall j :: 0 <= j < i ==>
                              segments[j] ==
                              if traffic then TrafficSegment(parts[j], distances.value[j], durations.value[j])
                              else BaselineSegment(parts[j], distances.value[j], durations.value[j])
    {
      segments := segments + [if traffic then TrafficSegment(parts[i], distances.value[i], durations.value[i])
                              else BaselineSegment(parts[i], distances.value[i], durations.value[i])];
    }
    var dataType := if !traffic then Baseline else if forecast then Forecast else Realtime;
    var confidence := if traffic then Confidence(Medium, 0.65) else Confidence(Low, 0.5);
    result := Some(Candidate(id, dataType, geometry, distance, if traffic then duration else 0,
                             if traffic then 0 else duration, 0, segments, false, tolls, false, confidence, 0.0,
                             NO_METRICS));
    AssembledTotals(result.value, parts, distance, duration, traffic);
  }

  // ---- the provider's response

  const MAX_MANEUVERS := 2000
  const MAX_GEOMETRY_PARTS := 4096
  const MAX_ROUTE_POINTS := 4096
  const MAX_ROUTE_METERS := 10000000.0
  const MAX_ROUTE_SECONDS := 1209600.0

  datatype RawPart = RawPart(selection: string, length: real, colour: string)

  datatype Path = Path(distance: real, duration: real, parts: seq<RawPart>)

  datatype DgisRoute = DgisRoute(
    routeId: string, totalDistance: real, totalDuration: real, reliability: Option<real>, tolls: bool,
    maneuvers: seq<Option<Path>>)      // a maneuver without an outgoing path is None

  /** Parsing a WKT line within a number of points, the length of a line, and trimming and lower-casing a colour. */
  datatype Survey = Survey(
    parse: (string, int) -> Option<seq<GeoPoint>>,
    length: seq<GeoPoint> -> real,
    normalize: string -> string)

  datatype Gathered = Gathered(geometry: seq<GeoPoint>, parts: seq<Part>, partCount: int, pointCount: int)

  /** Appends points without immediate repetition. */
  function AppendDistinct(target: seq<GeoPoint>, points: seq<GeoPoint>): seq<GeoPoint> {
    if points == [] then target
    else
      var line, p := AppendDistinct(target, points[..|points| - 1]), points[|points| - 1];
      if line == [] || line[|line| - 1] != p then line + [p] else line
  }

  /** One geometry part; none when the response is refused over it. */
  function TakePart(g: Gathered, part: RawPart, survey: Survey): Option<Gathered> {
    var line := survey.parse(part.selection, MAX_ROUTE_POINTS - g.pointCount);
    if line.None? || g.pointCount + |line.value| > MAX_ROUTE_POINTS then None
    else
      var weight := if part.length > 0.0 then part.length else survey.length(line.value);
      if weight > MAX_ROUTE_METERS then None
      else Some(g.(geometry := AppendDistinct(g.geometry, line.value), pointCount := g.pointCount + |line.value|,
                parts := g.parts + [Part(line.value, weight, survey.normalize(part.colour))]))
  }

  function TakeParts(g: Gathered, parts: seq<RawPart>, survey: Survey): Option<Gathered> {
    if parts == [] then Some(g)
    else
      var before := TakeParts(g, parts[..|parts| - 1], survey);
      if before.None? then None else TakePart(before.value, parts[|parts| - 1], survey)
  }

  function TakeManeuver(g: Gathered, maneuver: Option<Path>, survey: Survey): Option<Gathered> {
    if maneuver.None? then Some(g)
    else
      var path := maneuver.value;
      if path.distance < 0.0 || path.duration < 0.0 || g.partCount + |path.parts| > MAX_GEOMETRY_PARTS then None
      else TakeParts(g.(partCount := g.partCount + |path.parts|), path.parts, survey)
  }

  function Gather(maneuvers: seq<Option<Path>>, survey: Survey): Option<Gathered> {
    if maneuvers == [] then Some(Gathered([], [], 0, 0))
    else
      var before := Gather(maneuvers[..|maneuvers| - 1], survey);
      if before.None? then None else TakeManeuver(before.value, maneuvers[|maneuvers| - 1], survey)
  }

  /** The colour is the normalized colour of a part of the response. */
  ghost predicate Reported(colour: string, maneuvers: seq<Option<Path>>, survey: Survey) {
    exists m, k :: && 0 <= m < |maneuvers| && maneuvers[m].Some? && 0 <= k < |maneuvers[m].value.parts|
                   && colour == survey.normalize(maneuvers[m].value.parts[k].colour)
  }

  ghost predicate ColouredBy(g: Gathered, before: Gathered, parts: seq<RawPart>, survey: Survey) {
    forall p :: p in g.parts ==>
                  p in before.parts || exists k :: 0 <= k < |parts| && p.colour == survey.normalize(parts[k].colour)
  }

  lemma {:induction false} TakenColours(g: Gathered, parts: seq<RawPart>, survey: Survey)
    requires TakeParts(g, parts, survey).Some?
    ensures ColouredBy(TakeParts(g, parts, survey).value, g, parts, survey)
  {
    if parts != [] {
      var front := parts[..|parts| - 1];
      TakenColours(g, front, survey);
      var before, after := TakeParts(g, front, survey).value, TakeParts(g, parts, survey).value;
      forall p | p in after.parts && p !in g.parts
        ensures exists k :: 0 <= k < |parts| && p.colour == survey.normalize(parts[k].colour)
      {
        if p in before.parts {
          var k :| 0 <= k < |front| && p.colour == survey.normalize(front[k].colour);
          assert parts[k] == front[k];
        } else {
          assert p.colour == survey.normalize(parts[|parts| - 1].colour);
        }
      }
    }
  }

  /** No gathered colour is invented: each is the normalized colour of a part of the response. */
  lemma {:induction false} GatheredColours(maneuvers: seq<Option<Path>>, survey: Survey, p: Part)
    requires Gather(maneuvers, survey).Some? && p in Gather(maneuvers, survey).value.parts
    ensures Reported(p.colour, maneuvers, survey)
  {
    if maneuvers != [] {
      var front, last := maneuvers[..|maneuvers| - 1], maneuvers[|maneuvers| - 1];
      var before := Gather(front, survey).value;
      if p in before.parts {
        GatheredColours(front, survey, p);
        var m, k :| && 0 <= m < |front| && front[m].Some? && 0 <= k < |front[m].value.parts|
                    && p.colour == survey.normalize(front[m].value.parts[k].colour);
        assert maneuvers[m] == front[m];
      } else {
        var path := last.value;
        TakenColours(before.(partCount := before.partCount + |path.parts|), path.parts, survey);
        var k :| 0 <= k < |path.parts| && p.colour == survey.normalize(path.parts[k].colour);
        assert maneuvers[|maneuvers| - 1].value.parts[k] == path.parts[k];
      }
    }
  }

  lemma {:induction false} PartsStayRefused(g: Gathered, parts: seq<RawPart>, survey: Survey, n: nat)
    requires n <= |parts| && TakeParts(g, parts[..n], survey).None?
    ensures TakeParts(g, parts, survey).None?
  {
    if n == |parts| {
      assert parts[..n] == parts;
    } else {
      assert parts[..|parts| - 1][..n] == parts[..n];
      PartsStayRefused(g, parts[..|parts| - 1], survey, n);
    }
  }

  lemma {:induction false} ManeuversStayRefused(maneuvers: seq<Option<Path>>, survey: Survey, n: nat)
    requires n <= |maneuvers| && Gather(maneuvers[..n], survey).None?
    ensures Gather(maneuvers, survey).None?
  {
    if n == |maneuvers| {
      assert maneuvers[..n] == maneuvers;
    } else {
      assert maneuvers[..|maneuvers| - 1][..n] == maneuvers[..n];
      ManeuversStayRefused(maneuvers[..|maneuvers| - 1], survey, n);
    }
  }

  method GatherParts(start: Gathered, parts: seq<RawPart>, survey: Survey) returns (g: Option<Gathered>)
    ensures g == TakeParts(start, parts, survey)
  {
    var state := start;
    for i := 0 to |parts|
      invariant TakeParts(start, parts[..i], survey) == Some(state)
    {
      assert parts[..i + 1][..i] == parts[..i];
      var next := TakePart(state, parts[i], survey);
      if next.None? {
        PartsStayRefused(start, parts, survey, i + 1);
        return None;
      }
      state := next.value;
    }
    assert parts[..|parts|] == parts;
    return Some(state);
  }

  method GatherManeuvers(maneuvers: seq<Option<Path>>, survey: Survey) returns (g: Option<Gathered>)
    ensures g == Gather(maneuvers, survey)
  {
    var state := Gathered([], [], 0, 0);
    for i := 0 to |maneuvers|
      invariant Gather(maneuvers[..i], survey) == Some(state)
    {
      assert maneuvers[..i + 1][..i] == maneuvers[..i];
      if maneuvers[i].Some? {
        var path := maneuvers[i].value;
        var count := state.partCount + |path.parts|;
        if path.distance < 0.0 || path.duration < 0.0 || count > MAX_GEOMETRY_PARTS {
          ManeuversStayRefused(maneuvers, survey, i + 1);
          return None;
        }
        var next := GatherParts(state.(partCount := count), path.parts, survey);
        if next.None? {
          ManeuversStayRefused(maneuvers, survey, i + 1);
          return None;
        }
        state := next.value;
      }
    }
    assert maneuvers[..|maneuvers|] == maneuvers;
    return Some(state);
  }

  /** Totals, reliability, reference and maneuver count are within their limits. */
  predicate Plausible(route: DgisRoute) {
    && 0.0 < route.totalDistance <= MAX_ROUTE_METERS && 0.0 < route.totalDuration <= MAX_ROUTE_SECONDS
    && (route.reliability.Some? ==> 0.0 <= route.reliability.value <= 1.0)
    && 0 < |route.maneuvers| <= MAX_MANEUVERS && |route.routeId| <= 128
  }

  /** The response can be normalized: plausible, gathered, covering ground, consistent and long enough to share out. */
  predicate Normalizable(route: DgisRoute, survey: Survey) {
    && Plausible(route) && Gather(route.maneuvers, survey).Some?
    && var g := Gather(route.maneuvers, survey).value;
    && |g.geometry| >= 2 && CoveringParts(g.parts) != []
    && survey.length(g.geometry) <= route.totalDistance * 2.0 + 5000.0
    && |CoveringParts(g.parts)| <= Nearest(route.totalDistance)
    && |CoveringParts(g.parts)| <= Nearest(route.totalDuration)
  }

  /**
    Normalizes exactly the responses that can be; the measurements are the rounded totals, shared
    out over the parts.
    */
  method NormalizeRoute(id: string, traffic: bool, forecast: bool, route: DgisRoute, survey: Survey)
    returns (result: Option<Candidate>)
    ensures result.Some? <==> Normalizable(route, survey)
    ensures result.Some? ==>
              && var g := Gather(route.maneuvers, survey).value;
              && var c := result.value;
              && c.geometry == g.geometry && c.tolls == route.tolls
              && c.distance == Nearest(route.totalDistance) == TotalDistance(c.segments)
              && (if traffic then c.live else c.baseline) == Nearest(route.totalDuration)
              && (!traffic ==> c.dataType == Baseline && c.live == 0)
    ensures result.Some? && traffic ==>
              NormalizedTraffic(result.value, CoveringParts(Gather(route.maneuvers, survey).value.parts),
                                Nearest(route.totalDistance), Nearest(route.totalDuration))
    ensures result.Some? && !traffic ==>
              NormalizedBaseline(result.value, CoveringParts(Gather(route.maneuvers, survey).value.parts),
                                 Nearest(route.totalDistance), Nearest(route.totalDuration))
  {
    if route.totalDistance <= 0.0 || route.totalDistance > MAX_ROUTE_METERS || route.totalDuration <= 0.0
       || route.totalDuration > MAX_ROUTE_SECONDS {
      return None;
    }
    if route.reliability.Some? && (route.reliability.value < 0.0 || route.reliability.value > 1.0) {
      return None;
    }
    if |route.maneuvers| == 0 || |route.maneuvers| > MAX_MANEUVERS || |route.routeId| > 128 {
      return None;
    }
    var distance, duration := Nearest(route.totalDistance), Nearest(route.totalDuration);
    var g := GatherManeuvers(route.maneuvers, survey);
    if g.None? {
      return None;
    }
    if survey.length(g.value.geometry) > route.totalDistance * 2.0 + 5000.0 {
      return None;
    }
    result := AssembleRoute(id, traffic, forecast, g.value.geometry, distance, duration, g.value.parts, route.tolls);
  }

  lemma AssembledTotals(c: Candidate, parts: seq<Part>, distance: int, duration: int, traffic: bool)
    requires parts != [] && Positive(Weights(parts)) && |parts| <= distance && |parts| <= duration
    requires |c.segments| == |parts|
    requires forall i :: 0 <= i < |parts| ==>
                           var d, t := Shares(distance, Weights(parts))[i], Shares(duration, Weights(parts))[i];
                           c.segments[i] ==
                           if traffic then TrafficSegment(parts[i], d, t) else BaselineSegment(parts[i], d, t)
    ensures TotalDistance(c.segments) == distance
  {
    var weights := Weights(parts);
    SharesConserve(distance, weights);
    SharesConserve(duration, weights);
    var distances, lives := Shares(distance, weights), seq(|parts|, i requires 0 <= i < |parts| => c.segments[i].live);
    forall i | 0 <= i < |c.segments| ensures c.segments[i].distance == distances[i] && c.segments[i].live == lives[i] {
    }
    SegmentTotals(c.segments, distances, lives);
  }

  lemma {:induction false} TotalFromBack(shares: seq<int>)
    requires shares != []
    ensures Total(shares) == Total(shares[..|shares| - 1]) + shares[|shares| - 1]
  {
    if |shares| > 1 {
      TotalFromBack(shares[1..]);
      assert shares[1..][..|shares| - 2] == shares[..|shares| - 1][1..];
    }
  }

  lemma {:induction false} SegmentTotals(segments: seq<Segment>, distances: seq<int>, lives: seq<int>)
    requires |segments| == |distances| == |lives|
    requires forall i :: 0 <= i < |segments| ==> segments[i].distance == distances[i] && segments[i].live == lives[i]
    ensures TotalDistance(segments) == Total(distances) && TotalLive(segments) == Total(lives)
  {
    if segments != [] {
      var n := |segments| - 1;
      SegmentTotals(Front(segments), distances[..n], lives[..n]);
      TotalFromBack(distances);
      TotalFromBack(lives);
    }
  }

  /** Segment measurements of a normalized route are positive and add up exactly. */
  lemma NormalizedIsCovered(c: Candidate, parts: seq<Part>, distance: int, duration: int)
    requires NormalizedTraffic(c, parts, distance, duration)
    ensures forall i :: 0 <= i < |c.segments| ==> c.segments[i].distance >= 1 && c.segments[i].live >= 1
    ensures TotalDistance(c.segments) == distance && TotalLive(c.segments) == duration
  {
    var weights := Weights(parts);
    SharesConserve(distance, weights);
    SharesConserve(duration, weights);
    var distances, lives := Shares(distance, weights), Shares(duration, weights);
    forall i | 0 <= i < |c.segments| ensures c.segments[i].distance == distances[i] && c.segments[i].live == lives[i] {
      assert c.segments[i] == TrafficSegment(parts[i], distances[i], lives[i]);
    }
    SegmentTotals(c.segments, distances, lives);
  }

  // ---- does the orchestrator need a baseline?

  ghost predicate CompleteProviderClasses(c: Candidate) {
    && SomeMeaningful(c.segments)
    && (forall i :: 0 <= i < |c.segments| && Meaningful(c.segments[i]) ==>
          c.segments[i].source == DgisTrafficColor && c.segments[i].congestion != Unrecognized)
    && TotalDistance(Floored(c.segments)) == c.distance && TotalLive(Floored(c.segments)) == c.live
  }

  predicate ProviderClassified(segment: Segment) {
    segment.source == DgisTrafficColor && segment.congestion != Unrecognized
  }

  predicate ClassifiedThroughout(segments: seq<Segment>) {
    segments == [] ||
    (ClassifiedThroughout(Front(segments)) && (Meaningful(Last(segments)) ==> ProviderClassified(Last(segments))))
  }

  lemma {:induction false} ClassifiedThroughoutMeans(segments: seq<Segment>)
    ensures ClassifiedThroughout(segments) <==>
            forall i :: 0 <= i < |segments| && Meaningful(segments[i]) ==> ProviderClassified(segments[i])
  {
    if segments != [] {
      ClassifiedThroughoutMeans(Front(segments));
    }
  }

  function MeaningfulCount(segments: seq<Segment>): nat {
    if segments == [] then 0 else MeaningfulCount(Front(segments)) + if Meaningful(Last(segments)) then 1 else 0
  }

  lemma {:induction false} MeaningfulCountMeans(segments: seq<Segment>)
    ensures MeaningfulCount(segments) > 0 <==> SomeMeaningful(segments)
  {
    if segments != [] {
      MeaningfulCountMeans(Front(segments));
      assert forall i :: 0 <= i < |segments| - 1 ==> segments[i] == Front(segments)[i];
      assert Meaningful(Last(segments)) ==> SomeMeaningful(segments);
    }
  }

  /** What the scan has found in a list of segments. */
  datatype Scan = Scan(meaningful: nat, covered: int, coveredLive: int)

  function ScanOf(segments: seq<Segment>): Scan {
    Scan(MeaningfulCount(segments), TotalDistance(Floored(segments)), TotalLive(Floored(segments)))
  }

  lemma ScanStep(before: seq<Segment>, x: Segment)
    ensures var scan := ScanOf(before);
            ScanOf(before + [x]) ==
            if Meaningful(x) then Scan(scan.meaningful + 1, scan.covered + Max(0, x.distance),
                                       scan.coveredLive + Max(0, x.live))
            else scan
    ensures ClassifiedThroughout(before + [x]) <==>
            ClassifiedThroughout(before) && (Meaningful(x) ==> ProviderClassified(x))
  {
    CoverageStep(before, x);
    assert Front(before + [x]) == before && Last(before + [x]) == x;
  }

  lemma UnclassifiedAt(segments: seq<Segment>, i: nat)
    requires i < |segments| && Meaningful(segments[i]) && !ProviderClassified(segments[i])
    ensures !ClassifiedThroughout(segments)
  {
    ClassifiedThroughoutMeans(segments);
  }

  /** The scan stops at the first meaningful segment without a provider class. */
  method ScanClasses(segments: seq<Segment>) returns (classified: bool, scan: Scan)
    ensures classified <==> ClassifiedThroughout(segments)
    ensures classified ==> scan == ScanOf(segments)
  {
    scan := Scan(0, 0, 0);
    for i := 0 to |segments|
      invariant scan == ScanOf(segments[..i]) && ClassifiedThroughout(segments[..i])
    {
      assert segments[..i + 1] == segments[..i] + [segments[i]];
      ScanStep(segments[..i], segments[i]);
      if Meaningful(segments[i]) {
        scan := Scan(scan.meaningful + 1, scan.covered + Max(0, segments[i].distance),
                     scan.coveredLive + Max(0, segments[i].live));
        if !ProviderClassified(segments[i]) {
          UnclassifiedAt(segments, i);
          return false, scan;
        }
      }
    }
    assert segments[..|segments|] == segments;
    classified := true;
  }

  method HasCompleteProviderTrafficClasses(c: Candidate) returns (complete: bool)
    ensures complete <==> CompleteProviderClasses(c)
  {
    ClassifiedThroughoutMeans(c.segments);
    MeaningfulCountMeans(c.segments);
    if |c.segments| == 0 {
      return false;
    }
    var classified, scan := ScanClasses(c.segments);
    complete := classified && scan.meaningful > 0 && scan.covered == c.distance && scan.coveredLive == c.live;
  }

  /** Every normalized 2GIS traffic route is complete, so evaluating it sends no baseline request. */
  lemma NormalizedNeedsNoBaseline(c: Candidate, parts: seq<Part>, distance: int, duration: int)
    requires NormalizedTraffic(c, parts, distance, duration)
    ensures CompleteProviderClasses(c)
  {
    NormalizedIsCovered(c, parts, distance, duration);
    FlooredIsIdentity(c.segments);
    assert Meaningful(c.segments[0]);
  }

  // ---- STRICT_GREEN on 2GIS routes

  function TrafficEvidence(c: Candidate, geometryAvailable: bool, hasAlternatives: bool): Evidence {
    var dataType := if c.dataType == Unspecified then Synthetic else c.dataType;
    Evidence(geometryAvailable && dataType != UnknownData && dataType != Baseline, dataType, false, 0, 0,
             hasAlternatives)
  }

  lemma {:induction false} SimilarityOfOne(segments: seq<Segment>)
    requires forall i :: 0 <= i < |segments| ==> segments[i].similarity == 1.0 && segments[i].distance >= 1
    ensures WeightedSimilarity(segments) == TotalDistance(segments) as real
  {
    if segments != [] {
      SimilarityOfOne(Front(segments));
    }
  }

  lemma {:induction false} NothingUnknown(segments: seq<Segment>)
    requires forall i :: 0 <= i < |segments| ==> segments[i].congestion == Green
    ensures ClassDistance(segments, Unknown) == 0
  {
    if segments != [] {
      NothingUnknown(Front(segments));
    }
  }

  lemma ColourGrades(evidence: Evidence)
    requires evidence.available && !evidence.ageKnown && evidence.ageSeconds == 0
    ensures !WeakLevel(ProviderClassConfidence(Green, evidence))
    ensures ProviderClassConfidence(Green, evidence).score >= 0.35
  {
  }

  lemma RouteGrade(distance: int, evidence: Evidence)
    requires distance > 0 && evidence.available && !evidence.ageKnown && evidence.ageSeconds == 0
    requires evidence.providerErrors == 0
    ensures !WeakLevel(RouteConfidence(distance, 0, distance as real, evidence, DEFAULT_SCORING))
  {
    assert distance as real / distance as real == 1.0;
  }

  lemma AllFreeIsProvenGreen(c: Candidate, r: Candidate, evidence: Evidence)
    requires (c.dataType == Realtime || c.dataType == Forecast) && c.distance > 0 && c.segments != []
    requires evidence == TrafficEvidence(c, true, evidence.hasAlternatives)
    requires r == Evaluated(c, evidence, DEFAULT_SCORING)
    requires forall i :: 0 <= i < |c.segments| ==>
                           && c.segments[i].source == DgisTrafficColor && c.segments[i].congestion == Green
                           && c.segments[i].distance >= 1 && c.segments[i].live >= 1
    requires TotalDistance(r.segments) == c.distance && TotalLive(r.segments) == c.live
    ensures ProvenGreen(r, DEFAULT_SCORING)
  {
    ColourGrades(evidence);
    forall i | 0 <= i < |r.segments|
      ensures r.segments[i].congestion == Green && !WeakSegment(r.segments[i], DEFAULT_SCORING)
      ensures Meaningful(r.segments[i])
      ensures r.segments[i].similarity == 1.0 && r.segments[i].distance >= 1 && r.segments[i].live >= 1
    {
      assert r.segments[i] == EvaluateSegment(c.segments[i], evidence, DEFAULT_SCORING);
    }
    FlooredIsIdentity(r.segments);
    SimilarityOfOne(r.segments);
    NothingUnknown(r.segments);
    RouteGrade(c.distance, evidence);
    assert r.confidence == RouteConfidence(c.distance, 0, c.distance as real, evidence, DEFAULT_SCORING);
    assert Meaningful(r.segments[0]);
  }

  ghost predicate AllFree(parts: seq<Part>) {
    forall i :: 0 <= i < |parts| ==> parts[i].colour == "fast" || parts[i].colour == "free"
  }

  lemma NotFreeIsNotProvenGreen(c: Candidate, parts: seq<Part>, distance: int, duration: int, evidence: Evidence,
                                config: ScoringConfig)
    requires NormalizedTraffic(c, parts, distance, duration) && !AllFree(parts)
    ensures !AllGreen(EvaluateSegments(c.segments, evidence, config))
  {
    NormalizedIsCovered(c, parts, distance, duration);
    var i :| 0 <= i < |parts| && !(parts[i].colour == "fast" || parts[i].colour == "free");
    var r := EvaluateSegments(c.segments, evidence, config);
    assert r[i] == EvaluateSegment(c.segments[i], evidence, config);
    assert Meaningful(r[i]) && r[i].congestion != Green;
  }

  /** The class and confidence each colour must lead to. */
  predicate Coloured(segment: Segment, colour: string) {
    && (segment.congestion == Green <==> colour in {"fast", "free"})
    && (segment.congestion == Yellow <==> colour == "normal")
    && (segment.congestion == Orange <==> colour == "fluid")
    && (segment.congestion == Red <==> colour in {"slow", "slow-jams"})
    && (segment.congestion == Unknown <==>
        colour !in {"fast", "free", "normal", "fluid", "slow", "slow-jams"})
    && segment.confidence == if segment.congestion == Unknown then Confidence(Low, 0.25) else Confidence(Medium, 0.7)
  }

  /**
    Every segment of a normalized route has the geometry of its part and the class of its
    colour, and evaluation with evidence at hand keeps that class.
    */
  lemma ColoursBecomeClasses(c: Candidate, parts: seq<Part>, distance: int, duration: int, evidence: Evidence,
                             config: ScoringConfig, i: nat)
    requires NormalizedTraffic(c, parts, distance, duration) && i < |parts|
    ensures c.segments[i].geometry == parts[i].geometry && Coloured(c.segments[i], parts[i].colour)
    ensures c.segments[i].source == DgisTrafficColor && c.segments[i].baseline == 0
            && c.segments[i].ratio == 0.0 && c.segments[i].similarity == 1.0
    ensures |Evaluated(c, evidence, config).segments| == |parts|
    ensures Evaluated(c, evidence, config).segments[i].congestion ==
            if evidence.available then c.segments[i].congestion else Unknown
  {
    var r := EvaluateSegments(c.segments, evidence, config);
    assert WithSegments(c) == c.segments;
    assert r[i] == EvaluateSegment(c.segments[i], evidence, config);
  }

  lemma FreeSegments(c: Candidate, parts: seq<Part>, distance: int, duration: int)
    requires NormalizedTraffic(c, parts, distance, duration) && AllFree(parts)
    ensures c.segments != [] && TotalDistance(c.segments) == c.distance > 0 && TotalLive(c.segments) == c.live
    ensures forall i :: 0 <= i < |c.segments| ==>
                          && c.segments[i].source == DgisTrafficColor && c.segments[i].congestion == Green
                          && c.segments[i].distance >= 1 && c.segments[i].live >= 1
  {
    NormalizedIsCovered(c, parts, distance, duration);
    forall i | 0 <= i < |c.segments|
      ensures c.segments[i].source == DgisTrafficColor && c.segments[i].congestion == Green
    {
      assert ColourClass(parts[i].colour) == Green;
    }
  }

  lemma ProvenGreenOnDgis(c: Candidate, parts: seq<Part>, distance: int, duration: int, evidence: Evidence)
    requires NormalizedTraffic(c, parts, distance, duration)
    requires evidence == TrafficEvidence(c, true, evidence.hasAlternatives)
    ensures ProvenGreen(Evaluated(c, evidence, DEFAULT_SCORING), DEFAULT_SCORING) <==> AllFree(parts)
  {
    if AllFree(parts) {
      FreeSegments(c, parts, distance, duration);
      EvaluationKeepsMeasurements(c.segments, evidence, DEFAULT_SCORING);
      AllFreeIsProvenGreen(c, Evaluated(c, evidence, DEFAULT_SCORING), evidence);
    } else {
      NotFreeIsNotProvenGreen(c, parts, distance, duration, evidence, DEFAULT_SCORING);
    }
  }

  /**
    End to end: after apportionment and evaluation, a 2GIS traffic route carries no
    STRICT_GREEN violation exactly when every part was reported fast or free.
    */
  lemma StrictGreenOnDgisIsExact(c: Candidate, parts: seq<Part>, distance: int, duration: int, evidence: Evidence,
                                 r: Candidate)
    requires NormalizedTraffic(c, parts, distance, duration)
    requires evidence == TrafficEvidence(c, true, evidence.hasAlternatives)
    requires r == Evaluated(c, evidence, DEFAULT_SCORING)
    ensures StrictGreenViolations(r, DEFAULT_SCORING) == [] <==> AllFree(parts)
  {
    ProvenGreenOnDgis(c, parts, distance, duration, evidence);
    StrictGreenIsExact(r, DEFAULT_SCORING);
  }
}
