/**
  Via points of an external directions link: the tolerance bisection over the
  simplified line, the truncation of a line that still does not fit, and the
  nudging of every intermediate point past its turn.
  */
module ExternalLinks {
  import opened Domain
  import opened Polyline

  /** Ground distance in metres; a parameter of every operation here. */
  type Ground = (GeoPoint, GeoPoint) -> real

  const LOW_TOLERANCE := 5.0
  const HIGH_TOLERANCE := 20000.0
  const BISECTION_STEPS: nat := 24
  const VIA_POINT_OFFSET_METERS := 60.0
  const MIN_VIA_SPACING_METERS := 40.0

  predicate Fits(points: seq<GeoPoint>, metric: Metric<GeoPoint>, maximum: int, tolerance: real) {
    |LinkSimplification(points, metric, tolerance)| <= maximum
  }

  /** The bisection predicate is monotone: once a tolerance fits, every larger one does. */
  lemma FitsIsMonotone(points: seq<GeoPoint>, metric: Metric<GeoPoint>, maximum: int, fine: real, coarse: real)
    requires fine <= coarse && Fits(points, metric, maximum, fine)
    ensures Fits(points, metric, maximum, coarse)
  {
    if |points| >= 3 {
      KeptIndicesNested(points, metric, fine, coarse);
    }
  }

  /** Width of the bracket after n halvings. */
  function Width(n: nat): real {
    if n == 0 then HIGH_TOLERANCE - LOW_TOLERANCE else Width(n - 1) / 2.0
  }

  lemma BracketCloses()
    ensures Width(BISECTION_STEPS) <= 1.0
  {
    assert Width(8) == 19995.0 / 256.0;
    assert Width(16) == Width(8) / 256.0;
    assert Width(24) == Width(16) / 256.0;
  }

  /**
    The most detailed simplification that fits, to within one metre of tolerance:
    best is the line at some tolerance high, it fits unless even the coarsest line does
    not, and no tolerance in (5, high - 1] fits.
    */
  method FitTolerance(valid: seq<GeoPoint>, metric: Metric<GeoPoint>, maximum: int)
    returns (best: seq<GeoPoint>, tolerance: real)
    ensures LOW_TOLERANCE <= tolerance <= HIGH_TOLERANCE
    ensures best == LinkSimplification(valid, metric, tolerance)
    ensures |best| <= maximum || tolerance == HIGH_TOLERANCE
    ensures forall t :: LOW_TOLERANCE < t <= tolerance - 1.0 ==> !Fits(valid, metric, maximum, t)
  {
    var low, high := LOW_TOLERANCE, HIGH_TOLERANCE;
    best := SimplifyForLink(valid, metric, high);
    var iteration := 0;
    while iteration < BISECTION_STEPS && high - low > 1.0
      invariant 0 <= iteration <= BISECTION_STEPS
      invariant LOW_TOLERANCE <= low <= high <= HIGH_TOLERANCE
      invariant high - low == Width(iteration)
      invariant best == LinkSimplification(valid, metric, high)
      invariant |best| <= maximum || high == HIGH_TOLERANCE
      invariant low == LOW_TOLERANCE || !Fits(valid, metric, maximum, low)
    {
      var middle := (low + high) / 2.0;
      var candidate := SimplifyForLink(valid, metric, middle);
      if |candidate| > maximum {
        low := middle;
      } else {
        high := middle;
        best := candidate;
      }
      iteration := iteration + 1;
    }
    tolerance := high;
    BracketCloses();
    forall t | LOW_TOLERANCE < t <= tolerance - 1.0 ensures !Fits(valid, metric, maximum, t) {
      if Fits(valid, metric, maximum, t) {
        FitsIsMonotone(valid, metric, maximum, t, low);
      }
    }
  }

  function Travelled(points: seq<GeoPoint>, meters: Ground, i: nat, j: nat): real
    requires i <= j < |points|
    decreases j
  {
    if i == j then 0.0 else Travelled(points, meters, i, j - 1) + meters(points[j - 1], points[j])
  }

  /** The first index from j on at least metersAhead down the line from index; index itself when there is none. */
  function FirstBeyond(points: seq<GeoPoint>, meters: Ground, index: nat, j: nat, metersAhead: real): (at: nat)
    requires index < j <= |points|
    ensures at == index || (j <= at < |points| && Travelled(points, meters, index, at) >= metersAhead)
    ensures forall k ::
              j <= k < (if at == index then |points| else at) ==> Travelled(points, meters, index, k) < metersAhead
    decreases |points| - j
  {
    if j == |points| then index
    else if Travelled(points, meters, index, j) >= metersAhead then j
    else FirstBeyond(points, meters, index, j + 1, metersAhead)
  }

  method NudgeDownstream(points: seq<GeoPoint>, meters: Ground, index: nat, metersAhead: real) returns (moved: GeoPoint)
    requires index < |points|
    ensures moved == points[FirstBeyond(points, meters, index, index + 1, metersAhead)]
  {
    var travelled := 0.0;
    for cursor := index to |points| - 1
      invariant travelled == Travelled(points, meters, index, cursor)
      invariant FirstBeyond(points, meters, index, index + 1, metersAhead) ==
                FirstBeyond(points, meters, index, cursor + 1, metersAhead)
    {
      travelled := travelled + meters(points[cursor], points[cursor + 1]);
      if travelled >= metersAhead {
        return points[cursor + 1];
      }
    }
    return points[index];
  }

  /** Array.prototype.slice(0, end): a negative end counts from the back. */
  function SliceTo<T>(s: seq<T>, end: int): seq<T> {
    if end >= |s| then s else if end >= 0 then s[..end] else if -end >= |s| then [] else s[..|s| + end]
  }

  ghost predicate Within(valid: seq<GeoPoint>, points: seq<GeoPoint>) {
    forall q :: 0 <= q < |points| ==> points[q] in valid
  }

  lemma SimplificationEnds(valid: seq<GeoPoint>, metric: Metric<GeoPoint>, tolerance: real)
    requires |valid| >= 3
    ensures var line := LinkSimplification(valid, metric, tolerance);
            |line| >= 2 && line[0] == valid[0] && line[|line| - 1] == valid[|valid| - 1] && Within(valid, line)
  {
    KeptIndicesSimplify(valid, metric, tolerance);
  }

  function Truncated(line: seq<GeoPoint>, maximum: int): seq<GeoPoint>
    requires line != []
  {
    if |line| <= maximum then line else SliceTo(line, maximum - 1) + [line[|line| - 1]]
  }

  /** The line at this tolerance, cut to the budget; no tolerance more than a metre finer fits. */
  ghost predicate Detailed(valid: seq<GeoPoint>, metric: Metric<GeoPoint>, maximum: int, tolerance: real,
                           chosen: seq<GeoPoint>) {
    var line := LinkSimplification(valid, metric, tolerance);
    && line != [] && chosen == Truncated(line, maximum)
    && (|line| <= maximum || tolerance == HIGH_TOLERANCE)
    && forall t :: LOW_TOLERANCE < t <= tolerance - 1.0 ==> !Fits(valid, metric, maximum, t)
  }

  /** The simplified line, truncated to maximum points when even the coarsest is too long. */
  method ChooseViaPoints(valid: seq<GeoPoint>, metric: Metric<GeoPoint>, maximum: int)
    returns (chosen: seq<GeoPoint>, tolerance: real)
    requires |valid| > 2
    ensures Detailed(valid, metric, maximum, tolerance, chosen)
    ensures |chosen| >= 1 && Within(valid, chosen)
    ensures chosen[|chosen| - 1] == valid[|valid| - 1]
    ensures maximum >= 2 ==> 2 <= |chosen| <= maximum && chosen[0] == valid[0]
  {
    var best;
    best, tolerance := FitTolerance(valid, metric, maximum);
    SimplificationEnds(valid, metric, tolerance);
    chosen := best;
    if |best| > maximum {
      chosen := SliceTo(best, maximum - 1) + [best[|best| - 1]];
    }
  }

  // ---- nudging

  /** The last index at which a point of the line occurs. */
  function LastIndex(points: seq<GeoPoint>, p: GeoPoint): (i: nat)
    requires p in points
    ensures i < |points| && points[i] == p && forall j :: i < j < |points| ==> points[j] != p
  {
    if points[|points| - 1] == p then |points| - 1 else LastIndex(points[..|points| - 1], p)
  }

  /** Where an intermediate point is moved to. */
  function Moved(valid: seq<GeoPoint>, meters: Ground, p: GeoPoint): GeoPoint {
    if p !in valid then p
    else
      var index := LastIndex(valid, p);
      valid[FirstBeyond(valid, meters, index, index + 1, VIA_POINT_OFFSET_METERS)]
  }

  /** The first k chosen points, each moved past its turn, without those closer than the spacing. */
  function ViaPoints(valid: seq<GeoPoint>, meters: Ground, chosen: seq<GeoPoint>, k: nat): (line: seq<GeoPoint>)
    requires 1 <= k <= |chosen|
    ensures 1 <= |line| <= k && line[0] == chosen[0]
    decreases k
  {
    if k == 1 then [chosen[0]]
    else
      var line, moved := ViaPoints(valid, meters, chosen, k - 1), Moved(valid, meters, chosen[k - 1]);
      if meters(line[|line| - 1], moved) >= MIN_VIA_SPACING_METERS then line + [moved] else line
  }

  /** Both endpoints exact, the others nudged. */
  function Nudged(valid: seq<GeoPoint>, meters: Ground, chosen: seq<GeoPoint>): seq<GeoPoint>
    requires chosen != []
  {
    ViaPoints(valid, meters, chosen, Max(1, |chosen| - 1)) + [chosen[|chosen| - 1]]
  }

  method IndexPoints(valid: seq<GeoPoint>) returns (indexOf: map<GeoPoint, nat>)
    ensures forall p :: p in indexOf <==> p in valid
    ensures forall p :: p in indexOf ==> indexOf[p] == LastIndex(valid, p)
  {
    indexOf := map[];
    for index := 0 to |valid|
      invariant forall p :: p in indexOf <==> p in valid[..index]
      invariant forall p :: p in indexOf ==> indexOf[p] == LastIndex(valid[..index], p)
    {
      assert valid[..index + 1] == valid[..index] + [valid[index]];
      assert valid[..index + 1][..index] == valid[..index];
      indexOf := indexOf[valid[index] := index];
    }
    assert valid[..|valid|] == valid;
  }

  method MovePoint(valid: seq<GeoPoint>, meters: Ground, indexOf: map<GeoPoint, nat>, p: GeoPoint)
    returns (moved: GeoPoint)
    requires p in indexOf <==> p in valid
    requires p in indexOf ==> indexOf[p] == LastIndex(valid, p)
    ensures moved == Moved(valid, meters, p)
  {
    moved := p;
    if p in indexOf {
      moved := NudgeDownstream(valid, meters, indexOf[p], VIA_POINT_OFFSET_METERS);
    }
  }

  /** The loop over the intermediate points. */
  method NudgeLine(valid: seq<GeoPoint>, meters: Ground, chosen: seq<GeoPoint>) returns (nudged: seq<GeoPoint>)
    requires |chosen| >= 1
    ensures nudged == ViaPoints(valid, meters, chosen, Max(1, |chosen| - 1))
  {
    var indexOf := IndexPoints(valid);
    nudged := [chosen[0]];
    var at := 1;
    while at < |chosen| - 1
      invariant at == 1 || at <= |chosen| - 1
      invariant nudged == ViaPoints(valid, meters, chosen, at)
    {
      var moved := MovePoint(valid, meters, indexOf, chosen[at]);
      if meters(nudged[|nudged| - 1], moved) >= MIN_VIA_SPACING_METERS {
        nudged := nudged + [moved];
      }
      at := at + 1;
    }
  }

  lemma {:induction false} ViaPointsKeep(valid: seq<GeoPoint>, meters: Ground, chosen: seq<GeoPoint>, k: nat)
    requires 1 <= k <= |chosen| && Within(valid, chosen)
    ensures Within(valid, ViaPoints(valid, meters, chosen, k)) && Spaced(ViaPoints(valid, meters, chosen, k), meters)
  {
    if k > 1 {
      ViaPointsKeep(valid, meters, chosen, k - 1);
    }
  }

  /** A point between the ends is moved to the first vertex at least 60 m down the line, or stays if none is. */
  lemma MovedDownstream(valid: seq<GeoPoint>, meters: Ground, p: GeoPoint) returns (i: nat, j: nat)
    requires p in valid
    ensures i <= j < |valid| && valid[i] == p && (forall k :: i < k < |valid| ==> valid[k] != p)
    ensures Moved(valid, meters, p) == valid[j]
    ensures i < j ==> Travelled(valid, meters, i, j) >= 60.0
    ensures forall k :: i < k < (if i < j then j else |valid|) ==> Travelled(valid, meters, i, k) < 60.0
  {
    i := LastIndex(valid, p);
    j := FirstBeyond(valid, meters, i, i + 1, VIA_POINT_OFFSET_METERS);
  }

  /** Where a point is moved to is a via point, or one lies closer than the spacing. */
  ghost predicate NotLost(valid: seq<GeoPoint>, meters: Ground, p: GeoPoint, line: seq<GeoPoint>) {
    var moved := Moved(valid, meters, p);
    moved in line || exists i :: 0 <= i < |line| && meters(line[i], moved) < 40.0
  }

  lemma NotLostStays(valid: seq<GeoPoint>, meters: Ground, p: GeoPoint, line: seq<GeoPoint>, more: seq<GeoPoint>)
    requires NotLost(valid, meters, p, line) && line <= more
    ensures NotLost(valid, meters, p, more)
  {
    var moved := Moved(valid, meters, p);
    if moved in line {
      var i :| 0 <= i < |line| && line[i] == moved;
      assert more[i] == moved;
    } else {
      var i :| 0 <= i < |line| && meters(line[i], moved) < 40.0;
      assert more[i] == line[i];
    }
  }

  lemma {:induction false} OnlyCrowdedAreDropped(valid: seq<GeoPoint>, meters: Ground, chosen: seq<GeoPoint>, k: nat,
                                                 q: nat)
    requires 1 <= q < k <= |chosen|
    ensures NotLost(valid, meters, chosen[q], ViaPoints(valid, meters, chosen, k))
  {
    var line, before := ViaPoints(valid, meters, chosen, k), ViaPoints(valid, meters, chosen, k - 1);
    if q < k - 1 {
      OnlyCrowdedAreDropped(valid, meters, chosen, k - 1, q);
      NotLostStays(valid, meters, chosen[q], before, line);
    } else if line == before {
      var moved := Moved(valid, meters, chosen[q]);
      assert moved in line || meters(line[|line| - 1], moved) < 40.0;
    }
  }

  /** Moves every intermediate point off its turn and drops those closer than the spacing. */
  method NudgeViaPoints(valid: seq<GeoPoint>, meters: Ground, chosen: seq<GeoPoint>) returns (nudged: seq<GeoPoint>)
    requires |chosen| >= 1 && Within(valid, chosen)
    ensures nudged == Nudged(valid, meters, chosen)
    ensures 2 <= |nudged| && (|chosen| >= 2 ==> |nudged| <= |chosen|)
    ensures nudged[0] == chosen[0] && nudged[|nudged| - 1] == chosen[|chosen| - 1]
    ensures Within(valid, nudged) && Spaced(nudged[..|nudged| - 1], meters)
    ensures forall q :: 1 <= q < |chosen| - 1 ==> NotLost(valid, meters, chosen[q], nudged)
  {
    var line := NudgeLine(valid, meters, chosen);
    ViaPointsKeep(valid, meters, chosen, Max(1, |chosen| - 1));
    nudged := line + [chosen[|chosen| - 1]];
    assert nudged[..|nudged| - 1] == line;
    forall q | 1 <= q < |chosen| - 1 ensures NotLost(valid, meters, chosen[q], nudged) {
      OnlyCrowdedAreDropped(valid, meters, chosen, |chosen| - 1, q);
      NotLostStays(valid, meters, chosen[q], line, nudged);
    }
  }

  ghost predicate Spaced(points: seq<GeoPoint>, meters: Ground) {
    forall q :: 1 <= q < |points| ==> meters(points[q - 1], points[q]) >= MIN_VIA_SPACING_METERS
  }

  /** The nudged points of the most detailed line that fits. */
  ghost predicate LinkOf(valid: seq<GeoPoint>, metric: Metric<GeoPoint>, meters: Ground, maximum: int,
                         nudged: seq<GeoPoint>) {
    exists tolerance, chosen ::
      chosen != [] && Detailed(valid, metric, maximum, tolerance, chosen) && nudged == Nudged(valid, meters, chosen)
  }

  /** The budget of a link is met exactly when it leaves room for both endpoints. */
  method ExternalRoutePoints(valid: seq<GeoPoint>, metric: Metric<GeoPoint>, meters: Ground, maximum: int)
    returns (nudged: seq<GeoPoint>)
    ensures |nudged| <= maximum <==> maximum >= 2 || |valid| <= maximum
    ensures Within(valid, nudged)
    ensures |valid| <= 2 || |valid| <= maximum ==> nudged == valid
    ensures |valid| >= 1 && maximum >= 2 ==>
              |nudged| >= 1 && nudged[0] == valid[0] && nudged[|nudged| - 1] == valid[|valid| - 1]
    ensures |valid| > 2 && |valid| > maximum ==>
              LinkOf(valid, metric, meters, maximum, nudged) && |nudged| >= 2 && Spaced(nudged[..|nudged| - 1], meters)
  {
    if |valid| <= 2 || |valid| <= maximum {
      return valid;
    }
    var chosen, tolerance := ChooseViaPoints(valid, metric, maximum);
    nudged := NudgeViaPoints(valid, meters, chosen);
  }
}
