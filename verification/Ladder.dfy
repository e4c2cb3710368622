/** The detour ladder: which places to forbid and how far to reach sideways, in order. */
module Ladder {
  import opened Domain
  import opened Clusters

  const MAX_ZONES := 12
  const MIN_LATERAL := 400.0
  const MAX_LATERAL := 25000.0
  const MIN_CORRIDOR := 3000.0

  /** A forbidden octagon, by its circumscribed circle. */
  datatype Zone = Zone(center: GeoPoint, radius: real)

  datatype Side = Left | Right

  /** The stable name of an experiment; one constructor per text the search can form. */
  datatype Label =
    | AvoidAllRed(zones: nat)
    | AvoidRedAndOrange(zones: nat)
    | Lateral(guarded: bool, side: Side, offset: int)
    | MultiClusterBypass
    | AvoidEveryNonGreen(zones: nat)
    | Corridor(side: Side, offset: int)
    | AvoidWorst(zones: nat)

  datatype Plan = Plan(name: Label, anchors: seq<GeoPoint>, zones: seq<Zone>)

  // ---- zones

  function ZoneAround(c: Cluster): Zone {
    Zone(c.center, RealMin(MAX_RADIUS, c.radius + ZONE_BUFFER))
  }

  /** The zone's circle keeps the protected distance to both endpoints. */
  predicate KeepsClear(earth: Earth, zone: Zone, request: Request) {
    && zone.radius <= earth.distance(zone.center, request.origin) - ENDPOINT_PROTECTION
    && zone.radius <= earth.distance(zone.center, request.destination) - ENDPOINT_PROTECTION
  }

  /** The zones of all clusters whose octagon can be drawn. */
  function Drawn(earth: Earth, clusters: seq<Cluster>): (zones: seq<Zone>)
    ensures |zones| <= |clusters|
    ensures forall z :: z in zones ==> exists c :: c in clusters && z == ZoneAround(c)
  {
    if clusters == [] then []
    else
      var front, zone := Drawn(earth, clusters[..|clusters| - 1]), ZoneAround(clusters[|clusters| - 1]);
      front + if earth.drawable(zone.center, zone.radius) then [zone] else []
  }

  lemma {:induction false} DrawnPrefix(earth: Earth, clusters: seq<Cluster>, n: nat)
    requires n <= |clusters|
    ensures Drawn(earth, clusters[..n]) <= Drawn(earth, clusters)
  {
    if n == |clusters| {
      assert clusters[..n] == clusters;
    } else {
      DrawnPrefix(earth, clusters[..|clusters| - 1], n);
      assert clusters[..|clusters| - 1][..n] == clusters[..n];
    }
  }

  /** The first drawable zones, up to the limit. */
  method ZonesFor(earth: Earth, clusters: seq<Cluster>, limit: nat) returns (zones: seq<Zone>)
    ensures zones == AtMost(Drawn(earth, clusters), limit)
  {
    zones := [];
    for i := 0 to |clusters|
      invariant zones == Drawn(earth, clusters[..i]) && |zones| <= limit
    {
      assert clusters[..i + 1][..i] == clusters[..i];
      if |zones| >= limit {
        DrawnPrefix(earth, clusters, i);
        return;
      }
      var zone := ZoneAround(clusters[i]);
      if earth.drawable(zone.center, zone.radius) {
        zones := zones + [zone];
      }
    }
    assert clusters[..|clusters|] == clusters;
  }

  // ---- offsets

  lemma NearestOfInteger(n: nat)
    ensures Nearest(n as real) == n
  {
  }

  /** How far a fraction of the allowance reaches, in whole metres. */
  function LateralTarget(allowance: real, fraction: real): int {
    Nearest(RealMax(MIN_LATERAL, RealMin(MAX_LATERAL, allowance * fraction)))
  }

  lemma LateralTargetsRise(allowance: real, a: real, b: real)
    requires 0.0 <= allowance && 0.0 <= a <= b
    ensures 400 <= LateralTarget(allowance, a) <= LateralTarget(allowance, b) <= 25000
  {
    assert allowance * b - allowance * a == allowance * (b - a) >= 0.0;
    NearestOfInteger(400);
    NearestOfInteger(25000);
    NearestRises(MIN_LATERAL, RealMax(MIN_LATERAL, RealMin(MAX_LATERAL, allowance * a)));
    NearestRises(RealMax(MIN_LATERAL, RealMin(MAX_LATERAL, allowance * a)),
                 RealMax(MIN_LATERAL, RealMin(MAX_LATERAL, allowance * b)));
    NearestRises(RealMax(MIN_LATERAL, RealMin(MAX_LATERAL, allowance * b)), MAX_LATERAL);
  }

  function Abs(x: int): int { if x < 0 then -x else x }

  /** Targets in order, leaving out each that is nearer than the gap to the last one taken. */
  function Ringed(targets: seq<int>, gap: int): seq<int> {
    if targets == [] then []
    else TakeRing(Ringed(targets[..|targets| - 1], gap), targets[|targets| - 1], gap)
  }

  function TakeRing(kept: seq<int>, target: int, gap: int): seq<int> {
    if kept != [] && Abs(kept[|kept| - 1] - target) < gap then kept else kept + [target]
  }

  ghost predicate Spread(offsets: seq<int>, gap: int) {
    forall i, j :: 0 <= i < j < |offsets| ==> offsets[j] - offsets[i] >= gap
  }

  /** Some offset is at most the target and less than a gap below it. */
  ghost predicate Reached(offsets: seq<int>, target: int, gap: int) {
    exists i :: 0 <= i < |offsets| && target - gap < offsets[i] <= target
  }

  /** Spread out, and near every target. */
  ghost predicate Rings(offsets: seq<int>, targets: seq<int>, gap: int) {
    && Spread(offsets, gap)
    && (forall k {:trigger Reached(offsets, targets[k], gap)} ::
          0 <= k < |targets| ==> Reached(offsets, targets[k], gap))
  }

  lemma SpreadGrows(offsets: seq<int>, x: int, gap: int)
    requires Spread(offsets, gap) && gap > 0 && (offsets != [] ==> x - offsets[|offsets| - 1] >= gap)
    ensures Spread(offsets + [x], gap)
  {
    var more := offsets + [x];
    forall i, j | 0 <= i < j < |more| ensures more[j] - more[i] >= gap {
      assert i < |offsets| - 1 ==> offsets[|offsets| - 1] - offsets[i] >= gap;
    }
  }

  lemma ReachedStays(offsets: seq<int>, more: seq<int>, target: int, gap: int)
    requires Reached(offsets, target, gap) && offsets <= more
    ensures Reached(more, target, gap)
  {
    var i :| 0 <= i < |offsets| && target - gap < offsets[i] <= target;
    assert more[i] == offsets[i];
  }

  lemma RingsGrow(offsets: seq<int>, more: seq<int>, targets: seq<int>, target: int, gap: int)
    requires Rings(offsets, targets, gap) && gap > 0
    requires offsets != [] ==> offsets[|offsets| - 1] <= target
    requires more == TakeRing(offsets, target, gap)
    ensures Rings(more, targets + [target], gap)
  {
    var all := targets + [target];
    if more != offsets {
      SpreadGrows(offsets, target, gap);
    }
    forall k | 0 <= k < |all| ensures Reached(more, all[k], gap) {
      if k < |targets| {
        assert Reached(offsets, targets[k], gap);
        ReachedStays(offsets, more, targets[k], gap);
      } else {
        assert target - gap < more[|more| - 1] <= target;
      }
    }
  }

  /** For rising targets the greedy choice is spread out, near every target and no farther than the last. */
  lemma {:induction false} RingedRings(targets: seq<int>, gap: int, least: int)
    requires gap > 0 && forall i, j :: 0 <= i < j < |targets| ==> targets[i] <= targets[j]
    requires forall i :: 0 <= i < |targets| ==> least <= targets[i]
    ensures Rings(Ringed(targets, gap), targets, gap)
    ensures targets != [] <==> Ringed(targets, gap) != []
    ensures forall i :: 0 <= i < |Ringed(targets, gap)| ==> least <= Ringed(targets, gap)[i] <= targets[|targets| - 1]
  {
    if targets != [] {
      var front, target := targets[..|targets| - 1], targets[|targets| - 1];
      RingedRings(front, gap, least);
      RingsGrow(Ringed(front, gap), Ringed(targets, gap), front, target, gap);
      assert front + [target] == targets;
    }
  }

  const LATERAL_FRACTIONS := [0.12, 0.3, 0.62, 1.0]

  function LateralAllowance(maxExtraDistance: int): real {
    if maxExtraDistance <= 0 then 3000.0 else maxExtraDistance as real / 3.0
  }

  lemma RingedStep(targets: seq<int>, target: int, gap: int)
    ensures Ringed(targets + [target], gap) == TakeRing(Ringed(targets, gap), target, gap)
  {
    assert (targets + [target])[..|targets|] == targets;
  }

  function LateralTargets(allowance: real, fractions: seq<real>): (targets: seq<int>)
    ensures |targets| == |fractions|
    ensures forall i :: 0 <= i < |fractions| ==> targets[i] == LateralTarget(allowance, fractions[i])
  {
    if fractions == [] then []
    else
      LateralTargets(allowance, fractions[..|fractions| - 1])
      + [LateralTarget(allowance, fractions[|fractions| - 1])]
  }

  /** The targets of a request's rings. */
  function RingTargets(request: Request): seq<int> {
    LateralTargets(LateralAllowance(request.maxExtraDistance), LATERAL_FRACTIONS)
  }

  lemma LateralTargetsAreRings(allowance: real, fractions: seq<real>)
    requires allowance >= 0.0 && forall i, j :: 0 <= i <= j < |fractions| ==> 0.0 <= fractions[i] <= fractions[j]
    ensures var targets := LateralTargets(allowance, fractions);
            && (forall i :: 0 <= i < |targets| ==> 400 <= targets[i] <= 25000)
            && forall i, j :: 0 <= i < j < |targets| ==> targets[i] <= targets[j]
  {
    var targets := LateralTargets(allowance, fractions);
    forall i, j | 0 <= i <= j < |targets| ensures 400 <= targets[i] <= targets[j] <= 25000 {
      LateralTargetsRise(allowance, fractions[i], fractions[j]);
    }
  }

  method CollectLaterals(allowance: real, fractions: seq<real>) returns (offsets: seq<int>)
    ensures offsets == Ringed(LateralTargets(allowance, fractions), 150)
  {
    offsets := [];
    for i := 0 to |fractions|
      invariant offsets == Ringed(LateralTargets(allowance, fractions[..i]), 150)
    {
      var offset := LateralTarget(allowance, fractions[i]);
      assert fractions[..i + 1][..i] == fractions[..i];
      RingedStep(LateralTargets(allowance, fractions[..i]), offset, 150);
      if |offsets| == 0 || Abs(offsets[|offsets| - 1] - offset) >= 150 {
        offsets := offsets + [offset];
      }
    }
    assert fractions[..|fractions|] == fractions;
  }

  /** No offset exceeds the reach, unless by rounding or up to a floor, and some comes within a gap of it. */
  ghost predicate Exhausts(offsets: seq<int>, reach: real, floor: real, gap: real) {
    && (forall i :: 0 <= i < |offsets| ==> offsets[i] as real <= RealMax(floor, reach + 0.5))
    && exists i :: 0 <= i < |offsets| && offsets[i] as real > reach - gap - 0.5
  }

  lemma RingsExhaust(offsets: seq<int>, targets: seq<int>, gap: int, reach: real, floor: real)
    requires targets != [] && Rings(offsets, targets, gap)
    requires forall i :: 0 <= i < |offsets| ==> offsets[i] <= targets[|targets| - 1]
    requires reach - 0.5 <= targets[|targets| - 1] as real <= RealMax(floor, reach + 0.5)
    ensures Exhausts(offsets, reach, floor, gap as real)
  {
    assert Reached(offsets, targets[|targets| - 1], gap);
    var i :| 0 <= i < |offsets| && targets[|targets| - 1] - gap < offsets[i] <= targets[|targets| - 1];
  }

  /** How far sideways a request lets the search reach: a third of the allowance, at most 25 km. */
  function SidewaysReach(maxExtraDistance: int): real {
    RealMin(25000.0, if maxExtraDistance <= 0 then 3000.0 else maxExtraDistance as real / 3.0)
  }

  lemma LateralsExhaust(request: Request)
    ensures var offsets := Ringed(RingTargets(request), 150);
            Exhausts(offsets, SidewaysReach(request.maxExtraDistance), 400.0, 150.0)
  {
    var allowance, targets := LateralAllowance(request.maxExtraDistance), RingTargets(request);
    LateralTargetsAreRings(allowance, LATERAL_FRACTIONS);
    RingedRings(targets, 150, 400);
    NearestIsNear(RealMax(MIN_LATERAL, RealMin(MAX_LATERAL, allowance)));
    assert targets[3] == LateralTarget(allowance, 1.0);
    NearestOfInteger(400);
    RingsExhaust(Ringed(targets, 150), targets, 150, SidewaysReach(request.maxExtraDistance), 400.0);
  }

  /** Rising offsets at least 150 m apart that reach every ring of the allowance to within 150 m. */
  method LateralOffsets(request: Request) returns (offsets: seq<int>)
    ensures offsets == Ringed(RingTargets(request), 150)
    ensures offsets != [] && Rings(offsets, RingTargets(request), 150)
    ensures forall i :: 0 <= i < |offsets| ==> 400 <= offsets[i] <= 25000
    ensures Exhausts(offsets, SidewaysReach(request.maxExtraDistance), 400.0, 150.0)
  {
    LateralsExhaust(request);
    var allowance := LateralAllowance(request.maxExtraDistance);
    offsets := CollectLaterals(allowance, LATERAL_FRACTIONS);
    LateralTargetsAreRings(allowance, LATERAL_FRACTIONS);
    RingedRings(RingTargets(request), 150, 400);
  }

  const CORRIDOR_FRACTIONS := [0.25, 0.5]

  /** The unrounded corridor offset of a fraction of the trip. */
  function CorridorReach(span: real, allowance: int, fraction: real): real {
    RealMin(MAX_LATERAL, RealMin(span * fraction, allowance as real / 2.0))
  }

  /** The fractions whose reach is worth a corridor, in whole metres. */
  function CorridorTargets(span: real, allowance: int, fractions: seq<real>): seq<int> {
    if fractions == [] || allowance <= 0 then []
    else
      var reach := CorridorReach(span, allowance, fractions[|fractions| - 1]);
      CorridorTargets(span, allowance, fractions[..|fractions| - 1])
      + if reach < MIN_CORRIDOR then [] else [Nearest(reach)]
  }

  lemma CorridorTargetsAreRings(span: real, allowance: int)
    requires span >= 0.0
    ensures var targets := CorridorTargets(span, allowance, CORRIDOR_FRACTIONS);
            && |targets| <= 2
            && (forall i :: 0 <= i < |targets| ==> 3000 <= targets[i] <= 25000)
            && (forall i, j :: 0 <= i < j < |targets| ==> targets[i] <= targets[j])
            && (targets != [] <==> allowance > 0 && CorridorReach(span, allowance, 0.5) >= MIN_CORRIDOR)
            && (targets != [] ==> targets[|targets| - 1] == Nearest(CorridorReach(span, allowance, 0.5)))
  {
    var near, far := CorridorReach(span, allowance, 0.25), CorridorReach(span, allowance, 0.5);
    NearestOfInteger(3000);
    NearestOfInteger(25000);
    if far >= MIN_CORRIDOR {
      NearestRises(MIN_CORRIDOR, far);
      NearestRises(far, MAX_LATERAL);
    }
    if near >= MIN_CORRIDOR {
      NearestRises(MIN_CORRIDOR, near);
      NearestRises(near, far);
    }
    assert CORRIDOR_FRACTIONS[..1] == [0.25] && [0.25][..0] == [];
    assert CorridorTargets(span, allowance, []) == [];
    assert CorridorTargets(span, allowance, [0.25]) ==
           if allowance <= 0 || near < MIN_CORRIDOR then [] else [Nearest(near)];
  }

  lemma CorridorStep(span: real, allowance: int, fractions: seq<real>, i: nat)
    requires i < |fractions| && allowance > 0
    ensures var reach := CorridorReach(span, allowance, fractions[i]);
            var before := CorridorTargets(span, allowance, fractions[..i]);
            CorridorTargets(span, allowance, fractions[..i + 1]) ==
            if reach < MIN_CORRIDOR then before else before + [Nearest(reach)]
  {
    assert fractions[..i + 1][..i] == fractions[..i];
  }

  lemma CorridorRings(span: real, allowance: int)
    requires span >= 0.0
    ensures var targets := CorridorTargets(span, allowance, CORRIDOR_FRACTIONS);
            var offsets := Ringed(targets, 500);
            && Rings(offsets, targets, 500) && |offsets| <= 2
            && (forall i :: 0 <= i < |offsets| ==> 3000 <= offsets[i] <= 25000)
            && (offsets != [] <==> allowance > 0 && CorridorReach(span, allowance, 0.5) >= MIN_CORRIDOR)
            && (offsets != [] ==> Exhausts(offsets, CorridorReach(span, allowance, 0.5), 0.0, 500.0))
  {
    CorridorTargetsAreRings(span, allowance);
    CorridorsExhaust(CorridorTargets(span, allowance, CORRIDOR_FRACTIONS), CorridorReach(span, allowance, 0.5));
  }

  lemma {:induction false} CorridorsExhaust(targets: seq<int>, width: real)
    requires |targets| <= 2 && forall i :: 0 <= i < |targets| ==> 3000 <= targets[i] <= 25000
    requires forall i, j :: 0 <= i < j < |targets| ==> targets[i] <= targets[j]
    requires targets != [] ==> targets[|targets| - 1] == Nearest(width)
    ensures var offsets := Ringed(targets, 500);
            && Rings(offsets, targets, 500) && |offsets| <= 2 && (offsets != [] <==> targets != [])
            && (forall i :: 0 <= i < |offsets| ==> 3000 <= offsets[i] <= 25000)
            && (offsets != [] ==> Exhausts(offsets, width, 0.0, 500.0))
  {
    RingedRings(targets, 500, 3000);
    RingedIsShorter(targets, 500);
    if targets != [] {
      NearestIsNear(width);
      RingsExhaust(Ringed(targets, 500), targets, 500, width, 0.0);
    }
  }

  lemma {:induction false} RingedIsShorter(targets: seq<int>, gap: int)
    ensures |Ringed(targets, gap)| <= |targets|
  {
    if targets != [] {
      RingedIsShorter(targets[..|targets| - 1], gap);
    }
  }

  /** How wide a corridor may be: half the trip, half the allowance, at most 25 km. */
  function CorridorWidth(span: real, allowance: int): real {
    RealMin(25000.0, RealMin(span / 2.0, allowance as real / 2.0))
  }

  method CollectCorridors(span: real, allowance: int, fractions: seq<real>) returns (offsets: seq<int>)
    ensures offsets == Ringed(CorridorTargets(span, allowance, fractions), 500)
  {
    offsets := [];
    if allowance <= 0 {
      return;
    }
    for i := 0 to |fractions|
      invariant offsets == Ringed(CorridorTargets(span, allowance, fractions[..i]), 500)
    {
      var reach := CorridorReach(span, allowance, fractions[i]);
      CorridorStep(span, allowance, fractions, i);
      if reach < MIN_CORRIDOR {
        continue;
      }
      var offset := Nearest(reach);
      RingedStep(CorridorTargets(span, allowance, fractions[..i]), offset, 500);
      if |offsets| == 0 || Abs(offsets[|offsets| - 1] - offset) >= 500 {
        offsets := offsets + [offset];
      }
    }
    assert fractions[..|fractions|] == fractions;
  }

  /** At most two offsets of 3 to 25 km, at least 500 m apart, present exactly when the wider one is a corridor. */
  method CorridorOffsets(request: Request, span: real) returns (offsets: seq<int>)
    requires span >= 0.0
    ensures var targets := CorridorTargets(span, request.maxExtraDistance, CORRIDOR_FRACTIONS);
            offsets == Ringed(targets, 500) && Rings(offsets, targets, 500)
    ensures |offsets| <= 2 && forall i :: 0 <= i < |offsets| ==> 3000 <= offsets[i] <= 25000
    ensures offsets != [] <==>
            request.maxExtraDistance > 0 && CorridorWidth(span, request.maxExtraDistance) >= 3000.0
    ensures offsets != [] ==> Exhausts(offsets, CorridorWidth(span, request.maxExtraDistance), 0.0, 500.0)
  {
    offsets := CollectCorridors(span, request.maxExtraDistance, CORRIDOR_FRACTIONS);
    CorridorRings(span, request.maxExtraDistance);
    assert CorridorReach(span, request.maxExtraDistance, 0.5) == CorridorWidth(span, request.maxExtraDistance);
  }

  // ---- plans

  /** A place for every label; labels at different places differ. */
  function Place(name: Label): int {
    match name
    case AvoidAllRed(_) => 0
    case AvoidRedAndOrange(_) => 1
    case Lateral(_, side, offset) => 2 * offset + if side == Left then 0 else 1
    case MultiClusterBypass => 60000
    case AvoidEveryNonGreen(_) => 60001
    case Corridor(side, offset) => 70000 + 2 * offset + if side == Left then 0 else 1
    case AvoidWorst(zones) => 200000 - zones
  }

  /** Every place in the ladder is below the bound, and places rise along the ladder. */
  ghost predicate Rising(plans: seq<Plan>, bound: int) {
    && (forall i :: 0 <= i < |plans| ==> Place(plans[i].name) < bound)
    && (forall i, j :: 0 <= i < j < |plans| ==> Place(plans[i].name) < Place(plans[j].name))
  }

  /** The kinds of rung in the order of the ladder. */
  function Kind(name: Label): int {
    match name
    case AvoidAllRed(_) => 0
    case AvoidRedAndOrange(_) => 1
    case Lateral(_, _, _) => 2
    case MultiClusterBypass => 3
    case AvoidEveryNonGreen(_) => 4
    case Corridor(_, _) => 5
    case AvoidWorst(_) => 6
  }

  /** Earlier kinds first; sideways the nearer ring first and its left side before its right; relaxing last. */
  predicate Precedes(a: Label, b: Label) {
    if Kind(a) != Kind(b) then Kind(a) < Kind(b)
    else if a.AvoidWorst? then a.zones > b.zones
    else
      && (a.Lateral? || a.Corridor?)
      && (a.offset < b.offset || (a.offset == b.offset && a.side == Left && b.side == Right))
  }

  predicate Placeable(name: Label) {
    && (name.Lateral? ==> 400 <= name.offset <= 25000) && (name.Corridor? ==> 3000 <= name.offset <= 25000)
    && (name.AvoidWorst? ==> 1 <= name.zones <= 3)
  }

  lemma PlacesPrecede(a: Label, b: Label)
    requires Placeable(a) && Placeable(b)
    ensures Place(a) < Place(b) <==> Precedes(a, b)
  {
  }

  ghost predicate InOrder(plans: seq<Plan>) {
    forall i, j :: 0 <= i < j < |plans| ==> Precedes(plans[i].name, plans[j].name)
  }

  lemma RisingIsInOrder(plans: seq<Plan>, bound: int)
    requires Rising(plans, bound) && forall i :: 0 <= i < |plans| ==> Placeable(plans[i].name)
    ensures InOrder(plans)
  {
    forall i, j | 0 <= i < j < |plans| ensures Precedes(plans[i].name, plans[j].name) {
      PlacesPrecede(plans[i].name, plans[j].name);
    }
  }

  lemma RisingRaises(plans: seq<Plan>, low: int, high: int)
    requires Rising(plans, low) && low <= high
    ensures Rising(plans, high)
  {
  }

  ghost predicate DistinctLabels(plans: seq<Plan>) {
    forall i, j :: 0 <= i < j < |plans| ==> plans[i].name != plans[j].name
  }

  /** What the search may use. */
  datatype Means = Means(zones: bool, anchors: bool, anchorCapacity: int)

  function Severe(clusters: seq<Cluster>, minimum: int): (r: seq<Cluster>)
    ensures forall c :: c in r <==> c in clusters && c.severity >= minimum
  {
    if clusters == [] then []
    else
      var last := clusters[|clusters| - 1];
      Severe(clusters[..|clusters| - 1], minimum) + if last.severity >= minimum then [last] else []
  }

  method FilterClusters(clusters: seq<Cluster>, minimum: int) returns (r: seq<Cluster>)
    ensures r == Severe(clusters, minimum)
  {
    r := [];
    for i := 0 to |clusters|
      invariant r == Severe(clusters[..i], minimum)
    {
      assert clusters[..i + 1][..i] == clusters[..i];
      if clusters[i].severity >= minimum {
        r := r + [clusters[i]];
      }
    }
    assert clusters[..|clusters|] == clusters;
  }

  // ---- what belongs on the ladder, label by label

  /** The first zones of some clusters. */
  function Zones(earth: Earth, clusters: seq<Cluster>, limit: nat): seq<Zone> {
    AtMost(Drawn(earth, clusters), limit)
  }

  predicate Asks(plan: Plan) {
    plan.anchors != [] || plan.zones != []
  }

  /** The anchors are the one point this far to this side. */
  predicate OnSide(earth: Earth, from: GeoPoint, heading: real, offset: int, side: Side, anchors: seq<GeoPoint>) {
    |anchors| == 1 && earth.sideways(from, heading, offset as real, if side == Left then 1 else -1) == Some(anchors[0])
  }

  predicate BluntRung(p: Plan, earth: Earth, red: seq<Cluster>, redOrange: seq<Cluster>, means: Means) {
    && means.zones && p.anchors == [] && p.zones != []
    && match p.name
       case AvoidAllRed(n) => n == |p.zones| && p.zones == Zones(earth, red, MAX_ZONES)
       case AvoidRedAndOrange(n) => n == |p.zones| && p.zones == Zones(earth, redOrange, MAX_ZONES) && |p.zones| > |red|
       case _ => false
  }

  /** From the second ring outwards a lateral anchor is guarded by the two heaviest red zones. */
  predicate LateralRung(p: Plan, earth: Earth, worst: Cluster, red: seq<Cluster>, offsets: seq<int>, means: Means)
    requires offsets != []
  {
    && means.anchors && means.anchorCapacity >= 1 && p.name.Lateral? && p.name.offset in offsets
    && p.name.guarded == (means.zones && p.name.offset != offsets[0])
    && OnSide(earth, worst.center, worst.heading, p.name.offset, p.name.side, p.anchors)
    && p.zones == if p.name.guarded then Zones(earth, red, 2) else []
  }

  function AnchorBeside(earth: Earth, c: Cluster, offset: int): seq<GeoPoint> {
    var anchor := earth.sideways(c.center, c.heading, offset as real, 1);
    if anchor.Some? then [anchor.value] else []
  }

  predicate BypassRung(p: Plan, earth: Earth, clusters: seq<Cluster>, offset: int, means: Means) {
    && means.zones && means.anchors && means.anchorCapacity >= 2 && |clusters| > 1
    && p.name == MultiClusterBypass && p.zones == Zones(earth, clusters, MAX_ZONES)
    && p.anchors == AnchorBeside(earth, clusters[0], offset) + AnchorBeside(earth, clusters[1], offset)
    && Asks(p)
  }

  predicate ExhaustiveRung(p: Plan, earth: Earth, clusters: seq<Cluster>, redOrange: seq<Cluster>, mode: RoutingMode,
                           means: Means) {
    && means.zones && (mode == StrictGreen || redOrange == []) && p.zones != []
    && p == Plan(AvoidEveryNonGreen(|p.zones|), [], Zones(earth, clusters, MAX_ZONES))
  }

  function Middle(request: Request): (m: GeoPoint)
    ensures m.latitude - request.origin.latitude == request.destination.latitude - m.latitude
    ensures m.longitude - request.origin.longitude == request.destination.longitude - m.longitude
  {
    GeoPoint((request.origin.latitude + request.destination.latitude) / 2.0,
             (request.origin.longitude + request.destination.longitude) / 2.0)
  }

  predicate CorridorRung(p: Plan, earth: Earth, request: Request, offsets: seq<int>, means: Means) {
    && means.anchors && means.anchorCapacity >= 1 && p.name.Corridor? && p.name.offset in offsets && p.zones == []
    && OnSide(earth, Middle(request), earth.heading(request.origin, request.destination, Middle(request)),
              p.name.offset, p.name.side, p.anchors)
  }

  predicate RelaxedRung(p: Plan, earth: Earth, clusters: seq<Cluster>, means: Means) {
    && means.zones && p.anchors == [] && p.name.AvoidWorst? && (p.name.zones == 3 || p.name.zones == 1)
    && |p.zones| == p.name.zones && p.zones == Zones(earth, clusters, p.name.zones)
  }

  /** A plan of one of the six kinds, for given severe clusters and offsets. */
  predicate RungOf(p: Plan, earth: Earth, clusters: seq<Cluster>, red: seq<Cluster>, redOrange: seq<Cluster>,
                   offsets: seq<int>, corridors: seq<int>, request: Request, means: Means) {
    && clusters != [] && offsets != []
    && (|| BluntRung(p, earth, red, redOrange, means)
        || LateralRung(p, earth, clusters[0], red, offsets, means)
        || BypassRung(p, earth, clusters, offsets[0], means)
        || ExhaustiveRung(p, earth, clusters, redOrange, request.mode, means)
        || CorridorRung(p, earth, request, corridors, means)
        || RelaxedRung(p, earth, clusters, means))
  }

  /** Everything on the ladder over these clusters. */
  predicate Rung(p: Plan, earth: Earth, clusters: seq<Cluster>, request: Request, means: Means) {
    var span := earth.distance(request.origin, request.destination);
    RungOf(p, earth, clusters, Severe(clusters, 3), Severe(clusters, 2), Ringed(RingTargets(request), 150),
           Ringed(CorridorTargets(span, request.maxExtraDistance, CORRIDOR_FRACTIONS), 500), request, means)
  }

  lemma RungsArePlaceable(p: Plan, earth: Earth, clusters: seq<Cluster>, request: Request, means: Means)
    requires Rung(p, earth, clusters, request, means) && earth.distance(request.origin, request.destination) >= 0.0
    ensures Placeable(p.name)
  {
    var span := earth.distance(request.origin, request.destination);
    LateralsAreWide(request);
    CorridorRings(span, request.maxExtraDistance);
  }

  lemma LateralsAreWide(request: Request)
    ensures var offsets := Ringed(RingTargets(request), 150);
            offsets != [] && forall i :: 0 <= i < |offsets| ==> 400 <= offsets[i] <= 25000
  {
    LateralTargetsAreRings(LateralAllowance(request.maxExtraDistance), LATERAL_FRACTIONS);
    RingedRings(RingTargets(request), 150, 400);
  }

  // ---- building it

  /** Appends a plan that asks for something; an empty plan is left out. */
  method Add(plans: seq<Plan>, plan: Plan, ghost bound: int) returns (r: seq<Plan>)
    requires Rising(plans, bound) && bound <= Place(plan.name)
    ensures Rising(r, Place(plan.name) + 1)
    ensures forall p :: p in r <==> p in plans || (p == plan && Asks(plan))
  {
    r := plans;
    if |plan.zones| > 0 || |plan.anchors| > 0 {
      r := plans + [plan];
    }
  }

  /** A plan through an anchor on one side, if the anchor exists. */
  method AddSide(earth: Earth, plans: seq<Plan>, from: GeoPoint, heading: real, offset: int, side: Side, name: Label,
                 zones: seq<Zone>, ghost bound: int)
    returns (r: seq<Plan>)
    requires Rising(plans, bound) && bound <= Place(name)
    ensures Rising(r, Place(name) + 1)
    ensures forall p :: p in r <==>
                        || p in plans
                        || (p.name == name && p.zones == zones && OnSide(earth, from, heading, offset, side, p.anchors))
  {
    r := plans;
    RisingRaises(plans, bound, Place(name) + 1);
    var anchor := earth.sideways(from, heading, offset as real, if side == Left then 1 else -1);
    if anchor.Some? {
      r := Add(plans, Plan(name, [anchor.value], zones), bound);
    }
  }

  method BluntPlans(earth: Earth, red: seq<Cluster>, redOrange: seq<Cluster>, means: Means) returns (r: seq<Plan>)
    ensures Rising(r, 2) && forall p :: p in r <==> BluntRung(p, earth, red, redOrange, means)
  {
    r := [];
    if means.zones {
      var zones := ZonesFor(earth, red, MAX_ZONES);
      if |zones| > 0 {
        r := Add(r, Plan(AvoidAllRed(|zones|), [], zones), 0);
      }
      RisingRaises(r, if |zones| > 0 then 1 else 0, 1);
      var more := ZonesFor(earth, redOrange, MAX_ZONES);
      if |more| > |red| {
        r := Add(r, Plan(AvoidRedAndOrange(|more|), [], more), 1);
      }
      RisingRaises(r, if |more| > |red| then 2 else 1, 2);
    }
  }

  /** Two anchors, one on each side of the worst cluster, for every ring of offsets. */
  method LateralPlans(earth: Earth, plans: seq<Plan>, worst: Cluster, red: seq<Cluster>, offsets: seq<int>,
                      means: Means)
    returns (r: seq<Plan>)
    requires Rising(plans, 2) && offsets != [] && means.anchors && means.anchorCapacity >= 1
    requires Spread(offsets, 150) && forall i :: 0 <= i < |offsets| ==> 400 <= offsets[i] <= 25000
    ensures Rising(r, 60000)
    ensures forall p :: p in r <==> p in plans || LateralRung(p, earth, worst, red, offsets, means)
  {
    r := plans;
    ghost var bound := 2;
    for i := 0 to |offsets|
      invariant bound <= 50002 && (i < |offsets| ==> bound <= 2 * offsets[i])
      invariant Rising(r, bound)
      invariant forall p :: p in r <==> p in plans || LateralUpTo(p, earth, worst, red, offsets, means, i)
    {
      var guarded := means.zones && i >= 1;
      var zones: seq<Zone> := [];
      if guarded {
        zones := ZonesFor(earth, red, 2);
      }
      var left := AddSide(earth, r, worst.center, worst.heading, offsets[i], Left, Lateral(guarded, Left, offsets[i]),
                          zones, bound);
      var both := AddSide(earth, left, worst.center, worst.heading, offsets[i], Right,
                          Lateral(guarded, Right, offsets[i]), zones,
                          2 * offsets[i] + 1);
      forall p ensures p in both <==> p in plans || LateralUpTo(p, earth, worst, red, offsets, means, i + 1) {
        RingStep(offsets, i, p.name);
      }
      r, bound := both, 2 * offsets[i] + 2;
    }
    RisingRaises(r, bound, 60000);
    assert offsets[..|offsets|] == offsets;
  }

  ghost predicate LateralUpTo(p: Plan, earth: Earth, worst: Cluster, red: seq<Cluster>, offsets: seq<int>, means: Means,
                              i: nat)
    requires offsets != [] && i <= |offsets|
  {
    LateralRung(p, earth, worst, red, offsets, means) && p.name.offset in offsets[..i]
  }

  lemma RingStep(offsets: seq<int>, i: nat, name: Label)
    requires i < |offsets| && Spread(offsets, 150)
    ensures i >= 1 <==> offsets[i] != offsets[0]
    ensures name.Lateral? || name.Corridor? ==>
              (name.offset in offsets[..i + 1] <==> name.offset in offsets[..i] || name.offset == offsets[i])
    ensures offsets[i] in offsets
  {
    assert offsets[..i + 1] == offsets[..i] + [offsets[i]];
    assert i >= 1 ==> offsets[i] - offsets[0] >= 150;
  }

  /** One bypass of the two heaviest clusters, with every zone forbidden. */
  method BypassPlan(earth: Earth, plans: seq<Plan>, clusters: seq<Cluster>, offset: int, means: Means)
    returns (r: seq<Plan>)
    requires Rising(plans, 60000)
    ensures Rising(r, 60001) && forall p :: p in r <==> p in plans || BypassRung(p, earth, clusters, offset, means)
  {
    r := plans;
    RisingRaises(r, 60000, 60001);
    if means.zones && means.anchors && means.anchorCapacity >= 2 && |clusters| > 1 {
      var anchors: seq<GeoPoint> := [];
      for i := 0 to 2
        invariant i == 0 ==> anchors == []
        invariant i == 1 ==> anchors == AnchorBeside(earth, clusters[0], offset)
        invariant i == 2 ==>
                  anchors == AnchorBeside(earth, clusters[0], offset) + AnchorBeside(earth, clusters[1], offset)
      {
        var anchor := earth.sideways(clusters[i].center, clusters[i].heading, offset as real, 1);
        if anchor.Some? {
          anchors := anchors + [anchor.value];
        }
      }
      var zones := ZonesFor(earth, clusters, MAX_ZONES);
      r := Add(plans, Plan(MultiClusterBypass, anchors, zones), 60000);
    }
  }

  /** Forbidding every non-green stretch, where only that is left to try or the mode demands it. */
  method ExhaustivePlan(earth: Earth, plans: seq<Plan>, clusters: seq<Cluster>, redOrange: seq<Cluster>,
                        mode: RoutingMode, means: Means)
    returns (r: seq<Plan>)
    requires Rising(plans, 60001)
    ensures Rising(r, 70000) && forall p :: p in r <==>
            p in plans || ExhaustiveRung(p, earth, clusters, redOrange, mode, means)
  {
    r := plans;
    RisingRaises(r, 60001, 70000);
    if means.zones && (mode == StrictGreen || |redOrange| == 0) {
      var zones := ZonesFor(earth, clusters, MAX_ZONES);
      if |zones| > 0 {
        r := Add(plans, Plan(AvoidEveryNonGreen(|zones|), [], zones), 60001);
        RisingRaises(r, 60002, 70000);
      }
    }
  }

  /** Wide corridors off the middle of the trip. */
  method CorridorPlans(earth: Earth, plans: seq<Plan>, request: Request, means: Means, offsets: seq<int>)
    returns (r: seq<Plan>)
    requires Rising(plans, 70000) && Spread(offsets, 500) && forall i :: 0 <= i < |offsets| ==>
             3000 <= offsets[i] <= 25000
    ensures Rising(r, 150000) && forall p :: p in r <==> p in plans || CorridorRung(p, earth, request, offsets, means)
  {
    r := plans;
    RisingRaises(r, 70000, 150000);
    if !means.anchors || means.anchorCapacity < 1 {
      return;
    }
    var middle := Middle(request);
    var heading := earth.heading(request.origin, request.destination, middle);
    ghost var bound := 70000;
    for i := 0 to |offsets|
      invariant bound <= 120002 && (i < |offsets| ==> bound <= 70000 + 2 * offsets[i])
      invariant Rising(r, bound)
      invariant forall p :: p in r <==> p in plans || CorridorUpTo(p, earth, request, offsets, means, i)
    {
      var left := AddSide(earth, r, middle, heading, offsets[i], Left, Corridor(Left, offsets[i]), [], bound);
      var both := AddSide(earth, left, middle, heading, offsets[i], Right, Corridor(Right, offsets[i]), [],
                          70001 + 2 * offsets[i]);
      forall p ensures p in both <==> p in plans || CorridorUpTo(p, earth, request, offsets, means, i + 1) {
        assert offsets[..i + 1] == offsets[..i] + [offsets[i]];
      }
      r, bound := both, 70002 + 2 * offsets[i];
    }
    RisingRaises(r, bound, 150000);
    assert offsets[..|offsets|] == offsets;
  }

  ghost predicate CorridorUpTo(p: Plan, earth: Earth, request: Request, offsets: seq<int>, means: Means, i: nat)
    requires i <= |offsets|
  {
    CorridorRung(p, earth, request, offsets, means) && p.name.offset in offsets[..i]
  }

  /** The relaxation tail: only the three heaviest clusters, then only the heaviest. */
  method RelaxedPlans(earth: Earth, plans: seq<Plan>, clusters: seq<Cluster>, means: Means) returns (r: seq<Plan>)
    requires Rising(plans, 150000)
    ensures Rising(r, 200000) && forall p :: p in r <==> p in plans || RelaxedRung(p, earth, clusters, means)
  {
    r := plans;
    RisingRaises(r, 150000, 200000);
    if means.zones {
      var three := ZonesFor(earth, clusters, 3);
      if |three| == 3 {
        r := Add(plans, Plan(AvoidWorst(3), [], three), 150000);
      }
      RisingRaises(r, if |three| == 3 then 199998 else 150000, 199998);
      var one := ZonesFor(earth, clusters, 1);
      if |one| == 1 {
        r := Add(r, Plan(AvoidWorst(1), [], one), 199998);
      }
      RisingRaises(r, if |one| == 1 then 200000 else 199998, 200000);
    }
  }

  /**
    The whole ladder holds exactly the rungs, in order; so its labels are pairwise distinct.
    */
  method GreenDetourPlans(earth: Earth, clusters: seq<Cluster>, request: Request, means: Means)
    returns (plans: seq<Plan>)
    requires earth.distance(request.origin, request.destination) >= 0.0
    ensures forall p :: p in plans <==> Rung(p, earth, clusters, request, means)
    ensures Rising(plans, 200000) && InOrder(plans) && DistinctLabels(plans)
  {
    if |clusters| == 0 {
      return [];
    }
    var red := FilterClusters(clusters, 3);
    var redOrange := FilterClusters(clusters, 2);
    var blunt := BluntPlans(earth, red, redOrange, means);
    var offsets := LateralOffsets(request);
    var lateral := blunt;
    RisingRaises(lateral, 2, 60000);
    if means.anchors && means.anchorCapacity >= 1 {
      lateral := LateralPlans(earth, blunt, clusters[0], red, offsets, means);
    }
    var bypass := BypassPlan(earth, lateral, clusters, offsets[0], means);
    var exhaustive := ExhaustivePlan(earth, bypass, clusters, redOrange, request.mode, means);
    var corridors := CorridorOffsets(request, earth.distance(request.origin, request.destination));
    var wide := CorridorPlans(earth, exhaustive, request, means, corridors);
    plans := RelaxedPlans(earth, wide, clusters, means);
    forall i | 0 <= i < |plans| ensures Placeable(plans[i].name) {
      assert plans[i] in plans;
      RungsArePlaceable(plans[i], earth, clusters, request, means);
    }
    RisingIsInOrder(plans, 200000);
  }

  // ---- what every rung keeps

  /** Within the means, asking for something, and every zone clear of both endpoints. */
  ghost predicate Sound(earth: Earth, plan: Plan, request: Request, means: Means) {
    && Asks(plan)
    && (plan.anchors != [] ==> means.anchors && |plan.anchors| <= means.anchorCapacity)
    && (plan.zones != [] ==> means.zones && |plan.zones| <= MAX_ZONES)
    && (forall z :: z in plan.zones ==> KeepsClear(earth, z, request))
  }

  lemma ZonesKeepClear(earth: Earth, some: seq<Cluster>, limit: nat, clusters: seq<Cluster>, request: Request)
    requires forall c :: c in some ==> c in clusters
    requires forall c :: c in clusters ==> Clear(earth, c, request)
    ensures forall z :: z in Zones(earth, some, limit) ==> KeepsClear(earth, z, request)
  {
    forall z | z in Zones(earth, some, limit) ensures KeepsClear(earth, z, request) {
      assert z in Drawn(earth, some);
      var c :| c in some && z == ZoneAround(c);
      assert Clear(earth, c, request);
    }
  }

  lemma RungWithinMeans(p: Plan, earth: Earth, clusters: seq<Cluster>, red: seq<Cluster>, redOrange: seq<Cluster>,
                        offsets: seq<int>, corridors: seq<int>, request: Request, means: Means)
    requires RungOf(p, earth, clusters, red, redOrange, offsets, corridors, request, means)
    ensures Asks(p)
    ensures p.anchors != [] ==> means.anchors && |p.anchors| <= means.anchorCapacity
    ensures p.zones != [] ==> means.zones && |p.zones| <= MAX_ZONES
  {
  }

  lemma RungKeepsClear(p: Plan, earth: Earth, clusters: seq<Cluster>, red: seq<Cluster>, redOrange: seq<Cluster>,
                       offsets: seq<int>, corridors: seq<int>, request: Request, means: Means)
    requires RungOf(p, earth, clusters, red, redOrange, offsets, corridors, request, means)
    requires forall c :: c in red || c in redOrange ==> c in clusters
    requires forall c :: c in clusters ==> Clear(earth, c, request)
    ensures forall z :: z in p.zones ==> KeepsClear(earth, z, request)
  {
    var limit := if p.name.AvoidWorst? then p.name.zones else if p.name.Lateral? then 2 else MAX_ZONES;
    ZonesKeepClear(earth, red, limit, clusters, request);
    ZonesKeepClear(earth, redOrange, limit, clusters, request);
    ZonesKeepClear(earth, clusters, limit, clusters, request);
  }

  /** Over clusters that are clear of both endpoints, every rung is sound. */
  lemma RungIsSound(p: Plan, earth: Earth, clusters: seq<Cluster>, request: Request, means: Means)
    requires Rung(p, earth, clusters, request, means)
    requires forall c :: c in clusters ==> Clear(earth, c, request)
    ensures Sound(earth, p, request, means)
  {
    var red, redOrange, offsets := Severe(clusters, 3), Severe(clusters, 2), Ringed(RingTargets(request), 150);
    var span := earth.distance(request.origin, request.destination);
    var corridors := Ringed(CorridorTargets(span, request.maxExtraDistance, CORRIDOR_FRACTIONS), 500);
    RungWithinMeans(p, earth, clusters, red, redOrange, offsets, corridors, request, means);
    RungKeepsClear(p, earth, clusters, red, redOrange, offsets, corridors, request, means);
  }

  // ---- does the adapter take every plan?

  /** The adapter's own limit, below the ladder's. */
  const ADAPTER_ZONES := 8

  predicate AdapterAccepts(plan: Plan) {
    |plan.zones| <= ADAPTER_ZONES
  }

  /** Some rung asks for more zones than the adapter takes. */
  predicate Overfull(earth: Earth, clusters: seq<Cluster>, red: seq<Cluster>, redOrange: seq<Cluster>,
                     mode: RoutingMode,
                     means: Means) {
    var all, orange := |Drawn(earth, clusters)|, |Drawn(earth, redOrange)|;
    && means.zones && clusters != []
    && (|| |Drawn(earth, red)| > ADAPTER_ZONES
        || (orange > ADAPTER_ZONES && Min(orange, MAX_ZONES) > |red|)
        || (&& all > ADAPTER_ZONES
            && (mode == StrictGreen || redOrange == [] || (means.anchors && means.anchorCapacity >= 2))))
  }

  lemma OverfullRung(earth: Earth, clusters: seq<Cluster>, red: seq<Cluster>, redOrange: seq<Cluster>,
                     offsets: seq<int>,
                     corridors: seq<int>, request: Request, means: Means) returns (p: Plan)
    requires offsets != [] && Overfull(earth, clusters, red, redOrange, request.mode, means)
    ensures RungOf(p, earth, clusters, red, redOrange, offsets, corridors, request, means) && !AdapterAccepts(p)
  {
    var reds, oranges := Zones(earth, red, MAX_ZONES), Zones(earth, redOrange, MAX_ZONES);
    var all := Zones(earth, clusters, MAX_ZONES);
    if |reds| > ADAPTER_ZONES {
      p := Plan(AvoidAllRed(|reds|), [], reds);
      assert BluntRung(p, earth, red, redOrange, means);
    } else if |oranges| > ADAPTER_ZONES && |oranges| > |red| {
      p := Plan(AvoidRedAndOrange(|oranges|), [], oranges);
      assert BluntRung(p, earth, red, redOrange, means);
    } else if request.mode == StrictGreen || redOrange == [] {
      p := Plan(AvoidEveryNonGreen(|all|), [], all);
      assert ExhaustiveRung(p, earth, clusters, redOrange, request.mode, means);
    } else {
      var anchors := AnchorBeside(earth, clusters[0], offsets[0]) + AnchorBeside(earth, clusters[1], offsets[0]);
      p := Plan(MultiClusterBypass, anchors, all);
      assert BypassRung(p, earth, clusters, offsets[0], means);
    }
  }

  lemma RefusedRungIsOverfull(p: Plan, earth: Earth, clusters: seq<Cluster>, red: seq<Cluster>, redOrange: seq<Cluster>,
                              offsets: seq<int>, corridors: seq<int>, request: Request, means: Means)
    requires RungOf(p, earth, clusters, red, redOrange, offsets, corridors, request, means) && !AdapterAccepts(p)
    ensures Overfull(earth, clusters, red, redOrange, request.mode, means)
  {
  }

  /**
    The adapter takes every plan of the ladder if and only if no rung is overfull: too many
    drawable red zones, too many with orange ones where these add any, or too many in all
    where all are forbidden at once.
    */
  lemma AdapterAcceptsLadder(earth: Earth, clusters: seq<Cluster>, request: Request, means: Means)
    ensures (forall p :: Rung(p, earth, clusters, request, means) ==> AdapterAccepts(p)) <==>
            !Overfull(earth, clusters, Severe(clusters, 3), Severe(clusters, 2), request.mode, means)
  {
    var red, redOrange, offsets := Severe(clusters, 3), Severe(clusters, 2), Ringed(RingTargets(request), 150);
    var span := earth.distance(request.origin, request.destination);
    var corridors := Ringed(CorridorTargets(span, request.maxExtraDistance, CORRIDOR_FRACTIONS), 500);
    LateralsAreWide(request);
    if Overfull(earth, clusters, red, redOrange, request.mode, means) {
      var p := OverfullRung(earth, clusters, red, redOrange, offsets, corridors, request, means);
      assert Rung(p, earth, clusters, request, means);
    } else {
      forall p | Rung(p, earth, clusters, request, means) ensures AdapterAccepts(p) {
        if !AdapterAccepts(p) {
          RefusedRungIsOverfull(p, earth, clusters, red, redOrange, offsets, corridors, request, means);
        }
      }
    }
  }

  lemma {:induction false} AllAreDrawn(earth: Earth, clusters: seq<Cluster>)
    requires forall c :: c in clusters ==> earth.drawable(ZoneAround(c).center, ZoneAround(c).radius)
    ensures |Drawn(earth, clusters)| == |clusters|
  {
    if clusters != [] {
      AllAreDrawn(earth, clusters[..|clusters| - 1]);
    }
  }

  lemma {:induction false} AllAreSevere(clusters: seq<Cluster>, minimum: int)
    requires forall c :: c in clusters ==> c.severity >= minimum
    ensures Severe(clusters, minimum) == clusters
  {
    if clusters != [] {
      var front, last := clusters[..|clusters| - 1], clusters[|clusters| - 1];
      assert clusters == front + [last] && last in clusters;
      AllAreSevere(front, minimum);
    }
  }

  /** Nine red stretches that can be drawn: the first plan of the ladder is refused by the adapter. */
  lemma NineZonesAreRefused(earth: Earth, clusters: seq<Cluster>, request: Request, means: Means) returns (p: Plan)
    requires means.zones && |clusters| == 9
    requires forall c :: c in clusters ==> c.severity == 3 && earth.drawable(ZoneAround(c).center, ZoneAround(c).radius)
    ensures Rung(p, earth, clusters, request, means) && !AdapterAccepts(p)
  {
    AllAreDrawn(earth, clusters);
    AllAreSevere(clusters, 3);
    AdapterAcceptsLadder(earth, clusters, request, means);
    p :| Rung(p, earth, clusters, request, means) && !AdapterAccepts(p);
  }

  /** The first plan of the ladder that was not tried; none if and only if all were. */
  method NextUntriedPlan(plans: seq<Plan>, tried: set<Label>) returns (plan: Option<Plan>)
    ensures plan.None? <==> forall i :: 0 <= i < |plans| ==> plans[i].name in tried
    ensures plan.Some? ==>
              exists k :: && 0 <= k < |plans| && plans[k] == plan.value && plan.value.name !in tried
                          && forall i :: 0 <= i < k ==> plans[i].name in tried
  {
    for i := 0 to |plans|
      invariant forall k :: 0 <= k < i ==> plans[k].name in tried
    {
      if plans[i].name !in tried {
        return Some(plans[i]);
      }
    }
    return None;
  }
}
