/**
  Congestion clusters: the non-green stretches seen on any candidate, merged when they are
  close, kept clear of both ends of the trip and ordered by weight. Distances and headings
  on the globe are parameters.
  */
module Clusters {
  import opened Domain
  import opened Sorting

  const MIN_RADIUS := 180.0
  const MAX_RADIUS := 2500.0
  const ZONE_BUFFER := 160.0
  const MERGE_DISTANCE := 420.0
  const ENDPOINT_PROTECTION := 700.0

  /** The geography the search relies on. */
  datatype Earth = Earth(
    distance: (GeoPoint, GeoPoint) -> real,
    heading: (GeoPoint, GeoPoint, GeoPoint) -> real,              // from, to, and the point that fixes the scale
    sideways: (GeoPoint, real, real, int) -> Option<GeoPoint>,    // point, heading, offset, side; may leave the globe
    drawable: (GeoPoint, real) -> bool)                           // the octagon around a point stays on the globe

  datatype Cluster = Cluster(
    center: GeoPoint, heading: real, radius: real, distance: int, lost: int, severity: int, weight: real)

  function Severity(congestion: CongestionClass): int {
    match congestion
    case Red => 3
    case Orange => 2
    case Yellow => 1
    case _ => 0
  }

  // ---- the clusters of one candidate

  /** The segment belongs to a congested stretch. */
  predicate Congested(segment: Segment, minimum: int) {
    Severity(segment.congestion) >= minimum && |segment.geometry| >= 2
  }

  function CongestedDistance(segments: seq<Segment>, minimum: int): int {
    if segments == [] then 0
    else
      var last := segments[|segments| - 1];
      CongestedDistance(segments[..|segments| - 1], minimum)
      + if Congested(last, minimum) then Max(0, last.distance) else 0
  }

  function SumDistance(clusters: seq<Cluster>): int {
    if clusters == [] then 0 else SumDistance(clusters[..|clusters| - 1]) + clusters[|clusters| - 1].distance
  }

  predicate WellFormed(c: Cluster) {
    MIN_RADIUS <= c.radius <= MAX_RADIUS && c.distance > 0
  }

  ghost predicate AllWellFormed(clusters: seq<Cluster>) {
    forall i :: 0 <= i < |clusters| ==> WellFormed(clusters[i])
  }

  /** Every point lies in the circle, unless its radius is capped. */
  ghost predicate Encloses(earth: Earth, center: GeoPoint, radius: real, points: seq<GeoPoint>) {
    radius == MAX_RADIUS || forall p :: p in points ==> earth.distance(center, p) <= radius
  }

  /** The cluster is as severe and as long as the segment and encloses it. */
  ghost predicate Covers(earth: Earth, c: Cluster, segment: Segment) {
    && c.severity >= Severity(segment.congestion) && c.distance >= segment.distance
    && Encloses(earth, c.center, c.radius, segment.geometry)
  }

  /** The totals of consecutive congested segments. */
  datatype Stretch = Stretch(points: seq<GeoPoint>, distance: int, lost: int, severity: int)

  function Extend(stretch: Stretch, segment: Segment): Stretch {
    Stretch(stretch.points + segment.geometry, stretch.distance + Max(0, segment.distance),
            stretch.lost + (if segment.baseline > 0 then Max(0, segment.live - segment.baseline) else 0),
            Max(stretch.severity, Severity(segment.congestion)))
  }

  function StretchOf(segments: seq<Segment>): Stretch {
    if segments == [] then Stretch([], 0, 0, 0)
    else Extend(StretchOf(segments[..|segments| - 1]), segments[|segments| - 1])
  }

  /** A stretch has the points of each of its segments and is at least as long and as severe. */
  lemma {:induction false} StretchHolds(segments: seq<Segment>, j: nat)
    requires j < |segments|
    ensures var t := StretchOf(segments);
            && t.severity >= Severity(segments[j].congestion) && t.distance >= segments[j].distance && t.distance >= 0
            && forall p :: p in segments[j].geometry ==> p in t.points
  {
    var front := segments[..|segments| - 1];
    StretchIsLong(front);
    if j < |front| {
      StretchHolds(front, j);
    }
  }

  lemma {:induction false} StretchIsLong(segments: seq<Segment>)
    ensures StretchOf(segments).distance >= 0 && StretchOf(segments).severity >= 0
  {
    if segments != [] {
      StretchIsLong(segments[..|segments| - 1]);
    }
  }

  lemma StretchHasPoints(segments: seq<Segment>)
    requires segments != [] && |segments[|segments| - 1].geometry| >= 2
    ensures |StretchOf(segments).points| >= 2
  {
  }

  /** segments[a..b] is a whole congested stretch: it cannot be extended to either side. */
  ghost predicate Maximal(segments: seq<Segment>, minimum: int, a: nat, b: nat) {
    && a < b <= |segments| && (forall k :: a <= k < b ==> Congested(segments[k], minimum))
    && (a > 0 ==> !Congested(segments[a - 1], minimum)) && (b < |segments| ==> !Congested(segments[b], minimum))
  }

  /**
    The cluster is made of that stretch: its centre is the middle point, its heading that of
    the whole stretch, its circle the smallest around the centre that encloses it, between
    180 m and 2500 m, and its totals are the stretch's.
    */
  ghost predicate MadeOf(earth: Earth, c: Cluster, stretch: Stretch) {
    && c.distance == stretch.distance && c.lost == stretch.lost && c.severity == stretch.severity
    && var points := stretch.points;
    && points != [] && c.center == points[|points| / 2]
    && c.heading == earth.heading(points[0], points[|points| - 1], c.center)
    && Encloses(earth, c.center, c.radius, points)
    && (c.radius > MIN_RADIUS ==> exists p :: p in points && c.radius <= earth.distance(c.center, p))
    && c.weight == stretch.severity as real * 10000.0 + stretch.distance as real + stretch.lost as real * 20.0
  }

  ghost predicate FromStretch(earth: Earth, c: Cluster, segments: seq<Segment>, minimum: int) {
    exists a: nat, b: nat {:trigger Maximal(segments, minimum, a, b)} ::
      Maximal(segments, minimum, a, b) && MadeOf(earth, c, StretchOf(segments[a..b]))
  }

  /** The cluster is made of the whole stretch that segment j belongs to. */
  ghost predicate Holds(earth: Earth, c: Cluster, segments: seq<Segment>, minimum: int, j: nat) {
    exists a: nat, b: nat {:trigger Maximal(segments, minimum, a, b)} ::
      Maximal(segments, minimum, a, b) && a <= j < b && MadeOf(earth, c, StretchOf(segments[a..b]))
  }

  lemma HoldsCovers(earth: Earth, c: Cluster, segments: seq<Segment>, minimum: int, j: nat)
    requires Holds(earth, c, segments, minimum, j)
    ensures j < |segments| && Covers(earth, c, segments[j])
  {
    var a: nat, b: nat :| Maximal(segments, minimum, a, b) && a <= j < b && MadeOf(earth, c, StretchOf(segments[a..b]));
    StretchHolds(segments[a..b], j - a);
  }

  ghost predicate Covered(earth: Earth, clusters: seq<Cluster>, segments: seq<Segment>, minimum: int, j: nat) {
    exists i :: 0 <= i < |clusters| && Holds(earth, clusters[i], segments, minimum, j)
  }

  lemma CoveredStays(earth: Earth, clusters: seq<Cluster>, more: seq<Cluster>, segments: seq<Segment>, minimum: int,
                     j: nat)
    requires Covered(earth, clusters, segments, minimum, j) && forall i :: 0 <= i < |clusters| ==> clusters[i] in more
    ensures Covered(earth, more, segments, minimum, j)
  {
    var i :| 0 <= i < |clusters| && Holds(earth, clusters[i], segments, minimum, j);
    var k :| 0 <= k < |more| && more[k] == clusters[i];
  }

  /** Every congested segment of positive length before end has the cluster of its stretch. */
  ghost predicate AllCovered(earth: Earth, clusters: seq<Cluster>, segments: seq<Segment>, end: nat, minimum: int)
    requires end <= |segments|
  {
    forall j: nat {:trigger Covered(earth, clusters, segments, minimum, j)} ::
      (j < end && Congested(segments[j], minimum) && segments[j].distance > 0) ==>
        Covered(earth, clusters, segments, minimum, j)
  }

  ghost predicate AllFromStretches(earth: Earth, clusters: seq<Cluster>, segments: seq<Segment>, minimum: int) {
    && (forall i :: 0 <= i < |clusters| ==> WellFormed(clusters[i]))
    && (forall i {:trigger FromStretch(earth, clusters[i], segments, minimum)} ::
          0 <= i < |clusters| ==> FromStretch(earth, clusters[i], segments, minimum))
  }

  // ---- from a stretch to a cluster

  function Farthest(earth: Earth, center: GeoPoint, points: seq<GeoPoint>): real {
    if points == [] then 0.0
    else RealMax(Farthest(earth, center, points[..|points| - 1]), earth.distance(center, points[|points| - 1]))
  }

  lemma {:induction false} FarthestBounds(earth: Earth, center: GeoPoint, points: seq<GeoPoint>)
    ensures forall p :: p in points ==> earth.distance(center, p) <= Farthest(earth, center, points)
    ensures Farthest(earth, center, points) > 0.0 ==>
              exists p :: p in points && Farthest(earth, center, points) == earth.distance(center, p)
  {
    if points != [] {
      FarthestBounds(earth, center, points[..|points| - 1]);
      assert points == points[..|points| - 1] + [points[|points| - 1]];
    }
  }

  function ClusterOf(earth: Earth, stretch: Stretch): Cluster
    requires stretch.points != []
  {
    var points := stretch.points;
    var center := points[|points| / 2];
    Cluster(center, earth.heading(points[0], points[|points| - 1], center),
            RealMax(MIN_RADIUS, RealMin(MAX_RADIUS, Farthest(earth, center, points))),
            stretch.distance, stretch.lost, stretch.severity,
            stretch.severity as real * 10000.0 + stretch.distance as real + stretch.lost as real * 20.0)
  }

  lemma ClusterIsMadeOf(earth: Earth, stretch: Stretch)
    requires stretch.points != []
    ensures MadeOf(earth, ClusterOf(earth, stretch), stretch)
    ensures MIN_RADIUS <= ClusterOf(earth, stretch).radius <= MAX_RADIUS
  {
    FarthestBounds(earth, ClusterOf(earth, stretch).center, stretch.points);
  }

  method NewCluster(earth: Earth, stretch: Stretch) returns (c: Cluster)
    requires stretch.points != []
    ensures c == ClusterOf(earth, stretch)
    ensures MadeOf(earth, c, stretch) && MIN_RADIUS <= c.radius <= MAX_RADIUS
  {
    var points := stretch.points;
    var center := points[|points| / 2];
    var radius := 0.0;
    for i := 0 to |points|
      invariant radius == Farthest(earth, center, points[..i])
    {
      assert points[..i + 1][..i] == points[..i];
      radius := RealMax(radius, earth.distance(center, points[i]));
    }
    assert points[..|points|] == points;
    ClusterIsMadeOf(earth, stretch);
    c := Cluster(center, earth.heading(points[0], points[|points| - 1], center),
                 RealMax(MIN_RADIUS, RealMin(MAX_RADIUS, radius)),
                 stretch.distance, stretch.lost, stretch.severity,
                 stretch.severity as real * 10000.0 + stretch.distance as real + stretch.lost as real * 20.0);
  }

  // ---- the scan

  const NO_STRETCH := Stretch([], 0, 0, 0)

  /** The clusters closed so far and the stretch still open. */
  datatype Scan = Scan(clusters: seq<Cluster>, stretch: Stretch)

  /** Closing a stretch makes it a cluster, unless it has no length. */
  function Close(earth: Earth, scan: Scan): seq<Cluster> {
    if |scan.stretch.points| >= 2 && scan.stretch.distance > 0 then scan.clusters + [ClusterOf(earth, scan.stretch)]
    else scan.clusters
  }

  function ScanOf(earth: Earth, segments: seq<Segment>, minimum: int): Scan {
    if segments == [] then Scan([], NO_STRETCH)
    else
      var scan, last := ScanOf(earth, segments[..|segments| - 1], minimum), segments[|segments| - 1];
      if Congested(last, minimum) then Scan(scan.clusters, Extend(scan.stretch, last))
      else Scan(Close(earth, scan), NO_STRETCH)
  }

  function ClustersOf(earth: Earth, segments: seq<Segment>, minimum: int): seq<Cluster> {
    Close(earth, ScanOf(earth, segments, minimum))
  }

  method CandidateClusters(earth: Earth, segments: seq<Segment>, minimum: int) returns (clusters: seq<Cluster>)
    ensures clusters == ClustersOf(earth, segments, minimum)
    ensures AllCovered(earth, clusters, segments, |segments|, minimum)
    ensures AllFromStretches(earth, clusters, segments, minimum)
    ensures SumDistance(clusters) == CongestedDistance(segments, minimum)
  {
    clusters := [];
    var stretch := NO_STRETCH;
    for i := 0 to |segments|
      invariant Scan(clusters, stretch) == ScanOf(earth, segments[..i], minimum)
    {
      assert segments[..i + 1][..i] == segments[..i];
      if !Congested(segments[i], minimum) {
        clusters := Flush(earth, clusters, stretch);
        stretch := NO_STRETCH;
      } else {
        stretch := Extend(stretch, segments[i]);
      }
    }
    assert segments[..|segments|] == segments;
    clusters := Flush(earth, clusters, stretch);
    StretchesBecomeClusters(earth, segments, minimum);
  }

  method Flush(earth: Earth, clusters: seq<Cluster>, stretch: Stretch) returns (r: seq<Cluster>)
    ensures r == Close(earth, Scan(clusters, stretch))
  {
    r := clusters;
    if |stretch.points| >= 2 && stretch.distance > 0 {
      var c := NewCluster(earth, stretch);
      r := clusters + [c];
    }
  }

  // ---- what the scan finds

  /** The stretch that is open at index i. */
  ghost predicate OpenStretch(segments: seq<Segment>, minimum: int, start: nat, i: nat, stretch: Stretch) {
    && start <= i <= |segments| && stretch == StretchOf(segments[start..i])
    && (forall k :: start <= k < i ==> Congested(segments[k], minimum))
    && (start > 0 ==> !Congested(segments[start - 1], minimum))
  }

  lemma StretchGrows(segments: seq<Segment>, minimum: int, start: nat, i: nat, stretch: Stretch)
    requires OpenStretch(segments, minimum, start, i, stretch) && i < |segments| && Congested(segments[i], minimum)
    ensures OpenStretch(segments, minimum, start, i + 1, Extend(stretch, segments[i]))
  {
    var longer := segments[start..i + 1];
    assert longer[..|longer| - 1] == segments[start..i] && longer[|longer| - 1] == segments[i];
  }

  lemma ClosedStretchCovers(earth: Earth, clusters: seq<Cluster>, c: Cluster, segments: seq<Segment>, a: nat, b: nat,
                            minimum: int)
    requires Maximal(segments, minimum, a, b) && MadeOf(earth, c, StretchOf(segments[a..b])) && WellFormed(c)
    requires AllCovered(earth, clusters, segments, a, minimum) && AllFromStretches(earth, clusters, segments, minimum)
    ensures AllCovered(earth, clusters + [c], segments, b, minimum)
    ensures AllFromStretches(earth, clusters + [c], segments, minimum)
  {
    var r := clusters + [c];
    forall j: nat | j < b && Congested(segments[j], minimum) && segments[j].distance > 0
      ensures Covered(earth, r, segments, minimum, j)
    {
      if j < a {
        assert Covered(earth, clusters, segments, minimum, j);
        CoveredStays(earth, clusters, r, segments, minimum, j);
      } else {
        assert Holds(earth, c, segments, minimum, j);
        assert r[|clusters|] == c;
      }
    }
    assert FromStretch(earth, c, segments, minimum);
    forall i | 0 <= i < |r| ensures FromStretch(earth, r[i], segments, minimum) {
      assert i < |clusters| ==> FromStretch(earth, clusters[i], segments, minimum);
    }
  }

  lemma EmptyStretchCovers(earth: Earth, clusters: seq<Cluster>, segments: seq<Segment>, a: nat, b: nat, minimum: int)
    requires a <= b <= |segments| && AllCovered(earth, clusters, segments, a, minimum)
    requires StretchOf(segments[a..b]).distance == 0
    ensures AllCovered(earth, clusters, segments, b, minimum)
  {
    forall j: nat | j < b && Congested(segments[j], minimum) && segments[j].distance > 0
      ensures Covered(earth, clusters, segments, minimum, j)
    {
      if a <= j {
        StretchHolds(segments[a..b], j - a);
      }
    }
  }

  /** What is known when the stretch from start is open at i. */
  ghost predicate Scanned(earth: Earth, scan: Scan, segments: seq<Segment>, minimum: int, start: nat, i: nat) {
    && OpenStretch(segments, minimum, start, i, scan.stretch)
    && AllCovered(earth, scan.clusters, segments, start, minimum)
    && AllFromStretches(earth, scan.clusters, segments, minimum)
    && SumDistance(scan.clusters) + scan.stretch.distance == CongestedDistance(segments[..i], minimum)
  }

  lemma SumAppend(clusters: seq<Cluster>, c: Cluster)
    ensures SumDistance(clusters + [c]) == SumDistance(clusters) + c.distance
  {
    assert (clusters + [c])[..|clusters|] == clusters;
  }

  /** Closing at a segment that is not congested, or at the end. */
  lemma CloseKeeps(earth: Earth, scan: Scan, segments: seq<Segment>, minimum: int, start: nat, i: nat)
    requires Scanned(earth, scan, segments, minimum, start, i) && (i < |segments| ==> !Congested(segments[i], minimum))
    ensures var r := Close(earth, scan);
            && AllCovered(earth, r, segments, i, minimum) && AllFromStretches(earth, r, segments, minimum)
            && SumDistance(r) == CongestedDistance(segments[..i], minimum)
  {
    var stretch := scan.stretch;
    StretchIsLong(segments[start..i]);
    if start < i {
      StretchHasPoints(segments[start..i]);
    }
    if |stretch.points| >= 2 && stretch.distance > 0 {
      ClusterIsMadeOf(earth, stretch);
      SumAppend(scan.clusters, ClusterOf(earth, stretch));
      ClosedStretchCovers(earth, scan.clusters, ClusterOf(earth, stretch), segments, start, i, minimum);
    } else {
      EmptyStretchCovers(earth, scan.clusters, segments, start, i, minimum);
    }
  }

  lemma CongestedStep(segments: seq<Segment>, minimum: int, i: nat)
    requires i < |segments|
    ensures CongestedDistance(segments[..i + 1], minimum) ==
            CongestedDistance(segments[..i], minimum)
            + if Congested(segments[i], minimum) then Max(0, segments[i].distance) else 0
  {
    assert segments[..i + 1][..i] == segments[..i];
  }

  lemma ScanStep(earth: Earth, scan: Scan, segments: seq<Segment>, minimum: int, start: nat, i: nat) returns (next: nat)
    requires i < |segments| && Scanned(earth, scan, segments, minimum, start, i)
    ensures var after := if Congested(segments[i], minimum) then Scan(scan.clusters, Extend(scan.stretch, segments[i]))
                         else Scan(Close(earth, scan), NO_STRETCH);
            Scanned(earth, after, segments, minimum, next, i + 1)
  {
    CongestedStep(segments, minimum, i);
    if Congested(segments[i], minimum) {
      next := start;
      StretchGrows(segments, minimum, start, i, scan.stretch);
    } else {
      next := i + 1;
      CloseKeeps(earth, scan, segments, minimum, start, i);
      assert segments[next..i + 1] == [];
      NextSegmentIsFree(earth, Close(earth, scan), segments, i, minimum);
    }
  }

  lemma NextSegmentIsFree(earth: Earth, clusters: seq<Cluster>, segments: seq<Segment>, i: nat, minimum: int)
    requires i < |segments| && !Congested(segments[i], minimum) && AllCovered(earth, clusters, segments, i, minimum)
    ensures AllCovered(earth, clusters, segments, i + 1, minimum)
  {
  }

  lemma {:induction false} ScanFinds(earth: Earth, segments: seq<Segment>, minimum: int, i: nat) returns (start: nat)
    requires i <= |segments|
    ensures Scanned(earth, ScanOf(earth, segments[..i], minimum), segments, minimum, start, i)
  {
    if i == 0 {
      start := 0;
    } else {
      var before := ScanFinds(earth, segments, minimum, i - 1);
      assert segments[..i][..i - 1] == segments[..i - 1];
      start := ScanStep(earth, ScanOf(earth, segments[..i - 1], minimum), segments, minimum, before, i - 1);
    }
  }

  /**
    One cluster per congested stretch: together they have exactly the congested length, each
    is made of a whole stretch, and every congested segment of positive length has the
    cluster of its stretch.
    */
  lemma StretchesBecomeClusters(earth: Earth, segments: seq<Segment>, minimum: int)
    ensures var clusters := ClustersOf(earth, segments, minimum);
            && AllCovered(earth, clusters, segments, |segments|, minimum)
            && AllFromStretches(earth, clusters, segments, minimum)
            && SumDistance(clusters) == CongestedDistance(segments, minimum)
  {
    var start := ScanFinds(earth, segments, minimum, |segments|);
    assert segments[..|segments|] == segments;
    CloseKeeps(earth, ScanOf(earth, segments, minimum), segments, minimum, start, |segments|);
  }

  // ---- merging

  /** m stands for c: near it and at least as large, long, slow, severe and heavy. */
  ghost predicate StandsFor(earth: Earth, m: Cluster, c: Cluster) {
    && earth.distance(m.center, c.center) <= RealMax(MERGE_DISTANCE, m.radius)
    && m.radius >= c.radius && m.distance >= c.distance && m.lost >= c.lost
    && m.severity >= c.severity && m.weight >= c.weight
  }

  ghost predicate Represented(earth: Earth, merged: seq<Cluster>, c: Cluster) {
    exists i :: 0 <= i < |merged| && StandsFor(earth, merged[i], c)
  }

  /** No value of a merged cluster is invented: each comes from some cluster it absorbed. */
  ghost predicate Attained(m: Cluster, clusters: seq<Cluster>) {
    && (exists c :: c in clusters && c.center == m.center)
    && (exists c :: c in clusters && c.radius == m.radius)
    && (exists c :: c in clusters && c.distance == m.distance)
    && (exists c :: c in clusters && c.lost == m.lost)
    && (exists c :: c in clusters && c.severity == m.severity && c.heading == m.heading)
    && (exists c :: c in clusters && c.weight == m.weight)
  }

  ghost predicate Separated(earth: Earth, merged: seq<Cluster>) {
    forall i, j :: 0 <= i < j < |merged| ==> earth.distance(merged[i].center, merged[j].center) > MERGE_DISTANCE
  }

  predicate Near(earth: Earth, m: Cluster, c: Cluster) {
    earth.distance(m.center, c.center) <= RealMax(MERGE_DISTANCE, m.radius)
  }

  /** The merged cluster after absorbing one more. */
  function Absorb(m: Cluster, c: Cluster): Cluster {
    Cluster(m.center, if c.severity > m.severity then c.heading else m.heading,
            RealMin(MAX_RADIUS, RealMax(m.radius, c.radius)), Max(m.distance, c.distance), Max(m.lost, c.lost),
            Max(m.severity, c.severity), RealMax(m.weight, c.weight))
  }

  ghost predicate AllAttained(merged: seq<Cluster>, clusters: seq<Cluster>) {
    && (forall i :: 0 <= i < |merged| ==> WellFormed(merged[i]))
    && (forall i {:trigger Attained(merged[i], clusters)} :: 0 <= i < |merged| ==> Attained(merged[i], clusters))
  }

  ghost predicate AllRepresented(earth: Earth, merged: seq<Cluster>, clusters: seq<Cluster>) {
    forall i {:trigger Represented(earth, merged, clusters[i])} ::
      0 <= i < |clusters| ==> Represented(earth, merged, clusters[i])
  }

  /** merged is what the clusters became. */
  ghost predicate Merges(earth: Earth, merged: seq<Cluster>, clusters: seq<Cluster>) {
    && |merged| <= |clusters| && Separated(earth, merged)
    && AllAttained(merged, clusters) && AllRepresented(earth, merged, clusters)
  }

  lemma AttainedStays(m: Cluster, clusters: seq<Cluster>, c: Cluster)
    requires Attained(m, clusters)
    ensures Attained(m, clusters + [c])
  {
    var more := clusters + [c];
    assert forall d :: d in clusters ==> d in more;
  }

  lemma AbsorbIsAttained(m: Cluster, clusters: seq<Cluster>, c: Cluster)
    requires Attained(m, clusters) && m.radius <= MAX_RADIUS && c.radius <= MAX_RADIUS
    ensures Attained(Absorb(m, c), clusters + [c])
  {
    AttainedStays(m, clusters, c);
    assert c in clusters + [c];
  }

  lemma AbsorbStands(earth: Earth, m: Cluster, c: Cluster, d: Cluster)
    requires m.radius <= MAX_RADIUS && c.radius <= MAX_RADIUS
    ensures StandsFor(earth, m, d) ==> StandsFor(earth, Absorb(m, c), d)
    ensures Near(earth, m, c) ==> StandsFor(earth, Absorb(m, c), c)
  {
  }

  lemma AbsorbRepresents(earth: Earth, merged: seq<Cluster>, c: Cluster, k: nat, d: Cluster)
    requires k < |merged| && merged[k].radius <= MAX_RADIUS && c.radius <= MAX_RADIUS && Near(earth, merged[k], c)
    requires d == c || Represented(earth, merged, d)
    ensures Represented(earth, merged[k := Absorb(merged[k], c)], d)
  {
    var r := merged[k := Absorb(merged[k], c)];
    AbsorbStands(earth, merged[k], c, d);
    if d == c {
      assert StandsFor(earth, r[k], c);
    } else {
      var i :| 0 <= i < |merged| && StandsFor(earth, merged[i], d);
      assert StandsFor(earth, r[i], d);
    }
  }

  lemma AbsorbSound(merged: seq<Cluster>, clusters: seq<Cluster>, c: Cluster, k: nat, i: nat)
    requires k < |merged| && i < |merged| && WellFormed(c)
    requires WellFormed(merged[i]) && Attained(merged[i], clusters)
    ensures var m := merged[k := Absorb(merged[k], c)][i]; WellFormed(m) && Attained(m, clusters + [c])
  {
    if i == k { AbsorbIsAttained(merged[k], clusters, c); } else { AttainedStays(merged[i], clusters, c); }
  }

  lemma AbsorbMerges(earth: Earth, merged: seq<Cluster>, clusters: seq<Cluster>, c: Cluster, k: nat)
    requires Merges(earth, merged, clusters) && k < |merged| && Near(earth, merged[k], c) && WellFormed(c)
    ensures Merges(earth, merged[k := Absorb(merged[k], c)], clusters + [c])
  {
    var r, more := merged[k := Absorb(merged[k], c)], clusters + [c];
    assert AllRepresented(earth, r, more) by {
      forall i | 0 <= i < |more| ensures Represented(earth, r, more[i]) {
        assert i < |clusters| ==> Represented(earth, merged, clusters[i]);
        AbsorbRepresents(earth, merged, c, k, more[i]);
      }
    }
    assert AllAttained(r, more) by {
      forall i | 0 <= i < |r| ensures WellFormed(r[i]) && Attained(r[i], more) {
        assert Attained(merged[i], clusters);
        AbsorbSound(merged, clusters, c, k, i);
      }
    }
    assert forall i :: 0 <= i < |r| ==> r[i].center == merged[i].center;
  }

  lemma AppendRepresents(earth: Earth, merged: seq<Cluster>, c: Cluster, d: Cluster)
    requires d == c || Represented(earth, merged, d)
    requires earth.distance(c.center, c.center) <= MERGE_DISTANCE
    ensures Represented(earth, merged + [c], d)
  {
    var r := merged + [c];
    if d == c {
      assert StandsFor(earth, r[|merged|], c);
    } else {
      var i :| 0 <= i < |merged| && StandsFor(earth, merged[i], d);
      assert StandsFor(earth, r[i], d);
    }
  }

  lemma AppendAttained(merged: seq<Cluster>, clusters: seq<Cluster>, c: Cluster)
    requires AllAttained(merged, clusters) && WellFormed(c)
    ensures AllAttained(merged + [c], clusters + [c])
  {
    var r, more := merged + [c], clusters + [c];
    forall i | 0 <= i < |r| ensures WellFormed(r[i]) && Attained(r[i], more) {
      assert c in more;
      assert i < |merged| ==> Attained(merged[i], clusters);
      if i < |merged| { AttainedStays(merged[i], clusters, c); }
    }
  }

  lemma AppendMerges(earth: Earth, merged: seq<Cluster>, clusters: seq<Cluster>, c: Cluster)
    requires Merges(earth, merged, clusters) && WellFormed(c)
    requires forall i :: 0 <= i < |merged| ==> !Near(earth, merged[i], c)
    requires earth.distance(c.center, c.center) <= MERGE_DISTANCE
    ensures Merges(earth, merged + [c], clusters + [c])
  {
    var r, more := merged + [c], clusters + [c];
    assert AllRepresented(earth, r, more) by {
      forall i | 0 <= i < |more| ensures Represented(earth, r, more[i]) {
        assert i < |clusters| ==> Represented(earth, merged, clusters[i]);
        AppendRepresents(earth, merged, c, more[i]);
      }
    }
    AppendAttained(merged, clusters, c);
  }

  /** Every point is at distance zero from itself. */
  ghost predicate Reflexive(earth: Earth) {
    forall p :: earth.distance(p, p) == 0.0
  }

  /** The first merged cluster near c from index k on; the length when there is none. */
  function FirstNear(earth: Earth, merged: seq<Cluster>, c: Cluster, k: nat): (n: nat)
    requires k <= |merged|
    ensures k <= n <= |merged| && (n < |merged| ==> Near(earth, merged[n], c))
    ensures forall i :: k <= i < n ==> !Near(earth, merged[i], c)
    decreases |merged| - k
  {
    if k == |merged| || Near(earth, merged[k], c) then k else FirstNear(earth, merged, c, k + 1)
  }

  /** A cluster joins the first merged cluster near it, or starts a new one. */
  function Joined(earth: Earth, merged: seq<Cluster>, c: Cluster): seq<Cluster> {
    var k := FirstNear(earth, merged, c, 0);
    if k < |merged| then merged[k := Absorb(merged[k], c)] else merged + [c]
  }

  function MergedOf(earth: Earth, clusters: seq<Cluster>): seq<Cluster> {
    if clusters == [] then [] else Joined(earth, MergedOf(earth, clusters[..|clusters| - 1]), clusters[|clusters| - 1])
  }

  lemma {:induction false} MergedMerges(earth: Earth, clusters: seq<Cluster>)
    requires Reflexive(earth) && AllWellFormed(clusters)
    ensures Merges(earth, MergedOf(earth, clusters), clusters)
  {
    if clusters != [] {
      var front, c := clusters[..|clusters| - 1], clusters[|clusters| - 1];
      MergedMerges(earth, front);
      var merged := MergedOf(earth, front);
      var k := FirstNear(earth, merged, c, 0);
      if k < |merged| {
        AbsorbMerges(earth, merged, front, c, k);
      } else {
        AppendMerges(earth, merged, front, c);
      }
      assert front + [c] == clusters;
    }
  }

  method MergeClusters(earth: Earth, clusters: seq<Cluster>) returns (merged: seq<Cluster>)
    ensures merged == MergedOf(earth, clusters)
    ensures Reflexive(earth) && AllWellFormed(clusters) ==> Merges(earth, merged, clusters)
  {
    merged := [];
    for n := 0 to |clusters|
      invariant merged == MergedOf(earth, clusters[..n])
    {
      var c := clusters[n];
      assert clusters[..n + 1][..n] == clusters[..n];
      var k := 0;
      while k < |merged| && !Near(earth, merged[k], c)
        invariant 0 <= k <= |merged|
        invariant FirstNear(earth, merged, c, 0) == FirstNear(earth, merged, c, k)
      {
        k := k + 1;
      }
      if k < |merged| {
        merged := merged[k := Absorb(merged[k], c)];
      } else {
        merged := merged + [c];
      }
    }
    assert clusters[..|clusters|] == clusters;
    if Reflexive(earth) && AllWellFormed(clusters) {
      MergedMerges(earth, clusters);
    }
  }

  // ---- clusters of the whole pool

  /** How large a cluster may be so that its buffered zone keeps away from both endpoints. */
  function Clearance(earth: Earth, center: GeoPoint, request: Request): real {
    RealMin(earth.distance(center, request.origin), earth.distance(center, request.destination))
    - ENDPOINT_PROTECTION - ZONE_BUFFER
  }

  predicate TooClose(earth: Earth, c: Cluster, request: Request) {
    Clearance(earth, c.center, request) < MIN_RADIUS
  }

  function Shrink(earth: Earth, c: Cluster, request: Request): Cluster {
    c.(radius := RealMin(c.radius, Clearance(earth, c.center, request)))
  }

  function Heavier(): (Cluster, Cluster) -> bool {
    (a: Cluster, b: Cluster) => a.weight > b.weight
  }

  /** The cluster's zone, buffer included, stays away from both endpoints. */
  predicate Clear(earth: Earth, c: Cluster, request: Request) {
    MIN_RADIUS <= c.radius <= MAX_RADIUS && c.radius <= Clearance(earth, c.center, request)
  }

  /** Shrinking and dropping, in order. */
  function Kept(earth: Earth, merged: seq<Cluster>, request: Request): (r: seq<Cluster>) {
    if merged == [] then []
    else
      var last := merged[|merged| - 1];
      Kept(earth, merged[..|merged| - 1], request)
      + if TooClose(earth, last, request) then [] else [Shrink(earth, last, request)]
  }

  ghost predicate Survives(earth: Earth, merged: seq<Cluster>, request: Request, c: Cluster) {
    exists k :: 0 <= k < |merged| && !TooClose(earth, merged[k], request) && c == Shrink(earth, merged[k], request)
  }

  /** What is kept is exactly what is not too close, shrunk. */
  lemma {:induction false} KeptIsExact(earth: Earth, merged: seq<Cluster>, request: Request, c: Cluster)
    ensures c in Kept(earth, merged, request) <==> Survives(earth, merged, request, c)
  {
    if merged != [] {
      var front, last := merged[..|merged| - 1], merged[|merged| - 1];
      KeptIsExact(earth, front, request, c);
      assert merged == front + [last];
      if Survives(earth, front, request, c) {
        var k :| 0 <= k < |front| && !TooClose(earth, front[k], request) && c == Shrink(earth, front[k], request);
        assert merged[k] == front[k];
      }
      if !TooClose(earth, last, request) && c == Shrink(earth, last, request) {
        assert merged[|front|] == last;
      }
    }
  }

  /** The clusters of every candidate, one after the other. */
  function RawClusters(earth: Earth, candidates: seq<Candidate>, minimum: int): seq<Cluster> {
    if candidates == [] then []
    else
      RawClusters(earth, candidates[..|candidates| - 1], minimum)
      + ClustersOf(earth, candidates[|candidates| - 1].segments, minimum)
  }

  /** The merged clusters of a pool, before endpoints are protected. */
  function MergedPool(earth: Earth, candidates: seq<Candidate>, minimum: int): seq<Cluster> {
    MergedOf(earth, RawClusters(earth, candidates, minimum))
  }

  /** The clusters the ladder works with. */
  function PoolClusters(earth: Earth, candidates: seq<Candidate>, request: Request, minimum: int): seq<Cluster> {
    StableSort(Kept(earth, MergedPool(earth, candidates, minimum), request), Heavier())
  }

  lemma {:induction false} RawAreWellFormed(earth: Earth, candidates: seq<Candidate>, minimum: int)
    ensures AllWellFormed(RawClusters(earth, candidates, minimum))
  {
    if candidates != [] {
      RawAreWellFormed(earth, candidates[..|candidates| - 1], minimum);
      OwnAreWellFormed(earth, candidates[|candidates| - 1].segments, minimum);
    }
  }

  lemma OwnAreWellFormed(earth: Earth, segments: seq<Segment>, minimum: int)
    ensures AllWellFormed(ClustersOf(earth, segments, minimum))
  {
    StretchesBecomeClusters(earth, segments, minimum);
  }

  lemma OwnCovered(earth: Earth, segments: seq<Segment>, minimum: int, j: nat)
    requires j < |segments| && Congested(segments[j], minimum) && segments[j].distance > 0
    ensures Covered(earth, ClustersOf(earth, segments, minimum), segments, minimum, j)
  {
    StretchesBecomeClusters(earth, segments, minimum);
  }

  lemma {:induction false} RawContains(earth: Earth, candidates: seq<Candidate>, minimum: int, n: nat)
    requires n < |candidates|
    ensures var own := ClustersOf(earth, candidates[n].segments, minimum);
            forall i :: 0 <= i < |own| ==> own[i] in RawClusters(earth, candidates, minimum)
  {
    if n < |candidates| - 1 {
      RawContains(earth, candidates[..|candidates| - 1], minimum, n);
    }
  }

  lemma RawCovers(earth: Earth, candidates: seq<Candidate>, minimum: int, n: nat, j: nat)
    requires n < |candidates| && j < |candidates[n].segments|
    requires Congested(candidates[n].segments[j], minimum) && candidates[n].segments[j].distance > 0
    ensures Covered(earth, RawClusters(earth, candidates, minimum), candidates[n].segments, minimum, j)
  {
    var segments := candidates[n].segments;
    RawContains(earth, candidates, minimum, n);
    OwnCovered(earth, segments, minimum, j);
    CoveredStays(earth, ClustersOf(earth, segments, minimum), RawClusters(earth, candidates, minimum), segments,
                 minimum, j);
  }

  ghost predicate HeaviestFirst(clusters: seq<Cluster>) {
    forall i, j :: 0 <= i < j < |clusters| ==> clusters[i].weight >= clusters[j].weight
  }

  lemma HeavierSorts(clusters: seq<Cluster>, sorted: seq<Cluster>)
    requires sorted == StableSort(clusters, Heavier())
    ensures HeaviestFirst(sorted) && forall c :: c in sorted <==> c in clusters
  {
    StableSortSorts(clusters, Heavier());
    assert Sorted(sorted, Heavier());
    assert forall c :: c in sorted <==> c in multiset(sorted);
    assert forall c :: c in clusters <==> c in multiset(clusters);
  }

  /** A cluster of the pool is a merged cluster that is not too close, shrunk; so it is clear of both endpoints. */
  lemma PoolClustersAreClear(earth: Earth, candidates: seq<Candidate>, request: Request, minimum: int, c: Cluster)
    requires Reflexive(earth)
    ensures var merged := MergedPool(earth, candidates, minimum);
            && (c in PoolClusters(earth, candidates, request, minimum) <==> Survives(earth, merged, request, c))
            && (Survives(earth, merged, request, c) ==> Clear(earth, c, request))
  {
    var merged := MergedPool(earth, candidates, minimum);
    RawAreWellFormed(earth, candidates, minimum);
    MergedMerges(earth, RawClusters(earth, candidates, minimum));
    HeavierSorts(Kept(earth, merged, request), PoolClusters(earth, candidates, request, minimum));
    KeptIsExact(earth, merged, request, c);
    assert forall k :: 0 <= k < |merged| ==> WellFormed(merged[k]);
  }

  /**
    The merged cluster k stands for the raw cluster i, which is made of the whole stretch of
    the segment; it is in the result, shrunk, or too close to an endpoint to be forbidden.
    */
  ghost predicate HeededBy(earth: Earth, candidates: seq<Candidate>, request: Request, minimum: int, n: nat, j: nat,
                           i: nat, k: nat)
    requires n < |candidates|
  {
    var raw, merged := RawClusters(earth, candidates, minimum), MergedPool(earth, candidates, minimum);
    && i < |raw| && k < |merged|
    && Holds(earth, raw[i], candidates[n].segments, minimum, j) && StandsFor(earth, merged[k], raw[i])
    && (|| TooClose(earth, merged[k], request)
        || Shrink(earth, merged[k], request) in PoolClusters(earth, candidates, request, minimum))
  }

  ghost predicate Heeded(earth: Earth, candidates: seq<Candidate>, request: Request, minimum: int, n: nat, j: nat)
    requires n < |candidates|
  {
    exists i: nat, k: nat :: HeededBy(earth, candidates, request, minimum, n, j, i, k)
  }

  /** Every congested segment of positive length of every candidate is heeded. */
  lemma PoolIsHeeded(earth: Earth, candidates: seq<Candidate>, request: Request, minimum: int, n: nat, j: nat)
    requires Reflexive(earth) && n < |candidates| && j < |candidates[n].segments|
    requires Congested(candidates[n].segments[j], minimum) && candidates[n].segments[j].distance > 0
    ensures Heeded(earth, candidates, request, minimum, n, j)
  {
    var raw, merged := RawClusters(earth, candidates, minimum), MergedPool(earth, candidates, minimum);
    RawCovers(earth, candidates, minimum, n, j);
    var i: nat :| i < |raw| && Holds(earth, raw[i], candidates[n].segments, minimum, j);
    RawAreWellFormed(earth, candidates, minimum);
    MergedMerges(earth, raw);
    assert Represented(earth, merged, raw[i]);
    var k: nat :| k < |merged| && StandsFor(earth, merged[k], raw[i]);
    var shrunk := Shrink(earth, merged[k], request);
    PoolClustersAreClear(earth, candidates, request, minimum, shrunk);
    assert HeededBy(earth, candidates, request, minimum, n, j, i, k);
  }

  ghost predicate AllHeeded(earth: Earth, candidates: seq<Candidate>, request: Request, minimum: int) {
    forall n: nat, j: nat {:trigger Heeded(earth, candidates, request, minimum, n, j)} ::
      (n < |candidates| && j < |candidates[n].segments| && Congested(candidates[n].segments[j], minimum)
       && candidates[n].segments[j].distance > 0) ==> Heeded(earth, candidates, request, minimum, n, j)
  }

  method CollectClusters(earth: Earth, candidates: seq<Candidate>, minimum: int) returns (raw: seq<Cluster>)
    ensures raw == RawClusters(earth, candidates, minimum)
  {
    raw := [];
    for i := 0 to |candidates|
      invariant raw == RawClusters(earth, candidates[..i], minimum)
    {
      assert candidates[..i + 1][..i] == candidates[..i];
      var found := CandidateClusters(earth, candidates[i].segments, minimum);
      raw := raw + found;
    }
    assert candidates[..|candidates|] == candidates;
  }

  method FilterClear(earth: Earth, merged: seq<Cluster>, request: Request) returns (filtered: seq<Cluster>)
    ensures filtered == Kept(earth, merged, request)
  {
    filtered := [];
    for i := 0 to |merged|
      invariant filtered == Kept(earth, merged[..i], request)
    {
      assert merged[..i + 1][..i] == merged[..i];
      if !TooClose(earth, merged[i], request) {
        filtered := filtered + [Shrink(earth, merged[i], request)];
      }
    }
    assert merged[..|merged|] == merged;
  }

  method ComputeClusters(earth: Earth, candidates: seq<Candidate>, request: Request, minimum: int)
    returns (clusters: seq<Cluster>)
    ensures clusters == PoolClusters(earth, candidates, request, minimum)
  {
    var raw := CollectClusters(earth, candidates, minimum);
    var merged := MergeClusters(earth, raw);
    var filtered := FilterClear(earth, merged, request);
    clusters := StableSort(filtered, Heavier());
  }

  /**
    The clusters the ladder works with: every one is clear of both endpoints, the heaviest
    comes first, and every congested segment of every candidate is heeded.
    */
  method CongestionClusters(earth: Earth, candidates: seq<Candidate>, request: Request, minimum: int)
    returns (clusters: seq<Cluster>)
    requires Reflexive(earth)
    ensures clusters == PoolClusters(earth, candidates, request, minimum)
    ensures Survivors(earth, MergedPool(earth, candidates, minimum), request, clusters)
    ensures forall c :: c in clusters ==> Clear(earth, c, request)
    ensures HeaviestFirst(clusters)
    ensures AllHeeded(earth, candidates, request, minimum)
  {
    clusters := ComputeClusters(earth, candidates, request, minimum);
    PoolIsClear(earth, candidates, request, minimum, clusters);
    PoolHeedsAll(earth, candidates, request, minimum);
  }

  ghost predicate Survivors(earth: Earth, merged: seq<Cluster>, request: Request, clusters: seq<Cluster>) {
    forall c :: c in clusters <==> Survives(earth, merged, request, c)
  }

  lemma PoolIsClear(earth: Earth, candidates: seq<Candidate>, request: Request, minimum: int, clusters: seq<Cluster>)
    requires Reflexive(earth) && clusters == PoolClusters(earth, candidates, request, minimum)
    ensures Survivors(earth, MergedPool(earth, candidates, minimum), request, clusters)
    ensures forall c :: c in clusters ==> Clear(earth, c, request)
    ensures HeaviestFirst(clusters)
  {
    var kept := Kept(earth, MergedPool(earth, candidates, minimum), request);
    HeavierSorts(kept, clusters);
    forall c
      ensures c in clusters <==> Survives(earth, MergedPool(earth, candidates, minimum), request, c)
      ensures c in clusters ==> Clear(earth, c, request)
    {
      PoolClustersAreClear(earth, candidates, request, minimum, c);
    }
  }

  lemma PoolHeedsAll(earth: Earth, candidates: seq<Candidate>, request: Request, minimum: int)
    requires Reflexive(earth)
    ensures AllHeeded(earth, candidates, request, minimum)
  {
    forall n: nat, j: nat |
      n < |candidates| && j < |candidates[n].segments|
      && Congested(candidates[n].segments[j], minimum) && candidates[n].segments[j].distance > 0
      ensures Heeded(earth, candidates, request, minimum, n, j)
    {
      PoolIsHeeded(earth, candidates, request, minimum, n, j);
    }
  }
}
