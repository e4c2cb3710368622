/**
  What the blunt plans of the ladder forbid, in terms of the traffic on the routes: every
  zone lies around congestion of the classes its plan names, and such congestion is
  forbidden unless it is too close to an endpoint, cannot be drawn, or lighter than enough
  zones that are.
  */
module Avoidance {
  import opened Domain
  import opened Clusters
  import opened Ladder
  import Evaluation

  // ---- the classes of a stretch

  ghost predicate HasSome(segments: seq<Segment>, kinds: set<CongestionClass>) {
    exists j :: 0 <= j < |segments| && segments[j].congestion in kinds
  }

  lemma HasSomeByFront(segments: seq<Segment>, kinds: set<CongestionClass>)
    requires segments != []
    ensures HasSome(segments, kinds) <==>
            HasSome(segments[..|segments| - 1], kinds) || segments[|segments| - 1].congestion in kinds
  {
    var front := segments[..|segments| - 1];
    if HasSome(front, kinds) {
      var j :| 0 <= j < |front| && front[j].congestion in kinds;
      assert segments[j] == front[j];
    }
    if HasSome(segments, kinds) {
      var j :| 0 <= j < |segments| && segments[j].congestion in kinds;
      assert j < |front| ==> front[j] == segments[j];
    }
  }

  /** The severity of a stretch is that of its worst class: RED 3, ORANGE 2, YELLOW 1, anything else 0. */
  lemma {:induction false} StretchSeverity(segments: seq<Segment>)
    ensures StretchOf(segments).severity in {0, 1, 2, 3}
    ensures StretchOf(segments).severity >= 3 <==> HasSome(segments, {Red})
    ensures StretchOf(segments).severity >= 2 <==> HasSome(segments, {Red, Orange})
    ensures StretchOf(segments).severity >= 1 <==> HasSome(segments, {Red, Orange, Yellow})
  {
    if segments != [] {
      StretchSeverity(segments[..|segments| - 1]);
      HasSomeByFront(segments, {Red});
      HasSomeByFront(segments, {Red, Orange});
      HasSomeByFront(segments, {Red, Orange, Yellow});
    }
  }

  /** The cluster of a stretch: 3 if and only if it has RED, 2 if ORANGE but no RED, 1 if only YELLOW. */
  lemma ClusterSeverity(earth: Earth, c: Cluster, segments: seq<Segment>)
    requires MadeOf(earth, c, StretchOf(segments))
    ensures c.severity == 3 <==> HasSome(segments, {Red})
    ensures c.severity == 2 <==> HasSome(segments, {Orange}) && !HasSome(segments, {Red})
    ensures c.severity == 1 <==> HasSome(segments, {Yellow}) && !HasSome(segments, {Red, Orange})
  {
    StretchSeverity(segments);
  }

  lemma SumStep(s: seq<Segment>, x: Segment)
    ensures Evaluation.TotalDelay(s + [x]) ==
            Evaluation.TotalDelay(s) + if x.baseline > 0 then Max(0, x.live - x.baseline) else 0
  {
    assert Evaluation.Front(s + [x]) == s && Evaluation.Last(s + [x]) == x;
  }

  /** The totals of a stretch: its length, negative lengths as zero, and the delay a route evaluation measures on it. */
  lemma {:induction false} StretchTotals(segments: seq<Segment>)
    ensures StretchOf(segments).distance == Evaluation.TotalDistance(Evaluation.Floored(segments))
    ensures StretchOf(segments).lost == Evaluation.TotalDelay(segments)
  {
    if segments != [] {
      var front, last := segments[..|segments| - 1], segments[|segments| - 1];
      assert segments == front + [last];
      StretchTotals(front);
      SumStep(front, last);
      Evaluation.CoverageStep(front, last);
    }
  }

  // ---- where a cluster comes from

  /** The cluster is made of a whole congested stretch of some candidate that has one of these classes. */
  ghost predicate MadeOfSome(earth: Earth, c: Cluster, candidates: seq<Candidate>, minimum: int,
                             kinds: set<CongestionClass>) {
    exists m: nat, a: nat, b: nat :: SomeStretch(earth, c, candidates, minimum, kinds, m, a, b)
  }

  ghost predicate SomeStretch(earth: Earth, c: Cluster, candidates: seq<Candidate>, minimum: int,
                              kinds: set<CongestionClass>, m: nat, a: nat, b: nat) {
    && m < |candidates| && Maximal(candidates[m].segments, minimum, a, b)
    && MadeOf(earth, c, StretchOf(candidates[m].segments[a..b])) && HasSome(candidates[m].segments[a..b], kinds)
  }

  /** The worst classes a severity stands for. */
  function KindsFrom(severity: int): set<CongestionClass> {
    if severity >= 3 then {Red} else if severity == 2 then {Red, Orange} else {Red, Orange, Yellow}
  }

  lemma {:induction false} RawOrigin(earth: Earth, candidates: seq<Candidate>, minimum: int, c: Cluster)
    returns (m: nat, a: nat, b: nat)
    requires c in RawClusters(earth, candidates, minimum)
    ensures m < |candidates| && Maximal(candidates[m].segments, minimum, a, b)
    ensures MadeOf(earth, c, StretchOf(candidates[m].segments[a..b]))
  {
    var front, last := candidates[..|candidates| - 1], candidates[|candidates| - 1];
    var own := ClustersOf(earth, last.segments, minimum);
    if c in own {
      StretchesBecomeClusters(earth, last.segments, minimum);
      var i :| 0 <= i < |own| && own[i] == c;
      assert FromStretch(earth, own[i], last.segments, minimum);
      m := |front|;
      a, b :| Maximal(last.segments, minimum, a, b) && MadeOf(earth, c, StretchOf(last.segments[a..b]));
    } else {
      m, a, b := RawOrigin(earth, front, minimum, c);
    }
  }

  /** A raw cluster is as severe as its stretch has classes. */
  lemma {:induction false} RawSeverity(earth: Earth, candidates: seq<Candidate>, minimum: int, c: Cluster, least: int)
    requires c in RawClusters(earth, candidates, minimum) && 1 <= least <= 3
    ensures c.severity >= least <==> MadeOfSome(earth, c, candidates, minimum, KindsFrom(least))
  {
    var m, a, b := RawOrigin(earth, candidates, minimum, c);
    StretchSeverity(candidates[m].segments[a..b]);
    if c.severity >= least {
      assert SomeStretch(earth, c, candidates, minimum, KindsFrom(least), m, a, b);
    }
    if MadeOfSome(earth, c, candidates, minimum, KindsFrom(least)) {
      var n: nat, i: nat, j: nat :| SomeStretch(earth, c, candidates, minimum, KindsFrom(least), n, i, j);
      StretchSeverity(candidates[n].segments[i..j]);
    }
  }

  // ---- what a merged cluster absorbed

  /** The merged cluster that cluster n joined, or that it started. */
  function Home(earth: Earth, clusters: seq<Cluster>, n: nat): nat
    requires n < |clusters|
  {
    FirstNear(earth, MergedOf(earth, clusters[..n]), clusters[n], 0)
  }

  lemma MergedStep(earth: Earth, clusters: seq<Cluster>, n: nat)
    requires n < |clusters|
    ensures MergedOf(earth, clusters[..n + 1]) == Joined(earth, MergedOf(earth, clusters[..n]), clusters[n])
  {
    assert clusters[..n + 1][..n] == clusters[..n];
  }

  /** Cluster n is among the first end and joined merged cluster k. */
  ghost predicate Absorbed(earth: Earth, clusters: seq<Cluster>, end: nat, k: nat, n: nat) {
    n < end <= |clusters| && Home(earth, clusters, n) == k
  }

  /** The most severe cluster that m absorbed, and no more severe one. */
  ghost predicate WorstOf(earth: Earth, clusters: seq<Cluster>, end: nat, k: nat, m: Cluster, n: nat) {
    && Absorbed(earth, clusters, end, k, n) && clusters[n].severity == m.severity && StandsFor(earth, m, clusters[n])
    && forall i: nat :: Absorbed(earth, clusters, end, k, i) ==> StandsFor(earth, m, clusters[i])
  }

  lemma AbsorbKeepsWorst(earth: Earth, clusters: seq<Cluster>, end: nat, k: nat, m: Cluster, n: nat) returns (w: nat)
    requires end < |clusters| && WorstOf(earth, clusters, end, k, m, n) && m.radius <= MAX_RADIUS
    requires clusters[end].radius <= MAX_RADIUS && Home(earth, clusters, end) == k && Near(earth, m, clusters[end])
    ensures WorstOf(earth, clusters, end + 1, k, Clusters.Absorb(m, clusters[end]), w)
  {
    var c := clusters[end];
    var more := Clusters.Absorb(m, c);
    w := if c.severity > m.severity then end else n;
    forall i: nat | Absorbed(earth, clusters, end + 1, k, i) ensures StandsFor(earth, more, clusters[i]) {
      assert i < end ==> Absorbed(earth, clusters, end, k, i);
      AbsorbStands(earth, m, c, clusters[i]);
    }
    assert Absorbed(earth, clusters, end + 1, k, w);
  }

  lemma OtherKeepsWorst(earth: Earth, clusters: seq<Cluster>, end: nat, k: nat, m: Cluster, n: nat)
    requires end < |clusters| && WorstOf(earth, clusters, end, k, m, n) && Home(earth, clusters, end) != k
    ensures WorstOf(earth, clusters, end + 1, k, m, n)
  {
    forall i: nat | Absorbed(earth, clusters, end + 1, k, i) ensures StandsFor(earth, m, clusters[i]) {
      assert Absorbed(earth, clusters, end, k, i);
    }
    assert Absorbed(earth, clusters, end + 1, k, n);
  }

  lemma {:induction false} HomesExist(earth: Earth, clusters: seq<Cluster>, end: nat, n: nat)
    requires n < end <= |clusters|
    ensures Home(earth, clusters, n) < |MergedOf(earth, clusters[..end])|
  {
    MergedStep(earth, clusters, end - 1);
    if n < end - 1 {
      HomesExist(earth, clusters, end - 1, n);
    }
  }

  /** Every merged cluster stands for all it absorbed and is exactly as severe as the worst of them. */
  lemma {:induction false} MergedHasWorst(earth: Earth, clusters: seq<Cluster>, end: nat, k: nat) returns (n: nat)
    requires Reflexive(earth) && AllWellFormed(clusters) && end <= |clusters|
    requires k < |MergedOf(earth, clusters[..end])|
    ensures WorstOf(earth, clusters, end, k, MergedOf(earth, clusters[..end])[k], n)
  {
    var last := end - 1;
    MergedStep(earth, clusters, last);
    MergedMerges(earth, clusters[..last]);
    var merged, c := MergedOf(earth, clusters[..last]), clusters[last];
    if k == |merged| {
      n := last;
      StartsAlone(earth, clusters, last);
    } else {
      n := MergedHasWorst(earth, clusters, last, k);
      if Home(earth, clusters, last) == k {
        n := AbsorbKeepsWorst(earth, clusters, last, k, merged[k], n);
      } else {
        OtherKeepsWorst(earth, clusters, last, k, merged[k], n);
      }
    }
  }

  lemma StartsAlone(earth: Earth, clusters: seq<Cluster>, last: nat)
    requires Reflexive(earth) && last < |clusters|
    requires Home(earth, clusters, last) == |MergedOf(earth, clusters[..last])|
    ensures WorstOf(earth, clusters, last + 1, Home(earth, clusters, last), clusters[last], last)
  {
    var k := Home(earth, clusters, last);
    forall i: nat | Absorbed(earth, clusters, last + 1, k, i)
      ensures StandsFor(earth, clusters[last], clusters[i])
    {
      if i < last { HomesExist(earth, clusters, last, i); }
    }
    assert Absorbed(earth, clusters, last + 1, k, last);
  }

  /** A merged cluster of the pool is this severe if and only if it absorbed a stretch with such a class. */
  lemma MergedSeverity(earth: Earth, candidates: seq<Candidate>, minimum: int, k: nat, least: int)
    requires Reflexive(earth) && k < |MergedPool(earth, candidates, minimum)| && 1 <= least <= 3
    ensures MergedPool(earth, candidates, minimum)[k].severity >= least <==>
            AbsorbedSome(earth, candidates, minimum, k, KindsFrom(least))
  {
    var raw, m := RawClusters(earth, candidates, minimum), MergedPool(earth, candidates, minimum)[k];
    RawAreWellFormed(earth, candidates, minimum);
    assert raw[..|raw|] == raw;
    var n := MergedHasWorst(earth, raw, |raw|, k);
    if m.severity >= least {
      RawSeverity(earth, candidates, minimum, raw[n], least);
      assert AbsorbedOne(earth, candidates, minimum, k, KindsFrom(least), n);
    }
    if AbsorbedSome(earth, candidates, minimum, k, KindsFrom(least)) {
      var i: nat :| AbsorbedOne(earth, candidates, minimum, k, KindsFrom(least), i);
      RawSeverity(earth, candidates, minimum, raw[i], least);
      assert StandsFor(earth, m, raw[i]);
    }
  }

  /** Raw cluster n, made of a stretch with such a class, joined merged cluster k. */
  ghost predicate AbsorbedOne(earth: Earth, candidates: seq<Candidate>, minimum: int, k: nat,
                              kinds: set<CongestionClass>, n: nat) {
    var raw := RawClusters(earth, candidates, minimum);
    && Absorbed(earth, raw, |raw|, k, n) && MadeOfSome(earth, raw[n], candidates, minimum, kinds)
  }

  ghost predicate AbsorbedSome(earth: Earth, candidates: seq<Candidate>, minimum: int, k: nat,
                               kinds: set<CongestionClass>) {
    exists n: nat :: AbsorbedOne(earth, candidates, minimum, k, kinds, n)
  }

  // ---- zones

  /** How far the centre of a cluster is from the nearer endpoint. */
  function Distance(earth: Earth, m: Cluster, request: Request): real {
    RealMin(earth.distance(m.center, request.origin), earth.distance(m.center, request.destination))
  }

  /**
    The zone of a merged cluster: its circle and 160 m around it, but no more than 2500 m and
    no nearer to either endpoint than 700 m.
    */
  function ZoneOf(earth: Earth, m: Cluster, request: Request): Zone {
    Zone(m.center, RealMin(2500.0, RealMin(m.radius + 160.0, Distance(earth, m, request) - 700.0)))
  }

  lemma ShrunkZone(earth: Earth, m: Cluster, request: Request)
    ensures TooClose(earth, m, request) <==> Distance(earth, m, request) < 1040.0
    ensures ZoneAround(Shrink(earth, m, request)) == ZoneOf(earth, m, request)
  {
  }

  ghost predicate AroundEarlier(clusters: seq<Cluster>, t: nat, z: Zone) {
    exists i :: 0 <= i < t <= |clusters| && z == ZoneAround(clusters[i])
  }

  /** A drawable cluster has its zone among the first ones, or all of these belong to clusters before it. */
  lemma ZonesAreFirst(earth: Earth, clusters: seq<Cluster>, limit: nat, t: nat)
    requires t < |clusters|
    requires earth.drawable(ZoneAround(clusters[t]).center, ZoneAround(clusters[t]).radius)
    ensures var zones := Zones(earth, clusters, limit);
            || ZoneAround(clusters[t]) in zones
            || (|zones| == limit && forall z :: z in zones ==> AroundEarlier(clusters, t, z))
  {
    var zones, before := Zones(earth, clusters, limit), Drawn(earth, clusters[..t]);
    assert clusters[..t + 1][..t] == clusters[..t];
    DrawnPrefix(earth, clusters, t);
    DrawnPrefix(earth, clusters, t + 1);
    if |before| < limit {
      assert zones[|before|] == ZoneAround(clusters[t]);
    } else {
      assert zones == before[..limit];
      forall z | z in zones ensures AroundEarlier(clusters, t, z) {
        assert z in before;
        var c :| c in clusters[..t] && z == ZoneAround(c);
        var i :| 0 <= i < t && clusters[..t][i] == c;
      }
    }
  }

  lemma {:induction false} SevereKeepsOrder(clusters: seq<Cluster>, least: int)
    requires HeaviestFirst(clusters)
    ensures HeaviestFirst(Severe(clusters, least))
  {
    if clusters != [] {
      var front, last := clusters[..|clusters| - 1], clusters[|clusters| - 1];
      SevereKeepsOrder(front, least);
      assert forall c :: c in front ==> c.weight >= last.weight;
    }
  }

  // ---- the blunt plans

  predicate Blunt(name: Label) {
    name.AvoidAllRed? || name.AvoidRedAndOrange? || name.AvoidEveryNonGreen?
  }

  /** The classes a blunt plan names. */
  function KindsOf(name: Label): set<CongestionClass> {
    match name
    case AvoidAllRed(_) => {Red}
    case AvoidRedAndOrange(_) => {Red, Orange}
    case _ => {Red, Orange, Yellow}
  }

  function Least(name: Label): int {
    match name case AvoidAllRed(_) => 3 case AvoidRedAndOrange(_) => 2 case _ => 1
  }

  lemma AllAreCongested(earth: Earth, candidates: seq<Candidate>, request: Request)
    requires Reflexive(earth)
    ensures Severe(PoolClusters(earth, candidates, request, 1), 1) == PoolClusters(earth, candidates, request, 1)
  {
    var merged, clusters := MergedPool(earth, candidates, 1), PoolClusters(earth, candidates, request, 1);
    forall c | c in clusters ensures c.severity >= 1 {
      PoolClustersAreClear(earth, candidates, request, 1, c);
      var k: nat :| k < |merged| && !TooClose(earth, merged[k], request) && c == Shrink(earth, merged[k], request);
      MergedIsCongested(earth, candidates, k);
    }
    AllAreSevere(clusters, 1);
  }

  lemma MergedIsCongested(earth: Earth, candidates: seq<Candidate>, k: nat)
    requires Reflexive(earth) && k < |MergedPool(earth, candidates, 1)|
    ensures MergedPool(earth, candidates, 1)[k].severity >= 1
  {
    var raw := RawClusters(earth, candidates, 1);
    RawAreWellFormed(earth, candidates, 1);
    assert raw[..|raw|] == raw;
    var n := MergedHasWorst(earth, raw, |raw|, k);
    var m, a, b := RawOrigin(earth, candidates, 1, raw[n]);
    StretchHolds(candidates[m].segments[a..b], 0);
    assert Congested(candidates[m].segments[a], 1);
  }

  lemma BluntZonesOf(p: Plan, earth: Earth, clusters: seq<Cluster>, red: seq<Cluster>, redOrange: seq<Cluster>,
                     offsets: seq<int>, corridors: seq<int>, request: Request, means: Means)
    requires Blunt(p.name) && RungOf(p, earth, clusters, red, redOrange, offsets, corridors, request, means)
    ensures p.zones ==
            Zones(earth, if p.name.AvoidAllRed? then red else if p.name.AvoidRedAndOrange? then redOrange else clusters,
                  MAX_ZONES)
  {
  }

  /** A blunt plan of the ladder forbids the first clusters that are severe enough. */
  lemma BluntZones(p: Plan, earth: Earth, candidates: seq<Candidate>, request: Request, means: Means)
    requires Reflexive(earth) && Blunt(p.name)
    requires Rung(p, earth, PoolClusters(earth, candidates, request, 1), request, means)
    ensures p.zones == Zones(earth, Severe(PoolClusters(earth, candidates, request, 1), Least(p.name)), MAX_ZONES)
  {
    var clusters := PoolClusters(earth, candidates, request, 1);
    var span := earth.distance(request.origin, request.destination);
    AllAreCongested(earth, candidates, request);
    BluntZonesOf(p, earth, clusters, Severe(clusters, 3), Severe(clusters, 2), Ringed(RingTargets(request), 150),
                 Ringed(CorridorTargets(span, request.maxExtraDistance, CORRIDOR_FRACTIONS), 500), request, means);
  }

  /** It is the zone of a merged cluster, far enough from both endpoints, that absorbed a stretch with such a class. */
  ghost predicate ZoneOver(earth: Earth, candidates: seq<Candidate>, request: Request, kinds: set<CongestionClass>,
                           z: Zone, k: nat) {
    var merged := MergedPool(earth, candidates, 1);
    && k < |merged| && Distance(earth, merged[k], request) >= 1040.0 && AbsorbedSome(earth, candidates, 1, k, kinds)
    && z == ZoneOf(earth, merged[k], request)
  }

  /** Every zone of a blunt plan lies over congestion of the classes it names. */
  lemma ZonesLieOverJams(p: Plan, earth: Earth, candidates: seq<Candidate>, request: Request, means: Means, z: Zone)
    returns (k: nat)
    requires Reflexive(earth) && Blunt(p.name) && z in p.zones
    requires Rung(p, earth, PoolClusters(earth, candidates, request, 1), request, means)
    ensures ZoneOver(earth, candidates, request, KindsOf(p.name), z, k)
  {
    var merged, clusters := MergedPool(earth, candidates, 1), PoolClusters(earth, candidates, request, 1);
    BluntZones(p, earth, candidates, request, means);
    assert z in Drawn(earth, Severe(clusters, Least(p.name)));
    var c :| c in Severe(clusters, Least(p.name)) && z == ZoneAround(c);
    PoolClustersAreClear(earth, candidates, request, 1, c);
    k :| k < |merged| && !TooClose(earth, merged[k], request) && c == Shrink(earth, merged[k], request);
    MergedSeverity(earth, candidates, 1, k, Least(p.name));
    ShrunkZone(earth, merged[k], request);
  }

  /** Zones of clusters that weigh at least as much as this one fill the plan. */
  ghost predicate Crowded(zones: seq<Zone>, clusters: seq<Cluster>, c: Cluster) {
    |zones| == MAX_ZONES && forall z :: z in zones ==> AroundHeavier(clusters, c, z)
  }

  ghost predicate AroundHeavier(clusters: seq<Cluster>, c: Cluster, z: Zone) {
    exists d :: d in clusters && d.weight >= c.weight && z == ZoneAround(d)
  }

  lemma SevereIsForbidden(earth: Earth, clusters: seq<Cluster>, least: int, c: Cluster)
    requires HeaviestFirst(clusters) && c in clusters && c.severity >= least
    ensures var zones := Zones(earth, Severe(clusters, least), MAX_ZONES);
            || !earth.drawable(ZoneAround(c).center, ZoneAround(c).radius)
            || ZoneAround(c) in zones || Crowded(zones, clusters, c)
  {
    var severe := Severe(clusters, least);
    var zones := Zones(earth, severe, MAX_ZONES);
    var t :| 0 <= t < |severe| && severe[t] == c;
    SevereKeepsOrder(clusters, least);
    if earth.drawable(ZoneAround(c).center, ZoneAround(c).radius) {
      ZonesAreFirst(earth, severe, MAX_ZONES, t);
      if ZoneAround(c) !in zones {
        forall z | z in zones ensures AroundHeavier(clusters, c, z) {
          assert AroundEarlier(severe, t, z);
          var i :| 0 <= i < t && z == ZoneAround(severe[i]);
          assert severe[i] in severe;
        }
      }
    }
  }

  /** Too close to an endpoint, impossible to draw, forbidden, or lighter than a full plan. */
  ghost predicate Settled(p: Plan, earth: Earth, candidates: seq<Candidate>, request: Request, m: Cluster) {
    var z := ZoneOf(earth, m, request);
    || Distance(earth, m, request) < 1040.0 || !earth.drawable(z.center, z.radius)
    || z in p.zones || Crowded(p.zones, PoolClusters(earth, candidates, request, 1), m)
  }

  /** Merged cluster k stands for the whole stretch of segment j of route n, and is settled. */
  ghost predicate DealtWith(p: Plan, earth: Earth, candidates: seq<Candidate>, request: Request, n: nat, j: nat,
                            i: nat, k: nat)
    requires n < |candidates|
  {
    && HeededBy(earth, candidates, request, 1, n, j, i, k)
    && Settled(p, earth, candidates, request, MergedPool(earth, candidates, 1)[k])
  }

  /** The segment is one a blunt plan names, and seen by the search. */
  predicate Jammed(segment: Segment, kinds: set<CongestionClass>) {
    segment.congestion in kinds && |segment.geometry| >= 2 && segment.distance > 0
  }

  lemma HeededSeverity(earth: Earth, candidates: seq<Candidate>, request: Request, n: nat, j: nat, i: nat, k: nat,
                       name: Label)
    requires n < |candidates| && HeededBy(earth, candidates, request, 1, n, j, i, k)
    requires j < |candidates[n].segments| && candidates[n].segments[j].congestion in KindsOf(name)
    ensures MergedPool(earth, candidates, 1)[k].severity >= Least(name)
  {
    var raw, segments := RawClusters(earth, candidates, 1), candidates[n].segments;
    var a: nat, b: nat :|
      Maximal(segments, 1, a, b) && a <= j < b && MadeOf(earth, raw[i], StretchOf(segments[a..b]));
    StretchSeverity(segments[a..b]);
    assert segments[a..b][j - a] == segments[j];
  }

  lemma MergedIsForbidden(p: Plan, earth: Earth, candidates: seq<Candidate>, request: Request, means: Means, m: Cluster)
    requires Reflexive(earth) && Blunt(p.name) && m.severity >= Least(p.name)
    requires Rung(p, earth, PoolClusters(earth, candidates, request, 1), request, means)
    requires TooClose(earth, m, request) || Shrink(earth, m, request) in PoolClusters(earth, candidates, request, 1)
    ensures Settled(p, earth, candidates, request, m)
  {
    var clusters := PoolClusters(earth, candidates, request, 1);
    BluntZones(p, earth, candidates, request, means);
    PoolIsClear(earth, candidates, request, 1, clusters);
    ShrunkZone(earth, m, request);
    if !TooClose(earth, m, request) {
      SevereIsForbidden(earth, clusters, Least(p.name), Shrink(earth, m, request));
    }
  }

  /** Every such segment of every candidate is dealt with by a blunt plan of the ladder. */
  lemma JamsAreDealtWith(p: Plan, earth: Earth, candidates: seq<Candidate>, request: Request, means: Means, n: nat,
                         j: nat) returns (i: nat, k: nat)
    requires Reflexive(earth) && Blunt(p.name)
    requires Rung(p, earth, PoolClusters(earth, candidates, request, 1), request, means)
    requires n < |candidates| && j < |candidates[n].segments| && Jammed(candidates[n].segments[j], KindsOf(p.name))
    ensures DealtWith(p, earth, candidates, request, n, j, i, k)
  {
    PoolIsHeeded(earth, candidates, request, 1, n, j);
    i, k :| HeededBy(earth, candidates, request, 1, n, j, i, k);
    HeededSeverity(earth, candidates, request, n, j, i, k, p.name);
    MergedIsForbidden(p, earth, candidates, request, means, MergedPool(earth, candidates, 1)[k]);
  }

  /**
    Where zones are allowed and a merged cluster that absorbed RED can be drawn away from
    both endpoints, the ladder has a plan at its first place that forbids all red, this
    cluster or twelve at least as heavy included.
    */
  lemma RedComesFirst(earth: Earth, candidates: seq<Candidate>, request: Request, means: Means, k: nat)
    returns (p: Plan)
    requires Reflexive(earth) && means.zones && k < |MergedPool(earth, candidates, 1)|
    requires AbsorbedSome(earth, candidates, 1, k, {Red})
    requires var m := MergedPool(earth, candidates, 1)[k];
             var z := ZoneOf(earth, m, request);
             Distance(earth, m, request) >= 1040.0 && earth.drawable(z.center, z.radius)
    ensures var clusters, m := PoolClusters(earth, candidates, request, 1), MergedPool(earth, candidates, 1)[k];
            && p.name.AvoidAllRed? && Kind(p.name) == 0 && Rung(p, earth, clusters, request, means)
            && (ZoneOf(earth, m, request) in p.zones || Crowded(p.zones, clusters, m))
  {
    var m, clusters := MergedPool(earth, candidates, 1)[k], PoolClusters(earth, candidates, request, 1);
    var c, zones := Shrink(earth, m, request), Zones(earth, Severe(clusters, 3), MAX_ZONES);
    ShrunkZone(earth, m, request);
    MergedSeverity(earth, candidates, 1, k, 3);
    PoolClustersAreClear(earth, candidates, request, 1, c);
    PoolIsClear(earth, candidates, request, 1, clusters);
    SevereIsForbidden(earth, clusters, 3, c);
    LateralsAreWide(request);
    p := Plan(AvoidAllRed(|zones|), [], zones);
    assert BluntRung(p, earth, Severe(clusters, 3), Severe(clusters, 2), means);
  }
}
