/**
  One whole search: the initial ranking, the toll-free probe and the loop that probes the
  detour ladder. Whatever the provider, the budget and the evaluation of a route do is a
  parameter, so the results hold for every run.
  */
module Enhance {
  import opened Domain
  import opened Sorting
  import opened Ranking
  import opened Clusters
  import opened Ladder
  import Dedupe

  const ENDPOINT_TOLERANCE := 400.0

  datatype Settings = Settings(
    enhanced: bool, reranking: bool, tollFreeProbe: bool,
    maxActive: nat, maxIterations: nat,
    avoidZones: bool, corridorAnchors: bool, maxWaypoints: int)

  /** What the outside world does around one provider request. */
  datatype Probe = Probe(
    stopped: bool,                             // the budget is spent or the search is cancelled
    answer: Option<seq<Candidate>>,            // None is any error
    evaluate: Candidate -> Option<Candidate>)  // None when an evaluation is lost

  /** Everything the search is given. */
  datatype World = World(
    earth: Earth,
    duplicate: Dedupe.Duplicate,
    plausible: Candidate -> bool,
    tollFree: Probe,
    probe: nat -> Probe)

  ghost predicate Sane(world: World, request: Request) {
    Reflexive(world.earth) && world.earth.distance(request.origin, request.destination) >= 0.0
  }

  datatype Result = Result(
    selected: Option<Candidate>,
    alternatives: seq<Candidate>,
    bestEffort: seq<Candidate>,
    fastest: Candidate)

  /** A search: what it is given and how it is configured. */
  datatype Brief = Brief(world: World, request: Request, config: ScoringConfig, settings: Settings)

  /** One iteration of the loop, as it left the search; ranked tells whether its pool was ranked. */
  datatype Round = Round(plan: Plan, failed: bool, ranked: bool, pool: seq<Candidate>, result: Result)

  // ---- admitting provider routes

  function Passing(candidates: seq<Candidate>, test: Candidate -> bool): (r: seq<Candidate>)
    ensures |r| <= |candidates|
  {
    if candidates == [] then []
    else
      var last := candidates[|candidates| - 1];
      Passing(candidates[..|candidates| - 1], test) + if test(last) then [last] else []
  }

  lemma {:induction false} PassingMember(candidates: seq<Candidate>, test: Candidate -> bool, c: Candidate)
    ensures c in Passing(candidates, test) <==> c in candidates && test(c)
  {
    if candidates != [] {
      PassingMember(candidates[..|candidates| - 1], test, c);
      assert candidates == candidates[..|candidates| - 1] + [candidates[|candidates| - 1]];
    }
  }

  lemma {:induction false} PassingPrefix(candidates: seq<Candidate>, test: Candidate -> bool, n: nat)
    requires n <= |candidates|
    ensures Passing(candidates[..n], test) <= Passing(candidates, test)
  {
    if n == |candidates| {
      assert candidates[..n] == candidates;
    } else {
      PassingPrefix(candidates[..|candidates| - 1], test, n);
      assert candidates[..|candidates| - 1][..n] == candidates[..n];
    }
  }

  /** The first plausible routes, up to the free capacity; the rest are counted as invalid. */
  method SanitizeProviderCandidates(candidates: seq<Candidate>, limit: int, plausible: Candidate -> bool)
    returns (valid: seq<Candidate>, invalid: nat)
    ensures valid == if limit <= 0 then [] else AtMost(Passing(candidates, plausible), limit)
    ensures |valid| + invalid == |candidates|
  {
    if limit <= 0 {
      return [], |candidates|;
    }
    valid := [];
    for i := 0 to |candidates|
      invariant valid == Passing(candidates[..i], plausible) && |valid| <= limit
    {
      assert candidates[..i + 1][..i] == candidates[..i];
      if |valid| >= limit {
        PassingPrefix(candidates, plausible, i);
        break;
      }
      if plausible(candidates[i]) {
        valid := valid + [candidates[i]];
      }
    }
    assert candidates[..|candidates|] == candidates;
    PassingPrefix(candidates, plausible, |candidates|);
    invalid := |candidates| - |valid|;
  }

  /** The route still starts and ends where the reference does. */
  predicate ConnectsSameTrip(earth: Earth, candidate: Candidate, reference: Candidate) {
    && |candidate.geometry| >= 2 && |reference.geometry| >= 2
    && earth.distance(candidate.geometry[0], reference.geometry[0]) <= ENDPOINT_TOLERANCE
    && ENDPOINT_TOLERANCE >=
       earth.distance(candidate.geometry[|candidate.geometry| - 1], reference.geometry[|reference.geometry| - 1])
  }

  /** The evaluations that were not lost, in the order of the routes. */
  function Evaluations(candidates: seq<Candidate>, evaluate: Candidate -> Option<Candidate>): (r: seq<Candidate>)
    ensures |r| <= |candidates|
  {
    if candidates == [] then []
    else
      var front, last := Evaluations(candidates[..|candidates| - 1], evaluate), evaluate(candidates[|candidates| - 1]);
      if last.Some? then front + [last.value] else front
  }

  method EvaluateAll(candidates: seq<Candidate>, evaluate: Candidate -> Option<Candidate>)
    returns (evaluated: seq<Candidate>)
    ensures evaluated == Evaluations(candidates, evaluate)
  {
    evaluated := [];
    for i := 0 to |candidates|
      invariant evaluated == Evaluations(candidates[..i], evaluate)
    {
      assert candidates[..i + 1][..i] == candidates[..i];
      var e := evaluate(candidates[i]);
      if e.Some? {
        evaluated := evaluated + [e.value];
      }
    }
    assert candidates[..|candidates|] == candidates;
  }

  ghost predicate EvaluatedFrom(candidates: seq<Candidate>, evaluate: Candidate -> Option<Candidate>, e: Candidate) {
    exists c :: c in candidates && evaluate(c) == Some(e)
  }

  lemma {:induction false} EvaluationsAreExact(candidates: seq<Candidate>, evaluate: Candidate -> Option<Candidate>,
                                               e: Candidate)
    ensures e in Evaluations(candidates, evaluate) <==> EvaluatedFrom(candidates, evaluate, e)
  {
    if candidates != [] {
      var front, last := candidates[..|candidates| - 1], candidates[|candidates| - 1];
      EvaluationsAreExact(front, evaluate, e);
      assert candidates == front + [last];
      assert evaluate(last) == Some(e) ==> last in candidates;
      if EvaluatedFrom(front, evaluate, e) {
        var c :| c in front && evaluate(c) == Some(e);
        assert c in candidates;
      }
    }
  }

  function SameTrip(earth: Earth, base: Candidate): Candidate -> bool {
    c => ConnectsSameTrip(earth, c, base)
  }

  /** The provider's routes that are plausible, fit the free capacity and make the same trip. */
  function Admitted(world: World, pool: seq<Candidate>, answer: seq<Candidate>, base: Candidate,
                    maxActive: nat): (r: seq<Candidate>) {
    var incoming := if maxActive <= |pool| then [] else AtMost(Passing(answer, world.plausible), maxActive - |pool|);
    Passing(incoming, SameTrip(world.earth, base))
  }

  /** Admitted routes are plausible answers of the same trip, no more than the pool can take. */
  lemma AdmittedConnect(world: World, pool: seq<Candidate>, answer: seq<Candidate>, base: Candidate, maxActive: nat,
                        c: Candidate)
    ensures var admitted := Admitted(world, pool, answer, base, maxActive);
            && |admitted| <= Max(0, maxActive - |pool|)
            && (c in admitted ==> c in answer && world.plausible(c) && ConnectsSameTrip(world.earth, c, base))
  {
    var incoming := if maxActive <= |pool| then [] else AtMost(Passing(answer, world.plausible), maxActive - |pool|);
    PassingMember(incoming, SameTrip(world.earth, base), c);
    PassingMember(answer, world.plausible, c);
  }

  lemma {:induction false} PassingOrigin(candidates: seq<Candidate>, test: Candidate -> bool, j: nat) returns (i: nat)
    requires j < |Passing(candidates, test)|
    ensures i < |candidates| && candidates[i] == Passing(candidates, test)[j] && test(candidates[i])
    ensures |Passing(candidates[..i], test)| == j
  {
    var n := |candidates| - 1;
    if j == |Passing(candidates[..n], test)| {
      i := n;
    } else {
      i := PassingOrigin(candidates[..n], test, j);
      assert candidates[..n][..i] == candidates[..i];
    }
  }

  /** The route is answered while fewer than the room's number of such routes came before it. */
  ghost predicate Early(answer: seq<Candidate>, test: Candidate -> bool, room: int, c: Candidate) {
    exists i :: 0 <= i < |answer| && answer[i] == c && |Passing(answer[..i], test)| < room
  }

  lemma EarlyIsFirst(answer: seq<Candidate>, test: Candidate -> bool, room: int, i: nat)
    requires i < |answer| && test(answer[i]) && |Passing(answer[..i], test)| < room
    ensures answer[i] in AtMost(Passing(answer, test), room)
  {
    assert answer[..i + 1][..i] == answer[..i];
    PassingPrefix(answer, test, i + 1);
    assert AtMost(Passing(answer, test), room)[|Passing(answer[..i], test)|] == answer[i];
  }

  lemma FirstPassing(answer: seq<Candidate>, test: Candidate -> bool, room: int, c: Candidate)
    requires room > 0
    ensures c in AtMost(Passing(answer, test), room) <==> test(c) && Early(answer, test, room, c)
  {
    var first := AtMost(Passing(answer, test), room);
    if c in first {
      var j :| 0 <= j < |first| && first[j] == c;
      var i := PassingOrigin(answer, test, j);
    }
    if test(c) && Early(answer, test, room, c) {
      var i :| 0 <= i < |answer| && answer[i] == c && |Passing(answer[..i], test)| < room;
      EarlyIsFirst(answer, test, room, i);
    }
  }

  /** A plausible route of the same trip, answered before the plausible routes have used up the room. */
  ghost predicate Heard(world: World, answer: seq<Candidate>, room: int, base: Candidate, c: Candidate) {
    world.plausible(c) && ConnectsSameTrip(world.earth, c, base) && Early(answer, world.plausible, room, c)
  }

  /** Exactly these routes are admitted. */
  lemma AdmittedIsExact(world: World, pool: seq<Candidate>, answer: seq<Candidate>, base: Candidate, maxActive: nat,
                        c: Candidate)
    ensures c in Admitted(world, pool, answer, base, maxActive) <==> Heard(world, answer, maxActive - |pool|, base, c)
  {
    var room := maxActive - |pool|;
    var incoming := if room <= 0 then [] else AtMost(Passing(answer, world.plausible), room);
    PassingMember(incoming, SameTrip(world.earth, base), c);
    if room > 0 { FirstPassing(answer, world.plausible, room, c); }
  }

  /** The pool joined with the evaluated admissions, without duplicates. */
  function JoinedPool(world: World, pool: seq<Candidate>, admitted: seq<Candidate>, probe: Probe): seq<Candidate> {
    Dedupe.Deduplicated(pool + Evaluations(admitted, probe.evaluate), world.duplicate)
  }

  method FilterTrip(earth: Earth, incoming: seq<Candidate>, base: Candidate) returns (connected: seq<Candidate>)
    ensures connected == Passing(incoming, SameTrip(earth, base))
  {
    connected := [];
    for i := 0 to |incoming|
      invariant connected == Passing(incoming[..i], SameTrip(earth, base))
    {
      assert incoming[..i + 1][..i] == incoming[..i];
      if ConnectsSameTrip(earth, incoming[i], base) {
        connected := connected + [incoming[i]];
      }
    }
    assert incoming[..|incoming|] == incoming;
  }

  /** Sanitized to the free capacity, restricted to the same trip, evaluated, and joined with the pool. */
  method Absorb(world: World, pool: seq<Candidate>, answer: seq<Candidate>, base: Candidate, probe: Probe,
                maxActive: nat)
    returns (joined: seq<Candidate>, changed: bool)
    ensures changed <==> Admitted(world, pool, answer, base, maxActive) != []
    ensures joined ==
            if changed then JoinedPool(world, pool, Admitted(world, pool, answer, base, maxActive), probe) else pool
  {
    joined, changed := pool, false;
    var incoming, invalid := SanitizeProviderCandidates(answer, maxActive - |pool|, world.plausible);
    var connected := FilterTrip(world.earth, incoming, base);
    if |connected| > 0 {
      var evaluated := EvaluateAll(connected, probe.evaluate);
      var dropped;
      joined, dropped := Dedupe.Deduplicate(pool + evaluated, world.duplicate);
      changed := true;
    }
  }

  lemma JoinedIsNoSlower(pool: seq<Candidate>, more: seq<Candidate>, duplicate: Dedupe.Duplicate)
    ensures var joined := Dedupe.Deduplicated(pool + more, duplicate);
            pool != [] ==> joined != [] && FastestOf(joined).live <= FastestOf(pool).live
  {
    var joined := Dedupe.Deduplicated(pool + more, duplicate);
    if pool != [] {
      var f := FastestOf(pool);
      Dedupe.DeduplicateRepresents(pool + more, duplicate);
      assert f in pool + more && Dedupe.Represented(f, joined, duplicate);
      var k :| k in joined && k.live <= f.live;
      FastestIsLeast(joined, k);
    }
  }

  /**
    The joined pool fits the limit, has no duplicates, holds only old routes and evaluated
    admissions, and represents every one of them by a route that is no slower.
    */
  lemma JoinedRepresents(world: World, pool: seq<Candidate>, answer: seq<Candidate>, base: Candidate, probe: Probe,
                         maxActive: nat)
    requires |pool| <= maxActive
    ensures var admitted := Admitted(world, pool, answer, base, maxActive);
            var joined := JoinedPool(world, pool, admitted, probe);
            && |joined| <= maxActive && Dedupe.Irredundant(joined, world.duplicate)
            && (forall e :: e in joined ==> e in pool || EvaluatedFrom(admitted, probe.evaluate, e))
            && (forall e :: e in pool || EvaluatedFrom(admitted, probe.evaluate, e) ==>
                              Dedupe.Represented(e, joined, world.duplicate))
  {
    var admitted := Admitted(world, pool, answer, base, maxActive);
    var evaluated := Evaluations(admitted, probe.evaluate);
    forall e ensures e in evaluated <==> EvaluatedFrom(admitted, probe.evaluate, e) {
      EvaluationsAreExact(admitted, probe.evaluate, e);
    }
    Dedupe.DeduplicateRepresents(pool + evaluated, world.duplicate);
  }

  // ---- adopting a ranking

  /** A ranking that selects nothing leaves the earlier selection in place. */
  function Adopt(result: Result, pool: seq<Candidate>, ranked: Ranked): Result
    requires pool != []
  {
    Result(if ranked.selected.Some? then ranked.selected else result.selected,
           if ranked.selected.Some? then ranked.eligible else result.alternatives,
           ranked.bestEffort, FastestOf(pool))
  }

  /** In STRICT_GREEN, what the search offers as selected or alternative is proven green. */
  ghost predicate FailsClosed(result: Result, request: Request, config: ScoringConfig) {
    request.mode == StrictGreen ==>
      && (result.selected.Some? ==> ProvenGreen(result.selected.value, config))
      && (forall c :: c in result.alternatives ==> ProvenGreen(c, config))
  }

  lemma AdoptFailsClosed(result: Result, pool: seq<Candidate>, request: Request, config: ScoringConfig)
    requires pool != [] && FailsClosed(result, request, config)
    ensures FailsClosed(Adopt(result, pool, RankOf(pool, request, config)), request, config)
  {
    if request.mode == StrictGreen {
      StrictGreenFailsClosed(pool, request, config);
    }
  }

  // ---- one round

  function MeansOf(settings: Settings, request: Request): Means {
    Means(settings.avoidZones, settings.corridorAnchors, Max(0, settings.maxWaypoints - |request.waypoints| - 2))
  }

  /** The plan is on the ladder over the pool. */
  predicate OnLadder(brief: Brief, pool: seq<Candidate>, plan: Plan) {
    Rung(plan, brief.world.earth, PoolClusters(brief.world.earth, pool, brief.request, 1), brief.request,
         MeansOf(brief.settings, brief.request))
  }

  /** The first plan of the ladder over the pool that was not tried. */
  ghost predicate FirstUntried(brief: Brief, pool: seq<Candidate>, tried: set<Label>, plan: Plan) {
    && OnLadder(brief, pool, plan) && plan.name !in tried
    && forall other :: OnLadder(brief, pool, other) && other.name !in tried ==> Place(plan.name) <= Place(other.name)
  }

  ghost predicate AllTried(brief: Brief, pool: seq<Candidate>, tried: set<Label>) {
    forall plan :: OnLadder(brief, pool, plan) ==> plan.name in tried
  }

  /**
    Where the provider takes one point more than the trip has, every ring beside the heaviest
    cluster is offered on both sides, wherever its anchor exists.
    */
  lemma LateralIsOffered(brief: Brief, pool: seq<Candidate>, side: Side, offset: int) returns (plan: Plan)
    requires brief.settings.corridorAnchors && |brief.request.waypoints| + 3 <= brief.settings.maxWaypoints
    requires PoolClusters(brief.world.earth, pool, brief.request, 1) != []
    requires offset in Ringed(RingTargets(brief.request), 150)
    requires var worst := PoolClusters(brief.world.earth, pool, brief.request, 1)[0];
             brief.world.earth.sideways(worst.center, worst.heading, offset as real,
                                        if side == Left then 1 else -1).Some?
    ensures OnLadder(brief, pool, plan) && |plan.anchors| == 1
    ensures plan.name.Lateral? && plan.name.side == side && plan.name.offset == offset
  {
    var earth, clusters := brief.world.earth, PoolClusters(brief.world.earth, pool, brief.request, 1);
    var offsets, means := Ringed(RingTargets(brief.request), 150), MeansOf(brief.settings, brief.request);
    var guarded := means.zones && offset != offsets[0];
    var anchor := earth.sideways(clusters[0].center, clusters[0].heading, offset as real,
                                 if side == Left then 1 else -1);
    plan := Plan(Lateral(guarded, side, offset), [anchor.value],
                 if guarded then Zones(earth, Severe(clusters, 3), 2) else []);
    assert LateralRung(plan, earth, clusters[0], Severe(clusters, 3), offsets, means);
  }

  method ChoosePlan(brief: Brief, pool: seq<Candidate>, tried: set<Label>) returns (plan: Option<Plan>)
    requires Sane(brief.world, brief.request)
    ensures plan.None? <==> AllTried(brief, pool, tried)
    ensures plan.Some? ==> FirstUntried(brief, pool, tried, plan.value)
  {
    var earth, request, means := brief.world.earth, brief.request, MeansOf(brief.settings, brief.request);
    var clusters := ComputeClusters(earth, pool, request, 1);
    var plans := GreenDetourPlans(earth, clusters, request, means);
    plan := NextUntriedPlan(plans, tried);
    forall other ensures OnLadder(brief, pool, other) <==> other in plans {
    }
    if plan.Some? {
      EarliestIsLowest(plans, tried, plan.value);
    }
  }

  lemma EarliestIsLowest(plans: seq<Plan>, tried: set<Label>, plan: Plan)
    requires Rising(plans, 200000)
    requires exists k :: && 0 <= k < |plans| && plans[k] == plan && plan.name !in tried
                         && forall i :: 0 <= i < k ==> plans[i].name in tried
    ensures forall other :: other in plans && other.name !in tried ==> Place(plan.name) <= Place(other.name)
  {
    var k :| && 0 <= k < |plans| && plans[k] == plan && plan.name !in tried
             && forall i :: 0 <= i < k ==> plans[i].name in tried;
    forall other | other in plans && other.name !in tried ensures Place(plan.name) <= Place(other.name) {
      var n :| 0 <= n < |plans| && plans[n] == other;
      assert k <= n;
    }
  }

  /** What a probe makes of the pool and the result. */
  function RoundOf(brief: Brief, plan: Plan, result: Result, pool: seq<Candidate>, base: Candidate, probe: Probe): Round
    requires pool != []
  {
    if probe.answer.None? then Round(plan, true, false, pool, result)
    else
      var admitted := Admitted(brief.world, pool, probe.answer.value, base, brief.settings.maxActive);
      if admitted == [] then Round(plan, false, false, pool, result)
      else
        var joined := JoinedPool(brief.world, pool, admitted, probe);
        JoinedIsNoSlower(pool, Evaluations(admitted, probe.evaluate), brief.world.duplicate);
        Round(plan, false, true, joined, Adopt(result, joined, RankOf(joined, brief.request, brief.config)))
  }

  function Room(brief: Brief, pool: seq<Candidate>): int {
    brief.settings.maxActive - |pool|
  }

  /** A route the probe's answer adds: the evaluation of one that was heard. */
  ghost predicate Added(brief: Brief, pool: seq<Candidate>, base: Candidate, probe: Probe, e: Candidate) {
    && probe.answer.Some?
    && exists c :: && Heard(brief.world, probe.answer.value, Room(brief, pool), base, c)
                   && probe.evaluate(c) == Some(e)
  }

  /** Some answered route was heard, whether or not its evaluation was lost. */
  ghost predicate SomeHeard(brief: Brief, pool: seq<Candidate>, base: Candidate, probe: Probe) {
    && probe.answer.Some?
    && exists c :: Heard(brief.world, probe.answer.value, Room(brief, pool), base, c)
  }

  /** The new pool: old routes and added ones, each of them represented by a route that is no slower. */
  ghost predicate Enlarged(brief: Brief, pool: seq<Candidate>, base: Candidate, probe: Probe, more: seq<Candidate>) {
    && Dedupe.Irredundant(more, brief.world.duplicate)
    && (forall e :: e in more ==> e in pool || Added(brief, pool, base, probe, e))
    && (forall e :: e in pool || Added(brief, pool, base, probe, e) ==>
                      Dedupe.Represented(e, more, brief.world.duplicate))
  }

  lemma AddedIsEvaluated(brief: Brief, pool: seq<Candidate>, base: Candidate, probe: Probe, e: Candidate)
    requires probe.answer.Some?
    ensures var admitted := Admitted(brief.world, pool, probe.answer.value, base, brief.settings.maxActive);
            EvaluatedFrom(admitted, probe.evaluate, e) <==> Added(brief, pool, base, probe, e)
  {
    var answer, maxActive := probe.answer.value, brief.settings.maxActive;
    var admitted := Admitted(brief.world, pool, answer, base, maxActive);
    if EvaluatedFrom(admitted, probe.evaluate, e) {
      var c :| c in admitted && probe.evaluate(c) == Some(e);
      AdmittedIsExact(brief.world, pool, answer, base, maxActive, c);
    }
    if Added(brief, pool, base, probe, e) {
      var c :| Heard(brief.world, answer, Room(brief, pool), base, c) && probe.evaluate(c) == Some(e);
      AdmittedIsExact(brief.world, pool, answer, base, maxActive, c);
    }
  }

  lemma JoinedIsEnlarged(brief: Brief, pool: seq<Candidate>, base: Candidate, probe: Probe)
    requires probe.answer.Some? && |pool| <= brief.settings.maxActive
    ensures var admitted := Admitted(brief.world, pool, probe.answer.value, base, brief.settings.maxActive);
            && (admitted != [] <==> SomeHeard(brief, pool, base, probe))
            && Enlarged(brief, pool, base, probe, JoinedPool(brief.world, pool, admitted, probe))
  {
    var answer, maxActive := probe.answer.value, brief.settings.maxActive;
    var admitted := Admitted(brief.world, pool, answer, base, maxActive);
    JoinedRepresents(brief.world, pool, answer, base, probe, maxActive);
    forall c ensures c in admitted <==> Heard(brief.world, answer, Room(brief, pool), base, c) {
      AdmittedIsExact(brief.world, pool, answer, base, maxActive, c);
    }
    assert admitted != [] ==> admitted[0] in admitted;
    if SomeHeard(brief, pool, base, probe) {
      var c :| Heard(brief.world, answer, Room(brief, pool), base, c);
      assert c in admitted;
    }
    forall e ensures EvaluatedFrom(admitted, probe.evaluate, e) <==> Added(brief, pool, base, probe, e) {
      AddedIsEvaluated(brief, pool, base, probe, e);
    }
  }

  /** A probe without an answer fails; one that is heard enlarges the pool; any other changes nothing. */
  lemma RoundDecides(brief: Brief, plan: Plan, result: Result, pool: seq<Candidate>, base: Candidate, probe: Probe)
    requires pool != [] && |pool| <= brief.settings.maxActive
    ensures var round := RoundOf(brief, plan, result, pool, base, probe);
            && round.plan == plan && (round.failed <==> probe.answer.None?)
            && (round.ranked <==> SomeHeard(brief, pool, base, probe))
            && (!round.ranked ==> round.pool == pool && round.result == result)
            && (round.ranked ==> Enlarged(brief, pool, base, probe, round.pool))
  {
    if probe.answer.Some? {
      JoinedIsEnlarged(brief, pool, base, probe);
    }
  }

  /** One answered or failed probe. */
  method ProbeOnce(brief: Brief, plan: Plan, result: Result, pool: seq<Candidate>, base: Candidate, probe: Probe)
    returns (round: Round)
    requires pool != []
    ensures round == RoundOf(brief, plan, result, pool, base, probe)
  {
    if probe.answer.None? {
      return Round(plan, true, false, pool, result);
    }
    var joined, changed := Absorb(brief.world, pool, probe.answer.value, base, probe, brief.settings.maxActive);
    if !changed {
      return Round(plan, false, false, pool, result);
    }
    var ranked := Rank(joined, brief.request, brief.config);
    JoinedIsNoSlower(pool,
                     Evaluations(Admitted(brief.world, pool, probe.answer.value, base, brief.settings.maxActive),
                                 probe.evaluate),
                     brief.world.duplicate);
    return Round(plan, false, true, joined, Adopt(result, joined, ranked));
  }

  /** The duration of the fastest route of a non-empty pool. */
  ghost function FastestLive(pool: seq<Candidate>): int {
    if pool == [] then 0 else FastestOf(pool).live
  }

  lemma RoundKeeps(brief: Brief, plan: Plan, result: Result, pool: seq<Candidate>, base: Candidate, probe: Probe)
    requires pool != [] && |pool| <= brief.settings.maxActive && FailsClosed(result, brief.request, brief.config)
    ensures var round := RoundOf(brief, plan, result, pool, base, probe);
            && round.pool != [] && |round.pool| <= brief.settings.maxActive
            && FastestLive(round.pool) <= FastestLive(pool)
            && FailsClosed(round.result, brief.request, brief.config)
            && (result.selected.Some? ==> round.result.selected.Some?)
  {
    if probe.answer.Some? {
      var answer, maxActive := probe.answer.value, brief.settings.maxActive;
      var admitted := Admitted(brief.world, pool, answer, base, maxActive);
      if admitted != [] {
        JoinedIsNoSlower(pool, Evaluations(admitted, probe.evaluate), brief.world.duplicate);
        JoinedRepresents(brief.world, pool, answer, base, probe, maxActive);
        AdoptFailsClosed(result, JoinedPool(brief.world, pool, admitted, probe), brief.request, brief.config);
      }
    }
  }

  // ---- the loop as a sequence of rounds

  ghost function NamesOf(rounds: seq<Round>): set<Label> {
    set i | 0 <= i < |rounds| :: rounds[i].plan.name
  }

  ghost function LatestResult(rounds: seq<Round>, first: Result): Result {
    if rounds == [] then first else rounds[|rounds| - 1].result
  }

  ghost function LatestPool(rounds: seq<Round>, start: seq<Candidate>): seq<Candidate> {
    if rounds == [] then start else rounds[|rounds| - 1].pool
  }

  ghost predicate FailedTwice(rounds: seq<Round>) {
    |rounds| >= 2 && rounds[|rounds| - 1].failed && rounds[|rounds| - 2].failed
  }

  /** The loop ends after these rounds: out of iterations, twice failed, stopped, full, or nothing left to try. */
  ghost predicate Stops(rounds: seq<Round>, brief: Brief, start: seq<Candidate>) {
    || |rounds| >= brief.settings.maxIterations || FailedTwice(rounds) || brief.world.probe(|rounds|).stopped
    || |LatestPool(rounds, start)| >= brief.settings.maxActive
    || AllTried(brief, LatestPool(rounds, start), NamesOf(rounds))
  }

  /** The round that must follow the earlier ones: the loop goes on, takes the first untried plan and probes it. */
  ghost predicate Follows(earlier: seq<Round>, round: Round, brief: Brief, base: Candidate, first: Result,
                          start: seq<Candidate>) {
    var pool := LatestPool(earlier, start);
    && !Stops(earlier, brief, start) && pool != []
    && FirstUntried(brief, pool, NamesOf(earlier), round.plan)
    && round == RoundOf(brief, round.plan, LatestResult(earlier, first), pool, base, brief.world.probe(|earlier|))
  }

  /** Every round is the one that must follow the rounds before it. */
  ghost predicate Chronicle(rounds: seq<Round>, brief: Brief, base: Candidate, first: Result, start: seq<Candidate>) {
    rounds == [] ||
    (&& Chronicle(rounds[..|rounds| - 1], brief, base, first, start)
     && Follows(rounds[..|rounds| - 1], rounds[|rounds| - 1], brief, base, first, start))
  }

  lemma ChronicleGrows(rounds: seq<Round>, next: Round, brief: Brief, base: Candidate, first: Result,
                       start: seq<Candidate>)
    requires Chronicle(rounds, brief, base, first, start) && Follows(rounds, next, brief, base, first, start)
    ensures Chronicle(rounds + [next], brief, base, first, start)
  {
    assert (rounds + [next])[..|rounds|] == rounds;
  }

  // ---- what every run keeps

  ghost predicate DistinctProbes(rounds: seq<Round>) {
    forall i, j :: 0 <= i < j < |rounds| ==> rounds[i].plan.name != rounds[j].plan.name
  }

  ghost predicate AllPlansSound(rounds: seq<Round>, brief: Brief) {
    forall i :: 0 <= i < |rounds| ==>
                  Sound(brief.world.earth, rounds[i].plan, brief.request, MeansOf(brief.settings, brief.request))
  }

  /** Two failures in a row come only at the end. */
  ghost predicate StopsOnFailures(rounds: seq<Round>) {
    forall i :: 0 <= i && i + 2 < |rounds| ==> !(rounds[i].failed && rounds[i + 1].failed)
  }

  /** The pool is bounded and its fastest route never gets slower. */
  ghost predicate PoolsKept(rounds: seq<Round>, start: seq<Candidate>, maxActive: nat) {
    && (forall i :: 0 <= i < |rounds| ==> rounds[i].pool != [] && |rounds[i].pool| <= maxActive)
    && (forall i :: 0 <= i < |rounds| ==> FastestLive(rounds[i].pool) <= FastestLive(start))
    && (forall i, j :: 0 <= i < j < |rounds| ==> FastestLive(rounds[j].pool) <= FastestLive(rounds[i].pool))
  }

  ghost predicate AllFailClosed(rounds: seq<Round>, brief: Brief) {
    forall i :: 0 <= i < |rounds| ==> FailsClosed(rounds[i].result, brief.request, brief.config)
  }

  /** A selection, once made, is only replaced by another. */
  ghost predicate SelectionStays(rounds: seq<Round>, first: Result) {
    && (forall i :: 0 <= i < |rounds| && first.selected.Some? ==> rounds[i].result.selected.Some?)
    && (forall i, j :: 0 <= i < j < |rounds| && rounds[i].result.selected.Some? ==> rounds[j].result.selected.Some?)
  }

  ghost predicate Journey(rounds: seq<Round>, brief: Brief, first: Result, start: seq<Candidate>) {
    && DistinctProbes(rounds) && AllPlansSound(rounds, brief) && StopsOnFailures(rounds)
    && PoolsKept(rounds, start, brief.settings.maxActive) && AllFailClosed(rounds, brief)
    && SelectionStays(rounds, first)
  }

  lemma ProbesGrow(rounds: seq<Round>, next: Round)
    requires DistinctProbes(rounds) && next.plan.name !in NamesOf(rounds)
    ensures DistinctProbes(rounds + [next])
  {
    assert forall i :: 0 <= i < |rounds| ==> rounds[i].plan.name in NamesOf(rounds);
  }

  lemma NamesGrow(rounds: seq<Round>, next: Round)
    ensures NamesOf(rounds + [next]) == NamesOf(rounds) + {next.plan.name}
  {
    var more := rounds + [next];
    assert forall i :: 0 <= i < |rounds| ==> more[i] == rounds[i];
    assert more[|rounds|] == next;
  }

  lemma PoolsGrow(rounds: seq<Round>, next: Round, start: seq<Candidate>, maxActive: nat)
    requires PoolsKept(rounds, start, maxActive) && next.pool != [] && |next.pool| <= maxActive
    requires FastestLive(next.pool) <= FastestLive(LatestPool(rounds, start))
    ensures PoolsKept(rounds + [next], start, maxActive)
  {
    var more := rounds + [next];
    forall i, j | 0 <= i < j < |more| ensures FastestLive(more[j].pool) <= FastestLive(more[i].pool) {
      assert j < |rounds| || FastestLive(rounds[|rounds| - 1].pool) <= FastestLive(rounds[i].pool);
    }
  }

  lemma RoundIsSound(brief: Brief, pool: seq<Candidate>, tried: set<Label>, plan: Plan)
    requires Sane(brief.world, brief.request) && FirstUntried(brief, pool, tried, plan)
    ensures Sound(brief.world.earth, plan, brief.request, MeansOf(brief.settings, brief.request))
  {
    var clusters := PoolClusters(brief.world.earth, pool, brief.request, 1);
    PoolIsClear(brief.world.earth, pool, brief.request, 1, clusters);
    RungIsSound(plan, brief.world.earth, clusters, brief.request, MeansOf(brief.settings, brief.request));
  }

  lemma PlansGrow(rounds: seq<Round>, next: Round, brief: Brief)
    requires AllPlansSound(rounds, brief)
    requires Sound(brief.world.earth, next.plan, brief.request, MeansOf(brief.settings, brief.request))
    ensures AllPlansSound(rounds + [next], brief)
  {
  }

  lemma ClosureGrows(rounds: seq<Round>, next: Round, brief: Brief)
    requires AllFailClosed(rounds, brief) && FailsClosed(next.result, brief.request, brief.config)
    ensures AllFailClosed(rounds + [next], brief)
  {
  }

  lemma SelectionGrows(rounds: seq<Round>, next: Round, first: Result)
    requires SelectionStays(rounds, first)
    requires LatestResult(rounds, first).selected.Some? ==> next.result.selected.Some?
    ensures SelectionStays(rounds + [next], first)
  {
  }

  lemma StopsGrow(rounds: seq<Round>, next: Round)
    requires StopsOnFailures(rounds) && !FailedTwice(rounds)
    ensures StopsOnFailures(rounds + [next])
  {
  }

  lemma JourneyGrows(rounds: seq<Round>, next: Round, brief: Brief, first: Result, start: seq<Candidate>)
    requires Journey(rounds, brief, first, start) && next.plan.name !in NamesOf(rounds) && !FailedTwice(rounds)
    requires Sound(brief.world.earth, next.plan, brief.request, MeansOf(brief.settings, brief.request))
    requires next.pool != [] && |next.pool| <= brief.settings.maxActive
    requires FastestLive(next.pool) <= FastestLive(LatestPool(rounds, start))
    requires FailsClosed(next.result, brief.request, brief.config)
    requires LatestResult(rounds, first).selected.Some? ==> next.result.selected.Some?
    ensures Journey(rounds + [next], brief, first, start)
  {
    ProbesGrow(rounds, next);
    PoolsGrow(rounds, next, start, brief.settings.maxActive);
    PlansGrow(rounds, next, brief);
    ClosureGrows(rounds, next, brief);
    SelectionGrows(rounds, next, first);
    StopsGrow(rounds, next);
  }

  /** The state in which a run starts. */
  ghost predicate Begins(brief: Brief, first: Result, start: seq<Candidate>) {
    && Sane(brief.world, brief.request) && start != [] && |start| <= brief.settings.maxActive
    && FailsClosed(first, brief.request, brief.config)
  }

  lemma LatestKeeps(rounds: seq<Round>, brief: Brief, first: Result, start: seq<Candidate>)
    requires Journey(rounds, brief, first, start) && Begins(brief, first, start)
    ensures LatestPool(rounds, start) != [] && |LatestPool(rounds, start)| <= brief.settings.maxActive
    ensures FailsClosed(LatestResult(rounds, first), brief.request, brief.config)
    ensures FastestLive(LatestPool(rounds, start)) <= FastestLive(start)
  {
  }

  lemma FollowerKeeps(rounds: seq<Round>, next: Round, brief: Brief, base: Candidate, first: Result,
                      start: seq<Candidate>)
    requires Journey(rounds, brief, first, start) && Begins(brief, first, start)
    requires Follows(rounds, next, brief, base, first, start)
    ensures Journey(rounds + [next], brief, first, start) && next.pool != []
  {
    LatestKeeps(rounds, brief, first, start);
    var pool, result := LatestPool(rounds, start), LatestResult(rounds, first);
    RoundKeeps(brief, next.plan, result, pool, base, brief.world.probe(|rounds|));
    RoundIsSound(brief, pool, NamesOf(rounds), next.plan);
    JourneyGrows(rounds, next, brief, first, start);
  }

  /** What every probe asks for, the trip's own points included, is something the provider takes. */
  lemma ProbesFitProvider(rounds: seq<Round>, brief: Brief, first: Result, start: seq<Candidate>, i: nat)
    requires Journey(rounds, brief, first, start) && i < |rounds|
    ensures var plan, s := rounds[i].plan, brief.settings;
            && (plan.anchors != [] || plan.zones != [])
            && (plan.zones != [] ==> s.avoidZones && |plan.zones| <= 12)
            && (plan.anchors != [] ==>
                  s.corridorAnchors && |brief.request.waypoints| + |plan.anchors| + 2 <= s.maxWaypoints)
  {
    assert Sound(brief.world.earth, rounds[i].plan, brief.request, MeansOf(brief.settings, brief.request));
  }

  lemma JourneyOfWhole(rounds: seq<Round>, brief: Brief, first: Result, start: seq<Candidate>)
    requires rounds != [] && Journey(rounds[..|rounds| - 1] + [rounds[|rounds| - 1]], brief, first, start)
    ensures Journey(rounds, brief, first, start)
  {
    assert rounds[..|rounds| - 1] + [rounds[|rounds| - 1]] == rounds;
  }

  lemma {:induction false} ChronicleKeeps(rounds: seq<Round>, brief: Brief, base: Candidate, first: Result,
                                          start: seq<Candidate>)
    requires Chronicle(rounds, brief, base, first, start) && Begins(brief, first, start)
    ensures Journey(rounds, brief, first, start)
  {
    if rounds != [] {
      ChronicleKeeps(rounds[..|rounds| - 1], brief, base, first, start);
      FollowerKeeps(rounds[..|rounds| - 1], rounds[|rounds| - 1], brief, base, first, start);
      JourneyOfWhole(rounds, brief, first, start);
    }
  }

  // ---- the loop

  ghost function TrailingFailures(rounds: seq<Round>): nat {
    if rounds == [] || !rounds[|rounds| - 1].failed then 0 else 1 + TrailingFailures(rounds[..|rounds| - 1])
  }

  lemma FailuresGrow(rounds: seq<Round>, next: Round)
    ensures TrailingFailures(rounds + [next]) == if next.failed then TrailingFailures(rounds) + 1 else 0
    ensures TrailingFailures(rounds) >= 2 <==> FailedTwice(rounds)
  {
    assert (rounds + [next])[..|rounds|] == rounds;
    if rounds != [] && rounds[|rounds| - 1].failed {
      var front := rounds[..|rounds| - 1];
      assert |rounds| >= 2 ==> front[|front| - 1] == rounds[|rounds| - 2];
    }
  }

  /** The loop's variables. */
  datatype Loop = Loop(result: Result, pool: seq<Candidate>, tried: set<Label>, errors: int, rounds: seq<Round>)

  /** The variables summarize the rounds so far. */
  ghost predicate InLoop(loop: Loop, brief: Brief, base: Candidate, first: Result, start: seq<Candidate>) {
    && Chronicle(loop.rounds, brief, base, first, start) && loop.tried == NamesOf(loop.rounds)
    && loop.result == LatestResult(loop.rounds, first) && loop.pool == LatestPool(loop.rounds, start) && loop.pool != []
    && loop.errors == TrailingFailures(loop.rounds)
  }

  function Advance(loop: Loop, round: Round): Loop {
    Loop(round.result, round.pool, loop.tried + {round.plan.name}, if round.failed then loop.errors + 1 else 0,
         loop.rounds + [round])
  }

  lemma LoopGrows(loop: Loop, round: Round, brief: Brief, base: Candidate, first: Result, start: seq<Candidate>)
    requires Begins(brief, first, start) && InLoop(loop, brief, base, first, start)
    requires Follows(loop.rounds, round, brief, base, first, start)
    ensures InLoop(Advance(loop, round), brief, base, first, start)
  {
    ChronicleGrows(loop.rounds, round, brief, base, first, start);
    NamesGrow(loop.rounds, round);
    FailuresGrow(loop.rounds, round);
    ChronicleKeeps(loop.rounds, brief, base, first, start);
    FollowerKeeps(loop.rounds, round, brief, base, first, start);
  }

  /** One iteration; none means that the loop ends here. */
  method Iterate(brief: Brief, base: Candidate, ghost first: Result, ghost start: seq<Candidate>, loop: Loop)
    returns (next: Option<Loop>)
    requires Begins(brief, first, start) && InLoop(loop, brief, base, first, start)
    requires |loop.rounds| < brief.settings.maxIterations && !FailedTwice(loop.rounds)
    ensures next.None? <==> Stops(loop.rounds, brief, start)
    ensures next.Some? ==> InLoop(next.value, brief, base, first, start) && |next.value.rounds| == |loop.rounds| + 1
  {
    var probe := brief.world.probe(|loop.rounds|);
    if probe.stopped || |loop.pool| >= brief.settings.maxActive {
      return None;
    }
    var plan := ChoosePlan(brief, loop.pool, loop.tried);
    if plan.None? {
      return None;
    }
    var round := ProbeOnce(brief, plan.value, loop.result, loop.pool, base, probe);
    LoopGrows(loop, round, brief, base, first, start);
    return Some(Advance(loop, round));
  }

  /** Probes the ladder; it ends exactly when the loop must. */
  method ProbeLadder(brief: Brief, base: Candidate, first: Result, start: seq<Candidate>) returns (loop: Loop)
    requires Begins(brief, first, start)
    ensures InLoop(loop, brief, base, first, start) && Stops(loop.rounds, brief, start)
  {
    loop := Loop(first, start, {}, 0, []);
    while |loop.rounds| < brief.settings.maxIterations
      invariant InLoop(loop, brief, base, first, start) && !FailedTwice(loop.rounds)
      decreases brief.settings.maxIterations - |loop.rounds|
    {
      var next := Iterate(brief, base, first, start, loop);
      if next.None? {
        return;
      }
      loop := next.value;
      FailuresGrow(loop.rounds, loop.rounds[|loop.rounds| - 1]);
      if loop.errors >= 2 {
        return;
      }
    }
  }

  // ---- the whole search

  function InitialResult(evaluated: seq<Candidate>, request: Request, config: ScoringConfig): Result
    requires evaluated != []
  {
    var ranked := RankOf(evaluated, request, config);
    Result(ranked.selected, ranked.eligible, ranked.bestEffort, FastestOf(evaluated))
  }

  predicate AllProvenClear(m: Metrics) {
    && m.redDuration <= 0 && m.orangeDuration <= 0 && m.yellowDuration <= 0 && m.unknownDuration <= 0
    && m.redDistance <= 0 && m.orangeDistance <= 0 && m.yellowDistance <= 0 && m.unknownDistance <= 0
  }

  /** Whether a detour is worth looking for. */
  predicate ShouldEnhance(settings: Settings, request: Request, selected: Option<Candidate>) {
    && settings.enhanced && settings.reranking && (request.mode == Greenest || request.mode == StrictGreen)
    && if selected.None? then request.mode == StrictGreen else !AllProvenClear(selected.value.metrics)
  }

  predicate SomeTolls(candidates: seq<Candidate>) {
    exists i :: 0 <= i < |candidates| && candidates[i].tolls
  }

  method AnyTollRoute(candidates: seq<Candidate>) returns (found: bool)
    ensures found <==> SomeTolls(candidates)
  {
    for i := 0 to |candidates|
      invariant forall k :: 0 <= k < i ==> !candidates[k].tolls
    {
      if candidates[i].tolls {
        return true;
      }
    }
    return false;
  }

  /** The pool after the toll-free probe, which is asked only when a toll road is used and allowed. */
  function TollFreePool(brief: Brief, evaluated: seq<Candidate>, base: Candidate): seq<Candidate> {
    var probe, world := brief.world.tollFree, brief.world;
    if brief.settings.tollFreeProbe && !brief.request.avoidTolls && SomeTolls(evaluated)
       && !probe.stopped && probe.answer.Some? then
      var admitted := Admitted(world, evaluated, probe.answer.value, base, brief.settings.maxActive);
      if admitted == [] then evaluated else JoinedPool(world, evaluated, admitted, probe)
    else evaluated
  }

  lemma TollFreeKeeps(brief: Brief, evaluated: seq<Candidate>, base: Candidate)
    requires evaluated != [] && |evaluated| <= brief.settings.maxActive
    ensures var pool := TollFreePool(brief, evaluated, base);
            pool != [] && |pool| <= brief.settings.maxActive && FastestLive(pool) <= FastestLive(evaluated)
  {
    var probe := brief.world.tollFree;
    if probe.answer.Some? {
      var admitted := Admitted(brief.world, evaluated, probe.answer.value, base, brief.settings.maxActive);
      JoinedIsNoSlower(evaluated, Evaluations(admitted, probe.evaluate), brief.world.duplicate);
      JoinedRepresents(brief.world, evaluated, probe.answer.value, base, probe, brief.settings.maxActive);
    }
  }

  /** A toll-free answer competes in the pool; it is ranked only with the next probe. */
  method ProbeTollFree(brief: Brief, evaluated: seq<Candidate>, base: Candidate) returns (pool: seq<Candidate>)
    requires evaluated != [] && |evaluated| <= brief.settings.maxActive
    ensures pool == TollFreePool(brief, evaluated, base)
    ensures pool != [] && |pool| <= brief.settings.maxActive && FastestLive(pool) <= FastestLive(evaluated)
  {
    pool := evaluated;
    var tolls := AnyTollRoute(evaluated);
    var probe := brief.world.tollFree;
    TollFreeKeeps(brief, evaluated, base);
    if brief.settings.tollFreeProbe && !brief.request.avoidTolls && tolls && !probe.stopped && probe.answer.Some? {
      var changed;
      pool, changed := Absorb(brief.world, evaluated, probe.answer.value, base, probe, brief.settings.maxActive);
    }
  }

  /**
    A toll-free route is asked for if and only if that is switched on, tolls are allowed and
    used by some route, and the budget lasts; and what is heard enlarges the pool.
    */
  lemma TollFreeDecides(brief: Brief, evaluated: seq<Candidate>, base: Candidate)
    requires evaluated != [] && |evaluated| <= brief.settings.maxActive
    ensures var probe, pool := brief.world.tollFree, TollFreePool(brief, evaluated, base);
            if brief.settings.tollFreeProbe && !brief.request.avoidTolls && (exists c :: c in evaluated && c.tolls)
               && !probe.stopped && SomeHeard(brief, evaluated, base, probe)
            then Enlarged(brief, evaluated, base, probe, pool)
            else pool == evaluated
  {
    if brief.world.tollFree.answer.Some? {
      JoinedIsEnlarged(brief, evaluated, base, brief.world.tollFree);
    }
    assert SomeTolls(evaluated) <==> exists c :: c in evaluated && c.tolls;
  }

  /** The route detours must connect with: the selected one, else the fastest. */
  function BaseOf(first: Result): Candidate {
    if first.selected.Some? then first.selected.value else first.fastest
  }

  /** start and rounds are the run of the search over the evaluated pool. */
  ghost predicate SearchRun(brief: Brief, evaluated: seq<Candidate>, start: seq<Candidate>, rounds: seq<Round>) {
    && evaluated != []
    && var first := InitialResult(evaluated, brief.request, brief.config);
    if ShouldEnhance(brief.settings, brief.request, first.selected) then
      && start == TollFreePool(brief, evaluated, BaseOf(first))
      && Chronicle(rounds, brief, BaseOf(first), first, start) && Stops(rounds, brief, start)
    else start == evaluated && rounds == []
  }

  /**
    From the first ranking to the last probe, in every world: a STRICT_GREEN search offers
    nothing that is not proven green, every probe is the first untried plan of the ladder,
    no pool outgrows its limit, and the fastest route never gets slower.
    */
  lemma SearchKeeps(brief: Brief, evaluated: seq<Candidate>, start: seq<Candidate>, rounds: seq<Round>)
    requires Sane(brief.world, brief.request) && |evaluated| <= brief.settings.maxActive
    requires SearchRun(brief, evaluated, start, rounds)
    ensures var first := InitialResult(evaluated, brief.request, brief.config);
            && Journey(rounds, brief, first, start) && |rounds| <= brief.settings.maxIterations
            && FailsClosed(first, brief.request, brief.config)
            && FailsClosed(LatestResult(rounds, first), brief.request, brief.config)
            && LatestPool(rounds, start) != [] && |LatestPool(rounds, start)| <= brief.settings.maxActive
            && FastestLive(LatestPool(rounds, start)) <= FastestLive(evaluated)
  {
    var first := InitialResult(evaluated, brief.request, brief.config);
    if brief.request.mode == StrictGreen {
      StrictGreenFailsClosed(evaluated, brief.request, brief.config);
    }
    TollFreeKeeps(brief, evaluated, BaseOf(first));
    if ShouldEnhance(brief.settings, brief.request, first.selected) {
      ChronicleKeeps(rounds, brief, BaseOf(first), first, start);
      LatestKeeps(rounds, brief, first, start);
    }
  }

  /** A stretch that is red, orange, yellow or of unknown traffic, in seconds or in metres. */
  predicate Blemished(m: Metrics) {
    || m.redDuration > 0 || m.orangeDuration > 0 || m.yellowDuration > 0 || m.unknownDuration > 0
    || m.redDistance > 0 || m.orangeDistance > 0 || m.yellowDistance > 0 || m.unknownDistance > 0
  }

  /**
    A search probes if and only if it is green, switched on, and has something to gain: in
    STRICT_GREEN a first ranking that selects nothing, in both green modes a selection with
    a blemish. It then ends only when the loop must; any other search probes nothing.
    */
  lemma ProbingIsExact(brief: Brief, evaluated: seq<Candidate>, start: seq<Candidate>, rounds: seq<Round>)
    requires Sane(brief.world, brief.request) && |evaluated| <= brief.settings.maxActive
    requires SearchRun(brief, evaluated, start, rounds)
    ensures var mode, selected := brief.request.mode, RankOf(evaluated, brief.request, brief.config).selected;
            var on := brief.settings.enhanced && brief.settings.reranking;
            var gain := if selected.None? then mode == StrictGreen else Blemished(selected.value.metrics);
            if on && (mode == StrictGreen || mode == Greenest) && gain then Stops(rounds, brief, start)
            else rounds == [] && start == evaluated
    ensures var final := LatestResult(rounds, InitialResult(evaluated, brief.request, brief.config)).selected;
            final.None? && brief.request.mode == StrictGreen && brief.settings.enhanced && brief.settings.reranking ==>
              Stops(rounds, brief, start)
  {
    SearchKeeps(brief, evaluated, start, rounds);
  }

  method Search(brief: Brief, evaluated: seq<Candidate>)
    returns (result: Result, pool: seq<Candidate>, start: seq<Candidate>, rounds: seq<Round>)
    requires Sane(brief.world, brief.request) && evaluated != [] && |evaluated| <= brief.settings.maxActive
    ensures SearchRun(brief, evaluated, start, rounds)
    ensures result == LatestResult(rounds, InitialResult(evaluated, brief.request, brief.config))
    ensures pool == LatestPool(rounds, start)
    ensures FailsClosed(result, brief.request, brief.config)
    ensures Journey(rounds, brief, InitialResult(evaluated, brief.request, brief.config), start)
    ensures result.selected.None? && brief.request.mode == StrictGreen
            && brief.settings.enhanced && brief.settings.reranking ==>
              Stops(rounds, brief, start)
  {
    var ranked := Rank(evaluated, brief.request, brief.config);
    var fastest := FindFastest(evaluated);
    var first := Result(ranked.selected, ranked.eligible, ranked.bestEffort, fastest);
    result, pool, start, rounds := first, evaluated, evaluated, [];
    if brief.request.mode == StrictGreen {
      StrictGreenFailsClosed(evaluated, brief.request, brief.config);
    }
    if ShouldEnhance(brief.settings, brief.request, ranked.selected) {
      start := ProbeTollFree(brief, evaluated, BaseOf(first));
      var loop := ProbeLadder(brief, BaseOf(first), first, start);
      result, pool, rounds := loop.result, loop.pool, loop.rounds;
    }
    SearchKeeps(brief, evaluated, start, rounds);
    ProbingIsExact(brief, evaluated, start, rounds);
  }
}
