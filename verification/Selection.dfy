/**
  Does the route a search finally selects meet the request's limits? A ranking that selects
  nothing leaves the earlier selection in place while the fastest route changes, so the
  answer depends on the last ranking.
  */
module Selection {
  import opened Domain
  import opened Sorting
  import opened Ranking
  import opened Clusters
  import opened Ladder
  import opened Enhance
  import Dedupe

  // ---- what a ranking says of its selection

  lemma MeetsIgnoresScore(c: Candidate, score: real, fastest: Candidate, request: Request, config: ScoringConfig)
    ensures Meets(c.(score := score), fastest, request, config) <==> Meets(c, fastest, request, config)
  {
  }

  lemma AcceptedMeets(c: Candidate, fastest: Candidate, request: Request, config: ScoringConfig)
    ensures RulesFor(fastest, request, config).Accepts(c) <==> Meets(c, fastest, request, config)
  {
    ConstraintsAreExact(c, fastest, request, config);
  }

  lemma NothingSelectedNothingAccepted(pool: seq<Candidate>, rules: Rules)
    requires Arrange(pool, rules).selected.None?
    ensures forall c :: c in pool ==> !rules.Accepts(c)
  {
    var accepted := Accepted(pool, rules);
    var eligible := Map(accepted, rules.score);
    assert |multiset(StableSort(eligible, ByTuple(rules.getters)))| == |multiset(eligible)|;
    assert accepted == [];
    forall c | c in pool ensures !rules.Accepts(c) {
      AcceptedMember(pool, rules, c);
    }
  }

  lemma SelectedOrigin(pool: seq<Candidate>, rules: Rules) returns (origin: Candidate)
    requires Arrange(pool, rules).selected.Some?
    ensures origin in pool && rules.Accepts(origin) && Arrange(pool, rules).selected.value == rules.score(origin)
  {
    var ranked := Arrange(pool, rules);
    assert ranked.eligible[0] in ranked.eligible;
    origin := EligibleOrigin(pool, rules, ranked.eligible[0]);
  }

  lemma RankIsArrangement(pool: seq<Candidate>, request: Request, config: ScoringConfig)
    requires pool != []
    ensures RankOf(pool, request, config) == Arrange(pool, RulesFor(FastestOf(pool), request, config))
  {
  }

  lemma ScoreKeepsRoute(c: Candidate, fastest: Candidate, request: Request, config: ScoringConfig)
    ensures var scored := RulesFor(fastest, request, config).score(c); scored == c.(score := scored.score)
  {
  }

  /** A route of the pool, up to its score. */
  ghost predicate StillPooled(s: Candidate, pool: seq<Candidate>) {
    exists c :: c in pool && s == c.(score := s.score)
  }

  /** The ranking selects a route of the pool that meets every demand, or every route of the pool fails one. */
  lemma RankingDecides(pool: seq<Candidate>, request: Request, config: ScoringConfig)
    requires pool != []
    ensures var selected := RankOf(pool, request, config).selected;
            && (selected.Some? ==>
                  StillPooled(selected.value, pool) && Meets(selected.value, FastestOf(pool), request, config))
            && (selected.None? ==> forall s :: StillPooled(s, pool) ==> !Meets(s, FastestOf(pool), request, config))
  {
    var fastest := FastestOf(pool);
    var rules := RulesFor(fastest, request, config);
    RankIsArrangement(pool, request, config);
    if Arrange(pool, rules).selected.Some? {
      var origin := SelectedOrigin(pool, rules);
      ScoreKeepsRoute(origin, fastest, request, config);
      AcceptedMeets(origin, fastest, request, config);
      MeetsIgnoresScore(origin, rules.score(origin).score, fastest, request, config);
    } else {
      NothingSelectedNothingAccepted(pool, rules);
      forall s | StillPooled(s, pool) ensures !Meets(s, fastest, request, config) {
        var c :| c in pool && s == c.(score := s.score);
        AcceptedMeets(c, fastest, request, config);
        MeetsIgnoresScore(c, s.score, fastest, request, config);
      }
    }
  }

  // ---- over a whole search

  /** The pool that was ranked last. */
  ghost function LastRankedPool(rounds: seq<Round>, evaluated: seq<Candidate>): seq<Candidate> {
    if rounds == [] then evaluated
    else if rounds[|rounds| - 1].ranked then rounds[|rounds| - 1].pool
    else LastRankedPool(rounds[..|rounds| - 1], evaluated)
  }

  /** The selection is the first of the alternatives, and without one there are none. */
  predicate Offers(result: Result) {
    result.selected == if result.alternatives == [] then None else Some(result.alternatives[0])
  }

  /** The result belongs to the pool ranked last, and its selection meets what does not depend on the others. */
  ghost predicate Tracks(result: Result, pool: seq<Candidate>, request: Request, config: ScoringConfig) {
    && pool != [] && result.fastest == FastestOf(pool)
    && (RankOf(pool, request, config).selected.Some? ==> result.selected == RankOf(pool, request, config).selected)
    && result.bestEffort == RankOf(pool, request, config).bestEffort && Offers(result)
    && (result.selected.Some? ==> MeetsAlone(result.selected.value, request, config))
  }

  lemma RoundOutcome(brief: Brief, plan: Plan, result: Result, pool: seq<Candidate>, base: Candidate, probe: Probe)
    requires pool != []
    ensures var round := RoundOf(brief, plan, result, pool, base, probe);
            && (!round.ranked ==> round.result == result)
            && (round.ranked ==>
                  && round.pool != []
                  && round.result == Adopt(result, round.pool, RankOf(round.pool, brief.request, brief.config)))
  {
    if probe.answer.Some? {
      var admitted := Admitted(brief.world, pool, probe.answer.value, base, brief.settings.maxActive);
      JoinedIsNoSlower(pool, Evaluations(admitted, probe.evaluate), brief.world.duplicate);
    }
  }

  lemma AdoptTracks(result: Result, pool: seq<Candidate>, request: Request, config: ScoringConfig)
    requires pool != [] && (result.selected.Some? ==> MeetsAlone(result.selected.value, request, config))
    requires Offers(result)
    ensures Tracks(Adopt(result, pool, RankOf(pool, request, config)), pool, request, config)
  {
    RankingDecides(pool, request, config);
  }

  lemma {:induction false} ChronicleTracks(rounds: seq<Round>, brief: Brief, base: Candidate, first: Result,
                                           start: seq<Candidate>,
                                           evaluated: seq<Candidate>)
    requires Chronicle(rounds, brief, base, first, start) && Tracks(first, evaluated, brief.request, brief.config)
    ensures Tracks(LatestResult(rounds, first), LastRankedPool(rounds, evaluated), brief.request, brief.config)
  {
    if rounds != [] {
      var front, round := rounds[..|rounds| - 1], rounds[|rounds| - 1];
      ChronicleTracks(front, brief, base, first, start, evaluated);
      RoundOutcome(brief, round.plan, LatestResult(front, first), LatestPool(front, start), base,
                   brief.world.probe(|front|));
      if round.ranked {
        AdoptTracks(LatestResult(front, first), round.pool, brief.request, brief.config);
      }
    }
  }

  lemma InitialTracks(evaluated: seq<Candidate>, request: Request, config: ScoringConfig)
    requires evaluated != []
    ensures Tracks(InitialResult(evaluated, request, config), evaluated, request, config)
  {
    RankingDecides(evaluated, request, config);
  }

  /** What decides, in terms of the last ranking alone, whether a tracked selection meets the limits. */
  lemma TrackedSelection(result: Result, pool: seq<Candidate>, request: Request, config: ScoringConfig)
    requires Tracks(result, pool, request, config) && result.selected.Some?
    ensures var s := result.selected.value;
            Meets(s, result.fastest, request, config) <==>
            || RankOf(pool, request, config).selected.Some?
            || (!StillPooled(s, pool) && WithinExtra(s, result.fastest, request))
  {
    RankingDecides(pool, request, config);
  }

  /**
    In every search: the final selection meets every demand against the fastest route of the
    result if and only if the last ranking selected a route, or deduplication has dropped the
    selection from the ranked pool and it is within the extra distance and time of that
    fastest route. A selection that is merely kept while still in the pool always fails.
    */
  lemma FinalSelectionIsExact(brief: Brief, evaluated: seq<Candidate>, start: seq<Candidate>, rounds: seq<Round>)
    requires SearchRun(brief, evaluated, start, rounds)
    requires LatestResult(rounds, InitialResult(evaluated, brief.request, brief.config)).selected.Some?
    ensures var result := LatestResult(rounds, InitialResult(evaluated, brief.request, brief.config));
            var pool, s := LastRankedPool(rounds, evaluated), result.selected.value;
            && pool != [] && result.fastest == FastestOf(pool)
            && (Meets(s, result.fastest, brief.request, brief.config) <==>
                || RankOf(pool, brief.request, brief.config).selected.Some?
                || (!StillPooled(s, pool) && WithinExtra(s, result.fastest, brief.request)))
  {
    var first := InitialResult(evaluated, brief.request, brief.config);
    InitialTracks(evaluated, brief.request, brief.config);
    ChronicleTracks(rounds, brief, BaseOf(first), first, start, evaluated);
    TrackedSelection(LatestResult(rounds, first), LastRankedPool(rounds, evaluated), brief.request, brief.config);
  }

  /** The pool of the last ranking that selected a route, or the first pool if none did. */
  ghost function SelectingPool(rounds: seq<Round>, evaluated: seq<Candidate>, request: Request,
                               config: ScoringConfig): seq<Candidate> {
    if rounds == [] then evaluated
    else
      var last := rounds[|rounds| - 1];
      if last.ranked && RankOf(last.pool, request, config).selected.Some? then last.pool
      else SelectingPool(rounds[..|rounds| - 1], evaluated, request, config)
  }

  ghost predicate Offered(result: Result, ranked: Ranked) {
    result.selected == ranked.selected && result.alternatives == ranked.eligible
  }

  lemma {:induction false} ChronicleOffers(rounds: seq<Round>, brief: Brief, base: Candidate, first: Result,
                                           start: seq<Candidate>, evaluated: seq<Candidate>)
    requires Chronicle(rounds, brief, base, first, start)
    requires Offered(first, RankOf(evaluated, brief.request, brief.config))
    ensures Offered(LatestResult(rounds, first),
                    RankOf(SelectingPool(rounds, evaluated, brief.request, brief.config), brief.request, brief.config))
  {
    if rounds != [] {
      var front, round := rounds[..|rounds| - 1], rounds[|rounds| - 1];
      ChronicleOffers(front, brief, base, first, start, evaluated);
      RoundOutcome(brief, round.plan, LatestResult(front, first), LatestPool(front, start), base,
                   brief.world.probe(|front|));
      if round.ranked {
        AdoptOffers(LatestResult(front, first), round.pool, RankOf(round.pool, brief.request, brief.config));
      }
    }
  }

  lemma AdoptOffers(result: Result, pool: seq<Candidate>, ranked: Ranked)
    requires pool != []
    ensures ranked.selected.Some? ==> Offered(Adopt(result, pool, ranked), ranked)
    ensures ranked.selected.None? ==> Adopt(result, pool, ranked).selected == result.selected
                                      && Adopt(result, pool, ranked).alternatives == result.alternatives
  {
  }

  /**
    What every search ends with: selection and alternatives of the last ranking that
    selected a route, best-effort routes and fastest route of the last ranking, and the
    selection leading the alternatives.
    */
  lemma {:induction false} SearchOffers(brief: Brief, evaluated: seq<Candidate>, start: seq<Candidate>,
                                        rounds: seq<Round>)
    requires SearchRun(brief, evaluated, start, rounds)
    ensures var result := LatestResult(rounds, InitialResult(evaluated, brief.request, brief.config));
            var selecting := SelectingPool(rounds, evaluated, brief.request, brief.config);
            && Offered(result, RankOf(selecting, brief.request, brief.config))
            && Tracks(result, LastRankedPool(rounds, evaluated), brief.request, brief.config)
  {
    var first := InitialResult(evaluated, brief.request, brief.config);
    InitialTracks(evaluated, brief.request, brief.config);
    ChronicleTracks(rounds, brief, BaseOf(first), first, start, evaluated);
    ChronicleOffers(rounds, brief, BaseOf(first), first, start, evaluated);
  }

  /** A probe's answer holds a plausible route of the same trip that evaluates to this one. */
  ghost predicate Supplies(world: World, probe: Probe, base: Candidate, e: Candidate) {
    && probe.answer.Some?
    && exists c :: && c in probe.answer.value && world.plausible(c) && ConnectsSameTrip(world.earth, c, base)
                   && probe.evaluate(c) == Some(e)
  }

  ghost predicate SomeRoundSupplies(world: World, rounds: nat, base: Candidate, e: Candidate) {
    exists k: nat :: k < rounds && Supplies(world, world.probe(k), base, e)
  }

  lemma AddedIsSupplied(brief: Brief, pool: seq<Candidate>, base: Candidate, probe: Probe, e: Candidate)
    requires Added(brief, pool, base, probe, e)
    ensures Supplies(brief.world, probe, base, e)
  {
    var c :| Heard(brief.world, probe.answer.value, Room(brief, pool), base, c) && probe.evaluate(c) == Some(e);
  }

  lemma {:induction false} ChronicleOrigins(rounds: seq<Round>, brief: Brief, base: Candidate, first: Result,
                                            start: seq<Candidate>, e: Candidate)
    requires Chronicle(rounds, brief, base, first, start) && Begins(brief, first, start)
    requires e in LatestPool(rounds, start)
    ensures e in start || SomeRoundSupplies(brief.world, |rounds|, base, e)
  {
    if rounds != [] {
      var front, round := rounds[..|rounds| - 1], rounds[|rounds| - 1];
      var pool, probe := LatestPool(front, start), brief.world.probe(|front|);
      ChronicleKeeps(front, brief, base, first, start);
      LatestKeeps(front, brief, first, start);
      RoundDecides(brief, round.plan, LatestResult(front, first), pool, base, probe);
      if e in pool {
        ChronicleOrigins(front, brief, base, first, start, e);
      } else {
        AddedIsSupplied(brief, pool, base, probe, e);
        assert |front| < |rounds|;
      }
    }
  }

  /** Every route of the final pool was evaluated at first, or is a plausible answer to a probe of this trip. */
  lemma PoolOrigins(brief: Brief, evaluated: seq<Candidate>, start: seq<Candidate>, rounds: seq<Round>, e: Candidate)
    requires Sane(brief.world, brief.request) && |evaluated| <= brief.settings.maxActive
    requires SearchRun(brief, evaluated, start, rounds) && e in LatestPool(rounds, start)
    ensures var selected := RankOf(evaluated, brief.request, brief.config).selected;
            var base := if selected.Some? then selected.value else FastestOf(evaluated);
            || e in evaluated || Supplies(brief.world, brief.world.tollFree, base, e)
            || SomeRoundSupplies(brief.world, |rounds|, base, e)
  {
    var first := InitialResult(evaluated, brief.request, brief.config);
    SearchKeeps(brief, evaluated, start, rounds);
    if ShouldEnhance(brief.settings, brief.request, first.selected) {
      TollFreeKeeps(brief, evaluated, BaseOf(first));
      ChronicleOrigins(rounds, brief, BaseOf(first), first, start, e);
      TollFreeDecides(brief, evaluated, BaseOf(first));
      if e in start && e !in evaluated {
        AddedIsSupplied(brief, evaluated, BaseOf(first), brief.world.tollFree, e);
      }
    }
  }

  // ---- a search in which the selection is merely kept

  const HOME := GeoPoint(55.0, 37.0)
  const WORK := GeoPoint(55.2, 37.0)
  const BRIDGE := GeoPoint(55.1, 37.0)
  const TUNNEL := GeoPoint(55.1, 37.1)

  const JAM := Segment([TUNNEL, BRIDGE], 1000, 1000, 0, 0.0, Yellow, Confidence(High, 0.9), 1.0, DgisTrafficColor)

  /** A usable route with a yellow stretch over the bridge. */
  const YELLOW_ROUTE := Candidate("yellow", Realtime, [HOME, WORK], 1000, 1000, 0, 0, [JAM], false, false, false,
                                  Confidence(High, 0.9), 0.0,
                                  NO_METRICS.(yellowDistance := 1000, yellowDuration := 1000))

  /** A faster route without evidence: its confidence is below the minimum. */
  function DoubtfulRoute(live: int): Candidate {
    Candidate("doubtful", Realtime, [HOME, WORK], 1000, live, 0, 0, [], false, false, false, Confidence(Low, 0.1), 0.0,
              NO_METRICS)
  }

  const HURRIED := Request(HOME, WORK, [], Greenest, 5000, 0.0, 60, false, false, 1.0)

  /** Any two different points are five kilometres apart. */
  const FLAT_EARTH := Earth((p: GeoPoint, q: GeoPoint) => if p == q then 0.0 else 5000.0,
                            (p: GeoPoint, q: GeoPoint, r: GeoPoint) => 0.0,
                            (p: GeoPoint, heading: real, offset: real, side: int) => None,
                            (p: GeoPoint, radius: real) => true)

  /** The provider answers the only probe with the doubtful route; routes are duplicates or not. */
  function Example(live: int, duplicates: bool): Brief {
    var silent := Probe(true, None, (c: Candidate) => None);
    var answering := Probe(false, Some([DoubtfulRoute(live)]), (c: Candidate) => Some(c));
    Brief(World(FLAT_EARTH, (a: Candidate, b: Candidate) => duplicates, (c: Candidate) => true, silent,
                (n: nat) => answering),
          HURRIED, DEFAULT_SCORING, Settings(true, true, false, 10, 1, true, false, 0))
  }

  // what the ladder offers

  lemma SingleScan(earth: Earth, segment: Segment, minimum: int)
    requires Congested(segment, minimum) && segment.distance > 0
    ensures ClustersOf(earth, [segment], minimum) == [ClusterOf(earth, Extend(NO_STRETCH, segment))]
  {
    assert [segment][..0] == [];
    assert ScanOf(earth, [segment], minimum) == Scan([], Extend(NO_STRETCH, segment));
  }

  lemma SingleCandidate(earth: Earth, candidate: Candidate, minimum: int)
    ensures RawClusters(earth, [candidate], minimum) == ClustersOf(earth, candidate.segments, minimum)
  {
    assert [candidate][..0] == [];
    assert RawClusters(earth, [], minimum) == [];
  }

  lemma SingleCluster(earth: Earth, c: Cluster, request: Request)
    requires !TooClose(earth, c, request)
    ensures StableSort(Kept(earth, MergedOf(earth, [c]), request), Heavier()) == [Shrink(earth, c, request)]
  {
    assert [c][..0] == [];
    assert MergedOf(earth, [c]) == [c];
    assert Kept(earth, [c], request) == [Shrink(earth, c, request)];
    assert [Shrink(earth, c, request)][..0] == [];
  }

  lemma JamIsCluster() returns (c: Cluster)
    ensures PoolClusters(FLAT_EARTH, [YELLOW_ROUTE], HURRIED, 1) == [c] && c.severity == 1
  {
    var raw := ClusterOf(FLAT_EARTH, Extend(NO_STRETCH, JAM));
    SingleScan(FLAT_EARTH, JAM, 1);
    SingleCandidate(FLAT_EARTH, YELLOW_ROUTE, 1);
    assert raw.center == BRIDGE;
    assert !TooClose(FLAT_EARTH, raw, HURRIED);
    SingleCluster(FLAT_EARTH, raw, HURRIED);
    c := Shrink(FLAT_EARTH, raw, HURRIED);
  }

  /** With zones and one yellow cluster, forbidding it is on the ladder. */
  lemma ExhaustiveRungExists(earth: Earth, c: Cluster, request: Request, means: Means) returns (p: Plan)
    requires means.zones && c.severity == 1 && earth.drawable(ZoneAround(c).center, ZoneAround(c).radius)
    ensures Rung(p, earth, [c], request, means)
  {
    LateralsAreWide(request);
    assert [c][..0] == [];
    assert Severe([], 2) == [] && Drawn(earth, []) == [];
    assert Severe([c], 2) == [];
    assert Drawn(earth, [c]) == [ZoneAround(c)];
    p := Plan(AvoidEveryNonGreen(1), [], [ZoneAround(c)]);
    assert ExhaustiveRung(p, earth, [c], Severe([c], 2), request.mode, means);
  }

  // the only round

  lemma YellowIsSelectedAlone()
    ensures var first := InitialResult([YELLOW_ROUTE], HURRIED, DEFAULT_SCORING);
            first.selected.Some? && first.selected.value == YELLOW_ROUTE.(score := first.selected.value.score)
  {
    RankingDecides([YELLOW_ROUTE], HURRIED, DEFAULT_SCORING);
    assert Meets(YELLOW_ROUTE, YELLOW_ROUTE, HURRIED, DEFAULT_SCORING);
    assert YELLOW_ROUTE in [YELLOW_ROUTE];
    assert StillPooled(YELLOW_ROUTE, [YELLOW_ROUTE]);
  }

  lemma PassingOne(c: Candidate, test: Candidate -> bool)
    ensures Passing([c], test) == if test(c) then [c] else []
  {
    assert [c][..0] == [];
    assert Passing([], test) == [];
  }

  /** A lone plausible answer of the same trip is admitted where there is room. */
  lemma OneAdmitted(world: World, pool: seq<Candidate>, c: Candidate, base: Candidate, maxActive: nat)
    requires |pool| < maxActive && world.plausible(c) && ConnectsSameTrip(world.earth, c, base)
    ensures Admitted(world, pool, [c], base, maxActive) == [c]
  {
    PassingOne(c, world.plausible);
    PassingOne(c, SameTrip(world.earth, base));
  }

  lemma JoinedExample(live: int, duplicates: bool)
    requires 0 < live < 1000
    ensures var world, b := Example(live, duplicates).world, DoubtfulRoute(live);
            var probe := Example(live, duplicates).world.probe(0);
            JoinedPool(world, [YELLOW_ROUTE], [b], probe) == if duplicates then [b] else [b, YELLOW_ROUTE]
  {
    var world := Example(live, duplicates).world;
    JoinedPair(world, YELLOW_ROUTE, DoubtfulRoute(live), world.probe(0));
  }

  /** A quicker route joins a single one. */
  lemma JoinedPair(world: World, slow: Candidate, quick: Candidate, probe: Probe)
    requires quick.live < slow.live && probe.evaluate(quick) == Some(quick)
    ensures JoinedPool(world, [slow], [quick], probe) ==
            if world.duplicate(slow, quick) then [quick] else [quick, slow]
  {
    assert [quick][..0] == [];
    assert Evaluations([], probe.evaluate) == [];
    assert Evaluations([quick], probe.evaluate) == [quick];
    SortTwo(slow, quick);
    GreedyTwo(quick, slow, world.duplicate);
    assert [slow] + [quick] == [slow, quick];
  }

  lemma InsertIntoOne<T>(x: T, y: T, less: (T, T) -> bool)
    ensures Insert(x, [y], less) == if less(x, y) then [x, y] else [y, x]
  {
    assert [y][..0] == [];
    assert Insert(x, [], less) == [x];
  }

  lemma SortPair<T>(a: T, b: T, less: (T, T) -> bool)
    ensures StableSort([a, b], less) == if less(b, a) then [b, a] else [a, b]
  {
    assert [a, b][..1] == [a] && [a][..0] == [];
    assert StableSort([], less) == [] && Insert(a, [], less) == [a];
    assert StableSort([a], less) == [a];
    InsertIntoOne(b, a, less);
  }

  lemma SortTwo(slow: Candidate, quick: Candidate)
    requires quick.live < slow.live
    ensures StableSort([slow, quick], Dedupe.Faster()) == [quick, slow]
  {
    SortPair(slow, quick, Dedupe.Faster());
  }

  lemma GreedyTwo(a: Candidate, b: Candidate, duplicate: Dedupe.Duplicate)
    ensures Dedupe.Greedy([a, b], duplicate) == if duplicate(b, a) then [a] else [a, b]
  {
    assert [a, b][..1] == [a] && [a][..0] == [];
    assert Dedupe.Greedy([], duplicate) == [];
    assert Dedupe.Greedy([a], duplicate) == [a];
    assert Dedupe.Repeats(b, [a], duplicate) <==> duplicate(b, [a][0]);
  }

  lemma ExampleProbes(live: int, duplicates: bool)
    ensures !AllTried(Example(live, duplicates), [YELLOW_ROUTE], {})
  {
    var brief := Example(live, duplicates);
    var c := JamIsCluster();
    var p := ExhaustiveRungExists(FLAT_EARTH, c, HURRIED, MeansOf(brief.settings, HURRIED));
    assert OnLadder(brief, [YELLOW_ROUTE], p);
  }

  lemma ExampleHasOneRound(live: int, duplicates: bool, start: seq<Candidate>, rounds: seq<Round>)
    requires SearchRun(Example(live, duplicates), [YELLOW_ROUTE], start, rounds)
    ensures start == [YELLOW_ROUTE] && |rounds| == 1
    ensures var first := InitialResult([YELLOW_ROUTE], HURRIED, DEFAULT_SCORING);
            Follows([], rounds[0], Example(live, duplicates), BaseOf(first), first, start)
  {
    var brief := Example(live, duplicates);
    var first := InitialResult([YELLOW_ROUTE], HURRIED, DEFAULT_SCORING);
    YellowIsSelectedAlone();
    assert ShouldEnhance(brief.settings, HURRIED, first.selected);
    assert start == [YELLOW_ROUTE];
    ExampleProbes(live, duplicates);
    assert NamesOf([]) == {};
    assert Stops(rounds, brief, start);
    assert rounds != [];
    assert !Stops(rounds[..|rounds| - 1], brief, start);
    assert |rounds| == 1;
    assert rounds[..0] == [];
  }

  /** The only round joins the doubtful route and ranks. */
  lemma ExampleRound(live: int, duplicates: bool, round: Round)
    requires 0 < live < 1000
    requires var first := InitialResult([YELLOW_ROUTE], HURRIED, DEFAULT_SCORING);
             Follows([], round, Example(live, duplicates), BaseOf(first), first, [YELLOW_ROUTE])
    ensures round.ranked && round.pool ==
            if duplicates then [DoubtfulRoute(live)] else [DoubtfulRoute(live), YELLOW_ROUTE]
    ensures var first := InitialResult([YELLOW_ROUTE], HURRIED, DEFAULT_SCORING);
            round.result == Adopt(first, round.pool, RankOf(round.pool, HURRIED, DEFAULT_SCORING))
  {
    var brief := Example(live, duplicates);
    var first := InitialResult([YELLOW_ROUTE], HURRIED, DEFAULT_SCORING);
    YellowIsSelectedAlone();
    OneAdmitted(brief.world, [YELLOW_ROUTE], DoubtfulRoute(live), BaseOf(first), 10);
    JoinedExample(live, duplicates);
    RoundOutcome(brief, round.plan, first, [YELLOW_ROUTE], BaseOf(first), brief.world.probe(0));
  }

  lemma FastestOfExample(live: int, pool: seq<Candidate>)
    requires live < 1000 && (pool == [DoubtfulRoute(live)] || pool == [DoubtfulRoute(live), YELLOW_ROUTE])
    ensures FastestOf(pool) == DoubtfulRoute(live)
  {
    assert pool[..1] == [DoubtfulRoute(live)];
  }

  /** The doubtful route is never acceptable; the yellow one is exactly within a minute of it. */
  lemma ExampleMeets(live: int, score: real)
    requires 0 < live < 1000
    ensures !Meets(DoubtfulRoute(live).(score := score), DoubtfulRoute(live), HURRIED, DEFAULT_SCORING)
    ensures Meets(YELLOW_ROUTE.(score := score), DoubtfulRoute(live), HURRIED, DEFAULT_SCORING) <==> 1000 - live <= 60
  {
  }

  /** What a ranking of the example's pool can select. */
  lemma ExampleSelects(live: int, duplicates: bool, pool: seq<Candidate>, selected: Option<Candidate>)
    requires 0 < live < 1000 && pool ==
             if duplicates then [DoubtfulRoute(live)] else [DoubtfulRoute(live), YELLOW_ROUTE]
    requires selected.Some? ==>
             StillPooled(selected.value, pool) && Meets(selected.value, DoubtfulRoute(live), HURRIED, DEFAULT_SCORING)
    requires selected.None? ==>
             forall s :: StillPooled(s, pool) ==> !Meets(s, DoubtfulRoute(live), HURRIED, DEFAULT_SCORING)
    ensures selected.None? <==> duplicates || 1000 - live > 60
    ensures selected.Some? ==> selected.value == YELLOW_ROUTE.(score := selected.value.score)
  {
    if selected.Some? {
      var s := selected.value;
      var c :| c in pool && s == c.(score := s.score);
      ExampleMeets(live, s.score);
      assert c == YELLOW_ROUTE;
    } else if !duplicates {
      ExampleMeets(live, 0.0);
      assert pool[1] == YELLOW_ROUTE == YELLOW_ROUTE.(score := 0.0);
      assert StillPooled(YELLOW_ROUTE, pool);
    }
  }

  lemma ExampleRanking(live: int, duplicates: bool, pool: seq<Candidate>)
    requires 0 < live < 1000 && pool ==
             if duplicates then [DoubtfulRoute(live)] else [DoubtfulRoute(live), YELLOW_ROUTE]
    ensures var selected := RankOf(pool, HURRIED, DEFAULT_SCORING).selected;
            && (selected.None? <==> duplicates || 1000 - live > 60)
            && (selected.Some? ==> selected.value == YELLOW_ROUTE.(score := selected.value.score))
  {
    FastestOfExample(live, pool);
    RankingDecides(pool, HURRIED, DEFAULT_SCORING);
    ExampleSelects(live, duplicates, pool, RankOf(pool, HURRIED, DEFAULT_SCORING).selected);
  }

  lemma ExampleAdopts(live: int, duplicates: bool, pool: seq<Candidate>, first: Result, result: Result, ranked: Ranked)
    requires 0 < live < 1000 && pool ==
             if duplicates then [DoubtfulRoute(live)] else [DoubtfulRoute(live), YELLOW_ROUTE]
    requires first.selected.Some? && first.selected.value == YELLOW_ROUTE.(score := first.selected.value.score)
    requires ranked.selected.Some? ==> ranked.selected.value == YELLOW_ROUTE.(score := ranked.selected.value.score)
    requires result == Adopt(first, pool, ranked)
    ensures result.fastest == DoubtfulRoute(live)
    ensures result.selected.Some? && result.selected.value == YELLOW_ROUTE.(score := result.selected.value.score)
  {
    FastestOfExample(live, pool);
  }

  /**
    A search that shows every case. The yellow route is selected first; the probe brings in a
    faster route that is not acceptable. The search still offers the yellow route, which
    meets the limits exactly when it is within a minute of the new fastest route: if it is
    not, the kept selection violates them; if it is but was dropped as a duplicate, nothing
    is selected in the last ranking and the kept selection meets them all the same.
    */
  method KeptSelection(live: int, duplicates: bool) returns (result: Result, pool: seq<Candidate>)
    requires 0 < live < 1000
    ensures result.selected.Some? && result.selected.value == YELLOW_ROUTE.(score := result.selected.value.score)
    ensures result.fastest == DoubtfulRoute(live)
    ensures pool != [] && (RankOf(pool, HURRIED, DEFAULT_SCORING).selected.None? <==> duplicates || 1000 - live > 60)
    ensures Meets(result.selected.value, result.fastest, HURRIED, DEFAULT_SCORING) <==> 1000 - live <= 60
  {
    var brief := Example(live, duplicates);
    var start, rounds;
    result, pool, start, rounds := Search(brief, [YELLOW_ROUTE]);
    ExampleHasOneRound(live, duplicates, start, rounds);
    ExampleRound(live, duplicates, rounds[0]);
    YellowIsSelectedAlone();
    ExampleRanking(live, duplicates, pool);
    ExampleAdopts(live, duplicates, pool, InitialResult([YELLOW_ROUTE], HURRIED, DEFAULT_SCORING), result,
                  RankOf(pool, HURRIED, DEFAULT_SCORING));
    ExampleMeets(live, result.selected.value.score);
  }
}
