/**
  Starting a search exactly once: the edge service claims an idempotency key, asks the
  orchestrator to create a search under a deterministic identifier, recovers from lost
  answers, and completes or forgets its claim.

  Every command is one step, any two requests may interleave, keys may expire at any
  moment, and messages may be lost or executed late. One idempotency key is modelled;
  requests for it may carry different bodies.
  */
module StartProtocol {
  import Domain
  import opened Idempotency

  /** Where a request is. */
  datatype Stage =
    | Beginning(progress: Progress)            // issuing the Redis commands of BeginIdempotency
    | Claimed(token: nat)                      // next: send the start request
    | AwaitingStart(token: nat)                // waiting for the orchestrator
    | Recovering(token: nat)                   // next: look the deterministic id up
    | Replaying(searchId: SearchId)            // next: look the recorded id up
    | Owning(token: nat, searchId: SearchId)   // next: store the owner
    | Completing(token: nat, searchId: SearchId)
    | Forgetting(token: nat)                   // next: forget the claim and report a problem
    | Succeeded(searchId: SearchId)
    | ReportedProblem

  datatype Attempt = Attempt(bodyHash: string, stage: Stage)

  datatype Answer = Started(searchId: SearchId) | Unprocessable | Unavailable

  /** The orchestrator and the messages between it and the edge service. */
  datatype Server = Server(
    sent: set<nat>,                   // start requests not executed yet
    answers: map<nat, Answer>,        // answers on their way back
    searches: set<SearchId>,          // live search records
    workers: multiset<SearchId>,      // history: workers started
    removals: multiset<SearchId>)     // history: search records deleted or expired

  datatype State = State(claims: Claims, server: Server, requests: map<nat, Attempt>)

  const INITIAL := State(NO_CLAIMS, Server({}, map[], {}, multiset{}, multiset{}), map[])

  /** Busy covers every failure that starts nothing, a record gone between Create and Get included. */
  datatype Verdict = Accepts | Rejects | Busy

  datatype Step =
    | Arrive(request: nat, bodyHash: string)
    | Advance(request: nat)                       // the request's next command
    | Execute(request: nat, verdict: Verdict)     // the orchestrator handles a sent start request
    | ReceiveAnswer(request: nat)
    | GiveUp(request: nat)                        // the start call fails or its answer is malformed
    | OwnerFailed(request: nat, deleted: bool)    // storing the owner fails; the search may be deleted
    | Abort(request: nat)                         // any other failure ends the request
    | ExpireRecord
    | ExpireFingerprint
    | RemoveSearch(searchId: SearchId)            // deletion or expiry of a search record

  function Move(s: State, r: nat, stage: Stage): State
    requires r in s.requests
  {
    s.(requests := s.requests[r := s.requests[r].(stage := stage)])
  }

  function Continue(progress: Progress): Stage {
    if !progress.Done? then Beginning(progress)
    else
      match progress.begun
      case Granted(token) => Claimed(token)
      case InProgress(token) => Recovering(token)
      case Replay(searchId) => Replaying(searchId)
      case Conflict => ReportedProblem
  }

  /** The idempotency keys after a request's next command. */
  function ClaimsAfter(c: Claims, attempt: Attempt): Claims {
    match attempt.stage
    case Beginning(progress) => Commanded(c, attempt.bodyHash, progress)
    case Completing(token, searchId) => Complete(c, attempt.bodyHash, token, searchId)
    case Forgetting(token) => Forget(c, token)
    case _ => c
  }

  /** The stage a request reaches with its next command. */
  function StageAfter(c: Claims, searches: set<SearchId>, attempt: Attempt): Stage {
    match attempt.stage
    case Beginning(progress) => Continue(Proceed(c, attempt.bodyHash, progress))
    case Claimed(token) => AwaitingStart(token)
    case Recovering(token) =>
      var id := FromStableKey(attempt.bodyHash);
      if id in searches then Owning(token, id) else ReportedProblem
    case Replaying(searchId) => if searchId in searches then Succeeded(searchId) else ReportedProblem
    case Owning(token, searchId) => Completing(token, searchId)
    case Completing(_, searchId) => Succeeded(searchId)
    case Forgetting(_) => ReportedProblem
    case _ => attempt.stage
  }

  function AdvanceRequest(s: State, r: nat): State
    requires r in s.requests
  {
    var attempt := s.requests[r];
    var stage := StageAfter(s.claims, s.server.searches, attempt);
    var server := if attempt.stage.Claimed? then s.server.(sent := s.server.sent + {r}) else s.server;
    Move(State(ClaimsAfter(s.claims, attempt), server, s.requests), r, stage)
  }

  /** The orchestrator's start: a deterministic id and an atomic Create; only a created search gets a worker. */
  function ExecuteStart(v: Server, r: nat, bodyHash: string, verdict: Verdict): Server {
    var id := FromStableKey(bodyHash);
    var answer := match verdict case Accepts => Started(id) case Rejects => Unprocessable case Busy => Unavailable;
    var created := verdict.Accepts? && id !in v.searches;
    Server(v.sent - {r}, v.answers[r := answer],
           if created then v.searches + {id} else v.searches,
           if created then v.workers + multiset{id} else v.workers, v.removals)
  }

  function Receive(token: nat, answer: Answer): Stage {
    match answer
    case Started(searchId) => Owning(token, searchId)
    case Unprocessable => Forgetting(token)
    case Unavailable => Recovering(token)
  }

  function Remove(v: Server, searchId: SearchId): Server {
    if searchId in v.searches then
      v.(searches := v.searches - {searchId}, removals := v.removals + multiset{searchId})
    else v
  }

  /** The step can be taken; any other step leaves the state as it is. */
  predicate Enabled(s: State, step: Step) {
    match step
    case Arrive(r, _) => r !in s.requests
    case Advance(r) => r in s.requests
    case Execute(r, _) => r in s.requests && r in s.server.sent
    case ReceiveAnswer(r) => r in s.requests && s.requests[r].stage.AwaitingStart? && r in s.server.answers
    case GiveUp(r) => r in s.requests && s.requests[r].stage.AwaitingStart?
    case OwnerFailed(r, _) => r in s.requests && s.requests[r].stage.Owning?
    case Abort(r) => r in s.requests && !s.requests[r].stage.Succeeded?
    case ExpireRecord => true
    case ExpireFingerprint => true
    case RemoveSearch(_) => true
  }

  function Take(s: State, step: Step): State
    requires Enabled(s, step)
  {
    match step
    case Arrive(r, bodyHash) => s.(requests := s.requests[r := Attempt(bodyHash, Beginning(ReadRecord))])
    case Advance(r) => AdvanceRequest(s, r)
    case Execute(r, verdict) => s.(server := ExecuteStart(s.server, r, s.requests[r].bodyHash, verdict))
    case ReceiveAnswer(r) => Move(s, r, Receive(s.requests[r].stage.token, s.server.answers[r]))
    case GiveUp(r) => Move(s, r, Recovering(s.requests[r].stage.token))
    case OwnerFailed(r, deleted) =>
      var stage := s.requests[r].stage;
      if deleted then Move(s.(server := Remove(s.server, stage.searchId)), r, Forgetting(stage.token))
      else Move(s, r, ReportedProblem)
    case Abort(r) => Move(s, r, ReportedProblem)
    case ExpireRecord => s.(claims := s.claims.(keys := s.claims.keys.(record := Domain.None)))
    case ExpireFingerprint => s.(claims := s.claims.(keys := s.claims.keys.(fingerprint := Domain.None)))
    case RemoveSearch(searchId) => s.(server := Remove(s.server, searchId))
  }

  function Next(s: State, step: Step): State {
    if Enabled(s, step) then Take(s, step) else s
  }

  function Run(s: State, steps: seq<Step>): State {
    if steps == [] then s else Next(Run(s, steps[..|steps| - 1]), steps[|steps| - 1])
  }

  // ---- the same search, and one worker for it

  /** A stage of a request for this body names only this search, and a stage that can succeed has its worker. */
  predicate NamesIts(stage: Stage, id: SearchId, workers: multiset<SearchId>) {
    match stage
    case Beginning(progress) =>
      && (progress.Repair? && progress.found.Replay? ==> progress.found.searchId == id)
      && (progress.Done? && progress.begun.Replay? ==> progress.begun.searchId == id)
    case Replaying(searchId) => searchId == id
    case Owning(_, searchId) => searchId == id && workers[id] >= 1
    case Completing(_, searchId) => searchId == id && workers[id] >= 1
    case Succeeded(searchId) => searchId == id && workers[id] >= 1
    case _ => true
  }

  predicate RecordNamesIts(c: Claims) {
    var record := c.keys.record;
    record.Some? && record.value.Completed? ==> record.value.searchId == FromStableKey(record.value.bodyHash)
  }

  /** One worker per record generation: those removed and the one alive. */
  ghost predicate WorkersMatch(v: Server) {
    forall id :: v.workers[id] == v.removals[id] + if id in v.searches then 1 else 0
  }

  ghost predicate RequestsName(requests: map<nat, Attempt>, workers: multiset<SearchId>) {
    forall r :: r in requests ==> NamesIts(requests[r].stage, FromStableKey(requests[r].bodyHash), workers)
  }

  predicate AnswerNames(answer: Answer, id: SearchId, workers: multiset<SearchId>) {
    answer.Started? ==> answer.searchId == id && workers[id] >= 1
  }

  ghost predicate AnswersName(s: State) {
    && (forall r :: r in s.server.answers ==> r in s.requests)
    && (forall r :: r in s.server.answers ==>
                      AnswerNames(s.server.answers[r], FromStableKey(s.requests[r].bodyHash), s.server.workers))
  }

  ghost predicate SameSearch(s: State) {
    WorkersMatch(s.server) && RecordNamesIts(s.claims) && RequestsName(s.requests, s.server.workers) && AnswersName(s)
  }

  /** A request's own command keeps its name and the record's. */
  lemma CommandNames(c: Claims, v: Server, attempt: Attempt)
    requires WorkersMatch(v) && RecordNamesIts(c)
    requires NamesIts(attempt.stage, FromStableKey(attempt.bodyHash), v.workers)
    ensures RecordNamesIts(ClaimsAfter(c, attempt))
    ensures NamesIts(StageAfter(c, v.searches, attempt), FromStableKey(attempt.bodyHash), v.workers)
  {
  }

  /** Changing one request's stage. */
  lemma MoveNames(s: State, r: nat, stage: Stage)
    requires SameSearch(s) && r in s.requests
    requires NamesIts(stage, FromStableKey(s.requests[r].bodyHash), s.server.workers)
    ensures SameSearch(Move(s, r, stage))
  {
    var t := Move(s, r, stage);
    assert forall q :: q in s.requests ==> t.requests[q].bodyHash == s.requests[q].bodyHash;
  }

  lemma StageStaysNamed(stage: Stage, id: SearchId, workers: multiset<SearchId>, more: multiset<SearchId>)
    requires NamesIts(stage, id, workers) && workers <= more
    ensures NamesIts(stage, id, more)
  {
  }

  lemma StartNames(s: State, r: nat, verdict: Verdict)
    requires SameSearch(s) && r in s.requests
    ensures SameSearch(s.(server := ExecuteStart(s.server, r, s.requests[r].bodyHash, verdict)))
  {
    var t := s.(server := ExecuteStart(s.server, r, s.requests[r].bodyHash, verdict));
    var id := FromStableKey(s.requests[r].bodyHash);
    assert s.server.workers <= t.server.workers;
    assert t.server.workers[id] == s.server.workers[id] + if verdict.Accepts? && id !in s.server.searches then 1 else 0;
    forall q | q in s.requests
      ensures NamesIts(t.requests[q].stage, FromStableKey(t.requests[q].bodyHash), t.server.workers)
    {
      StageStaysNamed(s.requests[q].stage, FromStableKey(s.requests[q].bodyHash), s.server.workers, t.server.workers);
    }
    assert WorkersMatch(t.server);
    forall q | q in t.server.answers
      ensures AnswerNames(t.server.answers[q], FromStableKey(s.requests[q].bodyHash), t.server.workers)
    {
      if q != r { assert AnswerNames(s.server.answers[q], FromStableKey(s.requests[q].bodyHash), s.server.workers); }
    }
  }

  lemma RemovalNames(s: State, id: SearchId)
    requires SameSearch(s)
    ensures SameSearch(s.(server := Remove(s.server, id)))
  {
  }

  lemma AdvanceNames(s: State, r: nat)
    requires SameSearch(s) && r in s.requests
    ensures SameSearch(AdvanceRequest(s, r))
  {
    var attempt := s.requests[r];
    CommandNames(s.claims, s.server, attempt);
    var t := State(ClaimsAfter(s.claims, attempt), AdvanceRequest(s, r).server, s.requests);
    assert SameSearch(t);
    MoveNames(t, r, StageAfter(s.claims, s.server.searches, attempt));
  }

  lemma SameSearchStep(s: State, step: Step)
    requires SameSearch(s) && Enabled(s, step)
    ensures SameSearch(Take(s, step))
  {
    match step
    case Arrive(r, bodyHash) =>
    case Advance(r) => AdvanceNames(s, r);
    case Execute(r, verdict) => StartNames(s, r, verdict);
    case ReceiveAnswer(r) =>
      assert AnswerNames(s.server.answers[r], FromStableKey(s.requests[r].bodyHash), s.server.workers);
      MoveNames(s, r, Receive(s.requests[r].stage.token, s.server.answers[r]));
    case GiveUp(r) => MoveNames(s, r, Recovering(s.requests[r].stage.token));
    case OwnerFailed(r, deleted) =>
      var stage := s.requests[r].stage;
      RemovalNames(s, stage.searchId);
      MoveNames(s.(server := Remove(s.server, stage.searchId)), r, Forgetting(stage.token));
      MoveNames(s, r, ReportedProblem);
    case Abort(r) => MoveNames(s, r, ReportedProblem);
    case ExpireRecord =>
    case ExpireFingerprint =>
    case RemoveSearch(id) => RemovalNames(s, id);
  }

  lemma {:induction false} SameSearchAlways(steps: seq<Step>)
    ensures SameSearch(Run(INITIAL, steps))
  {
    if steps != [] {
      var s, last := Run(INITIAL, steps[..|steps| - 1]), steps[|steps| - 1];
      SameSearchAlways(steps[..|steps| - 1]);
      if Enabled(s, last) { SameSearchStep(s, last); }
    }
  }

  /**
    In every interleaving, including expiry, lost answers and recovery: two successful
    requests with the same body name the same search, a worker was started for it, and as
    long as its record was neither deleted nor expired that worker is the only one.
    */
  lemma {:induction false} RetriesNameOneSearch(steps: seq<Step>, a: nat, b: nat)
    requires var s := Run(INITIAL, steps);
             && a in s.requests && b in s.requests && s.requests[a].bodyHash == s.requests[b].bodyHash
             && s.requests[a].stage.Succeeded? && s.requests[b].stage.Succeeded?
    ensures var s := Run(INITIAL, steps);
            var id := s.requests[a].stage.searchId;
            && id == s.requests[b].stage.searchId == FromStableKey(s.requests[a].bodyHash)
            && s.server.workers[id] == s.server.removals[id] + (if id in s.server.searches then 1 else 0)
            && (s.server.removals[id] == 0 ==> s.server.workers[id] == 1 && id in s.server.searches)
  {
    SameSearchAlways(steps);
    var s := Run(INITIAL, steps);
    assert NamesIts(s.requests[a].stage, FromStableKey(s.requests[a].bodyHash), s.server.workers);
    assert NamesIts(s.requests[b].stage, FromStableKey(s.requests[b].bodyHash), s.server.workers);
  }

  // ---- claims and generations

  lemma GenerationsStep(s: State, step: Step)
    requires Generations(s.claims) && Enabled(s, step)
    ensures Generations(Take(s, step).claims)
  {
    var c := s.claims;
    match step
    case Advance(r) =>
      var attempt := s.requests[r];
      match attempt.stage {
        case Beginning(progress) => CommandKeepsGenerations(c, attempt.bodyHash, progress);
        case Completing(token, searchId) => CompleteKeepsGenerations(c, attempt.bodyHash, token, searchId);
        case Forgetting(token) => LossKeepsGenerations(c, Forget(c, token));
        case _ =>
      }
    case ExpireRecord => LossKeepsGenerations(c, Take(s, step).claims);
    case ExpireFingerprint => LossKeepsGenerations(c, Take(s, step).claims);
    case _ =>
  }

  /** Each generation grants one claim with its own token and completes at most once. */
  lemma {:induction false} GenerationsAlways(steps: seq<Step>)
    ensures Generations(Run(INITIAL, steps).claims)
  {
    if steps != [] {
      var s, last := Run(INITIAL, steps[..|steps| - 1]), steps[|steps| - 1];
      GenerationsAlways(steps[..|steps| - 1]);
      if Enabled(s, last) { GenerationsStep(s, last); }
    }
  }

  /** In every run, the token of an earlier or completed generation neither completes nor forgets anything. */
  lemma StaleTokenHasNoEffect(steps: seq<Step>, token: nat, bodyHash: string, searchId: SearchId)
    requires var c := Run(INITIAL, steps).claims;
             (exists i :: 0 <= i < |c.grants| - 1 && c.grants[i].token == token) || token in c.completions
    ensures var c := Run(INITIAL, steps).claims;
            Complete(c, bodyHash, token, searchId) == c && Forget(c, token) == c
  {
    GenerationsAlways(steps);
    SpentTokenHasNoEffect(Run(INITIAL, steps).claims, token, bodyHash, searchId);
  }

  // ---- one body per fingerprint

  predicate ReadyToClaim(attempt: Attempt) {
    attempt.stage == Beginning(ClaimRecord)
  }

  /** The record and every request ready to claim carry the hash of the fingerprint. */
  ghost predicate Aligned(s: State) {
    match s.claims.keys.fingerprint
    case None => s.claims.keys.record.None? && forall r :: r in s.requests ==> !ReadyToClaim(s.requests[r])
    case Some(hash) =>
      && (s.claims.keys.record.Some? ==> s.claims.keys.record.value.bodyHash == hash)
      && forall r :: r in s.requests && ReadyToClaim(s.requests[r]) ==> s.requests[r].bodyHash == hash
  }

  /** The step neither expires nor forgets the fingerprint. */
  predicate KeepsFingerprint(s: State, step: Step) {
    && step != ExpireFingerprint
    && !(step.Advance? && step.request in s.requests && s.requests[step.request].stage.Forgetting?
         && Holds(s.claims.keys, s.requests[step.request].stage.token))
  }

  /** The claims granted between two moments all carry this hash. */
  ghost predicate GrantsOnly(earlier: seq<Grant>, later: seq<Grant>, hash: string) {
    earlier <= later && forall i :: |earlier| <= i < |later| ==> later[i].bodyHash == hash
  }

  lemma AlignedCommand(s: State, r: nat)
    requires Aligned(s) && r in s.requests && KeepsFingerprint(s, Advance(r))
    ensures var keys := ClaimsAfter(s.claims, s.requests[r]).keys;
            && (s.claims.keys.fingerprint.Some? ==> keys.fingerprint == s.claims.keys.fingerprint)
            && (keys.record.Some? ==> keys.fingerprint == Domain.Some(keys.record.value.bodyHash))
            && (StageAfter(s.claims, s.server.searches, s.requests[r]) == Beginning(ClaimRecord) ==>
                  keys.fingerprint == Domain.Some(s.requests[r].bodyHash))
            && (keys.fingerprint.Some? ==>
                  GrantsOnly(s.claims.grants, ClaimsAfter(s.claims, s.requests[r]).grants, keys.fingerprint.value))
            && (keys.fingerprint.None? ==> ClaimsAfter(s.claims, s.requests[r]).grants == s.claims.grants)
  {
  }

  lemma AlignedStep(s: State, step: Step)
    requires Aligned(s) && Enabled(s, step) && KeepsFingerprint(s, step)
    ensures var t := Take(s, step);
            && Aligned(t)
            && (s.claims.keys.fingerprint.Some? ==> t.claims.keys.fingerprint == s.claims.keys.fingerprint)
            && (t.claims.keys.fingerprint.None? ==> t.claims.grants == s.claims.grants)
            && (t.claims.keys.fingerprint.Some? ==>
                  GrantsOnly(s.claims.grants, t.claims.grants, t.claims.keys.fingerprint.value))
  {
    if step.Advance? {
      AlignedCommand(s, step.request);
    }
  }

  /**
    A step that loses the fingerprint keeps the alignment if and only if no record stays
    behind and no request is ready to claim.
    */
  lemma LosingFingerprintIsExact(s: State, step: Step)
    requires !KeepsFingerprint(s, step)
    ensures Aligned(Next(s, step)) <==>
            && (step == ExpireFingerprint ==> s.claims.keys.record.None?)
            && forall r :: r in s.requests ==> !ReadyToClaim(s.requests[r])
  {
    var t := Next(s, step);
    assert t.claims.keys.fingerprint.None?;
    forall r
      ensures r in t.requests && ReadyToClaim(t.requests[r]) <==> r in s.requests && ReadyToClaim(s.requests[r])
    {
    }
  }

  ghost predicate FingerprintKept(s: State, steps: seq<Step>) {
    forall i :: 0 <= i < |steps| ==> KeepsFingerprint(Run(s, steps[..i]), steps[i])
  }

  /** From any aligned state, while the fingerprint is neither expired nor forgotten, one body hash obtains claims. */
  lemma {:induction false} OneBodyPerFingerprint(s: State, steps: seq<Step>)
    requires Aligned(s) && FingerprintKept(s, steps)
    ensures var t := Run(s, steps);
            && Aligned(t)
            && (s.claims.keys.fingerprint.Some? ==> t.claims.keys.fingerprint == s.claims.keys.fingerprint)
            && (t.claims.keys.fingerprint.None? ==> t.claims.grants == s.claims.grants)
            && (t.claims.keys.fingerprint.Some? ==>
                  GrantsOnly(s.claims.grants, t.claims.grants, t.claims.keys.fingerprint.value))
  {
    if steps != [] {
      var front, last := steps[..|steps| - 1], steps[|steps| - 1];
      assert forall i :: 0 <= i < |front| ==> front[i] == steps[i] && front[..i] == steps[..i];
      assert KeepsFingerprint(Run(s, steps[..|steps| - 1]), last);
      OneBodyPerFingerprint(s, front);
      if Enabled(Run(s, front), last) { AlignedStep(Run(s, front), last); }
    }
  }

  lemma RunThen(s: State, steps: seq<Step>, step: Step)
    ensures Run(s, steps + [step]) == Next(Run(s, steps), step)
  {
    assert (steps + [step])[..|steps|] == steps;
  }

  /** The record expires, and a request that was ready to claim does. */
  lemma MisalignedRequestClaims(s: State, r: nat)
    requires s.claims.keys.fingerprint.Some? && r in s.requests && ReadyToClaim(s.requests[r])
    ensures var steps := [ExpireRecord, Advance(r)];
            && FingerprintKept(s, steps)
            && Run(s, steps).claims.grants == s.claims.grants + [Grant(s.claims.nextToken, s.requests[r].bodyHash)]
  {
    var steps := [ExpireRecord, Advance(r)];
    assert steps[..0] == [] && steps[..1] == [ExpireRecord] && [ExpireRecord][..0] == [];
    assert Run(s, []) == s;
    assert Run(s, [ExpireRecord]) == Next(s, ExpireRecord);
    assert Run(s, steps) == Next(Run(s, steps[..1]), Advance(r));
  }

  /**
    Alignment is exactly what is needed: where a live fingerprint and the record, if any,
    agree, every continuation that keeps the fingerprint grants claims to its body alone if
    and only if the state is aligned.
    */
  lemma AlignmentIsExact(s: State)
    requires s.claims.keys.fingerprint.Some?
    requires s.claims.keys.record.Some? ==> s.claims.keys.record.value.bodyHash == s.claims.keys.fingerprint.value
    ensures Aligned(s) <==>
            forall steps :: FingerprintKept(s, steps) ==>
                              GrantsOnly(s.claims.grants, Run(s, steps).claims.grants, s.claims.keys.fingerprint.value)
  {
    var hash := s.claims.keys.fingerprint.value;
    if Aligned(s) {
      forall steps | FingerprintKept(s, steps) ensures GrantsOnly(s.claims.grants, Run(s, steps).claims.grants, hash) {
        OneBodyPerFingerprint(s, steps);
      }
    } else {
      var r :| r in s.requests && ReadyToClaim(s.requests[r]) && s.requests[r].bodyHash != hash;
      MisalignedRequestClaims(s, r);
      var grants := Run(s, [ExpireRecord, Advance(r)]).claims.grants;
      assert grants[|s.claims.grants|].bodyHash != hash;
      assert !GrantsOnly(s.claims.grants, grants, hash);
    }
  }

  /** Two requests with one body: the first holds the record, the second has passed the fingerprint check. */
  lemma TwoPastTheCheck(A: string) returns (steps: seq<Step>)
    ensures var s := Run(INITIAL, steps);
            && s.claims == Claims(Keys(Domain.Some(Pending(A, 0)), Domain.Some(A)), 1, [Grant(0, A)], [])
            && s.requests.Keys == {0, 1} && s.server == INITIAL.server
            && s.requests[0] == Attempt(A, Claimed(0)) && s.requests[1] == Attempt(A, Beginning(ClaimRecord))
  {
    steps := [];
    RunThen(INITIAL, steps, Arrive(0, A)); steps := steps + [Arrive(0, A)];
    RunThen(INITIAL, steps, Arrive(1, A)); steps := steps + [Arrive(1, A)];
    RunThen(INITIAL, steps, Advance(1)); steps := steps + [Advance(1)];
    RunThen(INITIAL, steps, Advance(0)); steps := steps + [Advance(0)];
    RunThen(INITIAL, steps, Advance(0)); steps := steps + [Advance(0)];
    RunThen(INITIAL, steps, Advance(1)); steps := steps + [Advance(1)];
    RunThen(INITIAL, steps, Advance(1)); steps := steps + [Advance(1)];
    RunThen(INITIAL, steps, Advance(0)); steps := steps + [Advance(0)];
  }

  /** The first request is rejected and forgets its claim; the second still stands before its SETNX. */
  lemma FirstForgets(A: string) returns (steps: seq<Step>)
    ensures var s := Run(INITIAL, steps);
            && s.claims == Claims(Keys(Domain.None, Domain.None), 1, [Grant(0, A)], [])
            && s.requests.Keys == {0, 1} && s.requests[1] == Attempt(A, Beginning(ClaimRecord))
  {
    steps := TwoPastTheCheck(A);
    RunThen(INITIAL, steps, Advance(0)); steps := steps + [Advance(0)];
    assert Run(INITIAL, steps).server.sent == {0};
    RunThen(INITIAL, steps, Execute(0, Rejects)); steps := steps + [Execute(0, Rejects)];
    assert Run(INITIAL, steps).server.answers[0] == Unprocessable;
    RunThen(INITIAL, steps, ReceiveAnswer(0)); steps := steps + [ReceiveAnswer(0)];
    assert Run(INITIAL, steps).requests[0].stage == Forgetting(0);
    RunThen(INITIAL, steps, Advance(0)); steps := steps + [Advance(0)];
  }

  /**
    A Forget between another request's fingerprint check and its SETNX of the record breaks
    the alignment: the record can carry one body and the live fingerprint another.
    */
  lemma ForgetRaceMisaligns(A: string, B: string) returns (steps: seq<Step>)
    requires A != B
    ensures Run(INITIAL, steps).claims.keys == Keys(Domain.Some(Pending(A, 1)), Domain.Some(B))
    ensures !Aligned(Run(INITIAL, steps))
  {
    steps := FirstForgets(A);
    RunThen(INITIAL, steps, Arrive(2, B)); steps := steps + [Arrive(2, B)];
    RunThen(INITIAL, steps, Advance(2)); steps := steps + [Advance(2)];
    RunThen(INITIAL, steps, Advance(2)); steps := steps + [Advance(2)];
    assert Run(INITIAL, steps).claims.keys == Keys(Domain.None, Domain.Some(B));
    RunThen(INITIAL, steps, Advance(1)); steps := steps + [Advance(1)];
  }
}
