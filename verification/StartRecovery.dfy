/**
  What the start protocol does for one request: which claims it gives up, and how a start
  ends when its request takes its own commands with no other step in between.
  */
module StartRecovery {
  import Domain
  import opened Idempotency
  import opened StartProtocol

  // ---- a claim is forgotten only for a cause

  /** The state after the first k steps from the initial one. */
  function At(steps: seq<Step>, k: nat): State
    requires k <= |steps|
  {
    Run(INITIAL, steps[..k])
  }

  ghost predicate Happened(steps: seq<Step>, k: nat, step: Step) {
    k < |steps| && steps[k] == step && Enabled(At(steps, k), step)
  }

  /** Its start was answered Unprocessable, and it received that answer. */
  ghost predicate Refused(steps: seq<Step>, r: nat) {
    exists k: nat :: Happened(steps, k, ReceiveAnswer(r)) && At(steps, k).server.answers[r] == Unprocessable
  }

  /** Its owner could not be stored, and its search was gone right after. */
  ghost predicate Withdrawn(steps: seq<Step>, r: nat) {
    exists k: nat :: Happened(steps, k, OwnerFailed(r, true))
                     && FromStableKey(At(steps, k).requests[r].bodyHash) !in At(steps, k + 1).server.searches
  }

  lemma AtStays(steps: seq<Step>, last: Step, k: nat)
    requires k <= |steps|
    ensures At(steps + [last], k) == At(steps, k)
  {
    assert (steps + [last])[..k] == steps[..k];
  }

  lemma RefusalStays(steps: seq<Step>, last: Step, r: nat)
    requires Refused(steps, r)
    ensures Refused(steps + [last], r)
  {
    var k: nat :| Happened(steps, k, ReceiveAnswer(r)) && At(steps, k).server.answers[r] == Unprocessable;
    AtStays(steps, last, k);
    assert Happened(steps + [last], k, ReceiveAnswer(r));
  }

  lemma WithdrawalStays(steps: seq<Step>, last: Step, r: nat)
    requires Withdrawn(steps, r)
    ensures Withdrawn(steps + [last], r)
  {
    var k: nat :| Happened(steps, k, OwnerFailed(r, true))
                  && FromStableKey(At(steps, k).requests[r].bodyHash) !in At(steps, k + 1).server.searches;
    AtStays(steps, last, k);
    AtStays(steps, last, k + 1);
    assert Happened(steps + [last], k, OwnerFailed(r, true));
  }

  /** The only steps that send a request to forget its claim. */
  lemma StepToForgetting(s: State, step: Step, r: nat)
    requires SameSearch(s) && r in Next(s, step).requests && Next(s, step).requests[r].stage.Forgetting?
    ensures || (r in s.requests && s.requests[r].stage.Forgetting?)
            || (step == ReceiveAnswer(r) && Enabled(s, step) && s.server.answers[r] == Unprocessable)
            || (step == OwnerFailed(r, true) && Enabled(s, step)
                && FromStableKey(s.requests[r].bodyHash) !in Next(s, step).server.searches)
  {
    if step.OwnerFailed? && Enabled(s, step) {
      assert NamesIts(s.requests[step.request].stage, FromStableKey(s.requests[step.request].bodyHash),
                      s.server.workers);
    }
  }

  /** In every run, a request that will forget its claim was refused by the orchestrator or lost its search. */
  lemma {:induction false} ForgettingHasCause(steps: seq<Step>, r: nat)
    requires var s := Run(INITIAL, steps); r in s.requests && s.requests[r].stage.Forgetting?
    ensures Refused(steps, r) || Withdrawn(steps, r)
  {
    if steps != [] {
      var k := |steps| - 1;
      var front, last := steps[..k], steps[k];
      var s := Run(INITIAL, front);
      assert steps == front + [last];
      assert steps[..k] == front && steps[..k + 1] == steps;
      RunThen(INITIAL, front, last);
      SameSearchAlways(front);
      StepToForgetting(s, last, r);
      if r in s.requests && s.requests[r].stage.Forgetting? {
        ForgettingHasCause(front, r);
        if Refused(front, r) { RefusalStays(front, last, r); } else { WithdrawalStays(front, last, r); }
      } else {
        assert At(steps, k) == s && At(steps, k + 1) == Next(s, last);
        assert Happened(steps, k, last);
      }
    }
  }

  /** A record or fingerprint disappears by its expiry, or from under its own token for such a cause. */
  lemma {:induction false} LossHasCause(steps: seq<Step>, step: Step)
    requires var s, t := Run(INITIAL, steps), Run(INITIAL, steps + [step]);
             || (s.claims.keys.record.Some? && t.claims.keys.record.None?)
             || (s.claims.keys.fingerprint.Some? && t.claims.keys.fingerprint.None?)
    ensures || step == ExpireRecord || step == ExpireFingerprint
            || (&& step.Advance? && step.request in Run(INITIAL, steps).requests
                && Run(INITIAL, steps).requests[step.request].stage.Forgetting?
                && Holds(Run(INITIAL, steps).claims.keys, Run(INITIAL, steps).requests[step.request].stage.token)
                && (Refused(steps, step.request) || Withdrawn(steps, step.request)))
  {
    RunThen(INITIAL, steps, step);
    var s := Run(INITIAL, steps);
    if step.Advance? && step.request in s.requests && s.requests[step.request].stage.Forgetting? {
      ForgettingHasCause(steps, step.request);
    }
  }

  /** An answer carries the verdict with which the orchestrator handled the start. */
  lemma {:induction false} AnswerIsVerdict(steps: seq<Step>, r: nat) returns (k: nat, verdict: Verdict)
    requires r in Run(INITIAL, steps).server.answers
    ensures Happened(steps, k, Execute(r, verdict))
    ensures match Run(INITIAL, steps).server.answers[r]
            case Started(id) => verdict == Accepts && id == FromStableKey(At(steps, k).requests[r].bodyHash)
            case Unprocessable => verdict == Rejects
            case Unavailable => verdict == Busy
  {
    assert steps != [];
    var front, last := steps[..|steps| - 1], steps[|steps| - 1];
    assert steps[..|steps|] == steps;
    if last.Execute? && last.request == r && Enabled(Run(INITIAL, front), last) {
      k, verdict := |front|, last.verdict;
    } else {
      k, verdict := AnswerIsVerdict(front, r);
      assert steps[..k] == front[..k];
    }
  }

  // ---- whose claim a token is

  ghost predicate GrantedTo(c: Claims, token: nat, bodyHash: string) {
    Grant(token, bodyHash) in c.grants
  }

  ghost predicate OwnAnswer(c: Claims, begun: Begun, bodyHash: string) {
    match begun
    case Granted(token) => GrantedTo(c, token, bodyHash)
    case InProgress(token) => GrantedTo(c, token, bodyHash)
    case _ => true
  }

  ghost predicate OwnToken(c: Claims, attempt: Attempt) {
    match attempt.stage
    case Beginning(Repair(found)) => OwnAnswer(c, found, attempt.bodyHash)
    case Beginning(Done(begun)) => OwnAnswer(c, begun, attempt.bodyHash)
    case Claimed(token) => GrantedTo(c, token, attempt.bodyHash)
    case AwaitingStart(token) => GrantedTo(c, token, attempt.bodyHash)
    case Recovering(token) => GrantedTo(c, token, attempt.bodyHash)
    case Owning(token, _) => GrantedTo(c, token, attempt.bodyHash)
    case Completing(token, _) => GrantedTo(c, token, attempt.bodyHash)
    case Forgetting(token) => GrantedTo(c, token, attempt.bodyHash)
    case _ => true
  }

  ghost predicate OwnTokens(s: State) {
    forall r :: r in s.requests ==> OwnToken(s.claims, s.requests[r])
  }

  lemma TokenStaysOwn(c: Claims, d: Claims, attempt: Attempt)
    requires OwnToken(c, attempt) && c.grants <= d.grants
    ensures OwnToken(d, attempt)
  {
    assert forall g :: g in c.grants ==> g in d.grants;
  }

  lemma CommandGivesOwnToken(c: Claims, searches: set<SearchId>, attempt: Attempt)
    requires Generations(c) && OwnToken(c, attempt)
    ensures c.grants <= ClaimsAfter(c, attempt).grants
    ensures OwnToken(ClaimsAfter(c, attempt), attempt.(stage := StageAfter(c, searches, attempt)))
  {
    var d := ClaimsAfter(c, attempt);
    assert forall g :: g in c.grants ==> g in d.grants;
    if c.keys.record.Some? && c.keys.record.value.Pending? {
      assert c.grants[|c.grants| - 1] in c.grants;
    }
  }

  lemma OwnTokensStep(s: State, step: Step)
    requires Generations(s.claims) && OwnTokens(s) && Enabled(s, step)
    ensures OwnTokens(Take(s, step))
  {
    var t := Take(s, step);
    if step.Advance? {
      CommandGivesOwnToken(s.claims, s.server.searches, s.requests[step.request]);
    }
    forall r | r in s.requests && t.requests[r] == s.requests[r] ensures OwnToken(t.claims, t.requests[r]) {
      TokenStaysOwn(s.claims, t.claims, s.requests[r]);
    }
  }

  lemma {:induction false} OwnTokensAlways(steps: seq<Step>)
    ensures OwnTokens(Run(INITIAL, steps))
  {
    if steps != [] {
      var s, last := Run(INITIAL, steps[..|steps| - 1]), steps[|steps| - 1];
      OwnTokensAlways(steps[..|steps| - 1]);
      GenerationsAlways(steps[..|steps| - 1]);
      if Enabled(s, last) { OwnTokensStep(s, last); }
    }
  }

  /** In every run, a token that holds the record holds the claim of its request's own body. */
  lemma HeldClaimIsOwn(steps: seq<Step>, r: nat, token: nat)
    requires var s := Run(INITIAL, steps);
             && r in s.requests && Holds(s.claims.keys, token) && GrantedTo(s.claims, token, s.requests[r].bodyHash)
    ensures var s := Run(INITIAL, steps); s.claims.keys.record == Domain.Some(Pending(s.requests[r].bodyHash, token))
  {
    GenerationsAlways(steps);
    var c := Run(INITIAL, steps).claims;
    var i :| 0 <= i < |c.grants| && c.grants[i] == Grant(token, Run(INITIAL, steps).requests[r].bodyHash);
  }

  // ---- how a start ends

  /** The next n commands of a request, with no other step in between. */
  function Own(r: nat, n: nat): seq<Step> {
    if n == 0 then [] else Own(r, n - 1) + [Advance(r)]
  }

  /** A state after the next n commands of a request. */
  function Commanding(s: State, r: nat, n: nat): (t: State)
    requires r in s.requests
    ensures r in t.requests
    decreases n
  {
    if n == 0 then s else AdvanceRequest(Commanding(s, r, n - 1), r)
  }

  lemma {:induction false} RunsOwn(s: State, step: Step, r: nat, n: nat)
    requires r in Next(s, step).requests
    ensures Run(s, [step] + Own(r, n)) == Commanding(Next(s, step), r, n)
  {
    if n == 0 {
      assert Run(s, []) == s && [step][..0] == [] && [step] + Own(r, 0) == [step];
    } else {
      RunsOwn(s, step, r, n - 1);
      assert [step] + Own(r, n) == ([step] + Own(r, n - 1)) + [Advance(r)];
      RunThen(s, [step] + Own(r, n - 1), Advance(r));
    }
  }

  lemma {:induction false} CommandingOn(s: State, r: nat, m: nat, n: nat)
    requires r in s.requests
    ensures Commanding(Commanding(s, r, m), r, n) == Commanding(s, r, m + n)
    decreases n
  {
    if n > 0 { CommandingOn(s, r, m, n - 1); }
  }

  lemma RunOne(s: State, step: Step)
    ensures Run(s, [step]) == Next(s, step)
  {
    assert Run(s, []) == s && [step][..0] == [];
  }

  /** The request has succeeded with its deterministic search, which the record now names. */
  ghost predicate Finished(s: State, r: nat, bodyHash: string) {
    && r in s.requests && s.requests[r] == Attempt(bodyHash, Succeeded(FromStableKey(bodyHash)))
    && s.claims.keys == Keys(Domain.Some(Completed(bodyHash, FromStableKey(bodyHash))), Domain.Some(bodyHash))
  }

  /** The request has reported a problem and left the claims as they were. */
  ghost predicate GaveUp(s: State, r: nat, claims: Claims) {
    r in s.requests && s.requests[r].stage == ReportedProblem && s.claims == claims
  }

  /** The request waits for the answer to its start and holds the claim. */
  ghost predicate WaitsWithClaim(s: State, r: nat) {
    r in s.requests && s.requests[r].stage.AwaitingStart? && Holds(s.claims.keys, s.requests[r].stage.token)
  }

  lemma WaitingHoldsOwnClaim(steps: seq<Step>, r: nat)
    requires WaitsWithClaim(Run(INITIAL, steps), r)
    ensures var s := Run(INITIAL, steps);
            s.claims.keys.record == Domain.Some(Pending(s.requests[r].bodyHash, s.requests[r].stage.token))
  {
    OwnTokensAlways(steps);
    var s := Run(INITIAL, steps);
    assert OwnToken(s.claims, s.requests[r]);
    HeldClaimIsOwn(steps, r, s.requests[r].stage.token);
  }

  /** One command that sends nothing, given the stage it leads to. */
  lemma CommandLeads(s: State, r: nat, stage: Stage)
    requires r in s.requests && !s.requests[r].stage.Claimed?
    requires StageAfter(s.claims, s.server.searches, s.requests[r]) == stage
    ensures AdvanceRequest(s, r) ==
            State(ClaimsAfter(s.claims, s.requests[r]), s.server,
                  s.requests[r := Attempt(s.requests[r].bodyHash, stage)])
  {
  }

  /** A request about to look its search up, with its claim held: three commands, or one, decide it. */
  lemma {:induction false} RecoveringEnds(s: State, r: nat)
    requires r in s.requests && s.requests[r].stage.Recovering?
    requires s.claims.keys.record == Domain.Some(Pending(s.requests[r].bodyHash, s.requests[r].stage.token))
    ensures FromStableKey(s.requests[r].bodyHash) in s.server.searches ==>
              Finished(Commanding(s, r, 3), r, s.requests[r].bodyHash)
    ensures FromStableKey(s.requests[r].bodyHash) !in s.server.searches ==>
              GaveUp(Commanding(s, r, 1), r, s.claims)
    ensures Commanding(s, r, 3).server == Commanding(s, r, 1).server == s.server
  {
    var attempt := s.requests[r];
    var id, token := FromStableKey(attempt.bodyHash), attempt.stage.token;
    if id in s.server.searches {
      CommandLeads(s, r, Owning(token, id));
      CommandLeads(Commanding(s, r, 1), r, Completing(token, id));
      CommandLeads(Commanding(s, r, 2), r, Succeeded(id));
    } else {
      CommandLeads(s, r, ReportedProblem);
      CommandLeads(Commanding(s, r, 1), r, ReportedProblem);
      CommandLeads(Commanding(s, r, 2), r, ReportedProblem);
    }
  }

  /**
    A lost or malformed answer is recovered: from every reachable state where the request
    waits with its claim, giving up and the request's own next commands end in success with
    its search if that is live, and the record is completed; otherwise the claim is kept.
    */
  lemma {:induction false} LostAnswerIsRecovered(steps: seq<Step>, r: nat)
    requires WaitsWithClaim(Run(INITIAL, steps), r)
    ensures var s := Run(INITIAL, steps);
            var id := FromStableKey(s.requests[r].bodyHash);
            && (id in s.server.searches ==> Finished(Run(s, [GiveUp(r)] + Own(r, 3)), r, s.requests[r].bodyHash))
            && (id !in s.server.searches ==> GaveUp(Run(s, [GiveUp(r)] + Own(r, 1)), r, s.claims))
            && Run(s, [GiveUp(r)] + Own(r, 3)).server == s.server
  {
    WaitingHoldsOwnClaim(steps, r);
    var s := Run(INITIAL, steps);
    RunsOwn(s, GiveUp(r), r, 1);
    RunsOwn(s, GiveUp(r), r, 3);
    RecoveringEnds(Next(s, GiveUp(r)), r);
  }

  /**
    A received answer decides: Started succeeds and completes the record, Unprocessable
    gives the claim back, and any other answer is treated as a lost one.
    */
  lemma {:induction false} AnswerDecides(steps: seq<Step>, r: nat)
    requires WaitsWithClaim(Run(INITIAL, steps), r) && r in Run(INITIAL, steps).server.answers
    ensures var s := Run(INITIAL, steps);
            match s.server.answers[r]
            case Started(_) => Finished(Run(s, [ReceiveAnswer(r)] + Own(r, 2)), r, s.requests[r].bodyHash)
            case Unprocessable =>
              GaveUp(Run(s, [ReceiveAnswer(r)] + Own(r, 1)), r, s.claims.(keys := Keys(Domain.None, Domain.None)))
            case Unavailable => Run(s, [ReceiveAnswer(r)]) == Run(s, [GiveUp(r)])
  {
    WaitingHoldsOwnClaim(steps, r);
    SameSearchAlways(steps);
    var s := Run(INITIAL, steps);
    assert AnswerNames(s.server.answers[r], FromStableKey(s.requests[r].bodyHash), s.server.workers);
    RunOne(s, ReceiveAnswer(r));
    RunOne(s, GiveUp(r));
    RunsOwn(s, ReceiveAnswer(r), r, 1);
    RunsOwn(s, ReceiveAnswer(r), r, 2);
  }

  /** When the owner cannot be stored, a deleted search gives the claim back, and any other keeps it. */
  lemma OwnerFailureDecides(s: State, r: nat)
    requires r in s.requests && s.requests[r].stage.Owning? && Holds(s.claims.keys, s.requests[r].stage.token)
    ensures var t := Run(s, [OwnerFailed(r, true)] + Own(r, 1));
            && GaveUp(t, r, s.claims.(keys := Keys(Domain.None, Domain.None)))
            && t.server.searches == s.server.searches - {s.requests[r].stage.searchId}
    ensures GaveUp(Run(s, [OwnerFailed(r, false)]), r, s.claims)
            && Run(s, [OwnerFailed(r, false)]).server == s.server
  {
    RunsOwn(s, OwnerFailed(r, true), r, 1);
    RunOne(s, OwnerFailed(r, false));
  }

  // ---- how a new request begins

  lemma ClaimingSends(s: State, r: nat)
    requires r in s.requests && s.requests[r].stage == Beginning(ClaimRecord) && s.claims.keys.record.None?
    ensures var t := Commanding(s, r, 2);
            && r in t.requests && t.requests[r] == s.requests[r].(stage := AwaitingStart(s.claims.nextToken))
            && t.claims.keys == s.claims.keys.(record := Domain.Some(Pending(s.requests[r].bodyHash,
                                                                             s.claims.nextToken)))
            && t.server == s.server.(sent := s.server.sent + {r})
  {
  }

  /** Two commands of a new request that finds no record. */
  lemma FindsNoRecord(s: State, r: nat, bodyHash: string)
    requires r !in s.requests && s.claims.keys.record.None?
    ensures var unmarked := s.claims.keys.fingerprint.None?;
            var t := Commanding(Next(s, Arrive(r, bodyHash)), r, 2);
            && t.requests[r] == Attempt(bodyHash, Beginning(if unmarked then ClaimRecord else CheckFingerprint))
            && t.claims == (if unmarked then s.claims.(keys := Keys(Domain.None, Domain.Some(bodyHash))) else s.claims)
            && t.server == s.server
  {
    var a := Next(s, Arrive(r, bodyHash));
    CommandLeads(a, r, Beginning(MarkFingerprint));
    var b := Commanding(a, r, 1);
    CommandLeads(b, r, Beginning(if s.claims.keys.fingerprint.None? then ClaimRecord else CheckFingerprint));
  }

  /** Two commands of a new request that finds a record of its own body. */
  lemma FindsOwnRecord(s: State, r: nat, bodyHash: string)
    requires r !in s.requests && s.claims.keys.fingerprint == Domain.Some(bodyHash)
    requires s.claims.keys.record.Some? && s.claims.keys.record.value.bodyHash == bodyHash
    ensures var t := Commanding(Next(s, Arrive(r, bodyHash)), r, 2);
            && t.requests[r].bodyHash == bodyHash && t.claims == s.claims && t.server == s.server
            && match s.claims.keys.record.value
               case Completed(_, searchId) => t.requests[r].stage == Replaying(searchId)
               case Pending(_, token) => t.requests[r].stage == Recovering(token)
  {
    var a := Next(s, Arrive(r, bodyHash));
    var found := Existing(s.claims.keys.record.value, bodyHash);
    CommandLeads(a, r, Beginning(Repair(found)));
    CommandLeads(Commanding(a, r, 1), r, Continue(Done(found)));
  }

  /** A request that finds neither record nor fingerprint claims the key and sends its start. */
  lemma FirstRequestClaims(s: State, r: nat, bodyHash: string)
    requires r !in s.requests && s.claims.keys == Keys(Domain.None, Domain.None)
    ensures var t := Run(s, [Arrive(r, bodyHash)] + Own(r, 4));
            && r in t.requests && t.requests[r] == Attempt(bodyHash, AwaitingStart(s.claims.nextToken))
            && t.claims.keys == Keys(Domain.Some(Pending(bodyHash, s.claims.nextToken)), Domain.Some(bodyHash))
            && t.server == s.server.(sent := s.server.sent + {r})
  {
    RunsOwn(s, Arrive(r, bodyHash), r, 4);
    FindsNoRecord(s, r, bodyHash);
    ClaimingSends(Commanding(Next(s, Arrive(r, bodyHash)), r, 2), r);
    CommandingOn(Next(s, Arrive(r, bodyHash)), r, 2, 2);
  }

  /** Under a fingerprint without its record, the same body claims the key again and any other is refused. */
  lemma FingerprintDecides(s: State, r: nat, bodyHash: string)
    requires r !in s.requests && s.claims.keys.record.None? && s.claims.keys.fingerprint.Some?
    ensures var hash := s.claims.keys.fingerprint.value;
            if hash == bodyHash then
              var t := Run(s, [Arrive(r, bodyHash)] + Own(r, 5));
              && r in t.requests && t.requests[r] == Attempt(bodyHash, AwaitingStart(s.claims.nextToken))
              && t.claims.keys == Keys(Domain.Some(Pending(bodyHash, s.claims.nextToken)), Domain.Some(bodyHash))
              && t.server == s.server.(sent := s.server.sent + {r})
            else
              var t := Run(s, [Arrive(r, bodyHash)] + Own(r, 3));
              GaveUp(t, r, s.claims) && t.server == s.server
  {
    RunsOwn(s, Arrive(r, bodyHash), r, 3);
    RunsOwn(s, Arrive(r, bodyHash), r, 5);
    FindsNoRecord(s, r, bodyHash);
    var t := Commanding(Next(s, Arrive(r, bodyHash)), r, 2);
    var same := s.claims.keys.fingerprint.value == bodyHash;
    CommandLeads(t, r, if same then Beginning(ClaimRecord) else ReportedProblem);
    if same {
      ClaimingSends(Commanding(t, r, 1), r);
      CommandingOn(Next(s, Arrive(r, bodyHash)), r, 3, 2);
    }
  }

  /** A started search is answered, and a worker started, once for its record; a rejected one leaves no trace. */
  lemma ExecutionDecides(s: State, r: nat, verdict: Verdict)
    requires r in s.requests && r in s.server.sent
    ensures var id, v := FromStableKey(s.requests[r].bodyHash), Run(s, [Execute(r, verdict)]).server;
            && r in v.answers && v.sent == s.server.sent - {r}
            && (v.answers[r] == Started(id) <==> verdict == Accepts)
            && (v.answers[r] == Unprocessable <==> verdict == Rejects)
            && v.searches == s.server.searches + (if verdict == Accepts then {id} else {})
            && v.workers == s.server.workers
                            + (if verdict == Accepts && id !in s.server.searches then multiset{id} else multiset{})
  {
    RunOne(s, Execute(r, verdict));
  }

  /** A retry that finds its own body's record completed replays that search, and never one that is gone. */
  lemma RetryIsReplayed(s: State, r: nat, bodyHash: string)
    requires r !in s.requests && s.claims.keys.fingerprint == Domain.Some(bodyHash)
    requires s.claims.keys.record.Some? && s.claims.keys.record.value.Completed?
    requires s.claims.keys.record.value.bodyHash == bodyHash
    ensures var searchId := s.claims.keys.record.value.searchId;
            var t := Run(s, [Arrive(r, bodyHash)] + Own(r, 3));
            && t.claims == s.claims && t.server == s.server && r in t.requests
            && t.requests[r].stage == if searchId in s.server.searches then Succeeded(searchId) else ReportedProblem
  {
    RunsOwn(s, Arrive(r, bodyHash), r, 3);
    FindsOwnRecord(s, r, bodyHash);
  }

  /**
    A retry that finds the claim of its own body pending starts nothing: it recovers a live
    search and completes the record, and otherwise leaves the claim as it was.
    */
  lemma RetryRecovers(s: State, r: nat, bodyHash: string)
    requires r !in s.requests && s.claims.keys.fingerprint == Domain.Some(bodyHash)
    requires s.claims.keys.record.Some? && s.claims.keys.record.value.Pending?
    requires s.claims.keys.record.value.bodyHash == bodyHash
    ensures var arrive, live := [Arrive(r, bodyHash)], FromStableKey(bodyHash) in s.server.searches;
            && (live ==> Finished(Run(s, arrive + Own(r, 5)), r, bodyHash))
            && (!live ==> GaveUp(Run(s, arrive + Own(r, 3)), r, s.claims))
            && Run(s, arrive + Own(r, if live then 5 else 3)).server == s.server
  {
    RunsOwn(s, Arrive(r, bodyHash), r, 3);
    RunsOwn(s, Arrive(r, bodyHash), r, 5);
    FindsOwnRecord(s, r, bodyHash);
    RecoveringEnds(Commanding(Next(s, Arrive(r, bodyHash)), r, 2), r);
    CommandingOn(Next(s, Arrive(r, bodyHash)), r, 2, 1);
    CommandingOn(Next(s, Arrive(r, bodyHash)), r, 2, 3);
  }

  /** Another body under a live record is refused at once: nothing but its own stage changes. */
  lemma OtherBodyIsRefused(s: State, r: nat, bodyHash: string)
    requires r !in s.requests && s.claims.keys.record.Some? && s.claims.keys.record.value.bodyHash != bodyHash
    ensures var t := Run(s, [Arrive(r, bodyHash)] + Own(r, 1));
            GaveUp(t, r, s.claims) && t.server == s.server
  {
    RunsOwn(s, Arrive(r, bodyHash), r, 1);
  }
}
