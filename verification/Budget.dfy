/**
  The provider request budget of one search: concurrent leases in the orchestrator, the
  retry budget inside the adapter, and what the two promise together.
  */
module Budget {
  import opened Domain
  import opened Breaker
  import opened RateGate

  // ---- orchestrator side

  class BudgetLease {
    const budget: RequestBudget
    const allowance: int
    var done: bool

    constructor (budget: RequestBudget, allowance: int)
      ensures this.budget == budget && this.allowance == allowance && !done
    {
      this.budget, this.allowance, done := budget, allowance, false;
    }

    /** Idempotent settlement: reserved gives the allowance back, used grows by the clamped charge. */
    method Finish(actual: int)
      requires budget.Valid() && (!done ==> this in budget.open)
      modifies this, budget
      ensures budget.Valid() && done
      ensures old(done) ==>
              budget.used == old(budget.used) && budget.reserved == old(budget.reserved)
              && budget.open == old(budget.open)
      ensures !old(done) ==>
                && budget.open == old(budget.open) - {this}
                && budget.used == old(budget.used) + Max(0, Min(actual, allowance))
                && budget.reserved == old(budget.reserved) - allowance
    {
      if done {
        return;
      }
      var charge := actual;
      if charge < 0 {
        charge := 0;
      }
      if charge > allowance {
        charge := allowance;
      }
      TotalWithout(budget.open, this);
      TotalNonNegative(budget.open - {this});
      budget.reserved := budget.reserved - allowance;
      budget.used := budget.used + charge;
      budget.open := budget.open - {this};
      done := true;
    }
  }

  ghost function TotalAllowance(leases: set<BudgetLease>): int {
    if leases == {} then 0
    else
      var l :| l in leases;
      l.allowance + TotalAllowance(leases - {l})
  }

  lemma {:induction false} TotalWithout(leases: set<BudgetLease>, l: BudgetLease)
    requires l in leases
    ensures TotalAllowance(leases) == l.allowance + TotalAllowance(leases - {l})
    decreases |leases|
  {
    var first :| first in leases && TotalAllowance(leases) == first.allowance + TotalAllowance(leases - {first});
    if first != l {
      TotalWithout(leases - {first}, l);
      TotalWithout(leases - {l}, first);
      assert leases - {first} - {l} == leases - {l} - {first};
    }
  }

  lemma {:induction false} TotalNonNegative(leases: set<BudgetLease>)
    requires forall l :: l in leases ==> l.allowance >= 0
    ensures TotalAllowance(leases) >= 0
    decreases |leases|
  {
    if leases != {} {
      var l :| l in leases;
      TotalWithout(leases, l);
      TotalNonNegative(leases - {l});
    }
  }

  class RequestBudget {
    const limit: int
    var used: int
    var reserved: int
    /** The leases handed out and not finished yet. */
    ghost var open: set<BudgetLease>

    ghost predicate Valid()
      reads this, open
    {
      && used >= 0 && (used + reserved <= limit || used + reserved == 0)
      && reserved == TotalAllowance(open) && reserved >= 0
      && forall l :: l in open ==> l.budget == this && !l.done && l.allowance >= 1
    }

    constructor (limit: int)
      ensures Valid() && this.limit == limit && used == 0 && reserved == 0 && open == {}
    {
      this.limit, used, reserved, open := limit, 0, 0, {};
    }

    method Lease(maxAllowance: int) returns (lease: BudgetLease?)
      requires Valid()
      modifies this
      ensures Valid() && used == old(used)
      ensures lease == null <==> limit - old(used) - old(reserved) <= 0
      ensures lease == null ==> open == old(open) && reserved == old(reserved)
      ensures lease != null ==>
                && fresh(lease) && lease.budget == this && open == old(open) + {lease}
                && lease.allowance == Min(limit - old(used) - old(reserved), Max(1, maxAllowance))
                && reserved == old(reserved) + lease.allowance
    {
      var available := limit - used - reserved;
      if available <= 0 {
        return null;
      }
      var most := if maxAllowance < 1 then 1 else maxAllowance;
      if available > most {
        available := most;
      }
      reserved := reserved + available;
      lease := new BudgetLease(this, available);
      open := open + {lease};
      TotalWithout(open, lease);
      assert open - {lease} == old(open);
    }
  }

  // ---- adapter side

  /** The adapter's two counters for one call. */
  datatype Counters = Counters(remaining: int, used: int)

  /** Spending one request, if any remains. */
  function Consumed(c: Counters): Counters {
    if c.remaining <= 0 then c else Counters(c.remaining - 1, c.used + 1)
  }

  class AdapterBudget {
    var remaining: int
    var used: int

    ghost function Value(): Counters
      reads this
    {
      Counters(remaining, used)
    }

    constructor (limit: int)
      ensures remaining == limit && used == 0
    {
      remaining, used := limit, 0;
    }

    method Consume() returns (ok: bool)
      modifies this
      ensures ok <==> old(remaining) > 0
      ensures Value() == Consumed(old(Value()))
    {
      if remaining <= 0 {
        return false;
      }
      remaining, used := remaining - 1, used + 1;
      return true;
    }
  }

  /** How one outbound attempt ends. */
  datatype Attempt = Answered | Refused(rateLimited: bool, credential: bool, retryable: bool)

  /** The surroundings of one loop iteration. */
  datatype Surroundings = Surroundings(
    cooldownElapsed: bool, now: int, bulkheadFree: bool, attempt: Attempt, slept: bool)

  datatype Exit =
    | Responded(requestsUsed: int, budgetRemaining: int)
    | BudgetExhausted | Cancelled | CircuitOpen | BulkheadFull | QuotaFull
    | ProviderFailed(attempt: Attempt)

  predicate ReportsFailure(attempt: Attempt) {
    attempt.Refused? && !attempt.rateLimited && !attempt.credential && attempt.retryable
  }

  /** The breaker hears of the attempt. */
  predicate Concludes(attempt: Attempt) {
    attempt == Answered || ReportsFailure(attempt)
  }

  /**
    Whether a probe is left without an outcome: an admission that led to no attempt leaves
    one, no admission at all changes nothing, and otherwise the last attempt decides: only an
    answer, or a retryable failure that is neither a rate limit nor the credential's fault,
    settles it.
    */
  predicate LeavesProbe(exit: Exit, attempts: nat, requestBudget: int, env: nat -> Surroundings, before: bool) {
    if exit.BulkheadFull? || exit.QuotaFull? || (exit.BudgetExhausted? && requestBudget < 0) then true
    else if attempts == 0 then before
    else
      match env(attempts - 1).attempt
      case Answered => false
      case Refused(rateLimited, credential, retryable) => rateLimited || credential || !retryable
  }

  /** What the surroundings and limits must have been for each way out. */
  ghost predicate Explains(exit: Exit, attempts: nat, requestBudget: int, maxRetries: nat, env: nat -> Surroundings) {
    match exit
    case Responded(used, remaining) =>
      attempts >= 1 && env(attempts - 1).attempt == Answered && used == attempts && used + remaining == requestBudget
    case BudgetExhausted => attempts >= requestBudget
    case Cancelled =>
      || !env(attempts).cooldownElapsed
      || (&& attempts >= 1 && !env(attempts - 1).slept
          && !(env(attempts - 1).attempt.Refused? && env(attempts - 1).attempt.rateLimited))
    case CircuitOpen => attempts <= maxRetries
    case BulkheadFull => !env(attempts).bulkheadFree
    case QuotaFull => attempts <= maxRetries
    case ProviderFailed(attempt) =>
      && attempts >= 1 && attempt == env(attempts - 1).attempt && attempt.Refused?
      && (!attempt.retryable || attempts == maxRetries + 1)
  }

  /** The last entry is an admission that the rule refused at this instant. */
  ghost predicate RefusedAdmission(history: seq<Call>, threshold: int, openDuration: int, now: int) {
    && history != [] && history[|history| - 1] == Admission(false)
    && !Admits(history[..|history| - 1], threshold, openDuration, now)
  }

  /** How an iteration ends that makes no outbound attempt. */
  ghost predicate Unattempted(exit: Exit, remaining: int, around: Surroundings, admitted: bool, outstanding: bool,
                              before: bool) {
    match exit
    case BudgetExhausted => if remaining == 0 then outstanding == before else remaining < 0 && outstanding
    case Cancelled => !around.cooldownElapsed && outstanding == before
    case CircuitOpen => !admitted && outstanding == before
    case BulkheadFull => !around.bulkheadFree && outstanding
    case QuotaFull => outstanding
    case _ => false
  }

  /** How an iteration ends that made one; none means that the loop goes on. */
  ghost predicate Attempted(exit: Option<Exit>, counters: Counters, around: Surroundings, last: bool) {
    var attempt := around.attempt;
    match exit
    case None => attempt.Refused? && attempt.retryable && !last && counters.remaining != 0
    case Some(Responded(used, remaining)) =>
      attempt == Answered && used == counters.used && remaining == counters.remaining
    case Some(ProviderFailed(failed)) => failed == attempt && attempt.Refused? && (!attempt.retryable || last)
    case Some(BudgetExhausted) => attempt.Refused? && attempt.retryable && counters.remaining == 0
    case Some(Cancelled) => attempt.Refused? && attempt.retryable && !attempt.rateLimited && !around.slept
    case Some(_) => false
  }

  /** One iteration of the retry loop. */
  method AttemptOnce(budget: AdapterBudget, breaker: CircuitBreaker, gate: SlidingWindowGate, around: Surroundings,
                     last: bool)
    returns (exit: Option<Exit>, attempted: bool)
    requires breaker.Valid()
    modifies budget, breaker, gate
    ensures breaker.Valid()
    ensures !attempted ==>
              && exit.Some? && budget.Value() == old(budget.Value())
              && Unattempted(exit.value, budget.remaining, around,
                             old(Admits(breaker.history, breaker.threshold, breaker.openDuration, around.now)),
                             ProbeOutstanding(breaker.history), old(ProbeOutstanding(breaker.history)))
              && (exit.value.CircuitOpen? ==>
                    RefusedAdmission(breaker.history, breaker.threshold, breaker.openDuration, around.now))
              && (exit.value.QuotaFull? ==> !Decide(gate.limit, gate.window, gate.attempts, around.now).admitted)
    ensures attempted ==>
              && old(budget.remaining) > 0 && budget.Value() == Consumed(old(budget.Value()))
              && old(Admits(breaker.history, breaker.threshold, breaker.openDuration, around.now))
              && Attempted(exit, budget.Value(), around, last)
              && (ProbeOutstanding(breaker.history) <==> !Concludes(around.attempt))
    ensures old(Tripped(breaker.history, breaker.threshold)) && !(attempted && around.attempt == Answered) ==>
              Tripped(breaker.history, breaker.threshold)
  {
    if budget.remaining == 0 {
      return Some(BudgetExhausted), false;
    }
    if !around.cooldownElapsed {
      return Some(Cancelled), false;
    }
    ghost var before := breaker.history;
    var allowed := breaker.Allow(around.now);
    assert breaker.history[..|before|] == before;
    if !allowed {
      return Some(CircuitOpen), false;
    }
    if !around.bulkheadFree {
      return Some(BulkheadFull), false;
    }
    ghost var window := gate.attempts;
    var admitted, retryAfter := gate.Try(around.now);
    if !admitted {
      RefusalStays(gate.limit, gate.window, window, around.now);
      return Some(QuotaFull), false;
    }
    var consumed := budget.Consume();
    if !consumed {
      return Some(BudgetExhausted), false;
    }
    if around.attempt == Answered {
      breaker.ReportSuccess();
      return Some(Responded(budget.used, budget.remaining)), true;
    }
    ghost var admitting := breaker.history;
    if ReportsFailure(around.attempt) {
      breaker.ReportFailure(around.now);
      assert breaker.history[..|admitting|] == admitting;
    }
    if !around.attempt.retryable || last {
      return Some(ProviderFailed(around.attempt)), true;
    }
    if budget.remaining == 0 {
      return Some(BudgetExhausted), true;
    }
    if !around.attempt.rateLimited && !around.slept {
      return Some(Cancelled), true;
    }
    return None, true;
  }

  /**
    The adapter's retry loop: the outbound attempts of one call never exceed the budget it
    was given, a successful answer reports exactly the attempts made, every exit has its
    cause, and for every exit it is decided whether the breaker is left with a probe
    outstanding. While the breaker is tripped, no attempt follows one it did not hear of.
    */
  method Routes(requestBudget: int, maxRetries: nat, breaker: CircuitBreaker, gate: SlidingWindowGate,
                env: nat -> Surroundings)
    returns (exit: Exit, attempts: nat)
    requires breaker.Valid()
    modifies breaker, gate
    ensures breaker.Valid()
    ensures attempts <= Max(0, requestBudget) && attempts <= maxRetries + 1
    ensures Explains(exit, attempts, requestBudget, maxRetries, env)
    ensures exit.Responded? ==> exit.budgetRemaining >= 0
    ensures ProbeOutstanding(breaker.history) <==>
            LeavesProbe(exit, attempts, requestBudget, env, old(ProbeOutstanding(breaker.history)))
    ensures exit.CircuitOpen? && attempts == 0 ==>
              !Admits(old(breaker.history), breaker.threshold, breaker.openDuration, env(0).now)
    ensures old(Tripped(breaker.history, breaker.threshold)) ==>
            forall k: nat :: k + 1 < attempts ==> Concludes(env(k).attempt)
    ensures exit.CircuitOpen? ==>
            RefusedAdmission(breaker.history, breaker.threshold, breaker.openDuration, env(attempts).now)
    ensures exit.QuotaFull? ==> !Decide(gate.limit, gate.window, gate.attempts, env(attempts).now).admitted
    ensures forall k: nat :: k + 1 < attempts ==> env(k).attempt.Refused? && env(k).attempt.retryable
  {
    var budget := new AdapterBudget(requestBudget);
    attempts := 0;
    exit := BudgetExhausted;
    while attempts <= maxRetries
      invariant fresh(budget) && breaker.Valid()
      invariant budget.used == attempts && budget.remaining + attempts == requestBudget
      invariant attempts <= maxRetries && (attempts == 0 || budget.remaining > 0)
      invariant attempts == 0 ==> breaker.history == old(breaker.history)
      invariant attempts > 0 ==> (ProbeOutstanding(breaker.history) <==> !Concludes(env(attempts - 1).attempt))
      invariant forall k: nat :: k < attempts ==> env(k).attempt.Refused? && env(k).attempt.retryable
      invariant old(Tripped(breaker.history, breaker.threshold)) ==>
                  && Tripped(breaker.history, breaker.threshold)
                  && forall k: nat :: k + 1 < attempts ==> Concludes(env(k).attempt)
      decreases maxRetries - attempts
    {
      var left, attempted := AttemptOnce(budget, breaker, gate, env(attempts), attempts == maxRetries);
      if attempted {
        attempts := attempts + 1;
      }
      if left.Some? {
        return left.value, attempts;
      }
    }
  }

  /**
    The main way to lose a probe: a half-open probe is answered with a rate limit while a
    retry is left. The retry is refused, and the breaker keeps refusing.
    */
  method RateLimitedProbeIsLost(breaker: CircuitBreaker, gate: SlidingWindowGate, env: nat -> Surroundings)
    returns (exit: Exit, attempts: nat)
    requires breaker.Valid() && gate.limit == 0
    requires Tripped(breaker.history, breaker.threshold)
    requires Admits(breaker.history, breaker.threshold, breaker.openDuration, env(0).now)
    requires env(0).cooldownElapsed && env(0).bulkheadFree && env(0).attempt == Refused(true, false, true)
    requires env(1).cooldownElapsed && env(1).bulkheadFree
    modifies breaker, gate
    ensures exit == CircuitOpen && attempts == 1 && breaker.Valid() && ProbeOutstanding(breaker.history)
  {
    exit, attempts := Routes(2, 1, breaker, gate, env);
    assert !Concludes(env(0).attempt);
  }

  // ---- the two together, over every interleaving

  /**
    InFlight: the call is out. Settled: its answer arrived and its use was charged.
    WrittenOff: the caller saw an error and charged the whole allowance, while the adapter
    may still be retrying.
    */
  datatype Phase = InFlight | Settled(charged: int) | WrittenOff

  /** A leased call with the two counters of the adapter's budget for it. */
  datatype LeasedCall = LeasedCall(allowance: nat, adapter: Counters, phase: Phase)

  datatype Spending = Spending(limit: int, used: int, reserved: int, calls: seq<LeasedCall>)

  datatype Step =
    | TakeLease(maxAllowance: int)
    | OutboundAttempt(call: nat)
    | ReceiveAnswer(call: nat, requestsUsed: int, budgetRemaining: int)
    | SeeError(call: nat)

  /** The caller's check of the usage an answer reports. */
  predicate UsageAcceptable(allowance: int, requestsUsed: int, budgetRemaining: int) {
    && 1 <= requestsUsed <= allowance
    && 0 <= budgetRemaining <= allowance && requestsUsed + budgetRemaining <= allowance
  }

  /** An honest adapter reports its counters after at least one attempt. */
  predicate Reports(call: LeasedCall, requestsUsed: int, budgetRemaining: int) {
    requestsUsed == call.adapter.used >= 1 && budgetRemaining == call.adapter.remaining
  }

  function FinishLease(s: Spending, i: nat, actual: int, phase: Phase): Spending
    requires i < |s.calls|
  {
    var allowance := s.calls[i].allowance;
    s.(reserved := s.reserved - allowance, used := s.used + Max(0, Min(actual, allowance)),
    calls := s.calls[i := s.calls[i].(phase := phase)])
  }

  /** One atomic step; a step that is not enabled changes nothing. */
  function Apply(s: Spending, step: Step): Spending {
    match step
    case TakeLease(maxAllowance) =>
      var available := s.limit - s.used - s.reserved;
      if available <= 0 then s
      else
        var allowance: nat := Min(available, Max(1, maxAllowance));
        s.(reserved := s.reserved + allowance,
           calls := s.calls + [LeasedCall(allowance, Counters(allowance, 0), InFlight)])
    case OutboundAttempt(i) =>
      // the adapter answers only when its loop is over
      if i < |s.calls| && !s.calls[i].phase.Settled? then
        s.(calls := s.calls[i := s.calls[i].(adapter := Consumed(s.calls[i].adapter))])
      else s
    case ReceiveAnswer(i, requestsUsed, budgetRemaining) =>
      if i < |s.calls| && s.calls[i].phase == InFlight && Reports(s.calls[i], requestsUsed, budgetRemaining) then
        if UsageAcceptable(s.calls[i].allowance, requestsUsed, budgetRemaining) then
          FinishLease(s, i, requestsUsed, Settled(requestsUsed))
        else FinishLease(s, i, s.calls[i].allowance, WrittenOff)
      else s
    case SeeError(i) =>
      if i < |s.calls| && s.calls[i].phase == InFlight then FinishLease(s, i, s.calls[i].allowance, WrittenOff) else s
  }

  function Reserved(call: LeasedCall): int { if call.phase == InFlight then call.allowance else 0 }

  function Charged(call: LeasedCall): int {
    match call.phase
    case InFlight => 0
    case Settled(charged) => charged
    case WrittenOff => call.allowance
  }

  function SumOf(calls: seq<LeasedCall>, f: LeasedCall -> int): int {
    if calls == [] then 0 else SumOf(calls[..|calls| - 1], f) + f(calls[|calls| - 1])
  }

  lemma {:induction false} SumUpdate(calls: seq<LeasedCall>, f: LeasedCall -> int, i: nat, c: LeasedCall)
    requires i < |calls|
    ensures SumOf(calls[i := c], f) == SumOf(calls, f) - f(calls[i]) + f(c)
  {
    var front := calls[..|calls| - 1];
    if i < |calls| - 1 {
      SumUpdate(front, f, i, c);
      assert calls[i := c][..|calls| - 1] == front[i := c];
    } else {
      assert calls[i := c][..|calls| - 1] == front;
    }
  }

  lemma {:induction false} SumLeq(calls: seq<LeasedCall>, f: LeasedCall -> int, g: LeasedCall -> int)
    requires forall i :: 0 <= i < |calls| ==> f(calls[i]) <= g(calls[i])
    ensures SumOf(calls, f) <= SumOf(calls, g)
  {
    if calls != [] {
      SumLeq(calls[..|calls| - 1], f, g);
    }
  }

  lemma {:induction false} SumAdd(calls: seq<LeasedCall>, f: LeasedCall -> int, g: LeasedCall -> int,
                                  h: LeasedCall -> int)
    requires forall i :: 0 <= i < |calls| ==> h(calls[i]) == f(calls[i]) + g(calls[i])
    ensures SumOf(calls, h) == SumOf(calls, f) + SumOf(calls, g)
  {
    if calls != [] {
      SumAdd(calls[..|calls| - 1], f, g, h);
    }
  }

  function ReservedOf(): LeasedCall -> int { c => Reserved(c) }
  function ChargedOf(): LeasedCall -> int { c => Charged(c) }
  function AttemptsOf(): LeasedCall -> int { (c: LeasedCall) => c.adapter.used }
  function CoverOf(): LeasedCall -> int { c => Charged(c) + Reserved(c) }

  /** reserved and used are exactly the open allowances and the charges, and fit the limit. */
  ghost predicate Accounted(s: Spending) {
    && s.reserved == SumOf(s.calls, ReservedOf())
    && s.used == SumOf(s.calls, ChargedOf())
    && s.used + s.reserved <= Max(0, s.limit)
    && forall i :: 0 <= i < |s.calls| ==>
         && s.calls[i].adapter.used >= 0 && s.calls[i].adapter.remaining >= 0
         && s.calls[i].adapter.used + s.calls[i].adapter.remaining == s.calls[i].allowance
         && (s.calls[i].phase.Settled? ==> s.calls[i].phase.charged == s.calls[i].adapter.used)
  }

  /** What the adapter reports always passes the caller's check, so an answer is charged as reported. */
  lemma HonestUsageIsAcceptable(s: Spending, i: nat, requestsUsed: int, budgetRemaining: int)
    requires Accounted(s) && i < |s.calls| && Reports(s.calls[i], requestsUsed, budgetRemaining)
    ensures UsageAcceptable(s.calls[i].allowance, requestsUsed, budgetRemaining)
  {
  }

  lemma AccountedStep(s: Spending, step: Step)
    requires Accounted(s)
    ensures Accounted(Apply(s, step))
  {
    var t := Apply(s, step);
    if step.TakeLease? {
      if t != s {
        assert t.calls[..|t.calls| - 1] == s.calls;
      }
    } else if step.call < |s.calls| && t != s {
      SumUpdate(s.calls, ReservedOf(), step.call, t.calls[step.call]);
      SumUpdate(s.calls, ChargedOf(), step.call, t.calls[step.call]);
    }
  }

  function RunSteps(s: Spending, steps: seq<Step>): Spending {
    if steps == [] then s else Apply(RunSteps(s, steps[..|steps| - 1]), steps[|steps| - 1])
  }

  lemma {:induction false} AccountedRun(limit: int, steps: seq<Step>)
    ensures RunSteps(Spending(limit, 0, 0, []), steps).limit == limit
    ensures Accounted(RunSteps(Spending(limit, 0, 0, []), steps))
  {
    if steps != [] {
      AccountedRun(limit, steps[..|steps| - 1]);
      AccountedStep(RunSteps(Spending(limit, 0, 0, []), steps[..|steps| - 1]), steps[|steps| - 1]);
    }
  }

  /**
    In every interleaving of leases, adapter attempts, answers and errors, the outbound
    attempts made so far, including those of calls already given up on, never exceed the
    request limit of the search.
    */
  lemma OutboundAttemptsStayWithinLimit(limit: int, steps: seq<Step>)
    ensures SumOf(RunSteps(Spending(limit, 0, 0, []), steps).calls, AttemptsOf()) <= Max(0, limit)
  {
    AccountedRun(limit, steps);
    var s := RunSteps(Spending(limit, 0, 0, []), steps);
    SumAdd(s.calls, ChargedOf(), ReservedOf(), CoverOf());
    SumLeq(s.calls, AttemptsOf(), CoverOf());
  }
}
