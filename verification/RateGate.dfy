/**
  The provider quota gate: a sliding window over admission times that forgets what has
  left the window. Times are milliseconds; now is a parameter.
  */
module RateGate {

  const MILLISECOND := 1

  /** How many admissions fall in (to - window, to]. */
  function Admitted(history: seq<int>, window: int, to: int): nat {
    if history == [] then 0
    else
      Admitted(history[..|history| - 1], window, to)
      + if to - window < history[|history| - 1] <= to then 1 else 0
  }

  ghost predicate NonDecreasing(history: seq<int>) {
    forall i, j :: 0 <= i < j < |history| ==> history[i] <= history[j]
  }

  /** No window of the given length ever holds more than limit admissions. */
  ghost predicate WithinQuota(history: seq<int>, limit: int, window: int) {
    forall to :: Admitted(history, window, to) <= limit
  }

  lemma {:induction false} AdmittedConcat(a: seq<int>, b: seq<int>, window: int, to: int)
    ensures Admitted(a + b, window, to) == Admitted(a, window, to) + Admitted(b, window, to)
  {
    if b == [] {
      assert a + b == a;
    } else {
      AdmittedConcat(a, b[..|b| - 1], window, to);
      assert (a + b)[..|a + b| - 1] == a + b[..|b| - 1];
    }
  }

  lemma {:induction false} NoneAdmitted(s: seq<int>, window: int, to: int)
    requires forall i :: 0 <= i < |s| ==> s[i] <= to - window || s[i] > to
    ensures Admitted(s, window, to) == 0
  {
    if s != [] {
      NoneAdmitted(s[..|s| - 1], window, to);
    }
  }

  lemma {:induction false} AllAdmitted(s: seq<int>, window: int, to: int)
    requires forall i :: 0 <= i < |s| ==> to - window < s[i] <= to
    ensures Admitted(s, window, to) == |s|
  {
    if s != [] {
      AllAdmitted(s[..|s| - 1], window, to);
    }
  }

  /** The last admissions of a sorted history that some window can see, counted at any later instant. */
  lemma {:induction false} AdmittedShrinks(s: seq<int>, window: int, now: int, to: int)
    requires now <= to && forall i :: 0 <= i < |s| ==> s[i] <= now
    ensures Admitted(s, window, to) <= Admitted(s, window, now)
  {
    if s != [] {
      AdmittedShrinks(s[..|s| - 1], window, now, to);
    }
  }

  /** Admitting when the window is not full keeps every window within the quota. */
  lemma QuotaKept(history: seq<int>, now: int, limit: int, window: int)
    requires window > 0 && NonDecreasing(history + [now]) && WithinQuota(history, limit, window)
    requires Admitted(history, window, now) < limit
    ensures WithinQuota(history + [now], limit, window)
  {
    var grown := history + [now];
    assert forall i :: 0 <= i < |history| ==> history[i] == grown[i] <= grown[|history|];
    forall to ensures Admitted(grown, window, to) <= limit {
      assert grown[..|grown| - 1] == history && grown[|grown| - 1] == now;
      assert Admitted(history, window, to) <= limit;
      if now <= to {
        AdmittedShrinks(history, window, now, to);
      }
    }
  }

  // ---- one call

  datatype Decision = Decision(admitted: bool, retryAfter: int)

  /** The first attempt at or after index i that is still after the cutoff. */
  function FirstActive(attempts: seq<int>, cutoff: int, i: nat): (r: nat)
    requires i <= |attempts|
    ensures i <= r <= |attempts|
    ensures forall k :: i <= k < r ==> attempts[k] <= cutoff
    ensures r < |attempts| ==> attempts[r] > cutoff
    decreases |attempts| - i
  {
    if i == |attempts| || attempts[i] > cutoff then i else FirstActive(attempts, cutoff, i + 1)
  }

  /** Drops the leading attempts that are not after the cutoff. */
  function Compacted(attempts: seq<int>, cutoff: int): seq<int> {
    attempts[FirstActive(attempts, cutoff, 0)..]
  }

  function Decide(limit: int, window: int, attempts: seq<int>, now: int): Decision {
    var active := Compacted(attempts, now - window);
    if limit <= 0 || window <= 0 then Decision(true, 0)
    else if |active| >= limit then
      var wait := active[0] + window - now;
      Decision(false, if wait < MILLISECOND then MILLISECOND else wait)
    else Decision(true, 0)
  }

  function Remember(limit: int, window: int, attempts: seq<int>, now: int): seq<int> {
    var active := Compacted(attempts, now - window);
    if limit <= 0 || window <= 0 then attempts
    else if |active| >= limit then active
    else active + [now]
  }

  class SlidingWindowGate {
    const limit: int
    const window: int
    var attempts: seq<int>

    constructor (limit: int, window: int)
      ensures this.limit == limit && this.window == window && attempts == []
    {
      this.limit, this.window, attempts := limit, window, [];
    }

    method Try(now: int) returns (admitted: bool, retryAfter: int)
      modifies this
      ensures Decision(admitted, retryAfter) == Decide(limit, window, old(attempts), now)
      ensures attempts == Remember(limit, window, old(attempts), now)
    {
      if limit <= 0 || window <= 0 {
        return true, 0;
      }
      var cutoff := now - window;
      var firstActive := 0;
      while firstActive < |attempts| && !(attempts[firstActive] > cutoff)
        invariant firstActive <= |attempts|
        invariant FirstActive(attempts, cutoff, firstActive) == FirstActive(attempts, cutoff, 0)
      {
        firstActive := firstActive + 1;
      }
      if firstActive > 0 {
        attempts := attempts[firstActive..];
      }
      if |attempts| >= limit {
        retryAfter := attempts[0] + window - now;
        if retryAfter < MILLISECOND {
          retryAfter := MILLISECOND;
        }
        return false, retryAfter;
      }
      attempts := attempts + [now];
      return true, 0;
    }
  }

  // ---- whole runs

  /** The attempt list and the complete admission history after a sequence of readings. */
  datatype Log = Log(attempts: seq<int>, history: seq<int>)

  function Step(log: Log, limit: int, window: int, now: int): Log {
    Log(Remember(limit, window, log.attempts, now),
        if Decide(limit, window, log.attempts, now).admitted then log.history + [now] else log.history)
  }

  function Run(limit: int, window: int, readings: seq<int>): Log {
    if readings == [] then Log([], [])
    else Step(Run(limit, window, readings[..|readings| - 1]), limit, window, readings[|readings| - 1])
  }

  lemma RunSnoc(limit: int, window: int, readings: seq<int>, now: int)
    ensures Run(limit, window, readings + [now]) == Step(Run(limit, window, readings), limit, window, now)
  {
    assert (readings + [now])[..|readings|] == readings;
  }

  /** The last n admissions are remembered; everything older has left the window at clock. */
  ghost predicate Sees(history: seq<int>, attempts: seq<int>, window: int, clock: int) {
    && |attempts| <= |history|
    && attempts == history[|history| - |attempts|..]
    && NonDecreasing(history)
    && (forall i :: 0 <= i < |history| ==> history[i] <= clock)
    && (forall i :: 0 <= i < |history| - |attempts| ==> history[i] <= clock - window)
  }

  ghost predicate Faithful(log: Log, limit: int, window: int, clock: int) {
    && |log.attempts| <= limit
    && Sees(log.history, log.attempts, window, clock)
    && WithinQuota(log.history, limit, window)
  }

  lemma CompactionSees(history: seq<int>, attempts: seq<int>, window: int, clock: int, now: int)
    requires Sees(history, attempts, window, clock) && clock <= now
    ensures Sees(history, Compacted(attempts, now - window), window, now)
    ensures var active := Compacted(attempts, now - window);
            forall i :: 0 <= i < |active| ==> now - window < active[i] <= now
  {
    var a, d := |history| - |attempts|, FirstActive(attempts, now - window, 0);
    var active := Compacted(attempts, now - window);
    assert active == history[a + d..];
    forall i | 0 <= i < a + d ensures history[i] <= now - window {
      if i >= a {
        assert history[i] == attempts[i - a];
      }
    }
    forall i | 0 <= i < |active| ensures now - window < active[i] <= now {
      assert active[i] == history[a + d + i] && active[0] == history[a + d] == attempts[d];
    }
  }

  /** The compacted list decides exactly as the full admission history would. */
  lemma CompactedSeesWindow(history: seq<int>, attempts: seq<int>, window: int, clock: int, now: int)
    requires Sees(history, attempts, window, clock) && clock <= now
    ensures |Compacted(attempts, now - window)| == Admitted(history, window, now)
  {
    var active := Compacted(attempts, now - window);
    CompactionSees(history, attempts, window, clock, now);
    var f := |history| - |active|;
    assert history == history[..f] + active;
    NoneAdmitted(history[..f], window, now);
    AllAdmitted(active, window, now);
    AdmittedConcat(history[..f], active, window, now);
  }

  lemma GrowthSees(history: seq<int>, active: seq<int>, window: int, now: int)
    requires Sees(history, active, window, now)
    ensures Sees(history + [now], active + [now], window, now)
  {
    var f, grown := |history| - |active|, history + [now];
    assert grown[f..] == active + [now];
  }

  lemma FaithfulStep(log: Log, limit: int, window: int, clock: int, now: int)
    requires limit > 0 && window > 0 && Faithful(log, limit, window, clock) && clock <= now
    ensures Faithful(Step(log, limit, window, now), limit, window, now)
  {
    var active := Compacted(log.attempts, now - window);
    CompactionSees(log.history, log.attempts, window, clock, now);
    assert |active| <= |log.attempts|;
    if |active| < limit {
      GrowthSees(log.history, active, window, now);
      CompactedSeesWindow(log.history, log.attempts, window, clock, now);
      QuotaKept(log.history, now, limit, window);
      assert Step(log, limit, window, now) == Log(active + [now], log.history + [now]);
    } else {
      assert Step(log, limit, window, now) == Log(active, log.history);
    }
  }

  /** The latest reading; before the first one any instant will do. */
  function Clock(readings: seq<int>, start: int): int {
    if readings == [] then start else readings[|readings| - 1]
  }

  lemma {:induction false} RunIsFaithful(limit: int, window: int, readings: seq<int>, start: int)
    requires limit > 0 && window > 0 && NonDecreasing(readings)
    ensures Faithful(Run(limit, window, readings), limit, window, Clock(readings, start))
  {
    if readings == [] {
      forall to ensures Admitted([], window, to) <= limit {
      }
    } else {
      var front, now := readings[..|readings| - 1], readings[|readings| - 1];
      RunIsFaithful(limit, window, front, now);
      FaithfulStep(Run(limit, window, front), limit, window, Clock(front, now), now);
    }
  }

  /** Over every run of non-decreasing readings, no window ever holds more than limit admissions. */
  lemma QuotaHolds(limit: int, window: int, readings: seq<int>)
    requires limit > 0 && window > 0 && NonDecreasing(readings)
    ensures WithinQuota(Run(limit, window, readings).history, limit, window)
  {
    RunIsFaithful(limit, window, readings, 0);
  }

  lemma ReadingsSoFar(readings: seq<int>, now: int)
    requires NonDecreasing(readings + [now])
    ensures NonDecreasing(readings) && Clock(readings, now) <= now
  {
    assert forall i :: 0 <= i < |readings| ==> readings[i] == (readings + [now])[i];
    assert (readings + [now])[|readings|] == now;
  }

  /** The compacted list decides the next call exactly as the full admission history would. */
  lemma DecidesAsHistory(limit: int, window: int, readings: seq<int>, now: int)
    requires limit > 0 && window > 0 && NonDecreasing(readings + [now])
    ensures var log := Run(limit, window, readings);
            Decide(limit, window, log.attempts, now).admitted <==> Admitted(log.history, window, now) < limit
  {
    ReadingsSoFar(readings, now);
    RunIsFaithful(limit, window, readings, now);
    var log := Run(limit, window, readings);
    DecidesAsSeen(log, limit, window, Clock(readings, now), now);
  }

  lemma DecidesAsSeen(log: Log, limit: int, window: int, clock: int, now: int)
    requires limit > 0 && window > 0 && Sees(log.history, log.attempts, window, clock) && clock <= now
    ensures Decide(limit, window, log.attempts, now).admitted <==> Admitted(log.history, window, now) < limit
  {
    CompactedSeesWindow(log.history, log.attempts, window, clock, now);
  }

  /** The attempt list never exceeds the limit, whatever the readings. */
  lemma {:induction false} AttemptsBounded(limit: int, window: int, readings: seq<int>)
    requires limit > 0 && window > 0
    ensures |Run(limit, window, readings).attempts| <= limit
  {
    if readings != [] {
      AttemptsBounded(limit, window, readings[..|readings| - 1]);
    }
  }

  /** Hence a refused call succeeds when repeated after the advertised delay with nothing in between, and no sooner. */
  lemma RetrySucceeds(limit: int, window: int, attempts: seq<int>, now: int, early: nat)
    requires limit > 0 && window > 0 && |attempts| <= limit && !Decide(limit, window, attempts, now).admitted
    ensures var wait := Decide(limit, window, attempts, now).retryAfter;
            && wait > 0 && Decide(limit, window, Remember(limit, window, attempts, now), now + wait).admitted
            && (early < wait ==> !Decide(limit, window, Remember(limit, window, attempts, now), now + early).admitted)
  {
    var active := Compacted(attempts, now - window);
    assert |active| == limit;
    var wait := Decide(limit, window, attempts, now).retryAfter;
    assert active[0] <= now + wait - window;
    assert FirstActive(active, now + wait - window, 0) >= 1;
    assert active[0] > now - window;
    assert early < wait ==> FirstActive(active, now + early - window, 0) == 0;
  }

  lemma StepAdmits(log: Log, limit: int, window: int, now: int, stale: nat)
    requires limit > 0 && window > 0 && stale <= |log.attempts| && |log.attempts| - stale < limit
    requires forall i :: 0 <= i < stale ==> log.attempts[i] <= now - window
    requires stale < |log.attempts| ==> log.attempts[stale] > now - window
    ensures Step(log, limit, window, now) == Log(log.attempts[stale..] + [now], log.history + [now])
  {
    assert FirstActive(log.attempts, now - window, 0) == stale;
  }

  // ---- readings taken before the lock may arrive out of order

  /** No reading is more than lag earlier than one that came before it. */
  ghost predicate LagsAtMost(readings: seq<int>, lag: int) {
    forall i, j :: 0 <= i < j < |readings| ==> readings[i] - readings[j] <= lag
  }

  ghost predicate Spaced(history: seq<int>, window: int) {
    forall i, j :: 0 <= i < j < |history| ==> history[j] - history[i] >= window
  }

  /** Admissions a window apart: no window holds two. */
  lemma {:induction false} SpacedIsWithinOne(history: seq<int>, window: int, to: int)
    requires window > 0 && Spaced(history, window)
    ensures Admitted(history, window, to) <= 1
  {
    if history != [] {
      var front := history[..|history| - 1];
      SpacedIsWithinOne(front, window, to);
      if to - window < history[|history| - 1] <= to {
        NoneAdmitted(front, window, to);
      }
    }
  }

  /** With a limit of one, the last admission is remembered and every admission is a window after the one before. */
  ghost predicate RemembersLast(log: Log, window: int) {
    && Spaced(log.history, window)
    && log.attempts == if log.history == [] then [] else [log.history[|log.history| - 1]]
  }

  lemma SingleStep(log: Log, window: int, now: int)
    requires window > 0 && RemembersLast(log, window)
    ensures RemembersLast(Step(log, 1, window, now), window)
  {
    if log.attempts != [] && log.attempts[0] > now - window {
      assert FirstActive(log.attempts, now - window, 0) == 0;
      assert log.attempts[0..] == log.attempts;
    } else {
      StepAdmits(log, 1, window, now, |log.attempts|);
      AllDropped(log.attempts, now);
      GrowSpaced(log.history, window, now);
    }
  }

  lemma {:induction false} SingleAdmissionsAreSpaced(window: int, readings: seq<int>)
    requires window > 0
    ensures RemembersLast(Run(1, window, readings), window)
  {
    if readings != [] {
      SingleAdmissionsAreSpaced(window, readings[..|readings| - 1]);
      SingleStep(Run(1, window, readings[..|readings| - 1]), window, readings[|readings| - 1]);
    }
  }

  lemma GrowSpaced(history: seq<int>, window: int, now: int)
    requires window > 0 && Spaced(history, window) && (history != [] ==> now - history[|history| - 1] >= window)
    ensures Spaced(history + [now], window)
  {
    var grown := history + [now];
    forall i, j | 0 <= i < j < |grown| ensures grown[j] - grown[i] >= window {
      assert i < |history| - 1 ==> history[|history| - 1] - history[i] >= window;
    }
  }

  function Zeros(n: nat): seq<int> {
    seq(n, _ => 0)
  }

  lemma {:induction false} ZerosAreAdmitted(limit: int, window: int, n: nat)
    requires window > 0 && n <= limit && limit > 0
    ensures Run(limit, window, Zeros(n)) == Log(Zeros(n), Zeros(n))
  {
    if n > 0 {
      ZerosAreAdmitted(limit, window, n - 1);
      RunSnoc(limit, window, Zeros(n - 1), 0);
      StepAdmits(Log(Zeros(n - 1), Zeros(n - 1)), limit, window, 0, 0);
      assert Zeros(n - 1) + [0] == Zeros(n) && Zeros(n - 1)[0..] == Zeros(n - 1);
    }
  }

  /** A full window, an admission that forgets it, and one that is a millisecond late. */
  function LateReadings(limit: nat, window: int): seq<int> {
    Zeros(limit) + [window] + [window - 1]
  }

  lemma NextIsAdmitted(limit: int, window: int, readings: seq<int>, log: Log, now: int, stale: nat, after: Log)
    requires limit > 0 && window > 0 && Run(limit, window, readings) == log
    requires stale <= |log.attempts| && |log.attempts| - stale < limit
    requires forall i :: 0 <= i < stale ==> log.attempts[i] <= now - window
    requires stale < |log.attempts| ==> log.attempts[stale] > now - window
    requires after == Log(log.attempts[stale..] + [now], log.history + [now])
    ensures Run(limit, window, readings + [now]) == after
  {
    RunSnoc(limit, window, readings, now);
    StepAdmits(log, limit, window, now, stale);
  }

  lemma AllDropped(attempts: seq<int>, now: int)
    ensures attempts[|attempts|..] + [now] == [now]
  {
  }

  lemma FullWindowIsForgotten(limit: nat, window: int, zeros: seq<int>, log: Log)
    requires limit >= 2 && window > 0 && |zeros| == limit && forall i :: 0 <= i < limit ==> zeros[i] == 0
    requires log == Log(zeros, zeros) && Run(limit, window, zeros) == log
    ensures Run(limit, window, zeros + [window]) == Log([window], zeros + [window])
  {
    AllDropped(zeros, window);
    NextIsAdmitted(limit, window, zeros, log, window, limit, Log([window], zeros + [window]));
  }

  lemma LateReadingIsAdmitted(limit: nat, window: int, earlier: seq<int>)
    requires limit >= 2 && window > 0 && Run(limit, window, earlier) == Log([window], earlier)
    ensures Run(limit, window, earlier + [window - 1]).history == earlier + [window - 1]
  {
    var log := Log([window], earlier);
    NextIsAdmitted(limit, window, earlier, log, window - 1, 0,
                   Log(log.attempts[0..] + [window - 1], earlier + [window - 1]));
  }

  lemma LateReadingsAreAdmitted(limit: nat, window: int)
    requires limit >= 2 && window > 0
    ensures Run(limit, window, LateReadings(limit, window)).history == LateReadings(limit, window)
  {
    ZerosAreAdmitted(limit, window, limit);
    FullWindowIsForgotten(limit, window, Zeros(limit), Log(Zeros(limit), Zeros(limit)));
    LateReadingIsAdmitted(limit, window, Zeros(limit) + [window]);
  }

  /** For every limit above one, a lag of a millisecond puts limit + 1 admissions in one window. */
  lemma LateReadingBreaksQuota(limit: nat, window: int)
    requires limit >= 2 && window > 0
    ensures LagsAtMost(LateReadings(limit, window), 1)
    ensures !WithinQuota(Run(limit, window, LateReadings(limit, window)).history, limit, window)
  {
    var zeros, to := Zeros(limit), window - 1;
    LateReadingsAreAdmitted(limit, window);
    AdmittedConcat(zeros + [window], [to], window, to);
    AdmittedConcat(zeros, [window], window, to);
    AllAdmitted(zeros, window, to);
    NoneAdmitted([window], window, to);
    AllAdmitted([to], window, to);
    assert Admitted(LateReadings(limit, window), window, to) == limit + 1;
  }

  lemma SmallLagKeepsQuota(limit: int, window: int, lag: nat, readings: seq<int>)
    requires limit > 0 && window > 0 && (lag == 0 || limit == 1) && LagsAtMost(readings, lag)
    ensures WithinQuota(Run(limit, window, readings).history, limit, window)
  {
    if limit == 1 {
      SingleAdmissionsAreSpaced(window, readings);
      forall to ensures Admitted(Run(limit, window, readings).history, window, to) <= limit {
        SpacedIsWithinOne(Run(limit, window, readings).history, window, to);
      }
    } else {
      assert NonDecreasing(readings);
      QuotaHolds(limit, window, readings);
    }
  }

  /** Every run whose readings lag by at most lag keeps the quota if and only if none lags or the limit is one. */
  lemma QuotaSurvivesLag(limit: int, window: int, lag: nat)
    requires limit > 0 && window > 0
    ensures lag == 0 || limit == 1 <==>
            forall readings :: LagsAtMost(readings, lag) ==>
                                 WithinQuota(Run(limit, window, readings).history, limit, window)
  {
    if lag == 0 || limit == 1 {
      forall readings | LagsAtMost(readings, lag)
        ensures WithinQuota(Run(limit, window, readings).history, limit, window)
      {
        SmallLagKeepsQuota(limit, window, lag, readings);
      }
    } else {
      LateReadingBreaksQuota(limit, window);
      assert LagsAtMost(LateReadings(limit, window), lag);
    }
  }

  /** A refusal leaves a list that would refuse again at the same instant. */
  lemma RefusalStays(limit: int, window: int, attempts: seq<int>, now: int)
    requires !Decide(limit, window, attempts, now).admitted
    ensures !Decide(limit, window, Remember(limit, window, attempts, now), now).admitted
  {
    var active := Compacted(attempts, now - window);
    assert FirstActive(active, now - window, 0) == 0;
  }
}
