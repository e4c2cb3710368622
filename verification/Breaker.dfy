/**
  The circuit breaker of the provider adapter, proved against its call history: whether
  a call is admitted depends only on the outcomes and probes reported before it.
  */
module Breaker {

  datatype BreakerState = Closed | Open | HalfOpen

  /** One call on the breaker; admissions carry the decision, failures the clock reading. */
  datatype Call = Admission(granted: bool) | Success | Failure(at: int)

  // ---- what the history says

  /** Failures reported since the last success. */
  function Failures(history: seq<Call>): nat {
    if history == [] then 0
    else match history[|history| - 1]
      case Success => 0
      case Failure(_) => Failures(history[..|history| - 1]) + 1
      case Admission(_) => Failures(history[..|history| - 1])
  }

  /** The latest failure since the last success. */
  function LatestFailure(history: seq<Call>): int {
    if history == [] then 0
    else match history[|history| - 1]
      case Success => 0
      case Failure(at) => at
      case Admission(_) => LatestFailure(history[..|history| - 1])
  }

  /** An admission was granted and no outcome has been reported since. */
  predicate ProbeOutstanding(history: seq<Call>) {
    history != [] &&
    match history[|history| - 1]
    case Admission(granted) => granted || ProbeOutstanding(history[..|history| - 1])
    case _ => false
  }

  predicate Tripped(history: seq<Call>, threshold: int) {
    Failures(history) >= threshold
  }

  /** The admission rule in terms of history alone. */
  predicate Admits(history: seq<Call>, threshold: int, openDuration: int, now: int) {
    !Tripped(history, threshold) || (!ProbeOutstanding(history) && now - LatestFailure(history) >= openDuration)
  }

  // ---- the breaker

  class CircuitBreaker {
    const threshold: int
    const openDuration: int
    var failures: int
    var openedAt: int
    var state: BreakerState
    ghost var history: seq<Call>

    /** The fields are a summary of the history. */
    ghost predicate Valid()
      reads this
    {
      && threshold >= 1
      && (state == Closed <==> !Tripped(history, threshold))
      && (state == Closed ==> failures == Failures(history))
      && (state != Closed ==> openedAt == LatestFailure(history) && failures >= threshold)
      && (state == Open ==> !ProbeOutstanding(history))
      && (state == HalfOpen ==> ProbeOutstanding(history))
    }

    constructor (threshold: int, openDuration: int)
      requires threshold >= 1
      ensures Valid() && history == [] && this.threshold == threshold && this.openDuration == openDuration
    {
      this.threshold, this.openDuration := threshold, openDuration;
      failures, openedAt, state, history := 0, 0, Closed, [];
    }

    method Allow(now: int) returns (granted: bool)
      requires Valid()
      modifies this
      ensures Valid() && history == old(history) + [Admission(granted)]
      ensures granted <==> Admits(old(history), threshold, openDuration, now)
    {
      if state == Open {
        if now - openedAt < openDuration {
          granted := false;
        } else {
          state := HalfOpen;
          granted := true;
        }
      } else {
        granted := state == Closed;
      }
      history := history + [Admission(granted)];
      assert history[..|history| - 1] == old(history);
    }

    method ReportSuccess()
      requires Valid()
      modifies this
      ensures Valid() && history == old(history) + [Success] && state == Closed
    {
      failures, state, openedAt := 0, Closed, 0;
      history := history + [Success];
    }

    method ReportFailure(now: int)
      requires Valid()
      modifies this
      ensures Valid() && history == old(history) + [Failure(now)]
      ensures state == Open <==> Tripped(history, threshold)
    {
      ghost var before := history;
      history := history + [Failure(now)];
      assert history[..|history| - 1] == before;
      if state == HalfOpen {
        state, openedAt := Open, now;
      } else {
        failures := failures + 1;
        if failures >= threshold {
          state, openedAt := Open, now;
        }
      }
    }
  }

  // ---- safety over every history

  /** A history the breaker can produce: each admission was decided by the rule at some instant. */
  ghost predicate Produced(history: seq<Call>, clocks: seq<int>, threshold: int, openDuration: int) {
    && |clocks| == |history|
    && forall i :: 0 <= i < |history| && history[i].Admission? ==>
         (history[i].granted <==> Admits(history[..i], threshold, openDuration, clocks[i]))
  }

  ghost predicate OnlyAdmissions(history: seq<Call>, from: nat, to: nat)
    requires from <= to <= |history|
  {
    forall i :: from <= i < to ==> history[i].Admission?
  }

  lemma {:induction false} QuietStretch(history: seq<Call>, from: nat, to: nat)
    requires from <= to <= |history| && OnlyAdmissions(history, from, to)
    ensures Failures(history[..to]) == Failures(history[..from])
    ensures LatestFailure(history[..to]) == LatestFailure(history[..from])
    ensures ProbeOutstanding(history[..to]) <==>
            ProbeOutstanding(history[..from]) || exists i :: from <= i < to && history[i] == Admission(true)
  {
    if from < to {
      QuietStretch(history, from, to - 1);
      assert history[..to][..to - 1] == history[..to - 1];
    }
  }

  /** The failures reported from an index on. */
  function FailuresFrom(history: seq<Call>, from: nat): nat
    requires from <= |history|
    decreases |history| - from
  {
    if from == |history| then 0
    else FailuresFrom(history, from + 1) + if history[from].Failure? then 1 else 0
  }

  ghost predicate NoSuccess(history: seq<Call>, from: nat) {
    forall i :: from <= i < |history| ==> history[i] != Success
  }

  lemma {:induction false} FailuresAppend(history: seq<Call>, from: nat)
    requires from < |history|
    ensures FailuresFrom(history, from) ==
            FailuresFrom(history[..|history| - 1], from) + if history[|history| - 1].Failure? then 1 else 0
    decreases |history| - from
  {
    var front := history[..|history| - 1];
    if from < |front| {
      FailuresAppend(history, from + 1);
      assert front[from] == history[from];
    } else {
      assert FailuresFrom(history, from + 1) == 0;
    }
  }

  /**
    The count is that of the failures after the last success, or of all failures; and while
    there are any, the latest one is followed by admissions alone.
    */
  lemma {:induction false} FailuresAreSinceSuccess(history: seq<Call>) returns (since: nat, k: nat)
    ensures since <= |history| && NoSuccess(history, since) && (since == 0 || history[since - 1] == Success)
    ensures Failures(history) == FailuresFrom(history, since)
    ensures Failures(history) > 0 ==>
              && since <= k < |history| && history[k] == Failure(LatestFailure(history))
              && OnlyAdmissions(history, k + 1, |history|)
  {
    if history == [] {
      since, k := 0, 0;
    } else if history[|history| - 1] == Success {
      since, k := |history|, 0;
    } else {
      var front := history[..|history| - 1];
      since, k := FailuresAreSinceSuccess(front);
      FailuresAppend(history, since);
      assert forall i :: 0 <= i < |front| ==> front[i] == history[i];
      if history[|history| - 1].Failure? { k := |front|; }
    }
  }

  /** Whoever made the calls: a probe is outstanding exactly when a grant comes after the last outcome of any call. */
  lemma OutstandingIsExact(history: seq<Call>)
    ensures ProbeOutstanding(history) <==>
            exists k :: 0 <= k < |history| && history[k] == Admission(true) && OnlyAdmissions(history, k, |history|)
  {
    assert history[..|history|] == history;
    if ProbeOutstanding(history) {
      var k := LastGrant(history);
    }
    forall k | 0 <= k < |history| && history[k] == Admission(true) && OnlyAdmissions(history, k, |history|)
      ensures ProbeOutstanding(history)
    {
      QuietStretch(history, k, |history|);
    }
  }

  lemma {:induction false} LastGrant(history: seq<Call>) returns (k: nat)
    requires ProbeOutstanding(history)
    ensures k < |history| && history[k] == Admission(true) && OnlyAdmissions(history, k, |history|)
  {
    k := |history| - 1;
    if !history[k].granted {
      k := LastGrant(history[..k]);
    }
  }

  /** After a trip and until an outcome is reported, at most one probe gets through, and not early. */
  lemma OneProbePerOpenPeriod(history: seq<Call>, clocks: seq<int>, threshold: int, openDuration: int, trip: nat,
                              i: nat)
    requires Produced(history, clocks, threshold, openDuration)
    requires trip <= i < |history| && OnlyAdmissions(history, trip, i) && history[i] == Admission(true)
    requires Tripped(history[..trip], threshold)
    ensures clocks[i] - LatestFailure(history[..trip]) >= openDuration
    ensures !ProbeOutstanding(history[..trip])
    ensures forall j :: trip <= j < i ==> history[j] == Admission(false)
  {
    QuietStretch(history, trip, i);
    assert Admits(history[..i], threshold, openDuration, clocks[i]);
    forall j | trip <= j < i ensures history[j] == Admission(false) {
      assert history[j].Admission?;
    }
  }

  /**
    A probe whose outcome is never reported closes the breaker for good: as long as no
    outcome follows it, every later call is refused, whatever the time.
    */
  lemma LostProbeRefusesForever(history: seq<Call>, clocks: seq<int>, threshold: int, openDuration: int, probe: nat,
                                i: nat)
    requires Produced(history, clocks, threshold, openDuration)
    requires probe < i < |history| && history[probe] == Admission(true) && Tripped(history[..probe], threshold)
    requires OnlyAdmissions(history, probe, i + 1)
    ensures history[i] == Admission(false)
  {
    QuietStretch(history, probe, i);
    assert !Admits(history[..i], threshold, openDuration, clocks[i]);
    assert history[i].Admission?;
  }

  /**
    A reported outcome reopens the breaker: at once after a success, and after a failure unless it
    trips and is recent.
    */
  lemma OutcomeReopens(history: seq<Call>, threshold: int, openDuration: int, at: int, now: int)
    requires threshold >= 1
    ensures Admits(history + [Success], threshold, openDuration, now)
    ensures Admits(history + [Failure(at)], threshold, openDuration, now) <==>
            Failures(history) + 1 < threshold || now - at >= openDuration
  {
    assert (history + [Failure(at)])[..|history|] == history;
  }

  /** The call before i that last reported an outcome. */
  ghost predicate LastOutcome(history: seq<Call>, i: nat, k: nat) {
    k < i <= |history| && !history[k].Admission? && OnlyAdmissions(history, k + 1, i)
  }

  lemma {:induction false} FindLastOutcome(history: seq<Call>, from: nat, i: nat) returns (k: nat)
    requires from <= i <= |history| && !OnlyAdmissions(history, from, i)
    ensures from <= k && LastOutcome(history, i, k)
  {
    if !history[i - 1].Admission? {
      k := i - 1;
    } else {
      k := FindLastOutcome(history, from, i - 1);
    }
  }

  /**
    The last outcome before i lets the call through: it left the breaker untripped, or its failure
    is old and unprobed.
    */
  ghost predicate Reopened(history: seq<Call>, threshold: int, openDuration: int, i: nat, now: int, k: nat) {
    && LastOutcome(history, i, k)
    && (|| !Tripped(history[..k + 1], threshold)
        || (&& history[k].Failure? && now - history[k].at >= openDuration
            && forall j :: k < j < i ==> history[j] == Admission(false)))
  }

  lemma DecidedByLastOutcome(history: seq<Call>, threshold: int, openDuration: int, i: nat, now: int, k: nat)
    requires threshold >= 1 && LastOutcome(history, i, k)
    ensures Admits(history[..i], threshold, openDuration, now) <==>
            Reopened(history, threshold, openDuration, i, now, k)
  {
    QuietStretch(history, k + 1, i);
    var upTo := history[..k + 1];
    assert upTo[|upTo| - 1] == history[k];
    assert !ProbeOutstanding(upTo);
    forall j | k < j < i ensures history[j] == Admission(true) || history[j] == Admission(false) {
      assert history[j].Admission?;
    }
  }

  /**
    After a probe of a tripped breaker, a later call is granted if and only if an outcome was
    reported since and the last one lets it through.
    */
  lemma GrantIsExact(history: seq<Call>, clocks: seq<int>, threshold: int, openDuration: int, probe: nat, i: nat)
    requires threshold >= 1 && Produced(history, clocks, threshold, openDuration)
    requires probe < i < |history| && history[probe] == Admission(true) && Tripped(history[..probe], threshold)
    requires history[i].Admission?
    ensures history[i].granted <==>
            exists k :: probe < k && Reopened(history, threshold, openDuration, i, clocks[i], k)
  {
    if OnlyAdmissions(history, probe, i) {
      LostProbeRefusesForever(history, clocks, threshold, openDuration, probe, i);
      forall k | probe < k ensures !Reopened(history, threshold, openDuration, i, clocks[i], k) {
      }
    } else {
      var k := FindLastOutcome(history, probe + 1, i);
      DecidedByLastOutcome(history, threshold, openDuration, i, clocks[i], k);
      forall other | Reopened(history, threshold, openDuration, i, clocks[i], other) ensures other == k {
        OneLastOutcome(history, i, k, other);
      }
    }
  }

  lemma OneLastOutcome(history: seq<Call>, i: nat, a: nat, b: nat)
    requires LastOutcome(history, i, a) && LastOutcome(history, i, b)
    ensures a == b
  {
  }
}
