/**
  The search store: one record per search with a numbered event log. The in-memory form
  keeps records, the Redis form keeps four keys driven by atomic scripts; both are proved
  against per-search transition functions, and the functions against each other.

  Times and lifetimes are milliseconds; the current time is a parameter.
  */
module SearchStore {
  import opened Domain

  datatype Status = SearchAccepted | Searching | Completed | Degraded | Failed | Cancelled

  predicate Terminal(status: Status) {
    status == Completed || status == Degraded || status == Failed || status == Cancelled
  }

  /** body stands for the routes and warnings of the result. */
  datatype Result = Result(searchId: string, status: Status, generatedAt: int, body: string)

  datatype Event = Event(eventId: int, content: string)

  datatype Outcome = Done | NotFound | AlreadyExists

  /** An operation on one search. */
  datatype Op =
    | Create(result: Result)
    | Update(result: Result)
    | Delete
    | Append(content: string)
    | Finalize(result: Result, content: string)

  const MAXIMUM_REPLAY_BATCH: int := 128

  // ---- in-memory record

  datatype Record = Record(result: Result, events: seq<Event>, expiresAt: int, nextEvent: int)

  type Slot = Option<Record>

  predicate Live(slot: Slot, now: int) {
    slot.Some? && !(now > slot.value.expiresAt)
  }

  function Logged(record: Record, content: string): Record {
    record.(nextEvent := record.nextEvent + 1, events := record.events + [Event(record.nextEvent + 1, content)])
  }

  /** The record of one search after an operation at time now. */
  function After(slot: Slot, op: Op, ttl: int, now: int): Slot {
    match op
    case Create(result) => if Live(slot, now) then slot else Some(Record(result, [], now + ttl, 0))
    case Delete => None
    case Update(result) =>
      if !Live(slot, now) then slot else Some(slot.value.(result := result, expiresAt := now + ttl))
    case Append(content) =>
      if !Live(slot, now) then slot else Some(Logged(slot.value, content).(expiresAt := now + ttl))
    case Finalize(result, content) =>
      if !Live(slot, now) || Terminal(slot.value.result.status) then slot
      else Some(Logged(slot.value, content).(result := result, expiresAt := now + ttl))
  }

  function OutcomeOf(slot: Slot, op: Op, now: int): Outcome {
    match op
    case Create(_) => if Live(slot, now) then AlreadyExists else Done
    case Delete => if slot.Some? then Done else NotFound
    case _ => if Live(slot, now) then Done else NotFound
  }

  function At<V>(m: map<string, V>, id: string): Option<V> {
    if id in m then Some(m[id]) else None
  }

  class Memory {
    var records: map<string, Record>

    constructor ()
      ensures records == map[]
    {
      records := map[];
    }

    /** Creating first purges every expired record. */
    method Create(result: Result, ttl: int, now: int) returns (outcome: Outcome)
      modifies this
      ensures outcome == OutcomeOf(At(old(records), result.searchId), Op.Create(result), now)
      ensures At(records, result.searchId) == After(At(old(records), result.searchId), Op.Create(result), ttl, now)
      ensures forall id :: id != result.searchId ==>
                             At(records, id) == if Live(At(old(records), id), now) then At(old(records), id) else None
    {
      records := map id | id in records && !(now > records[id].expiresAt) :: records[id];
      if result.searchId in records {
        return AlreadyExists;
      }
      records := records[result.searchId := Record(result, [], now + ttl, 0)];
      return Done;
    }

    method Update(result: Result, ttl: int, now: int) returns (outcome: Outcome)
      modifies this
      ensures outcome == OutcomeOf(At(old(records), result.searchId), Op.Update(result), now)
      ensures At(records, result.searchId) == After(At(old(records), result.searchId), Op.Update(result), ttl, now)
      ensures forall id :: id != result.searchId ==> At(records, id) == At(old(records), id)
    {
      if result.searchId !in records || now > records[result.searchId].expiresAt {
        return NotFound;
      }
      records := records[result.searchId := records[result.searchId].(result := result, expiresAt := now + ttl)];
      return Done;
    }

    method Delete(id: string, now: int) returns (outcome: Outcome)
      modifies this
      ensures outcome == OutcomeOf(At(old(records), id), Op.Delete, now)
      ensures At(records, id) == None
      ensures forall other :: other != id ==> At(records, other) == At(old(records), other)
    {
      if id !in records {
        return NotFound;
      }
      records := records - {id};
      return Done;
    }

    method AppendEvent(id: string, content: string, ttl: int, now: int) returns (outcome: Outcome, event: Event)
      modifies this
      ensures outcome == OutcomeOf(At(old(records), id), Append(content), now)
      ensures At(records, id) == After(At(old(records), id), Append(content), ttl, now)
      ensures outcome == Done ==> id in records && records[id].events == old(records)[id].events + [event]
      ensures forall other :: other != id ==> At(records, other) == At(old(records), other)
    {
      event := Event(0, content);
      if id !in records || now > records[id].expiresAt {
        return NotFound, event;
      }
      var record := records[id];
      record := record.(nextEvent := record.nextEvent + 1);
      event := Event(record.nextEvent, content);
      record := record.(events := record.events + [event], expiresAt := now + ttl);
      records := records[id := record];
      return Done, event;
    }

    method Finalize(result: Result, content: string, ttl: int, now: int) returns (outcome: Outcome)
      modifies this
      ensures outcome == OutcomeOf(At(old(records), result.searchId), Op.Finalize(result, content), now)
      ensures At(records, result.searchId) ==
              After(At(old(records), result.searchId), Op.Finalize(result, content), ttl, now)
      ensures forall id :: id != result.searchId ==> At(records, id) == At(old(records), id)
    {
      var id := result.searchId;
      if id !in records || now > records[id].expiresAt {
        return NotFound;
      }
      var record := records[id];
      if Terminal(record.result.status) {
        return Done;
      }
      record := record.(nextEvent := record.nextEvent + 1);
      record := record.(events := record.events + [Event(record.nextEvent, content)], result := result,
                        expiresAt := now + ttl);
      records := records[id := record];
      return Done;
    }

    method EventsAfter(id: string, after: int, now: int) returns (result: Option<seq<Event>>)
      ensures result == if Live(At(records, id), now) then Some(Replay(records[id].events, after)) else None
    {
      if id !in records || now > records[id].expiresAt {
        return None;
      }
      var events := records[id].events;
      var from := if after < 0 then 0 else after;
      if from >= |events| {
        return Some([]);
      }
      var end := Min(|events|, from + MAXIMUM_REPLAY_BATCH);
      var batch := [];
      for i := from to end
        invariant batch == events[from..i]
      {
        batch := batch + [events[i]];
      }
      return Some(batch);
    }
  }

  /** The index slice EventsAfter returns. */
  function Replay(events: seq<Event>, after: int): seq<Event> {
    var from := Max(0, after);
    if from >= |events| then [] else events[from..Min(|events|, from + MAXIMUM_REPLAY_BATCH)]
  }

  // ---- the log in every reachable state

  datatype Timed = Timed(op: Op, ttl: int, now: int)

  function Run(slot: Slot, ops: seq<Timed>): Slot {
    if ops == [] then slot
    else
      var last := ops[|ops| - 1];
      After(Run(slot, ops[..|ops| - 1]), last.op, last.ttl, last.now)
  }

  ghost predicate Contiguous(events: seq<Event>) {
    forall i :: 0 <= i < |events| ==> events[i].eventId == i + 1
  }

  ghost predicate Numbered(slot: Slot) {
    slot.Some? ==> slot.value.nextEvent == |slot.value.events| && Contiguous(slot.value.events)
  }

  /** Event ids are exactly 1..n in log order in every reachable state. */
  lemma {:induction false} ReachableLogsAreNumbered(ops: seq<Timed>)
    ensures Numbered(Run(None, ops))
  {
    if ops != [] {
      ReachableLogsAreNumbered(ops[..|ops| - 1]);
    }
  }

  /** The events above the cursor, in log order. */
  function Above(events: seq<Event>, cursor: int): seq<Event> {
    if events == [] then []
    else Above(events[..|events| - 1], cursor)
         + if events[|events| - 1].eventId > cursor then [events[|events| - 1]] else []
  }

  lemma SuffixStep(events: seq<Event>, k: nat)
    requires events != []
    ensures var front := events[..|events| - 1];
            events[Min(|events|, k)..] == front[Min(|front|, k)..] + if k < |events| then [events[|events| - 1]] else []
  {
  }

  lemma {:induction false} AboveIsSuffix(events: seq<Event>, cursor: int)
    requires Contiguous(events)
    ensures Above(events, cursor) == events[Min(|events|, Max(0, cursor))..]
  {
    if events != [] {
      var front := events[..|events| - 1];
      assert Contiguous(front);
      AboveIsSuffix(front, cursor);
      assert events[|events| - 1].eventId == |events|;
      SuffixStep(events, Max(0, cursor));
    }
  }

  function FirstBatch(events: seq<Event>): seq<Event> {
    if |events| > MAXIMUM_REPLAY_BATCH then events[..MAXIMUM_REPLAY_BATCH] else events
  }

  /** The index slice is exactly the first 128 events with an id above the cursor. */
  lemma ReplayIsFirstBatchAbove(events: seq<Event>, cursor: int)
    requires Contiguous(events)
    ensures Replay(events, cursor) == FirstBatch(Above(events, cursor))
  {
    AboveIsSuffix(events, cursor);
  }

  // ---- finalization

  /** Operations of one record generation: nothing creates or deletes it. */
  ghost predicate OneGeneration(ops: seq<Timed>) {
    forall i :: 0 <= i < |ops| ==> !ops[i].op.Create? && !ops[i].op.Delete?
  }

  /** Every caller of Finalize passes a terminal result. */
  ghost predicate FinalizesTerminal(ops: seq<Timed>) {
    forall i :: 0 <= i < |ops| && ops[i].op.Finalize? ==> Terminal(ops[i].op.result.status)
  }

  predicate TakesEffect(slot: Slot, step: Timed) {
    Live(slot, step.now) && (step.op.Finalize? ==> !Terminal(slot.value.result.status))
  }

  /** How many Finalize calls changed the record. */
  function EffectiveFinalizes(slot: Slot, ops: seq<Timed>): nat {
    if ops == [] then 0
    else
      var front, last := ops[..|ops| - 1], ops[|ops| - 1];
      EffectiveFinalizes(slot, front) + if last.op.Finalize? && TakesEffect(Run(slot, front), last) then 1 else 0
  }

  /** No Update comes after a Finalize that took effect. */
  ghost predicate NoLateUpdate(slot: Slot, ops: seq<Timed>) {
    forall i :: 0 <= i < |ops| && ops[i].op.Update? ==> EffectiveFinalizes(slot, ops[..i]) == 0
  }

  /** What one operation writes to the log. */
  function Entry(slot: Slot, step: Timed): seq<string> {
    if (step.op.Append? || step.op.Finalize?) && TakesEffect(slot, step) then [step.op.content] else []
  }

  /** What effective operations wrote to the log. */
  function Written(slot: Slot, ops: seq<Timed>): seq<string> {
    if ops == [] then []
    else
      var front, last := ops[..|ops| - 1], ops[|ops| - 1];
      Written(slot, front) + Entry(Run(slot, front), last)
  }

  function Contents(events: seq<Event>): (r: seq<string>)
    ensures |r| == |events|
  {
    if events == [] then [] else Contents(events[..|events| - 1]) + [events[|events| - 1].content]
  }

  lemma PrefixConditions(slot: Slot, ops: seq<Timed>)
    requires ops != []
    ensures OneGeneration(ops) ==> OneGeneration(ops[..|ops| - 1])
    ensures FinalizesTerminal(ops) ==> FinalizesTerminal(ops[..|ops| - 1])
    ensures NoLateUpdate(slot, ops) ==> NoLateUpdate(slot, ops[..|ops| - 1])
  {
    var front := ops[..|ops| - 1];
    assert forall i :: 0 <= i < |front| ==> front[i] == ops[i] && front[..i] == ops[..i];
  }

  /** After an effective Finalize the record is terminal; before, none took effect. */
  lemma {:induction false} FinalizeDecides(slot: Slot, ops: seq<Timed>)
    requires slot.Some? && OneGeneration(ops) && FinalizesTerminal(ops) && NoLateUpdate(slot, ops)
    ensures Run(slot, ops).Some?
    ensures EffectiveFinalizes(slot, ops) <= 1
    ensures EffectiveFinalizes(slot, ops) == 1 ==> Terminal(Run(slot, ops).value.result.status)
  {
    if ops != [] {
      PrefixConditions(slot, ops);
      FinalizeDecides(slot, ops[..|ops| - 1]);
    }
  }

  /**
    In every run of one generation without a late Update, once a Finalize has taken effect
    after i operations the result never changes again, and exactly one Finalize wrote an
    event, whatever other finalizations race with it.
    */
  lemma {:induction false} FinalizedResultIsFixed(slot: Slot, ops: seq<Timed>, i: nat)
    requires slot.Some? && OneGeneration(ops) && FinalizesTerminal(ops) && NoLateUpdate(slot, ops)
    requires i <= |ops| && EffectiveFinalizes(slot, ops[..i]) == 1
    ensures Run(slot, ops[..i]).Some? && Run(slot, ops).Some?
    ensures Run(slot, ops).value.result == Run(slot, ops[..i]).value.result
    ensures EffectiveFinalizes(slot, ops) == 1
  {
    if i == |ops| {
      assert ops[..i] == ops;
      FinalizeDecides(slot, ops);
    } else {
      var front := ops[..|ops| - 1];
      assert front[..i] == ops[..i];
      PrefixConditions(slot, ops);
      FinalizedResultIsFixed(slot, front, i);
      FinalizeDecides(slot, front);
      assert ops[..|ops| - 1] == front;
    }
  }

  lemma LogStep(slot: Slot, step: Timed)
    requires slot.Some? && !step.op.Create? && !step.op.Delete?
    ensures var after := After(slot, step.op, step.ttl, step.now);
            && after.Some? && slot.value.events <= after.value.events
            && Contents(after.value.events) == Contents(slot.value.events) + Entry(slot, step)
  {
    if (step.op.Append? || step.op.Finalize?) && TakesEffect(slot, step) {
      var grown := Logged(slot.value, step.op.content).events;
      assert grown[..|grown| - 1] == slot.value.events;
    }
  }

  /** The log only grows, by exactly what effective operations wrote. */
  lemma {:induction false} LogIsWritten(slot: Slot, ops: seq<Timed>)
    requires slot.Some? && OneGeneration(ops)
    ensures Run(slot, ops).Some?
    ensures slot.value.events <= Run(slot, ops).value.events
    ensures Contents(Run(slot, ops).value.events) == Contents(slot.value.events) + Written(slot, ops)
  {
    if ops != [] {
      var front, last := ops[..|ops| - 1], ops[|ops| - 1];
      assert OneGeneration(front) && !last.op.Create? && !last.op.Delete?;
      LogIsWritten(slot, front);
      var before, after := Run(slot, front), Run(slot, ops);
      assert after == After(before, last.op, last.ttl, last.now);
      LogStep(before, last);
      assert Written(slot, ops) == Written(slot, front) + Entry(before, last);
      calc {
        Contents(after.value.events);
        Contents(before.value.events) + Entry(before, last);
        Contents(slot.value.events) + Written(slot, front) + Entry(before, last);
        Contents(slot.value.events) + (Written(slot, front) + Entry(before, last));
      }
    }
  }

  /** The result the last effective Update or Finalize wrote. */
  function LastResult(slot: Slot, ops: seq<Timed>): Option<Result> {
    if ops == [] then None
    else
      var front, last := ops[..|ops| - 1], ops[|ops| - 1];
      if (last.op.Update? || last.op.Finalize?) && TakesEffect(Run(slot, front), last) then Some(last.op.result)
      else LastResult(slot, front)
  }

  /** The end of the lifetime the last effective operation gave the record. */
  function LastLifetime(slot: Slot, ops: seq<Timed>): Option<int> {
    if ops == [] then None
    else
      var front, last := ops[..|ops| - 1], ops[|ops| - 1];
      if TakesEffect(Run(slot, front), last) then Some(last.now + last.ttl) else LastLifetime(slot, front)
  }

  /**
    A record holds the result written last and lives until the end of the lifetime given
    last; an operation on an elapsed record, or a Finalize of a finished one, gives neither.
    */
  lemma {:induction false} RecordIsLastWritten(slot: Slot, ops: seq<Timed>)
    requires slot.Some? && OneGeneration(ops)
    ensures var r, result, lifetime := Run(slot, ops), LastResult(slot, ops), LastLifetime(slot, ops);
            && r.Some? && r.value.result == (if result.Some? then result.value else slot.value.result)
            && r.value.expiresAt == if lifetime.Some? then lifetime.value else slot.value.expiresAt
  {
    if ops != [] {
      var front, last := ops[..|ops| - 1], ops[|ops| - 1];
      assert forall i :: 0 <= i < |front| ==> front[i] == ops[i];
      assert !last.op.Create? && !last.op.Delete?;
      RecordIsLastWritten(slot, front);
    }
  }

  /** A late Update reopens a finished search: a second Finalize then takes effect. */
  lemma LateUpdateReopens(record: Record, finished: Result, reopened: Result, content: string, ttl: int, now: int)
    requires !Terminal(record.result.status) && Terminal(finished.status) && !Terminal(reopened.status)
    requires now <= record.expiresAt && ttl >= 0
    ensures var f, u := Timed(Finalize(finished, content), ttl, now), Timed(Update(reopened), ttl, now);
            EffectiveFinalizes(Some(record), [f, u, f]) == 2
  {
    var f, u := Timed(Finalize(finished, content), ttl, now), Timed(Update(reopened), ttl, now);
    assert [f, u, f][..2] == [f, u] && [f, u][..1] == [f] && [f][..0] == [];
    assert Run(Some(record), []) == Some(record);
    var first := Run(Some(record), [f]);
    assert Live(first, now) && Terminal(first.value.result.status);
    var second := Run(Some(record), [f, u]);
    assert second == After(first, u.op, ttl, now);
    assert Live(second, now) && !Terminal(second.value.result.status);
    assert EffectiveFinalizes(Some(record), [f]) == 1;
    assert EffectiveFinalizes(Some(record), [f, u]) == 1;
  }

  // ---- exactly when a finished result stays

  lemma {:induction false} RecordStays(slot: Slot, ops: seq<Timed>, k: nat)
    requires slot.Some? && OneGeneration(ops) && k <= |ops|
    ensures Run(slot, ops[..k]).Some?
  {
    if k > 0 {
      RecordStays(slot, ops, k - 1);
      PrefixRun(slot, ops, k - 1);
    }
  }

  lemma PrefixRun(slot: Slot, ops: seq<Timed>, k: nat)
    requires k < |ops|
    ensures Run(slot, ops[..k + 1]) == After(Run(slot, ops[..k]), ops[k].op, ops[k].ttl, ops[k].now)
    ensures EffectiveFinalizes(slot, ops[..k + 1]) ==
            EffectiveFinalizes(slot, ops[..k]) + if FinalizesAt(slot, ops, k) then 1 else 0
  {
    assert ops[..k + 1][..k] == ops[..k];
  }

  /** A Finalize takes effect at k. */
  predicate FinalizesAt(slot: Slot, ops: seq<Timed>, k: nat)
    requires k < |ops|
  {
    ops[k].op.Finalize? && TakesEffect(Run(slot, ops[..k]), ops[k])
  }

  /** An Update at k finds the record live. */
  predicate UpdatesAt(slot: Slot, ops: seq<Timed>, k: nat)
    requires k < |ops|
  {
    ops[k].op.Update? && Live(Run(slot, ops[..k]), ops[k].now)
  }

  /** The result after k operations. */
  function ResultAt(slot: Slot, ops: seq<Timed>, k: nat): Option<Result>
    requires k <= |ops|
  {
    var now := Run(slot, ops[..k]);
    if now.None? then None else Some(now.value.result)
  }

  predicate TerminalAt(slot: Slot, ops: seq<Timed>, k: nat)
    requires k <= |ops|
  {
    ResultAt(slot, ops, k).Some? && Terminal(ResultAt(slot, ops, k).value.status)
  }

  lemma {:induction false} UntouchedResultStays(slot: Slot, ops: seq<Timed>, i: nat, j: nat)
    requires slot.Some? && OneGeneration(ops) && i <= j <= |ops| && TerminalAt(slot, ops, i)
    requires forall k :: i <= k < j && UpdatesAt(slot, ops, k) ==> Some(ops[k].op.result) == ResultAt(slot, ops, i)
    ensures ResultAt(slot, ops, j) == ResultAt(slot, ops, i)
  {
    if i < j {
      UntouchedResultStays(slot, ops, i, j - 1);
      PrefixRun(slot, ops, j - 1);
      RecordStays(slot, ops, j - 1);
    }
  }

  /**
    In one generation, a terminal result stays for the rest of the run if and only if no
    Update finds the record live and writes another one.
    */
  lemma ResultStaysIsExact(slot: Slot, ops: seq<Timed>, i: nat)
    requires slot.Some? && OneGeneration(ops) && i <= |ops| && TerminalAt(slot, ops, i)
    ensures (forall j :: i <= j <= |ops| ==> ResultAt(slot, ops, j) == ResultAt(slot, ops, i)) <==>
            (forall k :: i <= k < |ops| && UpdatesAt(slot, ops, k) ==> Some(ops[k].op.result) == ResultAt(slot, ops, i))
  {
    if forall k :: i <= k < |ops| && UpdatesAt(slot, ops, k) ==> Some(ops[k].op.result) == ResultAt(slot, ops, i) {
      forall j | i <= j <= |ops| ensures ResultAt(slot, ops, j) == ResultAt(slot, ops, i) {
        UntouchedResultStays(slot, ops, i, j);
      }
    } else {
      var k :| i <= k < |ops| && UpdatesAt(slot, ops, k) && Some(ops[k].op.result) != ResultAt(slot, ops, i);
      PrefixRun(slot, ops, k);
      assert ResultAt(slot, ops, k + 1) == Some(ops[k].op.result);
    }
  }

  /** A live Update at u writes an unfinished status, and no live Update between u and f writes a terminal one. */
  ghost predicate ReopenedFrom(slot: Slot, ops: seq<Timed>, u: nat, f: nat)
    requires u < f <= |ops|
  {
    && UpdatesAt(slot, ops, u) && !Terminal(ops[u].op.result.status)
    && forall k :: u < k < f && UpdatesAt(slot, ops, k) ==> !Terminal(ops[k].op.result.status)
  }

  lemma {:induction false} CountRises(slot: Slot, ops: seq<Timed>, i: nat, j: nat)
    requires i <= j <= |ops|
    ensures EffectiveFinalizes(slot, ops[..i]) <= EffectiveFinalizes(slot, ops[..j])
  {
    if i < j {
      CountRises(slot, ops, i, j - 1);
      PrefixRun(slot, ops, j - 1);
    }
  }

  /** After a reopening the record is unfinished until a Finalize takes effect. */
  lemma {:induction false} StaysReopened(slot: Slot, ops: seq<Timed>, u: nat, k: nat)
    requires slot.Some? && OneGeneration(ops) && u < k <= |ops| && ReopenedFrom(slot, ops, u, k)
    ensures EffectiveFinalizes(slot, ops[..k]) > EffectiveFinalizes(slot, ops[..u]) || !TerminalAt(slot, ops, k)
  {
    var n := k - 1;
    PrefixRun(slot, ops, n);
    RecordStays(slot, ops, n);
    CountRises(slot, ops, u, n);
    if u < n {
      assert ReopenedFrom(slot, ops, u, n);
      StaysReopened(slot, ops, u, n);
    }
    if !FinalizesAt(slot, ops, n) && EffectiveFinalizes(slot, ops[..n]) == EffectiveFinalizes(slot, ops[..u]) {
      assert UpdatesAt(slot, ops, n) ==> !Terminal(ops[n].op.result.status);
      StatusComesFrom(Run(slot, ops[..n]), ops[n]);
    }
  }

  lemma {:induction false} FirstLaterFinalize(slot: Slot, ops: seq<Timed>, i: nat, end: nat) returns (f: nat)
    requires i <= end <= |ops| && EffectiveFinalizes(slot, ops[..end]) > EffectiveFinalizes(slot, ops[..i])
    ensures i <= f < end && FinalizesAt(slot, ops, f)
    ensures EffectiveFinalizes(slot, ops[..f]) == EffectiveFinalizes(slot, ops[..i])
  {
    PrefixRun(slot, ops, end - 1);
    if EffectiveFinalizes(slot, ops[..end - 1]) > EffectiveFinalizes(slot, ops[..i]) {
      f := FirstLaterFinalize(slot, ops, i, end - 1);
    } else {
      f := end - 1;
      CountRises(slot, ops, i, f);
    }
  }

  /** Without a Finalize in between, only a live Update can have made a terminal record unfinished. */
  lemma {:induction false} ReopeningUpdate(slot: Slot, ops: seq<Timed>, i: nat, f: nat) returns (u: nat)
    requires slot.Some? && OneGeneration(ops) && i <= f <= |ops| && TerminalAt(slot, ops, i)
    requires !TerminalAt(slot, ops, f)
    requires EffectiveFinalizes(slot, ops[..f]) == EffectiveFinalizes(slot, ops[..i])
    ensures i <= u < f && ReopenedFrom(slot, ops, u, f)
  {
    var n := f - 1;
    PrefixRun(slot, ops, n);
    RecordStays(slot, ops, n);
    CountRises(slot, ops, i, n);
    assert !FinalizesAt(slot, ops, n);
    StatusComesFrom(Run(slot, ops[..n]), ops[n]);
    if UpdatesAt(slot, ops, n) {
      u := n;
    } else {
      u := ReopeningUpdate(slot, ops, i, n);
    }
  }

  /** Unless a Finalize takes effect, the status after an operation is a live Update's or the one before. */
  lemma StatusComesFrom(slot: Slot, step: Timed)
    requires slot.Some? && !step.op.Create? && !step.op.Delete? && !(step.op.Finalize? && TakesEffect(slot, step))
    ensures var after := After(slot, step.op, step.ttl, step.now);
            && after.Some?
            && after.value.result ==
               if step.op.Update? && Live(slot, step.now) then step.op.result else slot.value.result
  {
  }

  /** A second Finalize: reopened at u, finalized live at f, with no terminal Update between. */
  ghost predicate SecondFinalize(slot: Slot, ops: seq<Timed>, i: nat, u: nat, f: nat) {
    && i <= u < f < |ops| && ReopenedFrom(slot, ops, u, f)
    && ops[f].op.Finalize? && Live(Run(slot, ops[..f]), ops[f].now)
  }

  /**
    Once the record is terminal, a further Finalize takes effect if and only if a live Update
    writes an unfinished status and a live Finalize follows before a terminal Update does.
    */
  lemma {:induction false} SecondFinalizeIsExact(slot: Slot, ops: seq<Timed>, i: nat)
    requires slot.Some? && OneGeneration(ops) && i <= |ops| && TerminalAt(slot, ops, i)
    ensures EffectiveFinalizes(slot, ops) > EffectiveFinalizes(slot, ops[..i]) <==>
            exists u: nat, f: nat :: SecondFinalize(slot, ops, i, u, f)
  {
    assert ops[..|ops|] == ops;
    if EffectiveFinalizes(slot, ops) > EffectiveFinalizes(slot, ops[..i]) {
      var f := FirstLaterFinalize(slot, ops, i, |ops|);
      var u := ReopeningUpdate(slot, ops, i, f);
      assert SecondFinalize(slot, ops, i, u, f);
    }
    forall u: nat, f: nat | SecondFinalize(slot, ops, i, u, f)
      ensures EffectiveFinalizes(slot, ops) > EffectiveFinalizes(slot, ops[..i])
    {
      SecondFinalizeCounts(slot, ops, i, u, f);
    }
  }

  lemma SecondFinalizeCounts(slot: Slot, ops: seq<Timed>, i: nat, u: nat, f: nat)
    requires slot.Some? && OneGeneration(ops) && SecondFinalize(slot, ops, i, u, f)
    ensures EffectiveFinalizes(slot, ops[..|ops|]) > EffectiveFinalizes(slot, ops[..i])
  {
    FinalizeAfterReopening(slot, ops, u, f);
    CountRises(slot, ops, i, u);
    CountRises(slot, ops, f + 1, |ops|);
  }

  lemma {:induction false} FinalizeAfterReopening(slot: Slot, ops: seq<Timed>, u: nat, f: nat)
    requires slot.Some? && OneGeneration(ops) && SecondFinalize(slot, ops, 0, u, f)
    ensures EffectiveFinalizes(slot, ops[..f + 1]) > EffectiveFinalizes(slot, ops[..u])
  {
    StaysReopened(slot, ops, u, f);
    RecordStays(slot, ops, f);
    PrefixRun(slot, ops, f);
    CountRises(slot, ops, u, f);
  }

  // ---- a search deleted and recreated under its identifier

  /** A late Finalize changes whatever record it finds if and only if that is live and unfinished. */
  lemma LateFinalizeTouches(slot: Slot, result: Result, content: string, ttl: int, now: int)
    ensures After(slot, Finalize(result, content), ttl, now) != slot <==>
            Live(slot, now) && !Terminal(slot.value.result.status)
  {
    if Live(slot, now) && !Terminal(slot.value.result.status) {
      assert |After(slot, Finalize(result, content), ttl, now).value.events| == |slot.value.events| + 1;
    }
  }

  /** The worker of a deleted search finalizes the search that was recreated in its place. */
  lemma OldWorkerFinishesRecreated(first: Result, second: Result, stale: Result, content: string)
    requires !Terminal(second.status)
    ensures var ops := [Timed(Create(first), 10, 0), Timed(Delete, 10, 1), Timed(Create(second), 10, 2),
                        Timed(Finalize(stale, content), 10, 3)];
            Run(None, ops).Some? && Run(None, ops).value.result == stale
  {
    var a, b := Timed(Create(first), 10, 0), Timed(Delete, 10, 1);
    var c, d := Timed(Create(second), 10, 2), Timed(Finalize(stale, content), 10, 3);
    assert [a, b, c, d] == [] + [a] + [b] + [c] + [d];
    RunScript(None, [], a);
    RunScript(None, [] + [a], b);
    RunScript(None, [] + [a] + [b], c);
    RunScript(None, [] + [a] + [b] + [c], d);
  }

  // ---- Redis keys

  datatype Key<V> = Key(value: V, expiresAt: int)

  /** The result, event list and counter keys of one search, and its entry in the active set. */
  datatype Keys = Keys(
    result: Option<Key<Result>>,
    events: Option<Key<seq<Event>>>,
    counter: Option<Key<int>>,
    active: Option<int>)

  const NO_KEYS := Keys(None, None, None, None)

  /** The value a command sees: an elapsed key reads as missing. */
  function Read<V>(key: Option<Key<V>>, now: int): Option<V> {
    if key.Some? && now < key.value.expiresAt then Some(key.value.value) else None
  }

  function PositiveTtl(ttl: int): int { Max(1, ttl) }

  /** INCR then RPUSH then PEXPIRE on the list and the counter. */
  function Pushed(keys: Keys, content: string, ttl: int, now: int): Keys {
    var counter := Read(keys.counter, now);
    var sequence := if counter.Some? then counter.value + 1 else 1;
    var list := Read(keys.events, now);
    var events := (if list.Some? then list.value else []) + [Event(sequence, content)];
    keys.(events := Some(Key(events, now + PositiveTtl(ttl))), counter := Some(Key(sequence, now + PositiveTtl(ttl))))
  }

  /** The scripts, one atomic step each. */
  function AfterScript(keys: Keys, op: Op, ttl: int, now: int): Keys {
    var current := Read(keys.result, now);
    match op
    case Create(result) =>
      if current.Some? then keys
      else keys.(result := Some(Key(result, now + PositiveTtl(ttl))), active := Some(result.generatedAt))
    case Update(result) => if current.None? then keys else keys.(result := Some(Key(result, now + ttl)))
    case Delete => NO_KEYS
    case Append(content) =>
      if current.None? then keys
      else Pushed(keys, content, ttl, now).(result := Some(Key(current.value, now + PositiveTtl(ttl))))
    case Finalize(result, content) =>
      if current.None? then keys.(active := None)
      else if current.value.status != SearchAccepted && current.value.status != Searching then keys.(active := None)
      else Pushed(keys, content, ttl, now).(result := Some(Key(result, now + PositiveTtl(ttl))), active := None)
  }

  function ScriptOutcome(keys: Keys, op: Op, now: int): Outcome {
    match op
    case Create(_) => if Read(keys.result, now).Some? then AlreadyExists else Done
    case _ => if Read(keys.result, now).Some? then Done else NotFound
  }

  /** What LRANGE after the cursor returns, with the id filter of the client. */
  function ScriptReplay(keys: Keys, after: int, now: int): Option<seq<Event>> {
    if Read(keys.result, now).None? then None
    else
      var list := Read(keys.events, now);
      var events := if list.Some? then list.value else [];
      var from := Max(0, after);
      var batch := if from >= |events| then [] else events[from..Min(|events|, from + MAXIMUM_REPLAY_BATCH)];
      Some(Above(batch, from))
  }

  // ---- refinement

  /** The four keys hold exactly the in-memory record. */
  ghost predicate Represents(keys: Keys, slot: Slot) {
    && Numbered(slot)
    && match slot
       case None => keys.result.None? && keys.events.None? && keys.counter.None?
       case Some(record) =>
         && keys.result == Some(Key(record.result, record.expiresAt))
         && (record.events == [] ==> keys.events.None? && keys.counter.None?)
         && (record.events != [] ==>
               && keys.events.Some? && keys.events.value.value == record.events
               && keys.counter == Some(Key(|record.events|, keys.events.value.expiresAt)))
  }

  /** A live unfinished search is in the active set. */
  ghost predicate ActiveCovers(keys: Keys) {
    keys.result.Some? && !Terminal(keys.result.value.value.status) ==> keys.active.Some?
  }

  /** No key of the search has reached the end of its lifetime. */
  ghost predicate NotElapsed(keys: Keys, now: int) {
    && (keys.result.Some? ==> now < keys.result.value.expiresAt)
    && (keys.events.Some? ==> now < keys.events.value.expiresAt)
  }

  /** Until a lifetime elapses, every script does to the keys what the memory store does to the record. */
  lemma ScriptsRefineMemory(keys: Keys, slot: Slot, op: Op, ttl: int, now: int)
    requires ttl >= 1 && Represents(keys, slot) && NotElapsed(keys, now)
    ensures Represents(AfterScript(keys, op, ttl, now), After(slot, op, ttl, now))
    ensures ScriptOutcome(keys, op, now) == OutcomeOf(slot, op, now)
  {
  }

  /** Finalize takes effect in the same states of both forms. */
  lemma FinalizeTakesEffectAlike(keys: Keys, slot: Slot, result: Result, content: string, ttl: int, now: int)
    requires ttl >= 1 && Represents(keys, slot) && NotElapsed(keys, now)
    ensures TakesEffect(slot, Timed(Finalize(result, content), ttl, now)) <==>
            AfterScript(keys, Finalize(result, content), ttl, now).events != keys.events
  {
    if slot.Some? && !Terminal(slot.value.result.status) {
      var after := AfterScript(keys, Finalize(result, content), ttl, now);
      assert |after.events.value.value| == |slot.value.events| + 1;
    }
  }

  lemma {:induction false} BatchIsAbove(events: seq<Event>, from: int)
    requires 0 <= from && forall i :: 0 <= i < |events| ==> events[i].eventId > from
    ensures Above(events, from) == events
  {
    if events != [] {
      BatchIsAbove(events[..|events| - 1], from);
      assert events == events[..|events| - 1] + [events[|events| - 1]];
    }
  }

  lemma ReplayAgrees(keys: Keys, slot: Slot, after: int, now: int)
    requires Represents(keys, slot) && NotElapsed(keys, now)
    ensures ScriptReplay(keys, after, now) == if slot.Some? then Some(Replay(slot.value.events, after)) else None
  {
    if slot.Some? {
      BatchIsAbove(Replay(slot.value.events, after), Max(0, after));
    }
  }

  /** The active set loses an unfinished search exactly when an Update reopens a finished one. */
  lemma ActiveCoverageIsExact(keys: Keys, op: Op, ttl: int, now: int)
    requires ttl >= 1 && ActiveCovers(keys) && NotElapsed(keys, now)
    requires op.Finalize? ==> Terminal(op.result.status)
    ensures ActiveCovers(AfterScript(keys, op, ttl, now)) <==>
            !(op.Update? && keys.result.Some? && keys.active.None? && !Terminal(op.result.status))
  {
  }

  /** The search has a live result that is not terminal. */
  predicate UnfinishedKeys(keys: Keys, now: int) {
    var result := Read(keys.result, now);
    result.Some? && !Terminal(result.value.status)
  }

  /** One sweep, seen from one search: an entry it lists is dropped when the search is gone or finished. */
  function AfterSweep(keys: Keys, listed: bool, now: int): Keys {
    if listed && !UnfinishedKeys(keys, now) then keys.(active := None) else keys
  }

  datatype KeyStep = Script(step: Timed) | Sweep(listed: bool, now: int)

  function AfterKeyStep(keys: Keys, step: KeyStep): Keys {
    match step
    case Script(t) => AfterScript(keys, t.op, t.ttl, t.now)
    case Sweep(listed, now) => AfterSweep(keys, listed, now)
  }

  function RunKeys(keys: Keys, steps: seq<KeyStep>): Keys {
    if steps == [] then keys else AfterKeyStep(RunKeys(keys, steps[..|steps| - 1]), steps[|steps| - 1])
  }

  /** The memory store has no active set, so a sweep is no step of it. */
  function ScriptsOf(steps: seq<KeyStep>): seq<Timed> {
    if steps == [] then []
    else ScriptsOf(steps[..|steps| - 1]) + if steps[|steps| - 1].Script? then [steps[|steps| - 1].step] else []
  }

  ghost predicate TimelyStep(keys: Keys, step: KeyStep) {
    match step
    case Script(t) => t.ttl >= 1 && NotElapsed(keys, t.now)
    case Sweep(_, now) => NotElapsed(keys, now)
  }

  /** Every step of the run happened before any lifetime elapsed. */
  ghost predicate Timely(keys: Keys, steps: seq<KeyStep>) {
    forall i :: 0 <= i < |steps| ==> TimelyStep(RunKeys(keys, steps[..i]), steps[i])
  }

  /** An Update that makes a terminal result unfinished. */
  predicate Reopens(keys: Keys, step: KeyStep) {
    && step.Script? && step.step.op.Update? && !Terminal(step.step.op.result.status)
    && keys.result.Some? && Terminal(keys.result.value.value.status)
  }

  /** Finalize writes terminal results, and no Update reopens one. */
  ghost predicate WellUsed(keys: Keys, steps: seq<KeyStep>) {
    forall i :: 0 <= i < |steps| ==>
                  && !Reopens(RunKeys(keys, steps[..i]), steps[i])
                  && (steps[i].Script? && steps[i].step.op.Finalize? ==> Terminal(steps[i].step.op.result.status))
  }

  lemma RunScript(slot: Slot, ops: seq<Timed>, last: Timed)
    ensures Run(slot, ops + [last]) == After(Run(slot, ops), last.op, last.ttl, last.now)
  {
    assert (ops + [last])[..|ops|] == ops;
  }

  lemma PrefixOfRun(steps: seq<KeyStep>)
    requires steps != []
    ensures var front, last := steps[..|steps| - 1], steps[|steps| - 1];
            && (Timely(NO_KEYS, steps) ==> Timely(NO_KEYS, front) && TimelyStep(RunKeys(NO_KEYS, front), last))
            && (WellUsed(NO_KEYS, steps) ==>
                  && WellUsed(NO_KEYS, front) && !Reopens(RunKeys(NO_KEYS, front), last)
                  && (last.Script? && last.step.op.Finalize? ==> Terminal(last.step.op.result.status)))
  {
    var front := steps[..|steps| - 1];
    assert forall i :: 0 <= i < |front| ==> front[i] == steps[i] && front[..i] == steps[..i];
  }

  lemma StepRefines(keys: Keys, ops: seq<Timed>, step: KeyStep)
    requires Represents(keys, Run(None, ops)) && TimelyStep(keys, step)
    ensures Represents(AfterKeyStep(keys, step), Run(None, if step.Script? then ops + [step.step] else ops))
  {
    if step.Script? {
      var t := step.step;
      RunScript(None, ops, t);
      ScriptsRefineMemory(keys, Run(None, ops), t.op, t.ttl, t.now);
    }
  }

  lemma StepCovers(keys: Keys, step: KeyStep)
    requires ActiveCovers(keys) && TimelyStep(keys, step) && !Reopens(keys, step)
    requires step.Script? && step.step.op.Finalize? ==> Terminal(step.step.op.result.status)
    ensures ActiveCovers(AfterKeyStep(keys, step))
  {
    if step.Script? {
      ActiveCoverageIsExact(keys, step.step.op, step.step.ttl, step.step.now);
    }
  }

  /**
    Refinement over whole runs of scripts and sweeps: counter, list length and nextEvent
    agree in every state, and the active set holds every unfinished search as long as no
    Update reopens a finished one.
    */
  lemma {:induction false} RedisRefinesMemory(steps: seq<KeyStep>)
    requires Timely(NO_KEYS, steps)
    ensures Represents(RunKeys(NO_KEYS, steps), Run(None, ScriptsOf(steps)))
    ensures WellUsed(NO_KEYS, steps) ==> ActiveCovers(RunKeys(NO_KEYS, steps))
  {
    if steps != [] {
      var front, last := steps[..|steps| - 1], steps[|steps| - 1];
      PrefixOfRun(steps);
      RedisRefinesMemory(front);
      StepRefines(RunKeys(NO_KEYS, front), ScriptsOf(front), last);
      assert ScriptsOf(steps) == if last.Script? then ScriptsOf(front) + [last.step] else ScriptsOf(front);
      if WellUsed(NO_KEYS, steps) {
        StepCovers(RunKeys(NO_KEYS, front), last);
      }
    }
  }

  /** A created search, finalized and updated once more, is unfinished and missing from the active set. */
  lemma ReopenedLeavesActiveSet(created: Result, finished: Result, reopened: Result, content: string)
    requires !Terminal(created.status) && Terminal(finished.status) && !Terminal(reopened.status)
    ensures var steps := [Script(Timed(Create(created), 10, 0)), Script(Timed(Finalize(finished, content), 10, 1)),
                          Script(Timed(Update(reopened), 10, 2))];
            var keys := RunKeys(NO_KEYS, steps);
            Timely(NO_KEYS, steps) && UnfinishedKeys(keys, 3) && keys.active.None?
  {
    var a, b := Script(Timed(Create(created), 10, 0)), Script(Timed(Finalize(finished, content), 10, 1));
    var c := Script(Timed(Update(reopened), 10, 2));
    var steps := [a, b, c];
    KeysAfterThree(a, b, c);
  }

  lemma KeysAfterThree(a: KeyStep, b: KeyStep, c: KeyStep)
    ensures RunKeys(NO_KEYS, [a, b, c][..0]) == NO_KEYS
    ensures RunKeys(NO_KEYS, [a, b, c][..1]) == AfterKeyStep(NO_KEYS, a)
    ensures RunKeys(NO_KEYS, [a, b, c][..2]) == AfterKeyStep(AfterKeyStep(NO_KEYS, a), b)
    ensures RunKeys(NO_KEYS, [a, b, c]) == AfterKeyStep(AfterKeyStep(AfterKeyStep(NO_KEYS, a), b), c)
  {
    var s := [a, b, c];
    assert s[..2] == [a, b] && s[..1] == [a] && s[..0] == [];
    assert [a, b][..1] == [a] && [a][..0] == [];
  }

  /**
    Update renews the result key but not the list and the counter. Once those have elapsed,
    the next event restarts at one: the two forms agree on it exactly when the log was empty
    or its keys are still there.
    */
  lemma AppendAgreesUntilListElapses(keys: Keys, slot: Slot, content: string, ttl: int, now: int)
    requires ttl >= 1 && Represents(keys, slot) && slot.Some? && now < slot.value.expiresAt
    ensures Represents(AfterScript(keys, Append(content), ttl, now), After(slot, Append(content), ttl, now))
            <==> slot.value.events == [] || now < keys.events.value.expiresAt
  {
    var after := AfterScript(keys, Append(content), ttl, now);
    var record := After(slot, Append(content), ttl, now).value;
    if slot.value.events != [] && now >= keys.events.value.expiresAt {
      assert |after.events.value.value| == 1 && |record.events| > 1;
    }
  }

  /** A run in which the list elapses under a renewed result: the second event is numbered one again. */
  lemma LogRestartsAfterElapse(created: Result, updated: Result, first: string, second: string)
    ensures var ops := [Timed(Create(created), 10, 0), Timed(Append(first), 10, 0), Timed(Update(updated), 100, 5),
                        Timed(Append(second), 10, 50)];
            var keys := RunKeys(NO_KEYS, [Script(ops[0]), Script(ops[1]), Script(ops[2]), Script(ops[3])]);
            var record := Run(None, ops);
            && keys.events.Some? && keys.events.value.value == [Event(1, second)]
            && record.Some? && record.value.events == [Event(1, first), Event(2, second)]
  {
    var a, b := Timed(Create(created), 10, 0), Timed(Append(first), 10, 0);
    var c, d := Timed(Update(updated), 100, 5), Timed(Append(second), 10, 50);
    KeysAfterThree(Script(a), Script(b), Script(c));
    assert [Script(a), Script(b), Script(c), Script(d)][..3] == [Script(a), Script(b), Script(c)];
    assert [a, b, c, d] == [] + [a] + [b] + [c] + [d];
    RunScript(None, [], a);
    RunScript(None, [] + [a], b);
    RunScript(None, [] + [a] + [b], c);
    RunScript(None, [] + [a] + [b] + [c], d);
  }

  // ---- the Redis store as it mutates its keys

  class Redis {
    var results: map<string, Key<Result>>
    var lists: map<string, Key<seq<Event>>>
    var counters: map<string, Key<int>>
    var active: map<string, int>

    constructor ()
      ensures results == map[] && lists == map[] && counters == map[] && active == map[]
    {
      results, lists, counters, active := map[], map[], map[], map[];
    }

    function KeysOf(id: string): Keys
      reads this
    {
      Keys(At(results, id), At(lists, id), At(counters, id), At(active, id))
    }

    predicate Exists(id: string, now: int)
      reads this
      ensures Exists(id, now) <==> Read(At(results, id), now).Some?
    {
      id in results && now < results[id].expiresAt
    }

    method CreateScript(result: Result, ttl: int, now: int) returns (outcome: Outcome)
      modifies this
      ensures outcome == ScriptOutcome(old(KeysOf(result.searchId)), Create(result), now)
      ensures KeysOf(result.searchId) == AfterScript(old(KeysOf(result.searchId)), Create(result), ttl, now)
      ensures forall id :: id != result.searchId ==> KeysOf(id) == old(KeysOf(id))
    {
      if Exists(result.searchId, now) {
        return AlreadyExists;
      }
      results := results[result.searchId := Key(result, now + PositiveTtl(ttl))];
      active := active[result.searchId := result.generatedAt];
      return Done;
    }

    method Push(id: string, content: string, ttl: int, now: int)
      modifies this
      ensures KeysOf(id) == Pushed(old(KeysOf(id)), content, ttl, now)
      ensures forall other :: other != id ==> KeysOf(other) == old(KeysOf(other))
      ensures results == old(results) && active == old(active)
    {
      var sequence := if id in counters && now < counters[id].expiresAt then counters[id].value + 1 else 1;
      var list := if id in lists && now < lists[id].expiresAt then lists[id].value else [];
      counters := counters[id := Key(sequence, now + PositiveTtl(ttl))];
      lists := lists[id := Key(list + [Event(sequence, content)], now + PositiveTtl(ttl))];
    }

    method AppendScript(id: string, content: string, ttl: int, now: int) returns (outcome: Outcome)
      modifies this
      ensures outcome == ScriptOutcome(old(KeysOf(id)), Append(content), now)
      ensures KeysOf(id) == AfterScript(old(KeysOf(id)), Append(content), ttl, now)
      ensures forall other :: other != id ==> KeysOf(other) == old(KeysOf(other))
    {
      if !Exists(id, now) {
        return NotFound;
      }
      Push(id, content, ttl, now);
      results := results[id := results[id].(expiresAt := now + PositiveTtl(ttl))];
      return Done;
    }

    method FinalizeScript(result: Result, content: string, ttl: int, now: int) returns (outcome: Outcome)
      modifies this
      ensures outcome == ScriptOutcome(old(KeysOf(result.searchId)), Finalize(result, content), now)
      ensures KeysOf(result.searchId) == AfterScript(old(KeysOf(result.searchId)), Finalize(result, content), ttl, now)
      ensures forall id :: id != result.searchId ==> KeysOf(id) == old(KeysOf(id))
    {
      var id := result.searchId;
      if !Exists(id, now) {
        active := active - {id};
        return NotFound;
      }
      var status := results[id].value.status;
      if status != SearchAccepted && status != Searching {
        active := active - {id};
        return Done;
      }
      Push(id, content, ttl, now);
      results := results[id := Key(result, now + PositiveTtl(ttl))];
      active := active - {id};
      return Done;
    }

    method DeleteScript(id: string, now: int) returns (outcome: Outcome)
      modifies this
      ensures outcome == ScriptOutcome(old(KeysOf(id)), Delete, now)
      ensures KeysOf(id) == NO_KEYS
      ensures forall other :: other != id ==> KeysOf(other) == old(KeysOf(other))
    {
      outcome := if Exists(id, now) then Done else NotFound;
      results, lists, counters, active := results - {id}, lists - {id}, counters - {id}, active - {id};
    }

    method Update(result: Result, ttl: int, now: int) returns (outcome: Outcome)
      modifies this
      ensures outcome == ScriptOutcome(old(KeysOf(result.searchId)), Op.Update(result), now)
      ensures KeysOf(result.searchId) == AfterScript(old(KeysOf(result.searchId)), Op.Update(result), ttl, now)
      ensures forall id :: id != result.searchId ==> KeysOf(id) == old(KeysOf(id))
    {
      if !Exists(result.searchId, now) {
        return NotFound;
      }
      results := results[result.searchId := Key(result, now + ttl)];
      return Done;
    }

    /**
      One sweep over the active entries the server returned: it reports the unfinished ones
      in their order and drops the others, which is the sweep step of every search.
      */
    method SweepActive(ids: seq<string>, now: int) returns (found: seq<Result>)
      modifies this
      ensures found == UnfinishedAmong(results, ids, now)
      ensures forall id :: KeysOf(id) == AfterSweep(old(KeysOf(id)), id in ids, now)
    {
      found := [];
      var remove: set<string> := {};
      for i := 0 to |ids|
        invariant unchanged(this)
        invariant forall id :: id in remove <==> id in ids[..i] && !Unfinished(results, id, now)
        invariant found == UnfinishedAmong(results, ids[..i], now)
      {
        assert ids[..i + 1] == ids[..i] + [ids[i]];
        assert ids[..i + 1][..i] == ids[..i];
        if !Unfinished(results, ids[i], now) {
          remove := remove + {ids[i]};
        } else {
          found := found + [results[ids[i]].value];
        }
      }
      assert ids[..|ids|] == ids;
      active := active - remove;
    }
  }

  predicate Unfinished(results: map<string, Key<Result>>, id: string, now: int) {
    id in results && now < results[id].expiresAt && !Terminal(results[id].value.status)
  }

  /** The unfinished searches among the listed ones, in order. */
  function UnfinishedAmong(results: map<string, Key<Result>>, ids: seq<string>, now: int): seq<Result> {
    if ids == [] then []
    else
      var last := ids[|ids| - 1];
      UnfinishedAmong(results, ids[..|ids| - 1], now)
      + if Unfinished(results, last, now) then [results[last].value] else []
  }

  // ---- the event stream

  /** A client: where it started, what it received, and its Last-Event-ID. */
  datatype Reader = Reader(start: nat, received: seq<Event>, cursor: int)

  /** A poll of which the client received the first count events before the connection dropped, if it did. */
  function Receive(reader: Reader, log: seq<Event>, count: nat): Reader {
    var batch := Replay(log, reader.cursor);
    var seen := if count < |batch| then batch[..count] else batch;
    if seen == [] then reader
    else reader.(received := reader.received + seen, cursor := seen[|seen| - 1].eventId)
  }

  ghost predicate InStep(reader: Reader, log: seq<Event>) {
    && reader.cursor == reader.start + |reader.received|
    && (reader.received != [] ==> reader.cursor <= |log|)
    && forall i :: 0 <= i < |reader.received| ==>
         reader.start + i < |log| && reader.received[i] == log[reader.start + i]
  }

  lemma ReplayEntries(log: seq<Event>, cursor: int)
    requires Contiguous(log) && cursor >= 0
    ensures var batch := Replay(log, cursor);
            && (batch != [] ==> cursor + |batch| <= |log|)
            && forall i :: 0 <= i < |batch| ==> batch[i] == log[cursor + i]
  {
  }

  lemma ReceiveInStep(reader: Reader, log: seq<Event>, count: nat)
    requires Contiguous(log) && InStep(reader, log)
    ensures InStep(Receive(reader, log, count), log)
  {
    var batch := Replay(log, reader.cursor);
    var seen := if count < |batch| then batch[..count] else batch;
    ReplayEntries(log, reader.cursor);
    if seen != [] {
      assert forall i :: 0 <= i < |seen| ==> seen[i] == batch[i] == log[reader.cursor + i];
      assert seen[|seen| - 1].eventId == reader.cursor + |seen|;
      var t := Receive(reader, log, count);
      assert t.received == reader.received + seen;
    }
  }

  /** Where the stream is: before a poll, after one, or over. */
  datatype Phase = Waiting | Polled(empty: bool) | Ended

  /** received is none when the whole batch arrived, else how much did before the connection dropped. */
  datatype Activity =
    | StoreStep(step: Timed)
    | Poll(now: int, received: Option<nat>)
    | ReadStatus(now: int)

  /** A client that follows one search, reconnecting with its Last-Event-ID until a stream ends normally. */
  datatype Session = Session(slot: Slot, reader: Reader, phase: Phase)

  predicate PollsNow(session: Session, activity: Activity) {
    activity.Poll? && session.phase.Waiting? && Live(session.slot, activity.now)
  }

  function AfterPoll(session: Session, received: Option<nat>): Session
    requires session.slot.Some?
  {
    var log := session.slot.value.events;
    var batch := Replay(log, session.reader.cursor);
    match received
    case None => session.(reader := Receive(session.reader, log, |batch|), phase := Polled(batch == []))
    case Some(count) => session.(reader := Receive(session.reader, log, count))
  }

  /** The stream ends normally when the status is terminal and the poll before found nothing. */
  function AfterStatus(session: Session, now: int): Session {
    if !session.phase.Polled? then session
    else if Live(session.slot, now) && Terminal(session.slot.value.result.status) && session.phase.empty then
      session.(phase := Ended)
    else session.(phase := Waiting)
  }

  function Play(session: Session, activity: Activity): Session {
    if session.phase.Ended? then session
    else
      match activity
      case StoreStep(step) => session.(slot := After(session.slot, step.op, step.ttl, step.now))
      case Poll(_, received) => if PollsNow(session, activity) then AfterPoll(session, received) else session
      case ReadStatus(now) => AfterStatus(session, now)
  }

  function PlayAll(session: Session, activities: seq<Activity>): Session {
    if activities == [] then session
    else Play(PlayAll(session, activities[..|activities| - 1]), activities[|activities| - 1])
  }

  /** A client that starts following at a cursor. */
  function Following(record: Record, start: nat): Session {
    Session(Some(record), Reader(start, [], start), Waiting)
  }

  ghost predicate StaysInGeneration(activities: seq<Activity>) {
    forall i :: 0 <= i < |activities| && activities[i].StoreStep? ==>
                  !activities[i].step.op.Create? && !activities[i].step.op.Delete?
  }

  /** The reader is in step with the numbered log of a record that exists. */
  ghost predicate SessionInStep(s: Session, start: nat) {
    s.slot.Some? && Numbered(s.slot) && InStep(s.reader, s.slot.value.events) && s.reader.start == start
  }

  lemma PollInStep(s: Session, received: Option<nat>, start: nat)
    requires SessionInStep(s, start)
    ensures SessionInStep(AfterPoll(s, received), start)
  {
    var log := s.slot.value.events;
    ReceiveInStep(s.reader, log, if received.Some? then received.value else |Replay(log, s.reader.cursor)|);
  }

  lemma {:induction false} ReaderStaysInStep(record: Record, start: nat, activities: seq<Activity>)
    requires Numbered(Some(record)) && StaysInGeneration(activities)
    ensures SessionInStep(PlayAll(Following(record, start), activities), start)
  {
    if activities != [] {
      var front, last := activities[..|activities| - 1], activities[|activities| - 1];
      assert StaysInGeneration(front) && (last.StoreStep? ==> !last.step.op.Create? && !last.step.op.Delete?);
      ReaderStaysInStep(record, start, front);
      var s := PlayAll(Following(record, start), front);
      match last
      case Poll(_, received) => PollInStep(s, received, start);
      case StoreStep(step) => LogStepInStep(s, step);
      case ReadStatus(_) =>
    }
  }

  lemma LogStepInStep(s: Session, step: Timed)
    requires s.slot.Some? && Numbered(s.slot) && InStep(s.reader, s.slot.value.events)
    requires !step.op.Create? && !step.op.Delete?
    ensures var after := After(s.slot, step.op, step.ttl, step.now);
            after.Some? && Numbered(after) && InStep(s.reader, after.value.events)
  {
    LogStep(s.slot, step);
  }

  /** However appends, drops and reconnects interleave, a client sees start+1, start+2, ... without gap or repeat. */
  lemma ReaderSeesConsecutiveIds(record: Record, start: nat, activities: seq<Activity>, i: nat)
    requires Numbered(Some(record)) && StaysInGeneration(activities)
    requires i < |PlayAll(Following(record, start), activities).reader.received|
    ensures var s := PlayAll(Following(record, start), activities);
            s.reader.received[i].eventId == start + i + 1 && s.slot.Some? && start + i < |s.slot.value.events|
            && s.reader.received[i] == s.slot.value.events[start + i]
  {
    ReaderStaysInStep(record, start, activities);
  }

  // ---- does a stream that ends deliver the terminal event?

  predicate Finalizes(session: Session, activity: Activity) {
    && !session.phase.Ended? && activity.StoreStep? && activity.step.op.Finalize?
    && TakesEffect(session.slot, activity.step)
  }

  /** The id of the event that the latest effective Finalize wrote. */
  function TerminalEvent(from: Session, activities: seq<Activity>): Option<int> {
    if activities == [] then None
    else
      var front, last := activities[..|activities| - 1], activities[|activities| - 1];
      var s := PlayAll(from, front);
      if Finalizes(s, last) then Some(s.slot.value.nextEvent + 1) else TerminalEvent(from, front)
  }

  /** A Finalize took effect after the last poll. */
  predicate FinalizedSincePoll(from: Session, activities: seq<Activity>) {
    activities != [] &&
    var front, last := activities[..|activities| - 1], activities[|activities| - 1];
    var s := PlayAll(from, front);
    if Finalizes(s, last) then true
    else if !s.phase.Ended? && PollsNow(s, last) then false
    else FinalizedSincePoll(from, front)
  }

  /** Only Finalize writes a terminal status. */
  ghost predicate OnlyFinalizeEnds(activities: seq<Activity>) {
    forall i :: 0 <= i < |activities| && activities[i].StoreStep? ==>
                  && (activities[i].step.op.Update? ==> !Terminal(activities[i].step.op.result.status))
                  && (activities[i].step.op.Finalize? ==> Terminal(activities[i].step.op.result.status))
  }

  predicate ReceivedEvent(reader: Reader, id: int) {
    exists i :: 0 <= i < |reader.received| && reader.received[i].eventId == id
  }

  /** What the run knows of the terminal event; cursors are compared with the log at the last poll. */
  ghost predicate StreamKnows(s: Session, terminal: Option<int>, since: bool) {
    && s.slot.Some?
    && (Terminal(s.slot.value.result.status) ==> terminal.Some?)
    && (terminal.Some? ==> 0 < terminal.value <= |s.slot.value.events|)
    && ((s.phase.Polled? && s.phase.empty) || s.phase.Ended? ==>
          terminal.Some? ==>
            if since then s.reader.received == [] || s.reader.cursor < terminal.value
            else terminal.value <= s.reader.cursor)
    && (s.phase.Ended? ==> Terminal(s.slot.value.result.status))
  }

  lemma StreamKnowsPoll(s: Session, received: Option<nat>, terminal: Option<int>, since: bool)
    requires StreamKnows(s, terminal, since) && Numbered(s.slot) && InStep(s.reader, s.slot.value.events)
    requires s.phase.Waiting?
    ensures StreamKnows(AfterPoll(s, received), terminal, false)
  {
    var log := s.slot.value.events;
    ReplayEntries(log, s.reader.cursor);
    ReceiveInStep(s.reader, log, if received.Some? then received.value else |Replay(log, s.reader.cursor)|);
  }

  lemma StreamKnowsStore(s: Session, step: Timed, terminal: Option<int>, since: bool)
    requires StreamKnows(s, terminal, since) && Numbered(s.slot) && !s.phase.Ended?
    requires InStep(s.reader, s.slot.value.events)
    requires !step.op.Create? && !step.op.Delete? && (step.op.Update? ==> !Terminal(step.op.result.status))
    ensures var t := s.(slot := After(s.slot, step.op, step.ttl, step.now));
            var effective := step.op.Finalize? && TakesEffect(s.slot, step);
            StreamKnows(t, if effective then Some(s.slot.value.nextEvent + 1) else terminal, effective || since)
  {
    LogStep(s.slot, step);
  }

  lemma {:induction false} StreamKnowsAlways(record: Record, start: nat, activities: seq<Activity>)
    requires Numbered(Some(record)) && !Terminal(record.result.status)
    requires StaysInGeneration(activities) && OnlyFinalizeEnds(activities)
    ensures var from := Following(record, start);
            StreamKnows(PlayAll(from, activities), TerminalEvent(from, activities),
                        FinalizedSincePoll(from, activities))
  {
    if activities != [] {
      var front, last := activities[..|activities| - 1], activities[|activities| - 1];
      assert forall i :: 0 <= i < |front| ==> front[i] == activities[i];
      var from := Following(record, start);
      StreamKnowsAlways(record, start, front);
      ReaderStaysInStep(record, start, front);
      var s := PlayAll(from, front);
      var terminal, since := TerminalEvent(from, front), FinalizedSincePoll(from, front);
      if !s.phase.Ended? {
        if last.StoreStep? {
          StreamKnowsStore(s, last.step, terminal, since);
        } else if PollsNow(s, last) {
          StreamKnowsPoll(s, last.received, terminal, since);
        }
      }
    }
  }

  lemma {:induction false} TerminalEventIsNew(record: Record, start: nat, activities: seq<Activity>)
    requires Numbered(Some(record)) && StaysInGeneration(activities)
    ensures var from := Following(record, start);
            var s := PlayAll(from, activities);
            && s.slot.Some? && |record.events| <= |s.slot.value.events|
            && (TerminalEvent(from, activities).Some? ==> TerminalEvent(from, activities).value > |record.events|)
  {
    if activities != [] {
      var front, last := activities[..|activities| - 1], activities[|activities| - 1];
      assert StaysInGeneration(front) && (last.StoreStep? ==> !last.step.op.Create? && !last.step.op.Delete?);
      TerminalEventIsNew(record, start, front);
      ReaderStaysInStep(record, start, front);
      if last.StoreStep? {
        LogStep(PlayAll(Following(record, start), front).slot, last.step);
      }
    }
  }

  /**
    In every run, a stream that ended normally has delivered the terminal event if and only
    if no Finalize took effect between its last poll and its status read, and the client did
    not start at a cursor that is already past the event.
    */
  lemma EndedStreamIsComplete(record: Record, start: nat, activities: seq<Activity>)
    requires Numbered(Some(record)) && !Terminal(record.result.status)
    requires StaysInGeneration(activities) && OnlyFinalizeEnds(activities)
    requires PlayAll(Following(record, start), activities).phase.Ended?
    ensures var from := Following(record, start);
            var terminal := TerminalEvent(from, activities);
            && terminal.Some?
            && (ReceivedEvent(PlayAll(from, activities).reader, terminal.value) <==>
                !FinalizedSincePoll(from, activities) && start < terminal.value)
            && (start <= |record.events| ==> start < terminal.value)
  {
    var from := Following(record, start);
    StreamKnowsAlways(record, start, activities);
    ReaderStaysInStep(record, start, activities);
    TerminalEventIsNew(record, start, activities);
    var reader, terminal := PlayAll(from, activities).reader, TerminalEvent(from, activities).value;
    if start < terminal <= reader.cursor {
      assert reader.received[terminal - start - 1].eventId == terminal;
    }
  }

  /** The failing run: poll, Finalize, status read. The stream ends and its client has received nothing. */
  lemma FinalizeBetweenReadsIsMissed(created: Result, finished: Result, content: string)
    requires !Terminal(created.status) && Terminal(finished.status)
    ensures var record := After(None, Create(created), 10, 0).value;
            var activities := [Poll(1, None), StoreStep(Timed(Finalize(finished, content), 10, 2)), ReadStatus(3)];
            var s := PlayAll(Following(record, 0), activities);
            s.phase.Ended? && s.reader.received == [] && s.slot.Some? && s.slot.value.events == [Event(1, content)]
  {
    var record := After(None, Create(created), 10, 0).value;
    var a, b, c := Poll(1, None), StoreStep(Timed(Finalize(finished, content), 10, 2)), ReadStatus(3);
    var from := Following(record, 0);
    assert [a, b, c][..2] == [a, b] && [a, b][..1] == [a] && [a][..0] == [];
    assert PlayAll(from, []) == from;
    assert PlayAll(from, [a]) == from.(phase := Polled(true));
    assert PlayAll(from, [a, b]).slot.value.events == [Event(1, content)];
  }
}
