/**
  The idempotency keys of the edge service: a record key that holds a pending claim or the
  completed search, and a longer-lived fingerprint key that holds the body hash. The Redis
  form works with separate GET and SETNX commands, the in-memory form under one lock.
  */
module Idempotency {
  import opened Domain

  /** The operation key and the search id derived from it are injective in the body hash. */
  datatype SearchId = FromStableKey(bodyHash: string)

  /** The value of the record key. */
  datatype Claim =
    | Pending(bodyHash: string, token: nat)
    | Completed(bodyHash: string, searchId: SearchId)

  /** The two keys of one idempotency key, as a reader finds them. */
  datatype Keys = Keys(record: Option<Claim>, fingerprint: Option<string>)

  /** What beginning an operation answers. */
  datatype Begun = Granted(token: nat) | InProgress(token: nat) | Replay(searchId: SearchId) | Conflict

  /** What a record found under the key answers. */
  function Existing(claim: Claim, bodyHash: string): Begun {
    if claim.bodyHash != bodyHash then Conflict
    else if claim.Pending? then InProgress(claim.token)
    else Replay(claim.searchId)
  }

  datatype Grant = Grant(token: nat, bodyHash: string)

  /** The keys with their history: every claim granted, one per record generation, and every completion. */
  datatype Claims = Claims(keys: Keys, nextToken: nat, grants: seq<Grant>, completions: seq<nat>)

  const NO_CLAIMS := Claims(Keys(None, None), 0, [], [])

  // ---- Redis commands

  /** The next Redis command of a caller that begins an operation. */
  datatype Progress =
    | ReadRecord
    | Repair(found: Begun)      // SETNX the fingerprint, then answer what was found
    | MarkFingerprint           // SETNX the fingerprint
    | CheckFingerprint          // GET the fingerprint
    | ClaimRecord               // SETNX the record
    | RereadRecord              // GET the record that won
    | Done(begun: Begun)

  function SetFingerprintIfAbsent(k: Keys, bodyHash: string): Keys {
    if k.fingerprint.None? then k.(fingerprint := Some(bodyHash)) else k
  }

  /** SETNX of the record with a new token. */
  function TryClaim(c: Claims, bodyHash: string): Claims {
    if c.keys.record.Some? then c.(nextToken := c.nextToken + 1)
    else Claims(c.keys.(record := Some(Pending(bodyHash, c.nextToken))), c.nextToken + 1,
                c.grants + [Grant(c.nextToken, bodyHash)], c.completions)
  }

  /** The keys after one command. */
  function Commanded(c: Claims, bodyHash: string, progress: Progress): Claims {
    match progress
    case Repair(_) => c.(keys := SetFingerprintIfAbsent(c.keys, bodyHash))
    case MarkFingerprint => c.(keys := SetFingerprintIfAbsent(c.keys, bodyHash))
    case ClaimRecord => TryClaim(c, bodyHash)
    case _ => c
  }

  /** The caller's next command, from the keys the command found. */
  function Proceed(c: Claims, bodyHash: string, progress: Progress): Progress {
    match progress
    case ReadRecord =>
      if c.keys.record.None? then MarkFingerprint
      else
        var found := Existing(c.keys.record.value, bodyHash);
        if found.Conflict? then Done(found) else Repair(found)
    case Repair(found) => Done(found)
    case MarkFingerprint => if c.keys.fingerprint.None? then ClaimRecord else CheckFingerprint
    case CheckFingerprint =>
      if c.keys.fingerprint.None? then ReadRecord
      else if c.keys.fingerprint.value != bodyHash then Done(Conflict)
      else ClaimRecord
    case ClaimRecord => if c.keys.record.None? then Done(Granted(c.nextToken)) else RereadRecord
    case RereadRecord => if c.keys.record.None? then ReadRecord else Done(Existing(c.keys.record.value, bodyHash))
    case Done(_) => progress
  }

  /** completeIdempotencyScript. */
  function Complete(c: Claims, bodyHash: string, token: nat, searchId: SearchId): Claims {
    if c.keys.record == Some(Pending(bodyHash, token)) then
      c.(keys := Keys(Some(Completed(bodyHash, searchId)), Some(bodyHash)), completions := c.completions + [token])
    else c
  }

  predicate Holds(k: Keys, token: nat) {
    k.record.Some? && k.record.value.Pending? && k.record.value.token == token
  }

  /** forgetIdempotencyScript. */
  function Forget(c: Claims, token: nat): Claims {
    if Holds(c.keys, token) then c.(keys := Keys(None, None)) else c
  }

  // ---- generations

  /** Tokens rise over the grants and stay below the next one. */
  ghost predicate RisingGrants(c: Claims) {
    && (forall i, j :: 0 <= i < j < |c.grants| ==> c.grants[i].token < c.grants[j].token)
    && (forall i :: 0 <= i < |c.grants| ==> c.grants[i].token < c.nextToken)
  }

  ghost predicate GrantedToken(c: Claims, token: nat) {
    exists k :: 0 <= k < |c.grants| && c.grants[k].token == token
  }

  /** Completions are distinct granted tokens, and a pending record is younger than all of them. */
  ghost predicate RisingCompletions(c: Claims) {
    && (forall i, j :: 0 <= i < j < |c.completions| ==> c.completions[i] < c.completions[j])
    && (forall i :: 0 <= i < |c.completions| ==> GrantedToken(c, c.completions[i]))
    && (c.keys.record.Some? && c.keys.record.value.Pending? ==>
          forall i :: 0 <= i < |c.completions| ==> c.completions[i] < c.keys.record.value.token)
  }

  /** Each generation grants one claim with its own token; the pending record is the latest grant. */
  ghost predicate Generations(c: Claims) {
    && RisingGrants(c) && RisingCompletions(c)
    && (c.keys.record.Some? && c.keys.record.value.Pending? ==>
          c.grants != [] && c.grants[|c.grants| - 1] == Grant(c.keys.record.value.token, c.keys.record.value.bodyHash))
  }

  lemma GrantedTokensStay(c: Claims, d: Claims, token: nat)
    requires GrantedToken(c, token) && c.grants <= d.grants
    ensures GrantedToken(d, token)
  {
    var k :| 0 <= k < |c.grants| && c.grants[k].token == token;
    assert d.grants[k].token == token;
  }

  lemma ClaimKeepsGenerations(c: Claims, bodyHash: string)
    requires Generations(c)
    ensures Generations(TryClaim(c, bodyHash))
  {
    var d := TryClaim(c, bodyHash);
    forall i | 0 <= i < |c.completions|
      ensures GrantedToken(d, c.completions[i]) && c.completions[i] < c.nextToken
    {
      GrantedTokensStay(c, d, c.completions[i]);
    }
  }

  lemma CompleteKeepsGenerations(c: Claims, bodyHash: string, token: nat, searchId: SearchId)
    requires Generations(c)
    ensures Generations(Complete(c, bodyHash, token, searchId))
  {
    var d := Complete(c, bodyHash, token, searchId);
    if c.keys.record == Some(Pending(bodyHash, token)) {
      assert c.grants[|c.grants| - 1].token == token;
      assert GrantedToken(d, token);
      forall i | 0 <= i < |c.completions| ensures GrantedToken(d, c.completions[i]) {
        GrantedTokensStay(c, d, c.completions[i]);
      }
    }
  }

  /** Losing the record, and any change of the fingerprint, keeps the generations. */
  lemma LossKeepsGenerations(c: Claims, d: Claims)
    requires Generations(c)
    requires d.grants == c.grants && d.completions == c.completions && d.nextToken == c.nextToken
    requires d.keys.record == c.keys.record || d.keys.record.None?
    ensures Generations(d)
  {
    forall i | 0 <= i < |c.completions| ensures GrantedToken(d, c.completions[i]) {
      GrantedTokensStay(c, d, c.completions[i]);
    }
  }

  lemma CommandKeepsGenerations(c: Claims, bodyHash: string, progress: Progress)
    requires Generations(c)
    ensures Generations(Commanded(c, bodyHash, progress))
  {
    if progress.ClaimRecord? {
      ClaimKeepsGenerations(c, bodyHash);
    } else {
      LossKeepsGenerations(c, Commanded(c, bodyHash, progress));
    }
  }

  /** A token of an earlier or completed generation can neither complete nor forget the current one. */
  lemma SpentTokenHasNoEffect(c: Claims, token: nat, bodyHash: string, searchId: SearchId)
    requires Generations(c)
    requires (exists i :: 0 <= i < |c.grants| - 1 && c.grants[i].token == token) || token in c.completions
    ensures Complete(c, bodyHash, token, searchId) == c && Forget(c, token) == c
  {
  }

  // ---- one lock instead of separate commands

  /** Beginning an operation in one step: a live record answers and repairs the fingerprint. */
  function BeginWhole(k: Keys, bodyHash: string, token: nat): (Keys, Begun) {
    if k.record.Some? then
      var found := Existing(k.record.value, bodyHash);
      (if found.Conflict? then k else k.(fingerprint := Some(bodyHash)), found)
    else if k.fingerprint.Some? && k.fingerprint.value != bodyHash then (k, Conflict)
    else (Keys(Some(Pending(bodyHash, token)), Some(bodyHash)), Granted(token))
  }

  /** A caller that nobody interrupts. */
  function Uninterrupted(c: Claims, bodyHash: string, progress: Progress, commands: nat): (Claims, Progress)
    decreases commands
  {
    if commands == 0 then (c, progress)
    else Uninterrupted(Commanded(c, bodyHash, progress), bodyHash, Proceed(c, bodyHash, progress), commands - 1)
  }

  /** A live record found with a fingerprint of another body. */
  predicate Poisoned(k: Keys, bodyHash: string) {
    k.record.Some? && k.record.value.bodyHash == bodyHash && k.fingerprint.Some? && k.fingerprint.value != bodyHash
  }

  /**
    Run without interruption, the Redis commands finish and answer exactly as the locked
    form does. They leave the same keys unless a record was found with a fingerprint of
    another body, which SETNX leaves in place and the locked form overwrites.
    */
  lemma UninterruptedCommandsAgree(c: Claims, bodyHash: string)
    ensures var (d, progress) := Uninterrupted(c, bodyHash, ReadRecord, 5);
            var (keys, begun) := BeginWhole(c.keys, bodyHash, c.nextToken);
            && progress == Done(begun)
            && (d.keys == keys <==> !Poisoned(c.keys, bodyHash))
            && d.grants == if begun.Granted? then c.grants + [Grant(begun.token, bodyHash)] else c.grants
  {
    var c1, p1 := Commanded(c, bodyHash, ReadRecord), Proceed(c, bodyHash, ReadRecord);
    var c2, p2 := Commanded(c1, bodyHash, p1), Proceed(c1, bodyHash, p1);
    var c3, p3 := Commanded(c2, bodyHash, p2), Proceed(c2, bodyHash, p2);
    var c4, p4 := Commanded(c3, bodyHash, p3), Proceed(c3, bodyHash, p3);
    var c5, p5 := Commanded(c4, bodyHash, p4), Proceed(c4, bodyHash, p4);
    assert Uninterrupted(c4, bodyHash, p4, 1) == (c5, p5);
    assert Uninterrupted(c3, bodyHash, p3, 2) == (c5, p5);
    assert Uninterrupted(c2, bodyHash, p2, 3) == (c5, p5);
    assert Uninterrupted(c1, bodyHash, p1, 4) == (c5, p5);
  }

  // ---- the in-memory form

  datatype Timed<T> = Timed(value: T, expiresAt: int)

  datatype StateError = NotFound | StateConflict

  /** Both maps under one mutex; entries past their expiry stay until a call meets them. */
  class MemoryState {
    var records: map<string, Timed<Claim>>
    var fingerprints: map<string, Timed<string>>
    var nextToken: nat

    /** Under one lock the record and the fingerprint can never name different bodies. */
    ghost predicate Valid()
      reads this
    {
      forall key :: key in records && key in fingerprints ==> records[key].value.bodyHash == fingerprints[key].value
    }

    /** What is live for a beginning caller: strictly before the expiry. */
    ghost function Live(key: string, now: int): (k: Keys)
      reads this
      ensures Valid() ==> forall bodyHash :: !Poisoned(k, bodyHash)
    {
      Keys(if key in records && now < records[key].expiresAt then Some(records[key].value) else None,
           if key in fingerprints && now < fingerprints[key].expiresAt then Some(fingerprints[key].value) else None)
    }

    /** The claim that completing and forgetting still accept: up to and including the expiry. */
    ghost function Held(key: string, now: int): Option<Claim>
      reads this
    {
      if key in records && now <= records[key].expiresAt then Some(records[key].value) else None
    }

    ghost predicate OthersUnchanged(key: string, records0: map<string, Timed<Claim>>,
                                    fingerprints0: map<string, Timed<string>>)
      reads this
    {
      records - {key} == records0 - {key} && fingerprints - {key} == fingerprints0 - {key}
    }

    constructor ()
      ensures Valid() && forall key, now :: Live(key, now) == Keys(None, None)
    {
      records, fingerprints, nextToken := map[], map[], 0;
    }

    method BeginIdempotency(key: string, bodyHash: string, recordTTL: int, claimTTL: int, now: int)
      returns (begun: Begun)
      requires Valid() && recordTTL > 0 && claimTTL > 0
      modifies this
      ensures Valid() && OthersUnchanged(key, old(records), old(fingerprints))
      ensures (Live(key, now), begun) == BeginWhole(old(Live(key, now)), bodyHash, old(nextToken))
      ensures nextToken == old(nextToken) + if begun.Granted? then 1 else 0
      ensures begun.Granted? ==> records[key].expiresAt == now + claimTTL
      ensures begun.InProgress? || begun.Replay? ==>
              records == old(records) && fingerprints[key].expiresAt == now + recordTTL
    {
      if key in records && now < records[key].expiresAt {
        var record := records[key].value;
        if record.bodyHash != bodyHash {
          return Conflict;
        }
        fingerprints := fingerprints[key := Timed(record.bodyHash, now + recordTTL)];
        if record.Pending? {
          return InProgress(record.token);
        }
        return Replay(record.searchId);
      }
      records := records - {key};
      if key in fingerprints && now < fingerprints[key].expiresAt {
        if fingerprints[key].value != bodyHash {
          return Conflict;
        }
      } else {
        fingerprints := fingerprints[key := Timed(bodyHash, now + recordTTL)];
      }
      var token := nextToken;
      nextToken := nextToken + 1;
      records := records[key := Timed(Pending(bodyHash, token), now + claimTTL)];
      return Granted(token);
    }

    method CompleteIdempotency(key: string, bodyHash: string, token: nat, searchId: SearchId, ttl: int, now: int)
      returns (error: Option<StateError>)
      requires Valid() && ttl > 0
      modifies this
      ensures Valid() && OthersUnchanged(key, old(records), old(fingerprints)) && nextToken == old(nextToken)
      ensures error.None? <==> old(Held(key, now)) == Some(Pending(bodyHash, token))
      ensures error == Some(NotFound) <==> old(Held(key, now)).None?
      ensures error.None? ==> Live(key, now) == Keys(Some(Completed(bodyHash, searchId)), Some(bodyHash))
      ensures error.Some? ==> forall t :: t >= now ==> Live(key, t) == old(Live(key, t))
    {
      if key !in records || now > records[key].expiresAt {
        records := records - {key};
        return Some(NotFound);
      }
      if records[key].value != Pending(bodyHash, token) {
        return Some(StateConflict);
      }
      records := records[key := Timed(Completed(bodyHash, searchId), now + ttl)];
      fingerprints := fingerprints[key := Timed(bodyHash, now + ttl)];
      return None;
    }

    method ForgetIdempotency(key: string, token: nat, now: int) returns (error: Option<StateError>)
      requires Valid()
      modifies this
      ensures Valid() && OthersUnchanged(key, old(records), old(fingerprints)) && nextToken == old(nextToken)
      ensures error.None? <==> Holds(Keys(old(Held(key, now)), None), token)
      ensures error == Some(NotFound) <==> old(Held(key, now)).None?
      ensures error.None? ==> forall t :: Live(key, t) == Keys(None, None)
      ensures error.Some? ==> forall t :: t >= now ==> Live(key, t) == old(Live(key, t))
    {
      if key !in records || now > records[key].expiresAt {
        records := records - {key};
        return Some(NotFound);
      }
      var record := records[key].value;
      if !record.Pending? || record.token != token {
        return Some(StateConflict);
      }
      records, fingerprints := records - {key}, fingerprints - {key};
      return None;
    }
  }
}
