/** The store itself: tables that its methods update in place, and the chained event log they append to. Each method
    is tied to the transaction of module Operations that it carries out. */
module Store {
  import opened Wrappers
  import opened Text
  import opened Models
  import opened Tables
  import opened Queries
  import opened Operations
  import opened EventChain
  import opened Replay
  import opened StoreInvariants
  import opened StoreLaws

  lemma FirstIsUnique(ids: set<Id>, at: map<Id, Time>, x: Id, y: Id)
    requires ids <= at.Keys && IsFirst(ids, at, x) && IsFirst(ids, at, y)
    ensures x == y
  {
  }

  lemma LastIsUnique(ids: set<Id>, at: map<Id, Time>, x: Id, y: Id)
    requires ids <= at.Keys && IsLast(ids, at, x) && IsLast(ids, at, y)
    ensures x == y
  {
  }

  /** The rows of a query in the order it returns them: by time, then by id, each once. */
  ghost predicate InOrder(ids: seq<Id>, of: set<Id>, at: map<Id, Time>)
    requires of <= at.Keys
  {
    && (forall i :: 0 <= i < |ids| ==> ids[i] in of)
    && (forall x :: x in of ==> x in ids)
    && (forall i, j :: 0 <= i < j < |ids| ==> ids[i] != ids[j] && ids[i] in of && ids[j] in of && NoLater(at, ids[i], ids[j]))
  }

  lemma OneHolder(db: Db, key: string, a: Id, b: Id)
    requires Sound(db) && HoldsKey(db.decs, key, a) && HoldsKey(db.decs, key, b)
    ensures a == b
  {
  }

  lemma OneJudge(db: Db, did: Id, a: Id, b: Id)
    requires Sound(db) && JudgedBy(db.evid, did, a) && JudgedBy(db.evid, did, b)
    ensures a == b
  {
    assert EvidenceOk(db, a) && EvidenceOk(db, b);
  }

  /** The next row of the list is the one the specification recovers next. */
  lemma NextInOrder(conts: map<Id, Continuation>, now: Time, ids: seq<Id>)
    requires InOrder(ids, Expired(conts, now), ExpiresAt(conts)) && ids != []
    ensures Expired(conts, now) != {} && ids[0] == First(Expired(conts, now), ExpiresAt(conts))
  {
    var all, at := Expired(conts, now), ExpiresAt(conts);
    forall y | y in all ensures NoLater(at, ids[0], y) {
      var j :| 0 <= j < |ids| && ids[j] == y;
    }
    FirstIsUnique(all, at, ids[0], First(all, at));
  }

  lemma RestInOrder(db: Db, c: Id, delay: int, now: Time, ids: seq<Id>)
    requires ids != [] && ids[0] == c && c in db.conts
    requires InOrder(ids, Expired(db.conts, now), ExpiresAt(db.conts))
    ensures var next := RecoverOne(db, c, delay, now); InOrder(ids[1..], Expired(next.conts, now), ExpiresAt(next.conts))
  {
    var next := RecoverOne(db, c, delay, now);
    var rest := ids[1..];
    hide RecoverOne;
    assert forall x :: x in Expired(next.conts, now) ==> x in rest;
  }

  lemma VerdictKeeps(db: Db, did: Id, worker: Worker, token: Token, version: nat, v: Verification, to: State,
                     wake: Option<Time>, lastError: Option<string>, eid: Id, now: Time)
    requires Sound(db)
    ensures var next := After(db, RecordVerdict(db, did, worker, token, version, v, to, wake, lastError, eid, now));
            Sound(next) <==> !to.Active() || next == db
  {
    hide Agrees, LinksOk, CountsOk, TalliesOk, KeysOk, RecordVerdict, RowsOk;
    var call := DoVerdict(did, worker, token, version, v, to, wake, lastError, eid, now);
    if to.Active() {
      if Performed(db, call) != db {
        VerdictsMustRelease(db, did, worker, token, version, v, to, wake, lastError, eid, now);
      }
    } else {
      PerformKeeps(db, call);
    }
  }

  class AutonomyStore {
    const sha: Content<Entry> -> Digest
    var conts: map<Id, Continuation>
    var decs: map<Id, DecisionRow>
    var evid: map<Id, EvidenceRow>
    var events: seq<Row<Entry>>

    ghost function Snapshot(): Db
      reads this
    {
      Db(conts, decs, evid, Data(events))
    }

    ghost predicate Valid()
      reads this
    {
      Accepted(sha, events) && Sound(Snapshot())
    }

    constructor (sha: Content<Entry> -> Digest)
      ensures Valid() && this.sha == sha && Snapshot() == EMPTY
    {
      this.sha := sha;
      conts, decs, evid, events := map[], map[], map[], [];
      new;
      StoreAlwaysSound([]);
    }

    method AppendEvent(now: Time, cid: Id, actor: string, event: Event)
      requires Accepted(sha, events)
      modifies this`events
      ensures Accepted(sha, events) && Data(events) == old(Data(events)) + [Entry(now, cid, actor, event)]
    {
      AppendKeeps(sha, events, Entry(now, cid, actor, event));
      events := Append(sha, events, Entry(now, cid, actor, event));
    }

    /** `verify_event_chain`: the store's own log always passes. */
    method VerifyEventChain() returns (r: Result<Option<Digest>, ChainError>)
      requires Valid()
      ensures r == Success(Head(events))
    {
      r := Verify(sha, events);
    }

    // ---- queries ----

    method FindDue(now: Time) returns (best: Option<Id>)
      ensures best.Some? ==> FirstDue(conts, now, best.value)
      ensures best.None? ==> forall c :: c in conts ==> !Due(conts[c], now)
      ensures best.Some? ==>
        && (conts[best.value].state == READY || conts[best.value].state == WAITING)
        && (conts[best.value].wake.None? || conts[best.value].wake.value <= now)
        && forall c :: c in conts && c != best.value && (conts[c].state == READY || conts[c].state == WAITING)
                       && (conts[c].wake.None? || conts[c].wake.value <= now)
                       && (conts[c].expires.None? || conts[c].expires.value <= now) ==>
             || conts[best.value].step < conts[c].step
             || (conts[best.value].step == conts[c].step
                 && (conts[best.value].created < conts[c].created
                     || (conts[best.value].created == conts[c].created && best.value < c)))
    {
      best := None;
      var rest := conts.Keys;
      while rest != {}
        invariant rest <= conts.Keys
        invariant best.Some? ==> best.value in conts && Due(conts[best.value], now)
        invariant forall c :: c in conts && c !in rest && Due(conts[c], now) ==>
                    best.Some? && ClaimsBefore(conts, best.value, c)
      {
        var c :| c in rest;
        if Due(conts[c], now) && (best.None? || !ClaimsBefore(conts, best.value, c)) { best := Some(c); }
        rest := rest - {c};
      }
    }

    method PendingDecision(cid: Id) returns (best: Option<Id>)
      ensures best == LatestPending(decs, cid)
      ensures best.None? <==> forall d :: d in decs && decs[d].cid == cid ==> decs[d].status == VERIFIED
      ensures best.Some? ==>
        && best.value in decs && decs[best.value].cid == cid && decs[best.value].status != VERIFIED
        && forall d :: d in decs && d != best.value && decs[d].cid == cid && decs[d].status != VERIFIED ==>
             || decs[d].created < decs[best.value].created
             || (decs[d].created == decs[best.value].created && d < best.value)
    {
      best := None;
      var rest := decs.Keys;
      ghost var ids, at := PendingIds(decs, cid), CreatedAt(decs);
      while rest != {}
        invariant rest <= decs.Keys
        invariant best.Some? ==> best.value in ids
        invariant forall d :: d in ids && d !in rest ==> best.Some? && NoLater(at, d, best.value)
      {
        var d :| d in rest;
        if decs[d].cid == cid && decs[d].status.Pending()
           && (best.None? || decs[best.value].created < decs[d].created
               || (decs[best.value].created == decs[d].created && best.value <= d))
        {
          best := Some(d);
        }
        rest := rest - {d};
      }
      assert forall d :: d in decs && decs[d].cid == cid && decs[d].status != VERIFIED ==> d in ids;
      assert forall d :: d in ids ==> NoLater(at, d, best.value);
      if best.Some? { LastIsUnique(ids, at, best.value, Last(ids, at)); }
    }

    method NewestEvidence(cid: Id) returns (best: Option<Id>)
      ensures best == LatestEvidence(evid, cid)
      ensures best.None? <==> forall e :: e in evid ==> evid[e].cid != cid
      ensures best.Some? ==>
        && best.value in evid && evid[best.value].cid == cid
        && forall e :: e in evid && e != best.value && evid[e].cid == cid ==>
             || evid[e].created < evid[best.value].created
             || (evid[e].created == evid[best.value].created && e < best.value)
    {
      best := None;
      var rest := evid.Keys;
      ghost var ids, at := EvidenceIds(evid, cid), EvidenceAt(evid);
      while rest != {}
        invariant rest <= evid.Keys
        invariant best.Some? ==> best.value in ids
        invariant forall e :: e in ids && e !in rest ==> best.Some? && NoLater(at, e, best.value)
      {
        var e :| e in rest;
        if evid[e].cid == cid
           && (best.None? || evid[best.value].created < evid[e].created
               || (evid[best.value].created == evid[e].created && best.value <= e))
        {
          best := Some(e);
        }
        rest := rest - {e};
      }
      assert forall e :: e in evid && evid[e].cid == cid ==> e in ids;
      assert forall e :: e in ids ==> NoLater(at, e, best.value);
      if best.Some? { LastIsUnique(ids, at, best.value, Last(ids, at)); }
    }

    method FindKey(key: string) returns (found: Option<Id>)
      ensures found.Some? ==> HoldsKey(decs, key, found.value)
      ensures found.None? ==> forall d :: !HoldsKey(decs, key, d)
    {
      var rest := decs.Keys;
      while rest != {}
        invariant rest <= decs.Keys
        invariant forall d :: d in decs && d !in rest ==> decs[d].key != key
      {
        var d :| d in rest;
        if decs[d].key == key { return Some(d); }
        rest := rest - {d};
      }
      return None;
    }

    method FindEvidence(did: Id) returns (found: Option<Id>)
      ensures found.Some? ==> JudgedBy(evid, did, found.value)
      ensures found.None? ==> forall e :: !JudgedBy(evid, did, e)
    {
      var rest := evid.Keys;
      while rest != {}
        invariant rest <= evid.Keys
        invariant forall e :: e in evid && e !in rest ==> evid[e].did != did
      {
        var e :| e in rest;
        if evid[e].did == did { return Some(e); }
        rest := rest - {e};
      }
      return None;
    }

    method HasPassEvidence(cid: Id) returns (yes: bool)
      ensures yes == HasPass(evid, cid)
    {
      var rest := evid.Keys;
      while rest != {}
        invariant rest <= evid.Keys
        invariant forall e :: e in evid && e !in rest ==> evid[e].cid != cid || evid[e].verification.verdict != PASS
      {
        var e :| e in rest;
        if evid[e].cid == cid && evid[e].verification.verdict == PASS { return true; }
        rest := rest - {e};
      }
      return false;
    }
  
    // ---- transactions ----

    method Admit(cid: Id, maxAttempts: int, actor: string, now: Time) returns (r: Result<Reply, Err>)
      requires Valid()
      modifies this
      ensures Valid()
      ensures var o := Operations.Admit(old(Snapshot()), cid, maxAttempts, actor, now);
              Snapshot() == After(old(Snapshot()), o) && r == Answer(o)
    {
      hide Sound;
      PerformKeeps(Snapshot(), DoAdmit(cid, maxAttempts, actor, now));
      if maxAttempts < 1 { return Failure(BadValue); }
      if cid in conts { return Failure(IntegrityError); }
      conts := conts[cid := Continuation(READY, 1, 0, 0, maxAttempts, None, None, None, None, None, None, now)];
      AppendEvent(now, cid, actor, ContinuationCreated(maxAttempts));
      return Success(Plain);
    }

    /** `claim_due_continuation`: the first due row, leased under a fresh token, or nothing when no row is due. */
    method ClaimDue(worker: Worker, token: Token, lease: int, now: Time) returns (r: Result<Option<Id>, Err>)
      requires Valid()
      modifies this
      ensures Valid()
      ensures r.Failure? <==> Blank(worker)
      ensures r.Failure? ==> r.error == BadValue && Snapshot() == old(Snapshot())
      ensures r == Success(None) ==> Snapshot() == old(Snapshot()) && forall c :: c in conts ==> !Due(conts[c], now)
      ensures r.Success? && r.value.Some? ==>
        && FirstDue(old(conts), now, r.value.value)
        && Claim(old(Snapshot()), r.value.value, worker, token, lease, now) == Committed(Snapshot(), Plain)
    {
      hide Sound;
      if Blank(worker) { return Failure(BadValue); }
      var found := FindDue(now);
      if found.None? { return Success(None); }
      var c := found.value;
      PerformKeeps(Snapshot(), DoClaim(c, worker, token, lease, now));
      var row := conts[c];
      conts := conts[c := row.(state := RUNNING, version := row.version + 1, owner := Some(worker), token := Some(token),
                               expires := Some(Later(now, lease)), heartbeat := Some(now), wake := None)];
      AppendEvent(now, c, worker, LeaseAcquired(Later(now, lease), row.state));
      return Success(found);
    }

    method RenewLease(cid: Id, worker: Worker, token: Token, lease: int, record: bool, now: Time)
      returns (r: Result<Reply, Err>)
      requires Valid()
      modifies this
      ensures Valid()
      ensures var o := Renew(old(Snapshot()), cid, worker, token, lease, record, now);
              Snapshot() == After(old(Snapshot()), o) && r == Answer(o)
    {
      hide Sound;
      PerformKeeps(Snapshot(), DoRenew(cid, worker, token, lease, record, now));
      if cid !in conts { return Failure(LeaseLost); }
      var row := conts[cid];
      if || row.owner != Some(worker) || row.token != Some(token) || row.expires.None? || row.expires.value <= now
         || !row.state.Active()
      {
        return Failure(LeaseLost);
      }
      conts := conts[cid := row.(expires := Some(Later(now, lease)), heartbeat := Some(now))];
      if record { AppendEvent(now, cid, worker, LeaseRenewed(Later(now, lease))); }
      return Success(Plain);
    }

    method MarkExhausted(cid: Id, worker: Worker, token: Token, version: nat, reason: string, now: Time)
      returns (r: Result<Reply, Err>)
      requires Valid()
      modifies this
      ensures Valid()
      ensures var o := Operations.MarkExhausted(old(Snapshot()), cid, worker, token, version, reason, now);
              Snapshot() == After(old(Snapshot()), o) && r == Answer(o)
    {
      hide Sound;
      PerformKeeps(Snapshot(), DoExhaust(cid, worker, token, version, reason, now));
      var owned := OwnedRow(conts, cid, worker, token, version, now);
      if owned.Failure? { return Failure(owned.error); }
      var row := owned.value;
      if EXHAUSTED !in Allowed(row.state) { return Failure(InvalidTransition); }
      conts := conts[cid := Released(row).(state := EXHAUSTED, version := row.version + 1, wake := None,
                                           lastError := Some(reason))];
      AppendEvent(now, cid, worker, ContinuationExhausted(row.state, EXHAUSTED, reason));
      return Success(Plain);
    }

    method MarkExecutionStarted(did: Id, worker: Worker, token: Token, version: nat, now: Time)
      returns (r: Result<Reply, Err>)
      requires Valid()
      modifies this
      ensures Valid()
      ensures var o := MarkStarted(old(Snapshot()), did, worker, token, version, now);
              Snapshot() == After(old(Snapshot()), o) && r == Answer(o)
    {
      hide Sound;
      PerformKeeps(Snapshot(), DoStart(did, worker, token, version, now));
      if did !in decs { return Failure(NotFound); }
      var d := decs[did];
      var owned := OwnedRow(conts, d.cid, worker, token, version, now);
      if owned.Failure? { return Failure(owned.error); }
      var row := owned.value;
      if d.status == EXECUTING { return Success(Plain); }
      if d.status != RESERVED { return Failure(OtherAutonomyError); }
      decs := decs[did := d.(status := EXECUTING)];
      conts := conts[d.cid := row.(version := row.version + 1)];
      AppendEvent(now, d.cid, worker, ExecutionStarted(did));
      return Success(Plain);
    }

    method RecordExecution(did: Id, worker: Worker, token: Token, version: nat, result: CapabilityResult, now: Time)
      returns (r: Result<Reply, Err>)
      requires Valid()
      modifies this
      ensures Valid()
      ensures var o := Operations.RecordExecution(old(Snapshot()), did, worker, token, version, result, now);
              Snapshot() == After(old(Snapshot()), o) && r == Answer(o)
    {
      hide Sound;
      PerformKeeps(Snapshot(), DoRecord(did, worker, token, version, result, now));
      if did !in decs { return Failure(NotFound); }
      var d := decs[did];
      var owned := OwnedRow(conts, d.cid, worker, token, version, now);
      if owned.Failure? { return Failure(owned.error); }
      var row := owned.value;
      if d.status == EXECUTED {
        if d.result != Some(result) { return Failure(OtherAutonomyError); }
        return Success(Plain);
      }
      if d.status != RESERVED && d.status != EXECUTING { return Failure(OtherAutonomyError); }
      decs := decs[did := d.(status := EXECUTED, result := Some(result), recovery := false)];
      conts := conts[d.cid := row.(state := VERIFYING, version := row.version + 1)];
      AppendEvent(now, d.cid, worker, CapabilityExecuted(did, result));
      return Success(Plain);
    }

    method CancelContinuation(cid: Id, actor: string, now: Time) returns (r: Result<Reply, Err>)
      requires Valid()
      modifies this
      ensures Valid()
      ensures var o := Operations.CancelContinuation(old(Snapshot()), cid, actor, now);
              Snapshot() == After(old(Snapshot()), o) && r == Answer(o)
    {
      hide Sound;
      PerformKeeps(Snapshot(), DoCancel(cid, actor, now));
      if cid !in conts { return Failure(NotFound); }
      var row := conts[cid];
      if row.state.Terminal() { return Success(Plain); }
      conts := conts[cid := Released(row).(state := CANCELLED, version := row.version + 1, wake := None)];
      AppendEvent(now, cid, actor, ContinuationCancelled(row.state));
      return Success(Plain);
    }
  
    /** `reserve_decision`; `digest` and `did` are the two hashes it computes. */
    method ReserveDecision(cid: Id, worker: Worker, token: Token, version: nat, decision: Decision, digest: string,
                           did: Id, now: Time) returns (r: Result<Reply, Err>)
      requires Valid()
      modifies this
      ensures Valid()
      ensures var o := Reserve(old(Snapshot()), cid, worker, token, version, decision, digest, did, now);
              Snapshot() == After(old(Snapshot()), o) && r == Answer(o)
    {
      hide Sound, Normalized, AsDict;
      PerformKeeps(Snapshot(), DoReserve(cid, worker, token, version, decision, digest, did, now));
      var cleaned := Normalized(decision);
      if cleaned.Failure? { return Failure(BadValue); }
      var item := cleaned.value;
      if item.kind != Enum(EXECUTE) { return Failure(BadValue); }
      CleanedKind(decision);
      var key, payload := ReservationKey(item, digest), ReservedPayload(item, digest);
      var owned := OwnedRow(conts, cid, worker, token, version, now);
      if owned.Failure? { return Failure(owned.error); }
      var row := owned.value;
      var existing := FindKey(key);
      if existing.Some? {
        var d := existing.value;
        forall o | HoldsKey(decs, key, o) ensures o == d { OneHolder(Snapshot(), key, o, d); }
        if decs[d].cid != cid || decs[d].payload != payload { return Failure(IdempotencyConflict); }
        return Success(Reservation(d, false));
      }
      if row.attempts >= row.maxAttempts { return Failure(AttemptBudgetExceeded); }
      if did in decs { return Failure(IntegrityError); }
      var d := DecisionRow(cid, row.step, EXECUTE, item.capability, payload, key, RESERVED, None, false, None, now);
      decs := decs[did := d];
      conts := conts[cid := row.(version := row.version + 1, attempts := row.attempts + 1)];
      AppendEvent(now, cid, worker, DecisionReserved(did, key, item.capability));
      return Success(Reservation(did, true));
    }

    /** `record_verdict`; `eid` is the hash it computes. A target state that somebody has to be working on, which its
        one caller never passes, leaves the tables unsound. */
    method RecordVerdict(did: Id, worker: Worker, token: Token, version: nat, v: Verification, to: State,
                         wake: Option<Time>, lastError: Option<string>, eid: Id, now: Time) returns (r: Result<Reply, Err>)
      requires Valid()
      modifies this
      ensures Valid() <==> !to.Active() || Snapshot() == old(Snapshot())
      ensures var o := Operations.RecordVerdict(old(Snapshot()), did, worker, token, version, v, to, wake, lastError, eid,
                                                now);
              Snapshot() == After(old(Snapshot()), o) && r == Answer(o)
    {
      hide Sound, Allowed;
      VerdictKeeps(Snapshot(), did, worker, token, version, v, to, wake, lastError, eid, now);
      if did !in decs { return Failure(NotFound); }
      var d := decs[did];
      var owned := OwnedRow(conts, d.cid, worker, token, version, now);
      if owned.Failure? { return Failure(owned.error); }
      var row := owned.value;
      var existing := FindEvidence(did);
      if existing.Some? {
        forall e | JudgedBy(evid, did, e) ensures e == existing.value { OneJudge(Snapshot(), did, e, existing.value); }
        if evid[existing.value].verification != v { return Failure(OtherAutonomyError); }
        return Success(Plain);
      }
      if d.status != EXECUTED { return Failure(OtherAutonomyError); }
      if to !in Allowed(row.state) { return Failure(InvalidTransition); }
      if eid in evid { return Failure(IntegrityError); }
      evid := evid[eid := EvidenceRow(d.cid, did, v, now)];
      decs := decs[did := d.(status := VERIFIED, evidence := Some(eid), recovery := false)];
      conts := conts[d.cid := Released(row).(state := to, version := row.version + 1, step := row.step + 1, wake := wake,
                                             lastError := lastError)];
      AppendEvent(now, d.cid, v.verifierId, VerdictRecorded(eid, did, v.verdict, to, v.summary));
      return Success(Plain);
    }

    /** `apply_non_execution_decision`; `did` and `didText` are the id it derives. */
    method ApplyNonExecution(cid: Id, worker: Worker, token: Token, version: nat, decision: Decision, did: Id,
                             didText: string, now: Time) returns (r: Result<Reply, Err>)
      requires Valid()
      modifies this
      ensures Valid()
      ensures var o := ApplyPlain(old(Snapshot()), cid, worker, token, version, decision, did, didText, now);
              Snapshot() == After(old(Snapshot()), o) && r == Answer(o)
    {
      hide Sound, Normalized, AsDict;
      PerformKeeps(Snapshot(), DoApply(cid, worker, token, version, decision, did, didText, now));
      var cleaned := Normalized(decision);
      if cleaned.Failure? { return Failure(BadValue); }
      var item := cleaned.value;
      if item.kind == Enum(EXECUTE) { return Failure(BadValue); }
      CleanedKind(decision);
      var kind, key, payload := item.kind.kind, PlainKey(item, didText), AsDict(item).value;
      var owned := OwnedRow(conts, cid, worker, token, version, now);
      if owned.Failure? { return Failure(owned.error); }
      var row := owned.value;
      if kind == FINISH && !PassEvidence(evid, item.evidenceId, cid) { return Failure(VerificationRequired); }
      var holder := FindKey(key);
      if did in decs || holder.Some? { return Failure(IntegrityError); }
      var to, wake := Destination(kind), WakeAfter(item, now);
      decs := decs[did := DecisionRow(cid, row.step, kind, None, payload, key, VERIFIED, None, false, item.evidenceId, now)];
      conts := conts[cid := Released(row).(
        state := to, version := row.version + 1, step := row.step + 1, wake := wake,
        lastError := if to == BLOCKED || to == CANCELLED then Some(item.reason) else None)];
      AppendEvent(now, cid, worker, DecisionTaken(did, kind, to, item.evidenceId, wake, item.reason));
      return Success(Plain);
    }

    /** The rows that `recover_expired_leases` fetches, in its order. */
    method ExpiredInOrder(now: Time) returns (ids: seq<Id>)
      ensures InOrder(ids, Expired(conts, now), ExpiresAt(conts))
    {
      ids := [];
      var rest := Expired(conts, now);
      ghost var all, at := Expired(conts, now), ExpiresAt(conts);
      while rest != {}
        invariant rest <= all
        invariant forall i :: 0 <= i < |ids| ==> ids[i] in all && ids[i] !in rest
        invariant forall x :: x in all ==> x in rest || x in ids
        invariant forall i, y :: 0 <= i < |ids| && y in rest ==> ids[i] in all && NoLater(at, ids[i], y)
        invariant forall i, j :: 0 <= i < j < |ids| ==>
                    ids[i] != ids[j] && ids[i] in all && ids[j] in all && NoLater(at, ids[i], ids[j])
      {
        var c := Earliest(rest);
        ids := ids + [c];
        rest := rest - {c};
      }
    }

    method Earliest(ids: set<Id>) returns (c: Id)
      requires ids != {} && ids <= conts.Keys
      ensures IsFirst(ids, ExpiresAt(conts), c)
    {
      ghost var at := ExpiresAt(conts);
      c :| c in ids;
      var rest := ids - {c};
      while rest != {}
        invariant rest <= ids && c in ids
        invariant forall y :: y in ids && y !in rest ==> NoLater(at, c, y)
      {
        var x :| x in rest;
        var a := if conts[x].expires.Some? then conts[x].expires.value else 0;
        var b := if conts[c].expires.Some? then conts[c].expires.value else 0;
        if a < b || (a == b && x <= c) { c := x; }
        rest := rest - {x};
      }
    }
  
    /** One turn of the recovery loop. */
    method RecoverRow(cid: Id, delay: int, now: Time)
      requires Valid() && cid in Expired(conts, now)
      modifies this
      ensures Valid()
      ensures Snapshot() == RecoverOne(old(Snapshot()), cid, delay, now)
    {
      hide Sound, HasPass, LatestPending;
      RecoverOneKeeps(Snapshot(), cid, delay, now);
      var row := conts[cid];
      var pending := PendingDecision(cid);
      var status := None;
      if pending.Some? {
        LatestIsPending(decs, cid);
        status := Some(decs[pending.value].status);
        if status.value == RESERVED || status.value == EXECUTING {
          decs := decs[pending.value := decs[pending.value].(recovery := true)];
        }
      }
      var hasPass := HasPassEvidence(cid);
      var to, wake, error := READY, Some(Later(now, delay)), "worker lease expired";
      if row.attempts >= row.maxAttempts && pending.None? && !hasPass {
        to, wake, error := EXHAUSTED, None, "attempt budget exhausted after lease expiry";
      }
      conts := conts[cid := Released(row).(state := to, version := row.version + 1, wake := wake, lastError := Some(error))];
      AppendEvent(now, cid, "recovery", LeaseExpired(row.owner, row.state, to, status));
    }

    /** `recover_expired_leases`: the rows it recovered, in the order of their expiry. */
    method RecoverExpiredLeases(delay: int, now: Time) returns (recovered: seq<Id>)
      requires Valid()
      modifies this
      ensures Valid()
      ensures Snapshot() == Recover(old(Snapshot()), delay, now)
      ensures InOrder(recovered, Expired(old(conts), now), ExpiresAt(old(conts)))
    {
      hide Sound, RecoverOne, InOrder;
      var ids := ExpiredInOrder(now);
      var i := 0;
      assert ids[0..] == ids;
      while i < |ids|
        invariant 0 <= i <= |ids|
        invariant Valid()
        invariant Recover(Snapshot(), delay, now) == Recover(old(Snapshot()), delay, now)
        invariant InOrder(ids[i..], Expired(conts, now), ExpiresAt(conts))
      {
        NextInOrder(conts, now, ids[i..]);
        RestInOrder(Snapshot(), ids[i], delay, now, ids[i..]);
        assert ids[i..][1..] == ids[i + 1..];
        RecoverRow(ids[i], delay, now);
        i := i + 1;
      }
      assert ids[i..] == [];
      NothingLeft(conts, now);
      return ids;
    }
  }

  lemma LatestIsPending(decs: map<Id, DecisionRow>, cid: Id)
    requires LatestPending(decs, cid).Some?
    ensures LatestPending(decs, cid).value in decs
  {
    assert LatestPending(decs, cid).value in PendingIds(decs, cid);
  }

  lemma NothingLeft(conts: map<Id, Continuation>, now: Time)
    requires InOrder([], Expired(conts, now), ExpiresAt(conts))
    ensures Expired(conts, now) == {}
  {
  }
}
