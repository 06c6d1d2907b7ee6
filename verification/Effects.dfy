/** The effect of every store call, flattened: what held before it and what it wrote. */
module Effects {
  import opened Wrappers
  import opened Models
  import opened Tables
  import opened Queries
  import opened Operations

  /** What recovery makes of one row, and whether the row was its business at all. */
  ghost predicate RecoveredRow(db: Db, c: Id, delay: int, now: Time, r: Continuation)
    requires c in db.conts
  {
    var old_ := db.conts[c];
    if c !in Expired(db.conts, now) then r == old_ else
    && (r.state == READY || (r.state == EXHAUSTED && old_.attempts >= old_.maxAttempts))
    && r == Released(old_).(state := r.state, version := old_.version + 1, wake := r.wake, lastError := r.lastError)
  }

  /** Recovery touches the recovery flag of unfinished decisions of the expired rows, and no other column. */
  predicate RecoveredDecision(db: Db, now: Time, old_: DecisionRow, d: DecisionRow) {
    d == old_ || (d == old_.(recovery := true) && (old_.status == RESERVED || old_.status == EXECUTING)
                  && old_.cid in Expired(db.conts, now))
  }

  ghost predicate RecoveredSoFar(db: Db, delay: int, now: Time, d: Db) {
    && d.conts.Keys == db.conts.Keys && d.decs.Keys == db.decs.Keys && d.evid == db.evid
    && (forall c :: c in db.conts ==> d.conts[c] == db.conts[c] || RecoveredRow(db, c, delay, now, d.conts[c]))
    && (forall c :: c in db.conts && c !in Expired(d.conts, now) ==> RecoveredRow(db, c, delay, now, d.conts[c]))
    && (forall x :: x in db.decs ==> RecoveredDecision(db, now, db.decs[x], d.decs[x]))
    && |db.log| <= |d.log| && db.log == d.log[..|db.log|]
    && (forall i :: |db.log| <= i < |d.log| ==> d.log[i].event.LeaseExpired?)
  }

  lemma RecoverOneDecision(d: Db, c: Id, delay: int, now: Time, x: Id)
    requires c in Expired(d.conts, now) && x in d.decs
    ensures var next := RecoverOne(d, c, delay, now);
            && x in next.decs
            && (next.decs[x] == d.decs[x]
                || (next.decs[x] == d.decs[x].(recovery := true) && d.decs[x].cid == c
                    && (d.decs[x].status == RESERVED || d.decs[x].status == EXECUTING)))
  {
  }

  lemma RecoverOneRow(d: Db, c: Id, delay: int, now: Time)
    requires c in Expired(d.conts, now)
    ensures var next := RecoverOne(d, c, delay, now);
            && next.conts.Keys == d.conts.Keys && next.decs.Keys == d.decs.Keys && next.evid == d.evid
            && c in next.conts && next.conts == d.conts[c := next.conts[c]]
            && RecoveredRow(d, c, delay, now, next.conts[c])
            && |next.log| == |d.log| + 1 && next.log[..|d.log|] == d.log && next.log[|d.log|].event.LeaseExpired?
  {
  }

  lemma RecoverOneSoFar(db: Db, delay: int, now: Time, d: Db, c: Id)
    requires RecoveredSoFar(db, delay, now, d) && c in Expired(d.conts, now)
    ensures RecoveredSoFar(db, delay, now, RecoverOne(d, c, delay, now))
  {
    hide RecoverOne, Released;
    var next := RecoverOne(d, c, delay, now);
    RecoverOneRow(d, c, delay, now);
    forall x | x in db.decs ensures RecoveredDecision(db, now, db.decs[x], next.decs[x]) {
      RecoverOneDecision(d, c, delay, now, x);
      assert RecoveredDecision(db, now, db.decs[x], d.decs[x]);
    }
    assert d.conts[c] == db.conts[c];
    assert next.log[..|db.log|] == d.log[..|db.log|];
  }

  /** The whole effect of `recover_expired_leases`, row by row. */
  lemma RecoverEffect(db: Db, delay: int, now: Time)
    ensures RecoveredSoFar(db, delay, now, Recover(db, delay, now))
    ensures Expired(Recover(db, delay, now).conts, now) == {}
  {
    assert RecoveredSoFar(db, delay, now, db);
    forall d: Db, c | RecoveredSoFar(db, delay, now, d) && c in Expired(d.conts, now)
      ensures RecoveredSoFar(db, delay, now, RecoverOne(d, c, delay, now))
    {
      RecoverOneSoFar(db, delay, now, d, c);
    }
    RecoverKeeps(db, delay, now, (d: Db) => RecoveredSoFar(db, delay, now, d));
    RecoverEmpties(db, delay, now);
  }

  /** No lease that recovery at an instant leaves behind has run out at that instant. */
  lemma {:induction false} RecoverEmpties(db: Db, delay: int, now: Time)
    ensures Expired(Recover(db, delay, now).conts, now) == {}
    decreases |Expired(db.conts, now)|
  {
    var ids := Expired(db.conts, now);
    if ids != {} { RecoverEmpties(RecoverOne(db, First(ids, ExpiresAt(db.conts)), delay, now), delay, now); }
  }

  /** The row is leased to the worker under the token, and the lease has not run out. */
  predicate HeldBy(db: Db, c: Id, w: Worker, t: Token, v: nat, now: Time) {
    && c in db.conts && db.conts[c].version == v && db.conts[c].state.Active()
    && db.conts[c].owner == Some(w) && db.conts[c].token == Some(t)
    && db.conts[c].expires.Some? && now < db.conts[c].expires.value
  }

  /** `next` is `db` with one row changed and one event added. */
  predicate Logged(db: Db, next: Db, c: Id, r: Continuation, e: Event) {
    && next.conts == db.conts[c := r]
    && |next.log| == |db.log| + 1 && next.log[..|db.log|] == db.log
    && next.log[|db.log|].cid == c && next.log[|db.log|].event == e
  }

  ghost predicate AdmitWrote(db: Db, c: Id, m: int, now: Time, next: Db) {
    && c !in db.conts && m >= 1 && next.decs == db.decs && next.evid == db.evid
    && Logged(db, next, c, Continuation(READY, 1, 0, 0, m, None, None, None, None, None, None, now),
              ContinuationCreated(m))
  }

  ghost predicate ClaimWrote(db: Db, c: Id, w: Worker, t: Token, expires: Time, now: Time, next: Db) {
    && c in db.conts && Due(db.conts[c], now) && next.decs == db.decs && next.evid == db.evid
    && Logged(db, next, c,
              db.conts[c].(state := RUNNING, version := db.conts[c].version + 1, owner := Some(w), token := Some(t),
                           wake := None, expires := Some(expires), heartbeat := Some(now)),
              LeaseAcquired(expires, db.conts[c].state))
  }

  ghost predicate RenewWrote(db: Db, c: Id, w: Worker, t: Token, expires: Time, record: bool, now: Time, next: Db) {
    && c in db.conts && HeldBy(db, c, w, t, db.conts[c].version, now)
    && next.decs == db.decs && next.evid == db.evid
    && var r := db.conts[c].(expires := Some(expires), heartbeat := Some(now));
    && (if record then Logged(db, next, c, r, LeaseRenewed(expires))
        else next.conts == db.conts[c := r] && next.log == db.log)
  }

  ghost predicate ExhaustWrote(db: Db, c: Id, w: Worker, t: Token, v: nat, reason: string, now: Time, next: Db) {
    && HeldBy(db, c, w, t, v, now) && next.decs == db.decs && next.evid == db.evid
    && Logged(db, next, c,
              Released(db.conts[c]).(state := EXHAUSTED, version := v + 1, wake := None, lastError := Some(reason)),
              ContinuationExhausted(db.conts[c].state, EXHAUSTED, reason))
  }

  ghost predicate ReserveWrote(db: Db, c: Id, w: Worker, t: Token, v: nat, capability: Option<string>, payload: Payload,
                               key: string, did: Id, now: Time, next: Db)
  {
    && HeldBy(db, c, w, t, v, now) && did !in db.decs && next.evid == db.evid
    && var r := db.conts[c];
    && r.attempts < r.maxAttempts && (forall o :: !HoldsKey(db.decs, key, o))
    && next.decs == db.decs[did := DecisionRow(c, r.step, EXECUTE, capability, payload, key, RESERVED, None, false,
                                               None, now)]
    && Logged(db, next, c, r.(version := v + 1, attempts := r.attempts + 1), DecisionReserved(did, key, capability))
  }

  ghost predicate ApplyWrote(db: Db, c: Id, w: Worker, t: Token, v: nat, item: Decision, payload: Payload, did: Id,
                             key: string, now: Time, next: Db)
    requires item.kind.Enum?
  {
    && HeldBy(db, c, w, t, v, now) && did !in db.decs && next.evid == db.evid
    && var r, kind, to := db.conts[c], item.kind.kind, Destination(item.kind.kind);
    && (kind == FINISH ==> PassEvidence(db.evid, item.evidenceId, c))
    && (forall o :: !HoldsKey(db.decs, key, o))
    && next.decs == db.decs[did := DecisionRow(c, r.step, kind, None, payload, key, VERIFIED, None, false,
                                               item.evidenceId, now)]
    && Logged(db, next, c,
              Released(r).(state := to, version := v + 1, step := r.step + 1, wake := WakeAfter(item, now),
                           lastError := if to == BLOCKED || to == CANCELLED then Some(item.reason) else None),
              DecisionTaken(did, kind, to, item.evidenceId, WakeAfter(item, now), item.reason))
  }

  ghost predicate StartWrote(db: Db, did: Id, w: Worker, t: Token, v: nat, now: Time, next: Db) {
    && did in db.decs && HeldBy(db, db.decs[did].cid, w, t, v, now) && next.evid == db.evid
    && db.decs[did].status == RESERVED
    && next.decs == db.decs[did := db.decs[did].(status := EXECUTING)]
    && Logged(db, next, db.decs[did].cid, db.conts[db.decs[did].cid].(version := v + 1), ExecutionStarted(did))
  }

  ghost predicate RecordWrote(db: Db, did: Id, w: Worker, t: Token, v: nat, result: CapabilityResult, now: Time,
                              next: Db) {
    && did in db.decs && HeldBy(db, db.decs[did].cid, w, t, v, now) && next.evid == db.evid
    && (db.decs[did].status == RESERVED || db.decs[did].status == EXECUTING)
    && next.decs == db.decs[did := db.decs[did].(status := EXECUTED, result := Some(result), recovery := false)]
    && Logged(db, next, db.decs[did].cid, db.conts[db.decs[did].cid].(state := VERIFYING, version := v + 1),
              CapabilityExecuted(did, result))
  }

  ghost predicate VerdictWrote(db: Db, did: Id, w: Worker, t: Token, v: nat, judged: Verification, to: State,
                               wake: Option<Time>, err: Option<string>, eid: Id, now: Time, next: Db)
  {
    && did in db.decs && HeldBy(db, db.decs[did].cid, w, t, v, now)
    && db.decs[did].status == EXECUTED && eid !in db.evid && (forall e :: !JudgedBy(db.evid, did, e))
    && var c, r := db.decs[did].cid, db.conts[db.decs[did].cid];
    && to in Allowed(r.state)
    && next.decs == db.decs[did := db.decs[did].(status := VERIFIED, evidence := Some(eid), recovery := false)]
    && next.evid == db.evid[eid := EvidenceRow(c, did, judged, now)]
    && Logged(db, next, c,
              Released(r).(state := to, version := v + 1, step := r.step + 1, wake := wake, lastError := err),
              VerdictRecorded(eid, did, judged.verdict, to, judged.summary))
  }

  ghost predicate CancelWrote(db: Db, c: Id, next: Db) {
    && c in db.conts && !db.conts[c].state.Terminal() && next.decs == db.decs && next.evid == db.evid
    && Logged(db, next, c,
              Released(db.conts[c]).(state := CANCELLED, version := db.conts[c].version + 1, wake := None),
              ContinuationCancelled(db.conts[c].state))
  }

  /** What a call that changes the database finds and writes. */
  ghost predicate Wrote(db: Db, call: Call, next: Db) {
    match call
    case DoAdmit(c, m, _, now) => AdmitWrote(db, c, m, now, next)
    case DoClaim(c, w, t, lease, now) => ClaimWrote(db, c, w, t, Later(now, lease), now, next)
    case DoRenew(c, w, t, lease, record, now) => RenewWrote(db, c, w, t, Later(now, lease), record, now, next)
    case DoExhaust(c, w, t, v, reason, now) => ExhaustWrote(db, c, w, t, v, reason, now, next)
    case DoRecover(delay, now) => RecoveredSoFar(db, delay, now, next) && Expired(next.conts, now) == {}
    case DoReserve(c, w, t, v, decision, digest, did, now) =>
      && Normalized(decision).Success?
      && var item := Normalized(decision).value;
      && item.kind == Enum(EXECUTE) && AsDict(item).Success?
      && ReserveWrote(db, c, w, t, v, item.capability, ReservedPayload(item, digest), ReservationKey(item, digest), did,
                      now, next)
    case DoStart(did, w, t, v, now) => StartWrote(db, did, w, t, v, now, next)
    case DoRecord(did, w, t, v, result, now) => RecordWrote(db, did, w, t, v, result, now, next)
    case DoVerdict(did, w, t, v, judged, to, wake, err, eid, now) =>
      VerdictWrote(db, did, w, t, v, judged, to, wake, err, eid, now, next)
    case DoApply(c, w, t, v, decision, did, text, now) =>
      && Normalized(decision).Success?
      && var item := Normalized(decision).value;
      && item.kind.Enum? && item.kind != Enum(EXECUTE) && AsDict(item).Success?
      && ApplyWrote(db, c, w, t, v, item, AsDict(item).value, did, PlainKey(item, text), now, next)
    case DoCancel(c, _, now) => CancelWrote(db, c, next)
  }

  lemma ReserveKeyedEffect(db: Db, c: Id, w: Worker, t: Token, v: nat, capability: Option<string>, payload: Payload,
                           key: string, did: Id, now: Time)
    ensures var next := After(db, ReserveKeyed(db, c, w, t, v, capability, payload, key, did, now));
            next == db || ReserveWrote(db, c, w, t, v, capability, payload, key, did, now, next)
  {
  }

  lemma ApplyItemEffect(db: Db, c: Id, w: Worker, t: Token, v: nat, item: Decision, payload: Payload, did: Id,
                        key: string, now: Time)
    requires item.kind.Enum?
    ensures var next := After(db, ApplyItem(db, c, w, t, v, item, payload, did, key, now));
            next == db || ApplyWrote(db, c, w, t, v, item, payload, did, key, now, next)
  {
    hide Destination, WakeAfter;
  }

  lemma ClaimEffect(db: Db, c: Id, w: Worker, t: Token, lease: int, now: Time)
    ensures var next := After(db, Claim(db, c, w, t, lease, now));
            next == db || ClaimWrote(db, c, w, t, Later(now, lease), now, next)
  {
  }

  lemma RenewEffect(db: Db, c: Id, w: Worker, t: Token, lease: int, record: bool, now: Time)
    ensures var next := After(db, Renew(db, c, w, t, lease, record, now));
            next == db || RenewWrote(db, c, w, t, Later(now, lease), record, now, next)
  {
  }

  lemma ExhaustEffect(db: Db, c: Id, w: Worker, t: Token, v: nat, reason: string, now: Time)
    ensures var next := After(db, MarkExhausted(db, c, w, t, v, reason, now));
            next == db || ExhaustWrote(db, c, w, t, v, reason, now, next)
  {
  }

  lemma StartEffect(db: Db, did: Id, w: Worker, t: Token, v: nat, now: Time)
    ensures var next := After(db, MarkStarted(db, did, w, t, v, now));
            next == db || StartWrote(db, did, w, t, v, now, next)
  {
  }

  lemma RecordEffect(db: Db, did: Id, w: Worker, t: Token, v: nat, result: CapabilityResult, now: Time)
    ensures var next := After(db, RecordExecution(db, did, w, t, v, result, now));
            next == db || RecordWrote(db, did, w, t, v, result, now, next)
  {
  }

  lemma VerdictEffect(db: Db, did: Id, w: Worker, t: Token, v: nat, judged: Verification, to: State, wake: Option<Time>,
                      err: Option<string>, eid: Id, now: Time)
    ensures var next := After(db, RecordVerdict(db, did, w, t, v, judged, to, wake, err, eid, now));
            next == db || VerdictWrote(db, did, w, t, v, judged, to, wake, err, eid, now, next)
  {
    hide Allowed;
  }

  /** A call rolls back, finds nothing to do, or has exactly the effect listed. */
  lemma EveryEffect(db: Db, call: Call)
    ensures Performed(db, call) == db || Wrote(db, call, Performed(db, call))
  {
    match call {
      case DoAdmit(_, _, _, _) =>
      case DoClaim(c, w, t, lease, now) =>
        ClaimEffect(db, c, w, t, lease, now);
        hide Claim, ClaimWrote;
      case DoRenew(c, w, t, lease, record, now) =>
        RenewEffect(db, c, w, t, lease, record, now);
        hide Renew, RenewWrote;
      case DoExhaust(c, w, t, v, reason, now) =>
        ExhaustEffect(db, c, w, t, v, reason, now);
        hide MarkExhausted, ExhaustWrote;
      case DoRecover(delay, now) =>
        RecoverEffect(db, delay, now);
        hide Recover, RecoveredSoFar, Expired;
      case DoReserve(c, w, t, v, d, digest, did, now) =>
        if Normalized(d).Success? && Normalized(d).value.kind == Enum(EXECUTE) {
          var item := Normalized(d).value;
          CleanedKind(d);
          ReserveKeyedEffect(db, c, w, t, v, item.capability, ReservedPayload(item, digest),
                             ReservationKey(item, digest), did, now);
          hide ReserveKeyed, ReserveWrote, Normalized, AsDict;
        }
      case DoStart(did, w, t, v, now) =>
        StartEffect(db, did, w, t, v, now);
        hide MarkStarted, StartWrote;
      case DoRecord(did, w, t, v, result, now) =>
        RecordEffect(db, did, w, t, v, result, now);
        hide RecordExecution, RecordWrote;
      case DoVerdict(did, w, t, v, judged, to, wake, err, eid, now) =>
        VerdictEffect(db, did, w, t, v, judged, to, wake, err, eid, now);
        hide RecordVerdict, VerdictWrote;
      case DoApply(c, w, t, v, d, did, text, now) =>
        if Normalized(d).Success? && Normalized(d).value.kind != Enum(EXECUTE) {
          var item := Normalized(d).value;
          CleanedKind(d);
          ApplyItemEffect(db, c, w, t, v, item, AsDict(item).value, did, PlainKey(item, text), now);
          hide ApplyItem, ApplyWrote, Normalized, AsDict;
        }
      case DoCancel(_, _, _) =>
    }
  }
}
