/** Laws of single store calls: the transition table, frozen endings, fencing, versions, leases. */
module StoreLaws {
  import opened Wrappers
  import opened Models
  import opened Tables
  import opened Queries
  import opened Operations
  import opened Effects
  import opened Replay
  import opened StoreInvariants

  /** The lease columns apart, the row is as it was. */
  predicate SameButLease(a: Continuation, b: Continuation) {
    b == a.(expires := b.expires, heartbeat := b.heartbeat)
  }

  /** What a call may do to a row that exists. */
  ghost predicate RowLaw(a: Continuation, b: Continuation) {
    && (a.state == b.state || b.state in Allowed(a.state))
    && (a.state.Terminal() ==> b == a)
    && a.version <= b.version
    && (a.version == b.version ==> SameButLease(a, b))
    && a.step <= b.step && a.attempts <= b.attempts && a.maxAttempts == b.maxAttempts && a.created == b.created
  }

  lemma RecoverObeys(db: Db, delay: int, now: Time, next: Db, c: Id)
    requires c in db.conts && RecoveredSoFar(db, delay, now, next)
    ensures c in next.conts && RowLaw(db.conts[c], next.conts[c])
  {
  }

  lemma ClaimObeys(db: Db, x: Id, w: Worker, t: Token, expires: Time, now: Time, next: Db, c: Id)
    requires c in db.conts && ClaimWrote(db, x, w, t, expires, now, next)
    ensures c in next.conts && RowLaw(db.conts[c], next.conts[c])
  {
  }

  lemma ExhaustObeys(db: Db, x: Id, w: Worker, t: Token, v: nat, reason: string, now: Time, next: Db, c: Id)
    requires c in db.conts && ExhaustWrote(db, x, w, t, v, reason, now, next)
    ensures c in next.conts && RowLaw(db.conts[c], next.conts[c])
  {
  }

  lemma CancelObeys(db: Db, x: Id, next: Db, c: Id)
    requires c in db.conts && CancelWrote(db, x, next)
    ensures c in next.conts && RowLaw(db.conts[c], next.conts[c])
  {
  }

  lemma RecordObeys(db: Db, did: Id, w: Worker, t: Token, v: nat, result: CapabilityResult, now: Time, next: Db, c: Id)
    requires c in db.conts && RecordWrote(db, did, w, t, v, result, now, next)
    ensures c in next.conts && RowLaw(db.conts[c], next.conts[c])
  {
  }

  lemma VerdictObeys(db: Db, did: Id, w: Worker, t: Token, v: nat, judged: Verification, to: State, wake: Option<Time>,
                     err: Option<string>, eid: Id, now: Time, next: Db, c: Id)
    requires c in db.conts && VerdictWrote(db, did, w, t, v, judged, to, wake, err, eid, now, next)
    ensures c in next.conts && RowLaw(db.conts[c], next.conts[c])
  {
  }

  lemma ApplyObeys(db: Db, x: Id, w: Worker, t: Token, v: nat, item: Decision, payload: Payload, did: Id, key: string,
                   now: Time, next: Db, c: Id)
    requires c in db.conts && item.kind.Enum? && item.kind.kind != EXECUTE
    requires ApplyWrote(db, x, w, t, v, item, payload, did, key, now, next)
    ensures c in next.conts && RowLaw(db.conts[c], next.conts[c])
  {
  }

  /** Every operation obeys the transition table, also those that never consult it, and leaves endings alone;
      a row whose version has not moved has not changed but for the expiry of its lease. */
  lemma EveryCallObeysTheTable(db: Db, call: Call, c: Id)
    requires c in db.conts
    ensures c in Performed(db, call).conts && RowLaw(db.conts[c], Performed(db, call).conts[c])
  {
    hide Normalized, AsDict, RecoveredSoFar, Expired, VerdictWrote, ApplyWrote, ClaimWrote, ExhaustWrote, CancelWrote,
         RecordWrote, HoldsKey, Performed;
    var next := Performed(db, call);
    EveryEffect(db, call);
    if next != db {
      match call {
        case DoRecover(delay, now) => RecoverObeys(db, delay, now, next, c);
        case DoVerdict(did, w, t, v, judged, to, wake, err, eid, now) =>
          VerdictObeys(db, did, w, t, v, judged, to, wake, err, eid, now, next, c);
        case DoApply(x, w, t, v, d, did, text, now) =>
          var item := Normalized(d).value;
          ApplyObeys(db, x, w, t, v, item, AsDict(item).value, did, PlainKey(item, text), now, next, c);
        case DoClaim(x, w, t, lease, now) => ClaimObeys(db, x, w, t, Later(now, lease), now, next, c);
        case DoExhaust(x, w, t, v, reason, now) => ExhaustObeys(db, x, w, t, v, reason, now, next, c);
        case DoCancel(x, _, _) => CancelObeys(db, x, next, c);
        case DoRecord(did, w, t, v, result, now) => RecordObeys(db, did, w, t, v, result, now, next, c);
        case _ =>
      }
    }
  }

  /** A continuation that has ended stays exactly as it is, through any further calls. */
  lemma {:induction false} EndingsAreFrozen(db: Db, calls: seq<Call>, c: Id)
    requires c in db.conts && db.conts[c].state.Terminal()
    ensures c in Continued(db, calls).conts && Continued(db, calls).conts[c] == db.conts[c]
    decreases |calls|
  {
    if calls != [] {
      EveryCallObeysTheTable(db, calls[0], c);
      EndingsAreFrozen(Performed(db, calls[0]), calls[1..], c);
    }
  }

  /** The database after some more calls. */
  ghost function Continued(db: Db, calls: seq<Call>): Db
    decreases |calls|
  {
    if calls == [] then db else Continued(Performed(db, calls[0]), calls[1..])
  }

  /** An equal version proves that nothing but the lease expiry changed in between, however many calls there were. */
  lemma {:induction false} VersionPinsTheRow(db: Db, calls: seq<Call>, c: Id)
    requires c in db.conts
    ensures c in Continued(db, calls).conts
    ensures var a, b := db.conts[c], Continued(db, calls).conts[c];
            a.version <= b.version && (a.version == b.version ==> SameButLease(a, b))
    decreases |calls|
  {
    if calls != [] {
      EveryCallObeysTheTable(db, calls[0], c);
      VersionPinsTheRow(Performed(db, calls[0]), calls[1..], c);
    }
  }

  /** The token a call presents. */
  function Presents(call: Call): Option<Token> {
    match call
    case DoRenew(_, _, t, _, _, _) => Some(t)
    case DoExhaust(_, _, t, _, _, _) => Some(t)
    case DoReserve(_, _, t, _, _, _, _, _) => Some(t)
    case DoStart(_, _, t, _, _) => Some(t)
    case DoRecord(_, _, t, _, _, _) => Some(t)
    case DoVerdict(_, _, t, _, _, _, _, _, _, _) => Some(t)
    case DoApply(_, _, t, _, _, _, _, _) => Some(t)
    case _ => None
  }

  /** The instant by which a call judges leases. */
  function Instant(call: Call): Time {
    call.now
  }

  /** No row is leased under the token. */
  ghost predicate Unheld(db: Db, t: Token) {
    forall c :: c in db.conts ==> db.conts[c].token != Some(t)
  }

  /** The continuation that an owner's call writes to, when it writes. */
  function Target(db: Db, call: Call): Option<Id> {
    match call
    case DoRenew(c, _, _, _, _, _) => Some(c)
    case DoExhaust(c, _, _, _, _, _) => Some(c)
    case DoReserve(c, _, _, _, _, _, _, _) => Some(c)
    case DoApply(c, _, _, _, _, _, _, _) => Some(c)
    case DoStart(d, _, _, _, _) => if d in db.decs then Some(db.decs[d].cid) else None
    case DoRecord(d, _, _, _, _, _) => if d in db.decs then Some(db.decs[d].cid) else None
    case DoVerdict(d, _, _, _, _, _, _, _, _, _) => if d in db.decs then Some(db.decs[d].cid) else None
    case _ => None
  }

  /** A call that presents a token changes nothing unless its target is leased under that very token, by that
      worker, and the lease has not run out at the instant of the call. */
  lemma OwnersWriteOnlyWhatTheyHold(db: Db, call: Call)
    requires Presents(call).Some? && Performed(db, call) != db
    ensures Target(db, call).Some? && Target(db, call).value in db.conts
    ensures var r := db.conts[Target(db, call).value];
            && r.token == Presents(call) && r.owner == Some(call.worker) && r.state.Active()
            && r.expires.Some? && Instant(call) < r.expires.value
    ensures Target(db, call).value !in Expired(db.conts, Instant(call))
    ensures forall c :: c in db.conts && c != Target(db, call).value ==>
              c in Performed(db, call).conts && Performed(db, call).conts[c] == db.conts[c]
    ensures forall d :: d in db.decs && db.decs[d].cid != Target(db, call).value ==>
              d in Performed(db, call).decs && Performed(db, call).decs[d] == db.decs[d]
    ensures forall e :: e in db.evid ==> e in Performed(db, call).evid && Performed(db, call).evid[e] == db.evid[e]
  {
    hide Normalized, AsDict, HoldsKey, Allowed, Performed, WakeAfter, Destination;
    EveryEffect(db, call);
  }

  /** A stale token is refused: nothing at all is written. */
  lemma StaleTokensWriteNothing(db: Db, call: Call, t: Token)
    requires Unheld(db, t) && Presents(call) == Some(t)
    ensures Performed(db, call) == db
  {
    hide Performed, Presents;
    if Performed(db, call) != db { OwnersWriteOnlyWhatTheyHold(db, call); }
  }

  /** At one instant, the owner's write and the recovery of the same row are never both possible. */
  lemma {:induction false} OwnerOrRecovery(db: Db, call: Call)
    requires Presents(call).Some? && Performed(db, call) != db
    ensures forall delay :: Target(db, call).value in Recover(db, delay, Instant(call)).conts
              && Recover(db, delay, Instant(call)).conts[Target(db, call).value] == db.conts[Target(db, call).value]
  {
    hide Performed, Recover, RowLaw;
    OwnersWriteOnlyWhatTheyHold(db, call);
    forall delay: int
      ensures Target(db, call).value in Recover(db, delay, Instant(call)).conts
      ensures Recover(db, delay, Instant(call)).conts[Target(db, call).value] == db.conts[Target(db, call).value]
    {
      RecoverEffect(db, delay, Instant(call));
    }
  }

  /** Releasing, recovering or cancelling a lease retires its token: no call but a claim under it brings it back. */
  lemma TokensStayRetired(db: Db, call: Call, t: Token)
    requires Unheld(db, t) && !(call.DoClaim? && call.token == t)
    ensures Unheld(Performed(db, call), t)
  {
    hide Normalized, AsDict, HoldsKey, Performed, RecoveredSoFar, ApplyWrote, ReserveWrote, VerdictWrote;
    var next := Performed(db, call);
    EveryEffect(db, call);
    if next != db {
      match call {
        case DoRecover(delay, now) => RecoveredTokens(db, delay, now, next, t);
        case DoApply(_, _, _, _, _, _, _, _) => WrittenTokens(db, call, next, t);
        case DoReserve(_, _, _, _, _, _, _, _) => WrittenTokens(db, call, next, t);
        case DoVerdict(_, _, _, _, _, _, _, _, _, _) => WrittenTokens(db, call, next, t);
        case _ =>
      }
    }
  }

  lemma WrittenTokens(db: Db, call: Call, next: Db, t: Token)
    requires (call.DoApply? || call.DoReserve? || call.DoVerdict?) && Wrote(db, call, next) && Unheld(db, t)
    ensures Unheld(next, t)
  {
    hide Normalized, AsDict, HoldsKey, JudgedBy, Allowed, WakeAfter, Destination, PassEvidence;
  }

  lemma RecoveredTokens(db: Db, delay: int, now: Time, next: Db, t: Token)
    requires Unheld(db, t) && RecoveredSoFar(db, delay, now, next)
    ensures Unheld(next, t)
  {
  }

  /** Reserving under a key that is taken adds no row and charges no attempt, whether the request is the same (the
      old decision is returned) or another one (a conflict). */
  lemma ReservingAgain(db: Db, cid: Id, worker: Worker, token: Token, version: nat, decision: Decision, digest: string,
                       did: Id, now: Time, d: Id)
    requires Sound(db) && Normalized(decision).Success? && Normalized(decision).value.kind == Enum(EXECUTE)
    requires HoldsKey(db.decs, ReservationKey(Normalized(decision).value, digest), d)
    ensures AsDict(Normalized(decision).value).Success?
    ensures var o := Reserve(db, cid, worker, token, version, decision, digest, did, now);
            && After(db, o) == db
            && (o.Committed? <==>
                  && OwnedRow(db.conts, cid, worker, token, version, now).Success? && db.decs[d].cid == cid
                  && db.decs[d].payload == ReservedPayload(Normalized(decision).value, digest))
            && (o.Committed? ==> o.reply == Reservation(d, false))
            && (o.RolledBack? && OwnedRow(db.conts, cid, worker, token, version, now).Success? ==>
                  o.err == IdempotencyConflict)
  {
    hide Agrees, RowsOk, LinksOk, CountsOk, TalliesOk, Normalized, AsDict, OwnedRow;
    CleanedKind(decision);
  }

  /** The store lets the caller choose where a verdict sends a continuation. The row comes out well formed exactly when
      that is not a state somebody has to be working on: `VERIFYING`, which the table allows, leaves a row that is
      active without a lease. */
  lemma VerdictsMustRelease(db: Db, did: Id, w: Worker, t: Token, v: nat, judged: Verification, to: State,
                            wake: Option<Time>, err: Option<string>, eid: Id, now: Time)
    requires Sound(db)
    requires RecordVerdict(db, did, w, t, v, judged, to, wake, err, eid, now).Committed?
    requires Performed(db, DoVerdict(did, w, t, v, judged, to, wake, err, eid, now)) != db
    ensures RowsOk(Performed(db, DoVerdict(did, w, t, v, judged, to, wake, err, eid, now))) <==> !to.Active()
  {
    hide Agrees, LinksOk, CountsOk, TalliesOk, KeysOk, RecordVerdict, Performed, JudgedBy, Allowed;
    var next := Performed(db, DoVerdict(did, w, t, v, judged, to, wake, err, eid, now));
    EveryEffect(db, DoVerdict(did, w, t, v, judged, to, wake, err, eid, now));
    var c := db.decs[did].cid;
    assert RowOk(db.conts[c]);
    assert next.conts[c].state == to && next.conts[c].owner.None?;
    if !to.Active() {
      forall x | x in next.conts ensures RowOk(next.conts[x]) {
        if x != c { assert RowOk(db.conts[x]); }
      }
    } else {
      assert !RowOk(next.conts[c]);
    }
  }

  /** An idle continuation can be claimed exactly from its wake time on. */
  lemma ClaimableFromWakeOn(db: Db, c: Id, now: Time)
    requires Sound(db) && c in db.conts && !db.conts[c].state.Terminal()
    ensures Due(db.conts[c], now) <==>
      db.conts[c].owner.None? && (db.conts[c].wake.None? || db.conts[c].wake.value <= now)
  {
    hide Agrees, LinksOk, CountsOk, TalliesOk, KeysOk;
    assert RowOk(db.conts[c]);
  }

  predicate NoPending(db: Db, c: Id) {
    PendingIds(db.decs, c) == {}
  }

  /** What recovery should make of an expired row, judged by the database before it. */
  ghost predicate Judged(db: Db, c: Id, delay: int, now: Time, r: Continuation)
    requires c in db.conts
  {
    if db.conts[c].attempts >= db.conts[c].maxAttempts && NoPending(db, c) && !HasPass(db.evid, c)
    then r.state == EXHAUSTED && r.wake.None?
    else r.state == READY && r.wake == Some(Later(now, delay))
  }

  ghost predicate JudgedSoFar(db: Db, delay: int, now: Time, d: Db) {
    forall c :: c in Expired(db.conts, now) && c in d.conts && c !in Expired(d.conts, now) ==>
                  Judged(db, c, delay, now, d.conts[c])
  }

  lemma JudgeOne(db: Db, delay: int, now: Time, d: Db, c: Id)
    requires RecoveredSoFar(db, delay, now, d) && JudgedSoFar(db, delay, now, d) && c in Expired(d.conts, now)
    ensures JudgedSoFar(db, delay, now, RecoverOne(d, c, delay, now))
  {
    var next := RecoverOne(d, c, delay, now);
    SamePendingIds(db, delay, now, d, c);
    assert d.conts[c] == db.conts[c];
    assert LatestPending(d.decs, c).None? <==> NoPending(db, c);
    hide LatestPending, PendingIds, RecoveredSoFar;
    forall x | x in Expired(db.conts, now) && x in next.conts && x !in Expired(next.conts, now)
      ensures Judged(db, x, delay, now, next.conts[x])
    {
      if x != c { assert next.conts[x] == d.conts[x]; }
    }
  }

  lemma SamePendingIds(db: Db, delay: int, now: Time, d: Db, c: Id)
    requires RecoveredSoFar(db, delay, now, d)
    ensures PendingIds(d.decs, c) == PendingIds(db.decs, c)
  {
    forall x | x in db.decs ensures x in PendingIds(d.decs, c) <==> x in PendingIds(db.decs, c) {
      assert RecoveredDecision(db, now, db.decs[x], d.decs[x]);
    }
  }

  /** Recovery ends an expired continuation exactly when its budget is spent, nothing is pending and no evidence of
      success is stored; any other it makes ready again after the delay. */
  lemma RecoveryEndsOnlySpentWork(db: Db, delay: int, now: Time, c: Id)
    requires c in Expired(db.conts, now)
    ensures c in Recover(db, delay, now).conts && Judged(db, c, delay, now, Recover(db, delay, now).conts[c])
  {
    hide RecoverOne, RecoveredSoFar, JudgedSoFar, Judged;
    RecoverEffect(db, delay, now);
    RecoveryStarts(db, delay, now);
    forall d: Db, x | RecoveredSoFar(db, delay, now, d) && JudgedSoFar(db, delay, now, d) && x in Expired(d.conts, now)
      ensures RecoveredSoFar(db, delay, now, RecoverOne(d, x, delay, now))
      ensures JudgedSoFar(db, delay, now, RecoverOne(d, x, delay, now))
    {
      RecoverOneSoFar(db, delay, now, d, x);
      JudgeOne(db, delay, now, d, x);
    }
    RecoverKeeps(db, delay, now, (d: Db) => RecoveredSoFar(db, delay, now, d) && JudgedSoFar(db, delay, now, d));
    RecoveryStands(db, delay, now, Recover(db, delay, now), c);
  }

  lemma RecoveryStarts(db: Db, delay: int, now: Time)
    ensures RecoveredSoFar(db, delay, now, db) && JudgedSoFar(db, delay, now, db)
  {
  }

  lemma RecoveryStands(db: Db, delay: int, now: Time, d: Db, c: Id)
    requires RecoveredSoFar(db, delay, now, d) && JudgedSoFar(db, delay, now, d) && Expired(d.conts, now) == {}
    requires c in Expired(db.conts, now)
    ensures c in d.conts && Judged(db, c, delay, now, d.conts[c])
  {
  }
}
