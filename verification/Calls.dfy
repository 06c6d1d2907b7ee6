/** When each store call commits and writes, and what it answers otherwise: the other half of module Effects. */
module Calls {
  import opened Wrappers
  import opened Models
  import opened Tables
  import opened Queries
  import opened Operations
  import opened Effects
  import opened Replay
  import opened StoreInvariants

  /** The call committed a changed database. */
  predicate Writes(db: Db, o: Outcome) {
    o.Committed? && o.db != db
  }

  /** `_owned_row`: what an owner has to show, and which error says what is missing. */
  lemma OwnershipErrors(db: Db, c: Id, w: Worker, t: Token, v: nat, now: Time)
    ensures var o := OwnedRow(db.conts, c, w, t, v, now);
            && (o.Success? <==> HeldBy(db, c, w, t, v, now)) && (o.Success? ==> o.value == db.conts[c])
            && (o == Failure(NotFound) <==> c !in db.conts)
            && (o == Failure(ConcurrentUpdate) <==> c in db.conts && db.conts[c].version != v)
            && (o == Failure(LeaseLost) <==>
                  && c in db.conts && db.conts[c].version == v
                  && !(db.conts[c].owner == Some(w) && db.conts[c].token == Some(t)
                       && db.conts[c].expires.Some? && now < db.conts[c].expires.value))
            && (o == Failure(InvalidTransition) <==>
                  && c in db.conts && db.conts[c].version == v && !db.conts[c].state.Active()
                  && db.conts[c].owner == Some(w) && db.conts[c].token == Some(t)
                  && db.conts[c].expires.Some? && now < db.conts[c].expires.value)
            && (o.Failure? ==> o.error in {NotFound, ConcurrentUpdate, LeaseLost, InvalidTransition})
  {
  }

  /** The answer of a call that was not made by the owner: the error of `_owned_row`. */
  predicate RefusedToStrangers(db: Db, o: Outcome, c: Id, w: Worker, t: Token, v: nat, now: Time) {
    !HeldBy(db, c, w, t, v, now) ==>
      OwnedRow(db.conts, c, w, t, v, now).Failure? && o == RolledBack(OwnedRow(db.conts, c, w, t, v, now).error)
  }

  lemma AdmitExactly(db: Db, c: Id, m: int, actor: string, now: Time)
    ensures var o := Admit(db, c, m, actor, now);
            && (o == RolledBack(BadValue) <==> m < 1)
            && (o == RolledBack(IntegrityError) <==> m >= 1 && c in db.conts)
            && (Writes(db, o) <==> m >= 1 && c !in db.conts)
            && (Writes(db, o) ==> o.reply == Plain && AdmitWrote(db, c, m, now, o.db))
  {
  }

  /** The lease lasts as long as was asked for, and not at all for a negative time. */
  lemma ClaimExactly(db: Db, c: Id, w: Worker, t: Token, lease: int, now: Time)
    ensures var o := Claim(db, c, w, t, lease, now);
            && (o == RolledBack(BadValue) <==> Text.Blank(w))
            && (o == RolledBack(ConcurrentUpdate) <==> !Text.Blank(w) && !FirstDue(db.conts, now, c))
            && (Writes(db, o) <==> !Text.Blank(w) && FirstDue(db.conts, now, c))
            && (Writes(db, o) ==>
                  o.reply == Plain && ClaimWrote(db, c, w, t, if lease >= 0 then now + lease else now, now, o.db))
  {
  }

  lemma RenewExactly(db: Db, c: Id, w: Worker, t: Token, lease: int, record: bool, now: Time)
    ensures var o := Renew(db, c, w, t, lease, record, now);
            && (o == RolledBack(LeaseLost) <==> !(c in db.conts && HeldBy(db, c, w, t, db.conts[c].version, now)))
            && (o.Committed? <==> c in db.conts && HeldBy(db, c, w, t, db.conts[c].version, now))
            && (o.Committed? ==>
                  && o.reply == Plain
                  && RenewWrote(db, c, w, t, if lease >= 0 then now + lease else now, record, now, o.db))
  {
  }

  lemma ExhaustExactly(db: Db, c: Id, w: Worker, t: Token, v: nat, reason: string, now: Time)
    ensures var o := MarkExhausted(db, c, w, t, v, reason, now);
            && RefusedToStrangers(db, o, c, w, t, v, now)
            && (Writes(db, o) <==> HeldBy(db, c, w, t, v, now))
            && (Writes(db, o) ==> o.reply == Plain && ExhaustWrote(db, c, w, t, v, reason, now, o.db))
  {
  }

  lemma ReserveKeyedExactly(db: Db, c: Id, w: Worker, t: Token, v: nat, capability: Option<string>, payload: Payload,
                            key: string, did: Id, now: Time)
    requires forall a, b :: HoldsKey(db.decs, key, a) && HoldsKey(db.decs, key, b) ==> a == b
    ensures var o := ReserveKeyed(db, c, w, t, v, capability, payload, key, did, now);
            var held, free := HeldBy(db, c, w, t, v, now), forall d :: !HoldsKey(db.decs, key, d);
            && RefusedToStrangers(db, o, c, w, t, v, now)
            && (Writes(db, o) <==>
                  held && free && db.conts[c].attempts < db.conts[c].maxAttempts && did !in db.decs)
            && (Writes(db, o) ==>
                  && o.reply == Reservation(did, true)
                  && ReserveWrote(db, c, w, t, v, capability, payload, key, did, now, o.db))
            && (held ==> (o == RolledBack(AttemptBudgetExceeded) <==>
                  free && db.conts[c].attempts >= db.conts[c].maxAttempts))
            && (held ==> (o == RolledBack(IntegrityError) <==>
                  free && db.conts[c].attempts < db.conts[c].maxAttempts && did in db.decs))
            && (held && !free ==>
                  exists d :: HoldsKey(db.decs, key, d)
                    && o == if db.decs[d].cid == c && db.decs[d].payload == payload
                            then Committed(db, Reservation(d, false)) else RolledBack(IdempotencyConflict))
  {
    OwnershipErrors(db, c, w, t, v, now);
  }

  /** The planner's own key, trimmed, or another one where it gave none. */
  function KeyOr(key: Option<string>, other: string): string {
    if key.Some? && !Text.Blank(key.value) then Text.Strip(key.value) else other
  }

  /** A reservation is made under the planner's own key, trimmed, or under the digest where there is none; and it keeps
      the cleaned decision under that key. */
  lemma ReserveExactly(db: Db, c: Id, w: Worker, t: Token, v: nat, d: Decision, digest: string, did: Id, now: Time)
    requires forall key, a, b :: HoldsKey(db.decs, key, a) && HoldsKey(db.decs, key, b) ==> a == b
    ensures var o := Reserve(db, c, w, t, v, d, digest, did, now);
            && (o == RolledBack(BadValue) <==> Normalized(d).Failure? || KindOf(d.kind) != Some(EXECUTE))
            && (o != RolledBack(BadValue) ==>
                  var item := Normalized(d).value;
                  var key := KeyOr(d.key, digest);
                  && AsDict(item).Success?
                  && var payload := AsDict(item).value.(key := Some(key));
                  && o == ReserveKeyed(db, c, w, t, v, item.capability, payload, key, did, now))
  {
    hide ReserveKeyed, AsDict, Complaint;
    if Normalized(d).Success? { CleanedKind(d); }
    NoBadValue(db, c, w, t, v, d, digest, did, now);
  }

  lemma NoBadValue(db: Db, c: Id, w: Worker, t: Token, v: nat, d: Decision, digest: string, did: Id, now: Time)
    requires forall key, a, b :: HoldsKey(db.decs, key, a) && HoldsKey(db.decs, key, b) ==> a == b
    ensures forall capability, payload, key ::
              ReserveKeyed(db, c, w, t, v, capability, payload, key, did, now) != RolledBack(BadValue)
  {
    OwnershipErrors(db, c, w, t, v, now);
  }

  lemma StartExactly(db: Db, did: Id, w: Worker, t: Token, v: nat, now: Time)
    ensures var o := MarkStarted(db, did, w, t, v, now);
            && (o == RolledBack(NotFound) <== did !in db.decs)
            && (did in db.decs ==> RefusedToStrangers(db, o, db.decs[did].cid, w, t, v, now))
            && (Writes(db, o) <==>
                  did in db.decs && HeldBy(db, db.decs[did].cid, w, t, v, now) && db.decs[did].status == RESERVED)
            && (Writes(db, o) ==> o.reply == Plain && StartWrote(db, did, w, t, v, now, o.db))
            && (did in db.decs && HeldBy(db, db.decs[did].cid, w, t, v, now) ==>
                  && (o == Committed(db, Plain) <==> db.decs[did].status == EXECUTING)
                  && (o == RolledBack(OtherAutonomyError) <==>
                        db.decs[did].status == EXECUTED || db.decs[did].status == VERIFIED))
  {
    if did in db.decs { OwnershipErrors(db, db.decs[did].cid, w, t, v, now); }
  }

  lemma RecordExactly(db: Db, did: Id, w: Worker, t: Token, v: nat, result: CapabilityResult, now: Time)
    ensures var o := RecordExecution(db, did, w, t, v, result, now);
            && (o == RolledBack(NotFound) <== did !in db.decs)
            && (did in db.decs ==> RefusedToStrangers(db, o, db.decs[did].cid, w, t, v, now))
            && (Writes(db, o) <==>
                  && did in db.decs && HeldBy(db, db.decs[did].cid, w, t, v, now)
                  && (db.decs[did].status == RESERVED || db.decs[did].status == EXECUTING))
            && (Writes(db, o) ==> o.reply == Plain && RecordWrote(db, did, w, t, v, result, now, o.db))
            && (did in db.decs && HeldBy(db, db.decs[did].cid, w, t, v, now) ==>
                  && (o == Committed(db, Plain) <==>
                        db.decs[did].status == EXECUTED && db.decs[did].result == Some(result))
                  && (o == RolledBack(OtherAutonomyError) <==>
                        db.decs[did].status == VERIFIED
                        || (db.decs[did].status == EXECUTED && db.decs[did].result != Some(result))))
  {
    if did in db.decs { OwnershipErrors(db, db.decs[did].cid, w, t, v, now); }
  }

  /** A verdict is written exactly for an executed decision without evidence, by the owner, to a state the table allows;
      the same verdict again is answered without a write, another one is refused. */
  lemma VerdictExactly(db: Db, did: Id, w: Worker, t: Token, v: nat, judged: Verification, to: State, wake: Option<Time>,
                       err: Option<string>, eid: Id, now: Time)
    requires forall a, b :: JudgedBy(db.evid, did, a) && JudgedBy(db.evid, did, b) ==> a == b
    ensures var o := RecordVerdict(db, did, w, t, v, judged, to, wake, err, eid, now);
            && (o == RolledBack(NotFound) <== did !in db.decs)
            && (did in db.decs ==> RefusedToStrangers(db, o, db.decs[did].cid, w, t, v, now))
            && (Writes(db, o) <==>
                  && did in db.decs && HeldBy(db, db.decs[did].cid, w, t, v, now)
                  && db.decs[did].status == EXECUTED && (forall e :: !JudgedBy(db.evid, did, e))
                  && to in Allowed(db.conts[db.decs[did].cid].state) && eid !in db.evid)
            && (Writes(db, o) ==>
                  o.reply == Plain && VerdictWrote(db, did, w, t, v, judged, to, wake, err, eid, now, o.db))
            && (did in db.decs && HeldBy(db, db.decs[did].cid, w, t, v, now) ==>
                  && ((exists e :: JudgedBy(db.evid, did, e)) ==>
                        exists e :: JudgedBy(db.evid, did, e)
                          && o == if db.evid[e].verification == judged then Committed(db, Plain)
                                  else RolledBack(OtherAutonomyError))
                  && ((forall e :: !JudgedBy(db.evid, did, e)) ==>
                        && (o == RolledBack(OtherAutonomyError) <==> db.decs[did].status != EXECUTED)
                        && (o == RolledBack(InvalidTransition) <==>
                              db.decs[did].status == EXECUTED && to !in Allowed(db.conts[db.decs[did].cid].state))
                        && (o == RolledBack(IntegrityError) <==>
                              && db.decs[did].status == EXECUTED && to in Allowed(db.conts[db.decs[did].cid].state)
                              && eid in db.evid)))
  {
    hide Allowed;
    if did in db.decs { OwnershipErrors(db, db.decs[did].cid, w, t, v, now); }
  }

  /** Where each decision other than EXECUTE leads, what it has to show, and what it leaves in the row. */
  predicate Concluded(item: Decision, now: Time, r: Continuation) {
    && (item.kind == Enum(FINISH) ==> r.state == SUCCEEDED && r.wake == None && r.lastError == None)
    && (item.kind == Enum(WAIT) ==>
          && r.state == WAITING && r.lastError == None
          && r.wake == Some(now + if item.waitMicros.Some? then item.waitMicros.value else 0))
    && (item.kind == Enum(BLOCK) ==> r.state == BLOCKED && r.wake == None && r.lastError == Some(item.reason))
    && (item.kind == Enum(CANCEL) ==> r.state == CANCELLED && r.wake == None && r.lastError == Some(item.reason))
  }

  lemma ApplyItemExactly(db: Db, c: Id, w: Worker, t: Token, v: nat, item: Decision, payload: Payload, did: Id,
                         key: string, now: Time)
    requires item.kind.Enum? && item.kind != Enum(EXECUTE)
    requires item.kind == Enum(WAIT) && item.waitMicros.Some? ==> 0 <= item.waitMicros.value
    ensures var o := ApplyItem(db, c, w, t, v, item, payload, did, key, now);
            var shown := item.kind == Enum(FINISH) ==> PassEvidence(db.evid, item.evidenceId, c);
            var free := did !in db.decs && forall d :: !HoldsKey(db.decs, key, d);
            && RefusedToStrangers(db, o, c, w, t, v, now)
            && (HeldBy(db, c, w, t, v, now) ==>
                  && (o == RolledBack(VerificationRequired) <==> !shown)
                  && (o == RolledBack(IntegrityError) <==> shown && !free))
            && (Writes(db, o) <==> HeldBy(db, c, w, t, v, now) && shown && free)
            && (Writes(db, o) ==>
                  && o.reply == Plain && c in o.db.conts && Concluded(item, now, o.db.conts[c])
                  && ApplyWrote(db, c, w, t, v, item, payload, did, key, now, o.db))
  {
    OwnershipErrors(db, c, w, t, v, now);
  }

  lemma ApplyExactly(db: Db, c: Id, w: Worker, t: Token, v: nat, d: Decision, did: Id, text: string, now: Time)
    ensures var o := ApplyPlain(db, c, w, t, v, d, did, text, now);
            && (Normalized(d).Failure? || KindOf(d.kind) == Some(EXECUTE) ==> o == RolledBack(BadValue))
            && (Normalized(d).Success? && KindOf(d.kind) != Some(EXECUTE) ==>
                  var item := Normalized(d).value;
                  var key := KeyOr(d.key, text);
                  var shown := item.kind == Enum(FINISH) ==> PassEvidence(db.evid, item.evidenceId, c);
                  var free := did !in db.decs && forall o :: !HoldsKey(db.decs, key, o);
                  && item.kind.Enum? && AsDict(item).Success?
                  && RefusedToStrangers(db, o, c, w, t, v, now)
                  && (HeldBy(db, c, w, t, v, now) ==>
                        && (o == RolledBack(VerificationRequired) <==> !shown)
                        && (o == RolledBack(IntegrityError) <==> shown && !free))
                  && (Writes(db, o) <==> HeldBy(db, c, w, t, v, now) && shown && free)
                  && (Writes(db, o) ==>
                        && o.reply == Plain && c in o.db.conts && Concluded(item, now, o.db.conts[c])
                        && ApplyWrote(db, c, w, t, v, item, AsDict(item).value, did, key, now, o.db)))
  {
    hide AsDict, Text.Strip, ApplyItem, ApplyWrote, Concluded, Complaint, OwnedRow, HeldBy;
    if Normalized(d).Success? {
      CleanedKind(d);
      CleaningExactly(d);
      var item := Normalized(d).value;
      if item.kind != Enum(EXECUTE) {
        ApplyItemExactly(db, c, w, t, v, item, AsDict(item).value, did, KeyOr(d.key, text), now);
        assert PlainKey(item, text) == KeyOr(d.key, text);
      }
    }
  }

  lemma CancelExactly(db: Db, c: Id, actor: string, now: Time)
    ensures var o := CancelContinuation(db, c, actor, now);
            && (o == RolledBack(NotFound) <==> c !in db.conts)
            && (Writes(db, o) <==> c in db.conts && !db.conts[c].state.Terminal())
            && (Writes(db, o) ==> o.reply == Plain && CancelWrote(db, c, o.db))
            && (c in db.conts && db.conts[c].state.Terminal() ==> o == Committed(db, Plain))
  {
  }

  // ---- all calls together ----

  /** The decision that a reservation books, and the key it goes by. */
  ghost predicate MayReserve(db: Db, c: Id, w: Worker, t: Token, v: nat, d: Decision, digest: string, did: Id, now: Time) {
    && Normalized(d).Success? && KindOf(d.kind) == Some(EXECUTE) && HeldBy(db, c, w, t, v, now)
    && db.conts[c].attempts < db.conts[c].maxAttempts && did !in db.decs
    && (forall o :: !HoldsKey(db.decs, KeyOr(d.key, digest), o))
  }

  ghost predicate MayApply(db: Db, c: Id, w: Worker, t: Token, v: nat, d: Decision, did: Id, text: string, now: Time) {
    && Normalized(d).Success? && KindOf(d.kind) != Some(EXECUTE) && HeldBy(db, c, w, t, v, now)
    && (KindOf(d.kind) == Some(FINISH) ==> PassEvidence(db.evid, d.evidenceId, c)) && did !in db.decs
    && (forall o :: !HoldsKey(db.decs, KeyOr(d.key, text), o))
  }

  ghost predicate MayJudge(db: Db, did: Id, w: Worker, t: Token, v: nat, to: State, eid: Id, now: Time) {
    && did in db.decs && HeldBy(db, db.decs[did].cid, w, t, v, now) && db.decs[did].status == EXECUTED
    && (forall e :: !JudgedBy(db.evid, did, e)) && to in Allowed(db.conts[db.decs[did].cid].state) && eid !in db.evid
  }

  /** What a call needs to write something. */
  ghost predicate MayWrite(db: Db, call: Call) {
    match call
    case DoAdmit(c, m, _, _) => m >= 1 && c !in db.conts
    case DoClaim(c, w, _, _, now) => !Text.Blank(w) && FirstDue(db.conts, now, c)
    case DoRenew(c, w, t, lease, record, now) =>
      && c in db.conts && HeldBy(db, c, w, t, db.conts[c].version, now)
      && (record || db.conts[c].expires != Some(Later(now, lease)) || db.conts[c].heartbeat != Some(now))
    case DoExhaust(c, w, t, v, _, now) => HeldBy(db, c, w, t, v, now)
    case DoRecover(_, now) => Expired(db.conts, now) != {}
    case DoReserve(c, w, t, v, d, digest, did, now) => MayReserve(db, c, w, t, v, d, digest, did, now)
    case DoStart(did, w, t, v, now) =>
      did in db.decs && HeldBy(db, db.decs[did].cid, w, t, v, now) && db.decs[did].status == RESERVED
    case DoRecord(did, w, t, v, _, now) =>
      && did in db.decs && HeldBy(db, db.decs[did].cid, w, t, v, now)
      && (db.decs[did].status == RESERVED || db.decs[did].status == EXECUTING)
    case DoVerdict(did, w, t, v, _, to, _, _, eid, now) => MayJudge(db, did, w, t, v, to, eid, now)
    case DoApply(c, w, t, v, d, did, text, now) => MayApply(db, c, w, t, v, d, did, text, now)
    case DoCancel(c, _, _) => c in db.conts && !db.conts[c].state.Terminal()
  }

  lemma OneHolderPerKey(db: Db)
    requires Sound(db)
    ensures forall key, a, b :: HoldsKey(db.decs, key, a) && HoldsKey(db.decs, key, b) ==> a == b
    ensures forall did, a, b :: JudgedBy(db.evid, did, a) && JudgedBy(db.evid, did, b) ==> a == b
  {
    forall did, a, b | JudgedBy(db.evid, did, a) && JudgedBy(db.evid, did, b) ensures a == b {
      assert EvidenceOk(db, a) && EvidenceOk(db, b);
    }
  }

  lemma ReserveWrites(db: Db, c: Id, w: Worker, t: Token, v: nat, d: Decision, digest: string, did: Id, now: Time)
    requires forall key, a, b :: HoldsKey(db.decs, key, a) && HoldsKey(db.decs, key, b) ==> a == b
    ensures Writes(db, Reserve(db, c, w, t, v, d, digest, did, now))
        <==> MayReserve(db, c, w, t, v, d, digest, did, now)
  {
    hide ReserveKeyed, Reserve, AsDict, Normalized, KindOf, ReserveWrote;
    ReserveExactly(db, c, w, t, v, d, digest, did, now);
    if Normalized(d).Success? && KindOf(d.kind) == Some(EXECUTE) {
      var item := Normalized(d).value;
      CleanedKind(d);
      var key := KeyOr(d.key, digest);
      var payload := AsDict(item).value.(key := Some(key));
      ReserveKeyedExactly(db, c, w, t, v, item.capability, payload, key, did, now);
    }
  }

  lemma ApplyWrites(db: Db, c: Id, w: Worker, t: Token, v: nat, d: Decision, did: Id, text: string, now: Time)
    ensures Writes(db, ApplyPlain(db, c, w, t, v, d, did, text, now)) <==> MayApply(db, c, w, t, v, d, did, text, now)
  {
    hide ApplyPlain, AsDict, ApplyWrote, Concluded, Complaint;
    ApplyExactly(db, c, w, t, v, d, did, text, now);
    if Normalized(d).Success? { CleanedKind(d); }
  }

  lemma {:induction false} RecoveryWrites(db: Db, delay: int, now: Time)
    requires Expired(db.conts, now) != {}
    ensures Recover(db, delay, now) != db
  {
    RecoverEmpties(db, delay, now);
  }

  /** Every call of the store writes exactly when it may: it refuses nothing it should do. */
  lemma {:induction false} CallsWriteExactly(db: Db, call: Call)
    requires Sound(db)
    ensures Performed(db, call) != db <==> MayWrite(db, call)
  {
    hide Sound, Admit, Claim, Renew, MarkExhausted, Recover, Reserve, MarkStarted, RecordExecution, RecordVerdict,
         ApplyPlain, CancelContinuation, MayReserve, MayApply, HeldBy, AdmitWrote, ClaimWrote, ExhaustWrote, StartWrote,
         RecordWrote, VerdictWrote, CancelWrote, Allowed, FirstDue, Expired;
    OneHolderPerKey(db);
    match call {
      case DoAdmit(c, m, a, now) => AdmitExactly(db, c, m, a, now);
      case DoClaim(c, w, t, lease, now) => ClaimExactly(db, c, w, t, lease, now);
      case DoRenew(c, w, t, lease, record, now) => RenewWrites(db, c, w, t, lease, record, now);
      case DoExhaust(c, w, t, v, reason, now) => ExhaustExactly(db, c, w, t, v, reason, now);
      case DoRecover(delay, now) =>
        if Expired(db.conts, now) != {} { RecoveryWrites(db, delay, now); } else { NothingToRecover(db, delay, now); }
      case DoReserve(c, w, t, v, d, digest, did, now) => ReserveWrites(db, c, w, t, v, d, digest, did, now);
      case DoStart(did, w, t, v, now) => StartExactly(db, did, w, t, v, now);
      case DoRecord(did, w, t, v, result, now) => RecordExactly(db, did, w, t, v, result, now);
      case DoVerdict(did, w, t, v, judged, to, wake, err, eid, now) =>
        VerdictExactly(db, did, w, t, v, judged, to, wake, err, eid, now);
      case DoApply(c, w, t, v, d, did, text, now) => ApplyWrites(db, c, w, t, v, d, did, text, now);
      case DoCancel(c, a, now) => CancelExactly(db, c, a, now);
    }
  }

  lemma NothingToRecover(db: Db, delay: int, now: Time)
    requires Expired(db.conts, now) == {}
    ensures Recover(db, delay, now) == db
  {
  }

  lemma RenewWrites(db: Db, c: Id, w: Worker, t: Token, lease: int, record: bool, now: Time)
    ensures After(db, Renew(db, c, w, t, lease, record, now)) != db <==>
              && c in db.conts && HeldBy(db, c, w, t, db.conts[c].version, now)
              && (record || db.conts[c].expires != Some(Later(now, lease)) || db.conts[c].heartbeat != Some(now))
  {
    if c in db.conts {
      var r := db.conts[c];
      var renewed := r.(expires := Some(Later(now, lease)), heartbeat := Some(now));
      assert db.conts[c := renewed][c] == renewed;
      assert renewed == r ==> db.conts[c := renewed] == db.conts;
      assert |db.log + [Entry(now, c, w, LeaseRenewed(Later(now, lease)))]| == |db.log| + 1;
    }
  }

  // ---- who signs what ----

  /** Who a call's event names as its actor. */
  function Signer(call: Call): string {
    match call
    case DoAdmit(_, _, actor, _) => actor
    case DoCancel(_, actor, _) => actor
    case DoVerdict(_, _, _, _, v, _, _, _, _, _) => v.verifierId
    case DoRecover(_, _) => "recovery"
    case _ => call.worker
  }

  /** A call adds one event at most, signed by its actor at its own instant. */
  lemma EventsAreSigned(db: Db, call: Call)
    requires !call.DoRecover?
    ensures var next := Performed(db, call);
            || next.log == db.log
            || (|next.log| == |db.log| + 1 && next.log[..|db.log|] == db.log
                && next.log[|db.log|].ts == call.now && next.log[|db.log|].actor == Signer(call))
  {
    hide Normalized, AsDict, Allowed, HoldsKey, JudgedBy, Destination, WakeAfter, PassEvidence, Released, FirstDue;
  }

  /** The status of the newest open decision, as the event of a recovery reports it. */
  ghost function OpenStatus(db: Db, c: Id): Option<Status> {
    if LatestPending(db.decs, c).None? then None else
    assert LatestPending(db.decs, c).value in PendingIds(db.decs, c);
    Some(db.decs[LatestPending(db.decs, c).value].status)
  }

  /** The event of one recovered row: who held it in which state, where it went, and what was open. */
  lemma RecoveryIsReported(db: Db, c: Id, delay: int, now: Time)
    requires c in Expired(db.conts, now)
    ensures var next := RecoverOne(db, c, delay, now);
            && c in next.conts
            && next.log == db.log + [Entry(now, c, "recovery", LeaseExpired(db.conts[c].owner, db.conts[c].state,
                                                                             next.conts[c].state, OpenStatus(db, c)))]
            && next.conts[c].lastError == Some(if next.conts[c].state == EXHAUSTED
                                               then "attempt budget exhausted after lease expiry"
                                               else "worker lease expired")
  {
  }
}
