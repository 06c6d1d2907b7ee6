/** `ORDER BY ... LIMIT 1`: which row a query returns first. */
module Queries {
  import opened Wrappers
  import opened Tables

  /** Row `x` sorts no later than row `y` under `ORDER BY at, id`. */
  predicate NoLater(at: map<Id, Time>, x: Id, y: Id)
    requires x in at && y in at
  {
    at[x] < at[y] || (at[x] == at[y] && x <= y)
  }

  /** `ORDER BY at ASC, id ASC LIMIT 1`. */
  ghost predicate IsFirst(ids: set<Id>, at: map<Id, Time>, x: Id)
    requires ids <= at.Keys
  {
    x in ids && forall y :: y in ids ==> NoLater(at, x, y)
  }

  /** `ORDER BY at DESC, id DESC LIMIT 1`. */
  ghost predicate IsLast(ids: set<Id>, at: map<Id, Time>, x: Id)
    requires ids <= at.Keys
  {
    x in ids && forall y :: y in ids ==> NoLater(at, y, x)
  }

  lemma {:induction false} FirstExists(ids: set<Id>, at: map<Id, Time>)
    requires ids != {} && ids <= at.Keys
    ensures exists x :: IsFirst(ids, at, x)
  {
    var y :| y in ids;
    if ids == {y} {
      assert IsFirst(ids, at, y);
    } else {
      FirstExists(ids - {y}, at);
      var x :| IsFirst(ids - {y}, at, x);
      var least := if NoLater(at, x, y) then x else y;
      forall z | z in ids ensures NoLater(at, least, z) {
        assert z == y || z in ids - {y};
      }
      assert IsFirst(ids, at, least);
    }
  }

  lemma {:induction false} LastExists(ids: set<Id>, at: map<Id, Time>)
    requires ids != {} && ids <= at.Keys
    ensures exists x :: IsLast(ids, at, x)
  {
    var y :| y in ids;
    if ids == {y} {
      assert IsLast(ids, at, y);
    } else {
      LastExists(ids - {y}, at);
      var x :| IsLast(ids - {y}, at, x);
      var most := if NoLater(at, y, x) then x else y;
      forall z | z in ids ensures NoLater(at, z, most) {
        assert z == y || z in ids - {y};
      }
      assert IsLast(ids, at, most);
    }
  }

  ghost function First(ids: set<Id>, at: map<Id, Time>): (x: Id)
    requires ids != {} && ids <= at.Keys
    ensures IsFirst(ids, at, x)
  {
    FirstExists(ids, at);
    var x :| IsFirst(ids, at, x);
    x
  }

  ghost function Last(ids: set<Id>, at: map<Id, Time>): (x: Id)
    requires ids != {} && ids <= at.Keys
    ensures IsLast(ids, at, x)
  {
    LastExists(ids, at);
    var x :| IsLast(ids, at, x);
    x
  }

  function CreatedAt(decs: map<Id, DecisionRow>): map<Id, Time> {
    map d | d in decs :: decs[d].created
  }

  function EvidenceAt(evid: map<Id, EvidenceRow>): map<Id, Time> {
    map e | e in evid :: evid[e].created
  }

  function ExpiresAt(conts: map<Id, Continuation>): map<Id, Time> {
    map c | c in conts :: if conts[c].expires.Some? then conts[c].expires.value else 0
  }

  /** The decisions of a continuation that are reserved, executing or executed but not yet judged. */
  function PendingIds(decs: map<Id, DecisionRow>, cid: Id): set<Id> {
    set d | d in decs && decs[d].cid == cid && decs[d].status.Pending()
  }

  /** `pending_decision`. */
  ghost function LatestPending(decs: map<Id, DecisionRow>, cid: Id): Option<Id> {
    if PendingIds(decs, cid) == {} then None else Some(Last(PendingIds(decs, cid), CreatedAt(decs)))
  }

  function EvidenceIds(evid: map<Id, EvidenceRow>, cid: Id): set<Id> {
    set e | e in evid && evid[e].cid == cid
  }

  /** `latest_evidence`. */
  ghost function LatestEvidence(evid: map<Id, EvidenceRow>, cid: Id): Option<Id> {
    if EvidenceIds(evid, cid) == {} then None else Some(Last(EvidenceIds(evid, cid), EvidenceAt(evid)))
  }

  /** The held leases that have run out at `now`. */
  function Expired(conts: map<Id, Continuation>, now: Time): set<Id> {
    set c | c in conts && conts[c].state.Active() && conts[c].expires.Some? && conts[c].expires.value <= now
  }

  predicate Due(r: Continuation, now: Time) {
    && (r.state == READY || r.state == WAITING)
    && (r.wake.Some? ==> r.wake.value <= now)
    && (r.expires.Some? ==> r.expires.value <= now)
  }

  /** `ORDER BY step_index ASC, created_at, id`. */
  predicate ClaimsBefore(conts: map<Id, Continuation>, x: Id, y: Id)
    requires x in conts && y in conts
  {
    var a, b := conts[x], conts[y];
    a.step < b.step || (a.step == b.step && (a.created < b.created || (a.created == b.created && x <= y)))
  }

  /** The row that `claim_due_continuation` selects. */
  ghost predicate FirstDue(conts: map<Id, Continuation>, now: Time, cid: Id) {
    && cid in conts && Due(conts[cid], now)
    && forall y :: y in conts && Due(conts[y], now) ==> ClaimsBefore(conts, cid, y)
  }
}

/** What each method of `AutonomyStore` does to the database, as one function per transaction. */
module Operations {
  import opened Wrappers
  import opened Text
  import opened Models
  import opened Tables
  import opened Queries

  /** `_owned_row`: version, owner and token, expiry, state, in this order. */
  function OwnedRow(conts: map<Id, Continuation>, cid: Id, worker: Worker, token: Token, version: nat, now: Time)
    : Result<Continuation, Err>
  {
    if cid !in conts then Failure(NotFound) else
    var r := conts[cid];
    if r.version != version then Failure(ConcurrentUpdate)
    else if r.owner != Some(worker) || r.token != Some(token) then Failure(LeaseLost)
    else if r.expires.None? || r.expires.value <= now then Failure(LeaseLost)
    else if !r.state.Active() then Failure(InvalidTransition)
    else Success(r)
  }

  function Admit(db: Db, cid: Id, maxAttempts: int, actor: string, now: Time): Outcome {
    if maxAttempts < 1 then RolledBack(BadValue)
    else if cid in db.conts then RolledBack(IntegrityError)
    else
      var row := Continuation(READY, 1, 0, 0, maxAttempts, None, None, None, None, None, None, now);
      Committed(db.(
        conts := db.conts[cid := row],
        log := db.log + [Entry(now, cid, actor, ContinuationCreated(maxAttempts))]), Plain)
  }

  /** Claims row `cid`, which has to be the row the query of `claim_due_continuation` returns. */
  ghost function Claim(db: Db, cid: Id, worker: Worker, token: Token, lease: int, now: Time): Outcome {
    if Blank(worker) then RolledBack(BadValue)
    else if !FirstDue(db.conts, now, cid) then RolledBack(ConcurrentUpdate)
    else
      var r := db.conts[cid];
      var expires := Later(now, lease);
      var row := r.(state := RUNNING, version := r.version + 1, owner := Some(worker), token := Some(token),
                    expires := Some(expires), heartbeat := Some(now), wake := None);
      Committed(db.(
        conts := db.conts[cid := row],
        log := db.log + [Entry(now, cid, worker, LeaseAcquired(expires, r.state))]), Plain)
  }

  function Renew(db: Db, cid: Id, worker: Worker, token: Token, lease: int, record: bool, now: Time): Outcome {
    if || cid !in db.conts
       || db.conts[cid].owner != Some(worker) || db.conts[cid].token != Some(token)
       || db.conts[cid].expires.None? || db.conts[cid].expires.value <= now
       || !db.conts[cid].state.Active()
    then RolledBack(LeaseLost)
    else
      var expires := Later(now, lease);
      var row := db.conts[cid].(expires := Some(expires), heartbeat := Some(now));
      Committed(db.(
        conts := db.conts[cid := row],
        log := if record then db.log + [Entry(now, cid, worker, LeaseRenewed(expires))] else db.log), Plain)
  }

  /** `transition` as its one caller `mark_exhausted` uses it. */
  function MarkExhausted(db: Db, cid: Id, worker: Worker, token: Token, version: nat, reason: string, now: Time)
    : Outcome
  {
    match OwnedRow(db.conts, cid, worker, token, version, now)
    case Failure(e) => RolledBack(e)
    case Success(r) =>
      if EXHAUSTED !in Allowed(r.state) then RolledBack(InvalidTransition) else
      var row := Released(r).(state := EXHAUSTED, version := r.version + 1, wake := None, lastError := Some(reason));
      Committed(db.(
        conts := db.conts[cid := row],
        log := db.log + [Entry(now, cid, worker, ContinuationExhausted(r.state, EXHAUSTED, reason))]), Plain)
  }

  /** One turn of the loop of `recover_expired_leases`. */
  ghost function RecoverOne(db: Db, cid: Id, delay: int, now: Time): (next: Db)
    requires cid in db.conts
    ensures Expired(next.conts, now) == Expired(db.conts, now) - {cid}
  {
    var r := db.conts[cid];
    var pending := LatestPending(db.decs, cid);
    var status := if pending.Some? then Some(db.decs[pending.value].status) else None;
    var decs :=
      if status == Some(RESERVED) || status == Some(EXECUTING)
      then db.decs[pending.value := db.decs[pending.value].(recovery := true)] else db.decs;
    var exhausted := r.attempts >= r.maxAttempts && pending.None? && !HasPass(db.evid, cid);
    var to := if exhausted then EXHAUSTED else READY;
    var row := Released(r).(
      state := to, version := r.version + 1,
      wake := if exhausted then None else Some(Later(now, delay)),
      lastError := Some(if exhausted then "attempt budget exhausted after lease expiry" else "worker lease expired"));
    db.(conts := db.conts[cid := row], decs := decs,
        log := db.log + [Entry(now, cid, "recovery", LeaseExpired(r.owner, r.state, to, status))])
  }

  predicate HasPass(evid: map<Id, EvidenceRow>, cid: Id) {
    exists e :: e in evid && evid[e].cid == cid && evid[e].verification.verdict == PASS
  }

  /** `recover_expired_leases`: every expired lease in the order of expiry, in one transaction. */
  ghost function Recover(db: Db, delay: int, now: Time): Db
    decreases |Expired(db.conts, now)|
  {
    var ids := Expired(db.conts, now);
    if ids == {} then db else
    var c := First(ids, ExpiresAt(db.conts));
    Recover(RecoverOne(db, c, delay, now), delay, now)
  }

  /** What one turn of the recovery loop keeps, the whole loop keeps. */
  lemma {:induction false} RecoverKeeps(db: Db, delay: int, now: Time, p: Db -> bool)
    requires p(db)
    requires forall d: Db, c :: p(d) && c in Expired(d.conts, now) ==> p(RecoverOne(d, c, delay, now))
    ensures p(Recover(db, delay, now))
    decreases |Expired(db.conts, now)|
  {
    var ids := Expired(db.conts, now);
    if ids != {} {
      RecoverKeeps(RecoverOne(db, First(ids, ExpiresAt(db.conts)), delay, now), delay, now, p);
    }
  }

  /** The decision that already holds an idempotency key. */
  predicate HoldsKey(decs: map<Id, DecisionRow>, key: string, d: Id) {
    d in decs && decs[d].key == key
  }

  /** The key a reservation goes by: the planner's own, or a digest of the request. */
  function ReservationKey(item: Decision, digest: string): string {
    if item.key.Some? && item.key.value != "" then item.key.value else digest
  }

  /** The transaction of `reserve_decision`, for a payload and a key already worked out. */
  ghost function ReserveKeyed(db: Db, cid: Id, worker: Worker, token: Token, version: nat, capability: Option<string>,
                              payload: Payload, key: string, did: Id, now: Time): Outcome
  {
    match OwnedRow(db.conts, cid, worker, token, version, now)
    case Failure(e) => RolledBack(e)
    case Success(r) =>
      if exists d :: HoldsKey(db.decs, key, d) then
        var d :| HoldsKey(db.decs, key, d);
        if db.decs[d].cid != cid || db.decs[d].payload != payload then RolledBack(IdempotencyConflict)
        else Committed(db, Reservation(d, false))
      else if r.attempts >= r.maxAttempts then RolledBack(AttemptBudgetExceeded)
      else if did in db.decs then RolledBack(IntegrityError)
      else
        var d := DecisionRow(cid, r.step, EXECUTE, capability, payload, key, RESERVED, None, false, None, now);
        var row := r.(version := r.version + 1, attempts := r.attempts + 1);
        Committed(db.(
          conts := db.conts[cid := row], decs := db.decs[did := d],
          log := db.log + [Entry(now, cid, worker, DecisionReserved(did, key, capability))]),
          Reservation(did, true))
  }

  /** What is stored for a reservation: the cleaned decision under its reservation key. */
  function ReservedPayload(item: Decision, digest: string): Payload
    requires AsDict(item).Success?
  {
    AsDict(item).value.(key := Some(ReservationKey(item, digest)))
  }

  /** `reserve_decision`; `digest` and `did` stand for the two hashes it computes. */
  ghost function Reserve(db: Db, cid: Id, worker: Worker, token: Token, version: nat, decision: Decision,
                         digest: string, did: Id, now: Time): Outcome
  {
    match Normalized(decision)
    case Failure(_) => RolledBack(BadValue)
    case Success(item) =>
      if item.kind != Enum(EXECUTE) then RolledBack(BadValue) else
      CleanedKind(decision);
      ReserveKeyed(db, cid, worker, token, version, item.capability, ReservedPayload(item, digest),
                   ReservationKey(item, digest), did, now)
  }

  function MarkStarted(db: Db, did: Id, worker: Worker, token: Token, version: nat, now: Time): Outcome {
    if did !in db.decs then RolledBack(NotFound) else
    var d := db.decs[did];
    match OwnedRow(db.conts, d.cid, worker, token, version, now)
    case Failure(e) => RolledBack(e)
    case Success(r) =>
      if d.status == EXECUTING then Committed(db, Plain)
      else if d.status != RESERVED then RolledBack(OtherAutonomyError)
      else Committed(db.(
        conts := db.conts[d.cid := r.(version := r.version + 1)],
        decs := db.decs[did := d.(status := EXECUTING)],
        log := db.log + [Entry(now, d.cid, worker, ExecutionStarted(did))]), Plain)
  }

  function RecordExecution(db: Db, did: Id, worker: Worker, token: Token, version: nat, result: CapabilityResult,
                           now: Time): Outcome
  {
    if did !in db.decs then RolledBack(NotFound) else
    var d := db.decs[did];
    match OwnedRow(db.conts, d.cid, worker, token, version, now)
    case Failure(e) => RolledBack(e)
    case Success(r) =>
      if d.status == EXECUTED then
        if d.result != Some(result) then RolledBack(OtherAutonomyError) else Committed(db, Plain)
      else if d.status != RESERVED && d.status != EXECUTING then RolledBack(OtherAutonomyError)
      else Committed(db.(
        conts := db.conts[d.cid := r.(state := VERIFYING, version := r.version + 1)],
        decs := db.decs[did := d.(status := EXECUTED, result := Some(result), recovery := false)],
        log := db.log + [Entry(now, d.cid, worker, CapabilityExecuted(did, result))]), Plain)
  }

  predicate JudgedBy(evid: map<Id, EvidenceRow>, did: Id, e: Id) {
    e in evid && evid[e].did == did
  }

  /** `record_verdict` without its lessons, which module Experience covers; `eid` stands for the hash it computes. */
  ghost function RecordVerdict(db: Db, did: Id, worker: Worker, token: Token, version: nat, v: Verification,
                               to: State, wake: Option<Time>, lastError: Option<string>, eid: Id, now: Time): Outcome
  {
    if did !in db.decs then RolledBack(NotFound) else
    var d := db.decs[did];
    match OwnedRow(db.conts, d.cid, worker, token, version, now)
    case Failure(e) => RolledBack(e)
    case Success(r) =>
      if exists e :: JudgedBy(db.evid, did, e) then
        var e :| JudgedBy(db.evid, did, e);
        if db.evid[e].verification != v then RolledBack(OtherAutonomyError) else Committed(db, Plain)
      else if d.status != EXECUTED then RolledBack(OtherAutonomyError)
      else if to !in Allowed(r.state) then RolledBack(InvalidTransition)
      else if eid in db.evid then RolledBack(IntegrityError)
      else Committed(db.(
        conts := db.conts[d.cid := Released(r).(
          state := to, version := r.version + 1, step := r.step + 1, wake := wake, lastError := lastError)],
        decs := db.decs[did := d.(status := VERIFIED, evidence := Some(eid), recovery := false)],
        evid := db.evid[eid := EvidenceRow(d.cid, did, v, now)],
        log := db.log + [Entry(now, d.cid, v.verifierId, VerdictRecorded(eid, did, v.verdict, to, v.summary))]), Plain)
  }

  /** Where a decision other than EXECUTE sends its continuation. */
  function Destination(k: Kind): State {
    match k
    case FINISH => SUCCEEDED
    case WAIT => WAITING
    case CANCEL => CANCELLED
    case _ => BLOCKED
  }

  function WakeAfter(item: Decision, now: Time): Option<Time> {
    if item.kind == Enum(WAIT)
    then Some(Later(now, if item.waitMicros.Some? then item.waitMicros.value else 0)) else None
  }

  predicate PassEvidence(evid: map<Id, EvidenceRow>, e: Option<Id>, cid: Id) {
    e.Some? && e.value in evid && evid[e.value].cid == cid && evid[e.value].verification.verdict == PASS
  }

  /** The unique key of a decision other than EXECUTE: its own, or its id, whose text is `didText`. */
  function PlainKey(item: Decision, didText: string): string {
    if item.key.Some? && item.key.value != "" then item.key.value else didText
  }

  /** The transaction of `apply_non_execution_decision`, for a cleaned decision and its payload. */
  ghost function ApplyItem(db: Db, cid: Id, worker: Worker, token: Token, version: nat, item: Decision,
                           payload: Payload, did: Id, key: string, now: Time): Outcome
    requires item.kind.Enum?
  {
    match OwnedRow(db.conts, cid, worker, token, version, now)
    case Failure(e) => RolledBack(e)
    case Success(r) =>
      var kind := item.kind.kind;
      if kind == FINISH && !PassEvidence(db.evid, item.evidenceId, cid) then RolledBack(VerificationRequired)
      else if did in db.decs || exists d :: HoldsKey(db.decs, key, d) then RolledBack(IntegrityError)
      else
        var to := Destination(kind);
        var wake := WakeAfter(item, now);
        var d := DecisionRow(cid, r.step, kind, None, payload, key, VERIFIED, None, false, item.evidenceId, now);
        var row := Released(r).(
          state := to, version := r.version + 1, step := r.step + 1, wake := wake,
          lastError := if to == BLOCKED || to == CANCELLED then Some(item.reason) else None);
        Committed(db.(
          conts := db.conts[cid := row], decs := db.decs[did := d],
          log := db.log + [Entry(now, cid, worker,
                                 DecisionTaken(did, kind, to, item.evidenceId, wake, item.reason))]), Plain)
  }

  /** `apply_non_execution_decision`; `did` and `didText` stand for the id it derives. */
  ghost function ApplyPlain(db: Db, cid: Id, worker: Worker, token: Token, version: nat, decision: Decision,
                            did: Id, didText: string, now: Time): Outcome
  {
    match Normalized(decision)
    case Failure(_) => RolledBack(BadValue)
    case Success(item) =>
      if item.kind == Enum(EXECUTE) then RolledBack(BadValue) else
      CleanedKind(decision);
      ApplyItem(db, cid, worker, token, version, item, AsDict(item).value, did, PlainKey(item, didText), now)
  }

  function CancelContinuation(db: Db, cid: Id, actor: string, now: Time): Outcome {
    if cid !in db.conts then RolledBack(NotFound) else
    var r := db.conts[cid];
    if r.state.Terminal() then Committed(db, Plain) else
    var row := Released(r).(state := CANCELLED, version := r.version + 1, wake := None);
    Committed(db.(
      conts := db.conts[cid := row],
      log := db.log + [Entry(now, cid, actor, ContinuationCancelled(r.state))]), Plain)
  }

  /** A call of one store method with arbitrary arguments. */
  datatype Call =
    | DoAdmit(cid: Id, maxAttempts: int, actor: string, now: Time)
    | DoClaim(cid: Id, worker: Worker, token: Token, lease: int, now: Time)
    | DoRenew(cid: Id, worker: Worker, token: Token, lease: int, record: bool, now: Time)
    | DoExhaust(cid: Id, worker: Worker, token: Token, version: nat, reason: string, now: Time)
    | DoRecover(delay: int, now: Time)
    | DoReserve(cid: Id, worker: Worker, token: Token, version: nat, decision: Decision, digest: string, did: Id,
                now: Time)
    | DoStart(did: Id, worker: Worker, token: Token, version: nat, now: Time)
    | DoRecord(did: Id, worker: Worker, token: Token, version: nat, result: CapabilityResult, now: Time)
    | DoVerdict(did: Id, worker: Worker, token: Token, version: nat, verification: Verification, to: State,
                wake: Option<Time>, lastError: Option<string>, eid: Id, now: Time)
    | DoApply(cid: Id, worker: Worker, token: Token, version: nat, decision: Decision, did: Id, didText: string,
              now: Time)
    | DoCancel(cid: Id, actor: string, now: Time)

  ghost function Perform(db: Db, call: Call): Outcome {
    match call
    case DoAdmit(c, m, a, now) => Admit(db, c, m, a, now)
    case DoClaim(c, w, t, l, now) => Claim(db, c, w, t, l, now)
    case DoRenew(c, w, t, l, rec, now) => Renew(db, c, w, t, l, rec, now)
    case DoExhaust(c, w, t, v, reason, now) => MarkExhausted(db, c, w, t, v, reason, now)
    case DoRecover(delay, now) => Committed(Recover(db, delay, now), Plain)
    case DoReserve(c, w, t, v, d, digest, did, now) => Reserve(db, c, w, t, v, d, digest, did, now)
    case DoStart(did, w, t, v, now) => MarkStarted(db, did, w, t, v, now)
    case DoRecord(did, w, t, v, result, now) => RecordExecution(db, did, w, t, v, result, now)
    case DoVerdict(did, w, t, v, judged, to, wake, err, eid, now) =>
      RecordVerdict(db, did, w, t, v, judged, to, wake, err, eid, now)
    case DoApply(c, w, t, v, d, did, text, now) => ApplyPlain(db, c, w, t, v, d, did, text, now)
    case DoCancel(c, a, now) => CancelContinuation(db, c, a, now)
  }

  ghost function Performed(db: Db, call: Call): Db {
    After(db, Perform(db, call))
  }

  /** The database after a sequence of calls, oldest first, made by anybody in any order. */
  ghost function PerformAll(calls: seq<Call>): Db {
    if calls == [] then EMPTY
    else Performed(PerformAll(calls[..|calls| - 1]), calls[|calls| - 1])
  }
}
