/** Folding the event log gives back the tables. */
module Replay {
  import opened Wrappers
  import opened Models
  import opened Tables
  import opened Queries
  import opened Operations
  import opened Effects

  /** The part of each row that the log determines. */
  datatype ContinuationView = ContinuationView(
    state: State, version: nat, step: nat, attempts: nat, maxAttempts: nat, owner: Option<Worker>)
  datatype DecisionView = DecisionView(cid: Id, kind: Kind, status: Status, evidence: Option<Id>)
  datatype EvidenceView = EvidenceView(cid: Id, did: Id, verdict: Verdict)

  datatype View = View(
    conts: map<Id, ContinuationView>, decs: map<Id, DecisionView>, evid: map<Id, EvidenceView>)

  function ViewRow(r: Continuation): ContinuationView {
    ContinuationView(r.state, r.version, r.step, r.attempts, r.maxAttempts, r.owner)
  }

  function ViewDecision(d: DecisionRow): DecisionView {
    DecisionView(d.cid, d.kind, d.status, d.evidence)
  }

  function ViewEvidence(e: EvidenceRow): EvidenceView {
    EvidenceView(e.cid, e.did, e.verification.verdict)
  }

  function ViewConts(conts: map<Id, Continuation>): map<Id, ContinuationView> {
    map c | c in conts :: ViewRow(conts[c])
  }

  function ViewDecisions(decs: map<Id, DecisionRow>): map<Id, DecisionView> {
    map d | d in decs :: ViewDecision(decs[d])
  }

  function ViewEvidences(evid: map<Id, EvidenceRow>): map<Id, EvidenceView> {
    map e | e in evid :: ViewEvidence(evid[e])
  }

  function ViewOf(db: Db): View {
    View(ViewConts(db.conts), ViewDecisions(db.decs), ViewEvidences(db.evid))
  }

  /** One continuation event: a target state, steps and attempts charged, and who holds the lease afterwards. */
  function Move(conts: map<Id, ContinuationView>, cid: Id, to: State, steps: nat, attempts: nat, owner: Option<Worker>)
    : map<Id, ContinuationView>
  {
    if cid !in conts then conts else
    var r := conts[cid];
    conts[cid := r.(state := to, version := r.version + 1, step := r.step + steps,
                    attempts := r.attempts + attempts, owner := owner)]
  }

  function OwnerOf(conts: map<Id, ContinuationView>, cid: Id): Option<Worker> {
    if cid in conts then conts[cid].owner else None
  }

  function StateOf(conts: map<Id, ContinuationView>, cid: Id): State {
    if cid in conts then conts[cid].state else READY
  }

  function ApplyConts(conts: map<Id, ContinuationView>, e: Entry): map<Id, ContinuationView> {
    var c := e.cid;
    match e.event
    case ContinuationCreated(m) => conts[c := ContinuationView(READY, 1, 0, 0, m, None)]
    case LeaseAcquired(_, _) => Move(conts, c, RUNNING, 0, 0, Some(e.actor))
    case LeaseRenewed(_) => conts
    case LeaseExpired(_, _, to, _) => Move(conts, c, to, 0, 0, None)
    case ContinuationExhausted(_, to, _) => Move(conts, c, to, 0, 0, None)
    case DecisionReserved(_, _, _) => Move(conts, c, StateOf(conts, c), 0, 1, OwnerOf(conts, c))
    case ExecutionStarted(_) => Move(conts, c, StateOf(conts, c), 0, 0, OwnerOf(conts, c))
    case CapabilityExecuted(_, _) => Move(conts, c, VERIFYING, 0, 0, OwnerOf(conts, c))
    case VerdictRecorded(_, _, _, to, _) => Move(conts, c, to, 1, 0, None)
    case DecisionTaken(_, _, to, _, _, _) => Move(conts, c, to, 1, 0, None)
    case ContinuationCancelled(_) => Move(conts, c, CANCELLED, 0, 0, None)
  }

  function Restate(decs: map<Id, DecisionView>, did: Id, status: Status): map<Id, DecisionView> {
    if did !in decs then decs else decs[did := decs[did].(status := status)]
  }

  function ApplyDecisions(decs: map<Id, DecisionView>, e: Entry): map<Id, DecisionView> {
    match e.event
    case DecisionReserved(did, _, _) => decs[did := DecisionView(e.cid, EXECUTE, RESERVED, None)]
    case ExecutionStarted(did) => Restate(decs, did, EXECUTING)
    case CapabilityExecuted(did, _) => Restate(decs, did, EXECUTED)
    case VerdictRecorded(eid, did, _, _, _) => 
      if did !in decs then decs else decs[did := decs[did].(status := VERIFIED, evidence := Some(eid))]
    case DecisionTaken(did, kind, _, evidence, _, _) => decs[did := DecisionView(e.cid, kind, VERIFIED, evidence)]
    case _ => decs
  }

  function ApplyEvidence(evid: map<Id, EvidenceView>, e: Entry): map<Id, EvidenceView> {
    match e.event
    case VerdictRecorded(eid, did, verdict, _, _) => evid[eid := EvidenceView(e.cid, did, verdict)]
    case _ => evid
  }

  function Apply(v: View, e: Entry): View {
    View(ApplyConts(v.conts, e), ApplyDecisions(v.decs, e), ApplyEvidence(v.evid, e))
  }

  function Fold(log: seq<Entry>): View {
    if log == [] then View(map[], map[], map[]) else Apply(Fold(log[..|log| - 1]), log[|log| - 1])
  }

  ghost predicate Agrees(db: Db) {
    Fold(db.log) == ViewOf(db)
  }

  lemma FoldAppend(log: seq<Entry>, e: Entry)
    ensures Fold(log + [e]) == Apply(Fold(log), e)
  {
    assert (log + [e])[..|log|] == log;
  }

  /** A database that differs from an agreeing one by one event agrees when the event describes the difference. */
  lemma AgreeStep(db: Db, next: Db, e: Entry)
    requires Agrees(db) && next.log == db.log + [e]
    requires ViewOf(next) == Apply(ViewOf(db), e)
    ensures Agrees(next)
  {
    FoldAppend(db.log, e);
  }

  lemma ViewRowWrite(conts: map<Id, Continuation>, c: Id, r: Continuation)
    ensures ViewConts(conts[c := r]) == ViewConts(conts)[c := ViewRow(r)]
    ensures c in conts ==> c in ViewConts(conts) && ViewConts(conts)[c] == ViewRow(conts[c])
    ensures c in conts && ViewRow(conts[c]) == ViewRow(r) ==> ViewConts(conts[c := r]) == ViewConts(conts)
  {
  }

  lemma ViewDecisionWrite(decs: map<Id, DecisionRow>, d: Id, r: DecisionRow)
    ensures ViewDecisions(decs[d := r]) == ViewDecisions(decs)[d := ViewDecision(r)]
    ensures d in decs ==> d in ViewDecisions(decs) && ViewDecisions(decs)[d] == ViewDecision(decs[d])
    ensures d in decs && ViewDecision(decs[d]) == ViewDecision(r) ==>
      ViewDecisions(decs[d := r]) == ViewDecisions(decs)
  {
  }

  lemma ViewEvidenceWrite(evid: map<Id, EvidenceRow>, e: Id, r: EvidenceRow)
    ensures ViewEvidences(evid[e := r]) == ViewEvidences(evid)[e := ViewEvidence(r)]
  {
  }

  lemma RecoverOneAgrees(db: Db, cid: Id, delay: int, now: Time)
    requires Agrees(db) && cid in db.conts
    ensures Agrees(RecoverOne(db, cid, delay, now))
  {
    var next := RecoverOne(db, cid, delay, now);
    hide ViewConts, ViewDecisions, ViewEvidences, Fold;
    var pending := LatestPending(db.decs, cid);
    ViewRowWrite(db.conts, cid, next.conts[cid]);
    if pending.Some? { ViewDecisionWrite(db.decs, pending.value, next.decs[pending.value]); }
    AgreeStep(db, next, next.log[|db.log|]);
  }

  lemma {:induction false} RecoverAgrees(db: Db, delay: int, now: Time)
    requires Agrees(db)
    ensures Agrees(Recover(db, delay, now))
  {
    forall d: Db, c | Agrees(d) && c in Expired(d.conts, now) ensures Agrees(RecoverOne(d, c, delay, now)) {
      RecoverOneAgrees(d, c, delay, now);
    }
    RecoverKeeps(db, delay, now, (d: Db) => Agrees(d));
  }

  /** A row is written, one event is logged, and the event tells what the row became. */
  lemma LoggedAgrees(db: Db, next: Db, c: Id, r: Continuation, e: Event)
    requires Agrees(db) && Logged(db, next, c, r, e) && c in db.conts
    requires var entry := next.log[|db.log|];
             && ApplyConts(ViewConts(db.conts), entry) == ViewConts(db.conts)[c := ViewRow(r)]
             && ApplyDecisions(ViewDecisions(db.decs), entry) == ViewDecisions(next.decs)
             && ApplyEvidence(ViewEvidences(db.evid), entry) == ViewEvidences(next.evid)
    ensures Agrees(next)
  {
    var entry := next.log[|db.log|];
    assert next.log == db.log + [entry];
    ViewRowWrite(db.conts, c, r);
    hide Fold, ViewConts, ViewDecisions, ViewEvidences, ApplyConts, ApplyDecisions, ApplyEvidence;
    AgreeStep(db, next, entry);
  }

  lemma AdmitAgrees(db: Db, c: Id, m: int, now: Time, next: Db)
    requires Agrees(db) && AdmitWrote(db, c, m, now, next)
    ensures Agrees(next)
  {
    assert next.log == db.log + [next.log[|db.log|]];
    ViewRowWrite(db.conts, c, next.conts[c]);
    hide Fold, ViewConts, ViewDecisions, ViewEvidences;
    AgreeStep(db, next, next.log[|db.log|]);
  }

  lemma ClaimAgrees(db: Db, c: Id, w: Worker, t: Token, expires: Time, now: Time, next: Db)
    requires Agrees(db) && ClaimWrote(db, c, w, t, expires, now, next) && next.log[|db.log|].actor == w
    ensures Agrees(next)
  {
    ViewRowWrite(db.conts, c, next.conts[c]);
    hide Agrees, ViewConts, ViewDecisions, ViewEvidences;
    LoggedAgrees(db, next, c, next.conts[c], next.log[|db.log|].event);
  }

  lemma RenewAgrees(db: Db, c: Id, w: Worker, t: Token, expires: Time, record: bool, now: Time, next: Db)
    requires Agrees(db) && RenewWrote(db, c, w, t, expires, record, now, next)
    ensures Agrees(next)
  {
    ViewRowWrite(db.conts, c, next.conts[c]);
    hide ViewConts, ViewDecisions, ViewEvidences, Fold;
    if record {
      assert next.log == db.log + [next.log[|db.log|]];
      AgreeStep(db, next, next.log[|db.log|]);
    }
  }

  lemma ExhaustAgrees(db: Db, c: Id, w: Worker, t: Token, v: nat, reason: string, now: Time, next: Db)
    requires Agrees(db) && ExhaustWrote(db, c, w, t, v, reason, now, next)
    ensures Agrees(next)
  {
    ViewRowWrite(db.conts, c, next.conts[c]);
    hide Agrees, ViewConts, ViewDecisions, ViewEvidences;
    LoggedAgrees(db, next, c, next.conts[c], next.log[|db.log|].event);
  }

  lemma CancelAgrees(db: Db, c: Id, next: Db)
    requires Agrees(db) && CancelWrote(db, c, next)
    ensures Agrees(next)
  {
    ViewRowWrite(db.conts, c, next.conts[c]);
    hide Agrees, ViewConts, ViewDecisions, ViewEvidences;
    LoggedAgrees(db, next, c, next.conts[c], next.log[|db.log|].event);
  }

  lemma ReserveAgrees(db: Db, c: Id, w: Worker, t: Token, v: nat, capability: Option<string>, payload: Payload,
                      key: string, did: Id, now: Time, next: Db)
    requires Agrees(db) && ReserveWrote(db, c, w, t, v, capability, payload, key, did, now, next)
    ensures Agrees(next)
  {
    ViewRowWrite(db.conts, c, next.conts[c]);
    ViewDecisionWrite(db.decs, did, next.decs[did]);
    hide Agrees, ViewConts, ViewDecisions, ViewEvidences;
    LoggedAgrees(db, next, c, next.conts[c], next.log[|db.log|].event);
  }

  lemma StartAgrees(db: Db, did: Id, w: Worker, t: Token, v: nat, now: Time, next: Db)
    requires Agrees(db) && StartWrote(db, did, w, t, v, now, next)
    ensures Agrees(next)
  {
    var c := db.decs[did].cid;
    ViewRowWrite(db.conts, c, next.conts[c]);
    ViewDecisionWrite(db.decs, did, next.decs[did]);
    hide Agrees, ViewConts, ViewDecisions, ViewEvidences;
    LoggedAgrees(db, next, c, next.conts[c], next.log[|db.log|].event);
  }

  lemma RecordAgrees(db: Db, did: Id, w: Worker, t: Token, v: nat, result: CapabilityResult, now: Time, next: Db)
    requires Agrees(db) && RecordWrote(db, did, w, t, v, result, now, next)
    ensures Agrees(next)
  {
    var c := db.decs[did].cid;
    ViewRowWrite(db.conts, c, next.conts[c]);
    ViewDecisionWrite(db.decs, did, next.decs[did]);
    hide Agrees, ViewConts, ViewDecisions, ViewEvidences;
    LoggedAgrees(db, next, c, next.conts[c], next.log[|db.log|].event);
  }

  lemma VerdictAgrees(db: Db, did: Id, w: Worker, t: Token, v: nat, judged: Verification, to: State, wake: Option<Time>,
                      err: Option<string>, eid: Id, now: Time, next: Db)
    requires Agrees(db) && VerdictWrote(db, did, w, t, v, judged, to, wake, err, eid, now, next)
    ensures Agrees(next)
  {
    var c := db.decs[did].cid;
    ViewRowWrite(db.conts, c, next.conts[c]);
    ViewDecisionWrite(db.decs, did, next.decs[did]);
    ViewEvidenceWrite(db.evid, eid, next.evid[eid]);
    hide Agrees, ViewConts, ViewDecisions, ViewEvidences, Allowed;
    LoggedAgrees(db, next, c, next.conts[c], next.log[|db.log|].event);
  }

  lemma ApplyAgrees(db: Db, c: Id, w: Worker, t: Token, v: nat, item: Decision, payload: Payload, did: Id,
                    key: string, now: Time, next: Db)
    requires item.kind.Enum?
    requires Agrees(db) && ApplyWrote(db, c, w, t, v, item, payload, did, key, now, next)
    ensures Agrees(next)
  {
    ViewRowWrite(db.conts, c, next.conts[c]);
    ViewDecisionWrite(db.decs, did, next.decs[did]);
    hide Agrees, ViewConts, ViewDecisions, ViewEvidences, Destination, WakeAfter;
    LoggedAgrees(db, next, c, next.conts[c], next.log[|db.log|].event);
  }

  /** Every store call, whatever its arguments, keeps the log and the tables in agreement. */
  lemma PerformAgrees(db: Db, call: Call)
    requires Agrees(db)
    ensures Agrees(Performed(db, call))
  {
    var next := Performed(db, call);
    EveryEffect(db, call);
    if next != db {
      match call {
        case DoAdmit(c, m, _, now) => AdmitAgrees(db, c, m, now, next);
        case DoClaim(c, w, t, lease, now) => ClaimAgrees(db, c, w, t, Later(now, lease), now, next);
        case DoRenew(c, w, t, lease, record, now) => RenewAgrees(db, c, w, t, Later(now, lease), record, now, next);
        case DoExhaust(c, w, t, v, reason, now) => ExhaustAgrees(db, c, w, t, v, reason, now, next);
        case DoRecover(delay, now) => RecoverAgrees(db, delay, now);
        case DoReserve(c, w, t, v, d, digest, did, now) =>
          var item := Normalized(d).value;
          ReserveAgrees(db, c, w, t, v, item.capability, ReservedPayload(item, digest), ReservationKey(item, digest),
                        did, now, next);
        case DoStart(did, w, t, v, now) => StartAgrees(db, did, w, t, v, now, next);
        case DoRecord(did, w, t, v, result, now) => RecordAgrees(db, did, w, t, v, result, now, next);
        case DoVerdict(did, w, t, v, judged, to, wake, err, eid, now) =>
          VerdictAgrees(db, did, w, t, v, judged, to, wake, err, eid, now, next);
        case DoApply(c, w, t, v, d, did, text, now) =>
          var item := Normalized(d).value;
          ApplyAgrees(db, c, w, t, v, item, AsDict(item).value, did, PlainKey(item, text), now, next);
        case DoCancel(c, _, _) => CancelAgrees(db, c, next);
      }
    }
  }
}
