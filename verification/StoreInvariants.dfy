/** What every store call keeps, whoever makes it and whatever its arguments. */
module StoreInvariants {
  import opened Wrappers
  import opened Models
  import opened Tables
  import opened Queries
  import opened Operations
  import opened Effects
  import opened Replay

  /** The four lease columns are set together, and exactly while somebody works on the row. */
  predicate LeaseWhole(r: Continuation) {
    && (r.state.Active() <==> r.owner.Some?)
    && (r.owner.Some? <==> r.token.Some?)
    && (r.owner.Some? <==> r.expires.Some?)
    && (r.owner.Some? <==> r.heartbeat.Some?)
  }

  predicate RowOk(r: Continuation) {
    LeaseWhole(r) && r.attempts <= r.maxAttempts && 1 <= r.maxAttempts
  }

  ghost predicate RowsOk(db: Db) {
    forall c :: c in db.conts ==> RowOk(db.conts[c])
  }

  /** A judged EXECUTE decision names its evidence row, and the row names the decision. */
  ghost predicate DecisionOk(db: Db, d: Id)
    requires d in db.decs
  {
    var row := db.decs[d];
    && row.cid in db.conts
    && (row.kind != EXECUTE ==> row.status == VERIFIED)
    && (row.status.Pending() ==> row.evidence.None?)
    && (row.kind == EXECUTE && row.status == VERIFIED ==>
          row.evidence.Some? && JudgedBy(db.evid, d, row.evidence.value))
    && (row.kind == FINISH ==> PassEvidence(db.evid, row.evidence, row.cid))
  }

  ghost predicate EvidenceOk(db: Db, e: Id)
    requires e in db.evid
  {
    var did := db.evid[e].did;
    && did in db.decs
    && db.decs[did].cid == db.evid[e].cid && db.decs[did].kind == EXECUTE
    && db.decs[did].status == VERIFIED && db.decs[did].evidence == Some(e)
  }

  ghost predicate LinksOk(db: Db) {
    && (forall d :: d in db.decs ==> DecisionOk(db, d))
    && (forall e :: e in db.evid ==> EvidenceOk(db, e))
  }

  ghost predicate KeysOk(db: Db) {
    forall a, b :: a in db.decs && b in db.decs && db.decs[a].key == db.decs[b].key ==> a == b
  }

  function Reservations(decs: map<Id, DecisionRow>, c: Id): set<Id> {
    set d | d in decs && decs[d].cid == c && decs[d].kind == EXECUTE
  }

  function Closed(decs: map<Id, DecisionRow>, c: Id): set<Id> {
    set d | d in decs && decs[d].cid == c && decs[d].status == VERIFIED
  }

  /** Attempts are EXECUTE decisions, steps are verified decisions. */
  ghost predicate CountsOk(db: Db) {
    && (forall c :: c in db.conts ==>
          db.conts[c].attempts == |Reservations(db.decs, c)| && db.conts[c].step == |Closed(db.decs, c)|)
    && (forall c :: c !in db.conts ==> Reservations(db.decs, c) == {} && Closed(db.decs, c) == {})
  }

  predicate Versioned(e: Entry) { !e.event.LeaseRenewed? }

  predicate Charges(e: Entry) { e.event.DecisionReserved? }

  predicate Steps(e: Entry) { e.event.VerdictRecorded? || e.event.DecisionTaken? }

  datatype Tally = Tally(versions: nat, attempts: nat, steps: nat)

  /** How many events of a continuation raise its version, its attempts and its steps. */
  function Count(log: seq<Entry>, c: Id): Tally {
    if log == [] then Tally(0, 0, 0) else
    var t, e := Count(log[..|log| - 1], c), log[|log| - 1];
    if e.cid != c then t else
    Tally(t.versions + if Versioned(e) then 1 else 0,
          t.attempts + if Charges(e) then 1 else 0,
          t.steps + if Steps(e) then 1 else 0)
  }

  ghost predicate TalliesOk(db: Db) {
    && (forall c :: c in db.conts ==>
          Count(db.log, c) == Tally(db.conts[c].version, db.conts[c].attempts, db.conts[c].step))
    && (forall c :: c !in db.conts ==> Count(db.log, c) == Tally(0, 0, 0))
  }

  ghost predicate TablesOk(db: Db) {
    RowsOk(db) && LinksOk(db) && KeysOk(db) && CountsOk(db)
  }

  ghost predicate Sound(db: Db) {
    Agrees(db) && TablesOk(db) && TalliesOk(db)
  }

  lemma CountAppend(log: seq<Entry>, e: Entry, c: Id)
    ensures Count(log + [e], c) ==
      if e.cid != c then Count(log, c) else
      Tally(Count(log, c).versions + if Versioned(e) then 1 else 0,
            Count(log, c).attempts + if Charges(e) then 1 else 0,
            Count(log, c).steps + if Steps(e) then 1 else 0)
  {
    assert (log + [e])[..|log|] == log;
  }

  /** Writing a decision row moves that row, and no other, in or out of the two sets that are counted. */
  lemma Recount(decs: map<Id, DecisionRow>, did: Id, row: DecisionRow, c: Id)
    ensures Reservations(decs[did := row], c) ==
      if row.cid == c && row.kind == EXECUTE then Reservations(decs, c) + {did} else Reservations(decs, c) - {did}
    ensures Closed(decs[did := row], c) ==
      if row.cid == c && row.status == VERIFIED then Closed(decs, c) + {did} else Closed(decs, c) - {did}
  {
  }

  /** The counters of one continuation move as its event says, and no other row changes. */
  ghost predicate OneEvent(db: Db, next: Db, c: Id, e: Entry) {
    && next.log == db.log + [e] && e.cid == c && c in next.conts
    && next.conts == db.conts[c := next.conts[c]]
    && var r, t := next.conts[c], if c in db.conts
         then Tally(db.conts[c].version, db.conts[c].attempts, db.conts[c].step) else Tally(0, 0, 0);
    && r.version == t.versions + (if Versioned(e) then 1 else 0)
    && r.attempts == t.attempts + (if Charges(e) then 1 else 0)
    && r.step == t.steps + (if Steps(e) then 1 else 0)
  }

  lemma Tallied(db: Db, next: Db, c: Id, e: Entry)
    requires TalliesOk(db) && OneEvent(db, next, c, e)
    ensures TalliesOk(next)
  {
    forall o { CountAppend(db.log, e, o); }
  }

  /** `next` differs from `db` in the row of one continuation only. */
  ghost predicate OneRow(db: Db, next: Db, c: Id) {
    && c in db.conts && c in next.conts && next.conts == db.conts[c := next.conts[c]]
    && RowOk(next.conts[c])
  }

  /** One decision row is written together with the row of its continuation. */
  ghost predicate OneDecision(db: Db, next: Db, did: Id) {
    && did in next.decs && next.decs == db.decs[did := next.decs[did]]
    && var d, c := next.decs[did], next.decs[did].cid;
    && OneRow(db, next, c)
    && (if did in db.decs then
          db.decs[did].cid == c && db.decs[did].kind == d.kind && db.decs[did].key == d.key
          && db.decs[did].status.Pending()
        else forall o :: !HoldsKey(db.decs, d.key, o))
    && next.conts[c].attempts == db.conts[c].attempts + (if did !in db.decs && d.kind == EXECUTE then 1 else 0)
    && next.conts[c].step == db.conts[c].step + (if d.status == VERIFIED then 1 else 0)
  }

  /** The decision gets no verdict: it stays open, or it is not an EXECUTE decision. */
  ghost predicate NoVerdict(db: Db, next: Db, did: Id) {
    && did in next.decs && next.evid == db.evid
    && (next.decs[did].kind == EXECUTE <==> next.decs[did].status.Pending())
    && (next.decs[did].status.Pending() ==> next.decs[did].evidence.None?)
    && (next.decs[did].kind == FINISH ==> PassEvidence(db.evid, next.decs[did].evidence, next.decs[did].cid))
  }

  /** The decision gets its verdict in a new evidence row. */
  ghost predicate OneVerdict(db: Db, next: Db, did: Id) {
    && did in next.decs && did in db.decs && next.decs[did].kind == EXECUTE && next.decs[did].status == VERIFIED
    && next.decs[did].evidence.Some?
    && var e := next.decs[did].evidence.value;
    && e !in db.evid && e in next.evid && next.evid == db.evid[e := next.evid[e]]
    && next.evid[e].did == did && next.evid[e].cid == next.decs[did].cid
  }

  lemma RowWrite(db: Db, next: Db, c: Id)
    requires TablesOk(db) && OneRow(db, next, c)
    requires next.decs == db.decs && next.evid == db.evid
    requires next.conts[c].attempts == db.conts[c].attempts && next.conts[c].step == db.conts[c].step
    ensures TablesOk(next)
  {
    assert LinksOk(next) by {
      forall d | d in next.decs ensures DecisionOk(next, d) { assert DecisionOk(db, d); }
      forall e | e in next.evid ensures EvidenceOk(next, e) { assert EvidenceOk(db, e); }
    }
  }

  lemma CountsWritten(db: Db, next: Db, did: Id)
    requires CountsOk(db) && OneDecision(db, next, did)
    ensures CountsOk(next)
  {
    hide Reservations, Closed, OneDecision;
    forall c
      ensures c in next.conts ==> next.conts[c].attempts == |Reservations(next.decs, c)|
                                  && next.conts[c].step == |Closed(next.decs, c)|
      ensures c !in next.conts ==> Reservations(next.decs, c) == {} && Closed(next.decs, c) == {}
    {
      CountsWrittenFor(db, next, did, c);
    }
  }

  lemma CountsWrittenFor(db: Db, next: Db, did: Id, c: Id)
    requires CountsOk(db) && OneDecision(db, next, did)
    ensures c in next.conts ==> next.conts[c].attempts == |Reservations(next.decs, c)|
                                && next.conts[c].step == |Closed(next.decs, c)|
    ensures c !in next.conts ==> Reservations(next.decs, c) == {} && Closed(next.decs, c) == {}
  {
    hide Reservations, Closed, RowOk;
    Recount(db.decs, did, next.decs[did], c);
    Counted(db.decs, did, c);
    var r, k := Reservations(db.decs, c), Closed(db.decs, c);
    assert did !in r ==> |r + {did}| == |r| + 1 && r - {did} == r;
    assert did in r ==> r + {did} == r;
    assert did !in k ==> |k + {did}| == |k| + 1 && k - {did} == k;
  }

  lemma Counted(decs: map<Id, DecisionRow>, did: Id, c: Id)
    ensures did in Reservations(decs, c) <==> did in decs && decs[did].cid == c && decs[did].kind == EXECUTE
    ensures did in Closed(decs, c) <==> did in decs && decs[did].cid == c && decs[did].status == VERIFIED
  {
  }

  lemma LinksWritten(db: Db, next: Db, did: Id)
    requires LinksOk(db) && OneDecision(db, next, did)
    requires NoVerdict(db, next, did) || OneVerdict(db, next, did)
    ensures LinksOk(next)
  {
    forall d | d in next.decs ensures DecisionOk(next, d) {
      if d != did { assert DecisionOk(db, d); }
    }
    forall e | e in next.evid ensures EvidenceOk(next, e) {
      if e in db.evid { assert EvidenceOk(db, e); }
    }
  }

  lemma KeysWritten(db: Db, next: Db, did: Id)
    requires KeysOk(db) && OneDecision(db, next, did)
    ensures KeysOk(next)
  {
    forall a, b | a in next.decs && b in next.decs && next.decs[a].key == next.decs[b].key ensures a == b {
      if did !in db.decs {
        assert a in db.decs ==> HoldsKey(db.decs, db.decs[a].key, a);
        assert b in db.decs ==> HoldsKey(db.decs, db.decs[b].key, b);
      }
    }
  }

  lemma DecisionWrite(db: Db, next: Db, did: Id)
    requires TablesOk(db) && OneDecision(db, next, did)
    requires NoVerdict(db, next, did) || OneVerdict(db, next, did)
    ensures TablesOk(next)
  {
    CountsWritten(db, next, did);
    LinksWritten(db, next, did);
    KeysWritten(db, next, did);
    hide CountsOk, LinksOk, KeysOk, NoVerdict, OneVerdict;
  }

  lemma RowAdded(db: Db, next: Db, c: Id)
    requires TablesOk(db) && c !in db.conts && c in next.conts && next.conts == db.conts[c := next.conts[c]]
    requires RowOk(next.conts[c]) && next.conts[c].attempts == 0 && next.conts[c].step == 0
    requires next.decs == db.decs && next.evid == db.evid
    ensures TablesOk(next)
  {
    assert LinksOk(next) by {
      forall d | d in next.decs ensures DecisionOk(next, d) { assert DecisionOk(db, d); }
      forall e | e in next.evid ensures EvidenceOk(next, e) { assert EvidenceOk(db, e); }
    }
  }

  /** A verdict may send a continuation anywhere but to a state that somebody has to be working on. */
  predicate WellAsked(call: Call) {
    call.DoVerdict? ==> !call.to.Active()
  }

  lemma OpenRow(db: Db, c: Id)
    requires RowsOk(db) && c in db.conts
    ensures RowOk(db.conts[c])
  {
  }

  lemma OpenDecision(db: Db, did: Id)
    requires RowsOk(db) && LinksOk(db) && did in db.decs
    ensures db.decs[did].cid in db.conts && RowOk(db.conts[db.decs[did].cid])
    ensures db.decs[did].status.Pending() ==> db.decs[did].evidence.None? && db.decs[did].kind == EXECUTE
  {
    assert DecisionOk(db, did);
  }

  lemma AdmitKeeps(db: Db, c: Id, m: int, now: Time, next: Db)
    requires TablesOk(db) && TalliesOk(db) && AdmitWrote(db, c, m, now, next)
    ensures TablesOk(next) && TalliesOk(next)
  {
    hide RowsOk, LinksOk, CountsOk, KeysOk, TalliesOk, Count;
    RowAdded(db, next, c);
    Tallied(db, next, c, next.log[|db.log|]);
  }

  lemma ClaimKeeps(db: Db, c: Id, w: Worker, t: Token, expires: Time, now: Time, next: Db)
    requires TablesOk(db) && TalliesOk(db) && ClaimWrote(db, c, w, t, expires, now, next)
    ensures TablesOk(next) && TalliesOk(next)
  {
    hide RowsOk, LinksOk, CountsOk, KeysOk, TalliesOk, Count;
    OpenRow(db, c);
    RowWrite(db, next, c);
    Tallied(db, next, c, next.log[|db.log|]);
  }

  lemma RenewKeeps(db: Db, c: Id, w: Worker, t: Token, expires: Time, record: bool, now: Time, next: Db)
    requires TablesOk(db) && TalliesOk(db) && RenewWrote(db, c, w, t, expires, record, now, next)
    ensures TablesOk(next) && TalliesOk(next)
  {
    assert RowOk(db.conts[c]);
    assert Count(next.log, c) == Count(db.log, c) || record;
    if !record { assert TalliesOk(next); }
    hide RowsOk, LinksOk, CountsOk, KeysOk, TalliesOk, Count;
    RowWrite(db, next, c);
    if record { Tallied(db, next, c, next.log[|db.log|]); }
  }

  lemma ExhaustKeeps(db: Db, c: Id, w: Worker, t: Token, v: nat, reason: string, now: Time, next: Db)
    requires TablesOk(db) && TalliesOk(db) && ExhaustWrote(db, c, w, t, v, reason, now, next)
    ensures TablesOk(next) && TalliesOk(next)
  {
    hide RowsOk, LinksOk, CountsOk, KeysOk, TalliesOk, Count;
    OpenRow(db, c);
    RowWrite(db, next, c);
    Tallied(db, next, c, next.log[|db.log|]);
  }

  lemma CancelKeeps(db: Db, c: Id, next: Db)
    requires TablesOk(db) && TalliesOk(db) && CancelWrote(db, c, next)
    ensures TablesOk(next) && TalliesOk(next)
  {
    hide RowsOk, LinksOk, CountsOk, KeysOk, TalliesOk, Count;
    OpenRow(db, c);
    RowWrite(db, next, c);
    Tallied(db, next, c, next.log[|db.log|]);
  }

  lemma ReserveKeeps(db: Db, c: Id, w: Worker, t: Token, v: nat, capability: Option<string>, payload: Payload,
                     key: string,
                      did: Id, now: Time, next: Db)
    requires TablesOk(db) && TalliesOk(db) && ReserveWrote(db, c, w, t, v, capability, payload, key, did, now, next)
    ensures TablesOk(next) && TalliesOk(next)
  {
    hide RowsOk, LinksOk, CountsOk, KeysOk, TalliesOk, Count;
    OpenRow(db, c);
    DecisionWrite(db, next, did);
    Tallied(db, next, c, next.log[|db.log|]);
  }

  lemma StartTables(db: Db, did: Id, w: Worker, t: Token, v: nat, now: Time, next: Db)
    requires TablesOk(db) && StartWrote(db, did, w, t, v, now, next)
    ensures TablesOk(next)
  {
    hide RowsOk, LinksOk, CountsOk, KeysOk, DecisionOk;
    OpenDecision(db, did);
    DecisionWrite(db, next, did);
  }

  lemma StartTallies(db: Db, did: Id, w: Worker, t: Token, v: nat, now: Time, next: Db)
    requires TalliesOk(db) && StartWrote(db, did, w, t, v, now, next)
    ensures TalliesOk(next)
  {
    hide TalliesOk, Count;
    Tallied(db, next, db.decs[did].cid, next.log[|db.log|]);
  }

  lemma RecordTables(db: Db, did: Id, w: Worker, t: Token, v: nat, result: CapabilityResult, now: Time, next: Db)
    requires TablesOk(db) && RecordWrote(db, did, w, t, v, result, now, next)
    ensures TablesOk(next)
  {
    hide RowsOk, LinksOk, CountsOk, KeysOk, DecisionOk;
    OpenDecision(db, did);
    DecisionWrite(db, next, did);
  }

  lemma RecordTallies(db: Db, did: Id, w: Worker, t: Token, v: nat, result: CapabilityResult, now: Time, next: Db)
    requires TalliesOk(db) && RecordWrote(db, did, w, t, v, result, now, next)
    ensures TalliesOk(next)
  {
    hide TalliesOk, Count;
    Tallied(db, next, db.decs[did].cid, next.log[|db.log|]);
  }

  lemma VerdictShape(db: Db, did: Id, w: Worker, t: Token, v: nat, judged: Verification, to: State, wake: Option<Time>,
                     err: Option<string>, eid: Id, now: Time, next: Db)
    requires VerdictWrote(db, did, w, t, v, judged, to, wake, err, eid, now, next) && !to.Active()
    requires RowOk(db.conts[db.decs[did].cid]) && db.decs[did].kind == EXECUTE
    ensures OneDecision(db, next, did) && OneVerdict(db, next, did)
  {
    hide Allowed;
  }

  lemma VerdictTables(db: Db, did: Id, w: Worker, t: Token, v: nat, judged: Verification, to: State, wake: Option<Time>,
                      err: Option<string>, eid: Id, now: Time, next: Db)
    requires TablesOk(db) && VerdictWrote(db, did, w, t, v, judged, to, wake, err, eid, now, next)
    requires !to.Active()
    ensures TablesOk(next)
  {
    hide RowsOk, LinksOk, CountsOk, KeysOk, DecisionOk, Allowed, OneDecision, OneVerdict, NoVerdict;
    OpenDecision(db, did);
    VerdictShape(db, did, w, t, v, judged, to, wake, err, eid, now, next);
    DecisionWrite(db, next, did);
  }

  lemma VerdictTallies(db: Db, did: Id, w: Worker, t: Token, v: nat, judged: Verification, to: State,
                       wake: Option<Time>,
                      err: Option<string>, eid: Id, now: Time, next: Db)
    requires TalliesOk(db) && VerdictWrote(db, did, w, t, v, judged, to, wake, err, eid, now, next)
    ensures TalliesOk(next)
  {
    hide TalliesOk, Count, Allowed;
    Tallied(db, next, db.decs[did].cid, next.log[|db.log|]);
  }

  lemma ApplyKeeps(db: Db, c: Id, w: Worker, t: Token, v: nat, item: Decision, payload: Payload, did: Id, key: string,
                    now: Time, next: Db)
    requires item.kind.Enum? && item.kind.kind != EXECUTE
    requires TablesOk(db) && TalliesOk(db) && ApplyWrote(db, c, w, t, v, item, payload, did, key, now, next)
    ensures TablesOk(next) && TalliesOk(next)
  {
    hide RowsOk, LinksOk, CountsOk, KeysOk, TalliesOk, Count, WakeAfter;
    OpenRow(db, c);
    DecisionWrite(db, next, did);
    Tallied(db, next, c, next.log[|db.log|]);
  }

  lemma RecoverOneShape(db: Db, cid: Id, delay: int, now: Time)
    requires cid in Expired(db.conts, now) && RowOk(db.conts[cid])
    requires forall d :: d in PendingIds(db.decs, cid) ==> DecisionOk(db, d)
    ensures var next := RecoverOne(db, cid, delay, now);
            && OneRow(db, next, cid) && next.evid == db.evid
            && next.conts[cid].attempts == db.conts[cid].attempts && next.conts[cid].step == db.conts[cid].step
            && |next.log| == |db.log| + 1 && OneEvent(db, next, cid, next.log[|db.log|])
            && (next.decs == db.decs
                || exists d :: OneDecision(db, next, d) && NoVerdict(db, next, d))
  {
    var next := RecoverOne(db, cid, delay, now);
    var pending := LatestPending(db.decs, cid);
    if next.decs != db.decs {
      assert DecisionOk(db, pending.value);
      assert OneDecision(db, next, pending.value) && NoVerdict(db, next, pending.value);
    }
  }

  lemma RecoverOneKeeps(db: Db, cid: Id, delay: int, now: Time)
    requires Sound(db) && cid in Expired(db.conts, now)
    ensures Sound(RecoverOne(db, cid, delay, now))
  {
    var next := RecoverOne(db, cid, delay, now);
    RecoverOneAgrees(db, cid, delay, now);
    RecoverOneShape(db, cid, delay, now);
    hide RecoverOne, Agrees, RowsOk, LinksOk, CountsOk, KeysOk, TalliesOk, OneDecision, NoVerdict;
    Tallied(db, next, cid, next.log[|db.log|]);
    if next.decs == db.decs {
      RowWrite(db, next, cid);
    } else {
      var d :| OneDecision(db, next, d) && NoVerdict(db, next, d);
      DecisionWrite(db, next, d);
    }
  }

  lemma RecoverKeepsSound(db: Db, delay: int, now: Time)
    requires Sound(db)
    ensures Sound(Recover(db, delay, now))
  {
    forall d: Db, c | Sound(d) && c in Expired(d.conts, now) ensures Sound(RecoverOne(d, c, delay, now)) {
      RecoverOneKeeps(d, c, delay, now);
    }
    RecoverKeeps(db, delay, now, (d: Db) => Sound(d));
  }

  /** Every call keeps the log and the tables coherent. */
  lemma PerformKeeps(db: Db, call: Call)
    requires Sound(db)
    requires WellAsked(call)
    ensures Sound(Performed(db, call))
  {
    hide Agrees, TablesOk, TalliesOk, Normalized, AsDict, RecoveredSoFar, Expired,
         AdmitWrote, ClaimWrote, RenewWrote, ExhaustWrote, ReserveWrote, StartWrote, RecordWrote, VerdictWrote, ApplyWrote,
         CancelWrote,
         Admit, Claim, Renew, MarkExhausted, Recover, ReserveKeyed, MarkStarted, RecordExecution, RecordVerdict,
         ApplyItem, CancelContinuation, Reserve, ApplyPlain;
    var next := Performed(db, call);
    EveryEffect(db, call);
    PerformAgrees(db, call);
    if next != db {
      match call {
        case DoAdmit(c, m, _, now) => AdmitKeeps(db, c, m, now, next);
        case DoClaim(c, w, t, lease, now) => ClaimKeeps(db, c, w, t, Later(now, lease), now, next);
        case DoRenew(c, w, t, lease, record, now) => RenewKeeps(db, c, w, t, Later(now, lease), record, now, next);
        case DoExhaust(c, w, t, v, reason, now) => ExhaustKeeps(db, c, w, t, v, reason, now, next);
        case DoRecover(delay, now) => RecoverKeepsSound(db, delay, now);
        case DoReserve(c, w, t, v, d, digest, did, now) =>
          var item := Normalized(d).value;
          ReserveKeeps(db, c, w, t, v, item.capability, ReservedPayload(item, digest), ReservationKey(item, digest),
                       did, now, next);
        case DoStart(did, w, t, v, now) =>
          StartTables(db, did, w, t, v, now, next);
          StartTallies(db, did, w, t, v, now, next);
        case DoRecord(did, w, t, v, result, now) =>
          RecordTables(db, did, w, t, v, result, now, next);
          RecordTallies(db, did, w, t, v, result, now, next);
        case DoVerdict(did, w, t, v, judged, to, wake, err, eid, now) =>
          VerdictTables(db, did, w, t, v, judged, to, wake, err, eid, now, next);
          VerdictTallies(db, did, w, t, v, judged, to, wake, err, eid, now, next);
        case DoApply(c, w, t, v, d, did, text, now) =>
          var item := Normalized(d).value;
          ApplyKeeps(db, c, w, t, v, item, AsDict(item).value, did, PlainKey(item, text), now, next);
        case DoCancel(c, _, _) => CancelKeeps(db, c, next);
      }
    }
  }

  /** In every database that any sequence of store calls reaches, the log, the tables and their counters agree. */
  lemma {:induction false} StoreAlwaysSound(calls: seq<Call>)
    requires forall i :: 0 <= i < |calls| ==> WellAsked(calls[i])
    ensures Sound(PerformAll(calls))
  {
    if calls == [] {
      assert ViewOf(EMPTY) == View(map[], map[], map[]);
    } else {
      StoreAlwaysSound(calls[..|calls| - 1]);
      PerformKeeps(PerformAll(calls[..|calls| - 1]), calls[|calls| - 1]);
    }
  }
}
