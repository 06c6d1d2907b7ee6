/** What holds in every state that ticks, crashes, recovery, renewals and cancellations reach together. */
module RuntimeInvariants {
  import opened Wrappers
  import opened Models
  import opened Policy
  import opened Tables
  import opened Queries
  import opened Operations
  import opened Effects
  import opened StoreInvariants
  import opened StoreLaws
  import opened Runtime

  /** The row is still leased under the token the tick claimed it with. */
  predicate Holding(db: Db, t: Tick) {
    t.cid in db.conts && t.row.token.Some? && db.conts[t.cid].token == t.row.token
  }

  /** At most one decision of a continuation is unfinished. */
  ghost predicate OnePending(db: Db) {
    forall a, b ::
      (a in db.decs && b in db.decs && db.decs[a].cid == db.decs[b].cid
       && db.decs[a].status.Pending() && db.decs[b].status.Pending()) ==> a == b
  }

  ghost predicate VerifyingHasResult(db: Db) {
    forall c :: c in db.conts && db.conts[c].state == VERIFYING ==>
      exists d :: d in PendingIds(db.decs, c) && db.decs[d].status == EXECUTED
  }

  /** Success rests on stored PASS evidence, failure on a spent budget. */
  ghost predicate EndingsEarned(db: Db) {
    forall c :: c in db.conts ==>
      && (db.conts[c].state == SUCCEEDED ==> HasPass(db.evid, c))
      && (db.conts[c].state == FAILED ==> db.conts[c].attempts == db.conts[c].maxAttempts)
  }

  /** The key that a call of the decision passes is that of its row, but for white space around it. */
  predicate KeyFits(d: Decision, stored: string) {
    Text.Strip(CallKey(d, stored)) == Text.Strip(stored)
  }

  /** The stored payload reads back as a decision the policy lets run, for the capability named in the row. */
  predicate StoredOk(cfg: Config, row: DecisionRow) {
    row.kind == EXECUTE ==>
      && FromDict(row.payload).Success?
      && MayRun(cfg.policy, cfg.registry, FromDict(row.payload).value)
      && FromDict(row.payload).value.capability == row.capability
      && WorkOf(FromDict(row.payload).value) == StoredWork(row.payload)
      && KeyFits(FromDict(row.payload).value, row.key)
  }

  ghost predicate AllStoredOk(cfg: Config, db: Db) {
    forall d :: d in db.decs ==> StoredOk(cfg, db.decs[d])
  }

  /** Event `i` records a result of decision `d`. */
  predicate ResultAt(log: seq<Entry>, i: int, d: Id) {
    0 <= i < |log| && log[i].event.CapabilityExecuted? && log[i].event.did == d
  }

  ghost predicate ResultsKnown(db: Db) {
    forall i, d :: ResultAt(db.log, i, d) ==>
      d in db.decs && (db.decs[d].status == EXECUTED || db.decs[d].status == VERIFIED)
  }

  ghost predicate DbOk(cfg: Config, db: Db) {
    && Sound(db) && OnePending(db) && VerifyingHasResult(db) && EndingsEarned(db)
    && AllStoredOk(cfg, db) && ResultsKnown(db)
  }

  /** The decision in hand is one the policy lets run, and the work of the decision row in hand. */
  predicate InHand(cfg: Config, db: Db, d: Id, decision: Decision) {
    && d in db.decs && db.decs[d].kind == EXECUTE
    && MayRun(cfg.policy, cfg.registry, decision) && decision.capability == db.decs[d].capability
    && WorkOf(decision) == StoredWork(db.decs[d].payload) && KeyFits(decision, db.decs[d].key)
  }

  /** No result of the decision had been recorded when the tick claimed its continuation. */
  ghost predicate NoEarlierResult(db: Db, d: Id, since: nat) {
    forall i :: ResultAt(db.log, i, d) ==> since < i
  }

  /** Cleaning the item once more settles it and leaves its work alone. */
  predicate CleanedOnce(item: Decision) {
    && Normalized(item).Success? && Settled(Normalized(item).value)
    && WorkOf(Normalized(item).value) == WorkOf(item) && !BlankText(item.key)
  }

  ghost predicate OpOk(cfg: Config, db: Db, t: Tick, op: Op) {
    match op
    case Conclude(_) => true
    case GiveUp(_) => t.told || (t.cid in db.conts && db.conts[t.cid].attempts >= db.conts[t.cid].maxAttempts)
    case Book(d) => MayRun(cfg.policy, cfg.registry, d) && CleanedOnce(d)
    case Begin(did, d) => InHand(cfg, db, did, d) && db.decs[did].cid == t.cid && NoEarlierResult(db, did, t.since)
    case Keep(did, d, _) => InHand(cfg, db, did, d) && db.decs[did].cid == t.cid
    case Judge(did, d, _) => InHand(cfg, db, did, d) && db.decs[did].cid == t.cid
  }

  /** What a tick knows for good at each stage, whatever the others have done meanwhile. */
  ghost predicate StageOk(cfg: Config, db: Db, t: Tick) {
    (t.exiting ==> Leaves(t.stage)) && (t.told ==> t.exiting && GivesUp(t.stage)) && StageKnows(cfg, db, t)
  }

  /** The tick is about to make the one write of an error exit, or the same write in the ordinary course. */
  predicate Leaves(stage: Stage) {
    match stage
    case Owning(op) => op.Conclude? || op.GiveUp?
    case Writing(op, _) => op.Conclude? || op.GiveUp?
    case _ => false
  }

  predicate GivesUp(stage: Stage) {
    match stage
    case Owning(op) => op.GiveUp?
    case Writing(op, _) => op.GiveUp?
    case _ => false
  }

  ghost predicate StageKnows(cfg: Config, db: Db, t: Tick) {
    match t.stage
    case Owning(op) => OpOk(cfg, db, t, op)
    case Writing(op, seen) =>
      && OpOk(cfg, db, t, op) && seen.token == t.row.token
      && t.cid in db.conts && seen.version <= db.conts[t.cid].version
      && (seen.version == db.conts[t.cid].version ==> SameButLease(seen, db.conts[t.cid]))
    case Armed(did, d) => InHand(cfg, db, did, d) && db.decs[did].cid == t.cid && NoEarlierResult(db, did, t.since)
    case Poised(did, d) => InHand(cfg, db, did, d) && db.decs[did].cid == t.cid && NoEarlierResult(db, did, t.since)
    case Ran(did, d, _) => InHand(cfg, db, did, d) && db.decs[did].cid == t.cid
    case Reviewing(did, d) => InHand(cfg, db, did, d) && db.decs[did].cid == t.cid
    case Assaying(did, d) => InHand(cfg, db, did, d) && db.decs[did].cid == t.cid
    case Assayed(did, d, _) => InHand(cfg, db, did, d) && db.decs[did].cid == t.cid
    case Budgeting => t.cid in db.conts && db.conts[t.cid].attempts >= db.conts[t.cid].maxAttempts
    case _ => true
  }

  predicate Unfinished(db: Db, d: Id) {
    d in db.decs && (db.decs[d].status == RESERVED || db.decs[d].status == EXECUTING)
  }

  predicate OpHeld(db: Db, t: Tick, op: Op) {
    match op
    case Book(_) => PendingIds(db.decs, t.cid) == {}
    case Begin(did, _) => did in db.decs && db.decs[did].status == RESERVED
    case Keep(did, _, _) => Unfinished(db, did)
    case Judge(did, _, _) => did in db.decs && db.decs[did].status == EXECUTED
    case _ => true
  }

  /** What a tick knows as long as it still holds its lease. */
  predicate HeldOk(db: Db, t: Tick) {
    (Uncharged(t) ==> t.cid in db.conts && SameBudget(t.row, db.conts[t.cid])) && HeldKnows(db, t)
  }

  /** The tick has made no reservation, and is on its way to the planner or back from it. */
  predicate Uncharged(t: Tick) {
    t.told || t.stage.Entering? || t.stage.Looking? || t.stage.Budgeting? || t.stage.Planning?
  }

  predicate SameBudget(a: Continuation, b: Continuation) {
    a.attempts == b.attempts && a.maxAttempts == b.maxAttempts
  }

  predicate HeldKnows(db: Db, t: Tick) {
    match t.stage
    case Budgeting => PendingIds(db.decs, t.cid) == {}
    case Planning => PendingIds(db.decs, t.cid) == {}
    case Owning(op) => OpHeld(db, t, op)
    case Writing(op, _) => OpHeld(db, t, op)
    case Armed(did, _) => Unfinished(db, did)
    case Poised(did, _) => Unfinished(db, did)
    case Ran(did, _, _) => Unfinished(db, did)
    case Reviewing(did, _) => did in db.decs && db.decs[did].status == EXECUTED
    case Assaying(did, _) => did in db.decs && db.decs[did].status == EXECUTED
    case Assayed(did, _, _) => did in db.decs && db.decs[did].status == EXECUTED
    case _ => true
  }

  /** A tick's token names its continuation and its worker, and the worker's name on the row is its own lease. */
  ghost predicate LeaseOk(db: Db, w: Worker, t: Tick) {
    && t.cid in db.conts && t.row.token.Some? && t.since < |db.log|
    && (forall c :: c in db.conts && db.conts[c].token == t.row.token ==> c == t.cid && db.conts[c].owner == Some(w))
    && (db.conts[t.cid].owner == Some(w) ==> db.conts[t.cid].token == t.row.token)
    && (t.row.attempts >= t.row.maxAttempts ==> db.conts[t.cid].attempts >= db.conts[t.cid].maxAttempts)
    && t.row.version <= db.conts[t.cid].version
    && (t.row.version == db.conts[t.cid].version ==> SameButLease(t.row, db.conts[t.cid]))
  }

  ghost predicate TickOk(cfg: Config, db: Db, w: Worker, t: Tick) {
    && LeaseOk(db, w, t)
    && StageOk(cfg, db, t)
    && (Holding(db, t) ==> HeldOk(db, t))
  }

  ghost predicate TokensOk(s: Sys) {
    && (forall w :: w in s.ticks ==> s.ticks[w].row.token.Some? && s.ticks[w].row.token.value in s.issued)
    && (forall a, b :: a in s.ticks && b in s.ticks && s.ticks[a].row.token == s.ticks[b].row.token ==> a == b)
    && (forall c :: c in s.db.conts && s.db.conts[c].token.Some? ==> s.db.conts[c].token.value in s.issued)
  }

  ghost predicate RunOk(cfg: Config, db: Db, r: Run) {
    InHand(cfg, db, r.did, r.decision) && NoEarlierResult(db, r.did, r.since) && r.since < |db.log|
  }

  ghost predicate Inv(cfg: Config, s: Sys) {
    && DbOk(cfg, s.db) && TokensOk(s)
    && (forall w :: w in s.ticks ==> TickOk(cfg, s.db, w, s.ticks[w]))
    && (forall i :: 0 <= i < |s.runs| ==> RunOk(cfg, s.db, s.runs[i]))
  }

  // ---- what one store call does to the rows and decisions that others rely on ----

  /** A decision row keeps its identity, and its status only moves forward. */
  predicate DecisionGrows(a: DecisionRow, b: DecisionRow) {
    && b.cid == a.cid && b.kind == a.kind && b.capability == a.capability && b.payload == a.payload && b.key == a.key
    && (a.status == VERIFIED ==> b.status == VERIFIED)
    && (a.status == EXECUTED ==> b.status == EXECUTED || b.status == VERIFIED)
  }

  /** A call left a continuation and its decisions alone, but for the expiry of the lease. */
  ghost predicate Untouched(db: Db, next: Db, c: Id) {
    && c in db.conts && c in next.conts && SameButLease(db.conts[c], next.conts[c])
    && (forall d :: d in next.decs && next.decs[d].cid == c ==> d in db.decs && next.decs[d] == db.decs[d])
  }

  predicate DecisionsGrow(db: Db, next: Db) {
    forall d :: d in db.decs ==> d in next.decs && DecisionGrows(db.decs[d], next.decs[d])
  }

  /** How the lease of each row may move: a row is left alone, or written under the token `holder`, or loses its
      token, or gets the token just drawn. */
  ghost predicate RowsEvolve(db: Db, next: Db, holder: Option<Token>, drawn: Option<(Token, Worker)>) {
    && (forall c :: c in db.conts && c in next.conts ==>
          || Untouched(db, next, c)
          || (holder.Some? && db.conts[c].token == holder && (next.conts[c].token == holder || next.conts[c].token.None?))
          || next.conts[c].token.None?
          || (drawn.Some? && next.conts[c].token == Some(drawn.value.0) && next.conts[c].owner == Some(drawn.value.1)))
    && (forall c :: c in next.conts && c !in db.conts ==> next.conts[c].token.None? && next.conts[c].owner.None?)
    && (forall c ::
          (c in db.conts && c in next.conts && next.conts[c].token == db.conts[c].token && next.conts[c].token.Some?)
          ==> next.conts[c].owner == db.conts[c].owner)
  }

  /** What every call guarantees to those it does not serve. */
  ghost predicate Evolves(db: Db, next: Db, holder: Option<Token>, drawn: Option<(Token, Worker)>) {
    && (forall c :: c in db.conts ==> c in next.conts && RowLaw(db.conts[c], next.conts[c]))
    && DecisionsGrow(db, next)
    && |db.log| <= |next.log| && next.log[..|db.log|] == db.log
    && RowsEvolve(db, next, holder, drawn)
  }

  lemma ResultsLater(db: Db, next: Db, d: Id, since: nat)
    requires |db.log| <= |next.log| && next.log[..|db.log|] == db.log
    requires NoEarlierResult(db, d, since) && since < |db.log|
    ensures NoEarlierResult(next, d, since)
  {
    forall i | ResultAt(next.log, i, d) ensures since < i {
      if i < |db.log| { assert next.log[i] == next.log[..|db.log|][i]; assert ResultAt(db.log, i, d); }
    }
  }

  lemma InHandStays(cfg: Config, db: Db, next: Db, d: Id, decision: Decision)
    requires InHand(cfg, db, d, decision)
    requires DecisionsGrow(db, next)
    ensures InHand(cfg, next, d, decision) && next.decs[d].cid == db.decs[d].cid
  {
    hide Policy.MayRun;
  }

  lemma RunStays(cfg: Config, db: Db, next: Db, holder: Option<Token>, drawn: Option<(Token, Worker)>, r: Run)
    requires RunOk(cfg, db, r) && Evolves(db, next, holder, drawn)
    ensures RunOk(cfg, next, r)
  {
    hide InHand, RowLaw, RowsEvolve, DecisionsGrow;
    InHandStays(cfg, db, next, r.did, r.decision);
    ResultsLater(db, next, r.did, r.since);
  }

  function Drawn(call: Call): Option<(Token, Worker)> {
    if call.DoClaim? then Some((call.token, call.worker)) else None
  }

  lemma CallGrowsDecisions(db: Db, call: Call)
    ensures DecisionsGrow(db, Performed(db, call))
    ensures var next := Performed(db, call); |db.log| <= |next.log| && next.log[..|db.log|] == db.log
  {
    hide Normalized, AsDict, HoldsKey, JudgedBy, Allowed, Performed, WakeAfter, Destination, PassEvidence, Released;
    EveryEffect(db, call);
  }

  /** One row was written under its token, with at most one decision of it. */
  lemma OwnerMoves(db: Db, next: Db, c: Id, t: Token, d: Option<Id>)
    requires c in db.conts && db.conts[c].token == Some(t) && c in next.conts
    requires next.conts == db.conts[c := next.conts[c]]
    requires next.conts[c].token.None? || (next.conts[c].token == Some(t) && next.conts[c].owner == db.conts[c].owner)
    requires if d.None? then next.decs == db.decs
             else d.value in next.decs && next.decs == db.decs[d.value := next.decs[d.value]]
                  && next.decs[d.value].cid == c && (d.value in db.decs ==> db.decs[d.value].cid == c)
    ensures RowsEvolve(db, next, Some(t), None)
  {
  }

  lemma RecoveryMoves(db: Db, delay: int, now: Time, next: Db)
    requires RecoveredSoFar(db, delay, now, next) && Expired(next.conts, now) == {}
    ensures RowsEvolve(db, next, None, None)
  {
    forall c | c in db.conts ensures Untouched(db, next, c) || next.conts[c].token.None? {
      assert RecoveredRow(db, c, delay, now, next.conts[c]);
      if c !in Expired(db.conts, now) {
        forall d | d in next.decs && next.decs[d].cid == c ensures d in db.decs && next.decs[d] == db.decs[d] {
          assert RecoveredDecision(db, now, db.decs[d], next.decs[d]);
        }
      }
    }
  }

  lemma ClaimMoves(db: Db, c: Id, w: Worker, t: Token, expires: Time, now: Time, next: Db)
    requires ClaimWrote(db, c, w, t, expires, now, next) && Unheld(db, t)
    ensures RowsEvolve(db, next, None, Some((t, w)))
  {
  }

  lemma CancelMoves(db: Db, c: Id, next: Db)
    requires CancelWrote(db, c, next)
    ensures RowsEvolve(db, next, None, None)
  {
  }

  lemma CallMovesRows(db: Db, call: Call)
    requires call.DoClaim? ==> Unheld(db, call.token)
    ensures RowsEvolve(db, Performed(db, call), Presents(call), Drawn(call))
  {
    hide Normalized, AsDict, HoldsKey, JudgedBy, Allowed, Performed, WakeAfter, Destination, PassEvidence,
         RecoveredSoFar, Expired, ClaimWrote, CancelWrote;
    var next := Performed(db, call);
    EveryEffect(db, call);
    if next != db {
      match call {
        case DoClaim(c, w, t, lease, now) => ClaimMoves(db, c, w, t, Later(now, lease), now, next);
        case DoCancel(c, _, _) => CancelMoves(db, c, next);
        case DoRecover(delay, now) => RecoveryMoves(db, delay, now, next);
        case DoRenew(c, _, t, _, _, _) => OwnerMoves(db, next, c, t, None);
        case DoExhaust(c, _, t, _, _, _) => OwnerMoves(db, next, c, t, None);
        case DoReserve(c, _, t, _, _, _, did, _) => OwnerMoves(db, next, c, t, Some(did));
        case DoStart(did, _, t, _, _) => OwnerMoves(db, next, db.decs[did].cid, t, Some(did));
        case DoRecord(did, _, t, _, _, _) => OwnerMoves(db, next, db.decs[did].cid, t, Some(did));
        case DoVerdict(did, _, t, _, _, _, _, _, _, _) => OwnerMoves(db, next, db.decs[did].cid, t, Some(did));
        case DoApply(c, _, t, _, _, did, _, _) => OwnerMoves(db, next, c, t, Some(did));
        case _ =>
      }
    }
  }

  lemma CallEvolves(db: Db, call: Call)
    requires call.DoClaim? ==> Unheld(db, call.token)
    ensures Evolves(db, Performed(db, call), Presents(call), Drawn(call))
  {
    hide Performed, RowLaw, RowsEvolve, DecisionsGrow, Presents, Drawn;
    CallGrowsDecisions(db, call);
    CallMovesRows(db, call);
    forall c | c in db.conts
      ensures c in Performed(db, call).conts && RowLaw(db.conts[c], Performed(db, call).conts[c])
    {
      EveryCallObeysTheTable(db, call, c);
    }
  }

  // ---- what a tick knows survives the calls of the others ----

  lemma LeaseSurvives(db: Db, next: Db, holder: Option<Token>, drawn: Option<(Token, Worker)>, w: Worker, t: Tick)
    requires LeaseOk(db, w, t) && Evolves(db, next, holder, drawn) && RowsOk(next)
    requires drawn.Some? ==> Some(drawn.value.0) != t.row.token && drawn.value.1 != w
    ensures LeaseOk(next, w, t)
    ensures Holding(next, t) ==> Holding(db, t)
  {
    hide DecisionsGrow, Allowed;
    assert RowOk(next.conts[t.cid]);
    forall c | c in next.conts && next.conts[c].token == t.row.token
      ensures c == t.cid && next.conts[c].owner == Some(w) && db.conts[c].token == t.row.token
    {
      assert c in db.conts;
      assert RowLaw(db.conts[c], next.conts[c]);
    }
    assert RowLaw(db.conts[t.cid], next.conts[t.cid]);
  }

  lemma OpSurvives(cfg: Config, db: Db, next: Db, holder: Option<Token>, drawn: Option<(Token, Worker)>, t: Tick,
                   op: Op)
    requires OpOk(cfg, db, t, op) && Evolves(db, next, holder, drawn) && t.since < |db.log|
    ensures OpOk(cfg, next, t, op)
  {
    hide Policy.MayRun, RowsEvolve, Allowed, InHand, DecisionsGrow, CleanedOnce;
    match op {
      case Begin(did, d) =>
        InHandStays(cfg, db, next, did, d);
        ResultsLater(db, next, did, t.since);
      case Keep(did, d, _) => InHandStays(cfg, db, next, did, d);
      case Judge(did, d, _) => InHandStays(cfg, db, next, did, d);
      case _ =>
    }
  }

  lemma StageSurvives(cfg: Config, db: Db, next: Db, holder: Option<Token>, drawn: Option<(Token, Worker)>, t: Tick)
    requires StageOk(cfg, db, t) && Evolves(db, next, holder, drawn) && t.since < |db.log|
    ensures StageOk(cfg, next, t)
  {
    hide Policy.MayRun, RowsEvolve, Allowed, InHand, DecisionsGrow, OpOk;
    match t.stage {
      case Owning(op) => OpSurvives(cfg, db, next, holder, drawn, t, op);
      case Writing(op, seen) => OpSurvives(cfg, db, next, holder, drawn, t, op);
      case Armed(did, d) =>
        InHandStays(cfg, db, next, did, d);
        ResultsLater(db, next, did, t.since);
      case Poised(did, d) =>
        InHandStays(cfg, db, next, did, d);
        ResultsLater(db, next, did, t.since);
      case Ran(did, d, _) => InHandStays(cfg, db, next, did, d);
      case Reviewing(did, d) => InHandStays(cfg, db, next, did, d);
      case Assaying(did, d) => InHandStays(cfg, db, next, did, d);
      case Assayed(did, d, _) => InHandStays(cfg, db, next, did, d);
      case _ =>
    }
  }

  /** The stage speaks of decisions of the tick's own continuation only, so it holds on while that is left alone. */
  lemma HeldSurvives(cfg: Config, db: Db, next: Db, t: Tick)
    requires StageOk(cfg, db, t) && HeldOk(db, t) && Untouched(db, next, t.cid) && DecisionsGrow(db, next)
    ensures HeldOk(next, t)
  {
    hide Policy.MayRun, NoEarlierResult;
    assert PendingIds(next.decs, t.cid) <= PendingIds(db.decs, t.cid);
  }

  lemma LeaseFacts(db: Db, w: Worker, t: Tick)
    requires LeaseOk(db, w, t)
    ensures t.cid in db.conts && t.row.token.Some? && t.since < |db.log|
  {
  }

  /** A row still held after a call was either written under its own token or left alone. */
  lemma HeldRowIsUntouched(db: Db, next: Db, holder: Option<Token>, drawn: Option<(Token, Worker)>, t: Tick)
    requires RowsEvolve(db, next, holder, drawn) && Holding(db, t) && Holding(next, t)
    requires drawn.Some? ==> Some(drawn.value.0) != t.row.token
    requires t.row.token != holder
    ensures Untouched(db, next, t.cid)
  {
    hide Untouched;
  }

  /** A tick keeps all it knows through a call, unless the call wrote under the tick's own token. */
  lemma TickSurvives(cfg: Config, db: Db, next: Db, holder: Option<Token>, drawn: Option<(Token, Worker)>, w: Worker,
                     t: Tick)
    requires TickOk(cfg, db, w, t) && Evolves(db, next, holder, drawn) && RowsOk(next)
    requires drawn.Some? ==> Some(drawn.value.0) != t.row.token && drawn.value.1 != w
    requires t.row.token != holder || Untouched(db, next, t.cid)
    ensures TickOk(cfg, next, w, t)
  {
    hide RowsOk, LeaseOk, StageOk, HeldOk, DecisionsGrow, RowLaw, RowsEvolve, Untouched;
    LeaseFacts(db, w, t);
    LeaseSurvives(db, next, holder, drawn, w, t);
    StageSurvives(cfg, db, next, holder, drawn, t);
    if Holding(next, t) {
      if t.row.token != holder { HeldRowIsUntouched(db, next, holder, drawn, t); }
      HeldSurvives(cfg, db, next, t);
    }
  }

  // ---- what every call keeps of the database, when its caller has earned it ----

  /** What the runtime makes sure of before it calls the store. */
  ghost predicate Fair(cfg: Config, db: Db, call: Call) {
    match call
    case DoReserve(c, w, t, v, d, digest, _, now) =>
      HeldBy(db, c, w, t, v, now) ==>
        && PendingIds(db.decs, c) == {}
        && MayRun(cfg.policy, cfg.registry, d) && CleanedOnce(d)
    case DoVerdict(did, w, t, v, judged, to, _, _, _, now) =>
      && !to.Active()
      && (did in db.decs && HeldBy(db, db.decs[did].cid, w, t, v, now) ==>
            && (to == SUCCEEDED ==> judged.verdict == PASS)
            && (to == FAILED || to == EXHAUSTED ==>
                  db.conts[db.decs[did].cid].attempts >= db.conts[db.decs[did].cid].maxAttempts))
    case _ => true
  }

  lemma ReservePending(db: Db, next: Db, did: Id, row: DecisionRow)
    requires OnePending(db) && PendingIds(db.decs, row.cid) == {} && next.decs == db.decs[did := row]
    ensures OnePending(next)
  {
    forall d | d in db.decs && db.decs[d].cid == row.cid ensures !db.decs[d].status.Pending() {
      assert d !in PendingIds(db.decs, row.cid);
    }
  }

  lemma PendingKept(cfg: Config, db: Db, call: Call)
    requires OnePending(db) && Fair(cfg, db, call)
    ensures OnePending(Performed(db, call))
  {
    hide Normalized, AsDict, JudgedBy, Allowed, Performed, WakeAfter, Destination, PassEvidence, MayRun, CleanedOnce,
         HoldsKey, Expired, OnePending, RecoveredSoFar;
    var next := Performed(db, call);
    EveryEffect(db, call);
    CallGrowsDecisions(db, call);
    if next != db {
      if call.DoReserve? {
        ReservePending(db, next, call.did, next.decs[call.did]);
      } else {
        if call.DoRecover? { RecoveredKeys(db, call.delay, call.now, next); }
        SamePending(db, next);
      }
    }
  }

  lemma RecoveredKeys(db: Db, delay: int, now: Time, next: Db)
    requires RecoveredSoFar(db, delay, now, next)
    ensures next.decs.Keys == db.decs.Keys
  {
  }

  lemma SamePending(db: Db, next: Db)
    requires OnePending(db) && DecisionsGrow(db, next)
    requires forall d :: d in next.decs && d !in db.decs ==> next.decs[d].status == VERIFIED
    ensures OnePending(next)
  {
  }

  /** A row is VERIFYING because it was before, with the same decisions, or because its result was just recorded. */
  ghost predicate StillVerifying(db: Db, next: Db, c: Id) {
    || (exists d :: d in PendingIds(next.decs, c) && next.decs[d].status == EXECUTED)
    || (c in db.conts && db.conts[c].state == VERIFYING
        && forall d :: d in PendingIds(db.decs, c) && db.decs[d].status == EXECUTED ==>
             d in next.decs && next.decs[d] == db.decs[d])
  }

  lemma RecoveredVerifying(db: Db, delay: int, now: Time, next: Db, c: Id)
    requires RecoveredSoFar(db, delay, now, next) && Expired(next.conts, now) == {}
    requires c in next.conts && next.conts[c].state == VERIFYING
    ensures StillVerifying(db, next, c)
  {
    assert RecoveredRow(db, c, delay, now, next.conts[c]);
    forall d | d in PendingIds(db.decs, c) && db.decs[d].status == EXECUTED
      ensures d in next.decs && next.decs[d] == db.decs[d]
    {
      assert RecoveredDecision(db, now, db.decs[d], next.decs[d]);
    }
  }

  lemma RecordedVerifying(db: Db, did: Id, w: Worker, t: Token, v: nat, result: CapabilityResult, now: Time, next: Db,
                          c: Id)
    requires RecordWrote(db, did, w, t, v, result, now, next)
    requires c in next.conts && next.conts[c].state == VERIFYING
    ensures StillVerifying(db, next, c)
  {
    if db.decs[did].cid == c { assert did in PendingIds(next.decs, c); }
  }

  lemma JudgedVerifying(db: Db, did: Id, w: Worker, t: Token, v: nat, judged: Verification, to: State,
                        wake: Option<Time>, err: Option<string>, eid: Id, now: Time, next: Db, c: Id)
    requires VerdictWrote(db, did, w, t, v, judged, to, wake, err, eid, now, next) && to != VERIFYING
    requires c in next.conts && next.conts[c].state == VERIFYING
    ensures StillVerifying(db, next, c)
  {
    hide Allowed;
  }

  lemma ApplyVerifying(db: Db, call: Call, next: Db, c: Id)
    requires call.DoApply? && Wrote(db, call, next) && c in next.conts && next.conts[c].state == VERIFYING
    ensures StillVerifying(db, next, c)
  {
    hide Normalized, AsDict, HoldsKey, PassEvidence, WakeAfter;
  }

  lemma ReserveVerifying(db: Db, call: Call, next: Db, c: Id)
    requires call.DoReserve? && Wrote(db, call, next) && c in next.conts && next.conts[c].state == VERIFYING
    ensures StillVerifying(db, next, c)
  {
    hide Normalized, AsDict, HoldsKey;
  }

  lemma OtherVerifying(db: Db, call: Call, next: Db, c: Id)
    requires call.DoAdmit? || call.DoClaim? || call.DoRenew? || call.DoExhaust? || call.DoStart? || call.DoCancel?
    requires Wrote(db, call, next) && c in next.conts && next.conts[c].state == VERIFYING
    ensures StillVerifying(db, next, c)
  {
  }

  lemma CallVerifying(cfg: Config, db: Db, call: Call, next: Db, c: Id)
    requires Fair(cfg, db, call) && Wrote(db, call, next) && c in next.conts && next.conts[c].state == VERIFYING
    ensures StillVerifying(db, next, c)
  {
    hide StillVerifying, RecoveredSoFar, RecordWrote, VerdictWrote, ReserveWrote, ApplyWrote, Normalized, AsDict,
         MayRun,
         CleanedOnce, HeldBy;
    match call {
      case DoRecover(delay, now) => RecoveredVerifying(db, delay, now, next, c);
      case DoRecord(did, w, t, v, result, now) => RecordedVerifying(db, did, w, t, v, result, now, next, c);
      case DoVerdict(did, w, t, v, judged, to, wake, err, eid, now) =>
        JudgedVerifying(db, did, w, t, v, judged, to, wake, err, eid, now, next, c);
      case DoApply(_, _, _, _, _, _, _, _) => ApplyVerifying(db, call, next, c);
      case DoReserve(_, _, _, _, _, _, _, _) => ReserveVerifying(db, call, next, c);
      case _ => OtherVerifying(db, call, next, c);
    }
  }

  lemma VerifyingKept(cfg: Config, db: Db, call: Call)
    requires VerifyingHasResult(db) && Fair(cfg, db, call)
    ensures VerifyingHasResult(Performed(db, call))
  {
    hide Performed, Wrote, Fair, StillVerifying;
    var next := Performed(db, call);
    EveryEffect(db, call);
    if next != db {
      forall c | c in next.conts && next.conts[c].state == VERIFYING ensures StillVerifying(db, next, c) {
        CallVerifying(cfg, db, call, next, c);
      }
      ResultsStay(db, next);
    }
  }

  lemma ResultsStay(db: Db, next: Db)
    requires VerifyingHasResult(db)
    requires forall c :: c in next.conts && next.conts[c].state == VERIFYING ==> StillVerifying(db, next, c)
    ensures VerifyingHasResult(next)
  {
    forall c | c in next.conts && next.conts[c].state == VERIFYING
      ensures exists d :: d in PendingIds(next.decs, c) && next.decs[d].status == EXECUTED
    {
      assert StillVerifying(db, next, c);
      if c in db.conts && db.conts[c].state == VERIFYING {
        var d :| d in PendingIds(db.decs, c) && db.decs[d].status == EXECUTED;
        assert d in next.decs && next.decs[d] == db.decs[d] ==> d in PendingIds(next.decs, c);
      }
    }
  }

  ghost predicate EndingEarned(db: Db, c: Id, r: Continuation) {
    && (r.state == SUCCEEDED ==> HasPass(db.evid, c))
    && (r.state == FAILED ==> r.attempts == r.maxAttempts)
  }

  /** Each row is as it was in this respect, or has just earned its ending. */
  ghost predicate EndingsMove(db: Db, next: Db) {
    && (forall e :: e in db.evid ==> e in next.evid && next.evid[e] == db.evid[e])
    && (forall c :: c in next.conts ==>
          || EndingEarned(next, c, next.conts[c])
          || (c in db.conts && next.conts[c].state == db.conts[c].state
              && next.conts[c].attempts == db.conts[c].attempts && next.conts[c].maxAttempts == db.conts[c].maxAttempts))
  }

  lemma EndingsStay(db: Db, next: Db)
    requires EndingsEarned(db) && EndingsMove(db, next)
    ensures EndingsEarned(next)
  {
    forall c | c in next.conts ensures EndingEarned(next, c, next.conts[c]) {}
  }

  lemma VerdictEndings(cfg: Config, db: Db, call: Call, next: Db)
    requires call.DoVerdict? && Fair(cfg, db, call) && Wrote(db, call, next) && RowsOk(db)
    ensures EndingsMove(db, next)
  {
    hide Allowed;
    var c := db.decs[call.did].cid;
    assert RowOk(db.conts[c]);
    assert call.eid in next.evid && next.evid[call.eid].cid == c;
    assert call.to == SUCCEEDED ==> HasPass(next.evid, c);
  }

  lemma ApplyEndings(db: Db, call: Call, next: Db)
    requires call.DoApply? && Wrote(db, call, next)
    ensures EndingsMove(db, next)
  {
    hide Normalized, AsDict, HoldsKey, WakeAfter;
  }

  lemma OtherEndings(db: Db, call: Call, next: Db)
    requires call.DoAdmit? || call.DoClaim? || call.DoRenew? || call.DoReserve? || call.DoStart? || call.DoRecord?
             || call.DoCancel? || call.DoExhaust?
    requires Wrote(db, call, next)
    ensures EndingsMove(db, next)
  {
    hide Normalized, AsDict, HoldsKey;
  }

  lemma RecoverEndings(db: Db, call: Call, next: Db)
    requires call.DoRecover? && Wrote(db, call, next) && RowsOk(db)
    ensures EndingsMove(db, next)
  {
    forall c | c in db.conts ensures RowOk(db.conts[c]) {}
  }

  lemma EndingsKept(cfg: Config, db: Db, call: Call)
    requires EndingsEarned(db) && RowsOk(db) && Fair(cfg, db, call)
    ensures EndingsEarned(Performed(db, call))
  {
    hide EndingsEarned, RowsOk, Fair, Wrote, Performed, EndingsMove;
    var next := Performed(db, call);
    EveryEffect(db, call);
    if next != db {
      match call {
        case DoVerdict(_, _, _, _, _, _, _, _, _, _) => VerdictEndings(cfg, db, call, next);
        case DoRecover(_, _) => RecoverEndings(db, call, next);
        case DoApply(_, _, _, _, _, _, _, _) => ApplyEndings(db, call, next);
        case _ => OtherEndings(db, call, next);
      }
      EndingsStay(db, next);
    }
  }

  lemma StoredKept(cfg: Config, db: Db, call: Call)
    requires AllStoredOk(cfg, db) && Fair(cfg, db, call)
    ensures AllStoredOk(cfg, Performed(db, call))
  {
    hide Normalized, AsDict, JudgedBy, Allowed, Performed, WakeAfter, PassEvidence, MayRun, CleanedOnce, HoldsKey,
         KeyFits;
    var next := Performed(db, call);
    EveryEffect(db, call);
    CallGrowsDecisions(db, call);
    if next != db && call.DoReserve? {
      ReservedOk(cfg, call.decision, call.digest);
      var item := Normalized(call.decision).value;
      StoredKeyFits(ReservedPayload(item, call.digest), ReservationKey(item, call.digest));
    }
    forall d | d in next.decs ensures StoredOk(cfg, next.decs[d]) {
      if d in db.decs { assert StoredOk(cfg, db.decs[d]); }
    }
  }

  lemma CleanedMayRun(cfg: Config, d: Decision)
    requires MayRun(cfg.policy, cfg.registry, d) && CleanedOnce(d)
    ensures MayRun(cfg.policy, cfg.registry, Normalized(d).value)
  {
    hide Complaint;
    CleanedKind(d);
  }

  /** What is stored for a decision that may run reads back as one that may run. */
  lemma ReservedOk(cfg: Config, d: Decision, digest: string)
    requires MayRun(cfg.policy, cfg.registry, d) && CleanedOnce(d)
    ensures var item := Normalized(d).value;
            && AsDict(item).Success?
            && var stored := FromDict(ReservedPayload(item, digest));
            && stored.Success? && MayRun(cfg.policy, cfg.registry, stored.value)
            && stored.value.capability == item.capability
            && WorkOf(stored.value) == StoredWork(ReservedPayload(item, digest))
  {
    hide MayRun, Complaint, KindOf, FromDict, AsDict, StripOr;
    var item := Normalized(d).value;
    CleanedMayRun(cfg, d);
    WrittenExactly(item);
    StoredMayRun(cfg.policy, cfg.registry, item, ReservationKey(item, digest));
  }

  /** A key that is stored comes back trimmed, or not at all. */
  lemma StoredKeyFits(p: Payload, key: string)
    requires FromDict(p).Success? && p.key == Some(key)
    ensures KeyFits(FromDict(p).value, key)
  {
    if key != "" { assert Text.Trimmed(Text.Strip(key)); }
  }

  /** The decision in hand passes the key it has just been reserved under. */
  lemma ReservedKeyFits(d: Decision, digest: string)
    requires Normalized(d).Success? && !BlankText(d.key)
    ensures KeyFits(d, ReservationKey(Normalized(d).value, digest))
  {
    if d.key.Some? && d.key.value != "" { assert Text.Trimmed(Text.Strip(d.key.value)); }
  }

  lemma ResultsKept(db: Db, call: Call)
    requires ResultsKnown(db)
    ensures ResultsKnown(Performed(db, call))
  {
    hide Normalized, AsDict, JudgedBy, Allowed, Performed, WakeAfter, PassEvidence, HoldsKey, Destination;
    var next := Performed(db, call);
    EveryEffect(db, call);
    CallGrowsDecisions(db, call);
    forall i, d | ResultAt(next.log, i, d)
      ensures d in next.decs && (next.decs[d].status == EXECUTED || next.decs[d].status == VERIFIED)
    {
      if i < |db.log| { assert next.log[i] == next.log[..|db.log|][i]; assert ResultAt(db.log, i, d); }
    }
  }

  lemma DbOkKept(cfg: Config, db: Db, call: Call)
    requires DbOk(cfg, db) && Fair(cfg, db, call)
    ensures DbOk(cfg, Performed(db, call))
  {
    hide Sound, OnePending, VerifyingHasResult, EndingsEarned, AllStoredOk, ResultsKnown, Performed, MayRun,
         CleanedOnce;
    PerformKeeps(db, call);
    PendingKept(cfg, db, call);
    VerifyingKept(cfg, db, call);
    SoundRows(db);
    EndingsKept(cfg, db, call);
    StoredKept(cfg, db, call);
    ResultsKept(db, call);
  }

  lemma SoundRows(db: Db)
    requires Sound(db)
    ensures RowsOk(db)
  {
  }
}
