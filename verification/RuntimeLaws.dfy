/** What the invariants say about every reachable state and every run, in the terms of the design. */
module RuntimeLaws {
  import opened Wrappers
  import opened Models
  import opened Policy
  import opened Tables
  import opened Queries
  import opened Operations
  import opened Effects
  import opened Replay
  import opened StoreInvariants
  import opened StoreLaws
  import opened Runtime
  import opened RuntimeInvariants
  import opened RuntimeSteps
  import opened AtMostOnce

  /** Folding the log gives the tables back, and the counters of each row are those of its events and decisions. */
  lemma {:induction false} LogAlwaysAgrees(cfg: Config, steps: seq<Step>, c: Id)
    requires c in Reach(cfg, steps).db.conts
    ensures var db := Reach(cfg, steps).db;
            && Fold(db.log) == ViewOf(db)
            && var r, t := db.conts[c], Count(db.log, c);
            && r.version == t.versions
            && r.attempts == t.attempts == |Reservations(db.decs, c)| <= r.maxAttempts
            && r.step == t.steps == |Closed(db.decs, c)|
  {
    InvAlways(cfg, steps);
    assert RowOk(Reach(cfg, steps).db.conts[c]);
  }

  /** A continuation has at most one unfinished decision; while it is being verified, that one has a result. */
  lemma {:induction false} OneDecisionAtATime(cfg: Config, steps: seq<Step>, c: Id)
    ensures var db := Reach(cfg, steps).db;
            && (forall a, b :: a in PendingIds(db.decs, c) && b in PendingIds(db.decs, c) ==> a == b)
            && (c in db.conts && db.conts[c].state == VERIFYING ==>
                  exists d :: PendingIds(db.decs, c) == {d} && db.decs[d].status == EXECUTED)
  {
    hide Sound, EndingsEarned, AllStoredOk, ResultsKnown, TickOk, RunOk, TokensOk;
    InvAlways(cfg, steps);
    var db := Reach(cfg, steps).db;
    if c in db.conts && db.conts[c].state == VERIFYING {
      var d :| d in PendingIds(db.decs, c) && db.decs[d].status == EXECUTED;
      assert PendingIds(db.decs, c) == {d};
    }
  }

  /** An EXECUTE decision is judged exactly when there is evidence for it, and then there is one piece of it. */
  lemma {:induction false} OneVerdictPerDecision(cfg: Config, steps: seq<Step>, d: Id)
    requires d in Reach(cfg, steps).db.decs && Reach(cfg, steps).db.decs[d].kind == EXECUTE
    ensures var db := Reach(cfg, steps).db;
            && (db.decs[d].status == VERIFIED <==> exists e :: JudgedBy(db.evid, d, e))
            && (forall e, f :: JudgedBy(db.evid, d, e) && JudgedBy(db.evid, d, f) ==> e == f)
            && (forall e :: JudgedBy(db.evid, d, e) ==> db.evid[e].cid == db.decs[d].cid)
  {
    hide Agrees, RowsOk, CountsOk, TalliesOk, TickOk, RunOk, TokensOk;
    InvAlways(cfg, steps);
    var db := Reach(cfg, steps).db;
    assert DecisionOk(db, d);
    forall e | JudgedBy(db.evid, d, e) ensures EvidenceOk(db, e) {}
  }

  /** How a continuation ends is earned: success by PASS evidence of its own, failure by a spent budget. (Exhaustion
      is the subject of module Exhaustion.) */
  lemma {:induction false} EndingsAreEarned(cfg: Config, steps: seq<Step>, c: Id)
    requires c in Reach(cfg, steps).db.conts
    ensures var db := Reach(cfg, steps).db;
            && (db.conts[c].state == SUCCEEDED ==>
                  exists e :: e in db.evid && db.evid[e].cid == c && db.evid[e].verification.verdict == PASS)
            && (db.conts[c].state == FAILED ==> db.conts[c].attempts == db.conts[c].maxAttempts)
  {
    InvAlways(cfg, steps);
  }

  /** Owner, token, expiry and heartbeat are set together, exactly while the row is RUNNING or VERIFYING. */
  lemma LeasesAreWhole(cfg: Config, steps: seq<Step>, c: Id)
    requires c in Reach(cfg, steps).db.conts
    ensures var r := Reach(cfg, steps).db.conts[c];
            && (r.owner.Some? <==> r.state == RUNNING || r.state == VERIFYING)
            && (r.owner.Some? <==> r.token.Some?) && (r.owner.Some? <==> r.expires.Some?)
            && (r.owner.Some? <==> r.heartbeat.Some?)
  {
    InvAlways(cfg, steps);
    assert RowOk(Reach(cfg, steps).db.conts[c]);
  }

  /** After recovery at an instant, every lease still held runs beyond it. */
  lemma RecoveryIsComplete(cfg: Config, steps: seq<Step>, delay: int, now: Time, c: Id)
    requires c in Next(cfg, Reach(cfg, steps), Recovering(delay, now)).db.conts
    ensures var r := Next(cfg, Reach(cfg, steps), Recovering(delay, now)).db.conts[c];
            r.owner.Some? ==> r.expires.Some? && now < r.expires.value
  {
    hide Recover, Inv, RowsOk;
    var s := Reach(cfg, steps);
    InvAlways(cfg, steps);
    NextKeeps(cfg, s, Recovering(delay, now));
    var db := Next(cfg, s, Recovering(delay, now)).db;
    RecoverEmpties(s.db, delay, now);
    InvRow(cfg, Next(cfg, s, Recovering(delay, now)), c);
    if db.conts[c].owner.Some? { assert c !in Expired(db.conts, now); }
  }

  lemma InvRow(cfg: Config, s: Sys, c: Id)
    requires Inv(cfg, s) && c in s.db.conts
    ensures RowOk(s.db.conts[c])
  {
  }

  /** Each step takes each row along an edge of the transition table or leaves its state alone. */
  lemma NextObeysTheTable(cfg: Config, s: Sys, step: Step, c: Id)
    requires c in s.db.conts
    ensures c in Next(cfg, s, step).db.conts && RowLaw(s.db.conts[c], Next(cfg, s, step).db.conts[c])
  {
    hide Next, Performed, StepCall, Allowed;
    StepIsCall(cfg, s, step);
    if StepCall(cfg, s, step).Some? { EveryCallObeysTheTable(s.db, StepCall(cfg, s, step).value, c); }
  }

  /** Ended continuations are frozen: no later step of anybody changes any column of the row. */
  lemma {:induction false} EndedStaysEnded(cfg: Config, s: Sys, steps: seq<Step>, c: Id)
    requires c in s.db.conts && s.db.conts[c].state.Terminal()
    ensures c in Onward(cfg, s, steps).db.conts && Onward(cfg, s, steps).db.conts[c] == s.db.conts[c]
  {
    hide Next;
    if steps != [] {
      EndedStaysEnded(cfg, s, steps[..|steps| - 1], c);
      NextObeysTheTable(cfg, Onward(cfg, s, steps[..|steps| - 1]), steps[|steps| - 1], c);
    }
  }

  /** A decision keeps its continuation, payload and idempotency key for ever, and no other decision has that key. */
  lemma {:induction false} KeysNameOneDecision(cfg: Config, s: Sys, steps: seq<Step>, d: Id)
    requires Inv(cfg, s) && d in s.db.decs
    ensures var db := Onward(cfg, s, steps).db;
            && d in db.decs && db.decs[d].key == s.db.decs[d].key && db.decs[d].cid == s.db.decs[d].cid
            && db.decs[d].payload == s.db.decs[d].payload
            && (forall o :: HoldsKey(db.decs, s.db.decs[d].key, o) ==> o == d)
    ensures Inv(cfg, Onward(cfg, s, steps))
  {
    hide Next, Inv;
    if steps != [] {
      var before := Onward(cfg, s, steps[..|steps| - 1]);
      KeysNameOneDecision(cfg, s, steps[..|steps| - 1], d);
      NextGrows(cfg, before, steps[|steps| - 1]);
      NextKeeps(cfg, before, steps[|steps| - 1]);
    }
    UniqueKeys(cfg, Onward(cfg, s, steps));
  }

  lemma UniqueKeys(cfg: Config, s: Sys)
    requires Inv(cfg, s)
    ensures KeysOk(s.db)
  {
  }

  /** Every call of a capability, also one resumed after a crash, is of the capability named in the decision row, which
      is registered, not denied, on the list if there is one, under the ceiling and at the declared risk; and where the
      policy asks for an idempotency key, the decision has one. */
  lemma {:induction false} OnlyAuthorizedRuns(cfg: Config, steps: seq<Step>, i: nat)
    requires i < |Reach(cfg, steps).runs|
    ensures var s := Reach(cfg, steps);
            var r := s.runs[i];
            && r.did in s.db.decs && s.db.decs[r.did].kind == EXECUTE
            && s.db.decs[r.did].capability == r.decision.capability
            && MayRun(cfg.policy, cfg.registry, r.decision)
            && r.decision.capability.Some? && r.decision.capability.value in cfg.registry
            && var c := cfg.registry[r.decision.capability.value];
            && c.name !in cfg.policy.denied
            && (cfg.policy.allowed.Some? ==> c.name in cfg.policy.allowed.value)
            && r.decision.riskTier == c.riskTier <= cfg.policy.maxUnattendedRisk
            && (c.riskTier >= cfg.policy.requireIdempotencyFromRisk ==>
                  r.decision.key.Some? && !Text.Blank(r.decision.key.value))
  {
    hide MayRun, DbOk, TickOk, TokensOk, NoEarlierResult;
    InvAlways(cfg, steps);
    var r := Reach(cfg, steps).runs[i];
    assert RunOk(cfg, Reach(cfg, steps).db, r);
    AuthorizedMeans(cfg.policy, cfg.registry, r.decision);
  }

  /** No tick that claimed its continuation after a result was recorded calls that capability again. */
  lemma {:induction false} ResultsAreNotRecomputed(cfg: Config, steps: seq<Step>, i: nat, j: nat)
    requires i < |Reach(cfg, steps).runs| && j < |Reach(cfg, steps).db.log|
    requires var e := Reach(cfg, steps).db.log[j].event; e.CapabilityExecuted? && e.did == Reach(cfg, steps).runs[i].did
    ensures Reach(cfg, steps).runs[i].since < j
  {
    InvAlways(cfg, steps);
    assert RunOk(cfg, Reach(cfg, steps).db, Reach(cfg, steps).runs[i]);
    assert ResultAt(Reach(cfg, steps).db.log, j, Reach(cfg, steps).runs[i].did);
  }

  // ---- what a verdict leads to ----

  /** A verdict that is written leaves the continuation where the verdict and the budget say, released, one step on; the
      decision is judged by one new piece of evidence, which holds what the verifier said. */
  lemma {:induction false} VerdictsLead(cfg: Config, s: Sys, w: Worker, i: Inputs)
    requires Inv(cfg, s) && w in s.ticks && s.ticks[w].stage.Writing? && s.ticks[w].stage.op.Judge?
    requires Commit(cfg, s, w, i).db != s.db
    ensures var t, next := s.ticks[w], Commit(cfg, s, w, i).db;
            var op := t.stage.op;
            && t.cid in s.db.conts && t.cid in next.conts && op.did in next.decs
            && var r, q := s.db.conts[t.cid], next.conts[t.cid];
            && LeadsTo(op.verification, op.decision.terminalOnPass, r.attempts < r.maxAttempts,
                       i.now + RetryDelay(cfg, r.attempts), q.state, q.wake, q.lastError)
            && q.token.None? && q.step == r.step + 1 && q.attempts == r.attempts
            && next.decs[op.did].status == VERIFIED && next.decs[op.did].evidence == Some(i.eid) && i.eid !in s.db.evid
            && next.evid == s.db.evid[i.eid := EvidenceRow(t.cid, op.did, op.verification, i.now)]
  {
    hide Inv, DbOk, LeaseOk, HeldOk, Performed, Commit, Settle, RetryDelay, Allowed, JudgedBy, LeadsTo, MayRun;
    var t := s.ticks[w];
    TickFacts(cfg, s, w);
    CommitPerforms(cfg, s, w, i);
    SettlementMeans(cfg, t.stage.seen, t.stage.op.decision, t.stage.op.verification, i.now);
    EveryEffect(s.db, CallFor(cfg, w, t.cid, t.stage.op, t.stage.seen, i));
  }

  /** The delay starts at the base, doubles with every further attempt until the maximum, and never shrinks. */
  lemma RetryDelaysDouble(cfg: Config, attempts: nat)
    requires cfg.retryBase <= cfg.retryMax && attempts >= 1
    ensures RetryDelay(cfg, 0) == RetryDelay(cfg, 1) == cfg.retryBase
    ensures var d := RetryDelay(cfg, attempts);
            && cfg.retryBase <= d <= cfg.retryMax
            && RetryDelay(cfg, attempts + 1) == if 2 * d < cfg.retryMax then 2 * d else cfg.retryMax
  {
    DoubledGrows(cfg.retryBase, attempts - 1);
  }

  lemma {:induction false} DoubledGrows(base: nat, times: nat)
    ensures base <= Doubled(base, times)
  {
    if times > 0 { DoubledGrows(base, times - 1); }
  }

  // ---- fencing ----

  /** A tick's write goes to its own continuation, under the token it claimed itself, while that lease still runs;
      nobody else's continuation, decisions or evidence are touched. */
  lemma TicksWriteOnlyTheirOwn(cfg: Config, s: Sys, w: Worker, i: Inputs)
    requires Inv(cfg, s) && w in s.ticks && s.ticks[w].stage.Writing?
    requires Commit(cfg, s, w, i).db != s.db
    ensures var t, next := s.ticks[w], Commit(cfg, s, w, i).db;
            && t.cid in s.db.conts && Holding(s.db, t) && s.db.conts[t.cid].owner == Some(w)
            && s.db.conts[t.cid].expires.Some? && i.now < s.db.conts[t.cid].expires.value
            && (forall c :: c in s.db.conts && c != t.cid ==> c in next.conts && next.conts[c] == s.db.conts[c])
            && (forall d :: d in s.db.decs && s.db.decs[d].cid != t.cid ==> d in next.decs && next.decs[d] == s.db.decs[d])
            && (forall e :: e in s.db.evid ==> e in next.evid && next.evid[e] == s.db.evid[e])
  {
    hide Inv, DbOk, LeaseOk, HeldOk, CallFor, Performed, StageOk, Commit, Target, Presents, Expired, Perform;
    var t := s.ticks[w];
    var call := CallFor(cfg, w, t.cid, t.stage.op, t.stage.seen, i);
    TickFacts(cfg, s, w);
    CommitPerforms(cfg, s, w, i);
    CallsUnderOwnToken(cfg, s, w, i);
    OwnersWriteOnlyWhatTheyHold(s.db, call);
    TargetIsOwn(cfg, s, w, i);
  }

  lemma TargetIsOwn(cfg: Config, s: Sys, w: Worker, i: Inputs)
    requires Inv(cfg, s) && w in s.ticks && s.ticks[w].stage.Writing?
    ensures var call := CallFor(cfg, w, s.ticks[w].cid, s.ticks[w].stage.op, s.ticks[w].stage.seen, i);
            && Target(s.db, call) == Some(s.ticks[w].cid) && Presents(call).Some?
            && call.worker == w && Instant(call) == i.now
  {
    hide Inv, DbOk, LeaseOk, HeldOk, MayRun, CleanedOnce, NoEarlierResult, SameButLease, Settle;
    TickFacts(cfg, s, w);
  }

  /** A token that no row carries any more never comes back. */
  lemma {:induction false} RetiredForEver(cfg: Config, s: Sys, steps: seq<Step>, token: Token)
    requires Inv(cfg, s) && token in s.issued && Unheld(s.db, token)
    ensures var after := Onward(cfg, s, steps); Inv(cfg, after) && token in after.issued && Unheld(after.db, token)
  {
    hide Next, Inv, Unheld;
    if steps != [] {
      var before := Onward(cfg, s, steps[..|steps| - 1]);
      RetiredForEver(cfg, s, steps[..|steps| - 1], token);
      NextKeeps(cfg, before, steps[|steps| - 1]);
      NextRetires(cfg, before, steps[|steps| - 1], token);
    }
  }

  lemma NextRetires(cfg: Config, s: Sys, step: Step, token: Token)
    requires token in s.issued && Unheld(s.db, token)
    ensures var next := Next(cfg, s, step); token in next.issued && Unheld(next.db, token)
  {
    hide Next, Performed, Unheld, CallFor;
    IssuedStays(cfg, s, step);
    StepIsCall(cfg, s, step);
    if Next(cfg, s, step).db != s.db {
      if step.Committing? {
        var t := s.ticks[step.worker];
        NotAClaim(cfg, step.worker, t.cid, t.stage.op, t.stage.seen, step.inputs);
      }
      TokensStayRetired(s.db, StepCall(cfg, s, step).value, token);
    }
  }

  /** Tokens stay drawn, and a claim with one that was drawn before does nothing. */
  lemma IssuedStays(cfg: Config, s: Sys, step: Step)
    ensures s.issued <= Next(cfg, s, step).issued
    ensures step.Claiming? && step.token in s.issued ==> Next(cfg, s, step) == s
  {
    hide Perform, Claim, Renew, Recover, FromDict, Binding, Normalized, Authorize, LatestPending, LatestEvidence, CallFor;
  }

  /** Fencing over whole runs: once a lease has been released, recovered or cancelled, the tick that claimed it, however
      long it lives on, and the others' renewals under its token, never write again. */
  lemma FencedForEver(cfg: Config, s: Sys, steps: seq<Step>, token: Token, step: Step)
    requires Inv(cfg, s) && token in s.issued && Unheld(s.db, token)
    requires var after := Onward(cfg, s, steps);
             || (step.Renewing? && step.token == token)
             || ((step.Refreshing? || step.Committing?) && step.worker in after.ticks
                 && after.ticks[step.worker].row.token == Some(token))
    ensures Next(cfg, Onward(cfg, s, steps), step).db == Onward(cfg, s, steps).db
  {
    hide Inv, Unheld, Perform, Renew, CallFor, Commit;
    var after := Onward(cfg, s, steps);
    RetiredForEver(cfg, s, steps, token);
    match step {
      case Renewing(c, w, t, lease, record, now) =>
        StaleTokensWriteNothing(after.db, DoRenew(c, w, t, lease, record, now), token);
      case Refreshing(w, lease, now) =>
        StaleRenewal(after.db, after.ticks[w].cid, w, token, lease, now);
      case Committing(w, i) =>
        if after.ticks[w].stage.Writing? {
          var t := after.ticks[w];
          CallsUnderOwnToken(cfg, after, w, i);
          CommitPerforms(cfg, after, w, i);
          StaleTokensWriteNothing(after.db, CallFor(cfg, w, t.cid, t.stage.op, t.stage.seen, i), token);
        }
      case _ =>
    }
  }

  lemma StaleRenewal(db: Db, c: Id, w: Worker, token: Token, lease: int, now: Time)
    requires Unheld(db, token)
    ensures After(db, Renew(db, c, w, token, lease, false, now)) == db
  {
    StaleTokensWriteNothing(db, DoRenew(c, w, token, lease, false, now), token);
  }

  // ---- results rest on calls ----

  /** The decision whose capability a tick has called without storing the result yet. */
  function SpentOn(stage: Stage): Option<Id> {
    match stage
    case Ran(d, _, _) => Some(d)
    case Owning(op) => if op.Keep? then Some(op.did) else None
    case Writing(op, _) => if op.Keep? then Some(op.did) else None
    case _ => None
  }

  ghost predicate WorkDone(s: Sys) {
    && (forall w :: w in s.ticks && SpentOn(s.ticks[w].stage).Some? ==> !NotRun(s.runs, SpentOn(s.ticks[w].stage).value))
    && (forall d :: HasResult(s.db, d) ==> !NotRun(s.runs, d))
  }

  predicate HasResult(db: Db, d: Id) {
    d in db.decs && db.decs[d].kind == EXECUTE && (db.decs[d].status == EXECUTED || db.decs[d].status == VERIFIED)
  }

  /** A decision gets its result from the call that records it. */
  lemma NewResults(db: Db, call: Call, d: Id)
    requires HasResult(Performed(db, call), d)
    ensures HasResult(db, d) || (call.DoRecord? && call.did == d)
  {
    hide Normalized, AsDict, HoldsKey, JudgedBy, Allowed, Performed, WakeAfter, Destination, PassEvidence, Released,
         RecoveredSoFar;
    EveryEffect(db, call);
    if call.DoRecover? && Performed(db, call) != db { RecoveredStatus(db, call.delay, call.now, Performed(db, call), d); }
  }

  lemma RecoveredStatus(db: Db, delay: int, now: Time, next: Db, d: Id)
    requires RecoveredSoFar(db, delay, now, next) && d in next.decs
    ensures d in db.decs && next.decs[d].status == db.decs[d].status && next.decs[d].kind == db.decs[d].kind
  {
    assert RecoveredDecision(db, now, db.decs[d], next.decs[d]);
  }

  lemma CallWorkDone(s: Sys, call: Call)
    requires WorkDone(s) && (call.DoRecord? ==> !NotRun(s.runs, call.did))
    ensures WorkDone(s.(db := Performed(s.db, call)))
  {
    hide NotRun, Performed;
    var next := Performed(s.db, call);
    forall d | HasResult(next, d) ensures !NotRun(s.runs, d) { NewResults(s.db, call, d); }
  }

  lemma TickWorkDone(s: Sys, next: Sys)
    requires WorkDone(s) && next.db == s.db && |s.runs| <= |next.runs| && next.runs[..|s.runs|] == s.runs
    requires forall w :: w in next.ticks && SpentOn(next.ticks[w].stage).Some? ==>
      || !NotRun(next.runs, SpentOn(next.ticks[w].stage).value)
      || (w in s.ticks && SpentOn(next.ticks[w].stage) == SpentOn(s.ticks[w].stage))
    ensures WorkDone(next)
  {
    forall d | NotRun(next.runs, d) ensures NotRun(s.runs, d) {
      forall i | 0 <= i < |s.runs| ensures s.runs[i].did != d { assert s.runs[i] == next.runs[..|s.runs|][i]; }
    }
  }

  lemma RefreshWorkDone(s: Sys, w: Worker, lease: int, now: Time)
    requires WorkDone(s) && w in s.ticks
    ensures WorkDone(Refresh(s, w, lease, now))
  {
    hide Renew, WorkDone;
    var t := s.ticks[w];
    CallWorkDone(s, DoRenew(t.cid, w, TokenOf(t.row), lease, false, now));
    TickWorkDone(s.(db := Refresh(s, w, lease, now).db), Refresh(s, w, lease, now));
    TickWorkDone(s, Drop(s, w));
  }

  lemma FailedWorkDone(cfg: Config, s: Sys, w: Worker, e: Err)
    requires WorkDone(s) && w in s.ticks
    ensures WorkDone(Failed(cfg, s, w, e)) && WorkDone(InternalError(cfg, s, w))
  {
    hide WorkDone, NotRun;
    TickWorkDone(s, Failed(cfg, s, w, e));
    TickWorkDone(s, InternalError(cfg, s, w));
  }

  lemma RaiseWorkDone(cfg: Config, s: Sys, w: Worker, e: Err)
    requires WorkDone(s) && w in s.ticks
    ensures WorkDone(Raise(cfg, s, w, e))
  {
    hide WorkDone, NotRun, Failed;
    var told := s.(ticks := s.ticks[w := s.ticks[w].(told := e == AttemptBudgetExceeded)]);
    TickWorkDone(s, told);
    FailedWorkDone(cfg, told, w, e);
  }

  lemma CommitWorkDone(cfg: Config, s: Sys, w: Worker, i: Inputs)
    requires WorkDone(s) && w in s.ticks && s.ticks[w].stage.Writing?
    ensures WorkDone(Commit(cfg, s, w, i))
  {
    hide Perform, NotRun, Settle, Failed;
    var t := s.ticks[w];
    var o := Perform(s.db, CallFor(cfg, w, t.cid, t.stage.op, t.stage.seen, i));
    if o.RolledBack? {
      FailedWorkDone(cfg, s, w, o.err);
    } else {
      CallWorkDone(s, CallFor(cfg, w, t.cid, t.stage.op, t.stage.seen, i));
      TickWorkDone(s.(db := Commit(cfg, s, w, i).db), Commit(cfg, s, w, i));
    }
  }

  lemma ClaimWorkDone(cfg: Config, s: Sys, w: Worker, c: Id, token: Token, lease: int, now: Time)
    requires WorkDone(s)
    ensures WorkDone(Next(cfg, s, Claiming(w, c, token, lease, now)))
  {
    hide Claim, WorkDone, NotRun;
    var next := Next(cfg, s, Claiming(w, c, token, lease, now));
    CallWorkDone(s, DoClaim(c, w, token, lease, now));
    if next != s { TickWorkDone(s.(db := next.db), next); }
  }

  lemma RunWorkDone(cfg: Config, s: Sys, w: Worker, result: CapabilityResult)
    requires WorkDone(s)
    ensures WorkDone(Next(cfg, s, Executing(w, result)))
  {
    hide WorkDone;
    var next := Next(cfg, s, Executing(w, result));
    if next != s {
      assert next.runs[|s.runs|].did == s.ticks[w].stage.did;
      TickWorkDone(s, next);
    }
  }

  lemma LookUpWorkDone(cfg: Config, s: Sys, w: Worker)
    requires WorkDone(s) && w in s.ticks
    ensures WorkDone(LookUp(cfg, s, w))
  {
    hide FromDict, Binding, LatestPending, WorkDone, NotRun, Failed, InternalError;
    FailedWorkDone(cfg, s, w, PolicyDenied);
    FailedWorkDone(cfg, s, w, UnknownCommit);
    if LookUp(cfg, s, w) !in {Failed(cfg, s, w, PolicyDenied), Failed(cfg, s, w, UnknownCommit), InternalError(cfg, s, w)} {
      TickWorkDone(s, LookUp(cfg, s, w));
    }
  }

  lemma BudgetWorkDone(s: Sys, w: Worker)
    requires WorkDone(s) && w in s.ticks
    ensures WorkDone(Budget(s, w))
  {
    hide LatestEvidence, WorkDone, NotRun;
    TickWorkDone(s, Budget(s, w));
  }

  lemma PlanWorkDone(cfg: Config, s: Sys, w: Worker, decision: Decision)
    requires WorkDone(s) && w in s.ticks
    ensures WorkDone(Plan(cfg, s, w, decision))
  {
    hide Binding, Normalized, Authorize, WorkDone, NotRun, Failed, InternalError;
    FailedWorkDone(cfg, s, w, PolicyDenied);
    if Plan(cfg, s, w, decision) !in {Failed(cfg, s, w, PolicyDenied), InternalError(cfg, s, w)} {
      TickWorkDone(s, Plan(cfg, s, w, decision));
    }
  }

  lemma NextWorkDone(cfg: Config, s: Sys, step: Step)
    requires WorkDone(s)
    ensures WorkDone(Next(cfg, s, step))
  {
    hide Perform, Claim, Renew, Recover, FromDict, Binding, Normalized, Authorize, LatestPending, CallFor, WorkDone,
         Commit, Refresh, Raise, NotRun, LookUp, Budget, Plan;
    match step {
      case Admitting(c, m, actor, now) => CallWorkDone(s, DoAdmit(c, m, actor, now));
      case Recovering(delay, now) => CallWorkDone(s, DoRecover(delay, now));
      case Cancelling(c, actor, now) => CallWorkDone(s, DoCancel(c, actor, now));
      case Renewing(c, w, t, lease, record, now) => CallWorkDone(s, DoRenew(c, w, t, lease, record, now));
      case Claiming(w, c, token, lease, now) => ClaimWorkDone(cfg, s, w, c, token, lease, now);
      case Refreshing(w, lease, now) => if w in s.ticks { RefreshWorkDone(s, w, lease, now); }
      case Committing(w, i) => if w in s.ticks && s.ticks[w].stage.Writing? { CommitWorkDone(cfg, s, w, i); }
      case Executing(w, result) => RunWorkDone(cfg, s, w, result);
      case LookingUp(w) => if w in s.ticks { LookUpWorkDone(cfg, s, w); }
      case Budgeted(w) => if w in s.ticks { BudgetWorkDone(s, w); }
      case Planned(w, d) => if w in s.ticks { PlanWorkDone(cfg, s, w, d); }
      case PlannerRaised(w, e) => if w in s.ticks { RaiseWorkDone(cfg, s, w, e); }
      case _ => TickWorkDone(s, Next(cfg, s, step));
    }
  }

  lemma {:induction false} WorkAlwaysDone(cfg: Config, steps: seq<Step>)
    ensures WorkDone(Reach(cfg, steps))
  {
    hide Next;
    if steps != [] {
      WorkAlwaysDone(cfg, steps[..|steps| - 1]);
      NextWorkDone(cfg, Reach(cfg, steps[..|steps| - 1]), steps[|steps| - 1]);
    }
  }

  /** No evidence without work: a decision that has evidence had its capability called. */
  lemma EvidenceRestsOnCalls(cfg: Config, steps: seq<Step>, e: Id)
    requires e in Reach(cfg, steps).db.evid
    ensures exists i ::
              0 <= i < |Reach(cfg, steps).runs| && Reach(cfg, steps).runs[i].did == Reach(cfg, steps).db.evid[e].did
  {
    hide Inv;
    var s := Reach(cfg, steps);
    InvAlways(cfg, steps);
    WorkAlwaysDone(cfg, steps);
    JudgedHasResult(cfg, s, e);
  }

  lemma JudgedHasResult(cfg: Config, s: Sys, e: Id)
    requires Inv(cfg, s) && e in s.db.evid
    ensures HasResult(s.db, s.db.evid[e].did)
  {
    assert EvidenceOk(s.db, e);
  }
}
