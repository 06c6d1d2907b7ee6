/** Where the contents of the tables come from: the work is the planner's, the results are what the capabilities
    returned, the evidence is what the verifiers said. */
module Provenance {
  import opened Wrappers
  import opened Models
  import opened Policy
  import opened Tables
  import opened Queries
  import opened Operations
  import opened Effects
  import opened StoreInvariants
  import opened Runtime
  import opened RuntimeInvariants
  import opened RuntimeSteps
  import opened AtMostOnce

  /** What a tick carries on its way to a write: a decision to book, a result to keep, a verification to judge by. */
  datatype Load = Nothing | Item(item: Decision) | Got(did: Id, result: CapabilityResult)
    | Said(did: Id, verification: Verification)

  function LoadOf(op: Op): Load {
    match op
    case Book(item) => Item(item)
    case Keep(did, _, result) => Got(did, result)
    case Judge(did, _, v) => Said(did, v)
    case _ => Nothing
  }

  function Carries(stage: Stage): Load {
    match stage
    case Owning(op) => LoadOf(op)
    case Writing(op, _) => LoadOf(op)
    case Ran(did, _, result) => Got(did, result)
    case Assayed(did, _, v) => Said(did, v)
    case _ => Nothing
  }

  /** The step that gives a tick its load, and the stage it was given at. */
  predicate Loads(s: Sys, step: Step, w: Worker, load: Load) {
    && w in s.ticks
    && match load
       case Nothing => false
       case Item(item) =>
         step.Planned? && step.worker == w && s.ticks[w].stage.Planning? && Normalized(step.decision) == Success(item)
       case Got(did, result) =>
         step == Executing(w, result) && s.ticks[w].stage.Poised? && s.ticks[w].stage.did == did
       case Said(did, v) =>
         step == Assessing(w, v) && s.ticks[w].stage.Assaying? && s.ticks[w].stage.did == did
  }

  /** No tick has got another load but `w`, and `w` has it from the step. */
  predicate LoadsKept(s: Sys, next: Sys) {
    forall w :: w in next.ticks && Carries(next.ticks[w].stage) != Nothing ==>
      w in s.ticks && Carries(s.ticks[w].stage) == Carries(next.ticks[w].stage)
  }

  lemma FailedLoadsNothing(cfg: Config, s: Sys, w: Worker, e: Err)
    requires w in s.ticks
    ensures LoadsKept(s, Failed(cfg, s, w, e)) && LoadsKept(s, InternalError(cfg, s, w))
  {
  }

  lemma CommitLoadsNothing(cfg: Config, s: Sys, w: Worker, i: Inputs)
    requires w in s.ticks && s.ticks[w].stage.Writing?
    ensures LoadsKept(s, Commit(cfg, s, w, i))
  {
    hide Perform, CallFor, Failed, InternalError;
    var t := s.ticks[w];
    var o := Perform(s.db, CallFor(cfg, w, t.cid, t.stage.op, t.stage.seen, i));
    if o.RolledBack? { FailedLoadsNothing(cfg, s, w, o.err); }
  }

  lemma LookUpLoadsNothing(cfg: Config, s: Sys, w: Worker)
    requires w in s.ticks
    ensures LoadsKept(s, LookUp(cfg, s, w)) && LoadsKept(s, Budget(s, w))
  {
    hide FromDict, Binding, LatestPending, LatestEvidence, Failed, InternalError;
    FailedLoadsNothing(cfg, s, w, PolicyDenied);
    FailedLoadsNothing(cfg, s, w, UnknownCommit);
  }

  lemma RaiseLoadsNothing(cfg: Config, s: Sys, w: Worker, e: Err)
    requires w in s.ticks
    ensures LoadsKept(s, Raise(cfg, s, w, e))
  {
    hide Failed;
    FailedLoadsNothing(cfg, s.(ticks := s.ticks[w := s.ticks[w].(told := e == AttemptBudgetExceeded)]), w, e);
  }

  lemma PlanLoads(cfg: Config, s: Sys, w: Worker, d: Decision, v: Worker)
    requires w in s.ticks && s.ticks[w].stage.Planning?
    requires v in Plan(cfg, s, w, d).ticks && Carries(Plan(cfg, s, w, d).ticks[v].stage) != Nothing
    ensures v in s.ticks
    ensures var load := Carries(Plan(cfg, s, w, d).ticks[v].stage);
            load == Carries(s.ticks[v].stage) || Loads(s, Planned(w, d), v, load)
  {
    hide Normalized, Binding, Authorize, Failed, InternalError;
    FailedLoadsNothing(cfg, s, w, PolicyDenied);
  }

  /** A tick has its load from the step before, or has carried it already. */
  lemma LoadsComeFromSteps(cfg: Config, s: Sys, step: Step, w: Worker)
    requires w in Next(cfg, s, step).ticks && Carries(Next(cfg, s, step).ticks[w].stage) != Nothing
    ensures w in s.ticks
    ensures var load := Carries(Next(cfg, s, step).ticks[w].stage);
            load == Carries(s.ticks[w].stage) || Loads(s, step, w, load)
  {
    hide Performed, Claim, Renew, LookUp, Budget, Plan, Commit, Raise, InternalError;
    match step {
      case LookingUp(v) => if v in s.ticks { LookUpLoadsNothing(cfg, s, v); }
      case Budgeted(v) => if v in s.ticks { LookUpLoadsNothing(cfg, s, v); }
      case Planned(v, d) => if v in s.ticks && s.ticks[v].stage.Planning? { PlanLoads(cfg, s, v, d, w); }
      case PlannerRaised(v, e) => if v in s.ticks { RaiseLoadsNothing(cfg, s, v, e); }
      case Committing(v, i) => if v in s.ticks && s.ticks[v].stage.Writing? { CommitLoadsNothing(cfg, s, v, i); }
      case Faulting(v) => if v in s.ticks { FailedLoadsNothing(cfg, s, v, PolicyDenied); }
      case _ =>
    }
  }

  /** Whatever a tick carries, a step of the run gave it. */
  lemma {:induction false} LoadsAreGiven(cfg: Config, steps: seq<Step>, w: Worker) returns (k: nat)
    requires w in Reach(cfg, steps).ticks && Carries(Reach(cfg, steps).ticks[w].stage) != Nothing
    ensures k < |steps|
    ensures Loads(Reach(cfg, steps[..k]), steps[k], w, Carries(Reach(cfg, steps).ticks[w].stage))
  {
    k := 0;
    if steps != [] {
      hide Next, Loads, Carries;
      var before, step := steps[..|steps| - 1], steps[|steps| - 1];
      OnwardOne(cfg, START, before, step);
      assert steps == before + [step];
      LoadsComeFromSteps(cfg, Reach(cfg, before), step, w);
      if Loads(Reach(cfg, before), step, w, Carries(Reach(cfg, steps).ticks[w].stage)) {
        k := |before|;
      } else {
        k := LoadsAreGiven(cfg, before, w);
        assert before[..k] == steps[..k];
      }
    }
  }

  // ---- what a call brings into the tables ----

  lemma CallBringsWork(db: Db, call: Call, d: Id)
    requires d !in db.decs && d in Performed(db, call).decs && Performed(db, call).decs[d].kind == EXECUTE
    ensures call.DoReserve? && Normalized(call.decision).Success?
    ensures Normalized(call.decision).value.kind == Enum(EXECUTE)
    ensures StoredWork(Performed(db, call).decs[d].payload) == WorkOf(Normalized(Normalized(call.decision).value).value)
  {
    hide Complaint, JudgedBy, Allowed, Performed, WakeAfter, Destination, PassEvidence, Released, HoldsKey,
         RecoveredSoFar, Clean, StripOr;
    EveryEffect(db, call);
    if call.DoRecover? { RecoveredResults(db, call.delay, call.now, Performed(db, call)); }
  }

  lemma RecoveredResults(db: Db, delay: int, now: Time, next: Db)
    requires RecoveredSoFar(db, delay, now, next)
    ensures next.decs.Keys == db.decs.Keys && next.evid == db.evid
    ensures forall d :: d in db.decs ==> next.decs[d].result == db.decs[d].result
  {
    forall d | d in db.decs ensures next.decs[d].result == db.decs[d].result {
      assert RecoveredDecision(db, now, db.decs[d], next.decs[d]);
    }
  }

  function ResultOf(db: Db, d: Id): Option<CapabilityResult> {
    if d in db.decs then db.decs[d].result else None
  }

  lemma CallBringsResult(db: Db, call: Call, d: Id)
    requires ResultOf(Performed(db, call), d).Some? && ResultOf(Performed(db, call), d) != ResultOf(db, d)
    ensures call.DoRecord? && call.did == d && ResultOf(Performed(db, call), d) == Some(call.result)
  {
    hide Normalized, AsDict, JudgedBy, Allowed, Performed, WakeAfter, Destination, PassEvidence, Released,
         HoldsKey, RecoveredSoFar;
    EveryEffect(db, call);
    if call.DoRecover? { RecoveredResults(db, call.delay, call.now, Performed(db, call)); }
  }

  lemma CallBringsEvidence(db: Db, call: Call, e: Id)
    requires e in Performed(db, call).evid && e !in db.evid
    ensures call.DoVerdict? && Performed(db, call).evid[e].did == call.did
    ensures Performed(db, call).evid[e].verification == call.verification
  {
    hide Normalized, AsDict, JudgedBy, Allowed, Performed, WakeAfter, Destination, PassEvidence, Released,
         HoldsKey, RecoveredSoFar;
    EveryEffect(db, call);
    if call.DoRecover? { RecoveredResults(db, call.delay, call.now, Performed(db, call)); }
  }

  lemma EvidenceStays(db: Db, call: Call, e: Id)
    requires e in db.evid
    ensures e in Performed(db, call).evid && Performed(db, call).evid[e] == db.evid[e]
  {
    hide Normalized, AsDict, JudgedBy, Allowed, Performed, WakeAfter, Destination, PassEvidence, Released,
         HoldsKey, RecoveredSoFar;
    EveryEffect(db, call);
    if call.DoRecover? && Performed(db, call) != db {
      RecoveredResults(db, call.delay, call.now, Performed(db, call));
    }
  }

  // ---- in runs ----

  /** Every decision row to be executed keeps the work that a planner asked for, trimmed. */
  lemma {:induction false} RowsAreThePlanners(cfg: Config, steps: seq<Step>, d: Id) returns (k: nat)
    requires d in Reach(cfg, steps).db.decs && Reach(cfg, steps).db.decs[d].kind == EXECUTE
    ensures k < |steps| && steps[k].Planned? && Normalized(steps[k].decision).Success?
    ensures StoredWork(Reach(cfg, steps).db.decs[d].payload) == WorkOf(Normalized(steps[k].decision).value)
  {
    k := 0;
    if steps != [] {
      hide Next, Inv, Normalized, StoredWork, WorkOf;
      var before, step := steps[..|steps| - 1], steps[|steps| - 1];
      var s := Reach(cfg, before);
      OnwardOne(cfg, START, before, step);
      assert steps == before + [step];
      if d in s.db.decs {
        NextGrows(cfg, s, step);
        k := RowsAreThePlanners(cfg, before, d);
        assert before[..k] == steps[..k];
      } else {
        InvAlways(cfg, before);
        k := NewRowIsThePlanners(cfg, before, step, d);
      }
    }
  }

  lemma NewRowIsThePlanners(cfg: Config, before: seq<Step>, step: Step, d: Id) returns (k: nat)
    requires Inv(cfg, Reach(cfg, before)) && d !in Reach(cfg, before).db.decs
    requires var next := Next(cfg, Reach(cfg, before), step).db; d in next.decs && next.decs[d].kind == EXECUTE
    ensures k < |before| && before[k].Planned? && Normalized(before[k].decision).Success?
    ensures StoredWork(Next(cfg, Reach(cfg, before), step).db.decs[d].payload)
         == WorkOf(Normalized(before[k].decision).value)
  {
    hide Next, Inv, Performed, Normalized, CallFor, StoredWork, WorkOf;
    var s := Reach(cfg, before);
    StepIsCall(cfg, s, step);
    CallBringsWork(s.db, StepCall(cfg, s, step).value, d);
    k := BookedWork(cfg, before, step);
  }

  lemma BookedWork(cfg: Config, before: seq<Step>, step: Step) returns (k: nat)
    requires var s := Reach(cfg, before);
             && Inv(cfg, s) && StepCall(cfg, s, step).Some? && StepCall(cfg, s, step).value.DoReserve?
    ensures k < |before| && before[k].Planned? && Normalized(before[k].decision).Success?
    ensures var item, asked := Normalized(before[k].decision).value, StepCall(cfg, Reach(cfg, before), step).value.decision;
            && Normalized(asked).Success? && WorkOf(Normalized(asked).value) == WorkOf(item)
            && Normalized(Normalized(asked).value) == Normalized(asked)
  {
    hide Inv, DbOk, LeaseOk, HeldOk, Normalized, Next, Settle, MayRun;
    var s := Reach(cfg, before);
    TickFacts(cfg, s, step.worker);
    k := LoadsAreGiven(cfg, before, step.worker);
  }

  /** Each call of a capability is of the work some planner asked for: its arguments, risk and flags as they were given,
      its capability and verifier trimmed, with "default" for a verifier left blank. */
  lemma {:induction false} CallsDoThePlannersWork(cfg: Config, steps: seq<Step>, i: nat) returns (k: nat)
    requires i < |Reach(cfg, steps).runs|
    ensures k < |steps| && steps[k].Planned?
    ensures var r, p := Reach(cfg, steps).runs[i].decision, steps[k].decision;
            && r.arguments == p.arguments && r.riskTier == p.riskTier && r.terminalOnPass == p.terminalOnPass
            && r.experienceScope == p.experienceScope
            && r.verifierId == (if Text.Blank(p.verifierId) then "default" else Text.Strip(p.verifierId))
            && p.capability.Some? && r.capability == Some(Text.Strip(p.capability.value))
  {
    hide MayRun, DbOk, TickOk, TokensOk, NoEarlierResult, Normalized;
    InvAlways(cfg, steps);
    var r := Reach(cfg, steps).runs[i];
    assert RunOk(cfg, Reach(cfg, steps).db, r);
    k := RowsAreThePlanners(cfg, steps, r.did);
    CleaningExactly(steps[k].decision);
    MayRunHasCapability(cfg, r.decision);
  }

  /** However often a decision is called, every call passes one idempotency key, that of its row, but for white space
      around it. */
  lemma {:induction false} CallsKeepTheKey(cfg: Config, steps: seq<Step>, i: nat, j: nat)
    requires i < |Reach(cfg, steps).runs| && j < |Reach(cfg, steps).runs|
    requires Reach(cfg, steps).runs[i].did == Reach(cfg, steps).runs[j].did
    ensures var s := Reach(cfg, steps);
            var a, b := s.runs[i], s.runs[j];
            && a.did in s.db.decs
            && var key := s.db.decs[a.did].key;
            && Text.Strip(CallKey(a.decision, key)) == Text.Strip(key) == Text.Strip(CallKey(b.decision, key))
            && (a.decision.key.Some? && !Text.Blank(a.decision.key.value) ==>
                  Text.Strip(a.decision.key.value) == Text.Strip(key))
  {
    hide MayRun, DbOk, TickOk, TokensOk, NoEarlierResult, Text.Strip;
    InvAlways(cfg, steps);
    var s := Reach(cfg, steps);
    assert RunOk(cfg, s.db, s.runs[i]) && RunOk(cfg, s.db, s.runs[j]);
  }

  lemma MayRunHasCapability(cfg: Config, d: Decision)
    requires MayRun(cfg.policy, cfg.registry, d)
    ensures d.capability.Some?
  {
    AuthorizedMeans(cfg.policy, cfg.registry, d);
  }

  /** Every stored result is what the capability of that very decision returned in a call. */
  lemma {:induction false} ResultsAreReturned(cfg: Config, steps: seq<Step>, d: Id) returns (k: nat)
    requires ResultOf(Reach(cfg, steps).db, d).Some?
    ensures k < |steps| && steps[k].Executing? && ResultOf(Reach(cfg, steps).db, d) == Some(steps[k].result)
    ensures var s := Reach(cfg, steps[..k]);
            && steps[k].worker in s.ticks && s.ticks[steps[k].worker].stage.Poised?
            && s.ticks[steps[k].worker].stage.did == d
  {
    k := 0;
    if steps != [] {
      hide Next, Performed, CallFor, ResultOf;
      var before, step := steps[..|steps| - 1], steps[|steps| - 1];
      var s := Reach(cfg, before);
      OnwardOne(cfg, START, before, step);
      assert steps == before + [step];
      if ResultOf(Reach(cfg, steps).db, d) == ResultOf(s.db, d) {
        k := ResultsAreReturned(cfg, before, d);
        assert before[..k] == steps[..k];
      } else {
        StepIsCall(cfg, s, step);
        CallBringsResult(s.db, StepCall(cfg, s, step).value, d);
        RecordsAreCarried(cfg, s, step);
        k := LoadsAreGiven(cfg, before, step.worker);
        assert before[..k] == steps[..k];
      }
    }
  }

  lemma RecordsAreCarried(cfg: Config, s: Sys, step: Step)
    requires StepCall(cfg, s, step).Some?
    ensures var call := StepCall(cfg, s, step).value;
            && (call.DoRecord? || call.DoVerdict? ==> step.Committing? && step.worker in s.ticks)
            && (call.DoRecord? ==> Carries(s.ticks[step.worker].stage) == Got(call.did, call.result))
            && (call.DoVerdict? ==> Carries(s.ticks[step.worker].stage) == Said(call.did, call.verification))
  {
    hide Settle;
  }

  /** Every piece of evidence is what a verifier said of that very decision. */
  lemma {:induction false} EvidenceIsGiven(cfg: Config, steps: seq<Step>, e: Id) returns (k: nat)
    requires e in Reach(cfg, steps).db.evid
    ensures k < |steps| && steps[k].Assessing?
    ensures steps[k].verification == Reach(cfg, steps).db.evid[e].verification
    ensures var s := Reach(cfg, steps[..k]);
            && steps[k].worker in s.ticks && s.ticks[steps[k].worker].stage.Assaying?
            && s.ticks[steps[k].worker].stage.did == Reach(cfg, steps).db.evid[e].did
  {
    k := 0;
    if steps != [] {
      hide Next, Performed, CallFor;
      var before, step := steps[..|steps| - 1], steps[|steps| - 1];
      var s := Reach(cfg, before);
      OnwardOne(cfg, START, before, step);
      assert steps == before + [step];
      StepIsCall(cfg, s, step);
      if e in s.db.evid {
        if StepCall(cfg, s, step).Some? { EvidenceStays(s.db, StepCall(cfg, s, step).value, e); }
        k := EvidenceIsGiven(cfg, before, e);
        assert before[..k] == steps[..k];
      } else {
        CallBringsEvidence(s.db, StepCall(cfg, s, step).value, e);
        RecordsAreCarried(cfg, s, step);
        k := LoadsAreGiven(cfg, before, step.worker);
        assert before[..k] == steps[..k];
      }
    }
  }

  // ---- no call without a lease ----

  /** A renewal that finds the lease running moves its end and lets the tick go on; any other ends the tick and writes
      nothing. */
  lemma RenewalsDecide(cfg: Config, s: Sys, w: Worker, lease: int, now: Time)
    requires w in s.ticks && Refreshed(s.ticks[w].stage).Some?
    ensures var t, next := s.ticks[w], Next(cfg, s, Refreshing(w, lease, now));
            if t.cid in s.db.conts && HeldBy(s.db, t.cid, w, TokenOf(t.row), s.db.conts[t.cid].version, now) then
              && next.ticks == s.ticks[w := t.(stage := Refreshed(t.stage).value)]
              && next.db == s.db.(conts := s.db.conts[t.cid := s.db.conts[t.cid].(
                   expires := Some(if lease >= 0 then now + lease else now), heartbeat := Some(now))])
            else next == s.(ticks := s.ticks - {w})
  {
  }

  /** The tick has just renewed the lease it holds, and nothing else makes it ready to call. */
  predicate Renews(s: Sys, step: Step, w: Worker, t: Tick)
    requires t.stage.Poised?
  {
    && step.Refreshing? && step.worker == w && w in s.ticks
    && s.ticks[w].stage == Armed(t.stage.did, t.stage.decision) && s.ticks[w].(stage := t.stage) == t
    && t.cid in s.db.conts && HeldBy(s.db, t.cid, w, TokenOf(t.row), s.db.conts[t.cid].version, step.now)
  }

  predicate NewlyPoised(s: Sys, next: Sys, w: Worker) {
    w in next.ticks && next.ticks[w].stage.Poised? && !(w in s.ticks && s.ticks[w] == next.ticks[w])
  }

  lemma FailedPoisesNobody(cfg: Config, s: Sys, w: Worker, e: Err, v: Worker)
    requires w in s.ticks
    ensures !NewlyPoised(s, Failed(cfg, s, w, e), v) && !NewlyPoised(s, InternalError(cfg, s, w), v)
    ensures !NewlyPoised(s, Raise(cfg, s, w, e), v)
  {
  }

  lemma CommitPoisesNobody(cfg: Config, s: Sys, w: Worker, i: Inputs, v: Worker)
    requires w in s.ticks && s.ticks[w].stage.Writing?
    ensures !NewlyPoised(s, Commit(cfg, s, w, i), v)
  {
    hide Perform, CallFor, Failed;
    var o := Perform(s.db, CallFor(cfg, w, s.ticks[w].cid, s.ticks[w].stage.op, s.ticks[w].stage.seen, i));
    if o.RolledBack? { FailedPoisesNobody(cfg, s, w, o.err, v); }
  }

  lemma LookUpPoisesNobody(cfg: Config, s: Sys, w: Worker, v: Worker)
    requires w in s.ticks
    ensures !NewlyPoised(s, LookUp(cfg, s, w), v) && !NewlyPoised(s, Budget(s, w), v)
  {
    hide FromDict, Binding, LatestPending, LatestEvidence, Failed, InternalError;
    FailedPoisesNobody(cfg, s, w, PolicyDenied, v);
    FailedPoisesNobody(cfg, s, w, UnknownCommit, v);
  }

  lemma PlanPoisesNobody(cfg: Config, s: Sys, w: Worker, d: Decision, v: Worker)
    requires w in s.ticks
    ensures !NewlyPoised(s, Plan(cfg, s, w, d), v)
  {
    hide Normalized, Binding, Authorize, Failed, InternalError;
    FailedPoisesNobody(cfg, s, w, PolicyDenied, v);
  }

  lemma OnlyRenewalsPoise(cfg: Config, s: Sys, step: Step, w: Worker)
    requires w in Next(cfg, s, step).ticks && Next(cfg, s, step).ticks[w].stage.Poised?
    ensures var t := Next(cfg, s, step).ticks[w];
            (w in s.ticks && s.ticks[w] == t) || Renews(s, step, w, t)
  {
    hide Performed, Claim, LookUp, Budget, Plan, Commit, Raise, InternalError, Refresh;
    match step {
      case Refreshing(v, lease, now) =>
        if v in s.ticks && NewlyPoised(s, Refresh(s, v, lease, now), w) { RefreshPoises(s, v, lease, now, w); }
      case LookingUp(v) => if v in s.ticks { LookUpPoisesNobody(cfg, s, v, w); }
      case Budgeted(v) => if v in s.ticks { LookUpPoisesNobody(cfg, s, v, w); }
      case Planned(v, d) => if v in s.ticks { PlanPoisesNobody(cfg, s, v, d, w); }
      case PlannerRaised(v, e) => if v in s.ticks { FailedPoisesNobody(cfg, s, v, e, w); }
      case Committing(v, i) => if v in s.ticks && s.ticks[v].stage.Writing? { CommitPoisesNobody(cfg, s, v, i, w); }
      case Faulting(v) => if v in s.ticks { FailedPoisesNobody(cfg, s, v, PolicyDenied, w); }
      case _ =>
    }
  }

  lemma RefreshPoises(s: Sys, v: Worker, lease: int, now: Time, w: Worker)
    requires v in s.ticks && NewlyPoised(s, Refresh(s, v, lease, now), w)
    ensures Renews(s, Refreshing(v, lease, now), w, Refresh(s, v, lease, now).ticks[w])
  {
  }

  /** A tick that is ready to call has renewed its lease in time at some step, and has not moved since. */
  lemma {:induction false} PoisedHasRenewed(cfg: Config, steps: seq<Step>, w: Worker) returns (k: nat)
    requires w in Reach(cfg, steps).ticks && Reach(cfg, steps).ticks[w].stage.Poised?
    ensures k < |steps| && Renews(Reach(cfg, steps[..k]), steps[k], w, Reach(cfg, steps).ticks[w])
    ensures w in Reach(cfg, steps[..k + 1]).ticks && Reach(cfg, steps[..k + 1]).ticks[w] == Reach(cfg, steps).ticks[w]
  {
    k := 0;
    if steps != [] {
      hide Next, Renews;
      var before, step := steps[..|steps| - 1], steps[|steps| - 1];
      OnwardOne(cfg, START, before, step);
      assert steps == before + [step];
      OnlyRenewalsPoise(cfg, Reach(cfg, before), step, w);
      if Renews(Reach(cfg, before), step, w, Reach(cfg, steps).ticks[w]) {
        k := |before|;
        assert steps[..k + 1] == steps;
      } else {
        k := PoisedHasRenewed(cfg, before, w);
        assert before[..k] == steps[..k] && before[..k + 1] == steps[..k + 1];
      }
    }
  }

  lemma RunsGrowByCalls(cfg: Config, s: Sys, step: Step)
    ensures var next := Next(cfg, s, step);
            || next.runs == s.runs
            || (step.Executing? && step.worker in s.ticks && s.ticks[step.worker].stage.Poised?
                && var t := s.ticks[step.worker];
                   next.runs == s.runs + [Run(t.stage.did, step.worker, t.since, t.stage.decision)])
  {
    hide Performed, Claim, Perform, CallFor, Renew, Normalized, Binding, Authorize, FromDict, LatestPending,
         LatestEvidence;
  }

  /** Every call of a capability is made by a tick whose last move was to renew its lease, before it ran out. */
  lemma {:induction false} CallsFollowRenewals(cfg: Config, steps: seq<Step>, i: nat) returns (j: nat, k: nat)
    requires i < |Reach(cfg, steps).runs|
    ensures k < j < |steps| && steps[j].Executing?
    ensures var run, w, s := Reach(cfg, steps).runs[i], steps[j].worker, Reach(cfg, steps[..j]);
            && w in s.ticks && s.ticks[w].stage == Poised(run.did, run.decision) && run.worker == w
            && i == |s.runs| && Renews(Reach(cfg, steps[..k]), steps[k], w, s.ticks[w])
  {
    j, k := 0, 0;
    if steps != [] {
      hide Next, Renews;
      var before, step := steps[..|steps| - 1], steps[|steps| - 1];
      var s := Reach(cfg, before);
      OnwardOne(cfg, START, before, step);
      assert steps == before + [step];
      RunsGrowByCalls(cfg, s, step);
      if i < |s.runs| {
        j, k := CallsFollowRenewals(cfg, before, i);
        assert before[..k] == steps[..k] && before[..j] == steps[..j];
      } else {
        j := |before|;
        k := PoisedHasRenewed(cfg, before, step.worker);
        assert before[..k] == steps[..k] && before == steps[..j];
      }
    }
  }
}
