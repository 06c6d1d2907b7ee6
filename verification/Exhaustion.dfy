/** When a continuation is EXHAUSTED with attempts left: `mark_exhausted` never looks at the budget, and a planner may
    raise `AttemptBudgetExceeded` itself. */
module Exhaustion {
  import opened Wrappers
  import opened Models
  import opened Policy
  import opened Tables
  import opened Queries
  import opened Operations
  import opened Effects
  import opened Replay
  import opened StoreInvariants
  import opened StoreLaws
  import opened Runtime
  import opened RuntimeInvariants
  import opened RuntimeSteps
  import opened RuntimeLaws

  predicate Exhausted(db: Db, c: Id) {
    c in db.conts && db.conts[c].state == EXHAUSTED
  }

  predicate AttemptsLeft(r: Continuation) {
    r.attempts < r.maxAttempts
  }

  /** The step ends the continuation, as the last write of a tick whose planner raised `AttemptBudgetExceeded` though
      the row the tick had claimed had attempts left. */
  ghost predicate Surrenders(cfg: Config, s: Sys, step: Step, c: Id) {
    && step.Committing? && step.worker in s.ticks
    && s.ticks[step.worker].cid == c && s.ticks[step.worker].told && AttemptsLeft(s.ticks[step.worker].row)
    && !Exhausted(s.db, c) && Exhausted(Next(cfg, s, step).db, c)
  }

  ghost predicate Surrendered(cfg: Config, steps: seq<Step>, c: Id) {
    exists k :: 0 <= k < |steps| && Surrenders(cfg, Reach(cfg, steps[..k]), steps[k], c)
  }

  lemma SurrenderedGrows(cfg: Config, steps: seq<Step>, step: Step, c: Id)
    ensures Surrendered(cfg, steps + [step], c) <==>
              Surrendered(cfg, steps, c) || Surrenders(cfg, Reach(cfg, steps), step, c)
  {
    hide Surrenders, Reach;
    var more := steps + [step];
    assert more[..|steps|] == steps;
    forall k | 0 <= k < |steps| ensures more[..k] == steps[..k] && more[k] == steps[k] {}
    if Surrendered(cfg, steps, c) {
      var k :| 0 <= k < |steps| && Surrenders(cfg, Reach(cfg, steps[..k]), steps[k], c);
      assert Surrenders(cfg, Reach(cfg, more[..k]), more[k], c);
    }
    if Surrenders(cfg, Reach(cfg, steps), step, c) {
      assert Surrenders(cfg, Reach(cfg, more[..|steps|]), more[|steps|], c);
    }
  }

  // ---- one call, one step ----

  lemma VerdictExhausted(cfg: Config, db: Db, call: Call, next: Db, c: Id)
    requires call.DoVerdict? && RowsOk(db) && Fair(cfg, db, call) && Effects.Wrote(db, call, next)
    requires !Exhausted(db, c) && Exhausted(next, c)
    ensures !AttemptsLeft(next.conts[c])
  {
    hide Allowed, JudgedBy;
  }

  /** The other calls end nothing as EXHAUSTED. */
  lemma OthersDoNotExhaust(db: Db, call: Call, next: Db, c: Id)
    requires !call.DoVerdict? && !call.DoRecover? && !call.DoExhaust? && Effects.Wrote(db, call, next)
    ensures Exhausted(next, c) ==> Exhausted(db, c)
  {
    hide Normalized, AsDict, HoldsKey, WakeAfter, PassEvidence;
  }

  lemma GivenUp(db: Db, call: Call, next: Db, c: Id)
    requires call.DoExhaust? && Effects.Wrote(db, call, next) && !Exhausted(db, c) && Exhausted(next, c)
    ensures call.cid == c && HeldBy(db, c, call.worker, call.token, call.version, call.now)
    ensures SameBudget(next.conts[c], db.conts[c])
  {
  }

  /** A call ends a continuation as EXHAUSTED because its budget is spent, or because it was told to. */
  lemma CallExhausts(cfg: Config, db: Db, call: Call, c: Id)
    requires RowsOk(db) && Fair(cfg, db, call) && !Exhausted(db, c) && Exhausted(Performed(db, call), c)
    ensures var next := Performed(db, call);
            || !AttemptsLeft(next.conts[c])
            || (call.DoExhaust? && call.cid == c && HeldBy(db, c, call.worker, call.token, call.version, call.now)
                && SameBudget(next.conts[c], db.conts[c]))
  {
    hide Performed, Fair, RowsOk, AttemptsLeft, RecoveredSoFar, VerdictWrote, ExhaustWrote, ApplyWrote, ReserveWrote,
         AdmitWrote, ClaimWrote, RenewWrote, StartWrote, RecordWrote, CancelWrote, Normalized, AsDict, HeldBy;
    var next := Performed(db, call);
    EveryEffect(db, call);
    match call {
      case DoRecover(delay, now) => RecoveredExhausted(db, delay, now, next, c);
      case DoVerdict(_, _, _, _, _, _, _, _, _, _) => VerdictExhausted(cfg, db, call, next, c);
      case DoExhaust(_, _, _, _, _, _) => GivenUp(db, call, next, c);
      case _ => OthersDoNotExhaust(db, call, next, c);
    }
  }

  lemma RecoveredExhausted(db: Db, delay: int, now: Time, next: Db, c: Id)
    requires RowsOk(db) && RecoveredSoFar(db, delay, now, next) && !Exhausted(db, c) && Exhausted(next, c)
    ensures !AttemptsLeft(next.conts[c])
  {
    assert RowOk(db.conts[c]);
  }

  /** Of the calls of a tick only the giving up can leave attempts, and only if its planner told it to. */
  lemma CommitExhausts(cfg: Config, s: Sys, w: Worker, i: Inputs, c: Id)
    requires Inv(cfg, s) && w in s.ticks && s.ticks[w].stage.Writing?
    requires !Exhausted(s.db, c)
    requires Exhausted(Performed(s.db, CallFor(cfg, w, s.ticks[w].cid, s.ticks[w].stage.op, s.ticks[w].stage.seen, i)), c)
    ensures var next := Performed(s.db, CallFor(cfg, w, s.ticks[w].cid, s.ticks[w].stage.op, s.ticks[w].stage.seen, i));
            AttemptsLeft(next.conts[c]) <==> s.ticks[w].cid == c && s.ticks[w].told && AttemptsLeft(s.ticks[w].row)
  {
    hide Inv, DbOk, LeaseOk, Performed, Fair, InHand, NoEarlierResult, CleanedOnce, Settle;
    var t := s.ticks[w];
    var call := CallFor(cfg, w, t.cid, t.stage.op, t.stage.seen, i);
    CallsFairly(cfg, s, w, i);
    TickFacts(cfg, s, w);
    DbRows(cfg, s.db);
    CallExhausts(cfg, s.db, call, c);
    if t.told { ToldExhausts(cfg, s.db, call, t, c); }
  }

  /** The write of a tick that was told to give up charges nothing, and ends no continuation but its own. */
  lemma ToldExhausts(cfg: Config, db: Db, call: Call, t: Tick, c: Id)
    requires call.DoExhaust? && call.cid == t.cid && t.row.token == Some(call.token) && t.told
    requires Holding(db, t) ==> HeldOk(db, t)
    requires !Exhausted(db, c) && Exhausted(Performed(db, call), c)
    ensures c == t.cid && SameBudget(Performed(db, call).conts[c], t.row)
  {
    hide HeldKnows;
    ExhaustEffect(db, call.cid, call.worker, call.token, call.version, call.reason, call.now);
  }

  /** A step ends a continuation as EXHAUSTED with attempts left exactly when it is such a surrender. */
  lemma StepExhausts(cfg: Config, s: Sys, step: Step, c: Id)
    requires Inv(cfg, s) && !Exhausted(s.db, c) && Exhausted(Next(cfg, s, step).db, c)
    ensures AttemptsLeft(Next(cfg, s, step).db.conts[c]) <==> Surrenders(cfg, s, step, c)
  {
    hide Inv, DbOk, Performed, Next, OthersOk, RunsOk, TokensOk, RowTokensIn, AttemptsLeft, CallFor;
    WorldStays(cfg, s, None);
    DbRows(cfg, s.db);
    StepIsCall(cfg, s, step);
    if step.Committing? {
      CommitExhausts(cfg, s, step.worker, step.inputs, c);
    } else {
      CallExhausts(cfg, s.db, StepCall(cfg, s, step).value, c);
    }
  }

  // ---- all runs ----

  lemma SurrenderEnds(cfg: Config, s: Sys, step: Step, c: Id)
    requires Surrenders(cfg, s, step, c)
    ensures Exhausted(Next(cfg, s, step).db, c) && !Exhausted(s.db, c)
  {
    hide Next;
  }

  lemma StaysExhausted(cfg: Config, s: Sys, step: Step, c: Id)
    requires Exhausted(s.db, c)
    ensures Exhausted(Next(cfg, s, step).db, c) && Next(cfg, s, step).db.conts[c] == s.db.conts[c]
  {
    hide Next;
    NextObeysTheTable(cfg, s, step, c);
  }

  lemma {:induction false} SurrenderedIsExhausted(cfg: Config, steps: seq<Step>, c: Id)
    requires Surrendered(cfg, steps, c)
    ensures Exhausted(Reach(cfg, steps).db, c)
  {
    hide Next, Exhausted, Surrenders, Surrendered;
    if steps == [] {
      NothingSurrendered(cfg, c);
    } else {
      var before, step := steps[..|steps| - 1], steps[|steps| - 1];
      assert steps == before + [step];
      SurrenderedGrows(cfg, before, step, c);
      OnwardOne(cfg, START, before, step);
      if Surrendered(cfg, before, c) {
        SurrenderedIsExhausted(cfg, before, c);
        StaysExhausted(cfg, Reach(cfg, before), step, c);
      } else {
        SurrenderEnds(cfg, Reach(cfg, before), step, c);
      }
    }
  }

  lemma NothingSurrendered(cfg: Config, c: Id)
    ensures !Surrendered(cfg, [], c)
  {
  }

  /** A reachable EXHAUSTED continuation has attempts left if and only if the tick that ended it had claimed it with
      attempts left, and left through an `AttemptBudgetExceeded` raised by its planner. */
  lemma {:induction false} ExhaustedWithAttemptsLeft(cfg: Config, steps: seq<Step>, c: Id)
    requires Exhausted(Reach(cfg, steps).db, c)
    ensures AttemptsLeft(Reach(cfg, steps).db.conts[c]) <==> Surrendered(cfg, steps, c)
  {
    hide Next, Surrenders, Surrendered, AttemptsLeft, Inv;
    if steps != [] {
      var before, step := steps[..|steps| - 1], steps[|steps| - 1];
      var s := Reach(cfg, before);
      assert steps == before + [step];
      SurrenderedGrows(cfg, before, step, c);
      OnwardOne(cfg, START, before, step);
      if Exhausted(s.db, c) {
        ExhaustedWithAttemptsLeft(cfg, before, c);
        StaysExhausted(cfg, s, step, c);
        if Surrenders(cfg, s, step, c) { SurrenderEnds(cfg, s, step, c); }
      } else {
        InvAlways(cfg, before);
        StepExhausts(cfg, s, step, c);
        if Surrendered(cfg, before, c) { SurrenderedIsExhausted(cfg, before, c); }
      }
    }
  }

  /** A tick was told to give up by its planner, in this very tick. */
  lemma {:induction false} ToldByThePlanner(cfg: Config, steps: seq<Step>, w: Worker) returns (k: nat)
    requires w in Reach(cfg, steps).ticks && Reach(cfg, steps).ticks[w].told
    ensures k < |steps| && steps[k] == PlannerRaised(w, AttemptBudgetExceeded)
    ensures var s := Reach(cfg, steps[..k]);
            w in s.ticks && s.ticks[w].stage.Planning? && s.ticks[w].row == Reach(cfg, steps).ticks[w].row
  {
    k := 0;
    if steps != [] {
      var before, step := steps[..|steps| - 1], steps[|steps| - 1];
      OnwardOne(cfg, START, before, step);
      assert steps == before + [step];
      TellingIsRaising(cfg, Reach(cfg, before), step, w);
      hide Next;
      if step == PlannerRaised(w, AttemptBudgetExceeded) && w in Reach(cfg, before).ticks
         && Reach(cfg, before).ticks[w].stage.Planning?
      {
        k := |before|;
      } else {
        k := ToldByThePlanner(cfg, before, w);
        assert before[..k] == steps[..k];
      }
    }
  }

  /** The ticks are those of before, told what they had been told. */
  predicate SameTold(s: Sys, next: Sys) {
    forall w :: w in next.ticks ==>
      w in s.ticks && next.ticks[w].row == s.ticks[w].row && next.ticks[w].told == s.ticks[w].told
  }

  lemma FailedTellsNobody(cfg: Config, s: Sys, w: Worker, e: Err)
    requires w in s.ticks
    ensures SameTold(s, Failed(cfg, s, w, e)) && SameTold(s, InternalError(cfg, s, w))
  {
  }

  lemma CommitTellsNobody(cfg: Config, s: Sys, w: Worker, i: Inputs)
    requires w in s.ticks && s.ticks[w].stage.Writing?
    ensures SameTold(s, Commit(cfg, s, w, i))
  {
    hide Perform, CallFor, Failed, InternalError;
    var t := s.ticks[w];
    var o := Perform(s.db, CallFor(cfg, w, t.cid, t.stage.op, t.stage.seen, i));
    if o.RolledBack? { FailedTellsNobody(cfg, s, w, o.err); }
  }

  lemma ReadingTellsNobody(cfg: Config, s: Sys, w: Worker, d: Decision)
    requires w in s.ticks
    ensures SameTold(s, LookUp(cfg, s, w)) && SameTold(s, Plan(cfg, s, w, d))
  {
    hide FromDict, Binding, Normalized, Authorize, LatestPending, Failed, InternalError, SimpleDecision;
    FailedTellsNobody(cfg, s, w, PolicyDenied);
    FailedTellsNobody(cfg, s, w, UnknownCommit);
  }

  lemma RaisingTells(cfg: Config, s: Sys, w: Worker, e: Err)
    requires w in s.ticks
    ensures forall v :: v in Raise(cfg, s, w, e).ticks ==>
              v in s.ticks && Raise(cfg, s, w, e).ticks[v].row == s.ticks[v].row
              && (Raise(cfg, s, w, e).ticks[v].told ==> s.ticks[v].told || (v == w && e == AttemptBudgetExceeded))
  {
    hide Failed;
    FailedTellsNobody(cfg, s.(ticks := s.ticks[w := s.ticks[w].(told := e == AttemptBudgetExceeded)]), w, e);
  }

  lemma TellingIsRaising(cfg: Config, s: Sys, step: Step, w: Worker)
    requires w in Next(cfg, s, step).ticks && Next(cfg, s, step).ticks[w].told
    ensures w in s.ticks && Next(cfg, s, step).ticks[w].row == s.ticks[w].row
    ensures s.ticks[w].told || (step == PlannerRaised(w, AttemptBudgetExceeded) && s.ticks[w].stage.Planning?)
  {
    hide Performed, Claim, Renew, LookUp, Plan, Commit, Raise, LatestEvidence, InternalError;
    match step {
      case LookingUp(v) => if v in s.ticks { ReadingTellsNobody(cfg, s, v, SimpleDecision(WAIT, "", None)); }
      case Planned(v, d) => if v in s.ticks { ReadingTellsNobody(cfg, s, v, d); }
      case PlannerRaised(v, e) => if v in s.ticks { RaisingTells(cfg, s, v, e); }
      case Committing(v, i) => if v in s.ticks && s.ticks[v].stage.Writing? { CommitTellsNobody(cfg, s, v, i); }
      case Faulting(v) => if v in s.ticks { FailedTellsNobody(cfg, s, v, PolicyDenied); }
      case _ =>
    }
  }

  /** As long as no planner raises `AttemptBudgetExceeded`, exhausted means that every attempt is spent. */
  lemma {:induction false} ExhaustionIsEarned(cfg: Config, steps: seq<Step>, c: Id)
    requires forall k :: 0 <= k < |steps| ==> !(steps[k].PlannerRaised? && steps[k].err == AttemptBudgetExceeded)
    requires Exhausted(Reach(cfg, steps).db, c)
    ensures Reach(cfg, steps).db.conts[c].attempts == Reach(cfg, steps).db.conts[c].maxAttempts
  {
    hide Next, Inv, Reach;
    InvAlways(cfg, steps);
    InvRow(cfg, Reach(cfg, steps), c);
    ExhaustedWithAttemptsLeft(cfg, steps, c);
    if Surrendered(cfg, steps, c) {
      var k :| 0 <= k < |steps| && Surrenders(cfg, Reach(cfg, steps[..k]), steps[k], c);
      var j := ToldByThePlanner(cfg, steps[..k], steps[k].worker);
    }
  }
}
