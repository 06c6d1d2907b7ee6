/** One worker's `run_once`, as it drives the store call by call: each call it makes is a step of module Runtime, so
    that a tick left to itself is one of the runs the laws speak of. */
module Worker {
  import opened Wrappers
  import opened Models
  import opened Policy
  import opened Tables
  import opened Queries
  import opened Operations
  import opened Store
  import opened Runtime
  import opened RuntimeInvariants
  import opened RuntimeSteps
  import opened RuntimeLaws
  import opened StoreInvariants
  import opened StoreLaws
  import opened AtMostOnce
  import opened Effects
  import opened SecondCalls
  import opened Ticks

  /** Where the tick stands when an error has just left the calls of its `try` block. */
  predicate Raised(cfg: Config, s: Sys, w: Worker, c: Id, e: Err) {
    if e == LeaseLost || e == ConcurrentUpdate then w !in s.ticks else
    && w in s.ticks && s.ticks[w].exiting && s.ticks[w].cid == c
    && s.ticks[w].stage == Owning(
      if e == PolicyDenied || e == IdempotencyConflict || e == UnknownCommit || e == VerificationRequired
      then Conclude(BLOCKING)
      else if e == AttemptBudgetExceeded then GiveUp("attempt budget exhausted")
      else Conclude(Waiting(cfg)))
  }

  /** The classes that the handlers of the exits catch; the others are SQLite's and the built-in ones. */
  predicate IsAutonomyError(e: Err) {
    e != IntegrityError && e != BadValue
  }

  /** The errors whose exit applies a decision, to block or to wait. */
  predicate Concludes(e: Err) {
    e != LeaseLost && e != ConcurrentUpdate && e != AttemptBudgetExceeded
  }

  /** The tick stands at a stage of its own continuation and has not taken an error exit. */
  predicate Stands(s: Sys, w: Worker, c: Id, stage: Stage) {
    w in s.ticks && s.ticks[w].cid == c && s.ticks[w].stage == stage && !s.ticks[w].exiting
  }

  /** Where a write leaves its tick: over, on its way, or at an error exit. */
  predicate WriteLeaves(cfg: Config, s: Sys, next: Sys, w: Worker, op: Op, o: Outcome)
    requires w in s.ticks && s.ticks[w].stage.Writing?
  {
    && next.db == After(s.db, o) && next.runs == s.runs
    && match o
       case RolledBack(e) => if s.ticks[w].exiting then w !in next.ticks else Raised(cfg, next, w, s.ticks[w].cid, e)
       case Committed(db, reply) =>
         match op
         case Begin(did, d) => w in next.ticks && next.ticks[w] == s.ticks[w].(stage := Armed(did, d))
         case Keep(did, d, _) => w in next.ticks && next.ticks[w] == s.ticks[w].(stage := Reviewing(did, d))
         case Book(d) =>
           && reply.Reservation? && reply.did in db.decs && s.ticks[w].cid in db.conts
           && (if reply.created then
                 && db.decs[reply.did].status == RESERVED && w in next.ticks
                 && next.ticks[w] == s.ticks[w].(stage := Writing(Begin(reply.did, d), db.conts[s.ticks[w].cid]))
               else db.decs[reply.did].status == VERIFIED && w !in next.ticks)
         case _ => w !in next.ticks
  }

  lemma RowStays(cfg: Config, s: Sys, w: Worker, call: Call)
    requires Inv(cfg, s) && w in s.ticks
    ensures s.ticks[w].cid in Performed(s.db, call).conts
  {
    hide Inv, Performed, DbOk, LeaseOk, StageOk, HeldOk, RowLaw;
    TickFacts(cfg, s, w);
    EveryCallObeysTheTable(s.db, call, s.ticks[w].cid);
  }

  lemma CommitGoes(cfg: Config, s: Sys, w: Worker, i: Inputs, op: Op, o: Outcome)
    requires Inv(cfg, s) && w in s.ticks && s.ticks[w].stage.Writing? && s.ticks[w].stage.op == op
    requires o == Perform(s.db, CallFor(cfg, w, s.ticks[w].cid, op, s.ticks[w].stage.seen, i))
    ensures WriteLeaves(cfg, s, Commit(cfg, s, w, i), w, op, o)
  {
    hide Inv, Perform, CallFor, DbOk, LeaseOk, StageOk, HeldOk, Failed, Raised;
    var t := s.ticks[w];
    RowStays(cfg, s, w, CallFor(cfg, w, t.cid, op, t.stage.seen, i));
    match o {
      case RolledBack(e) => FailedGoes(cfg, s, w, e);
      case Committed(_, _) =>
        if op.Book? {
          BookedShape(cfg, s, w, i, o);
          TickFacts(cfg, s, w);
          BookedGoesOn(cfg, s.db, w, t, op.decision, t.stage.seen, i, o);
        }
    }
  }

  lemma FailedGoes(cfg: Config, s: Sys, w: Worker, e: Err)
    requires w in s.ticks
    ensures var next := Failed(cfg, s, w, e);
            && next.db == s.db && next.runs == s.runs
            && (if s.ticks[w].exiting then w !in next.ticks else Raised(cfg, next, w, s.ticks[w].cid, e))
  {
  }

  /** The budget is spent without success, and the tick is about to say so. */
  predicate RunsOut(s: Sys, w: Worker, c: Id) {
    Stands(s, w, c, Owning(GiveUp("execution budget exhausted without PASS evidence")))
  }

  /** At most one more call, of this decision and by this worker; certainly one if all went well. */
  ghost predicate CalledOnce(before: seq<Run>, after: seq<Run>, did: Id, w: Worker, decision: Decision, surely: bool) {
    || (!surely && after == before)
    || (exists since: nat :: after == before + [Run(did, w, since, decision)])
  }

  /** At most one more call, by this worker. */
  ghost predicate MaybeCalled(before: seq<Run>, after: seq<Run>, w: Worker) {
    exists did, decision :: CalledOnce(before, after, did, w, decision, false)
  }

  lemma NobodyCalled(runs: seq<Run>, w: Worker)
    ensures MaybeCalled(runs, runs, w)
  {
    assert CalledOnce(runs, runs, 0, w, BLOCKING, false);
  }

  lemma SomebodyCalled(before: seq<Run>, after: seq<Run>, did: Id, w: Worker, decision: Decision, surely: bool)
    requires CalledOnce(before, after, did, w, decision, surely)
    ensures MaybeCalled(before, after, w)
  {
    assert CalledOnce(before, after, did, w, decision, false);
  }

  lemma NotCalled(runs: seq<Run>, did: Id, w: Worker, decision: Decision)
    ensures CalledOnce(runs, runs, did, w, decision, false)
  {
  }

  class AutonomousRuntime {
    const cfg: Config
    const store: AutonomyStore
    ghost const start: Sys
    ghost var sys: Sys
    ghost var steps: seq<Step>

    /** The tick in flight, or the last one: its worker and answers, the state it began in, the number of its steps so
        far, the number of steps before `run_once`, and whether one of its error exits met what is taken. */
    ghost var who: Worker
    ghost var answers: Answers
    ghost var origin: Sys
    ghost var moves: nat
    ghost var since: nat
    ghost var clash: bool

    /** The store is where the step machine is after the steps taken so far. */
    ghost predicate Valid()
      reads this, store
    {
      && store.Valid() && sys.db == store.Snapshot() && Follows()
    }

    ghost predicate Follows()
      reads this
    {
      Inv(cfg, sys) && sys == Onward(cfg, start, steps) && OnTrack()
    }

    ghost predicate OnTrack()
      reads this
    {
      && sys == Play(cfg, origin, who, answers, moves)
      && Ordinary()
      && (forall n: nat :: n < moves && ClashesAt(cfg, origin, who, answers, n) ==> clash)
      && (clash ==> exists n: nat :: n <= moves && ClashesAt(cfg, origin, who, answers, n))
    }

    /** Nothing died on the way, and nothing was raised that no handler names. */
    ghost predicate Ordinary()
      reads this
    {
      forall i :: since <= i < |steps| ==> !steps[i].Ending? && !steps[i].Faulting?
    }

    /** The tick in flight is of this worker and has these answers. */
    ghost predicate Serves(w: Worker, a: Answers)
      reads this
    {
      w == who && a == answers
    }

    /** A worker joins in any state that a run can be in. */
    constructor (cfg: Config, store: AutonomyStore, ghost sys: Sys)
      requires store.Valid() && Inv(cfg, sys) && sys.db == store.Snapshot()
      ensures Valid() && this.cfg == cfg && this.store == store && this.sys == sys && start == sys && steps == []
    {
      this.cfg, this.store := cfg, store;
      this.start, this.sys, this.steps := sys, sys, [];
      this.origin, this.moves, this.since, this.clash := sys, 0, 0, false;
    }

    /** The step a tick in flight takes next. */
    ghost method Take(step: Step)
      requires Follows() && who in sys.ticks && step == Move(sys, who, answers)
      requires Clashing(sys, who, answers) ==> clash
      modifies this`sys, this`steps, this`moves
      ensures Follows() && sys == Next(cfg, old(sys), step) && steps == old(steps) + [step]
    {
      hide Inv, Next, Clashing, Play;
      NextKeeps(cfg, sys, step);
      OnwardOne(cfg, start, steps, step);
      PlayNext(cfg, origin, who, answers, moves);
      assert Clashing(sys, who, answers) == ClashesAt(cfg, origin, who, answers, moves);
      sys, steps, moves := Next(cfg, sys, step), steps + [step], moves + 1;
    }

    ghost method Start()
      requires Follows()
      modifies this`since
      ensures Follows() && since == |steps|
    {
      hide Inv, Play, ClashesAt;
      since := |steps|;
    }

    /** A step before the tick of the worker begins. */
    ghost method Prepare(w: Worker, a: Answers, step: Step)
      requires Follows() && (step.Recovering? || step.Claiming?)
      modifies this`sys, this`steps, this`who, this`answers, this`origin, this`moves, this`clash
      ensures Follows() && sys == Next(cfg, old(sys), step) && steps == old(steps) + [step]
      ensures Serves(w, a) && origin == sys && !clash
    {
      hide Inv, Next, Clashing, Play;
      NextKeeps(cfg, sys, step);
      OnwardOne(cfg, start, steps, step);
      sys, steps := Next(cfg, sys, step), steps + [step];
      who, answers, origin, moves, clash := w, a, sys, 0, false;
      PlayNothing(cfg, sys, who, answers);
    }

    /** An exit is about to be taken, and may clash. */
    ghost method Mark()
      requires Follows()
      modifies this`clash
      ensures Follows() && clash == (old(clash) || Clashing(sys, who, answers))
    {
      hide Inv, Play;
      assert Clashing(sys, who, answers) == ClashesAt(cfg, origin, who, answers, moves);
      clash := clash || Clashing(sys, who, answers);
    }

    /** `_current_owned`. */
    method CurrentOwned(c: Id, w: Worker, ghost op: Op) returns (current: Option<Continuation>)
      requires Valid() && w in sys.ticks && sys.ticks[w].cid == c && sys.ticks[w].stage == Owning(op)
      requires w == who && (Clashing(sys, w, answers) ==> clash)
      modifies this`sys, this`steps, this`moves
      ensures Valid() && old(steps) <= steps && sys.runs == old(sys).runs && sys.db == old(sys).db
      ensures current.None? ==> w !in sys.ticks
      ensures current == if Owns(store.conts, c, w) then Some(store.conts[c]) else None
      ensures current.Some? ==>
        && w in sys.ticks && sys.ticks[w] == old(sys).ticks[w].(stage := Writing(op, current.value))
        && current.value.token.Some?
    {
      hide OnTrack, Inv;
      Take(Rereading(w));
      if c !in store.conts { return None; }
      var row := store.conts[c];
      if row.owner != Some(w) || row.token.None? { return None; }
      return Some(row);
    }

    /** `heartbeat.refresh()`. */
    method Refresh(c: Id, w: Worker, row: Continuation, lease: int, now: Time) returns (ok: bool)
      requires Valid() && w in sys.ticks && sys.ticks[w].cid == c && sys.ticks[w].row == row
      requires Refreshed(sys.ticks[w].stage).Some?
      requires w == who && lease == answers.lease && now == answers.now
      modifies this`sys, this`steps, this`moves, store
      ensures Valid() && old(steps) <= steps && sys.runs == old(sys).runs
      ensures if ok then w in sys.ticks
              && sys.ticks[w] == old(sys).ticks[w].(stage := Refreshed(old(sys).ticks[w].stage).value)
              else w !in sys.ticks
    {
      hide OnTrack, Inv, Renew;
      Take(Refreshing(w, lease, now));
      var r := store.RenewLease(c, w, TokenOf(row), lease, false, now);
      return r.Success?;
    }
  
    /** The machine makes the write that the store has just made. */
    ghost method Commit(w: Worker, op: Op, i: Inputs, o: Outcome)
      requires Follows() && store.Valid() && w in sys.ticks && sys.ticks[w].stage.Writing?
               && sys.ticks[w].stage.op == op
      requires o == Perform(sys.db, CallFor(cfg, w, sys.ticks[w].cid, op, sys.ticks[w].stage.seen, i))
      requires store.Snapshot() == After(sys.db, o)
      requires w == who && i == (if sys.ticks[w].exiting then answers.exit else answers.inputs)
      modifies this`sys, this`steps, this`moves
      ensures Valid() && WriteLeaves(cfg, old(sys), sys, w, op, o) && old(steps) <= steps
    {
      hide OnTrack, Inv, Runtime.Commit, Perform, CallFor;
      CommitGoes(cfg, sys, w, i, op, o);
      assert WriteLeaves(cfg, sys, Runtime.Commit(cfg, sys, w, i), w, op, o);
      Take(Committing(w, i));
    }

    /** `_settle`. */
    method SettleVerdict(c: Id, w: Worker, current: Continuation, did: Id, decision: Decision, v: Verification,
                         i: Inputs)
      returns (r: Result<(), Err>)
      requires Valid() && Stands(sys, w, c, Writing(Judge(did, decision, v), current))
      requires w == who && i == answers.inputs
      modifies this`sys, this`steps, this`moves, store
      ensures Valid() && old(steps) <= steps && sys.runs == old(sys).runs
      ensures r.Success? ==> w !in sys.ticks
      ensures r.Failure? ==> Raised(cfg, sys, w, c, r.error)
    {
      hide OnTrack, Inv, Perform, Settle, Raised;
      var settled := Settle(cfg, current, decision, v, i.now);
      SettlementMeans(cfg, current, decision, v, i.now);
      ghost var o := RecordVerdict(sys.db, did, w, TokenOf(current), current.version, v, settled.to, settled.wake,
                                   settled.lastError, i.eid, i.now);
      JudgeCall(cfg, sys.db, w, c, did, decision, v, current, i);
      var reply := store.RecordVerdict(did, w, TokenOf(current), current.version, v, settled.to, settled.wake,
                                       settled.lastError, i.eid, i.now);
      Commit(w, Judge(did, decision, v), i, o);
      return if reply.Failure? then Failure(reply.error) else Success(());
    }

    /** `_verify_pending`. */
    method VerifyPending(c: Id, w: Worker, row: Continuation, did: Id, decision: Decision, a: Answers)
      returns (r: Result<(), Err>)
      requires Valid() && Stands(sys, w, c, Reviewing(did, decision)) && sys.ticks[w].row == row
      requires Serves(w, a)
      modifies this`sys, this`steps, this`moves, store
      ensures Valid() && old(steps) <= steps && sys.runs == old(sys).runs
      ensures r.Success? ==> w !in sys.ticks
      ensures r.Failure? ==> Raised(cfg, sys, w, c, r.error)
    {
      hide OnTrack, Inv, Settle, Perform, LookUp, Plan, Budget, Runtime.Commit, Reread, Runtime.Refresh, Claim,
           Performed, Sound, Onward, InternalError;
      var ok := Refresh(c, w, row, a.lease, a.now);
      if !ok { return Failure(LeaseLost); }
      Take(Assessing(w, a.verification));
      ok := Refresh(c, w, row, a.lease, a.now);
      if !ok { return Failure(LeaseLost); }
      var current := CurrentOwned(c, w, Judge(did, decision, a.verification));
      if current.None? { return Failure(LeaseLost); }
      r := SettleVerdict(c, w, current.value, did, decision, a.verification, a.inputs);
    }

    /** `_execute_pending`: the start is marked if need be, and the capability called. */
    method ExecutePending(c: Id, w: Worker, row: Continuation, current: Continuation, did: Id, decision: Decision,
                          markStarted: bool, a: Answers) returns (r: Result<(), Err>)
      requires Valid() && w in sys.ticks && sys.ticks[w].row == row
      requires Stands(sys, w, c, if markStarted then Writing(Begin(did, decision), current) else Armed(did, decision))
      requires Serves(w, a)
      modifies this`sys, this`steps, this`moves, store
      ensures Valid() && old(steps) <= steps
      ensures r.Success? ==> w !in sys.ticks
      ensures r.Failure? ==> Raised(cfg, sys, w, c, r.error)
      ensures CalledOnce(old(sys).runs, sys.runs, did, w, decision, r.Success?)
    {
      hide OnTrack, Inv, Settle, Perform, MarkStarted, CalledOnce, LookUp, Plan, Budget, Runtime.Commit,
           Reread, Runtime.Refresh, Claim, Performed, Sound, Onward, InternalError;
      if markStarted {
        ghost var o := MarkStarted(sys.db, did, w, TokenOf(current), current.version, a.inputs.now);
        CallsAre(cfg, sys.db, w, c, did, decision, a.result, current, a.inputs);
        var started := store.MarkExecutionStarted(did, w, TokenOf(current), current.version, a.inputs.now);
        Commit(w, Begin(did, decision), a.inputs, o);
        if started.Failure? {
          NotCalled(sys.runs, did, w, decision);
          return Failure(started.error);
        }
      }
      r := CallCapability(c, w, row, did, decision, a);
    }

    /** The capability is called once, between two renewals, and its result is stored under the lease. */
    method CallCapability(c: Id, w: Worker, row: Continuation, did: Id, decision: Decision, a: Answers)
      returns (r: Result<(), Err>)
      requires Valid() && w in sys.ticks && sys.ticks[w].row == row && Stands(sys, w, c, Armed(did, decision))
      requires Serves(w, a)
      modifies this`sys, this`steps, this`moves, store
      ensures Valid() && old(steps) <= steps
      ensures r.Success? ==> w !in sys.ticks
      ensures r.Failure? ==> Raised(cfg, sys, w, c, r.error)
      ensures CalledOnce(old(sys).runs, sys.runs, did, w, decision, r.Success?)
    {
      hide OnTrack, Inv, Settle, Perform, RecordExecution, LookUp, Plan, Budget, Runtime.Commit, Reread,
           Runtime.Refresh, Claim, Performed, Sound, Onward, InternalError;
      var ok := Refresh(c, w, row, a.lease, a.now);
      if !ok { return Failure(LeaseLost); }
      Take(Executing(w, a.result));
      ok := Refresh(c, w, row, a.lease, a.now);
      if !ok { return Failure(LeaseLost); }
      r := StoreResult(c, w, row, did, decision, a);
    }

    method StoreResult(c: Id, w: Worker, row: Continuation, did: Id, decision: Decision, a: Answers)
      returns (r: Result<(), Err>)
      requires Valid() && w in sys.ticks && sys.ticks[w].row == row
               && Stands(sys, w, c, Owning(Keep(did, decision, a.result)))
      requires Serves(w, a)
      modifies this`sys, this`steps, this`moves, store
      ensures Valid() && old(steps) <= steps && sys.runs == old(sys).runs
      ensures r.Success? ==> w !in sys.ticks
      ensures r.Failure? ==> Raised(cfg, sys, w, c, r.error)
    {
      hide OnTrack, Inv, Settle, Perform, RecordExecution, LookUp, Plan, Budget, Runtime.Commit, Reread,
           Runtime.Refresh, Claim, Performed, Sound, Onward, InternalError;
      var seen := CurrentOwned(c, w, Keep(did, decision, a.result));
      if seen.None? { return Failure(LeaseLost); }
      ghost var o := RecordExecution(sys.db, did, w, TokenOf(seen.value), seen.value.version, a.result, a.inputs.now);
      CallsAre(cfg, sys.db, w, c, did, decision, a.result, seen.value, a.inputs);
      var kept := store.RecordExecution(did, w, TokenOf(seen.value), seen.value.version, a.result, a.inputs.now);
      Commit(w, Keep(did, decision, a.result), a.inputs, o);
      if kept.Failure? { return Failure(kept.error); }
      r := VerifyPending(c, w, row, did, decision, a);
    }

    /** `apply_decision`. */
    method ApplyDecision(c: Id, w: Worker, row: Continuation, decision: Decision, a: Answers) returns (r: Result<(),
                         Err>)
      requires Valid() && Stands(sys, w, c, Planning) && sys.ticks[w].row == row
      requires Serves(w, a) && a.planned == Success(decision)
      modifies this`sys, this`steps, this`moves, store
      ensures Valid() && old(steps) <= steps
      ensures r.Success? ==> w !in sys.ticks
      ensures r.Failure? ==> Raised(cfg, sys, w, c, r.error)
      ensures MaybeCalled(old(sys).runs, sys.runs, w)
    {
      hide OnTrack, Inv, Perform, Normalized, Authorize, Binding, MaybeCalled, LookUp, Plan, Budget,
           Runtime.Commit, Reread, Runtime.Refresh, Claim, Performed, Sound, Onward, InternalError;
      PlanGoes(cfg, sys, w, decision);
      NobodyCalled(sys.runs, w);
      Take(Planned(w, decision));
      var cleaned := Normalized(decision);
      if cleaned.Failure? { return Failure(BadValue); }
      var item := cleaned.value;
      if item.kind != Enum(EXECUTE) {
        var current := CurrentOwned(c, w, Conclude(item));
        if current.None? { return Failure(LeaseLost); }
        r := Finish(c, w, item, current.value, a.inputs);
        return;
      }
      var capability := Binding(cfg.registry, item);
      if capability.None? { return Failure(PolicyDenied); }
      var authorization := Authorize(cfg.policy, item, capability);
      if authorization.Failure? { return Failure(BadValue); }
      if !authorization.value.Allowed() { return Failure(PolicyDenied); }
      r := ReserveAndExecute(c, w, row, item, a);
    }

    method ReserveAndExecute(c: Id, w: Worker, row: Continuation, item: Decision, a: Answers) returns (r: Result<(),
                             Err>)
      requires Valid() && w in sys.ticks && sys.ticks[w].row == row && Stands(sys, w, c, Owning(Book(item)))
      requires Serves(w, a)
      modifies this`sys, this`steps, this`moves, store
      ensures Valid() && old(steps) <= steps
      ensures r.Success? ==> w !in sys.ticks
      ensures r.Failure? ==> Raised(cfg, sys, w, c, r.error)
      ensures MaybeCalled(old(sys).runs, sys.runs, w)
    {
      hide OnTrack, Inv, Perform, Reserve, CalledOnce, MaybeCalled, LookUp, Plan, Budget, Runtime.Commit,
           Reread, Runtime.Refresh, Claim, Performed, Sound, Onward, InternalError;
      NobodyCalled(sys.runs, w);
      var current := CurrentOwned(c, w, Book(item));
      if current.None? { return Failure(LeaseLost); }
      var seen := current.value;
      ghost var o := Reserve(sys.db, c, w, TokenOf(seen), seen.version, item, a.inputs.digest, a.inputs.did, a.inputs.now);
      BookCall(cfg, sys.db, w, c, item, seen, a.inputs);
      var reply := store.ReserveDecision(c, w, TokenOf(seen), seen.version, item, a.inputs.digest, a.inputs.did,
                                         a.inputs.now);
      Commit(w, Book(item), a.inputs, o);
      if reply.Failure? { return Failure(reply.error); }
      var did, created := reply.value.did, reply.value.created;
      if !created && store.decs[did].status == VERIFIED { return Success(()); }
      r := ExecutePending(c, w, row, store.conts[c], did, item, store.decs[did].status == RESERVED, a);
      SomebodyCalled(old(sys).runs, sys.runs, did, w, item, r.Success?);
    }

    /** The write that every ending other than a verdict comes down to. */
    method Finish(c: Id, w: Worker, item: Decision, current: Continuation, i: Inputs) returns (r: Result<(), Err>)
      requires Valid() && w in sys.ticks && sys.ticks[w].cid == c
               && sys.ticks[w].stage == Writing(Conclude(item), current)
      requires w == who && i == (if sys.ticks[w].exiting then answers.exit else answers.inputs)
      modifies this`sys, this`steps, this`moves, store
      ensures Valid() && old(steps) <= steps && sys.runs == old(sys).runs
      ensures r.Success? || old(sys).ticks[w].exiting ==> w !in sys.ticks
      ensures r.Failure? && !old(sys).ticks[w].exiting ==> Raised(cfg, sys, w, c, r.error)
      ensures var o := ApplyPlain(old(sys).db, c, w, TokenOf(current), current.version, item, i.did, i.didText, i.now);
              sys.db == After(old(sys).db, o) && (if o.RolledBack? then r == Failure(o.err) else r.Success?)
    {
      hide OnTrack, Inv, Perform, Raised, ApplyPlain, LookUp, Plan, Budget, Runtime.Commit, Reread,
           Runtime.Refresh, Claim, Performed, Sound, Onward, InternalError;
      ghost var o := ApplyPlain(sys.db, c, w, TokenOf(current), current.version, item, i.did, i.didText, i.now);
      PlainCall(cfg, sys.db, w, c, item, current, i);
      var reply := store.ApplyNonExecution(c, w, TokenOf(current), current.version, item, i.did, i.didText, i.now);
      Commit(w, Conclude(item), i, o);
      return if reply.Failure? then Failure(reply.error) else Success(());
    }

    /** `mark_exhausted`, as `run_once` and `_exhaust_after_error` call it. */
    method Exhaust(c: Id, w: Worker, current: Continuation, reason: string, i: Inputs) returns (r: Result<(), Err>)
      requires Valid() && w in sys.ticks && sys.ticks[w].cid == c
               && sys.ticks[w].stage == Writing(GiveUp(reason), current)
      requires w == who && i == (if sys.ticks[w].exiting then answers.exit else answers.inputs)
      modifies this`sys, this`steps, this`moves, store
      ensures Valid() && old(steps) <= steps && sys.runs == old(sys).runs
      ensures r.Success? || old(sys).ticks[w].exiting ==> w !in sys.ticks
      ensures r.Failure? && !old(sys).ticks[w].exiting ==> Raised(cfg, sys, w, c, r.error)
      ensures var o := MarkExhausted(old(sys).db, c, w, TokenOf(current), current.version, reason, i.now);
              if o.RolledBack? then r == Failure(o.err) else r.Success?
    {
      hide OnTrack, Inv, Perform, Raised, MarkExhausted, LookUp, Plan, Budget, Runtime.Commit, Reread,
           Runtime.Refresh, Claim, Performed, Sound, Onward, InternalError;
      ghost var o := MarkExhausted(sys.db, c, w, TokenOf(current), current.version, reason, i.now);
      GiveUpCall(cfg, sys.db, w, c, reason, current, i);
      var reply := store.MarkExhausted(c, w, TokenOf(current), current.version, reason, i.now);
      Commit(w, GiveUp(reason), i, o);
      return if reply.Failure? then Failure(reply.error) else Success(());
    }

    /** `_resume_pending`. */
    method ResumePending(c: Id, w: Worker, row: Continuation, d: Id, a: Answers) returns (r: Result<(), Err>)
      requires Valid() && Stands(sys, w, c, Looking) && sys.ticks[w].row == row
      requires LatestPending(store.decs, c) == Some(d)
      requires Serves(w, a)
      modifies this`sys, this`steps, this`moves, store
      ensures Valid() && old(steps) <= steps
      ensures r.Success? ==> w !in sys.ticks
      ensures r.Failure? ==> Raised(cfg, sys, w, c, r.error)
      ensures MaybeCalled(old(sys).runs, sys.runs, w)
    {
      hide OnTrack, Inv, FromDict, Binding, CalledOnce, MaybeCalled, LatestPending, LookUp, Plan, Budget,
           Runtime.Commit, Reread, Runtime.Refresh, Claim, Performed, Sound, Onward, InternalError;
      NobodyCalled(sys.runs, w);
      LookUpGoes(cfg, sys, w, d);
      Take(LookingUp(w));
      var pending := store.decs[d];
      var parsed := FromDict(pending.payload);
      if parsed.Failure? { return Failure(BadValue); }
      var decision := parsed.value;
      var capability := Binding(cfg.registry, decision);
      if capability.None? { return Failure(PolicyDenied); }
      if pending.status == EXECUTED {
        r := VerifyPending(c, w, row, d, decision, a);
      } else {
        if pending.recovery && !capability.value.replaySafe { return Failure(UnknownCommit); }
        r := ExecutePending(c, w, row, row, d, decision, pending.status == RESERVED, a);
        SomebodyCalled(old(sys).runs, sys.runs, d, w, decision, r.Success?);
      }
    }

    /** The `try` block of `run_once`. */
    method Attempt(c: Id, w: Worker, row: Continuation, a: Answers) returns (r: Result<(), Err>)
      requires Valid() && Stands(sys, w, c, Entering) && sys.ticks[w].row == row
      requires Serves(w, a)
      modifies this`sys, this`steps, this`moves, store
      ensures Valid() && old(steps) <= steps
      ensures r.Success? ==> w !in sys.ticks
      ensures r.Failure? ==> Raised(cfg, sys, w, c, r.error)
      ensures MaybeCalled(old(sys).runs, sys.runs, w)
    {
      hide OnTrack, Inv, CalledOnce, MaybeCalled, LatestPending, LatestEvidence, LookUp, Plan, Budget,
           Runtime.Commit, Reread, Runtime.Refresh, Claim, Performed, Sound, Onward, InternalError;
      NobodyCalled(sys.runs, w);
      var ok := Refresh(c, w, row, a.lease, a.now);
      if !ok { return Failure(LeaseLost); }
      var pending := store.PendingDecision(c);
      if pending.Some? {
        r := ResumePending(c, w, row, pending.value, a);
        return;
      }
      r := AskPlanner(c, w, row, a);
    }

    /** Nothing is pending: unless the budget is spent without success, the planner is asked. */
    method AskPlanner(c: Id, w: Worker, row: Continuation, a: Answers) returns (r: Result<(), Err>)
      requires Valid() && Stands(sys, w, c, Looking) && sys.ticks[w].row == row && LatestPending(store.decs, c) == None
      requires Serves(w, a)
      modifies this`sys, this`steps, this`moves, store
      ensures Valid() && old(steps) <= steps
      ensures r.Success? ==> w !in sys.ticks
      ensures r.Failure? ==> Raised(cfg, sys, w, c, r.error)
      ensures MaybeCalled(old(sys).runs, sys.runs, w)
    {
      hide OnTrack, RunsOut, Raised, Next, Inv, CalledOnce, MaybeCalled, LatestPending, LatestEvidence, LookUp,
           Plan, Budget, Runtime.Commit, Reread, Runtime.Refresh, Claim, Performed, Sound, Onward, InternalError;
      NobodyCalled(sys.runs, w);
      NothingPending(cfg, sys, w);
      Take(LookingUp(w));
      if row.attempts >= row.maxAttempts {
        var spent := BudgetIsSpent(c, w);
        if spent {
          r := RunOut(c, w, a.inputs);
          return;
        }
      }
      r := Ask(c, w, row, a);
    }

    /** With no attempts left, the newest evidence decides whether the planner may speak. */
    method BudgetIsSpent(c: Id, w: Worker) returns (spent: bool)
      requires Valid() && Stands(sys, w, c, Budgeting) && w == who
      modifies this`sys, this`steps, this`moves
      ensures Valid() && old(steps) <= steps && sys.runs == old(sys).runs && sys.db == old(sys).db
      ensures if spent then RunsOut(sys, w, c)
              else w in sys.ticks && sys.ticks[w] == old(sys).ticks[w].(stage := Planning)
    {
      hide OnTrack, RunsOut, Next, Inv, LatestEvidence, Budget, Onward, Sound;
      var latest := store.NewestEvidence(c);
      BudgetGoes(cfg, sys, w);
      Take(Budgeted(w));
      return latest.None? || store.evid[latest.value].verification.verdict != PASS;
    }

    /** The planner answers, or raises. */
    method Ask(c: Id, w: Worker, row: Continuation, a: Answers) returns (r: Result<(), Err>)
      requires Valid() && Stands(sys, w, c, Planning) && sys.ticks[w].row == row
      requires Serves(w, a)
      modifies this`sys, this`steps, this`moves, store
      ensures Valid() && old(steps) <= steps
      ensures r.Success? ==> w !in sys.ticks
      ensures r.Failure? ==> Raised(cfg, sys, w, c, r.error)
      ensures MaybeCalled(old(sys).runs, sys.runs, w)
    {
      hide OnTrack, Raised, Next, Inv, CalledOnce, MaybeCalled, LookUp, Plan, Budget, Runtime.Commit, Reread,
           Runtime.Refresh, Claim, Performed, Sound, Onward, InternalError;
      NobodyCalled(sys.runs, w);
      if a.planned.Failure? {
        RaiseGoes(cfg, sys, w, a.planned.error);
        Take(PlannerRaised(w, a.planned.error));
        return Failure(a.planned.error);
      }
      r := ApplyDecision(c, w, row, a.planned.value, a);
    }

    method RunOut(c: Id, w: Worker, i: Inputs) returns (r: Result<(), Err>)
      requires Valid() && RunsOut(sys, w, c)
      requires w == who && i == answers.inputs
      modifies this`sys, this`steps, this`moves, store
      ensures Valid() && old(steps) <= steps && sys.runs == old(sys).runs
      ensures r.Success? ==> w !in sys.ticks
      ensures r.Failure? ==> Raised(cfg, sys, w, c, r.error)
    {
      hide OnTrack, Inv, LookUp, Plan, Budget, Runtime.Commit, Reread, Runtime.Refresh, Claim, Performed,
           Sound, Onward, InternalError;
      var reason := "execution budget exhausted without PASS evidence";
      var current := CurrentOwned(c, w, GiveUp(reason));
      if current.None? { return Failure(LeaseLost); }
      r := Exhaust(c, w, current.value, reason, i);
    }

    /** `_block_after_error` and `_wait_after_internal_error`: an error of the write that is no `AutonomyError` leaves
        the exit. That is the integrity error of an id or a key that is taken, and nothing else. */
    method ConcludeExit(c: Id, w: Worker, item: Decision, i: Inputs) returns (escaped: Option<Err>)
      requires Valid() && w in sys.ticks && sys.ticks[w].cid == c && sys.ticks[w].exiting
      requires sys.ticks[w].stage == Owning(Conclude(item)) && (item == BLOCKING || item == Waiting(cfg))
      requires w == who && i == answers.exit && !clash
      modifies this`sys, this`steps, this`moves, this`clash, store
      ensures Valid() && old(steps) <= steps && sys.runs == old(sys).runs && w !in sys.ticks
      ensures escaped == if ExitClashes(old(sys).db, c, w, i) then Some(IntegrityError) else None
      ensures clash <==> escaped.Some?
      ensures escaped.Some? ==> sys.db == old(sys).db
    {
      hide OnTrack, Inv, ApplyPlain, LookUp, Plan, Budget, Runtime.Commit, Reread, Runtime.Refresh, Claim,
           Performed, Sound, Onward, InternalError, Next;
      ExitEnds(cfg, sys.db, c, w, item, i);
      Mark();
      var current := CurrentOwned(c, w, Conclude(item));
      if current.None? { return None; }
      var r := Finish(c, w, item, current.value, i);
      return if r.Failure? && !IsAutonomyError(r.error) then Some(r.error) else None;
    }

    /** The error exits of `run_once`, by the error that was raised; the result is the error that leaves the exit. */
    method TakeExit(c: Id, w: Worker, e: Err, i: Inputs) returns (escaped: Option<Err>)
      requires Valid() && Raised(cfg, sys, w, c, e)
      requires w == who && i == answers.exit && !clash
      modifies this`sys, this`steps, this`moves, this`clash, store
      ensures Valid() && old(steps) <= steps && sys.runs == old(sys).runs && w !in sys.ticks
      ensures escaped == if Concludes(e) && ExitClashes(old(sys).db, c, w, i) then Some(IntegrityError) else None
      ensures clash <==> escaped.Some?
      ensures escaped.Some? ==> sys.db == old(sys).db
    {
      hide OnTrack, Inv, LookUp, Plan, Budget, Runtime.Commit, Reread, Runtime.Refresh, Claim, Performed,
           Sound, Onward, InternalError, ExitClashes, MarkExhausted, Next;
      if e == LeaseLost || e == ConcurrentUpdate { return None; }
      if e == AttemptBudgetExceeded {
        var reason := "attempt budget exhausted";
        var current := CurrentOwned(c, w, GiveUp(reason));
        if current.None? { return None; }
        GivingUpIsCaught(sys.db, c, w, TokenOf(current.value), current.value.version, reason, i.now);
        var r := Exhaust(c, w, current.value, reason, i);
        assert r.Failure? ==> IsAutonomyError(r.error);
        return None;
      }
      var item := if e == PolicyDenied || e == IdempotencyConflict || e == UnknownCommit || e == VerificationRequired
                  then BLOCKING else Waiting(cfg);
      escaped := ConcludeExit(c, w, item, i);
    }

    /** `run_once`: expired leases are recovered; then the first row that is due, and none only if none is, is claimed
        and its tick is played to the end. It raises for a blank worker, and when an error exit meets an id or a key
        that is taken, and for nothing else. A capability is called at most once. */
    method RunOnce(w: Worker, token: Token, a: Answers) returns (claimed: Result<Option<Id>, Err>)
      requires Valid() && w !in sys.ticks && token !in sys.issued
      modifies this, store
      ensures Valid() && w !in sys.ticks && MaybeCalled(old(sys).runs, sys.runs, w)
      ensures old(steps) <= steps
      ensures forall i :: |old(steps)| <= i < |steps| ==> !steps[i].Ending? && !steps[i].Faulting?
      ensures var db := Recover(old(store.Snapshot()), cfg.retryBase, a.now);
              && (claimed == Failure(BadValue) <==> Text.Blank(w))
              && (claimed == Success(None) <==> !Text.Blank(w) && forall c :: c in db.conts ==> !Due(db.conts[c], a.now))
              && (claimed == Failure(BadValue) || claimed == Success(None) ==>
                    store.Snapshot() == db && sys == old(sys).(db := db))
              && (claimed == Failure(BadValue) || claimed == Success(None)
                  || exists begun: Sys, c :: Begins(old(sys), db, w, token, a, c, begun)
                                          && Played(cfg, begun, w, a, c, sys, claimed))
      ensures claimed == Failure(IntegrityError) ==>
        a.exit.did in store.decs || exists o :: HoldsKey(store.decs, a.exit.didText, o)
    {
      hide OnTrack, Inv, Recover, CalledOnce, MaybeCalled, Sound, Onward, Concludes, Begins, Played, Play, FirstDue;
      NobodyCalled(sys.runs, w);
      var found := ClaimNext(w, token, a);
      if found.Failure? { return Failure(found.error); }
      if found.value.None? { return Success(None); }
      claimed := RunClaimed(found.value.value, w, a);
    }

    /** Recovery, and the claim of the first row that is due. */
    method ClaimNext(w: Worker, token: Token, a: Answers) returns (found: Result<Option<Id>, Err>)
      requires Valid() && w !in sys.ticks && token !in sys.issued
      modifies this, store
      ensures Valid() && Serves(w, a) && sys == origin && !clash && since == |old(steps)|
      ensures old(steps) <= steps && Ordinary() && sys.runs == old(sys).runs
      ensures var db := Recover(old(store.Snapshot()), cfg.retryBase, a.now);
              && (found == Failure(BadValue) <==> Text.Blank(w)) && (found.Failure? ==> found.error == BadValue)
              && (found == Success(None) <==> !Text.Blank(w) && forall c :: c in db.conts ==> !Due(db.conts[c], a.now))
              && (found.Failure? || found.value.None? ==> store.Snapshot() == db && sys == old(sys).(db := db))
              && (found.Success? && found.value.Some? ==>
                    var c := found.value.value;
                    && Begins(old(sys), db, w, token, a, c, sys)
                    && c in store.conts && Stands(sys, w, c, Entering) && sys.ticks[w].row == store.conts[c])
    {
      hide OnTrack, Inv, Recover, Claim, Sound, Onward, Begins, Play;
      Start();
      var recovered := store.RecoverExpiredLeases(cfg.retryBase, a.now);
      Prepare(w, a, Recovering(cfg.retryBase, a.now));
      ghost var idle := sys;
      found := store.ClaimDue(w, token, a.lease, a.now);
      if found.Success? && found.value.Some? {
        var c := found.value.value;
        ClaimGoes(cfg, sys, w, c, token, a.lease, a.now);
        Prepare(w, a, Claiming(w, c, token, a.lease, a.now));
        ClaimBegins(cfg, old(sys), idle, w, token, a, c);
      }
    }

    /** The tick of a row just claimed, with its error exit. */
    method RunClaimed(c: Id, w: Worker, a: Answers) returns (claimed: Result<Option<Id>, Err>)
      requires Valid() && Serves(w, a) && Stands(sys, w, c, Entering)
      requires c in store.conts && sys.ticks[w].row == store.conts[c] && sys == origin && !clash
      modifies this`sys, this`steps, this`moves, this`clash, store
      ensures Valid() && old(steps) <= steps && w !in sys.ticks && Ordinary()
      ensures MaybeCalled(old(sys).runs, sys.runs, w) && Played(cfg, old(sys), w, a, c, sys, claimed)
      ensures claimed == Success(Some(c)) || claimed == Failure(IntegrityError)
      ensures claimed.Failure? ==> a.exit.did in store.decs || exists o :: HoldsKey(store.decs, a.exit.didText, o)
    {
      hide OnTrack, Inv, CalledOnce, MaybeCalled, LookUp, Plan, Budget, Runtime.Commit, Reread,
           Runtime.Refresh, Claim, Sound, Onward, InternalError, Raised, Concludes, Played, Play, Clashing,
           Ordinary;
      var row := store.conts[c];
      var r := Attempt(c, w, row, a);
      claimed := Success(Some(c));
      if r.Failure? {
        var escaped := TakeExit(c, w, r.error, a.exit);
        if escaped.Some? { claimed := Failure(escaped.value); }
      }
      PlayedOut(claimed, c);
    }

    /** With the tick over, the marks tell whether one of its exits clashed. */
    ghost method PlayedOut(claimed: Result<Option<Id>, Err>, c: Id)
      requires Follows() && who !in sys.ticks
      requires claimed == if clash then Failure(IntegrityError) else Success(Some(c))
      ensures Played(cfg, origin, who, answers, c, sys, claimed) && Ordinary()
    {
      hide Inv, Play, Clashing;
      forall n: nat | n >= moves ensures !ClashesAt(cfg, origin, who, answers, n) {
        OverForGood(cfg, origin, who, answers, moves, n);
      }
    }
  }

  lemma ClaimBegins(cfg: Config, before: Sys, s: Sys, w: Worker, token: Token, a: Answers, c: Id)
    requires w !in s.ticks && token !in s.issued && FirstDue(s.db.conts, a.now, c) && s == before.(db := s.db)
    requires Claim(s.db, c, w, token, a.lease, a.now).Committed?
    ensures Begins(before, s.db, w, token, a, c, Next(cfg, s, Claiming(w, c, token, a.lease, a.now)))
    ensures Due(s.db.conts[c], a.now)
  {
    ClaimEffect(s.db, c, w, token, a.lease, a.now);
  }

  /** What an exit writes is refused with an error that is no `AutonomyError` exactly when it clashes. */
  lemma ExitEnds(cfg: Config, db: Db, c: Id, w: Worker, item: Decision, i: Inputs)
    requires item == BLOCKING || item == Waiting(cfg)
    ensures Owns(db.conts, c, w) ==>
      var o := ApplyPlain(db, c, w, TokenOf(db.conts[c]), db.conts[c].version, item, i.did, i.didText, i.now);
      if ExitClashes(db, c, w, i) then o == RolledBack(IntegrityError) else o.RolledBack? ==> IsAutonomyError(o.err)
    ensures ExitClashes(db, c, w, i) ==> Owns(db.conts, c, w)
  {
    hide Normalized, AsDict;
    WaitIsClean(cfg);
    BlockIsClean();
  }

  lemma GivingUpIsCaught(db: Db, c: Id, w: Worker, t: Token, v: nat, reason: string, now: Time)
    ensures var o := MarkExhausted(db, c, w, t, v, reason, now); o.RolledBack? ==> IsAutonomyError(o.err)
  {
  }

  lemma GiveUpCall(cfg: Config, db: Db, w: Worker, c: Id, reason: string, seen: Continuation, i: Inputs)
    ensures Perform(db, CallFor(cfg, w, c, GiveUp(reason), seen, i))
         == MarkExhausted(db, c, w, TokenOf(seen), seen.version, reason, i.now)
  {
    hide MarkExhausted;
  }

  lemma LookUpGoes(cfg: Config, s: Sys, w: Worker, d: Id)
    requires w in s.ticks && !s.ticks[w].exiting && LatestPending(s.db.decs, s.ticks[w].cid) == Some(d)
    ensures d in s.db.decs && s.db.decs[d].status.Pending()
    ensures var next, t, row := LookUp(cfg, s, w), s.ticks[w], s.db.decs[d];
            && next.db == s.db && next.runs == s.runs
            && match FromDict(row.payload)
               case Failure(_) => Raised(cfg, next, w, t.cid, BadValue)
               case Success(decision) =>
                 var capability := Binding(cfg.registry, decision);
                 if capability.None? then Raised(cfg, next, w, t.cid, PolicyDenied)
                 else if row.status == EXECUTED then w in next.ticks && next.ticks[w] == t.(stage := Reviewing(d, decision))
                 else if row.recovery && !capability.value.replaySafe then Raised(cfg, next, w, t.cid, UnknownCommit)
                 else w in next.ticks && next.ticks[w] == t.(stage :=
                   if row.status == RESERVED then Writing(Begin(d, decision), t.row) else Armed(d, decision))
  {
    hide FromDict, Binding;
    assert d in PendingIds(s.db.decs, s.ticks[w].cid);
  }

  lemma NothingPending(cfg: Config, s: Sys, w: Worker)
    requires w in s.ticks && s.ticks[w].stage.Looking? && LatestPending(s.db.decs, s.ticks[w].cid) == None
    ensures Next(cfg, s, LookingUp(w))
         == WithStage(s, w, if s.ticks[w].row.attempts >= s.ticks[w].row.maxAttempts then Budgeting else Planning)
  {
  }

  lemma NewestExists(evid: map<Id, EvidenceRow>, c: Id)
    ensures LatestEvidence(evid, c).Some? ==> LatestEvidence(evid, c).value in evid
  {
    if LatestEvidence(evid, c).Some? { assert LatestEvidence(evid, c).value in EvidenceIds(evid, c); }
  }

  lemma BudgetGoes(cfg: Config, s: Sys, w: Worker)
    requires w in s.ticks && s.ticks[w].stage.Budgeting? && !s.ticks[w].exiting
    ensures var e, next, t := LatestEvidence(s.db.evid, s.ticks[w].cid), Next(cfg, s, Budgeted(w)), s.ticks[w];
            && next.db == s.db && next.runs == s.runs
            && (e.Some? ==> e.value in s.db.evid)
            && (if e.None? || s.db.evid[e.value].verification.verdict != PASS then RunsOut(next, w, t.cid)
                else w in next.ticks && next.ticks[w] == t.(stage := Planning))
  {
    NewestExists(s.db.evid, s.ticks[w].cid);
  }

  lemma RaiseGoes(cfg: Config, s: Sys, w: Worker, e: Err)
    requires w in s.ticks && s.ticks[w].stage.Planning? && !s.ticks[w].exiting
    ensures var next := Next(cfg, s, PlannerRaised(w, e));
            next.db == s.db && next.runs == s.runs && Raised(cfg, next, w, s.ticks[w].cid, e)
  {
  }

  lemma ClaimGoes(cfg: Config, s: Sys, w: Worker, c: Id, token: Token, lease: int, now: Time)
    requires w !in s.ticks && token !in s.issued && Claim(s.db, c, w, token, lease, now).Committed?
    ensures var next := Next(cfg, s, Claiming(w, c, token, lease, now));
            && Claim(s.db, c, w, token, lease, now) == Committed(next.db, Plain) && next.runs == s.runs
            && c in next.db.conts && Stands(next, w, c, Entering) && next.ticks[w].row == next.db.conts[c]
  {
  }

  lemma PlanGoes(cfg: Config, s: Sys, w: Worker, decision: Decision)
    requires w in s.ticks && !s.ticks[w].exiting
    ensures var next, t := Plan(cfg, s, w, decision), s.ticks[w];
            && next.db == s.db && next.runs == s.runs
            && match Normalized(decision)
               case Failure(_) => Raised(cfg, next, w, t.cid, BadValue)
               case Success(item) =>
                 if item.kind != Enum(EXECUTE) then w in next.ticks && next.ticks[w] == t.(stage := Owning(Conclude(item)))
                 else if Binding(cfg.registry, item).None? then Raised(cfg, next, w, t.cid, PolicyDenied)
                 else match Authorize(cfg.policy, item, Binding(cfg.registry, item))
                      case Failure(_) => Raised(cfg, next, w, t.cid, BadValue)
                      case Success(x) =>
                        if x.Allowed() then w in next.ticks && next.ticks[w] == t.(stage := Owning(Book(item)))
                        else Raised(cfg, next, w, t.cid, PolicyDenied)
  {
    hide Normalized, Authorize, Binding;
  }

  lemma CallsAre(cfg: Config, db: Db, w: Worker, c: Id, did: Id, decision: Decision, result: CapabilityResult,
                 seen: Continuation, i: Inputs)
    ensures Perform(db, CallFor(cfg, w, c, Begin(did, decision), seen, i))
         == MarkStarted(db, did, w, TokenOf(seen), seen.version, i.now)
    ensures Perform(db, CallFor(cfg, w, c, Keep(did, decision, result), seen, i))
         == RecordExecution(db, did, w, TokenOf(seen), seen.version, result, i.now)
  {
  }

  lemma BookCall(cfg: Config, db: Db, w: Worker, c: Id, item: Decision, seen: Continuation, i: Inputs)
    ensures Perform(db, CallFor(cfg, w, c, Book(item), seen, i))
         == Reserve(db, c, w, TokenOf(seen), seen.version, item, i.digest, i.did, i.now)
  {
    hide Reserve;
  }

  lemma PlainCall(cfg: Config, db: Db, w: Worker, c: Id, item: Decision, seen: Continuation, i: Inputs)
    ensures Perform(db, CallFor(cfg, w, c, Conclude(item), seen, i))
         == ApplyPlain(db, c, w, TokenOf(seen), seen.version, item, i.did, i.didText, i.now)
  {
    hide ApplyPlain;
  }

  lemma JudgeCall(cfg: Config, db: Db, w: Worker, c: Id, did: Id, decision: Decision, v: Verification,
                  seen: Continuation, i: Inputs)
    ensures var settled := Settle(cfg, seen, decision, v, i.now);
            Perform(db, CallFor(cfg, w, c, Judge(did, decision, v), seen, i))
            == RecordVerdict(db, did, w, TokenOf(seen), seen.version, v, settled.to, settled.wake, settled.lastError,
                             i.eid, i.now)
  {
  }
}
