/** The runtime as a step machine: every tick in flight keeps its own program counter and local copies, and
    other workers, recovery, cancellation, renewals and crashes may come between any two of its steps. */
module Runtime {
  import opened Wrappers
  import opened Models
  import opened Policy
  import opened Tables
  import opened Queries
  import opened Operations

  datatype Config = Config(registry: Registry, policy: AutonomyPolicy, retryBase: nat, retryMax: nat)

  /** A store write that a tick is about to make, with the values it has in hand. */
  datatype Op =
    | Conclude(decision: Decision)
    | GiveUp(reason: string)
    | Book(decision: Decision)
    | Begin(did: Id, decision: Decision)
    | Keep(did: Id, decision: Decision, result: CapabilityResult)
    | Judge(did: Id, decision: Decision, verification: Verification)

  /** Where a tick stands in `run_once` and the functions it calls. */
  datatype Stage =
    | Entering                                    // claimed; the heartbeat has not renewed yet
    | Looking                                     // about to read the pending decision
    | Budgeting                                   // no attempts left; about to read the latest evidence
    | Planning                                    // the planner runs
    | Owning(op: Op)                              // about to re-read the row in `_current_owned`
    | Writing(op: Op, seen: Continuation)         // about to call the store with the row it has seen
    | Armed(did: Id, decision: Decision)          // execution is marked; the lease is about to be refreshed
    | Poised(did: Id, decision: Decision)         // the lease was refreshed; about to call the capability
    | Ran(did: Id, decision: Decision, result: CapabilityResult)
    | Reviewing(did: Id, decision: Decision)      // the result is stored; the lease is about to be refreshed
    | Assaying(did: Id, decision: Decision)       // the verifier runs
    | Assayed(did: Id, decision: Decision, verification: Verification)

  /** One call of `run_once` after its claim: `row` is the claimed row, `since` the place of the claim in the log,
      `exiting` says that one of the three error exits has been taken, and `told` that it was taken because the
      planner raised `AttemptBudgetExceeded`. */
  datatype Tick = Tick(cid: Id, row: Continuation, since: nat, stage: Stage, exiting: bool, told: bool)

  /** One call of a capability. */
  datatype Run = Run(did: Id, worker: Worker, since: nat, decision: Decision)

  datatype Sys = Sys(db: Db, ticks: map<Worker, Tick>, issued: set<Token>, runs: seq<Run>)

  const START := Sys(EMPTY, map[], {}, [])

  /** The idempotency key that a call of the capability passes: the decision's own, or that of its row. */
  function CallKey(d: Decision, stored: string): string {
    if d.key.Some? && d.key.value != "" then d.key.value else stored
  }

  function TokenOf(r: Continuation): Token {
    if r.token.Some? then r.token.value else ""
  }

  function SimpleDecision(kind: Kind, reason: string, wait: Option<int>): Decision {
    Decision(Enum(kind), reason, None, map[], 0, "default", None, None, wait, false, None, map[])
  }

  function Doubled(base: nat, times: nat): nat {
    if times == 0 then base else 2 * Doubled(base, times - 1)
  }

  /** `_retry_at`: the delay doubles with every attempt, up to the maximum. */
  function RetryDelay(cfg: Config, attempts: nat): nat {
    var d := Doubled(cfg.retryBase, if attempts == 0 then 0 else attempts - 1);
    if d < cfg.retryMax then d else cfg.retryMax
  }

  datatype Settlement = Settlement(to: State, wake: Option<Time>, lastError: Option<string>)

  /** `_settle`: what a verdict makes of a continuation, by the attempts of the row it has seen. */
  function Settle(cfg: Config, seen: Continuation, d: Decision, v: Verification, now: Time): Settlement {
    var exhausted := seen.attempts >= seen.maxAttempts;
    var retry := if exhausted then None else Some(now + RetryDelay(cfg, seen.attempts));
    match v.verdict
    case PASS => Settlement(if d.terminalOnPass then SUCCEEDED else READY, None, None)
    case FAIL => Settlement(if exhausted then FAILED else READY, None, Some(v.summary))
    case INCONCLUSIVE => Settlement(if exhausted then EXHAUSTED else WAITING, retry, Some(v.summary))
    case INVALID => Settlement(if exhausted then EXHAUSTED else WAITING, retry, Some(v.summary))
    case ERROR => Settlement(if exhausted then FAILED else WAITING, retry, Some(v.summary))
  }

  /** Where a verdict sends a continuation that had `left` attempts left, how long it waits, and what it reports. */
  predicate LeadsTo(v: Verification, terminal: bool, left: bool, later: Time, to: State, wake: Option<Time>,
                    lastError: Option<string>)
  {
    && (v.verdict == PASS ==> to == (if terminal then SUCCEEDED else READY) && wake == None && lastError == None)
    && (v.verdict != PASS ==> lastError == Some(v.summary))
    && (v.verdict == FAIL ==> to == (if left then READY else FAILED) && wake == None)
    && (v.verdict == INCONCLUSIVE || v.verdict == INVALID || v.verdict == ERROR ==>
          if left then to == WAITING && wake == Some(later)
          else to == (if v.verdict == ERROR then FAILED else EXHAUSTED) && wake == None)
  }

  lemma SettlementMeans(cfg: Config, seen: Continuation, d: Decision, v: Verification, now: Time)
    ensures var s := Settle(cfg, seen, d, v, now);
            && LeadsTo(v, d.terminalOnPass, seen.attempts < seen.maxAttempts, now + RetryDelay(cfg, seen.attempts),
                       s.to, s.wake, s.lastError)
            && !s.to.Active()
  {
    hide RetryDelay;
  }

  function WithStage(s: Sys, w: Worker, stage: Stage): Sys
    requires w in s.ticks
  {
    s.(ticks := s.ticks[w := s.ticks[w].(stage := stage)])
  }

  /** The tick is over: it returned, lost its race, or its process died. */
  function Drop(s: Sys, w: Worker): Sys {
    s.(ticks := s.ticks - {w})
  }

  /** An error exit: the row is re-read and one last write is tried. */
  function Exit(s: Sys, w: Worker, op: Op): Sys
    requires w in s.ticks
  {
    s.(ticks := s.ticks[w := s.ticks[w].(stage := Owning(op), exiting := true)])
  }

  function Blocked(s: Sys, w: Worker): Sys
    requires w in s.ticks
  {
    Exit(s, w, Conclude(SimpleDecision(BLOCK, "error", None)))
  }

  function InternalError(cfg: Config, s: Sys, w: Worker): Sys
    requires w in s.ticks
  {
    Exit(s, w, Conclude(SimpleDecision(WAIT, "internal_error", Some(cfg.retryBase))))
  }

  /** Which exit `run_once` takes for an error of the store. */
  function Failed(cfg: Config, s: Sys, w: Worker, e: Err): Sys
    requires w in s.ticks
  {
    if s.ticks[w].exiting then Drop(s, w) else
    match e
    case PolicyDenied => Blocked(s, w)
    case IdempotencyConflict => Blocked(s, w)
    case UnknownCommit => Blocked(s, w)
    case VerificationRequired => Blocked(s, w)
    case AttemptBudgetExceeded => Exit(s, w, GiveUp("attempt budget exhausted"))
    case LeaseLost => Drop(s, w)
    case ConcurrentUpdate => Drop(s, w)
    case _ => InternalError(cfg, s, w)
  }

  /** The planner raises, instead of answering, an error the handlers of `run_once` sort like any other. */
  function Raise(cfg: Config, s: Sys, w: Worker, e: Err): Sys
    requires w in s.ticks
  {
    Failed(cfg, s.(ticks := s.ticks[w := s.ticks[w].(told := e == AttemptBudgetExceeded)]), w, e)
  }

  /** The heartbeat renews without an event; each stage that renews goes on to the next one. */
  function Refreshed(stage: Stage): Option<Stage> {
    match stage
    case Entering => Some(Looking)
    case Armed(d, dec) => Some(Poised(d, dec))
    case Ran(d, dec, result) => Some(Owning(Keep(d, dec, result)))
    case Reviewing(d, dec) => Some(Assaying(d, dec))
    case Assayed(d, dec, v) => Some(Owning(Judge(d, dec, v)))
    case _ => None
  }

  function Refresh(s: Sys, w: Worker, lease: int, now: Time): Sys
    requires w in s.ticks
  {
    var t := s.ticks[w];
    if Refreshed(t.stage).None? then s else
    match Renew(s.db, t.cid, w, TokenOf(t.row), lease, false, now)
    case RolledBack(_) => Drop(s, w)
    case Committed(db, _) => WithStage(s.(db := db), w, Refreshed(t.stage).value)
  }

  /** `_resume_pending`, or on to the planner when nothing is pending. */
  ghost function LookUp(cfg: Config, s: Sys, w: Worker): Sys
    requires w in s.ticks
  {
    var t := s.ticks[w];
    match LatestPending(s.db.decs, t.cid)
    case None => WithStage(s, w, if t.row.attempts >= t.row.maxAttempts then Budgeting else Planning)
    case Some(d) =>
      var row := s.db.decs[d];
      match FromDict(row.payload)
      case Failure(_) => InternalError(cfg, s, w)
      case Success(decision) =>
        var capability := Binding(cfg.registry, decision);
        if capability.None? then Failed(cfg, s, w, PolicyDenied)
        else if row.status == EXECUTED then WithStage(s, w, Reviewing(d, decision))
        else if row.recovery && !capability.value.replaySafe then Failed(cfg, s, w, UnknownCommit)
        else if row.status == RESERVED then WithStage(s, w, Writing(Begin(d, decision), t.row))
        else WithStage(s, w, Armed(d, decision))
  }

  /** With no attempts left, only stored PASS evidence lets the planner speak again. */
  ghost function Budget(s: Sys, w: Worker): Sys
    requires w in s.ticks
  {
    var e := LatestEvidence(s.db.evid, s.ticks[w].cid);
    if e.None? || s.db.evid[e.value].verification.verdict != PASS
    then WithStage(s, w, Owning(GiveUp("execution budget exhausted without PASS evidence")))
    else WithStage(s, w, Planning)
  }

  /** `apply_decision` up to its first read of the row. */
  function Plan(cfg: Config, s: Sys, w: Worker, decision: Decision): Sys
    requires w in s.ticks
  {
    match Normalized(decision)
    case Failure(_) => InternalError(cfg, s, w)
    case Success(item) =>
      if item.kind != Enum(EXECUTE) then WithStage(s, w, Owning(Conclude(item)))
      else
        var capability := Binding(cfg.registry, item);
        if capability.None? then Failed(cfg, s, w, PolicyDenied) else
        match Authorize(cfg.policy, item, capability)
        case Failure(_) => InternalError(cfg, s, w)
        case Success(a) =>
          if !a.Allowed() then Failed(cfg, s, w, PolicyDenied) else WithStage(s, w, Owning(Book(item)))
  }

  /** `_current_owned`: the row has to name this worker; its token and version are taken from it. */
  function Reread(s: Sys, w: Worker): Sys
    requires w in s.ticks && s.ticks[w].stage.Owning?
  {
    var t := s.ticks[w];
    if t.cid in s.db.conts && s.db.conts[t.cid].owner == Some(w) && s.db.conts[t.cid].token.Some?
    then WithStage(s, w, Writing(t.stage.op, s.db.conts[t.cid]))
    else Drop(s, w)
  }

  /** The hashes and clock reading that a write uses. */
  datatype Inputs = Inputs(digest: string, did: Id, didText: string, eid: Id, now: Time)

  function CallFor(cfg: Config, w: Worker, cid: Id, op: Op, seen: Continuation, i: Inputs): Call {
    var token, version := TokenOf(seen), seen.version;
    match op
    case Conclude(d) => DoApply(cid, w, token, version, d, i.did, i.didText, i.now)
    case GiveUp(reason) => DoExhaust(cid, w, token, version, reason, i.now)
    case Book(d) => DoReserve(cid, w, token, version, d, i.digest, i.did, i.now)
    case Begin(did, _) => DoStart(did, w, token, version, i.now)
    case Keep(did, _, result) => DoRecord(did, w, token, version, result, i.now)
    case Judge(did, d, v) =>
      var settled := Settle(cfg, seen, d, v, i.now);
      DoVerdict(did, w, token, version, v, settled.to, settled.wake, settled.lastError, i.eid, i.now)
  }

  /** What a tick does once its write has been committed. */
  function Proceed(s: Sys, w: Worker, op: Op, reply: Reply): Sys
    requires w in s.ticks && s.ticks[w].cid in s.db.conts
    requires op.Book? && reply.Reservation? ==> reply.did in s.db.decs
  {
    match op
    case Book(item) =>
      if !reply.Reservation? then Drop(s, w) else
      var status := s.db.decs[reply.did].status;
      if !reply.created && status == VERIFIED then Drop(s, w)
      else if status == RESERVED
      then WithStage(s, w, Writing(Begin(reply.did, item), s.db.conts[s.ticks[w].cid]))
      else WithStage(s, w, Armed(reply.did, item))
    case Begin(did, decision) => WithStage(s, w, Armed(did, decision))
    case Keep(did, decision, _) => WithStage(s, w, Reviewing(did, decision))
    case _ => Drop(s, w)
  }

  ghost function Commit(cfg: Config, s: Sys, w: Worker, i: Inputs): Sys
    requires w in s.ticks && s.ticks[w].stage.Writing?
  {
    var t := s.ticks[w];
    match Perform(s.db, CallFor(cfg, w, t.cid, t.stage.op, t.stage.seen, i))
    case RolledBack(e) => Failed(cfg, s, w, e)
    case Committed(db, reply) =>
      if t.cid in db.conts && (t.stage.op.Book? && reply.Reservation? ==> reply.did in db.decs)
      then Proceed(s.(db := db), w, t.stage.op, reply) else s
  }

  /** A step of the environment, or of the tick of one worker. */
  datatype Step =
    | Admitting(cid: Id, maxAttempts: int, actor: string, now: Time)
    | Recovering(delay: int, now: Time)
    | Cancelling(cid: Id, actor: string, now: Time)
    | Renewing(cid: Id, worker: Worker, token: Token, lease: int, record: bool, now: Time)
    | Claiming(worker: Worker, cid: Id, token: Token, lease: int, now: Time)
    | Refreshing(worker: Worker, lease: int, now: Time)
    | LookingUp(worker: Worker)
    | Budgeted(worker: Worker)
    | Planned(worker: Worker, decision: Decision)
    | PlannerRaised(worker: Worker, err: Err)
    | Rereading(worker: Worker)
    | Committing(worker: Worker, inputs: Inputs)
    | Executing(worker: Worker, result: CapabilityResult)
    | Assessing(worker: Worker, verification: Verification)
    | Faulting(worker: Worker)
    | Ending(worker: Worker)

  /** The effect of a step; a step that is not possible leaves the system as it is. A worker has at most one tick
      in flight, a claim draws a token never drawn before, and a fault is an exception no handler names. */
  ghost function Next(cfg: Config, s: Sys, step: Step): Sys {
    match step
    case Admitting(c, m, actor, now) => s.(db := Performed(s.db, DoAdmit(c, m, actor, now)))
    case Recovering(delay, now) => s.(db := Performed(s.db, DoRecover(delay, now)))
    case Cancelling(c, actor, now) => s.(db := Performed(s.db, DoCancel(c, actor, now)))
    case Renewing(c, w, t, lease, record, now) => s.(db := Performed(s.db, DoRenew(c, w, t, lease, record, now)))
    case Claiming(w, c, token, lease, now) =>
      if w in s.ticks || token in s.issued then s else
      (match Claim(s.db, c, w, token, lease, now)
       case RolledBack(_) => s
       case Committed(db, _) =>
         if c !in db.conts then s else
         s.(db := db, issued := s.issued + {token},
            ticks := s.ticks[w := Tick(c, db.conts[c], |s.db.log|, Entering, false, false)]))
    case Refreshing(w, lease, now) => if w in s.ticks then Refresh(s, w, lease, now) else s
    case LookingUp(w) => if w in s.ticks && s.ticks[w].stage.Looking? then LookUp(cfg, s, w) else s
    case Budgeted(w) => if w in s.ticks && s.ticks[w].stage.Budgeting? then Budget(s, w) else s
    case Planned(w, d) => if w in s.ticks && s.ticks[w].stage.Planning? then Plan(cfg, s, w, d) else s
    case PlannerRaised(w, e) => if w in s.ticks && s.ticks[w].stage.Planning? then Raise(cfg, s, w, e) else s
    case Rereading(w) => if w in s.ticks && s.ticks[w].stage.Owning? then Reread(s, w) else s
    case Committing(w, i) => if w in s.ticks && s.ticks[w].stage.Writing? then Commit(cfg, s, w, i) else s
    case Executing(w, result) =>
      if w in s.ticks && s.ticks[w].stage.Poised? then
        var t := s.ticks[w];
        WithStage(s.(runs := s.runs + [Run(t.stage.did, w, t.since, t.stage.decision)]), w,
                  Ran(t.stage.did, t.stage.decision, result))
      else s
    case Assessing(w, v) =>
      if w in s.ticks && s.ticks[w].stage.Assaying?
      then WithStage(s, w, Assayed(s.ticks[w].stage.did, s.ticks[w].stage.decision, v)) else s
    case Faulting(w) => if w in s.ticks && !s.ticks[w].exiting then InternalError(cfg, s, w) else s
    case Ending(w) => Drop(s, w)
  }

  /** The state that some steps lead to from a state. */
  ghost function Onward(cfg: Config, s: Sys, steps: seq<Step>): Sys {
    if steps == [] then s else Next(cfg, Onward(cfg, s, steps[..|steps| - 1]), steps[|steps| - 1])
  }

  /** The state that a run reaches. */
  ghost function Reach(cfg: Config, steps: seq<Step>): Sys {
    Onward(cfg, START, steps)
  }

  lemma OnwardOne(cfg: Config, s: Sys, steps: seq<Step>, step: Step)
    ensures Onward(cfg, s, steps + [step]) == Next(cfg, Onward(cfg, s, steps), step)
  {
    hide Next;
    assert (steps + [step])[..|steps|] == steps;
  }

  lemma {:induction false} OnwardJoin(cfg: Config, s: Sys, a: seq<Step>, b: seq<Step>)
    ensures Onward(cfg, s, a + b) == Onward(cfg, Onward(cfg, s, a), b)
  {
    hide Next;
    if b == [] {
      assert a + b == a;
    } else {
      assert (a + b)[..|a + b| - 1] == a + b[..|b| - 1];
      OnwardJoin(cfg, s, a, b[..|b| - 1]);
    }
  }
}
