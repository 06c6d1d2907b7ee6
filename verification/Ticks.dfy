/** One tick left to itself: after its claim, the answers it gets fix every step it takes until it is over. */
module Ticks {
  import opened Wrappers
  import opened Models
  import opened Policy
  import opened Tables
  import opened Queries
  import opened Operations
  import opened Effects
  import opened Runtime

  /** What the outside answers during one tick: the planner (or the error it raises), the capability, the verifier,
      and the hashes and clock readings of the writes. */
  datatype Answers = Answers(
    planned: Result<Decision, Err>, result: CapabilityResult, verification: Verification,
    lease: int, now: Time, inputs: Inputs, exit: Inputs)

  /** The step that a tick in flight takes next. It neither ends on its own nor raises what no handler names. */
  function Move(s: Sys, w: Worker, a: Answers): Step
    requires w in s.ticks
  {
    match s.ticks[w].stage
    case Looking => LookingUp(w)
    case Budgeting => Budgeted(w)
    case Planning => if a.planned.Success? then Planned(w, a.planned.value) else PlannerRaised(w, a.planned.error)
    case Owning(_) => Rereading(w)
    case Writing(_, _) => Committing(w, if s.ticks[w].exiting then a.exit else a.inputs)
    case Poised(_, _) => Executing(w, a.result)
    case Assaying(_, _) => Assessing(w, a.verification)
    case _ => Refreshing(w, a.lease, a.now)
  }

  /** The state after `n` steps of the tick, or after the last one if it is over before. */
  ghost function Play(cfg: Config, s: Sys, w: Worker, a: Answers, n: nat): Sys {
    if n == 0 then s else
    var p := Play(cfg, s, w, a, n - 1);
    if w in p.ticks then Next(cfg, p, Move(p, w, a)) else p
  }

  lemma {:induction false} PlayJoin(cfg: Config, s: Sys, w: Worker, a: Answers, m: nat, n: nat)
    ensures Play(cfg, s, w, a, m + n) == Play(cfg, Play(cfg, s, w, a, m), w, a, n)
  {
    hide Next, Move;
    if n > 0 { PlayJoin(cfg, s, w, a, m, n - 1); }
  }

  /** A tick that is over stays as it is. */
  lemma {:induction false} PlayOver(cfg: Config, s: Sys, w: Worker, a: Answers, n: nat)
    requires w !in s.ticks
    ensures Play(cfg, s, w, a, n) == s
  {
    hide Next, Move;
    if n > 0 { PlayOver(cfg, s, w, a, n - 1); }
  }

  lemma PlayOne(cfg: Config, s: Sys, w: Worker, a: Answers)
    requires w in s.ticks
    ensures Play(cfg, s, w, a, 1) == Next(cfg, s, Move(s, w, a))
  {
    hide Next, Move;
    assert Play(cfg, s, w, a, 0) == s;
  }

  lemma PlayNothing(cfg: Config, s: Sys, w: Worker, a: Answers)
    ensures Play(cfg, s, w, a, 0) == s
  {
  }

  lemma PlayNext(cfg: Config, s: Sys, w: Worker, a: Answers, n: nat)
    requires w in Play(cfg, s, w, a, n).ticks
    ensures var p := Play(cfg, s, w, a, n); Play(cfg, s, w, a, n + 1) == Next(cfg, p, Move(p, w, a))
  {
    hide Next, Move;
  }

  // ---- error exits ----

  const BLOCKING := SimpleDecision(BLOCK, "error", None)

  function Waiting(cfg: Config): Decision {
    SimpleDecision(WAIT, "internal_error", Some(cfg.retryBase))
  }

  lemma BlockIsClean()
    ensures Normalized(BLOCKING) == Success(BLOCKING) && AsDict(BLOCKING).Success?
  {
    var reason := "error";
    assert reason[0] == 'e' && reason[|reason| - 1] == 'r';
    assert Text.Trimmed(reason) && Text.Trimmed("default");
  }

  /** The row is leased, and it names this worker. */
  predicate Owns(conts: map<Id, Continuation>, c: Id, w: Worker) {
    c in conts && conts[c].owner == Some(w) && conts[c].token.Some?
  }

  /** An exit can write, and the id or the key of its decision is taken. */
  ghost predicate ExitClashes(db: Db, c: Id, w: Worker, i: Inputs) {
    && Owns(db.conts, c, w) && HeldBy(db, c, w, TokenOf(db.conts[c]), db.conts[c].version, i.now)
    && (i.did in db.decs || exists o :: HoldsKey(db.decs, i.didText, o))
  }

  /** The tick stands at an error exit that is to apply a decision and meets an id or a key that is taken. */
  ghost predicate Clashing(s: Sys, w: Worker, a: Answers) {
    && w in s.ticks && s.ticks[w].exiting && s.ticks[w].stage.Owning? && s.ticks[w].stage.op.Conclude?
    && ExitClashes(s.db, s.ticks[w].cid, w, a.exit)
  }

  ghost predicate ClashesAt(cfg: Config, s: Sys, w: Worker, a: Answers, n: nat) {
    Clashing(Play(cfg, s, w, a, n), w, a)
  }

  lemma OverForGood(cfg: Config, s: Sys, w: Worker, a: Answers, m: nat, n: nat)
    requires w !in Play(cfg, s, w, a, m).ticks && m <= n
    ensures Play(cfg, s, w, a, n) == Play(cfg, s, w, a, m) && !ClashesAt(cfg, s, w, a, n)
  {
    hide Play;
    PlayJoin(cfg, s, w, a, m, n - m);
    PlayOver(cfg, Play(cfg, s, w, a, m), w, a, n - m);
  }

  /** Row `c` has been claimed for a new tick of the worker. */
  ghost predicate Begins(s: Sys, db: Db, w: Worker, token: Token, a: Answers, c: Id, next: Sys) {
    && FirstDue(db.conts, a.now, c)
    && ClaimWrote(db, c, w, token, if a.lease >= 0 then a.now + a.lease else a.now, a.now, next.db)
    && next.ticks == s.ticks[w := Tick(c, next.db.conts[c], |db.log|, Entering, false, false)]
    && next.issued == s.issued + {token} && next.runs == s.runs
  }

  /** The tick that `begun` began was played to its end, and `claimed` was returned or raised. */
  ghost predicate Played(cfg: Config, begun: Sys, w: Worker, a: Answers, c: Id, end: Sys,
                         claimed: Result<Option<Id>, Err>)
  {
    && (exists n: nat :: end == Play(cfg, begun, w, a, n)) && w !in end.ticks
    && claimed == if exists n: nat :: ClashesAt(cfg, begun, w, a, n) then Failure(IntegrityError) else Success(Some(c))
  }
}
