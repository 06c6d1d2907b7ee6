/** What one tick does from its claim to its end when its lease lasts and nobody comes between its steps. */
module Outcomes {
  import opened Wrappers
  import opened Models
  import opened Policy
  import opened Tables
  import opened Queries
  import opened Operations
  import opened Effects
  import opened StoreInvariants
  import opened Calls
  import opened Runtime
  import opened RuntimeInvariants
  import opened RuntimeSteps
  import opened Ticks
  import SecondCalls

  /** The row of the tick is leased to its worker from `a.now` on, for long enough. */
  predicate Leased(s: Sys, w: Worker, a: Answers) {
    && w in s.ticks && s.ticks[w].cid in s.db.conts && s.ticks[w].row.token.Some?
    && var r := s.db.conts[s.ticks[w].cid];
    && r.state.Active() && r.owner == Some(w) && r.token == s.ticks[w].row.token
    && r.expires == Some(a.now + a.lease) && r.heartbeat == Some(a.now)
    && a.lease > 0 && a.inputs.now < a.now + a.lease && a.exit.now < a.now + a.lease
  }

  function RowOf(s: Sys, w: Worker): Continuation
    requires w in s.ticks && s.ticks[w].cid in s.db.conts
  {
    s.db.conts[s.ticks[w].cid]
  }

  lemma LeaseHolds(s: Sys, w: Worker, a: Answers)
    requires Leased(s, w, a)
    ensures var c, r := s.ticks[w].cid, RowOf(s, w);
            && HeldBy(s.db, c, w, TokenOf(r), r.version, a.now)
            && HeldBy(s.db, c, w, TokenOf(r), r.version, a.inputs.now)
            && HeldBy(s.db, c, w, TokenOf(r), r.version, a.exit.now)
  {
  }

  // ---- single steps, with the tick of the worker at a stage ----

  lemma PlayOn(cfg: Config, s: Sys, w: Worker, a: Answers, n: nat)
    requires w in s.ticks
    ensures Play(cfg, s, w, a, 1 + n) == Play(cfg, Next(cfg, s, Move(s, w, a)), w, a, n)
  {
    hide Next, Move, Play;
    PlayJoin(cfg, s, w, a, 1, n);
    PlayOne(cfg, s, w, a);
  }

  lemma AtStage(s: Sys, w: Worker, a: Answers, stage: Stage)
    requires w in s.ticks
    ensures var q := WithStage(s, w, stage);
            && WithStage(s, w, s.ticks[w].stage) == s && w in q.ticks && q.ticks[w].stage == stage
            && Drop(q, w) == Drop(s, w) && (Leased(q, w, a) <==> Leased(s, w, a))
    ensures forall next :: WithStage(WithStage(s, w, stage), w, next) == WithStage(s, w, next)
  {
    assert s.ticks[w := s.ticks[w]] == s.ticks;
    assert s.ticks[w := s.ticks[w].(stage := stage)] - {w} == s.ticks - {w};
  }

  /** A renewal finds the lease as it is to be, and the tick goes on. */
  lemma Renews(cfg: Config, s: Sys, w: Worker, a: Answers, stage: Stage, n: nat)
    requires Leased(s, w, a) && Refreshed(stage).Some?
    ensures Play(cfg, WithStage(s, w, stage), w, a, 1 + n)
         == Play(cfg, WithStage(s, w, Refreshed(stage).value), w, a, n)
  {
    hide Play;
    AtStage(s, w, a, stage);
    var r := RowOf(s, w);
    assert r.(expires := Some(a.now + a.lease), heartbeat := Some(a.now)) == r;
    assert s.db.conts[s.ticks[w].cid := r] == s.db.conts;
    PlayOn(cfg, WithStage(s, w, stage), w, a, n);
  }

  function InputsOf(s: Sys, w: Worker, a: Answers): Inputs
    requires w in s.ticks
  {
    if s.ticks[w].exiting then a.exit else a.inputs
  }

  /** What the store makes of a write of the tick, made for the row as it is. */
  ghost function Written(cfg: Config, s: Sys, w: Worker, a: Answers, op: Op): Outcome
    requires w in s.ticks && s.ticks[w].cid in s.db.conts
  {
    Perform(s.db, CallFor(cfg, w, s.ticks[w].cid, op, RowOf(s, w), InputsOf(s, w, a)))
  }

  /** The tick reads its row, and is about to write. */
  lemma Rereads(cfg: Config, s: Sys, w: Worker, a: Answers, op: Op, n: nat)
    requires Leased(s, w, a)
    ensures Play(cfg, WithStage(s, w, Owning(op)), w, a, 1 + n)
         == Play(cfg, WithStage(s, w, Writing(op, RowOf(s, w))), w, a, n)
  {
    hide Play;
    AtStage(s, w, a, Owning(op));
    PlayOn(cfg, WithStage(s, w, Owning(op)), w, a, n);
  }

  /** The write of a row as it is leads on from the step machine's commit. */
  lemma Commits(cfg: Config, s: Sys, w: Worker, a: Answers, op: Op, seen: Continuation, n: nat)
    requires w in s.ticks
    ensures var q := WithStage(s, w, Writing(op, seen));
            Play(cfg, q, w, a, 1 + n) == Play(cfg, Commit(cfg, q, w, InputsOf(s, w, a)), w, a, n)
  {
    hide Play, Commit;
    AtStage(s, w, a, Writing(op, seen));
    PlayOn(cfg, WithStage(s, w, Writing(op, seen)), w, a, n);
  }

  /** The tick reads its row and writes, and with that it is over. */
  lemma WritesLast(cfg: Config, s: Sys, w: Worker, a: Answers, op: Op, next: Db)
    requires Leased(s, w, a) && (op.Judge? || op.Conclude? || op.GiveUp?)
    requires Written(cfg, s, w, a, op) == Committed(next, Plain) && s.ticks[w].cid in next.conts
    ensures Play(cfg, WithStage(s, w, Owning(op)), w, a, 2) == Drop(s.(db := next), w)
  {
    hide Perform, CallFor, Play;
    Rereads(cfg, s, w, a, op, 1);
    Commits(cfg, s, w, a, op, RowOf(s, w), 0);
    var q := WithStage(s, w, Writing(op, RowOf(s, w)));
    AtStage(s, w, a, Writing(op, RowOf(s, w)));
    assert Commit(cfg, q, w, InputsOf(s, w, a)) == Drop(q.(db := next), w);
    PlayNothing(cfg, Drop(q.(db := next), w), w, a);
  }

  /** The tick reads its row, and its write is refused. */
  lemma WriteFails(cfg: Config, s: Sys, w: Worker, a: Answers, op: Op, e: Err, n: nat)
    requires Leased(s, w, a) && Written(cfg, s, w, a, op) == RolledBack(e)
    ensures Play(cfg, WithStage(s, w, Owning(op)), w, a, 2 + n)
         == Play(cfg, Failed(cfg, WithStage(s, w, Owning(op)), w, e), w, a, n)
  {
    hide Perform, CallFor, Play, Failed;
    Rereads(cfg, s, w, a, op, 1 + n);
    Commits(cfg, s, w, a, op, RowOf(s, w), n);
    FailsAlike(cfg, s, w, op, RowOf(s, w), e);
  }

  lemma FailsAlike(cfg: Config, s: Sys, w: Worker, op: Op, seen: Continuation, e: Err)
    requires w in s.ticks
    ensures Failed(cfg, WithStage(s, w, Writing(op, seen)), w, e) == Failed(cfg, WithStage(s, w, Owning(op)), w, e)
  {
    var q, p := WithStage(s, w, Writing(op, seen)), WithStage(s, w, Owning(op));
    assert q.ticks - {w} == p.ticks - {w};
  }

  // ---- a result is judged ----

  /** The decision is judged by the answer of the verifier: one piece of evidence, and the row goes where the verdict
      and the budget send it. */
  ghost predicate Judged(cfg: Config, db: Db, w: Worker, a: Answers, did: Id, terminal: bool, next: Db) {
    && did in db.decs && db.decs[did].cid in db.conts && db.decs[did].cid in next.conts
    && var r, q := db.conts[db.decs[did].cid], next.conts[db.decs[did].cid];
    && LeadsTo(a.verification, terminal, r.attempts < r.maxAttempts, a.inputs.now + RetryDelay(cfg, r.attempts), q.state,
               q.wake, q.lastError)
    && VerdictWrote(db, did, w, TokenOf(r), r.version, a.verification, q.state, q.wake, q.lastError, a.inputs.eid,
                    a.inputs.now, next)
  }

  /** There is no evidence for the decision yet, and the id for it is free. */
  ghost predicate Unjudged(s: Sys, w: Worker, a: Answers, did: Id) {
    && w in s.ticks && did in s.db.decs && s.db.decs[did].cid == s.ticks[w].cid
    && (forall e :: !JudgedBy(s.db.evid, did, e)) && a.inputs.eid !in s.db.evid
  }

  lemma JudgesNow(cfg: Config, s: Sys, w: Worker, a: Answers, did: Id, d: Decision) returns (next: Db)
    requires Leased(s, w, a) && !s.ticks[w].exiting && Unjudged(s, w, a, did) && s.db.decs[did].status == EXECUTED
    ensures Written(cfg, s, w, a, Judge(did, d, a.verification)) == Committed(next, Plain)
    ensures Judged(cfg, s.db, w, a, did, d.terminalOnPass, next)
  {
    hide RetryDelay;
    var r := RowOf(s, w);
    var settled := Settle(cfg, r, d, a.verification, a.inputs.now);
    SettlementMeans(cfg, r, d, a.verification, a.inputs.now);
    VerdictExactly(s.db, did, w, TokenOf(r), r.version, a.verification, settled.to, settled.wake, settled.lastError,
                   a.inputs.eid, a.inputs.now);
    next := After(s.db, Written(cfg, s, w, a, Judge(did, d, a.verification)));
  }

  /** A tick with a stored result renews, asks the verifier, renews and settles the verdict. */
  lemma ReviewEnds(cfg: Config, s: Sys, w: Worker, a: Answers, did: Id, d: Decision) returns (next: Db)
    requires Leased(s, w, a) && !s.ticks[w].exiting && Unjudged(s, w, a, did) && s.db.decs[did].status == EXECUTED
    ensures Play(cfg, WithStage(s, w, Reviewing(did, d)), w, a, 5) == Drop(s.(db := next), w)
    ensures Judged(cfg, s.db, w, a, did, d.terminalOnPass, next)
  {
    hide Play, Perform, CallFor, Judged, VerdictWrote, Leased, Written, WithStage, Drop, Unjudged;
    Renews(cfg, s, w, a, Reviewing(did, d), 4);
    Assesses(cfg, s, w, a, did, d, 3);
    Renews(cfg, s, w, a, Assayed(did, d, a.verification), 2);
    next := JudgesNow(cfg, s, w, a, did, d);
    JudgedKeepsRow(cfg, s, w, a, did, d.terminalOnPass, next);
    WritesLast(cfg, s, w, a, Judge(did, d, a.verification), next);
  }

  lemma Assesses(cfg: Config, s: Sys, w: Worker, a: Answers, did: Id, d: Decision, n: nat)
    requires Leased(s, w, a)
    ensures Play(cfg, WithStage(s, w, Assaying(did, d)), w, a, 1 + n)
         == Play(cfg, WithStage(s, w, Assayed(did, d, a.verification)), w, a, n)
  {
    hide Play;
    AtStage(s, w, a, Assaying(did, d));
    PlayOn(cfg, WithStage(s, w, Assaying(did, d)), w, a, n);
  }

  lemma JudgedKeepsRow(cfg: Config, s: Sys, w: Worker, a: Answers, did: Id, terminal: bool, next: Db)
    requires Unjudged(s, w, a, did) && Judged(cfg, s.db, w, a, did, terminal, next)
    ensures s.ticks[w].cid in next.conts
  {
  }

  // ---- a decision is carried out ----

  /** The result of the one call is stored, and then judged. */
  ghost predicate Carried(cfg: Config, db: Db, w: Worker, a: Answers, did: Id, terminal: bool, next: Db) {
    && did in db.decs && db.decs[did].cid in db.conts
    && var r := db.conts[db.decs[did].cid];
    && exists mid :: RecordWrote(db, did, w, TokenOf(r), r.version, a.result, a.inputs.now, mid)
                     && Judged(cfg, mid, w, a, did, terminal, next)
  }

  /** The calls so far, and one of this decision by this tick. */
  function Called(s: Sys, w: Worker, did: Id, d: Decision): seq<Run>
    requires w in s.ticks
  {
    s.runs + [Run(did, w, s.ticks[w].since, d)]
  }

  lemma Executes(cfg: Config, s: Sys, w: Worker, a: Answers, did: Id, d: Decision, n: nat)
    requires Leased(s, w, a)
    ensures Play(cfg, WithStage(s, w, Poised(did, d)), w, a, 1 + n)
         == Play(cfg, WithStage(s.(runs := Called(s, w, did, d)), w, Ran(did, d, a.result)), w, a, n)
  {
    hide Play;
    var q := WithStage(s, w, Poised(did, d));
    AtStage(s, w, a, Poised(did, d));
    assert Next(cfg, q, Executing(w, a.result)) == WithStage(s.(runs := Called(s, w, did, d)), w, Ran(did, d, a.result));
    PlayOn(cfg, WithStage(s, w, Poised(did, d)), w, a, n);
  }

  /** The result is stored, and the tick goes on to have it judged. */
  lemma Keeps(cfg: Config, s: Sys, w: Worker, a: Answers, did: Id, d: Decision, n: nat) returns (mid: Db)
    requires Leased(s, w, a) && !s.ticks[w].exiting && Unjudged(s, w, a, did)
    requires s.db.decs[did].status == RESERVED || s.db.decs[did].status == EXECUTING
    ensures var r := RowOf(s, w); RecordWrote(s.db, did, w, TokenOf(r), r.version, a.result, a.inputs.now, mid)
    ensures Play(cfg, WithStage(s, w, Owning(Keep(did, d, a.result))), w, a, 2 + n)
         == Play(cfg, WithStage(s.(db := mid), w, Reviewing(did, d)), w, a, n)
  {
    hide Play;
    var r, op := RowOf(s, w), Keep(did, d, a.result);
    RecordExactly(s.db, did, w, TokenOf(r), r.version, a.result, a.inputs.now);
    mid := After(s.db, Written(cfg, s, w, a, op));
    Rereads(cfg, s, w, a, op, 1 + n);
    Commits(cfg, s, w, a, op, r, n);
    AtStage(s, w, a, Writing(op, r));
    assert Commit(cfg, WithStage(s, w, Writing(op, r)), w, a.inputs) == WithStage(s.(db := mid), w, Reviewing(did, d));
  }

  lemma KeptGoesOn(s: Sys, w: Worker, a: Answers, did: Id, mid: Db, runs: seq<Run>)
    requires Leased(s, w, a) && Unjudged(s, w, a, did)
    requires var r := RowOf(s, w); RecordWrote(s.db, did, w, TokenOf(r), r.version, a.result, a.inputs.now, mid)
    ensures var q := s.(db := mid, runs := runs);
            Leased(q, w, a) && Unjudged(q, w, a, did) && q.db.decs[did].status == EXECUTED
  {
  }

  /** A tick whose execution is marked calls the capability once, stores what it returned, and has it judged. */
  lemma RunEnds(cfg: Config, s: Sys, w: Worker, a: Answers, did: Id, d: Decision) returns (next: Db)
    requires w in s.ticks && Leased(s, w, a) && !s.ticks[w].exiting && Unjudged(s, w, a, did)
    requires s.db.decs[did].status == RESERVED || s.db.decs[did].status == EXECUTING
    ensures Play(cfg, WithStage(s, w, Armed(did, d)), w, a, 10)
         == Drop(s.(db := next, runs := Called(s, w, did, d)), w)
    ensures Carried(cfg, s.db, w, a, did, d.terminalOnPass, next)
  {
    hide Play, Judged, RecordWrote, Leased, WithStage, Drop, Unjudged;
    var called := s.(runs := Called(s, w, did, d));
    Renews(cfg, s, w, a, Armed(did, d), 9);
    Executes(cfg, s, w, a, did, d, 8);
    RunsAside(s, w, a, did, called.runs);
    Renews(cfg, called, w, a, Ran(did, d, a.result), 7);
    var mid := Keeps(cfg, called, w, a, did, d, 5);
    KeptGoesOn(s, w, a, did, mid, called.runs);
    next := ReviewEnds(cfg, called.(db := mid), w, a, did, d);
  }

  lemma RunsAside(s: Sys, w: Worker, a: Answers, did: Id, runs: seq<Run>)
    requires Leased(s, w, a) && Unjudged(s, w, a, did)
    ensures Leased(s.(runs := runs), w, a) && Unjudged(s.(runs := runs), w, a, did)
  {
  }

  /** A reserved decision is marked as started first. */
  lemma StartEnds(cfg: Config, s: Sys, w: Worker, a: Answers, did: Id, d: Decision) returns (mid: Db, next: Db)
    requires Leased(s, w, a) && !s.ticks[w].exiting && Unjudged(s, w, a, did) && s.db.decs[did].status == RESERVED
    ensures Play(cfg, WithStage(s, w, Writing(Begin(did, d), RowOf(s, w))), w, a, 11)
         == Drop(s.(db := next, runs := Called(s, w, did, d)), w)
    ensures var r := RowOf(s, w); StartWrote(s.db, did, w, TokenOf(r), r.version, a.inputs.now, mid)
    ensures Carried(cfg, mid, w, a, did, d.terminalOnPass, next)
  {
    hide Play, Carried, Drop;
    mid := Starts(cfg, s, w, a, did, d, 10);
    next := RunEnds(cfg, s.(db := mid), w, a, did, d);
  }

  lemma Starts(cfg: Config, s: Sys, w: Worker, a: Answers, did: Id, d: Decision, n: nat) returns (mid: Db)
    requires Leased(s, w, a) && !s.ticks[w].exiting && Unjudged(s, w, a, did) && s.db.decs[did].status == RESERVED
    ensures var r := RowOf(s, w); StartWrote(s.db, did, w, TokenOf(r), r.version, a.inputs.now, mid)
    ensures Play(cfg, WithStage(s, w, Writing(Begin(did, d), RowOf(s, w))), w, a, 1 + n)
         == Play(cfg, WithStage(s.(db := mid), w, Armed(did, d)), w, a, n)
  {
    hide Play;
    var r, op := RowOf(s, w), Begin(did, d);
    StartExactly(s.db, did, w, TokenOf(r), r.version, a.inputs.now);
    mid := After(s.db, Written(cfg, s, w, a, op));
    Commits(cfg, s, w, a, op, r, n);
    AtStage(s, w, a, Writing(op, r));
    assert Commit(cfg, WithStage(s, w, Writing(op, r)), w, a.inputs) == WithStage(s.(db := mid), w, Armed(did, d));
  }
}
