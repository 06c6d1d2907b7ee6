/** Every step of every tick, and every step of the others, keeps the invariant of the runtime. */
module RuntimeSteps {
  import opened Wrappers
  import opened Models
  import opened Policy
  import opened Tables
  import opened Queries
  import opened Operations
  import opened Effects
  import opened Replay
  import opened StoreInvariants
  import opened StoreLaws
  import opened Runtime
  import opened RuntimeInvariants

  // ---- the world after a store call ----

  ghost predicate RunsOk(cfg: Config, db: Db, runs: seq<Run>) {
    forall i :: 0 <= i < |runs| ==> RunOk(cfg, db, runs[i])
  }

  /** All ticks but one know what they knew; that one has its lease and the lasting half of its knowledge. */
  ghost predicate OthersOk(cfg: Config, db: Db, ticks: map<Worker, Tick>, actor: Option<Worker>) {
    forall w :: w in ticks ==>
      && LeaseOk(db, w, ticks[w]) && StageOk(cfg, db, ticks[w])
      && (Some(w) != actor ==> TickOk(cfg, db, w, ticks[w]))
  }

  ghost predicate RowTokensIn(db: Db, issued: set<Token>) {
    forall c :: c in db.conts && db.conts[c].token.Some? ==> db.conts[c].token.value in issued
  }

  /** A call made by a tick goes out under the token of its claim. */
  predicate MadeBy(s: Sys, call: Call, actor: Option<Worker>) {
    if actor.None? then Presents(call).None? || call.DoRenew?
    else actor.value in s.ticks && s.ticks[actor.value].row.token == Presents(call)
  }

  lemma FreshToken(s: Sys, t: Token)
    requires RowTokensIn(s.db, s.issued) && t !in s.issued
    ensures Unheld(s.db, t)
  {
  }

  lemma RenewLeavesRowsAlone(db: Db, call: Call, c: Id)
    requires call.DoRenew? && c in db.conts
    ensures Untouched(db, Performed(db, call), c)
  {
    RenewEffect(db, call.cid, call.worker, call.token, call.lease, call.record, call.now);
  }

  lemma OtherTick(cfg: Config, s: Sys, call: Call, actor: Option<Worker>, w: Worker)
    requires Inv(cfg, s) && MadeBy(s, call, actor) && w in s.ticks
    requires call.DoClaim? ==> call.token !in s.issued && call.worker !in s.ticks
    requires Evolves(s.db, Performed(s.db, call), Presents(call), Drawn(call)) && RowsOk(Performed(s.db, call))
    ensures var next, t := Performed(s.db, call), s.ticks[w];
            && LeaseOk(next, w, t) && StageOk(cfg, next, t)
            && (Some(w) != actor ==> TickOk(cfg, next, w, t))
  {
    hide Performed, DbOk, LeaseOk, StageOk, HeldOk, Evolves, RowsOk, Untouched, RunOk;
    var next, t := Performed(s.db, call), s.ticks[w];
    LeaseFacts(s.db, w, t);
    LeaseSurvives(s.db, next, Presents(call), Drawn(call), w, t);
    StageSurvives(cfg, s.db, next, Presents(call), Drawn(call), t);
    if Some(w) != actor {
      if call.DoRenew? { RenewLeavesRowsAlone(s.db, call, t.cid); }
      TickSurvives(cfg, s.db, next, Presents(call), Drawn(call), w, t);
    }
  }

  lemma TokensMove(db: Db, next: Db, holder: Option<Token>, drawn: Option<(Token, Worker)>, issued: set<Token>)
    requires RowTokensIn(db, issued) && RowsEvolve(db, next, holder, drawn)
    ensures RowTokensIn(next, if drawn.Some? then issued + {drawn.value.0} else issued)
  {
    forall c | c in next.conts && next.conts[c].token.Some?
      ensures next.conts[c].token.value in (if drawn.Some? then issued + {drawn.value.0} else issued)
    {
      if c in db.conts && Untouched(db, next, c) { assert next.conts[c].token == db.conts[c].token; }
    }
  }

  /** What a fair call leaves of the invariant; only the tick that made it has to catch up. */
  lemma WorldMoves(cfg: Config, s: Sys, call: Call, actor: Option<Worker>)
    requires Inv(cfg, s) && MadeBy(s, call, actor) && Fair(cfg, s.db, call)
    requires call.DoClaim? ==> call.token !in s.issued && call.worker !in s.ticks
    ensures DbOk(cfg, Performed(s.db, call))
    ensures OthersOk(cfg, Performed(s.db, call), s.ticks, actor)
    ensures RunsOk(cfg, Performed(s.db, call), s.runs)
    ensures RowTokensIn(Performed(s.db, call), if call.DoClaim? then s.issued + {call.token} else s.issued)
    ensures Evolves(s.db, Performed(s.db, call), Presents(call), Drawn(call))
  {
    hide Performed, DbOk, TickOk, LeaseOk, StageOk, Evolves, RowsOk, RunOk, RowsEvolve, Fair;
    var next := Performed(s.db, call);
    DbOkKept(cfg, s.db, call);
    if call.DoClaim? { FreshToken(s, call.token); }
    CallEvolves(s.db, call);
    DbRows(cfg, next);
    forall w | w in s.ticks
      ensures LeaseOk(next, w, s.ticks[w]) && StageOk(cfg, next, s.ticks[w])
      ensures Some(w) != actor ==> TickOk(cfg, next, w, s.ticks[w])
    {
      OtherTick(cfg, s, call, actor, w);
    }
    forall i | 0 <= i < |s.runs| ensures RunOk(cfg, next, s.runs[i]) {
      RunStays(cfg, s.db, next, Presents(call), Drawn(call), s.runs[i]);
    }
    EvolvesRows(s.db, next, Presents(call), Drawn(call));
    TokensMove(s.db, next, Presents(call), Drawn(call), s.issued);
  }

  lemma DbRows(cfg: Config, db: Db)
    requires DbOk(cfg, db)
    ensures RowsOk(db)
  {
  }

  lemma EvolvesRows(db: Db, next: Db, holder: Option<Token>, drawn: Option<(Token, Worker)>)
    requires Evolves(db, next, holder, drawn)
    ensures RowsEvolve(db, next, holder, drawn) && DecisionsGrow(db, next)
    ensures |db.log| <= |next.log| && next.log[..|db.log|] == db.log
  {
  }

  // ---- putting the invariant together again ----

  /** The actor's tick goes on with a new stage. */
  lemma GoesOn(cfg: Config, s: Sys, next: Db, w: Worker, t: Tick)
    requires TokensOk(s) && w in s.ticks && t == s.ticks[w].(stage := t.stage, exiting := t.exiting, told := t.told)
    requires DbOk(cfg, next) && OthersOk(cfg, next, s.ticks, Some(w)) && RunsOk(cfg, next, s.runs)
    requires RowTokensIn(next, s.issued) && StageOk(cfg, next, t) && (Holding(next, t) ==> HeldOk(next, t))
    ensures Inv(cfg, s.(db := next, ticks := s.ticks[w := t]))
  {
    hide DbOk, StageOk, HeldOk, RunOk;
    assert LeaseOk(next, w, s.ticks[w]);
    assert LeaseOk(next, w, t);
    assert TickOk(cfg, next, w, t);
  }

  lemma Dropped(cfg: Config, s: Sys, next: Db, w: Worker)
    requires TokensOk(s)
    requires DbOk(cfg, next) && OthersOk(cfg, next, s.ticks, Some(w)) && RunsOk(cfg, next, s.runs)
    requires RowTokensIn(next, s.issued)
    ensures Inv(cfg, Drop(s.(db := next), w))
  {
    hide DbOk, TickOk, LeaseOk, StageOk, RunOk;
  }

  /** The database is as it was, so everybody but the actor still knows what he knew. */
  lemma WorldStays(cfg: Config, s: Sys, actor: Option<Worker>)
    requires Inv(cfg, s)
    ensures DbOk(cfg, s.db) && OthersOk(cfg, s.db, s.ticks, actor) && RunsOk(cfg, s.db, s.runs)
    ensures RowTokensIn(s.db, s.issued) && TokensOk(s)
  {
    hide DbOk, LeaseOk, StageOk, HeldOk, RunOk;
  }

  lemma DropKeeps(cfg: Config, s: Sys, w: Worker)
    requires Inv(cfg, s)
    ensures Inv(cfg, Drop(s, w))
  {
    hide DbOk, OthersOk, RunsOk, TokensOk, Inv, RowTokensIn;
    WorldStays(cfg, s, Some(w));
    Dropped(cfg, s, s.db, w);
  }

  /** The tick of `w` goes on from `s` to a stage that suits it. */
  lemma StageKeeps(cfg: Config, s: Sys, w: Worker, t: Tick)
    requires Inv(cfg, s) && w in s.ticks
    requires t == s.ticks[w].(stage := t.stage, exiting := t.exiting, told := t.told)
    requires StageOk(cfg, s.db, t) && (Holding(s.db, s.ticks[w]) ==> HeldOk(s.db, t))
    ensures Inv(cfg, s.(ticks := s.ticks[w := t]))
  {
    hide DbOk, OthersOk, RunsOk, TokensOk, RowTokensIn, StageOk, HeldOk, RunOk;
    WorldStays(cfg, s, Some(w));
    assert TickOk(cfg, s.db, w, s.ticks[w]);
    GoesOn(cfg, s, s.db, w, t);
  }

  lemma ExitKeeps(cfg: Config, s: Sys, w: Worker, op: Op)
    requires Inv(cfg, s) && w in s.ticks && OpOk(cfg, s.db, s.ticks[w], op)
    requires (op.Conclude? || op.GiveUp?) && !s.ticks[w].exiting
    ensures Inv(cfg, Exit(s, w, op))
  {
    hide Inv, DbOk, LeaseOk, InHand, NoEarlierResult, CleanedOnce;
    TickFacts(cfg, s, w);
    StageKeeps(cfg, s, w, s.ticks[w].(stage := Owning(op), exiting := true));
  }

  lemma FailedKeeps(cfg: Config, s: Sys, w: Worker, e: Err)
    requires Inv(cfg, s) && w in s.ticks
    requires e == AttemptBudgetExceeded ==>
      s.ticks[w].cid in s.db.conts && s.db.conts[s.ticks[w].cid].attempts >= s.db.conts[s.ticks[w].cid].maxAttempts
    ensures Inv(cfg, Failed(cfg, s, w, e))
  {
    hide Inv;
    DropKeeps(cfg, s, w);
    if !s.ticks[w].exiting {
      ExitKeeps(cfg, s, w, Conclude(SimpleDecision(BLOCK, "error", None)));
      ExitKeeps(cfg, s, w, Conclude(SimpleDecision(WAIT, "internal_error", Some(cfg.retryBase))));
      if e == AttemptBudgetExceeded { ExitKeeps(cfg, s, w, GiveUp("attempt budget exhausted")); }
    }
  }

  /** What the planner raises is sorted like an error of the store; a budget error needs no spent budget. */
  lemma RaiseKeeps(cfg: Config, s: Sys, w: Worker, e: Err)
    requires Inv(cfg, s) && w in s.ticks && s.ticks[w].stage.Planning?
    ensures Inv(cfg, Raise(cfg, s, w, e))
  {
    hide Inv, DbOk, LeaseOk;
    TickFacts(cfg, s, w);
    var t := s.ticks[w];
    assert !t.told;
    if e != AttemptBudgetExceeded {
      assert s.(ticks := s.ticks[w := t.(told := false)]) == s;
      FailedKeeps(cfg, s, w, e);
    } else {
      DropKeeps(cfg, s, w);
      StageKeeps(cfg, s, w,
                 t.(stage := Owning(GiveUp("attempt budget exhausted")), exiting := true, told := true));
      Redirected(cfg, s, w);
    }
  }

  lemma Redirected(cfg: Config, s: Sys, w: Worker)
    requires w in s.ticks
    ensures Raise(cfg, s, w, AttemptBudgetExceeded) ==
      if s.ticks[w].exiting then Drop(s, w) else
      s.(ticks := s.ticks[w := s.ticks[w].(stage := Owning(GiveUp("attempt budget exhausted")), exiting := true,
                                           told := true)])
  {
    var told := s.(ticks := s.ticks[w := s.ticks[w].(told := true)]);
    assert Drop(told, w).ticks == s.ticks - {w};
  }

  // ---- steps of others ----

  lemma OthersKeep(cfg: Config, s: Sys, call: Call)
    requires Inv(cfg, s) && !call.DoClaim? && (Presents(call).None? || call.DoRenew?)
    ensures Inv(cfg, s.(db := Performed(s.db, call)))
  {
    hide Performed, DbOk, LeaseOk, StageOk, HeldOk, Evolves, RunOk;
    WorldMoves(cfg, s, call, None);
  }

  lemma ClaimedTick(cfg: Config, db: Db, c: Id, w: Worker, token: Token, expires: Time, now: Time, next: Db, t: Tick)
    requires ClaimWrote(db, c, w, token, expires, now, next) && Unheld(db, token) && RowsOk(db)
    requires t == Tick(c, next.conts[c], |db.log|, Entering, false, false)
    ensures TickOk(cfg, next, w, t)
  {
  }

  lemma NewTick(cfg: Config, s: Sys, next: Db, w: Worker, token: Token, t: Tick)
    requires TokensOk(s) && token !in s.issued && w !in s.ticks && t.row.token == Some(token)
    requires DbOk(cfg, next) && OthersOk(cfg, next, s.ticks, None) && RunsOk(cfg, next, s.runs)
    requires RowTokensIn(next, s.issued + {token}) && TickOk(cfg, next, w, t)
    ensures Inv(cfg, Sys(next, s.ticks[w := t], s.issued + {token}, s.runs))
  {
    hide DbOk, LeaseOk, StageOk, HeldOk, RunOk;
  }

  lemma ClaimCommits(db: Db, c: Id, w: Worker, token: Token, lease: int, now: Time)
    requires Claim(db, c, w, token, lease, now).Committed?
    ensures var next := Performed(db, DoClaim(c, w, token, lease, now));
            && Claim(db, c, w, token, lease, now) == Committed(next, Plain)
            && ClaimWrote(db, c, w, token, Later(now, lease), now, next)
            && c in next.conts && next.conts[c].token == Some(token)
  {
  }

  lemma ClaimKeeps(cfg: Config, s: Sys, w: Worker, c: Id, token: Token, lease: int, now: Time)
    requires Inv(cfg, s)
    ensures Inv(cfg, Next(cfg, s, Claiming(w, c, token, lease, now)))
  {
    hide DbOk, TickOk, Evolves, RunOk, LeaseOk, ClaimWrote, FirstDue, TokensOk, OthersOk, RunsOk, RowTokensIn, Inv,
         Performed, Claim;
    if w !in s.ticks && token !in s.issued && Claim(s.db, c, w, token, lease, now).Committed? {
      var call := DoClaim(c, w, token, lease, now);
      var next := Performed(s.db, call);
      WorldMoves(cfg, s, call, None);
      WorldStays(cfg, s, None);
      FreshToken(s, token);
      ClaimCommits(s.db, c, w, token, lease, now);
      DbRows(cfg, s.db);
      var t := Tick(c, next.conts[c], |s.db.log|, Entering, false, false);
      ClaimedTick(cfg, s.db, c, w, token, Later(now, lease), now, next, t);
      NewTick(cfg, s, next, w, token, t);
    }
  }

  // ---- steps of a tick that write nothing ----

  /** What a tick may count on when it reads the pending decision of its continuation. */
  lemma PendingFacts(cfg: Config, db: Db, t: Tick, d: Id)
    requires DbOk(cfg, db) && d in PendingIds(db.decs, t.cid) && t.since < |db.log|
    ensures d in db.decs && db.decs[d].cid == t.cid && db.decs[d].kind == EXECUTE && db.decs[d].status.Pending()
    ensures FromDict(db.decs[d].payload).Success?
    ensures InHand(cfg, db, d, FromDict(db.decs[d].payload).value)
    ensures db.decs[d].status != EXECUTED ==> NoEarlierResult(db, d, t.since)
  {
    hide Agrees, TalliesOk, MayRun, FromDict;
    assert DecisionOk(db, d);
    assert StoredOk(cfg, db.decs[d]);
    if db.decs[d].status != EXECUTED {
      forall i ensures !ResultAt(db.log, i, d) {}
    }
  }

  lemma SeenOk(cfg: Config, db: Db, w: Worker, t: Tick)
    requires LeaseOk(db, w, t)
    ensures t.cid in db.conts && t.row.version <= db.conts[t.cid].version
    ensures t.row.version == db.conts[t.cid].version ==> SameButLease(t.row, db.conts[t.cid])
    ensures t.row.attempts >= t.row.maxAttempts ==> db.conts[t.cid].attempts >= db.conts[t.cid].maxAttempts
  {
  }

  lemma TickFacts(cfg: Config, s: Sys, w: Worker)
    requires Inv(cfg, s) && w in s.ticks
    ensures DbOk(cfg, s.db) && LeaseOk(s.db, w, s.ticks[w]) && StageOk(cfg, s.db, s.ticks[w])
    ensures Holding(s.db, s.ticks[w]) ==> HeldOk(s.db, s.ticks[w])
    ensures s.ticks[w].since < |s.db.log| && s.ticks[w].cid in s.db.conts && s.ticks[w].row.token.Some?
  {
    hide DbOk, StageOk, HeldOk, RunOk;
    assert TickOk(cfg, s.db, w, s.ticks[w]);
  }

  lemma LookUpKeeps(cfg: Config, s: Sys, w: Worker)
    requires Inv(cfg, s) && w in s.ticks && s.ticks[w].stage.Looking?
    ensures Inv(cfg, LookUp(cfg, s, w))
  {
    hide Inv, DbOk, LeaseOk, InHand, NoEarlierResult, FromDict, Binding, SameButLease, PendingIds;
    TickFacts(cfg, s, w);
    var t := s.ticks[w];
    SeenOk(cfg, s.db, w, t);
    FailedKeeps(cfg, s, w, PolicyDenied);
    FailedKeeps(cfg, s, w, UnknownCommit);
    match LatestPending(s.db.decs, t.cid) {
      case None =>
        StageKeeps(cfg, s, w, t.(stage := if t.row.attempts >= t.row.maxAttempts then Budgeting else Planning));
      case Some(d) =>
        PendingFacts(cfg, s.db, t, d);
        var decision := FromDict(s.db.decs[d].payload).value;
        var next := if s.db.decs[d].status == EXECUTED then Reviewing(d, decision)
                    else if s.db.decs[d].status == RESERVED then Writing(Begin(d, decision), t.row)
                    else Armed(d, decision);
        StageKeeps(cfg, s, w, t.(stage := next));
    }
  }

  lemma BudgetKeeps(cfg: Config, s: Sys, w: Worker)
    requires Inv(cfg, s) && w in s.ticks && s.ticks[w].stage.Budgeting?
    ensures Inv(cfg, Budget(s, w))
  {
    hide Inv, DbOk, LeaseOk;
    TickFacts(cfg, s, w);
    StageKeeps(cfg, s, w, s.ticks[w].(stage := Planning));
    StageKeeps(cfg, s, w,
               s.ticks[w].(stage := Owning(GiveUp("execution budget exhausted without PASS evidence"))));
  }

  lemma CleanIsNotBlank(o: Option<string>)
    ensures !BlankText(Clean(o))
  {
    if o.Some? { assert Text.Trimmed(Text.Strip(o.value)); }
  }

  lemma PlannedOk(decision: Decision)
    requires Normalized(decision).Success? && Normalized(decision).value.kind == Enum(EXECUTE)
    ensures CleanedOnce(Normalized(decision).value)
  {
    hide Complaint, KindOf, StripOr, BlankText, Clean;
    NormalizingTwice(decision);
    CleanWork(decision);
    CleanIsNotBlank(decision.key);
  }

  lemma AllowedMayRun(cfg: Config, item: Decision)
    requires CleanedOnce(item) && item.kind == Enum(EXECUTE) && Binding(cfg.registry, item).Some?
    requires Authorize(cfg.policy, item, Binding(cfg.registry, item)).Success?
    requires Authorize(cfg.policy, item, Binding(cfg.registry, item)).value.Allowed()
    ensures MayRun(cfg.policy, cfg.registry, item)
  {
    hide Complaint, Binding;
    CleanedKind(item);
  }

  lemma PlanKeeps(cfg: Config, s: Sys, w: Worker, decision: Decision)
    requires Inv(cfg, s) && w in s.ticks && s.ticks[w].stage.Planning?
    ensures Inv(cfg, Plan(cfg, s, w, decision))
  {
    hide Inv, DbOk, LeaseOk, Normalized, Binding, Authorize, MayRun, CleanedOnce;
    TickFacts(cfg, s, w);
    FailedKeeps(cfg, s, w, PolicyDenied);
    ExitKeeps(cfg, s, w, Conclude(SimpleDecision(WAIT, "internal_error", Some(cfg.retryBase))));
    if Normalized(decision).Success? {
      var item := Normalized(decision).value;
      if item.kind == Enum(EXECUTE) {
        PlannedOk(decision);
        if && Binding(cfg.registry, item).Some? && Authorize(cfg.policy, item, Binding(cfg.registry, item)).Success?
           && Authorize(cfg.policy, item, Binding(cfg.registry, item)).value.Allowed()
        {
          AllowedMayRun(cfg, item);
          StageKeeps(cfg, s, w, s.ticks[w].(stage := Owning(Book(item))));
        }
      } else {
        StageKeeps(cfg, s, w, s.ticks[w].(stage := Owning(Conclude(item))));
      }
    }
  }

  lemma OwnToken(db: Db, w: Worker, t: Tick)
    requires LeaseOk(db, w, t) && db.conts[t.cid].owner == Some(w)
    ensures db.conts[t.cid].token == t.row.token
  {
  }

  lemma RereadKeeps(cfg: Config, s: Sys, w: Worker)
    requires Inv(cfg, s) && w in s.ticks && s.ticks[w].stage.Owning?
    ensures Inv(cfg, Reread(s, w))
  {
    hide Inv, DbOk, LeaseOk, InHand, NoEarlierResult, CleanedOnce, PendingIds;
    TickFacts(cfg, s, w);
    DropKeeps(cfg, s, w);
    var t := s.ticks[w];
    if s.db.conts[t.cid].owner == Some(w) {
      OwnToken(s.db, w, t);
      StageKeeps(cfg, s, w, t.(stage := Writing(t.stage.op, s.db.conts[t.cid])));
    }
  }

  lemma ExecuteKeeps(cfg: Config, s: Sys, w: Worker, result: CapabilityResult)
    requires Inv(cfg, s)
    ensures Inv(cfg, Next(cfg, s, Executing(w, result)))
  {
    hide DbOk, LeaseOk, InHand, NoEarlierResult;
    if w in s.ticks && s.ticks[w].stage.Poised? {
      TickFacts(cfg, s, w);
      var t := s.ticks[w];
      StageKeeps(cfg, s, w, t.(stage := Ran(t.stage.did, t.stage.decision, result)));
    }
  }

  lemma AssessKeeps(cfg: Config, s: Sys, w: Worker, v: Verification)
    requires Inv(cfg, s)
    ensures Inv(cfg, Next(cfg, s, Assessing(w, v)))
  {
    hide Inv, DbOk, LeaseOk, InHand, NoEarlierResult;
    if w in s.ticks && s.ticks[w].stage.Assaying? {
      TickFacts(cfg, s, w);
      var t := s.ticks[w];
      StageKeeps(cfg, s, w, t.(stage := Assayed(t.stage.did, t.stage.decision, v)));
    }
  }

  // ---- steps of a tick that write ----

  lemma RefreshKeeps(cfg: Config, s: Sys, w: Worker, lease: int, now: Time)
    requires Inv(cfg, s) && w in s.ticks
    ensures Inv(cfg, Refresh(s, w, lease, now))
  {
    hide Inv, DbOk, LeaseOk, InHand, NoEarlierResult, Renew;
    var t := s.ticks[w];
    var call := DoRenew(t.cid, w, TokenOf(t.row), lease, false, now);
    DropKeeps(cfg, s, w);
    if Refreshed(t.stage).Some? && Renew(s.db, t.cid, w, TokenOf(t.row), lease, false, now).Committed? {
      OthersKeep(cfg, s, call);
      var after := s.(db := Performed(s.db, call));
      TickFacts(cfg, after, w);
      StageKeeps(cfg, after, w, t.(stage := Refreshed(t.stage).value));
    }
  }

  lemma CallsUnderOwnToken(cfg: Config, s: Sys, w: Worker, i: Inputs)
    requires Inv(cfg, s) && w in s.ticks && s.ticks[w].stage.Writing?
    ensures var t := s.ticks[w]; MadeBy(s, CallFor(cfg, w, t.cid, t.stage.op, t.stage.seen, i), Some(w))
  {
    hide Inv, DbOk, LeaseOk, OpOk, HeldOk;
    TickFacts(cfg, s, w);
  }

  lemma CallsFairly(cfg: Config, s: Sys, w: Worker, i: Inputs)
    requires Inv(cfg, s) && w in s.ticks && s.ticks[w].stage.Writing?
    ensures var t := s.ticks[w]; Fair(cfg, s.db, CallFor(cfg, w, t.cid, t.stage.op, t.stage.seen, i))
  {
    hide Inv, DbOk, LeaseOk, InHand, NoEarlierResult, CleanedOnce, PendingIds, MayRun, Settle;
    TickFacts(cfg, s, w);
    var t := s.ticks[w];
    match t.stage.op {
      case Judge(_, d, v) => SettlementMeans(cfg, t.stage.seen, d, v, i.now);
      case _ =>
    }
  }

  lemma ReserveKeyedReply(db: Db, c: Id, w: Worker, t: Token, v: nat, capability: Option<string>, payload: Payload,
                          key: string, did: Id, now: Time, o: Outcome)
    requires o == ReserveKeyed(db, c, w, t, v, capability, payload, key, did, now)
    ensures o.Committed? ==>
      && HeldBy(db, c, w, t, v, now) && o.reply.Reservation? && o.reply.did in o.db.decs
      && (if o.reply.created then o.reply.did == did && ReserveWrote(db, c, w, t, v, capability, payload, key, did, now, o.db)
          else o.db == db && db.decs[o.reply.did].cid == c)
    ensures o == RolledBack(AttemptBudgetExceeded) ==> c in db.conts && db.conts[c].attempts >= db.conts[c].maxAttempts
  {
  }

  lemma ReserveReply(db: Db, c: Id, w: Worker, t: Token, v: nat, d: Decision, digest: string, did: Id, now: Time,
                     o: Outcome)
    requires o == Reserve(db, c, w, t, v, d, digest, did, now)
    ensures o.Committed? ==>
      && HeldBy(db, c, w, t, v, now) && o.reply.Reservation? && o.reply.did in o.db.decs
      && (if o.reply.created then
            && o.reply.did == did && did !in db.decs && Normalized(d).Success?
            && Logged(db, o.db, c, db.conts[c].(version := v + 1, attempts := db.conts[c].attempts + 1),
                      DecisionReserved(did, ReservationKey(Normalized(d).value, digest), Normalized(d).value.capability))
            && var row := o.db.decs[did];
            && row.cid == c && row.kind == EXECUTE && row.status == RESERVED
            && row.capability == Normalized(d).value.capability
            && StoredWork(row.payload) == WorkOf(Normalized(d).value)
            && row.key == ReservationKey(Normalized(d).value, digest)
          else o.db == db && db.decs[o.reply.did].cid == c)
    ensures o == RolledBack(AttemptBudgetExceeded) ==> c in db.conts && db.conts[c].attempts >= db.conts[c].maxAttempts
  {
    hide ReserveKeyed, AsDict, HoldsKey, HeldBy, Normalized;
    if Normalized(d).Success? && Normalized(d).value.kind == Enum(EXECUTE) {
      var item := Normalized(d).value;
      CleanedKind(d);
      CleanWork(d);
      WrittenExactly(item);
      ReserveKeyedReply(db, c, w, t, v, item.capability, ReservedPayload(item, digest), ReservationKey(item, digest), did,
                        now, o);
    }
  }

  /** Where a committed reservation leaves its tick: the decision is new, or it has been judged already. */
  lemma BookedGoesOn(cfg: Config, db: Db, w: Worker, t: Tick, item: Decision, seen: Continuation, i: Inputs,
                     o: Outcome)
    requires DbOk(cfg, db) && StageOk(cfg, db, t) && t.stage == Writing(Book(item), seen) && t.since < |db.log|
    requires o == Perform(db, CallFor(cfg, w, t.cid, t.stage.op, seen, i)) && o.Committed?
    requires t.row.token.Some? && (Holding(db, t) ==> HeldOk(db, t))
    ensures o.reply.Reservation? && o.reply.did in o.db.decs && t.cid in o.db.conts
    ensures !o.reply.created ==> o.db.decs[o.reply.did].status == VERIFIED
    ensures o.reply.created ==>
      var go := t.(stage := Writing(Begin(o.reply.did, item), o.db.conts[t.cid]));
      && o.db.decs[o.reply.did].status == RESERVED && StageOk(cfg, o.db, go) && HeldOk(o.db, go)
  {
    hide Sound, OnePending, VerifyingHasResult, EndingsEarned, AllStoredOk, Normalized, ReservationKey, Reserve, MayRun,
         KeyFits;
    ReservedKeyFits(item, i.digest);
    ReserveReply(db, t.cid, w, TokenOf(seen), seen.version, item, i.digest, i.did, i.now, o);
    assert Holding(db, t);
    var did := o.reply.did;
    if o.reply.created {
      forall j ensures !ResultAt(o.db.log, j, did) {
        if 0 <= j < |db.log| { assert o.db.log[j] == o.db.log[..|db.log|][j]; assert !ResultAt(db.log, j, did); }
      }
    } else {
      assert did !in PendingIds(db.decs, t.cid);
    }
  }

  lemma BegunGoesOn(cfg: Config, db: Db, w: Worker, t: Tick, did: Id, d: Decision, seen: Continuation, i: Inputs,
                    o: Outcome)
    requires o.Committed? && DbOk(cfg, db) && StageOk(cfg, o.db, t) && t.stage == Writing(Begin(did, d), seen)
    requires o == Perform(db, CallFor(cfg, w, t.cid, t.stage.op, seen, i))
    ensures StageOk(cfg, o.db, t.(stage := Armed(did, d))) && HeldOk(o.db, t.(stage := Armed(did, d)))
  {
    hide DbOk, MayRun;
  }

  lemma KeptGoesOn(cfg: Config, db: Db, w: Worker, t: Tick, did: Id, d: Decision, result: CapabilityResult,
                   seen: Continuation, i: Inputs, o: Outcome)
    requires o.Committed? && StageOk(cfg, o.db, t) && t.stage == Writing(Keep(did, d, result), seen)
    requires o == Perform(db, CallFor(cfg, w, t.cid, t.stage.op, seen, i))
    ensures StageOk(cfg, o.db, t.(stage := Reviewing(did, d))) && HeldOk(o.db, t.(stage := Reviewing(did, d)))
  {
    hide MayRun;
  }

  lemma OnlyBookingsSpend(cfg: Config, db: Db, w: Worker, t: Tick, seen: Continuation, op: Op, i: Inputs)
    requires Perform(db, CallFor(cfg, w, t.cid, op, seen, i)) == RolledBack(AttemptBudgetExceeded)
    ensures t.cid in db.conts && db.conts[t.cid].attempts >= db.conts[t.cid].maxAttempts
  {
    hide Reserve, Normalized, AsDict, Settle, HoldsKey;
    match op {
      case Book(item) =>
        ReserveReply(db, t.cid, w, TokenOf(seen), seen.version, item, i.digest, i.did, i.now,
                     Reserve(db, t.cid, w, TokenOf(seen), seen.version, item, i.digest, i.did, i.now));
      case _ =>
    }
  }

  lemma CommitKeeps(cfg: Config, s: Sys, w: Worker, i: Inputs)
    requires Inv(cfg, s) && w in s.ticks && s.ticks[w].stage.Writing?
    ensures Inv(cfg, Commit(cfg, s, w, i))
  {
    hide DbOk, LeaseOk, StageOk, HeldOk, RunOk, TickOk, Perform, CallFor, Evolves, Fair;
    var t := s.ticks[w];
    var call := CallFor(cfg, w, t.cid, t.stage.op, t.stage.seen, i);
    var o := Perform(s.db, call);
    if o.RolledBack? {
      if o.err == AttemptBudgetExceeded { OnlyBookingsSpend(cfg, s.db, w, t, t.stage.seen, t.stage.op, i); }
      FailedKeeps(cfg, s, w, o.err);
    } else {
      CallsUnderOwnToken(cfg, s, w, i);
      CallsFairly(cfg, s, w, i);
      TickFacts(cfg, s, w);
      NotAClaim(cfg, w, t.cid, t.stage.op, t.stage.seen, i);
      WorldMoves(cfg, s, call, Some(w));
      Dropped(cfg, s, o.db, w);
      match t.stage.op {
        case Book(item) =>
          BookedGoesOn(cfg, s.db, w, t, item, t.stage.seen, i, o);
          if o.reply.created {
            GoesOn(cfg, s, o.db, w, t.(stage := Writing(Begin(o.reply.did, item), o.db.conts[t.cid])));
          }
        case Begin(did, d) =>
          BegunGoesOn(cfg, s.db, w, t, did, d, t.stage.seen, i, o);
          GoesOn(cfg, s, o.db, w, t.(stage := Armed(did, d)));
        case Keep(did, d, result) =>
          KeptGoesOn(cfg, s.db, w, t, did, d, result, t.stage.seen, i, o);
          GoesOn(cfg, s, o.db, w, t.(stage := Reviewing(did, d)));
        case _ =>
      }
    }
  }

  lemma NotAClaim(cfg: Config, w: Worker, c: Id, op: Op, seen: Continuation, i: Inputs)
    ensures var call := CallFor(cfg, w, c, op, seen, i);
            !call.DoClaim? && !call.DoRenew? && !call.DoRecover? && !call.DoCancel? && !call.DoAdmit?
  {
  }

  // ---- a step makes one call of the store, or none ----

  function StepCall(cfg: Config, s: Sys, step: Step): Option<Call> {
    match step
    case Admitting(c, m, actor, now) => Some(DoAdmit(c, m, actor, now))
    case Recovering(delay, now) => Some(DoRecover(delay, now))
    case Cancelling(c, actor, now) => Some(DoCancel(c, actor, now))
    case Renewing(c, w, t, lease, record, now) => Some(DoRenew(c, w, t, lease, record, now))
    case Claiming(w, c, token, lease, now) => Some(DoClaim(c, w, token, lease, now))
    case Refreshing(w, lease, now) =>
      if w in s.ticks then Some(DoRenew(s.ticks[w].cid, w, TokenOf(s.ticks[w].row), lease, false, now)) else None
    case Committing(w, i) =>
      if w in s.ticks && s.ticks[w].stage.Writing?
      then Some(CallFor(cfg, w, s.ticks[w].cid, s.ticks[w].stage.op, s.ticks[w].stage.seen, i)) else None
    case _ => None
  }

  lemma CommitPerforms(cfg: Config, s: Sys, w: Worker, i: Inputs)
    requires w in s.ticks && s.ticks[w].stage.Writing?
    ensures var call := CallFor(cfg, w, s.ticks[w].cid, s.ticks[w].stage.op, s.ticks[w].stage.seen, i);
            Commit(cfg, s, w, i).db == s.db || Commit(cfg, s, w, i).db == Performed(s.db, call)
  {
    hide Perform, CallFor;
  }

  lemma ClaimIsCall(cfg: Config, s: Sys, w: Worker, x: Id, token: Token, lease: int, now: Time)
    ensures var next := Next(cfg, s, Claiming(w, x, token, lease, now));
            next.db == s.db || next.db == Performed(s.db, DoClaim(x, w, token, lease, now))
  {
    hide Claim;
  }

  lemma RefreshIsCall(s: Sys, w: Worker, lease: int, now: Time)
    requires w in s.ticks
    ensures var call := DoRenew(s.ticks[w].cid, w, TokenOf(s.ticks[w].row), lease, false, now);
            Refresh(s, w, lease, now).db == s.db || Refresh(s, w, lease, now).db == Performed(s.db, call)
  {
    hide Renew;
  }

  /** Whatever a step does to the database, one call of the store does it. */
  lemma StepIsCall(cfg: Config, s: Sys, step: Step)
    ensures var next, call := Next(cfg, s, step).db, StepCall(cfg, s, step);
            next == s.db || (call.Some? && next == Performed(s.db, call.value))
  {
    hide Performed, Claim, Refresh, Commit, CallFor, FromDict, Binding, Normalized, Authorize, LatestPending,
         LatestEvidence;
    match step {
      case Claiming(w, x, token, lease, now) => ClaimIsCall(cfg, s, w, x, token, lease, now);
      case Refreshing(w, lease, now) => if w in s.ticks { RefreshIsCall(s, w, lease, now); }
      case Committing(w, i) => if w in s.ticks && s.ticks[w].stage.Writing? { CommitPerforms(cfg, s, w, i); }
      case _ =>
    }
  }

  // ---- all runs ----

  lemma NextKeeps(cfg: Config, s: Sys, step: Step)
    requires Inv(cfg, s)
    ensures Inv(cfg, Next(cfg, s, step))
  {
    hide Inv, Performed, LookUp, Budget, Plan, Raise, Reread, Commit, Refresh, Claim;
    match step {
      case Admitting(c, m, actor, now) => OthersKeep(cfg, s, DoAdmit(c, m, actor, now));
      case Recovering(delay, now) => OthersKeep(cfg, s, DoRecover(delay, now));
      case Cancelling(c, actor, now) => OthersKeep(cfg, s, DoCancel(c, actor, now));
      case Renewing(c, w, t, lease, record, now) => OthersKeep(cfg, s, DoRenew(c, w, t, lease, record, now));
      case Claiming(w, c, token, lease, now) => ClaimKeeps(cfg, s, w, c, token, lease, now);
      case Refreshing(w, lease, now) => if w in s.ticks { RefreshKeeps(cfg, s, w, lease, now); }
      case LookingUp(w) => if w in s.ticks && s.ticks[w].stage.Looking? { LookUpKeeps(cfg, s, w); }
      case Budgeted(w) => if w in s.ticks && s.ticks[w].stage.Budgeting? { BudgetKeeps(cfg, s, w); }
      case Planned(w, d) => if w in s.ticks && s.ticks[w].stage.Planning? { PlanKeeps(cfg, s, w, d); }
      case PlannerRaised(w, e) => if w in s.ticks && s.ticks[w].stage.Planning? { RaiseKeeps(cfg, s, w, e); }
      case Rereading(w) => if w in s.ticks && s.ticks[w].stage.Owning? { RereadKeeps(cfg, s, w); }
      case Committing(w, i) => if w in s.ticks && s.ticks[w].stage.Writing? { CommitKeeps(cfg, s, w, i); }
      case Executing(w, result) => ExecuteKeeps(cfg, s, w, result);
      case Assessing(w, v) => AssessKeeps(cfg, s, w, v);
      case Faulting(w) =>
        if w in s.ticks && !s.ticks[w].exiting {
          ExitKeeps(cfg, s, w, Conclude(SimpleDecision(WAIT, "internal_error", Some(cfg.retryBase))));
        }
      case Ending(w) => DropKeeps(cfg, s, w);
    }
  }

  /** The invariant holds after every sequence of steps, of any number of workers, in any interleaving. */
  lemma {:induction false} InvAlways(cfg: Config, steps: seq<Step>)
    ensures Inv(cfg, Reach(cfg, steps))
  {
    if steps == [] {
      StoreAlwaysSound([]);
      assert Inv(cfg, START);
    } else {
      InvAlways(cfg, steps[..|steps| - 1]);
      NextKeeps(cfg, Reach(cfg, steps[..|steps| - 1]), steps[|steps| - 1]);
    }
  }
}
