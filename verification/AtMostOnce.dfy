/** At most one call of a capability per decision, when the capability is not safe to replay. */
module AtMostOnce {
  import opened Wrappers
  import opened Models
  import opened Policy
  import opened Tables
  import opened Queries
  import opened Operations
  import opened Effects
  import opened Replay
  import opened StoreInvariants
  import opened StoreLaws
  import opened Runtime
  import opened RuntimeInvariants
  import opened RuntimeSteps

  /** The decision, if there is one, is for a registered capability that is not safe to replay. */
  predicate Unsafe(cfg: Config, db: Db, d: Id) {
    d in db.decs ==>
      && db.decs[d].capability.Some? && db.decs[d].capability.value in cfg.registry
      && !cfg.registry[db.decs[d].capability.value].replaySafe
  }

  predicate NotRun(runs: seq<Run>, d: Id) {
    forall i :: 0 <= i < |runs| ==> runs[i].did != d
  }

  predicate RunOnce(runs: seq<Run>, d: Id) {
    forall i, j :: 0 <= i < j < |runs| ==> runs[i].did != d || runs[j].did != d
  }

  /** The tick is on its way to call the capability of the decision. */
  predicate ToRun(db: Db, t: Tick, d: Id) {
    match t.stage
    case Poised(x, _) => x == d
    case Armed(x, _) => x == d && Holding(db, t)
    case Owning(op) => op.Begin? && op.did == d && Holding(db, t)
    case Writing(op, _) => op.Begin? && op.did == d && Holding(db, t)
    case _ => false
  }

  /** The tick has yet to learn of the decision. */
  predicate Early(stage: Stage) {
    stage.Entering? || stage.Looking?
  }

  /** Nothing keeps the next tick from running the decision. */
  predicate Open(db: Db, d: Id) {
    && Unfinished(db, d) && !db.decs[d].recovery
    && db.decs[d].cid in db.conts && !db.conts[db.decs[d].cid].state.Terminal()
  }

  predicate Quiet(s: Sys, d: Id) {
    NotRun(s.runs, d) && forall w :: w in s.ticks ==> !ToRun(s.db, s.ticks[w], d)
  }

  predicate OneRunner(s: Sys, d: Id) {
    forall w :: w in s.ticks && ToRun(s.db, s.ticks[w], d) ==>
      NotRun(s.runs, d) && forall v :: v in s.ticks && ToRun(s.db, s.ticks[v], d) ==> v == w
  }

  /** While the decision is open: unleased or barely looked at, it is quiet; and only the lease holder may run it. */
  predicate OpenOk(s: Sys, d: Id)
    requires Open(s.db, d)
  {
    var c := s.db.decs[d].cid;
    && (s.db.conts[c].token.None? ==> Quiet(s, d))
    && (forall w :: w in s.ticks && ToRun(s.db, s.ticks[w], d) ==> Holding(s.db, s.ticks[w]))
    && (forall w :: w in s.ticks && s.ticks[w].cid == c && Holding(s.db, s.ticks[w]) && Early(s.ticks[w].stage) ==>
          Quiet(s, d))
  }

  predicate OnceOk(s: Sys, d: Id) {
    RunOnce(s.runs, d) && OneRunner(s, d) && (Open(s.db, d) ==> OpenOk(s, d))
  }

  // ---- how a step may carry this over ----

  predicate NoNewRunners(s: Sys, next: Sys, d: Id) {
    forall w :: w in next.ticks && ToRun(next.db, next.ticks[w], d) ==>
      && w in s.ticks && ToRun(s.db, s.ticks[w], d)
      && (Holding(s.db, s.ticks[w]) && Open(next.db, d) ==> Holding(next.db, next.ticks[w]))
  }

  /** The decision was open before, under the same lease, and nobody has turned back to an early stage. */
  predicate StillOpen(s: Sys, next: Sys, d: Id)
    requires Open(next.db, d)
  {
    && Open(s.db, d) && next.db.decs[d].cid == s.db.decs[d].cid
    && var c := s.db.decs[d].cid;
    && next.db.conts[c].token == s.db.conts[c].token
    && (forall w :: w in next.ticks && next.ticks[w].cid == c && Holding(next.db, next.ticks[w]) && Early(next.ticks[w].stage)
          ==> w in s.ticks && s.ticks[w].cid == c && Holding(s.db, s.ticks[w]) && Early(s.ticks[w].stage))
  }

  lemma OnceCarries(s: Sys, next: Sys, d: Id)
    requires OnceOk(s, d) && NoNewRunners(s, next, d)
    requires RunOnce(next.runs, d) && (NotRun(s.runs, d) ==> NotRun(next.runs, d))
    requires Open(next.db, d) ==> Quiet(next, d) || StillOpen(s, next, d)
    ensures OnceOk(next, d)
  {
    hide ToRun, Early, Holding;
    if Quiet(s, d) { assert Quiet(next, d); }
  }

  /** A first runner appears, and he holds the lease. */
  lemma RunnerAppears(s: Sys, next: Sys, d: Id, w: Worker)
    requires Quiet(s, d) && next.runs == s.runs && TokensOk(next)
    requires w in next.ticks && Holding(next.db, next.ticks[w]) && !Early(next.ticks[w].stage)
    requires d in next.db.decs && next.ticks[w].cid == next.db.decs[d].cid
    requires forall v :: v in next.ticks && v != w ==> !ToRun(next.db, next.ticks[v], d)
    ensures OnceOk(next, d)
  {
    hide ToRun, Early;
  }

  /** The only runner calls the capability, and is a runner no more. */
  lemma RunnerRuns(s: Sys, next: Sys, d: Id, w: Worker, r: Run)
    requires OnceOk(s, d) && w in s.ticks && ToRun(s.db, s.ticks[w], d) && TokensOk(next)
    requires next.db == s.db && next.runs == s.runs + [r]
    requires w in next.ticks && next.ticks == s.ticks[w := next.ticks[w]]
    requires next.ticks[w].cid == s.ticks[w].cid && next.ticks[w].row == s.ticks[w].row && next.ticks[w].stage.Ran?
    requires d in s.db.decs && s.ticks[w].cid == s.db.decs[d].cid
    ensures OnceOk(next, d)
  {
    forall v | v in next.ticks ensures !ToRun(next.db, next.ticks[v], d) {}
    if Open(next.db, d) {
      assert Holding(s.db, s.ticks[w]);
      assert s.db.conts[s.ticks[w].cid].token.Some?;
    }
  }

  lemma ExecuteOnce(cfg: Config, s: Sys, w: Worker, result: CapabilityResult, d: Id)
    requires Inv(cfg, s) && OnceOk(s, d)
    ensures OnceOk(Next(cfg, s, Executing(w, result)), d)
  {
    hide DbOk, LeaseOk, NoEarlierResult, RunOk, CleanedOnce, HeldOk, Early, Unfinished, TokensOk, OnceOk, MayRun;
    if w in s.ticks && s.ticks[w].stage.Poised? {
      var next := Next(cfg, s, Executing(w, result));
      TickFacts(cfg, s, w);
      WorldStays(cfg, s, None);
      SameTokens(s, next, w);
      if s.ticks[w].stage.did == d {
        RunnerRuns(s, next, d, w, next.runs[|s.runs|]);
      } else {
        AnotherRuns(s, next, d, w);
      }
    }
  }

  lemma SameTokens(s: Sys, next: Sys, w: Worker)
    requires TokensOk(s) && w in s.ticks && w in next.ticks && next.ticks == s.ticks[w := next.ticks[w]]
    requires next.ticks[w].row == s.ticks[w].row && next.db == s.db && next.issued == s.issued
    ensures TokensOk(next)
  {
  }

  lemma AnotherRuns(s: Sys, next: Sys, d: Id, w: Worker)
    requires OnceOk(s, d) && w in s.ticks && next.db == s.db
    requires |next.runs| == |s.runs| + 1 && next.runs[..|s.runs|] == s.runs && next.runs[|s.runs|].did != d
    requires w in next.ticks && next.ticks == s.ticks[w := next.ticks[w]]
    requires next.ticks[w].cid == s.ticks[w].cid && next.ticks[w].row == s.ticks[w].row && next.ticks[w].stage.Ran?
    ensures OnceOk(next, d)
  {
    hide Holding;
    forall i | 0 <= i < |s.runs| ensures next.runs[i] == s.runs[i] { assert next.runs[i] == next.runs[..|s.runs|][i]; }
    assert NoNewRunners(s, next, d);
    OnceCarries(s, next, d);
  }

  // ---- recovery, cancellation, admission, renewal ----

  /** Of the leases dealt with so far, every unfinished decision has been flagged. */
  ghost predicate FlaggedSoFar(db: Db, now: Time, d: Db) {
    forall x :: x in db.decs && x in d.decs && Unfinished(db, x)
                && db.decs[x].cid in Expired(db.conts, now) && db.decs[x].cid !in Expired(d.conts, now)
                ==> d.decs[x].recovery
  }

  lemma FlagOne(db: Db, delay: int, now: Time, d: Db, c: Id)
    requires RecoveredSoFar(db, delay, now, d) && OnePending(db) && FlaggedSoFar(db, now, d)
             && c in Expired(d.conts, now)
    ensures FlaggedSoFar(db, now, RecoverOne(d, c, delay, now))
  {
    var next := RecoverOne(d, c, delay, now);
    forall x | x in db.decs && x in next.decs && Unfinished(db, x) && db.decs[x].cid in Expired(db.conts, now)
               && db.decs[x].cid !in Expired(next.conts, now)
      ensures next.decs[x].recovery
    {
      assert RecoveredDecision(db, now, db.decs[x], d.decs[x]);
      if db.decs[x].cid == c {
        assert x in PendingIds(d.decs, c);
        var latest := LatestPending(d.decs, c).value;
        assert latest in PendingIds(d.decs, c) && RecoveredDecision(db, now, db.decs[latest], d.decs[latest]);
        assert latest == x;
      }
    }
  }

  /** Recovery flags the unfinished decision of every lease that ran out. */
  lemma RecoveryFlags(db: Db, delay: int, now: Time, x: Id)
    requires OnePending(db) && Unfinished(db, x) && db.decs[x].cid in Expired(db.conts, now)
    ensures x in Recover(db, delay, now).decs && Recover(db, delay, now).decs[x].recovery
  {
    hide OnePending, Unfinished, RecoveredSoFar, FlaggedSoFar;
    RecoveredStart(db, delay, now);
    forall d: Db, c | RecoveredSoFar(db, delay, now, d) && FlaggedSoFar(db, now, d) && c in Expired(d.conts, now)
      ensures RecoveredSoFar(db, delay, now, RecoverOne(d, c, delay, now))
      ensures FlaggedSoFar(db, now, RecoverOne(d, c, delay, now))
    {
      RecoverOneSoFar(db, delay, now, d, c);
      FlagOne(db, delay, now, d, c);
    }
    RecoverKeeps(db, delay, now, (d: Db) => RecoveredSoFar(db, delay, now, d) && FlaggedSoFar(db, now, d));
    RecoverEmpties(db, delay, now);
    FlaggedAtEnd(db, delay, now, Recover(db, delay, now), x);
  }

  lemma RecoveredStart(db: Db, delay: int, now: Time)
    ensures RecoveredSoFar(db, delay, now, db) && FlaggedSoFar(db, now, db)
  {
  }

  lemma FlaggedAtEnd(db: Db, delay: int, now: Time, d: Db, x: Id)
    requires RecoveredSoFar(db, delay, now, d) && FlaggedSoFar(db, now, d) && Expired(d.conts, now) == {}
    requires Unfinished(db, x) && db.decs[x].cid in Expired(db.conts, now)
    ensures x in d.decs && d.decs[x].recovery
  {
  }

  /** The row of the decision keeps its lease, and the decision was open before. */
  predicate SameOpening(db: Db, next: Db, d: Id)
    requires Open(next, d)
  {
    && Open(db, d) && next.decs[d].cid == db.decs[d].cid
    && next.conts[db.decs[d].cid].token == db.conts[db.decs[d].cid].token
  }

  lemma {:induction false} RecoverOpen(db: Db, delay: int, now: Time, d: Id)
    requires OnePending(db) && LinksOk(db) && Open(Recover(db, delay, now), d)
    ensures SameOpening(db, Recover(db, delay, now), d)
  {
    hide OnePending, Recover;
    var next := Recover(db, delay, now);
    RecoverEffect(db, delay, now);
    assert RecoveredDecision(db, now, db.decs[d], next.decs[d]);
    assert DecisionOk(db, d);
    if db.decs[d].cid in Expired(db.conts, now) { RecoveryFlags(db, delay, now, d); }
    assert RecoveredRow(db, db.decs[d].cid, delay, now, next.conts[db.decs[d].cid]);
  }

  lemma EnvOpen(db: Db, call: Call, d: Id)
    requires call.DoAdmit? || call.DoRecover? || call.DoCancel? || call.DoRenew?
    requires OnePending(db) && LinksOk(db) && Open(Performed(db, call), d)
    ensures SameOpening(db, Performed(db, call), d)
  {
    hide OnePending, Recover, LinksOk, DecisionOk, RecoveredSoFar, Expired;
    EveryEffect(db, call);
    if call.DoRecover? { RecoverOpen(db, call.delay, call.now, d); }
    if call.DoAdmit? && d in db.decs { OpenLink(db, d); }
  }

  lemma OpenLink(db: Db, d: Id)
    requires LinksOk(db) && d in db.decs
    ensures db.decs[d].cid in db.conts
  {
    assert DecisionOk(db, d);
  }

  lemma RunnerCid(cfg: Config, s: Sys, w: Worker, d: Id)
    requires Inv(cfg, s) && w in s.ticks && ToRun(s.db, s.ticks[w], d)
    ensures d in s.db.decs && s.db.decs[d].cid == s.ticks[w].cid
  {
    hide DbOk, LeaseOk, NoEarlierResult, RunOk, CleanedOnce, HeldOk, MayRun, Inv;
    TickFacts(cfg, s, w);
  }

  lemma StillHolding(cfg: Config, s: Sys, call: Call, w: Worker)
    requires Inv(cfg, s) && w in s.ticks && RowsOk(Performed(s.db, call))
    requires Evolves(s.db, Performed(s.db, call), Presents(call), None)
    ensures Holding(Performed(s.db, call), s.ticks[w]) ==> Holding(s.db, s.ticks[w])
  {
    hide Inv, DbOk, LeaseOk, StageOk, HeldOk, Evolves, RowsOk, Holding;
    TickFacts(cfg, s, w);
    LeaseSurvives(s.db, Performed(s.db, call), Presents(call), None, w, s.ticks[w]);
  }

  lemma EnvOnce(cfg: Config, s: Sys, call: Call, d: Id)
    requires Inv(cfg, s) && OnceOk(s, d)
    requires call.DoAdmit? || call.DoRecover? || call.DoCancel? || call.DoRenew?
    ensures OnceOk(s.(db := Performed(s.db, call)), d)
  {
    hide Inv, DbOk, OnceOk, Performed, Evolves, RowsOk, Open, TokensOk, OthersOk, RunsOk, RowTokensIn, Quiet;
    var next := s.(db := Performed(s.db, call));
    WorldMoves(cfg, s, call, None);
    DbRows(cfg, next.db);
    forall w | w in s.ticks ensures Holding(next.db, s.ticks[w]) ==> Holding(s.db, s.ticks[w]) {
      StillHolding(cfg, s, call, w);
    }
    if Open(next.db, d) {
      DbLinks(cfg, s);
      EnvOpen(s.db, call, d);
    }
    forall w | w in s.ticks && ToRun(next.db, s.ticks[w], d) ensures d in s.db.decs && s.db.decs[d].cid == s.ticks[w].cid {
      RunnerCid(cfg, s, w, d);
    }
    EnvCarries(s, next, d);
  }

  lemma DbLinks(cfg: Config, s: Sys)
    requires Inv(cfg, s)
    ensures OnePending(s.db) && LinksOk(s.db)
  {
  }

  lemma EnvCarries(s: Sys, next: Sys, d: Id)
    requires OnceOk(s, d) && next == s.(db := next.db)
    requires forall w :: w in s.ticks ==> Holding(next.db, s.ticks[w]) ==> Holding(s.db, s.ticks[w])
    requires Open(next.db, d) ==> SameOpening(s.db, next.db, d)
    requires forall w :: w in s.ticks && ToRun(next.db, s.ticks[w], d) ==>
               d in s.db.decs && s.db.decs[d].cid == s.ticks[w].cid
    ensures OnceOk(next, d)
  {
    hide OneRunner, OpenOk, Early, Quiet;
    OnceCarries(s, next, d);
  }

  // ---- claims ----

  lemma ClaimOnce(cfg: Config, s: Sys, w: Worker, c: Id, token: Token, lease: int, now: Time, d: Id)
    requires Inv(cfg, s) && OnceOk(s, d)
    ensures OnceOk(Next(cfg, s, Claiming(w, c, token, lease, now)), d)
  {
    hide Inv, DbOk, OnceOk, Performed, Evolves, RowsOk, Open, TokensOk, OthersOk, RunsOk, RowTokensIn, Quiet, Claim,
         FirstDue;
    if w !in s.ticks && token !in s.issued && Claim(s.db, c, w, token, lease, now).Committed? {
      var next := Next(cfg, s, Claiming(w, c, token, lease, now));
      ClaimCommits(s.db, c, w, token, lease, now);
      DbLinks(cfg, s);
      WorldStays(cfg, s, None);
      FreshToken(s, token);
      DbRows(cfg, s.db);
      NeverDrawn(s, token);
      ClaimCarries(s, next, c, w, token, Later(now, lease), now, d);
    }
  }

  lemma ClaimCarries(s: Sys, next: Sys, c: Id, w: Worker, token: Token, expires: Time, now: Time, d: Id)
    requires OnceOk(s, d) && RowsOk(s.db) && Unheld(s.db, token) && LinksOk(s.db)
    requires ClaimWrote(s.db, c, w, token, expires, now, next.db) && next.runs == s.runs
    requires w !in s.ticks && w in next.ticks && next.ticks == s.ticks[w := next.ticks[w]]
    requires next.ticks[w].cid == c && next.ticks[w].stage == Entering
    requires forall v :: v in s.ticks ==> s.ticks[v].row.token != Some(token)
    ensures OnceOk(next, d)
  {
    hide OneRunner, RowsOk, LinksOk, Quiet, Early, Unheld;
    RowUnleased(s.db, c, now);
    forall v | v in s.ticks ensures Holding(next.db, s.ticks[v]) == Holding(s.db, s.ticks[v]) {}
    assert NoNewRunners(s, next, d);
    if Open(next.db, d) {
      assert Open(s.db, d);
      if s.db.decs[d].cid == c {
        ClaimedQuiet(s, next, d, w);
      } else {
        assert StillOpen(s, next, d);
      }
    }
    OnceCarries(s, next, d);
  }

  lemma ClaimedQuiet(s: Sys, next: Sys, d: Id, w: Worker)
    requires OnceOk(s, d) && Open(s.db, d) && s.db.conts[s.db.decs[d].cid].token.None?
    requires NoNewRunners(s, next, d) && next.runs == s.runs
    ensures Quiet(next, d)
  {
  }

  lemma NeverDrawn(s: Sys, token: Token)
    requires TokensOk(s) && token !in s.issued
    ensures forall v :: v in s.ticks ==> s.ticks[v].row.token != Some(token)
  {
  }

  lemma RowUnleased(db: Db, c: Id, now: Time)
    requires RowsOk(db) && c in db.conts && Due(db.conts[c], now)
    ensures db.conts[c].token.None?
  {
    assert RowOk(db.conts[c]);
  }

  // ---- steps of a tick that write nothing ----

  /** The tick holds the lease of the continuation that the open decision belongs to. */
  predicate HoldsOpen(s: Sys, d: Id, w: Worker)
    requires w in s.ticks
  {
    Open(s.db, d) && s.ticks[w].cid == s.db.decs[d].cid && Holding(s.db, s.ticks[w])
  }

  lemma TickTurns(s: Sys, w: Worker, t: Tick, d: Id)
    requires OnceOk(s, d) && w in s.ticks
    requires t == s.ticks[w].(stage := t.stage, exiting := t.exiting, told := t.told)
    requires ToRun(s.db, t, d) ==> ToRun(s.db, s.ticks[w], d)
    requires Early(t.stage) ==> Early(s.ticks[w].stage)
    ensures OnceOk(s.(ticks := s.ticks[w := t]), d)
  {
    hide OneRunner, OpenOk;
    OnceCarries(s, s.(ticks := s.ticks[w := t]), d);
  }

  lemma DropOnce(s: Sys, w: Worker, d: Id)
    requires OnceOk(s, d)
    ensures OnceOk(Drop(s, w), d)
  {
    hide OneRunner, OpenOk, Early;
    OnceCarries(s, Drop(s, w), d);
  }

  lemma ExitOnce(s: Sys, w: Worker, op: Op, d: Id)
    requires OnceOk(s, d) && w in s.ticks && (op.Conclude? || op.GiveUp?)
    ensures OnceOk(Exit(s, w, op), d)
  {
    hide OnceOk, Holding;
    TickTurns(s, w, s.ticks[w].(stage := Owning(op), exiting := true), d);
  }

  lemma FailedOnce(cfg: Config, s: Sys, w: Worker, e: Err, d: Id)
    requires OnceOk(s, d) && w in s.ticks
    ensures OnceOk(Failed(cfg, s, w, e), d)
  {
    hide OnceOk;
    DropOnce(s, w, d);
    ExitOnce(s, w, Conclude(SimpleDecision(BLOCK, "error", None)), d);
    ExitOnce(s, w, Conclude(SimpleDecision(WAIT, "internal_error", Some(cfg.retryBase))), d);
    ExitOnce(s, w, GiveUp("attempt budget exhausted"), d);
  }

  lemma RaiseOnce(cfg: Config, s: Sys, w: Worker, e: Err, d: Id)
    requires OnceOk(s, d) && w in s.ticks
    ensures OnceOk(Raise(cfg, s, w, e), d)
  {
    hide OnceOk, Failed, Holding, Early;
    var t := s.ticks[w].(told := e == AttemptBudgetExceeded);
    SameRunner(s.db, s.ticks[w], t, d);
    TickTurns(s, w, t, d);
    FailedOnce(cfg, s.(ticks := s.ticks[w := t]), w, e, d);
  }

  lemma SameRunner(db: Db, t: Tick, u: Tick, d: Id)
    requires u == t.(told := u.told)
    ensures ToRun(db, u, d) == ToRun(db, t, d)
  {
  }

  lemma TickActive(cfg: Config, s: Sys, w: Worker)
    requires Inv(cfg, s) && w in s.ticks && Holding(s.db, s.ticks[w])
    ensures s.db.conts[s.ticks[w].cid].state.Active()
  {
    assert RowOk(s.db.conts[s.ticks[w].cid]);
  }

  lemma LookUpOnce(cfg: Config, s: Sys, w: Worker, d: Id)
    requires Inv(cfg, s) && OnceOk(s, d) && w in s.ticks && s.ticks[w].stage.Looking? && Unsafe(cfg, s.db, d)
    ensures OnceOk(LookUp(cfg, s, w), d)
  {
    hide Inv, DbOk, LeaseOk, FromDict, SameButLease, PendingIds, OnceOk, Quiet, MayRun, StageOk, HeldOk,
         NoEarlierResult,
         TokensOk, RunsOk, OthersOk;
    TickFacts(cfg, s, w);
    WorldStays(cfg, s, None);
    var t := s.ticks[w];
    FailedOnce(cfg, s, w, PolicyDenied, d);
    FailedOnce(cfg, s, w, UnknownCommit, d);
    match LatestPending(s.db.decs, t.cid) {
      case None => TickTurns(s, w, t.(stage := if t.row.attempts >= t.row.maxAttempts then Budgeting else Planning), d);
      case Some(x) =>
        PendingFacts(cfg, s.db, t, x);
        var decision := FromDict(s.db.decs[x].payload).value;
        var go := if s.db.decs[x].status == EXECUTED then Reviewing(x, decision)
                  else if s.db.decs[x].status == RESERVED then Writing(Begin(x, decision), t.row)
                  else Armed(x, decision);
        if x != d || !ToRun(s.db, t.(stage := go), d) {
          TickTurns(s, w, t.(stage := go), d);
        } else if !s.db.decs[d].recovery {
          TickActive(cfg, s, w);
          FirstRunner(s, w, t.(stage := go), d);
        }
    }
  }

  lemma FirstRunner(s: Sys, w: Worker, t: Tick, d: Id)
    requires OnceOk(s, d) && TokensOk(s) && w in s.ticks && HoldsOpen(s, d, w) && Early(s.ticks[w].stage)
    requires t == s.ticks[w].(stage := t.stage) && !Early(t.stage)
    ensures OnceOk(s.(ticks := s.ticks[w := t]), d)
  {
    hide OnceOk, TokensOk, ToRun, Holding;
    var next := s.(ticks := s.ticks[w := t]);
    OpenIsQuiet(s, w, d);
    SameTokens(s, next, w);
    StillQuiet(s, next, w, d);
    StillHeld(s.db, s.ticks[w], t);
    RunnerAppears(s, next, d, w);
  }

  lemma StillHeld(db: Db, t: Tick, u: Tick)
    requires Holding(db, t) && u == t.(stage := u.stage)
    ensures Holding(db, u)
  {
  }

  lemma OpenIsQuiet(s: Sys, w: Worker, d: Id)
    requires OnceOk(s, d) && w in s.ticks && HoldsOpen(s, d, w) && Early(s.ticks[w].stage)
    ensures Quiet(s, d)
  {
  }

  lemma StillQuiet(s: Sys, next: Sys, w: Worker, d: Id)
    requires Quiet(s, d) && w in s.ticks && w in next.ticks && next.ticks == s.ticks[w := next.ticks[w]]
             && next.db == s.db
    ensures forall v :: v in next.ticks && v != w ==> !ToRun(next.db, next.ticks[v], d)
  {
  }

  lemma PlanOnce(cfg: Config, s: Sys, w: Worker, decision: Decision, d: Id)
    requires OnceOk(s, d) && w in s.ticks
    ensures OnceOk(Plan(cfg, s, w, decision), d)
  {
    hide OnceOk, Normalized, Binding, Authorize, Holding, Failed;
    FailedOnce(cfg, s, w, PolicyDenied, d);
    ExitOnce(s, w, Conclude(SimpleDecision(WAIT, "internal_error", Some(cfg.retryBase))), d);
    if Normalized(decision).Success? {
      var item := Normalized(decision).value;
      TickTurns(s, w, s.ticks[w].(stage := Owning(Conclude(item))), d);
      TickTurns(s, w, s.ticks[w].(stage := Owning(Book(item))), d);
    }
  }

  lemma BudgetOnce(s: Sys, w: Worker, d: Id)
    requires OnceOk(s, d) && w in s.ticks
    ensures OnceOk(Budget(s, w), d)
  {
    hide OnceOk, Holding;
    TickTurns(s, w, s.ticks[w].(stage := Planning), d);
    TickTurns(s, w, s.ticks[w].(stage := Owning(GiveUp("execution budget exhausted without PASS evidence"))), d);
  }

  lemma RereadOnce(cfg: Config, s: Sys, w: Worker, d: Id)
    requires Inv(cfg, s) && OnceOk(s, d) && w in s.ticks && s.ticks[w].stage.Owning?
    ensures OnceOk(Reread(s, w), d)
  {
    hide Inv, OnceOk, Quiet, Open;
    DropOnce(s, w, d);
    var t := s.ticks[w];
    if t.cid in s.db.conts { TickTurns(s, w, t.(stage := Writing(t.stage.op, s.db.conts[t.cid])), d); }
  }

  lemma AssessOnce(cfg: Config, s: Sys, w: Worker, v: Verification, d: Id)
    requires Inv(cfg, s) && OnceOk(s, d)
    ensures OnceOk(Next(cfg, s, Assessing(w, v)), d)
  {
    hide Inv, OnceOk, Quiet, Open, Holding;
    if w in s.ticks && s.ticks[w].stage.Assaying? {
      TickTurns(s, w, s.ticks[w].(stage := Assayed(s.ticks[w].stage.did, s.ticks[w].stage.decision, v)), d);
    }
  }

  lemma RenewedIsHeld(db: Db, t: Tick, w: Worker, lease: int, now: Time)
    requires t.row.token.Some? && Renew(db, t.cid, w, TokenOf(t.row), lease, false, now).Committed?
    ensures Holding(Performed(db, DoRenew(t.cid, w, TokenOf(t.row), lease, false, now)), t)
  {
  }

  lemma RefreshOnce(cfg: Config, s: Sys, w: Worker, lease: int, now: Time, d: Id)
    requires Inv(cfg, s) && OnceOk(s, d) && w in s.ticks
    ensures OnceOk(Refresh(s, w, lease, now), d)
  {
    hide Inv, OnceOk, Quiet, Open, DbOk, Renew, LeaseOk, StageOk, HeldOk, Holding;
    var t := s.ticks[w];
    var call := DoRenew(t.cid, w, TokenOf(t.row), lease, false, now);
    DropOnce(s, w, d);
    if Refreshed(t.stage).Some? && Renew(s.db, t.cid, w, TokenOf(t.row), lease, false, now).Committed? {
      EnvOnce(cfg, s, call, d);
      var after := s.(db := Performed(s.db, call));
      TickFacts(cfg, s, w);
      RenewedIsHeld(s.db, t, w, lease, now);
      TickTurns(after, w, t.(stage := Refreshed(t.stage).value), d);
    }
  }

  // ---- steps of a tick that write ----

  /** The calls a tick makes about its decision move it on; none of them opens a decision again. */
  lemma CallOpen(db: Db, call: Call, d: Id)
    requires call.DoReserve? || call.DoStart? || call.DoRecord? || call.DoVerdict?
    requires OnePending(db) && LinksOk(db) && d in db.decs && Open(Performed(db, call), d)
    ensures SameOpening(db, Performed(db, call), d)
  {
    hide Recover, DecisionOk, RecoveredSoFar, Expired, Normalized, AsDict, JudgedBy, Allowed, Performed, HoldsKey,
         LinksOk;
    EveryEffect(db, call);
    OpenLink(db, d);
  }

  lemma ActorCarries(s: Sys, next: Sys, w: Worker, d: Id)
    requires OnceOk(s, d) && w in s.ticks && next.runs == s.runs
    requires next.ticks.Keys <= s.ticks.Keys && (forall v :: v in next.ticks && v != w ==> next.ticks[v] == s.ticks[v])
    requires w in next.ticks ==>
      && next.ticks[w].cid == s.ticks[w].cid && next.ticks[w].row == s.ticks[w].row && !Early(next.ticks[w].stage)
      && (ToRun(next.db, next.ticks[w], d) ==> ToRun(s.db, s.ticks[w], d))
    requires forall v :: v in s.ticks ==> Holding(next.db, s.ticks[v]) ==> Holding(s.db, s.ticks[v])
    requires forall v :: v in s.ticks && ToRun(s.db, s.ticks[v], d) ==>
               d in s.db.decs && s.db.decs[d].cid == s.ticks[v].cid
    requires Open(next.db, d) ==> SameOpening(s.db, next.db, d) || Quiet(s, d)
    ensures OnceOk(next, d)
  {
    hide OneRunner, OpenOk, Early;
    forall v | v in next.ticks && v != w && ToRun(next.db, next.ticks[v], d) ensures ToRun(s.db, s.ticks[v], d) {
      assert Holding(next.db, s.ticks[v]) ==> Holding(s.db, s.ticks[v]);
    }
    OnceCarries(s, next, d);
  }

  /** The one write after which the bound is lost: a tick gives its continuation back to wait, while the decision it
      leaves open has been called. The internal-error exit gets there when the exception comes between the call and
      the storing of its result, and its write finds the lease still running. */
  ghost predicate Hazard(cfg: Config, s: Sys, step: Step, d: Id) {
    && step.Committing? && step.worker in s.ticks
    && var t := s.ticks[step.worker];
    && t.stage.Writing? && t.stage.op.Conclude? && KindOf(t.stage.op.decision.kind) == Some(WAIT)
    && Open(s.db, d) && s.db.decs[d].cid == t.cid && !NotRun(s.runs, d)
    && Perform(s.db, CallFor(cfg, step.worker, t.cid, t.stage.op, t.stage.seen, step.inputs)).Committed?
  }

  /** Nobody but the holder of the lease could be about to run an open decision. */
  lemma HolderIsAlone(cfg: Config, s: Sys, w: Worker, d: Id)
    requires Inv(cfg, s) && OnceOk(s, d) && w in s.ticks && HoldsOpen(s, d, w) && !ToRun(s.db, s.ticks[w], d)
    requires NotRun(s.runs, d)
    ensures Quiet(s, d)
  {
    hide Inv, ToRun;
    WorldStays(cfg, s, None);
    forall v | v in s.ticks ensures !ToRun(s.db, s.ticks[v], d) {
      if ToRun(s.db, s.ticks[v], d) {
        RunnerCid(cfg, s, v, d);
      }
    }
  }

  /** What giving back writes: nothing, or a row that waits without a lease, or one that has ended. */
  lemma GivenBackRow(cfg: Config, s: Sys, w: Worker, i: Inputs, d: Id)
    requires Inv(cfg, s) && w in s.ticks && s.ticks[w].stage.Writing? && d in s.db.decs
    requires s.ticks[w].stage.op.Conclude? || s.ticks[w].stage.op.GiveUp?
    ensures var t := s.ticks[w];
            var call := CallFor(cfg, w, t.cid, t.stage.op, t.stage.seen, i);
            var next := Performed(s.db, call);
            Open(next, d) ==>
              || SameOpening(s.db, next, d)
              || (t.stage.op.Conclude? && KindOf(t.stage.op.decision.kind) == Some(WAIT) && HoldsOpen(s, d, w)
                  && Perform(s.db, call).Committed?)
  {
    hide Inv, DbOk, LeaseOk, RecoveredSoFar, Normalized, AsDict, JudgedBy, Allowed, Performed, HoldsKey, WakeAfter,
         PassEvidence, HeldKnows, MayRun, Perform;
    var t := s.ticks[w];
    var call := CallFor(cfg, w, t.cid, t.stage.op, t.stage.seen, i);
    EveryEffect(s.db, call);
    TickFacts(cfg, s, w);
    DbLinks(cfg, s);
    OpenLink(s.db, d);
    if Performed(s.db, call) != s.db { ChangedMeansCommitted(s.db, call); }
    if t.stage.op.Conclude? && Normalized(t.stage.op.decision).Success? { CleanedKind(t.stage.op.decision); }
  }

  lemma ChangedMeansCommitted(db: Db, call: Call)
    requires Performed(db, call) != db
    ensures Perform(db, call).Committed?
  {
    hide Perform;
  }

  /** Giving the continuation back without a hazard leaves its decision quiet, or ends the continuation. */
  lemma ReleaseOpen(cfg: Config, s: Sys, w: Worker, i: Inputs, d: Id)
    requires Inv(cfg, s) && OnceOk(s, d) && w in s.ticks && s.ticks[w].stage.Writing? && d in s.db.decs
    requires s.ticks[w].stage.op.Conclude? || s.ticks[w].stage.op.GiveUp?
    requires !Hazard(cfg, s, Committing(w, i), d)
    ensures var next := Performed(s.db, CallFor(cfg, w, s.ticks[w].cid, s.ticks[w].stage.op, s.ticks[w].stage.seen, i));
            Open(next, d) ==> SameOpening(s.db, next, d) || Quiet(s, d)
  {
    hide Inv, OnceOk, Quiet, Performed, Perform, CallFor, SameOpening, KindOf;
    var next := Performed(s.db, CallFor(cfg, w, s.ticks[w].cid, s.ticks[w].stage.op, s.ticks[w].stage.seen, i));
    GivenBackRow(cfg, s, w, i, d);
    if Open(next, d) && !SameOpening(s.db, next, d) { HolderIsAlone(cfg, s, w, d); }
  }

  lemma NewDecisionIsQuiet(cfg: Config, s: Sys, d: Id)
    requires Inv(cfg, s) && d !in s.db.decs
    ensures Quiet(s, d)
  {
    hide DbOk, TickOk, LeaseOk;
    forall w | w in s.ticks ensures !ToRun(s.db, s.ticks[w], d) {
      if ToRun(s.db, s.ticks[w], d) { RunnerCid(cfg, s, w, d); }
    }
    forall j | 0 <= j < |s.runs| ensures s.runs[j].did != d { assert RunOk(cfg, s.db, s.runs[j]); }
  }

  /** What a committed call of a tick leaves for everybody's knowledge of one decision. */
  lemma CommittedFacts(cfg: Config, s: Sys, w: Worker, i: Inputs, d: Id)
    requires Inv(cfg, s) && OnceOk(s, d) && w in s.ticks && s.ticks[w].stage.Writing?
    requires !Hazard(cfg, s, Committing(w, i), d)
    ensures var next := Performed(s.db, CallFor(cfg, w, s.ticks[w].cid, s.ticks[w].stage.op, s.ticks[w].stage.seen, i));
            && (forall v :: v in s.ticks ==> Holding(next, s.ticks[v]) ==> Holding(s.db, s.ticks[v]))
            && (Open(next, d) && d in s.db.decs ==> SameOpening(s.db, next, d) || Quiet(s, d))
  {
    hide Inv, DbOk, LeaseOk, StageOk, HeldOk, Perform, Performed, Evolves, Fair, OnceOk, Open, SameOpening, Holding,
         Quiet, Settle;
    var t := s.ticks[w];
    var call := CallFor(cfg, w, t.cid, t.stage.op, t.stage.seen, i);
    var next := Performed(s.db, call);
    CallsUnderOwnToken(cfg, s, w, i);
    CallsFairly(cfg, s, w, i);
    NotAClaim(cfg, w, t.cid, t.stage.op, t.stage.seen, i);
    WorldMoves(cfg, s, call, Some(w));
    DbRows(cfg, next);
    forall v | v in s.ticks ensures Holding(next, s.ticks[v]) ==> Holding(s.db, s.ticks[v]) {
      StillHolding(cfg, s, call, v);
    }
    DbLinks(cfg, s);
    if Open(next, d) && d in s.db.decs {
      if t.stage.op.Conclude? || t.stage.op.GiveUp? { ReleaseOpen(cfg, s, w, i, d); } else { CallOpen(s.db, call, d); }
    }
  }

  lemma RunnersWork(cfg: Config, s: Sys, d: Id)
    requires Inv(cfg, s)
    ensures forall v :: v in s.ticks && ToRun(s.db, s.ticks[v], d) ==>
              d in s.db.decs && s.db.decs[d].cid == s.ticks[v].cid
  {
    hide Inv, ToRun;
    forall v | v in s.ticks && ToRun(s.db, s.ticks[v], d) ensures d in s.db.decs && s.db.decs[d].cid == s.ticks[v].cid {
      RunnerCid(cfg, s, v, d);
    }
  }

  /** The tick has just made a decision of its own, which nobody can have run. */
  lemma NewRunner(s: Sys, next: Sys, w: Worker, d: Id)
    requires Quiet(s, d) && next.runs == s.runs && TokensOk(next) && w in next.ticks
    requires next.ticks == s.ticks[w := next.ticks[w]] && next.ticks[w].stage.Writing? && next.ticks[w].stage.op.Begin?
    requires d in next.db.decs && next.ticks[w].cid == next.db.decs[d].cid && Holding(next.db, next.ticks[w])
    requires forall v :: v in s.ticks ==> Holding(next.db, s.ticks[v]) ==> Holding(s.db, s.ticks[v])
    ensures OnceOk(next, d)
  {
    hide OnceOk, TokensOk;
    forall v | v in next.ticks && v != w ensures !ToRun(next.db, next.ticks[v], d) {
      assert !ToRun(s.db, s.ticks[v], d);
    }
    RunnerAppears(s, next, d, w);
  }

  /** A committed reservation gives the tick a decision nobody had, or ends it. */
  lemma BookedShape(cfg: Config, s: Sys, w: Worker, i: Inputs, o: Outcome)
    requires Inv(cfg, s) && w in s.ticks && s.ticks[w].stage.Writing? && s.ticks[w].stage.op.Book?
    requires o == Perform(s.db, CallFor(cfg, w, s.ticks[w].cid, s.ticks[w].stage.op, s.ticks[w].stage.seen, i))
    requires o.Committed?
    ensures o.reply.Reservation? && s.ticks[w].cid in o.db.conts
    ensures !o.reply.created ==> Commit(cfg, s, w, i) == Drop(s, w)
    ensures o.reply.created ==>
      var t := s.ticks[w].(stage := Writing(Begin(o.reply.did, s.ticks[w].stage.op.decision), o.db.conts[s.ticks[w].cid]));
      && Commit(cfg, s, w, i) == s.(db := o.db, ticks := s.ticks[w := t]) && Holding(o.db, t)
      && o.reply.did !in s.db.decs && o.reply.did in o.db.decs && o.db.decs[o.reply.did].cid == t.cid
  {
    hide Inv, DbOk, LeaseOk, HeldOk, Reserve, InHand, CleanedOnce, MayRun, SameButLease;
    var t := s.ticks[w];
    TickFacts(cfg, s, w);
    BookedGoesOn(cfg, s.db, w, t, t.stage.op.decision, t.stage.seen, i, o);
    ReserveReply(s.db, t.cid, w, TokenOf(t.stage.seen), t.stage.seen.version, t.stage.op.decision, i.digest, i.did, i.now,
                 o);
  }

  lemma BookOnce(cfg: Config, s: Sys, w: Worker, i: Inputs, o: Outcome, d: Id)
    requires Inv(cfg, s) && OnceOk(s, d) && w in s.ticks && s.ticks[w].stage.Writing? && s.ticks[w].stage.op.Book?
    requires o == Perform(s.db, CallFor(cfg, w, s.ticks[w].cid, s.ticks[w].stage.op, s.ticks[w].stage.seen, i))
    requires o.Committed?
    ensures OnceOk(Commit(cfg, s, w, i), d)
  {
    hide Inv, OnceOk, Open, SameOpening, Quiet, ToRun, Holding, Perform, CallFor, Commit, TokensOk, DbOk, RunsOk,
         OthersOk,
         RowTokensIn;
    BookedShape(cfg, s, w, i, o);
    CommittedFacts(cfg, s, w, i, d);
    RunnersWork(cfg, s, d);
    CommitKeeps(cfg, s, w, i);
    var next := Commit(cfg, s, w, i);
    WorldStays(cfg, next, None);
    DropOnce(s, w, d);
    if o.reply.created {
      if d !in s.db.decs { NewDecisionIsQuiet(cfg, s, d); }
      if d == o.reply.did {
        NewRunner(s, next, w, d);
      } else {
        AnotherBegins(next.db, next.ticks[w], d);
        ActorCarries(s, next, w, d);
      }
    }
  }

  lemma AnotherBegins(db: Db, t: Tick, d: Id)
    requires t.stage.Writing? && t.stage.op.Begin? && t.stage.op.did != d
    ensures !ToRun(db, t, d)
  {
  }

  lemma CommitOnce(cfg: Config, s: Sys, w: Worker, i: Inputs, d: Id)
    requires Inv(cfg, s) && OnceOk(s, d) && w in s.ticks && s.ticks[w].stage.Writing?
    requires !Hazard(cfg, s, Committing(w, i), d)
    ensures OnceOk(Commit(cfg, s, w, i), d)
  {
    hide Inv, DbOk, LeaseOk, StageOk, HeldOk, Perform, CallFor, Evolves, OnceOk, Open, SameOpening, Quiet;
    var t := s.ticks[w];
    var o := Perform(s.db, CallFor(cfg, w, t.cid, t.stage.op, t.stage.seen, i));
    var next := Commit(cfg, s, w, i);
    if o.RolledBack? {
      FailedOnce(cfg, s, w, o.err, d);
    } else if t.stage.op.Book? {
      BookOnce(cfg, s, w, i, o, d);
    } else {
      TickFacts(cfg, s, w);
      CommittedFacts(cfg, s, w, i, d);
      RunnersWork(cfg, s, d);
      if d !in s.db.decs { NewDecisionIsQuiet(cfg, s, d); }
      if t.cid in o.db.conts { ActorCarries(s, next, w, d); }
    }
  }

  // ---- all runs ----

  lemma NextOnce(cfg: Config, s: Sys, step: Step, d: Id)
    requires Inv(cfg, s) && OnceOk(s, d) && Unsafe(cfg, s.db, d) && !Hazard(cfg, s, step, d)
    ensures OnceOk(Next(cfg, s, step), d)
  {
    hide Inv, OnceOk, Performed, LookUp, Budget, Plan, Raise, Reread, Commit, Refresh, Claim, Unsafe, Hazard;
    match step {
      case Admitting(c, m, actor, now) => EnvOnce(cfg, s, DoAdmit(c, m, actor, now), d);
      case Recovering(delay, now) => EnvOnce(cfg, s, DoRecover(delay, now), d);
      case Cancelling(c, actor, now) => EnvOnce(cfg, s, DoCancel(c, actor, now), d);
      case Renewing(c, w, t, lease, record, now) => EnvOnce(cfg, s, DoRenew(c, w, t, lease, record, now), d);
      case Claiming(w, c, token, lease, now) => ClaimOnce(cfg, s, w, c, token, lease, now, d);
      case Refreshing(w, lease, now) => if w in s.ticks { RefreshOnce(cfg, s, w, lease, now, d); }
      case LookingUp(w) => if w in s.ticks && s.ticks[w].stage.Looking? { LookUpOnce(cfg, s, w, d); }
      case Budgeted(w) => if w in s.ticks && s.ticks[w].stage.Budgeting? { BudgetOnce(s, w, d); }
      case Planned(w, x) => if w in s.ticks && s.ticks[w].stage.Planning? { PlanOnce(cfg, s, w, x, d); }
      case PlannerRaised(w, e) => if w in s.ticks && s.ticks[w].stage.Planning? { RaiseOnce(cfg, s, w, e, d); }
      case Rereading(w) => if w in s.ticks && s.ticks[w].stage.Owning? { RereadOnce(cfg, s, w, d); }
      case Committing(w, i) => if w in s.ticks && s.ticks[w].stage.Writing? { CommitOnce(cfg, s, w, i, d); }
      case Executing(w, result) => ExecuteOnce(cfg, s, w, result, d);
      case Assessing(w, v) => AssessOnce(cfg, s, w, v, d);
      case Faulting(w) =>
        if w in s.ticks && !s.ticks[w].exiting {
          ExitOnce(s, w, Conclude(SimpleDecision(WAIT, "internal_error", Some(cfg.retryBase))), d);
        }
      case Ending(w) => DropOnce(s, w, d);
    }
  }

  lemma NextGrows(cfg: Config, s: Sys, step: Step)
    ensures DecisionsGrow(s.db, Next(cfg, s, step).db)
    ensures var a, b := s.db.log, Next(cfg, s, step).db.log; |a| <= |b| && b[..|a|] == a
  {
    hide Next, Performed, StepCall, DecisionsGrow;
    NothingGrows(s.db);
    StepIsCall(cfg, s, step);
    if StepCall(cfg, s, step).Some? { CallGrowsDecisions(s.db, StepCall(cfg, s, step).value); }
  }

  lemma NothingGrows(db: Db)
    ensures DecisionsGrow(db, db)
  {
  }

  /** None of the steps is a hazard for the decision where it is taken. */
  ghost predicate HazardFree(cfg: Config, s: Sys, steps: seq<Step>, d: Id) {
    steps != [] ==>
      && HazardFree(cfg, s, steps[..|steps| - 1], d)
      && !Hazard(cfg, Onward(cfg, s, steps[..|steps| - 1]), steps[|steps| - 1], d)
  }

  lemma {:induction false} OnceOnward(cfg: Config, s: Sys, steps: seq<Step>, d: Id)
    requires Inv(cfg, s) && OnceOk(s, d) && Unsafe(cfg, Onward(cfg, s, steps).db, d) && HazardFree(cfg, s, steps, d)
    ensures Inv(cfg, Onward(cfg, s, steps)) && OnceOk(Onward(cfg, s, steps), d)
  {
    hide Next, Hazard, Inv, OnceOk;
    if steps != [] {
      var before, step := steps[..|steps| - 1], steps[|steps| - 1];
      NextGrows(cfg, Onward(cfg, s, before), step);
      OnceOnward(cfg, s, before, d);
      NextKeeps(cfg, Onward(cfg, s, before), step);
      NextOnce(cfg, Onward(cfg, s, before), step, d);
    }
  }

  /** Whatever the workers, crashes, lease losses, recoveries and cancellations, a capability that is not safe to
      replay is called at most once for a decision, as long as no hazard comes up for it. */
  lemma {:induction false} CalledAtMostOnce(cfg: Config, steps: seq<Step>, d: Id)
    requires Unsafe(cfg, Reach(cfg, steps).db, d) && HazardFree(cfg, START, steps, d)
    ensures OnceOk(Reach(cfg, steps), d) && RunOnce(Reach(cfg, steps).runs, d)
  {
    InvAlways(cfg, []);
    OnceOnward(cfg, START, steps, d);
  }
}
