/** The whole of an undisturbed tick: which ending each state of the continuation and each answer lead to. */
module Fates {
  import opened Wrappers
  import opened Models
  import opened Policy
  import opened Tables
  import opened Queries
  import opened Operations
  import opened Effects
  import Replay
  import opened StoreInvariants
  import opened Calls
  import opened Runtime
  import opened RuntimeInvariants
  import opened RuntimeSteps
  import opened Ticks
  import opened Outcomes
  import SecondCalls

  // ---- a decision other than EXECUTE ----

  /** The decision was applied to the row, which was let go. */
  ghost predicate Applied(db: Db, w: Worker, c: Id, item: Decision, i: Inputs, next: Db) {
    && Normalized(item).Success? && AsDict(Normalized(item).value).Success? && c in db.conts && c in next.conts
    && var n, r := Normalized(item).value, db.conts[c];
    && n.kind.Enum? && n.kind != Enum(EXECUTE) && Concluded(n, i.now, next.conts[c])
    && ApplyWrote(db, c, w, TokenOf(r), r.version, n, AsDict(n).value, i.did, KeyOr(item.key, i.didText), i.now, next)
  }

  /** The key that the decision would be kept under is free. */
  ghost predicate KeyFree(db: Db, item: Decision, i: Inputs) {
    forall o :: !HoldsKey(db.decs, KeyOr(item.key, i.didText), o)
  }

  predicate Shown(db: Db, c: Id, item: Decision) {
    KindOf(item.kind) == Some(FINISH) ==> PassEvidence(db.evid, item.evidenceId, c)
  }

  lemma AppliesNow(cfg: Config, s: Sys, w: Worker, a: Answers, item: Decision) returns (next: Db)
    requires Leased(s, w, a) && Normalized(item).Success? && KindOf(item.kind) != Some(EXECUTE)
    requires InputsOf(s, w, a).did !in s.db.decs
    ensures var i, c, o := InputsOf(s, w, a), s.ticks[w].cid, Written(cfg, s, w, a, Conclude(item));
            if !Shown(s.db, c, item) then o == RolledBack(VerificationRequired)
            else if !KeyFree(s.db, item, i) then o == RolledBack(IntegrityError)
            else o == Committed(next, Plain) && Applied(s.db, w, c, item, i, next)
  {
    hide Normalized, AsDict, KindOf, ApplyPlain, Concluded, KeyOr, PassEvidence, ApplyWrote;
    var i, c, r := InputsOf(s, w, a), s.ticks[w].cid, RowOf(s, w);
    next := After(s.db, Written(cfg, s, w, a, Conclude(item)));
    CleaningExactly(item);
    CleanedKind(item);
    AppliesPlain(cfg, s, w, a, item);
    ApplyExactly(s.db, c, w, TokenOf(r), r.version, item, i.did, i.didText, i.now);
    LeaseHolds(s, w, a);
  }

  lemma AppliesPlain(cfg: Config, s: Sys, w: Worker, a: Answers, item: Decision)
    requires Leased(s, w, a)
    ensures var i, c, r := InputsOf(s, w, a), s.ticks[w].cid, RowOf(s, w);
            Written(cfg, s, w, a, Conclude(item))
            == ApplyPlain(s.db, c, w, TokenOf(r), r.version, item, i.did, i.didText, i.now)
  {
    hide ApplyPlain;
  }

  // ---- an error leaves the calls of the tick ----

  /** Neither the id nor its text, as a key, is taken. */
  ghost predicate Free(db: Db, i: Inputs) {
    i.did !in db.decs && forall o :: !HoldsKey(db.decs, i.didText, o)
  }

  /** The row has been let go, in this state and until this time. */
  predicate Parked(next: Db, c: Id, state: State, wake: Option<Time>) {
    && c in next.conts && next.conts[c].state == state && next.conts[c].wake == wake
    && next.conts[c].owner.None? && next.conts[c].token.None? && next.conts[c].expires.None?
  }

  ghost predicate Blocks(db: Db, w: Worker, c: Id, a: Answers, next: Db) {
    Applied(db, w, c, BLOCKING, a.exit, next) && Parked(next, c, BLOCKED, None)
  }

  /** What each error comes to: nothing, a spent budget, a block that a person has to lift, or a wait. */
  ghost predicate FailsTo(cfg: Config, db: Db, w: Worker, c: Id, a: Answers, e: Err, next: Db) {
    match e
    case LeaseLost => next == db
    case ConcurrentUpdate => next == db
    case PolicyDenied => Blocks(db, w, c, a, next)
    case IdempotencyConflict => Blocks(db, w, c, a, next)
    case UnknownCommit => Blocks(db, w, c, a, next)
    case VerificationRequired => Blocks(db, w, c, a, next)
    case AttemptBudgetExceeded =>
      && c in db.conts
      && ExhaustWrote(db, c, w, TokenOf(db.conts[c]), db.conts[c].version, "attempt budget exhausted", a.exit.now, next)
    case _ =>
      Applied(db, w, c, Waiting(cfg), a.exit, next) && Parked(next, c, WAITING, Some(a.exit.now + cfg.retryBase))
  }

  /** An error exit ends the tick with its one write. */
  lemma ExitEnds(cfg: Config, s: Sys, w: Worker, a: Answers, item: Decision) returns (next: Db)
    requires Leased(s, w, a) && Free(s.db, a.exit) && (item == BLOCKING || item == Waiting(cfg))
    ensures Play(cfg, Exit(s, w, Conclude(item)), w, a, 2) == Drop(s.(db := next), w)
    ensures Applied(s.db, w, s.ticks[w].cid, item, a.exit, next)
    ensures if item == BLOCKING then Parked(next, s.ticks[w].cid, BLOCKED, None)
            else Parked(next, s.ticks[w].cid, WAITING, Some(a.exit.now + cfg.retryBase))
  {
    hide Play, Applied, AsDict, Normalized, Parked;
    BlockIsClean();
    SecondCalls.WaitIsClean(cfg);
    ExitKeys(s.db, cfg, item, a.exit);
    var q := Exit(s, w, Conclude(item));
    AtStage(q, w, a, Owning(Conclude(item)));
    next := AppliesNow(cfg, q, w, a, item);
    AppliedKeepsRow(s.db, w, s.ticks[w].cid, item, a.exit, next);
    ExitParks(cfg, s.db, w, s.ticks[w].cid, item, a, next);
    WritesLast(cfg, q, w, a, Conclude(item), next);
    assert Drop(q.(db := next), w).ticks == Drop(s.(db := next), w).ticks;
  }

  lemma ExitParks(cfg: Config, db: Db, w: Worker, c: Id, item: Decision, a: Answers, next: Db)
    requires Applied(db, w, c, item, a.exit, next) && (item == BLOCKING || item == Waiting(cfg))
    ensures if item == BLOCKING then Parked(next, c, BLOCKED, None)
            else Parked(next, c, WAITING, Some(a.exit.now + cfg.retryBase))
  {
    hide Normalized, AsDict;
    BlockIsClean();
    SecondCalls.WaitIsClean(cfg);
  }

  lemma ExitKeys(db: Db, cfg: Config, item: Decision, i: Inputs)
    requires Free(db, i) && (item == BLOCKING || item == Waiting(cfg))
    ensures KeyFree(db, item, i) && KindOf(item.kind) != Some(EXECUTE) && KindOf(item.kind) != Some(FINISH)
  {
  }

  lemma AppliedKeepsRow(db: Db, w: Worker, c: Id, item: Decision, i: Inputs, next: Db)
    requires Applied(db, w, c, item, i, next)
    ensures c in next.conts
  {
  }

  lemma GivesUp(cfg: Config, s: Sys, w: Worker, a: Answers, reason: string) returns (next: Db)
    requires Leased(s, w, a)
    ensures Play(cfg, WithStage(s, w, Owning(GiveUp(reason))), w, a, 2) == Drop(s.(db := next), w)
    ensures var c, r := s.ticks[w].cid, RowOf(s, w);
            ExhaustWrote(s.db, c, w, TokenOf(r), r.version, reason, InputsOf(s, w, a).now, next)
  {
    hide Play;
    var c, r := s.ticks[w].cid, RowOf(s, w);
    ExhaustExactly(s.db, c, w, TokenOf(r), r.version, reason, InputsOf(s, w, a).now);
    next := After(s.db, Written(cfg, s, w, a, GiveUp(reason)));
    WritesLast(cfg, s, w, a, GiveUp(reason), next);
  }

  lemma BudgetExitEnds(cfg: Config, s: Sys, w: Worker, a: Answers) returns (next: Db)
    requires Leased(s, w, a)
    ensures Play(cfg, Exit(s, w, GiveUp("attempt budget exhausted")), w, a, 2) == Drop(s.(db := next), w)
    ensures FailsTo(cfg, s.db, w, s.ticks[w].cid, a, AttemptBudgetExceeded, next)
  {
    hide Play, ExhaustWrote;
    var q := Exit(s, w, GiveUp("attempt budget exhausted"));
    AtStage(q, w, a, q.ticks[w].stage);
    next := GivesUp(cfg, q, w, a, "attempt budget exhausted");
    assert Drop(q.(db := next), w).ticks == Drop(s.(db := next), w).ticks;
  }

  lemma {:induction false} FailureEnds(cfg: Config, s: Sys, w: Worker, a: Answers, e: Err) returns (next: Db)
    requires w in s.ticks && Leased(s, w, a) && !s.ticks[w].exiting && Free(s.db, a.exit)
    ensures Play(cfg, Failed(cfg, s, w, e), w, a, 2) == Drop(s.(db := next), w)
    ensures FailsTo(cfg, s.db, w, s.ticks[w].cid, a, e, next)
  {
    hide Play, Applied, ExhaustWrote, Free, Parked, Leased;
    next := s.db;
    if e == LeaseLost || e == ConcurrentUpdate {
      PlayOver(cfg, Drop(s, w), w, a, 2);
    } else if e == AttemptBudgetExceeded {
      next := BudgetExitEnds(cfg, s, w, a);
    } else if e == PolicyDenied || e == IdempotencyConflict || e == UnknownCommit || e == VerificationRequired {
      next := ExitEnds(cfg, s, w, a, BLOCKING);
    } else {
      next := ExitEnds(cfg, s, w, a, Waiting(cfg));
    }
  }

  // ---- a decision is pending ----

  /** The decision is marked as started if need be; its capability is called once, and the result judged. */
  ghost predicate Ran(cfg: Config, db: Db, w: Worker, a: Answers, did: Id, terminal: bool, next: Db) {
    && did in db.decs && db.decs[did].cid in db.conts
    && var r := db.conts[db.decs[did].cid];
    if db.decs[did].status == EXECUTING then Carried(cfg, db, w, a, did, terminal, next) else
    exists mid :: StartWrote(db, did, w, TokenOf(r), r.version, a.inputs.now, mid)
                  && Carried(cfg, mid, w, a, did, terminal, next)
  }

  /** A pending decision with a result is judged without a call. One that recovery flagged and that must not be repeated
      blocks the continuation. Any other one is called, once. */
  ghost predicate Resumes(cfg: Config, s: Sys, w: Worker, a: Answers, did: Id, end: Sys)
    requires w in s.ticks
  {
    && did in s.db.decs && FromDict(s.db.decs[did].payload).Success?
    && var row, d := s.db.decs[did], FromDict(s.db.decs[did].payload).value;
    && Binding(cfg.registry, d).Some?
    && if row.status == EXECUTED then Judged(cfg, s.db, w, a, did, d.terminalOnPass, end.db) && end.runs == s.runs
       else if row.recovery && !Binding(cfg.registry, d).value.replaySafe
       then FailsTo(cfg, s.db, w, row.cid, a, UnknownCommit, end.db) && end.runs == s.runs
       else Ran(cfg, s.db, w, a, did, d.terminalOnPass, end.db) && end.runs == Called(s, w, did, d)
  }

  lemma PendingIsUnjudged(cfg: Config, s: Sys, w: Worker, a: Answers, did: Id)
    requires Inv(cfg, s) && w in s.ticks && did in PendingIds(s.db.decs, s.ticks[w].cid) && a.inputs.eid !in s.db.evid
    ensures Unjudged(s, w, a, did)
    ensures FromDict(s.db.decs[did].payload).Success?
    ensures Binding(cfg.registry, FromDict(s.db.decs[did].payload).value).Some?
  {
    hide TickOk, Replay.Agrees, TalliesOk, FromDict, Authorize, Binding;
    var db := s.db;
    assert DecisionOk(db, did);
    assert StoredOk(cfg, db.decs[did]);
    forall e | e in db.evid ensures EvidenceOk(db, e) {}
  }

  lemma {:induction false} ResumeEnds(cfg: Config, s: Sys, w: Worker, a: Answers, did: Id) returns (n: nat, end: Sys)
    requires Inv(cfg, s) && Leased(s, w, a) && !s.ticks[w].exiting && s.ticks[w].row == RowOf(s, w)
    requires s.ticks[w].stage.Looking? && LatestPending(s.db.decs, s.ticks[w].cid) == Some(did)
    requires Free(s.db, a.exit) && a.inputs.eid !in s.db.evid
    ensures end == Play(cfg, s, w, a, n) && end.ticks == s.ticks - {w} && Resumes(cfg, s, w, a, did, end)
  {
    hide Play, Inv, FromDict, Binding, Judged, Carried, StartWrote, Failed, Unjudged, Applied, Free;
    PendingIsUnjudged(cfg, s, w, a, did);
    var row, d := s.db.decs[did], FromDict(s.db.decs[did].payload).value;
    var looked := Next(cfg, s, LookingUp(w));
    if row.status == EXECUTED {
      PlayOn(cfg, s, w, a, 5);
      UnjudgedMeans(s, w, a, did);
      var next := ReviewEnds(cfg, s, w, a, did, d);
      n, end := 6, Drop(s.(db := next), w);
    } else if row.recovery && !Binding(cfg.registry, d).value.replaySafe {
      PlayOn(cfg, s, w, a, 2);
      var next := FailureEnds(cfg, s, w, a, UnknownCommit);
      n, end := 3, Drop(s.(db := next), w);
      UnjudgedMeans(s, w, a, did);
    } else if row.status == RESERVED {
      PlayOn(cfg, s, w, a, 11);
      UnjudgedMeans(s, w, a, did);
      var mid, next := StartEnds(cfg, s, w, a, did, d);
      n, end := 12, Drop(s.(db := next, runs := Called(s, w, did, d)), w);
    } else {
      PlayOn(cfg, s, w, a, 10);
      UnjudgedMeans(s, w, a, did);
      var next := RunEnds(cfg, s, w, a, did, d);
      n, end := 11, Drop(s.(db := next, runs := Called(s, w, did, d)), w);
    }
  }

  lemma UnjudgedMeans(s: Sys, w: Worker, a: Answers, did: Id)
    requires Unjudged(s, w, a, did)
    ensures w in s.ticks && did in s.db.decs && s.db.decs[did].cid == s.ticks[w].cid
  {
  }

  // ---- the planner's decision is booked ----

  /** What is kept of an EXECUTE decision, and the key it is kept under. */
  function Request(item: Decision, i: Inputs): Payload
    requires Normalized(item).Success? && AsDict(Normalized(item).value).Success?
  {
    AsDict(Normalized(item).value).value.(key := Some(KeyOr(item.key, i.digest)))
  }

  ghost predicate Booked(db: Db, w: Worker, c: Id, item: Decision, i: Inputs, next: Db) {
    && Normalized(item).Success? && AsDict(Normalized(item).value).Success? && c in db.conts
    && ReserveWrote(db, c, w, TokenOf(db.conts[c]), db.conts[c].version, Normalized(item).value.capability,
                    Request(item, i), KeyOr(item.key, i.digest), i.did, i.now, next)
  }

  /** The decision that has the key already is of this continuation and asks for the same. */
  predicate SameRequest(db: Db, c: Id, o: Id, item: Decision, i: Inputs)
    requires Normalized(item).Success? && AsDict(Normalized(item).value).Success?
  {
    o in db.decs && db.decs[o].cid == c && db.decs[o].payload == Request(item, i)
  }

  ghost predicate Unreserved(db: Db, item: Decision, i: Inputs) {
    forall o :: !HoldsKey(db.decs, KeyOr(item.key, i.digest), o)
  }

  lemma BooksNow(cfg: Config, s: Sys, w: Worker, a: Answers, item: Decision) returns (next: Db, o: Id)
    requires Sound(s.db) && Leased(s, w, a) && !s.ticks[w].exiting
    requires Normalized(item).Success? && KindOf(item.kind) == Some(EXECUTE) && a.inputs.did !in s.db.decs
    ensures AsDict(Normalized(item).value).Success?
    ensures var c, r, out := s.ticks[w].cid, RowOf(s, w), Written(cfg, s, w, a, Book(item));
            if Unreserved(s.db, item, a.inputs) then
              if r.attempts >= r.maxAttempts then out == RolledBack(AttemptBudgetExceeded)
              else out == Committed(next, Reservation(a.inputs.did, true)) && Booked(s.db, w, c, item, a.inputs, next)
            else
              && HoldsKey(s.db.decs, KeyOr(item.key, a.inputs.digest), o)
              && out == if SameRequest(s.db, c, o, item, a.inputs) then Committed(s.db, Reservation(o, false))
                        else RolledBack(IdempotencyConflict)
  {
    hide Sound, Normalized, AsDict, KindOf, Reserve, ReserveKeyed, ReserveWrote, KeyOr;
    var c, r, i := s.ticks[w].cid, RowOf(s, w), a.inputs;
    CleanedKind(item);
    OneHolderPerKey(s.db);
    ReserveExactly(s.db, c, w, TokenOf(r), r.version, item, i.digest, i.did, i.now);
    var key, n := KeyOr(item.key, i.digest), Normalized(item).value;
    assert Reserve(s.db, c, w, TokenOf(r), r.version, item, i.digest, i.did, i.now) != RolledBack(BadValue);
    ReserveKeyedExactly(s.db, c, w, TokenOf(r), r.version, n.capability, Request(item, i), key, i.did, i.now);
    LeaseHolds(s, w, a);
    BookReserves(cfg, s, w, a, item);
    next := After(s.db, Written(cfg, s, w, a, Book(item)));
    o := i.did;
    if !Unreserved(s.db, item, i) {
      o :| HoldsKey(s.db.decs, key, o);
    }
  }

  lemma BookReserves(cfg: Config, s: Sys, w: Worker, a: Answers, item: Decision)
    requires Leased(s, w, a) && !s.ticks[w].exiting
    ensures var i, c, r := a.inputs, s.ticks[w].cid, RowOf(s, w);
            Written(cfg, s, w, a, Book(item))
            == Reserve(s.db, c, w, TokenOf(r), r.version, item, i.digest, i.did, i.now)
  {
    hide Reserve;
  }

  /** A free key with attempts left: booked, started, called and judged. A free key without any: the budget is spent.
      A taken key: the same request again of this continuation is let be, any other one blocks it. */
  ghost predicate Books(cfg: Config, s: Sys, w: Worker, a: Answers, item: Decision, end: Sys)
    requires w in s.ticks
  {
    && Normalized(item).Success? && AsDict(Normalized(item).value).Success? && s.ticks[w].cid in s.db.conts
    && var c, r := s.ticks[w].cid, RowOf(s, w);
    if Unreserved(s.db, item, a.inputs) then
      if r.attempts >= r.maxAttempts
      then FailsTo(cfg, s.db, w, c, a, AttemptBudgetExceeded, end.db) && end.runs == s.runs
      else
        && end.runs == Called(s, w, a.inputs.did, item)
        && exists mid :: Booked(s.db, w, c, item, a.inputs, mid)
                         && Ran(cfg, mid, w, a, a.inputs.did, item.terminalOnPass, end.db)
    else
      && end.runs == s.runs
      && exists o :: HoldsKey(s.db.decs, KeyOr(item.key, a.inputs.digest), o)
                     && if SameRequest(s.db, c, o, item, a.inputs) then end.db == s.db
                        else FailsTo(cfg, s.db, w, c, a, IdempotencyConflict, end.db)
  }

  lemma BookedGoesOn(cfg: Config, s: Sys, w: Worker, a: Answers, item: Decision, mid: Db, n: nat)
    requires Sound(s.db) && Leased(s, w, a) && !s.ticks[w].exiting && a.inputs.eid !in s.db.evid
    requires Booked(s.db, w, s.ticks[w].cid, item, a.inputs, mid)
    requires Written(cfg, s, w, a, Book(item)) == Committed(mid, Reservation(a.inputs.did, true))
    ensures var next, did := s.(db := mid), a.inputs.did;
            && Leased(next, w, a) && Unjudged(next, w, a, did) && mid.decs[did].status == RESERVED
            && Play(cfg, WithStage(s, w, Owning(Book(item))), w, a, 2 + n)
            == Play(cfg, WithStage(next, w, Writing(Begin(did, item), RowOf(next, w))), w, a, n)
  {
    hide Play, Normalized, AsDict, Perform, CallFor, Replay.Agrees, RowsOk, TalliesOk, CountsOk;
    Rereads(cfg, s, w, a, Book(item), 1 + n);
    Commits(cfg, s, w, a, Book(item), RowOf(s, w), n);
    var q := WithStage(s, w, Writing(Book(item), RowOf(s, w)));
    AtStage(s, w, a, Writing(Book(item), RowOf(s, w)));
    assert q.(db := mid) == WithStage(s.(db := mid), w, Writing(Book(item), RowOf(s, w)));
    AtStage(s.(db := mid), w, a, Writing(Book(item), RowOf(s, w)));
    forall e | e in s.db.evid ensures EvidenceOk(s.db, e) {}
  }

  lemma BookedBefore(cfg: Config, s: Sys, w: Worker, a: Answers, item: Decision, o: Id)
    requires Leased(s, w, a) && !s.ticks[w].exiting && o in s.db.decs && s.db.decs[o].status == VERIFIED
    requires Written(cfg, s, w, a, Book(item)) == Committed(s.db, Reservation(o, false))
    ensures Play(cfg, WithStage(s, w, Owning(Book(item))), w, a, 2) == Drop(s, w)
  {
    hide Play, Perform, CallFor;
    Rereads(cfg, s, w, a, Book(item), 1);
    Commits(cfg, s, w, a, Book(item), RowOf(s, w), 0);
    AtStage(s, w, a, Writing(Book(item), RowOf(s, w)));
    PlayNothing(cfg, Drop(s, w), w, a);
  }

  lemma {:induction false} BookEnds(cfg: Config, s: Sys, w: Worker, a: Answers, item: Decision) returns (n: nat, end: Sys)
    requires Sound(s.db) && Leased(s, w, a) && !s.ticks[w].exiting && PendingIds(s.db.decs, s.ticks[w].cid) == {}
    requires Normalized(item).Success? && KindOf(item.kind) == Some(EXECUTE) && a.inputs.did !in s.db.decs
    requires Free(s.db, a.exit) && a.inputs.eid !in s.db.evid
    ensures end == Play(cfg, WithStage(s, w, Owning(Book(item))), w, a, n) && end.ticks == s.ticks - {w}
    ensures Books(cfg, s, w, a, item, end)
  {
    hide Play, Sound, Normalized, AsDict, KindOf, Booked, StartWrote, Carried, KeyOr, FailsTo, Failed, Written;
    var c, r, i, op := s.ticks[w].cid, RowOf(s, w), a.inputs, Book(item);
    var next, o := BooksNow(cfg, s, w, a, item);
    if Unreserved(s.db, item, i) && r.attempts < r.maxAttempts {
      BookedGoesOn(cfg, s, w, a, item, next, 11);
      var mid, last := StartEnds(cfg, s.(db := next), w, a, i.did, item);
      n, end := 13, Drop(s.(db := last, runs := Called(s, w, i.did, item)), w);
    } else if Unreserved(s.db, item, i) {
      n, end := BookFails(cfg, s, w, a, item, AttemptBudgetExceeded);
    } else if SameRequest(s.db, c, o, item, i) {
      assert o !in PendingIds(s.db.decs, c);
      BookedBefore(cfg, s, w, a, item, o);
      n, end := 2, Drop(s, w);
    } else {
      n, end := BookFails(cfg, s, w, a, item, IdempotencyConflict);
    }
  }

  lemma BookFails(cfg: Config, s: Sys, w: Worker, a: Answers, item: Decision, e: Err) returns (n: nat, end: Sys)
    requires Leased(s, w, a) && !s.ticks[w].exiting && Free(s.db, a.exit)
    requires Written(cfg, s, w, a, Book(item)) == RolledBack(e)
    ensures end == Play(cfg, WithStage(s, w, Owning(Book(item))), w, a, n) && end.ticks == s.ticks - {w}
    ensures end.runs == s.runs && FailsTo(cfg, s.db, w, s.ticks[w].cid, a, e, end.db)
  {
    hide Play, Perform, CallFor, FailsTo, Failed;
    WriteFails(cfg, s, w, a, Book(item), e, 2);
    AtStage(s, w, a, Owning(Book(item)));
    var q := WithStage(s, w, Owning(Book(item)));
    var next := FailureEnds(cfg, q, w, a, e);
    n, end := 4, Drop(q.(db := next), w);
  }

  // ---- the planner's answer ----

  ghost predicate Plans(cfg: Config, s: Sys, w: Worker, a: Answers, decision: Decision, end: Sys)
    requires w in s.ticks
  {
    var db, c := s.db, s.ticks[w].cid;
    if Normalized(decision).Failure? then FailsTo(cfg, db, w, c, a, BadValue, end.db) && end.runs == s.runs else
    var item := Normalized(decision).value;
    if item.kind == Enum(EXECUTE) then
      if MayRun(cfg.policy, cfg.registry, item) then Books(cfg, s, w, a, item, end)
      else FailsTo(cfg, db, w, c, a, PolicyDenied, end.db) && end.runs == s.runs
    else
      && end.runs == s.runs
      && if !Shown(db, c, item) then FailsTo(cfg, db, w, c, a, VerificationRequired, end.db)
         else if !KeyFree(db, item, a.inputs) then FailsTo(cfg, db, w, c, a, IntegrityError, end.db)
         else Applied(db, w, c, item, a.inputs, end.db)
  }

  lemma ConcludeEnds(cfg: Config, s: Sys, w: Worker, a: Answers, item: Decision) returns (n: nat, end: Sys)
    requires Leased(s, w, a) && !s.ticks[w].exiting && Free(s.db, a.exit) && a.inputs.did !in s.db.decs
    requires Normalized(item).Success? && KindOf(item.kind) != Some(EXECUTE)
    ensures end == Play(cfg, WithStage(s, w, Owning(Conclude(item))), w, a, n) && end.ticks == s.ticks - {w}
    ensures var db, c := s.db, s.ticks[w].cid;
            && end.runs == s.runs
            && if !Shown(db, c, item) then FailsTo(cfg, db, w, c, a, VerificationRequired, end.db)
               else if !KeyFree(db, item, a.inputs) then FailsTo(cfg, db, w, c, a, IntegrityError, end.db)
               else Applied(db, w, c, item, a.inputs, end.db)
  {
    hide Play, Normalized, KindOf, Shown, KeyFree, Applied, FailsTo, Failed, Written;
    var next := AppliesNow(cfg, s, w, a, item);
    var c, q := s.ticks[w].cid, WithStage(s, w, Owning(Conclude(item)));
    AtStage(s, w, a, Owning(Conclude(item)));
    if Shown(s.db, c, item) && KeyFree(s.db, item, a.inputs) {
      AppliedKeepsRow(s.db, w, c, item, a.inputs, next);
      WritesLast(cfg, s, w, a, Conclude(item), next);
      n, end := 2, Drop(s.(db := next), w);
    } else {
      var e := if Shown(s.db, c, item) then IntegrityError else VerificationRequired;
      WriteFails(cfg, s, w, a, Conclude(item), e, 2);
      next := FailureEnds(cfg, q, w, a, e);
      n, end := 4, Drop(q.(db := next), w);
    }
  }

  lemma PlanLeads(cfg: Config, s: Sys, w: Worker, decision: Decision)
    requires w in s.ticks && !s.ticks[w].exiting
    ensures Plan(cfg, s, w, decision) ==
      if Normalized(decision).Failure? then Failed(cfg, s, w, BadValue)
      else if Normalized(decision).value.kind != Enum(EXECUTE)
      then WithStage(s, w, Owning(Conclude(Normalized(decision).value)))
      else if MayRun(cfg.policy, cfg.registry, Normalized(decision).value)
      then WithStage(s, w, Owning(Book(Normalized(decision).value)))
      else Failed(cfg, s, w, PolicyDenied)
  {
    hide Normalized, Binding;
    if Normalized(decision).Success? {
      var item := Normalized(decision).value;
      CleanedKind(decision);
      NormalizingTwice(decision);
      if item.kind == Enum(EXECUTE) { CleanedKind(item); }
    }
  }

  lemma {:induction false} PlanEnds(cfg: Config, s: Sys, w: Worker, a: Answers, decision: Decision) returns (n: nat, end: Sys)
    requires Sound(s.db) && Leased(s, w, a) && !s.ticks[w].exiting && PendingIds(s.db.decs, s.ticks[w].cid) == {}
    requires Free(s.db, a.exit) && a.inputs.did !in s.db.decs && a.inputs.eid !in s.db.evid
    ensures end == Play(cfg, Plan(cfg, s, w, decision), w, a, n) && end.ticks == s.ticks - {w}
    ensures Plans(cfg, s, w, a, decision, end)
  {
    hide Play, Sound, Plan, Normalized, MayRun, Books, Shown, KeyFree, Applied, FailsTo, Failed, Free;
    PlanLeads(cfg, s, w, decision);
    if Normalized(decision).Failure? {
      var next := FailureEnds(cfg, s, w, a, BadValue);
      n, end := 2, Drop(s.(db := next), w);
    } else {
      var item := Normalized(decision).value;
      CleanedKind(decision);
      NormalizingTwice(decision);
      if item.kind != Enum(EXECUTE) {
        n, end := ConcludeEnds(cfg, s, w, a, item);
      } else if MayRun(cfg.policy, cfg.registry, item) {
        n, end := BookEnds(cfg, s, w, a, item);
      } else {
        var next := FailureEnds(cfg, s, w, a, PolicyDenied);
        n, end := 2, Drop(s.(db := next), w);
      }
    }
  }

  // ---- the whole tick ----

  /** The newest evidence of the continuation, by time and then by id, is a PASS. */
  ghost predicate NewestPasses(evid: map<Id, EvidenceRow>, c: Id) {
    exists e :: IsLast(EvidenceIds(evid, c), EvidenceAt(evid), e) && evid[e].verification.verdict == PASS
  }

  /** An error of the planner is handled, and its decision is carried out. */
  ghost predicate Asks(cfg: Config, s: Sys, w: Worker, a: Answers, end: Sys)
    requires w in s.ticks
  {
    if a.planned.Success? then Plans(cfg, s, w, a, a.planned.value, end)
    else FailsTo(cfg, s.db, w, s.ticks[w].cid, a, a.planned.error, end.db) && end.runs == s.runs
  }

  /** How the tick of a claimed continuation ends: a pending decision is resumed; without one, a budget that is spent and
      not crowned by a PASS ends the continuation; otherwise the planner is asked. */
  ghost predicate Fate(cfg: Config, s: Sys, w: Worker, a: Answers, end: Sys) {
    && w in s.ticks && s.ticks[w].cid in s.db.conts
    && var c, r := s.ticks[w].cid, RowOf(s, w);
    if PendingIds(s.db.decs, c) != {} then
      exists did :: PendingIds(s.db.decs, c) == {did} && Resumes(cfg, s, w, a, did, end)
    else if r.attempts >= r.maxAttempts && !NewestPasses(s.db.evid, c) then
      && ExhaustWrote(s.db, c, w, TokenOf(r), r.version, "execution budget exhausted without PASS evidence", a.inputs.now,
                      end.db)
      && end.runs == s.runs
    else Asks(cfg, s, w, a, end)
  }

  lemma NewestIsLatest(evid: map<Id, EvidenceRow>, c: Id)
    ensures NewestPasses(evid, c) <==>
      && LatestEvidence(evid, c).Some? && LatestEvidence(evid, c).value in evid
      && evid[LatestEvidence(evid, c).value].verification.verdict == PASS
    ensures LatestEvidence(evid, c).Some? ==> LatestEvidence(evid, c).value in evid
  {
    if LatestEvidence(evid, c).Some? { assert LatestEvidence(evid, c).value in EvidenceIds(evid, c); }
  }

  /** The ids a tick may draw are not taken. */
  ghost predicate FreshIds(db: Db, a: Answers) {
    a.inputs.did !in db.decs && a.inputs.eid !in db.evid && Free(db, a.exit)
  }

  lemma AskEnds(cfg: Config, s: Sys, w: Worker, a: Answers) returns (n: nat, end: Sys)
    requires Sound(s.db) && Leased(s, w, a) && !s.ticks[w].exiting && PendingIds(s.db.decs, s.ticks[w].cid) == {}
    requires FreshIds(s.db, a)
    ensures end == Play(cfg, WithStage(s, w, Planning), w, a, n) && end.ticks == s.ticks - {w}
    ensures Asks(cfg, s, w, a, end)
  {
    hide Play, Sound, Plan, Plans, FailsTo, Failed, Free;
    var q := WithStage(s, w, Planning);
    AtStage(s, w, a, Planning);
    if a.planned.Success? {
      n, end := PlanEnds(cfg, q, w, a, a.planned.value);
      PlayOn(cfg, q, w, a, n);
      PlansAlike(cfg, s, q, w, a, a.planned.value, end);
      n := 1 + n;
    } else {
      var told := q.(ticks := q.ticks[w := q.ticks[w].(told := a.planned.error == AttemptBudgetExceeded)]);
      AtStage(told, w, a, Planning);
      PlayOn(cfg, q, w, a, 2);
      ToldLeased(q, w, a, a.planned.error == AttemptBudgetExceeded);
      var next := FailureEnds(cfg, told, w, a, a.planned.error);
      n, end := 3, Drop(told.(db := next), w);
    }
  }

  lemma ToldLeased(s: Sys, w: Worker, a: Answers, told: bool)
    requires Leased(s, w, a)
    ensures Leased(s.(ticks := s.ticks[w := s.ticks[w].(told := told)]), w, a)
  {
  }

  /** The stage of the tick makes no difference to what is asked of its end. */
  lemma PlansAlike(cfg: Config, s: Sys, q: Sys, w: Worker, a: Answers, decision: Decision, end: Sys)
    requires w in s.ticks && w in q.ticks && q.db == s.db && q.runs == s.runs
    requires q.ticks[w].cid == s.ticks[w].cid && q.ticks[w].since == s.ticks[w].since
    ensures Plans(cfg, s, w, a, decision, end) == Plans(cfg, q, w, a, decision, end)
  {
    hide Normalized, MayRun, Shown, KeyFree, Applied, FailsTo, Booked, Carried, Ran;
  }

  lemma ResumesAlike(cfg: Config, s: Sys, q: Sys, w: Worker, a: Answers, did: Id, end: Sys)
    requires w in s.ticks && w in q.ticks && q.db == s.db && q.runs == s.runs && q.ticks[w].since == s.ticks[w].since
    ensures Resumes(cfg, s, w, a, did, end) == Resumes(cfg, q, w, a, did, end)
  {
    hide FromDict, Binding, Judged, FailsTo, Ran;
  }

  lemma LooksOn(cfg: Config, s: Sys, w: Worker, a: Answers) returns (n: nat, end: Sys)
    requires Inv(cfg, s) && Leased(s, w, a) && !s.ticks[w].exiting && s.ticks[w].row == RowOf(s, w)
    requires s.ticks[w].stage.Looking? && FreshIds(s.db, a)
    ensures end == Play(cfg, s, w, a, n) && end.ticks == s.ticks - {w} && Fate(cfg, s, w, a, end)
  {
    hide Play, Inv, Asks, Resumes, ExhaustWrote, LatestPending, LatestEvidence, NewestPasses, Next, Free;
    var c := s.ticks[w].cid;
    InvSound(cfg, s);
    PendingIsLatest(s.db.decs, c);
    if PendingIds(s.db.decs, c) != {} {
      n, end := ResumeEnds(cfg, s, w, a, LatestPending(s.db.decs, c).value);
      OnlyOne(cfg, s, c, LatestPending(s.db.decs, c).value);
    } else {
      n, end := IdleEnds(cfg, s, w, a);
    }
  }

  lemma InvSound(cfg: Config, s: Sys)
    requires Inv(cfg, s)
    ensures Sound(s.db)
  {
  }

  lemma PendingIsLatest(decs: map<Id, DecisionRow>, c: Id)
    ensures LatestPending(decs, c).None? <==> PendingIds(decs, c) == {}
    ensures LatestPending(decs, c).Some? ==> LatestPending(decs, c).value in PendingIds(decs, c)
  {
  }

  lemma OnlyOne(cfg: Config, s: Sys, c: Id, did: Id)
    requires Inv(cfg, s) && did in PendingIds(s.db.decs, c)
    ensures PendingIds(s.db.decs, c) == {did}
  {
    hide Sound, TickOk, RunOk, TokensOk;
  }

  /** Nothing is pending: the budget is looked at, and the planner is asked unless it is spent. */
  lemma IdleEnds(cfg: Config, s: Sys, w: Worker, a: Answers) returns (n: nat, end: Sys)
    requires Sound(s.db) && Leased(s, w, a) && !s.ticks[w].exiting && s.ticks[w].row == RowOf(s, w)
    requires s.ticks[w].stage.Looking? && FreshIds(s.db, a) && PendingIds(s.db.decs, s.ticks[w].cid) == {}
    ensures end == Play(cfg, s, w, a, n) && end.ticks == s.ticks - {w} && Fate(cfg, s, w, a, end)
  {
    hide Play, Asks, Sound, ExhaustWrote, NewestPasses, FreshIds, WithStage;
    var c, r := s.ticks[w].cid, RowOf(s, w);
    if r.attempts < r.maxAttempts || NewestPasses(s.db.evid, c) {
      n, end := AskEnds(cfg, s, w, a);
      Budgets(cfg, s, w, a, n);
      LooksPast(cfg, s, w, a, if r.attempts < r.maxAttempts then n else 1 + n);
      n := if r.attempts < r.maxAttempts then 1 + n else 2 + n;
    } else {
      var next := GivesUp(cfg, s, w, a, "execution budget exhausted without PASS evidence");
      Budgets(cfg, s, w, a, 2);
      LooksPast(cfg, s, w, a, 3);
      n, end := 4, Drop(s.(db := next), w);
    }
  }

  lemma LooksPast(cfg: Config, s: Sys, w: Worker, a: Answers, n: nat)
    requires Leased(s, w, a) && !s.ticks[w].exiting && s.ticks[w].row == RowOf(s, w)
    requires s.ticks[w].stage.Looking? && PendingIds(s.db.decs, s.ticks[w].cid) == {}
    ensures Play(cfg, s, w, a, 1 + n)
         == Play(cfg, WithStage(s, w, if RowOf(s, w).attempts < RowOf(s, w).maxAttempts then Planning else Budgeting),
                 w, a, n)
  {
    hide Play;
    PlayOn(cfg, s, w, a, n);
  }

  lemma BudgetLeads(s: Sys, w: Worker)
    requires w in s.ticks
    ensures Budget(s, w) == WithStage(s, w, if NewestPasses(s.db.evid, s.ticks[w].cid) then Planning else
                                            Owning(GiveUp("execution budget exhausted without PASS evidence")))
  {
    hide NewestPasses, LatestEvidence;
    NewestIsLatest(s.db.evid, s.ticks[w].cid);
  }

  lemma Budgets(cfg: Config, s: Sys, w: Worker, a: Answers, n: nat)
    requires Leased(s, w, a)
    ensures Play(cfg, WithStage(s, w, Budgeting), w, a, 1 + n)
         == Play(cfg, WithStage(s, w, if NewestPasses(s.db.evid, s.ticks[w].cid) then Planning else
                                      Owning(GiveUp("execution budget exhausted without PASS evidence"))), w, a, n)
  {
    hide Play, NewestPasses, Budget;
    AtStage(s, w, a, Budgeting);
    var q := WithStage(s, w, Budgeting);
    PlayOn(cfg, q, w, a, n);
    BudgetLeads(q, w);
    var stage := if NewestPasses(s.db.evid, s.ticks[w].cid) then Planning else
                 Owning(GiveUp("execution budget exhausted without PASS evidence"));
    assert Budget(q, w) == WithStage(q, w, stage) == WithStage(s, w, stage);
  }

  /** A tick whose lease lasts, and that nobody disturbs, ends; and it ends as the table of fates says. */
  lemma {:induction false} TickEnds(cfg: Config, s: Sys, w: Worker, a: Answers) returns (n: nat, end: Sys)
    requires Inv(cfg, s) && Leased(s, w, a) && !s.ticks[w].exiting && s.ticks[w].row == RowOf(s, w)
    requires s.ticks[w].stage.Entering? && FreshIds(s.db, a)
    ensures end == Play(cfg, s, w, a, n) && end.ticks == s.ticks - {w} && Fate(cfg, s, w, a, end)
  {
    hide Play, Inv, Fate, FreshIds;
    var q := WithStage(s, w, Looking);
    AtStage(s, w, a, Entering);
    AtStage(s, w, a, Looking);
    Renews(cfg, s, w, a, Entering, 0);
    PlayNothing(cfg, q, w, a);
    PlayOne(cfg, s, w, a);
    NextKeeps(cfg, s, Ticks.Move(s, w, a));
    n, end := LooksOn(cfg, q, w, a);
    Renews(cfg, s, w, a, Entering, n);
    n := 1 + n;
    FatesAlike(cfg, s, q, w, a, end);
  }

  lemma FatesAlike(cfg: Config, s: Sys, q: Sys, w: Worker, a: Answers, end: Sys)
    requires w in s.ticks && w in q.ticks && q.db == s.db && q.runs == s.runs
    requires q.ticks[w].cid == s.ticks[w].cid && q.ticks[w].since == s.ticks[w].since
    requires Fate(cfg, q, w, a, end)
    ensures Fate(cfg, s, w, a, end)
  {
    hide Resumes, Plans, FailsTo, ExhaustWrote, NewestPasses;
    forall did ensures Resumes(cfg, s, w, a, did, end) == Resumes(cfg, q, w, a, did, end) {
      ResumesAlike(cfg, s, q, w, a, did, end);
    }
    if a.planned.Success? { PlansAlike(cfg, s, q, w, a, a.planned.value, end); }
  }

  /** What `run_once` leaves behind when it claims a continuation for a lease that lasts: the ending that the table of
      fates says. */
  lemma {:induction false} PlayedTickEnds(cfg: Config, s: Sys, db: Db, w: Worker, token: Token, a: Answers, c: Id,
                                           begun: Sys, end: Sys, claimed: Result<Option<Id>, Err>)
    requires Inv(cfg, begun) && Begins(s, db, w, token, a, c, begun) && Played(cfg, begun, w, a, c, end, claimed)
    requires a.lease > 0 && a.inputs.now < a.now + a.lease && a.exit.now < a.now + a.lease
    requires FreshIds(begun.db, a)
    ensures end.ticks == begun.ticks - {w} && Fate(cfg, begun, w, a, end)
  {
    hide Play, Inv, Fate, FreshIds, FirstDue, ClashesAt;
    var n, last := TickEnds(cfg, begun, w, a);
    var m: nat :| end == Play(cfg, begun, w, a, m);
    if m <= n { OverForGood(cfg, begun, w, a, m, n); } else { OverForGood(cfg, begun, w, a, n, m); }
  }
}
