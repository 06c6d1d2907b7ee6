/** Where the bound of one call per decision ends: what a resumed tick does, and what follows from a hazard. */
module SecondCalls {
  import opened Wrappers
  import opened Models
  import opened Policy
  import opened Tables
  import opened Queries
  import opened Operations
  import opened Effects
  import opened StoreInvariants
  import opened StoreLaws
  import opened Runtime
  import opened RuntimeInvariants
  import opened RuntimeSteps
  import opened AtMostOnce

  /** A tick looks for its pending decision and goes on as far as the call, undisturbed. */
  ghost function Resumed(cfg: Config, s: Sys, w: Worker, i: Inputs, lease: int, result: CapabilityResult): Sys {
    var looked := Next(cfg, s, LookingUp(w));
    var begun := Next(cfg, looked, Committing(w, i));
    var renewed := Next(cfg, begun, Refreshing(w, lease, i.now));
    Next(cfg, renewed, Executing(w, result))
  }

  /** The lease is the tick's own, has not run out, and the row is as it was claimed. */
  predicate Undisturbed(s: Sys, w: Worker, now: Time) {
    && w in s.ticks && s.ticks[w].stage.Looking? && !s.ticks[w].exiting
    && var t := s.ticks[w];
    && Holding(s.db, t) && s.db.conts[t.cid].version == t.row.version
    && s.db.conts[t.cid].expires.Some? && now < s.db.conts[t.cid].expires.value
  }

  lemma LookUpOpens(cfg: Config, s: Sys, w: Worker, d: Id)
    requires Inv(cfg, s) && w in s.ticks && s.ticks[w].stage.Looking?
             && LatestPending(s.db.decs, s.ticks[w].cid) == Some(d)
    requires Unsafe(cfg, s.db, d) && !s.ticks[w].exiting
    ensures var next, t, row := LookUp(cfg, s, w), s.ticks[w], s.db.decs[d];
            && d in s.db.decs && row.cid == t.cid && row.status.Pending()
            && next.db == s.db && next.runs == s.runs && w in next.ticks
            && var stage := next.ticks[w].stage;
            && next.ticks == s.ticks[w := t.(stage := stage, exiting := next.ticks[w].exiting)]
            && (if row.status == EXECUTED then stage.Reviewing?
                else if row.recovery then stage.Owning? && stage.op.Conclude?
                else if row.status == RESERVED
                then stage.Writing? && stage.op.Begin? && stage.op.did == d && stage.seen == t.row
                else stage.Armed? && stage.did == d)
  {
    hide Inv, DbOk, LeaseOk, StageOk, HeldOk, FromDict, MayRun, NoEarlierResult, PendingIds;
    TickFacts(cfg, s, w);
    PendingFacts(cfg, s.db, s.ticks[w], d);
  }

  /** The lease that a tick holds is good for one more write at an instant. */
  predicate Leased(s: Sys, w: Worker, now: Time) {
    && w in s.ticks
    && var t := s.ticks[w];
    && Holding(s.db, t) && s.db.conts[t.cid].owner == Some(w) && s.db.conts[t.cid].state.Active()
    && s.db.conts[t.cid].expires.Some? && now < s.db.conts[t.cid].expires.value
  }

  lemma OwnLease(cfg: Config, s: Sys, w: Worker, now: Time)
    requires Inv(cfg, s) && Undisturbed(s, w, now)
    ensures Leased(s, w, now)
  {
    TickActive(cfg, s, w);
    assert LeaseOk(s.db, w, s.ticks[w]);
  }

  lemma BeginArms(cfg: Config, s: Sys, w: Worker, i: Inputs, d: Id)
    requires Leased(s, w, i.now) && d in s.db.decs && s.db.decs[d].cid == s.ticks[w].cid
             && s.db.decs[d].status == RESERVED
    requires var t := s.ticks[w];
             t.stage.Writing? && t.stage.op.Begin? && t.stage.op.did == d && t.stage.seen == t.row
             && t.row.version == s.db.conts[t.cid].version
    ensures var next := Commit(cfg, s, w, i);
            && Leased(next, w, i.now) && next.ticks[w].stage.Armed? && next.ticks[w].stage.did == d && next.runs == s.runs
  {
  }

  lemma ArmedRuns(cfg: Config, s: Sys, w: Worker, now: Time, lease: int, result: CapabilityResult)
    requires Leased(s, w, now) && s.ticks[w].stage.Armed?
    ensures var next := Next(cfg, Next(cfg, s, Refreshing(w, lease, now)), Executing(w, result));
            |next.runs| == |s.runs| + 1 && next.runs[..|s.runs|] == s.runs && next.runs[|s.runs|].did == s.ticks[w].stage.did
  {
  }

  lemma OthersDoNotRun(cfg: Config, s: Sys, w: Worker, lease: int, now: Time, result: CapabilityResult)
    requires w in s.ticks && !s.ticks[w].stage.Armed? && !s.ticks[w].stage.Poised?
    ensures Next(cfg, Next(cfg, s, Refreshing(w, lease, now)), Executing(w, result)).runs == s.runs
  {
    hide Renew;
  }

  /** An undisturbed tick that finds a pending decision calls the capability exactly when the decision is open:
      unfinished, and not flagged by recovery. Any earlier call makes no difference to it. */
  lemma ResumedTickRunsOpenDecisions(cfg: Config, s: Sys, w: Worker, i: Inputs, lease: int, result: CapabilityResult,
                                     d: Id)
    requires Inv(cfg, s) && Undisturbed(s, w, i.now) && LatestPending(s.db.decs, s.ticks[w].cid) == Some(d)
    requires Unsafe(cfg, s.db, d)
    ensures var next := Resumed(cfg, s, w, i, lease, result);
            && (Open(s.db, d) <==> next.runs != s.runs)
            && (Open(s.db, d) ==>
                  |next.runs| == |s.runs| + 1 && next.runs[..|s.runs|] == s.runs && next.runs[|s.runs|].did == d)
  {
    hide Inv, LookUp, Refresh, Commit, LatestPending;
    LookUpOpens(cfg, s, w, d);
    OwnLease(cfg, s, w, i.now);
    var looked := LookUp(cfg, s, w);
    var row := s.db.decs[d];
    if row.status == RESERVED && !row.recovery {
      BeginArms(cfg, looked, w, i, d);
      ArmedRuns(cfg, Commit(cfg, looked, w, i), w, i.now, lease, result);
    } else if row.status == EXECUTING && !row.recovery {
      ArmedRuns(cfg, looked, w, i.now, lease, result);
    } else {
      OthersDoNotRun(cfg, looked, w, lease, i.now, result);
    }
  }

  const INTERNAL := "internal_error"

  lemma WaitIsClean(cfg: Config)
    ensures var d := SimpleDecision(WAIT, INTERNAL, Some(cfg.retryBase));
              Normalized(d) == Success(d) && AsDict(d).Success?
  {
    var d := SimpleDecision(WAIT, INTERNAL, Some(cfg.retryBase));
    assert INTERNAL[0] == 'i' && INTERNAL[|INTERNAL| - 1] == 'r';
    assert Text.Trimmed(INTERNAL) && Text.Trimmed("default");
  }

  lemma WaitApplies(cfg: Config, db: Db, c: Id, w: Worker, i: Inputs)
    requires c in db.conts && db.conts[c].token.Some?
             && HeldBy(db, c, w, db.conts[c].token.value, db.conts[c].version, i.now)
    requires i.did !in db.decs && forall o :: !HoldsKey(db.decs, i.didText, o)
    ensures var r := db.conts[c];
            var o := ApplyPlain(db, c, w, r.token.value, r.version, SimpleDecision(WAIT, INTERNAL, Some(cfg.retryBase)),
                                i.did, i.didText, i.now);
            && o.Committed? && o.reply.Plain? && c in o.db.conts
            && o.db.conts == db.conts[c := Released(r).(state := WAITING, version := r.version + 1, step := r.step + 1,
                                                         wake := Some(i.now + cfg.retryBase), lastError := None)]
            && i.did in o.db.decs && o.db.decs == db.decs[i.did := o.db.decs[i.did]] && o.db.evid == db.evid
  {
    hide Normalized, AsDict;
    WaitIsClean(cfg);
  }

  /** A hazard gives the continuation back with the decision still open, and unleased. */
  lemma HazardReleases(cfg: Config, s: Sys, step: Step, d: Id)
    requires Hazard(cfg, s, step, d)
    ensures var next := Next(cfg, s, step);
            && Open(next.db, d) && next.db.decs[d] == s.db.decs[d] && next.runs == s.runs
            && next.db.conts[next.db.decs[d].cid].state == WAITING && next.db.conts[next.db.decs[d].cid].token.None?
  {
    hide Normalized, AsDict, PassEvidence, WakeAfter, HoldsKey, RunOnce;
    var w := step.worker;
    CleanedKind(s.ticks[w].stage.op.decision);
  }

  // ---- names nobody has used ----

  lemma {:induction false} FreshId(ids: set<Id>) returns (x: Id)
    ensures x !in ids && forall y :: y in ids ==> y < x
    decreases ids
  {
    x := 0;
    if ids != {} {
      var y :| y in ids;
      var z := FreshId(ids - {y});
      x := if y < z then z else y + 1;
      assert forall v :: v in ids ==> v == y || v in ids - {y};
    }
  }

  function Marks(n: nat): (s: string)
    ensures |s| == n && forall i :: 0 <= i < n ==> s[i] == 'x'
  {
    if n == 0 then "" else "x" + Marks(n - 1)
  }

  lemma FreshText(texts: set<string>) returns (t: string)
    ensures t !in texts && !Text.Blank(t)
  {
    var lengths := set u | u in texts :: |u|;
    var n := FreshId(lengths);
    t := Marks(n + 1);
    assert !Text.IsSpace(t[0]);
    forall u | u in texts ensures |u| < n { assert |u| in lengths; }
  }

  lemma FreshInputs(db: Db, now: Time) returns (i: Inputs)
    ensures i.now == now && i.did !in db.decs && forall o :: !HoldsKey(db.decs, i.didText, o)
  {
    var did := FreshId(db.decs.Keys);
    var keys := set o | o in db.decs :: db.decs[o].key;
    var text := FreshText(keys);
    i := Inputs("", did, text, 0, now);
    assert forall o :: o in db.decs ==> db.decs[o].key in keys;
  }

  // ---- an open decision that nobody works on is called ----

  /** `next` is `s` with other continuations cancelled. */
  predicate OthersCancelled(s: Sys, next: Sys, c: Id) {
    && next.ticks == s.ticks && next.runs == s.runs && next.issued == s.issued
    && next.db.decs == s.db.decs && next.db.conts.Keys == s.db.conts.Keys
    && (c in s.db.conts ==> next.db.conts[c] == s.db.conts[c])
    && (forall x :: x in s.db.conts && s.db.conts[x].state.Terminal() ==> next.db.conts[x].state.Terminal())
  }

  lemma {:induction false} CancelOthers(cfg: Config, s: Sys, c: Id, rest: set<Id>, d: Id) returns (more: seq<Step>)
    requires c !in rest && rest <= s.db.conts.Keys
    ensures OthersCancelled(s, Onward(cfg, s, more), c) && HazardFree(cfg, s, more, d)
    ensures forall x :: x in rest ==> Onward(cfg, s, more).db.conts[x].state.Terminal()
    decreases rest
  {
    more := [];
    if rest != {} {
      var x :| x in rest;
      var before := CancelOthers(cfg, s, c, rest - {x}, d);
      more := before + [Cancelling(x, "cli", 0)];
      Walk(cfg, s, before, Cancelling(x, "cli", 0), d);
      CancelOne(cfg, Onward(cfg, s, before), c, x);
      forall y | y in rest ensures Onward(cfg, s, more).db.conts[y].state.Terminal() {
        if y != x { assert y in rest - {x}; }
      }
    }
  }

  lemma CancelOne(cfg: Config, s: Sys, c: Id, x: Id)
    requires x != c && x in s.db.conts
    ensures var next := Next(cfg, s, Cancelling(x, "cli", 0));
            OthersCancelled(s, next, c) && next.db.conts[x].state.Terminal()
  {
  }

  /** One more step that is no hazard. */
  lemma Walk(cfg: Config, s: Sys, steps: seq<Step>, step: Step, d: Id)
    requires HazardFree(cfg, s, steps, d) && !Hazard(cfg, Onward(cfg, s, steps), step, d)
    ensures HazardFree(cfg, s, steps + [step], d)
    ensures Onward(cfg, s, steps + [step]) == Next(cfg, Onward(cfg, s, steps), step)
  {
    hide Next, Hazard;
    assert (steps + [step])[..|steps|] == steps;
  }

  /** A new worker claims the continuation that is first in line, and its heartbeat renews at once. */
  lemma ClaimsAndRenews(cfg: Config, s: Sys, w: Worker, c: Id, token: Token, now: Time)
    requires w !in s.ticks && token !in s.issued && !Text.Blank(w) && FirstDue(s.db.conts, now, c)
    ensures var next := Next(cfg, Next(cfg, s, Claiming(w, c, token, 1, now)), Refreshing(w, 1, now));
            && Undisturbed(next, w, now) && next.ticks[w].cid == c
            && next.db.decs == s.db.decs && next.runs == s.runs && next.db.conts.Keys == s.db.conts.Keys
            && next.db.conts[c].state == RUNNING
  {
  }

  lemma FirstInLine(db: Db, c: Id, now: Time)
    requires c in db.conts && Due(db.conts[c], now)
    requires forall x :: x in db.conts && x != c ==> db.conts[x].state.Terminal()
    ensures FirstDue(db.conts, now, c)
  {
  }

  /** Some run goes on from here to call the capability of a decision that is open and that nobody works on, without
      any hazard on the way. */
  lemma {:induction false} OpenIsCalled(cfg: Config, s: Sys, d: Id) returns (more: seq<Step>)
    requires Inv(cfg, s) && Unsafe(cfg, s.db, d) && Open(s.db, d) && s.db.conts[s.db.decs[d].cid].token.None?
    ensures HazardFree(cfg, s, more, d)
    ensures var next := Onward(cfg, s, more);
            && next.db.decs.Keys >= s.db.decs.Keys
            && |next.runs| == |s.runs| + 1 && next.runs[..|s.runs|] == s.runs && next.runs[|s.runs|].did == d
  {
    hide Next, Inv, Hazard, HazardFree, Onward, FirstDue, Due, Undisturbed, LatestPending, RowOk, OthersCancelled, Unsafe;
    var c := s.db.decs[d].cid;
    var cancels := CancelOthers(cfg, s, c, s.db.conts.Keys - {c}, d);
    var idle := Onward(cfg, s, cancels);
    var row := s.db.conts[c];
    var now := if row.wake.Some? then row.wake.value else 0;
    IdleRow(cfg, s, c);
    OnlyOneLeft(s, idle, c, now);
    var w := FreshText(idle.ticks.Keys);
    var token := FreshText(idle.issued);
    var claim, renew := Claiming(w, c, token, 1, now), Refreshing(w, 1, now);
    NoHazard(cfg, idle, claim, d);
    Walk(cfg, s, cancels, claim, d);
    NoHazard(cfg, Next(cfg, idle, claim), renew, d);
    Walk(cfg, s, cancels + [claim], renew, d);
    ReadyToCall(cfg, s, idle, w, c, token, now, d);
    more := CallOnce(cfg, s, cancels + [claim] + [renew], w, now, d);
  }

  lemma OnlyOneLeft(s: Sys, idle: Sys, c: Id, now: Time)
    requires OthersCancelled(s, idle, c) && c in s.db.conts && Due(s.db.conts[c], now)
    requires forall x :: x in s.db.conts.Keys - {c} ==> x in idle.db.conts && idle.db.conts[x].state.Terminal()
    ensures FirstDue(idle.db.conts, now, c)
  {
    hide Due;
    FirstInLine(idle.db, c, now);
  }

  /** After its claim and first renewal the new worker finds the decision as open as it was. */
  lemma ReadyToCall(cfg: Config, s: Sys, idle: Sys, w: Worker, c: Id, token: Token, now: Time, d: Id)
    requires OthersCancelled(s, idle, c) && FirstDue(idle.db.conts, now, c)
    requires w !in idle.ticks && token !in idle.issued && !Text.Blank(w)
    requires Open(s.db, d) && s.db.decs[d].cid == c && Unsafe(cfg, s.db, d)
    ensures var ready := Next(cfg, Next(cfg, idle, Claiming(w, c, token, 1, now)), Refreshing(w, 1, now));
            && ready.runs == s.runs && Undisturbed(ready, w, now) && Open(ready.db, d) && Unsafe(cfg, ready.db, d)
            && ready.db.decs[d].cid == ready.ticks[w].cid && s.db.decs.Keys <= ready.db.decs.Keys
  {
    hide Next, FirstDue;
    ClaimsAndRenews(cfg, idle, w, c, token, now);
  }

  lemma IdleRow(cfg: Config, s: Sys, c: Id)
    requires Inv(cfg, s) && c in s.db.conts && s.db.conts[c].token.None? && !s.db.conts[c].state.Terminal()
    ensures var r := s.db.conts[c]; forall now :: (r.wake.Some? ==> r.wake.value <= now) ==> Due(r, now)
  {
    assert RowOk(s.db.conts[c]);
  }

  lemma {:induction false} InvOnward(cfg: Config, s: Sys, steps: seq<Step>)
    requires Inv(cfg, s)
    ensures Inv(cfg, Onward(cfg, s, steps))
  {
    hide Next, Inv;
    if steps != [] {
      InvOnward(cfg, s, steps[..|steps| - 1]);
      NextKeeps(cfg, Onward(cfg, s, steps[..|steps| - 1]), steps[|steps| - 1]);
    }
  }

  lemma NoHazard(cfg: Config, s: Sys, step: Step, d: Id)
    requires step.Committing? && step.worker in s.ticks && s.ticks[step.worker].stage.Writing? ==>
               !s.ticks[step.worker].stage.op.Conclude?
    ensures !Hazard(cfg, s, step, d)
  {
  }

  /** The last steps of such a run: the claiming tick looks, marks the start if need be, renews and calls. */
  lemma CallOnce(cfg: Config, s: Sys, steps: seq<Step>, w: Worker, now: Time, d: Id) returns (more: seq<Step>)
    requires Inv(cfg, s) && HazardFree(cfg, s, steps, d)
    requires var ready := Onward(cfg, s, steps);
             && ready.runs == s.runs && Undisturbed(ready, w, now) && Open(ready.db, d) && Unsafe(cfg, ready.db, d)
             && ready.db.decs[d].cid == ready.ticks[w].cid && s.db.decs.Keys <= ready.db.decs.Keys
    ensures HazardFree(cfg, s, more, d)
    ensures var next := Onward(cfg, s, more);
            && next.db.decs.Keys >= s.db.decs.Keys
            && |next.runs| == |s.runs| + 1 && next.runs[..|s.runs|] == s.runs && next.runs[|s.runs|].did == d
  {
    hide Next, Inv, Hazard, LatestPending;
    var ready := Onward(cfg, s, steps);
    InvOnward(cfg, s, steps);
    OnlyPending(cfg, ready, d);
    var i, result := Inputs("", 0, "", 0, now), CapabilityResult("OK", map[]);
    ResumedTickRunsOpenDecisions(cfg, ready, w, i, 1, result, d);
    LooksForIt(cfg, ready, w, i, d);
    var looked := Next(cfg, ready, LookingUp(w));
    NoHazard(cfg, ready, LookingUp(w), d);
    Walk(cfg, s, steps, LookingUp(w), d);
    Walk(cfg, s, steps + [LookingUp(w)], Committing(w, i), d);
    var begun := Next(cfg, looked, Committing(w, i));
    NoHazard(cfg, begun, Refreshing(w, 1, now), d);
    Walk(cfg, s, steps + [LookingUp(w)] + [Committing(w, i)], Refreshing(w, 1, now), d);
    var renewed := Next(cfg, begun, Refreshing(w, 1, now));
    NoHazard(cfg, renewed, Executing(w, result), d);
    more := steps + [LookingUp(w)] + [Committing(w, i)] + [Refreshing(w, 1, now)] + [Executing(w, result)];
    Walk(cfg, s, steps + [LookingUp(w)] + [Committing(w, i)] + [Refreshing(w, 1, now)], Executing(w, result), d);
    NextGrows(cfg, ready, LookingUp(w));
    NextGrows(cfg, looked, Committing(w, i));
    NextGrows(cfg, begun, Refreshing(w, 1, now));
    NextGrows(cfg, renewed, Executing(w, result));
  }

  lemma LooksForIt(cfg: Config, s: Sys, w: Worker, i: Inputs, d: Id)
    requires Inv(cfg, s) && Undisturbed(s, w, i.now) && LatestPending(s.db.decs, s.ticks[w].cid) == Some(d)
    requires Unsafe(cfg, s.db, d) && Open(s.db, d)
    ensures !Hazard(cfg, Next(cfg, s, LookingUp(w)), Committing(w, i), d)
  {
    hide Inv, LookUp, LatestPending;
    LookUpOpens(cfg, s, w, d);
  }

  lemma OnlyPending(cfg: Config, s: Sys, d: Id)
    requires Inv(cfg, s) && Open(s.db, d)
    ensures LatestPending(s.db.decs, s.db.decs[d].cid) == Some(d)
  {
    hide Sound, VerifyingHasResult, EndingsEarned, AllStoredOk, ResultsKnown, TickOk, RunOk, TokensOk;
    assert d in PendingIds(s.db.decs, s.db.decs[d].cid);
  }

  // ---- the bound and its end ----

  /** From every hazard some run goes on, free of any other one, to a second call. */
  lemma {:induction false} HazardsAreCalledAgain(cfg: Config, s: Sys, step: Step, d: Id) returns (more: seq<Step>)
    requires Inv(cfg, s) && Hazard(cfg, s, step, d) && Unsafe(cfg, s.db, d)
    ensures HazardFree(cfg, Next(cfg, s, step), more, d)
    ensures var next := Onward(cfg, Next(cfg, s, step), more); d in next.db.decs && !RunOnce(next.runs, d)
  {
    hide Next, Inv, Hazard;
    var released := Next(cfg, s, step);
    NextKeeps(cfg, s, step);
    HazardReleases(cfg, s, step, d);
    HazardIsCalled(cfg, s, step, d);
    more := OpenIsCalled(cfg, released, d);
    var next := Onward(cfg, released, more);
    var k :| 0 <= k < |s.runs| && s.runs[k].did == d;
    assert next.runs[k] == next.runs[..|s.runs|][k];
  }

  lemma HazardIsCalled(cfg: Config, s: Sys, step: Step, d: Id)
    requires Hazard(cfg, s, step, d)
    ensures d in s.db.decs && !NotRun(s.runs, d)
  {
  }

  /** Exactly: after a run without hazards and one step more, a second call can follow without a further hazard if
      and only if that step is a hazard. */
  lemma {:induction false} SecondCallsFollowHazardsOnly(cfg: Config, steps: seq<Step>, step: Step, d: Id)
    requires HazardFree(cfg, START, steps, d) && d in Reach(cfg, steps).db.decs && Unsafe(cfg, Reach(cfg, steps).db, d)
    ensures Hazard(cfg, Reach(cfg, steps), step, d) <==>
              exists more :: HazardFree(cfg, Reach(cfg, steps + [step]), more, d)
                             && !RunOnce(Reach(cfg, steps + [step] + more).runs, d)
  {
    hide Next, Inv, Hazard, HazardFree, OnceOk, Unsafe;
    var s := Reach(cfg, steps);
    InvAlways(cfg, steps);
    OnwardOne(cfg, START, steps, step);
    if Hazard(cfg, s, step, d) {
      var more := HazardsAreCalledAgain(cfg, s, step, d);
      OnwardJoin(cfg, START, steps + [step], more);
    } else {
      CalledAtMostOnce(cfg, steps, d);
      forall more | HazardFree(cfg, Reach(cfg, steps + [step]), more, d)
        ensures RunOnce(Reach(cfg, steps + [step] + more).runs, d)
      {
        OnwardJoin(cfg, START, steps + [step], more);
        StillOnce(cfg, s, step, more, d);
      }
    }
  }

  lemma StillOnce(cfg: Config, s: Sys, step: Step, more: seq<Step>, d: Id)
    requires Inv(cfg, s) && OnceOk(s, d) && d in s.db.decs && Unsafe(cfg, s.db, d) && !Hazard(cfg, s, step, d)
    requires HazardFree(cfg, Next(cfg, s, step), more, d)
    ensures RunOnce(Onward(cfg, Next(cfg, s, step), more).runs, d)
  {
    hide Next, Inv, Hazard, HazardFree;
    NextKeeps(cfg, s, step);
    NextOnce(cfg, s, step, d);
    NextGrows(cfg, s, step);
    UnsafeStays(cfg, Next(cfg, s, step), more, d);
    OnceOnward(cfg, Next(cfg, s, step), more, d);
  }

  lemma {:induction false} UnsafeStays(cfg: Config, s: Sys, steps: seq<Step>, d: Id)
    requires d in s.db.decs && Unsafe(cfg, s.db, d)
    ensures d in Onward(cfg, s, steps).db.decs && Unsafe(cfg, Onward(cfg, s, steps).db, d)
  {
    hide Next;
    if steps != [] {
      UnsafeStays(cfg, s, steps[..|steps| - 1], d);
      NextGrows(cfg, Onward(cfg, s, steps[..|steps| - 1]), steps[|steps| - 1]);
    }
  }

  /** Where hazards come from: an exception that no handler names reaches a tick whose decision is called and still
      open, and the exit finds the lease running. In every reachable state of that kind a second call can follow. */
  lemma {:induction false} FaultsAreCalledAgain(cfg: Config, steps: seq<Step>, w: Worker, now: Time, d: Id)
    requires var s := Reach(cfg, steps);
             && Leased(s, w, now) && !s.ticks[w].exiting && Unsafe(cfg, s.db, d)
             && Open(s.db, d) && s.db.decs[d].cid == s.ticks[w].cid && !NotRun(s.runs, d)
    ensures exists more :: !RunOnce(Reach(cfg, steps + [Faulting(w), Rereading(w)] + more).runs, d)
  {
    hide Next, Inv, Hazard, HazardFree, Unsafe;
    var s := Reach(cfg, steps);
    InvAlways(cfg, steps);
    var exit := steps + [Faulting(w), Rereading(w)];
    var i := FreshInputs(s.db, now);
    FaultMakesHazard(cfg, s, w, i, d);
    var reread := Next(cfg, Next(cfg, s, Faulting(w)), Rereading(w));
    OnwardOne(cfg, START, steps, Faulting(w));
    OnwardOne(cfg, START, steps + [Faulting(w)], Rereading(w));
    assert exit == steps + [Faulting(w)] + [Rereading(w)];
    InvAlways(cfg, exit);
    var more := HazardsAreCalledAgain(cfg, reread, Committing(w, i), d);
    OnwardOne(cfg, START, exit, Committing(w, i));
    OnwardJoin(cfg, START, exit + [Committing(w, i)], more);
    assert exit + [Committing(w, i)] + more == exit + ([Committing(w, i)] + more);
  }

  lemma FaultMakesHazard(cfg: Config, s: Sys, w: Worker, i: Inputs, d: Id)
    requires Leased(s, w, i.now) && !s.ticks[w].exiting
    requires Open(s.db, d) && s.db.decs[d].cid == s.ticks[w].cid && !NotRun(s.runs, d)
    requires i.did !in s.db.decs && forall o :: !HoldsKey(s.db.decs, i.didText, o)
    ensures var reread := Next(cfg, Next(cfg, s, Faulting(w)), Rereading(w));
            Hazard(cfg, reread, Committing(w, i), d) && reread.db == s.db
  {
    hide ApplyPlain, NotRun;
    WaitApplies(cfg, s.db, s.ticks[w].cid, w, i);
  }
}
