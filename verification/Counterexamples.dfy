/** Two short runs that show what the laws must not promise. */
module Counterexamples {
  import opened Wrappers
  import opened Models
  import opened Policy
  import opened Tables
  import opened Queries
  import opened Operations
  import opened Effects
  import opened Runtime
  import opened RuntimeInvariants
  import opened RuntimeSteps
  import opened AtMostOnce
  import opened SecondCalls
  import opened Exhaustion

  ghost predicate Reachable(cfg: Config, s: Sys) {
    exists steps :: Reach(cfg, steps) == s
  }

  lemma ReachesOn(cfg: Config, s: Sys, step: Step)
    requires Reachable(cfg, s)
    ensures Reachable(cfg, Next(cfg, s, step))
  {
    hide Next;
    var steps :| Reach(cfg, steps) == s;
    assert (steps + [step])[..|steps + [step]| - 1] == steps;
    assert Reach(cfg, steps + [step]) == Next(cfg, s, step);
  }

  const CFG := Config(map["deploy" := Capability("deploy", 0, false)], AutonomyPolicy(4, None, {}, 5), 1, 1)
  const DEPLOY := Decision(Enum(EXECUTE), "go", Some("deploy"), map[], 0, "default", None, None, None, false, None, map[])
  const INPUTS := Inputs("key", 1, "first", 1, 0)
  const DONE := CapabilityResult("OK", map[])

  /** The one continuation, its row, and the one worker's tick. */
  predicate Shape(s: Sys, row: Continuation, decs: map<Id, DecisionRow>) {
    s.db.conts == map[0 := row] && s.db.decs == decs && s.db.evid == map[]
  }

  lemma DeployIsClean()
    ensures Normalized(DEPLOY) == Success(DEPLOY) && AsDict(DEPLOY).Success?
    ensures Authorize(CFG.policy, DEPLOY, Binding(CFG.registry, DEPLOY)) == Success(Authorized)
  {
    assert Text.Trimmed("go") && Text.Trimmed("deploy") && Text.Trimmed("default");
    assert !Text.IsSpace("go"[0]) && !Text.IsSpace("deploy"[0]);
  }

  /** A worker claims the one row that is due and its heartbeat renews at once. */
  lemma Claimed(s: Sys, row: Continuation, decs: map<Id, DecisionRow>, token: Token, now: Time)
    requires Shape(s, row, decs) && Due(row, now) && "w" !in s.ticks && token !in s.issued
    ensures var next := Next(CFG, Next(CFG, s, Claiming("w", 0, token, 10, now)), Refreshing("w", 10, now));
            && "w" in next.ticks && next.ticks.Keys == s.ticks.Keys + {"w"}
            && next.runs == s.runs && next.issued == s.issued + {token}
            && 0 in next.db.conts && Shape(next, next.db.conts[0], decs)
            && next.db.conts[0] == row.(state := RUNNING, version := row.version + 1, wake := None, owner := Some("w"),
                                        token := Some(token), expires := Some(now + 10), heartbeat := Some(now))
            && next.ticks["w"] == Tick(0, next.db.conts[0], next.ticks["w"].since, Looking, false, false)
  {
    assert !Text.IsSpace("w"[0]);
    assert FirstDue(s.db.conts, now, 0);
    var claimed := Next(CFG, s, Claiming("w", 0, token, 10, now));
    assert claimed.db.conts == map[0 := claimed.db.conts[0]];
  }

  /** The planner's decision is read, authorized, and about to be reserved. */
  lemma Asked(s: Sys, row: Continuation)
    requires Shape(s, row, map[]) && "w" in s.ticks && s.ticks["w"].stage == Looking && s.ticks["w"].cid == 0
    requires row.owner == Some("w") && row.token.Some? && s.ticks["w"].row == row && row.attempts < row.maxAttempts
    ensures var looked := Next(CFG, s, LookingUp("w"));
            var planned := Next(CFG, looked, Planned("w", DEPLOY));
            Next(CFG, planned, Rereading("w")) == WithStage(s, "w", Writing(Book(DEPLOY), row))
  {
    hide Normalized, Authorize, Binding;
    DeployIsClean();
    DeployIsBound();
    assert PendingIds(s.db.decs, 0) == {};
  }

  lemma DeployIsBound()
    ensures Binding(CFG.registry, DEPLOY) == Some(Capability("deploy", 0, false))
  {
  }

  /** The reservation is committed and its execution marked. */
  lemma Booked(s: Sys, row: Continuation)
    requires Shape(s, row, map[]) && "w" in s.ticks && s.ticks["w"].cid == 0
             && s.ticks["w"].stage == Writing(Book(DEPLOY), row)
    requires HeldBy(s.db, 0, "w", TokenOf(row), row.version, 0) && row.token.Some? && row.attempts < row.maxAttempts
    ensures var next := Next(CFG, s, Committing("w", INPUTS));
            && 1 in next.db.decs && 0 in next.db.conts && Shape(next, next.db.conts[0], map[1 := next.db.decs[1]])
            && next.db.conts[0] == row.(version := row.version + 1, attempts := row.attempts + 1)
            && var d := next.db.decs[1];
            && d.cid == 0 && d.kind == EXECUTE && d.capability == Some("deploy") && d.status == RESERVED && !d.recovery
            && d.key == "key"
            && var t := s.ticks["w"].(stage := Writing(Begin(1, DEPLOY), next.db.conts[0]));
               next == s.(db := next.db, ticks := s.ticks["w" := t])
  {
    hide Normalized, AsDict;
    DeployIsClean();
    assert forall o :: !HoldsKey(s.db.decs, "key", o);
    assert s.db.conts[0 := row.(version := row.version + 1, attempts := row.attempts + 1)]
        == map[0 := row.(version := row.version + 1, attempts := row.attempts + 1)];
  }

  lemma Begun(s: Sys, row: Continuation, d: DecisionRow)
    requires Shape(s, row, map[1 := d]) && "w" in s.ticks && s.ticks["w"].cid == 0
    requires s.ticks["w"].stage == Writing(Begin(1, DEPLOY), row)
    requires HeldBy(s.db, 0, "w", TokenOf(row), row.version, 0) && row.token.Some? && d.status == RESERVED && d.cid == 0
    ensures var next := Next(CFG, s, Committing("w", INPUTS));
            && Shape(next, row.(version := row.version + 1), map[1 := d.(status := EXECUTING)])
            && next == s.(db := next.db, ticks := s.ticks["w" := s.ticks["w"].(stage := Armed(1, DEPLOY))])
  {
    var begun := Next(CFG, s, Committing("w", INPUTS));
    assert begun.db.conts == map[0 := row.(version := row.version + 1)];
    assert begun.db.decs == map[1 := d.(status := EXECUTING)];
  }

  /** The lease is renewed and the capability called. */
  lemma Called(s: Sys, row: Continuation, d: DecisionRow)
    requires Shape(s, row, map[1 := d]) && "w" in s.ticks && s.ticks["w"].cid == 0
    requires s.ticks["w"].stage == Armed(1, DEPLOY) && s.ticks["w"].row.token == row.token
    requires HeldBy(s.db, 0, "w", TokenOf(row), row.version, 0) && row.token.Some?
    ensures var next := Next(CFG, Next(CFG, s, Refreshing("w", 10, 0)), Executing("w", DONE));
            && Shape(next, row.(expires := Some(10), heartbeat := Some(0)), map[1 := d])
            && next == s.(db := next.db, runs := next.runs,
                          ticks := s.ticks["w" := s.ticks["w"].(stage := Ran(1, DEPLOY, DONE))])
            && |next.runs| == |s.runs| + 1 && next.runs[..|s.runs|] == s.runs && next.runs[|s.runs|].did == 1
  {
    var renewed := Next(CFG, s, Refreshing("w", 10, 0));
    assert renewed.db.conts == map[0 := row.(expires := Some(10), heartbeat := Some(0))];
  }

  const WAITING0 := Continuation(READY, 1, 0, 0, 5, None, None, None, None, None, None, 0)

  lemma Admitted()
    ensures var next := Next(CFG, START, Admitting(0, 5, "cli", 0));
            && Shape(next, WAITING0, map[]) && next.ticks == map[] && next.runs == [] && next.issued == {}
            && Reachable(CFG, next)
  {
    assert Reach(CFG, []) == START;
    ReachesOn(CFG, START, Admitting(0, 5, "cli", 0));
    assert Next(CFG, START, Admitting(0, 5, "cli", 0)).db.conts == map[0 := WAITING0];
  }

  /** Up to the first call: the tick holds its lease, and the result is not stored. */
  lemma FirstCall() returns (s: Sys)
    ensures Reachable(CFG, s) && |s.runs| == 1 && s.runs[0].did == 1 && s.issued == {"t1"} && s.ticks.Keys == {"w"}
    ensures s.ticks["w"].stage == Ran(1, DEPLOY, DONE) && !s.ticks["w"].exiting && s.ticks["w"].cid == 0
    ensures 0 in s.db.conts && 1 in s.db.decs && Shape(s, s.db.conts[0], map[1 := s.db.decs[1]])
    ensures Open(s.db, 1) && Leased(s, "w", 0) && Unsafe(CFG, s.db, 1) && s.db.decs[1].cid == 0
            && s.db.decs[1].key == "key"
  {
    hide Next, HeldBy;
    Admitted();
    var s0 := Next(CFG, START, Admitting(0, 5, "cli", 0));
    Claimed(s0, WAITING0, map[], "t1", 0);
    var claim := Claiming("w", 0, "t1", 10, 0);
    ReachesOn(CFG, s0, claim);
    var renew := Refreshing("w", 10, 0);
    ReachesOn(CFG, Next(CFG, s0, claim), renew);
    var s1 := Next(CFG, Next(CFG, s0, claim), renew);
    var row1 := s1.db.conts[0];
    Asked(s1, row1);
    ReachesOn(CFG, s1, LookingUp("w"));
    var s2 := Next(CFG, s1, LookingUp("w"));
    ReachesOn(CFG, s2, Planned("w", DEPLOY));
    var s3 := Next(CFG, s2, Planned("w", DEPLOY));
    ReachesOn(CFG, s3, Rereading("w"));
    var s4 := Next(CFG, s3, Rereading("w"));
    Held(s4, row1);
    Booked(s4, row1);
    ReachesOn(CFG, s4, Committing("w", INPUTS));
    var s5 := Next(CFG, s4, Committing("w", INPUTS));
    var row5, d5 := s5.db.conts[0], s5.db.decs[1];
    Held(s5, row5);
    Begun(s5, row5, d5);
    ReachesOn(CFG, s5, Committing("w", INPUTS));
    var s6 := Next(CFG, s5, Committing("w", INPUTS));
    var row6 := row5.(version := row5.version + 1);
    Held(s6, row6);
    Called(s6, row6, d5.(status := EXECUTING));
    ReachesOn(CFG, s6, renew);
    ReachesOn(CFG, Next(CFG, s6, renew), Executing("w", DONE));
    s := Next(CFG, Next(CFG, s6, renew), Executing("w", DONE));
  }

  lemma Held(s: Sys, row: Continuation)
    requires 0 in s.db.conts && s.db.conts[0] == row && row.state == RUNNING && row.owner == Some("w")
             && row.token.Some?
    requires row.expires == Some(10)
    ensures HeldBy(s.db, 0, "w", TokenOf(row), row.version, 0)
  {
  }

  /** Without its condition the bound on calls fails: after this run an exception between the call and the storing of
      its result is enough for a second call of a capability that is not safe to replay. */
  lemma TwoCallsArePossible()
    ensures exists steps, d :: Unsafe(CFG, Reach(CFG, steps).db, d) && d in Reach(CFG, steps).db.decs
                               && !RunOnce(Reach(CFG, steps).runs, d)
  {
    hide Next, Reach, Unsafe, Open, Leased;
    var s := FirstCall();
    var steps :| Reach(CFG, steps) == s;
    FaultsAreCalledAgain(CFG, steps, "w", 0, 1);
    var more :| !RunOnce(Reach(CFG, steps + [Faulting("w"), Rereading("w")] + more).runs, 1);
    ReachJoin(CFG, steps, [Faulting("w"), Rereading("w")] + more);
    assert steps + ([Faulting("w"), Rereading("w")] + more) == steps + [Faulting("w"), Rereading("w")] + more;
    UnsafeStays(CFG, s, [Faulting("w"), Rereading("w")] + more, 1);
  }

  lemma ReachJoin(cfg: Config, a: seq<Step>, b: seq<Step>)
    ensures Reach(cfg, a + b) == Onward(cfg, Reach(cfg, a), b)
  {
    hide Next;
    OnwardJoin(cfg, START, a, b);
  }

  /** A planner that raises `AttemptBudgetExceeded` on the first tick leaves the continuation EXHAUSTED with none of its
      five attempts used. */
  lemma ExhaustedUnused()
    ensures exists steps :: Exhausted(Reach(CFG, steps).db, 0) && Reach(CFG, steps).db.conts[0].attempts == 0
                            && Reach(CFG, steps).db.conts[0].maxAttempts == 5
  {
    hide Next, HeldBy, Reach;
    Admitted();
    var s0 := Next(CFG, START, Admitting(0, 5, "cli", 0));
    Claimed(s0, WAITING0, map[], "t1", 0);
    var claim, renew := Claiming("w", 0, "t1", 10, 0), Refreshing("w", 10, 0);
    ReachesOn(CFG, s0, claim);
    ReachesOn(CFG, Next(CFG, s0, claim), renew);
    var s1 := Next(CFG, Next(CFG, s0, claim), renew);
    Refused(s1, s1.db.conts[0]);
    ReachesOn(CFG, s1, LookingUp("w"));
    var s2 := Next(CFG, s1, LookingUp("w"));
    ReachesOn(CFG, s2, PlannerRaised("w", AttemptBudgetExceeded));
    var s3 := Next(CFG, s2, PlannerRaised("w", AttemptBudgetExceeded));
    ReachesOn(CFG, s3, Rereading("w"));
    var s4 := Next(CFG, s3, Rereading("w"));
    Held(s4, s1.db.conts[0]);
    ReachesOn(CFG, s4, Committing("w", INPUTS));
    GivesUpUnused(s4, s1.db.conts[0]);
  }

  lemma Refused(s: Sys, row: Continuation)
    requires Shape(s, row, map[]) && "w" in s.ticks && s.ticks["w"].stage == Looking && s.ticks["w"].cid == 0
    requires !s.ticks["w"].exiting
    requires row.owner == Some("w") && row.token.Some? && s.ticks["w"].row == row && row.attempts < row.maxAttempts
    ensures var raised := Next(CFG, Next(CFG, s, LookingUp("w")), PlannerRaised("w", AttemptBudgetExceeded));
            var next := Next(CFG, raised, Rereading("w"));
            && next.db == s.db && "w" in next.ticks && next.ticks["w"].cid == 0
            && next.ticks["w"].stage == Writing(GiveUp("attempt budget exhausted"), row)
  {
    assert PendingIds(s.db.decs, 0) == {};
  }

  lemma GivesUpUnused(s: Sys, row: Continuation)
    requires 0 in s.db.conts && s.db.conts[0] == row && "w" in s.ticks && s.ticks["w"].cid == 0
    requires s.ticks["w"].stage == Writing(GiveUp("attempt budget exhausted"), row)
    requires HeldBy(s.db, 0, "w", TokenOf(row), row.version, 0) && row.token.Some?
    ensures var next := Next(CFG, s, Committing("w", INPUTS));
            && Exhausted(next.db, 0)
            && next.db.conts[0].attempts == row.attempts && next.db.conts[0].maxAttempts == row.maxAttempts
  {
  }
}
