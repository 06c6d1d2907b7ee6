# Sisyfus, modelled and proved in Dafny

This project models the verifier-gated continuation machine of Sisyfus and four smaller parts of the program, and
proves what they promise. `dafny verify dfyconfig.toml` checks all of it.

## What is modelled

**The continuation machine** (`src/sisyfus/autonomy/`). Workers claim leased continuations, reserve decisions, call
capabilities, store results and record verdicts; leases expire, workers die between two steps, and recovery gives the
work to others.

- `Models`, `Policy`: the planner's decisions, how they are cleaned, stored and read back; who may run what; the
  registry.
- `Tables`, `Operations`: the rows, the events, and each store method as one transaction: a function from a database
  and arguments to a committed database with a reply, or to an error.
- `Effects`, `Calls`, `Replay`, `StoreInvariants`, `StoreLaws`: what each call writes; exactly when it writes, and what
  it answers otherwise; the fold of the event log; what every sequence of calls keeps; transition table, fencing,
  versions, leases.
- `EventChain`, `Timestamps`: the hash chain, and why instants may be compared as text.
- `Store`: the class `AutonomyStore`, whose methods update the tables in place and append to the chained log. Each is
  proved equal to its transaction, loops over rows included.
- `Runtime`: `run_once` and the functions it calls as a step machine. Each tick in flight has a program counter and
  local copies; claims, renewals, recovery, cancellation, admission, faults and deaths of workers come between any two
  of its steps. A *run* is any sequence of steps.
- `RuntimeInvariants`, `RuntimeSteps`, `RuntimeLaws`, `Provenance`, `Exhaustion`, `AtMostOnce`, `SecondCalls`: the
  invariant of all runs and what follows from it. `Counterexamples` has two short runs that show what must not be
  promised.
- `Ticks`, `Outcomes`, `Fates`: one tick left to itself. Its answers fix every step; `Fates` tells, for each state of a
  continuation and each answer, what has been written and called when the tick is over.
- `Worker`: `run_once` again, as a class that drives an `AutonomyStore` call by call. What it does to the store is proved
  to be the claim of the first due row and that row's tick, played to its end, so the laws of runs and the table of
  fates hold of it.
- `Experience`: what the store learns from verdicts.

**Smaller parts**: `Tailing` and `Cost` (`dispatch/jobs.py`), `Throttle` (`dispatch/auth.py`), `Releases` and
`SemVers` (`updater.py`, with `Orders` for lexicographic order), `Meter` (`research_os/benchmark_provider.py`).

Text ids are numbers in their sort order; instants are whole microseconds. Hashes, random tokens, clock readings and
the answers of planner, capability, verifier, agent and tools are parameters: every property holds for all of them.
Ids and keys derived from hashes are not assumed to be distinct; the unique columns of the schema are enforced instead.
A claim draws a token that was never drawn before, and a worker id has one tick in flight at a time.

## Where the code and its promises part

- **A second call after an internal error.** A capability that is not safe to replay is called at most once for a
  decision, unless the internal-error exit (`runtime.py:262-263`, `runtime.py:683-704`) gives its continuation back
  between the call and the storing of the result: the exit does not flag the decision. The condition is exact: without
  that write the bound holds (`AtMostOnce.CalledAtMostOnce`), and after it, in every reachable state, some run goes on
  to a second call (`SecondCalls.SecondCallsFollowHazardsOnly`, `SecondCalls.FaultsAreCalledAgain`). If the lease runs
  out before the exit writes, recovery flags the decision and the bound stands. `Counterexamples.TwoCallsArePossible`
  is a run with two calls.
- **Exhausted with attempts left.** The planner runs inside the `try` of `run_once` (`runtime.py:231`), and
  `mark_exhausted` never looks at the budget. A planner that raises `AttemptBudgetExceeded` leaves the continuation
  EXHAUSTED with attempts unused; `Counterexamples.ExhaustedUnused` is such a run, with none of five used.
  `Exhaustion.ExhaustedWithAttemptsLeft` says exactly when that is so, `Exhaustion.ExhaustionIsEarned` that it is so in
  no other way.
- **Errors that leave `run_once`.** The exits catch `AutonomyError` only (`runtime.py:629-723`), so the integrity error
  of an id or key that is taken leaves them. `Worker.AutonomousRuntime.TakeExit` says exactly when.
- **Blank keys.** `Decision.normalized` is idempotent exactly when neither key consists of white space
  (`Models.NormalizingTwice`): the first cleaning leaves an empty text, the second one drops it.
- **Verdicts to VERIFYING.** `record_verdict` lets its caller send a row to `VERIFYING`, which leaves an active row
  without a lease, out of reach of claims and recovery (`StoreLaws.VerdictsMustRelease`). The only caller never does.
- **The model of a session.** `_drain` drops a model it has just read when a later session line of the same chunk
  carries none, so the stored model depends on how the output was cut into reads. `Tailing.PiecesAgreeOnTheModel` and
  `Tailing.UnclearModelsDiffer` give the exact condition; everything else a drain stores does not depend on the cut.
- **Confidence.** Recording the same lesson again observes nothing new, but moves its confidence
  (`Experience.RepetitionMovesConfidence`).
- **A half-removed release.** If clearing an old directory is cut off before its manifest goes, a later build of the
  same candidate takes the directory for its own and fails its hash check every time (first `ensures` about
  `SameIdentity` of `Releases.Installation.Build`). No link is affected.
- `references/autonomous-runtime-v08.md:34` says that expired leases return to WAITING; the code returns them to READY
  (`store.py:865-877`), and so does the model.

## Model

| member | source | states |
|---|---|---|
| Models.NormalizingTwice | src/sisyfus/autonomy/models.py:196-230 | cleaning twice equals cleaning once if and only if no key is blank text; the third cleaning never changes anything |
| Models.CleaningExactly | src/sisyfus/autonomy/models.py:196-230 | a decision is cleaned if and only if kind, reason, risk, capability, evidence id and wait are as asked for; then every field that is not a text is kept and every text is trimmed, a blank verifier becoming "default" |
| Models.KindsExactly | src/sisyfus/autonomy/models.py:196-200 | a text is a kind exactly when it is one of the five names, in letters of either case |
| Text.StripTakesSpaceOnly | src/sisyfus/autonomy/models.py:199-225 | trimming takes white space off both ends and nothing else |
| Text.UpperForgetsCase | src/sisyfus/autonomy/models.py:197-198 | two texts are one in upper case exactly when they differ in the case of letters only |
| Models.WrittenExactly | src/sisyfus/autonomy/models.py:240-255 | what is stored of a decision is the cleaned one, entry by entry |
| Models.ReadBack | src/sisyfus/autonomy/models.py:240-276 | reading back what `as_dict` wrote gives the cleaned decision cleaned once more, and a settled decision itself |
| Models.ReadBackWithKey | src/sisyfus/autonomy/store.py:933-939 | a settled decision stored under a reservation key reads back unchanged but for the key |
| Policy.StoredMayRun | src/sisyfus/autonomy/policy.py:126-149 | what `authorize` accepted before it was reserved it accepts when it is read back and resumed without a fresh check |
| Policy.AuthorizedMeans | src/sisyfus/autonomy/policy.py:126-149 | the six conditions that together are what lets an EXECUTE decision run |
| Policy.RefusalsAreTrue | src/sisyfus/autonomy/policy.py:126-149 | each reason for a refusal is given exactly when it is the first, in the order of the policy, that stands against the decision |
| Policy.CapabilityRegistry.Register | src/sisyfus/autonomy/policy.py:89-98 | a trimmed name is bound once, with a risk of 0 to 4; a refused registration changes nothing |
| Policy.CapabilityRegistry.Get | src/sisyfus/autonomy/policy.py:100-106 | finds exactly the registered names, each under its own trimmed name |
| Effects.EveryEffect | src/sisyfus/autonomy/store.py:607-1431 | a call changes nothing or finds and writes exactly what is listed for it: the lease it needs, the rows and the one event |
| Effects.RecoverEffect | src/sisyfus/autonomy/store.py:832-904 | recovery, however many rows it meets: which columns of which rows it may touch, and that no lease expired at its instant is left |
| Calls.CallsWriteExactly | src/sisyfus/autonomy/store.py:607-1431 | the other half: in every sound database each of the eleven calls changes something if and only if what it needs is there, so that none refuses what it should do |
| Calls.OwnershipErrors | src/sisyfus/autonomy/store.py:723-753 | which error says what an owner lacks: row, version, lease or state, each exactly |
| Calls.AdmitExactly | src/sisyfus/autonomy/store.py:513-583 | admits exactly a new id with at least one attempt |
| Calls.ClaimExactly | src/sisyfus/autonomy/store.py:607-679 | a named worker claims exactly the first due row, for the time asked for |
| Calls.RenewExactly | src/sisyfus/autonomy/store.py:681-721 | renews exactly a running lease of this token, else LeaseLost |
| Calls.ExhaustExactly | src/sisyfus/autonomy/store.py:1411-1431 | every owner may end its row, whatever is left of the budget |
| Calls.ReserveKeyedExactly | src/sisyfus/autonomy/store.py:947-1020 | books exactly a free key with an attempt left and a free id; no attempt left is AttemptBudgetExceeded for a free key only; a taken key returns its decision for the same request and is a conflict for another |
| Calls.ReserveExactly | src/sisyfus/autonomy/store.py:923-957 | under the planner's trimmed key, or the digest where it gave none; the cleaned decision is what is kept |
| Calls.StartExactly | src/sisyfus/autonomy/store.py:1022-1077 | starts exactly a reserved decision of the owner; one that executes is answered, any other refused |
| Calls.RecordExactly | src/sisyfus/autonomy/store.py:1079-1154 | stores a result exactly for an open decision of the owner; the same result again is answered, another one refused |
| Calls.VerdictExactly | src/sisyfus/autonomy/store.py:1156-1280 | judges exactly an executed decision of the owner without evidence, towards a state the table allows, under a free id; the same verdict again is answered, and every other case has its error |
| Calls.ApplyExactly | src/sisyfus/autonomy/store.py:1282-1390 | applies exactly a clean decision other than EXECUTE of the owner, with PASS evidence where it finishes, under a free id and key; where each kind leads, when it wakes and what it reports |
| Calls.CancelExactly | src/sisyfus/autonomy/store.py:1661-1701 | cancels exactly a continuation that has not ended |
| Calls.EventsAreSigned | src/sisyfus/autonomy/store.py:351-402 | a call adds at most one event, at its own instant, signed by the worker, the verifier or the person who made it |
| Calls.RecoveryIsReported | src/sisyfus/autonomy/store.py:865-904 | the event of a recovered row names who held it in which state, where it went, and what was open |
| Replay.PerformAgrees | src/sisyfus/autonomy/store.py:351-402 | if folding the log gives the tables before a call, it does after it, for all eleven calls |
| StoreInvariants.PerformKeeps | src/sisyfus/autonomy/store.py:607-1431 | each call keeps log and tables in agreement, leases whole, decisions and evidence linked one to one, keys unique, counters equal to rows and to events |
| StoreInvariants.StoreAlwaysSound | src/sisyfus/autonomy/store.py:513-1431 | the same in every database that any sequence of calls, by anybody and with any arguments, reaches |
| StoreLaws.EveryCallObeysTheTable | src/sisyfus/autonomy/store.py:69-106 | every state change of every call is an edge of the table, no edge leaves an ended row, and an equal version means an equal row up to the lease expiry |
| StoreLaws.EndingsAreFrozen | src/sisyfus/autonomy/store.py:1661-1701 | an ended continuation stays as it is through any further calls |
| StoreLaws.VersionPinsTheRow | src/sisyfus/autonomy/store.py:735-740 | checking the version suffices: if it has not moved, nothing but the lease expiry has, over any number of calls |
| StoreLaws.OwnersWriteOnlyWhatTheyHold | src/sisyfus/autonomy/store.py:723-753 | a call under a token changes something only if that row is leased under that token to that worker and the lease runs on; other rows, decisions and all evidence stay |
| StoreLaws.StaleTokensWriteNothing | src/sisyfus/autonomy/store.py:741-745 | a call under a token no row carries writes nothing at all |
| StoreLaws.TokensStayRetired | src/sisyfus/autonomy/store.py:681-721 | no call but a claim that draws it brings a retired token back |
| StoreLaws.OwnerOrRecovery | src/sisyfus/autonomy/store.py:744-746 | at one instant the owner's write and the recovery of the same row are never both possible |
| StoreLaws.ReservingAgain | src/sisyfus/autonomy/store.py:957-970 | a taken key adds no row and charges no attempt; the old decision is returned exactly for the same request of the same continuation, else it is a conflict |
| StoreLaws.ClaimableFromWakeOn | src/sisyfus/autonomy/store.py:619-634 | an idle continuation can be claimed exactly from its wake time on |
| StoreLaws.RecoveryEndsOnlySpentWork | src/sisyfus/autonomy/store.py:851-877 | recovery ends a row exactly when its budget is spent, nothing is pending and no PASS is stored; any other is ready again after the delay |
| StoreLaws.VerdictsMustRelease | src/sisyfus/autonomy/store.py:1156-1280 | a verdict leaves well-formed rows if and only if its target state is not RUNNING or VERIFYING |
| EventChain.Verify | src/sisyfus/autonomy/store.py:1703-1728 | succeeds exactly on accepted logs, with their head; else names the first faulty row and, by what is wrong in it, the first check it fails |
| EventChain.BuiltIsAccepted | src/sisyfus/autonomy/store.py:351-402 | every log built by appending is accepted and says what was appended |
| EventChain.AcceptedIsBuilt | src/sisyfus/autonomy/store.py:1703-1728 | and every accepted log is the one that appending its contents builds |
| EventChain.SameHeadSameLog | src/sisyfus/autonomy/store.py:1703-1728 | two accepted logs with one head are equal, or a hash collision is at hand; nothing is assumed of the hash |
| EventChain.HeadPinsEveryEvent | src/sisyfus/autonomy/store.py:1703-1728 | with an injective hash a remembered head pins every event: no edit, exchange, insertion or deletion keeps it |
| Timestamps.TextOrderIsTimeOrder | src/sisyfus/autonomy/store.py:41-56 | canonical texts have 27 characters and compare as the microseconds since year 1 do, equal texts meaning equal instants |
| Timestamps.TextReadsBack | src/sisyfus/autonomy/store.py:48-49 | the text has its separators in place, and its digits read back as the fields of the instant |
| Timestamps.YearsAreGregorian | src/sisyfus/autonomy/store.py:41-45 | the days before each year are those of the Gregorian calendar, in closed form |
| Timestamps.MonthsOfAYear | src/sisyfus/autonomy/store.py:41-45 | and those before each month, with the leap day |
| Timestamps.InstantIsDayAndTime | src/sisyfus/autonomy/store.py:41-45 | an instant is its day, of 86 400 seconds, and its time of day |
| Store.AutonomyStore.AppendEvent | src/sisyfus/autonomy/store.py:351-402 | the chain stays accepted and the log grows by exactly the event |
| Store.AutonomyStore.VerifyEventChain | src/sisyfus/autonomy/store.py:1703-1728 | the check passes on the store's own log in every state |
| Store.AutonomyStore.FindDue | src/sisyfus/autonomy/store.py:619-634 | the row the claim query selects: due, and first by step, creation and id; none exactly if none is due |
| Store.AutonomyStore.PendingDecision | src/sisyfus/autonomy/store.py:909-921 | the newest decision that is not verified |
| Store.AutonomyStore.NewestEvidence | src/sisyfus/autonomy/store.py:1616-1628 | the newest evidence row of a continuation |
| Store.AutonomyStore.Admit | src/sisyfus/autonomy/store.py:513-583 | the transaction `Operations.Admit`, on the tables in place; the invariants are kept |
| Store.AutonomyStore.ClaimDue | src/sisyfus/autonomy/store.py:607-679 | fails exactly for a blank worker, returns nothing exactly when nothing is due, else claims the first due row |
| Store.AutonomyStore.RenewLease | src/sisyfus/autonomy/store.py:681-721 | the transaction `Operations.Renew` with its reply or error |
| Store.AutonomyStore.MarkExhausted | src/sisyfus/autonomy/store.py:1411-1431 | the transaction `Operations.MarkExhausted`: `transition` as its one caller uses it |
| Store.AutonomyStore.RecoverExpiredLeases | src/sisyfus/autonomy/store.py:832-904 | the loop over the fetched rows equals the recursive transaction, and returns the expired rows in order of expiry and id |
| Store.AutonomyStore.ReserveDecision | src/sisyfus/autonomy/store.py:923-1020 | the transaction `Operations.Reserve` with its reply or error, key search included |
| Store.AutonomyStore.MarkExecutionStarted | src/sisyfus/autonomy/store.py:1022-1077 | the transaction `Operations.MarkStarted` |
| Store.AutonomyStore.RecordExecution | src/sisyfus/autonomy/store.py:1079-1154 | the transaction `Operations.RecordExecution` |
| Store.AutonomyStore.RecordVerdict | src/sisyfus/autonomy/store.py:1156-1280 | the transaction `Operations.RecordVerdict` for any target state; the tables stay sound if and only if the target is not an active state or nothing is written |
| Store.AutonomyStore.ApplyNonExecution | src/sisyfus/autonomy/store.py:1282-1390 | the transaction `Operations.ApplyPlain` |
| Store.AutonomyStore.CancelContinuation | src/sisyfus/autonomy/store.py:1661-1701 | the transaction `Operations.CancelContinuation` |
| RuntimeInvariants.DbOkKept | src/sisyfus/autonomy/store.py:607-1431 | calls made as the runtime makes them keep one open decision per continuation, earned endings, authorized payloads, results only of executed decisions |
| RuntimeInvariants.CallEvolves | src/sisyfus/autonomy/store.py:607-1431 | what any call guarantees to those it does not serve: decisions only move forward, rows change under their own token, lose it, or get a new one |
| RuntimeInvariants.TickSurvives | src/sisyfus/autonomy/runtime.py:265-313 | all that a tick knows survives every call made under another token |
| RuntimeSteps.LookUpKeeps | src/sisyfus/autonomy/runtime.py:271-313 | what a tick takes from the pending decision is true, authorized and not yet executed |
| RuntimeSteps.PlanKeeps | src/sisyfus/autonomy/runtime.py:315-356 | only authorized decisions get as far as a reservation |
| RuntimeSteps.CommitKeeps | src/sisyfus/autonomy/runtime.py:378-612 | each write of a tick, with its replies and errors, keeps the invariant; what a verdict leads to is used as `Runtime.SettlementMeans` says, verdict by verdict |
| RuntimeSteps.RaiseKeeps | src/sisyfus/autonomy/runtime.py:231-263 | whatever the planner raises, by any name the handlers know or none, keeps the invariant |
| RuntimeSteps.StepIsCall | src/sisyfus/autonomy/runtime.py:175-704 | what a step does to the database is what one call of the store does, or nothing |
| RuntimeSteps.InvAlways | src/sisyfus/autonomy/runtime.py:175-704 | the invariant holds after every sequence of steps of any number of workers in any interleaving, whatever planners answer or raise |
| RuntimeLaws.LogAlwaysAgrees | src/sisyfus/autonomy/store.py:351-402 | in every reachable state the fold of the log is the tables; version, attempts and steps count events and decisions; attempts stay within the budget |
| RuntimeLaws.OneDecisionAtATime | src/sisyfus/autonomy/runtime.py:205-245 | a continuation has at most one open decision, and while VERIFYING exactly one, which is EXECUTED |
| RuntimeLaws.OneVerdictPerDecision | src/sisyfus/autonomy/store.py:1156-1280 | an EXECUTE decision is VERIFIED exactly when it has evidence, then exactly one piece, of its own continuation |
| RuntimeLaws.EndingsAreEarned | src/sisyfus/autonomy/runtime.py:522-553 | SUCCEEDED has a stored PASS of its own, FAILED has spent all attempts |
| Exhaustion.ExhaustedWithAttemptsLeft | src/sisyfus/autonomy/runtime.py:231-254 | a reachable EXHAUSTED row has attempts left if and only if the tick that ended it had claimed it with attempts left and left through an `AttemptBudgetExceeded` raised by its planner |
| Exhaustion.ToldByThePlanner | src/sisyfus/autonomy/runtime.py:253-254 | such a tick was told by its planner, in that very tick, after its claim |
| Exhaustion.ExhaustionIsEarned | src/sisyfus/autonomy/runtime.py:211-230 | as long as no planner raises `AttemptBudgetExceeded`, EXHAUSTED means that every attempt is spent |
| Counterexamples.ExhaustedUnused | src/sisyfus/autonomy/runtime.py:656-681 | a run that ends a continuation as EXHAUSTED with none of its five attempts used |
| RuntimeLaws.LeasesAreWhole | src/sisyfus/autonomy/store.py:607-904 | owner, token, expiry and heartbeat are set together, exactly while RUNNING or VERIFYING |
| RuntimeLaws.RecoveryIsComplete | src/sisyfus/autonomy/store.py:832-850 | after recovery every lease still held runs beyond that instant |
| RuntimeLaws.NextObeysTheTable | src/sisyfus/autonomy/store.py:69-106 | each step of each run follows the transition table |
| RuntimeLaws.EndedStaysEnded | src/sisyfus/autonomy/store.py:69-106 | an ended continuation is frozen for the rest of the run |
| RuntimeLaws.KeysNameOneDecision | src/sisyfus/autonomy/store.py:957-970 | a decision keeps its continuation, payload and key for ever, and no other decision has that key |
| RuntimeLaws.OnlyAuthorizedRuns | src/sisyfus/autonomy/policy.py:126-149 | every call of a capability in every run, resumed ones too, is of the capability named in the decision row: registered, not denied, on the list if there is one, under the ceiling, at the declared risk, and with an idempotency key where one is asked for (by `Policy.AuthorizedMeans`) |
| RuntimeLaws.ResultsAreNotRecomputed | src/sisyfus/autonomy/runtime.py:271-313 | no tick that claimed after a result was recorded calls that capability again |
| RuntimeLaws.EvidenceRestsOnCalls | src/sisyfus/autonomy/runtime.py:378-521 | no evidence without work: a decision with evidence had its capability called |
| RuntimeLaws.RetryDelaysDouble | src/sisyfus/autonomy/runtime.py:613-627 | the delay `_settle` waits for starts at the base, doubles per attempt up to the maximum, and stays between them |
| RuntimeLaws.VerdictsLead | src/sisyfus/autonomy/runtime.py:522-611 | a verdict that is written leaves the row where verdict and budget say, verdict by verdict: PASS done or ready, FAIL ready at once, the others waiting for the retry delay, with nothing left FAILED or EXHAUSTED; released, one step on, judged by one piece of evidence that is the verifier's |
| Provenance.RowsAreThePlanners | src/sisyfus/autonomy/runtime.py:315-376 | every decision row to be executed keeps capability, arguments, risk, verifier, flags and scope of a decision some planner gave |
| Provenance.CallsDoThePlannersWork | src/sisyfus/autonomy/runtime.py:415-420 | every call of a capability, in any run, is made with the arguments, risk and flags a planner gave, its capability and verifier trimmed |
| Provenance.CallsKeepTheKey | src/sisyfus/autonomy/runtime.py:417-420 | however often a decision is called in a run, every call passes one idempotency key, that of its row, but for white space around it |
| Provenance.ResultsAreReturned | src/sisyfus/autonomy/runtime.py:415-456 | every stored result is what a call for that very decision returned |
| Provenance.EvidenceIsGiven | src/sisyfus/autonomy/runtime.py:458-520 | every piece of evidence is what a verifier said of that very decision |
| Provenance.RenewalsDecide | src/sisyfus/autonomy/runtime.py:87-104 | a renewal within the lease moves its end and lets the tick go on; any other ends the tick and writes nothing |
| Provenance.CallsFollowRenewals | src/sisyfus/autonomy/runtime.py:399-420 | in every run, each call of a capability is made by a tick whose last move was to renew a lease that had not run out |
| Outcomes.ReviewEnds | src/sisyfus/autonomy/runtime.py:458-520 | an undisturbed tick with a stored result ends with it judged and nothing called |
| Outcomes.RunEnds | src/sisyfus/autonomy/runtime.py:399-456 | one whose execution is marked calls once, stores what came back, and has it judged |
| Outcomes.StartEnds | src/sisyfus/autonomy/runtime.py:378-456 | a reserved decision is marked as started first |
| Fates.FailureEnds | src/sisyfus/autonomy/runtime.py:247-263 | what each error comes to: nothing written for a lost race, EXHAUSTED for a spent budget, BLOCKED for policy, conflict, unknown commit and missing evidence, WAITING for the base delay for any other |
| Fates.ResumeEnds | src/sisyfus/autonomy/runtime.py:271-313 | what becomes of a pending decision: judged without a call if it has a result, blocked if it is flagged and not safe to replay, else called once and judged |
| Fates.BookEnds | src/sisyfus/autonomy/runtime.py:347-376 | what becomes of an authorized decision: a free key is booked, started, called and judged; a spent budget exhausts; a request already judged is let be; a conflict blocks |
| Fates.PlanEnds | src/sisyfus/autonomy/runtime.py:315-376 | what becomes of any answer of the planner: unclean waits, unauthorized blocks, EXECUTE is booked, any other kind is applied, or blocks or waits where evidence or a free key is missing |
| Fates.TickEnds | src/sisyfus/autonomy/runtime.py:175-263 | every tick whose lease lasts, from any reachable state, ends as the table of fates says of its row, its pending decision, its newest evidence and its answers |
| Fates.PlayedTickEnds | src/sisyfus/autonomy/runtime.py:175-263 | and so does what `Worker.AutonomousRuntime.RunOnce` leaves behind when it has claimed a row |
| RuntimeLaws.TicksWriteOnlyTheirOwn | src/sisyfus/autonomy/runtime.py:265-269 | a tick writes only to its own continuation, under the token of its own claim, while that lease runs |
| RuntimeLaws.RetiredForEver | src/sisyfus/autonomy/store.py:642-660 | a token no row carries any more stays away for the rest of the run |
| RuntimeLaws.FencedForEver | src/sisyfus/autonomy/store.py:723-753 | after release, recovery or cancellation, the old tick and renewals under its token never write again, whatever happens in between |
| AtMostOnce.RecoveryFlags | src/sisyfus/autonomy/store.py:851-864 | recovery flags the unfinished decision of every lease that ran out |
| AtMostOnce.NextOnce | src/sisyfus/autonomy/runtime.py:271-456 | each step but the hazard keeps: at most one call made, at most one tick about to call, and what is open and unleased, or leased to a tick that has not looked yet, was never called |
| AtMostOnce.CalledAtMostOnce | src/sisyfus/autonomy/runtime.py:378-456 | over every run in which no write gives a called, open decision back to wait, a capability that is not safe to replay is called at most once per decision |
| SecondCalls.ResumedTickRunsOpenDecisions | src/sisyfus/autonomy/runtime.py:281-302 | an undisturbed resumed tick calls the capability if and only if the decision is unfinished and not flagged |
| SecondCalls.OpenIsCalled | src/sisyfus/autonomy/runtime.py:175-313 | from every reachable state some run goes on to call an open decision that nobody works on |
| SecondCalls.SecondCallsFollowHazardsOnly | src/sisyfus/autonomy/runtime.py:683-704 | after any run without hazards and one more step, a second call can follow without a further hazard if and only if that step is a hazard |
| SecondCalls.FaultsAreCalledAgain | src/sisyfus/autonomy/runtime.py:262-263 | in every reachable state in which a fault reaches a tick whose decision is called and still open, while its lease runs, a second call can follow |
| Counterexamples.TwoCallsArePossible | src/sisyfus/autonomy/runtime.py:262-263 | a concrete run in which a capability that is not safe to replay is called twice for one decision |
| Worker.AutonomousRuntime.RunOnce | src/sisyfus/autonomy/runtime.py:175-263 | from any reachable state, in terms of the database before the call: expired leases are recovered; a blank worker raises; None is returned if and only if no row is then due; else the first due row is claimed, and the state afterwards is that row's tick played to its end, without a death or an unnamed exception, and with at most one call. The integrity error leaves it exactly when an error exit of that tick meets a taken id or key |
| Worker.AutonomousRuntime.ClaimNext | src/sisyfus/autonomy/runtime.py:184-204 | recovery and the claim: which row, under which token and until when, or none exactly if none is due |
| Worker.AutonomousRuntime.CurrentOwned | src/sisyfus/autonomy/runtime.py:265-269 | the re-read is the machine's: the row as it is, or the race is lost |
| Worker.AutonomousRuntime.Refresh | src/sisyfus/autonomy/runtime.py:87-104 | a renewal without an event moves the tick on, or ends it |
| Worker.AutonomousRuntime.ResumePending | src/sisyfus/autonomy/runtime.py:271-313 | follows the machine for every status, flag and error; each error leaves the tick at its own exit |
| Worker.AutonomousRuntime.ApplyDecision | src/sisyfus/autonomy/runtime.py:315-376 | follows the machine through cleaning, policy, reservation and what comes after |
| Worker.AutonomousRuntime.ExecutePending | src/sisyfus/autonomy/runtime.py:378-456 | if it succeeds, this worker has called this decision's capability exactly once more; if not, at most once |
| Worker.AutonomousRuntime.VerifyPending | src/sisyfus/autonomy/runtime.py:458-520 | calls no capability, and follows the machine to the verdict |
| Worker.AutonomousRuntime.TakeExit | src/sisyfus/autonomy/runtime.py:629-723 | the exit ends the tick; an error leaves it, the integrity error, exactly when it applies a decision, still holds a running lease, and the id or key is taken |
| Experience.OneObservationEach | src/sisyfus/autonomy/store.py:1485-1509 | the rows counted for an outcome are as many as the distinct pieces of evidence |
| Experience.MemoryAlwaysOk | src/sisyfus/autonomy/store.py:1445-1530 | supports and counterexamples always equal those numbers, standing follows from them, confidence stays within 0 and 1 |
| Experience.OrderAndRepetitionDoNotMatter | src/sisyfus/autonomy/store.py:1485-1509 | counts and standing depend on the set of observations only |
| Experience.StandingMeans | src/sisyfus/autonomy/store.py:1436-1443 | each of the four standings, if and only if its condition on the evidence for and against holds; validated: at least the threshold support and nothing contradicts |
| Experience.RecordedRow | src/sisyfus/autonomy/store.py:1453-1530 | a lesson writes its own row only, with its claim, and a confidence half way between the one before, or its own if it is the first, and the empirical value |
| Experience.SuccessionRule | src/sisyfus/autonomy/store.py:1511-1511 | the empirical value is the rule of succession |
| Experience.BlendHalves | src/sisyfus/autonomy/store.py:1511-1512 | confidence moves half way to the empirical value, and the clamp never acts |
| Experience.RepetitionMovesConfidence | src/sisyfus/autonomy/store.py:1511-1512 | repeating a lesson keeps its counts and standing but moves its confidence unless it is at the empirical value |
| Experience.ExperienceTable.Record | src/sisyfus/autonomy/store.py:1445-1530 | the update in place equals the recorded memory and keeps all that |
| Tailing.PiecesAgreeWithOnePass | src/sisyfus/dispatch/jobs.py:272-343 | however a growing file is cut into reads: events and numbers, offset, session, last text and last result are those of one pass; the offset is at a line start |
| Tailing.DrainMeans | src/sisyfus/dispatch/jobs.py:304-343 | what a drain leaves in the job, by the places of the events: the session of the last event that names one, the text of the last text, the model of the last opening that carries one, the last result; each as before where there is none |
| Tailing.DrainWaits | src/sisyfus/dispatch/jobs.py:304-314 | a missing or shrunken file, or one without a complete new line, changes nothing |
| Tailing.LinesAreTheText | src/sisyfus/dispatch/jobs.py:311-318 | the lines read are the complete part of the text, cut at each newline and nowhere else |
| Tailing.StoredInOrder | src/sisyfus/dispatch/jobs.py:320-336 | every event but the openings is stored once, in order, and nothing else is |
| Tailing.AppendedInOrder | src/sisyfus/dispatch/jobs.py:129-139 | numbered events go behind those that are there, which stay |
| Tailing.EventsOfOneLine | src/sisyfus/dispatch/jobs.py:317-319 | a line of white space has no events, any other those it projects to |
| Tailing.PiecesAgreeOnTheModel | src/sisyfus/dispatch/jobs.py:320-324 | if the model is clear, the whole reading is that of one pass |
| Tailing.UnclearModelsDiffer | src/sisyfus/dispatch/jobs.py:320-324 | if it is not, some cut right after a session event stores another model than one pass |
| Tailing.NumbersAreConsecutive | src/sisyfus/dispatch/jobs.py:129-139 | appending keeps the numbers 1 to n |
| Tailing.Tail.Drain | src/sisyfus/dispatch/jobs.py:304-343 | the loop over lines and events computes the specified reading |
| Tailing.Tail.Monitor | src/sisyfus/dispatch/jobs.py:272-296 | the polling loop keeps the last result and is the successive drains |
| Cost.StoredTotalIsRight | src/sisyfus/dispatch/jobs.py:378-389 | the stored total is within half a unit of 0.0001 per charged turn of the sum of the last values of all counters |
| Cost.OneSessionTotal | src/sisyfus/dispatch/jobs.py:378-389 | in one session whose counter never falls it is that close to the last counter |
| Cost.IncreasesTelescope | src/sisyfus/dispatch/jobs.py:383-387 | without rounding, the increases telescope to the last value before each reset or change of session plus the final one |
| Cost.RoundingDrift | src/sisyfus/dispatch/jobs.py:386-386 | rounding touches the total only, by at most half a unit per charged turn |
| Cost.RoundExactly | src/sisyfus/dispatch/jobs.py:386-386 | the rounded total is a whole number of ten-thousandths, the nearest one, and the even one of two |
| Cost.Ledger.Close | src/sisyfus/dispatch/jobs.py:378-389 | the accounting in place keeps that bound after every turn |
| Releases.VerifiedMeans | src/sisyfus/updater.py:681-697 | a release passes if and only if it is complete, unchanged, startable and of the version asked for; each complaint is true |
| Releases.CutOffAnywhere | src/sisyfus/updater.py:700-830 | wherever a history of atomic changes is cut off, both links name whole releases, and a directory does not change while a link names it |
| Releases.Installation.Build | src/sisyfus/updater.py:700-766 | a history of changes none of which touches a linked directory; success leaves a whole release of the candidate's identity, and a cleared directory ends with the copied files and, exactly if they start, their manifest; unsafe ids and linked directories of another identity are refused exactly |
| Releases.Installation.Activate | src/sisyfus/updater.py:768-830 | fails exactly on unverified releases, changing nothing; else every state on the way has a safe pair of links |
| Releases.Installation.Rollback | src/sisyfus/updater.py:994-1014 | succeeds exactly when there is a previous release, and exchanges the links; twice restores both exactly when there was a current release, as on every safe disk (`TwoRollbacks`), and once undoes an update (`RollbackUndoesUpdate`) |
| SemVers.ParsesExactly | src/sisyfus/updater.py:109-115 | a text parses as a version if and only if, trimmed, it is an optional `v`, three numbers with dots, the prerelease and an optional build; so no text is two versions |
| SemVers.PrintedReadsBack | src/sisyfus/updater.py:104-119 | printing a version and parsing it gives it back |
| SemVers.ParsedIsWellFormed | src/sisyfus/updater.py:109-115 | what parsing returns is printable in that sense |
| SemVers.NormalizingTwice | src/sisyfus/updater.py:133-134 | normalizing is idempotent, and two texts normalize alike exactly when they mean the same version |
| SemVers.PrecedenceIsStrictWeak | src/sisyfus/updater.py:128-131 | precedence by section 11 of Semantic Versioning 2.0.0 is a strict weak order |
| SemVers.SortKeyIsPrecedence | src/sisyfus/updater.py:119-131 | comparing sort keys as tuples never compares a number with a text, and is that precedence |
| SemVers.OffersOnlyNewer | src/sisyfus/updater.py:840-851 | off the edge channel only newer versions are offered, or other ones when asked for by version; an installed version is not offered again |
| SemVers.EdgeOffers | src/sisyfus/updater.py:840-851 | on the edge channel the commits decide; off it nothing can be said exactly when a version does not parse |
| SemVers.OffersCompose | src/sisyfus/updater.py:840-851 | two offers in a row never lead back |
| Throttle.WaitIsExact | src/sisyfus/dispatch/auth.py:152-160 | a positive wait is the time after which, and not before, a further attempt is let through, and later checks name the rest of it |
| Throttle.SpacedGrows | src/sisyfus/dispatch/auth.py:138-166 | a failure let through keeps more than `limit` failures of a client, between its successes, a window apart |
| Throttle.LoginThrottle.BlockedFor | src/sisyfus/dispatch/auth.py:152-160 | forgets exactly what left the window, blocks exactly at the client's limit or the ceiling, and keeps both bounds |
| Throttle.LoginThrottle.Failed | src/sisyfus/dispatch/auth.py:162-163 | records the failure whatever was checked, and keeps both bounds over the whole run if the client was below its limit and all of them below the ceiling |
| Throttle.LoginThrottle.Succeeded | src/sisyfus/dispatch/auth.py:165-166 | forgets the client's failures and nobody else's |
| Throttle.LoginThrottle.Login | src/sisyfus/dispatch/server.py:242-246 | check, verify and record as one step, the record at a later time than the check |
| Meters.AlwaysBalanced | src/sisyfus/research_os/benchmark_provider.py:120-166 | over all operations and replies: calls within the limit, spending equal to the price of the summed tokens, and, unless violated, both budgets kept with the reservation counted in |
| Meters.GrantedExactly | src/sisyfus/research_os/benchmark_provider.py:133-145 | a request is granted exactly when none is unresolved, a call and output are left and its worst case can be paid, and then for as much output as one call may have and is left |
| Meters.SettledExactly | src/sisyfus/research_os/benchmark_provider.py:156-166 | a reply is booked with its tokens, at the rates per million |
| Meters.HonestRepliesStayInBudget | src/sisyfus/research_os/benchmark_provider.py:156-166 | a reply within its reservation costs no more than was reserved and raises no flag |
| Meters.ViolationMeansExcess | src/sisyfus/research_os/benchmark_provider.py:156-166 | the flag goes up exactly when a reply exceeds its reservation, and stays up |
| Meters.Meter.Reserve | src/sisyfus/research_os/benchmark_provider.py:133-145 | the specified books and cap, or an error while a request is unresolved |
| Meters.Meter.Release | src/sisyfus/research_os/benchmark_provider.py:147-154 | the specified books; after a reservation, those from before it (`ReleaseUndoesReserve`) |
| Meters.Meter.Settle | src/sisyfus/research_os/benchmark_provider.py:156-166 | the specified books |

## Left out

- Opportunities, and the lesson events that `record_verdict` adds to the log: they change no continuation, decision or
  evidence. Lessons themselves are in module Experience.
- SQLite, JSON and SHA-256: transactions are atomic, payloads are records, hashes are parameters. The random id of an
  event is not part of its content here.
- `transition` with arguments other than those of `mark_exhausted`: it has no other caller.
- Store.AutonomyStore.Admit: does not model the lookup of the opportunity, the return of the row it was admitted to
  before, nor the check that it is open, because opportunities are not part of this model.
- StoreLaws.ReservingAgain: compares payloads as records. The source compares decoded JSON with a Python dict, in which
  an argument that holds a tuple differs from the list it was stored as, and conflicts with itself.
- AtMostOnce.CalledAtMostOnce: excludes the write named above, after which the bound is false.
- Exceptions raised by reading attributes of capabilities and verifiers, which are plain data; what a capability or a
  verifier raises when it is called is turned into a result by `run_once`, and is a result here.
- The renewing thread of `LeaseHeartbeat` is a renewal step that may come at any time; its stop flag, timers and joins
  are not modelled. A tick that goes on after a renewal was lost is covered, since losing the lease is.
- Several ticks in flight under one worker id: `_current_owned` checks the worker id alone.
- Runtime: ticks that interleave are program counters over values, because a method body runs undisturbed; module
  Worker has the methods in the source's own form for one tick at a time. There, one set of hashes and clock readings
  serves all writes of a tick but the error exit.
- Fates.TickEnds: speaks of ticks whose lease outlasts their writes and whose new ids are free; a tick that loses its
  lease, or that others come between, is the subject of the laws of runs.
- Planner, capability and verifier bodies, and activity tracking: their answers are arbitrary.
- That every continuation ends: a planner that repeats a verified key is answered from the cache without a charge.
- `str.upper` beyond ASCII letters, and decimal digits beyond ASCII in version texts.
- Floats: costs, prices, confidence and times are reals, and `round` to four places is exact.
- Throttle.LoginThrottle.constructor: takes limits of at least 1 and a positive window; with a limit of 0 the program
  indexes an empty list.
- Tailing.Tail.Drain: a crash between storing the events and saving the offset stores the batch again.
- The redaction and shape of agent lines: `project_line` is an arbitrary function of the line.
- Releases: paths outside the releases directory, launchers and Skill links, and the update state file.
- Downloads, archives, locks and active-work checks of the updater; HTTP, sessions and passwords of the dispatcher.
- Rubrics, routing, memory notes, promotion, benchmarks, the research reducer and the workers of missions.
