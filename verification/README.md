# Verified model of the secretary's state service, memory, browser control and job delivery

A Dafny 4.11 model of the parts of the repository that must survive crashes,
lost replies and several actors at once, with proofs about every run.

- **State service** (`Store`, `Effects`, `Lifecycle`, `Records`, `Runs`,
  `Guarantees`, `Answers`, `Dispositions`, `Decisions`, on `Plan`, `Journal`,
  `Ledger`): writer leases with fencing
  generations, inputs, turns, append-only plans, claims, one-shot approvals, the
  usage ledger with budget waits, the journal, recovery and commit. The store is
  a value, every operation a function of it, and a run is any sequence of steps by
  any writers and humans. `Guarantees` holds what every run keeps; `Answers`,
  `Dispositions` and `Decisions` say on the rows and the log what each call leaves
  behind and answers; `Cases` holds concrete runs to the rough edges; `FakeState` is
  the object with its fields and loops, each method proved against its step.
- **Layered memory** (`Sealing`, `Layers`, `MemoryView`, `Maintenance`,
  `MemoryShelf`): sealing the journal tail, applying summaries, installing and
  creating upper-layer targets, exactly when each happens, and the view that is sent.
- **Memory branch** (`Branch`, `Pager`): the read, review and confirm protocol of a
  replacement, over saved checkpoints, and the UTF-8 pager.
- **Rendering** (`Render`, `Pairs`, `Attribution`, `Snapshot`, `SourceFile`,
  `SealedViews`): journal records as provider-native call/result pairs, which result
  answers which call, which message stands for which record, when a frozen view may be
  branched for a chunk, the source file made from it, and why sealed boundaries are
  boundaries between messages.
- **Memory and branches together** (`CertifiedMemory`, `Provenance`): chunks claimed with
  a frozen view, and where every record a block stands for was read.
- **History** (`History`): paging and searching the journal.
- **Shared browser** (`Browser`): control epochs, single-use observations and
  dispatch, as atomic segments between awaits.
- **Jobs** (`Jobs`): the backend row, the supervisor's journal, finishing and
  reconciling, with crashes and lost replies.

`dafny verify dfyconfig.toml` checks everything.

## Reading the theorems

Time is a number in the state; identifiers, JSON values and texts whose content does
not matter are integers compared for equality; what a tool does, what a model decides
and whether a request is well formed are parameters of a step.

A theorem over runs holds on *any* run, or names what the callers must take care of
(`Runs.Care`), each condition only where it is used:

- nothing: effects and approvals, fencing, one running turn, timed and unstranded
  waits, journal numbers and receipts, and everything recorded but turns and commits;
- `FreshIds`, a load uses a turn id never used before: lineages without repeats,
  finished turns and stored commits;
- `AdmitFirst`, a call is admitted before it is recorded: no missed wake-up, balanced
  books, the cap;
- `SoundWaits`, an await commit carries a well-formed wait (with `FreshIds`): a claimed
  input has a running turn.

The job theorems name one condition, `Jobs.Apart`, and the acceptance of raw chunks one,
`SealedViews.GoesOnward`: no record continues a round that has a sealed record.

For one step the last two of the list are exact: `CommitKeepsLivesIff` for claims matched to running
turns, `AdmitKeepsBooksIff` for balanced books.

Where code and comments part, the model follows the code, and each case has a concrete
input and its exact condition:

- A commit whose wait is malformed is refused after its records landed and its turn was
  closed; its input stays claimed by a turn that no longer runs
  (`MalformedWaitStrandsClaim`, `CommitKeepsLivesIff`).
- An identical replay of a commit conflicts when it was sent without an `error` key, since
  the stored copy always carries the key, and when its error text has a NUL, since the
  stored text has none (`ReplayWithoutErrorConflicts`, `ReplayWithNulConflicts`,
  `CommitReplay`).
- A decision requeues a waiting input even if another approval or a budget wait is open
  (`DecisionRequeuesEarly`, `DecisionFreesIff`).
- A call recorded before it is admitted is counted twice (`AdmitAfterRecordDoubles`,
  `AdmitKeepsBooksIff`).
- The runner's note about a refused lost-outcome attachment reads as settled to the
  reconciler even when the refusal was transient (`RefusalReadsSettled`,
  `ReadsSettledIff`). An exited journal is still reported by the next reconciliation
  (`ReconcileRetries`); one without a process never is (`UnlaunchedIsLeft`).
- The report of a job that never started is not among the active executions, so the
  attention pass can take the job up while the report is under way; the report then
  overwrites the outcome that pass froze and sent (`OvertakingDiverges`,
  `OvertakenIsOverwritten`). Without that the frozen outcome is final.
- Calls journaled without a round can join a message across a sealed boundary
  (`RoundlessCallCrosses`); then the view is refused for the chunk
  (`OwnViewFitsRawIff`).
- A maintenance pass can end with a prepared target that could be installed and whose
  layer is over its limit: it consumes layer 2, and a later target was installed onto
  that layer in the same pass (`LaterInstallLeavesOver`, `MaintainSettles`,
  `TwoWaitIff`). It takes a kept target that was taken up again while another was in
  flight (`PassInstallsAll`).

## Model

| member | source | states |
|---|---|---|
| `Guarantees.ExactlyOnce` | apps/core/src/fake-state.ts:2147-2356 | over every run of every kind of step, two effects at one plan position (input, flat call index) are the same effect |
| `Guarantees.EffectsAreRecorded` | apps/core/src/fake-state.ts:2187-2356 | every effect is the call the durable plan holds at its flat index, found there by the subtracting walk too, and its operation is done |
| `Guarantees.RecordedClaimsAgree` | apps/core/src/fake-state.ts:2187-2217 | a claim for the call the plan records is never refused as divergent, whichever attempt sends it |
| `Guarantees.FinishedClaimReplays` | apps/core/src/fake-state.ts:2208-2248 | claiming a finished operation again returns the recorded row, says it is not fresh, leaves everything but the journal as it was, and journals only records the input's lineage lacked |
| `Guarantees.NormalCallRuns` | apps/core/src/fake-state.ts:2292-2356 | the first claim of a normal call nobody denied adds exactly its effect and finishes its operation with the answer |
| `Guarantees.ElevatedCallParks` | apps/core/src/fake-state.ts:2265-2291 | the first claim of a well-formed elevated call adds no effect and one pending approval, and parks its operation |
| `Guarantees.GrantedCallRuns` | apps/core/src/fake-state.ts:2409-2459 | a parked call runs exactly when its approval is granted and unspent, spending it; otherwise nothing changes but the journal |
| `Answers.ClaimTells` | apps/core/src/fake-state.ts:263-290 | an accepted claim whose lineage had no result journals the truth: a response exactly when the operation is done with it, a failure exactly when it failed, as a denial exactly when a denial failed it, and nothing while there is no outcome |
| `Answers.ClaimIsKnown` | apps/core/src/fake-state.ts:1986-2031 | after an accepted claim the lineage knows call and result once there is an outcome, and the request while it waits for a decision |
| `Answers.RejectionTells` | apps/core/src/fake-state.ts:2018-2076 | a rejected claim of the recorded call changes no row and is told as that call's failure, with its cause |
| `Answers.CompletionTells` | apps/core/src/fake-state.ts:3731-3762 | completing finishes the operation with what was reported and tells it so: a response when done, a failure exactly when it failed |
| `Answers.CompletedByClaimant` | apps/core/src/fake-state.ts:3738-3747 | only the writer that claimed an operation finishes it, while it runs under the lease |
| `Answers.ClaimSays` | apps/core/src/fake-state.ts:224-292 | what an accepted claim journals is of its own call as the plan records it, round, text, call, request for approval and result, and the text its round came with is known once the call has an outcome or waits |
| `Answers.ClaimAccepted` | apps/core/src/fake-state.ts:1986-2217 | a claim is accepted only from the live turn under the lease for the very call its plan records; refused it changes nothing, but that a malformed request for a recorded call is told |
| `Decisions.MalformedFails` | apps/core/src/fake-state.ts:2265-2281 | a malformed elevated call fails with its fault: it neither runs nor is asked for |
| `Decisions.DeniedTwinFails` | apps/core/src/fake-state.ts:2296-2319 | a call identical to one denied for this input fails by such a denial |
| `Decisions.MessageFails` | apps/core/src/fake-state.ts:2320-2335 | a message on the normal route fails for want of the elevated one |
| `Decisions.EffectFails` | apps/core/src/fake-state.ts:2336-2459 | an effect that breaks in passing leaves the store as it was, the grant unspent; a granted one that refuses fails its operation and spends the grant |
| `Decisions.RunningIsTakenOver` | apps/core/src/fake-state.ts:2219-2235 | an operation row another generation left running, as on no run of these steps, becomes this turn's and runs nothing again |
| `Decisions.NoteIsJournaled` | apps/core/src/fake-state.ts:2621-2640 | a note that runs is in the journal, by its turn |
| `Effects.RunKeeps` | apps/core/src/fake-state.ts:2147-2460 | every state of every run keeps: operations bound to recorded calls, none left running, approvals bound, effects at most once, decisions recorded, elevated effects approved, denials not sidestepped |
| `Effects.StepKeeps` | apps/core/src/fake-state.ts:2147-2460 | each single step keeps that invariant, with no condition on the caller |
| `Effects.AppendGrows` | apps/core/src/fake-state.ts:1585-1659 | appending a round to one input's plan moves no recorded call of any input |
| `Plan.WalkAgreesWithFlat` | apps/core/src/fake-state.ts:2079-2094 | the subtracting walk finds a call exactly for indices inside the flattened plan, the same call, with its round and text |
| `Plan.RunningCountAgreesWithFlat` | apps/core/src/secretary.ts:866-905 | the number of results collected before a call is that call's index in the flattened plan |
| `Plan.FlatStable` | apps/core/src/fake-state.ts:1585-1659 | appending a round keeps every earlier flat index on its call |
| `Decisions.SaveAnswers` | apps/core/src/fake-state.ts:1585-1659 | a round is appended exactly when it is the next one; a recorded one is accepted again exactly as it is |
| `Plan.PlanPosition` | apps/core/src/fake-state.ts:2079-2094 | the cursor loop computes the walk |
| `Plan.ReplayOrder` | apps/core/src/secretary.ts:841-913 | a replay sends the calls of the recorded plan in flat order, each under its own flat index and round |
| `Guarantees.ElevatedNeedsApproval` | apps/core/src/fake-state.ts:2409-2459 | on any run an elevated effect is preceded by an approve_once of its own position from the human bound to the persona |
| `Guarantees.DeniedNeverRuns` | apps/core/src/fake-state.ts:2726-2853 | once a position is denied, it has no effect after any further steps of any run |
| `Guarantees.DenialNotSidestepped` | apps/core/src/fake-state.ts:2296-2319 | after a denial no effect on the normal route for that input has the denied tool and request |
| `Guarantees.GrantSpentOnce` | apps/core/src/fake-state.ts:2409-2459 | an elevated effect has consumed its approved grant, is the only effect at its position, and leaves no operation there waiting to run |
| `Effects.GrantIsApproval` | apps/core/src/fake-state.ts:2409-2459 | an approved grant stands in the trail as the bound human's approval |
| `Runs.ResolveForward` | apps/core/src/fake-state.ts:2726-2853 | a decision changes only a pending approval and undoes nothing recorded |
| `Decisions.DecisionDecides` | apps/core/src/fake-state.ts:2726-2853 | a decision decides its approval and no other, is journaled by the turn that asked, and when it denies fails exactly the operation that waited for it |
| `Decisions.ApprovedCallRuns` | apps/core/src/fake-state.ts:2409-2459 | approve a parked call, then claim it: it runs once and answers |
| `Decisions.DeniedCallTells` | apps/core/src/fake-state.ts:2726-2853 | deny a parked call, then claim it: nothing runs and the journal tells a denial |
| `Decisions.ResolveAnswers` | apps/core/src/fake-state.ts:2726-2790 | a decision is accepted exactly from the active persona's own human, for a pending approval or again as it was |
| `Guarantees.GenerationsIncrease` | apps/core/src/fake-state.ts:770-808 | on any run, between two granted leases of a persona the generation strictly grows, whatever runs in between |
| `Guarantees.SupersededForGood` | apps/core/src/fake-state.ts:661-666 | on any run, once a newer generation exists the older one never holds the lease again |
| `Lifecycle.SupersededChangesNothing` | apps/core/src/fake-state.ts:661-666 | a fenced call under a generation that is not the lease's leaves the whole store as it was |
| `Lifecycle.SupersededClaimChangesNothing` | apps/core/src/fake-state.ts:1986-2076 | so does a claim, including the journaling of a rejected one |
| `Lifecycle.AcquireIsNew` | apps/core/src/fake-state.ts:770-808 | a granted lease carries the newest generation and its predecessor no longer holds |
| `Dispositions.LeaseAnswers` | apps/core/src/fake-state.ts:770-826 | acquiring is granted exactly to an active persona whose lease is missing, over, or the caller's own, for the time asked; renewing moves the end only, for the holder only |
| `Dispositions.LeaseIsExclusive` | apps/core/src/fake-state.ts:770-844 | over any run nobody takes over a lease before it runs out, unless its holder lets go |
| `Lifecycle.RecoveryLeavesNone` | apps/core/src/fake-state.ts:846-910 | after recovery the persona has no running turn and no claimed input, whatever state it started from |
| `Dispositions.RecoveryRequeues` | apps/core/src/fake-state.ts:846-910 | recovery requeues each claimed input of the persona, interrupts its running turns, and leaves every other input and turn as it was |
| `Dispositions.CrashedInputIsServed` | apps/core/src/fake-state.ts:846-910 | after a crash and a recovery the next load serves the input again unless an older one is due |
| `Decisions.RecoveryMarks` | apps/core/src/fake-state.ts:862-876 | a crashed turn that had spoken is marked once, by a pause of its own; one that had not is not |
| `Dispositions.InputsMove` | apps/core/src/fake-state.ts:770-2853 | every step moves every input only as stated: which steps claim, requeue, park, end or wake it, and under what condition |
| `Dispositions.DoneByCommit` | apps/core/src/fake-state.ts:1761-1913 | on any run an input is done only by a commit of its turn that completed it or failed it for good |
| `Dispositions.LoadServes` | apps/core/src/fake-state.ts:1436-1522 | with no running turn a load serves the oldest input that is due, in a new turn whose attempt counts the earlier ones other than waits; with none due nothing changes |
| `Dispositions.LoadAnswers` | apps/core/src/fake-state.ts:1436-1532 | a load is refused exactly while a turn of an older writer is left running, and no more once that writer's work is recovered |
| `Guarantees.OneLiveTurn` | apps/core/src/fake-state.ts:1436-1522 | on any run each persona has at most one running turn and that turn's input is claimed; with fresh turn ids and well-formed waits every claimed input has a running turn |
| `Guarantees.NothingStranded` | apps/core/src/fake-state.ts:1761-1913 | on any run a waiting input has a pending approval or a parked wait (one that does not fit, if calls are admitted first); waiting_since is set exactly while waiting and waited_ms is the sum of the finished waits |
| `Guarantees.NoMissedWakeUp` | apps/core/src/fake-state.ts:929-1035 | on every run that admits calls first no parked budget wait fits the cap and rates in force |
| `Decisions.ResumeAnswers` | apps/core/src/fake-state.ts:977-1035 | re-evaluating a funding deletes exactly its waits that no longer overdraw it and requeues exactly their waiting inputs that no approval holds |
| `Decisions.RunPrices` | apps/core/src/fake-state.ts:977-1010 | on any run every parked wait is priced under the card in force for its funding |
| `Decisions.BudgetIsSet` | apps/core/src/fake-state.ts:917-945 | a budget is set or removed for its own funding only |
| `Lifecycle.StepKeeps` | apps/core/src/fake-state.ts:770-1966 | every step keeps fencing, one running turn with its input claimed, timed and unstranded waits; it keeps no missed wake-up and balanced books if it admits first, and claims matched to running turns if its turn id is fresh and its wait well formed |
| `Lifecycle.CommitKeeps` | apps/core/src/fake-state.ts:1661-1930 | a commit keeps all of that, also one refused half way, except claims matched to running turns when its wait is malformed |
| `Lifecycle.ResumeMissesNone` | apps/core/src/fake-state.ts:977-1010 | re-evaluating a funding leaves no fitting wait on it and touches no figure |
| `Lifecycle.ReconcileNoMissed` | apps/core/src/fake-state.ts:1938-1966 | turning holds into unrecorded facts frees nothing, so no wait starts to fit |
| `Lifecycle.RequeuedTimed` | apps/core/src/fake-state.ts:1012-1035 | requeuing ends the current wait and adds it to the finished ones |
| `Runs.StepForward` | apps/core/src/fake-state.ts:770-2853 | no step undoes anything recorded: inputs, done, plans, finished operations, decisions, spent grants, journal, facts, effects, generations; nor, with a fresh turn id, finished turns and stored commits |
| `Runs.SturdyRun` | apps/core/src/fake-state.ts:770-2853 | any run keeps every invariant that has no condition, and undoes nothing recorded |
| `Runs.LinedRun` | apps/core/src/fake-state.ts:770-2853 | a run with fresh turn ids keeps every lineage without repeats and undoes no finished turn and no stored commit |
| `Runs.BooksRun` | apps/core/src/fake-state.ts:929-1427 | a run that admits calls first keeps every wait unfitting and the books balanced |
| `Runs.MatchedRun` | apps/core/src/fake-state.ts:1436-1930 | a run with fresh turn ids and well-formed waits keeps every claimed input under a running turn |
| `Guarantees.CommitKeepsLivesIff` | apps/core/src/fake-state.ts:1790-1812 | a commit keeps claims and running turns matched exactly when its wait is well formed |
| `Cases.MalformedWaitStrandsClaim` | apps/core/src/fake-state.ts:1790-1812 | a run to a commit with a malformed wait that leaves the input claimed by a closed turn |
| `Guarantees.CommitReplay` | apps/core/src/fake-state.ts:1667-1701 | repeating a commit changes nothing; it is accepted exactly when the request carried an error key that is undefined or a text without a NUL, and conflicts exactly when the key was absent or its text had a NUL |
| `Cases.ReplayWithoutErrorConflicts` | apps/core/src/fake-state.ts:1667-1701 | a run in which repeating a commit sent without an error key conflicts |
| `Cases.ReplayWithNulConflicts` | apps/core/src/fake-state.ts:1667-1701 | a run in which repeating a commit whose error text has a NUL conflicts |
| `Guarantees.DecisionFreesIff` | apps/core/src/fake-state.ts:2836-2851 | a decision requeues its waiting input, and nothing holds that input up any longer exactly when no other approval of it was pending and no wait was parked for it |
| `Cases.DecisionRequeuesEarly` | apps/core/src/fake-state.ts:2836-2851 | a run in which one of two parked calls of an input is decided and the input is queued while the other is pending |
| `Guarantees.RecoverySettlesHolds` | apps/core/src/fake-state.ts:893-905 | recovery ends exactly the holds of older generations of the persona that still stand |
| `Guarantees.CommitSettlesHolds` | apps/core/src/fake-state.ts:1916-1928 | a commit ends exactly the holds of its own turn that still stand, and none when it is refused for its wait |
| `Guarantees.CommitSettles` | apps/core/src/fake-state.ts:1761-1930 | a commit touches its own input only: complete ends it; fail ends it, or requeues it for when the doubling backoff of at most 30 seconds, or the up to two minutes asked for, is over; await parks it exactly while its priced estimate overdraws its budget, or without a wait while an approval of it is pending, a budget wait with its row; and none of the turn's holds is left held |
| `Decisions.CommitCloses` | apps/core/src/fake-state.ts:1761-1913 | a commit closes its turn with its outcome: output and usage, or the error without its NULs; no other turn changes |
| `Decisions.CommitRecords` | apps/core/src/fake-state.ts:1702-1760 | a commit appends its turn's records in the order given, every one without an experience key, and leaves every experience and input it names known and received |
| `Decisions.CommitAnswers` | apps/core/src/fake-state.ts:1661-1812 | a commit of a running turn is accepted exactly under the lease, with storable records whose receipts name known inputs, and with a well-formed wait |
| `Guarantees.ReleaseFrees` | apps/core/src/fake-state.ts:828-844 | a released lease still holds for its generation until the next acquire, which any holder is granted at once and after which the released generation no longer holds |
| `Guarantees.HumanFreesWaits` | apps/core/src/fake-state.ts:950-968 | after a human's funding is re-resolved none of their inputs is parked on a budget |
| `Guarantees.MoneyConserved` | apps/core/src/fake-state.ts:1039-1079 | on every run that admits calls first spend plus holds is each admitted call counted once, plus the facts no admission held |
| `Guarantees.CapHolds` | apps/core/src/fake-state.ts:1081-1204 | under an unchanged cap with calls admitted first and costs within their holds, spend plus holds never exceeds the limit on any run |
| `Ledger.EachCallCountsOnce` | apps/core/src/fake-state.ts:1039-1065 | the two sums are the sum over the calls of one charge each, hold or fact |
| `Ledger.AdmitWithinLimit` | apps/core/src/fake-state.ts:1081-1204 | an admission never takes a funding over its limit |
| `Ledger.RecordBalanced` | apps/core/src/fake-state.ts:1206-1427 | a record keeps one hold or one fact per call |
| `Ledger.RecordUsed` | apps/core/src/fake-state.ts:1206-1427 | a record moves figures of its own funding only, and lowers them only where it re-evaluates the waits |
| `Ledger.RecordWithinHold` | apps/core/src/fake-state.ts:1206-1427 | a record within its hold, or within the estimate it replaces, does not raise spend plus holds |
| `Ledger.RecordMovesUp` | apps/core/src/fake-state.ts:1206-1427 | facts only move from unrecorded to anything or from unknown to reported |
| `Ledger.RecordAnswers` | apps/core/src/fake-state.ts:1206-1427 | the first record of a call is kept as sent with its cost under the call's card, and ends its hold, released exactly when nothing was sent |
| `Ledger.RecordAgainAnswers` | apps/core/src/fake-state.ts:1357-1402 | a second record replays, upgrades (with its cost, releasing the hold of a call never sent) or conflicts exactly as stated |
| `Ledger.RecordRefusedIff` | apps/core/src/fake-state.ts:1224-1345 | which records are refused as malformed |
| `Ledger.AdmitAnswers` | apps/core/src/fake-state.ts:1081-1204 | a new admission is denied exactly when it would overdraw its funding; otherwise it holds its price under a snapshot of the card |
| `Ledger.AdmitReplays` | apps/core/src/fake-state.ts:1108-1136 | admitting again answers from the hold and changes nothing |
| `Ledger.PricesAdd` | apps/core/src/fake-state.ts:1274-1279 | a report costs the sum of the least amounts that pay for its input, cached and output tokens, an estimate those of its input and output bound |
| `Ledger.MillionCostsRate` | apps/core/src/fake-state.ts:4541-4547 | a million tokens of one kind cost exactly that kind's rate |
| `Ledger.ReconcileAnswers` | apps/core/src/fake-state.ts:1938-1966 | reconciling settles exactly the selected holds, each with the fact on file or one nobody recorded at the held price |
| `Ledger.ReconcileKeeps` | apps/core/src/fake-state.ts:1938-1966 | reconciling holds changes no figure of any funding and keeps the books |
| `Ledger.ReconcileClears` | apps/core/src/fake-state.ts:1938-1966 | after reconciling no selected hold is left |
| `Ledger.ReportWithinEstimate` | apps/core/src/fake-state.ts:4541-4559 | a report inside its estimate, cached rate at most the input rate, costs at most one minor unit more than its hold |
| `Ledger.ReportCanExceedHold` | apps/core/src/fake-state.ts:4541-4547 | that extra unit occurs |
| `Ledger.AdmitAfterRecordDoubles` | apps/core/src/fake-state.ts:1081-1204 | a call recorded and then admitted is counted twice: a concrete case |
| `Ledger.AdmitKeepsBooksIff` | apps/core/src/fake-state.ts:1081-1204 | an admission keeps the books exactly when the call has no fact from outside an admission |
| `Guarantees.JournalNumbered` | apps/core/src/fake-state.ts:642-648 | on any run each persona's records are numbered 1 to n |
| `Guarantees.ReceivedOnce` | apps/core/src/fake-state.ts:3710-3729 | on any run no input has two input_received records |
| `Guarantees.ExperiencedOnce` | apps/core/src/fake-state.ts:207-229 | on every run with fresh turn ids no round's text, no call, no result and no approval request is journaled twice over all turns that serve one input |
| `Records.StepKeeps` | apps/core/src/fake-state.ts:1702-1760 | every step with fresh turn ids keeps the journal numbered, received once, attributed and without repeats |
| `Journal.AppendCommittedSound` | apps/core/src/fake-state.ts:1702-1760 | a commit's append keeps that soundness for any list of records |
| `Journal.ExperiencedSound` | apps/core/src/fake-state.ts:2098-2117 | so does journaling a claim |
| `FakeStates.FakeState.JournalExperience` | apps/core/src/fake-state.ts:2098-2117 | the loop journals the input once, then each record its lineage lacks |
| `FakeStates.FakeState.AppendEvents` | apps/core/src/fake-state.ts:1719-1760 | the commit's loop appends what the lineage lacks and drops repeated receipts |
| `FakeStates.FakeState.LineageExperience` | apps/core/src/fake-state.ts:2133-2145 | the keys journaled by every turn serving the input |
| `FakeStates.FakeState.ClaimOperation` | apps/core/src/fake-state.ts:1986-2031 | operations, approvals, effects, journal and reply are those of the claim step, also when the claim throws half way and is rolled back |
| `FakeStates.FakeState.ClaimRow` | apps/core/src/fake-state.ts:2147-2356 | the claim inside the transaction ends as the claim's body does; when it throws, rows and effects are restored and only its own persona's journal grew |
| `FakeStates.FakeState.ClaimParked` | apps/core/src/fake-state.ts:2409-2459 | consuming the grant, journaling and running the effect in place end as the gated claim does, a passing failure with the grant restored |
| `FakeStates.FakeState.RollBack` | apps/core/src/fake-state.ts:2018-2030 | cutting the log, the counter and the receipts back to the mark restores the journal exactly, after a claim that wrote for its own persona only |
| `FakeStates.FakeState.AcquireWriter` | apps/core/src/fake-state.ts:770-808 | the new leases and generations are those of the acquire step, granted exactly when it grants |
| `FakeStates.FakeState.RenewWriter` | apps/core/src/fake-state.ts:810-826 | the new store is that of the renew step, accepted exactly for the holder of the lease |
| `FakeStates.FakeState.ReleaseWriter` | apps/core/src/fake-state.ts:828-844 | the new store is that of the release step, accepted exactly for the holder of the lease |
| `FakeStates.FakeState.LoadTurn` | apps/core/src/fake-state.ts:1436-1522 | the new inputs and turns are those of the load step, with its reply |
| `FakeStates.FakeState.SaveRound` | apps/core/src/fake-state.ts:1585-1659 | the new store is that of the save step, with its reply |
| `FakeStates.FakeState.FundingSpend` | apps/core/src/fake-state.ts:1039-1065 | the two loops compute spend and holds in the currency |
| `FakeStates.FakeState.FitEstimate` | apps/core/src/fake-state.ts:1067-1079 | whether the estimate fits the cap in force |
| `FakeStates.FakeState.AdmitCall` | apps/core/src/fake-state.ts:1081-1204 | the new store is that of the admission step, with its reply |
| `FakeStates.FakeState.RecordCall` | apps/core/src/fake-state.ts:1206-1427 | the new ledger, waits and inputs are those of the record step, with its reply |
| `FakeStates.FakeState.ReconcileHolds` | apps/core/src/fake-state.ts:1938-1966 | the loop reconciles the selected holds in insertion order |
| `FakeStates.FakeState.ResumeBudgetWaits` | apps/core/src/fake-state.ts:977-1035 | the loop deletes and requeues the waits that fit and restates the rest |
| `FakeStates.FakeState.SetUsageBudget` | apps/core/src/fake-state.ts:917-945 | a budget edit or removal re-evaluates its waits |
| `FakeStates.FakeState.Recovery` | apps/core/src/fake-state.ts:846-910 | the new turns, inputs and ledger are those of the recovery step, each running turn is marked once in the journal, and with one running turn the journal is the step's |
| `FakeStates.FakeState.ResolveApproval` | apps/core/src/fake-state.ts:2726-2853 | the new approvals, operations, journal and inputs are those of the decision step, with its reply |
| `FakeStates.FakeState.CommitTurn` | apps/core/src/fake-state.ts:1661-1930 | the new journal, turns, inputs, waits, commits and ledger are those of the commit step, with its reply |
| `MemoryView.EachRecordOnce` | apps/core/src/fake-state.ts:1533-1576 | on every run each record, apart from the loading input's own, is sent raw or lies in exactly one applied block |
| `MemoryView.ChunksPartition` | apps/core/src/fake-state.ts:3120-3352 | on every run applied ranges are disjoint, cover what applied and superseded ranges cover together, and layer 1 has no gap or overlap |
| `MemoryView.ApplyingShrinksTheView` | apps/core/src/fake-state.ts:3223-3264 | on every run a maintenance pass never sends more tokens, and strictly fewer when it applies anything |
| `MemoryView.ApplyRawDrains` | apps/core/src/fake-state.ts:3223-3232 | applying stops only within the live limit or with nothing prepared left |
| `MemoryView.EstimateIsWhatIsSent` | apps/core/src/fake-state.ts:3354-3402 | live raw plus applied tokens is exactly the tokens of the records sent raw plus the blocks sent |
| `MemoryView.RenderedContext` | apps/core/src/fake-state.ts:1533-1576 | the records sent raw, in order, and the applied blocks by first record |
| `MemoryView.InstallShrinks` | apps/core/src/fake-state.ts:3237-3264 | installing a target takes out its sources' replacements and puts in less |
| `Layers.RunKeeps` | apps/core/src/fake-state.ts:3120-3352 | every run keeps chunks ordered, gap-free, sourced, shrinking and representing each record once |
| `Layers.InstallKeeps` | apps/core/src/fake-state.ts:3237-3264 | superseding the sources and applying the target in one step keeps every record represented once |
| `Layers.ApplyOneKeeps` | apps/core/src/fake-state.ts:3223-3232 | applying a prepared layer-1 chunk keeps it |
| `Layers.TargetSourced` | apps/core/src/fake-state.ts:3303-3346 | a created target spans exactly its contiguous applied sources and weighs what they weigh |
| `Maintenance.TargetSettles` | apps/core/src/fake-state.ts:3237-3264 | a prepared target fails exactly when its sources are not all applied in one layer, and is installed exactly when they are and that layer's applied replacements exceed 15,000 or 10,000 tokens |
| `Maintenance.MaintainSettles` | apps/core/src/fake-state.ts:3237-3264 | after a pass a target that could be installed is left over its limit only on layer 2 and only behind a later target that the pass installed onto it |
| `Maintenance.LaterInstallLeavesOver` | apps/core/src/fake-state.ts:3242-3264 | a memory that keeps every invariant and whose pass leaves such a target |
| `Maintenance.TwoWaitIff` | apps/core/src/fake-state.ts:3242-3264 | of two prepared targets the earlier, over layer 2, is left so exactly when layer 2 was within 10,000 and the later one, whose layer 1 is over 15,000, takes it over |
| `Maintenance.OneInFlight` | apps/core/src/fake-state.ts:3265-3278 | on a run that takes no kept target up again, one target is in flight at a time |
| `Maintenance.PassInstallsAll` | apps/core/src/fake-state.ts:3237-3278 | and after every pass of such a run no target that could be installed stands over its limit |
| `Maintenance.CreatesExactly` | apps/core/src/fake-state.ts:3265-3346 | a target is created exactly when none is in flight and a layer over its limit has a contiguous run that was not judged before, and which: layer 1 enough to come down to 11,000, layer 2 all that joins on |
| `Maintenance.AppliesExactly` | apps/core/src/fake-state.ts:3223-3232 | prepared raw chunks are applied oldest first, each exactly while what is still live is over 40,000 tokens |
| `Maintenance.PassDrains` | apps/core/src/fake-state.ts:3210-3232 | on every run a pass applies prepared raw chunks oldest first until the tokens of the records it sends raw are within 40,000 or none is left, and none that this did not take |
| `Maintenance.ChunksMove` | apps/core/src/fake-state.ts:3120-3677 | every step moves every chunk's status only as stated |
| `Sealing.SealedWindows` | apps/core/src/fake-state.ts:3127-3205 | sealed windows follow one another from the start of the tail, weigh at least 10,000 tokens, and split no (turn, round) group and no unanswered call |
| `Maintenance.SealsExactly` | apps/core/src/fake-state.ts:3151-3205 | the tail is cut at every record that may begin a chunk and nowhere else |
| `Sealing.CallKeepsItsResult` | apps/core/src/fake-state.ts:3151-3200 | with at most one result per call id, no boundary separates a call from its result |
| `Sealing.Seal` | apps/core/src/fake-state.ts:3136-3205 | the two loops compute the walk |
| `MemoryShelves.MemoryShelf.Housekeep` | apps/core/src/fake-state.ts:3120-3352 | the four passes over the chunk list compute the maintenance step |
| `MemoryShelves.MemoryShelf.SettlePrepared` | apps/core/src/fake-state.ts:3237-3264 | the loop fails stale targets and installs the ones whose layer is over its limit |
| `MemoryShelves.MemoryShelf.PickRun` | apps/core/src/fake-state.ts:3294-3330 | the first contiguous applied run whose source tuple is not settled |
| `Branch.PreparedIsCertified` | apps/core/src/memory-branch.ts:240-485 | on every run a prepared chunk carries a text that was written last, read in full together with the source after that write and after the last model change, reviewed at that version, and confirmed in a strictly later round |
| `Branch.ConfirmPrepares` | apps/core/src/memory-branch.ts:433-463 | a review saved in an earlier checkpoint can be confirmed by the next response, and exactly its text is installed |
| `Branch.DraftIsPrepared` | apps/core/src/memory-branch.ts:240-485 | every draft that is not blank and smaller than what it replaces, of at most one page as its source, is prepared by one round of writing and reading, one that opens the review and one that confirms it |
| `Branch.LetterIsPrepared` | apps/core/src/memory-branch.ts:240-485 | a concrete run that ends prepared |
| `Branch.ChunkIsKept` | apps/core/src/memory-branch.ts:395-463 | every chunk whose source is one page can be kept: source read, review to keep opened, confirmed in the next round |
| `Branch.PreparedIsNotBlank` | apps/core/src/memory-branch.ts:376-432 | on every run what is prepared is not blank |
| `Branch.ModelChangeVoids` | apps/core/src/memory-compaction.ts:188-345 | a change of model, resuming under another and a grant void every read, the review and its confirmation |
| `Branch.WriteAnswers` | apps/core/src/memory-branch.ts:256-306 | a draft is written exactly over the version it expects, within two megabytes and without a NUL |
| `Branch.GarbledCounts` | apps/core/src/memory-branch.ts:464-485 | a response that is no control counts as a failure and pauses the branch exactly at the allowed number |
| `Branch.InterruptionCounts` | apps/core/src/memory-compaction.ts:149-165 | a crash in the middle of a round is counted and pauses the branch exactly when that makes as many in a row as are allowed |
| `Branch.PausedGoesOn` | apps/core/src/memory-compaction.ts:188-232 | a branch paused and resumed under the same model goes on with what it read and opened, one failure more exactly when it was paused for one, under the limit in force |
| `Branch.FilesForgive` | apps/core/src/memory-branch.ts:352-370 | a round of file calls ends a row of failures and of interruptions |
| `Branch.RebranchCarriesDraft` | apps/core/src/fake-state.ts:3495-3515 | a branch taken up again from another view starts with its draft, and with nothing read, reviewed or counted |
| `Branch.SavesForward` | apps/core/src/fake-state.ts:3638-3646 | no save takes a count back |
| `Branch.RunKeeps` | apps/core/src/memory-compaction.ts:119-420 | every run of checkpoints, pauses, resumptions, model changes, grants and rebranches keeps what the branch knows grounded in what was read |
| `Branch.OpenKeeps` | apps/core/src/memory-branch.ts:376-432 | opening a review grounds it: every byte of source and candidate had been read and is current |
| `Branch.WriteKeeps` | apps/core/src/memory-branch.ts:256-306 | a write voids every read and the open review |
| `Branch.ConfirmCertifies` | apps/core/src/memory-branch.ts:433-463 | confirming a grounded review certifies the candidate |
| `Branch.SaveReplays` | apps/core/src/fake-state.ts:3612-3634 | saving the same checkpoint again is accepted and changes nothing; a save from an older revision changes nothing |
| `Branch.GrantKeeps` | apps/core/src/fake-state.ts:2544-2613 | a grant clears reads, review and confirmation |
| `CertifiedMemory.EachRecordOnceJointly` | apps/core/src/fake-state.ts:1533-1576 | on those runs too each record is sent raw or stands in exactly one block |
| `Provenance.BlocksAreCertified` | apps/core/src/fake-state.ts:3612-3677 | on every joint run of memory and branches each block sent carries the text its branch certified against the source file of a view that holds its chunk, smaller than what it replaces |
| `Provenance.RecordsWereRead` | apps/core/src/fake-state.ts:3589-3611 | on those runs every record a sent block stands for was in the source its branch read in full: rendered as itself, or inside the block of an older chunk of which the same is true, down to raw records |
| `Provenance.RunKeeps` | apps/core/src/fake-state.ts:3420-3611 | every joint step keeps each branch's source the file of a view of the journal that held its chunk when it was claimed or branched again |
| `Pager.CompleteRead` | apps/core/src/memory-branch.ts:216-223 | answers true exactly when every byte lies in some range read |
| `Pager.PageAdvances` | apps/core/src/memory-branch.ts:307-343 | from a code point a page of at least four bytes succeeds, ends at a code point, stays within its length, and advances unless the file is at its end |
| `Pager.RefusedExactly` | apps/core/src/memory-branch.ts:313-343 | refused are exactly an offset outside the file, a length not between 1 and 1,048,576, an offset inside a code point and a length shorter than the next code point |
| `Pager.ReadingThroughCompletes` | apps/core/src/memory-branch.ts:307-343 | following next_offset reads every byte, and the pages joined are the file |
| `Pager.PagesReadAll` | apps/core/src/memory-branch.ts:307-343 | the pages are consecutive, start and end at code points, and end at the end of the file |
| `Pager.ReadPage` | apps/core/src/memory-branch.ts:307-343 | the back-off loop computes the page or its refusal |
| `Pager.StartsIffNotContinuation` | apps/core/src/memory-branch.ts:321-324 | a byte of UTF-8 text starts a code point exactly when its top bits are not 10 |
| `Render.ToolPairsWellFormed` | apps/core/src/memory.ts:409-561 | for every list of records and any blocks or notices, an assistant message with k calls is followed by exactly its k results in order, and no other tool message exists |
| `Render.ViewPaired` | apps/core/src/memory.ts:606-664 | the stable order keeps every pair together |
| `Pairs.AnswerIsReply` | apps/core/src/memory.ts:495-520 | a result that answers a call of the open round, by index or without one by id, is the tool message in that call's reply slot, under the call's recorded id |
| `Pairs.MissingIffUnanswered` | apps/core/src/memory.ts:460-476 | a call is told as having no result exactly when no record answers it |
| `Pairs.OrphanIffUnused` | apps/core/src/memory.ts:498-527 | a result is told as an orphan exactly when it answers no call |
| `Pairs.GroupIsRound` | apps/core/src/memory.ts:480-555 | the group kept open is the open round: where it starts, its calls, and the record that answers each |
| `Pairs.NextAnswers` | apps/core/src/memory.ts:498-511 | a result right after the call it names, first of its round, answers it |
| `Render.RenderEvents` | apps/core/src/memory.ts:442-561 | the loop over the records with its open group computes the rendering |
| `Attribution.AttributedOnce` | apps/core/src/memory.ts:648-663 | every record with a distinct number has exactly one source range |
| `Attribution.RangeNamesMessage` | apps/core/src/memory.ts:418-478 | the range names the message that renders the record, and none exactly when the record has no rendering |
| `Attribution.FlushCount` | apps/core/src/memory.ts:427-478 | flushing a round loses none of its records and repeats none |
| `Attribution.Covers` | apps/core/src/fake-state.ts:3430-3462 | accepts exactly the snapshots whose ranges tile the chunk, straddle neither end, and share no message with anything outside |
| `Attribution.MemorySource` | apps/core/src/memory-branch.ts:134-162 | the source file holds exactly the messages that carry the chunk, by index, each with its ranges |
| `Attribution.SnapshotHoldsRecords` | apps/core/src/fake-state.ts:3430-3462 | when a snapshot covers a chunk, each record of the chunk has one range inside it, rendered by a message of the source file that carries nothing else |
| `Snapshot.Matches` | apps/core/src/fake-state.ts:3463-3488 | accepts exactly the snapshots that cover the chunk and, for a raw chunk, hold no block inside it or, for a chunk of blocks, hold every source that is still applied as its own message |
| `Snapshot.RawChunkIsHeld` | apps/core/src/fake-state.ts:3463-3472 | an accepted snapshot of a raw chunk holds every number of the chunk as a record, rendered by a message of the source file that carries nothing else |
| `Snapshot.BlocksAreHeld` | apps/core/src/fake-state.ts:3472-3488 | in every memory an accepted snapshot of a chunk of blocks holds every record of the chunk inside an applied source whose message is in the source file and carries nothing else |
| `Snapshot.OwnViewFitsIff` | apps/core/src/fake-state.ts:3463-3488 | the view a memory renders to is accepted for a chunk of blocks exactly while all its sources are applied |
| `Snapshot.OwnViewFitsRawIff` | apps/core/src/fake-state.ts:3430-3472 | the view a memory renders to is accepted for a raw chunk exactly when it holds every record of the chunk and no message stands for records inside and outside it |
| `SealedViews.RenderedOne` | apps/core/src/memory.ts:427-561 | a message that stands for several records stands for records of one round, a call among them |
| `SealedViews.RunWhole` | apps/core/src/fake-state.ts:3127-3205 | on every run whose journal goes back to no sealed round, no round has records on both sides of a sealed boundary of the whole journal |
| `SealedViews.SealedChunkIsAccepted` | apps/core/src/fake-state.ts:3463-3472 | on those runs, with rounds on calls, the memory's own view is accepted for a raw chunk exactly while the chunk has not been replaced and none of its records is left out for the loading input |
| `SealedViews.RoundlessCallCrosses` | apps/core/src/fake-state.ts:3140-3205 | a journal of calls without rounds that is cut in the middle of a message |
| `SourceFiles.WriteSource` | apps/core/src/memory-branch.ts:134-162 | grouping the ranges by message and listing the messages by index writes the source file |
| `SourceFiles.RangeInFile` | apps/core/src/memory-branch.ts:134-162 | every range inside the chunk that has a message is in the file with that message |
| `History.PagingRefinesFullRead` | apps/core/src/fake-state.ts:3025-3113 | following next_after_seq and next_read returns every record once, in order, its fragments spelling its serialization |
| `History.PageBounded` | apps/core/src/fake-state.ts:3052-3090 | a page has at most 16,384 characters and at most its limit of records |
| `History.PageFills` | apps/core/src/fake-state.ts:3052-3090 | a page breaks off only at its limit of records or when the next would go over 16,384 characters, and fragments exactly a first record that is longer |
| `History.BuildPage` | apps/core/src/fake-state.ts:3052-3113 | the loop builds the page, empty for a start past the last record |
| `History.Search` | apps/core/src/fake-state.ts:2971-3004 | a call returns the matches up to where it says to continue, or all of them, from any start; it stops early only at its limit of matches or after 2,000 records |
| `History.SearchThrough` | apps/core/src/fake-state.ts:2971-3024 | following the continuation ends with every match |
| `History.MatchingIsExact` | apps/core/src/fake-state.ts:2983-2995 | the matches are the matching records, each once, in order |
| `Browser.ControlSafety` | apps/browser-cloud/src/tab-port.ts:168-244 | over every interleaving a dispatch follows the start of its own observation with no input of the person in between, not even one handed back, and no observation is used twice |
| `Browser.UndisturbedActionDispatches` | apps/browser-cloud/src/tab-port.ts:139-244 | an observation and an action nobody disturbs end in exactly one dispatch |
| `Browser.PersonKeepsControl` | apps/browser-cloud/src/profile.ts:739-766 | from the person's input until control is handed back, reset or restarted no action of the secretary reaches a page |
| `Browser.ActStarts` | apps/browser-cloud/src/tab-port.ts:168-205 | an action starts exactly on a free slot of a loaded tab with the observation it names, at most 30 seconds old, and takes it out |
| `Browser.ControlMoves` | apps/browser-cloud/src/profile.ts:505-549 | who holds control after an input, a hand-back, a reset and a closed browser, and that the epoch moved |
| `Browser.RunKeeps` | apps/browser-cloud/src/profile.ts:739-766 | every interleaving keeps observations trusted, single, unspent, dispatches safe and slots exclusive |
| `Browser.DispatchKeeps` | apps/browser-cloud/src/tab-port.ts:206-229 | the last admission check makes the dispatch safe and spends the observation |
| `Browser.HumanKeeps` | apps/browser-cloud/src/profile.ts:739-750 | the person's input voids every observation made before it |
| `Browser.BumpKeeps` | apps/browser-cloud/src/profile.ts:505-549 | so does handing control back, a reset and a closed browser |
| `Browser.RestartKeeps` | apps/browser-cloud/src/profile.ts:799-815 | a new instance with any saved control starts with nothing to spend |
| `Jobs.OutcomeDelivered` | apps/scripts/src/reconcile.ts:494-571 | over every run with crashes and lost replies a journal is reported only while the row is terminal and a terminal row has exactly one job input; while the attention pass overtakes no report, everything sent from the journal is the frozen payload, status and error, everything sent without one is the run's one report, and a journal that follows it holds only the indeterminate outcome of a lost row |
| `Jobs.FinishDelivers` | apps/scripts/src/runner.ts:626-676 | an undisturbed finish, with or without a journal, makes the claimed job what was reported, with one notification and, if there is one, a reported journal |
| `Jobs.VerdictFinal` | apps/core/src/fake-state.ts:4484-4532 | after a row is terminal its status, result, error and notification never change; while no report is overtaken a frozen outcome never changes and nothing sent is taken back |
| `Jobs.StepOnce` | apps/scripts/src/runner.ts:626-701 | each segment of finishing, with or without a journal, of reconciling and of the backend keeps one outcome for the job, unless it overtakes a report |
| `Jobs.OvertakenIsOverwritten` | apps/scripts/src/runner.ts:649-660 | a report about to freeze its outcome keeps what the attention pass froze in a new journal exactly when that pass did not overtake it |
| `Jobs.OvertakingDiverges` | apps/scripts/src/main.ts:103-142 | a run in which an expired never-started job is taken up and attached by the attention pass, and its own report then freezes another outcome than the one sent |
| `Jobs.ReadsSettledIff` | apps/scripts/src/runner.ts:664-701 | after the runner's attachment is answered its journal reads as settled without being settled exactly when the reply was a missing route or a transient refusal |
| `Jobs.RefusalReadsSettled` | apps/scripts/src/runner.ts:669-696 | a run that ends with an unreported journal that reads as settled and nothing attached |
| `Jobs.ReconcileRetries` | apps/scripts/src/reconcile.ts:338-556 | such an exited journal is skipped by the attention pass, while the next reconciliation sends the frozen outcome again and can settle it |
| `Jobs.UnlaunchedIsLeft` | apps/scripts/src/reconcile.ts:211-258 | such a journal without a process is acted on by neither pass |
| `Jobs.CompleteForward` | apps/core/src/fake-state.ts:4484-4532 | completing is accepted only into or identically to a terminal row, and an accepted report is what the row then holds |
| `Jobs.CompleteAnswers` | apps/core/src/fake-state.ts:4484-4532 | which reports are accepted |
| `Jobs.ClaimedOnce` | apps/core/src/fake-state.ts:4448-4470 | over any run a job is claimed at most once and its claimant never changes |
| `Jobs.SweepLoses` | apps/core/src/fake-state.ts:4430-4447 | a sweep loses exactly the claims that ran out, with the reason |
| `Jobs.HeartbeatKeeps` | apps/core/src/fake-state.ts:4472-4482 | a claim kept alive is not lost before the time asked for, and only its claimant keeps it |
| `Jobs.AttendDelivers` | apps/scripts/src/reconcile.ts:211-300 | a lost job without a journal ends with the indeterminate outcome attached and its journal reported |
| `Jobs.ReapDelivers` | apps/scripts/src/reconcile.ts:338-400 | a crashed run whose process may be alive is reaped and reported failed, with the outcome its journal froze |
| `Jobs.LateReportAttaches` | apps/scripts/src/runner.ts:661-701 | a report that finds its job lost is attached instead, with the payload its journal froze; the journal is reported exactly when the answer settles it |
| `Jobs.EndedIsMarked` | apps/scripts/src/reconcile.ts:494-571 | an exited journal whose job ended otherwise is marked as reported and nothing is sent |
| `Jobs.ClaimAnswers` | apps/core/src/fake-state.ts:4428-4482 | a claim holds up to the time it was made for, and no one else claims the job, keeps it alive or reports it |
| `Jobs.CancelAnswers` | apps/core/src/fake-state.ts:4355-4380 | a queued job that is cancelled ends, notified, before anyone claims it; a running one stays its claimant's to report |

## Left out

- FakeStates.FakeState.ClaimOperation: which of several identical denials a refusal cites is the one the object finds first, handed out as a ghost value.
- FakeStates.FakeState.Recovery: the journal equals the step's when at most one turn of the persona runs, as on every run; otherwise the marks stand in the order the object visits the turns.
- Guarantees.FinishedClaimReplays: the current_job note added to a replayed job.* receipt is not modelled; the stored row is.
- Answers.CompletionTells: a failed completion carries the error text found in its response, 0 where there is none; the rest of a failed response is not modelled.
- Browser.ControlSafety: page revisions, URLs and the guard option only add refusals and are not modelled; an operation may fail at any await instead. The shared intent record and the hold timer of a dropped viewer are not modelled. The person's input counts as delivered with the takeover: the page gets it after the control state is saved, which the one queue of viewer operations keeps in order.
- Jobs.OutcomeDelivered: journal writes succeed and are seen at once by both procedures, finishing runs once per job; a process is there or not, and its identity, kills, file operations and usage facts are not modelled. A result or error with a NUL is a call that does not reach the row.
- Layers.RunKeeps: one persona's memory; attempt counts, pacing and the pressure test that reopens a kept chunk are not modelled. Here a branch may shelve any smaller text; `Provenance` says which text it is. The memory's journal is its own sequence of entries, not the store's: appending to it is a step of the run.
- Provenance.RecordsWereRead: a source file is written down by any function of its passages, of which JSON is one; a record with no rendering is in no message and so in no file.
- Branch.PreparedIsCertified: message transcripts, execution budgets, retry times and issues are not modelled, so neither is the append-only check on transcripts; pausing and resuming are allowed at any time instead.
- Render.ToolPairsWellFormed: message wording is an opaque value; a round that is neither a number nor missing is not modelled.
- History.PagingRefinesFullRead: the journal does not grow while it is read; timestamps, snippets and request validation are not modelled.
- Digests and random tokens: a digest is represented by the text it is of, an observation by the position of its start.
- `jsonEqual` treating an empty array as an empty object: values are opaque and compared for equality.
- The turn whose input row is missing at commit: it cannot arise, and the model refuses and leaves the store unchanged where the code would stop after journaling.
- Commit side effects with no reader in the model: outbox entries, schedule claims and the wake-up of paced memory chunks.
- HTTP clients, model provider streaming, sleeps and abort signals: I/O.
- Terminal sessions, model bindings, persona transfer, schedules, file operations and tool request validation: record updates and single checks that would add only easy members.
- Tool descriptions, prompts, markers, the web app, workers and development tooling.
