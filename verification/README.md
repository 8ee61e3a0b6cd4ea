# Verified models of the orchestrator's protocols

These Dafny modules model the parts of the orchestrator whose correctness does not show
in any single function: four crash-fenced recovery engines, the browser command bridge,
the backup manifest and its verifiers, the checks on model output and command logs, live
change delivery, the registry importer, the project resolver and the bounded recovery
log. `dafny verify dfyconfig.toml` checks all of it.

## The engines

Each engine of `backend/internal/dcpterminalmerge` drives one irreversible effect from a
durable SQLite row: launch a model process, wake a worker, rewrite and push a branch. A
store method is an atomic guarded update: the WHERE clauses of the queries are `Guard`,
their SET clauses `Apply`, and a faulty store may err at any of them. An engine is a
class over a `Ledger`, the row together with the journal of everything that happened;
each entry point is proved to leave exactly the journal entries of its specification
function, and to return an error exactly where that function says so. A run is any
sequence of entry points and of transitions made elsewhere (merging rebinds, completes
and fails repairs, `backend/internal/dcpterminalmerge/merge.go:405-456`; the review store
closes failed reviews, `backend/internal/storage/sqlite/store/review_store.go:170-216`),
each cut off after any number of journal entries, which is a crash. `Journal` proves
once, for every table and engine, that runs are legal, bounded and refine the write-ahead
machine of `FencedEffect`; `ArbiterRuns`, `SuccessorRuns`, `FreshWorkerRuns` and
`ColdStartRuns` discharge its hypotheses and add what is particular to each machine. What
a call learns from outside (files, probes, provider, policy) is a record of `Facts`,
arbitrary at every call. The `...Causes` modules turn the engines around: for every
journal entry they say on which rows and answers it is left, prove that equivalent to the
branches over every call, and lift it over every run.

- `FencedEffect`, `Journal`: the abstract machine, journals, crashes and runs.
- `ArbiterProtocol`, `RecoveryReview`: what the engines exchange with the outside.
- `Arbiter`, `ArbiterSuccessor`, `FreshWorker`, `ColdStart`: the four engines, each with
  its runs and its causes.

## The bridge

- `BrokerCore`, `BrokerRuns`, `BrokerFates`: the sections under the broker's mutex, every
  interleaving of callers, connection readers and pending sends, and the one deed behind
  every end of a call or a connection.
- `BridgeFrames`, `BrokerWire`: the write token, the partial-write loop, the resulting
  byte streams, and the desktop peer's line reader under any chunking.

## The rest

- `Text`, `BackupManifest`: the manifest printer, both verifiers, and the text routines
  between them. The digest is any function to 64 characters.
- `JsonKeys`: the duplicate-key check over JSON token streams and the trees they print.
- `CommandLog`: command collection over maps without order, and the verdict.
- `ChangeFeed`: the poller and the broadcaster.
- `RegistryImport`, `ImportContents`: the importer loop with its indexes, beside the
  store's own guards, and what it leaves in the target.
- `ProjectResolver`: relative paths, containment, and the deepest registered ancestor.
- `BoundedLog`: the recovery supervisor's bounded writer.
- `Options`: a value that may be missing.

## What does not hold

Where the code falls short of what one would expect of it, the code is modelled as it is,
a lemma gives the failing input, and another says exactly when the property does hold.

- The successor's validation recovery does not look at the verdict it recovers. Nobody is
  woken on a safe stop if and only if the one artifact pinned by size and digest
  (`backend/internal/dcpterminalmerge/arbiter_successor.go:42-43`) does not hold one
  (`SuccessorRuns.SafeStopNeverWakesIff`). The artifact itself is not in the repository, so
  its verdict is an arbitrary constant of every run.
- A backed-up cold-start row is fenced without looking for an executor, and the call on the
  nil interface then panics (`ColdStartRuns.MissingExecutorBurnsTheFence`). A spent fence
  whose call was left to finish was acted on if and only if there was an executor
  (`ColdStartRuns.ReadyRowActsIff`, `ColdStartRuns.SpentFenceActsIff`). The daemon always
  installs one when it builds the merger (`backend/internal/daemon/daemon.go:241-249`), so
  the failing input needs an engine built without it.
- `resolve` does not compare the frame's connection with the current one
  (`BrokerRuns.StalePeerAnswers`; exact condition in `BrokerRuns.AnswersAreOwnIffCurrent`).
- A cancelled partial write leaves the connection open, and a failed one closes it only
  after the gate is free, so the next frame can be lost behind either
  (`BrokerWire.SwallowedLine`; exact condition in `BrokerWire.NextFrameSwallowedIff`). The
  broker's frame limit is eight times its peer's
  (`BridgeFrames.AcceptedFrameCanKillPeer`; exact condition in
  `BridgeFrames.PeerReceivesWhatWasWritten`).
- A seek can move the poller's cursor back (`ChangeFeed.SeekIsSafeIff`).
- Deleting a session deletes rows of the change log, so the log does not only grow
  (`ChangeFeed.DeletionBehindTheCursor`; exact condition in
  `ChangeFeed.PollsRefineTheSurvivorsIff`).
- The project table does not keep active paths distinct, and a dry import can then promise
  what the store refuses (`RegistryImport.SharedPathMisleads`; exact condition in
  `RegistryImport.DryRunPredictsIff`).

## Model

| member | source | states |
|---|---|---|
| `FencedEffect.AtMostOneFire` | `backend/internal/dcpterminalmerge/arbiter_engine.go:139-216` | over any journal the abstract write-ahead machine accepts, the effect fires at most once, and never when the fence is already durable and the call that won it is gone |
| `FencedEffect.AcceptsPrefix` | `backend/internal/dcpterminalmerge/arbiter_engine.go:158-165` | stopping an accepted journal anywhere leaves an accepted journal, which is what a crash does |
| `FencedEffect.AcceptsIffDisciplined` | `backend/internal/dcpterminalmerge/arbiter_engine.go:158-165` | the machine accepts exactly the journals in which every effect stands directly behind a fence and at most one fence is ever committed |
| `Journal.Ledger.Update` | `backend/internal/storage/sqlite/queries/dcp_arbiter.sql:51-65` | a store method is one atomic guarded update: it errs, or reports whether its WHERE clause matched; only then does the row change, and the journal grows by exactly that entry |
| `Journal.LegalKeepsChecks` | `backend/internal/storage/sqlite/migrations/0052_dcp_review_lab_arbiter_v1.sql:54-62` | admitted updates never break a CHECK constraint, and each spends at least one unit of the row's rank |
| `Journal.RunsAreLegal` | `backend/internal/dcpterminalmerge/arbiter_engine.go:139-326` | for any engine with a sound table: a run of calls, each cut off anywhere, commits only admitted updates, its last row is the replay of its journal, and all its updates together cost no more than the rank of the first row |
| `Journal.RunsRefineTheFence` | `backend/internal/dcpterminalmerge/arbiter_engine.go:139-326` | for any such engine: every run, with crashes anywhere, is a run of the write-ahead machine |
| `Journal.RunsAreExplained` | `backend/internal/dcpterminalmerge/arbiter_engine.go:139-326` | for any such engine whose single calls are explained by causes: over every run each entry was left by an attempt with cause for it, and where no attempt is cut short every cause has its entry |
| `Arbiter.Engine.Advance` | `backend/internal/dcpterminalmerge/arbiter_engine.go:139-216` | one reconcile leaves in the journal exactly the entries of its status's branch, and returns an error exactly where that branch does; the recursion ends by rank |
| `Arbiter.Engine.Launch` | `backend/internal/dcpterminalmerge/arbiter_engine.go:145-166` | revalidate, preflight, fence, launch, with the failure code of each branch |
| `Arbiter.Engine.Inspect` | `backend/internal/dcpterminalmerge/arbiter_engine.go:167-194` | a running incident is settled from its result file or from its process, never relaunched |
| `Arbiter.Engine.Repair` | `backend/internal/dcpterminalmerge/arbiter_engine.go:195-209` | consume the decision first, wake the worker behind it |
| `Arbiter.Engine.Persist` | `backend/internal/dcpterminalmerge/arbiter_engine.go:252-283` | record the decision; a safe stop ends there, anything else goes on to the repair |
| `Arbiter.Engine.SubmitDecision` | `backend/internal/dcpterminalmerge/arbiter_engine.go:218-250` | a live submit: refused when invalid, compared when the incident is no longer running, recorded otherwise |
| `Arbiter.Engine.ReportProcessExit` | `backend/internal/dcpterminalmerge/arbiter_engine.go:285-326` | an exit report fails a running incident with the normalised code and is inert otherwise |
| `ArbiterRuns.TableIsSound` | `backend/internal/storage/sqlite/queries/dcp_arbiter.sql:51-192` | every update the queries admit keeps the CHECK constraints and lowers the rank, and the call counter and the wake counter are each spent by their own fence and nothing else |
| `ArbiterRuns.EffectsFireOnce` | `backend/internal/dcpterminalmerge/arbiter_engine.go:139-216` | over every run from a fresh incident, with the transitions merging makes in between, the model process is launched at most once and the worker woken at most once, each directly behind its own committed fence |
| `ArbiterRuns.FencedNeverRefires` | `backend/internal/dcpterminalmerge/arbiter_engine.go:158-165` | once a fence is durable no run fires its effect again, whether or not it got out before a crash |
| `ArbiterRuns.CrashAtTheFenceFailsClosed` | `backend/internal/dcpterminalmerge/arbiter_engine.go:167-193` | a call that dies right behind the launch fence is followed by a startup that records a missing result and nothing else |
| `ArbiterRuns.OneDecision` | `backend/internal/dcpterminalmerge/arbiter_engine.go:218-326` | at most one decision per run, never overwritten; afterwards the same decision is accepted without effect, any other refused without effect, and exit reports are inert |
| `ArbiterRuns.WakeFollowsDecision` | `backend/internal/dcpterminalmerge/arbiter_engine.go:195-209` | over every run, the repair failures merging adds from outside included, no worker is woken before a recorded decision that is not a safe stop |
| `ArbiterRuns.WorkIsBounded` | `backend/internal/dcpterminalmerge/arbiter_engine.go:144-215` | no run breaks a CHECK constraint and no run makes more than six updates |
| `ArbiterRuns.TerminalAbsorbs` | `backend/internal/dcpterminalmerge/arbiter_engine.go:210-215` | terminal rows are never changed again, and no effect happens on them |
| `ArbiterRuns.ReconcileAdvances` | `backend/internal/dcpterminalmerge/arbiter_engine.go:145-209` | with store calls that succeed, one reconcile moves a requested or decided row strictly forward if and only if the admission still holds the lease or the call stops before it needs it |
| `ArbiterCauses.CallsIff` | `backend/internal/dcpterminalmerge/arbiter_engine.go:139-326` | a call leaves an entry if and only if the row it finds and the answers it gets are a cause for that entry, read off entry by entry: every refusal with its code, every fence, every effect |
| `ArbiterCauses.EntriesHaveCauses` | `backend/internal/dcpterminalmerge/arbiter_engine.go:139-326` | over every run, crashes included, each entry was left by a call with cause for it, and without early deaths every cause has its entry |
| `ArbiterCauses.NothingWithoutEvidence` | `backend/internal/dcpterminalmerge/arbiter_engine.go:145-283` | over every run nothing is launched without launcher, revalidated evidence and preflight, no decision recorded without revalidation by the same call, nobody woken without a waker |
| `ArbiterCauses.ErrsIff` | `backend/internal/dcpterminalmerge/arbiter_engine.go:139-326` | a call returns an error exactly when it could not do, or could not record, what its row and its answers ask for |
| `ArbiterCauses.RunningChangesIff` | `backend/internal/dcpterminalmerge/arbiter_engine.go:167-194` | with store calls that succeed, a startup changes a running incident if and only if there is no launcher, or the result is malformed, or it holds a decision that is refused for drift or still has its lease, or result and process are both gone |
| `ArbiterCauses.LiveModelStillDecides` | `backend/internal/dcpterminalmerge/arbiter_engine.go:186-250` | however many startups find no result and a live process, the row stays as it is and the decision then submitted is recorded |
| `ArbiterCauses.RowTellsWhy` | `backend/internal/storage/sqlite/queries/dcp_arbiter.sql:51-192` | wherever a run leaves the row, its status, error code, decision and lease are those of entries of the journal |
| `ArbiterProtocol.ExitCodeIsKnown` | `backend/internal/dcpterminalmerge/arbiter_engine.go:308-323` | an exit report comes to its own code if that is one of the six known ones, to what became of the process if it names none, and otherwise to a malformed report |
| `ArbiterSuccessor.Engine.Reconcile` | `backend/internal/dcpterminalmerge/arbiter_successor_engine.go:78-90` | the startup entry, the only caller that passes a wake through, leaves exactly its branch's entries |
| `ArbiterSuccessor.Engine.Advance` | `backend/internal/dcpterminalmerge/arbiter_successor_engine.go:110-222` | one advance leaves exactly its status's entries; prepare recurses into launch and ends by rank |
| `ArbiterSuccessor.Engine.Recover` | `backend/internal/dcpterminalmerge/arbiter_successor_engine.go:243-302` | the one failed-to-decided edge: every exactness check, then the guarded recovery, or a spent audit row |
| `ArbiterSuccessor.Engine.SubmitDecision` | `backend/internal/dcpterminalmerge/arbiter_successor_engine.go:304-338` | a live submit, which records and never consumes |
| `ArbiterSuccessor.Engine.Persist` | `backend/internal/dcpterminalmerge/arbiter_successor_engine.go:340-362` | record the decision and stop there |
| `ArbiterSuccessor.Engine.ReportProcessExit` | `backend/internal/dcpterminalmerge/arbiter_successor_engine.go:364-399` | an exit report fails a running attempt with the normalised code and is inert otherwise |
| `SuccessorRuns.TableIsSound` | `backend/internal/storage/sqlite/queries/dcp_arbiter.sql:203-420` | the successor's updates, its audit row's included, keep the CHECK constraints and lower a lexicographic rank in which the one edge out of `failed` is paid for by the pending recovery |
| `SuccessorRuns.EffectsFireOnce` | `backend/internal/dcpterminalmerge/arbiter_successor_engine.go:134-212` | over every run, the failed-to-decided edge and the transitions merging makes included, the model process is launched at most once and the recovery wake fires at most once |
| `SuccessorRuns.WakeNeedsADecidedStartup` | `backend/internal/dcpterminalmerge/arbiter_successor_engine.go:78-90` | a call that consumes or wakes is a startup that found `decided` on entry, and it neither records nor recovers a decision |
| `SuccessorRuns.OneDecision` | `backend/internal/dcpterminalmerge/arbiter_successor_engine.go:243-399` | at most one decision per run whether recorded live, replayed from the result file or recovered; it is never overwritten; late submits and exit reports are inert |
| `SuccessorRuns.WakeFollowsDecision` | `backend/internal/dcpterminalmerge/arbiter_successor_engine.go:188-212` | no worker is woken before a decision that was recorded as assigning recovery or was recovered, and it is a safe stop only if the pinned artifact holds one |
| `SuccessorRuns.SafeStopNeverWakesIff` | `backend/internal/dcpterminalmerge/arbiter_successor_engine.go:243-302` | over every run from a fresh authorization, nobody is woken behind a safe stop if and only if the one artifact the audit pins does not hold a safe stop: the recovery itself writes `decided` whatever the verdict |
| `SuccessorRuns.RecoveredDecisionWakes` | `backend/internal/dcpterminalmerge/arbiter_successor_engine.go:243-302` | a rejected submit with a pending audit and an exact artifact is recovered by one startup and woken on by the next, whatever verdict the artifact holds |
| `SuccessorRuns.TerminalLeavesOnlyByRecovery` | `backend/internal/dcpterminalmerge/arbiter_successor_engine.go:213-221` | a terminal status is left only by the recovery edge, and never once that edge's audit row is spent |
| `SuccessorRuns.CrashAtTheFenceFailsClosed` | `backend/internal/dcpterminalmerge/arbiter_successor_engine.go:160-187` | a crash right behind the launch fence is settled as a missing result by the next startup |
| `SuccessorRuns.WorkIsBounded` | `backend/internal/dcpterminalmerge/arbiter_successor_engine.go:116-221` | no run breaks a CHECK constraint, and all its updates together are bounded |
| `SuccessorRuns.ReconcileAdvances` | `backend/internal/dcpterminalmerge/arbiter_successor_engine.go:110-222` | with store calls that succeed, one startup lowers the rank if and only if the row has work it can settle |
| `SuccessorCauses.CallsIff` | `backend/internal/dcpterminalmerge/arbiter_successor_engine.go:110-399` | a call leaves an entry if and only if the row it finds and the answers it gets are a cause for that entry: every refusal with its code, every fence, every effect, every audit verdict |
| `SuccessorCauses.EntriesHaveCauses` | `backend/internal/dcpterminalmerge/arbiter_successor_engine.go:110-399` | over every run, crashes included, each entry was left by a call with cause for it, and without early deaths every cause has its entry |
| `SuccessorCauses.NothingWithoutEvidence` | `backend/internal/dcpterminalmerge/arbiter_successor_engine.go:134-362` | over every run nobody is woken but by a startup with a waker that revalidated attempt and policy, nothing launched without launcher, revalidation and preflight, no decision recorded without revalidation or recovered before the old process is gone and the file is the pinned one |
| `SuccessorCauses.ObjectionIff` | `backend/internal/dcpterminalmerge/arbiter_successor_engine.go:261-294` | a pending audit is turned down with exactly the code of the first check that objects, and goes through exactly when none does |
| `SuccessorCauses.AllowanceIff` | `backend/internal/dcpterminalmerge/arbiter_successor_engine.go:188-191` | an advance that may not wake leaves a decided attempt alone and is otherwise the same in every entry and in what it returns |
| `SuccessorCauses.ErrsIff` | `backend/internal/dcpterminalmerge/arbiter_successor_engine.go:110-399` | a call returns an error exactly when it could not do, or could not record, what its row and its answers ask for |
| `SuccessorCauses.RowTellsWhy` | `backend/internal/storage/sqlite/queries/dcp_arbiter.sql:203-420` | wherever a run leaves the row, its status, error code, decision and audit are those of entries of the journal |
| `FreshWorker.Engine.Advance` | `backend/internal/dcpterminalmerge/fresh_worker_engine.go:95-172` | one advance leaves exactly its status's entries |
| `FreshWorker.Engine.Fence` | `backend/internal/dcpterminalmerge/fresh_worker_engine.go:134-146` | the one-call fence, the reread of the fenced row, then the launch |
| `FreshWorker.Engine.Consume` | `backend/internal/dcpterminalmerge/fresh_worker_engine.go:398-459` | a process that failed, or a proof that objects, fails the call with that code; a proven head completes it |
| `FreshWorker.Engine.HandleReview` | `backend/internal/dcpterminalmerge/fresh_worker_engine.go:511-553` | a finished review fails the recovery or hands on; `handled` is exactly whether the run is, or was, the recovery's own |
| `FreshWorker.Engine.TryRebind` | `backend/internal/dcpterminalmerge/fresh_worker_engine.go:555-612` | the rebind follows the candidate's evidence in the order it is consulted, and is claimed exactly for the recovery's own review |
| `FreshWorkerRuns.TableIsSound` | `backend/internal/storage/sqlite/queries/dcp_fresh_worker_recovery.sql:8-155` | the recovery's updates keep the CHECK constraints and lower the rank; the model call and the review are each spent by their own fence |
| `FreshWorkerRuns.EffectsFireOnce` | `backend/internal/dcpterminalmerge/fresh_worker_engine.go:121-164` | over every run the fresh worker is launched at most once, directly behind its fence, and at most one review is fenced |
| `FreshWorkerRuns.OneHead` | `backend/internal/dcpterminalmerge/fresh_worker_engine.go:378-396` | a proven head is never replaced and every later exit report is inert |
| `FreshWorkerRuns.CrashAtTheFenceFailsClosed` | `backend/internal/dcpterminalmerge/fresh_worker_engine.go:147-164` | a crash right behind the launch fence is settled as a missing result by the next startup |
| `FreshWorkerRuns.TerminalAbsorbs` | `backend/internal/dcpterminalmerge/fresh_worker_engine.go:165-171` | terminal rows absorb every run |
| `FreshWorkerRuns.WorkIsBounded` | `backend/internal/dcpterminalmerge/fresh_worker_engine.go:100-171` | no run breaks a CHECK constraint or makes more than six updates |
| `FreshWorkerRuns.ReconcileAdvances` | `backend/internal/dcpterminalmerge/fresh_worker_engine.go:95-172` | wherever a run leaves the row, one more startup with store calls that succeed moves it strictly forward if and only if its call has not been made, or was made and left a result, a dead process or no launcher to ask |
| `RecoveryReview.CandidateIff` | `backend/internal/dcpterminalmerge/fresh_worker_engine.go:567-606` | a candidate qualifies if and only if it has not drifted, was refreshed, is due, mergeable and in scope, its incident and admission are at hand and the required check has passed; exactly three findings fail its review, the rest leave it alone, with an error or without |
| `RecoveryReview.RunIff` | `backend/internal/dcpterminalmerge/fresh_worker_engine.go:541-548` | a finished run passes if and only if it completed over the structured channel and approved, and fails with the code of what is missing |
| `FreshWorkerCauses.CallsIff` | `backend/internal/dcpterminalmerge/fresh_worker_engine.go:95-612` | a call leaves an entry if and only if the row it finds and the answers it gets are a cause for that entry: every refusal with its code, the fence, the launch, the proven head, the rebind |
| `FreshWorkerCauses.EntriesHaveCauses` | `backend/internal/dcpterminalmerge/fresh_worker_engine.go:95-612` | over every run, crashes included, each entry was left by a call with cause for it, and without early deaths every cause has its entry |
| `FreshWorkerCauses.NothingWithoutEvidence` | `backend/internal/dcpterminalmerge/fresh_worker_engine.go:121-612` | over every run the worker is only launched behind launcher, revalidation and preflight, a head only completed from a process that exited well and a proof of that head, an admission only rebound on evidence that is all in order |
| `FreshWorkerCauses.CandidateIsRuled` | `backend/internal/dcpterminalmerge/fresh_worker_engine.go:555-612` | on its own open review, with store calls that succeed, a candidate is rebound if and only if it qualifies, failed exactly for a finding that disqualifies it, and otherwise the row is left alone |
| `FreshWorkerCauses.ErrsIff` | `backend/internal/dcpterminalmerge/fresh_worker_engine.go:95-612` | a call returns an error exactly when it could not do, or could not record, what its row and its answers ask for |
| `FreshWorkerCauses.ClaimedIff` | `backend/internal/dcpterminalmerge/fresh_worker_engine.go:534-540` | over every run a finished review is claimed exactly if it is the one the run fenced for its head and that review is still open or the row failed for requested changes |
| `FreshWorkerCauses.RowTellsWhy` | `backend/internal/storage/sqlite/queries/dcp_fresh_worker_recovery.sql:8-155` | wherever a run leaves the row, its status, error code, head and review are those of entries of the journal |
| `ColdStart.Engine.Advance` | `backend/internal/dcpterminalmerge/cold_start_recovery_engine.go:87-178` | one advance leaves exactly its status's entries |
| `ColdStart.Engine.Act` | `backend/internal/dcpterminalmerge/cold_start_recovery_engine.go:120-146` | fence, reread, execute, then settle what the execution produced; without an executor it panics exactly where the call on the nil interface is made |
| `ColdStart.Engine.Inspect` | `backend/internal/dcpterminalmerge/cold_start_recovery_engine.go:147-166` | a running row is only ever inspected |
| `ColdStart.Engine.HandleReview` | `backend/internal/dcpterminalmerge/cold_start_recovery_engine.go:266-296` | a finished review fails the recovery or hands on; `handled` is exactly whether the run is, or was, the recovery's own |
| `ColdStart.Engine.TryRebind` | `backend/internal/dcpterminalmerge/cold_start_recovery_engine.go:298-356` | the rebind follows the candidate's evidence in order |
| `ColdStartRuns.TableIsSound` | `backend/internal/storage/sqlite/queries/dcp_card12_cold_start_recovery.sql:251-384` | the recovery's updates keep the CHECK constraints and lower the rank; the action and the review are each spent by their own fence |
| `ColdStartRuns.EffectsFireOnce` | `backend/internal/dcpterminalmerge/cold_start_recovery_engine.go:120-166` | over every run the branch is rewritten and pushed at most once, directly behind its fence, and at most one review is fenced |
| `ColdStartRuns.ActionFollowsBackup` | `backend/internal/dcpterminalmerge/cold_start_recovery_engine.go:97-119` | nothing is rewritten before a sealed backup is on record |
| `ColdStartRuns.HistoryIsKept` | `backend/internal/storage/sqlite/queries/dcp_card12_cold_start_recovery.sql:251-285` | a persisted seal and a completed head are never replaced |
| `ColdStartRuns.CrashIsInspected` | `backend/internal/dcpterminalmerge/cold_start_recovery_engine.go:147-166` | a call that dies anywhere from its fence to its settlement is never repeated: the next startup inspects, and completes or fails the row |
| `ColdStartRuns.MissingExecutorBurnsTheFence` | `backend/internal/dcpterminalmerge/cold_start_recovery_engine.go:120-131` | the backed-up branch fences without looking for an executor: without one that startup spends the one action and panics, and the next records the failure |
| `ColdStartRuns.ReadyRowActsIff` | `backend/internal/dcpterminalmerge/cold_start_recovery_engine.go:120-131` | a row ready for its fence is acted on if and only if an executor is configured, and the call panics if and only if none is |
| `ColdStartRuns.CallActsIff` | `backend/internal/dcpterminalmerge/cold_start_recovery_engine.go:120-146` | any call acts exactly when it wins the fence, reads the fenced row back and has an executor |
| `ColdStartRuns.SpentFenceActsIff` | `backend/internal/dcpterminalmerge/cold_start_recovery_engine.go:120-146` | over every run whose fencing call is left to finish, the branch was rewritten exactly when the fence was spent by a call with an executor |
| `ColdStartRuns.TerminalAbsorbs` | `backend/internal/dcpterminalmerge/cold_start_recovery_engine.go:172-176` | terminal rows absorb every run |
| `ColdStartRuns.WorkIsBounded` | `backend/internal/dcpterminalmerge/cold_start_recovery_engine.go:96-177` | no run breaks a CHECK constraint or makes more than six updates |
| `ColdStartRuns.ReconcileAdvances` | `backend/internal/dcpterminalmerge/cold_start_recovery_engine.go:97-166` | wherever a run leaves the row, one more startup with store calls that succeed moves it strictly forward if and only if it has not produced its candidate |
| `ColdStartCauses.CallsIff` | `backend/internal/dcpterminalmerge/cold_start_recovery_engine.go:87-356` | a call leaves an entry if and only if the row it finds and the answers it gets are a cause for that entry: every refusal with its code, the seal, the fence, the rewrite, the candidate, the rebind |
| `ColdStartCauses.EntriesHaveCauses` | `backend/internal/dcpterminalmerge/cold_start_recovery_engine.go:87-356` | over every run, crashes included, each entry was left by a call with cause for it, and without early deaths every cause has its entry |
| `ColdStartCauses.NothingWithoutEvidence` | `backend/internal/dcpterminalmerge/cold_start_recovery_engine.go:97-356` | over every run a backup is only sealed behind predecessor and provider checks, a branch only rewritten on a fence read back, a candidate only the head that was produced and confirmed, an admission only rebound on evidence that is all in order |
| `ColdStartCauses.CandidateIsRuled` | `backend/internal/dcpterminalmerge/cold_start_recovery_engine.go:298-356` | on its own open review, with store calls that succeed, a candidate is rebound if and only if it qualifies, failed exactly for a finding that disqualifies it, and otherwise the row is left alone |
| `ColdStartCauses.ErrsIff` | `backend/internal/dcpterminalmerge/cold_start_recovery_engine.go:87-356` | a call returns an error exactly when it could not do, or could not record, what its row and its answers ask for; a startup short of the review ends well only by triggering it |
| `ColdStartCauses.PanicsIff` | `backend/internal/dcpterminalmerge/cold_start_recovery_engine.go:120-129` | a call panics exactly when it wins the fence, reads the fenced row back and has no executor |
| `ColdStartCauses.ClaimedIff` | `backend/internal/dcpterminalmerge/cold_start_recovery_engine.go:278-283` | over every run a finished review is claimed exactly if it is the one the run fenced for its head and that review is still open or the row has failed since |
| `ColdStartCauses.RowTellsWhy` | `backend/internal/storage/sqlite/queries/dcp_card12_cold_start_recovery.sql:251-384` | wherever a run leaves the row, its status, error code, seal, head and review are those of entries of the journal |
| `BrokerCore.Broker.Register` | `backend/internal/browserruntime/broker.go:138-149` | the first section of a call: registered under the current connection, or not at all |
| `BrokerCore.Broker.Adopt` | `backend/internal/browserruntime/broker.go:228-237` | a valid hello replaces the connection, inherits no call, and hands over those it takes down |
| `BrokerCore.Broker.TakeOne` | `backend/internal/browserruntime/broker.go:318-323` | a result frame takes its call out of `pending`, if it is there, whatever connection it came over |
| `BrokerCore.Broker.Disconnect` | `backend/internal/browserruntime/broker.go:343-354` | only the current connection can be disconnected, and it takes down exactly its calls |
| `BrokerCore.Broker.RemovePending` | `backend/internal/browserruntime/broker.go:362-366` | a caller that gives up takes exactly itself out of `pending` |
| `BrokerRuns.PerformAll` | `backend/internal/browserruntime/broker.go:138-378` | the broker's own methods, called step by step over any run, go through exactly the states the theorems are about |
| `BrokerRuns.HandedOverIsHeld` | `backend/internal/browserruntime/broker.go:318-378` | in every state the theorems reach, what a section takes out of `pending` is exactly what it leaves in somebody's hands to send |
| `BrokerRuns.NoLostWaiter` | `backend/internal/browserruntime/broker.go:138-180` | in every reachable state a call that expects its outcome is in exactly one place: pending, in the hands of one goroutine about to send, or buffered in its channel |
| `BrokerRuns.OneValuePerChannel` | `backend/internal/browserruntime/broker.go:318-378` | a result channel gets at most one value in its life, and every send finds its slot empty |
| `BrokerRuns.DisconnectedCallsAreAnswered` | `backend/internal/browserruntime/broker.go:343-378` | with no connection and no send under way, every call that expects an outcome has it buffered |
| `BrokerRuns.PendingIsCurrent` | `backend/internal/browserruntime/broker.go:142-149` | every pending call was registered under the current connection, so no connection means nothing pending |
| `BrokerRuns.ReplacedConnectionIsInert` | `backend/internal/browserruntime/broker.go:228-255` | after a replacement, however long after, the old connection's end or failed write disconnects nothing, fails nothing and answers nothing |
| `BrokerRuns.LossIsOwn` | `backend/internal/browserruntime/broker.go:228-237` | a call that returns unavailable lost the connection it was written to |
| `BrokerRuns.AnswersAreOwnIffCurrent` | `backend/internal/browserruntime/broker.go:318-341` | answers come from the connection their command was written to exactly in the runs where every matching frame arrives over the connection then current |
| `BrokerRuns.HonestAnswersAreOwn` | `backend/internal/browserruntime/broker.go:318-341` | if peers answer only ids written to them, a successful result came from the connection the command was written to |
| `BrokerRuns.StalePeerAnswers` | `backend/internal/browserruntime/broker.go:318-323` | a run in which a replaced peer answers a command it was never sent: `resolve` does not look at the connection |
| `BrokerFates.EndsHaveTheirDeeds` | `backend/internal/browserruntime/broker.go:158-178` | over every run a caller is on its way to dropping its connection, or back with no runtime, exactly when its write failed while its context was live, and on its way to its context's error, or back with it, exactly when that context ended in the write or in the wait |
| `BrokerFates.CurrentUntilTakenDown` | `backend/internal/browserruntime/broker.go:228-255` | a current connection stays current exactly until it is replaced, its reader ends, or a caller whose own write was lost on it drops it |
| `BrokerFates.CancelledWriteKeepsTheConnection` | `backend/internal/browserruntime/broker.go:158-163` | behind any number of cancelled writes the connection stays, whatever else happens short of a hello, a reader's end or a write failing on its own account |
| `BrokerFates.CancelledWriteIsItsOwn` | `backend/internal/browserruntime/broker.go:158-163` | a cancelled write ends with its context's error and changes nothing but its own call |
| `BrokerFates.LostWriteEndsTheConnection` | `backend/internal/browserruntime/broker.go:164-165` | over every run, once a caller whose write was lost has dropped its connection that connection is never current again, and withdrawing and dropping is all it takes |
| `BrokerFates.OutcomesHaveTheirDeeds` | `backend/internal/browserruntime/broker.go:318-378` | over every run an answer repeats a frame read for that very call, and an unavailable one stands for a connection taken down |
| `BrokerFates.ReturnsAfterTheOthers` | `backend/internal/browserruntime/broker.go:343-378` | a caller whose write was lost returns only when every call its connection took down with it has been sent its outcome |
| `BrokerFates.OnlyWrittenCommandsWait` | `backend/internal/browserruntime/broker.go:158-170` | nobody waits for, or gets, the outcome of a command that did not go out on its connection |
| `BrokerWire.Connection.WriteAll` | `backend/internal/browserruntime/broker.go:280-291` | the partial-write loop puts out a prefix of the frame, and all of it when it reports success; it ends by the remaining bytes |
| `BrokerWire.Connection.WriteFrame` | `backend/internal/browserruntime/broker.go:258-309` | one write adds to the stream exactly what its record says, and fails exactly when the record says so |
| `BrokerWire.WriteIsWholeOrReported` | `backend/internal/browserruntime/broker.go:276-308` | a write succeeds if and only if its frame is within 8 MiB and none of the Writes made failed or took nothing; success is one whole frame, and anything less is reported |
| `BrokerWire.TokenIsConserved` | `backend/internal/browserruntime/broker.go:258-264` | the gate holds its token exactly when no writer is inside, and no two writers ever are |
| `BrokerWire.StreamsAreSequential` | `backend/internal/browserruntime/broker.go:258-309` | each connection carries its finished writes one after the other and then only what the current holder has sent: nothing of another writer inside a write |
| `BrokerWire.WriteFrameIsOnePassage` | `backend/internal/browserruntime/broker.go:258-309` | the write loop and one passage through the gate leave the same bytes and the same record, also when nothing gets out |
| `BrokerWire.SuccessfulWritesArrive` | `backend/internal/browserruntime/broker.go:258-309` | while every earlier write on a connection succeeded, its peer reads exactly the frames written, in order, as long as they fit the peer |
| `BrokerWire.NextFrameSwallowedIff` | `backend/internal/browserruntime/broker.go:158-178` | behind a write of any frame torn after any number of bytes, any next frame is swallowed if and only if a byte had got out and the connection was not closed in between: a cancelled write never closes it, a failed one only after the gate is free |
| `BrokerWire.SwallowedLine` | `frontend/src/main/browser-runtime-link.ts:157-181` | what the peer reads there is the earlier frames and then one line nobody wrote, the torn bytes with the next frame behind them |
| `BridgeFrames.PeerReceivesWhatWasWritten` | `frontend/src/main/browser-runtime-link.ts:157-181` | the peer receives exactly the frames written in full if and only if each fits its limit and nothing torn precedes one |
| `BridgeFrames.Peer.Consume` | `frontend/src/main/browser-runtime-link.ts:157-181` | one data event does what reading its bytes one at a time would do |
| `BridgeFrames.Deliver` | `frontend/src/main/browser-runtime-link.ts:157-181` | however the transport cuts the stream into chunks, the delivered lines are the frames written in full exactly when the log is readable |
| `BridgeFrames.AcceptedFrameCanKillPeer` | `frontend/src/main/browser-runtime-link.ts:168-175` | a frame over 1 MiB passes the broker's own 8 MiB limit and makes its peer hang up |
| `BackupManifest.PrintManifest` | `backend/internal/dcpterminalmerge/cold_start_recovery_executor.go:501-520` | the manifest is the rendering of the sorted paths |
| `BackupManifest.ManifestIsCanonical` | `backend/internal/dcpterminalmerge/cold_start_recovery_executor.go:501-506` | the order the file map is ranged over leaves no trace in the manifest |
| `BackupManifest.ManifestDetermines` | `backend/internal/dcpterminalmerge/cold_start_recovery_executor.go:501-520` | equal manifests mean the same paths with the same sizes and digests |
| `BackupManifest.LineRoundTrip` | `backend/internal/dcpterminalmerge/cold_start_recovery_executor.go:577-588` | a printed line reads back as the path, size and digest it was printed from |
| `BackupManifest.VerifySealedBackup` | `backend/internal/dcpterminalmerge/cold_start_recovery_executor.go:570-627` | the loop over lines and the walk decide the predicate `Sealed` on every manifest and tree |
| `BackupManifest.VerifyBackup` | `backend/internal/dcpterminalmerge/cold_start_recovery_executor.go:522-568` | accepts exactly the trees that hold the given bytes at mode 0600, the manifest's bytes, and nothing else |
| `BackupManifest.WalkInventory` | `backend/internal/dcpterminalmerge/cold_start_recovery_executor.go:528-549` | the walk accepts exactly the trees whose entries are the expected paths, all regular files |
| `BackupManifest.ParseAccepts` | `backend/internal/dcpterminalmerge/cold_start_recovery_executor.go:577-588` | a manifest line is accepted exactly when it is four columns: an acceptable path, mode 0600, a non-negative size and 64 characters |
| `BackupManifest.SealedMeans` | `backend/internal/dcpterminalmerge/cold_start_recovery_executor.go:570-627` | on any manifest at all: every non-empty line is an entry with a path of its own and its file intact, and the tree holds those paths, the manifest file, and nothing else |
| `BackupManifest.SealedAcceptsExactly` | `backend/internal/dcpterminalmerge/cold_start_recovery_executor.go:570-627` | on a printed manifest the sealed verifier accepts exactly the trees holding those files with the printed size and digest at mode 0600, a regular manifest file, and nothing else |
| `BackupManifest.VerifiersAgree` | `backend/internal/dcpterminalmerge/cold_start_recovery_executor.go:522-627` | unless a digest collides on the files at hand, the full verifier is the sealed one plus equal manifest bytes |
| `BackupManifest.BytewiseIsSealed` | `backend/internal/dcpterminalmerge/cold_start_recovery_executor.go:522-627` | whatever the digest, what the full verifier accepts the sealed one accepts |
| `BackupManifest.AcceptedPathsStayInside` | `backend/internal/dcpterminalmerge/cold_start_recovery_executor.go:581-584` | a path the sealed verifier lets through is `..` itself or has no `..` anywhere |
| `BackupManifest.AcceptableIff` | `backend/internal/dcpterminalmerge/cold_start_recovery_executor.go:581-584` | the sealed verifier lets a path through exactly if all its components are plain names, or it is one of the two bare dots |
| `BackupManifest.NestsIff` | `backend/internal/dcpterminalmerge/cold_start_recovery_executor.go:86-90` | a file stands where another needs a directory exactly when its components come first in the other's |
| `BackupManifest.PrepareBackup` | `backend/internal/dcpterminalmerge/cold_start_recovery_executor.go:59-100` | printing and writing into an empty directory succeeds exactly when no path is also a directory of another and no write fails, and what was written then passes both verifiers |
| `BackupManifest.WriteFiles` | `backend/internal/dcpterminalmerge/cold_start_recovery_executor.go:86-94` | in whatever order the file map is ranged over, every file is written with its bytes at mode 0600, or the loop errs exactly when one path is a directory of another or a write fails |
| `Text.ParseItoa` | `backend/internal/dcpterminalmerge/cold_start_recovery_executor.go:512-588` | a file length printed in decimal parses back as itself at 64 bits |
| `Text.ParseIntIff` | `backend/internal/dcpterminalmerge/cold_start_recovery_executor.go:585-588` | text parses to a number exactly if it is an optional sign and at least one digit that spell it, and it fits 64 bits |
| `JsonKeys.RejectDuplicateKeys` | `backend/internal/cli/dcp_v2_model.go:181-237` | accepts a token stream if and only if it prints one value in which no object at any depth repeats a key; it ends by the remaining tokens |
| `JsonKeys.Decoder.ReadMembers` | `backend/internal/cli/dcp_v2_model.go:195-214` | the object loop consumes what the reader's function says, or fails where it does |
| `JsonKeys.ScanPrinted` | `backend/internal/cli/dcp_v2_model.go:181-229` | reading a printed value consumes exactly it, whatever follows, or fails on a repeated key |
| `JsonKeys.PrintedValuesAreDecided` | `backend/internal/cli/dcp_v2_model.go:181-237` | of every printed value the check asks exactly that no object repeats a key, and anything behind the value is refused |
| `CommandLog.Collect` | `backend/internal/dcpterminalmerge/fresh_worker_engine.go:493-509` | adds exactly the non-blank command strings at any depth, each as often as it occurs, in whatever order maps are ranged over |
| `CommandLog.CommandsAre` | `backend/internal/dcpterminalmerge/fresh_worker_engine.go:493-509` | a command is collected if and only if it sits somewhere in the value as the non-blank text under a `command` key |
| `CommandLog.Judge` | `backend/internal/dcpterminalmerge/fresh_worker_engine.go:470-490` | accepts if and only if nothing collected is forbidden or a multiple push and exactly one push, the guarded one, is among it |
| `CommandLog.ValidateCommandLog` | `backend/internal/dcpterminalmerge/fresh_worker_engine.go:461-491` | the verdict is a function of which commands the parsed lines hold and how often, so no map order can change it |
| `CommandLog.CountsMean` | `backend/internal/dcpterminalmerge/fresh_worker_engine.go:470-477` | the substring tests: containment is occurrence somewhere, and a count above one is two occurrences apart from each other |
| `CommandLog.PushIff` | `backend/internal/dcpterminalmerge/fresh_worker_engine.go:472-476` | a push is a folded command that mentions `git push`, or `git -c` and ` push `; a multiple one mentions ` push ` twice, apart |
| `CommandLog.ForbiddenIff` | `backend/internal/dcpterminalmerge/fresh_worker_engine.go:479-483` | forbidden is a folded command that mentions opening a pull request, adding a worktree or making a branch |
| `CommandLog.GuardedIff` | `backend/internal/dcpterminalmerge/fresh_worker_engine.go:484-488` | a push is guarded exactly if it mentions, as typed, the lease on the branch's old head, origin, and that branch as target |
| `CommandLog.NothingHides` | `backend/internal/dcpterminalmerge/fresh_worker_engine.go:470-490` | one forbidden command in any line sinks the log, and so does a second push, even the same one logged again |
| `ChangeFeed.Poller.Poll` | `backend/internal/cdc/poller.go:107-120` | publishes exactly the batch's fresh events, in order, and advances the cursor past them; a failed read changes nothing |
| `ChangeFeed.Poller.SeekToHead` | `backend/internal/cdc/poller.go:73-80` | overwrites the cursor unless the read fails |
| `ChangeFeed.StreamAscends` | `backend/internal/cdc/poller.go:107-120` | for any source the published sequence numbers strictly ascend, and the cursor is the last of them |
| `ChangeFeed.SeekIsSafeIff` | `backend/internal/cdc/poller.go:73-80` | across a seek that promise holds, for every source, exactly when the new cursor is not behind what was already published |
| `ChangeFeed.PollsRefineTheLog` | `backend/internal/cdc/poller.go:107-120` | over a growing log, failed reads included, the published stream is exactly the log's rows between the start cursor and the cursor, once each |
| `ChangeFeed.PollsRefineTheSurvivorsIff` | `backend/internal/cdc/poller.go:107-120` | with rows deleted between polls, the published stream is exactly the surviving log between the two cursors if and only if no row was deleted after it had been published |
| `ChangeFeed.DeletionBehindTheCursor` | `backend/internal/storage/sqlite/store/session_store.go:176` | publish a row, delete its session, poll again: the stream is not the log between the cursors |
| `ChangeFeed.NothingSurvivingIsLost` | `backend/internal/storage/sqlite/queries/changelog.sql:2-3` | rows may be deleted between polls, but every surviving row up to the cursor has been published |
| `ChangeFeed.Drains` | `backend/internal/cdc/poller.go:107-120` | on a quiet log a backlog of n is gone after ceil(n / batch) polls and not before |
| `ChangeFeed.Broadcaster.Publish` | `backend/internal/cdc/broadcast.go:49-66` | every current subscriber is called once with the event, in whatever order, whoever panics |
| `ChangeFeed.SubscriberHearsItsSegment` | `backend/internal/cdc/broadcast.go:28-66` | a subscriber hears exactly the stretch of the stream published between its subscribe and its unsubscribe, whatever others do |
| `ChangeFeed.StaleUnsubscribeIsInert` | `backend/internal/cdc/broadcast.go:28-40` | repeating an unsubscribe, however late, removes nobody |
| `RegistryImport.Run` | `backend/internal/devimport/importer.go:53-163` | the loop with its two indexes computes the fold the theorems are about: same table, same report, same success |
| `RegistryImport.Target.ImportWorkspaceProject` | `backend/internal/storage/sqlite/store/project_store.go:108-159` | the store's guarded upsert refuses or writes, and says which |
| `RegistryImport.StartMirrors` | `backend/internal/devimport/importer.go:73-78` | the two indexes built from the listing are inverse to each other and hold exactly the active projects |
| `RegistryImport.JudgeDecides` | `backend/internal/devimport/importer.go:80-136` | the loop's decision read off the target alone: update a project active at that path, insert one whose id and path are both free, otherwise report the first thing in the way |
| `RegistryImport.AdvanceKeeps` | `backend/internal/devimport/importer.go:80-163` | one step of a real run keeps the indexes the mirror of the table, keeps active paths apart, and is never refused by the store |
| `RegistryImport.EverySourceIsCounted` | `backend/internal/devimport/importer.go:80-169` | on success inserted + updated + skipped is the source count, and skipped is the number of conflicts |
| `RegistryImport.ExistingProjectsStay` | `backend/internal/devimport/importer.go:51-53` | no run removes, archives or moves a target project or touches an archived one, and what the source does not name keeps everything stored about it |
| `RegistryImport.DryRunPredictsIff` | `backend/internal/devimport/importer.go:51-163` | on any target, a dry run writes nothing and reports exactly what the real run will if and only if, for every project the loop chooses to write, the write does not err and the store's lookup by path finds nothing or that project |
| `RegistryImport.RefusedIffElsewhere` | `backend/internal/storage/sqlite/store/project_store.go:108-159` | on any target, the store refuses a project the loop chose to write exactly when its lookup by path finds another one |
| `RegistryImport.DryRunPredicts` | `backend/internal/devimport/importer.go:51-163` | in particular the dry run is exact on every target whose active paths are distinct, when no write errs |
| `RegistryImport.SharedPathMisleads` | `backend/internal/devimport/importer.go:73-78` | where two active target projects share a path, the dry run promises an update and the real run reports a conflict |
| `RegistryImport.ImportIsIdempotent` | `backend/internal/devimport/importer.go:80-163` | running a successful import again inserts nothing, updates exactly what was inserted or updated, reports the same conflicts, and leaves the target as it was |
| `ImportContents.ImportStoresOrReports` | `backend/internal/devimport/importer.go:126-160` | after a real import that went through, every source project is either reported as a conflict and everything under its id is as it was, or stored with exactly the source's child repos, in order, each with its own contents and the importing project as owner |
| `ImportContents.ConflictsAreTrue` | `backend/internal/devimport/importer.go:84-124` | every conflict a real import reports names a project the target holds at the end, at that path, standing in the way as it says: archived under the id, active under it elsewhere, or active at the path under another id |
| `ProjectResolver.ContainsIsAncestry` | `backend/internal/cli/spawn.go:317-326` | the test on the relative path's text is ancestry of directories |
| `ProjectResolver.AncestorIff` | `backend/internal/cli/spawn.go:258-268` | an entry is compared exactly if its project was fetched, has a path, and that path normalises to the directory or one above it |
| `ProjectResolver.ResolveProject` | `backend/internal/cli/spawn.go:231-293` | answers the one deepest registered ancestor; ambiguous if and only if two entries are deepest; scratch or nothing exactly when no entry contains the directory; an error exactly when a fetch fails |
| `ProjectResolver.DeepestShareAPath` | `backend/internal/cli/spawn.go:270-279` | two deepest entries have the same normalised path |
| `ProjectResolver.AncestorsByLength` | `backend/internal/cli/spawn.go:270-279` | ancestors of one directory are ordered by text length exactly as they are nested, and equal length is equal path |
| `BoundedLog.Log.Write` | `backend/internal/cli/recovery.go:111-135` | one write keeps what fits, claims all of it unless the file failed, and sets overflow when something was cut |
| `BoundedLog.LogIsBoundedPrefix` | `backend/internal/cli/recovery.go:111-135` | without file errors the log is exactly the first 2 MiB of the stream, the counter its length, and overflow says exactly whether the total passed the bound |
| `BoundedLog.NothingIsCutSilently` | `backend/internal/cli/recovery.go:111-135` | whatever the file does the counter is the file's length within the bound, and a short log means a failed write or overflow |

## Left out

- The one-shot migrations that re-arm rows (0053, 0054, 0058, 0062, 0063): runs start from a row as they leave it.
- Optimistic `revision` counters, and the identity, digest, URL and card-number columns the queries compare: the engines read the row under their own mutex, and the identity is opaque and constant.
- The EXISTS clauses the successor's queries put on the original incident row: that row is taken to stay as the authorization found it.
- A store call that commits and still reports an error: a crash right after the update has the same effect on the row, and is covered.
- Deriving and opening incidents, inputs and identity digests: every check on them is one bit of `Facts`.
- Git, `gh`, process control, HTTP, file permissions and clocks: arbitrary answers at every call.
- The model-free rebase, rebase-head finalization, future-card arbiter and readmission engines: further users of the same discipline.
- Inside the broker: sessions and actions, the cancel frame a cancelled call still tries to write, `Status`, token comparison and hello timeouts; a connection is adopted at most once.
- Closing a replaced socket: its reader may end at any time or never.
- Integer wrap-around of subscriber ids and of the change log's 64-bit sequence numbers.
- A subscriber that unsubscribes from inside its own callback: that deadlocks on the broadcaster's lock.
- JSON text: the decoders are taken from tokens or from a parsed value on, and the role rules around unstructured output are not modelled.
- Case folding and blankness in the command log are arbitrary functions.
- Byte strings are sequences of characters, and the peer's UTF-8 decoding is taken to be the identity.
- Directories of a backup tree that cannot be read: the walk then fails before it decides anything.
- Preparing a backup where one exists already, which is the full verifier alone, and the final rename.
- Files changing while a verifier or the importer runs, and a second writer on the import target.
- The importer's sort of its source list: every theorem holds for the source in any order.
- Symbolic-link resolution of working directories and registered paths: normalisation is an arbitrary partial function to clean absolute paths.
- Electron, command wiring, configuration, doctor checks, adapters and telemetry: easy members only.
