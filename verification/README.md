# Verification of the ATX scheduler core

ATX is a local job scheduler. One supervisor process keeps deadlines in an indexed heap and starts
due jobs, one monitor process runs each command, and command-line processes submit and cancel jobs.
They meet only in a transactional store whose job rows carry a revision that every writer has to
name (a compare-and-swap). This project models that core in Dafny and proves what it keeps over
whole runs.

`dafny verify dfyconfig.toml` checks everything.

## How the model is built

| files | what they hold |
|---|---|
| `Transitions`, `Recurrence`, `Jobs`, `Runs` | the domain: legal edges, fixed-rate arithmetic, the mutable `Job` object, the `Run` value |
| `Store`, `History` | the store object and its pure specification; the transition table as one legal path |
| `Protocol` | supervisors, monitors and cancellers as program counters with rows they read earlier; one step is at most one store statement; runs of the whole system |
| `JobSafety`, `Claims` | cancellation is final, one-shot jobs are claimed once, an occurrence runs once, runs are numbered in claim order |
| `AuditTrail` | who takes each edge of a job, and the reason the transition table keeps for it |
| `RunMoves`, `RunSafety`, `RunOwnership` | the race between a monitor and any number of cancellers on one run |
| `SignalSafety`, `SignalRace` | which delivered signals have a stored request behind them, and in which systems all of them have |
| `OutcomeSafety`, `Settlement` | what a run's outcome tells about the wait for its command, and what a job's end tells about its run |
| `ActiveRuns`, `LostRuns`, `LostRunRace` | at most one unfinished run per job, and exactly when a cancellation leaves one behind a finished job |
| `Programs`, `Supervising`, `Monitoring`, `Signalling`, `Cancelling` | the three programs as imperative methods over the store object: each takes exactly the steps of its protocol client when nobody interrupts it, and the rows it leaves are stated outright |
| `Deadlines`, `Heap`, `EventLoop` | the indexed heap (entry list and position map) as a plain map from job to deadline; the event loop over it |
| `Sorting`, `Recovery`, `RecoveryLaws` | startup recovery planning and the rebuilt heap |
| `Capture`, `GroupCancellation`, `Children` | loops against an arbitrary reader and writer, process inspector and clock, notifier |
| `DurationCodec`, `DurationErrors`, `IdentifierCodec` | the two parser and printer pairs, and why a duration is refused |

A few decisions that matter when reading the results:

- A protocol step is one statement of the store. The run updates of the source are a read followed
  by a guarded `UPDATE`, so they are two steps here and any other program may come between them. A
  program may also stop at any point, which covers crashes, busy timeouts and failed input or output.
- `Mode.steady` says that the wall clock never goes back; `Mode.strays` allows monitors started by
  hand for any job and run; `Mode.reliable` says that waiting for a started command never fails. Each
  result says which of them it needs; job safety and the run results in `RunSafety` need none.
- A canceller takes one step for every answer it gets from the system: each look at the command's
  leader, TERM, KILL. A leader whose monitor has waited for it with success is never found alive
  again, because it is gone and no later process has its start token
  (`src/infrastructure/process/mod.rs`, lines 112-141). Nothing else is assumed about the answers.
- Everything decided outside (clock readings, fresh ids, claim tokens, process inspection, how a
  command ends, read and write results) is an unrestricted input.
- Timestamps are integers in nanoseconds within the range of the jiff library; revisions are
  unsigned 64-bit values from 1, stored as signed ones; elapsed time is an unsigned 128-bit value.

## Results

- **Cancellation is final** for one-shot and recurring jobs, under any interleaving, stale rows,
  crashes and clock jumps (`JobSafety.CancellationIsFinal`).
- **At most one claim.** A one-shot job makes at most five transitions, is claimed at most once and has
  at most one run; two claims of a recurring job are separated by a committed advance to Waiting; no
  occurrence runs twice.
- **One outcome, one writer.** A finished run is frozen, a cancellation stored before the spawn excludes
  Running for good, and after the start the monitor alone finishes the run and is never refused.
- **Signals come after the stored request**, as the comment in `src/application/cancel.rs` (line 41)
  promises, whenever waiting for a command works and only supervisors start monitors. The commit call
  alone does not give this: it reports a finished run as a success
  (`src/infrastructure/sqlite/run_store.rs`, lines 218-220). What does is that only the monitor
  finishes a run that has a process, after its wait, and that a leader that was waited for is not
  found alive. So every delivered TERM or KILL goes to a run whose request was stored before, or whose
  monitor tried to wait and failed (`SignalSafety.SignalsFollowRequests`). The exception is real:
  after a failed wait the run is recorded as interrupted while the command may still be alive
  (`src/run_monitor/lifecycle.rs`, lines 100-129). `SignalRace.PromiseHoldsExactly` gives the exact
  condition: the promise holds over all runs of a system if and only if waits never fail and no
  monitor is started by hand.
- **The outcome is the one the wait calls for.** A finished run that had a process was waited for, and
  its outcome follows from what the wait reported, whether its output was captured and whether a
  request was found after the wait (`OutcomeSafety.OutcomeMatchesReport`). A one-shot job that is
  Succeeded, Failed or Interrupted has exactly one run and that run ended so
  (`Settlement.OneShotEndsAsItsRun`); together, a one-shot job is Succeeded only if its command was
  reported to have exited with 0 (`Settlement.SuccessMeansExitZero`).
- **At most one active run.** With monitors started by supervisors only, a job never has two unfinished
  runs and a job that waits for its next round has none (`ActiveRuns.AtMostOneActiveRun`), which
  startup takes for granted (`src/infrastructure/sqlite/reconcile.rs`, lines 66-70).
- **A cancellation can lose a run.** The other thing startup takes for granted, that an unfinished run
  belongs to an unfinished job (lines 96-100), does not always hold. `cancel_job` asks for the active
  run once, before it asks for the cancellation (`src/cli/dispatch.rs`, lines 764-828). If the claim
  comes after that, the job can end as Cancelled while its run is still open, and then the startup query
  fails. `LostRunRace.RunsAreLostExactly` gives the exact condition: a request made for a one-shot job in
  Starting or Running can lose its run this way, and one made in any other state cannot; nothing else
  ever leaves an unfinished run behind a finished one-shot job, in any mode
  (`LostRuns.OnlyEarlyCancelLosesRuns`, `LostRuns.LoadsUnlessLost`).
- **When a due job starts** is stated as an if-and-only-if on its stored row, the clock and the run table
  (`Supervising.ExecuteSingleDueJob`), and so are the answers of every store operation, the open
  edges of jobs and runs, and the rows that the monitor and the canceller leave.
- **Runs are numbered** 1, 2, 3, ... per job, without a gap or a repeat, in the order of their claims.
- **The aggregate accepts a finish before the start** (`src/domain/run.rs`, line 194, compares only
  with the creation). `Runs.ReadsBackUnchanged` gives the exact condition under which a reachable
  run can be read back, `Runs.FinishBeforeStartIsAccepted` the whole family where it cannot.
- **The heap and the loop** do exactly what a map from job to deadline does, and every deadline that was
  in the heap or came in a message has exactly one of three fates; at every turn whatever is due is
  delivered at once (`EventLoop.EveryTurnCounts`).
- **Recovery** does not depend on record order, accounts for every record exactly once, and the
  rebuilt heap drains in plan order.
- **A read error hides an earlier write error** in `drain_stream`: `first_error` is overwritten
  (`src/run_monitor/capture.rs`, lines 151-153). The contract of `Capture.DrainStream` states the
  order of precedence as it is, and `Capture.ReadErrorHidesWriteError` is an input where it shows.

## Model

| member | source | states |
|---|---|---|
| `Transitions.OneShotEdgesClimb` | src/domain/transition.rs:65-112 | every edge open to a one-shot job climbs a rank from 0 to 5 |
| `Transitions.JobEdgesAreExact` | src/domain/transition.rs:65-112 | a move is granted if and only if the reason is usable and the job stands in one of the listed sources of its target, for one-shot and for recurring moves; CancelRequested is open from exactly the four states before it |
| `Transitions.RunEdgesAreExact` | src/domain/transition.rs:114-174 | the same for runs, with the sources of each run state |
| `Transitions.ReachesIsChain` | src/domain/transition.rs:114-174 | the closed form "later run state" is exactly reachability along legal run edges, in both directions |
| `Transitions.StaleTerminalTargetStaysLegal` | src/domain/transition.rs:114-174 | an outcome that was legal for an older state of a run is still a legal edge from any unfinished later state |
| `Recurrence.OnlyTheFinalConversionFails` | src/domain/recurrence.rs:110-142 | for timestamps in range none of the five intermediate overflow checks can fire; the call fails exactly when the next occurrence is past the last representable instant |
| `Recurrence.NextIsLeastAfterNow` | src/domain/recurrence.rs:110-142 | the call returns `next` if and only if `next` is the least anchor-plus-whole-intervals point strictly after now |
| `Recurrence.NextIsMonotone` | src/domain/recurrence.rs:110-142 | a later clock never gives an earlier occurrence, and if it succeeds so does every earlier clock |
| `Recurrence.RelativeDeadlineMovesBothClocks` | src/domain/recurrence.rs:61-77 | a relative deadline fails exactly when one of the two clocks would leave its range, and otherwise both move by the same amount |
| `Jobs.MoveIsExact` | src/domain/job.rs:141-158 | a move succeeds if and only if the clock has not gone back, the state is among the target's sources, the reason is usable and a revision is left; then revision, state and time change and nothing else |
| `Jobs.AdvanceIsExact` | src/domain/job.rs:160-179 | an advance succeeds if and only if the schedule recurs, the next occurrence is in range, the clock has not gone back, the reason is usable, a revision is left and the job is Scheduled, Starting, Running, Succeeded, Failed, Interrupted or Missed; the job then waits for the least occurrence after now |
| `Jobs.Job.New` | src/domain/job.rs:33-62 | a job starts Scheduled at revision 1 and is refused exactly when its deadline is not in the future; the first due time is the one its schedule names |
| `Jobs.Job.Transition` | src/domain/job.rs:141-158 | succeeds exactly as `MoveIsExact` says, with its new fields; after an error no field has changed |
| `Jobs.Job.AdvanceRecurring` | src/domain/job.rs:160-179 | succeeds exactly as `AdvanceIsExact` says, so also from Running after a run; Waiting with the least occurrence after now, or an error and no field changed |
| `Jobs.CallKeepsRule` | src/domain/job.rs:141-179 | any call, failed or not, keeps the due time on the anchor grid and never moves it back; a successful advance puts it after the advance time; a failed call changes nothing |
| `Jobs.DueNeverGoesBack` | src/domain/job.rs:141-179 | the same over every sequence of calls |
| `Jobs.DueExceedsEveryAdvance` | src/domain/job.rs:160-179 | after any sequence of calls the due time is later than the time of every advance that succeeded |
| `Jobs.RecurringJobStaysOnGrid` | src/domain/job.rs:33-179 | a job that `Job::new` has just made recurring, after any sequence of calls: same schedule, due time on the anchor grid, not before the anchor, and later than every advance that succeeded |
| `Runs.OutcomeTableAgrees` | src/domain/run.rs:186-202 | an outcome is accepted exactly when none is recorded, the time is not before creation and the edge is legal; which error is reported otherwise; the state set through `complete_run` is the one `outcome_state` names; state, outcome and finish are set and nothing else |
| `Runs.OutcomeMeansState` | src/domain/run.rs:278-286 | a run succeeds only by exit code 0; which outcomes mean failed, interrupted and cancelled |
| `Runs.ReadingIsExact` | src/domain/run.rs:223-276 | exactly which stored rows can be read: times in order, outcome and finish exactly when finished, the outcome's own state, usable identities and paths; reading changes nothing |
| `Runs.PartsAreBetweenSlashes` | src/domain/run.rs:327-337 | the parts that the path check looks at are free of slashes and put together again give the path |
| `Runs.LogPathIsNormal` | src/domain/run.rs:327-337 | a log path is accepted if and only if all its components are plain names: no root, no parent, no leading current directory |
| `Runs.UselessIdentities` | src/domain/run.rs:315-325 | an identity is refused exactly for an empty or NUL-bearing boot name, a zero process, a zero start token or a group that is not positive |
| `Runs.LifeIsConsistent` | src/domain/run.rs:140-202 | in every reachable run, outcome, finish time and terminal state are present together, and the state agrees with the outcome |
| `Runs.CancelledWasRequested` | src/domain/transition.rs:152-174 | a Cancelled run was CancelRequested earlier |
| `Runs.ReadsBackUnchanged` | src/domain/run.rs:223-276 | a reachable run is read back unchanged if and only if its finish is not before its start; otherwise the error is the timeline error |
| `Runs.FinishBeforeStartIsAccepted` | src/domain/run.rs:186-202 | every reachable run whose command was started accepts every legal outcome at every time from its creation up to the start, and the result cannot be read back |
| `Runs.SomeRunFinishesBeforeItsStart` | src/domain/run.rs:186-202 | that family is not empty: a complete life of a run that ends so |
| `Store.JobStore.Create` | src/infrastructure/sqlite/job_store.rs:39-78 | inserts exactly this row under a fresh id, or reports the duplicate, and changes nothing else |
| `Store.JobStore.TransitionJob` | src/infrastructure/sqlite/job_store.rs:128-186 | commits if and only if the row is readable, at the expected revision with one left, not changed after now, in a source of the target, and the reason is usable; then the job row with its three new fields and one history row are stored together, and otherwise no table changes |
| `Store.JobStore.AdvanceRecurringJob` | src/infrastructure/sqlite/job_store.rs:188-243 | the same for the advance: exactly when the expected row can be advanced, also from Running, with the least occurrence after now as the new due time |
| `Store.JobStore.ScanRuns` | src/infrastructure/sqlite/run_store.rs:23-88 | finds out whether the occurrence is already claimed and the highest sequence of the job |
| `Store.JobStore.ClaimRun` | src/infrastructure/sqlite/run_store.rs:23-88 | succeeds if and only if the job is there, id and token are free, the occurrence is unclaimed and a sequence number is left; then one Starting run is inserted, each field named, with the next sequence |
| `Store.LoadingIsExact` | src/infrastructure/sqlite/run_store.rs:95-243 | what a claimed run is loaded as: a missing row, an unreadable row and another token are three errors in this order, anything else is the row as stored |
| `Store.JobStore.MarkRunRunning` | src/infrastructure/sqlite/run_store.rs:95-150 | succeeds if and only if the claim is readable, Starting, not started before its creation, and both identities and both paths are valid; then the row is the old one with Running, the start, monitor, command and the two paths, each in its own field; with nobody in between the write never conflicts |
| `Store.JobStore.RecordRunTerminal` | src/infrastructure/sqlite/run_store.rs:152-203 | a finished run is never changed; recording the same outcome and time on it again is a success and anything else an error; an unfinished one gets the outcome exactly when the aggregate accepts it |
| `Store.JobStore.RequestRunCancellation` | src/infrastructure/sqlite/run_store.rs:205-243 | requests an unfinished run, and returns a finished one as a success without changing it |
| `History.PerformKeepsLegal` | src/infrastructure/sqlite/job_store.rs:128-243 | every store call keeps each job's history one unbroken legal path with consecutive revisions and non-decreasing times that ends in the stored row |
| `History.EveryHistoryIsLegal` | src/infrastructure/sqlite/job_store.rs:128-243 | the same after any sequence of create, transition and advance calls |
| `History.OneWriterPerRevision` | src/infrastructure/sqlite/job_store.rs:128-243 | of all writers that hold the same revision at most one ever commits |
| `JobSafety.TransitionMoves` | src/infrastructure/sqlite/job_store.rs:128-186 | a commit from a row read earlier starts from exactly that row, so what its reader concluded still holds |
| `JobSafety.NextKeepsJobs` | src/supervisor/daemon.rs:485-558 | every event of the system keeps the job invariant, and histories only grow |
| `JobSafety.CancellationIsFinal` | src/run_monitor/mod.rs:81-127 | once a CancelRequested row is stored, at most one more row follows and the job is never again Scheduled, Waiting, Starting or Running |
| `JobSafety.FinishedJobsAreFrozen` | src/run_monitor/mod.rs:81-92 | a finished job's row and history never change again, recurring jobs included |
| `JobSafety.OneShotClaimedAtMostOnce` | src/supervisor/daemon.rs:485-531 | a one-shot job has at most five transitions, at most one into Starting, and at most one claim |
| `JobSafety.ClaimsAreSeparatedByAdvance` | src/supervisor/daemon.rs:485-531 | between two claims of a job there is a committed recurring edge back to Waiting |
| `AuditTrail.EveryRowNamesItsCause` | src/infrastructure/sqlite/job_store.rs:167-186 | over all traces: each row of the transition table carries the actor and the reason that belong to its edge, so only cancellers request, only the supervisor starts, and a job is Cancelled from CancelRequested alone |
| `Claims.EachOccurrenceRunsOnce` | src/infrastructure/sqlite/run_store.rs:23-88 | two runs of one job never share an occurrence, a one-shot job has at most one run, and every run belongs to a stored job |
| `Claims.SequencesFollowClaims` | src/infrastructure/sqlite/run_store.rs:23-88 | at every moment the runs of a job are numbered from 1 without a gap or a repeat, and a later claim has a higher number |
| `RunMoves.StaleTerminalWriteIsLegal` | src/infrastructure/sqlite/run_store.rs:152-203 | the terminal write goes through exactly when the row is unfinished, and although it was checked against an older row, the edge it takes is legal |
| `RunMoves.StepMakesMove` | src/run_monitor/lifecycle.rs:43-163 | a step of any program changes the run table in its own one way or not at all, and records a request exactly when it stores one |
| `RunMoves.MoveKeepsSeen` | src/infrastructure/sqlite/run_store.rs:95-243 | a row read earlier stays a fair reading after anybody's write |
| `RunSafety.NextKeepsRuns` | src/application/cancel.rs:21-51 | every event keeps the run invariant |
| `RunSafety.FinishedRunsAreFrozen` | src/run_monitor/lifecycle.rs:43-163 | at most one terminal outcome: a finished run is never written again, and every row only moves along legal edges |
| `RunSafety.CancelBeforeSpawnExcludesRunning` | src/application/cancel.rs:40-45 | a run that is CancelRequested never becomes Running, and no process is ever attached to it afterwards |
| `RunSafety.RequestedMeansWasRequested` | src/infrastructure/sqlite/run_store.rs:205-243 | the bookkeeping of requests is exact: a run is on record if and only if some earlier state had it CancelRequested |
| `SignalSafety.StepKeepsSignals` | src/infrastructure/process/cancel.rs:14-60 | every step keeps the signal invariant, and what it delivers goes to a run with a stored request or a failed wait |
| `SignalSafety.SignalsFollowRequests` | src/application/cancel.rs:40-50 | over every run of a system without hand-started monitors: a delivered TERM or KILL goes to a run that was CancelRequested before, or whose monitor failed to wait for its command |
| `SignalRace.FailedWaitBreaksThePromise` | src/run_monitor/lifecycle.rs:100-129 | if waits may fail, a complete run of the system delivers TERM without any stored request |
| `SignalRace.StrayMonitorBreaksThePromise` | src/run_monitor/mod.rs:26-60 | so it is with a monitor started by hand, whose failed preparation finishes the run of another monitor's command |
| `SignalRace.PromiseHoldsExactly` | src/application/cancel.rs:40-50 | every signal comes after its stored request, over all runs of the system, if and only if waits never fail and no monitor is started by hand |
| `RunOwnership.OneMonitorPerRun` | src/supervisor/daemon.rs:532-558 | no two live programs own the same claimed run |
| `RunOwnership.OnlyTheMonitorFinishes` | src/run_monitor/lifecycle.rs:100-163 | once a process is attached only the monitor's own write can finish the run, with the monitor's outcome |
| `RunOwnership.MonitorOutcomeIsAccepted` | src/run_monitor/lifecycle.rs:100-191 | with a clock that does not go back, that outcome is a legal edge at every moment and neither check refuses it |
| `ActiveRuns.AtMostOneActiveRun` | src/infrastructure/sqlite/reconcile.rs:53-76 | over all traces without hand-started monitors: two unfinished runs of one job are the same run, and the job is then neither Scheduled nor Waiting |
| `ActiveRuns.CancellerFindsTheRun` | src/infrastructure/sqlite/management.rs:151-164 | so the query for the latest active run finds the one unfinished run if there is one, and nothing exactly if there is none |
| `LostRuns.OnlyEarlyCancelLosesRuns` | src/cli/dispatch.rs:747-832 | over all traces in all modes: a finished one-shot job with an unfinished run was requested from Starting or Running and then closed by a canceller that had found no active run |
| `LostRuns.LoadsUnlessLost` | src/infrastructure/sqlite/reconcile.rs:53-102 | at every moment of every trace a one-shot job passes the two checks of the startup query if and only if it has not lost its run so |
| `LostRunRace.LateClaimIsLost` | src/cli/dispatch.rs:764-828 | two complete runs of the system, in every mode, that lose a run: a request from Starting, and one from Running after a refused attempt |
| `LostRunRace.RunsAreLostExactly` | src/cli/dispatch.rs:764-828 | a request from a given state can lose a run, in some run of the system, if and only if that state is Starting or Running |
| `Protocol.OutcomeIsCalledFor` | src/run_monitor/lifecycle.rs:171-191 | for every report there is exactly one outcome it calls for, read from the outcome's side: failed exactly when capture failed, success exactly on code 0 even when a request is there, cancelled on any other end with a request, the code, the signal, or interrupted; and it is the one the monitor records |
| `OutcomeSafety.OutcomeMatchesReport` | src/run_monitor/lifecycle.rs:94-149 | over all traces without hand-started monitors: a finished run that had a process was waited for and has the outcome its report calls for; a request stored before the wait counts, and none that was never stored |
| `Settlement.JobEndsTellRuns` | src/run_monitor/mod.rs:81-127 | over all traces: whoever wrote it, a history row that makes a job Succeeded, Failed or Interrupted has a run of that job behind it that ended so |
| `Settlement.OneShotEndsAsItsRun` | src/run_monitor/mod.rs:81-127 | a one-shot job that is Succeeded, Failed or Interrupted has exactly one run, and the run is in the matching state |
| `Settlement.SuccessMeansExitZero` | src/run_monitor/lifecycle.rs:94-149 | a one-shot job is Succeeded only with a report of exit code 0 and captured output behind it, and Interrupted only with a failed wait or a report of nothing |
| `Supervising.ExecuteSingleDueJob` | src/supervisor/daemon.rs:485-558 | a run for exactly the stored next due time is claimed if and only if the job is readable, Scheduled or Waiting, not changed after now and has revisions left, the occurrence is unclaimed and id and token are free; then the job ends Running two or three revisions on and the monitor of that run is started, or, when the spawn fails, run and job end Failed; the steps are the protocol's |
| `Supervising.FailSpawn` | src/supervisor/daemon.rs:532-556 | after a failed spawn the run is recorded as failed and then the job, each only if the clock has not gone back; the steps are the protocol's |
| `Monitoring.Execute` | src/run_monitor/lifecycle.rs:43-149 | a claimed run that is not stored as given is left alone; a failed preparation is recorded as a failure; otherwise the row gets the start's facts, each in its own field, the wait happens once, and the recorded outcome is the one the wait's answer calls for; the steps are the protocol's |
| `Monitoring.Finish` | src/run_monitor/mod.rs:81-127 | when the commit goes through (stated on the loaded row, the run state and the clock), the stored job is Cancelled if it was requested or the run was, else, recurring, Waiting with the least occurrence after now, else Succeeded, Failed or Interrupted as the run was, with the reason that belongs to it; otherwise nothing changes |
| `Monitoring.RunMonitorProcess` | src/run_monitor/mod.rs:26-60 | the whole monitor: nothing for a missing job, a missing run or a run of another job; otherwise what `Execute` does and then, if it recorded an end, what `Finish` does for it |
| `Signalling.GroupAlone` | src/infrastructure/process/cancel.rs:14-60 | the protocol's steps through a group cancellation give the result and deliver the signals of `cancel_validated_group` on the same answers |
| `Signalling.SignalGroup` | src/infrastructure/process/cancel.rs:81-97 | the canceller's call to it: nothing but signals to this run's group, then the wait for the run, or the end after an error |
| `Cancelling.CancelClaimedRun` | src/application/cancel.rs:21-51 | a finished or unreadable run is left alone; any other becomes CancelRequested, and ends Cancelled at once if it has no process; every delivered signal goes to this run and comes after the request committed by this very call, unless the run had been requested before; the steps are the protocol's, errors included |
| `Cancelling.RequestJobCancellation` | src/cli/dispatch.rs:773-812 | alone, one attempt decides: CancelRequested from exactly the four states before it, success without a write for a job already requested or finished; eight attempts with a reload after each lost race, as in the protocol |
| `Cancelling.CancelActiveRun` | src/cli/dispatch.rs:834-880 | the run is cancelled as by `CancelClaimedRun`; a reported state is the stored finished one; cancelling, signalling and polling is the protocol's, ending at a finished run, an error or the deadline |
| `Cancelling.FinishJobCancellation` | src/cli/dispatch.rs:882-931 | the job ends Succeeded, Failed, Cancelled or Interrupted exactly as its run did if that is open from where it stands; a finished job is reported as it is; an unfinished one is left alone and is a success only when it waits again |
| `Cancelling.CancelJob` | src/cli/dispatch.rs:747-832 | the whole canceller: without an active run the job is requested and then Cancelled; with one the job is requested and the run cancelled; a success reports a stored job that is settled; signals go only to the active run and after its request; the steps are the protocol's |
| `Deadlines.BatchIsExact` | src/supervisor/heap.rs:63-72 | the batch holds exactly the due jobs, each once, strictly ascending by due time and job |
| `Deadlines.BatchIsUnique` | src/supervisor/heap.rs:63-72 | any list with those two properties is the batch |
| `Heap.RootIsNext` | src/supervisor/heap.rs:59-61 | the root of an ordered heap is the first of all pending jobs in delivery order |
| `Heap.DeadlineHeap.Upsert` | src/supervisor/heap.rs:20-35 | plain map insert or overwrite; positions stay the exact inverse of entries and heap order holds |
| `Heap.DeadlineHeap.Remove` | src/supervisor/heap.rs:37-57 | plain map delete, reporting whether the job was there, also when the replacement has to rise |
| `Heap.DeadlineHeap.NextDeadline` | src/supervisor/heap.rs:59-61 | the least pending due time, none exactly when nothing is pending |
| `Heap.DeadlineHeap.PopDue` | src/supervisor/heap.rs:63-72 | returns exactly the due batch in order and leaves exactly the others |
| `Heap.DeadlineHeap.SiftUp` | src/supervisor/heap.rs:92-101 | repairs an entry that may be too small for its place without changing the map |
| `Heap.DeadlineHeap.SiftDown` | src/supervisor/heap.rs:103-123 | repairs an entry that may be too large for its place without changing the map |
| `EventLoop.WaitNeverPassesDeadline` | src/supervisor/loop_driver.rs:56-67 | the wait ends no later than the next deadline, and exactly there when there is no idle limit and the span fits; it is the longest wait within the deadline, the idle limit and 64 bits; with nothing pending it is the idle limit itself |
| `EventLoop.RunLoop` | src/supervisor/loop_driver.rs:25-54 | for any heap and every script of clock readings and messages: same messages, batches, exit and remaining deadlines as the plain map scheduler; each deadline from the heap or from a received message has one fate; the batches are the recorded deliveries; a timeout leaves nothing pending |
| `EventLoop.EveryTurnCounts` | src/supervisor/loop_driver.rs:34-54 | at every turn of every run: whatever is due at the turn's first reading is delivered in that turn, all of it and nothing else; only when nothing is due is a message taken in, none is lost, a stop message and only that stops the loop, and a timeout ends it exactly when nothing is pending; the wait has no limit exactly when nothing is pending and no idle limit is set |
| `EventLoop.EveryDeadlineHasOneFate` | src/supervisor/loop_driver.rs:25-54 | what entered is exactly the first deadlines and those of the Schedule messages received, in order; each of them is delivered exactly once and not early, or replaced by a later one for its job, or still held; never two of these |
| `EventLoop.StartIsExact` | src/supervisor/loop_driver.rs:25-33 | every set of pending deadlines is the start of some scheduler that has delivered and received nothing yet |
| `EventLoop.IdleExitMeansEmpty` | src/supervisor/loop_driver.rs:49-52 | the loop never leaves on a timeout while a deadline is pending |
| `EventLoop.LogListsDeliveries` | src/supervisor/loop_driver.rs:36-41 | the batches handed out are the recorded deliveries, job by job in the same order |
| `Sorting.SortedIsUnique` | src/application/reconcile.rs:129-132 | an unstable sort has one possible result when no two different elements tie |
| `Recovery.Planner.ReconcileActive` | src/application/reconcile.rs:136-167 | adds exactly the record's preserved run or interruption |
| `Recovery.Planner.ReconcileWaiting` | src/application/reconcile.rs:201-258 | adds exactly the record's deadline, advance or missed mark, or reports the overflow |
| `Recovery.PlanRecovery` | src/application/reconcile.rs:103-134 | plans exactly when the boot identity is valid and no record fails, and then returns all shares, sorted; otherwise it reports the first failing record |
| `RecoveryLaws.ShareIsFair` | src/application/reconcile.rs:136-282 | who is preserved, interrupted, rescheduled, advanced or missed, with every content: deadlines are elapsed-now plus the remaining time and agree with `reconcile_wall_schedule`; each error has its exact condition |
| `RecoveryLaws.PlanIgnoresRecordOrder` | src/application/reconcile.rs:129-133 | permuted records give identical deadlines and preserved runs and the same multiset of actions |
| `RecoveryLaws.PlanningIgnoresRecordOrder` | src/application/reconcile.rs:113-128 | whether the records can be planned at all does not depend on their order |
| `RecoveryLaws.PlanAddsUp` | src/application/reconcile.rs:113-134 | deadlines, preserved runs, interruptions and missed marks together are as many as the records |
| `RecoveryLaws.EveryRecordIsAccounted` | src/application/reconcile.rs:113-134 | the plan holds exactly one deadline or action of each kind a record is owed and nothing else about its job |
| `RecoveryLaws.PlanHoldsNothingElse` | src/application/reconcile.rs:113-134 | every entry of the plan comes from a record |
| `RecoveryLaws.RebuildDeadlineHeap` | src/supervisor/recovery.rs:6-12 | the rebuilt heap is valid and holds the plan's deadlines as a map |
| `RecoveryLaws.HeapDrainsInPlanOrder` | src/supervisor/recovery.rs:6-12 | at any moment the rebuilt heap owes exactly the due front part of the plan, in plan order, and in the end the whole plan |
| `Capture.WriteAllowed` | src/run_monitor/capture.rs:162-175 | writes the allowed bytes in order through any short writes, or stops at the first refusal |
| `Capture.DrainChunk` | src/run_monitor/capture.rs:156-176 | one read: the room left under the cap is written, the rest is counted as discarded, and nothing is written after an error |
| `Capture.DrainStream` | src/run_monitor/capture.rs:140-190 | the sink gets exactly the first `written` bytes, at most the cap and all up to the cap unless a write is refused; written and discarded add up to the input; a refused writer is never called again; which error is reported |
| `Capture.ReadErrorHidesWriteError` | src/run_monitor/capture.rs:149-153 | on one concrete reader and writer the writer's refusal is not the error that is reported |
| `GroupCancellation.WatchDuringGrace` | src/infrastructure/process/cancel.rs:36-45 | the grace loop goes on only while the group is alive and the deadline not reached |
| `GroupCancellation.CancelValidatedGroup` | src/infrastructure/process/cancel.rs:14-60 | at most one TERM and one KILL, each only under its condition, nothing after a change is seen, and every result exactly when the record of events says so |
| `Children.MonitorChildren.ReapFinished` | src/supervisor/children.rs:97-111 | asks every child once in ascending order, removes exactly the finished ones, returns the first failure |
| `Children.MonitorChildren.ReapReady` | src/supervisor/children.rs:39-62 | removes exactly the children whose own wait reported finished, sweeps all others after a stray notice or failed wait, reports the first failure, and terminates |
| `DurationCodec.FromStr` | src/domain/duration.rs:31-94 | the index loop computes the reading function, errors included |
| `DurationCodec.ParseAcceptsGrammar` | src/domain/duration.rs:31-94 | a text is accepted with a value if and only if, trimmed, it is written by the h/m/s grammar with that sum, and the sum is in range |
| `DurationErrors.RefusalIsExact` | src/domain/duration.rs:31-94 | each of the seven errors is reported if and only if the text is blank, or some components can be read and what comes next is stuck for exactly that reason (no digit, number too large, no unit, zero hours, unit order, sum too large), or all is read and the sum is out of range |
| `DurationCodec.TrimIsUnique` | src/domain/duration.rs:31 | trimming gives the one part of the text that neither begins nor ends with white space and has nothing but white space before and after it |
| `DurationCodec.DisplayIsGrammatical` | src/domain/duration.rs:97-115 | the printed text is written by the grammar, in the parts hours, minutes below 60 and seconds below 60, and denotes the duration |
| `DurationCodec.DisplayReadsBack` | src/domain/duration.rs:97-115 | every duration survives being printed and read |
| `DurationCodec.ReprintingIsIdempotent` | src/domain/duration.rs:97-115 | printing what was read is canonical |
| `DurationCodec.TrailingGapNeverHappens` | src/domain/duration.rs:80-91 | the error branch for white space at the end is unreachable after trimming |
| `IdentifierCodec.Encode` | src/domain/id.rs:55-63 | the loop always succeeds and writes the 26 lowest base-32 digits, most significant first |
| `IdentifierCodec.SymbolsAreTheAlphabet` | src/domain/id.rs:16-95 | the symbols are the 32 of the literal alphabet in its order, in either case, and no other |
| `IdentifierCodec.CheckedAddNeverFails` | src/domain/id.rs:102-106 | after a successful multiplication by 32 the addition cannot overflow |
| `IdentifierCodec.DecodeAccepts` | src/domain/id.rs:65-107 | exactly the texts of 26 symbols in either case whose value is below 2^128 are accepted, with that value |
| `IdentifierCodec.DecodeEncodes` | src/domain/id.rs:55-107 | decoding an encoded 128-bit value gives it back |
| `IdentifierCodec.EncodeDecodes` | src/domain/id.rs:55-107 | encoding a decoded text gives the text in lower case |
| `IdentifierCodec.TextOrderIsNumeric` | src/domain/id.rs:55-63 | the byte order of encodings is the numeric order of values |

## Left out

- Startup recovery, rerun, retention, deletion and hiding of jobs are not events of the protocol: they
  write job and run rows by other rules, so the whole-run results speak about the time between them.
- The effect of a recovery plan on the store (`apply_recovery`) is not modelled, only the plan.
- Job names, descriptions, tiers, execution specifications, time-zone versions and owners are not part
  of the job rows: no modelled decision looks at them.
- The transition table is kept grouped by job; the order of rows of different jobs is not modelled.
- `execute_due_jobs` and `load_wake`: the batch loop runs its jobs one after the other and collects
  failures, which is one `DueLoad` program per job here; the retry counters of the daemon are left out.
- LostRuns.OnlyEarlyCancelLosesRuns: speaks of one-shot jobs; a recurring job that is asked for in a later
  round than the one whose run the canceller found can be closed by that older run.
- The limit on the number of records in the startup query.
- Calendar resolution, rendering, configuration layers, path permissions, sockets and service files.
- SQLite itself: a transaction is atomic, and busy, corrupt-file and input/output errors appear only
  as a program that stops.
- Blocking and sleeping have no duration: the loop, the grace loop and the poll see only the clock
  readings and answers they are given.
- EventLoop.RunLoop: the script of clock readings and messages is finite; a loop cut off by its end
  reports `StillRunning`, and the result holds for every finite beginning of an endless loop.
- GroupCancellation.CancelValidatedGroup: the script of polls is finite; a grace loop cut off by its
  end reports `Waiting`.
- Capture.DrainStream: the reader ends after finitely many reads, with the end of input or an error.
- Cancelling.CancelActiveRun: the number of looks in the grace loop and at the poll is an input, and a
  client that ran out of looks is left standing there.
- Supervising.ExecuteSingleDueJob: whether the monitor could be started is an input; that the monitor
  then runs is part of the protocol only.
- SignalSafety.SignalsFollowRequests: a signal is matched to its run by the identity stored in the run
  row; that the system delivers it to that process group and no other is the system's part.
- The log-truncation flags of a run (`record_log_truncation`), the terminal echo and the wake-up sent to
  the supervisor after a recurring run: none of them touches a modelled column or decision.
- The operating system's text inside the outcome of a failed spawn or wait is a fixed text here.
- Job and run identifiers are compared as numbers in the state-machine modules; their text form is the
  business of `IdentifierCodec` alone.
- Log paths are split as on Unix; prefixes of other systems are not part of this model.
- The range of the monotonic clock in `GroupCancellation` is the platform's; the model takes 64 bits
  of nanoseconds. The capture counters are 64-bit sizes.
- The two threads that capture the two streams share nothing; one `DrainStream` stands for each.
- The library sort is known only to sort; the insertion sort in `Sorting` stands for it.
