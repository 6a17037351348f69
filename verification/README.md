# wackyproc: a verified model

`wackyproc` runs background jobs without a daemon. A job is a directory `.proc/<id>/`; a
detached supervisor writes its files in a fixed order, any number of `list`, `wait`, `get` and
`end-of-turn` processes derive the job's status from those files and from the process table,
and the operating system may kill, zombify, reap or recycle any process in between. This
project models that protocol as steps, proves what holds in every interleaving, and models the
algorithms around it in the form in which they are written.

Every `.dfy` file is one module. `dafny verify dfyconfig.toml` checks all of them.

## What is modelled

**One record, its supervisor and its observers.** `RecordProtocol` is a step machine: the
supervisor's program counter through `Supervise`, each observer's through `CheckLiveness` and
the optional notified mark, a process table with incarnations, and events for kills, exits,
reaping and PID reuse. Plain file writes are two steps (truncate, store), so a reader or a
death in between finds the file torn. A run is any sequence of events. `Variant` selects the
code as it is or the code with the second look in all three crash branches.
`ProtocolInvariants` holds what every step keeps, `MarkerSafety` the theorems over whole runs,
`SideConditions` and `ConditionIsNeeded` the exact condition under which the two unguarded branches
are harmless, `WitnessRuns` concrete runs from the launch of a supervisor that break it, and
`LostRecords` the answer for a record that lost its processes. `LivenessCheck` and
`SuperviseRun` hold the imperative code over a `ProcDir` object and prove that it follows the
step machine, so the machine's order of looks and writes is the code's.

**Identity and age.** `SeqLock` (the mkdir lock, its theft and the counter), `DisposedIds` (the
capped move-to-back list, its file, and the claim loop), `Retirement` (the age cap, and disposal
on demand) and `IdentityProtocol` (whole runs of run, list, prune and remove beside supervisors
that outlive their records).

**Notification.** `Surfacing`: the three delivery paths over one flag, as serialized operations on
any number of records. `HandOvers`: the same paths interleaved step by step over one record, with
the exact condition under which the job is handed over once.

**Waiting.** `PollRamp`, `PidfdWait` (the sliced pidfd wait over a table of descriptors), `WaitLoop`
(dedupe, both result modes, deadline, the ticker, and the one-shot fast path, which is that pidfd
wait), `WaitCancellation` (what a cancellation does to a wait) and `FastPathComparison` (the fast
path against polling).

**Algorithms.** `ToolDiscovery` (depth-first search over a cyclic directory graph),
`TrailingLines` (the backward line scan) and `HookOrder` (the hook comparator).

## Findings

- The branch for an unreachable PID is safe in every interleaving, and needs no assumption about
  reuse of the supervisor's PID: a reused one only delays the verdict
  (`MarkerSafety.UnreachableMarkIsFinal`).
- The zombie and recycled-PID branches can falsify a recorded result for good. That no PID is
  reused between reap and write, and that the supervisor does not finish between the two probes,
  is not enough: a check that read `exit_code` before the write can meet the PID's next holder
  after it, with the supervisor alive throughout (`WitnessRuns.ReuseAfterTheWrite`).
  `SideConditions.Benign` is the exact condition: each event that breaks it does the harm by
  itself, in some continuation that never breaks it again (`ConditionIsNeeded.BenignIsExact`). With
  the supervisor probe and the second look in all three branches no condition is needed
  (`MarkerSafety.RecheckedFidelity`).
- The repository's README.md:44 says that no two paths surface the same job twice because the flag
  is updated atomically, and that a read suppresses both hook paths. The flag is tested and set in
  separate steps (proc/notify.go:282-292). A piggyback that finds it set when it asks for the mark
  surfaces the job all the same (`WitnessRuns.BothHandOver`), and the wake tests it at
  proc/notify.go:169 and starts its hooks at 202-208, so it surfaces a job that a `get` or `wait` has
  marked and returned in between (`WitnessRuns.ReadThenWake`). No hook path surfaces a job that
  anybody has handed over if and only if no mark is lost, nobody lists the job between the start of
  the wake's hooks and its mark, and the first hand-over falls neither under a piggyback that has
  listed the job nor, unless it is the wake's, between the wake's test and the start of its hooks
  (`HandOvers.OrderlyIsExact`).
- The repository's README.md:51 lists exit 137 under CRASHED; the code reports FAILED for any
  recorded nonzero code, and so does the model.
- The repository's README.md:34 says a disposed ID is never claimed again; the list holds 2048, and
  beyond that a claim can hand an old supervisor's directory name to a new job
  (`IdentityProtocol.ForgottenOrphan`; exactly when: `IdentityProtocol.ClaimSafeExactly`; within the
  window it cannot happen: `IdentityProtocol.SafeWithinTheWindow`).
- proc/manager.go:602-604 says the first completed process "in caller order"; the loop at 679-683
  keeps the last newly terminal one (`WaitLoop.FirstCompleted`). The branch at 699-703 is never
  taken (`WaitLoop.AllCompleted`).
- main.go:197-199 promises that a cancelled wait aborts promptly. While every listed ID that is
  left is still spawning, the loop re-lists without looking at the cancellation
  (proc/manager.go:751-756): it then ends as if it had not been cancelled, at worst at its deadline
  (`WaitCancellation.SpinningIgnoresCancellation`). Nothing else holds it up: it is over later than
  a given time past the cancellation, up to one listing or two, a slice and the kernel's lateness,
  exactly if it spins past that time (`WaitCancellation.CancelledInTime`).
- In a first-completed wait, while one listed ID is still spawning, a pidfd armed for another hides
  its completion until the deadline (`FastPathComparison.SpawningIdIsMissed`). A wait for all IDs
  loses nothing by it (`FastPathComparison.BarrierLosesNothing`).

## Model

| member | source | states |
|---|---|---|
| `ProtocolInvariants.SupStep` | proc/supervisor.go:164-231 | Every step of the supervisor, with any write failing, keeps the record invariant (PID only after the supervisor's PID, exit_code only after the reap and equal to the mapped end, own start time in the metadata) and moves the files only as observers rely on |
| `ProtocolInvariants.OsStep` | proc/liveness.go:209-216 | Kills, exits, reaping, reuse of free PIDs and foreign processes keep the facts about who owns which PID; incarnations of tool and supervisor are never duplicated |
| `ProtocolInvariants.ObsWrites` | proc/liveness.go:152-154 | A check's only writes, marker and flag, keep the invariant of the record and never undo what others rely on |
| `ProtocolInvariants.ObsStep` | proc/liveness.go:157-236 | Every look of a check establishes what its next place assumes, in the marking step after the write |
| `ProtocolInvariants.Step` | proc/liveness.go:157-236 | The whole invariant, for any number of checks, survives every event of every party |
| `ProtocolInvariants.RunOk` | proc/supervisor.go:164-231 | It holds after every run, and recorded PIDs, exit code, marker and flag never change back |
| `MarkerSafety.DoomedForever` | proc/supervisor.go:172-211 | Once the supervisor is gone or leaving without a code on disk, no run ever produces one |
| `MarkerSafety.CanFinish` | proc/supervisor.go:164-211 | From every other reachable world some run puts a usable exit code on disk |
| `MarkerSafety.DoomedExactly` | proc/supervisor.go:164-211 | An exit code is out of reach in every future if and only if the world is doomed |
| `MarkerSafety.UnreachableMarkIsFinal` | proc/liveness.go:184-207 | In every interleaving a check about to mark through the unreachable-PID branch does so only when the supervisor is gone and no usable exit_code exists or ever will |
| `MarkerSafety.RecheckedKeepsMarkerSound` | proc/liveness.go:191-201 | With the second look in all branches a marker never stands beside a usable exit code |
| `MarkerSafety.CodeIsReported` | proc/liveness.go:163-175 | With a code on disk and no marker, a check that starts now can only answer with that code and the matching status, within four of its own steps |
| `MarkerSafety.RecheckedFidelity` | proc/liveness.go:191-201 | End to end, without any side condition: every check started after the write reports COMPLETED exactly when the tool exited normally with 0 and FAILED with the true code otherwise |
| `MarkerSafety.NotifiedNeverCleared` | proc/supervisor.go:137-145 | In every interleaving, with death mid-write, the flag never goes from true to false, and after the blind rewrite the metadata is never damaged again |
| `MarkerSafety.NoTerminalAnswerBeforeRewrite` | proc/supervisor.go:133-146 | While the rewrite is still to come, every check that has answered has answered RUNNING |
| `MarkerSafety.MarksKept` | proc/liveness.go:149-154 | When marker writes succeed, every CRASHED answer of a run has its marker on disk |
| `MarkerSafety.SettledStays` | proc/liveness.go:157-236 | A check that starts after something was settled stays in agreement with it through any run, and answers within four of its own steps |
| `MarkerSafety.TerminalIsAbsorbing` | proc/liveness.go:157-236 | After any terminal answer a later check answers terminally too, repeats a reported code, and differs at most by calling CRASHED what was COMPLETED or FAILED |
| `LostRecords.LostIsReported` | proc/liveness.go:184-225 | In every interleaving that leaves the process-table entries of the two recorded PIDs alone, a check of a record without a usable code whose tool is gone, a zombie or replaced and whose supervisor is gone or a zombie answers CRASHED within thirteen of its own steps and nothing else, with the marker if its write goes through |
| `LostRecords.UndisturbedCheckReportsLoss` | proc/liveness.go:184-225 | Left alone it does so in thirteen steps and leaves the marker |
| `SideConditions.SafeStep` | proc/liveness.go:217-232 | A benign event keeps checks, supervisor and tool PID out of the positions from which a wrong marker follows |
| `SideConditions.BenignRunsAreSafe` | proc/liveness.go:217-232 | On benign schedules the code as written never leaves a marker beside a usable exit code |
| `SideConditions.BenignFidelity` | proc/liveness.go:217-232 | End-to-end fidelity of the code as written on benign schedules |
| `ConditionIsNeeded.DeathHurts` | proc/liveness.go:217-225 | A supervisor that ends, code written, while a check that saw a zombie is still looking for it: a benign continuation ends in a shadowed code |
| `ConditionIsNeeded.LateReuseHurts` | proc/liveness.go:227-232 | The tool's PID reused under a check that read exit_code before the write: a benign continuation ends in a shadowed code |
| `ConditionIsNeeded.EarlyReuseHurts` | proc/supervisor.go:150-160 | The tool's PID reused between reap and write: a benign continuation ends in a shadowed code |
| `ConditionIsNeeded.BenignIsExact` | proc/liveness.go:217-232 | The side condition is exact: benign runs shadow nothing, and from every reachable world each event that breaks it, followed by nothing but benign events, can end in a shadowed code |
| `WitnessRuns.ZombieRace` | proc/liveness.go:217-225 | A run from launch with a single breach, the supervisor finishing between the two probes and no PID reused, after which a tool that exited with 0 and was recorded reads CRASHED for good |
| `WitnessRuns.ReuseBeforeTheWrite` | proc/supervisor.go:150-160 | The same with a single breach, the reuse of the PID between reap and write |
| `WitnessRuns.ReuseAfterTheWrite` | proc/liveness.go:227-232 | The same with a single breach, a reuse of the PID after the write under a check, and the supervisor alive at the end |
| `WitnessRuns.BothHandOver` | proc/notify.go:200-217 | A run from launch in which a hook path hands the job over after somebody has |
| `WitnessRuns.ReadThenWake` | proc/notify.go:169-208 | A run from launch in which a read marks and returns the job between the wake's test of the flag and the start of its hooks, and the wake surfaces it after that |
| `LivenessCheck.StatusFromMarkers` | proc/liveness.go:82-89 | The marker alone decides, with whatever usable code is recorded |
| `LivenessCheck.StatusFromExitCode` | proc/liveness.go:91-102 | A usable code, and only that, gives COMPLETED for 0 and FAILED otherwise |
| `LivenessCheck.IsSupervisorFinalizing` | proc/liveness.go:107-135 | True exactly for a recorded supervisor PID whose process exists and cannot be seen to be a zombie |
| `LivenessCheck.PidRecycled` | proc/liveness.go:139-147 | True exactly if a start time was handed in and the PID's current one can be read and differs |
| `LivenessCheck.MarkCrashed` | proc/liveness.go:149-154 | Creates the marker if it can be written and changes no other file |
| `LivenessCheck.SearchAlone` | proc/liveness.go:185-206 | What the probe of the supervisor and the second look decide for a check that is left alone |
| `LivenessCheck.ProbeProcess` | proc/liveness.go:184-236 | With every probe answered and the write going through: CRASHED, with the marker, exactly if the recorded process is absent or a zombie and so is the supervisor, or if a live process at the PID started at another time. A refused signal counts as absent; an unreadable state or start time as unsuspicious |
| `LivenessCheck.CheckLiveness` | proc/liveness.go:157-236 | The imperative check, left alone, with any probe unanswered and any write failing, gives the answer of its step program and leaves the directory as that program does; and in terms of the files and the process table alone: COMPLETED and FAILED exactly for an unmarked usable code, and with its probes answered and its write going through CRASHED, with the marker, exactly for a marked record and for one without a code whose recorded process vanished with its supervisor or was replaced |
| `SuperviseRun.WriteRecord` | proc/supervisor.go:18-23 | A record write changes one file and nothing else; failing halfway it leaves that file torn and reports an error |
| `SuperviseRun.WriteExitCode` | proc/supervisor.go:156-159 | The same for exit_code |
| `Common.CodesByOutcome` | proc/supervisor.go:236-251 | The recorded code is the status of an exit, 128 plus the number of a signal, and 1 for a Wait failure of another kind |
| `SuperviseRun.StartChild` | proc/supervisor.go:98-111 | A start that fails leaves 127 in exit_code when that can be written and always reports an error; the supervisor follows its step program |
| `SuperviseRun.RecordPid` | proc/supervisor.go:124-127 | A child whose PID cannot be recorded is killed and reported; otherwise only pid has changed |
| `SuperviseRun.RecordPgid` | proc/supervisor.go:128-131 | The same for the process group |
| `SuperviseRun.RecordSignature` | proc/supervisor.go:137-145 | The start time reaches the metadata when it can be read and written; failing to is not an error |
| `SuperviseRun.RecordStart` | proc/supervisor.go:115-147 | Reports an error exactly if pid or pgid could not be written, with the child killed; otherwise both hold the child's PID |
| `SuperviseRun.AwaitChild` | proc/supervisor.go:150-160 | The child is reaped and exit_code holds n for an exit with n and 128 + n for signal n, or an error is reported |
| `SuperviseRun.MarkWoken` | proc/notify.go:282-292 | The wake's mark reads the metadata again and sets the flag if it can be read and written; only the metadata can change |
| `SuperviseRun.MaybeFireHooks` | proc/notify.go:164-220 | The gate leaves exit_code and the PIDs alone; an open gate, a hook that starts and a working write leave the record notified |
| `SuperviseRun.Supervise` | proc/supervisor.go:164-231 | A whole supervision follows the step program to its end; without error exit_code, pid, pgid and supervisor_pid are on disk, a code on disk is n for an exit with n, 128 + n for signal n, and 127 if nothing was started; with nothing failing there is no error |
| `SeqLock.InvStep` | proc/seqlock.go:54-132 | Every step of any process, with failures and crashes, keeps the lock owned by its only holder and the counter at or above every number handed out, short of an overflow or the theft of a holder's directory |
| `SeqLock.FairRunsAreExclusive` | proc/seqlock.go:54-132 | Over any number of processes and crashes there is at most one holder and each returned number exceeds all earlier ones, as long as no stale removal takes a holder's directory and the counter does not overflow |
| `SeqLock.StealingBreaksExclusion` | proc/seqlock.go:72-81 | At every such removal the condition is needed: two steps later there are two holders |
| `SeqLock.StealsOnlyStaleLocks` | proc/seqlock.go:72-81 | In every run a process comes to remove a lock directory only if it has just seen one more than 10 seconds old and its own deadline has passed |
| `SeqLock.DeadlineIsKept` | proc/seqlock.go:54-56 | That deadline is 3 seconds after the call |
| `SeqLock.TwoStealers` | proc/seqlock.go:72-81 | A run in which each of two processes found the directory stale and the slower removes the faster one's |
| `SeqLock.PausedHolder` | proc/seqlock.go:45-53 | A run with a holder paused past the stale age in which the counter goes back and a number is handed out twice |
| `SeqLock.SoloCall` | proc/seqlock.go:102-131 | One undisturbed call returns the successor, stores it and frees the lock |
| `SeqLock.OverflowRestarts` | proc/seqlock.go:119 | At the largest uint64 the next number is 0, so the bound is needed too |
| `SeqLock.FailureChangesNothing` | proc/seqlock.go:105-131 | A read, a write or a rename that fails leaves the counter, returns nothing and frees the lock |
| `SeqLock.UnparseableFileStops` | proc/seqlock.go:105-114 | A counter that does not parse is left as it is, nothing is returned and the lock is freed |
| `SeqLock.AcquireSeqLock` | proc/seqlock.go:54-88 | The loop ends; it holds the lock exactly if its last mkdir made it, fails exactly if that was refused, times out only past the deadline, and removes at most one directory, seen stale after the deadline |
| `SeqLock.NextUnderLock` | proc/seqlock.go:98-131 | The lock is freed on every path; the counter advances exactly when a number is returned |
| `DisposedIds.CapsCommute` | proc/id.go:58-61 | Cutting the list before or after a disposal makes no difference |
| `DisposedIds.DistinctSnoc` | proc/id.go:51-58 | Moving an ID to the back is what one more disposal does to the distinct history by last disposal |
| `DisposedIds.ListRefinesHistory` | proc/id.go:48-69 | After any sequence of disposals the list is the last entries of the distinct IDs ordered by most recent disposal |
| `DisposedIds.RecentIsInWindow` | proc/id.go:26-28 | An ID disposed within the last 2048 disposals is in the list |
| `DisposedIds.LinesRoundTrip` | proc/id.go:63 | Reading back the file that was written gives the list that was written |
| `DisposedIds.LinesAreLines` | proc/id.go:38-42 | Whatever the file holds, what is read from it are nonempty, trimmed single lines |
| `DisposedIds.NamesAreLines` | proc/id.go:13-19 | Every nonempty name over letters, digits and hyphens is a proper line, so its disposal is read back as it was |
| `DisposedIds.LoadDisposedIds` | proc/id.go:32-44 | The set of the recorded IDs; empty without a file |
| `DisposedIds.OtherLines` | proc/id.go:52-56 | The recorded IDs other than one, in order |
| `DisposedIds.RecordDisposedId` | proc/id.go:48-69 | The file afterwards is the old list with the ID moved to the back and cut to the cap, or untouched if a write failed; for an ID that is a trimmed nonempty line this is also what is read back |
| `DisposedIds.ClaimUniqueDir` | proc/id.go:79-96 | Claims the first of 100 candidates that is neither disposed nor existing and fails for exhaustion exactly when there is none |
| `IdentityProtocol.ClaimStep` | proc/manager.go:226-239 | A claim, launched or aborted at any point, keeps metadata IDs equal to directory names and every supervisor in its own directory |
| `IdentityProtocol.RemovalStep` | proc/manager.go:332-336 | A removal under the recorded ID keeps the same |
| `IdentityProtocol.SupervisorsKeepToTheirJobs` | proc/id.go:71-96 | Over whole allowed runs no running supervisor writes into another job's directory |
| `IdentityProtocol.ListIsWindow` | proc/id.go:46-69 | In every run of claims and removals, recorded or not, the list is the last 2048 distinct disposed IDs |
| `IdentityProtocol.ClaimsAreFresh` | proc/id.go:79-96 | In every run no claim returns an ID that has a directory or is among the last 2048 distinct disposed IDs |
| `IdentityProtocol.RecentOrphansAreListed` | proc/id.go:26-28 | The supervisor of a record removed within the last 2048 disposals is protected |
| `IdentityProtocol.SafeWithinTheWindow` | proc/id.go:71-96 | Over whole runs, if removals under a running supervisor get recorded and at every claim each surviving supervisor's record was removed within the last 2048 disposals, no supervisor writes into another job's directory |
| `IdentityProtocol.ClaimSafeExactly` | proc/id.go:79-96 | A claim is safe for every draw of candidates if and only if the list holds the ID of every surviving supervisor of a removed record |
| `IdentityProtocol.UnrecordedRemovalIsUnsafe` | proc/manager.go:1010-1013 | An unrecorded removal under a running supervisor lets the next claim take its directory name |
| `IdentityProtocol.ForgottenOrphan` | proc/id.go:26-28 | A run from an empty base in which a supervisor outlives 2048 further disposals, its ID is claimed again, and it writes into the new job's directory |
| `Retirement.SortOk` | proc/manager.go:330 | The stable sort by generation orders by generation and then directory order, and loses nothing |
| `Retirement.VictimsAreTerminal` | proc/manager.go:312-326 | A retired record is readable and COMPLETED, FAILED or CRASHED |
| `Retirement.VictimsAreOldest` | proc/manager.go:331 | Every retired record is older, by generation and directory order, than every terminal record that stays |
| `Retirement.KeepsExactlyTheNewest` | proc/manager.go:301-339 | Without removal failures exactly the records outside the victims stay |
| `Retirement.RetirementIsIdempotent` | proc/manager.go:294-300 | Afterwards at most 100 readable terminal records are left, all of them if there were no more, and a second retirement removes nothing |
| `Retirement.RemovedAreRecorded` | proc/manager.go:336 | Every removed ID is in the disposed list afterwards, whatever the list held, and no ID is added for a record that stays |
| `Retirement.CollectTerminals` | proc/manager.go:312-326 | The loop collects exactly the readable terminal records, in directory order |
| `Retirement.RemoveVictims` | proc/manager.go:331-338 | A failed removal is skipped and not recorded; the others are removed and recorded in order |
| `Retirement.RetireOldestTerminals` | proc/manager.go:301-339 | Directories and disposed list afterwards are those of the specified retirement; a record that is unreadable, still running or cannot be removed stays, nothing appears, and only removed IDs are recorded |
| `Retirement.SurvivorsAreTheRest` | proc/manager.go:977-985 | Pruning leaves exactly the records that are not terminal |
| `Retirement.Prune` | proc/manager.go:950-989 | Up to the first terminal record that cannot be removed all terminal records are gone and recorded under their directory names, later ones untouched; an error exactly if there is such a record. No record that is not terminal goes, and no other name is recorded than that of one that went |
| `Retirement.Remove` | proc/manager.go:996-1015 | Not found exactly if there is no such directory; a removal takes that record only, whatever its status, and records it; a failure changes nothing |
| `Surfacing.InvStep` | proc/notify.go:279-292 | Every operation whose marks are written keeps: flag set if and only if handed over, nothing surfaced after a hand-over |
| `Surfacing.GetMarks` | proc/manager.go:430-442 | A read of a terminal record is a hand-over and marks it if the mark can be written; a read of any other changes nothing |
| `Surfacing.WaitReturnsMarks` | proc/notify.go:336-351 | A wait that returns IDs marks the terminal ones whose mark can be written, touches no other record, and hands over exactly the terminal ones |
| `Surfacing.WakeMarks` | proc/notify.go:164-220 | The end of a supervision wakes exactly for an unmarked terminal job and a hook that starts, and then marks the record if it can; any other end changes nothing |
| `Surfacing.ReadSuppressesHooks` | proc/notify.go:332-351 | From any state: after get or wait returned a terminal record and marked it, no wake and no piggyback ever surfaces it, whatever happens to other marks, as long as the ID is not claimed again |
| `Surfacing.SurfacedAtMostOnce` | proc/notify.go:279-292 | Over serialized runs a job is surfaced by at most one of wake and piggyback, by neither once it was handed over, and a terminal record is pending if and only if it has not been |
| `Surfacing.EndOfTurnHandsOverAll` | proc/piggyback.go:109-127 | A payload that can continue hands over exactly the pending records, in listing order, and leaves none |
| `Surfacing.EndOfTurnHoldsBack` | proc/piggyback.go:83-107 | Without can_continue or with an unparseable payload nothing changes, whatever is pending; a record whose mark fails stays pending and is not handed over |
| `Surfacing.PendingInOrder` | proc/piggyback.go:66-79 | Pending records come in listing order |
| `Surfacing.LostMarkSurfacesTwice` | proc/notify.go:215-217 | From every state a wake whose mark was lost is followed by a second surfacing, so the condition on the writes is needed |
| `Surfacing.MarkNotified` | proc/notify.go:282-292 | An error exactly if there is no record or an unmarked one cannot be written; otherwise that flag is set and nothing else changes |
| `Surfacing.MarkReadNotified` | proc/notify.go:336-351 | Afterwards the terminal ones among the IDs whose mark can be written are marked and every other record is as before |
| `Surfacing.ListPending` | proc/piggyback.go:66-79 | The terminal, unmarked records in listing order |
| `Surfacing.HandOver` | proc/piggyback.go:109-116 | Hands over exactly the listed records that are marked already or can be, in order |
| `Surfacing.EndOfTurnPiggyback` | proc/piggyback.go:91-128 | The whole end-of-turn operation is the specified step, and what it returns is what was handed over |
| `HandOvers.HubRun` | proc/notify.go:279-300 | Over every interleaving the log of hand-overs only grows, and each entry has its wake past the gate with the code on disk, or its check finished |
| `HandOvers.FlagStopsNewPaths` | proc/notify.go:164-171 | Once the flag is set no wake passes its gate and no piggyback's listing finds the job pending, in every run: later surfacings are by piggybacks that had listed it before, or by a wake that was past its gate before |
| `HandOvers.OrderlyRunsAreOnce` | proc/notify.go:279-292 | In orderly runs no hook path hands the job over once anybody has |
| `HandOvers.OverlapHurts` | proc/notify.go:169-208 | A first hand-over by another path while a piggyback that listed the job can still come to a terminal answer, or while the wake is past its gate and has not started its hooks: an orderly continuation surfaces it again |
| `HandOvers.LateListingHurts` | proc/notify.go:200-217 | A listing between the start of the wake's hooks and its mark: the same |
| `HandOvers.LostMarkHurts` | proc/notify.go:215-217 | A read or a wake whose mark is lost: the same |
| `HandOvers.OrderlyIsExact` | proc/notify.go:279-292 | The condition is exact: orderly runs from a launch surface at most once, and from every reachable world with readable metadata and recorded crashes each event that breaks it, followed by nothing but orderly events, can end in a second surfacing |
| `PollRamp.WaitPollIntervalMs` | proc/manager.go:572-584 | The doubling loop equals the closed form 100 below 10 polls and min(1000, 100 times 2^(n-9)) from there |
| `PollRamp.RampShape` | proc/manager.go:567-571 | Monotone and between 100 and 1000 for every count |
| `PollRamp.RequestedFrom12` | proc/manager.go:567-571 | The first n waits ask for 2300 ms plus 1000 ms for each beyond the twelfth |
| `PollRamp.PollsInBudget` | proc/manager.go:759-772 | How many waits can begin within a budget of milliseconds |
| `WaitLoop.ClampWaitSeconds` | proc/manager.go:512-520 | The request itself between 1 and 500 seconds, 1 below and 500 above |
| `WaitLoop.DedupeOk` | proc/manager.go:629-638 | The deduped IDs are the nonempty ones, once each |
| `WaitLoop.DedupeInOrder` | proc/manager.go:629-638 | They come in the order of their first mentions |
| `WaitLoop.DedupeIds` | proc/manager.go:630-638 | The loop keeps the first mention of each nonempty ID, in caller order |
| `WaitLoop.FindCompleted` | proc/manager.go:526-542 | The first listed ID that is missing, or exactly the terminal ones |
| `WaitLoop.RunningPidsFor` | proc/manager.go:548-565 | The PIDs of the non-terminal IDs in caller order, and whether any ID is not terminal |
| `WaitLoop.NewlyCompleted` | proc/manager.go:679-683 | The last ID in caller order that has just become terminal, or what was remembered |
| `WaitLoop.OneIteration` | proc/manager.go:670-773 | One iteration and the records it marks, leaving the open descriptors as they were |
| `WaitLoop.WaitSet` | proc/manager.go:625-774 | The call rejects an empty set and a missing ID, and otherwise ends as its iterations do, having marked the returned IDs only and leaking no descriptor |
| `WaitLoop.EndRemembers` | proc/manager.go:670-707 | No listing before the last one satisfied the wait, and the loop's memory is right when it ends |
| `WaitLoop.FailsFast` | proc/manager.go:671-678 | The wait goes on only from listings that succeed and have every ID; a failed listing fails it, and one that lacks an ID names such an ID |
| `WaitLoop.FirstCompleted` | proc/manager.go:679-689 | A first-completed return is the last, in caller order, of the IDs terminal in the first listing that shows any |
| `WaitLoop.AllCompleted` | proc/manager.go:690-706 | A barrier return comes with the first listing in which every ID is terminal, names the newest ID of the latest listing that had a new one, and never takes the empty fallback |
| `WaitLoop.TimeoutMeansUnsatisfied` | proc/manager.go:709-750 | A timeout never comes before the deadline, by whichever path, and no listing up to then satisfied the wait |
| `WaitLoop.ReturnsInTime` | proc/manager.go:654-773 | Every wait, with the spin and the pidfd wait in it, returns no later than its deadline plus one interval of 1000 ms plus one listing, plus what the kernel is late in one pidfd poll and one tick |
| `WaitLoop.AfterWake` | proc/manager.go:655-661 | From a wake on, each listing begins within 5 ms of the end of the one before and the lateness of the tick |
| `WaitLoop.FastPathIsOneShot` | proc/manager.go:722-747 | Once it has answered, the fast path is never consulted again |
| `WaitLoop.GoesOnUnpolled` | proc/manager.go:722-757 | An iteration goes on without a poll only for a wake or a process already gone, which disable the fast path, or because nothing could be armed while some ID is still spawning; always before the deadline and straight into the next listing |
| `WaitLoop.FastPathDecides` | proc/manager.go:722-757 | What each answer of the fast path leads to: a wake or a process already gone straight into the next listing at the fast cadence, an expiry to a timeout, an unusable one to polling; with nothing to arm the next listing follows at once |
| `WaitLoop.PollsAreBounded` | proc/manager.go:759-772 | On the polling path, however long listings take and however late ticks are, at most 12 polls, or one per second of the deadline and 10.7 more |
| `WaitLoop.WaitIsBounded` | proc/manager.go:654-773 | Both bounds for a whole wait: on its end for every wait, on its polls for one that polls |
| `WaitCancellation.NoPollOnceCancelled` | proc/manager.go:768-771 | Once the cancellation has come no listing follows on a tick |
| `WaitCancellation.GoesOnCancelled` | proc/manager.go:722-757 | An iteration whose listing ends after the cancellation goes on only for the one wake of the fast path, or because all that is left is spawning |
| `WaitCancellation.CancelledInTime` | main.go:197-199 | For any time past the cancellation: if an iteration spins on spawning IDs after it, the wait ends later; if none does, no later than a listing and the lateness of a tick after it, plus one slice and one listing with the fast path |
| `WaitCancellation.CancellationIsReported` | proc/manager.go:768-770 | A wait cancelled well before its deadline, with complete listings none of which satisfies it and no such spin, ends as cancelled |
| `WaitCancellation.CancelledMeansUnsatisfied` | proc/manager.go:768-770 | Cancelled means that the cancellation had come and no listing satisfied the wait |
| `WaitCancellation.SpinningIgnoresCancellation` | proc/manager.go:751-756 | As long as every ID is still spawning the wait lists on to its deadline and reports a timeout, whenever it was cancelled |
| `PidfdWait.ArmAll` | proc/pidfd_linux.go:76-84 | The first process that cannot be armed decides, and no descriptor stays open then |
| `PidfdWait.OpenPidfd` | proc/pidfd_linux.go:25-37 | A descriptor that was not open before, or a reason and none |
| `PidfdWait.ArmFailureOk` | proc/pidfd_linux.go:25-37 | Arming fails exactly if some process cannot be armed, and the first such decides: gone if it has no process, unusable for a PID that is not positive or a refusal |
| `PidfdWait.PollTurnOk` | proc/pidfd_linux.go:100-115 | A poll waits at most 100 ms and at most what remains, all whole milliseconds of it if nothing is ready, and stops at the first exit; a failed poll outranks a ready descriptor, and that a cancellation |
| `PidfdWait.PollSlices` | proc/pidfd_linux.go:90-116 | The loop ends as its slices do, also for a timeout that is not positive |
| `PidfdWait.WaitPidfds` | proc/pidfd_linux.go:75-117 | The same for the whole call, which leaves exactly the descriptors open that were open before |
| `PidfdWait.FirstExitOk` | proc/pidfd_linux.go:71-74 | Some armed process has exited by a time exactly if the earliest exit has come |
| `PidfdWait.SlicesOk` | proc/pidfd_linux.go:92-116 | A timeout comes at or after the deadline, and no armed process had exited when the last poll finished; a wake means that one had, and none by the poll before. A failed poll ends the wait as unusable, so does a cancellation that has come by the return of a quiet poll, and nothing else does |
| `PidfdWait.SlicesInTime` | proc/pidfd_linux.go:96-103 | With bounded interruptions and delays the wait ends within that bound of its deadline, and no exit that left that much time is missed |
| `PidfdWait.WaitForOk` | proc/pidfd_linux.go:90-99 | The whole call never times out early |
| `PidfdWait.WaitForInTime` | proc/pidfd_linux.go:75-117 | Nor, on a prompt kernel, returns later than its timeout and that bound |
| `PidfdWait.WaitForCancelled` | proc/pidfd_linux.go:111-115 | A cancelled wait is over within one slice and the kernel's lateness |
| `FastPathComparison.ExpiryLosesNothing` | proc/manager.go:722-750 | If every non-terminal listed ID had a PID at arming, then after a timeout no listing up to the kernel's delay before the deadline could have shown another ID as no longer running |
| `FastPathComparison.BarrierLosesNothing` | proc/manager.go:722-750 | If at least one PID was armed, then after a timeout no listing up to the kernel's delay before the deadline could have shown every ID terminal, spawning IDs or not |
| `FastPathComparison.SpawningIdIsMissed` | proc/manager.go:724-751 | In a first-completed wait, for every listing in which a listed ID is spawning beside one with a PID, its completion is reported as a timeout where polling returns it |
| `ToolDiscovery.Discovery.WalkDir` | proc/manager.go:42-79 | The recursive walk over the two shared maps leaves them as the specified walk does, and fails when it does |
| `ToolDiscovery.DiscoverToolsMap` | proc/manager.go:37-85 | No map on failure, else the specified one; an unresolvable tools directory gives the empty map |
| `ToolDiscovery.VisitsExactlyReachable` | proc/manager.go:42-52 | The walk ends on every finite graph; it fails if and only if some reachable directory cannot be read, lists each real directory at most once, and if it succeeds exactly the reachable ones |
| `ToolDiscovery.FindsExactlyTools` | proc/manager.go:57-76 | The files found are exactly the executable regular files of the reachable directories |
| `ToolDiscovery.MapsExactlyTools` | proc/manager.go:68-76 | A name is mapped if and only if some reachable directory holds a tool of that name |
| `ToolDiscovery.MapsToLast` | proc/manager.go:70-75 | It is mapped to the last of them in depth-first entry order, by a path that leads to it |
| `ToolDiscovery.EntriesOrdered` | proc/manager.go:57-78 | Files are found in the order of their positions in the tree |
| `TrailingLines.LinesOk` | proc/manager.go:445-447 | Joined, the lines are the data; each holds a newline at most at its end; only the last can lack one |
| `TrailingLines.LineCount` | proc/manager.go:453-456 | There is one line more than newlines before the last byte |
| `TrailingLines.LinesOfConcat` | proc/manager.go:459-463 | Data can be cut into lines after any newline |
| `TrailingLines.Trailing` | proc/manager.go:448-469 | The backward scan returns the concatenation of the last min(n, total) lines, and nothing for n below 1 |
| `HookOrder.LeadingNumber` | proc/notify.go:120-137 | The value of the longest run of digits, or none for no digits, digits that do not parse, or 64-bit overflow |
| `HookOrder.DecimalOk` | proc/notify.go:132-136 | Digits are positional |
| `HookOrder.SmallerNumbersFirst` | proc/notify.go:101-111 | Of two names that begin with numbers the one with the smaller number runs first; equal numbers run in ascending order of the names |
| `HookOrder.UnnumberedLast` | proc/notify.go:112-116 | Names without a number run after those with one, in ascending order |
| `HookOrder.LessOk` | proc/notify.go:109-116 | Ascending order is by the first rune that differs, and a prefix comes first |
| `HookOrder.PrecedesIsTotal` | proc/notify.go:101-116 | Of two different names exactly one comes first; none comes before itself |
| `HookOrder.PrecedesIsTransitive` | proc/notify.go:101-116 | The comparator is transitive |
| `HookOrder.SortedIsUnique` | proc/notify.go:101-117 | The comparator allows only one sorted order of the same names, so the unstable sort has one result |
| `HookOrder.DiscoverCompletionHooks` | proc/notify.go:74-118 | An error exactly for an unreadable folder, nothing without one; else the names of the executable regular files, each as often as listed, in sorted order |
| `HookOrder.ScriptsOk` | proc/notify.go:87-100 | The scripts are the names of the entries that are executable regular files |
| `HookOrder.ListingOrderIsIrrelevant` | proc/notify.go:74-118 | However the directory is listed, the same hooks run in the same order |
| `HookOrder.OverflowIsUnnumbered` | proc/notify.go:132-135 | A name whose digits exceed 64 bits runs after every numbered one |

## Left out

- SeqLock.FairRunsAreExclusive: states exclusion and order under a condition on the schedule, because both are false without it (`SeqLock.TwoStealers`, `SeqLock.PausedHolder`); wall-clock steps backwards and the in-process mutex are not modelled.
- Surfacing.SurfacedAtMostOnce: is about operations that do not overlap; `HandOvers.OrderlyIsExact` is about those that do, for one record.
- SuperviseRun.Supervise: reports for a child whose wait gives an exit status or a signal; a Wait error of another kind, which the code maps to 1, occurs only in `Common.CodesByOutcome`.
- LivenessCheck.CheckLiveness: is proved for a check that nobody interrupts, and in two halves of one function; interleavings are in the step machine.
- HandOvers.OrderlyIsExact: its second half is for records whose metadata can be read and whose CRASHED answers have their marker; a record without readable metadata is never marked.
- A listing and a pidfd poll take at least a nanosecond; the ticker is the one of Go 1.23 and later, without stale ticks after a reset.
- HookOrder.DiscoverCompletionHooks: sorts by insertion where the code calls the library's sort; `HookOrder.SortedIsUnique` makes the difference invisible.
- The step machine's record does not hold the process group on the reading side, and of the metadata only start time and flag; a torn pid or exit_code reads as unusable, not as a shorter number.
- The signal probe of the supervisor is never refused for permission: supervisor and observers run as one user.
- Start times from different sources (/proc and ps) for one process are not compared.
- The idle-wake gate's other reasons to skip (no agent folder, no hooks, busy session, failed notice) are one yes-or-no answer with the test of the flag, and the hooks' starts are one later step; the gate's own liveness check only fills the hook environment.
- A read counts as handing over when its request for the mark returns, just before get or wait does.
- Where a tick and a cancellation are both ready the select takes either; the model takes the cancellation, so the listing more for each time the tick is taken instead is not counted.
- Directory graphs and file systems do not change during a tool or hook search.
- JSON, paths, captured output, hook environments and texts, the subreaper, process groups and signals sent by stop, kill and signal, ID syllables, commands and tables: no protocol state depends on them.
- describe, peek's file handling and the cleanup of temporary files: they would only add easy members.
