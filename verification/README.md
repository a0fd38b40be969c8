# Verified model of the simmer regression runner

`simmer` runs hardware regressions: it schedules builds, compiles and tests that depend on each other,
supervises their process groups, reuses compiles across invocations, and records what happened. This project
models the parts of it where order, time and concurrency decide correctness, and proves what those parts keep.

| file | what it models |
|---|---|
| `Jobs.dfy` | `JobStatus` and `Job`: the status automaton, the dependency graph, the priorities pushed up it |
| `SchedulerSpec.dfy` | every block that the scheduler executes under its condition, as a function on the seven queues |
| `SchedulerLaws.dfy` | what the single queue transitions keep; the one-pass fixpoint over todo |
| `JobManagers.dfy` | `JobManager` as a class: each method computes the transition of `SchedulerSpec.dfy` |
| `QueueInvariant.dfy` | the queue invariant and its preservation by every locked block |
| `SchedulerRuns.dfy` | the scheduler thread, the hooks, the runners and the other threads as a labelled transition system |
| `SchedulerSafety.dfy`, `FailureCount.dfy`, `ExclusiveLocks.dfy` | safety theorems over every run |
| `WorkConservation.dfy` | no round of the scheduler leaves a job waiting that could have moved on |
| `EagerSkips.dfy` | a failure takes everything below it out of todo at once |
| `Shutdowns.dfy` | what kills, graceful exits and cancelled launches leave behind |
| `Confluence.dfy` | every complete run ends with the statuses of a recursive evaluation |
| `Progress.dfy` | no lost wakeup, no deadlock, bounded runs |
| `RunnerSpec.dfy`, `Runners.dfy`, `RunnerLaws.dfy` | `SubprocessJobRunner`: transitions, the class, and the timed theorems |
| `RunnerOutcomes.dfy` | when an escalation starts and ends, and when a pause takes effect, told by signals and history |
| `RunnerReports.dfy` | that what a runner reports is a step the scheduler's transition system allows |
| `CompileProtocol.dfy`, `CompileJobs.dfy` | compile reuse between processes that may crash, and the hooks of `VCompJob` |
| `LockOrder.dfy` | lock acquisition by several simmer processes, and why the locked paths never collide |
| `Vso.dfy` | dynamically selected tests and the chain of clones that consumes them |
| `Chunking.dfy`, `Intervals.dfy` | argument chunking, the two time sweeps |
| `Filelist.dfy`, `FilelistBases.dfy` | filelist discovery in any visiting order; exactly when nothing that is named can be missed |
| `FilelistDirectives.dfy` | what each directive of a filelist says, and that reading finds exactly that |
| `History.dfy`, `RepeatedMerges.dfy` | the history merge; exactly when merging twice is merging once |
| `Sorting.dfy`, `Wrappers.dfy` | Python's stable sort and string order; `Option` and `Result` |

Conventions. A block that the source executes under `JobManager._condition` is one step; hooks and runner calls
happen between steps and may have any outcome. A status that a hook assigns outside the lock is merged with the
locked block that follows it: in between, only the scheduler thread reads that status. Objects are classes with
the source's fields; pure functions on values specify them, and the theorems are about those functions. In a
transition system, `Enabled`, `Apply`, `Legal` and `After` say which labels can be taken, what they do, which
sequences are runs, and where a run ends.

The functions that specify the blocks are in turn held to laws that do not mention them: which lives a status accepts,
when a ready job must be launched, what a filelist directive names, what a decision to reuse finds, which events a row
sums up. A function that skipped a step or took the wrong branch would contradict one of these.

The parts meet in a few places. `BuiltGraphWellFormed` gives the scheduler the sorted, mirrored graph that it needs
from what `add_dependency` builds. The lock order lets a process ask for a compile lock only while it holds none,
which `OneExclusiveLock` proves of the scheduler. The compile protocol lets no hook release the lock while the
compile is alive, which is `LockOutlivesProcess`; that theorem rests on a runner reporting done only for a process
group that is gone, which `PollReportsTruth` derives from `DoneMeansGone`.

Four properties hold of the code only under a condition that it does not check. Each is proved to hold if and only
if the condition does, for all inputs:

* A compile fingerprint can be trusted exactly if compiles die with the simmer process that started them, the
  `--recompile` removal is complete, and the inputs are stable during the compile (the advisory lock is released
  when a process dies, and `shutil.rmtree(..., ignore_errors=True)` may stop half-way).
* Filelist discovery finds everything that is named, in this and in every file system that differs only by further
  plain names in filelists and further files, exactly if every readable filelist is reached under one base directory.
  The visiting order plays no part in this. (A filelist of absolute names may be reached under two bases without loss,
  until a relative name is added to it.)
* Merging the legacy history twice is merging it once, for every bound, exactly if every legacy run has an id and
  whatever sorts after the merged version of a legacy id also sorts after its legacy version.
* The sweep over Bazel events gives the measure of their union exactly if every event of negative duration starts no
  later than the furthest stop of the events sorted before it. Otherwise it is too small by the lengths of those that
  start later.

## Model

| member | source | states |
|---|---|---|
| Jobs.ReplayLaw | lib/job_lib.py:133-168 | over any sequence of status assignments: a job ends failed exactly when one of them failed it, completion and lack of success are never undone, a bypassed job never reports a real pass |
| Jobs.AcceptedLives | lib/job_lib.py:133-168 | exactly which sequences of status assignments are accepted, from every status, and where they end |
| Jobs.Job.SetStatus | lib/job_lib.py:218-220 | the setter raises exactly for a return to the start, a request for a bypass of a marked job, or any change of a completed status but to failed, and then changes nothing; else the status is the requested one, a pass of a marked job being a bypass |
| Jobs.Job.IncreasePriority | lib/job_lib.py:230-234 | every job gains the value once for each dependency path that leads to it |
| Jobs.Job.AddDependency | lib/job_lib.py:222-228 | a null dependency changes nothing; otherwise both edge lists grow by one entry, and every priority again equals the base plus its dependents' priorities, with multiplicity |
| Jobs.FreshJobs | lib/job_lib.py:193-205 | jobs without edges satisfy that priority law |
| Jobs.LastEdge | lib/job_lib.py:230-234 | dependency paths counted by their first edge and by their last edge agree, which is why pushing up one new edge restores the law everywhere |
| Jobs.PriorityClosedForm | lib/job_lib.py:222-234 | the law has one solution: the base times the number of dependent chains that start at the job |
| Jobs.PriorityOrderFree | lib/job_lib.py:222-234 | two graphs with the same edges, added in any order, give every job the same priority |
| Jobs.DependencySortsFirst | lib/job_lib.py:211-234 | a dependency's priority is strictly smaller than that of each dependent |
| SchedulerLaws.BuiltGraphWellFormed | lib/job_lib.py:222-234 | whatever sequence of add_dependency calls built the graph, it is mirrored and sorted as the scheduler needs |
| SchedulerLaws.SortedInsert | lib/job_lib.py:1020-1021 | bisect.insort_right keeps a list sorted |
| SchedulerLaws.InsertsAfterTies | lib/job_lib.py:1020-1021 | the new entry stands behind all entries of lower or equal priority and before the others |
| SchedulerLaws.SkipChildrenLaw | lib/job_lib.py:807-820 | the eager skip below a failed job loses nothing, skips only jobs with a failed dependency, and leaves none of the listed dependents in todo |
| SchedulerLaws.PassLaw | lib/job_lib.py:828-852 | a pass in mid-flight: what it kept stays blocked although skips cascade inside the pass |
| SchedulerLaws.MoveTodoToReadyLaw | lib/job_lib.py:828-852 | one pass is a fixpoint: no job is left in todo with all dependencies completed, both lists stay sorted, nothing is lost |
| SchedulerLaws.TakeIsMinimal | lib/job_lib.py:854-873 | the job taken is launchable, no launchable ready job has a smaller priority, and it moves from ready to launching |
| JobManagers.JobManager.constructor | lib/job_lib.py:712-741 | a fresh manager has empty queues and an active scheduler |
| JobManagers.JobManager.Create | lib/job_lib.py:698-709 | construction is refused exactly for an idle print interval, a job limit or a quit count below one |
| JobManagers.JobManager.MoveChildrenToSkipped | lib/job_lib.py:807-820 | the recursion over the object graph computes the eager skip |
| JobManagers.JobManager.InsortRight | lib/job_lib.py:1021 | the bisection finds the insertion point after equal priorities |
| JobManagers.JobManager.MoveTodoToReady | lib/job_lib.py:828-852 | noting positions and popping them in reverse computes the pass |
| JobManagers.JobManager.PopAll | lib/job_lib.py:850-852 | reverse popping removes exactly the noted positions |
| JobManagers.JobManager.AdvanceJob | lib/job_lib.py:832-848 | a job whose dependencies completed becomes ready or is skipped |
| JobManagers.JobManager.CanLaunch | lib/job_lib.py:854-862 | an exclusive job may launch exactly if nothing is active or launching, a parallel one exactly below the limit and beside no exclusive job |
| JobManagers.JobManager.TakeReadyJob | lib/job_lib.py:864-873 | takes the first launchable ready job, none while paused |
| JobManagers.JobManager.GracefulExit | lib/job_lib.py:1002-1014 | skips and empties what is queued, at most once |
| JobManagers.JobManager.AddJob | lib/job_lib.py:1016-1024 | a job is queued in order, or after an exit listed as skipped with its status unchanged |
| JobManagers.JobManager.LaunchCancelled | lib/job_lib.py:882-896 | a launch cancelled by a shutdown ends in skipped |
| JobManagers.JobManager.LaunchFailed | lib/job_lib.py:897-914 | a failed launch counts, skips what is below, may exit, and is done |
| JobManagers.JobManager.Launched | lib/job_lib.py:918-925 | the hand-over of a runner; after a kill the job leaves every queue |
| JobManagers.JobManager.TakeCompleted | lib/job_lib.py:789-796 | a finished job is claimed for finalization unless the thread must return |
| JobManagers.JobManager.CompleteJob | lib/job_lib.py:968-978 | the end of a job: count, possible exit, eager skip, done, next pass |
| JobManagers.JobManager.RecordIncompleteShutdown | lib/job_lib.py:980-1000 | an unreaped process group fails its job and stops scheduling |
| JobManagers.JobManager.Kill | lib/job_lib.py:1118-1136 | the shutdown snapshot and the emptying of the queues |
| JobManagers.JobManager.Pause | lib/job_lib.py:1079-1084 | pause is refused after a shutdown |
| JobManagers.JobManager.Resume | lib/job_lib.py:1097-1100 | resume clears the flag |
| QueueInvariant.ExactlyOneQueue | lib/job_lib.py:715-741 | conservation at one state: an added job is in exactly one queue once, unless it was lost to a kill |
| QueueInvariant.AddKeeps | lib/job_lib.py:1016-1024 | add_job keeps the invariant |
| QueueInvariant.CycleKeeps | lib/job_lib.py:764-770 | a pass followed by a launch decision keeps the invariant, admission included |
| QueueInvariant.LaunchFailedKeeps | lib/job_lib.py:905-913 | a failed launch keeps the invariant, failure bound included |
| QueueInvariant.CompleteKeeps | lib/job_lib.py:968-978 | completing a job, successful or not, keeps the invariant |
| QueueInvariant.RecordKeeps | lib/job_lib.py:990-1000 | recording an incomplete shutdown keeps the invariant |
| QueueInvariant.KillKeeps | lib/job_lib.py:1118-1136 | the shutdown keeps the invariant |
| SchedulerSafety.RunInv | lib/job_lib.py:762-1179 | the whole invariant holds after every run, whatever the interleaving |
| SchedulerSafety.Conservation | lib/job_lib.py:875-1024 | in every reachable state an added job is in exactly one of the seven queues, exactly once; the one exception was launched after a kill, is in no queue and is reported by interrupted_jobs |
| SchedulerSafety.KillForgetsNothing | lib/job_lib.py:1111-1136 | after a kill every job is done, skipped or reported as interrupted, and no done job is reported |
| SchedulerSafety.AdmissionAndFailures | lib/job_lib.py:854-873 | launching, active and finalizing never exceed the limit, an exclusive job is alone among them, and the error count stays at most quit_count + active_job_limit - 1 over every run |
| WorkConservation.RoundsConserveWork | lib/job_lib.py:762-770 | in every reachable state a round that is paused launches nothing, one that launches nothing otherwise leaves no ready job for which there is room, and a launched job has room and the smallest priority among those that have |
| WorkConservation.RoundsSettleTodo | lib/job_lib.py:828-852 | after any round a job is in todo only if a dependency has not ended, is ready only if all passed or were bypassed, and was skipped only because one failed or was skipped |
| WorkConservation.RoundsAskEveryRunner | lib/job_lib.py:762-784 | a round that launches nothing goes on to poll every active job, and waits only if there is none |
| WorkConservation.EndsSettleTodo | lib/job_lib.py:968-978 | the end of a job settles todo in the same way at once, in every reachable state |
| EagerSkips.FailuresReachDependents | lib/job_lib.py:807-820 | over every run in which no job is added below a failed or skipped one, no job ever waits for a dependency that failed or was skipped, however deep it lies, and later passes skip nothing |
| EagerSkips.BuiltGraphListsDependents | lib/job_lib.py:222-228 | the graph that add_dependency builds lists every job among the dependents of its dependencies, which the eager skip needs |
| Shutdowns.KillDrains | lib/job_lib.py:1118-1136 | a kill in any reachable state skips every queued job, notes exactly the jobs under way as interrupted, and leaves the scheduler stopped and unpaused |
| Shutdowns.KillIsFinal | lib/job_lib.py:1118-1136 | nothing after a kill restarts or pauses the scheduler or changes the report |
| Shutdowns.ExitDrains | lib/job_lib.py:1002-1014 | a graceful exit skips every queued job, once |
| Shutdowns.CancelledIsSkipped | lib/job_lib.py:882-896 | a launch that a kill overtakes ends with the status skipped, listed as skipped, its lock free |
| FailureCount.FailuresAreCounted | lib/job_lib.py:905-1014 | over every run the error count is exactly the number of done jobs that ended unsuccessfully; a run exits early exactly if it was killed or exited gracefully, and it exits gracefully only at the quit count or after an incomplete shutdown |
| SchedulerSafety.NothingLaunchesAfterExit | lib/job_lib.py:1002-1014 | after a graceful exit or a shutdown no further job is launched |
| SchedulerSafety.LockOutlivesProcess | bin/simmer.py:641-667 | a directory lock is held as long as the job's process group may be alive, and no hook releases it before, even when a kill races completion |
| SchedulerSafety.LocksAreReturned | bin/simmer.py:1100-1125 | every lock is released on every terminal path except an incomplete shutdown |
| SchedulerSafety.PostRunOrCancel | lib/job_lib.py:785-797 | no job gets both post_run and the shutdown's cancel, and post_run is entered at most once |
| SchedulerSafety.WaitIsFinal | lib/job_lib.py:1026-1032 | once wait() can return nothing is queued again except by another thread: no finalizing job can still add a clone |
| ExclusiveLocks.OneExclusiveLock | lib/job_lib.py:854-862 | at most one exclusive job of a process holds its directory lock at any time |
| Confluence.RunIsEvaluation | lib/job_lib.py:807-852 | with fixed outcomes, every run that completes without exit, kill or incomplete shutdown gives each job the status of the recursive evaluation: skipped if a dependency ended unsuccessful, else its own outcome |
| Confluence.OrderIsIrrelevant | lib/job_lib.py:762-978 | two complete runs under any interleaving of adds, launches and completions end with the same statuses |
| Confluence.JustifiedAgrees | lib/job_lib.py:807-848 | both skip mechanisms refine the evaluation |
| Progress.SleepsOnlyWhenDone | lib/job_lib.py:764-773 | no lost wakeup and no deadlock: the scheduler sleeps unnotified only if the live queues are empty, it is paused, or a dependency was never added |
| Progress.NextIsEnabled | lib/job_lib.py:762-805 | wherever the scheduler thread is neither asleep nor returned, it has a next step |
| Progress.StepPotential | lib/job_lib.py:762-1000 | every scheduler step uses up a rank over the queues and the program point; only events from outside add to it |
| Progress.RunsAreBounded | lib/job_lib.py:762-1000 | the length of a run is bounded by its start and the number of outside events |
| Progress.WaitReturns | lib/job_lib.py:1026-1032 | wait() returns: runs with finitely many outside events are finite, and where they end the live queues are empty |
| Runners.SubprocessJobRunner.PausedDurationSince | lib/job_lib.py:489-499 | the loop adds the overlaps of all pause intervals with the timed span |
| Runners.SubprocessJobRunner.SendKill | lib/job_lib.py:464-472 | SIGKILL once, and the two deadlines after it |
| Runners.SubprocessJobRunner.OwnershipWaitExpired | lib/job_lib.py:474-487 | giving up on the process group at the ownership deadline |
| Runners.SubprocessJobRunner.CheckForDone | lib/job_lib.py:515-605 | a poll computes the timed transition of the runner; an unexpected exception in it is handled by SIGKILL and reaping |
| Runners.SubprocessJobRunner.Pause | lib/job_lib.py:619-631 | the request is refused exactly when done, timed out or exited |
| Runners.SubprocessJobRunner.Resume | lib/job_lib.py:633-644 | resume records the interval |
| Runners.SubprocessJobRunner.Kill | lib/job_lib.py:646-689 | kill closes an open pause, sends SIGTERM, then SIGKILL only if the groups did not leave in time, and returns whether the shell and all groups were reaped, which it records |
| Runners.SubprocessJobRunner.WaitForProcessGroupExit | lib/job_lib.py:447-450 | probes until the groups are gone or the deadline has passed; one last probe decides |
| RunnerLaws.KillOnceAfterGrace | lib/job_lib.py:464-605 | over every history SIGKILL is sent at most once, last, and at least TERM_GRACE after the latest SIGTERM |
| RunnerLaws.DoneInTime | lib/job_lib.py:547-605 | from the first SIGTERM the runner is done within the TERM graces (two only if an orphan also times out), KILL_GRACE and OWNERSHIP_GRACE, up to polling slack |
| RunnerLaws.DoneMeansGone | lib/job_lib.py:547-570 | done without shutdown_incomplete if and only if the shell had exited and no managed group existed when completion was decided |
| RunnerOutcomes.EscalationStarts | lib/job_lib.py:553-560 | after any history a poll that sees the shell gone and its group alive leaves SIGTERM sent, at once if nothing was sent before |
| RunnerOutcomes.OrphanIsEnded | lib/job_lib.py:547-570 | from the first poll that sees an orphaned group, prompt polls end the runner within the graces, whatever the group does |
| RunnerOutcomes.GivesUpLate | lib/job_lib.py:474-487 | a runner gives up no sooner than KILL_GRACE and OWNERSHIP_GRACE after SIGKILL, and only while something is left |
| RunnerOutcomes.DoneIsFinal | lib/job_lib.py:515-517 | a done runner signals and reports nothing more |
| RunnerOutcomes.PauseTakesEffect | lib/job_lib.py:619-631 | a pause takes effect exactly for a runner that is not done, was sent no signal and whose shell was not seen to exit over its whole history; the time counts from the first request |
| RunnerOutcomes.ExitIsRemembered | lib/job_lib.py:547-548 | an exit of the shell seen by a poll or a pause request is remembered |
| RunnerLaws.StartIsRecorded | lib/job_lib.py:582-592 | the recorded start of a job is what the first poll found that looked for it |
| RunnerLaws.RunAccounted | lib/job_lib.py:619-656 | recorded pause intervals stay disjoint and ordered |
| RunnerLaws.OverlapsMeasure | lib/job_lib.py:489-499 | subtracting the overlaps leaves the measure of the time outside all intervals, wherever the start falls |
| RunnerLaws.IntervalsAreHistory | lib/job_lib.py:619-644 | the intervals cover exactly the times at which the runner was paused |
| RunnerLaws.ElapsedIsWorking | lib/job_lib.py:578-594 | now minus start minus paused duration is the unpaused time since the start, over every history |
| RunnerLaws.TimeoutMeasuresWork | lib/job_lib.py:547-604 | a poll times a job out only if its unpaused time exceeds the limit, and wherever the limit is looked at exactly then, an orphaned group included |
| RunnerLaws.StopAccounted | lib/job_lib.py:646-656 | a shutdown closes an open pause, so the intervals stay ordered and still say what happened |
| RunnerLaws.HandledLaw | lib/job_lib.py:517-545 | after an unexpected exception the runner is done, its last signal is SIGKILL, and the shutdown is reported as incomplete exactly if the shell or a group was not seen to go |
| RunnerReports.PollReportsTruth | lib/job_lib.py:779-797 | after any history a poll reports done without incomplete shutdown exactly for a job whose process group is gone, so it is a step of the scheduler |
| RunnerReports.HandlerReportsTruth | lib/job_lib.py:515-545 | so is the report of a runner whose poll raised |
| CompileProtocol.TrustworthyIffSafe | bin/simmer.py:465-506 | whenever the lock is free and a fingerprint exists, the artifacts are the complete product of a successful compile of exactly those inputs, across all processes and crashes, if and only if the environment is safe |
| CompileProtocol.HitsAreSound | lib/compile_cache.py:307-315 | a reuse decision never bypasses a needed compile |
| CompileProtocol.BuiltOnceReusedEver | bin/simmer.py:482-506 | in a safe environment, from a publication on and over every run of processes that want the same inputs, crashes included, nothing is compiled again, whoever decided reuses, and fingerprint and artifacts stay |
| CompileProtocol.DecisionAfterAcquire | lib/compile_cache.py:307-315 | a process that takes the free lock reuses exactly if the artifacts are acceptable and the fingerprint is its own; else it compiles, unless it must not |
| CompileProtocol.OneInside | lib/compile_cache.py:20-52 | in every environment the lock keeps all other processes out of the directory |
| CompileProtocol.ChangedInputs | bin/simmer.py:623-641 | inputs edited during the compile are published under the earlier fingerprint |
| CompileProtocol.PartialRemoval | bin/simmer.py:425-428 | a removal that stops half-way can leave the fingerprint beside damaged artifacts |
| CompileProtocol.StrayCompile | bin/simmer.py:317-336 | a compile that survives its owner writes into a directory that another process has published |
| CompileJobs.CompileDirectoryLock.Acquire | lib/compile_cache.py:20-40 | a non-blocking attempt takes the lock exactly when it is free or already held |
| CompileJobs.CompileDirectoryLock.Release | lib/compile_cache.py:42-52 | release frees the lock if it was held |
| CompileJobs.VCompJob.PreRun | bin/simmer.py:373-513 | pre_run in program order is a legal run of the protocol, whether the --recompile removal is whole or stops half-way; it waits exactly if the lock is taken; undisturbed, it reuses whatever it may, leaving it as it is, and else clears the fingerprint or, under --no-compile, raises; a raise leaves the lock to the failure hook |
| CompileJobs.VCompJob.DecideReuse | bin/simmer.py:482-503 | with acceptable artifacts and the expected fingerprint the compile is reused exactly under automatic reuse, and --no-compile proceeds; without them automatic reuse compiles and --no-compile fails |
| CompileJobs.VCompJob.PostRun | bin/simmer.py:623-641 | post_run is a legal run of the protocol: it publishes only after a passed compile and always releases the lock |
| CompileJobs.VCompJob.LaunchFailed | bin/simmer.py:647-667 | the failure and cancel hooks release the lock and nothing else |
| LockOrder.NoDeadlock | lib/simulators/xcelium.py:351-360 | with any number of processes, each with the runtime locks that prepare_regression_runtime asks for, no reachable state has a circular wait |
| LockOrder.NoDeadlockIffUnambiguous | bin/simmer.py:288-295 | why vcomp names must be unique: for sorted scripts in general there is no circular wait if and only if no process locks a path for two of its jobs |
| LockOrder.CreateJobs | bin/simmer.py:288-295 | the jobs are created exactly if no two targets have the same base name; a repeated one ends the process |
| LockOrder.UniqueNamesGiveDistinctPaths | lib/simulators/xcelium.py:353-358 | unique names make the runfiles and coverage directories of different jobs distinct, each from the other kind too |
| LockOrder.PreparedIsUnambiguous | lib/simulators/xcelium.py:351-360 | so neither backend locks a path for two jobs |
| LockOrder.XceliumAsksFor | lib/simulators/xcelium.py:351-358 | every job's runfiles directory is asked for and, with coverage, its coverage directory |
| LockOrder.VcsAsksFor | lib/simulators/vcs.py:343-346 | every job's coverage directory is asked for |
| LockOrder.WaitsClimb | bin/simmer.py:338-357 | in every reachable state, along every wait between processes, the wanted locks climb: runtime locks in path order, all of them before compile locks |
| LockOrder.LockFiles.PrepareXcelium | lib/simulators/xcelium.py:351-360 | the calls are sorted by path, one per runfiles directory and, with coverage, one per coverage directory; acquisition stops only at a lock held by somebody else, and where it does not, every job holds its directories |
| LockOrder.LockFiles.PrepareVcs | lib/simulators/vcs.py:340-348 | the same for coverage directories only |
| LockOrder.LockFiles.AcquireInOrder | bin/simmer.py:338-357 | exactly the locks up to the first foreign one are taken; a lock that the same job holds is taken again at once |
| LockOrder.LockFiles.ClaimRunDirectory | bin/simmer.py:733-751 | takes the first free candidate directory without waiting, after at most as many attempts as there are locks |
| Vso.ApplyAskResults | lib/simulators/vso.py:122-150 | fails exactly on a malformed line or an unknown pair; otherwise every template gets its assignments in log order, its target matches, and the selected templates are those with any |
| Vso.TargetsSumToPlannedRuns | lib/simulators/vso.py:128-150 | the targets sum to planned_runs, also where two templates share a key |
| Vso.GivenAppends | lib/simulators/vso.py:122-150 | what a template is given by a log is what its parts give, in order |
| Vso.RecordGives | lib/simulators/vso.py:128-140 | a record gives its assignment to the last template with its key and to no other |
| Vso.SelectedHas | lib/simulators/vso.py:141-150 | a template is selected exactly if it was given something |
| Vso.TestJob.PrepareTest | lib/simulators/vso.py:152-163 | the first assignment is taken, with its run id and its seed; none left, or a non-integer seed after the pop, is an error |
| Vso.TestJob.SpawnNext | bin/simmer.py:1098-1099 | a clone is created exactly while the spawn count is within the target |
| Vso.ExactConsumption | lib/simulators/vso.py:152-163 | over every history at most `target` jobs are created, no job finds the list empty, and assignments are used first-in first-out and at most once; if all jobs reach the end of post_run all are used; all are used if and only if `target` jobs were created and each prepared its run |
| Chunking.ChunkArguments | lib/regression.py:677-692 | the chunks in order are the arguments, each fits the budget or is a single argument, and no other feasible split has fewer chunks |
| Chunking.TightIsOptimal | lib/regression.py:677-692 | any split whose chunks could not have taken one more argument is optimal |
| Chunking.CostIsLength | lib/regression.py:683-684 | the budget is about the length of the arguments joined with a separator after each |
| Filelist.ScanTokens | lib/compile_cache.py:184-216 | the token index loop collects nested filelists and named files |
| FilelistDirectives.ScanMeans | lib/compile_cache.py:184-216 | reading the tokens of any list of directives finds exactly the visits and the files that the directives say, one kind of directive at a time, +incdir+ lists with their non-empty pieces included |
| FilelistDirectives.EveryListIsRendered | lib/compile_cache.py:184-216 | every token list is such a list of directives |
| FilelistDirectives.ReadMeans | lib/compile_cache.py:165-182 | visiting a filelist finds itself and what its directives say; one that is no file says nothing, one with broken quoting only itself |
| Filelist.DiscoverFilelistInputs | lib/compile_cache.py:136-218 | the worklist terminates on cyclic includes, and the result lists what the search finds once each, in sorted order |
| Filelist.DiscoveryIsReachability | lib/compile_cache.py:165-216 | if every readable filelist is reached under one base, the search finds exactly the files that are named from the root, whichever pending visit it takes next |
| Filelist.OrderIsIrrelevant | lib/compile_cache.py:165-169 | so the order of the stack does not matter |
| FilelistBases.OneBaseIffExact | lib/compile_cache.py:165-216 | the condition is exact, for every visiting order: each readable filelist is reached under one base if and only if discovery is exact for every file system that differs by plain names in filelists and by further files |
| FilelistBases.JoiningLeavesFreshNames | lib/compile_cache.py:153-155 | resolving simple relative names by joining them to a base leaves the new names that the exact condition asks for |
| FilelistBases.TwoBasesMissAFile | lib/compile_cache.py:165-169 | a filelist reached under two bases can hide a named file from the stack |
| Intervals.ConsumeElapsedTime | lib/simmer_results.py:73-97 | every interval key is popped and the result, before rounding, is the measure of the union of the valid intervals; there is none without a valid interval |
| Intervals.ValidCovers | lib/simmer_results.py:76-85 | a time counts exactly if some interval that does not run backwards contains it |
| Intervals.NothingValid | lib/simmer_results.py:76-88 | there is something to sum up exactly if some interval does not run backwards |
| Intervals.RepositoryTimings | lib/bazel_profile.py:32-67 | one row for each repository with an event, in descending order: swept positioned time plus unpositioned time, and the event count |
| Intervals.OneEvent | lib/bazel_profile.py:45-50 | one event counts once, for its own repository only, with an interval from its start to its end, or else with its duration |
| Intervals.TotalsAppend | lib/bazel_profile.py:32-50 | the totals of event lists add up |
| Sorting.StringLeLaw | lib/bazel_profile.py:67 | strings compare by their first difference, a prefix first |
| Intervals.PositionedIsMeasure | lib/bazel_profile.py:53-65 | on any intervals the positioned total is the measure of the union and the negative lengths of the backward intervals that start later than everything sorted before them stops; so it is the measure if and only if there are none of these |
| Intervals.RowIsMeasure | lib/bazel_profile.py:48-65 | a row gives, in seconds, the measure of a repository's positioned events and the sum of the others, if its own events have positive durations |
| Intervals.SweepsAgree | lib/simmer_results.py:87-97 | on the same intervals, in any two orders, the sweep with a running end and the sweep with a current interval give the same total |
| Intervals.NormalIsUnique | lib/bazel_profile.py:53-65 | a set of covered points has one list of separate spans, so its measure is well defined |
| Intervals.NegativeDurationBreaksMeasure | lib/bazel_profile.py:48-65 | a repository whose only event has a negative duration gets a negative total |
| History.MergeStores | lib/simmer_results.py:356-380 | the position map overwrites in place, then stable order by timestamp and the bound; last_run is the last entry |
| History.CombinedLaw | lib/simmer_results.py:357-366 | each non-empty id occurs once, at its first position, standing for its last run, so the current store wins |
| History.CombinedFollows | lib/simmer_results.py:357-366 | the merged list has one entry for each run without an id, the run itself, and one for each id, in the order of first occurrence |
| History.OpenersLaw | lib/simmer_results.py:357-366 | the positions that open an entry are exactly the runs without an id and the first occurrences of an id |
| History.MergedLaw | lib/simmer_results.py:356-380 | the result has unique ids, each with its last version, timestamps in order, and at most max_runs entries |
| History.TiesKeepOrder | lib/simmer_results.py:367-375 | runs with equal timestamps, with ids or without, stay in the order of the merged list, which for ids is the order of their first occurrence |
| History.TruncationKeepsLatest | lib/simmer_results.py:375 | a run is dropped only if the result is full, and nothing that was kept is older |
| History.MergedIsLatest | lib/simmer_results.py:375 | the result and what was cut off are together the merged list; what was cut off is nowhere later, and something is cut off only if the result is full |
| RepeatedMerges.MergeIsIdempotentIff | lib/simmer_results.py:383-404 | merging the same legacy store into the result again changes nothing, for every bound, if and only if every legacy run has an id and whatever sorts after a legacy id's run also sorts after its legacy version |
| RepeatedMerges.SurvivorsAreIdempotent | lib/simmer_results.py:356-380 | one direction bound by bound: the second merge sorts into what was cut off before, followed by the result |
| RepeatedMerges.MergeIsIdempotent | lib/simmer_results.py:383-404 | so merging is idempotent, even after truncation, if legacy runs have ids and shared runs are no later in the legacy store |
| RepeatedMerges.RunsWithoutIdsAreRepeated | lib/simmer_results.py:360-366 | for every bound of at least two, and for none, a legacy run without an id is added again |
| RepeatedMerges.LaterLegacyStampsComeBack | lib/simmer_results.py:367-375 | for every positive bound a later legacy timestamp brings a truncated run back |
| Sorting.SortLaw | lib/simmer_results.py:367-375 | the sort that the code relies on is sorted, a permutation and stable |

## Left out

- Jobs.Job.AddDependency: takes the set of jobs and a numbering of the acyclic graph as ghost arguments; on a cyclic graph the source recurses without end.
- JobManagers.JobManager: the set of jobs and their edges are fixed when the manager is created. A clone is modelled as a job that exists before it is added; its edge to an already finished compile job is not.
- JobManagers.JobManager.InsortRight: is the bisection of Python's bisect module, written out; the module itself is not part of this model.
- JobManagers.JobManager.CanLaunch: the execution mode has the two values that the job classes return; the error for any other mode is not modelled.
- JobManagers.JobManager.LaunchCancelled: an error raised by cancel itself, which is only logged, is not modelled.
- JobManagers.JobManager.Kill: one kill per run; bounded joins with the kill threads and the scheduler thread are not modelled, and a terminated runner is a separate step with either result.
- SchedulerSafety.LockOutlivesProcess: covers the locks of compile and run directories; shared runtime locks are held by the process until its end and appear in LockOrder.dfy.
- Confluence.RunIsEvaluation: a job's outcome is the status its hooks leave, which may not depend on the interleaving.
- Progress.WaitReturns: fairness between exclusive and parallel jobs is not claimed; a blocked exclusive job may be overtaken by later parallel ones as long as such jobs exist.
- Runners.SubprocessJobRunner.CheckForDone: log messages and output streams are not modelled; whether a managed process group exists, and whether the waits of the exception handler reaped anything, are inputs. An exception strikes before or after the poll changed the runner, not in between.
- Runners.SubprocessJobRunner.Kill: whether the groups left in time and what the waits reaped are inputs, and the history theorems are about polls, pauses and resumes up to a kill or an exception, which both end the runner.
- Runners.SubprocessJobRunner.Pause: atomic with respect to a poll; a second pause between a launch's hand-over and its re-check is not modelled.
- CompileProtocol.TrustworthyIffSafe: a fingerprint is an injective tag of its inputs; tests that use the artifacts after the lock was released are not modelled.
- CompileJobs.VCompJob.PreRun: one attempt for the lock stands for each round of the waiting loop; templates, options and scripts are not modelled.
- LockOrder.NoDeadlock: paths are sequences of components, numbered in the order in which absolute paths sort; lock files are injective in the path. A runfiles directory is the one below the target's own package.
- Vso.ApplyAskResults: parsing a log line and a seed's text is an input; that a template without assignments has its test marked as skipped is not modelled.
- Filelist.DiscoverFilelistInputs: path expansion, the walk below a directory and shell-style tokenizing are inputs; an empty filelist path, which gives an empty list, is not modelled.
- Intervals.ConsumeElapsedTime: works on real numbers and leaves out the final rounding.
- Intervals.RepositoryTimings: the selection of events by their text is not modelled, and times are real numbers.
- History.MergeStores: timestamps are numbers in the order of the recorded strings; `save_run`, the store files and their locks are not modelled.
- The edges that `create_regression_jobs` adds are instances of AddDependency; the job classes for Bazel, ICO and VSO commands add no further scheduling behaviour.
- Processes, signals, `/proc`, sidecar registration, command-line and simulator options, templates, log parsing, reports, seed planning and CPU detection.
