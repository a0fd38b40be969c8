/** The error count is exact: it is the number of jobs that ended unsuccessfully; and an exit has a reason. */
module FailureCount {
  import opened Jobs
  import opened SchedulerSpec
  import opened SchedulerLaws
  import opened QueueInvariant
  import opened SchedulerRuns
  import opened SchedulerSafety
  import opened Confluence

  function Unsuccessfuls(status: map<Job, JobStatus>, done: seq<Job>): nat {
    if done == [] then 0
    else Unsuccessfuls(status, done[..|done| - 1]) + if StatusIn(status, done[|done| - 1]).Successful() then 0 else 1
  }

  /** The count, and why a run may have exited early. */
  ghost predicate Counted(c: Config, s: State) {
    && s.q.errorCount == Unsuccessfuls(s.q.parked.status, s.q.done)
    && (s.q.exitedPrematurely <==> s.q.graceExit || s.killed)
    && (s.q.graceExit ==> s.q.errorCount >= c.limits.quit || s.q.shutdownIncomplete)
  }

  lemma ChangesCompose(s: map<Job, JobStatus>, t: map<Job, JobStatus>, u: map<Job, JobStatus>)
    requires OnlyPendingChange(s, t) && OnlyPendingChange(t, u)
    ensures OnlyPendingChange(s, u)
  {
  }

  /** Jobs that are done keep their statuses. */
  lemma {:induction false} CountStays(s: map<Job, JobStatus>, t: map<Job, JobStatus>, done: seq<Job>)
    requires forall j | j in done :: StatusIn(t, j).Successful() == StatusIn(s, j).Successful()
    ensures Unsuccessfuls(t, done) == Unsuccessfuls(s, done)
  {
    if done != [] {
      CountStays(s, t, done[..|done| - 1]);
      assert done[|done| - 1] in done;
    }
  }

  /** Filing one more job. */
  lemma CountGrows(s: map<Job, JobStatus>, t: map<Job, JobStatus>, done: seq<Job>, j: Job)
    requires OnlyPendingChange(s, t) && forall k | k in done :: StatusIn(s, k).Completed()
    ensures Unsuccessfuls(t, done + [j]) == Unsuccessfuls(s, done) + if StatusIn(t, j).Successful() then 0 else 1
  {
    forall k | k in done
      ensures StatusIn(t, k) == StatusIn(s, k)
    {
      CompletedStays(s, t, k);
    }
    CountStays(s, t, done);
    assert (done + [j])[..|done|] == done;
  }

  // ----- How the blocks change statuses -----

  lemma ExitChange(g: Graph, q: Queues, limits: Limits)
    requires Waiting(g, q.parked)
    ensures OnlyPendingChange(q.parked.status, GracefulExit(q).parked.status) && Waiting(g, GracefulExit(q).parked)
    ensures OnlyPendingChange(q.parked.status, ExitedAtQuitCount(q, limits).parked.status)
         && Waiting(g, ExitedAtQuitCount(q, limits).parked)
  {
    DrainedStep(g, q.parked);
  }

  lemma BelowChange(g: Graph, q: Queues, j: Job)
    requires WellFormed(g) && Waiting(g, q.parked) && Unsuccessful(q.parked.status, j)
    ensures OnlyPendingChange(q.parked.status, SkippedBelow(g, q, j).parked.status) && Waiting(g, SkippedBelow(g, q, j).parked)
  {
    SkipChildrenLaw(g, q.parked, j, g.Children(j));
    JustifiedIsPendingChange(g, q.parked.status, SkippedBelow(g, q, j).parked.status);
  }

  lemma MoveChange(g: Graph, p: Parked)
    requires WellFormed(g) && Waiting(g, p)
    ensures OnlyPendingChange(p.status, MoveTodoToReady(g, p).status)
  {
    MoveTodoToReadyLaw(g, p);
    JustifiedIsPendingChange(g, p.status, MoveTodoToReady(g, p).status);
  }

  lemma CompleteChange(c: Config, q: Queues, j: Job)
    requires c.Valid() && Waiting(c.g, q.parked) && j in q.finalizing && q.parked.Status(j).Completed()
    ensures OnlyPendingChange(q.parked.status, Complete(c.g, q, c.limits, j).parked.status)
  {
    if q.parked.Status(j).Successful() {
      MoveChange(c.g, q.parked);
    } else {
      FailureChange(c, q, j);
      MoveChange(c.g, FailureCounted(c.g, q, c.limits, j).parked);
      ChangesCompose(q.parked.status, FailureCounted(c.g, q, c.limits, j).parked.status,
        Complete(c.g, q, c.limits, j).parked.status);
    }
  }

  lemma FailureChange(c: Config, q: Queues, j: Job)
    requires c.Valid() && Waiting(c.g, q.parked) && Unsuccessful(q.parked.status, j)
    ensures var r := FailureCounted(c.g, q, c.limits, j);
            OnlyPendingChange(q.parked.status, r.parked.status) && Waiting(c.g, r.parked)
  {
    var counted := q.(errorCount := q.errorCount + 1);
    ExitChange(c.g, counted, c.limits);
    var exited := ExitedAtQuitCount(counted, c.limits);
    CompletedStays(q.parked.status, exited.parked.status, j);
    BelowChange(c.g, exited, j);
    ChangesCompose(q.parked.status, exited.parked.status, SkippedBelow(c.g, exited, j).parked.status);
  }

  /** The status changes that come with a job that ends as failed outside post_run. */
  lemma FailedChange(c: Config, q: Queues, j: Job)
    requires c.Valid() && Waiting(c.g, q.parked) && q.parked.Status(j) == Failed
    ensures var below := SkippedBelow(c.g, q, j);
            && OnlyPendingChange(q.parked.status, ExitedAtQuitCount(below, c.limits).parked.status)
            && OnlyPendingChange(q.parked.status, GracefulExit(below).parked.status)
  {
    var below := SkippedBelow(c.g, q, j);
    BelowChange(c.g, q, j);
    ExitChange(c.g, below, c.limits);
    ChangesCompose(q.parked.status, below.parked.status, ExitedAtQuitCount(below, c.limits).parked.status);
    ChangesCompose(q.parked.status, below.parked.status, GracefulExit(below).parked.status);
  }

  lemma LaunchFailedChange(c: Config, s: State, j: Job)
    requires QInv(c, s.q, s.lost, s.added) && j in s.q.launching
    ensures var r := LaunchFailed(c.g, s.q, c.limits, j);
            OnlyPendingChange(s.q.parked.status, r.parked.status) && r.parked.Status(j) == Failed
  {
    LaunchFailing(c, s.q, s.lost, s.added, j);
    var retired := LaunchRetired(s.q, j);
    FailedChange(c, retired, j);
    LaunchFailedIs(c, s.q, j);
    var r := LaunchFailed(c.g, s.q, c.limits, j);
    CompletedStays(retired.parked.status, r.parked.status, j);
    assert j in Running(s.q);
    ChangesCompose(s.q.parked.status, retired.parked.status, r.parked.status);
  }

  lemma RecordChange(c: Config, s: State, j: Job)
    requires QInv(c, s.q, s.lost, s.added) && j in s.q.active
    ensures var r := RecordIncomplete(c.g, s.q, j);
            OnlyPendingChange(s.q.parked.status, r.parked.status) && r.parked.Status(j) == Failed
  {
    assert j in Running(s.q);
    var retired := ActiveRetired(s.q, j);
    BecomesFailing(c, s.q, s.lost, s.added, j, retired);
    FailedChange(c, retired, j);
    RecordIs(c, s.q, j);
    var r := RecordIncomplete(c.g, s.q, j);
    CompletedStays(retired.parked.status, r.parked.status, j);
    ChangesCompose(s.q.parked.status, retired.parked.status, r.parked.status);
  }

  lemma FinishChange(c: Config, s: State, j: Job, status: JobStatus)
    requires QInv(c, s.q, s.lost, s.added) && j in s.q.finalizing && HookOutcome(s.q.parked.Status(j), status)
    ensures var r := Complete(c.g, Ended(s.q, j, status), c.limits, j);
            OnlyPendingChange(s.q.parked.status, r.parked.status) && r.parked.Status(j) == status
  {
    assert j in Running(s.q);
    EndedWaiting(c, s.q, s.lost, s.added, j, status);
    var ended := Ended(s.q, j, status);
    CompleteChange(c, ended, j);
    var r := Complete(c.g, ended, c.limits, j);
    CompletedStays(ended.parked.status, r.parked.status, j);
    ChangesCompose(s.q.parked.status, ended.parked.status, r.parked.status);
  }

  // ----- Every step -----

  /** A step that files no job: neither the count nor the done jobs change. */
  lemma OtherCount(c: Config, s: State, s': State)
    requires Counted(c, s) && s'.q.errorCount == s.q.errorCount && s'.q.done == s.q.done
    requires OnlyPendingChange(s.q.parked.status, s'.q.parked.status) && forall j | j in s.q.done :: s.q.parked.Status(j).Completed()
    requires s'.q.graceExit == s.q.graceExit && (s.q.shutdownIncomplete ==> s'.q.shutdownIncomplete)
    requires s'.q.exitedPrematurely == (s.q.exitedPrematurely || s'.killed) && (s.killed ==> s'.killed)
    ensures Counted(c, s')
  {
    forall j | j in s.q.done
      ensures s'.q.parked.Status(j) == s.q.parked.Status(j)
    {
      CompletedStays(s.q.parked.status, s'.q.parked.status, j);
    }
    CountStays(s.q.parked.status, s'.q.parked.status, s.q.done);
  }

  /** A step that files one job as done. */
  lemma FiledCount(c: Config, s: State, s': State, j: Job)
    requires Counted(c, s) && s'.q.done == s.q.done + [j] && s'.killed == s.killed
    requires OnlyPendingChange(s.q.parked.status, s'.q.parked.status) && forall k | k in s.q.done :: s.q.parked.Status(k).Completed()
    requires s'.q.errorCount == s.q.errorCount + if s'.q.parked.Status(j).Successful() then 0 else 1
    requires s'.q.graceExit == s.q.graceExit ==> s'.q.exitedPrematurely == s.q.exitedPrematurely
    requires s'.q.graceExit != s.q.graceExit ==> s'.q.graceExit && s'.q.exitedPrematurely
    requires s'.q.graceExit && !s.q.graceExit ==> s'.q.errorCount >= c.limits.quit || s'.q.shutdownIncomplete
    requires s.q.shutdownIncomplete ==> s'.q.shutdownIncomplete
    ensures Counted(c, s')
  {
    CountGrows(s.q.parked.status, s'.q.parked.status, s.q.done, j);
  }

  /** The count and the flags after a block that ends a job. */
  ghost predicate FlagsFollow(c: Config, q: Queues, r: Queues, failures: nat) {
    && r.errorCount == q.errorCount + failures
    && (q.graceExit ==> r.graceExit) && (q.shutdownIncomplete ==> r.shutdownIncomplete)
    && (r.graceExit && !q.graceExit ==> r.errorCount >= c.limits.quit || r.shutdownIncomplete)
    && r.exitedPrematurely == (q.exitedPrematurely || (r.graceExit && !q.graceExit))
  }

  lemma LaunchFailedFlags(c: Config, q: Queues, j: Job)
    requires j in q.launching
    ensures FlagsFollow(c, q, LaunchFailed(c.g, q, c.limits, j), 1)
  {
  }

  lemma CompleteFlags(c: Config, q: Queues, j: Job)
    requires j in q.finalizing
    ensures FlagsFollow(c, q, Complete(c.g, q, c.limits, j), if q.parked.Status(j).Successful() then 0 else 1)
  {
  }

  lemma RecordFlags(c: Config, q: Queues, j: Job)
    requires j in q.active
    ensures FlagsFollow(c, q, RecordIncomplete(c.g, q, j), 1)
  {
  }

  lemma LaunchFailCount(c: Config, s: State, l: Label)
    requires QInv(c, s.q, s.lost, s.added) && PcFits(c, s) && Counted(c, s) && Enabled(c, s, l) && l.LaunchFail?
    ensures Counted(c, Apply(c, s, l))
  {
    LaunchFailedFrame(c, s.q, l.job);
    LaunchFailedFlags(c, s.q, l.job);
    LaunchFailedChange(c, s, l.job);
    FiledCount(c, s, Apply(c, s, l), l.job);
  }

  lemma FinishCounts(c: Config, s: State, l: Label)
    requires QInv(c, s.q, s.lost, s.added) && PcFits(c, s) && Counted(c, s) && Enabled(c, s, l) && l.Finish?
    ensures Counted(c, Apply(c, s, l))
  {
    CompleteFrame(c, s.q, l.job, l.status);
    CompleteFlags(c, Ended(s.q, l.job, l.status), l.job);
    FinishChange(c, s, l.job, l.status);
    FiledCount(c, s, Apply(c, s, l), l.job);
  }

  lemma RecordCount(c: Config, s: State, l: Label)
    requires QInv(c, s.q, s.lost, s.added) && PcFits(c, s) && Counted(c, s) && Enabled(c, s, l) && l.Record?
    ensures Counted(c, Apply(c, s, l))
  {
    RecordFrame(c, s.q, l.job);
    RecordFlags(c, s.q, l.job);
    RecordChange(c, s, l.job);
    FiledCount(c, s, Apply(c, s, l), l.job);
  }

  lemma CycleCount(c: Config, s: State)
    requires QInv(c, s.q, s.lost, s.added) && PcFits(c, s) && Counted(c, s) && Enabled(c, s, Cycle)
    ensures Counted(c, Apply(c, s, Cycle))
  {
    MoveChange(c.g, s.q.parked);
    CycledFrame(c, s.q);
    OtherCount(c, s, Apply(c, s, Cycle));
  }

  lemma KillChange(g: Graph, q: Queues)
    requires Waiting(g, q.parked)
    ensures OnlyPendingChange(q.parked.status, Kill(q).parked.status)
  {
    DrainedStep(g, q.parked);
  }

  lemma KillCount(c: Config, s: State)
    requires Waiting(c.g, s.q.parked) && Counted(c, s) && Enabled(c, s, KillAll)
    requires forall j | j in s.q.done :: s.q.parked.Status(j).Completed()
    ensures Counted(c, Apply(c, s, KillAll))
  {
    KillChange(c.g, s.q);
    OtherCount(c, s, Apply(c, s, KillAll));
  }

  lemma CancelCount(c: Config, s: State, l: Label)
    requires QInv(c, s.q, s.lost, s.added) && PcFits(c, s) && Counted(c, s) && Enabled(c, s, l) && l.LaunchCancel?
    ensures Counted(c, Apply(c, s, l))
  {
    assert l.job in Running(s.q);
    SkipOneStep(s.q.parked, l.job);
    OtherCount(c, s, Apply(c, s, l));
  }

  lemma OthersCount(c: Config, s: State, l: Label)
    requires Counted(c, s) && Enabled(c, s, l) && l.OfOthers() && !l.KillAll?
    ensures Counted(c, Apply(c, s, l))
  {
  }

  lemma MovesCount(c: Config, s: State, l: Label)
    requires Counted(c, s) && Enabled(c, s, l) && (l.Wake? || l.Lock? || l.Start? || l.HandOver? || l.Reap?)
    ensures Counted(c, Apply(c, s, l))
  {
  }

  lemma PollsCount(c: Config, s: State, l: Label)
    requires Counted(c, s) && Enabled(c, s, l) && !l.OfOthers() && !l.OfLaunch() && !l.Finish? && !l.Record? && !l.Claim?
    ensures Counted(c, Apply(c, s, l))
  {
  }

  lemma ClaimCounts(c: Config, s: State, l: Label)
    requires Counted(c, s) && Enabled(c, s, l) && l.Claim?
    ensures Counted(c, Apply(c, s, l))
  {
  }

  lemma LaunchCounts(c: Config, s: State, l: Label)
    requires QInv(c, s.q, s.lost, s.added) && PcFits(c, s) && Counted(c, s) && Enabled(c, s, l) && l.OfLaunch()
    ensures Counted(c, Apply(c, s, l))
  {
    match l
    case Cycle => CycleCount(c, s);
    case LaunchFail(_) => LaunchFailCount(c, s, l);
    case LaunchCancel(_) => CancelCount(c, s, l);
    case _ => MovesCount(c, s, l);
  }

  lemma EndCounts(c: Config, s: State, l: Label)
    requires QInv(c, s.q, s.lost, s.added) && PcFits(c, s) && Counted(c, s) && Enabled(c, s, l)
    requires !l.OfOthers() && !l.OfLaunch()
    ensures Counted(c, Apply(c, s, l))
  {
    if l.Finish? {
      FinishCounts(c, s, l);
    } else if l.Record? {
      RecordCount(c, s, l);
    } else if l.Claim? {
      ClaimCounts(c, s, l);
    } else {
      PollsCount(c, s, l);
    }
  }

  lemma StepCounts(c: Config, s: State, l: Label)
    requires QInv(c, s.q, s.lost, s.added) && PcFits(c, s) && Counted(c, s) && Enabled(c, s, l)
    ensures Counted(c, Apply(c, s, l))
  {
    if l.KillAll? {
      KillCount(c, s);
    } else if l.OfOthers() {
      OthersCount(c, s, l);
    } else if l.OfLaunch() {
      LaunchCounts(c, s, l);
    } else {
      EndCounts(c, s, l);
    }
  }

  lemma {:induction false} RunCounts(c: Config, s: State, run: seq<Label>)
    requires Inv(c, s) && Counted(c, s) && Legal(c, s, run)
    ensures Counted(c, After(c, s, run))
    decreases |run|
  {
    if run != [] {
      var l := run[0];
      OutsideStep(c, s, l);
      QueueStep(c, s, l);
      StepCounts(c, s, l);
      RunCounts(c, Apply(c, s, l), run[1..]);
    }
  }

  /** Over every run the error count is the number of done jobs that ended unsuccessfully. A run exits early
      exactly if it was killed or exited gracefully, and it exits gracefully only if that number reached the
      quit count or a process group could not be reaped. */
  lemma FailuresAreCounted(c: Config, s: State, run: seq<Label>)
    requires c.Valid() && Initial(s) && Legal(c, s, run)
    ensures var t := After(c, s, run);
            && t.q.errorCount == Unsuccessfuls(t.q.parked.status, t.q.done)
            && (t.q.exitedPrematurely <==> t.q.graceExit || t.killed)
            && (t.q.graceExit ==> t.q.errorCount >= c.limits.quit || t.q.shutdownIncomplete)
            && (!t.q.graceExit ==> t.q.errorCount < c.limits.quit)
  {
    InitialInv(c, s);
    RunInv(c, s, run);
    RunCounts(c, s, run);
  }
}
