/** What holds after every run of the scheduler, whatever the interleaving. */
module SchedulerSafety {
  import opened Jobs
  import opened SchedulerSpec
  import opened SchedulerLaws
  import opened QueueInvariant
  import opened SchedulerRuns

  /** Nothing can be launched, polled or moved on. */
  ghost predicate Quiet(c: Config, q: Queues) {
    && q.threadActive && q.active == []
    && (forall j | j in q.parked.todo :: !DependenciesCompleted(c.g, q.parked.status, j))
    && Choice(q, c.limits).None?
  }

  /** The queues show where the scheduler thread is. */
  ghost predicate PcFits(c: Config, s: State) {
    && s.q.launching == (if s.pc.Launching? || s.pc.Started? then [s.pc.job] else [])
    && s.q.finalizing == (if s.pc.PostRun? then [s.pc.job] else [])
    && (s.pc.Polling? ==> forall j | j in s.pc.rest :: j in s.q.active)
    && (s.pc.Seen? || s.pc.Unreaped? ==> s.pc.job in s.q.active)
    && (s.pc.Reaping? ==> s.pc.job in s.lost)
    && (s.pc == Idle(false) ==> Quiet(c, s.q))
    && (s.pc.Returned? ==> !s.q.threadActive)
  }

  /** What a shutdown leaves behind. */
  ghost predicate ShutdownFits(s: State) {
    && (s.killed ==> !s.q.threadActive)
    && (!s.q.threadActive && !s.killed ==> LiveEmpty(s.q))
    && (!s.killed ==> s.lost == [] && s.killing == {} && s.world.cancelled == {})
    && (forall j | j in s.lost :: j in s.q.interrupted)
    && (s.killed ==> forall j | j in s.q.launching :: j in s.q.interrupted)
    && (s.killed ==> forall j | j in s.q.active :: j in s.q.interrupted)
    && (s.killed ==> forall j | j in s.q.finalizing :: j in s.q.interrupted)
    && (forall j | j in s.killing :: j in s.q.active || j in s.q.done)
  }

  ghost predicate Locked(c: Config, s: State) {
    && s.world.held <= c.locking
    && s.world.alive * c.locking <= s.world.held
  }

  /** Whose process group may be alive. */
  ghost predicate AliveFits(s: State) {
    && (forall j | j in s.world.alive :: j in s.q.active || j in s.lost || j in s.world.incomplete || s.pc == Started(j))
    && (forall j | j in s.world.incomplete :: (s.killed && j in s.q.active) || j in s.lost || j in s.q.done)
    && (s.pc.Seen? ==> s.pc.job !in s.world.alive)
  }

  /** Who may hold a directory lock. */
  ghost predicate HeldFits(s: State) {
    forall j | j in s.world.held ::
      || j in s.world.incomplete || j in s.q.launching || j in s.q.finalizing || s.pc == Reaping(j)
      || (j in s.q.active && (s.killed ==> j in s.killing))
  }

  ghost predicate HooksFit(s: State) {
    && (forall j | j in s.world.hooked :: j in s.q.finalizing || j in s.q.done)
    && s.world.hooked !! s.killing && s.world.hooked !! s.world.cancelled
  }

  ghost predicate Inv(c: Config, s: State) {
    && QInv(c, s.q, s.lost, s.added) && PcFits(c, s) && ShutdownFits(s)
    && Locked(c, s) && AliveFits(s) && HeldFits(s) && HooksFit(s)
  }

  lemma InitialInv(c: Config, s: State)
    requires c.Valid() && Initial(s)
    ensures Inv(c, s)
  {
  }

  /** All of the invariant but the queues' own. */
  ghost predicate Outside(c: Config, s: State) {
    PcFits(c, s) && ShutdownFits(s) && Locked(c, s) && AliveFits(s) && HeldFits(s) && HooksFit(s)
  }

  // ----- What the blocks leave as it was -----

  lemma ExitFrame(q: Queues, limits: Limits)
    ensures var r := GracefulExit(q);
            r == q.(parked := r.parked, graceExit := r.graceExit, exitedPrematurely := r.exitedPrematurely)
    ensures var r := ExitedAtQuitCount(q, limits);
            r == q.(parked := r.parked, graceExit := r.graceExit, exitedPrematurely := r.exitedPrematurely)
  {
  }

  lemma LaunchFailedFrame(c: Config, q: Queues, j: Job)
    requires q.launching == [j]
    ensures var r := LaunchFailed(c.g, q, c.limits, j);
            r == q.(launching := [], done := q.done + [j], parked := r.parked, errorCount := r.errorCount,
                    graceExit := r.graceExit, exitedPrematurely := r.exitedPrematurely)
  {
    ExitFrame(LaunchFailureCounted(c.g, q, j), c.limits);
  }

  lemma FailureFrame(c: Config, q: Queues, j: Job)
    ensures var r := FailureCounted(c.g, q, c.limits, j);
            r == q.(parked := r.parked, errorCount := r.errorCount, graceExit := r.graceExit,
                    exitedPrematurely := r.exitedPrematurely)
  {
    ExitFrame(q.(errorCount := q.errorCount + 1), c.limits);
  }

  lemma CompleteFrame(c: Config, q: Queues, j: Job, status: JobStatus)
    requires q.finalizing == [j]
    ensures var r := Complete(c.g, Ended(q, j, status), c.limits, j);
            r == q.(finalizing := [], done := q.done + [j], parked := r.parked, errorCount := r.errorCount,
                    graceExit := r.graceExit, exitedPrematurely := r.exitedPrematurely)
  {
    FailureFrame(c, Ended(q, j, status), j);
  }

  lemma RecordFrame(c: Config, q: Queues, j: Job)
    requires j in q.active
    ensures var r := RecordIncomplete(c.g, q, j);
            r == q.(active := RemoveFirst(q.active, j), done := q.done + [j], parked := r.parked, errorCount := r.errorCount,
                    graceExit := r.graceExit, exitedPrematurely := r.exitedPrematurely,
                    shutdownIncomplete := r.shutdownIncomplete)
  {
    ExitFrame(IncompleteCounted(c.g, q, j), c.limits);
  }

  lemma CycledFrame(c: Config, q: Queues)
    requires q.launching == []
    ensures var r, choice := Cycled(c, q), Choice(Refilled(c, q), c.limits);
            r == q.(parked := r.parked, launching := if choice.Some? then [choice.value] else [])
    ensures Choice(Refilled(c, q), c.limits).None? ==> Cycled(c, q) == Refilled(c, q)
  {
  }

  /** The places of a job exclude each other. */
  ghost predicate Apart(s: State) {
    && (forall j | j in s.q.launching :: j !in s.q.active && j !in s.q.finalizing && j !in s.q.done && j !in s.lost)
    && (forall j | j in s.q.active :: j !in s.q.finalizing && j !in s.q.done && j !in s.lost)
    && (forall j | j in s.q.finalizing :: j !in s.q.done && j !in s.lost)
    && (forall j | j in s.q.done :: j !in s.lost)
    && Distinct(multiset(s.q.active))
  }

  lemma PlacesApart(c: Config, s: State)
    requires Conserved(s.q, s.lost, s.added)
    ensures Apart(s)
  {
    forall j | j in s.q.launching || j in s.q.active || j in s.q.finalizing || j in s.q.done
      ensures j in s.q.launching ==> j !in s.q.active && j !in s.q.finalizing && j !in s.q.done && j !in s.lost
      ensures j in s.q.active ==> j !in s.q.finalizing && j !in s.q.done && j !in s.lost
      ensures j in s.q.finalizing ==> j !in s.q.done && j !in s.lost
      ensures j in s.q.done ==> j !in s.lost
      ensures j in s.q.active ==> multiset(s.q.active)[j] == 1
    {
      Places(s.q, s.lost, s.added, j);
    }
  }

  lemma RemovedOnly(s: seq<Job>, j: Job)
    requires j in s && Distinct(multiset(s))
    ensures forall k :: k in RemoveFirst(s, j) <==> k in s && k != j
  {
    RemoveFirstCount(s, j);
    RemoveFirstMembers(s, j);
    assert multiset(s)[j] == 1;
    assert j !in multiset(RemoveFirst(s, j));
  }

  // ----- One lemma for each label -----

  lemma AddStep(c: Config, s: State, l: Label)
    requires Outside(c, s) && Enabled(c, s, l) && l.Add?
    ensures Outside(c, Apply(c, s, l))
  {
  }

  lemma PauseStep(c: Config, s: State, l: Label)
    requires Outside(c, s) && Enabled(c, s, l) && (l.Pause? || l.Resume?)
    ensures Outside(c, Apply(c, s, l))
  {
  }

  lemma StopStep(c: Config, s: State)
    requires Outside(c, s) && Enabled(c, s, Stop)
    ensures Outside(c, Apply(c, s, Stop))
  {
  }

  lemma KillStep(c: Config, s: State)
    requires Outside(c, s) && Enabled(c, s, KillAll)
    requires forall j | j in s.q.active :: j !in s.q.finalizing && j !in s.q.done
    ensures Outside(c, Apply(c, s, KillAll))
  {
    KillStops(c, s);
    KillLeavesWorld(c, s);
  }

  lemma KillStops(c: Config, s: State)
    requires PcFits(c, s) && ShutdownFits(s) && !s.killed
    ensures PcFits(c, Apply(c, s, KillAll)) && ShutdownFits(Apply(c, s, KillAll))
  {
  }

  lemma KillLeavesWorld(c: Config, s: State)
    requires Outside(c, s) && !s.killed
    requires forall j | j in s.q.active :: j !in s.q.finalizing && j !in s.q.done
    ensures var t := Apply(c, s, KillAll); Locked(c, t) && AliveFits(t) && HeldFits(t) && HooksFit(t)
  {
  }

  lemma TerminateStep(c: Config, s: State, l: Label)
    requires Outside(c, s) && Apart(s) && Enabled(c, s, l) && (l.Terminate? || l.Die?)
    ensures Outside(c, Apply(c, s, l))
  {
  }

  lemma CycleStep(c: Config, s: State)
    requires Outside(c, s) && Enabled(c, s, Cycle) && WellFormed(c.g) && Waiting(c.g, s.q.parked)
    ensures Outside(c, Apply(c, s, Cycle))
  {
    CycledFrame(c, s.q);
    MoveTodoToReadyLaw(c.g, s.q.parked);
  }

  lemma LaunchStep(c: Config, s: State, l: Label)
    requires Outside(c, s) && Apart(s) && Enabled(c, s, l) && (l.Lock? || l.Start?)
    ensures Outside(c, Apply(c, s, l))
  {
  }

  lemma CancelStep(c: Config, s: State, l: Label)
    requires Outside(c, s) && Apart(s) && Enabled(c, s, l) && l.LaunchCancel?
    ensures Outside(c, Apply(c, s, l))
  {
  }

  lemma LaunchFailStep(c: Config, s: State, l: Label)
    requires Outside(c, s) && Apart(s) && Enabled(c, s, l) && l.LaunchFail?
    ensures Outside(c, Apply(c, s, l))
  {
    LaunchFailedFrame(c, s.q, l.job);
  }

  lemma HandOverStep(c: Config, s: State, l: Label)
    requires Outside(c, s) && Apart(s) && Enabled(c, s, l) && l.HandOver?
    ensures Outside(c, Apply(c, s, l))
  {
    assert s.q.launching == [l.job];
  }

  lemma ReapStep(c: Config, s: State, l: Label)
    requires Outside(c, s) && Apart(s) && Enabled(c, s, l) && l.Reap?
    ensures Outside(c, Apply(c, s, l))
  {
  }

  lemma PollStep(c: Config, s: State, l: Label)
    requires Outside(c, s) && Enabled(c, s, l) && (l.PollAlive? || l.PollNothing?)
    ensures Outside(c, Apply(c, s, l))
  {
  }

  lemma PolledStep(c: Config, s: State, l: Label)
    requires Outside(c, s) && Enabled(c, s, l) && (l.PollDone? || l.PollIncomplete?)
    ensures Outside(c, Apply(c, s, l))
  {
  }

  lemma WakeStep(c: Config, s: State)
    requires Outside(c, s) && Enabled(c, s, Wake)
    ensures Outside(c, Apply(c, s, Wake))
  {
  }

  lemma ClaimStep(c: Config, s: State, l: Label)
    requires Outside(c, s) && Apart(s) && Enabled(c, s, l) && l.Claim?
    ensures Outside(c, Apply(c, s, l))
  {
    RemovedOnly(s.q.active, l.job);
    assert s.q.finalizing + [l.job] == [l.job];
  }

  lemma FinishStep(c: Config, s: State, l: Label)
    requires Outside(c, s) && Apart(s) && Enabled(c, s, l) && l.Finish?
    ensures Outside(c, Apply(c, s, l))
  {
    CompleteFrame(c, s.q, l.job, l.status);
  }

  lemma RecordStep(c: Config, s: State, l: Label)
    requires Outside(c, s) && Apart(s) && Enabled(c, s, l) && l.Record?
    ensures Outside(c, Apply(c, s, l))
  {
    RecordFrame(c, s.q, l.job);
    RemovedOnly(s.q.active, l.job);
  }

  lemma OutsideStep(c: Config, s: State, l: Label)
    requires Inv(c, s) && Enabled(c, s, l)
    ensures Outside(c, Apply(c, s, l))
  {
    PlacesApart(c, s);
    if l.OfOthers() {
      OutsideStepOfOthers(c, s, l);
    } else if l.OfLaunch() {
      OutsideStepOfLaunch(c, s, l);
    } else {
      OutsideStepOfPoll(c, s, l);
    }
  }

  lemma OutsideStepOfOthers(c: Config, s: State, l: Label)
    requires Outside(c, s) && Apart(s) && Enabled(c, s, l) && l.OfOthers()
    ensures Outside(c, Apply(c, s, l))
  {
    match l
    case Add(_, _) => AddStep(c, s, l);
    case Pause | Resume => PauseStep(c, s, l);
    case KillAll => KillStep(c, s);
    case Terminate(_, _) | Die(_) => TerminateStep(c, s, l);
    case Stop => StopStep(c, s);
  }

  lemma OutsideStepOfLaunch(c: Config, s: State, l: Label)
    requires Outside(c, s) && Apart(s) && Enabled(c, s, l) && l.OfLaunch() && WellFormed(c.g) && Waiting(c.g, s.q.parked)
    ensures Outside(c, Apply(c, s, l))
  {
    match l
    case Cycle => CycleStep(c, s);
    case Wake => WakeStep(c, s);
    case Lock(_) | Start(_) => LaunchStep(c, s, l);
    case LaunchCancel(_) => CancelStep(c, s, l);
    case LaunchFail(_) => LaunchFailStep(c, s, l);
    case HandOver(_) => HandOverStep(c, s, l);
    case Reap(_, _) => ReapStep(c, s, l);
  }

  lemma OutsideStepOfPoll(c: Config, s: State, l: Label)
    requires Outside(c, s) && Apart(s) && Enabled(c, s, l) && !l.OfOthers() && !l.OfLaunch()
    ensures Outside(c, Apply(c, s, l))
  {
    match l
    case PollAlive(_) | PollNothing => PollStep(c, s, l);
    case PollDone(_) | PollIncomplete(_) => PolledStep(c, s, l);
    case Claim(_) => ClaimStep(c, s, l);
    case Finish(_, _) => FinishStep(c, s, l);
    case Record(_) => RecordStep(c, s, l);
  }

  lemma QueueStep(c: Config, s: State, l: Label)
    requires QInv(c, s.q, s.lost, s.added) && PcFits(c, s) && ShutdownFits(s) && Enabled(c, s, l)
    ensures var r := Apply(c, s, l); QInv(c, r.q, r.lost, r.added)
  {
    if l.OfOthers() {
      QueueStepOfOthers(c, s, l);
    } else if l.OfLaunch() {
      QueueStepOfLaunch(c, s, l);
    } else {
      QueueStepOfPoll(c, s, l);
    }
  }

  lemma QueueStepOfOthers(c: Config, s: State, l: Label)
    requires QInv(c, s.q, s.lost, s.added) && PcFits(c, s) && ShutdownFits(s) && Enabled(c, s, l) && l.OfOthers()
    ensures var r := Apply(c, s, l); QInv(c, r.q, r.lost, r.added)
  {
    match l
    case Pause | Resume | Stop => QueueStepOfFlags(c, s, l);
    case Add(_, _) => QueueStepOfAdd(c, s, l);
    case KillAll => QueueStepOfKill(c, s);
    case Terminate(_, _) | Die(_) =>
  }

  lemma QueueStepOfAdd(c: Config, s: State, l: Label)
    requires QInv(c, s.q, s.lost, s.added) && Enabled(c, s, l) && l.Add?
    ensures var r := Apply(c, s, l); QInv(c, r.q, r.lost, r.added)
  {
    AddKeeps(c, s.q, s.lost, s.added, l.job);
  }

  lemma QueueStepOfKill(c: Config, s: State)
    requires QInv(c, s.q, s.lost, s.added) && !s.killed
    ensures var r := Apply(c, s, KillAll); QInv(c, r.q, r.lost, r.added)
  {
    KillKeeps(c, s.q, s.lost, s.added);
  }

  lemma QueueStepOfLaunch(c: Config, s: State, l: Label)
    requires QInv(c, s.q, s.lost, s.added) && PcFits(c, s) && ShutdownFits(s) && Enabled(c, s, l) && l.OfLaunch()
    ensures var r := Apply(c, s, l); QInv(c, r.q, r.lost, r.added)
  {
    match l
    case Cycle => if s.q.threadActive { CycleKeeps(c, s.q, s.lost, s.added); }
    case LaunchCancel(j) => CancelKeeps(c, s.q, s.lost, s.added, j);
    case LaunchFail(j) => LaunchFailedKeeps(c, s.q, s.lost, s.added, j);
    case HandOver(_) => QueueStepOfHandOver(c, s, l);
    case Reap(_, _) => QueueStepOfFlags(c, s, l);
    case Wake | Lock(_) | Start(_) =>
  }

  lemma QueueStepOfPoll(c: Config, s: State, l: Label)
    requires QInv(c, s.q, s.lost, s.added) && PcFits(c, s) && Enabled(c, s, l) && !l.OfOthers() && !l.OfLaunch()
    ensures var r := Apply(c, s, l); QInv(c, r.q, r.lost, r.added)
  {
    match l
    case Claim(j) => ClaimKeeps(c, s.q, s.lost, s.added, j);
    case Finish(j, status) => CompleteKeeps(c, s.q, s.lost, s.added, j, status);
    case Record(j) => RecordKeeps(c, s.q, s.lost, s.added, j);
    case PollAlive(_) | PollNothing | PollDone(_) | PollIncomplete(_) =>
  }

  lemma QueueStepOfFlags(c: Config, s: State, l: Label)
    requires QInv(c, s.q, s.lost, s.added) && Enabled(c, s, l) && (l.Pause? || l.Resume? || l.Stop? || l.Reap?)
    ensures var r := Apply(c, s, l); QInv(c, r.q, r.lost, r.added)
  {
    FlagsOnly(c, s, l);
    FlagsKeep(c, s.q, s.lost, s.added, Apply(c, s, l).q);
  }

  lemma FlagsOnly(c: Config, s: State, l: Label)
    requires Enabled(c, s, l) && (l.Pause? || l.Resume? || l.Stop? || l.Reap?)
    ensures var r := Apply(c, s, l);
            && FlagsChange(s.q, r.q) && r.lost == s.lost && r.added == s.added
  {
  }

  lemma QueueStepOfHandOver(c: Config, s: State, l: Label)
    requires QInv(c, s.q, s.lost, s.added) && PcFits(c, s) && Enabled(c, s, l) && l.HandOver?
    ensures var r := Apply(c, s, l); QInv(c, r.q, r.lost, r.added)
  {
    LaunchedKeeps(c, s.q, s.lost, s.added, l.job);
  }

  predicate FlagsChange(q: Queues, q': Queues) {
    && q' == q.(paused := q'.paused, threadActive := q'.threadActive, shutdownIncomplete := q'.shutdownIncomplete)
    && (q'.threadActive == q.threadActive || (!q'.threadActive && LiveEmpty(q)))
  }

  /** The flags that change without a locked block on the queues; nothing is queued when the thread is stopped. */
  lemma FlagsKeep(c: Config, q: Queues, lost: seq<Job>, added: set<Job>, q': Queues)
    requires QInv(c, q, lost, added)
    requires FlagsChange(q, q')
    ensures QInv(c, q', lost, added)
  {
    assert Running(q') == Running(q);
  }

  /** The invariant holds after every run. */
  lemma {:induction false} RunInv(c: Config, s: State, run: seq<Label>)
    requires Inv(c, s) && Legal(c, s, run)
    ensures Inv(c, After(c, s, run))
    decreases |run|
  {
    if run != [] {
      OutsideStep(c, s, run[0]);
      QueueStep(c, s, run[0]);
      RunInv(c, Apply(c, s, run[0]), run[1..]);
    }
  }

  lemma ReachedInv(c: Config, s: State, run: seq<Label>)
    requires c.Valid() && Initial(s) && Legal(c, s, run)
    ensures Inv(c, After(c, s, run))
  {
    InitialInv(c, s);
    RunInv(c, s, run);
  }

  // ----- The theorems over whole runs -----

  /** Conservation. In every reachable state an added job is in exactly one queue, exactly once. The one
      exception is a job whose launch finished after a kill: it is in no queue, but it is reported. */
  lemma Conservation(c: Config, s: State, run: seq<Label>, j: Job)
    requires c.Valid() && Initial(s) && Legal(c, s, run)
    ensures var t := After(c, s, run);
            && AllJobs(t.q)[j] == (if j in t.added && j !in t.lost then 1 else 0)
            && (j in t.lost ==> j in t.added && t.killed && j in InterruptedJobs(t.q))
  {
    ReachedInv(c, s, run);
    var t := After(c, s, run);
    ExactlyOneQueue(t.q, t.lost, t.added, j);
    Places(t.q, t.lost, t.added, j);
  }

  /** After a kill every job is accounted for: it is done, skipped, or reported as interrupted; and the
      report names no job that completed. */
  lemma KillForgetsNothing(c: Config, s: State, run: seq<Label>, j: Job)
    requires c.Valid() && Initial(s) && Legal(c, s, run) && After(c, s, run).killed
    requires j in After(c, s, run).added
    ensures var q := After(c, s, run).q;
            && (j in q.done || j in q.parked.skipped || j in InterruptedJobs(q))
            && !(j in q.done && j in InterruptedJobs(q))
  {
    ReachedInv(c, s, run);
    var t := After(c, s, run);
    Places(t.q, t.lost, t.added, j);
  }

  /** Admission and failures. Never more jobs than the limit are under way, an exclusive job is alone,
      and the failures stay below the quit count plus the limit. */
  lemma AdmissionAndFailures(c: Config, s: State, run: seq<Label>)
    requires c.Valid() && Initial(s) && Legal(c, s, run)
    ensures var q := After(c, s, run).q;
            && |q.launching| + |q.active| + |q.finalizing| <= c.limits.jobs
            && (forall j | j in Running(q) && j.exclusive :: Running(q) == [j])
            && q.errorCount <= c.limits.quit + c.limits.jobs - 1
            && (!q.graceExit ==> q.errorCount < c.limits.quit)
  {
    ReachedInv(c, s, run);
    AdmittedNow(c.limits, After(c, s, run).q);
  }

  lemma AdmittedNow(limits: Limits, q: Queues)
    requires Admissible(limits, q) && FailuresBounded(limits, q) && limits.jobs >= 1
    ensures |q.launching| + |q.active| + |q.finalizing| <= limits.jobs
    ensures forall j | j in Running(q) && j.exclusive :: Running(q) == [j]
    ensures q.errorCount <= limits.quit + limits.jobs - 1
  {
    forall j | j in Running(q) && j.exclusive
      ensures Running(q) == [j]
    {
      assert |Running(q)| == 1;
    }
  }

  /** After a graceful exit or a shutdown nothing waits, so nothing is launched any more. */
  lemma NothingLaunchesAfterExit(c: Config, s: State, run: seq<Label>, l: Label)
    requires c.Valid() && Initial(s) && Legal(c, s, run) && Enabled(c, After(c, s, run), l)
    requires !Open(After(c, s, run).q)
    ensures !Apply(c, After(c, s, run), l).pc.Launching? || After(c, s, run).pc.Launching?
  {
    ReachedInv(c, s, run);
    ClosedStep(c, After(c, s, run), l);
  }

  lemma ClosedStep(c: Config, s: State, l: Label)
    requires s.q.parked.todo == [] && s.q.parked.ready == [] && Enabled(c, s, l)
    ensures !Apply(c, s, l).pc.Launching? || s.pc.Launching?
  {
    if l.Cycle? && s.q.threadActive {
      assert Refilled(c, s.q).parked.ready == [];
    }
  }

  /** Resource safety. A directory lock is held as long as the process group may be alive, and no step
      releases one while it is. */
  lemma LockOutlivesProcess(c: Config, s: State, run: seq<Label>, l: Label, j: Job)
    requires c.Valid() && Initial(s) && Legal(c, s, run) && Enabled(c, After(c, s, run), l)
    requires j in c.locking
    ensures var t := After(c, s, run);
            && (j in t.world.alive ==> j in t.world.held)
            && (j in t.world.held && j !in Apply(c, t, l).world.held ==> j !in Apply(c, t, l).world.alive)
  {
    ReachedInv(c, s, run);
    OutsideStep(c, After(c, s, run), l);
  }

  /** Every lock is given back: when wait() returns, or when the scheduler and a kill have both ended,
      only jobs whose process group was reported as not reaped still hold one. */
  lemma LocksAreReturned(c: Config, s: State, run: seq<Label>)
    requires c.Valid() && Initial(s) && Legal(c, s, run)
    requires var t := After(c, s, run);
             (!t.killed && LiveEmpty(t.q)) || (t.killed && t.killing == {} && t.pc == Returned)
    ensures After(c, s, run).world.held <= After(c, s, run).world.incomplete
  {
    ReachedInv(c, s, run);
  }

  /** No job gets both post_run and the shutdown cancel, and post_run is entered at most once. */
  lemma PostRunOrCancel(c: Config, s: State, run: seq<Label>, l: Label)
    requires c.Valid() && Initial(s) && Legal(c, s, run) && Enabled(c, After(c, s, run), l)
    ensures var t := After(c, s, run); var u := Apply(c, t, l);
            && t.world.hooked !! t.world.cancelled
            && (u.pc.PostRun? && !t.pc.PostRun? ==> u.pc.job !in t.world.hooked && u.pc.job !in t.world.cancelled)
  {
    ReachedInv(c, s, run);
    var t := After(c, s, run);
    PlacesApart(c, t);
    FirstPostRun(c, t, l);
  }

  lemma FirstPostRun(c: Config, s: State, l: Label)
    requires HooksFit(s) && Apart(s) && ShutdownFits(s) && Enabled(c, s, l)
    ensures var r := Apply(c, s, l);
            r.pc.PostRun? && !s.pc.PostRun? ==> r.pc.job !in s.world.hooked && r.pc.job !in s.world.cancelled
  {
    if l.Claim? {
      ClaimedIsNew(s, l.job);
    } else {
      OnlyClaimEntersPostRun(c, s, l);
    }
  }

  lemma ClaimedIsNew(s: State, j: Job)
    requires HooksFit(s) && Apart(s)
    ensures j in s.q.active ==> j !in s.world.hooked
  {
  }

  lemma OnlyClaimEntersPostRun(c: Config, s: State, l: Label)
    requires Enabled(c, s, l) && !l.Claim?
    ensures Apply(c, s, l).pc.PostRun? ==> s.pc.PostRun?
  {
  }

  /** What wait() waits for is final: while a hook may still add a job some queue is not empty, so once all
      live queues are empty they stay empty until another thread adds a job. */
  lemma {:induction false} WaitIsFinal(c: Config, s: State, run: seq<Label>)
    requires Inv(c, s) && LiveEmpty(s.q) && Legal(c, s, run)
    requires forall l | l in run :: l.Add? ==> l.byHook
    ensures LiveEmpty(After(c, s, run).q)
    decreases |run|
  {
    if run != [] {
      var l := run[0];
      OutsideStep(c, s, l);
      QueueStep(c, s, l);
      StaysEmpty(c, s, l);
      WaitIsFinal(c, Apply(c, s, l), run[1..]);
    }
  }

  lemma StaysEmpty(c: Config, s: State, l: Label)
    requires PcFits(c, s) && LiveEmpty(s.q) && Enabled(c, s, l) && (l.Add? ==> l.byHook)
    ensures LiveEmpty(Apply(c, s, l).q)
  {
    if l.KillAll? {
      assert s.q.parked.Drained().todo == [];
    }
  }
}
