/** Exclusive jobs hold their directory lock one at a time: a simmer process never waits for a second
    compile lock while it holds one. */
module ExclusiveLocks {
  import opened Jobs
  import opened SchedulerSpec
  import opened SchedulerLaws
  import opened QueueInvariant
  import opened SchedulerRuns
  import opened SchedulerSafety

  /** No job is being launched, and none will be. */
  predicate NoLaunch(s: State) {
    !Open(s.q) && s.q.launching == []
  }

  ghost predicate Lone(s: State) {
    && (forall j | j in s.world.incomplete :: j in s.q.done || j in s.lost ==> NoLaunch(s))
    && (forall j | j in s.killing :: j in s.q.done ==> NoLaunch(s))
    && (forall j, k | j in s.world.held && k in s.world.held :: j.exclusive && k.exclusive ==> j == k)
  }

  /** Once nothing launches, nothing ever launches again. */
  lemma NoLaunchStays(c: Config, s: State, l: Label)
    requires PcFits(c, s) && NoLaunch(s) && s.q.parked.todo == [] && s.q.parked.ready == [] && Enabled(c, s, l)
    ensures NoLaunch(Apply(c, s, l))
  {
    if l.OfLaunch() {
      NoLaunchByScheduler(c, s, l);
    } else if !l.OfOthers() {
      NoLaunchByEnds(c, s, l);
    }
  }

  lemma NoLaunchByScheduler(c: Config, s: State, l: Label)
    requires PcFits(c, s) && NoLaunch(s) && s.q.parked.todo == [] && s.q.parked.ready == [] && Enabled(c, s, l)
    requires l.OfLaunch()
    ensures NoLaunch(Apply(c, s, l))
  {
    if l.Cycle? && s.q.threadActive {
      assert Refilled(c, s.q).parked.ready == [];
    }
  }

  lemma NoLaunchByEnds(c: Config, s: State, l: Label)
    requires PcFits(c, s) && NoLaunch(s) && Enabled(c, s, l) && !l.OfOthers() && !l.OfLaunch()
    ensures NoLaunch(Apply(c, s, l))
  {
    match l
    case Finish(j, status) => CompleteFrame(c, s.q, j, status);
    case Record(j) => RecordFrame(c, s.q, j);
    case _ =>
  }

  lemma LockStep(c: Config, s: State, j: Job)
    requires Inv(c, s) && Lone(s) && Enabled(c, s, Lock(j))
    ensures Lone(Apply(c, s, Lock(j)))
  {
    forall k | k in s.world.held && k.exclusive && j.exclusive
      ensures k == j
    {
      LoneHolder(c, s, j, k);
    }
  }

  lemma LoneHolder(c: Config, s: State, j: Job, k: Job)
    requires Admissible(c.limits, s.q) && AliveFits(s) && HeldFits(s) && Lone(s)
    requires s.pc == Launching(j) && s.q.launching == [j] && k in s.world.held && k.exclusive && j.exclusive
    ensures k == j
  {
    assert Running(s.q)[|s.q.active|] == j;
    assert j in Running(s.q) && |Running(s.q)| == 1;
    assert s.q.active == [] && s.q.finalizing == [];
  }

  /** A step that leaves the lists of ended jobs and reports alone. */
  lemma QuietStep(c: Config, s: State, s': State)
    requires Lone(s) && (NoLaunch(s) ==> NoLaunch(s'))
    requires s'.world.incomplete <= s.world.incomplete && s'.killing <= s.killing && s'.world.held <= s.world.held
    requires s'.q.done == s.q.done && s'.lost == s.lost
    ensures Lone(s')
  {
  }

  /** A job that was under way and is not reported incomplete ends. */
  lemma EndedStep(c: Config, s: State, s': State, j: Job)
    requires Lone(s) && (NoLaunch(s) ==> NoLaunch(s')) && j !in s.world.incomplete && j !in s.killing
    requires s'.world.incomplete <= s.world.incomplete && s'.killing <= s.killing && s'.world.held <= s.world.held
    requires (s'.q.done == s.q.done + [j] && s'.lost == s.lost) || (s'.q.done == s.q.done && s'.lost == s.lost + [j])
    ensures Lone(s')
  {
  }

  lemma EndStep(c: Config, s: State, l: Label)
    requires Lone(s) && Apart(s) && PcFits(c, s) && ShutdownFits(s) && AliveFits(s) && Enabled(c, s, l)
    requires NoLaunch(s) ==> NoLaunch(Apply(c, s, l))
    requires l.LaunchFail? || l.Finish? || l.HandOver?
    ensures Lone(Apply(c, s, l))
  {
    if l.LaunchFail? {
      LaunchFailedFrame(c, s.q, l.job);
      EndedStep(c, s, Apply(c, s, l), l.job);
    } else if l.Finish? {
      CompleteFrame(c, s.q, l.job, l.status);
      EndedStep(c, s, Apply(c, s, l), l.job);
    } else if s.q.threadActive {
      QuietStep(c, s, Apply(c, s, l));
    } else {
      EndedStep(c, s, Apply(c, s, l), l.job);
    }
  }

  /** A report of an incomplete shutdown, or the end of the one that a kill may make. */
  lemma ReportStep(c: Config, s: State, l: Label)
    requires Lone(s) && Apart(s) && PcFits(c, s) && ShutdownFits(s) && Enabled(c, s, l)
    requires NoLaunch(s) ==> NoLaunch(Apply(c, s, l))
    requires l.Record? || l.Reap? || l.Terminate?
    ensures Lone(Apply(c, s, l))
  {
    if l.Record? {
      RecordFrame(c, s.q, l.job);
      assert NoLaunch(Apply(c, s, l));
    }
  }

  lemma KillStepLone(c: Config, s: State)
    requires Lone(s) && Apart(s) && Enabled(c, s, KillAll) && (NoLaunch(s) ==> NoLaunch(Apply(c, s, KillAll)))
    ensures Lone(Apply(c, s, KillAll))
  {
  }

  lemma OtherStep(c: Config, s: State, l: Label)
    requires Lone(s) && PcFits(c, s) && Enabled(c, s, l) && (NoLaunch(s) ==> NoLaunch(Apply(c, s, l)))
    requires !l.Lock? && !l.LaunchFail? && !l.Finish? && !l.HandOver? && !l.Record? && !l.Reap? && !l.Terminate? && !l.KillAll?
    ensures Lone(Apply(c, s, l))
  {
    QuietStep(c, s, Apply(c, s, l));
  }

  lemma StepLone(c: Config, s: State, l: Label)
    requires Inv(c, s) && Lone(s) && Enabled(c, s, l)
    ensures Lone(Apply(c, s, l))
  {
    if NoLaunch(s) {
      NoLaunchStays(c, s, l);
    }
    PlacesApart(c, s);
    if l.Lock? {
      LockStep(c, s, l.job);
    } else {
      StepLoneBut(c, s, l);
    }
  }

  lemma StepLoneBut(c: Config, s: State, l: Label)
    requires Lone(s) && Apart(s) && PcFits(c, s) && ShutdownFits(s) && AliveFits(s) && Enabled(c, s, l) && !l.Lock?
    requires NoLaunch(s) ==> NoLaunch(Apply(c, s, l))
    ensures Lone(Apply(c, s, l))
  {
    match l
    case LaunchFail(_) | Finish(_, _) | HandOver(_) => EndStep(c, s, l);
    case Record(_) | Reap(_, _) | Terminate(_, _) => ReportStep(c, s, l);
    case KillAll => KillStepLone(c, s);
    case _ => OtherStep(c, s, l);
  }

  lemma {:induction false} RunLone(c: Config, s: State, run: seq<Label>)
    requires Inv(c, s) && Lone(s) && Legal(c, s, run)
    ensures Lone(After(c, s, run))
    decreases |run|
  {
    if run != [] {
      var l := run[0];
      OutsideStep(c, s, l);
      QueueStep(c, s, l);
      StepLone(c, s, l);
      RunLone(c, Apply(c, s, l), run[1..]);
    }
  }

  /** At most one lock of an exclusive job is held at any time, over every run. */
  lemma OneExclusiveLock(c: Config, s: State, run: seq<Label>, j: Job, k: Job)
    requires c.Valid() && Initial(s) && Legal(c, s, run)
    requires j.exclusive && k.exclusive && j in After(c, s, run).world.held && k in After(c, s, run).world.held
    ensures j == k
  {
    InitialInv(c, s);
    RunLone(c, s, run);
  }
}
