/** Why wait() returns: the scheduler thread is never stuck while a live queue holds a job, and every one
    of its steps is paid for by a job moving on, by another thread or by a process that is still alive. */
module Progress {
  import opened Jobs
  import opened SchedulerSpec
  import opened SchedulerLaws
  import opened QueueInvariant
  import opened SchedulerRuns
  import opened SchedulerSafety

  // ----- Never stuck -----

  /** A label that the scheduler thread can take next, unless it sleeps or has returned. */
  function NextLabel(c: Config, s: State): (l: Label) {
    match s.pc
    case Top => Cycle
    case Idle(_) => Wake
    case Launching(j) => if j in c.locking && j !in s.world.held then Lock(j) else Start(j)
    case Started(j) => HandOver(j)
    case Reaping(j) => Reap(j, true)
    case Polling(rest) =>
      if rest == [] then PollNothing else if rest[0] in s.world.alive then PollAlive(rest[0]) else PollDone(rest[0])
    case Seen(j) => Claim(j)
    case Unreaped(j) => Record(j)
    case PostRun(j) => Finish(j, Failed)
    case Returned => Cycle
  }

  lemma NextIsEnabled(c: Config, s: State)
    requires PcFits(c, s) && s.pc != Idle(false) && s.pc != Returned
    ensures Enabled(c, s, NextLabel(c, s))
  {
  }

  /** Every dependency of a waiting job has been added. */
  ghost predicate DependenciesAdded(c: Config, s: State) {
    forall j | j in s.q.parked.todo :: forall d | d in c.g.Deps(j) :: d in s.added
  }

  /** The first job of todo has no dependency in todo. */
  lemma {:induction false} FirstIsFree(g: Graph, todo: seq<Job>, j: Job)
    requires WellFormed(g) && Sorted(g, todo) && todo != [] && j == todo[0]
    ensures forall d | d in g.Deps(j) :: d !in todo
  {
    forall d | d in g.Deps(j)
      ensures d !in todo
    {
      assert j in g.deps && g.Priority(d) < g.Priority(j);
    }
  }

  /** No lost wakeup and no deadlock: the scheduler thread sleeps unnotified only when the live queues are
      empty, the manager is paused, or a job waits for a dependency that nobody added. */
  lemma SleepsOnlyWhenDone(c: Config, s: State)
    requires Inv(c, s) && s.pc == Idle(false) && !s.q.paused && DependenciesAdded(c, s)
    ensures LiveEmpty(s.q)
  {
    var q := s.q;
    assert q.active + q.launching == [];
    if q.parked.ready != [] {
      assert CanLaunch(q, c.limits, q.parked.ready[0]);
    } else if q.parked.todo != [] {
      var j := q.parked.todo[0];
      FirstIsFree(c.g, q.parked.todo, j);
      SettledDependencies(c, s, j);
      assert false;
    }
  }

  lemma SettledDependencies(c: Config, s: State, j: Job)
    requires QInv(c, s.q, s.lost, s.added) && s.lost == [] && Running(s.q) == [] && s.q.parked.ready == []
    requires Open(s.q) && forall d | d in c.g.Deps(j) :: d in s.added && d !in s.q.parked.todo
    ensures DependenciesCompleted(c.g, s.q.parked.status, j)
  {
    forall d | d in c.g.Deps(j)
      ensures s.q.parked.Status(d).Completed()
    {
      Places(s.q, s.lost, s.added, d);
      assert d !in s.q.launching && d !in s.q.active && d !in s.q.finalizing by {
        assert d !in Running(s.q);
      }
      assert d in s.q.done || d in s.q.parked.skipped;
    }
  }

  // ----- Never busy for nothing -----

  /** How many moves the jobs of a queue still have ahead of them. */
  function ParkedRank(p: Parked): nat {
    5 * |p.todo| + 4 * |p.ready|
  }

  function Rank(q: Queues): nat {
    ParkedRank(q.parked) + 3 * |q.launching| + 2 * |q.active| + |q.finalizing|
  }

  function PcRank(s: State): nat {
    match s.pc
    case Launching(j) => if j in s.world.held then 6 else 7
    case Started(_) => 5
    case Reaping(_) => 4
    case Top => 3
    case Polling(rest) => if rest == [] then 4 else 2
    case Seen(_) | Unreaped(_) => 1
    case Idle(woken) => if woken then 4 else 0
    case PostRun(_) | Returned => 0
  }

  function Potential(s: State): nat {
    10 * Rank(s.q) + PcRank(s)
  }

  /** What happens to the scheduler thread from outside: other threads, the processes, and a poll that
      finds its process group still alive. */
  predicate FromOutside(l: Label) {
    l.Add? || l.Pause? || l.Resume? || l.KillAll? || l.Terminate? || l.Stop? || l.Die? || l.PollAlive?
  }

  function OutsideEvents(run: seq<Label>): nat {
    if run == [] then 0 else (if FromOutside(run[0]) then 1 else 0) + OutsideEvents(run[1..])
  }

  lemma {:induction false} PassRank(g: Graph, p: Parked, pending: seq<Job>, kept: seq<Job>)
    ensures ParkedRank(Pass(g, p, pending, kept)) <= ParkedRank(p.(todo := kept + pending))
    decreases |pending|
  {
    if pending != [] {
      var j, rest := pending[0], pending[1..];
      if DependenciesCompleted(g, p.status, j) {
        PassRank(g, Advance(g, p, j), rest, kept);
      } else {
        PassRank(g, p, rest, kept + [j]);
      }
    }
  }

  lemma RefilledRank(c: Config, q: Queues)
    ensures Rank(Refilled(c, q)) <= Rank(q)
  {
    PassRank(c.g, q.parked, q.parked.todo, []);
    assert [] + q.parked.todo == q.parked.todo;
  }

  lemma ExitRank(q: Queues, limits: Limits)
    ensures ParkedRank(GracefulExit(q).parked) <= ParkedRank(q.parked)
    ensures ParkedRank(ExitedAtQuitCount(q, limits).parked) <= ParkedRank(q.parked)
  {
  }

  lemma CompleteRank(c: Config, q: Queues, j: Job, status: JobStatus)
    requires q.finalizing == [j]
    ensures Rank(Complete(c.g, Ended(q, j, status), c.limits, j)) < Rank(q)
  {
    var ended := Ended(q, j, status);
    var counted := if ended.parked.Status(j).Successful() then ended else FailureCounted(c.g, ended, c.limits, j);
    ExitRank(ended.(errorCount := q.errorCount + 1), c.limits);
    PassRank(c.g, counted.parked, counted.parked.todo, []);
    assert [] + counted.parked.todo == counted.parked.todo;
    CompleteFrame(c, q, j, status);
  }

  lemma LaunchFailedRank(c: Config, q: Queues, j: Job)
    requires q.launching == [j]
    ensures Rank(LaunchFailed(c.g, q, c.limits, j)) < Rank(q)
  {
    ExitRank(LaunchFailureCounted(c.g, q, j), c.limits);
    LaunchFailedFrame(c, q, j);
  }

  lemma RecordRank(c: Config, q: Queues, j: Job)
    requires j in q.active
    ensures Rank(RecordIncomplete(c.g, q, j)) < Rank(q)
  {
    ExitRank(IncompleteCounted(c.g, q, j), c.limits);
    RecordFrame(c, q, j);
  }

  lemma CycledRank(c: Config, s: State)
    requires PcFits(c, s) && s.pc == Top && s.q.threadActive
    ensures Potential(Apply(c, s, Cycle)) < Potential(s)
  {
    RefilledRank(c, s.q);
    CycledFrame(c, s.q);
  }

  /** A step of the scheduler thread uses up potential, an event from outside adds at most a constant. */
  lemma StepPotential(c: Config, s: State, l: Label)
    requires PcFits(c, s) && ShutdownFits(s) && Enabled(c, s, l)
    ensures Potential(Apply(c, s, l)) + 1 <= Potential(s) + if FromOutside(l) then 60 else 0
  {
    match l
    case Cycle => if s.q.threadActive { CycledRank(c, s); }
    case LaunchFail(j) => LaunchFailedRank(c, s.q, j);
    case Finish(j, status) => CompleteRank(c, s.q, j, status);
    case Record(j) => RecordRank(c, s.q, j);
    case HandOver(_) | LaunchCancel(_) | Claim(_) => QueueMovePotential(c, s, l);
    case Add(_, _) | KillAll => QueueEventPotential(c, s, l);
    case _ => PcMovePotential(c, s, l);
  }

  lemma QueueMovePotential(c: Config, s: State, l: Label)
    requires PcFits(c, s) && Enabled(c, s, l) && (l.HandOver? || l.LaunchCancel? || l.Claim?)
    ensures Potential(Apply(c, s, l)) < Potential(s)
  {
  }

  lemma QueueEventPotential(c: Config, s: State, l: Label)
    requires Enabled(c, s, l) && (l.Add? || l.KillAll?)
    ensures Potential(Apply(c, s, l)) < Potential(s) + 60
  {
  }

  lemma PcMovePotential(c: Config, s: State, l: Label)
    requires Enabled(c, s, l) && !l.Cycle? && !l.LaunchFail? && !l.Finish? && !l.Record?
    requires !l.HandOver? && !l.LaunchCancel? && !l.Claim? && !l.Add? && !l.KillAll?
    ensures Potential(Apply(c, s, l)) + 1 <= Potential(s) + if FromOutside(l) then 60 else 0
  {
    assert Rank(Apply(c, s, l).q) == Rank(s.q);
  }

  /** Termination: the length of any run is bounded by its start and by what happens from outside. So a
      run with finitely many outside events is finite, and it can only end asleep or returned. */
  lemma {:induction false} RunsAreBounded(c: Config, s: State, run: seq<Label>)
    requires Inv(c, s) && Legal(c, s, run)
    ensures |run| + Potential(After(c, s, run)) <= Potential(s) + 60 * OutsideEvents(run)
    decreases |run|
  {
    if run != [] {
      OutsideStep(c, s, run[0]);
      QueueStep(c, s, run[0]);
      StepPotential(c, s, run[0]);
      RunsAreBounded(c, Apply(c, s, run[0]), run[1..]);
    }
  }

  /** Why wait() returns. A run is no longer than 60 steps for each outside event and a few more. Where it
      ends the scheduler thread has a next step, or it has returned after a stop, or it sleeps; and it
      sleeps, with the manager not paused and all dependencies added, only if the live queues are empty. */
  lemma WaitReturns(c: Config, s: State, run: seq<Label>)
    requires c.Valid() && Initial(s) && Legal(c, s, run)
    ensures |run| <= 3 + 60 * OutsideEvents(run)
    ensures var t := After(c, s, run);
            || Enabled(c, t, NextLabel(c, t))
            || !t.q.threadActive
            || (t.pc == Idle(false) && (!t.q.paused && DependenciesAdded(c, t) ==> LiveEmpty(t.q)))
  {
    InitialInv(c, s);
    RunsAreBounded(c, s, run);
    RunInv(c, s, run);
    EndOfRun(c, After(c, s, run));
  }

  lemma EndOfRun(c: Config, t: State)
    requires Inv(c, t)
    ensures || Enabled(c, t, NextLabel(c, t))
            || !t.q.threadActive
            || (t.pc == Idle(false) && (!t.q.paused && DependenciesAdded(c, t) ==> LiveEmpty(t.q)))
  {
    if t.pc == Idle(false) {
      if !t.q.paused && DependenciesAdded(c, t) {
        SleepsOnlyWhenDone(c, t);
      }
    } else if t.pc != Returned {
      NextIsEnabled(c, t);
    }
  }
}
