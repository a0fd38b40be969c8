/** What a kill, a graceful exit and a cancelled launch leave behind, spelled out apart from the functions that
    do it. */
module Shutdowns {
  import opened Jobs
  import opened SchedulerSpec
  import opened SchedulerLaws
  import opened QueueInvariant
  import opened SchedulerRuns
  import opened SchedulerSafety

  /** Everything that was queued is skipped. */
  ghost predicate Drains(p: Parked, r: Parked) {
    && r.todo == [] && r.ready == []
    && (forall j | j in p.todo :: j in r.skipped && r.Status(j) == Skipped)
    && (forall j | j in p.ready :: j in r.skipped && r.Status(j) == Skipped)
    && multiset(r.skipped) == multiset(p.todo) + multiset(p.ready) + multiset(p.skipped)
  }

  lemma DrainedDrains(g: Graph, p: Parked)
    requires Waiting(g, p)
    ensures Drains(p, p.Drained())
  {
    DrainedStep(g, p);
    var r := p.Drained();
    SkipAllLists(p, p.todo + p.ready);
    assert r.skipped == p.skipped + p.todo + p.ready;
  }

  lemma {:induction false} SkipAllLists(p: Parked, jobs: seq<Job>)
    ensures p.SkipAll(jobs).skipped == p.skipped
    decreases |jobs|
  {
    if jobs != [] {
      SkipAllLists(p.SkipUnfinished(jobs[0]), jobs[1..]);
    }
  }

  /** A graceful exit drains the queues, once. */
  lemma ExitDrains(c: Config, q: Queues, lost: seq<Job>, added: set<Job>)
    requires QInv(c, q, lost, added)
    ensures var r := GracefulExit(q);
            && r.graceExit && Drains(q.parked, r.parked)
            && (q.graceExit ==> r == q) && (!q.graceExit ==> r.exitedPrematurely)
  {
    DrainedDrains(c.g, q.parked);
    if q.graceExit {
      assert q.parked.todo == [] && q.parked.ready == [];
    }
  }

  /** Every queued job is skipped, the jobs under way and no others are noted as interrupted, the active ones are to
      be terminated, and the scheduler is neither running nor paused. */
  ghost predicate Killed(s: State, t: State) {
    && Drains(s.q.parked, t.q.parked)
    && t.killed && t.q.exitedPrematurely && !t.q.threadActive && !t.q.paused
    && t.q.interrupted == s.q.launching + s.q.active + s.q.finalizing
    && (forall j | j in s.q.active :: j in t.killing) && (forall j | j in t.killing :: j in s.q.active)
  }

  /** What a kill does, whatever happened before. */
  lemma KillDrains(c: Config, start: State, run: seq<Label>)
    requires c.Valid() && Initial(start) && Legal(c, start, run) && !After(c, start, run).killed
    ensures Killed(After(c, start, run), Apply(c, After(c, start, run), KillAll))
  {
    ReachedInv(c, start, run);
    KillNow(c, After(c, start, run));
  }

  lemma KillNow(c: Config, s: State)
    requires Waiting(c.g, s.q.parked) && !s.killed
    ensures Killed(s, Apply(c, s, KillAll))
  {
    KillOfQueues(c.g, s.q);
  }

  lemma KillOfQueues(g: Graph, q: Queues)
    requires Waiting(g, q.parked)
    ensures var r := Kill(q);
            && Drains(q.parked, r.parked) && r.exitedPrematurely && !r.threadActive && !r.paused
            && r.interrupted == q.launching + q.active + q.finalizing
  {
    DrainedDrains(g, q.parked);
  }

  /** After a kill the scheduler stays stopped and unpaused, and the report is not touched again. */
  lemma {:induction false} KillIsFinal(c: Config, s: State, run: seq<Label>)
    requires s.killed && !s.q.threadActive && !s.q.paused && s.q.exitedPrematurely && Legal(c, s, run)
    ensures var t := After(c, s, run);
            && t.killed && !t.q.threadActive && !t.q.paused && t.q.exitedPrematurely && t.q.interrupted == s.q.interrupted
    decreases |run|
  {
    if run != [] {
      KilledStep(c, s, run[0]);
      KillIsFinal(c, Apply(c, s, run[0]), run[1..]);
    }
  }

  lemma KilledStep(c: Config, s: State, l: Label)
    requires s.killed && !s.q.threadActive && !s.q.paused && s.q.exitedPrematurely && Enabled(c, s, l)
    ensures var t := Apply(c, s, l);
            && t.killed && !t.q.threadActive && !t.q.paused && t.q.exitedPrematurely && t.q.interrupted == s.q.interrupted
  {
    match l
    case LaunchFail(j) => FlagsOfFailure(c, s.q, j);
    case Finish(j, status) => FlagsOfEnd(c, Ended(s.q, j, status), j);
    case Record(j) => FlagsOfRecord(c, s.q, j);
    case _ =>
  }

  /** What the ends of jobs leave alone. */
  ghost predicate SameShutdown(q: Queues, r: Queues) {
    && r.threadActive == q.threadActive && r.paused == q.paused && r.interrupted == q.interrupted
    && (q.exitedPrematurely ==> r.exitedPrematurely)
  }

  lemma FlagsOfFailure(c: Config, q: Queues, j: Job)
    requires j in q.launching
    ensures SameShutdown(q, LaunchFailed(c.g, q, c.limits, j))
  {
  }

  lemma FlagsOfEnd(c: Config, q: Queues, j: Job)
    requires j in q.finalizing
    ensures SameShutdown(q, Complete(c.g, q, c.limits, j))
  {
  }

  lemma FlagsOfRecord(c: Config, q: Queues, j: Job)
    ensures SameShutdown(q, RecordIncomplete(c.g, q, j))
  {
  }

  /** The job leaves launching, is listed once more as skipped, its status says so, and its lock is free. */
  ghost predicate Cancelled(s: State, t: State, j: Job) {
    && t.q.launching == [] && t.q.parked.skipped == s.q.parked.skipped + [j] && t.q.parked.Status(j) == Skipped
    && j !in t.world.held
  }

  /** What becomes of a launch that a kill overtakes. */
  lemma CancelledIsSkipped(c: Config, start: State, run: seq<Label>, j: Job)
    requires c.Valid() && Initial(start) && Legal(c, start, run) && Enabled(c, After(c, start, run), LaunchCancel(j))
    ensures Cancelled(After(c, start, run), Apply(c, After(c, start, run), LaunchCancel(j)), j)
  {
    ReachedInv(c, start, run);
    var s := After(c, start, run);
    assert s.q.launching == [j];
    assert j in Running(s.q);
    CancelNow(c, s, j);
  }

  lemma CancelNow(c: Config, s: State, j: Job)
    requires s.q.launching == [j] && s.q.parked.Status(j).Pending() && Enabled(c, s, LaunchCancel(j))
    ensures Cancelled(s, Apply(c, s, LaunchCancel(j)), j)
  {
  }
}
