/** A failure reaches everything that depends on it at once: as long as nobody adds a job below a failed one, no
    job ever waits for a dependency that failed or was skipped. */
module EagerSkips {
  import opened Jobs
  import opened SchedulerSpec
  import opened SchedulerLaws
  import opened QueueInvariant
  import opened SchedulerRuns
  import opened SchedulerSafety
  import opened Confluence

  /** Every job is listed among the dependents of each of its dependencies. */
  ghost predicate ListsDependents(g: Graph) {
    forall j | j in g.deps :: forall d | d in g.deps[j] :: j in g.Children(d)
  }

  /** So is the graph that add_dependency builds. */
  lemma BuiltGraphListsDependents(deps: map<Job, seq<Job>>, children: map<Job, seq<Job>>, prio: map<Job, int>, rank: map<Job, nat>)
    requires Acyclic(deps, rank) && Mirrored(deps, children)
    ensures ListsDependents(Graph(deps, children, prio))
  {
    var g := Graph(deps, children, prio);
    forall j | j in g.deps
      ensures forall d | d in g.deps[j] :: j in g.Children(d)
    {
      forall d | d in g.deps[j]
        ensures j in g.Children(d)
      {
        DependencyChild(deps, children, rank, j, d);
      }
    }
  }

  /** No job waits below one that failed or was skipped. */
  ghost predicate Eager(g: Graph, p: Parked) {
    forall j | j in p.todo :: forall d | d in g.Deps(j) :: p.Status(d) !in {Failed, Skipped}
  }

  ghost predicate EagerBut(g: Graph, p: Parked, parent: Job) {
    forall j | j in p.todo :: forall d | d in g.Deps(j) :: d == parent || p.Status(d) !in {Failed, Skipped}
  }

  /** Whatever the eager recursion skips takes its own dependents out of todo. */
  lemma {:induction false} SkipsReachBelow(g: Graph, p: Parked, parent: Job, kids: seq<Job>, j: Job, k: Job)
    requires WellFormed(g) && Waiting(g, p) && Unsuccessful(p.status, parent)
    requires forall kid | kid in kids :: parent in g.Deps(kid)
    requires p.Status(j) != Skipped && SkipChildren(g, p, kids).Status(j) == Skipped && k in g.Children(j)
    ensures k !in SkipChildren(g, p, kids).todo
    decreases |p.todo|, |kids|
  {
    SkipUnfolds(g, p, kids);
    var child := kids[0];
    if child !in p.todo {
      SkipsReachBelow(g, p, parent, kids[1..], j, k);
    } else {
      MovedLaw(g, p, parent, child);
      var moved := Moved(p, child);
      var below := SkipChildren(g, moved, g.Children(child));
      SkipChildrenLaw(g, moved, child, g.Children(child));
      SkipsKeep(g, moved.status, below.status, parent);
      SkipChildrenLaw(g, below, parent, kids[1..]);
      if below.Status(j) != Skipped {
        SkipsReachBelow(g, below, parent, kids[1..], j, k);
      } else if j != child {
        SkipsReachBelow(g, moved, child, g.Children(child), j, k);
      }
    }
  }

  lemma SkipsMakeEager(g: Graph, p: Parked, parent: Job)
    requires WellFormed(g) && ListsDependents(g) && Waiting(g, p) && p.Status(parent) == Failed && EagerBut(g, p, parent)
    ensures Eager(g, SkipChildren(g, p, g.Children(parent)))
  {
    var r := SkipChildren(g, p, g.Children(parent));
    SkipChildrenLaw(g, p, parent, g.Children(parent));
    forall j | j in r.todo
      ensures forall d | d in g.Deps(j) :: r.Status(d) !in {Failed, Skipped}
    {
      forall d | d in g.Deps(j)
        ensures r.Status(d) !in {Failed, Skipped}
      {
        SkipsKeep(g, p.status, r.status, d);
        assert j in g.Children(d);
        if p.Status(d) != Skipped && r.Status(d) == Skipped {
          SkipsReachBelow(g, p, parent, g.Children(parent), d, j);
        }
      }
    }
  }

  /** Where no job waits below a failed one, the pass over todo skips nothing. */
  lemma {:induction false} PassSkipsNothing(g: Graph, p: Parked, j: Job)
    requires WellFormed(g) && Waiting(g, p) && Eager(g, p)
    ensures MoveTodoToReady(g, p).Status(j) == p.Status(j)
    decreases Below(g, j), if j in g.deps then 1 else 0
  {
    var r := MoveTodoToReady(g, p);
    MoveTodoToReadyLaw(g, p);
    MoveTodoStep(g, p);
    if r.Status(j) != p.Status(j) {
      var d :| d in g.Deps(j) && Unsuccessful(r.status, d);
      BelowShrinks(g, j, d);
      PassSkipsNothing(g, p, d);
      NoFailureAbove(g, p, j, d);
    }
  }

  lemma NoFailureAbove(g: Graph, p: Parked, j: Job, d: Job)
    requires Waiting(g, p) && Eager(g, p) && (j in p.todo || j in p.ready) && d in g.Deps(j)
    ensures !Unsuccessful(p.status, d)
  {
    if j in p.ready {
      assert StatusIn(p.status, d).Successful();
    }
  }

  lemma PassKeepsEager(g: Graph, p: Parked)
    requires WellFormed(g) && Waiting(g, p) && Eager(g, p)
    ensures Eager(g, MoveTodoToReady(g, p))
  {
    MoveTodoToReadyLaw(g, p);
    forall j | j in MoveTodoToReady(g, p).todo
      ensures forall d | d in g.Deps(j) :: MoveTodoToReady(g, p).Status(d) !in {Failed, Skipped}
    {
      forall d | d in g.Deps(j)
        ensures MoveTodoToReady(g, p).Status(d) !in {Failed, Skipped}
      {
        PassSkipsNothing(g, p, d);
      }
    }
  }

  // ----- The steps -----

  /** A job that is added has no dependency that failed or was skipped before. */
  ghost predicate AddsFresh(c: Config, s: State, l: Label) {
    l.Add? ==> forall d | d in c.g.Deps(l.job) :: s.q.parked.Status(d) !in {Failed, Skipped}
  }

  lemma AddEager(c: Config, s: State, l: Label)
    requires Eager(c.g, s.q.parked) && Enabled(c, s, l) && l.Add? && AddsFresh(c, s, l)
    ensures Eager(c.g, Apply(c, s, l).q.parked)
  {
    InsertMembers(c.g, s.q.parked.todo, l.job);
  }

  lemma CycleEager(c: Config, s: State)
    requires WellFormed(c.g) && Waiting(c.g, s.q.parked) && Eager(c.g, s.q.parked) && s.pc == Top
    ensures Eager(c.g, Apply(c, s, Cycle).q.parked)
  {
    PassKeepsEager(c.g, s.q.parked);
    CycledParts(c, s.q);
  }

  lemma CycledParts(c: Config, q: Queues)
    ensures Cycled(c, q).parked.todo == MoveTodoToReady(c.g, q.parked).todo
    ensures Cycled(c, q).parked.status == MoveTodoToReady(c.g, q.parked).status
  {
  }

  lemma FailedEager(c: Config, q: Queues, lost: seq<Job>, added: set<Job>, j: Job, p: Parked)
    requires QInv(c, q, lost, added) && ListsDependents(c.g) && Eager(c.g, q.parked) && j in Running(q)
    requires p == q.parked.(status := q.parked.status[j := Failed]) && Waiting(c.g, p)
    ensures Eager(c.g, SkipChildren(c.g, p, c.g.Children(j)))
  {
    forall k | k in p.todo
      ensures forall d | d in c.g.Deps(k) :: d == j || p.Status(d) !in {Failed, Skipped}
    {
      assert k in q.parked.todo;
    }
    SkipsMakeEager(c.g, p, j);
  }

  lemma LaunchFailEager(c: Config, s: State, j: Job)
    requires QInv(c, s.q, s.lost, s.added) && ListsDependents(c.g) && Eager(c.g, s.q.parked) && j in s.q.launching
    requires Open(LaunchFailed(c.g, s.q, c.limits, j))
    ensures Eager(c.g, LaunchFailed(c.g, s.q, c.limits, j).parked)
  {
    assert j in Running(s.q);
    FailedWaiting(c, s.q, s.lost, s.added, j);
    FailedEager(c, s.q, s.lost, s.added, j, s.q.parked.Assign(j, Failed));
  }

  lemma FinishEager(c: Config, s: State, j: Job, status: JobStatus)
    requires QInv(c, s.q, s.lost, s.added) && ListsDependents(c.g) && Eager(c.g, s.q.parked) && j in s.q.finalizing
    requires HookOutcome(s.q.parked.Status(j), status) && Open(Complete(c.g, Ended(s.q, j, status), c.limits, j))
    ensures Eager(c.g, Complete(c.g, Ended(s.q, j, status), c.limits, j).parked)
  {
    assert j in Running(s.q);
    EndedWaiting(c, s.q, s.lost, s.added, j, status);
    CompleteParked(c, Ended(s.q, j, status), j);
    if status == Failed {
      FailedEndEager(c, s, j);
    } else {
      PassKeepsEager(c.g, Ended(s.q, j, status).parked);
    }
  }

  lemma FailedEndEager(c: Config, s: State, j: Job)
    requires QInv(c, s.q, s.lost, s.added) && ListsDependents(c.g) && Eager(c.g, s.q.parked) && j in Running(s.q)
    requires Waiting(c.g, Ended(s.q, j, Failed).parked)
    ensures Eager(c.g, MoveTodoToReady(c.g, SkipChildren(c.g, Ended(s.q, j, Failed).parked, c.g.Children(j))))
  {
    var ended := Ended(s.q, j, Failed).parked;
    FailedEager(c, s.q, s.lost, s.added, j, ended);
    SkipChildrenLaw(c.g, ended, j, c.g.Children(j));
    PassKeepsEager(c.g, SkipChildren(c.g, ended, c.g.Children(j)));
  }

  /** The other steps of an open scheduler leave todo and the statuses alone. */
  lemma OtherEager(c: Config, s: State, l: Label)
    requires Eager(c.g, s.q.parked) && Enabled(c, s, l) && Open(Apply(c, s, l).q) && PcFits(c, s) && ShutdownFits(s)
    requires !l.Add? && !l.Cycle? && !l.LaunchFail? && !l.Finish?
    ensures Eager(c.g, Apply(c, s, l).q.parked)
  {
    if l.OfOthers() {
      OthersLeaveParked(c, s, l);
    } else if l.OfLaunch() {
      LaunchLeavesParked(c, s, l);
    } else {
      PollsLeaveParked(c, s, l);
    }
  }

  lemma OthersLeaveParked(c: Config, s: State, l: Label)
    requires Enabled(c, s, l) && Open(Apply(c, s, l).q) && l.OfOthers() && !l.Add?
    ensures Apply(c, s, l).q.parked == s.q.parked
  {
  }

  lemma LaunchLeavesParked(c: Config, s: State, l: Label)
    requires Enabled(c, s, l) && Open(Apply(c, s, l).q) && ShutdownFits(s) && l.OfLaunch() && !l.Cycle? && !l.LaunchFail?
    ensures Apply(c, s, l).q.parked == s.q.parked
  {
  }

  lemma PollsLeaveParked(c: Config, s: State, l: Label)
    requires Enabled(c, s, l) && Open(Apply(c, s, l).q) && PcFits(c, s) && !l.OfOthers() && !l.OfLaunch() && !l.Finish?
    ensures Apply(c, s, l).q.parked == s.q.parked
  {
  }

  lemma StepEager(c: Config, s: State, l: Label)
    requires Inv(c, s) && ListsDependents(c.g) && Eager(c.g, s.q.parked) && Enabled(c, s, l) && AddsFresh(c, s, l)
    ensures Eager(c.g, Apply(c, s, l).q.parked)
  {
    QueueStep(c, s, l);
    if !Open(Apply(c, s, l).q) {
      assert Apply(c, s, l).q.parked.todo == [];
    } else if l.Add? {
      AddEager(c, s, l);
    } else if l.Cycle? {
      CycleEager(c, s);
    } else if l.LaunchFail? {
      LaunchFailEager(c, s, l.job);
    } else if l.Finish? {
      FinishEager(c, s, l.job, l.status);
    } else {
      OtherEager(c, s, l);
    }
  }

  ghost predicate AllAddFresh(c: Config, s: State, run: seq<Label>)
    requires Legal(c, s, run)
    decreases |run|
  {
    run == [] || (AddsFresh(c, s, run[0]) && AllAddFresh(c, Apply(c, s, run[0]), run[1..]))
  }

  lemma {:induction false} RunEager(c: Config, s: State, run: seq<Label>)
    requires Inv(c, s) && ListsDependents(c.g) && Eager(c.g, s.q.parked) && Legal(c, s, run) && AllAddFresh(c, s, run)
    ensures Eager(c.g, After(c, s, run).q.parked)
    decreases |run|
  {
    if run != [] {
      StepEager(c, s, run[0]);
      OutsideStep(c, s, run[0]);
      QueueStep(c, s, run[0]);
      RunEager(c, Apply(c, s, run[0]), run[1..]);
    }
  }

  /** Over every run in which no job is added below a failed or skipped one, whatever fails, however deep the
      dependents lie: no job waits for a dependency that failed or was skipped, and so no later pass has
      anything to skip. */
  lemma FailuresReachDependents(c: Config, start: State, run: seq<Label>, j: Job, d: Job)
    requires c.Valid() && ListsDependents(c.g) && Initial(start) && Legal(c, start, run) && AllAddFresh(c, start, run)
    ensures var p := After(c, start, run).q.parked;
            && (j in p.todo && d in c.g.Deps(j) ==> p.Status(d) !in {Failed, Skipped})
            && MoveTodoToReady(c.g, p).Status(j) == p.Status(j)
  {
    InitialInv(c, start);
    RunEager(c, start, run);
    RunInv(c, start, run);
    PassSkipsNothing(c.g, After(c, start, run).q.parked, j);
  }
}
