/** The order in which the scheduler adds, launches and completes jobs does not matter: every complete
    run ends with the statuses that a recursive evaluation of the dependency graph gives. */
module Confluence {
  import opened Jobs
  import opened SchedulerSpec
  import opened SchedulerLaws
  import opened QueueInvariant
  import opened SchedulerRuns
  import opened SchedulerSafety

  /** What becomes of each job if it is run. */
  type Outcomes = map<Job, JobStatus>

  function OutcomeOf(o: Outcomes, j: Job): JobStatus {
    if j in o then o[j] else Failed
  }

  /** The run gives every job it launches its outcome; one that cannot be launched has failed. */
  predicate Conforms(o: Outcomes, l: Label) {
    && (l.Finish? ==> l.status == OutcomeOf(o, l.job))
    && (l.LaunchFail? ==> OutcomeOf(o, l.job) == Failed)
  }

  function Below(g: Graph, j: Job): set<Job> {
    set k | k in g.deps && g.Priority(k) < g.Priority(j)
  }

  lemma BelowShrinks(g: Graph, j: Job, d: Job)
    requires WellFormed(g) && d in g.Deps(j)
    ensures Below(g, d) <= Below(g, j) && (d in g.deps ==> Below(g, d) < Below(g, j))
  {
    assert j in g.deps;
    if d in g.deps {
      assert d in Below(g, j) && d !in Below(g, d);
    }
  }

  /** The reference: a job is skipped if a dependency ended unsuccessful, else it has its own outcome. */
  ghost function Eval(g: Graph, o: Outcomes, j: Job): (r: JobStatus)
    requires WellFormed(g)
    decreases Below(g, j), if j in g.deps then 1 else 0
  {
    if forall d | d in g.Deps(j) :: (BelowShrinks(g, j, d); Eval(g, o, d)).Successful() then OutcomeOf(o, j) else Skipped
  }

  /** Every job that has completed did so with the evaluated status. */
  ghost predicate Agrees(g: Graph, o: Outcomes, status: map<Job, JobStatus>)
    requires WellFormed(g)
  {
    forall j | j in status && status[j].Completed() :: status[j] == Eval(g, o, j)
  }

  /** A skip is what the evaluation says, whichever of the two mechanisms made it. */
  lemma {:induction false} JustifiedAgrees(g: Graph, o: Outcomes, s: map<Job, JobStatus>, t: map<Job, JobStatus>, j: Job)
    requires WellFormed(g) && SkipsJustified(g, s, t) && Agrees(g, o, s) && j in t && t[j].Completed()
    ensures t[j] == Eval(g, o, j)
    decreases Below(g, j), if j in g.deps then 1 else 0
  {
    if t[j] != StatusIn(s, j) {
      var d :| d in g.Deps(j) && Unsuccessful(t, d);
      BelowShrinks(g, j, d);
      JustifiedAgrees(g, o, s, t, d);
    }
  }

  lemma SkipsAgree(g: Graph, o: Outcomes, s: map<Job, JobStatus>, t: map<Job, JobStatus>)
    requires WellFormed(g) && SkipsJustified(g, s, t) && Agrees(g, o, s)
    ensures Agrees(g, o, t)
  {
    forall j | j in t && t[j].Completed()
      ensures t[j] == Eval(g, o, j)
    {
      JustifiedAgrees(g, o, s, t, j);
    }
  }

  /** A job that ran has its own outcome, since all its dependencies were successful. */
  lemma OutcomeAgrees(g: Graph, o: Outcomes, status: map<Job, JobStatus>, j: Job)
    requires WellFormed(g) && Agrees(g, o, status) && DependenciesSuccessful(g, status, j)
    ensures Agrees(g, o, status[j := OutcomeOf(o, j)])
  {
    forall d | d in g.Deps(j)
      ensures Eval(g, o, d).Successful()
    {
      assert StatusIn(status, d).Successful();
    }
  }

  lemma FinishAgrees(c: Config, o: Outcomes, s: State, j: Job)
    requires QInv(c, s.q, s.lost, s.added) && Agrees(c.g, o, s.q.parked.status) && j in s.q.finalizing && OutcomeOf(o, j).Completed()
    requires OutcomeOf(o, j) != Skipped && Open(Complete(c.g, Ended(s.q, j, OutcomeOf(o, j)), c.limits, j))
    ensures Agrees(c.g, o, Complete(c.g, Ended(s.q, j, OutcomeOf(o, j)), c.limits, j).parked.status)
  {
    assert j in Running(s.q);
    OutcomeAgrees(c.g, o, s.q.parked.status, j);
    EndedParked(c, s.q, s.lost, s.added, j, OutcomeOf(o, j));
    SkipsAgree(c.g, o, Ended(s.q, j, OutcomeOf(o, j)).parked.status,
      Complete(c.g, Ended(s.q, j, OutcomeOf(o, j)), c.limits, j).parked.status);
  }

  /** Without an exit, completing a job changes statuses only by justified skips. */
  lemma EndedParked(c: Config, q: Queues, lost: seq<Job>, added: set<Job>, j: Job, status: JobStatus)
    requires QInv(c, q, lost, added) && j in q.finalizing && status.Completed() && status != Skipped
    requires Open(Complete(c.g, Ended(q, j, status), c.limits, j))
    ensures SkipsJustified(c.g, Ended(q, j, status).parked.status,
                           Complete(c.g, Ended(q, j, status), c.limits, j).parked.status)
  {
    EndedWaiting(c, q, lost, added, j, status);
    EndedSkips(c, Ended(q, j, status), j);
  }

  lemma EndedWaiting(c: Config, q: Queues, lost: seq<Job>, added: set<Job>, j: Job, status: JobStatus)
    requires QInv(c, q, lost, added) && j in q.finalizing && status.Completed()
    ensures Waiting(c.g, Ended(q, j, status).parked)
  {
    assert j in Running(q);
    RetireKeeps(c, q, lost, added, j, status, Ended(q, j, status).(finalizing := RemoveFirst(q.finalizing, j)));
  }

  /** What the end of a job that causes no exit makes of the waiting jobs. */
  lemma CompleteParked(c: Config, q: Queues, j: Job)
    requires j in q.finalizing && Open(Complete(c.g, q, c.limits, j))
    ensures Complete(c.g, q, c.limits, j).parked ==
            MoveTodoToReady(c.g, if q.parked.Status(j).Successful() then q.parked else SkipChildren(c.g, q.parked, c.g.Children(j)))
  {
  }

  lemma EndedSkips(c: Config, q: Queues, j: Job)
    requires c.Valid() && Waiting(c.g, q.parked) && j in q.finalizing && q.parked.Status(j).Completed()
    requires Open(Complete(c.g, q, c.limits, j))
    ensures SkipsJustified(c.g, q.parked.status, Complete(c.g, q, c.limits, j).parked.status)
  {
    if q.parked.Status(j).Successful() {
      MoveTodoToReadyLaw(c.g, q.parked);
    } else {
      var skipped := SkipChildren(c.g, q.parked, c.g.Children(j));
      SkipChildrenLaw(c.g, q.parked, j, c.g.Children(j));
      MoveTodoToReadyLaw(c.g, skipped);
      SkipsCompose(c.g, q.parked.status, skipped.status, MoveTodoToReady(c.g, skipped).status);
    }
  }

  lemma LaunchFailAgrees(c: Config, o: Outcomes, s: State, j: Job)
    requires QInv(c, s.q, s.lost, s.added) && Agrees(c.g, o, s.q.parked.status) && j in s.q.launching && OutcomeOf(o, j) == Failed
    requires Open(LaunchFailed(c.g, s.q, c.limits, j))
    ensures Agrees(c.g, o, LaunchFailed(c.g, s.q, c.limits, j).parked.status)
  {
    assert j in Running(s.q);
    var p := s.q.parked;
    OutcomeAgrees(c.g, o, p.status, j);
    assert p.Assign(j, Failed).status == p.status[j := Failed];
    FailedWaiting(c, s.q, s.lost, s.added, j);
    SkipChildrenLaw(c.g, p.Assign(j, Failed), j, c.g.Children(j));
    SkipsAgree(c.g, o, p.status[j := Failed], SkipChildren(c.g, p.Assign(j, Failed), c.g.Children(j)).status);
  }

  lemma FailedWaiting(c: Config, q: Queues, lost: seq<Job>, added: set<Job>, j: Job)
    requires QInv(c, q, lost, added) && j in q.launching
    ensures Waiting(c.g, q.parked.Assign(j, Failed))
  {
    assert j in Running(q);
    RetireKeeps(c, q, lost, added, j, Failed,
      q.(parked := q.parked.Assign(j, Failed), launching := RemoveFirst(q.launching, j)));
  }

  lemma CycleAgrees(c: Config, o: Outcomes, s: State)
    requires c.Valid() && Waiting(c.g, s.q.parked) && Agrees(c.g, o, s.q.parked.status) && s.pc == Top
    ensures Agrees(c.g, o, Apply(c, s, Cycle).q.parked.status)
  {
    CycledStatus(c, s.q);
    MoveTodoToReadyLaw(c.g, s.q.parked);
    SkipsAgree(c.g, o, s.q.parked.status, MoveTodoToReady(c.g, s.q.parked).status);
  }

  lemma CycledStatus(c: Config, q: Queues)
    ensures Cycled(c, q).parked.status == MoveTodoToReady(c.g, q.parked).status
  {
  }

  /** Adding, launching and completing keep the agreement as long as no exit or kill intervenes. */
  lemma StepAgrees(c: Config, o: Outcomes, s: State, l: Label)
    requires QInv(c, s.q, s.lost, s.added) && ShutdownFits(s) && PcFits(c, s)
    requires Enabled(c, s, l) && Conforms(o, l) && Agrees(c.g, o, s.q.parked.status)
    requires Open(Apply(c, s, l).q)
    ensures Agrees(c.g, o, Apply(c, s, l).q.parked.status)
  {
    if l.LaunchFail? || l.Finish? {
      EndAgrees(c, o, s, l);
    } else if l.Cycle? {
      CycleAgrees(c, o, s);
    } else {
      OthersKeepStatuses(c, s, l);
    }
  }

  lemma EndAgrees(c: Config, o: Outcomes, s: State, l: Label)
    requires QInv(c, s.q, s.lost, s.added) && (l.LaunchFail? || l.Finish?)
    requires Enabled(c, s, l) && Conforms(o, l) && Agrees(c.g, o, s.q.parked.status)
    requires Open(Apply(c, s, l).q)
    ensures Agrees(c.g, o, Apply(c, s, l).q.parked.status)
  {
    if l.LaunchFail? {
      LaunchFailAgrees(c, o, s, l.job);
    } else {
      FinishAgrees(c, o, s, l.job);
    }
  }

  lemma OthersKeepStatuses(c: Config, s: State, l: Label)
    requires ShutdownFits(s) && PcFits(c, s) && Enabled(c, s, l) && Open(Apply(c, s, l).q)
    requires !l.Cycle? && !l.LaunchFail? && !l.Finish?
    ensures Apply(c, s, l).q.parked.status == s.q.parked.status
  {
    match l
    case Record(_) => RecordCloses(c, s, l);
    case Add(_, _) | Pause | Resume | KillAll | Stop => ThreadsKeepStatuses(c, s, l);
    case _ =>
  }

  lemma ThreadsKeepStatuses(c: Config, s: State, l: Label)
    requires Enabled(c, s, l) && Open(Apply(c, s, l).q) && (l.Add? || l.Pause? || l.Resume? || l.KillAll? || l.Stop?)
    ensures Apply(c, s, l).q.parked.status == s.q.parked.status
  {
  }

  lemma RecordCloses(c: Config, s: State, l: Label)
    requires PcFits(c, s) && Enabled(c, s, l) && l.Record?
    ensures !Open(Apply(c, s, l).q)
  {
  }

  /** An exit, a kill and a stop are for good. */
  lemma OpenBefore(c: Config, s: State, l: Label)
    requires Enabled(c, s, l) && Open(Apply(c, s, l).q)
    ensures Open(s.q)
  {
  }

  lemma {:induction false} RunAgrees(c: Config, o: Outcomes, s: State, run: seq<Label>)
    requires Inv(c, s) && Legal(c, s, run) && Agrees(c.g, o, s.q.parked.status) && Open(After(c, s, run).q)
    requires forall l | l in run :: Conforms(o, l)
    ensures Open(s.q) && Agrees(c.g, o, After(c, s, run).q.parked.status)
    decreases |run|
  {
    if run != [] {
      var l := run[0];
      OutsideStep(c, s, l);
      QueueStep(c, s, l);
      StillOpen(c, Apply(c, s, l), run[1..]);
      OpenBefore(c, s, l);
      StepAgrees(c, o, s, l);
      RunAgrees(c, o, Apply(c, s, l), run[1..]);
    }
  }

  lemma {:induction false} StillOpen(c: Config, s: State, run: seq<Label>)
    requires Legal(c, s, run) && Open(After(c, s, run).q)
    ensures Open(s.q)
    decreases |run|
  {
    if run != [] {
      StillOpen(c, Apply(c, s, run[0]), run[1..]);
      OpenBefore(c, s, run[0]);
    }
  }

  /** Confluence. Whatever the interleaving, a run that empties the live queues without a graceful exit,
      a kill or an incomplete shutdown gives every added job the status of the recursive evaluation. */
  lemma RunIsEvaluation(c: Config, o: Outcomes, s: State, run: seq<Label>)
    requires c.Valid() && Initial(s) && Legal(c, s, run) && forall l | l in run :: Conforms(o, l)
    requires LiveEmpty(After(c, s, run).q) && Open(After(c, s, run).q)
    ensures var t := After(c, s, run);
            forall j | j in t.added :: t.q.parked.Status(j) == Eval(c.g, o, j)
  {
    InitialInv(c, s);
    RunInv(c, s, run);
    RunAgrees(c, o, s, run);
    var t := After(c, s, run);
    forall j | j in t.added
      ensures t.q.parked.Status(j) == Eval(c.g, o, j)
    {
      Places(t.q, t.lost, t.added, j);
      assert j in t.q.done || j in t.q.parked.skipped;
    }
  }

  /** Two complete runs over the same jobs and outcomes agree on every status. */
  lemma OrderIsIrrelevant(c: Config, o: Outcomes, s1: State, run1: seq<Label>, s2: State, run2: seq<Label>, j: Job)
    requires c.Valid() && Initial(s1) && Initial(s2) && Legal(c, s1, run1) && Legal(c, s2, run2)
    requires forall l | l in run1 + run2 :: Conforms(o, l)
    requires LiveEmpty(After(c, s1, run1).q) && Open(After(c, s1, run1).q)
    requires LiveEmpty(After(c, s2, run2).q) && Open(After(c, s2, run2).q)
    requires j in After(c, s1, run1).added && j in After(c, s2, run2).added
    ensures After(c, s1, run1).q.parked.Status(j) == After(c, s2, run2).q.parked.Status(j)
  {
    assert forall l | l in run1 :: l in run1 + run2;
    assert forall l | l in run2 :: l in run1 + run2;
    RunIsEvaluation(c, o, s1, run1);
    RunIsEvaluation(c, o, s2, run2);
  }
}
