/** The invariant of the seven queues, and that every locked block of the scheduler keeps it. */
module QueueInvariant {
  import opened Jobs
  import opened SchedulerSpec
  import opened SchedulerLaws

  /** `locking`: the jobs whose pre_run takes a directory lock. */
  datatype Config = Config(g: Graph, limits: Limits, locking: set<Job>) {
    ghost predicate Valid() {
      WellFormed(g) && limits.jobs >= 1 && limits.quit >= 1
    }
  }

  /** Every added job is in exactly one place, exactly once: a queue, or (after a kill) `lost`. */
  ghost predicate Conserved(q: Queues, lost: seq<Job>, added: set<Job>) {
    AllJobs(q) + multiset(lost) == multiset(added)
  }

  /** The scheduler accepts and launches jobs: neither a graceful exit nor a shutdown has begun. */
  predicate Open(q: Queues) {
    !q.graceExit && q.threadActive
  }

  ghost predicate StatusesFit(g: Graph, q: Queues) {
    && (forall j | j in Running(q) :: q.parked.Status(j).Pending() && DependenciesSuccessful(g, q.parked.status, j))
    && (forall j | j in q.done :: q.parked.Status(j).Completed())
    && (Open(q) ==> forall j | j in q.parked.skipped :: q.parked.Status(j).Completed())
    && (!Open(q) ==> q.parked.todo == [] && q.parked.ready == [])
  }

  ghost predicate Admissible(limits: Limits, q: Queues) {
    && |Running(q)| <= limits.jobs
    && ((exists j | j in Running(q) :: j.exclusive) ==> |Running(q)| == 1)
  }

  ghost predicate FailuresBounded(limits: Limits, q: Queues) {
    && (!q.graceExit ==> q.errorCount < limits.quit)
    && (q.graceExit ==> q.errorCount + |Running(q)| <= limits.quit + limits.jobs - 1)
  }

  /** All of the invariant but the failure bound. */
  ghost predicate QCore(c: Config, q: Queues, lost: seq<Job>, added: set<Job>) {
    && c.Valid() && Waiting(c.g, q.parked) && Conserved(q, lost, added)
    && StatusesFit(c.g, q) && Admissible(c.limits, q)
  }

  ghost predicate QInv(c: Config, q: Queues, lost: seq<Job>, added: set<Job>) {
    QCore(c, q, lost, added) && FailuresBounded(c.limits, q)
  }

  // ----- Where a job can be -----

  /** The places of one job, counted. */
  lemma Places(q: Queues, lost: seq<Job>, added: set<Job>, j: Job)
    requires Conserved(q, lost, added)
    ensures multiset(q.parked.todo)[j] + multiset(q.parked.ready)[j] + multiset(q.parked.skipped)[j]
          + multiset(q.launching)[j] + multiset(q.active)[j] + multiset(q.finalizing)[j] + multiset(q.done)[j]
          + multiset(lost)[j] == if j in added then 1 else 0
    ensures (j in q.parked.todo <==> multiset(q.parked.todo)[j] > 0)
         && (j in q.parked.ready <==> multiset(q.parked.ready)[j] > 0)
         && (j in q.parked.skipped <==> multiset(q.parked.skipped)[j] > 0)
         && (j in q.launching <==> multiset(q.launching)[j] > 0)
         && (j in q.active <==> multiset(q.active)[j] > 0)
         && (j in q.finalizing <==> multiset(q.finalizing)[j] > 0)
         && (j in q.done <==> multiset(q.done)[j] > 0)
         && (j in lost <==> multiset(lost)[j] > 0)
  {
    assert (AllJobs(q) + multiset(lost))[j] == multiset(added)[j];
  }

  /** Conservation: an added job that was not lost to a kill is in exactly one queue. */
  lemma ExactlyOneQueue(q: Queues, lost: seq<Job>, added: set<Job>, j: Job)
    requires Conserved(q, lost, added)
    ensures j in added && j !in lost <==> AllJobs(q)[j] == 1
    ensures j in lost <==> j in added && AllJobs(q)[j] == 0
    ensures AllJobs(q)[j] <= 1
  {
    Places(q, lost, added, j);
  }

  lemma ParkedDistinct(q: Queues, lost: seq<Job>, added: set<Job>)
    requires Conserved(q, lost, added)
    ensures Distinct(ParkedJobs(q.parked))
  {
    forall j | j in ParkedJobs(q.parked)
      ensures ParkedJobs(q.parked)[j] == 1
    {
      Places(q, lost, added, j);
    }
  }

  // ----- Status changes -----

  /** Only a job that has not completed changes its status. */
  ghost predicate OnlyPendingChange(s: map<Job, JobStatus>, t: map<Job, JobStatus>) {
    && s.Keys <= t.Keys
    && forall j | j in t :: t[j] == StatusIn(s, j) || StatusIn(s, j).Pending()
  }

  lemma JustifiedIsPendingChange(g: Graph, s: map<Job, JobStatus>, t: map<Job, JobStatus>)
    requires SkipsJustified(g, s, t)
    ensures OnlyPendingChange(s, t)
  {
  }

  lemma CompletedStays(s: map<Job, JobStatus>, t: map<Job, JobStatus>, j: Job)
    requires OnlyPendingChange(s, t) && StatusIn(s, j).Completed()
    ensures StatusIn(t, j) == StatusIn(s, j)
  {
  }

  lemma SuccessStays(g: Graph, s: map<Job, JobStatus>, t: map<Job, JobStatus>, j: Job)
    requires OnlyPendingChange(s, t) && DependenciesSuccessful(g, s, j)
    ensures DependenciesSuccessful(g, t, j)
  {
    forall d | d in g.Deps(j)
      ensures StatusIn(t, d).Successful()
    {
      assert StatusIn(s, d).Successful();
      CompletedStays(s, t, d);
    }
  }

  /** Statuses and lists of the parked jobs may move on while the running jobs stay as they are. */
  ghost predicate ParkedStep(p: Parked, r: Parked) {
    && OnlyPendingChange(p.status, r.status)
    && ParkedJobs(r) == ParkedJobs(p)
    && (forall j | j in r.status && r.status[j] != p.Status(j) :: j in p.todo || j in p.ready)
    && (forall j | j in r.skipped :: j in p.skipped || r.Status(j).Completed())
  }

  /** A skip hits a job of todo. */
  lemma {:induction false} SkipChildrenStep(g: Graph, p: Parked, parent: Job, kids: seq<Job>)
    requires WellFormed(g) && Waiting(g, p) && Unsuccessful(p.status, parent)
    requires forall k | k in kids :: parent in g.Deps(k)
    ensures ParkedStep(p, SkipChildren(g, p, kids))
    decreases |p.todo|, |kids|
  {
    SkipChildrenLaw(g, p, parent, kids);
    JustifiedIsPendingChange(g, p.status, SkipChildren(g, p, kids).status);
    if kids != [] {
      SkipUnfolds(g, p, kids);
      var child := kids[0];
      assert forall k | k in kids :: k == child || k in kids[1..];
      if child !in p.todo {
        SkipChildrenStep(g, p, parent, kids[1..]);
      } else {
        MovedLaw(g, p, parent, child);
        var moved := Moved(p, child);
        SkipChildrenStep(g, moved, child, g.Children(child));
        SkipChildrenLaw(g, moved, child, g.Children(child));
        var below := SkipChildren(g, moved, g.Children(child));
        SkipsKeep(g, moved.status, below.status, parent);
        SkipChildrenStep(g, below, parent, kids[1..]);
        StepsCompose(moved, below, SkipChildren(g, p, kids));
        MovedStep(g, p, child);
        StepsCompose(p, moved, SkipChildren(g, p, kids));
      }
    }
  }

  lemma MovedStep(g: Graph, p: Parked, child: Job)
    requires child in p.todo && p.Status(child).Pending()
    ensures ParkedStep(p, Moved(p, child)) && (forall j | j in Moved(p, child).todo :: j in p.todo)
  {
    RemoveFirstCount(p.todo, child);
  }

  lemma StepsCompose(p: Parked, q: Parked, r: Parked)
    requires ParkedStep(p, q) && ParkedStep(q, r)
    requires forall j | j in q.todo || j in q.ready :: j in p.todo || j in p.ready
    ensures ParkedStep(p, r)
  {
  }

  lemma AdvanceStep(g: Graph, p: Parked, pending: seq<Job>, kept: seq<Job>)
    requires Waiting(g, p.(todo := kept + pending)) && pending != [] && DependenciesCompleted(g, p.status, pending[0])
    ensures ParkedStep(p.(todo := kept + pending), Advance(g, p, pending[0]).(todo := kept + pending[1..]))
    ensures var r := Advance(g, p, pending[0]).(todo := kept + pending[1..]); var before := p.(todo := kept + pending);
            forall j | j in r.todo || j in r.ready :: j in before.todo || j in before.ready
  {
    var j := pending[0];
    var before := p.(todo := kept + pending);
    assert j in before.todo by { assert before.todo[|kept|] == j; }
    PendingOnce(p, pending, kept);
    AdvanceCount(g, p, pending, kept);
    AdvanceOne(g, p, j);
    assert forall k | k in kept + pending[1..] :: k in before.todo;
  }

  /** Advancing one job changes its status at most, and moves it. */
  lemma AdvanceOne(g: Graph, p: Parked, j: Job)
    requires DependenciesCompleted(g, p.status, j) && p.Status(j).Pending()
    ensures var r := Advance(g, p, j);
            && OnlyPendingChange(p.status, r.status)
            && (forall k | k in r.status && k != j :: r.status[k] == p.Status(k))
            && (forall k | k in r.skipped :: k in p.skipped || r.Status(k).Completed())
            && (forall k | k in r.ready :: k == j || k in p.ready)
  {
    AdvanceStatus(g, p, j);
    JustifiedIsPendingChange(g, p.status, Advance(g, p, j).status);
    InsertMembers(g, p.ready, j);
  }

  lemma {:induction false} PassStep(g: Graph, p: Parked, pending: seq<Job>, kept: seq<Job>)
    requires WellFormed(g) && MidPass(g, p, pending, kept)
    ensures ParkedStep(p.(todo := kept + pending), Pass(g, p, pending, kept))
    decreases |pending|
  {
    if pending == [] {
      assert kept + pending == kept;
    } else {
      var j, rest := pending[0], pending[1..];
      assert kept + [j] + rest == kept + pending;
      if !DependenciesCompleted(g, p.status, j) {
        KeepLaw(g, p, pending, kept);
        PassStep(g, p, rest, kept + [j]);
      } else {
        AdvanceLaw(g, p, pending, kept);
        AdvanceStep(g, p, pending, kept);
        var next := Advance(g, p, j);
        PassStep(g, next, rest, kept);
        StepsCompose(p.(todo := kept + pending), next.(todo := kept + rest), Pass(g, next, rest, kept));
      }
    }
  }

  lemma MoveTodoStep(g: Graph, p: Parked)
    requires WellFormed(g) && Waiting(g, p)
    ensures ParkedStep(p, MoveTodoToReady(g, p))
  {
    assert [] + p.todo == p.todo;
    assert p.(todo := p.todo) == p;
    PassStep(g, p, p.todo, []);
  }

  /** The statuses after skipping some jobs that have not completed. */
  ghost predicate SkippedAll(s: map<Job, JobStatus>, t: map<Job, JobStatus>, jobs: seq<Job>) {
    && OnlyPendingChange(s, t)
    && (forall j | j in jobs :: StatusIn(t, j) == Skipped)
    && (forall j | j in t && j !in jobs :: t[j] == StatusIn(s, j))
  }

  lemma SkipOneStep(p: Parked, j: Job)
    requires p.Status(j).Pending() || p.Status(j) == Skipped
    ensures var r := p.SkipUnfinished(j); r == p.(status := r.status) && SkippedAll(p.status, r.status, [j])
  {
  }

  lemma SkippedAllCons(s: map<Job, JobStatus>, t: map<Job, JobStatus>, u: map<Job, JobStatus>, jobs: seq<Job>)
    requires jobs != [] && SkippedAll(s, t, [jobs[0]]) && SkippedAll(t, u, jobs[1..])
    ensures SkippedAll(s, u, jobs)
  {
    assert forall j | j in jobs :: j in [jobs[0]] || j in jobs[1..];
    assert forall j | j in jobs[1..] :: j in jobs;
    assert jobs[0] in jobs && jobs[0] in [jobs[0]];
    assert StatusIn(u, jobs[0]) == Skipped;
  }

  lemma {:induction false} SkipAllStep(p: Parked, jobs: seq<Job>)
    requires forall j | j in jobs :: p.Status(j).Pending() || p.Status(j) == Skipped
    ensures var r := p.SkipAll(jobs); r == p.(status := r.status) && SkippedAll(p.status, r.status, jobs)
    decreases |jobs|
  {
    if jobs != [] {
      var next := p.SkipUnfinished(jobs[0]);
      SkipOneStep(p, jobs[0]);
      forall j | j in jobs[1..]
        ensures next.Status(j).Pending() || next.Status(j) == Skipped
      {
        assert j in jobs && (j in [jobs[0]] || j !in [jobs[0]]);
      }
      SkipAllStep(next, jobs[1..]);
      SkippedAllCons(p.status, next.status, p.SkipAll(jobs).status, jobs);
    }
  }

  lemma DrainedStep(g: Graph, p: Parked)
    requires Waiting(g, p)
    ensures var r := p.Drained();
            && ParkedStep(p, r) && Waiting(g, r) && r.todo == [] && r.ready == []
            && (forall j | j in p.todo || j in p.ready :: r.Status(j) == Skipped)
  {
    var list := p.todo + p.ready;
    SkipAllStep(p, list);
    DrainedLists(g, p, list, p.SkipAll(list).status);
    assert p.Drained() == Parked([], [], p.skipped + p.todo + p.ready, p.SkipAll(list).status);
  }

  lemma DrainedLists(g: Graph, p: Parked, list: seq<Job>, t: map<Job, JobStatus>)
    requires Waiting(g, p) && list == p.todo + p.ready
    requires SkippedAll(p.status, t, list)
    ensures var r := Parked([], [], p.skipped + p.todo + p.ready, t);
            ParkedStep(p, r) && Waiting(g, r) && forall j | j in p.todo || j in p.ready :: r.Status(j) == Skipped
  {
    var r := Parked([], [], p.skipped + p.todo + p.ready, t);
    assert r.skipped == p.skipped + list;
    assert forall j | j in list :: j in p.todo || j in p.ready;
    assert forall j | j in p.todo || j in p.ready :: j in list;
    assert ParkedJobs(r) == ParkedJobs(p);
  }

  // ----- Counting -----

  /** Moving one entry between two lists that are counted together. */
  lemma OneMoved(a: multiset<Job>, a': multiset<Job>, b: multiset<Job>, b': multiset<Job>, rest: multiset<Job>, j: Job)
    requires a == a' + multiset{j} && b' == b + multiset{j}
    ensures a' + b' + rest == a + b + rest
  {
  }

  /** Moving one entry in or out of the jobs that are in no queue. */
  lemma OneFiled(m: multiset<Job>, lost: seq<Job>, j: Job)
    ensures m + multiset(lost + [j]) == (m + multiset{j}) + multiset(lost)
  {
    assert multiset(lost + [j]) == multiset(lost) + multiset{j};
  }

  lemma RunningParts(q: Queues)
    ensures multiset(Running(q)) == multiset(q.active) + multiset(q.launching) + multiset(q.finalizing)
    ensures |Running(q)| == |q.active| + |q.launching| + |q.finalizing|
  {
  }

  // ----- The building blocks of the locked blocks -----

  /** Moving parked jobs on disturbs no running and no finished job. */
  lemma ParkedUpdate(c: Config, q: Queues, lost: seq<Job>, added: set<Job>, r: Parked)
    requires QCore(c, q, lost, added) && Waiting(c.g, r) && ParkedStep(q.parked, r)
    requires !Open(q) ==> r.todo == [] && r.ready == []
    ensures QCore(c, q.(parked := r), lost, added)
  {
    var q' := q.(parked := r);
    assert AllJobs(q') == AllJobs(q);
    forall j | j in Running(q)
      ensures r.Status(j) == q.parked.Status(j) && DependenciesSuccessful(c.g, r.status, j)
    {
      Places(q, lost, added, j);
      SuccessStays(c.g, q.parked.status, r.status, j);
    }
    forall j | j in q.done
      ensures r.Status(j).Completed()
    {
      CompletedStays(q.parked.status, r.status, j);
    }
    forall j | Open(q) && j in r.skipped
      ensures r.Status(j).Completed()
    {
      if j in q.parked.skipped {
        CompletedStays(q.parked.status, r.status, j);
      }
    }
  }

  lemma SkipKeeps(c: Config, q: Queues, lost: seq<Job>, added: set<Job>, j: Job)
    requires QCore(c, q, lost, added) && Unsuccessful(q.parked.status, j)
    ensures QCore(c, q.(parked := SkipChildren(c.g, q.parked, c.g.Children(j))), lost, added)
  {
    SkipChildrenLaw(c.g, q.parked, j, c.g.Children(j));
    SkipChildrenStep(c.g, q.parked, j, c.g.Children(j));
    ParkedUpdate(c, q, lost, added, SkipChildren(c.g, q.parked, c.g.Children(j)));
  }

  lemma MoveKeeps(c: Config, q: Queues, lost: seq<Job>, added: set<Job>)
    requires QCore(c, q, lost, added)
    ensures QCore(c, q.(parked := MoveTodoToReady(c.g, q.parked)), lost, added)
  {
    var r := MoveTodoToReady(c.g, q.parked);
    MoveTodoToReadyLaw(c.g, q.parked);
    MoveTodoStep(c.g, q.parked);
    if !Open(q) {
      assert r == q.parked;
    }
    ParkedUpdate(c, q, lost, added, r);
  }

  /** Everything queued is skipped and the scheduler is no longer open. */
  lemma DrainKeeps(c: Config, q: Queues, lost: seq<Job>, added: set<Job>, q': Queues)
    requires QCore(c, q, lost, added)
    requires q' == q.(parked := q.parked.Drained(), graceExit := q'.graceExit, threadActive := q'.threadActive,
                      exitedPrematurely := q'.exitedPrematurely, paused := q'.paused, interrupted := q'.interrupted)
    requires !Open(q')
    ensures QCore(c, q', lost, added)
  {
    DrainedStep(c.g, q.parked);
    ParkedUpdate(c, q, lost, added, q.parked.Drained());
    assert Running(q') == Running(q);
    assert AllJobs(q') == AllJobs(q.(parked := q.parked.Drained()));
  }

  lemma ExitKeeps(c: Config, q: Queues, lost: seq<Job>, added: set<Job>)
    requires QCore(c, q, lost, added)
    ensures QCore(c, GracefulExit(q), lost, added) && Running(GracefulExit(q)) == Running(q)
    ensures GracefulExit(q).errorCount == q.errorCount && GracefulExit(q).graceExit
  {
    if !q.graceExit {
      DrainKeeps(c, q, lost, added, GracefulExit(q));
    }
  }

  /** A job that has left the running queues is filed as done. */
  lemma FinishKeeps(c: Config, q: Queues, lost: seq<Job>, added: set<Job>, j: Job)
    requires QCore(c, q, lost + [j], added) && q.parked.Status(j).Completed()
    ensures QCore(c, Finished(q, j), lost, added)
  {
    FinishCount(q, lost, added, j);
    assert Running(Finished(q, j)) == Running(q);
  }

  lemma FinishCount(q: Queues, lost: seq<Job>, added: set<Job>, j: Job)
    requires Conserved(q, lost + [j], added)
    ensures Conserved(Finished(q, j), lost, added)
  {
    assert multiset(q.done + [j]) == multiset(q.done) + multiset{j};
    assert Running(Finished(q, j)) == Running(q);
    OneFiled(AllJobs(q), lost, j);
    assert AllJobs(Finished(q, j)) == AllJobs(q) + multiset{j};
  }

  /** Taking a running job out of its queue with a final status; until it is filed it counts as lost. */
  lemma RetireKeeps(c: Config, q: Queues, lost: seq<Job>, added: set<Job>, j: Job, status: JobStatus, q': Queues)
    requires QCore(c, q, lost, added) && status.Completed()
    requires Retired(q, j, status, q')
    ensures QCore(c, q', lost + [j], added) && |Running(q')| == |Running(q)| - 1
  {
    RetiredCount(q, j, status, q');
    RetiredConserved(q, lost, added, j, status, q');
    RetiredWaiting(c, q, lost, added, j, status, q');
    RetiredStatuses(c, q, lost, added, j, status, q');
    RetiredAdmissible(c.limits, q, j, status, q');
  }

  lemma RetiredConserved(q: Queues, lost: seq<Job>, added: set<Job>, j: Job, status: JobStatus, q': Queues)
    requires Conserved(q, lost, added) && Retired(q, j, status, q')
    ensures Conserved(q', lost + [j], added)
  {
    RetiredCount(q, j, status, q');
    OneFiled(AllJobs(q'), lost, j);
    assert AllJobs(q) == AllJobs(q') + multiset{j};
  }

  lemma RetiredAdmissible(limits: Limits, q: Queues, j: Job, status: JobStatus, q': Queues)
    requires Admissible(limits, q) && Retired(q, j, status, q') && |Running(q')| == |Running(q)| - 1
    ensures Admissible(limits, q')
  {
    forall k | k in Running(q')
      ensures k in Running(q)
    {
      RetiredMember(q, j, status, q', k);
    }
  }

  /** The parked jobs do not see the change of a job that was running. */
  lemma RetiredWaiting(c: Config, q: Queues, lost: seq<Job>, added: set<Job>, j: Job, status: JobStatus, q': Queues)
    requires Waiting(c.g, q.parked) && Conserved(q, lost, added) && j in Running(q) && q.parked.Status(j).Pending()
    requires status.Completed() && Retired(q, j, status, q')
    ensures Waiting(c.g, q'.parked)
  {
    Places(q, lost, added, j);
    assert OnlyPendingChange(q.parked.status, q'.parked.status);
    forall k | k in q.parked.ready
      ensures DependenciesSuccessful(c.g, q'.parked.status, k)
    {
      SuccessStays(c.g, q.parked.status, q'.parked.status, k);
    }
    assert ParkedJobs(q'.parked) == ParkedJobs(q.parked);
  }

  lemma RetiredStatuses(c: Config, q: Queues, lost: seq<Job>, added: set<Job>, j: Job, status: JobStatus, q': Queues)
    requires StatusesFit(c.g, q) && status.Completed() && j in Running(q)
    requires Retired(q, j, status, q') && Conserved(q', lost + [j], added)
    ensures StatusesFit(c.g, q')
  {
    var s, t := q.parked.status, q'.parked.status;
    Places(q', lost + [j], added, j);
    assert OnlyPendingChange(s, t);
    assert j !in Running(q');
    forall k | k in Running(q')
      ensures k in Running(q) && DependenciesSuccessful(c.g, t, k)
    {
      RetiredMember(q, j, status, q', k);
      SuccessStays(c.g, s, t, k);
    }
  }

  ghost predicate Retired(q: Queues, j: Job, status: JobStatus, q': Queues) {
    && q' == q.(parked := q.parked.(status := q.parked.status[j := status]), launching := q'.launching,
                active := q'.active, finalizing := q'.finalizing, errorCount := q'.errorCount,
                shutdownIncomplete := q'.shutdownIncomplete)
    && (|| (j in q.launching && q'.launching == RemoveFirst(q.launching, j) && q'.active == q.active && q'.finalizing == q.finalizing)
        || (j in q.active && q'.active == RemoveFirst(q.active, j) && q'.launching == q.launching && q'.finalizing == q.finalizing)
        || (j in q.finalizing && q'.finalizing == RemoveFirst(q.finalizing, j) && q'.launching == q.launching && q'.active == q.active))
  }

  lemma RetiredCount(q: Queues, j: Job, status: JobStatus, q': Queues)
    requires Retired(q, j, status, q')
    ensures multiset(Running(q')) + multiset{j} == multiset(Running(q)) && |Running(q')| == |Running(q)| - 1
    ensures j in Running(q)
  {
    RunningParts(q);
    RunningParts(q');
    if j in q.launching && q'.launching == RemoveFirst(q.launching, j) {
      RemoveFirstCount(q.launching, j);
    } else if j in q.active && q'.active == RemoveFirst(q.active, j) {
      RemoveFirstCount(q.active, j);
    } else {
      RemoveFirstCount(q.finalizing, j);
    }
  }

  lemma RetiredMember(q: Queues, j: Job, status: JobStatus, q': Queues, k: Job)
    requires Retired(q, j, status, q') && k in Running(q')
    ensures k in Running(q)
  {
  }

  // ----- Every locked block keeps the invariant -----

  lemma AddKeeps(c: Config, q: Queues, lost: seq<Job>, added: set<Job>, j: Job)
    requires QInv(c, q, lost, added) && j !in added && q.parked.Status(j).Pending()
    ensures QInv(c, AddJob(c.g, q, j), lost, added + {j})
  {
    AddCount(c.g, q, lost, added, j);
    AddWaiting(c.g, q, lost, added + {j}, j);
  }

  lemma AddWaiting(g: Graph, q: Queues, lost: seq<Job>, added: set<Job>, j: Job)
    requires Waiting(g, q.parked) && Conserved(AddJob(g, q, j), lost, added) && q.parked.Status(j).Pending()
    ensures Waiting(g, AddJob(g, q, j).parked)
  {
    ParkedDistinct(AddJob(g, q, j), lost, added);
    InsertMembers(g, q.parked.todo, j);
    SortedInsert(g, q.parked.todo, j);
  }

  lemma AddCount(g: Graph, q: Queues, lost: seq<Job>, added: set<Job>, j: Job)
    requires Conserved(q, lost, added) && j !in added
    ensures Conserved(AddJob(g, q, j), lost, added + {j}) && Running(AddJob(g, q, j)) == Running(q)
  {
    var q' := AddJob(g, q, j);
    InsertCount(g, q.parked.todo, j);
    assert multiset(q.parked.skipped + [j]) == multiset(q.parked.skipped) + multiset{j};
    assert ParkedJobs(q'.parked) == ParkedJobs(q.parked) + multiset{j};
    assert multiset(added + {j}) == multiset(added) + multiset{j};
    assert AllJobs(q') == AllJobs(q) + multiset{j};
  }

  /** The top of the scheduler loop: one pass over todo, then possibly one job taken from ready. */
  lemma CycleKeeps(c: Config, q: Queues, lost: seq<Job>, added: set<Job>)
    requires QInv(c, q, lost, added) && q.threadActive && q.finalizing == [] && q.launching == []
    ensures QInv(c, TakeReady(q.(parked := MoveTodoToReady(c.g, q.parked)), c.limits), lost, added)
  {
    MoveKeeps(c, q, lost, added);
    var moved := q.(parked := MoveTodoToReady(c.g, q.parked));
    assert Running(moved) == Running(q);
    TakeKeeps(c, moved, lost, added);
  }

  lemma TakeKeeps(c: Config, q: Queues, lost: seq<Job>, added: set<Job>)
    requires QInv(c, q, lost, added) && q.finalizing == [] && q.launching == []
    ensures QInv(c, TakeReady(q, c.limits), lost, added)
  {
    if Choice(q, c.limits).Some? {
      TakeCount(c.g, q, c.limits, lost, added);
      TakenWaiting(c.g, q, c.limits, lost, added);
      TakenReadyFits(c, q);
      TakenBound(c, q);
    }
  }

  lemma TakenReadyFits(c: Config, q: Queues)
    requires Waiting(c.g, q.parked) && StatusesFit(c.g, q) && Admissible(c.limits, q) && c.limits.jobs >= 1
    requires Choice(q, c.limits).Some? && q.finalizing == [] && q.launching == []
    ensures StatusesFit(c.g, TakeReady(q, c.limits)) && Admissible(c.limits, TakeReady(q, c.limits))
  {
    TakenFits(c, q, TakeReady(q, c.limits), FirstLaunchable(q, c.limits, 0));
  }

  /** A job is taken from ready only while no exit has begun. */
  lemma TakenBound(c: Config, q: Queues)
    requires StatusesFit(c.g, q) && FailuresBounded(c.limits, q) && Choice(q, c.limits).Some?
    ensures FailuresBounded(c.limits, TakeReady(q, c.limits))
  {
    assert q.parked.ready != [];
  }

  lemma TakenWaiting(g: Graph, q: Queues, limits: Limits, lost: seq<Job>, added: set<Job>)
    requires Waiting(g, q.parked) && Choice(q, limits).Some? && Conserved(TakeReady(q, limits), lost, added)
    ensures Waiting(g, TakeReady(q, limits).parked)
  {
    ParkedDistinct(TakeReady(q, limits), lost, added);
    var k, ready := FirstLaunchable(q, limits, 0), q.parked.ready;
    SortedDelete(g, ready, k);
    assert forall j | j in ready[..k] + ready[k + 1..] :: j in ready;
  }

  lemma TakeCount(g: Graph, q: Queues, limits: Limits, lost: seq<Job>, added: set<Job>)
    requires Conserved(q, lost, added) && q.finalizing == [] && q.launching == []
    requires Choice(q, limits).Some?
    ensures Conserved(TakeReady(q, limits), lost, added)
    ensures Running(TakeReady(q, limits)) == q.active + [Choice(q, limits).value]
  {
    var q', j := TakeReady(q, limits), Choice(q, limits).value;
    TakenParts(q, limits);
    assert Running(q) == q.active && Running(q') == q.active + [j];
    assert multiset(Running(q')) == multiset(Running(q)) + multiset{j};
    OneMoved(ParkedJobs(q.parked), ParkedJobs(q'.parked), multiset(Running(q)), multiset(Running(q')), multiset(q.done), j);
  }

  lemma TakenParts(q: Queues, limits: Limits)
    requires Choice(q, limits).Some?
    ensures var r, j := TakeReady(q, limits), Choice(q, limits).value;
            && r == q.(parked := q.parked.(ready := r.parked.ready), launching := q.launching + [j])
            && ParkedJobs(q.parked) == ParkedJobs(r.parked) + multiset{j}
  {
    var k, ready := FirstLaunchable(q, limits, 0), q.parked.ready;
    assert ready == ready[..k] + [ready[k]] + ready[k + 1..];
    assert multiset(ready) == multiset(ready[..k] + ready[k + 1..]) + multiset{ready[k]};
  }

  lemma TakenFits(c: Config, q: Queues, q': Queues, i: nat)
    requires Waiting(c.g, q.parked) && StatusesFit(c.g, q) && q.finalizing == [] && q.launching == []
    requires i < |q.parked.ready| && CanLaunch(q, c.limits, q.parked.ready[i]) && Admissible(c.limits, q)
    requires var ready := q.parked.ready;
             q' == q.(parked := q.parked.(ready := ready[..i] + ready[i + 1..]), launching := [ready[i]])
    requires c.limits.jobs >= 1
    ensures StatusesFit(c.g, q') && Admissible(c.limits, q')
    ensures forall j | j in q'.parked.ready :: j in q.parked.ready
  {
    var j := q.parked.ready[i];
    assert j in q.parked.ready;
    assert Running(q') == q.active + [j] && Running(q) == q.active;
    assert q.active + q.launching == q.active;
    forall k | k in Running(q')
      ensures k == j || k in Running(q)
    {
    }
  }

  lemma CancelKeeps(c: Config, q: Queues, lost: seq<Job>, added: set<Job>, j: Job)
    requires QInv(c, q, lost, added) && !q.threadActive && j in q.launching
    ensures QInv(c, LaunchCancelled(q, j), lost, added)
  {
    assert j in Running(q);
    var retired := q.(parked := q.parked.(status := q.parked.status[j := Skipped]), launching := RemoveFirst(q.launching, j));
    RetireKeeps(c, q, lost, added, j, Skipped, retired);
    SkippedKeeps(c, retired, lost, added, j);
    assert LaunchCancelled(q, j) == retired.(parked := retired.parked.(skipped := q.parked.skipped + [j]));
  }

  /** A job that has left the running queues is filed as skipped. */
  lemma SkippedKeeps(c: Config, q: Queues, lost: seq<Job>, added: set<Job>, j: Job)
    requires QCore(c, q, lost + [j], added) && !Open(q)
    ensures QCore(c, q.(parked := q.parked.(skipped := q.parked.skipped + [j])), lost, added)
  {
    var q' := q.(parked := q.parked.(skipped := q.parked.skipped + [j]));
    SkippedCount(q, lost, added, j);
    assert Running(q') == Running(q);
    ParkedDistinct(q', lost, added);
  }

  lemma SkippedCount(q: Queues, lost: seq<Job>, added: set<Job>, j: Job)
    requires Conserved(q, lost + [j], added)
    ensures Conserved(q.(parked := q.parked.(skipped := q.parked.skipped + [j])), lost, added)
  {
    var q' := q.(parked := q.parked.(skipped := q.parked.skipped + [j]));
    assert multiset(q.parked.skipped + [j]) == multiset(q.parked.skipped) + multiset{j};
    assert Running(q') == Running(q);
    OneFiled(AllJobs(q), lost, j);
    assert AllJobs(q') == AllJobs(q) + multiset{j};
  }

  // ----- A job that ends unsuccessfully: it leaves its queue, is counted, and is filed at the end -----

  /** j has left the running queues as failed and is counted, but is not filed yet. */
  ghost predicate Failing(c: Config, q: Queues, lost: seq<Job>, added: set<Job>, j: Job) {
    && QCore(c, q, lost + [j], added) && q.parked.Status(j) == Failed
    && (!q.graceExit ==> q.errorCount <= c.limits.quit)
    && q.errorCount + |Running(q)| <= c.limits.quit + c.limits.jobs - 1
  }

  lemma BecomesFailing(c: Config, q: Queues, lost: seq<Job>, added: set<Job>, j: Job, q': Queues)
    requires QInv(c, q, lost, added) && Retired(q, j, Failed, q') && q'.errorCount == q.errorCount + 1
    ensures Failing(c, q', lost, added, j)
  {
    RetireKeeps(c, q, lost, added, j, Failed, q');
    assert q'.parked.status == q.parked.status[j := Failed];
  }

  lemma FailingSkips(c: Config, q: Queues, lost: seq<Job>, added: set<Job>, j: Job)
    requires Failing(c, q, lost, added, j)
    ensures Failing(c, SkippedBelow(c.g, q, j), lost, added, j)
  {
    SkipKeeps(c, q, lost + [j], added, j);
    SkipsLeaveFailed(c, q, j);
    assert Running(SkippedBelow(c.g, q, j)) == Running(q);
  }

  lemma SkipsLeaveFailed(c: Config, q: Queues, j: Job)
    requires c.Valid() && Waiting(c.g, q.parked) && q.parked.Status(j) == Failed
    ensures SkippedBelow(c.g, q, j).parked.Status(j) == Failed
  {
    SkipChildrenLaw(c.g, q.parked, j, c.g.Children(j));
    SkipsKeep(c.g, q.parked.status, SkippedBelow(c.g, q, j).parked.status, j);
  }

  lemma FailingExits(c: Config, q: Queues, lost: seq<Job>, added: set<Job>, j: Job)
    requires Failing(c, q, lost, added, j)
    ensures Failing(c, GracefulExit(q), lost, added, j) && FailuresBounded(c.limits, GracefulExit(q))
    ensures Failing(c, ExitedAtQuitCount(q, c.limits), lost, added, j) && FailuresBounded(c.limits, ExitedAtQuitCount(q, c.limits))
  {
    FailingStops(c, q, lost, added, j);
    BelowQuitCount(c, q);
  }

  lemma FailingStops(c: Config, q: Queues, lost: seq<Job>, added: set<Job>, j: Job)
    requires Failing(c, q, lost, added, j)
    ensures Failing(c, GracefulExit(q), lost, added, j) && FailuresBounded(c.limits, GracefulExit(q))
  {
    ExitKeeps(c, q, lost + [j], added);
    ExitStatus(c.g, q, j);
  }

  /** Exiting at the quit count is exiting, or being below it. */
  lemma BelowQuitCount(c: Config, q: Queues)
    ensures var r := ExitedAtQuitCount(q, c.limits);
            r == GracefulExit(q) || (r == q && q.errorCount < c.limits.quit)
    ensures q.errorCount < c.limits.quit && q.errorCount + |Running(q)| <= c.limits.quit + c.limits.jobs - 1 ==>
              FailuresBounded(c.limits, q)
  {
  }

  lemma FailingFiled(c: Config, q: Queues, lost: seq<Job>, added: set<Job>, j: Job)
    requires Failing(c, q, lost, added, j) && FailuresBounded(c.limits, q)
    ensures QInv(c, Finished(q, j), lost, added)
  {
    FinishKeeps(c, q, lost, added, j);
    assert Running(Finished(q, j)) == Running(q);
  }

  lemma SkipsLeaveBound(c: Config, q: Queues, j: Job)
    requires FailuresBounded(c.limits, q)
    ensures FailuresBounded(c.limits, SkippedBelow(c.g, q, j))
  {
    assert Running(SkippedBelow(c.g, q, j)) == Running(q);
  }

  /** Exit if too many errors were counted, then skip the dependents, then file. */
  lemma ExitSkipFile(c: Config, q: Queues, lost: seq<Job>, added: set<Job>, j: Job)
    requires Failing(c, q, lost, added, j)
    ensures QInv(c, Finished(SkippedBelow(c.g, ExitedAtQuitCount(q, c.limits), j), j), lost, added)
  {
    FailingExits(c, q, lost, added, j);
    SkipFile(c, ExitedAtQuitCount(q, c.limits), lost, added, j);
  }

  lemma SkipFile(c: Config, q: Queues, lost: seq<Job>, added: set<Job>, j: Job)
    requires Failing(c, q, lost, added, j) && FailuresBounded(c.limits, q)
    ensures QInv(c, Finished(SkippedBelow(c.g, q, j), j), lost, added)
  {
    FailingSkips(c, q, lost, added, j);
    SkipsLeaveBound(c, q, j);
    FailingFiled(c, SkippedBelow(c.g, q, j), lost, added, j);
  }

  /** Skip the dependents, then exit if too many errors were counted, then file. */
  lemma SkipExitFile(c: Config, q: Queues, lost: seq<Job>, added: set<Job>, j: Job)
    requires Failing(c, q, lost, added, j)
    ensures QInv(c, Finished(ExitedAtQuitCount(SkippedBelow(c.g, q, j), c.limits), j), lost, added)
  {
    FailingSkips(c, q, lost, added, j);
    ExitFile(c, SkippedBelow(c.g, q, j), lost, added, j);
  }

  lemma ExitFile(c: Config, q: Queues, lost: seq<Job>, added: set<Job>, j: Job)
    requires Failing(c, q, lost, added, j)
    ensures QInv(c, Finished(ExitedAtQuitCount(q, c.limits), j), lost, added)
    ensures QInv(c, Finished(GracefulExit(q), j), lost, added)
  {
    FailingExits(c, q, lost, added, j);
    FailingFiled(c, ExitedAtQuitCount(q, c.limits), lost, added, j);
    FailingFiled(c, GracefulExit(q), lost, added, j);
  }

  /** The job taken out of launching as failed. */
  function LaunchRetired(q: Queues, j: Job): Queues
    requires j in q.launching
  {
    q.(launching := RemoveFirst(q.launching, j), errorCount := q.errorCount + 1, parked := q.parked.Assign(j, Failed))
  }

  lemma LaunchFailedKeeps(c: Config, q: Queues, lost: seq<Job>, added: set<Job>, j: Job)
    requires QInv(c, q, lost, added) && j in q.launching
    ensures QInv(c, LaunchFailed(c.g, q, c.limits, j), lost, added)
  {
    LaunchFailing(c, q, lost, added, j);
    SkipExitFile(c, LaunchRetired(q, j), lost, added, j);
    LaunchFailedIs(c, q, j);
  }

  lemma LaunchFailing(c: Config, q: Queues, lost: seq<Job>, added: set<Job>, j: Job)
    requires QInv(c, q, lost, added) && j in q.launching
    ensures Failing(c, LaunchRetired(q, j), lost, added, j)
  {
    assert j in Running(q);
    BecomesFailing(c, q, lost, added, j, LaunchRetired(q, j));
  }

  lemma LaunchFailedIs(c: Config, q: Queues, j: Job)
    requires j in q.launching
    ensures LaunchFailed(c.g, q, c.limits, j)
         == Finished(ExitedAtQuitCount(SkippedBelow(c.g, LaunchRetired(q, j), j), c.limits), j)
  {
  }

  lemma ExitStatus(g: Graph, q: Queues, j: Job)
    requires Waiting(g, q.parked) && q.parked.Status(j).Completed()
    ensures GracefulExit(q).parked.Status(j) == q.parked.Status(j)
  {
    DrainedStep(g, q.parked);
    CompletedStays(q.parked.status, q.parked.Drained().status, j);
  }

  lemma LaunchedKeeps(c: Config, q: Queues, lost: seq<Job>, added: set<Job>, j: Job)
    requires QInv(c, q, lost, added) && q.launching == [j]
    ensures QInv(c, Launched(q, j), if q.threadActive then lost else lost + [j], added)
  {
    var q' := Launched(q, j);
    assert q'.launching == [];
    if q.threadActive {
      assert Running(q') == Running(q);
    } else {
      LostAtLaunch(c, q, lost, added, j);
    }
  }

  lemma LostAtLaunch(c: Config, q: Queues, lost: seq<Job>, added: set<Job>, j: Job)
    requires QInv(c, q, lost, added) && q.launching == [j]
    ensures QInv(c, q.(launching := []), lost + [j], added)
  {
    LostCount(q, lost, added, j);
    FewerFit(c, q, q.(launching := []));
  }

  lemma LostCount(q: Queues, lost: seq<Job>, added: set<Job>, j: Job)
    requires Conserved(q, lost, added) && q.launching == [j]
    ensures Conserved(q.(launching := []), lost + [j], added) && |Running(q.(launching := []))| == |Running(q)| - 1
  {
    var q' := q.(launching := []);
    RunningParts(q);
    RunningParts(q');
    OneFiled(AllJobs(q'), lost, j);
    assert AllJobs(q) == AllJobs(q') + multiset{j};
  }

  lemma FewerFit(c: Config, q: Queues, q': Queues)
    requires StatusesFit(c.g, q) && Admissible(c.limits, q) && q' == q.(launching := [])
    requires |Running(q')| == |Running(q)| - 1
    ensures StatusesFit(c.g, q') && Admissible(c.limits, q')
  {
    assert forall k | k in Running(q') :: k in Running(q);
  }

  lemma ClaimKeeps(c: Config, q: Queues, lost: seq<Job>, added: set<Job>, j: Job)
    requires QInv(c, q, lost, added)
    ensures QInv(c, TakeCompleted(q, j), lost, added)
  {
    if q.threadActive && j in q.active {
      var q' := TakeCompleted(q, j);
      RemoveFirstCount(q.active, j);
      assert multiset(q.finalizing + [j]) == multiset(q.finalizing) + multiset{j};
      assert multiset(Running(q')) == multiset(Running(q));
      SameMembers(Running(q), Running(q'));
    }
  }

  lemma SameMembers(s: seq<Job>, t: seq<Job>)
    requires multiset(s) == multiset(t)
    ensures |s| == |t| && (forall j | j in s :: j in t) && (forall j | j in t :: j in s)
  {
    assert |multiset(s)| == |s| && |multiset(t)| == |t|;
    forall j | j in s
      ensures j in t
    {
      assert j in multiset(t);
    }
    forall j | j in t
      ensures j in s
    {
      assert j in multiset(s);
    }
  }

  /** The end of a job: `status` is what its hooks left behind. */
  lemma CompleteKeeps(c: Config, q: Queues, lost: seq<Job>, added: set<Job>, j: Job, status: JobStatus)
    requires QInv(c, q, lost, added) && j in q.finalizing && status.Completed() && status != Skipped
    ensures QInv(c, Complete(c.g, Ended(q, j, status), c.limits, j), lost, added)
  {
    if status.Successful() {
      SuccessfulEnd(c, q, lost, added, j, status);
    } else {
      FailureFiled(c, q, lost, added, j);
      FailedEnd(c, Ended(q, j, Failed), lost, added, j);
    }
  }

  /** The status that the hooks leave behind. */
  function Ended(q: Queues, j: Job, status: JobStatus): Queues {
    q.(parked := q.parked.(status := q.parked.status[j := status]))
  }

  lemma SuccessfulEnd(c: Config, q: Queues, lost: seq<Job>, added: set<Job>, j: Job, status: JobStatus)
    requires QInv(c, q, lost, added) && j in q.finalizing && status.Successful()
    ensures QInv(c, Complete(c.g, Ended(q, j, status), c.limits, j), lost, added)
  {
    assert j in Running(q);
    var retired := Ended(q, j, status).(finalizing := RemoveFirst(q.finalizing, j));
    RetireKeeps(c, q, lost, added, j, status, retired);
    FinishKeeps(c, retired, lost, added, j);
    assert Running(Finished(retired, j)) == Running(retired);
    MovedOn(c, Finished(retired, j), lost, added);
    SuccessIs(c.g, Ended(q, j, status), c.limits, j);
  }

  lemma SuccessIs(g: Graph, q: Queues, limits: Limits, j: Job)
    requires j in q.finalizing && q.parked.Status(j).Successful()
    ensures var finished := Finished(q.(finalizing := RemoveFirst(q.finalizing, j)), j);
            Complete(g, q, limits, j) == finished.(parked := MoveTodoToReady(g, finished.parked))
  {
  }

  lemma FailedEnd(c: Config, q: Queues, lost: seq<Job>, added: set<Job>, j: Job)
    requires j in q.finalizing && !q.parked.Status(j).Successful() && QInv(c, FiledFailure(c, q, j), lost, added)
    ensures QInv(c, Complete(c.g, q, c.limits, j), lost, added)
  {
    MovedOn(c, FiledFailure(c, q, j), lost, added);
    CompleteIs(c, q, j);
  }

  /** The job taken out of finalizing and counted as a failure. */
  function FinalRetired(q: Queues, j: Job): Queues
    requires j in q.finalizing
  {
    q.(finalizing := RemoveFirst(q.finalizing, j), errorCount := q.errorCount + 1)
  }

  /** Everything that completing a failed job does before todo is looked at again. */
  function FiledFailure(c: Config, q: Queues, j: Job): Queues
    requires j in q.finalizing
  {
    Finished(SkippedBelow(c.g, ExitedAtQuitCount(FinalRetired(q, j), c.limits), j), j)
  }

  lemma FailureFiled(c: Config, q: Queues, lost: seq<Job>, added: set<Job>, j: Job)
    requires QInv(c, q, lost, added) && j in q.finalizing
    ensures QInv(c, FiledFailure(c, Ended(q, j, Failed), j), lost, added)
  {
    FinalFailing(c, q, lost, added, j);
    ExitSkipFile(c, FinalRetired(Ended(q, j, Failed), j), lost, added, j);
  }

  lemma FinalFailing(c: Config, q: Queues, lost: seq<Job>, added: set<Job>, j: Job)
    requires QInv(c, q, lost, added) && j in q.finalizing
    ensures Failing(c, FinalRetired(Ended(q, j, Failed), j), lost, added, j)
  {
    assert j in Running(q);
    BecomesFailing(c, q, lost, added, j, FinalRetired(Ended(q, j, Failed), j));
  }

  lemma MovedOn(c: Config, q: Queues, lost: seq<Job>, added: set<Job>)
    requires QInv(c, q, lost, added)
    ensures QInv(c, q.(parked := MoveTodoToReady(c.g, q.parked)), lost, added)
  {
    MoveKeeps(c, q, lost, added);
    assert Running(q.(parked := MoveTodoToReady(c.g, q.parked))) == Running(q);
  }

  /** Counting the failure and leaving finalizing commute. */
  lemma CompleteIs(c: Config, q: Queues, j: Job)
    requires j in q.finalizing && !q.parked.Status(j).Successful()
    ensures var finished := FiledFailure(c, q, j);
            Complete(c.g, q, c.limits, j) == finished.(parked := MoveTodoToReady(c.g, finished.parked))
  {
  }

  /** The job taken out of active as failed, its shutdown incomplete. */
  function ActiveRetired(q: Queues, j: Job): Queues
    requires j in q.active
  {
    q.(active := RemoveFirst(q.active, j), shutdownIncomplete := true, errorCount := q.errorCount + 1,
       parked := q.parked.Assign(j, Failed))
  }

  lemma RecordKeeps(c: Config, q: Queues, lost: seq<Job>, added: set<Job>, j: Job)
    requires QInv(c, q, lost, added) && j in q.active
    ensures QInv(c, RecordIncomplete(c.g, q, j), lost, added)
  {
    ActiveFailing(c, q, lost, added, j);
    ExitFile(c, SkippedBelow(c.g, ActiveRetired(q, j), j), lost, added, j);
    RecordIs(c, q, j);
  }

  lemma ActiveFailing(c: Config, q: Queues, lost: seq<Job>, added: set<Job>, j: Job)
    requires QInv(c, q, lost, added) && j in q.active
    ensures Failing(c, SkippedBelow(c.g, ActiveRetired(q, j), j), lost, added, j)
  {
    assert j in Running(q);
    BecomesFailing(c, q, lost, added, j, ActiveRetired(q, j));
    FailingSkips(c, ActiveRetired(q, j), lost, added, j);
  }

  lemma RecordIs(c: Config, q: Queues, j: Job)
    requires j in q.active
    ensures RecordIncomplete(c.g, q, j) == Finished(GracefulExit(SkippedBelow(c.g, ActiveRetired(q, j), j)), j)
  {
  }

  lemma KillKeeps(c: Config, q: Queues, lost: seq<Job>, added: set<Job>)
    requires QInv(c, q, lost, added)
    ensures QInv(c, Kill(q), lost, added)
  {
    DrainKeeps(c, q, lost, added, Kill(q));
    assert Running(Kill(q)) == Running(q);
  }
}
