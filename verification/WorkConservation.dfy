/** The scheduler wastes no opportunity: what one round of its loop leaves waiting could not have moved on. The
    statuses, the room and the order are spelled out here, apart from the functions that decide them. */
module WorkConservation {
  import opened Jobs
  import opened SchedulerSpec
  import opened SchedulerLaws
  import opened QueueInvariant
  import opened SchedulerRuns
  import opened SchedulerSafety
  import opened Confluence

  /** There is room beside the active jobs: for an exclusive job only if there are none, for a parallel one if
      none is exclusive and the limit is not reached. */
  ghost predicate Room(limits: Limits, active: seq<Job>, j: Job) {
    if j.exclusive then active == [] else |active| < limits.jobs && forall r | r in active :: !r.exclusive
  }

  /** What one round may do to the queues: launch one job or none. */
  ghost predicate ConservesWork(c: Config, q: Queues, r: Queues) {
    && r.active == q.active && (q.paused ==> r.launching == [])
    && (r.launching == [] && !q.paused ==> forall j | j in r.parked.ready :: !Room(c.limits, q.active, j))
    && (forall j | j in r.launching :: r.launching == [j] && Room(c.limits, q.active, j))
    && (forall j, k | j in r.launching && k in r.parked.ready && Room(c.limits, q.active, k) ::
          c.g.Priority(j) <= c.g.Priority(k))
  }

  lemma RoomIsAdmission(c: Config, q: Queues, j: Job)
    requires q.launching == []
    ensures CanLaunch(q, c.limits, j) <==> Room(c.limits, q.active, j)
  {
    assert q.active + q.launching == q.active;
  }

  lemma TakingConserves(c: Config, q: Queues)
    requires q.launching == [] && Sorted(c.g, q.parked.ready)
    ensures ConservesWork(c, q, TakeReady(q, c.limits))
  {
    if Choice(q, c.limits).Some? {
      TakingOne(c, q);
    } else {
      TakingNone(c, q);
    }
  }

  lemma TakingNone(c: Config, q: Queues)
    requires q.launching == [] && Choice(q, c.limits).None?
    ensures ConservesWork(c, q, TakeReady(q, c.limits))
  {
    forall j | j in q.parked.ready
      ensures !q.paused ==> !Room(c.limits, q.active, j)
    {
      RoomIsAdmission(c, q, j);
    }
  }

  lemma TakingOne(c: Config, q: Queues)
    requires q.launching == [] && Sorted(c.g, q.parked.ready) && Choice(q, c.limits).Some?
    ensures ConservesWork(c, q, TakeReady(q, c.limits))
  {
    var r, j := TakeReady(q, c.limits), Choice(q, c.limits).value;
    TakeIsMinimal(c.g, q, c.limits);
    RoomIsAdmission(c, q, j);
    assert r.launching == [j] && r.active == q.active;
    forall k | k in r.parked.ready && Room(c.limits, q.active, k)
      ensures c.g.Priority(j) <= c.g.Priority(k)
    {
      RoomIsAdmission(c, q, k);
      assert k in q.parked.ready;
    }
  }

  /** What a round may do to the waiting jobs: one stays in todo only if a dependency has not ended, becomes ready
      only if all of them passed or were bypassed, and is skipped only because one failed or was skipped. */
  ghost predicate Settles(c: Config, p: Parked, r: Queues) {
    && (forall j | j in r.parked.todo :: exists d :: d in c.g.Deps(j) && r.parked.Status(d) in {NotStarted, ToBeBypassed})
    && (forall j | j in r.parked.ready :: forall d | d in c.g.Deps(j) :: r.parked.Status(d) in {Passed, Bypassed})
    && (forall j | j in r.launching :: forall d | d in c.g.Deps(j) :: r.parked.Status(d) in {Passed, Bypassed})
    && (forall j | j in r.parked.skipped && j !in p.skipped ::
          && r.parked.Status(j) == Skipped
          && exists d :: d in c.g.Deps(j) && r.parked.Status(d) in {Failed, Skipped})
  }

  lemma RefillSettles(c: Config, q: Queues)
    requires WellFormed(c.g) && Waiting(c.g, q.parked) && q.launching == []
    ensures Settles(c, q.parked, Refilled(c, q)) && Sorted(c.g, Refilled(c, q).parked.ready)
  {
    MoveTodoToReadyLaw(c.g, q.parked);
    PassSettles(c.g, q.parked);
    var r := Refilled(c, q);
    forall j | j in r.parked.skipped && j !in q.parked.skipped
      ensures r.parked.Status(j) == Skipped && exists d :: d in c.g.Deps(j) && r.parked.Status(d) in {Failed, Skipped}
    {
      NewlySkipped(c, q.parked, r.parked, j);
    }
  }

  /** Taking a job moves it, and nothing else. */
  lemma TakingSettles(c: Config, p: Parked, q: Queues)
    requires q.launching == [] && Settles(c, p, q)
    ensures Settles(c, p, TakeReady(q, c.limits))
  {
    TakingMoves(q, c.limits);
  }

  lemma TakingMoves(q: Queues, limits: Limits)
    requires q.launching == []
    ensures var r := TakeReady(q, limits);
            && r.parked == q.parked.(ready := r.parked.ready)
            && (forall j | j in r.parked.ready :: j in q.parked.ready) && (forall j | j in r.launching :: j in q.parked.ready)
  {
  }

  /** A round of the scheduler loop from s. */
  ghost predicate Round(c: Config, s: State, t: State) {
    s.pc == Top && s.q.threadActive && t == Apply(c, s, Cycle)
  }

  lemma RoundCycles(c: Config, s: State, t: State)
    requires PcFits(c, s) && Round(c, s, t)
    ensures s.q.launching == [] && t.q == TakeReady(Refilled(c, s.q), c.limits) && Refilled(c, s.q).launching == []
  {
  }

  /** Work conservation, admission and priority in one. Whatever happened before, a round that is paused launches
      nothing; one that launches nothing though it is not paused leaves no ready job for which there is room; and
      the job that is launched has room, and no ready job with room has a smaller priority. */
  lemma RoundsConserveWork(c: Config, start: State, run: seq<Label>, t: State)
    requires c.Valid() && Initial(start) && Legal(c, start, run) && Round(c, After(c, start, run), t)
    ensures ConservesWork(c, After(c, start, run).q, t.q)
  {
    ReachedInv(c, start, run);
    var s := After(c, start, run);
    RoundCycles(c, s, t);
    RefillSettles(c, s.q);
    TakingConserves(c, Refilled(c, s.q));
  }

  /** No waiting job is overlooked: every round settles what waits. */
  lemma RoundsSettleTodo(c: Config, start: State, run: seq<Label>, t: State)
    requires c.Valid() && Initial(start) && Legal(c, start, run) && Round(c, After(c, start, run), t)
    ensures Settles(c, After(c, start, run).q.parked, t.q)
  {
    ReachedInv(c, start, run);
    var s := After(c, start, run);
    RoundCycles(c, s, t);
    RefillSettles(c, s.q);
    TakingSettles(c, s.q.parked, Refilled(c, s.q));
  }

  /** What the scheduler thread does after a round: it launches the job that it took, else asks every active job's
      runner in turn, and only with nothing to do it waits. */
  lemma RoundsAskEveryRunner(c: Config, start: State, run: seq<Label>, t: State)
    requires c.Valid() && Initial(start) && Legal(c, start, run) && Round(c, After(c, start, run), t)
    ensures t.pc == if t.q.launching != [] then Launching(t.q.launching[0])
                    else if t.q.active == [] then Idle(false) else Polling(t.q.active)
  {
    ReachedInv(c, start, run);
    RoundCycles(c, After(c, start, run), t);
    TakenParted(Refilled(c, After(c, start, run).q), c.limits);
  }

  lemma TakenParted(q: Queues, limits: Limits)
    requires q.launching == []
    ensures var choice := Choice(q, limits);
            TakeReady(q, limits).launching == if choice.Some? then [choice.value] else []
  {
  }

  /** So does every end of a job that causes no exit: what it makes possible, or impossible, is settled at once. */
  lemma EndsSettleTodo(c: Config, start: State, run: seq<Label>, j: Job, status: JobStatus)
    requires c.Valid() && Initial(start) && Legal(c, start, run) && Enabled(c, After(c, start, run), Finish(j, status))
    requires Open(Apply(c, After(c, start, run), Finish(j, status)).q)
    ensures var p := Apply(c, After(c, start, run), Finish(j, status)).q.parked;
            && (forall k | k in p.todo :: exists d :: d in c.g.Deps(k) && p.Status(d) in {NotStarted, ToBeBypassed})
            && (forall k | k in p.ready :: forall d | d in c.g.Deps(k) :: p.Status(d) in {Passed, Bypassed})
  {
    ReachedInv(c, start, run);
    var s := After(c, start, run);
    EndedWaiting(c, s.q, s.lost, s.added, j, status);
    EndedPass(c, Ended(s.q, j, status), j);
  }

  lemma EndedPass(c: Config, q: Queues, j: Job)
    requires c.Valid() && Waiting(c.g, q.parked) && j in q.finalizing && q.parked.Status(j).Completed()
    requires Open(Complete(c.g, q, c.limits, j))
    ensures var p := Complete(c.g, q, c.limits, j).parked;
            && (forall k | k in p.todo :: exists d :: d in c.g.Deps(k) && p.Status(d) in {NotStarted, ToBeBypassed})
            && (forall k | k in p.ready :: forall d | d in c.g.Deps(k) :: p.Status(d) in {Passed, Bypassed})
  {
    CompleteParked(c, q, j);
    if !q.parked.Status(j).Successful() {
      SkipChildrenLaw(c.g, q.parked, j, c.g.Children(j));
    }
    PassSettles(c.g, if q.parked.Status(j).Successful() then q.parked else SkipChildren(c.g, q.parked, c.g.Children(j)));
  }

  lemma PassSettles(g: Graph, p: Parked)
    requires WellFormed(g) && Waiting(g, p)
    ensures var r := MoveTodoToReady(g, p);
            && (forall k | k in r.todo :: exists d :: d in g.Deps(k) && r.Status(d) in {NotStarted, ToBeBypassed})
            && (forall k | k in r.ready :: forall d | d in g.Deps(k) :: r.Status(d) in {Passed, Bypassed})
  {
    MoveTodoToReadyLaw(g, p);
    var r := MoveTodoToReady(g, p);
    forall k | k in r.todo
      ensures exists d :: d in g.Deps(k) && r.Status(d) in {NotStarted, ToBeBypassed}
    {
      var d :| d in g.Deps(k) && !r.Status(d).Completed();
      assert r.Status(d) in {NotStarted, ToBeBypassed};
    }
  }

  lemma NewlySkipped(c: Config, p: Parked, r: Parked, j: Job)
    requires WellFormed(c.g) && Waiting(c.g, p) && r == MoveTodoToReady(c.g, p) && j in r.skipped && j !in p.skipped
    ensures r.Status(j) == Skipped && exists d :: d in c.g.Deps(j) && r.Status(d) in {Failed, Skipped}
  {
    MoveTodoToReadyLaw(c.g, p);
    MoveTodoStep(c.g, p);
    WasParked(p, r, j);
    SkippedForDependency(c.g, p, r, j);
  }

  lemma SkippedForDependency(g: Graph, p: Parked, r: Parked, j: Job)
    requires SkipsJustified(g, p.status, r.status) && p.Status(j).Pending() && r.Status(j).Completed()
    ensures r.Status(j) == Skipped && exists d :: d in g.Deps(j) && r.Status(d) in {Failed, Skipped}
  {
    assert j in r.status;
    var d :| d in g.Deps(j) && Unsuccessful(r.status, d);
    assert r.Status(d) in {Failed, Skipped};
  }

  /** A job that is newly in skipped waited in todo or in ready before. */
  lemma WasParked(p: Parked, r: Parked, j: Job)
    requires ParkedJobs(r) == ParkedJobs(p) && j in r.skipped && j !in p.skipped
    ensures j in p.todo || j in p.ready
  {
    assert j in multiset(r.skipped) && j in ParkedJobs(r) && j in ParkedJobs(p);
    assert j !in multiset(p.skipped);
    assert j in multiset(p.todo) || j in multiset(p.ready);
  }
}
