/** `JobManager` of lib/job_lib.py: its fields, and its locked blocks as methods. Each method is proved to
    take the abstract queues to what SchedulerSpec says. */
module JobManagers {
  import opened Wrappers
  import opened Jobs
  import opened SchedulerSpec
  import opened SchedulerLaws

  ghost function StatusMap(jobs: set<Job>): map<Job, JobStatus>
    reads jobs`jobstatus
  {
    map j | j in jobs :: j.jobstatus
  }

  class JobManager {
    const limits: Limits
    var todo: seq<Job>
    var ready: seq<Job>
    var launching: seq<Job>
    var active: seq<Job>
    var finalizing: seq<Job>
    var done: seq<Job>
    var skipped: seq<Job>
    var errorCount: nat
    var doneGraceExit: bool
    var exitedPrematurely: bool
    var runJobsThreadActive: bool
    var paused: bool
    var shutdownIncomplete: bool
    var interrupted: seq<Job>
    ghost const jobs: set<Job>  // every job that this run creates
    ghost const g: Graph

    ghost predicate Valid()
      reads this`todo, this`ready, this`done, jobs`dependencies, jobs`children, jobs`priority
    {
      && limits.jobs >= 1 && limits.quit >= 1
      && (forall j | j in todo :: j in jobs && j !in done)
      && (forall j | j in ready :: j in jobs && j !in done)
      && Sorted(g, todo) && Sorted(g, ready)
      && forall j | j in jobs && j !in done :: Matches(j)
    }

    /** The edges and the priority of a job do not change until it is done; a finished compile job may
        still gain the clones of its tests as dependents. */
    ghost predicate Matches(j: Job)
      reads j`dependencies, j`children, j`priority
    {
      && (forall d | d in j.dependencies :: d in jobs)
      && j.dependencies == g.Deps(j) && j.children == g.Children(j) && j.priority == g.Priority(j)
    }

    ghost function ParkedAbs(): Parked
      reads this`todo, this`ready, this`skipped, jobs`jobstatus
    {
      Parked(todo, ready, skipped, StatusMap(jobs))
    }

    ghost function Abs(): Queues
      reads this, jobs`jobstatus
    {
      Queues(ParkedAbs(), launching, active, finalizing, done, errorCount,
             doneGraceExit, exitedPrematurely, runJobsThreadActive, paused, shutdownIncomplete, interrupted)
    }

    constructor (limits: Limits, ghost jobs: set<Job>, ghost g: Graph)
      requires limits.jobs >= 1 && limits.quit >= 1
      requires forall j, d | j in jobs && d in j.dependencies :: d in jobs
      requires forall j | j in jobs :: j.dependencies == g.Deps(j) && j.children == g.Children(j) && j.priority == g.Priority(j)
      ensures Valid() && this.limits == limits && this.jobs == jobs && this.g == g
      ensures Abs() == Queues(Parked([], [], [], StatusMap(jobs)), [], [], [], [], 0, false, false, true, false, false, [])
    {
      this.limits := limits;
      this.jobs := jobs;
      this.g := g;
      todo, ready, launching, active, finalizing, done, skipped := [], [], [], [], [], [], [];
      errorCount := 0;
      doneGraceExit, exitedPrematurely, runJobsThreadActive, paused, shutdownIncomplete := false, false, true, false, false;
      interrupted := [];
    }

    /** The option checks that __init__ makes before anything else. */
    static method Create(idlePrintSeconds: int, activeJobLimit: int, quitCount: int, ghost jobs: set<Job>, ghost g: Graph)
      returns (r: Result<JobManager>)
      requires forall j, d | j in jobs && d in j.dependencies :: d in jobs
      requires forall j | j in jobs :: j.dependencies == g.Deps(j) && j.children == g.Children(j) && j.priority == g.Priority(j)
      ensures r.Ok? <==> idlePrintSeconds >= 1 && activeJobLimit >= 1 && quitCount >= 1
      ensures r.Ok? ==> fresh(r.value) && r.value.Valid() && r.value.limits == Limits(activeJobLimit, quitCount)
    {
      if idlePrintSeconds < 1 {
        return Err("idle_print_seconds must be positive");
      }
      if activeJobLimit < 1 {
        return Err("active_job_limit must be positive");
      }
      if quitCount < 1 {
        return Err("quit_count must be positive");
      }
      var manager := new JobManager(Limits(activeJobLimit, quitCount), jobs, g);
      return Ok(manager);
    }

    /** A status assignment by the scheduler or by one of the job's hooks. */
    method AssignStatus(job: Job, next: JobStatus) returns (raised: bool)
      requires job in jobs
      modifies job`jobstatus
      ensures ParkedAbs() == old(ParkedAbs().Assign(job, next))
      ensures raised == old(ParkedAbs().Status(job).Update(next).Err?)
      ensures raised ==> ParkedAbs() == old(ParkedAbs())
    {
      raised := job.SetStatus(next);
      assert StatusMap(jobs) == old(ParkedAbs().Assign(job, next)).status;
      assert raised ==> StatusMap(jobs) == old(StatusMap(jobs));
    }

    method RemoveTodo(child: Job)
      requires Valid() && child in todo
      modifies this`todo
      ensures Valid() && todo == RemoveFirst(old(todo), child)
      ensures |todo| < |old(todo)| && (forall j | j in todo :: j in old(todo))
    {
      SortedRemove(g, todo, child);
      todo := RemoveFirst(todo, child);
    }

    /** The guarded block for one dependent: a refused status change leaves it out of both lists. */
    method SkipQueued(child: Job) returns (moved: bool)
      requires Valid() && child in todo
      modifies this`todo, this`skipped, child`jobstatus
      ensures Valid() && |todo| < |old(todo)| && (forall j | j in todo :: j in old(todo))
      ensures moved == old(ParkedAbs().Status(child).Update(Skipped).Ok?)
      ensures ParkedAbs() == if moved then Moved(old(ParkedAbs()), child) else Dropped(old(ParkedAbs()), child)
    {
      RemoveTodo(child);
      var raised := AssignStatus(child, Skipped);
      moved := !raised;
      if moved {
        FileSkipped(child);
      }
    }

    method FileSkipped(child: Job)
      modifies this`skipped
      ensures skipped == old(skipped) + [child] && ParkedAbs() == old(ParkedAbs()).(skipped := skipped)
    {
      skipped := skipped + [child];
    }

    method MoveChildrenToSkipped(job: Job)
      requires Valid() && job in jobs && job !in done
      modifies this`todo, this`skipped, jobs`jobstatus
      ensures Valid() && |todo| <= |old(todo)| && (forall j | j in todo :: j in old(todo))
      ensures ParkedAbs() == SkipChildren(g, old(ParkedAbs()), job.children)
      decreases |todo|
    {
      ghost var p := ParkedAbs();
      var i := 0;
      assert job.children[0..] == job.children;
      while i < |job.children|
        invariant 0 <= i <= |job.children|
        invariant Valid() && |todo| <= |old(todo)| && (forall j | j in todo :: j in old(todo))
        invariant SkipChildren(g, ParkedAbs(), job.children[i..]) == SkipChildren(g, p, job.children)
      {
        var child := job.children[i];
        ghost var was, kids := ParkedAbs(), job.children[i..];
        assert kids[1..] == job.children[i + 1..];
        SkipUnfolds(g, was, kids);
        if child in todo {
          var moved := SkipQueued(child);
          if moved {
            MoveChildrenToSkipped(child);
          }
        }
        assert SkipChildren(g, was, kids) == SkipChildren(g, ParkedAbs(), kids[1..]);
        i := i + 1;
      }
      assert job.children[i..] == [];
    }

    /** bisect.insort_right on a list that is sorted by priority. */
    method InsortRight(s: seq<Job>, job: Job) returns (r: seq<Job>)
      requires Valid() && job in jobs && job !in done
      requires Sorted(g, s) && forall j | j in s :: j in jobs && j !in done
      ensures r == InsertRight(g, s, job)
      ensures Sorted(g, r) && forall j | j in r :: j in jobs && j !in done
    {
      var lo, hi := 0, |s|;
      while lo < hi
        invariant 0 <= lo <= hi <= |s|
        invariant forall k | 0 <= k < lo :: g.Priority(s[k]) <= g.Priority(job)
        invariant forall k | hi <= k < |s| :: g.Priority(job) < g.Priority(s[k])
      {
        var mid := (lo + hi) / 2;
        assert s[mid] in s;
        if job.priority < s[mid].priority {
          hi := mid;
        } else {
          lo := mid + 1;
        }
      }
      r := s[..lo] + [job] + s[lo..];
      RightIndexUnique(g, s, g.Priority(job), lo);
      SortedInsert(g, s, job);
    }

    method DependenciesDone(job: Job) returns (b: bool)
      requires Valid() && job in todo
      ensures b == DependenciesCompleted(g, StatusMap(jobs), job)
    {
      assert Matches(job);
      b := forall d | d in job.dependencies :: d.jobstatus.Completed();
    }

    method DependenciesPassed(job: Job) returns (b: bool)
      requires Valid() && job in todo
      ensures b == DependenciesSuccessful(g, StatusMap(jobs), job)
    {
      assert Matches(job);
      b := forall d | d in job.dependencies :: d.jobstatus.Successful();
    }

    /** One pass over todo: the positions that advance are noted first and popped in reverse afterwards. */
    method MoveTodoToReady()
      requires Valid()
      modifies this`todo, this`ready, this`skipped, jobs`jobstatus
      ensures Valid()
      ensures ParkedAbs() == SchedulerSpec.MoveTodoToReady(g, old(ParkedAbs()))
    {
      var advanced := AdvanceJobs();
      PopAll(advanced);
    }

    /** The loop over todo. */
    method AdvanceJobs() returns (advanced: seq<nat>)
      requires Valid()
      modifies this`ready, this`skipped, jobs`jobstatus
      ensures Valid() && Increasing(advanced, |todo|)
      ensures ParkedAbs().(todo := Kept(todo, advanced, 0, |todo|)) == Pass(g, old(ParkedAbs()), todo, [])
    {
      ghost var start := ParkedAbs();
      advanced := [];
      var i: nat := 0;
      assert todo[0..] == todo;
      while i < |todo|
        invariant 0 <= i <= |todo| && Valid() && Increasing(advanced, i)
        invariant Pass(g, ParkedAbs(), todo[i..], Kept(todo, advanced, 0, i)) == Pass(g, start, todo, [])
      {
        PassRound(g, ParkedAbs(), todo, advanced, i);
        var advances := AdvanceJob(todo[i]);
        if advances {
          advanced := advanced + [i];
        }
        i := i + 1;
      }
      PassEnds(g, ParkedAbs(), todo, advanced);
    }

    /** Pop the noted positions, the last one first. */
    method PopAll(advanced: seq<nat>)
      requires Valid()
      requires Increasing(advanced, |todo|)
      modifies this`todo
      ensures Valid() && todo == Kept(old(todo), advanced, 0, |old(todo)|)
    {
      ghost var s, b := todo, |todo|;
      var k := |advanced|;
      while k > 0
        invariant 0 <= k <= |advanced| && 0 <= b <= |s|
        invariant b == if k < |advanced| then advanced[k] else |s|
        invariant todo == s[..b] + Kept(s, advanced, b, |s|)
        invariant Valid()
      {
        k := k - 1;
        var at := advanced[k];
        SortedDelete(g, todo, at);
        KeptPop(s, advanced, at, b);
        todo := todo[..at] + todo[at + 1..];
        b := at;
      }
      KeptAll(s, advanced, 0, b);
      KeptSplits(s, advanced, 0, b, |s|);
    }

    /** What happens to a todo job, short of leaving todo. */
    method AdvanceJob(job: Job) returns (advances: bool)
      requires Valid() && job in todo
      modifies this`ready, this`skipped, job`jobstatus
      ensures Valid()
      ensures advances == DependenciesCompleted(g, old(StatusMap(jobs)), job)
      ensures ParkedAbs() == if advances then Advance(g, old(ParkedAbs()), job) else old(ParkedAbs())
    {
      advances := DependenciesDone(job);
      if !advances {
        return;
      }
      var allDependenciesPassed := DependenciesPassed(job);
      if allDependenciesPassed {
        InsertReady(job);
      } else {
        SkipForDependency(job);
      }
    }

    method InsertReady(job: Job)
      requires Valid() && job in todo
      modifies this`ready
      ensures Valid() && ready == InsertRight(g, old(ready), job)
    {
      ready := InsortRight(ready, job);
    }

    method SkipForDependency(job: Job)
      requires Valid() && job in jobs
      modifies this`skipped, job`jobstatus
      ensures Valid() && ParkedAbs() == old(ParkedAbs()).Skip(job)
    {
      skipped := skipped + [job];
      var _ := AssignStatus(job, Skipped);
    }

    method CanLaunch(job: Job) returns (b: bool)
      ensures b == SchedulerSpec.CanLaunch(Abs(), limits, job)
      ensures b <==> if job.exclusive then active == [] && launching == []
                     else |active| + |launching| < limits.jobs && (forall r | r in active + launching :: !r.exclusive)
    {
      var running := active + launching;
      if job.exclusive {
        return |running| == 0;
      }
      if exists r | r in running :: r.exclusive {
        return false;
      }
      return |running| < limits.jobs;
    }

    method TakeReadyJob() returns (taken: Option<Job>)
      requires Valid()
      modifies this`ready, this`launching
      ensures Valid()
      ensures taken == Choice(old(Abs()), limits) && Abs() == TakeReady(old(Abs()), limits)
    {
      if paused {
        return None;
      }
      var index := FindLaunchable();
      if index == |ready| {
        return None;
      }
      taken := Some(ready[index]);
      TakeAt(index);
    }

    /** The loop over ready. */
    method FindLaunchable() returns (index: nat)
      ensures index == FirstLaunchable(Abs(), limits, 0)
    {
      index := 0;
      while index < |ready|
        invariant 0 <= index <= |ready|
        invariant FirstLaunchable(Abs(), limits, 0) == FirstLaunchable(Abs(), limits, index)
      {
        var launchable := CanLaunch(ready[index]);
        if launchable {
          return;
        }
        index := index + 1;
      }
    }

    method TakeAt(index: nat)
      requires Valid() && index < |ready|
      modifies this`ready, this`launching
      ensures Valid()
      ensures ready == old(ready[..index] + ready[index + 1..]) && launching == old(launching + [ready[index]])
    {
      SortedDelete(g, ready, index);
      launching := launching + [ready[index]];
      ready := ready[..index] + ready[index + 1..];
    }

    method SkipIfUnfinished(job: Job)
      requires job in jobs
      modifies job`jobstatus
      ensures ParkedAbs() == old(ParkedAbs()).SkipUnfinished(job)
    {
      if !job.jobstatus.Completed() {
        var _ := AssignStatus(job, Skipped);
      }
    }

    /** Mark every listed job that has not completed as skipped. */
    method SkipUnfinished(list: seq<Job>)
      requires forall j | j in list :: j in jobs
      modifies jobs`jobstatus
      ensures ParkedAbs() == old(ParkedAbs()).SkipAll(list)
    {
      var i := 0;
      assert list[0..] == list;
      while i < |list|
        invariant 0 <= i <= |list|
        invariant ParkedAbs().SkipAll(list[i..]) == old(ParkedAbs()).SkipAll(list)
      {
        assert list[i..][0] == list[i] && list[i..][1..] == list[i + 1..];
        SkipIfUnfinished(list[i]);
        i := i + 1;
      }
    }

    /** Everything still queued is skipped: the common tail of a graceful exit and of a kill. */
    method DrainQueues()
      requires Valid()
      modifies this`todo, this`ready, this`skipped, jobs`jobstatus
      ensures Valid() && todo == [] && ready == []
      ensures Abs() == var q := old(Abs()); q.(parked := q.parked.Drained())
    {
      SkipUnfinished(todo + ready);
      EmptyQueues();
    }

    method EmptyQueues()
      requires Valid()
      modifies this`todo, this`ready, this`skipped
      ensures Valid() && todo == [] && ready == []
      ensures ParkedAbs() == var p := old(ParkedAbs()); p.(skipped := p.skipped + p.todo + p.ready, todo := [], ready := [])
    {
      skipped := skipped + todo;
      todo := [];
      skipped := skipped + ready;
      ready := [];
    }

    method GracefulExit()
      requires Valid()
      modifies this`todo, this`ready, this`skipped, this`exitedPrematurely, this`doneGraceExit, jobs`jobstatus
      ensures Valid() && (todo == old(todo) || todo == []) && (ready == old(ready) || ready == [])
      ensures Abs() == SchedulerSpec.GracefulExit(old(Abs()))
    {
      if doneGraceExit {
        return;
      }
      MarkExit();
      DrainQueues();
    }

    method MarkExit()
      modifies this`exitedPrematurely, this`doneGraceExit
      ensures Abs() == old(Abs()).(exitedPrematurely := true, graceExit := true)
    {
      exitedPrematurely := true;
      doneGraceExit := true;
    }

    method ExitAtQuitCount()
      requires Valid()
      modifies this`todo, this`ready, this`skipped, this`exitedPrematurely, this`doneGraceExit, jobs`jobstatus
      ensures Valid() && (todo == old(todo) || todo == []) && (ready == old(ready) || ready == [])
      ensures Abs() == ExitedAtQuitCount(old(Abs()), limits)
    {
      if errorCount >= limits.quit {
        GracefulExit();
      }
    }

    /** A job that arrives after the exit or the shutdown goes straight to skipped, its status untouched. */
    method AddJob(job: Job)
      requires Valid() && job in jobs && job !in done
      modifies this`todo, this`skipped
      ensures Valid() && Abs() == SchedulerSpec.AddJob(g, old(Abs()), job)
    {
      if !doneGraceExit && runJobsThreadActive {
        todo := InsortRight(todo, job);
        assert ParkedAbs() == old(ParkedAbs()).(todo := todo);
      } else {
        skipped := skipped + [job];
        assert ParkedAbs() == old(ParkedAbs()).(skipped := skipped);
      }
    }

    method LaunchCancelled(job: Job)
      requires Valid() && job in jobs
      modifies this`launching, this`skipped, job`jobstatus
      ensures Valid() && Abs() == SchedulerSpec.LaunchCancelled(old(Abs()), job)
    {
      SkipIfUnfinished(job);
      FileCancelled(job);
    }

    method FileCancelled(job: Job)
      requires Valid()
      modifies this`launching, this`skipped
      ensures Valid() && Abs() == var q := old(Abs());
                q.(launching := if job in q.launching then RemoveFirst(q.launching, job) else q.launching,
                   parked := q.parked.(skipped := q.parked.skipped + [job]))
    {
      if job in launching {
        launching := RemoveFirst(launching, job);
      }
      skipped := skipped + [job];
    }

    /** A failure before the subprocess started: the job is done, its dependents are skipped. */
    method LaunchFailed(job: Job)
      requires Valid() && Unqueued(job) && job in launching
      modifies this`todo, this`ready, this`skipped, this`exitedPrematurely, this`doneGraceExit, this`errorCount
      modifies this`launching, this`done, jobs`jobstatus
      ensures Valid() && Abs() == SchedulerSpec.LaunchFailed(g, old(Abs()), limits, job)
      ensures done == old(done) + [job]
    {
      CountLaunchFailure(job);
      ExitAtQuitCount();
      Finish(job);
    }

    method Finish(job: Job)
      requires Valid() && Unqueued(job)
      modifies this`done
      ensures Valid() && Abs() == Finished(old(Abs()), job)
    {
      done := done + [job];
    }

    ghost predicate Unqueued(job: Job)
      reads this`todo, this`ready, this`done
    {
      job in jobs && job !in done && job !in todo && job !in ready
    }

    method CountLaunchFailure(job: Job)
      requires Valid() && Unqueued(job) && job in launching
      modifies this`launching, this`errorCount, this`todo, this`skipped, jobs`jobstatus
      ensures Valid() && Unqueued(job) && Abs() == LaunchFailureCounted(g, old(Abs()), job)
    {
      FailWithDependents(job);
      LeaveLaunching(job);
    }

    method LeaveLaunching(job: Job)
      requires job in launching
      modifies this`launching, this`errorCount
      ensures Abs() == var q := old(Abs()); q.(launching := RemoveFirst(q.launching, job), errorCount := q.errorCount + 1)
    {
      launching := RemoveFirst(launching, job);
      errorCount := errorCount + 1;
    }

    method FailWithDependents(job: Job)
      requires Valid() && Unqueued(job)
      modifies this`todo, this`skipped, jobs`jobstatus
      ensures Valid() && Unqueued(job)
      ensures Abs() == var q := old(Abs()); q.(parked := SkipChildren(g, q.parked.Assign(job, Failed), g.Children(job)))
    {
      var _ := AssignStatus(job, Failed);
      SkipDependents(job);
    }

    /** The hand-over of a created runner; `cancelRunner` tells the caller to kill it again. */
    method Launched(job: Job) returns (cancelRunner: bool, pauseRunner: bool)
      requires Valid() && job in launching
      modifies this`launching, this`active
      ensures Valid() && Abs() == SchedulerSpec.Launched(old(Abs()), job)
      ensures active == if runJobsThreadActive then old(active) + [job] else old(active)
      ensures cancelRunner == !runJobsThreadActive && pauseRunner == (runJobsThreadActive && paused)
    {
      launching := RemoveFirst(launching, job);
      cancelRunner, pauseRunner := false, false;
      if runJobsThreadActive {
        active := active + [job];
        pauseRunner := paused;
      } else {
        cancelRunner := true;
      }
    }

    /** Claim a finished job; `claimed` tells whether its post_run hook follows. */
    method TakeCompleted(job: Job) returns (claimed: bool)
      requires Valid()
      modifies this`active, this`finalizing
      ensures Valid() && Abs() == SchedulerSpec.TakeCompleted(old(Abs()), job)
      ensures claimed == old(runJobsThreadActive && job in active)
    {
      if !runJobsThreadActive || job !in active {
        return false;
      }
      active := RemoveFirst(active, job);
      finalizing := finalizing + [job];
      return true;
    }

    method CountFailure(job: Job)
      requires Valid() && Unqueued(job)
      modifies this`todo, this`ready, this`skipped, this`exitedPrematurely, this`doneGraceExit, this`errorCount
      modifies jobs`jobstatus
      ensures Valid() && Unqueued(job) && Abs() == FailureCounted(g, old(Abs()), limits, job)
    {
      CountErrorAndExit(job);
      SkipDependents(job);
    }

    method CountErrorAndExit(ghost job: Job)
      requires Valid() && Unqueued(job)
      modifies this`todo, this`ready, this`skipped, this`exitedPrematurely, this`doneGraceExit, this`errorCount
      modifies jobs`jobstatus
      ensures Valid() && Unqueued(job)
      ensures Abs() == var q := old(Abs()); ExitedAtQuitCount(q.(errorCount := q.errorCount + 1), limits)
    {
      CountError();
      ExitAtQuitCount();
    }

    method CountError()
      modifies this`errorCount
      ensures Abs() == var q := old(Abs()); q.(errorCount := q.errorCount + 1)
    {
      errorCount := errorCount + 1;
    }

    method SkipDependents(job: Job)
      requires Valid() && Unqueued(job)
      modifies this`todo, this`skipped, jobs`jobstatus
      ensures Valid() && Unqueued(job)
      ensures Abs() == var q := old(Abs()); q.(parked := SkipChildren(g, q.parked, g.Children(job)))
    {
      assert Matches(job);
      MoveChildrenToSkipped(job);
    }

    method CompleteJob(job: Job)
      requires Valid() && Unqueued(job) && job in finalizing
      modifies this`todo, this`ready, this`skipped, this`exitedPrematurely, this`doneGraceExit, this`errorCount
      modifies this`finalizing, this`done, jobs`jobstatus
      ensures Valid() && Abs() == Complete(g, old(Abs()), limits, job)
      ensures done == old(done) + [job]
    {
      assert ParkedAbs().Status(job) == job.jobstatus;
      if !job.jobstatus.Successful() {
        CountFailure(job);
      }
      FinishFinalizing(job);
    }

    method FinishFinalizing(job: Job)
      requires Valid() && Unqueued(job) && job in finalizing
      modifies this`todo, this`ready, this`skipped, this`finalizing, this`done, jobs`jobstatus
      ensures Valid()
      ensures Abs() == var q := Finished(old(Abs()).(finalizing := RemoveFirst(old(Abs()).finalizing, job)), job);
                       q.(parked := SchedulerSpec.MoveTodoToReady(g, q.parked))
    {
      EndFinalizing(job);
      MoveTodoToReady();
    }

    method EndFinalizing(job: Job)
      requires Valid() && Unqueued(job) && job in finalizing
      modifies this`finalizing, this`done
      ensures Valid()
      ensures Abs() == var q := old(Abs()); Finished(q.(finalizing := RemoveFirst(q.finalizing, job)), job)
    {
      finalizing := RemoveFirst(finalizing, job);
      done := done + [job];
    }

    method RecordIncompleteShutdown(job: Job)
      requires Valid() && Unqueued(job)
      modifies this`todo, this`ready, this`skipped, this`exitedPrematurely, this`doneGraceExit, this`errorCount
      modifies this`active, this`shutdownIncomplete, this`done, jobs`jobstatus
      ensures Valid() && Abs() == RecordIncomplete(g, old(Abs()), job)
    {
      if job !in active {
        var _ := AssignStatus(job, Failed);
        return;
      }
      CountIncomplete(job);
      GracefulExit();
      Finish(job);
    }

    method CountIncomplete(job: Job)
      requires Valid() && Unqueued(job) && job in active
      modifies this`active, this`errorCount, this`shutdownIncomplete, this`todo, this`skipped, jobs`jobstatus
      ensures Valid() && Unqueued(job) && Abs() == IncompleteCounted(g, old(Abs()), job)
    {
      FailWithDependents(job);
      LeaveActive(job);
    }

    method LeaveActive(job: Job)
      requires job in active
      modifies this`active, this`shutdownIncomplete, this`errorCount
      ensures Abs() == var q := old(Abs());
                       q.(active := RemoveFirst(q.active, job), shutdownIncomplete := true, errorCount := q.errorCount + 1)
    {
      active := RemoveFirst(active, job);
      shutdownIncomplete := true;
      errorCount := errorCount + 1;
    }

    /** The first block of kill: no hook and no process is touched under the lock. */
    method Kill() returns (activeJobs: seq<Job>)
      requires Valid()
      modifies this`todo, this`ready, this`skipped, this`exitedPrematurely, this`runJobsThreadActive, this`paused
      modifies this`interrupted, jobs`jobstatus
      ensures Valid() && Abs() == SchedulerSpec.Kill(old(Abs())) && activeJobs == old(active)
    {
      activeJobs := active;
      MarkShutdown();
      DrainQueues();
    }

    method MarkShutdown()
      modifies this`exitedPrematurely, this`runJobsThreadActive, this`paused, this`interrupted
      ensures Abs() == old(Abs()).(exitedPrematurely := true, threadActive := false, paused := false,
                                   interrupted := launching + active + finalizing)
    {
      exitedPrematurely := true;
      runJobsThreadActive := false;
      paused := false;
      interrupted := launching + active + finalizing;
    }

    /** The condition under which wait() returns. */
    method Idle() returns (b: bool)
      ensures b == LiveEmpty(Abs())
    {
      b := |todo| == 0 && |ready| == 0 && |launching| == 0 && |active| == 0 && |finalizing| == 0;
    }

    method Pause() returns (activeJobs: seq<Job>)
      modifies this`paused
      ensures Abs() == if old(runJobsThreadActive) then old(Abs()).(paused := true) else old(Abs())
      ensures activeJobs == if old(runJobsThreadActive) then active else []
    {
      if !runJobsThreadActive {
        return [];
      }
      paused := true;
      return active;
    }

    method Resume() returns (activeJobs: seq<Job>)
      modifies this`paused
      ensures Abs() == old(Abs()).(paused := false) && activeJobs == active
    {
      paused := false;
      return active;
    }

    method Stop()
      modifies this`runJobsThreadActive
      ensures Abs() == old(Abs()).(threadActive := false)
    {
      runJobsThreadActive := false;
    }

    method Interrupted() returns (r: seq<Job>)
      ensures r == InterruptedJobs(Abs())
    {
      r := Without(interrupted, done);
    }
  }

  /** The entries of s at positions lo up to hi that are not in `gone`. */
  ghost function Kept(s: seq<Job>, gone: seq<nat>, lo: nat, hi: nat): seq<Job>
    requires lo <= hi <= |s|
    decreases hi - lo
  {
    if lo == hi then [] else (if lo in gone then [] else [s[lo]]) + Kept(s, gone, lo + 1, hi)
  }

  lemma {:induction false} KeptUpTo(s: seq<Job>, gone: seq<nat>, lo: nat, hi: nat)
    requires lo <= hi < |s|
    ensures Kept(s, gone, lo, hi + 1) == Kept(s, gone, lo, hi) + if hi in gone then [] else [s[hi]]
    decreases hi - lo
  {
    if lo < hi {
      KeptUpTo(s, gone, lo + 1, hi);
    } else {
      assert Kept(s, gone, lo + 1, hi + 1) == [];
    }
  }

  ghost predicate Increasing(positions: seq<nat>, bound: nat) {
    && (forall k | 0 <= k < |positions| :: positions[k] < bound)
    && (forall k, m | 0 <= k < m < |positions| :: positions[k] < positions[m])
  }

  lemma IncreasingNext(positions: seq<nat>, i: nat)
    requires Increasing(positions, i)
    ensures Increasing(positions, i + 1) && Increasing(positions + [i], i + 1)
  {
  }

  /** What one round of the pass leaves of the list. */
  lemma KeptNext(s: seq<Job>, gone: seq<nat>, i: nat)
    requires i < |s| && Increasing(gone, i)
    ensures Kept(s, gone + [i], 0, i + 1) == Kept(s, gone, 0, i)
    ensures Kept(s, gone, 0, i + 1) == Kept(s, gone, 0, i) + [s[i]]
  {
    KeptIgnores(s, gone, 0, i, i);
    KeptUpTo(s, gone + [i], 0, i);
    KeptUpTo(s, gone, 0, i);
  }

  lemma PassEnds(g: Graph, p: Parked, s: seq<Job>, gone: seq<nat>)
    ensures Pass(g, p, s[|s|..], Kept(s, gone, 0, |s|)) == p.(todo := Kept(s, gone, 0, |s|))
  {
  }

  /** One round of the pass, in terms of the noted positions. */
  lemma PassRound(g: Graph, p: Parked, s: seq<Job>, gone: seq<nat>, i: nat)
    requires i < |s| && Increasing(gone, i)
    ensures var advances := DependenciesCompleted(g, p.status, s[i]);
            var gone' := if advances then gone + [i] else gone;
            && Increasing(gone', i + 1)
            && Pass(g, if advances then Advance(g, p, s[i]) else p, s[i + 1..], Kept(s, gone', 0, i + 1))
               == Pass(g, p, s[i..], Kept(s, gone, 0, i))
  {
    assert s[i..][0] == s[i] && s[i..][1..] == s[i + 1..];
    KeptNext(s, gone, i);
    IncreasingNext(gone, i);
  }

  lemma {:induction false} KeptSplits(s: seq<Job>, gone: seq<nat>, lo: nat, mid: nat, hi: nat)
    requires lo <= mid <= hi <= |s|
    ensures Kept(s, gone, lo, hi) == Kept(s, gone, lo, mid) + Kept(s, gone, mid, hi)
    decreases mid - lo
  {
    if lo < mid {
      KeptSplits(s, gone, lo + 1, mid, hi);
    }
  }

  lemma {:induction false} KeptAll(s: seq<Job>, gone: seq<nat>, lo: nat, hi: nat)
    requires lo <= hi <= |s| && forall i | lo <= i < hi :: i !in gone
    ensures Kept(s, gone, lo, hi) == s[lo..hi]
    decreases hi - lo
  {
    if lo < hi {
      KeptAll(s, gone, lo + 1, hi);
    }
  }

  /** Popping the last noted position that is left. */
  lemma KeptPop(s: seq<Job>, gone: seq<nat>, at: nat, b: nat)
    requires at < b <= |s| && at in gone && forall i | at < i < b :: i !in gone
    ensures var t := s[..b] + Kept(s, gone, b, |s|);
            t[..at] + t[at + 1..] == s[..at] + Kept(s, gone, at, |s|)
  {
    KeptAll(s, gone, at + 1, b);
    KeptSplits(s, gone, at + 1, b, |s|);
  }

  lemma {:induction false} KeptIgnores(s: seq<Job>, gone: seq<nat>, lo: nat, hi: nat, i: nat)
    requires lo <= hi <= |s| && hi <= i
    ensures Kept(s, gone + [i], lo, hi) == Kept(s, gone, lo, hi)
    decreases hi - lo
  {
    if lo < hi {
      assert lo in gone + [i] <==> lo in gone;
      KeptIgnores(s, gone, lo + 1, hi, i);
    }
  }
}
