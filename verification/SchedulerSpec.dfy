/** The scheduler's queue transitions as pure functions: what each block that lib/job_lib.py runs under
    `JobManager._condition` makes of the seven queues. The class in JobManagers.dfy is proved to compute
    exactly these; the laws and runs are proved about these. */
module SchedulerSpec {
  import opened Wrappers
  import opened Jobs

  /** The dependency graph with the priorities that the jobs have when they are queued. */
  datatype Graph = Graph(deps: map<Job, seq<Job>>, children: map<Job, seq<Job>>, priority: map<Job, int>) {
    function Deps(j: Job): seq<Job> {
      if j in deps then deps[j] else []
    }

    function Children(j: Job): seq<Job> {
      if j in children then children[j] else []
    }

    function Priority(j: Job): int {
      if j in priority then priority[j] else BASE_PRIORITY
    }
  }

  /** `active_job_limit` and `quit_count`, both at least 1. */
  datatype Limits = Limits(jobs: nat, quit: nat)

  /** A job's status; one that has none recorded has not started. */
  function StatusIn(status: map<Job, JobStatus>, j: Job): JobStatus {
    if j in status then status[j] else NotStarted
  }

  /** The queues of jobs that hold no process, and every job's status. */
  datatype Parked = Parked(todo: seq<Job>, ready: seq<Job>, skipped: seq<Job>, status: map<Job, JobStatus>) {
    function Status(j: Job): JobStatus {
      StatusIn(status, j)
    }

    /** The jobstatus setter: a refused transition raises and leaves the status as it was. */
    function Assign(j: Job, next: JobStatus): Parked {
      var update := Status(j).Update(next);
      this.(status := status[j := if update.Ok? then update.value else Status(j)])
    }

    function Skip(j: Job): Parked {
      Assign(j, Skipped).(skipped := skipped + [j])
    }

    function SkipUnfinished(j: Job): Parked {
      if Status(j).Completed() then this else Assign(j, Skipped)
    }

    /** Skip every one of the given jobs that has not completed. */
    function SkipAll(jobs: seq<Job>): Parked
      decreases |jobs|
    {
      if jobs == [] then this else SkipUnfinished(jobs[0]).SkipAll(jobs[1..])
    }

    /** Empty todo and ready into skipped. */
    function Drained(): Parked {
      SkipAll(todo + ready).(skipped := skipped + todo + ready, todo := [], ready := [])
    }
  }

  datatype Queues = Queues(
    parked: Parked,
    launching: seq<Job>, active: seq<Job>, finalizing: seq<Job>, done: seq<Job>,
    errorCount: nat,
    graceExit: bool,            // _done_grace_exit
    exitedPrematurely: bool,
    threadActive: bool,         // _run_jobs_thread_active
    paused: bool,
    shutdownIncomplete: bool,
    interrupted: seq<Job>)      // _interrupted_jobs

  /** list.remove of a present element. */
  function RemoveFirst(s: seq<Job>, j: Job): (r: seq<Job>)
    requires j in s
    ensures |r| == |s| - 1
    ensures forall k | k in r :: k in s
  {
    if s[0] == j then s[1..] else [s[0]] + RemoveFirst(s[1..], j)
  }

  /** bisect_right on a list sorted by priority: after the entries of lower or equal priority. */
  function RightIndex(g: Graph, s: seq<Job>, p: int): (i: nat)
    ensures i <= |s|
    ensures forall k | 0 <= k < i :: g.Priority(s[k]) <= p
    ensures i < |s| ==> p < g.Priority(s[i])
  {
    if s == [] || p < g.Priority(s[0]) then 0 else 1 + RightIndex(g, s[1..], p)
  }

  function InsertRight(g: Graph, s: seq<Job>, j: Job): seq<Job> {
    var i := RightIndex(g, s, g.Priority(j));
    s[..i] + [j] + s[i..]
  }

  /** The eager recursion through the dependents of a failed job (_move_children_to_skipped_locked):
      those still in todo are skipped together with everything below them. A dependent whose status
      refuses the change is dropped from todo and appears in no other list. */
  function SkipChildren(g: Graph, p: Parked, kids: seq<Job>): (r: Parked)
    ensures |r.todo| <= |p.todo| && r.ready == p.ready
    decreases |p.todo|, |kids|
  {
    if kids == [] then p
    else if kids[0] !in p.todo then SkipChildren(g, p, kids[1..])
    else if p.Status(kids[0]).Update(Skipped).Err? then SkipChildren(g, Dropped(p, kids[0]), kids[1..])
    else
      var below := SkipChildren(g, Moved(p, kids[0]), g.Children(kids[0]));
      SkipChildren(g, below, kids[1..])
  }

  function Dropped(p: Parked, child: Job): Parked
    requires child in p.todo
  {
    p.(todo := RemoveFirst(p.todo, child))
  }

  function Moved(p: Parked, child: Job): Parked
    requires child in p.todo
  {
    Dropped(p, child).Skip(child)
  }

  lemma SkipUnfolds(g: Graph, p: Parked, kids: seq<Job>)
    requires kids != []
    ensures kids[0] !in p.todo ==> SkipChildren(g, p, kids) == SkipChildren(g, p, kids[1..])
    ensures kids[0] in p.todo && p.Status(kids[0]).Update(Skipped).Err? ==>
              SkipChildren(g, p, kids) == SkipChildren(g, Dropped(p, kids[0]), kids[1..])
    ensures kids[0] in p.todo && p.Status(kids[0]).Update(Skipped).Ok? ==>
              SkipChildren(g, p, kids) == SkipChildren(g, SkipChildren(g, Moved(p, kids[0]), g.Children(kids[0])), kids[1..])
  {
  }

  predicate DependenciesCompleted(g: Graph, status: map<Job, JobStatus>, j: Job) {
    forall d | d in g.Deps(j) :: StatusIn(status, d).Completed()
  }

  predicate DependenciesSuccessful(g: Graph, status: map<Job, JobStatus>, j: Job) {
    forall d | d in g.Deps(j) :: StatusIn(status, d).Successful()
  }

  /** One pass over todo: `pending` is what is left to look at, `kept` what stays. */
  function Pass(g: Graph, p: Parked, pending: seq<Job>, kept: seq<Job>): Parked
    decreases |pending|
  {
    if pending == [] then p.(todo := kept)
    else
      var j, rest := pending[0], pending[1..];
      if !DependenciesCompleted(g, p.status, j) then Pass(g, p, rest, kept + [j])
      else Pass(g, Advance(g, p, j), rest, kept)
  }

  /** A job whose dependencies have all completed becomes ready, or is skipped if one was unsuccessful. */
  function Advance(g: Graph, p: Parked, j: Job): Parked {
    if DependenciesSuccessful(g, p.status, j) then p.(ready := InsertRight(g, p.ready, j))
    else p.Skip(j)
  }

  /** _move_todo_to_ready_locked. */
  function MoveTodoToReady(g: Graph, p: Parked): Parked {
    Pass(g, p, p.todo, [])
  }

  /** _can_launch_locked. */
  predicate CanLaunch(q: Queues, limits: Limits, j: Job) {
    var running := q.active + q.launching;
    if j.exclusive then running == []
    else (forall r | r in running :: !r.exclusive) && |running| < limits.jobs
  }

  /** The first launchable position of ready at or after i. */
  function FirstLaunchable(q: Queues, limits: Limits, i: nat): (k: nat)
    requires i <= |q.parked.ready|
    ensures i <= k <= |q.parked.ready|
    ensures k < |q.parked.ready| ==> CanLaunch(q, limits, q.parked.ready[k])
    ensures forall m | i <= m < k :: !CanLaunch(q, limits, q.parked.ready[m])
    decreases |q.parked.ready| - i
  {
    if i == |q.parked.ready| || CanLaunch(q, limits, q.parked.ready[i]) then i else FirstLaunchable(q, limits, i + 1)
  }

  /** The job that _take_ready_job_locked picks. */
  function Choice(q: Queues, limits: Limits): (r: Option<Job>)
    ensures r.Some? ==> r.value in q.parked.ready && CanLaunch(q, limits, r.value)
    ensures r.None? && !q.paused ==> forall j | j in q.parked.ready :: !CanLaunch(q, limits, j)
  {
    if q.paused then None
    else
      var k := FirstLaunchable(q, limits, 0);
      if k < |q.parked.ready| then Some(q.parked.ready[k]) else None
  }

  /** _take_ready_job_locked. */
  function TakeReady(q: Queues, limits: Limits): Queues {
    if q.paused then q
    else
      var k, ready := FirstLaunchable(q, limits, 0), q.parked.ready;
      if k == |ready| then q
      else q.(parked := q.parked.(ready := ready[..k] + ready[k + 1..]), launching := q.launching + [ready[k]])
  }

  /** _graceful_exit_locked. */
  function GracefulExit(q: Queues): Queues {
    if q.graceExit then q
    else q.(exitedPrematurely := true, graceExit := true, parked := q.parked.Drained())
  }

  function AddJob(g: Graph, q: Queues, j: Job): Queues {
    q.(parked := if !q.graceExit && q.threadActive then q.parked.(todo := InsertRight(g, q.parked.todo, j))
                 else q.parked.(skipped := q.parked.skipped + [j]))
  }

  /** The cancelled-launch tail of _launch_job. */
  function LaunchCancelled(q: Queues, j: Job): Queues {
    var p := q.parked.SkipUnfinished(j);
    q.(launching := if j in q.launching then RemoveFirst(q.launching, j) else q.launching,
       parked := p.(skipped := p.skipped + [j]))
  }

  /** The failed-launch tail of _launch_job. */
  function LaunchFailed(g: Graph, q: Queues, limits: Limits, j: Job): Queues
    requires j in q.launching
  {
    Finished(ExitedAtQuitCount(LaunchFailureCounted(g, q, j), limits), j)
  }

  function LaunchFailureCounted(g: Graph, q: Queues, j: Job): Queues
    requires j in q.launching
  {
    SkippedBelow(g, q.(launching := RemoveFirst(q.launching, j), errorCount := q.errorCount + 1,
                       parked := q.parked.Assign(j, Failed)), j)
  }

  /** The eager skip below a job. */
  function SkippedBelow(g: Graph, q: Queues, j: Job): Queues {
    q.(parked := SkipChildren(g, q.parked, g.Children(j)))
  }

  function ExitedAtQuitCount(q: Queues, limits: Limits): Queues {
    if q.errorCount >= limits.quit then GracefulExit(q) else q
  }

  function Finished(q: Queues, j: Job): Queues {
    q.(done := q.done + [j])
  }

  /** The hand-over after a runner was created: after a kill the job leaves every queue. */
  function Launched(q: Queues, j: Job): Queues
    requires j in q.launching
  {
    q.(launching := RemoveFirst(q.launching, j), active := if q.threadActive then q.active + [j] else q.active)
  }

  /** The block that claims a finished job for finalization. */
  function TakeCompleted(q: Queues, j: Job): Queues {
    if !q.threadActive || j !in q.active then q
    else q.(active := RemoveFirst(q.active, j), finalizing := q.finalizing + [j])
  }

  /** The error count, the possible exit and the eager skip that an unsuccessful job causes. */
  function FailureCounted(g: Graph, q: Queues, limits: Limits, j: Job): Queues {
    SkippedBelow(g, ExitedAtQuitCount(q.(errorCount := q.errorCount + 1), limits), j)
  }

  /** The locked block of _complete_job; the hooks have already set the job's status. */
  function Complete(g: Graph, q: Queues, limits: Limits, j: Job): Queues
    requires j in q.finalizing
  {
    var counted := if q.parked.Status(j).Successful() then q else FailureCounted(g, q, limits, j);
    var finished := Finished(counted.(finalizing := RemoveFirst(q.finalizing, j)), j);
    finished.(parked := MoveTodoToReady(g, finished.parked))
  }

  /** _record_incomplete_shutdown: a lasting failure that stops the scheduler from launching more. */
  function RecordIncomplete(g: Graph, q: Queues, j: Job): Queues {
    if j !in q.active then q.(parked := q.parked.Assign(j, Failed))
    else Finished(GracefulExit(IncompleteCounted(g, q, j)), j)
  }

  function IncompleteCounted(g: Graph, q: Queues, j: Job): Queues
    requires j in q.active
  {
    SkippedBelow(g, q.(active := RemoveFirst(q.active, j), shutdownIncomplete := true, errorCount := q.errorCount + 1,
                       parked := q.parked.Assign(j, Failed)), j)
  }

  /** The locked block of kill. */
  function Kill(q: Queues): Queues {
    q.(exitedPrematurely := true, threadActive := false, paused := false,
       interrupted := q.launching + q.active + q.finalizing, parked := q.parked.Drained())
  }

  /** What wait() waits for. */
  predicate LiveEmpty(q: Queues) {
    q.parked.todo == [] && q.parked.ready == [] && q.launching == [] && q.active == [] && q.finalizing == []
  }

  /** The interrupted_jobs property. */
  function InterruptedJobs(q: Queues): seq<Job> {
    Without(q.interrupted, q.done)
  }

  function Without(jobs: seq<Job>, gone: seq<Job>): (r: seq<Job>)
    ensures (forall j | j in r :: j in jobs && j !in gone) && (forall j | j in jobs && j !in gone :: j in r)
  {
    if jobs == [] then []
    else (if jobs[0] in gone then [] else [jobs[0]]) + Without(jobs[1..], gone)
  }
}
