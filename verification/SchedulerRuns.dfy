/** The whole scheduler as a labelled transition system: the scheduler thread moves through the points
    between its locked blocks, hooks and runners have any outcome, and other threads add jobs, pause,
    resume, kill and stop in between. */
module SchedulerRuns {
  import opened Jobs
  import opened SchedulerSpec
  import opened SchedulerLaws
  import opened QueueInvariant

  /** Where the scheduler thread is. */
  datatype Pc =
    | Top                           // about to take the condition
    | Idle(woken: bool)             // waiting on the condition with nothing to do
    | Launching(job: Job)           // in pre_run
    | Started(job: Job)             // the runner exists and is not handed over yet
    | Reaping(job: Job)             // stopping a runner that a kill overtook
    | Polling(rest: seq<Job>)       // asking the runners of these active jobs, in order
    | Seen(job: Job)                // a runner reported done
    | Unreaped(job: Job)            // a runner gave up on its process group
    | PostRun(job: Job)             // in post_run
    | Returned

  /** What the hooks and runners did outside the queues. */
  datatype World = World(
    held: set<Job>,        // jobs that hold their directory lock
    alive: set<Job>,       // jobs whose process group may be alive
    incomplete: set<Job>,  // jobs whose group was reported as not reaped
    hooked: set<Job>,      // jobs whose post_run was entered
    cancelled: set<Job>)   // jobs whose cancel was called

  datatype State = State(
    q: Queues,
    pc: Pc,
    added: set<Job>,
    lost: seq<Job>,        // launched after a kill: in no queue
    killed: bool,
    killing: set<Job>,     // jobs that kill still has to terminate
    world: World)

  datatype Label =
    // other threads (a hook runs on the scheduler thread)
    | Add(job: Job, byHook: bool) | Pause | Resume | KillAll | Terminate(job: Job, stopped: bool) | Stop
    // the processes
    | Die(job: Job)
    // the scheduler thread
    | Cycle | Wake
    | Lock(job: Job) | Start(job: Job) | LaunchCancel(job: Job) | LaunchFail(job: Job)
    | HandOver(job: Job) | Reap(job: Job, stopped: bool)
    | PollAlive(job: Job) | PollNothing | PollDone(job: Job) | PollIncomplete(job: Job)
    | Claim(job: Job) | Finish(job: Job, status: JobStatus) | Record(job: Job)
  {
    /** The step of another thread, a hook or a process. */
    predicate OfOthers() {
      Add? || Pause? || Resume? || KillAll? || Terminate? || Stop? || Die?
    }

    /** A step of the scheduler thread that takes a job or launches it. */
    predicate OfLaunch() {
      Cycle? || Wake? || Lock? || Start? || LaunchCancel? || LaunchFail? || HandOver? || Reap?
    }
  }

  /** What the assignments of a post_run, and of post_run_failed after it, can make of a status. */
  predicate HookOutcome(before: JobStatus, after: JobStatus) {
    after.Failed? || (before.NotStarted? && after.Passed?) || (before.ToBeBypassed? && after.Bypassed?)
  }

  predicate Enabled(c: Config, s: State, l: Label) {
    match l
    case Add(j, byHook) => j !in s.added && s.q.parked.Status(j).Pending() && (byHook ==> s.pc.PostRun?)
    case Pause => s.q.threadActive
    case Resume => true
    case KillAll => !s.killed
    case Terminate(j, _) => j in s.killing
    case Stop => LiveEmpty(s.q)
    case Die(j) => j in s.world.alive
    case Cycle => s.pc == Top
    case Wake => s.pc == Idle(true)
    case Lock(j) => s.pc == Launching(j) && j in c.locking && j !in s.world.held
    case Start(j) => s.pc == Launching(j) && (j in c.locking ==> j in s.world.held)
    case LaunchCancel(j) => s.pc == Launching(j) && s.killed
    case LaunchFail(j) => s.pc == Launching(j) && j in s.q.launching
    case HandOver(j) => s.pc == Started(j) && j in s.q.launching
    case Reap(j, _) => s.pc == Reaping(j)
    case PollAlive(j) => s.pc.Polling? && s.pc.rest != [] && s.pc.rest[0] == j && j in s.world.alive
    case PollNothing => s.pc == Polling([])
    case PollDone(j) => s.pc.Polling? && s.pc.rest != [] && s.pc.rest[0] == j && j !in s.world.alive
    case PollIncomplete(j) => s.pc.Polling? && s.pc.rest != [] && s.pc.rest[0] == j
    case Claim(j) => s.pc == Seen(j)
    case Finish(j, status) => s.pc == PostRun(j) && j in s.q.finalizing && HookOutcome(s.q.parked.Status(j), status)
    case Record(j) => s.pc == Unreaped(j)
  }

  /** notify_all: the condition is notified by every block that changes the queues. */
  function Woken(s: State): State {
    if s.pc.Idle? then s.(pc := Idle(true)) else s
  }

  /** What the top block of the scheduler loop leaves in the queues. */
  function Cycled(c: Config, q: Queues): Queues {
    TakeReady(Refilled(c, q), c.limits)
  }

  function Refilled(c: Config, q: Queues): Queues {
    q.(parked := MoveTodoToReady(c.g, q.parked))
  }

  function CyclePc(c: Config, q: Queues): Pc {
    var choice := Choice(Refilled(c, q), c.limits);
    if choice.Some? then Launching(choice.value)
    else if q.active == [] then Idle(false)
    else Polling(q.active)
  }

  function Apply(c: Config, s: State, l: Label): State
    requires Enabled(c, s, l)
  {
    var w := s.world;
    match l
    case Add(j, _) => Woken(s.(q := AddJob(c.g, s.q, j), added := s.added + {j}))
    case Pause => Woken(s.(q := s.q.(paused := true)))
    case Resume => Woken(s.(q := s.q.(paused := false)))
    case KillAll => Woken(s.(q := Kill(s.q), killed := true, killing := set j | j in s.q.active))
    case Terminate(j, stopped) =>
      s.(killing := s.killing - {j}, world :=
           if stopped then w.(alive := w.alive - {j}, held := w.held - {j}, cancelled := w.cancelled + {j})
           else w.(incomplete := w.incomplete + {j}))
    case Stop => Woken(s.(q := s.q.(threadActive := false)))
    case Die(j) => s.(world := w.(alive := w.alive - {j}))
    case Cycle =>
      if !s.q.threadActive then s.(pc := Returned)
      else s.(q := Cycled(c, s.q), pc := CyclePc(c, s.q))
    case Wake => s.(pc := Top)
    case Lock(j) => s.(world := w.(held := w.held + {j}))
    case Start(j) => s.(pc := Started(j), world := w.(alive := w.alive + {j}))
    case LaunchCancel(j) =>
      s.(pc := Top, q := LaunchCancelled(s.q, j), world := w.(held := w.held - {j}, cancelled := w.cancelled + {j}))
    case LaunchFail(j) =>
      s.(pc := Top, q := LaunchFailed(c.g, s.q, c.limits, j), world := w.(held := w.held - {j}))
    case HandOver(j) =>
      if s.q.threadActive then s.(pc := Top, q := Launched(s.q, j))
      else s.(pc := Reaping(j), q := Launched(s.q, j), lost := s.lost + [j])
    case Reap(j, stopped) =>
      if stopped then
        s.(pc := Top, world := w.(alive := w.alive - {j}, held := w.held - {j}, cancelled := w.cancelled + {j}))
      else s.(pc := Top, q := s.q.(shutdownIncomplete := true), world := w.(incomplete := w.incomplete + {j}))
    case PollAlive(_) => s.(pc := Polling(s.pc.rest[1..]))
    case PollNothing => s.(pc := Top)
    case PollDone(j) => s.(pc := Seen(j))
    case PollIncomplete(j) => s.(pc := Unreaped(j))
    case Claim(j) =>
      if !s.q.threadActive then s.(pc := Returned)
      else if j !in s.q.active then s.(pc := Top)
      else s.(pc := PostRun(j), q := TakeCompleted(s.q, j), world := w.(hooked := w.hooked + {j}))
    case Finish(j, status) =>
      s.(pc := Top, q := Complete(c.g, Ended(s.q, j, status), c.limits, j), world := w.(held := w.held - {j}))
    case Record(j) =>
      s.(pc := Top, q := RecordIncomplete(c.g, s.q, j), world := w.(incomplete := w.incomplete + {j}))
  }

  /** A fresh manager; any job may already be marked for bypass. */
  predicate Initial(s: State) {
    && (forall j | j in s.q.parked.status :: s.q.parked.status[j].Pending())
    && s == State(Queues(Parked([], [], [], s.q.parked.status), [], [], [], [], 0, false, false, true, false, false, []),
                  Top, {}, [], false, {}, World({}, {}, {}, {}, {}))
  }

  /** Every label of the run can be taken in turn. */
  predicate Legal(c: Config, s: State, run: seq<Label>)
    decreases |run|
  {
    run == [] || (Enabled(c, s, run[0]) && Legal(c, Apply(c, s, run[0]), run[1..]))
  }

  function After(c: Config, s: State, run: seq<Label>): State
    requires Legal(c, s, run)
    decreases |run|
  {
    if run == [] then s else After(c, Apply(c, s, run[0]), run[1..])
  }
}
