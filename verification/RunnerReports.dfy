/** What a runner tells the scheduler: every poll of a runner is a step that the scheduler's transition system
    allows, so `alive` there means what the runners see. */
module RunnerReports {
  import opened Jobs
  import opened SchedulerSpec
  import opened QueueInvariant
  import opened SchedulerRuns
  import Spec = RunnerSpec
  import Laws = RunnerLaws

  /** The shell still runs, or a managed process group exists. */
  predicate Lives(r: Spec.Runner, env: Spec.Env) {
    !(r.exited || env.exited) || env.groups
  }

  /** The step of the scheduler thread that follows a poll. */
  function Report(j: Job, polled: Spec.Runner): Label {
    if !polled.done then PollAlive(j)
    else if polled.shutdownIncomplete then PollIncomplete(j)
    else PollDone(j)
  }

  /** A runner that is polled reports done exactly for a process group that is gone, whatever happened before. */
  lemma PollReportsTruth(c: Config, s: State, j: Job, start: int, hasMarker: bool, limit: int, events: seq<Laws.Event>,
                         env: Spec.Env, now: int, later: int)
    requires s.pc.Polling? && s.pc.rest != [] && s.pc.rest[0] == j
    requires var r := Laws.After(Spec.Fresh(start, hasMarker, limit), events);
             !r.done && (j in s.world.alive <==> Lives(r, env))
    ensures var r := Laws.After(Spec.Fresh(start, hasMarker, limit), events);
            var polled := Spec.Poll(r, env, now, later);
            && Enabled(c, s, Report(j, polled))
            && (Report(j, polled) == PollDone(j) <==> j !in s.world.alive)
  {
    Laws.DoneMeansGone(start, hasMarker, limit, events, Laws.Polled(env, now, later));
    var r := Laws.After(Spec.Fresh(start, hasMarker, limit), events);
    ExitedAfter(r, env, now, later);
  }

  lemma ExitedAfter(r: Spec.Runner, env: Spec.Env, now: int, later: int)
    requires !r.done
    ensures Spec.Poll(r, env, now, later).exited == (r.exited || env.exited)
  {
    RunningExited(r.(exited := r.exited || env.exited), env, later);
  }

  lemma RunningExited(r: Spec.Runner, env: Spec.Env, now: int)
    ensures Spec.CheckRunning(r, env, now).exited == r.exited
  {
  }

  /** The same after an unexpected exception: a runner whose processes were not seen to go reports so. */
  lemma HandlerReportsTruth(c: Config, s: State, j: Job, start: int, hasMarker: bool, limit: int, events: seq<Laws.Event>,
                            env: Spec.Env, now: int, later: int, fault: Spec.Fault)
    requires s.pc.Polling? && s.pc.rest != [] && s.pc.rest[0] == j && fault.Raised?
    requires !Laws.After(Spec.Fresh(start, hasMarker, limit), events).done
    requires fault.verified && fault.reaping.Complete() ==> j !in s.world.alive
    ensures var r := Laws.After(Spec.Fresh(start, hasMarker, limit), events);
            Enabled(c, s, Report(j, Spec.PollOrHandle(r, env, now, later, fault)))
  {
    Laws.HandledLaw(start, hasMarker, limit, events, env, now, later, fault);
  }
}
