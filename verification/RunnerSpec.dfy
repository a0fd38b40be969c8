/** The timed behaviour of SubprocessJobRunner in lib/job_lib.py: what a poll, a pause, a resume and a
    kill make of the runner's fields. Times are in microseconds. */
module RunnerSpec {
  const TERM_GRACE := 10_000_000
  const KILL_GRACE := 2_000_000
  const OWNERSHIP_GRACE := 30_000_000

  datatype Signal = Term | Kill

  datatype Sent = Sent(signal: Signal, at: int)

  datatype Interval = Interval(from: int, to: int)

  datatype Start = NoStart | StartAt(time: int)

  /** What a poll finds: the shell has exited, some managed process group exists, and the time at which the
      job recorded its start, where it records one. */
  datatype Env = Env(exited: bool, groups: bool, marker: Start)

  datatype Runner = Runner(
    start: int,
    hasMarker: bool,        // the job has a timeout_start_path
    limit: int,             // not positive: no timeout
    exited: bool,           // the shell was seen to exit
    timedOut: bool,
    orphaned: bool,
    killSent: bool,
    termDeadline: int,
    killDeadline: int,
    ownershipDeadline: int,
    timeoutStart: Start,
    paused: bool,
    pausedAt: int,
    intervals: seq<Interval>,
    done: bool,
    shutdownIncomplete: bool,
    signals: seq<Sent>)     // what was sent to the process groups

  function Fresh(start: int, hasMarker: bool, limit: int): Runner {
    Runner(start, hasMarker, limit, false, false, false, false, 0, 0, 0, NoStart, false, 0, [], false, false, [])
  }

  function Min(a: int, b: int): int {
    if a < b then a else b
  }

  function Max(a: int, b: int): int {
    if a < b then b else a
  }

  /** The part of an interval that lies in [start, now). */
  function Overlap(i: Interval, start: int, now: int): int {
    Max(0, Min(now, i.to) - Max(start, i.from))
  }

  function Overlaps(intervals: seq<Interval>, start: int, now: int): int {
    if intervals == [] then 0 else Overlap(intervals[0], start, now) + Overlaps(intervals[1..], start, now)
  }

  /** The recorded intervals, with the running one closed now. */
  function ClosedIntervals(r: Runner, now: int): seq<Interval> {
    r.intervals + if r.paused then [Interval(r.pausedAt, now)] else []
  }

  /** _paused_duration_since. */
  function PausedDuration(r: Runner, start: int, now: int): int {
    Overlaps(ClosedIntervals(r, now), start, now)
  }

  /** _check_for_done: `now` and `later` are its two clock readings. */
  function Check(r: Runner, e: Env, now: int, later: int): Runner {
    var r := r.(exited := r.exited || e.exited);
    if r.exited && !e.groups then r.(done := true)
    else if r.exited && !r.timedOut && !r.orphaned then Terminated(r.(orphaned := true), now)
    else if r.exited && !r.killSent && now >= r.termDeadline then Killed(r, now)
    else if r.exited && r.killSent && now < r.killDeadline then r
    else if r.exited && r.killSent then Waited(r, now)
    else CheckRunning(r, e, later)
  }

  function CheckRunning(r: Runner, e: Env, now: int): Runner {
    if r.paused then r
    else if r.timedOut && !r.killSent && now >= r.termDeadline then Killed(r, now)
    else if r.timedOut && r.killSent && now >= r.killDeadline then Waited(r, now)
    else if r.timedOut then r
    else
      var r := Marked(r, e);
      if TimeoutStart(r).StartAt? && r.limit > 0 && Elapsed(r, TimeoutStart(r).time, now) > r.limit
      then Terminated(r.(timedOut := true), now) else r
  }

  /** The start that the job recorded is read once. */
  function Marked(r: Runner, e: Env): Runner {
    if r.hasMarker && r.timeoutStart.NoStart? then r.(timeoutStart := e.marker) else r
  }

  function TimeoutStart(r: Runner): Start {
    if r.hasMarker then r.timeoutStart else StartAt(r.start)
  }

  function Elapsed(r: Runner, start: int, now: int): int {
    now - (start + PausedDuration(r, start, now))
  }

  function Terminated(r: Runner, now: int): Runner {
    r.(termDeadline := now + TERM_GRACE, signals := r.signals + [Sent(Term, now)])
  }

  /** _send_sigkill. */
  function Killed(r: Runner, now: int): Runner {
    if r.killSent then r
    else r.(killSent := true, killDeadline := now + KILL_GRACE, ownershipDeadline := now + KILL_GRACE + OWNERSHIP_GRACE,
            signals := r.signals + [Sent(Kill, now)])
  }

  /** _ownership_wait_expired. */
  function Waited(r: Runner, now: int): Runner {
    if now < r.ownershipDeadline then r else r.(shutdownIncomplete := true, done := true)
  }

  /** check_for_done, apart from its handler for unexpected exceptions. */
  function Poll(r: Runner, e: Env, now: int, later: int): Runner {
    if r.done then r else Check(r, e, now, later)
  }

  function Pause(r: Runner, exited: bool, now: int): Runner {
    if r.done || r.timedOut then r
    else if r.exited || exited then r.(exited := true)
    else if r.paused then r
    else r.(paused := true, pausedAt := now)
  }

  function Resume(r: Runner, now: int): Runner {
    if !r.paused then r
    else r.(paused := false, pausedAt := 0, intervals := r.intervals + [Interval(r.pausedAt, now)])
  }

  /** What reaping a runner's processes came to: whether the shell was reaped, or was reaped after it was killed
      on its own, and whether the process groups were gone in the end. */
  datatype Reaping = Reaping(shell: bool, shellKilled: bool, groupsGone: bool) {
    predicate Complete() {
      (shell || shellKilled) && groupsGone
    }
  }

  /** kill: `inTime` says whether the groups left after SIGTERM. */
  function Stop(r: Runner, now: int, inTime: bool, later: int, reaping: Reaping): Runner {
    var resumed := Resume(r, now);
    var asked := resumed.(signals := resumed.signals + [Sent(Term, now)]);
    var killed := if inTime then asked else asked.(killSent := true, signals := asked.signals + [Sent(Kill, later)]);
    killed.(shutdownIncomplete := killed.shutdownIncomplete || !reaping.Complete(), done := true)
  }

  /** An unexpected exception in a poll, before or after what the poll does to the runner. The handler may
      itself fail to look at the process groups. */
  datatype Fault = NoFault | Raised(afterwards: bool, verified: bool, reaping: Reaping)

  /** The handler of check_for_done: kill, reap, and be done; it does not look at what was sent before. */
  function Handled(r: Runner, verified: bool, reaping: Reaping, now: int): Runner {
    r.(signals := r.signals + [Sent(Kill, now)], shutdownIncomplete := !verified || !reaping.Complete(), done := true)
  }

  /** check_for_done with its handler. */
  function PollOrHandle(r: Runner, e: Env, now: int, later: int, fault: Fault): Runner {
    if r.done || fault.NoFault? then Poll(r, e, now, later)
    else Handled(if fault.afterwards then Check(r, e, now, later) else r, fault.verified, fault.reaping, later)
  }
}
