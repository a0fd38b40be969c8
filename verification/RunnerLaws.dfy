/** What holds along every history of a runner: the escalation from SIGTERM to SIGKILL to giving up, and
    the accounting of paused time. */
module RunnerLaws {
  import opened RunnerSpec

  datatype Event =
    | Polled(env: Env, at: int, later: int)
    | Paused(shellExited: bool, at: int)
    | Resumed(at: int)

  function Step(r: Runner, e: Event): Runner {
    match e
    case Polled(env, at, later) => Poll(r, env, at, later)
    case Paused(shellExited, at) => Pause(r, shellExited, at)
    case Resumed(at) => Resume(r, at)
  }

  function After(r: Runner, events: seq<Event>): Runner
    decreases |events|
  {
    if events == [] then r else After(Step(r, events[0]), events[1..])
  }

  /** The clock does not run backwards. */
  predicate Timeline(events: seq<Event>, clock: int)
    decreases |events|
  {
    events == [] ||
    (clock <= events[0].at && (events[0].Polled? ==> events[0].at <= events[0].later) && Timeline(events[1..], events[0].at))
  }

  // ----- Escalation -----

  function Terms(r: Runner): nat {
    (if r.orphaned then 1 else 0) + (if r.timedOut then 1 else 0)
  }

  /** One SIGTERM for an orphaned group, one for a timeout, and at most one SIGKILL, which comes last. */
  ghost predicate Escalating(r: Runner) {
    && |r.signals| == Terms(r) + (if r.killSent then 1 else 0)
    && (forall i | 0 <= i < Terms(r) :: r.signals[i].signal.Term?)
    && (Terms(r) > 0 && !r.killSent ==> r.termDeadline == r.signals[Terms(r) - 1].at + TERM_GRACE)
    && (r.killSent ==>
          && Terms(r) > 0
          && r.signals[Terms(r)].signal.Kill?
          && r.signals[Terms(r)].at >= r.signals[Terms(r) - 1].at + TERM_GRACE
          && r.killDeadline == r.signals[Terms(r)].at + KILL_GRACE
          && r.ownershipDeadline == r.killDeadline + OWNERSHIP_GRACE)
    && (r.orphaned ==> r.exited)
    && (r.paused ==> !r.timedOut)
    && (!r.done ==> !r.shutdownIncomplete)
  }

  lemma StepEscalates(r: Runner, e: Event)
    requires Escalating(r)
    ensures Escalating(Step(r, e))
  {
    if e.Polled? && !r.done {
      CheckEscalates(r, e.env, e.at, e.later);
    }
  }

  lemma CheckEscalates(r: Runner, e: Env, now: int, later: int)
    requires Escalating(r) && !r.done
    ensures Escalating(Check(r, e, now, later))
  {
    var r' := r.(exited := r.exited || e.exited);
    if r'.exited && e.groups && !r'.timedOut && !r'.orphaned {
      TermEscalates(r', r'.(orphaned := true), now);
    } else if r'.exited && e.groups && !r'.killSent && now >= r'.termDeadline {
      KillEscalates(r', now);
    } else if !(r'.exited && (!e.groups || r'.killSent)) {
      RunningEscalates(r', e, later);
    }
  }

  lemma TermEscalates(r: Runner, r': Runner, now: int)
    requires Escalating(r) && !r.killSent && !r.timedOut
    requires || (!r.orphaned && r.exited && r' == r.(orphaned := true))
             || (!r.paused && r' == r.(timedOut := true, timeoutStart := r'.timeoutStart))
    ensures Escalating(Terminated(r', now))
  {
    var t := Terminated(r', now);
    assert Terms(t) == Terms(r) + 1;
    assert forall i | 0 <= i < Terms(r) :: t.signals[i] == r.signals[i];
  }

  lemma KillEscalates(r: Runner, now: int)
    requires Escalating(r) && !r.killSent && Terms(r) > 0 && now >= r.termDeadline
    ensures Escalating(Killed(r, now))
  {
    assert forall i | 0 <= i < Terms(r) :: Killed(r, now).signals[i] == r.signals[i];
  }

  lemma RunningEscalates(r: Runner, e: Env, now: int)
    requires Escalating(r) && !r.done && !(r.exited && r.killSent)
    ensures Escalating(CheckRunning(r, e, now))
  {
    if !r.paused && r.timedOut {
      if !r.killSent && now >= r.termDeadline {
        KillEscalates(r, now);
      }
    } else if !r.paused {
      TermEscalates(r, Marked(r, e).(timedOut := true), now);
    }
  }

  lemma {:induction false} RunEscalates(r: Runner, events: seq<Event>)
    requires Escalating(r)
    ensures Escalating(After(r, events))
    decreases |events|
  {
    if events != [] {
      StepEscalates(r, events[0]);
      RunEscalates(Step(r, events[0]), events[1..]);
    }
  }

  /** SIGKILL is sent at most once, as the last signal, and no sooner than the grace period after the
      latest SIGTERM; and never more than two SIGTERMs are sent. */
  lemma KillOnceAfterGrace(start: int, hasMarker: bool, limit: int, events: seq<Event>)
    ensures var s := After(Fresh(start, hasMarker, limit), events).signals;
            && |s| <= 3
            && forall i | 0 <= i < |s| && s[i].signal.Kill? ::
                 i == |s| - 1 && i > 0 && s[i - 1].signal.Term? && s[i].at >= s[i - 1].at + TERM_GRACE
  {
    RunEscalates(Fresh(start, hasMarker, limit), events);
  }

  /** Polls come no further than `gap` apart and take no longer than `slip`. */
  predicate Prompt(events: seq<Event>, last: int, gap: nat, slip: nat)
    decreases |events|
  {
    events == [] ||
    if events[0].Polled? then
      && events[0].at <= last + gap && events[0].at <= events[0].later <= events[0].at + slip
      && Prompt(events[1..], events[0].at, gap, slip)
    else Prompt(events[1..], last, gap, slip)
  }

  function LastPoll(events: seq<Event>, last: int): int {
    if events == [] then last
    else LastPoll(events[1..], if events[0].Polled? then events[0].at else last)
  }

  /** A runner that is not done yet is still within its deadlines at its last poll. */
  ghost predicate InTime(r: Runner, last: int, gap: nat, slip: nat) {
    Escalating(r) && (!r.done && Terms(r) > 0 ==>
      var latest := r.signals[0].at + Terms(r) * TERM_GRACE + (Terms(r) - 1) * slip;
      if r.killSent then last < r.ownershipDeadline && r.signals[Terms(r)].at < latest + gap + slip
      else last < r.termDeadline <= latest)
  }

  lemma PollInTime(r: Runner, e: Event, last: int, gap: nat, slip: nat)
    requires InTime(r, last, gap, slip) && e.Polled?
    requires e.at <= last + gap && e.at <= e.later <= e.at + slip
    ensures InTime(Step(r, e), e.at, gap, slip)
  {
    StepEscalates(r, e);
    var r' := r.(exited := r.exited || e.env.exited);
    if !r.done {
      if r'.exited && (!e.env.groups || r'.killSent || Terms(r) == 0 || e.at >= r'.termDeadline) {
        ExitedInTime(r, e.env, e.at, e.later, last, gap, slip);
      } else {
        RunningInTime(r', e.env, e.at, e.later, last, gap, slip);
      }
    }
  }

  lemma ExitedInTime(r: Runner, e: Env, at: int, later: int, last: int, gap: nat, slip: nat)
    requires InTime(r, last, gap, slip) && !r.done && at <= last + gap && Escalating(Check(r, e, at, later))
    requires r.exited || e.exited
    requires !e.groups || r.killSent || Terms(r) == 0 || at >= r.termDeadline
    ensures InTime(Check(r, e, at, later), at, gap, slip)
  {
  }

  lemma RunningInTime(r: Runner, e: Env, at: int, later: int, last: int, gap: nat, slip: nat)
    requires InTime(r, last, gap, slip) && !r.done && at <= last + gap && at <= later <= at + slip
    requires r.exited ==> !r.killSent && Terms(r) > 0 && at < r.termDeadline
    ensures InTime(CheckRunning(r, e, later), at, gap, slip)
  {
    RunningEscalates(r, e, later);
  }

  lemma OtherInTime(r: Runner, e: Event, last: int, gap: nat, slip: nat)
    requires InTime(r, last, gap, slip) && !e.Polled?
    ensures InTime(Step(r, e), last, gap, slip)
  {
    StepEscalates(r, e);
  }

  lemma {:induction false} RunInTime(r: Runner, events: seq<Event>, last: int, gap: nat, slip: nat)
    requires InTime(r, last, gap, slip) && Prompt(events, last, gap, slip)
    ensures InTime(After(r, events), LastPoll(events, last), gap, slip)
    decreases |events|
  {
    if events != [] {
      var e := events[0];
      if e.Polled? {
        PollInTime(r, e, last, gap, slip);
        RunInTime(Step(r, e), events[1..], e.at, gap, slip);
      } else {
        OtherInTime(r, e, last, gap, slip);
        RunInTime(Step(r, e), events[1..], last, gap, slip);
      }
    }
  }

  /** Deadline: once a SIGTERM was sent, a poll that leaves the runner not done comes earlier than two TERM
      graces (one, unless an orphaned group also times out), the KILL grace and the ownership grace after
      the first SIGTERM, up to the slack of polling. */
  lemma DoneInTime(start: int, hasMarker: bool, limit: int, events: seq<Event>, gap: nat, slip: nat)
    requires Prompt(events, start, gap, slip)
    ensures var r := After(Fresh(start, hasMarker, limit), events);
            r.signals != [] && !r.done ==>
              LastPoll(events, start)
              < r.signals[0].at + Terms(r) * TERM_GRACE + KILL_GRACE + OWNERSHIP_GRACE + gap + 2 * slip
              <= r.signals[0].at + 2 * TERM_GRACE + KILL_GRACE + OWNERSHIP_GRACE + gap + 2 * slip
  {
    RunInTime(Fresh(start, hasMarker, limit), events, start, gap, slip);
  }

  /** A runner that becomes done has either found no managed group, or reported the shutdown as incomplete. */
  lemma DoneMeansGone(start: int, hasMarker: bool, limit: int, events: seq<Event>, e: Event)
    requires e.Polled? && !After(Fresh(start, hasMarker, limit), events).done
    ensures var r := Step(After(Fresh(start, hasMarker, limit), events), e);
            && (r.done && !r.shutdownIncomplete <==> r.exited && !e.env.groups)
            && (r.shutdownIncomplete ==> r.done && r.killSent)
  {
    RunEscalates(Fresh(start, hasMarker, limit), events);
  }

  // ----- Paused time -----

  /** The intervals follow each other, the last one ends before `clock`. */
  ghost predicate Ordered(intervals: seq<Interval>, clock: int) {
    && (forall i | 0 <= i < |intervals| :: intervals[i].from <= intervals[i].to <= clock)
    && (forall i, k | 0 <= i < k < |intervals| :: intervals[i].to <= intervals[k].from)
  }

  ghost predicate Accounted(r: Runner, clock: int) {
    if r.paused then Ordered(r.intervals, r.pausedAt) && r.pausedAt <= clock else Ordered(r.intervals, clock)
  }

  ghost predicate InPause(intervals: seq<Interval>, t: int) {
    exists i :: 0 <= i < |intervals| && intervals[i].from <= t < intervals[i].to
  }

  /** What a poll leaves alone. */
  predicate SamePauses(r: Runner, r': Runner) {
    && r'.paused == r.paused && r'.pausedAt == r.pausedAt && r'.intervals == r.intervals
    && r'.limit == r.limit && r'.hasMarker == r.hasMarker && r'.start == r.start
  }

  lemma PollKeepsPauses(r: Runner, e: Event)
    requires e.Polled?
    ensures SamePauses(r, Step(r, e))
  {
    if !r.done {
      CheckKeepsPauses(r, e.env, e.at, e.later);
    }
  }

  lemma CheckKeepsPauses(r: Runner, e: Env, now: int, later: int)
    ensures SamePauses(r, Check(r, e, now, later))
  {
    var r' := r.(exited := r.exited || e.exited);
    if !r'.exited || (e.groups && !r'.killSent) {
      RunningKeepsPauses(r', e, later);
    }
  }

  lemma RunningKeepsPauses(r: Runner, e: Env, now: int)
    ensures SamePauses(r, CheckRunning(r, e, now))
  {
  }

  lemma StepAccounted(r: Runner, e: Event, clock: int)
    requires Accounted(r, clock) && clock <= e.at
    ensures Accounted(Step(r, e), e.at)
  {
    match e
    case Polled(_, _, _) => PollKeepsPauses(r, e);
    case Paused(_, _) =>
    case Resumed(_) => ResumeAccounted(r, e.at);
  }

  lemma ResumeAccounted(r: Runner, now: int)
    requires r.paused ==> Ordered(r.intervals, r.pausedAt) && r.pausedAt <= now
    requires !r.paused ==> Ordered(r.intervals, now)
    ensures Ordered(Resume(r, now).intervals, now)
  {
    if r.paused {
      var s := Resume(r, now).intervals;
      assert forall i | 0 <= i < |r.intervals| :: s[i] == r.intervals[i];
    }
  }

  /** Recorded pause intervals stay disjoint and ordered. */
  lemma {:induction false} RunAccounted(r: Runner, events: seq<Event>, clock: int, now: int)
    requires Accounted(r, clock) && Timeline(events, clock)
    requires clock <= now && forall e | e in events :: e.at <= now
    ensures Accounted(After(r, events), now) && Ordered(ClosedIntervals(After(r, events), now), now)
    decreases |events|
  {
    if events != [] {
      StepAccounted(r, events[0], clock);
      RunAccounted(Step(r, events[0]), events[1..], events[0].at, now);
    }
  }

  /** The clock ticks in [from, to) that lie in no interval. */
  ghost function Unpaused(intervals: seq<Interval>, from: int, to: int): nat
    decreases to - from
  {
    if to <= from then 0 else Unpaused(intervals, from, to - 1) + if InPause(intervals, to - 1) then 0 else 1
  }

  lemma {:induction false} OverlapsTick(intervals: seq<Interval>, from: int, to: int, clock: int)
    requires Ordered(intervals, clock) && from <= to
    ensures Overlaps(intervals, from, to + 1) == Overlaps(intervals, from, to) + if InPause(intervals, to) then 1 else 0
    decreases |intervals|
  {
    if intervals != [] {
      var rest := intervals[1..];
      OverlapsTick(rest, from, to, clock);
      assert forall i | 0 <= i < |rest| :: rest[i] == intervals[i + 1];
      if InPause(rest, to) {
        assert InPause(intervals, to);
      }
      if intervals[0].from <= to < intervals[0].to {
        assert !InPause(rest, to);
      }
    }
  }

  lemma {:induction false} OverlapsEmpty(intervals: seq<Interval>, from: int, to: int)
    requires to <= from && forall i | 0 <= i < |intervals| :: intervals[i].from <= intervals[i].to
    ensures Overlaps(intervals, from, to) == 0
    decreases |intervals|
  {
    if intervals != [] {
      OverlapsEmpty(intervals[1..], from, to);
    }
  }

  /** Subtracting the overlaps leaves the measure of the time outside all intervals, whether the start
      falls before, inside or after them. */
  lemma {:induction false} OverlapsMeasure(intervals: seq<Interval>, from: int, to: int, clock: int)
    requires Ordered(intervals, clock) && from <= to
    ensures to - from - Overlaps(intervals, from, to) == Unpaused(intervals, from, to)
    decreases if from <= to then to - from else 0
  {
    if from == to {
      OverlapsEmpty(intervals, from, to);
    } else {
      OverlapsMeasure(intervals, from, to - 1, clock);
      OverlapsTick(intervals, from, to - 1, clock);
    }
  }

  /** Whether the runner was paused at time t of its history. */
  function PausedAtTime(r: Runner, events: seq<Event>, t: int): bool
    decreases |events|
  {
    if events == [] || t < events[0].at then r.paused else PausedAtTime(Step(r, events[0]), events[1..], t)
  }

  /** Events after t do not change what the intervals say about t. */
  lemma {:induction false} PastIsFixed(r: Runner, events: seq<Event>, clock: int, t: int, before: int, now: int)
    requires t < clock && Timeline(events, clock) && Accounted(r, clock)
    requires t < before && t < now
    ensures InPause(ClosedIntervals(After(r, events), now), t) <==> InPause(ClosedIntervals(r, before), t)
    decreases |events|
  {
    if events == [] {
      ClosingIsFree(r, t, before, now);
    } else {
      var next := Step(r, events[0]);
      StepAccounted(r, events[0], clock);
      PastIsFixed(next, events[1..], events[0].at, t, before, now);
      StepKeepsPast(r, events[0], t, before);
    }
  }

  lemma ClosingIsFree(r: Runner, t: int, before: int, now: int)
    requires t < before && t < now
    ensures InPause(ClosedIntervals(r, now), t) <==> InPause(ClosedIntervals(r, before), t)
  {
    var a, b := ClosedIntervals(r, now), ClosedIntervals(r, before);
    assert forall i | 0 <= i < |a| :: a[i].from == b[i].from && (a[i].to == b[i].to || (t < a[i].to && t < b[i].to));
  }

  lemma StepKeepsPast(r: Runner, e: Event, t: int, before: int)
    requires t < e.at && t < before
    ensures InPause(ClosedIntervals(Step(r, e), before), t) <==> InPause(ClosedIntervals(r, before), t)
  {
    match e
    case Polled(_, _, _) => PollKeepsPauses(r, e);
    case Paused(_, _) => PauseKeepsPast(r, e.shellExited, e.at, t, before);
    case Resumed(_) =>
      if r.paused {
        ClosingIsFree(r, t, before, e.at);
        assert ClosedIntervals(Step(r, e), before) == ClosedIntervals(r, e.at);
      }
  }

  lemma PauseKeepsPast(r: Runner, shellExited: bool, now: int, t: int, before: int)
    requires t < now && t < before
    ensures InPause(ClosedIntervals(Pause(r, shellExited, now), before), t) <==> InPause(ClosedIntervals(r, before), t)
  {
    var a, b := ClosedIntervals(Pause(r, shellExited, now), before), ClosedIntervals(r, before);
    assert a == b || a == b + [Interval(now, before)];
    assert forall i | 0 <= i < |b| :: a[i] == b[i];
  }

  /** The intervals record the pauses that happened, no more and no less. */
  lemma {:induction false} IntervalsAreHistory(r: Runner, events: seq<Event>, clock: int, t: int, now: int)
    requires Accounted(r, clock) && Timeline(events, clock) && clock <= t < now
    ensures InPause(ClosedIntervals(After(r, events), now), t) <==> PausedAtTime(r, events, t)
    decreases |events|
  {
    if events == [] {
      NowInPause(r, clock, t, now);
    } else if t < events[0].at {
      NowInPause(r, clock, t, now);
      StepAccounted(r, events[0], clock);
      PastIsFixed(Step(r, events[0]), events[1..], events[0].at, t, now, now);
      StepKeepsPast(r, events[0], t, now);
    } else {
      StepAccounted(r, events[0], clock);
      IntervalsAreHistory(Step(r, events[0]), events[1..], events[0].at, t, now);
    }
  }

  lemma NowInPause(r: Runner, clock: int, t: int, now: int)
    requires Accounted(r, clock) && clock <= t < now
    ensures InPause(ClosedIntervals(r, now), t) <==> r.paused
  {
    var s := ClosedIntervals(r, now);
    if r.paused {
      assert s[|r.intervals|] == Interval(r.pausedAt, now);
    }
  }

  /** Ticks of [from, to) at which the runner was not paused. */
  ghost function Working(r: Runner, events: seq<Event>, from: int, to: int): nat
    decreases to - from
  {
    if to <= from then 0 else Working(r, events, from, to - 1) + if PausedAtTime(r, events, to - 1) then 0 else 1
  }

  lemma {:induction false} WorkingIsUnpaused(start: int, hasMarker: bool, limit: int, events: seq<Event>, from: int, to: int, now: int)
    requires Timeline(events, start) && to <= now
    ensures Working(Fresh(start, hasMarker, limit), events, from, to)
         == Unpaused(ClosedIntervals(After(Fresh(start, hasMarker, limit), events), now), from, to)
    decreases if from <= to then to - from else 0
  {
    if from < to {
      var r := Fresh(start, hasMarker, limit);
      WorkingIsUnpaused(start, hasMarker, limit, events, from, to - 1, now);
      if start <= to - 1 {
        IntervalsAreHistory(r, events, start, to - 1, now);
      } else {
        PastIsFixed(r, events, start, to - 1, now, now);
        NeverBefore(r, events, start, to - 1);
      }
    }
  }

  lemma NeverBefore(r: Runner, events: seq<Event>, clock: int, t: int)
    requires Timeline(events, clock) && t < clock && !r.paused
    ensures !PausedAtTime(r, events, t)
  {
  }

  /** Elapsed time is the measure of the unpaused time since the start, over every history. */
  lemma ElapsedIsWorking(start: int, hasMarker: bool, limit: int, events: seq<Event>, from: int, now: int)
    requires Timeline(events, start) && start <= now && forall e | e in events :: e.at <= now
    ensures var r := After(Fresh(start, hasMarker, limit), events);
            && (from <= now ==> Elapsed(r, from, now) == Working(Fresh(start, hasMarker, limit), events, from, now))
            && (now < from ==> Elapsed(r, from, now) < 0)
  {
    var r0 := Fresh(start, hasMarker, limit);
    var r := After(r0, events);
    RunAccounted(r0, events, start, now);
    if from <= now {
      OverlapsMeasure(ClosedIntervals(r, now), from, now, now);
      WorkingIsUnpaused(start, hasMarker, limit, events, from, now, now);
    } else {
      OverlapsEmpty(ClosedIntervals(r, now), from, now);
    }
  }

  /** Where a poll looks at the time limit: the runner is not paused, and either its shell still runs or it
      left an orphaned group that has got its SIGTERM and no SIGKILL yet. */
  predicate ChecksLimit(r: Runner, env: Env, now: int) {
    !r.paused && ((r.exited || env.exited) ==> env.groups && r.orphaned && !r.killSent && now < r.termDeadline)
  }

  /** The start that a job with a marker recorded: what the first poll found that looked for it where the limit is
      looked at. */
  function RecordedStart(r: Runner, events: seq<Event>): Start
    decreases |events|
  {
    if events == [] then NoStart
    else
      var e := events[0];
      if e.Polled? && !r.done && !r.timedOut && ChecksLimit(r, e.env, e.at) && e.env.marker.StartAt? then e.env.marker
      else RecordedStart(Step(r, e), events[1..])
  }

  lemma StepRecords(r: Runner, e: Event)
    requires Escalating(r)
    ensures r.timeoutStart.StartAt? || !r.hasMarker ==> Step(r, e).timeoutStart == r.timeoutStart
    ensures r.timeoutStart.NoStart? && r.hasMarker ==>
              Step(r, e).timeoutStart == if e.Polled? && !r.done && !r.timedOut && ChecksLimit(r, e.env, e.at) then e.env.marker
                                         else NoStart
  {
    if e.Polled? && !r.done {
      RunningRecords(r.(exited := r.exited || e.env.exited), e.env, e.later);
    }
  }

  lemma RunningRecords(r: Runner, env: Env, now: int)
    ensures CheckRunning(r, env, now).timeoutStart ==
            if !r.paused && !r.timedOut && r.hasMarker && r.timeoutStart.NoStart? then env.marker else r.timeoutStart
  {
  }

  lemma {:induction false} StartIsRecorded(r: Runner, events: seq<Event>)
    requires Escalating(r)
    ensures After(r, events).timeoutStart ==
            if r.timeoutStart.NoStart? && r.hasMarker then RecordedStart(r, events) else r.timeoutStart
    decreases |events|
  {
    if events != [] {
      StepRecords(r, events[0]);
      StepEscalates(r, events[0]);
      ConstFields(r, [events[0]]);
      assert [events[0]][1..] == [];
      StartIsRecorded(Step(r, events[0]), events[1..]);
    }
  }

  /** The time from which a job's work counts: the start of its process, or the start that it recorded, now or at an
      earlier poll. */
  function CountsFrom(start: int, hasMarker: bool, limit: int, events: seq<Event>, env: Env): Start {
    var recorded := RecordedStart(Fresh(start, hasMarker, limit), events);
    if !hasMarker then StartAt(start) else if recorded.StartAt? then recorded else env.marker
  }

  /** A timeout fires only if, and where the limit is looked at exactly if, the job has worked, unpaused, for
      longer than the limit since its start. This includes the orphaned group that times out once more. */
  lemma TimeoutMeasuresWork(start: int, hasMarker: bool, limit: int, events: seq<Event>, env: Env, now: int, later: int)
    requires start <= now <= later && Timeline(events, start) && forall e | e in events :: e.at <= now
    requires var r := After(Fresh(start, hasMarker, limit), events); !r.done && !r.timedOut
    ensures var r0 := Fresh(start, hasMarker, limit); var r := After(r0, events);
            var since := CountsFrom(start, hasMarker, limit, events, env);
            Poll(r, env, now, later).timedOut
            <==> ChecksLimit(r, env, now) && limit > 0 && since.StartAt? && since.time <= later
                 && Working(r0, events, since.time, later) > limit
  {
    var r0 := Fresh(start, hasMarker, limit);
    var r := After(r0, events);
    ConstFields(r0, events);
    RunEscalates(r0, events);
    StartIsRecorded(r0, events);
    LimitFires(r, env, now, later);
    var since := TimeoutStart(Marked(r, env));
    if since.StartAt? {
      ElapsedIsWorking(start, hasMarker, limit, events, since.time, later);
    }
  }

  lemma LimitFires(r: Runner, env: Env, now: int, later: int)
    requires Escalating(r) && !r.done && !r.timedOut
    ensures var since := TimeoutStart(Marked(r, env));
            Poll(r, env, now, later).timedOut
            <==> ChecksLimit(r, env, now) && r.limit > 0 && since.StartAt? && Elapsed(r, since.time, later) > r.limit
  {
    var r' := r.(exited := r.exited || env.exited);
    if ChecksLimit(r, env, now) {
      assert Check(r, env, now, later) == CheckRunning(r', env, later);
      LimitCompared(r', env, later);
      var since := TimeoutStart(Marked(r, env));
      assert since.StartAt? ==> Elapsed(r', since.time, later) == Elapsed(r, since.time, later);
    } else {
      assert !Check(r, env, now, later).timedOut;
    }
  }

  lemma LimitCompared(r: Runner, env: Env, now: int)
    requires !r.paused && !r.timedOut
    ensures var since := TimeoutStart(Marked(r, env));
            CheckRunning(r, env, now).timedOut <==> since.StartAt? && r.limit > 0 && Elapsed(r, since.time, now) > r.limit
  {
    var since := TimeoutStart(Marked(r, env));
    assert since.StartAt? ==> Elapsed(Marked(r, env), since.time, now) == Elapsed(r, since.time, now);
  }

  lemma {:induction false} ConstFields(r: Runner, events: seq<Event>)
    ensures After(r, events).limit == r.limit && After(r, events).hasMarker == r.hasMarker && After(r, events).start == r.start
    decreases |events|
  {
    if events != [] {
      if events[0].Polled? {
        PollKeepsPauses(r, events[0]);
      }
      ConstFields(Step(r, events[0]), events[1..]);
    }
  }

  /** The end of a shutdown: the shutdown is incomplete if and only if not everything was reaped, now or
      before, and SIGKILL is sent only after SIGTERM and only if the groups did not leave in time. */
  lemma StopLaw(r: Runner, now: int, inTime: bool, later: int, reaping: Reaping)
    ensures var s := Stop(r, now, inTime, later, reaping);
            && s.done && !s.paused
            && (s.shutdownIncomplete <==> r.shutdownIncomplete || !(reaping.shell || reaping.shellKilled) || !reaping.groupsGone)
            && s.signals == r.signals + [Sent(Term, now)] + if inTime then [] else [Sent(Kill, later)]
  {
  }

  /** A shutdown closes an open pause: what the intervals say about the time since then is what happened. */
  lemma StopAccounted(r: Runner, clock: int, now: int, inTime: bool, later: int, reaping: Reaping, t: int)
    requires Accounted(r, clock) && clock <= now
    ensures Ordered(Stop(r, now, inTime, later, reaping).intervals, now)
    ensures clock <= t < now ==> (InPause(Stop(r, now, inTime, later, reaping).intervals, t) <==> r.paused)
  {
    ResumeAccounted(r, now);
    assert Resume(r, now).intervals == ClosedIntervals(r, now);
    if clock <= t < now {
      NowInPause(r, clock, t, now);
    }
  }

  /** The handler of an unexpected exception always ends the runner, and reports an incomplete shutdown if and
      only if it could not see the shell reaped and all groups gone. It is the one place where a second
      SIGKILL may follow. */
  lemma HandledLaw(start: int, hasMarker: bool, limit: int, events: seq<Event>, env: Env, now: int, later: int, fault: Fault)
    requires !After(Fresh(start, hasMarker, limit), events).done && fault.Raised?
    ensures var r := After(Fresh(start, hasMarker, limit), events);
            var s := PollOrHandle(r, env, now, later, fault);
            && s.done && (s.shutdownIncomplete <==>
                  !fault.verified || !(fault.reaping.shell || fault.reaping.shellKilled) || !fault.reaping.groupsGone)
            && |s.signals| <= |r.signals| + 2 && s.signals[|s.signals| - 1] == Sent(Kill, later)
  {
    var r := After(Fresh(start, hasMarker, limit), events);
    RunEscalates(Fresh(start, hasMarker, limit), events);
    SignalsGrow(r, env, now, later);
  }

  lemma SignalsGrow(r: Runner, env: Env, now: int, later: int)
    ensures |Check(r, env, now, later).signals| <= |r.signals| + 1
  {
    RunningSignals(r.(exited := r.exited || env.exited), env, later);
  }

  lemma RunningSignals(r: Runner, env: Env, now: int)
    ensures |CheckRunning(r, env, now).signals| <= |r.signals| + 1
  {
  }
}
