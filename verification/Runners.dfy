/** SubprocessJobRunner as the object that it is: every method is proved to compute the transition of
    RunnerSpec. */
module Runners {
  import opened RunnerSpec

  class SubprocessJobRunner {
    const start: int
    const hasMarker: bool
    const limit: int
    var exited: bool
    var timedOut: bool
    var orphaned: bool
    var killSent: bool
    var termDeadline: int
    var killDeadline: int
    var ownershipDeadline: int
    var timeoutStart: Start
    var paused: bool
    var pausedAt: int
    var intervals: seq<Interval>
    var done: bool
    var shutdownIncomplete: bool
    var signals: seq<Sent>

    function Abs(): Runner
      reads this
    {
      Runner(start, hasMarker, limit, exited, timedOut, orphaned, killSent, termDeadline, killDeadline, ownershipDeadline,
             timeoutStart, paused, pausedAt, intervals, done, shutdownIncomplete, signals)
    }

    constructor (start: int, hasMarker: bool, limit: int)
      ensures Abs() == Fresh(start, hasMarker, limit)
    {
      this.start, this.hasMarker, this.limit := start, hasMarker, limit;
      exited, timedOut, orphaned, killSent := false, false, false, false;
      termDeadline, killDeadline, ownershipDeadline, timeoutStart := 0, 0, 0, NoStart;
      paused, pausedAt, intervals := false, 0, [];
      done, shutdownIncomplete, signals := false, false, [];
    }

    /** The overlaps are added up interval by interval. */
    method PausedDurationSince(since: int, now: int) returns (duration: int)
      ensures duration == PausedDuration(Abs(), since, now)
    {
      duration := 0;
      var all := intervals;
      if paused {
        all := all + [Interval(pausedAt, now)];
      }
      assert all == ClosedIntervals(Abs(), now);
      var i := 0;
      assert all[i..] == all;
      while i < |all|
        invariant 0 <= i <= |all|
        invariant duration + Overlaps(all[i..], since, now) == PausedDuration(Abs(), since, now)
      {
        var overlapStart := if since < all[i].from then all[i].from else since;
        var overlapEnd := if now < all[i].to then now else all[i].to;
        if overlapEnd > overlapStart {
          duration := duration + (overlapEnd - overlapStart);
        }
        assert all[i..][1..] == all[i + 1..];
        i := i + 1;
      }
    }

    method SendTerm(now: int)
      modifies this`termDeadline, this`signals
      ensures Abs() == Terminated(old(Abs()), now)
    {
      termDeadline := now + TERM_GRACE;
      signals := signals + [Sent(Term, now)];
    }

    method SendKill(now: int)
      modifies this`killSent, this`killDeadline, this`ownershipDeadline, this`signals
      ensures Abs() == Killed(old(Abs()), now)
    {
      if killSent {
        return;
      }
      signals := signals + [Sent(Signal.Kill, now)];
      killSent := true;
      killDeadline := now + KILL_GRACE;
      ownershipDeadline := killDeadline + OWNERSHIP_GRACE;
    }

    method OwnershipWaitExpired(now: int) returns (expired: bool)
      modifies this`shutdownIncomplete
      ensures expired == (now >= ownershipDeadline)
      ensures Abs().(done := done || expired) == Waited(old(Abs()), now)
    {
      if now < ownershipDeadline {
        return false;
      }
      shutdownIncomplete := true;
      return true;
    }

    /** A poll; an exception in it is handled by killing and reaping what the runner manages. */
    method CheckForDone(e: Env, now: int, later: int, fault: Fault) returns (result: bool)
      modifies this`exited, this`orphaned, this`done, this`timedOut, this`termDeadline, this`killSent, this`killDeadline,
               this`ownershipDeadline, this`timeoutStart, this`shutdownIncomplete, this`signals
      ensures Abs() == PollOrHandle(old(Abs()), e, now, later, fault) && result == done
    {
      if done {
        return true;
      }
      if fault.NoFault? {
        result := Check(e, now, later);
      } else {
        if fault.afterwards {
          var _ := Check(e, now, later);
        }
        Handle(fault.verified, fault.reaping, later);
        result := true;
      }
      done := result;
    }

    method Handle(verified: bool, reaping: Reaping, now: int)
      modifies this`shutdownIncomplete, this`signals
      ensures Abs().(done := true) == Handled(old(Abs()), verified, reaping, now)
    {
      signals := signals + [Sent(Signal.Kill, now)];
      if verified {
        var directChildReaped := reaping.shell || reaping.shellKilled;
        shutdownIncomplete := !directChildReaped || !reaping.groupsGone;
      } else {
        shutdownIncomplete := true;
      }
    }

    /** _wait_for_process_group_exit: probe i finds groups at time clock(i); the last probe decides. */
    static method WaitForProcessGroupExit(groups: nat -> bool, clock: nat -> int, deadline: int, ghost enough: nat)
        returns (gone: bool, probes: nat)
      requires clock(enough) >= deadline
      ensures 2 <= probes <= enough + 2 && gone == !groups(probes - 1)
      ensures forall i | 0 <= i < probes - 2 :: groups(i) && clock(i) < deadline
      ensures !groups(probes - 2) || clock(probes - 2) >= deadline
    {
      var i := 0;
      while groups(i) && clock(i) < deadline
        invariant i <= enough && forall k | 0 <= k < i :: groups(k) && clock(k) < deadline
        decreases enough - i
      {
        i := i + 1;
      }
      gone, probes := !groups(i + 1), i + 2;
    }

    /** _check_for_done. */
    method Check(e: Env, now: int, later: int) returns (result: bool)
      requires !done
      modifies this`exited, this`orphaned, this`timedOut, this`termDeadline, this`killSent, this`killDeadline, this`ownershipDeadline, this`timeoutStart,
               this`shutdownIncomplete, this`signals
      ensures !done && Abs().(done := result) == RunnerSpec.Check(old(Abs()), e, now, later)
    {
      exited := exited || e.exited;
      if exited && !e.groups {
        result := true;
      } else if exited {
        result := CheckExited(e, now, later);
      } else {
        result := CheckRunning(e, later);
      }
    }

    /** The shell has exited but left processes behind. */
    method CheckExited(e: Env, now: int, later: int) returns (result: bool)
      requires !done && exited && e.groups
      modifies this`orphaned, this`timedOut, this`termDeadline, this`killSent, this`killDeadline, this`ownershipDeadline, this`timeoutStart,
               this`shutdownIncomplete, this`signals
      ensures !done && Abs().(done := result) == RunnerSpec.Check(old(Abs()), e, now, later)
    {
      if !timedOut && !orphaned {
        orphaned := true;
        SendTerm(now);
        return false;
      }
      if !killSent && now >= termDeadline {
        SendKill(now);
        return false;
      }
      if killSent && now < killDeadline {
        return false;
      }
      if killSent {
        result := OwnershipWaitExpired(now);
        return;
      }
      result := CheckRunning(e, later);
    }

    method CheckRunning(e: Env, now: int) returns (result: bool)
      requires !done
      modifies this`timedOut, this`termDeadline, this`killSent, this`killDeadline, this`ownershipDeadline, this`timeoutStart,
               this`shutdownIncomplete, this`signals
      ensures !done && Abs().(done := result) == RunnerSpec.CheckRunning(old(Abs()), e, now)
    {
      if paused {
        return false;
      }
      if timedOut {
        result := false;
        if !killSent && now >= termDeadline {
          SendKill(now);
        } else if killSent && now >= killDeadline {
          result := OwnershipWaitExpired(now);
        }
        return;
      }
      CheckTimeout(e, now);
      result := false;
    }

    method CheckTimeout(e: Env, now: int)
      requires !paused && !timedOut
      modifies this`timedOut, this`termDeadline, this`timeoutStart, this`signals
      ensures Abs() == RunnerSpec.CheckRunning(old(Abs()), e, now)
    {
      var since := start;
      if hasMarker {
        if timeoutStart.NoStart? {
          timeoutStart := e.marker;
        }
        if timeoutStart.NoStart? {
          return;
        }
        since := timeoutStart.time;
      }
      assert Abs() == Marked(old(Abs()), e);
      var pausedFor := PausedDurationSince(since, now);
      if limit > 0 && now - (since + pausedFor) > limit {
        timedOut := true;
        SendTerm(now);
      }
    }

    method Pause(shellExited: bool, now: int) returns (isPaused: bool)
      modifies this`paused, this`pausedAt, this`exited
      ensures Abs() == RunnerSpec.Pause(old(Abs()), shellExited, now)
      ensures isPaused <==> !done && !timedOut && !exited
      ensures isPaused ==> paused
    {
      if done || timedOut {
        return false;
      }
      exited := exited || shellExited;
      if exited {
        return false;
      }
      if !paused {
        paused := true;
        pausedAt := now;
      }
      return true;
    }

    method Resume(now: int) returns (wasPaused: bool)
      modifies this`paused, this`pausedAt, this`intervals
      ensures Abs() == RunnerSpec.Resume(old(Abs()), now) && wasPaused == old(paused)
    {
      if !paused {
        return false;
      }
      intervals := intervals + [Interval(pausedAt, now)];
      paused := false;
      pausedAt := 0;
      return true;
    }

    method Kill(now: int, inTime: bool, later: int, reaping: Reaping) returns (stopped: bool)
      modifies this`paused, this`pausedAt, this`intervals, this`killSent, this`shutdownIncomplete, this`done, this`signals
      ensures Abs() == Stop(old(Abs()), now, inTime, later, reaping)
      ensures stopped <==> (reaping.shell || reaping.shellKilled) && reaping.groupsGone
      ensures !old(shutdownIncomplete) ==> stopped == !shutdownIncomplete
    {
      var _ := Resume(now);
      signals := signals + [Sent(Term, now)];
      if !inTime {
        signals := signals + [Sent(Signal.Kill, later)];
        killSent := true;
      }
      var directChildReaped := reaping.shell;
      if !directChildReaped {
        directChildReaped := reaping.shellKilled;
      }
      if !directChildReaped || !reaping.groupsGone {
        shutdownIncomplete := true;
      }
      done := true;
      stopped := directChildReaped && reaping.groupsGone;
    }
  }
}
