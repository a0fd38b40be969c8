/** What a runner comes to, told by its history and its signals alone: an escalation starts with the first poll that
    sees an orphaned group, it is not given up early, done is final, and a pause takes effect exactly where it may. */
module RunnerOutcomes {
  import opened RunnerSpec
  import opened RunnerLaws

  lemma {:induction false} AfterAppends(r: Runner, a: seq<Event>, b: seq<Event>)
    ensures After(r, a + b) == After(After(r, a), b)
    decreases |a|
  {
    if a == [] {
      assert a + b == b;
    } else {
      assert (a + b)[1..] == a[1..] + b;
      AfterAppends(Step(r, a[0]), a[1..], b);
    }
  }

  // ----- Signals -----

  /** A poll that sees the shell gone and its process group alive has SIGTERM sent, if no signal was sent before. */
  lemma EscalationStarts(start: int, hasMarker: bool, limit: int, events: seq<Event>, env: Env, now: int, later: int)
    requires !After(Fresh(start, hasMarker, limit), events).done
    requires After(Fresh(start, hasMarker, limit), events).exited || env.exited
    requires env.groups
    ensures var r := After(Fresh(start, hasMarker, limit), events); var s := Poll(r, env, now, later);
            && s.signals != [] && s.signals[0].signal == Term
            && (r.signals == [] ==> s.signals == [Sent(Term, now)] && !s.done)
  {
    RunEscalates(Fresh(start, hasMarker, limit), events);
    var r := After(Fresh(start, hasMarker, limit), events);
    CheckEscalates(r, env, now, later);
    if r.signals != [] {
      SignalsStay(r, Polled(env, now, later));
    }
  }

  lemma SignalsStay(r: Runner, e: Event)
    ensures r.signals <= Step(r, e).signals
  {
    if e.Polled? && !r.done {
      CheckSignalsStay(r, e.env, e.at, e.later);
    }
  }

  lemma CheckSignalsStay(r: Runner, env: Env, now: int, later: int)
    ensures r.signals <= Check(r, env, now, later).signals
  {
    var r' := r.(exited := r.exited || env.exited);
    if !r'.exited || (env.groups && !r'.killSent) {
      RunningSignalsStay(r', env, later);
    }
  }

  lemma RunningSignalsStay(r: Runner, env: Env, now: int)
    ensures r.signals <= CheckRunning(r, env, now).signals
  {
  }

  lemma {:induction false} SignalsStayLong(r: Runner, events: seq<Event>)
    ensures r.signals <= After(r, events).signals
    decreases |events|
  {
    if events != [] {
      SignalsStay(r, events[0]);
      SignalsStayLong(Step(r, events[0]), events[1..]);
    }
  }

  /** An orphaned group is not waited for for ever: from the first poll that sees it, with nothing sent before, prompt
      polls end the runner within the graces, whatever the group does. */
  lemma OrphanIsEnded(start: int, hasMarker: bool, limit: int, before: seq<Event>, e: Event, rest: seq<Event>,
                      gap: nat, slip: nat)
    requires Prompt(before + [e] + rest, start, gap, slip) && e.Polled? && e.env.groups
    requires var r := After(Fresh(start, hasMarker, limit), before); !r.done && r.signals == [] && (r.exited || e.env.exited)
    ensures var r := After(Fresh(start, hasMarker, limit), before + [e] + rest);
            && r.signals != [] && r.signals[0] == Sent(Term, e.at)
            && (!r.done ==> LastPoll(before + [e] + rest, start)
                            < e.at + 2 * TERM_GRACE + KILL_GRACE + OWNERSHIP_GRACE + gap + 2 * slip)
  {
    var first := Fresh(start, hasMarker, limit);
    EscalationStarts(start, hasMarker, limit, before, e.env, e.at, e.later);
    AfterAppends(first, before + [e], rest);
    AfterAppends(first, before, [e]);
    var seen := After(first, before + [e]);
    assert seen == Step(After(first, before), e) by { assert [e][1..] == []; }
    SignalsStayLong(seen, rest);
    DoneInTime(start, hasMarker, limit, before + [e] + rest, gap, slip);
  }

  /** A shutdown is given up no sooner than the graces after SIGKILL, and only while something is left. */
  lemma GivesUpLate(start: int, hasMarker: bool, limit: int, events: seq<Event>, env: Env, now: int, later: int)
    requires now <= later && !After(Fresh(start, hasMarker, limit), events).done
    ensures var r := After(Fresh(start, hasMarker, limit), events); var s := Poll(r, env, now, later);
            s.shutdownIncomplete ==>
              && r.signals != [] && r.signals[|r.signals| - 1].signal.Kill? && s.signals == r.signals
              && later >= r.signals[|r.signals| - 1].at + KILL_GRACE + OWNERSHIP_GRACE
              && (env.groups || !(r.exited || env.exited))
  {
    RunEscalates(Fresh(start, hasMarker, limit), events);
  }

  /** Done is final: nothing is signalled or reported afterwards. */
  lemma {:induction false} DoneIsFinal(r: Runner, events: seq<Event>)
    requires r.done
    ensures var s := After(r, events); s.done && s.signals == r.signals && s.shutdownIncomplete == r.shutdownIncomplete
    decreases |events|
  {
    if events != [] {
      DoneIsFinal(Step(r, events[0]), events[1..]);
    }
  }

  // ----- Pauses -----

  /** The event shows that the shell has exited. */
  predicate ShowsExit(e: Event) {
    (e.Polled? && e.env.exited) || (e.Paused? && e.shellExited)
  }

  /** The exit was seen while it mattered: by a poll before the end, or by a request to pause before a timeout. */
  ghost predicate ExitSeen(r: Runner, events: seq<Event>)
    decreases |events|
  {
    events != [] &&
    ((ShowsExit(events[0]) && !r.done && (events[0].Paused? ==> !r.timedOut)) || ExitSeen(Step(r, events[0]), events[1..]))
  }

  lemma StepSeesExit(r: Runner, e: Event)
    ensures Step(r, e).exited <==> r.exited || (ShowsExit(e) && !r.done && (e.Paused? ==> !r.timedOut))
  {
    if e.Polled? && !r.done {
      RunningSeesExit(r.(exited := r.exited || e.env.exited), e.env, e.later);
    }
  }

  lemma RunningSeesExit(r: Runner, env: Env, now: int)
    ensures CheckRunning(r, env, now).exited == r.exited
  {
  }

  /** The exit of the shell is remembered. */
  lemma {:induction false} ExitIsRemembered(r: Runner, events: seq<Event>)
    ensures After(r, events).exited <==> r.exited || ExitSeen(r, events)
    decreases |events|
  {
    if events != [] {
      StepSeesExit(r, events[0]);
      ExitIsRemembered(Step(r, events[0]), events[1..]);
    }
  }

  /** A request to pause takes effect exactly for a runner that is not done, was sent no signal, and whose shell was
      not seen to have exited, now or before. The time counts from the first of several requests. */
  lemma PauseTakesEffect(start: int, hasMarker: bool, limit: int, events: seq<Event>, shellExited: bool, at: int)
    ensures var r0 := Fresh(start, hasMarker, limit); var r := After(r0, events);
            var s := Pause(r, shellExited, at);
            && (s.paused <==> r.paused || (!r.done && r.signals == [] && !ExitSeen(r0, events) && !shellExited))
            && (s.paused && !r.paused ==> s.pausedAt == at)
            && (r.paused ==> s.pausedAt == r.pausedAt)
            && s.intervals == r.intervals && s.signals == r.signals && s.done == r.done
  {
    RunEscalates(Fresh(start, hasMarker, limit), events);
    ExitIsRemembered(Fresh(start, hasMarker, limit), events);
  }
}
