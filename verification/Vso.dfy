/** Tests that VSO.ai selects while the regression runs: lib/simulators/vso.py plans the runs, and a chain
    of clones (bin/simmer.py, lib/simulators/vcs.py, lib/rv_utils.py) consumes them one by one. */
module Vso {
  import opened Wrappers

  /** What int(text, 0) makes of the text. */
  datatype Seed = NoSeed | Number(value: int) | NotANumber

  datatype Assignment = Assignment(runId: string, seed: Seed)

  datatype Key = Key(build: string, test: string)

  /** A line of the ask log. */
  datatype Line = Noise | Malformed | Record(key: Key, assignment: Assignment)

  class IterationCfg {
    var target: nat
    var spawnCount: nat
    var jobs: seq<nat>                       // the iteration numbers of its jobs
    var backendAssignments: seq<Assignment>

    constructor (target: nat)
      ensures Plan() == Planned(target, 1, []) && jobs == []
    {
      this.target := target;
      spawnCount, jobs, backendAssignments := 1, [], [];
    }

    function Plan(): Planned
      reads this`target, this`spawnCount, this`backendAssignments
    {
      Planned(target, spawnCount, backendAssignments)
    }

    method Inc(job: nat)
      modifies this`spawnCount, this`jobs
      ensures spawnCount == old(spawnCount) + 1 && jobs == old(jobs) + [job]
    {
      spawnCount := spawnCount + 1;
      jobs := jobs + [job];
    }
  }

  datatype Planned = Planned(target: nat, spawnCount: nat, assignments: seq<Assignment>)

  // ----- Planning -----

  /** The template that a key names: where two have the same key, the later one. */
  function TemplateOf(keys: seq<Key>, key: Key): (i: nat)
    ensures i <= |keys|
    ensures i < |keys| ==> keys[i] == key && forall k | i < k < |keys| :: keys[k] != key
    ensures i == |keys| ==> key !in keys
  {
    if keys == [] then 0
    else
      var rest := TemplateOf(keys[1..], key);
      if rest < |keys| - 1 then rest + 1 else if keys[0] == key then 0 else |keys|
  }

  predicate Accepted(keys: seq<Key>, line: Line) {
    line.Noise? || (line.Record? && line.key in keys)
  }

  /** The assignments that the accepted lines give to template i, in the order of the log. */
  function Given(keys: seq<Key>, lines: seq<Line>, i: nat): seq<Assignment> {
    if lines == [] then []
    else
      var last := lines[|lines| - 1];
      Given(keys, lines[..|lines| - 1], i) + if last.Record? && TemplateOf(keys, last.key) == i then [last.assignment] else []
  }

  /** What a template is given is the sum of what the parts of the log give it. */
  lemma {:induction false} GivenAppends(keys: seq<Key>, a: seq<Line>, b: seq<Line>, i: nat)
    ensures Given(keys, a + b, i) == Given(keys, a, i) + Given(keys, b, i)
    decreases |b|
  {
    if b == [] {
      assert a + b == a;
    } else {
      assert (a + b)[..|a + b| - 1] == a + b[..|b| - 1];
      GivenAppends(keys, a, b[..|b| - 1], i);
    }
  }

  /** The last template with the key. */
  ghost predicate LastNamed(keys: seq<Key>, key: Key, i: nat) {
    i < |keys| && keys[i] == key && forall k | i < k < |keys| :: keys[k] != key
  }

  /** A record gives its assignment to the last template with its key, and to no other. */
  lemma RecordGives(keys: seq<Key>, key: Key, assignment: Assignment, i: nat)
    requires i < |keys|
    ensures Given(keys, [Record(key, assignment)], i) == if LastNamed(keys, key, i) then [assignment] else []
    ensures Given(keys, [Noise], i) == []
  {
    assert [Record(key, assignment)][..0] == [] && [Noise][..0] == [];
    var t := TemplateOf(keys, key);
    assert LastNamed(keys, key, i) ==> t == i;
  }

  function Records(lines: seq<Line>): nat {
    if lines == [] then 0 else Records(lines[..|lines| - 1]) + if lines[|lines| - 1].Record? then 1 else 0
  }

  function Targets(keys: seq<Key>, lines: seq<Line>, n: nat): nat {
    if n == 0 then 0 else Targets(keys, lines, n - 1) + |Given(keys, lines, n - 1)|
  }

  lemma {:induction false} OneMoreTarget(keys: seq<Key>, lines: seq<Line>, last: Line, n: nat)
    ensures Targets(keys, lines + [last], n) ==
              Targets(keys, lines, n) + if last.Record? && TemplateOf(keys, last.key) < n then 1 else 0
  {
    assert (lines + [last])[..|lines|] == lines;
    if n > 0 {
      OneMoreTarget(keys, lines, last, n - 1);
    }
  }

  lemma {:induction false} NoTargets(keys: seq<Key>, n: nat)
    ensures Targets(keys, [], n) == 0
  {
    if n > 0 {
      NoTargets(keys, n - 1);
    }
  }

  /** Nothing planned is lost: the targets of all templates sum to the planned runs, even where two
      templates share a key. */
  lemma {:induction false} TargetsSumToPlannedRuns(keys: seq<Key>, lines: seq<Line>)
    requires forall line | line in lines :: Accepted(keys, line)
    ensures Targets(keys, lines, |keys|) == Records(lines)
    decreases |lines|
  {
    if lines == [] {
      NoTargets(keys, |keys|);
    } else {
      var init, last := lines[..|lines| - 1], lines[|lines| - 1];
      assert lines == init + [last];
      assert forall line | line in init :: line in lines;
      TargetsSumToPlannedRuns(keys, init);
      OneMoreTarget(keys, init, last, |keys|);
      assert Accepted(keys, last);
    }
  }

  function Counts(keys: seq<Key>, lines: seq<Line>): seq<nat> {
    seq(|keys|, i requires 0 <= i < |keys| => |Given(keys, lines, i)|)
  }

  /** The templates with a positive count, in order. */
  function Selected(counts: seq<nat>): seq<nat> {
    if counts == [] then []
    else Selected(counts[..|counts| - 1]) + if counts[|counts| - 1] > 0 then [|counts| - 1] else []
  }

  /** The selected templates are those with a positive count, each once, in order. */
  lemma {:induction false} SelectedHas(counts: seq<nat>, i: nat)
    ensures i in Selected(counts) <==> i < |counts| && counts[i] > 0
    decreases |counts|
  {
    if counts != [] {
      SelectedHas(counts[..|counts| - 1], i);
    }
  }

  lemma {:induction false} SelectedInOrder(counts: seq<nat>)
    ensures forall k | 0 <= k < |Selected(counts)| :: Selected(counts)[k] < |counts|
    ensures forall k, m | 0 <= k < m < |Selected(counts)| :: Selected(counts)[k] < Selected(counts)[m]
    decreases |counts|
  {
    if counts != [] {
      SelectedInOrder(counts[..|counts| - 1]);
    }
  }

  datatype Asked = Asked(selected: seq<nat>, plannedRuns: nat)

  /** apply_ask_results: the first line that is malformed or names no template is an error. Otherwise every
      template gets its assignments in log order, a target to match, and is selected if it has any. */
  method ApplyAskResults(keys: seq<Key>, cfgs: seq<IterationCfg>, lines: seq<Line>) returns (r: Result<Asked>)
    requires |keys| == |cfgs| && forall i, k | 0 <= i < k < |cfgs| :: cfgs[i] != cfgs[k]
    modifies set c | c in cfgs
    ensures r.Ok? <==> forall line | line in lines :: line.Noise? || (line.Record? && line.key in keys)
    ensures r.Ok? ==>
              && (forall i | 0 <= i < |cfgs| :: i in r.value.selected <==> cfgs[i].target > 0)
              && (forall i | i in r.value.selected :: i < |cfgs|)
              && (forall k, m | 0 <= k < m < |r.value.selected| :: r.value.selected[k] < r.value.selected[m])
    ensures r.Ok? ==>
              && r.value.plannedRuns == Records(lines) == Targets(keys, lines, |keys|)
              && r.value.selected == Selected(Counts(keys, lines))
              && forall i | 0 <= i < |cfgs| :: cfgs[i].backendAssignments == Given(keys, lines, i)
                                                && cfgs[i].target == |Given(keys, lines, i)|
    ensures r.Err? ==> forall c | c in cfgs :: c.target == old(c.target)
    ensures forall c | c in cfgs :: c.spawnCount == old(c.spawnCount) && c.jobs == old(c.jobs)
  {
    ClearAssignments(cfgs);
    var planned := ReadLog(keys, cfgs, lines);
    if planned.Err? {
      return Err(planned.reason);
    }
    TargetsSumToPlannedRuns(keys, lines);
    forall i: nat | i < |keys|
      ensures i in Selected(Counts(keys, lines)) <==> Counts(keys, lines)[i] > 0
    {
      SelectedHas(Counts(keys, lines), i);
    }
    SelectedInOrder(Counts(keys, lines));
    var selected := SetTargets(cfgs, Counts(keys, lines));
    r := Ok(Asked(selected, planned.value));
  }

  /** The loop over the log. */
  method ReadLog(keys: seq<Key>, cfgs: seq<IterationCfg>, lines: seq<Line>) returns (planned: Result<nat>)
    requires |keys| == |cfgs| && forall i, k | 0 <= i < k < |cfgs| :: cfgs[i] != cfgs[k]
    requires forall c | c in cfgs :: c.backendAssignments == []
    modifies (set c | c in cfgs)`backendAssignments
    ensures planned.Ok? <==> forall line | line in lines :: Accepted(keys, line)
    ensures planned.Ok? ==> planned.value == Records(lines)
    ensures planned.Ok? ==> forall i | 0 <= i < |cfgs| :: cfgs[i].backendAssignments == Given(keys, lines, i)
  {
    var plannedRuns := 0;
    var n := 0;
    while n < |lines|
      invariant 0 <= n <= |lines| && plannedRuns == Records(lines[..n])
      invariant forall line | line in lines[..n] :: Accepted(keys, line)
      invariant forall i | 0 <= i < |cfgs| :: cfgs[i].backendAssignments == Given(keys, lines[..n], i)
    {
      assert lines[..n + 1][..n] == lines[..n] && lines[..n + 1][n] == lines[n];
      if !Accepted(keys, lines[n]) {
        assert lines[n] in lines;
        return Err("malformed record or unknown build/test pair");
      }
      if lines[n].Record? {
        GiveAssignment(cfgs[TemplateOf(keys, lines[n].key)], lines[n].assignment);
        plannedRuns := plannedRuns + 1;
      }
      n := n + 1;
    }
    assert lines[..n] == lines;
    planned := Ok(plannedRuns);
  }

  method GiveAssignment(c: IterationCfg, a: Assignment)
    modifies c`backendAssignments
    ensures c.backendAssignments == old(c.backendAssignments) + [a]
  {
    c.backendAssignments := c.backendAssignments + [a];
  }

  method ClearAssignments(cfgs: seq<IterationCfg>)
    modifies (set c | c in cfgs)`backendAssignments
    ensures forall c | c in cfgs :: c.backendAssignments == []
  {
    var i := 0;
    while i < |cfgs|
      invariant 0 <= i <= |cfgs|
      invariant forall k | 0 <= k < i :: cfgs[k].backendAssignments == []
    {
      cfgs[i].backendAssignments := [];
      i := i + 1;
    }
  }

  method SetTarget(c: IterationCfg) returns (chosen: bool)
    modifies c`target
    ensures c.target == |c.backendAssignments| && chosen == (c.target > 0)
  {
    c.target := |c.backendAssignments|;
    chosen := c.target > 0;
  }

  method SetTargets(cfgs: seq<IterationCfg>, ghost counts: seq<nat>) returns (selected: seq<nat>)
    requires forall i, k | 0 <= i < k < |cfgs| :: cfgs[i] != cfgs[k]
    requires |counts| == |cfgs| && forall i | 0 <= i < |cfgs| :: |cfgs[i].backendAssignments| == counts[i]
    modifies (set c | c in cfgs)`target
    ensures selected == Selected(counts)
    ensures forall i | 0 <= i < |cfgs| :: cfgs[i].target == counts[i]
  {
    selected := [];
    var i := 0;
    while i < |cfgs|
      invariant 0 <= i <= |cfgs| && selected == Selected(counts[..i])
      invariant forall k | 0 <= k < i :: cfgs[k].target == counts[k]
    {
      var chosen := SetTarget(cfgs[i]);
      assert counts[..i + 1][..i] == counts[..i] && chosen == (counts[i] > 0);
      if chosen {
        selected := selected + [i];
      }
      i := i + 1;
    }
    assert counts[..i] == counts;
  }

  // ----- Consuming -----

  /** prepare_test: take the first assignment. A seed that is no number is an error, after the pop. */
  function Popped(p: Planned): Result<(Planned, Seed)> {
    if p.assignments == [] then Err("no assignment")
    else Ok((p.(assignments := p.assignments[1..]), p.assignments[0].seed))
  }

  /** should_spawn_test_job. */
  predicate ShouldSpawn(p: Planned) {
    p.spawnCount <= p.target
  }

  function Spawned(p: Planned): Planned {
    p.(spawnCount := p.spawnCount + 1)
  }

  class TestJob {
    const icfg: IterationCfg
    const iteration: nat
    var vsoRunId: string

    /** Without a planned iteration a job takes the next number. */
    constructor (icfg: IterationCfg)
      modifies icfg`spawnCount, icfg`jobs
      ensures this.icfg == icfg && iteration == old(icfg.spawnCount)
      ensures icfg.Plan() == Spawned(old(icfg.Plan())) && icfg.jobs == old(icfg.jobs) + [iteration]
    {
      this.icfg := icfg;
      iteration := icfg.spawnCount;
      vsoRunId := "";
      new;
      icfg.Inc(iteration);
    }

    method PrepareTest() returns (r: Result<Seed>)
      modifies this`vsoRunId, icfg`backendAssignments
      ensures var given := old(icfg.backendAssignments);
              && icfg.backendAssignments == (if given == [] then [] else given[1..])
              && (given == [] ==> r.Err? && vsoRunId == old(vsoRunId))
              && (given != [] ==> vsoRunId == given[0].runId && (r.Err? <==> given[0].seed.NotANumber?)
                                  && (r.Ok? ==> r.value == given[0].seed))
      ensures var popped := Popped(old(icfg.Plan()));
              && icfg.Plan() == (if popped.Ok? then popped.value.0 else old(icfg.Plan()))
              && (popped.Ok? ==> vsoRunId == old(icfg.backendAssignments)[0].runId)
              && r == if popped.Err? then Err("no assignment")
                      else if popped.value.1.NotANumber? then Err("non-integer seed") else Ok(popped.value.1)
    {
      if icfg.backendAssignments == [] {
        return Err("no assignment");
      }
      var first := icfg.backendAssignments[0];
      icfg.backendAssignments := icfg.backendAssignments[1..];
      vsoRunId := first.runId;
      r := if first.seed.NotANumber? then Err("non-integer seed") else Ok(first.seed);
    }

    /** The end of post_run: a clone, if the plan asks for more jobs. */
    method SpawnNext() returns (clone: TestJob?)
      modifies icfg`spawnCount, icfg`jobs
      ensures (clone != null) == ShouldSpawn(old(icfg.Plan())) == (old(icfg.spawnCount) <= icfg.target)
      ensures icfg.Plan() == if clone != null then Spawned(old(icfg.Plan())) else old(icfg.Plan())
      ensures clone != null ==> fresh(clone) && clone.icfg == icfg && clone.iteration == old(icfg.spawnCount)
    {
      clone := null;
      if icfg.spawnCount <= icfg.target {
        clone := new TestJob(icfg);
      }
    }
  }

  /** The current job of a chain waits, has prepared its run, or the chain is over. */
  datatype Phase = Queued | Prepared | Over

  /** A selected test while it runs: jobs created, assignments taken, jobs that reached the end of post_run. */
  datatype Chain = Chain(plan: Planned, phase: Phase, jobs: nat, used: seq<Assignment>, ends: nat)

  datatype Step = Prepare | Abort | End

  /** The template's job is created with the number 1; then the plan is made. */
  function Begin(assignments: seq<Assignment>): Chain {
    Chain(Planned(|assignments|, 2, assignments), Queued, 1, [], 0)
  }

  predicate Enabled(c: Chain, step: Step) {
    match step
    case Prepare => c.phase.Queued?
    case Abort => !c.phase.Over?
    case End => c.phase.Prepared?
  }

  function Apply(c: Chain, step: Step): Chain
    requires Enabled(c, step)
  {
    match step
    case Prepare =>
      var popped := Popped(c.plan);
      if popped.Err? then c.(phase := Over)
      else
        c.(plan := popped.value.0, used := c.used + [c.plan.assignments[0]],
           phase := if popped.value.1.NotANumber? then Over else Prepared)
    case Abort => c.(phase := Over)
    case End =>
      if ShouldSpawn(c.plan) then c.(plan := Spawned(c.plan), phase := Queued, jobs := c.jobs + 1, ends := c.ends + 1)
      else c.(phase := Over, ends := c.ends + 1)
  }

  predicate Legal(c: Chain, run: seq<Step>)
    decreases |run|
  {
    run == [] || (Enabled(c, run[0]) && Legal(Apply(c, run[0]), run[1..]))
  }

  function After(c: Chain, run: seq<Step>): Chain
    requires Legal(c, run)
    decreases |run|
  {
    if run == [] then c else After(Apply(c, run[0]), run[1..])
  }

  ghost predicate Inv(all: seq<Assignment>, c: Chain) {
    && c.plan.target == |all| && c.plan.spawnCount == c.jobs + 1
    && 1 <= c.jobs <= |all|
    && c.used + c.plan.assignments == all
    && (match c.phase
        case Queued => |c.used| == c.jobs - 1 && c.ends == c.jobs - 1
        case Prepared => |c.used| == c.jobs && c.ends == c.jobs - 1
        case Over => c.jobs - 1 <= |c.used| <= c.jobs && c.jobs - 1 <= c.ends <= |c.used|
                     && (c.ends == c.jobs ==> c.jobs == |all|))
  }

  lemma StepKeeps(all: seq<Assignment>, c: Chain, step: Step)
    requires Inv(all, c) && Enabled(c, step)
    ensures Inv(all, Apply(c, step))
  {
  }

  lemma {:induction false} RunKeeps(all: seq<Assignment>, c: Chain, run: seq<Step>)
    requires Inv(all, c) && Legal(c, run)
    ensures Inv(all, After(c, run))
    decreases |run|
  {
    if run != [] {
      StepKeeps(all, c, run[0]);
      RunKeeps(all, Apply(c, run[0]), run[1..]);
    }
  }

  /** Exact consumption. Over every history of a selected test: at most `target` jobs are created, a job
      that prepares its run finds an assignment, assignments are taken first-in first-out and at most once;
      if every job created reached the end of post_run, then every assignment was used exactly once, and all
      were used if and only if `target` jobs were created and each of them prepared its run. */
  lemma ExactConsumption(all: seq<Assignment>, run: seq<Step>)
    requires all != [] && Legal(Begin(all), run)
    ensures var c := After(Begin(all), run);
            && c.jobs <= |all|
            && (c.phase.Queued? ==> c.plan.assignments != [])
            && |c.used| <= c.jobs && c.used == all[..|c.used|]
            && (c.phase.Over? && c.ends == c.jobs <==> c.ends == |all|)
            && (c.ends == |all| ==> c.used == all && c.jobs == |all|)
            && (c.used == all <==> c.jobs == |all| && |c.used| == c.jobs)
  {
    RunKeeps(all, Begin(all), run);
  }
}
