/** Lock acquisition across simmer processes: shared runtime locks in path order before the first job, one
    compile lock at a time while jobs run, run-directory locks without ever waiting. */
module LockOrder {
  import opened Wrappers
  import opened Sorting

  type Pid = nat

  /** Lock files. Paths are numbered in the order in which absolute paths sort. */
  datatype Lock = Runtime(path: int) | Compile(directory: nat) | RunDirectory(name: nat)

  /** A lock belongs to one vcomp (or test) job of one process. */
  datatype Owner = Owner(pid: Pid, job: nat)

  /** One acquire_shared_runtime_lock call. */
  datatype Entry = Entry(path: int, job: nat)

  /** The calls that each process makes, in its order. */
  datatype Config = Config(scripts: map<Pid, seq<Entry>>)

  function Script(c: Config, p: Pid): seq<Entry> {
    if p in c.scripts then c.scripts[p] else []
  }

  function ByPath(a: Entry, b: Entry): bool {
    a.path <= b.path
  }

  ghost predicate InOrder(c: Config) {
    forall p | p in c.scripts :: Sorted(ByPath, c.scripts[p])
  }

  /** No process locks one runtime path for two different jobs. */
  predicate Unambiguous(c: Config) {
    forall p, i, k | p in c.scripts && 0 <= i < k < |c.scripts[p]| && c.scripts[p][i].path == c.scripts[p][k].path ::
      c.scripts[p][i].job == c.scripts[p][k].job
  }

  datatype State = State(owner: map<Lock, Owner>, next: map<Pid, nat>, waits: map<Pid, (Lock, nat)>, ended: set<Pid>)

  function Start(): State {
    State(map[], map[], map[], {})
  }

  function Next(s: State, p: Pid): nat {
    if p in s.next then s.next[p] else 0
  }

  predicate Owns(s: State, l: Lock, o: Owner) {
    l in s.owner && s.owner[l] == o
  }

  datatype Label =
    | Ask(p: Pid)                                  // wait for the next runtime lock of the script
    | Skip(p: Pid)                                 // the same job holds it already
    | AskCompile(p: Pid, directory: nat, job: nat)
    | Grant(p: Pid)
    | ClaimRun(p: Pid, name: nat, job: nat)
    | Release(p: Pid, lock: Lock)
    | GiveUp(p: Pid)                               // cancelled while waiting
    | Exit(p: Pid)                                 // the end of a process releases everything

  predicate AtEntry(c: Config, s: State, p: Pid) {
    p !in s.ended && p !in s.waits && Next(s, p) < |Script(c, p)|
  }

  /** Jobs run once all runtime locks are held. */
  predicate Running(c: Config, s: State, p: Pid) {
    p !in s.ended && p !in s.waits && Next(s, p) == |Script(c, p)|
  }

  predicate HoldsCompile(s: State, p: Pid) {
    exists l | l in s.owner :: l.Compile? && s.owner[l].pid == p
  }

  predicate Enabled(c: Config, s: State, l: Label) {
    match l
    case Ask(p) => AtEntry(c, s, p) && var e := Script(c, p)[Next(s, p)]; !Owns(s, Runtime(e.path), Owner(p, e.job))
    case Skip(p) => AtEntry(c, s, p) && var e := Script(c, p)[Next(s, p)]; Owns(s, Runtime(e.path), Owner(p, e.job))
    case AskCompile(p, _, _) => Running(c, s, p) && !HoldsCompile(s, p)
    case Grant(p) => p in s.waits && s.waits[p].0 !in s.owner
    case ClaimRun(p, name, _) => Running(c, s, p) && RunDirectory(name) !in s.owner
    case Release(p, lock) => lock in s.owner && s.owner[lock].pid == p
    case GiveUp(p) => p in s.waits
    case Exit(_) => true
  }

  function Apply(c: Config, s: State, l: Label): State
    requires Enabled(c, s, l)
  {
    match l
    case Ask(p) => var e := Script(c, p)[Next(s, p)]; s.(waits := s.waits[p := (Runtime(e.path), e.job)])
    case Skip(p) => s.(next := s.next[p := Next(s, p) + 1])
    case AskCompile(p, directory, job) => s.(waits := s.waits[p := (Compile(directory), job)])
    case Grant(p) =>
      var (lock, job) := s.waits[p];
      s.(owner := s.owner[lock := Owner(p, job)], waits := s.waits - {p},
         next := if lock.Runtime? then s.next[p := Next(s, p) + 1] else s.next)
    case ClaimRun(p, name, job) => s.(owner := s.owner[RunDirectory(name) := Owner(p, job)])
    case Release(_, lock) => s.(owner := s.owner - {lock})
    case GiveUp(p) => s.(waits := s.waits - {p}, ended := s.ended + {p})
    case Exit(p) => s.(owner := map l | l in s.owner && s.owner[l].pid != p :: s.owner[l], waits := s.waits - {p},
                       ended := s.ended + {p})
  }

  predicate Legal(c: Config, s: State, run: seq<Label>)
    decreases |run|
  {
    run == [] || (Enabled(c, s, run[0]) && Legal(c, Apply(c, s, run[0]), run[1..]))
  }

  function After(c: Config, s: State, run: seq<Label>): State
    requires Legal(c, s, run)
    decreases |run|
  {
    if run == [] then s else After(c, Apply(c, s, run[0]), run[1..])
  }

  // ----- The wait-for graph -----

  /** p waits for a lock that q holds. */
  predicate WaitsFor(s: State, p: Pid, q: Pid) {
    p in s.waits && s.waits[p].0 in s.owner && s.owner[s.waits[p].0].pid == q
  }

  /** Each waits for the one after it. */
  ghost predicate Chained(s: State, chain: seq<Pid>) {
    forall i | 0 <= i < |chain| - 1 :: WaitsFor(s, chain[i], chain[i + 1])
  }

  ghost predicate CircularWait(s: State, cycle: seq<Pid>) {
    cycle != [] && Chained(s, cycle) && WaitsFor(s, cycle[|cycle| - 1], cycle[0])
  }

  /** Runtime locks by path, all of them before compile locks. */
  predicate Before(a: Lock, b: Lock) {
    a.Runtime? && (b.Compile? || (b.Runtime? && a.path < b.path))
  }

  ghost predicate Inv(c: Config, s: State) {
    && (forall l | l in s.owner && l.Runtime? :: TakenInScript(c, s, l.path, s.owner[l]))
    && (forall l | l in s.owner && l.Compile? :: Next(s, s.owner[l].pid) == |Script(c, s.owner[l].pid)|)
    && (forall p | p in s.waits :: WaitFits(c, s, p))
  }

  /** A held runtime lock was taken for an entry that the script has passed. */
  ghost predicate TakenInScript(c: Config, s: State, path: int, o: Owner) {
    && Next(s, o.pid) <= |Script(c, o.pid)|
    && exists i :: 0 <= i < Next(s, o.pid) && Script(c, o.pid)[i] == Entry(path, o.job)
  }

  ghost predicate WaitFits(c: Config, s: State, p: Pid)
    requires p in s.waits
  {
    match s.waits[p].0
    case Runtime(path) =>
      && Next(s, p) < |Script(c, p)| && Script(c, p)[Next(s, p)] == Entry(path, s.waits[p].1)
      && !Owns(s, Runtime(path), Owner(p, s.waits[p].1))
    case Compile(_) => Next(s, p) == |Script(c, p)| && !HoldsCompile(s, p)
    case RunDirectory(_) => false
  }

  lemma StepKeeps(c: Config, s: State, l: Label)
    requires Inv(c, s) && Enabled(c, s, l)
    ensures Inv(c, Apply(c, s, l))
  {
    match l
    case Grant(p) => GrantKeeps(c, s, p);
    case Exit(_) | GiveUp(_) | Release(_, _) => LeaveKeeps(c, s, l);
    case _ =>
  }

  lemma GrantKeeps(c: Config, s: State, p: Pid)
    requires Inv(c, s) && Enabled(c, s, Grant(p))
    ensures Inv(c, Apply(c, s, Grant(p)))
  {
    assert WaitFits(c, s, p);
  }

  lemma LeaveKeeps(c: Config, s: State, l: Label)
    requires Inv(c, s) && Enabled(c, s, l) && (l.Exit? || l.GiveUp? || l.Release?)
    ensures Inv(c, Apply(c, s, l))
  {
  }

  /** Along every wait the wanted locks climb. */
  lemma WaitClimbs(c: Config, s: State, p: Pid, q: Pid)
    requires Inv(c, s) && InOrder(c) && Unambiguous(c) && WaitsFor(s, p, q) && q in s.waits
    ensures Before(s.waits[p].0, s.waits[q].0)
  {
  }

  lemma {:induction false} ChainClimbs(c: Config, s: State, chain: seq<Pid>)
    requires Inv(c, s) && InOrder(c) && Unambiguous(c) && |chain| > 1
    requires Chained(s, chain) && chain[|chain| - 1] in s.waits
    ensures chain[0] in s.waits && Before(s.waits[chain[0]].0, s.waits[chain[|chain| - 1]].0)
    decreases |chain|
  {
    var last := |chain| - 1;
    assert WaitsFor(s, chain[last - 1], chain[last - 1 + 1]);
    WaitClimbs(c, s, chain[last - 1], chain[last]);
    if last > 1 {
      ChainClimbs(c, s, chain[..last]);
    }
  }

  lemma NoCircularWait(c: Config, s: State, cycle: seq<Pid>)
    requires Inv(c, s) && InOrder(c) && Unambiguous(c)
    ensures !CircularWait(s, cycle)
  {
    if CircularWait(s, cycle) {
      var round := cycle + [cycle[0]];
      forall i | 0 <= i < |round| - 1
        ensures WaitsFor(s, round[i], round[i + 1])
      {
        if i < |cycle| - 1 {
          assert WaitsFor(s, cycle[i], cycle[i + 1]);
        }
      }
      assert WaitsFor(s, round[0], round[0 + 1]);
      ChainClimbs(c, s, round);
    }
  }

  lemma {:induction false} RunKeeps(c: Config, s: State, run: seq<Label>)
    requires Inv(c, s) && Legal(c, s, run)
    ensures Inv(c, After(c, s, run))
    decreases |run|
  {
    if run != [] {
      StepKeeps(c, s, run[0]);
      RunKeeps(c, Apply(c, s, run[0]), run[1..]);
    }
  }

  // ----- Two jobs of one process that share a runtime path -----

  lemma {:induction false} Appended(c: Config, from: State, run: seq<Label>, l: Label)
    requires Legal(c, from, run) && Enabled(c, After(c, from, run), l)
    ensures Legal(c, from, run + [l]) && After(c, from, run + [l]) == Apply(c, After(c, from, run), l)
    decreases |run|
  {
    if run == [] {
      assert (run + [l])[1..] == [];
    } else {
      assert (run + [l])[1..] == run[1..] + [l];
      Appended(c, Apply(c, from, run[0]), run[1..], l);
    }
  }

  /** p has passed k entries of its script, and holds the lock of each. */
  ghost predicate AloneAt(c: Config, s: State, p: Pid, k: nat) {
    && k <= |Script(c, p)| && Next(s, p) == k && s.ended == {} && s.waits == map[]
    && (forall i | 0 <= i < k :: Owns(s, Runtime(Script(c, p)[i].path), Owner(p, Script(c, p)[i].job)))
    && (forall l | l in s.owner :: s.owner[l].pid == p)
  }

  /** Running alone, a process passes its whole script or ends up waiting for itself. */
  lemma {:induction false} Alone(c: Config, p: Pid, k: nat) returns (run: seq<Label>, stuck: bool)
    requires k <= |Script(c, p)|
    ensures Legal(c, Start(), run)
    ensures if stuck then CircularWait(After(c, Start(), run), [p]) else AloneAt(c, After(c, Start(), run), p, k)
    decreases k
  {
    if k == 0 {
      return [], false;
    }
    run, stuck := Alone(c, p, k - 1);
    if stuck {
      return;
    }
    var s := After(c, Start(), run);
    var e := Script(c, p)[k - 1];
    if Owns(s, Runtime(e.path), Owner(p, e.job)) {
      Appended(c, Start(), run, Skip(p));
      run := run + [Skip(p)];
    } else {
      Appended(c, Start(), run, Ask(p));
      run := run + [Ask(p)];
      var asked := After(c, Start(), run);
      stuck := Runtime(e.path) in s.owner;
      if stuck {
        assert WaitsFor(asked, p, p);
      } else {
        Appended(c, Start(), run, Grant(p));
        run := run + [Grant(p)];
        assert After(c, Start(), run).waits == map[];
      }
    }
  }

  lemma OneJobPerPath(c: Config, s: State, p: Pid, i: nat, k: nat)
    requires AloneAt(c, s, p, |Script(c, p)|) && i < |Script(c, p)| && k < |Script(c, p)|
    ensures Script(c, p)[i].path == Script(c, p)[k].path ==> Script(c, p)[i].job == Script(c, p)[k].job
  {
    assert Owns(s, Runtime(Script(c, p)[i].path), Owner(p, Script(c, p)[i].job));
    assert Owns(s, Runtime(Script(c, p)[k].path), Owner(p, Script(c, p)[k].job));
  }

  /** The run leads to a circular wait. */
  ghost predicate Deadlocks(c: Config, run: seq<Label>, cycle: seq<Pid>) {
    Legal(c, Start(), run) && CircularWait(After(c, Start(), run), cycle)
  }

  /** Why the names must be unique: with several processes that lock runtime paths in order, then at most one
      compile lock at a time, no reachable state has a circular wait, exactly if no process locks a path for
      two of its jobs. */
  lemma NoDeadlockIffUnambiguous(c: Config)
    requires InOrder(c)
    ensures Unambiguous(c) <==> forall run, cycle :: !Deadlocks(c, run, cycle)
  {
    if Unambiguous(c) {
      forall run, cycle
        ensures !Deadlocks(c, run, cycle)
      {
        if Legal(c, Start(), run) {
          RunKeeps(c, Start(), run);
          NoCircularWait(c, After(c, Start(), run), cycle);
        }
      }
    } else {
      var p: Pid, i: nat, k: nat :| p in c.scripts && 0 <= i < k < |c.scripts[p]| && c.scripts[p][i].path == c.scripts[p][k].path
                     && c.scripts[p][i].job != c.scripts[p][k].job;
      var run, stuck := Alone(c, p, |c.scripts[p]|);
      var s := After(c, Start(), run);
      if !stuck {
        OneJobPerPath(c, s, p, i, k);
      }
      assert Deadlocks(c, run, [p]);
    }
  }

  // ----- Taking the runtime locks -----

  datatype RuntimeJob = RuntimeJob(job: nat, runfilesDir: int, coverageDir: int)

  function XceliumEntries(jobs: seq<RuntimeJob>, coverage: bool): seq<Entry> {
    if jobs == [] then []
    else [Entry(jobs[0].runfilesDir, jobs[0].job)] + (if coverage then [Entry(jobs[0].coverageDir, jobs[0].job)] else [])
         + XceliumEntries(jobs[1..], coverage)
  }

  function VcsEntries(jobs: seq<RuntimeJob>): seq<Entry> {
    if jobs == [] then [] else [Entry(jobs[0].coverageDir, jobs[0].job)] + VcsEntries(jobs[1..])
  }

  // ----- Why the calls of one process never collide -----

  /** A bazel target of a testbench: its package and the slash-separated parts after the colon. */
  datatype Target = Target(package: seq<string>, parts: seq<string>) {
    /** The vcomp name: the base name of the target. */
    function Name(): string {
      if parts == [] then "" else parts[|parts| - 1]
    }
  }

  /** An absolute path. */
  type Path = seq<string>

  function RunfilesPath(bazelBin: Path, t: Target): Path {
    bazelBin + t.package + (if t.parts == [] then [] else t.parts[..|t.parts| - 1]) + [t.Name() + ".runfiles", "__main__"]
  }

  function CoveragePath(regressionDir: Path, t: Target, suffix: string): Path {
    regressionDir + [t.Name() + suffix]
  }

  /** Where a process works, and how absolute paths are numbered in sorting order. */
  datatype Site = Site(bazelBin: Path, regressionDir: Path, number: Path -> int, suffix: string)

  ghost predicate Numbered(site: Site) {
    forall a, b :: site.number(a) == site.number(b) ==> a == b
  }

  /** The directories of both backends end in a suffix that tells them from a runfiles directory. */
  predicate BackendSuffix(suffix: string) {
    suffix == "__COV_WORK" || suffix == "__COV_WORK_VCS.vdb"
  }

  function JobOf(site: Site, targets: seq<Target>, i: nat): RuntimeJob
    requires i < |targets|
  {
    RuntimeJob(i, site.number(RunfilesPath(site.bazelBin, targets[i])),
               site.number(CoveragePath(site.regressionDir, targets[i], site.suffix)))
  }

  function JobsOf(site: Site, targets: seq<Target>): seq<RuntimeJob> {
    seq(|targets|, i requires 0 <= i < |targets| => JobOf(site, targets, i))
  }

  ghost predicate UniqueNames(targets: seq<Target>) {
    forall i, k | 0 <= i < k < |targets| :: targets[i].Name() != targets[k].Name()
  }

  /** VCompJob's constructor, once for each target: a name seen before is critical and ends the process. */
  method CreateJobs(site: Site, targets: seq<Target>) returns (jobs: Option<seq<RuntimeJob>>)
    ensures jobs.Some? <==> UniqueNames(targets)
    ensures jobs.Some? ==> jobs.value == JobsOf(site, targets)
  {
    var allNames: set<string> := {};
    var created: seq<RuntimeJob> := [];
    var i := 0;
    while i < |targets|
      invariant 0 <= i <= |targets| && created == JobsOf(site, targets)[..i]
      invariant UniqueNames(targets[..i]) && allNames == set k | 0 <= k < i :: targets[k].Name()
    {
      if targets[i].Name() in allNames {
        return None;
      }
      allNames := allNames + {targets[i].Name()};
      created := created + [JobOf(site, targets, i)];
      i := i + 1;
    }
    assert targets[..i] == targets;
    jobs := Some(created);
  }

  /** No runtime path of one job is a runtime path of another. */
  ghost predicate DistinctPaths(jobs: seq<RuntimeJob>) {
    forall i, k | 0 <= i < |jobs| && 0 <= k < |jobs| && jobs[i].job != jobs[k].job ::
      {jobs[i].runfilesDir, jobs[i].coverageDir} !! {jobs[k].runfilesDir, jobs[k].coverageDir}
  }

  lemma SameEnd(a: Path, x: string, b: Path, y: string)
    requires a + [x] == b + [y]
    ensures a == b && x == y
  {
    assert (a + [x])[|a|] == x && (b + [y])[|b|] == y;
    assert (a + [x])[..|a|] == a && (b + [y])[..|b|] == b;
  }

  lemma SuffixKeepsName(a: string, b: string, suffix: string)
    requires a + suffix == b + suffix
    ensures a == b
  {
    assert (a + suffix)[..|a|] == a && (b + suffix)[..|b|] == b;
  }

  lemma RunfilesKeepsName(bazelBin: Path, t: Target, u: Target)
    requires RunfilesPath(bazelBin, t) == RunfilesPath(bazelBin, u)
    ensures t.Name() == u.Name()
  {
    var a := bazelBin + t.package + if t.parts == [] then [] else t.parts[..|t.parts| - 1];
    var b := bazelBin + u.package + if u.parts == [] then [] else u.parts[..|u.parts| - 1];
    assert RunfilesPath(bazelBin, t) == (a + [t.Name() + ".runfiles"]) + ["__main__"];
    assert RunfilesPath(bazelBin, u) == (b + [u.Name() + ".runfiles"]) + ["__main__"];
    SameEnd(a + [t.Name() + ".runfiles"], "__main__", b + [u.Name() + ".runfiles"], "__main__");
    SameEnd(a, t.Name() + ".runfiles", b, u.Name() + ".runfiles");
    SuffixKeepsName(t.Name(), u.Name(), ".runfiles");
  }

  lemma CoverageKeepsName(regressionDir: Path, t: Target, u: Target, suffix: string)
    requires CoveragePath(regressionDir, t, suffix) == CoveragePath(regressionDir, u, suffix)
    ensures t.Name() == u.Name()
  {
    SameEnd(regressionDir, t.Name() + suffix, regressionDir, u.Name() + suffix);
    SuffixKeepsName(t.Name(), u.Name(), suffix);
  }

  /** A coverage directory is no runfiles directory: its last component is longer. */
  lemma CoverageIsNoRunfiles(site: Site, t: Target, u: Target)
    requires BackendSuffix(site.suffix)
    ensures CoveragePath(site.regressionDir, t, site.suffix) != RunfilesPath(site.bazelBin, u)
  {
    var a, b := CoveragePath(site.regressionDir, t, site.suffix), RunfilesPath(site.bazelBin, u);
    assert a[|a| - 1] == t.Name() + site.suffix && b[|b| - 1] == "__main__";
    assert |site.suffix| > |"__main__"|;
  }

  /** Unique names make all runtime paths distinct. */
  lemma UniqueNamesGiveDistinctPaths(site: Site, targets: seq<Target>)
    requires Numbered(site) && BackendSuffix(site.suffix) && UniqueNames(targets)
    ensures DistinctPaths(JobsOf(site, targets))
  {
    var jobs := JobsOf(site, targets);
    forall i, k | 0 <= i < |jobs| && 0 <= k < |jobs| && jobs[i].job != jobs[k].job
      ensures {jobs[i].runfilesDir, jobs[i].coverageDir} !! {jobs[k].runfilesDir, jobs[k].coverageDir}
    {
      PathsApart(site, targets[i], targets[k]);
    }
  }

  function PathsOf(site: Site, t: Target): set<int> {
    {site.number(RunfilesPath(site.bazelBin, t)), site.number(CoveragePath(site.regressionDir, t, site.suffix))}
  }

  lemma PathsApart(site: Site, t: Target, u: Target)
    requires Numbered(site) && BackendSuffix(site.suffix) && t.Name() != u.Name()
    ensures PathsOf(site, t) !! PathsOf(site, u)
  {
    var rt, ru := RunfilesPath(site.bazelBin, t), RunfilesPath(site.bazelBin, u);
    var ct, cu := CoveragePath(site.regressionDir, t, site.suffix), CoveragePath(site.regressionDir, u, site.suffix);
    assert rt != ru by { if rt == ru { RunfilesKeepsName(site.bazelBin, t, u); } }
    assert ct != cu by { if ct == cu { CoverageKeepsName(site.regressionDir, t, u, site.suffix); } }
    CoverageIsNoRunfiles(site, t, u);
    CoverageIsNoRunfiles(site, u, t);
  }

  lemma {:induction false} XceliumEntry(jobs: seq<RuntimeJob>, coverage: bool, e: Entry) returns (i: nat)
    requires e in XceliumEntries(jobs, coverage)
    ensures i < |jobs| && e.job == jobs[i].job && (e.path == jobs[i].runfilesDir || e.path == jobs[i].coverageDir)
  {
    if e == Entry(jobs[0].runfilesDir, jobs[0].job) || e == Entry(jobs[0].coverageDir, jobs[0].job) {
      i := 0;
    } else {
      var k := XceliumEntry(jobs[1..], coverage, e);
      i := k + 1;
    }
  }

  lemma {:induction false} VcsEntry(jobs: seq<RuntimeJob>, e: Entry) returns (i: nat)
    requires e in VcsEntries(jobs)
    ensures i < |jobs| && e.job == jobs[i].job && e.path == jobs[i].coverageDir
  {
    if e == Entry(jobs[0].coverageDir, jobs[0].job) {
      i := 0;
    } else {
      var k := VcsEntry(jobs[1..], e);
      i := k + 1;
    }
  }

  /** Each job's own directories are asked for. */
  lemma {:induction false} XceliumAsksFor(jobs: seq<RuntimeJob>, coverage: bool, i: nat)
    requires i < |jobs|
    ensures Entry(jobs[i].runfilesDir, jobs[i].job) in XceliumEntries(jobs, coverage)
    ensures coverage ==> Entry(jobs[i].coverageDir, jobs[i].job) in XceliumEntries(jobs, coverage)
  {
    if i > 0 {
      XceliumAsksFor(jobs[1..], coverage, i - 1);
    }
  }

  lemma {:induction false} XceliumCounts(jobs: seq<RuntimeJob>, coverage: bool)
    ensures |XceliumEntries(jobs, coverage)| == |jobs| * if coverage then 2 else 1
  {
    if jobs != [] {
      XceliumCounts(jobs[1..], coverage);
    }
  }

  lemma {:induction false} VcsCounts(jobs: seq<RuntimeJob>)
    ensures |VcsEntries(jobs)| == |jobs|
  {
    if jobs != [] {
      VcsCounts(jobs[1..]);
    }
  }

  lemma {:induction false} VcsAsksFor(jobs: seq<RuntimeJob>, i: nat)
    requires i < |jobs|
    ensures Entry(jobs[i].coverageDir, jobs[i].job) in VcsEntries(jobs)
  {
    if i > 0 {
      VcsAsksFor(jobs[1..], i - 1);
    }
  }

  /** What the calls of either backend are before they are sorted. */
  function BackendEntries(xcelium: bool, jobs: seq<RuntimeJob>, coverage: bool): seq<Entry> {
    if xcelium then XceliumEntries(jobs, coverage) else if coverage then VcsEntries(jobs) else []
  }

  lemma OneJobPerEntry(xcelium: bool, jobs: seq<RuntimeJob>, coverage: bool, a: Entry, b: Entry)
    requires DistinctPaths(jobs) && a in BackendEntries(xcelium, jobs, coverage) && b in BackendEntries(xcelium, jobs, coverage)
    ensures a.path == b.path ==> a.job == b.job
  {
    var i, k;
    if xcelium {
      i := XceliumEntry(jobs, coverage, a);
      k := XceliumEntry(jobs, coverage, b);
    } else {
      i := VcsEntry(jobs, a);
      k := VcsEntry(jobs, b);
    }
    if jobs[i].job != jobs[k].job {
      assert {jobs[i].runfilesDir, jobs[i].coverageDir} !! {jobs[k].runfilesDir, jobs[k].coverageDir};
    }
  }

  /** A script that prepare_regression_runtime makes for jobs with unique names. */
  ghost predicate Prepared(script: seq<Entry>) {
    exists site, targets, xcelium, coverage :: PreparedFor(script, site, targets, xcelium, coverage)
  }

  ghost predicate PreparedFor(script: seq<Entry>, site: Site, targets: seq<Target>, xcelium: bool, coverage: bool) {
    && Numbered(site) && BackendSuffix(site.suffix) && UniqueNames(targets)
    && Sorted(ByPath, script) && multiset(script) == multiset(BackendEntries(xcelium, JobsOf(site, targets), coverage))
  }

  lemma PreparedIsUnambiguous(script: seq<Entry>, i: nat, k: nat)
    requires Prepared(script) && i < |script| && k < |script| && script[i].path == script[k].path
    ensures script[i].job == script[k].job
  {
    var site, targets, xcelium, coverage :| PreparedFor(script, site, targets, xcelium, coverage);
    var entries := BackendEntries(xcelium, JobsOf(site, targets), coverage);
    UniqueNamesGiveDistinctPaths(site, targets);
    assert script[i] in multiset(script) && script[k] in multiset(script);
    assert script[i] in entries && script[k] in entries;
    OneJobPerEntry(xcelium, JobsOf(site, targets), coverage, script[i], script[k]);
  }

  /** Every process prepared its runtime locks for compile jobs with the unique names that their constructor
      insists on. */
  ghost predicate AllPrepared(c: Config) {
    forall p | p in c.scripts :: Prepared(c.scripts[p])
  }

  lemma PreparedIsOrdered(c: Config)
    requires AllPrepared(c)
    ensures InOrder(c) && Unambiguous(c)
  {
    forall p | p in c.scripts
      ensures Sorted(ByPath, c.scripts[p])
    {
      assert Prepared(c.scripts[p]);
    }
    forall p, i, k | p in c.scripts && 0 <= i < k < |c.scripts[p]| && c.scripts[p][i].path == c.scripts[p][k].path
      ensures c.scripts[p][i].job == c.scripts[p][k].job
    {
      PreparedIsUnambiguous(c.scripts[p], i, k);
    }
  }

  lemma StartFits(c: Config)
    ensures Inv(c, Start())
  {
  }

  /** In every reachable state the wanted locks climb along every wait. */
  lemma WaitsClimb(c: Config, run: seq<Label>, p: Pid, q: Pid)
    requires AllPrepared(c) && Legal(c, Start(), run)
    requires var s := After(c, Start(), run); WaitsFor(s, p, q) && q in s.waits
    ensures var s := After(c, Start(), run); Before(s.waits[p].0, s.waits[q].0)
  {
    PreparedIsOrdered(c);
    StartFits(c);
    RunKeeps(c, Start(), run);
    WaitClimbs(c, After(c, Start(), run), p, q);
  }

  /** Deadlock freedom. With any number of simmer processes no reachable state has a circular wait. */
  lemma NoDeadlock(c: Config, run: seq<Label>, cycle: seq<Pid>)
    requires AllPrepared(c)
    ensures !Deadlocks(c, run, cycle)
  {
    PreparedIsOrdered(c);
    NoDeadlockIffUnambiguous(c);
  }

  lemma ByPathTotal()
    ensures TotalOrder(ByPath)
  {
  }

  class LockFiles {
    var owner: map<Lock, Owner>

    /** The locks of the first n entries, all taken by p. */
    ghost predicate Taken(p: Pid, entries: seq<Entry>, n: nat)
      requires n <= |entries|
      reads this
    {
      forall i | 0 <= i < n :: Runtime(entries[i].path) in owner && owner[Runtime(entries[i].path)] == Owner(p, entries[i].job)
    }

    ghost predicate Holds(p: Pid, path: int, job: nat)
      reads this
    {
      Runtime(path) in owner && owner[Runtime(path)] == Owner(p, job)
    }

    /** All entries of a script that was taken to its end are held. */
    lemma TakenHolds(p: Pid, script: seq<Entry>, entries: seq<Entry>, e: Entry)
      requires Taken(p, script, |script|) && multiset(script) == multiset(entries) && e in entries
      ensures Holds(p, e.path, e.job)
    {
      assert e in multiset(entries);
      assert e in script;
      var i :| 0 <= i < |script| && script[i] == e;
      assert Runtime(script[i].path) in owner;
    }

    /** Acquire in order, up to the first lock that somebody else holds: there the process waits. */
    method AcquireInOrder(p: Pid, entries: seq<Entry>) returns (n: nat)
      modifies this
      ensures n <= |entries| && Taken(p, entries, n)
      ensures n < |entries| ==> var l := Runtime(entries[n].path); l in owner && owner[l] != Owner(p, entries[n].job)
      ensures forall l | l in old(owner) :: l in owner && owner[l] == old(owner)[l]
      ensures forall l | l in owner && l !in old(owner) :: exists i :: 0 <= i < n && l == Runtime(entries[i].path)
    {
      n := 0;
      while n < |entries|
        invariant 0 <= n <= |entries| && Taken(p, entries, n)
        invariant forall l | l in old(owner) :: l in owner && owner[l] == old(owner)[l]
        invariant forall l | l in owner && l !in old(owner) :: exists i :: 0 <= i < n && l == Runtime(entries[i].path)
      {
        var l, o := Runtime(entries[n].path), Owner(p, entries[n].job);
        if l in owner && owner[l] != o {
          return;
        }
        owner := owner[l := o];
        n := n + 1;
      }
    }

    static method ListXcelium(jobs: seq<RuntimeJob>, coverage: bool) returns (entries: seq<Entry>)
      ensures entries == XceliumEntries(jobs, coverage)
    {
      entries := [];
      var i := 0;
      while i < |jobs|
        invariant 0 <= i <= |jobs|
        invariant entries + XceliumEntries(jobs[i..], coverage) == XceliumEntries(jobs, coverage)
      {
        var own := [Entry(jobs[i].runfilesDir, jobs[i].job)];
        if coverage {
          own := own + [Entry(jobs[i].coverageDir, jobs[i].job)];
        }
        assert jobs[i..][1..] == jobs[i + 1..];
        assert XceliumEntries(jobs[i..], coverage) == own + XceliumEntries(jobs[i + 1..], coverage);
        entries := entries + own;
        i := i + 1;
      }
      assert entries + XceliumEntries([], coverage) == entries;
    }

    /** prepare_regression_runtime of the Xcelium backend. */
    method PrepareXcelium(p: Pid, jobs: seq<RuntimeJob>, coverage: bool) returns (script: seq<Entry>, n: nat)
      modifies this
      ensures Sorted(ByPath, script) && multiset(script) == multiset(BackendEntries(true, jobs, coverage))
      ensures n <= |script| && Taken(p, script, n)
      ensures |script| == |jobs| * if coverage then 2 else 1
      ensures n == |script| ==> forall i | 0 <= i < |jobs| ::
                Holds(p, jobs[i].runfilesDir, jobs[i].job) && (coverage ==> Holds(p, jobs[i].coverageDir, jobs[i].job))
      ensures n < |script| ==> var l := Runtime(script[n].path); l in owner && owner[l] != Owner(p, script[n].job)
    {
      var entries := ListXcelium(jobs, coverage);
      ByPathTotal();
      SortLaw(ByPath, entries);
      script := Sort(ByPath, entries);
      n := AcquireInOrder(p, script);
      XceliumCounts(jobs, coverage);
      assert |script| == |multiset(script)| == |entries|;
      if n == |script| {
        forall i | 0 <= i < |jobs|
          ensures Holds(p, jobs[i].runfilesDir, jobs[i].job) && (coverage ==> Holds(p, jobs[i].coverageDir, jobs[i].job))
        {
          XceliumAsksFor(jobs, coverage, i);
          TakenHolds(p, script, entries, Entry(jobs[i].runfilesDir, jobs[i].job));
          if coverage {
            TakenHolds(p, script, entries, Entry(jobs[i].coverageDir, jobs[i].job));
          }
        }
      }
    }

    /** prepare_regression_runtime of the VCS backend: only coverage directories are shared. */
    method PrepareVcs(p: Pid, jobs: seq<RuntimeJob>, coverage: bool) returns (script: seq<Entry>, n: nat)
      modifies this
      ensures Sorted(ByPath, script) && multiset(script) == multiset(BackendEntries(false, jobs, coverage))
      ensures n <= |script| && Taken(p, script, n)
      ensures |script| == if coverage then |jobs| else 0
      ensures n == |script| && coverage ==> forall i | 0 <= i < |jobs| :: Holds(p, jobs[i].coverageDir, jobs[i].job)
      ensures n < |script| ==> var l := Runtime(script[n].path); l in owner && owner[l] != Owner(p, script[n].job)
    {
      if !coverage {
        return [], 0;
      }
      var entries: seq<Entry> := [];
      var i := 0;
      while i < |jobs|
        invariant 0 <= i <= |jobs| && entries + VcsEntries(jobs[i..]) == VcsEntries(jobs)
      {
        entries := entries + [Entry(jobs[i].coverageDir, jobs[i].job)];
        assert jobs[i..][1..] == jobs[i + 1..];
        i := i + 1;
      }
      ByPathTotal();
      SortLaw(ByPath, entries);
      script := Sort(ByPath, entries);
      n := AcquireInOrder(p, script);
      VcsCounts(jobs);
      assert |script| == |multiset(script)| == |entries|;
      if n == |script| {
        forall i | 0 <= i < |jobs|
          ensures Holds(p, jobs[i].coverageDir, jobs[i].job)
        {
          VcsAsksFor(jobs, i);
          TakenHolds(p, script, entries, Entry(jobs[i].coverageDir, jobs[i].job));
        }
      }
    }

    /** _claim_run_directory: the first free candidate, without ever waiting. `names` is the counting
        sequence of candidate directories, the base name first; it never repeats. */
    method ClaimRunDirectory(p: Pid, job: nat, names: nat -> nat) returns (k: nat)
      requires forall i, m | 0 <= i < m :: names(i) != names(m)
      modifies this
      ensures k <= |old(owner)| && RunDirectory(names(k)) !in old(owner)
      ensures forall i | 0 <= i < k :: RunDirectory(names(i)) in old(owner)
      ensures owner == old(owner)[RunDirectory(names(k)) := Owner(p, job)]
    {
      k := 0;
      ghost var tried: set<Lock> := {};
      while RunDirectory(names(k)) in owner
        invariant owner == old(owner)
        invariant forall i | 0 <= i < k :: RunDirectory(names(i)) in owner
        invariant |tried| == k && tried <= owner.Keys
        invariant forall l | l in tried :: exists i :: 0 <= i < k && l == RunDirectory(names(i))
        invariant k <= |owner|
        decreases |owner| - k
      {
        tried := tried + {RunDirectory(names(k))};
        k := k + 1;
        SubsetIsSmaller(tried, owner.Keys);
      }
      owner := owner[RunDirectory(names(k)) := Owner(p, job)];
    }
  }

  lemma {:induction false} SubsetIsSmaller(a: set<Lock>, b: set<Lock>)
    requires a <= b
    ensures |a| <= |b|
  {
    if a != {} {
      var x :| x in a;
      SubsetIsSmaller(a - {x}, b - {x});
    }
  }
}
