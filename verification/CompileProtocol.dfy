/** The compile-reuse protocol of bin/simmer.py and lib/compile_cache.py. Any number of simmer processes
    share one compile directory under a lock; each may crash at any step. */
module CompileProtocol {
  import opened Wrappers

  /** A fingerprint: an injective tag of the compile inputs. */
  type Tag = nat
  type Pid = nat

  /** The compiled artifacts: none, a mixture left by a removal or a running compile, or the complete
      product of one successful compile of the inputs with the given tag. */
  datatype Artifacts = Absent | Torn | Whole(tag: Tag)

  /** Where a process stands in pre_run and post_run. */
  datatype Phase =
    | Outside
    | Entered                               // holds the lock
    | Removing                              // --recompile is deleting the directory
    | Reusing(want: Tag)                    // cache hit: nothing will be compiled
    | Missed(want: Tag)
    | Cleared(want: Tag)                    // the old fingerprint is gone
    | Compiling(want: Tag)
    | Compiled(want: Tag, passed: bool)
    | Ending                                // published, or failed in pre_run

  datatype State = State(
    lock: Option<Pid>,
    phases: map<Pid, Phase>,
    fingerprint: Option<Tag>,
    artifacts: Artifacts,
    strays: nat)                            // compiles that outlived the process that started them

  function PhaseOf(s: State, p: Pid): Phase {
    if p in s.phases then s.phases[p] else Outside
  }

  /** What the environment guarantees. */
  datatype Config = Config(
    groupsDieWithOwner: bool,   // no compile outlives a crashed simmer process
    removalIsWhole: bool,       // the deletion for --recompile is not interrupted and leaves nothing behind
    inputsAreStable: bool)      // the inputs do not change between the fingerprint and the end of the compile

  datatype Label =
    | Acquire(p: Pid)
    | RemoveSome(p: Pid, artifacts: Artifacts, fingerprint: Option<Tag>)
    | RemoveAll(p: Pid)
    | GiveUpRemoval(p: Pid)
    | Decide(p: Pid, want: Tag, validated: bool, noCompile: bool)
    | Invalidate(p: Pid)
    | Begin(p: Pid)
    | End(p: Pid, passed: bool, artifacts: Artifacts)
    | Publish(p: Pid)
    | Release(p: Pid)
    | Crash(p: Pid)
    | Stray(artifacts: Artifacts, ends: bool)

  /** Deleting files leaves the artifacts as they were, torn or absent, and the fingerprint or not. */
  predicate Partial(s: State, artifacts: Artifacts, fingerprint: Option<Tag>) {
    && (artifacts == s.artifacts || artifacts == Torn || artifacts == Absent)
    && (fingerprint == s.fingerprint || fingerprint == None)
  }

  predicate Enabled(c: Config, s: State, l: Label) {
    match l
    case Acquire(p) => s.lock == None && PhaseOf(s, p) == Outside
    case RemoveSome(p, artifacts, fingerprint) =>
      (PhaseOf(s, p) == Entered || PhaseOf(s, p) == Removing) && Partial(s, artifacts, fingerprint)
    case RemoveAll(p) => PhaseOf(s, p) == Entered || PhaseOf(s, p) == Removing
    case GiveUpRemoval(p) => PhaseOf(s, p) == Removing && !c.removalIsWhole
    case Decide(p, want, validated, _) => PhaseOf(s, p) == Entered && (validated ==> s.artifacts != Absent)
    case Invalidate(p) => PhaseOf(s, p).Missed?
    case Begin(p) => PhaseOf(s, p).Cleared?
    case End(p, passed, artifacts) =>
      && PhaseOf(s, p).Compiling?
      && (passed ==> artifacts.Whole? && (c.inputsAreStable ==> artifacts.tag == PhaseOf(s, p).want))
    case Publish(p) => PhaseOf(s, p).Compiled? && PhaseOf(s, p).passed
    case Release(p) => PhaseOf(s, p) != Outside && PhaseOf(s, p) != Removing && !PhaseOf(s, p).Compiling?
    case Crash(p) => PhaseOf(s, p) != Outside && (PhaseOf(s, p) == Removing ==> !c.removalIsWhole)
    case Stray(_, _) => s.strays > 0
  }

  /** can_reuse_compile: the artifacts validate and the recorded fingerprint is the expected one. */
  predicate CacheHit(s: State, want: Tag, validated: bool) {
    validated && s.fingerprint == Some(want)
  }

  function To(s: State, p: Pid, phase: Phase): State {
    s.(phases := s.phases[p := phase])
  }

  /** A crash releases the advisory lock; the compile that was running may go on without an owner. */
  function Crashed(c: Config, s: State, p: Pid): State {
    To(s, p, Outside).(lock := if s.lock == Some(p) then None else s.lock,
                       strays := s.strays + if PhaseOf(s, p).Compiling? && !c.groupsDieWithOwner then 1 else 0)
  }

  function Apply(c: Config, s: State, l: Label): State
    requires Enabled(c, s, l)
  {
    match l
    case Acquire(p) => To(s, p, Entered).(lock := Some(p))
    case RemoveSome(p, artifacts, fingerprint) => To(s, p, Removing).(artifacts := artifacts, fingerprint := fingerprint)
    case RemoveAll(p) => To(s, p, Entered).(artifacts := Absent, fingerprint := None)
    case GiveUpRemoval(p) => To(s, p, Entered)
    case Decide(p, want, validated, noCompile) =>
      To(s, p, if CacheHit(s, want, validated) then Reusing(want) else if noCompile then Ending else Missed(want))
    case Invalidate(p) => To(s, p, Cleared(PhaseOf(s, p).want)).(fingerprint := None)
    case Begin(p) => To(s, p, Compiling(PhaseOf(s, p).want)).(artifacts := Torn)
    case End(p, passed, artifacts) => To(s, p, Compiled(PhaseOf(s, p).want, passed)).(artifacts := artifacts)
    case Publish(p) => To(s, p, Ending).(fingerprint := Some(PhaseOf(s, p).want))
    case Release(p) => To(s, p, Outside).(lock := if s.lock == Some(p) then None else s.lock)
    case Crash(p) => Crashed(c, s, p)
    case Stray(artifacts, ends) => s.(artifacts := artifacts, strays := if ends then s.strays - 1 else s.strays)
  }

  function Start(): State {
    State(None, map[], None, Absent, 0)
  }

  predicate Legal(c: Config, s: State, run: seq<Label>)
    decreases |run|
  {
    run == [] || (Enabled(c, s, run[0]) && Legal(c, Apply(c, s, run[0]), run[1..]))
  }

  function After(c: Config, s: State, run: seq<Label>): State
    requires Legal(c, s, run)
    decreases |run|
  {
    if run == [] then s else After(c, Apply(c, s, run[0]), run[1..])
  }

  /** A fingerprint on disk vouches for the artifacts beside it. */
  predicate Vouched(s: State) {
    s.fingerprint.Some? ==> s.artifacts == Whole(s.fingerprint.value)
  }

  /** What the next process finds when the lock is free. */
  predicate Trustworthy(s: State) {
    s.lock == None ==> Vouched(s)
  }

  // ----- The invariant -----

  predicate Safe(c: Config) {
    c.groupsDieWithOwner && c.removalIsWhole && c.inputsAreStable
  }

  /** Only the lock holder is inside, and what it does fits the disk. */
  ghost predicate Inv(s: State) {
    && s.strays == 0
    && Exclusive(s)
    && (s.lock.Some? ==> HolderFits(s, PhaseOf(s, s.lock.value)))
    && (s.lock.None? ==> Vouched(s))
  }

  predicate HolderFits(s: State, phase: Phase) {
    match phase
    case Outside => false
    case Removing => true
    case Entered | Missed(_) | Ending => Vouched(s)
    case Reusing(want) => Vouched(s) && s.fingerprint == Some(want)
    case Cleared(_) | Compiling(_) => s.fingerprint == None
    case Compiled(want, passed) => s.fingerprint == None && (passed ==> s.artifacts == Whole(want))
  }

  lemma StepKeeps(c: Config, s: State, l: Label)
    requires Safe(c) && Inv(s) && Enabled(c, s, l)
    ensures Inv(Apply(c, s, l))
  {
  }

  lemma {:induction false} RunKeeps(c: Config, s: State, run: seq<Label>)
    requires Safe(c) && Inv(s) && Legal(c, s, run)
    ensures Inv(After(c, s, run))
    decreases |run|
  {
    if run != [] {
      StepKeeps(c, s, run[0]);
      RunKeeps(c, Apply(c, s, run[0]), run[1..]);
    }
  }

  /** The protocol can be trusted in every reachable state, across all processes and crashes, exactly in
      the environments where compiles die with their owner, removals are whole and inputs are stable. */
  lemma TrustworthyIffSafe(c: Config)
    ensures Safe(c) <==> forall run :: Legal(c, Start(), run) ==> Trustworthy(After(c, Start(), run))
  {
    if Safe(c) {
      forall run | Legal(c, Start(), run)
        ensures Trustworthy(After(c, Start(), run))
      {
        RunKeeps(c, Start(), run);
      }
    } else if !c.inputsAreStable {
      ChangedInputs(c);
    } else if !c.removalIsWhole {
      PartialRemoval(c);
    } else {
      StrayCompile(c);
    }
  }

  /** A hit never bypasses a needed compile: whenever a process decides to reuse, the artifacts are the
      complete product of a successful compile of exactly its inputs. */
  lemma HitsAreSound(c: Config, run: seq<Label>, p: Pid)
    requires Safe(c) && Legal(c, Start(), run) && PhaseOf(After(c, Start(), run), p).Reusing?
    ensures var s := After(c, Start(), run);
            s.lock == Some(p) && s.artifacts == Whole(PhaseOf(s, p).want)
  {
    RunKeeps(c, Start(), run);
  }

  /** The lock keeps all other processes out of the directory, in every environment. */
  lemma OneInside(c: Config, run: seq<Label>, p: Pid, q: Pid)
    requires Legal(c, Start(), run)
    requires PhaseOf(After(c, Start(), run), p) != Outside && PhaseOf(After(c, Start(), run), q) != Outside
    ensures p == q && After(c, Start(), run).lock == Some(p)
  {
    RunExcludes(c, Start(), run);
  }

  ghost predicate Exclusive(s: State) {
    forall p | p in s.phases && s.phases[p] != Outside :: s.lock == Some(p)
  }

  lemma {:induction false} RunExcludes(c: Config, s: State, run: seq<Label>)
    requires Exclusive(s) && Legal(c, s, run)
    ensures Exclusive(After(c, s, run))
    decreases |run|
  {
    if run != [] {
      RunExcludes(c, Apply(c, s, run[0]), run[1..]);
    }
  }

  // ----- What is published is reused -----

  /** Nothing is deleted, and every process that decides wants the same inputs and finds the artifacts acceptable. */
  predicate SameWish(want: Tag, l: Label) {
    && !l.RemoveSome? && !l.RemoveAll?
    && (l.Decide? ==> l.want == want && l.validated)
  }

  /** The product of the wish is published, and whoever is inside is about to reuse it. */
  ghost predicate Published(s: State, want: Tag) {
    && s.strays == 0 && s.fingerprint == Some(want) && s.artifacts == Whole(want)
    && forall p | p in s.phases :: s.phases[p] in {Outside, Entered, Reusing(want), Ending}
  }

  lemma PublishedStep(c: Config, s: State, want: Tag, l: Label)
    requires Published(s, want) && SameWish(want, l) && Enabled(c, s, l)
    ensures Published(Apply(c, s, l), want) && !l.Begin? && !l.Invalidate? && !l.Publish?
    ensures l.Decide? ==> PhaseOf(Apply(c, s, l), l.p) == Reusing(want)
  {
  }

  lemma {:induction false} PublishedStays(c: Config, s: State, want: Tag, run: seq<Label>)
    requires Published(s, want) && Legal(c, s, run) && forall l | l in run :: SameWish(want, l)
    ensures Published(After(c, s, run), want)
    ensures forall l | l in run :: !l.Begin? && !l.Invalidate?
    decreases |run|
  {
    if run != [] {
      assert run[0] in run;
      PublishedStep(c, s, want, run[0]);
      PublishedStays(c, Apply(c, s, run[0]), want, run[1..]);
      assert run == [run[0]] + run[1..];
    }
  }

  /** What was built once is not built again. In a safe environment, from the step on that publishes a product, in
      every run of any number of processes that want it, crashes included, nothing is compiled, a process that has
      decided reuses, and the fingerprint and the artifacts stay. */
  lemma BuiltOnceReusedEver(c: Config, before: seq<Label>, p: Pid, run: seq<Label>, q: Pid)
    requires Safe(c) && Legal(c, Start(), before) && Enabled(c, After(c, Start(), before), Publish(p))
    requires var want := PhaseOf(After(c, Start(), before), p).want;
             Legal(c, Apply(c, After(c, Start(), before), Publish(p)), run) && forall l | l in run :: SameWish(want, l)
    ensures var want := PhaseOf(After(c, Start(), before), p).want;
            var s := After(c, Apply(c, After(c, Start(), before), Publish(p)), run);
            && (forall l | l in run :: !l.Begin? && !l.Invalidate?)
            && s.fingerprint == Some(want) && s.artifacts == Whole(want)
            && PhaseOf(s, q) in {Outside, Entered, Reusing(want), Ending}
  {
    RunKeeps(c, Start(), before);
    var s, want := After(c, Start(), before), PhaseOf(After(c, Start(), before), p).want;
    assert Published(Apply(c, s, Publish(p)), want);
    PublishedStays(c, Apply(c, s, Publish(p)), want, run);
  }

  /** What a process finds that takes a free lock and decides: it reuses exactly if the artifacts are acceptable and
      the recorded inputs are its own; otherwise it compiles, unless it must not. */
  lemma DecisionAfterAcquire(c: Config, s: State, p: Pid, want: Tag, validated: bool, noCompile: bool)
    requires s.lock == None && PhaseOf(s, p) == Outside && (validated ==> s.artifacts != Absent)
    ensures Legal(c, s, [Acquire(p), Decide(p, want, validated, noCompile)])
    ensures var phase := PhaseOf(After(c, s, [Acquire(p), Decide(p, want, validated, noCompile)]), p);
            && (phase == Reusing(want) <==> validated && s.fingerprint == Some(want))
            && (phase == Missed(want) <==> !noCompile && !(validated && s.fingerprint == Some(want)))
            && (phase == Ending <==> noCompile && !(validated && s.fingerprint == Some(want)))
  {
    var decide := Decide(p, want, validated, noCompile);
    var run := [Acquire(p), decide];
    assert run[1..] == [decide] && [decide][1..] == [];
    var s1 := Apply(c, s, Acquire(p));
    assert Enabled(c, s1, decide);
    assert After(c, s, run) == After(c, s1, [decide]) == Apply(c, s1, decide);
  }

  // ----- What goes wrong elsewhere -----

  /** A legal run that ends in s. */
  predicate Reaches(c: Config, run: seq<Label>, s: State) {
    Legal(c, Start(), run) && After(c, Start(), run) == s
  }

  lemma {:induction false} Appended(c: Config, from: State, run: seq<Label>, l: Label)
    requires Legal(c, from, run) && Enabled(c, After(c, from, run), l)
    ensures Legal(c, from, run + [l]) && After(c, from, run + [l]) == Apply(c, After(c, from, run), l)
    decreases |run|
  {
    if run == [] {
      assert (run + [l])[1..] == [];
    } else {
      assert (run + [l])[1..] == run[1..] + [l];
      Appended(c, Apply(c, from, run[0]), run[1..], l);
    }
  }

  lemma Step(c: Config, run: seq<Label>, s: State, l: Label) returns (more: seq<Label>)
    requires Reaches(c, run, s) && Enabled(c, s, l)
    ensures Reaches(c, more, Apply(c, s, l))
  {
    Appended(c, Start(), run, l);
    more := run + [l];
  }

  function Built(s: State, p: Pid, want: Tag, built: Tag): State {
    To(s, p, Outside).(fingerprint := Some(want), artifacts := Whole(built))
  }

  /** A process takes the lock, finds no match and starts to compile. */
  lemma Started(c: Config, run: seq<Label>, s: State, p: Pid, want: Tag) returns (more: seq<Label>)
    requires Reaches(c, run, s) && s.lock == None && PhaseOf(s, p) == Outside
    ensures Reaches(c, more, To(s, p, Compiling(want)).(lock := Some(p), fingerprint := None, artifacts := Torn))
  {
    var s1 := Apply(c, s, Acquire(p));
    more := Step(c, run, s, Acquire(p));
    var s2 := Apply(c, s1, Decide(p, want, false, false));
    more := Step(c, more, s1, Decide(p, want, false, false));
    var s3 := Apply(c, s2, Invalidate(p));
    more := Step(c, more, s2, Invalidate(p));
    more := Step(c, more, s3, Begin(p));
    assert Apply(c, s3, Begin(p)) == To(s, p, Compiling(want)).(lock := Some(p), fingerprint := None, artifacts := Torn);
  }

  /** It compiles inputs `built`, publishes them as `want`, and leaves. */
  lemma Builds(c: Config, run: seq<Label>, s: State, p: Pid, want: Tag, built: Tag) returns (more: seq<Label>)
    requires Reaches(c, run, s) && s.lock == None && PhaseOf(s, p) == Outside && (c.inputsAreStable ==> built == want)
    ensures Reaches(c, more, Built(s, p, want, built))
  {
    more := Started(c, run, s, p, want);
    var s1 := To(s, p, Compiling(want)).(lock := Some(p), fingerprint := None, artifacts := Torn);
    var end := End(p, true, Whole(built));
    var s2 := Apply(c, s1, end);
    more := Step(c, more, s1, end);
    var s3 := Apply(c, s2, Publish(p));
    more := Step(c, more, s2, Publish(p));
    more := Step(c, more, s3, Release(p));
    assert Apply(c, s3, Release(p)) == Built(s, p, want, built);
  }

  /** A source edited during the compile is published under the fingerprint taken before. */
  lemma ChangedInputs(c: Config)
    requires !c.inputsAreStable
    ensures exists run :: Legal(c, Start(), run) && !Trustworthy(After(c, Start(), run))
  {
    var run := Builds(c, [], Start(), 0, 1, 2);
    assert !Trustworthy(After(c, Start(), run));
  }

  /** A removal that stops half-way may leave the fingerprint beside damaged artifacts. */
  lemma PartialRemoval(c: Config)
    requires !c.removalIsWhole
    ensures exists run :: Legal(c, Start(), run) && !Trustworthy(After(c, Start(), run))
  {
    var run := Builds(c, [], Start(), 0, 1, 1);
    var s := Built(Start(), 0, 1, 1);
    run := Step(c, run, s, Acquire(0));
    var s1 := Apply(c, s, Acquire(0));
    run := Step(c, run, s1, RemoveSome(0, Torn, Some(1)));
    var s2 := Apply(c, s1, RemoveSome(0, Torn, Some(1)));
    run := Step(c, run, s2, Crash(0));
    assert !Trustworthy(After(c, Start(), run));
  }

  /** A compile that survives its owner writes into a directory that another process has published. */
  lemma StrayCompile(c: Config)
    requires !c.groupsDieWithOwner
    ensures exists run :: Legal(c, Start(), run) && !Trustworthy(After(c, Start(), run))
  {
    var run := Started(c, [], Start(), 0, 1);
    var s := To(Start(), 0, Compiling(1)).(lock := Some(0), fingerprint := None, artifacts := Torn);
    run := Step(c, run, s, Crash(0));
    var s1 := Crashed(c, s, 0);
    run := Builds(c, run, s1, 1, 1, 1);
    var s2 := Built(s1, 1, 1, 1);
    run := Step(c, run, s2, Stray(Torn, false));
    assert !Trustworthy(After(c, Start(), run));
  }
}
