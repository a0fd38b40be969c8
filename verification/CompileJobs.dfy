/** CompileDirectoryLock and the hooks of VCompJob as the objects that they are. Each hook is proved to be
    a legal run of the protocol: its `run` lists the protocol's steps in program order. */
module CompileJobs {
  import opened Wrappers
  import opened CompileProtocol

  class CompileDirectory {
    var lock: Option<Pid>
    var fingerprint: Option<Tag>
    var artifacts: Artifacts
    ghost var phases: map<Pid, Phase>
    ghost var strays: nat

    ghost function View(): State
      reads this
    {
      State(lock, phases, fingerprint, artifacts, strays)
    }
  }

  class CompileDirectoryLock {
    const directory: CompileDirectory
    const pid: Pid
    var held: bool

    constructor (directory: CompileDirectory, pid: Pid)
      ensures this.directory == directory && this.pid == pid && !held
    {
      this.directory, this.pid := directory, pid;
      held := false;
    }

    /** A non-blocking attempt. */
    method Acquire() returns (acquired: bool)
      modifies this`held, directory`lock
      ensures acquired == held && held == (old(held) || old(directory.lock) == None)
      ensures directory.lock == if !old(held) && old(directory.lock) == None then Some(pid) else old(directory.lock)
    {
      if !held && directory.lock == None {
        directory.lock := Some(pid);
        held := true;
      }
      acquired := held;
    }

    method Release()
      modifies this`held, directory`lock
      ensures !held && directory.lock == if old(held) then None else old(directory.lock)
    {
      if held {
        directory.lock := None;
        held := false;
      }
    }
  }

  /** Where pre_run raises, if it does; the removal ignores errors and cannot raise. */
  datatype Fault = NoFault | BeforeRemoval | BeforeDecision | AfterDecision | AfterInvalidation

  /** What is left after a removal that ignored an error: of the artifacts, and whether the fingerprint is. */
  datatype Left = Untouched | Damaged | Nothing

  datatype Removal = Everything | SomeLeft(artifacts: Left, fingerprint: bool)

  datatype Launch = Waiting | Ready | Raised

  class VCompJob {
    const directory: CompileDirectory
    const compileLock: CompileDirectoryLock
    const recompile: bool
    const noCompile: bool
    const autoReuse: bool
    var compileCacheHit: bool
    var compileFingerprint: Tag

    constructor (directory: CompileDirectory, pid: Pid, recompile: bool, noCompile: bool, autoReuse: bool)
      ensures this.directory == directory && compileLock.directory == directory && compileLock.pid == pid
      ensures fresh(compileLock) && !compileLock.held && !compileCacheHit
      ensures this.recompile == recompile && this.noCompile == noCompile && this.autoReuse == autoReuse
    {
      this.directory := directory;
      this.recompile, this.noCompile, this.autoReuse := recompile, noCompile, autoReuse;
      compileCacheHit, compileFingerprint := false, 0;
      var lock := new CompileDirectoryLock(directory, pid);
      compileLock := lock;
    }

    /** The lock is this job's and the lock file says the same. */
    ghost predicate Valid()
      reads this, compileLock, directory
    {
      && compileLock.directory == directory
      && (compileLock.held <==> PhaseOf(directory.View(), compileLock.pid) != Outside)
      && (compileLock.held ==> directory.lock == Some(compileLock.pid))
    }

    /** What the directory became, and that the protocol's steps led there. */
    ghost predicate Ran(c: Config, before: State, run: seq<Label>)
      reads directory
    {
      Legal(c, before, run) && After(c, before, run) == directory.View()
    }

    /** One more step of this job. */
    ghost method Do(c: Config, before: State, run: seq<Label>, at: State, l: Label) returns (more: seq<Label>)
      requires Legal(c, before, run) && After(c, before, run) == at && Enabled(c, at, l)
      ensures Legal(c, before, more) && After(c, before, more) == Apply(c, at, l)
    {
      Appended(c, before, run, l);
      more := run + [l];
    }

    method AcquireCompileLock(ghost c: Config) returns (acquired: bool, ghost run: seq<Label>)
      requires Valid() && !compileLock.held
      modifies compileLock`held, directory`lock, directory`phases
      ensures Valid() && acquired == compileLock.held == (old(directory.lock) == None)
      ensures Ran(c, old(directory.View()), run)
      ensures acquired ==> directory.View() == Apply(c, old(directory.View()), Acquire(compileLock.pid))
      ensures !acquired ==> directory.View() == old(directory.View())
    {
      run := [];
      acquired := compileLock.Acquire();
      if acquired {
        run := Do(c, old(directory.View()), [], old(directory.View()), Acquire(compileLock.pid));
        directory.phases := directory.phases[compileLock.pid := Entered];
      }
    }

    /** --recompile: the directory is deleted, and errors on the way are ignored. */
    method RemoveDirectory(ghost c: Config, ghost before: State, ghost soFar: seq<Label>, removal: Removal)
        returns (ghost run: seq<Label>)
      requires Valid() && PhaseOf(directory.View(), compileLock.pid) == Entered && Ran(c, before, soFar)
      requires removal.SomeLeft? ==> !c.removalIsWhole
      modifies directory`artifacts, directory`fingerprint
      ensures Valid() && Ran(c, before, run) && PhaseOf(directory.View(), compileLock.pid) == Entered
      ensures removal.Everything? ==> directory.artifacts == Absent && directory.fingerprint == None
      ensures removal.SomeLeft? && removal.fingerprint ==> directory.fingerprint == old(directory.fingerprint)
    {
      ghost var at := directory.View();
      ghost var p := compileLock.pid;
      match removal {
        case Everything =>
          directory.artifacts, directory.fingerprint := Absent, None;
          run := Do(c, before, soFar, at, RemoveAll(p));
        case SomeLeft(artifacts, fingerprint) =>
          if artifacts != Untouched {
            directory.artifacts := if artifacts == Damaged then Torn else Absent;
          }
          if !fingerprint {
            directory.fingerprint := None;
          }
          ghost var partly := RemoveSome(p, directory.artifacts, directory.fingerprint);
          run := Do(c, before, soFar, at, partly);
          run := Do(c, before, run, Apply(c, at, partly), GiveUpRemoval(p));
          assert To(Apply(c, at, partly), p, Entered).phases == directory.phases;
      }
      assert directory.phases[p := Entered] == directory.phases;
    }

    /** Whether this run looks for artifacts to reuse and finds acceptable ones; `accepts` is what the
        simulator says about those present. */
    predicate Validated(accepts: bool, artifacts: Artifacts) {
      accepts && artifacts != Absent && (noCompile || autoReuse)
    }

    /** There is something to reuse: the simulator accepts the artifacts that are there, they were built from these
        inputs, and this run may look for them. */
    predicate Reusable(want: Tag, accepts: bool, artifacts: Artifacts, fingerprint: Option<Tag>) {
      accepts && artifacts != Absent && fingerprint == Some(want) && (noCompile || autoReuse)
    }

    /** can_reuse_compile and validate_compile_fingerprint. */
    method DecideReuse(ghost c: Config, want: Tag, accepts: bool) returns (proceeds: bool)
      requires Valid() && PhaseOf(directory.View(), compileLock.pid) == Entered
      modifies this`compileCacheHit, this`compileFingerprint, directory`phases
      ensures Valid() && compileFingerprint == want
      ensures var reusable := Reusable(want, accepts, directory.artifacts, directory.fingerprint);
              && (proceeds <==> reusable || !noCompile) && (compileCacheHit <==> reusable && !noCompile)
      ensures var hit := CacheHit(old(directory.View()), want, Validated(accepts, directory.artifacts));
              && compileCacheHit == (hit && !noCompile) && proceeds == (hit || !noCompile)
      ensures directory.View() == Apply(c, old(directory.View()),
                Decide(compileLock.pid, want, Validated(accepts, directory.artifacts), noCompile))
    {
      compileFingerprint := want;
      compileCacheHit := false;
      var hit := Validated(accepts, directory.artifacts) && directory.fingerprint == Some(want);
      if noCompile {
        proceeds := hit;
      } else {
        compileCacheHit := hit;
        proceeds := true;
      }
      directory.phases := directory.phases[compileLock.pid :=
        if hit then Reusing(want) else if noCompile then Ending else Missed(want)];
    }

    method InvalidateFingerprint(ghost c: Config)
      requires Valid() && PhaseOf(directory.View(), compileLock.pid) == Missed(compileFingerprint)
      modifies directory`fingerprint, directory`phases
      ensures Valid() && directory.View() == Apply(c, old(directory.View()), Invalidate(compileLock.pid))
    {
      directory.fingerprint := None;
      directory.phases := directory.phases[compileLock.pid := Cleared(compileFingerprint)];
    }

    /** Where pre_run leaves a job that is ready to start. */
    ghost function ReadyPhase(want: Tag): Phase
      reads this
    {
      if compileCacheHit || noCompile then Reusing(want) else Cleared(want)
    }

    /** What becomes of a start that nothing interrupts, given the artifacts and the fingerprint that it finds: a job
        reuses whatever it can, leaving it as it is; else it compiles, the old fingerprint being cleared before, or
        raises where it must not compile. */
    ghost predicate Starts(want: Tag, accepts: bool, found: Artifacts, tag: Option<Tag>, launch: Launch)
      reads this, directory
    {
      var reusable := Reusable(want, accepts, found, tag);
      && launch == (if reusable || !noCompile then Ready else Raised)
      && (compileCacheHit <==> reusable && !noCompile)
      && directory.artifacts == found
      && directory.fingerprint == (if reusable || noCompile then tag else None)
    }

    /** pre_run. Where the lock is taken by another process it waits, and nothing has changed. When it is
        ready to start, the job holds the lock and either has decided to reuse, or has cleared the old
        fingerprint. A raise leaves the lock held for launch_failed or cancel to release. */
    method PreRun(ghost c: Config, want: Tag, accepts: bool, removal: Removal, fault: Fault)
        returns (launch: Launch, ghost run: seq<Label>)
      requires Valid() && !compileLock.held
      requires removal.SomeLeft? ==> !c.removalIsWhole
      modifies this`compileCacheHit, this`compileFingerprint, compileLock`held, directory
      ensures Valid() && Ran(c, old(directory.View()), run)
      ensures launch.Waiting? <==> !compileLock.held
      ensures launch.Waiting? ==> directory.View() == old(directory.View())
      ensures launch.Ready? ==> compileFingerprint == want
      ensures launch.Ready? ==> PhaseOf(directory.View(), compileLock.pid) == ReadyPhase(want)
      ensures launch.Waiting? <==> old(directory.lock) != None
      ensures !launch.Waiting? && fault == NoFault && !recompile ==>
                Starts(want, accepts, old(directory.artifacts), old(directory.fingerprint), launch)
      ensures !launch.Waiting? && fault == NoFault && recompile && removal.Everything? ==>
                Starts(want, accepts, Absent, None, launch)
    {
      ghost var before := directory.View();
      var acquired;
      acquired, run := AcquireCompileLock(c);
      if !acquired {
        return Waiting, run;
      }
      if fault == BeforeRemoval {
        return Raised, run;
      }
      if recompile {
        run := RemoveDirectory(c, before, run, removal);
      }
      if fault == BeforeDecision {
        return Raised, run;
      }
      launch, run := DecideAndClear(c, before, run, want, accepts, fault);
    }

    /** The rest of pre_run, from the cache decision on. */
    method DecideAndClear(ghost c: Config, ghost before: State, ghost soFar: seq<Label>, want: Tag, accepts: bool, fault: Fault)
        returns (launch: Launch, ghost run: seq<Label>)
      requires Valid() && PhaseOf(directory.View(), compileLock.pid) == Entered && Ran(c, before, soFar)
      modifies this`compileCacheHit, this`compileFingerprint, directory`fingerprint, directory`phases
      ensures Valid() && Ran(c, before, run) && !launch.Waiting? && compileLock.held
      ensures launch.Ready? ==> compileFingerprint == want
      ensures launch.Ready? ==> PhaseOf(directory.View(), compileLock.pid) == ReadyPhase(want)
      ensures fault == NoFault ==> Starts(want, accepts, directory.artifacts, old(directory.fingerprint), launch)
    {
      ghost var at := directory.View();
      var proceeds := DecideReuse(c, want, accepts);
      run := Do(c, before, soFar, at, Decide(compileLock.pid, want, Validated(accepts, directory.artifacts), noCompile));
      if !proceeds || fault == AfterDecision {
        return Raised, run;
      }
      if !noCompile && !compileCacheHit {
        at := directory.View();
        InvalidateFingerprint(c);
        run := Do(c, before, run, at, Invalidate(compileLock.pid));
      }
      launch := if fault == AfterInvalidation then Raised else Ready;
    }

    /** post_run of a job that compiled: `passed` when the return code, the warnings and the artifacts are
        all in order, `written` when the fingerprint could be written. */
    method PostRun(ghost c: Config, passed: bool, written: bool) returns (ghost run: seq<Label>)
      requires Valid() && compileLock.held
      requires var phase := PhaseOf(directory.View(), compileLock.pid);
               if compileCacheHit || noCompile then phase == Reusing(compileFingerprint)
               else phase == Compiled(compileFingerprint, passed)
      modifies compileLock`held, directory`lock, directory`fingerprint, directory`phases
      ensures Valid() && !compileLock.held && Ran(c, old(directory.View()), run) && directory.lock == None
      ensures directory.fingerprint == if passed && written && !noCompile && !compileCacheHit then Some(compileFingerprint)
                                       else old(directory.fingerprint)
    {
      run := [];
      ghost var before := directory.View();
      if passed && !noCompile && !compileCacheHit && written {
        run := Do(c, before, run, before, Publish(compileLock.pid));
        directory.fingerprint := Some(compileFingerprint);
        directory.phases := directory.phases[compileLock.pid := Ending];
      }
      run := ReleaseCompileLock(c, before, run);
    }

    method ReleaseCompileLock(ghost c: Config, ghost before: State, ghost soFar: seq<Label>) returns (ghost run: seq<Label>)
      requires Valid() && Ran(c, before, soFar)
      requires var phase := PhaseOf(directory.View(), compileLock.pid); phase != Removing && !phase.Compiling?
      modifies compileLock`held, directory`lock, directory`phases
      ensures Valid() && !compileLock.held && Ran(c, before, run)
      ensures directory.lock == if old(compileLock.held) then None else old(directory.lock)
    {
      run := soFar;
      if compileLock.held {
        ghost var at := directory.View();
        compileLock.Release();
        directory.phases := directory.phases[compileLock.pid := Outside];
        run := Do(c, before, run, at, Release(compileLock.pid));
      }
    }

    /** launch_failed, post_run_failed and cancel release the lock; incomplete_shutdown does not. */
    method LaunchFailed(ghost c: Config) returns (ghost run: seq<Label>)
      requires Valid()
      requires var phase := PhaseOf(directory.View(), compileLock.pid); phase != Removing && !phase.Compiling?
      modifies compileLock`held, directory`lock, directory`phases
      ensures Valid() && !compileLock.held && Ran(c, old(directory.View()), run)
      ensures directory.lock == if old(compileLock.held) then None else old(directory.lock)
    {
      run := ReleaseCompileLock(c, directory.View(), []);
    }
  }
}
