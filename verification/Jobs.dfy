/** Jobs as lib/job_lib.py defines them: the status automaton, and the dependency graph with the
    priorities that are pushed up it while edges are added. */
module Jobs {
  import opened Wrappers

  datatype JobStatus = NotStarted | ToBeBypassed | Passed | Failed | Skipped | Bypassed {

    predicate Completed() {
      Passed? || Failed? || Skipped? || Bypassed?
    }

    predicate Successful() {
      Passed? || Bypassed?
    }

    /** The states a job waiting in a queue may be in. */
    predicate Pending() {
      !Completed()
    }

    /** The transition check: the state to assign, or the refusal the source raises. */
    function Update(next: JobStatus): (r: Result<JobStatus>)
      ensures r.Ok? ==> r.value == next || (ToBeBypassed? && next.Passed? && r.value.Bypassed?)
      ensures next.NotStarted? ==> r.Err?
    {
      if next.NotStarted? then Err("may not return to NOT_STARTED")
      else if this == next then Ok(next)
      else match this
        case NotStarted => Ok(next)
        case ToBeBypassed =>
          if next.Passed? then Ok(Bypassed)
          else if next.Failed? || next.Skipped? then Ok(next)
          else Err("illegal transition")
        case Failed => Err("illegal transition")
        case _ => if next.Failed? then Ok(next) else Err("illegal transition")
    }
  }

  /** Any sequence of assignments to a job's status; it stops at the first one that is refused. */
  function Replay(status: JobStatus, updates: seq<JobStatus>): Result<JobStatus>
    decreases |updates|
  {
    if updates == [] then Ok(status)
    else match status.Update(updates[0])
      case Err(reason) => Err(reason)
      case Ok(next) => Replay(next, updates[1..])
  }

  /** Over a whole life: a job ends failed exactly when some assignment failed it, completion and lack
      of success are never undone, and a job marked for bypass never reports a real pass. */
  lemma {:induction false} ReplayLaw(status: JobStatus, updates: seq<JobStatus>)
    requires Replay(status, updates).Ok?
    ensures var final := Replay(status, updates).value;
            && (final.Failed? <==> status.Failed? || Failed in updates)
            && (status.Completed() ==> final.Completed())
            && (status.Completed() && !status.Successful() ==> !final.Successful())
            && (status.ToBeBypassed? || status.Bypassed? ==> !final.Passed? && !final.NotStarted?)
            && (final.NotStarted? <==> status.NotStarted? && updates == [])
    decreases |updates|
  {
    if updates != [] {
      ReplayLaw(status.Update(updates[0]).value, updates[1..]);
    }
  }

  /** A life that stays in one status until it fails, if it does. */
  ghost predicate Settled(status: JobStatus, updates: seq<JobStatus>) {
    && (forall i | 0 <= i < |updates| :: updates[i] == status || updates[i] == Failed)
    && (forall i, k | 0 <= i < k < |updates| :: updates[i] == Failed ==> updates[k] == Failed)
  }

  /** The length of the longest prefix of marks for bypass. */
  function Marks(updates: seq<JobStatus>): (n: nat)
    ensures n <= |updates| && (n < |updates| ==> updates[n] != ToBeBypassed)
    ensures forall i | 0 <= i < n :: updates[i] == ToBeBypassed
  {
    if updates == [] || updates[0] != ToBeBypassed then 0 else 1 + Marks(updates[1..])
  }

  /** A life that begins as marked for bypass. */
  ghost predicate BypassLife(updates: seq<JobStatus>) {
    var n := Marks(updates);
    n == |updates| || BypassEnds(updates[n], updates[n + 1..])
  }

  /** What a job marked for bypass ends with; a pass counts as a bypass. */
  ghost predicate BypassEnds(first: JobStatus, rest: seq<JobStatus>) {
    first in {Passed, Failed, Skipped} && Settled(if first == Passed then Bypassed else first, rest)
  }

  /** The lives that a job can have, from any status. */
  ghost predicate Life(status: JobStatus, updates: seq<JobStatus>) {
    if status == NotStarted then
      updates == [] ||
      (updates[0] != NotStarted &&
       if updates[0] == ToBeBypassed then BypassLife(updates[1..]) else Settled(updates[0], updates[1..]))
    else if status == ToBeBypassed then BypassLife(updates)
    else Settled(status, updates)
  }

  lemma SettledStep(status: JobStatus, updates: seq<JobStatus>)
    requires updates != []
    ensures Settled(status, updates) <==>
            (updates[0] == status && Settled(status, updates[1..])) || (updates[0] == Failed && Settled(Failed, updates[1..]))
  {
    var rest := updates[1..];
    assert forall i | 0 < i < |updates| :: updates[i] == rest[i - 1];
    if Settled(status, updates) {
      assert forall i | 0 <= i < |rest| :: rest[i] == updates[i + 1];
    }
  }

  lemma BypassStep(updates: seq<JobStatus>)
    requires updates != []
    ensures updates[0] == ToBeBypassed ==> (BypassLife(updates) <==> BypassLife(updates[1..]))
    ensures updates[0] != ToBeBypassed ==> (BypassLife(updates) <==> BypassEnds(updates[0], updates[1..]))
  {
    if updates[0] == ToBeBypassed {
      var n := Marks(updates);
      assert n < |updates| ==> updates[1..][n..] == updates[n + 1..] && updates[1..][n - 1] == updates[n];
    }
  }

  function LifeEnd(status: JobStatus, updates: seq<JobStatus>): JobStatus {
    if updates == [] then status
    else
      var last := updates[|updates| - 1];
      if last == Passed && (status == ToBeBypassed || updates[0] == ToBeBypassed) then Bypassed else last
  }

  /** Which lives are accepted: from the start anything but the start; a mark for bypass may be repeated, or
      become a bypass, a failure or a skip; a completed job stays as it is until it fails, if it does. And how
      they end: with the last update, a pass of a marked job being a bypass. */
  lemma {:induction false} AcceptedLives(status: JobStatus, updates: seq<JobStatus>)
    ensures Replay(status, updates).Ok? <==> Life(status, updates)
    ensures Replay(status, updates).Ok? ==> Replay(status, updates).value == LifeEnd(status, updates)
    decreases |updates|
  {
    if updates != [] {
      SettledStep(status, updates);
      BypassStep(updates);
      var next := status.Update(updates[0]);
      if next.Ok? {
        AcceptedLives(next.value, updates[1..]);
      }
    }
  }

  const BASE_PRIORITY := -3600

  class Job {
    const exclusive: bool  // execution_mode == "exclusive"; TestJob alone is "parallel"
    var priority: int
    var jobstatus: JobStatus
    var dependencies: seq<Job>
    var children: seq<Job>

    constructor (exclusive: bool)
      ensures this.exclusive == exclusive && priority == BASE_PRIORITY && jobstatus == NotStarted
      ensures dependencies == [] && children == []
    {
      this.exclusive := exclusive;
      priority := BASE_PRIORITY;
      jobstatus := NotStarted;
      dependencies, children := [], [];
    }

    /** The jobstatus setter: a refused transition raises and leaves the status as it was. */
    method SetStatus(next: JobStatus) returns (raised: bool)
      modifies this`jobstatus
      ensures raised <==>
              || next == NotStarted || (old(jobstatus) == ToBeBypassed && next == Bypassed)
              || (old(jobstatus) in {Passed, Failed, Skipped, Bypassed} && next != old(jobstatus) && next != Failed)
      ensures !raised ==> jobstatus == if old(jobstatus) == ToBeBypassed && next == Passed then Bypassed else next
      ensures raised == old(jobstatus).Update(next).Err?
      ensures jobstatus == if raised then old(jobstatus) else old(jobstatus).Update(next).value
    {
      var update := jobstatus.Update(next);
      raised := update.Err?;
      if update.Ok? {
        jobstatus := update.value;
      }
    }

    /** Every job gains `value` once for each dependency path that leads from this job to it. */
    method IncreasePriority(value: int, ghost universe: set<Job>, ghost rank: map<Job, nat>)
      requires this in universe && Acyclic(DependencyMap(universe), rank)
      modifies universe`priority
      ensures PriorityMap(universe) == Gained(DependencyMap(universe), rank, this, old(PriorityMap(universe)), value)
      ensures DependencyMap(universe) == old(DependencyMap(universe))
      ensures ChildMap(universe) == old(ChildMap(universe))
      decreases if this in rank then rank[this] else 0
    {
      ghost var deps, prio := DependencyMap(universe), PriorityMap(universe);
      AddToPriority(value, universe);
      GainedStart(deps, rank, this, prio, value);
      var i := 0;
      while i < |dependencies|
        invariant 0 <= i <= |dependencies| && deps[this] == dependencies
        invariant DependencyMap(universe) == deps && ChildMap(universe) == old(ChildMap(universe))
        invariant PriorityMap(universe) == GainedVia(deps, rank, this, i, prio, value)
      {
        DependencyRanksBelow(deps, rank, this, i);
        dependencies[i].IncreasePriority(value, universe, rank);
        GainedNext(deps, rank, this, i, prio, value);
        i := i + 1;
      }
      GainedAll(deps, rank, this, prio, value);
    }

    method AddToPriority(value: int, ghost universe: set<Job>)
      requires this in universe
      modifies this`priority
      ensures PriorityMap(universe) == old(PriorityMap(universe))[this := old(priority) + value]
      ensures DependencyMap(universe) == old(DependencyMap(universe))
      ensures ChildMap(universe) == old(ChildMap(universe))
    {
      priority := priority + value;
    }

    /** Both directions of a new edge. */
    method Link(dep: Job, ghost universe: set<Job>)
      requires this in universe && dep in universe
      modifies this`dependencies, dep`children
      ensures DependencyMap(universe) == old(DependencyMap(universe)[this := dependencies + [dep]])
      ensures ChildMap(universe) == old(ChildMap(universe)[dep := dep.children + [this]])
      ensures PriorityMap(universe) == old(PriorityMap(universe))
    {
      dependencies := dependencies + [dep];
      dep.children := dep.children + [this];
    }

    /** A null dependency is only logged. Otherwise both edge lists grow, and the priorities keep the
        law that a job's priority is the base plus those of all its dependents. */
    method AddDependency(dep: Job?, ghost universe: set<Job>, ghost rank: map<Job, nat>)
      requires this in universe && Consistent(universe, rank) && Balanced(ChildMap(universe), PriorityMap(universe))
      requires dep != null ==> dep in universe && rank[dep] < rank[this]
      modifies this`dependencies, (if dep == null then {} else {dep})`children, universe`priority
      ensures Consistent(universe, rank) && Balanced(ChildMap(universe), PriorityMap(universe))
      ensures dep == null ==> DependencyMap(universe) == old(DependencyMap(universe)) &&
                              ChildMap(universe) == old(ChildMap(universe)) &&
                              PriorityMap(universe) == old(PriorityMap(universe))
      ensures dep != null ==>
                && DependencyMap(universe) == old(DependencyMap(universe)[this := dependencies + [dep as Job]])
                && ChildMap(universe) == old(ChildMap(universe)[dep as Job := dep.children + [this]])
    {
      if dep == null {
        return;
      }
      var dep: Job := dep;
      ghost var deps, children, prio := DependencyMap(universe), ChildMap(universe), PriorityMap(universe);
      EdgeAdded(deps, children, rank, this, dep);
      Link(dep, universe);
      ghost var deps' := deps[this := deps[this] + [dep]];
      ghost var children' := children[dep := children[dep] + [this]];
      dep.IncreasePriority(priority, universe, rank);
      ghost var prio' := PriorityMap(universe);
      assert forall k | k in deps' :: prio'[k] == prio[k] + Gain(deps', rank, dep, k, prio[this]);
      BalanceKept(deps', children, children', rank, prio, prio', this, dep);
    }
  }

  ghost function DependencyMap(universe: set<Job>): map<Job, seq<Job>>
    reads universe`dependencies
  {
    map j | j in universe :: j.dependencies
  }

  ghost function ChildMap(universe: set<Job>): map<Job, seq<Job>>
    reads universe`children
  {
    map j | j in universe :: j.children
  }

  ghost function PriorityMap(universe: set<Job>): map<Job, int>
    reads universe`priority
  {
    map j | j in universe :: j.priority
  }

  /** `rank` numbers the jobs so that every dependency comes first: it exists for every acyclic graph. */
  ghost predicate Acyclic(deps: map<Job, seq<Job>>, rank: map<Job, nat>) {
    && (forall j | j in deps :: j in rank)
    && (forall j, d | j in deps && d in deps[j] :: d in deps && rank[d] < rank[j])
  }

  /** Both edge lists record every edge the same number of times. */
  ghost predicate Mirrored(deps: map<Job, seq<Job>>, children: map<Job, seq<Job>>) {
    && deps.Keys == children.Keys
    && (forall j, c | j in children && c in children[j] :: c in deps)
    && (forall j, d | j in deps && d in deps :: multiset(deps[j])[d] == multiset(children[d])[j])
  }

  ghost predicate Consistent(universe: set<Job>, rank: map<Job, nat>)
    reads universe`dependencies, universe`children
  {
    Acyclic(DependencyMap(universe), rank) && Mirrored(DependencyMap(universe), ChildMap(universe))
  }

  /** Jobs without edges are consistent and balanced: add_dependency starts from here and keeps both. */
  lemma FreshJobs(universe: set<Job>, rank: map<Job, nat>)
    requires forall j | j in universe ::
               j in rank && j.dependencies == [] && j.children == [] && j.priority == BASE_PRIORITY
    ensures Consistent(universe, rank) && Balanced(ChildMap(universe), PriorityMap(universe))
  {
  }

  ghost function Sum(prio: map<Job, int>, jobs: seq<Job>): int
    requires forall j | j in jobs :: j in prio
  {
    if jobs == [] then 0 else prio[jobs[0]] + Sum(prio, jobs[1..])
  }

  /** The priority law: base plus the priorities of the dependents, edges counted with multiplicity. */
  ghost predicate Balanced(children: map<Job, seq<Job>>, prio: map<Job, int>) {
    && children.Keys == prio.Keys
    && (forall j, c | j in children && c in children[j] :: c in prio)
    && forall j | j in children :: prio[j] == BASE_PRIORITY + Sum(prio, children[j])
  }

  /** What k gains when j gains `value`: `value` for each dependency path from j up to k. */
  ghost function Gain(deps: map<Job, seq<Job>>, rank: map<Job, nat>, j: Job, k: Job, value: int): int
    requires Acyclic(deps, rank) && j in deps
    decreases rank[j], |deps[j]| + 1
  {
    (if j == k then value else 0) + GainVia(deps, rank, j, |deps[j]|, k, value)
  }

  /** The share of that gain which passes through the first n dependencies of j. */
  ghost function GainVia(deps: map<Job, seq<Job>>, rank: map<Job, nat>, j: Job, n: nat, k: Job, value: int): int
    requires Acyclic(deps, rank) && j in deps && n <= |deps[j]|
    decreases rank[j], n
  {
    if n == 0 then 0
    else
      assert deps[j][n - 1] in deps[j];
      GainVia(deps, rank, j, n - 1, k, value) + Gain(deps, rank, deps[j][n - 1], k, value)
  }

  /** The priorities after j gained `value`. */
  ghost function Gained(deps: map<Job, seq<Job>>, rank: map<Job, nat>, j: Job, prio: map<Job, int>, value: int): map<Job, int>
    requires Acyclic(deps, rank) && j in deps
  {
    map k | k in prio :: prio[k] + Gain(deps, rank, j, k, value)
  }

  /** The priorities after j and its first n dependencies gained `value`. */
  ghost function GainedVia(deps: map<Job, seq<Job>>, rank: map<Job, nat>, j: Job, n: nat, prio: map<Job, int>, value: int): map<Job, int>
    requires Acyclic(deps, rank) && j in deps && n <= |deps[j]|
  {
    map k | k in prio :: prio[k] + (if k == j then value else 0) + GainVia(deps, rank, j, n, k, value)
  }

  lemma DependencyRanksBelow(deps: map<Job, seq<Job>>, rank: map<Job, nat>, j: Job, i: nat)
    requires Acyclic(deps, rank) && j in deps && i < |deps[j]|
    ensures deps[j][i] in deps && rank[deps[j][i]] < rank[j]
  {
    assert deps[j][i] in deps[j];
  }

  lemma GainedStart(deps: map<Job, seq<Job>>, rank: map<Job, nat>, j: Job, prio: map<Job, int>, value: int)
    requires Acyclic(deps, rank) && j in deps && j in prio
    ensures GainedVia(deps, rank, j, 0, prio, value) == prio[j := prio[j] + value]
  {
  }

  lemma GainedAll(deps: map<Job, seq<Job>>, rank: map<Job, nat>, j: Job, prio: map<Job, int>, value: int)
    requires Acyclic(deps, rank) && j in deps
    ensures GainedVia(deps, rank, j, |deps[j]|, prio, value) == Gained(deps, rank, j, prio, value)
  {
  }

  lemma GainedNext(deps: map<Job, seq<Job>>, rank: map<Job, nat>, j: Job, n: nat, prio: map<Job, int>, value: int)
    requires Acyclic(deps, rank) && j in deps && n < |deps[j]| && deps[j][n] in deps
    ensures Gained(deps, rank, deps[j][n], GainedVia(deps, rank, j, n, prio, value), value)
         == GainedVia(deps, rank, j, n + 1, prio, value)
  {
  }

  /** The gain of all the jobs `ks` together. */
  ghost function GainSum(deps: map<Job, seq<Job>>, rank: map<Job, nat>, j: Job, ks: seq<Job>, value: int): int
    requires Acyclic(deps, rank) && j in deps
  {
    if ks == [] then 0 else Gain(deps, rank, j, ks[0], value) + GainSum(deps, rank, j, ks[1..], value)
  }

  ghost function GainSumVia(deps: map<Job, seq<Job>>, rank: map<Job, nat>, j: Job, n: nat, ks: seq<Job>, value: int): int
    requires Acyclic(deps, rank) && j in deps && n <= |deps[j]|
  {
    if n == 0 then 0
    else
      assert deps[j][n - 1] in deps[j];
      GainSumVia(deps, rank, j, n - 1, ks, value) + GainSum(deps, rank, deps[j][n - 1], ks, value)
  }

  /** `value` for each occurrence of j in `jobs`. */
  ghost function Tally(jobs: seq<Job>, j: Job, value: int): int {
    if jobs == [] then 0 else (if jobs[0] == j then value else 0) + Tally(jobs[1..], j, value)
  }

  lemma {:induction false} TallyIsCount(jobs: seq<Job>, j: Job, value: int)
    ensures Tally(jobs, j, value) == multiset(jobs)[j] * value
  {
    if jobs != [] {
      TallyIsCount(jobs[1..], j, value);
      assert jobs == [jobs[0]] + jobs[1..];
      var m := multiset(jobs[1..])[j];
      assert (m + 1) * value == m * value + value;
    }
  }

  lemma {:induction false} TallyAppend(jobs: seq<Job>, last: Job, j: Job, value: int)
    ensures Tally(jobs + [last], j, value) == Tally(jobs, j, value) + if last == j then value else 0
  {
    if jobs != [] {
      TallyAppend(jobs[1..], last, j, value);
      assert (jobs + [last])[1..] == jobs[1..] + [last];
    }
  }

  lemma {:induction false} GainSumViaCons(deps: map<Job, seq<Job>>, rank: map<Job, nat>, j: Job, n: nat, ks: seq<Job>, value: int)
    requires Acyclic(deps, rank) && j in deps && n <= |deps[j]| && ks != []
    ensures GainSumVia(deps, rank, j, n, ks, value)
         == GainVia(deps, rank, j, n, ks[0], value) + GainSumVia(deps, rank, j, n, ks[1..], value)
  {
    if n > 0 {
      GainSumViaCons(deps, rank, j, n - 1, ks, value);
    }
  }

  /** Summing the gains edge by edge or job by job is the same. */
  lemma {:induction false} GainSumUnfold(deps: map<Job, seq<Job>>, rank: map<Job, nat>, j: Job, ks: seq<Job>, value: int)
    requires Acyclic(deps, rank) && j in deps
    ensures GainSum(deps, rank, j, ks, value)
         == Tally(ks, j, value) + GainSumVia(deps, rank, j, |deps[j]|, ks, value)
  {
    if ks == [] {
      GainSumViaEmpty(deps, rank, j, |deps[j]|, value);
    } else {
      GainSumUnfold(deps, rank, j, ks[1..], value);
      GainSumViaCons(deps, rank, j, |deps[j]|, ks, value);
    }
  }

  lemma {:induction false} GainSumViaEmpty(deps: map<Job, seq<Job>>, rank: map<Job, nat>, j: Job, n: nat, value: int)
    requires Acyclic(deps, rank) && j in deps && n <= |deps[j]|
    ensures GainSumVia(deps, rank, j, n, [], value) == 0
  {
    if n > 0 {
      GainSumViaEmpty(deps, rank, j, n - 1, value);
    }
  }

  /** Paths split at their last edge as well as at their first: what a gains from j is what its
      dependents gain from j (and its own share when a is j). */
  lemma {:induction false} LastEdge(deps: map<Job, seq<Job>>, children: map<Job, seq<Job>>, rank: map<Job, nat>,
                                    j: Job, a: Job, value: int)
    requires Acyclic(deps, rank) && Mirrored(deps, children) && j in deps && a in deps
    ensures Gain(deps, rank, j, a, value) == (if j == a then value else 0) + GainSum(deps, rank, j, children[a], value)
    decreases rank[j]
  {
    GainSumUnfold(deps, rank, j, children[a], value);
    TallyIsCount(children[a], j, value);
    TallyIsCount(deps[j], a, value);
    LastEdgeVia(deps, children, rank, j, |deps[j]|, a, value);
    assert deps[j][..|deps[j]|] == deps[j];
  }

  lemma {:induction false} LastEdgeVia(deps: map<Job, seq<Job>>, children: map<Job, seq<Job>>, rank: map<Job, nat>,
                                       j: Job, n: nat, a: Job, value: int)
    requires Acyclic(deps, rank) && Mirrored(deps, children) && j in deps && a in deps && n <= |deps[j]|
    ensures GainVia(deps, rank, j, n, a, value)
         == Tally(deps[j][..n], a, value) + GainSumVia(deps, rank, j, n, children[a], value)
    decreases rank[j], n
  {
    if n > 0 {
      var d := deps[j][n - 1];
      assert d in deps[j];
      LastEdgeVia(deps, children, rank, j, n - 1, a, value);
      LastEdge(deps, children, rank, d, a, value);
      assert deps[j][..n] == deps[j][..n - 1] + [d];
      TallyAppend(deps[j][..n - 1], d, a, value);
    }
  }

  lemma EdgeAdded(deps: map<Job, seq<Job>>, children: map<Job, seq<Job>>, rank: map<Job, nat>, j: Job, d: Job)
    requires Acyclic(deps, rank) && Mirrored(deps, children) && j in deps && d in deps && rank[d] < rank[j]
    ensures Acyclic(deps[j := deps[j] + [d]], rank)
    ensures Mirrored(deps[j := deps[j] + [d]], children[d := children[d] + [j]])
  {
    EdgeKeepsRank(deps, rank, j, d);
    EdgeIsMirrored(deps, children, j, d);
  }

  lemma EdgeKeepsRank(deps: map<Job, seq<Job>>, rank: map<Job, nat>, j: Job, d: Job)
    requires Acyclic(deps, rank) && j in deps && d in deps && rank[d] < rank[j]
    ensures Acyclic(deps[j := deps[j] + [d]], rank)
  {
  }

  lemma EdgeIsMirrored(deps: map<Job, seq<Job>>, children: map<Job, seq<Job>>, j: Job, d: Job)
    requires Mirrored(deps, children) && j in deps && d in deps
    ensures Mirrored(deps[j := deps[j] + [d]], children[d := children[d] + [j]])
  {
    var deps', children' := deps[j := deps[j] + [d]], children[d := children[d] + [j]];
    forall a, b | a in deps' && b in deps'
      ensures multiset(deps'[a])[b] == multiset(children'[b])[a]
    {
      EdgeCount(deps, children, j, d, a, b);
    }
  }

  lemma EdgeCount(deps: map<Job, seq<Job>>, children: map<Job, seq<Job>>, j: Job, d: Job, a: Job, b: Job)
    requires j in deps && d in children && a in deps && b in children
    requires multiset(deps[a])[b] == multiset(children[b])[a] && multiset(deps[j])[d] == multiset(children[d])[j]
    ensures multiset(deps[j := deps[j] + [d]][a])[b] == multiset(children[d := children[d] + [j]][b])[a]
  {
    assert multiset(deps[j] + [d]) == multiset(deps[j]) + multiset{d};
    assert multiset(children[d] + [j]) == multiset(children[d]) + multiset{j};
  }

  /** A path never leads down to a job of higher rank. */
  lemma {:induction false} NoGainAbove(deps: map<Job, seq<Job>>, rank: map<Job, nat>, j: Job, k: Job, value: int)
    requires Acyclic(deps, rank) && j in deps && k in deps && rank[j] < rank[k]
    ensures Gain(deps, rank, j, k, value) == 0
    decreases rank[j], |deps[j]| + 1
  {
    NoGainAboveVia(deps, rank, j, |deps[j]|, k, value);
  }

  lemma {:induction false} NoGainAboveVia(deps: map<Job, seq<Job>>, rank: map<Job, nat>, j: Job, n: nat, k: Job, value: int)
    requires Acyclic(deps, rank) && j in deps && k in deps && rank[j] < rank[k] && n <= |deps[j]|
    ensures GainVia(deps, rank, j, n, k, value) == 0
    decreases rank[j], n
  {
    if n > 0 {
      assert deps[j][n - 1] in deps[j];
      NoGainAboveVia(deps, rank, j, n - 1, k, value);
      NoGainAbove(deps, rank, deps[j][n - 1], k, value);
    }
  }

  lemma {:induction false} SumAfterGain(deps: map<Job, seq<Job>>, rank: map<Job, nat>, prio: map<Job, int>,
                                        prio': map<Job, int>, ks: seq<Job>, dep: Job, value: int)
    requires Acyclic(deps, rank) && dep in deps && prio.Keys == prio'.Keys == deps.Keys
    requires forall k | k in deps :: prio'[k] == prio[k] + Gain(deps, rank, dep, k, value)
    requires forall k | k in ks :: k in prio
    ensures Sum(prio', ks) == Sum(prio, ks) + GainSum(deps, rank, dep, ks, value)
  {
    if ks != [] {
      SumAfterGain(deps, rank, prio, prio', ks[1..], dep, value);
    }
  }

  lemma {:induction false} SumAppend(prio: map<Job, int>, ks: seq<Job>, last: Job)
    requires forall k | k in ks + [last] :: k in prio
    ensures (forall k | k in ks :: k in prio) && last in prio
    ensures Sum(prio, ks + [last]) == Sum(prio, ks) + prio[last]
  {
    assert last == (ks + [last])[|ks|];
    if ks == [] {
      assert (ks + [last])[1..] == [];
    } else {
      assert forall k | k in ks :: k in ks + [last];
      assert (ks + [last])[1..] == ks[1..] + [last];
      SumAppend(prio, ks[1..], last);
    }
  }

  lemma BalanceKeptAt(deps: map<Job, seq<Job>>, before: map<Job, seq<Job>>, children: map<Job, seq<Job>>,
                      rank: map<Job, nat>, prio: map<Job, int>, prio': map<Job, int>, j: Job, dep: Job, a: Job)
    requires Acyclic(deps, rank) && Mirrored(deps, children)
    requires j in deps && dep in deps && a in deps && prio.Keys == prio'.Keys == deps.Keys
    requires before.Keys == deps.Keys && children == before[dep := before[dep] + [j]]
    requires forall c | c in before[a] :: c in prio
    requires prio[a] == BASE_PRIORITY + Sum(prio, before[a])
    requires forall k | k in deps :: prio'[k] == prio[k] + Gain(deps, rank, dep, k, prio[j])
    ensures forall c | c in children[a] :: c in prio'
    ensures prio'[a] == BASE_PRIORITY + Sum(prio', children[a])
  {
    LastEdge(deps, children, rank, dep, a, prio[j]);
    SumAfterGain(deps, rank, prio, prio', children[a], dep, prio[j]);
    if a == dep {
      SumAppend(prio, before[a], j);
    }
  }

  /** Pushing the new dependent's priority up every path restores the law after an edge is added. */
  lemma BalanceKept(deps: map<Job, seq<Job>>, before: map<Job, seq<Job>>, children: map<Job, seq<Job>>, rank: map<Job, nat>,
                    prio: map<Job, int>, prio': map<Job, int>, j: Job, dep: Job)
    requires Acyclic(deps, rank) && Mirrored(deps, children)
    requires j in deps && dep in deps && rank[dep] < rank[j]
    requires Balanced(before, prio) && before.Keys == prio'.Keys == deps.Keys
    requires children == before[dep := before[dep] + [j]]
    requires forall k | k in deps :: prio'[k] == prio[k] + Gain(deps, rank, dep, k, prio[j])
    ensures Balanced(children, prio')
  {
    forall a | a in children
      ensures prio'[a] == BASE_PRIORITY + Sum(prio', children[a])
    {
      BalanceKeptAt(deps, before, children, rank, prio, prio', j, dep, a);
    }
  }

  /** The dependents reachable below a job shrink from job to dependent. */
  ghost function Above(rank: map<Job, nat>, j: Job): set<Job>
    requires j in rank
  {
    set k | k in rank && rank[j] < rank[k]
  }

  /** The number of dependent chains that start at a job, the empty one included. */
  ghost function Chains(children: map<Job, seq<Job>>, rank: map<Job, nat>, j: Job): nat
    requires ChildRanked(children, rank) && j in children
    decreases Above(rank, j), |children[j]| + 1
  {
    1 + ChainsVia(children, rank, j, |children[j]|)
  }

  ghost function ChainsVia(children: map<Job, seq<Job>>, rank: map<Job, nat>, j: Job, n: nat): nat
    requires ChildRanked(children, rank) && j in children && n <= |children[j]|
    decreases Above(rank, j), n
  {
    if n == 0 then 0
    else
      var c := children[j][n - 1];
      assert c in children[j];
      assert Above(rank, c) < Above(rank, j) by { assert c in Above(rank, j) && c !in Above(rank, c); }
      ChainsVia(children, rank, j, n - 1) + Chains(children, rank, c)
  }

  ghost predicate ChildRanked(children: map<Job, seq<Job>>, rank: map<Job, nat>) {
    && (forall j | j in children :: j in rank)
    && (forall j, c | j in children && c in children[j] :: c in children && rank[j] < rank[c])
  }

  lemma MirrorRanked(deps: map<Job, seq<Job>>, children: map<Job, seq<Job>>, rank: map<Job, nat>)
    requires Acyclic(deps, rank) && Mirrored(deps, children)
    ensures ChildRanked(children, rank)
  {
    forall j, c | j in children && c in children[j]
      ensures c in children && rank[j] < rank[c]
    {
      assert multiset(deps[c])[j] == multiset(children[j])[c] > 0;
      assert j in deps[c];
    }
  }

  lemma {:induction false} SumPrefix(prio: map<Job, int>, ks: seq<Job>, n: nat)
    requires n < |ks| && forall k | k in ks :: k in prio
    ensures (forall k | k in ks[..n] :: k in prio) && (forall k | k in ks[..n + 1] :: k in prio) && ks[n] in prio
    ensures Sum(prio, ks[..n + 1]) == Sum(prio, ks[..n]) + prio[ks[n]]
  {
    assert ks[..n + 1] == ks[..n] + [ks[n]];
    SumAppend(prio, ks[..n], ks[n]);
  }

  /** Closed form: the law has one solution only, the base times the number of dependent chains. So the
      order in which the edges were added does not show in the priorities. */
  lemma {:induction false} PriorityClosedForm(children: map<Job, seq<Job>>, rank: map<Job, nat>, prio: map<Job, int>, j: Job)
    requires ChildRanked(children, rank) && Balanced(children, prio) && j in children
    ensures prio[j] == BASE_PRIORITY * Chains(children, rank, j)
    decreases Above(rank, j), |children[j]| + 1
  {
    ClosedFormVia(children, rank, prio, j, |children[j]|);
    assert children[j][..|children[j]|] == children[j];
  }

  lemma {:induction false} ClosedFormVia(children: map<Job, seq<Job>>, rank: map<Job, nat>, prio: map<Job, int>, j: Job, n: nat)
    requires ChildRanked(children, rank) && Balanced(children, prio) && j in children && n <= |children[j]|
    ensures forall k | k in children[j][..n] :: k in prio
    ensures Sum(prio, children[j][..n]) == BASE_PRIORITY * ChainsVia(children, rank, j, n)
    decreases Above(rank, j), n
  {
    if n > 0 {
      var c := children[j][n - 1];
      assert c in children[j];
      assert Above(rank, c) < Above(rank, j) by { assert c in Above(rank, j) && c !in Above(rank, c); }
      ClosedFormVia(children, rank, prio, j, n - 1);
      PriorityClosedForm(children, rank, prio, c);
      SumPrefix(prio, children[j], n - 1);
    }
  }

  lemma {:induction false} SumBelowMember(prio: map<Job, int>, ks: seq<Job>, k: Job)
    requires forall i | i in ks :: i in prio && prio[i] < 0
    requires k in ks
    ensures Sum(prio, ks) <= prio[k]
  {
    SumNotPositive(prio, ks[1..]);
    if ks[0] != k {
      SumBelowMember(prio, ks[1..], k);
    }
  }

  lemma {:induction false} SumNotPositive(prio: map<Job, int>, ks: seq<Job>)
    requires forall i | i in ks :: i in prio && prio[i] < 0
    ensures Sum(prio, ks) <= 0
  {
    if ks != [] {
      SumNotPositive(prio, ks[1..]);
    }
  }

  /** Every job sorts strictly before each of its dependents. */
  lemma DependencySortsFirst(children: map<Job, seq<Job>>, rank: map<Job, nat>, prio: map<Job, int>, dep: Job, j: Job)
    requires ChildRanked(children, rank) && Balanced(children, prio) && dep in children && j in children[dep]
    ensures prio[dep] < prio[j]
  {
    forall k | k in children
      ensures prio[k] < 0
    {
      PriorityClosedForm(children, rank, prio, k);
    }
    SumBelowMember(prio, children[dep], j);
  }

  /** Sums do not depend on the order of the edges. */
  lemma {:induction false} SumReordered(p: map<Job, int>, q: map<Job, int>, ks: seq<Job>, ms: seq<Job>)
    requires multiset(ks) == multiset(ms) && forall k | k in ks :: k in p && k in q && p[k] == q[k]
    ensures (forall m | m in ms :: m in q) && Sum(p, ks) == Sum(q, ms)
  {
    assert forall m | m in ms :: m in multiset(ks);
    if ks == [] {
      assert |multiset(ms)| == 0;
    } else {
      var k := ks[0];
      assert k in multiset(ms);
      var i :| 0 <= i < |ms| && ms[i] == k;
      var rest := ms[..i] + ms[i + 1..];
      RestReordered(ks, ms, i);
      SumReordered(p, q, ks[1..], rest);
      SumMoved(q, ms, i);
    }
  }

  lemma RestReordered(ks: seq<Job>, ms: seq<Job>, i: nat)
    requires multiset(ks) == multiset(ms) && ks != [] && i < |ms| && ms[i] == ks[0]
    ensures multiset(ks[1..]) == multiset(ms[..i] + ms[i + 1..])
  {
    var rest := ms[..i] + ms[i + 1..];
    assert ks == [ks[0]] + ks[1..] && ms == ms[..i] + [ks[0]] + ms[i + 1..];
    assert multiset(ks[1..]) == multiset(ks) - multiset{ks[0]};
    assert multiset(rest) == multiset(ms) - multiset{ks[0]};
  }

  lemma {:induction false} SumMoved(q: map<Job, int>, ms: seq<Job>, i: nat)
    requires i < |ms| && forall m | m in ms :: m in q
    ensures (forall m | m in ms[..i] + ms[i + 1..] :: m in q) && Sum(q, ms) == q[ms[i]] + Sum(q, ms[..i] + ms[i + 1..])
  {
    if i == 0 {
      assert ms[..i] + ms[i + 1..] == ms[1..];
    } else {
      SumMoved(q, ms[1..], i - 1);
      assert ms[1..][..i - 1] + ms[1..][i..] == (ms[..i] + ms[i + 1..])[1..];
    }
  }

  /** Priorities depend on the edges alone: two graphs with the same edges, added in any two orders, give
      every job the same priority. */
  lemma {:induction false} PriorityOrderFree(children: map<Job, seq<Job>>, children': map<Job, seq<Job>>, rank: map<Job, nat>,
                                             prio: map<Job, int>, prio': map<Job, int>, j: Job)
    requires ChildRanked(children, rank) && Balanced(children, prio) && Balanced(children', prio')
    requires children.Keys == children'.Keys && j in children
    requires forall k | k in children :: multiset(children[k]) == multiset(children'[k])
    ensures prio[j] == prio'[j]
    decreases Above(rank, j)
  {
    forall c | c in children[j]
      ensures c in prio' && prio[c] == prio'[c]
    {
      assert Above(rank, c) < Above(rank, j) by { assert c in Above(rank, j) && c !in Above(rank, c); }
      PriorityOrderFree(children, children', rank, prio, prio', c);
    }
    SumReordered(prio, prio', children[j], children'[j]);
  }
}
