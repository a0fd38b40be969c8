/** What the single queue transitions keep: order by priority, and every job in exactly one queue. */
module SchedulerLaws {
  import opened Jobs
  import opened SchedulerSpec

  ghost predicate Sorted(g: Graph, s: seq<Job>) {
    forall i, k | 0 <= i < k < |s| :: g.Priority(s[i]) <= g.Priority(s[k])
  }

  lemma {:induction false} RemoveFirstAt(s: seq<Job>, j: Job) returns (k: nat)
    requires j in s
    ensures k < |s| && s[k] == j && RemoveFirst(s, j) == s[..k] + s[k + 1..]
  {
    if s[0] == j {
      k := 0;
    } else {
      var m := RemoveFirstAt(s[1..], j);
      k := m + 1;
      assert s[..k] == [s[0]] + s[1..][..m];
    }
  }

  lemma SortedRemove(g: Graph, s: seq<Job>, j: Job)
    requires Sorted(g, s) && j in s
    ensures Sorted(g, RemoveFirst(s, j))
  {
    var k := RemoveFirstAt(s, j);
    SortedDelete(g, s, k);
  }

  lemma SortedDelete(g: Graph, s: seq<Job>, k: nat)
    requires Sorted(g, s) && k < |s|
    ensures Sorted(g, s[..k] + s[k + 1..])
  {
    var r := s[..k] + s[k + 1..];
    forall i, m | 0 <= i < m < |r|
      ensures g.Priority(r[i]) <= g.Priority(r[m])
    {
      var i', m' := if i < k then i else i + 1, if m < k then m else m + 1;
      assert r[i] == s[i'] && r[m] == s[m'];
    }
  }

  lemma SortedInsert(g: Graph, s: seq<Job>, j: Job)
    requires Sorted(g, s)
    ensures Sorted(g, InsertRight(g, s, j))
  {
    var p := g.Priority(j);
    var i := RightIndex(g, s, p);
    var r := InsertRight(g, s, j);
    forall a, b | 0 <= a < b < |r|
      ensures g.Priority(r[a]) <= g.Priority(r[b])
    {
      if b < i {
        assert r[a] == s[a] && r[b] == s[b];
      } else if b == i {
        assert r[a] == s[a] && r[b] == j;
      } else if a == i {
        assert r[a] == j && r[b] == s[b - 1] && (b - 1 == i || g.Priority(s[i]) <= g.Priority(s[b - 1]));
      } else if a < i {
        assert r[a] == s[a] && r[b] == s[b - 1];
      } else {
        assert r[a] == s[a - 1] && r[b] == s[b - 1];
      }
    }
  }

  /** On a sorted list the insertion point is the only one that keeps equal priorities in arrival order. */
  lemma {:induction false} RightIndexUnique(g: Graph, s: seq<Job>, p: int, i: nat)
    requires i <= |s|
    requires forall k | 0 <= k < i :: g.Priority(s[k]) <= p
    requires forall k | i <= k < |s| :: p < g.Priority(s[k])
    ensures RightIndex(g, s, p) == i
  {
    if i > 0 {
      RightIndexUnique(g, s[1..], p, i - 1);
    }
  }

  // ----- Conservation: no transition duplicates or loses an entry -----

  lemma RemoveFirstCount(s: seq<Job>, j: Job)
    requires j in s
    ensures multiset(s) == multiset(RemoveFirst(s, j)) + multiset{j}
  {
    var k := RemoveFirstAt(s, j);
    assert s == s[..k] + [j] + s[k + 1..];
  }

  lemma InsertCount(g: Graph, s: seq<Job>, j: Job)
    ensures multiset(InsertRight(g, s, j)) == multiset(s) + multiset{j}
  {
    var i := RightIndex(g, s, g.Priority(j));
    assert s == s[..i] + s[i..];
  }

  /** The new entry stands behind all entries of lower or equal priority and before the others, which stay in order. */
  lemma InsertsAfterTies(g: Graph, s: seq<Job>, j: Job) returns (i: nat)
    requires Sorted(g, s)
    ensures i <= |s| && InsertRight(g, s, j) == s[..i] + [j] + s[i..]
    ensures forall k | 0 <= k < |s| :: k < i <==> g.Priority(s[k]) <= g.Priority(j)
  {
    i := RightIndex(g, s, g.Priority(j));
    assert forall k | i <= k < |s| :: g.Priority(s[i]) <= g.Priority(s[k]);
  }

  lemma InsertMembers(g: Graph, s: seq<Job>, j: Job)
    ensures j in InsertRight(g, s, j) && (forall k | k in s :: k in InsertRight(g, s, j))
    ensures forall k | k in InsertRight(g, s, j) :: k == j || k in s
  {
    var i := RightIndex(g, s, g.Priority(j));
    assert s == s[..i] + s[i..];
    assert InsertRight(g, s, j)[i] == j;
  }

  ghost function ParkedJobs(p: Parked): multiset<Job> {
    multiset(p.todo) + multiset(p.ready) + multiset(p.skipped)
  }

  /** The jobs that count against the limit. */
  function Running(q: Queues): seq<Job> {
    q.active + q.launching + q.finalizing
  }

  /** The entries of all seven queues. */
  ghost function AllJobs(q: Queues): multiset<Job> {
    ParkedJobs(q.parked) + multiset(Running(q)) + multiset(q.done)
  }

  ghost predicate Distinct(m: multiset<Job>) {
    forall j | j in m :: m[j] == 1
  }

  // ----- What queued jobs look like -----

  /** A job's listed dependents do depend on it, and every job sorts after its dependencies. */
  ghost predicate WellFormed(g: Graph) {
    && (forall j, c | j in g.children && c in g.children[j] :: j in g.Deps(c))
    && (forall j, d | j in g.deps && d in g.deps[j] :: g.Priority(d) < g.Priority(j))
  }

  /** Whatever add_dependency builds is well formed. */
  lemma BuiltGraphWellFormed(deps: map<Job, seq<Job>>, children: map<Job, seq<Job>>, prio: map<Job, int>, rank: map<Job, nat>)
    requires Acyclic(deps, rank) && Mirrored(deps, children) && Balanced(children, prio)
    ensures WellFormed(Graph(deps, children, prio))
  {
    var g := Graph(deps, children, prio);
    forall j, c | j in g.children && c in g.children[j]
      ensures j in g.Deps(c)
    {
      ChildDepends(deps, children, j, c);
    }
    forall j, d | j in g.deps && d in g.deps[j]
      ensures g.Priority(d) < g.Priority(j)
    {
      EdgeSorts(deps, children, prio, rank, j, d);
    }
  }

  lemma EdgeSorts(deps: map<Job, seq<Job>>, children: map<Job, seq<Job>>, prio: map<Job, int>, rank: map<Job, nat>, j: Job, d: Job)
    requires Acyclic(deps, rank) && Mirrored(deps, children) && Balanced(children, prio) && j in deps && d in deps[j]
    ensures d in prio && j in prio && prio[d] < prio[j]
  {
    DependencyChild(deps, children, rank, j, d);
    MirrorRanked(deps, children, rank);
    DependencySortsFirst(children, rank, prio, d, j);
  }

  lemma ChildDepends(deps: map<Job, seq<Job>>, children: map<Job, seq<Job>>, j: Job, c: Job)
    requires Mirrored(deps, children) && j in children && c in children[j]
    ensures c in deps && j in deps[c]
  {
    assert multiset(deps[c])[j] == multiset(children[j])[c] > 0;
  }

  lemma DependencyChild(deps: map<Job, seq<Job>>, children: map<Job, seq<Job>>, rank: map<Job, nat>, j: Job, d: Job)
    requires Acyclic(deps, rank) && Mirrored(deps, children) && j in deps && d in deps[j]
    ensures d in children && j in children[d]
  {
    assert multiset(children[d])[j] == multiset(deps[j])[d] > 0;
  }

  /** Both lists are sorted, nothing is listed twice, and what waits has not completed. */
  ghost predicate Waiting(g: Graph, p: Parked) {
    && Sorted(g, p.todo) && Sorted(g, p.ready)
    && (forall j | j in p.todo :: p.Status(j).Pending())
    && (forall j | j in p.ready :: p.Status(j).Pending() && DependenciesSuccessful(g, p.status, j))
    && Distinct(ParkedJobs(p))
  }

  ghost predicate Unsuccessful(status: map<Job, JobStatus>, j: Job) {
    StatusIn(status, j).Completed() && !StatusIn(status, j).Successful()
  }

  ghost predicate HasFailedDependency(g: Graph, status: map<Job, JobStatus>, j: Job) {
    exists d | d in g.Deps(j) :: Unsuccessful(status, d)
  }

  /** From s to t statuses change only by skipping a job that has an unsuccessful dependency. */
  ghost predicate SkipsJustified(g: Graph, s: map<Job, JobStatus>, t: map<Job, JobStatus>) {
    && s.Keys <= t.Keys
    && forall j | j in t ::
         || t[j] == StatusIn(s, j)
         || (StatusIn(s, j).Pending() && t[j] == Skipped && HasFailedDependency(g, t, j))
  }

  lemma SkipsCompose(g: Graph, s: map<Job, JobStatus>, t: map<Job, JobStatus>, u: map<Job, JobStatus>)
    requires SkipsJustified(g, s, t) && SkipsJustified(g, t, u)
    ensures SkipsJustified(g, s, u)
  {
    forall j | j in u
      ensures || u[j] == StatusIn(s, j)
              || (StatusIn(s, j).Pending() && u[j] == Skipped && HasFailedDependency(g, u, j))
    {
      if u[j] == StatusIn(t, j) && StatusIn(t, j) != StatusIn(s, j) {
        var d :| d in g.Deps(j) && Unsuccessful(t, d);
        assert Unsuccessful(u, d);
      }
    }
  }

  /** A job that was completed keeps its status. */
  lemma SkipsKeep(g: Graph, s: map<Job, JobStatus>, t: map<Job, JobStatus>, j: Job)
    requires SkipsJustified(g, s, t)
    ensures StatusIn(s, j).Completed() ==> StatusIn(t, j) == StatusIn(s, j)
    ensures StatusIn(t, j) == StatusIn(s, j) || (StatusIn(s, j).Pending() && StatusIn(t, j) == Skipped)
  {
  }

  lemma ReadyKept(g: Graph, ready: seq<Job>, s: map<Job, JobStatus>, t: map<Job, JobStatus>)
    requires SkipsJustified(g, s, t)
    requires forall j | j in ready :: DependenciesSuccessful(g, s, j)
    ensures forall j | j in ready :: DependenciesSuccessful(g, t, j)
  {
    forall j, d | j in ready && d in g.Deps(j)
      ensures StatusIn(t, d).Successful()
    {
      assert StatusIn(s, d).Successful();
      SkipsKeep(g, s, t, d);
    }
  }

  /** Skipping one dependent of an unsuccessful job. */
  lemma MovedLaw(g: Graph, p: Parked, parent: Job, child: Job)
    requires Waiting(g, p) && child in p.todo
    requires Unsuccessful(p.status, parent) && parent in g.Deps(child)
    ensures p.Status(child).Update(Skipped).Ok?
    ensures var r := Moved(p, child);
            && Waiting(g, r) && ParkedJobs(r) == ParkedJobs(p) && SkipsJustified(g, p.status, r.status)
            && Unsuccessful(r.status, child) && Unsuccessful(r.status, parent) && child !in r.todo
            && (forall j | j in p.todo && j != child :: j in r.todo)
  {
    var r := Moved(p, child);
    RemoveFirstCount(p.todo, child);
    assert ParkedJobs(r) == ParkedJobs(p);
    assert r.skipped[|p.skipped|] == child;
    assert ParkedJobs(r)[child] == 1 && child in r.skipped;
    SortedRemove(g, p.todo, child);
    assert Unsuccessful(r.status, parent);
    assert HasFailedDependency(g, r.status, child);
    assert SkipsJustified(g, p.status, r.status);
    ReadyKept(g, p.ready, p.status, r.status);
    forall j | j in p.ready
      ensures r.Status(j).Pending()
    {
      assert j != child by { OnePlace(p, j); }
    }
    RemoveFirstMembers(p.todo, child);
  }

  lemma RemoveFirstMembers(s: seq<Job>, j: Job)
    requires j in s
    ensures forall k | k in s && k != j :: k in RemoveFirst(s, j)
  {
    RemoveFirstCount(s, j);
    forall k | k in s && k != j
      ensures k in RemoveFirst(s, j)
    {
      assert k in multiset(s);
      assert k in multiset(RemoveFirst(s, j));
    }
  }

  /** A parked job is in one list only. */
  lemma OnePlace(p: Parked, j: Job)
    requires Distinct(ParkedJobs(p))
    ensures !(j in p.todo && j in p.ready) && !(j in p.todo && j in p.skipped) && !(j in p.ready && j in p.skipped)
  {
    assert j in p.todo <==> j in multiset(p.todo);
    assert j in p.ready <==> j in multiset(p.ready);
    assert j in p.skipped <==> j in multiset(p.skipped);
    assert ParkedJobs(p)[j] == multiset(p.todo)[j] + multiset(p.ready)[j] + multiset(p.skipped)[j];
    assert ParkedJobs(p)[j] <= 1;
  }

  /** The eager recursion: nothing is lost, every skip has a failed dependency, and all the listed
      dependents that waited in todo have left it. */
  lemma {:induction false} SkipChildrenLaw(g: Graph, p: Parked, parent: Job, kids: seq<Job>)
    requires WellFormed(g) && Waiting(g, p) && Unsuccessful(p.status, parent)
    requires forall k | k in kids :: parent in g.Deps(k)
    ensures var r := SkipChildren(g, p, kids);
            && Waiting(g, r) && ParkedJobs(r) == ParkedJobs(p) && SkipsJustified(g, p.status, r.status)
            && (forall j | j in r.todo :: j in p.todo)
            && (forall k | k in kids :: k !in r.todo)
    decreases |p.todo|, |kids|
  {
    if kids != [] {
      SkipUnfolds(g, p, kids);
      var child := kids[0];
      assert forall k | k in kids :: k == child || k in kids[1..];
      if child !in p.todo {
        SkipChildrenLaw(g, p, parent, kids[1..]);
      } else {
        MovedLaw(g, p, parent, child);
        var moved := Moved(p, child);
        SkipChildrenLaw(g, moved, child, g.Children(child));
        var below := SkipChildren(g, moved, g.Children(child));
        SkipsKeep(g, moved.status, below.status, parent);
        SkipChildrenLaw(g, below, parent, kids[1..]);
        SkipsCompose(g, p.status, moved.status, below.status);
        SkipsCompose(g, p.status, below.status, SkipChildren(g, p, kids).status);
      }
    }
  }

  // ----- The pass over todo -----

  /** Some dependency of j is open and will not be looked at in the rest of the pass. */
  ghost predicate Blocked(g: Graph, status: map<Job, JobStatus>, j: Job, pending: seq<Job>) {
    exists d | d in g.Deps(j) :: !StatusIn(status, d).Completed() && d !in pending
  }

  /** The pass in mid-flight: the kept and the pending jobs together are what todo holds. */
  ghost predicate MidPass(g: Graph, p: Parked, pending: seq<Job>, kept: seq<Job>) {
    && Waiting(g, p.(todo := kept + pending))
    && forall j | j in kept :: Blocked(g, p.status, j, pending)
  }

  lemma KeepLaw(g: Graph, p: Parked, pending: seq<Job>, kept: seq<Job>)
    requires WellFormed(g) && MidPass(g, p, pending, kept) && pending != []
    requires !DependenciesCompleted(g, p.status, pending[0])
    ensures MidPass(g, p, pending[1..], kept + [pending[0]])
  {
    var j, rest := pending[0], pending[1..];
    assert kept + [j] + rest == kept + pending;
    var d :| d in g.Deps(j) && !p.Status(d).Completed();
    forall e | e in rest
      ensures g.Priority(j) <= g.Priority(e)
    {
      var i :| 0 <= i < |rest| && rest[i] == e;
      assert (kept + pending)[|kept|] == j && (kept + pending)[|kept| + 1 + i] == e;
    }
    assert d !in rest;
    forall k | k in kept
      ensures Blocked(g, p.status, k, rest)
    {
      var e :| e in g.Deps(k) && !p.Status(e).Completed() && e !in pending;
      assert e !in rest;
    }
  }

  /** The job looked at is listed nowhere else. */
  lemma PendingOnce(p: Parked, pending: seq<Job>, kept: seq<Job>)
    requires pending != []
    requires Distinct(ParkedJobs(p.(todo := kept + pending)))
    ensures pending[0] !in kept + pending[1..] && pending[0] !in p.ready
    ensures kept + pending == kept + [pending[0]] + pending[1..]
  {
    var j, rest, before := pending[0], pending[1..], p.(todo := kept + pending);
    assert kept + pending == kept + [j] + rest;
    assert multiset(kept + pending)[j] == multiset(kept + rest)[j] + 1;
    assert j in before.todo by { assert before.todo[|kept|] == j; }
    assert j in multiset(before.todo) && j in ParkedJobs(before);
    OnePlace(before, j);
    assert ParkedJobs(before)[j] == multiset(kept + pending)[j] + multiset(p.ready)[j] + multiset(p.skipped)[j];
    assert multiset(kept + rest)[j] == 0;
    assert j !in kept + rest by { assert j !in multiset(kept + rest); }
  }

  lemma AdvanceCount(g: Graph, p: Parked, pending: seq<Job>, kept: seq<Job>)
    requires pending != [] && kept + pending == kept + [pending[0]] + pending[1..]
    ensures ParkedJobs(Advance(g, p, pending[0]).(todo := kept + pending[1..])) == ParkedJobs(p.(todo := kept + pending))
  {
    InsertCount(g, p.ready, pending[0]);
  }

  lemma AdvanceStatus(g: Graph, p: Parked, j: Job)
    requires DependenciesCompleted(g, p.status, j) && p.Status(j).Pending()
    ensures var r := Advance(g, p, j);
            && SkipsJustified(g, p.status, r.status)
            && (forall k | k in r.status && k != j :: r.Status(k) == p.Status(k))
            && (DependenciesSuccessful(g, p.status, j) ==> r.status == p.status)
  {
    var r := Advance(g, p, j);
    if !DependenciesSuccessful(g, p.status, j) {
      var d :| d in g.Deps(j) && !StatusIn(p.status, d).Successful();
      assert StatusIn(p.status, d).Completed();
      assert Unsuccessful(r.status, d);
      assert HasFailedDependency(g, r.status, j);
    }
  }

  lemma AdvanceWaiting(g: Graph, p: Parked, pending: seq<Job>, kept: seq<Job>)
    requires Waiting(g, p.(todo := kept + pending)) && pending != [] && DependenciesCompleted(g, p.status, pending[0])
    requires p.Status(pending[0]).Pending()
    ensures Waiting(g, Advance(g, p, pending[0]).(todo := kept + pending[1..]))
  {
    var j, rest, before, r := pending[0], pending[1..], p.(todo := kept + pending), Advance(g, p, pending[0]);
    var after := r.(todo := kept + rest);
    PendingOnce(p, pending, kept);
    AdvanceCount(g, p, pending, kept);
    AdvanceStatus(g, p, j);
    SortedDelete(g, before.todo, |kept|);
    assert before.todo[..|kept|] + before.todo[|kept| + 1..] == after.todo;
    forall k | k in after.todo
      ensures after.Status(k).Pending()
    {
      assert k in before.todo && k != j;
    }
    AdvanceReady(g, p, j);
  }

  lemma AdvanceReady(g: Graph, p: Parked, j: Job)
    requires Sorted(g, p.ready) && j !in p.ready && p.Status(j).Pending() && DependenciesCompleted(g, p.status, j)
    requires forall k | k in p.ready :: p.Status(k).Pending() && DependenciesSuccessful(g, p.status, k)
    ensures var r := Advance(g, p, j);
            Sorted(g, r.ready) && forall k | k in r.ready :: r.Status(k).Pending() && DependenciesSuccessful(g, r.status, k)
  {
    var r := Advance(g, p, j);
    AdvanceStatus(g, p, j);
    ReadyKept(g, p.ready, p.status, r.status);
    SortedInsert(g, p.ready, j);
    InsertCount(g, p.ready, j);
    forall k | k in r.ready
      ensures r.Status(k).Pending() && DependenciesSuccessful(g, r.status, k)
    {
      assert k in multiset(r.ready);
      assert k == j || k in multiset(p.ready);
    }
  }

  lemma AdvanceLaw(g: Graph, p: Parked, pending: seq<Job>, kept: seq<Job>)
    requires WellFormed(g) && MidPass(g, p, pending, kept) && pending != []
    requires DependenciesCompleted(g, p.status, pending[0])
    ensures var r := Advance(g, p, pending[0]);
            && MidPass(g, r, pending[1..], kept)
            && ParkedJobs(r.(todo := kept + pending[1..])) == ParkedJobs(p.(todo := kept + pending))
            && SkipsJustified(g, p.status, r.status)
  {
    var j, rest, r := pending[0], pending[1..], Advance(g, p, pending[0]);
    assert j in kept + pending by { assert (kept + pending)[|kept|] == j; }
    assert p.(todo := kept + pending).Status(j).Pending();
    PendingOnce(p, pending, kept);
    AdvanceCount(g, p, pending, kept);
    AdvanceStatus(g, p, j);
    AdvanceWaiting(g, p, pending, kept);
    forall k | k in kept
      ensures Blocked(g, r.status, k, rest)
    {
      var e :| e in g.Deps(k) && !p.Status(e).Completed() && e !in pending;
      assert e != j && e !in rest;
    }
  }

  /** One pass reaches a fixpoint although skips cascade inside it: no job is left in todo with all its
      dependencies completed. Nothing is lost, and everything that became ready may run. */
  lemma {:induction false} PassLaw(g: Graph, p: Parked, pending: seq<Job>, kept: seq<Job>)
    requires WellFormed(g) && MidPass(g, p, pending, kept)
    ensures var r := Pass(g, p, pending, kept);
            && Waiting(g, r) && ParkedJobs(r) == ParkedJobs(p.(todo := kept + pending)) && SkipsJustified(g, p.status, r.status)
            && (forall j | j in r.todo :: !DependenciesCompleted(g, r.status, j))
            && (forall j | j in r.todo :: j in kept + pending)
    decreases |pending|
  {
    if pending == [] {
      assert kept + pending == kept;
      forall j | j in kept
        ensures !DependenciesCompleted(g, p.status, j)
      {
        assert Blocked(g, p.status, j, pending);
      }
    } else {
      var j, rest := pending[0], pending[1..];
      assert kept + [j] + rest == kept + pending;
      if !DependenciesCompleted(g, p.status, j) {
        KeepLaw(g, p, pending, kept);
        PassLaw(g, p, rest, kept + [j]);
      } else {
        AdvanceLaw(g, p, pending, kept);
        PassLaw(g, Advance(g, p, j), rest, kept);
        SkipsCompose(g, p.status, Advance(g, p, j).status, Pass(g, p, pending, kept).status);
      }
    }
  }

  lemma MoveTodoToReadyLaw(g: Graph, p: Parked)
    requires WellFormed(g) && Waiting(g, p)
    ensures var r := MoveTodoToReady(g, p);
            && Waiting(g, r) && ParkedJobs(r) == ParkedJobs(p) && SkipsJustified(g, p.status, r.status)
            && (forall j | j in r.todo :: !DependenciesCompleted(g, r.status, j))
            && (forall j | j in r.todo :: j in p.todo)
  {
    assert [] + p.todo == p.todo;
    assert p.(todo := p.todo) == p;
    PassLaw(g, p, p.todo, []);
  }

  /** The job taken is launchable and no launchable job of ready has a lower priority. */
  lemma TakeIsMinimal(g: Graph, q: Queues, limits: Limits)
    requires Sorted(g, q.parked.ready) && Choice(q, limits).Some?
    ensures var j := Choice(q, limits).value;
            && CanLaunch(q, limits, j)
            && (forall k | k in q.parked.ready && CanLaunch(q, limits, k) :: g.Priority(j) <= g.Priority(k))
            && multiset(TakeReady(q, limits).launching) == multiset(q.launching) + multiset{j}
            && multiset(q.parked.ready) == multiset(TakeReady(q, limits).parked.ready) + multiset{j}
  {
    var i, ready := FirstLaunchable(q, limits, 0), q.parked.ready;
    assert ready == ready[..i] + [ready[i]] + ready[i + 1..];
    forall k | k in ready && CanLaunch(q, limits, k)
      ensures g.Priority(ready[i]) <= g.Priority(k)
    {
      var m :| 0 <= m < |ready| && ready[m] == k;
      assert m >= i;
    }
  }
}
