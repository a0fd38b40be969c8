/** The merge of the legacy run history into the current one, lib/simmer_results.py. */
module History {
  import opened Wrappers
  import opened Sorting

  /** A recorded run. An empty or missing run_id is None; `stamp` is the time at which the run finished, or
      else started, in the order in which the recorded strings sort. */
  datatype Run = Run(id: Option<string>, stamp: int, body: int)

  datatype Store = Store(lastRun: Option<Run>, runs: seq<Run>)

  /** The first position of an id; the length if it does not occur. */
  function Position(runs: seq<Run>, id: string): (i: nat)
    ensures i <= |runs|
    ensures i < |runs| ==> runs[i].id == Some(id)
    ensures forall k | 0 <= k < i :: runs[k].id != Some(id)
  {
    if runs == [] || runs[0].id == Some(id) then 0 else 1 + Position(runs[1..], id)
  }

  predicate Has(runs: seq<Run>, id: string) {
    Position(runs, id) < |runs|
  }

  /** One round of the merge loop: a run whose id is known takes the place of the earlier one. */
  function Put(merged: seq<Run>, run: Run): seq<Run> {
    if run.id.Some? && Has(merged, run.id.value) then merged[Position(merged, run.id.value) := run] else merged + [run]
  }

  function Combined(runs: seq<Run>): seq<Run> {
    if runs == [] then [] else Put(Combined(runs[..|runs| - 1]), runs[|runs| - 1])
  }

  datatype Item = Item(index: nat, run: Run)

  /** The sort key: the stamp, then the position in the merged list. */
  predicate ItemLe(a: Item, b: Item) {
    a.run.stamp < b.run.stamp || (a.run.stamp == b.run.stamp && a.index <= b.index)
  }

  function Enumerate(runs: seq<Run>): seq<Item> {
    seq(|runs|, i requires 0 <= i < |runs| => Item(i, runs[i]))
  }

  function Runs(items: seq<Item>): seq<Run> {
    seq(|items|, i requires 0 <= i < |items| => items[i].run)
  }

  function Ordered(runs: seq<Run>): seq<Run> {
    Runs(Sort(ItemLe, Enumerate(runs)))
  }

  /** The slice [-max:], which for 0 is the whole list. */
  function Latest(runs: seq<Run>, max: nat): seq<Run> {
    if max == 0 || |runs| <= max then runs else runs[|runs| - max..]
  }

  /** _merge_stores. */
  function Merged(legacy: seq<Run>, current: seq<Run>, max: nat): seq<Run> {
    Latest(Ordered(Combined(legacy + current)), max)
  }

  method MergeStores(legacy: seq<Run>, current: seq<Run>, max: nat) returns (store: Store)
    ensures store.runs == Merged(legacy, current, max)
    ensures store.lastRun == if store.runs == [] then None else Some(store.runs[|store.runs| - 1])
  {
    var merged: seq<Run> := [];
    var positions: map<string, nat> := map[];
    var all := legacy + current;
    var i := 0;
    while i < |all|
      invariant 0 <= i <= |all| && merged == Combined(all[..i]) && Indexed(positions, merged)
    {
      var run := all[i];
      CombinedNext(all, i);
      IndexedPut(positions, merged, run);
      if run.id.Some? && run.id.value in positions {
        merged := merged[positions[run.id.value] := run];
      } else {
        if run.id.Some? {
          positions := positions[run.id.value := |merged|];
        }
        merged := merged + [run];
      }
      i := i + 1;
    }
    assert all[..i] == all;
    var runs := Latest(Runs(Sort(ItemLe, Enumerate(merged))), max);
    store := Store(if runs == [] then None else Some(runs[|runs| - 1]), runs);
  }

  // ----- The positions of the ids -----

  /** The position map of the merge loop. */
  ghost predicate Indexed(positions: map<string, nat>, merged: seq<Run>) {
    && (forall id :: id in positions <==> Has(merged, id))
    && (forall id | id in positions :: positions[id] == Position(merged, id))
  }

  lemma CombinedNext(all: seq<Run>, i: nat)
    requires i < |all|
    ensures Combined(all[..i + 1]) == Put(Combined(all[..i]), all[i])
  {
    assert all[..i + 1][..i] == all[..i];
  }

  lemma IndexedPut(positions: map<string, nat>, merged: seq<Run>, run: Run)
    requires Indexed(positions, merged)
    ensures run.id.Some? && Has(merged, run.id.value) ==>
              run.id.value in positions && positions[run.id.value] == Position(merged, run.id.value) &&
              Indexed(positions, Put(merged, run))
    ensures run.id.Some? && !Has(merged, run.id.value) ==>
              run.id.value !in positions && Indexed(positions[run.id.value := |merged|], merged + [run])
    ensures run.id.None? ==> Indexed(positions, merged + [run])
  {
    if run.id.Some? && Has(merged, run.id.value) {
      PutReplaces(merged, run);
    } else {
      PutAppends(merged, run);
    }
  }

  lemma {:induction false} PositionIs(runs: seq<Run>, id: string, i: nat)
    requires i <= |runs| && (i < |runs| ==> runs[i].id == Some(id))
    requires forall k | 0 <= k < i :: runs[k].id != Some(id)
    ensures Position(runs, id) == i
  {
  }

  /** Replacing keeps every position. */
  lemma PutReplaces(merged: seq<Run>, run: Run)
    requires run.id.Some? && Has(merged, run.id.value)
    ensures |Put(merged, run)| == |merged| && forall id :: Position(Put(merged, run), id) == Position(merged, id)
  {
    forall id
      ensures Position(Put(merged, run), id) == Position(merged, id)
    {
      PositionIs(Put(merged, run), id, Position(merged, id));
    }
  }

  /** Appending adds one position at the end. */
  lemma PutAppends(merged: seq<Run>, run: Run)
    ensures forall id :: Position(merged + [run], id) ==
              if Has(merged, id) then Position(merged, id) else if run.id == Some(id) then |merged| else |merged| + 1
  {
    forall id
      ensures Position(merged + [run], id) ==
                if Has(merged, id) then Position(merged, id) else if run.id == Some(id) then |merged| else |merged| + 1
    {
      PositionIs(merged + [run], id,
        if Has(merged, id) then Position(merged, id) else if run.id == Some(id) then |merged| else |merged| + 1);
    }
  }

  /** The last run with an id. */
  function LastWith(runs: seq<Run>, id: string): Option<Run> {
    if runs == [] then None
    else if runs[|runs| - 1].id == Some(id) then Some(runs[|runs| - 1])
    else LastWith(runs[..|runs| - 1], id)
  }

  predicate DistinctIds(runs: seq<Run>) {
    forall i, k | 0 <= i < k < |runs| && runs[i].id.Some? :: runs[i].id != runs[k].id
  }

  /** A merged list c of the runs: no id twice; the ids are those of the runs, in the order of their first
      occurrence; each stands for its last occurrence, so a current run wins over a legacy one. */
  ghost predicate Represents(c: seq<Run>, runs: seq<Run>) {
    && DistinctIds(c)
    && (forall id :: Has(c, id) <==> Has(runs, id))
    && (forall id | Has(c, id) :: LastWith(runs, id) == Some(c[Position(c, id)]))
    && (forall a, b | Has(c, a) && Has(c, b) :: Position(c, a) < Position(c, b) <==> Position(runs, a) < Position(runs, b))
  }

  lemma LastWithNext(runs: seq<Run>, run: Run, id: string)
    ensures LastWith(runs + [run], id) == if run.id == Some(id) then Some(run) else LastWith(runs, id)
  {
    assert (runs + [run])[..|runs|] == runs;
  }

  lemma ReplacingRepresents(c: seq<Run>, runs: seq<Run>, run: Run)
    requires Represents(c, runs) && run.id.Some? && Has(c, run.id.value)
    ensures Represents(Put(c, run), runs + [run])
  {
    PutReplaces(c, run);
    PutAppends(runs, run);
    forall id | Has(c, id)
      ensures LastWith(runs + [run], id) == Some(Put(c, run)[Position(c, id)])
    {
      LastWithNext(runs, run, id);
    }
  }

  lemma AppendingRepresents(c: seq<Run>, runs: seq<Run>, run: Run)
    requires Represents(c, runs) && (run.id.Some? ==> !Has(c, run.id.value))
    ensures Represents(c + [run], runs + [run])
  {
    PutAppends(c, run);
    PutAppends(runs, run);
    forall id | Has(c + [run], id)
      ensures LastWith(runs + [run], id) == Some((c + [run])[Position(c + [run], id)])
    {
      LastWithNext(runs, run, id);
    }
    forall i | 0 <= i < |c| && c[i].id.Some?
      ensures c[i].id != run.id
    {
      assert Position(c, c[i].id.value) <= i;
    }
  }

  lemma {:induction false} CombinedLaw(runs: seq<Run>)
    ensures Represents(Combined(runs), runs)
    decreases |runs|
  {
    if runs != [] {
      var init, run := runs[..|runs| - 1], runs[|runs| - 1];
      assert runs == init + [run];
      CombinedLaw(init);
      if run.id.Some? && Has(Combined(init), run.id.value) {
        ReplacingRepresents(Combined(init), init, run);
      } else {
        AppendingRepresents(Combined(init), init, run);
      }
    }
  }

  // ----- The order -----

  lemma ItemLeTotal()
    ensures TotalOrder(ItemLe)
  {
  }

  /** Each item sorts strictly before the next. */
  ghost predicate Ascending(items: seq<Item>) {
    forall i, k | 0 <= i < k < |items| :: ItemLe(items[i], items[k]) && items[i].index != items[k].index
  }

  /** Items in ascending order are determined by their set. */
  lemma {:induction false} AscendingIsUnique(a: seq<Item>, b: seq<Item>)
    requires Ascending(a) && Ascending(b) && forall x :: x in a <==> x in b
    ensures a == b
    decreases |a|
  {
    assert |b| > 0 ==> b[0] in b;
    if a != [] {
      assert a[0] in a && a[0] in b;
      assert b[0] in b && b[0] in a;
      SameFirst(a, b);
      forall x
        ensures x in a[1..] <==> x in b[1..]
      {
        NotFirst(a, x);
        NotFirst(b, x);
      }
      AscendingIsUnique(a[1..], b[1..]);
      assert a == [a[0]] + a[1..] && b == [b[0]] + b[1..];
    }
  }

  lemma SameFirst(a: seq<Item>, b: seq<Item>)
    requires Ascending(a) && Ascending(b) && a != [] && b != [] && a[0] in b && b[0] in a
    ensures a[0] == b[0]
  {
    var i :| 0 <= i < |b| && b[i] == a[0];
    var k :| 0 <= k < |a| && a[k] == b[0];
  }

  lemma NotFirst(a: seq<Item>, x: Item)
    requires Ascending(a) && a != []
    ensures x in a[1..] <==> x in a && x != a[0]
  {
    if x in a && x != a[0] {
      var i :| 0 <= i < |a| && a[i] == x;
      assert a[1..][i - 1] == x;
    }
    if x in a[1..] {
      var i :| 0 <= i < |a| - 1 && a[1..][i] == x;
      assert a[i + 1] == x;
    }
  }

  lemma SortedItems(runs: seq<Run>)
    ensures var s := Sort(ItemLe, Enumerate(runs));
            && Ascending(s) && |s| == |runs|
            && forall x :: x in s <==> x.index < |runs| && x.run == runs[x.index]
  {
    var e := Enumerate(runs);
    var s := Sort(ItemLe, e);
    ItemLeTotal();
    SortLaw(ItemLe, e);
    SortMembers(ItemLe, e);
    forall x
      ensures x in e <==> x.index < |runs| && x.run == runs[x.index]
    {
      if x.index < |runs| && x.run == runs[x.index] {
        assert e[x.index] == x;
      }
    }
    forall i, k | 0 <= i < k < |s|
      ensures s[i].index != s[k].index
    {
      TwiceSorted(e, s, i, k);
      assert s[i] in s && s[k] in s;
    }
  }

  /** Nothing occurs twice. */
  lemma TwiceSorted(e: seq<Item>, s: seq<Item>, i: nat, k: nat)
    requires i < k < |s| && multiset(e) == multiset(s)
    requires forall a, b | 0 <= a < b < |e| :: e[a] != e[b]
    ensures s[i] != s[k]
  {
    OnceCounted(e, s[i]);
    assert s == s[..i] + [s[i]] + s[i + 1..k] + [s[k]] + s[k + 1..];
    assert s[i] == s[k] ==> multiset(s)[s[i]] >= 2;
  }

  lemma {:induction false} OnceCounted(e: seq<Item>, x: Item)
    requires forall a, b | 0 <= a < b < |e| :: e[a] != e[b]
    ensures multiset(e)[x] <= 1
  {
    if e != [] {
      OnceCounted(e[1..], x);
      assert e == [e[0]] + e[1..];
      if e[0] == x {
        assert x !in e[1..];
      }
    }
  }

  /** Where an entry of the merged history stands among the sorted items. */
  function SortedPlace(c: seq<Run>, max: nat, i: nat): int {
    |c| - |Latest(Ordered(c), max)| + i
  }

  /** An entry of the merged history, and the item that sorted it. */
  lemma LatestItem(c: seq<Run>, max: nat, i: nat)
    requires i < |Latest(Ordered(c), max)|
    ensures var s, k := Sort(ItemLe, Enumerate(c)), SortedPlace(c, max, i);
            && 0 <= k < |s| && s[k].index < |c|
            && s[k].run == Latest(Ordered(c), max)[i] && s[k].run == c[s[k].index]
  {
    SortedLength(c);
    LatestAt(Ordered(c), max, i);
    SortedAt(c, SortedPlace(c, max, i));
  }

  lemma LatestAt(runs: seq<Run>, max: nat, i: nat)
    requires i < |Latest(runs, max)|
    ensures |Latest(runs, max)| <= |runs| && Latest(runs, max)[i] == runs[|runs| - |Latest(runs, max)| + i]
  {
  }

  lemma SortedLength(c: seq<Run>)
    ensures |Sort(ItemLe, Enumerate(c))| == |c|
  {
    SortedItems(c);
  }

  lemma SortedAt(c: seq<Run>, k: nat)
    requires k < |Sort(ItemLe, Enumerate(c))|
    ensures var s := Sort(ItemLe, Enumerate(c)); s[k].index < |c| && s[k].run == c[s[k].index]
  {
    SortedItems(c);
    assert Sort(ItemLe, Enumerate(c))[k] in Sort(ItemLe, Enumerate(c));
  }

  lemma LatestPair(c: seq<Run>, max: nat, i: nat, k: nat)
    requires i < k < |Latest(Ordered(c), max)| && DistinctIds(c)
    ensures var r := Latest(Ordered(c), max);
            r[i].stamp <= r[k].stamp && (r[i].id.Some? ==> r[i].id != r[k].id)
  {
    LatestItem(c, max, i);
    LatestItem(c, max, k);
    SortedItems(c);
    var s, a, b := Sort(ItemLe, Enumerate(c)), SortedPlace(c, max, i), SortedPlace(c, max, k);
    assert ItemLe(s[a], s[b]) && s[a].index != s[b].index;
  }

  /** The merged history: ids stay unique, every run is the last one given for its id, runs are ordered by
      stamp, and the bound holds. */
  lemma MergedLaw(legacy: seq<Run>, current: seq<Run>, max: nat)
    ensures var r := Merged(legacy, current, max);
            && DistinctIds(r)
            && (max > 0 ==> |r| <= max)
            && (forall i, k | 0 <= i < k < |r| :: r[i].stamp <= r[k].stamp)
            && (forall i | 0 <= i < |r| && r[i].id.Some? :: LastWith(legacy + current, r[i].id.value) == Some(r[i]))
  {
    var r := Merged(legacy, current, max);
    forall i, k | 0 <= i < k < |r|
      ensures r[i].stamp <= r[k].stamp && (r[i].id.Some? ==> r[i].id != r[k].id)
    {
      CombinedLaw(legacy + current);
      LatestPair(Combined(legacy + current), max, i, k);
    }
    forall i | 0 <= i < |r| && r[i].id.Some?
      ensures LastWith(legacy + current, r[i].id.value) == Some(r[i])
    {
      MergedIsLast(legacy, current, max, i);
    }
  }

  lemma MergedIsLast(legacy: seq<Run>, current: seq<Run>, max: nat, i: nat)
    requires i < |Merged(legacy, current, max)| && Merged(legacy, current, max)[i].id.Some?
    ensures var r := Merged(legacy, current, max)[i]; LastWith(legacy + current, r.id.value) == Some(r)
  {
    var c, r := Combined(legacy + current), Merged(legacy, current, max)[i];
    CombinedLaw(legacy + current);
    LatestItem(c, max, i);
    var k := Sort(ItemLe, Enumerate(c))[SortedPlace(c, max, i)].index;
    PositionIs(c, r.id.value, k);
    assert Has(c, r.id.value);
  }

  /** Where a kept run stood in the merged list before sorting. */
  function MergedPlace(legacy: seq<Run>, current: seq<Run>, max: nat, i: nat): nat
    requires i < |Merged(legacy, current, max)|
  {
    var c := Combined(legacy + current);
    LatestItem(c, max, i);
    Sort(ItemLe, Enumerate(c))[SortedPlace(c, max, i)].index
  }

  /** Runs with equal timestamps, with ids or without, stay in the order of the merged list, which for ids is
      the order of their first occurrence. */
  lemma TiesKeepOrder(legacy: seq<Run>, current: seq<Run>, max: nat, i: nat, k: nat)
    requires i < k < |Merged(legacy, current, max)|
    requires Merged(legacy, current, max)[i].stamp == Merged(legacy, current, max)[k].stamp
    ensures var r, all := Merged(legacy, current, max), legacy + current; var c := Combined(all);
            var a, b := MergedPlace(legacy, current, max, i), MergedPlace(legacy, current, max, k);
            && a < b < |c| && c[a] == r[i] && c[b] == r[k]
            && (r[i].id.Some? && r[k].id.Some? ==> Position(all, r[i].id.value) < Position(all, r[k].id.value) < |all|)
  {
    var c, r := Combined(legacy + current), Merged(legacy, current, max);
    CombinedLaw(legacy + current);
    LatestItem(c, max, i);
    LatestItem(c, max, k);
    SortedItems(c);
    var s, a, b := Sort(ItemLe, Enumerate(c)), SortedPlace(c, max, i), SortedPlace(c, max, k);
    assert ItemLe(s[a], s[b]) && s[a].index != s[b].index;
    if r[i].id.Some? && r[k].id.Some? {
      PositionIs(c, r[i].id.value, s[a].index);
      PositionIs(c, r[k].id.value, s[b].index);
      assert Has(c, r[i].id.value) && Has(c, r[k].id.value);
    }
  }

  /** A run is dropped only if the result is full, and nothing that was kept is older. */
  lemma TruncationKeepsLatest(legacy: seq<Run>, current: seq<Run>, max: nat, id: string, i: nat)
    requires Has(legacy + current, id) && !Has(Merged(legacy, current, max), id) && i < |Merged(legacy, current, max)|
    ensures |Merged(legacy, current, max)| == max
    ensures LastWith(legacy + current, id).Some?
    ensures LastWith(legacy + current, id).value.stamp <= Merged(legacy, current, max)[i].stamp
  {
    var c := Combined(legacy + current);
    CombinedLaw(legacy + current);
    var j := SortedIndex(c, id);
    TailIsKept(c, max, j);
    LatestItem(c, max, i);
    SortedItems(c);
    assert ItemLe(Sort(ItemLe, Enumerate(c))[j], Sort(ItemLe, Enumerate(c))[SortedPlace(c, max, i)]);
  }

  /** Where the item of an id sorts. */
  lemma SortedIndex(c: seq<Run>, id: string) returns (j: nat)
    requires Has(c, id)
    ensures j < |Sort(ItemLe, Enumerate(c))| && Sort(ItemLe, Enumerate(c))[j] == ItemOf(c, id)
  {
    SortedItems(c);
    var s, x := Sort(ItemLe, Enumerate(c)), ItemOf(c, id);
    assert x.index < |c| && x.run == c[x.index];
    assert x in s;
    j :| 0 <= j < |s| && s[j] == x;
  }

  lemma HasAt(runs: seq<Run>, k: nat)
    requires k < |runs| && runs[k].id.Some?
    ensures Has(runs, runs[k].id.value)
  {
    assert Position(runs, runs[k].id.value) <= k;
  }

  /** What sorts into the tail is kept. */
  lemma TailIsKept(c: seq<Run>, max: nat, j: nat)
    requires j < |Sort(ItemLe, Enumerate(c))|
    ensures SortedPlace(c, max, 0) <= j && Sort(ItemLe, Enumerate(c))[j].run.id.Some? ==>
              Has(Latest(Ordered(c), max), Sort(ItemLe, Enumerate(c))[j].run.id.value)
    ensures j < SortedPlace(c, max, 0) ==> |Latest(Ordered(c), max)| == max
  {
    SortedLength(c);
    var k := j - SortedPlace(c, max, 0);
    if k >= 0 {
      LatestAt(Ordered(c), max, k);
      var r := Latest(Ordered(c), max);
      assert r[k] == Ordered(c)[j] == Sort(ItemLe, Enumerate(c))[j].run;
      if r[k].id.Some? {
        HasAt(r, k);
      }
    }
  }

  // ----- Nothing is lost or invented -----

  lemma WithoutOne<T>(b: seq<T>, k: nat)
    requires k < |b|
    ensures b == b[..k] + [b[k]] + b[k + 1..] && multiset(b) == multiset(b[..k] + b[k + 1..]) + multiset{b[k]}
  {
    assert b == b[..k] + [b[k]] + b[k + 1..];
  }

  lemma {:induction false} RunsCount(a: seq<Item>, b: seq<Item>)
    requires multiset(a) == multiset(b)
    ensures multiset(Runs(a)) == multiset(Runs(b))
    decreases |a|
  {
    if a == [] {
      assert |b| == |multiset(b)|;
    } else {
      assert a[0] in multiset(b);
      var k :| 0 <= k < |b| && b[k] == a[0];
      var rest := RunsWithout(b, k);
      var others := RunsWithout(a, 0);
      assert multiset(others) == multiset(a) - multiset{a[0]} && multiset(rest) == multiset(b) - multiset{a[0]};
      RunsCount(others, rest);
    }
  }

  lemma RunsWithout(b: seq<Item>, k: nat) returns (rest: seq<Item>)
    requires k < |b|
    ensures |rest| < |b| && multiset(b) == multiset(rest) + multiset{b[k]}
    ensures multiset(Runs(b)) == multiset(Runs(rest)) + multiset{b[k].run}
  {
    rest := b[..k] + b[k + 1..];
    WithoutOne(b, k);
    WithoutOne(Runs(b), k);
    assert Runs(b)[..k] + Runs(b)[k + 1..] == Runs(rest);
  }

  lemma OrderedCounts(c: seq<Run>)
    ensures multiset(Ordered(c)) == multiset(c)
  {
    ItemLeTotal();
    SortLaw(ItemLe, Enumerate(c));
    RunsCount(Sort(ItemLe, Enumerate(c)), Enumerate(c));
    assert Runs(Enumerate(c)) == c;
  }

  /** The positions that open an entry of the merged list: runs without an id, and first occurrences of an id. */
  function Openers(runs: seq<Run>): seq<nat> {
    if runs == [] then []
    else
      var init, last := runs[..|runs| - 1], runs[|runs| - 1];
      Openers(init) + if last.id.Some? && Has(init, last.id.value) then [] else [|init|]
  }

  lemma {:induction false} OpenersLaw(runs: seq<Run>, i: nat)
    ensures i in Openers(runs) <==>
            i < |runs| && (runs[i].id.None? || forall k | 0 <= k < i :: runs[k].id != runs[i].id)
    decreases |runs|
  {
    if runs != [] {
      var init, last := runs[..|runs| - 1], runs[|runs| - 1];
      OpenersLaw(init, i);
      assert forall k | 0 <= k < |init| :: init[k] == runs[k];
      if i == |init| && last.id.Some? {
        assert Has(init, last.id.value) ==> runs[Position(init, last.id.value)].id == last.id;
      }
    }
  }

  lemma {:induction false} OpenersRise(runs: seq<Run>)
    ensures forall k | 0 <= k < |Openers(runs)| :: Openers(runs)[k] < |runs|
    ensures forall k, m | 0 <= k < m < |Openers(runs)| :: Openers(runs)[k] < Openers(runs)[m]
    decreases |runs|
  {
    if runs != [] {
      OpenersRise(runs[..|runs| - 1]);
    }
  }

  /** The merged list has one entry for each opener, in that order: the run itself if it has no id, else a run with
      its id. */
  ghost predicate Follows(c: seq<Run>, runs: seq<Run>, openers: seq<nat>) {
    |c| == |openers| &&
    forall k | 0 <= k < |c| ::
      openers[k] < |runs| && c[k].id == runs[openers[k]].id && (c[k].id.None? ==> c[k] == runs[openers[k]])
  }

  lemma {:induction false} CombinedFollows(runs: seq<Run>)
    ensures Follows(Combined(runs), runs, Openers(runs))
    decreases |runs|
  {
    if runs != [] {
      var init, last := runs[..|runs| - 1], runs[|runs| - 1];
      CombinedFollows(init);
      CombinedLaw(init);
      assert runs == init + [last];
      PutFollows(Combined(init), init, Openers(init), last);
    }
  }

  lemma PutFollows(c: seq<Run>, runs: seq<Run>, openers: seq<nat>, run: Run)
    requires Follows(c, runs, openers) && forall id :: Has(c, id) <==> Has(runs, id)
    ensures Follows(Put(c, run), runs + [run],
                    openers + if run.id.Some? && Has(runs, run.id.value) then [] else [|runs|])
  {
    assert forall k | 0 <= k < |runs| :: (runs + [run])[k] == runs[k];
  }

  /** Truncation drops the oldest: what is not in the merged history is nowhere later than what is, and is dropped only
      if the history is full. */
  lemma MergedIsLatest(legacy: seq<Run>, current: seq<Run>, max: nat) returns (older: seq<Run>)
    ensures multiset(older + Merged(legacy, current, max)) == multiset(Combined(legacy + current))
    ensures older != [] ==> |Merged(legacy, current, max)| == max > 0
    ensures forall i, k | 0 <= i < |older| && 0 <= k < |Merged(legacy, current, max)| ::
              older[i].stamp <= Merged(legacy, current, max)[k].stamp
  {
    var c, o, r := Combined(legacy + current), Ordered(Combined(legacy + current)), Merged(legacy, current, max);
    OrderedCounts(c);
    older := o[..|o| - |r|];
    assert o == older + r;
    forall i, k | 0 <= i < |older| && 0 <= k < |r|
      ensures older[i].stamp <= r[k].stamp
    {
      OrderedStamps(c, i, |older| + k);
    }
  }

  lemma OrderedStamps(c: seq<Run>, i: nat, k: nat)
    requires i < k < |Ordered(c)|
    ensures Ordered(c)[i].stamp <= Ordered(c)[k].stamp
  {
    SortedItems(c);
    assert ItemLe(Sort(ItemLe, Enumerate(c))[i], Sort(ItemLe, Enumerate(c))[k]);
  }

  // ----- Ids across two lists -----

  lemma {:induction false} LastWithIn(runs: seq<Run>, id: string)
    ensures LastWith(runs, id).Some? <==> Has(runs, id)
    ensures LastWith(runs, id).Some? ==> LastWith(runs, id).value in runs && LastWith(runs, id).value.id == Some(id)
    decreases |runs|
  {
    if runs != [] {
      var init, run := runs[..|runs| - 1], runs[|runs| - 1];
      assert runs == init + [run];
      PutAppends(init, run);
      LastWithIn(init, id);
    }
  }

  lemma {:induction false} LastWithAppends(a: seq<Run>, b: seq<Run>, id: string)
    ensures LastWith(a + b, id) == if Has(b, id) then LastWith(b, id) else LastWith(a, id)
    decreases |b|
  {
    if b == [] {
      assert a + b == a;
    } else {
      var init, run := b[..|b| - 1], b[|b| - 1];
      assert b == init + [run] && (a + b)[..|a + b| - 1] == a + init;
      PutAppends(init, run);
      LastWithAppends(a, init, id);
    }
  }

  lemma PositionAppends(a: seq<Run>, b: seq<Run>, id: string)
    ensures Position(a + b, id) == if Has(a, id) then Position(a, id) else |a| + Position(b, id)
  {
    PositionIs(a + b, id, if Has(a, id) then Position(a, id) else |a| + Position(b, id));
  }

  /** The run that an id stands for after a merge, and the item that sorts it. */
  function ItemOf(c: seq<Run>, id: string): Item
    requires Has(c, id)
  {
    Item(Position(c, id), c[Position(c, id)])
  }

  /** In a merge with distinct ids an item is known by its id. */
  lemma ItemById(c: seq<Run>, x: Item)
    requires DistinctIds(c) && x.index < |c| && x.run == c[x.index] && x.run.id.Some?
    ensures Has(c, x.run.id.value) && x == ItemOf(c, x.run.id.value)
  {
    PositionIs(c, x.run.id.value, x.index);
  }

  lemma {:induction false} LastOfDistinct(runs: seq<Run>, id: string)
    requires DistinctIds(runs) && Has(runs, id)
    ensures LastWith(runs, id) == Some(runs[Position(runs, id)])
    decreases |runs|
  {
    var init, run := runs[..|runs| - 1], runs[|runs| - 1];
    assert runs == init + [run];
    PutAppends(init, run);
    if run.id != Some(id) {
      LastOfDistinct(init, id);
    }
  }
}
