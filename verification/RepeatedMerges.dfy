/** What merging the same legacy history once more does: the legacy file may survive a crash that comes after
    the merged history was written (lib/simmer_results.py). */
module RepeatedMerges {
  import opened Wrappers
  import opened Sorting
  import opened History

  predicate AllHaveIds(runs: seq<Run>) {
    forall i | 0 <= i < |runs| :: runs[i].id.Some?
  }

  /** The first and the second merge of the same legacy runs. */
  datatype Merges = Merges(legacy: seq<Run>, current: seq<Run>, max: nat) {
    function First(): seq<Run> {
      Combined(legacy + current)
    }

    function Result(): seq<Run> {
      Merged(legacy, current, max)
    }

    function Second(): seq<Run> {
      Combined(legacy + Result())
    }

    /** The number of places that the legacy ids take at the front of either merged list. */
    function Head(): nat {
      |Combined(legacy)|
    }
  }

  // ----- The shape of a merge with legacy runs that all have ids -----

  predicate Known(legacy: seq<Run>, run: Run) {
    run.id.Some? && Has(legacy, run.id.value)
  }

  /** The runs that are appended: those without an id, or with one that the legacy runs do not have. */
  function News(legacy: seq<Run>, runs: seq<Run>): seq<Run> {
    if runs == [] then []
    else
      var last := runs[|runs| - 1];
      News(legacy, runs[..|runs| - 1]) + if Known(legacy, last) then [] else [last]
  }

  lemma {:induction false} CombinedHasIds(runs: seq<Run>)
    requires AllHaveIds(runs)
    ensures AllHaveIds(Combined(runs))
    decreases |runs|
  {
    if runs != [] {
      CombinedHasIds(runs[..|runs| - 1]);
    }
  }

  lemma CombinedSnoc(all: seq<Run>, run: Run)
    ensures Combined(all + [run]) == Put(Combined(all), run)
  {
    assert (all + [run])[..|all|] == all;
  }

  /** The ids of the head never change, and no id of the head occurs behind it. */
  ghost predicate Headed(legacy: seq<Run>, c: seq<Run>) {
    && |Combined(legacy)| <= |c|
    && (forall i | 0 <= i < |Combined(legacy)| :: c[i].id == Combined(legacy)[i].id)
    && (forall i | |Combined(legacy)| <= i < |c| :: !Known(legacy, c[i]))
  }

  lemma {:induction false} HeadStays(legacy: seq<Run>, runs: seq<Run>)
    requires AllHaveIds(legacy)
    ensures Headed(legacy, Combined(legacy + runs))
    decreases |runs|
  {
    if runs == [] {
      assert legacy + runs == legacy;
    } else {
      var init, run := runs[..|runs| - 1], runs[|runs| - 1];
      assert legacy + runs == (legacy + init) + [run];
      HeadStays(legacy, init);
      CombinedSnoc(legacy + init, run);
      CombinedLaw(legacy + init);
      if run.id.Some? {
        PositionAppends(legacy, init, run.id.value);
      }
    }
  }

  /** Behind the head stand the new runs, in order. */
  lemma {:induction false} TailIsNew(legacy: seq<Run>, runs: seq<Run>)
    requires AllHaveIds(legacy) && DistinctIds(runs)
    ensures |Combined(legacy)| <= |Combined(legacy + runs)|
    ensures Combined(legacy + runs)[|Combined(legacy)|..] == News(legacy, runs)
    decreases |runs|
  {
    HeadStays(legacy, runs);
    if runs == [] {
      assert legacy + runs == legacy;
    } else {
      var init, run := runs[..|runs| - 1], runs[|runs| - 1];
      assert legacy + runs == (legacy + init) + [run];
      TailIsNew(legacy, init);
      CombinedSnoc(legacy + init, run);
      HeadStays(legacy, init);
      TailGrows(legacy, init, run);
    }
  }

  lemma NotBefore(init: seq<Run>, run: Run)
    requires DistinctIds(init + [run]) && run.id.Some?
    ensures !Has(init, run.id.value)
  {
    forall k | 0 <= k < |init|
      ensures init[k].id != run.id
    {
      assert (init + [run])[k] == init[k] && (init + [run])[|init|] == run;
    }
    PositionIs(init, run.id.value, |init|);
  }

  lemma TailGrows(legacy: seq<Run>, init: seq<Run>, run: Run)
    requires AllHaveIds(legacy) && DistinctIds(init + [run]) && Headed(legacy, Combined(legacy + init))
    ensures |Combined(legacy)| <= |Put(Combined(legacy + init), run)|
    ensures Put(Combined(legacy + init), run)[|Combined(legacy)|..] ==
              Combined(legacy + init)[|Combined(legacy)|..] + if Known(legacy, run) then [] else [run]
  {
    var c := Combined(legacy + init);
    CombinedLaw(legacy + init);
    if run.id.Some? {
      var id := run.id.value;
      PositionAppends(legacy, init, id);
      NotBefore(init, run);
      if Known(legacy, run) {
        assert Has(c, id) && Position(c, id) < |Combined(legacy)|;
      }
    }
  }

  /** A legacy id stands at the same place in both merged lists. */
  lemma HeadPosition(legacy: seq<Run>, runs: seq<Run>, id: string)
    requires AllHaveIds(legacy) && Has(legacy, id)
    ensures var c := Combined(legacy + runs);
            Has(c, id) && Position(c, id) == Position(Combined(legacy), id) < |Combined(legacy)|
  {
    var c := Combined(legacy + runs);
    HeadStays(legacy, runs);
    CombinedLaw(legacy);
    PositionIs(c, id, Position(Combined(legacy), id));
  }

  /** An entry is known exactly if it stands in the head. */
  lemma KnownIsHead(legacy: seq<Run>, runs: seq<Run>, i: nat)
    requires AllHaveIds(legacy) && i < |Combined(legacy + runs)|
    ensures Known(legacy, Combined(legacy + runs)[i]) <==> i < |Combined(legacy)|
    ensures i < |Combined(legacy)| ==> i == Position(Combined(legacy), Combined(legacy + runs)[i].id.value)
  {
    var c, l := Combined(legacy + runs), Combined(legacy);
    HeadStays(legacy, runs);
    CombinedHasIds(legacy);
    CombinedLaw(legacy);
    if i < |l| {
      PositionIs(l, l[i].id.value, i);
      assert Has(l, l[i].id.value);
    }
  }

  lemma {:induction false} NewsAt(legacy: seq<Run>, runs: seq<Run>, i: nat)
    requires i < |runs| && !Known(legacy, runs[i])
    ensures |News(legacy, runs[..i])| < |News(legacy, runs)| && News(legacy, runs)[|News(legacy, runs[..i])|] == runs[i]
    decreases |runs|
  {
    var init := runs[..|runs| - 1];
    if i < |runs| - 1 {
      assert init[..i] == runs[..i];
      NewsAt(legacy, init, i);
    }
  }

  lemma {:induction false} NewsFrom(legacy: seq<Run>, runs: seq<Run>, k: nat) returns (i: nat)
    requires k < |News(legacy, runs)|
    ensures i < |runs| && !Known(legacy, runs[i]) && |News(legacy, runs[..i])| == k
    decreases |runs|
  {
    var init := runs[..|runs| - 1];
    if k < |News(legacy, init)| {
      i := NewsFrom(legacy, init, k);
      assert init[..i] == runs[..i];
    } else {
      i := |runs| - 1;
    }
  }

  lemma NewsClimb(legacy: seq<Run>, runs: seq<Run>, i: nat, k: nat)
    requires i < k <= |runs| && !Known(legacy, runs[i])
    ensures |News(legacy, runs[..i])| < |News(legacy, runs[..k])|
  {
    assert runs[..k][..i] == runs[..i];
    NewsAt(legacy, runs[..k], i);
  }

  // ----- The result of the first merge -----

  /** The items of the first merge, sorted; the result is their tail. */
  function SortedFirst(m: Merges): seq<Item> {
    Sort(ItemLe, Enumerate(m.First()))
  }

  function Cut(m: Merges): int {
    |SortedFirst(m)| - |m.Result()|
  }

  lemma ResultTail(m: Merges)
    ensures 0 <= Cut(m) && (Cut(m) > 0 ==> |m.Result()| == m.max > 0) && Ascending(SortedFirst(m))
    ensures forall i | 0 <= i < |m.Result()| :: SortedFirst(m)[Cut(m) + i].run == m.Result()[i]
    ensures forall x :: x in SortedFirst(m) <==> x.index < |m.First()| && x.run == m.First()[x.index]
  {
    SortedItems(m.First());
    forall i | 0 <= i < |m.Result()|
      ensures SortedFirst(m)[Cut(m) + i].run == m.Result()[i]
    {
      LatestItem(m.First(), m.max, i);
    }
  }

  /** The item of a result run in the first merge. */
  function FirstItem(m: Merges, i: nat): Item
    requires i < |m.Result()| && 0 <= Cut(m)
  {
    SortedFirst(m)[Cut(m) + i]
  }

  lemma FirstItemLaw(m: Merges, i: nat)
    requires AllHaveIds(m.legacy) && i < |m.Result()|
    ensures 0 <= Cut(m)
    ensures var x := FirstItem(m, i);
            && x.index < |m.First()| && x.run == m.Result()[i] == m.First()[x.index]
            && (Known(m.legacy, x.run) <==> x.index < m.Head())
            && (x.index < m.Head() ==> x.index == Position(Combined(m.legacy), x.run.id.value))
  {
    ResultTail(m);
    assert FirstItem(m, i) in SortedFirst(m);
    KnownIsHead(m.legacy, m.current, FirstItem(m, i).index);
  }

  // ----- The result runs in the second merge -----

  function SecondIndex(m: Merges, i: nat): nat
    requires i < |m.Result()|
  {
    if Known(m.legacy, m.Result()[i]) then Position(Combined(m.legacy), m.Result()[i].id.value)
    else m.Head() + |News(m.legacy, m.Result()[..i])|
  }

  function SecondItem(m: Merges, i: nat): Item
    requires i < |m.Result()|
  {
    Item(SecondIndex(m, i), m.Result()[i])
  }

  lemma SecondAt(m: Merges, i: nat)
    requires AllHaveIds(m.legacy) && i < |m.Result()|
    ensures SecondIndex(m, i) < |m.Second()| && m.Second()[SecondIndex(m, i)] == m.Result()[i]
  {
    var r := m.Result();
    MergedLaw(m.legacy, m.current, m.max);
    if Known(m.legacy, r[i]) {
      var id := r[i].id.value;
      HeadPosition(m.legacy, r, id);
      CombinedLaw(m.legacy + r);
      LastWithAppends(m.legacy, r, id);
      PositionIs(r, id, i);
      LastOfDistinct(r, id);
    } else {
      TailIsNew(m.legacy, r);
      NewsAt(m.legacy, r, i);
      assert m.Second()[m.Head()..][|News(m.legacy, r[..i])|] == r[i];
    }
  }

  /** An entry of the second merge is a result run, or a legacy run whose id the result does not have. */
  ghost predicate IsCut(m: Merges, x: Item) {
    && x.run.id.Some? && Has(m.legacy, x.run.id.value) && !Has(m.Result(), x.run.id.value)
    && x.index == Position(Combined(m.legacy), x.run.id.value) && LastWith(m.legacy, x.run.id.value) == Some(x.run)
  }

  lemma SecondMember(m: Merges, x: Item) returns (i: nat)
    requires AllHaveIds(m.legacy) && x.index < |m.Second()| && x.run == m.Second()[x.index]
    ensures IsCut(m, x) || (i < |m.Result()| && x == SecondItem(m, i))
  {
    var r := m.Result();
    i := 0;
    MergedLaw(m.legacy, m.current, m.max);
    TailIsNew(m.legacy, r);
    if x.index >= m.Head() {
      i := NewsFrom(m.legacy, r, x.index - m.Head());
      SecondAt(m, i);
    } else {
      KnownIsHead(m.legacy, r, x.index);
      var id := x.run.id.value;
      HeadPosition(m.legacy, r, id);
      CombinedLaw(m.legacy + r);
      LastWithAppends(m.legacy, r, id);
      if Has(r, id) {
        i := Position(r, id);
        SecondAt(m, i);
      }
    }
  }

  /** The order that positions decide in the first merge they decide in the second. */
  lemma IndexKept(m: Merges, i: nat, k: nat)
    requires AllHaveIds(m.legacy) && i < k < |m.Result()| && 0 <= Cut(m)
    requires FirstItem(m, i).index < FirstItem(m, k).index
    ensures SecondIndex(m, i) < SecondIndex(m, k)
  {
    FirstItemLaw(m, i);
    FirstItemLaw(m, k);
    if !Known(m.legacy, m.Result()[i]) {
      NewsClimb(m.legacy, m.Result(), i, k);
    }
  }

  lemma ResultAscends(m: Merges, i: nat, k: nat)
    requires AllHaveIds(m.legacy) && i < k < |m.Result()|
    ensures ItemLe(SecondItem(m, i), SecondItem(m, k)) && SecondIndex(m, i) != SecondIndex(m, k)
  {
    ResultTail(m);
    FirstItemLaw(m, i);
    FirstItemLaw(m, k);
    assert ItemLe(FirstItem(m, i), FirstItem(m, k)) && FirstItem(m, i).index != FirstItem(m, k).index;
    if FirstItem(m, i).index < FirstItem(m, k).index {
      IndexKept(m, i, k);
    } else {
      SecondDiffers(m, i, k);
    }
  }

  lemma SecondDiffers(m: Merges, i: nat, k: nat)
    requires AllHaveIds(m.legacy) && i < k < |m.Result()| && 0 <= Cut(m)
    requires FirstItem(m, i).index > FirstItem(m, k).index
    ensures SecondIndex(m, i) != SecondIndex(m, k)
  {
    FirstItemLaw(m, i);
    FirstItemLaw(m, k);
    if !Known(m.legacy, m.Result()[i]) {
      NewsClimb(m.legacy, m.Result(), i, k);
    }
  }

  // ----- When what was cut off stays behind -----

  /** The item that a legacy id has once its run is gone from the merged history. */
  function LegacyItem(legacy: seq<Run>, id: string): Item
    requires LastWith(legacy, id).Some?
  {
    Item(Position(Combined(legacy), id), LastWith(legacy, id).value)
  }

  /** Whatever sorts after a legacy id in the merge still sorts after the id's own legacy version. */
  ghost predicate Survives(legacy: seq<Run>, current: seq<Run>) {
    var c := Combined(legacy + current);
    forall id, e: Item | LastWith(legacy, id).Some? && Has(c, id) && e.index < |c| && e.run == c[e.index] &&
                         e.index != Position(c, id) && ItemLe(ItemOf(c, id), e) ::
      ItemLe(LegacyItem(legacy, id), e)
  }

  /** A legacy run that the first merge cut off. */
  lemma WasCut(m: Merges, id: string) returns (j: nat)
    requires AllHaveIds(m.legacy) && Has(m.legacy, id) && !Has(m.Result(), id)
    ensures Has(m.First(), id) && j < Cut(m) && j < |SortedFirst(m)| && SortedFirst(m)[j] == ItemOf(m.First(), id)
  {
    HeadPosition(m.legacy, m.current, id);
    j := SortedIndex(m.First(), id);
    ResultTail(m);
    if j >= Cut(m) {
      TailHasId(m, j);
    }
  }

  lemma TailHasId(m: Merges, j: nat)
    requires Cut(m) <= j < |SortedFirst(m)|
    ensures SortedFirst(m)[j].run.id.Some? ==> Has(m.Result(), SortedFirst(m)[j].run.id.value)
  {
    ResultTail(m);
    assert SortedFirst(m)[Cut(m) + (j - Cut(m))].run == m.Result()[j - Cut(m)];
    if SortedFirst(m)[j].run.id.Some? {
      HasAt(m.Result(), j - Cut(m));
    }
  }

  /** An item before e by stamp or place stays before the second item of e. */
  lemma StaysBefore(m: Merges, y: Item, i: nat)
    requires AllHaveIds(m.legacy) && i < |m.Result()| && 0 <= Cut(m) && y.index < m.Head()
    ensures ItemLe(y, FirstItem(m, i)) ==> ItemLe(y, SecondItem(m, i))
    ensures !ItemLe(y, FirstItem(m, i)) ==> ItemLe(SecondItem(m, i), y)
    ensures y.index != FirstItem(m, i).index ==> y.index != SecondIndex(m, i)
  {
    FirstItemLaw(m, i);
  }

  lemma CutStaysBefore(m: Merges, x: Item, i: nat)
    requires AllHaveIds(m.legacy) && Survives(m.legacy, m.current) && IsCut(m, x) && i < |m.Result()|
    ensures ItemLe(x, SecondItem(m, i)) && x.index != SecondIndex(m, i)
  {
    var id := x.run.id.value;
    var j := WasCut(m, id);
    HeadPosition(m.legacy, m.current, id);
    ResultTail(m);
    FirstItemLaw(m, i);
    assert ItemLe(SortedFirst(m)[j], FirstItem(m, i)) && SortedFirst(m)[j].index != FirstItem(m, i).index;
    assert x == LegacyItem(m.legacy, id);
    assert ItemLe(x, FirstItem(m, i));
    StaysBefore(m, x, i);
  }

  // ----- The second merge, sorted -----

  /** The items that were cut off. */
  ghost function CutItems(m: Merges, items: seq<Item>): seq<Item> {
    if items == [] then [] else (if IsCut(m, items[0]) then [items[0]] else []) + CutItems(m, items[1..])
  }

  lemma {:induction false} CutItemsAscend(m: Merges, items: seq<Item>)
    requires Ascending(items)
    ensures Ascending(CutItems(m, items)) && forall x :: x in CutItems(m, items) <==> x in items && IsCut(m, x)
  {
    if items != [] {
      CutItemsAscend(m, items[1..]);
      assert items == [items[0]] + items[1..];
      forall i | 0 <= i < |CutItems(m, items[1..])|
        ensures ItemLe(items[0], CutItems(m, items[1..])[i]) && items[0].index != CutItems(m, items[1..])[i].index
      {
        var x := CutItems(m, items[1..])[i];
        assert x in CutItems(m, items[1..]) && x in items[1..];
        var k :| 0 <= k < |items| - 1 && items[1..][k] == x;
        assert items[k + 1] == x;
      }
    }
  }

  function SecondItems(m: Merges): seq<Item> {
    seq(|m.Result()|, i requires 0 <= i < |m.Result()| => SecondItem(m, i))
  }

  lemma PartsAscend(m: Merges, cut: seq<Item>)
    requires AllHaveIds(m.legacy) && Survives(m.legacy, m.current) && Ascending(cut) && forall x | x in cut :: IsCut(m, x)
    ensures Ascending(cut + SecondItems(m))
  {
    forall i, k | 0 <= i < k < |m.Result()|
      ensures ItemLe(SecondItem(m, i), SecondItem(m, k)) && SecondIndex(m, i) != SecondIndex(m, k)
    {
      ResultAscends(m, i, k);
    }
    forall i, k | 0 <= i < |cut| && 0 <= k < |m.Result()|
      ensures ItemLe(cut[i], SecondItem(m, k)) && cut[i].index != SecondIndex(m, k)
    {
      CutStaysBefore(m, cut[i], k);
    }
    AscendingAppends(cut, SecondItems(m));
  }

  lemma AscendingAppends(a: seq<Item>, b: seq<Item>)
    requires Ascending(a) && Ascending(b)
    requires forall i, k | 0 <= i < |a| && 0 <= k < |b| :: ItemLe(a[i], b[k]) && a[i].index != b[k].index
    ensures Ascending(a + b)
  {
  }

  lemma SecondMembers(m: Merges, z: seq<Item>, x: Item)
    requires AllHaveIds(m.legacy)
    requires x in z <==> x.index < |m.Second()| && x.run == m.Second()[x.index]
    requires x in CutItems(m, z) <==> x in z && IsCut(m, x)
    ensures x in z <==> x in CutItems(m, z) + SecondItems(m)
  {
    if x in z {
      var i := SecondMember(m, x);
      if !IsCut(m, x) {
        assert SecondItems(m)[i] == x;
      }
    }
    if x in SecondItems(m) {
      var i :| 0 <= i < |m.Result()| && SecondItems(m)[i] == x;
      SecondAt(m, i);
    }
  }

  /** The second merge sorts into what was cut off before, followed by the result. */
  lemma SecondSorted(m: Merges)
    requires AllHaveIds(m.legacy) && Survives(m.legacy, m.current)
    ensures var z := Sort(ItemLe, Enumerate(m.Second())); z == CutItems(m, z) + SecondItems(m)
  {
    var z := Sort(ItemLe, Enumerate(m.Second()));
    SortedItems(m.Second());
    CutItemsAscend(m, z);
    PartsAscend(m, CutItems(m, z));
    forall x
      ensures x in z <==> x in CutItems(m, z) + SecondItems(m)
    {
      SecondMembers(m, z, x);
    }
    AscendingIsUnique(z, CutItems(m, z) + SecondItems(m));
  }

  lemma RunsAppend(a: seq<Item>, b: seq<Item>)
    ensures Runs(a + b) == Runs(a) + Runs(b)
  {
  }

  lemma LatestAppends(cut: seq<Run>, kept: seq<Run>, max: nat)
    requires cut != [] ==> |kept| == max > 0
    requires max > 0 ==> |kept| <= max
    ensures Latest(cut + kept, max) == kept
  {
  }

  /** Something was cut off only if the result is full. */
  lemma CutWasNeeded(m: Merges, x: Item)
    requires AllHaveIds(m.legacy) && IsCut(m, x)
    ensures |m.Result()| == m.max > 0
  {
    var j := WasCut(m, x.run.id.value);
    ResultTail(m);
  }

  /** Under the condition the second merge changes nothing, for every bound. */
  lemma SurvivorsAreIdempotent(m: Merges)
    requires AllHaveIds(m.legacy) && Survives(m.legacy, m.current)
    ensures Merged(m.legacy, m.Result(), m.max) == m.Result()
  {
    var z := Sort(ItemLe, Enumerate(m.Second()));
    var cut := CutItems(m, z);
    SecondSorted(m);
    RunsAppend(cut, SecondItems(m));
    assert Runs(SecondItems(m)) == m.Result();
    MergedLaw(m.legacy, m.current, m.max);
    SortedItems(m.Second());
    CutItemsAscend(m, z);
    if cut != [] {
      assert cut[0] in cut;
      CutWasNeeded(m, cut[0]);
    }
    LatestAppends(Runs(cut), m.Result(), m.max);
  }

  // ----- Counting runs -----

  /** A run without an id is never replaced. */
  lemma {:induction false} CombinedCounts(runs: seq<Run>, x: Run)
    requires x.id.None?
    ensures multiset(Combined(runs))[x] == multiset(runs)[x] && |Combined(runs)| <= |runs|
    decreases |runs|
  {
    if runs != [] {
      CombinedCounts(runs[..|runs| - 1], x);
      assert runs == runs[..|runs| - 1] + [runs[|runs| - 1]];
    }
  }

  // ----- When the second merge changes the result -----

  /** With room for everything, a legacy run without an id is added a second time. */
  lemma AnonymousAddsUp(m: Merges, p: nat)
    requires p < |m.legacy| && m.legacy[p].id.None? && m.max > |m.legacy| + |m.First()|
    ensures Merged(m.legacy, m.Result(), m.max) != m.Result()
  {
    RoomForAll(m, m.legacy[p]);
    SecondCounts(m.legacy, m.Result(), m.legacy[p]);
    OneMore(m.legacy, m.Result(), p);
  }

  lemma RoomForAll(m: Merges, x: Run)
    requires x.id.None? && m.max > |m.legacy| + |m.First()|
    ensures Merged(m.legacy, m.Result(), m.max) == Ordered(m.Second())
  {
    SortedLength(m.First());
    CombinedCounts(m.legacy + m.Result(), x);
    SortedLength(m.Second());
  }

  lemma SecondCounts(a: seq<Run>, b: seq<Run>, x: Run)
    requires x.id.None?
    ensures multiset(Ordered(Combined(a + b)))[x] == multiset(a + b)[x]
  {
    OrderedCounts(Combined(a + b));
    CombinedCounts(a + b, x);
  }

  lemma OneMore(a: seq<Run>, b: seq<Run>, p: nat)
    requires p < |a|
    ensures multiset(a + b)[a[p]] > multiset(b)[a[p]]
  {
    assert a[p] in multiset(a);
  }

  lemma NotCounted(a: seq<Run>, b: seq<Run>, x: Run)
    requires x !in a
    ensures multiset(a + b)[x] == multiset(b)[x]
  {
    assert x !in multiset(a);
  }

  /** No run of the result stands twice in the second merge. */
  lemma KeptOnce(m: Merges, a: nat, k: nat)
    requires AllHaveIds(m.legacy) && Merged(m.legacy, m.Result(), m.max) == m.Result()
    requires k < |m.Result()| && a < |Ordered(m.Second())| - |m.Result()|
    ensures Ordered(m.Second())[a] != m.Result()[k]
  {
    var r, o := m.Result(), Ordered(m.Second());
    if r[k].id.None? {
      SecondCounts(m.legacy, r, r[k]);
      NotCounted(m.legacy, r, r[k]);
      CountedTwice(o, m.max, a);
    } else if o[a].id.Some? {
      CombinedLaw(m.legacy + r);
      LatestAt(o, m.max, k);
      TwiceInOrder(m.Second(), a, |o| - |r| + k);
    }
  }

  lemma CountedTwice(o: seq<Run>, max: nat, a: nat)
    requires a < |o| - |Latest(o, max)|
    ensures multiset(o)[o[a]] > multiset(Latest(o, max))[o[a]]
  {
    var n := |o| - |Latest(o, max)|;
    assert o == o[..n] + Latest(o, max) && o[..n][a] == o[a];
    OneMore(o[..n], Latest(o, max), a);
  }

  lemma TwiceInOrder(c: seq<Run>, a: nat, b: nat)
    requires DistinctIds(c) && a < b < |Ordered(c)| && Ordered(c)[a].id.Some?
    ensures Ordered(c)[a] != Ordered(c)[b]
  {
    SortedItems(c);
    SortedAt(c, a);
    SortedAt(c, b);
  }

  /** A legacy id that the result does not have is back in the second merge, with its legacy version. */
  lemma LegacyIsBack(m: Merges, id: string)
    requires AllHaveIds(m.legacy) && Has(m.legacy, id) && !Has(m.Result(), id)
    ensures LastWith(m.legacy, id).Some?
    ensures var y := LegacyItem(m.legacy, id); y.index < m.Head() && y.index < |m.Second()| && y.run == m.Second()[y.index]
  {
    HeadPosition(m.legacy, m.Result(), id);
    CombinedLaw(m.legacy + m.Result());
    LastWithAppends(m.legacy, m.Result(), id);
  }

  /** Whatever sorts after a kept run in the second merge is kept, if that changed nothing. */
  lemma LaterIsKept(m: Merges, y: Item, k: nat)
    requires AllHaveIds(m.legacy) && y.index < |m.Second()| && y.run == m.Second()[y.index] && k < |m.Result()|
    requires ItemLe(SecondItem(m, k), y) && SecondIndex(m, k) != y.index
    requires Merged(m.legacy, m.Result(), m.max) == m.Result()
    ensures y.run in m.Result()
  {
    SecondAt(m, k);
    var a, b := OrderedPair(m.Second(), SecondItem(m, k), y);
    if b < |Ordered(m.Second())| - |m.Result()| {
      KeptOnce(m, a, k);
    } else {
      TailMember(Ordered(m.Second()), m.max, b);
    }
  }

  lemma OrderedPair(c: seq<Run>, x: Item, y: Item) returns (a: nat, b: nat)
    requires x.index < |c| && x.run == c[x.index] && y.index < |c| && y.run == c[y.index]
    requires x.index != y.index && ItemLe(x, y)
    ensures a < b < |Ordered(c)| && Ordered(c)[a] == x.run && Ordered(c)[b] == y.run
  {
    a, b := SortedPair(c, x, y);
  }

  lemma TailMember(o: seq<Run>, max: nat, b: nat)
    requires |o| - |Latest(o, max)| <= b < |o|
    ensures o[b] in Latest(o, max)
  {
    LatestAt(o, max, b - (|o| - |Latest(o, max)|));
  }

  lemma SortedPair(c: seq<Run>, x: Item, y: Item) returns (a: nat, b: nat)
    requires x.index < |c| && x.run == c[x.index] && y.index < |c| && y.run == c[y.index]
    requires x.index != y.index && ItemLe(x, y)
    ensures var s := Sort(ItemLe, Enumerate(c)); a < b < |s| && s[a] == x && s[b] == y
  {
    var s := Sort(ItemLe, Enumerate(c));
    SortedItems(c);
    assert x in s && y in s;
    a :| 0 <= a < |s| && s[a] == x;
    b :| 0 <= b < |s| && s[b] == y;
    assert a > b ==> ItemLe(s[b], s[a]);
  }

  /** With the bound that makes item k of the sorted first merge the first that is kept, no id of an item
      before it is kept. */
  lemma FirstKept(m: Merges, j: nat, k: nat)
    requires j < k < |SortedFirst(m)| && m.max == |SortedFirst(m)| - k
    ensures Cut(m) == k && |m.Result()| == m.max && FirstItem(m, 0) == SortedFirst(m)[k]
    ensures SortedFirst(m)[j].run.id.Some? ==> !Has(m.Result(), SortedFirst(m)[j].run.id.value)
  {
    SortedLength(m.First());
    if SortedFirst(m)[j].run.id.Some? {
      var id := SortedFirst(m)[j].run.id.value;
      CombinedLaw(m.legacy + m.current);
      ResultTail(m);
      forall i | 0 <= i < |m.Result()|
        ensures m.Result()[i].id != Some(id)
      {
        assert SortedFirst(m)[Cut(m) + i].run == m.Result()[i];
        TwiceById(m.First(), j, k + i);
      }
      PositionIs(m.Result(), id, |m.Result()|);
    }
  }

  lemma TwiceById(c: seq<Run>, a: nat, b: nat)
    requires DistinctIds(c) && a < b < |Sort(ItemLe, Enumerate(c))|
    ensures var s := Sort(ItemLe, Enumerate(c)); s[a].run.id.Some? ==> s[a].run.id != s[b].run.id
  {
    SortedItems(c);
    SortedAt(c, a);
    SortedAt(c, b);
  }

  lemma HasRun(runs: seq<Run>, run: Run)
    requires run in runs
    ensures run.id.Some? ==> Has(runs, run.id.value)
  {
    var i :| 0 <= i < |runs| && runs[i] == run;
    if run.id.Some? {
      HasAt(runs, i);
    }
  }

  /** Where the condition fails there is a bound for which the legacy version comes back. */
  lemma LaterVersionReturns(legacy: seq<Run>, current: seq<Run>, id: string, e: Item) returns (max: nat)
    requires AllHaveIds(legacy) && LastWith(legacy, id).Some? && Has(Combined(legacy + current), id)
    requires var c := Combined(legacy + current);
             e.index < |c| && e.run == c[e.index] && e.index != Position(c, id) && ItemLe(ItemOf(c, id), e)
    requires !ItemLe(LegacyItem(legacy, id), e)
    ensures max > 0 && Merged(legacy, Merged(legacy, current, max), max) != Merged(legacy, current, max)
  {
    var c := Combined(legacy + current);
    var j, k := SortedPair(c, ItemOf(c, id), e);
    max := |Sort(ItemLe, Enumerate(c))| - k;
    var m := Merges(legacy, current, max);
    FirstKept(m, j, k);
    LastWithIn(legacy, id);
    LegacyIsBack(m, id);
    HeadPosition(legacy, current, id);
    var y := LegacyItem(legacy, id);
    StaysBefore(m, y, 0);
    if Merged(legacy, m.Result(), max) == m.Result() {
      LaterIsKept(m, y, 0);
      HasRun(m.Result(), y.run);
    }
  }

  ghost predicate Idempotent(legacy: seq<Run>, current: seq<Run>, max: nat) {
    Merged(legacy, Merged(legacy, current, max), max) == Merged(legacy, current, max)
  }

  /** Merging twice gives the same as merging once, for every bound, exactly if every legacy run has an id and
      whatever sorts after a legacy id's run also sorts after its legacy version. */
  lemma MergeIsIdempotentIff(legacy: seq<Run>, current: seq<Run>)
    ensures (forall max: nat :: Idempotent(legacy, current, max)) <==> AllHaveIds(legacy) && Survives(legacy, current)
    ensures (forall max: nat | max > 0 :: Idempotent(legacy, current, max)) <==>
            AllHaveIds(legacy) && Survives(legacy, current)
  {
    if AllHaveIds(legacy) && Survives(legacy, current) {
      forall max: nat
        ensures Idempotent(legacy, current, max)
      {
        SurvivorsAreIdempotent(Merges(legacy, current, max));
      }
    } else {
      var max := SomeBoundChanges(legacy, current);
      assert !Idempotent(legacy, current, max);
    }
  }

  lemma SomeBoundChanges(legacy: seq<Run>, current: seq<Run>) returns (max: nat)
    requires !(AllHaveIds(legacy) && Survives(legacy, current))
    ensures max > 0 && !Idempotent(legacy, current, max)
  {
    var c := Combined(legacy + current);
    if !AllHaveIds(legacy) {
      var p :| 0 <= p < |legacy| && legacy[p].id.None?;
      max := |legacy| + |c| + 1;
      AnonymousAddsUp(Merges(legacy, current, max), p);
    } else {
      var id, e: Item :| LastWith(legacy, id).Some? && Has(c, id) && e.index < |c| && e.run == c[e.index] &&
                         e.index != Position(c, id) && ItemLe(ItemOf(c, id), e) && !ItemLe(LegacyItem(legacy, id), e);
      max := LaterVersionReturns(legacy, current, id, e);
    }
  }

  // ----- What the condition means for the files -----

  /** No run that both files have is stamped later in the legacy file. */
  ghost predicate LegacyNotLater(legacy: seq<Run>, current: seq<Run>) {
    forall id | LastWith(legacy, id).Some? && LastWith(current, id).Some? ::
      LastWith(legacy, id).value.stamp <= LastWith(current, id).value.stamp
  }

  /** Legacy runs with ids that are not stamped later than the current ones merge once and for all. */
  lemma MergeIsIdempotent(legacy: seq<Run>, current: seq<Run>, max: nat)
    requires AllHaveIds(legacy) && LegacyNotLater(legacy, current)
    ensures Idempotent(legacy, current, max)
  {
    var c := Combined(legacy + current);
    forall id, e: Item | LastWith(legacy, id).Some? && Has(c, id) && e.index < |c| && e.run == c[e.index] &&
                         e.index != Position(c, id) && ItemLe(ItemOf(c, id), e)
      ensures ItemLe(LegacyItem(legacy, id), e)
    {
      LastWithIn(legacy, id);
      LastWithIn(current, id);
      HeadPosition(legacy, current, id);
      CombinedLaw(legacy + current);
      LastWithAppends(legacy, current, id);
    }
    MergeIsIdempotentIff(legacy, current);
  }

  /** A legacy run without an id is added again, for every bound that leaves room for two runs. */
  lemma RunsWithoutIdsAreRepeated(max: nat)
    requires max == 0 || max >= 2
    ensures !Idempotent([Run(None, 1, 7)], [], max)
  {
    AddedTwice(Run(None, 1, 7), max);
  }

  lemma AddedTwice(x: Run, max: nat)
    requires x.id.None? && (max == 0 || max >= 2)
    ensures Merged([x], [], max) == [x] && Merged([x], [x], max) == [x] + [x]
  {
    TwiceCombined(x);
    assert [x] + [] == [x];
    MergedWhole([x], [], max);
    MergedWhole([x], [x], max);
  }

  lemma MergedWhole(legacy: seq<Run>, current: seq<Run>, max: nat)
    requires max == 0 || |legacy + current| <= max
    requires Combined(legacy + current) == legacy + current
    requires forall i, k | 0 <= i < k < |legacy + current| :: (legacy + current)[i].stamp <= (legacy + current)[k].stamp
    ensures Merged(legacy, current, max) == legacy + current
  {
    OrderedFixes(legacy + current);
  }

  lemma TwiceCombined(x: Run)
    requires x.id.None?
    ensures Combined([x]) == [x] && Combined([x] + [x]) == [x] + [x]
  {
    CombinedSnoc([], x);
    CombinedSnoc([x], x);
    assert [] + [x] == [x];
  }

  lemma OrderedFixes(c: seq<Run>)
    requires forall i, k | 0 <= i < k < |c| :: c[i].stamp <= c[k].stamp
    ensures Ordered(c) == c
  {
    ItemLeTotal();
    SortFixes(ItemLe, Enumerate(c));
    assert Runs(Enumerate(c)) == c;
  }

  lemma {:induction false} CombinedAppendsNew(a: seq<Run>, b: seq<Run>)
    requires DistinctIds(Combined(a) + b)
    ensures Combined(a + b) == Combined(a) + b
    decreases |b|
  {
    if b == [] {
      assert a + b == a;
    } else {
      var init, run := b[..|b| - 1], b[|b| - 1];
      assert a + b == (a + init) + [run] && Combined(a) + b == (Combined(a) + init) + [run];
      DistinctBefore(Combined(a) + init, run);
      CombinedAppendsNew(a, init);
      CombinedSnoc(a + init, run);
      if run.id.Some? {
        NotBefore(Combined(a) + init, run);
      }
    }
  }

  lemma DistinctBefore(init: seq<Run>, run: Run)
    requires DistinctIds(init + [run])
    ensures DistinctIds(init)
  {
    var all := init + [run];
    assert forall i | 0 <= i < |init| :: init[i] == all[i];
  }

  /** Runs with ids of their own and rising stamps. */
  function Fillers(n: nat): seq<Run> {
    seq(n, i requires 0 <= i < n => Run(Some(seq(i + 1, _ => 'b')), i + 2, 0))
  }

  lemma FillersAreNew(run: Run, n: nat)
    requires run.id == Some("a")
    ensures DistinctIds([run] + Fillers(n))
  {
    var f := [run] + Fillers(n);
    forall i, k | 0 <= i < k < |f|
      ensures f[i].id != f[k].id
    {
      assert f[k].id.value[0] == 'b' && |f[k].id.value| == k;
      if i > 0 {
        assert |f[i].id.value| == i;
      }
    }
  }

  /** With a legacy stamp that is later than the current one, for every positive bound: the first merge drops
      the run because its current stamp is the oldest, the second brings its legacy version back. */
  lemma LaterLegacyStampsComeBack(max: nat)
    requires max > 0
    ensures !Idempotent([Run(Some("a"), max + 5, 7)], [Run(Some("a"), 1, 7)] + Fillers(max), max)
  {
    var was, a, f := Run(Some("a"), max + 5, 7), Run(Some("a"), 1, 7), Fillers(max);
    ReplacedOnce(was, a);
    assert [was] + ([a] + f) == ([was] + [a]) + f;
    FillersAreNew(a, max);
    CombinedAppendsNew([was] + [a], f);
    OldestIsDropped(a, max);
    OldComesBack(was, max);
  }

  lemma ReplacedOnce(was: Run, run: Run)
    requires was.id.Some? && was.id == run.id
    ensures Combined([was] + [run]) == [run]
  {
    CombinedSnoc([], was);
    CombinedSnoc([was], run);
    assert [] + [was] == [was];
    PositionIs([was], run.id.value, 0);
    assert [was][0 := run] == [run];
  }

  lemma OldestIsDropped(a: Run, max: nat)
    requires a.stamp == 1 && max > 0
    ensures Latest(Ordered([a] + Fillers(max)), max) == Fillers(max)
  {
    OrderedFixes([a] + Fillers(max));
  }

  lemma OldComesBack(was: Run, max: nat)
    requires was == Run(Some("a"), max + 5, 7) && max > 0
    ensures Merged([was], Fillers(max), max) != Fillers(max)
  {
    var f := Fillers(max);
    PositionIs([was] + f, "a", 0);
    FillersAreNew(was, max);
    LastWithAppends([was], f, "a");
    LastWithIn([was] + f, "a");
    NoFiller(max);
    assert LastWith([was], "a") == Some(was) && f[0].stamp == 2;
    if Merged([was], f, max) == f {
      TruncationKeepsLatest([was], f, max, "a", 0);
    }
  }

  lemma NoFiller(n: nat)
    ensures !Has(Fillers(n), "a")
  {
    forall k | 0 <= k < n
      ensures Fillers(n)[k].id != Some("a")
    {
      assert Fillers(n)[k].id.value[0] == 'b';
    }
    PositionIs(Fillers(n), "a", n);
  }
}
