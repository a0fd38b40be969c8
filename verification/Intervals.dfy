/** Time covered by overlapping intervals: the sweep over elapsed times in lib/simmer_results.py and the one
    over Bazel events in lib/bazel_profile.py, both proved to compute the measure of the union. */
module Intervals {
  import opened Wrappers
  import opened Sorting

  /** The time from `from` up to, not including, `to`. */
  datatype Span = Span(from: real, to: real)

  ghost predicate Covers(spans: seq<Span>, x: real) {
    exists i :: 0 <= i < |spans| && spans[i].from <= x < spans[i].to
  }

  ghost predicate SameCover(a: seq<Span>, b: seq<Span>) {
    forall x: real :: Covers(a, x) <==> Covers(b, x)
  }

  /** Spans that are not empty, in order, with a gap between any two. */
  ghost predicate Normal(spans: seq<Span>) {
    && (forall i | 0 <= i < |spans| :: spans[i].from < spans[i].to)
    && (forall i, k | 0 <= i < k < |spans| :: spans[i].to < spans[k].from)
  }

  function Total(spans: seq<Span>): real {
    if spans == [] then 0.0 else spans[0].to - spans[0].from + Total(spans[1..])
  }

  /** The measure of a union: the total length of the separate spans that cover the same points. */
  ghost predicate IsMeasure(spans: seq<Span>, m: real) {
    exists n :: Normal(n) && SameCover(n, spans) && Total(n) == m
  }

  /** A point covered by a normal list lies in the head or in the tail, and no tail point lies before it. */
  lemma NormalHead(a: seq<Span>, x: real)
    requires Normal(a) && a != []
    ensures Covers(a, x) <==> a[0].from <= x < a[0].to || Covers(a[1..], x)
    ensures Covers(a[1..], x) ==> x > a[0].to
    ensures Covers(a, x) ==> a[0].from <= x
    ensures Covers(a, a[0].from) && !Covers(a, a[0].to)
  {
    if Covers(a[1..], x) {
      var i :| 0 <= i < |a| - 1 && a[1..][i].from <= x < a[1..][i].to;
      assert a[i + 1] == a[1..][i];
    }
    if Covers(a, x) && !(a[0].from <= x < a[0].to) {
      var i :| 0 <= i < |a| && a[i].from <= x < a[i].to;
      assert a[1..][i - 1] == a[i];
    }
  }

  /** There is only one normal list for a set of points. */
  lemma {:induction false} NormalIsUnique(a: seq<Span>, b: seq<Span>)
    requires Normal(a) && Normal(b) && SameCover(a, b)
    ensures a == b
    decreases |a|
  {
    if a == [] || b == [] {
      if a != [] {
        NormalHead(a, a[0].from);
      }
      if b != [] {
        NormalHead(b, b[0].from);
      }
    } else {
      SameHead(a, b);
      forall x: real
        ensures Covers(a[1..], x) <==> Covers(b[1..], x)
      {
        NormalHead(a, x);
        NormalHead(b, x);
        assert Covers(a, x) <==> Covers(b, x);
      }
      NormalIsUnique(a[1..], b[1..]);
      assert a == [a[0]] + a[1..] && b == [b[0]] + b[1..];
    }
  }

  lemma SameHead(a: seq<Span>, b: seq<Span>)
    requires Normal(a) && Normal(b) && SameCover(a, b) && a != [] && b != []
    ensures a[0] == b[0]
  {
    NormalHead(a, b[0].from);
    NormalHead(b, a[0].from);
    assert Covers(a, b[0].from) <==> Covers(b, b[0].from);
    assert Covers(a, a[0].from) <==> Covers(b, a[0].from);
    NormalHead(a, b[0].to);
    NormalHead(b, a[0].to);
    assert Covers(a, b[0].to) <==> Covers(b, b[0].to);
    assert Covers(a, a[0].to) <==> Covers(b, a[0].to);
  }

  lemma MeasureIsUnique(a: seq<Span>, b: seq<Span>, m: real, k: real)
    requires SameCover(a, b) && IsMeasure(a, m) && IsMeasure(b, k)
    ensures m == k
  {
    var n :| Normal(n) && SameCover(n, a) && Total(n) == m;
    var l :| Normal(l) && SameCover(l, b) && Total(l) == k;
    forall x: real
      ensures Covers(n, x) <==> Covers(l, x)
    {
      assert Covers(n, x) <==> Covers(a, x);
      assert Covers(a, x) <==> Covers(b, x);
    }
    NormalIsUnique(n, l);
  }

  /** Order and repetition do not matter to what is covered. */
  lemma SameMembersSameCover(a: seq<Span>, b: seq<Span>)
    requires forall s :: s in a <==> s in b
    ensures SameCover(a, b)
  {
    forall x: real
      ensures Covers(a, x) <==> Covers(b, x)
    {
      CoverByMember(a, b, x);
      CoverByMember(b, a, x);
    }
  }

  lemma CoverByMember(a: seq<Span>, b: seq<Span>, x: real)
    requires forall s :: s in a ==> s in b
    ensures Covers(a, x) ==> Covers(b, x)
  {
    if Covers(a, x) {
      var i :| 0 <= i < |a| && a[i].from <= x < a[i].to;
      assert a[i] in b;
      var k :| 0 <= k < |b| && b[k] == a[i];
    }
  }

  // ----- Merging sorted spans -----

  /** Tuples compare by start, then by stop. */
  predicate Earlier(a: Span, b: Span) {
    a.from < b.from || (a.from == b.from && a.to <= b.to)
  }

  lemma EarlierTotal()
    ensures TotalOrder(Earlier)
  {
  }

  predicate Forward(spans: seq<Span>) {
    forall i | 0 <= i < |spans| :: spans[i].from <= spans[i].to
  }

  function Kept(s: Span): seq<Span> {
    if s.from < s.to then [s] else []
  }

  /** The spans of a sorted list, overlapping and touching ones joined; `open` is the one being extended. */
  function Merge(open: Span, rest: seq<Span>): seq<Span>
    decreases |rest|
  {
    if rest == [] then Kept(open)
    else if rest[0].from <= open.to then
      Merge(Span(open.from, if rest[0].to > open.to then rest[0].to else open.to), rest[1..])
    else Kept(open) + Merge(rest[0], rest[1..])
  }

  ghost predicate Ahead(open: Span, rest: seq<Span>) {
    open.from <= open.to && Forward(rest) && Sorted(Earlier, rest) && forall i | 0 <= i < |rest| :: open.from <= rest[i].from
  }

  lemma AheadOfRest(open: Span, rest: seq<Span>)
    requires Ahead(open, rest) && rest != []
    ensures Ahead(rest[0], rest[1..])
    ensures rest[0].from <= open.to ==> Ahead(Span(open.from, if rest[0].to > open.to then rest[0].to else open.to), rest[1..])
  {
  }

  lemma {:induction false} MergeIsNormal(open: Span, rest: seq<Span>)
    requires Ahead(open, rest)
    ensures Normal(Merge(open, rest)) && forall i | 0 <= i < |Merge(open, rest)| :: open.from <= Merge(open, rest)[i].from
    decreases |rest|
  {
    if rest != [] {
      AheadOfRest(open, rest);
      if rest[0].from <= open.to {
        MergeIsNormal(Span(open.from, if rest[0].to > open.to then rest[0].to else open.to), rest[1..]);
      } else {
        MergeIsNormal(rest[0], rest[1..]);
      }
    }
  }

  ghost predicate In(s: Span, x: real) {
    s.from <= x < s.to
  }

  lemma CoversParts(a: seq<Span>, b: seq<Span>, x: real)
    ensures Covers(a + b, x) <==> Covers(a, x) || Covers(b, x)
  {
    if Covers(a, x) {
      var i :| 0 <= i < |a| && a[i].from <= x < a[i].to;
      assert (a + b)[i] == a[i];
    }
    if Covers(b, x) {
      var i :| 0 <= i < |b| && b[i].from <= x < b[i].to;
      assert (a + b)[|a| + i] == b[i];
    }
  }

  lemma CoversOne(s: Span, x: real)
    ensures Covers([s], x) <==> In(s, x)
    ensures Covers(Kept(s), x) <==> In(s, x)
  {
    assert [s][0] == s;
  }

  lemma {:induction false} MergeCovers(open: Span, rest: seq<Span>, x: real)
    requires Ahead(open, rest)
    ensures Covers(Merge(open, rest), x) <==> In(open, x) || Covers(rest, x)
    decreases |rest|
  {
    CoversOne(open, x);
    if rest != [] {
      AheadOfRest(open, rest);
      assert rest == [rest[0]] + rest[1..];
      CoversParts([rest[0]], rest[1..], x);
      CoversOne(rest[0], x);
      assert open.from <= rest[0].from && rest[0].from <= rest[0].to;
      if rest[0].from <= open.to {
        MergeCovers(Span(open.from, if rest[0].to > open.to then rest[0].to else open.to), rest[1..], x);
      } else {
        MergeCovers(rest[0], rest[1..], x);
        CoversParts(Kept(open), Merge(rest[0], rest[1..]), x);
      }
    }
  }

  lemma TotalAppends(a: Span, rest: seq<Span>)
    ensures Total(Kept(a) + rest) == (if a.from < a.to then a.to - a.from else 0.0) + Total(rest)
  {
    if a.from < a.to {
      assert ([a] + rest)[1..] == rest;
    } else {
      assert [] + rest == rest;
    }
  }

  lemma MeasureMoves(a: seq<Span>, b: seq<Span>, m: real)
    requires SameCover(a, b) && IsMeasure(a, m)
    ensures IsMeasure(b, m)
  {
    var n :| Normal(n) && SameCover(n, a) && Total(n) == m;
    forall x: real
      ensures Covers(n, x) <==> Covers(b, x)
    {
      assert Covers(n, x) <==> Covers(a, x);
      assert Covers(a, x) <==> Covers(b, x);
    }
    assert SameCover(n, b);
  }

  /** Merging a sorted list gives the measure of its union. */
  lemma MergeMeasures(s: seq<Span>)
    requires s != [] && Ahead(s[0], s[1..])
    ensures IsMeasure(s, Total(Merge(s[0], s[1..])))
  {
    MergeIsNormal(s[0], s[1..]);
    forall x: real
      ensures Covers(Merge(s[0], s[1..]), x) <==> Covers(s, x)
    {
      MergeCovers(s[0], s[1..], x);
      CoversOne(s[0], x);
      CoversParts([s[0]], s[1..], x);
      assert s == [s[0]] + s[1..];
    }
    assert SameCover(Merge(s[0], s[1..]), s);
  }

  lemma SortedAhead(spans: seq<Span>)
    requires spans != [] && Forward(spans)
    ensures var s := Sort(Earlier, spans);
            s != [] && Ahead(s[0], s[1..]) && (forall x :: x in s <==> x in spans)
  {
    EarlierTotal();
    SortLaw(Earlier, spans);
    SortMembers(Earlier, spans);
    var s := Sort(Earlier, spans);
    forall i | 0 <= i < |s|
      ensures s[i].from <= s[i].to
    {
      assert s[i] in spans;
    }
  }

  lemma NothingMeasured()
    ensures IsMeasure([], 0.0)
  {
    assert Normal([]) && SameCover([], []) && Total([]) == 0.0;
  }

  // ----- Elapsed time of a run's records -----

  /** The value under a record's interval key: it may be missing or not two finite numbers. */
  datatype Slot = Missing | Malformed | Times(start: real, stop: real)

  /** The intervals that count, in record order. */
  function Valid(slots: seq<Slot>): seq<Span> {
    if slots == [] then []
    else
      var last := slots[|slots| - 1];
      Valid(slots[..|slots| - 1]) + if last.Times? && last.stop >= last.start then [Span(last.start, last.stop)] else []
  }

  lemma {:induction false} ValidIsForward(slots: seq<Slot>)
    ensures Forward(Valid(slots))
  {
    if slots != [] {
      ValidIsForward(slots[..|slots| - 1]);
    }
  }

  /** What counts as elapsed: the times from start to stop of every interval that does not run backwards. */
  lemma {:induction false} ValidCovers(slots: seq<Slot>, x: real)
    ensures Covers(Valid(slots), x) <==> exists i :: 0 <= i < |slots| && Spans(slots[i], x)
    decreases |slots|
  {
    if slots != [] {
      var init, last := slots[..|slots| - 1], slots[|slots| - 1];
      ValidCovers(init, x);
      assert forall i | 0 <= i < |init| :: init[i] == slots[i];
      CoversParts(Valid(init), if Counts(last) then [Span(last.start, last.stop)] else [], x);
      if Counts(last) {
        CoversOne(Span(last.start, last.stop), x);
      }
    }
  }

  predicate Spans(slot: Slot, x: real) {
    slot.Times? && slot.start <= x < slot.stop
  }

  /** An interval counts exactly if it does not run backwards, also where it is empty. */
  predicate Counts(slot: Slot) {
    slot.Times? && slot.start <= slot.stop
  }

  lemma {:induction false} NothingValid(slots: seq<Slot>)
    ensures Valid(slots) == [] <==> forall i | 0 <= i < |slots| :: !Counts(slots[i])
    decreases |slots|
  {
    if slots != [] {
      NothingValid(slots[..|slots| - 1]);
    }
  }

  /** What the sweep makes of intervals in any order. */
  function ElapsedOf(spans: seq<Span>): real {
    var s := Sort(Earlier, spans);
    if s == [] then 0.0 else Total(Merge(s[0], s[1..]))
  }

  /** _consume_elapsed_time, before rounding: every interval key is popped, and the result is the measure of
      the union of the valid intervals. */
  method ConsumeElapsedTime(records: array<Slot>) returns (elapsed: Option<real>)
    modifies records
    ensures forall i | 0 <= i < records.Length :: records[i] == Missing
    ensures elapsed.None? <==> forall i | 0 <= i < records.Length :: !Counts(old(records[i]))
    ensures elapsed.Some? ==> IsMeasure(Valid(old(records[..])), elapsed.value)
  {
    var intervals := PopIntervals(records);
    NothingValid(old(records[..]));
    assert forall i | 0 <= i < records.Length :: old(records[..])[i] == old(records[i]);
    if intervals == [] {
      return None;
    }
    ValidIsForward(old(records[..]));
    SortedAhead(intervals);
    MergeMeasures(Sort(Earlier, intervals));
    SameMembersSameCover(Sort(Earlier, intervals), intervals);
    MeasureMoves(Sort(Earlier, intervals), intervals, ElapsedOf(intervals));
    var sum := SweepElapsed(Sort(Earlier, intervals));
    elapsed := Some(sum);
  }

  method PopIntervals(records: array<Slot>) returns (intervals: seq<Span>)
    modifies records
    ensures forall i | 0 <= i < records.Length :: records[i] == Missing
    ensures intervals == Valid(old(records[..]))
  {
    intervals := [];
    ghost var before := records[..];
    var i := 0;
    while i < records.Length
      invariant 0 <= i <= records.Length && intervals == Valid(before[..i])
      invariant forall k | 0 <= k < i :: records[k] == Missing
      invariant forall k | i <= k < records.Length :: records[k] == before[k]
    {
      assert before[..i + 1][..i] == before[..i];
      var slot := records[i];
      records[i] := Missing;
      if slot.Times? && slot.stop >= slot.start {
        intervals := intervals + [Span(slot.start, slot.stop)];
      }
      i := i + 1;
    }
    assert before[..i] == before;
  }

  /** The sweep: extend the current interval, or add its length and start the next. */
  method SweepElapsed(intervals: seq<Span>) returns (elapsed: real)
    requires intervals != [] && Ahead(intervals[0], intervals[1..])
    ensures elapsed == Total(Merge(intervals[0], intervals[1..]))
  {
    elapsed := 0.0;
    var current := intervals[0];
    var i := 1;
    while i < |intervals|
      invariant 1 <= i <= |intervals| && Ahead(current, intervals[i..])
      invariant elapsed + Total(Merge(current, intervals[i..])) == Total(Merge(intervals[0], intervals[1..]))
    {
      var next := intervals[i];
      AheadOfRest(current, intervals[i..]);
      assert intervals[i..][1..] == intervals[i + 1..];
      if next.from <= current.to {
        current := Span(current.from, if next.to > current.to then next.to else current.to);
      } else {
        MergeCloses(current, intervals[i..]);
        elapsed := elapsed + (current.to - current.from);
        current := next;
      }
      i := i + 1;
    }
    assert intervals[i..] == [];
    MergeCloses(current, []);
    elapsed := elapsed + (current.to - current.from);
  }

  /** Where the next span does not touch the open one, its length is final. */
  lemma MergeCloses(open: Span, rest: seq<Span>)
    requires Ahead(open, rest) && (rest != [] ==> rest[0].from > open.to)
    ensures Total(Merge(open, rest)) == open.to - open.from + if rest == [] then 0.0 else Total(Merge(rest[0], rest[1..]))
  {
    if rest == [] {
      TotalAppends(open, []);
      assert Kept(open) + [] == Kept(open);
    } else {
      TotalAppends(open, Merge(rest[0], rest[1..]));
    }
  }

  // ----- Bazel repository timings -----

  /** A repository event: positioned if it has a timestamp. Times are in microseconds. */
  datatype Event = Event(repository: string, timestamp: Option<real>, duration: real)

  function SpansOf(events: seq<Event>, repository: string): seq<Span> {
    if events == [] then []
    else
      var last := events[|events| - 1];
      SpansOf(events[..|events| - 1], repository)
        + if last.repository == repository && last.timestamp.Some?
          then [Span(last.timestamp.value, last.timestamp.value + last.duration)] else []
  }

  function UnpositionedOf(events: seq<Event>, repository: string): real {
    if events == [] then 0.0
    else
      var last := events[|events| - 1];
      UnpositionedOf(events[..|events| - 1], repository)
        + if last.repository == repository && last.timestamp.None? then last.duration else 0.0
  }

  function CountOf(events: seq<Event>, repository: string): nat {
    if events == [] then 0
    else CountOf(events[..|events| - 1], repository) + if events[|events| - 1].repository == repository then 1 else 0
  }

  lemma {:induction false} PositiveIsForward(events: seq<Event>, repository: string)
    requires forall e | e in events && e.repository == repository && e.timestamp.Some? :: e.duration > 0.0
    ensures Forward(SpansOf(events, repository))
  {
    if events != [] {
      PositiveIsForward(events[..|events| - 1], repository);
      assert events[|events| - 1] in events;
    }
  }

  datatype Totals = Totals(intervals: seq<Span>, unpositioned: real, count: nat)

  datatype Row = Row(seconds: real, repository: string, count: nat)

  function TotalsOf(events: seq<Event>, repository: string): Totals {
    Totals(SpansOf(events, repository), UnpositionedOf(events, repository), CountOf(events, repository))
  }

  function Grown(t: Totals, e: Event): Totals {
    if e.timestamp.Some?
    then t.(intervals := t.intervals + [Span(e.timestamp.value, e.timestamp.value + e.duration)], count := t.count + 1)
    else t.(unpositioned := t.unpositioned + e.duration, count := t.count + 1)
  }

  lemma OneMoreEvent(events: seq<Event>, e: Event, repository: string)
    ensures TotalsOf(events + [e], repository) ==
              if e.repository == repository then Grown(TotalsOf(events, repository), e) else TotalsOf(events, repository)
  {
    assert (events + [e])[..|events|] == events;
  }

  /** The parts of the event list add up. */
  lemma {:induction false} TotalsAppend(a: seq<Event>, b: seq<Event>, repository: string)
    ensures SpansOf(a + b, repository) == SpansOf(a, repository) + SpansOf(b, repository)
    ensures UnpositionedOf(a + b, repository) == UnpositionedOf(a, repository) + UnpositionedOf(b, repository)
    ensures CountOf(a + b, repository) == CountOf(a, repository) + CountOf(b, repository)
    decreases |b|
  {
    if b == [] {
      assert a + b == a;
    } else {
      assert (a + b)[..|a + b| - 1] == a + b[..|b| - 1];
      TotalsAppend(a, b[..|b| - 1], repository);
    }
  }

  /** One event is counted for its own repository only, and adds either an interval from its start to its end or its
      duration. */
  lemma OneEvent(e: Event, repository: string)
    ensures e.repository != repository ==>
              SpansOf([e], repository) == [] && UnpositionedOf([e], repository) == 0.0 && CountOf([e], repository) == 0
    ensures e.repository == repository ==> CountOf([e], repository) == 1
    ensures e.repository == repository && e.timestamp.Some? ==>
              SpansOf([e], repository) == [Span(e.timestamp.value, e.timestamp.value + e.duration)]
              && UnpositionedOf([e], repository) == 0.0
    ensures e.repository == repository && e.timestamp.None? ==>
              SpansOf([e], repository) == [] && UnpositionedOf([e], repository) == e.duration
  {
    assert [e][..0] == [];
  }

  /** The totals so far: an entry for each repository that has an event. */
  ghost predicate Totalled(events: seq<Event>, totals: map<string, Totals>) {
    forall r :: if r in totals then totals[r] == TotalsOf(events, r) && totals[r].count > 0
                else TotalsOf(events, r) == Totals([], 0.0, 0)
  }

  /** The repositories in the order in which they first occur: a dictionary keeps it. */
  ghost predicate Listed(totals: map<string, Totals>, names: seq<string>) {
    && (forall r :: r in names <==> r in totals)
    && (forall i, k | 0 <= i < k < |names| :: names[i] != names[k])
  }

  /** The accumulating loop of repository_timings. */
  method Accumulate(events: seq<Event>) returns (totals: map<string, Totals>, names: seq<string>)
    ensures Totalled(events, totals) && Listed(totals, names)
  {
    totals, names := map[], [];
    var i := 0;
    while i < |events|
      invariant 0 <= i <= |events| && Totalled(events[..i], totals) && Listed(totals, names)
    {
      var e := events[i];
      var t := if e.repository in totals then totals[e.repository] else Totals([], 0.0, 0);
      GrownTotals(events[..i], totals, e);
      assert events[..i + 1] == events[..i] + [e];
      if e.repository !in totals {
        names := names + [e.repository];
      }
      totals := totals[e.repository := Grown(t, e)];
      i := i + 1;
    }
    assert events[..i] == events;
  }

  lemma GrownTotals(events: seq<Event>, totals: map<string, Totals>, e: Event)
    requires Totalled(events, totals)
    ensures var t := if e.repository in totals then totals[e.repository] else Totals([], 0.0, 0);
            Totalled(events + [e], totals[e.repository := Grown(t, e)])
  {
    forall r
      ensures TotalsOf(events + [e], r) ==
                if e.repository == r then Grown(TotalsOf(events, r), e) else TotalsOf(events, r)
    {
      OneMoreEvent(events, e, r);
    }
  }

  /** What lies beyond `end`, and beyond everything seen before, in each of the spans. */
  function Beyond(end: real, spans: seq<Span>): real
    decreases |spans|
  {
    if spans == [] then 0.0
    else if spans[0].from > end then spans[0].to - spans[0].from + Beyond(spans[0].to, spans[1..])
    else if spans[0].to > end then spans[0].to - end + Beyond(spans[0].to, spans[1..])
    else Beyond(end, spans[1..])
  }

  function Positioned(spans: seq<Span>): real {
    if spans == [] then 0.0 else spans[0].to - spans[0].from + Beyond(spans[0].to, spans[1..])
  }

  lemma {:induction false} BeyondIsMerge(open: Span, rest: seq<Span>)
    requires Ahead(open, rest)
    ensures open.to - open.from + Beyond(open.to, rest) == Total(Merge(open, rest))
    decreases |rest|
  {
    if rest == [] {
      TotalAppends(open, []);
      assert Kept(open) + [] == Kept(open);
    } else {
      AheadOfRest(open, rest);
      if rest[0].from <= open.to {
        BeyondIsMerge(Span(open.from, if rest[0].to > open.to then rest[0].to else open.to), rest[1..]);
      } else {
        BeyondIsMerge(rest[0], rest[1..]);
        TotalAppends(open, Merge(rest[0], rest[1..]));
      }
    }
  }

  /** The sweep with a running end, on any sorted intervals. */
  method SweepPositioned(intervals: seq<Span>) returns (duration: real)
    ensures duration == Positioned(intervals)
  {
    duration := 0.0;
    var end := None;
    var i := 0;
    while i < |intervals|
      invariant 0 <= i <= |intervals|
      invariant end.None? <==> i == 0
      invariant Positioned(intervals) == duration + if i == 0 then Positioned(intervals) else Beyond(end.value, intervals[i..])
    {
      var next := intervals[i];
      assert intervals[i..][1..] == intervals[i + 1..];
      if end.None? || next.from > end.value {
        duration := duration + (next.to - next.from);
        end := Some(next.to);
      } else if next.to > end.value {
        duration := duration + (next.to - end.value);
        end := Some(next.to);
      }
      i := i + 1;
    }
  }

  function RowOf(events: seq<Event>, repository: string): Row {
    Row((Positioned(Sort(Earlier, SpansOf(events, repository))) + UnpositionedOf(events, repository)) / 1000000.0,
        repository, CountOf(events, repository))
  }

  method MakeRow(ghost events: seq<Event>, repository: string, t: Totals) returns (row: Row)
    requires t == TotalsOf(events, repository)
    ensures row == RowOf(events, repository)
  {
    var duration := SweepPositioned(Sort(Earlier, t.intervals));
    row := Row((duration + t.unpositioned) / 1000000.0, repository, t.count);
  }

  /** One row for each name. */
  function RowsOf(events: seq<Event>, names: seq<string>): seq<Row> {
    seq(|names|, i requires 0 <= i < |names| => RowOf(events, names[i]))
  }

  /** The tuples in descending order: by duration, then by name, then by count. */
  predicate RowGe(a: Row, b: Row) {
    || a.seconds > b.seconds
    || (a.seconds == b.seconds &&
        if a.repository == b.repository then a.count >= b.count else StringLe(b.repository, a.repository))
  }

  lemma RowGeTotal()
    ensures TotalOrder(RowGe)
  {
    forall a, b
      ensures RowGe(a, b) || RowGe(b, a)
    {
      StringLeEither(a.repository, b.repository);
    }
    forall a, b, c | RowGe(a, b) && RowGe(b, c)
      ensures RowGe(a, c)
    {
      RowGeChain(a, b, c);
    }
  }

  lemma RowGeChain(a: Row, b: Row, c: Row)
    requires RowGe(a, b) && RowGe(b, c)
    ensures RowGe(a, c)
  {
    if a.seconds == b.seconds == c.seconds && a.repository != b.repository && b.repository != c.repository {
      StringLeChain(c.repository, b.repository, a.repository);
      if a.repository == c.repository {
        StringLeBoth(a.repository, b.repository);
      }
    }
  }

  /** Each repository that has an event, once. */
  ghost predicate Repositories(events: seq<Event>, names: seq<string>) {
    && (forall r :: r in names <==> CountOf(events, r) > 0)
    && (forall i, k | 0 <= i < k < |names| :: names[i] != names[k])
  }

  /** repository_timings: one row for each repository that has an event, longest first. */
  method RepositoryTimings(events: seq<Event>) returns (rows: seq<Row>, ghost names: seq<string>)
    ensures Repositories(events, names) && multiset(rows) == multiset(RowsOf(events, names)) && Sorted(RowGe, rows)
    ensures forall i, k | 0 <= i < k < |rows| ::
              rows[i].seconds > rows[k].seconds
              || (rows[i].seconds == rows[k].seconds && StringLe(rows[k].repository, rows[i].repository))
  {
    var totals, order := Accumulate(events);
    names := order;
    ListedAreRepositories(events, totals, order);
    rows := ListRows(events, totals, order);
    RowGeTotal();
    SortLaw(RowGe, rows);
    rows := Sort(RowGe, rows);
    forall i, k | 0 <= i < k < |rows|
      ensures rows[i].seconds > rows[k].seconds
              || (rows[i].seconds == rows[k].seconds && StringLe(rows[k].repository, rows[i].repository))
    {
      assert RowGe(rows[i], rows[k]);
      StringLeEither(rows[i].repository, rows[k].repository);
    }
  }

  /** The loop over the totals. */
  method ListRows(ghost events: seq<Event>, totals: map<string, Totals>, names: seq<string>) returns (rows: seq<Row>)
    requires Totalled(events, totals) && forall r | r in names :: r in totals
    ensures rows == RowsOf(events, names)
  {
    rows := [];
    var i := 0;
    while i < |names|
      invariant 0 <= i <= |names| && rows == RowsOf(events, names)[..i]
    {
      TotalOfKey(events, totals, names[i]);
      var row := MakeRow(events, names[i], totals[names[i]]);
      rows := rows + [row];
      i := i + 1;
    }
  }

  lemma ListedAreRepositories(events: seq<Event>, totals: map<string, Totals>, names: seq<string>)
    requires Totalled(events, totals) && Listed(totals, names)
    ensures Repositories(events, names) && forall r | r in names :: r in totals
  {
    forall r
      ensures r in names <==> CountOf(events, r) > 0
    {
      TotalOfKey(events, totals, r);
    }
  }

  lemma TotalOfKey(events: seq<Event>, totals: map<string, Totals>, r: string)
    requires Totalled(events, totals)
    ensures r in totals ==> totals[r] == TotalsOf(events, r)
    ensures r in totals <==> CountOf(events, r) > 0
  {
    assert TotalsOf(events, r).count == CountOf(events, r);
  }

  // ----- When the sweep with a running end is right -----

  predicate Backward(s: Span) {
    s.to < s.from
  }

  function Forwards(spans: seq<Span>): seq<Span> {
    if spans == [] then [] else (if Backward(spans[0]) then [] else [spans[0]]) + Forwards(spans[1..])
  }

  /** What backward spans take away from the sweep: those that start beyond its end count negative. */
  function Lost(end: real, spans: seq<Span>): real
    decreases |spans|
  {
    if spans == [] then 0.0
    else if spans[0].from > end then (if Backward(spans[0]) then spans[0].to - spans[0].from else 0.0) + Lost(spans[0].to, spans[1..])
    else if spans[0].to > end then Lost(spans[0].to, spans[1..])
    else Lost(end, spans[1..])
  }

  /** A backward span that the sweep counts leaves an end that lies before everything to come, and so does the
      end that the forward spans alone leave. */
  ghost predicate Resynced(end: real, other: real, spans: seq<Span>) {
    end == other || forall i | 0 <= i < |spans| :: end < spans[i].from && other < spans[i].from
  }

  lemma {:induction false} BeyondSplits(end: real, other: real, spans: seq<Span>)
    requires Sorted(Earlier, spans) && Resynced(end, other, spans)
    ensures Beyond(end, spans) == Beyond(other, Forwards(spans)) + Lost(end, spans)
    decreases |spans|
  {
    if spans != [] {
      var s, rest := spans[0], spans[1..];
      SortedRest(spans);
      if Backward(s) {
        assert Forwards(spans) == Forwards(rest);
        BeyondSplits(if s.from > end then s.to else end, other, rest);
      } else {
        assert Forwards(spans)[0] == s && Forwards(spans)[1..] == Forwards(rest);
        BeyondSplits(Reach(end, s), Reach(other, s), rest);
      }
    }
  }

  function Reach(end: real, s: Span): real {
    if s.from > end || s.to > end then s.to else end
  }

  lemma SortedRest(spans: seq<Span>)
    requires Sorted(Earlier, spans) && spans != []
    ensures Sorted(Earlier, spans[1..])
    ensures forall i | 0 <= i < |spans| - 1 :: spans[1..][i] == spans[i + 1] && spans[0].from <= spans[1..][i].from
  {
    assert forall i | 0 <= i < |spans| - 1 :: spans[1..][i] == spans[i + 1] && Earlier(spans[0], spans[i + 1]);
  }

  /** A backward span that starts later than everything sorted before it stops. */
  ghost predicate Exposed(s: seq<Span>, i: nat)
    requires i < |s|
  {
    Backward(s[i]) && forall k | 0 <= k < i :: s[k].to < s[i].from
  }

  /** The negative lengths of the exposed spans from position i on. */
  ghost function ExposedLength(s: seq<Span>, i: nat): real
    requires i <= |s|
    decreases |s| - i
  {
    if i == |s| then 0.0 else (if Exposed(s, i) then s[i].to - s[i].from else 0.0) + ExposedLength(s, i + 1)
  }

  /** The running end before position i. */
  function EndAt(s: seq<Span>, end: real, i: nat): real
    requires i <= |s|
  {
    if i == 0 then end else Reach(EndAt(s, end, i - 1), s[i - 1])
  }

  /** Everything before position i stops before x. */
  ghost predicate AllStop(s: seq<Span>, i: nat, x: real)
    requires i <= |s|
  {
    forall k | 0 <= k < i :: s[k].to < x
  }

  lemma AllStopNext(s: seq<Span>, i: nat, x: real)
    requires i < |s|
    ensures AllStop(s, i + 1, x) <==> AllStop(s, i, x) && s[i].to < x
  {
  }

  /** For what is still to come, the running end is as good as all stops so far. */
  lemma {:induction false} EndTracks(s: seq<Span>, end: real, i: nat, m: nat)
    requires i <= m < |s| && Sorted(Earlier, s) && end < s[0].from
    ensures s[m].from > EndAt(s, end, i) <==> AllStop(s, i, s[m].from)
    decreases i
  {
    assert m > 0 ==> Earlier(s[0], s[m]);
    if i > 0 {
      EndTracks(s, end, i - 1, m);
      EndTracks(s, end, i - 1, i - 1);
      AllStopNext(s, i - 1, s[m].from);
      assert Earlier(s[i - 1], s[m]);
      assert AllStop(s, i - 1, s[i - 1].from) ==> AllStop(s, i - 1, s[m].from);
    }
  }

  lemma ExposedByEnd(s: seq<Span>, end: real, i: nat)
    requires i < |s| && Sorted(Earlier, s) && end < s[0].from
    ensures Exposed(s, i) <==> Backward(s[i]) && s[i].from > EndAt(s, end, i)
  {
    EndTracks(s, end, i, i);
  }

  /** What the sweep loses is the length of the exposed spans. */
  lemma {:induction false} LostIsExposed(s: seq<Span>, end: real, i: nat)
    requires i <= |s| && Sorted(Earlier, s) && (s != [] ==> end < s[0].from)
    ensures Lost(EndAt(s, end, i), s[i..]) == ExposedLength(s, i)
    decreases |s| - i
  {
    if i < |s| {
      LostIsExposed(s, end, i + 1);
      LostNext(s, i, EndAt(s, end, i));
      ExposedByEnd(s, end, i);
    }
  }

  lemma LostNext(s: seq<Span>, i: nat, end: real)
    requires i < |s|
    ensures Lost(end, s[i..]) == (if Backward(s[i]) && s[i].from > end then s[i].to - s[i].from else 0.0)
                                 + Lost(Reach(end, s[i]), s[i + 1..])
  {
    assert s[i..][0] == s[i] && s[i..][1..] == s[i + 1..];
  }

  lemma {:induction false} ExposedIsNegative(s: seq<Span>, i: nat)
    requires i <= |s|
    ensures ExposedLength(s, i) <= 0.0
    ensures ExposedLength(s, i) == 0.0 <==> forall k | i <= k < |s| :: !Exposed(s, k)
    decreases |s| - i
  {
    if i < |s| {
      ExposedIsNegative(s, i + 1);
    }
  }

  lemma {:induction false} ForwardsMembers(spans: seq<Span>)
    ensures Forward(Forwards(spans))
    ensures forall s :: s in Forwards(spans) <==> s in spans && !Backward(s)
  {
    if spans != [] {
      ForwardsMembers(spans[1..]);
      assert spans == [spans[0]] + spans[1..];
    }
  }

  lemma {:induction false} ForwardsSorted(spans: seq<Span>)
    requires Sorted(Earlier, spans)
    ensures Sorted(Earlier, Forwards(spans))
  {
    if spans != [] {
      var rest := spans[1..];
      ForwardsSorted(rest);
      ForwardsMembers(rest);
      forall i | 0 <= i < |Forwards(rest)|
        ensures Earlier(spans[0], Forwards(rest)[i])
      {
        assert Forwards(rest)[i] in rest;
        var k :| 0 <= k < |rest| && rest[k] == Forwards(rest)[i];
        assert Earlier(spans[0], spans[k + 1]);
      }
    }
  }

  /** Backward spans cover nothing. */
  lemma ForwardsCover(spans: seq<Span>)
    requires Sorted(Earlier, spans)
    ensures SameCover(Forwards(spans), spans)
  {
    ForwardsMembers(spans);
    forall x: real
      ensures Covers(Forwards(spans), x) <==> Covers(spans, x)
    {
      CoverByMember(Forwards(spans), spans, x);
      if Covers(spans, x) {
        var i :| 0 <= i < |spans| && spans[i].from <= x < spans[i].to;
        assert spans[i] in Forwards(spans);
        var k :| 0 <= k < |Forwards(spans)| && Forwards(spans)[k] == spans[i];
      }
    }
  }

  /** On sorted forward spans the running end gives the measure. */
  lemma SortedForwardMeasured(s: seq<Span>)
    requires Sorted(Earlier, s) && Forward(s)
    ensures IsMeasure(s, Positioned(s))
  {
    if s == [] {
      NothingMeasured();
    } else {
      assert Ahead(s[0], s[1..]);
      MergeMeasures(s);
      BeyondIsMerge(s[0], s[1..]);
    }
  }

  /** The sweep as a sweep from before everything. */
  lemma PositionedFromBefore(spans: seq<Span>, end: real)
    requires spans != [] ==> end < spans[0].from
    ensures Positioned(spans) == Beyond(end, spans)
  {
  }

  lemma PositionedSplits(s: seq<Span>)
    requires Sorted(Earlier, s)
    ensures Positioned(s) == Positioned(Forwards(s)) + ExposedLength(s, 0)
  {
    if s != [] {
      var end := s[0].from - 1.0;
      ForwardsMembers(s);
      ForwardsSorted(s);
      forall i | 0 <= i < |s|
        ensures end < s[i].from
      {
        assert i > 0 ==> Earlier(s[0], s[i]);
      }
      BeyondSplits(end, end, s);
      PositionedFromBefore(s, end);
      if Forwards(s) != [] {
        assert Forwards(s)[0] in s;
      }
      PositionedFromBefore(Forwards(s), end);
      LostIsExposed(s, end, 0);
      assert s[0..] == s;
    }
  }

  /** Every backward span starts no later than the furthest stop of the spans sorted before it. */
  ghost predicate BackwardsSheltered(s: seq<Span>) {
    forall i | 0 <= i < |s| && Backward(s[i]) :: exists k :: 0 <= k < i && s[i].from <= s[k].to
  }

  lemma ShelteredIsNotExposed(s: seq<Span>)
    ensures BackwardsSheltered(s) <==> forall i | 0 <= i < |s| :: !Exposed(s, i)
  {
    if forall i | 0 <= i < |s| :: !Exposed(s, i) {
      forall i | 0 <= i < |s| && Backward(s[i])
        ensures exists k :: 0 <= k < i && s[i].from <= s[k].to
      {
        assert !Exposed(s, i);
      }
    }
  }

  /** The exact value, on any intervals: the sweep gives the measure of their union and the negative lengths of the
      backward intervals that start later than everything sorted before them stops. So it gives the measure if and
      only if every backward interval starts no later than the furthest stop of those sorted before it. */
  lemma PositionedIsMeasure(spans: seq<Span>)
    ensures var s := Sort(Earlier, spans);
            && (exists m :: IsMeasure(spans, m) && Positioned(s) == m + ExposedLength(s, 0))
            && (IsMeasure(spans, Positioned(s)) <==> BackwardsSheltered(s))
  {
    var s := Sort(Earlier, spans);
    EarlierTotal();
    SortLaw(Earlier, spans);
    SortMembers(Earlier, spans);
    SameMembersSameCover(s, spans);
    ForwardsMembers(s);
    ForwardsSorted(s);
    ForwardsCover(s);
    SortedForwardMeasured(Forwards(s));
    var m := Positioned(Forwards(s));
    MeasureMoves(Forwards(s), s, m);
    MeasureMoves(s, spans, m);
    PositionedSplits(s);
    ExposedIsNegative(s, 0);
    ShelteredIsNotExposed(s);
    if IsMeasure(spans, Positioned(s)) {
      assert SameCover(spans, spans);
      MeasureIsUnique(spans, spans, Positioned(s), m);
    }
    assert IsMeasure(spans, m) && Positioned(s) == m + ExposedLength(s, 0);
  }

  /** With positive durations the positioned part of a repository's row is the measure of its events. */
  lemma RowIsMeasure(events: seq<Event>, repository: string)
    requires forall e | e in events && e.repository == repository && e.timestamp.Some? :: e.duration > 0.0
    ensures IsMeasure(SpansOf(events, repository),
                      RowOf(events, repository).seconds * 1000000.0 - UnpositionedOf(events, repository))
  {
    var spans := SpansOf(events, repository);
    PositiveIsForward(events, repository);
    EarlierTotal();
    SortMembers(Earlier, spans);
    forall i | 0 <= i < |Sort(Earlier, spans)|
      ensures !Backward(Sort(Earlier, spans)[i])
    {
      assert Sort(Earlier, spans)[i] in spans;
    }
    PositionedIsMeasure(spans);
  }

  /** A lone event with a negative duration makes the total negative: it has nothing to shelter it. */
  lemma NegativeDurationBreaksMeasure(e: Event)
    requires e.timestamp.Some? && e.duration < 0.0
    ensures var s := Sort(Earlier, SpansOf([e], e.repository)); !BackwardsSheltered(s) && Positioned(s) == e.duration < 0.0
  {
    var span := Span(e.timestamp.value, e.timestamp.value + e.duration);
    assert SpansOf([e][..0], e.repository) == [];
    assert SpansOf([e], e.repository) == [span];
    assert Sort(Earlier, [span][1..]) == [];
    assert Sort(Earlier, [span]) == [span] && Backward([span][0]);
  }

  /** The two sweeps agree: on the same forward intervals, in any two orders, the running end and the current
      interval add up to the same. */
  lemma SweepsAgree(a: seq<Span>, b: seq<Span>)
    requires multiset(a) == multiset(b) && Forward(a)
    ensures Positioned(Sort(Earlier, a)) == ElapsedOf(b)
  {
    forall s
      ensures s in a <==> s in b
    {
      assert s in multiset(a) <==> s in multiset(b);
    }
    assert |a| == |multiset(a)| == |multiset(b)| == |b|;
    if a != [] {
      SortedAhead(a);
      assert Forward(b) by { assert forall i | 0 <= i < |b| :: b[i] in a; }
      SortedAhead(b);
      var s, t := Sort(Earlier, a), Sort(Earlier, b);
      BeyondIsMerge(s[0], s[1..]);
      MergeMeasures(s);
      MergeMeasures(t);
      SameMembersSameCover(s, t);
      MeasureIsUnique(s, t, Positioned(s), ElapsedOf(b));
    }
  }
}
