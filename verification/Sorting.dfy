/** Python's sorted: a stable sort by a total preorder. */
module Sorting {

  ghost predicate TotalOrder<T(!new)>(le: (T, T) -> bool) {
    && (forall a, b :: le(a, b) || le(b, a))
    && (forall a, b, c :: le(a, b) && le(b, c) ==> le(a, c))
  }

  ghost predicate Sorted<T>(le: (T, T) -> bool, s: seq<T>) {
    forall i, k | 0 <= i < k < |s| :: le(s[i], s[k])
  }

  /** The elements that are equivalent to x, in their order. */
  function Ties<T>(le: (T, T) -> bool, s: seq<T>, x: T): seq<T> {
    if s == [] then [] else (if le(s[0], x) && le(x, s[0]) then [s[0]] else []) + Ties(le, s[1..], x)
  }

  /** Before everything that is not strictly smaller. */
  function Insert<T>(le: (T, T) -> bool, s: seq<T>, x: T): seq<T> {
    if s == [] || le(x, s[0]) then [x] + s else [s[0]] + Insert(le, s[1..], x)
  }

  function Sort<T>(le: (T, T) -> bool, s: seq<T>): seq<T> {
    if s == [] then [] else Insert(le, Sort(le, s[1..]), s[0])
  }

  lemma {:induction false} InsertCounts<T>(le: (T, T) -> bool, s: seq<T>, x: T)
    ensures multiset(Insert(le, s, x)) == multiset(s) + multiset{x}
  {
    if s != [] && !le(x, s[0]) {
      InsertCounts(le, s[1..], x);
      assert s == [s[0]] + s[1..];
    }
  }

  lemma {:induction false} InsertSorts<T(!new)>(le: (T, T) -> bool, s: seq<T>, x: T)
    requires TotalOrder(le) && Sorted(le, s)
    ensures Sorted(le, Insert(le, s, x))
  {
    if s != [] && !le(x, s[0]) {
      InsertSorts(le, s[1..], x);
      InsertCounts(le, s[1..], x);
      var rest := Insert(le, s[1..], x);
      forall i | 0 <= i < |rest|
        ensures le(s[0], rest[i])
      {
        assert rest[i] in multiset(rest);
        assert rest[i] == x || rest[i] in s[1..];
      }
    }
  }

  lemma {:induction false} InsertIsStable<T(!new)>(le: (T, T) -> bool, s: seq<T>, x: T, y: T)
    requires TotalOrder(le)
    ensures Ties(le, Insert(le, s, x), y) == Ties(le, [x] + s, y)
  {
    assert ([x] + s)[1..] == s;
    if s != [] && !le(x, s[0]) {
      InsertIsStable(le, s[1..], x, y);
      assert ([x] + s[1..])[1..] == s[1..];
      assert Insert(le, s, x)[1..] == Insert(le, s[1..], x);
    }
  }

  /** Sorted, a permutation, and stable: equivalent elements keep their order. */
  lemma {:induction false} SortLaw<T(!new)>(le: (T, T) -> bool, s: seq<T>)
    requires TotalOrder(le)
    ensures Sorted(le, Sort(le, s))
    ensures multiset(Sort(le, s)) == multiset(s)
    ensures forall y :: Ties(le, Sort(le, s), y) == Ties(le, s, y)
  {
    if s != [] {
      var rest := Sort(le, s[1..]);
      SortLaw(le, s[1..]);
      InsertCounts(le, rest, s[0]);
      InsertSorts(le, rest, s[0]);
      assert s == [s[0]] + s[1..];
      forall y
        ensures Ties(le, Sort(le, s), y) == Ties(le, s, y)
      {
        InsertIsStable(le, rest, s[0], y);
        assert ([s[0]] + rest)[1..] == rest;
      }
    }
  }

  lemma SortMembers<T(!new)>(le: (T, T) -> bool, s: seq<T>)
    requires TotalOrder(le)
    ensures |Sort(le, s)| == |s| && forall x :: x in Sort(le, s) <==> x in s
  {
    SortLaw(le, s);
    assert |multiset(Sort(le, s))| == |Sort(le, s)| && |multiset(s)| == |s|;
    forall x
      ensures x in Sort(le, s) <==> x in s
    {
      assert x in multiset(Sort(le, s)) <==> x in multiset(s);
    }
  }

  /** A list that is sorted already stays as it is. */
  lemma {:induction false} SortFixes<T(!new)>(le: (T, T) -> bool, s: seq<T>)
    requires TotalOrder(le) && Sorted(le, s)
    ensures Sort(le, s) == s
  {
    if s != [] {
      SortFixes(le, s[1..]);
      assert s == [s[0]] + s[1..];
      if |s| > 1 {
        assert le(s[0], s[1]);
      }
    }
  }

  /** Strings compare character by character, a prefix first. */
  predicate StringLe(a: string, b: string)
    decreases |a|
  {
    a == [] || (b != [] && (a[0] < b[0] || (a[0] == b[0] && StringLe(a[1..], b[1..]))))
  }

  /** What comparing character by character means: the first difference decides, and a prefix comes first. */
  lemma {:induction false} StringLeLaw(a: string, b: string) returns (k: nat)
    ensures k <= |a| && k <= |b| && a[..k] == b[..k]
    ensures k < |a| && k < |b| ==> a[k] != b[k] && (StringLe(a, b) <==> a[k] < b[k])
    ensures k == |a| || k == |b| ==> (StringLe(a, b) <==> k == |a|)
    decreases |a|
  {
    if a == [] || b == [] || a[0] != b[0] {
      k := 0;
    } else {
      var m := StringLeLaw(a[1..], b[1..]);
      k := m + 1;
      assert a[..k] == [a[0]] + a[1..][..m] && b[..k] == [b[0]] + b[1..][..m];
    }
  }

  lemma {:induction false} StringLeEither(a: string, b: string)
    ensures StringLe(a, b) || StringLe(b, a)
    decreases |a|
  {
    if a != [] && b != [] {
      StringLeEither(a[1..], b[1..]);
    }
  }

  lemma {:induction false} StringLeBoth(a: string, b: string)
    requires StringLe(a, b) && StringLe(b, a)
    ensures a == b
    decreases |a|
  {
    if a != [] {
      StringLeBoth(a[1..], b[1..]);
      assert a == [a[0]] + a[1..] && b == [b[0]] + b[1..];
    }
  }

  lemma {:induction false} StringLeChain(a: string, b: string, c: string)
    requires StringLe(a, b) && StringLe(b, c)
    ensures StringLe(a, c)
    decreases |a|
  {
    if a != [] && a[0] == b[0] && b[0] == c[0] {
      StringLeChain(a[1..], b[1..], c[1..]);
    }
  }

  lemma StringLeTotal()
    ensures TotalOrder(StringLe)
  {
    forall a, b
      ensures StringLe(a, b) || StringLe(b, a)
    {
      StringLeEither(a, b);
    }
    forall a, b, c | StringLe(a, b) && StringLe(b, c)
      ensures StringLe(a, c)
    {
      StringLeChain(a, b, c);
    }
  }
}
