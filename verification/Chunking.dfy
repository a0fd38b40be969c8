/** _chunk_arguments of lib/regression.py: long argument lists are split greedily. */
module Chunking {

  /** One argument takes its length and a separator. */
  function Cost(arguments: seq<string>): nat {
    if arguments == [] then 0 else |arguments[0]| + 1 + Cost(arguments[1..])
  }

  /** What the arguments take on a command line, each followed by a separator. */
  function Joined(arguments: seq<string>): string {
    if arguments == [] then "" else arguments[0] + " " + Joined(arguments[1..])
  }

  lemma {:induction false} CostIsLength(arguments: seq<string>)
    ensures Cost(arguments) == |Joined(arguments)|
  {
    if arguments != [] {
      CostIsLength(arguments[1..]);
    }
  }

  function Flatten(chunks: seq<seq<string>>): seq<string> {
    if chunks == [] then [] else chunks[0] + Flatten(chunks[1..])
  }

  /** A chunk fits the budget, or cannot be split further. */
  predicate Feasible(chunk: seq<string>, maxChars: int) {
    |chunk| <= 1 || Cost(chunk) <= maxChars
  }

  predicate AllFeasible(chunks: seq<seq<string>>, maxChars: int) {
    forall i | 0 <= i < |chunks| :: Feasible(chunks[i], maxChars)
  }

  /** No chunk is empty, and none could have taken one more argument. */
  predicate Tight(chunks: seq<seq<string>>, maxChars: int) {
    && (forall i | 0 <= i < |chunks| :: chunks[i] != [])
    && (forall i | 0 < i < |chunks| :: Cost(chunks[i - 1]) + |chunks[i][0]| + 1 > maxChars)
  }

  lemma {:induction false} CostAppends(a: seq<string>, b: seq<string>)
    ensures Cost(a + b) == Cost(a) + Cost(b)
  {
    if a == [] {
      assert a + b == b;
    } else {
      CostAppends(a[1..], b);
      assert (a + b)[1..] == a[1..] + b;
    }
  }

  lemma {:induction false} FlattenAppends(chunks: seq<seq<string>>, chunk: seq<string>)
    ensures Flatten(chunks + [chunk]) == Flatten(chunks) + chunk
  {
    if chunks == [] {
      assert (chunks + [chunk])[1..] == [];
    } else {
      FlattenAppends(chunks[1..], chunk);
      assert (chunks + [chunk])[1..] == chunks[1..] + [chunk];
    }
  }

  /** A further chunk may follow if the last one could not have taken its first argument. */
  predicate Closes(chunks: seq<seq<string>>, next: seq<string>, maxChars: int) {
    chunks != [] ==> next != [] && Cost(chunks[|chunks| - 1]) + |next[0]| + 1 > maxChars
  }

  ghost predicate Chunked(chunks: seq<seq<string>>, maxChars: int, arguments: seq<string>) {
    Flatten(chunks) == arguments && AllFeasible(chunks, maxChars) && Tight(chunks, maxChars)
  }

  lemma Closed(chunks: seq<seq<string>>, current: seq<string>, maxChars: int, arguments: seq<string>)
    requires Chunked(chunks, maxChars, arguments) && Closes(chunks, current, maxChars)
    requires current != [] && Feasible(current, maxChars)
    ensures Chunked(chunks + [current], maxChars, arguments + current)
  {
    FlattenAppends(chunks, current);
  }

  /** The chunks in order are the arguments; every chunk is feasible and as long as it could be. */
  method ChunkArguments(arguments: seq<string>, maxChars: int) returns (chunks: seq<seq<string>>)
    ensures Flatten(chunks) == arguments
    ensures AllFeasible(chunks, maxChars) && Tight(chunks, maxChars)
    ensures forall other :: AllFeasible(other, maxChars) && Flatten(other) == arguments ==> |chunks| <= |other|
  {
    chunks := [];
    var current: seq<string> := [];
    var currentChars := 0;
    ghost var start := 0;
    var i := 0;
    while i < |arguments|
      invariant 0 <= start <= i <= |arguments| && (i > 0 ==> start < i)
      invariant Chunked(chunks, maxChars, arguments[..start])
      invariant Current(chunks, current, currentChars, maxChars, arguments, start, i)
    {
      var argument := arguments[i];
      if current != [] && currentChars + |argument| + 1 > maxChars {
        Closed(chunks, current, maxChars, arguments[..start]);
        Slices(arguments, start, i);
        Restarted(chunks, current, argument, maxChars);
        chunks := chunks + [current];
        current, currentChars, start := [], 0, i;
      } else {
        Extended(chunks, current, argument, maxChars, arguments, start, i);
      }
      current := current + [argument];
      currentChars := currentChars + |argument| + 1;
      i := i + 1;
    }
    if current != [] {
      Closed(chunks, current, maxChars, arguments[..start]);
      Slices(arguments, start, i);
      chunks := chunks + [current];
    }
    assert arguments[..|arguments|] == arguments;
    forall other | AllFeasible(other, maxChars) && Flatten(other) == arguments
      ensures |chunks| <= |other|
    {
      TightIsOptimal(chunks, other, maxChars);
    }
  }

  /** The open chunk: the arguments from `start` to i. */
  ghost predicate Current(chunks: seq<seq<string>>, current: seq<string>, chars: int, maxChars: int,
                          arguments: seq<string>, start: nat, i: nat)
    requires start <= i <= |arguments|
  {
    && current == arguments[start..i] && chars == Cost(current)
    && Feasible(current, maxChars) && (current != [] ==> Closes(chunks, current, maxChars))
    && (current == [] ==> chunks == [])
  }

  lemma Slices(arguments: seq<string>, start: nat, i: nat)
    requires start <= i <= |arguments|
    ensures arguments[..start] + arguments[start..i] == arguments[..i]
  {
  }

  lemma Restarted(chunks: seq<seq<string>>, current: seq<string>, argument: string, maxChars: int)
    requires Cost(current) + |argument| + 1 > maxChars
    ensures Closes(chunks + [current], [argument], maxChars) && Cost([argument]) == |argument| + 1
  {
    assert [argument][1..] == [];
  }

  lemma Extended(chunks: seq<seq<string>>, current: seq<string>, argument: string, maxChars: int,
                 arguments: seq<string>, start: nat, i: nat)
    requires start <= i < |arguments| && argument == arguments[i]
    requires Current(chunks, current, Cost(current), maxChars, arguments, start, i)
    requires current == [] || Cost(current) + |argument| + 1 <= maxChars
    ensures Current(chunks, current + [argument], Cost(current) + |argument| + 1, maxChars, arguments, start, i + 1)
  {
    CostAppends(current, [argument]);
    assert [argument][1..] == [];
  }

  /** Optimality. No other split of the same arguments into feasible contiguous chunks has fewer chunks. */
  lemma TightIsOptimal(chunks: seq<seq<string>>, other: seq<seq<string>>, maxChars: int)
    requires Tight(chunks, maxChars) && AllFeasible(other, maxChars) && Flatten(chunks) == Flatten(other)
    ensures |chunks| <= |other|
  {
    assert Flatten(other) == [] + Flatten(chunks);
    StaysAhead(chunks, other, [], maxChars);
  }

  /** What the tight split has left is never more than what any other split has left. */
  lemma {:induction false} StaysAhead(chunks: seq<seq<string>>, other: seq<seq<string>>, ahead: seq<string>, maxChars: int)
    requires Tight(chunks, maxChars) && AllFeasible(other, maxChars) && Flatten(other) == ahead + Flatten(chunks)
    ensures |chunks| <= |other|
    decreases |chunks|
  {
    if chunks != [] {
      assert chunks[0] != [] && other != [];
      var taken := ahead + chunks[0];
      FirstIsLongest(chunks, other, ahead, maxChars);
      var rest := taken[|other[0]|..];
      assert Flatten(other[1..]) == rest + Flatten(chunks[1..]) by {
        assert other[0] + Flatten(other[1..]) == taken + Flatten(chunks[1..]);
        assert Flatten(other[1..]) == (taken + Flatten(chunks[1..]))[|other[0]|..];
      }
      StaysAhead(chunks[1..], other[1..], rest, maxChars);
    }
  }

  lemma FirstIsLongest(chunks: seq<seq<string>>, other: seq<seq<string>>, ahead: seq<string>, maxChars: int)
    requires Tight(chunks, maxChars) && AllFeasible(other, maxChars) && Flatten(other) == ahead + Flatten(chunks)
    requires chunks != [] && other != []
    ensures |other[0]| <= |ahead| + |chunks[0]|
  {
    assert Feasible(other[0], maxChars);
    if |chunks| > 1 {
      assert Cost(chunks[1 - 1]) + |chunks[1][0]| + 1 > maxChars;
    }
    if |other[0]| > |ahead| + |chunks[0]| {
      assert chunks[0] != [] && |chunks| > 1 && chunks[1] != [];
      var next, tail := chunks[1][0], chunks[1][1..] + Flatten(chunks[1..][1..]);
      NextArgument(chunks[1..]);
      assert other[0] + Flatten(other[1..]) == ahead + (chunks[0] + ([next] + tail));
      PrefixCost(other[0], Flatten(other[1..]), ahead, chunks[0], next, tail);
    }
  }

  lemma NextArgument(chunks: seq<seq<string>>)
    requires chunks != [] && chunks[0] != []
    ensures Flatten(chunks) == [chunks[0][0]] + (chunks[0][1..] + Flatten(chunks[1..]))
  {
  }

  /** A chunk that reaches past a + b costs at least what b and the next argument cost. */
  lemma PrefixCost(chunk: seq<string>, rest: seq<string>, a: seq<string>, b: seq<string>, next: string, tail: seq<string>)
    requires chunk + rest == a + (b + ([next] + tail)) && |chunk| > |a| + |b|
    ensures Cost(chunk) >= Cost(b) + |next| + 1
  {
    var over := PrefixShape(chunk, rest, a, b, next, tail);
    CostAppends(a, b + ([next] + over));
    CostAppends(b, [next] + over);
    NextCost(next, over);
  }

  lemma NextCost(next: string, over: seq<string>)
    ensures Cost([next] + over) >= |next| + 1
  {
  }

  lemma PrefixShape(chunk: seq<string>, rest: seq<string>, a: seq<string>, b: seq<string>, next: string, tail: seq<string>)
      returns (over: seq<string>)
    requires chunk + rest == a + (b + ([next] + tail)) && |chunk| > |a| + |b|
    ensures chunk == a + (b + ([next] + over))
  {
    var n := |a| + |b|;
    over := chunk[n + 1..];
    var all := a + (b + ([next] + tail));
    assert all == (a + b) + ([next] + tail);
    assert chunk[n] == (chunk + rest)[n] == all[n] == next;
    assert chunk[..n] == (chunk + rest)[..n] == all[..n] == a + b;
    assert chunk == chunk[..n] + ([chunk[n]] + over);
  }
}
