/** discover_filelist_inputs of lib/compile_cache.py: the files that a simulator filelist names, directly or
    through nested filelists, found with a worklist. */
module Filelist {
  import opened Sorting

  type Path = string

  /** The parts of the file system that the search looks at. */
  datatype FileSystem = FileSystem(
    resolve: (string, Path) -> Path,      // expansion, and joining to a base directory
    dirname: Path -> Path,
    files: set<Path>,
    directories: map<Path, set<Path>>,    // every file below a directory
    tokens: map<Path, seq<string>>)       // the tokens of a filelist; none if its quoting is broken

  /** A filelist and the directory that its relative names refer to. */
  datatype Visit = Visit(filelist: Path, base: Path)

  datatype Scanned = Scanned(nested: seq<Visit>, found: set<Path>)

  // ----- Reading one filelist -----

  /** What a token, with its argument if it takes one, says. */
  datatype Item =
    | Nested(name: string, ownBase: bool)                     // -f, -file; ownBase for -F
    | Names(names: seq<string>, includeDirectory: bool)       // files, libraries, include directories

  /** The non-empty pieces between plus signs. */
  function Pieces(text: string, piece: string): seq<string> {
    var done := if piece == [] then [] else [piece];
    if text == [] then done
    else if text[0] == '+' then done + Pieces(text[1..], "")
    else Pieces(text[1..], piece + [text[0]])
  }

  /** The item at a position, and how many tokens it takes. */
  function ItemAt(tokens: seq<string>, i: nat): (r: (Item, nat))
    requires i < |tokens|
    ensures 1 <= r.1 <= 2 && i + r.1 <= |tokens|
  {
    var token := tokens[i];
    if token in {"-f", "-file", "-F"} && i + 1 < |tokens| then (Nested(tokens[i + 1], token == "-F"), 2)
    else if "-file=" <= token then (Nested(token[6..], false), 1)
    else if "+incdir+" <= token then (Names(Pieces(token[8..], ""), true), 1)
    else if token == "-incdir" && i + 1 < |tokens| then (Names([tokens[i + 1]], true), 2)
    else if token in {"-v", "-y"} && i + 1 < |tokens| then (Names([tokens[i + 1]], token == "-y"), 2)
    else if "-" <= token || "+" <= token then (Names([], false), 1)
    else (Names([token], false), 1)
  }

  /** add_path. */
  function Added(fs: FileSystem, name: string, base: Path, includeDirectory: bool): set<Path> {
    var resolved := fs.resolve(name, base);
    if resolved in fs.files then {resolved}
    else if includeDirectory && resolved in fs.directories then fs.directories[resolved]
    else {}
  }

  function AddedAll(fs: FileSystem, names: seq<string>, base: Path, includeDirectory: bool): set<Path> {
    if names == [] then {}
    else Added(fs, names[0], base, includeDirectory) + AddedAll(fs, names[1..], base, includeDirectory)
  }

  function Contribution(fs: FileSystem, item: Item, base: Path): Scanned {
    match item
    case Nested(name, ownBase) =>
      var path := fs.resolve(name, base);
      Scanned([Visit(path, if ownBase then fs.dirname(path) else base)], Added(fs, name, base, false))
    case Names(names, includeDirectory) => Scanned([], AddedAll(fs, names, base, includeDirectory))
  }

  function Join(a: Scanned, b: Scanned): Scanned {
    Scanned(a.nested + b.nested, a.found + b.found)
  }

  function Scan(fs: FileSystem, tokens: seq<string>, i: nat, base: Path): Scanned
    requires i <= |tokens|
    decreases |tokens| - i
  {
    if i == |tokens| then Scanned([], {})
    else
      var (item, n) := ItemAt(tokens, i);
      Join(Contribution(fs, item, base), Scan(fs, tokens, i + n, base))
  }

  /** Everything that reading one filelist contributes. A missing one contributes nothing. */
  function Read(fs: FileSystem, v: Visit): Scanned {
    if v.filelist !in fs.files then Scanned([], {})
    else if v.filelist !in fs.tokens then Scanned([], {v.filelist})
    else Join(Scanned([], {v.filelist}), Scan(fs, fs.tokens[v.filelist], 0, v.base))
  }

  // ----- The search -----

  /** Which of the pending visits is next, given what has been parsed. No two states of a search are equal, so
      every order of visits is the order of some strategy. */
  type Strategy = (seq<Visit>, set<Path>) -> nat

  function Chosen(pick: Strategy, pending: seq<Visit>, parsed: set<Path>): (i: nat)
    requires pending != []
    ensures i < |pending|
  {
    pick(pending, parsed) % |pending|
  }

  function Others(pending: seq<Visit>, i: nat): seq<Visit>
    requires i < |pending|
  {
    pending[..i] + pending[i + 1..]
  }

  /** The search terminates for every strategy, cyclic includes or not: every round parses a new existing
      filelist or shortens the list of pending visits. */
  function SearchBy(fs: FileSystem, pick: Strategy, pending: seq<Visit>, parsed: set<Path>, found: set<Path>): set<Path>
    decreases fs.files - parsed, |pending|
  {
    if pending == [] then found
    else
      var i := Chosen(pick, pending, parsed);
      var v, rest := pending[i], Others(pending, i);
      if v.filelist in parsed then SearchBy(fs, pick, rest, parsed, found)
      else
        ParsedShrinks(fs, parsed, v);
        SearchBy(fs, pick, rest + Read(fs, v).nested, parsed + {v.filelist}, found + Read(fs, v).found)
  }

  lemma ParsedShrinks(fs: FileSystem, parsed: set<Path>, v: Visit)
    requires v.filelist !in parsed
    ensures if v.filelist in fs.files then fs.files - (parsed + {v.filelist}) < fs.files - parsed
            else fs.files - (parsed + {v.filelist}) == fs.files - parsed && Read(fs, v).nested == []
  {
    if v.filelist in fs.files {
      assert v.filelist in fs.files - parsed;
    }
  }

  /** The source's own order: the list is a stack. */
  function LastIn(): Strategy {
    (pending, parsed) => if pending == [] then 0 else |pending| - 1
  }

  function Discovered(fs: FileSystem, root: Path, working: Path): set<Path> {
    SearchBy(fs, LastIn(), [Visit(root, working)], {}, {})
  }

  method ScanTokens(fs: FileSystem, tokens: seq<string>, base: Path) returns (r: Scanned)
    ensures r == Scan(fs, tokens, 0, base)
  {
    r := Scanned([], {});
    var i := 0;
    while i < |tokens|
      invariant 0 <= i <= |tokens|
      invariant Join(r, Scan(fs, tokens, i, base)) == Scan(fs, tokens, 0, base)
      decreases |tokens| - i
    {
      var (item, n) := ItemAt(tokens, i);
      JoinIsAssociative(r, Contribution(fs, item, base), Scan(fs, tokens, i + n, base));
      r := Join(r, Contribution(fs, item, base));
      i := i + n;
    }
  }

  lemma JoinIsAssociative(a: Scanned, b: Scanned, c: Scanned)
    ensures Join(Join(a, b), c) == Join(a, Join(b, c))
  {
  }

  /** discover_filelist_inputs: the files found, each once, in sorted order. */
  method DiscoverFilelistInputs(fs: FileSystem, root: Path, working: Path) returns (files: seq<Path>)
    ensures multiset(files) == multiset(Discovered(fs, root, working)) && Sorted(StringLe, files)
  {
    var discovered := SearchStack(fs, root, working);
    files := ListOf(discovered);
    StringLeTotal();
    SortLaw(StringLe, files);
    files := Sort(StringLe, files);
  }

  method SearchStack(fs: FileSystem, root: Path, working: Path) returns (discovered: set<Path>)
    ensures discovered == Discovered(fs, root, working)
  {
    discovered := {};
    var parsed: set<Path> := {};
    var pending := [Visit(root, working)];
    while pending != []
      invariant SearchBy(fs, LastIn(), pending, parsed, discovered) == Discovered(fs, root, working)
      decreases fs.files - parsed, |pending|
    {
      LastIsChosen(pending, parsed);
      var v := pending[|pending| - 1];
      pending := pending[..|pending| - 1];
      if v.filelist !in parsed {
        ParsedShrinks(fs, parsed, v);
        parsed := parsed + {v.filelist};
        var r := ReadFilelist(fs, v);
        discovered := discovered + r.found;
        pending := pending + r.nested;
      }
    }
  }

  lemma LastIsChosen(pending: seq<Visit>, parsed: set<Path>)
    requires pending != []
    ensures var i := Chosen(LastIn(), pending, parsed); i == |pending| - 1 && Others(pending, i) == pending[..|pending| - 1]
  {
    var n := |pending|;
    assert (n - 1) % n == n - 1;
  }

  method ListOf(s: set<Path>) returns (list: seq<Path>)
    ensures multiset(list) == multiset(s)
  {
    list := [];
    var left := s;
    while left != {}
      invariant left <= s && multiset(list) == multiset(s - left)
    {
      var x :| x in left;
      assert s - (left - {x}) == (s - left) + {x};
      list, left := list + [x], left - {x};
    }
    assert s - {} == s;
  }

  /** What the loop does with a filelist that it has not parsed before. */
  method ReadFilelist(fs: FileSystem, v: Visit) returns (r: Scanned)
    ensures r == Read(fs, v)
  {
    r := Scanned([], {});
    if v.filelist in fs.files {
      r := Scanned([], {v.filelist});
      if v.filelist in fs.tokens {
        var scanned := ScanTokens(fs, fs.tokens[v.filelist], v.base);
        r := Join(r, scanned);
      }
    }
  }

  // ----- Reachability -----

  /** A chain of nested filelists from the root. */
  predicate Chain(fs: FileSystem, start: Visit, chain: seq<Visit>) {
    && chain != [] && chain[0] == start
    && forall i | 0 < i < |chain| :: chain[i] in Read(fs, chain[i - 1]).nested
  }

  ghost predicate Reached(fs: FileSystem, start: Visit, v: Visit) {
    exists chain :: Chain(fs, start, chain) && chain[|chain| - 1] == v
  }

  /** A file that some reachable filelist is, or names. */
  ghost predicate Named(fs: FileSystem, start: Visit, file: Path) {
    exists v :: Reached(fs, start, v) && file in Read(fs, v).found
  }

  /** A filelist whose names are read. */
  predicate Readable(fs: FileSystem, path: Path) {
    path in fs.files && path in fs.tokens
  }

  /** Every readable filelist is reached under one base directory only. */
  ghost predicate OneBase(fs: FileSystem, start: Visit) {
    forall v, w | Reached(fs, start, v) && Reached(fs, start, w) && v.filelist == w.filelist && Readable(fs, v.filelist) :: v == w
  }

  lemma StartIsReached(fs: FileSystem, start: Visit)
    ensures Reached(fs, start, start)
  {
    assert Chain(fs, start, [start]) && [start][|[start]| - 1] == start;
  }

  lemma NestedIsReached(fs: FileSystem, start: Visit, v: Visit, w: Visit)
    requires Reached(fs, start, v) && w in Read(fs, v).nested
    ensures Reached(fs, start, w)
  {
    var chain :| Chain(fs, start, chain) && chain[|chain| - 1] == v;
    var longer := chain + [w];
    forall i | 0 < i < |longer|
      ensures longer[i] in Read(fs, longer[i - 1]).nested
    {
      if i < |chain| {
        assert longer[i] == chain[i] && longer[i - 1] == chain[i - 1];
      }
    }
    assert Chain(fs, start, longer) && longer[|longer| - 1] == w;
  }

  /** Everything pending, visited or found so far is reachable, what was visited is found, and no filelist was
      visited twice. */
  ghost predicate Sound(fs: FileSystem, start: Visit, pending: seq<Visit>, found: set<Path>, visited: set<Visit>) {
    && (forall v | v in pending :: Reached(fs, start, v))
    && (forall v | v in visited :: Reached(fs, start, v) && Read(fs, v).found <= found)
    && (forall file | file in found :: exists v :: v in visited && file in Read(fs, v).found)
    && (forall v, w | v in visited && w in visited && v.filelist == w.filelist :: v == w)
  }

  /** What was nested in a visited filelist is pending or parsed; `visited` are the visits made so far. */
  ghost predicate Complete(fs: FileSystem, start: Visit, pending: seq<Visit>, parsed: set<Path>, visited: set<Visit>) {
    && (forall v | v in visited :: v.filelist in parsed)
    && (forall p | p in parsed :: exists v :: v in visited && v.filelist == p)
    && (start in pending || start.filelist in parsed)
    && (forall v, w | v in visited && w in Read(fs, v).nested :: w in pending || w.filelist in parsed)
  }

  /** The search in mid-flight. */
  ghost predicate Midway(fs: FileSystem, start: Visit, pending: seq<Visit>, parsed: set<Path>, found: set<Path>, visited: set<Visit>) {
    Sound(fs, start, pending, found, visited) && Complete(fs, start, pending, parsed, visited)
  }

  lemma OthersMembers(pending: seq<Visit>, i: nat)
    requires i < |pending|
    ensures forall w | w in pending :: w in Others(pending, i) || w == pending[i]
    ensures forall w | w in Others(pending, i) :: w in pending
  {
    assert pending == pending[..i] + [pending[i]] + pending[i + 1..];
  }

  lemma DropKeeps(fs: FileSystem, start: Visit, pending: seq<Visit>, i: nat, parsed: set<Path>, found: set<Path>, visited: set<Visit>)
    requires Midway(fs, start, pending, parsed, found, visited) && i < |pending| && pending[i].filelist in parsed
    ensures Midway(fs, start, Others(pending, i), parsed, found, visited)
  {
    OthersMembers(pending, i);
  }

  lemma VisitIsSound(fs: FileSystem, start: Visit, pending: seq<Visit>, i: nat, parsed: set<Path>, found: set<Path>, visited: set<Visit>)
    requires Midway(fs, start, pending, parsed, found, visited) && i < |pending| && pending[i].filelist !in parsed
    ensures var v := pending[i];
            Sound(fs, start, Others(pending, i) + Read(fs, v).nested, found + Read(fs, v).found, visited + {v})
  {
    var v := pending[i];
    assert v in pending;
    VisitIsReached(fs, start, pending, i);
    VisitIsFound(fs, v, found, visited);
    forall w | w in visited
      ensures w.filelist != v.filelist
    {
      assert w.filelist in parsed;
    }
  }

  lemma VisitIsReached(fs: FileSystem, start: Visit, pending: seq<Visit>, i: nat)
    requires i < |pending| && forall v | v in pending :: Reached(fs, start, v)
    ensures forall w | w in Others(pending, i) + Read(fs, pending[i]).nested :: Reached(fs, start, w)
  {
    OthersMembers(pending, i);
    assert pending[i] in pending;
    forall w | w in Read(fs, pending[i]).nested
      ensures Reached(fs, start, w)
    {
      NestedIsReached(fs, start, pending[i], w);
    }
  }

  lemma VisitIsFound(fs: FileSystem, v: Visit, found: set<Path>, visited: set<Visit>)
    requires forall file | file in found :: exists u :: u in visited && file in Read(fs, u).found
    ensures forall file | file in found + Read(fs, v).found :: exists u :: u in visited + {v} && file in Read(fs, u).found
  {
    forall file | file in found + Read(fs, v).found
      ensures exists u :: u in visited + {v} && file in Read(fs, u).found
    {
      if file in found {
        var u :| u in visited && file in Read(fs, u).found;
        assert u in visited + {v};
      } else {
        assert v in visited + {v};
      }
    }
  }

  lemma VisitIsComplete(fs: FileSystem, start: Visit, pending: seq<Visit>, i: nat, parsed: set<Path>, visited: set<Visit>)
    requires Complete(fs, start, pending, parsed, visited) && i < |pending|
    ensures var v := pending[i];
            Complete(fs, start, Others(pending, i) + Read(fs, v).nested, parsed + {v.filelist}, visited + {v})
  {
    var v := pending[i];
    OthersMembers(pending, i);
    forall p | p in parsed + {v.filelist}
      ensures exists u :: u in visited + {v} && u.filelist == p
    {
      if p == v.filelist {
        assert v in visited + {v};
      } else {
        var u :| u in visited && u.filelist == p;
        assert u in visited + {v};
      }
    }
  }

  /** Two visits of one filelist read the same if the filelist has one base, or no names. */
  lemma SameRead(fs: FileSystem, start: Visit, v: Visit, w: Visit)
    requires OneBase(fs, start) && Reached(fs, start, v) && Reached(fs, start, w) && v.filelist == w.filelist
    ensures Read(fs, v) == Read(fs, w)
  {
    if Readable(fs, v.filelist) {
      assert v == w;
    }
  }

  /** When nothing is pending, every reachable filelist has been read. */
  lemma {:induction false} AllVisited(fs: FileSystem, start: Visit, parsed: set<Path>, found: set<Path>, visited: set<Visit>, chain: seq<Visit>)
    requires Midway(fs, start, [], parsed, found, visited) && OneBase(fs, start) && Chain(fs, start, chain)
    ensures exists w :: w in visited && Read(fs, w) == Read(fs, chain[|chain| - 1])
    decreases |chain|
  {
    var v := chain[|chain| - 1];
    assert Reached(fs, start, v);
    if |chain| > 1 {
      var shorter := chain[..|chain| - 1];
      AllVisited(fs, start, parsed, found, visited, shorter);
      var u :| u in visited && Read(fs, u) == Read(fs, shorter[|shorter| - 1]);
      assert v in Read(fs, u).nested;
    }
    var w :| w in visited && w.filelist == v.filelist;
    SameRead(fs, start, v, w);
  }

  /** Whatever the order, the end of the search leaves a sound and complete set of visits behind. */
  lemma {:induction false} SearchEnds(fs: FileSystem, pick: Strategy, start: Visit, pending: seq<Visit>, parsed: set<Path>,
                                      found: set<Path>, visited: set<Visit>) returns (parsed': set<Path>, visited': set<Visit>)
    requires Midway(fs, start, pending, parsed, found, visited)
    ensures Midway(fs, start, [], parsed', SearchBy(fs, pick, pending, parsed, found), visited')
    decreases fs.files - parsed, |pending|
  {
    if pending == [] {
      return parsed, visited;
    }
    var i := Chosen(pick, pending, parsed);
    var v := pending[i];
    if v.filelist in parsed {
      DropKeeps(fs, start, pending, i, parsed, found, visited);
      parsed', visited' := SearchEnds(fs, pick, start, Others(pending, i), parsed, found, visited);
    } else {
      VisitIsSound(fs, start, pending, i, parsed, found, visited);
      VisitIsComplete(fs, start, pending, i, parsed, visited);
      ParsedShrinks(fs, parsed, v);
      parsed', visited' := SearchEnds(fs, pick, start, Others(pending, i) + Read(fs, v).nested, parsed + {v.filelist},
                                      found + Read(fs, v).found, visited + {v});
    }
  }

  ghost function SearchFrom(fs: FileSystem, pick: Strategy, start: Visit): set<Path> {
    SearchBy(fs, pick, [start], {}, {})
  }

  lemma SearchVisits(fs: FileSystem, pick: Strategy, start: Visit) returns (parsed: set<Path>, visited: set<Visit>)
    ensures Midway(fs, start, [], parsed, SearchFrom(fs, pick, start), visited)
  {
    StartIsReached(fs, start);
    parsed, visited := SearchEnds(fs, pick, start, [start], {}, {}, {});
  }

  /** The search finds exactly the files that are reachable from the root, in whatever order it visits. */
  ghost predicate Exact(fs: FileSystem, pick: Strategy, start: Visit) {
    forall file :: file in SearchFrom(fs, pick, start) <==> Named(fs, start, file)
  }

  lemma DiscoveryIsReachability(fs: FileSystem, pick: Strategy, start: Visit)
    requires OneBase(fs, start)
    ensures Exact(fs, pick, start)
  {
    var parsed, visited := SearchVisits(fs, pick, start);
    forall file
      ensures file in SearchFrom(fs, pick, start) <==> Named(fs, start, file)
    {
      if Named(fs, start, file) {
        var v :| Reached(fs, start, v) && file in Read(fs, v).found;
        var chain :| Chain(fs, start, chain) && chain[|chain| - 1] == v;
        AllVisited(fs, start, parsed, SearchFrom(fs, pick, start), visited, chain);
      }
    }
  }

  /** So the order does not matter. */
  lemma OrderIsIrrelevant(fs: FileSystem, pick: Strategy, other: Strategy, start: Visit)
    requires OneBase(fs, start)
    ensures SearchFrom(fs, pick, start) == SearchFrom(fs, other, start)
  {
    DiscoveryIsReachability(fs, pick, start);
    DiscoveryIsReachability(fs, other, start);
    forall file
      ensures file in SearchFrom(fs, pick, start) <==> file in SearchFrom(fs, other, start)
    {
      assert Named(fs, start, file) <==> file in SearchFrom(fs, pick, start);
    }
  }
}
