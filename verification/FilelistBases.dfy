/** Why filelist discovery needs every readable filelist to be reached under one base directory: exactly then
    no plain name that is added to a filelist can be missed. */
module FilelistBases {
  import opened Sorting
  import opened Filelist

  /** A token that names a file. */
  predicate Plain(token: string) {
    !("-" <= token) && !("+" <= token)
  }

  predicate AllPlain(tokens: seq<string>) {
    forall i | 0 <= i < |tokens| :: Plain(tokens[i])
  }

  /** fs' has, beyond fs, only further files that are no filelists, and plain names in front of filelists. */
  ghost predicate Extends(fs: FileSystem, fs': FileSystem) {
    && fs' == fs.(files := fs'.files, tokens := fs'.tokens)
    && fs.files <= fs'.files && fs'.tokens.Keys == fs.tokens.Keys
    && (forall p | p in fs'.files && p !in fs.files :: p !in fs.tokens)
    && (forall p | p in fs.tokens :: Prefixed(fs.tokens[p], fs'.tokens[p]))
  }

  ghost predicate Prefixed(tokens: seq<string>, longer: seq<string>) {
    exists extra :: AllPlain(extra) && longer == extra + tokens
  }

  // ----- An extension changes no visit -----

  lemma ItemShifts(extra: seq<string>, tokens: seq<string>, i: nat)
    requires i < |tokens|
    ensures ItemAt(extra + tokens, |extra| + i) == ItemAt(tokens, i)
  {
    assert (extra + tokens)[|extra| + i] == tokens[i];
    assert i + 1 < |tokens| ==> (extra + tokens)[|extra| + i + 1] == tokens[i + 1];
  }

  /** Reading past a prefix is reading the rest. */
  lemma {:induction false} ScanShifts(fs: FileSystem, extra: seq<string>, tokens: seq<string>, i: nat, base: Path)
    requires i <= |tokens|
    ensures Scan(fs, extra + tokens, |extra| + i, base) == Scan(fs, tokens, i, base)
    decreases |tokens| - i
  {
    if i < |tokens| {
      ItemShifts(extra, tokens, i);
      ScanShifts(fs, extra, tokens, i + ItemAt(tokens, i).1, base);
    }
  }

  lemma FirstOf(prefix: string, token: string)
    requires prefix != "" && prefix <= token
    ensures prefix[..1] <= token
  {
  }

  lemma PlainItem(tokens: seq<string>, i: nat)
    requires i < |tokens| && Plain(tokens[i])
    ensures ItemAt(tokens, i) == (Names([tokens[i]], false), 1)
  {
    var token := tokens[i];
    assert "-f"[..1] == "-file"[..1] == "-F"[..1] == "-file="[..1] == "-incdir"[..1] == "-v"[..1] == "-y"[..1] == "-";
    assert "+incdir+"[..1] == "+";
    forall flag: string | flag != "" && flag[..1] in {"-", "+"}
      ensures !(flag <= token)
    {
      if flag <= token {
        FirstOf(flag, token);
      }
    }
  }

  lemma {:induction false} PrefixNestsNothing(fs: FileSystem, extra: seq<string>, tokens: seq<string>, base: Path)
    requires AllPlain(extra)
    ensures Scan(fs, extra + tokens, 0, base).nested == Scan(fs, tokens, 0, base).nested
    decreases |extra|
  {
    if extra == [] {
      assert extra + tokens == tokens;
    } else {
      var rest := extra[1..] + tokens;
      assert extra + tokens == [extra[0]] + rest;
      PrefixNestsNothing(fs, extra[1..], tokens, base);
      OnePlain(fs, extra[0], rest, base);
    }
  }

  lemma OnePlain(fs: FileSystem, token: string, tokens: seq<string>, base: Path)
    requires Plain(token)
    ensures Scan(fs, [token] + tokens, 0, base).nested == Scan(fs, tokens, 0, base).nested
  {
    PlainItem([token] + tokens, 0);
    ScanShifts(fs, [token], tokens, 0, base);
  }

  lemma {:induction false} NestedIgnoresFiles(fs: FileSystem, fs': FileSystem, tokens: seq<string>, i: nat, base: Path)
    requires fs'.resolve == fs.resolve && fs'.dirname == fs.dirname && i <= |tokens|
    ensures Scan(fs', tokens, i, base).nested == Scan(fs, tokens, i, base).nested
    decreases |tokens| - i
  {
    if i < |tokens| {
      NestedIgnoresFiles(fs, fs', tokens, i + ItemAt(tokens, i).1, base);
    }
  }

  lemma SameNested(fs: FileSystem, fs': FileSystem, v: Visit)
    requires Extends(fs, fs')
    ensures Read(fs', v).nested == Read(fs, v).nested
  {
    if Readable(fs, v.filelist) {
      var tokens := fs.tokens[v.filelist];
      var extra :| AllPlain(extra) && fs'.tokens[v.filelist] == extra + tokens;
      PrefixNestsNothing(fs', extra, tokens, v.base);
      NestedIgnoresFiles(fs, fs', tokens, 0, v.base);
    }
  }

  lemma ChainMoves(a: FileSystem, b: FileSystem, start: Visit, chain: seq<Visit>)
    requires forall v :: Read(a, v).nested == Read(b, v).nested
    requires Chain(a, start, chain)
    ensures Chain(b, start, chain)
  {
    forall i | 0 < i < |chain|
      ensures chain[i] in Read(b, chain[i - 1]).nested
    {
      assert chain[i] in Read(a, chain[i - 1]).nested;
    }
  }

  lemma SameReached(fs: FileSystem, fs': FileSystem, start: Visit, v: Visit)
    requires Extends(fs, fs')
    ensures Reached(fs', start, v) <==> Reached(fs, start, v)
  {
    forall u
      ensures Read(fs', u).nested == Read(fs, u).nested
    {
      SameNested(fs, fs', u);
    }
    if Reached(fs', start, v) {
      var chain :| Chain(fs', start, chain) && chain[|chain| - 1] == v;
      ChainMoves(fs', fs, start, chain);
    }
    if Reached(fs, start, v) {
      var chain :| Chain(fs, start, chain) && chain[|chain| - 1] == v;
      ChainMoves(fs, fs', start, chain);
    }
  }

  lemma OneBaseExtends(fs: FileSystem, fs': FileSystem, start: Visit)
    requires Extends(fs, fs') && OneBase(fs, start)
    ensures OneBase(fs', start)
  {
    forall v, w | Reached(fs', start, v) && Reached(fs', start, w) && v.filelist == w.filelist && Readable(fs', v.filelist)
      ensures v == w
    {
      SameReached(fs, fs', start, v);
      SameReached(fs, fs', start, w);
    }
  }

  // ----- What the reachable filelists can name -----

  /** All paths that an item can stand for, whether or not they are files. */
  function Candidates(fs: FileSystem, item: Item, base: Path): set<Path> {
    match item
    case Nested(name, _) => {fs.resolve(name, base)}
    case Names(names, includeDirectory) => CandidatesAll(fs, names, base, includeDirectory)
  }

  function CandidatesAll(fs: FileSystem, names: seq<string>, base: Path, includeDirectory: bool): set<Path> {
    if names == [] then {}
    else
      var path := fs.resolve(names[0], base);
      {path} + (if includeDirectory && path in fs.directories then fs.directories[path] else {})
        + CandidatesAll(fs, names[1..], base, includeDirectory)
  }

  function Mentions(fs: FileSystem, tokens: seq<string>, i: nat, base: Path): set<Path>
    requires i <= |tokens|
    decreases |tokens| - i
  {
    if i == |tokens| then {}
    else
      var (item, n) := ItemAt(tokens, i);
      Candidates(fs, item, base) + Mentions(fs, tokens, i + n, base)
  }

  lemma {:induction false} AddedAreCandidates(fs: FileSystem, fs': FileSystem, names: seq<string>, base: Path, includeDirectory: bool)
    requires fs'.resolve == fs.resolve && fs'.directories == fs.directories
    ensures AddedAll(fs', names, base, includeDirectory) <= CandidatesAll(fs, names, base, includeDirectory)
  {
    if names != [] {
      AddedAreCandidates(fs, fs', names[1..], base, includeDirectory);
    }
  }

  lemma {:induction false} FoundIsMentioned(fs: FileSystem, fs': FileSystem, tokens: seq<string>, i: nat, base: Path)
    requires fs' == fs.(files := fs'.files, tokens := fs'.tokens) && i <= |tokens|
    ensures Scan(fs', tokens, i, base).found <= Mentions(fs, tokens, i, base)
    decreases |tokens| - i
  {
    if i < |tokens| {
      var (item, n) := ItemAt(tokens, i);
      FoundIsMentioned(fs, fs', tokens, i + n, base);
      if item.Names? {
        AddedAreCandidates(fs, fs', item.names, base, item.includeDirectory);
      }
    }
  }

  /** A nested filelist is mentioned; its base is the reader's base or its own directory. */
  lemma {:induction false} NestedIsMentioned(fs: FileSystem, tokens: seq<string>, i: nat, base: Path, w: Visit)
    requires i <= |tokens| && w in Scan(fs, tokens, i, base).nested
    ensures w.filelist in Mentions(fs, tokens, i, base) && (w.base == base || w.base == fs.dirname(w.filelist))
    decreases |tokens| - i
  {
    var (item, n) := ItemAt(tokens, i);
    if w !in Contribution(fs, item, base).nested {
      NestedIsMentioned(fs, tokens, i + n, base, w);
    }
  }

  /** The bases under which existing filelists can be reached: finitely many. */
  function Bases(fs: FileSystem, start: Visit): set<Path> {
    {start.base} + set f | f in fs.files :: fs.dirname(f)
  }

  /** Everything that plays a part in a search from `start`: finitely many paths. */
  function Known(fs: FileSystem, start: Visit): set<Path> {
    {start.filelist} + fs.files + fs.tokens.Keys
      + set f, b, x | f in fs.tokens && b in Bases(fs, start) && x in Mentions(fs, fs.tokens[f], 0, b) :: x
  }

  lemma MentionIsKnown(fs: FileSystem, start: Visit, f: Path, b: Path, x: Path)
    requires f in fs.tokens && b in Bases(fs, start) && x in Mentions(fs, fs.tokens[f], 0, b)
    ensures x in Known(fs, start)
  {
  }

  lemma NestedShape(fs: FileSystem, v: Visit, w: Visit)
    requires w in Read(fs, v).nested
    ensures Readable(fs, v.filelist) && w.filelist in Mentions(fs, fs.tokens[v.filelist], 0, v.base)
    ensures w.base == v.base || w.base == fs.dirname(w.filelist)
  {
    NestedIsMentioned(fs, fs.tokens[v.filelist], 0, v.base, w);
  }

  /** Reachable filelists are known, and existing ones are reached under known bases. */
  lemma {:induction false} ReachedIsKnown(fs: FileSystem, start: Visit, chain: seq<Visit>)
    requires Chain(fs, start, chain)
    ensures var v := chain[|chain| - 1]; v.filelist in Known(fs, start) && (v.filelist in fs.files ==> v.base in Bases(fs, start))
    decreases |chain|
  {
    if |chain| > 1 {
      var shorter := chain[..|chain| - 1];
      var u, v := shorter[|shorter| - 1], chain[|chain| - 1];
      ReachedIsKnown(fs, start, shorter);
      assert v in Read(fs, u).nested;
      NestedShape(fs, u, v);
      MentionIsKnown(fs, start, u.filelist, u.base, v.filelist);
    }
  }

  // ----- A plain name that resolves apart under two bases -----

  /** A name for any finite set of paths and any two bases that resolves to two different paths outside. */
  ghost predicate FreshNames(fs: FileSystem, newName: (set<Path>, Path, Path) -> string) {
    forall s, b, c | b != c ::
      && Plain(newName(s, b, c))
      && fs.resolve(newName(s, b, c), b) !in s && fs.resolve(newName(s, b, c), c) !in s
      && fs.resolve(newName(s, b, c), b) != fs.resolve(newName(s, b, c), c)
  }

  /** Filelist f gets one more name, and the two paths that it stands for under b and c become files. */
  function Planted(fs: FileSystem, f: Path, name: string, b: Path, c: Path): FileSystem
    requires f in fs.tokens
  {
    fs.(files := fs.files + {fs.resolve(name, b), fs.resolve(name, c)}, tokens := fs.tokens[f := [name] + fs.tokens[f]])
  }

  /** The name is plain and resolves to two new paths. */
  ghost predicate Apart(fs: FileSystem, start: Visit, f: Path, name: string, b: Path, c: Path) {
    && Readable(fs, f) && Plain(name) && fs.resolve(name, b) != fs.resolve(name, c)
    && fs.resolve(name, b) !in Known(fs, start) && fs.resolve(name, c) !in Known(fs, start)
  }

  lemma PlantedExtends(fs: FileSystem, start: Visit, f: Path, name: string, b: Path, c: Path)
    requires Apart(fs, start, f, name, b, c)
    ensures Extends(fs, Planted(fs, f, name, b, c))
  {
    var fs' := Planted(fs, f, name, b, c);
    forall p | p in fs.tokens
      ensures Prefixed(fs.tokens[p], fs'.tokens[p])
    {
      var extra := if p == f then [name] else [];
      assert AllPlain(extra) && fs'.tokens[p] == extra + fs.tokens[p];
    }
  }

  /** What reading the planted filelist adds. */
  lemma PlantedScan(fs: FileSystem, name: string, tokens: seq<string>, base: Path)
    requires Plain(name)
    ensures Scan(fs, [name] + tokens, 0, base).found == Added(fs, name, base, false) + Scan(fs, tokens, 0, base).found
  {
    PlainItem([name] + tokens, 0);
    ScanShifts(fs, [name], tokens, 0, base);
    assert [name][1..] == [];
    assert AddedAll(fs, [name], base, false) == Added(fs, name, base, false);
  }

  /** Only a visit of f finds one of the new files, and only under a base from which the name resolves to it. */
  lemma OnlyPlanted(fs: FileSystem, start: Visit, f: Path, name: string, b: Path, c: Path, u: Visit, x: Path)
    requires Apart(fs, start, f, name, b, c) && Reached(fs, start, u)
    requires x == fs.resolve(name, b) || x == fs.resolve(name, c)
    requires x in Read(Planted(fs, f, name, b, c), u).found
    ensures u.filelist == f && fs.resolve(name, u.base) == x
  {
    var fs' := Planted(fs, f, name, b, c);
    var chain :| Chain(fs, start, chain) && chain[|chain| - 1] == u;
    ReachedIsKnown(fs, start, chain);
    assert u.filelist in Known(fs, start) && u.filelist in fs.files && u.filelist != x;
    assert u.filelist in fs.tokens;
    var tokens := fs.tokens[u.filelist];
    FoundIsMentioned(fs, fs', tokens, 0, u.base);
    if x in Mentions(fs, tokens, 0, u.base) {
      MentionIsKnown(fs, start, u.filelist, u.base, x);
    }
    if u.filelist == f {
      PlantedScan(fs', name, tokens, u.base);
    }
  }

  /** Both new files are named, but one search finds at most one of them. */
  lemma PlantedIsInexact(fs: FileSystem, pick: Strategy, start: Visit, f: Path, name: string, b: Path, c: Path)
    requires Apart(fs, start, f, name, b, c) && Reached(fs, start, Visit(f, b)) && Reached(fs, start, Visit(f, c))
    ensures !Exact(Planted(fs, f, name, b, c), pick, start)
  {
    var fs' := Planted(fs, f, name, b, c);
    var x, y := fs.resolve(name, b), fs.resolve(name, c);
    PlantedExtends(fs, start, f, name, b, c);
    PlantedIsNamed(fs, start, f, name, b, c, b);
    PlantedIsNamed(fs, start, f, name, b, c, c);
    var parsed, visited := SearchVisits(fs', pick, start);
    if x in SearchFrom(fs', pick, start) && y in SearchFrom(fs', pick, start) {
      var u :| u in visited && x in Read(fs', u).found;
      var v :| v in visited && y in Read(fs', v).found;
      SameReached(fs, fs', start, u);
      SameReached(fs, fs', start, v);
      OnlyPlanted(fs, start, f, name, b, c, u, x);
      OnlyPlanted(fs, start, f, name, b, c, v, y);
    }
    assert Named(fs', start, x) && Named(fs', start, y);
  }

  lemma PlantedIsNamed(fs: FileSystem, start: Visit, f: Path, name: string, b: Path, c: Path, base: Path)
    requires Apart(fs, start, f, name, b, c) && Reached(fs, start, Visit(f, base)) && (base == b || base == c)
    ensures Named(Planted(fs, f, name, b, c), start, fs.resolve(name, base))
  {
    var fs' := Planted(fs, f, name, b, c);
    PlantedExtends(fs, start, f, name, b, c);
    SameReached(fs, fs', start, Visit(f, base));
    PlantedScan(fs', name, fs.tokens[f], base);
    assert fs.resolve(name, base) in Read(fs', Visit(f, base)).found;
  }

  /** The exact condition. Every readable filelist is reached under one base directory if and only if the search
      finds exactly the named files, however plain names and the files that they name are added. */
  lemma OneBaseIffExact(fs: FileSystem, pick: Strategy, start: Visit, newName: (set<Path>, Path, Path) -> string)
    requires FreshNames(fs, newName)
    ensures OneBase(fs, start) <==> forall fs' | Extends(fs, fs') :: Exact(fs', pick, start)
  {
    if OneBase(fs, start) {
      forall fs' | Extends(fs, fs')
        ensures Exact(fs', pick, start)
      {
        OneBaseExtends(fs, fs', start);
        DiscoveryIsReachability(fs', pick, start);
      }
    } else {
      var v, w :| Reached(fs, start, v) && Reached(fs, start, w) && v.filelist == w.filelist && Readable(fs, v.filelist) && v != w;
      var name := newName(Known(fs, start), v.base, w.base);
      assert v == Visit(v.filelist, v.base) && w == Visit(v.filelist, w.base);
      assert Apart(fs, start, v.filelist, name, v.base, w.base);
      PlantedExtends(fs, start, v.filelist, name, v.base, w.base);
      PlantedIsInexact(fs, pick, start, v.filelist, name, v.base, w.base);
    }
  }

  // ----- Joining names to directories leaves such names -----

  ghost function LongerThanAll(s: set<Path>): (n: nat)
    ensures forall x | x in s :: |x| < n
  {
    if s == {} then 0
    else
      var x :| x in s;
      var n := LongerThanAll(s - {x});
      assert forall y | y in s :: y == x || y in s - {x};
      if |x| < n then n else |x| + 1
  }

  /** The name of n letters. */
  function Letters(n: nat): (name: string)
    ensures |name| == n + 1 && forall i | 0 <= i < |name| :: name[i] == 'a'
  {
    seq(n + 1, _ => 'a')
  }

  /** A relative name without variables, quotes or slashes. */
  predicate Word(name: string) {
    name != "" && forall i | 0 <= i < |name| :: 'a' <= name[i] <= 'z'
  }

  /** Such a name resolves to the base as a prefix, which tells the base, followed by the name. */
  ghost predicate Joins(fs: FileSystem, prefix: Path -> string) {
    && (forall name, base | Word(name) :: fs.resolve(name, base) == prefix(base) + name)
    && (forall b, c | prefix(b) == prefix(c) :: b == c)
  }

  lemma JoiningLeavesFreshNames(fs: FileSystem, prefix: Path -> string) returns (newName: (set<Path>, Path, Path) -> string)
    requires Joins(fs, prefix)
    ensures FreshNames(fs, newName)
  {
    newName := (s, b, c) => Letters(LongerThanAll(s));
    forall s, b, c | b != c
      ensures var name := newName(s, b, c);
              && Plain(name) && fs.resolve(name, b) !in s && fs.resolve(name, c) !in s
              && fs.resolve(name, b) != fs.resolve(name, c)
    {
      var name := Letters(LongerThanAll(s));
      assert "-"[0] != name[0] && "+"[0] != name[0];
      assert Word(name) && |prefix(b) + name| >= |name| && |prefix(c) + name| >= |name|;
      if prefix(b) + name == prefix(c) + name {
        JoinKeepsBase(prefix(b), prefix(c), name);
      }
    }
  }

  lemma JoinKeepsBase(b: Path, c: Path, rest: string)
    requires b + rest == c + rest
    ensures b == c
  {
    assert (b + rest)[..|b|] == b && (c + rest)[..|c|] == c;
  }

  // ----- A file that is missed -----

  /** A filelist that is included under two bases: the second visit is dropped. */
  function TwoBases(): FileSystem {
    FileSystem((name, base) => if name == "f" then "f" else if base == "w" then "wx" else "dx", path => "d",
               {"r", "f", "wx", "dx"}, map[], map["r" := ["-f", "f", "-F", "f"], "f" := ["x"]])
  }

  lemma TwoBasesRoot()
    ensures Read(TwoBases(), Visit("r", "w")) == Scanned([Visit("f", "w"), Visit("f", "d")], {"r", "f"})
  {
    var fs := TwoBases();
    var tokens := ["-f", "f", "-F", "f"];
    assert ItemAt(tokens, 0) == (Nested("f", false), 2) && ItemAt(tokens, 2) == (Nested("f", true), 2);
    assert Scan(fs, tokens, 4, "w") == Scanned([], {});
    assert Scan(fs, tokens, 2, "w") == Join(Scanned([Visit("f", "d")], {"f"}), Scanned([], {}));
    assert Scan(fs, tokens, 0, "w") == Scanned([Visit("f", "w"), Visit("f", "d")], {"f"});
  }

  lemma TwoBasesNested(base: Path)
    ensures Read(TwoBases(), Visit("f", base)) == Scanned([], {"f", if base == "w" then "wx" else "dx"})
  {
    var fs, file := TwoBases(), if base == "w" then "wx" else "dx";
    assert "-"[0] != "x"[0] && "+"[0] != "x"[0];
    PlainItem(["x"], 0);
    assert Added(fs, "x", base, false) == {file} && ["x"][1..] == [];
    assert AddedAll(fs, ["x"], base, false) == {file};
    assert Scan(fs, ["x"], 1, base) == Scanned([], {});
  }

  /** Without the condition a named file may be missed: here the stack visits f under its own directory only. */
  lemma TwoBasesMissAFile()
    ensures Named(TwoBases(), Visit("r", "w"), "wx") && !OneBase(TwoBases(), Visit("r", "w"))
    ensures "wx" !in Discovered(TwoBases(), "r", "w")
  {
    var fs, start, first, second := TwoBases(), Visit("r", "w"), Visit("f", "w"), Visit("f", "d");
    TwoBasesRoot();
    TwoBasesNested("w");
    StartIsReached(fs, start);
    assert first in Read(fs, start).nested && second in Read(fs, start).nested;
    NestedIsReached(fs, start, start, first);
    NestedIsReached(fs, start, start, second);
    assert first.base != second.base;
    TwoBasesSearch();
  }

  /** The search in the three rounds that it takes. */
  lemma TwoBasesSearch()
    ensures "wx" !in Discovered(TwoBases(), "r", "w")
  {
    TwoBasesFirst();
    TwoBasesSecond();
  }

  lemma TwoBasesFirst()
    ensures SearchBy(TwoBases(), LastIn(), [Visit("r", "w")], {}, {}) ==
            SearchBy(TwoBases(), LastIn(), [Visit("f", "w")] + [Visit("f", "d")], {"r"}, {"r", "f"})
  {
    var fs, start := TwoBases(), Visit("r", "w");
    TwoBasesRoot();
    Visited(fs, [], start, {}, {});
    assert {} + {"r"} == {"r"} && {} + {"r", "f"} == {"r", "f"} && [] + [start] == [start];
    assert [] + [Visit("f", "w"), Visit("f", "d")] == [Visit("f", "w")] + [Visit("f", "d")];
  }

  lemma TwoBasesSecond()
    ensures SearchBy(TwoBases(), LastIn(), [Visit("f", "w")] + [Visit("f", "d")], {"r"}, {"r", "f"}) == {"r", "f", "dx"}
  {
    var fs := TwoBases();
    TwoBasesNested("d");
    Visited(fs, [Visit("f", "w")], Visit("f", "d"), {"r"}, {"r", "f"});
    assert {"r"} + {"f"} == {"r", "f"} && {"r", "f"} + {"f", "dx"} == {"r", "f", "dx"};
    assert [Visit("f", "w")] + [] == [] + [Visit("f", "w")];
    Dropped(fs, [], Visit("f", "w"), {"r", "f"}, {"r", "f", "dx"});
  }

  lemma Visited(fs: FileSystem, rest: seq<Visit>, v: Visit, parsed: set<Path>, found: set<Path>)
    requires v.filelist !in parsed
    ensures SearchBy(fs, LastIn(), rest + [v], parsed, found) ==
              SearchBy(fs, LastIn(), rest + Read(fs, v).nested, parsed + {v.filelist}, found + Read(fs, v).found)
  {
    LastIsChosen(rest + [v], parsed);
    assert (rest + [v])[..|rest|] == rest;
  }

  lemma Dropped(fs: FileSystem, rest: seq<Visit>, v: Visit, parsed: set<Path>, found: set<Path>)
    requires v.filelist in parsed
    ensures SearchBy(fs, LastIn(), rest + [v], parsed, found) == SearchBy(fs, LastIn(), rest, parsed, found)
  {
    LastIsChosen(rest + [v], parsed);
    assert (rest + [v])[..|rest|] == rest;
  }
}
