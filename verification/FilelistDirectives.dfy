/** What a simulator filelist says, directive by directive, and that reading its tokens finds exactly that. Every token
    list is a list of directives. */
module FilelistDirectives {
  import opened Sorting
  import opened Filelist
  import opened FilelistBases

  datatype Directive =
    | Include(flag: string, name: string)         // -f or -file: names in it count from this filelist's base
    | IncludeInline(name: string)                 // -file=
    | IncludeOwnBase(name: string)                // -F: names in it count from its own directory
    | IncludeDirectories(names: seq<string>)      // +incdir+, between plus signs; empty names say nothing
    | IncludeDirectory(name: string)              // -incdir
    | LibraryFile(name: string)                   // -v
    | LibraryDirectory(name: string)              // -y
    | File(name: string)
    | Switch(token: string)                       // any other option
    | Dangling(flag: string)                      // the last token, which lacks its argument

  predicate NoPlus(name: string) {
    '+' !in name
  }

  predicate TakesArgument(token: string) {
    token in {"-f", "-file", "-F", "-incdir", "-v", "-y"}
  }

  predicate WellFormed(d: Directive) {
    match d
    case Include(flag, _) => flag in {"-f", "-file"}
    case IncludeDirectories(names) => names != [] && forall i | 0 <= i < |names| :: NoPlus(names[i])
    case File(name) => Plain(name)
    case Switch(token) => !Plain(token) && !TakesArgument(token) && !("-file=" <= token) && !("+incdir+" <= token)
    case Dangling(flag) => TakesArgument(flag)
    case _ => true
  }

  ghost predicate AllWellFormed(ds: seq<Directive>) {
    forall i | 0 <= i < |ds| :: WellFormed(ds[i]) && (ds[i].Dangling? ==> i == |ds| - 1)
  }

  // ----- What directives look like -----

  function Joined(names: seq<string>): string {
    if names == [] then "" else if |names| == 1 then names[0] else names[0] + "+" + Joined(names[1..])
  }

  function Rendered(d: Directive): (tokens: seq<string>)
    ensures 1 <= |tokens| <= 2
  {
    match d
    case Include(flag, name) => [flag, name]
    case IncludeInline(name) => ["-file=" + name]
    case IncludeOwnBase(name) => ["-F", name]
    case IncludeDirectories(names) => ["+incdir+" + Joined(names)]
    case IncludeDirectory(name) => ["-incdir", name]
    case LibraryFile(name) => ["-v", name]
    case LibraryDirectory(name) => ["-y", name]
    case File(name) => [name]
    case Switch(token) => [token]
    case Dangling(flag) => [flag]
  }

  function RenderedAll(ds: seq<Directive>): seq<string> {
    if ds == [] then [] else Rendered(ds[0]) + RenderedAll(ds[1..])
  }

  // ----- What directives say -----

  /** The file of that name, if there is one. */
  function FileOf(fs: FileSystem, name: string, base: Path): set<Path> {
    if fs.resolve(name, base) in fs.files then {fs.resolve(name, base)} else {}
  }

  /** The file of that name, or else every file below the directory of that name. */
  function FilesBelow(fs: FileSystem, name: string, base: Path): set<Path> {
    var path := fs.resolve(name, base);
    if path in fs.files then {path} else if path in fs.directories then fs.directories[path] else {}
  }

  function FilesOf(fs: FileSystem, d: Directive, base: Path): set<Path> {
    match d
    case Include(_, name) => FileOf(fs, name, base)
    case IncludeInline(name) => FileOf(fs, name, base)
    case IncludeOwnBase(name) => FileOf(fs, name, base)
    case IncludeDirectories(names) =>
      set i, x | 0 <= i < |names| && names[i] != "" && x in FilesBelow(fs, names[i], base) :: x
    case IncludeDirectory(name) => FilesBelow(fs, name, base)
    case LibraryFile(name) => FileOf(fs, name, base)
    case LibraryDirectory(name) => FilesBelow(fs, name, base)
    case File(name) => FileOf(fs, name, base)
    case Switch(_) => {}
    case Dangling(_) => {}
  }

  function VisitsOf(fs: FileSystem, d: Directive, base: Path): seq<Visit> {
    match d
    case Include(_, name) => [Visit(fs.resolve(name, base), base)]
    case IncludeInline(name) => [Visit(fs.resolve(name, base), base)]
    case IncludeOwnBase(name) => [Visit(fs.resolve(name, base), fs.dirname(fs.resolve(name, base)))]
    case _ => []
  }

  function AllFiles(fs: FileSystem, ds: seq<Directive>, base: Path): set<Path> {
    set i, x | 0 <= i < |ds| && x in FilesOf(fs, ds[i], base) :: x
  }

  function AllVisits(fs: FileSystem, ds: seq<Directive>, base: Path): seq<Visit> {
    if ds == [] then [] else VisitsOf(fs, ds[0], base) + AllVisits(fs, ds[1..], base)
  }

  // ----- The pieces between plus signs -----

  lemma {:induction false} PieceEnds(name: string, rest: string, piece: string)
    requires NoPlus(name)
    ensures Pieces(name + rest, piece) == Pieces(rest, piece + name)
    decreases |name|
  {
    if name == "" {
      assert name + rest == rest && piece + name == piece;
    } else {
      assert name[0] != '+' && NoPlus(name[1..]);
      assert (name + rest)[0] == name[0] && (name + rest)[1..] == name[1..] + rest;
      PieceEnds(name[1..], rest, piece + [name[0]]);
      assert piece + [name[0]] + name[1..] == piece + name;
    }
  }

  function NonEmpty(names: seq<string>): seq<string> {
    if names == [] then [] else (if names[0] == "" then [] else [names[0]]) + NonEmpty(names[1..])
  }

  lemma {:induction false} PiecesOfJoined(names: seq<string>)
    requires names != [] && forall i | 0 <= i < |names| :: NoPlus(names[i])
    ensures Pieces(Joined(names), "") == NonEmpty(names)
    decreases |names|
  {
    assert "" + names[0] == names[0] && NonEmpty(names[1..][..0]) == [];
    if |names| == 1 {
      assert names[0] + "" == names[0];
      PieceEnds(names[0], "", "");
      assert names[1..] == [];
    } else {
      var rest := "+" + Joined(names[1..]);
      assert Joined(names) == names[0] + rest;
      PieceEnds(names[0], rest, "");
      assert rest[0] == '+' && rest[1..] == Joined(names[1..]);
      PiecesOfJoined(names[1..]);
    }
  }

  lemma {:induction false} NonEmptyAdds(fs: FileSystem, names: seq<string>, base: Path)
    ensures AddedAll(fs, NonEmpty(names), base, true)
         == set i, x | 0 <= i < |names| && names[i] != "" && x in FilesBelow(fs, names[i], base) :: x
    decreases |names|
  {
    if names != [] {
      var rest := names[1..];
      NonEmptyAdds(fs, rest, base);
      var now := if names[0] == "" then {} else FilesBelow(fs, names[0], base);
      AddedCons(fs, names, base);
      var later := set i, x | 0 <= i < |rest| && rest[i] != "" && x in FilesBelow(fs, rest[i], base) :: x;
      UnionCons(fs, names, base, now, later);
    }
  }

  lemma AddedCons(fs: FileSystem, names: seq<string>, base: Path)
    requires names != []
    ensures AddedAll(fs, NonEmpty(names), base, true)
         == (if names[0] == "" then {} else FilesBelow(fs, names[0], base)) + AddedAll(fs, NonEmpty(names[1..]), base, true)
  {
    if names[0] != "" {
      assert NonEmpty(names)[0] == names[0] && NonEmpty(names)[1..] == NonEmpty(names[1..]);
      assert Added(fs, names[0], base, true) == FilesBelow(fs, names[0], base);
    } else {
      assert NonEmpty(names) == NonEmpty(names[1..]);
    }
  }

  lemma UnionCons(fs: FileSystem, names: seq<string>, base: Path, now: set<Path>, later: set<Path>)
    requires names != [] && now == if names[0] == "" then {} else FilesBelow(fs, names[0], base)
    requires forall x :: x in later <==> exists i :: 0 <= i < |names| - 1 && names[1..][i] != "" && x in FilesBelow(fs, names[1..][i], base)
    ensures now + later == set i, x | 0 <= i < |names| && names[i] != "" && x in FilesBelow(fs, names[i], base) :: x
  {
    var all := set i, x | 0 <= i < |names| && names[i] != "" && x in FilesBelow(fs, names[i], base) :: x;
    forall x
      ensures x in now + later <==> x in all
    {
      if x in later {
        var i :| 0 <= i < |names| - 1 && names[1..][i] != "" && x in FilesBelow(fs, names[1..][i], base);
        assert names[i + 1] == names[1..][i];
      }
      if x in all {
        var i :| 0 <= i < |names| && names[i] != "" && x in FilesBelow(fs, names[i], base);
        assert i > 0 ==> names[1..][i - 1] == names[i];
      }
    }
  }

  // ----- One directive -----

  /** The item that a directive is read as. */
  function ItemOf(d: Directive): Item {
    match d
    case Include(_, name) => Nested(name, false)
    case IncludeInline(name) => Nested(name, false)
    case IncludeOwnBase(name) => Nested(name, true)
    case IncludeDirectories(names) => Names(NonEmpty(names), true)
    case IncludeDirectory(name) => Names([name], true)
    case LibraryFile(name) => Names([name], false)
    case LibraryDirectory(name) => Names([name], true)
    case File(name) => Names([name], false)
    case Switch(_) => Names([], false)
    case Dangling(_) => Names([], false)
  }

  lemma PairRead(d: Directive, rest: seq<string>)
    requires WellFormed(d) && |Rendered(d)| == 2
    ensures ItemAt(Rendered(d) + rest, 0) == (ItemOf(d), 2)
  {
    var tokens := Rendered(d) + rest;
    assert tokens[0] == Rendered(d)[0] && tokens[1] == Rendered(d)[1];
    assert tokens[0] == "-incdir" || tokens[0] == "-v" || tokens[0] == "-y" ==>
             !("-file=" <= tokens[0]) && !("+incdir+" <= tokens[0]) by {
      assert "-file="[1] == 'f' && "-incdir"[1] == 'i' && "-v"[1] == 'v' && "-y"[1] == 'y' && "+incdir+"[0] == '+';
    }
  }

  lemma InlineRead(name: string, rest: seq<string>)
    ensures ItemAt(["-file=" + name] + rest, 0) == (Nested(name, false), 1)
  {
    var token := "-file=" + name;
    assert (["-file=" + name] + rest)[0] == token && token[6..] == name && "-file=" <= token;
    assert |token| >= 6 && |"-f"| < 6 && |"-file"| < 6 && |"-F"| < 6;
  }

  lemma DirectoriesRead(names: seq<string>, rest: seq<string>)
    requires WellFormed(IncludeDirectories(names))
    ensures ItemAt(["+incdir+" + Joined(names)] + rest, 0) == (Names(NonEmpty(names), true), 1)
  {
    var token := "+incdir+" + Joined(names);
    assert (["+incdir+" + Joined(names)] + rest)[0] == token && token[8..] == Joined(names) && "+incdir+" <= token;
    assert token[0] == '+' && "-f"[0] == "-file"[0] == "-F"[0] == "-file="[0] == '-';
    PiecesOfJoined(names);
  }

  lemma SwitchRead(token: string, rest: seq<string>)
    requires WellFormed(Switch(token))
    ensures ItemAt([token] + rest, 0) == (Names([], false), 1)
  {
  }

  lemma DanglingRead(flag: string)
    requires TakesArgument(flag)
    ensures ItemAt([flag] + [], 0) == (Names([], false), 1)
  {
    assert [flag] + [] == [flag];
    assert |flag| < 8 && (|flag| == 7 ==> flag[1] == 'i') && "-file="[1] == 'f' && "-" <= flag;
  }

  lemma DirectiveRead(d: Directive, rest: seq<string>)
    requires WellFormed(d) && (d.Dangling? ==> rest == [])
    ensures ItemAt(Rendered(d) + rest, 0) == (ItemOf(d), |Rendered(d)|)
  {
    match d {
      case IncludeInline(name) => InlineRead(name, rest);
      case IncludeDirectories(names) => DirectoriesRead(names, rest);
      case File(name) => PlainItem([name] + rest, 0);
      case Switch(token) => SwitchRead(token, rest);
      case Dangling(flag) => DanglingRead(flag);
      case _ => PairRead(d, rest);
    }
  }

  lemma ItemSays(fs: FileSystem, d: Directive, base: Path)
    requires WellFormed(d)
    ensures Contribution(fs, ItemOf(d), base) == Scanned(VisitsOf(fs, d, base), FilesOf(fs, d, base))
  {
    match d {
      case IncludeDirectories(names) => NonEmptyAdds(fs, names, base);
      case IncludeDirectory(name) => OneName(fs, name, base, true);
      case LibraryFile(name) => OneName(fs, name, base, false);
      case LibraryDirectory(name) => OneName(fs, name, base, true);
      case File(name) => OneName(fs, name, base, false);
      case _ =>
    }
  }

  lemma OneName(fs: FileSystem, name: string, base: Path, includeDirectory: bool)
    ensures AddedAll(fs, [name], base, includeDirectory) ==
            if includeDirectory then FilesBelow(fs, name, base) else FileOf(fs, name, base)
  {
    assert [name][1..] == [];
  }

  // ----- All directives -----

  /** Reading the tokens of any list of directives finds exactly what the directives say. */
  lemma {:induction false} ScanMeans(fs: FileSystem, ds: seq<Directive>, base: Path)
    requires AllWellFormed(ds)
    ensures Scan(fs, RenderedAll(ds), 0, base) == Scanned(AllVisits(fs, ds, base), AllFiles(fs, ds, base))
    decreases |ds|
  {
    if ds != [] {
      var d, rest := ds[0], RenderedAll(ds[1..]);
      assert forall i | 0 <= i < |ds| - 1 :: ds[1..][i] == ds[i + 1];
      ScanMeans(fs, ds[1..], base);
      DirectiveRead(d, rest);
      ItemSays(fs, d, base);
      ScanShifts(fs, Rendered(d), rest, 0, base);
      FilesCons(fs, ds, base);
    }
  }

  lemma FilesCons(fs: FileSystem, ds: seq<Directive>, base: Path)
    requires ds != []
    ensures AllFiles(fs, ds, base) == FilesOf(fs, ds[0], base) + AllFiles(fs, ds[1..], base)
  {
    forall x
      ensures x in AllFiles(fs, ds, base) <==> x in FilesOf(fs, ds[0], base) + AllFiles(fs, ds[1..], base)
    {
      if x in AllFiles(fs, ds, base) {
        var i :| 0 <= i < |ds| && x in FilesOf(fs, ds[i], base);
        assert i > 0 ==> ds[1..][i - 1] == ds[i];
      }
      if x in AllFiles(fs, ds[1..], base) {
        var i :| 0 <= i < |ds| - 1 && x in FilesOf(fs, ds[1..][i], base);
        assert ds[i + 1] == ds[1..][i];
      }
    }
  }

  /** Visiting a filelist of directives: it finds the filelist itself and what the directives say; a filelist that is no
      file says nothing, and one whose quoting is broken only itself. */
  lemma ReadMeans(fs: FileSystem, v: Visit, ds: seq<Directive>)
    requires v.filelist in fs.tokens ==> AllWellFormed(ds) && fs.tokens[v.filelist] == RenderedAll(ds)
    ensures Read(fs, v) ==
            if v.filelist !in fs.files then Scanned([], {})
            else if v.filelist !in fs.tokens then Scanned([], {v.filelist})
            else Scanned(AllVisits(fs, ds, v.base), {v.filelist} + AllFiles(fs, ds, v.base))
  {
    if v.filelist in fs.tokens {
      ScanMeans(fs, ds, v.base);
    }
  }

  // ----- Every token list is a list of directives -----

  lemma {:induction false} SplitAtPlus(text: string) returns (names: seq<string>)
    ensures names != [] && (forall i | 0 <= i < |names| :: NoPlus(names[i])) && Joined(names) == text
  {
    if text == "" {
      names := [""];
    } else {
      var rest := SplitAtPlus(text[1..]);
      if text[0] == '+' {
        names := [""] + rest;
        assert names[1..] == rest;
        assert Joined(names) == "" + "+" + Joined(rest) == text;
      } else {
        names := [[text[0]] + rest[0]] + rest[1..];
        assert names[1..] == rest[1..];
        assert Joined(names) == [text[0]] + Joined(rest) == text;
      }
    }
  }

  /** The first directive of a token list. */
  lemma FirstDirective(tokens: seq<string>) returns (d: Directive)
    requires tokens != []
    ensures WellFormed(d) && Rendered(d) <= tokens && (d.Dangling? ==> |tokens| == 1)
  {
    var token := tokens[0];
    if TakesArgument(token) {
      d := if |tokens| == 1 then Dangling(token)
           else if token == "-F" then IncludeOwnBase(tokens[1])
           else if token == "-incdir" then IncludeDirectory(tokens[1])
           else if token == "-v" then LibraryFile(tokens[1])
           else if token == "-y" then LibraryDirectory(tokens[1])
           else Include(token, tokens[1]);
    } else if "-file=" <= token {
      assert token == "-file=" + token[6..];
      d := IncludeInline(token[6..]);
    } else if "+incdir+" <= token {
      var names := SplitAtPlus(token[8..]);
      assert token == "+incdir+" + token[8..];
      d := IncludeDirectories(names);
    } else {
      d := if Plain(token) then File(token) else Switch(token);
    }
  }

  lemma NothingRendered(ds: seq<Directive>)
    requires RenderedAll(ds) == []
    ensures ds == []
  {
  }

  lemma {:induction false} EveryListIsRendered(tokens: seq<string>) returns (ds: seq<Directive>)
    ensures AllWellFormed(ds) && RenderedAll(ds) == tokens
    decreases |tokens|
  {
    if tokens == [] {
      ds := [];
    } else {
      var d := FirstDirective(tokens);
      var n := |Rendered(d)|;
      var rest := EveryListIsRendered(tokens[n..]);
      if d.Dangling? {
        NothingRendered(rest);
      }
      ds := [d] + rest;
      Prepended(d, rest);
      assert tokens == tokens[..n] + tokens[n..];
    }
  }

  lemma Prepended(d: Directive, rest: seq<Directive>)
    requires WellFormed(d) && AllWellFormed(rest) && (d.Dangling? ==> rest == [])
    ensures AllWellFormed([d] + rest) && RenderedAll([d] + rest) == Rendered(d) + RenderedAll(rest)
  {
    assert ([d] + rest)[1..] == rest;
  }
}
