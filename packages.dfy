/** What the two package managers (tsc/src/core/filesystem/package_manager.cpp
    and its older copy under smc/) share: the package record, the merge of a
    package's user and game copies, the cycle-safe dependency walk that
    builds the search path, and the candidate order of resource lookups.
    File existence is a set of existing paths. */
module Packages {
  import opened Common
  import opened Paths

  /** `PackageInfo`. */
  datatype PackageInfo = PackageInfo(
    name: String,
    userDataDir: String,
    gameDataDir: String,
    foundUser: bool,
    foundGame: bool,
    hidden: bool,
    desc: String,
    menuLevel: String,
    dependencies: seq<String>)

  /** The default-constructed `PackageInfo`. */
  const EmptyPackage := PackageInfo("", "", "", false, false, false, "", "", [])

  /** What parsing a package's `package.xml` gave, or `None` when the file
      is missing. */
  datatype PackageLoad = PackageLoad(dir: String, user: bool, info: Option<PackageInfo>)

  /** Every package is filed under its own name. */
  ghost predicate NamedByKey(packages: map<String, PackageInfo>)
  {
    forall k :: k in packages ==> packages[k].name == k
  }

  /** `Load_Package_Info` on the package map: a missing `package.xml` or
      an empty name is ignored; an entry is created for a new name; a
      second user (resp. game) copy is rejected; otherwise the copy's
      directory is recorded and its information merged. */
  function LoadPackageInfo(packages: map<String, PackageInfo>, load: PackageLoad): (r: map<String, PackageInfo>)
    ensures load.info.None? || load.info.value.name == [] ==> r == packages
    ensures load.info.Some? && load.info.value.name != [] ==>
      r.Keys == packages.Keys + {load.info.value.name}
      && forall k :: k in packages && k != load.info.value.name ==> r[k] == packages[k]
    ensures NamedByKey(packages) ==> NamedByKey(r)
  {
    if load.info.None? || load.info.value.name == [] then packages
    else
      var info := load.info.value;
      var the := if info.name in packages then packages[info.name] else EmptyPackage.(name := info.name);
      if (load.user && the.foundUser) || (!load.user && the.foundGame) then packages[info.name := the]
      else packages[info.name := Merge(the, info, load.dir, load.user)]
  }

  /** The merge of one accepted copy into the package record. */
  function Merge(the: PackageInfo, info: PackageInfo, dir: String, user: bool): (r: PackageInfo)
    ensures r.name == the.name
    ensures r.dependencies == the.dependencies + info.dependencies
  {
    var located := if user then the.(foundUser := true, userDataDir := dir)
                   else the.(foundGame := true, gameDataDir := dir);
    located.(
      hidden := if user then info.hidden else the.hidden && info.hidden,
      desc := if user || the.desc == [] then info.desc else the.desc,
      menuLevel := if user || the.menuLevel == [] then info.menuLevel else the.menuLevel,
      dependencies := the.dependencies + info.dependencies)
  }

  /** The loads of a package scan, in order. */
  function LoadAll(packages: map<String, PackageInfo>, loads: seq<PackageLoad>): (r: map<String, PackageInfo>)
    decreases |loads|
    ensures packages.Keys <= r.Keys
  {
    if loads == [] then packages else LoadAll(LoadPackageInfo(packages, loads[0]), loads[1..])
  }

  /** A user copy followed by a game copy of a new package: the user's
      hidden flag is ANDed with the game's, the user's description and menu
      level win over non-empty game values, the game's fill empty ones, and
      the user's dependencies come first. */
  lemma UserThenGameMerge(packages: map<String, PackageInfo>, n: String, u: PackageInfo, g: PackageInfo, ud: String, gd: String)
    requires n !in packages && n != [] && u.name == n && g.name == n
    ensures n in LoadAll(packages, [PackageLoad(ud, true, Some(u)), PackageLoad(gd, false, Some(g))])
    ensures var r := LoadAll(packages, [PackageLoad(ud, true, Some(u)), PackageLoad(gd, false, Some(g))])[n];
      && r.hidden == (u.hidden && g.hidden)
      && r.desc == (if u.desc == [] then g.desc else u.desc)
      && r.menuLevel == (if u.menuLevel == [] then g.menuLevel else u.menuLevel)
      && r.dependencies == u.dependencies + g.dependencies
      && r.userDataDir == ud && r.gameDataDir == gd
  {
    var loads := [PackageLoad(ud, true, Some(u)), PackageLoad(gd, false, Some(g))];
    var p1 := LoadPackageInfo(packages, loads[0]);
    var m1 := Merge(EmptyPackage.(name := n), u, ud, true);
    assert p1 == packages[n := m1];
    var p2 := LoadPackageInfo(p1, loads[1]);
    assert p2 == p1[n := Merge(m1, g, gd, false)];
    assert loads[1..][1..] == [];
    assert LoadAll(packages, loads) == LoadAll(p1, loads[1..]) == LoadAll(p2, []);
  }

  /** A package found only in the game directory is never hidden: its
      record starts with `hidden` false and a game copy can only AND into
      it. */
  lemma GameOnlyPackageNeverHidden(packages: map<String, PackageInfo>, n: String, g: PackageInfo, gd: String)
    requires n !in packages && n != [] && g.name == n
    ensures n in LoadAll(packages, [PackageLoad(gd, false, Some(g))])
    ensures !LoadAll(packages, [PackageLoad(gd, false, Some(g))])[n].hidden
  {
    var loads := [PackageLoad(gd, false, Some(g))];
    var p1 := LoadPackageInfo(packages, loads[0]);
    assert p1 == packages[n := Merge(EmptyPackage.(name := n), g, gd, false)];
    assert loads[1..] == [];
    assert LoadAll(packages, loads) == LoadAll(p1, []);
  }

  /** Once a user copy is recorded, further user copies change nothing;
      likewise for game copies. */
  lemma DuplicateCopyIgnored(packages: map<String, PackageInfo>, load: PackageLoad)
    requires load.info.Some? && load.info.value.name in packages
    requires var the := packages[load.info.value.name];
      (load.user && the.foundUser) || (!load.user && the.foundGame)
    ensures LoadPackageInfo(packages, load) == packages
  {
  }

  /** The names in `processed` as a set. */
  function Seen(processed: seq<String>): set<String>
  {
    set x | x in processed
  }

  /** The known packages not yet processed: the walk's termination measure. */
  function Unvisited(packages: map<String, PackageInfo>, processed: seq<String>): set<String>
  {
    packages.Keys - Seen(processed)
  }

  lemma UnvisitedShrinks(packages: map<String, PackageInfo>, processed: seq<String>, name: String)
    requires name in packages && name !in processed
    ensures |Unvisited(packages, processed + [name])| < |Unvisited(packages, processed)|
  {
    assert Seen(processed + [name]) == Seen(processed) + {name};
    assert Unvisited(packages, processed) == Unvisited(packages, processed + [name]) + {name};
  }

  lemma UnvisitedGrowth(packages: map<String, PackageInfo>, a: seq<String>, b: seq<String>)
    requires |a| <= |b| && b[..|a|] == a
    ensures |Unvisited(packages, b)| <= |Unvisited(packages, a)|
  {
    forall x | x in Seen(a) ensures x in Seen(b) {
      var i :| 0 <= i < |a| && a[i] == x;
      assert b[..|a|][i] == x;
    }
    assert Unvisited(packages, b) <= Unvisited(packages, a);
    SubsetCard(Unvisited(packages, b), Unvisited(packages, a));
  }

  lemma SubsetCard(a: set<String>, b: set<String>)
    requires a <= b
    ensures |a| <= |b|
  {
    assert b == a + (b - a);
  }

  predicate NoDuplicates(s: seq<String>)
  {
    forall i, j :: 0 <= i < j < |s| ==> s[i] != s[j]
  }

  /** The search path entries of the packages visited in this order:
      the user directory, then the game directory, of each. */
  function Dirs(packages: map<String, PackageInfo>, order: seq<String>): seq<String>
    requires forall x :: x in order ==> x in packages
  {
    if order == [] then []
    else [packages[order[0]].userDataDir, packages[order[0]].gameDataDir] + Dirs(packages, order[1..])
  }

  lemma DirsAppend(packages: map<String, PackageInfo>, a: seq<String>, b: seq<String>)
    requires forall x :: x in a + b ==> x in packages
    ensures Dirs(packages, a + b) == Dirs(packages, a) + Dirs(packages, b)
  {
    if a != [] {
      assert (a + b)[0] == a[0];
      assert (a + b)[1..] == a[1..] + b;
      DirsAppend(packages, a[1..], b);
    } else {
      assert a + b == b;
    }
  }

  /** The result of a walk: the search path entries it appended and the
      processed list after it. */
  datatype Walk = Walk(paths: seq<String>, processed: seq<String>)

  /** A walk only appends known, previously unprocessed packages, each once,
      and appends exactly their directories in visiting order. */
  ghost predicate GoodWalk(packages: map<String, PackageInfo>, processed: seq<String>, w: Walk)
  {
    && |processed| <= |w.processed| && w.processed[..|processed|] == processed
    && (forall x :: x in w.processed[|processed|..] ==> x in packages && x !in processed)
    && NoDuplicates(w.processed[|processed|..])
    && w.paths == Dirs(packages, w.processed[|processed|..])
  }

  /** `a` is a prefix of `b`. */
  predicate IsPrefix(a: seq<String>, b: seq<String>)
  {
    |a| <= |b| && b[..|a|] == a
  }

  lemma PrefixTransitive(a: seq<String>, b: seq<String>, c: seq<String>)
    requires IsPrefix(a, b) && IsPrefix(b, c)
    ensures IsPrefix(a, c)
  {
    assert c[..|a|] == c[..|b|][..|a|];
  }

  /** `Build_Search_Path_Helper`: skip a processed or unknown package;
      otherwise record it, append its user and game directories, and walk
      its dependencies in order. */
  function SearchWalk(packages: map<String, PackageInfo>, name: String, processed: seq<String>): (r: Walk)
    decreases |Unvisited(packages, processed)|, 0
    ensures IsPrefix(processed, r.processed)
  {
    if name in processed || name !in packages then
      Walk([], processed)
    else
      var info := packages[name];
      UnvisitedShrinks(packages, processed, name);
      var rest := SearchWalkAll(packages, info.dependencies, processed + [name]);
      PrefixTransitive(processed, processed + [name], rest.processed);
      Walk([info.userDataDir, info.gameDataDir] + rest.paths, rest.processed)
  }

  /** The dependency loop of `Build_Search_Path_Helper`. */
  function SearchWalkAll(packages: map<String, PackageInfo>, deps: seq<String>, processed: seq<String>): (r: Walk)
    decreases |Unvisited(packages, processed)|, 1, |deps|
    ensures IsPrefix(processed, r.processed)
  {
    if deps == [] then
      Walk([], processed)
    else
      var first := SearchWalk(packages, deps[0], processed);
      UnvisitedGrowth(packages, processed, first.processed);
      var rest := SearchWalkAll(packages, deps[1..], first.processed);
      PrefixTransitive(processed, first.processed, rest.processed);
      Walk(first.paths + rest.paths, rest.processed)
  }

  /** Every walk is good: it records only known packages not processed
      before, each once, and appends exactly their directories. */
  lemma {:induction false} SearchWalkGood(packages: map<String, PackageInfo>, name: String, processed: seq<String>)
    requires NoDuplicates(processed)
    decreases |Unvisited(packages, processed)|, 0
    ensures GoodWalk(packages, processed, SearchWalk(packages, name, processed))
    ensures NoDuplicates(SearchWalk(packages, name, processed).processed)
  {
    if name in processed || name !in packages {
      assert processed[|processed|..] == [];
    } else {
      var info := packages[name];
      UnvisitedShrinks(packages, processed, name);
      var rest := SearchWalkAll(packages, info.dependencies, processed + [name]);
      assert NoDuplicates(processed + [name]);
      SearchWalkAllGood(packages, info.dependencies, processed + [name]);
      WalkStep(packages, processed, name, rest);
    }
  }

  lemma {:induction false} SearchWalkAllGood(packages: map<String, PackageInfo>, deps: seq<String>, processed: seq<String>)
    requires NoDuplicates(processed)
    decreases |Unvisited(packages, processed)|, 1, |deps|
    ensures GoodWalk(packages, processed, SearchWalkAll(packages, deps, processed))
    ensures NoDuplicates(SearchWalkAll(packages, deps, processed).processed)
  {
    if deps == [] {
      assert processed[|processed|..] == [];
    } else {
      var first := SearchWalk(packages, deps[0], processed);
      SearchWalkGood(packages, deps[0], processed);
      UnvisitedGrowth(packages, processed, first.processed);
      var rest := SearchWalkAll(packages, deps[1..], first.processed);
      SearchWalkAllGood(packages, deps[1..], first.processed);
      WalkJoin(packages, processed, first, rest);
    }
  }

  /** A known, unprocessed package is visited first: its own user and
      game directories head the entries the walk appends. */
  lemma WalkStartsWithPackage(packages: map<String, PackageInfo>, name: String, processed: seq<String>)
    requires name in packages && name !in processed
    ensures var w := SearchWalk(packages, name, processed);
      && |w.processed| > |processed| && w.processed[|processed|] == name
      && |w.paths| >= 2 && w.paths[..2] == [packages[name].userDataDir, packages[name].gameDataDir]
  {
    var rest := SearchWalkAll(packages, packages[name].dependencies, processed + [name]);
    assert rest.processed[..|processed| + 1] == processed + [name];
    assert rest.processed[|processed|] == (processed + [name])[|processed|];
  }

  lemma SearchWalkUnfold(packages: map<String, PackageInfo>, name: String, processed: seq<String>)
    requires name in packages && name !in processed
    ensures var w := SearchWalkAll(packages, packages[name].dependencies, processed + [name]);
      SearchWalk(packages, name, processed) == Walk([packages[name].userDataDir, packages[name].gameDataDir] + w.paths, w.processed)
  {
  }

  lemma SearchWalkAllUnfold(packages: map<String, PackageInfo>, deps: seq<String>, processed: seq<String>)
    requires deps != []
    ensures var f := SearchWalk(packages, deps[0], processed);
      var w := SearchWalkAll(packages, deps[1..], f.processed);
      SearchWalkAll(packages, deps, processed) == Walk(f.paths + w.paths, w.processed)
  {
  }

  /** A processed or unknown package adds nothing. */
  lemma WalkSkips(packages: map<String, PackageInfo>, name: String, processed: seq<String>)
    requires name in processed || name !in packages
    ensures SearchWalk(packages, name, processed) == Walk([], processed)
  {
  }

  lemma WalkStep(packages: map<String, PackageInfo>, processed: seq<String>, name: String, rest: Walk)
    requires name in packages && name !in processed && NoDuplicates(processed)
    requires GoodWalk(packages, processed + [name], rest) && NoDuplicates(rest.processed)
    ensures GoodWalk(packages, processed,
      Walk([packages[name].userDataDir, packages[name].gameDataDir] + rest.paths, rest.processed))
  {
    var p1 := processed + [name];
    var tail := rest.processed[|p1|..];
    assert rest.processed[..|processed|] == processed by {
      assert rest.processed[..|processed|] == rest.processed[..|p1|][..|processed|];
    }
    assert rest.processed[|processed|..] == [name] + tail by {
      assert rest.processed[|processed|] == p1[|processed|];
    }
    assert [name] + tail == rest.processed[|processed|..];
    forall x | x in tail ensures x !in processed
    {
      assert x !in p1;
    }
    assert Dirs(packages, [name] + tail)
      == [packages[name].userDataDir, packages[name].gameDataDir] + Dirs(packages, tail) by {
      assert ([name] + tail)[1..] == tail;
    }
  }

  lemma WalkJoin(packages: map<String, PackageInfo>, processed: seq<String>, first: Walk, rest: Walk)
    requires GoodWalk(packages, processed, first)
    requires GoodWalk(packages, first.processed, rest)
    ensures GoodWalk(packages, processed, Walk(first.paths + rest.paths, rest.processed))
  {
    var a := first.processed[|processed|..];
    var b := rest.processed[|first.processed|..];
    assert rest.processed[..|processed|] == processed by {
      PrefixTransitive(processed, first.processed, rest.processed);
    }
    assert rest.processed[|processed|..] == a + b by {
      assert rest.processed == first.processed + b;
      assert first.processed == processed + a;
    }
    forall x | x in b ensures x !in processed
    {
      assert x !in first.processed;
    }
    assert NoDuplicates(a + b) by {
      forall i, j | 0 <= i < j < |a + b| ensures (a + b)[i] != (a + b)[j]
      {
        if j >= |a| && i < |a| {
          assert (a + b)[i] in first.processed;
          assert (a + b)[j] in b;
        }
      }
    }
    DirsAppend(packages, a, b);
  }

  /** The candidates probed for one search path entry: the plain path, then
      the extensions applied one after the other (each `replace_extension`
      acts on the previous candidate). */
  function ExtCandidates(p: String, exts: seq<String>): (r: seq<String>)
    decreases |exts|
    ensures |r| == |exts|
  {
    if exts == [] then []
    else var q := ReplaceExtension(p, exts[0]); [q] + ExtCandidates(q, exts[1..])
  }

  function EntryCandidates(entry: String, dir: String, resource: String, exts: seq<String>): (r: seq<String>)
    ensures |r| == |exts| + 1 && r[0] == JoinPath(JoinPath(entry, dir), resource)
  {
    var p := JoinPath(JoinPath(entry, dir), resource);
    [p] + ExtCandidates(p, exts)
  }

  /** Every candidate of `Find_Reading_Path`, in probing order. */
  function AllCandidates(searchPath: seq<String>, dir: String, resource: String, exts: seq<String>): seq<String>
  {
    if searchPath == [] then []
    else EntryCandidates(searchPath[0], dir, resource, exts) + AllCandidates(searchPath[1..], dir, resource, exts)
  }

  /** The first candidate that exists. */
  function FirstExisting(cands: seq<String>, existing: set<String>): (r: Option<String>)
    ensures r.Some? ==> r.value in existing && r.value in cands
    ensures r.Some? ==> exists i :: 0 <= i < |cands| && cands[i] == r.value
                                    && forall j :: 0 <= j < i ==> cands[j] !in existing
    ensures r.None? <==> forall c :: c in cands ==> c !in existing
  {
    if cands == [] then None
    else if cands[0] in existing then Some(cands[0])
    else
      var r := FirstExisting(cands[1..], existing);
      if r.Some? then
        var i :| 0 <= i < |cands[1..]| && cands[1..][i] == r.value
                 && forall j :: 0 <= j < i ==> cands[1..][j] !in existing;
        assert cands[i + 1] == r.value;
        r
      else
        assert forall c :: c in cands ==> c == cands[0] || c in cands[1..];
        r
  }

  lemma FirstExistingAppend(a: seq<String>, b: seq<String>, existing: set<String>)
    ensures FirstExisting(a + b, existing) ==
      if FirstExisting(a, existing).Some? then FirstExisting(a, existing) else FirstExisting(b, existing)
  {
    if a != [] {
      assert (a + b)[0] == a[0];
      assert (a + b)[1..] == a[1..] + b;
      FirstExistingAppend(a[1..], b, existing);
    } else {
      assert a + b == b;
    }
  }

  /** The probe of one search path entry in `Find_Reading_Path`: the plain
      path, then each extension in turn. `path` is the last path tried. */
  method ProbeEntry(entry: String, dir: String, resource: String, exts: seq<String>, existing: set<String>)
    returns (found: bool, path: String)
    ensures var cands := EntryCandidates(entry, dir, resource, exts);
      && (found ==> FirstExisting(cands, existing) == Some(path))
      && (!found ==> FirstExisting(cands, existing).None? && path == cands[|cands| - 1])
  {
    path := JoinPath(JoinPath(entry, dir), resource);
    ghost var cands := EntryCandidates(entry, dir, resource, exts);
    if path in existing {
      FirstExistingPrefix(cands, existing, 0);
      return true, path;
    }
    var j := 0;
    while j < |exts|
      invariant 0 <= j <= |exts|
      invariant path == cands[j]
      invariant forall k :: 0 <= k <= j ==> cands[k] !in existing
      invariant ExtCandidates(cands[0], exts)[j..] == ExtCandidates(path, exts[j..])
    {
      ExtCandidatesStep(path, exts[j..]);
      assert exts[j..][0] == exts[j] && exts[j..][1..] == exts[j + 1..];
      path := ReplaceExtension(path, exts[j]);
      assert cands[j + 1] == ExtCandidates(cands[0], exts)[j];
      if path in existing {
        FirstExistingPrefix(cands, existing, j + 1);
        return true, path;
      }
      j := j + 1;
    }
    assert forall c :: c in cands ==> c !in existing by {
      forall c | c in cands ensures c !in existing {
        var k :| 0 <= k < |cands| && cands[k] == c;
      }
    }
    found := false;
  }

  lemma ExtCandidatesStep(p: String, exts: seq<String>)
    requires exts != []
    ensures ExtCandidates(p, exts)[0] == ReplaceExtension(p, exts[0])
    ensures ExtCandidates(p, exts)[1..] == ExtCandidates(ReplaceExtension(p, exts[0]), exts[1..])
  {
  }

  lemma FirstExistingPrefix(cands: seq<String>, existing: set<String>, i: nat)
    requires i < |cands| && cands[i] in existing
    requires forall k :: 0 <= k < i ==> cands[k] !in existing
    ensures FirstExisting(cands, existing) == Some(cands[i])
  {
    if i > 0 {
      FirstExistingPrefix(cands[1..], existing, i - 1);
    }
  }

  /** The last candidate `Find_Reading_Path` tries (the empty path for an
      empty search path). */
  function LastCandidate(searchPath: seq<String>, dir: String, resource: String, exts: seq<String>): String
  {
    if searchPath == [] then []
    else
      var cands := EntryCandidates(searchPath[|searchPath| - 1], dir, resource, exts);
      cands[|cands| - 1]
  }

  /** The level directory below a data directory. */
  function LevelDir(dataDir: String): String
  {
    JoinPath(dataDir, "levels")
  }

  /** The level directories `Get_Menu_Level_Path` probes: those of the
      current package (user, game) and the global ones (user, game). */
  datatype LevelDirs = LevelDirs(packageUser: String, packageGame: String, globalUser: String, globalGame: String)

  /** The probes of `Get_Menu_Level_Path` before its final fallback: the
      preferred menu level in all four level directories, then the
      package's menu level in the package directories, then the default in
      the global user directory. */
  function MenuLevelProbes(ext: String, preferred: String, packageLevel: String, defaultLevel: String, d: LevelDirs): seq<String>
  {
    (if preferred != [] then
       var l := preferred + ext;
       [JoinPath(d.packageUser, l), JoinPath(d.packageGame, l), JoinPath(d.globalUser, l), JoinPath(d.globalGame, l)]
     else [])
    + (if packageLevel != [] then
         var l := packageLevel + ext;
         [JoinPath(d.packageUser, l), JoinPath(d.packageGame, l)]
       else [])
    + [JoinPath(d.globalUser, defaultLevel + ext)]
  }

  /** `Get_Menu_Level_Path`: `packageLevel` is the current package's menu
      level ("" without a current package). When no probe exists the
      default in the global game directory is returned unprobed. */
  function MenuLevelPath(ext: String, preferred: String, packageLevel: String, defaultLevel: String,
                         d: LevelDirs, existing: set<String>): (r: String)
    ensures r == match FirstExisting(MenuLevelProbes(ext, preferred, packageLevel, defaultLevel, d), existing)
      case Some(p) => p
      case None => JoinPath(d.globalGame, defaultLevel + ext)
  {
    var pl := preferred + ext;
    var kl := packageLevel + ext;
    var dl := defaultLevel + ext;
    var a := if preferred != [] then [JoinPath(d.packageUser, pl), JoinPath(d.packageGame, pl), JoinPath(d.globalUser, pl), JoinPath(d.globalGame, pl)] else [];
    var b := if packageLevel != [] then [JoinPath(d.packageUser, kl), JoinPath(d.packageGame, kl)] else [];
    FirstExistingAppend(a, b + [JoinPath(d.globalUser, dl)], existing);
    FirstExistingAppend(b, [JoinPath(d.globalUser, dl)], existing);
    assert MenuLevelProbes(ext, preferred, packageLevel, defaultLevel, d) == a + (b + [JoinPath(d.globalUser, dl)]);
    if preferred != [] && JoinPath(d.packageUser, pl) in existing then JoinPath(d.packageUser, pl)
    else if preferred != [] && JoinPath(d.packageGame, pl) in existing then JoinPath(d.packageGame, pl)
    else if preferred != [] && JoinPath(d.globalUser, pl) in existing then
      FirstExistingPrefix(a, existing, 2); JoinPath(d.globalUser, pl)
    else if preferred != [] && JoinPath(d.globalGame, pl) in existing then
      FirstExistingPrefix(a, existing, 3); JoinPath(d.globalGame, pl)
    else if packageLevel != [] && JoinPath(d.packageUser, kl) in existing then JoinPath(d.packageUser, kl)
    else if packageLevel != [] && JoinPath(d.packageGame, kl) in existing then JoinPath(d.packageGame, kl)
    else if JoinPath(d.globalUser, dl) in existing then JoinPath(d.globalUser, dl)
    else JoinPath(d.globalGame, dl)
  }
}
