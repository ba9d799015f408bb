/** The package manager of TSC (tsc/src/core/filesystem/package_manager.cpp):
    the map of known packages, the current package, and the search path
    built from them. Directory scanning, XML parsing and directory creation
    are outside the model; existing files are a set of paths. */
module PackageManager {
  import opened Common
  import opened Paths
  import opened Packages

  /** Packages sorted strictly by name, so each name appears once. */
  predicate SortedByName(ps: seq<PackageInfo>)
  {
    forall i, j :: 0 <= i < j < |ps| ==> Less(ps[i].name, ps[j].name)
  }

  /** Inserting a package with a new name into a sorted list. */
  function InsertByName(ps: seq<PackageInfo>, p: PackageInfo): (r: seq<PackageInfo>)
    requires SortedByName(ps) && forall q :: q in ps ==> q.name != p.name
    ensures SortedByName(r) && |r| == |ps| + 1
    ensures forall q :: q in r <==> q in ps || q == p
  {
    if ps == [] then [p]
    else if Less(p.name, ps[0].name) then
      forall k | 0 < k < |ps| ensures Less(p.name, ps[k].name) {
        LessTransitive(p.name, ps[0].name, ps[k].name);
      }
      [p] + ps
    else
      LessTotal(p.name, ps[0].name);
      var rest := InsertByName(ps[1..], p);
      forall k | 0 <= k < |rest| ensures Less(ps[0].name, rest[k].name) {
        assert rest[k] in rest;
        if rest[k] != p {
          var j :| 0 <= j < |ps[1..]| && ps[1..][j] == rest[k];
          assert ps[j + 1] == rest[k];
        }
      }
      [ps[0]] + rest
  }

  class PackageManager {
    /** `m_packages` */
    var packages: map<String, PackageInfo>
    /** `m_current_package` ("" for none) */
    var currentPackage: String
    /** `m_search_path` */
    var searchPath: seq<String>
    /** `m_package_start`: where the entries of the current package begin */
    var packageStart: nat
    /** The resource manager's global user and game data directories. */
    const userDataDir: String
    const gameDataDir: String

    /** Every package is filed under its own name, and the current package
        is empty or known. */
    ghost predicate Valid()
      reads this
    {
      NamedByKey(packages) && (currentPackage == [] || currentPackage in packages)
    }

    /** The constructor scans the user packages, then the game packages;
        `loads` are the `Load_Package_Info` calls of that scan in order. */
    constructor (userDataDir: String, gameDataDir: String, loads: seq<PackageLoad>)
      ensures Valid()
      ensures packages == LoadAll(map[], loads) && currentPackage == [] && searchPath == []
      ensures this.userDataDir == userDataDir && this.gameDataDir == gameDataDir
    {
      this.userDataDir := userDataDir;
      this.gameDataDir := gameDataDir;
      packages := map[];
      currentPackage := [];
      searchPath := [];
      packageStart := 0;
      new;
      var i := 0;
      while i < |loads|
        invariant 0 <= i <= |loads|
        invariant LoadAll(packages, loads[i..]) == LoadAll(map[], loads)
        invariant NamedByKey(packages) && currentPackage == [] && searchPath == []
      {
        assert loads[i..][1..] == loads[i + 1..];
        LoadPackage(loads[i]);
        i := i + 1;
      }
    }

    /** `Load_Package_Info`. */
    method LoadPackage(load: PackageLoad)
      requires NamedByKey(packages)
      modifies this`packages
      ensures packages == LoadPackageInfo(old(packages), load)
    {
      if load.info.None? {
        return;
      }
      var info := load.info.value;
      if info.name == [] {
        return;
      }
      if info.name !in packages {
        packages := packages[info.name := EmptyPackage.(name := info.name)];
      }
      var the := packages[info.name];
      if load.user && the.foundUser {
        return;
      }
      if !load.user && the.foundGame {
        return;
      }
      the := MergeCopy(the, info, load.dir, load.user);
      packages := packages[info.name := the];
    }

    /** The part of `Load_Package_Info` that records an accepted copy's
        directory and merges its information into the package record. */
    static method MergeCopy(the: PackageInfo, info: PackageInfo, dir: String, user: bool) returns (r: PackageInfo)
      ensures r == Merge(the, info, dir, user)
    {
      r := the;
      if user {
        r := r.(foundUser := true, userDataDir := dir);
      } else {
        r := r.(foundGame := true, gameDataDir := dir);
      }
      if user {
        r := r.(hidden := info.hidden);
      } else {
        r := r.(hidden := r.hidden && info.hidden);
      }
      if user || r.desc == [] {
        r := r.(desc := info.desc);
      }
      if user || r.menuLevel == [] {
        r := r.(menuLevel := info.menuLevel);
      }
      r := r.(dependencies := r.dependencies + info.dependencies);
    }

    /** `Get_Packages`: every known package once, sorted by name (the map
        is walked and the copies sorted; the model inserts in order). */
    method GetPackages() returns (r: seq<PackageInfo>)
      requires Valid()
      ensures SortedByName(r) && |r| == |packages|
      ensures forall p :: p in r <==> p.name in packages && packages[p.name] == p
    {
      var keys := packages.Keys;
      r := [];
      while keys != {}
        invariant keys <= packages.Keys
        invariant SortedByName(r) && |r| + |keys| == |packages|
        invariant forall p :: p in r <==> p.name in packages.Keys - keys && packages[p.name] == p
        decreases |keys|
      {
        var k :| k in keys;
        r := InsertByName(r, packages[k]);
        keys := keys - {k};
      }
    }

    /** `Get_Package`: the record of a known package, else the empty one. */
    function GetPackage(name: String): (r: PackageInfo)
      reads this
      requires Valid()
      ensures name in packages ==> r == packages[name] && r.name == name
      ensures name !in packages ==> r == EmptyPackage
    {
      if name in packages then packages[name] else EmptyPackage
    }

    /** `Set_Current_Package`: an unknown name selects no package; the
        search path is then rebuilt for the preferences' `skin`. */
    method SetCurrentPackage(name: String, skin: String)
      requires Valid()
      modifies this`currentPackage, this`searchPath, this`packageStart
      ensures Valid()
      ensures currentPackage == if name in packages then name else []
      ensures SearchPathBuilt(skin)
    {
      if name !in packages {
        currentPackage := [];
      } else {
        currentPackage := name;
      }
      BuildSearchPath(skin);
    }

    /** The search path `Build_Search_Path` produces: the walk of the skin
        package, `packageStart` entries long, then the walk of the current
        package, then the global user and game data directories. */
    ghost predicate SearchPathBuilt(skin: String)
      reads this
    {
      var skinPart := if skin == [] then [] else SearchWalk(packages, skin, []).paths;
      var packagePart := if currentPackage == [] then [] else SearchWalk(packages, currentPackage, []).paths;
      && searchPath == skinPart + packagePart + [userDataDir, gameDataDir]
      && packageStart == |skinPart|
    }

    /** `Build_Search_Path`. */
    method BuildSearchPath(skin: String)
      modifies this`searchPath, this`packageStart
      ensures SearchPathBuilt(skin)
      ensures packageStart + 2 <= |searchPath|
    {
      ghost var skinPart := if skin == [] then [] else SearchWalk(packages, skin, []).paths;
      ghost var packagePart := if currentPackage == [] then [] else SearchWalk(packages, currentPackage, []).paths;
      searchPath := [];
      packageStart := 0;
      if skin != [] {
        var _ := BuildSearchPathHelper(skin, []);
        assert [] + skinPart == skinPart;
        packageStart := |searchPath|;
      }
      assert searchPath == skinPart;
      if currentPackage != [] {
        var _ := BuildSearchPathHelper(currentPackage, []);
      }
      assert searchPath == skinPart + packagePart;
      searchPath := searchPath + [userDataDir, gameDataDir];
    }

    /** `Build_Search_Path_Helper`: appends the walk from `name`. */
    method BuildSearchPathHelper(name: String, processed: seq<String>) returns (processedOut: seq<String>)
      modifies this`searchPath
      decreases |Unvisited(packages, processed)|, 0
      ensures searchPath == old(searchPath) + SearchWalk(packages, name, processed).paths
      ensures processedOut == SearchWalk(packages, name, processed).processed
    {
      if name in processed {
        WalkSkips(packages, name, processed);
        return processed;
      }
      if name !in packages {
        WalkSkips(packages, name, processed);
        return processed;
      }
      var info := packages[name];
      ghost var w := SearchWalkAll(packages, info.dependencies, processed + [name]);
      SearchWalkUnfold(packages, name, processed);
      UnvisitedShrinks(packages, processed, name);
      ghost var path0 := searchPath;
      searchPath := searchPath + [info.userDataDir, info.gameDataDir];
      processedOut := WalkDependencies(info.dependencies, processed + [name]);
      AppendAssoc(path0, [info.userDataDir, info.gameDataDir], w.paths);
    }

    /** The dependency loop of `Build_Search_Path_Helper`: each dependency
        in order, with the processed list threaded through. */
    method WalkDependencies(deps: seq<String>, processed: seq<String>) returns (processedOut: seq<String>)
      modifies this`searchPath
      decreases |Unvisited(packages, processed)|, 1
      ensures searchPath == old(searchPath) + SearchWalkAll(packages, deps, processed).paths
      ensures processedOut == SearchWalkAll(packages, deps, processed).processed
    {
      ghost var whole := SearchWalkAll(packages, deps, processed);
      ghost var rest := whole;
      processedOut := processed;
      var i := 0;
      while i < |deps|
        invariant 0 <= i <= |deps|
        invariant |Unvisited(packages, processedOut)| <= |Unvisited(packages, processed)|
        invariant rest == SearchWalkAll(packages, deps[i..], processedOut)
        invariant old(searchPath) + whole.paths == searchPath + rest.paths
        invariant whole.processed == rest.processed
      {
        ghost var path0 := searchPath;
        ghost var before := processedOut;
        DependencyStep(packages, deps, i, before);
        processedOut := BuildSearchPathHelper(deps[i], processedOut);
        ghost var f := SearchWalk(packages, deps[i], before);
        UnvisitedGrowth(packages, before, processedOut);
        rest := SearchWalkAll(packages, deps[i + 1..], processedOut);
        AppendAssoc(path0, f.paths, rest.paths);
        i := i + 1;
      }
      assert deps[i..] == [];
    }

    /** `Find_Reading_Path`: the first existing candidate over the search
        path, trying the extra extensions per entry; "" when none exists. */
    method FindReadingPath(dir: String, resource: String, exts: seq<String>, existing: set<String>) returns (r: String)
      ensures r == match FirstExisting(AllCandidates(searchPath, dir, resource, exts), existing)
        case Some(p) => p
        case None => []
    {
      var i := 0;
      while i < |searchPath|
        invariant 0 <= i <= |searchPath|
        invariant FirstExisting(AllCandidates(searchPath, dir, resource, exts), existing)
               == FirstExisting(AllCandidates(searchPath[i..], dir, resource, exts), existing)
      {
        var found, path := ProbeEntry(searchPath[i], dir, resource, exts, existing);
        assert searchPath[i..][0] == searchPath[i] && searchPath[i..][1..] == searchPath[i + 1..];
        FirstExistingAppend(EntryCandidates(searchPath[i], dir, resource, exts),
                            AllCandidates(searchPath[i + 1..], dir, resource, exts), existing);
        if found {
          return path;
        }
        i := i + 1;
      }
      assert searchPath[i..] == [];
      return [];
    }

    /** `Get_User_Level_Path` and `Get_Game_Level_Path`: the level
        directories of the entries at `packageStart`. */
    function UserLevelPath(): String
      reads this
      requires packageStart + 2 <= |searchPath|
    {
      LevelDir(searchPath[packageStart])
    }

    function GameLevelPath(): String
      reads this
      requires packageStart + 2 <= |searchPath|
    {
      LevelDir(searchPath[packageStart + 1])
    }

    /** `Find_Level`: `<name>.tsclvl` in the package's user and game level
        directories, then in the global user and game level directories;
        the empty path when none exists. */
    function FindLevel(name: String, globalUserLevels: String, globalGameLevels: String, existing: set<String>): (r: String)
      reads this
      requires packageStart + 2 <= |searchPath|
      ensures var probes := [JoinPath(UserLevelPath(), name + ".tsclvl"), JoinPath(GameLevelPath(), name + ".tsclvl"),
                             JoinPath(globalUserLevels, name + ".tsclvl"), JoinPath(globalGameLevels, name + ".tsclvl")];
        r == match FirstExisting(probes, existing) case Some(p) => p case None => []
    {
      var file := name + ".tsclvl";
      var probes := [JoinPath(UserLevelPath(), file), JoinPath(GameLevelPath(), file),
                     JoinPath(globalUserLevels, file), JoinPath(globalGameLevels, file)];
      if probes[0] in existing then probes[0]
      else if probes[1] in existing then probes[1]
      else if probes[2] in existing then FirstExistingPrefix(probes, existing, 2); probes[2]
      else if probes[3] in existing then FirstExistingPrefix(probes, existing, 3); probes[3]
      else []
    }

    /** `Get_Menu_Level_Path` with the ".tsclvl" extension. */
    function MenuLevel(preferred: String, defaultLevel: String, globalUserLevels: String, globalGameLevels: String,
                       existing: set<String>): (r: String)
      reads this
      requires Valid() && packageStart + 2 <= |searchPath|
      ensures var packageLevel := if currentPackage == [] then [] else packages[currentPackage].menuLevel;
        var d := LevelDirs(UserLevelPath(), GameLevelPath(), globalUserLevels, globalGameLevels);
        r == match FirstExisting(MenuLevelProbes(".tsclvl", preferred, packageLevel, defaultLevel, d), existing)
          case Some(p) => p
          case None => JoinPath(globalGameLevels, defaultLevel + ".tsclvl")
    {
      var packageLevel := if currentPackage == [] then [] else packages[currentPackage].menuLevel;
      MenuLevelPath(".tsclvl", preferred, packageLevel, defaultLevel,
                    LevelDirs(UserLevelPath(), GameLevelPath(), globalUserLevels, globalGameLevels), existing)
    }
  }

  /** One turn of the dependency loop of `Build_Search_Path_Helper`: the
      walk of the remaining dependencies is the walk of the next one
      followed by the walk of the rest. */
  lemma DependencyStep(packages: map<String, PackageInfo>, deps: seq<String>, i: nat, processed: seq<String>)
    requires i < |deps|
    ensures var f := SearchWalk(packages, deps[i], processed);
      var w := SearchWalkAll(packages, deps[i + 1..], f.processed);
      SearchWalkAll(packages, deps[i..], processed) == Walk(f.paths + w.paths, w.processed)
  {
    assert deps[i..][0] == deps[i] && deps[i..][1..] == deps[i + 1..];
    SearchWalkAllUnfold(packages, deps[i..], processed);
  }

  /** Resource lookups are first-hit: the found path exists and no earlier
      candidate does. */
  lemma FindReadingPathFirstHit(searchPath: seq<String>, dir: String, resource: String, exts: seq<String>, existing: set<String>)
    ensures var cands := AllCandidates(searchPath, dir, resource, exts);
      match FirstExisting(cands, existing)
      case Some(p) => p in existing && exists i :: 0 <= i < |cands| && cands[i] == p && forall j :: 0 <= j < i ==> cands[j] !in existing
      case None => forall c :: c in cands ==> c !in existing
  {
  }
}
