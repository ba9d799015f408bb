/** The older package manager under smc/src/core/filesystem/. Its package
    map, merge and search-path walk are those of the TSC manager, which it
    wraps; what differs is modelled here: the constructor builds the search
    path at once, `Find_Reading_Path` falls back to the last candidate it
    tried, and menu levels carry the ".smclvl" extension. */
module SmcPackageManager {
  import opened Common
  import opened Paths
  import opened Packages
  import PM = PackageManager

  class SmcPackageManager {
    /** The package map, current package and search path. */
    const manager: PM.PackageManager

    /** The constructor scans the packages and builds the search path;
        preferences are not loaded yet, so there is no skin and no current
        package: the path holds just the global directories. */
    constructor (userDataDir: String, gameDataDir: String, loads: seq<PackageLoad>)
      ensures fresh(manager) && manager.Valid()
      ensures manager.packages == LoadAll(map[], loads) && manager.currentPackage == []
      ensures manager.searchPath == [userDataDir, gameDataDir] && manager.packageStart == 0
    {
      var m := new PM.PackageManager(userDataDir, gameDataDir, loads);
      m.BuildSearchPath([]);
      manager := m;
    }

    /** `Set_Current_Package`: an unknown name clears the current package;
        the search path is rebuilt for the preferences' `skin`. */
    method SetCurrentPackage(name: String, skin: String)
      requires manager.Valid()
      modifies manager`currentPackage, manager`searchPath, manager`packageStart
      ensures manager.Valid()
      ensures manager.currentPackage == if name in manager.packages then name else []
      ensures manager.SearchPathBuilt(skin)
    {
      manager.SetCurrentPackage(name, skin);
    }

    /** `Find_Reading_Path`: the first existing candidate over the search
        path; when none exists, the last candidate tried. */
    method FindReadingPath(dir: String, resource: String, exts: seq<String>, existing: set<String>) returns (r: String)
      ensures r == match FirstExisting(AllCandidates(manager.searchPath, dir, resource, exts), existing)
        case Some(p) => p
        case None => LastCandidate(manager.searchPath, dir, resource, exts)
    {
      var searchPath := manager.searchPath;
      var path := [];
      var i := 0;
      while i < |searchPath|
        invariant 0 <= i <= |searchPath|
        invariant FirstExisting(AllCandidates(searchPath, dir, resource, exts), existing)
               == FirstExisting(AllCandidates(searchPath[i..], dir, resource, exts), existing)
        invariant path == LastCandidate(searchPath[..i], dir, resource, exts)
      {
        var found, p := ProbeEntry(searchPath[i], dir, resource, exts, existing);
        ReadingPathStep(searchPath, i, dir, resource, exts, existing);
        if found {
          return p;
        }
        path := p;
        i := i + 1;
      }
      assert searchPath[i..] == [] && searchPath[..i] == searchPath;
      return path;
    }

    /** `Get_Menu_Level_Path` with the ".smclvl" extension. */
    function MenuLevel(preferred: String, defaultLevel: String, globalUserLevels: String, globalGameLevels: String,
                       existing: set<String>): (r: String)
      reads this, manager
      requires manager.Valid() && manager.packageStart + 2 <= |manager.searchPath|
      ensures var packageLevel := if manager.currentPackage == [] then [] else manager.packages[manager.currentPackage].menuLevel;
        var d := LevelDirs(manager.UserLevelPath(), manager.GameLevelPath(), globalUserLevels, globalGameLevels);
        r == match FirstExisting(MenuLevelProbes(".smclvl", preferred, packageLevel, defaultLevel, d), existing)
          case Some(p) => p
          case None => JoinPath(globalGameLevels, defaultLevel + ".smclvl")
    {
      var packageLevel := if manager.currentPackage == [] then [] else manager.packages[manager.currentPackage].menuLevel;
      MenuLevelPath(".smclvl", preferred, packageLevel, defaultLevel,
                    LevelDirs(manager.UserLevelPath(), manager.GameLevelPath(), globalUserLevels, globalGameLevels), existing)
    }
  }

  /** One search path entry of the lookup: its candidates come first, and
      its last candidate is the last one tried so far. */
  lemma ReadingPathStep(searchPath: seq<String>, i: nat, dir: String, resource: String, exts: seq<String>,
                        existing: set<String>)
    requires i < |searchPath|
    ensures var first := FirstExisting(EntryCandidates(searchPath[i], dir, resource, exts), existing);
      FirstExisting(AllCandidates(searchPath[i..], dir, resource, exts), existing)
        == if first.Some? then first else FirstExisting(AllCandidates(searchPath[i + 1..], dir, resource, exts), existing)
    ensures var cands := EntryCandidates(searchPath[i], dir, resource, exts);
      LastCandidate(searchPath[..i + 1], dir, resource, exts) == cands[|cands| - 1]
  {
    assert searchPath[i..][0] == searchPath[i] && searchPath[i..][1..] == searchPath[i + 1..];
    assert searchPath[..i + 1][i] == searchPath[i];
    FirstExistingAppend(EntryCandidates(searchPath[i], dir, resource, exts),
                        AllCandidates(searchPath[i + 1..], dir, resource, exts), existing);
  }

  /** When nothing exists, the SMC lookup returns a candidate of the last
      search path entry, the global game data directory, with `resource`
      below `dir` there (the plain candidate when no extension is given). */
  lemma MissFallsBackToLastEntry(searchPath: seq<String>, dir: String, resource: String)
    requires searchPath != []
    ensures LastCandidate(searchPath, dir, resource, []) == JoinPath(JoinPath(searchPath[|searchPath| - 1], dir), resource)
  {
  }
}
