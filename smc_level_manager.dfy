// The level manager of SMC (smc/src/level/level_manager.cpp): the loaded
// levels, the active one, and how a level name is found on disk.

module SmcLevelManager {
  import opened Common
  import opened Paths
  import opened SmcLevel

  /** What the manager needs from outside: the level's environment, the
      game level directory, and the parser behind `Load_From_File`
      (`cLevelLoader::parse_file`), which turns a file into a level. */
  datatype ManagerEnv = ManagerEnv(level: LevelEnv, gameLevelDir: String, parse: String -> LevelState)

  /* ---------------------------------------------------------------------
     Finding a level file
     --------------------------------------------------------------------- */

  /** The new-format file of `stem` in `dir`. */
  function Probe(stem: String, dir: String): (r: String)
    ensures EndsWith(r, ".smclvl")
  {
    ReplaceExtensionEndsWith(Absolute(stem, dir), ".smclvl");
    ReplaceExtension(Absolute(stem, dir), ".smclvl")
  }

  /** The four files `Get_Path` probes: the user directory with the new and
      the old file type, then the game directory with both; only the first
      two when only the user directory is asked for. None is the empty
      path. */
  function Probes(name: String, onlyUser: bool, env: ManagerEnv): (r: seq<String>)
    ensures |r| == if onlyUser then 2 else 4
    ensures forall i :: 0 <= i < |r| ==> r[i] != []
  {
    var stem := Stem(name);
    var user := Probe(stem, env.level.userLevelDir);
    var game := Probe(stem, env.gameLevelDir);
    var userOld := ReplaceExtension(user, ".txt");
    var gameOld := ReplaceExtension(game, ".txt");
    NoEmptyProbe(user, userOld, game, gameOld);
    if onlyUser then [user, userOld] else [user, userOld, game, gameOld]
  }

  /** Four non-empty paths, in either listing, hold no empty path. */
  lemma NoEmptyProbe(user: String, userOld: String, game: String, gameOld: String)
    requires user != [] && userOld != [] && game != [] && gameOld != []
    ensures forall i :: 0 <= i < 2 ==> [user, userOld][i] != []
    ensures forall i :: 0 <= i < 4 ==> [user, userOld, game, gameOld][i] != []
  {
  }

  /** The first of `probes` at or after `from` that exists. */
  function FirstExisting(probes: seq<String>, fileExists: String -> bool, from: nat): (r: Option<nat>)
    requires from <= |probes|
    ensures r.Some? ==> from <= r.value < |probes| && fileExists(probes[r.value])
    ensures r.Some? ==> forall j :: from <= j < r.value ==> !fileExists(probes[j])
    ensures r.None? ==> forall j :: from <= j < |probes| ==> !fileExists(probes[j])
    decreases |probes| - from
  {
    if from == |probes| then None
    else if fileExists(probes[from]) then Some(from)
    else FirstExisting(probes, fileExists, from + 1)
  }

  /** `Get_Path(levelname, check_only_user_dir)`: the chain of existence
      tests, the empty path when none succeeds. */
  function GetPath(name: String, onlyUser: bool, env: ManagerEnv): (r: String)
  {
    var stem := Stem(name);
    var exists_ := env.level.fileExists;
    var user := Probe(stem, env.level.userLevelDir);
    if exists_(user) then user
    else
      var userOld := ReplaceExtension(user, ".txt");
      if exists_(userOld) then userOld
      else if onlyUser then []
      else
        var game := Probe(stem, env.gameLevelDir);
        if exists_(game) then game
        else
          var gameOld := ReplaceExtension(game, ".txt");
          if exists_(gameOld) then gameOld else []
  }

  /** `Get_Path` gives the first probe that exists, in probing order, and
      the empty path exactly when none does. */
  lemma GetPathIsFirstExisting(name: String, onlyUser: bool, env: ManagerEnv)
    ensures var probes := Probes(name, onlyUser, env);
      GetPath(name, onlyUser, env) ==
        match FirstExisting(probes, env.level.fileExists, 0)
        case Some(i) => probes[i]
        case None => []
  {
    var probes := Probes(name, onlyUser, env);
    var ex := env.level.fileExists;
    if !ex(probes[0]) {
      if !ex(probes[1]) {
        assert FirstExisting(probes, ex, 0) == FirstExisting(probes, ex, 2);
        if !onlyUser && !ex(probes[2]) {
          assert FirstExisting(probes, ex, 2) == FirstExisting(probes, ex, 3);
        }
      } else {
        assert FirstExisting(probes, ex, 0) == FirstExisting(probes, ex, 1);
      }
    }
  }

  /** What `Get_Path` finds exists, and it finds nothing only when no probe
      exists. */
  lemma GetPathFound(name: String, onlyUser: bool, env: ManagerEnv)
    ensures var r := GetPath(name, onlyUser, env);
      (r != [] ==> env.level.fileExists(r) && r in Probes(name, onlyUser, env)) &&
      (r == [] <==> forall p :: p in Probes(name, onlyUser, env) ==> !env.level.fileExists(p))
  {
    GetPathIsFirstExisting(name, onlyUser, env);
    var probes := Probes(name, onlyUser, env);
    match FirstExisting(probes, env.level.fileExists, 0)
    case Some(i) =>
      assert probes[i] in probes;
    case None =>
      forall p | p in probes ensures !env.level.fileExists(p) {
        var j :| 0 <= j < |probes| && probes[j] == p;
      }
      assert GetPath(name, onlyUser, env) == [];
  }

  /** `Load_From_File(filename)`: nothing for the empty path, nothing for
      a file whose extension is not ".smclvl" (see `LevelExtensionTest`),
      otherwise the parsed level. */
  function LoadFromFile(file: String, env: ManagerEnv): (r: Option<LevelState>)
  {
    if file == [] || !EndsWith(file, ".smclvl") then None
    else Some(env.parse(file))
  }

  /** A file of the old `.txt` format does not load. */
  lemma OldFormatNotLoaded(file: String, env: ManagerEnv)
    requires EndsWith(file, ".txt")
    ensures LoadFromFile(file, env).None?
  {
    assert file[|file| - 1] == 't';
  }

  /* ---------------------------------------------------------------------
     Level names
     --------------------------------------------------------------------- */

  /** The first index at or after `from` whose name is `name`. */
  function FirstNamed(names: seq<String>, name: String, from: nat): (r: Option<nat>)
    requires from <= |names|
    ensures r.Some? ==> from <= r.value < |names| && names[r.value] == name
    ensures r.Some? ==> forall j :: from <= j < r.value ==> names[j] != name
    ensures r.None? ==> forall j :: from <= j < |names| ==> names[j] != name
    decreases |names| - from
  {
    if from == |names| then None
    else if names[from] == name then Some(from)
    else FirstNamed(names, name, from + 1)
  }

  /** `Get_Level_Name` of each of `levels`. */
  function NamesOf(levels: seq<Level>): (r: seq<String>)
    reads levels`levelFile
    ensures |r| == |levels|
    ensures forall i :: 0 <= i < |levels| ==> r[i] == Stem(levels[i].levelFile)
  {
    if levels == [] then [] else NamesOf(levels[..|levels| - 1]) + [Stem(levels[|levels| - 1].levelFile)]
  }

  /** The file name part of a path (`path::filename()`). */
  function FileName(p: String): String
  {
    p[FileNameStart(p)..]
  }

  /** Where `Goto_Sub_Level` leads: within the current level (to the
      entry's index, if the entry exists), into another level that
      loaded (with a music fade-out when the music file differs), or
      nowhere when the other level does not load. */
  datatype SubLevelJump =
    | SameLevel(entry: Option<nat>)
    | EnterLevel(level: String, entryName: String, musicFadeout: bool)
    | NoLevel

  /** The level `Goto_Sub_Level` goes to: the current one when no name is
      given. */
  function SubLevelTarget(name: String, activeFile: String): (r: String)
    ensures name == [] ==> r == Stem(activeFile)
    ensures name != [] ==> r == name
  {
    if name == [] then Stem(activeFile) else name
  }

  /* ---------------------------------------------------------------------
     The manager
     --------------------------------------------------------------------- */

  class LevelManager {
    /** `objects`: the loaded levels */
    var levels: seq<Level>
    /** `pActive_Level` */
    var active: Level
    /** the player's level return stack (`pLevel_Player->Clear_Return`) */
    var playerReturns: seq<String>
    /** `m_camera->m_fixed_hor_vel` */
    var cameraFixedHorVel: real

    /** There is always one level around. */
    predicate Valid()
      reads this
    {
      |levels| > 0
    }

    /** `Get_Level_Name` of every level, in order. */
    function LevelNames(): (r: seq<String>)
      reads this`levels, levels`levelFile
      ensures r == NamesOf(levels)
    {
      NamesOf(levels)
    }

    /** `cLevel_Manager()`: one empty level, which is active. */
    constructor (env: ManagerEnv)
      ensures Valid() && |levels| == 1 && active == levels[0] && fresh(active)
      ensures !active.IsLoaded() && active.Valid()
      ensures playerReturns == [] && cameraFixedHorVel == 0.0
    {
      var l := new Level(env.level);
      levels := [l];
      active := l;
      playerReturns := [];
      cameraFixedHorVel := 0.0;
    }

    /** `Unload`: all levels but the last are dropped and the last becomes
        active (when there was more than one); in level mode the camera
        takes the active level's fixed velocity, otherwise it keeps 0;
        then the active level is unloaded. */
    method Unload(levelMode: bool, env: ManagerEnv)
      requires Valid()
      modifies this, levels[|levels| - 1], active
      ensures Valid()
      ensures var keep := if |old(levels)| > 1 then old(levels)[|old(levels)| - 1] else old(active);
        active == keep &&
        levels == (if |old(levels)| > 1 then [keep] else old(levels)) &&
        cameraFixedHorVel == (if levelMode then old(keep.header.fixedCameraHorVel) else 0.0) &&
        active.State() == Unloaded(old(keep.State()), env.level)
      ensures playerReturns == old(playerReturns)
    {
      cameraFixedHorVel := 0.0;
      if |levels| > 1 {
        levels := [levels[|levels| - 1]];
        active := levels[0];
      }
      if levelMode {
        cameraFixedHorVel := active.header.fixedCameraHorVel;
      }
      active.Unload(false, env.level);
    }

    /** `New(levelname)`: the return stack is cleared; a name that exists
        in the user directory gives nothing; otherwise a new level is
        created and kept when its `New` succeeds. */
    method New(name: String, env: ManagerEnv) returns (r: Level?)
      modifies this
      ensures playerReturns == []
      ensures active == old(active) && cameraFixedHorVel == old(cameraFixedHorVel)
      ensures GetPath(name, true, env) != [] ==> r == null
      ensures GetPath(name, true, env) == [] ==>
        var t := NewTarget(name, env.level);
        (r != null <==> t.Some? && !env.level.fileExists(t.value))
      ensures r == null ==> levels == old(levels)
      ensures r != null ==>
        fresh(r) && levels == old(levels) + [r] &&
        r.State() == CreatedLevel(NewTarget(name, env.level).value, env.level)
    {
      playerReturns := [];
      if GetPath(name, true, env) != [] {
        return null;
      }
      var level := new Level(env.level);
      var ok := level.New(name, env.level);
      if !ok {
        return null;
      }
      levels := levels + [level];
      return level;
    }

    /** `Load(levelname, loading_sublevel)`: the return stack is cleared
        unless a sublevel is loaded; a level already loaded under that
        name is returned as it is; otherwise the file `Get_Path` finds is
        loaded and kept. The lookup never reads the return stack, so the
        model clears the stack after it rather than before. */
    method Load(name: String, sublevel: bool, env: ManagerEnv) returns (r: Level?)
      modifies this`playerReturns, this`levels
      ensures playerReturns == if sublevel then old(playerReturns) else []
      ensures active == old(active) && cameraFixedHorVel == old(cameraFixedHorVel)
      ensures match FirstNamed(old(LevelNames()), name, 0)
        case Some(i) => r == old(levels)[i] && levels == old(levels)
        case None =>
          match LoadFromFile(GetPath(name, false, env), env)
          case None => r == null && levels == old(levels)
          case Some(s) => r != null && fresh(r) && levels == old(levels) + [r] && r.State() == s
    {
      r := GetOrLoad(name, env);
      if !sublevel {
        ClearReturns();
      }
    }

    /** `cLevel_Player::Clear_Return`: the return stack is emptied. */
    method ClearReturns()
      modifies this`playerReturns
      ensures playerReturns == []
    {
      playerReturns := [];
    }

    /** The part of `Load` after the return stack: `Get`, and on a miss
        `Load_From_File` of the `Get_Path` file and `Add`. */
    method GetOrLoad(name: String, env: ManagerEnv) returns (r: Level?)
      modifies this`levels
      ensures match FirstNamed(old(LevelNames()), name, 0)
        case Some(i) => r == old(levels)[i] && levels == old(levels)
        case None =>
          match LoadFromFile(GetPath(name, false, env), env)
          case None => r == null && levels == old(levels)
          case Some(s) => r != null && fresh(r) && levels == old(levels) + [r] && r.State() == s
    {
      r := Get(name);
      if r != null {
        return;
      }
      r := LoadFile(GetPath(name, false, env), env);
    }

    /** The part of `Load` for a level not loaded yet: `Load_From_File`,
        then `Add`. */
    method LoadFile(file: String, env: ManagerEnv) returns (r: Level?)
      modifies this`levels
      ensures match LoadFromFile(file, env)
        case None => r == null && levels == old(levels)
        case Some(s) => r != null && fresh(r) && levels == old(levels) + [r] && r.State() == s
    {
      var s := LoadFromFile(file, env);
      if s.None? {
        return null;
      }
      r := new Level.FromState(s.value);
      levels := levels + [r];
    }

    /** `Set_Active(level)`: no level leaves the active one in place. */
    method SetActive(level: Level?) returns (ok: bool)
      modifies this`active
      ensures ok <==> level != null
      ensures ok ==> active == level
      ensures !ok ==> active == old(active)
    {
      if level == null {
        return false;
      }
      active := level;
      return true;
    }

    /** `Get(levelname)`: the first loaded level of that name. */
    method Get(name: String) returns (r: Level?)
      ensures match FirstNamed(LevelNames(), name, 0)
        case Some(i) => r == levels[i]
        case None => r == null
    {
      ghost var names := LevelNames();
      var i := 0;
      while i < |levels|
        invariant 0 <= i <= |levels|
        invariant FirstNamed(names, name, i) == FirstNamed(names, name, 0)
      {
        if Stem(levels[i].levelFile) == name {
          return levels[i];
        }
        i := i + 1;
      }
      return null;
    }

    /** `Goto_Sub_Level(level, entry)`, without the camera: an empty or
        the current level's name warps within the level to the entry;
        another name loads that level as a sublevel and, when it loaded,
        enters it, fading the music out only when its music file differs.
        `level` is the level `Load` gave. */
    method GotoSubLevel(name: String, entry: String, env: ManagerEnv) returns (j: SubLevelJump, level: Level?)
      modifies this
      ensures var target := SubLevelTarget(name, old(active.levelFile));
        target == Stem(old(active.levelFile)) ==>
          j == SameLevel(EntryIndex(old(active.sprites), entry)) && level == null &&
          levels == old(levels) && playerReturns == old(playerReturns)
      ensures active == old(active) && playerReturns == old(playerReturns)
      ensures var target := SubLevelTarget(name, old(active.levelFile));
        target != Stem(old(active.levelFile)) ==>
          (j.NoLevel? <==> level == null) &&
          (level != null ==>
             level in levels &&
             j == EnterLevel(target, entry, FileName(active.header.music) != FileName(level.header.music))) &&
          (match FirstNamed(old(LevelNames()), target, 0)
           case Some(i) => level == old(levels)[i] && levels == old(levels)
           case None =>
             match LoadFromFile(GetPath(target, false, env), env)
             case None => level == null && levels == old(levels)
             case Some(s) => level != null && fresh(level) && levels == old(levels) + [level] && level.State() == s)
    {
      var target := name;
      if target == [] {
        target := Stem(active.levelFile);
      }
      if target == Stem(active.levelFile) {
        var e := active.GetEntry(entry);
        return SameLevel(e), null;
      }
      level := Load(target, true, env);
      if level == null {
        return NoLevel, null;
      }
      j := EnterLevel(target, entry, FileName(active.header.music) != FileName(level.header.music));
    }
  }

  /** The state of a level `New` created: a blank level whose file is the
      new file and whose engine version is the current one. */
  function CreatedLevel(file: String, env: LevelEnv): (r: LevelState)
    ensures r.levelFile == file && r.header.engineVersion == env.levelEngineVersion
    ensures r.sprites == [] && r.backgrounds == [DefaultGradient]
  {
    LevelState(DefaultHeader(env).(engineVersion := env.levelEngineVersion), DefaultPlayer(env),
               file, [], false, false, map[], [], [DefaultGradient])
  }
}
