/** `cSavegame` of TSC (tsc/src/user/savegame/savegame.cpp): slot files
    in the package's savegame directory with the older formats as
    fallbacks, the check that every level a savegame names still exists,
    and restoring a savegame into the running game. */
module SavegameTsc {
  import opened Common
  import opened PropertyHelper
  import opened SaveData
  import opened Savegame
  import Overworld

  /** `speedfactor_fps` */
  const SpeedfactorFps: real := 32.0

  /* ---------------------------------------------------------------------
     Slot files
     --------------------------------------------------------------------- */

  /** The directories a slot is looked for in: the package's user
      savegame path (`Get_User_Savegame_Path`) and the manager's own
      `m_savegame_dir`. */
  datatype SaveDirs = SaveDirs(packageDir: String, savegameDir: String)

  /** The probe chain of `Load`: `<slot>.tscsav` and `<slot>.smcsav` in the
      package directory, then the very old `<slot>.save` in
      `m_savegame_dir`. */
  function ProbeSlot(files: map<String, Save>, dirs: SaveDirs, slot: nat): (r: Option<String>)
    ensures r.Some? ==> r.value in files
    ensures r.None? ==>
              && SlotFile(dirs.packageDir, slot, ".tscsav") !in files
              && SlotFile(dirs.packageDir, slot, ".smcsav") !in files
              && SlotFile(dirs.savegameDir, slot, ".save") !in files
    ensures r.Some? ==> r.value in {SlotFile(dirs.packageDir, slot, ".tscsav"), SlotFile(dirs.packageDir, slot, ".smcsav"),
                                    SlotFile(dirs.savegameDir, slot, ".save")}
  {
    if SlotFile(dirs.packageDir, slot, ".tscsav") in files then Some(SlotFile(dirs.packageDir, slot, ".tscsav"))
    else if SlotFile(dirs.packageDir, slot, ".smcsav") in files then Some(SlotFile(dirs.packageDir, slot, ".smcsav"))
    else if SlotFile(dirs.savegameDir, slot, ".save") in files then Some(SlotFile(dirs.savegameDir, slot, ".save"))
    else None
  }

  /** A level a savegame names is usable when the level manager resolves
      its name to a path and that file exists. */
  predicate LevelUsable(l: SaveLevel, levelPath: String -> String, levelExists: String -> bool)
  {
    levelPath(l.name) != [] && levelExists(levelPath(l.name))
  }

  /** The complaint about the first unusable level: "Empty level filename!"
      for a name without a path, the missing file otherwise. */
  function LevelError(levels: seq<SaveLevel>, levelPath: String -> String, levelExists: String -> bool): (r: Option<String>)
    ensures r.None? <==> forall i :: 0 <= i < |levels| ==> LevelUsable(levels[i], levelPath, levelExists)
  {
    if levels == [] then None
    else if levelPath(levels[0].name) == [] then Some("Empty level filename!")
    else if !levelExists(levelPath(levels[0].name)) then Some("Level file not found: " + levelPath(levels[0].name))
    else
      var rest := LevelError(levels[1..], levelPath, levelExists);
      assert forall i :: 1 <= i < |levels| ==> levels[i] == levels[1..][i - 1];
      rest
  }

  /** `cSavegame::Load`: the first slot file found, provided every level it
      names is usable. */
  function LoadSlot(files: map<String, Save>, dirs: SaveDirs, slot: nat,
                    levelPath: String -> String, levelExists: String -> bool): (r: Result<Save, LoadError>)
    ensures r.Ok? <==> ProbeSlot(files, dirs, slot).Some?
                       && forall i :: 0 <= i < |files[ProbeSlot(files, dirs, slot).value].levels| ==>
                            LevelUsable(files[ProbeSlot(files, dirs, slot).value].levels[i], levelPath, levelExists)
    ensures r.Ok? ==> r.value == files[ProbeSlot(files, dirs, slot).value]
    ensures r == Err(InvalidSavegame(slot)) <==> ProbeSlot(files, dirs, slot).None?
  {
    var p := ProbeSlot(files, dirs, slot);
    if p.None? then Err(InvalidSavegame(slot))
    else
      var s := files[p.value];
      var e := LevelError(s.levels, levelPath, levelExists);
      if e.Some? then Err(InvalidLevel(e.value)) else Ok(s)
  }

  /** `Load`'s loop over the levels of the record it read. */
  method CheckLevels(levels: seq<SaveLevel>, levelPath: String -> String, levelExists: String -> bool)
    returns (error: Option<String>)
    ensures error == LevelError(levels, levelPath, levelExists)
  {
    for i := 0 to |levels|
      invariant LevelError(levels, levelPath, levelExists) == LevelError(levels[i..], levelPath, levelExists)
    {
      assert levels[i..][1..] == levels[i + 1..];
      var filename := levelPath(levels[i].name);
      if filename == [] {
        return Some("Empty level filename!");
      }
      if !levelExists(filename) {
        return Some("Level file not found: " + filename);
      }
    }
    return None;
  }

  /** `cSavegame::Is_Valid` as written: all three files are looked for in
      the package directory, although `Load` reads `.save` from
      `m_savegame_dir`. */
  predicate IsValidAsWritten(files: map<String, Save>, dirs: SaveDirs, slot: nat)
  {
    SlotFile(dirs.packageDir, slot, ".tscsav") in files || SlotFile(dirs.packageDir, slot, ".smcsav") in files
    || SlotFile(dirs.packageDir, slot, ".save") in files
  }

  /** `Is_Valid` corrected: it asks for the same files `Load` reads. */
  predicate IsValid(files: map<String, Save>, dirs: SaveDirs, slot: nat)
  {
    ProbeSlot(files, dirs, slot).Some?
  }

  /** With the two directories apart, the written `Is_Valid` calls slot 1
      free although `Load` would read its `.save` file, and calls slot 2
      valid although `Load` finds no file for it. */
  lemma IsValidAsWrittenDisagreesWithLoad(s: Save, levelPath: String -> String, levelExists: String -> bool)
    requires s.levels == []
    ensures var dirs := SaveDirs("user/savegames", "savegames");
      var files := map["savegames/1.save" := s, "user/savegames/2.save" := s];
      && !IsValidAsWritten(files, dirs, 1) && LoadSlot(files, dirs, 1, levelPath, levelExists) == Ok(s)
      && IsValidAsWritten(files, dirs, 2) && LoadSlot(files, dirs, 2, levelPath, levelExists) == Err(InvalidSavegame(2))
  {
    var dirs := SaveDirs("user/savegames", "savegames");
    var files := map["savegames/1.save" := s, "user/savegames/2.save" := s];
    assert NatToString(1) == "1" && NatToString(2) == "2";
    assert SlotFile(dirs.savegameDir, 1, ".save") == "savegames/1.save";
    assert SlotFile(dirs.packageDir, 2, ".save") == "user/savegames/2.save";
    assert SlotFile(dirs.packageDir, 1, ".tscsav") !in files;
    assert SlotFile(dirs.packageDir, 1, ".smcsav") !in files;
    assert SlotFile(dirs.packageDir, 1, ".save") == "user/savegames/1.save";
    assert "user/savegames/1.save"[15] != "user/savegames/2.save"[15];
    assert SlotFile(dirs.packageDir, 2, ".tscsav") !in files;
    assert SlotFile(dirs.packageDir, 2, ".smcsav") !in files;
    assert SlotFile(dirs.savegameDir, 2, ".save") == "savegames/2.save";
    assert "savegames/2.save"[10] != "savegames/1.save"[10];
  }

  /** The corrected `Is_Valid` holds exactly when `Load` finds a file, so a
      valid slot only fails to load over a missing level. */
  lemma IsValidIffFileFound(files: map<String, Save>, dirs: SaveDirs, slot: nat,
                            levelPath: String -> String, levelExists: String -> bool)
    ensures IsValid(files, dirs, slot) <==> LoadSlot(files, dirs, slot, levelPath, levelExists) != Err(InvalidSavegame(slot))
    ensures IsValid(files, dirs, slot) && LoadSlot(files, dirs, slot, levelPath, levelExists).Err? ==>
              LoadSlot(files, dirs, slot, levelPath, levelExists).error.InvalidLevel?
  {
  }

  /** The files after `Save_Game` wrote a slot: `.save` and `.smcsav` of the
      package directory are removed and, unless writing fails, `.tscsav`
      holds the record. */
  function FilesAfterSaving(files: map<String, Save>, dirs: SaveDirs, slot: nat, s: Save, writeFails: bool): map<String, Save>
  {
    var removed := files - {SlotFile(dirs.packageDir, slot, ".save"), SlotFile(dirs.packageDir, slot, ".smcsav")};
    if writeFails then removed else removed[SlotFile(dirs.packageDir, slot, ".tscsav") := s]
  }

  /** A slot just saved reads back its record, as long as its levels can
      still be found; no older file of the package directory is left
      beside it. */
  lemma SavedSlotReadsBack(files: map<String, Save>, dirs: SaveDirs, slot: nat, s: Save, levelPath: String -> String, levelExists: String -> bool)
    requires forall i :: 0 <= i < |s.levels| ==> LevelUsable(s.levels[i], levelPath, levelExists)
    ensures LoadSlot(FilesAfterSaving(files, dirs, slot, s, false), dirs, slot, levelPath, levelExists) == Ok(s)
    ensures SlotFile(dirs.packageDir, slot, ".smcsav") !in FilesAfterSaving(files, dirs, slot, s, false)
    ensures SlotFile(dirs.packageDir, slot, ".save") !in FilesAfterSaving(files, dirs, slot, s, false)
  {
    SlotFilesDiffer(dirs.packageDir, slot, ".smcsav", ".tscsav");
  }

  /** `Get_Description`: "<slot>. Free Save" for a slot the written
      `Is_Valid` does not find; otherwise as the SMC manager words it, or the
      error `Load` raises. */
  function SlotDescription(files: map<String, Save>, dirs: SaveDirs, slot: nat, onlyDescription: bool,
                         levelPath: String -> String, levelExists: String -> bool,
                         isZero: real -> bool, dateText: int -> String): (r: Result<String, LoadError>)
    ensures !IsValidAsWritten(files, dirs, slot) ==> r == Ok(NatToString(slot) + ". Free Save")
    ensures IsValidAsWritten(files, dirs, slot) ==> (r.Ok? <==> LoadSlot(files, dirs, slot, levelPath, levelExists).Ok?)
    ensures r.Err? ==> r == Err(LoadSlot(files, dirs, slot, levelPath, levelExists).error)
    ensures r.Ok? && IsValidAsWritten(files, dirs, slot) && onlyDescription ==>
              r.value == LoadSlot(files, dirs, slot, levelPath, levelExists).value.description
  {
    if !IsValidAsWritten(files, dirs, slot) then Ok(NatToString(slot) + ". Free Save")
    else
      var loaded := LoadSlot(files, dirs, slot, levelPath, levelExists);
      if loaded.Err? then Err(loaded.error)
      else
        var s := loaded.value;
        if onlyDescription then Ok(s.description)
        else Ok(NatToString(slot) + ". " + s.description + PlaceText(s, isZero) + " - Date " + dateText(s.saveTime))
  }

  /** With the two directories apart, `Get_Description` calls slot 1 free
      although `Load` reads its `.save` file, and fails for slot 2 with the
      error `Load` raises for a slot without a file. */
  lemma DescriptionMisreportsSlots(s: Save, levelPath: String -> String, levelExists: String -> bool,
                                   isZero: real -> bool, dateText: int -> String)
    requires s.levels == []
    ensures var dirs := SaveDirs("user/savegames", "savegames");
      var files := map["savegames/1.save" := s, "user/savegames/2.save" := s];
      && SlotDescription(files, dirs, 1, true, levelPath, levelExists, isZero, dateText) == Ok(NatToString(1) + ". Free Save")
      && LoadSlot(files, dirs, 1, levelPath, levelExists) == Ok(s)
      && SlotDescription(files, dirs, 2, true, levelPath, levelExists, isZero, dateText) == Err(InvalidSavegame(2))
  {
    IsValidAsWrittenDisagreesWithLoad(s, levelPath, levelExists);
  }

  /** Where the user savegame directory is the package directory, the
      written `Is_Valid` asks for the files `Load` reads, and a slot it finds
      fails to describe only over a missing level. */
  lemma IsValidAsWrittenWithOneDirectory(files: map<String, Save>, dirs: SaveDirs, slot: nat,
                                         levelPath: String -> String, levelExists: String -> bool,
                                         isZero: real -> bool, dateText: int -> String)
    requires dirs.packageDir == dirs.savegameDir
    ensures IsValidAsWritten(files, dirs, slot) <==> IsValid(files, dirs, slot)
    ensures SlotDescription(files, dirs, slot, false, levelPath, levelExists, isZero, dateText).Err? ==>
              SlotDescription(files, dirs, slot, false, levelPath, levelExists, isZero, dateText).error.InvalidLevel?
  {
    IsValidIffFileFound(files, dirs, slot, levelPath, levelExists);
  }

  /* ---------------------------------------------------------------------
     Restoring a savegame
     --------------------------------------------------------------------- */

  /** The world progress `Load_Game` applies to one world: each saved
      waypoint sets the access of the first waypoint with its destination;
      saved waypoints the world does not have are skipped. */
  function ProgressFromSave(flags: seq<bool>, dests: seq<String>, ws: seq<SaveWaypoint>): (r: seq<bool>)
    requires |flags| == |dests|
    ensures |r| == |flags|
  {
    if ws == [] then flags
    else ProgressStep(ProgressFromSave(flags, dests, ws[..|ws| - 1]), dests, ws[|ws| - 1])
  }

  /** One saved waypoint applied to the access flags of a world. */
  function ProgressStep(flags: seq<bool>, dests: seq<String>, w: SaveWaypoint): (r: seq<bool>)
    requires |flags| == |dests|
    ensures |r| == |flags|
  {
    var k := Overworld.IndexOf(dests, w.destination);
    if k >= 0 then flags[k := w.access] else flags
  }

  /** The access the last saved waypoint aimed at waypoint `k` records. */
  function LastAccessFor(dests: seq<String>, ws: seq<SaveWaypoint>, k: nat): Option<bool>
  {
    if ws == [] then None
    else if Overworld.IndexOf(dests, ws[|ws| - 1].destination) == k then Some(ws[|ws| - 1].access)
    else LastAccessFor(dests, ws[..|ws| - 1], k)
  }

  /** After the progress is applied, a waypoint has the access of the last
      saved waypoint naming it, and keeps its own when none does. */
  lemma {:induction false} ProgressFromSaveEffect(flags: seq<bool>, dests: seq<String>, ws: seq<SaveWaypoint>, k: nat)
    requires |flags| == |dests| && k < |flags|
    ensures LastAccessFor(dests, ws, k).Some? ==> ProgressFromSave(flags, dests, ws)[k] == LastAccessFor(dests, ws, k).value
    ensures LastAccessFor(dests, ws, k).None? ==> ProgressFromSave(flags, dests, ws)[k] == flags[k]
  {
    if ws != [] {
      ProgressFromSaveEffect(flags, dests, ws[..|ws| - 1], k);
    }
  }

  /** A world's waypoints other than the first of each destination are
      never touched by the progress of a savegame. */
  lemma {:induction false} ProgressSkipsLaterDuplicates(flags: seq<bool>, dests: seq<String>, ws: seq<SaveWaypoint>, k: nat)
    requires |flags| == |dests| && k < |flags|
    requires Overworld.IndexOf(dests, dests[k]) != k
    ensures ProgressFromSave(flags, dests, ws)[k] == flags[k]
  {
    if ws != [] {
      ProgressSkipsLaterDuplicates(flags, dests, ws[..|ws| - 1], k);
    }
  }

  /** `Load_Game`'s loop over the saved waypoints of one world. */
  method ApplyWorldProgress(world: Overworld.Overworld, ws: seq<SaveWaypoint>)
    requires world.Valid()
    modifies world.waypoints
    ensures world.Flags() == ProgressFromSave(old(world.Flags()), old(world.Destinations()), ws)
    ensures forall i :: 0 <= i < |world.waypoints| ==>
              world.waypoints[i].destination == old(world.waypoints[i].destination)
              && world.waypoints[i].accessDefault == old(world.waypoints[i].accessDefault)
  {
    ghost var flags0 := world.Flags();
    ghost var dests := world.Destinations();
    for j := 0 to |ws|
      invariant world.Flags() == ProgressFromSave(flags0, dests, ws[..j])
      invariant world.Destinations() == dests
      invariant forall i :: 0 <= i < |world.waypoints| ==>
                  world.waypoints[i].destination == old(world.waypoints[i].destination)
                  && world.waypoints[i].accessDefault == old(world.waypoints[i].accessDefault)
    {
      assert ws[..j + 1][..j] == ws[..j];
      ApplyWaypoint(world, ws[j]);
    }
    assert ws[..|ws|] == ws;
  }

  /** One saved waypoint, through `Get_Waypoint_Num`, `Get_Waypoint` and
      `Set_Access`; a destination the world does not have is skipped. */
  method ApplyWaypoint(world: Overworld.Overworld, w: SaveWaypoint)
    requires world.Valid()
    modifies world.waypoints
    ensures world.Flags() == ProgressStep(old(world.Flags()), old(world.Destinations()), w)
    ensures forall i :: 0 <= i < |world.waypoints| ==>
              world.waypoints[i].destination == old(world.waypoints[i].destination)
              && world.waypoints[i].accessDefault == old(world.waypoints[i].accessDefault)
  {
    var num := world.GetWaypointNum(w.destination);
    var waypoint := world.GetWaypoint(num);
    if waypoint == null {
      return;
    }
    ghost var before := world.Flags();
    waypoint.SetAccess(w.access, false);
    assert forall i :: 0 <= i < |world.waypoints| && i != num ==> world.waypoints[i] != waypoint;
    assert forall i :: 0 <= i < |world.waypoints| ==> world.Flags()[i] == before[num := w.access][i];
  }

  /** The level player as `Load_Game` sets it: `typeCalls` lists its
      `Set_Type` calls (type, whether as temporary power). */
  datatype PlayerData = PlayerData(
    typeCalls: seq<(nat, bool)>,
    movingState: Option<nat>,
    pos: (real, real),
    invincible: real,
    invincibleStar: real,
    ghostTime: real,
    ghostTimeMod: real,
    returnStack: seq<ReturnEntry>)

  /** The HUD displays `Load_Game` sets. */
  datatype HudData = HudData(levelTime: nat, points: int, goldpieces: nat, lives: nat, itemboxItem: nat)

  /** What `Load_Game` changes in the running game: the game mode, the
      active world and waypoint, the active level, the (x, y, type) of each
      saved object looked up in its level, the tracks started, in order,
      the player and the HUD. */
  datatype SessionState = SessionState(
    customMode: bool,
    activeOverworld: Option<String>,
    overworldWaypoint: Option<nat>,
    activeLevel: Option<String>,
    objectLookups: seq<(int, int, int)>,
    music: seq<String>,
    player: PlayerData,
    hud: HudData)

  /** What `Load_Game` cannot see itself: which levels the level manager
      loads, the float zero test, which worlds and waypoints can be made
      active, and the music of the active level and world. */
  datatype Environment = Environment(
    levelLoads: String -> bool,
    isZero: real -> bool,
    worldExists: String -> bool,
    waypointValid: nat -> bool,
    levelMusic: String,
    worldMusic: String)

  /** The mode and world part of `Load_Game`: the custom level mode is left
      and, without an active world in the savegame, entered again. */
  function WorldEffect(st: SessionState, s: Save, env: Environment): SessionState
  {
    if s.overworldActive != [] then
      st.(activeOverworld := if env.worldExists(s.overworldActive) then Some(s.overworldActive) else st.activeOverworld,
          overworldWaypoint := if env.waypointValid(s.overworldCurrentWaypoint) then Some(s.overworldCurrentWaypoint) else st.overworldWaypoint)
    else st.(customMode := true)
  }

  /** A saved level with both coordinates non-zero is the one the player
      was in. */
  predicate HasPosition(l: SaveLevel, env: Environment)
  {
    !env.isZero(l.posX) && !env.isZero(l.posY)
  }

  /** The object lookups of one restored level. */
  function ObjectLookups(os: seq<SaveLevelObject>): (r: seq<(int, int, int)>)
    ensures |r| == |os|
  {
    if os == [] then []
    else ObjectLookups(os[..|os| - 1]) + [LookupOf(os[|os| - 1])]
  }

  /** The lookup of one saved object: its `posx`, `posy` and type. */
  function LookupOf(o: SaveLevelObject): (int, int, int)
  {
    (StringToInt(ValueOf(o, "posx")), StringToInt(ValueOf(o, "posy")), o.spriteType)
  }

  lemma ObjectLookupsStep(os: seq<SaveLevelObject>, i: nat)
    requires i < |os|
    ensures ObjectLookups(os[..i + 1]) == ObjectLookups(os[..i]) + [LookupOf(os[i])]
  {
    assert os[..i + 1][..i] == os[..i];
  }

  /** `Get_Value`, as a value. */
  function ValueOf(o: SaveLevelObject, name: String): String
  {
    var v := Lookup(o.properties, name);
    if v.Some? then v.value else []
  }

  /** The level part of `Load_Game` over the first `|ls|` levels: the save
      type (2 for a world savegame, 1 once a level with a position was
      restored) and the new state. Positions of savegames before version 9
      are moved up by 1200. */
  function LevelsEffect(st: SessionState, s: Save, ls: seq<SaveLevel>, env: Environment): (r: (nat, SessionState))
    ensures r.0 == 1 || r.0 == 2
  {
    if ls == [] then (2, st)
    else
      var (t, before) := LevelsEffect(st, s, ls[..|ls| - 1], env);
      LevelEffect(t, before, s, ls[|ls| - 1], env)
  }

  /** One saved level: a level that does not load is skipped; one with a
      position becomes the active level and places the player; the lookups
      of its objects are appended. */
  function LevelEffect(t: nat, before: SessionState, s: Save, l: SaveLevel, env: Environment): (r: (nat, SessionState))
    requires t == 1 || t == 2
    ensures r.0 == 1 || r.0 == 2
  {
    if !env.levelLoads(l.name) then (t, before)
    else
      var placed :=
        if HasPosition(l, env) then
          before.(activeLevel := Some(l.name), hud := before.hud.(levelTime := s.levelTime),
                  player := before.player.(pos := (l.posX, if s.version < 9 then l.posY - 1200.0 else l.posY)))
        else before;
      (if HasPosition(l, env) then 1 else t, placed.(objectLookups := placed.objectLookups + ObjectLookups(l.objects)))
  }

  lemma LevelsEffectStep(st: SessionState, s: Save, ls: seq<SaveLevel>, i: nat, env: Environment)
    requires i < |ls|
    ensures var (t, before) := LevelsEffect(st, s, ls[..i], env);
            LevelsEffect(st, s, ls[..i + 1], env) == LevelEffect(t, before, s, ls[i], env)
  {
    assert ls[..i + 1][..i] == ls[..i];
  }

  /** The save type is 1 exactly when some level that loads has a
      position. */
  lemma {:induction false} SaveTypeIsLevelIffPositioned(st: SessionState, s: Save, ls: seq<SaveLevel>, env: Environment)
    ensures LevelsEffect(st, s, ls, env).0 == 1 <==>
              exists i :: 0 <= i < |ls| && env.levelLoads(ls[i].name) && HasPosition(ls[i], env)
  {
    if ls != [] {
      var n := |ls| - 1;
      SaveTypeIsLevelIffPositioned(st, s, ls[..n], env);
      assert forall i :: 0 <= i < n ==> ls[..n][i] == ls[i];
    }
  }

  /** The player part of `Load_Game`. Before savegame version 8 the state
      field held the type; from then on a ghost player gets the ghost type
      and then the temporary power, and the moving state is restored. A
      restored level gives at least a second of invincibility. */
  function PlayerEffect(st: SessionState, s: Save, saveType: nat, codes: PlayerTypeCodes, env: Environment): SessionState
  {
    var p := st.player;
    var typed :=
      if s.version < 8 then p.(typeCalls := p.typeCalls + [(s.playerState, false)])
      else if s.playerType == codes.ghostType then
        p.(typeCalls := p.typeCalls + [(s.playerType, false), (s.playerTypeTempPower, true)], movingState := Some(s.playerState))
      else p.(typeCalls := p.typeCalls + [(s.playerType, false)], movingState := Some(s.playerState));
    var inv := if saveType == 1 && s.invincible < SpeedfactorFps then SpeedfactorFps else s.invincible;
    var tracks :=
      if !env.isZero(s.invincibleStar) then ["game/star.ogg", env.levelMusic]
      else if saveType == 1 then [env.levelMusic]
      else [env.worldMusic];
    st.(player := typed.(invincible := inv, invincibleStar := s.invincibleStar,
                         ghostTime := s.ghostTime, ghostTimeMod := s.ghostTimeMod, returnStack := s.returnEntries),
        music := st.music + tracks,
        hud := st.hud.(points := s.points, goldpieces := s.goldpieces % 100, lives := s.lives, itemboxItem := s.itemboxItem))
  }

  /** Everything `Load_Game` does after reading the record, and the save
      type it returns. */
  function LoadGameEffect(st: SessionState, s: Save, codes: PlayerTypeCodes, env: Environment): (nat, SessionState)
  {
    var afterWorld := WorldEffect(st.(customMode := false), s, env);
    var (t, afterLevels) := LevelsEffect(afterWorld, s, s.levels, env);
    (t, PlayerEffect(afterLevels, s, t, codes, env))
  }

  /** After a level savegame the player is invincible for at least a
      second; a world savegame keeps the saved invincibility. */
  lemma InvincibleAfterLevelLoad(st: SessionState, s: Save, codes: PlayerTypeCodes, env: Environment)
    ensures LoadGameEffect(st, s, codes, env).0 == 1 ==> LoadGameEffect(st, s, codes, env).1.player.invincible >= SpeedfactorFps
    ensures LoadGameEffect(st, s, codes, env).0 == 1 && s.invincible >= SpeedfactorFps ==>
              LoadGameEffect(st, s, codes, env).1.player.invincible == s.invincible
    ensures LoadGameEffect(st, s, codes, env).0 == 2 ==> LoadGameEffect(st, s, codes, env).1.player.invincible == s.invincible
  {
  }

  /** After `Load_Game` the game is in custom level mode exactly when the
      savegame names no active world, and the return stack is the saved
      one. */
  lemma LoadGameModeAndReturns(st: SessionState, s: Save, codes: PlayerTypeCodes, env: Environment)
    ensures LoadGameEffect(st, s, codes, env).1.customMode <==> s.overworldActive == []
    ensures LoadGameEffect(st, s, codes, env).1.player.returnStack == s.returnEntries
  {
    var afterWorld := WorldEffect(st.(customMode := false), s, env);
    LevelsKeepMode(afterWorld, s, s.levels, env);
  }

  lemma {:induction false} LevelsKeepMode(st: SessionState, s: Save, ls: seq<SaveLevel>, env: Environment)
    ensures LevelsEffect(st, s, ls, env).1.customMode == st.customMode
  {
    if ls != [] {
      LevelsKeepMode(st, s, ls[..|ls| - 1], env);
    }
  }

  /** The running game `Load_Game` restores into. */
  class Session {
    var customMode: bool
    var activeOverworld: Option<String>
    var overworldWaypoint: Option<nat>
    var activeLevel: Option<String>
    var objectLookups: seq<(int, int, int)>
    var music: seq<String>
    var player: PlayerData
    var hud: HudData

    constructor (st: SessionState)
      ensures State() == st
    {
      customMode := st.customMode;
      activeOverworld := st.activeOverworld;
      overworldWaypoint := st.overworldWaypoint;
      activeLevel := st.activeLevel;
      objectLookups := st.objectLookups;
      music := st.music;
      player := st.player;
      hud := st.hud;
    }

    function State(): SessionState
      reads this
    {
      SessionState(customMode, activeOverworld, overworldWaypoint, activeLevel, objectLookups, music, player, hud)
    }

    /** Replaces the whole state at once. */
    method SetState(st: SessionState)
      modifies this
      ensures State() == st
    {
      customMode := st.customMode;
      activeOverworld := st.activeOverworld;
      overworldWaypoint := st.overworldWaypoint;
      activeLevel := st.activeLevel;
      objectLookups := st.objectLookups;
      music := st.music;
      player := st.player;
      hud := st.hud;
    }

    /** `Load_Game` after the world progress, for a record `s` that `Load`
        read: the mode and active world, the levels, then the player. */
    method Restore(s: Save, codes: PlayerTypeCodes, env: Environment) returns (saveType: nat)
      modifies this
      ensures (saveType, State()) == LoadGameEffect(old(State()), s, codes, env)
    {
      var st := State().(customMode := false);
      st := RestoreWorld(st, s, env);
      saveType, st := RestoreLevels(st, s, env);
      st := RestorePlayer(st, s, saveType, codes, env);
      SetState(st);
    }
  }

  /** The active world and the mode. */
  method RestoreWorld(st: SessionState, s: Save, env: Environment) returns (r: SessionState)
    ensures r == WorldEffect(st, s, env)
  {
    r := st;
    if s.overworldActive != [] {
      if env.worldExists(s.overworldActive) {
        r := r.(activeOverworld := Some(s.overworldActive));
      }
      if env.waypointValid(s.overworldCurrentWaypoint) {
        r := r.(overworldWaypoint := Some(s.overworldCurrentWaypoint));
      }
    } else {
      r := r.(customMode := true);
    }
  }

  /** The loop over the saved levels. */
  method RestoreLevels(st: SessionState, s: Save, env: Environment) returns (saveType: nat, r: SessionState)
    ensures (saveType, r) == LevelsEffect(st, s, s.levels, env)
  {
    saveType := 2;
    r := st;
    var ls := s.levels;
    for i := 0 to |ls|
      invariant (saveType, r) == LevelsEffect(st, s, ls[..i], env)
    {
      LevelsEffectStep(st, s, ls, i, env);
      saveType, r := RestoreLevel(saveType, r, s, ls[i], env);
    }
    assert ls[..|ls|] == ls;
  }

  /** One turn of the loop over the saved levels. */
  method RestoreLevel(t: nat, before: SessionState, s: Save, l: SaveLevel, env: Environment) returns (saveType: nat, r: SessionState)
    requires t == 1 || t == 2
    ensures (saveType, r) == LevelEffect(t, before, s, l, env)
  {
    saveType, r := t, before;
    if !env.levelLoads(l.name) {
      return;
    }
    if !env.isZero(l.posX) && !env.isZero(l.posY) {
      var y := l.posY;
      if s.version < 9 {
        y := y - 1200.0;
      }
      r := r.(activeLevel := Some(l.name), hud := r.hud.(levelTime := s.levelTime), player := r.player.(pos := (l.posX, y)));
      saveType := 1;
    }
    var lookups := CollectLookups(l.objects);
    r := r.(objectLookups := r.objectLookups + lookups);
  }

  /** The player's type, invincibility, music, counters and return stack. */
  method RestorePlayer(st: SessionState, s: Save, saveType: nat, codes: PlayerTypeCodes, env: Environment) returns (r: SessionState)
    ensures r == PlayerEffect(st, s, saveType, codes, env)
  {
    var p := st.player;
    if s.version < 8 {
      p := p.(typeCalls := p.typeCalls + [(s.playerState, false)]);
    } else {
      if s.playerType == codes.ghostType {
        p := p.(typeCalls := p.typeCalls + [(s.playerType, false), (s.playerTypeTempPower, true)]);
      } else {
        p := p.(typeCalls := p.typeCalls + [(s.playerType, false)]);
      }
      p := p.(movingState := Some(s.playerState));
    }
    p := p.(invincible := s.invincible, invincibleStar := s.invincibleStar);
    if saveType == 1 && p.invincible < SpeedfactorFps {
      p := p.(invincible := SpeedfactorFps);
    }
    p := p.(ghostTime := s.ghostTime, ghostTimeMod := s.ghostTimeMod);
    r := st;
    if !env.isZero(p.invincibleStar) {
      r := r.(music := r.music + ["game/star.ogg", env.levelMusic]);
    } else if saveType == 1 {
      r := r.(music := r.music + [env.levelMusic]);
    } else {
      r := r.(music := r.music + [env.worldMusic]);
    }
    // the gold display turns every 100 pieces into a life, and the lives
    // are set right after
    r := r.(hud := r.hud.(points := s.points, goldpieces := s.goldpieces % 100, lives := s.lives, itemboxItem := s.itemboxItem));
    var entries: seq<ReturnEntry> := [];
    for i := 0 to |s.returnEntries|
      invariant entries == s.returnEntries[..i]
    {
      entries := entries + [s.returnEntries[i]];
    }
    assert s.returnEntries[..|s.returnEntries|] == s.returnEntries;
    r := r.(player := p.(returnStack := entries));
  }

  /** The lookups of a level's saved objects, by `Get_Value` and
      `string_to_int`. */
  method CollectLookups(os: seq<SaveLevelObject>) returns (r: seq<(int, int, int)>)
    ensures r == ObjectLookups(os)
  {
    r := [];
    for i := 0 to |os|
      invariant r == ObjectLookups(os[..i])
    {
      ObjectLookupsStep(os, i);
      var x := GetValue(os[i], "posx");
      var y := GetValue(os[i], "posy");
      r := r + [(StringToInt(x), StringToInt(y), os[i].spriteType)];
    }
    assert os[..|os|] == os;
  }

  /** `cSavegame` of TSC: the directories and the files in them. */
  class SavegameManager {
    var dirs: SaveDirs
    var files: map<String, Save>

    constructor (d: SaveDirs, existing: map<String, Save>)
      ensures dirs == d && files == existing
    {
      dirs := d;
      files := existing;
    }

    /** `Load`: the probe chain, then the check of every level. */
    method Load(slot: nat, levelPath: String -> String, levelExists: String -> bool) returns (r: Result<Save, LoadError>)
      ensures r == LoadSlot(files, dirs, slot, levelPath, levelExists)
    {
      var current := SlotFile(dirs.packageDir, slot, ".tscsav");
      var s: Save;
      if current in files {
        s := files[current];
      } else {
        var smc := SlotFile(dirs.packageDir, slot, ".smcsav");
        if smc in files {
          s := files[smc];
        } else {
          var oldest := SlotFile(dirs.savegameDir, slot, ".save");
          if oldest in files {
            s := files[oldest];
          } else {
            return Err(InvalidSavegame(slot));
          }
        }
      }
      var e := CheckLevels(s.levels, levelPath, levelExists);
      if e.Some? {
        return Err(InvalidLevel(e.value));
      }
      return Ok(s);
    }

    /** `Save_Game`: refused for a dead player or negative lives; otherwise
        the older files of the slot are removed and the record written to
        `<slot>.tscsav` in the package directory. */
    method SaveGame(slot: nat, description: String, g: GameState, codes: PlayerTypeCodes, time: int, writeFails: bool)
      returns (ok: bool)
      modifies this
      ensures ok <==> CanSave(g, codes)
      ensures dirs == old(dirs)
      ensures !ok ==> files == old(files)
      ensures ok ==> files == FilesAfterSaving(old(files), dirs, slot, SaveFromGame(g, description, time), writeFails)
    {
      if g.playerType == codes.dead || g.lives < 0 {
        return false;
      }
      var s := BuildSave(g, description, time);
      files := files - {SlotFile(dirs.packageDir, slot, ".save"), SlotFile(dirs.packageDir, slot, ".smcsav")};
      if !writeFails {
        files := files[SlotFile(dirs.packageDir, slot, ".tscsav") := s];
      }
      return true;
    }
  }
}
