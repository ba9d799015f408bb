/** `cSavegame` of the SMC-era savegame manager (tsc/src/user/savegame.cpp):
    building a savegame record from the running game, the slot files it is
    written to and read from, and the description of a slot shown in the
    savegame menu. The files of the savegame directory are a map from path
    to the record they hold; reading a record from its XML text is the
    savegame loader's part. */
module Savegame {
  import opened Common
  import opened Paths
  import opened PropertyHelper
  import opened SaveData

  /** The file of a slot: `<dir>/<slot><extension>`. */
  function SlotFile(dir: String, slot: nat, extension: String): (r: String)
    ensures dir != [] ==> r == dir + "/" + NatToString(slot) + extension
  {
    JoinPath(dir, NatToString(slot) + extension)
  }

  /** Files of one slot with different extensions of one length are
      different files. */
  lemma SlotFilesDiffer(dir: String, slot: nat, e1: String, e2: String)
    requires |e1| == |e2| && e1 != e2
    ensures SlotFile(dir, slot, e1) != SlotFile(dir, slot, e2)
  {
    var f1 := SlotFile(dir, slot, e1);
    var f2 := SlotFile(dir, slot, e2);
    assert f1[|f1| - |e1|..] == e1;
    assert f2[|f2| - |e2|..] == e2;
  }

  /* ---------------------------------------------------------------------
     The running game, as far as a savegame reads it
     --------------------------------------------------------------------- */

  /** A sprite of a loaded level: whether it was spawned (and is destroyed
      automatically), its copy for the savegame, and what its
      `Save_To_Savegame` returns (None for an object without saved state). */
  datatype SpriteState = SpriteState(spawned: bool, autoDestroy: bool, copy: SpawnedObject, saveData: Option<SaveLevelObject>)

  /** A level held by the level manager; `name` is its file name without
      directory and extension. */
  datatype LevelState = LevelState(loaded: bool, name: String, sprites: seq<SpriteState>)

  /** A sprite of a world: its sprite type and, for a waypoint, its
      destination and access. */
  datatype WorldSpriteState = WorldSpriteState(spriteType: int, destination: String, access: bool)
  datatype OverworldState = OverworldState(name: String, sprites: seq<WorldSpriteState>)

  /** The player, the HUD, the managers and the game mode. `activeLevel` is
      the position of the active level in the level manager, -1 when it is
      not there; `activeLevelLoaded` is whether the active level is loaded;
      `mrubySaveData` is what the level's save event hands back;
      `activeOverworld` the name of the active world, if any. */
  datatype GameState = GameState(
    playerType: nat,
    playerTypeTempPower: nat,
    lives: int,
    points: int,
    goldpieces: nat,
    invincible: real,
    invincibleStar: real,
    ghostTime: real,
    ghostTimeMod: real,
    playerState: nat,
    posX: real,
    posY: real,
    returnStack: seq<ReturnEntry>,
    itemboxItem: nat,
    levelTime: nat,
    activeLevelLoaded: bool,
    activeLevel: int,
    mrubySaveData: String,
    levels: seq<LevelState>,
    overworlds: seq<OverworldState>,
    activeOverworld: Option<String>,
    customMode: bool,
    currentWaypoint: int)

  /** The guard of `Save_Game`: no savegame of a dead player or of negative
      lives. */
  predicate CanSave(g: GameState, codes: PlayerTypeCodes)
  {
    g.playerType != codes.dead && g.lives >= 0
  }

  /* ---------------------------------------------------------------------
     The record `Save_Game` builds
     --------------------------------------------------------------------- */

  /** The spawned sprites a level keeps: spawned and not destroyed
      automatically. */
  function KeptSpawned(sprites: seq<SpriteState>): (r: seq<SpawnedObject>)
    ensures |r| <= |sprites|
  {
    if sprites == [] then []
    else
      var last := sprites[|sprites| - 1];
      KeptSpawned(sprites[..|sprites| - 1]) + (if last.spawned && !last.autoDestroy then [last.copy] else [])
  }

  /** The saved states of the sprites that have one, in order. */
  function SavedObjects(sprites: seq<SpriteState>): (r: seq<SaveLevelObject>)
    ensures |r| <= |sprites|
  {
    if sprites == [] then []
    else
      var last := sprites[|sprites| - 1];
      SavedObjects(sprites[..|sprites| - 1]) + (if last.saveData.Some? then [last.saveData.value] else [])
  }

  /** The record of one loaded level: only the active level gets the
      player's position (5 above the feet) and the script data. */
  function SavedLevel(g: GameState, l: LevelState, active: bool): SaveLevel
  {
    SaveLevel(l.name,
      if active then g.posX else 0.0,
      if active then g.posY - 5.0 else 0.0,
      SavedObjects(l.sprites), KeptSpawned(l.sprites),
      if active then g.mrubySaveData else [])
  }

  /** The records of the loaded levels among the first `|ls|` of the level
      manager. */
  function SavedLevels(g: GameState, ls: seq<LevelState>): (r: seq<SaveLevel>)
    ensures |r| <= |ls|
  {
    if ls == [] then []
    else
      var i := |ls| - 1;
      SavedLevels(g, ls[..i]) + (if ls[i].loaded then [SavedLevel(g, ls[i], i == g.activeLevel)] else [])
  }

  /** The waypoints of a world: its sprites of type `TYPE_OW_WAYPOINT`. */
  function SavedWaypoints(sprites: seq<WorldSpriteState>): (r: seq<SaveWaypoint>)
    ensures |r| <= |sprites|
  {
    if sprites == [] then []
    else
      var last := sprites[|sprites| - 1];
      SavedWaypoints(sprites[..|sprites| - 1])
      + (if last.spriteType == TypeOwWaypoint then [SaveWaypoint(last.destination, last.access)] else [])
  }

  function SavedOverworlds(ws: seq<OverworldState>): (r: seq<SaveOverworld>)
    ensures |r| == |ws|
  {
    if ws == [] then []
    else SavedOverworlds(ws[..|ws| - 1]) + [SaveOverworld(ws[|ws| - 1].name, SavedWaypoints(ws[|ws| - 1].sprites))]
  }

  /** The active world and waypoint are only saved outside the custom
      level mode, and the waypoint only when it is valid. */
  function ActiveOverworldName(g: GameState): String
  {
    if g.activeOverworld.Some? && !g.customMode then g.activeOverworld.value else []
  }

  function SavedCurrentWaypoint(g: GameState): nat
  {
    if g.activeOverworld.Some? && !g.customMode && g.currentWaypoint >= 0 then g.currentWaypoint else 0
  }

  /** The record `Save_Game` writes, given the time and the description. */
  function SaveFromGame(g: GameState, description: String, time: int): Save
    requires g.lives >= 0
  {
    NewSave().(
      version := SavegameVersion,
      levelEngineVersion := LevelEngineVersion,
      saveTime := time,
      description := description,
      goldpieces := g.goldpieces,
      levelTime := if g.activeLevelLoaded then g.levelTime else 0,
      levels := if g.activeLevelLoaded then SavedLevels(g, g.levels) else [],
      lives := g.lives,
      points := g.points,
      playerType := g.playerType,
      playerTypeTempPower := g.playerTypeTempPower,
      invincible := g.invincible,
      invincibleStar := g.invincibleStar,
      ghostTime := g.ghostTime,
      ghostTimeMod := g.ghostTimeMod,
      playerState := g.playerState,
      itemboxItem := g.itemboxItem,
      returnEntries := g.returnStack,
      overworlds := SavedOverworlds(g.overworlds),
      overworldActive := ActiveOverworldName(g),
      overworldCurrentWaypoint := SavedCurrentWaypoint(g))
  }

  /** Every saved level is a loaded level of the manager, in order, and
      every loaded level is saved: the i-th saved level is the record of
      the i-th loaded one. */
  lemma {:induction false} SavedLevelsAreTheLoadedOnes(g: GameState, ls: seq<LevelState>)
    ensures forall l :: l in SavedLevels(g, ls) ==> exists i :: 0 <= i < |ls| && ls[i].loaded && l == SavedLevel(g, ls[i], i == g.activeLevel)
    ensures forall i :: 0 <= i < |ls| && ls[i].loaded ==> SavedLevel(g, ls[i], i == g.activeLevel) in SavedLevels(g, ls)
  {
    if ls != [] {
      var n := |ls| - 1;
      SavedLevelsAreTheLoadedOnes(g, ls[..n]);
      assert forall i :: 0 <= i < n ==> ls[..n][i] == ls[i];
    }
  }

  /** Only the active level carries a position: every other saved level
      has both coordinates zero. */
  lemma {:induction false} InactiveLevelsHaveNoPosition(g: GameState, ls: seq<LevelState>)
    requires g.activeLevel < 0 || g.activeLevel >= |ls|
    ensures forall l :: l in SavedLevels(g, ls) ==> l.posX == 0.0 && l.posY == 0.0 && l.mrubyData == []
  {
    if ls != [] {
      InactiveLevelsHaveNoPosition(g, ls[..|ls| - 1]);
    }
  }

  /** The level the game was saved in is the one `Get_Active_Level` finds
      again, when the player stood away from both axes, the level manager
      knows the level and the zero test holds for zero. */
  lemma SavedActiveLevelIsFound(g: GameState, description: String, time: int, levelPath: String -> String, isZero: real -> bool)
    requires g.lives >= 0 && g.activeLevelLoaded
    requires 0 <= g.activeLevel < |g.levels| && g.levels[g.activeLevel].loaded
    requires levelPath(g.levels[g.activeLevel].name) != []
    requires isZero(0.0) && !isZero(g.posX) && !isZero(g.posY - 5.0)
    ensures FirstActive(SaveFromGame(g, description, time).levels, true, levelPath, isZero).Some?
    ensures SaveFromGame(g, description, time).levels[FirstActive(SaveFromGame(g, description, time).levels, true, levelPath, isZero).value].name
            == g.levels[g.activeLevel].name
  {
    var a := g.activeLevel;
    var ls := g.levels;
    var before := SavedLevels(g, ls[..a]);
    InactiveLevelsHaveNoPosition(g, ls[..a]);
    SavedLevelsSplit(g, ls, a);
    var saved := SavedLevels(g, ls);
    assert saved[..|before| + 1] == before + [SavedLevel(g, ls[a], true)];
    assert saved[|before|] == SavedLevel(g, ls[a], true);
    forall j | 0 <= j < |before|
      ensures !IsActive(saved[j], true, levelPath, isZero)
    {
      assert saved[j] == before[j];
      assert before[j] in before;
    }
    FirstActiveAt(saved, true, levelPath, isZero, |before|);
  }

  /** The records of the levels up to and including the active one. */
  lemma {:induction false} SavedLevelsSplit(g: GameState, ls: seq<LevelState>, a: nat)
    requires a == g.activeLevel && a < |ls| && ls[a].loaded
    ensures SavedLevels(g, ls[..a + 1]) == SavedLevels(g, ls[..a]) + [SavedLevel(g, ls[a], true)]
    ensures |SavedLevels(g, ls[..a + 1])| <= |SavedLevels(g, ls)|
    ensures SavedLevels(g, ls)[..|SavedLevels(g, ls[..a + 1])|] == SavedLevels(g, ls[..a + 1])
  {
    assert ls[..a + 1][..a] == ls[..a];
    SavedLevelsPrefix(g, ls, a + 1);
  }

  /** The records of a prefix of the levels are a prefix of the records. */
  lemma {:induction false} SavedLevelsPrefix(g: GameState, ls: seq<LevelState>, k: nat)
    requires k <= |ls|
    ensures |SavedLevels(g, ls[..k])| <= |SavedLevels(g, ls)|
    ensures SavedLevels(g, ls)[..|SavedLevels(g, ls[..k])|] == SavedLevels(g, ls[..k])
    decreases |ls| - k
  {
    if k < |ls| {
      SavedLevelsPrefix(g, ls, k + 1);
      assert ls[..k + 1][..k] == ls[..k];
    } else {
      assert ls[..k] == ls;
    }
  }

  /** The saved waypoints of a world are exactly its waypoint sprites. */
  lemma {:induction false} SavedWaypointsAreTheWaypoints(sprites: seq<WorldSpriteState>)
    ensures forall w :: w in SavedWaypoints(sprites) <==>
              exists i :: 0 <= i < |sprites| && sprites[i].spriteType == TypeOwWaypoint && w == SaveWaypoint(sprites[i].destination, sprites[i].access)
  {
    if sprites != [] {
      var n := |sprites| - 1;
      SavedWaypointsAreTheWaypoints(sprites[..n]);
      assert forall i :: 0 <= i < n ==> sprites[..n][i] == sprites[i];
    }
  }

  /** The spawned sprites kept are exactly those spawned and not destroyed
      automatically. */
  lemma {:induction false} KeptSpawnedAreTheLasting(sprites: seq<SpriteState>)
    ensures forall o :: o in KeptSpawned(sprites) <==>
              exists i :: 0 <= i < |sprites| && sprites[i].spawned && !sprites[i].autoDestroy && o == sprites[i].copy
  {
    if sprites != [] {
      var n := |sprites| - 1;
      KeptSpawnedAreTheLasting(sprites[..n]);
      assert forall i :: 0 <= i < n ==> sprites[..n][i] == sprites[i];
    }
  }

  /** A world is only recorded as active outside the custom level mode,
      and then its waypoint only when valid. */
  lemma ActiveOverworldRule(g: GameState, description: String, time: int)
    requires g.lives >= 0
    ensures var s := SaveFromGame(g, description, time);
      (s.overworldActive != [] ==> g.activeOverworld == Some(s.overworldActive) && !g.customMode)
      && (s.overworldCurrentWaypoint != 0 ==> s.overworldCurrentWaypoint == g.currentWaypoint && !g.customMode)
      && (g.customMode ==> s.overworldActive == [] && s.overworldCurrentWaypoint == 0)
  {
  }

  /** `Save_Game`'s loop over the sprites of one loaded level. */
  method CollectLevel(g: GameState, l: LevelState, active: bool) returns (r: SaveLevel)
    ensures r == SavedLevel(g, l, active)
  {
    var spawned: seq<SpawnedObject> := [];
    var objects: seq<SaveLevelObject> := [];
    var sprites := l.sprites;
    for i := 0 to |sprites|
      invariant spawned == KeptSpawned(sprites[..i])
      invariant objects == SavedObjects(sprites[..i])
    {
      assert sprites[..i + 1][..i] == sprites[..i];
      var obj := sprites[i];
      if obj.spawned && !obj.autoDestroy {
        spawned := spawned + [obj.copy];
      }
      if obj.saveData.Some? {
        objects := objects + [obj.saveData.value];
      }
    }
    assert sprites[..|sprites|] == sprites;
    r := SaveLevel(l.name, 0.0, 0.0, objects, spawned, []);
    if active {
      r := r.(posX := g.posX, posY := g.posY - 5.0, mrubyData := g.mrubySaveData);
    }
  }

  /** `Save_Game`'s loop over the sprites of one world. */
  method CollectOverworld(w: OverworldState) returns (r: SaveOverworld)
    ensures r == SaveOverworld(w.name, SavedWaypoints(w.sprites))
  {
    var waypoints: seq<SaveWaypoint> := [];
    var sprites := w.sprites;
    for i := 0 to |sprites|
      invariant waypoints == SavedWaypoints(sprites[..i])
    {
      assert sprites[..i + 1][..i] == sprites[..i];
      if sprites[i].spriteType != TypeOwWaypoint {
        continue;
      }
      waypoints := waypoints + [SaveWaypoint(sprites[i].destination, sprites[i].access)];
    }
    assert sprites[..|sprites|] == sprites;
    r := SaveOverworld(w.name, waypoints);
  }

  /** The record `Save_Game` assembles, step by step. */
  method BuildSave(g: GameState, description: String, time: int) returns (s: Save)
    requires g.lives >= 0
    ensures s == SaveFromGame(g, description, time)
  {
    s := NewSave().(version := SavegameVersion, levelEngineVersion := LevelEngineVersion,
                    saveTime := time, description := description, goldpieces := g.goldpieces);
    if g.activeLevelLoaded {
      s := s.(levelTime := g.levelTime);
      var levels: seq<SaveLevel> := [];
      for i := 0 to |g.levels|
        invariant levels == SavedLevels(g, g.levels[..i])
      {
        assert g.levels[..i + 1][..i] == g.levels[..i];
        if !g.levels[i].loaded {
          continue;
        }
        var level := CollectLevel(g, g.levels[i], i == g.activeLevel);
        levels := levels + [level];
      }
      assert g.levels[..|g.levels|] == g.levels;
      s := s.(levels := levels);
    }
    s := s.(lives := g.lives, points := g.points, playerType := g.playerType,
            playerTypeTempPower := g.playerTypeTempPower, invincible := g.invincible,
            invincibleStar := g.invincibleStar, ghostTime := g.ghostTime, ghostTimeMod := g.ghostTimeMod,
            playerState := g.playerState, itemboxItem := g.itemboxItem);
    var entries: seq<ReturnEntry> := [];
    for i := 0 to |g.returnStack|
      invariant entries == g.returnStack[..i]
    {
      entries := entries + [ReturnEntry(g.returnStack[i].level, g.returnStack[i].entry)];
    }
    s := s.(returnEntries := entries);
    var worlds: seq<SaveOverworld> := [];
    for i := 0 to |g.overworlds|
      invariant worlds == SavedOverworlds(g.overworlds[..i])
    {
      assert g.overworlds[..i + 1][..i] == g.overworlds[..i];
      var w := CollectOverworld(g.overworlds[i]);
      worlds := worlds + [w];
    }
    assert g.overworlds[..|g.overworlds|] == g.overworlds;
    s := s.(overworlds := worlds);
    if g.activeOverworld.Some? && !g.customMode {
      s := s.(overworldActive := g.activeOverworld.value);
      if g.currentWaypoint >= 0 {
        s := s.(overworldCurrentWaypoint := g.currentWaypoint);
      }
    }
  }

  /* ---------------------------------------------------------------------
     Slot files
     --------------------------------------------------------------------- */

  /** Why a savegame could not be read. */
  datatype LoadError = InvalidSavegame(slot: nat) | InvalidLevel(message: String)

  /** `cSavegame::Load`: `<slot>.smcsav`, then the old `<slot>.save`. */
  function LoadFrom(files: map<String, Save>, dir: String, slot: nat): (r: Result<Save, LoadError>)
    ensures r.Ok? ==> r.value in files.Values
    ensures r.Err? ==> r.error == InvalidSavegame(slot)
  {
    var current := SlotFile(dir, slot, ".smcsav");
    var old_ := SlotFile(dir, slot, ".save");
    if current in files then Ok(files[current])
    else if old_ in files then Ok(files[old_])
    else Err(InvalidSavegame(slot))
  }

  /** `cSavegame::Is_Valid`: either file of the slot exists. */
  predicate IsValidIn(files: map<String, Save>, dir: String, slot: nat)
  {
    SlotFile(dir, slot, ".smcsav") in files || SlotFile(dir, slot, ".save") in files
  }

  /** A slot is valid exactly when it can be read, and a slot holding both
      formats is read from the newer one. */
  lemma ValidIffLoads(files: map<String, Save>, dir: String, slot: nat)
    ensures IsValidIn(files, dir, slot) <==> LoadFrom(files, dir, slot).Ok?
    ensures SlotFile(dir, slot, ".smcsav") in files ==> LoadFrom(files, dir, slot) == Ok(files[SlotFile(dir, slot, ".smcsav")])
  {
  }

  /** The files after `Save_Game` wrote slot `slot`: the old `.save` file is
      removed and, unless writing fails, `.smcsav` holds the record. */
  function FilesAfterSave(files: map<String, Save>, dir: String, slot: nat, s: Save, writeFails: bool): map<String, Save>
  {
    var removed := files - {SlotFile(dir, slot, ".save")};
    if writeFails then removed else removed[SlotFile(dir, slot, ".smcsav") := s]
  }

  /** The slot `Save_Game` wrote reads back the record it wrote. */
  lemma SavedSlotLoads(files: map<String, Save>, dir: String, slot: nat, s: Save)
    ensures LoadFrom(FilesAfterSave(files, dir, slot, s, false), dir, slot) == Ok(s)
    ensures IsValidIn(FilesAfterSave(files, dir, slot, s, false), dir, slot)
  {
  }

  /** `Get_Description`: "<slot>. Free Save" for an invalid slot; otherwise
      the description alone, or the slot, the description, the world
      (without levels) or the first level with a position ("Unknown" when
      none has one), and the date (`dateText` formats the save time). */
  function DescriptionOf(files: map<String, Save>, dir: String, slot: nat, onlyDescription: bool,
                         isZero: real -> bool, dateText: int -> String): (r: String)
    ensures !IsValidIn(files, dir, slot) ==> r == NatToString(slot) + ". Free Save"
    ensures IsValidIn(files, dir, slot) && onlyDescription ==> r == LoadFrom(files, dir, slot).value.description
  {
    ValidIffLoads(files, dir, slot);
    if !IsValidIn(files, dir, slot) then NatToString(slot) + ". Free Save"
    else
      var s := LoadFrom(files, dir, slot).value;
      if onlyDescription then s.description
      else NatToString(slot) + ". " + s.description + PlaceText(s, isZero) + " - Date " + dateText(s.saveTime)
  }

  /** Where the savegame was made, as the description shows it. The active
      level is searched without asking the level manager for its path. */
  function PlaceText(s: Save, isZero: real -> bool): (r: String)
  {
    if s.levels == [] then " - " + s.overworldActive
    else
      var k := FirstActive(s.levels, false, (n: String) => n, isZero);
      if k.Some? then " -  Level " + s.levels[k.value].name else " -  Unknown"
  }

  /** The place named is the world for a savegame without levels, else the
      first level with both coordinates non-zero, else "Unknown". */
  lemma PlaceTextNamesTheActiveLevel(s: Save, isZero: real -> bool, i: nat)
    requires i < |s.levels| && !isZero(s.levels[i].posX) && !isZero(s.levels[i].posY)
    requires forall j :: 0 <= j < i ==> isZero(s.levels[j].posX) || isZero(s.levels[j].posY)
    ensures PlaceText(s, isZero) == " -  Level " + s.levels[i].name
  {
    FirstActiveAt(s.levels, false, (n: String) => n, isZero, i);
  }

  lemma PlaceTextUnknown(s: Save, isZero: real -> bool)
    requires s.levels != []
    requires forall j :: 0 <= j < |s.levels| ==> isZero(s.levels[j].posX) || isZero(s.levels[j].posY)
    ensures PlaceText(s, isZero) == " -  Unknown"
  {
  }

  /** `cSavegame`: the savegame directory and the files in it. */
  class Savegame {
    var savegameDir: String
    var files: map<String, Save>

    constructor (dir: String, existing: map<String, Save>)
      ensures savegameDir == dir && files == existing
    {
      savegameDir := dir;
      files := existing;
    }

    /** `Save_Game`: refused for a dead player or negative lives; otherwise
        the record of the game is written to `<slot>.smcsav` and the old
        `<slot>.save` removed. A write error (`writeFails`) is reported and
        still counts as saved. */
    method SaveGame(slot: nat, description: String, g: GameState, codes: PlayerTypeCodes, time: int, writeFails: bool)
      returns (ok: bool)
      modifies this
      ensures ok <==> CanSave(g, codes)
      ensures savegameDir == old(savegameDir)
      ensures !ok ==> files == old(files)
      ensures ok ==> files == FilesAfterSave(old(files), savegameDir, slot, SaveFromGame(g, description, time), writeFails)
    {
      if g.playerType == codes.dead || g.lives < 0 {
        return false;
      }
      var s := BuildSave(g, description, time);
      files := files - {SlotFile(savegameDir, slot, ".save")};
      if !writeFails {
        files := files[SlotFile(savegameDir, slot, ".smcsav") := s];
      }
      return true;
    }
  }
}
