/** The level exit, `cLevel_Exit` (tsc/src/objects/level_exit.cpp): where it
    leads (destination level and entry), what it pushes on the player's
    return stack (return level and entry), how the camera moves, and how
    it is read from and written to a level file. The header with the enum
    values is not part of this model: the exit types are BEAM = 0 and
    WARP = 1, the camera motions FLY = 0, BLINK = 1, ALONG_PATH = 2 and
    ALONG_PATH_BACKWARDS = 3, as levels store them. */
module LevelExits {
  import opened Common
  import opened GameTypes
  import opened XmlAttributes
  import opened PropertyHelper

  const ExitBeam: int := 0
  const ExitWarp: int := 1
  const CameraFly: int := 0
  const CameraBlink: int := 1
  const CameraAlongPath: int := 2
  const CameraAlongPathBackwards: int := 3

  predicate PathMotion(m: int)
  {
    m == CameraAlongPath || m == CameraAlongPathBackwards
  }

  /** The settings of an exit. */
  datatype ExitData = ExitData(
    exitType: int, motion: int,
    destLevel: String, destEntry: String, returnLevel: String, returnEntry: String,
    pathIdentifier: String, direction: Direction, startDirection: Direction)

  /** `Init`: a beam exit, flying camera, facing down, leading nowhere. */
  const InitialExit := ExitData(ExitBeam, CameraFly, [], [], [], [], [], DirDown, DirDown)

  /** What the attribute constructor reads: `type` and `camera_motion` when
      present, the four names as given (missing ones empty), the path
      identifier only for path motions, and the direction only for warp
      exits. `Set_Direction` with the direction it already has changes
      nothing, any other sets both the direction and the start direction. */
  function LoadedExit(a: Attributes): (d: ExitData)
    ensures d.destLevel == Get(a, "level_name") && d.destEntry == Get(a, "entry")
    ensures d.returnLevel == Get(a, "return_level_name") && d.returnEntry == Get(a, "return_entry")
    ensures PathMotion(d.motion) ==> d.pathIdentifier == Get(a, "path_identifier")
    ensures !PathMotion(d.motion) ==> d.pathIdentifier == []
    ensures d.exitType != ExitWarp ==> d.direction == DirDown
    ensures d.exitType == ExitWarp && "direction" in a ==> d.direction == DirectionId(a["direction"])
    ensures d.direction == d.startDirection
  {
    var t := FetchInt(a, "type", ExitBeam);
    var m := FetchInt(a, "camera_motion", CameraFly);
    var path := if PathMotion(m) then Get(a, "path_identifier") else [];
    var dir := LoadedDirection(t, a);
    ExitData(t, m, Get(a, "level_name"), Get(a, "entry"), Get(a, "return_level_name"),
             Get(a, "return_entry"), path, dir, dir)
  }

  /** The direction a loaded exit faces: the named one for a warp exit
      that names one, down otherwise. */
  function LoadedDirection(t: int, a: Attributes): Direction
  {
    if t == ExitWarp && "direction" in a then DirectionId(a["direction"]) else DirDown
  }

  /** `Get_XML_Type_Name`: the exit type as a number. */
  function TypeName(d: ExitData): String
  {
    IntToString(d.exitType)
  }

  /** The properties `Save_To_XML_Node` adds: the camera motion always; the
      four names only when not empty; the path identifier for a path motion
      when not empty; the start direction's name for a warp exit. The
      sprite part writes the type under `type`, from `TypeName`. */
  function SavedProperties(d: ExitData): Attributes
  {
    var r0 := map["camera_motion" := IntToString(d.motion)];
    var r1 := if d.destLevel != [] then r0["level_name" := d.destLevel] else r0;
    var r2 := if d.destEntry != [] then r1["entry" := d.destEntry] else r1;
    var r3 := if d.returnLevel != [] then r2["return_level_name" := d.returnLevel] else r2;
    var r4 := if d.returnEntry != [] then r3["return_entry" := d.returnEntry] else r3;
    var r5 := if PathMotion(d.motion) && d.pathIdentifier != [] then r4["path_identifier" := d.pathIdentifier] else r4;
    if d.exitType == ExitWarp then r5["direction" := DirectionName(d.startDirection)] else r5
  }

  /** The exits a level file can describe: type and motion numbers the
      parser reads back, a path identifier only on path motions, and a
      direction that is the start direction, down unless warping. */
  predicate Saveable(d: ExitData)
  {
    0 <= d.exitType <= IntMax && 0 <= d.motion <= IntMax
    && (!PathMotion(d.motion) ==> d.pathIdentifier == [])
    && d.direction == d.startDirection
    && (d.exitType != ExitWarp ==> d.direction == DirDown)
  }

  /** Each setting is written under its own key, and only when it is set. */
  lemma SavedKeys(d: ExitData)
    ensures var r := SavedProperties(d);
      && "camera_motion" in r && r["camera_motion"] == IntToString(d.motion)
      && Get(r, "level_name") == d.destLevel && Get(r, "entry") == d.destEntry
      && Get(r, "return_level_name") == d.returnLevel && Get(r, "return_entry") == d.returnEntry
      && ("level_name" in r <==> d.destLevel != []) && ("entry" in r <==> d.destEntry != [])
      && ("return_level_name" in r <==> d.returnLevel != []) && ("return_entry" in r <==> d.returnEntry != [])
      && ("path_identifier" in r <==> PathMotion(d.motion) && d.pathIdentifier != [])
      && (PathMotion(d.motion) ==> Get(r, "path_identifier") == d.pathIdentifier)
      && ("direction" in r <==> d.exitType == ExitWarp)
      && (d.exitType == ExitWarp ==> r["direction"] == DirectionName(d.startDirection))
      && "type" !in r
  {
  }

  /** Writing an exit and reading it back gives the same exit. */
  lemma SaveLoadRoundTrip(d: ExitData)
    requires Saveable(d)
    ensures LoadedExit(SavedProperties(d)["type" := TypeName(d)]) == d
  {
    var r := SavedProperties(d);
    var a := r["type" := TypeName(d)];
    SavedKeys(d);
    StringToIntOfNat(d.exitType);
    StringToIntOfNat(d.motion);
    assert FetchInt(a, "type", ExitBeam) == d.exitType;
    assert FetchInt(a, "camera_motion", CameraFly) == d.motion;
    assert Get(a, "level_name") == d.destLevel && Get(a, "entry") == d.destEntry;
    assert Get(a, "return_level_name") == d.returnLevel && Get(a, "return_entry") == d.returnEntry;
    assert PathMotion(d.motion) ==> Get(a, "path_identifier") == d.pathIdentifier;
    if d.exitType == ExitWarp {
      DirectionNameRoundTrip(d.startDirection);
      assert a["direction"] == DirectionName(d.startDirection);
    }
  }

  /** Where activating an exit leads. */
  datatype ExitOutcome =
    | GotoSubLevel(level: String, entry: String, motion: int, path: String)
    | FinishLevel

  /** `Activate` past the warp animation, on the player's return stack
      (last pushed last) and the current level's name: an exit with neither
      destination level nor entry pops the stack and goes there, or
      finishes the level when the stack is empty; any other pushes a return
      point when a return level or entry is set (the current level standing
      in for an empty return level) and goes to its destination. */
  function ExitActivation(d: ExitData, stack: seq<(String, String)>, current: String): (r: (ExitOutcome, seq<(String, String)>))
    ensures d.destLevel == [] && d.destEntry == [] && stack == [] ==> r == (FinishLevel, stack)
    ensures d.destLevel == [] && d.destEntry == [] && stack != [] ==>
      r.0 == GotoSubLevel(stack[|stack| - 1].0, stack[|stack| - 1].1, d.motion, d.pathIdentifier)
      && r.1 == stack[..|stack| - 1]
    ensures !(d.destLevel == [] && d.destEntry == []) ==>
      r.0 == GotoSubLevel(d.destLevel, d.destEntry, d.motion, d.pathIdentifier)
    ensures !(d.destLevel == [] && d.destEntry == []) && (d.returnLevel != [] || d.returnEntry != []) ==>
      r.1 == stack + [(if d.returnLevel == [] then current else d.returnLevel, d.returnEntry)]
    ensures !(d.destLevel == [] && d.destEntry == []) && d.returnLevel == [] && d.returnEntry == [] ==>
      r.1 == stack
  {
    if d.destLevel == [] && d.destEntry == [] then
      if stack == [] then (FinishLevel, stack)
      else
        var top := stack[|stack| - 1];
        (GotoSubLevel(top.0, top.1, d.motion, d.pathIdentifier), stack[..|stack| - 1])
    else
      var pushed :=
        if d.returnLevel != [] || d.returnEntry != [] then
          stack + [(if d.returnLevel == [] then current else d.returnLevel, d.returnEntry)]
        else stack;
      (GotoSubLevel(d.destLevel, d.destEntry, d.motion, d.pathIdentifier), pushed)
  }

  /** Going out through an exit with a return point and later through an
      exit without destination brings the player back to that return point
      (the level left when no return level was set) and leaves the return
      stack as it was. */
  lemma ReturnTrip(out: ExitData, back: ExitData, stack: seq<(String, String)>, current: String, there: String)
    requires out.destLevel != [] || out.destEntry != []
    requires out.returnLevel != [] || out.returnEntry != []
    requires back.destLevel == [] && back.destEntry == []
    ensures var s := ExitActivation(out, stack, current).1;
            ExitActivation(back, s, there)
            == (GotoSubLevel(if out.returnLevel == [] then current else out.returnLevel, out.returnEntry,
                             back.motion, back.pathIdentifier), stack)
  {
    var s := ExitActivation(out, stack, current).1;
    assert s[..|s| - 1] == stack;
  }

  /** The player's stack of return points, `Push_Return`/`Pop_Return` of
      the level player (whose source is not part of this model). */
  class ReturnStack {
    var entries: seq<(String, String)>

    constructor ()
      ensures entries == []
    {
      entries := [];
    }

    method Push(level: String, entry: String)
      modifies this
      ensures entries == old(entries) + [(level, entry)]
    {
      entries := entries + [(level, entry)];
    }

    method Pop() returns (ok: bool, level: String, entry: String)
      modifies this
      ensures ok <==> old(entries) != []
      ensures ok ==> (level, entry) == old(entries)[|old(entries)| - 1] && entries == old(entries)[..|old(entries)| - 1]
      ensures !ok ==> entries == old(entries)
    {
      if entries == [] {
        return false, [], [];
      }
      ok := true;
      level := entries[|entries| - 1].0;
      entry := entries[|entries| - 1].1;
      entries := entries[..|entries| - 1];
    }
  }

  class LevelExit {
    var exitType: int
    var motion: int
    var destLevel: String
    var destEntry: String
    var returnLevel: String
    var returnEntry: String
    var pathIdentifier: String
    var direction: Direction
    var startDirection: Direction
    /** the editor colour: lila with a destination level, red without */
    var marksDestination: bool

    function Data(): ExitData
      reads this
    {
      ExitData(exitType, motion, destLevel, destEntry, returnLevel, returnEntry, pathIdentifier, direction, startDirection)
    }

    /** `cLevel_Exit()`: `Init`. */
    constructor ()
      ensures Data() == InitialExit && !marksDestination
    {
      exitType := ExitBeam;
      motion := CameraFly;
      destLevel := [];
      destEntry := [];
      returnLevel := [];
      returnEntry := [];
      pathIdentifier := [];
      direction := DirDown;
      startDirection := DirDown;
      marksDestination := false;
    }

    /** `cLevel_Exit(attributes)`: `Init`, then the settings in the order the
        source sets them. */
    constructor FromAttributes(a: Attributes)
      ensures Data() == LoadedExit(a)
      ensures marksDestination <==> Get(a, "level_name") != []
    {
      // `Init`, then `Set_Type` and `Set_Camera_Motion` (plain stores) and
      // the path identifier for a path motion
      var m := FetchInt(a, "camera_motion", CameraFly);
      exitType := FetchInt(a, "type", ExitBeam);
      motion := m;
      destLevel := [];
      destEntry := [];
      returnLevel := [];
      returnEntry := [];
      pathIdentifier := if PathMotion(m) then Get(a, "path_identifier") else [];
      direction := DirDown;
      startDirection := DirDown;
      marksDestination := false;
      new;
      LoadNames(a);
      LoadDirection(a);
    }

    /** The constructor's four names, set in the source's order. */
    method LoadNames(a: Attributes)
      requires destEntry == []
      modifies this`destLevel, this`destEntry, this`returnLevel, this`returnEntry, this`marksDestination
      ensures destLevel == Get(a, "level_name") && destEntry == Get(a, "entry")
      ensures returnLevel == Get(a, "return_level_name") && returnEntry == Get(a, "return_entry")
      ensures marksDestination <==> Get(a, "level_name") != []
    {
      SetLevel(Get(a, "level_name"));
      SetEntry(Get(a, "entry"));
      SetReturnLevel(Get(a, "return_level_name"));
      SetReturnEntry(Get(a, "return_entry"));
    }

    /** The constructor's last step: a warp exit takes the direction in
        `direction`, keeping the start direction when there is none. */
    method LoadDirection(a: Attributes)
      requires direction == DirDown && startDirection == DirDown
      modifies this`direction, this`startDirection
      ensures direction == LoadedDirection(exitType, a) && startDirection == direction
    {
      if exitType == ExitWarp {
        var dir := startDirection;
        if "direction" in a {
          dir := DirectionId(a["direction"]);
        }
        SetDirection(dir, true);
      }
    }

    /** `Copy`: a new exit with the same settings, facing its start
        direction. */
    method Copy() returns (c: LevelExit)
      ensures fresh(c)
      ensures c.Data() == Data().(direction := startDirection)
    {
      c := new LevelExit();
      c.SetType(exitType);
      c.SetCameraMotion(motion);
      c.SetPathIdentifier(pathIdentifier);
      c.SetDirection(startDirection, true);
      c.SetLevel(destLevel);
      c.SetEntry(destEntry);
      c.SetReturnLevel(returnLevel);
      c.SetReturnEntry(returnEntry);
    }

    method SetType(t: int)
      modifies this`exitType
      ensures Data() == old(Data()).(exitType := t)
    {
      exitType := t;
    }

    method SetCameraMotion(m: int)
      modifies this`motion
      ensures Data() == old(Data()).(motion := m)
    {
      motion := m;
    }

    /** `Set_Level`: the name is stored in both branches; only the editor
        colour tells an exit without destination (no level and no entry)
        apart. */
    method SetLevel(name: String)
      modifies this`destLevel, this`marksDestination
      ensures Data() == old(Data()).(destLevel := name)
      ensures marksDestination <==> !(name == [] && destEntry == [])
    {
      if name == [] && destEntry == [] {
        destLevel := [];
        marksDestination := false;
        return;
      }
      marksDestination := true;
      destLevel := name;
    }

    method SetEntry(name: String)
      modifies this`destEntry
      ensures Data() == old(Data()).(destEntry := name)
    {
      destEntry := name;
    }

    method SetReturnLevel(name: String)
      modifies this`returnLevel
      ensures Data() == old(Data()).(returnLevel := name)
    {
      returnLevel := name;
    }

    method SetReturnEntry(name: String)
      modifies this`returnEntry
      ensures Data() == old(Data()).(returnEntry := name)
    {
      returnEntry := name;
    }

    method SetPathIdentifier(name: String)
      modifies this`pathIdentifier
      ensures Data() == old(Data()).(pathIdentifier := name)
    {
      pathIdentifier := name;
    }

    /** `Set_Direction`: nothing changes when the exit already faces `dir`;
        otherwise the direction, and for an initial one the start
        direction, become `dir`. */
    method SetDirection(dir: Direction, initial: bool)
      modifies this`direction, this`startDirection
      ensures old(direction) == dir ==> Data() == old(Data())
      ensures old(direction) != dir && initial ==> Data() == old(Data()).(direction := dir, startDirection := dir)
      ensures old(direction) != dir && !initial ==> Data() == old(Data()).(direction := dir)
    {
      if direction == dir {
        return;
      }
      direction := dir;
      if initial {
        startDirection := dir;
      }
    }

    /** `Save_To_XML_Node`'s own properties. */
    function SaveToXml(): (r: Attributes)
      reads this
      ensures r == SavedProperties(Data())
    {
      SavedProperties(Data())
    }

    /** `Activate` past the warp animation: the player's return stack is
        popped or pushed as `ExitActivation` decides, and the outcome says
        where the level manager goes. */
    method Activate(player: ReturnStack, current: String) returns (outcome: ExitOutcome)
      modifies player
      ensures (outcome, player.entries) == ExitActivation(Data(), old(player.entries), current)
    {
      if destLevel == [] && destEntry == [] {
        var ok, level, entry := player.Pop();
        if ok {
          outcome := GotoSubLevel(level, entry, motion, pathIdentifier);
        } else {
          outcome := FinishLevel;
        }
      } else {
        if returnLevel != [] || returnEntry != [] {
          if returnLevel == [] {
            player.Push(current, returnEntry);
          } else {
            player.Push(returnLevel, returnEntry);
          }
        }
        outcome := GotoSubLevel(destLevel, destEntry, motion, pathIdentifier);
      }
    }
  }
}
