/** A TSC world map (tsc/src/overworld/overworld.cpp): its description
    (path and name), its waypoints in order, the other world objects, and the
    engine version that says whether it is loaded. The waypoint access flags
    are the player's progress. Layers, animations, the camera and drawing are
    not modelled. */
module Overworld {
  import opened Common
  import opened WorldWaypoint
  import opened XmlAttributes

  /** `world_engine_version` */
  const WorldEngineVersion: int := 5

  /** A world object other than a waypoint, with the attributes it was
      created from (`cSprite`, `cRandom_Sound`, `cLayer_Line_Point_Start`). */
  datatype WorldObject =
    | WorldSprite(attrs: Attributes)
    | WorldSound(attrs: Attributes)
    | WorldLine(attrs: Attributes)

  /** A background colour as it was constructed: `Color()`, from float
      channels, or from byte channels. */
  datatype Color =
    | BlankColor
    | FloatColor(fRed: real, fGreen: real, fBlue: real)
    | ByteColor(red: int, green: int, blue: int)

  /** What the world file sets besides the waypoints: `m_engine_version`,
      `m_last_saved`, `m_musicfile`, the player start, the background and the
      other world objects. */
  datatype WorldState = WorldState(
    engineVersion: int,
    lastSaved: int,
    musicFile: String,
    playerStartWaypoint: int,
    playerMovingState: int,
    background: Color,
    objects: seq<WorldObject>)

  /* ---------------------------------------------------------------------
     Progress over the access flags, one per waypoint in order
     --------------------------------------------------------------------- */

  /** `Set_Progress(n, force)` on the flags: every waypoint up to index n
      becomes accessible; later ones lose access when forced and keep it
      otherwise. */
  function ProgressFlags(flags: seq<bool>, n: nat, force: bool): (r: seq<bool>)
    ensures |r| == |flags|
  {
    seq(|flags|, i requires 0 <= i < |flags| => if i <= n then true else if force then false else flags[i])
  }

  /** `Get_Last_Valid_Waypoint` on the flags: the highest accessible index
      above 0 (the start waypoint at 0 never counts), -1 without one. */
  function LastValid(flags: seq<bool>): (r: int)
    ensures -1 <= r < |flags| && r != 0
  {
    if |flags| <= 1 then -1
    else if flags[|flags| - 1] then |flags| - 1
    else LastValid(flags[..|flags| - 1])
  }

  /** The last valid index is accessible and nothing above it is; -1 means
      no waypoint above the start is accessible. */
  lemma {:induction false} LastValidIsLast(flags: seq<bool>)
    ensures LastValid(flags) >= 1 ==> flags[LastValid(flags)]
    ensures forall i :: LastValid(flags) < i < |flags| && 1 <= i ==> !flags[i]
  {
    if |flags| > 1 && !flags[|flags| - 1] {
      var front := flags[..|flags| - 1];
      LastValidIsLast(front);
      assert forall i :: 0 <= i < |front| ==> front[i] == flags[i];
    }
  }

  /** After a forced `Set_Progress(n)` the last valid waypoint is n itself
      (or the last waypoint when n is beyond the end); with n = 0 there is
      none. */
  lemma ForcedProgressLastValid(flags: seq<bool>, n: nat)
    ensures LastValid(ProgressFlags(flags, n, true)) ==
              if n == 0 || |flags| <= 1 then -1 else Min(n, |flags| - 1)
  {
    var p := ProgressFlags(flags, n, true);
    LastValidIsLast(p);
    assert forall i :: n < i < |p| ==> !p[i];
    if n >= 1 && |flags| > 1 {
      assert p[Min(n, |flags| - 1)];
    }
  }

  /** An unforced `Set_Progress` only ever grants access. */
  lemma UnforcedProgressGrows(flags: seq<bool>, n: nat)
    ensures forall i :: 0 <= i < |flags| && flags[i] ==> ProgressFlags(flags, n, false)[i]
    ensures forall i :: 0 <= i < |flags| && i <= n ==> ProgressFlags(flags, n, false)[i]
  {
  }

  /** The index of the first destination equal to `name`, -1 if none. */
  function IndexOf(dests: seq<String>, name: String): (r: int)
    ensures -1 <= r < |dests|
    ensures r >= 0 ==> dests[r] == name && forall j :: 0 <= j < r ==> dests[j] != name
    ensures r == -1 ==> forall j :: 0 <= j < |dests| ==> dests[j] != name
  {
    if dests == [] then -1
    else if dests[0] == name then 0
    else
      var k := IndexOf(dests[1..], name);
      if k == -1 then -1 else k + 1
  }

  /** The level file extensions `Get_Level_Waypoint_Num` strips. */
  predicate HasLevelExtension(name: String)
  {
    Contains(name, ".txt") || Contains(name, ".smclvl") || Contains(name, ".tsclvl")
  }

  /** Every extension starts with a '.', so a name that has one has a last
      '.' to be cut at. */
  lemma LevelExtensionHasDot(name: String)
    requires HasLevelExtension(name)
    ensures FindLastChar(name, '.').Some?
  {
    var ext: String;
    if Contains(name, ".txt") { ext := ".txt"; }
    else if Contains(name, ".smclvl") { ext := ".smclvl"; }
    else { ext := ".tsclvl"; }
    var i := Find(name, ext, 0).value;
    assert name[i..i + |ext|][0] == '.';
    FindLastCharIsLast(name, '.');
  }

  /** The name `Get_Level_Waypoint_Num` looks up: a name in which one of the
      level extensions occurs is cut at its last '.'; any other name is used
      as it is. */
  function LevelWaypointName(name: String): (r: String)
    ensures !HasLevelExtension(name) ==> r == name
    ensures HasLevelExtension(name) ==>
              (exists k :: 0 <= k < |name| && name[k] == '.' && r == name[..k]
                           && forall j :: k < j < |name| ==> name[j] != '.')
  {
    if HasLevelExtension(name) then
      LevelExtensionHasDot(name);
      FindLastCharIsLast(name, '.');
      name[..FindLastChar(name, '.').value]
    else name
  }

  class Overworld {
    /** `m_engine_version`: -1 while not loaded */
    var engineVersion: int
    /** `m_last_saved` */
    var lastSaved: int
    /** `m_description->m_path` and `m_description->m_name` */
    var path: String
    var name: String
    /** `m_musicfile` */
    var musicFile: String
    /** `m_background_color` */
    var background: Color
    /** `m_waypoints` */
    var waypoints: seq<Waypoint>
    /** The other objects of `m_sprite_manager`. */
    var objects: seq<WorldObject>
    /** `m_player_start_waypoint` and `m_player_moving_state` (the enum's
        values are not part of this model; `STA_STAY` is taken as 0) */
    var playerStartWaypoint: int
    var playerMovingState: int
    /** `m_next_level` */
    var nextLevel: bool

    /** Each waypoint object is listed once. */
    ghost predicate Valid()
      reads this`waypoints
    {
      forall i, j :: 0 <= i < j < |waypoints| ==> waypoints[i] != waypoints[j]
    }

    /** The fields the world file sets besides the waypoints. */
    function State(): (r: WorldState)
      reads this`engineVersion, this`lastSaved, this`musicFile, this`playerStartWaypoint
      reads this`playerMovingState, this`background, this`objects
      ensures r.engineVersion == engineVersion && r.objects == objects
    {
      WorldState(engineVersion, lastSaved, musicFile, playerStartWaypoint, playerMovingState, background, objects)
    }

    /** The access flags of the waypoints, in order. */
    function Flags(): (r: seq<bool>)
      reads this, waypoints
      ensures |r| == |waypoints|
    {
      seq(|waypoints|, i reads this, waypoints requires 0 <= i < |waypoints| => waypoints[i].access)
    }

    /** The destinations of the waypoints, in order. */
    function Destinations(): (r: seq<String>)
      reads this, waypoints
      ensures |r| == |waypoints|
    {
      seq(|waypoints|, i reads this, waypoints requires 0 <= i < |waypoints| => waypoints[i].destination)
    }

    /** The constructor's `Init`: a world "world_1" named "Unnamed",
        not loaded, without objects. */
    constructor ()
      ensures engineVersion == -1 && !IsLoaded() && lastSaved == 0
      ensures path == "world_1" && name == "Unnamed" && musicFile == "overworld/land_1.ogg"
      ensures waypoints == [] && objects == [] && Valid()
      ensures playerStartWaypoint == 0 && playerMovingState == 0 && !nextLevel
      ensures background == BlankColor
    {
      engineVersion := -1;
      lastSaved := 0;
      path, name := "world_1", "Unnamed";
      musicFile := "overworld/land_1.ogg";
      background := BlankColor;
      waypoints, objects := [], [];
      playerStartWaypoint, playerMovingState := 0, 0;
      nextLevel := false;
    }

    /** `Is_Loaded` */
    predicate IsLoaded()
      reads this
    {
      engineVersion >= 0
    }

    /** `Unload`: a loaded world loses its objects and waypoints and is no
        longer loaded; an unloaded one is left alone. */
    method Unload()
      modifies this`objects, this`waypoints, this`engineVersion, this`lastSaved
      ensures !IsLoaded()
      ensures old(IsLoaded()) ==> objects == [] && waypoints == [] && engineVersion == -1 && lastSaved == 0
      ensures !old(IsLoaded()) ==> objects == old(objects) && waypoints == old(waypoints)
                                   && engineVersion == old(engineVersion) && lastSaved == old(lastSaved)
      ensures old(Valid()) ==> Valid()
    {
      if !IsLoaded() {
        return;
      }
      objects := [];
      waypoints := [];
      engineVersion := -1;
      lastSaved := 0;
    }

    /** `New(name)`: an empty name fails and changes nothing; otherwise the
        world is emptied and becomes a loaded world of that path and name. */
    method New(newName: String) returns (ok: bool)
      modifies this
      ensures ok <==> newName != []
      ensures !ok ==> unchanged(this)
      ensures ok ==> IsLoaded() && engineVersion == WorldEngineVersion
      ensures ok ==> path == newName && name == newName && background == FloatColor(0.2, 0.5, 0.1)
      ensures ok && old(IsLoaded()) ==> waypoints == [] && objects == []
      ensures ok && !old(IsLoaded()) ==> waypoints == old(waypoints) && objects == old(objects)
      ensures old(Valid()) ==> Valid()
    {
      if newName == [] {
        return false;
      }
      Unload();
      path := newName;
      name := newName;
      background := FloatColor(0.2, 0.5, 0.1);
      engineVersion := WorldEngineVersion;
      ok := true;
    }

    /** `Set_Progress(normal_level, force)` */
    method SetProgress(normalLevel: nat, force: bool)
      requires Valid()
      modifies waypoints
      ensures Flags() == ProgressFlags(old(Flags()), normalLevel, force)
      ensures forall k :: 0 <= k < |waypoints| ==>
                waypoints[k].accessDefault == old(waypoints[k].accessDefault) && waypoints[k].destination == old(waypoints[k].destination)
    {
      ghost var before := Flags();
      var i := 0;
      while i < |waypoints|
        invariant 0 <= i <= |waypoints|
        invariant forall k :: 0 <= k < i ==> waypoints[k].access == ProgressFlags(before, normalLevel, force)[k]
        invariant forall k :: i <= k < |waypoints| ==> waypoints[k].access == before[k]
        invariant forall k :: 0 <= k < |waypoints| ==>
                    waypoints[k].accessDefault == old(waypoints[k].accessDefault) && waypoints[k].destination == old(waypoints[k].destination)
      {
        if normalLevel >= i {
          waypoints[i].SetAccess(true, false);
        } else if force {
          waypoints[i].SetAccess(false, false);
        }
        i := i + 1;
      }
    }

    /** `Get_Waypoint(name)`: the first waypoint with that destination. */
    method GetWaypointByName(dest: String) returns (w: Waypoint?)
      ensures IndexOf(Destinations(), dest) == -1 ==> w == null
      ensures IndexOf(Destinations(), dest) >= 0 ==> w == waypoints[IndexOf(Destinations(), dest)]
    {
      var k := GetWaypointNum(dest);
      w := if k >= 0 then waypoints[k] else null;
    }

    /** `Get_Waypoint(num)`: null exactly when the index is past the end. */
    method GetWaypoint(num: int) returns (w: Waypoint?)
      ensures num < 0 || num >= |waypoints| <==> w == null
      ensures 0 <= num < |waypoints| ==> w == waypoints[num]
    {
      // an unsigned index: a negative one is past every end
      if num < 0 || num >= |waypoints| {
        return null;
      }
      w := waypoints[num];
    }

    /** `Get_Waypoint_Num`: the index of the first waypoint with that
        destination, -1 when there is none. */
    method GetWaypointNum(dest: String) returns (r: int)
      ensures r == IndexOf(Destinations(), dest)
    {
      var count := 0;
      while count < |waypoints|
        invariant 0 <= count <= |waypoints|
        invariant forall j :: 0 <= j < count ==> waypoints[j].destination != dest
      {
        if waypoints[count].destination == dest {
          IndexOfFound(Destinations(), dest, count);
          return count;
        }
        count := count + 1;
      }
      IndexOfAbsent(Destinations(), dest);
      return -1;
    }

    /** `Get_Level_Waypoint_Num` */
    method GetLevelWaypointNum(levelName: String) returns (r: int)
      ensures r == IndexOf(Destinations(), LevelWaypointName(levelName))
    {
      var n := levelName;
      if HasLevelExtension(n) {
        LevelExtensionHasDot(n);
        n := n[..FindLastChar(n, '.').value];
      }
      assert n == LevelWaypointName(levelName);
      r := GetWaypointNum(n);
    }

    /** `Get_Last_Valid_Waypoint`: the loop runs down from the end and stops
        before index 0. */
    method GetLastValidWaypoint() returns (r: int)
      ensures r == LastValid(Flags())
    {
      if |waypoints| == 0 {
        return -1;
      }
      var i := |waypoints| - 1;
      assert Flags()[..i + 1] == Flags();
      while i > 0
        invariant 0 <= i < |waypoints|
        invariant LastValid(Flags()) == LastValid(Flags()[..i + 1])
      {
        if waypoints[i].access {
          return i;
        }
        assert Flags()[..i + 1][..i] == Flags()[..i];
        i := i - 1;
      }
      return -1;
    }

    /** `Reset_Waypoints`: every waypoint's access returns to its default. */
    method ResetWaypoints()
      requires Valid()
      modifies waypoints
      ensures forall k :: 0 <= k < |waypoints| ==> waypoints[k].access == waypoints[k].accessDefault
      ensures forall k :: 0 <= k < |waypoints| ==>
                waypoints[k].accessDefault == old(waypoints[k].accessDefault) && waypoints[k].destination == old(waypoints[k].destination)
    {
      var i := 0;
      while i < |waypoints|
        invariant 0 <= i <= |waypoints|
        invariant forall k :: 0 <= k < i ==> waypoints[k].access == waypoints[k].accessDefault
        invariant forall k :: 0 <= k < |waypoints| ==>
                    waypoints[k].accessDefault == old(waypoints[k].accessDefault) && waypoints[k].destination == old(waypoints[k].destination)
      {
        waypoints[i].SetAccess(waypoints[i].accessDefault, false);
        i := i + 1;
      }
    }
  }

  lemma IndexOfFound(dests: seq<String>, name: String, k: nat)
    requires k < |dests| && dests[k] == name
    requires forall j :: 0 <= j < k ==> dests[j] != name
    ensures IndexOf(dests, name) == k
  {
  }

  lemma IndexOfAbsent(dests: seq<String>, name: String)
    requires forall j :: 0 <= j < |dests| ==> dests[j] != name
    ensures IndexOf(dests, name) == -1
  {
  }
}
