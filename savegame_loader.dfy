/** `cSavegameLoader` (tsc/src/user/savegame_loader.cpp): the SAX handler
    that reads a savegame file into a `cSave` record. `<property>`s are
    collected into a map until the element around them closes; that
    element's handler then turns them into a part of the record. Objects,
    spawned objects and waypoints are kept aside until their level or world
    closes. */
module SavegameLoading {
  import opened Common
  import opened Paths
  import opened PropertyHelper
  import opened XmlAttributes
  import opened SaveData

  /** `speedfactor_fps` */
  const SpeedfactorFps: real := 32.0

  /** `parse_file`: every file but a `.smcsav` one is read in the old
      format, whose world data has its own element. */
  predicate IsOldFormat(filename: String)
  {
    Extension(filename) != ".smcsav"
  }

  /** The file `Save_Game` of TSC writes is read in the old format, that of
      the SMC manager in the new one. */
  lemma FormatBySuffix()
    ensures IsOldFormat("savegames/1.tscsav") && !IsOldFormat("savegames/1.smcsav") && IsOldFormat("savegames/1.save")
  {
    assert FileNameStart("savegames/1.tscsav") == 10 by {
      assert FindLastChar("savegames/1.tscsav", '/') == Some(9) by {
        FindLastCharAt("savegames/1.tscsav", '/', 9);
      }
    }
    assert FindLastChar("1.tscsav", '.') == Some(1) by {
      FindLastCharAt("1.tscsav", '.', 1);
    }
    assert FileNameStart("savegames/1.smcsav") == 10 by {
      assert FindLastChar("savegames/1.smcsav", '/') == Some(9) by {
        FindLastCharAt("savegames/1.smcsav", '/', 9);
      }
    }
    assert FindLastChar("1.smcsav", '.') == Some(1) by {
      FindLastCharAt("1.smcsav", '.', 1);
    }
    assert FileNameStart("savegames/1.save") == 10 by {
      assert FindLastChar("savegames/1.save", '/') == Some(9) by {
        FindLastCharAt("savegames/1.save", '/', 9);
      }
    }
    assert FindLastChar("1.save", '.') == Some(1) by {
      FindLastCharAt("1.save", '.', 1);
    }
  }

  /** The closing tags `on_end_element` tells apart. */
  datatype SaveEndTag =
    | PropertyEnd
    | RootEnd
    | InformationEnd
    | LevelEnd
    | ObjectsDataEnd
    | ObjectEnd
    | SpawnedObjectsEnd
    | SpawnedObjectEnd
    | PlayerEnd
    | ReturnEnd
    | OldOverworldDataEnd
    | OverworldEnd
    | WaypointEnd
    | UnknownEnd

  /** The dispatch of `on_end_element`, in its order; `isLevelObject` is
      `cLevel::Is_Level_Object_Element`. */
  function ClassifyEnd(name: String, oldFormat: bool, isLevelObject: String -> bool): SaveEndTag
  {
    if IsPropertyTag(name) then PropertyEnd
    else if name == "savegame" || name == "Savegame" then RootEnd
    else if name == "information" || name == "Information" then InformationEnd
    else if name == "level" || name == "Level" then LevelEnd
    else if name == "objects_data" then ObjectsDataEnd
    else if name == "object" || name == "Level_Object" then ObjectEnd
    else if name == "spawned_objects" then SpawnedObjectsEnd
    else if name != "player" && isLevelObject(name) then SpawnedObjectEnd
    else if name == "player" || name == "Player" then PlayerEnd
    else if name == "return" then ReturnEnd
    else if oldFormat && name == "Overworld_Data" then OldOverworldDataEnd
    else if name == "overworld" || name == "Overworld" then OverworldEnd
    else if name == "waypoint" || name == "Overworld_Level" then WaypointEnd
    else UnknownEnd
  }

  /** The elements after which the collected properties are kept: the
      property itself, the root, and the nested object and waypoint lists. */
  predicate KeepsProperties(t: SaveEndTag)
  {
    t.PropertyEnd? || t.RootEnd? || t.ObjectsDataEnd? || t.ObjectEnd? || t.SpawnedObjectsEnd?
    || t.SpawnedObjectEnd? || t.WaypointEnd?
  }

  /** Which closing tags keep the properties, by name: a level object
      element does, unless an earlier case of the dispatch claims its name. */
  lemma KeepsPropertiesByName(name: String, oldFormat: bool, isLevelObject: String -> bool)
    ensures KeepsProperties(ClassifyEnd(name, oldFormat, isLevelObject)) <==>
              IsPropertyTag(name) || name in {"savegame", "Savegame", "objects_data", "object", "Level_Object",
                                              "spawned_objects", "waypoint", "Overworld_Level"}
              || (name !in {"player", "information", "Information", "level", "Level"} && isLevelObject(name))
  {
  }

  /** `on_end_document`: a savegame without description gets one. */
  function FinalDescription(d: String): (r: String)
    ensures r != []
    ensures d != [] ==> r == d
  {
    if d == [] then "No description" else d
  }

  /** `handle_information`: the version is required. */
  function InformationFrom(s: Save, a: Attributes): (r: Option<Save>)
    ensures r.Some? <==> "version" in a
    ensures r.Some? ==> r.value.version == StringToInt(a["version"])
                        && r.value.levelEngineVersion == FetchInt(a, "level_engine_version", s.levelEngineVersion)
                        && r.value.saveTime == StringToTime(Get(a, "save_time"))
                        && r.value.description == Get(a, "description")
                        && r.value.levels == s.levels && r.value.overworlds == s.overworlds
  {
    if "version" !in a then None
    else Some(s.(version := StringToInt(a["version"]),
                 levelEngineVersion := FetchInt(a, "level_engine_version", s.levelEngineVersion),
                 saveTime := StringToTime(Get(a, "save_time")),
                 description := Get(a, "description")))
  }

  /** `handle_level`: the level record, holding the objects and spawned
      objects collected since the previous level. */
  function LevelFrom(a: Attributes, objects: seq<SaveLevelObject>, spawned: seq<SpawnedObject>, toFloat: String -> real): SaveLevel
  {
    SaveLevel(Get(a, "level_name"), FetchFloat(a, "player_posx", 0.0, toFloat), FetchFloat(a, "player_posy", 0.0, toFloat),
              objects, spawned, Get(a, "mruby_data"))
  }

  /** The properties of `<level>` itself, which an `<object>` does not copy
      and leaves collected. */
  const LevelKeys: set<String> := {"level_name", "player_posx", "player_posy", "mruby_data"}

  /** The saved properties of an object: every collected property except
      the level's own, in the order of the map. */
  ghost predicate ObjectProperties(props: seq<(String, String)>, a: Attributes)
  {
    SortedByKey(props) && forall k, v :: (k, v) in props <==> k in a && k !in LevelKeys && a[k] == v
  }

  /** What stays collected after an object: the level's own properties. */
  function AfterObject(a: Attributes): (r: Attributes)
    ensures r.Keys == a.Keys * LevelKeys
    ensures forall k :: k in r ==> r[k] == a[k]
  {
    map k | k in a && k in LevelKeys :: a[k]
  }

  /** `handle_player`, `None` when a required property is missing. The
      world data is read from `<player>` only in the new format. */
  function PlayerFrom(s: Save, a: Attributes, oldFormat: bool, codes: PlayerTypeCodes, toFloat: String -> real): (r: Option<Save>)
    ensures r.Some? <==> "lives" in a && "goldpieces" in a && "state" in a && "itembox_item" in a
                         && (!oldFormat ==> "overworld_current_waypoint" in a)
    ensures r.Some? && oldFormat ==>
              r.value.overworldActive == s.overworldActive && r.value.overworldCurrentWaypoint == s.overworldCurrentWaypoint
    ensures r.Some? && "level_time" !in a ==> r.value.levelTime == s.levelTime
    ensures r.Some? ==> r.value.levels == s.levels && r.value.overworlds == s.overworlds
  {
    if "lives" !in a || "goldpieces" !in a || "state" !in a || "itembox_item" !in a then None
    else if !oldFormat && "overworld_current_waypoint" !in a then None
    else
      var playerType := ToUInt(FetchInt(a, "type", codes.big));
      var p := s.(
        lives := ToUInt(StringToInt(a["lives"])),
        points := if "points" in a then StringToLong(a["points"]) else 0,
        goldpieces := ToUInt(StringToInt(a["goldpieces"])),
        playerType := playerType,
        playerTypeTempPower := ToUInt(FetchInt(a, "type_temp_power", codes.small)),
        invincible := FetchFloat(a, "invincible", 0.0, toFloat),
        invincibleStar := FetchFloat(a, "invincible_star", 0.0, toFloat),
        ghostTime := FetchFloat(a, "ghost_time", if playerType == codes.ghostType then SpeedfactorFps * 10.0 else 0.0, toFloat),
        ghostTimeMod := FetchFloat(a, "ghost_time_mod", 0.0, toFloat),
        playerState := ToUInt(StringToInt(a["state"])),
        itemboxItem := ToUInt(StringToInt(a["itembox_item"])),
        levelTime := if "level_time" in a then ToUInt(StringToInt(a["level_time"])) else s.levelTime);
      if oldFormat then Some(p)
      else Some(p.(overworldActive := Get(a, "overworld_active"),
                   overworldCurrentWaypoint := ToUInt(StringToInt(a["overworld_current_waypoint"]))))
  }

  /** A savegame from before version 2.0 of a ghost player: ten seconds of
      ghost time. */
  lemma OldGhostGetsTenSeconds(s: Save, a: Attributes, oldFormat: bool, codes: PlayerTypeCodes, toFloat: String -> real)
    requires "lives" in a && "goldpieces" in a && "state" in a && "itembox_item" in a && "overworld_current_waypoint" in a
    requires "ghost_time" !in a && "type" in a && ToUInt(StringToInt(a["type"])) == codes.ghostType
    ensures PlayerFrom(s, a, oldFormat, codes, toFloat).Some?
    ensures PlayerFrom(s, a, oldFormat, codes, toFloat).value.ghostTime == 320.0
  {
  }

  /** `handle_old_format_overworld_data`. */
  function OldOverworldDataFrom(s: Save, a: Attributes): (r: Option<Save>)
    ensures r.Some? <==> "current_waypoint" in a
    ensures r.Some? ==> r.value == s.(overworldActive := Get(a, "active"),
                                      overworldCurrentWaypoint := ToUInt(StringToInt(a["current_waypoint"])))
  {
    if "current_waypoint" !in a then None
    else Some(s.(overworldActive := Get(a, "active"), overworldCurrentWaypoint := ToUInt(StringToInt(a["current_waypoint"]))))
  }

  /** The destination of a waypoint: `world_name` and `level_name` of old
      savegames win over `destination`. */
  function WaypointDestination(a: Attributes): (r: String)
    ensures "world_name" in a ==> r == a["world_name"]
    ensures "world_name" !in a && "level_name" in a ==> r == a["level_name"]
    ensures "world_name" !in a && "level_name" !in a ==> r == Get(a, "destination")
  {
    if "world_name" in a then a["world_name"]
    else if "level_name" in a then a["level_name"]
    else Get(a, "destination")
  }

  /** The keys a waypoint consumes. */
  const WaypointKeys: set<String> := {"destination", "level_name", "world_name", "access"}

  /** The loader's state: the record, the collected properties, and what
      waits for its level or world. */
  datatype LoaderState = LoaderState(
    save: Save,
    props: Attributes,
    objects: seq<SaveLevelObject>,
    spawned: seq<SpawnedObject>,
    waypoints: seq<SaveWaypoint>)

  /** What the loader cannot see itself: the level object elements, the
      sprites the level loader makes of a spawned object's element, the
      float conversion and the player type values. */
  datatype LoaderEnv = LoaderEnv(
    isLevelObject: String -> bool,
    createObjects: (String, Attributes, int) -> seq<SpawnedObject>,
    toFloat: String -> real,
    codes: PlayerTypeCodes)

  /** `on_end_element` for every tag but `<object>`: whether it succeeded
      and the new state. A failed `retrieve` leaves the state as it was. */
  function EndEffect(t: SaveEndTag, name: String, st: LoaderState, env: LoaderEnv, oldFormat: bool): (bool, LoaderState)
    requires !t.ObjectEnd?
  {
    var a := st.props;
    var cleared := st.(props := map[]);
    match t
    case PropertyEnd => (true, st)
    case RootEnd => (true, st)
    case ObjectsDataEnd => (true, st)
    case SpawnedObjectsEnd => (true, st)
    case SpawnedObjectEnd =>
      (true, st.(spawned := st.spawned + env.createObjects(name, a, st.save.levelEngineVersion)))
    case InformationEnd =>
      var r := InformationFrom(st.save, a);
      if r.None? then (false, st) else (true, cleared.(save := r.value))
    case LevelEnd =>
      (true, cleared.(save := st.save.(levels := st.save.levels + [LevelFrom(a, st.objects, st.spawned, env.toFloat)]),
                      objects := [], spawned := []))
    case PlayerEnd =>
      var r := PlayerFrom(st.save, a, oldFormat, env.codes, env.toFloat);
      if r.None? then (false, st) else (true, cleared.(save := r.value))
    case ReturnEnd =>
      (true, cleared.(save := st.save.(returnEntries := st.save.returnEntries + [ReturnEntry(Get(a, "level"), Get(a, "entry"))])))
    case OldOverworldDataEnd =>
      var r := OldOverworldDataFrom(st.save, a);
      if r.None? then (false, st) else (true, cleared.(save := r.value))
    case OverworldEnd =>
      (true, cleared.(save := st.save.(overworlds := st.save.overworlds + [SaveOverworld(Get(a, "name"), st.waypoints)]),
                      waypoints := []))
    case WaypointEnd =>
      var access := RetrieveBool(a, "access");
      if access.None? then (false, st)
      else (true, st.(waypoints := st.waypoints + [SaveWaypoint(WaypointDestination(a), access.value)],
                      props := a - WaypointKeys))
    case UnknownEnd => (true, cleared)
  }

  /** `handle_level_object`: an object of type zero or below is skipped
      with its properties still collected; otherwise its properties go
      into the object and only the level's own stay collected. */
  ghost predicate ObjectStep(st: LoaderState, ok: bool, st': LoaderState)
  {
    if "type" !in st.props then !ok && st' == st
    else if StringToInt(st.props["type"]) <= 0 then ok && st' == st
    else
      ok && st'.save == st.save && st'.spawned == st.spawned && st'.waypoints == st.waypoints
      && st'.props == AfterObject(st.props)
      && |st'.objects| == |st.objects| + 1 && st'.objects[..|st.objects|] == st.objects
      && st'.objects[|st.objects|].spriteType == StringToInt(st.props["type"])
      && ObjectProperties(st'.objects[|st.objects|].properties, st.props - LevelKeys)
  }

  /** A level takes the objects and spawned objects collected before it,
      and the next level starts with none. */
  lemma LevelTakesPendingObjects(name: String, st: LoaderState, env: LoaderEnv, oldFormat: bool)
    requires ClassifyEnd(name, oldFormat, env.isLevelObject) == LevelEnd
    ensures var (ok, st') := EndEffect(LevelEnd, name, st, env, oldFormat);
      && ok && st'.objects == [] && st'.spawned == []
      && st'.save.levels == st.save.levels + [LevelFrom(st.props, st.objects, st.spawned, env.toFloat)]
      && st'.save.levels[|st.save.levels|].objects == st.objects
      && st'.save.levels[|st.save.levels|].spawned == st.spawned
  {
  }

  /** A waypoint leaves the world's other properties (its name) collected
      and removes its own four. */
  lemma WaypointKeepsWorldName(st: LoaderState, env: LoaderEnv, oldFormat: bool)
    requires "access" in st.props
    ensures var (ok, st') := EndEffect(WaypointEnd, "waypoint", st, env, oldFormat);
      && ok && st'.props.Keys == st.props.Keys - WaypointKeys
      && ("name" in st.props ==> "name" in st'.props && st'.props["name"] == st.props["name"])
      && st'.waypoints[|st.waypoints|].destination == WaypointDestination(st.props)
  {
  }

  /** Every element that does not keep the properties clears them when it
      succeeds. */
  lemma EndClearsProperties(t: SaveEndTag, name: String, st: LoaderState, env: LoaderEnv, oldFormat: bool)
    requires !t.ObjectEnd?
    ensures EndEffect(t, name, st, env, oldFormat).0 && !KeepsProperties(t) ==> EndEffect(t, name, st, env, oldFormat).1.props == map[]
    ensures KeepsProperties(t) && !t.WaypointEnd? ==> EndEffect(t, name, st, env, oldFormat).1.props == st.props
  {
  }

  /** `cSavegameLoader`. */
  class SavegameLoader {
    var started: bool
    var save: Save
    var isOldFormat: bool
    var currentProperties: Attributes
    var levelObjects: seq<SaveLevelObject>
    var spawnedObjects: seq<SpawnedObject>
    var waypoints: seq<SaveWaypoint>

    /** A loader for the file `filename`, before its document starts. */
    constructor (filename: String)
      ensures !started && isOldFormat == IsOldFormat(filename)
      ensures currentProperties == map[] && levelObjects == [] && spawnedObjects == [] && waypoints == []
    {
      started := false;
      save := NewSave();
      isOldFormat := Extension(filename) != ".smcsav";
      currentProperties := map[];
      levelObjects := [];
      spawnedObjects := [];
      waypoints := [];
    }

    function State(): LoaderState
      reads this
    {
      LoaderState(save, currentProperties, levelObjects, spawnedObjects, waypoints)
    }

    /** `on_start_document`: restarting the parser fails. */
    method StartDocument() returns (ok: bool)
      modifies this`started, this`save
      ensures ok <==> !old(started)
      ensures started
      ensures ok ==> save == NewSave()
      ensures !ok ==> save == old(save)
    {
      if started {
        return false;
      }
      started := true;
      save := NewSave();
      return true;
    }

    /** `on_end_document`. */
    method EndDocument()
      modifies this`save
      ensures save == old(save).(description := FinalDescription(old(save).description))
    {
      if save.description == [] {
        save := save.(description := "No description");
      }
    }

    /** `on_start_element`: a `<property>` adds its last name and value
        attributes to the collected properties. */
    method StartElement(name: String, attrs: seq<(String, String)>)
      modifies this`currentProperties
      ensures IsPropertyTag(name) ==>
                currentProperties == old(currentProperties)[LastAttr(attrs, true, true) := LastAttr(attrs, false, true)]
      ensures !IsPropertyTag(name) ==> currentProperties == old(currentProperties)
    {
      if IsPropertyTag(name) {
        var key, value := ScanAttributes(attrs, true);
        currentProperties := currentProperties[key := value];
      }
    }

    /** `on_end_element`. */
    method EndElement(name: String, env: LoaderEnv) returns (ok: bool)
      modifies this`save, this`currentProperties, this`levelObjects, this`spawnedObjects, this`waypoints
      ensures var t := ClassifyEnd(name, isOldFormat, env.isLevelObject);
        !t.ObjectEnd? ==> (ok, State()) == EndEffect(t, name, old(State()), env, isOldFormat)
      ensures ClassifyEnd(name, isOldFormat, env.isLevelObject).ObjectEnd? ==> ObjectStep(old(State()), ok, State())
    {
      var t := ClassifyEnd(name, isOldFormat, env.isLevelObject);
      if t.ObjectEnd? {
        ok := HandleLevelObject();
        return;
      }
      var next: LoaderState;
      ok, next := EndStep(t, name, State(), env, isOldFormat);
      save := next.save;
      currentProperties := next.props;
      levelObjects := next.objects;
      spawnedObjects := next.spawned;
      waypoints := next.waypoints;
    }

    /** `handle_level_object`, through the map's entries in key order. */
    method HandleLevelObject() returns (ok: bool)
      modifies this`currentProperties, this`levelObjects
      ensures ObjectStep(old(State()), ok, State())
    {
      if "type" !in currentProperties {
        return false;
      }
      var spriteType := StringToInt(currentProperties["type"]);
      if spriteType <= 0 {
        return true;
      }
      var entries := Entries(currentProperties);
      var props := CopyObjectProperties(entries, currentProperties);
      levelObjects := levelObjects + [SaveLevelObject(spriteType, props)];
      currentProperties := AfterObject(currentProperties);
      return true;
    }
  }

  /** The copying loop of `handle_level_object`: the entries, skipping the
      level's own keys. */
  method CopyObjectProperties(entries: seq<(String, String)>, a: Attributes) returns (props: seq<(String, String)>)
    requires SortedByKey(entries)
    requires forall k, v :: (k, v) in entries <==> k in a && a[k] == v
    ensures ObjectProperties(props, a - LevelKeys)
  {
    props := [];
    for i := 0 to |entries|
      invariant SortedByKey(props)
      invariant forall q :: q in props <==> q in entries[..i] && q.0 !in LevelKeys
      invariant forall q :: q in props ==> exists j :: 0 <= j < i && entries[j] == q
    {
      if entries[i].0 in LevelKeys {
        continue;
      }
      forall p | p in props
        ensures Less(p.0, entries[i].0)
      {
        var j :| 0 <= j < i && entries[j] == p;
      }
      props := props + [entries[i]];
    }
    assert entries[..|entries|] == entries;
  }

  /** The non-object part of `on_end_element`, on a state value. */
  method EndStep(t: SaveEndTag, name: String, st: LoaderState, env: LoaderEnv, oldFormat: bool) returns (ok: bool, r: LoaderState)
    requires !t.ObjectEnd?
    ensures (ok, r) == EndEffect(t, name, st, env, oldFormat)
  {
    var a := st.props;
    r := st;
    ok := true;
    if t.PropertyEnd? || t.RootEnd? || t.ObjectsDataEnd? || t.SpawnedObjectsEnd? {
      return;
    }
    if t.SpawnedObjectEnd? {
      r := r.(spawned := r.spawned + env.createObjects(name, a, st.save.levelEngineVersion));
      return;
    }
    if t.WaypointEnd? {
      if "access" !in a {
        return false, st;
      }
      var destination := WaypointDestination(a);
      r := r.(waypoints := r.waypoints + [SaveWaypoint(destination, StringToBool(a["access"]))]);
      r := r.(props := a - WaypointKeys);
      return;
    }
    if t.InformationEnd? {
      var s := InformationFrom(st.save, a);
      if s.None? {
        return false, st;
      }
      r := r.(save := s.value);
    } else if t.LevelEnd? {
      var level := LevelFrom(a, st.objects, st.spawned, env.toFloat);
      r := r.(save := r.save.(levels := r.save.levels + [level]), objects := [], spawned := []);
    } else if t.PlayerEnd? {
      var s := PlayerFrom(st.save, a, oldFormat, env.codes, env.toFloat);
      if s.None? {
        return false, st;
      }
      r := r.(save := s.value);
    } else if t.ReturnEnd? {
      r := r.(save := r.save.(returnEntries := r.save.returnEntries + [ReturnEntry(Get(a, "level"), Get(a, "entry"))]));
    } else if t.OldOverworldDataEnd? {
      var s := OldOverworldDataFrom(st.save, a);
      if s.None? {
        return false, st;
      }
      r := r.(save := s.value);
    } else if t.OverworldEnd? {
      r := r.(save := r.save.(overworlds := r.save.overworlds + [SaveOverworld(Get(a, "name"), r.waypoints)]), waypoints := []);
    }
    r := r.(props := map[]);
  }
}
