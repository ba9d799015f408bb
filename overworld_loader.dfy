/** The SAX loader of a TSC `world.xml` (tsc/src/overworld/overworld_loader.cpp):
    `<property>` elements are collected into a map until the element around
    them closes; that element then sets the world's information, settings,
    player start or background, or becomes a world object, after the
    attribute migrations for old engine versions. */
module OverworldLoading {
  import opened Common
  import opened PropertyHelper
  import opened XmlAttributes
  import opened WorldWaypoint
  import opened Overworld

  const BridgeOld: String := "world/objects/bridge/bridge_1.png"
  const BridgeNew: String := "world/objects/bridge/bridge_1_ver_start.png"

  /** The kinds of world object `Create_World_Object_From_XML` builds. */
  datatype ObjectKind = SpriteKind | WaypointKind | SoundKind | LineKind

  /** How `on_end_element` treats a closing tag. */
  datatype EndTag =
    | PropertyEnd
    | RootEnd
    | InformationEnd
    | SettingsEnd
    | PlayerEnd
    | BackgroundEnd
    | ObjectEnd(kind: ObjectKind)
    | UnknownEnd

  /** The dispatch of `on_end_element` and `Create_World_Object_From_XML`. */
  function ClassifyEnd(name: String): EndTag
  {
    if IsPropertyTag(name) then PropertyEnd
    else if name == "overworld" then RootEnd
    else if name == "information" then InformationEnd
    else if name == "settings" then SettingsEnd
    else if name == "player" then PlayerEnd
    else if name == "background" then BackgroundEnd
    else if name == "sprite" then ObjectEnd(SpriteKind)
    else if name == "waypoint" then ObjectEnd(WaypointKind)
    else if name == "sound" then ObjectEnd(SoundKind)
    else if name == "line" then ObjectEnd(LineKind)
    else UnknownEnd
  }

  /** Only `<property>` closes are property ends, and a tag outside the
      known names is reported and ignored. */
  lemma ClassifyEndCases(name: String)
    ensures ClassifyEnd(name) == PropertyEnd <==> IsPropertyTag(name)
    ensures ClassifyEnd(name) == UnknownEnd <==>
              !IsPropertyTag(name) && name != "overworld" && name != "information" && name != "settings"
              && name != "player" && name != "background" && name != "sprite" && name != "waypoint"
              && name != "sound" && name != "line"
  {
  }

  /* ---------------------------------------------------------------------
     Attribute migrations
     --------------------------------------------------------------------- */

  /** `Create_Sprite_From_XML_Tag`'s migration: before engine 2 the old
      `filename`, `pos_x`, `pos_y` become `image`, `posx`, `posy` and `posy`
      is shifted; before engine 3 the old bridge image is relocated. */
  function SpriteMigrated(a: Attributes, engine: int, conv: FloatText): (r: Attributes)
  {
    var renamed :=
      if engine < 2 && "filename" in a then
        Touch(Touch(a, "pos_x"), "pos_y")["image" := a["filename"]]["posx" := Get(a, "pos_x")]["posy" := Get(a, "pos_y")]
      else a;
    var shifted := if engine < 2 then ShiftUp(renamed, "posy", conv) else renamed;
    if engine < 3 then RelocateImage(shifted, BridgeOld, BridgeNew, "image") else shifted
  }

  /** `Create_Waypoint_From_XML_Tag`'s migration as written: before engine 2
      the key `y` is shifted, a key the waypoint never reads. */
  function WaypointMigratedAsWritten(a: Attributes, engine: int, conv: FloatText): (r: Attributes)
  {
    if engine < 2 then ShiftUp(a, "y", conv) else a
  }

  /** The waypoint migration the shift evidently means: before engine 2 the
      old `x` and the shifted old `y` also become the `posx` and `posy` the
      waypoint is placed by, unless those are given. */
  function WaypointMigrated(a: Attributes, engine: int, conv: FloatText): (r: Attributes)
  {
    var shifted := WaypointMigratedAsWritten(a, engine, conv);
    if engine < 2 then
      var withX := if "x" in shifted && "posx" !in shifted then shifted["posx" := shifted["x"]] else shifted;
      if "y" in withX && "posy" !in withX then withX["posy" := withX["y"]] else withX
    else shifted
  }

  /** `Create_Sound_From_XML_Tag`'s migration. */
  function SoundMigrated(a: Attributes, engine: int, conv: FloatText): (r: Attributes)
  {
    if engine < 2 then ShiftUp(a, "pos_y", conv) else a
  }

  /** `Create_Line_From_XML_Tag`'s migration. */
  function LineMigrated(a: Attributes, engine: int, conv: FloatText): (r: Attributes)
  {
    if engine < 2 then ShiftUp(ShiftUp(a, "Y1", conv), "Y2", conv) else a
  }

  function Migrated(kind: ObjectKind, a: Attributes, engine: int, conv: FloatText): Attributes
  {
    match kind
    case SpriteKind => SpriteMigrated(a, engine, conv)
    case WaypointKind => WaypointMigratedAsWritten(a, engine, conv)
    case SoundKind => SoundMigrated(a, engine, conv)
    case LineKind => LineMigrated(a, engine, conv)
  }

  /** The attributes a kind's migration may add or rewrite. */
  function MigratedKeys(kind: ObjectKind): set<String>
  {
    match kind
    case SpriteKind => {"image", "posx", "posy", "pos_x", "pos_y"}
    case WaypointKind => {"y"}
    case SoundKind => {"pos_y"}
    case LineKind => {"Y1", "Y2"}
  }

  /** Files of the current engine version are not migrated, and from
      engine 2 on only a sprite's old bridge image is. */
  lemma MigrationOfCurrentWorlds(kind: ObjectKind, a: Attributes, engine: int, conv: FloatText)
    ensures engine >= 3 ==> Migrated(kind, a, engine, conv) == a
    ensures engine >= 2 && kind != SpriteKind ==> Migrated(kind, a, engine, conv) == a
    ensures engine == 2 && kind == SpriteKind ==> Migrated(kind, a, engine, conv) == RelocateImage(a, BridgeOld, BridgeNew, "image")
  {
  }

  /** A migration leaves every other attribute as it is and adds none. */
  lemma MigrationKeepsOtherKeys(kind: ObjectKind, a: Attributes, engine: int, conv: FloatText, k: String)
    requires k !in MigratedKeys(kind)
    ensures k in Migrated(kind, a, engine, conv) <==> k in a
    ensures k in a ==> Migrated(kind, a, engine, conv)[k] == a[k]
  {
  }

  /** An old sprite gets its image from `filename` (with the old bridge
      relocated), its x from `pos_x` and its shifted y from `pos_y`. */
  lemma OldSpriteRenamed(a: Attributes, engine: int, conv: FloatText)
    requires engine < 2 && "filename" in a
    ensures var r := SpriteMigrated(a, engine, conv);
            && r["image"] == (if a["filename"] == BridgeOld then BridgeNew else a["filename"])
            && r["posx"] == Get(a, "pos_x")
            && r["posy"] == conv.fromFloat(conv.toFloat(Get(a, "pos_y")) - 600.0)
  {
  }

  /** An old waypoint as written: however high its `y`, the shifted value is
      never read, and without `posy` the waypoint is placed at height 0. */
  lemma OldWaypointShiftUnread(a: Attributes, engine: int, conv: FloatText)
    requires engine < 2 && "y" in a && "posy" !in a
    ensures FetchInt(WaypointMigratedAsWritten(a, engine, conv), "posy", 0) == 0
  {
  }

  /** The corrected migration places an old waypoint at its shifted `y`. */
  lemma OldWaypointShiftRead(a: Attributes, engine: int, conv: FloatText)
    requires engine < 2 && "y" in a && "posy" !in a
    ensures var r := WaypointMigrated(a, engine, conv);
            "posy" in r && r["posy"] == conv.fromFloat(conv.toFloat(a["y"]) - 600.0)
  {
  }

  /** Both agree on everything a current world file holds. */
  lemma WaypointMigrationsAgree(a: Attributes, engine: int, conv: FloatText)
    requires engine >= 2 || ("posx" in a && "posy" in a)
    ensures WaypointMigrated(a, engine, conv) == WaypointMigratedAsWritten(a, engine, conv)
  {
  }

  /* ---------------------------------------------------------------------
     The effect of a closing tag on the world
     --------------------------------------------------------------------- */

  /** What `on_end_element` does to the world's state for tag `t` with the
      collected properties `p`, and whether it completes (`retrieve` of a
      missing property throws). Waypoints go to the waypoint list instead. */
  function EndEffect(t: EndTag, p: Attributes, s: WorldState, conv: FloatText): (bool, WorldState)
  {
    match t
    case InformationEnd =>
      (true, s.(engineVersion := StringToInt(Get(p, "engine_version")), lastSaved := StringToTime(Get(p, "save_time"))))
    case SettingsEnd =>
      (true, s.(musicFile := Get(p, "music")))
    case PlayerEnd =>
      (if "waypoint" !in p then (false, s)
       else
         var started := s.(playerStartWaypoint := StringToInt(p["waypoint"]));
         if "moving_state" !in p then (false, started)
         else (true, started.(playerMovingState := StringToInt(p["moving_state"]))))
    case BackgroundEnd =>
      (if "color_red" in p && "color_green" in p && "color_blue" in p then
         (true, s.(background := ByteColor(ToByte(StringToInt(p["color_red"])), ToByte(StringToInt(p["color_green"])),
                                           ToByte(StringToInt(p["color_blue"])))))
       else (false, s))
    case ObjectEnd(kind) =>
      if kind == WaypointKind then (true, s)
      else (true, s.(objects := s.objects + [NewObject(kind, Migrated(kind, p, s.engineVersion, conv))]))
    case _ => (true, s)
  }

  /** A closing tag fails exactly when a `<player>` lacks its waypoint or
      moving state or a `<background>` one of its colours. */
  lemma EndEffectFails(t: EndTag, p: Attributes, s: WorldState, conv: FloatText)
    ensures !EndEffect(t, p, s, conv).0 <==>
              (t == PlayerEnd && ("waypoint" !in p || "moving_state" !in p))
              || (t == BackgroundEnd && ("color_red" !in p || "color_green" !in p || "color_blue" !in p))
  {
  }

  /** A failing tag leaves the world as it was, except that a `<player>`
      whose waypoint was read keeps that start waypoint. */
  lemma FailedEndChangesAtMostStart(t: EndTag, p: Attributes, s: WorldState, conv: FloatText)
    requires !EndEffect(t, p, s, conv).0
    ensures EndEffect(t, p, s, conv).1 == s.(playerStartWaypoint := EndEffect(t, p, s, conv).1.playerStartWaypoint)
    ensures EndEffect(t, p, s, conv).1.playerStartWaypoint != s.playerStartWaypoint ==> t == PlayerEnd && "waypoint" in p
  {
  }

  /** World objects are only ever appended, one per object tag other than a
      waypoint, carrying its migrated attributes. */
  lemma EndEffectAppendsObjects(t: EndTag, p: Attributes, s: WorldState, conv: FloatText)
    ensures var objs := EndEffect(t, p, s, conv).1.objects;
            && objs[..|s.objects|] == s.objects
            && |objs| == if t.ObjectEnd? && t.kind != WaypointKind then |s.objects| + 1 else |s.objects|
    ensures t.ObjectEnd? && t.kind != WaypointKind ==>
              EndEffect(t, p, s, conv).1.objects[|s.objects|].attrs == Migrated(t.kind, p, s.engineVersion, conv)
  {
  }

  /** A parsed background colour has byte channels, and only `<background>`
      and `<information>` ever change the colour or the engine version. */
  lemma EndEffectFieldsByTag(t: EndTag, p: Attributes, s: WorldState, conv: FloatText)
    ensures var r := EndEffect(t, p, s, conv).1;
            r.background != s.background ==>
              t == BackgroundEnd && 0 <= r.background.red < 256 && 0 <= r.background.green < 256 && 0 <= r.background.blue < 256
    ensures EndEffect(t, p, s, conv).1.engineVersion != s.engineVersion ==> t == InformationEnd
    ensures t == InformationEnd ==> IntMin <= EndEffect(t, p, s, conv).1.engineVersion <= IntMax
  {
  }

  class OverworldLoader {
    /** `mp_overworld`: null until the document starts */
    var overworld: Overworld?
    /** `m_current_properties` */
    var currentProperties: Attributes

    constructor ()
      ensures overworld == null && currentProperties == map[]
    {
      overworld := null;
      currentProperties := map[];
    }

    /** `on_start_document`: a second start fails (the source throws);
        the first creates the world. */
    method StartDocument() returns (ok: bool)
      modifies this`overworld
      ensures ok <==> old(overworld) == null
      ensures !ok ==> overworld == old(overworld)
      ensures ok ==> fresh(overworld) && overworld.engineVersion == -1 && overworld.waypoints == []
                     && overworld.objects == [] && overworld.Valid()
    {
      if overworld != null {
        return false;
      }
      overworld := new Overworld();
      ok := true;
    }

    /** `on_end_document`: a world without engine version gets version 0,
        so a parsed world always counts as loaded. */
    method EndDocument()
      requires overworld != null
      modifies overworld`engineVersion
      ensures overworld.engineVersion == if old(overworld.engineVersion) < 0 then 0 else old(overworld.engineVersion)
      ensures overworld.IsLoaded()
    {
      if overworld.engineVersion < 0 {
        overworld.engineVersion := 0;
      }
    }

    /** `on_start_element`: a `<property>` adds its last name and value
        attributes to the collected properties; other elements do nothing. */
    method StartElement(name: String, attrs: seq<(String, String)>)
      modifies this`currentProperties
      ensures IsPropertyTag(name) ==>
                currentProperties == old(currentProperties)[LastAttr(attrs, true, true) := LastAttr(attrs, false, true)]
      ensures !IsPropertyTag(name) ==> currentProperties == old(currentProperties)
    {
      if IsPropertyTag(name) {
        var key, value := ScanAttributes(attrs, true);
        currentProperties := currentProperties[key := value];
      }
    }

    /** `on_end_element`, against `EndEffect`. When a `retrieve` throws,
        `ok` is false and the collected properties are kept. */
    method EndElement(name: String, conv: FloatText, glimStart: real) returns (ok: bool)
      requires overworld != null && overworld.Valid()
      requires 0.0 <= glimStart <= 100.0
      modifies this`currentProperties, overworld
      ensures overworld == old(overworld) && overworld.Valid()
      ensures (ok, overworld.State()) == EndEffect(ClassifyEnd(name), old(currentProperties), old(overworld.State()), conv)
      ensures currentProperties ==
                if !ok || ClassifyEnd(name) == PropertyEnd || ClassifyEnd(name) == RootEnd then old(currentProperties) else map[]
      ensures ClassifyEnd(name) != ObjectEnd(WaypointKind) ==> overworld.waypoints == old(overworld.waypoints)
      ensures overworld.path == old(overworld.path) && overworld.name == old(overworld.name)
      ensures overworld.nextLevel == old(overworld.nextLevel)
      ensures ClassifyEnd(name) == ObjectEnd(WaypointKind) ==>
                var a := Migrated(WaypointKind, old(currentProperties), old(overworld.engineVersion), conv);
                var n := |old(overworld.waypoints)|;
                && |overworld.waypoints| == n + 1 && overworld.waypoints[..n] == old(overworld.waypoints)
                && fresh(overworld.waypoints[n])
                && overworld.waypoints[n].destination == FirstPresent(a, DestinationKeys)
                && overworld.waypoints[n].posX == FetchInt(a, "posx", 0) as real
                && overworld.waypoints[n].posY == FetchInt(a, "posy", 0) as real
                && overworld.waypoints[n].access == overworld.waypoints[n].accessDefault == FetchBool(a, "access", true)
    {
      var t := ClassifyEnd(name);
      var p := currentProperties;
      ok := true;
      if t == PropertyEnd || t == RootEnd {
        return;
      } else if t.ObjectEnd? {
        ObjectTagEnd(t.kind, p, conv, glimStart);
      } else if t != UnknownEnd {
        ok := HeaderTagEnd(t, p, conv);
        if !ok {
          return;
        }
      }
      currentProperties := map[];
    }

    /** The closing tags of the world's own settings: `<information>`,
        `<settings>`, `<player>` and `<background>`. */
    method HeaderTagEnd(t: EndTag, p: Attributes, conv: FloatText) returns (ok: bool)
      requires overworld != null
      requires t == InformationEnd || t == SettingsEnd || t == PlayerEnd || t == BackgroundEnd
      modifies overworld`engineVersion, overworld`lastSaved, overworld`musicFile
      modifies overworld`playerStartWaypoint, overworld`playerMovingState, overworld`background
      ensures (ok, overworld.State()) == EndEffect(t, p, old(overworld.State()), conv)
    {
      ok := true;
      if t == InformationEnd {
        overworld.engineVersion := StringToInt(Get(p, "engine_version"));
        overworld.lastSaved := StringToTime(Get(p, "save_time"));
      } else if t == SettingsEnd {
        overworld.musicFile := Get(p, "music");
      } else if t == PlayerEnd {
        ok := ParseTagPlayer(p, conv);
      } else {
        ok := ParseTagBackground(p, conv);
      }
    }

    /** The closing tag of a world object: a waypoint joins the waypoint
        list, any other object the object list, each built from its
        migrated properties. */
    method ObjectTagEnd(kind: ObjectKind, p: Attributes, conv: FloatText, glimStart: real)
      requires overworld != null && overworld.Valid()
      requires 0.0 <= glimStart <= 100.0
      modifies overworld`waypoints, overworld`objects
      ensures overworld.Valid()
      ensures (true, overworld.State()) == EndEffect(ObjectEnd(kind), p, old(overworld.State()), conv)
      ensures kind != WaypointKind ==> overworld.waypoints == old(overworld.waypoints)
      ensures kind == WaypointKind ==>
                var a := Migrated(WaypointKind, p, old(overworld.engineVersion), conv);
                var n := |old(overworld.waypoints)|;
                && |overworld.waypoints| == n + 1 && overworld.waypoints[..n] == old(overworld.waypoints)
                && fresh(overworld.waypoints[n])
                && overworld.waypoints[n].destination == FirstPresent(a, DestinationKeys)
                && overworld.waypoints[n].posX == FetchInt(a, "posx", 0) as real
                && overworld.waypoints[n].posY == FetchInt(a, "posy", 0) as real
                && overworld.waypoints[n].access == overworld.waypoints[n].accessDefault == FetchBool(a, "access", true)
    {
      var a := Migrated(kind, p, overworld.engineVersion, conv);
      if kind == WaypointKind {
        AddWaypoint(a, glimStart);
      } else {
        overworld.objects := overworld.objects + [NewObject(kind, a)];
      }
    }

    /** `Parse_Tag_Player`: the start waypoint is set before the moving
        state is retrieved. */
    method ParseTagPlayer(p: Attributes, ghost conv: FloatText) returns (ok: bool)
      requires overworld != null
      modifies overworld`playerStartWaypoint, overworld`playerMovingState
      ensures (ok, overworld.State()) == EndEffect(PlayerEnd, p, old(overworld.State()), conv)
    {
      var waypoint := RetrieveInt(p, "waypoint");
      if waypoint.None? {
        return false;
      }
      overworld.playerStartWaypoint := waypoint.value;
      var movingState := RetrieveInt(p, "moving_state");
      if movingState.None? {
        return false;
      }
      overworld.playerMovingState := movingState.value;
      ok := true;
    }

    /** `Parse_Tag_Background`: the colour is only built once all three
        channels were retrieved. */
    method ParseTagBackground(p: Attributes, ghost conv: FloatText) returns (ok: bool)
      requires overworld != null
      modifies overworld`background
      ensures (ok, overworld.State()) == EndEffect(BackgroundEnd, p, old(overworld.State()), conv)
    {
      var red := RetrieveInt(p, "color_red");
      var green := RetrieveInt(p, "color_green");
      var blue := RetrieveInt(p, "color_blue");
      if red.None? || green.None? || blue.None? {
        return false;
      }
      overworld.background := ByteColor(ToByte(red.value), ToByte(green.value), ToByte(blue.value));
      ok := true;
    }

    /** A `<waypoint>` joins the world's waypoint list. */
    method AddWaypoint(a: Attributes, glimStart: real)
      requires overworld != null && overworld.Valid()
      requires 0.0 <= glimStart <= 100.0
      modifies overworld`waypoints
      ensures overworld.Valid()
      ensures var n := |old(overworld.waypoints)|;
              && |overworld.waypoints| == n + 1 && overworld.waypoints[..n] == old(overworld.waypoints)
              && fresh(overworld.waypoints[n])
              && overworld.waypoints[n].destination == FirstPresent(a, DestinationKeys)
              && overworld.waypoints[n].posX == FetchInt(a, "posx", 0) as real
              && overworld.waypoints[n].posY == FetchInt(a, "posy", 0) as real
              && overworld.waypoints[n].access == overworld.waypoints[n].accessDefault == FetchBool(a, "access", true)
    {
      var w := new Waypoint.FromAttributes(a, glimStart);
      overworld.waypoints := overworld.waypoints + [w];
    }
  }


  /** The world object built for a kind other than a waypoint. */
  function NewObject(kind: ObjectKind, a: Attributes): (o: WorldObject)
    ensures o.attrs == a
  {
    match kind
    case SoundKind => WorldSound(a)
    case LineKind => WorldLine(a)
    case _ => WorldSprite(a)
  }
}
