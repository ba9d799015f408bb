/** The savegame record of TSC (tsc/src/user/savegame.cpp, the `cSave*`
    classes): the player's counters, the return stack, the state of every
    loaded level with the objects whose state is saved, and the progress on
    every world; with the property lookup of a saved object, the active
    level, and the XML document `Write_To_File` produces. The records are
    values here; the loader and the savegame builder replace them as they
    fill them in. */
module SaveData {
  import opened Common
  import opened XmlAttributes

  /** `SAVEGAME_VERSION` and `SAVEGAME_VERSION_UNSUPPORTED` */
  const SavegameVersion: int := 12
  const SavegameVersionUnsupported: int := 5

  /** `level_engine_version`, written into every new savegame. */
  const LevelEngineVersion: int := 46

  /** `TYPE_SHELL`, `TYPE_OW_WAYPOINT` of `SpriteType` */
  const TypeShell: int := 70
  const TypeOwWaypoint: int := 55

  /** The numeric values of the player types (`Maryo_type`), whose header is
      not part of this model. */
  datatype PlayerTypeCodes = PlayerTypeCodes(small: int, big: int, ghostType: int, dead: int)

  /** `cSave_Level_Object`: a sprite type and its saved properties in order. */
  datatype SaveLevelObject = SaveLevelObject(spriteType: int, properties: seq<(String, String)>)

  /** A spawned sprite kept in a savegame: its XML tag and attributes (the
      sprite classes that build and write them are not part of this model). */
  datatype SpawnedObject = SpawnedObject(tag: String, attrs: Attributes)

  /** `cSave_Level`: the position is only set for the active level. */
  datatype SaveLevel = SaveLevel(
    name: String,
    posX: real,
    posY: real,
    objects: seq<SaveLevelObject>,
    spawned: seq<SpawnedObject>,
    mrubyData: String)

  /** `cSave_Overworld_Waypoint` and `cSave_Overworld` */
  datatype SaveWaypoint = SaveWaypoint(destination: String, access: bool)
  datatype SaveOverworld = SaveOverworld(name: String, waypoints: seq<SaveWaypoint>)

  /** `cSave_Player_Return_Entry` */
  datatype ReturnEntry = ReturnEntry(level: String, entry: String)

  /** `cSave`. The unsigned counters hold values below 2^32. */
  datatype Save = Save(
    version: int,
    saveTime: int,
    description: String,
    lives: nat,
    points: int,
    goldpieces: nat,
    playerType: nat,
    playerTypeTempPower: nat,
    playerState: nat,
    itemboxItem: nat,
    invincible: real,
    invincibleStar: real,
    ghostTime: real,
    ghostTimeMod: real,
    returnEntries: seq<ReturnEntry>,
    levels: seq<SaveLevel>,
    levelTime: nat,
    levelEngineVersion: int,
    overworldActive: String,
    overworldCurrentWaypoint: nat,
    overworlds: seq<SaveOverworld>)

  /** `cSave()` with `Init`: every counter zero, nothing saved, and the
      earliest level engine version 39. */
  function NewSave(): (s: Save)
    ensures s.levels == [] && s.overworlds == [] && s.returnEntries == []
    ensures s.levelEngineVersion == 39
  {
    Save(0, 0, [], 0, 0, 0, 0, 0, 0, 0, 0.0, 0.0, 0.0, 0.0, [], [], 0, 39, [], 0, [])
  }

  /* ---------------------------------------------------------------------
     Saved object properties
     --------------------------------------------------------------------- */

  /** `cSave_Level_Object::exists`: a property of that name is saved. */
  method Exists(o: SaveLevelObject, name: String) returns (found: bool)
    ensures found <==> exists i :: 0 <= i < |o.properties| && o.properties[i].0 == name
    ensures found <==> Lookup(o.properties, name).Some?
  {
    for i := 0 to |o.properties|
      invariant forall j :: 0 <= j < i ==> o.properties[j].0 != name
    {
      if o.properties[i].0 == name {
        return true;
      }
    }
    return false;
  }

  /** `cSave_Level_Object::Get_Value`: the value of the first property of
      that name, "" without one. */
  method GetValue(o: SaveLevelObject, name: String) returns (v: String)
    ensures Lookup(o.properties, name).Some? ==> v == Lookup(o.properties, name).value
    ensures Lookup(o.properties, name).None? ==> v == []
  {
    for i := 0 to |o.properties|
      invariant forall j :: 0 <= j < i ==> o.properties[j].0 != name
    {
      if o.properties[i].0 == name {
        LookupFirst(o.properties, name, i);
        return o.properties[i].1;
      }
    }
    return [];
  }

  /** The first pair with the key is the one `Lookup` finds. */
  lemma {:induction false} LookupFirst(pairs: seq<(String, String)>, key: String, i: nat)
    requires i < |pairs| && pairs[i].0 == key
    requires forall j :: 0 <= j < i ==> pairs[j].0 != key
    ensures Lookup(pairs, key) == Some(pairs[i].1)
  {
    if i > 0 {
      LookupFirst(pairs[1..], key, i - 1);
    }
  }

  /* ---------------------------------------------------------------------
     The active level
     --------------------------------------------------------------------- */

  /** A level the player was in when saving: both coordinates are non-zero
      (`Is_Float_Equal(.., 0)` is `isZero`) and, when `requirePath`, the
      level manager resolves its name (`levelPath`) to a path. */
  predicate IsActive(l: SaveLevel, requirePath: bool, levelPath: String -> String, isZero: real -> bool)
  {
    (!requirePath || levelPath(l.name) != []) && !isZero(l.posX) && !isZero(l.posY)
  }

  /** The index of the first active level. */
  function FirstActive(levels: seq<SaveLevel>, requirePath: bool, levelPath: String -> String, isZero: real -> bool): (r: Option<nat>)
    ensures r.Some? ==> r.value < |levels| && IsActive(levels[r.value], requirePath, levelPath, isZero)
    ensures r.Some? ==> forall j :: 0 <= j < r.value ==> !IsActive(levels[j], requirePath, levelPath, isZero)
    ensures r.None? ==> forall j :: 0 <= j < |levels| ==> !IsActive(levels[j], requirePath, levelPath, isZero)
  {
    if levels == [] then None
    else if IsActive(levels[0], requirePath, levelPath, isZero) then Some(0)
    else
      var k := FirstActive(levels[1..], requirePath, levelPath, isZero);
      if k.Some? then Some(k.value + 1) else None
  }

  lemma FirstActiveAt(levels: seq<SaveLevel>, requirePath: bool, levelPath: String -> String, isZero: real -> bool, i: nat)
    requires i < |levels| && IsActive(levels[i], requirePath, levelPath, isZero)
    requires forall j :: 0 <= j < i ==> !IsActive(levels[j], requirePath, levelPath, isZero)
    ensures FirstActive(levels, requirePath, levelPath, isZero) == Some(i)
  {
  }

  /** `cSave::Get_Active_Level`: the name of the first level that resolves
      to a path and has a saved position, "" when none has. */
  method GetActiveLevel(s: Save, levelPath: String -> String, isZero: real -> bool) returns (name: String)
    ensures FirstActive(s.levels, true, levelPath, isZero).Some? ==>
              name == s.levels[FirstActive(s.levels, true, levelPath, isZero).value].name
    ensures FirstActive(s.levels, true, levelPath, isZero).None? ==> name == []
  {
    if s.levels == [] {
      return [];
    }
    for i := 0 to |s.levels|
      invariant forall j :: 0 <= j < i ==> !IsActive(s.levels[j], true, levelPath, isZero)
    {
      var level := s.levels[i];
      if levelPath(level.name) == [] {
        continue;
      }
      if !isZero(level.posX) && !isZero(level.posY) {
        FirstActiveAt(s.levels, true, levelPath, isZero, i);
        return level.name;
      }
    }
    return [];
  }

  /* ---------------------------------------------------------------------
     The document `Write_To_File` writes
     --------------------------------------------------------------------- */

  /** A value given to `Add_Property`. */
  datatype PropValue = IntValue(i: int) | FloatValue(f: real) | BoolValue(b: bool) | TextValue(t: String)

  /** An element with its `<property>` children first and its other children
      after, or a spawned sprite written by its own `Save_To_XML_Node`. */
  datatype XmlNode =
    | Element(tag: String, props: seq<(String, PropValue)>, children: seq<XmlNode>)
    | SpriteNode(sprite: SpawnedObject)

  function InformationNode(s: Save): XmlNode
  {
    Element("information",
      [("version", IntValue(s.version)), ("level_engine_version", IntValue(s.levelEngineVersion)),
       ("save_time", IntValue(s.saveTime)), ("description", TextValue(s.description))], [])
  }

  /** `<player>`: `level_time` only when a level is saved. */
  function PlayerNode(s: Save): XmlNode
  {
    Element("player",
      [("lives", IntValue(s.lives)), ("points", IntValue(s.points)), ("goldpieces", IntValue(s.goldpieces)),
       ("type", IntValue(s.playerType)), ("type_temp_power", IntValue(s.playerTypeTempPower)),
       ("invincible_star", FloatValue(s.invincibleStar)), ("invincible", FloatValue(s.invincible)),
       ("ghost_time", FloatValue(s.ghostTime)), ("ghost_time_mod", FloatValue(s.ghostTimeMod)),
       ("state", IntValue(s.playerState)), ("itembox_item", IntValue(s.itemboxItem))]
      + (if s.levels != [] then [("level_time", IntValue(s.levelTime))] else [])
      + [("overworld_active", TextValue(s.overworldActive)),
         ("overworld_current_waypoint", IntValue(s.overworldCurrentWaypoint))],
      [])
  }

  /** `<return>`: level and entry each only when non-empty. */
  function ReturnNode(e: ReturnEntry): XmlNode
  {
    Element("return",
      (if e.level != [] then [("level", TextValue(e.level))] else [])
      + (if e.entry != [] then [("entry", TextValue(e.entry))] else []), [])
  }

  function ReturnNodes(es: seq<ReturnEntry>): (r: seq<XmlNode>)
    ensures |r| == |es|
  {
    if es == [] then [] else ReturnNodes(es[..|es| - 1]) + [ReturnNode(es[|es| - 1])]
  }

  /** `<object>`: its type, then its properties in order, as text. */
  function ObjectNode(o: SaveLevelObject): XmlNode
  {
    Element("object", [("type", IntValue(o.spriteType))] + TextProps(o.properties), [])
  }

  function TextProps(ps: seq<(String, String)>): (r: seq<(String, PropValue)>)
    ensures |r| == |ps|
    ensures forall k :: 0 <= k < |ps| ==> r[k] == (ps[k].0, TextValue(ps[k].1))
  {
    if ps == [] then [] else TextProps(ps[..|ps| - 1]) + [(ps[|ps| - 1].0, TextValue(ps[|ps| - 1].1))]
  }

  function ObjectNodes(os: seq<SaveLevelObject>): (r: seq<XmlNode>)
    ensures |r| == |os|
  {
    if os == [] then [] else ObjectNodes(os[..|os| - 1]) + [ObjectNode(os[|os| - 1])]
  }

  function SpriteNodes(ss: seq<SpawnedObject>): (r: seq<XmlNode>)
    ensures |r| == |ss|
  {
    if ss == [] then [] else SpriteNodes(ss[..|ss| - 1]) + [SpriteNode(ss[|ss| - 1])]
  }

  /** The properties of `<level>`: the position only for the active level,
      the script data only when there is some. */
  function LevelProps(l: SaveLevel, isZero: real -> bool): seq<(String, PropValue)>
  {
    [("level_name", TextValue(l.name))]
    + (if !isZero(l.posX) && !isZero(l.posY) then [("player_posx", FloatValue(l.posX)), ("player_posy", FloatValue(l.posY))] else [])
    + (if l.mrubyData != [] then [("mruby_data", TextValue(l.mrubyData))] else [])
  }

  function LevelNode(l: SaveLevel, isZero: real -> bool): XmlNode
  {
    Element("level", LevelProps(l, isZero),
      [Element("spawned_objects", [], SpriteNodes(l.spawned)), Element("objects_data", [], ObjectNodes(l.objects))])
  }

  function LevelNodes(ls: seq<SaveLevel>, isZero: real -> bool): (r: seq<XmlNode>)
    ensures |r| == |ls|
  {
    if ls == [] then [] else LevelNodes(ls[..|ls| - 1], isZero) + [LevelNode(ls[|ls| - 1], isZero)]
  }

  function WaypointNode(w: SaveWaypoint): XmlNode
  {
    Element("waypoint", [("destination", TextValue(w.destination)), ("access", BoolValue(w.access))], [])
  }

  /** The `<waypoint>`s of a world: those with an empty destination are
      skipped. */
  function WaypointNodes(ws: seq<SaveWaypoint>): (r: seq<XmlNode>)
    ensures |r| <= |ws|
  {
    if ws == [] then []
    else WaypointNodes(ws[..|ws| - 1]) + (if ws[|ws| - 1].destination == [] then [] else [WaypointNode(ws[|ws| - 1])])
  }

  function OverworldNode(w: SaveOverworld): XmlNode
  {
    Element("overworld", [("name", TextValue(w.name))], WaypointNodes(w.waypoints))
  }

  function OverworldNodes(ws: seq<SaveOverworld>): (r: seq<XmlNode>)
    ensures |r| == |ws|
  {
    if ws == [] then [] else OverworldNodes(ws[..|ws| - 1]) + [OverworldNode(ws[|ws| - 1])]
  }

  /** The whole `<savegame>` document. */
  function SaveDocument(s: Save, isZero: real -> bool): XmlNode
  {
    Element("savegame", [],
      [InformationNode(s), PlayerNode(s)] + ReturnNodes(s.returnEntries)
      + LevelNodes(s.levels, isZero) + OverworldNodes(s.overworlds))
  }

  /** The names of an element's properties. */
  function PropNames(props: seq<(String, PropValue)>): set<String>
  {
    set k | 0 <= k < |props| :: props[k].0
  }

  /** `level_time` is written exactly when the savegame holds a level. */
  lemma LevelTimeWrittenIffLevels(s: Save)
    ensures "level_time" in PropNames(PlayerNode(s).props) <==> s.levels != []
  {
    var ps := PlayerNode(s).props;
    if s.levels != [] {
      assert ps[11].0 == "level_time";
    } else {
      assert forall k :: 0 <= k < |ps| ==> ps[k].0 != "level_time";
    }
  }

  /** A return entry writes its level and its entry each exactly when it
      is not empty. */
  lemma ReturnFieldsWrittenIffNonEmpty(e: ReturnEntry)
    ensures "level" in PropNames(ReturnNode(e).props) <==> e.level != []
    ensures "entry" in PropNames(ReturnNode(e).props) <==> e.entry != []
  {
    var ps := ReturnNode(e).props;
    if e.level != [] {
      assert ps[0].0 == "level";
    }
    if e.entry != [] {
      assert ps[|ps| - 1].0 == "entry";
    }
  }

  /** The player position is written exactly for a level with both
      coordinates non-zero, and the script data exactly when non-empty. */
  lemma LevelFieldsWritten(l: SaveLevel, isZero: real -> bool)
    ensures "player_posx" in PropNames(LevelProps(l, isZero)) <==> !isZero(l.posX) && !isZero(l.posY)
    ensures "player_posy" in PropNames(LevelProps(l, isZero)) <==> !isZero(l.posX) && !isZero(l.posY)
    ensures "mruby_data" in PropNames(LevelProps(l, isZero)) <==> l.mrubyData != []
  {
    var ps := LevelProps(l, isZero);
    if !isZero(l.posX) && !isZero(l.posY) {
      assert ps[1].0 == "player_posx" && ps[2].0 == "player_posy";
    }
    if l.mrubyData != [] {
      assert ps[|ps| - 1].0 == "mruby_data";
    }
  }

  /** Exactly the waypoints with a destination are written, each once per
      occurrence and in order. */
  lemma {:induction false} WaypointNodesAreTheNamedOnes(ws: seq<SaveWaypoint>)
    ensures forall n :: n in WaypointNodes(ws) ==> exists w :: w in ws && w.destination != [] && n == WaypointNode(w)
    ensures forall w :: w in ws && w.destination != [] ==> WaypointNode(w) in WaypointNodes(ws)
  {
    if ws != [] {
      var front := ws[..|ws| - 1];
      WaypointNodesAreTheNamedOnes(front);
      assert forall w :: w in front ==> w in ws;
      assert forall w :: w in ws ==> w in front || w == ws[|ws| - 1];
    }
  }

  /** `cSave::Write_To_File`, building the document element by element. */
  method WriteToFile(s: Save, isZero: real -> bool) returns (doc: XmlNode)
    ensures doc == SaveDocument(s, isZero)
  {
    var children := [InformationNode(s), PlayerNode(s)];
    var back := BuildReturnNodes(s.returnEntries);
    var levels := BuildLevelNodes(s.levels, isZero);
    var worlds := BuildOverworldNodes(s.overworlds);
    doc := Element("savegame", [], children + back + levels + worlds);
  }

  method BuildReturnNodes(es: seq<ReturnEntry>) returns (r: seq<XmlNode>)
    ensures r == ReturnNodes(es)
  {
    r := [];
    for i := 0 to |es|
      invariant r == ReturnNodes(es[..i])
    {
      var props: seq<(String, PropValue)> := [];
      if es[i].level != [] {
        props := props + [("level", TextValue(es[i].level))];
      }
      if es[i].entry != [] {
        props := props + [("entry", TextValue(es[i].entry))];
      }
      assert props == ReturnNode(es[i]).props;
      r := r + [Element("return", props, [])];
      assert es[..i + 1][..i] == es[..i];
    }
    assert es[..|es|] == es;
  }

  method BuildLevelNodes(ls: seq<SaveLevel>, isZero: real -> bool) returns (r: seq<XmlNode>)
    ensures r == LevelNodes(ls, isZero)
  {
    r := [];
    for i := 0 to |ls|
      invariant r == LevelNodes(ls[..i], isZero)
    {
      var l := ls[i];
      var props := [("level_name", TextValue(l.name))];
      if !isZero(l.posX) && !isZero(l.posY) {
        props := props + [("player_posx", FloatValue(l.posX)), ("player_posy", FloatValue(l.posY))];
      }
      if l.mrubyData != [] {
        props := props + [("mruby_data", TextValue(l.mrubyData))];
      }
      assert props == LevelProps(l, isZero);
      var spawned := BuildSpriteNodes(l.spawned);
      var objects := BuildObjectNodes(l.objects);
      r := r + [Element("level", props, [Element("spawned_objects", [], spawned), Element("objects_data", [], objects)])];
      assert ls[..i + 1][..i] == ls[..i];
    }
    assert ls[..|ls|] == ls;
  }

  method BuildSpriteNodes(ss: seq<SpawnedObject>) returns (r: seq<XmlNode>)
    ensures r == SpriteNodes(ss)
  {
    r := [];
    for i := 0 to |ss|
      invariant r == SpriteNodes(ss[..i])
    {
      r := r + [SpriteNode(ss[i])];
      assert ss[..i + 1][..i] == ss[..i];
    }
    assert ss[..|ss|] == ss;
  }

  method BuildObjectNodes(os: seq<SaveLevelObject>) returns (r: seq<XmlNode>)
    ensures r == ObjectNodes(os)
  {
    r := [];
    for i := 0 to |os|
      invariant r == ObjectNodes(os[..i])
    {
      var props := [("type", IntValue(os[i].spriteType))];
      var ps := os[i].properties;
      for j := 0 to |ps|
        invariant props == [("type", IntValue(os[i].spriteType))] + TextProps(ps[..j])
      {
        props := props + [(ps[j].0, TextValue(ps[j].1))];
        assert ps[..j + 1][..j] == ps[..j];
      }
      assert ps[..|ps|] == ps;
      r := r + [Element("object", props, [])];
      assert os[..i + 1][..i] == os[..i];
    }
    assert os[..|os|] == os;
  }

  method BuildOverworldNodes(ws: seq<SaveOverworld>) returns (r: seq<XmlNode>)
    ensures r == OverworldNodes(ws)
  {
    r := [];
    for i := 0 to |ws|
      invariant r == OverworldNodes(ws[..i])
    {
      var wps := ws[i].waypoints;
      var nodes: seq<XmlNode> := [];
      for j := 0 to |wps|
        invariant nodes == WaypointNodes(wps[..j])
      {
        assert wps[..j + 1][..j] == wps[..j];
        if wps[j].destination == [] {
          continue;
        }
        nodes := nodes + [Element("waypoint", [("destination", TextValue(wps[j].destination)), ("access", BoolValue(wps[j].access))], [])];
      }
      assert wps[..|wps|] == wps;
      r := r + [Element("overworld", [("name", TextValue(ws[i].name))], nodes)];
      assert ws[..i + 1][..i] == ws[..i];
    }
    assert ws[..|ws|] == ws;
  }
}
