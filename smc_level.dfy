/** A level of the SMC engine (smc/src/level/level.cpp): its header
    settings, the player start, the backgrounds, the sprites and the
    level script, filled by the SAX callbacks `elementStart`, `text` and
    `elementEnd`; creating, naming and unloading a level; and the
    attribute migrations that `Create_Level_Object_From_XML` applies to
    enemies, level exits and falling platforms of old engine versions. */
module SmcLevel {
  import opened Common
  import opened GameTypes
  import opened PropertyHelper
  import opened XmlAttributes
  import opened Paths
  import LevelBackground

  /** A sprite of the level, as far as the level looks at it: whether it is
      a level entry and under which name, whether it is about to be
      destroyed, and its UID (-1 asks the sprite manager for a new one). */
  datatype LevelSprite = LevelSprite(isEntry: bool, entryName: String, autoDestroy: bool, uid: int)

  /** The settings of a level (`m_engine_version` … `m_fixed_camera_hor_vel`);
      an engine version below 0 means that no level is loaded. */
  datatype Header = Header(
    engineVersion: int,
    lastSaved: int,
    author: String,
    version: String,
    music: String,
    description: String,
    difficulty: int,
    landType: LevelLandType,
    cameraLimits: (int, int, int, int),
    fixedCameraHorVel: real)

  datatype PlayerStart = PlayerStart(x: int, y: int, direction: Direction)

  /** A background as the level keeps it: the gradient every level starts
      with, or one built from the attributes of a `<background>`. */
  datatype Background = DefaultGradient | FromXml(attributes: Attributes)

  /** What the level needs from outside: the user level and game music
      directories, the file system's existence test, the float
      conversions, `level_engine_version`, the default music, player start
      and camera limits, `Is_Level_Object_Element`, and the sprite
      constructors, which get the element, the migrated attributes and the
      engine version and may refuse. */
  datatype LevelEnv = LevelEnv(
    userLevelDir: String,
    gameMusicDir: String,
    fileExists: String -> bool,
    conv: FloatText,
    levelEngineVersion: int,
    defaultMusic: String,
    defaultPlayer: (int, int),
    defaultCameraLimits: (int, int, int, int),
    isObjectElement: String -> bool,
    construct: (String, Attributes, int) -> Option<LevelSprite>)

  /** All fields of a level. */
  datatype LevelState = LevelState(
    header: Header,
    player: PlayerStart,
    levelFile: String,
    script: String,
    inScript: bool,
    delayedUnload: bool,
    properties: Attributes,
    sprites: seq<LevelSprite>,
    backgrounds: seq<Background>)

  /* ---------------------------------------------------------------------
     Settings
     --------------------------------------------------------------------- */

  /** `Set_Difficulty` of a `Uint8`: a value over 100 is invalid and
      becomes 0. */
  function Difficulty(d: int): (r: int)
    requires 0 <= d < 256
    ensures 0 <= r <= 100
    ensures r == d <==> d <= 100
  {
    if d > 100 then 0 else d
  }

  /** `Set_Music`: a relative file is taken from the game music directory. */
  function MusicPath(f: String, env: LevelEnv): String
  {
    if f != [] && f[0] == '/' then f else JoinPath(env.gameMusicDir, f)
  }

  /** `Reset_Settings`: no engine version, no author or version, the default
      music, difficulty 0, an undefined land type and the default camera. */
  function DefaultHeader(env: LevelEnv): (h: Header)
    ensures h.engineVersion < 0
  {
    Header(-1, 0, [], [], MusicPath(env.defaultMusic, env), [], 0, LltUndefined, env.defaultCameraLimits, 0.0)
  }

  function DefaultPlayer(env: LevelEnv): PlayerStart
  {
    PlayerStart(env.defaultPlayer.0, env.defaultPlayer.1, DirRight)
  }

    /** The engine version of `<information>`: engines up to 1.7 wrote it as
      a float such as 1.7, which is read as 17. */
  function EngineVersionOf(f: real): int
  {
    Truncate(if f < 3.0 then f * 10.0 else f)
  }

  /** Both ways of writing a version read as the same number: the old
      float form v/10 and the new integer form v (from 3 on). */
  lemma EngineVersionForms(v: nat)
    ensures v < 30 ==> EngineVersionOf(v as real / 10.0) == v
    ensures v >= 3 ==> EngineVersionOf(v as real) == v
  {
    if v < 30 {
      assert (v as real / 10.0) * 10.0 == v as real;
    }
  }

  /** The text `cam_limit_h` holds when the settings are read: files before
      engine 35 measured y from the bottom of a 600 pixel screen. */
  function HeightLimitText(p: Attributes, engine: int, conv: FloatText): (r: String)
    ensures "cam_limit_h" in p && engine < 35 ==> r == conv.fromFloat(conv.toFloat(p["cam_limit_h"]) - 600.0)
    ensures "cam_limit_h" in p && engine >= 35 ==> r == p["cam_limit_h"]
  {
    if engine < 35 && "cam_limit_h" in p
    then conv.fromFloat(conv.toFloat(p["cam_limit_h"]) - 600.0)
    else Get(p, "cam_limit_h")
  }

  /** What `<settings>` makes of the header; the engine version and the
      save time stay. */
  function SettingsHeader(p: Attributes, h: Header, env: LevelEnv): (r: Header)
    ensures r.engineVersion == h.engineVersion && r.lastSaved == h.lastSaved
    ensures 0 <= r.difficulty <= 100
    ensures r.cameraLimits.3 == StringToInt(HeightLimitText(p, h.engineVersion, env.conv))
  {
    h.(author := ReplaceAll(Get(p, "lvl_author"), LineBreakTag, "\n"),
       version := ReplaceAll(Get(p, "lvl_version"), LineBreakTag, "\n"),
       music := MusicPath(ReplaceAll(Get(p, "lvl_music"), LineBreakTag, "\n"), env),
       description := ReplaceAll(Get(p, "lvl_description"), LineBreakTag, "\n"),
       difficulty := Difficulty(ToByte(FetchInt(p, "lvl_difficulty", 0))),
       landType := LevelLandTypeId(FetchString(p, "lvl_land_type", "undefined")),
       cameraLimits := (FetchInt(p, "cam_limit_x", 0), FetchInt(p, "cam_limit_y", 0),
                        FetchInt(p, "cam_limit_w", 0),
                        StringToInt(HeightLimitText(p, h.engineVersion, env.conv))),
       fixedCameraHorVel := FetchFloat(p, "cam_fixed_hor_vel", 0.0, env.conv.toFloat))
  }



  /* ---------------------------------------------------------------------
     Player start
     --------------------------------------------------------------------- */

  /** `<player>`: the start position, moved for old engines, and the
      direction, which must be left or right. */
  function PlayerStartFrom(p: Attributes, engine: int, env: LevelEnv): PlayerStart
  {
    var x := FetchInt(p, "posx", env.defaultPlayer.0);
    var y0 := FetchInt(p, "posy", env.defaultPlayer.1);
    var y1 := if engine < 35 then y0 - 600 else y0;
    var y := if engine <= 10 then y1 + 58 else if engine <= 20 then y1 - 48 else y1;
    var d := DirectionId(Get(p, "direction"));
    PlayerStart(x, y, if d != DirLeft && d != DirRight then DirRight else d)
  }

  /** How far each engine generation moves the start: up to 1.0 by
      -542, up to 2.0 by -648, up to 3.4 by -600, from 3.5 on not at all;
      and the player always faces left or right, as the file says when it
      says one of them. */
  lemma PlayerStartByVersion(p: Attributes, engine: int, env: LevelEnv)
    ensures var s := PlayerStartFrom(p, engine, env);
      var y := FetchInt(p, "posy", env.defaultPlayer.1);
      (engine <= 10 ==> s.y == y - 542) &&
      (10 < engine <= 20 ==> s.y == y - 648) &&
      (20 < engine < 35 ==> s.y == y - 600) &&
      (engine >= 35 ==> s.y == y) &&
      (s.direction == DirLeft || s.direction == DirRight) &&
      (Get(p, "direction") == "left" ==> s.direction == DirLeft) &&
      (Get(p, "direction") != "left" ==> s.direction == DirRight)
  {
  }

  /* ---------------------------------------------------------------------
     Object migrations (Create_Level_Object_From_XML)
     --------------------------------------------------------------------- */

  /** A level exit: moved up before engine 35; before engine 36 its
      `motion` m becomes `camera_motion` m+1. */
  function MigrateLevelExit(a: Attributes, engine: int, conv: FloatText): (r: Attributes)
  {
    var b := if engine < 35 then ShiftUp(a, "posy", conv) else a;
    if engine < 36 && "motion" in b
    then b["camera_motion" := IntToString(StringToInt(b["motion"]) + 1)] - {"motion"}
    else b
  }

  lemma LevelExitMotion(a: Attributes, engine: int, conv: FloatText)
    requires engine < 36 && "motion" in a
    ensures var r := MigrateLevelExit(a, engine, conv);
      "motion" !in r && r["camera_motion"] == IntToString(StringToInt(a["motion"]) + 1)
  {
    var b := if engine < 35 then ShiftUp(a, "posy", conv) else a;
    assert b["motion"] == a["motion"];
  }

  /** Level exits of current files are left alone. */
  lemma CurrentLevelExitUnchanged(a: Attributes, engine: int, conv: FloatText)
    requires engine >= 36
    ensures MigrateLevelExit(a, engine, conv) == a
  {
  }

  /** A falling platform (before engine 1.5) becomes a moving platform that
      does not move, falls `time_fall` seconds after being touched (48
      frames without one) and shakes for 12 frames; before engine 32 its
      grey slider images are renamed, before 35 it is moved up. */
  function MigrateFallingPlatform(a: Attributes, engine: int, conv: FloatText): (r: Attributes)
  {
    var d := StillPlatform(a, conv);
    var e := if engine < 32 then OldSliderImagesRenamed(d) else d;
    if engine < 35 then ShiftUp(e, "posy", conv) else e
  }

  /** The platform part of the migration: no speed, the touch time, the
      shake time. */
  function StillPlatform(a: Attributes, conv: FloatText): (r: Attributes)
  {
    var b := a["speed" := "0"];
    var c := if "time_fall" in b
             then b["touch_time" := conv.fromFloat(conv.toFloat(b["time_fall"]) * SpeedfactorFps as real)] - {"time_fall"}
             else b["touch_time" := "48"];
    c["shake_time" := "12"]
  }

  /** The renaming of the grey slider images of engines before 32. */
  function OldSliderImagesRenamed(a: Attributes): (r: Attributes)
    ensures r.Keys == a.Keys
    ensures forall k :: k in a && k !in {"image_top_left", "image_top_middle", "image_top_right"} ==> r[k] == a[k]
  {
    var b := RelocateImage(a, "slider/grey_1/slider_left.png", "ground/green_1/slider/1/brown/left.png", "image_top_left");
    var c := RelocateImage(b, "slider/grey_1/slider_middle.png", "ground/green_1/slider/1/brown/middle.png", "image_top_middle");
    RelocateImage(c, "slider/grey_1/slider_right.png", "ground/green_1/slider/1/brown/right.png", "image_top_right")
  }

  /** The later steps of the migration keep every key but the images and
      the position. */
  lemma FallingPlatformKeeps(a: Attributes, engine: int, conv: FloatText, k: String)
    requires k in StillPlatform(a, conv)
    requires k !in {"image_top_left", "image_top_middle", "image_top_right", "posy"}
    ensures var r := MigrateFallingPlatform(a, engine, conv);
      k in r && r[k] == StillPlatform(a, conv)[k]
  {
    var d := StillPlatform(a, conv);
    var e := if engine < 32 then OldSliderImagesRenamed(d) else d;
    assert k in e && e[k] == d[k];
  }

  /** A falling platform never moves and shakes for 12 frames. */
  lemma FallingPlatformStill(a: Attributes, engine: int, conv: FloatText)
    ensures var r := MigrateFallingPlatform(a, engine, conv);
      r["speed"] == "0" && r["shake_time"] == "12" && "time_fall" !in r
  {
    var d := StillPlatform(a, conv);
    assert d["speed"] == "0" && d["shake_time"] == "12" && "time_fall" !in d;
    FallingPlatformKeeps(a, engine, conv, "speed");
    FallingPlatformKeeps(a, engine, conv, "shake_time");
  }

  /** It falls `time_fall` seconds (of 32 frames) after it is touched, 48
      frames when the file gives no time. */
  lemma FallingPlatformTouchTime(a: Attributes, engine: int, conv: FloatText)
    ensures var r := MigrateFallingPlatform(a, engine, conv);
      ("time_fall" in a ==> r["touch_time"] == conv.fromFloat(conv.toFloat(a["time_fall"]) * 32.0)) &&
      ("time_fall" !in a ==> r["touch_time"] == "48")
  {
    var d := StillPlatform(a, conv);
    assert "touch_time" in d;
    FallingPlatformKeeps(a, engine, conv, "touch_time");
  }

  /** `image_dir` with its first "jpiranha" replaced by "flyon". */
  function FlyonImageDir(dir: String): (r: String)
  {
    match Find(dir, "jpiranha", 0)
    case None => dir
    case Some(pos) => dir[..pos] + "flyon" + dir[pos + 8..]
  }

  /** An enemy: before engine 26 a gumba becomes a furball (red ones
      blue) and a rex a krush; before 29 a jpiranha becomes a flyon; before
      35 it is moved up. */
  function MigrateEnemy(a: Attributes, engine: int, conv: FloatText): (r: Attributes)
  {
    var t := Get(a, "type");
    var b :=
      if engine < 26 && t == "gumba" then
        var g := a["type" := "furball"];
        if "color" in g && g["color"] == "red" then g["color" := "blue"] else g
      else if engine < 26 && t == "rex" then a["type" := "krush"]
      else a;
    var t2 := if engine < 26 && t == "gumba" then "furball" else if engine < 26 && t == "rex" then "krush" else t;
    var c :=
      if engine < 29 && t2 == "jpiranha" then
        var f := b["type" := "flyon"];
        if "image_dir" in f then f["image_dir" := FlyonImageDir(f["image_dir"])] else f
      else b;
    if engine < 35 then ShiftUp(c, "posy", conv) else c
  }

  /** Gumbas of engines before 26 become furballs, red ones turning blue and
      other colours staying. */
  lemma GumbaBecomesFurball(a: Attributes, engine: int, conv: FloatText)
    requires engine < 26 && Get(a, "type") == "gumba"
    ensures var r := MigrateEnemy(a, engine, conv);
      r["type"] == "furball" &&
      ("color" in a ==> r["color"] == (if a["color"] == "red" then "blue" else a["color"]))
  {
  }

  lemma RexBecomesKrush(a: Attributes, engine: int, conv: FloatText)
    requires engine < 26 && Get(a, "type") == "rex"
    ensures MigrateEnemy(a, engine, conv)["type"] == "krush"
  {
  }

  /** Jumping piranhas of engines before 29 become flyons whose image
      directory names flyon where it named jpiranha. */
  lemma JpiranhaBecomesFlyon(a: Attributes, engine: int, conv: FloatText)
    requires engine < 29 && Get(a, "type") == "jpiranha"
    ensures var r := MigrateEnemy(a, engine, conv);
      r["type"] == "flyon" &&
      ("image_dir" in a ==> r["image_dir"] == FlyonImageDir(a["image_dir"]))
  {
  }

  /** The first "jpiranha" is the one replaced. */
  lemma FlyonImageDirReplacesFirst(dir: String, pos: nat)
    requires OccursAt(dir, "jpiranha", pos)
    requires forall j :: 0 <= j < pos ==> !OccursAt(dir, "jpiranha", j)
    ensures FlyonImageDir(dir) == dir[..pos] + "flyon" + dir[pos + 8..]
  {
    FindFirst(dir, "jpiranha", 0, pos);
  }

  /** `find` from `from` stops at the first occurrence. */
  lemma {:induction false} FindFirst(s: String, p: String, from: nat, pos: nat)
    requires from <= pos
    requires OccursAt(s, p, pos)
    requires forall j :: from <= j < pos ==> !OccursAt(s, p, j)
    ensures Find(s, p, from) == Some(pos)
    decreases pos - from
  {
    if from < pos {
      FindFirst(s, p, from + 1, pos);
    }
  }

  /** Enemies of current files are left alone. */
  lemma CurrentEnemyUnchanged(a: Attributes, engine: int, conv: FloatText)
    requires engine >= 35
    ensures MigrateEnemy(a, engine, conv) == a
  {
  }

  /** The attributes the sprite constructors get. */
  function Migrate(element: String, a: Attributes, engine: int, conv: FloatText): Attributes
  {
    if element == "levelexit" then MigrateLevelExit(a, engine, conv)
    else if element == "falling_platform" then MigrateFallingPlatform(a, engine, conv)
    else if element == "enemy" then MigrateEnemy(a, engine, conv)
    else a
  }

  /* ---------------------------------------------------------------------
     Names and files
     --------------------------------------------------------------------- */

  /** `Trim_Filename(p, false, false)`: the file name without directory and
      extension. */
  function Stem(p: String): (r: String)
  {
    var n := FileNameStart(p);
    match ExtensionStart(p)
    case None => p[n..]
    case Some(i) => p[n..i]
  }

  /** A stem holds no '/'. */
  lemma StemHasNoSlash(p: String)
    ensures forall k :: 0 <= k < |Stem(p)| ==> Stem(p)[k] != '/'
  {
    FileNameHasNoSlash(p);
    var n := FileNameStart(p);
    forall k | 0 <= k < |Stem(p)| ensures Stem(p)[k] != '/' {
      assert Stem(p)[k] == p[n + k];
    }
  }

  /** `string_trim(s, c)`: `c` cut from both ends. */
  function Trim(s: String, c: char): (r: String)
    ensures r == [] || (r[0] != c && r[|r| - 1] != c)
  {
    if s != [] && s[0] == c then Trim(s[1..], c) else TrimFromEnd(s, c)
  }

  /** A level file name: ".smclvl" unless it already ends so. */
  function WithLevelExtension(p: String): (r: String)
    ensures EndsWith(r, ".smclvl")
  {
    if EndsWith(p, ".smclvl") then p
    else
      ReplaceExtensionEndsWith(p, ".smclvl");
      ReplaceExtension(p, ".smclvl")
  }

  /** The test above is the source's `extension() != ".smclvl"`. */
  lemma LevelExtensionTest(p: String)
    ensures Extension(p) == ".smclvl" <==> EndsWith(p, ".smclvl")
  {
    ExtensionTest(p, ".smclvl");
  }

  /** `fs::absolute(p, dir)`. */
  function Absolute(p: String, dir: String): String
  {
    if p != [] && p[0] == '/' then p else JoinPath(dir, p)
  }

  /** A joined path ends as its last component does. */
  lemma JoinedEndsWith(dir: String, p: String, ext: String)
    requires EndsWith(p, ext)
    ensures EndsWith(Absolute(p, dir), ext)
  {
    var r := Absolute(p, dir);
    if r != p {
      assert r[|r| - |ext|..] == p[|p| - |ext|..];
    }
  }

  /** The file `Set_Filename(name)` gives the level, `None` when the stem
      of the name is shorter than two characters. */
  function LevelFileFor(name: String, env: LevelEnv): (r: Option<String>)
    ensures r.Some? ==> EndsWith(r.value, ".smclvl")
    ensures r.None? <==> |Stem(name)| < 2
  {
    var t := Stem(name);
    if |t| < 2 then None
    else
      JoinedEndsWith(env.userLevelDir, WithLevelExtension(t), ".smclvl");
      Some(Absolute(WithLevelExtension(t), env.userLevelDir))
  }

  /** The i-th name `New("")` tries. */
  function NewLevelName(i: nat, env: LevelEnv): String
  {
    JoinPath(env.userLevelDir, "new_" + NatToString(i) + ".smclvl")
  }

  /** The first of `new_from` … `new_100` that does not exist yet. */
  function FreeNewSlot(env: LevelEnv, from: nat): (r: Option<nat>)
    requires from >= 1
    ensures r.Some? ==> from <= r.value <= 100 && !env.fileExists(NewLevelName(r.value, env))
    ensures r.Some? ==> forall j :: from <= j < r.value ==> env.fileExists(NewLevelName(j, env))
    ensures r.None? ==> forall j :: from <= j <= 100 ==> env.fileExists(NewLevelName(j, env))
    decreases 101 - from
  {
    if from > 100 then None
    else if !env.fileExists(NewLevelName(from, env)) then Some(from)
    else FreeNewSlot(env, from + 1)
  }

  /** The file `New(name)` tries to create, `None` when all hundred new
      names are taken. */
  function NewTarget(name: String, env: LevelEnv): Option<String>
  {
    var n := Trim(name, ' ');
    if n == [] then
      match FreeNewSlot(env, 1)
      case None => None
      case Some(i) => Some(NewLevelName(i, env))
    else Some(Absolute(WithLevelExtension(n), env.userLevelDir))
  }

  /* ---------------------------------------------------------------------
     Entries
     --------------------------------------------------------------------- */

  predicate IsEntryNamed(s: LevelSprite, name: String)
  {
    s.isEntry && !s.autoDestroy && s.entryName == name
  }

  /** The first live level entry called `name` at or after `from`. */
  function EntryFrom(sprites: seq<LevelSprite>, name: String, from: nat): (r: Option<nat>)
    requires from <= |sprites|
    ensures r.Some? ==> from <= r.value < |sprites| && IsEntryNamed(sprites[r.value], name)
    ensures r.Some? ==> forall j :: from <= j < r.value ==> !IsEntryNamed(sprites[j], name)
    ensures r.None? ==> forall j :: from <= j < |sprites| ==> !IsEntryNamed(sprites[j], name)
    decreases |sprites| - from
  {
    if from == |sprites| then None
    else if IsEntryNamed(sprites[from], name) then Some(from)
    else EntryFrom(sprites, name, from + 1)
  }

  /** `Get_Entry(name)`: no entry for the empty name, otherwise the first
      live level entry of that name. */
  function EntryIndex(sprites: seq<LevelSprite>, name: String): (r: Option<nat>)
    ensures name == [] ==> r.None?
  {
    if name == [] then None else EntryFrom(sprites, name, 0)
  }

  /* ---------------------------------------------------------------------
     The effect of the SAX callbacks
     --------------------------------------------------------------------- */

  predicate IsProperty(element: String) { element == "property" || element == "Property" }

  /** What a closing tag other than `<property>` does before the collected
      properties are cleared. */
  function EndEffect(s: LevelState, element: String, env: LevelEnv): (r: LevelState)
    requires |s.backgrounds| > 0
    ensures |r.backgrounds| > 0
  {
    var p := s.properties;
    var engine := s.header.engineVersion;
    if element == "information" then
      s.(header := s.header.(engineVersion := EngineVersionOf(FetchFloat(p, "engine_version", 0.0, env.conv.toFloat)),
                             lastSaved := StringToTime(Get(p, "save_time"))))
    else if element == "settings" then
      s.(header := SettingsHeader(p, s.header, env))
    else if element == "background" then
      if LevelBackground.IsGradient(LevelBackground.TypeOfCode(FetchInt(p, "type", 0)))
      then s.(backgrounds := s.backgrounds[0 := FromXml(p)])
      else s.(backgrounds := s.backgrounds + [FromXml(p)])
    else if element == "player" then
      s.(player := PlayerStartFrom(p, engine, env))
    else if env.isObjectElement(element) then
      match env.construct(element, Migrate(element, p, engine, env.conv), engine)
      case None => s
      case Some(o) => s.(sprites := s.sprites + [o.(uid := FetchInt(p, "uid", -1))])
    else if element == "script" then
      s.(inScript := false)
    else
      s
  }

  /** A closing tag only ever adds one sprite, the one built from its
      migrated attributes, with the file's UID or -1. */
  lemma EndAddsAtMostOneSprite(s: LevelState, element: String, env: LevelEnv)
    requires |s.backgrounds| > 0
    ensures var r := EndEffect(s, element, env);
      r.sprites == s.sprites ||
      (env.isObjectElement(element) &&
       var o := env.construct(element, Migrate(element, s.properties, s.header.engineVersion, env.conv), s.header.engineVersion);
       o.Some? && r.sprites == s.sprites + [o.value.(uid := FetchInt(s.properties, "uid", -1))])
  {
  }

  /** A gradient background replaces the first background; any other kind
      is added. */
  lemma BackgroundsGrowOrGradientReplaced(s: LevelState, env: LevelEnv)
    requires |s.backgrounds| > 0
    ensures var r := EndEffect(s, "background", env);
      var gradient := LevelBackground.IsGradient(LevelBackground.TypeOfCode(FetchInt(s.properties, "type", 0)));
      (gradient ==> |r.backgrounds| == |s.backgrounds| && r.backgrounds[0] == FromXml(s.properties) &&
                    r.backgrounds[1..] == s.backgrounds[1..]) &&
      (!gradient ==> r.backgrounds == s.backgrounds + [FromXml(s.properties)])
  {
  }

  /* ---------------------------------------------------------------------
     The level
     --------------------------------------------------------------------- */

  class Level {
    var header: Header
    var player: PlayerStart
    /** `m_level_filename` */
    var levelFile: String
    /** `m_script`, the level's script code */
    var script: String
    /** `m_start_script_tag`: between `<script>` and `</script>` */
    var inScript: bool
    var delayedUnload: bool
    /** `m_xml_attributes`: the properties collected for the open element */
    var properties: Attributes
    var sprites: seq<LevelSprite>
    /** the background manager's list; the first one is the gradient */
    var backgrounds: seq<Background>

    function State(): LevelState
      reads this`header, this`player, this`levelFile, this`script, this`inScript, this`delayedUnload
      reads this`properties, this`sprites, this`backgrounds
    {
      LevelState(header, player, levelFile, script, inScript, delayedUnload, properties, sprites, backgrounds)
    }

    predicate Valid()
      reads this
    {
      |backgrounds| > 0
    }

    /** `Is_Loaded`. */
    predicate IsLoaded()
      reads this
    {
      header.engineVersion >= 0
    }

    /** `cLevel()`: default settings and the gradient background. */
    constructor (env: LevelEnv)
      ensures Valid() && !IsLoaded()
      ensures State() == LevelState(DefaultHeader(env), DefaultPlayer(env), [], [], false, false, map[], [], [DefaultGradient])
    {
      header := DefaultHeader(env);
      player := DefaultPlayer(env);
      levelFile := [];
      script := [];
      inScript := false;
      delayedUnload := false;
      properties := map[];
      sprites := [];
      backgrounds := [DefaultGradient];
    }

    /** The level a parser hands over (`cLevelLoader::Get_Level`). */
    constructor FromState(s: LevelState)
      ensures State() == s
    {
      header := s.header;
      player := s.player;
      levelFile := s.levelFile;
      script := s.script;
      inScript := s.inScript;
      delayedUnload := s.delayedUnload;
      properties := s.properties;
      sprites := s.sprites;
      backgrounds := s.backgrounds;
    }

    /** `Set_Difficulty`. */
    method SetDifficulty(d: int)
      requires 0 <= d < 256
      modifies this`header
      ensures header == old(header).(difficulty := Difficulty(d))
    {
      header := header.(difficulty := d);
      if header.difficulty > 100 {
        header := header.(difficulty := 0);
      }
    }

    /** `Unload(delayed)`: a delayed unload only raises the flag; otherwise
        the flag is cleared and a loaded level drops everything it loaded. */
    method Unload(delayed: bool, env: LevelEnv)
      modifies this
      ensures delayed ==> State() == old(State()).(delayedUnload := true)
      ensures !delayed ==> State() == Unloaded(old(State()), env)
      ensures !delayed ==> !IsLoaded()
      ensures old(Valid()) ==> Valid()
    {
      if delayed {
        delayedUnload := true;
        return;
      }
      delayedUnload := false;
      if !IsLoaded() {
        return;
      }
      backgrounds := [DefaultGradient];
      header := DefaultHeader(env);
      levelFile := [];
      player := DefaultPlayer(env);
      script := [];
      sprites := [];
    }

    /** `New(name)`: unloads the level and, when the target file does not
        exist yet, makes it this level's file at the current engine version. */
    method New(name: String, env: LevelEnv) returns (ok: bool)
      modifies this
      ensures var t := NewTarget(name, env);
        ok <==> t.Some? && !env.fileExists(t.value)
      ensures ok ==> State() == Unloaded(old(State()), env).(
        levelFile := NewTarget(name, env).value,
        header := Unloaded(old(State()), env).header.(engineVersion := env.levelEngineVersion))
      ensures !ok ==> State() == Unloaded(old(State()), env)
    {
      Unload(false, env);
      var n := Trim(name, ' ');
      var file: String;
      if n == [] {
        var i: nat := 1;
        while true
          invariant 1 <= i <= 100
          invariant FreeNewSlot(env, 1) == FreeNewSlot(env, i)
          decreases 100 - i
        {
          file := NewLevelName(i, env);
          if !env.fileExists(file) {
            break;
          }
          if i > 99 {
            return false;
          }
          i := i + 1;
        }
      } else {
        file := n;
        if !EndsWith(file, ".smclvl") {
          file := ReplaceExtension(file, ".smclvl");
        }
        file := Absolute(file, env.userLevelDir);
      }
      if env.fileExists(file) {
        return false;
      }
      levelFile := file;
      header := header.(engineVersion := env.levelEngineVersion);
      return true;
    }

    /** `Set_Filename(name)` without the renaming of the old file on disk:
        a stem shorter than two characters is refused. */
    method SetFilename(name: String, env: LevelEnv)
      modifies this`levelFile
      ensures levelFile == match LevelFileFor(name, env) case Some(f) => f case None => old(levelFile)
    {
      var f := Stem(name);
      if |f| < 2 {
        return;
      }
      if !EndsWith(f, ".smclvl") {
        f := ReplaceExtension(f, ".smclvl");
      }
      levelFile := Absolute(f, env.userLevelDir);
    }

    /** `Get_Entry(name)`: the index of the level entry, if any. */
    method GetEntry(name: String) returns (r: Option<nat>)
      ensures r == EntryIndex(sprites, name)
    {
      if name == [] {
        return None;
      }
      var i := 0;
      while i < |sprites|
        invariant 0 <= i <= |sprites|
        invariant EntryFrom(sprites, name, i) == EntryFrom(sprites, name, 0)
      {
        var s := sprites[i];
        if !s.isEntry || s.autoDestroy {
          i := i + 1;
          continue;
        }
        if s.entryName == name {
          return Some(i);
        }
        i := i + 1;
      }
      return None;
    }

    /** `elementStart`: a property is collected, `<script>` starts the
        script text. */
    method StartElement(element: String, attributes: Attributes)
      modifies this`properties, this`inScript
      ensures IsProperty(element) ==>
        properties == old(properties)[Get(attributes, "name") := Get(attributes, "value")] && inScript == old(inScript)
      ensures !IsProperty(element) ==> properties == old(properties)
      ensures !IsProperty(element) ==> inScript == (old(inScript) || element == "script")
    {
      if IsProperty(element) {
        properties := properties[Get(attributes, "name") := Get(attributes, "value")];
      } else if element == "script" {
        inScript := true;
      }
    }

    /** `text`: script text is appended only inside `<script>`. */
    method Text(t: String)
      modifies this`script
      ensures script == if inScript then old(script) + t else old(script)
    {
      if inScript {
        script := script + t;
      }
    }

    /** `elementEnd`: a property is kept for the element around it; any
        other element takes effect and the properties are cleared. */
    method EndElement(element: String, env: LevelEnv)
      requires Valid()
      modifies this
      ensures Valid()
      ensures IsProperty(element) ==> State() == old(State())
      ensures !IsProperty(element) ==>
        State() == EndEffect(old(State()), element, env).(properties := map[])
    {
      if IsProperty(element) {
        return;
      }
      ApplyEnd(element, env);
      properties := map[];
    }

    method ApplyEnd(element: String, env: LevelEnv)
      requires Valid()
      modifies this
      ensures State() == EndEffect(old(State()), element, env)
    {
      var p := properties;
      var engine := header.engineVersion;
      if element == "information" {
        var f := FetchFloat(p, "engine_version", 0.0, env.conv.toFloat);
        if f < 3.0 {
          f := f * 10.0;
        }
        header := header.(engineVersion := Truncate(f), lastSaved := StringToTime(Get(p, "save_time")));
      } else if element == "settings" {
        header := SettingsHeader(p, header, env);
      } else if element == "background" {
        var t := LevelBackground.TypeOfCode(FetchInt(p, "type", 0));
        if LevelBackground.IsGradient(t) {
          backgrounds := backgrounds[0 := FromXml(p)];
        } else {
          backgrounds := backgrounds + [FromXml(p)];
        }
      } else if element == "player" {
        player := PlayerStartFrom(p, engine, env);
      } else if env.isObjectElement(element) {
        var o := env.construct(element, Migrate(element, p, engine, env.conv), engine);
        if o.Some? {
          sprites := sprites + [o.value.(uid := FetchInt(p, "uid", -1))];
        }
      } else if element == "script" {
        inScript := false;
      }
    }
  }

  /** The state `Unload(false)` leaves: the flag cleared and, for a loaded
      level, default settings, no file, no script, no sprites and only the
      default gradient. */
  function Unloaded(s: LevelState, env: LevelEnv): (r: LevelState)
    ensures r.header.engineVersion < 0
  {
    if s.header.engineVersion < 0 then s.(delayedUnload := false)
    else s.(header := DefaultHeader(env), player := DefaultPlayer(env), levelFile := [], script := [],
            delayedUnload := false, sprites := [], backgrounds := [DefaultGradient])
  }

  /** Unloading twice is unloading once. */
  lemma UnloadedIdempotent(s: LevelState, env: LevelEnv)
    ensures Unloaded(Unloaded(s, env), env) == Unloaded(s, env)
  {
  }
}
