/** The SAX loader of a TSC level (tsc/src/level/level_loader.cpp).
    `<property>` elements are collected into a map until the element around
    them closes; that element then sets the level's information, settings
    or player start, or becomes level objects after the attribute
    migrations for old engine versions; the text of `<script>` is collected
    into the level's script. */
module LevelLoading {
  import opened Common
  import opened GameTypes
  import opened PropertyHelper
  import opened XmlAttributes
  import opened Actors
  import opened TscLevel

  /** How `on_end_element` treats a closing tag. */
  datatype EndTag = PropertyEnd | InformationEnd | SettingsEnd | PlayerEnd | ObjectEnd | RootEnd | ScriptEnd | UnknownEnd

  /** What the loader takes from outside: `string_to_float` and
      `float_to_string`, `cLevel::Is_Level_Object_Element`,
      `Get_Game_Pixmap`, the player's default start, `Get_Collision_Type_Id`
      and the depths of the Z layers. */
  datatype LoaderEnv = LoaderEnv(
    conv: FloatText,
    isLevelObject: String -> bool,
    pixmap: String -> String,
    defaultX: real,
    defaultY: real,
    collisionTypeId: String -> CollisionType,
    depth: ZLayer -> real)

  /** The dispatch of `on_end_element`. */
  function ClassifyEnd(name: String, isLevelObject: String -> bool): EndTag
  {
    if IsPropertyTag(name) then PropertyEnd
    else if name == "information" then InformationEnd
    else if name == "settings" then SettingsEnd
    else if name == "player" then PlayerEnd
    else if isLevelObject(name) then ObjectEnd
    else if name == "level" then RootEnd
    else if name == "script" then ScriptEnd
    else UnknownEnd
  }

  /** A `<property>` close is never anything else, and `<script>` closes
      the script unless it is declared a level object. */
  lemma ClassifyEndCases(name: String, isLevelObject: String -> bool)
    ensures ClassifyEnd(name, isLevelObject) == PropertyEnd <==> IsPropertyTag(name)
    ensures ClassifyEnd(name, isLevelObject) == ScriptEnd <==> name == "script" && !isLevelObject(name)
    ensures ClassifyEnd(name, isLevelObject) == ObjectEnd <==>
              isLevelObject(name) && !IsPropertyTag(name) && name != "information" && name != "settings" && name != "player"
  {
  }

  /* ---------------------------------------------------------------------
     <information>, <settings>, <player>
     --------------------------------------------------------------------- */

  /** `Parse_Tag_Information`'s engine version: versions below 3 are the
      old float versions (1.7 for 17) and are scaled by ten. */
  function EngineVersionOf(f: real): int
  {
    Truncate(if f < 3.0 then f * 10.0 else f)
  }

  /** Old float versions land in 0..29, a current version is its whole
      part, and only a negative version text gives a negative version. */
  lemma EngineVersionRanges(f: real)
    ensures 0.0 <= f < 3.0 ==> 0 <= EngineVersionOf(f) < 30 && EngineVersionOf(f) == (f * 10.0).Floor
    ensures f >= 3.0 ==> EngineVersionOf(f) == f.Floor && EngineVersionOf(f) >= 3
    ensures EngineVersionOf(f) < 0 <==> f <= -0.1
  {
  }

  /** `Parse_Tag_Settings`' text of the height limit: from engine 35 on y
      is measured from the top, so a height limit an older level gives is
      shifted up by the 600 pixel screen. This is the one property the
      migration rewrites. */
  function HeightLimitText(p: Attributes, engine: int, conv: FloatText): String
  {
    if engine < 35 && "cam_limit_h" in p then conv.fromFloat(conv.toFloat(p["cam_limit_h"]) - 600.0)
    else Get(p, "cam_limit_h")
  }

  /** The level settings `Parse_Tag_Settings` reads from the properties
      `p`, with `h` for the height limit's text. */
  function SettingsOf(p: Attributes, h: String, conv: FloatText): LevelSettings
  {
    LevelSettings(
      Get(p, "lvl_author"),
      Get(p, "lvl_version"),
      StringToInt(Get(p, "lvl_difficulty")),
      ReplaceAll(Get(p, "lvl_description"), LineBreakTag, "\n"),
      Get(p, "lvl_music"),
      LevelLandTypeId(Get(p, "lvl_land_type")),
      conv.toFloat(Get(p, "cam_fixed_hor_vel")),
      (conv.toFloat(Get(p, "cam_limit_x")), conv.toFloat(Get(p, "cam_limit_y")),
       conv.toFloat(Get(p, "cam_limit_w")), conv.toFloat(h)),
      StringToInt(Get(p, "unload_after_exit")) != 0)
  }

  /** `Parse_Tag_Settings`. */
  function SettingsFrom(p: Attributes, engine: int, conv: FloatText): LevelSettings
  {
    SettingsOf(p, HeightLimitText(p, engine, conv), conv)
  }

  /** The settings of an old level are those of a current one unless it
      gives a height limit. */
  lemma SettingsCurrentOrUnset(p: Attributes, engine: int, conv: FloatText)
    ensures engine >= 35 || "cam_limit_h" !in p ==> SettingsFrom(p, engine, conv) == SettingsFrom(p, 35, conv)
  {
  }

  /** An old level's given height limit is moved up by 600. */
  lemma SettingsHeightShifted(p: Attributes, engine: int, conv: FloatText)
    ensures engine < 35 && "cam_limit_h" in p ==>
              SettingsFrom(p, engine, conv).cameraLimits.3 == conv.toFloat(conv.fromFloat(conv.toFloat(p["cam_limit_h"]) - 600.0))
  {
  }

  /** Only the height limit depends on the engine version. */
  lemma SettingsOnlyHeightVaries(p: Attributes, engine: int, conv: FloatText)
    ensures SettingsFrom(p, engine, conv).(cameraLimits := (0.0, 0.0, 0.0, 0.0)) ==
            SettingsFrom(p, 35, conv).(cameraLimits := (0.0, 0.0, 0.0, 0.0))
  {
  }

  /** A description without line break tags is kept as it is. */
  lemma SettingsDescriptionKept(p: Attributes, engine: int, conv: FloatText)
    ensures (forall j :: !OccursAt(Get(p, "lvl_description"), LineBreakTag, j)) ==>
              SettingsFrom(p, engine, conv).description == Get(p, "lvl_description")
  {
    if forall j :: !OccursAt(Get(p, "lvl_description"), LineBreakTag, j) {
      ReplaceAllAbsent(Get(p, "lvl_description"), LineBreakTag, "\n");
    }
  }

  /** `Parse_Tag_Player`: the start position, the default unless given,
      moved by the offsets older versions had, and the direction, right
      unless the text names left. */
  function PlayerStartFrom(p: Attributes, engine: int, env: LoaderEnv): PlayerStart
  {
    var x := if "posx" in p then env.conv.toFloat(p["posx"]) else env.defaultX;
    var y0 := if "posy" in p then env.conv.toFloat(p["posy"]) else env.defaultY;
    var y1 := if engine < 35 then y0 - 600.0 else y0;
    var y := if engine <= 10 then y1 + 58.0 else if engine <= 20 then y1 - 48.0 else y1;
    var d := DirectionId(Get(p, "direction"));
    PlayerStart(x, y, if d != DirLeft && d != DirRight then DirRight else d)
  }

  /** The player always starts facing left or right, left exactly when the
      text says so, and the y offsets add up per version range. */
  lemma PlayerStartFacing(p: Attributes, engine: int, env: LoaderEnv)
    ensures var s := PlayerStartFrom(p, engine, env);
            && (s.direction == DirLeft || s.direction == DirRight)
            && (s.direction == DirLeft <==> DirectionId(Get(p, "direction")) == DirLeft)
    ensures var y := if "posy" in p then env.conv.toFloat(p["posy"]) else env.defaultY;
            var s := PlayerStartFrom(p, engine, env);
            && (engine >= 35 ==> s.y == y)
            && (21 <= engine < 35 ==> s.y == y - 600.0)
            && (11 <= engine <= 20 ==> s.y == y - 648.0)
            && (engine <= 10 ==> s.y == y - 542.0)
    ensures "posx" !in p ==> PlayerStartFrom(p, engine, env).x == env.defaultX
  {
  }

  /* ---------------------------------------------------------------------
     Level objects
     --------------------------------------------------------------------- */

  /** The kinds of actor a level object tag creates. */
  datatype ObjectKind = StaticActorKind | EnemyStopperKind | BonusBoxKind

  /** A level object as created: its kind, the migrated attributes it is
      constructed from and the offset the loader moves it by. */
  datatype LevelObject = LevelObject(kind: ObjectKind, attrs: Attributes, shift: (real, real))

  type Relocations = seq<(String, String)>

  function Froms(t: Relocations): set<String>
  {
    set i | 0 <= i < |t| :: t[i].0
  }

  function Tos(t: Relocations): set<String>
  {
    set i | 0 <= i < |t| :: t[i].1
  }

  /** A block of `relocate_image` calls on the `image` attribute, in
      order. */
  function Relocated(a: Attributes, t: Relocations): (r: Attributes)
    ensures r.Keys == a.Keys
    ensures forall k :: k in a && k != "image" ==> r[k] == a[k]
    decreases |t|
  {
    if t == [] then a
    else Relocated(RelocateImage(a, t[0].0, t[0].1, "image"), t[1..])
  }

  /** An image that is no source of the block is kept, and one that is
      ends as one of the block's targets. */
  lemma {:induction false} RelocatedImage(a: Attributes, t: Relocations)
    requires "image" in a
    ensures a["image"] !in Froms(t) ==> Relocated(a, t)["image"] == a["image"]
    ensures a["image"] in Froms(t) ==> Relocated(a, t)["image"] in Tos(t)
    decreases |t|
  {
    if t != [] {
      FromsCons(t);
      var b := RelocateImage(a, t[0].0, t[0].1, "image");
      RelocatedImage(b, t[1..]);
    }
  }

  lemma FromsCons(t: Relocations)
    requires t != []
    ensures Froms(t) == {t[0].0} + Froms(t[1..])
    ensures Tos(t) == {t[0].1} + Tos(t[1..])
  {
    forall x | x in Froms(t)
      ensures x in {t[0].0} + Froms(t[1..])
    {
      var i :| 0 <= i < |t| && t[i].0 == x;
      if i > 0 {
        assert t[1..][i - 1].0 == x;
      }
    }
    forall x | x in Froms(t[1..])
      ensures x in Froms(t)
    {
      var i :| 0 <= i < |t[1..]| && t[1..][i].0 == x;
      assert t[i + 1].0 == x;
    }
    forall x | x in Tos(t)
      ensures x in {t[0].1} + Tos(t[1..])
    {
      var i :| 0 <= i < |t| && t[i].1 == x;
      if i > 0 {
        assert t[1..][i - 1].1 == x;
      }
    }
    forall x | x in Tos(t[1..])
      ensures x in Tos(t)
    {
      var i :| 0 <= i < |t[1..]| && t[1..][i].1 == x;
      assert t[i + 1].1 == x;
    }
  }

  /** V1.4 and lower. */
  const Relocations25: Relocations := [
    ("game/box/stone8.png", "blocks/metal/stone_2_violet.png"),
    ("ground/jungle_1/tree_type_1.png", "ground/jungle_1/tree/1.png"),
    ("ground/jungle_1/tree_type_1_front.png", "ground/jungle_1/tree/1_front.png"),
    ("ground/jungle_1/tree_type_2.png", "ground/jungle_1/tree/2.png"),
    ("ground/yoshi_1/extra_1_blue.png", "ground/jungle_2/hedge/1_blue.png"),
    ("ground/yoshi_1/extra_1_green.png", "ground/jungle_2/hedge/1_green.png"),
    ("ground/yoshi_1/extra_1_red.png", "ground/jungle_2/hedge/1_red.png"),
    ("ground/yoshi_1/extra_1_yellow.png", "ground/jungle_2/hedge/1_yellow.png"),
    ("ground/yoshi_1/rope_1_leftright.png", "ground/jungle_2/rope_1_hor.png")]

  /** V1.5 and lower: pipe connections. */
  const Relocations28: Relocations := [
    ("blocks/pipe/connection_left_down.png", "blocks/pipe/connection/plastic_1/orange/right_up.png"),
    ("blocks/pipe/connection_left_up.png", "blocks/pipe/connection/plastic_1/orange/right_down.png"),
    ("blocks/pipe/connection_right_down.png", "blocks/pipe/connection/plastic_1/orange/left_up.png"),
    ("blocks/pipe/connection_right_up.png", "blocks/pipe/connection/plastic_1/orange/left_down.png"),
    ("blocks/pipe/metal_connector.png", "blocks/pipe/connection/metal_1/grey/middle.png")]

  /** V1.7 and lower: yoshi_1 hills become jungle_1 sliders. */
  const Relocations31: Relocations := [
    ("ground/yoshi_1/hill_up_1.png", "ground/jungle_1/slider/2_green_left.png"),
    ("ground/yoshi_1/hill_up_2.png", "ground/jungle_1/slider/2_blue_left.png"),
    ("ground/yoshi_1/hill_up_3.png", "ground/jungle_1/slider/2_brown_left.png")]

  /** V1.7 and lower: grey_1 sliders become green_1 brown sliders. */
  const Relocations32: Relocations := [
    ("slider/grey_1/slider_left.png", "ground/green_1/slider/1/brown/left.png"),
    ("slider/grey_1/slider_middle.png", "ground/green_1/slider/1/brown/middle.png"),
    ("slider/grey_1/slider_right.png", "ground/green_1/slider/1/brown/right.png")]

  /** V1.7.x and lower: green_1 ground becomes green_3 ground. */
  const Relocations34: Relocations := [
    ("ground/green_1/ground/left_up.png", "ground/green_3/ground/top/left.png"),
    ("ground/green_1/ground/left_down.png", "ground/green_3/ground/bottom/left.png"),
    ("ground/green_1/ground/right_up.png", "ground/green_3/ground/top/right.png"),
    ("ground/green_1/ground/right_down.png", "ground/green_3/ground/bottom/right.png"),
    ("ground/green_1/ground/up.png", "ground/green_3/ground/top/1.png"),
    ("ground/green_1/ground/down.png", "ground/green_3/ground/bottom/1.png"),
    ("ground/green_1/ground/right.png", "ground/green_3/ground/middle/right.png"),
    ("ground/green_1/ground/left.png", "ground/green_3/ground/middle/left.png"),
    ("ground/green_1/ground/middle.png", "ground/green_3/ground/middle/1.png")]

  /** V1.9.x and lower: the fire animation becomes particles. */
  const Relocations37: Relocations := [
    ("animation/fire_1/1.png", "animation/particles/fire_1.png"),
    ("animation/fire_1/2.png", "animation/particles/fire_2.png"),
    ("animation/fire_1/3.png", "animation/particles/fire_3.png"),
    ("animation/fire_1/4.png", "animation/particles/fire_4.png")]

  /** V2.0.0-beta6 and lower: green pipes become grey pipes. */
  const Relocations41: Relocations := [
    ("pipes/green/ver.png", "pipes/grey/ver.png"),
    ("pipes/green/hor.png", "pipes/grey/hor.png"),
    ("pipes/green/up.png", "pipes/grey/up.png"),
    ("pipes/green/left.png", "pipes/grey/left.png"),
    ("pipes/green/right.png", "pipes/grey/right.png"),
    ("pipes/green/down.png", "pipes/grey/down.png")]

  /** V2.0.0-beta6 and lower: `ver` and `hor` pipes get the suffix `_1`. */
  const Relocations42: Relocations := [
    ("pipes/blue/ver.png", "pipes/blue/ver_1.png"),
    ("pipes/blue/hor.png", "pipes/blue/hor_1.png"),
    ("pipes/grey/ver.png", "pipes/grey/ver_1.png"),
    ("pipes/grey/hor.png", "pipes/grey/hor_1.png"),
    ("pipes/orange/ver.png", "pipes/orange/ver_1.png"),
    ("pipes/orange/hor.png", "pipes/orange/hor_1.png"),
    ("pipes/yellow/ver.png", "pipes/yellow/ver_1.png"),
    ("pipes/yellow/hor.png", "pipes/yellow/hor_1.png")]

  /** V2.0.0-beta6 and lower: pipe ends get the suffix `_1`. */
  const Relocations43: Relocations := [
    ("pipes/blue/up.png", "pipes/blue/up_1.png"),
    ("pipes/blue/left.png", "pipes/blue/left_1.png"),
    ("pipes/blue/right.png", "pipes/blue/right_1.png"),
    ("pipes/blue/down.png", "pipes/blue/down_1.png"),
    ("pipes/grey/up.png", "pipes/grey/up_1.png"),
    ("pipes/grey/left.png", "pipes/grey/left_1.png"),
    ("pipes/grey/right.png", "pipes/grey/right_1.png"),
    ("pipes/grey/down.png", "pipes/grey/down_1.png"),
    ("pipes/orange/up.png", "pipes/orange/up_1.png"),
    ("pipes/orange/left.png", "pipes/orange/left_1.png"),
    ("pipes/orange/right.png", "pipes/orange/right_1.png"),
    ("pipes/orange/down.png", "pipes/orange/down_1.png"),
    ("pipes/red/up.png", "pipes/red/up_1.png"),
    ("pipes/red/left.png", "pipes/red/left_1.png"),
    ("pipes/red/right.png", "pipes/red/right_1.png"),
    ("pipes/red/down.png", "pipes/red/down_1.png"),
    ("pipes/yellow/up.png", "pipes/yellow/up_1.png"),
    ("pipes/yellow/left.png", "pipes/yellow/left_1.png"),
    ("pipes/yellow/right.png", "pipes/yellow/right_1.png"),
    ("pipes/yellow/down.png", "pipes/yellow/down_1.png")]

  /** V2.0.0-beta6 and lower: small green pipes become small grey pipes. */
  const Relocations44: Relocations := [
    ("pipes/green/small/up.png", "pipes/grey/small/up.png"),
    ("pipes/green/small/left.png", "pipes/grey/small/left.png"),
    ("pipes/green/small/right.png", "pipes/grey/small/right.png"),
    ("pipes/green/small/down.png", "pipes/grey/small/down.png"),
    ("pipes/green/small/ver.png", "pipes/grey/small/ver.png"),
    ("pipes/green/small/hor.png", "pipes/grey/small/hor.png")]

  /** V2.0.0-beta7 and lower: statue objects renamed. */
  const Relocations45: Relocations := [
    ("ground/castle_1/statue/objects/fireplant.png", "ground/castle_1/statue/objects/fireberry.png"),
    ("ground/castle_1/statue/objects/mushroom.png", "ground/castle_1/statue/objects/berry.png")]

  /** V2.0.0-beta7 and lower: the star became a lemon. */
  const Relocations46: Relocations := [
    ("game/items/star.png", "game/items/lemon_1.png")]

  /** A relocation block and the engine version from which on it no
      longer applies. */
  type MigrationStep = (int, Relocations)

  /** One block of `Create_Sprites_From_XML_Tag`, applied to levels older
      than its version. */
  function Step(a: Attributes, engine: int, s: MigrationStep): (r: Attributes)
    ensures r.Keys == a.Keys
    ensures forall k :: k in a && k != "image" ==> r[k] == a[k]
  {
    if engine < s.0 then Relocated(a, s.1) else a
  }

  /** The blocks `steps[from..]`, in order. */
  function Migrated(a: Attributes, engine: int, steps: seq<MigrationStep>, from: nat): (r: Attributes)
    ensures r.Keys == a.Keys
    ensures forall k :: k in a && k != "image" ==> r[k] == a[k]
    decreases |steps| - from
  {
    if from >= |steps| then a else Migrated(Step(a, engine, steps[from]), engine, steps, from + 1)
  }

  /** The blocks up to V1.7.x. */
  const EarlySpriteSteps: seq<MigrationStep> :=
    [(25, Relocations25), (28, Relocations28), (31, Relocations31), (32, Relocations32), (34, Relocations34)]

  /** The blocks from V1.9 on. */
  const LateSpriteSteps: seq<MigrationStep> :=
    [(37, Relocations37), (41, Relocations41), (42, Relocations42), (43, Relocations43),
     (44, Relocations44), (45, Relocations45), (46, Relocations46)]

  /** The migration of `Create_Sprites_From_XML_Tag`, in its order: the
      blocks `early`, the y shift of engine 35, the blocks `late`, and
      `type` "undefined" forced to "passive". It keeps a sprite's keys and
      all values but its image, its y position and its type, and
      "undefined" is the one type it changes. */
  function MigratedSprite(a: Attributes, engine: int, conv: FloatText,
                          early: seq<MigrationStep>, late: seq<MigrationStep>): (r: Attributes)
    ensures r.Keys == a.Keys
    ensures forall k :: k in a && k != "image" && k != "posy" && k != "type" ==> r[k] == a[k]
    ensures "type" in a ==> r["type"] == if a["type"] == "undefined" then "passive" else a["type"]
  {
    var a1 := Migrated(a, engine, early, 0);
    var a2 := if engine < 35 then ShiftUp(a1, "posy", conv) else a1;
    var a3 := Migrated(a2, engine, late, 0);
    if "type" in a3 && a3["type"] == "undefined" then a3["type" := "passive"] else a3
  }

  /** The sprite migration with the blocks of the source. */
  function SpriteAttributes(a: Attributes, engine: int, conv: FloatText): Attributes
  {
    MigratedSprite(a, engine, conv, EarlySpriteSteps, LateSpriteSteps)
  }

  /** An image that no applicable block starts from is kept. */
  lemma {:induction false} MigratedKeepsImage(a: Attributes, engine: int, steps: seq<MigrationStep>, from: nat)
    requires "image" in a
    requires forall i :: from <= i < |steps| && engine < steps[i].0 ==> a["image"] !in Froms(steps[i].1)
    ensures Migrated(a, engine, steps, from)["image"] == a["image"]
    decreases |steps| - from
  {
    if from < |steps| {
      if engine < steps[from].0 {
        RelocatedImage(a, steps[from].1);
      }
      MigratedKeepsImage(Step(a, engine, steps[from]), engine, steps, from + 1);
    }
  }

  /** A level at least as new as every block is not migrated. */
  lemma {:induction false} MigratedCurrent(a: Attributes, engine: int, steps: seq<MigrationStep>, from: nat)
    requires forall i :: from <= i < |steps| ==> steps[i].0 <= engine
    ensures Migrated(a, engine, steps, from) == a
    decreases |steps| - from
  {
    if from < |steps| {
      MigratedCurrent(a, engine, steps, from + 1);
    }
  }

  /** Current levels only get the type fix. */
  lemma CurrentSpriteOnlyTypeFixed(a: Attributes, engine: int, conv: FloatText)
    requires engine >= 46
    ensures SpriteAttributes(a, engine, conv) == if "type" in a && a["type"] == "undefined" then a["type" := "passive"] else a
  {
    MigratedCurrent(a, engine, EarlySpriteSteps, 0);
    var a1 := Migrated(a, engine, EarlySpriteSteps, 0);
    MigratedCurrent(a1, engine, LateSpriteSteps, 0);
  }

  /** Relocations compose across versions: an old green vertical pipe is
      first made grey, then renamed to `ver_1`. */
  lemma PipeRelocationsCompose(a: Attributes, engine: int, conv: FloatText)
    requires engine < 41 && "image" in a && a["image"] == "pipes/green/ver.png"
    ensures SpriteAttributes(a, engine, conv)["image"] == "pipes/grey/ver_1.png"
  {
    GreenPipeNotRelocatedEarly(a, engine);
    var a1 := Migrated(a, engine, EarlySpriteSteps, 0);
    var a2 := if engine < 35 then ShiftUp(a1, "posy", conv) else a1;
    PipeRelocationsLate(a2, engine);
    MigratedSpriteImage(a, engine, conv, EarlySpriteSteps, LateSpriteSteps);
  }

  /** The image a sprite ends with is the one the relocation blocks give. */
  lemma MigratedSpriteImage(a: Attributes, engine: int, conv: FloatText,
                            early: seq<MigrationStep>, late: seq<MigrationStep>)
    requires "image" in a
    ensures var a1 := Migrated(a, engine, early, 0);
            var a2 := if engine < 35 then ShiftUp(a1, "posy", conv) else a1;
            MigratedSprite(a, engine, conv, early, late)["image"] == Migrated(a2, engine, late, 0)["image"]
  {
  }

  lemma GreenPipeNotRelocatedEarly(a: Attributes, engine: int)
    requires "image" in a && a["image"] == "pipes/green/ver.png"
    ensures Migrated(a, engine, EarlySpriteSteps, 0)["image"] == "pipes/green/ver.png"
  {
    assert forall i :: 0 <= i < |EarlySpriteSteps| ==> "pipes/green/ver.png" !in Froms(EarlySpriteSteps[i].1);
    MigratedKeepsImage(a, engine, EarlySpriteSteps, 0);
  }

  lemma PipeRelocationsLate(a: Attributes, engine: int)
    requires engine < 41 && "image" in a && a["image"] == "pipes/green/ver.png"
    ensures Migrated(a, engine, LateSpriteSteps, 0)["image"] == "pipes/grey/ver_1.png"
  {
    var b1 := Step(a, engine, LateSpriteSteps[0]);
    GreenPipeNotFire(a, engine);
    var b2 := Step(b1, engine, LateSpriteSteps[1]);
    GreenPipeMadeGrey(b1, engine);
    var b3 := Step(b2, engine, LateSpriteSteps[2]);
    GreyPipeRenamed(b2, engine);
    GreyPipeNotRelocatedLate(b3, engine);
    MigratedUnfold(a, engine, LateSpriteSteps, 0);
    MigratedUnfold(b1, engine, LateSpriteSteps, 1);
    MigratedUnfold(b2, engine, LateSpriteSteps, 2);
  }

  lemma GreenPipeNotFire(a: Attributes, engine: int)
    requires "image" in a && a["image"] == "pipes/green/ver.png"
    ensures Step(a, engine, LateSpriteSteps[0])["image"] == "pipes/green/ver.png"
  {
    assert LateSpriteSteps[0] == (37, Relocations37);
    assert "pipes/green/ver.png" !in Froms(Relocations37);
    RelocatedImage(a, Relocations37);
  }

  lemma GreenPipeMadeGrey(a: Attributes, engine: int)
    requires engine < 41 && "image" in a && a["image"] == "pipes/green/ver.png"
    ensures Step(a, engine, LateSpriteSteps[1])["image"] == "pipes/grey/ver.png"
  {
    assert LateSpriteSteps[1] == (41, Relocations41);
    assert Relocations41[0] == ("pipes/green/ver.png", "pipes/grey/ver.png");
    assert forall j :: 0 < j < |Relocations41| ==> Relocations41[j].0 != "pipes/grey/ver.png";
    RelocatedOnce(a, Relocations41, 0);
  }

  lemma GreyPipeRenamed(a: Attributes, engine: int)
    requires engine < 41 && "image" in a && a["image"] == "pipes/grey/ver.png"
    ensures Step(a, engine, LateSpriteSteps[2])["image"] == "pipes/grey/ver_1.png"
  {
    assert LateSpriteSteps[2] == (42, Relocations42);
    assert Relocations42[2] == ("pipes/grey/ver.png", "pipes/grey/ver_1.png");
    assert forall j :: 0 <= j < 2 ==> Relocations42[j].0 != "pipes/grey/ver.png";
    assert forall j :: 2 < j < |Relocations42| ==> Relocations42[j].0 != "pipes/grey/ver_1.png";
    RelocatedOnce(a, Relocations42, 2);
  }

  lemma GreyPipeNotRelocatedLate(a: Attributes, engine: int)
    requires "image" in a && a["image"] == "pipes/grey/ver_1.png"
    ensures Migrated(a, engine, LateSpriteSteps, 3)["image"] == "pipes/grey/ver_1.png"
  {
    assert forall i :: 3 <= i < |LateSpriteSteps| ==> "pipes/grey/ver_1.png" !in Froms(LateSpriteSteps[i].1);
    MigratedKeepsImage(a, engine, LateSpriteSteps, 3);
  }

  lemma MigratedUnfold(a: Attributes, engine: int, steps: seq<MigrationStep>, from: nat)
    requires from < |steps|
    ensures Migrated(a, engine, steps, from) == Migrated(Step(a, engine, steps[from]), engine, steps, from + 1)
  {
  }












  /** When the image is the source of entry `i` and of no earlier entry,
      the block replaces it by that entry's target, provided no later
      entry starts from that target. */
  lemma {:induction false} RelocatedOnce(a: Attributes, t: Relocations, i: nat)
    requires i < |t| && "image" in a && a["image"] == t[i].0
    requires forall j :: 0 <= j < i ==> t[j].0 != t[i].0
    requires forall j :: i < j < |t| ==> t[j].0 != t[i].1
    ensures Relocated(a, t)["image"] == t[i].1
    decreases |t|
  {
    var b := RelocateImage(a, t[0].0, t[0].1, "image");
    if i == 0 {
      assert t[0].1 !in Froms(t[1..]);
      RelocatedImage(b, t[1..]);
    } else {
      assert b["image"] == a["image"];
      forall j | 0 <= j < i - 1
        ensures t[1..][j].0 != t[1..][i - 1].0
      {
        assert t[1..][j] == t[j + 1];
      }
      forall j | i - 1 < j < |t[1..]|
        ensures t[1..][j].0 != t[1..][i - 1].1
      {
        assert t[1..][j] == t[j + 1];
      }
      RelocatedOnce(b, t[1..], i - 1);
    }
  }

  /** The twenty-four pipe images whose positions V1.2 and lower got
      wrong: the upright ones were 6 pixels too far right, the lying ones
      6 pixels too low. */
  const UprightPipes: set<String> := {
    "pipes/green/up.png", "pipes/green/ver.png", "pipes/green/down.png",
    "pipes/blue/up.png", "pipes/blue/ver.png", "pipes/blue/down.png",
    "pipes/yellow/up.png", "pipes/yellow/ver.png", "pipes/yellow/down.png",
    "pipes/grey/up.png", "pipes/grey/ver.png", "pipes/grey/down.png"}
  const LyingPipes: set<String> := {
    "pipes/green/right.png", "pipes/green/hor.png", "pipes/green/left.png",
    "pipes/blue/right.png", "pipes/blue/hor.png", "pipes/blue/left.png",
    "pipes/yellow/right.png", "pipes/yellow/hor.png", "pipes/yellow/left.png",
    "pipes/grey/right.png", "pipes/grey/hor.png", "pipes/grey/left.png"}

  const GreenHillHead: String := "hills/green_1/head.png"
  const LightBlueHillHead: String := "hills/light_blue_1/head.png"
  const BrownSliderRight: String := "ground/green_1/slider/1/brown/right.png"

  /** Whether texture path `tex` is the game pixmap of one of `names`. */
  predicate IsPixmapOf(tex: String, names: set<String>, pixmap: String -> String)
  {
    exists n :: n in names && pixmap(n) == tex
  }

  /** The V1.2 pipe correction for a sprite whose texture is `tex`. */
  function PipeShift(tex: String, engine: int, pixmap: String -> String): (real, real)
  {
    if engine >= 22 then (0.0, 0.0)
    else if IsPixmapOf(tex, UprightPipes, pixmap) then (-6.0, 0.0)
    else if IsPixmapOf(tex, LyingPipes, pixmap) then (0.0, -6.0)
    else (0.0, 0.0)
  }

  /** The V1.2.x hill correction as written: the first comparison lacks its
      `== 0`, so it holds for every texture but the green hill's head. */
  function HillShiftAsWritten(tex: String, engine: int, pixmap: String -> String): real
  {
    if engine < 23 && (tex != pixmap(GreenHillHead) || tex == pixmap(LightBlueHillHead)) then -6.0 else 0.0
  }

  /** The V1.2.x hill correction as meant: the green and light blue hill
      heads move up by 6. */
  function HillShift(tex: String, engine: int, pixmap: String -> String): real
  {
    if engine < 23 && (tex == pixmap(GreenHillHead) || tex == pixmap(LightBlueHillHead)) then -6.0 else 0.0
  }

  /** The V1.7 slider correction: the right tile moves 18 to the right. */
  function SliderShift(tex: String, engine: int, pixmap: String -> String): real
  {
    if engine < 32 && tex == pixmap(BrownSliderRight) then 18.0 else 0.0
  }

  ghost predicate Injective(pixmap: String -> String)
  {
    forall x, y :: pixmap(x) == pixmap(y) ==> x == y
  }

  /** As written, every sprite of an old level is moved up except the green
      hill head, the one sprite meant to move; with a green ground tile for
      an example. */
  lemma HillShiftAsWrittenMovesOthers(engine: int, pixmap: String -> String, tex: String)
    requires engine < 23 && Injective(pixmap)
    ensures HillShiftAsWritten(tex, engine, pixmap) == 0.0 <==> tex == pixmap(GreenHillHead)
    ensures HillShiftAsWritten(pixmap("ground/green_3/ground/top/1.png"), engine, pixmap) == -6.0
    ensures HillShift(pixmap("ground/green_3/ground/top/1.png"), engine, pixmap) == 0.0
  {
    assert pixmap(GreenHillHead) != pixmap(LightBlueHillHead);
    assert pixmap("ground/green_3/ground/top/1.png") != pixmap(GreenHillHead);
    assert pixmap("ground/green_3/ground/top/1.png") != pixmap(LightBlueHillHead);
  }

  /** The corrected hill check moves exactly the two hill heads of old
      levels. */
  lemma HillShiftMovesHeads(engine: int, pixmap: String -> String, tex: String)
    ensures HillShift(tex, engine, pixmap) == -6.0 <==>
              engine < 23 && (tex == pixmap(GreenHillHead) || tex == pixmap(LightBlueHillHead))
    ensures HillShift(tex, engine, pixmap) != -6.0 ==> HillShift(tex, engine, pixmap) == 0.0
  {
  }

  /** The texture path a static actor built from `a` gets. */
  function TextureOf(a: Attributes, pixmap: String -> String): String
  {
    pixmap(Get(a, "image"))
  }

  function AddShift(s: (real, real), t: (real, real)): (real, real)
  {
    (s.0 + t.0, s.1 + t.1)
  }

  /** `Create_Sprites_From_XML_Tag` as written: the migrated sprite and the
      corrections, compared against its migrated texture. */
  function SpriteObjectAsWritten(a: Attributes, engine: int, env: LoaderEnv): LevelObject
  {
    var m := SpriteAttributes(a, engine, env.conv);
    var tex := TextureOf(m, env.pixmap);
    LevelObject(StaticActorKind, m,
      AddShift(PipeShift(tex, engine, env.pixmap),
               (SliderShift(tex, engine, env.pixmap), HillShiftAsWritten(tex, engine, env.pixmap))))
  }

  /** `Create_Sprites_From_XML_Tag` corrected: the hill check tests both
      heads, and the pipe check tests the image the level names, which the
      pipe relocations of the 2.0 betas have already renamed. */
  function SpriteObject(a: Attributes, engine: int, env: LoaderEnv): LevelObject
  {
    var m := SpriteAttributes(a, engine, env.conv);
    var tex := TextureOf(m, env.pixmap);
    LevelObject(StaticActorKind, m,
      AddShift(PipeShift(TextureOf(a, env.pixmap), engine, env.pixmap),
               (SliderShift(tex, engine, env.pixmap), HillShift(tex, engine, env.pixmap))))
  }

  /** As written, the V1.2 pipe correction misses the pipes it was
      written for: an upright green pipe of an old level reaches the
      comparison as `pipes/grey/ver_1.png` and is not moved, while the
      correction compares the image the level names and moves it 6 to the
      left. */
  lemma PipeShiftAsWrittenMissesPipe(a: Attributes, engine: int, env: LoaderEnv)
    requires engine < 22 && Injective(env.pixmap) && "image" in a && a["image"] == "pipes/green/ver.png"
    ensures PipeShift(TextureOf(SpriteAttributes(a, engine, env.conv), env.pixmap), engine, env.pixmap) == (0.0, 0.0)
    ensures PipeShift(TextureOf(a, env.pixmap), engine, env.pixmap) == (-6.0, 0.0)
  {
    PipeRelocationsCompose(a, engine, env.conv);
    GreyVer1NoOldPipe();
    NotPixmapOf("pipes/grey/ver_1.png", UprightPipes, env.pixmap);
    NotPixmapOf("pipes/grey/ver_1.png", LyingPipes, env.pixmap);
    assert IsPixmapOf(TextureOf(a, env.pixmap), UprightPipes, env.pixmap);
  }

  /** For an injective pixmap, only the names' own textures are theirs. */
  lemma NotPixmapOf(x: String, names: set<String>, pixmap: String -> String)
    requires Injective(pixmap) && x !in names
    ensures !IsPixmapOf(pixmap(x), names, pixmap)
  {
  }

  lemma GroundTileNoPipe()
    ensures "ground/green_3/ground/top/1.png" !in UprightPipes
    ensures "ground/green_3/ground/top/1.png" !in LyingPipes
  {
  }

  lemma GreyVer1NoOldPipe()
    ensures "pipes/grey/ver_1.png" !in UprightPipes && "pipes/grey/ver_1.png" !in LyingPipes
  {
  }

  /** Corrected, an upright pipe of a V1.2 level moves 6 to the left and a
      lying one 6 up, before the other corrections add theirs. */
  lemma OldPipeShifted(a: Attributes, engine: int, env: LoaderEnv)
    requires engine < 22 && Injective(env.pixmap) && "image" in a && a["image"] in UprightPipes + LyingPipes
    ensures var o := SpriteObject(a, engine, env);
            var tex := TextureOf(o.attrs, env.pixmap);
            o.shift == AddShift(if a["image"] in UprightPipes then (-6.0, 0.0) else (0.0, -6.0),
                                (SliderShift(tex, engine, env.pixmap), HillShift(tex, engine, env.pixmap)))
  {
    var tex := TextureOf(a, env.pixmap);
    if a["image"] in UprightPipes {
      assert IsPixmapOf(tex, UprightPipes, env.pixmap);
    } else {
      assert IsPixmapOf(tex, LyingPipes, env.pixmap);
    }
  }

  /** Sprites of levels from engine version 23 on get no pipe or hill
      correction, so the loader as written and corrected create the same
      sprite for them. */
  lemma SpriteObjectsAgreeOnNewLevels(a: Attributes, engine: int, env: LoaderEnv)
    requires engine >= 23
    ensures SpriteObjectAsWritten(a, engine, env) == SpriteObject(a, engine, env)
    ensures var o := SpriteObjectAsWritten(a, engine, env);
      o.shift == (SliderShift(TextureOf(o.attrs, env.pixmap), engine, env.pixmap), 0.0)
  {
    var m := SpriteAttributes(a, engine, env.conv);
    var tex := TextureOf(m, env.pixmap);
    NoOldCorrections(tex, TextureOf(a, env.pixmap), engine, env.pixmap);
  }

  lemma NoOldCorrections(tex: String, named: String, engine: int, pixmap: String -> String)
    requires engine >= 23
    ensures PipeShift(tex, engine, pixmap) == PipeShift(named, engine, pixmap) == (0.0, 0.0)
    ensures HillShiftAsWritten(tex, engine, pixmap) == HillShift(tex, engine, pixmap) == 0.0
  {
  }

  /** As written, a green ground tile of an old level (one that no sprite
      migration renames) is moved up by 6; corrected, it stays. */
  lemma SpriteObjectAsWrittenMovesGround(a: Attributes, engine: int, env: LoaderEnv)
    requires engine < 22 && Injective(env.pixmap)
    requires TextureOf(SpriteAttributes(a, engine, env.conv), env.pixmap) == env.pixmap("ground/green_3/ground/top/1.png")
    requires TextureOf(a, env.pixmap) == env.pixmap("ground/green_3/ground/top/1.png")
    ensures SpriteObjectAsWritten(a, engine, env).shift == (0.0, -6.0)
    ensures SpriteObject(a, engine, env).shift == (0.0, 0.0)
  {
    GroundTileShifts(TextureOf(SpriteAttributes(a, engine, env.conv), env.pixmap), engine, env.pixmap);
  }

  lemma GroundTileShifts(tex: String, engine: int, pixmap: String -> String)
    requires engine < 22 && Injective(pixmap) && tex == pixmap("ground/green_3/ground/top/1.png")
    ensures PipeShift(tex, engine, pixmap) == (0.0, 0.0) && SliderShift(tex, engine, pixmap) == 0.0
    ensures HillShiftAsWritten(tex, engine, pixmap) == -6.0 && HillShift(tex, engine, pixmap) == 0.0
  {
    var g := "ground/green_3/ground/top/1.png";
    HillShiftAsWrittenMovesOthers(engine, pixmap, tex);
    GroundTileNoPipe();
    NotPixmapOf(g, UprightPipes, pixmap);
    NotPixmapOf(g, LyingPipes, pixmap);
    GroundTileNotSlider(pixmap);
  }

  lemma GroundTileNotSlider(pixmap: String -> String)
    requires Injective(pixmap)
    ensures pixmap("ground/green_3/ground/top/1.png") != pixmap(BrownSliderRight)
  {
    assert "ground/green_3/ground/top/1.png"[13] != BrownSliderRight[13];
  }

  /** `Create_Enemy_Stoppers_From_XML_Tag`. */
  function EnemyStopperObject(a: Attributes, engine: int, conv: FloatText): LevelObject
  {
    LevelObject(EnemyStopperKind, if engine < 35 then ShiftUp(a, "posy", conv) else a, (0.0, 0.0))
  }

  /** `int_to_string(TYPE_GOLDPIECE)` */
  const GoldpieceItem: String := "8"

  /** `Create_Boxes_From_XML_Tag`: a bonus box, an old gold box turned into
      a bonus box with a gold piece, an old invisible box turned into an
      empty invisible bonus box, or nothing for another type. */
  function BoxObjects(a: Attributes, engine: int, conv: FloatText): seq<LevelObject>
  {
    var s := if engine < 35 then ShiftUp(a, "posy", conv) else a;
    var t := Get(s, "type");
    if t == "bonus" then [LevelObject(BonusBoxKind, s, (0.0, 0.0))]
    else if t == "gold" then
      var b := s["type" := "bonus"]["animation" := "Default"]["item" := GoldpieceItem];
      var c := if "color" in s then (b["gold_color" := s["color"]] - {"color"}) else b;
      [LevelObject(BonusBoxKind, c, (0.0, 0.0))]
    else if t == "invisible" then
      [LevelObject(BonusBoxKind, s["type" := "bonus"]["item" := "0"]["invisible" := "1"], (0.0, 0.0))]
    else []
  }

  /** A box tag gives one bonus box exactly for the three known types; the
      old types become bonus boxes with what they used to mean. */
  lemma BoxTypes(a: Attributes, engine: int, conv: FloatText)
    ensures var r := BoxObjects(a, engine, conv);
            && |r| <= 1
            && (r != [] <==> Get(a, "type") in {"bonus", "gold", "invisible"})
            && (r != [] ==> r[0].kind == BonusBoxKind && r[0].attrs["type"] == "bonus" && r[0].shift == (0.0, 0.0))
    ensures Get(a, "type") == "gold" ==>
              var c := BoxObjects(a, engine, conv)[0].attrs;
              && c["animation"] == "Default" && c["item"] == GoldpieceItem
              && "color" !in c
              && ("color" in a ==> c["gold_color"] == a["color"])
              && ("color" !in a ==> ("gold_color" in c <==> "gold_color" in a))
    ensures Get(a, "type") == "invisible" ==>
              var c := BoxObjects(a, engine, conv)[0].attrs;
              c["item"] == "0" && c["invisible"] == "1"
  {
  }

  /** `Create_Level_Objects_From_XML_Tag`: sprites, enemy stoppers and
      boxes; any other tag creates nothing. */
  function CreateLevelObjects(name: String, a: Attributes, engine: int, env: LoaderEnv): seq<LevelObject>
  {
    if name == "sprite" then [SpriteObjectAsWritten(a, engine, env)]
    else if name == "enemystopper" then [EnemyStopperObject(a, engine, env.conv)]
    else if name == "box" then BoxObjects(a, engine, env.conv)
    else []
  }

  /** A tag creates at most one object, sprites and enemy stoppers always
      one. */
  lemma AtMostOneObject(name: String, a: Attributes, engine: int, env: LoaderEnv)
    ensures |CreateLevelObjects(name, a, engine, env)| <= 1
    ensures name == "sprite" || name == "enemystopper" ==> |CreateLevelObjects(name, a, engine, env)| == 1
    ensures CreateLevelObjects(name, a, engine, env) != [] ==> name in {"sprite", "enemystopper", "box"}
  {
    if name == "box" {
      BoxTypes(a, engine, env.conv);
    }
  }

  const ULongModulus: int := 0x1_0000_0000_0000_0000

  /** The UID of a level object tag: `string_to_int` passed as an
      `unsigned long`. */
  function UidOf(p: Attributes): (r: nat)
    ensures r < ULongModulus
    ensures 0 <= StringToInt(Get(p, "uid")) ==> r == StringToInt(Get(p, "uid"))
  {
    StringToInt(Get(p, "uid")) % ULongModulus
  }

  /* ---------------------------------------------------------------------
     The loader
     --------------------------------------------------------------------- */

  class LevelLoader {
    /** `mp_level`: null until the document starts */
    var level: Level?
    /** `m_levelfile` */
    var levelFile: String
    /** `m_in_script_tag` */
    var inScriptTag: bool
    /** `m_current_properties` */
    var currentProperties: Attributes

    constructor ()
      ensures level == null && currentProperties == map[] && levelFile == []
    {
      level := null;
      levelFile := [];
      inScriptTag := false;
      currentProperties := map[];
    }

    /** `parse_file`: remembers the file; the parse that then drives the
        callbacks below is not part of this model. */
    method ParseFile(filename: String)
      modifies this`levelFile
      ensures levelFile == filename
    {
      levelFile := filename;
    }

    /** `on_start_document`: a restarted parse fails (the source throws);
        the first start creates an empty level outside any script. */
    method StartDocument() returns (ok: bool)
      modifies this`level, this`inScriptTag
      ensures ok <==> old(level) == null
      ensures !ok ==> level == old(level) && inScriptTag == old(inScriptTag)
      ensures ok ==> fresh(level) && level.actors == [] && level.Valid() && !inScriptTag
                     && level.engineVersion == NewLevelEngineVersion && level.script == []
    {
      if level != null {
        return false;
      }
      level := new Level();
      inScriptTag := false;
      ok := true;
    }

    /** `on_end_document`: the level learns its file, and a negative
        engine version becomes 0. */
    method EndDocument()
      requires level != null
      modifies level`levelFile, level`engineVersion
      ensures level.levelFile == levelFile
      ensures level.engineVersion == if old(level.engineVersion) < 0 then 0 else old(level.engineVersion)
      ensures level.engineVersion >= 0
    {
      level.levelFile := levelFile;
      if level.engineVersion < 0 {
        level.engineVersion := 0;
      }
    }

    /** `on_start_element`: a `<property>` adds its last `name` and `value`
        attributes to the collected properties (unlike the other loaders,
        not the `Name` and `Value` spellings), `<script>` opens the
        script. */
    method StartElement(name: String, attrs: seq<(String, String)>)
      modifies this`currentProperties, this`inScriptTag
      ensures IsPropertyTag(name) ==>
                currentProperties == old(currentProperties)[LastAttr(attrs, true, false) := LastAttr(attrs, false, false)]
      ensures !IsPropertyTag(name) ==> currentProperties == old(currentProperties)
      ensures inScriptTag == (if !IsPropertyTag(name) && name == "script" then true else old(inScriptTag))
    {
      if IsPropertyTag(name) {
        var key, value := ScanAttributes(attrs, false);
        currentProperties := currentProperties[key := value];
      } else if name == "script" {
        inScriptTag := true;
      }
    }

    /** `on_characters`: text counts towards the script only inside
        `<script>`. */
    method Characters(text: String)
      requires level != null
      modifies level`script
      ensures level.script == old(level.script) + (if inScriptTag then text else [])
    {
      if inScriptTag {
        level.script := level.script + text;
      }
    }

    /** `Parse_Tag_Information`. */
    method ParseTagInformation(p: Attributes, conv: FloatText)
      requires level != null
      modifies level`engineVersion, level`lastSaved
      ensures level.engineVersion == EngineVersionOf(conv.toFloat(Get(p, "engine_version")))
      ensures level.lastSaved == StringToTime(Get(p, "save_time"))
    {
      var f := conv.toFloat(Get(p, "engine_version"));
      if f < 3.0 {
        f := f * 10.0;
      }
      level.engineVersion := Truncate(f);
      level.lastSaved := StringToTime(Get(p, "save_time"));
    }

    /** `Parse_Tag_Settings`; the height limit is rewritten first, as the
        source rewrites that property before the fields are read. */
    method ParseTagSettings(p: Attributes, conv: FloatText)
      requires level != null
      modifies level`settings
      ensures level.settings == SettingsFrom(p, old(level.engineVersion), conv)
    {
      var h := Get(p, "cam_limit_h");
      if level.engineVersion < 35 && "cam_limit_h" in p {
        h := conv.fromFloat(conv.toFloat(p["cam_limit_h"]) - 600.0);
      }
      assert h == HeightLimitText(p, level.engineVersion, conv);
      var description := XmlStringToString(Get(p, "lvl_description"));
      level.settings := LevelSettings(
        Get(p, "lvl_author"), Get(p, "lvl_version"), StringToInt(Get(p, "lvl_difficulty")),
        description, Get(p, "lvl_music"), LevelLandTypeId(Get(p, "lvl_land_type")),
        conv.toFloat(Get(p, "cam_fixed_hor_vel")),
        (conv.toFloat(Get(p, "cam_limit_x")), conv.toFloat(Get(p, "cam_limit_y")),
         conv.toFloat(Get(p, "cam_limit_w")), conv.toFloat(h)),
        StringToInt(Get(p, "unload_after_exit")) != 0);
    }

    /** `Parse_Tag_Player`, without the player it adds. */
    method ParseTagPlayer(p: Attributes, env: LoaderEnv)
      requires level != null
      modifies level`playerStart
      ensures level.playerStart == PlayerStartFrom(p, level.engineVersion, env)
    {
      var x := env.defaultX;
      var y := env.defaultY;
      if "posx" in p {
        x := env.conv.toFloat(p["posx"]);
      }
      if "posy" in p {
        y := env.conv.toFloat(p["posy"]);
      }
      if level.engineVersion < 35 {
        y := y - 600.0;
      }
      if level.engineVersion <= 10 {
        y := y + 58.0;
      } else if level.engineVersion <= 20 {
        y := y - 48.0;
      }
      var d := DirectionId(Get(p, "direction"));
      if d != DirLeft && d != DirRight {
        d := DirRight;
      }
      level.playerStart := PlayerStart(x, y, d);
    }

    /** `Parse_Level_Object_Tag`: the objects the tag creates become
        actors of the level; the first one takes the tag's `uid` when it
        has one. */
    method ParseLevelObjectTag(name: String, p: Attributes, env: LoaderEnv) returns (added: seq<Actor>)
      requires level != null && level.Valid()
      modifies level`actors, level`lastMaxUid
      ensures level.Valid()
      ensures var objs := CreateLevelObjects(name, p, old(level.engineVersion), env);
              && |added| == |objs|
              && |level.actors| == |old(level.actors)| + |objs|
              && forall i :: 0 <= i < |added| ==> BuiltFrom(added[i], objs[i], env)
      ensures forall i :: 0 <= i < |added| ==> fresh(added[i]) && added[i].level == level && added[i] in level.actors
      ensures forall a :: a in old(level.actors) ==> a in level.actors
      ensures old(level.ZSorted(env.depth)) ==> level.ZSorted(env.depth)
      ensures |added| > 0 && "uid" in p && UidOf(p) != 0 ==> added[0].uid == UidOf(p)
      ensures forall i :: 0 <= i < |added| && (i > 0 || "uid" !in p || UidOf(p) == 0) ==>
                added[i].uid > old(level.lastMaxUid)
    {
      var objs := CreateLevelObjects(name, p, level.engineVersion, env);
      added := AddObjects(objs, if "uid" in p then UidOf(p) else 0, env);
    }

    /** The loop of `Parse_Level_Object_Tag`: each object becomes an actor
        of the level, in depth order; the first takes `firstUid` unless
        that is 0, the others the next free UIDs. */
    method AddObjects(objs: seq<LevelObject>, firstUid: nat, env: LoaderEnv) returns (added: seq<Actor>)
      requires level != null && level.Valid()
      modifies level`actors, level`lastMaxUid
      ensures level.Valid()
      ensures |added| == |objs| && |level.actors| == |old(level.actors)| + |objs|
      ensures forall i :: 0 <= i < |added| ==> BuiltFrom(added[i], objs[i], env)
      ensures forall i :: 0 <= i < |added| ==> fresh(added[i]) && added[i] in level.actors
      ensures forall a :: a in old(level.actors) ==> a in level.actors
      ensures old(level.ZSorted(env.depth)) ==> level.ZSorted(env.depth)
      ensures |added| > 0 && firstUid != 0 ==> added[0].uid == firstUid
      ensures forall i :: 0 <= i < |added| && (i > 0 || firstUid == 0) ==> added[i].uid > old(level.lastMaxUid)
    {
      added := [];
      var i := 0;
      while i < |objs|
        invariant 0 <= i <= |objs| && |added| == i
        invariant level.Valid()
        invariant |level.actors| == |old(level.actors)| + i
        invariant level.lastMaxUid >= old(level.lastMaxUid)
        invariant AddedAsBuilt(added, objs, env, firstUid, old(level.lastMaxUid))
        invariant forall j :: 0 <= j < i ==> fresh(added[j]) && added[j] in level.actors
        invariant forall a :: a in old(level.actors) ==> a in level.actors
        invariant old(level.ZSorted(env.depth)) ==> level.ZSorted(env.depth)
      {
        ghost var before := added;
        added := AddObject(objs, i, added, if i == 0 then firstUid else 0, env);
        AddedExtend(before, added[i], objs, env, firstUid, old(level.lastMaxUid));
        i := i + 1;
      }
    }

    /** One turn of the loop of `Parse_Level_Object_Tag`: object `i`
        becomes an actor of the level. */
    method AddObject(objs: seq<LevelObject>, i: nat, added: seq<Actor>, uid: nat, env: LoaderEnv)
      returns (added': seq<Actor>)
      requires i < |objs| && |added| == i && level != null && level.Valid()
      modifies level`actors, level`lastMaxUid
      ensures level.Valid() && |added'| == i + 1 && added' == added + [added'[i]]
      ensures |level.actors| == |old(level.actors)| + 1 && level.lastMaxUid >= old(level.lastMaxUid)
      ensures BuiltFrom(added'[i], objs[i], env)
      ensures fresh(added'[i]) && added'[i] in level.actors
      ensures forall a :: a in old(level.actors) ==> a in level.actors
      ensures old(level.ZSorted(env.depth)) ==> level.ZSorted(env.depth)
      ensures uid != 0 ==> added'[i].uid == uid
      ensures uid == 0 ==> added'[i].uid > old(level.lastMaxUid)
    {
      var actor := NewActor(objs[i], env);
      level.AddActor(actor, uid, env.depth);
      added' := added + [actor];
    }

    /** `on_end_element`: the closing tag takes effect with the collected
        properties, which are then cleared unless it closed a property. */
    method EndElement(name: String, env: LoaderEnv) returns (added: seq<Actor>)
      requires level != null && level.Valid()
      modifies this`currentProperties, this`inScriptTag
      modifies level`engineVersion, level`lastSaved, level`settings, level`playerStart, level`actors, level`lastMaxUid
      ensures level == old(level) && level.Valid()
      ensures var t := ClassifyEnd(name, env.isLevelObject);
              && currentProperties == (if t == PropertyEnd then old(currentProperties) else map[])
              && inScriptTag == (if t == ScriptEnd then false else old(inScriptTag))
      ensures HeaderOf(level) == HeaderAfter(ClassifyEnd(name, env.isLevelObject), old(currentProperties), old(HeaderOf(level)), env)
      ensures ClassifyEnd(name, env.isLevelObject) != ObjectEnd ==>
                added == [] && level.actors == old(level.actors) && level.lastMaxUid == old(level.lastMaxUid)
      ensures |level.actors| == |old(level.actors)| + |added|
      ensures forall i :: 0 <= i < |added| ==> fresh(added[i]) && added[i] in level.actors
      ensures ClassifyEnd(name, env.isLevelObject) == ObjectEnd ==>
                (old(level.ZSorted(env.depth)) ==> level.ZSorted(env.depth))
    {
      var t := ClassifyEnd(name, env.isLevelObject);
      added := [];
      if t == PropertyEnd {
        return;
      }
      var p := currentProperties;
      currentProperties := map[];
      if t == ScriptEnd {
        inScriptTag := false;
      }
      if t == ObjectEnd {
        added := ObjectTagEnd(name, p, env);
      } else {
        ParseHeaderTag(t, p, env);
      }
    }

    /** `Parse_Level_Object_Tag` as `on_end_element` relies on it: the
        level stays valid and in depth order and gains the fresh actors
        returned. */
    method ObjectTagEnd(name: String, p: Attributes, env: LoaderEnv) returns (added: seq<Actor>)
      requires level != null && level.Valid()
      modifies level`actors, level`lastMaxUid
      ensures level.Valid()
      ensures |level.actors| == |old(level.actors)| + |added|
      ensures forall i :: 0 <= i < |added| ==> fresh(added[i]) && added[i] in level.actors
      ensures old(level.ZSorted(env.depth)) ==> level.ZSorted(env.depth)
    {
      added := ParseLevelObjectTag(name, p, env);
    }

    /** The closing tags of `on_end_element` that set the level's
        information, settings or player start. */
    method ParseHeaderTag(t: EndTag, p: Attributes, env: LoaderEnv)
      requires level != null
      modifies level`engineVersion, level`lastSaved, level`settings, level`playerStart
      ensures HeaderOf(level) == HeaderAfter(t, p, old(HeaderOf(level)), env)
    {
      if t == InformationEnd {
        ParseTagInformation(p, env.conv);
      } else if t == SettingsEnd {
        ParseTagSettings(p, env.conv);
      } else if t == PlayerEnd {
        ParseTagPlayer(p, env);
      }
    }
  }

  /** The fields of a level's header that closing tags set. */
  datatype Header = Header(engineVersion: int, lastSaved: int, settings: LevelSettings, playerStart: PlayerStart)

  function HeaderOf(l: Level): Header
    reads l`engineVersion, l`lastSaved, l`settings, l`playerStart
  {
    Header(l.engineVersion, l.lastSaved, l.settings, l.playerStart)
  }

  /** The header after closing tag `t` with properties `p`: `<information>`
      sets the engine version and save time, `<settings>` the settings and
      `<player>` the start, the latter two read with the engine version
      the header had; every other tag leaves it alone. */
  function HeaderAfter(t: EndTag, p: Attributes, h: Header, env: LoaderEnv): (r: Header)
    ensures t != InformationEnd ==> r.engineVersion == h.engineVersion && r.lastSaved == h.lastSaved
    ensures t != SettingsEnd ==> r.settings == h.settings
    ensures t != PlayerEnd ==> r.playerStart == h.playerStart
  {
    match t
    case InformationEnd =>
      h.(engineVersion := EngineVersionOf(env.conv.toFloat(Get(p, "engine_version"))),
         lastSaved := StringToTime(Get(p, "save_time")))
    case SettingsEnd => h.(settings := SettingsFrom(p, h.engineVersion, env.conv))
    case PlayerEnd => h.(playerStart := PlayerStartFrom(p, h.engineVersion, env))
    case _ => h
  }

  /** The actors `added` for the first objects of `objs` are built from
      them; the first takes `firstUid` unless that is 0, the others UIDs
      above `mark`. */
  ghost predicate AddedAsBuilt(added: seq<Actor>, objs: seq<LevelObject>, env: LoaderEnv, firstUid: nat, mark: int)
    reads added`pos, added`coltype, added`uid
  {
    && |added| <= |objs|
    && (forall j :: 0 <= j < |added| ==> BuiltFrom(added[j], objs[j], env))
    && (|added| > 0 && firstUid != 0 ==> added[0].uid == firstUid)
    && (forall j :: 0 <= j < |added| && (j > 0 || firstUid == 0) ==> added[j].uid > mark)
  }

  lemma AddedExtend(added: seq<Actor>, a: Actor, objs: seq<LevelObject>, env: LoaderEnv, firstUid: nat, mark: int)
    requires AddedAsBuilt(added, objs, env, firstUid, mark) && |added| < |objs|
    requires BuiltFrom(a, objs[|added|], env)
    requires |added| == 0 && firstUid != 0 ==> a.uid == firstUid
    requires |added| > 0 || firstUid == 0 ==> a.uid > mark
    ensures AddedAsBuilt(added + [a], objs, env, firstUid, mark)
  {
  }

  /** Whether `actor` stands where object `o` says, moved by its
      correction, and has its collision type. */
  ghost predicate BuiltFrom(actor: Actor, o: LevelObject, env: LoaderEnv)
    reads actor`pos, actor`coltype
  {
    && actor.pos == AddShift((env.conv.toFloat(Get(o.attrs, "posx")), env.conv.toFloat(Get(o.attrs, "posy"))), o.shift)
    && actor.coltype == env.collisionTypeId(Get(o.attrs, "type"))
  }

  /** The actor for a created object: built from its attributes, then
      moved by the object's correction. */
  method NewActor(o: LevelObject, env: LoaderEnv) returns (actor: Actor)
    ensures fresh(actor) && actor.level == null
    ensures BuiltFrom(actor, o, env)
    ensures actor.startPos == actor.pos
  {
    actor := new Actor.FromAttributes(o.attrs, env.conv.toFloat, env.collisionTypeId);
    actor.Shift(o.shift.0, o.shift.1);
  }
}
