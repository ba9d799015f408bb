/** A level background (tsc/src/level/level_background.cpp): a vertical or
    horizontal two-colour gradient, or an image tiled along the top, the
    bottom or the whole screen that scrolls with the camera and may drift at
    a constant velocity. Saving writes the fields of the background's kind
    and nothing for a disabled one; loading reads back exactly those
    fields. */
module LevelBackground {
  import opened Common
  import opened PropertyHelper
  import opened XmlAttributes

  /** BackgroundType. `static_cast<BackgroundType>` keeps a number that
      names none of the six values, so such a number is a type of its own. */
  datatype BackgroundType =
    | BgNone | BgImgTop | BgImgBottom | BgImgAll | BgGrVer | BgGrHor
    | BgOther(code: int)

  /** The enumerators' numbers. */
  function TypeCode(t: BackgroundType): int
  {
    match t
    case BgNone => 0
    case BgImgTop => 1
    case BgImgAll => 2
    case BgImgBottom => 3
    case BgGrVer => 103
    case BgGrHor => 104
    case BgOther(c) => c
  }

  /** `static_cast<BackgroundType>(c)`. */
  function TypeOfCode(c: int): (t: BackgroundType)
  {
    if c == 0 then BgNone
    else if c == 1 then BgImgTop
    else if c == 2 then BgImgAll
    else if c == 3 then BgImgBottom
    else if c == 103 then BgGrVer
    else if c == 104 then BgGrHor
    else BgOther(c)
  }

  /** A type as a cast can produce it: `BgOther` only for a number that
      names no enumerator. */
  predicate WellFormed(t: BackgroundType)
  {
    t.BgOther? ==> t.code !in {0, 1, 2, 3, 103, 104}
  }

  /** The cast keeps every number. */
  lemma CodeOfTypeOfCode(c: int)
    ensures TypeCode(TypeOfCode(c)) == c
    ensures WellFormed(TypeOfCode(c))
  {
  }

  /** Every well-formed type is the cast of its own number. */
  lemma TypeOfCodeOfType(t: BackgroundType)
    requires WellFormed(t)
    ensures TypeOfCode(TypeCode(t)) == t
  {
  }

  predicate IsGradient(t: BackgroundType) { t == BgGrVer || t == BgGrHor }

  predicate IsImage(t: BackgroundType) { t == BgImgTop || t == BgImgBottom || t == BgImgAll }

  /** `Get_Type_Name(type)`. */
  function TypeName(t: BackgroundType): String
  {
    match t
    case BgNone => "Disabled"
    case BgImgTop => "Top"
    case BgImgBottom => "Bottom"
    case BgImgAll => "All"
    case BgGrVer => "Gradient Vertical"
    case BgGrHor => "Gradient Horizontal"
    case BgOther(_) => "Unknown"
  }

  /** `Set_Type(name)` on a background of type `current`: an unknown name
      leaves the type as it was. */
  function TypeFromName(name: String, current: BackgroundType): BackgroundType
  {
    if name == "Disabled" then BgNone
    else if name == "Top" then BgImgTop
    else if name == "Bottom" then BgImgBottom
    else if name == "All" then BgImgAll
    else if name == "Gradient Vertical" then BgGrVer
    else if name == "Gradient Horizontal" then BgGrHor
    else current
  }

  /** Setting a type by its name gives back that type, whatever the
      background had before. */
  lemma TypeNameRoundTrip(t: BackgroundType, current: BackgroundType)
    requires !t.BgOther?
    ensures TypeFromName(TypeName(t), current) == t
  {
  }

  /** A name that is no type's name changes nothing; "Unknown", the name of
      every other number, is one of them. */
  lemma UnknownNameKeepsType(name: String, current: BackgroundType)
    requires forall t: BackgroundType :: !t.BgOther? ==> TypeName(t) != name
    ensures TypeFromName(name, current) == current
  {
    assert TypeName(BgNone) != name && TypeName(BgImgTop) != name && TypeName(BgImgBottom) != name;
    assert TypeName(BgImgAll) != name && TypeName(BgGrVer) != name && TypeName(BgGrHor) != name;
  }

  /** An 8-bit colour. */
  datatype Rgb = Rgb(red: int, green: int, blue: int)

  predicate IsByteColor(c: Rgb)
  {
    0 <= c.red < 256 && 0 <= c.green < 256 && 0 <= c.blue < 256
  }

  /** The fields of a background. */
  datatype BackgroundState = BackgroundState(
    kind: BackgroundType,
    pos: (real, real),
    startPos: (real, real),
    posZ: real,
    color1: Rgb,
    color2: Rgb,
    image: String,
    speed: (real, real),
    constVel: (real, real))

  /** `cBackground::Init`. */
  const Initial: BackgroundState :=
    BackgroundState(BgNone, (0.0, 0.0), (0.0, 0.0), 0.00011, Rgb(0, 0, 0), Rgb(0, 0, 0), [], (0.5, 0.5), (0.0, 0.0))

  /** What the background needs from outside: `string_to_float` and
      `float_to_string`, and the package manager's relative pixmap path. */
  datatype BackgroundEnv = BackgroundEnv(conv: FloatText, relativePixmap: String -> String)

  /** The file name `Set_Image` keeps: an absolute path is made relative to
      the pixmap directories. */
  function ImageFile(f: String, env: BackgroundEnv): String
  {
    if f != [] && f[0] == '/' then env.relativePixmap(f) else f
  }

  /** The colour whose channels are read from `<prefix>red`, `<prefix>green`
      and `<prefix>blue` (`<prefix>` is `bg_color_1_` or `bg_color_2_`). */
  function ColorFrom(a: Attributes, red: String, green: String, blue: String): (c: Rgb)
    ensures IsByteColor(c)
  {
    Rgb(ToByte(StringToInt(Get(a, red))), ToByte(StringToInt(Get(a, green))), ToByte(StringToInt(Get(a, blue))))
  }

  function Color1From(a: Attributes): Rgb
  {
    ColorFrom(a, "bg_color_1_red", "bg_color_1_green", "bg_color_1_blue")
  }

  function Color2From(a: Attributes): Rgb
  {
    ColorFrom(a, "bg_color_2_red", "bg_color_2_green", "bg_color_2_blue")
  }

  /** The image fields `Load_From_Attributes` reads. */
  function ImageFrom(s: BackgroundState, a: Attributes, env: BackgroundEnv): BackgroundState
  {
    var f := env.conv.toFloat;
    var start := (f(Get(a, "posx")), f(Get(a, "posy")));
    s.(pos := start, startPos := start, posZ := f(Get(a, "posz")),
       image := ImageFile(Get(a, "image"), env),
       speed := (f(Get(a, "speedx")), f(Get(a, "speedy"))),
       constVel := (f(Get(a, "const_velx")), f(Get(a, "const_vely"))))
  }

  /** `Load_From_Attributes` on a background in state `s`: the type, then
      the colours of a gradient or the placement of an image. */
  function Loaded(s: BackgroundState, a: Attributes, env: BackgroundEnv): (r: BackgroundState)
    ensures r.kind == TypeOfCode(StringToInt(Get(a, "type")))
  {
    var t := TypeOfCode(StringToInt(Get(a, "type")));
    if IsGradient(t) then
      s.(kind := t, color1 := Color1From(a), color2 := Color2From(a))
    else if IsImage(t) then
      ImageFrom(s, a, env).(kind := t)
    else
      s.(kind := t)
  }

  /** Only a gradient reads colours, only an image reads its placement, and
      an image starts where its start position is. */
  lemma LoadedDispatch(s: BackgroundState, a: Attributes, env: BackgroundEnv)
    ensures var r := Loaded(s, a, env);
      (!IsGradient(r.kind) ==> r.color1 == s.color1 && r.color2 == s.color2) &&
      (!IsImage(r.kind) ==>
         r.pos == s.pos && r.startPos == s.startPos && r.posZ == s.posZ && r.image == s.image &&
         r.speed == s.speed && r.constVel == s.constVel) &&
      (IsImage(r.kind) ==> r.pos == r.startPos)
  {
  }

  /** The properties `Save_To_XML_Node` writes, `None` for a background
      that writes no element at all. */
  function Saved(s: BackgroundState, conv: FloatText): (r: Option<Attributes>)
    ensures r.None? <==> s.kind == BgNone
  {
    if s.kind == BgNone then None
    else
      var head := map["type" := IntToString(TypeCode(s.kind))];
      var f := conv.fromFloat;
      if IsGradient(s.kind) then
        Some(head["bg_color_1_red" := IntToString(s.color1.red)]
                 ["bg_color_1_green" := IntToString(s.color1.green)]
                 ["bg_color_1_blue" := IntToString(s.color1.blue)]
                 ["bg_color_2_red" := IntToString(s.color2.red)]
                 ["bg_color_2_green" := IntToString(s.color2.green)]
                 ["bg_color_2_blue" := IntToString(s.color2.blue)])
      else if IsImage(s.kind) then
        Some(head["posx" := f(s.startPos.0)]["posy" := f(s.startPos.1)]["posz" := f(s.posZ)]
                 ["image" := s.image]
                 ["speedx" := f(s.speed.0)]["speedy" := f(s.speed.1)]
                 ["const_velx" := f(s.constVel.0)]["const_vely" := f(s.constVel.1)])
      else
        Some(head)
  }

  /** `float_to_string` read back by `string_to_float` gives the number. */
  ghost predicate FloatsRoundTrip(conv: FloatText)
  {
    forall x: real :: conv.toFloat(conv.fromFloat(x)) == x
  }

  /** Reading back a number written by `int_to_string`. */
  lemma ByteRoundTrip(v: int)
    requires 0 <= v < 256
    ensures ToByte(StringToInt(IntToString(v))) == v
  {
    StringToIntOfNat(v);
  }

  /** The saved number of a named type reads back as that type. */
  lemma TypeCodeReadBack(t: BackgroundType)
    requires !t.BgOther?
    ensures TypeOfCode(StringToInt(IntToString(TypeCode(t)))) == t
  {
    var c := TypeCode(t);
    assert c >= 0;
    StringToIntOfNat(c);
    assert StringToInt(IntToString(c)) == c;
    TypeOfCodeOfType(t);
  }

  /** What a saved gradient holds. */
  lemma SavedGradient(s: BackgroundState, conv: FloatText)
    requires IsGradient(s.kind)
    ensures var a := Saved(s, conv).value;
      Get(a, "type") == IntToString(TypeCode(s.kind)) &&
      Get(a, "bg_color_1_red") == IntToString(s.color1.red) &&
      Get(a, "bg_color_1_green") == IntToString(s.color1.green) &&
      Get(a, "bg_color_1_blue") == IntToString(s.color1.blue) &&
      Get(a, "bg_color_2_red") == IntToString(s.color2.red) &&
      Get(a, "bg_color_2_green") == IntToString(s.color2.green) &&
      Get(a, "bg_color_2_blue") == IntToString(s.color2.blue)
  {
  }

  /** Loading attributes that hold a gradient's type and colours. */
  lemma LoadedGradient(blank: BackgroundState, a: Attributes, env: BackgroundEnv, s: BackgroundState)
    requires IsGradient(s.kind)
    requires IsByteColor(s.color1) && IsByteColor(s.color2)
    requires Get(a, "type") == IntToString(TypeCode(s.kind))
    requires Get(a, "bg_color_1_red") == IntToString(s.color1.red)
    requires Get(a, "bg_color_1_green") == IntToString(s.color1.green)
    requires Get(a, "bg_color_1_blue") == IntToString(s.color1.blue)
    requires Get(a, "bg_color_2_red") == IntToString(s.color2.red)
    requires Get(a, "bg_color_2_green") == IntToString(s.color2.green)
    requires Get(a, "bg_color_2_blue") == IntToString(s.color2.blue)
    ensures var r := Loaded(blank, a, env);
      r.kind == s.kind && r.color1 == s.color1 && r.color2 == s.color2
  {
    TypeCodeReadBack(s.kind);
    ByteRoundTrip(s.color1.red);
    ByteRoundTrip(s.color1.green);
    ByteRoundTrip(s.color1.blue);
    ByteRoundTrip(s.color2.red);
    ByteRoundTrip(s.color2.green);
    ByteRoundTrip(s.color2.blue);
  }

  /** A saved gradient reads back as the same gradient. */
  lemma GradientRoundTrip(s: BackgroundState, blank: BackgroundState, env: BackgroundEnv)
    requires IsGradient(s.kind)
    requires IsByteColor(s.color1) && IsByteColor(s.color2)
    ensures var r := Loaded(blank, Saved(s, env.conv).value, env);
      r.kind == s.kind && r.color1 == s.color1 && r.color2 == s.color2
  {
    SavedGradient(s, env.conv);
    LoadedGradient(blank, Saved(s, env.conv).value, env, s);
  }

  /** What a saved image background holds. */
  lemma SavedImage(s: BackgroundState, conv: FloatText)
    requires IsImage(s.kind)
    ensures var a := Saved(s, conv).value;
      Get(a, "type") == IntToString(TypeCode(s.kind)) &&
      Get(a, "posx") == conv.fromFloat(s.startPos.0) && Get(a, "posy") == conv.fromFloat(s.startPos.1) &&
      Get(a, "posz") == conv.fromFloat(s.posZ) && Get(a, "image") == s.image &&
      Get(a, "speedx") == conv.fromFloat(s.speed.0) && Get(a, "speedy") == conv.fromFloat(s.speed.1) &&
      Get(a, "const_velx") == conv.fromFloat(s.constVel.0) && Get(a, "const_vely") == conv.fromFloat(s.constVel.1)
  {
  }

  /** Loading attributes that hold an image background's fields. */
  lemma LoadedImage(blank: BackgroundState, a: Attributes, env: BackgroundEnv, s: BackgroundState)
    requires IsImage(s.kind)
    requires FloatsRoundTrip(env.conv)
    requires s.image == [] || s.image[0] != '/'
    requires Get(a, "type") == IntToString(TypeCode(s.kind))
    requires Get(a, "posx") == env.conv.fromFloat(s.startPos.0)
    requires Get(a, "posy") == env.conv.fromFloat(s.startPos.1)
    requires Get(a, "posz") == env.conv.fromFloat(s.posZ)
    requires Get(a, "image") == s.image
    requires Get(a, "speedx") == env.conv.fromFloat(s.speed.0)
    requires Get(a, "speedy") == env.conv.fromFloat(s.speed.1)
    requires Get(a, "const_velx") == env.conv.fromFloat(s.constVel.0)
    requires Get(a, "const_vely") == env.conv.fromFloat(s.constVel.1)
    ensures var r := Loaded(blank, a, env);
      r.kind == s.kind && r.startPos == s.startPos && r.pos == s.startPos && r.posZ == s.posZ &&
      r.image == s.image && r.speed == s.speed && r.constVel == s.constVel
  {
    TypeCodeReadBack(s.kind);
    var c := env.conv;
    assert c.toFloat(c.fromFloat(s.startPos.0)) == s.startPos.0;
    assert c.toFloat(c.fromFloat(s.startPos.1)) == s.startPos.1;
    assert c.toFloat(c.fromFloat(s.posZ)) == s.posZ;
    assert c.toFloat(c.fromFloat(s.speed.0)) == s.speed.0;
    assert c.toFloat(c.fromFloat(s.speed.1)) == s.speed.1;
    assert c.toFloat(c.fromFloat(s.constVel.0)) == s.constVel.0;
    assert c.toFloat(c.fromFloat(s.constVel.1)) == s.constVel.1;
    assert ImageFile(s.image, env) == s.image;
  }

  /** A saved image background reads back at the same place with the same
      image, speeds and velocities, and starts at its start position. */
  lemma ImageRoundTrip(s: BackgroundState, blank: BackgroundState, env: BackgroundEnv)
    requires IsImage(s.kind)
    requires FloatsRoundTrip(env.conv)
    requires s.image == [] || s.image[0] != '/'
    ensures var r := Loaded(blank, Saved(s, env.conv).value, env);
      r.kind == s.kind && r.startPos == s.startPos && r.pos == s.startPos && r.posZ == s.posZ &&
      r.image == s.image && r.speed == s.speed && r.constVel == s.constVel
  {
    SavedImage(s, env.conv);
    LoadedImage(blank, Saved(s, env.conv).value, env, s);
  }

  /** A background: the fields of `cBackground` that the level file sets. */
  class Background {
    var kind: BackgroundType
    /** the current position, which drifts with the constant velocity */
    var pos: (real, real)
    var startPos: (real, real)
    var posZ: real
    var color1: Rgb
    var color2: Rgb
    /** `m_image_1_filename` */
    var image: String
    /** how fast the image scrolls with the camera */
    var speed: (real, real)
    var constVel: (real, real)

    function State(): BackgroundState
      reads this
    {
      BackgroundState(kind, pos, startPos, posZ, color1, color2, image, speed, constVel)
    }

    /** `cBackground(sprite_manager)`. */
    constructor ()
      ensures State() == Initial
    {
      kind := BgNone;
      pos := (0.0, 0.0);
      startPos := (0.0, 0.0);
      posZ := 0.00011;
      color1 := Rgb(0, 0, 0);
      color2 := Rgb(0, 0, 0);
      image := [];
      speed := (0.5, 0.5);
      constVel := (0.0, 0.0);
    }

    /** `cBackground(attributes, sprite_manager)`. */
    constructor FromAttributes(a: Attributes, env: BackgroundEnv)
      ensures State() == Loaded(Initial, a, env)
    {
      kind := BgNone;
      pos := (0.0, 0.0);
      startPos := (0.0, 0.0);
      posZ := 0.00011;
      color1 := Rgb(0, 0, 0);
      color2 := Rgb(0, 0, 0);
      image := [];
      speed := (0.5, 0.5);
      constVel := (0.0, 0.0);
      new;
      LoadFromAttributes(a, env);
    }

    method SetType(t: BackgroundType)
      modifies this`kind
      ensures kind == t
    {
      kind := t;
    }

    /** `Set_Type(name)`. */
    method SetTypeName(name: String)
      modifies this`kind
      ensures kind == TypeFromName(name, old(kind))
    {
      if name == "Disabled" {
        kind := BgNone;
      } else if name == "Top" {
        kind := BgImgTop;
      } else if name == "Bottom" {
        kind := BgImgBottom;
      } else if name == "All" {
        kind := BgImgAll;
      } else if name == "Gradient Vertical" {
        kind := BgGrVer;
      } else if name == "Gradient Horizontal" {
        kind := BgGrHor;
      }
    }

    method SetColor1(c: Rgb)
      modifies this`color1
      ensures color1 == c
    {
      color1 := c;
    }

    method SetColor2(c: Rgb)
      modifies this`color2
      ensures color2 == c
    {
      color2 := c;
    }

    /** `Set_Image`; the image sets it builds are not part of this model. */
    method SetImage(f: String, env: BackgroundEnv)
      modifies this`image
      ensures image == ImageFile(f, env)
    {
      image := f;
      if f != [] && f[0] == '/' {
        image := env.relativePixmap(f);
      }
    }

    method SetScrollSpeed(x: real, y: real)
      modifies this`speed
      ensures speed == (x, y)
    {
      speed := (x, y);
    }

    /** `Set_Start_Pos` also moves the background back to its start. */
    method SetStartPos(x: real, y: real)
      modifies this`startPos, this`pos
      ensures startPos == (x, y) && pos == startPos
    {
      startPos := (x, y);
      pos := startPos;
    }

    method SetPosZ(z: real)
      modifies this`posZ
      ensures posZ == z
    {
      posZ := z;
    }

    /** `Set_Const_Velocity_X` moves the background back to its start
        horizontally. */
    method SetConstVelocityX(v: real)
      modifies this`constVel, this`pos
      ensures constVel == (v, old(constVel.1))
      ensures pos == (startPos.0, old(pos.1))
    {
      constVel := (v, constVel.1);
      pos := (startPos.0, pos.1);
    }

    /** `Set_Const_Velocity_Y` moves the background back to its start
        vertically. */
    method SetConstVelocityY(v: real)
      modifies this`constVel, this`pos
      ensures constVel == (old(constVel.0), v)
      ensures pos == (old(pos.0), startPos.1)
    {
      constVel := (constVel.0, v);
      pos := (pos.0, startPos.1);
    }

    /** `Load_From_Attributes`. */
    method LoadFromAttributes(a: Attributes, env: BackgroundEnv)
      modifies this
      ensures State() == Loaded(old(State()), a, env)
    {
      kind := TypeOfCode(StringToInt(Get(a, "type")));
      if IsGradient(kind) {
        color1 := Color1From(a);
        color2 := Color2From(a);
      } else if IsImage(kind) {
        LoadImage(a, env);
      }
    }

    /** The image half of `Load_From_Attributes`: what each setter it calls
        does, in the same order. */
    method LoadImage(a: Attributes, env: BackgroundEnv)
      modifies this
      ensures State() == ImageFrom(old(State()), a, env)
    {
      var f := env.conv.toFloat;
      startPos := (f(Get(a, "posx")), f(Get(a, "posy")));
      pos := startPos;
      posZ := f(Get(a, "posz"));
      image := ImageFile(Get(a, "image"), env);
      speed := (f(Get(a, "speedx")), f(Get(a, "speedy")));
      constVel := (f(Get(a, "const_velx")), constVel.1);
      pos := (startPos.0, pos.1);
      constVel := (constVel.0, f(Get(a, "const_vely")));
      pos := (pos.0, startPos.1);
    }

    /** `Save_To_XML_Node`: the properties of the `<background>` element,
        `None` when none is written. */
    method SaveToXmlNode(conv: FloatText) returns (node: Option<Attributes>)
      ensures node == Saved(State(), conv)
      ensures node.None? <==> kind == BgNone
    {
      if kind == BgNone {
        return None;
      }
      var props := map["type" := IntToString(TypeCode(kind))];
      var f := conv.fromFloat;
      if IsGradient(kind) {
        props := props["bg_color_1_red" := IntToString(color1.red)]
                      ["bg_color_1_green" := IntToString(color1.green)]
                      ["bg_color_1_blue" := IntToString(color1.blue)]
                      ["bg_color_2_red" := IntToString(color2.red)]
                      ["bg_color_2_green" := IntToString(color2.green)]
                      ["bg_color_2_blue" := IntToString(color2.blue)];
      } else if IsImage(kind) {
        props := props["posx" := f(startPos.0)]["posy" := f(startPos.1)]["posz" := f(posZ)]
                      ["image" := image]
                      ["speedx" := f(speed.0)]["speedy" := f(speed.1)]
                      ["const_velx" := f(constVel.0)]["const_vely" := f(constVel.1)];
      }
      node := Some(props);
    }
  }
}
