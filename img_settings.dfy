/** Image settings files: the per-image `.settings` parser, the base-file
    chain and how settings are applied to a sprite
    (tsc/src/video/img_settings.cpp). */
module ImgSettings {
  import opened Common
  import opened Paths
  import opened PropertyHelper

  /** `sf::IntRect` of the collision rectangle. */
  datatype Rect = Rect(left: int, top: int, width: int, height: int)

  /** The fields of `cImage_Settings_Data` as a value. */
  datatype Settings = Settings(
    base: String, baseSettings: bool, colRect: Rect,
    width: int, height: int,
    rotationX: int, rotationY: int, rotationZ: int,
    mipmap: bool, editorTags: String, name: String, author: String,
    obsolete: bool)

  /** What a fresh `cImage_Settings_Data` holds. */
  const Defaults := Settings([], false, Rect(0, 0, 0, 0), 0, 0, 0, 0, 0, false, [], [], [], false)

  /** The world the parser sees: which files exist, the word lists of each
      file's lines (as the line-splitting file parser hands them over), and
      `Is_Valid_Number`, which is not part of this model. */
  datatype Context = Context(
    existing: set<String>,
    files: map<String, seq<seq<String>>>,
    validNumber: String -> bool,
    pastEnd: String)

  function FileLines(ctx: Context, file: String): (r: seq<seq<String>>)
    ensures file !in ctx.files ==> r == []
  {
    if file in ctx.files then ctx.files[file] else []
  }

  /* ---------------------------------------------------------------------
     cImage_Settings_Data::Apply_Base
     --------------------------------------------------------------------- */

  /** The settings after copying those of a base file over them. */
  function ApplyBase(s: Settings, b: Settings): (r: Settings)
    ensures r.base == (if b.base != [] then b.base else s.base)
    ensures r.baseSettings == (if b.base != [] then b.baseSettings else s.baseSettings)
    ensures r.obsolete <==> s.obsolete || b.obsolete
  {
    Settings(
      if b.base != [] then b.base else s.base,
      if b.base != [] then b.baseSettings else s.baseSettings,
      b.colRect, b.width, b.height, b.rotationX, b.rotationY, b.rotationZ,
      b.mipmap, b.editorTags, b.name, b.author,
      s.obsolete || b.obsolete)
  }

  /** Everything but the base reference and the obsolete flag comes from
      the base file: two settings that differ only there end up alike. */
  lemma ApplyBaseOverrides(s: Settings, t: Settings, b: Settings)
    requires b.base != []
    requires s.obsolete == t.obsolete
    ensures ApplyBase(s, b) == ApplyBase(t, b)
    ensures ApplyBase(s, b).(obsolete := b.obsolete) == b
  {
  }

  /** Applying the same base twice changes nothing more. */
  lemma ApplyBaseIdempotent(s: Settings, b: Settings)
    ensures ApplyBase(ApplyBase(s, b), b) == ApplyBase(s, b)
  {
  }

  /** Once obsolete, always obsolete, whatever bases follow. */
  lemma {:induction false} ObsoleteSticky(s: Settings, bases: seq<Settings>)
    requires s.obsolete
    ensures ApplyAll(s, bases).obsolete
    decreases |bases|
  {
    if bases != [] {
      ObsoleteSticky(ApplyBase(s, bases[0]), bases[1..]);
    }
  }

  /** A sequence of bases applied in order. */
  function ApplyAll(s: Settings, bases: seq<Settings>): (r: Settings)
    ensures bases == [] ==> r == s
    decreases |bases|
  {
    if bases == [] then s else ApplyAll(ApplyBase(s, bases[0]), bases[1..])
  }

  /* ---------------------------------------------------------------------
     cImage_Settings_Data::Apply
     --------------------------------------------------------------------- */

  /** What `Apply` does to a sprite: each part is `None` when the sprite's
      corresponding property is left alone. */
  datatype SpriteUpdate = SpriteUpdate(
    dimensions: Option<(int, int)>,
    collisionRect: Option<Rect>,
    rotation: Option<int>,
    name: Option<String>)

  function Apply(s: Settings): (r: SpriteUpdate)
    ensures r.dimensions.Some? <==> s.width > 0 && s.height > 0
    ensures r.dimensions.Some? ==> r.dimensions.value == (s.width, s.height)
    ensures r.collisionRect.Some? <==> s.colRect.width > 0 && s.colRect.height > 0
    ensures r.collisionRect.Some? ==> r.collisionRect.value == s.colRect
    ensures r.rotation.Some? <==> s.rotationZ != 0
    ensures r.rotation.Some? ==> r.rotation.value == s.rotationZ
    ensures r.name.Some? <==> s.name != []
  {
    SpriteUpdate(
      if s.width > 0 && s.height > 0 then Some((s.width, s.height)) else None,
      if s.colRect.width > 0 && s.colRect.height > 0 then Some(s.colRect) else None,
      if s.rotationZ != 0 then Some(s.rotationZ) else None,
      if s.name != [] then Some(ReplaceAll(s.name, "_", " ")) else None)
  }

  /** The displayed name keeps the length of the stored one and has a
      space exactly where the stored one has a space or an underscore. */
  lemma ApplyName(s: Settings)
    requires s.name != []
    ensures |Apply(s).name.value| == |s.name|
    ensures forall i :: 0 <= i < |s.name| ==>
      Apply(s).name.value[i] == (if s.name[i] == '_' then ' ' else s.name[i])
  {
    UnderscoresToSpaces(s.name);
  }

  lemma {:induction false} UnderscoresToSpaces(t: String)
    ensures |ReplaceAll(t, "_", " ")| == |t|
    ensures forall i :: 0 <= i < |t| ==>
      ReplaceAll(t, "_", " ")[i] == (if t[i] == '_' then ' ' else t[i])
    decreases |t|
  {
    if t != [] {
      UnderscoresToSpaces(t[1..]);
      if OccursAt(t, "_", 0) {
        assert t[0] == '_';
        assert ReplaceAll(t, "_", " ") == " " + ReplaceAll(t[1..], "_", " ");
      } else {
        assert t[0] != '_';
        assert ReplaceAll(t, "_", " ") == [t[0]] + ReplaceAll(t[1..], "_", " ");
      }
    }
  }

  /* ---------------------------------------------------------------------
     cImage_Settings_Parser
     --------------------------------------------------------------------- */

  /** The path a base file is looked up under: its own extension is
      replaced by ".settings" unless it already has it. */
  function SettingsPath(file: String): (r: String)
    ensures EndsWith(file, ".settings") ==> r == file
  {
    if EndsWith(file, ".settings") then file else ReplaceExtension(file, ".settings")
  }

  /** The test above is the source's `extension() != ".settings"`: a path's
      extension is ".settings" exactly when the path ends with it. */
  lemma SettingsExtensionTest(file: String)
    ensures Extension(file) == ".settings" <==> EndsWith(file, ".settings")
  {
    ExtensionIsSuffix(file);
    if EndsWith(file, ".settings") {
      var k := |file| - 9;
      assert file[k..] == ".settings";
      forall j | k < j < |file| ensures file[j] != '/' && file[j] != '.' {
        assert file[j] == file[k..][j - k];
      }
      match FindLastChar(file, '/') {
        case None =>
        case Some(i) => assert i <= k;
      }
      var n := FileNameStart(file);
      var name := file[n..];
      assert name[k - n] == file[k];
      FindLastCharAt(name, '.', k - n);
    }
  }

  /** `Get(filename, load_base)`: a fresh settings object with the file's
      lines handled in order. A file that does not exist has no lines. The
      base chain is followed to a depth of `fuel` nested files. */
  function GetSettings(ctx: Context, file: String, loadBase: bool, fuel: nat): (r: Settings)
    decreases fuel, 4, 0
  {
    ParseLines(Defaults, FileLines(ctx, file), file, loadBase, ctx, fuel)
  }

  /** The file parser: blank lines are skipped and parsing stops at the
      first line the handler rejects (what it had set before stays). */
  function ParseLines(v: Settings, lines: seq<seq<String>>, dataFile: String,
                      loadBase: bool, ctx: Context, fuel: nat): (r: Settings)
    decreases fuel, 3, |lines|
  {
    if lines == [] then v
    else if lines[0] == [] then ParseLines(v, lines[1..], dataFile, loadBase, ctx, fuel)
    else
      var h := HandleLine(v, lines[0], dataFile, loadBase, ctx, fuel);
      if h.0 then ParseLines(h.1, lines[1..], dataFile, loadBase, ctx, fuel) else h.1
  }

  /** The base chain: while a file name is pending, look it up as a
      ".settings" file, stop if it does not exist, apply the settings it
      yields (itself loaded with its bases), and continue with its own base
      if that one is also settings-based. */
  function BaseChain(v: Settings, file: String, ctx: Context, fuel: nat): (r: Settings)
    decreases fuel, 0, 0
  {
    if file == [] || fuel == 0 then v
    else
      var f := SettingsPath(file);
      if f !in ctx.existing then v
      else
        var b := GetSettings(ctx, f, true, fuel - 1);
        BaseChain(ApplyBase(v, b), NextBase(b), ctx, fuel - 1)
  }

  /** The file the chain continues with after a base file's settings: its
      own base, when that is also settings-based. */
  function NextBase(b: Settings): (r: String)
    ensures r == [] || r == b.base
  {
    if b.base != [] && b.baseSettings then b.base else []
  }

  /** The chain stops, leaving the settings alone, when no name is
      pending, the depth is used up or the settings file is missing. */
  lemma BaseChainStops(v: Settings, file: String, ctx: Context, fuel: nat)
    requires file == [] || fuel == 0 || SettingsPath(file) !in ctx.existing
    ensures BaseChain(v, file, ctx, fuel) == v
  {
  }

  /** One turn of the base chain's loop. */
  lemma BaseChainUnfold(v: Settings, file: String, ctx: Context, fuel: nat)
    requires file != [] && fuel > 0 && SettingsPath(file) in ctx.existing
    ensures BaseChain(v, file, ctx, fuel)
         == BaseChain(ApplyBase(v, GetSettings(ctx, SettingsPath(file), true, fuel - 1)),
                      NextBase(GetSettings(ctx, SettingsPath(file), true, fuel - 1)), ctx, fuel - 1)
  {
  }

  predicate AllValid(ctx: Context, words: seq<String>)
  {
    forall i :: 0 <= i < |words| ==> ctx.validNumber(words[i])
  }

  /** The commands of a settings file. */
  datatype Command = Base | ColRect | Width | Height | Rotation | Mipmap | Obsolete
                   | EditorTags | Name | Author | Type | GroundType | License | Unknown

  const KnownCommands: set<String> := {"base", "col_rect", "width", "height", "rotation",
    "mipmap", "obsolete", "editor_tags", "name", "author", "type", "ground_type", "license"}

  /** The command a line's first word names. */
  function CommandOf(word: String): (r: Command)
    ensures r == Unknown <==> word !in KnownCommands
  {
    if word == "base" then Base
    else if word == "col_rect" then ColRect
    else if word == "width" then Width
    else if word == "height" then Height
    else if word == "rotation" then Rotation
    else if word == "mipmap" then Mipmap
    else if word == "obsolete" then Obsolete
    else if word == "editor_tags" then EditorTags
    else if word == "name" then Name
    else if word == "author" then Author
    else if word == "type" then Type
    else if word == "ground_type" then GroundType
    else if word == "license" then License
    else Unknown
  }

  /** `HandleMessage`: whether the line is accepted, and the settings after
      it. */
  function HandleLine(v: Settings, parts: seq<String>, dataFile: String,
                      loadBase: bool, ctx: Context, fuel: nat): (r: (bool, Settings))
    requires parts != []
    decreases fuel, 2, 0
  {
    match CommandOf(parts[0])
    case Base => HandleBase(v, parts, dataFile, loadBase, ctx, fuel)
    case ColRect => HandleColRect(v, parts, ctx)
    case Width => HandleNumber(v, parts, ctx, Width)
    case Height => HandleNumber(v, parts, ctx, Height)
    case Rotation => HandleRotation(v, parts, ctx)
    case Mipmap => HandleNumber(v, parts, ctx, Mipmap)
    case Obsolete => HandleNumber(v, parts, ctx, Obsolete)
    case EditorTags => HandleText(v, parts, EditorTags)
    case Name => HandleText(v, parts, Name)
    case Author => HandleText(v, parts, Author)
    case Type => (|parts| == 2, v)
    case GroundType => (|parts| == 2, v)
    case License => (true, v)
    case Unknown => (false, v)
  }

  /** `base <file> [<with settings>]`: a line of two or three words whose
      third word passes the number check as written (the third word is
      read whatever the count; see `BaseNumberCheckAsWritten`). */
  function HandleBase(v: Settings, parts: seq<String>, dataFile: String,
                      loadBase: bool, ctx: Context, fuel: nat): (r: (bool, Settings))
    requires parts != []
    decreases fuel, 1, 1
  {
    var n := |parts|;
    if n < 2 || n > 3 then (false, v)
    else if !BaseNumberCheckAsWritten(parts, ctx) then (false, v)
    else (true, BaseAccepted(v, parts, dataFile, loadBase, ctx, fuel))
  }

  /** An accepted `base` line records the base image; with a non-zero flag
      it marks the settings as based on settings and, when loading is on,
      follows the chain from `<file>` beside the data file. */
  function BaseAccepted(v: Settings, parts: seq<String>, dataFile: String,
                        loadBase: bool, ctx: Context, fuel: nat): (r: Settings)
    requires 2 <= |parts| <= 3
    ensures r.base == parts[1] || (|parts| == 3 && StringToInt(parts[2]) != 0 && loadBase)
    decreases fuel, 1, 0
  {
    var v1 := v.(base := parts[1]);
    if |parts| == 3 && StringToInt(parts[2]) != 0 then
      var v2 := v1.(baseSettings := true);
      if loadBase then BaseChain(v2, JoinPath(ParentPath(dataFile), parts[1]), ctx, fuel)
      else v2
    else v1
  }

  /** `col_rect <x> <y> <w> <h>`. */
  function HandleColRect(v: Settings, parts: seq<String>, ctx: Context): (r: (bool, Settings))
    requires parts != []
  {
    if |parts| != 5 || !AllValid(ctx, parts[1..5]) then (false, v)
    else (true, v.(colRect := Rect(StringToInt(parts[1]), StringToInt(parts[2]),
                                  StringToInt(parts[3]), StringToInt(parts[4]))))
  }

  /** `width`, `height`, `mipmap` and `obsolete`: one numeric argument;
      the two flags are only ever switched on. */
  function HandleNumber(v: Settings, parts: seq<String>, ctx: Context, cmd: Command): (r: (bool, Settings))
    requires parts != []
    requires cmd in {Width, Height, Mipmap, Obsolete}
  {
    if |parts| != 2 || !ctx.validNumber(parts[1]) then (false, v)
    else
      var x := StringToInt(parts[1]);
      match cmd
      case Width => (true, v.(width := x))
      case Height => (true, v.(height := x))
      case Mipmap => (true, if x != 0 then v.(mipmap := true) else v)
      case Obsolete => (true, if x != 0 then v.(obsolete := true) else v)
  }

  /** `rotation <x> [<y> [<z> [<ignored>]]]`: the angles are set in order;
      a rejected line keeps those set before the failing word. */
  function HandleRotation(v: Settings, parts: seq<String>, ctx: Context): (r: (bool, Settings))
    requires parts != []
  {
    var n := |parts|;
    if n < 2 || n > 5 || !ctx.validNumber(parts[1]) then (false, v)
    else
      var vx := v.(rotationX := StringToInt(parts[1]));
      if n == 2 then (true, vx)
      else if !ctx.validNumber(parts[2]) then (false, vx)
      else
        var vy := vx.(rotationY := StringToInt(parts[2]));
        if n == 3 then (true, vy)
        else if !ctx.validNumber(parts[3]) then (false, vy)
        else (true, vy.(rotationZ := StringToInt(parts[3])))
  }

  /** `editor_tags`, `name` and `author`: exactly one word. */
  function HandleText(v: Settings, parts: seq<String>, cmd: Command): (r: (bool, Settings))
    requires parts != []
    requires cmd in {EditorTags, Name, Author}
  {
    if |parts| != 2 then (false, v)
    else match cmd
      case EditorTags => (true, v.(editorTags := parts[1]))
      case Name => (true, v.(name := parts[1]))
      case Author => (true, v.(author := parts[1]))
  }

  /** An unknown command is rejected and changes nothing; `license` is
      accepted whatever follows it and changes nothing either. */
  lemma UnknownAndLicense(v: Settings, parts: seq<String>, dataFile: String,
                          loadBase: bool, ctx: Context, fuel: nat)
    requires parts != []
    ensures parts[0] !in KnownCommands ==> HandleLine(v, parts, dataFile, loadBase, ctx, fuel) == (false, v)
    ensures parts[0] == "license" ==> HandleLine(v, parts, dataFile, loadBase, ctx, fuel) == (true, v)
  {
  }

  /** `col_rect` is accepted exactly with four numeric arguments, and then
      sets the rectangle from them; otherwise nothing changes. */
  lemma ColRectRule(v: Settings, parts: seq<String>, dataFile: String,
                    loadBase: bool, ctx: Context, fuel: nat)
    requires parts != [] && parts[0] == "col_rect"
    ensures HandleLine(v, parts, dataFile, loadBase, ctx, fuel).0 <==>
      (|parts| == 5 && forall i :: 1 <= i < 5 ==> ctx.validNumber(parts[i]))
    ensures !HandleLine(v, parts, dataFile, loadBase, ctx, fuel).0 ==>
      HandleLine(v, parts, dataFile, loadBase, ctx, fuel).1 == v
    ensures HandleLine(v, parts, dataFile, loadBase, ctx, fuel).0 ==>
      HandleLine(v, parts, dataFile, loadBase, ctx, fuel).1 == v.(colRect := Rect(StringToInt(parts[1]),
        StringToInt(parts[2]), StringToInt(parts[3]), StringToInt(parts[4])))
  {
    if |parts| == 5 {
      if forall i :: 1 <= i < 5 ==> ctx.validNumber(parts[i]) {
        assert AllValid(ctx, parts[1..5]);
      } else {
        var i :| 1 <= i < 5 && !ctx.validNumber(parts[i]);
        assert parts[1..5][i - 1] == parts[i];
      }
    }
  }

  /** `width`, `height`, `mipmap` and `obsolete` are accepted exactly with
      one numeric argument; a rejected line changes nothing, and `mipmap`
      and `obsolete` never clear a flag that is set. */
  lemma OneNumberRule(v: Settings, parts: seq<String>, dataFile: String,
                      loadBase: bool, ctx: Context, fuel: nat)
    requires parts != [] && parts[0] in {"width", "height", "mipmap", "obsolete"}
    ensures HandleLine(v, parts, dataFile, loadBase, ctx, fuel).0 <==>
      (|parts| == 2 && ctx.validNumber(parts[1]))
    ensures !HandleLine(v, parts, dataFile, loadBase, ctx, fuel).0 ==>
      HandleLine(v, parts, dataFile, loadBase, ctx, fuel).1 == v
    ensures v.mipmap ==> HandleLine(v, parts, dataFile, loadBase, ctx, fuel).1.mipmap
    ensures v.obsolete ==> HandleLine(v, parts, dataFile, loadBase, ctx, fuel).1.obsolete
  {
  }

  /** `rotation` takes one to four arguments and sets x, y and z in order
      as far as the words are present and numeric, keeping what it set
      before a bad word; a fourth angle is ignored and nothing else
      changes. */
  lemma RotationRule(v: Settings, parts: seq<String>, dataFile: String,
                     loadBase: bool, ctx: Context, fuel: nat)
    requires parts != [] && parts[0] == "rotation"
    ensures HandleLine(v, parts, dataFile, loadBase, ctx, fuel).0 <==>
      (2 <= |parts| <= 5 && ctx.validNumber(parts[1]) &&
       (|parts| > 2 ==> ctx.validNumber(parts[2])) && (|parts| > 3 ==> ctx.validNumber(parts[3])))
    ensures 2 <= |parts| <= 5 && ctx.validNumber(parts[1]) ==>
      HandleLine(v, parts, dataFile, loadBase, ctx, fuel).1.rotationX == StringToInt(parts[1])
    ensures 3 <= |parts| <= 5 && ctx.validNumber(parts[1]) && ctx.validNumber(parts[2]) ==>
      HandleLine(v, parts, dataFile, loadBase, ctx, fuel).1.rotationY == StringToInt(parts[2])
    ensures 4 <= |parts| <= 5 && ctx.validNumber(parts[1]) && ctx.validNumber(parts[2]) && ctx.validNumber(parts[3]) ==>
      HandleLine(v, parts, dataFile, loadBase, ctx, fuel).1.rotationZ == StringToInt(parts[3])
    ensures var w := HandleLine(v, parts, dataFile, loadBase, ctx, fuel).1;
      w == v.(rotationX := w.rotationX, rotationY := w.rotationY, rotationZ := w.rotationZ)
  {
  }

  /** A `base` line without the settings flag only records the base name;
      one with it and with loading switched off also sets the flag. */
  lemma BaseWithoutLoading(v: Settings, parts: seq<String>, dataFile: String,
                           ctx: Context, fuel: nat)
    requires parts != [] && parts[0] == "base"
    ensures var h := HandleLine(v, parts, dataFile, false, ctx, fuel);
      h.0 <==> (2 <= |parts| <= 3 && ctx.validNumber(if |parts| == 3 then parts[2] else ctx.pastEnd))
    ensures var h := HandleLine(v, parts, dataFile, false, ctx, fuel);
      h.0 ==> h.1 == v.(base := parts[1], baseSettings := v.baseSettings || (|parts| == 3 && StringToInt(parts[2]) != 0))
  {
    assert CommandOf(parts[0]) == Base;
    if 2 <= |parts| <= 3 {
      assert BaseNumberWord(parts, ctx) == if |parts| == 3 then parts[2] else ctx.pastEnd;
      assert BaseAccepted(v, parts, dataFile, false, ctx, fuel)
          == v.(base := parts[1], baseSettings := v.baseSettings || (|parts| == 3 && StringToInt(parts[2]) != 0));
    }
  }

  /** The base chain ends with the settings of the last base file applied:
      a pending name whose settings file is missing changes nothing, and a
      found file whose own base is not settings-based ends the chain after
      applying it. */
  lemma BaseChainSteps(v: Settings, file: String, ctx: Context, fuel: nat)
    requires file != [] && fuel > 0
    ensures SettingsPath(file) !in ctx.existing ==> BaseChain(v, file, ctx, fuel) == v
    ensures SettingsPath(file) in ctx.existing ==>
      var b := GetSettings(ctx, SettingsPath(file), true, fuel - 1);
      NextBase(b) == [] ==> BaseChain(v, file, ctx, fuel) == ApplyBase(v, b)
  {
  }

  /** Whatever the chain does, an obsolete image stays obsolete. */
  lemma {:induction false} BaseChainKeepsObsolete(v: Settings, file: String, ctx: Context, fuel: nat)
    requires v.obsolete
    ensures BaseChain(v, file, ctx, fuel).obsolete
    decreases fuel, 1
  {
    if file != [] && fuel > 0 && SettingsPath(file) in ctx.existing {
      BaseChainObsoleteStep(v, file, ctx, fuel);
    } else {
      BaseChainStops(v, file, ctx, fuel);
    }
  }

  /** One base file of the chain keeps the image obsolete. */
  lemma {:induction false} BaseChainObsoleteStep(v: Settings, file: String, ctx: Context, fuel: nat)
    requires v.obsolete && file != [] && fuel > 0 && SettingsPath(file) in ctx.existing
    ensures BaseChain(v, file, ctx, fuel).obsolete
    decreases fuel, 0
  {
    var b := GetSettings(ctx, SettingsPath(file), true, fuel - 1);
    var w, next := ApplyBase(v, b), NextBase(b);
    BaseChainKeepsObsolete(w, next, ctx, fuel - 1);
    var rest := BaseChain(w, next, ctx, fuel - 1);
    assert rest.obsolete;
    BaseChainUnfold(v, file, ctx, fuel);
    assert BaseChain(v, file, ctx, fuel) == rest;
  }

  /* ---------------------------------------------------------------------
     The parser object
     --------------------------------------------------------------------- */

  /** The parser: `temp` is the settings object being filled in (held by
      value), `loadBase` whether `base` lines follow their chain, and
      `dataFile` the file being parsed. */
  class SettingsParser {
    var loadBase: bool
    var temp: Settings
    var dataFile: String
    const ctx: Context

    constructor(ctx: Context)
      ensures this.ctx == ctx && loadBase
    {
      this.ctx := ctx;
      loadBase := true;
      temp := Defaults;
      dataFile := [];
    }

    /** `Get`: parses the file into fresh settings. */
    method Get(filename: String, loadBaseSettings: bool, fuel: nat) returns (settings: Settings)
      modifies this
      ensures settings == GetSettings(ctx, filename, loadBaseSettings, fuel)
      ensures loadBase == loadBaseSettings && dataFile == filename
      decreases fuel, 5
    {
      loadBase := loadBaseSettings;
      temp := Defaults;
      dataFile := filename;
      ParseFile(FileLines(ctx, filename), fuel);
      settings := temp;
    }

    /** The file parser's loop over the lines. */
    method ParseFile(lines: seq<seq<String>>, fuel: nat)
      modifies this`temp
      ensures temp == ParseLines(old(temp), lines, dataFile, loadBase, ctx, fuel)
      decreases fuel, 4
    {
      var i := 0;
      while i < |lines|
        invariant 0 <= i <= |lines|
        invariant ParseLines(old(temp), lines, dataFile, loadBase, ctx, fuel)
               == ParseLines(temp, lines[i..], dataFile, loadBase, ctx, fuel)
      {
        assert lines[i..][1..] == lines[i + 1..];
        if lines[i] != [] {
          var ok := HandleMessage(lines[i], fuel);
          if !ok {
            return;
          }
        }
        i := i + 1;
      }
    }

    /** `HandleMessage`: one line, applied to the settings being built. */
    method HandleMessage(parts: seq<String>, fuel: nat) returns (ok: bool)
      requires parts != []
      modifies this`temp
      ensures (ok, temp) == HandleLine(old(temp), parts, dataFile, loadBase, ctx, fuel)
      decreases fuel, 3
    {
      match CommandOf(parts[0])
      case Base => ok := BaseMessage(parts, fuel);
      case ColRect => ok := ColRectMessage(parts);
      case Width => ok := NumberMessage(parts, Width);
      case Height => ok := NumberMessage(parts, Height);
      case Rotation => ok := RotationMessage(parts);
      case Mipmap => ok := NumberMessage(parts, Mipmap);
      case Obsolete => ok := NumberMessage(parts, Obsolete);
      case EditorTags => ok := TextMessage(parts, EditorTags);
      case Name => ok := TextMessage(parts, Name);
      case Author => ok := TextMessage(parts, Author);
      case Type => ok := |parts| == 2;
      case GroundType => ok := |parts| == 2;
      case License => ok := true;
      case Unknown => ok := false;
    }

    method BaseMessage(parts: seq<String>, fuel: nat) returns (ok: bool)
      requires parts != []
      modifies this`temp
      ensures (ok, temp) == HandleBase(old(temp), parts, dataFile, loadBase, ctx, fuel)
      decreases fuel, 2
    {
      var n := |parts|;
      if n < 2 || n > 3 {
        return false;
      }
      if !ctx.validNumber(if n == 3 then parts[2] else ctx.pastEnd) {
        return false;
      }
      temp := temp.(base := parts[1]);
      if n == 3 && StringToInt(parts[2]) != 0 {
        temp := temp.(baseSettings := true);
        if loadBase {
          FollowBases(JoinPath(ParentPath(dataFile), parts[1]), fuel);
        }
      }
      ok := true;
    }

    method ColRectMessage(parts: seq<String>) returns (ok: bool)
      requires parts != []
      modifies this`temp
      ensures (ok, temp) == HandleColRect(old(temp), parts, ctx)
    {
      if |parts| != 5 {
        return false;
      }
      for i := 1 to 5
        invariant forall j :: 1 <= j < i ==> ctx.validNumber(parts[j])
      {
        if !ctx.validNumber(parts[i]) {
          assert parts[1..5][i - 1] == parts[i];
          return false;
        }
      }
      assert AllValid(ctx, parts[1..5]);
      temp := temp.(colRect := Rect(StringToInt(parts[1]), StringToInt(parts[2]),
                                    StringToInt(parts[3]), StringToInt(parts[4])));
      ok := true;
    }

    method NumberMessage(parts: seq<String>, cmd: Command) returns (ok: bool)
      requires parts != [] && cmd in {Width, Height, Mipmap, Obsolete}
      modifies this`temp
      ensures (ok, temp) == HandleNumber(old(temp), parts, ctx, cmd)
    {
      if |parts| != 2 || !ctx.validNumber(parts[1]) {
        return false;
      }
      var x := StringToInt(parts[1]);
      match cmd {
        case Width => temp := temp.(width := x);
        case Height => temp := temp.(height := x);
        case Mipmap => if x != 0 { temp := temp.(mipmap := true); }
        case Obsolete => if x != 0 { temp := temp.(obsolete := true); }
      }
      ok := true;
    }

    method RotationMessage(parts: seq<String>) returns (ok: bool)
      requires parts != []
      modifies this`temp
      ensures (ok, temp) == HandleRotation(old(temp), parts, ctx)
    {
      var n := |parts|;
      if n < 2 || n > 5 || !ctx.validNumber(parts[1]) {
        return false;
      }
      temp := temp.(rotationX := StringToInt(parts[1]));
      if n > 2 {
        if !ctx.validNumber(parts[2]) {
          return false;
        }
        temp := temp.(rotationY := StringToInt(parts[2]));
        if n > 3 {
          if !ctx.validNumber(parts[3]) {
            return false;
          }
          temp := temp.(rotationZ := StringToInt(parts[3]));
        }
      }
      ok := true;
    }

    method TextMessage(parts: seq<String>, cmd: Command) returns (ok: bool)
      requires parts != [] && cmd in {EditorTags, Name, Author}
      modifies this`temp
      ensures (ok, temp) == HandleText(old(temp), parts, cmd)
    {
      if |parts| != 2 {
        return false;
      }
      match cmd {
        case EditorTags => temp := temp.(editorTags := parts[1]);
        case Name => temp := temp.(name := parts[1]);
        case Author => temp := temp.(author := parts[1]);
      }
      ok := true;
    }

    /** The while loop over the base chain: each base file is read by a
        new parser that loads its own bases, and its settings are applied
        with `Apply_Base`. */
    method FollowBases(start: String, fuel: nat)
      modifies this`temp
      ensures temp == BaseChain(old(temp), start, ctx, fuel)
      decreases fuel, 1
    {
      var settings := temp;
      ghost var chain := BaseChain(settings, start, ctx, fuel);
      var file := start;
      var budget: nat := fuel;
      while file != [] && budget > 0
        invariant budget <= fuel
        invariant chain == BaseChain(settings, file, ctx, budget)
        decreases budget
      {
        if SettingsPath(file) !in ctx.existing {
          break;
        }
        settings, file := ApplyBaseFile(settings, file, budget);
        budget := budget - 1;
      }
      BaseChainStops(settings, file, ctx, budget);
      temp := settings;
    }

    /** One turn of the loop: the base file is read by a new parser, which
        loads its own bases; its settings are applied with `Apply_Base`
        and the loop goes on with its base if that is settings-based. */
    method ApplyBaseFile(settings: Settings, file: String, fuel: nat) returns (applied: Settings, next: String)
      requires file != [] && fuel > 0 && SettingsPath(file) in ctx.existing
      ensures applied == ApplyBase(settings, GetSettings(ctx, SettingsPath(file), true, fuel - 1))
      ensures next == NextBase(GetSettings(ctx, SettingsPath(file), true, fuel - 1))
      ensures BaseChain(settings, file, ctx, fuel) == BaseChain(applied, next, ctx, fuel - 1)
      decreases fuel, 0
    {
      BaseChainUnfold(settings, file, ctx, fuel);
      var p := new SettingsParser(ctx);
      var b := p.Get(SettingsPath(file), true, fuel - 1);
      applied := ApplyBase(settings, b);
      next := NextBase(b);
    }
  }

  /* ---------------------------------------------------------------------
     The `base` line's number check: as written and as meant
     --------------------------------------------------------------------- */

  /** The third word of a `base` line as the check reads it: on a two-word
      line the read goes past the line's end and yields whatever the file
      parser leaves there (`ctx.pastEnd`). */
  function BaseNumberWord(parts: seq<String>, ctx: Context): (r: String)
    requires 2 <= |parts| <= 3
    ensures |parts| == 3 ==> r == parts[2]
    ensures |parts| == 2 ==> r == ctx.pastEnd
  {
    if |parts| == 3 then parts[2] else ctx.pastEnd
  }

  /** The number check as written: the third word is tested whatever the
      count. */
  predicate BaseNumberCheckAsWritten(parts: seq<String>, ctx: Context)
    requires 2 <= |parts| <= 3
  {
    ctx.validNumber(BaseNumberWord(parts, ctx))
  }

  /** The number check as the optional flag calls for: only a present third
      word is tested. */
  predicate BaseNumberCheck(parts: seq<String>, ctx: Context)
    requires 2 <= |parts| <= 3
  {
    |parts| == 3 ==> ctx.validNumber(parts[2])
  }

  /** The two checks agree on every three-word line; on a two-word line
      the one as written depends on the word past the end, the one as
      meant always passes. */
  lemma BaseNumberChecksAgree(parts: seq<String>, ctx: Context)
    requires 2 <= |parts| <= 3
    ensures |parts| == 3 ==> (BaseNumberCheckAsWritten(parts, ctx) <==> BaseNumberCheck(parts, ctx))
    ensures |parts| == 2 ==> BaseNumberCheck(parts, ctx)
    ensures |parts| == 2 ==> (BaseNumberCheckAsWritten(parts, ctx) <==> ctx.validNumber(ctx.pastEnd))
  {
  }

  /** `HandleBase` with the check as meant. */
  function HandleBaseCorrected(v: Settings, parts: seq<String>, dataFile: String,
                               loadBase: bool, ctx: Context, fuel: nat): (r: (bool, Settings))
    requires parts != []
    ensures r.0 <==> 2 <= |parts| <= 3 && (|parts| == 3 ==> ctx.validNumber(parts[2]))
    ensures !r.0 ==> r.1 == v
  {
    var n := |parts|;
    if n < 2 || n > 3 then (false, v)
    else if !BaseNumberCheck(parts, ctx) then (false, v)
    else (true, BaseAccepted(v, parts, dataFile, loadBase, ctx, fuel))
  }

  /** As written and as meant, a `base` line is handled alike except when
      it has two words. */
  lemma {:induction false} HandleBaseAgreesOffTwoWords(v: Settings, parts: seq<String>, dataFile: String,
                                                      loadBase: bool, ctx: Context, fuel: nat)
    requires parts != [] && |parts| != 2
    ensures HandleBase(v, parts, dataFile, loadBase, ctx, fuel)
         == HandleBaseCorrected(v, parts, dataFile, loadBase, ctx, fuel)
  {
    if 2 <= |parts| <= 3 {
      BaseNumberChecksAgree(parts, ctx);
    }
  }

  /** As written, `base name` is rejected, leaving the settings alone,
      unless the word past the end happens to pass the number check. */
  lemma BaseTwoWordsAsWritten(v: Settings, name: String, dataFile: String,
                              loadBase: bool, ctx: Context, fuel: nat)
    ensures HandleLine(v, ["base", name], dataFile, loadBase, ctx, fuel)
         == if ctx.validNumber(ctx.pastEnd) then (true, v.(base := name)) else (false, v)
  {
    var parts := ["base", name];
    assert CommandOf(parts[0]) == Base;
    assert BaseNumberWord(parts, ctx) == ctx.pastEnd;
    assert BaseAccepted(v, parts, dataFile, loadBase, ctx, fuel) == v.(base := name);
  }

  /** A parser that leaves an empty word past the end, with an empty word
      not a number, rejects every two-word `base` line. */
  lemma BaseTwoWordsRejected(v: Settings, name: String, dataFile: String, fuel: nat)
    ensures var ctx := Context({}, map[], (w: String) => w != [], []);
      HandleLine(v, ["base", name], dataFile, true, ctx, fuel) == (false, v)
  {
  }

  /** With the check as meant, `base name` is accepted and records the
      name without the settings flag. */
  lemma BaseTwoWordsAccepted(v: Settings, name: String, dataFile: String,
                             loadBase: bool, ctx: Context, fuel: nat)
    ensures HandleBaseCorrected(v, ["base", name], dataFile, loadBase, ctx, fuel) == (true, v.(base := name))
  {
  }
}
