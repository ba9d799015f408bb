/** Reading the preferences file (tsc/src/user/preferences_loader.cpp and
    `cPreferences::Load_From_File` in tsc/src/user/preferences.cpp). The XML
    document is given as its sequence of start elements; each `property`
    element names one setting and its value, and `handle_property` turns that
    pair into an update of the preferences or of the loader's own detail and
    volume overrides. */
module PreferencesLoading {
  import opened Common
  import opened PropertyHelper
  import opened UserPreferences
  import opened XmlAttributes

  /* ---------------------------------------------------------------------
     The recognised property names
     --------------------------------------------------------------------- */

  datatype Property =
    | GameVersion | Language | AlwaysRun | MenuLevel | CameraHorSpeed | CameraVerSpeed
    | ScreenH | ScreenW | ScreenBpp | Vsync | FpsLimit | Fullscreen
    | GeometryDetail | TextureDetail
    | Music | Sound | MusicVolume | SoundVolume | AudioHz
    | KeyBinding(key: Key) | ScrollSpeed
    | JoyEnabled | JoyName | JoyAnalogJump | JoyAxisHor | JoyAxisVer | JoyAxisThreshold
    | ButtonBinding(button: Button)
    | LevelBackgroundImages | ImageCacheEnabled
    | EditorMouseAutoHide | EditorShowItemImages | EditorItemImageSize
    | Unknown

  function KeyName(k: Key): String
  {
    match k
    case Up => "keyboard_key_up"
    case Down => "keyboard_key_down"
    case Left => "keyboard_key_left"
    case Right => "keyboard_key_right"
    case Jump => "keyboard_key_jump"
    case Shoot => "keyboard_key_shoot"
    case Item => "keyboard_key_item"
    case Action => "keyboard_key_action"
    case Screenshot => "keyboard_key_screenshot"
    case FastCopyUp => "keyboard_key_editor_fast_copy_up"
    case FastCopyDown => "keyboard_key_editor_fast_copy_down"
    case FastCopyLeft => "keyboard_key_editor_fast_copy_left"
    case FastCopyRight => "keyboard_key_editor_fast_copy_right"
    case PixelMoveUp => "keyboard_key_editor_pixel_move_up"
    case PixelMoveDown => "keyboard_key_editor_pixel_move_down"
    case PixelMoveLeft => "keyboard_key_editor_pixel_move_left"
    case PixelMoveRight => "keyboard_key_editor_pixel_move_right"
  }

  function ButtonName(b: Button): String
  {
    match b
    case JumpButton => "joy_button_jump"
    case ItemButton => "joy_button_item"
    case ShootButton => "joy_button_shoot"
    case ActionButton => "joy_button_action"
    case ExitButton => "joy_button_exit"
  }

  /** The key a `keyboard_key_*` name configures. */
  function KeyOf(name: String): (r: Option<Key>)
    ensures r.Some? ==> name == KeyName(r.value)
  {
    if name == "keyboard_key_up" then Some(Up)
    else if name == "keyboard_key_down" then Some(Down)
    else if name == "keyboard_key_left" then Some(Left)
    else if name == "keyboard_key_right" then Some(Right)
    else if name == "keyboard_key_jump" then Some(Jump)
    else if name == "keyboard_key_shoot" then Some(Shoot)
    else if name == "keyboard_key_item" then Some(Item)
    else if name == "keyboard_key_action" then Some(Action)
    else if name == "keyboard_key_screenshot" then Some(Screenshot)
    else if name == "keyboard_key_editor_fast_copy_up" then Some(FastCopyUp)
    else if name == "keyboard_key_editor_fast_copy_down" then Some(FastCopyDown)
    else if name == "keyboard_key_editor_fast_copy_left" then Some(FastCopyLeft)
    else if name == "keyboard_key_editor_fast_copy_right" then Some(FastCopyRight)
    else if name == "keyboard_key_editor_pixel_move_up" then Some(PixelMoveUp)
    else if name == "keyboard_key_editor_pixel_move_down" then Some(PixelMoveDown)
    else if name == "keyboard_key_editor_pixel_move_left" then Some(PixelMoveLeft)
    else if name == "keyboard_key_editor_pixel_move_right" then Some(PixelMoveRight)
    else None
  }

  /** The button a `joy_button_*` name configures. */
  function ButtonOf(name: String): (r: Option<Button>)
    ensures r.Some? ==> name == ButtonName(r.value)
  {
    if name == "joy_button_jump" then Some(JumpButton)
    else if name == "joy_button_item" then Some(ItemButton)
    else if name == "joy_button_shoot" then Some(ShootButton)
    else if name == "joy_button_action" then Some(ActionButton)
    else if name == "joy_button_exit" then Some(ExitButton)
    else None
  }

  /** The setting `handle_property` assigns for a name. Its chain of
      comparisons is split here along the source's section comments; the
      names are pairwise distinct, so the order of the tests does not
      matter. */
  function PropertyOf(name: String): Property
  {
    var game := GamePropertyOf(name);
    if game != Unknown then game
    else
      var video := VideoPropertyOf(name);
      if video != Unknown then video
      else
        var input := InputPropertyOf(name);
        if input != Unknown then input
        else OtherPropertyOf(name)
  }

  function GamePropertyOf(name: String): Property
  {
    if name == "game_version" then GameVersion
    else if name == "game_language" then Language
    else if name == "game_always_run" || name == "always_run" then AlwaysRun
    else if name == "game_menu_level" then MenuLevel
    else if name == "game_camera_hor_speed" || name == "camera_hor_speed" then CameraHorSpeed
    else if name == "game_camera_ver_speed" || name == "camera_ver_speed" then CameraVerSpeed
    else Unknown
  }

  function VideoPropertyOf(name: String): Property
  {
    if name == "video_screen_h" then ScreenH
    else if name == "video_screen_w" then ScreenW
    else if name == "video_screen_bpp" then ScreenBpp
    else if name == "video_vsync" then Vsync
    else if name == "video_fps_limit" then FpsLimit
    else if name == "video_fullscreen" then Fullscreen
    else if name == "video_geometry_detail" || name == "video_geometry_quality" then GeometryDetail
    else if name == "video_texture_detail" || name == "video_texture_quality" then TextureDetail
    else if name == "audio_music" then Music
    else if name == "audio_sound" then Sound
    else if name == "audio_music_volume" then MusicVolume
    else if name == "audio_sound_volume" then SoundVolume
    else if name == "audio_hz" then AudioHz
    else Unknown
  }

  function InputPropertyOf(name: String): Property
  {
    if KeyOf(name).Some? then KeyBinding(KeyOf(name).value)
    else if name == "keyboard_scroll_speed" then ScrollSpeed
    else if name == "joy_enabled" then JoyEnabled
    else if name == "joy_name" then JoyName
    else if name == "joy_analog_jump" then JoyAnalogJump
    else if name == "joy_axis_hor" then JoyAxisHor
    else if name == "joy_axis_ver" then JoyAxisVer
    else if name == "joy_axis_threshold" then JoyAxisThreshold
    else if ButtonOf(name).Some? then ButtonBinding(ButtonOf(name).value)
    else Unknown
  }

  function OtherPropertyOf(name: String): Property
  {
    if name == "level_background_images" then LevelBackgroundImages
    else if name == "image_cache_enabled" then ImageCacheEnabled
    else if name == "editor_mouse_auto_hide" then EditorMouseAutoHide
    else if name == "editor_show_item_images" then EditorShowItemImages
    else if name == "editor_item_image_size" then EditorItemImageSize
    else Unknown
  }

  /** The legacy aliases name the same settings as the current names. */
  lemma AlwaysRunAlias(name: String)
    requires name == "always_run" || name == "game_always_run"
    ensures PropertyOf(name) == AlwaysRun
  {
  }

  lemma CameraHorSpeedAlias(name: String)
    requires name == "camera_hor_speed" || name == "game_camera_hor_speed"
    ensures PropertyOf(name) == CameraHorSpeed
  {
  }

  lemma CameraVerSpeedAlias(name: String)
    requires name == "camera_ver_speed" || name == "game_camera_ver_speed"
    ensures PropertyOf(name) == CameraVerSpeed
  {
  }

  lemma GeometryDetailAlias(name: String)
    requires name == "video_geometry_quality" || name == "video_geometry_detail"
    ensures PropertyOf(name) == GeometryDetail
  {
  }

  lemma TextureDetailAlias(name: String)
    requires name == "video_texture_quality" || name == "video_texture_detail"
    ensures PropertyOf(name) == TextureDetail
  {
  }

  /** Every key name is recognised by the key table and gives back its key. */
  lemma KeyNameRoundTrip(k: Key)
    ensures KeyOf(KeyName(k)) == Some(k)
  {
  }

  lemma ButtonNameRoundTrip(b: Button)
    ensures ButtonOf(ButtonName(b)) == Some(b)
  {
  }

  /* ---------------------------------------------------------------------
     handle_property as a function of the settings before it
     --------------------------------------------------------------------- */

  /** The detail levels and volumes the loader keeps apart from the
      preferences (`m_video_*_detail`, `m_audio_*_volume`); -1 means that the
      file did not give the setting. */
  datatype Overrides = Overrides(geometryDetail: real, textureDetail: real,
                                 musicVolume: int, soundVolume: int)

  const NoOverrides: Overrides := Overrides(-1.0, -1.0, -1, -1)

  /** An override volume is unset or a mixer volume. */
  predicate OverridesValid(o: Overrides)
  {
    && (o.musicVolume == -1 || 0 <= o.musicVolume <= MixMaxVolume)
    && (o.soundVolume == -1 || 0 <= o.soundVolume <= MixMaxVolume)
  }

  /** A property's value text with the conversions `handle_property` may
      apply to it: `string_to_int`, `string_to_bool`, `string_to_float` and
      `string_to_version_number`. */
  datatype Value = Value(text: String, asInt: int, asBool: bool, asFloat: real, asVersion: nat)

  function ParseValue(text: String, toFloat: String -> real): Value
  {
    Value(text, StringToInt(text), StringToBool(text), toFloat(text), StringToVersionNumber(text))
  }

  /** The nearest value to `v` in [lo, hi]. */
  function Clamp(v: int, lo: int, hi: int): (r: int)
    requires lo <= hi
    ensures lo <= r <= hi
    ensures lo <= v <= hi ==> r == v
    ensures v < lo ==> r == lo
    ensures v > hi ==> r == hi
  {
    if v < lo then lo else if v > hi then hi else v
  }

  /** A joystick button as the loader stores it: codes in [0, 256] pass the
      range check and are stored into a `Uint8` field, where 256 becomes 0. */
  function ButtonCodeAsWritten(n: int): (r: Option<int>)
    ensures r.Some? <==> 0 <= n <= 256
    ensures r.Some? ==> 0 <= r.value < UInt8Modulus
    ensures 0 <= n < UInt8Modulus ==> r == Some(n)
  {
    if 0 <= n <= 256 then Some(n % UInt8Modulus) else None
  }

  /** The range check the field evidently calls for: exactly the codes a
      `Uint8` holds, stored unchanged. */
  function ButtonCode(n: int): (r: Option<int>)
    ensures r.Some? <==> 0 <= n < UInt8Modulus
    ensures r.Some? ==> r.value == n
  {
    if 0 <= n < UInt8Modulus then Some(n) else None
  }

  function GameUpdate(g: GamePrefs, p: Property, v: Value): GamePrefs
  {
    match p
    case Language => g.(language := v.text)
    case AlwaysRun => g.(alwaysRun := v.asBool)
    case MenuLevel => g.(menuLevel := v.text)
    case CameraHorSpeed => g.(cameraHorSpeed := v.asFloat)
    case CameraVerSpeed => g.(cameraVerSpeed := v.asFloat)
    case _ => g
  }

  /** Screen size and depth are clamped; the frame limit is truncated to a
      `Uint16`. */
  function VideoUpdate(vid: VideoPrefs, p: Property, v: Value): VideoPrefs
  {
    match p
    case ScreenH => vid.(screenH := Clamp(v.asInt, 200, 2560))
    case ScreenW => vid.(screenW := Clamp(v.asInt, 200, 2560))
    case ScreenBpp => vid.(bpp := Clamp(v.asInt, 8, 32))
    case Vsync => vid.(vsync := v.asBool)
    case FpsLimit => vid.(fpsLimit := v.asInt % UInt16Modulus)
    case Fullscreen => vid.(fullscreen := v.asBool)
    case _ => vid
  }

  /** An audio rate outside [0, 96000] is ignored. */
  function AudioUpdate(a: AudioPrefs, p: Property, v: Value): AudioPrefs
  {
    match p
    case Music => a.(music := v.asBool)
    case Sound => a.(sound := v.asBool)
    case AudioHz =>
      var n := v.asInt;
      if 0 <= n <= 96000 then a.(hz := n) else a
    case _ => a
  }

  /** A volume outside [0, MIX_MAX_VOLUME] is ignored. */
  function OverridesUpdate(o: Overrides, p: Property, v: Value): Overrides
  {
    match p
    case GeometryDetail => o.(geometryDetail := v.asFloat)
    case TextureDetail => o.(textureDetail := v.asFloat)
    case MusicVolume =>
      var n := v.asInt;
      if 0 <= n <= MixMaxVolume then o.(musicVolume := n) else o
    case SoundVolume =>
      var n := v.asInt;
      if 0 <= n <= MixMaxVolume then o.(soundVolume := n) else o
    case _ => o
  }

  /** A key code outside [0, SDLK_LAST] is ignored. */
  function KeyboardUpdate(k: KeyboardPrefs, p: Property, v: Value): KeyboardPrefs
  {
    match p
    case KeyBinding(key) =>
      var n := v.asInt;
      if 0 <= n <= SdlkLast then k.(keys := k.keys[key := n]) else k
    case ScrollSpeed => k.(scrollSpeed := v.asFloat)
    case _ => k
  }

  /** Axes outside [0, 256], a threshold outside [0, 32767] and buttons
      outside [0, 256] are ignored. */
  function JoystickUpdate(j: JoystickPrefs, p: Property, v: Value): JoystickPrefs
  {
    match p
    case JoyEnabled => j.(enabled := v.asBool)
    case JoyName => j.(name := v.text)
    case JoyAnalogJump => j.(analogJump := v.asBool)
    case JoyAxisHor =>
      var n := v.asInt;
      if 0 <= n <= 256 then j.(axisHor := n) else j
    case JoyAxisVer =>
      var n := v.asInt;
      if 0 <= n <= 256 then j.(axisVer := n) else j
    case JoyAxisThreshold =>
      var n := v.asInt;
      if 0 <= n <= 32767 then j.(axisThreshold := n) else j
    case ButtonBinding(b) =>
      (match ButtonCodeAsWritten(v.asInt)
       case Some(n) => j.(buttons := j.buttons[b := n])
       case None => j)
    case _ => j
  }

  /** The item image size is truncated to an `unsigned int`. */
  function EditorUpdate(e: EditorPrefs, p: Property, v: Value): EditorPrefs
  {
    match p
    case EditorMouseAutoHide => e.(mouseAutoHide := v.asBool)
    case EditorShowItemImages => e.(showItemImages := v.asBool)
    case EditorItemImageSize => e.(itemImageSize := ToUInt(v.asInt))
    case _ => e
  }

  /** The groups of settings, as the source's section comments divide
      them; the detail levels and volumes are the loader's overrides. */
  datatype Section = VersionSection | GameSection | VideoSection | OverrideSection | AudioSection
                   | KeyboardSection | JoystickSection | BackgroundSection | CacheSection
                   | EditorSection | NoSection

  function SectionOf(p: Property): Section
  {
    match p
    case GameVersion => VersionSection
    case Language | AlwaysRun | MenuLevel | CameraHorSpeed | CameraVerSpeed => GameSection
    case ScreenH | ScreenW | ScreenBpp | Vsync | FpsLimit | Fullscreen => VideoSection
    case GeometryDetail | TextureDetail | MusicVolume | SoundVolume => OverrideSection
    case Music | Sound | AudioHz => AudioSection
    case KeyBinding(_) | ScrollSpeed => KeyboardSection
    case JoyEnabled | JoyName | JoyAnalogJump | JoyAxisHor | JoyAxisVer | JoyAxisThreshold
       | ButtonBinding(_) => JoystickSection
    case LevelBackgroundImages => BackgroundSection
    case ImageCacheEnabled => CacheSection
    case EditorMouseAutoHide | EditorShowItemImages | EditorItemImageSize => EditorSection
    case Unknown => NoSection
  }

  /** `handle_property(name, value)`: the settings and overrides afterwards.
      Exactly one group is updated; an unknown name changes nothing. */
  function PropertyEffect(r: Record, o: Overrides, p: Property, v: Value): (Record, Overrides)
  {
    match SectionOf(p)
    case VersionSection => (r.(gameVersion := v.asVersion), o)
    case GameSection => (r.(game := GameUpdate(r.game, p, v)), o)
    case VideoSection => (r.(video := VideoUpdate(r.video, p, v)), o)
    case OverrideSection => (r, OverridesUpdate(o, p, v))
    case AudioSection => (r.(audio := AudioUpdate(r.audio, p, v)), o)
    case KeyboardSection => (r.(keyboard := KeyboardUpdate(r.keyboard, p, v)), o)
    case JoystickSection => (r.(joystick := JoystickUpdate(r.joystick, p, v)), o)
    case BackgroundSection => (r.(levelBackgroundImages := v.asBool), o)
    case CacheSection => (r.(imageCacheEnabled := v.asBool), o)
    case EditorSection => (r.(editor := EditorUpdate(r.editor, p, v)), o)
    case NoSection => (r, o)
  }

  /* ---------------------------------------------------------------------
     The rules handle_property follows
     --------------------------------------------------------------------- */

  /** An unknown name only produces a warning. */
  lemma UnknownNameIgnored(r: Record, o: Overrides, p: Property, v: Value)
    requires p == Unknown
    ensures PropertyEffect(r, o, p, v) == (r, o)
  {
  }

  /** The screen size is clamped into [200, 2560] and the colour depth into
      [8, 32]: the given value when it lies inside, else the nearer bound; no
      other setting changes. */
  lemma ScreenClamped(r: Record, o: Overrides, p: Property, v: Value)
    requires p == ScreenW || p == ScreenH || p == ScreenBpp
    ensures var (r', o') := PropertyEffect(r, o, p, v);
            var n := v.asInt;
            var (lo, hi) := if p == ScreenBpp then (8, 32) else (200, 2560);
            var stored := if p == ScreenW then r'.video.screenW
                          else if p == ScreenH then r'.video.screenH
                          else r'.video.bpp;
            && lo <= stored <= hi
            && (lo <= n <= hi ==> stored == n)
            && (n < lo ==> stored == lo) && (n > hi ==> stored == hi)
            && o' == o
            && r' == r.(video := r'.video)
            && r'.video == (if p == ScreenW then r.video.(screenW := stored)
                            else if p == ScreenH then r.video.(screenH := stored)
                            else r.video.(bpp := stored))
  {
  }

  /** A volume or audio rate outside its range is ignored outright, and one
      inside is stored as given. */
  lemma AudioRangeChecked(r: Record, o: Overrides, p: Property, v: Value)
    requires p == MusicVolume || p == SoundVolume || p == AudioHz
    ensures var n := v.asInt;
            var hi := if p == AudioHz then 96000 else MixMaxVolume;
            var (r', o') := PropertyEffect(r, o, p, v);
            && (!(0 <= n <= hi) ==> (r', o') == (r, o))
            && (0 <= n <= hi ==>
                  (r', o') == (if p == AudioHz then (r.(audio := r.audio.(hz := n)), o)
                               else if p == MusicVolume then (r, o.(musicVolume := n))
                               else (r, o.(soundVolume := n))))
  {
  }

  /** A key code is stored for its key exactly when it lies in
      [0, SDLK_LAST]; otherwise nothing changes. */
  lemma KeyRangeChecked(r: Record, o: Overrides, p: Property, v: Value, k: Key)
    requires p == KeyBinding(k)
    ensures var n := v.asInt;
            var (r', o') := PropertyEffect(r, o, p, v);
            && (0 <= n <= SdlkLast ==> (r', o') == (r.(keyboard := r.keyboard.(keys := r.keyboard.keys[k := n])), o))
            && (!(0 <= n <= SdlkLast) ==> (r', o') == (r, o))
  {
  }

  /** Joystick axes and threshold outside their ranges are ignored;
      inside, the given value is stored. */
  lemma JoystickRangeChecked(r: Record, o: Overrides, p: Property, v: Value)
    requires p == JoyAxisHor || p == JoyAxisVer || p == JoyAxisThreshold
    ensures var n := v.asInt;
            var hi := if p == JoyAxisThreshold then 32767 else 256;
            var (r', o') := PropertyEffect(r, o, p, v);
            && (!(0 <= n <= hi) ==> (r', o') == (r, o))
            && (0 <= n <= hi ==> o' == o && r' == r.(joystick := r'.joystick))
            && (0 <= n <= hi && p == JoyAxisHor ==> r'.joystick == r.joystick.(axisHor := n))
            && (0 <= n <= hi && p == JoyAxisVer ==> r'.joystick == r.joystick.(axisVer := n))
            && (0 <= n <= hi && p == JoyAxisThreshold ==> r'.joystick == r.joystick.(axisThreshold := n))
  {
  }

  /** A button code outside [0, 256] is ignored; a `Uint8` code is stored
      for its button as given, and 256 is stored as button 0. */
  lemma ButtonRangeChecked(r: Record, o: Overrides, p: Property, v: Value)
    requires p.ButtonBinding?
    ensures var n := v.asInt;
            var (r', o') := PropertyEffect(r, o, p, v);
            && (!(0 <= n <= 256) ==> (r', o') == (r, o))
            && (0 <= n < UInt8Modulus ==>
                  (r', o') == (r.(joystick := r.joystick.(buttons := r.joystick.buttons[p.button := n])), o))
            && (n == 256 ==>
                  (r', o') == (r.(joystick := r.joystick.(buttons := r.joystick.buttons[p.button := 0])), o))
  {
  }

  /** Reading any property keeps the settings within the ranges the
      defaults start in, and the override volumes unset or valid. */
  lemma PropertyKeepsValid(r: Record, o: Overrides, p: Property, v: Value)
    requires Valid(r) && OverridesValid(o) && v.asVersion < 0x1_0000_0000
    ensures Valid(PropertyEffect(r, o, p, v).0)
    ensures OverridesValid(PropertyEffect(r, o, p, v).1)
  {
    match SectionOf(p)
    case KeyboardSection =>
      KeyBindingKeepsValid(r.keyboard, p, v);
      DeviceSectionKeepsValid(r, o, p, v);
    case JoystickSection =>
      ButtonBindingKeepsValid(r.joystick, p, v);
      DeviceSectionKeepsValid(r, o, p, v);
    case EditorSection =>
      DeviceSectionKeepsValid(r, o, p, v);
    case VideoSection =>
      VideoSectionKeepsValid(r, o, p, v);
    case _ =>
      OtherSectionKeepsValid(r, o, p, v);
  }

  /** The keyboard, joystick and editor settings change only their own
      group. */
  lemma DeviceSectionKeepsValid(r: Record, o: Overrides, p: Property, v: Value)
    requires Valid(r) && OverridesValid(o)
    requires SectionOf(p) in {KeyboardSection, JoystickSection, EditorSection}
    requires SectionOf(p) == KeyboardSection ==> KeysInRange(KeyboardUpdate(r.keyboard, p, v).keys)
    requires SectionOf(p) == JoystickSection ==> ButtonsInRange(JoystickUpdate(r.joystick, p, v).buttons)
    ensures Valid(PropertyEffect(r, o, p, v).0)
    ensures PropertyEffect(r, o, p, v).1 == o
  {
  }

  /** The screen settings stay clamped. */
  lemma VideoSectionKeepsValid(r: Record, o: Overrides, p: Property, v: Value)
    requires Valid(r) && SectionOf(p) == VideoSection
    ensures Valid(PropertyEffect(r, o, p, v).0)
    ensures PropertyEffect(r, o, p, v).1 == o
  {
  }

  /** The remaining settings keep the ranges too. */
  lemma OtherSectionKeepsValid(r: Record, o: Overrides, p: Property, v: Value)
    requires Valid(r) && OverridesValid(o) && v.asVersion < 0x1_0000_0000
    requires SectionOf(p) in {VersionSection, GameSection, OverrideSection, AudioSection,
                              BackgroundSection, CacheSection, NoSection}
    ensures Valid(PropertyEffect(r, o, p, v).0)
    ensures OverridesValid(PropertyEffect(r, o, p, v).1)
  {
  }

  /** A keyboard setting keeps every key bound to a code in [0, SDLK_LAST]. */
  lemma KeyBindingKeepsValid(k: KeyboardPrefs, p: Property, v: Value)
    requires SectionOf(p) == KeyboardSection
    requires KeysInRange(k.keys)
    ensures KeysInRange(KeyboardUpdate(k, p, v).keys)
  {
    var keys := KeyboardUpdate(k, p, v).keys;
    forall key: Key ensures key in keys && 0 <= keys[key] <= SdlkLast {
      if !p.KeyBinding? || key != p.key {
        assert key in k.keys && 0 <= k.keys[key] <= SdlkLast;
      }
    }
  }

  /** A joystick setting keeps every button bound to a `Uint8` code. */
  lemma ButtonBindingKeepsValid(j: JoystickPrefs, p: Property, v: Value)
    requires SectionOf(p) == JoystickSection
    requires ButtonsInRange(j.buttons)
    ensures ButtonsInRange(JoystickUpdate(j, p, v).buttons)
  {
    var buttons := JoystickUpdate(j, p, v).buttons;
    forall b: Button ensures b in buttons && 0 <= buttons[b] < UInt8Modulus {
      if !p.ButtonBinding? || b != p.button {
        assert b in j.buttons && 0 <= j.buttons[b] < UInt8Modulus;
      }
    }
  }

  /* ---------------------------------------------------------------------
     on_start_element and the document as a whole
     --------------------------------------------------------------------- */

  /** An XML start element: its name and its attributes in document order. */
  datatype Element = Element(name: String, attrs: seq<(String, String)>)

  /** Only `property` and `Item` elements carry a setting. */
  predicate IsPropertyElement(e: Element)
  {
    e.name == "property" || e.name == "Item"
  }

  /** The setting an element addresses: `Unknown` for any element other than
      `property`/`Item`. */
  function Target(e: Element): Property
  {
    if IsPropertyElement(e) then PropertyOf(LastAttr(e.attrs, true, true)) else Unknown
  }

  /** What `on_start_element` asks of `handle_property`: a setting and the
      value for it. */
  datatype Assignment = Assignment(target: Property, value: Value)

  function ElementAssignment(e: Element, toFloat: String -> real): Assignment
  {
    Assignment(Target(e), ParseValue(LastAttr(e.attrs, false, true), toFloat))
  }

  /** The assignments of a document's elements, in document order. */
  function Assignments(es: seq<Element>, toFloat: String -> real): (r: seq<Assignment>)
    ensures |r| == |es|
    ensures forall i :: 0 <= i < |es| ==> r[i] == ElementAssignment(es[i], toFloat)
  {
    if es == [] then [] else [ElementAssignment(es[0], toFloat)] + Assignments(es[1..], toFloat)
  }

  /** The settings after a sequence of assignments, in order. */
  function AssignAll(r: Record, o: Overrides, xs: seq<Assignment>): (Record, Overrides)
    decreases |xs|
  {
    if xs == [] then (r, o)
    else
      var (r1, o1) := PropertyEffect(r, o, xs[0].target, xs[0].value);
      AssignAll(r1, o1, xs[1..])
  }

  /** Whatever the document says, the settings stay in their ranges. */
  lemma {:induction false} AssignAllKeepsValid(r: Record, o: Overrides, xs: seq<Assignment>)
    requires Valid(r) && OverridesValid(o)
    requires forall i :: 0 <= i < |xs| ==> xs[i].value.asVersion < 0x1_0000_0000
    ensures Valid(AssignAll(r, o, xs).0)
    ensures OverridesValid(AssignAll(r, o, xs).1)
    decreases |xs|
  {
    if xs != [] {
      PropertyKeepsValid(r, o, xs[0].target, xs[0].value);
      var (r1, o1) := PropertyEffect(r, o, xs[0].target, xs[0].value);
      assert forall i :: 0 <= i < |xs| - 1 ==> xs[1..][i] == xs[i + 1];
      AssignAllKeepsValid(r1, o1, xs[1..]);
    }
  }

  /** The four settings the loader keeps as overrides. */
  predicate IsOverride(q: Property)
  {
    q == GeometryDetail || q == TextureDetail || q == MusicVolume || q == SoundVolume
  }

  /** The override an override setting is stored in. */
  function OverrideOf(o: Overrides, q: Property): real
    requires IsOverride(q)
  {
    match q
    case GeometryDetail => o.geometryDetail
    case TextureDetail => o.textureDetail
    case MusicVolume => o.musicVolume as real
    case SoundVolume => o.soundVolume as real
  }

  /** A property other than an override's own leaves that override alone. */
  lemma OverridesFrame(r: Record, o: Overrides, p: Property, v: Value, q: Property)
    requires IsOverride(q) && p != q
    ensures OverrideOf(PropertyEffect(r, o, p, v).1, q) == OverrideOf(o, q)
  {
  }

  /** An override keeps its initial value (-1 for a fresh loader) unless
      an assignment sets it. */
  lemma {:induction false} OverrideOnlyWhenGiven(r: Record, o: Overrides, xs: seq<Assignment>, q: Property)
    requires IsOverride(q)
    requires forall i :: 0 <= i < |xs| ==> xs[i].target != q
    ensures OverrideOf(AssignAll(r, o, xs).1, q) == OverrideOf(o, q)
    decreases |xs|
  {
    if xs != [] {
      OverridesFrame(r, o, xs[0].target, xs[0].value, q);
      var (r1, o1) := PropertyEffect(r, o, xs[0].target, xs[0].value);
      assert forall i :: 0 <= i < |xs| - 1 ==> xs[1..][i] == xs[i + 1];
      OverrideOnlyWhenGiven(r1, o1, xs[1..], q);
    }
  }

  /* ---------------------------------------------------------------------
     cPreferencesLoader
     --------------------------------------------------------------------- */

  class PreferencesLoader {
    var prefs: Preferences?
    var overrides: Overrides
    var preferencesFile: String
    /** `string_to_float`, which is not part of this model. */
    const toFloat: String -> real

    /** No preferences object yet, and every override unset. */
    constructor (toFloat: String -> real)
      ensures prefs == null && overrides == NoOverrides && preferencesFile == []
      ensures this.toFloat == toFloat
    {
      prefs := null;
      overrides := NoOverrides;
      preferencesFile := [];
      this.toFloat := toFloat;
    }

    /** `parse_file`: the document is read as its start elements, after
        `on_start_document`. Fails, as the source throws, when the loader was
        already used. */
    method ParseFile(filename: String, es: seq<Element>, dev: Devices, tscVersion: nat) returns (ok: bool)
      modifies this`prefs, this`preferencesFile, this`overrides
      modifies dev`geometryQuality, dev`textureQuality, dev`musicVolume, dev`soundVolume
      ensures ok <==> old(prefs) == null
      ensures ok ==> prefs != null && fresh(prefs) && prefs.configFilename == filename
      ensures ok ==> (prefs.Snapshot(), overrides)
                     == AssignAll(DefaultRecord(tscVersion), old(overrides), Assignments(es, toFloat))
    {
      preferencesFile := filename;
      ok := StartDocument(dev, tscVersion);
      if ok {
        ParseElements(es);
      }
    }

    /** `on_start_document`: a fresh preferences object with the defaults. */
    method StartDocument(dev: Devices, tscVersion: nat) returns (ok: bool)
      modifies this`prefs, dev`geometryQuality, dev`textureQuality, dev`musicVolume, dev`soundVolume
      ensures ok <==> old(prefs) == null
      ensures !ok ==> prefs == old(prefs) && unchanged(dev)
      ensures ok ==> prefs != null && fresh(prefs) && prefs.configFilename == preferencesFile
      ensures ok ==> prefs.Snapshot() == DefaultRecord(tscVersion)
    {
      if prefs != null {
        return false;
      }
      prefs := new Preferences(dev, tscVersion);
      prefs.configFilename := preferencesFile;
      ok := true;
    }

    /** The start elements of the document, in order. */
    method ParseElements(es: seq<Element>)
      requires prefs != null
      modifies prefs, this`overrides
      ensures prefs.configFilename == old(prefs.configFilename)
      ensures (prefs.Snapshot(), overrides)
              == AssignAll(old(prefs.Snapshot()), old(overrides), Assignments(es, toFloat))
    {
      var i := 0;
      while i < |es|
        invariant 0 <= i <= |es|
        invariant prefs.configFilename == old(prefs.configFilename)
        invariant AssignAll(old(prefs.Snapshot()), old(overrides), Assignments(es, toFloat))
                  == AssignAll(prefs.Snapshot(), overrides, Assignments(es[i..], toFloat))
      {
        var rest := Assignments(es[i..], toFloat);
        assert rest[1..] == Assignments(es[i + 1..], toFloat);
        StartElement(es[i]);
        i := i + 1;
      }
    }

    /** `on_start_element`: a `property`/`Item` element's last name and value
        attributes are handed to `handle_property`; other elements are
        skipped. */
    method StartElement(e: Element)
      requires prefs != null
      modifies prefs, this`overrides
      ensures prefs.configFilename == old(prefs.configFilename)
      ensures var x := ElementAssignment(e, toFloat);
              (prefs.Snapshot(), overrides) == PropertyEffect(old(prefs.Snapshot()), old(overrides), x.target, x.value)
    {
      if !IsPropertyElement(e) {
        assert ElementAssignment(e, toFloat).target == Unknown;
        UnknownNameIgnored(prefs.Snapshot(), overrides, Unknown, ElementAssignment(e, toFloat).value);
        return;
      }
      var key, value := ScanAttributes(e.attrs, true);
      assert ElementAssignment(e, toFloat) == Assignment(PropertyOf(key), ParseValue(value, toFloat));
      HandleProperty(key, value);
    }

    /** `handle_property`: the one setting the name addresses is converted,
        clamped or range-checked and stored; unknown names are ignored. */
    method HandleProperty(name: String, value: String)
      requires prefs != null
      modifies prefs, this`overrides
      ensures prefs.configFilename == old(prefs.configFilename)
      ensures (prefs.Snapshot(), overrides)
              == PropertyEffect(old(prefs.Snapshot()), old(overrides), PropertyOf(name), ParseValue(value, toFloat))
    {
      Assign(PropertyOf(name), ParseValue(value, toFloat));
    }

    /** The branch of `handle_property` for one setting. */
    method Assign(p: Property, v: Value)
      requires prefs != null
      modifies prefs, this`overrides
      ensures prefs.configFilename == old(prefs.configFilename)
      ensures (prefs.Snapshot(), overrides) == PropertyEffect(old(prefs.Snapshot()), old(overrides), p, v)
    {
      var section := SectionOf(p);
      if section == OverrideSection {
        overrides := OverridesUpdate(overrides, p, v);
      } else if section in {KeyboardSection, JoystickSection, EditorSection} {
        AssignDevice(p, v);
      } else if section != NoSection {
        AssignGeneral(p, v);
      }
      // an unknown option only produces a warning
    }

    /** The branches for the version, game, video, audio, background and
        cache settings. */
    method AssignGeneral(p: Property, v: Value)
      requires prefs != null
      requires SectionOf(p) in {VersionSection, GameSection, VideoSection, AudioSection, BackgroundSection, CacheSection}
      modifies prefs
      ensures prefs.configFilename == old(prefs.configFilename)
      ensures prefs.Snapshot() == PropertyEffect(old(prefs.Snapshot()), overrides, p, v).0
    {
      match SectionOf(p) {
        case VersionSection =>
          prefs.gameVersion := v.asVersion;
        case GameSection =>
          prefs.game := GameUpdate(prefs.game, p, v);
        case VideoSection =>
          prefs.video := VideoUpdate(prefs.video, p, v);
        case AudioSection =>
          prefs.audio := AudioUpdate(prefs.audio, p, v);
        case BackgroundSection =>
          prefs.levelBackgroundImages := v.asBool;
        case CacheSection =>
          prefs.imageCacheEnabled := v.asBool;
      }
    }

    /** The branches for the keyboard, joystick and editor settings. */
    method AssignDevice(p: Property, v: Value)
      requires prefs != null
      requires SectionOf(p) in {KeyboardSection, JoystickSection, EditorSection}
      modifies prefs
      ensures prefs.configFilename == old(prefs.configFilename)
      ensures prefs.Snapshot() == PropertyEffect(old(prefs.Snapshot()), overrides, p, v).0
    {
      match SectionOf(p) {
        case KeyboardSection =>
          prefs.keyboard := KeyboardUpdate(prefs.keyboard, p, v);
        case JoystickSection =>
          prefs.joystick := JoystickUpdate(prefs.joystick, p, v);
        case EditorSection =>
          prefs.editor := EditorUpdate(prefs.editor, p, v);
      }
    }
  }

  /** `cPreferences::Load_From_File`: without a file, a preferences object
      with the defaults; otherwise the loader's result, after which the
      engine's detail levels and volumes are overwritten with the loader's
      overrides, -1 where the file did not give them. */
  method LoadFromFile(filename: String, fileExists: bool, es: seq<Element>, dev: Devices,
                      tscVersion: nat, toFloat: String -> real) returns (p: Preferences)
    modifies dev`geometryQuality, dev`textureQuality, dev`musicVolume, dev`soundVolume
    ensures fresh(p) && p.configFilename == filename
    ensures !fileExists ==> p.Snapshot() == DefaultRecord(tscVersion)
                            && dev.geometryQuality == DefaultGeometryQuality
                            && dev.textureQuality == DefaultTextureQuality
                            && dev.soundVolume == DefaultSoundVolume
                            && dev.musicVolume == DefaultMusicVolume
    ensures fileExists ==>
              (p.Snapshot(), Overrides(dev.geometryQuality, dev.textureQuality, dev.musicVolume, dev.soundVolume))
              == AssignAll(DefaultRecord(tscVersion), NoOverrides, Assignments(es, toFloat))
  {
    if !fileExists {
      p := new Preferences(dev, tscVersion);
      p.configFilename := filename;
      return;
    }
    var loader := new PreferencesLoader(toFloat);
    var ok := loader.ParseFile(filename, es, dev, tscVersion);
    dev.geometryQuality := loader.overrides.geometryDetail;
    dev.textureQuality := loader.overrides.textureDetail;
    dev.musicVolume := loader.overrides.musicVolume;
    dev.soundVolume := loader.overrides.soundVolume;
    p := loader.prefs;
  }

  /** A file that gives neither detail level nor volume leaves all four
      engine values at -1. */
  lemma UnsetOverridesStayUnset(r: Record, xs: seq<Assignment>)
    requires forall i :: 0 <= i < |xs| ==> !IsOverride(xs[i].target)
    ensures AssignAll(r, NoOverrides, xs).1 == NoOverrides
  {
    OverrideOnlyWhenGiven(r, NoOverrides, xs, GeometryDetail);
    OverrideOnlyWhenGiven(r, NoOverrides, xs, TextureDetail);
    OverrideOnlyWhenGiven(r, NoOverrides, xs, MusicVolume);
    OverrideOnlyWhenGiven(r, NoOverrides, xs, SoundVolume);
  }

  /** Whatever the file says, the loaded settings lie in the ranges of
      `Valid`. */
  lemma LoadedSettingsValid(tscVersion: nat, es: seq<Element>, toFloat: String -> real)
    requires tscVersion < 0x1_0000_0000
    ensures Valid(AssignAll(DefaultRecord(tscVersion), NoOverrides, Assignments(es, toFloat)).0)
    ensures OverridesValid(AssignAll(DefaultRecord(tscVersion), NoOverrides, Assignments(es, toFloat)).1)
  {
    DefaultsValid(tscVersion);
    AssignAllKeepsValid(DefaultRecord(tscVersion), NoOverrides, Assignments(es, toFloat));
  }

  /* ---------------------------------------------------------------------
     The joystick button range check as written
     --------------------------------------------------------------------- */

  /** A configured button 256 is silently read as button 0. */
  lemma ButtonCode256ReadAsZero()
    ensures ButtonCodeAsWritten(256) == Some(0)
    ensures ButtonCode(256) == None
  {
  }

  /** Apart from that one code the corrected check agrees with the source,
      and whatever it accepts is stored unchanged. */
  lemma ButtonCodeAgrees(n: int)
    requires n != 256
    ensures ButtonCode(n) == ButtonCodeAsWritten(n)
    ensures ButtonCode(n).Some? ==> ButtonCode(n).value == n
  {
  }
}
