/** The user preferences object (tsc/src/user/preferences.cpp): the default
    values, the `Reset_*` family, and how `Apply`, `Apply_Video`,
    `Apply_Audio` and `Update` move settings between the preferences and the
    engine's video, audio, joystick and camera state. */
module UserPreferences {
  import opened Common

  /* ---------------------------------------------------------------------
     Constants of the SDL 1.2 and SDL_mixer headers the defaults refer to
     --------------------------------------------------------------------- */

  const SdlkReturn: int := 13
  const SdlkSpace: int := 32
  const SdlkA: int := 97
  const SdlkS: int := 115
  const SdlkKp2: int := 258
  const SdlkKp4: int := 260
  const SdlkKp6: int := 262
  const SdlkKp8: int := 264
  const SdlkUp: int := 273
  const SdlkDown: int := 274
  const SdlkRight: int := 275
  const SdlkLeft: int := 276
  const SdlkPrint: int := 316
  /** `SDLK_LAST`, one past the largest SDL 1.2 key code. */
  const SdlkLast: int := 323
  /** `MIX_MAX_VOLUME`. */
  const MixMaxVolume: int := 128

  /* ---------------------------------------------------------------------
     The settings, grouped as the source groups them
     --------------------------------------------------------------------- */

  /** The seventeen configurable keys (`m_key_*`). */
  datatype Key = Up | Down | Left | Right | Jump | Shoot | Item | Action | Screenshot
    | FastCopyUp | FastCopyDown | FastCopyLeft | FastCopyRight
    | PixelMoveUp | PixelMoveDown | PixelMoveLeft | PixelMoveRight

  /** The five configurable joystick buttons (`m_joy_button_*`). */
  datatype Button = JumpButton | ShootButton | ItemButton | ActionButton | ExitButton

  datatype GamePrefs = GamePrefs(language: String, alwaysRun: bool, menuLevel: String,
                                 cameraHorSpeed: real, cameraVerSpeed: real)

  /** Screen width and height are `Uint16`, the colour depth `Uint8` and the
      frame limit `Uint16`. */
  datatype VideoPrefs = VideoPrefs(screenW: int, screenH: int, bpp: int, vsync: bool,
                                   fpsLimit: int, fullscreen: bool)

  datatype AudioPrefs = AudioPrefs(music: bool, sound: bool, hz: int)

  /** One key code per configurable key, and the editor scroll speed. */
  datatype KeyboardPrefs = KeyboardPrefs(keys: map<Key, int>, scrollSpeed: real)

  /** The axis threshold is `Sint16`, the buttons `Uint8`. */
  datatype JoystickPrefs = JoystickPrefs(enabled: bool, name: String, analogJump: bool,
                                         axisHor: int, axisVer: int, axisThreshold: int,
                                         buttons: map<Button, int>)

  /** The item image size is an `unsigned int`. */
  datatype EditorPrefs = EditorPrefs(mouseAutoHide: bool, showItemImages: bool, itemImageSize: int)

  /** Every setting of a `cPreferences`, as one value. */
  datatype Record = Record(gameVersion: nat, game: GamePrefs, video: VideoPrefs,
                           audio: AudioPrefs, keyboard: KeyboardPrefs,
                           joystick: JoystickPrefs, editor: EditorPrefs,
                           levelBackgroundImages: bool, imageCacheEnabled: bool)

  /* ---------------------------------------------------------------------
     The `*_default` constants (a release build: fullscreen by default)
     --------------------------------------------------------------------- */

  const DefaultGame: GamePrefs := GamePrefs([], false, "menu_brown_1", 0.3, 0.2)
  const DefaultVideo: VideoPrefs := VideoPrefs(1024, 768, 32, false, 240, true)
  const DefaultAudio: AudioPrefs := AudioPrefs(true, true, 44100)
  const DefaultGeometryQuality: real := 0.5
  const DefaultTextureQuality: real := 0.75
  const DefaultSoundVolume: int := 100
  const DefaultMusicVolume: int := 80
  const DefaultKeys: map<Key, int> := map[
    Up := SdlkUp, Down := SdlkDown, Left := SdlkLeft, Right := SdlkRight,
    Jump := SdlkS, Shoot := SdlkSpace, Item := SdlkReturn, Action := SdlkA,
    Screenshot := SdlkPrint,
    FastCopyUp := SdlkKp8, FastCopyDown := SdlkKp2, FastCopyLeft := SdlkKp4, FastCopyRight := SdlkKp6,
    PixelMoveUp := SdlkKp8, PixelMoveDown := SdlkKp2, PixelMoveLeft := SdlkKp4, PixelMoveRight := SdlkKp6]
  const DefaultKeyboard: KeyboardPrefs := KeyboardPrefs(DefaultKeys, 1.0)
  const DefaultButtons: map<Button, int> := map[
    JumpButton := 0, ShootButton := 1, ItemButton := 3, ActionButton := 2, ExitButton := 4]
  const DefaultJoystick: JoystickPrefs := JoystickPrefs(true, [], false, 0, 1, 10000, DefaultButtons)
  const DefaultEditor: EditorPrefs := EditorPrefs(false, true, 50)

  /** The settings of a fresh `cPreferences` (its constructor runs
      `Reset_All`). */
  function DefaultRecord(tscVersion: nat): Record
  {
    Record(tscVersion, DefaultGame, DefaultVideo, DefaultAudio, DefaultKeyboard,
           DefaultJoystick, DefaultEditor, true, true)
  }

  /* ---------------------------------------------------------------------
     The ranges the settings live in
     --------------------------------------------------------------------- */

  const UInt16Modulus: int := 0x1_0000
  const UInt8Modulus: int := 0x100

  /** Every key is bound to a code in [0, SDLK_LAST]. */
  predicate KeysInRange(keys: map<Key, int>)
  {
    forall k: Key :: k in keys && 0 <= keys[k] <= SdlkLast
  }

  /** Every button is bound to a `Uint8`. */
  predicate ButtonsInRange(buttons: map<Button, int>)
  {
    forall b: Button :: b in buttons && 0 <= buttons[b] < UInt8Modulus
  }

  /** The ranges the loader guarantees: the clamped screen geometry, the
      checked audio rate, key codes, axes and threshold, and the widths of the
      fields that take a value unchecked. */
  predicate Valid(r: Record)
  {
    && r.gameVersion < 0x1_0000_0000
    && 200 <= r.video.screenW <= 2560 && 200 <= r.video.screenH <= 2560
    && 8 <= r.video.bpp <= 32
    && 0 <= r.video.fpsLimit < UInt16Modulus
    && 0 <= r.audio.hz <= 96000
    && KeysInRange(r.keyboard.keys)
    && 0 <= r.joystick.axisHor <= 256 && 0 <= r.joystick.axisVer <= 256
    && 0 <= r.joystick.axisThreshold <= 32767
    && ButtonsInRange(r.joystick.buttons)
    && 0 <= r.editor.itemImageSize < 0x1_0000_0000
  }

  /** The defaults lie in the ranges the loader keeps. */
  lemma DefaultsValid(tscVersion: nat)
    requires tscVersion < 0x1_0000_0000
    ensures Valid(DefaultRecord(tscVersion))
  {
    var keys := DefaultKeys;
    forall k: Key ensures k in keys && 0 <= keys[k] <= SdlkLast {
      match k {
        case Up => case Down => case Left => case Right => case Jump => case Shoot =>
        case Item => case Action => case Screenshot =>
        case FastCopyUp => case FastCopyDown => case FastCopyLeft => case FastCopyRight =>
        case PixelMoveUp => case PixelMoveDown => case PixelMoveLeft => case PixelMoveRight =>
      }
    }
    var buttons := DefaultButtons;
    forall b: Button ensures b in buttons && 0 <= buttons[b] < UInt8Modulus {
      match b {
        case JumpButton => case ShootButton => case ItemButton => case ActionButton => case ExitButton =>
      }
    }
  }

  /* ---------------------------------------------------------------------
     The engine state the preferences read and write
     --------------------------------------------------------------------- */

  /** A request the preferences make of the video or audio subsystem. */
  datatype DeviceCall = InitVideo(reloadTextures: bool) | InitGeometry | ToggleFullscreen | InitAudio

  /** The parts of `pVideo`, `pAudio`, `pJoystick` and the level manager's
      camera that the preferences touch; `calls` records the
      re-initialisations requested of them, in order. */
  class Devices {
    var geometryQuality: real
    var textureQuality: real
    var musicVolume: int
    var soundVolume: int
    var audioInitFailed: bool
    var joyInitFailed: bool
    var musicEnabled: bool
    var soundEnabled: bool
    var currentJoystick: int
    var joystickName: String
    var cameraHorSpeed: real
    var cameraVerSpeed: real
    var calls: seq<DeviceCall>

    constructor (audioInitFailed: bool, joyInitFailed: bool)
      ensures this.audioInitFailed == audioInitFailed && this.joyInitFailed == joyInitFailed
      ensures calls == []
    {
      this.audioInitFailed := audioInitFailed;
      this.joyInitFailed := joyInitFailed;
      calls := [];
    }
  }

  /* ---------------------------------------------------------------------
     Apply_Video as a function of the old and the requested settings
     --------------------------------------------------------------------- */

  /** The arguments of `Apply_Video`. */
  datatype VideoRequest = VideoRequest(screenW: int, screenH: int, bpp: int, fullscreen: bool,
                                       vsync: bool, geometry: real, texture: real)

  /** The video settings and qualities after `Apply_Video`, and the
      re-initialisations it requested. */
  datatype VideoOutcome = VideoOutcome(video: VideoPrefs, geometry: real, texture: real,
                                       calls: seq<DeviceCall>)

  /** A texture reload is needed when the resolution, the colour depth, vsync
      or the texture detail changes; `floatEqual` is `Is_Float_Equal`. */
  predicate NeedsReload(v: VideoPrefs, texture: real, req: VideoRequest,
                        floatEqual: (real, real) -> bool)
  {
    v.screenW != req.screenW || v.screenH != req.screenH || v.bpp != req.bpp
    || v.vsync != req.vsync || !floatEqual(texture, req.texture)
  }

  function ApplyVideo(v: VideoPrefs, geometry: real, texture: real, req: VideoRequest,
                      floatEqual: (real, real) -> bool): VideoOutcome
  {
    if NeedsReload(v, texture, req, floatEqual) then
      VideoOutcome(v.(screenW := req.screenW, screenH := req.screenH, bpp := req.bpp,
                      vsync := req.vsync, fullscreen := req.fullscreen),
                   req.geometry, req.texture, [InitVideo(true)])
    else
      var geometryCalls := if floatEqual(geometry, req.geometry) then [] else [InitGeometry];
      var toggleCalls := if v.fullscreen != req.fullscreen then [ToggleFullscreen] else [];
      VideoOutcome(v.(fullscreen := req.fullscreen),
                   if floatEqual(geometry, req.geometry) then geometry else req.geometry,
                   texture, geometryCalls + toggleCalls)
  }

  /** A full re-initialisation with texture reload is requested exactly when
      one of the reload-relevant settings changes, and then alone. */
  lemma ApplyVideoReloadDecision(v: VideoPrefs, geometry: real, texture: real,
                                 req: VideoRequest, floatEqual: (real, real) -> bool)
    ensures InitVideo(true) in ApplyVideo(v, geometry, texture, req, floatEqual).calls
            <==> NeedsReload(v, texture, req, floatEqual)
    ensures NeedsReload(v, texture, req, floatEqual) ==>
            ApplyVideo(v, geometry, texture, req, floatEqual).calls == [InitVideo(true)]
  {
  }

  /** Without a reload, the geometry is re-initialised only when its detail
      changed and fullscreen is toggled only when it differs; the texture
      detail is kept. */
  lemma ApplyVideoWithoutReload(v: VideoPrefs, geometry: real, texture: real,
                                req: VideoRequest, floatEqual: (real, real) -> bool)
    requires !NeedsReload(v, texture, req, floatEqual)
    ensures InitGeometry in ApplyVideo(v, geometry, texture, req, floatEqual).calls
            <==> !floatEqual(geometry, req.geometry)
    ensures ToggleFullscreen in ApplyVideo(v, geometry, texture, req, floatEqual).calls
            <==> v.fullscreen != req.fullscreen
    ensures ApplyVideo(v, geometry, texture, req, floatEqual).texture == texture
  {
  }

  /** Whichever branch is taken, the resolution, depth, vsync and fullscreen
      mode afterwards are the requested ones, and the geometry and texture
      detail equal the requested ones up to `Is_Float_Equal`. */
  lemma ApplyVideoReachesRequest(v: VideoPrefs, geometry: real, texture: real,
                                 req: VideoRequest, floatEqual: (real, real) -> bool)
    ensures var out := ApplyVideo(v, geometry, texture, req, floatEqual);
            && out.video.screenW == req.screenW && out.video.screenH == req.screenH
            && out.video.bpp == req.bpp && out.video.vsync == req.vsync
            && out.video.fullscreen == req.fullscreen
            && (out.geometry == req.geometry || floatEqual(out.geometry, req.geometry))
            && (out.texture == req.texture || floatEqual(out.texture, req.texture))
            && out.video.fpsLimit == v.fpsLimit
  {
  }

  /* ---------------------------------------------------------------------
     cPreferences
     --------------------------------------------------------------------- */

  class Preferences {
    var configFilename: String
    var gameVersion: nat
    var game: GamePrefs
    var video: VideoPrefs
    var audio: AudioPrefs
    var keyboard: KeyboardPrefs
    var joystick: JoystickPrefs
    var editor: EditorPrefs
    var levelBackgroundImages: bool
    var imageCacheEnabled: bool

    /** All settings as one value. */
    function Snapshot(): Record
      reads this
    {
      Record(gameVersion, game, video, audio, keyboard, joystick, editor,
             levelBackgroundImages, imageCacheEnabled)
    }

    /** `cPreferences()`: every setting at its default. `Reset_Video` and
        `Reset_Audio` also reset the engine's detail levels and volumes. */
    constructor (dev: Devices, tscVersion: nat)
      modifies dev`geometryQuality, dev`textureQuality, dev`musicVolume, dev`soundVolume
      ensures Snapshot() == DefaultRecord(tscVersion) && configFilename == []
      ensures dev.geometryQuality == DefaultGeometryQuality && dev.textureQuality == DefaultTextureQuality
      ensures dev.soundVolume == DefaultSoundVolume && dev.musicVolume == DefaultMusicVolume
    {
      configFilename := [];
      new;
      ResetAll(dev, tscVersion);
    }

    /** `Reset_All`: the current engine version, every group at its
        defaults, and background images and the image cache enabled. */
    method ResetAll(dev: Devices, tscVersion: nat)
      modifies this`gameVersion, this`game, this`video, this`audio, this`keyboard,
               this`joystick, this`editor, this`levelBackgroundImages, this`imageCacheEnabled
      modifies dev`geometryQuality, dev`textureQuality, dev`musicVolume, dev`soundVolume
      ensures Snapshot() == DefaultRecord(tscVersion)
      ensures dev.geometryQuality == DefaultGeometryQuality && dev.textureQuality == DefaultTextureQuality
      ensures dev.soundVolume == DefaultSoundVolume && dev.musicVolume == DefaultMusicVolume
    {
      gameVersion := tscVersion;
      ResetGame();
      ResetVideo(dev);
      ResetAudio(dev);
      ResetKeyboard();
      ResetJoystick();
      ResetEditor();
      levelBackgroundImages := true;
      imageCacheEnabled := true;
    }

    /** `Reset_Game`: no language, and the default run mode, menu level and
        camera speeds. */
    method ResetGame()
      modifies this`game
      ensures game == DefaultGame && game.language == []
    {
      game := GamePrefs([], false, "menu_brown_1", 0.3, 0.2);
    }

    /** `Reset_Video`: the default mode, and the default detail levels in the
        video subsystem. */
    method ResetVideo(dev: Devices)
      modifies this`video, dev`geometryQuality, dev`textureQuality
      ensures video == DefaultVideo
      ensures dev.geometryQuality == DefaultGeometryQuality && dev.textureQuality == DefaultTextureQuality
    {
      video := VideoPrefs(1024, 768, 32, false, 240, true);
      dev.geometryQuality := 0.5;
      dev.textureQuality := 0.75;
    }

    /** `Reset_Audio`: music and sound on at 44100 Hz, and the default
        volumes in the audio subsystem. */
    method ResetAudio(dev: Devices)
      modifies this`audio, dev`soundVolume, dev`musicVolume
      ensures audio == DefaultAudio
      ensures dev.soundVolume == DefaultSoundVolume && dev.musicVolume == DefaultMusicVolume
    {
      audio := AudioPrefs(true, true, 44100);
      dev.soundVolume := 100;
      dev.musicVolume := 80;
    }

    /** `Reset_Keyboard`: every key and the scroll speed at its default. */
    method ResetKeyboard()
      modifies this`keyboard
      ensures keyboard == DefaultKeyboard
      ensures forall k: Key :: k in keyboard.keys && keyboard.keys[k] == DefaultKeys[k]
    {
      keyboard := KeyboardPrefs(DefaultKeys, 1.0);
      forall k: Key ensures k in keyboard.keys {
        match k {
          case Up => case Down => case Left => case Right => case Jump => case Shoot =>
          case Item => case Action => case Screenshot =>
          case FastCopyUp => case FastCopyDown => case FastCopyLeft => case FastCopyRight =>
          case PixelMoveUp => case PixelMoveDown => case PixelMoveLeft => case PixelMoveRight =>
        }
      }
    }

    /** `Reset_Joystick`: the defaults, and no joystick name. */
    method ResetJoystick()
      modifies this`joystick
      ensures joystick == DefaultJoystick && joystick.name == []
    {
      joystick := JoystickPrefs(true, [], false, 0, 1, 10000, DefaultButtons);
    }

    /** `Reset_Editor`. */
    method ResetEditor()
      modifies this`editor
      ensures editor == DefaultEditor
    {
      editor := EditorPrefs(false, true, 50);
    }

    /** `Update`: the camera speeds and the audio switches are read back from
        the engine; the joystick name is the active joystick's, or empty when
        the default joystick is in use. */
    method Update(dev: Devices)
      modifies this`game, this`audio, this`joystick
      ensures game == old(game).(cameraHorSpeed := dev.cameraHorSpeed, cameraVerSpeed := dev.cameraVerSpeed)
      ensures audio == old(audio).(music := dev.musicEnabled, sound := dev.soundEnabled)
      ensures joystick == old(joystick).(name := if dev.currentJoystick > 0 then dev.joystickName else [])
      ensures dev.currentJoystick <= 0 ==> joystick.name == []
    {
      game := game.(cameraHorSpeed := dev.cameraHorSpeed, cameraVerSpeed := dev.cameraVerSpeed);
      audio := audio.(music := dev.musicEnabled, sound := dev.soundEnabled);
      if dev.currentJoystick > 0 {
        joystick := joystick.(name := dev.joystickName);
      } else {
        joystick := joystick.(name := []);
      }
    }

    /** `Apply`: the camera speeds go to the camera, and the joystick is
        disabled when its initialisation failed. */
    method Apply(dev: Devices)
      modifies dev`cameraHorSpeed, dev`cameraVerSpeed, this`joystick
      ensures dev.cameraHorSpeed == game.cameraHorSpeed && dev.cameraVerSpeed == game.cameraVerSpeed
      ensures joystick == if dev.joyInitFailed then old(joystick).(enabled := false) else old(joystick)
    {
      dev.cameraHorSpeed := game.cameraHorSpeed;
      dev.cameraVerSpeed := game.cameraVerSpeed;
      if dev.joyInitFailed {
        joystick := joystick.(enabled := false);
      }
    }

    /** `Apply_Video`: a full re-initialisation when a reload-relevant
        setting changes; otherwise only the geometry and the fullscreen mode
        are brought in line (`Toggle_Fullscreen` flips the stored mode). */
    method ApplyVideoSettings(dev: Devices, screenW: int, screenH: int, bpp: int, fullscreen: bool,
                              vsync: bool, geometry: real, texture: real,
                              floatEqual: (real, real) -> bool)
      modifies this`video, dev`geometryQuality, dev`textureQuality, dev`calls
      ensures var out := ApplyVideo(old(video), old(dev.geometryQuality), old(dev.textureQuality),
                                    VideoRequest(screenW, screenH, bpp, fullscreen, vsync, geometry, texture),
                                    floatEqual);
              && video == out.video && dev.geometryQuality == out.geometry
              && dev.textureQuality == out.texture && dev.calls == old(dev.calls) + out.calls
    {
      if video.screenW != screenW || video.screenH != screenH || video.bpp != bpp
         || video.vsync != vsync || !floatEqual(dev.textureQuality, texture) {
        video := video.(screenW := screenW, screenH := screenH, bpp := bpp, vsync := vsync,
                        fullscreen := fullscreen);
        dev.textureQuality := texture;
        dev.geometryQuality := geometry;
        dev.calls := dev.calls + [InitVideo(true)];
      } else {
        if !floatEqual(dev.geometryQuality, geometry) {
          dev.geometryQuality := geometry;
          dev.calls := dev.calls + [InitGeometry];
        }
        if video.fullscreen != fullscreen {
          video := video.(fullscreen := !video.fullscreen);
          dev.calls := dev.calls + [ToggleFullscreen];
        }
      }
    }

    /** `Apply_Audio`: when the audio initialisation failed, sound and music
        are both switched off and nothing is initialised; otherwise they take
        the requested values and the audio subsystem is initialised. */
    method ApplyAudio(dev: Devices, sound: bool, music: bool)
      modifies this`audio, dev`calls
      ensures dev.audioInitFailed ==> audio == old(audio).(sound := false, music := false)
                                      && dev.calls == old(dev.calls)
      ensures !dev.audioInitFailed ==> audio == old(audio).(sound := sound, music := music)
                                       && dev.calls == old(dev.calls) + [InitAudio]
    {
      if dev.audioInitFailed {
        audio := audio.(sound := false, music := false);
        return;
      }
      audio := audio.(sound := sound, music := music);
      dev.calls := dev.calls + [InitAudio];
    }
  }
}
