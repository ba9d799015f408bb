/** The engine-wide enumerations of the game core (directions, colours,
    massivity, ground and land types, game modes and actions, array and
    collision-validation types), one datatype per C++ enum. */
module GameTypes {

  /** ObjectDirection. DIR_TOP/DIR_BOTTOM and the DIR_UP_LEFT style names are
      aliases of the values below and have no constructor of their own. */
  datatype Direction =
    | DirUndefined | DirLeft | DirRight | DirUp | DirDown
    | DirTopLeft | DirTopRight | DirBottomLeft | DirBottomRight
    | DirLeftTop | DirLeftBottom | DirRightTop | DirRightBottom
    | DirHorizontal | DirVertical | DirAll | DirFirst | DirLast

  /** The number of each direction in the ObjectDirection enumeration. */
  function DirectionNumber(d: Direction): int
  {
    match d
    case DirUndefined => -1
    case DirLeft => 0
    case DirRight => 1
    case DirUp => 2
    case DirDown => 3
    case DirTopLeft => 4
    case DirTopRight => 5
    case DirBottomLeft => 6
    case DirBottomRight => 7
    case DirLeftTop => 21
    case DirLeftBottom => 22
    case DirRightTop => 23
    case DirRightBottom => 24
    case DirHorizontal => 10
    case DirVertical => 11
    case DirAll => 20
    case DirFirst => 100
    case DirLast => 101
  }

  /** MassiveType of a sprite. */
  datatype MassiveType = MassPassive | MassMassive | MassHalfmassive | MassClimbable | MassFrontPassive

  /** DefaultColor. */
  datatype DefaultColor =
    | ColDefault | ColWhite | ColBlack | ColRed | ColOrange | ColYellow
    | ColGreen | ColBlue | ColBrown | ColGrey | ColViolet

  /** GroundType. */
  datatype GroundType = GroundNormal | GroundEarth | GroundIce | GroundSand | GroundStone | GroundPlastic

  /** LevelLandType (without the LLT_LAST sentinel). */
  datatype LevelLandType =
    | LltUndefined | LltGreen | LltJungle | LltIce | LltSnow | LltWater | LltCandy
    | LltDesert | LltSand | LltCastle | LltUnderground | LltCrystal | LltGhost
    | LltMushroom | LltSky | LltPlastic

  /** GameMode. */
  datatype GameMode = ModeNothing | ModeLevel | ModeOverworld | ModeMenu | ModeLevelSettings

  /** GameAction. */
  datatype GameAction =
    | GaNone | GaEnterMenu | GaEnterWorld | GaEnterLevel | GaDowngradePlayer
    | GaActivateLevelExit | GaEnterLevelSettings | GaReset

  /** ArrayType: how a sprite behaves in collisions. */
  datatype ArrayType =
    | ArrayUndefined | ArrayMassive | ArrayPassive | ArrayEnemy | ArrayActive
    | ArrayHud | ArrayAnim | ArrayPlayer | ArrayLava

  /** Col_Valid_Type: the answer of a collision validation. */
  datatype ColValidType = ColVtypeNotValid | ColVtypeInternal | ColVtypeBlocking | ColVtypeNotPossible

  /** What a collision validation reads of the other sprite: its type, its
      massivity, its array, and whether the validating sprite stands on top
      of it (`Is_On_Top`). */
  datatype CollisionPartner = CollisionPartner(spriteType: int, massive: MassiveType, arrayType: ArrayType, onTop: bool)

  /** The frame rate that all per-frame counters are scaled to. */
  const SpeedfactorFps: int := 32

  /** TSC_VERSION_NUM(X, Y, Z). */
  function VersionNum(x: int, y: int, z: int): int
  {
    x * 10000 + y * 100 + z
  }

  /* SpriteType codes of the items and enemies the model refers to; a
     sprite type is kept as its number, as the engine casts it. */
  const TypeUndefined := 0
  const TypePlayer := 3
  const TypeGoldpiece := 8
  const TypeFurball := 10
  const TypeArmy := 19
  const TypeJumpingGoldpiece := 22
  const TypePowerup := 23
  const TypeFireplant := 24
  const TypeMushroomDefault := 25
  const TypeBall := 28
  const TypeMushroomLive1 := 35
  const TypeMoon := 37
  const TypeStar := 39
  const TypeFallingGoldpiece := 48
  const TypeMushroomPoison := 49
  const TypeMushroomBlue := 51
  const TypeMushroomGhost := 52
  const TypeEnemy := 2
  const TypeEnemyStopper := 20
  const TypeFlyon := 29
  const TypeRokko := 30
  const TypeKrush := 36
  const TypeThromp := 41
  const TypeGee := 43
  const TypeSpikeball := 64
  const TypePip := 67
  const TypeCrate := 71
  const TypeLarry := 72
  const TypeTurtleBoss := 56
  const TypeFurballBoss := 62
  const TypeShell := 70
  const TypeSpika := 31
  const TypeStaticEnemy := 50

  /* Moving_state of a moving sprite, kept as its number as the engine
     saves it. */
  const StaFall := 0
  const StaStay := 1
  const StaWalk := 2
  const StaRun := 3
  const StaFly := 4
  const StaJump := 5
  const StaClimb := 6
  const StaObjLinked := 7
}
