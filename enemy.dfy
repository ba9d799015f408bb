/** The state every enemy shares (tsc/src/enemies/enemy.cpp): being dead,
    being frozen, the savegame record, leaving the level, the dying
    animation and the walker velocity. Each enemy of the model holds one
    `Enemy` for this part of its state. */
module Enemies {
  import opened Common
  import opened GameTypes
  import opened PropertyHelper
  import opened SaveData

  /** The direction a saved number names, if it names one. */
  function DirectionOfNumber(n: int): (r: Option<Direction>)
    ensures r.Some? ==> DirectionNumber(r.value) == n
  {
    if n == -1 then Some(DirUndefined)
    else if n == 0 then Some(DirLeft)
    else if n == 1 then Some(DirRight)
    else if n == 2 then Some(DirUp)
    else if n == 3 then Some(DirDown)
    else if n == 4 then Some(DirTopLeft)
    else if n == 5 then Some(DirTopRight)
    else if n == 6 then Some(DirBottomLeft)
    else if n == 7 then Some(DirBottomRight)
    else if n == 21 then Some(DirLeftTop)
    else if n == 22 then Some(DirLeftBottom)
    else if n == 23 then Some(DirRightTop)
    else if n == 24 then Some(DirRightBottom)
    else if n == 10 then Some(DirHorizontal)
    else if n == 11 then Some(DirVertical)
    else if n == 20 then Some(DirAll)
    else if n == 100 then Some(DirFirst)
    else if n == 101 then Some(DirLast)
    else None
  }

  /** Every direction is read back from its own number. */
  lemma DirectionNumberRoundTrip(d: Direction)
    ensures DirectionOfNumber(DirectionNumber(d)) == Some(d)
    ensures IntMin <= DirectionNumber(d) <= IntMax
  {
  }

  /** What an enemy's savegame entry records of it. */
  datatype EnemySave = EnemySave(spriteType: int, startPos: (real, real), state: int, pos: (real, real),
                                 direction: Direction, vel: (real, real), active: bool, dead: bool)

  /** Whether the enemy is away from where the level placed it
      (`floatEqual` is `Is_Float_Equal`). */
  predicate Moved(e: EnemySave, floatEqual: (real, real) -> bool)
  {
    !floatEqual(e.startPos.0, e.pos.0) || !floatEqual(e.startPos.1, e.pos.1)
  }

  /** `Save_To_Savegame`: the start position, the state, the direction and
      the velocities always; the position only when it moved, `active`
      only when inactive and `dead` only when dead. Positions are cut to
      whole numbers; `floatText` is `float_to_string`. */
  function SavedProperties(e: EnemySave, floatText: real -> String, floatEqual: (real, real) -> bool): seq<(String, String)>
  {
    [("posx", IntToString(Truncate(e.startPos.0))), ("posy", IntToString(Truncate(e.startPos.1))),
     ("state", IntToString(e.state))]
    + (if Moved(e, floatEqual) then
         [("new_posx", IntToString(Truncate(e.pos.0))), ("new_posy", IntToString(Truncate(e.pos.1)))]
       else [])
    + [("direction", IntToString(DirectionNumber(e.direction))),
       ("velx", floatText(e.vel.0)), ("vely", floatText(e.vel.1))]
    + (if !e.active then [("active", IntToString(0))] else [])
    + (if e.dead then [("dead", IntToString(1))] else [])
  }

  /** `Load_From_Savegame`, value by value: each value present replaces
      the enemy's own; a direction number outside the enumeration is not
      taken. */
  function LoadedInt(props: seq<(String, String)>, key: String, v: int): int
  {
    var t := Lookup(props, key);
    if t.Some? then StringToInt(t.value) else v
  }

  function LoadedFlag(props: seq<(String, String)>, key: String, b: bool): bool
  {
    var t := Lookup(props, key);
    if t.Some? then StringToInt(t.value) > 0 else b
  }

  function LoadedReal(props: seq<(String, String)>, key: String, v: real, toFloat: String -> real): real
  {
    var t := Lookup(props, key);
    if t.Some? then toFloat(t.value) else v
  }

  function LoadedDirection(props: seq<(String, String)>, d: Direction): Direction
  {
    var t := Lookup(props, "direction");
    var dir := if t.Some? then DirectionOfNumber(StringToInt(t.value)) else None;
    if dir.Some? then dir.value else d
  }

  function LoadedEnemy(props: seq<(String, String)>, e: EnemySave, toFloat: String -> real): EnemySave
  {
    e.(state := LoadedInt(props, "state", e.state),
       pos := (LoadedReal(props, "new_posx", e.pos.0, toFloat), LoadedReal(props, "new_posy", e.pos.1, toFloat)),
       direction := LoadedDirection(props, e.direction),
       vel := (LoadedReal(props, "velx", e.vel.0, toFloat), LoadedReal(props, "vely", e.vel.1, toFloat)),
       active := LoadedFlag(props, "active", e.active),
       dead := LoadedFlag(props, "dead", e.dead))
  }

  /** A lookup in a list none of whose keys is `key` finds nothing. */
  lemma LookupMissing(pairs: seq<(String, String)>, key: String)
    requires forall i :: 0 <= i < |pairs| ==> pairs[i].0 != key
    ensures Lookup(pairs, key) == None
  {
  }

  /** The saved entry in its five parts: the head, the moved position,
      the middle, and the two flags. */
  function SavedHead(e: EnemySave): seq<(String, String)>
  {
    [("posx", IntToString(Truncate(e.startPos.0))), ("posy", IntToString(Truncate(e.startPos.1))),
     ("state", IntToString(e.state))]
  }

  function SavedMoved(e: EnemySave, floatEqual: (real, real) -> bool): seq<(String, String)>
  {
    if Moved(e, floatEqual) then
      [("new_posx", IntToString(Truncate(e.pos.0))), ("new_posy", IntToString(Truncate(e.pos.1)))]
    else []
  }

  function SavedMiddle(e: EnemySave, floatText: real -> String): seq<(String, String)>
  {
    [("direction", IntToString(DirectionNumber(e.direction))),
     ("velx", floatText(e.vel.0)), ("vely", floatText(e.vel.1))]
  }

  function SavedFlags(e: EnemySave): seq<(String, String)>
  {
    (if !e.active then [("active", IntToString(0))] else [])
    + (if e.dead then [("dead", IntToString(1))] else [])
  }

  /** Where in the saved entry each key is looked up. */
  lemma SavedLookup(e: EnemySave, floatText: real -> String, floatEqual: (real, real) -> bool, k: String)
    ensures var head := SavedHead(e);
      var moved := SavedMoved(e, floatEqual);
      var mid := SavedMiddle(e, floatText);
      var flags := SavedFlags(e);
      Lookup(SavedProperties(e, floatText, floatEqual), k)
        == if Lookup(head, k).Some? then Lookup(head, k)
           else if Lookup(moved, k).Some? then Lookup(moved, k)
           else if Lookup(mid, k).Some? then Lookup(mid, k)
           else Lookup(flags, k)
  {
    var head := SavedHead(e);
    var moved := SavedMoved(e, floatEqual);
    var mid := SavedMiddle(e, floatText);
    var flags := SavedFlags(e);
    var act: seq<(String, String)> := if !e.active then [("active", IntToString(0))] else [];
    var dead: seq<(String, String)> := if e.dead then [("dead", IntToString(1))] else [];
    assert flags == act + dead;
    assert SavedProperties(e, floatText, floatEqual) == head + (moved + (mid + flags));
    LookupAppend(head, moved + (mid + flags), k);
    LookupAppend(moved, mid + flags, k);
    LookupAppend(mid, flags, k);
  }

  /** The start position and the state are always written. */
  lemma SavedHeadKeys(e: EnemySave, floatText: real -> String, floatEqual: (real, real) -> bool)
    ensures var props := SavedProperties(e, floatText, floatEqual);
      && Lookup(props, "posx") == Some(IntToString(Truncate(e.startPos.0)))
      && Lookup(props, "posy") == Some(IntToString(Truncate(e.startPos.1)))
      && Lookup(props, "state") == Some(IntToString(e.state))
  {
    var head := SavedHead(e);
    assert "state"[0] != "posx"[0] && "state"[0] != "posy"[0];
    LookupFirst(head, "state", 2);
    SavedLookup(e, floatText, floatEqual, "posx");
    SavedLookup(e, floatText, floatEqual, "posy");
    SavedLookup(e, floatText, floatEqual, "state");
  }

  /** The direction and the velocities are always written. */
  lemma SavedMiddleKeys(e: EnemySave, floatText: real -> String, floatEqual: (real, real) -> bool)
    ensures var props := SavedProperties(e, floatText, floatEqual);
      && Lookup(props, "direction") == Some(IntToString(DirectionNumber(e.direction)))
      && Lookup(props, "velx") == Some(floatText(e.vel.0))
      && Lookup(props, "vely") == Some(floatText(e.vel.1))
  {
    var mid := SavedMiddle(e, floatText);
    assert "vely"[0] != "direction"[0] && "vely"[3] != "velx"[3];
    LookupFirst(mid, "vely", 2);
    LookupMissing(SavedHead(e), "direction");
    LookupMissing(SavedHead(e), "velx");
    LookupMissing(SavedHead(e), "vely");
    LookupMissing(SavedMoved(e, floatEqual), "direction");
    LookupMissing(SavedMoved(e, floatEqual), "velx");
    LookupMissing(SavedMoved(e, floatEqual), "vely");
    SavedLookup(e, floatText, floatEqual, "direction");
    SavedLookup(e, floatText, floatEqual, "velx");
    SavedLookup(e, floatText, floatEqual, "vely");
  }

  /** The position is written exactly when the enemy moved. */
  lemma SavedMovedKeys(e: EnemySave, floatText: real -> String, floatEqual: (real, real) -> bool)
    ensures var props := SavedProperties(e, floatText, floatEqual);
      && Lookup(props, "new_posx") == (if Moved(e, floatEqual) then Some(IntToString(Truncate(e.pos.0))) else None)
      && Lookup(props, "new_posy") == (if Moved(e, floatEqual) then Some(IntToString(Truncate(e.pos.1))) else None)
  {
    LookupMissing(SavedHead(e), "new_posx");
    LookupMissing(SavedHead(e), "new_posy");
    LookupMissing(SavedMiddle(e, floatText), "new_posx");
    LookupMissing(SavedMiddle(e, floatText), "new_posy");
    LookupMissing(SavedFlags(e), "new_posx");
    LookupMissing(SavedFlags(e), "new_posy");
    SavedLookup(e, floatText, floatEqual, "new_posx");
    SavedLookup(e, floatText, floatEqual, "new_posy");
  }

  /** `active` is written exactly when inactive, `dead` exactly when dead. */
  lemma SavedFlagKeys(e: EnemySave, floatText: real -> String, floatEqual: (real, real) -> bool)
    ensures var props := SavedProperties(e, floatText, floatEqual);
      && Lookup(props, "active") == (if e.active then None else Some(IntToString(0)))
      && Lookup(props, "dead") == (if e.dead then Some(IntToString(1)) else None)
  {
    LookupMissing(SavedHead(e), "active");
    LookupMissing(SavedHead(e), "dead");
    LookupMissing(SavedMoved(e, floatEqual), "active");
    LookupMissing(SavedMoved(e, floatEqual), "dead");
    LookupMissing(SavedMiddle(e, floatText), "active");
    LookupMissing(SavedMiddle(e, floatText), "dead");
    SavedLookup(e, floatText, floatEqual, "active");
    SavedLookup(e, floatText, floatEqual, "dead");
  }

  /** The keys of the common part of an enemy's savegame entry. */
  predicate CommonKey(k: String)
  {
    || k == "posx" || k == "posy" || k == "state" || k == "new_posx" || k == "new_posy"
    || k == "direction" || k == "velx" || k == "vely" || k == "active" || k == "dead"
  }

  /** The common part holds no key of its own beyond those, so an enemy
      may add its own keys after it. */
  lemma SavedLacks(e: EnemySave, floatText: real -> String, floatEqual: (real, real) -> bool, k: String)
    requires !CommonKey(k)
    ensures Lookup(SavedProperties(e, floatText, floatEqual), k) == None
  {
    LookupMissing(SavedHead(e), k);
    LookupMissing(SavedMoved(e, floatEqual), k);
    LookupMissing(SavedMiddle(e, floatText), k);
    LookupMissing(SavedFlags(e), k);
    SavedLookup(e, floatText, floatEqual, k);
  }

  /** A saved enemy, loaded into one freshly placed by the level (active,
      alive), comes back in the same state, facing the same way, as fast,
      as active and as dead as it was, and where it was (cut to whole
      numbers) when it had moved, whenever the number texts read back as
      the numbers they were written from. */
  lemma SaveLoadRoundTrip(e: EnemySave, placed: EnemySave, floatText: real -> String,
                          floatEqual: (real, real) -> bool, toFloat: String -> real)
    requires IntMin <= e.state <= IntMax
    requires toFloat(IntToString(Truncate(e.pos.0))) == Truncate(e.pos.0) as real
    requires toFloat(IntToString(Truncate(e.pos.1))) == Truncate(e.pos.1) as real
    requires toFloat(floatText(e.vel.0)) == e.vel.0 && toFloat(floatText(e.vel.1)) == e.vel.1
    requires placed.active && !placed.dead
    ensures var l := LoadedEnemy(SavedProperties(e, floatText, floatEqual), placed, toFloat);
      && l.state == e.state && l.direction == e.direction && l.vel == e.vel
      && l.active == e.active && l.dead == e.dead
      && l.pos == (if Moved(e, floatEqual) then (Truncate(e.pos.0) as real, Truncate(e.pos.1) as real) else placed.pos)
      && l.spriteType == placed.spriteType && l.startPos == placed.startPos
  {
    SavedHeadKeys(e, floatText, floatEqual);
    SavedMiddleKeys(e, floatText, floatEqual);
    SavedMovedKeys(e, floatText, floatEqual);
    SavedFlagKeys(e, floatText, floatEqual);
    StringToIntOfInt(e.state);
    DirectionNumberRoundTrip(e.direction);
    StringToIntOfInt(DirectionNumber(e.direction));
    StringToIntOfNat(0);
    StringToIntOfNat(1);
  }

  /** Whether a saved entry records the moving state `s`. */
  predicate SavedInState(props: seq<(String, String)>, s: int)
  {
    var t := Lookup(props, "state");
    t.Some? && StringToInt(t.value) == s
  }

  /** The moving state a saved entry records is read back as itself,
      and as no other. */
  lemma SavedInStateOfSaved(e: EnemySave, floatText: real -> String, floatEqual: (real, real) -> bool, s: int)
    requires IntMin <= e.state <= IntMax
    ensures SavedInState(SavedProperties(e, floatText, floatEqual), s) <==> e.state == s
  {
    SavedHeadKeys(e, floatText, floatEqual);
    StringToIntOfInt(e.state);
  }

  /** A count read from the level that may not be negative (the
      `Set_Max_…_Count` setters of the bosses): a negative one is taken as
      0. */
  function ClampedCount(n: int): (r: int)
    ensures r >= 0 && (n >= 0 ==> r == n)
    ensures n < 0 ==> r == 0
  {
    if n < 0 then 0 else n
  }

  /** The death test of a boss's `DownGrade` as written (turtle boss and
      furball boss alike): the boss dies when the downgrades it has taken
      EQUAL the most it takes. */
  predicate RoundKillsAsWritten(downgrades: int, maxDowngrades: int)
  {
    downgrades == maxDowngrades
  }

  /** The death test as meant: the boss dies once the downgrades it has
      taken reach the most it takes. */
  predicate RoundKills(downgrades: int, maxDowngrades: int)
  {
    downgrades >= maxDowngrades
  }

  /** What one downgrade does to an enemy: nothing, a new moving state, or
      death (turned over when it is a falling death). */
  datatype Downgrade = Unhurt | Becomes(state: int) | Dies(falling: bool)

  /** What touching the player does to it: nothing, the player bouncing
      off unhurt with the enemy unhurt too, a stomp worth `points` to the
      player, or the player hurt. */
  datatype PlayerContact = NoContact | Bounced | Stomped(points: int) | HurtsPlayer

  /** What a shell (or a rolling boss) needs to know of the enemy it runs
      into: its type, whether it is dead, whether shells can hit it, its
      points, and, for another army, its colour and moving state. */
  datatype ShellTarget = ShellTarget(spriteType: int, dead: bool, canBeHitFromShell: bool, killPoints: int,
                                     color: DefaultColor, state: int)

  /** `Add_Velocity_X_Max` and `Add_Velocity_X_Min` of the moving sprite
      (whose source is not part of this model): `acc` per frame added, up
      to `max` or down to `min`. */
  function Gain(acc: real, sf: real): real
  {
    acc * sf
  }

  function AddVelocityMax(v: real, acc: real, max: real, sf: real): real
  {
    if v + Gain(acc, sf) > max then max else v + Gain(acc, sf)
  }

  function AddVelocityMin(v: real, acc: real, min: real, sf: real): real
  {
    if v + Gain(acc, sf) < min then min else v + Gain(acc, sf)
  }

  /** `Update_Velocity` of a walker: the horizontal velocity moves towards
      the maximum in the walking direction by the gain per frame. */
  function WalkVelocity(d: Direction, velx: real, max: real, gain: real, sf: real): real
  {
    if d == DirRight then
      if velx < max then AddVelocityMax(velx, gain, max, sf)
      else if velx > max then AddVelocityMin(velx, -gain, max, sf)
      else velx
    else if d == DirLeft then
      if velx > -max then AddVelocityMin(velx, -gain, -max, sf)
      else if velx < -max then AddVelocityMax(velx, gain, -max, sf)
      else velx
    else velx
  }

  /** A walker's velocity moves towards its walking speed and never past
      it; facing neither left nor right it keeps its velocity. */
  lemma WalkVelocityApproaches(d: Direction, velx: real, max: real, gain: real, sf: real)
    requires gain >= 0.0 && sf >= 0.0
    ensures var target := if d == DirRight then max else -max;
      var r := WalkVelocity(d, velx, max, gain, sf);
      && (d in {DirLeft, DirRight} ==>
            (velx <= target ==> velx <= r <= target) && (velx >= target ==> target <= r <= velx))
      && (d !in {DirLeft, DirRight} ==> r == velx)
  {
    assert Gain(gain, sf) >= 0.0 && Gain(-gain, sf) <= 0.0 by {
      assert Gain(-gain, sf) == -Gain(gain, sf);
    }
  }

  /** The state of the dying animation: its counter, the scale, the
      rotation (180 after a falling death), the height and whether the
      enemy is still shown. */
  datatype Dying = Dying(counter: real, scale: (real, real), rotZ: real, posY: real, active: bool)

  /** The scale lost per frame while dying normally. */
  function Shrink(sf: real): real
  {
    sf * 0.05
  }

  /** One frame of `Update_Dying`: the counter grows; an enemy turned over
      by a falling death (`Update_Instant_Dying`) rises for the first five
      counts, then falls until its collision rectangle reaches the bottom
      of the camera limits (`belowLimit`), then is hidden; any other shrinks
      (`Update_Normal_Dying`) until it is hidden at full scale. Moving is
      scaled by the frame's speed factor. */
  function DyingStep(d: Dying, sf: real, belowLimit: bool): (r: Dying)
  {
    var c := d.(counter := d.counter + sf);
    if c.rotZ == 180.0 then
      if c.counter < 5.0 then c.(posY := c.posY - 5.0 * sf)
      else if !belowLimit then c.(posY := c.posY + 20.0 * sf)
      else c.(rotZ := 0.0, active := false)
    else
      var s := (c.scale.0 - Shrink(sf) * 0.5, c.scale.1 - Shrink(sf));
      if s.1 < 0.01 then c.(scale := (1.0, 1.0), active := false)
      else c.(scale := s)
  }

  /** `n` frames of normal dying, for as long as the enemy is shown. */
  function NormalDyingFrames(d: Dying, sf: real, n: nat): Dying
    decreases n
  {
    if n == 0 || !d.active then d
    else NormalDyingFrames(DyingStep(d, sf, false), sf, n - 1)
  }

  /** A normally dying enemy is hidden once enough frames have shrunk it
      below a hundredth of its height, and is then back at full scale. */
  lemma {:induction false} NormalDyingEnds(d: Dying, sf: real, n: nat)
    requires d.rotZ != 180.0 && sf > 0.0 && n > 0
    requires n as real * Shrink(sf) > d.scale.1 - 0.01
    ensures !NormalDyingFrames(d, sf, n).active
    ensures NormalDyingFrames(d, sf, n).scale == (if d.active then (1.0, 1.0) else d.scale)
    decreases n
  {
    if d.active {
      var d1 := DyingStep(d, sf, false);
      if d1.active {
        assert d1.scale.1 == d.scale.1 - Shrink(sf) >= 0.01;
        assert (n as real - 1.0) * Shrink(sf) > 0.0;
        assert (n - 1) as real * Shrink(sf) == n as real * Shrink(sf) - Shrink(sf);
        NormalDyingEnds(d1, sf, n - 1);
      }
    }
  }

  /** The part of an enemy's state the enemy base class keeps. */
  class Enemy {
    var spriteType: int
    /** `m_state`, a Moving_state number */
    var state: int
    var dead: bool
    var active: bool
    var canBeGround: bool
    var massive: MassiveType
    var freezeCounter: real
    var direction: Direction
    var startDirection: Direction
    var pos: (real, real)
    var startPos: (real, real)
    var vel: (real, real)
    var velxMax: real
    var velxGain: real
    var killPoints: int
    var fireResistant: bool
    var canBeHitFromShell: bool
    /** the counter each enemy uses for its own timing */
    var counter: real
    var dyingCounter: real
    var scale: (real, real)
    var rotZ: real
    /** the die events fired for scripts */
    var dieEvents: nat

    function Saved(): EnemySave
      reads this
    {
      EnemySave(spriteType, startPos, state, pos, direction, vel, active, dead)
    }

    function DyingState(): Dying
      reads this
    {
      Dying(dyingCounter, scale, rotZ, pos.1, active)
    }

    /** `cEnemy()`: a massive, falling, living enemy worth 10 points. */
    constructor ()
      ensures spriteType == TypeEnemy && massive == MassMassive && state == StaFall
      ensures canBeGround && !dead && active && counter == 0.0 && dyingCounter == 0.0 && freezeCounter == 0.0
      ensures killPoints == 10 && velxMax == 0.0 && velxGain == 0.0 && !fireResistant && canBeHitFromShell
      ensures vel == (0.0, 0.0) && scale == (1.0, 1.0) && rotZ == 0.0 && dieEvents == 0
      ensures direction == DirUndefined && startDirection == DirUndefined
      ensures pos == (0.0, 0.0) && startPos == (0.0, 0.0)
    {
      spriteType := TypeEnemy;
      state := StaFall;
      dead := false;
      active := true;
      canBeGround := true;
      massive := MassMassive;
      freezeCounter := 0.0;
      direction := DirUndefined;
      startDirection := DirUndefined;
      pos := (0.0, 0.0);
      startPos := (0.0, 0.0);
      vel := (0.0, 0.0);
      velxMax := 0.0;
      velxGain := 0.0;
      killPoints := 10;
      fireResistant := false;
      canBeHitFromShell := true;
      counter := 0.0;
      dyingCounter := 0.0;
      scale := (1.0, 1.0);
      rotZ := 0.0;
      dieEvents := 0;
    }

    /** `Is_Update_Valid`: neither dead nor frozen. */
    predicate IsUpdateValid()
      reads this`dead, this`freezeCounter
    {
      !dead && freezeCounter == 0.0
    }

    /** `Set_Dead`: a dead enemy, or one brought back, can no longer be
        stood on; dying fires the die event. */
    method SetDead(enable: bool)
      modifies this`dead, this`canBeGround, this`dieEvents
      ensures dead == enable && !canBeGround
      ensures dieEvents == old(dieEvents) + (if enable then 1 else 0)
      ensures enable ==> !IsUpdateValid()
    {
      dead := enable;
      canBeGround := false;
      if dead {
        dieEvents := dieEvents + 1;
      }
    }

    /** What every `DownGrade` does last once the enemy is dead: it no
        longer blocks and stops. */
    method StopIfDead()
      modifies this`massive, this`vel
      ensures dead ==> massive == MassPassive && vel == (0.0, 0.0)
      ensures !dead ==> massive == old(massive) && vel == old(vel)
    {
      if dead {
        massive := MassPassive;
        vel := (0.0, 0.0);
      }
    }

    /** `Set_Direction` of the moving sprite (whose source is not part of
        this model): the direction, and the start direction when asked. */
    method SetDirection(dir: Direction, newStart: bool)
      modifies this`direction, this`startDirection
      ensures direction == dir
      ensures startDirection == if newStart then dir else old(startDirection)
    {
      direction := dir;
      if newStart {
        startDirection := dir;
      }
    }

    /** `Turn_Around` of the moving sprite, as this model takes it: the
        opposite direction, and the velocity along it reversed. */
    method TurnAround()
      modifies this`direction, this`vel
      ensures direction == OppositeDirection(old(direction))
      ensures old(direction) in {DirLeft, DirRight} ==> vel == (-old(vel.0), old(vel.1))
      ensures old(direction) in {DirUp, DirDown} ==> vel == (old(vel.0), -old(vel.1))
      ensures old(direction) !in {DirLeft, DirRight, DirUp, DirDown} ==> vel == old(vel)
    {
      if direction in {DirLeft, DirRight} {
        vel := (-vel.0, vel.1);
      } else if direction in {DirUp, DirDown} {
        vel := (vel.0, -vel.1);
      }
      direction := OppositeDirection(direction);
    }

    /** `Handle_out_of_Level`: falling out at the bottom asks for a forced
        downgrade (which the enemy itself carries out); leaving at the left
        or right puts the collision rectangle back just inside the camera
        limits and turns the enemy around. */
    method HandleOutOfLevel(dir: Direction, limitX: real, limitW: real, colPosX: real, colW: real)
      returns (forceDowngrade: bool)
      modifies this`pos, this`direction, this`vel
      ensures forceDowngrade <==> dir == DirDown
      ensures dir == DirLeft ==> pos == (limitX - colPosX, old(pos.1)) && direction == OppositeDirection(old(direction))
      ensures dir == DirRight ==> pos == (limitX + limitW - colPosX - colW - 0.01, old(pos.1))
                                  && direction == OppositeDirection(old(direction))
      ensures dir !in {DirLeft, DirRight} ==> pos == old(pos) && direction == old(direction) && vel == old(vel)
    {
      forceDowngrade := dir == DirDown;
      if dir == DirLeft {
        pos := (limitX - colPosX, pos.1);
      } else if dir == DirRight {
        pos := (limitX + limitW - colPosX - colW - 0.01, pos.1);
      }
      if dir == DirLeft || dir == DirRight {
        TurnAround();
      }
    }

    /** `Update_Velocity` for walkers. */
    method UpdateVelocity(sf: real)
      modifies this`vel
      ensures vel == (WalkVelocity(direction, old(vel.0), velxMax, velxGain, sf), old(vel.1))
    {
      if direction == DirRight {
        if vel.0 < velxMax {
          vel := (AddVelocityMax(vel.0, velxGain, velxMax, sf), vel.1);
        } else if vel.0 > velxMax {
          vel := (AddVelocityMin(vel.0, -velxGain, velxMax, sf), vel.1);
        }
      } else if direction == DirLeft {
        if vel.0 > -velxMax {
          vel := (AddVelocityMin(vel.0, -velxGain, -velxMax, sf), vel.1);
        } else if vel.0 < -velxMax {
          vel := (AddVelocityMax(vel.0, velxGain, -velxMax, sf), vel.1);
        }
      }
    }

    /** `Update_Dying`, run by `Update` for a dead enemy still shown;
        `belowLimit` is whether the collision rectangle has reached the
        bottom of the camera limits. */
    method UpdateDying(sf: real, belowLimit: bool)
      modifies this`dyingCounter, this`scale, this`rotZ, this`pos, this`active
      ensures DyingState() == DyingStep(old(DyingState()), sf, belowLimit)
      ensures pos.0 == old(pos.0)
    {
      dyingCounter := dyingCounter + sf;
      if rotZ == 180.0 {
        if dyingCounter < 5.0 {
          pos := (pos.0, pos.1 - 5.0 * sf);
        } else if !belowLimit {
          pos := (pos.0, pos.1 + 20.0 * sf);
        } else {
          rotZ := 0.0;
          active := false;
        }
      } else {
        var s := (scale.0 - Shrink(sf) * 0.5, scale.1 - Shrink(sf));
        if s.1 < 0.01 {
          scale := (1.0, 1.0);
          active := false;
        } else {
          scale := s;
        }
      }
    }

    /** `Save_To_Savegame`. */
    function SaveToSavegame(floatText: real -> String, floatEqual: (real, real) -> bool): (r: SaveLevelObject)
      reads this
      ensures r.spriteType == spriteType
    {
      SaveLevelObject(spriteType, SavedProperties(Saved(), floatText, floatEqual))
    }

    /** The state and position part of `Load_From_Savegame`. */
    method LoadPosition(props: seq<(String, String)>, toFloat: String -> real)
      modifies this`state, this`pos
      ensures state == LoadedInt(props, "state", old(state))
      ensures pos == (LoadedReal(props, "new_posx", old(pos.0), toFloat), LoadedReal(props, "new_posy", old(pos.1), toFloat))
    {
      var st := Lookup(props, "state");
      if st.Some? {
        state := StringToInt(st.value);
      }
      var x := Lookup(props, "new_posx");
      if x.Some? {
        pos := (toFloat(x.value), pos.1);
      }
      var y := Lookup(props, "new_posy");
      if y.Some? {
        pos := (pos.0, toFloat(y.value));
      }
    }

    /** The direction and velocity part of `Load_From_Savegame`. */
    method LoadMotion(props: seq<(String, String)>, toFloat: String -> real)
      modifies this`direction, this`vel
      ensures direction == LoadedDirection(props, old(direction))
      ensures vel == (LoadedReal(props, "velx", old(vel.0), toFloat), LoadedReal(props, "vely", old(vel.1), toFloat))
    {
      var d := Lookup(props, "direction");
      if d.Some? {
        var dir := DirectionOfNumber(StringToInt(d.value));
        if dir.Some? {
          direction := dir.value;
        }
      }
      var vx := Lookup(props, "velx");
      if vx.Some? {
        vel := (toFloat(vx.value), vel.1);
      }
      var vy := Lookup(props, "vely");
      if vy.Some? {
        vel := (vel.0, toFloat(vy.value));
      }
    }

    /** The flags part of `Load_From_Savegame`: a saved death goes
        through `Set_Dead`. */
    method LoadFlags(props: seq<(String, String)>)
      modifies this`active, this`dead, this`canBeGround, this`dieEvents
      ensures active == LoadedFlag(props, "active", old(active))
      ensures dead == LoadedFlag(props, "dead", old(dead))
      ensures Lookup(props, "dead").Some? ==> !canBeGround
      ensures Lookup(props, "dead").None? ==> canBeGround == old(canBeGround) && dieEvents == old(dieEvents)
    {
      var a := Lookup(props, "active");
      if a.Some? {
        active := StringToInt(a.value) > 0;
      }
      var dd := Lookup(props, "dead");
      if dd.Some? {
        SetDead(StringToInt(dd.value) > 0);
      }
    }

    /** `Load_From_Savegame`: the values present replace the enemy's own. */
    method LoadFromSavegame(props: seq<(String, String)>, toFloat: String -> real)
      modifies this`state, this`pos, this`direction, this`vel, this`active, this`dead, this`canBeGround, this`dieEvents
      ensures Saved() == LoadedEnemy(props, old(Saved()), toFloat)
      ensures Lookup(props, "dead").Some? ==> !canBeGround
      ensures Lookup(props, "dead").None? ==> canBeGround == old(canBeGround) && dieEvents == old(dieEvents)
    {
      LoadPosition(props, toFloat);
      LoadMotion(props, toFloat);
      LoadFlags(props);
    }
  }
}
