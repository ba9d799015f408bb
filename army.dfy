/** The armadillo (tsc/src/enemies/army.cpp): a walker that a stomp rolls
    into a shell; a standing shell is kicked into a rolling one, which
    kills the enemies it runs into, and a shell left alone stands up
    again. */
module Armies {
  import opened Common
  import opened GameTypes
  import opened PropertyHelper
  import opened Enemies
  import opened SaveData

  /** `Army_state` (its header is not part of this model; the numbers are
      taken in the order the turtle boss's own state enumeration has). */
  const ArmyDead := 0
  const ArmyWalk := 1
  const ArmyShellStand := 2
  const ArmyShellRun := 3

  predicate ShellState(s: int)
  {
    s == ArmyShellStand || s == ArmyShellRun
  }

  /** `DownGrade`: a stomp rolls a walking armadillo into a standing
      shell, kicks a standing shell into a rolling one and stops a rolling
      one; a forced downgrade kills it (without turning it over). */
  function ArmyDownGrade(armyState: int, force: bool): Downgrade
  {
    if force then Dies(false)
    else if armyState == ArmyWalk then Becomes(ArmyShellStand)
    else if armyState == ArmyShellStand then Becomes(ArmyShellRun)
    else if armyState == ArmyShellRun then Becomes(ArmyShellStand)
    else Unhurt
  }

  /** Only a forced downgrade kills an armadillo; stomps keep a shell a
      shell, and two stomps bring a shell back to the state it was in. */
  lemma ArmyShellCycle(s: int, force: bool)
    ensures ArmyDownGrade(s, force).Dies? <==> force
    ensures !force && s == ArmyWalk ==> ArmyDownGrade(s, force) == Becomes(ArmyShellStand)
    ensures !force && ShellState(s) ==>
      (ShellState(ArmyDownGrade(s, force).state)
       && ArmyDownGrade(ArmyDownGrade(s, force).state, false) == Becomes(s))
    ensures !force && s !in {ArmyWalk, ArmyShellStand, ArmyShellRun} ==> ArmyDownGrade(s, force) == Unhurt
  {
  }

  /** `Update_Velocity_Max`: the most speed and the gain per frame of an
      armadillo in state `armyState` and colour `color`, from `current`
      when neither colour nor state brings one. */
  function ArmySpeed(armyState: int, color: DefaultColor, current: (real, real)): (real, real)
  {
    if armyState == ArmyWalk then
      (if color == ColRed then (3.6, 0.2) else if color == ColGreen then (4.5, 0.3) else current)
    else if armyState == ArmyShellStand then (0.0, 0.0)
    else if armyState == ArmyShellRun then
      (if color == ColRed then (14.0, 0.8) else if color == ColGreen then (17.0, 1.2) else current)
    else current
  }

  /** A green armadillo is faster than a red one, a rolling shell faster
      than a walker of its colour, and a standing shell does not move. */
  lemma ArmySpeedOrder(current: (real, real))
    ensures ArmySpeed(ArmyWalk, ColRed, current).0 < ArmySpeed(ArmyWalk, ColGreen, current).0
    ensures ArmySpeed(ArmyShellRun, ColRed, current).0 < ArmySpeed(ArmyShellRun, ColGreen, current).0
    ensures forall c :: c in {ColRed, ColGreen} ==>
      ArmySpeed(ArmyWalk, c, current).0 < ArmySpeed(ArmyShellRun, c, current).0
    ensures forall c :: ArmySpeed(ArmyShellStand, c, current) == (0.0, 0.0)
  {
  }

  /** The moving state and camera range each army state brings. */
  function ArmyMovingState(s: int): int
  {
    if s == ArmyWalk then StaWalk else if s == ArmyShellStand then StaStay else StaRun
  }

  function ArmyCameraRange(s: int): int
  {
    if s == ArmyWalk then 1500 else if s == ArmyShellStand then 2000 else 5000
  }

  /** The fall of a dying armadillo in a frame, from its dying counter:
      first up, then down ever faster, at most 25. */
  function DyingFall(counter: real): real
  {
    if counter < 10.0 then -counter else if counter > 25.0 then 25.0 else counter
  }

  /** A dying armadillo rises for its first 10 counts and then falls, never
      faster than 25 a frame. */
  lemma DyingFallBounds(counter: real)
    requires counter >= 0.0
    ensures -10.0 < DyingFall(counter) <= 25.0
    ensures DyingFall(counter) <= 0.0 <==> counter < 10.0
  {
  }

  /** `Save_To_Savegame`: the common entry, and the army state unless the
      armadillo walks. */
  function ArmySavedProperties(e: EnemySave, armyState: int, floatText: real -> String,
                               floatEqual: (real, real) -> bool): seq<(String, String)>
  {
    SavedProperties(e, floatText, floatEqual)
    + (if armyState != ArmyWalk then [("army_state", IntToString(armyState))] else [])
  }

  /** The army part of `Load_From_Savegame` (`linked` is whether the
      loaded moving state is the linked one, when the player holds the
      shell): a saved shell state is taken, unless the shell is held;
      anything else keeps `current`. */
  function LoadedArmyState(props: seq<(String, String)>, linked: bool, current: int): int
  {
    var t := Lookup(props, "army_state");
    if t.Some? && !linked && ShellState(StringToInt(t.value)) then StringToInt(t.value) else current
  }

  /** A saved shell comes back as the shell it was, unless it was held;
      a saved walker, or a held shell, keeps the state the level placed
      it in. */
  lemma ArmySaveLoadRoundTrip(e: EnemySave, armyState: int, floatText: real -> String,
                              floatEqual: (real, real) -> bool, placed: int)
    requires 0 <= armyState <= IntMax
    ensures var props := ArmySavedProperties(e, armyState, floatText, floatEqual);
      LoadedArmyState(props, e.state == StaObjLinked, placed)
        == if ShellState(armyState) && e.state != StaObjLinked then armyState else placed
  {
    var own := if armyState != ArmyWalk then [("army_state", IntToString(armyState))] else [];
    SavedLacks(e, floatText, floatEqual, "army_state");
    LookupAppend(SavedProperties(e, floatText, floatEqual), own, "army_state");
    StringToIntOfNat(armyState);
  }

  class Army {
    const enemy: Enemy
    /** `m_army_state` */
    var armyState: int
    /** `m_color_type` */
    var color: DefaultColor
    /** `m_camera_range` */
    var cameraRange: int

    /** `Init`: a red armadillo walking to the right, worth 50 points. */
    constructor ()
      ensures fresh(enemy) && enemy.spriteType == TypeArmy && armyState == ArmyWalk && color == ColRed
      ensures enemy.state == StaWalk && cameraRange == 1500 && enemy.killPoints == 50
      ensures enemy.velxMax == 3.6 && enemy.velxGain == 0.2
      ensures enemy.direction == DirRight && enemy.startDirection == DirRight
      ensures !enemy.dead && enemy.active && enemy.massive == MassMassive
    {
      enemy := new Enemy();
      armyState := ArmyDead;
      color := ColDefault;
      cameraRange := 0;
      new;
      enemy.spriteType := TypeArmy;
      SetColor(ColRed);
      SetArmyMovingState(ArmyWalk);
      SetDirection(DirRight, true);
    }

    /** `Is_Update_Valid`: neither dead, nor frozen, nor held. */
    predicate IsUpdateValid()
      reads this, enemy
    {
      enemy.IsUpdateValid() && enemy.state != StaObjLinked
    }

    /** `Update_Velocity_Max`, as `ArmySpeed` says. */
    method UpdateVelocityMax()
      modifies enemy`velxMax, enemy`velxGain
      ensures (enemy.velxMax, enemy.velxGain) == ArmySpeed(armyState, color, old((enemy.velxMax, enemy.velxGain)))
    {
      if armyState == ArmyWalk {
        if color == ColRed {
          enemy.velxMax, enemy.velxGain := 3.6, 0.2;
        } else if color == ColGreen {
          enemy.velxMax, enemy.velxGain := 4.5, 0.3;
        }
      } else if armyState == ArmyShellStand {
        enemy.velxMax, enemy.velxGain := 0.0, 0.0;
      } else if armyState == ArmyShellRun {
        if color == ColRed {
          enemy.velxMax, enemy.velxGain := 14.0, 0.8;
        } else if color == ColGreen {
          enemy.velxMax, enemy.velxGain := 17.0, 1.2;
        }
      }
    }

    /** `Set_Direction`: only left and right are taken. */
    method SetDirection(dir: Direction, newStart: bool)
      modifies enemy`direction, enemy`startDirection
      ensures dir in {DirLeft, DirRight} ==>
        enemy.direction == dir && enemy.startDirection == (if newStart then dir else old(enemy.startDirection))
      ensures dir !in {DirLeft, DirRight} ==>
        enemy.direction == old(enemy.direction) && enemy.startDirection == old(enemy.startDirection)
    {
      if dir != DirRight && dir != DirLeft {
        return;
      }
      enemy.SetDirection(dir, newStart);
    }

    /** `Set_Color`: the same colour changes nothing; red is worth 50
        points, green 150, another colour is taken but keeps the points;
        the speed follows the colour. */
    method SetColor(col: DefaultColor)
      modifies this`color, enemy`killPoints, enemy`velxMax, enemy`velxGain
      ensures color == col
      ensures old(color) == col ==>
        (enemy.killPoints == old(enemy.killPoints) && enemy.velxMax == old(enemy.velxMax)
         && enemy.velxGain == old(enemy.velxGain))
      ensures old(color) != col ==>
        (enemy.killPoints == (if col == ColRed then 50 else if col == ColGreen then 150 else old(enemy.killPoints))
         && (enemy.velxMax, enemy.velxGain) == ArmySpeed(armyState, col, old((enemy.velxMax, enemy.velxGain))))
    {
      if color == col {
        return;
      }
      color := col;
      if color == ColRed {
        enemy.killPoints := 50;
      } else if color == ColGreen {
        enemy.killPoints := 150;
      }
      UpdateVelocityMax();
    }

    /** `Set_Army_Moving_State`: the same state changes nothing; walking,
        a standing shell and a rolling shell each bring their moving state
        and camera range and an upright image; the speed follows. */
    method SetArmyMovingState(newState: int)
      modifies this`armyState, this`cameraRange, enemy`state, enemy`rotZ, enemy`velxMax, enemy`velxGain
      ensures armyState == newState
      ensures newState == old(armyState) ==>
        (cameraRange == old(cameraRange) && enemy.state == old(enemy.state) && enemy.rotZ == old(enemy.rotZ)
         && enemy.velxMax == old(enemy.velxMax) && enemy.velxGain == old(enemy.velxGain))
      ensures newState != old(armyState) ==>
        (enemy.velxMax, enemy.velxGain) == ArmySpeed(newState, color, old((enemy.velxMax, enemy.velxGain)))
      ensures newState != old(armyState) && newState in {ArmyWalk, ArmyShellStand, ArmyShellRun} ==>
        (enemy.state == ArmyMovingState(newState) && cameraRange == ArmyCameraRange(newState) && enemy.rotZ == 0.0)
      ensures newState !in {ArmyWalk, ArmyShellStand, ArmyShellRun} ==>
        (enemy.state == old(enemy.state) && cameraRange == old(cameraRange) && enemy.rotZ == old(enemy.rotZ))
    {
      if newState == armyState {
        return;
      }
      if newState == ArmyWalk {
        enemy.state := StaWalk;
        cameraRange := 1500;
        enemy.rotZ := 0.0;
      } else if newState == ArmyShellStand {
        enemy.state := StaStay;
        cameraRange := 2000;
        enemy.rotZ := 0.0;
      } else if newState == ArmyShellRun {
        enemy.state := StaRun;
        cameraRange := 5000;
        enemy.rotZ := 0.0;
      }
      armyState := newState;
      UpdateVelocityMax();
    }

    /** `Turn_Around`: the common turn, at half the speed for a walker. */
    method TurnAround()
      modifies enemy`direction, enemy`vel
      ensures enemy.direction == OppositeDirection(old(enemy.direction))
      ensures old(enemy.direction) in {DirLeft, DirRight} ==>
        enemy.vel == ((if armyState == ArmyWalk then -old(enemy.vel.0) * 0.5 else -old(enemy.vel.0)), old(enemy.vel.1))
    {
      enemy.TurnAround();
      if armyState == ArmyWalk {
        enemy.vel := (enemy.vel.0 * 0.5, enemy.vel.1);
      }
    }

    /** `DownGrade`, as `ArmyDownGrade` says: a stomped walker or standing
        shell starts its counter afresh; a killed armadillo is dead,
        passive and still, its counter at 8. */
    method DownGrade(force: bool)
      modifies this`armyState, this`cameraRange, enemy`state, enemy`rotZ, enemy`velxMax, enemy`velxGain,
               enemy`counter, enemy`dead, enemy`canBeGround, enemy`dieEvents, enemy`massive, enemy`vel
      ensures var d := ArmyDownGrade(old(armyState), force);
        && (d.Becomes? ==>
              armyState == d.state && enemy.state == ArmyMovingState(d.state)
              && cameraRange == ArmyCameraRange(d.state)
              && (enemy.velxMax, enemy.velxGain) == ArmySpeed(d.state, color, old((enemy.velxMax, enemy.velxGain)))
              && enemy.counter == (if old(armyState) == ArmyShellRun then old(enemy.counter) else 0.0))
        && (d.Dies? ==>
              armyState == old(armyState) && enemy.state == old(enemy.state) && enemy.counter == 8.0
              && enemy.massive == MassPassive && enemy.vel == (0.0, 0.0))
        && (d == Unhurt ==>
              armyState == old(armyState) && enemy.state == old(enemy.state) && enemy.counter == old(enemy.counter))
        && enemy.dead == (old(enemy.dead) || d.Dies?)
        && enemy.dieEvents == old(enemy.dieEvents) + (if d.Dies? then 1 else 0)
        && (!d.Dies? ==> enemy.massive == old(enemy.massive) && enemy.vel == old(enemy.vel))
    {
      if !force {
        if armyState == ArmyWalk {
          SetArmyMovingState(ArmyShellStand);
          enemy.counter := 0.0;
        } else if armyState == ArmyShellStand {
          SetArmyMovingState(ArmyShellRun);
          enemy.counter := 0.0;
        } else if armyState == ArmyShellRun {
          SetArmyMovingState(ArmyShellStand);
        }
      } else {
        enemy.counter := 8.0;
        enemy.SetDead(true);
        enemy.massive := MassPassive;
        enemy.vel := (0.0, 0.0);
      }
    }

    /** `Stand_Up` (`blocked` is whether something blocking stands in the
        space the armadillo needs): a shell with room walks again; nothing
        else changes. */
    method StandUp(blocked: bool)
      modifies this`armyState, this`cameraRange, enemy`state, enemy`rotZ, enemy`velxMax, enemy`velxGain
      ensures ShellState(old(armyState)) && !blocked ==>
        (armyState == ArmyWalk && enemy.state == StaWalk && cameraRange == 1500
         && (enemy.velxMax, enemy.velxGain) == ArmySpeed(ArmyWalk, color, old((enemy.velxMax, enemy.velxGain))))
      ensures !ShellState(old(armyState)) || blocked ==>
        (armyState == old(armyState) && enemy.state == old(enemy.state) && cameraRange == old(cameraRange)
         && enemy.velxMax == old(enemy.velxMax))
    {
      if armyState != ArmyShellStand && armyState != ArmyShellRun {
        return;
      }
      if blocked {
        return;
      }
      SetArmyMovingState(ArmyWalk);
    }

    /** The standing-shell part of `Update`: the counter grows by the
        frame's speed factor, and once it reaches 192 it starts afresh and
        the shell tries to stand up. */
    method UpdateShellStand(sf: real, blocked: bool)
      requires armyState == ArmyShellStand
      modifies this`armyState, this`cameraRange, enemy`state, enemy`rotZ, enemy`velxMax, enemy`velxGain,
               enemy`counter
      ensures old(enemy.counter) + sf >= 192.0 ==> enemy.counter == 0.0
      ensures old(enemy.counter) + sf >= 192.0 && !blocked ==> armyState == ArmyWalk && enemy.state == StaWalk
      ensures old(enemy.counter) + sf < 192.0 || blocked ==>
        armyState == ArmyShellStand && enemy.state == old(enemy.state)
      ensures old(enemy.counter) + sf < 192.0 ==> enemy.counter == old(enemy.counter) + sf
    {
      enemy.counter := enemy.counter + sf;
      if enemy.counter > 160.0 && enemy.counter >= 192.0 {
        enemy.counter := 0.0;
        StandUp(blocked);
      }
    }

    /** `Hit_Enemy` (a rolling shell runs into `t`): a dead enemy is
        ignored; one shells cannot hit is not hurt, and a spikeball among
        them kills the shell; a red shell cannot hurt a rolling green one;
        any other enemy is hit, for its points, and a spika it hits kills
        the shell too. The enemy's own forced downgrade is left to the
        caller. */
    method HitEnemy(t: ShellTarget) returns (hit: bool, points: int)
      modifies this`armyState, this`cameraRange, enemy`state, enemy`rotZ, enemy`velxMax, enemy`velxGain,
               enemy`counter, enemy`dead, enemy`canBeGround, enemy`dieEvents, enemy`massive, enemy`vel
      ensures hit <==>
        (!t.dead && t.canBeHitFromShell
         && !(color == ColRed && t.spriteType == TypeArmy && t.color == ColGreen && t.state == StaRun))
      ensures points == if hit then t.killPoints else 0
      ensures var selfHit := (!t.dead && !t.canBeHitFromShell && t.spriteType == TypeSpikeball)
                            || (hit && t.spriteType == TypeSpika);
        && enemy.dead == (old(enemy.dead) || selfHit)
        && (selfHit ==> enemy.massive == MassPassive && enemy.vel == (0.0, 0.0))
        && (!selfHit ==> enemy.massive == old(enemy.massive) && enemy.vel == old(enemy.vel)
                         && enemy.dieEvents == old(enemy.dieEvents))
      ensures armyState == old(armyState) && enemy.state == old(enemy.state)
    {
      if t.dead {
        return false, 0;
      }
      if !t.canBeHitFromShell {
        if t.spriteType == TypeSpikeball {
          DownGrade(true);
        }
        return false, 0;
      }
      if color == ColRed && t.spriteType == TypeArmy {
        if t.color == ColGreen && t.state == StaRun {
          return false, 0;
        }
      }
      points := t.killPoints;
      if t.spriteType == TypeSpika {
        DownGrade(true);
      }
      hit := true;
    }

    /** `Update_Normal_Dying` (`belowLimit` is whether the collision
        rectangle has reached the bottom of the camera limits): above it
        the armadillo spins and flies 15 a frame sideways the way it faces
        and falls by `DyingFall`; below it, it is gone and dead. */
    method UpdateNormalDying(sf: real, belowLimit: bool)
      modifies this`armyState, enemy`rotZ, enemy`pos, enemy`active, enemy`state
      ensures !belowLimit ==>
        var sx := if enemy.direction == DirLeft then -sf else sf;
        (enemy.rotZ == old(enemy.rotZ) + sx
         && enemy.pos == (old(enemy.pos.0) + sx * 15.0, old(enemy.pos.1) + DyingFall(enemy.dyingCounter))
         && enemy.active == old(enemy.active) && armyState == old(armyState))
      ensures belowLimit ==>
        !enemy.active && enemy.rotZ == 0.0 && enemy.state == StaStay && armyState == ArmyDead && enemy.pos == old(enemy.pos)
    {
      if !belowLimit {
        var speedX := if enemy.direction == DirLeft then -sf else sf;
        enemy.rotZ := enemy.rotZ + speedX;
        enemy.pos := (enemy.pos.0 + speedX * 15.0, enemy.pos.1 + DyingFall(enemy.dyingCounter));
      } else {
        enemy.active := false;
        enemy.rotZ := 0.0;
        enemy.state := StaStay;
        armyState := ArmyDead;
      }
    }

    /** `Save_To_Savegame`. */
    function SaveToSavegame(floatText: real -> String, floatEqual: (real, real) -> bool): (r: SaveLevelObject)
      reads this, enemy
      ensures r.spriteType == enemy.spriteType
      ensures Lookup(r.properties, "army_state") == if armyState != ArmyWalk then Some(IntToString(armyState)) else None
    {
      var own := if armyState != ArmyWalk then [("army_state", IntToString(armyState))] else [];
      SavedLacks(enemy.Saved(), floatText, floatEqual, "army_state");
      LookupAppend(SavedProperties(enemy.Saved(), floatText, floatEqual), own, "army_state");
      SaveLevelObject(enemy.spriteType, ArmySavedProperties(enemy.Saved(), armyState, floatText, floatEqual))
    }

    /** `Load_From_Savegame`: the common part, then a saved shell state
        (unless the shell is held) with the moving state it brings. */
    method LoadFromSavegame(props: seq<(String, String)>, toFloat: String -> real)
      modifies this`armyState, this`cameraRange, enemy`state, enemy`rotZ, enemy`velxMax, enemy`velxGain,
               enemy`pos, enemy`direction, enemy`vel, enemy`active, enemy`dead, enemy`canBeGround, enemy`dieEvents
      ensures var l := LoadedEnemy(props, old(enemy.Saved()), toFloat);
        var s := LoadedArmyState(props, l.state == StaObjLinked, old(armyState));
        && armyState == s
        && enemy.Saved() == (if s != old(armyState) then l.(state := ArmyMovingState(s)) else l)
    {
      enemy.LoadFromSavegame(props, toFloat);
      var t := Lookup(props, "army_state");
      if t.Some? {
        var s := StringToInt(t.value);
        if enemy.state != StaObjLinked && ShellState(s) {
          SetArmyMovingState(s);
        }
      }
    }
  }
}
