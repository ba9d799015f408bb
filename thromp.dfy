/** The thromp (tsc/src/enemies/thromp.cpp): a block that waits, flies
    at the player when it comes in front of it, and once it has flown its
    distance slowly returns to where it started. */
module Thromps {
  import opened Common
  import opened GameTypes
  import opened PropertyHelper
  import opened XmlAttributes
  import opened SaveData
  import opened Enemies

  /** `Update_Dest_Vel`: the velocity a thromp flies at towards its start
      direction; any other direction gives none. */
  function DestVel(dir: Direction, speed: real): (real, real)
  {
    match dir
    case DirUp => (0.0, -speed)
    case DirDown => (0.0, speed)
    case DirLeft => (-speed, 0.0)
    case DirRight => (speed, 0.0)
    case _ => (0.0, 0.0)
  }

  /** A thromp facing one of the four ways flies along exactly that axis
      at its speed, the sign given by the way; facing any other way it does
      not fly at all. */
  lemma DestVelOneAxis(dir: Direction, speed: real)
    requires speed > 0.0
    ensures var v := DestVel(dir, speed);
      && (dir in {DirLeft, DirRight} <==> v.0 != 0.0 && v.1 == 0.0)
      && (dir in {DirUp, DirDown} <==> v.0 == 0.0 && v.1 != 0.0)
      && (dir !in {DirLeft, DirRight, DirUp, DirDown} <==> v == (0.0, 0.0))
      && (v.0 == speed <==> dir == DirRight) && (v.0 == -speed <==> dir == DirLeft)
      && (v.1 == speed <==> dir == DirDown) && (v.1 == -speed <==> dir == DirUp)
  {
  }

  /** How far a flying thromp still has to go before it reaches the end of
      its flight, `maxDistance` away from `start` along `dir`; negative
      once it is past it. */
  function DistToFinal(dir: Direction, maxDistance: real, start: (real, real), pos: (real, real)): real
  {
    match dir
    case DirLeft => maxDistance - (start.0 - pos.0)
    case DirRight => maxDistance + (start.0 - pos.0)
    case DirUp => maxDistance - (start.1 - pos.1)
    case DirDown => maxDistance + (start.1 - pos.1)
    case _ => 0.0
  }

  /** The position `t` away from `start` along `dir`. */
  function Travel(dir: Direction, start: (real, real), t: real): (real, real)
  {
    match dir
    case DirLeft => (start.0 - t, start.1)
    case DirRight => (start.0 + t, start.1)
    case DirUp => (start.0, start.1 - t)
    case DirDown => (start.0, start.1 + t)
    case _ => start
  }

  /** A thromp that has gone `t` along its direction has `maxDistance - t`
      still to go: it is at the end of its flight after exactly
      `maxDistance`, and back home exactly at the start. */
  lemma DistToFinalMeasures(dir: Direction, maxDistance: real, start: (real, real), t: real)
    requires dir in {DirLeft, DirRight, DirUp, DirDown}
    ensures DistToFinal(dir, maxDistance, start, Travel(dir, start, t)) == maxDistance - t
    ensures DistToFinal(dir, maxDistance, start, start) == maxDistance
  {
  }

  /** The speed-up of a returning thromp in `Update`: while its speed
      along its axis is below its flight speed scaled by how far it is
      from home (`(dist + maxDistance / 10) / maxDistance`), it grows by a
      fifth a frame. */
  function ReturnVelocity(dir: Direction, dest: (real, real), vel: (real, real), dist: real, maxDistance: real,
                          sf: real): (real, real)
  {
    if maxDistance <= 0.0 then vel
    else
      var m := (dist + maxDistance * 0.1) / maxDistance;
      var f := 1.0 + 0.2 * sf;
      match dir
      case DirLeft => if -vel.0 > dest.0 * m then (vel.0 * f, vel.1) else vel
      case DirRight => if -vel.0 < dest.0 * m then (vel.0 * f, vel.1) else vel
      case DirUp => if -vel.1 > dest.1 * m then (vel.0, vel.1 * f) else vel
      case DirDown => if -vel.1 < dest.1 * m then (vel.0, vel.1 * f) else vel
      case _ => vel
  }

  function Abs(x: real): real
  {
    if x < 0.0 then -x else x
  }

  /** A returning thromp never slows down, and never leaves its axis. */
  lemma ReturnNeverSlows(dir: Direction, dest: (real, real), vel: (real, real), dist: real, maxDistance: real,
                         sf: real)
    requires sf >= 0.0
    ensures var r := ReturnVelocity(dir, dest, vel, dist, maxDistance, sf);
      && Abs(r.0) >= Abs(vel.0) && Abs(r.1) >= Abs(vel.1)
      && (dir in {DirLeft, DirRight} ==> r.1 == vel.1)
      && (dir in {DirUp, DirDown} ==> r.0 == vel.0)
  {
    var f := 1.0 + 0.2 * sf;
    assert Abs(vel.0 * f) == Abs(vel.0) * f;
    assert Abs(vel.1 * f) == Abs(vel.1) * f;
  }

  /* ---------------------------------------------------------------------
     Savegame
     --------------------------------------------------------------------- */

  /** `Save_To_Savegame_XML_Node`: the common entries, and "move_back"
      only while the thromp is returning. */
  function ThrompSavedProperties(e: EnemySave, moveBack: bool, floatText: real -> String,
                                 floatEqual: (real, real) -> bool): seq<(String, String)>
  {
    SavedProperties(e, floatText, floatEqual) + (if moveBack then [("move_back", IntToString(1))] else [])
  }

  /** The thromp part of `Load_From_Savegame`: a dead thromp (`dead`, as
      the common part loaded it) keeps `current`; otherwise a saved
      "move_back" is taken (any count above 0 is set). */
  function LoadedMoveBack(props: seq<(String, String)>, dead: bool, current: bool): bool
  {
    var t := Lookup(props, "move_back");
    if dead || t.None? then current else StringToInt(t.value) > 0
  }

  /** A thromp saved while returning comes back returning, unless it was
      dead; one saved otherwise keeps the state the level placed it in
      (which, for a fresh level, is not returning). */
  lemma ThrompSaveLoadRoundTrip(e: EnemySave, moveBack: bool, floatText: real -> String,
                                floatEqual: (real, real) -> bool, placed: bool)
    ensures LoadedMoveBack(ThrompSavedProperties(e, moveBack, floatText, floatEqual), e.dead, placed)
            == if moveBack && !e.dead then true else placed
  {
    var own := if moveBack then [("move_back", IntToString(1))] else [];
    SavedLacks(e, floatText, floatEqual, "move_back");
    LookupAppend(SavedProperties(e, floatText, floatEqual), own, "move_back");
    StringToIntOfInt(1);
  }

  /* ---------------------------------------------------------------------
     The thromp
     --------------------------------------------------------------------- */

  class Thromp {
    const enemy: Enemy
    /** `m_move_back`: whether it is returning */
    var moveBack: bool
    /** `m_dest_velx` and `m_dest_vely` */
    var destVel: (real, real)
    var speed: real
    var maxDistance: real
    var cameraRange: int

    /** `Init`: waiting, facing down, flying 200 at 7, worth 200 points
        and resisting fire. */
    constructor ()
      ensures fresh(enemy) && enemy.spriteType == TypeThromp && enemy.state == StaStay && !moveBack
      ensures enemy.startDirection == DirDown && speed == 7.0 && destVel == (0.0, 7.0) && maxDistance == 200.0
      ensures enemy.killPoints == 200 && enemy.fireResistant && cameraRange == 1000
      ensures !enemy.dead && enemy.active
    {
      enemy := new Enemy();
      moveBack := false;
      destVel := (0.0, 0.0);
      speed := 0.0;
      maxDistance := 0.0;
      cameraRange := 1000;
      new;
      Init();
    }

    method Init()
      requires enemy.startDirection == DirUndefined
      modifies this`moveBack, this`destVel, this`speed, this`maxDistance, enemy`spriteType, enemy`fireResistant,
               enemy`state, enemy`direction, enemy`startDirection, enemy`killPoints
      ensures enemy.spriteType == TypeThromp && enemy.state == StaStay && !moveBack
      ensures enemy.startDirection == DirDown && speed == 7.0 && destVel == (0.0, 7.0) && maxDistance == 200.0
      ensures enemy.killPoints == 200 && enemy.fireResistant
    {
      enemy.spriteType := TypeThromp;
      enemy.fireResistant := true;
      enemy.state := StaStay;
      moveBack := false;
      destVel := (0.0, 0.0);
      SetDirection(DirDown, true);
      SetSpeed(7.0);
      SetMaxDistance(200.0);
      enemy.killPoints := 200;
    }

    /** The constructor from level attributes: `Init`, then the position,
        direction, distance (read as a whole number) and speed read. */
    constructor FromAttributes(a: Attributes, toFloat: String -> real)
      ensures fresh(enemy) && enemy.spriteType == TypeThromp && enemy.state == StaStay && !moveBack
      ensures enemy.pos == enemy.startPos == (toFloat(Get(a, "posx")), toFloat(Get(a, "posy")))
      ensures enemy.startDirection == DirectionId(FetchString(a, "direction", "down"))
      ensures maxDistance == ClampedDistance(FetchInt(a, "max_distance", 200) as real)
      ensures speed == ClampedSpeed(FetchFloat(a, "speed", 7.0, toFloat))
      ensures destVel == DestVel(enemy.startDirection, speed)
    {
      enemy := new Enemy();
      moveBack := false;
      destVel := (0.0, 0.0);
      speed := 0.0;
      maxDistance := 0.0;
      cameraRange := 1000;
      new;
      Init();
      LoadPlacement(a, toFloat);
      LoadSettings(a, toFloat);
    }

    /** The position and direction part of the constructor from level
        attributes. */
    method LoadPlacement(a: Attributes, toFloat: String -> real)
      modifies enemy`pos, enemy`startPos, enemy`direction, enemy`startDirection, this`destVel
      ensures enemy.pos == enemy.startPos == (toFloat(Get(a, "posx")), toFloat(Get(a, "posy")))
      ensures enemy.startDirection == DirectionId(FetchString(a, "direction", DirectionName(old(enemy.startDirection))))
      ensures old(destVel) == DestVel(old(enemy.startDirection), speed) ==> destVel == DestVel(enemy.startDirection, speed)
    {
      var p := (toFloat(Get(a, "posx")), toFloat(Get(a, "posy")));
      enemy.pos, enemy.startPos := p, p;
      SetDirection(DirectionId(FetchString(a, "direction", DirectionName(enemy.startDirection))), true);
    }

    /** The distance and speed part of the constructor from level
        attributes; the distance is read as a whole number. */
    method LoadSettings(a: Attributes, toFloat: String -> real)
      modifies this`maxDistance, this`speed, this`destVel
      ensures maxDistance == ClampedDistance(FetchInt(a, "max_distance", Truncate(old(maxDistance))) as real)
      ensures speed == ClampedSpeed(FetchFloat(a, "speed", old(speed), toFloat))
      ensures destVel == DestVel(enemy.startDirection, speed)
    {
      SetMaxDistance(FetchInt(a, "max_distance", Truncate(maxDistance)) as real);
      SetSpeed(FetchFloat(a, "speed", speed, toFloat));
    }

    /** `Set_Direction`: the start direction already set changes nothing;
        another also brings its flight velocity. */
    method SetDirection(dir: Direction, initial: bool)
      modifies enemy`direction, enemy`startDirection, this`destVel
      ensures old(enemy.startDirection) == dir ==>
        (enemy.direction == old(enemy.direction) && enemy.startDirection == dir && destVel == old(destVel))
      ensures old(enemy.startDirection) != dir ==>
        (&& enemy.direction == dir
         && enemy.startDirection == (if initial then dir else old(enemy.startDirection))
         && destVel == DestVel(enemy.startDirection, speed))
    {
      if enemy.startDirection == dir {
        return;
      }
      enemy.SetDirection(dir, initial);
      UpdateDestVel();
    }

    /** `Set_Max_Distance`: a negative distance is taken as 0. */
    method SetMaxDistance(d: real)
      modifies this`maxDistance
      ensures maxDistance == ClampedDistance(d)
    {
      maxDistance := d;
      if maxDistance < 0.0 {
        maxDistance := 0.0;
      }
    }

    /** `Set_Speed`: at least 0.1; the flight velocity follows. */
    method SetSpeed(v: real)
      modifies this`speed, this`destVel
      ensures speed == ClampedSpeed(v)
      ensures destVel == DestVel(enemy.startDirection, speed)
    {
      var s := v;
      if s < 0.1 {
        s := 0.1;
      }
      speed := s;
      UpdateDestVel();
    }

    /** `Update_Dest_Vel`, as `DestVel` says. */
    method UpdateDestVel()
      modifies this`destVel
      ensures destVel == DestVel(enemy.startDirection, speed)
    {
      if enemy.startDirection == DirUp {
        destVel := (0.0, -speed);
      } else if enemy.startDirection == DirDown {
        destVel := (0.0, speed);
      } else if enemy.startDirection == DirLeft {
        destVel := (-speed, 0.0);
      } else if enemy.startDirection == DirRight {
        destVel := (speed, 0.0);
      } else {
        destVel := (0.0, 0.0);
      }
    }

    /** `Activate`: a flying thromp is left alone; any other starts
        flying at its flight velocity, not returning. */
    method Activate()
      modifies enemy`state, enemy`vel, this`moveBack
      ensures old(enemy.state) == StaFly ==>
        enemy.state == StaFly && enemy.vel == old(enemy.vel) && moveBack == old(moveBack)
      ensures old(enemy.state) != StaFly ==> enemy.state == StaFly && enemy.vel == destVel && !moveBack
    {
      if enemy.state == StaFly {
        return;
      }
      enemy.state := StaFly;
      enemy.vel := destVel;
      moveBack := false;
    }

    /** `Move_Back`: a waiting or already returning thromp does not turn
        (`turned` is false); any other starts back at a hundredth of its
        flight velocity. */
    method MoveBack() returns (turned: bool)
      modifies enemy`vel, this`moveBack
      ensures turned <==> old(enemy.state) != StaStay && !old(moveBack)
      ensures turned ==> enemy.vel == (-destVel.0 * 0.01, -destVel.1 * 0.01) && moveBack
      ensures !turned ==> enemy.vel == old(enemy.vel) && moveBack == old(moveBack)
    {
      if enemy.state == StaStay || moveBack {
        return false;
      }
      enemy.vel := (-destVel.0 * 0.01, -destVel.1 * 0.01);
      moveBack := true;
      turned := true;
    }

    /** `DownGrade`: every downgrade kills; the thromp ends passive, still,
        its counter at 0, and turned over when forced. */
    method DownGrade(force: bool)
      modifies enemy`dead, enemy`canBeGround, enemy`dieEvents, enemy`massive, enemy`counter, enemy`vel, enemy`rotZ
      ensures enemy.dead && enemy.massive == MassPassive && enemy.counter == 0.0 && enemy.vel == (0.0, 0.0)
      ensures enemy.dieEvents == old(enemy.dieEvents) + 1
      ensures enemy.rotZ == if force then 180.0 else old(enemy.rotZ)
    {
      enemy.SetDead(true);
      enemy.massive := MassPassive;
      enemy.counter := 0.0;
      enemy.vel := (0.0, 0.0);
      if force {
        enemy.rotZ := 180.0;
      }
    }

    /** `Update_Normal_Dying`: a dead thromp is simply gone. */
    method UpdateDying()
      modifies enemy`active
      ensures !enemy.active
    {
      enemy.active := false;
    }

    /** `Update` (`inRange` is whether the camera is near enough,
        `playerInFront` whether a player who is not a ghost stands in the
        thromp's flight path): a waiting thromp flies when the player is in
        front of it; a flying one speeds up while returning
        (`ReturnVelocity`), turns back once past the end of its flight,
        and waits again, home, once it is back past its start. */
    method Update(sf: real, inRange: bool, playerInFront: bool)
      modifies enemy`state, enemy`vel, enemy`pos, this`moveBack
      ensures var on := old(enemy.IsUpdateValid()) && inRange;
        && (!on || (old(enemy.state) == StaStay && !playerInFront) ==>
              enemy.state == old(enemy.state) && enemy.vel == old(enemy.vel) && enemy.pos == old(enemy.pos)
              && moveBack == old(moveBack))
        && (on && old(enemy.state) == StaStay && playerInFront ==>
              enemy.state == StaFly && enemy.vel == destVel && !moveBack && enemy.pos == old(enemy.pos))
        && (on && old(enemy.state) != StaStay ==>
              var dist := DistToFinal(enemy.direction, maxDistance, enemy.startPos, old(enemy.pos));
              var v := if old(moveBack)
                       then ReturnVelocity(enemy.direction, destVel, old(enemy.vel), dist, maxDistance, sf)
                       else old(enemy.vel);
              && (!old(moveBack) && dist < 0.0 ==>
                    moveBack && enemy.vel == (-destVel.0 * 0.01, -destVel.1 * 0.01)
                    && enemy.state == old(enemy.state) && enemy.pos == old(enemy.pos))
              && (old(moveBack) && dist > maxDistance ==>
                    !moveBack && enemy.state == StaStay && enemy.pos == enemy.startPos && enemy.vel == (0.0, 0.0))
              && (!(!old(moveBack) && dist < 0.0) && !(old(moveBack) && dist > maxDistance) ==>
                    moveBack == old(moveBack) && enemy.state == old(enemy.state) && enemy.vel == v
                    && enemy.pos == old(enemy.pos)))
    {
      if !enemy.IsUpdateValid() || !inRange {
        return;
      }
      if enemy.state == StaStay {
        if playerInFront {
          Activate();
        }
        return;
      }
      var dist := DistToFinal(enemy.direction, maxDistance, enemy.startPos, enemy.pos);
      if moveBack {
        enemy.vel := ReturnVelocity(enemy.direction, destVel, enemy.vel, dist, maxDistance, sf);
      }
      if !moveBack && dist < 0.0 {
        var _ := MoveBack();
      } else if moveBack && dist > maxDistance {
        enemy.state := StaStay;
        enemy.pos := enemy.startPos;
        enemy.vel := (0.0, 0.0);
        moveBack := false;
      }
    }

    /** `Save_To_Savegame_XML_Node`: "move_back" is there exactly while
        the thromp is returning. */
    function SaveToSavegame(floatText: real -> String, floatEqual: (real, real) -> bool): (r: SaveLevelObject)
      reads this, enemy
      ensures r.spriteType == enemy.spriteType
      ensures Lookup(r.properties, "move_back") == if moveBack then Some(IntToString(1)) else None
    {
      var own := if moveBack then [("move_back", IntToString(1))] else [];
      SavedLacks(enemy.Saved(), floatText, floatEqual, "move_back");
      LookupAppend(SavedProperties(enemy.Saved(), floatText, floatEqual), own, "move_back");
      SaveLevelObject(enemy.spriteType, ThrompSavedProperties(enemy.Saved(), moveBack, floatText, floatEqual))
    }

    /** `Load_From_Savegame`: the common part, then, for a thromp still
        alive, a saved "move_back". */
    method LoadFromSavegame(props: seq<(String, String)>, toFloat: String -> real)
      modifies this`moveBack, enemy`state, enemy`pos, enemy`direction, enemy`vel, enemy`active, enemy`dead,
               enemy`canBeGround, enemy`dieEvents
      ensures enemy.Saved() == LoadedEnemy(props, old(enemy.Saved()), toFloat)
      ensures moveBack == LoadedMoveBack(props, enemy.dead, old(moveBack))
    {
      enemy.LoadFromSavegame(props, toFloat);
      if enemy.dead {
        return;
      }
      var t := Lookup(props, "move_back");
      if t.Some? {
        moveBack := StringToInt(t.value) > 0;
      }
    }
  }

  /** `Set_Max_Distance`'s clamp. */
  function ClampedDistance(d: real): (r: real)
    ensures r >= 0.0 && (d >= 0.0 ==> r == d) && (d < 0.0 ==> r == 0.0)
  {
    if d < 0.0 then 0.0 else d
  }

  /** `Set_Speed`'s clamp: never below 0.1. */
  function ClampedSpeed(v: real): (r: real)
    ensures r >= 0.1 && (v >= 0.1 ==> r == v) && (v < 0.1 ==> r == 0.1)
  {
    if v < 0.1 then 0.1 else v
  }
}
