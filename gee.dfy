/** The gee (tsc/src/enemies/gee.cpp): a cloud creature that waits, then
    flies along its axis (horizontal or vertical), a random way, for a
    while or up to a distance from where it started, and waits again. */
module Gees {
  import opened Common
  import opened GameTypes
  import opened PropertyHelper
  import opened XmlAttributes
  import opened Enemies

  /** `Set_Direction`'s normalisation: left and right are the horizontal
      axis, up and down the vertical one; any other direction is kept. */
  function GeeAxis(d: Direction): Direction
  {
    if d == DirLeft || d == DirRight then DirHorizontal
    else if d == DirUp || d == DirDown then DirVertical
    else d
  }

  /** A normalised direction is never one of the four ways, and
      normalising it again changes nothing. */
  lemma GeeAxisNormal(d: Direction)
    ensures GeeAxis(d) !in {DirLeft, DirRight, DirUp, DirDown}
    ensures GeeAxis(GeeAxis(d)) == GeeAxis(d)
    ensures d !in {DirLeft, DirRight, DirUp, DirDown} ==> GeeAxis(d) == d
  {
  }

  /** What each gee colour brings in `Set_Color`: its flying speed, its
      points and whether it resists fire; other colours bring nothing. */
  datatype GeeKind = GeeKind(speedFly: real, killPoints: int, fireResistant: bool)

  function GeeKindOf(col: DefaultColor): Option<GeeKind>
  {
    match col
    case ColYellow => Some(GeeKind(6.0, 50, false))
    case ColRed => Some(GeeKind(8.0, 100, true))
    case ColGreen => Some(GeeKind(10.0, 200, false))
    case _ => None
  }

  /** Electro (yellow), lava (red) and venom (green) gees are each faster
      and worth more than the one before; only the lava gee resists
      fire. */
  lemma GeeKindsRanked(col: DefaultColor)
    ensures GeeKindOf(col).Some? <==> col in {ColYellow, ColRed, ColGreen}
    ensures GeeKindOf(col).Some? ==> (GeeKindOf(col).value.fireResistant <==> col == ColRed)
    ensures GeeKindOf(ColYellow).value.speedFly < GeeKindOf(ColRed).value.speedFly < GeeKindOf(ColGreen).value.speedFly
    ensures GeeKindOf(ColYellow).value.killPoints < GeeKindOf(ColRed).value.killPoints
            < GeeKindOf(ColGreen).value.killPoints
  {
  }

  /** The way and velocity `Set_Moving_State` gives a gee that starts to
      fly: along its horizontal axis, or else its vertical one, right
      or down when the random number `rnd` is even and left or up when it
      is odd. */
  function FlyStart(startDirection: Direction, speedFly: real, rnd: nat): (Direction, (real, real))
  {
    if startDirection == DirHorizontal then
      if rnd % 2 != 1 then (DirRight, (speedFly, 0.0)) else (DirLeft, (-speedFly, 0.0))
    else
      if rnd % 2 != 1 then (DirDown, (0.0, speedFly)) else (DirUp, (0.0, -speedFly))
  }

  /** A gee flies along its own axis at its flying speed, the way it
      faces; both ways are possible, one for each parity of `rnd`. */
  lemma FlyStartAlongAxis(startDirection: Direction, speedFly: real, rnd: nat)
    ensures var (d, v) := FlyStart(startDirection, speedFly, rnd);
      && (startDirection == DirHorizontal ==> d in {DirLeft, DirRight} && v.1 == 0.0)
      && (startDirection != DirHorizontal ==> d in {DirUp, DirDown} && v.0 == 0.0)
      && (d == DirRight ==> v.0 == speedFly) && (d == DirLeft ==> v.0 == -speedFly)
      && (d == DirDown ==> v.1 == speedFly) && (d == DirUp ==> v.1 == -speedFly)
    ensures FlyStart(startDirection, speedFly, rnd).0 != FlyStart(startDirection, speedFly, rnd + 1).0
  {
  }

  /** How far a gee is from its start along the way it faces; no distance
      for any other direction. */
  function Displacement(dir: Direction, start: (real, real), pos: (real, real)): real
  {
    match dir
    case DirLeft => start.0 - pos.0
    case DirRight => pos.0 - start.0
    case DirUp => start.1 - pos.1
    case DirDown => pos.1 - start.1
    case _ => 0.0
  }

  /** `Is_At_Max_Distance`. */
  predicate AtMaxDistance(dir: Direction, start: (real, real), pos: (real, real), maxDistance: int)
  {
    match dir
    case DirUp => pos.1 - start.1 < -(maxDistance as real)
    case DirDown => pos.1 - start.1 > maxDistance as real
    case DirLeft => pos.0 - start.0 < -(maxDistance as real)
    case DirRight => pos.0 - start.0 > maxDistance as real
    case _ => false
  }

  /** A gee is at its most distance exactly when it is further than that
      from its start along the way it faces; and one that is, once turned
      around, is not. */
  lemma AtMaxDistanceIsDisplacement(dir: Direction, start: (real, real), pos: (real, real), maxDistance: int)
    ensures dir in {DirLeft, DirRight, DirUp, DirDown} ==>
      (AtMaxDistance(dir, start, pos, maxDistance) <==> Displacement(dir, start, pos) > maxDistance as real)
    ensures dir !in {DirLeft, DirRight, DirUp, DirDown} ==> !AtMaxDistance(dir, start, pos, maxDistance)
    ensures AtMaxDistance(dir, start, pos, maxDistance) && maxDistance >= 0 ==>
      !AtMaxDistance(OppositeDirection(dir), start, pos, maxDistance)
  {
  }

  /** The distance flown in a frame of the speed factor `sf`, whatever
      the way. */
  function FlownInFrame(vel: (real, real), sf: real): real
  {
    (if vel.0 > 0.0 then vel.0 * sf else if vel.0 < 0.0 then -vel.0 * sf else 0.0)
    + (if vel.1 > 0.0 then vel.1 * sf else if vel.1 < 0.0 then -vel.1 * sf else 0.0)
  }

  /** Flying only ever adds to the distance flown. */
  lemma FlownNeverNegative(vel: (real, real), sf: real)
    requires sf >= 0.0
    ensures FlownInFrame(vel, sf) >= 0.0
  {
    if vel.0 < 0.0 {
      assert -vel.0 * sf >= 0.0;
    }
    if vel.1 < 0.0 {
      assert -vel.1 * sf >= 0.0;
    }
  }

  class Gee {
    const enemy: Enemy
    var color: DefaultColor
    var speedFly: real
    var maxDistance: int
    /** `m_always_fly`: never waits once flying, nor stops for its flying
        distance */
    var alwaysFly: bool
    /** `m_wait_time` (in seconds) and `m_fly_distance` */
    var waitTime: real
    var flyDistance: int
    var waitTimeCounter: real
    var flyDistanceCounter: real
    var cameraRange: int

    /** `Init`: a waiting yellow gee on the horizontal axis, flying at
        most 400 from its start and 400 at a time, after 2 seconds. */
    constructor ()
      ensures fresh(enemy) && enemy.spriteType == TypeGee && enemy.state == StaStay && cameraRange == 1000
      ensures enemy.startDirection == DirHorizontal && enemy.direction == DirHorizontal
      ensures color == ColYellow && speedFly == 6.0 && enemy.killPoints == 50 && !enemy.fireResistant
      ensures maxDistance == 400 && flyDistance == 400 && !alwaysFly && waitTime == 2.0
      ensures waitTimeCounter == 0.0 && flyDistanceCounter == 0.0
    {
      enemy := new Enemy();
      color := ColDefault;
      speedFly := 0.0;
      maxDistance := 0;
      alwaysFly := false;
      waitTime := 2.0;
      flyDistance := 400;
      waitTimeCounter := 0.0;
      flyDistanceCounter := 0.0;
      cameraRange := 1000;
      new;
      Init();
    }

    method Init()
      requires color == ColDefault && enemy.startDirection == DirUndefined
      modifies this`speedFly, this`maxDistance, this`alwaysFly, this`waitTime, this`flyDistance, this`color,
               this`waitTimeCounter, this`flyDistanceCounter, enemy`spriteType, enemy`state, enemy`direction,
               enemy`startDirection, enemy`vel, enemy`pos, enemy`killPoints, enemy`fireResistant
      ensures enemy.spriteType == TypeGee && enemy.state == StaStay
      ensures enemy.startDirection == DirHorizontal && enemy.direction == DirHorizontal
      ensures color == ColYellow && speedFly == 6.0 && enemy.killPoints == 50 && !enemy.fireResistant
      ensures maxDistance == 400 && flyDistance == 400 && !alwaysFly && waitTime == 2.0
      ensures waitTimeCounter == 0.0 && flyDistanceCounter == 0.0
    {
      enemy.spriteType := TypeGee;
      enemy.state := StaStay;
      speedFly := 0.0;
      InitFlight();
      SetDirection(DirHorizontal);
      SetColor(ColYellow);
      waitTimeCounter := 0.0;
      flyDistanceCounter := 0.0;
    }

    /** The flight settings of `Init`. */
    method InitFlight()
      modifies this`maxDistance, this`alwaysFly, this`waitTime, this`flyDistance
      ensures maxDistance == 400 && flyDistance == 400 && !alwaysFly && waitTime == 2.0
    {
      SetMaxDistance(400);
      alwaysFly := false;
      waitTime := 2.0;
      flyDistance := 400;
    }

    /** The constructor from level attributes: `Init`, then the position,
        axis, most distance, whether it always flies, its wait time, its
        flying distance (both distances read as whole numbers) and its
        colour. */
    constructor FromAttributes(a: Attributes, toFloat: String -> real)
      ensures fresh(enemy) && enemy.spriteType == TypeGee && enemy.state == StaStay
      ensures enemy.pos == enemy.startPos == (toFloat(Get(a, "posx")), toFloat(Get(a, "posy")))
      ensures enemy.startDirection == GeeAxis(DirectionId(FetchString(a, "direction", "horizontal")))
      ensures maxDistance == ClampedCount(FetchInt(a, "max_distance", 400))
      ensures alwaysFly == FetchBool(a, "always_fly", false)
      ensures waitTime == FetchFloat(a, "wait_time", 2.0, toFloat)
      ensures flyDistance == FetchInt(a, "fly_distance", 400)
      ensures color == ColorId(FetchString(a, "color", "yellow"))
    {
      enemy := new Enemy();
      color := ColDefault;
      speedFly := 0.0;
      maxDistance := 0;
      alwaysFly := false;
      waitTime := 2.0;
      flyDistance := 400;
      waitTimeCounter := 0.0;
      flyDistanceCounter := 0.0;
      cameraRange := 1000;
      new;
      Init();
      LoadPlacement(a, toFloat);
      LoadSettings(a, toFloat);
    }

    /** The position and axis part of the constructor from level
        attributes. */
    method LoadPlacement(a: Attributes, toFloat: String -> real)
      requires enemy.state == StaStay
      modifies enemy`pos, enemy`startPos, enemy`direction, enemy`startDirection, enemy`vel, enemy`state,
               this`flyDistanceCounter
      ensures enemy.pos == enemy.startPos == (toFloat(Get(a, "posx")), toFloat(Get(a, "posy")))
      ensures enemy.state == StaStay
      ensures var d := DirectionId(FetchString(a, "direction", DirectionName(old(enemy.startDirection))));
        enemy.startDirection == (if d == old(enemy.startDirection) then d else GeeAxis(d))
    {
      var p := (toFloat(Get(a, "posx")), toFloat(Get(a, "posy")));
      enemy.pos, enemy.startPos := p, p;
      SetDirection(DirectionId(FetchString(a, "direction", DirectionName(enemy.startDirection))));
    }

    /** The settings part of the constructor from level attributes: each
        absent one keeps its current value. */
    method LoadSettings(a: Attributes, toFloat: String -> real)
      modifies this`maxDistance, this`alwaysFly, this`waitTime, this`flyDistance, this`color, this`speedFly,
               enemy`killPoints, enemy`fireResistant
      ensures maxDistance == ClampedCount(FetchInt(a, "max_distance", old(maxDistance)))
      ensures alwaysFly == FetchBool(a, "always_fly", old(alwaysFly))
      ensures waitTime == FetchFloat(a, "wait_time", old(waitTime), toFloat)
      ensures flyDistance == FetchInt(a, "fly_distance", old(flyDistance))
      ensures color == ColorId(FetchString(a, "color", ColorName(old(color))))
    {
      SetMaxDistance(FetchInt(a, "max_distance", maxDistance));
      alwaysFly := FetchBool(a, "always_fly", alwaysFly);
      waitTime := FetchFloat(a, "wait_time", waitTime, toFloat);
      flyDistance := FetchInt(a, "fly_distance", flyDistance);
      SetColor(ColorId(FetchString(a, "color", ColorName(color))));
    }

    /** `Set_Direction`: the start direction already set changes nothing.
        Another is normalised to its axis (`GeeAxis`) and becomes the
        direction and start direction; the gee stops waiting where it
        started. */
    method SetDirection(dir: Direction)
      modifies enemy`direction, enemy`startDirection, enemy`vel, enemy`state, enemy`pos, this`flyDistanceCounter
      ensures old(enemy.startDirection) == dir ==>
        (enemy.direction == old(enemy.direction) && enemy.startDirection == dir && enemy.vel == old(enemy.vel)
         && enemy.state == old(enemy.state) && enemy.pos == old(enemy.pos)
         && flyDistanceCounter == old(flyDistanceCounter))
      ensures old(enemy.startDirection) != dir ==>
        (&& enemy.direction == GeeAxis(dir) && enemy.startDirection == GeeAxis(dir)
         && enemy.state == StaStay && enemy.pos == enemy.startPos
         && (old(enemy.state) == StaStay ==> enemy.vel == old(enemy.vel) && flyDistanceCounter == old(flyDistanceCounter))
         && (old(enemy.state) != StaStay ==> enemy.vel == (0.0, 0.0) && flyDistanceCounter == 0.0))
    {
      if enemy.startDirection == dir {
        return;
      }
      enemy.SetDirection(dir, true);
      if enemy.startDirection == DirLeft || enemy.startDirection == DirRight {
        enemy.SetDirection(DirHorizontal, true);
      } else if enemy.startDirection == DirUp || enemy.startDirection == DirDown {
        enemy.SetDirection(DirVertical, true);
      }
      if enemy.state == StaFly {
        if enemy.direction == DirHorizontal {
          enemy.vel := (speedFly, 0.0);
        } else {
          enemy.vel := (0.0, speedFly);
        }
      }
      Stop();
      enemy.pos := enemy.startPos;
    }

    /** `Set_Max_Distance`: a negative distance is taken as 0. */
    method SetMaxDistance(d: int)
      modifies this`maxDistance
      ensures maxDistance == ClampedCount(d)
    {
      maxDistance := d;
      if maxDistance < 0 {
        maxDistance := 0;
      }
    }

    /** `Set_Color`: the colour already set changes nothing; a gee colour
        brings its kind (`GeeKindOf`); any other is taken but changes
        nothing else. */
    method SetColor(col: DefaultColor)
      modifies this`color, this`speedFly, enemy`killPoints, enemy`fireResistant
      ensures color == col
      ensures old(color) != col && GeeKindOf(col).Some? ==>
        (speedFly == GeeKindOf(col).value.speedFly && enemy.killPoints == GeeKindOf(col).value.killPoints
         && enemy.fireResistant == GeeKindOf(col).value.fireResistant)
      ensures old(color) == col || GeeKindOf(col).None? ==>
        (speedFly == old(speedFly) && enemy.killPoints == old(enemy.killPoints)
         && enemy.fireResistant == old(enemy.fireResistant))
    {
      if color == col {
        return;
      }
      color := col;
      var kind := GeeKindOf(col);
      if kind.Some? {
        speedFly := kind.value.speedFly;
        enemy.killPoints := kind.value.killPoints;
        enemy.fireResistant := kind.value.fireResistant;
      }
    }

    /** `DownGrade`: every downgrade kills; the gee ends passive, still,
        its counter at 0, and turned over when forced. */
    method DownGrade(force: bool)
      modifies enemy`dead, enemy`canBeGround, enemy`dieEvents, enemy`massive, enemy`counter, enemy`vel, enemy`rotZ
      ensures enemy.dead && enemy.massive == MassPassive && enemy.counter == 0.0 && enemy.vel == (0.0, 0.0)
      ensures enemy.dieEvents == old(enemy.dieEvents) + 1
      ensures enemy.rotZ == if force then 180.0 else old(enemy.rotZ)
    {
      enemy.SetDead(true);
      enemy.massive := MassPassive;
      enemy.counter := 0.0;
      enemy.vel := (0.0, 0.0);
      if force {
        enemy.rotZ := 180.0;
      }
    }

    /** `Update_Normal_Dying`: a dead gee is simply gone. */
    method UpdateDying()
      modifies enemy`active
      ensures !enemy.active
    {
      enemy.active := false;
    }

    /** `Set_Moving_State` (`rnd` is the random number drawn): the same
        state changes nothing. Waiting stops the gee and starts its flying
        distance afresh; flying starts its wait afresh and sends it along
        its axis as `FlyStart` says. */
    method SetMovingState(newState: int, rnd: nat)
      modifies enemy`state, enemy`vel, enemy`direction, this`flyDistanceCounter, this`waitTimeCounter
      ensures enemy.state == newState
      ensures newState == old(enemy.state) || newState !in {StaStay, StaFly} ==>
        (enemy.vel == old(enemy.vel) && enemy.direction == old(enemy.direction)
         && flyDistanceCounter == old(flyDistanceCounter) && waitTimeCounter == old(waitTimeCounter))
      ensures newState != old(enemy.state) && newState == StaStay ==>
        (enemy.vel == (0.0, 0.0) && flyDistanceCounter == 0.0 && enemy.direction == old(enemy.direction)
         && waitTimeCounter == old(waitTimeCounter))
      ensures newState != old(enemy.state) && newState == StaFly ==>
        ((enemy.direction, enemy.vel) == FlyStart(enemy.startDirection, speedFly, rnd)
         && waitTimeCounter == 0.0 && flyDistanceCounter == old(flyDistanceCounter))
    {
      if newState == enemy.state {
        return;
      }
      if newState == StaStay {
        flyDistanceCounter := 0.0;
        enemy.vel := (0.0, 0.0);
      } else if newState == StaFly {
        waitTimeCounter := 0.0;
        if enemy.startDirection == DirHorizontal {
          if rnd % 2 != 1 {
            enemy.direction := DirRight;
            enemy.vel := (speedFly, 0.0);
          } else {
            enemy.direction := DirLeft;
            enemy.vel := (-speedFly, 0.0);
          }
        } else {
          if rnd % 2 != 1 {
            enemy.direction := DirDown;
            enemy.vel := (0.0, speedFly);
          } else {
            enemy.direction := DirUp;
            enemy.vel := (0.0, -speedFly);
          }
        }
      }
      enemy.state := newState;
    }

    /** `Stop`: the gee waits. */
    method Stop()
      modifies enemy`state, enemy`vel, this`flyDistanceCounter
      ensures enemy.state == StaStay
      ensures old(enemy.state) == StaStay ==> enemy.vel == old(enemy.vel) && flyDistanceCounter == old(flyDistanceCounter)
      ensures old(enemy.state) != StaStay ==> enemy.vel == (0.0, 0.0) && flyDistanceCounter == 0.0
    {
      if enemy.state == StaStay {
        return;
      }
      flyDistanceCounter := 0.0;
      enemy.vel := (0.0, 0.0);
      enemy.state := StaStay;
    }

    /** `Is_At_Max_Distance`, as `AtMaxDistance` says. */
    predicate IsAtMaxDistance()
      reads this, enemy
    {
      AtMaxDistance(enemy.direction, enemy.startPos, enemy.pos, maxDistance)
    }

    /** `Activate`: a gee with no most distance or no flying distance
        never flies (`flies` is false); another flies as `FlyStart` says,
        and turns around at once when it is already at its most
        distance. */
    method Activate(rnd: nat) returns (flies: bool)
      modifies enemy`state, enemy`vel, enemy`direction, this`flyDistanceCounter, this`waitTimeCounter
      ensures flies <==> maxDistance != 0 && flyDistance != 0
      ensures !flies ==>
        (enemy.state == old(enemy.state) && enemy.vel == old(enemy.vel) && enemy.direction == old(enemy.direction)
         && waitTimeCounter == old(waitTimeCounter))
      ensures flies ==> enemy.state == StaFly
      ensures flies && old(enemy.state) != StaFly ==>
        var (d, v) := FlyStart(enemy.startDirection, speedFly, rnd);
        && waitTimeCounter == 0.0
        && (AtMaxDistance(d, enemy.startPos, enemy.pos, maxDistance) ==> enemy.direction == OppositeDirection(d))
        && (!AtMaxDistance(d, enemy.startPos, enemy.pos, maxDistance) ==> enemy.direction == d && enemy.vel == v)
    {
      if maxDistance == 0 || flyDistance == 0 {
        return false;
      }
      SetMovingState(StaFly, rnd);
      if IsAtMaxDistance() {
        enemy.TurnAround();
      }
      flies := true;
    }

    /** `Update` without its clouds (`inRange` is whether the camera is
        near enough, `rnd` the random number drawn): a waiting gee counts
        its wait and flies once it has waited `waitTime` seconds, at once
        when it always flies; a flying one counts the distance it flies
        (`FlownInFrame`) and waits again once past its flying distance
        (unless it always flies) or at its most distance. */
    method Update(sf: real, inRange: bool, rnd: nat)
      modifies enemy`state, enemy`vel, enemy`direction, this`flyDistanceCounter, this`waitTimeCounter
      ensures var on := old(enemy.IsUpdateValid()) && inRange;
        && (!on ==>
              enemy.state == old(enemy.state) && enemy.vel == old(enemy.vel)
              && flyDistanceCounter == old(flyDistanceCounter) && waitTimeCounter == old(waitTimeCounter))
        && (on && old(enemy.state) == StaStay ==>
              var w := old(waitTimeCounter) + sf;
              var wakes := (w > waitTime * SpeedfactorFps as real || alwaysFly) && maxDistance != 0 && flyDistance != 0;
              && (wakes ==> enemy.state == StaFly && waitTimeCounter == 0.0)
              && (!wakes ==> enemy.state == StaStay && waitTimeCounter == w && enemy.vel == old(enemy.vel)))
        && (on && old(enemy.state) != StaStay ==>
              var f := old(flyDistanceCounter) + FlownInFrame(old(enemy.vel), sf);
              var stops := (!alwaysFly && f > flyDistance as real)
                           || AtMaxDistance(old(enemy.direction), enemy.startPos, enemy.pos, maxDistance);
              && waitTimeCounter == old(waitTimeCounter)
              && (stops ==> enemy.state == StaStay && enemy.vel == (0.0, 0.0) && flyDistanceCounter == 0.0)
              && (!stops ==> enemy.state == old(enemy.state) && enemy.vel == old(enemy.vel) && flyDistanceCounter == f))
    {
      if !enemy.IsUpdateValid() || !inRange {
        return;
      }
      if enemy.state == StaStay {
        waitTimeCounter := waitTimeCounter + sf;
        if waitTimeCounter > waitTime * SpeedfactorFps as real || alwaysFly {
          var _ := Activate(rnd);
        }
      } else {
        flyDistanceCounter := flyDistanceCounter + FlownInFrame(enemy.vel, sf);
        if (!alwaysFly && flyDistanceCounter > flyDistance as real) || IsAtMaxDistance() {
          Stop();
        }
      }
    }

    /** `Load_From_Savegame`: the common part only. */
    method LoadFromSavegame(props: seq<(String, String)>, toFloat: String -> real)
      modifies enemy`state, enemy`pos, enemy`direction, enemy`vel, enemy`active, enemy`dead, enemy`canBeGround,
               enemy`dieEvents
      ensures enemy.Saved() == LoadedEnemy(props, old(enemy.Saved()), toFloat)
    {
      enemy.LoadFromSavegame(props, toFloat);
    }
  }
}
