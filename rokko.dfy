/** Rokko (tsc/src/enemies/rokko.cpp): a bullet that waits, invisible and
    passive, until the player comes in front of it, then flies straight
    ahead. */
module Rokkos {
  import opened Common
  import opened GameTypes
  import opened PropertyHelper
  import opened XmlAttributes
  import opened Enemies

  /** The velocity `Activate` gives a rokko facing `dir`: its speed along
      that way; a rokko facing no one of the four ways keeps `current`. */
  function RokkoVelocity(dir: Direction, speed: real, current: (real, real)): (real, real)
  {
    match dir
    case DirLeft => (-speed, 0.0)
    case DirRight => (speed, 0.0)
    case DirUp => (0.0, -speed)
    case DirDown => (0.0, speed)
    case _ => current
  }

  /** A rokko facing one of the four ways flies along exactly that axis, at
      its speed, signed by the way. */
  lemma RokkoFliesAhead(dir: Direction, speed: real, current: (real, real))
    requires speed > 0.0 && dir in {DirLeft, DirRight, DirUp, DirDown}
    ensures var v := RokkoVelocity(dir, speed, current);
      && (dir in {DirLeft, DirRight} <==> v.1 == 0.0)
      && (v.0 == speed <==> dir == DirRight) && (v.0 == -speed <==> dir == DirLeft)
      && (v.1 == speed <==> dir == DirDown) && (v.1 == -speed <==> dir == DirUp)
  {
  }

  /** The rotation (about x, y and z) `Set_Direction` gives a rokko facing
      one of the four ways; for any other it warns and keeps its
      rotation. */
  function RokkoRotation(dir: Direction): Option<(real, real, real)>
  {
    match dir
    case DirLeft => Some((0.0, 0.0, 0.0))
    case DirRight => Some((0.0, 180.0, 0.0))
    case DirUp => Some((0.0, 0.0, 90.0))
    case DirDown => Some((0.0, 0.0, 270.0))
    case _ => None
  }

  /** The picture, drawn facing left, is turned to face the way the rokko
      flies: mirrored for right, a quarter turn for up, three for down;
      the four ways give four different rotations. */
  lemma RokkoRotationsDistinct(d: Direction, e: Direction)
    requires RokkoRotation(d).Some? && RokkoRotation(e).Some?
    ensures RokkoRotation(d) == RokkoRotation(e) <==> d == e
    ensures d in {DirLeft, DirRight} <==> RokkoRotation(d).value.2 == 0.0
  {
  }

  /** `Set_Speed`'s clamp: never below 2. */
  function ClampedRokkoSpeed(v: real): (r: real)
    ensures r >= 2.0 && (v >= 2.0 ==> r == v) && (v < 2.0 ==> r == 2.0)
  {
    if v < 2.0 then 2.0 else v
  }

  /** `Set_Max_Distance_Front`'s and `Set_Max_Distance_Sides`' clamp:
      never below `least`. */
  function AtLeast(d: real, least: real): (r: real)
    ensures r >= least && (d >= least ==> r == d) && (d < least ==> r == least)
  {
    if d < least then least else d
  }

  class Rokko {
    const enemy: Enemy
    var speed: real
    /** `m_min_distance_front`, `m_max_distance_front`,
        `m_max_distance_sides`: the zone in front of the rokko where the
        player wakes it */
    var minDistanceFront: real
    var maxDistanceFront: real
    var maxDistanceSides: real
    /** `m_manual`: woken only by a script, never by the player */
    var manual: bool
    var rotation: (real, real, real)
    var iceResistance: real
    var gravityMax: real
    var cameraRange: int

    /** `Init`: a passive, inactive rokko waiting to fly left at 8.5,
        woken 200 to 1000 in front and 400 wide, worth 250 points. */
    constructor ()
      ensures fresh(enemy) && enemy.spriteType == TypeRokko && enemy.state == StaStay && !manual
      ensures enemy.massive == MassPassive && !enemy.active && cameraRange == 4000 && gravityMax == 0.0
      ensures enemy.fireResistant && iceResistance == 1.0 && !enemy.canBeHitFromShell && enemy.killPoints == 250
      ensures enemy.direction == DirLeft && enemy.startDirection == DirLeft && rotation == (0.0, 0.0, 0.0)
      ensures speed == 8.5 && minDistanceFront == 200.0 && maxDistanceFront == 1000.0 && maxDistanceSides == 400.0
    {
      enemy := new Enemy();
      speed := 0.0;
      minDistanceFront := 0.0;
      maxDistanceFront := 0.0;
      maxDistanceSides := 0.0;
      manual := false;
      rotation := (0.0, 0.0, 0.0);
      iceResistance := 1.0;
      gravityMax := 0.0;
      cameraRange := 4000;
      new;
      Init();
    }

    method Init()
      requires enemy.startDirection == DirUndefined
      modifies this`speed, this`minDistanceFront, this`maxDistanceFront, this`maxDistanceSides, this`manual,
               this`rotation, enemy`spriteType, enemy`massive, enemy`active, enemy`fireResistant,
               enemy`canBeHitFromShell, enemy`direction, enemy`startDirection, enemy`state, enemy`killPoints
      ensures enemy.spriteType == TypeRokko && enemy.state == StaStay && !manual
      ensures enemy.massive == MassPassive && !enemy.active
      ensures enemy.fireResistant && !enemy.canBeHitFromShell && enemy.killPoints == 250
      ensures enemy.direction == DirLeft && enemy.startDirection == DirLeft && rotation == (0.0, 0.0, 0.0)
      ensures speed == 8.5 && minDistanceFront == 200.0 && maxDistanceFront == 1000.0 && maxDistanceSides == 400.0
    {
      enemy.spriteType := TypeRokko;
      enemy.massive := MassPassive;
      enemy.active := false;
      enemy.fireResistant := true;
      enemy.canBeHitFromShell := false;
      SetDirection(DirLeft, true);
      SetSpeed(8.5);
      minDistanceFront := 200.0;
      SetMaxDistanceFront(1000.0);
      SetMaxDistanceSides(400.0);
      enemy.state := StaStay;
      manual := false;
      enemy.killPoints := 250;
    }

    /** The constructor from level attributes: `Init`, then the position,
        direction and speed read. */
    constructor FromAttributes(a: Attributes, toFloat: String -> real)
      ensures fresh(enemy) && enemy.spriteType == TypeRokko && enemy.state == StaStay && !enemy.active
      ensures enemy.pos == enemy.startPos == (toFloat(Get(a, "posx")), toFloat(Get(a, "posy")))
      ensures enemy.startDirection == DirectionId(FetchString(a, "direction", "left"))
      ensures speed == ClampedRokkoSpeed(FetchFloat(a, "speed", 8.5, toFloat))
    {
      enemy := new Enemy();
      speed := 0.0;
      minDistanceFront := 0.0;
      maxDistanceFront := 0.0;
      maxDistanceSides := 0.0;
      manual := false;
      rotation := (0.0, 0.0, 0.0);
      iceResistance := 1.0;
      gravityMax := 0.0;
      cameraRange := 4000;
      new;
      Init();
      var p := (toFloat(Get(a, "posx")), toFloat(Get(a, "posy")));
      enemy.pos, enemy.startPos := p, p;
      SetDirection(DirectionId(FetchString(a, "direction", DirectionName(enemy.startDirection))), true);
      SetSpeed(FetchFloat(a, "speed", speed, toFloat));
    }

    /** `Set_Direction`: the start direction already set changes nothing;
        another turns the picture to face it (`RokkoRotation`). */
    method SetDirection(dir: Direction, newStart: bool)
      modifies enemy`direction, enemy`startDirection, this`rotation
      ensures old(enemy.startDirection) == dir ==>
        (enemy.direction == old(enemy.direction) && enemy.startDirection == dir && rotation == old(rotation))
      ensures old(enemy.startDirection) != dir ==>
        (&& enemy.direction == dir
         && enemy.startDirection == (if newStart then dir else old(enemy.startDirection))
         && rotation == (if RokkoRotation(dir).Some? then RokkoRotation(dir).value else old(rotation)))
    {
      if enemy.startDirection == dir {
        return;
      }
      enemy.SetDirection(dir, newStart);
      var r := RokkoRotation(enemy.direction);
      if r.Some? {
        rotation := r.value;
      }
    }

    /** `Set_Speed`: at least 2. */
    method SetSpeed(v: real)
      modifies this`speed
      ensures speed == ClampedRokkoSpeed(v)
    {
      var s := v;
      if s < 2.0 {
        s := 2.0;
      }
      speed := s;
    }

    /** `Set_Max_Distance_Front`: never nearer than the least distance in
        front. */
    method SetMaxDistanceFront(d: real)
      modifies this`maxDistanceFront
      ensures maxDistanceFront == AtLeast(d, minDistanceFront)
    {
      var front := d;
      if front < minDistanceFront {
        front := minDistanceFront;
      }
      maxDistanceFront := front;
    }

    /** `Set_Max_Distance_Sides`: at least 50 wide. */
    method SetMaxDistanceSides(d: real)
      modifies this`maxDistanceSides
      ensures maxDistanceSides == AtLeast(d, 50.0)
    {
      var sides := d;
      if sides < 50.0 {
        sides := 50.0;
      }
      maxDistanceSides := sides;
    }

    /** `Set_Manual`. */
    method SetManual(m: bool)
      modifies this`manual
      ensures manual == m
    {
      manual := m;
    }

    /** `Activate`: the rokko flies, massive and active, ahead at its
        speed (`RokkoVelocity`). */
    method Activate()
      modifies enemy`state, enemy`massive, enemy`active, enemy`vel
      ensures enemy.state == StaFly && enemy.massive == MassMassive && enemy.active
      ensures enemy.vel == RokkoVelocity(enemy.direction, speed, old(enemy.vel))
    {
      enemy.state := StaFly;
      enemy.massive := MassMassive;
      enemy.active := true;
      if enemy.direction == DirLeft {
        enemy.vel := (-speed, 0.0);
      } else if enemy.direction == DirRight {
        enemy.vel := (speed, 0.0);
      } else if enemy.direction == DirUp {
        enemy.vel := (0.0, -speed);
      } else if enemy.direction == DirDown {
        enemy.vel := (0.0, speed);
      }
    }

    /** `DownGrade`: every downgrade breaks the rokko; it ends dead,
        passive, falling with a gravity of 26 from a vertical speed of 0. */
    method DownGrade(force: bool)
      modifies enemy`dead, enemy`canBeGround, enemy`dieEvents, enemy`massive, enemy`vel, this`gravityMax
      ensures enemy.dead && enemy.massive == MassPassive && gravityMax == 26.0
      ensures enemy.vel == (old(enemy.vel.0), 0.0)
      ensures enemy.dieEvents == old(enemy.dieEvents) + 1
    {
      enemy.SetDead(true);
      enemy.massive := MassPassive;
      gravityMax := 26.0;
      enemy.vel := (enemy.vel.0, 0.0);
    }

    /** The waking part of `Update` (`inRange` is whether the camera is
        near enough, `alexGhost` whether Alex is a ghost, `playerInFront`
        whether the player is in the zone in front): a waiting rokko wakes
        (`woke`) only when the player is in front, and never in manual mode
        or while Alex is a ghost. */
    method Update(inRange: bool, alexGhost: bool, playerInFront: bool) returns (woke: bool)
      modifies enemy`state, enemy`massive, enemy`active, enemy`vel
      ensures woke <==>
        old(enemy.IsUpdateValid()) && inRange && old(enemy.state) != StaFly && !manual && !alexGhost && playerInFront
      ensures woke ==>
        (enemy.state == StaFly && enemy.massive == MassMassive && enemy.active
         && enemy.vel == RokkoVelocity(enemy.direction, speed, old(enemy.vel)))
      ensures !woke ==>
        (enemy.state == old(enemy.state) && enemy.massive == old(enemy.massive) && enemy.active == old(enemy.active)
         && enemy.vel == old(enemy.vel))
    {
      woke := false;
      if !enemy.IsUpdateValid() || !inRange {
        return;
      }
      if enemy.state != StaFly {
        if manual || alexGhost || !playerInFront {
          return;
        }
        Activate();
        woke := true;
      }
    }

    /** `Load_From_Savegame`: the common part, then a rokko saved flying
        and still alive flies again (without its sound). */
    method LoadFromSavegame(props: seq<(String, String)>, toFloat: String -> real)
      modifies enemy`state, enemy`pos, enemy`direction, enemy`vel, enemy`active, enemy`dead, enemy`canBeGround,
               enemy`dieEvents, enemy`massive
      ensures var l := LoadedEnemy(props, old(enemy.Saved()), toFloat);
        && (l.dead || l.state != StaFly ==> enemy.Saved() == l && enemy.massive == old(enemy.massive))
        && (!l.dead && l.state == StaFly ==>
              enemy.Saved() == l.(vel := RokkoVelocity(l.direction, speed, l.vel), active := true)
              && enemy.massive == MassMassive)
    {
      enemy.LoadFromSavegame(props, toFloat);
      if enemy.dead {
        return;
      }
      if enemy.state == StaFly {
        Activate();
      }
    }
  }
}
