/** The moving platform, `cMoving_Platform`
    (tsc/src/objects/moving_platform.cpp): a platform that moves along a
    line or a circle, and that, once a player stands on it, can start
    moving, shake and fall out of the level. The header with the enum
    values is not part of this model: the move types are LINE = 0,
    CIRCLE = 1, PATH = 2 and PATH_BACKWARDS = 3, the platform states
    STAY = 0, TOUCHED = 1, SHAKE = 2 and FALL = 3, as levels and savegames
    store them. The frame's speed factor is a parameter `sf`. */
module MovingPlatforms {
  import opened Common
  import opened GameTypes
  import opened XmlAttributes
  import opened PropertyHelper

  const TypeLine: int := 0
  const TypeCircle: int := 1
  const TypePath: int := 2
  const TypePathBackwards: int := 3

  const Stay: int := 0
  const Touched: int := 1
  const Shake: int := 2
  const Falling: int := 3

  /** `m_gravity_max` */
  const GravityMax: real := 25.0
  /** the most middle images a platform draws */
  const MiddleCountMax: int := 128

  predicate LineDirection(d: Direction)
  {
    d == DirLeft || d == DirRight || d == DirUp || d == DirDown
  }

  /* ---------------------------------------------------------------------
     Setters
     --------------------------------------------------------------------- */

  /** `Set_Touch_Time`, `Set_Shake_Time`, `Set_Touch_Move_Time`: negative
      times become 0. */
  function NonNegative(v: real): (r: real)
    ensures r >= 0.0 && (r == v || r == 0.0)
    ensures v >= 0.0 <==> r == v
  {
    if v < 0.0 then 0.0 else v
  }

  /** `Set_Middle_Count`: the level's int is taken as an unsigned int, and
      more than 128 becomes 128. A negative count thus wraps to a huge one
      and ends up as 128. */
  function MiddleCount(val: int): (r: int)
    requires IntMin <= val <= IntMax
    ensures 0 <= r <= MiddleCountMax
    ensures 0 <= val <= MiddleCountMax ==> r == val
    ensures val < 0 || val > MiddleCountMax ==> r == MiddleCountMax
  {
    var u := val % 0x1_0000_0000;
    if u > MiddleCountMax then MiddleCountMax else u
  }

  /** `Set_Max_Distance`: a negative distance becomes 0. */
  function MaxDistance(val: int): (r: int)
    ensures r >= 0 && (r == val || r == 0)
    ensures val >= 0 <==> r == val
  {
    if val < 0 then 0 else val
  }

  /** `Set_Massive_Type`: whether the platform can be stood on. Massive and
      halfmassive platforms can, passive and climbable ones cannot, and
      any other type leaves the flag as it was. */
  function GroundFor(m: MassiveType, ground: bool): bool
  {
    if m == MassMassive then true
    else if m == MassPassive then false
    else if m == MassHalfmassive then true
    else if m == MassClimbable then false
    else ground
  }

  lemma GroundForTypes(m: MassiveType, ground: bool)
    ensures m == MassMassive || m == MassHalfmassive ==> GroundFor(m, ground)
    ensures m == MassPassive || m == MassClimbable ==> !GroundFor(m, ground)
    ensures m == MassFrontPassive ==> GroundFor(m, ground) == ground
  {
  }

  /** `Set_Move_Type`: a circling platform never starts up or down; up
      becomes left and down becomes right. */
  function CircleStart(t: int, d: Direction): (r: Direction)
  {
    if t == TypeCircle && d == DirUp then DirLeft
    else if t == TypeCircle && d == DirDown then DirRight
    else d
  }

  lemma CircleStartHorizontal(t: int, d: Direction)
    ensures t == TypeCircle && LineDirection(d) ==> CircleStart(t, d) in {DirLeft, DirRight}
    ensures t != TypeCircle ==> CircleStart(t, d) == d
    ensures d in {DirLeft, DirRight} ==> CircleStart(t, d) == d
  {
  }

  /* ---------------------------------------------------------------------
     Velocity along a line
     --------------------------------------------------------------------- */

  /** The velocity component along a line direction (positive when moving
      that way) and the one across it. */
  function Along(d: Direction, v: (real, real)): real
  {
    if d == DirRight then v.0
    else if d == DirLeft then -v.0
    else if d == DirDown then v.1
    else if d == DirUp then -v.1
    else 0.0
  }

  function Across(d: Direction, v: (real, real)): real
  {
    if d == DirLeft || d == DirRight then v.1 else v.0
  }

  /** A tenth of the speed, per frame. */
  function AccelStep(speed: real, sf: real): real
  {
    speed * 0.1 * sf
  }

  /** One acceleration step of `Update_Velocity`: below the speed in the
      platform's direction, a tenth of the speed per frame is added. */
  function Accelerate(d: Direction, speed: real, v: (real, real), sf: real): (real, real)
  {
    if d == DirUp then (if v.1 > -speed then (v.0, v.1 - AccelStep(speed, sf)) else v)
    else if d == DirDown then (if v.1 < speed then (v.0, v.1 + AccelStep(speed, sf)) else v)
    else if d == DirLeft then (if v.0 > -speed then (v.0 - AccelStep(speed, sf), v.1) else v)
    else if d == DirRight then (if v.0 < speed then (v.0 + AccelStep(speed, sf), v.1) else v)
    else v
  }

  /** Acceleration only ever adds speed in the platform's own direction,
      and only while below the platform's speed. */
  lemma AccelerateAlong(d: Direction, speed: real, v: (real, real), sf: real)
    requires LineDirection(d)
    ensures var r := Accelerate(d, speed, v, sf);
      && Across(d, r) == Across(d, v)
      && (Along(d, v) < speed ==> Along(d, r) == Along(d, v) + AccelStep(speed, sf))
      && (Along(d, v) >= speed ==> r == v)
  {
  }

  function Accelerations(d: Direction, speed: real, v: (real, real), sf: real, n: nat): (real, real)
    decreases n
  {
    if n == 0 then v else Accelerations(d, speed, Accelerate(d, speed, v, sf), sf, n - 1)
  }

  /** A platform accelerating for enough frames reaches its speed. */
  lemma {:induction false} AccelerationReachesSpeed(d: Direction, speed: real, v: (real, real), sf: real, n: nat)
    requires LineDirection(d) && speed > 0.0 && sf > 0.0
    requires n as real * (AccelStep(speed, sf)) >= speed - Along(d, v)
    ensures Along(d, Accelerations(d, speed, v, sf, n)) >= speed
    decreases n
  {
    AccelerateAlong(d, speed, v, sf);
    if n > 0 {
      var w := Accelerate(d, speed, v, sf);
      assert (n - 1) as real * (AccelStep(speed, sf)) >= speed - Along(d, w) by {
        if Along(d, v) < speed {
          assert n as real * (AccelStep(speed, sf)) == (n - 1) as real * (AccelStep(speed, sf)) + AccelStep(speed, sf);
        } else {
          assert (n - 1) as real * (AccelStep(speed, sf)) >= 0.0;
        }
      }
      AccelerationReachesSpeed(d, speed, w, sf, n - 1);
    }
  }

  /** `Update_Velocity`: only line platforms steer themselves; a line
      platform that may move (positive speed, and either no touch-move time
      or touched for longer than it) accelerates, any other stops. */
  function VelocityUpdate(moveType: int, speed: real, touchMoveTime: real, touchCounter: real,
                          d: Direction, v: (real, real), sf: real): (real, real)
  {
    if moveType != TypeLine then v
    else if speed > 0.0 && (touchMoveTime == 0.0 || touchCounter > touchMoveTime) then Accelerate(d, speed, v, sf)
    else (0.0, 0.0)
  }

  /** Slowing down near the end of the line: a velocity in the platform's
      direction above the lowest speed loses 5% per frame but not below the
      lowest speed; one not in the platform's direction is set to it. */
  function SlowDown(d: Direction, v: (real, real), lowest: real, sf: real): (real, real)
  {
    if d == DirDown then
      (v.0, if v.1 > 0.0 then (if v.1 > lowest then Floor(Damped(v.1, sf), lowest) else v.1) else lowest)
    else if d == DirUp then
      (v.0, if v.1 < 0.0 then (if v.1 < -lowest then Ceil(Damped(v.1, sf), -lowest) else v.1) else -lowest)
    else if d == DirLeft then
      (if v.0 < 0.0 then (if v.0 < -lowest then Ceil(Damped(v.0, sf), -lowest) else v.0) else -lowest, v.1)
    else if d == DirRight then
      (if v.0 > 0.0 then (if v.0 > lowest then Floor(Damped(v.0, sf), lowest) else v.0) else lowest, v.1)
    else v
  }

  /** 5% less, per frame. */
  function Damped(x: real, sf: real): real
  {
    x * (1.0 - 0.05 * sf)
  }

  /** `x`, raised to `lo` when it has reached it */
  function Floor(x: real, lo: real): real
  {
    if x <= lo then lo else x
  }

  /** `x`, lowered to `hi` when it has reached it */
  function Ceil(x: real, hi: real): real
  {
    if x >= hi then hi else x
  }

  /** Slowing down keeps the platform moving its way: never faster than
      before, never slower than the lowest speed once above it, and at the
      lowest speed when it was not moving its way at all. */
  lemma SlowDownBounds(d: Direction, v: (real, real), lowest: real, sf: real)
    requires LineDirection(d) && lowest >= 0.0 && sf >= 0.0 && 0.05 * sf < 1.0
    ensures var r := SlowDown(d, v, lowest, sf);
      && Across(d, r) == Across(d, v)
      && (Along(d, v) > 0.0 ==> Min2(Along(d, v), lowest) <= Along(d, r) <= Along(d, v))
      && (Along(d, v) <= 0.0 ==> Along(d, r) == lowest)
  {
    var f := 1.0 - 0.05 * sf;
    assert 0.0 < f <= 1.0;
    var r := SlowDown(d, v, lowest, sf);
    if d == DirDown && v.1 > lowest {
      assert v.1 * f <= v.1 * 1.0;
    } else if d == DirUp && v.1 < -lowest {
      assert v.1 * f >= v.1 * 1.0;
    } else if d == DirLeft && v.0 < -lowest {
      assert v.0 * f >= v.0 * 1.0;
    } else if d == DirRight && v.0 > lowest {
      assert v.0 * f <= v.0 * 1.0;
    }
  }

  function Min2(a: real, b: real): real
  {
    if a < b then a else b
  }

  /** How far a line platform still has to go: out in its start direction
      up to `max` away from its start, back to its start the other way. A
      platform whose direction is neither has arrived. */
  function DistToFinal(start: Direction, d: Direction, max: int, sp: (real, real), p: (real, real)): real
  {
    if start == DirLeft then
      (if d == DirLeft then max as real - (sp.0 - p.0) else if d == DirRight then sp.0 - p.0 else 0.0)
    else if start == DirRight then
      (if d == DirLeft then 0.0 - (sp.0 - p.0) else if d == DirRight then max as real + (sp.0 - p.0) else 0.0)
    else if start == DirUp then
      (if d == DirUp then max as real - (sp.1 - p.1) else if d == DirDown then sp.1 - p.1 else 0.0)
    else if start == DirDown then
      (if d == DirUp then 0.0 - (sp.1 - p.1) else if d == DirDown then max as real + (sp.1 - p.1) else 0.0)
    else 0.0
  }

  /** Wherever the platform is, the way out and the way back add up to the
      maximum distance; at the start the whole distance lies ahead and the
      way back is done. */
  lemma DistancesSumToMax(start: Direction, max: int, sp: (real, real), p: (real, real))
    requires LineDirection(start)
    ensures DistToFinal(start, start, max, sp, p) + DistToFinal(start, OppositeDirection(start), max, sp, p) == max as real
    ensures DistToFinal(start, start, max, sp, sp) == max as real
    ensures DistToFinal(start, OppositeDirection(start), max, sp, sp) == 0.0
  {
  }

  /* ---------------------------------------------------------------------
     Circling
     --------------------------------------------------------------------- */

  /** The angle after one frame of circling: forward for right, backward
      otherwise, wrapped once by 360. */
  function CircleAngle(angle: real, d: Direction, speed: real, sf: real): real
  {
    if d == DirRight then
      var a := angle + Turn(speed, sf);
      if a > 360.0 then a - 360.0 else a
    else
      var a := angle - Turn(speed, sf);
      if a < 0.0 then a + 360.0 else a
  }

  /** One frame's turn: the speed in degrees per frame. */
  function Turn(speed: real, sf: real): real
  {
    speed * sf
  }

  /** The velocity that takes the platform from `pos` to the point at
      sine and cosine `sc` on the circle of radius `max` whose top is the
      start position. */
  function CircleVelocity(sp: (real, real), max: int, sc: (real, real), pos: (real, real)): (real, real)
  {
    var r := max as real;
    ((sp.0 + r * sc.0) - pos.0, (sp.1 - r + r * sc.1) - pos.1)
  }

  /** A circling platform's angle stays within 0 to 360 degrees as long as
      a frame turns it by no more than a full circle. */
  lemma CircleAngleInRange(angle: real, d: Direction, speed: real, sf: real)
    requires 0.0 <= angle <= 360.0 && 0.0 <= Turn(speed, sf) <= 360.0
    ensures 0.0 <= CircleAngle(angle, d, speed, sf) <= 360.0
  {
  }

  /* ---------------------------------------------------------------------
     Touch, shake and fall
     --------------------------------------------------------------------- */

  /** The part of the platform that touching changes. */
  datatype FallState = FallState(
    state: int, touchCounter: real, shakeCounter: real,
    shakeOffset: real, shakeRight: bool, vely: real, canBeGround: bool, active: bool)

  /** `Add_Velocity_Y_Max` (of the moving sprite, whose source is not part
      of this model): `acc` per frame added, up to `max`. */
  function AddVelocityYMax(vely: real, acc: real, max: real, sf: real): real
  {
    if vely + acc * sf > max then max else vely + acc * sf
  }

  /** The shake offset: eight per frame towards the current side, turning
      around when it passes 3 to either side. */
  function ShakeOffset(f: FallState, sf: real): FallState
  {
    if f.shakeRight then
      var c := f.shakeOffset + 8.0 * sf;
      if c > 3.0 then f.(shakeOffset := 3.0, shakeRight := false) else f.(shakeOffset := c)
    else
      var c := f.shakeOffset - 8.0 * sf;
      if c < -3.0 then f.(shakeOffset := -3.0, shakeRight := true) else f.(shakeOffset := c)
  }

  /** The touch part of `Update`: a touched platform counts while it has a
      touch or touch-move time; with a touch time it shakes once touched for
      longer than that, falls once shaken for longer than the shake time,
      and, when it is below the screen (`belowScreen`, from the camera),
      stops, can no longer be stood on and goes inactive. Falling it
      accelerates by 2.1 up to the gravity maximum, and drops what stands on
      it beyond 15. */
  function FallStep(f: FallState, touchTime: real, shakeTime: real, touchMoveTime: real,
                    sf: real, belowScreen: bool): FallState
  {
    var f1 := if (touchTime > 0.0 || touchMoveTime > 0.0) && f.state == Touched
              then f.(touchCounter := f.touchCounter + sf) else f;
    if touchTime <= 0.0 then f1
    else if f1.state == Touched && f1.touchCounter > touchTime then
      f1.(state := Shake, shakeRight := true)
    else if f1.state == Shake then
      var f2 := ShakeOffset(f1.(shakeCounter := f1.shakeCounter + sf), sf);
      if f2.shakeCounter > shakeTime then f2.(state := Falling) else f2
    else if f1.state == Falling then
      var f2 := if f1.vely < GravityMax then f1.(vely := AddVelocityYMax(f1.vely, 2.1, GravityMax, sf)) else f1;
      var f3 := if f2.canBeGround && f2.vely > 15.0 then f2.(canBeGround := false) else f2;
      if belowScreen then f3.(state := Stay, canBeGround := false, active := false) else f3
    else f1
  }

  function FallSteps(f: FallState, touchTime: real, shakeTime: real, touchMoveTime: real,
                     sf: real, n: nat): FallState
    decreases n
  {
    if n == 0 then f
    else FallSteps(FallStep(f, touchTime, shakeTime, touchMoveTime, sf, false), touchTime, shakeTime, touchMoveTime, sf, n - 1)
  }

  /** The states follow one cycle: staying platforms stay (only a player
      touches them), touched ones shake only past the touch time, shaking
      ones fall only past the shake time, and falling ones come to rest,
      inactive and not to be stood on, only below the screen. The shake
      offset stays within 3 of the rest position. */
  lemma FallCycle(f: FallState, touchTime: real, shakeTime: real, touchMoveTime: real, sf: real, belowScreen: bool)
    requires sf >= 0.0 && -3.0 <= f.shakeOffset <= 3.0
    ensures var g := FallStep(f, touchTime, shakeTime, touchMoveTime, sf, belowScreen);
      && -3.0 <= g.shakeOffset <= 3.0
      && (f.state == Stay ==> g == f)
      && (f.state == Touched ==> (g.state == Shake <==> touchTime > 0.0 && f.touchCounter + sf > touchTime))
      && (f.state == Touched ==> g.state in {Touched, Shake})
      && (f.state == Shake ==> (g.state == Falling <==> touchTime > 0.0 && f.shakeCounter + sf > shakeTime))
      && (f.state == Shake ==> g.state in {Shake, Falling})
      && (f.state == Falling && touchTime > 0.0 ==> (g.state == Stay <==> belowScreen))
      && (f.state == Falling && touchTime > 0.0 && belowScreen ==> !g.active && !g.canBeGround)
      && (f.state == Falling && touchTime > 0.0 && !belowScreen ==> g.state == Falling && g.active == f.active)
      && (touchTime <= 0.0 ==> g.state == f.state)
  {
  }

  /** A touched platform with a touch time shakes (or already falls) once
      it has been touched for longer than its touch time. */
  lemma {:induction false} TouchLeadsToShake(f: FallState, touchTime: real, shakeTime: real, touchMoveTime: real, sf: real, n: nat)
    requires touchTime > 0.0 && sf > 0.0
    requires f.state in {Touched, Shake, Falling}
    requires f.state == Touched ==> n > 0 && f.touchCounter + n as real * sf > touchTime
    ensures FallSteps(f, touchTime, shakeTime, touchMoveTime, sf, n).state in {Shake, Falling}
    decreases n
  {
    if n == 0 {
      assert f.state != Touched;
    } else {
      var g := FallStep(f, touchTime, shakeTime, touchMoveTime, sf, false);
      if f.state == Touched && g.state == Touched {
        assert g.touchCounter == f.touchCounter + sf;
        assert g.touchCounter + (n - 1) as real * sf == f.touchCounter + n as real * sf;
      }
      TouchLeadsToShake(g, touchTime, shakeTime, touchMoveTime, sf, n - 1);
    }
  }

  /** A shaking platform falls once it has shaken for longer than its shake
      time, and keeps falling while above the screen's bottom. */
  lemma {:induction false} ShakeLeadsToFall(f: FallState, touchTime: real, shakeTime: real, touchMoveTime: real, sf: real, n: nat)
    requires touchTime > 0.0 && sf > 0.0
    requires f.state in {Shake, Falling}
    requires f.state == Shake ==> n > 0 && f.shakeCounter + n as real * sf > shakeTime
    ensures FallSteps(f, touchTime, shakeTime, touchMoveTime, sf, n).state == Falling
    decreases n
  {
    if n == 0 {
      assert f.state != Shake;
    } else {
      var g := FallStep(f, touchTime, shakeTime, touchMoveTime, sf, false);
      if f.state == Shake && g.state == Shake {
        assert g.shakeCounter == f.shakeCounter + sf;
        assert g.shakeCounter + (n - 1) as real * sf == f.shakeCounter + n as real * sf;
      }
      ShakeLeadsToFall(g, touchTime, shakeTime, touchMoveTime, sf, n - 1);
    }
  }

  /* ---------------------------------------------------------------------
     Moving
     --------------------------------------------------------------------- */

  /** The settings movement depends on. */
  datatype Course = Course(
    moveType: int, speed: real, lowestSpeed: real, maxDistance: int, slowDownPos: real,
    touchMoveTime: real, startDirection: Direction, startPos: (real, real))

  /** The part of the platform that movement changes. */
  datatype Motion = Motion(vel: (real, real), direction: Direction, angle: real)

  /** Whether the platform moves this frame: it has a speed, is not
      falling, and has no touch-move time or has been touched for longer. */
  predicate Moves(speed: real, state: int, touchMoveTime: real, touchCounter: real)
  {
    speed != 0.0 && state != Falling && (touchMoveTime == 0.0 || touchCounter > touchMoveTime)
  }

  /** The moving part of `Update`. A line platform that has arrived stops,
      turns around and sets off the other way; near its end it slows down;
      elsewhere it accelerates. A circling platform turns its angle and
      heads for the point on the circle, which `circle` gives as the sine
      and cosine of an angle in degrees. Path platforms follow a path
      state that is not part of this model. */
  function MoveStep(c: Course, touchCounter: real, pos: (real, real), m: Motion, sf: real,
                    circle: real -> (real, real)): Motion
  {
    if c.moveType == TypeLine then
      var dist := DistToFinal(c.startDirection, m.direction, c.maxDistance, c.startPos, pos);
      if dist <= 0.0 then
        var back := OppositeDirection(m.direction);
        m.(direction := back,
           vel := VelocityUpdate(c.moveType, c.speed, c.touchMoveTime, touchCounter, back, (0.0, 0.0), sf))
      else if dist < c.slowDownPos then
        m.(vel := SlowDown(m.direction, m.vel, c.lowestSpeed, sf))
      else
        m.(vel := VelocityUpdate(c.moveType, c.speed, c.touchMoveTime, touchCounter, m.direction, m.vel, sf))
    else if c.moveType == TypeCircle then
      var a := CircleAngle(m.angle, m.direction, c.speed, sf);
      m.(angle := a, vel := CircleVelocity(c.startPos, c.maxDistance, circle(a), pos))
    else m
  }

  /** A line platform that has reached its end turns around, heading back
      the way it came; anywhere else on its line it keeps its direction. */
  lemma LineTurnsAtEnd(c: Course, touchCounter: real, pos: (real, real), m: Motion, sf: real, circle: real -> (real, real))
    requires c.moveType == TypeLine && LineDirection(m.direction)
    ensures var r := MoveStep(c, touchCounter, pos, m, sf, circle);
      && (DistToFinal(c.startDirection, m.direction, c.maxDistance, c.startPos, pos) <= 0.0 ==>
            r.direction == OppositeDirection(m.direction) && OppositeDirection(r.direction) == m.direction)
      && (DistToFinal(c.startDirection, m.direction, c.maxDistance, c.startPos, pos) > 0.0 ==>
            r.direction == m.direction)
      && r.angle == m.angle
  {
    OppositeDirectionInvolution(m.direction);
  }

  /* ---------------------------------------------------------------------
     Savegame
     --------------------------------------------------------------------- */

  /** `Save_To_Savegame_XML_Node`'s own property: the state as a number. */
  function SavedState(state: int): (r: Attributes)
  {
    map["platform_state" := IntToString(state)]
  }

  /** `Load_From_Savegame`'s own part: the saved state when there is one. */
  function LoadedState(values: Attributes, state: int): int
  {
    if "platform_state" in values then StringToInt(values["platform_state"]) else state
  }

  /** Saving a platform and loading it back restores its state. */
  lemma StateRoundTrip(state: int, other: int)
    requires 0 <= state <= IntMax
    ensures LoadedState(SavedState(state), other) == state
  {
    StringToIntOfNat(state);
  }

  /* ---------------------------------------------------------------------
     The platform
     --------------------------------------------------------------------- */

  class MovingPlatform {
    var moveType: int
    var massiveType: MassiveType
    var canBeGround: bool
    var maxDistance: int
    /** `m_max_distance_slow_down_pos` */
    var slowDownPos: real
    var speed: real
    var lowestSpeed: real
    var touchTime: real
    var shakeTime: real
    var touchMoveTime: real
    var middleCount: int
    /** `m_platform_state` */
    var state: int
    var touchCounter: real
    var shakeCounter: real
    /** `m_shake_dir_counter` */
    var shakeOffset: real
    /** `m_shake_dir == 0` */
    var shakeRight: bool
    /** `m_moving_angle` */
    var angle: real
    var direction: Direction
    var startDirection: Direction
    var pos: (real, real)
    var startPos: (real, real)
    var vel: (real, real)
    var active: bool

    /** What the setters keep: clamped times and distance, derived slow-down
        position and lowest speed, capped middle count, bounded shaking. */
    predicate Valid()
      reads this
    {
      touchTime >= 0.0 && shakeTime >= 0.0 && touchMoveTime >= 0.0
      && maxDistance >= 0 && slowDownPos == maxDistance as real * 0.2
      && lowestSpeed == speed * 0.3
      && 0 <= middleCount <= MiddleCountMax
      && -3.0 <= shakeOffset <= 3.0
    }

    function Fall(): FallState
      reads this
    {
      FallState(state, touchCounter, shakeCounter, shakeOffset, shakeRight, vel.1, canBeGround, active)
    }

    function Settings(): Course
      reads this
    {
      Course(moveType, speed, lowestSpeed, maxDistance, slowDownPos, touchMoveTime, startDirection, startPos)
    }

    function Movement(): Motion
      reads this
    {
      Motion(vel, direction, angle)
    }

    /** `Is_Update_Valid`: only an active platform is updated. */
    predicate IsUpdateValid()
      reads this
    {
      active
    }

    /** `cMoving_Platform()`: `Init` — a halfmassive line platform at rest,
        heading right 150 far at speed 3, shaking for 16 frames once it
        has a touch time, with 4 middle images. Setting its start direction
        has already accelerated it once. */
    constructor (sf: real)
      ensures Valid() && moveType == TypeLine && state == Stay && active
      ensures massiveType == MassHalfmassive && canBeGround
      ensures maxDistance == 150 && speed == 3.0 && touchTime == 0.0 && shakeTime == 16.0 && touchMoveTime == 0.0
      ensures middleCount == 4 && direction == DirRight && startDirection == DirRight
      ensures touchCounter == 0.0 && shakeCounter == 0.0 && shakeOffset == 0.0 && shakeRight && angle == 0.0
      ensures pos == startPos == (0.0, 0.0)
      ensures vel == Accelerate(DirRight, 3.0, (0.0, 0.0), sf)
    {
      moveType := TypeLine;
      massiveType := MassHalfmassive;
      canBeGround := true;
      maxDistance := 150;
      slowDownPos := 150 as real * 0.2;
      speed := 3.0;
      lowestSpeed := 3.0 * 0.3;
      touchTime := 0.0;
      shakeTime := 16.0;
      touchMoveTime := 0.0;
      middleCount := 4;
      state := Stay;
      touchCounter := 0.0;
      shakeCounter := 0.0;
      shakeOffset := 0.0;
      shakeRight := true;
      angle := 0.0;
      direction := DirRight;
      startDirection := DirRight;
      pos := (0.0, 0.0);
      startPos := (0.0, 0.0);
      vel := Accelerate(DirRight, 3.0, (0.0, 0.0), sf);
      active := true;
    }

    /** `Update_Velocity`. */
    method UpdateVelocity(sf: real)
      modifies this`vel
      ensures vel == VelocityUpdate(moveType, speed, touchMoveTime, touchCounter, direction, old(vel), sf)
    {
      if moveType != TypeLine {
        return;
      }
      if speed > 0.0 && (touchMoveTime == 0.0 || touchCounter > touchMoveTime) {
        if direction == DirUp {
          if vel.1 > -speed {
            vel := (vel.0, vel.1 - AccelStep(speed, sf));
          }
        } else if direction == DirDown {
          if vel.1 < speed {
            vel := (vel.0, vel.1 + AccelStep(speed, sf));
          }
        } else if direction == DirLeft {
          if vel.0 > -speed {
            vel := (vel.0 - AccelStep(speed, sf), vel.1);
          }
        } else if direction == DirRight {
          if vel.0 < speed {
            vel := (vel.0 + AccelStep(speed, sf), vel.1);
          }
        }
      } else {
        vel := (0.0, 0.0);
      }
    }

    /** `Set_Move_Type`. */
    method SetMoveType(t: int, sf: real)
      modifies this`moveType, this`direction, this`startDirection, this`pos, this`vel
      ensures moveType == t
      ensures startDirection == CircleStart(t, old(startDirection))
      ensures direction == (if startDirection != old(startDirection) then startDirection else old(direction))
      ensures startDirection == old(startDirection) ==> pos == old(pos) && vel == old(vel)
      ensures startDirection != old(startDirection) ==>
        pos == startPos && vel == VelocityUpdate(t, speed, touchMoveTime, touchCounter, startDirection, (0.0, 0.0), sf)
    {
      moveType := t;
      if moveType == TypeCircle {
        if startDirection == DirUp {
          SetDirection(DirLeft, true, sf);
        } else if startDirection == DirDown {
          SetDirection(DirRight, true, sf);
        }
      }
    }

    /** `Set_Massive_Type`. */
    method SetMassiveType(m: MassiveType)
      modifies this`massiveType, this`canBeGround
      ensures massiveType == m && canBeGround == GroundFor(m, old(canBeGround))
    {
      massiveType := m;
      if m == MassMassive {
        canBeGround := true;
      } else if m == MassPassive {
        canBeGround := false;
      } else if m == MassHalfmassive {
        canBeGround := true;
      } else if m == MassClimbable {
        canBeGround := false;
      }
    }

    /** `Set_Direction`: the moving sprite's part stores the direction, and
        the start direction when `newStart`; a new start direction puts the
        platform back to its start at rest. Either way the velocity is
        updated. */
    method SetDirection(dir: Direction, newStart: bool, sf: real)
      modifies this`direction, this`startDirection, this`pos, this`vel
      ensures direction == dir
      ensures startDirection == (if newStart then dir else old(startDirection))
      ensures var reset := newStart && old(startDirection) != dir;
        && pos == (if reset then startPos else old(pos))
        && vel == VelocityUpdate(moveType, speed, touchMoveTime, touchCounter, dir,
                                 if reset then (0.0, 0.0) else old(vel), sf)
    {
      var oldStart := startDirection;
      direction := dir;
      if newStart {
        startDirection := dir;
        if oldStart != startDirection {
          pos := startPos;
          vel := (0.0, 0.0);
        }
      }
      UpdateVelocity(sf);
    }

    /** `Set_Max_Distance`. */
    method SetMaxDistance(val: int)
      modifies this`maxDistance, this`slowDownPos
      ensures maxDistance == MaxDistance(val) && slowDownPos == maxDistance as real * 0.2
    {
      var v := val;
      if v < 0 {
        v := 0;
      }
      maxDistance := v;
      slowDownPos := maxDistance as real * 0.2;
    }

    /** `Set_Speed`: the lowest speed is 30% of it. */
    method SetSpeed(val: real, sf: real)
      modifies this`speed, this`lowestSpeed, this`vel
      ensures speed == val && lowestSpeed == val * 0.3
      ensures vel == VelocityUpdate(moveType, val, touchMoveTime, touchCounter, direction, old(vel), sf)
    {
      speed := val;
      lowestSpeed := speed * 0.3;
      UpdateVelocity(sf);
    }

    method SetTouchTime(val: real)
      modifies this`touchTime
      ensures touchTime == NonNegative(val)
    {
      touchTime := val;
      if touchTime < 0.0 {
        touchTime := 0.0;
      }
    }

    method SetShakeTime(val: real)
      modifies this`shakeTime
      ensures shakeTime == NonNegative(val)
    {
      shakeTime := val;
      if shakeTime < 0.0 {
        shakeTime := 0.0;
      }
    }

    /** `Set_Touch_Move_Time`: also puts the platform back to its start at
        rest. */
    method SetTouchMoveTime(val: real)
      modifies this`touchMoveTime, this`pos, this`vel
      ensures touchMoveTime == NonNegative(val) && pos == startPos && vel == (0.0, 0.0)
    {
      touchMoveTime := val;
      if touchMoveTime < 0.0 {
        touchMoveTime := 0.0;
      }
      pos := startPos;
      vel := (0.0, 0.0);
    }

    /** `Set_Middle_Count`, from the level's int. */
    method SetMiddleCount(val: int)
      requires IntMin <= val <= IntMax
      modifies this`middleCount
      ensures middleCount == MiddleCount(val)
    {
      var u := val % 0x1_0000_0000;
      middleCount := u;
      if middleCount > MiddleCountMax {
        middleCount := MiddleCountMax;
      }
    }

    /** `Handle_Collision_Player`: a player landing on top touches a
        staying platform that has a touch or touch-move time. */
    method HandleCollisionPlayer(fromTop: bool)
      modifies this`state
      ensures fromTop && (touchTime > 0.0 || touchMoveTime > 0.0) && old(state) == Stay ==> state == Touched
      ensures !(fromTop && (touchTime > 0.0 || touchMoveTime > 0.0) && old(state) == Stay) ==> state == old(state)
    {
      if fromTop {
        if (touchTime > 0.0 || touchMoveTime > 0.0) && state == Stay {
          state := Touched;
        }
      }
    }

    /** The touch part of `Update`. */
    method UpdateFall(sf: real, belowScreen: bool)
      modifies this`state, this`touchCounter, this`shakeCounter, this`shakeOffset, this`shakeRight
      modifies this`vel, this`canBeGround, this`active
      ensures Fall() == FallStep(old(Fall()), touchTime, shakeTime, touchMoveTime, sf, belowScreen)
      ensures vel.0 == old(vel.0)
    {
      if touchTime > 0.0 || touchMoveTime > 0.0 {
        if state == Touched {
          touchCounter := touchCounter + sf;
        }
      }
      if touchTime > 0.0 {
        if state == Touched && touchCounter > touchTime {
          state := Shake;
          shakeRight := true;
        } else if state == Shake {
          shakeCounter := shakeCounter + sf;
          if shakeRight {
            shakeOffset := shakeOffset + 8.0 * sf;
            if shakeOffset > 3.0 {
              shakeOffset := 3.0;
              shakeRight := !shakeRight;
            }
          } else {
            shakeOffset := shakeOffset - 8.0 * sf;
            if shakeOffset < -3.0 {
              shakeOffset := -3.0;
              shakeRight := !shakeRight;
            }
          }
          if shakeCounter > shakeTime {
            state := Falling;
          }
        } else if state == Falling {
          if vel.1 < GravityMax {
            vel := (vel.0, AddVelocityYMax(vel.1, 2.1, GravityMax, sf));
          }
          if canBeGround && vel.1 > 15.0 {
            canBeGround := false;
          }
          if belowScreen {
            state := Stay;
            canBeGround := false;
            active := false;
          }
        }
      }
    }

    /** The moving part of `Update`. */
    method UpdateMotion(sf: real, circle: real -> (real, real))
      modifies this`vel, this`direction, this`angle
      ensures Movement() == MoveStep(Settings(), touchCounter, pos, old(Movement()), sf, circle)
    {
      if moveType == TypeLine {
        var dist := DistToFinal(startDirection, direction, maxDistance, startPos, pos);
        if dist <= 0.0 {
          // `Set_Velocity(0, 0)`, then `Set_Direction` of the opposite
          // direction, keeping the start direction
          vel := (0.0, 0.0);
          direction := OppositeDirection(direction);
          UpdateVelocity(sf);
        } else if dist < slowDownPos {
          vel := SlowDown(direction, vel, lowestSpeed, sf);
        } else {
          UpdateVelocity(sf);
        }
      } else if moveType == TypeCircle {
        if direction == DirRight {
          angle := angle + Turn(speed, sf);
          if angle > 360.0 {
            angle := angle - 360.0;
          }
        } else {
          angle := angle - Turn(speed, sf);
          if angle < 0.0 {
            angle := angle + 360.0;
          }
        }
        vel := CircleVelocity(startPos, maxDistance, circle(angle), pos);
      }
    }

    /** `Update`, for a platform in camera range when `inRange`: the touch
        part, then, if the platform moves, the moving part. */
    method Update(sf: real, inRange: bool, belowScreen: bool, circle: real -> (real, real))
      modifies this`state, this`touchCounter, this`shakeCounter, this`shakeOffset, this`shakeRight
      modifies this`vel, this`canBeGround, this`active, this`direction, this`angle
      ensures !old(active) || !inRange ==> Fall() == old(Fall()) && Movement() == old(Movement())
      ensures old(active) && inRange ==>
        var f := FallStep(old(Fall()), touchTime, shakeTime, touchMoveTime, sf, belowScreen);
        var m := Motion((old(vel.0), f.vely), old(direction), old(angle));
        && Fall() == f.(vely := vel.1)
        && Movement() == (if Moves(speed, f.state, touchMoveTime, f.touchCounter)
                        then MoveStep(Settings(), f.touchCounter, pos, m, sf, circle) else m)
    {
      if !IsUpdateValid() || !inRange {
        return;
      }
      UpdateFall(sf, belowScreen);
      if Moves(speed, state, touchMoveTime, touchCounter) {
        UpdateMotion(sf, circle);
      }
    }

    /** `Load_From_Savegame`'s own part. */
    method LoadFromSavegame(values: Attributes)
      modifies this`state
      ensures state == LoadedState(values, old(state))
    {
      if "platform_state" in values {
        state := StringToInt(values["platform_state"]);
      }
    }

    /** `Save_To_Savegame_XML_Node`'s own part. */
    function SaveToSavegame(): (r: Attributes)
      reads this
      ensures 0 <= state <= IntMax ==> LoadedState(r, 0) == state
    {
      if 0 <= state <= IntMax then StateRoundTrip(state, 0); SavedState(state) else SavedState(state)
    }
  }
}
