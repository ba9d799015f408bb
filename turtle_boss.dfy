/** The turtle boss (tsc/src/enemies/bosses/turtle_boss.cpp): a walker
    that counts the stomps it takes; every `maxHits` of them make a round,
    after which it grows angry, rolls as a shell and walks again, faster;
    after `maxDowngrades` rounds it dies. */
module TurtleBosses {
  import opened Common
  import opened GameTypes
  import opened PropertyHelper
  import opened XmlAttributes
  import opened Enemies

  /** `TurtleBoss_state` (turtle_boss.hpp). */
  const TurtleDead := 0
  const TurtleWalk := 1
  const TurtleShellStand := 2
  const TurtleShellRun := 3
  const TurtleStandAngry := 4

  predicate TurtleShell(s: int)
  {
    s == TurtleShellStand || s == TurtleShellRun
  }

  /* ---------------------------------------------------------------------
     The stomp counters
     --------------------------------------------------------------------- */

  /** `m_hits` (stomps in the current round) and `m_downgrade_count`
      (rounds completed). */
  datatype HitCount = HitCount(hits: int, downgrades: int)

  /** All the stomps the counters stand for when a round is `maxHits`
      stomps long (`m_hits + m_downgrade_count * m_max_hits`); the boss's
      speed grows with it. */
  function Total(c: HitCount, maxHits: int): int
  {
    c.hits + c.downgrades * maxHits
  }

  /** The counter part of `DownGrade` for a stomp on a walking boss: one
      hit more, and once they reach `maxHits` a round is completed and the
      hits start afresh. */
  function CountHit(c: HitCount, maxHits: int): HitCount
  {
    if c.hits + 1 >= maxHits then HitCount(0, c.downgrades + 1) else HitCount(c.hits + 1, c.downgrades)
  }

  /** The counters after `n` stomps on a walking boss. */
  function Hits(c: HitCount, maxHits: int, n: nat): HitCount
  {
    if n == 0 then c else CountHit(Hits(c, maxHits, n - 1), maxHits)
  }

  /** Each stomp adds exactly one to the total, and the hits of the round
      stay below `maxHits`: the counters count the stomps. */
  lemma {:induction false} HitsTotal(c: HitCount, maxHits: int, n: nat)
    requires maxHits >= 1 && 0 <= c.hits < maxHits
    ensures var r := Hits(c, maxHits, n);
      && Total(r, maxHits) == Total(c, maxHits) + n
      && 0 <= r.hits < maxHits
      && r.downgrades >= c.downgrades
  {
    if n > 0 {
      HitsTotal(c, maxHits, n - 1);
      var p := Hits(c, maxHits, n - 1);
      if p.hits + 1 >= maxHits {
        assert (p.downgrades + 1) * maxHits == p.downgrades * maxHits + maxHits;
      }
    }
  }

  /** With rounds of at most one stomp, every stomp completes a round. */
  lemma {:induction false} EveryStompARound(c: HitCount, maxHits: int, n: nat)
    requires maxHits <= 1 && n > 0 && c.hits >= 0
    ensures Hits(c, maxHits, n) == HitCount(0, c.downgrades + n)
  {
    if n > 1 {
      EveryStompARound(c, maxHits, n - 1);
    }
  }

  lemma MulMonotone(a: int, b: int, m: int)
    requires a <= b && m >= 0
    ensures a * m <= b * m
  {
  }

  lemma MulCancel(a: int, b: int, m: int)
    requires a * m <= b * m && m >= 1
    ensures a <= b
  {
  }

  /** Under the test as meant, a fresh boss whose rounds are `maxHits`
      stomps long and who takes `maxDowngrades` of them is killed exactly
      by the stomp numbered `maxHits * maxDowngrades`, and by none before. */
  lemma {:induction false} StompsToKill(maxHits: int, maxDowngrades: int, n: nat)
    requires maxHits >= 1 && maxDowngrades >= 1
    ensures RoundKills(Hits(HitCount(0, 0), maxHits, n).downgrades, maxDowngrades) <==> n >= maxHits * maxDowngrades
  {
    HitsTotal(HitCount(0, 0), maxHits, n);
    var r := Hits(HitCount(0, 0), maxHits, n);
    assert r.hits + r.downgrades * maxHits == n;
    if r.downgrades >= maxDowngrades {
      MulMonotone(maxDowngrades, r.downgrades, maxHits);
      assert maxDowngrades * maxHits == maxHits * maxDowngrades;
    } else {
      MulMonotone(r.downgrades + 1, maxDowngrades, maxHits);
      assert (r.downgrades + 1) * maxHits == r.downgrades * maxHits + maxHits;
      assert maxDowngrades * maxHits == maxHits * maxDowngrades;
    }
  }

  /** With at least one round to take, the test as written kills a fresh
      boss at the same stomp as the test as meant: none of the stomps
      before number `maxHits * maxDowngrades` kills it, and that one does. */
  lemma StompsToKillAsWritten(maxHits: int, maxDowngrades: int, n: nat)
    requires maxHits >= 1 && maxDowngrades >= 1 && n <= maxHits * maxDowngrades
    ensures RoundKillsAsWritten(Hits(HitCount(0, 0), maxHits, n).downgrades, maxDowngrades) <==> n == maxHits * maxDowngrades
  {
    StompsToKill(maxHits, maxDowngrades, n);
    HitsTotal(HitCount(0, 0), maxHits, n);
    var r := Hits(HitCount(0, 0), maxHits, n);
    assert r.downgrades * maxHits <= maxDowngrades * maxHits;
    MulCancel(r.downgrades, maxDowngrades, maxHits);
  }

  /** As written, a boss set to take no rounds (the setter allows 0)
      survives every stomp: once its first round is complete its count is
      past 0 for good, and the test for equality never holds; as meant it
      dies with that first round. */
  lemma MaxZeroBossSurvivesAsWritten(maxHits: int, n: nat)
    requires maxHits >= 1 && n >= maxHits
    ensures !RoundKillsAsWritten(Hits(HitCount(0, 0), maxHits, n).downgrades, 0)
    ensures RoundKills(Hits(HitCount(0, 0), maxHits, maxHits).downgrades, 0)
  {
    HitsTotal(HitCount(0, 0), maxHits, n);
    HitsTotal(HitCount(0, 0), maxHits, maxHits);
  }

  /* ---------------------------------------------------------------------
     Speeds
     --------------------------------------------------------------------- */

  /** The animation speeds `Set_Turtle_Moving_State` sets: walking
      1 + total/15, rolling 3 + total/8, at most 15 either way. */
  function WalkAnimationSpeed(total: int): real
  {
    var s := 1.0 + total as real / 15.0;
    if s > 15.0 then 15.0 else s
  }

  function RollAnimationSpeed(total: int): real
  {
    var s := 3.0 + total as real / 8.0;
    if s > 15.0 then 15.0 else s
  }

  /** The animation speeds are capped at 15, grow with the stomps taken,
      and start at 1 walking and 3 rolling. */
  lemma AnimationSpeedsCapped(t1: int, t2: int)
    requires 0 <= t1 <= t2
    ensures 1.0 <= WalkAnimationSpeed(t1) <= WalkAnimationSpeed(t2) <= 15.0
    ensures 3.0 <= RollAnimationSpeed(t1) <= RollAnimationSpeed(t2) <= 15.0
    ensures WalkAnimationSpeed(0) == 1.0 && RollAnimationSpeed(0) == 3.0
    ensures WalkAnimationSpeed(t1) <= RollAnimationSpeed(t1)
  {
  }

  /** `Update_Velocity_Max`: a red boss walks at 3.6 plus 1.8 for each
      stomp taken, gaining 0.5 plus 0.15 each, rolls at 14 plus 3 for each
      round, gaining 0.8 plus 0.18 each, and stands still as a standing
      shell or angry; any other colour keeps `current`. */
  function TurtleSpeed(state: int, color: DefaultColor, c: HitCount, maxHits: int, current: (real, real)): (real, real)
  {
    if color != ColRed then current
    else if state == TurtleWalk then
      (3.6 + Total(c, maxHits) as real * 1.8, 0.5 + Total(c, maxHits) as real * 0.15)
    else if state == TurtleShellRun then (14.0 + c.downgrades as real * 3.0, 0.8 + c.downgrades as real * 0.18)
    else if state == TurtleShellStand || state == TurtleStandAngry then (0.0, 0.0)
    else current
  }

  /** A fresh red boss walks at 3.6, gaining 0.5 a frame. */
  lemma FreshTurtleSpeed(current: (real, real))
    ensures TurtleSpeed(TurtleWalk, ColRed, HitCount(0, 0), 3, current) == (3.6, 0.5)
  {
    assert Total(HitCount(0, 0), 3) == 0;
  }

  /** A red boss walks faster after every stomp, and rolls faster after
      every round. */
  lemma TurtleSpeedGrows(c: HitCount, maxHits: int, n: nat, current: (real, real))
    requires maxHits >= 1 && 0 <= c.hits < maxHits
    ensures TurtleSpeed(TurtleWalk, ColRed, c, maxHits, current).0
            <= TurtleSpeed(TurtleWalk, ColRed, Hits(c, maxHits, n), maxHits, current).0
    ensures TurtleSpeed(TurtleShellRun, ColRed, c, maxHits, current).0
            <= TurtleSpeed(TurtleShellRun, ColRed, Hits(c, maxHits, n), maxHits, current).0
  {
    HitsTotal(c, maxHits, n);
  }

  /* ---------------------------------------------------------------------
     Loading from a level
     --------------------------------------------------------------------- */

  /** The shell time the level loader reads, as written: through
      `string_to_int`, with the current time, already cut to a whole number
      by `int_to_string`, as the default. */
  function LoadedShellTimeAsWritten(a: Attributes, current: int): int
  {
    StringToInt(FetchString(a, "shell_time", IntToString(current)))
  }

  /** As written, a boss whose level gives no shell time, or the default
      2.5 seconds, gets 2 seconds. */
  lemma ShellTimeLosesFractionAsWritten()
    ensures LoadedShellTimeAsWritten(map[], Truncate(2.5)) == 2
    ensures LoadedShellTimeAsWritten(map["shell_time" := "2.5"], Truncate(2.5)) == 2
  {
    assert Truncate(2.5) == 2;
    StringToIntOfNat(2);
    var s: String := "2.5";
    assert SkipSpace(s) == s;
    assert LeadingDigits(s[1..]) == [];
    assert LeadingDigits(s) == ['2'];
    assert DigitsValue(['2']) == 2;
  }

  /** Reading the shell time as written comes to fetching it as an `int`
      with the whole default, since the default's text reads back as it. */
  lemma ShellTimeAsWrittenFetchesInt(a: Attributes, current: int)
    requires IntMin <= current <= IntMax
    ensures LoadedShellTimeAsWritten(a, current) == FetchInt(a, "shell_time", current)
  {
    if "shell_time" !in a {
      StringToIntOfInt(current);
    }
  }

  /** The shell time as meant: read as a float, the current one when the
      level gives none (`toFloat` is `string_to_float`). */
  function LoadedShellTime(a: Attributes, current: real, toFloat: String -> real): real
  {
    FetchFloat(a, "shell_time", current, toFloat)
  }

  /** As meant, a missing shell time keeps the current one exactly, and a
      saved one comes back whole. */
  lemma ShellTimeKept(a: Attributes, current: real, t: real, floatText: real -> String, toFloat: String -> real)
    requires toFloat(floatText(t)) == t
    ensures "shell_time" !in a ==> LoadedShellTime(a, current, toFloat) == current
    ensures LoadedShellTime(a["shell_time" := floatText(t)], current, toFloat) == t
  {
  }

  /** The shell time `Set_Shell_Time` keeps: a negative one is taken as 0. */
  function ShellTimeSet(t: real): (r: real)
    ensures r >= 0.0 && (t >= 0.0 ==> r == t)
  {
    if t < 0.0 then 0.0 else t
  }

  class TurtleBoss {
    const enemy: Enemy
    /** `m_turtle_state` */
    var turtleState: int
    var hits: int
    /** `m_downgrade_count` */
    var downgrades: int
    var maxHits: int
    /** `m_max_downgrade_count` */
    var maxDowngrades: int
    /** how many seconds the shell rolls before standing up */
    var shellTime: real
    var levelEndsIfKilled: bool
    var color: DefaultColor
    var cameraRange: int
    var animSpeed: real

    function Count(): HitCount
      reads this`hits, this`downgrades
    {
      HitCount(hits, downgrades)
    }

    /** `Init`: a red boss walking to the right, worth 750 points, fire
        resistant, immune to shells, three stomps a round, three rounds,
        2.5 seconds of rolling; the level ends when it dies. */
    constructor ()
      ensures fresh(enemy) && enemy.spriteType == TypeTurtleBoss && turtleState == TurtleWalk
      ensures hits == 0 && downgrades == 0 && maxHits == 3 && maxDowngrades == 3 && shellTime == 2.5
      ensures levelEndsIfKilled && color == ColRed && enemy.killPoints == 750
      ensures enemy.fireResistant && !enemy.canBeHitFromShell
      ensures enemy.state == StaWalk && cameraRange == 1500 && animSpeed == 1.0
      ensures enemy.velxMax == 3.6 && enemy.velxGain == 0.5
      ensures enemy.direction == DirRight && enemy.startDirection == DirRight
      ensures !enemy.dead && enemy.active && enemy.massive == MassMassive
    {
      enemy := new Enemy();
      turtleState := TurtleDead;
      hits := 0;
      downgrades := 0;
      maxHits := 3;
      maxDowngrades := 3;
      shellTime := 2.5;
      levelEndsIfKilled := true;
      color := ColDefault;
      cameraRange := 0;
      animSpeed := 1.0;
      new;
      Init();
    }

    /** `Init`, on a boss in the state `cEnemy()` leaves it. */
    method Init()
      requires turtleState == TurtleDead && color == ColDefault && hits == 0 && downgrades == 0 && maxHits == 3
      requires enemy.direction == DirUndefined && enemy.startDirection == DirUndefined
      requires !enemy.dead && enemy.active && enemy.massive == MassMassive
      modifies this`turtleState, this`color, this`cameraRange, this`animSpeed, enemy`spriteType,
               enemy`fireResistant, enemy`canBeHitFromShell, enemy`killPoints, enemy`velxMax, enemy`velxGain,
               enemy`state, enemy`counter, enemy`direction, enemy`startDirection
      ensures enemy.spriteType == TypeTurtleBoss && turtleState == TurtleWalk
      ensures hits == 0 && downgrades == 0 && maxHits == 3 && maxDowngrades == old(maxDowngrades)
      ensures shellTime == old(shellTime) && levelEndsIfKilled == old(levelEndsIfKilled)
      ensures color == ColRed && enemy.killPoints == 750
      ensures enemy.fireResistant && !enemy.canBeHitFromShell
      ensures enemy.state == StaWalk && cameraRange == 1500 && animSpeed == 1.0
      ensures enemy.velxMax == 3.6 && enemy.velxGain == 0.5
      ensures enemy.direction == DirRight && enemy.startDirection == DirRight
      ensures !enemy.dead && enemy.active && enemy.massive == MassMassive
      ensures enemy.pos == old(enemy.pos) && enemy.startPos == old(enemy.startPos)
    {
      InitKind();
      InitMotion();
    }

    /** The second half of `Init`: walking, to the right. */
    method InitMotion()
      requires turtleState == TurtleDead && color == ColRed && hits == 0 && downgrades == 0 && maxHits == 3
      modifies this`turtleState, this`cameraRange, this`animSpeed, enemy`state, enemy`counter,
               enemy`velxMax, enemy`velxGain, enemy`direction, enemy`startDirection
      ensures turtleState == TurtleWalk && enemy.state == StaWalk && cameraRange == 1500 && animSpeed == 1.0
      ensures enemy.velxMax == 3.6 && enemy.velxGain == 0.5
      ensures enemy.direction == DirRight && enemy.startDirection == DirRight
    {
      ghost var speed := (enemy.velxMax, enemy.velxGain);
      FreshTurtleSpeed(speed);
      SetTurtleMovingState(TurtleWalk);
      assert Total(Count(), maxHits) == 0;
      SetDirection(DirRight, true);
    }

    /** The first half of `Init`: what the boss is. */
    method InitKind()
      requires turtleState == TurtleDead && color == ColDefault
      modifies this`color, enemy`spriteType, enemy`fireResistant, enemy`canBeHitFromShell, enemy`killPoints,
               enemy`velxMax, enemy`velxGain
      ensures enemy.spriteType == TypeTurtleBoss && color == ColRed && enemy.killPoints == 750
      ensures enemy.fireResistant && !enemy.canBeHitFromShell
      ensures enemy.velxMax == old(enemy.velxMax) && enemy.velxGain == old(enemy.velxGain)
    {
      enemy.spriteType := TypeTurtleBoss;
      enemy.fireResistant := true;
      enemy.canBeHitFromShell := false;
      SetColor(ColRed);
    }

    /** The level loader: `Init`, then the position, direction, colour,
        counts, shell time and level end the attributes give, each through
        its setter; the shell time is read as written, as a whole number
        (`toFloat` is `string_to_float`, used for the position). */
    constructor FromAttributes(a: Attributes, toFloat: String -> real)
      ensures fresh(enemy) && enemy.spriteType == TypeTurtleBoss && turtleState == TurtleWalk
      ensures enemy.pos == enemy.startPos == (toFloat(Get(a, "posx")), toFloat(Get(a, "posy")))
      ensures color == ColorId(FetchString(a, "color", "red"))
      ensures maxHits == ClampedCount(FetchInt(a, "max_hit_count", 3))
      ensures maxDowngrades == ClampedCount(FetchInt(a, "max_downgrade_count", 3))
      ensures shellTime == ShellTimeSet(FetchInt(a, "shell_time", 2) as real)
      ensures levelEndsIfKilled == FetchBool(a, "level_ends_if_killed", true)
      ensures var d := DirectionId(FetchString(a, "direction", "right"));
        enemy.startDirection == if d in {DirLeft, DirRight} then d else DirRight
    {
      enemy := new Enemy();
      turtleState := TurtleDead;
      hits := 0;
      downgrades := 0;
      maxHits := 3;
      maxDowngrades := 3;
      shellTime := 2.5;
      levelEndsIfKilled := true;
      color := ColDefault;
      cameraRange := 0;
      animSpeed := 1.0;
      new;
      LoadShellTime(a);
      Init();
      LoadPlacement(a, toFloat);
      LoadSettings(a);
    }

    /** The placement part of the constructor from level attributes: the
        position is both the position and the start position, and a
        direction other than left or right keeps the current one. */
    method LoadPlacement(a: Attributes, toFloat: String -> real)
      modifies enemy`pos, enemy`startPos, enemy`direction, enemy`startDirection
      ensures enemy.pos == enemy.startPos == (toFloat(Get(a, "posx")), toFloat(Get(a, "posy")))
      ensures var d := DirectionId(FetchString(a, "direction", DirectionName(old(enemy.startDirection))));
        enemy.startDirection == if d in {DirLeft, DirRight} then d else old(enemy.startDirection)
    {
      var p := (toFloat(Get(a, "posx")), toFloat(Get(a, "posy")));
      enemy.pos, enemy.startPos := p, p;
      SetDirection(DirectionId(FetchString(a, "direction", DirectionName(enemy.startDirection))), true);
    }

    /** The settings part of the constructor from level attributes: each
        absent setting keeps its current value. */
    method LoadSettings(a: Attributes)
      modifies this`color, this`maxHits, this`maxDowngrades, this`levelEndsIfKilled,
               enemy`killPoints, enemy`velxMax, enemy`velxGain
      ensures color == ColorId(FetchString(a, "color", ColorName(old(color))))
      ensures maxHits == ClampedCount(FetchInt(a, "max_hit_count", old(maxHits)))
      ensures maxDowngrades == ClampedCount(FetchInt(a, "max_downgrade_count", old(maxDowngrades)))
      ensures levelEndsIfKilled == FetchBool(a, "level_ends_if_killed", old(levelEndsIfKilled))
    {
      SetColor(ColorId(FetchString(a, "color", ColorName(color))));
      SetMaxHits(FetchInt(a, "max_hit_count", maxHits));
      SetMaxDowngradeCounts(FetchInt(a, "max_downgrade_count", maxDowngrades));
      levelEndsIfKilled := FetchBool(a, "level_ends_if_killed", levelEndsIfKilled);
    }

    /** The shell time part of the constructor from level attributes, read
        as written: through `string_to_int`, with the current time cut to a
        whole number (a time beyond the range of `int` has no defined cut)
        as the default. */
    method LoadShellTime(a: Attributes)
      requires IntMin as real <= shellTime < IntMax as real
      modifies this`shellTime
      ensures shellTime == ShellTimeSet(FetchInt(a, "shell_time", Truncate(old(shellTime))) as real)
    {
      ShellTimeAsWrittenFetchesInt(a, Truncate(shellTime));
      SetShellTime(LoadedShellTimeAsWritten(a, Truncate(shellTime)) as real);
    }

    /** `Set_Max_Hits`, `Set_Max_Downgrade_Counts` and `Set_Shell_Time`:
        a negative value is taken as 0. */
    method SetMaxHits(n: int)
      modifies this`maxHits
      ensures maxHits == ClampedCount(n)
    {
      maxHits := n;
      if maxHits < 0 {
        maxHits := 0;
      }
    }

    method SetMaxDowngradeCounts(n: int)
      modifies this`maxDowngrades
      ensures maxDowngrades == ClampedCount(n)
    {
      maxDowngrades := n;
      if maxDowngrades < 0 {
        maxDowngrades := 0;
      }
    }

    method SetShellTime(t: real)
      modifies this`shellTime
      ensures shellTime >= 0.0 && (t >= 0.0 ==> shellTime == t) && (t < 0.0 ==> shellTime == 0.0)
    {
      shellTime := t;
      if shellTime < 0.0 {
        shellTime := 0.0;
      }
    }

    /** `Set_Direction`: only left and right are taken. */
    method SetDirection(dir: Direction, newStart: bool)
      modifies enemy`direction, enemy`startDirection
      ensures dir in {DirLeft, DirRight} ==>
        enemy.direction == dir && enemy.startDirection == (if newStart then dir else old(enemy.startDirection))
      ensures dir !in {DirLeft, DirRight} ==>
        enemy.direction == old(enemy.direction) && enemy.startDirection == old(enemy.startDirection)
    {
      if dir != DirRight && dir != DirLeft {
        return;
      }
      enemy.SetDirection(dir, newStart);
    }

    /** `Update_Velocity_Max`, as `TurtleSpeed` says. */
    method UpdateVelocityMax()
      modifies enemy`velxMax, enemy`velxGain
      ensures (enemy.velxMax, enemy.velxGain)
              == TurtleSpeed(turtleState, color, Count(), maxHits, old((enemy.velxMax, enemy.velxGain)))
    {
      if color == ColRed {
        if turtleState == TurtleWalk {
          var speedUp := hits + downgrades * maxHits;
          enemy.velxMax := 3.6 + speedUp as real * 1.8;
          enemy.velxGain := 0.5 + speedUp as real * 0.15;
        } else if turtleState == TurtleShellStand {
          enemy.velxMax, enemy.velxGain := 0.0, 0.0;
        } else if turtleState == TurtleShellRun {
          enemy.velxMax := 14.0 + downgrades as real * 3.0;
          enemy.velxGain := 0.8 + downgrades as real * 0.18;
        } else if turtleState == TurtleStandAngry {
          enemy.velxMax, enemy.velxGain := 0.0, 0.0;
        }
      }
    }

    /** `Set_Color`: the same colour changes nothing; red is worth 750
        points, another colour is taken but keeps the points; the speed
        follows the colour. */
    method SetColor(col: DefaultColor)
      modifies this`color, enemy`killPoints, enemy`velxMax, enemy`velxGain
      ensures color == col
      ensures old(color) == col ==>
        (enemy.killPoints == old(enemy.killPoints) && enemy.velxMax == old(enemy.velxMax)
         && enemy.velxGain == old(enemy.velxGain))
      ensures old(color) != col ==>
        (enemy.killPoints == (if col == ColRed then 750 else old(enemy.killPoints))
         && (enemy.velxMax, enemy.velxGain)
            == TurtleSpeed(turtleState, col, Count(), maxHits, old((enemy.velxMax, enemy.velxGain))))
    {
      if color == col {
        return;
      }
      color := col;
      UpdateVelocityMax();
      if color == ColRed {
        enemy.killPoints := 750;
      }
    }

    /** `Set_Turtle_Moving_State`: the same state changes nothing.
        Walking brings a camera range of 1500 and a walking animation
        sped up by the stomps taken; angry, standing still; a standing
        shell, a camera range of 2000; a rolling shell, a fresh counter, a
        camera range of 5000 and a rolling animation sped up the same way.
        The speed follows. */
    method SetTurtleMovingState(newState: int)
      modifies this`turtleState, this`cameraRange, this`animSpeed, enemy`state, enemy`counter,
               enemy`velxMax, enemy`velxGain
      ensures turtleState == newState
      ensures newState == old(turtleState) ==>
        (cameraRange == old(cameraRange) && animSpeed == old(animSpeed) && enemy.state == old(enemy.state)
         && enemy.counter == old(enemy.counter) && enemy.velxMax == old(enemy.velxMax)
         && enemy.velxGain == old(enemy.velxGain))
      ensures newState != old(turtleState) ==>
        (enemy.velxMax, enemy.velxGain)
        == TurtleSpeed(newState, color, Count(), maxHits, old((enemy.velxMax, enemy.velxGain)))
      ensures newState != old(turtleState) && newState == TurtleWalk ==>
        (enemy.state == StaWalk && cameraRange == 1500 && animSpeed == WalkAnimationSpeed(Total(Count(), maxHits)))
      ensures newState != old(turtleState) && newState == TurtleStandAngry ==>
        (enemy.state == StaStay && cameraRange == old(cameraRange))
      ensures newState != old(turtleState) && newState == TurtleShellStand ==>
        (enemy.state == StaStay && cameraRange == 2000)
      ensures newState != old(turtleState) && newState == TurtleShellRun ==>
        (enemy.state == StaRun && cameraRange == 5000 && enemy.counter == 0.0
         && animSpeed == RollAnimationSpeed(Total(Count(), maxHits)))
      ensures newState != TurtleShellRun ==> enemy.counter == old(enemy.counter)
      ensures newState !in {TurtleWalk, TurtleStandAngry, TurtleShellStand, TurtleShellRun} ==>
        (enemy.state == old(enemy.state) && cameraRange == old(cameraRange))
    {
      if newState == turtleState {
        return;
      }
      var total := hits + downgrades * maxHits;
      if newState == TurtleWalk {
        enemy.state := StaWalk;
        cameraRange := 1500;
        animSpeed := WalkAnimationSpeed(total);
      } else if newState == TurtleStandAngry {
        enemy.state := StaStay;
      } else if newState == TurtleShellStand {
        enemy.state := StaStay;
        cameraRange := 2000;
      } else if newState == TurtleShellRun {
        enemy.counter := 0.0;
        enemy.state := StaRun;
        cameraRange := 5000;
        animSpeed := RollAnimationSpeed(total);
      }
      turtleState := newState;
      UpdateVelocityMax();
    }

    /** `Turn_Around`: the common turn, at half the speed for a walker. */
    method TurnAround()
      modifies enemy`direction, enemy`vel
      ensures enemy.direction == OppositeDirection(old(enemy.direction))
      ensures old(enemy.direction) in {DirLeft, DirRight} ==>
        enemy.vel == ((if turtleState == TurtleWalk then -old(enemy.vel.0) * 0.5 else -old(enemy.vel.0)), old(enemy.vel.1))
    {
      enemy.TurnAround();
      if turtleState == TurtleWalk {
        enemy.vel := (enemy.vel.0 * 0.5, enemy.vel.1);
      }
    }

    /** The walking branch of `DownGrade`: the stomp is counted, and a
        completed round kills the boss when the rounds taken equal the most
        it takes, else makes it angry at half its speed. */
    method CountStomp()
      modifies this`hits, this`downgrades, this`turtleState, this`cameraRange, this`animSpeed, enemy`state,
               enemy`counter, enemy`velxMax, enemy`velxGain, enemy`vel, enemy`dead, enemy`canBeGround,
               enemy`dieEvents
      ensures Count() == CountHit(old(Count()), maxHits)
      ensures var round := old(hits) + 1 >= maxHits;
        && (round ==> enemy.counter == 0.0)
        && (!round ==> enemy.counter == old(enemy.counter) && turtleState == old(turtleState)
                       && enemy.vel == old(enemy.vel))
        && enemy.dead == (old(enemy.dead) || (round && RoundKillsAsWritten(downgrades, maxDowngrades)))
        && (round && RoundKillsAsWritten(downgrades, maxDowngrades) ==>
              turtleState == old(turtleState) && enemy.vel == old(enemy.vel))
        && (round && !RoundKillsAsWritten(downgrades, maxDowngrades) ==>
              (old(turtleState) != TurtleStandAngry ==> enemy.state == StaStay)
              && turtleState == TurtleStandAngry && enemy.vel == (old(enemy.vel.0) * 0.5, old(enemy.vel.1)))
    {
      hits := hits + 1;
      if hits >= maxHits {
        enemy.counter := 0.0;
        hits := 0;
        downgrades := downgrades + 1;
        if RoundKillsAsWritten(downgrades, maxDowngrades) {
          enemy.SetDead(true);
        } else {
          SetTurtleMovingState(TurtleStandAngry);
          enemy.vel := (enemy.vel.0 * 0.5, enemy.vel.1);
        }
      }
    }

    /** `DownGrade`: a stomp on a walking boss is counted (`CountStomp`),
        one on a standing shell sets it rolling, a forced downgrade kills;
        a dead boss ends passive, still, its counter at 0, and the course
        clear music plays (`courseClear`) when its death ends the level. */
    method DownGrade(force: bool) returns (courseClear: bool)
      modifies this`hits, this`downgrades, this`turtleState, this`cameraRange, this`animSpeed, enemy`state,
               enemy`counter, enemy`velxMax, enemy`velxGain, enemy`vel, enemy`dead, enemy`canBeGround,
               enemy`dieEvents, enemy`massive
      ensures var walkHit := !force && old(turtleState) == TurtleWalk;
        && Count() == (if walkHit then CountHit(old(Count()), maxHits) else old(Count()))
        && (force ==> enemy.dead && turtleState == old(turtleState))
        && (!force && old(turtleState) == TurtleShellStand ==>
              turtleState == TurtleShellRun && enemy.state == StaRun && enemy.dead == old(enemy.dead))
        && (!force && old(turtleState) !in {TurtleWalk, TurtleShellStand} ==>
              turtleState == old(turtleState) && enemy.dead == old(enemy.dead))
        && (walkHit ==> enemy.dead == (old(enemy.dead)
                                       || (old(hits) + 1 >= maxHits && RoundKillsAsWritten(downgrades, maxDowngrades))))
      ensures enemy.dead ==> enemy.massive == MassPassive && enemy.counter == 0.0 && enemy.vel == (0.0, 0.0)
      ensures !enemy.dead ==> enemy.massive == old(enemy.massive)
      ensures courseClear == (enemy.dead && levelEndsIfKilled)
    {
      if !force {
        if turtleState == TurtleWalk {
          CountStomp();
        } else if turtleState == TurtleShellStand {
          SetTurtleMovingState(TurtleShellRun);
        }
      } else {
        enemy.SetDead(true);
      }
      courseClear := false;
      if enemy.dead {
        courseClear := levelEndsIfKilled;
        enemy.massive := MassPassive;
        enemy.counter := 0.0;
        enemy.vel := (0.0, 0.0);
      }
    }

    /** The angry part of `Update`: the counter grows by the frame's speed
        factor; the boss faces left in the odd tens of it and right in the
        even ones; its speed falls by a fifth a frame to rest (below 0.2 it
        stops; `floatEqual` is `Is_Float_Equal`); after 60 the counter
        starts afresh and the boss rolls off at full speed the way it
        faces, throwing 6 fireballs and 2 more for each round taken
        (`fireballs`). */
    method UpdateAngry(sf: real, floatEqual: (real, real) -> bool) returns (fireballs: int)
      requires turtleState == TurtleStandAngry
      modifies this`turtleState, this`cameraRange, this`animSpeed, enemy`state, enemy`counter,
               enemy`velxMax, enemy`velxGain, enemy`vel, enemy`direction, enemy`startDirection
      ensures var c := old(enemy.counter) + sf;
        var tens := CDiv(Truncate(c), 10);
        var faced := if tens > 0 && tens % 2 == 1 then
                       (if old(enemy.direction) == DirRight then DirLeft else old(enemy.direction))
                     else (if old(enemy.direction) == DirLeft then DirRight else old(enemy.direction));
        && enemy.direction == faced
        && enemy.startDirection == old(enemy.startDirection)
        && (c > 60.0 ==>
              turtleState == TurtleShellRun && enemy.state == StaRun && enemy.counter == 0.0
              && fireballs == 6 + downgrades * 2
              && enemy.vel.0 == (if faced == DirRight then enemy.velxMax else -enemy.velxMax))
        && (c <= 60.0 ==> turtleState == TurtleStandAngry && enemy.counter == c && fireballs == 0)
      ensures enemy.vel.1 == old(enemy.vel.1)
    {
      enemy.counter := enemy.counter + sf;
      var tens := CDiv(Truncate(enemy.counter), 10);
      if tens > 0 && tens % 2 == 1 {
        if enemy.direction == DirRight {
          SetDirection(DirLeft, false);
        }
      } else {
        if enemy.direction == DirLeft {
          SetDirection(DirRight, false);
        }
      }
      if !floatEqual(enemy.vel.0, 0.0) {
        var v := enemy.vel.0 + Gain(-enemy.vel.0 * 0.2, sf);
        if v < 0.2 && v > -0.2 {
          v := 0.0;
        }
        enemy.vel := (v, enemy.vel.1);
      }
      fireballs := 0;
      if enemy.counter > 60.0 {
        enemy.counter := 0.0;
        SetTurtleMovingState(TurtleShellRun);
        if enemy.direction == DirRight {
          enemy.vel := (enemy.velxMax, enemy.vel.1);
        } else {
          enemy.vel := (-enemy.velxMax, enemy.vel.1);
        }
        fireballs := 6 + downgrades * 2;
      }
    }

    /** `Stand_Up` (`blocked` is whether something blocking stands in the
        space the boss needs): a shell with room walks again; nothing else
        changes. */
    method StandUp(blocked: bool)
      modifies this`turtleState, this`cameraRange, this`animSpeed, enemy`state, enemy`counter,
               enemy`velxMax, enemy`velxGain
      ensures TurtleShell(old(turtleState)) && !blocked ==>
        (turtleState == TurtleWalk && enemy.state == StaWalk && cameraRange == 1500
         && animSpeed == WalkAnimationSpeed(Total(Count(), maxHits)))
      ensures !TurtleShell(old(turtleState)) || blocked ==>
        (turtleState == old(turtleState) && enemy.state == old(enemy.state) && cameraRange == old(cameraRange))
    {
      if turtleState != TurtleShellStand && turtleState != TurtleShellRun {
        return;
      }
      if blocked {
        return;
      }
      SetTurtleMovingState(TurtleWalk);
    }

    /** `Hit_Enemy` (the rolling boss runs into `t`): every living enemy
        is hit, for its points; only dead ones are ignored. The enemy's own
        forced downgrade is left to the caller. */
    method HitEnemy(t: ShellTarget) returns (hit: bool, points: int)
      ensures hit <==> !t.dead
      ensures points == if hit then t.killPoints else 0
    {
      if t.dead {
        return false, 0;
      }
      return true, t.killPoints;
    }
  }
}
