/** The furball (tsc/src/enemies/furball.cpp): a walker in brown or blue
    that one stomp kills, and in black a boss that counts the stomps it
    takes, stands dazed after each, runs, walks again faster, and dies once
    it has taken `maxDowngrades` of them. */
module Furballs {
  import opened Common
  import opened GameTypes
  import opened PropertyHelper
  import opened XmlAttributes
  import opened Enemies

  /* ---------------------------------------------------------------------
     Colours and speeds
     --------------------------------------------------------------------- */

  /** What `Set_Color` gives each furball colour: its points, whether it
      resists fire, how much it resists ice, and whether a shell can hit
      it. */
  datatype FurballKind = FurballKind(killPoints: int, fireResistant: bool, iceResistance: real, hitFromShell: bool)

  /** The colours a furball comes in; any other has no kind. */
  function KindOf(col: DefaultColor): Option<FurballKind>
  {
    match col
    case ColBrown => Some(FurballKind(10, false, 0.0, true))
    case ColBlue => Some(FurballKind(50, false, 0.9, true))
    case ColBlack => Some(FurballKind(2500, true, 1.0, false))
    case _ => None
  }

  /** Only brown, blue and black are furball colours; each is worth more
      and resists ice more than the one before, and only the black one, the
      boss, resists fire and shells. */
  lemma FurballKindsRanked(col: DefaultColor)
    ensures KindOf(col).Some? <==> col in {ColBrown, ColBlue, ColBlack}
    ensures KindOf(col).Some? ==> (KindOf(col).value.fireResistant <==> col == ColBlack)
    ensures KindOf(col).Some? ==> (KindOf(col).value.hitFromShell <==> col != ColBlack)
    ensures KindOf(ColBrown).value.killPoints < KindOf(ColBlue).value.killPoints < KindOf(ColBlack).value.killPoints
    ensures KindOf(ColBrown).value.iceResistance < KindOf(ColBlue).value.iceResistance
            < KindOf(ColBlack).value.iceResistance
  {
  }

  /** `Update_Velocity_Max`: the most speed and the gain a frame for a
      moving state and colour; the boss (black) is faster the more
      downgrades it has taken. A standing furball stops; other states and
      colours keep `current`. */
  function FurballSpeed(state: int, col: DefaultColor, downgrades: int, current: (real, real)): (real, real)
  {
    if state == StaStay then (0.0, 0.0)
    else if state == StaWalk then
      (match col
       case ColBrown => (2.7, 0.2)
       case ColBlue => (4.5, 0.3)
       case ColBlack => (4.0 + downgrades as real, 0.6 + downgrades as real * 0.15)
       case _ => current)
    else if state == StaRun then
      (match col
       case ColBrown => (4.0, 0.3)
       case ColBlue => (6.7, 0.5)
       case ColBlack => (6.0 + downgrades as real * 1.4, 0.8 + downgrades as real * 0.25)
       case _ => current)
    else current
  }

  /** Every furball runs faster than it walks and gains speed faster; a
      blue one is faster than a brown one; the boss is faster, walking and
      running, for every downgrade it has taken. */
  lemma FurballSpeedOrder(col: DefaultColor, d: int, e: int, current: (real, real))
    requires col in {ColBrown, ColBlue, ColBlack} && 0 <= d <= e
    ensures var walk := FurballSpeed(StaWalk, col, d, current);
      var run := FurballSpeed(StaRun, col, d, current);
      walk.0 < run.0 && walk.1 < run.1
    ensures FurballSpeed(StaWalk, ColBrown, d, current).0 < FurballSpeed(StaWalk, ColBlue, d, current).0
    ensures FurballSpeed(StaRun, ColBrown, d, current).0 < FurballSpeed(StaRun, ColBlue, d, current).0
    ensures FurballSpeed(StaWalk, ColBlack, d, current).0 <= FurballSpeed(StaWalk, ColBlack, e, current).0
    ensures FurballSpeed(StaRun, ColBlack, d, current).0 <= FurballSpeed(StaRun, ColBlack, e, current).0
    ensures FurballSpeed(StaStay, col, d, current) == (0.0, 0.0)
  {
  }

  /** The slow-down of a dazed boss (`Add_Velocity_X(-velx * 0.25)`): a
      quarter of the speed a frame is lost, and under 0.3 either way it
      stops. */
  function SlowDown(v: real, sf: real, floatEqual: (real, real) -> bool): real
  {
    if floatEqual(v, 0.0) then v
    else
      var w := v + Gain(-v * 0.25, sf);
      if w < 0.3 && w > -0.3 then 0.0 else w
  }

  /** With a speed factor of at most 4 the slow-down never turns the boss
      around nor speeds it up. */
  lemma SlowDownSlows(v: real, sf: real, floatEqual: (real, real) -> bool)
    requires 0.0 <= sf <= 4.0
    ensures var w := SlowDown(v, sf, floatEqual);
      (v >= 0.0 ==> 0.0 <= w <= v) && (v <= 0.0 ==> v <= w <= 0.0)
  {
    var k := 1.0 - sf * 0.25;
    assert 0.0 <= k <= 1.0;
    assert v + Gain(-v * 0.25, sf) == v * k;
    if v >= 0.0 {
      assert 0.0 <= v * k <= v;
    } else {
      assert v <= v * k <= 0.0;
    }
  }

  /* ---------------------------------------------------------------------
     The boss's death count
     --------------------------------------------------------------------- */

  /** Whether a boss that takes `maxDowngrades` downgrades dies within the
      first `n` stomps counted from a fresh count, under the death test as
      written (`asWritten`) or as meant. */
  predicate DiesWithin(maxDowngrades: int, n: nat, asWritten: bool)
  {
    n > 0
    && (DiesWithin(maxDowngrades, n - 1, asWritten)
        || (if asWritten then RoundKillsAsWritten(n, maxDowngrades) else RoundKills(n, maxDowngrades)))
  }

  /** As meant, a boss dies at the stomp numbered `maxDowngrades` (the
      first, when that is 0) and at none before. */
  lemma {:induction false} DiesWithinAsMeant(maxDowngrades: int, n: nat)
    requires maxDowngrades >= 0
    ensures DiesWithin(maxDowngrades, n, false) <==> n >= 1 && n >= maxDowngrades
  {
    if n > 0 {
      DiesWithinAsMeant(maxDowngrades, n - 1);
    }
  }

  /** As written, the same holds for a boss that takes at least one
      downgrade, but one that takes none dies at no stomp at all. */
  lemma {:induction false} DiesWithinAsWritten(maxDowngrades: int, n: nat)
    requires maxDowngrades >= 0
    ensures DiesWithin(maxDowngrades, n, true) <==> maxDowngrades >= 1 && n >= maxDowngrades
  {
    if n > 0 {
      DiesWithinAsWritten(maxDowngrades, n - 1);
    }
  }

  /** The counterexample: a boss set to take no downgrades (which
      `Set_Max_Downgrade_Count` allows) never dies as written, and dies
      at the first stomp as meant. */
  lemma MaxZeroFurballSurvivesAsWritten(n: nat)
    ensures !DiesWithin(0, n, true)
    ensures n >= 1 ==> DiesWithin(0, n, false)
  {
    DiesWithinAsWritten(0, n);
    DiesWithinAsMeant(0, n);
  }

  /* ---------------------------------------------------------------------
     The furball
     --------------------------------------------------------------------- */

  class Furball {
    const enemy: Enemy
    /** `m_color_type` */
    var color: DefaultColor
    /** `m_downgrade_count` and `m_max_downgrade_count` */
    var downgrades: int
    var maxDowngrades: int
    var levelEndsIfKilled: bool
    var iceResistance: real
    /** `m_counter_hit` (how long a boss has stood dazed) and
        `m_counter_running` (how long it has run) */
    var counterHit: real
    var counterRunning: real
    var animSpeed: real

    /** The speed pair `Update_Velocity_Max` sets. */
    function Speed(): (real, real)
      reads enemy`velxMax, enemy`velxGain
    {
      (enemy.velxMax, enemy.velxGain)
    }

    /** `Init`: a brown furball walking to the right; a boss would take 5
        downgrades and end the level. */
    constructor ()
      ensures fresh(enemy) && enemy.spriteType == TypeFurball && color == ColBrown
      ensures enemy.killPoints == 10 && !enemy.fireResistant && iceResistance == 0.0 && enemy.canBeHitFromShell
      ensures enemy.state == StaWalk && Speed() == (2.7, 0.2) && animSpeed == 1.0
      ensures downgrades == 0 && maxDowngrades == 5 && levelEndsIfKilled
      ensures counterHit == 0.0 && counterRunning == 0.0
      ensures enemy.direction == DirRight && enemy.startDirection == DirRight
      ensures !enemy.dead && enemy.active && enemy.massive == MassMassive
    {
      enemy := new Enemy();
      color := ColDefault;
      downgrades := 0;
      maxDowngrades := 5;
      levelEndsIfKilled := true;
      iceResistance := 0.0;
      counterHit := 0.0;
      counterRunning := 0.0;
      animSpeed := 1.0;
      new;
      Init();
    }

    /** The body of `Init` after the defaults: brown, then walking, then
        facing right. */
    method Init()
      requires color == ColDefault && downgrades == 0 && enemy.state == StaFall
      requires enemy.direction == DirUndefined && enemy.startDirection == DirUndefined
      modifies this`color, this`iceResistance, this`counterHit, this`counterRunning, this`animSpeed,
               enemy`spriteType, enemy`killPoints, enemy`fireResistant, enemy`canBeHitFromShell, enemy`state,
               enemy`velxMax, enemy`velxGain, enemy`direction, enemy`startDirection
      ensures enemy.spriteType == TypeFurball && color == ColBrown
      ensures enemy.killPoints == 10 && !enemy.fireResistant && iceResistance == 0.0 && enemy.canBeHitFromShell
      ensures enemy.state == StaWalk && Speed() == (2.7, 0.2) && animSpeed == 1.0
      ensures counterHit == old(counterHit) && counterRunning == 0.0
      ensures enemy.direction == DirRight && enemy.startDirection == DirRight
    {
      enemy.spriteType := TypeFurball;
      SetColor(ColBrown);
      SetMovingState(StaWalk);
      SetDirection(DirRight);
    }

    /** The constructor from level attributes: `Init`, then the position,
        colour and direction read, and for a boss its downgrade count and
        whether its death ends the level. */
    constructor FromAttributes(a: Attributes, toFloat: String -> real)
      ensures fresh(enemy)
      ensures enemy.pos == enemy.startPos == (toFloat(Get(a, "posx")), toFloat(Get(a, "posy")))
      ensures color == ColorId(FetchString(a, "color", "brown"))
      ensures enemy.spriteType == (if color == ColBlack then TypeFurballBoss else TypeFurball)
      ensures enemy.startDirection == DirectionId(FetchString(a, "direction", "right"))
      ensures maxDowngrades == (if color == ColBlack then ClampedCount(FetchInt(a, "max_downgrade_count", 5)) else 5)
      ensures levelEndsIfKilled == (color != ColBlack || FetchBool(a, "level_ends_if_killed", true))
    {
      enemy := new Enemy();
      color := ColDefault;
      downgrades := 0;
      maxDowngrades := 5;
      levelEndsIfKilled := true;
      iceResistance := 0.0;
      counterHit := 0.0;
      counterRunning := 0.0;
      animSpeed := 1.0;
      new;
      Init();
      LoadPlacement(a, toFloat);
      if enemy.spriteType == TypeFurballBoss {
        LoadBossSettings(a);
      }
    }

    /** The position, colour and direction part of the constructor from
        level attributes: each absent one keeps its current value. */
    method LoadPlacement(a: Attributes, toFloat: String -> real)
      requires enemy.spriteType == TypeFurball && color != ColBlack
      modifies this`color, this`iceResistance, enemy`spriteType, enemy`killPoints, enemy`fireResistant,
               enemy`canBeHitFromShell, enemy`velxMax, enemy`velxGain, enemy`pos, enemy`startPos,
               enemy`direction, enemy`startDirection
      ensures enemy.pos == enemy.startPos == (toFloat(Get(a, "posx")), toFloat(Get(a, "posy")))
      ensures color == ColorId(FetchString(a, "color", ColorName(old(color))))
      ensures enemy.spriteType == (if color == ColBlack then TypeFurballBoss else TypeFurball)
      ensures enemy.startDirection == DirectionId(FetchString(a, "direction", DirectionName(old(enemy.startDirection))))
    {
      var p := (toFloat(Get(a, "posx")), toFloat(Get(a, "posy")));
      enemy.pos, enemy.startPos := p, p;
      SetColor(ColorId(FetchString(a, "color", ColorName(color))));
      SetDirection(DirectionId(FetchString(a, "direction", DirectionName(enemy.startDirection))));
    }

    /** The boss part of the constructor from level attributes. */
    method LoadBossSettings(a: Attributes)
      modifies this`maxDowngrades, this`levelEndsIfKilled
      ensures maxDowngrades == ClampedCount(FetchInt(a, "max_downgrade_count", old(maxDowngrades)))
      ensures levelEndsIfKilled == FetchBool(a, "level_ends_if_killed", old(levelEndsIfKilled))
    {
      SetMaxDowngradeCount(FetchInt(a, "max_downgrade_count", maxDowngrades));
      levelEndsIfKilled := FetchBool(a, "level_ends_if_killed", levelEndsIfKilled);
    }

    /** `Set_Max_Downgrade_Count`: a negative count is taken as 0. */
    method SetMaxDowngradeCount(n: int)
      modifies this`maxDowngrades
      ensures maxDowngrades == ClampedCount(n)
    {
      maxDowngrades := n;
      if maxDowngrades < 0 {
        maxDowngrades := 0;
      }
    }

    /** `Set_Direction`: the start direction already set changes nothing;
        any other becomes the direction and the start direction. */
    method SetDirection(dir: Direction)
      modifies enemy`direction, enemy`startDirection
      ensures enemy.startDirection == dir
      ensures old(enemy.startDirection) == dir ==> enemy.direction == old(enemy.direction)
      ensures old(enemy.startDirection) != dir ==> enemy.direction == dir
    {
      if enemy.startDirection == dir {
        return;
      }
      enemy.SetDirection(dir, true);
    }

    /** `Set_Color`: the colour already set changes nothing; a furball
        colour brings its kind (`KindOf`) and speed, and black makes the
        furball a boss; any other colour is taken but changes nothing
        else. */
    method SetColor(col: DefaultColor)
      modifies this`color, this`iceResistance, enemy`spriteType, enemy`killPoints, enemy`fireResistant,
               enemy`canBeHitFromShell, enemy`velxMax, enemy`velxGain
      ensures color == col
      ensures old(color) != col && KindOf(col).Some? ==>
        (var k := KindOf(col).value;
         && enemy.killPoints == k.killPoints && enemy.fireResistant == k.fireResistant
         && iceResistance == k.iceResistance && enemy.canBeHitFromShell == k.hitFromShell
         && Speed() == FurballSpeed(enemy.state, col, downgrades, old(Speed())))
      ensures enemy.spriteType == (if old(color) != col && col == ColBlack then TypeFurballBoss else old(enemy.spriteType))
      ensures old(color) == col || KindOf(col).None? ==>
        (enemy.killPoints == old(enemy.killPoints) && enemy.fireResistant == old(enemy.fireResistant)
         && iceResistance == old(iceResistance) && enemy.canBeHitFromShell == old(enemy.canBeHitFromShell)
         && Speed() == old(Speed()))
    {
      if color == col {
        return;
      }
      color := col;
      var kind := KindOf(col);
      if kind.None? {
        return;
      }
      if col == ColBlack {
        enemy.spriteType := TypeFurballBoss;
      }
      enemy.killPoints := kind.value.killPoints;
      enemy.fireResistant := kind.value.fireResistant;
      iceResistance := kind.value.iceResistance;
      enemy.canBeHitFromShell := kind.value.hitFromShell;
      UpdateVelocityMax();
    }

    /** `Update_Velocity_Max`, as `FurballSpeed` says. */
    method UpdateVelocityMax()
      modifies enemy`velxMax, enemy`velxGain
      ensures Speed() == FurballSpeed(enemy.state, color, downgrades, old(Speed()))
    {
      if enemy.state == StaStay {
        enemy.velxMax, enemy.velxGain := 0.0, 0.0;
      } else if enemy.state == StaWalk {
        if color == ColBrown {
          enemy.velxMax, enemy.velxGain := 2.7, 0.2;
        } else if color == ColBlue {
          enemy.velxMax, enemy.velxGain := 4.5, 0.3;
        } else if color == ColBlack {
          enemy.velxMax, enemy.velxGain := 4.0 + downgrades as real, 0.6 + downgrades as real * 0.15;
        }
      } else if enemy.state == StaRun {
        if color == ColBrown {
          enemy.velxMax, enemy.velxGain := 4.0, 0.3;
        } else if color == ColBlue {
          enemy.velxMax, enemy.velxGain := 6.7, 0.5;
        } else if color == ColBlack {
          enemy.velxMax, enemy.velxGain := 6.0 + downgrades as real * 1.4, 0.8 + downgrades as real * 0.25;
        }
      }
    }

    /** `Set_Moving_State`: the same state changes nothing. Walking starts
        the run count afresh and animates faster for a blue furball;
        running starts the daze count afresh and animates faster; every
        state brings its speed. */
    method SetMovingState(newState: int)
      modifies this`counterHit, this`counterRunning, this`animSpeed, enemy`state, enemy`velxMax, enemy`velxGain
      ensures enemy.state == newState
      ensures newState == old(enemy.state) ==>
        (counterHit == old(counterHit) && counterRunning == old(counterRunning) && animSpeed == old(animSpeed)
         && Speed() == old(Speed()))
      ensures newState != old(enemy.state) ==>
        (&& Speed() == FurballSpeed(newState, color, downgrades, old(Speed()))
         && counterRunning == (if newState == StaWalk then 0.0 else old(counterRunning))
         && counterHit == (if newState == StaRun then 0.0 else old(counterHit))
         && animSpeed == (if newState == StaRun || (newState == StaWalk && color == ColBlue) then 1.142
                          else if newState == StaWalk then 1.0
                          else old(animSpeed)))
    {
      if newState == enemy.state {
        return;
      }
      if newState == StaWalk {
        counterRunning := 0.0;
        animSpeed := if color == ColBlue then 1.142 else 1.0;
      } else if newState == StaRun {
        counterHit := 0.0;
        animSpeed := 1.142;
      }
      enemy.state := newState;
      UpdateVelocityMax();
    }

    /** `Turn_Around`: the common turn, at half the speed when it hits
        something at its side while walking or running. */
    method TurnAround(colDir: Direction)
      modifies enemy`direction, enemy`vel
      ensures enemy.direction == OppositeDirection(old(enemy.direction))
      ensures var halved := colDir in {DirLeft, DirRight} && enemy.state in {StaWalk, StaRun};
        old(enemy.direction) in {DirLeft, DirRight} ==>
          enemy.vel == ((if halved then 0.5 else 1.0) * -old(enemy.vel.0), old(enemy.vel.1))
    {
      enemy.TurnAround();
      if (colDir == DirLeft || colDir == DirRight) && (enemy.state == StaWalk || enemy.state == StaRun) {
        enemy.vel := (enemy.vel.0 * 0.5, enemy.vel.1);
      }
    }

    /** `DownGrade`. A stomp on a boss is not felt while it stands dazed or
        runs; otherwise it is counted, and kills the boss when the count
        equals `maxDowngrades` (`RoundKillsAsWritten`), else dazes it. Any other
        downgrade kills. A dead furball ends passive, still and its counter
        at 0; a plain furball forced to die falls turned over; a boss whose
        death ends the level plays the course clear music
        (`courseClear`). */
    method DownGrade(force: bool) returns (courseClear: bool)
      modifies this`downgrades, this`counterHit, this`counterRunning, this`animSpeed, enemy`state,
               enemy`velxMax, enemy`velxGain, enemy`dead, enemy`canBeGround, enemy`dieEvents, enemy`massive,
               enemy`counter, enemy`vel, enemy`rotZ
      ensures var boss := enemy.spriteType == TypeFurballBoss;
        var ignored := !force && boss && old(enemy.state) in {StaStay, StaRun};
        var counted := !force && boss && !ignored;
        && downgrades == old(downgrades) + (if counted then 1 else 0)
        && (ignored ==>
              enemy.state == old(enemy.state) && enemy.dead == old(enemy.dead) && enemy.vel == old(enemy.vel)
              && enemy.massive == old(enemy.massive) && enemy.rotZ == old(enemy.rotZ) && !courseClear)
        && (counted ==> enemy.dead == (old(enemy.dead) || RoundKillsAsWritten(downgrades, maxDowngrades)))
        && (counted && !RoundKillsAsWritten(downgrades, maxDowngrades) ==> enemy.state == StaStay && Speed().0 == 0.0)
        && (!ignored && !counted ==> enemy.dead && enemy.state == old(enemy.state))
        && (!ignored && enemy.dead ==>
              enemy.massive == MassPassive && enemy.counter == 0.0 && enemy.vel == (0.0, 0.0))
        && (!ignored && !enemy.dead ==> enemy.massive == old(enemy.massive) && enemy.vel == old(enemy.vel))
        && (!ignored ==>
              enemy.rotZ == (if force && !boss && enemy.dead then 180.0 else old(enemy.rotZ))
              && courseClear == (enemy.dead && boss && levelEndsIfKilled))
    {
      courseClear := false;
      if !force && enemy.spriteType == TypeFurballBoss {
        if enemy.state == StaStay || enemy.state == StaRun {
          return;
        }
        downgrades := downgrades + 1;
        if RoundKillsAsWritten(downgrades, maxDowngrades) {
          enemy.SetDead(true);
        } else {
          SetMovingState(StaStay);
        }
      } else {
        enemy.SetDead(true);
      }
      if enemy.dead {
        enemy.massive := MassPassive;
        enemy.counter := 0.0;
        enemy.vel := (0.0, 0.0);
        if !force || enemy.spriteType == TypeFurballBoss {
          courseClear := enemy.spriteType == TypeFurballBoss && levelEndsIfKilled;
        } else {
          enemy.rotZ := 180.0;
        }
      }
    }

    /** The boss's part of `Update` (`inRange` is whether the camera is near
        enough): a dazed furball turns slowly and slows down
        (`SlowDown`) and runs, with a little jump, after 60; a running one
        turns back and walks again after 120. */
    method UpdateBossCycle(sf: real, inRange: bool, floatEqual: (real, real) -> bool)
      modifies this`counterHit, this`counterRunning, this`animSpeed, enemy`state, enemy`velxMax,
               enemy`velxGain, enemy`vel, enemy`rotZ
      ensures var on := old(enemy.IsUpdateValid()) && inRange;
        && (!on || old(enemy.state) !in {StaStay, StaRun} ==>
              enemy.state == old(enemy.state) && counterHit == old(counterHit)
              && counterRunning == old(counterRunning) && enemy.vel == old(enemy.vel)
              && enemy.rotZ == old(enemy.rotZ))
        && (on && old(enemy.state) == StaStay ==>
              var c := old(counterHit) + sf;
              var v := SlowDown(old(enemy.vel.0), sf, floatEqual);
              && enemy.rotZ == -c * 0.125
              && (c > 60.0 ==> enemy.state == StaRun && counterHit == 0.0 && enemy.vel == (v, -5.0)
                               && Speed() == FurballSpeed(StaRun, color, downgrades, old(Speed())))
              && (c <= 60.0 ==> enemy.state == StaStay && counterHit == c && enemy.vel == (v, old(enemy.vel.1))))
        && (on && old(enemy.state) == StaRun ==>
              var c := old(counterRunning) + sf;
              && enemy.rotZ == -7.5 + c * 0.0625 && enemy.vel == old(enemy.vel)
              && (c > 120.0 ==> enemy.state == StaWalk && counterRunning == 0.0
                                && Speed() == FurballSpeed(StaWalk, color, downgrades, old(Speed())))
              && (c <= 120.0 ==> enemy.state == StaRun && counterRunning == c))
    {
      if !enemy.IsUpdateValid() || !inRange {
        return;
      }
      if enemy.state == StaStay {
        counterHit := counterHit + sf;
        enemy.rotZ := -counterHit * 0.125;
        enemy.vel := (SlowDown(enemy.vel.0, sf, floatEqual), enemy.vel.1);
        if counterHit > 60.0 {
          SetMovingState(StaRun);
          enemy.vel := (enemy.vel.0, -5.0);
        }
      } else if enemy.state == StaRun {
        counterRunning := counterRunning + sf;
        enemy.rotZ := -7.5 + counterRunning * 0.0625;
        if counterRunning > 120.0 {
          SetMovingState(StaWalk);
        }
      }
    }

    /** `Handle_Collision_Player` (`dir` is the side the player touched,
        `playerFlying` whether the player flies): a touch from the top by
        a player not flying downgrades the furball and bounces the player,
        who earns its points when it died; any other touch hurts the player
        and a sideways one turns the furball around. */
    method HandleCollisionPlayer(dir: Direction, playerFlying: bool) returns (contact: PlayerContact, courseClear: bool)
      modifies this`downgrades, this`counterHit, this`counterRunning, this`animSpeed, enemy`state,
               enemy`velxMax, enemy`velxGain, enemy`dead, enemy`canBeGround, enemy`dieEvents, enemy`massive,
               enemy`counter, enemy`vel, enemy`rotZ, enemy`direction
      ensures dir == DirUndefined ==>
        (contact == NoContact && !courseClear && enemy.dead == old(enemy.dead) && downgrades == old(downgrades)
         && enemy.direction == old(enemy.direction))
      ensures dir == DirUp && !playerFlying ==>
        (&& contact == (if enemy.dead then Stomped(enemy.killPoints) else Bounced)
         && (enemy.spriteType != TypeFurballBoss ==> enemy.dead)
         && (enemy.spriteType == TypeFurballBoss && old(enemy.state) in {StaStay, StaRun} ==>
               downgrades == old(downgrades) && enemy.dead == old(enemy.dead))
         && (enemy.spriteType == TypeFurballBoss && old(enemy.state) !in {StaStay, StaRun} ==>
               downgrades == old(downgrades) + 1))
      ensures dir != DirUndefined && (dir != DirUp || playerFlying) ==>
        (contact == HurtsPlayer && !courseClear && enemy.dead == old(enemy.dead) && downgrades == old(downgrades))
      ensures dir in {DirLeft, DirRight} ==> enemy.direction == OppositeDirection(old(enemy.direction))
      ensures dir !in {DirLeft, DirRight} ==> enemy.direction == old(enemy.direction)
    {
      courseClear := false;
      if dir == DirUndefined {
        return NoContact, false;
      }
      if dir == DirUp && !playerFlying {
        courseClear := DownGrade(false);
        contact := if enemy.dead then Stomped(enemy.killPoints) else Bounced;
      } else {
        contact := HurtsPlayer;
        if dir == DirRight || dir == DirLeft {
          TurnAround(dir);
        }
      }
    }

    /** `Load_From_Savegame`: the common part only. */
    method LoadFromSavegame(props: seq<(String, String)>, toFloat: String -> real)
      modifies enemy`state, enemy`pos, enemy`direction, enemy`vel, enemy`active, enemy`dead, enemy`canBeGround,
               enemy`dieEvents
      ensures enemy.Saved() == LoadedEnemy(props, old(enemy.Saved()), toFloat)
    {
      enemy.LoadFromSavegame(props, toFloat);
    }
  }
}
