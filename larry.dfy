/** Larry (tsc/src/enemies/larry.cpp): a walker that a stomp lights; a
    lit larry runs until its fuse burns out and explodes. */
module Larries {
  import opened Common
  import opened GameTypes
  import opened PropertyHelper
  import opened Enemies

  /** `DownGrade`: a running larry, or any larry forced, explodes (it is
      not turned over); a stomp lights a walking one, which then runs. */
  function LarryDownGrade(state: int, force: bool): Downgrade
  {
    if state == StaRun || force then Dies(false)
    else if state == StaWalk then Becomes(StaRun)
    else Unhurt
  }

  /** A lit larry explodes at the next downgrade, and no downgrade turns a
      larry over. */
  lemma LarryFuseChain(state: int, force: bool)
    ensures state == StaWalk && !force ==> LarryDownGrade(LarryDownGrade(state, force).state, false) == Dies(false)
    ensures LarryDownGrade(state, force) != Dies(true)
  {
  }

  /** How long a lit fuse burns: a running larry explodes once its counter
      is past 200. */
  const FuseLength := 200.0

  class Larry {
    const enemy: Enemy
    /** `m_explosion_counter` */
    var explosionCounter: real
    /** whether the explosion clouds hide it (`m_valid_draw` cleared) */
    var hidden: bool

    /** `Init`: walking to the right at 1.5, worth 300 points. */
    constructor ()
      ensures fresh(enemy) && enemy.spriteType == TypeLarry && enemy.state == StaWalk
      ensures enemy.killPoints == 300 && enemy.velxMax == 1.5 && enemy.velxGain == 0.3
      ensures !enemy.fireResistant && enemy.canBeHitFromShell && explosionCounter == 0.0 && !hidden
      ensures enemy.direction == DirRight && enemy.startDirection == DirRight
      ensures !enemy.dead && enemy.active && enemy.massive == MassMassive
    {
      enemy := new Enemy();
      explosionCounter := 0.0;
      hidden := false;
      new;
      enemy.spriteType := TypeLarry;
      enemy.killPoints := 300;
      enemy.fireResistant := false;
      enemy.canBeHitFromShell := true;
      SetMovingState(StaWalk);
      SetDirection(DirRight, true);
    }

    /** `Set_Moving_State`: the same state changes nothing; walking goes at
        most 1.5 at 0.3 a frame, running keeps the speed it has. */
    method SetMovingState(newState: int)
      modifies enemy`state, enemy`velxMax, enemy`velxGain
      ensures enemy.state == newState
      ensures newState != old(enemy.state) && newState == StaWalk ==> enemy.velxMax == 1.5 && enemy.velxGain == 0.3
      ensures newState == old(enemy.state) || newState != StaWalk ==>
        enemy.velxMax == old(enemy.velxMax) && enemy.velxGain == old(enemy.velxGain)
    {
      if newState == enemy.state {
        return;
      }
      enemy.state := newState;
      if enemy.state == StaWalk {
        enemy.velxGain := 0.3;
        enemy.velxMax := 1.5;
      }
    }

    /** `Set_Direction`: the start direction already set changes nothing. */
    method SetDirection(dir: Direction, initial: bool)
      modifies enemy`direction, enemy`startDirection
      ensures old(enemy.startDirection) == dir ==> enemy.direction == old(enemy.direction) && enemy.startDirection == dir
      ensures old(enemy.startDirection) != dir ==>
        enemy.direction == dir && enemy.startDirection == (if initial then dir else old(enemy.startDirection))
    {
      if enemy.startDirection == dir {
        return;
      }
      enemy.SetDirection(dir, initial);
    }

    /** `Fuse`: the larry runs, but stands still for a moment first. */
    method Fuse()
      modifies enemy`state, enemy`velxMax, enemy`velxGain, enemy`vel
      ensures enemy.state == StaRun && enemy.velxMax == 0.0 && enemy.vel == (0.0, old(enemy.vel.1))
      ensures enemy.velxGain == old(enemy.velxGain)
    {
      SetMovingState(StaRun);
      enemy.vel := (0.0, enemy.vel.1);
      enemy.velxMax := 0.0;
    }

    /** `DownGrade`, as `LarryDownGrade` says: an exploding larry is dead,
        passive and still; a lit one runs. */
    method DownGrade(force: bool)
      modifies enemy`state, enemy`velxMax, enemy`velxGain, enemy`vel, enemy`dead, enemy`canBeGround,
               enemy`dieEvents, enemy`massive
      ensures var d := LarryDownGrade(old(enemy.state), force);
        && (d.Dies? ==> enemy.dead && enemy.massive == MassPassive && enemy.vel == (0.0, 0.0)
                        && enemy.state == old(enemy.state) && enemy.dieEvents == old(enemy.dieEvents) + 1)
        && (d.Becomes? ==> enemy.state == StaRun && enemy.velxMax == 0.0 && enemy.vel.0 == 0.0
                           && enemy.dead == old(enemy.dead) && enemy.massive == old(enemy.massive))
        && (d == Unhurt ==> enemy.state == old(enemy.state) && enemy.dead == old(enemy.dead)
                            && enemy.vel == old(enemy.vel) && enemy.massive == old(enemy.massive))
    {
      if enemy.state == StaRun || force {
        enemy.SetDead(true);
        enemy.massive := MassPassive;
        enemy.vel := (0.0, 0.0);
      } else if enemy.state == StaWalk {
        Fuse();
      }
    }

    /** The fuse part of `Update` (`inRange` is whether the camera is near
        enough): a larry that is updated walks or runs at its speed, and a
        running one burns its fuse by the frame's speed factor and explodes
        once it is past `FuseLength`. */
    method UpdateFuse(sf: real, inRange: bool)
      modifies this`explosionCounter, enemy`state, enemy`velxMax, enemy`velxGain, enemy`vel, enemy`dead,
               enemy`canBeGround, enemy`dieEvents, enemy`massive
      ensures !old(enemy.IsUpdateValid()) || !inRange ==>
        explosionCounter == old(explosionCounter) && enemy.vel == old(enemy.vel) && enemy.dead == old(enemy.dead)
      ensures old(enemy.IsUpdateValid()) && inRange && old(enemy.state) == StaRun ==>
        explosionCounter == old(explosionCounter) + sf && (enemy.dead <==> explosionCounter > FuseLength)
      ensures old(enemy.IsUpdateValid()) && inRange && old(enemy.state) != StaRun ==>
        explosionCounter == old(explosionCounter) && !enemy.dead
    {
      if !enemy.IsUpdateValid() || !inRange {
        return;
      }
      enemy.UpdateVelocity(sf);
      if enemy.state == StaRun {
        explosionCounter := explosionCounter + sf;
        if explosionCounter > FuseLength {
          DownGrade(true);
        }
      }
    }

    /** `Update_Normal_Dying` (run by the common `Update_Dying`, which
        first counts the frame): the larry hides in its explosion clouds
        after 12, and after 24 is gone and destroys what is within its
        explosion range (`explodes`). */
    method UpdateDying(sf: real) returns (explodes: bool)
      modifies enemy`dyingCounter, this`hidden, enemy`active
      ensures enemy.dyingCounter == old(enemy.dyingCounter) + sf
      ensures hidden == (old(hidden) || enemy.dyingCounter > 12.0)
      ensures explodes == (enemy.dyingCounter > 24.0)
      ensures enemy.active == (old(enemy.active) && !explodes)
    {
      enemy.dyingCounter := enemy.dyingCounter + sf;
      if enemy.dyingCounter > 12.0 {
        hidden := true;
      }
      explodes := enemy.dyingCounter > 24.0;
      if explodes {
        enemy.active := false;
      }
    }

    /** `Turn_Around`: the common turn, then the larry stops while it
        turns. */
    method TurnAround()
      modifies enemy`direction, enemy`vel, enemy`velxMax
      ensures enemy.direction == OppositeDirection(old(enemy.direction))
      ensures enemy.vel.0 == 0.0 && enemy.velxMax == 0.0
      ensures old(enemy.direction) in {DirLeft, DirRight} ==> enemy.vel.1 == old(enemy.vel.1)
    {
      enemy.TurnAround();
      enemy.vel := (0.0, enemy.vel.1);
      enemy.velxMax := 0.0;
    }

    /** `Handle_Ball_Hit`: only a fireball hurts larry, and it explodes
        him at once; the player's kill multiplier grows
        (`killMultiplier`). */
    method HandleBallHit(fireball: bool) returns (killMultiplier: bool)
      modifies enemy`state, enemy`velxMax, enemy`velxGain, enemy`vel, enemy`dead, enemy`canBeGround,
               enemy`dieEvents, enemy`massive
      ensures killMultiplier == fireball
      ensures fireball ==> enemy.dead && enemy.massive == MassPassive && enemy.vel == (0.0, 0.0)
      ensures !fireball ==>
        (enemy.dead == old(enemy.dead) && enemy.vel == old(enemy.vel) && enemy.state == old(enemy.state)
         && enemy.massive == old(enemy.massive) && enemy.dieEvents == old(enemy.dieEvents))
    {
      if !fireball {
        return false;
      }
      DownGrade(true);
      killMultiplier := true;
    }

    /** `Handle_Collision_Player`: a touch from the top is a stomp (no
        points), any other hurts the player; a touch from the side also
        turns larry around. */
    method HandleCollisionPlayer(dir: Direction) returns (contact: PlayerContact)
      modifies enemy`state, enemy`velxMax, enemy`velxGain, enemy`vel, enemy`dead, enemy`canBeGround,
               enemy`dieEvents, enemy`massive, enemy`direction
      ensures dir == DirUndefined ==>
        (contact == NoContact && enemy.state == old(enemy.state) && enemy.dead == old(enemy.dead)
         && enemy.direction == old(enemy.direction))
      ensures dir == DirUp ==> contact == Stomped(0)
      ensures dir == DirUp && old(enemy.state) == StaWalk && !old(enemy.dead) ==> enemy.state == StaRun && !enemy.dead
      ensures dir == DirUp && old(enemy.state) == StaRun ==> enemy.dead
      ensures dir !in {DirUndefined, DirUp} ==> contact == HurtsPlayer && enemy.dead == old(enemy.dead)
      ensures dir in {DirLeft, DirRight} ==> enemy.direction == OppositeDirection(old(enemy.direction))
      ensures dir !in {DirLeft, DirRight} ==> enemy.direction == old(enemy.direction)
    {
      if dir == DirUndefined {
        return NoContact;
      }
      if dir == DirUp {
        DownGrade(false);
        contact := Stomped(0);
      } else {
        contact := HurtsPlayer;
      }
      if dir == DirLeft || dir == DirRight {
        TurnAround();
      }
    }
  }
}
