/** The pip (tsc/src/enemies/pip.cpp): a big walker that a stomp splits
    into two small runners, each of which a second stomp kills. */
module Pips {
  import opened Common
  import opened GameTypes
  import opened PropertyHelper
  import opened Enemies

  /** `DownGrade`: a stomp splits a walking pip (it runs on, and a second
      running pip appears) and kills a pip in any other state; a forced
      downgrade is a falling death. */
  function PipDownGrade(state: int, force: bool): Downgrade
  {
    if force then Dies(true)
    else if state == StaWalk then Becomes(StaRun)
    else Dies(false)
  }

  /** Every downgrade of a pip hurts it, and a running pip always dies. */
  lemma PipDownGradeHurts(state: int, force: bool)
    ensures PipDownGrade(state, force) != Unhurt
    ensures state == StaRun ==> PipDownGrade(state, force).Dies?
  {
  }

  /** The second pip a split adds to the sprite manager: where it is,
      how fast it goes and which way it faces, running, worth 70 points,
      and spawned (never saved into the level). */
  datatype SplitPip = SplitPip(pos: (real, real), vel: (real, real), direction: Direction, state: int,
                               killPoints: int, spawned: bool)

  class Pip {
    const enemy: Enemy

    /** `Init`: walking to the right, worth 35 points. */
    constructor ()
      ensures fresh(enemy) && enemy.spriteType == TypePip && enemy.state == StaWalk
      ensures enemy.killPoints == 35 && enemy.velxMax == 2.0 && enemy.velxGain == 0.2
      ensures enemy.direction == DirRight && enemy.startDirection == DirRight
      ensures !enemy.dead && enemy.active && enemy.massive == MassMassive
    {
      enemy := new Enemy();
      new;
      enemy.spriteType := TypePip;
      SetMovingState(StaWalk);
      SetDirection(DirRight);
    }

    /** `Set_Moving_State`: the same state changes nothing; walking is
        worth 35 points, running 70, and each brings its speed. */
    method SetMovingState(newState: int)
      modifies enemy`state, enemy`killPoints, enemy`velxMax, enemy`velxGain
      ensures enemy.state == newState
      ensures newState != old(enemy.state) && newState == StaWalk ==>
        enemy.killPoints == 35 && enemy.velxMax == 2.0 && enemy.velxGain == 0.2
      ensures newState != old(enemy.state) && newState == StaRun ==>
        enemy.killPoints == 70 && enemy.velxMax == 7.0 && enemy.velxGain == 0.5
      ensures newState == old(enemy.state) || newState !in {StaWalk, StaRun} ==>
        enemy.killPoints == old(enemy.killPoints) && enemy.velxMax == old(enemy.velxMax)
        && enemy.velxGain == old(enemy.velxGain)
    {
      if newState == enemy.state {
        return;
      }
      if newState == StaWalk {
        enemy.killPoints := 35;
      } else if newState == StaRun {
        enemy.killPoints := 70;
      }
      enemy.state := newState;
      UpdateVelocityMax();
    }

    /** `Update_Velocity_Max`: 2 at 0.2 a frame walking, 7 at 0.5
        running, unchanged otherwise. */
    method UpdateVelocityMax()
      modifies enemy`velxMax, enemy`velxGain
      ensures enemy.state == StaWalk ==> enemy.velxMax == 2.0 && enemy.velxGain == 0.2
      ensures enemy.state == StaRun ==> enemy.velxMax == 7.0 && enemy.velxGain == 0.5
      ensures enemy.state !in {StaWalk, StaRun} ==>
        enemy.velxMax == old(enemy.velxMax) && enemy.velxGain == old(enemy.velxGain)
    {
      if enemy.state == StaWalk {
        enemy.velxMax := 2.0;
        enemy.velxGain := 0.2;
      } else if enemy.state == StaRun {
        enemy.velxMax := 7.0;
        enemy.velxGain := 0.5;
      }
    }

    /** `Set_Direction`: the start direction already set changes nothing;
        another becomes the direction and the start direction. */
    method SetDirection(dir: Direction)
      modifies enemy`direction, enemy`startDirection
      ensures enemy.startDirection == dir
      ensures old(enemy.startDirection) == dir ==> enemy.direction == old(enemy.direction)
      ensures old(enemy.startDirection) != dir ==> enemy.direction == dir
    {
      if enemy.startDirection == dir {
        return;
      }
      enemy.SetDirection(dir, true);
    }

    /** `Turn_Around`: the common turn, at half the speed after a
        sideways (or unknown) collision. */
    method TurnAround(colDir: Direction)
      modifies enemy`direction, enemy`vel
      ensures enemy.direction == OppositeDirection(old(enemy.direction))
      ensures colDir in {DirLeft, DirRight, DirUndefined} && old(enemy.direction) in {DirLeft, DirRight} ==>
        enemy.vel == (-old(enemy.vel.0) * 0.5, old(enemy.vel.1))
      ensures colDir !in {DirLeft, DirRight, DirUndefined} && old(enemy.direction) in {DirLeft, DirRight} ==>
        enemy.vel == (-old(enemy.vel.0), old(enemy.vel.1))
    {
      enemy.TurnAround();
      if colDir == DirLeft || colDir == DirRight || colDir == DirUndefined {
        enemy.vel := (enemy.vel.0 * 0.5, enemy.vel.1);
      }
    }

    /** `DownGrade`, as `PipDownGrade` says. A split pip jumps up-left
        and returns the pip it splits off, which jumps up-right from
        60 higher; a dead pip ends passive and still. */
    method DownGrade(force: bool) returns (split: Option<SplitPip>)
      modifies enemy`state, enemy`killPoints, enemy`velxMax, enemy`velxGain, enemy`dead, enemy`canBeGround,
               enemy`dieEvents, enemy`rotZ, enemy`massive, enemy`vel, enemy`pos
      ensures var d := PipDownGrade(old(enemy.state), force);
        && (d.Becomes? ==> enemy.state == StaRun && enemy.killPoints == 70 && enemy.velxMax == 7.0
                           && enemy.pos == (old(enemy.pos.0), old(enemy.pos.1) - 5.0))
        && (!d.Becomes? ==> enemy.state == old(enemy.state) && enemy.killPoints == old(enemy.killPoints)
                            && enemy.pos == old(enemy.pos))
        && enemy.dead == (old(enemy.dead) || d.Dies?)
        && enemy.dieEvents == old(enemy.dieEvents) + (if d.Dies? then 1 else 0)
        && enemy.rotZ == (if d == Dies(true) then 180.0 else old(enemy.rotZ))
        && (enemy.dead ==> enemy.massive == MassPassive && enemy.vel == (0.0, 0.0))
        && (!enemy.dead ==> enemy.massive == old(enemy.massive))
        && (!enemy.dead && d.Becomes? ==> enemy.vel == (-15.0, -15.0))
        && (split.Some? <==> d.Becomes?)
        && (split.Some? ==> split.value == SplitPip((old(enemy.pos.0), old(enemy.pos.1) - 60.0), (15.0, -15.0),
                                                   enemy.startDirection, StaRun, 70, true))
    {
      split := None;
      if force {
        enemy.SetDead(true);
        enemy.rotZ := 180.0;
      } else if enemy.state == StaWalk {
        SetMovingState(StaRun);
        split := Some(SplitPip((enemy.pos.0, enemy.pos.1 - 60.0), (15.0, -15.0), enemy.startDirection,
                               StaRun, 70, true));
        enemy.pos := (enemy.pos.0, enemy.pos.1 - 5.0);
        enemy.vel := (-15.0, -15.0);
      } else {
        enemy.SetDead(true);
      }
      enemy.StopIfDead();
    }

    /** `Handle_Collision_Player` (`dir` is the side the player touched,
        `playerFlying` whether the player flies, `alexSmall` whether Alex
        is small): a touch from the top by a player not flying is a stomp,
        except that small Alex only bounces off and the pip is unhurt; the
        stomp is worth the pip's points and downgrades a walking or running
        pip; any other touch hurts the player and turns the pip around. */
    method HandleCollisionPlayer(dir: Direction, playerFlying: bool, alexSmall: bool)
      returns (contact: PlayerContact, split: Option<SplitPip>)
      modifies enemy`state, enemy`killPoints, enemy`velxMax, enemy`velxGain, enemy`dead, enemy`canBeGround,
               enemy`dieEvents, enemy`rotZ, enemy`massive, enemy`vel, enemy`pos, enemy`direction
      ensures dir == DirUndefined ==> contact == NoContact
      ensures dir == DirUp && !playerFlying && alexSmall ==> contact == Bounced
      ensures dir == DirUp && !playerFlying && !alexSmall ==> contact == Stomped(old(enemy.killPoints))
      ensures dir != DirUndefined && (dir != DirUp || playerFlying) ==> contact == HurtsPlayer
      ensures contact in {NoContact, Bounced} ==>
        (enemy.state == old(enemy.state) && enemy.dead == old(enemy.dead) && enemy.vel == old(enemy.vel)
         && enemy.pos == old(enemy.pos) && enemy.direction == old(enemy.direction) && split == None)
      ensures contact.Stomped? && old(enemy.state) == StaWalk ==> split.Some? && enemy.state == StaRun
      ensures contact.Stomped? && old(enemy.state) == StaRun ==> enemy.dead && split == None
      ensures contact == HurtsPlayer ==>
        (enemy.direction == OppositeDirection(old(enemy.direction)) && enemy.dead == old(enemy.dead) && split == None)
    {
      split := None;
      if dir == DirUndefined {
        return NoContact, None;
      }
      if dir == DirUp && !playerFlying {
        if alexSmall {
          return Bounced, None;
        }
        contact := Stomped(enemy.killPoints);
        if enemy.state == StaWalk || enemy.state == StaRun {
          split := DownGrade(false);
        }
      } else {
        contact := HurtsPlayer;
        TurnAround(dir);
      }
    }

    /** `Load_From_Savegame`: a saved running state makes the pip run
        (with the running points and speed) before the common part is
        loaded. */
    method LoadFromSavegame(props: seq<(String, String)>, toFloat: String -> real)
      modifies enemy`state, enemy`killPoints, enemy`velxMax, enemy`velxGain, enemy`pos, enemy`direction,
               enemy`vel, enemy`active, enemy`dead, enemy`canBeGround, enemy`dieEvents
      ensures enemy.Saved() == LoadedEnemy(props, old(enemy.Saved()), toFloat)
      ensures SavedInState(props, StaRun) && old(enemy.state) != StaRun ==>
        enemy.killPoints == 70 && enemy.velxMax == 7.0 && enemy.velxGain == 0.5
      ensures !SavedInState(props, StaRun) || old(enemy.state) == StaRun ==>
        enemy.killPoints == old(enemy.killPoints) && enemy.velxMax == old(enemy.velxMax)
        && enemy.velxGain == old(enemy.velxGain)
    {
      var st := Lookup(props, "state");
      if st.Some? && StringToInt(st.value) == StaRun {
        SetMovingState(StaRun);
      }
      enemy.LoadFromSavegame(props, toFloat);
    }
  }
}
