/** The krush (tsc/src/enemies/krush.cpp): a big walker that a stomp
    turns into a small, faster runner, and a second stomp kills. */
module Krushes {
  import opened Common
  import opened GameTypes
  import opened PropertyHelper
  import opened Enemies

  /** `DownGrade`: a stomp makes a walking krush run and kills a running
      one, and leaves any other state alone; a forced downgrade is a
      falling death. */
  function KrushDownGrade(state: int, force: bool): Downgrade
  {
    if force then Dies(true)
    else if state == StaWalk then Becomes(StaRun)
    else if state == StaRun then Dies(false)
    else Unhurt
  }

  /** Two stomps kill a walking krush, and only a forced downgrade turns
      it over. */
  lemma KrushStompsToDeath(state: int, force: bool)
    ensures state == StaWalk ==> KrushDownGrade(KrushDownGrade(state, false).state, false) == Dies(false)
    ensures KrushDownGrade(state, force) == Dies(true) <==> force
  {
  }

  class Krush {
    const enemy: Enemy

    /** `Init`: walking to the right, worth 20 points. */
    constructor ()
      ensures fresh(enemy) && enemy.spriteType == TypeKrush && enemy.state == StaWalk
      ensures enemy.killPoints == 20 && enemy.velxMax == 3.0 && enemy.velxGain == 0.2
      ensures enemy.direction == DirRight && enemy.startDirection == DirRight
      ensures !enemy.dead && enemy.active && enemy.massive == MassMassive
    {
      enemy := new Enemy();
      new;
      enemy.spriteType := TypeKrush;
      SetMovingState(StaWalk);
      SetDirection(DirRight);
    }

    /** `Set_Moving_State`: the same state changes nothing; walking is
        worth 20 points, running 40, and each brings its speed. */
    method SetMovingState(newState: int)
      modifies enemy`state, enemy`killPoints, enemy`velxMax, enemy`velxGain
      ensures enemy.state == newState
      ensures newState != old(enemy.state) && newState == StaWalk ==>
        enemy.killPoints == 20 && enemy.velxMax == 3.0 && enemy.velxGain == 0.2
      ensures newState != old(enemy.state) && newState == StaRun ==>
        enemy.killPoints == 40 && enemy.velxMax == 5.5 && enemy.velxGain == 0.4
      ensures newState == old(enemy.state) || newState !in {StaWalk, StaRun} ==>
        enemy.killPoints == old(enemy.killPoints) && enemy.velxMax == old(enemy.velxMax)
        && enemy.velxGain == old(enemy.velxGain)
    {
      if newState == enemy.state {
        return;
      }
      if newState == StaWalk {
        enemy.killPoints := 20;
      } else if newState == StaRun {
        enemy.killPoints := 40;
      }
      enemy.state := newState;
      UpdateVelocityMax();
    }

    /** `Update_Velocity_Max`: 3 at 0.2 a frame walking, 5.5 at 0.4
        running, unchanged otherwise. */
    method UpdateVelocityMax()
      modifies enemy`velxMax, enemy`velxGain
      ensures enemy.state == StaWalk ==> enemy.velxMax == 3.0 && enemy.velxGain == 0.2
      ensures enemy.state == StaRun ==> enemy.velxMax == 5.5 && enemy.velxGain == 0.4
      ensures enemy.state !in {StaWalk, StaRun} ==>
        enemy.velxMax == old(enemy.velxMax) && enemy.velxGain == old(enemy.velxGain)
    {
      if enemy.state == StaWalk {
        enemy.velxMax := 3.0;
        enemy.velxGain := 0.2;
      } else if enemy.state == StaRun {
        enemy.velxMax := 5.5;
        enemy.velxGain := 0.4;
      }
    }

    /** `Set_Direction`: the start direction already set changes nothing;
        another becomes the direction and the start direction. */
    method SetDirection(dir: Direction)
      modifies enemy`direction, enemy`startDirection
      ensures enemy.startDirection == dir
      ensures old(enemy.startDirection) == dir ==> enemy.direction == old(enemy.direction)
      ensures old(enemy.startDirection) != dir ==> enemy.direction == dir
    {
      if enemy.startDirection == dir {
        return;
      }
      enemy.SetDirection(dir, true);
    }

    /** `DownGrade`, as `KrushDownGrade` says; a dead krush ends passive
        and still. */
    method DownGrade(force: bool)
      modifies enemy`state, enemy`killPoints, enemy`velxMax, enemy`velxGain, enemy`dead, enemy`canBeGround,
               enemy`dieEvents, enemy`rotZ, enemy`massive, enemy`vel
      ensures var d := KrushDownGrade(old(enemy.state), force);
        && (d.Becomes? ==> enemy.state == StaRun && enemy.killPoints == 40 && enemy.velxMax == 5.5 && enemy.velxGain == 0.4)
        && (!d.Becomes? ==> enemy.state == old(enemy.state) && enemy.killPoints == old(enemy.killPoints))
        && enemy.dead == (old(enemy.dead) || d.Dies?)
        && enemy.dieEvents == old(enemy.dieEvents) + (if d.Dies? then 1 else 0)
        && enemy.rotZ == (if d == Dies(true) then 180.0 else old(enemy.rotZ))
        && (enemy.dead ==> enemy.massive == MassPassive && enemy.vel == (0.0, 0.0))
        && (!enemy.dead ==> enemy.massive == old(enemy.massive) && enemy.vel == old(enemy.vel))
    {
      if !force {
        if enemy.state == StaWalk {
          SetMovingState(StaRun);
        } else if enemy.state == StaRun {
          enemy.SetDead(true);
        }
      } else {
        enemy.SetDead(true);
        enemy.rotZ := 180.0;
      }
      enemy.StopIfDead();
    }

    /** `Load_From_Savegame`: a saved running state makes the krush run
        (with the running points and speed) before the common part is
        loaded; a saved walking state is taken by the common part only. */
    method LoadFromSavegame(props: seq<(String, String)>, toFloat: String -> real)
      modifies enemy`state, enemy`killPoints, enemy`velxMax, enemy`velxGain, enemy`pos, enemy`direction,
               enemy`vel, enemy`active, enemy`dead, enemy`canBeGround, enemy`dieEvents
      ensures enemy.Saved() == LoadedEnemy(props, old(enemy.Saved()), toFloat)
      ensures SavedInState(props, StaRun) && old(enemy.state) != StaRun ==>
        enemy.killPoints == 40 && enemy.velxMax == 5.5 && enemy.velxGain == 0.4
      ensures !SavedInState(props, StaRun) || old(enemy.state) == StaRun ==>
        enemy.killPoints == old(enemy.killPoints) && enemy.velxMax == old(enemy.velxMax)
        && enemy.velxGain == old(enemy.velxGain)
    {
      ghost var before := enemy.Saved();
      var st := Lookup(props, "state");
      if st.Some? && StringToInt(st.value) == StaRun {
        SetMovingState(StaRun);
        assert enemy.Saved() == before.(state := StaRun);
        LoadedOverridesState(props, before, StaRun, toFloat);
      }
      enemy.LoadFromSavegame(props, toFloat);
    }
  }

  /** Once a saved entry records a state, the state held before loading
      makes no difference to the loaded enemy. */
  lemma LoadedOverridesState(props: seq<(String, String)>, e: EnemySave, s: int, toFloat: String -> real)
    requires Lookup(props, "state").Some?
    ensures LoadedEnemy(props, e.(state := s), toFloat) == LoadedEnemy(props, e, toFloat)
  {
  }
}
