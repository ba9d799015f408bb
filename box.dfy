/** The question-mark box every other box builds on, `cBaseBox`
    (tsc/src/objects/box.cpp): its animation types and image sets, its
    useable count, its invisibility kinds, and the little bump it makes
    when something hits it. The actor part is a `TscLevel.Actor` the box
    holds; the header that declares the class is not part of this model. */
module Boxes {
  import opened Common
  import opened GameTypes
  import opened Actors
  import opened XmlAttributes
  import TscLevel

  /** `Box_Invisible_Type`. A level stores it as a number that is cast to
      the enum, so a number outside 0..3 is kept as it is. */
  datatype BoxInvisible =
    | BoxVisible | BoxInvisibleMassive | BoxGhost | BoxInvisibleSemiMassive
    | BoxInvisibleOther(code: int)

  /** Each value has one representation: the named kinds are never `Other`. */
  predicate WellFormedInvisible(b: BoxInvisible)
  {
    b.BoxInvisibleOther? ==> !(0 <= b.code <= 3)
  }

  function InvisibleOfCode(n: int): (b: BoxInvisible)
    ensures WellFormedInvisible(b)
  {
    if n == 0 then BoxVisible
    else if n == 1 then BoxInvisibleMassive
    else if n == 2 then BoxGhost
    else if n == 3 then BoxInvisibleSemiMassive
    else BoxInvisibleOther(n)
  }

  function InvisibleCode(b: BoxInvisible): int
  {
    match b
    case BoxVisible => 0
    case BoxInvisibleMassive => 1
    case BoxGhost => 2
    case BoxInvisibleSemiMassive => 3
    case BoxInvisibleOther(n) => n
  }

  /** The cast loses nothing in either direction. */
  lemma InvisibleCodeRoundTrip(n: int, b: BoxInvisible)
    ensures InvisibleCode(InvisibleOfCode(n)) == n
    ensures WellFormedInvisible(b) ==> InvisibleOfCode(InvisibleCode(b)) == b
  {
  }

  /** The image sets `Set_Animation_Type` installs for each animation type,
      as (set name, image set file) pairs; `None` for a type it does not
      know. */
  function AnimationImages(t: String): Option<seq<(String, String)>>
  {
    if t == "Bonus" then
      Some([("disabled", "game/box/disabled.imgset"), ("main", "game/box/yellow/bonus/bonus.imgset")])
    else if t == "Default" then
      Some([("disabled", "game/box/disabled.imgset"), ("main", "game/box/yellow/default.imgset")])
    else if t == "Power" then
      Some([("disabled", "game/box/disabled.imgset"), ("main", "game/box/yellow/power.imgset")])
    else if t == "Spin" then
      Some([("disabled", "game/box/yellow/spin/disabled.imgset"), ("main", "game/box/yellow/spin/still.imgset"),
            ("spin", "game/box/yellow/spin/spin.imgset")])
    else None
  }

  /** The animation type a box ends up with: an unknown one falls back to
      "Bonus". */
  function AnimationFor(t: String): String
  {
    if AnimationImages(t).Some? then t else "Bonus"
  }

  /** Every animation a box can end up with is known, and each of them has
      both a "main" and a "disabled" image set, so the box can always show
      either. */
  lemma AnimationSetsComplete(t: String)
    ensures AnimationImages(AnimationFor(t)).Some?
    ensures Lookup(AnimationImages(AnimationFor(t)).value, "main").Some?
    ensures Lookup(AnimationImages(AnimationFor(t)).value, "disabled").Some?
  {
    var imgs := AnimationImages(AnimationFor(t)).value;
    assert imgs[0].0 == "disabled" && imgs[1].0 == "main";
  }

  /** The count left after one `Activate`: a positive count drops by one;
      zero and the negative "unlimited" counts stay. */
  function Activated(count: int): int
  {
    if count > 0 then count - 1 else count
  }

  /** The count after `n` activations. */
  function ActivatedTimes(count: int, n: nat): int
  {
    if n == 0 then count else ActivatedTimes(Activated(count), n - 1)
  }

  /** A box with a count of `c >= 0` can be used exactly `c` times: after
      `n` activations the count is `max(c - n, 0)`, and `Activate_Collision`
      still accepts it (a non-zero count) exactly while `n < c`. */
  lemma {:induction false} UsesRunOut(c: int, n: nat)
    requires c >= 0
    ensures ActivatedTimes(c, n) == Max(c - n, 0)
    ensures ActivatedTimes(c, n) != 0 <==> n < c
  {
    if n > 0 {
      UsesRunOut(Activated(c), n - 1);
    }
  }

  /** A negative count never changes, however often the box is used, so
      the box never runs out. */
  lemma {:induction false} NegativeCountUnlimited(c: int, n: nat)
    requires c < 0
    ensures ActivatedTimes(c, n) == c
  {
    if n > 0 {
      NegativeCountUnlimited(c, n - 1);
    }
  }

  /** The bump: the direction it moves in (`DirUndefined` at rest), whether
      it is on its way back, and the frame counter of the current half. */
  datatype Motion = Motion(dir: Direction, back: bool, counter: real)

  const AtRest := Motion(DirUndefined, false, 0.0)

  /** The four directions `Update_Collision` can move a box in. */
  predicate MovingDirection(d: Direction)
  {
    d == DirUp || d == DirDown || d == DirRight || d == DirLeft
  }

  /** One frame of `Update_Collision` with the scene's speed factor: an
      invalid direction stops the bump; otherwise the counter grows by a
      fifth of the speed factor, and passing 1 turns the box back, or, on
      the way back, ends the bump. */
  function CollisionStep(m: Motion, speedfactor: real): Motion
  {
    if m.dir == DirUndefined then m
    else if !MovingDirection(m.dir) then m.(dir := DirUndefined)
    else
      var c := m.counter + speedfactor * 0.2;
      if !m.back then
        if c > 1.0 then Motion(m.dir, true, 0.0) else m.(counter := c)
      else if c > 1.0 then AtRest
      else m.(counter := c)
  }

  /** Whether this frame ends the bump, which puts the box back on its start
      position. */
  predicate EndsBump(m: Motion, speedfactor: real)
  {
    MovingDirection(m.dir) && m.back && m.counter + speedfactor * 0.2 > 1.0
  }

  /** `n` frames. */
  function CollisionSteps(m: Motion, speedfactor: real, n: nat): Motion
    decreases n
  {
    if n == 0 then m else CollisionSteps(CollisionStep(m, speedfactor), speedfactor, n - 1)
  }

  /** The states a bump passes through: at rest, or moving in one of the
      four directions with a counter in 0..1. */
  predicate Settled(m: Motion)
  {
    (m.dir == DirUndefined || MovingDirection(m.dir)) && 0.0 <= m.counter <= 1.0
    && (m.dir == DirUndefined ==> !m.back && m.counter == 0.0)
  }

  /** What is left of a bump: a forward half counts more than any
      backward one, and a box at rest has nothing left. */
  function Remaining(m: Motion): real
  {
    if m.dir == DirUndefined then 0.0
    else if !m.back then 3.0 - m.counter
    else 1.5 - m.counter
  }

  function MinReal(a: real, b: real): real { if a < b then a else b }

  /** Each frame of a bump with a positive speed factor keeps it settled and
      takes at least `min(speedfactor / 5, 1/2)` off what is left. */
  lemma StepShrinks(m: Motion, speedfactor: real)
    requires Settled(m) && m.dir != DirUndefined && speedfactor > 0.0
    ensures Settled(CollisionStep(m, speedfactor))
    ensures Remaining(CollisionStep(m, speedfactor)) <= Remaining(m) - MinReal(speedfactor * 0.2, 0.5)
  {
  }

  /** A settled box started with a bump comes to rest again: after `n`
      frames at a positive speed factor, once `n` frames' worth of progress
      covers what was left, it is back at rest. */
  lemma {:induction false} BumpEnds(m: Motion, speedfactor: real, n: nat)
    requires Settled(m) && speedfactor > 0.0
    requires n as real * MinReal(speedfactor * 0.2, 0.5) >= Remaining(m)
    ensures CollisionSteps(m, speedfactor, n) == AtRest
    decreases n
  {
    var k := MinReal(speedfactor * 0.2, 0.5);
    if m.dir == DirUndefined {
      if n > 0 {
        BumpEnds(m, speedfactor, n - 1);
      }
    } else {
      assert Remaining(m) >= 0.5;
      assert n > 0;
      StepShrinks(m, speedfactor);
      var m' := CollisionStep(m, speedfactor);
      assert (n - 1) as real * k == n as real * k - k;
      BumpEnds(m', speedfactor, n - 1);
    }
  }

  class Box {
    /** The actor part of the box: its collision type and positions. */
    const actor: TscLevel.Actor
    /** `m_name` */
    var name: String
    /** `box_type`: the sprite type of the item inside */
    var boxType: int
    /** `m_anim_type` */
    var animType: String
    /** the installed image sets, as (set name, image set file) pairs */
    var images: seq<(String, String)>
    /** the name of the image set shown */
    var imageSet: String
    var useableCount: int
    var startUseableCount: int
    var boxInvisible: BoxInvisible
    /** the sprite's `m_invisible` flag */
    var invisible: bool
    var moveColDir: Direction
    var moveBack: bool
    var moveCounter: real

    function BumpState(): Motion
      reads this`moveColDir, this`moveBack, this`moveCounter
    {
      Motion(moveColDir, moveBack, moveCounter)
    }

    /** The box shows one of the image sets its (known) animation type
        installed. */
    predicate ShowsAnimation()
      reads this`animType, this`images, this`imageSet
    {
      AnimationImages(animType).Some? && images == AnimationImages(animType).value
      && Lookup(images, imageSet).Some?
    }

    /** `cBaseBox()`: `Init` on a fresh actor. `depth` gives the Z layers'
        depths, which the header defines. */
    constructor (depth: ZLayer -> real)
      ensures fresh(actor)
      ensures actor.coltype == ColMassive && actor.zLayer == LayerMassive && actor.canBeGround
      ensures actor.posZ == depth(LayerClimbable) + 0.005
      ensures name == "Box" && boxType == TypeUndefined
      ensures useableCount == 1 && startUseableCount == 1
      ensures boxInvisible == BoxVisible && !invisible
      ensures BumpState() == AtRest
      ensures animType == "Default" && imageSet == "main" && ShowsAnimation()
    {
      actor := new TscLevel.Actor();
      animType := "";
      images := [];
      imageSet := "";
      invisible := false;
      new;
      Init(depth);
    }

    /** `cBaseBox(attributes, level)`: `Init`, then the invisibility kind
        cast from the float in `invisible` and the count `useable_count`
        (default: the start count `Init` set), which also becomes the start
        count. */
    constructor FromAttributes(a: Attributes, toFloat: String -> real,
                               collisionTypeId: String -> CollisionType, depth: ZLayer -> real)
      ensures fresh(actor)
      ensures actor.pos == (toFloat(Get(a, "posx")), toFloat(Get(a, "posy"))) && actor.startPos == actor.pos
      ensures name == "Box" && boxType == TypeUndefined
      ensures boxInvisible == InvisibleOfCode(Truncate(toFloat(Get(a, "invisible"))))
      ensures boxInvisible == BoxInvisibleSemiMassive ==> invisible && actor.coltype == ColPassive
      ensures boxInvisible != BoxInvisibleSemiMassive ==> !invisible && actor.coltype == ColMassive
      ensures useableCount == FetchInt(a, "useable_count", 1)
      ensures startUseableCount == Max(useableCount, -1)
      ensures BumpState() == AtRest
      ensures animType == "Default" && imageSet == "main" && ShowsAnimation()
    {
      actor := new TscLevel.Actor.FromAttributes(a, toFloat, collisionTypeId);
      animType := "";
      images := [];
      imageSet := "";
      invisible := false;
      new;
      Init(depth);
      SetBoxInvisible(InvisibleOfCode(Truncate(toFloat(Get(a, "invisible")))));
      SetUseableCount(FetchInt(a, "useable_count", startUseableCount), true);
    }

    /** `Init`: a massive, visible box at rest, usable once, with the
        "Default" animation. */
    method Init(depth: ZLayer -> real)
      modifies this`name, this`boxType, this`moveColDir, this`moveCounter, this`moveBack
      modifies this`useableCount, this`startUseableCount, this`boxInvisible
      modifies this`animType, this`images, this`imageSet
      modifies actor`coltype, actor`zLayer, actor`canBeGround, actor`posZ
      ensures actor.coltype == ColMassive && actor.zLayer == LayerMassive && actor.canBeGround
      ensures actor.posZ == depth(LayerClimbable) + 0.005
      ensures name == "Box" && boxType == TypeUndefined
      ensures useableCount == 1 && startUseableCount == 1
      ensures boxInvisible == BoxVisible && invisible == old(invisible)
      ensures BumpState() == AtRest
      ensures old(animType) == "Default" ==> animType == old(animType) && images == old(images) && imageSet == old(imageSet)
      ensures old(animType) != "Default" ==> animType == "Default" && imageSet == "main" && ShowsAnimation()
    {
      InitFields(depth);
      SetAnimationType("Default");
    }

    /** The part of `Init` before the animation type: the collision type,
        name, depth, bump state and use count. */
    method InitFields(depth: ZLayer -> real)
      modifies this`name, this`boxType, this`moveColDir, this`moveCounter, this`moveBack
      modifies this`useableCount, this`startUseableCount, this`boxInvisible
      modifies actor`coltype, actor`zLayer, actor`canBeGround, actor`posZ
      ensures actor.coltype == ColMassive && actor.zLayer == LayerMassive && actor.canBeGround
      ensures actor.posZ == depth(LayerClimbable) + 0.005
      ensures name == "Box" && boxType == TypeUndefined
      ensures useableCount == 1 && startUseableCount == 1
      ensures boxInvisible == BoxVisible
      ensures BumpState() == AtRest
    {
      actor.SetCollisionType(ColMassive);
      name := "Box";
      actor.canBeGround := true;
      boxType := TypeUndefined;
      actor.posZ := depth(LayerClimbable) + 0.005;
      moveColDir := DirUndefined;
      moveCounter := 0.0;
      moveBack := false;
      useableCount := 1;
      startUseableCount := 1;
      boxInvisible := BoxVisible;
    }

    /** `Set_Animation_Type`: the same type changes nothing; any other
        replaces the image sets by the type's own and shows "main"; an
        unknown type becomes "Bonus". */
    method SetAnimationType(t: String)
      modifies this`animType, this`images, this`imageSet
      decreases if AnimationImages(t).Some? then 0 else 1
      ensures old(animType) == t ==> animType == t && images == old(images) && imageSet == old(imageSet)
      ensures old(animType) != t ==> animType == AnimationFor(t) && imageSet == "main" && ShowsAnimation()
    {
      if animType == t {
        return;
      }
      images := [];
      animType := t;
      if t == "Bonus" || t == "Default" || t == "Power" || t == "Spin" {
        images := AnimationImages(t).value;
        imageSet := "main";
        AnimationSetsComplete(t);
      } else {
        SetAnimationType("Bonus");
      }
    }

    /** `Set_Useable_Count`: a new start count is clamped at -1, the value
        that means unlimited. */
    method SetUseableCount(count: int, newStart: bool)
      modifies this`useableCount, this`startUseableCount
      ensures useableCount == count
      ensures newStart ==> startUseableCount == Max(count, -1)
      ensures !newStart ==> startUseableCount == old(startUseableCount)
    {
      useableCount := count;
      if newStart {
        startUseableCount := useableCount;
        if startUseableCount < -1 {
          startUseableCount := -1;
        }
      }
    }

    /** `Set_Box_Invisible`: only the semi-massive kind changes the actor,
        to passive and invisible; leaving it makes the box massive and
        visible again. */
    method SetBoxInvisible(t: BoxInvisible)
      modifies this`boxInvisible, this`invisible, actor`coltype, actor`zLayer, actor`canBeGround
      ensures boxInvisible == t
      ensures old(boxInvisible) == t || (old(boxInvisible) != BoxInvisibleSemiMassive && t != BoxInvisibleSemiMassive) ==>
        invisible == old(invisible) && actor.coltype == old(actor.coltype)
        && actor.zLayer == old(actor.zLayer) && actor.canBeGround == old(actor.canBeGround)
      ensures old(boxInvisible) != t && t == BoxInvisibleSemiMassive ==>
        invisible && actor.coltype == ColPassive && actor.zLayer == LayerPassive && !actor.canBeGround
      ensures old(boxInvisible) == BoxInvisibleSemiMassive && t != BoxInvisibleSemiMassive ==>
        !invisible && actor.coltype == ColMassive && actor.zLayer == LayerMassive && actor.canBeGround
    {
      if boxInvisible == t {
        return;
      }
      var previous := boxInvisible;
      boxInvisible := t;
      if previous == BoxInvisibleSemiMassive {
        actor.SetCollisionType(ColMassive);
        invisible := false;
      }
      if t == BoxInvisibleSemiMassive {
        actor.SetCollisionType(ColPassive);
        invisible := true;
      }
    }

    /** The first half of `Activate_Collision`, up to the call of the
        overridable `Activate`: a box already bumping or used up ignores the
        hit (`go` is false); otherwise a semi-massive invisible box turns
        massive and visible and the bump starts in `dir`. */
    method StartCollision(dir: Direction) returns (go: bool)
      modifies this`moveColDir, this`invisible, actor`coltype, actor`zLayer, actor`canBeGround
      ensures go <==> old(moveColDir) == DirUndefined && useableCount != 0
      ensures go ==> moveColDir == dir
      ensures !go ==> moveColDir == old(moveColDir)
      ensures go && boxInvisible == BoxInvisibleSemiMassive ==>
        !invisible && actor.coltype == ColMassive && actor.zLayer == LayerMassive && actor.canBeGround
      ensures !(go && boxInvisible == BoxInvisibleSemiMassive) ==>
        invisible == old(invisible) && actor.coltype == old(actor.coltype)
        && actor.zLayer == old(actor.zLayer) && actor.canBeGround == old(actor.canBeGround)
    {
      if moveColDir != DirUndefined {
        return false;
      }
      if useableCount == 0 {
        return false;
      }
      if boxInvisible == BoxInvisibleSemiMassive {
        actor.SetCollisionType(ColMassive);
        invisible := false;
      }
      moveColDir := dir;
      go := true;
    }

    /** `Activate_Collision` of a plain box: the bump starts and the box is
        used once. */
    method ActivateCollision(dir: Direction)
      modifies this`moveColDir, this`invisible, this`useableCount, this`startUseableCount, actor`coltype, actor`zLayer, actor`canBeGround
      ensures old(moveColDir) == DirUndefined && old(useableCount) != 0 ==>
        moveColDir == dir && useableCount == Activated(old(useableCount))
      ensures startUseableCount == old(startUseableCount)
      ensures !(old(moveColDir) == DirUndefined && old(useableCount) != 0) ==>
        moveColDir == old(moveColDir) && useableCount == old(useableCount)
    {
      var go := StartCollision(dir);
      if go {
        Activate();
      }
    }

    /** `cBaseBox::Activate`: a positive count drops by one. */
    method Activate()
      modifies this`useableCount, this`startUseableCount
      ensures useableCount == Activated(old(useableCount))
      ensures startUseableCount == old(startUseableCount)
    {
      if useableCount > 0 {
        SetUseableCount(useableCount - 1, false);
      }
    }

    /** `Update_Collision` for one frame at `speedfactor`; the frame that
        ends the bump puts the box back on its start position. */
    method UpdateCollision(speedfactor: real)
      modifies this`moveColDir, this`moveBack, this`moveCounter, actor`pos
      ensures BumpState() == CollisionStep(old(BumpState()), speedfactor)
      ensures actor.pos == if EndsBump(old(BumpState()), speedfactor) then actor.startPos else old(actor.pos)
    {
      if moveColDir == DirUndefined {
        return;
      }
      if moveColDir != DirUp && moveColDir != DirDown && moveColDir != DirRight && moveColDir != DirLeft {
        moveColDir := DirUndefined;
        return;
      }
      moveCounter := moveCounter + speedfactor * 0.2;
      if !moveBack {
        if moveCounter > 1.0 {
          moveBack := true;
          moveCounter := 0.0;
        }
      } else if moveCounter > 1.0 {
        moveColDir := DirUndefined;
        moveBack := false;
        moveCounter := 0.0;
        actor.pos := actor.startPos;
      }
    }

    /** `cBaseBox::Update` past the actor's own update: the box animates
        when it is visible, when it is a ghost box and the player is a
        ghost, or once it has been used; then the bump moves on. */
    method Update(speedfactor: real, playerIsGhost: bool) returns (animates: bool)
      modifies this`moveColDir, this`moveBack, this`moveCounter, actor`pos
      ensures animates <==> boxInvisible == BoxVisible || (boxInvisible == BoxGhost && playerIsGhost)
                            || useableCount != startUseableCount
      ensures BumpState() == CollisionStep(old(BumpState()), speedfactor)
      ensures actor.pos == if EndsBump(old(BumpState()), speedfactor) then actor.startPos else old(actor.pos)
    {
      animates := boxInvisible == BoxVisible || (boxInvisible == BoxGhost && playerIsGhost)
                  || useableCount != startUseableCount;
      UpdateCollision(speedfactor);
    }

    /** `Handle_Collision_Player`: a player hitting the box from below,
        unless flying, bumps it upwards if it can still be used; the
        collision is always handled. */
    method HandleCollisionPlayer(fromBottom: bool, playerFlying: bool) returns (handled: bool)
      modifies this`moveColDir, this`invisible, this`useableCount, this`startUseableCount, actor`coltype, actor`zLayer, actor`canBeGround
      ensures handled
      ensures fromBottom && !playerFlying && old(moveColDir) == DirUndefined && old(useableCount) != 0 ==>
        moveColDir == DirDown && useableCount == Activated(old(useableCount))
      ensures startUseableCount == old(startUseableCount)
      ensures !(fromBottom && !playerFlying && old(moveColDir) == DirUndefined && old(useableCount) != 0) ==>
        moveColDir == old(moveColDir) && useableCount == old(useableCount)
    {
      if fromBottom && !playerFlying {
        if useableCount != 0 {
          ActivateCollision(DirDown);
        }
      }
      handled := true;
    }
  }
}
