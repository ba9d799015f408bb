/** The collision classification of a TSC `cActor`
    (tsc/src/objects/actor.cpp): which collision types block, which can be
    collided with, which Z layer and ground capability a collision type
    implies, and which handler a collision with a sufferer of each type is
    dispatched to. The mutable actor itself is `TscLevel.Actor`, next to the
    level that holds it. */
module Actors {
  import opened Common

  /** `cActor::CollisionType`. */
  datatype CollisionType =
    | ColMassive | ColPassive | ColFrontPassive | ColHalfMassive | ColClimbable
    | ColEnemy | ColPlayer | ColLava | ColAnim | ColActive

  /** The Z layers `Set_Collision_Type` chooses between. Their depths are
      given by the header, which is not part of this model. */
  datatype ZLayer = LayerMassive | LayerPassive | LayerFrontPassive | LayerHalfMassive | LayerClimbable | LayerPlayer

  /** The layer and ground capability `Set_Collision_Type` assigns, `None`
      for the animation and active types, which keep the previous ones. */
  function LayerFor(t: CollisionType): (r: Option<(ZLayer, bool)>)
  {
    match t
    case ColMassive => Some((LayerMassive, true))
    case ColEnemy => Some((LayerMassive, true))
    case ColLava => Some((LayerMassive, true))
    case ColPassive => Some((LayerPassive, false))
    case ColFrontPassive => Some((LayerFrontPassive, false))
    case ColHalfMassive => Some((LayerHalfMassive, true))
    case ColClimbable => Some((LayerClimbable, false))
    case ColPlayer => Some((LayerPlayer, true))
    case ColAnim => None
    case ColActive => None
  }

  /** Ground is what something can stand on: the massive, enemy, lava,
      half-massive and player types; passive, front-passive and climbable
      actors cannot carry anything. */
  lemma GroundTypes(t: CollisionType)
    ensures LayerFor(t).Some? <==> !(t.ColAnim? || t.ColActive?)
    ensures LayerFor(t).Some? ==>
              (LayerFor(t).value.1 <==> t in {ColMassive, ColEnemy, ColLava, ColHalfMassive, ColPlayer})
    ensures LayerFor(t).Some? && LayerFor(t).value.0 == LayerMassive <==> t in {ColMassive, ColEnemy, ColLava}
  {
  }

  /** `Is_Blocking`. */
  predicate IsBlocking(t: CollisionType)
  {
    match t
    case ColMassive => true
    case ColEnemy => true
    case ColPlayer => true
    case ColLava => true
    case _ => false
  }

  /** `Is_Collidable`. */
  predicate IsCollidable(t: CollisionType)
  {
    match t
    case ColMassive => true
    case ColEnemy => true
    case ColPlayer => true
    case ColLava => true
    case ColHalfMassive => true
    case _ => false
  }

  /** Whatever blocks can be collided with; the only collidable type that
      does not block is the half-massive one. */
  lemma BlockingIsCollidable(t: CollisionType)
    ensures IsBlocking(t) ==> IsCollidable(t)
    ensures IsCollidable(t) && !IsBlocking(t) <==> t == ColHalfMassive
    ensures IsBlocking(t) <==> t in {ColMassive, ColEnemy, ColPlayer, ColLava}
  {
  }

  /** The handlers `Handle_Collision` dispatches to. */
  datatype CollisionHandler = PlayerHandler | EnemyHandler | MassiveHandler | PassiveHandler | LavaHandler | Swallowed

  /** `Handle_Collision`: the handler for the sufferer's collision type. */
  function HandlerFor(sufferer: CollisionType): CollisionHandler
  {
    match sufferer
    case ColPlayer => PlayerHandler
    case ColEnemy => EnemyHandler
    case ColMassive => MassiveHandler
    case ColActive => MassiveHandler
    case ColPassive => PassiveHandler
    case ColFrontPassive => PassiveHandler
    case ColHalfMassive => PassiveHandler
    case ColClimbable => PassiveHandler
    case ColLava => LavaHandler
    case ColAnim => Swallowed
  }

  /** Every collision type has a handler, the dispatch groups them as the
      switch does, and only animations are swallowed. */
  lemma HandlerDispatch(t: CollisionType)
    ensures HandlerFor(t) == MassiveHandler <==> t in {ColMassive, ColActive}
    ensures HandlerFor(t) == PassiveHandler <==> t in {ColPassive, ColFrontPassive, ColHalfMassive, ColClimbable}
    ensures HandlerFor(t) == Swallowed <==> t == ColAnim
    ensures HandlerFor(t) == PlayerHandler <==> t == ColPlayer
  {
  }
}
