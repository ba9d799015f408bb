/** A TSC level (tsc/src/level/level.cpp) and the actors it holds
    (tsc/src/objects/actor.cpp). Actors are kept in a list sorted by their
    depth `Z()`; every actor knows its level and a UID unique in it. A frame
    collects the collisions that moving actors cause in a tree keyed by the
    causer's UID, in which the mirror image of a recorded collision is not
    recorded again. The two classes refer to each other, so they share
    this module. */
module TscLevel {
  import opened Common
  import opened GameTypes
  import opened XmlAttributes
  import opened Actors

  /** The settings of a level that `<settings>` sets. */
  datatype LevelSettings = LevelSettings(
    author: String,
    version: String,
    difficulty: int,
    description: String,
    music: String,
    landType: LevelLandType,
    fixedCameraHorVel: real,
    cameraLimits: (real, real, real, real),
    unloadAfterExit: bool)

  /** Where and facing where the player starts. */
  datatype PlayerStart = PlayerStart(x: real, y: real, direction: Direction)

  /** `cLevel::Init`'s engine version. */
  const NewLevelEngineVersion := 47

  class Actor {
    var coltype: CollisionType
    var zLayer: ZLayer
    var canBeGround: bool
    /** `m_pos_z`: the depth within the layer */
    var posZ: real
    /** `m_uid`: 0 until the actor is added to a level */
    var uid: nat
    /** `mp_level` */
    var level: Level?
    /** `mp_ground_object` */
    var ground: Actor?
    var velocityY: real
    var pos: (real, real)
    var startPos: (real, real)

    /** `cActor()`: an invisible, front-passive actor at the very front,
        in no level. */
    constructor ()
      ensures coltype == ColFrontPassive && zLayer == LayerFrontPassive && !canBeGround && posZ == 999.99
      ensures uid == 0 && level == null && ground == null && velocityY == 0.0
      ensures pos == (0.0, 0.0) && startPos == (0.0, 0.0)
    {
      coltype := ColFrontPassive;
      zLayer := LayerFrontPassive;
      canBeGround := false;
      posZ := 999.99;
      uid := 0;
      level := null;
      ground := null;
      velocityY := 0.0;
      pos := (0.0, 0.0);
      startPos := (0.0, 0.0);
    }

    /** `cActor(attributes, level)`: placed at `posx`/`posy` (also as its
        start position), with the collision type named by `type`;
        `collisionTypeId` is `Get_Collision_Type_Id`. */
    constructor FromAttributes(a: Attributes, toFloat: String -> real, collisionTypeId: String -> CollisionType)
      ensures pos == (toFloat(Get(a, "posx")), toFloat(Get(a, "posy"))) && startPos == pos
      ensures coltype == collisionTypeId(Get(a, "type"))
      ensures LayerFor(coltype).Some? ==> (zLayer, canBeGround) == LayerFor(coltype).value
      ensures LayerFor(coltype).None? ==> zLayer == LayerFrontPassive && !canBeGround
      ensures posZ == 999.99 && uid == 0 && level == null && ground == null && velocityY == 0.0
    {
      var t := collisionTypeId(Get(a, "type"));
      var layer := LayerFor(t);
      coltype := t;
      if layer.Some? {
        zLayer := layer.value.0;
        canBeGround := layer.value.1;
      } else {
        zLayer := LayerFrontPassive;
        canBeGround := false;
      }
      posZ := 999.99;
      uid := 0;
      level := null;
      ground := null;
      velocityY := 0.0;
      pos := (toFloat(Get(a, "posx")), toFloat(Get(a, "posy")));
      startPos := pos;
    }

    /** `Z()`: the layer's depth plus the actor's own; `depth` gives the
        layers' depths. */
    function Z(depth: ZLayer -> real): real
      reads this`zLayer, this`posZ
    {
      depth(zLayer) + posZ
    }

    /** `Set_Collision_Type`: the type fixes the layer and whether the
        actor can be ground, except for animations and active actors. */
    method SetCollisionType(t: CollisionType)
      modifies this`coltype, this`zLayer, this`canBeGround
      ensures coltype == t
      ensures LayerFor(t).Some? ==> (zLayer, canBeGround) == LayerFor(t).value
      ensures LayerFor(t).None? ==> zLayer == old(zLayer) && canBeGround == old(canBeGround)
    {
      coltype := t;
      var layer := LayerFor(t);
      if layer.Some? {
        zLayer := layer.value.0;
        canBeGround := layer.value.1;
      }
    }

    /** `move(dx, dy)` followed by resetting the start position on each
        axis that moved, as the loader does for the positions old levels
        got wrong. */
    method Shift(dx: real, dy: real)
      modifies this`pos, this`startPos
      ensures pos == (old(pos).0 + dx, old(pos).1 + dy)
      ensures startPos == (if dx != 0.0 then pos.0 else old(startPos).0, if dy != 0.0 then pos.1 else old(startPos).1)
    {
      pos := (pos.0 + dx, pos.1 + dy);
      if dx != 0.0 {
        startPos := (pos.0, startPos.1);
      }
      if dy != 0.0 {
        startPos := (startPos.0, pos.1);
      }
    }

    /** `Set_On_Ground`: only an actor that can be ground is stood on, and
        landing stops the fall. */
    method SetOnGround(g: Actor) returns (ok: bool)
      modifies this`ground, this`velocityY
      ensures ok == g.canBeGround
      ensures ok ==> ground == g && velocityY == 0.0
      ensures !ok ==> ground == old(ground) && velocityY == old(velocityY)
    {
      if g.canBeGround {
        ground := g;
        velocityY := 0.0;
        return true;
      }
      return false;
    }

    /** `Reset_On_Ground`. */
    method ResetOnGround() returns (previous: Actor?)
      modifies this`ground
      ensures previous == old(ground) && ground == null
    {
      previous := ground;
      ground := null;
    }

    /** `Copy`: a new actor at this one's start position, without UID. */
    method Copy() returns (c: Actor)
      ensures fresh(c)
      ensures c.pos == startPos && c.startPos == startPos && c.uid == 0 && c.level == null
    {
      c := new Actor();
      c.pos := startPos;
      c.startPos := startPos;
    }

    /** `Handle_Collision` with the base class's handlers: only a massive
        or active sufferer hit from below is landed on; every collision
        counts as handled. */
    method HandleCollision(sufferer: Actor, fromBottom: bool) returns (handled: bool)
      modifies this`ground, this`velocityY
      ensures handled
      ensures HandlerFor(sufferer.coltype) == MassiveHandler && fromBottom && sufferer.canBeGround ==>
                ground == sufferer && velocityY == 0.0
      ensures !(HandlerFor(sufferer.coltype) == MassiveHandler && fromBottom && sufferer.canBeGround) ==>
                ground == old(ground) && velocityY == old(velocityY)
    {
      if HandlerFor(sufferer.coltype) == MassiveHandler && fromBottom {
        var _ := SetOnGround(sufferer);
      }
      return true;
    }

    /** `operator==`: the same UID in levels with the same file. */
    predicate Equals(other: Actor)
      requires level != null && other.level != null
      reads this, other, level, other.level
    {
      uid == other.uid && level.levelFile == other.level.levelFile
    }
  }

  /** The depths of a list of actors, in order. */
  ghost function ZsOf(s: seq<Actor>, depth: ZLayer -> real): (r: seq<real>)
    reads s`zLayer, s`posZ
    ensures |r| == |s|
    ensures forall i :: 0 <= i < |s| ==> r[i] == s[i].Z(depth)
    decreases |s|
  {
    if s == [] then [] else ZsOf(s[..|s| - 1], depth) + [s[|s| - 1].Z(depth)]
  }

  predicate Sorted(zs: seq<real>)
  {
    forall i, j :: 0 <= i < j < |zs| ==> zs[i] <= zs[j]
  }

  /** Where `Add_Actor` inserts depth `z`: before the first depth that is
      not smaller. */
  function InsertionIndex(zs: seq<real>, z: real): (k: nat)
    ensures k <= |zs|
    ensures forall j :: 0 <= j < k ==> zs[j] < z
    ensures k < |zs| ==> zs[k] >= z
  {
    if zs == [] || zs[0] >= z then 0 else 1 + InsertionIndex(zs[1..], z)
  }

  /** Inserting at the insertion index keeps a sorted list sorted. */
  lemma InsertKeepsSorted(zs: seq<real>, z: real, k: nat)
    requires Sorted(zs) && k == InsertionIndex(zs, z)
    ensures Sorted(zs[..k] + [z] + zs[k..])
  {
    var r := zs[..k] + [z] + zs[k..];
    forall i, j | 0 <= i < j < |r|
      ensures r[i] <= r[j]
    {
      if j < k {
        assert r[i] == zs[i] && r[j] == zs[j];
      } else if j == k {
        assert r[i] == zs[i];
      } else if i < k {
        assert r[i] == zs[i] && r[j] == zs[j - 1];
      } else if i == k {
        assert r[j] == zs[j - 1];
      } else {
        assert r[i] == zs[i - 1] && r[j] == zs[j - 1];
      }
    }
  }

  /** The insertion adds exactly the one depth. */
  lemma InsertAddsOne(zs: seq<real>, z: real, k: nat)
    requires k <= |zs|
    ensures |zs[..k] + [z] + zs[k..]| == |zs| + 1
    ensures multiset(zs[..k] + [z] + zs[k..]) == multiset(zs) + multiset{z}
  {
    assert zs == zs[..k] + zs[k..];
  }

  /** `Add_Collision_If_Required` on the collision tree, a map from the
      causer's UID to the sufferer's: a collision whose mirror image is
      recorded is dropped. */
  function WithCollision(c: map<nat, nat>, causer: nat, sufferer: nat): (r: map<nat, nat>)
  {
    if sufferer in c && c[sufferer] == causer then c else c[causer := sufferer]
  }

  /** Each pair of moving actors is evaluated once: after one of them
      records the collision, the other's mirror image is dropped. */
  lemma MirrorRecordedOnce(c: map<nat, nat>, a: nat, b: nat)
    requires a != b
    requires !(b in c && c[b] == a)
    ensures WithCollision(c, a, b)[a] == b
    ensures WithCollision(WithCollision(c, a, b), b, a) == WithCollision(c, a, b)
  {
  }

  /** A collision between different actors that is not a mirror is
      recorded under its causer, replacing what that causer had. */
  lemma CollisionRecorded(c: map<nat, nat>, a: nat, b: nat)
    ensures WithCollision(c, a, b).Keys <= c.Keys + {a}
    ensures !(b in c && c[b] == a) ==> WithCollision(c, a, b) == c[a := b]
  {
  }

  /** The collisions `Check_Collisions_For_Actor` records for the actor
      with UID `me`, over the other actors' UIDs and collision types in
      list order; `collide` is the rectangle test `Does_Collide`. */
  function CollisionsFound(c: map<nat, nat>, me: nat, others: seq<(nat, CollisionType)>, collide: (nat, nat) -> bool): map<nat, nat>
  {
    if others == [] then c
    else
      var r := CollisionsFound(c, me, others[..|others| - 1], collide);
      var o := others[|others| - 1];
      if o.0 == me then r
      else if o.1 != ColPassive && collide(me, o.0) then WithCollision(r, me, o.0)
      else r
  }

  /** The actor only ever records collisions as their causer, never with
      itself and never with a passive actor or one it does not touch. */
  lemma {:induction false} CollisionsFoundAreTheActors(c: map<nat, nat>, me: nat, others: seq<(nat, CollisionType)>, collide: (nat, nat) -> bool)
    ensures var r := CollisionsFound(c, me, others, collide);
      forall k :: k in r ==>
        (k in c && r[k] == c[k])
        || (k == me && r[k] != me && collide(me, r[k])
            && exists j :: 0 <= j < |others| && others[j].0 == r[k] && others[j].1 != ColPassive)
  {
    if others != [] {
      var init := others[..|others| - 1];
      CollisionsFoundAreTheActors(c, me, init, collide);
      var r := CollisionsFound(c, me, init, collide);
      var o := others[|others| - 1];
      var r' := CollisionsFound(c, me, others, collide);
      forall k | k in r'
        ensures (k in c && r'[k] == c[k])
                || (k == me && r'[k] != me && collide(me, r'[k])
                    && exists j :: 0 <= j < |others| && others[j].0 == r'[k] && others[j].1 != ColPassive)
      {
        if k in r && r'[k] == r[k] {
          if !(k in c && r[k] == c[k]) {
            var j :| 0 <= j < |init| && init[j].0 == r[k] && init[j].1 != ColPassive;
            assert others[j] == init[j];
          }
        } else {
          assert k == me && r'[k] == o.0;
          assert others[|others| - 1] == o;
        }
      }
    }
  }

  /** `cLevel`. */
  class Level {
    /** `m_levelfile` */
    var levelFile: String
    var engineVersion: int
    /** `m_last_saved` */
    var lastSaved: int
    var settings: LevelSettings
    var playerStart: PlayerStart
    /** `m_script`: the text of `<script>` */
    var script: String
    /** `m_last_max_uid` */
    var lastMaxUid: nat
    /** `m_actors`, sorted by depth */
    var actors: seq<Actor>
    /** `m_collisions` */
    var collisions: map<nat, nat>

    /** `cLevel()` and `Init`: an empty level of the current engine
        version whose player starts at (100, 100), with the default camera
        limits. */
    constructor ()
      ensures engineVersion == NewLevelEngineVersion && playerStart.x == 100.0 && playerStart.y == 100.0
      ensures settings.cameraLimits == (0.0, 0.0, 4000.0, 1000.0)
      ensures lastMaxUid == 0 && actors == [] && collisions == map[] && script == [] && levelFile == []
    {
      levelFile := [];
      engineVersion := NewLevelEngineVersion;
      lastSaved := 0;
      settings := LevelSettings([], [], 0, [], [], LltUndefined, 0.0, (0.0, 0.0, 4000.0, 1000.0), false);
      playerStart := PlayerStart(100.0, 100.0, DirUndefined);
      script := [];
      lastMaxUid := 0;
      actors := [];
      collisions := map[];
    }

    /** Every actor of the level knows it is in this level. */
    predicate Valid()
      reads this`actors, actors`level
    {
      forall a :: a in actors ==> a.level == this
    }

    /** The actors are in depth order. */
    ghost predicate ZSorted(depth: ZLayer -> real)
      reads this`actors, actors`zLayer, actors`posZ
    {
      Sorted(ZsOf(actors, depth))
    }

    /** `operator==`: levels are the same when their files are. */
    predicate Equals(other: Level)
      reads this, other
    {
      levelFile == other.levelFile
    }

    /** `Get_Next_UID`, which is not part of this model: taken to hand out
        the UID after the largest one handed out so far. */
    method NextUid() returns (u: nat)
      modifies this`lastMaxUid
      ensures u == old(lastMaxUid) + 1 && lastMaxUid == u
    {
      lastMaxUid := lastMaxUid + 1;
      u := lastMaxUid;
    }

    /** `Add_Actor`: the actor gets the UID asked for, or the next free
        one for 0, and is inserted before the first actor whose depth is
        not smaller, so the list stays in depth order. */
    method AddActor(actor: Actor, uid: nat, depth: ZLayer -> real)
      requires Valid()
      modifies this`actors, this`lastMaxUid, actor`uid, actor`level
      ensures Valid()
      ensures actor.level == this
      ensures uid == 0 ==> actor.uid == old(lastMaxUid) + 1 && lastMaxUid == actor.uid
      ensures uid != 0 ==> actor.uid == uid && lastMaxUid == old(lastMaxUid)
      ensures var k := InsertionIndex(ZsOf(old(actors), depth), actor.Z(depth));
              actors == old(actors)[..k] + [actor] + old(actors)[k..]
      ensures actor in actors && |actors| == |old(actors)| + 1
      ensures forall a :: a in old(actors) ==> a in actors
      ensures Sorted(ZsOf(old(actors), depth)) ==> ZSorted(depth)
    {
      AssignUid(actor, uid);
      actor.level := this;
      InsertByDepth(actor, depth);
    }

    /** The insertion of `Add_Actor`. */
    method InsertByDepth(actor: Actor, depth: ZLayer -> real)
      requires Valid() && actor.level == this
      modifies this`actors
      ensures Valid()
      ensures var k := InsertionIndex(ZsOf(old(actors), depth), actor.Z(depth));
              actors == old(actors)[..k] + [actor] + old(actors)[k..]
      ensures actor in actors && |actors| == |old(actors)| + 1
      ensures forall a :: a in old(actors) ==> a in actors
      ensures Sorted(ZsOf(old(actors), depth)) ==> ZSorted(depth)
    {
      var k := InsertionPoint(actor.Z(depth), depth);
      InsertedMembers(actors, k, actor);
      InsertionKeepsDepthOrder(actors, k, actor, depth);
      actors := actors[..k] + [actor] + actors[k..];
    }

    /** The UID `Add_Actor` gives an actor. */
    method AssignUid(actor: Actor, uid: nat)
      modifies this`lastMaxUid, actor`uid
      ensures uid == 0 ==> actor.uid == old(lastMaxUid) + 1 && lastMaxUid == actor.uid
      ensures uid != 0 ==> actor.uid == uid && lastMaxUid == old(lastMaxUid)
    {
      if uid == 0 {
        var u := NextUid();
        actor.uid := u;
      } else {
        actor.uid := uid;
      }
    }

    /** The loop of `Add_Actor` that finds where depth `z` goes. */
    method InsertionPoint(z: real, depth: ZLayer -> real) returns (k: nat)
      ensures k == InsertionIndex(ZsOf(actors, depth), z)
    {
      ghost var zs := ZsOf(actors, depth);
      k := 0;
      while k < |actors| && actors[k].Z(depth) < z
        invariant 0 <= k <= |actors|
        invariant forall j :: 0 <= j < k ==> zs[j] < z
      {
        k := k + 1;
      }
      InsertionIndexUnique(zs, z, k);
    }

    /** `Add_Collision_If_Required`. */
    method AddCollisionIfRequired(causer: Actor, sufferer: Actor)
      modifies this`collisions
      ensures collisions == WithCollision(old(collisions), causer.uid, sufferer.uid)
    {
      var myUid := causer.uid;
      var otherUid := sufferer.uid;
      if otherUid in collisions && collisions[otherUid] == myUid {
        return;
      }
      collisions := collisions[myUid := otherUid];
    }

    /** `Check_Collisions_For_Actor` for an actor of this level: every
        other actor that is not passive and that it touches is recorded as
        collided with. */
    method CheckCollisionsForActor(actor: Actor, collide: (nat, nat) -> bool)
      requires Valid() && actor.level == this
      modifies this`collisions
      ensures collisions == CollisionsFound(old(collisions), actor.uid, Snapshot(actors), collide)
    {
      ghost var others := Snapshot(actors);
      var i := 0;
      while i < |actors|
        invariant 0 <= i <= |actors|
        invariant collisions == CollisionsFound(old(collisions), actor.uid, others[..i], collide)
      {
        var other := actors[i];
        assert others[..i + 1][..i] == others[..i];
        if !other.Equals(actor) {
          if other.coltype != ColPassive && collide(actor.uid, other.uid) {
            AddCollisionIfRequired(actor, other);
          }
        }
        i := i + 1;
      }
      assert others[..i] == others;
    }
  }

  /** The UIDs and collision types of a list of actors. */
  ghost function Snapshot(s: seq<Actor>): (r: seq<(nat, CollisionType)>)
    reads set a | a in s
    ensures |r| == |s|
    ensures forall i :: 0 <= i < |s| ==> r[i] == (s[i].uid, s[i].coltype)
    decreases |s|
  {
    if s == [] then [] else Snapshot(s[..|s| - 1]) + [(s[|s| - 1].uid, s[|s| - 1].coltype)]
  }

  /** The depths after inserting an actor into a list. */
  /** An actor inserted at the insertion index of its depth keeps a list
      in depth order. */
  lemma InsertionKeepsDepthOrder(s: seq<Actor>, k: nat, a: Actor, depth: ZLayer -> real)
    requires k == InsertionIndex(ZsOf(s, depth), a.Z(depth))
    ensures Sorted(ZsOf(s, depth)) ==> Sorted(ZsOf(s[..k] + [a] + s[k..], depth))
  {
    var zs, z := ZsOf(s, depth), a.Z(depth);
    ZsAfterInsert(s, k, a, depth, zs, z);
    if Sorted(zs) {
      InsertKeepsSorted(zs, z, k);
    }
  }

  lemma ZsAfterInsert(s: seq<Actor>, k: nat, a: Actor, depth: ZLayer -> real, zs: seq<real>, z: real)
    requires k <= |s| == |zs|
    requires forall i :: 0 <= i < |s| ==> s[i].Z(depth) == zs[i]
    requires a.Z(depth) == z
    ensures ZsOf(s[..k] + [a] + s[k..], depth) == zs[..k] + [z] + zs[k..]
  {
    var t := s[..k] + [a] + s[k..];
    var r := ZsOf(t, depth);
    forall i | 0 <= i < |r|
      ensures r[i] == (zs[..k] + [z] + zs[k..])[i]
    {
      if i < k {
        assert t[i] == s[i];
      } else if i > k {
        assert t[i] == s[i - 1];
      }
    }
  }

  /** Inserting `x` into `s` adds `x` and nothing else. */
  lemma InsertedMembers<T>(s: seq<T>, k: nat, x: T)
    requires k <= |s|
    ensures forall a :: a in s[..k] + [x] + s[k..] ==> a in s || a == x
    ensures forall a :: a in s ==> a in s[..k] + [x] + s[k..]
    ensures x in s[..k] + [x] + s[k..]
  {
    assert s == s[..k] + s[k..];
    assert (s[..k] + [x] + s[k..])[k] == x;
    forall a | a in s[..k] + [x] + s[k..]
      ensures a in s || a == x
    {
      var i :| 0 <= i < |s[..k] + [x] + s[k..]| && (s[..k] + [x] + s[k..])[i] == a;
      if i > k {
        assert a == s[i - 1];
      } else if i < k {
        assert a == s[i];
      }
    }
  }

  lemma InsertionIndexUnique(zs: seq<real>, z: real, k: nat)
    requires k <= |zs|
    requires forall j :: 0 <= j < k ==> zs[j] < z
    requires k < |zs| ==> zs[k] >= z
    ensures k == InsertionIndex(zs, z)
  {
  }
}
