/** The fire and ice ball, `cBall` (tsc/src/objects/ball.cpp): the
    projectile the player (or an enemy) throws. Its kind, who threw it,
    which objects it collides with, how it bounces and when it is
    destroyed, and what a savegame keeps of it. The ball's collision
    partner and the player it hits are described by the few values the
    ball reads from them. */
module Balls {
  import opened Common
  import opened GameTypes
  import opened PropertyHelper
  import opened SaveData

  /* `ball_effect` */
  const FireballDefault: int := 1
  const FireballExplosion: int := 2
  const IceballDefault: int := 3
  const IceballExplosion: int := 4

  /** `Set_Ball_Type`: an explosion type becomes its ball's default type,
      and any other type than the four is refused (the ball is destroyed). */
  function NormalType(t: int): (r: Option<int>)
  {
    if t == FireballDefault || t == FireballExplosion then Some(FireballDefault)
    else if t == IceballDefault || t == IceballExplosion then Some(IceballDefault)
    else None
  }

  /** A ball is always a fire or an ice ball, of the kind it was asked to
      be, and normalising again changes nothing. */
  lemma NormalTypeKinds(t: int)
    ensures NormalType(t).Some? <==> 1 <= t <= 4
    ensures NormalType(t).Some? ==> NormalType(t).value in {FireballDefault, IceballDefault}
    ensures NormalType(t).Some? ==> NormalType(NormalType(t).value) == NormalType(t)
    ensures t in {FireballDefault, FireballExplosion} ==> NormalType(t) == Some(FireballDefault)
    ensures t in {IceballDefault, IceballExplosion} ==> NormalType(t) == Some(IceballDefault)
  {
  }

  /** `Validate_Collision`, after the ghost check (`basic`, which decides
      when it says anything but NOT_POSSIBLE): the player collides with
      balls it did not throw, balls never with balls, massive objects block
      except enemies for an enemy's ball, and halfmassive ones block a ball
      falling onto them; nothing else collides. `onTop` is whether the ball
      is on top of the object. */
  function ValidateCollision(basic: ColValidType, originType: int, originArray: ArrayType,
                             vely: real, obj: CollisionPartner): ColValidType
  {
    if basic != ColVtypeNotPossible then basic
    else if obj.spriteType == TypePlayer then
      (if originType != TypePlayer then ColVtypeInternal else ColVtypeNotValid)
    else if obj.spriteType == TypeBall then ColVtypeNotValid
    else if obj.massive == MassMassive then
      (if obj.arrayType == ArrayEnemy && originArray == ArrayEnemy then ColVtypeNotValid else ColVtypeBlocking)
    else if obj.massive == MassHalfmassive && vely >= 0.0 && obj.onTop then ColVtypeBlocking
    else ColVtypeNotValid
  }

  /** Who collides with a ball: the player exactly with balls it did not
      throw, and then only internally; no ball with a ball; an enemy's ball
      never with a massive enemy; a halfmassive object blocks exactly a ball
      falling onto it; passive and climbable objects never collide. */
  lemma CollisionRules(originType: int, originArray: ArrayType, vely: real, obj: CollisionPartner)
    ensures var r := ValidateCollision(ColVtypeNotPossible, originType, originArray, vely, obj);
      && (obj.spriteType == TypePlayer ==> (r != ColVtypeNotValid <==> originType != TypePlayer) && r != ColVtypeBlocking)
      && (obj.spriteType == TypeBall ==> r == ColVtypeNotValid)
      && (obj.spriteType != TypePlayer && obj.spriteType != TypeBall ==> r != ColVtypeInternal)
      && (obj.spriteType != TypePlayer && obj.spriteType != TypeBall && obj.massive == MassMassive ==>
            (r == ColVtypeNotValid <==> obj.arrayType == ArrayEnemy && originArray == ArrayEnemy))
      && (obj.spriteType != TypePlayer && obj.spriteType != TypeBall && obj.massive == MassHalfmassive ==>
            (r == ColVtypeBlocking <==> vely >= 0.0 && obj.onTop))
      && (obj.spriteType != TypePlayer && obj.massive in {MassPassive, MassClimbable, MassFrontPassive} ==>
            r == ColVtypeNotValid)
  {
  }

  /** `Handle_Collision_Player`'s hit on the player's velocity `v`, the ball
      touching the player from `dir`: a player running or jumping into the
      ball is slowed, to 30% sideways, 20% upwards and 40% downwards. */
  function PlayerHit(dir: Direction, v: (real, real)): (r: (real, real))
  {
    if dir == DirLeft then (if v.0 > 0.0 then (v.0 * 0.3, v.1) else v)
    else if dir == DirRight then (if v.0 < 0.0 then (v.0 * 0.3, v.1) else v)
    else if dir == DirUp then (if v.1 > 0.0 then (v.0, v.1 * 0.2) else v)
    else if dir == DirDown then (if v.1 < 0.0 then (v.0, v.1 * 0.4) else v)
    else v
  }

  /** The hit only ever slows the player: no component changes sign or
      grows. */
  lemma PlayerHitSlows(dir: Direction, v: (real, real))
    ensures var r := PlayerHit(dir, v);
      && (v.0 > 0.0 ==> 0.0 < r.0 <= v.0) && (v.0 < 0.0 ==> v.0 <= r.0 < 0.0) && (v.0 == 0.0 ==> r.0 == 0.0)
      && (v.1 > 0.0 ==> 0.0 < r.1 <= v.1) && (v.1 < 0.0 ==> v.1 <= r.1 < 0.0) && (v.1 == 0.0 ==> r.1 == 0.0)
      && (dir == DirLeft && v.0 > 0.0 ==> r.0 < v.0)
      && (dir == DirRight && v.0 < 0.0 ==> r.0 > v.0)
  {
  }

  /** The visual effects a destroyed ball leaves behind. */
  datatype Effect = FireballAnimation | IceParticles

  /** The properties `Save_To_Savegame` writes, in order: start position,
      current position (both cut to whole numbers), direction, and the two
      velocities as text (`floatText` is `float_to_string`). */
  function SavedProperties(startPos: (real, real), pos: (real, real), direction: int, vel: (real, real),
                           floatText: real -> String): seq<(String, String)>
  {
    [("posx", IntToString(Truncate(startPos.0))), ("posy", IntToString(Truncate(startPos.1))),
     ("new_posx", IntToString(Truncate(pos.0))), ("new_posy", IntToString(Truncate(pos.1))),
     ("direction", IntToString(direction)),
     ("velx", floatText(vel.0)), ("vely", floatText(vel.1))]
  }

  /** The saved values `Load_From_Savegame` reads back: the new position,
      the direction and the velocities, each only when saved. */
  function LoadedPos(props: seq<(String, String)>, pos: (real, real), toFloat: String -> real): (real, real)
  {
    var x := Lookup(props, "new_posx");
    var y := Lookup(props, "new_posy");
    (if x.Some? then toFloat(x.value) else pos.0, if y.Some? then toFloat(y.value) else pos.1)
  }

  function LoadedDirection(props: seq<(String, String)>, direction: int): int
  {
    var d := Lookup(props, "direction");
    if d.Some? then StringToInt(d.value) else direction
  }

  function LoadedVel(props: seq<(String, String)>, vel: (real, real), toFloat: String -> real): (real, real)
  {
    var x := Lookup(props, "velx");
    var y := Lookup(props, "vely");
    (if x.Some? then toFloat(x.value) else vel.0, if y.Some? then toFloat(y.value) else vel.1)
  }

  /** A saved ball loads back where it was (cut to whole numbers), facing
      the same way and flying as fast, whenever the number texts read back
      as the numbers they were written from. */
  lemma SaveLoadRoundTrip(startPos: (real, real), pos: (real, real), direction: int, vel: (real, real),
                          floatText: real -> String, toFloat: String -> real,
                          pos2: (real, real), direction2: int, vel2: (real, real))
    requires 0 <= direction <= IntMax
    requires toFloat(IntToString(Truncate(pos.0))) == Truncate(pos.0) as real
    requires toFloat(IntToString(Truncate(pos.1))) == Truncate(pos.1) as real
    requires toFloat(floatText(vel.0)) == vel.0 && toFloat(floatText(vel.1)) == vel.1
    ensures var props := SavedProperties(startPos, pos, direction, vel, floatText);
      && LoadedPos(props, pos2, toFloat) == (Truncate(pos.0) as real, Truncate(pos.1) as real)
      && LoadedDirection(props, direction2) == direction
      && LoadedVel(props, vel2, toFloat) == vel
  {
    SavedLookups(startPos, pos, direction, vel, floatText);
    StringToIntOfNat(direction);
  }

  /** The names `Save_To_Savegame` writes, in order. */
  const SavedNames: seq<String> := ["posx", "posy", "new_posx", "new_posy", "direction", "velx", "vely"]

  /** The saved names are pairwise distinct and name the saved values in
      order. */
  lemma SavedNamesDistinct(startPos: (real, real), pos: (real, real), direction: int, vel: (real, real),
                           floatText: real -> String)
    ensures var props := SavedProperties(startPos, pos, direction, vel, floatText);
      |props| == 7 && forall i :: 0 <= i < 7 ==> props[i].0 == SavedNames[i]
    ensures forall i, j :: 0 <= i < j < 7 ==> SavedNames[i] != SavedNames[j]
  {
    var keys := SavedNames;
    assert forall i, j :: 0 <= i < j < 7 ==> keys[i] != keys[j] by {
      assert keys[0][0] == 'p' && keys[1][0] == 'p' && keys[2][0] == 'n' && keys[3][0] == 'n';
      assert keys[4][0] == 'd' && keys[5][0] == 'v' && keys[6][0] == 'v';
      assert keys[0][3] == 'x' && keys[1][3] == 'y' && keys[2][7] == 'x' && keys[3][7] == 'y';
      assert keys[5][3] == 'x' && keys[6][3] == 'y';
    }
  }

  /** The saved start and current positions are found under their names. */
  lemma SavedPositionLookups(startPos: (real, real), pos: (real, real), direction: int, vel: (real, real),
                             floatText: real -> String)
    ensures var props := SavedProperties(startPos, pos, direction, vel, floatText);
      && Lookup(props, "posx") == Some(IntToString(Truncate(startPos.0)))
      && Lookup(props, "posy") == Some(IntToString(Truncate(startPos.1)))
      && Lookup(props, "new_posx") == Some(IntToString(Truncate(pos.0)))
      && Lookup(props, "new_posy") == Some(IntToString(Truncate(pos.1)))
  {
    var props := SavedProperties(startPos, pos, direction, vel, floatText);
    SavedNamesDistinct(startPos, pos, direction, vel, floatText);
    LookupFirst(props, SavedNames[0], 0);
    LookupFirst(props, SavedNames[1], 1);
    LookupFirst(props, SavedNames[2], 2);
    LookupFirst(props, SavedNames[3], 3);
  }

  /** The saved direction and velocities are found under their names. */
  lemma SavedMotionLookups(startPos: (real, real), pos: (real, real), direction: int, vel: (real, real),
                           floatText: real -> String)
    ensures var props := SavedProperties(startPos, pos, direction, vel, floatText);
      && Lookup(props, "direction") == Some(IntToString(direction))
      && Lookup(props, "velx") == Some(floatText(vel.0))
      && Lookup(props, "vely") == Some(floatText(vel.1))
  {
    var props := SavedProperties(startPos, pos, direction, vel, floatText);
    SavedNamesDistinct(startPos, pos, direction, vel, floatText);
    LookupFirst(props, SavedNames[4], 4);
    LookupFirst(props, SavedNames[5], 5);
    LookupFirst(props, SavedNames[6], 6);
  }

  /** Each saved value is found under its own name. */
  lemma SavedLookups(startPos: (real, real), pos: (real, real), direction: int, vel: (real, real),
                     floatText: real -> String)
    ensures var props := SavedProperties(startPos, pos, direction, vel, floatText);
      && Lookup(props, "posx") == Some(IntToString(Truncate(startPos.0)))
      && Lookup(props, "posy") == Some(IntToString(Truncate(startPos.1)))
      && Lookup(props, "new_posx") == Some(IntToString(Truncate(pos.0)))
      && Lookup(props, "new_posy") == Some(IntToString(Truncate(pos.1)))
      && Lookup(props, "direction") == Some(IntToString(direction))
      && Lookup(props, "velx") == Some(floatText(vel.0))
      && Lookup(props, "vely") == Some(floatText(vel.1))
  {
    SavedPositionLookups(startPos, pos, direction, vel, floatText);
    SavedMotionLookups(startPos, pos, direction, vel, floatText);
  }

  class Ball {
    var ballType: int
    var originArray: ArrayType
    var originType: int
    /** `m_auto_destroy`: set once the ball is destroyed */
    var destroyed: bool
    /** `m_direction`, as the number the ball stores */
    var direction: int
    var pos: (real, real)
    var startPos: (real, real)
    var vel: (real, real)
    /** the destruction effects handed to the animation manager */
    var effects: seq<Effect>

    /** `cBall()`: `Init` — a fire ball of no origin. */
    constructor ()
      ensures ballType == FireballDefault && originArray == ArrayUndefined && originType == TypeUndefined
      ensures !destroyed && effects == [] && vel == (0.0, 0.0)
    {
      ballType := FireballDefault;
      originArray := ArrayUndefined;
      originType := TypeUndefined;
      destroyed := false;
      direction := 0;
      pos := (0.0, 0.0);
      startPos := (0.0, 0.0);
      vel := (0.0, 0.0);
      effects := [];
    }

    /** `Set_Ball_Type`: an unknown type keeps the old one and destroys the
        ball through the moving sprite, without an effect. */
    method SetBallType(t: int)
      modifies this`ballType, this`destroyed
      ensures NormalType(t).Some? ==> ballType == NormalType(t).value && destroyed == old(destroyed)
      ensures NormalType(t).None? ==> ballType == old(ballType) && destroyed
    {
      if t == FireballDefault || t == FireballExplosion {
        ballType := FireballDefault;
      } else if t == IceballDefault || t == IceballExplosion {
        ballType := IceballDefault;
      } else {
        destroyed := true;
      }
    }

    method SetOrigin(origin: ArrayType, spriteType: int)
      modifies this`originArray, this`originType
      ensures originArray == origin && originType == spriteType
    {
      originArray := origin;
      originType := spriteType;
    }

    /** `Destroy`: the first call leaves a fire or ice effect and destroys
        the ball; later calls do nothing. */
    method Destroy()
      modifies this`destroyed, this`effects
      ensures destroyed
      ensures old(destroyed) ==> effects == old(effects)
      ensures !old(destroyed) ==> effects == old(effects) + DestroyEffect(ballType)
    {
      if destroyed {
        return;
      }
      if ballType == FireballDefault {
        effects := effects + [FireballAnimation];
      } else if ballType == IceballDefault {
        effects := effects + [IceParticles];
      }
      destroyed := true;
    }

    /** `Destroy_Ball`: the sound is not modelled. */
    method DestroyBall()
      modifies this`destroyed, this`effects
      ensures destroyed
      ensures old(destroyed) ==> effects == old(effects)
      ensures !old(destroyed) ==> effects == old(effects) + DestroyEffect(ballType)
    {
      Destroy();
    }

    /** `Handle_Collision_Player`: the player `v` is slowed and the ball
        destroyed. */
    method HandleCollisionPlayer(dir: Direction, v: (real, real)) returns (hit: (real, real))
      modifies this`destroyed, this`effects
      ensures hit == PlayerHit(dir, v) && destroyed
      ensures !old(destroyed) ==> effects == old(effects) + DestroyEffect(ballType)
    {
      hit := PlayerHit(dir, v);
      Destroy();
    }

    /** `Handle_Collision_Enemy`: an enemy resistant to the ball's kind
        repels it, any other is hit; the ball is destroyed either way. */
    method HandleCollisionEnemy(fireResistant: bool, iceResistance: real) returns (hitsEnemy: bool)
      modifies this`destroyed, this`effects
      ensures hitsEnemy <==> !((ballType == FireballDefault && fireResistant) || (ballType == IceballDefault && iceResistance >= 1.0))
      ensures destroyed
    {
      hitsEnemy := !((ballType == FireballDefault && fireResistant) || (ballType == IceballDefault && iceResistance >= 1.0));
      Destroy();
    }

    /** `Handle_Collision_Massive`: landing on ground while flying sideways
        bounces a fire ball up at 10 and an ice ball at 5; landing without
        sideways speed, or hitting from any other side, destroys it. */
    method HandleCollisionMassive(dir: Direction)
      modifies this`vel, this`destroyed, this`effects
      ensures dir == DirDown && !(-0.1 < old(vel.0) < 0.1) && ballType == FireballDefault ==>
        vel == (old(vel.0), -10.0) && destroyed == old(destroyed)
      ensures dir == DirDown && !(-0.1 < old(vel.0) < 0.1) && ballType == IceballDefault ==>
        vel == (old(vel.0), -5.0) && destroyed == old(destroyed)
      ensures dir != DirDown || -0.1 < old(vel.0) < 0.1 ==> destroyed && vel == old(vel)
    {
      if dir == DirDown {
        if vel.0 < 0.1 && vel.0 > -0.1 {
          DestroyBall();
          return;
        }
        if ballType == FireballDefault {
          vel := (vel.0, -10.0);
        } else if ballType == IceballDefault {
          vel := (vel.0, -5.0);
        }
      } else {
        DestroyBall();
      }
    }

    /** `Handle_Collision_Lava`: fire balls jump off lava, ice balls melt. */
    method HandleCollisionLava()
      modifies this`vel, this`destroyed, this`effects
      ensures ballType == FireballDefault ==> vel == (old(vel.0), -25.0) && destroyed == old(destroyed)
      ensures ballType != FireballDefault ==> vel == old(vel) && destroyed
    {
      if ballType == FireballDefault {
        vel := (vel.0, -25.0);
      } else {
        DestroyBall();
      }
    }

    /** `Handle_out_of_Level`: leaving through the top is allowed; any
        other edge destroys the ball. */
    method HandleOutOfLevel(dir: Direction)
      modifies this`destroyed, this`effects
      ensures dir == DirUp ==> destroyed == old(destroyed) && effects == old(effects)
      ensures dir != DirUp ==> destroyed
    {
      if dir == DirUp {
        return;
      }
      DestroyBall();
    }

    /** `Save_To_Savegame`. */
    function SaveToSavegame(floatText: real -> String): (r: SaveLevelObject)
      reads this
      ensures r.spriteType == TypeBall
    {
      SaveLevelObject(TypeBall, SavedProperties(startPos, pos, direction, vel, floatText))
    }

    /** `Load_From_Savegame`. */
    method LoadFromSavegame(o: SaveLevelObject, toFloat: String -> real)
      modifies this`pos, this`direction, this`vel
      ensures pos == LoadedPos(o.properties, old(pos), toFloat)
      ensures direction == LoadedDirection(o.properties, old(direction))
      ensures vel == LoadedVel(o.properties, old(vel), toFloat)
    {
      var x := Lookup(o.properties, "new_posx");
      if x.Some? {
        pos := (toFloat(x.value), pos.1);
      }
      var y := Lookup(o.properties, "new_posy");
      if y.Some? {
        pos := (pos.0, toFloat(y.value));
      }
      var d := Lookup(o.properties, "direction");
      if d.Some? {
        direction := StringToInt(d.value);
      }
      var vx := Lookup(o.properties, "velx");
      if vx.Some? {
        vel := (toFloat(vx.value), vel.1);
      }
      var vy := Lookup(o.properties, "vely");
      if vy.Some? {
        vel := (vel.0, toFloat(vy.value));
      }
    }
  }

  /** The effect `Destroy` leaves for a ball of type `t`. */
  function DestroyEffect(t: int): seq<Effect>
  {
    if t == FireballDefault then [FireballAnimation]
    else if t == IceballDefault then [IceParticles]
    else []
  }

  /** Destroying a ball leaves at most one effect, of the ball's kind. */
  lemma DestroyEffectKind(t: int)
    ensures |DestroyEffect(t)| <= 1
    ensures NormalType(t).Some? ==> |DestroyEffect(NormalType(t).value)| == 1
  {
  }
}
