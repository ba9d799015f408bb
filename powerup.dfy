/** The power-ups (tsc/src/objects/powerup.cpp): the common `cPowerUp`
    and the berries `cMushroom`, the fire berry `cFirePlant` and the
    cookie `cMoon`. The item a collected power-up hands to the level
    player and the points it adds to the HUD are returned to the caller;
    the player and the HUD are not part of this model. */
module PowerUps {
  import opened Common
  import opened GameTypes
  import opened XmlAttributes
  import opened PropertyHelper

  /** `cPowerUp::Validate_Collision`, after the ghost check (`basic`,
      which decides when it says anything but NOT_POSSIBLE): the player
      always collides (internally), balls never, massive objects block
      except enemies, halfmassive ones block a falling power-up standing on
      them, and nothing else collides. */
  function ValidateCollision(basic: ColValidType, vely: real, obj: CollisionPartner): ColValidType
  {
    if basic != ColVtypeNotPossible then basic
    else if obj.spriteType == TypePlayer then ColVtypeInternal
    else if obj.spriteType == TypeBall then ColVtypeNotValid
    else if obj.massive == MassMassive then
      (if obj.arrayType == ArrayEnemy then ColVtypeNotValid else ColVtypeBlocking)
    else if obj.massive == MassHalfmassive && vely >= 0.0 && obj.onTop then ColVtypeBlocking
    else ColVtypeNotValid
  }

  /** Who collides with a power-up: the player always and only internally,
      balls and massive enemies never, other massive objects always block,
      halfmassive ones exactly when it falls onto them, and nothing else. */
  lemma CollisionRules(vely: real, obj: CollisionPartner)
    ensures var r := ValidateCollision(ColVtypeNotPossible, vely, obj);
      && (r == ColVtypeInternal <==> obj.spriteType == TypePlayer)
      && (obj.spriteType == TypeBall ==> r == ColVtypeNotValid)
      && (obj.spriteType != TypePlayer && obj.spriteType != TypeBall && obj.massive == MassMassive ==>
            (r == ColVtypeBlocking <==> obj.arrayType != ArrayEnemy))
      && (obj.spriteType != TypePlayer && obj.spriteType != TypeBall && obj.massive == MassHalfmassive ==>
            (r == ColVtypeBlocking <==> vely >= 0.0 && obj.onTop))
      && (obj.spriteType != TypePlayer && obj.massive in {MassPassive, MassClimbable, MassFrontPassive} ==>
            r == ColVtypeNotValid)
      && r != ColVtypeNotPossible
  {
  }

  /** The five berries: their name and image set. */
  function MushroomLook(t: int): (r: Option<(String, String)>)
  {
    if t == TypeMushroomDefault then Some(("Berry", "game/items/berry_big.imgset"))
    else if t == TypeMushroomLive1 then Some(("Life berry", "game/items/berry_life.imgset"))
    else if t == TypeMushroomPoison then Some(("Poisonous berry", "game/items/berry_poison.imgset"))
    else if t == TypeMushroomBlue then Some(("Ice berry", "game/items/berry_ice.imgset"))
    else if t == TypeMushroomGhost then Some(("Ghost berry", "game/items/berry_ghost.imgset"))
    else None
  }

  predicate KnownMushroom(t: int)
  {
    t in {TypeMushroomDefault, TypeMushroomLive1, TypeMushroomPoison, TypeMushroomBlue, TypeMushroomGhost}
  }

  /** Exactly the five berry types have a look, each its own. */
  lemma MushroomLooks(t: int, u: int)
    ensures MushroomLook(t).Some? <==> KnownMushroom(t)
    ensures KnownMushroom(t) && KnownMushroom(u) && t != u ==> MushroomLook(t).value.0 != MushroomLook(u).value.0
  {
  }

  /** The points a berry is worth: 500 for the berry, 1000 for the life
      berry, none for the poisonous one, 700 for the ice berry and 800 for
      the ghost berry. */
  function MushroomPoints(t: int): (r: nat)
  {
    if t == TypeMushroomDefault then 500
    else if t == TypeMushroomLive1 then 1000
    else if t == TypeMushroomBlue then 700
    else if t == TypeMushroomGhost then 800
    else 0
  }

  /** The life berry is the most valuable berry and the poisonous one is
      worth nothing; every other berry is worth something. */
  lemma MushroomPointsOrder(t: int)
    requires KnownMushroom(t)
    ensures MushroomPoints(t) <= MushroomPoints(TypeMushroomLive1)
    ensures MushroomPoints(t) == 0 <==> t == TypeMushroomPoison
  {
  }

  /** The common part of every power-up: whether it is active, spawned
      (from a box) or destroyed, and how many activate events it fired. */
  class PowerUp {
    var active: bool
    var spawned: bool
    /** `m_auto_destroy` */
    var destroyed: bool
    /** the `cActivate_Event`s fired for scripts */
    var events: nat

    constructor (spawned: bool)
      ensures active && this.spawned == spawned && !destroyed && events == 0
    {
      active := true;
      this.spawned := spawned;
      destroyed := false;
      events := 0;
    }

    /** `Is_Update_Valid`: only an active power-up is updated. */
    predicate IsUpdateValid()
      reads this`active
    {
      active
    }

    /** `cPowerUp::Activate`: an inactive power-up does nothing, an active
        one fires its activate event. */
    method Activate()
      modifies this`events
      ensures events == old(events) + (if active then 1 else 0)
    {
      if !active {
        return;
      }
      events := events + 1;
    }

    /** What every power-up does last when collected: a spawned one is
        destroyed, a placed one only hidden (`Set_Active(0)`). Destroying
        a sprite, in the sprite's own source, also deactivates it. */
    method Vanish()
      modifies this`active, this`destroyed
      ensures !active
      ensures destroyed == (old(destroyed) || spawned)
    {
      if spawned {
        destroyed := true;
        active := false;
      } else {
        active := false;
      }
    }
  }

  /** The common end of `Activate` for the three power-ups: nothing when
      inactive; otherwise the item is handed over, the points added, one
      event fired and the power-up gone. */
  twostate predicate Collected(p: PowerUp, item: int, points: nat, new got: Option<int>, new added: nat)
    reads p
  {
    if !old(p.active) then
      (got == None && added == 0 && p.events == old(p.events) && p.active == old(p.active)
       && p.destroyed == old(p.destroyed))
    else
      (got == Some(item) && added == points && p.events == old(p.events) + 1 && !p.active
       && p.destroyed == (old(p.destroyed) || p.spawned))
  }

  class Mushroom {
    const powerUp: PowerUp
    /** `m_type` */
    var mushroomType: int
    var name: String
    var imageSet: String
    var velx: real
    var direction: Direction

    /** `Set_Type`: the same type changes nothing, an unknown one is
        refused, a known one brings its name and images. */
    method SetType(t: int)
      modifies this`mushroomType, this`name, this`imageSet
      ensures mushroomType == (if KnownMushroom(t) then t else old(mushroomType))
      ensures KnownMushroom(t) && t != old(mushroomType) ==> (name, imageSet) == MushroomLook(t).value
      ensures !KnownMushroom(t) || t == old(mushroomType) ==> name == old(name) && imageSet == old(imageSet)
    {
      if mushroomType == t {
        return;
      }
      var look := MushroomLook(t);
      if look.None? {
        return;
      }
      name := look.value.0;
      imageSet := look.value.1;
      mushroomType := t;
    }

    /** `cMushroom()`: `Init` — a berry heading right at 3. */
    constructor (spawned: bool)
      ensures fresh(powerUp) && powerUp.active && powerUp.spawned == spawned && !powerUp.destroyed
      ensures mushroomType == TypeMushroomDefault && name == "Berry" && velx == 3.0 && direction == DirRight
    {
      powerUp := new PowerUp(spawned);
      velx := 3.0;
      direction := DirRight;
      mushroomType := TypeUndefined;
      name := [];
      imageSet := [];
      new;
      SetType(TypeMushroomDefault);
    }

    /** `cMushroom(attributes)`: the berry named by `mushroom_type`, a plain
        berry when it names none or an unknown one. */
    constructor FromAttributes(a: Attributes)
      ensures fresh(powerUp) && powerUp.active && !powerUp.spawned
      ensures mushroomType == LoadedMushroom(a)
      ensures (name, imageSet) == MushroomLook(mushroomType).value
    {
      powerUp := new PowerUp(false);
      velx := 3.0;
      direction := DirRight;
      mushroomType := TypeMushroomDefault;
      name := "Berry";
      imageSet := "game/items/berry_big.imgset";
      new;
      SetType(FetchInt(a, "mushroom_type", TypeMushroomDefault));
    }

    /** `cMushroom::Activate`: the player gets the berry and its points. */
    method Activate() returns (item: Option<int>, points: nat)
      modifies powerUp`events, powerUp`active, powerUp`destroyed
      ensures Collected(powerUp, mushroomType, MushroomPoints(mushroomType), item, points)
    {
      if !powerUp.active {
        return None, 0;
      }
      powerUp.Activate();
      item := Some(mushroomType);
      points := MushroomPoints(mushroomType);
      powerUp.Vanish();
    }

    /** `Handle_Collision_Player`: any real collision collects the berry. */
    method HandleCollisionPlayer(dir: Direction) returns (item: Option<int>, points: nat)
      modifies powerUp`events, powerUp`active, powerUp`destroyed
      ensures dir == DirUndefined ==> item == None && points == 0 && unchanged(powerUp)
      ensures dir != DirUndefined ==> Collected(powerUp, mushroomType, MushroomPoints(mushroomType), item, points)
    {
      if dir == DirUndefined {
        return None, 0;
      }
      item, points := Activate();
    }
  }

  /** The berry a level's `mushroom_type` makes. */
  function LoadedMushroom(a: Attributes): (t: int)
    ensures KnownMushroom(t)
  {
    var t := FetchInt(a, "mushroom_type", TypeMushroomDefault);
    if KnownMushroom(t) then t else TypeMushroomDefault
  }

  /** Every berry written as its number under `mushroom_type` is the
      berry the level gets back. */
  lemma LoadedMushroomOfSaved(t: int)
    requires KnownMushroom(t)
    ensures LoadedMushroom(map["mushroom_type" := IntToString(t)]) == t
  {
    StringToIntOfNat(t);
  }

  /** The fire berry: 700 points. */
  class FirePlant {
    const powerUp: PowerUp

    constructor (spawned: bool)
      ensures fresh(powerUp) && powerUp.active && powerUp.spawned == spawned && !powerUp.destroyed
    {
      powerUp := new PowerUp(spawned);
    }

    method Activate() returns (item: Option<int>, points: nat)
      modifies powerUp`events, powerUp`active, powerUp`destroyed
      ensures Collected(powerUp, TypeFireplant, 700, item, points)
    {
      if !powerUp.active {
        return None, 0;
      }
      powerUp.Activate();
      item := Some(TypeFireplant);
      points := 700;
      powerUp.Vanish();
    }
  }

  /** The cookie (3-UP): 4000 points. */
  class Moon {
    const powerUp: PowerUp

    constructor (spawned: bool)
      ensures fresh(powerUp) && powerUp.active && powerUp.spawned == spawned && !powerUp.destroyed
    {
      powerUp := new PowerUp(spawned);
    }

    method Activate() returns (item: Option<int>, points: nat)
      modifies powerUp`events, powerUp`active, powerUp`destroyed
      ensures Collected(powerUp, TypeMoon, 4000, item, points)
    {
      if !powerUp.active {
        return None, 0;
      }
      powerUp.Activate();
      item := Some(TypeMoon);
      points := 4000;
      powerUp.Vanish();
    }
  }
}
