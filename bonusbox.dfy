/** The bonus box, `cBonusBox` (tsc/src/objects/bonusbox.cpp): a box with
    an item type, a "force best item" flag and, for jewel boxes, a gold
    colour. It specialises `Boxes.Box`, which it holds; the overridden
    `Set_Useable_Count` and `Activate` are the bonus box's own methods here,
    and the base box's collision start calls them. The item spawning of
    `Activate` is commented out in the source and is not modelled. */
module BonusBoxes {
  import opened Common
  import opened GameTypes
  import opened Actors
  import opened XmlAttributes
  import opened PropertyHelper
  import opened Boxes

  /** The name `Set_Bonus_Type` gives the box for an item type; `None` for
      the types that keep the name: the random power-up, the jewel (named by
      its colour) and unknown types. */
  function ItemName(t: int): Option<String>
  {
    if t == TypeUndefined then Some("Bonusbox Empty")
    else if t == TypeMushroomDefault then Some("Bonusbox Berry")
    else if t == TypeFireplant then Some("Bonusbox Fire berry")
    else if t == TypeMushroomBlue then Some("Bonusbox Ice berry")
    else if t == TypeMushroomGhost then Some("Bonusbox Ghost berry")
    else if t == TypeMushroomLive1 then Some("Bonusbox 1-Up berry")
    else if t == TypeStar then Some("Bonusbox Lemon")
    else if t == TypeMushroomPoison then Some("Bonusbox Poisonous berry")
    else None
  }

  /** The names tell the items apart: two item types with the same name are
      the same type. */
  lemma ItemNamesDistinct(t1: int, t2: int)
    requires ItemName(t1).Some? && ItemName(t1) == ItemName(t2)
    ensures t1 == t2
  {
  }

  /** The name `Set_Goldcolor` gives a jewel box; `None` for a colour
      without jewels, which keeps the name. */
  function JewelName(c: DefaultColor): Option<String>
  {
    if c == ColYellow then Some("Bonusbox Jewel")
    else if c == ColRed then Some("Bonusbox Red Jewel")
    else None
  }

  /** `Set_Goldcolor` as written, on (colour, name): the assignment of
      COL_YELLOW for COL_DEFAULT is overwritten by the next statement, so
      the colour is stored as passed, and a jewel box keeps its name when
      that colour is COL_DEFAULT. */
  function GoldcolorAsWritten(color: DefaultColor, name: String, boxType: int, c: DefaultColor): (DefaultColor, String)
  {
    if boxType != TypeGoldpiece then (c, name)
    else if JewelName(c).Some? then (c, JewelName(c).value)
    else (c, name)
  }

  /** As written, COL_DEFAULT is stored and the jewel box is not renamed.
      A level's jewel box with `gold_color="purple"` reaches this:
      `Get_Color_Id` maps the unknown name to COL_DEFAULT, and the box stays
      "Bonusbox Empty" with no gold colour. */
  lemma GoldcolorAsWrittenKeepsDefault(color: DefaultColor, name: String)
    ensures GoldcolorAsWritten(color, name, TypeGoldpiece, ColDefault) == (ColDefault, name)
    ensures GoldcolorAsWritten(ColYellow, "Bonusbox Empty", TypeGoldpiece, ColorId("purple"))
            == (ColDefault, "Bonusbox Empty")
  {
    assert ColorId("purple") == ColDefault;
  }

  /** The colour `Set_Goldcolor` evidently means to store: COL_DEFAULT
      stands for yellow, any other colour is kept. */
  function GoldColorFor(c: DefaultColor): (r: DefaultColor)
    ensures r != ColDefault
    ensures c != ColDefault ==> r == c
  {
    if c == ColDefault then ColYellow else c
  }

  /** `Set_Goldcolor` as evidently meant, on (colour, name). */
  function GoldcolorCorrected(color: DefaultColor, name: String, boxType: int, c: DefaultColor): (DefaultColor, String)
  {
    var g := GoldColorFor(c);
    if boxType == TypeGoldpiece && JewelName(g).Some? then (g, JewelName(g).value) else (g, name)
  }

  /** With the correction, a jewel box given the default colour, yellow or
      red is always named after its jewel, and never keeps COL_DEFAULT. */
  lemma CorrectedJewelNamed(color: DefaultColor, name: String, c: DefaultColor)
    requires c == ColDefault || c == ColYellow || c == ColRed
    ensures GoldcolorCorrected(color, name, TypeGoldpiece, c).0 != ColDefault
    ensures JewelName(GoldColorFor(c)).Some?
    ensures GoldcolorCorrected(color, name, TypeGoldpiece, c).1 == JewelName(GoldColorFor(c)).value
    ensures c != ColRed ==> GoldcolorCorrected(color, name, TypeGoldpiece, c).1 == "Bonusbox Jewel"
  {
  }

  /** The two agree on every colour but COL_DEFAULT. */
  lemma GoldcolorAgreesOffDefault(color: DefaultColor, name: String, boxType: int, c: DefaultColor)
    requires c != ColDefault
    ensures GoldcolorAsWritten(color, name, boxType, c) == GoldcolorCorrected(color, name, boxType, c)
  {
  }

  /** The item `Activate` draws for a power-up box from `rand() % 5`. */
  function PowerupPick(r: int): (t: int)
    requires 0 <= r < 5
    ensures t == TypeMushroomDefault || t == TypeFireplant || t == TypeMushroomBlue
            || t == TypeMushroomGhost || t == TypeStar
    ensures ItemName(t).Some?
  {
    if r == 0 then TypeMushroomDefault
    else if r == 1 then TypeFireplant
    else if r == 2 then TypeMushroomBlue
    else if r == 3 then TypeMushroomGhost
    else TypeStar
  }

  /** The name of a freshly loaded bonus box: its item's name, its jewel's
      name, or the empty box's name `Init` gave it. */
  function LoadedName(t: int, gold: DefaultColor): String
  {
    if t == TypeGoldpiece && JewelName(gold).Some? then JewelName(gold).value
    else Renamed(t, "Bonusbox Empty")
  }

  /** The name after `Set_Bonus_Type` gives the box a new item type. */
  function Renamed(t: int, name: String): String
  {
    if ItemName(t).Some? then ItemName(t).value else name
  }

  /** The image set a bonus box shows for a useable count. */
  function CountImageSet(count: int): String
  {
    if count == 0 then "disabled" else "main"
  }

  class BonusBox {
    const box: Box
    /** `m_force_best_item` */
    var forceBestItem: bool
    /** `m_gold_color` */
    var goldColor: DefaultColor

    /** A random power-up box always gives the best item. */
    predicate PowerupForcesBest()
      reads this`forceBestItem, box`boxType
    {
      box.boxType == TypePowerup ==> forceBestItem
    }

    /** What every operation keeps: the box shows an image set of its
        animation, and a power-up box forces the best item. */
    predicate Valid()
      reads this`forceBestItem, this`goldColor, box`boxType, box`animType, box`images, box`imageSet
    {
      box.ShowsAnimation() && PowerupForcesBest()
    }

    /** `cBonusBox()`: an empty, yellow bonus box, usable once. */
    constructor (depth: ZLayer -> real)
      ensures fresh(box) && fresh(box.actor)
      ensures Valid()
      ensures box.boxType == TypeUndefined && box.name == "Bonusbox Empty"
      ensures !forceBestItem && goldColor == ColYellow
      ensures box.animType == "Bonus" && box.imageSet == "main"
      ensures box.useableCount == 1 && box.startUseableCount == 1
    {
      box := new Box(depth);
      forceBestItem := false;
      goldColor := ColDefault;
      new;
      Init();
    }

    /** `cBonusBox(attributes, level)`: the base box from the attributes,
        `Init`, then the item type from `item`, the flag from
        `force_best_item` and, for a jewel box, the colour from
        `gold_color` (yellow when absent). The base constructor sets the
        loaded count before `Init` installs the "Bonus" image sets, so the
        box shows "main" whatever its count. */
    constructor FromAttributes(a: Attributes, toFloat: String -> real,
                               collisionTypeId: String -> CollisionType, depth: ZLayer -> real)
      ensures fresh(box) && fresh(box.actor)
      ensures Valid()
      ensures box.boxType == StringToInt(Get(a, "item"))
      ensures forceBestItem <==> box.boxType == TypePowerup || StringToInt(Get(a, "force_best_item")) != 0
      ensures box.boxType == TypeGoldpiece ==> goldColor == ColorId(FetchString(a, "gold_color", "yellow"))
      ensures box.boxType != TypeGoldpiece ==> goldColor == ColYellow
      ensures box.name == LoadedName(box.boxType, goldColor)
      ensures box.useableCount == FetchInt(a, "useable_count", 1)
      ensures box.animType == "Bonus" && box.imageSet == "main"
    {
      box := new Box.FromAttributes(a, toFloat, collisionTypeId, depth);
      forceBestItem := false;
      goldColor := ColDefault;
      new;
      Init();
      LoadItem(a);
    }

    /** The constructor's steps after `Init`, on the empty yellow box it
        leaves. */
    method LoadItem(a: Attributes)
      requires box.boxType == TypeUndefined && box.name == "Bonusbox Empty" && !forceBestItem && goldColor == ColYellow
      modifies this`forceBestItem, this`goldColor, box`boxType, box`name
      ensures box.boxType == StringToInt(Get(a, "item"))
      ensures forceBestItem <==> box.boxType == TypePowerup || StringToInt(Get(a, "force_best_item")) != 0
      ensures box.boxType == TypeGoldpiece ==> goldColor == ColorId(FetchString(a, "gold_color", "yellow"))
      ensures box.boxType != TypeGoldpiece ==> goldColor == ColYellow
      ensures box.name == LoadedName(box.boxType, goldColor)
    {
      SetBonusType(StringToInt(Get(a, "item")));
      SetForceBestItem(StringToInt(Get(a, "force_best_item")) != 0);
      if box.boxType == TypeGoldpiece {
        assert ColorName(goldColor) == "yellow";
        SetGoldcolor(ColorId(FetchString(a, "gold_color", ColorName(goldColor))));
      }
    }

    /** `cBonusBox::Init`: an empty yellow box with the "Bonus" animation
        that does not force the best item. */
    method Init()
      modifies this`forceBestItem, this`goldColor, box`animType, box`images, box`imageSet, box`boxType, box`name
      ensures Valid()
      ensures box.boxType == TypeUndefined && box.name == "Bonusbox Empty"
      ensures !forceBestItem && goldColor == ColYellow
      ensures box.animType == "Bonus"
      ensures old(box.animType) == "Bonus" ==> box.images == old(box.images) && box.imageSet == old(box.imageSet)
      ensures old(box.animType) != "Bonus" ==> box.imageSet == "main"
      requires box.animType == "Bonus" ==> box.ShowsAnimation()
    {
      forceBestItem := false;
      box.SetAnimationType("Bonus");
      goldColor := ColDefault;
      SetGoldcolor(ColYellow);
      box.boxType := TypeUndefined;
      box.name := "Bonusbox Empty";
    }

    /** `cBonusBox::Set_Useable_Count`: the base box's count, and the
        "disabled" image set exactly when the count is zero. */
    method SetUseableCount(count: int, newStart: bool)
      modifies box`useableCount, box`startUseableCount, box`imageSet
      ensures box.useableCount == count
      ensures newStart ==> box.startUseableCount == Max(count, -1)
      ensures !newStart ==> box.startUseableCount == old(box.startUseableCount)
      ensures box.imageSet == CountImageSet(count)
      ensures old(Valid()) ==> Valid()
    {
      box.SetUseableCount(count, newStart);
      if box.useableCount == 0 {
        box.imageSet := "disabled";
      } else {
        box.imageSet := "main";
      }
      if old(Valid()) {
        AnimationSetsComplete(box.animType);
      }
    }

    /** `Set_Bonus_Type`: the same type changes nothing; a new one renames
        the box after its item, and the random power-up forces the best
        item. */
    method SetBonusType(t: int)
      modifies this`forceBestItem, box`boxType, box`name
      ensures box.boxType == t
      ensures old(box.boxType) == t ==> forceBestItem == old(forceBestItem) && box.name == old(box.name)
      ensures old(box.boxType) != t ==>
        forceBestItem == (t == TypePowerup || old(forceBestItem))
        && box.name == Renamed(t, old(box.name))
      ensures old(PowerupForcesBest()) ==> PowerupForcesBest()
    {
      if box.boxType == t {
        return;
      }
      box.boxType := t;
      if t == TypePowerup {
        forceBestItem := true;
      }
      var n := ItemName(t);
      if n.Some? {
        box.name := n.value;
      }
    }

    /** `Set_Force_Best_Item`: ignored on a random power-up box. */
    method SetForceBestItem(enable: bool)
      modifies this`forceBestItem
      ensures forceBestItem == if box.boxType == TypePowerup then old(forceBestItem) else enable
      ensures old(PowerupForcesBest()) ==> PowerupForcesBest()
    {
      if box.boxType == TypePowerup {
        return;
      }
      forceBestItem := enable;
    }

    /** `Set_Goldcolor`: the colour is stored as passed (the yellow first
        assigned for COL_DEFAULT is overwritten), and a jewel box is renamed
        after a colour that has jewels. */
    method SetGoldcolor(c: DefaultColor)
      modifies this`goldColor, box`name
      ensures (goldColor, box.name) == GoldcolorAsWritten(old(goldColor), old(box.name), box.boxType, c)
      ensures goldColor == c
      ensures box.boxType == TypeGoldpiece && JewelName(c).Some? ==> box.name == JewelName(c).value
      ensures !(box.boxType == TypeGoldpiece && JewelName(c).Some?) ==> box.name == old(box.name)
    {
      if c == ColDefault {
        goldColor := ColYellow;
      }
      goldColor := c;
      if box.boxType != TypeGoldpiece {
        return;
      }
      if goldColor == ColYellow {
        box.name := "Bonusbox Jewel";
      } else if goldColor == ColRed {
        box.name := "Bonusbox Red Jewel";
      }
    }

    /** `cBonusBox::Activate` with `rand()`'s value: the base box is used
        once (through the bonus box's own count setter); a power-up box
        draws an item and is a power-up box again afterwards. */
    method Activate(rand: nat)
      modifies box`useableCount, box`startUseableCount, box`imageSet, box`boxType
      ensures box.useableCount == Activated(old(box.useableCount))
      ensures box.startUseableCount == old(box.startUseableCount)
      ensures box.boxType == old(box.boxType)
      ensures old(box.useableCount) > 0 ==> box.imageSet == CountImageSet(box.useableCount)
      ensures old(box.useableCount) <= 0 ==> box.imageSet == old(box.imageSet)
      ensures old(Valid()) ==> Valid()
    {
      if box.useableCount > 0 {
        SetUseableCount(box.useableCount - 1, false);
      }
      var random := false;
      if box.boxType == TypePowerup {
        box.boxType := PowerupPick(rand % 5);
        random := true;
      }
      if random {
        box.boxType := TypePowerup;
      }
    }

    /** `Activate_Collision` of a bonus box: the bump starts and the bonus
        box's `Activate` runs. */
    method ActivateCollision(dir: Direction, rand: nat)
      modifies box`moveColDir, box`invisible, box`useableCount, box`startUseableCount, box`imageSet, box`boxType,
               box.actor`coltype, box.actor`zLayer, box.actor`canBeGround
      ensures box.boxType == old(box.boxType) && box.startUseableCount == old(box.startUseableCount)
      ensures old(box.moveColDir) == DirUndefined && old(box.useableCount) != 0 ==>
        box.moveColDir == dir && box.useableCount == Activated(old(box.useableCount))
      ensures !(old(box.moveColDir) == DirUndefined && old(box.useableCount) != 0) ==>
        box.moveColDir == old(box.moveColDir) && box.useableCount == old(box.useableCount)
        && box.imageSet == old(box.imageSet)
      ensures old(Valid()) ==> Valid()
    {
      var go := box.StartCollision(dir);
      if go {
        Activate(rand);
      }
    }

    /** `Handle_Collision_Player` on a bonus box: a hit from below by a
        player who is not flying bumps it while it is still useable. */
    method HandleCollisionPlayer(fromBottom: bool, playerFlying: bool, rand: nat) returns (handled: bool)
      modifies box`moveColDir, box`invisible, box`useableCount, box`startUseableCount, box`imageSet, box`boxType,
               box.actor`coltype, box.actor`zLayer, box.actor`canBeGround
      ensures handled
      ensures box.boxType == old(box.boxType) && box.startUseableCount == old(box.startUseableCount)
      ensures fromBottom && !playerFlying && old(box.moveColDir) == DirUndefined && old(box.useableCount) != 0 ==>
        box.moveColDir == DirDown && box.useableCount == Activated(old(box.useableCount))
      ensures !(fromBottom && !playerFlying && old(box.moveColDir) == DirUndefined && old(box.useableCount) != 0) ==>
        box.moveColDir == old(box.moveColDir) && box.useableCount == old(box.useableCount)
      ensures old(Valid()) ==> Valid()
    {
      if fromBottom && !playerFlying {
        if box.useableCount != 0 {
          ActivateCollision(DirDown, rand);
        }
      }
      handled := true;
    }
  }
}
