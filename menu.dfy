/** The menu item handler `cMenuHandler` and the up/down keys of
    `cMenuCore` (tsc/src/gui/menu.cpp): the items with their screen
    rectangles, the active item, and how keys and the mouse move the
    selection. The menu level, particle clouds and drawing are not part of
    this model. Each change of the active item notifies the menu data
    (`Selected_Item_Changed`); the methods here report that call as a
    returned flag. */
module Menu {
  import opened Common

  /** `sf::FloatRect`: left, top, width and height. */
  datatype Rect = Rect(left: real, top: real, width: real, height: real)

  const EmptyRect := Rect(0.0, 0.0, 0.0, 0.0)

  function RMin(a: real, b: real): real { if a < b then a else b }
  function RMax(a: real, b: real): real { if a < b then b else a }

  /** `contains`: inside the rectangle, its right and bottom edges
      excluded, whichever way the width and height point. */
  predicate RectContains(r: Rect, x: real, y: real)
  {
    RMin(r.left, r.left + r.width) <= x < RMax(r.left, r.left + r.width) &&
    RMin(r.top, r.top + r.height) <= y < RMax(r.top, r.top + r.height)
  }

  /** A menu entry: its rectangle and the object it stands for (`None` is
      a null pointer). */
  datatype MenuItem = MenuItem(rect: Rect, item: Option<nat>)

  /** The first entry whose rectangle holds the point, or -1. */
  function FirstContaining(items: seq<MenuItem>, x: real, y: real): (r: int)
    ensures -1 <= r < |items|
    ensures r >= 0 ==> RectContains(items[r].rect, x, y)
    ensures forall i :: 0 <= i < |items| && (r == -1 || i < r) ==> !RectContains(items[i].rect, x, y)
  {
    if items == [] then -1
    else if RectContains(items[0].rect, x, y) then 0
    else
      var r := FirstContaining(items[1..], x, y);
      assert forall i :: 1 <= i < |items| ==> items[i] == items[1..][i - 1];
      if r == -1 then -1 else r + 1
  }

  /** The Down key: the next entry, the first after the last one, and the
      first when none is active. */
  function NextActive(active: int, size: nat): (r: int)
    requires -1 <= active < size
    ensures size > 0 ==> 0 <= r < size
    ensures 0 <= active < size - 1 ==> r == active + 1
    ensures active == size - 1 || active == -1 ==> r == 0
  {
    if size <= active + 1 then 0 else active + 1
  }

  /** The Up key: the previous entry, the last before the first one, and
      the last when none is active (-1 on an empty menu). */
  function PreviousActive(active: int, size: nat): (r: int)
    requires -1 <= active < size
    ensures size > 0 ==> 0 <= r < size
    ensures size == 0 ==> r == -1
    ensures 0 < active ==> r == active - 1
    ensures active <= 0 ==> r == size - 1
  {
    if active <= 0 then size - 1 else active - 1
  }

  /** Up undoes Down and Down undoes Up, wherever an entry is active. */
  lemma UpDownInverse(active: int, size: nat)
    requires 0 <= active < size
    ensures PreviousActive(NextActive(active, size), size) == active
    ensures NextActive(PreviousActive(active, size), size) == active
  {
  }

  /** Down pressed `k` times. */
  function DownTimes(active: int, size: nat, k: nat): (r: int)
    requires 0 <= active < size
    ensures 0 <= r < size
    decreases k
  {
    if k == 0 then active else DownTimes(NextActive(active, size), size, k - 1)
  }

  /** Before the end, each Down press moves one entry further. */
  lemma {:induction false} DownWalks(active: int, size: nat, k: nat)
    requires 0 <= active && active + k < size
    ensures DownTimes(active, size, k) == active + k
    decreases k
  {
    if k > 0 {
      DownWalks(active + 1, size, k - 1);
    }
  }

  /** `j` presses and then `k` more are `j + k` presses. */
  lemma {:induction false} DownTimesAdd(active: int, size: nat, j: nat, k: nat)
    requires 0 <= active < size
    ensures DownTimes(active, size, j + k) == DownTimes(DownTimes(active, size, j), size, k)
    decreases j
  {
    if j > 0 {
      DownTimesAdd(NextActive(active, size), size, j - 1, k);
    }
  }

  /** Pressing Down as many times as there are entries comes back to the
      entry the walk started from. */
  lemma DownCycles(active: int, size: nat)
    requires 0 <= active < size
    ensures DownTimes(active, size, size) == active
  {
    var j := size - 1 - active;
    DownTimesAdd(active, size, j, active + 1);
    DownWalks(active, size, j);
    DownWalks(0, size, active);
  }

  /** `cMenuHandler`. */
  class MenuHandler {
    var items: seq<MenuItem>
    var active: int

    /** An item is active exactly when there are items. */
    predicate Valid()
      reads this
    {
      -1 <= active < |items| && (active == -1 <==> items == [])
    }

    constructor()
      ensures items == [] && active == -1 && Valid()
    {
      items := [];
      active := -1;
    }

    function Size(): nat
      reads this
    {
      |items|
    }

    /** `Add_Menu_Item`: appends the entry and returns its index; the
        first entry becomes active. */
    method AddMenuItem(rect: Rect, item: Option<nat>) returns (index: int, notified: bool)
      modifies this
      ensures items == old(items) + [MenuItem(rect, item)]
      ensures index == |old(items)|
      ensures old(active) == -1 && old(items) == [] ==> active == 0 && notified
      ensures !(old(active) == -1 && old(items) == []) ==> active == old(active) && !notified
      ensures old(Valid()) ==> Valid()
    {
      items := items + [MenuItem(rect, item)];
      notified := false;
      if active == -1 && |items| == 1 {
        notified := SetActive(0);
      }
      index := |items| - 1;
    }

    /** `Reset`: no items and nothing active. */
    method Reset()
      modifies this
      ensures items == [] && active == -1 && Valid()
    {
      items := [];
      active := -1;
    }

    /** `Set_Active`: makes an existing entry active; an index out of
        range or the entry already active changes nothing. */
    method SetActive(num: int) returns (notified: bool)
      modifies this`active
      ensures notified <==> num != old(active) && 0 <= num < |items|
      ensures active == if notified then num else old(active)
      ensures old(Valid()) && items != [] ==> Valid()
    {
      if num == active || num < 0 || num >= |items| {
        return false;
      }
      active := num;
      return true;
    }

    /** `Get_Active_Item`: the object of the active entry, null when none
        is active. */
    function ActiveItem(): (r: Option<nat>)
      reads this
      ensures 0 <= active < |items| ==> r == items[active].item
      ensures !(0 <= active < |items|) ==> r == None
    {
      if active < 0 || active >= |items| then None else items[active].item
    }

    /** `Get_Active_Item_Rect`: the rectangle of the active entry, an empty
        one when none is active. */
    function ActiveItemRect(): (r: Rect)
      reads this
      ensures 0 <= active < |items| ==> r == items[active].rect
      ensures !(0 <= active < |items|) ==> r == EmptyRect
    {
      if active < 0 || active >= |items| then EmptyRect else items[active].rect
    }

    /** `Update_Mouse`: the first entry under the cursor becomes active. A
        cursor over no entry changes nothing (`mouseInit` is the case the
        source returns early for; `Set_Active(-1)` would also do nothing). */
    method UpdateMouse(x: real, y: real, mouseInit: bool) returns (notified: bool)
      modifies this`active
      ensures var found := FirstContaining(items, x, y);
        (found >= 0 ==> active == found) &&
        (found < 0 ==> active == old(active)) &&
        (notified <==> found >= 0 && found != old(active))
      ensures old(Valid()) ==> Valid()
    {
      var found := -1;
      var i := 0;
      while i < |items|
        invariant 0 <= i <= |items|
        invariant found == -1 || found == FirstContaining(items, x, y)
        invariant found == -1 ==> forall j :: 0 <= j < i ==> !RectContains(items[j].rect, x, y)
        invariant found >= 0 ==> i == |items|
      {
        if RectContains(items[i].rect, x, y) {
          found := i;
          FirstContainingIsFirst(items, x, y, i);
          break;
        }
        i := i + 1;
      }
      if found == -1 {
        NoneContaining(items, x, y);
      }
      if found < 0 && mouseInit {
        return false;
      }
      notified := SetActive(found);
    }
  }

  lemma FirstContainingIsFirst(items: seq<MenuItem>, x: real, y: real, i: nat)
    requires i < |items| && RectContains(items[i].rect, x, y)
    requires forall j :: 0 <= j < i ==> !RectContains(items[j].rect, x, y)
    ensures FirstContaining(items, x, y) == i
  {
  }

  lemma NoneContaining(items: seq<MenuItem>, x: real, y: real)
    requires forall j :: 0 <= j < |items| ==> !RectContains(items[j].rect, x, y)
    ensures FirstContaining(items, x, y) == -1
  {
  }

  /** The keys `cMenuCore::Key_Down` reacts to here. */
  datatype MenuKey = ArrowDown | ArrowUp | OtherKey

  /** `cMenuCore`: the menu holding the handler. */
  class MenuCore {
    const handler: MenuHandler

    constructor(handler: MenuHandler)
      ensures this.handler == handler
    {
      this.handler := handler;
    }

    /** `Key_Down`, its Down and Up branches: the selection moves to the
        next or previous entry, wrapping round at both ends. */
    method KeyDown(key: MenuKey) returns (notified: bool)
      requires handler.Valid()
      modifies handler`active
      ensures handler.Valid()
      ensures key == ArrowDown && handler.items != [] ==>
                handler.active == NextActive(old(handler.active), |handler.items|)
      ensures key == ArrowUp && handler.items != [] ==>
                handler.active == PreviousActive(old(handler.active), |handler.items|)
      ensures key == OtherKey || handler.items == [] ==> handler.active == old(handler.active)
    {
      notified := false;
      if key == ArrowDown {
        notified := handler.SetActive(NextActive(handler.active, handler.Size()));
      } else if key == ArrowUp {
        notified := handler.SetActive(PreviousActive(handler.active, handler.Size()));
      }
    }
  }
}
