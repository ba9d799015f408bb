/** The selection arithmetic of the menus (tsc/src/gui/menu_data.cpp): the
    start menu's list box keys, its type-to-search buffer and its tab keys
    (`cMenu_Start`), the highlighted entry and the save description of the
    savegame menu (`cMenu_Savegames`), and the colour depth option of the
    options menu (`cMenu_Options`). The list boxes, combo boxes and tab
    controls are CEGUI widgets; only the index they are given is modelled. */
module MenuData {
  import opened Common
  import opened GameTypes

  // ------------------------------------------------------------ list boxes

  /** The keys `Listbox_Keydown` handles. */
  datatype ListKey = ListDown | ListUp | ListPageDown | ListPageUp | ListHome | ListEnd

  /** The index a key aims at before the ends are handled: one step, ten
      for a page, the first or the last entry. */
  function ListTarget(key: ListKey, last: int, count: nat): int
  {
    match key
    case ListDown => last + 1
    case ListUp => last - 1
    case ListPageDown => last + 10
    case ListPageUp => last - 10
    case ListHome => 0
    case ListEnd => count - 1
  }

  /** The entry `Listbox_Keydown` selects. `selected` is the selected
      entry (`None`: nothing selected, taken as entry 0). Going past the
      end wraps to the first entry only from the last one and stops at the
      last otherwise; going before the start wraps to the last entry only
      from the first one and stops at the first otherwise. An empty list
      yields -1, which is handed on to the widget. */
  function ListboxSelection(key: ListKey, selected: Option<nat>, count: nat): (r: int)
    requires selected.Some? ==> selected.value < count
    ensures count > 0 ==> 0 <= r < count
    ensures count == 0 ==> r == -1
  {
    var last := if selected.Some? then selected.value as int else 0;
    var target := ListTarget(key, last, count);
    if target >= count then (if last == count - 1 then 0 else count - 1)
    else if target < 0 then (if last == 0 then count - 1 else 0)
    else target
  }

  /** Down and Up step through the list and wrap round at its ends. */
  lemma ListboxStepsAndWraps(i: nat, count: nat)
    requires i < count
    ensures ListboxSelection(ListDown, Some(i), count) == if i == count - 1 then 0 else i + 1
    ensures ListboxSelection(ListUp, Some(i), count) == if i == 0 then count - 1 else i - 1
  {
  }

  /** Up undoes Down and Down undoes Up. */
  lemma ListboxUpDownInverse(i: nat, count: nat)
    requires i < count
    ensures ListboxSelection(ListUp, Some(ListboxSelection(ListDown, Some(i), count) as nat), count) == i
    ensures ListboxSelection(ListDown, Some(ListboxSelection(ListUp, Some(i), count) as nat), count) == i
  {
    ListboxStepsAndWraps(i, count);
    var d := ListboxSelection(ListDown, Some(i), count);
    var u := ListboxSelection(ListUp, Some(i), count);
    ListboxStepsAndWraps(d, count);
    ListboxStepsAndWraps(u, count);
  }

  /** A page moves ten entries, stopping at the far end unless it started
      there, in which case it wraps. */
  lemma ListboxPages(i: nat, count: nat)
    requires i < count
    ensures ListboxSelection(ListPageDown, Some(i), count) ==
              if i + 10 < count then i + 10 else if i == count - 1 then 0 else count - 1
    ensures ListboxSelection(ListPageUp, Some(i), count) ==
              if i >= 10 then i - 10 else if i == 0 then count - 1 else 0
  {
  }

  /** `substr(0, n).compare(buffer) == 0`: the text begins with the
      buffer. */
  predicate BeginsWith(text: String, buffer: String)
  {
    |buffer| <= |text| && text[..|buffer|] == buffer
  }

  /** The first entry whose text begins with the buffer. */
  function FirstMatch(texts: seq<String>, buffer: String): (r: Option<nat>)
    ensures r.Some? ==> r.value < |texts| && BeginsWith(texts[r.value], buffer)
    ensures r.Some? ==> forall j :: 0 <= j < r.value ==> !BeginsWith(texts[j], buffer)
    ensures r.None? ==> forall j :: 0 <= j < |texts| ==> !BeginsWith(texts[j], buffer)
  {
    if texts == [] then None
    else if BeginsWith(texts[0], buffer) then Some(0)
    else
      var r := FirstMatch(texts[1..], buffer);
      assert forall j :: 1 <= j < |texts| ==> texts[j] == texts[1..][j - 1];
      if r.None? then None else Some(r.value + 1)
  }

  /** A list box: the entry texts and the selected entry. */
  class Listbox {
    var texts: seq<String>
    var selected: Option<nat>

    predicate Valid()
      reads this
    {
      selected.Some? ==> selected.value < |texts|
    }

    constructor(texts: seq<String>)
      ensures this.texts == texts && selected == None && Valid()
    {
      this.texts := texts;
      selected := None;
    }
  }

  /** The search buffer is given this many frames (`speedfactor_fps`). */
  const SearchTime: real := SpeedfactorFps as real

  /** The search buffer after `Update`: its countdown runs down by the speed
      factor and the buffer is dropped when it reaches 0. */
  function SearchBufferAfter(buffer: String, counter: real, sf: real): (r: (String, real))
    ensures counter <= 0.0 ==> r == (buffer, counter)
    ensures counter > 0.0 && counter - sf <= 0.0 ==> r == ([], 0.0)
    ensures counter > 0.0 && counter - sf > 0.0 ==> r == (buffer, counter - sf)
  {
    if counter > 0.0 then
      (if counter - sf <= 0.0 then ([], 0.0) else (buffer, counter - sf))
    else (buffer, counter)
  }

  /** With a positive speed factor a buffer is dropped after at most
      `n + 1` updates when its countdown is no more than `n` frames. */
  lemma {:induction false} SearchBufferExpires(buffer: String, counter: real, sf: real, n: nat)
    requires sf > 0.0 && counter <= n as real * sf
    ensures SearchBufferAfterFrames(buffer, counter, sf, n + 1).1 <= 0.0
    ensures counter > 0.0 ==> SearchBufferAfterFrames(buffer, counter, sf, n + 1).0 == []
    decreases n
  {
    var next := SearchBufferAfter(buffer, counter, sf);
    if counter <= 0.0 {
      SearchBufferIdle(buffer, counter, sf, n);
    } else if counter - sf <= 0.0 {
      SearchBufferIdle([], 0.0, sf, n);
    } else {
      assert n > 0;
      SearchBufferExpires(next.0, next.1, sf, n - 1);
    }
  }

  /** `n` updates in a row. */
  function SearchBufferAfterFrames(buffer: String, counter: real, sf: real, n: nat): (String, real)
    decreases n
  {
    if n == 0 then (buffer, counter)
    else
      var next := SearchBufferAfter(buffer, counter, sf);
      SearchBufferAfterFrames(next.0, next.1, sf, n - 1)
  }

  /** A run-out countdown leaves the buffer alone. */
  lemma {:induction false} SearchBufferIdle(buffer: String, counter: real, sf: real, n: nat)
    requires counter <= 0.0
    ensures SearchBufferAfterFrames(buffer, counter, sf, n) == (buffer, counter)
    decreases n
  {
    if n > 0 {
      SearchBufferIdle(buffer, counter, sf, n - 1);
    }
  }

  // ------------------------------------------------------------------ tabs

  /** The keys `TabControl_Keydown` handles. */
  datatype TabKey = TabLeft | TabRight | TabShiftTab

  /** The tab selected after a key: left and right stop at the first and
      the last tab; Shift-Tab goes on and wraps from the last to the
      first. */
  function TabAfter(key: TabKey, index: nat, count: nat): (r: nat)
    requires index < count
    ensures r < count
    ensures key == TabLeft ==> r == if index == 0 then 0 else index - 1
    ensures key == TabRight ==> r == if index == count - 1 then index else index + 1
    ensures key == TabShiftTab ==> r == if index == count - 1 then 0 else index + 1
  {
    match key
    case TabLeft => if index != 0 then index - 1 else index
    case TabRight => if index + 1 != count then index + 1 else index
    case TabShiftTab => if index + 1 == count then 0 else index + 1
  }

  /** Left undoes Right away from the last tab, and Right undoes Left
      away from the first; Shift-Tab from the last tab is the first. */
  lemma TabLeftRightInverse(index: nat, count: nat)
    requires index < count
    ensures index < count - 1 ==> TabAfter(TabLeft, TabAfter(TabRight, index, count), count) == index
    ensures index > 0 ==> TabAfter(TabRight, TabAfter(TabLeft, index, count), count) == index
    ensures TabAfter(TabShiftTab, count - 1, count) == 0
  {
  }

  // ----------------------------------------------------------- start menu

  /** `cMenu_Start`: the type-to-search buffer and the selected tab. */
  class StartMenu {
    var searchBuffer: String
    var searchCounter: real
    var tabIndex: nat
    var tabCount: nat

    predicate Valid()
      reads this
    {
      tabIndex < tabCount
    }

    constructor(tabCount: nat)
      requires tabCount > 0
      ensures searchBuffer == [] && searchCounter == 0.0
      ensures tabIndex == 0 && this.tabCount == tabCount && Valid()
    {
      searchBuffer := [];
      searchCounter := 0.0;
      tabIndex := 0;
      this.tabCount := tabCount;
    }

    /** The search buffer part of `Update`. */
    method UpdateSearchBuffer(sf: real)
      modifies this`searchBuffer, this`searchCounter
      ensures (searchBuffer, searchCounter) == SearchBufferAfter(old(searchBuffer), old(searchCounter), sf)
    {
      if searchCounter > 0.0 {
        searchCounter := searchCounter - sf;
        if searchCounter <= 0.0 {
          searchCounter := 0.0;
          searchBuffer := [];
        }
      }
    }

    /** `Listbox_Keydown`. */
    method ListboxKeyDown(list: Listbox, key: ListKey)
      requires list.Valid()
      modifies list`selected
      ensures var r := ListboxSelection(key, old(list.selected), |list.texts|);
        r >= 0 ==> list.selected == Some(r as nat)
      ensures |list.texts| == 0 ==> list.selected == old(list.selected)
      ensures |list.texts| > 0 ==> list.Valid()
    {
      var r := ListboxSelection(key, list.selected, |list.texts|);
      if r >= 0 {
        list.selected := Some(r as nat);
      }
    }

    /** `Listbox_Character_Key`: a character the font can show restarts
        the countdown, joins the buffer, and selects the first entry that
        begins with the buffer; with no such entry the selection stays. */
    method ListboxCharacterKey(list: Listbox, c: char, available: bool)
      modifies this`searchBuffer, this`searchCounter, list`selected
      ensures !available ==> searchBuffer == old(searchBuffer) && searchCounter == old(searchCounter) &&
                             list.selected == old(list.selected)
      ensures available ==> searchBuffer == old(searchBuffer) + [c] && searchCounter == SearchTime
      ensures available ==> var m := FirstMatch(list.texts, searchBuffer);
        (m.Some? ==> list.selected == m) && (m.None? ==> list.selected == old(list.selected))
      ensures old(list.Valid()) ==> list.Valid()
    {
      if !available {
        return;
      }
      searchCounter := SearchTime;
      searchBuffer := searchBuffer + [c];
      var index := 0;
      var found: Option<nat> := None;
      while index < |list.texts|
        invariant 0 <= index <= |list.texts|
        invariant found.None? ==> forall j :: 0 <= j < index ==> !BeginsWith(list.texts[j], searchBuffer)
        invariant found.Some? ==> found == FirstMatch(list.texts, searchBuffer)
        decreases |list.texts| - index, found.None?
      {
        if BeginsWith(list.texts[index], searchBuffer) {
          found := Some(index);
          FirstMatchIsFirst(list.texts, searchBuffer, index);
          break;
        }
        index := index + 1;
      }
      if found.Some? {
        list.selected := found;
      } else {
        NoMatch(list.texts, searchBuffer);
      }
    }

    /** `TabControl_Keydown`, its Left, Right and Shift-Tab branches. */
    method TabKeyDown(key: TabKey)
      requires Valid()
      modifies this`tabIndex
      ensures tabIndex == TabAfter(key, old(tabIndex), tabCount) && Valid()
    {
      tabIndex := TabAfter(key, tabIndex, tabCount);
    }
  }

  lemma FirstMatchIsFirst(texts: seq<String>, buffer: String, i: nat)
    requires i < |texts| && BeginsWith(texts[i], buffer)
    requires forall j :: 0 <= j < i ==> !BeginsWith(texts[j], buffer)
    ensures FirstMatch(texts, buffer) == Some(i)
  {
  }

  lemma NoMatch(texts: seq<String>, buffer: String)
    requires forall j :: 0 <= j < |texts| ==> !BeginsWith(texts[j], buffer)
    ensures FirstMatch(texts, buffer) == None
  {
  }

  // ------------------------------------------------------- savegame menu

  /** `NUM_SAVEGAME_SLOTS`. */
  const SavegameSlots: nat := 9

  /** The text the savegame menu highlights. */
  datatype CurrentItem = NoItem | SlotText(slot: nat) | BackText

  /** `Selected_Item_Changed`: the slot text of an entry below 9, the back
      text for the back entry, nothing otherwise. */
  function HighlightedItem(newActive: int, backIndex: int): (r: CurrentItem)
    ensures 0 <= newActive < SavegameSlots as int <==> r.SlotText?
    ensures r.SlotText? ==> r.slot == newActive
    ensures r == BackText <==> newActive == backIndex && newActive >= SavegameSlots as int
    ensures r.SlotText? ==> r.slot < SavegameSlots
  {
    if newActive < 0 then NoItem
    else if newActive < SavegameSlots as int then SlotText(newActive as nat)
    else if newActive == backIndex then BackText
    else NoItem
  }

  /** What `Set_Save_Description` leads to. */
  datatype SaveDescription =
    | NoSave                                    // slot out of range: ""
    | NotEnoughPoints                           // a level is loaded and points < 3000
    | AskUser(proposal: String, autoErase: bool)  // the text input box

  /** Points a save inside a level costs. */
  const SaveCost: int := 3000

  /** `Set_Save_Description` (a release build): slot 0 and slots above 9
      are refused; in a level fewer than 3000 points are refused; otherwise
      the user is asked, starting from the slot's description when the slot
      holds a valid savegame (a description that cannot be read gives "No
      Description"), or from "No Description", erased on the first key,
      for an empty slot. `stored` is that description, `None` when reading
      it fails. */
  function SetSaveDescription(slot: nat, levelLoaded: bool, points: int, slotValid: bool,
                              stored: Option<String>): (r: SaveDescription)
    ensures slot == 0 || slot > SavegameSlots <==> r == NoSave
    ensures r == NotEnoughPoints <==> 1 <= slot <= SavegameSlots && levelLoaded && points < SaveCost
    ensures r.AskUser? ==> (r.autoErase <==> !slotValid)
    ensures r.AskUser? && slotValid && stored.Some? ==> r.proposal == stored.value
    ensures r.AskUser? && !(slotValid && stored.Some?) ==> r.proposal == "No Description"
  {
    if slot == 0 || slot > SavegameSlots then NoSave
    else if levelLoaded && points < SaveCost then NotEnoughPoints
    else if slotValid then AskUser(if stored.Some? then stored.value else "No Description", false)
    else AskUser("No Description", true)
  }

  /** The menu's entries are the slots 1 to 9: the description asked for
      the active entry `Update_Save` passes (active + 1) is never refused
      for its slot number when a slot entry is active. */
  lemma SlotEntriesAccepted(active: int, levelLoaded: bool, points: int, slotValid: bool, stored: Option<String>)
    requires HighlightedItem(active, -1).SlotText?
    ensures SetSaveDescription(active as nat + 1, levelLoaded, points, slotValid, stored) != NoSave
  {
  }

  /** `cMenu_Savegames`: the highlighted text. */
  class SavegamesMenu {
    var currentItem: CurrentItem
    const backItemIndex: int

    constructor(backItemIndex: int)
      ensures currentItem == NoItem && this.backItemIndex == backItemIndex
    {
      currentItem := NoItem;
      this.backItemIndex := backItemIndex;
    }

    /** `Selected_Item_Changed`. */
    method SelectedItemChanged(newActive: int)
      modifies this`currentItem
      ensures currentItem == HighlightedItem(newActive, backItemIndex)
    {
      currentItem := NoItem;
      if newActive < 0 {
        return;
      }
      if newActive < SavegameSlots as int {
        currentItem := SlotText(newActive as nat);
      } else if newActive == backItemIndex {
        currentItem := BackText;
      }
    }
  }

  // ---------------------------------------------------------- options menu

  /** The colour depth entry: 16 and 32 bits swap, anything else stays. */
  function ToggledBpp(bpp: nat): (r: nat)
    ensures bpp == 16 ==> r == 32
    ensures bpp == 32 ==> r == 16
    ensures bpp != 16 && bpp != 32 ==> r == bpp
  {
    if bpp == 16 then 32 else if bpp == 32 then 16 else bpp
  }

  /** Toggling twice gives back the depth. */
  lemma ToggledBppTwice(bpp: nat)
    ensures ToggledBpp(ToggledBpp(bpp)) == bpp
  {
  }

  /** `cMenu_Options`: the colour depth chosen. */
  class OptionsMenu {
    var vidBpp: nat

    constructor(bpp: nat)
      ensures vidBpp == bpp
    {
      vidBpp := bpp;
    }

    /** Activating the colour depth entry (entry 6 of the video tab). */
    method ToggleBpp()
      modifies this
      ensures vidBpp == ToggledBpp(old(vidBpp))
    {
      if vidBpp == 16 {
        vidBpp := 32;
      } else if vidBpp == 32 {
        vidBpp := 16;
      }
    }
  }
}
