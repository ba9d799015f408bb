/** The counters of the head-up display (tsc/src/gui/hud.cpp): the points
    with their floating mini texts (`cPlayerPoints`), the gold pieces that
    roll over into lives (`cGoldDisplay`), the lives (`cLiveDisplay`), the
    level clock (`cTimeDisplay`), the debug message countdown
    (`cDebugDisplay`) and the item box (`cItemBox`). The counters
    themselves live on the level player; `LevelPlayer` holds the part of it
    the HUD writes. Fonts, sounds, the Gold_100 script event and all drawing
    are not part of this model; the comparison of a position with 0 is the
    engine's float comparison, passed in as `floatEqual`. */
module Hud {
  import opened Common
  import opened GameTypes
  import opened PropertyHelper

  /** The part of `cLevel_Player` the HUD reads and writes. */
  class LevelPlayer {
    var points: int
    var gold: int
    var lives: int
    var killMultiplier: real

    constructor(points: int, gold: int, lives: int, killMultiplier: real)
      ensures this.points == points && this.gold == gold && this.lives == lives
      ensures this.killMultiplier == killMultiplier
    {
      this.points := points;
      this.gold := gold;
      this.lives := lives;
      this.killMultiplier := killMultiplier;
    }
  }

  // ---------------------------------------------------------------- points

  /** A small points text floating where points were earned. */
  datatype MiniText = MiniText(text: String, x: real, y: real)

  /** `Add_Points` adds no mini text once more than this many exist. */
  const MiniTextLimit: nat := 50

  /** The points `Add_Points` credits: with the multiplier allowed, the kill
      multiplier times the points, cut to a whole number. */
  function ScaledPoints(points: nat, multiplier: real, allowMultiplier: bool): (r: int)
    ensures !allowMultiplier ==> r == points
    ensures allowMultiplier && multiplier >= 0.0 ==>
              0 <= r && r as real <= multiplier * points as real < r as real + 1.0
    ensures allowMultiplier && multiplier >= 1.0 ==> r >= points
  {
    if allowMultiplier then Truncate(multiplier * points as real) else points
  }

  /** The mini text list after `Add_Points` asks for `t`: nothing is added
      at x or y equal to 0, or when more than `MiniTextLimit` texts exist. */
  function WithMiniText(texts: seq<MiniText>, t: MiniText, floatEqual: (real, real) -> bool): (r: seq<MiniText>)
  {
    if floatEqual(t.x, 0.0) || floatEqual(t.y, 0.0) || |texts| > MiniTextLimit then texts
    else texts + [t]
  }

  /** A list that respects the limit still does after `Add_Points`: it
      never holds more than one text above the limit, and a text is added
      exactly when the position is off both axes and the limit not passed. */
  lemma MiniTextsBounded(texts: seq<MiniText>, t: MiniText, floatEqual: (real, real) -> bool)
    requires |texts| <= MiniTextLimit + 1
    ensures var r := WithMiniText(texts, t, floatEqual);
      |r| <= MiniTextLimit + 1 &&
      (r == texts + [t] <==> !floatEqual(t.x, 0.0) && !floatEqual(t.y, 0.0) && |texts| <= MiniTextLimit) &&
      (r != texts + [t] ==> r == texts)
  {
  }

  /** The mini texts left by `Draw`, which erases the finished ones and
      keeps the others in order. */
  function Unfinished(texts: seq<MiniText>, finished: MiniText -> bool): (r: seq<MiniText>)
    ensures |r| <= |texts|
    ensures forall t :: t in r <==> t in texts && !finished(t)
  {
    if texts == [] then []
    else if finished(texts[0]) then Unfinished(texts[1..], finished)
    else [texts[0]] + Unfinished(texts[1..], finished)
  }

  /** One pass of erasing is enough: erasing again removes nothing. */
  lemma {:induction false} UnfinishedIdempotent(texts: seq<MiniText>, finished: MiniText -> bool)
    ensures Unfinished(Unfinished(texts, finished), finished) == Unfinished(texts, finished)
    decreases |texts|
  {
    if texts != [] {
      UnfinishedIdempotent(texts[1..], finished);
      if !finished(texts[0]) {
        assert ([texts[0]] + Unfinished(texts[1..], finished))[1..] == Unfinished(texts[1..], finished);
      }
    }
  }

  /** `cPlayerPoints`: the floating mini texts. */
  class PlayerPoints {
    var miniTexts: seq<MiniText>

    predicate Valid()
      reads this
    {
      |miniTexts| <= MiniTextLimit + 1
    }

    constructor()
      ensures miniTexts == [] && Valid()
    {
      miniTexts := [];
    }

    /** `Set_Points`: stores the player's points. */
    method SetPoints(player: LevelPlayer, points: int)
      modifies player`points
      ensures player.points == points
    {
      player.points := points;
    }

    /** `Add_Points`: credits the (possibly multiplied) points and adds a
        mini text showing `text`, or the points when `text` is empty. */
    method AddPoints(player: LevelPlayer, points: nat, x: real, y: real, text: String,
                     allowMultiplier: bool, floatEqual: (real, real) -> bool)
      modifies player`points, this
      ensures var credited := ScaledPoints(points, player.killMultiplier, allowMultiplier);
        player.points == old(player.points) + credited &&
        miniTexts == WithMiniText(old(miniTexts),
                                  MiniText(if text == [] then IntToString(credited) else text, x, y),
                                  floatEqual)
      ensures old(Valid()) ==> Valid()
    {
      var credited := ScaledPoints(points, player.killMultiplier, allowMultiplier);
      SetPoints(player, player.points + credited);
      if floatEqual(x, 0.0) || floatEqual(y, 0.0) || |miniTexts| > MiniTextLimit {
        return;
      }
      var shown := if text == [] then IntToString(credited) else text;
      miniTexts := miniTexts + [MiniText(shown, x, y)];
    }

    /** The erasing part of `Draw`: a loop over the texts that drops the
        finished ones. */
    method DropFinished(finished: MiniText -> bool)
      modifies this
      ensures miniTexts == Unfinished(old(miniTexts), finished)
      ensures old(Valid()) ==> Valid()
    {
      var kept: seq<MiniText> := [];
      var i := 0;
      while i < |miniTexts|
        invariant 0 <= i <= |miniTexts|
        invariant kept + Unfinished(miniTexts[i..], finished) == Unfinished(miniTexts, finished)
      {
        if !finished(miniTexts[i]) {
          kept := kept + [miniTexts[i]];
        }
        assert miniTexts[i..][1..] == miniTexts[i + 1..];
        i := i + 1;
      }
      assert miniTexts[i..] == [];
      miniTexts := kept;
    }
  }

  // ----------------------------------------------------------------- lives

  /** The text `cLiveDisplay` shows for a number of lives. */
  function LivesText(lives: nat, mode: GameMode): String
  {
    if mode != ModeOverworld then IntToString(lives) + "x" else "Lives : " + IntToString(lives)
  }

  /** `cLiveDisplay`. */
  class LiveDisplay {
    var text: String

    constructor()
      ensures text == []
    {
      text := [];
    }

    /** `Set_Lives`: stores the lives, even a negative number; only a
        number that is not negative is shown. */
    method SetLives(player: LevelPlayer, lives: int, mode: GameMode)
      modifies player`lives, this
      ensures player.lives == lives
      ensures lives < 0 ==> text == old(text)
      ensures lives >= 0 ==> text == LivesText(lives, mode)
    {
      player.lives := lives;
      if lives < 0 {
        return;
      }
      text := LivesText(lives, mode);
    }

    /** `Add_Lives`. */
    method AddLives(player: LevelPlayer, lives: int, mode: GameMode)
      modifies player`lives, this
      ensures player.lives == old(player.lives) + lives
      ensures player.lives < 0 ==> text == old(text)
      ensures player.lives >= 0 ==> text == LivesText(player.lives, mode)
    {
      SetLives(player, player.lives + lives, mode);
    }
  }

  // ------------------------------------------------------------------ gold

  /** How many pieces a gold count above 100 keeps: the remainder. A count
      below 100, negative ones included, is kept as it is. */
  function GoldKept(gold: int): int
  {
    if gold >= 100 then gold % 100 else gold
  }

  /** The lives a gold count turns into: one per full hundred. */
  function LivesGained(gold: int): nat
  {
    if gold >= 100 then gold / 100 else 0
  }

  /** The rollover loses nothing: the kept pieces plus a hundred per life
      gained make the count, the kept pieces stay below 100, and a count
      that is not negative keeps a count that is not negative. */
  lemma GoldRollover(gold: int)
    ensures GoldKept(gold) + 100 * LivesGained(gold) == gold
    ensures GoldKept(gold) < 100
    ensures gold >= 0 ==> 0 <= GoldKept(gold)
    ensures gold >= 0 ==> GoldKept(gold) == gold % 100 && LivesGained(gold) == gold / 100
  {
  }

  /** The mini texts `Set_Gold` asks for: one "1UP" per life gained. */
  function OneUpTexts(texts: seq<MiniText>, n: nat, x: real, y: real, floatEqual: (real, real) -> bool): (r: seq<MiniText>)
    ensures |texts| <= |r| <= |texts| + n
    ensures |texts| <= MiniTextLimit + 1 ==> |r| <= MiniTextLimit + 1
    ensures r[..|texts|] == texts
    ensures forall i :: |texts| <= i < |r| ==> r[i] == MiniText("1UP", x, y)
  {
    if n == 0 then texts
    else
      var before := OneUpTexts(texts, n - 1, x, y, floatEqual);
      var r := WithMiniText(before, MiniText("1UP", x, y), floatEqual);
      assert r[..|before|] == before;
      r
  }

  /** `cGoldDisplay`. */
  class GoldDisplay {
    constructor()
    {
    }

    /** `Set_Gold`: every full hundred is taken off, one at a time, each
        giving a life and a "1UP" mini text at (x, y); the rest is
        stored. */
    method SetGold(player: LevelPlayer, livesHud: LiveDisplay, pointsHud: PlayerPoints,
                   gold: int, x: real, y: real, mode: GameMode, floatEqual: (real, real) -> bool)
      modifies player`gold, player`lives, player`points, livesHud, pointsHud
      ensures player.gold == GoldKept(gold)
      ensures player.lives == old(player.lives) + LivesGained(gold)
      ensures player.points == old(player.points)
      ensures pointsHud.miniTexts == OneUpTexts(old(pointsHud.miniTexts), LivesGained(gold), x, y, floatEqual)
      ensures 100 * player.lives + player.gold == 100 * old(player.lives) + gold
    {
      var rest := gold;
      ghost var ups: nat := 0;
      while rest >= 100
        invariant rest == gold - 100 * ups
        invariant gold >= 100 ==> rest >= 0
        invariant gold < 100 ==> ups == 0
        invariant player.lives == old(player.lives) + ups
        invariant player.points == old(player.points)
        invariant pointsHud.miniTexts == OneUpTexts(old(pointsHud.miniTexts), ups, x, y, floatEqual)
      {
        rest := rest - 100;
        livesHud.AddLives(player, 1, mode);
        pointsHud.AddPoints(player, 0, x, y, "1UP", false, floatEqual);
        ups := ups + 1;
      }
      RolloverUnique(gold, ups, rest);
      player.gold := rest;
    }

    /** `Add_Gold`: `Set_Gold` of the current count plus the new pieces. */
    method AddGold(player: LevelPlayer, livesHud: LiveDisplay, pointsHud: PlayerPoints,
                   gold: int, x: real, y: real, mode: GameMode, floatEqual: (real, real) -> bool)
      modifies player`gold, player`lives, player`points, livesHud, pointsHud
      ensures player.gold == GoldKept(old(player.gold) + gold)
      ensures player.lives == old(player.lives) + LivesGained(old(player.gold) + gold)
      ensures 100 * player.lives + player.gold == 100 * old(player.lives) + old(player.gold) + gold
    {
      SetGold(player, livesHud, pointsHud, player.gold + gold, x, y, mode, floatEqual);
    }
  }

  /** What the loop of `Set_Gold` ends with is the rollover. */
  lemma RolloverUnique(gold: int, ups: nat, rest: int)
    requires rest == gold - 100 * ups && rest < 100
    requires gold >= 100 ==> rest >= 0
    requires gold < 100 ==> ups == 0
    ensures rest == GoldKept(gold) && ups == LivesGained(gold)
  {
  }

  // ----------------------------------------------------------------- clock

  /** What the clock shows: "Time" after a reset, minutes and seconds
      after the first update. */
  datatype Clock = ClockBlank | ClockShown(minutes: nat, seconds: nat)

  /** `m_milliseconds` is a 32-bit unsigned count. */
  const TicksModulus: nat := 0x1_0000_0000

  /** The clock for a millisecond count: whole minutes and the seconds
      left over. */
  function ClockOf(ms: nat): (c: Clock)
    ensures c.ClockShown?
    ensures c.seconds < 60
    ensures c.minutes * 60 + c.seconds == ms / 1000
  {
    var seconds := ms / 1000;
    ClockShown(seconds / 60, seconds % 60)
  }

  /** The clock never runs backwards: more milliseconds show a later or
      equal time, read as minutes, then seconds. */
  lemma ClockMonotone(a: nat, b: nat)
    requires a <= b
    ensures ClockOf(a).minutes < ClockOf(b).minutes ||
            (ClockOf(a).minutes == ClockOf(b).minutes && ClockOf(a).seconds <= ClockOf(b).seconds)
  {
  }

  /** `cTimeDisplay`. */
  class TimeDisplay {
    var milliseconds: nat
    var lastUpdateSeconds: nat
    var clock: Clock

    predicate Valid()
      reads this
    {
      milliseconds < TicksModulus
    }

    constructor()
      ensures milliseconds == 0 && lastUpdateSeconds == 1000 && clock == ClockBlank && Valid()
    {
      milliseconds := 0;
      lastUpdateSeconds := 1000;
      clock := ClockBlank;
    }

    /** `Reset`: "Time" with no digits, and a remembered second that no
        first update (under 1000 seconds) can match. */
    method Reset()
      modifies this
      ensures milliseconds == 0 && lastUpdateSeconds == 1000 && clock == ClockBlank && Valid()
    {
      clock := ClockBlank;
      lastUpdateSeconds := 1000;
      milliseconds := 0;
    }

    /** `Update`: outside the editor, the world map and the menu, adds the
        elapsed ticks (modulo 2^32), and shows the new time exactly when the
        whole seconds changed. */
    method Update(elapsed: nat, mode: GameMode, editorEnabled: bool) returns (shown: bool)
      requires Valid()
      modifies this
      ensures Valid()
      ensures editorEnabled || mode == ModeOverworld || mode == ModeMenu ==>
                !shown && milliseconds == old(milliseconds)
      ensures !(editorEnabled || mode == ModeOverworld || mode == ModeMenu) ==>
                milliseconds == (old(milliseconds) + elapsed) % TicksModulus
      ensures shown <==> !(editorEnabled || mode == ModeOverworld || mode == ModeMenu) &&
                         milliseconds != 0 && milliseconds / 1000 != old(lastUpdateSeconds)
      ensures shown ==> clock == ClockOf(milliseconds) && lastUpdateSeconds == milliseconds / 1000
      ensures !shown ==> clock == old(clock) && lastUpdateSeconds == old(lastUpdateSeconds)
    {
      shown := false;
      if editorEnabled || mode == ModeOverworld || mode == ModeMenu {
        return;
      }
      milliseconds := (milliseconds + elapsed) % TicksModulus;
      if milliseconds == 0 {
        return;
      }
      var seconds := milliseconds / 1000;
      if seconds == lastUpdateSeconds {
        return;
      }
      lastUpdateSeconds := seconds;
      var minutes := seconds / 60;
      clock := ClockShown(minutes, seconds - minutes * 60);
      shown := true;
    }

    /** `Set_Time`: stores the count, then runs `Update`, which adds this
        frame's elapsed ticks on top. */
    method SetTime(ms: nat, elapsed: nat, mode: GameMode, editorEnabled: bool)
      requires ms < TicksModulus
      modifies this
      ensures Valid()
      ensures !(editorEnabled || mode == ModeOverworld || mode == ModeMenu) ==>
                milliseconds == (ms + elapsed) % TicksModulus
      ensures editorEnabled || mode == ModeOverworld || mode == ModeMenu ==> milliseconds == ms
    {
      milliseconds := ms;
      var _ := Update(elapsed, mode, editorEnabled);
    }
  }

  // ----------------------------------------------------------------- debug

  /** The debug message: the text, the text last put on screen and the
      countdown. */
  datatype DebugState = DebugState(text: String, textOld: String, counter: real)

  /** `Set_Text`: a message starts the countdown at `displayTime`; an empty
      one brings the shown text back with the countdown at 0, so that the
      next update clears it. */
  function DebugSetText(d: DebugState, text: String, displayTime: real): (r: DebugState)
    ensures text != [] ==> r.text == text && r.counter == displayTime && r.textOld == d.textOld
    ensures text == [] ==> r.text == d.textOld && r.textOld == [] && r.counter == 0.0
  {
    if text == [] then DebugState(d.textOld, [], 0.0) else DebugState(text, d.textOld, displayTime)
  }

  /** `Update`: no text, nothing to do; a run-out countdown clears both
      texts; otherwise the countdown goes down by the speed factor and the
      text counts as shown. */
  function DebugUpdate(d: DebugState, sf: real): (r: DebugState)
    ensures d.text == [] ==> r == d
    ensures d.text != [] && d.counter <= 0.0 ==> r.text == [] && r.textOld == []
    ensures d.text != [] && d.counter > 0.0 ==>
              r.text == d.text && r.textOld == d.text && r.counter == d.counter - sf
  {
    if d.text == [] then d
    else if d.counter <= 0.0 then DebugState([], [], d.counter)
    else DebugState(d.text, d.text, d.counter - sf)
  }

  /** `n` updates in a row. */
  function DebugAfter(d: DebugState, sf: real, n: nat): DebugState
    decreases n
  {
    if n == 0 then d else DebugAfter(DebugUpdate(d, sf), sf, n - 1)
  }

  /** A message disappears: with a positive speed factor, once `n` frames
      have taken the countdown to 0, one more clears the text. */
  lemma {:induction false} DebugClearsWithin(d: DebugState, sf: real, n: nat)
    requires sf > 0.0
    requires d.counter <= n as real * sf
    ensures DebugAfter(d, sf, n + 1).text == []
    decreases n
  {
    if d.text == [] {
      DebugStaysClear(d, sf, n + 1);
    } else if d.counter <= 0.0 {
      DebugStaysClear(DebugUpdate(d, sf), sf, n);
    } else {
      assert n > 0;
      DebugClearsWithin(DebugUpdate(d, sf), sf, n - 1);
    }
  }

  /** A cleared message stays cleared. */
  lemma {:induction false} DebugStaysClear(d: DebugState, sf: real, n: nat)
    requires d.text == []
    ensures DebugAfter(d, sf, n) == d
  {
    if n > 0 {
      DebugStaysClear(DebugUpdate(d, sf), sf, n - 1);
    }
  }

  /** Setting an empty text hides the message at the next update. */
  lemma EmptyTextHides(d: DebugState, displayTime: real, sf: real)
    ensures var r := DebugUpdate(DebugSetText(d, [], displayTime), sf);
      r.text == [] && r.textOld == []
  {
  }

  /** `cDebugDisplay`. */
  class DebugDisplay {
    var text: String
    var textOld: String
    var counter: real

    function State(): DebugState
      reads this
    {
      DebugState(text, textOld, counter)
    }

    constructor()
      ensures State() == DebugState([], [], 0.0)
    {
      text := [];
      textOld := [];
      counter := 0.0;
    }

    /** `Set_Text`. */
    method SetText(ntext: String, displayTime: real)
      modifies this
      ensures State() == DebugSetText(old(State()), ntext, displayTime)
    {
      text := ntext;
      if text == [] {
        text := textOld;
        textOld := [];
        counter := 0.0;
        return;
      }
      counter := displayTime;
    }

    /** `Update`, without the window placement. */
    method Update(sf: real)
      modifies this
      ensures State() == DebugUpdate(old(State()), sf)
    {
      if text == [] {
        return;
      }
      if counter <= 0.0 {
        text := [];
        textOld := [];
        return;
      }
      counter := counter - sf;
      if text != textOld {
        textOld := text;
      }
    }
  }

  // -------------------------------------------------------------- item box

  datatype Color = Color(red: int, green: int, blue: int)

  const White := Color(255, 255, 255)

  /** The box colour `Set_Item` gives each item it can hold. */
  function BoxColor(itemType: int): (c: Color)
    ensures itemType == TypeMushroomDefault ==> c == Color(250, 50, 50)
    ensures itemType == TypeFireplant ==> c == Color(250, 200, 150)
    ensures itemType == TypeMushroomBlue ==> c == Color(100, 100, 250)
    ensures itemType !in {TypeMushroomDefault, TypeFireplant, TypeMushroomBlue} ==> c == White
  {
    if itemType == TypeMushroomDefault then Color(250, 50, 50)
    else if itemType == TypeFireplant then Color(250, 200, 150)
    else if itemType == TypeMushroomBlue then Color(100, 100, 250)
    else White
  }

  /** The fading of a requested item: down by ten times the speed factor
      to 0, where it turns round at 1, then up to 90, where it turns
      round again. */
  function ItemFade(counter: real, rising: bool, sf: real): (r: (real, bool))
  {
    if rising then
      (if counter + sf * 10.0 >= 90.0 then (90.0, false) else (counter + sf * 10.0, true))
    else
      (if counter - sf * 10.0 <= 0.0 then (1.0, true) else (counter - sf * 10.0, false))
  }

  /** A fading item never stops fading and stays within the range of the
      request: the counter stays in (0, 255]. */
  lemma ItemFadeBounded(counter: real, rising: bool, sf: real)
    requires 0.0 < counter <= 255.0 && sf >= 0.0
    ensures 0.0 < ItemFade(counter, rising, sf).0 <= 255.0
    ensures ItemFade(counter, rising, sf).1 ==> ItemFade(counter, rising, sf).0 < 90.0
  {
  }

  /** `cItemBox`: the stored item and the fading of a requested one. */
  class ItemBox {
    var itemId: int
    var itemCounter: real
    var rising: bool
    var boxColor: Color

    predicate Valid()
      reads this
    {
      0.0 <= itemCounter <= 255.0
    }

    constructor()
      ensures itemId == TypeUndefined && itemCounter == 0.0 && !rising && boxColor == White && Valid()
    {
      itemId := TypeUndefined;
      itemCounter := 0.0;
      rising := false;
      boxColor := White;
    }

    /** `Reset`: no item, no fading, a white box. */
    method Reset()
      modifies this
      ensures itemId == TypeUndefined && itemCounter == 0.0 && !rising && boxColor == White && Valid()
    {
      itemId := TypeUndefined;
      itemCounter := 0.0;
      rising := false;
      boxColor := White;
    }

    /** `Set_Item`: the box holds the item, coloured for it. */
    method SetItem(itemType: int)
      modifies this
      ensures itemId == itemType && boxColor == BoxColor(itemType)
      ensures itemCounter == 0.0 && !rising && Valid()
    {
      Reset();
      boxColor := BoxColor(itemType);
      itemId := itemType;
    }

    /** `Request_Item`: releases the item, unless the box is empty or an
        item is already falling. */
    method RequestItem() returns (released: bool)
      modifies this
      ensures released <==> old(itemId) != TypeUndefined && old(itemCounter) == 0.0
      ensures released ==> itemCounter == 255.0
      ensures !released ==> itemCounter == old(itemCounter)
      ensures itemId == old(itemId) && rising == old(rising) && boxColor == old(boxColor)
      ensures old(Valid()) ==> Valid()
    {
      released := itemId != TypeUndefined && itemCounter == 0.0;
      if released {
        itemCounter := 255.0;
      }
    }

    /** `Push_back`: stops the fading. */
    method PushBack()
      modifies this
      ensures itemCounter == 0.0 && !rising
      ensures itemId == old(itemId) && boxColor == old(boxColor) && Valid()
    {
      itemCounter := 0.0;
      rising := false;
    }

    /** `Update`: a falling item fades; it is dropped once it leaves the
        camera's limits, and handed back (returned) when the player
        touches it. */
    method Update(sf: real, belowCamera: bool, touchesPlayer: bool) returns (givenBack: int)
      requires Valid() && sf >= 0.0
      modifies this
      ensures Valid()
      ensures old(itemCounter) == 0.0 ==> itemCounter == 0.0 && itemId == old(itemId) && givenBack == TypeUndefined
      ensures old(itemCounter) != 0.0 && !belowCamera && !touchesPlayer ==>
                (itemCounter, rising) == ItemFade(old(itemCounter), old(rising), sf) && itemId == old(itemId) &&
                givenBack == TypeUndefined
      ensures old(itemCounter) != 0.0 && (belowCamera || touchesPlayer) ==> itemId == TypeUndefined
      ensures old(itemCounter) != 0.0 && touchesPlayer && !belowCamera ==> givenBack == old(itemId)
    {
      givenBack := TypeUndefined;
      if itemCounter == 0.0 {
        return;
      }
      ItemFadeBounded(itemCounter, rising, sf);
      var fade := ItemFade(itemCounter, rising, sf);
      itemCounter, rising := fade.0, fade.1;
      if belowCamera {
        Reset();
      }
      if touchesPlayer {
        givenBack := itemId;
        Reset();
      }
    }
  }
}
