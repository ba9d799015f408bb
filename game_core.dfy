/** The game's action queue and mode switch, and the property helpers of
    tsc/src/core/game_core.cpp. The globals `Game_Mode`, `Game_Action`, its
    three attribute sets and its pointer are the fields of `Game`. What the
    handlers do (`Handle_Generic_Game_Events`, the player's downgrade, a
    level exit's activation, and each mode's `Enter`/`Leave`) is outside
    this model: `Game` records each call in `calls`, in order, and the next
    action the handlers of a round queue is given as a parameter. */
module GameCore {
  import opened Common
  import opened GameTypes
  import opened XmlAttributes

  // --------------------------------------------------------- game events

  /** An action waiting in the globals: the action, its start, middle and
      end data, and its object (the level exit; `None` is null). */
  datatype Pending = Pending(action: GameAction, dataStart: Attributes, dataMiddle: Attributes,
                             dataEnd: Attributes, target: Option<nat>)

  /** The cleared globals. */
  const NoAction := Pending(GaNone, map[], map[], map[], None)

  /** A handler call, with the game mode it sees. */
  datatype Call =
    | GenericEvents(data: Attributes)
    | DowngradePlayer(force: bool, ignoreInvincible: bool)
    | ActivateExit(target: Option<nat>)
    | LeaveMode(current: GameMode, next: GameMode)
    | EnterMode(previous: GameMode, current: GameMode)

  /** The mode a "full" event leads to. */
  function FullEventMode(a: GameAction): (m: GameMode)
  {
    match a
    case GaEnterLevel => ModeLevel
    case GaEnterWorld => ModeOverworld
    case GaEnterMenu => ModeMenu
    case GaEnterLevelSettings => ModeLevelSettings
    case _ => ModeNothing
  }

  /** The four enter actions lead to four different modes and every other
      action to no mode. */
  lemma FullEventModes(a: GameAction)
    ensures FullEventMode(a) != ModeNothing <==>
              a in {GaEnterLevel, GaEnterWorld, GaEnterMenu, GaEnterLevelSettings}
    ensures FullEventMode(a) == ModeLevel <==> a == GaEnterLevel
    ensures FullEventMode(a) == ModeOverworld <==> a == GaEnterWorld
    ensures FullEventMode(a) == ModeMenu <==> a == GaEnterMenu
    ensures FullEventMode(a) == ModeLevelSettings <==> a == GaEnterLevelSettings
  {
  }

  /** `Leave_Game_Mode` calls the leave handler of every mode but none. */
  function LeaveCalls(current: GameMode, next: GameMode): seq<Call>
  {
    if current == ModeNothing then [] else [LeaveMode(current, next)]
  }

  /** `Enter_Game_Mode` calls the enter handler of every mode but none,
      once `Game_Mode` is already the new one. */
  function EnterCalls(previous: GameMode, next: GameMode): seq<Call>
  {
    if next == ModeNothing then [] else [EnterMode(previous, next)]
  }

  /** Whether an action changes the mode. */
  predicate IsFullEvent(a: GameAction)
  {
    a != GaDowngradePlayer && a != GaActivateLevelExit
  }

  /** The calls one round of `Handle_Game_Events` makes for the action. */
  function RoundCalls(p: Pending, mode: GameMode): seq<Call>
  {
    if p.action == GaDowngradePlayer then
      [GenericEvents(p.dataStart),
       DowngradePlayer(FetchBool(p.dataMiddle, "downgrade_force", false),
                       FetchBool(p.dataMiddle, "downgrade_ignore_invincible", false)),
       GenericEvents(p.dataMiddle), GenericEvents(p.dataEnd)]
    else if p.action == GaActivateLevelExit then
      [GenericEvents(p.dataStart), ActivateExit(p.target), GenericEvents(p.dataMiddle), GenericEvents(p.dataEnd)]
    else
      var next := FullEventMode(p.action);
      [GenericEvents(p.dataStart)] + LeaveCalls(mode, next) + [GenericEvents(p.dataMiddle)] +
      EnterCalls(mode, next) + [GenericEvents(p.dataEnd)]
  }

  /** The mode after one round. */
  function RoundMode(p: Pending, mode: GameMode): GameMode
  {
    if IsFullEvent(p.action) then FullEventMode(p.action) else mode
  }

  /** What the whole loop does, given the action the handlers of each
      round queue (`queued[i]` for round i; the cleared globals once the
      list runs out): the calls in order and the final mode. */
  function Rounds(p: Pending, mode: GameMode, queued: seq<Pending>): (r: (seq<Call>, GameMode))
    decreases |queued|, p.action != GaNone
  {
    if p.action == GaNone then ([], mode)
    else
      var next := if queued == [] then NoAction else queued[0];
      var rest := Rounds(next, RoundMode(p, mode), if queued == [] then [] else queued[1..]);
      (RoundCalls(p, mode) + rest.0, rest.1)
  }

  /** The loop ends at the first round whose handlers queue nothing: what
      would be queued after it is never handled. */
  lemma {:induction false} RoundsStopAtNone(p: Pending, mode: GameMode, queued: seq<Pending>, k: nat)
    requires k < |queued| && queued[k].action == GaNone
    ensures Rounds(p, mode, queued) == Rounds(p, mode, queued[..k + 1])
    decreases k
  {
    if p.action != GaNone {
      if k == 0 {
        assert queued[..1] == [queued[0]];
        assert Rounds(queued[0], RoundMode(p, mode), queued[1..]) == ([], RoundMode(p, mode));
        assert Rounds(queued[0], RoundMode(p, mode), []) == ([], RoundMode(p, mode));
      } else {
        RoundsStopAtNone(queued[0], RoundMode(p, mode), queued[1..], k - 1);
        assert queued[..k + 1][1..] == queued[1..][..k];
      }
    }
  }

  /** Downgrades and level exits leave the mode alone: a chain of them
      ends in the mode it started from. */
  lemma {:induction false} RoundsMode(p: Pending, mode: GameMode, queued: seq<Pending>)
    requires forall i :: 0 <= i < |queued| ==> !IsFullEvent(queued[i].action) || queued[i].action == GaNone
    requires p.action == GaNone || !IsFullEvent(p.action)
    ensures Rounds(p, mode, queued).1 == mode
    decreases |queued|
  {
    if p.action != GaNone && queued != [] {
      RoundsMode(queued[0], mode, queued[1..]);
    }
  }

  /** A single "enter" action with nothing queued after it: the start
      data's events, leaving the old mode, the middle data's events,
      entering the new mode, and the end data's events, in that order. */
  lemma EnterRound(p: Pending, mode: GameMode)
    requires p.action in {GaEnterLevel, GaEnterWorld, GaEnterMenu, GaEnterLevelSettings}
    requires mode != ModeNothing
    ensures Rounds(p, mode, []) ==
              ([GenericEvents(p.dataStart), LeaveMode(mode, FullEventMode(p.action)),
                GenericEvents(p.dataMiddle), EnterMode(mode, FullEventMode(p.action)),
                GenericEvents(p.dataEnd)],
               FullEventMode(p.action))
  {
    var next := FullEventMode(p.action);
    assert RoundCalls(p, mode) ==
             [GenericEvents(p.dataStart), LeaveMode(mode, next), GenericEvents(p.dataMiddle),
              EnterMode(mode, next), GenericEvents(p.dataEnd)];
    var r := Rounds(p, mode, []);
    assert Rounds(NoAction, next, []) == ([], next);
    assert r.0 == RoundCalls(p, mode) + [];
    assert r.0 == [GenericEvents(p.dataStart), LeaveMode(mode, next), GenericEvents(p.dataMiddle),
                   EnterMode(mode, next), GenericEvents(p.dataEnd)];
    assert r == (r.0, r.1);
  }

  /** The game's globals. */
  class Game {
    var mode: GameMode
    var pending: Pending
    var calls: seq<Call>

    constructor(mode: GameMode)
      ensures this.mode == mode && pending == NoAction && calls == []
    {
      this.mode := mode;
      pending := NoAction;
      calls := [];
    }

    /** `Enter_Game_Mode`: the new mode is set first, then entered. */
    method EnterGameMode(newMode: GameMode)
      modifies this`mode, this`calls
      ensures mode == newMode
      ensures calls == old(calls) + EnterCalls(old(mode), newMode)
    {
      var oldMode := mode;
      mode := newMode;
      if newMode != ModeNothing {
        calls := calls + [EnterMode(oldMode, mode)];
      }
    }

    /** `Leave_Game_Mode`. */
    method LeaveGameMode(nextMode: GameMode)
      modifies this`calls
      ensures calls == old(calls) + LeaveCalls(mode, nextMode)
    {
      if mode != ModeNothing {
        calls := calls + [LeaveMode(mode, nextMode)];
      }
    }

    /** One round of `Handle_Game_Events` for an action already taken out
        of the globals: a downgrade, a level exit, or a "full" event that
        leaves the current mode and enters the new one. */
    method HandleAction(current: Pending)
      modifies this`mode, this`calls
      ensures calls == old(calls) + RoundCalls(current, old(mode))
      ensures mode == RoundMode(current, old(mode))
    {
      if current.action == GaDowngradePlayer {
        calls := calls + [GenericEvents(current.dataStart),
                          DowngradePlayer(FetchBool(current.dataMiddle, "downgrade_force", false),
                                          FetchBool(current.dataMiddle, "downgrade_ignore_invincible", false)),
                          GenericEvents(current.dataMiddle), GenericEvents(current.dataEnd)];
      } else if current.action == GaActivateLevelExit {
        calls := calls + [GenericEvents(current.dataStart), ActivateExit(current.target),
                          GenericEvents(current.dataMiddle), GenericEvents(current.dataEnd)];
      } else {
        var newMode := FullEventMode(current.action);
        calls := calls + [GenericEvents(current.dataStart)];
        LeaveGameMode(newMode);
        calls := calls + [GenericEvents(current.dataMiddle)];
        EnterGameMode(newMode);
        calls := calls + [GenericEvents(current.dataEnd)];
      }
    }

    /** `Handle_Game_Events`: while an action is set, take a copy of it and
        its data, clear the globals, and only then run the handlers, so
        that what they queue (`queued[i]` in round i) is the next round's
        action. */
    method HandleGameEvents(queued: seq<Pending>)
      modifies this
      ensures pending.action == GaNone
      ensures var r := Rounds(old(pending), old(mode), queued);
        calls == old(calls) + r.0 && mode == r.1
    {
      var round := 0;
      ghost var done: seq<Call> := [];
      assert Unhandled(queued, 0) == queued;
      while pending.action != GaNone
        invariant 0 <= round <= |queued| + 1
        invariant round == |queued| + 1 ==> pending.action == GaNone
        invariant calls == old(calls) + done
        invariant Rounds(old(pending), old(mode), queued).0 == done + Rounds(pending, mode, Unhandled(queued, round)).0
        invariant Rounds(old(pending), old(mode), queued).1 == Rounds(pending, mode, Unhandled(queued, round)).1
        decreases |queued| + 1 - round
      {
        ghost var modeBefore := mode;
        var current := pending;
        pending := NoAction;
        HandleAction(current);
        if round < |queued| {
          pending := queued[round];
        }
        round := round + 1;
        RoundStep(current, modeBefore, queued, round, pending);
        AppendAssoc(done, RoundCalls(current, modeBefore), Rounds(pending, mode, Unhandled(queued, round)).0);
        AppendAssoc(old(calls), done, RoundCalls(current, modeBefore));
        done := done + RoundCalls(current, modeBefore);
      }
    }
  }

  /** One turn of the loop, as `Rounds` sees it. */
  lemma RoundStep(current: Pending, mode: GameMode, queued: seq<Pending>, round: nat, next: Pending)
    requires current.action != GaNone && 1 <= round <= |queued| + 1
    requires next == if round - 1 < |queued| then queued[round - 1] else NoAction
    ensures var later := Rounds(next, RoundMode(current, mode), Unhandled(queued, round));
      Rounds(current, mode, Unhandled(queued, round - 1)) == (RoundCalls(current, mode) + later.0, later.1)
  {
    var rest := Unhandled(queued, round - 1);
    assert next == if rest == [] then NoAction else rest[0];
    assert Unhandled(queued, round) == if rest == [] then [] else rest[1..];
  }

  /** The actions queued for the rounds from `round` on. */
  ghost function Unhandled(queued: seq<Pending>, round: nat): seq<Pending>
  {
    if round <= |queued| then queued[round..] else []
  }

  // ---------------------------------------------------------- properties

  /** `Replace_Property`: the first property child with the name gets the
      value; with none, a new one is appended. */
  function Replaced(props: seq<(String, String)>, name: String, value: String): (r: seq<(String, String)>)
    ensures |r| == if Lookup(props, name).Some? then |props| else |props| + 1
  {
    if props == [] then [(name, value)]
    else if props[0].0 == name then [(name, value)] + props[1..]
    else [props[0]] + Replaced(props[1..], name, value)
  }

  /** After the replacement the name reads the new value and every other
      name reads what it did before. */
  lemma {:induction false} ReplacedLookup(props: seq<(String, String)>, name: String, value: String, key: String)
    ensures Lookup(Replaced(props, name, value), key) == if key == name then Some(value) else Lookup(props, key)
    decreases |props|
  {
    if props != [] && props[0].0 != name {
      ReplacedLookup(props[1..], name, value, key);
      assert ([props[0]] + Replaced(props[1..], name, value))[1..] == Replaced(props[1..], name, value);
    } else if props != [] {
      assert ([(name, value)] + props[1..])[1..] == props[1..];
    }
  }

  /** Replacing twice with the same value is replacing once. */
  lemma {:induction false} ReplacedIdempotent(props: seq<(String, String)>, name: String, value: String)
    ensures Replaced(Replaced(props, name, value), name, value) == Replaced(props, name, value)
    decreases |props|
  {
    if props == [] {
    } else if props[0].0 == name {
      assert ([(name, value)] + props[1..])[1..] == props[1..];
    } else {
      ReplacedIdempotent(props[1..], name, value);
      assert ([props[0]] + Replaced(props[1..], name, value))[1..] == Replaced(props[1..], name, value);
    }
  }

  /** Adding, by contrast, never hides an earlier property of the same
      name: a reader taking the first match still sees the old value. */
  lemma AddedShadowed(props: seq<(String, String)>, name: String, value: String)
    requires Lookup(props, name).Some?
    ensures Lookup(props + [(name, value)], name) == Lookup(props, name)
  {
    LookupAppend(props, [(name, value)], name);
  }

  /** An XML element's property children, in document order. */
  class Element {
    var properties: seq<(String, String)>

    constructor()
      ensures properties == []
    {
      properties := [];
    }

    /** `Add_Property`: always appends. */
    method AddProperty(name: String, value: String)
      modifies this
      ensures properties == old(properties) + [(name, value)]
    {
      properties := properties + [(name, value)];
    }

    /** `Replace_Property`: a loop over the property children that updates
        the first with the name, else `Add_Property`. */
    method ReplaceProperty(name: String, value: String)
      modifies this
      ensures properties == Replaced(old(properties), name, value)
    {
      var i := 0;
      while i < |properties|
        invariant 0 <= i <= |properties|
        invariant forall j :: 0 <= j < i ==> properties[j].0 != name
      {
        if properties[i].0 == name {
          ReplacedAt(properties, name, value, i);
          properties := properties[i := (name, value)];
          return;
        }
        i := i + 1;
      }
      ReplacedAbsent(properties, name, value);
      AddProperty(name, value);
    }
  }

  lemma {:induction false} ReplacedAt(props: seq<(String, String)>, name: String, value: String, i: nat)
    requires i < |props| && props[i].0 == name
    requires forall j :: 0 <= j < i ==> props[j].0 != name
    ensures Replaced(props, name, value) == props[i := (name, value)]
    decreases i
  {
    if i > 0 {
      ReplacedAt(props[1..], name, value, i - 1);
      assert [props[0]] + props[1..][i - 1 := (name, value)] == props[i := (name, value)];
    }
  }

  lemma {:induction false} ReplacedAbsent(props: seq<(String, String)>, name: String, value: String)
    requires forall j :: 0 <= j < |props| ==> props[j].0 != name
    ensures Replaced(props, name, value) == props + [(name, value)]
    decreases |props|
  {
    if props != [] {
      ReplacedAbsent(props[1..], name, value);
      assert [props[0]] + (props[1..] + [(name, value)]) == props + [(name, value)];
    }
  }
}
