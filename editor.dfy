/** The tag matching and menu bookkeeping of the level editor
    (tsc/src/core/editor/editor.cpp). Widgets, images and sounds are not
    modelled; a listed item is reported by its index. */
module Editor {
  import opened Common

  /** `tag` occurs at `i` as a whole ';'-delimited token of `s`. */
  predicate TokenAt(s: String, tag: String, i: int)
  {
    OccursAt(s, tag, i)
    && (i == 0 || s[i - 1] == ';')
    && (i + |tag| == |s| || s[i + |tag|] == ';')
  }

  /** One call of `Is_Tag_Available`: the search either answers or calls
      itself again from the end of the occurrence it rejected. */
  datatype TagSearch = Answer(found: bool) | Continue(next: nat)

  /** The body of `Is_Tag_Available(str, tag, search_pos)` up to its
      recursive call, as written (also for an empty tag). */
  function TagSearchStep(s: String, tag: String, searchPos: nat): (r: TagSearch)
    ensures r == Answer(true) ==> exists i :: searchPos <= i && TokenAt(s, tag, i)
    ensures r == Answer(false) ==> forall i :: searchPos <= i ==> !OccursAt(s, tag, i)
    ensures r.Continue? ==> searchPos + |tag| <= r.next <= |s|
  {
    if searchPos > |s| then Answer(false)
    else match Find(s, tag, searchPos)
      case None => Answer(false)
      case Some(pos) =>
        if TokenAt(s, tag, pos) then Answer(true)
        else Continue(pos + |tag|)
  }

  /** `Is_Tag_Available(str, tag, search_pos)`: finds `tag` from
      `searchPos`; an occurrence that is not a whole token makes the search
      resume behind it. The recursion only ends for a non-empty tag. */
  function IsTagAvailable(s: String, tag: String, searchPos: nat): (r: bool)
    requires |tag| > 0
    decreases |s| + 1 - searchPos
    ensures r ==> exists i :: searchPos <= i && TokenAt(s, tag, i)
  {
    match TagSearchStep(s, tag, searchPos)
    case Answer(found) => found
    case Continue(next) => IsTagAvailable(s, tag, next)
  }

  /** With an empty tag the search calls itself with its own arguments, so
      the recursion of `Is_Tag_Available` never returns once it continues. */
  lemma EmptyTagSearchRepeats(s: String, searchPos: nat)
    requires TagSearchStep(s, [], searchPos).Continue?
    ensures TagSearchStep(s, [], searchPos).next == searchPos
  {
    assert OccursAt(s, [], searchPos);
  }

  /** Item tags "a;;b" against an item tagged "a": the first token matches,
      the second is empty, and its search repeats itself forever. */
  lemma DoubleSeparatorLoops()
    ensures Tokens("a;;b") == ["a", "", "b"]
    ensures IsTagAvailable("a", "a", 0)
    ensures TagSearchStep("a", [], 0) == Continue(0)
  {
    assert "a;;b"[1] == ';';
    assert FindChar("a;;b", ';') == Some(1);
    assert ";b"[0] == ';';
    assert FindChar(";b", ';') == Some(0);
    assert FindChar("b", ';') == None;
    assert "a;;b"[..1] == "a" && "a;;b"[2..] == ";b";
    assert ";b"[..0] == "" && ";b"[1..] == "b";
    assert Tokens("b") == ["b"];
    assert Tokens(";b") == [""] + Tokens("b");
    assert Tokens("a;;b") == ["a"] + Tokens(";b");
    assert OccursAt("a", "a", 0);
    assert TokenAt("a", "a", 0);
    assert OccursAt("a", [], 0) && !TokenAt("a", [], 0);
  }

  /** The evidently intended reading of one token: an empty token (from
      ";;" or a leading ';') constrains nothing. */
  predicate TokenAvailable(s: String, tag: String)
  {
    tag == [] || IsTagAvailable(s, tag, 0)
  }

  /** A token is available exactly when it is empty or occurs as a whole
      token. */
  lemma TokenAvailableIffToken(s: String, tag: String)
    requires forall k :: 0 <= k < |tag| ==> tag[k] != ';'
    ensures TokenAvailable(s, tag) <==> tag == [] || exists i :: 0 <= i && TokenAt(s, tag, i)
  {
    if tag != [] {
      TagAvailableIffToken(s, tag);
    }
  }

  /** Without ';' in the tag, skipping behind a non-token occurrence never
      skips a token, so the search finds a token whenever one exists. */
  lemma {:induction false} IsTagAvailableComplete(s: String, tag: String, searchPos: nat, i: int)
    requires |tag| > 0 && (forall k :: 0 <= k < |tag| ==> tag[k] != ';')
    requires searchPos <= i && TokenAt(s, tag, i)
    ensures IsTagAvailable(s, tag, searchPos)
    decreases |s| + 1 - searchPos
  {
    SearchStepBeforeToken(s, tag, searchPos, i);
    match TagSearchStep(s, tag, searchPos)
    case Answer(_) =>
    case Continue(next) =>
      IsTagAvailableComplete(s, tag, next, i);
  }

  /** One search step before a whole token either finds a token or
      resumes at a position no later than it. */
  lemma SearchStepBeforeToken(s: String, tag: String, searchPos: nat, i: int)
    requires |tag| > 0 && (forall k :: 0 <= k < |tag| ==> tag[k] != ';')
    requires searchPos <= i && TokenAt(s, tag, i)
    ensures var r := TagSearchStep(s, tag, searchPos);
            r == Answer(true) || (r.Continue? && r.next <= i)
  {
    assert OccursAt(s, tag, i);
    var pos := Find(s, tag, searchPos);
    assert pos.Some? && pos.value <= i;
  }

  /** The whole-token reading of `Is_Tag_Available` (both directions). */
  lemma TagAvailableIffToken(s: String, tag: String)
    requires |tag| > 0 && (forall k :: 0 <= k < |tag| ==> tag[k] != ';')
    ensures IsTagAvailable(s, tag, 0) <==> exists i :: 0 <= i && TokenAt(s, tag, i)
  {
    if exists i :: 0 <= i && TokenAt(s, tag, i) {
      var i :| 0 <= i && TokenAt(s, tag, i);
      IsTagAvailableComplete(s, tag, 0, i);
    }
  }

  /** The tokens `Load_Item_Menu` cuts from a tag string: everything up to
      each ';', and the rest when no ';' is left. */
  function Tokens(s: String): (r: seq<String>)
    decreases |s|
    ensures s != [] <==> r != []
  {
    if s == [] then []
    else match FindChar(s, ';')
      case None => [s]
      case Some(p) => [s[..p]] + Tokens(s[p + 1..])
  }

  /** No token holds a ';'. */
  lemma {:induction false} TokensHaveNoSeparator(s: String)
    ensures forall t :: t in Tokens(s) ==> forall k :: 0 <= k < |t| ==> t[k] != ';'
    decreases |s|
  {
    if s != [] {
      match FindChar(s, ';')
      case None =>
      case Some(p) =>
        TokensHaveNoSeparator(s[p + 1..]);
        var head := s[..p];
        assert forall k :: 0 <= k < |head| ==> head[k] != ';';
        assert Tokens(s) == [head] + Tokens(s[p + 1..]);
    }
  }

  /** The tokens joined with ';'. */
  function Join(ts: seq<String>): String
  {
    if ts == [] then []
    else if |ts| == 1 then ts[0]
    else ts[0] + ";" + Join(ts[1..])
  }

  lemma JoinCons(t: String, ts: seq<String>)
    requires ts != []
    ensures Join([t] + ts) == t + ";" + Join(ts)
  {
    assert ([t] + ts)[1..] == ts;
  }

  /** Joining the tokens gives back the tag string, less one trailing ';'. */
  lemma {:induction false} TokensJoin(s: String)
    ensures Join(Tokens(s)) + (if s != [] && s[|s| - 1] == ';' then ";" else "") == s
    decreases |s|
  {
    if s != [] {
      TokensStep(s);
      match FindChar(s, ';')
      case None =>
      case Some(p) =>
        var rest := s[p + 1..];
        if rest != [] {
          TokensJoin(rest);
          JoinCut(s, p, Tokens(rest));
        }
    }
  }

  /** A tag string cut at its first ';', with the join of the rest's tokens
      giving back the rest. */
  lemma JoinCut(s: String, p: nat, ts: seq<String>)
    requires p < |s| - 1 && s[p] == ';' && ts != []
    requires Join(ts) + (if s[|s| - 1] == ';' then ";" else "") == s[p + 1..]
    ensures Join([s[..p]] + ts) + (if s[|s| - 1] == ';' then ";" else "") == s
  {
    var head, rest := s[..p], s[p + 1..];
    var tail: String := if s[|s| - 1] == ';' then ";" else "";
    JoinCons(head, ts);
    AppendAssoc(head + ";", Join(ts), tail);
    assert s == head + ";" + rest;
  }

  /** The splitting loop of `Load_Item_Menu`. */
  method SplitTags(itemTags: String) returns (tags: seq<String>)
    ensures tags == Tokens(itemTags)
  {
    var rest := itemTags;
    tags := [];
    while |rest| > 0
      invariant tags + Tokens(rest) == Tokens(itemTags)
      decreases |rest|
    {
      var pos := FindChar(rest, ';');
      TokensStep(rest);
      if pos.None? {
        tags := tags + [rest];
        rest := [];
        break;
      }
      AppendAssoc(tags, [rest[..pos.value]], Tokens(rest[pos.value + 1..]));
      tags := tags + [rest[..pos.value]];
      rest := rest[pos.value + 1..];
    }
  }

  /** One cut of the splitting loop. */
  lemma TokensStep(s: String)
    requires s != []
    ensures FindChar(s, ';').None? ==> Tokens(s) == [s]
    ensures FindChar(s, ';').Some? ==> var p := FindChar(s, ';').value;
      Tokens(s) == [s[..p]] + Tokens(s[p + 1..])
  {
  }


  /** The inner search of `Load_Item_Menu` for one candidate: advances
      through the tokens while each is available in the candidate's editor
      tags, listing it once all are. */
  method MatchesAllTags(editorTags: String, tags: seq<String>) returns (listed: bool)
    requires tags != [] && forall t :: t in tags ==> |t| > 0
    ensures listed <==> forall t :: t in tags ==> IsTagAvailable(editorTags, t, 0)
  {
    var tagPos := 0;
    while IsTagAvailable(editorTags, tags[tagPos], 0)
      invariant 0 <= tagPos < |tags|
      invariant forall k :: 0 <= k < tagPos ==> IsTagAvailable(editorTags, tags[k], 0)
      decreases |tags| - tagPos
    {
      tagPos := tagPos + 1;
      if tagPos >= |tags| {
        return true;
      }
    }
    return false;
  }

  /** A candidate of the item menu: its editor tags and whether its image
      (for image settings) or copy (for objects) can be made. */
  datatype Candidate = Candidate(editorTags: String, loadable: bool)

  /** `Load_Item_Menu`: `None` for an empty tag string; otherwise the
      indices of the tagged images, then of the tagged objects, that carry
      every token. An image whose surface cannot be loaded is skipped.
      Empty tokens (from ";;") are excluded: the source's search need not
      terminate on them. */
  method LoadItemMenu(itemTags: String, images: seq<Candidate>, objects: seq<Candidate>)
    returns (r: Option<(seq<nat>, seq<nat>)>)
    requires forall t :: t in Tokens(itemTags) ==> |t| > 0
    ensures r.None? <==> itemTags == []
    ensures r.Some? ==> forall i :: i in r.value.0 <==>
      (0 <= i < |images| && images[i].loadable && Listed(images[i].editorTags, Tokens(itemTags)))
    ensures r.Some? ==> forall i :: i in r.value.1 <==>
      (0 <= i < |objects| && Listed(objects[i].editorTags, Tokens(itemTags)))
  {
    if itemTags == [] {
      return None;
    }
    var tags := SplitTags(itemTags);
    var shownImages := ListItems(images, tags, true);
    var shownObjects := ListItems(objects, tags, false);
    return Some((shownImages, shownObjects));
  }

  /** One candidate loop of `Load_Item_Menu`. */
  method ListItems(cands: seq<Candidate>, tags: seq<String>, needsImage: bool) returns (shown: seq<nat>)
    requires tags != [] && forall t :: t in tags ==> |t| > 0
    ensures forall i :: i in shown <==>
      (0 <= i < |cands| && (needsImage ==> cands[i].loadable) && Listed(cands[i].editorTags, tags))
  {
    shown := [];
    var i := 0;
    while i < |cands|
      invariant 0 <= i <= |cands|
      invariant forall j :: j in shown <==>
        (0 <= j < i && (needsImage ==> cands[j].loadable) && Listed(cands[j].editorTags, tags))
    {
      var listed := MatchesAllTags(cands[i].editorTags, tags);
      if listed && (needsImage ==> cands[i].loadable) {
        shown := shown + [i];
      }
      i := i + 1;
    }
  }

  /** Every token is available in the editor tags. */
  predicate Listed(editorTags: String, tags: seq<String>)
  {
    forall t :: t in tags ==> TokenAvailable(editorTags, t)
  }

  /** An entry of the editor's main menu after `Add_Menu_Object`. */
  datatype MenuObject = MenuObject(isFunction: bool, header: bool, tags: String)

  /** `Add_Menu_Object`: a leading "function:" marks a function entry, then
      a leading "header" marks a header; both prefixes are cut off. */
  function ParseMenuObject(tags: String): (r: MenuObject)
    ensures r.isFunction <==> StartsWith(tags, "function:")
    ensures |r.tags| <= |tags|
  {
    var isFunction := StartsWith(tags, "function:");
    var rest := if isFunction then tags[9..] else tags;
    var header := StartsWith(rest, "header");
    MenuObject(isFunction, header, if header then rest[6..] else rest)
  }

  /** The prefixes `ParseMenuObject` removes, put back. */
  function MenuObjectTags(m: MenuObject): String
  {
    (if m.isFunction then "function:" else "") + (if m.header then "header" else "") + m.tags
  }

  /** Parsing only splits the prefixes off: putting them back restores the
      tag string. */
  lemma MenuObjectRoundTrip(tags: String)
    ensures MenuObjectTags(ParseMenuObject(tags)) == tags
  {
    var r := ParseMenuObject(tags);
    var rest := if r.isFunction then tags[9..] else tags;
    if r.isFunction {
      assert tags == tags[..9] + tags[9..];
    }
    if r.header {
      assert rest == rest[..6] + rest[6..];
    }
  }

  /** What `Activate_Menu_Item` does with an entry. */
  datatype MenuAction = ExitEditor | UnknownFunction | Ignore | ShowItems(tags: String) | UnknownMenu

  /** `Activate_Menu_Item`: the "exit" function leaves the editor, other
      functions are unknown, headers do nothing, and any other entry loads
      its item menu (unknown when the tags are empty). */
  function ActivateMenuItem(m: MenuObject): (r: MenuAction)
    ensures r == ExitEditor <==> m.isFunction && m.tags == "exit"
    ensures r == Ignore <==> !m.isFunction && m.header
    ensures r.ShowItems? <==> !m.isFunction && !m.header && m.tags != []
    ensures r.ShowItems? ==> r.tags == m.tags
  {
    if m.isFunction then (if m.tags == "exit" then ExitEditor else UnknownFunction)
    else if m.header then Ignore
    else if m.tags != [] then ShowItems(m.tags)
    else UnknownMenu
  }

  /** The editor's on/off state (`cEditor::m_enabled`). */
  class EditorState {
    var enabled: bool

    constructor ()
      ensures !enabled
    {
      enabled := false;
    }

    /** `Enable`: a no-op when already enabled. */
    method Enable()
      modifies this
      ensures enabled
    {
      if enabled {
        return;
      }
      enabled := true;
    }

    /** `Disable`: a no-op when already disabled. */
    method Disable()
      modifies this
      ensures !enabled
    {
      if !enabled {
        return;
      }
      enabled := false;
    }

    /** `Toggle` flips the state. */
    method Toggle()
      modifies this
      ensures enabled == !old(enabled)
    {
      if !enabled {
        Enable();
      } else {
        Disable();
      }
    }
  }
}
