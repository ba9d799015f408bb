/** The level editor's object-state switching, its `m` key, its on/off
    globals and its menu dispatch (tsc/src/level/level_editor.cpp). */
module LevelEditor {
  import opened Common
  import opened GameTypes
  import Editor

  /** The massivity cycle of `Switch_Object_State`:
      front passive -> massive -> halfmassive -> climbable -> passive ->
      front passive. */
  function NextMassiveType(m: MassiveType): (r: MassiveType)
    ensures r != m
  {
    match m
    case MassFrontPassive => MassMassive
    case MassMassive => MassHalfmassive
    case MassHalfmassive => MassClimbable
    case MassClimbable => MassPassive
    case MassPassive => MassFrontPassive
  }

  /** `n` switches in a row. */
  function SwitchTimes(m: MassiveType, n: nat): MassiveType
    decreases n
  {
    if n == 0 then m else SwitchTimes(NextMassiveType(m), n - 1)
  }

  /** The cycle has length five: five switches restore the state, and fewer
      never do. */
  lemma FiveSwitchesRestore(m: MassiveType)
    ensures SwitchTimes(m, 5) == m
    ensures forall n :: 0 < n < 5 ==> SwitchTimes(m, n) != m
  {
    assert SwitchTimes(m, 1) == NextMassiveType(m);
    assert SwitchTimes(m, 2) == NextMassiveType(NextMassiveType(m));
    assert SwitchTimes(m, 3) == NextMassiveType(NextMassiveType(NextMassiveType(m)));
    assert SwitchTimes(m, 4) == NextMassiveType(NextMassiveType(NextMassiveType(NextMassiveType(m))));
  }

  /** The editor-visible part of a sprite. */
  class EditorSprite {
    var massiveType: MassiveType
    var spriteArray: ArrayType

    constructor (massiveType: MassiveType, spriteArray: ArrayType)
      ensures this.massiveType == massiveType && this.spriteArray == spriteArray
    {
      this.massiveType := massiveType;
      this.spriteArray := spriteArray;
    }
  }

  /** `Switch_Object_State`: false, with nothing changed, for a null or
      lava object; otherwise the object's massivity moves one step along the
      cycle. */
  method SwitchObjectState(obj: EditorSprite?) returns (ok: bool)
    modifies if obj != null then {obj} else {}
    ensures ok <==> obj != null && obj.spriteArray != ArrayLava
    ensures obj != null ==> obj.spriteArray == old(obj.spriteArray)
    ensures obj != null && ok ==> obj.massiveType == NextMassiveType(old(obj.massiveType))
    ensures obj != null && !ok ==> obj.massiveType == old(obj.massiveType)
  {
    if obj == null || obj.spriteArray == ArrayLava {
      return false;
    }
    obj.massiveType := NextMassiveType(obj.massiveType);
    return true;
  }

  /** The editor's on/off state and the globals it maintains. */
  class LevelEditorState {
    /** `cEditor::m_enabled` */
    var enabled: bool
    /** the global `editor_level_enabled` */
    var editorLevelEnabled: bool
    /** the global `editor_enabled` */
    var editorEnabled: bool

    constructor ()
      ensures !enabled && !editorLevelEnabled && !editorEnabled
    {
      enabled := false;
      editorLevelEnabled := false;
      editorEnabled := false;
    }

    /** `cEditor_Level::Enable`: a no-op when enabled; otherwise sets
        `editor_level_enabled`, and `editor_enabled` in level mode. */
    method Enable(mode: GameMode)
      modifies this
      ensures enabled
      ensures old(enabled) ==> editorLevelEnabled == old(editorLevelEnabled) && editorEnabled == old(editorEnabled)
      ensures !old(enabled) ==>
        editorLevelEnabled && editorEnabled == (mode == ModeLevel || old(editorEnabled))
    {
      if enabled {
        return;
      }
      editorLevelEnabled := true;
      if mode == ModeLevel {
        editorEnabled := true;
      }
      enabled := true;
    }

    /** `cEditor_Level::Disable`: a no-op when disabled; otherwise clears
        `editor_level_enabled`, and in level mode clears `editor_enabled`
        and forces native mode. `native` is the mode the base editor is
        left in. */
    method Disable(mode: GameMode, nativeMode: bool) returns (native: bool)
      modifies this
      ensures !enabled
      ensures old(enabled) ==>
        !editorLevelEnabled && native == (nativeMode || mode == ModeLevel)
        && editorEnabled == (old(editorEnabled) && mode != ModeLevel)
      ensures !old(enabled) ==>
        editorLevelEnabled == old(editorLevelEnabled) && editorEnabled == old(editorEnabled) && native == nativeMode
    {
      native := nativeMode;
      if !enabled {
        return;
      }
      editorLevelEnabled := false;
      if mode == ModeLevel {
        native := true;
        editorEnabled := false;
      }
      enabled := false;
    }

    /** The `m` branch of `Key_Down`: ignored (false) while disabled. With
        a selection, the first selected object is switched and, when that
        succeeds, every other selected object takes its new massivity. */
    method KeyDownM(selected: seq<EditorSprite>) returns (processed: bool)
      modifies set o | o in selected
      ensures processed == enabled
      ensures forall k :: 0 <= k < |selected| ==> selected[k].spriteArray == old(selected[k].spriteArray)
      ensures !enabled || selected == [] || old(selected[0].spriteArray) == ArrayLava ==>
        forall k :: 0 <= k < |selected| ==> selected[k].massiveType == old(selected[k].massiveType)
      ensures enabled && selected != [] && old(selected[0].spriteArray) != ArrayLava ==>
        forall k :: 0 <= k < |selected| ==> selected[k].massiveType == NextMassiveType(old(selected[0].massiveType))
    {
      if !enabled {
        return false;
      }
      if selected != [] {
        var base := selected[0];
        ghost var target := NextMassiveType(base.massiveType);
        var ok := SwitchObjectState(base);
        if ok {
          var i := 0;
          while i < |selected|
            invariant 0 <= i <= |selected|
            invariant base.massiveType == target
            invariant forall k :: 0 <= k < i ==> selected[k].massiveType == target
            invariant forall k :: 0 <= k < |selected| ==> selected[k].spriteArray == old(selected[k].spriteArray)
          {
            if selected[i] != base {
              selected[i].massiveType := base.massiveType;
            }
            i := i + 1;
          }
        }
      }
      return true;
    }
  }

  /** What the level editor's `Activate_Menu_Item` does with an entry. */
  datatype LevelMenuAction = LevelFunction(name: String) | BaseAction(action: Editor.MenuAction)

  /** The level functions of the editor menu. */
  const LevelFunctions: seq<String> := ["new", "load", "save", "save_as", "delete", "reload", "settings"]

  /** `cEditor_Level::Activate_Menu_Item`: the seven level functions are
      handled here, everything else goes to the base editor. */
  function LevelActivateMenuItem(m: Editor.MenuObject): (r: LevelMenuAction)
    ensures r.LevelFunction? <==> m.isFunction && m.tags in LevelFunctions
    ensures r.LevelFunction? ==> r.name == m.tags
    ensures r.BaseAction? ==> r.action == Editor.ActivateMenuItem(m)
  {
    if m.isFunction && m.tags in LevelFunctions then LevelFunction(m.tags)
    else BaseAction(Editor.ActivateMenuItem(m))
  }

  /** A level function never reaches the base editor, so "exit" is the only
      function the base handles for the level editor. */
  lemma LevelMenuExit(m: Editor.MenuObject)
    ensures LevelActivateMenuItem(m) == BaseAction(Editor.ExitEditor) <==> m.isFunction && m.tags == "exit"
  {
    if m.tags == "exit" {
      assert m.tags !in LevelFunctions by {
        assert forall k :: 0 <= k < |LevelFunctions| ==> LevelFunctions[k] != "exit";
      }
    }
  }
}
