/** The canvas keyboard shortcuts (src/features/notebook/hooks/use-canvas-shortcuts.ts): one
    keydown handler that sets modes and selection, asks for deletions and new blocks, and
    sends formatting commands to the focused block editor. */
module CanvasShortcuts {
  import opened NoteTypes
  import opened CanvasSelection
  import ModeCanvas

  /** Where the key was pressed: form fields and editable content count as typing. */
  datatype FocusTarget = InputField | TextArea | ContentEditable | OtherElement

  datatype KeyEvent = KeyEvent(key: string, metaKey: bool, ctrlKey: bool, target: FocusTarget)

  predicate IsCmdOrCtrl(e: KeyEvent) {
    e.metaKey || e.ctrlKey
  }

  predicate IsTyping(e: KeyEvent) {
    e.target != OtherElement
  }

  /** Commands sent to the focused editor (calls into the editor library). */
  datatype EditorCommand =
    | SetFontSize(px: int)
    | ToggleStrike | ToggleBulletList | ToggleOrderedList | ToggleTaskList
    | AlignLeft | AlignCenter | AlignRight
    | Blur

  /** What the handler asks of the rest of the canvas besides its own state. */
  datatype Effect =
    | DeleteObject(objectId: string)
    | DeleteConnection(connectionId: string)
    | AddBlock(x: real, y: real)
    | Edit(editor: EditorHandle, command: EditorCommand)

  /** The deletions asked for by a delete shortcut: the selected block, then the selected
      connection, each when its id is truthy. */
  function DeleteEffects(objectId: Option<string>, connectionId: Option<string>): (r: seq<Effect>)
    ensures |r| <= 2
    ensures DeleteObject(if objectId.Some? then objectId.value else "") in r <==> Truthy(objectId)
    ensures forall ef :: ef in r ==> ef.DeleteObject? || ef.DeleteConnection?
    ensures DeleteConnection(if connectionId.Some? then connectionId.value else "") in r <==> Truthy(connectionId)
    ensures Truthy(objectId) ==> r[0] == DeleteObject(objectId.value)
  {
    (if Truthy(objectId) then [DeleteObject(objectId.value)] else [])
    + (if Truthy(connectionId) then [DeleteConnection(connectionId.value)] else [])
  }

  /** The font size the editor reports, with an absent or empty value read as 16. */
  function CurrentFontSize(fontSize: Option<int>): int {
    if fontSize.Some? then fontSize.value else 16
  }

  /** The font size a Cmd/Ctrl '+', '=' or '-' sets, if any: two more, or two less when the
      size is above 8. */
  function FontStep(key: string, size: int): (r: Option<int>)
    ensures (key == "+" || key == "=") ==> r == Some(size + 2)
    ensures key == "-" && size > 8 ==> r == Some(size - 2)
    ensures r.None? <==> !(key == "+" || key == "=" || (key == "-" && size > 8))
  {
    if key == "+" || key == "=" then Some(size + 2)
    else if key == "-" && size > 8 then Some(size - 2)
    else None
  }

  /** Shrinking never takes a font size below 7, and leaves sizes of 8 or less alone. */
  lemma ShrinkFloor(size: int)
    ensures size <= 8 ==> FontStep("-", size).None?
    ensures FontStep("-", size).Some? ==> FontStep("-", size).value >= 7
  {
  }

  /** Growing and then shrinking restores any size above 6. */
  lemma GrowThenShrink(size: int)
    requires size > 6
    ensures FontStep("-", FontStep("+", size).value) == Some(size)
  {
  }

  /** The editor command a Cmd/Ctrl key sends besides the font size keys. */
  function FormatCommand(key: string): (r: Option<EditorCommand>)
    ensures r.Some? <==> key in {"o", "1", "2", "3", "l", "g", "r"}
    ensures r.Some? ==> !r.value.SetFontSize? && !r.value.Blur?
  {
    if key == "o" then Some(ToggleStrike)
    else if key == "1" then Some(ToggleBulletList)
    else if key == "2" then Some(ToggleOrderedList)
    else if key == "3" then Some(ToggleTaskList)
    else if key == "l" then Some(AlignLeft)
    else if key == "g" then Some(AlignCenter)
    else if key == "r" then Some(AlignRight)
    else None
  }

  /** The editor shortcuts apply: an editor has focus, Cmd/Ctrl is held and the key is one of
      the formatting keys ('-' always counts, even when it changes nothing). */
  predicate EditorKey(e: KeyEvent, editor: Option<EditorHandle>) {
    editor.Some? && IsCmdOrCtrl(e)
    && (e.key in {"+", "=", "-"} || FormatCommand(e.key).Some?)
  }

  /** The deletion shared by Cmd/Ctrl+D and Delete/Backspace: each selected item with a
      truthy id is asked to be deleted and deselected. */
  method DeleteSelected(sel: Selection) returns (effects: seq<Effect>)
    modifies sel
    ensures effects == DeleteEffects(old(sel.selectedObjectId), old(sel.selectedConnectionId))
    ensures sel.selectedObjectId == (if Truthy(old(sel.selectedObjectId)) then None else old(sel.selectedObjectId))
    ensures sel.selectedConnectionId ==
              (if Truthy(old(sel.selectedConnectionId)) then None else old(sel.selectedConnectionId))
    ensures sel.activeEditor == old(sel.activeEditor)
  {
    effects := [];
    var objectId, connectionId := sel.selectedObjectId, sel.selectedConnectionId;
    if Truthy(objectId) {
      effects := effects + [DeleteObject(objectId.value)];
      sel.SetSelectedObjectId(None);
    }
    if Truthy(connectionId) {
      effects := effects + [DeleteConnection(connectionId.value)];
      sel.SetSelectedConnectionId(None);
    }
  }

  /** Escape: clear the selection, turn every mode off and blur the focused editor. */
  method Escape(c: ModeCanvas.Canvas) returns (effects: seq<Effect>)
    modifies c, c.connect, c.connect.sel
    ensures c.connect.connectSourceId == old(c.connect.connectSourceId)
    ensures c.connect.mouseX == old(c.connect.mouseX) && c.connect.mouseY == old(c.connect.mouseY)
    ensures c.connect.sel.activeEditor == old(c.connect.sel.activeEditor)
    ensures c.connect.sel.selectedObjectId.None? && c.connect.sel.selectedConnectionId.None?
    ensures !c.isPenMode && !c.connect.isConnectMode && !c.isObjectEraserMode
    ensures effects == if old(c.connect.sel.activeEditor).Some? then [Edit(old(c.connect.sel.activeEditor).value, Blur)] else []
  {
    var sel := c.connect.sel;
    sel.SetSelectedObjectId(None);
    sel.SetSelectedConnectionId(None);
    c.isPenMode := false;
    c.connect.isConnectMode := false;
    c.isObjectEraserMode := false;
    effects := [];
    if sel.activeEditor.Some? {
      effects := [Edit(sel.activeEditor.value, Blur)];
    }
  }

  /** The plain 'p' and 'c' keys: flip pen or connect mode from its value when the key was
      pressed, turning the other two modes off. */
  method ToggleKey(c: ModeCanvas.Canvas, key: string)
    modifies c, c.connect
    ensures c.connect.connectSourceId == old(c.connect.connectSourceId)
    ensures c.connect.mouseX == old(c.connect.mouseX) && c.connect.mouseY == old(c.connect.mouseY)
    ensures key == "p" ==> c.isPenMode == !old(c.isPenMode) && !c.connect.isConnectMode && !c.isObjectEraserMode
    ensures key == "c" ==> c.connect.isConnectMode == !old(c.connect.isConnectMode) && !c.isPenMode && !c.isObjectEraserMode
    ensures key !in {"p", "c"} ==>
              && c.isPenMode == old(c.isPenMode) && c.connect.isConnectMode == old(c.connect.isConnectMode)
              && c.isObjectEraserMode == old(c.isObjectEraserMode)
  {
    var wasPen, wasConnect := c.isPenMode, c.connect.isConnectMode;
    if key == "p" {
      c.isPenMode := !wasPen;
      c.connect.isConnectMode := false;
      c.isObjectEraserMode := false;
    }
    if key == "c" {
      c.connect.isConnectMode := !wasConnect;
      c.isPenMode := false;
      c.isObjectEraserMode := false;
    }
  }

  /** The keys that do not end the handler early: Delete/Backspace (not while typing), then
      Escape, then the plain 'p' and 'c' toggles (not while typing, not with Cmd/Ctrl). */
  method OtherKey(c: ModeCanvas.Canvas, e: KeyEvent) returns (effects: seq<Effect>)
    modifies c, c.connect, c.connect.sel
    ensures c.connect.connectSourceId == old(c.connect.connectSourceId)
    ensures c.connect.mouseX == old(c.connect.mouseX) && c.connect.mouseY == old(c.connect.mouseY)
    ensures c.connect.sel.activeEditor == old(c.connect.sel.activeEditor)
    ensures var deleting := (e.key == "Delete" || e.key == "Backspace") && !IsTyping(e);
            && effects ==
                 (if deleting then DeleteEffects(old(c.connect.sel.selectedObjectId), old(c.connect.sel.selectedConnectionId)) else [])
                 + (if e.key == "Escape" && old(c.connect.sel.activeEditor).Some?
                    then [Edit(old(c.connect.sel.activeEditor).value, Blur)] else [])
            && (e.key == "Escape" ==>
                  && c.connect.sel.selectedObjectId.None? && c.connect.sel.selectedConnectionId.None?
                  && !c.isPenMode && !c.connect.isConnectMode && !c.isObjectEraserMode)
            && (deleting ==>
                  && c.connect.sel.selectedObjectId ==
                       (if Truthy(old(c.connect.sel.selectedObjectId)) then None else old(c.connect.sel.selectedObjectId))
                  && c.connect.sel.selectedConnectionId ==
                       (if Truthy(old(c.connect.sel.selectedConnectionId)) then None else old(c.connect.sel.selectedConnectionId)))
            && (!deleting && e.key != "Escape" ==>
                  && c.connect.sel.selectedObjectId == old(c.connect.sel.selectedObjectId)
                  && c.connect.sel.selectedConnectionId == old(c.connect.sel.selectedConnectionId))
            && var toggling := !IsTyping(e) && !IsCmdOrCtrl(e);
               && (toggling && e.key == "p" ==>
                     c.isPenMode == !old(c.isPenMode) && !c.connect.isConnectMode && !c.isObjectEraserMode)
               && (toggling && e.key == "c" ==>
                     c.connect.isConnectMode == !old(c.connect.isConnectMode) && !c.isPenMode && !c.isObjectEraserMode)
               && (e.key != "Escape" && !(toggling && e.key in {"p", "c"}) ==>
                     && c.isPenMode == old(c.isPenMode) && c.connect.isConnectMode == old(c.connect.isConnectMode)
                     && c.isObjectEraserMode == old(c.isObjectEraserMode))
  {
    effects := [];
    if (e.key == "Delete" || e.key == "Backspace") && !IsTyping(e) {
      effects := DeleteSelected(c.connect.sel);
    }
    if e.key == "Escape" {
      effects := Escape(c);
    }
    if !IsTyping(e) && !IsCmdOrCtrl(e) {
      ToggleKey(c, e.key);
    }
  }

  /** `handleKeyDown` on the pen/connect/object-eraser canvas, with the focused editor's font
      size passed in. Cmd/Ctrl+D, N, P and E and the editor keys end the handler; any other
      key goes on to Delete/Backspace (not while typing), Escape, and the plain 'p' and 'c'
      toggles (not while typing, not with Cmd/Ctrl). */
  method HandleKeyDown(c: ModeCanvas.Canvas, e: KeyEvent, fontSize: Option<int>)
    returns (effects: seq<Effect>, prevented: bool)
    modifies c, c.connect, c.connect.sel
    ensures c.connect.connectSourceId == old(c.connect.connectSourceId)
    ensures c.connect.mouseX == old(c.connect.mouseX) && c.connect.mouseY == old(c.connect.mouseY)
    ensures c.connect.sel.activeEditor == old(c.connect.sel.activeEditor)
    // Cmd/Ctrl+D: delete the selection, even while typing.
    ensures IsCmdOrCtrl(e) && e.key == "d" ==>
              && prevented
              && effects == DeleteEffects(old(c.connect.sel.selectedObjectId), old(c.connect.sel.selectedConnectionId))
              && c.connect.sel.selectedObjectId ==
                   (if Truthy(old(c.connect.sel.selectedObjectId)) then None else old(c.connect.sel.selectedObjectId))
              && c.connect.sel.selectedConnectionId ==
                   (if Truthy(old(c.connect.sel.selectedConnectionId)) then None else old(c.connect.sel.selectedConnectionId))
              && c.isPenMode == old(c.isPenMode) && c.connect.isConnectMode == old(c.connect.isConnectMode)
              && c.isObjectEraserMode == old(c.isObjectEraserMode)
    // Cmd/Ctrl+N: a new block at the last pointer position.
    ensures IsCmdOrCtrl(e) && e.key == "n" ==>
              && prevented && effects == [AddBlock(old(c.connect.mouseX), old(c.connect.mouseY))]
              && c.connect.sel.selectedObjectId == old(c.connect.sel.selectedObjectId)
              && c.connect.sel.selectedConnectionId == old(c.connect.sel.selectedConnectionId)
              && c.isPenMode == old(c.isPenMode) && c.connect.isConnectMode == old(c.connect.isConnectMode)
              && c.isObjectEraserMode == old(c.isObjectEraserMode)
    // Cmd/Ctrl+P and Cmd/Ctrl+E force a mode on and the other two off.
    ensures IsCmdOrCtrl(e) && e.key == "p" ==>
              prevented && effects == [] && c.isPenMode && !c.connect.isConnectMode && !c.isObjectEraserMode
    ensures IsCmdOrCtrl(e) && e.key == "e" ==>
              prevented && effects == [] && !c.isPenMode && !c.connect.isConnectMode && c.isObjectEraserMode
    ensures IsCmdOrCtrl(e) && e.key in {"p", "e"} ==>
              && c.connect.sel.selectedObjectId == old(c.connect.sel.selectedObjectId)
              && c.connect.sel.selectedConnectionId == old(c.connect.sel.selectedConnectionId)
    // Editor keys: one command to the focused editor, or none for '-' at 8 or less.
    ensures !(IsCmdOrCtrl(e) && e.key in {"d", "n", "p", "e"}) && EditorKey(e, old(c.connect.sel.activeEditor)) ==>
              && prevented
              && effects ==
                   (var ed := old(c.connect.sel.activeEditor).value;
                    if e.key in {"+", "=", "-"}
                    then (var step := FontStep(e.key, CurrentFontSize(fontSize));
                          if step.Some? then [Edit(ed, SetFontSize(step.value))] else [])
                    else [Edit(ed, FormatCommand(e.key).value)])
              && c.connect.sel.selectedObjectId == old(c.connect.sel.selectedObjectId)
              && c.connect.sel.selectedConnectionId == old(c.connect.sel.selectedConnectionId)
              && c.isPenMode == old(c.isPenMode) && c.connect.isConnectMode == old(c.connect.isConnectMode)
              && c.isObjectEraserMode == old(c.isObjectEraserMode)
    // Every other key.
    ensures !(IsCmdOrCtrl(e) && e.key in {"d", "n", "p", "e"}) && !EditorKey(e, old(c.connect.sel.activeEditor)) ==>
              && !prevented
              && var deleting := (e.key == "Delete" || e.key == "Backspace") && !IsTyping(e);
                 && effects ==
                      (if deleting then DeleteEffects(old(c.connect.sel.selectedObjectId), old(c.connect.sel.selectedConnectionId)) else [])
                      + (if e.key == "Escape" && old(c.connect.sel.activeEditor).Some?
                         then [Edit(old(c.connect.sel.activeEditor).value, Blur)] else [])
                 && (e.key == "Escape" ==>
                       && c.connect.sel.selectedObjectId.None? && c.connect.sel.selectedConnectionId.None?
                       && !c.isPenMode && !c.connect.isConnectMode && !c.isObjectEraserMode)
                 && (deleting ==>
                       && c.connect.sel.selectedObjectId ==
                            (if Truthy(old(c.connect.sel.selectedObjectId)) then None else old(c.connect.sel.selectedObjectId))
                       && c.connect.sel.selectedConnectionId ==
                            (if Truthy(old(c.connect.sel.selectedConnectionId)) then None else old(c.connect.sel.selectedConnectionId)))
                 && (!deleting && e.key != "Escape" ==>
                       && c.connect.sel.selectedObjectId == old(c.connect.sel.selectedObjectId)
                       && c.connect.sel.selectedConnectionId == old(c.connect.sel.selectedConnectionId))
                 && var toggling := !IsTyping(e) && !IsCmdOrCtrl(e);
                    && (toggling && e.key == "p" ==>
                          c.isPenMode == !old(c.isPenMode) && !c.connect.isConnectMode && !c.isObjectEraserMode)
                    && (toggling && e.key == "c" ==>
                          c.connect.isConnectMode == !old(c.connect.isConnectMode) && !c.isPenMode && !c.isObjectEraserMode)
                    && (e.key != "Escape" && !(toggling && e.key in {"p", "c"}) ==>
                          && c.isPenMode == old(c.isPenMode) && c.connect.isConnectMode == old(c.connect.isConnectMode)
                          && c.isObjectEraserMode == old(c.isObjectEraserMode))
    ensures old(c.AtMostOneMode()) ==> c.AtMostOneMode()
  {
    var sel := c.connect.sel;
    var editor := sel.activeEditor;
    effects, prevented := [], false;

    if IsCmdOrCtrl(e) && e.key == "d" {
      prevented := true;
      effects := DeleteSelected(sel);
      return;
    }

    if IsCmdOrCtrl(e) && e.key == "n" {
      prevented := true;
      effects := [AddBlock(c.connect.mouseX, c.connect.mouseY)];
      return;
    }

    if IsCmdOrCtrl(e) && e.key == "p" {
      prevented := true;
      c.isPenMode := true;
      c.connect.isConnectMode := false;
      c.isObjectEraserMode := false;
      return;
    }

    if IsCmdOrCtrl(e) && e.key == "e" {
      prevented := true;
      c.isObjectEraserMode := true;
      c.isPenMode := false;
      c.connect.isConnectMode := false;
      return;
    }

    if editor.Some? && IsCmdOrCtrl(e) {
      if e.key == "+" || e.key == "=" {
        prevented := true;
        effects := [Edit(editor.value, SetFontSize(CurrentFontSize(fontSize) + 2))];
        return;
      }
      if e.key == "-" {
        prevented := true;
        var size := CurrentFontSize(fontSize);
        if size > 8 {
          effects := [Edit(editor.value, SetFontSize(size - 2))];
        }
        return;
      }
      var command := FormatCommand(e.key);
      if command.Some? {
        prevented := true;
        effects := [Edit(editor.value, command.value)];
        return;
      }
    }

    effects := OtherKey(c, e);
  }

  /** Pressing Escape and then Delete deletes nothing: Escape has dropped the selection. */
  method EscapeThenDelete(objectId: string) returns (effects: seq<Effect>)
    ensures effects == []
  {
    var c := new ModeCanvas.Canvas();
    c.connect.sel.BlockClick(objectId);
    var _, _ := HandleKeyDown(c, KeyEvent("Escape", false, false, OtherElement), None);
    var prevented;
    effects, prevented := HandleKeyDown(c, KeyEvent("Delete", false, false, OtherElement), None);
  }

  /** Delete while typing in a block deletes nothing, while Cmd+D deletes the selected block. */
  method DeleteWhileTyping(objectId: string) returns (plain: seq<Effect>, withCmd: seq<Effect>)
    requires objectId != ""
    ensures plain == [] && withCmd == [DeleteObject(objectId)]
  {
    var c := new ModeCanvas.Canvas();
    c.connect.sel.BlockClick(objectId);
    var prevented;
    plain, prevented := HandleKeyDown(c, KeyEvent("Backspace", false, false, ContentEditable), None);
    withCmd, prevented := HandleKeyDown(c, KeyEvent("d", true, false, ContentEditable), None);
  }
}
