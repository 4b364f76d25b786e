/** The earlier notebook canvas (components/notebook/notebook-canvas.tsx): four exclusive
    modes (connect, pen, point eraser, object eraser) switched by keys and toolbar, a connect
    gesture without duplicate check that leaves connect mode after each edge, and the
    migration of pre-canvas pages into blocks. */
module LegacyCanvas {
  import opened NoteTypes
  import opened CanvasSelection
  import CanvasOperations
  import CanvasBackground

  /** The three drawing modes a key can switch. */
  datatype DrawMode = Pen | Eraser | ObjectEraser

  /** A key press: the key, Shift and Cmd/Ctrl, and whether focus is in a form field or
      editable content. */
  datatype Key = Key(key: string, shiftKey: bool, cmdOrCtrl: bool, typing: bool)

  /** The three text fields of a page written before the canvas existed. */
  datatype LegacyContent = LegacyContent(fact: Option<string>, abstraction: Option<string>, diversion: Option<string>)

  /** The block a migrated field becomes: fixed position and size in its own section. */
  function MigratedBlock(id: string, section: Section, content: string): (o: CanvasObject)
    ensures o.id == id && o.section == section && o.content == content && o.y == 50.0 && o.height == 300.0
  {
    match section
    case Abstraction => CanvasObject(id, Abstraction, content, 600.0, 50.0, 300.0, 300.0, None)
    case Diversion => CanvasObject(id, Diversion, content, 950.0, 50.0, 300.0, 300.0, None)
    case _ => CanvasObject(id, section, content, 50.0, 50.0, 400.0, 300.0, None)
  }

  /** The migration effect: a page with no blocks and some legacy text gets one block per
      non-empty field, in the order fact, abstraction, diversion; any other page is left alone.
      `ids` are the fresh ids, one per field. */
  method Migrate(page: NotePage, legacy: LegacyContent, ids: (string, string, string)) returns (update: Option<PagePatch>)
    ensures update.None? <==>
              !(|page.objects| == 0 && (Truthy(legacy.fact) || Truthy(legacy.abstraction) || Truthy(legacy.diversion)))
    ensures update.Some? ==>
              && update.value == NoPatch.(objects := update.value.objects)
              && update.value.objects ==
                   Some((if Truthy(legacy.fact) then [MigratedBlock(ids.0, Fact, legacy.fact.value)] else [])
                        + (if Truthy(legacy.abstraction) then [MigratedBlock(ids.1, Abstraction, legacy.abstraction.value)] else [])
                        + (if Truthy(legacy.diversion) then [MigratedBlock(ids.2, Diversion, legacy.diversion.value)] else []))
  {
    update := None;
    if |page.objects| == 0 && (Truthy(legacy.fact) || Truthy(legacy.abstraction) || Truthy(legacy.diversion)) {
      var newObjects: seq<CanvasObject> := [];
      if Truthy(legacy.fact) {
        newObjects := newObjects + [MigratedBlock(ids.0, Fact, legacy.fact.value)];
      }
      assert newObjects == (if Truthy(legacy.fact) then [MigratedBlock(ids.0, Fact, legacy.fact.value)] else []);
      if Truthy(legacy.abstraction) {
        newObjects := newObjects + [MigratedBlock(ids.1, Abstraction, legacy.abstraction.value)];
      }
      if Truthy(legacy.diversion) {
        newObjects := newObjects + [MigratedBlock(ids.2, Diversion, legacy.diversion.value)];
      }
      ghost var a := if Truthy(legacy.fact) then [MigratedBlock(ids.0, Fact, legacy.fact.value)] else [];
      ghost var b := if Truthy(legacy.abstraction) then [MigratedBlock(ids.1, Abstraction, legacy.abstraction.value)] else [];
      ghost var c := if Truthy(legacy.diversion) then [MigratedBlock(ids.2, Diversion, legacy.diversion.value)] else [];
      assert newObjects == a + b + c;
      if |newObjects| > 0 {
        update := Some(NoPatch.(objects := Some(newObjects)));
      }
    }
  }

  /** A page with all three legacy fields becomes three blocks, one per section, side by side. */
  method MigrateFullPage(page: NotePage, ids: (string, string, string)) returns (objects: seq<CanvasObject>)
    requires |page.objects| == 0
    ensures |objects| == 3
    ensures objects[0].section == Fact && objects[1].section == Abstraction && objects[2].section == Diversion
    ensures objects[0].x < objects[1].x < objects[2].x
  {
    var update := Migrate(page, LegacyContent(Some("f"), Some("a"), Some("d")), ids);
    objects := update.value.objects.value;
  }

  class Canvas {
    var selectedObjectId: Option<string>
    var selectedConnectionId: Option<string>
    var isConnectMode: bool
    var isPenMode: bool
    var isEraserMode: bool
    var isObjectEraserMode: bool
    var connectingFrom: Option<string>
    var activeEditor: Option<EditorHandle>
    var titleHeight: real
    var centerPosition: real
    var diversionPosition: real
    /** The installed keydown listener's closure: the mode values and the selection of the
        render in which it was installed. It is reinstalled only when the selection changes. */
    var listenerPen: bool
    var listenerEraser: bool
    var listenerObjectEraser: bool
    var listenerSelection: (Option<string>, Option<string>)

    /** At most one of the four modes is on. */
    predicate AtMostOneMode()
      reads this
    {
      (if isConnectMode then 1 else 0) + (if isPenMode then 1 else 0)
      + (if isEraserMode then 1 else 0) + (if isObjectEraserMode then 1 else 0) <= 1
    }

    constructor()
      ensures selectedObjectId.None? && selectedConnectionId.None? && connectingFrom.None? && activeEditor.None?
      ensures !isConnectMode && !isPenMode && !isEraserMode && !isObjectEraserMode
      ensures titleHeight == 10.0 && centerPosition == 50.0 && diversionPosition == 75.0
      ensures !listenerPen && !listenerEraser && !listenerObjectEraser && listenerSelection == (None, None)
      ensures AtMostOneMode()
    {
      selectedObjectId, selectedConnectionId, connectingFrom, activeEditor := None, None, None, None;
      isConnectMode, isPenMode, isEraserMode, isObjectEraserMode := false, false, false, false;
      titleHeight, centerPosition, diversionPosition := 10.0, 50.0, 75.0;
      listenerPen, listenerEraser, listenerObjectEraser := false, false, false;
      listenerSelection := (None, None);
    }

    /** The render after an event: the keydown effect, whose dependencies are the two selection
        ids, reinstalls the listener (capturing the current modes) only when they changed. */
    method Render()
      modifies this
      ensures listenerSelection == (selectedObjectId, selectedConnectionId)
      ensures old(listenerSelection) != (selectedObjectId, selectedConnectionId) ==>
                listenerPen == isPenMode && listenerEraser == isEraserMode && listenerObjectEraser == isObjectEraserMode
      ensures old(listenerSelection) == (selectedObjectId, selectedConnectionId) ==>
                && listenerPen == old(listenerPen) && listenerEraser == old(listenerEraser)
                && listenerObjectEraser == old(listenerObjectEraser)
      ensures selectedObjectId == old(selectedObjectId) && selectedConnectionId == old(selectedConnectionId)
      ensures isConnectMode == old(isConnectMode) && isPenMode == old(isPenMode)
      ensures isEraserMode == old(isEraserMode) && isObjectEraserMode == old(isObjectEraserMode)
      ensures connectingFrom == old(connectingFrom) && activeEditor == old(activeEditor)
    {
      if listenerSelection != (selectedObjectId, selectedConnectionId) {
        listenerPen, listenerEraser, listenerObjectEraser := isPenMode, isEraserMode, isObjectEraserMode;
        listenerSelection := (selectedObjectId, selectedConnectionId);
      }
    }

    /** Entering a drawing mode drops both selections and the active editor. */
    method ClearSelection()
      modifies this
      ensures selectedObjectId.None? && selectedConnectionId.None? && activeEditor.None?
      ensures ModesKept() && connectingFrom == old(connectingFrom) && ListenerKept()
    {
      selectedObjectId, selectedConnectionId, activeEditor := None, None, None;
    }

    /** A key switching a drawing mode: that mode is set to `on`, every other mode goes off,
        and turning it on drops the selection. */
    method SetDrawMode(m: DrawMode, on: bool)
      modifies this
      ensures isPenMode == (m == Pen && on) && isEraserMode == (m == Eraser && on)
      ensures isObjectEraserMode == (m == ObjectEraser && on) && !isConnectMode
      ensures connectingFrom == old(connectingFrom) && ListenerKept()
      ensures on ==> selectedObjectId.None? && selectedConnectionId.None? && activeEditor.None?
      ensures !on ==> SelectionKept()
      ensures AtMostOneMode()
    {
      isPenMode, isEraserMode, isObjectEraserMode := m == Pen && on, m == Eraser && on, m == ObjectEraser && on;
      isConnectMode := false;
      if on {
        ClearSelection();
      }
    }

    /** The keydown handler body, given the pen, eraser and object-eraser values it reads.
        'c' (either case) toggles connect from its current value and turns every other mode off;
        'p', 'e' and Shift+'e' set their mode to the negation of the value read, turn the others
        off and, when the mode goes on, drop the selection. Delete, Backspace or Cmd/Ctrl+'d'
        with something selected deletes the selected block, or else the selected connection.
        Nothing happens while typing. */
    method KeyDownReading(page: NotePage, k: Key, pen: bool, eraser: bool, objectEraser: bool)
      returns (update: Option<PagePatch>)
      modifies this
      ensures k.typing ==> update.None? && ModesKept() && SelectionKept() && connectingFrom == old(connectingFrom)
      ensures !k.typing && Lower(k.key) == "c" ==>
                && isConnectMode == !old(isConnectMode) && !isPenMode && !isEraserMode && !isObjectEraserMode
                && connectingFrom.None? && update.None? && SelectionKept()
      ensures !k.typing && Lower(k.key) == "p" ==>
                && isPenMode == !pen && !isConnectMode && !isEraserMode && !isObjectEraserMode
                && update.None? && connectingFrom == old(connectingFrom)
                && (isPenMode ==> selectedObjectId.None? && selectedConnectionId.None? && activeEditor.None?)
                && (!isPenMode ==> SelectionKept())
      ensures !k.typing && Lower(k.key) == "e" && k.shiftKey ==>
                && isObjectEraserMode == !objectEraser && !isConnectMode && !isPenMode && !isEraserMode
                && update.None? && connectingFrom == old(connectingFrom)
                && (isObjectEraserMode ==> selectedObjectId.None? && selectedConnectionId.None? && activeEditor.None?)
                && (!isObjectEraserMode ==> SelectionKept())
      ensures !k.typing && Lower(k.key) == "e" && !k.shiftKey ==>
                && isEraserMode == !eraser && !isConnectMode && !isPenMode && !isObjectEraserMode
                && update.None? && connectingFrom == old(connectingFrom)
                && (isEraserMode ==> selectedObjectId.None? && selectedConnectionId.None? && activeEditor.None?)
                && (!isEraserMode ==> SelectionKept())
      ensures !k.typing && Lower(k.key) !in {"c", "p", "e"} ==>
                && ModesKept()
                && var deleting := (k.key == "Delete" || k.key == "Backspace" || (Lower(k.key) == "d" && k.cmdOrCtrl))
                                   && (Truthy(old(selectedObjectId)) || Truthy(old(selectedConnectionId)));
                   && (deleting && Truthy(old(selectedObjectId)) ==>
                         && update == Some(CanvasOperations.DeleteObject(page, old(selectedObjectId).value))
                         && selectedObjectId.None? && activeEditor.None?
                         && selectedConnectionId == old(selectedConnectionId))
                   && (deleting && !Truthy(old(selectedObjectId)) ==>
                         update == Some(CanvasOperations.DeleteConnection(page, old(selectedConnectionId).value))
                         && SelectionKept())
                   && (!deleting ==> update.None? && SelectionKept())
      ensures old(AtMostOneMode()) ==> AtMostOneMode()
      ensures ListenerKept()
    {
      update := None;
      if k.typing {
        return;
      }
      var key := Lower(k.key);
      if key == "c" {
        isConnectMode := !isConnectMode;
        isPenMode, isEraserMode, isObjectEraserMode := false, false, false;
        connectingFrom := None;
      } else if key == "p" {
        SetDrawMode(Pen, !pen);
      } else if key == "e" {
        if k.shiftKey {
          SetDrawMode(ObjectEraser, !objectEraser);
        } else {
          SetDrawMode(Eraser, !eraser);
        }
      } else if (k.key == "Delete" || k.key == "Backspace" || (key == "d" && k.cmdOrCtrl))
                && (Truthy(selectedObjectId) || Truthy(selectedConnectionId)) {
        if Truthy(selectedObjectId) {
          update := DeleteObject(page, selectedObjectId.value);
        } else {
          update := Some(CanvasOperations.DeleteConnection(page, selectedConnectionId.value));
        }
      }
    }

    twostate predicate ModesKept()
      reads this
    {
      && isConnectMode == old(isConnectMode) && isPenMode == old(isPenMode)
      && isEraserMode == old(isEraserMode) && isObjectEraserMode == old(isObjectEraserMode)
    }

    twostate predicate SelectionKept()
      reads this
    {
      && selectedObjectId == old(selectedObjectId) && selectedConnectionId == old(selectedConnectionId)
      && activeEditor == old(activeEditor)
    }

    /** The installed keydown listener: the pen and eraser toggles read the modes captured when
        it was installed, not the current ones. */
    method KeyDown(page: NotePage, k: Key) returns (update: Option<PagePatch>)
      modifies this
      ensures !k.typing && Lower(k.key) == "p" ==> isPenMode == !old(listenerPen)
      ensures !k.typing && Lower(k.key) == "e" && !k.shiftKey ==> isEraserMode == !old(listenerEraser)
      ensures !k.typing && Lower(k.key) == "e" && k.shiftKey ==> isObjectEraserMode == !old(listenerObjectEraser)
      ensures !k.typing && Lower(k.key) == "c" ==> isConnectMode == !old(isConnectMode)
      ensures old(AtMostOneMode()) ==> AtMostOneMode()
      ensures !k.typing && Lower(k.key) == "p" ==>
                (isPenMode ==> selectedObjectId.None? && selectedConnectionId.None?) && (!isPenMode ==> SelectionKept())
      ensures ListenerKept()
    {
      update := KeyDownReading(page, k, listenerPen, listenerEraser, listenerObjectEraser);
    }

    /** The keydown handler reading the current modes, as the toolbar buttons do. */
    method KeyDownCurrent(page: NotePage, k: Key) returns (update: Option<PagePatch>)
      modifies this
      ensures !k.typing && Lower(k.key) == "p" ==> isPenMode == !old(isPenMode)
      ensures !k.typing && Lower(k.key) == "e" && !k.shiftKey ==> isEraserMode == !old(isEraserMode)
      ensures !k.typing && Lower(k.key) == "e" && k.shiftKey ==> isObjectEraserMode == !old(isObjectEraserMode)
      ensures !k.typing && Lower(k.key) == "c" ==> isConnectMode == !old(isConnectMode)
      ensures !k.typing && Lower(k.key) == "p" ==>
                (isPenMode ==> selectedObjectId.None? && selectedConnectionId.None?) && (!isPenMode ==> SelectionKept())
      ensures old(AtMostOneMode()) ==> AtMostOneMode()
      ensures ListenerKept()
    {
      update := KeyDownReading(page, k, isPenMode, isEraserMode, isObjectEraserMode);
    }

    /** `handleDeleteObject`: the block and its connections go in one patch; a selected block
        is deselected and the editor dropped. */
    method DeleteObject(page: NotePage, objectId: string) returns (update: Option<PagePatch>)
      modifies this
      ensures update == Some(CanvasOperations.DeleteObject(page, objectId))
      ensures old(selectedObjectId) == Some(objectId) ==> selectedObjectId.None? && activeEditor.None?
      ensures old(selectedObjectId) != Some(objectId) ==>
                selectedObjectId == old(selectedObjectId) && activeEditor == old(activeEditor)
      ensures selectedConnectionId == old(selectedConnectionId)
      ensures ModesKept() && connectingFrom == old(connectingFrom) && ListenerKept()
    {
      update := Some(CanvasOperations.DeleteObject(page, objectId));
      if selectedObjectId == Some(objectId) {
        selectedObjectId, activeEditor := None, None;
      }
    }

    /** `handleBlockClick`. In connect mode the first click records the source; a click on a
        different block appends a hand-drawn line from the source (without looking for an
        existing one), clears the source and leaves connect mode; a click on the source itself
        changes nothing. Outside connect mode and pen mode the block is selected. */
    method BlockClick(page: NotePage, id: string, freshId: string) returns (update: Option<PagePatch>)
      modifies this
      ensures isPenMode == old(isPenMode) && isEraserMode == old(isEraserMode)
      ensures isObjectEraserMode == old(isObjectEraserMode) && activeEditor == old(activeEditor)
      ensures ListenerKept()
      ensures old(isConnectMode) && old(connectingFrom).None? ==>
                update.None? && connectingFrom == Some(id) && isConnectMode && SelectionKept()
      ensures old(isConnectMode) && old(connectingFrom).Some? && old(connectingFrom).value != id ==>
                && update == Some(NoPatch.(connections := Some(page.connections
                                    + [Connection(freshId, old(connectingFrom).value, id, Line, HandDrawn)])))
                && connectingFrom.None? && !isConnectMode && SelectionKept()
      ensures old(isConnectMode) && old(connectingFrom) == Some(id) ==>
                update.None? && connectingFrom == Some(id) && isConnectMode && SelectionKept()
      ensures !old(isConnectMode) ==> update.None? && !isConnectMode && connectingFrom == old(connectingFrom)
      ensures !old(isConnectMode) && !old(isPenMode) ==>
                selectedObjectId == Some(id) && selectedConnectionId.None?
      ensures !old(isConnectMode) && old(isPenMode) ==> SelectionKept()
      ensures old(AtMostOneMode()) ==> AtMostOneMode()
    {
      update := None;
      if isConnectMode {
        if connectingFrom.None? {
          connectingFrom := Some(id);
        } else if connectingFrom.value != id {
          var c := Connection(freshId, connectingFrom.value, id, Line, HandDrawn);
          update := Some(NoPatch.(connections := Some(page.connections + [c])));
          connectingFrom := None;
          isConnectMode := false;
        }
      } else if !isPenMode {
        selectedObjectId := Some(id);
        selectedConnectionId := None;
      }
    }

    /** `handleConnectionClick`: outside pen and connect mode the connection becomes the only
        selection and the editor is dropped. */
    method ConnectionClick(connectionId: string)
      modifies this
      ensures ModesKept() && connectingFrom == old(connectingFrom) && ListenerKept()
      ensures !isPenMode && !isConnectMode ==>
                selectedConnectionId == Some(connectionId) && selectedObjectId.None? && activeEditor.None?
      ensures isPenMode || isConnectMode ==> SelectionKept()
    {
      if !isPenMode && !isConnectMode {
        selectedConnectionId := Some(connectionId);
        selectedObjectId := None;
        activeEditor := None;
      }
    }

    /** A click on the canvas background: outside pen mode both selections are dropped; in
        connect mode the pending source is dropped and connect mode ends. */
    method BackgroundClick()
      modifies this
      ensures isPenMode == old(isPenMode) && isEraserMode == old(isEraserMode)
      ensures isObjectEraserMode == old(isObjectEraserMode) && activeEditor == old(activeEditor)
      ensures ListenerKept()
      ensures !isPenMode ==> selectedObjectId.None? && selectedConnectionId.None?
      ensures isPenMode ==> selectedObjectId == old(selectedObjectId) && selectedConnectionId == old(selectedConnectionId)
      ensures old(isConnectMode) ==> connectingFrom.None? && !isConnectMode
      ensures !old(isConnectMode) ==> connectingFrom == old(connectingFrom) && !isConnectMode
      ensures old(AtMostOneMode()) ==> AtMostOneMode()
    {
      if !isPenMode {
        selectedObjectId, selectedConnectionId := None, None;
      }
      if isConnectMode {
        connectingFrom := None;
        isConnectMode := false;
      }
    }

    /** `handleAddBlock`: outside pen and connect mode, a double click on the background (with
        the container present) appends a 200 x 100 fact block whose top-left corner is at the
        pointer, and selects it. */
    method AddBlock(page: NotePage, onBackground: bool, hasContainer: bool, x: real, y: real, freshId: string)
      returns (update: Option<PagePatch>)
      modifies this
      ensures ModesKept() && connectingFrom == old(connectingFrom) && ListenerKept()
      ensures selectedConnectionId == old(selectedConnectionId) && activeEditor == old(activeEditor)
      ensures update.Some? <==> !old(isPenMode) && !old(isConnectMode) && onBackground && hasContainer
      ensures update.Some? ==>
                && update.value == NoPatch.(objects := Some(page.objects + [CanvasObject(freshId, Fact, "", x, y, 200.0, 100.0, None)]))
                && selectedObjectId == Some(freshId)
      ensures update.None? ==> selectedObjectId == old(selectedObjectId)
    {
      if isPenMode || isConnectMode || !onBackground || !hasContainer {
        return None;
      }
      var o := CanvasObject(freshId, Fact, "", x, y, 200.0, 100.0, None);
      update := Some(NoPatch.(objects := Some(page.objects + [o])));
      selectedObjectId := Some(freshId);
    }

    /** The toolbar's connect toggle: connect flips from its current value and every other mode
        goes off; the pending source is kept. */
    method ToolbarToggleConnect()
      modifies this
      ensures isConnectMode == !old(isConnectMode) && !isPenMode && !isEraserMode && !isObjectEraserMode
      ensures SelectionKept() && connectingFrom == old(connectingFrom) && ListenerKept()
    {
      isConnectMode := !isConnectMode;
      isPenMode, isEraserMode, isObjectEraserMode := false, false, false;
    }

    /** The toolbar's pen toggle: as the 'p' key, reading the current pen mode. */
    method ToolbarTogglePen()
      modifies this
      ensures isPenMode == !old(isPenMode) && !isConnectMode && !isEraserMode && !isObjectEraserMode
      ensures isPenMode ==> selectedObjectId.None? && selectedConnectionId.None? && activeEditor.None?
      ensures !isPenMode ==> SelectionKept()
      ensures connectingFrom == old(connectingFrom) && ListenerKept()
    {
      var newPenMode := !isPenMode;
      isPenMode := newPenMode;
      isConnectMode, isEraserMode, isObjectEraserMode := false, false, false;
      if newPenMode {
        ClearSelection();
      }
    }

    /** The toolbar's eraser toggle, reading the current eraser mode. */
    method ToolbarToggleEraser()
      modifies this
      ensures isEraserMode == !old(isEraserMode) && !isConnectMode && !isPenMode && !isObjectEraserMode
      ensures isEraserMode ==> selectedObjectId.None? && selectedConnectionId.None? && activeEditor.None?
      ensures !isEraserMode ==> SelectionKept()
      ensures connectingFrom == old(connectingFrom) && ListenerKept()
    {
      var newMode := !isEraserMode;
      isEraserMode := newMode;
      isObjectEraserMode, isPenMode, isConnectMode := false, false, false;
      if newMode {
        ClearSelection();
      }
    }

    /** The toolbar's object-eraser toggle, reading the current object-eraser mode. */
    method ToolbarToggleObjectEraser()
      modifies this
      ensures isObjectEraserMode == !old(isObjectEraserMode) && !isConnectMode && !isPenMode && !isEraserMode
      ensures isObjectEraserMode ==> selectedObjectId.None? && selectedConnectionId.None? && activeEditor.None?
      ensures !isObjectEraserMode ==> SelectionKept()
      ensures connectingFrom == old(connectingFrom) && ListenerKept()
    {
      var newMode := !isObjectEraserMode;
      isObjectEraserMode := newMode;
      isEraserMode, isPenMode, isConnectMode := false, false, false;
      if newMode {
        ClearSelection();
      }
    }

    /** The toolbar's delete: the selected block if there is one, otherwise the selected
        connection. */
    method ToolbarDelete(page: NotePage) returns (update: Option<PagePatch>)
      modifies this
      ensures ModesKept() && connectingFrom == old(connectingFrom) && ListenerKept()
      ensures Truthy(old(selectedObjectId)) ==>
                update == Some(CanvasOperations.DeleteObject(page, old(selectedObjectId).value))
                && selectedObjectId.None? && activeEditor.None?
      ensures !Truthy(old(selectedObjectId)) && Truthy(old(selectedConnectionId)) ==>
                update == Some(CanvasOperations.DeleteConnection(page, old(selectedConnectionId).value)) && SelectionKept()
      ensures !Truthy(old(selectedObjectId)) && !Truthy(old(selectedConnectionId)) ==> update.None? && SelectionKept()
      ensures selectedConnectionId == old(selectedConnectionId)
    {
      update := None;
      if Truthy(selectedObjectId) {
        update := DeleteObject(page, selectedObjectId.value);
      } else if Truthy(selectedConnectionId) {
        update := Some(CanvasOperations.DeleteConnection(page, selectedConnectionId.value));
      }
    }

    /** `handleBoundaryChange`: only the named position changes, and only locally. */
    method BoundaryChange(b: CanvasBackground.Boundary, value: real)
      modifies this
      ensures titleHeight == (if b.TitleBoundary? then value else old(titleHeight))
      ensures centerPosition == (if b.CenterBoundary? then value else old(centerPosition))
      ensures diversionPosition == (if b.DiversionBoundary? then value else old(diversionPosition))
      ensures ModesKept() && SelectionKept() && connectingFrom == old(connectingFrom) && ListenerKept()
    {
      match b
      case TitleBoundary =>
        titleHeight := value;
      case CenterBoundary =>
        centerPosition := value;
      case DiversionBoundary =>
        diversionPosition := value;
    }

    twostate predicate ListenerKept()
      reads this
    {
      && listenerPen == old(listenerPen) && listenerEraser == old(listenerEraser)
      && listenerObjectEraser == old(listenerObjectEraser) && listenerSelection == old(listenerSelection)
    }
  }

  /** With nothing selected, pressing 'p' twice leaves pen mode on: the first press selects
      nothing new, so the listener is not reinstalled and the second press reads the pen mode
      as still off. */
  method PenKeyTwice(page: NotePage) returns (penAfterFirst: bool, penAfterSecond: bool)
    ensures penAfterFirst && penAfterSecond
  {
    var c := new Canvas();
    var _ := c.KeyDown(page, Key("p", false, false, false));
    c.Render();
    penAfterFirst := c.isPenMode;
    var _ := c.KeyDown(page, Key("p", false, false, false));
    c.Render();
    penAfterSecond := c.isPenMode;
  }

  /** Reading the current modes, the second 'p' turns pen mode off again. */
  method PenKeyTwiceCurrent(page: NotePage) returns (penAfterFirst: bool, penAfterSecond: bool)
    ensures penAfterFirst && !penAfterSecond
  {
    var c := new Canvas();
    var _ := c.KeyDownCurrent(page, Key("p", false, false, false));
    c.Render();
    penAfterFirst := c.isPenMode;
    var _ := c.KeyDownCurrent(page, Key("p", false, false, false));
    c.Render();
    penAfterSecond := c.isPenMode;
  }

  /** The legacy connect gesture leaves connect mode after one edge, and repeating it on the
      updated page joins the same pair a second time: nothing looks for an existing edge. */
  method ConnectTwice(page: NotePage, a: string, b: string) returns (after: NotePage)
    requires a != b
    ensures after.connections ==
              page.connections + [Connection("e1", a, b, Line, HandDrawn), Connection("e2", a, b, Line, HandDrawn)]
  {
    var c := new Canvas();
    c.ToolbarToggleConnect();
    var _ := c.BlockClick(page, a, "e1");
    var first := c.BlockClick(page, b, "e1");
    var middle := ApplyPatch(page, first.value);
    c.ToolbarToggleConnect();
    var _ := c.BlockClick(middle, a, "e2");
    var second := c.BlockClick(middle, b, "e2");
    after := ApplyPatch(middle, second.value);
  }
}
