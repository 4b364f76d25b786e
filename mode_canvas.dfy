/** The canvas with pen and object-eraser modes (src/components/features/notebook/notebook-canvas.tsx):
    three mutually exclusive modes switched from the toolbar, on top of the same connect
    gesture and selection deletion as the connect-mode canvas. */
module ModeCanvas {
  import opened NoteTypes
  import opened CanvasSelection
  import NotebookCanvas
  import CanvasOperations

  class Canvas {
    var isPenMode: bool
    var isObjectEraserMode: bool
    /** Connect mode, the pending source, the pointer position and the selection; the
        connect gesture and selection deletion are written exactly as in the connect-mode canvas. */
    const connect: NotebookCanvas.Canvas

    /** At most one of pen, connect and object-eraser mode is on. */
    predicate AtMostOneMode()
      reads this, connect
    {
      && !(isPenMode && connect.isConnectMode)
      && !(isPenMode && isObjectEraserMode)
      && !(connect.isConnectMode && isObjectEraserMode)
    }

    constructor()
      ensures !isPenMode && !isObjectEraserMode && fresh(connect) && fresh(connect.sel)
      ensures !connect.isConnectMode && connect.connectSourceId.None?
      ensures connect.mouseX == 100.0 && connect.mouseY == 100.0
      ensures connect.sel.selectedObjectId.None? && connect.sel.selectedConnectionId.None?
      ensures connect.sel.activeEditor.None?
      ensures AtMostOneMode()
    {
      isPenMode, isObjectEraserMode := false, false;
      connect := new NotebookCanvas.Canvas();
    }

    /** The toolbar's pen toggle: turning pen on turns connect and object-eraser off and drops
        the pending source; the selection is not touched. */
    method TogglePenMode()
      modifies this, connect
      ensures isPenMode == !old(isPenMode)
      ensures !old(isPenMode) ==> !connect.isConnectMode && !isObjectEraserMode && connect.connectSourceId.None?
      ensures old(isPenMode) ==>
                && connect.isConnectMode == old(connect.isConnectMode)
                && isObjectEraserMode == old(isObjectEraserMode)
                && connect.connectSourceId == old(connect.connectSourceId)
      ensures connect.mouseX == old(connect.mouseX) && connect.mouseY == old(connect.mouseY)
      ensures old(AtMostOneMode()) ==> AtMostOneMode()
    {
      var wasPen := isPenMode;
      isPenMode := !wasPen;
      if !wasPen {
        connect.isConnectMode := false;
        isObjectEraserMode := false;
        connect.connectSourceId := None;
      }
    }

    /** The toolbar's connect toggle: turning connect on turns pen and object-eraser off and
        drops the block selection and the pending source; turning it off drops the source. */
    method ToggleConnectMode()
      modifies this, connect, connect.sel
      ensures connect.isConnectMode == !old(connect.isConnectMode) && connect.connectSourceId.None?
      ensures !old(connect.isConnectMode) ==>
                !isPenMode && !isObjectEraserMode && connect.sel.selectedObjectId.None?
      ensures old(connect.isConnectMode) ==>
                && isPenMode == old(isPenMode) && isObjectEraserMode == old(isObjectEraserMode)
                && connect.sel.selectedObjectId == old(connect.sel.selectedObjectId)
      ensures connect.sel.selectedConnectionId == old(connect.sel.selectedConnectionId)
      ensures connect.sel.activeEditor == old(connect.sel.activeEditor)
      ensures old(AtMostOneMode()) ==> AtMostOneMode()
    {
      if !connect.isConnectMode {
        isPenMode := false;
        isObjectEraserMode := false;
      }
      connect.ToggleConnectMode();
    }

    /** The toolbar's object-eraser toggle: turning it on turns pen and connect off and drops the
        pending source. */
    method ToggleObjectEraserMode()
      modifies this, connect
      ensures isObjectEraserMode == !old(isObjectEraserMode)
      ensures !old(isObjectEraserMode) ==> !isPenMode && !connect.isConnectMode && connect.connectSourceId.None?
      ensures old(isObjectEraserMode) ==>
                && isPenMode == old(isPenMode) && connect.isConnectMode == old(connect.isConnectMode)
                && connect.connectSourceId == old(connect.connectSourceId)
      ensures connect.mouseX == old(connect.mouseX) && connect.mouseY == old(connect.mouseY)
      ensures old(AtMostOneMode()) ==> AtMostOneMode()
    {
      var wasEraser := isObjectEraserMode;
      isObjectEraserMode := !wasEraser;
      if !wasEraser {
        isPenMode := false;
        connect.isConnectMode := false;
        connect.connectSourceId := None;
      }
    }

    /** `onBlockClick`: the same connect gesture; pen and object-eraser mode are left alone. */
    method OnBlockClick(page: NotePage, id: string, freshId: string) returns (update: Option<PagePatch>)
      modifies connect, connect.sel
      ensures isPenMode == old(isPenMode) && isObjectEraserMode == old(isObjectEraserMode)
      ensures connect.isConnectMode == old(connect.isConnectMode)
      ensures !old(connect.isConnectMode) ==>
                && update.None? && connect.connectSourceId == old(connect.connectSourceId)
                && connect.sel.selectedObjectId == Some(id) && connect.sel.selectedConnectionId.None?
      ensures old(connect.isConnectMode) && !Truthy(old(connect.connectSourceId)) ==>
                && update.None? && connect.connectSourceId == Some(id)
                && connect.sel.selectedObjectId == Some(id)
                && connect.sel.selectedConnectionId == old(connect.sel.selectedConnectionId)
      ensures old(connect.isConnectMode) && Truthy(old(connect.connectSourceId)) ==>
                && connect.connectSourceId.None? && connect.sel.selectedObjectId.None?
                && connect.sel.selectedConnectionId == old(connect.sel.selectedConnectionId)
                && update == (if old(connect.connectSourceId).value != id
                              then NotebookCanvas.ConnectPatch(page, old(connect.connectSourceId).value, id, freshId)
                              else None)
      ensures old(AtMostOneMode()) ==> AtMostOneMode()
    {
      update := connect.OnBlockClick(page, id, freshId);
    }

    /** `handleDeleteSelection`: the same two patches, each built from the page as it is. */
    method DeleteSelection(page: NotePage) returns (patches: seq<PagePatch>)
      modifies connect.sel
      ensures isPenMode == old(isPenMode) && isObjectEraserMode == old(isObjectEraserMode)
      ensures patches ==
                (if Truthy(old(connect.sel.selectedObjectId))
                 then [CanvasOperations.DeleteObject(page, old(connect.sel.selectedObjectId).value)] else [])
                + (if Truthy(old(connect.sel.selectedConnectionId))
                   then [CanvasOperations.DeleteConnection(page, old(connect.sel.selectedConnectionId).value)] else [])
      ensures Truthy(old(connect.sel.selectedObjectId)) ==> connect.sel.selectedObjectId.None?
      ensures Truthy(old(connect.sel.selectedConnectionId)) ==> connect.sel.selectedConnectionId.None?
    {
      patches := connect.DeleteSelection(page);
    }
  }

  /** Pen on, then connect on: connect is the only mode left on. */
  method PenThenConnect() returns (pen: bool, connectMode: bool, eraser: bool)
    ensures !pen && connectMode && !eraser
  {
    var c := new Canvas();
    c.TogglePenMode();
    c.ToggleConnectMode();
    pen, connectMode, eraser := c.isPenMode, c.connect.isConnectMode, c.isObjectEraserMode;
  }

  /** Object eraser on, then pen on, then pen off: no mode is left on. */
  method EraserThenPenTwice() returns (pen: bool, connectMode: bool, eraser: bool)
    ensures !pen && !connectMode && !eraser
  {
    var c := new Canvas();
    c.ToggleObjectEraserMode();
    c.TogglePenMode();
    c.TogglePenMode();
    pen, connectMode, eraser := c.isPenMode, c.connect.isConnectMode, c.isObjectEraserMode;
  }
}
