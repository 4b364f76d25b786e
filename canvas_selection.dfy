/** The canvas selection hook (src/hooks/notebook/use-canvas-selection.ts): which block or
    connection is selected, and which block editor has focus. */
module CanvasSelection {
  import opened NoteTypes

  /** A block's rich-text editor, known only by a handle; blurring it is a call into the
      editor library and is reported to the caller instead. */
  type EditorHandle = nat

  class Selection {
    var selectedObjectId: Option<string>
    var selectedConnectionId: Option<string>
    var activeEditor: Option<EditorHandle>

    /** At most one of a block and a connection is selected. */
    predicate Exclusive()
      reads this
    {
      !(selectedObjectId.Some? && selectedConnectionId.Some?)
    }

    constructor()
      ensures selectedObjectId.None? && selectedConnectionId.None? && activeEditor.None?
      ensures Exclusive()
    {
      selectedObjectId, selectedConnectionId, activeEditor := None, None, None;
    }

    /** `handleBlockClick`: select the block, drop the connection selection. */
    method BlockClick(id: string)
      modifies this
      ensures selectedObjectId == Some(id) && selectedConnectionId.None?
      ensures activeEditor == old(activeEditor)
      ensures Exclusive()
    {
      selectedObjectId := Some(id);
      selectedConnectionId := None;
    }

    /** `handleConnectionClick`: select the connection, drop the block selection, and blur and
        forget the active editor; `blurred` is the editor that was blurred, if any. */
    method ConnectionClick(connectionId: string) returns (blurred: Option<EditorHandle>)
      modifies this
      ensures selectedConnectionId == Some(connectionId) && selectedObjectId.None?
      ensures activeEditor.None? && blurred == old(activeEditor)
      ensures Exclusive()
    {
      selectedConnectionId := Some(connectionId);
      selectedObjectId := None;
      blurred := None;
      if activeEditor.Some? {
        blurred := activeEditor;
        activeEditor := None;
      }
    }

    /** `handleBackgroundClick`: clear both selections, and blur and forget the active editor. */
    method BackgroundClick() returns (blurred: Option<EditorHandle>)
      modifies this
      ensures selectedObjectId.None? && selectedConnectionId.None?
      ensures activeEditor.None? && blurred == old(activeEditor)
      ensures Exclusive()
    {
      selectedObjectId := None;
      selectedConnectionId := None;
      blurred := None;
      if activeEditor.Some? {
        blurred := activeEditor;
        activeEditor := None;
      }
    }

    /** The focus listener `handleEditorReady` installs: focusing a block's editor selects the
        block, drops the connection selection and makes that editor the active one. */
    method EditorFocused(objectId: string, editor: EditorHandle)
      modifies this
      ensures selectedObjectId == Some(objectId) && selectedConnectionId.None?
      ensures activeEditor == Some(editor)
      ensures Exclusive()
    {
      selectedObjectId := Some(objectId);
      selectedConnectionId := None;
      activeEditor := Some(editor);
    }

    /** The exported `setSelectedObjectId` setter; it leaves the connection selection alone. */
    method SetSelectedObjectId(id: Option<string>)
      modifies this
      ensures selectedObjectId == id
      ensures selectedConnectionId == old(selectedConnectionId) && activeEditor == old(activeEditor)
    {
      selectedObjectId := id;
    }

    /** The exported `setSelectedConnectionId` setter; it leaves the block selection alone. */
    method SetSelectedConnectionId(id: Option<string>)
      modifies this
      ensures selectedConnectionId == id
      ensures selectedObjectId == old(selectedObjectId) && activeEditor == old(activeEditor)
    {
      selectedConnectionId := id;
    }
  }

  /** Typing in a block and then clicking a connection blurs that block's editor and leaves the
      connection as the only selection. */
  method FocusThenConnectionClick(objectId: string, editor: EditorHandle, connectionId: string)
    returns (blurred: Option<EditorHandle>, selectedObject: Option<string>, selectedConnection: Option<string>)
    ensures blurred == Some(editor)
    ensures selectedObject.None? && selectedConnection == Some(connectionId)
  {
    var s := new Selection();
    s.EditorFocused(objectId, editor);
    blurred := s.ConnectionClick(connectionId);
    selectedObject, selectedConnection := s.selectedObjectId, s.selectedConnectionId;
  }

  /** A background click after a block click leaves nothing selected and blurs nothing when no
      editor had focus. */
  method BlockThenBackgroundClick(id: string)
    returns (blurred: Option<EditorHandle>, selectedObject: Option<string>, selectedConnection: Option<string>)
    ensures blurred.None? && selectedObject.None? && selectedConnection.None?
  {
    var s := new Selection();
    s.BlockClick(id);
    blurred := s.BackgroundClick();
    selectedObject, selectedConnection := s.selectedObjectId, s.selectedConnectionId;
  }
}
