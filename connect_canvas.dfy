/** The notebook canvas (src/features/notebook/components/canvas/notebook-canvas.tsx): connect
    mode, the two-click connect gesture and deletion of the current selection. */
module NotebookCanvas {
  import opened NoteTypes
  import opened CanvasSelection
  import opened CanvasOperations

  /** The connection joins the two blocks, in either direction. */
  predicate Links(c: Connection, a: string, b: string) {
    (c.fromObjectId == a && c.toObjectId == b) || (c.fromObjectId == b && c.toObjectId == a)
  }

  /** Some connection already joins the two blocks. */
  predicate Linked(conns: seq<Connection>, a: string, b: string) {
    exists c :: c in conns && Links(c, a, b)
  }

  /** No two connections join the same pair of blocks, whatever their directions. */
  predicate PairsUnique(conns: seq<Connection>) {
    forall i, j :: 0 <= i < j < |conns| ==> !Links(conns[j], conns[i].fromObjectId, conns[i].toObjectId)
  }

  /** The second click of the connect gesture: a new solid arrow from the source to the
      clicked block, appended to the page's connections, unless the pair is already joined. */
  function ConnectPatch(page: NotePage, source: string, target: string, freshId: string): (u: Option<PagePatch>)
    ensures u.None? <==> Linked(page.connections, source, target)
    ensures u.Some? ==>
              && u.value == NoPatch.(connections := u.value.connections)
              && u.value.connections.Some?
              && var cs := u.value.connections.value;
                 && |cs| == |page.connections| + 1
                 && cs[..|page.connections|] == page.connections
                 && cs[|page.connections|] == Connection(freshId, source, target, Arrow, Solid)
  {
    if Linked(page.connections, source, target) then None
    else
      var cs := page.connections + [Connection(freshId, source, target, Arrow, Solid)];
      assert cs[..|page.connections|] == page.connections;
      Some(NoPatch.(connections := Some(cs)))
  }

  /** Connecting never joins a pair of blocks twice. */
  lemma {:induction false} ConnectKeepsPairsUnique(page: NotePage, source: string, target: string, freshId: string)
    requires PairsUnique(page.connections)
    requires ConnectPatch(page, source, target, freshId).Some?
    ensures var after := ApplyPatch(page, ConnectPatch(page, source, target, freshId).value);
            PairsUnique(after.connections)
  {
    var after := ApplyPatch(page, ConnectPatch(page, source, target, freshId).value);
    var n := |page.connections|;
    forall i, j | 0 <= i < j < |after.connections|
      ensures !Links(after.connections[j], after.connections[i].fromObjectId, after.connections[i].toObjectId)
    {
      if j == n {
        assert after.connections[i] == page.connections[i];
        assert page.connections[i] in page.connections;
        if Links(after.connections[j], after.connections[i].fromObjectId, after.connections[i].toObjectId) {
          assert Links(page.connections[i], source, target);
          assert false;
        }
      } else {
        assert after.connections[i] == page.connections[i] && after.connections[j] == page.connections[j];
      }
    }
  }

  /** Connecting two existing blocks keeps the page free of dangling connections. */
  lemma ConnectKeepsNoDangling(page: NotePage, source: string, target: string, freshId: string)
    requires NoDangling(page.objects, page.connections)
    requires source in ObjectIds(page.objects) && target in ObjectIds(page.objects)
    requires ConnectPatch(page, source, target, freshId).Some?
    ensures var after := ApplyPatch(page, ConnectPatch(page, source, target, freshId).value);
            NoDangling(after.objects, after.connections)
  {
    var after := ApplyPatch(page, ConnectPatch(page, source, target, freshId).value);
    forall c | c in after.connections
      ensures c.fromObjectId in ObjectIds(after.objects) && c.toObjectId in ObjectIds(after.objects)
    {
      if c != Connection(freshId, source, target, Arrow, Solid) {
        assert c in after.connections[..|page.connections|];
      }
    }
  }

  class Canvas {
    var isConnectMode: bool
    var connectSourceId: Option<string>
    /** The last pointer position over the canvas, in canvas coordinates (`mousePositionRef`). */
    var mouseX: real
    var mouseY: real
    const sel: Selection

    constructor()
      ensures !isConnectMode && connectSourceId.None? && mouseX == 100.0 && mouseY == 100.0
      ensures fresh(sel)
      ensures sel.selectedObjectId.None? && sel.selectedConnectionId.None? && sel.activeEditor.None?
    {
      isConnectMode, connectSourceId := false, None;
      mouseX, mouseY := 100.0, 100.0;
      sel := new Selection();
    }

    /** `handleMouseMove`, given the pointer already converted to canvas coordinates. */
    method MouseMove(x: real, y: real)
      modifies this
      ensures mouseX == x && mouseY == y
      ensures isConnectMode == old(isConnectMode) && connectSourceId == old(connectSourceId)
    {
      mouseX, mouseY := x, y;
    }

    /** `handleToggleConnectMode`: the pending source is always dropped; turning the mode on also
        drops the block selection. */
    method ToggleConnectMode()
      modifies this, sel
      ensures isConnectMode == !old(isConnectMode) && connectSourceId.None?
      ensures !old(isConnectMode) ==> sel.selectedObjectId.None?
      ensures old(isConnectMode) ==> sel.selectedObjectId == old(sel.selectedObjectId)
      ensures sel.selectedConnectionId == old(sel.selectedConnectionId) && sel.activeEditor == old(sel.activeEditor)
      ensures mouseX == old(mouseX) && mouseY == old(mouseY)
    {
      connectSourceId := None;
      if !isConnectMode {
        sel.SetSelectedObjectId(None);
      }
      isConnectMode := !isConnectMode;
    }

    /** `onBlockClick`. In connect mode the first click makes the block the pending source and
        selects it; a click on another block emits the connect patch (if the pair is not joined
        yet) and drops source and selection; a click on the source itself only drops them.
        Connect mode stays on. Outside connect mode the click is an ordinary block selection. */
    method OnBlockClick(page: NotePage, id: string, freshId: string) returns (update: Option<PagePatch>)
      modifies this, sel
      ensures isConnectMode == old(isConnectMode) && mouseX == old(mouseX) && mouseY == old(mouseY)
      ensures sel.activeEditor == old(sel.activeEditor)
      ensures !old(isConnectMode) ==>
                && update.None? && connectSourceId == old(connectSourceId)
                && sel.selectedObjectId == Some(id) && sel.selectedConnectionId.None?
      ensures old(isConnectMode) && !Truthy(old(connectSourceId)) ==>
                && update.None? && connectSourceId == Some(id)
                && sel.selectedObjectId == Some(id) && sel.selectedConnectionId == old(sel.selectedConnectionId)
      ensures old(isConnectMode) && Truthy(old(connectSourceId)) ==>
                && connectSourceId.None? && sel.selectedObjectId.None?
                && sel.selectedConnectionId == old(sel.selectedConnectionId)
                && update == (if old(connectSourceId).value != id
                              then ConnectPatch(page, old(connectSourceId).value, id, freshId)
                              else None)
    {
      update := None;
      if isConnectMode {
        if !Truthy(connectSourceId) {
          connectSourceId := Some(id);
          sel.SetSelectedObjectId(Some(id));
        } else {
          if connectSourceId.value != id {
            update := ConnectPatch(page, connectSourceId.value, id, freshId);
            connectSourceId := None;
            sel.SetSelectedObjectId(None);
          } else {
            connectSourceId := None;
            sel.SetSelectedObjectId(None);
          }
        }
      } else {
        sel.BlockClick(id);
      }
    }

    /** `handleDeleteSelection`: a delete patch for the selected block and then one for the
        selected connection, each computed from the same page, and each deleted id cleared. */
    method DeleteSelection(page: NotePage) returns (patches: seq<PagePatch>)
      modifies sel
      ensures patches ==
                (if Truthy(old(sel.selectedObjectId)) then [DeleteObject(page, old(sel.selectedObjectId).value)] else [])
                + (if Truthy(old(sel.selectedConnectionId)) then [DeleteConnection(page, old(sel.selectedConnectionId).value)] else [])
      ensures sel.selectedObjectId == (if Truthy(old(sel.selectedObjectId)) then None else old(sel.selectedObjectId))
      ensures sel.selectedConnectionId == (if Truthy(old(sel.selectedConnectionId)) then None else old(sel.selectedConnectionId))
      ensures sel.activeEditor == old(sel.activeEditor)
    {
      var objectId := sel.selectedObjectId;
      var connectionId := sel.selectedConnectionId;
      patches := [];
      if Truthy(objectId) {
        patches := patches + [DeleteObject(page, objectId.value)];
        sel.SetSelectedObjectId(None);
      }
      if Truthy(connectionId) {
        patches := patches + [DeleteConnection(page, connectionId.value)];
        sel.SetSelectedConnectionId(None);
      }
    }
  }

  /** The first click of the connect gesture selects the source block without dropping the
      connection selection, so a block and a connection can be selected together. */
  method ConnectClickAfterConnectionClick(page: NotePage, connectionId: string, blockId: string, freshId: string)
    returns (selectedObject: Option<string>, selectedConnection: Option<string>)
    ensures selectedObject == Some(blockId) && selectedConnection == Some(connectionId)
  {
    var canvas := new Canvas();
    var _ := canvas.sel.ConnectionClick(connectionId);
    canvas.ToggleConnectMode();
    var _ := canvas.OnBlockClick(page, blockId, freshId);
    selectedObject, selectedConnection := canvas.sel.selectedObjectId, canvas.sel.selectedConnectionId;
  }

  // Deleting a block and a connection that are selected together.

  /** Blocks A, B, C joined A -> B by c1 and B -> C by c2. */
  function ThreeBlockPage(): NotePage {
    var a := CanvasObject("A", Fact, "", 0.0, 0.0, 100.0, 100.0, None);
    var b := CanvasObject("B", Fact, "", 200.0, 0.0, 100.0, 100.0, None);
    var c := CanvasObject("C", Fact, "", 400.0, 0.0, 100.0, 100.0, None);
    NotePage("p", "default", "", [], 0, 0, None, None, [a, b, c],
             [Connection("c1", "A", "B", Arrow, Solid), Connection("c2", "B", "C", Arrow, Solid)], [], None)
  }

  /** As written, the two patches of a block-and-connection deletion, applied in turn, leave
      every other connection of the deleted block in place: the second patch restores the
      connections the first one removed. */
  lemma {:induction false} TwoPatchDeleteKeepsTouching(page: NotePage, objectId: string, connectionId: string, c: Connection)
    requires c in page.connections && Touching(c, objectId) && c.id != connectionId
    ensures var after := ApplyPatches(page, [DeleteObject(page, objectId), DeleteConnection(page, connectionId)]);
            && objectId !in ObjectIds(after.objects)
            && c in after.connections
            && !NoDangling(after.objects, after.connections)
  {
    var p0 := DeleteObject(page, objectId);
    var p1 := DeleteConnection(page, connectionId);
    var first := ApplyPatch(page, p0);
    var second := ApplyPatch(first, p1);
    assert [p0, p1][1..] == [p1];
    assert ApplyPatches(first, [p1]) == ApplyPatches(second, []);
    assert ApplyPatches(page, [p0, p1]) == second;
    assert second.objects == RemoveObject(page.objects, objectId);
    assert second.connections == RemoveConnection(page.connections, connectionId);
    assert objectId !in ObjectIds(second.objects);
    assert c in second.connections;
    assert !(c.fromObjectId in ObjectIds(second.objects) && c.toObjectId in ObjectIds(second.objects));
  }

  /** The state is reachable: select a connection, turn connect mode on and click a block;
      deleting the selection then removes the block but leaves its other connections. */
  method DeleteSelectionLeavesDangling(page: NotePage, objectId: string, connectionId: string, c: Connection)
    returns (patches: seq<PagePatch>, after: NotePage)
    requires objectId != "" && connectionId != ""
    requires c in page.connections && Touching(c, objectId) && c.id != connectionId
    ensures patches == [DeleteObject(page, objectId), DeleteConnection(page, connectionId)]
    ensures after == ApplyPatches(page, patches)
    ensures objectId !in ObjectIds(after.objects) && c in after.connections
    ensures !NoDangling(after.objects, after.connections)
  {
    var canvas := new Canvas();
    var _ := canvas.sel.ConnectionClick(connectionId);
    canvas.ToggleConnectMode();
    var _ := canvas.OnBlockClick(page, objectId, "fresh");
    patches := canvas.DeleteSelection(page);
    after := ApplyPatches(page, patches);
    TwoPatchDeleteKeepsTouching(page, objectId, connectionId, c);
  }

  /** Blocks A, B, C joined A -> B by c1 and B -> C by c2: a page without dangling connections
      on which selecting A and c2 together and deleting them leaves c1 dangling. */
  lemma ThreeBlockExample()
    ensures var page := ThreeBlockPage();
            && NoDangling(page.objects, page.connections)
            && page.connections[0] == Connection("c1", "A", "B", Arrow, Solid)
            && page.connections[0] in page.connections && Touching(page.connections[0], "A")
  {
    var page := ThreeBlockPage();
    assert page.objects[0].id == "A" && page.objects[1].id == "B" && page.objects[2].id == "C";
    assert {"A", "B", "C"} <= ObjectIds(page.objects);
  }

  /** The deletion of a selection as one patch: the block and every connection touching it,
      and the selected connection, all removed from the page as it is. */
  function DeleteSelectionPatch(page: NotePage, objectId: Option<string>, connectionId: Option<string>): (u: PagePatch)
    ensures Truthy(objectId) ==> u.objects == Some(RemoveObject(page.objects, objectId.value))
    ensures !Truthy(objectId) ==> u.objects.None?
    ensures u == NoPatch.(objects := u.objects, connections := u.connections)
    ensures var after := ApplyPatch(page, u);
            forall c :: c in after.connections <==>
              && c in page.connections
              && (Truthy(objectId) ==> !Touching(c, objectId.value))
              && (Truthy(connectionId) ==> c.id != connectionId.value)
  {
    var conns := if Truthy(objectId) then DetachConnections(page.connections, objectId.value) else page.connections;
    NoPatch.(objects := if Truthy(objectId) then Some(RemoveObject(page.objects, objectId.value)) else None,
             connections := if Truthy(connectionId) then Some(RemoveConnection(conns, connectionId.value))
                            else if Truthy(objectId) then Some(conns) else None)
  }

  /** The single patch keeps a page free of dangling connections, whatever is selected. */
  lemma DeleteSelectionPatchKeepsNoDangling(page: NotePage, objectId: Option<string>, connectionId: Option<string>)
    requires NoDangling(page.objects, page.connections)
    ensures var after := ApplyPatch(page, DeleteSelectionPatch(page, objectId, connectionId));
            NoDangling(after.objects, after.connections)
  {
  }

  /** The single patch has the effect of deleting the block and then the connection, each from
      the page the previous step left. */
  lemma DeleteSelectionPatchSequential(page: NotePage, objectId: string, connectionId: string)
    requires objectId != "" && connectionId != ""
    ensures var once := ApplyPatch(page, DeleteObject(page, objectId));
            var twice := ApplyPatch(once, DeleteConnection(once, connectionId));
            ApplyPatch(page, DeleteSelectionPatch(page, Some(objectId), Some(connectionId))) == twice
  {
  }
}
