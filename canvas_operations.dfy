/** The page-level canvas operations (src/features/notebook/hooks/use-canvas-operations.ts):
    each one builds a new objects, connections or strokes array and hands the host one patch. */
module CanvasOperations {
  import opened NoteTypes

  /** Percent values of the three section boundaries, with the defaults for missing fields. */
  const DefaultTitleHeight: real := 10.0
  const DefaultCenterPosition: real := 50.0
  const DefaultDiversionPosition: real := 75.0

  function TitlePercent(layout: Option<Layout>): real {
    if layout.Some? && layout.value.titleHeight.Some? then layout.value.titleHeight.value else DefaultTitleHeight
  }

  function CenterPercent(layout: Option<Layout>): real {
    if layout.Some? && layout.value.centerPosition.Some? then layout.value.centerPosition.value else DefaultCenterPosition
  }

  function DiversionPercent(layout: Option<Layout>): real {
    if layout.Some? && layout.value.diversionPosition.Some? then layout.value.diversionPosition.value else DefaultDiversionPosition
  }

  /** Section of a new block as the code chooses it: all three thresholds are taken as
      percentages of the container's height and compared with `y`. */
  function ChooseSection(y: real, totalHeight: real, layout: Option<Layout>): (s: Section)
    ensures s == Title <==> y < totalHeight * TitlePercent(layout) / 100.0
    ensures s == Fact <==> totalHeight * TitlePercent(layout) / 100.0 <= y < totalHeight * CenterPercent(layout) / 100.0
    ensures s == Abstraction <==>
              && totalHeight * TitlePercent(layout) / 100.0 <= y
              && totalHeight * CenterPercent(layout) / 100.0 <= y
              && y < totalHeight * DiversionPercent(layout) / 100.0
  {
    var titleH := totalHeight * TitlePercent(layout) / 100.0;
    var centerH := totalHeight * CenterPercent(layout) / 100.0;
    var diversionH := totalHeight * DiversionPercent(layout) / 100.0;
    if y < titleH then Title
    else if y < centerH then Fact
    else if y < diversionH then Abstraction
    else Diversion
  }

  /** How `handleAddBlock` is called: with a position (keyboard shortcut; `y` may be absent), or
      with a double-click on the canvas whose local position and canvas height are given. */
  datatype AddInput =
    | AtPoint(x: real, y: Option<real>)
    | FromEvent(onBackground: bool, localX: real, localY: real, canvasHeight: real)

  /** `valY || 100`: an absent or zero `y` becomes 100. */
  function PointY(y: Option<real>): real {
    if y.Some? && y.value != 0.0 then y.value else 100.0
  }

  /** The position and reference height the block is placed with, or nothing when a double
      click landed on something other than the canvas background. */
  function Placement(input: AddInput, containerHeight: Option<real>): Option<(real, real, real)> {
    match input
    case AtPoint(x, y) =>
      Some((x, PointY(y), if containerHeight.Some? then containerHeight.value else 800.0))
    case FromEvent(onBackground, x, y, h) =>
      if onBackground then Some((x, y, h)) else None
  }

  /** `handleAddBlock`: a new empty text block centred on the placement point, with the default
      size, appended after the existing blocks. */
  function AddBlock(page: NotePage, input: AddInput, containerHeight: Option<real>,
                    freshId: string, size: Size): (u: Option<PagePatch>)
    ensures u.None? <==> input.FromEvent? && !input.onBackground
    ensures u.Some? ==>
              var place := Placement(input, containerHeight).value;
              && u.value == NoPatch.(objects := u.value.objects)
              && u.value.objects.Some?
              && |u.value.objects.value| == |page.objects| + 1
              && u.value.objects.value[..|page.objects|] == page.objects
              && var o := u.value.objects.value[|page.objects|];
                 && o.id == freshId && o.content == "" && o.style.None?
                 && o.width == size.width && o.height == size.height
                 && o.x + o.width / 2.0 == place.0 && o.y + o.height / 2.0 == place.1
                 && o.section == ChooseSection(place.1, place.2, page.layout)
  {
    var place := Placement(input, containerHeight);
    if place.None? then None
    else
      var (x, y, totalHeight) := place.value;
      var o := CanvasObject(freshId, ChooseSection(y, totalHeight, page.layout), "",
                            x - size.width / 2.0, y - size.height / 2.0, size.width, size.height, None);
      assert (page.objects + [o])[..|page.objects|] == page.objects;
      Some(NoPatch.(objects := Some(page.objects + [o])))
  }

  /** A keyboard-added block with no `y`, or `y` zero, is placed at height 100, and without a
      container the thresholds are taken from a height of 800. */
  lemma AddBlockDefaults(page: NotePage, x: real, freshId: string, size: Size)
    ensures var u := AddBlock(page, AtPoint(x, Some(0.0)), None, freshId, size);
            && u.Some?
            && var o := u.value.objects.value[|page.objects|];
               o.y + o.height / 2.0 == 100.0 && o.section == ChooseSection(100.0, 800.0, page.layout)
    ensures var u := AddBlock(page, AtPoint(x, None), None, freshId, size);
            && u.Some?
            && var o := u.value.objects.value[|page.objects|];
               o.y + o.height / 2.0 == 100.0 && o.section == ChooseSection(100.0, 800.0, page.layout)
  {
  }

  /** `objects.map(obj => obj.id === objectId ? { ...obj, ...updates } : obj)` */
  function UpdateObjects(objects: seq<CanvasObject>, objectId: string, updates: ObjectPatch): (r: seq<CanvasObject>)
    ensures |r| == |objects|
    ensures forall i :: 0 <= i < |objects| ==> r[i].id == objects[i].id && r[i].section == objects[i].section
    ensures forall i :: 0 <= i < |objects| && objects[i].id != objectId ==> r[i] == objects[i]
    ensures forall i :: 0 <= i < |objects| && objects[i].id == objectId ==> r[i] == ApplyObjectPatch(objects[i], updates)
  {
    seq(|objects|, i requires 0 <= i < |objects| =>
      if objects[i].id == objectId then ApplyObjectPatch(objects[i], updates) else objects[i])
  }

  /** `handleUpdateObject`: the merged objects, in one patch. */
  function UpdateObject(page: NotePage, objectId: string, updates: ObjectPatch): (u: PagePatch)
    ensures u == NoPatch.(objects := u.objects)
    ensures var after := ApplyPatch(page, u);
            && after == page.(objects := after.objects)
            && |after.objects| == |page.objects|
            && forall i :: 0 <= i < |page.objects| ==>
                 after.objects[i] == if page.objects[i].id == objectId then ApplyObjectPatch(page.objects[i], updates)
                                     else page.objects[i]
  {
    NoPatch.(objects := Some(UpdateObjects(page.objects, objectId, updates)))
  }

  /** The ids of the blocks on a page. */
  function ObjectIds(objects: seq<CanvasObject>): set<string> {
    set o | o in objects :: o.id
  }

  /** Every connection joins two blocks that exist. */
  predicate NoDangling(objects: seq<CanvasObject>, conns: seq<Connection>) {
    forall c :: c in conns ==> c.fromObjectId in ObjectIds(objects) && c.toObjectId in ObjectIds(objects)
  }

  predicate Touching(c: Connection, objectId: string) {
    c.fromObjectId == objectId || c.toObjectId == objectId
  }

  /** The blocks without the given id, in order. */
  function RemoveObject(objects: seq<CanvasObject>, objectId: string): (r: seq<CanvasObject>)
    ensures forall o :: o in r <==> o in objects && o.id != objectId
    ensures IsSubseq(r, objects)
    ensures ObjectIds(r) == ObjectIds(objects) - {objectId}
  {
    var keep := (o: CanvasObject) => o.id != objectId;
    FilterIsSubseq(objects, keep);
    var r := Filter(objects, keep);
    assert forall id :: id in ObjectIds(objects) - {objectId} ==> id in ObjectIds(r) by {
      forall id | id in ObjectIds(objects) - {objectId}
        ensures id in ObjectIds(r)
      {
        var o :| o in objects && o.id == id;
        assert o in r;
      }
    }
    r
  }

  /** The connections not touching the given block, in order. */
  function DetachConnections(conns: seq<Connection>, objectId: string): (r: seq<Connection>)
    ensures forall c :: c in r <==> c in conns && !Touching(c, objectId)
    ensures IsSubseq(r, conns)
  {
    var keep := (c: Connection) => !Touching(c, objectId);
    FilterIsSubseq(conns, keep);
    Filter(conns, keep)
  }

  /** The connections without the given id, in order. */
  function RemoveConnection(conns: seq<Connection>, connectionId: string): (r: seq<Connection>)
    ensures forall c :: c in r <==> c in conns && c.id != connectionId
    ensures IsSubseq(r, conns)
  {
    var keep := (c: Connection) => c.id != connectionId;
    FilterIsSubseq(conns, keep);
    Filter(conns, keep)
  }

  /** `handleDeleteObject`: the block and every connection touching it go, in a single patch. */
  function DeleteObject(page: NotePage, objectId: string): (u: PagePatch)
    ensures u == NoPatch.(objects := u.objects, connections := u.connections)
    ensures u.objects == Some(RemoveObject(page.objects, objectId))
    ensures u.connections == Some(DetachConnections(page.connections, objectId))
  {
    NoPatch.(objects := Some(RemoveObject(page.objects, objectId)),
             connections := Some(DetachConnections(page.connections, objectId)))
  }

  /** Deleting a block keeps a page free of dangling connections. */
  lemma DeleteObjectKeepsNoDangling(page: NotePage, objectId: string)
    requires NoDangling(page.objects, page.connections)
    ensures var after := ApplyPatch(page, DeleteObject(page, objectId));
            NoDangling(after.objects, after.connections)
  {
  }

  /** Adding a block keeps a page free of dangling connections. */
  lemma AddBlockKeepsNoDangling(page: NotePage, input: AddInput, containerHeight: Option<real>,
                                freshId: string, size: Size)
    requires NoDangling(page.objects, page.connections)
    requires AddBlock(page, input, containerHeight, freshId, size).Some?
    ensures var after := ApplyPatch(page, AddBlock(page, input, containerHeight, freshId, size).value);
            NoDangling(after.objects, after.connections)
  {
    var after := ApplyPatch(page, AddBlock(page, input, containerHeight, freshId, size).value);
    forall c | c in after.connections
      ensures c.fromObjectId in ObjectIds(after.objects) && c.toObjectId in ObjectIds(after.objects)
    {
      var a :| a in page.objects && a.id == c.fromObjectId;
      var b :| b in page.objects && b.id == c.toObjectId;
      assert a in after.objects[..|page.objects|];
      assert b in after.objects[..|page.objects|];
    }
  }

  /** `handleDeleteConnection` */
  function DeleteConnection(page: NotePage, connectionId: string): (u: PagePatch)
    ensures u == NoPatch.(connections := u.connections)
    ensures u.connections.Some?
    ensures forall c :: c in u.connections.value <==> c in page.connections && c.id != connectionId
    ensures u.connections == Some(RemoveConnection(page.connections, connectionId))
  {
    NoPatch.(connections := Some(RemoveConnection(page.connections, connectionId)))
  }

  /** `handleUpdateStrokes` */
  function UpdateStrokes(strokes: seq<Stroke>): (u: PagePatch)
    ensures forall p :: ApplyPatch(p, u) == p.(strokes := strokes)
  {
    NoPatch.(strokes := Some(strokes))
  }

  /** `toggleFavorite`: `isFavorite` becomes the negation of its truthiness. */
  function ToggleFavorite(page: NotePage): (u: PagePatch)
    ensures u.isFavorite.Some? && (u.isFavorite.value <==> !TruthyBool(page.isFavorite))
    ensures u == NoPatch.(isFavorite := u.isFavorite)
  {
    NoPatch.(isFavorite := Some(!TruthyBool(page.isFavorite)))
  }

  /** Toggling twice restores the favourite flag's truthiness. */
  lemma ToggleFavoriteTwice(page: NotePage)
    ensures var once := ApplyPatch(page, ToggleFavorite(page));
            var twice := ApplyPatch(once, ToggleFavorite(once));
            TruthyBool(twice.isFavorite) == TruthyBool(page.isFavorite) && twice.objects == page.objects
  {
  }

  // The section a block lands in, by the region of the two-page layout that contains it.

  /** Section by region, as the canvas background lays the page out: the left page (left of the
      centre line) holds the title band, of the title height, above the fact area; the right page
      holds abstraction up to the diversion line and diversion beyond it. */
  function ChooseSectionByRegion(x: real, y: real, totalWidth: real, totalHeight: real,
                                 layout: Option<Layout>): (s: Section)
    ensures x < totalWidth * CenterPercent(layout) / 100.0 <==> s == Title || s == Fact
    ensures s == Title <==> x < totalWidth * CenterPercent(layout) / 100.0 && y < totalHeight * TitlePercent(layout) / 100.0
    ensures s == Diversion <==> totalWidth * CenterPercent(layout) / 100.0 <= x
                                && totalWidth * DiversionPercent(layout) / 100.0 <= x
  {
    var centerX := totalWidth * CenterPercent(layout) / 100.0;
    var diversionX := totalWidth * DiversionPercent(layout) / 100.0;
    var titleY := totalHeight * TitlePercent(layout) / 100.0;
    if x < centerX then (if y < titleY then Title else Fact)
    else if x < diversionX then Abstraction
    else Diversion
  }

  /** `handleAddBlock` with the section chosen by region. */
  function AddBlockByRegion(page: NotePage, input: AddInput, containerSize: Option<Size>, canvasWidth: real,
                            freshId: string, size: Size): (u: Option<PagePatch>)
    ensures u.None? <==> input.FromEvent? && !input.onBackground
    ensures u.Some? ==>
              && u.value == NoPatch.(objects := u.value.objects)
              && u.value.objects.Some?
              && |u.value.objects.value| == |page.objects| + 1
              && u.value.objects.value[..|page.objects|] == page.objects
              && var o := u.value.objects.value[|page.objects|];
                 var w := if input.AtPoint? && containerSize.Some? then containerSize.value.width else canvasWidth;
                 var h := if input.FromEvent? then input.canvasHeight
                          else if containerSize.Some? then containerSize.value.height else 800.0;
                 var y := if input.FromEvent? then input.localY else PointY(input.y);
                 var x := if input.FromEvent? then input.localX else input.x;
                 && o.id == freshId && o.content == "" && o.style.None?
                 && o.width == size.width && o.height == size.height
                 && o.x + o.width / 2.0 == x && o.y + o.height / 2.0 == y
                 && o.section == ChooseSectionByRegion(x, y, w, h, page.layout)
                 && (o.section == Title || o.section == Fact <==> o.x + o.width / 2.0 < w * CenterPercent(page.layout) / 100.0)
  {
    var place := Placement(input, if containerSize.Some? then Some(containerSize.value.height) else None);
    if place.None? then None
    else
      var (x, y, totalHeight) := place.value;
      var totalWidth := if input.AtPoint? && containerSize.Some? then containerSize.value.width else canvasWidth;
      var o := CanvasObject(freshId, ChooseSectionByRegion(x, y, totalWidth, totalHeight, page.layout), "",
                            x - size.width / 2.0, y - size.height / 2.0, size.width, size.height, None);
      assert (page.objects + [o])[..|page.objects|] == page.objects;
      Some(NoPatch.(objects := Some(page.objects + [o])))
  }

  /** A double click in the diversion column, below the title band's height, is labelled as a
      fact block by the code: on a 1000 x 800 canvas with the default layout, (900, 300). */
  lemma SectionByHeightMislabels()
    ensures ChooseSection(300.0, 800.0, None) == Fact
    ensures ChooseSectionByRegion(900.0, 300.0, 1000.0, 800.0, None) == Diversion
  {
  }
}
