/** A text block on the canvas (src/features/notebook/components/blocks/text-block.tsx):
    the block keeps a local position and size while it is dragged or resized, and commits
    them to the page when the gesture stops. */
module TextBlock {
  import opened NoteTypes

  /** The four corner handles. */
  datatype Handle = NW | NE | SW | SE

  /** The handle's name contains 'w': it moves the left edge. */
  predicate HasW(h: Handle) {
    h == NW || h == SW
  }

  /** The handle's name contains 'n': it moves the top edge. */
  predicate HasN(h: Handle) {
    h == NW || h == NE
  }

  /** The corner diagonally opposite the handle, which a resize from that handle keeps in place. */
  function Anchor(h: Handle, x: real, y: real, width: real, height: real): Point {
    Point(if HasW(h) then x + width else x, if HasN(h) then y + height else y)
  }

  /** Size bounds the resize library enforces before it reports a size. */
  const MinWidth: real := 50.0
  const MinHeight: real := 30.0
  const MaxSize: real := 800.0

  predicate InBounds(width: real, height: real) {
    MinWidth <= width <= MaxSize && MinHeight <= height <= MaxSize
  }

  /** A patch handed to `onUpdate(object.id, updates)`. */
  datatype BlockUpdate = BlockUpdate(id: string, patch: ObjectPatch)

  class Block {
    const id: string
    /** Local position and size (`currentPos`, `currentSize`). */
    var x: real
    var y: real
    var width: real
    var height: real
    /** The object geometry the local state was last reset from (the effect's dependencies). */
    var seen: (real, real, real, real)

    constructor(o: CanvasObject)
      ensures id == o.id && x == o.x && y == o.y && width == o.width && height == o.height
      ensures seen == (o.x, o.y, o.width, o.height)
    {
      id := o.id;
      x, y, width, height := o.x, o.y, o.width, o.height;
      seen := (o.x, o.y, o.width, o.height);
    }

    /** A re-render with the object `o`: when its geometry changed, the local position and size
        are overwritten from it; otherwise local state is kept. */
    method Sync(o: CanvasObject)
      modifies this
      ensures seen == (o.x, o.y, o.width, o.height)
      ensures old(seen) != (o.x, o.y, o.width, o.height) ==>
                x == o.x && y == o.y && width == o.width && height == o.height
      ensures old(seen) == (o.x, o.y, o.width, o.height) ==>
                x == old(x) && y == old(y) && width == old(width) && height == old(height)
    {
      if seen != (o.x, o.y, o.width, o.height) {
        width, height := o.width, o.height;
        x, y := o.x, o.y;
        seen := (o.x, o.y, o.width, o.height);
      }
    }

    /** A drag tick moves the local position only; dragging is disabled in pen mode. */
    method Drag(isPenMode: bool, dataX: real, dataY: real)
      modifies this
      ensures width == old(width) && height == old(height) && seen == old(seen)
      ensures !isPenMode ==> x == dataX && y == dataY
      ensures isPenMode ==> x == old(x) && y == old(y)
    {
      if !isPenMode {
        x, y := dataX, dataY;
      }
    }

    /** Drag stop moves the local position and commits exactly {x, y}. */
    method DragStop(isPenMode: bool, dataX: real, dataY: real) returns (update: Option<BlockUpdate>)
      modifies this
      ensures width == old(width) && height == old(height) && seen == old(seen)
      ensures !isPenMode ==>
                && x == dataX && y == dataY
                && update == Some(BlockUpdate(id, ObjectPatch(Some(dataX), Some(dataY), None, None, None)))
      ensures isPenMode ==> x == old(x) && y == old(y) && update == None
    {
      update := None;
      if !isPenMode {
        x, y := dataX, dataY;
        update := Some(BlockUpdate(id, ObjectPatch(Some(dataX), Some(dataY), None, None, None)));
      }
    }

    /** A resize tick stores the reported size and shifts the position so that the corner
        opposite the handle stays where it was. Resizing is unavailable in pen mode. */
    method Resize(isPenMode: bool, handle: Handle, newWidth: real, newHeight: real)
      requires InBounds(newWidth, newHeight)
      modifies this
      ensures seen == old(seen)
      ensures !isPenMode ==>
                && width == newWidth && height == newHeight
                && Anchor(handle, x, y, width, height) == Anchor(handle, old(x), old(y), old(width), old(height))
                && (!HasW(handle) ==> x == old(x)) && (!HasN(handle) ==> y == old(y))
      ensures isPenMode ==> x == old(x) && y == old(y) && width == old(width) && height == old(height)
    {
      if isPenMode {
        return;
      }
      var newX := x;
      var newY := y;
      if HasW(handle) {
        newX := x + (width - newWidth);
      }
      if HasN(handle) {
        newY := y + (height - newHeight);
      }
      width, height := newWidth, newHeight;
      x, y := newX, newY;
    }

    /** Resize stop commits the reported size with the local, possibly shifted, position. */
    method ResizeStop(isPenMode: bool, newWidth: real, newHeight: real) returns (update: Option<BlockUpdate>)
      requires InBounds(newWidth, newHeight)
      ensures !isPenMode ==> update == Some(BlockUpdate(id, ObjectPatch(Some(x), Some(y), Some(newWidth), Some(newHeight), None)))
      ensures isPenMode ==> update == None
    {
      if isPenMode {
        return None;
      }
      update := Some(BlockUpdate(id, ObjectPatch(Some(x), Some(y), Some(newWidth), Some(newHeight), None)));
    }

    /** A click (or Enter / Space) selects the block unless pen mode is on. */
    method Click(isPenMode: bool) returns (selected: Option<string>)
      ensures selected.Some? <==> !isPenMode
      ensures selected.Some? ==> selected.value == id
    {
      selected := if isPenMode then None else Some(id);
    }

    /** An edit in the block's editor commits the new content. */
    method ContentChange(content: string) returns (update: BlockUpdate)
      ensures update == BlockUpdate(id, ObjectPatch(None, None, None, None, Some(content)))
    {
      update := BlockUpdate(id, ObjectPatch(None, None, None, None, Some(content)));
    }
  }

  /** A resize gesture from one handle, ended at the same size, commits a patch that keeps the
      opposite corner of the block where it was. */
  method ResizeGesture(o: CanvasObject, handle: Handle, newWidth: real, newHeight: real)
    returns (update: Option<BlockUpdate>)
    requires InBounds(newWidth, newHeight)
    ensures update.Some? && update.value.id == o.id
    ensures var p := update.value.patch;
            p.x.Some? && p.y.Some? && p.width == Some(newWidth) && p.height == Some(newHeight)
            && p.content.None?
            && Anchor(handle, p.x.value, p.y.value, newWidth, newHeight) == Anchor(handle, o.x, o.y, o.width, o.height)
  {
    var b := new Block(o);
    b.Resize(false, handle, newWidth, newHeight);
    update := b.ResizeStop(false, newWidth, newHeight);
  }

  /** Dragging moves only the local position; the page hears of it once, on stop. */
  method DragGesture(o: CanvasObject, x1: real, y1: real, x2: real, y2: real)
    returns (update: Option<BlockUpdate>)
    ensures update == Some(BlockUpdate(o.id, ObjectPatch(Some(x2), Some(y2), None, None, None)))
  {
    var b := new Block(o);
    b.Drag(false, x1, y1);
    update := b.DragStop(false, x2, y2);
  }
}
