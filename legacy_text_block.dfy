/** The earlier text block (components/notebook/text-block.tsx): only the size is local; the
    position comes straight from the page and is committed when a drag stops, and resizing
    is from the bottom-right corner only. */
module LegacyTextBlock {
  import opened NoteTypes
  import TextBlock

  const MinWidth: real := 100.0
  const MinHeight: real := 50.0
  const MaxSize: real := 800.0

  predicate InBounds(width: real, height: real) {
    MinWidth <= width <= MaxSize && MinHeight <= height <= MaxSize
  }

  class Block {
    const id: string
    /** Local size (`currentSize`). */
    var width: real
    var height: real
    /** The object size the local size was last reset from. */
    var seen: (real, real)

    constructor(o: CanvasObject)
      ensures id == o.id && width == o.width && height == o.height && seen == (o.width, o.height)
    {
      id := o.id;
      width, height := o.width, o.height;
      seen := (o.width, o.height);
    }

    /** A re-render resets the local size when the object's width or height changed. */
    method Sync(o: CanvasObject)
      modifies this
      ensures seen == (o.width, o.height)
      ensures old(seen) != (o.width, o.height) ==> width == o.width && height == o.height
      ensures old(seen) == (o.width, o.height) ==> width == old(width) && height == old(height)
    {
      if seen != (o.width, o.height) {
        width, height := o.width, o.height;
        seen := (o.width, o.height);
      }
    }

    /** Drag stop commits exactly {x, y}; nothing local changes. Disabled in pen mode. */
    method DragStop(isPenMode: bool, dataX: real, dataY: real) returns (update: Option<TextBlock.BlockUpdate>)
      ensures !isPenMode ==> update == Some(TextBlock.BlockUpdate(id, ObjectPatch(Some(dataX), Some(dataY), None, None, None)))
      ensures isPenMode ==> update == None
    {
      if isPenMode {
        return None;
      }
      update := Some(TextBlock.BlockUpdate(id, ObjectPatch(Some(dataX), Some(dataY), None, None, None)));
    }

    /** A resize tick changes the local size only. */
    method Resize(isPenMode: bool, newWidth: real, newHeight: real)
      requires InBounds(newWidth, newHeight)
      modifies this
      ensures seen == old(seen)
      ensures !isPenMode ==> width == newWidth && height == newHeight
      ensures isPenMode ==> width == old(width) && height == old(height)
    {
      if !isPenMode {
        width, height := newWidth, newHeight;
      }
    }

    /** Resize stop commits the width and height only: the position is never adjusted. */
    method ResizeStop(isPenMode: bool, newWidth: real, newHeight: real) returns (update: Option<TextBlock.BlockUpdate>)
      requires InBounds(newWidth, newHeight)
      ensures !isPenMode ==> update == Some(TextBlock.BlockUpdate(id, ObjectPatch(None, None, Some(newWidth), Some(newHeight), None)))
      ensures isPenMode ==> update == None
    {
      if isPenMode {
        return None;
      }
      update := Some(TextBlock.BlockUpdate(id, ObjectPatch(None, None, Some(newWidth), Some(newHeight), None)));
    }

    /** A click selects the block unless pen mode is on. */
    method Click(isPenMode: bool) returns (selects: bool)
      ensures selects <==> !isPenMode
    {
      selects := !isPenMode;
    }

    /** An edit in the block's editor commits the new content. */
    method ContentChange(content: string) returns (update: TextBlock.BlockUpdate)
      ensures update == TextBlock.BlockUpdate(id, ObjectPatch(None, None, None, None, Some(content)))
    {
      update := TextBlock.BlockUpdate(id, ObjectPatch(None, None, None, None, Some(content)));
    }
  }

  /** A resize gesture here keeps the top-left corner: applying its patch leaves x and y as they
      were and sets the new size. */
  method ResizeGesture(o: CanvasObject, newWidth: real, newHeight: real) returns (after: CanvasObject)
    requires InBounds(newWidth, newHeight)
    ensures after.x == o.x && after.y == o.y && after.width == newWidth && after.height == newHeight
    ensures after.id == o.id && after.content == o.content
  {
    var b := new Block(o);
    b.Resize(false, newWidth, newHeight);
    var update := b.ResizeStop(false, newWidth, newHeight);
    after := ApplyObjectPatch(o, update.value.patch);
  }
}
