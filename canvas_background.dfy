/** The canvas background's draggable section boundaries
    (src/features/notebook/components/canvas/canvas-background.tsx): a mouse-down on a
    separator starts a drag, each mouse move reports that boundary's new position in percent,
    clamped to its own range, and mouse-up ends the drag. */
module CanvasBackground {
  import opened NoteTypes

  datatype Boundary = TitleBoundary | CenterBoundary | DiversionBoundary

  /** Default positions when the canvas passes none. */
  const DefaultTitle: real := 10.0
  const DefaultCenter: real := 50.0
  const DefaultDiversion: real := 75.0

  /** `Math.max(lo, Math.min(hi, v))` */
  function Clamp(lo: real, hi: real, v: real): (r: real)
    ensures lo <= hi ==> lo <= r <= hi
    ensures lo <= v <= hi ==> r == v
    ensures v < lo ==> r == lo
    ensures lo <= hi && hi < v ==> r == hi
  {
    var m := if v < hi then v else hi;
    if lo < m then m else lo
  }

  /** The range each boundary is kept in, in percent. */
  function Low(b: Boundary): real {
    match b
    case TitleBoundary => 5.0
    case CenterBoundary => 30.0
    case DiversionBoundary => 55.0
  }

  function High(b: Boundary): real {
    match b
    case TitleBoundary => 30.0
    case CenterBoundary => 70.0
    case DiversionBoundary => 95.0
  }

  /** The value reported for a pointer at (x, y) in a canvas of the given size: the title
      boundary follows the pointer's height, the two column boundaries its horizontal position,
      each as a percentage of the canvas and clamped to the boundary's range. */
  function Reported(b: Boundary, x: real, y: real, width: real, height: real): (v: real)
    requires width > 0.0 && height > 0.0
    ensures Low(b) <= v <= High(b)
    ensures var pct := if b == TitleBoundary then y / height * 100.0 else x / width * 100.0;
            && (Low(b) <= pct <= High(b) ==> v == pct)
            && (pct < Low(b) ==> v == Low(b))
            && (High(b) < pct ==> v == High(b))
  {
    var pct := if b == TitleBoundary then y / height * 100.0 else x / width * 100.0;
    Clamp(Low(b), High(b), pct)
  }

  /** Dragging the title boundary to 2% of the height reports 5, its lower bound. */
  lemma TitleSnapsToFive()
    ensures Reported(TitleBoundary, 0.0, 10.0, 1000.0, 500.0) == 5.0
  {
  }

  /** Each default position lies within the range its boundary is clamped to, so a drag that
      ends where it started reports the default unchanged. */
  lemma DefaultsWithinRanges()
    ensures Clamp(Low(TitleBoundary), High(TitleBoundary), DefaultTitle) == DefaultTitle
    ensures Clamp(Low(CenterBoundary), High(CenterBoundary), DefaultCenter) == DefaultCenter
    ensures Clamp(Low(DiversionBoundary), High(DiversionBoundary), DefaultDiversion) == DefaultDiversion
  {
  }

  class Background {
    /** The boundary being dragged (`isDragging`), if any. */
    var isDragging: Option<Boundary>

    constructor()
      ensures isDragging.None?
    {
      isDragging := None;
    }

    /** `handleMouseDown(boundary)`: start dragging that boundary. */
    method MouseDown(b: Boundary)
      modifies this
      ensures isDragging == Some(b)
    {
      isDragging := Some(b);
    }

    /** The document mouse-move listener, given the pointer relative to the canvas container
        and the container's size (`hasContainer` is false when no container is found). It
        reports the dragged boundary's value, and nothing without a drag, without a boundary
        handler or without a container. */
    method MouseMove(hasHandler: bool, hasContainer: bool, x: real, y: real, width: real, height: real)
      returns (report: Option<(Boundary, real)>)
      requires width > 0.0 && height > 0.0
      ensures report.Some? <==> isDragging.Some? && hasHandler && hasContainer
      ensures report.Some? ==> report.value == (isDragging.value, Reported(isDragging.value, x, y, width, height))
    {
      if isDragging.None? || !hasHandler || !hasContainer {
        return None;
      }
      var b := isDragging.value;
      report := Some((b, Reported(b, x, y, width, height)));
    }

    /** The document mouse-up listener: the drag ends. */
    method MouseUp()
      modifies this
      ensures isDragging.None?
    {
      isDragging := None;
    }
  }

  /** A drag of the centre boundary reports only centre values, each within 30..70, and
      nothing once the mouse is released. */
  method DragCenter(x1: real, x2: real, width: real, height: real)
    returns (first: Option<(Boundary, real)>, afterRelease: Option<(Boundary, real)>)
    requires width > 0.0 && height > 0.0
    ensures first.Some? && first.value.0 == CenterBoundary && 30.0 <= first.value.1 <= 70.0
    ensures afterRelease.None?
  {
    var bg := new Background();
    bg.MouseDown(CenterBoundary);
    first := bg.MouseMove(true, true, x1, 0.0, width, height);
    bg.MouseUp();
    afterRelease := bg.MouseMove(true, true, x2, 0.0, width, height);
  }
}
