/** The canvas layout hook (src/features/notebook/hooks/use-canvas-layout.ts): the three
    boundary positions kept locally, loaded from the page and saved back as a full layout. */
module CanvasLayout {
  import opened NoteTypes
  import opened CanvasBackground
  import CanvasOperations

  /** The positions used when the page's layout lacks a field (`DEFAULT_LAYOUT`, taken to agree
      with the fallbacks the block-adding code uses). */
  const DefaultTitleHeight: real := CanvasOperations.DefaultTitleHeight
  const DefaultCenterPosition: real := CanvasOperations.DefaultCenterPosition
  const DefaultDiversionPosition: real := CanvasOperations.DefaultDiversionPosition

  /** `value ?? fallback` */
  function OrDefault(value: Option<real>, fallback: real): real {
    if value.Some? then value.value else fallback
  }

  /** The three layout fields of a page, each possibly absent. */
  function LayoutFields(page: NotePage): (Option<real>, Option<real>, Option<real>) {
    if page.layout.None? then (None, None, None)
    else (page.layout.value.titleHeight, page.layout.value.centerPosition, page.layout.value.diversionPosition)
  }

  /** The full layout saved after moving one boundary: the moved one takes the value as given,
      unclamped, and the other two keep their current positions. */
  function NewLayout(b: Boundary, value: real, titleHeight: real, centerPosition: real, diversionPosition: real): (l: Layout)
    ensures l.titleHeight.Some? && l.centerPosition.Some? && l.diversionPosition.Some?
    ensures l.titleHeight.value == (if b == TitleBoundary then value else titleHeight)
    ensures l.centerPosition.value == (if b == CenterBoundary then value else centerPosition)
    ensures l.diversionPosition.value == (if b == DiversionBoundary then value else diversionPosition)
  {
    Layout(Some(if b == TitleBoundary then value else titleHeight),
           Some(if b == CenterBoundary then value else centerPosition),
           Some(if b == DiversionBoundary then value else diversionPosition))
  }

  /** Once saved, the layout's thresholds are exactly the saved positions: no fallback applies
      when a block is added. */
  lemma SavedLayoutUsedForSections(page: NotePage, b: Boundary, value: real, t: real, c: real, d: real)
    ensures var after := ApplyPatch(page, NoPatch.(layout := Some(NewLayout(b, value, t, c, d))));
            && CanvasOperations.TitlePercent(after.layout) == (if b == TitleBoundary then value else t)
            && CanvasOperations.CenterPercent(after.layout) == (if b == CenterBoundary then value else c)
            && CanvasOperations.DiversionPercent(after.layout) == (if b == DiversionBoundary then value else d)
  {
  }

  class LayoutState {
    var titleHeight: real
    var centerPosition: real
    var diversionPosition: real
    /** The page layout fields the positions were last loaded from (the effect's dependencies). */
    var seen: (Option<real>, Option<real>, Option<real>)

    /** The positions start at the defaults, and the load effect runs on the first render. */
    constructor(page: NotePage)
      ensures seen == LayoutFields(page)
      ensures titleHeight == OrDefault(seen.0, DefaultTitleHeight)
      ensures centerPosition == OrDefault(seen.1, DefaultCenterPosition)
      ensures diversionPosition == OrDefault(seen.2, DefaultDiversionPosition)
    {
      titleHeight, centerPosition, diversionPosition := DefaultTitleHeight, DefaultCenterPosition, DefaultDiversionPosition;
      var fields := LayoutFields(page);
      titleHeight := OrDefault(fields.0, DefaultTitleHeight);
      centerPosition := OrDefault(fields.1, DefaultCenterPosition);
      diversionPosition := OrDefault(fields.2, DefaultDiversionPosition);
      seen := fields;
    }

    /** A re-render with `page`: when any of its layout fields changed, all three positions are
        reloaded, each missing field falling back to its default. */
    method Sync(page: NotePage)
      modifies this
      ensures seen == LayoutFields(page)
      ensures old(seen) != LayoutFields(page) ==>
                && titleHeight == OrDefault(seen.0, DefaultTitleHeight)
                && centerPosition == OrDefault(seen.1, DefaultCenterPosition)
                && diversionPosition == OrDefault(seen.2, DefaultDiversionPosition)
      ensures old(seen) == LayoutFields(page) ==>
                && titleHeight == old(titleHeight) && centerPosition == old(centerPosition)
                && diversionPosition == old(diversionPosition)
    {
      var fields := LayoutFields(page);
      if seen != fields {
        titleHeight := OrDefault(fields.0, DefaultTitleHeight);
        centerPosition := OrDefault(fields.1, DefaultCenterPosition);
        diversionPosition := OrDefault(fields.2, DefaultDiversionPosition);
        seen := fields;
      }
    }

    /** `handleBoundaryChange`: the named position takes the value, the other two stay, and the
        page is sent the full three-field layout. */
    method BoundaryChange(b: Boundary, value: real) returns (update: PagePatch)
      modifies this
      ensures update == NoPatch.(layout := Some(NewLayout(b, value, old(titleHeight), old(centerPosition), old(diversionPosition))))
      ensures titleHeight == (if b == TitleBoundary then value else old(titleHeight))
      ensures centerPosition == (if b == CenterBoundary then value else old(centerPosition))
      ensures diversionPosition == (if b == DiversionBoundary then value else old(diversionPosition))
      ensures seen == old(seen)
    {
      var newLayout := NewLayout(b, value, titleHeight, centerPosition, diversionPosition);
      if b == TitleBoundary {
        titleHeight := value;
      } else if b == CenterBoundary {
        centerPosition := value;
      } else {
        diversionPosition := value;
      }
      update := NoPatch.(layout := Some(newLayout));
    }
  }

  /** Moving the centre boundary of a page without a layout saves the given centre with the
      default title and diversion positions. */
  method MoveCenterOnFreshPage(page: NotePage, value: real) returns (update: PagePatch)
    requires page.layout.None?
    ensures update.layout == Some(Layout(Some(DefaultTitleHeight), Some(value), Some(DefaultDiversionPosition)))
  {
    var state := new LayoutState(page);
    update := state.BoundaryChange(CenterBoundary, value);
  }

  /** A drag of the title boundary through the background and into the layout saves a title
      position within 5..30 and keeps the other two. */
  method DragTitle(page: NotePage, y: real, width: real, height: real) returns (update: Option<PagePatch>)
    requires width > 0.0 && height > 0.0
    ensures update.Some? && update.value.layout.Some?
    ensures var l := update.value.layout.value;
            && l.titleHeight.Some? && 5.0 <= l.titleHeight.value <= 30.0
            && l.centerPosition == Some(OrDefault(LayoutFields(page).1, DefaultCenterPosition))
            && l.diversionPosition == Some(OrDefault(LayoutFields(page).2, DefaultDiversionPosition))
  {
    var state := new LayoutState(page);
    var bg := new Background();
    bg.MouseDown(TitleBoundary);
    var report := bg.MouseMove(true, true, 0.0, y, width, height);
    var u := state.BoundaryChange(report.value.0, report.value.1);
    update := Some(u);
  }
}
