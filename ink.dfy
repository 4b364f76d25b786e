/** The ink layer of a notebook page
    (src/features/notebook/components/blocks/handwriting-layer.tsx): pen capture,
    the point eraser and the object eraser. */
module HandwritingLayer {
  import opened NoteTypes

  /** Squared distance from a sample to the pointer; distances are compared squared. */
  function Dist2(p: InkPoint, x: real, y: real): real {
    (p.x - x) * (p.x - x) + (p.y - y) * (p.y - y)
  }

  const EraserRadius: real := 10.0
  const ObjectEraserRadius: real := 15.0

  /** A sample the point eraser keeps: farther than the eraser radius from the pointer. */
  predicate Survives(p: InkPoint, x: real, y: real) {
    Dist2(p, x, y) > EraserRadius * EraserRadius
  }

  /** A sample close enough to the pointer for the object eraser to pick its stroke. */
  predicate Touches(p: InkPoint, x: real, y: real) {
    Dist2(p, x, y) < ObjectEraserRadius * ObjectEraserRadius
  }

  /** A stroke with fewer than two samples is never drawn. */
  predicate Drawn(s: Stroke) {
    |s.points| >= 2
  }

  /** The point eraser's test at pointer position (`x`, `y`). */
  function SurvivesAt(x: real, y: real): InkPoint -> bool {
    (q: InkPoint) => Survives(q, x, y)
  }

  /** The samples of a stroke that pass the eraser's test `keep`, in their order. */
  function RemainingPoints(pts: seq<InkPoint>, keep: InkPoint -> bool): seq<InkPoint> {
    Filter(pts, keep)
  }

  /** The remaining samples are exactly those that pass, in their order, and they are all the
      samples exactly when every sample passes. */
  lemma RemainingPointsContents(pts: seq<InkPoint>, keep: InkPoint -> bool)
    ensures forall q :: q in RemainingPoints(pts, keep) <==> q in pts && keep(q)
    ensures IsSubseq(RemainingPoints(pts, keep), pts)
    ensures RemainingPoints(pts, keep) == pts <==> forall i :: 0 <= i < |pts| ==> keep(pts[i])
  {
    FilterIsSubseq(pts, keep);
    FilterIdentity(pts, keep);
  }

  /** A stroke the point eraser leaves as it was: it has samples and every one passes. */
  predicate Untouched(s: Stroke, keep: InkPoint -> bool) {
    s.points != [] && forall i :: 0 <= i < |s.points| ==> keep(s.points[i])
  }

  /** One stroke under the point eraser: removed when no sample is left, shortened when some
      samples were erased, and returned as it was otherwise. */
  function EraseStroke(s: Stroke, keep: InkPoint -> bool): (r: Option<Stroke>)
    ensures r.None? <==> forall i :: 0 <= i < |s.points| ==> !keep(s.points[i])
    ensures r.Some? ==> r.value == s.(points := RemainingPoints(s.points, keep)) && r.value.points != []
    ensures r == Some(s) <==> Untouched(s, keep)
  {
    var remaining := RemainingPoints(s.points, keep);
    RemainingPointsContents(s.points, keep);
    if |remaining| == 0 then
      assert forall i :: 0 <= i < |s.points| ==> s.points[i] in s.points;
      None
    else if |remaining| < |s.points| then
      assert remaining[0] in remaining;
      Some(s.(points := remaining))
    else
      assert |remaining| == |s.points|;
      assert remaining == s.points by {
        if remaining != s.points {
          SubseqSameLength(remaining, s.points);
        }
      }
      Some(s)
  }

  function Ids(strokes: seq<Stroke>): (ids: seq<string>)
    ensures |ids| == |strokes|
    ensures forall i :: 0 <= i < |strokes| ==> ids[i] == strokes[i].id
  {
    seq(|strokes|, i requires 0 <= i < |strokes| => strokes[i].id)
  }

  lemma IdsAppend(s: seq<Stroke>, t: Stroke)
    ensures Ids(s + [t]) == Ids(s) + [t.id]
  {
  }

  /** `s.map(f).filter(Boolean)`: `f` applied to each element, keeping the results that exist,
      in order. */
  function FilterMap<T>(s: seq<T>, f: T -> Option<T>): (r: seq<T>)
    ensures |r| <= |s|
    decreases |s|
  {
    if s == [] then []
    else
      var e := f(s[|s| - 1]);
      FilterMap(s[..|s| - 1], f) + (if e.Some? then [e.value] else [])
  }

  /** Everything `FilterMap` returns is the result of some element. */
  lemma {:induction false} FilterMapSound<T>(s: seq<T>, f: T -> Option<T>, u: T)
    requires u in FilterMap(s, f)
    ensures exists i :: 0 <= i < |s| && f(s[i]) == Some(u)
    decreases |s|
  {
    var init := s[..|s| - 1];
    var e := f(s[|s| - 1]);
    if u in FilterMap(init, f) {
      FilterMapSound(init, f, u);
      var i :| 0 <= i < |init| && f(init[i]) == Some(u);
      assert s[i] == init[i];
    } else {
      assert f(s[|s| - 1]) == Some(u);
    }
  }

  /** Every result that exists is returned. */
  lemma {:induction false} FilterMapComplete<T>(s: seq<T>, f: T -> Option<T>, i: int)
    requires 0 <= i < |s| && f(s[i]).Some?
    ensures f(s[i]).value in FilterMap(s, f)
    decreases |s|
  {
    var init := s[..|s| - 1];
    if i < |init| {
      assert s[i] == init[i];
      FilterMapComplete(init, f, i);
    }
  }

  lemma {:induction false} AllSameKept<T>(s: seq<T>, f: T -> Option<T>)
    requires forall i :: 0 <= i < |s| ==> f(s[i]) == Some(s[i])
    ensures FilterMap(s, f) == s
    decreases |s|
  {
    if s != [] {
      var init := s[..|s| - 1];
      forall i | 0 <= i < |init|
        ensures f(init[i]) == Some(init[i])
      {
        assert init[i] == s[i];
      }
      AllSameKept(init, f);
      assert s == init + [s[|s| - 1]];
    }
  }

  lemma {:induction false} KeptAllSame<T>(s: seq<T>, f: T -> Option<T>, i: int)
    requires FilterMap(s, f) == s && 0 <= i < |s|
    ensures f(s[i]) == Some(s[i])
    decreases |s|
  {
    var init := s[..|s| - 1];
    var e := f(s[|s| - 1]);
    var ri := FilterMap(init, f);
    assert |ri| <= |init|;
    assert e.Some? && ri + [e.value] == init + [s[|s| - 1]];
    assert ri == (ri + [e.value])[..|init|] && init == (init + [s[|s| - 1]])[..|init|];
    if i < |init| {
      KeptAllSame(init, f, i);
      assert s[i] == init[i];
    } else {
      assert e.value == (ri + [e.value])[|init|];
    }
  }

  /** `FilterMap` returns its input exactly when every element maps to itself. */
  lemma FilterMapIdentity<T>(s: seq<T>, f: T -> Option<T>)
    ensures FilterMap(s, f) == s <==> forall i :: 0 <= i < |s| ==> f(s[i]) == Some(s[i])
  {
    if forall i :: 0 <= i < |s| ==> f(s[i]) == Some(s[i]) {
      AllSameKept(s, f);
    }
    if FilterMap(s, f) == s {
      forall i | 0 <= i < |s|
        ensures f(s[i]) == Some(s[i])
      {
        KeptAllSame(s, f, i);
      }
    }
  }

  /** When `f` keeps ids, the ids `FilterMap` returns keep their relative order. */
  lemma {:induction false} FilterMapKeepsOrder(s: seq<Stroke>, f: Stroke -> Option<Stroke>)
    requires forall i :: 0 <= i < |s| && f(s[i]).Some? ==> f(s[i]).value.id == s[i].id
    ensures IsSubseq(Ids(FilterMap(s, f)), Ids(s))
    decreases |s|
  {
    if s != [] {
      var init := s[..|s| - 1];
      var last := s[|s| - 1];
      var e := f(last);
      var ri := FilterMap(init, f);
      forall i | 0 <= i < |init| && f(init[i]).Some?
        ensures f(init[i]).value.id == init[i].id
      {
        assert init[i] == s[i];
      }
      FilterMapKeepsOrder(init, f);
      assert s == init + [last];
      IdsAppend(init, last);
      if e.Some? {
        IdsAppend(ri, e.value);
        SubseqAppendBoth(Ids(ri), Ids(init), last.id);
        assert Ids(FilterMap(s, f)) == Ids(ri) + [last.id];
      } else {
        SubseqExtend(Ids(ri), Ids(init), last.id);
        assert FilterMap(s, f) == ri;
      }
    }
  }

  function EraseWith(keep: InkPoint -> bool): Stroke -> Option<Stroke> {
    (s: Stroke) => EraseStroke(s, keep)
  }

  /** The point eraser applied to every stroke, dropping the strokes left empty. */
  function EraseAt(strokes: seq<Stroke>, keep: InkPoint -> bool): seq<Stroke> {
    FilterMap(strokes, EraseWith(keep))
  }

  /** Every stroke the eraser returns has samples left, all of which pass the test, and comes
      from one of the strokes given. */
  lemma EraseAtSound(strokes: seq<Stroke>, keep: InkPoint -> bool)
    ensures forall t :: t in EraseAt(strokes, keep) ==>
              t.points != [] && (forall q :: q in t.points ==> keep(q))
              && exists i :: 0 <= i < |strokes| && t.id == strokes[i].id && IsSubseq(t.points, strokes[i].points)
  {
    forall t | t in EraseAt(strokes, keep)
      ensures t.points != [] && (forall q :: q in t.points ==> keep(q))
      ensures exists i :: 0 <= i < |strokes| && t.id == strokes[i].id && IsSubseq(t.points, strokes[i].points)
    {
      FilterMapSound(strokes, EraseWith(keep), t);
      var i :| 0 <= i < |strokes| && EraseWith(keep)(strokes[i]) == Some(t);
      RemainingPointsContents(strokes[i].points, keep);
    }
  }

  /** Every stroke with a sample that passes the test is returned, in its erased form. */
  lemma EraseAtComplete(strokes: seq<Stroke>, keep: InkPoint -> bool, i: int)
    requires 0 <= i < |strokes| && EraseStroke(strokes[i], keep).Some?
    ensures EraseStroke(strokes[i], keep).value in EraseAt(strokes, keep)
  {
    FilterMapComplete(strokes, EraseWith(keep), i);
  }

  /** The eraser returns the strokes as they were exactly when it leaves every stroke as it
      was. */
  lemma EraseAtIdentity(strokes: seq<Stroke>, keep: InkPoint -> bool)
    ensures EraseAt(strokes, keep) == strokes <==> forall i :: 0 <= i < |strokes| ==> Untouched(strokes[i], keep)
  {
    FilterMapIdentity(strokes, EraseWith(keep));
    assert forall i :: 0 <= i < |strokes| ==> EraseWith(keep)(strokes[i]) == EraseStroke(strokes[i], keep);
  }

  /** The eraser keeps the relative order of the strokes it keeps. */
  lemma EraseAtKeepsOrder(strokes: seq<Stroke>, keep: InkPoint -> bool)
    ensures IsSubseq(Ids(EraseAt(strokes, keep)), Ids(strokes))
  {
    FilterMapKeepsOrder(strokes, EraseWith(keep));
  }

  /** What a pointer move in eraser mode hands to `onUpdate`: the erased strokes, exactly when
      some stroke lost a sample (or had none to lose). */
  function EraserUpdate(strokes: seq<Stroke>, x: real, y: real): (u: Option<seq<Stroke>>)
    ensures u.None? <==> forall i :: 0 <= i < |strokes| ==> Untouched(strokes[i], SurvivesAt(x, y))
    ensures u.Some? ==> u.value == EraseAt(strokes, SurvivesAt(x, y)) && u.value != strokes
  {
    var r := EraseAt(strokes, SurvivesAt(x, y));
    EraseAtIdentity(strokes, SurvivesAt(x, y));
    if r != strokes then Some(r) else None
  }

  /** The object eraser's test at pointer position (`x`, `y`). */
  function TouchesAt(x: real, y: real): InkPoint -> bool {
    (q: InkPoint) => Touches(q, x, y)
  }

  /** A stroke the object eraser can pick: one of its samples passes the test `touch`. */
  predicate Hit(s: Stroke, touch: InkPoint -> bool) {
    exists i :: 0 <= i < |s.points| && touch(s.points[i])
  }

  /** Index of the first stroke in array order that is hit. */
  function FirstHit(strokes: seq<Stroke>, touch: InkPoint -> bool): (k: Option<nat>)
    ensures k.Some? ==> k.value < |strokes| && Hit(strokes[k.value], touch)
                        && forall j :: 0 <= j < k.value ==> !Hit(strokes[j], touch)
    ensures k.None? <==> forall j :: 0 <= j < |strokes| ==> !Hit(strokes[j], touch)
    decreases |strokes|
  {
    if strokes == [] then None
    else if Hit(strokes[0], touch) then Some(0)
    else match FirstHit(strokes[1..], touch)
      case None => None
      case Some(k) => Some(k + 1)
  }

  function OtherId(id: string): Stroke -> bool {
    (t: Stroke) => t.id != id
  }

  /** `strokes.filter(s => s.id !== id)` */
  function RemoveId(strokes: seq<Stroke>, id: string): (r: seq<Stroke>)
    ensures forall t :: t in r <==> t in strokes && t.id != id
    ensures IsSubseq(r, strokes)
  {
    FilterIsSubseq(strokes, OtherId(id));
    Filter(strokes, OtherId(id))
  }

  /** The object eraser: nothing when no stroke is hit; otherwise every stroke sharing the id
      of the first stroke hit is removed and the rest are kept in order. */
  function ObjectErase(strokes: seq<Stroke>, touch: InkPoint -> bool): Option<seq<Stroke>> {
    var k := FirstHit(strokes, touch);
    if k.None? then None else Some(RemoveId(strokes, strokes[k.value].id))
  }

  /** The object eraser changes nothing exactly when no stroke is hit; otherwise it keeps, in
      order, exactly the strokes whose id differs from that of the first stroke hit. */
  lemma ObjectEraseContents(strokes: seq<Stroke>, touch: InkPoint -> bool)
    ensures ObjectErase(strokes, touch).None? <==> forall j :: 0 <= j < |strokes| ==> !Hit(strokes[j], touch)
    ensures ObjectErase(strokes, touch).Some? ==>
              && FirstHit(strokes, touch).Some? && IsSubseq(ObjectErase(strokes, touch).value, strokes)
              && forall t :: t in ObjectErase(strokes, touch).value <==>
                               t in strokes && t.id != strokes[FirstHit(strokes, touch).value].id
  {
  }

  /** With unique stroke ids the object eraser removes exactly the first stroke hit. */
  lemma ObjectEraseRemovesFirstHit(strokes: seq<Stroke>, touch: InkPoint -> bool)
    requires forall i, j :: 0 <= i < j < |strokes| ==> strokes[i].id != strokes[j].id
    requires FirstHit(strokes, touch).Some?
    ensures var k := FirstHit(strokes, touch).value;
            ObjectErase(strokes, touch) == Some(strokes[..k] + strokes[k + 1..])
  {
    var k := FirstHit(strokes, touch).value;
    FilterRemovesOne(strokes, OtherId(strokes[k].id), k);
  }

  /** The props the layer reads on each render. */
  datatype InkProps = InkProps(strokes: seq<Stroke>, isPenMode: bool, isEraserMode: bool,
                               isObjectEraserMode: bool, color: string, width: real, isHighlighter: bool)

  /** The layer's own state: the stroke being drawn and the eraser preview position. */
  class InkLayer {
    var currentStroke: Option<Stroke>
    var mousePos: Option<Point>

    constructor()
      ensures currentStroke == None && mousePos == None
    {
      currentStroke := None;
      mousePos := None;
    }

    /** Pointer down at client position (`clientX`, `clientY`); `canvas` is the canvas's
        top-left corner, absent when the canvas is not mounted. Returns the strokes handed to
        `onUpdate`, if any. */
    method PointerDown(props: InkProps, canvas: Option<Point>, clientX: real, clientY: real,
                       pressure: real, freshId: string) returns (update: Option<seq<Stroke>>)
      modifies this
      ensures mousePos == old(mousePos)
      ensures (!props.isPenMode && !props.isEraserMode && !props.isObjectEraserMode) || canvas.None? ==>
                update == None && currentStroke == old(currentStroke)
      ensures canvas.Some? && props.isObjectEraserMode ==>
                update == ObjectErase(props.strokes, TouchesAt(clientX - canvas.value.x, clientY - canvas.value.y))
                && currentStroke == old(currentStroke)
      ensures canvas.Some? && !props.isObjectEraserMode && (props.isEraserMode || props.isPenMode) ==>
                update == None
                && currentStroke == Some(Stroke(freshId,
                                                [InkPoint(clientX - canvas.value.x, clientY - canvas.value.y, Some(pressure))],
                                                props.color, props.width, props.isHighlighter))
    {
      update := None;
      if !props.isPenMode && !props.isEraserMode && !props.isObjectEraserMode {
        return;
      }
      if canvas.None? {
        return;
      }
      var x := clientX - canvas.value.x;
      var y := clientY - canvas.value.y;
      if props.isObjectEraserMode {
        update := ObjectErase(props.strokes, TouchesAt(x, y));
      } else {
        currentStroke := Some(Stroke(freshId, [InkPoint(x, y, Some(pressure))], props.color, props.width, props.isHighlighter));
      }
    }

    /** Pointer move: the eraser tracks the preview position and erases under the pointer;
        the pen appends a sample to the stroke in progress. */
    method PointerMove(props: InkProps, canvas: Option<Point>, clientX: real, clientY: real, pressure: real)
      returns (update: Option<seq<Stroke>>)
      modifies this
      ensures canvas.None? ==> update == None && currentStroke == old(currentStroke) && mousePos == old(mousePos)
      ensures canvas.Some? && props.isEraserMode ==>
                var x := clientX - canvas.value.x;
                var y := clientY - canvas.value.y;
                mousePos == Some(Point(x, y)) && currentStroke == old(currentStroke)
                && update == EraserUpdate(props.strokes, x, y)
      ensures canvas.Some? && !props.isEraserMode ==> mousePos == old(mousePos) && update == None
      ensures canvas.Some? && !props.isEraserMode && props.isPenMode && old(currentStroke).Some? ==>
                currentStroke.Some?
                && currentStroke.value == old(currentStroke).value.(points := old(currentStroke).value.points
                   + [InkPoint(clientX - canvas.value.x, clientY - canvas.value.y, Some(pressure))])
      ensures !(canvas.Some? && !props.isEraserMode && props.isPenMode && old(currentStroke).Some?) ==>
                currentStroke == old(currentStroke)
    {
      update := None;
      if canvas.None? {
        return;
      }
      var x := clientX - canvas.value.x;
      var y := clientY - canvas.value.y;
      if props.isEraserMode {
        mousePos := Some(Point(x, y));
      }
      if !props.isPenMode && !props.isEraserMode {
        return;
      }
      if props.isEraserMode {
        update := EraserUpdate(props.strokes, x, y);
      } else if props.isPenMode && currentStroke.Some? {
        var prev := currentStroke.value;
        currentStroke := Some(prev.(points := prev.points + [InkPoint(x, y, Some(pressure))]));
      }
    }

    /** Pointer up: the eraser clears its state; the pen commits the stroke in progress,
        whatever its length, after the existing strokes. */
    method PointerUp(props: InkProps) returns (update: Option<seq<Stroke>>)
      modifies this
      ensures props.isEraserMode ==> update == None && currentStroke == None && mousePos == None
      ensures !props.isEraserMode && props.isPenMode && old(currentStroke).Some? ==>
                update == Some(props.strokes + [old(currentStroke).value]) && currentStroke == None
                && mousePos == old(mousePos)
      ensures !props.isEraserMode && !(props.isPenMode && old(currentStroke).Some?) ==>
                update == None && currentStroke == old(currentStroke) && mousePos == old(mousePos)
    {
      update := None;
      if props.isEraserMode {
        currentStroke := None;
        mousePos := None;
      } else if props.isPenMode && currentStroke.Some? {
        update := Some(props.strokes + [currentStroke.value]);
        currentStroke := None;
      }
    }

    /** Pointer leave hides the eraser preview and nothing else. */
    method PointerLeave()
      modifies this
      ensures mousePos == None && currentStroke == old(currentStroke)
    {
      mousePos := None;
    }
  }

  /** A pen tap with no move in between commits a one-sample stroke that is never drawn. */
  method PenTap(strokes: seq<Stroke>, canvas: Point, clientX: real, clientY: real, pressure: real, freshId: string)
    returns (update: Option<seq<Stroke>>)
    ensures update.Some? && |update.value| == |strokes| + 1 && update.value[..|strokes|] == strokes
    ensures update.value[|strokes|].id == freshId && !Drawn(update.value[|strokes|])
  {
    var layer := new InkLayer();
    var props := InkProps(strokes, true, false, false, "#000000", 2.0, false);
    var _ := layer.PointerDown(props, Some(canvas), clientX, clientY, pressure, freshId);
    update := layer.PointerUp(props);
  }

  /** A pen drag of two moves commits a stroke holding the down sample and both move samples,
      in order. */
  method PenDrag(strokes: seq<Stroke>, p0: Point, p1: Point, p2: Point, freshId: string)
    returns (update: Option<seq<Stroke>>)
    ensures update.Some? && |update.value| == |strokes| + 1 && update.value[..|strokes|] == strokes
    ensures update.value[|strokes|].points ==
              [InkPoint(p0.x, p0.y, Some(0.5)), InkPoint(p1.x, p1.y, Some(0.5)), InkPoint(p2.x, p2.y, Some(0.5))]
    ensures Drawn(update.value[|strokes|])
  {
    var layer := new InkLayer();
    var origin := Point(0.0, 0.0);
    var props := InkProps(strokes, true, false, false, "#000000", 2.0, false);
    var _ := layer.PointerDown(props, Some(origin), p0.x, p0.y, 0.5, freshId);
    var _ := layer.PointerMove(props, Some(origin), p1.x, p1.y, 0.5);
    var _ := layer.PointerMove(props, Some(origin), p2.x, p2.y, 0.5);
    update := layer.PointerUp(props);
  }
}
