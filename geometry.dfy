/** Clipping of connection lines to the boxes of the blocks they join
    (src/features/notebook/components/canvas/connection-layer.tsx). */
module ConnectionLayer {
  import opened NoteTypes

  datatype Rect = Rect(x: real, y: real, width: real, height: real)

  /** The point at parameter `t` on the segment from `p1` to `p2`. */
  function PointAt(p1: Point, p2: Point, t: real): Point {
    Point(p1.x + t * (p2.x - p1.x), p1.y + t * (p2.y - p1.y))
  }

  predicate OnVerticalEdge(r: Rect, q: Point) {
    (q.x == r.x || q.x == r.x + r.width) && r.y <= q.y <= r.y + r.height
  }

  predicate OnHorizontalEdge(r: Rect, q: Point) {
    (q.y == r.y || q.y == r.y + r.height) && r.x <= q.x <= r.x + r.width
  }

  predicate OnBoundary(r: Rect, q: Point) {
    OnVerticalEdge(r, q) || OnHorizontalEdge(r, q)
  }

  predicate StrictlyInside(r: Rect, q: Point) {
    r.x < q.x < r.x + r.width && r.y < q.y < r.y + r.height
  }

  /** The parameter at which a coordinate moving from `x0` towards `x2` reaches `edge`. */
  function Param(x0: real, x2: real, edge: real): real
    requires x2 != x0
  {
    (edge - x0) / (x2 - x0)
  }

  /** At that parameter the coordinate is `edge`. */
  lemma ParamReaches(x0: real, x2: real, edge: real)
    requires x2 != x0
    ensures x0 + Param(x0, x2, edge) * (x2 - x0) == edge
  {
  }

  /** It is the only such parameter. */
  lemma ParamUnique(x0: real, x2: real, edge: real, t: real)
    requires x2 != x0 && x0 + t * (x2 - x0) == edge
    ensures t == Param(x0, x2, edge)
  {
    ParamReaches(x0, x2, edge);
    Cancel(t, Param(x0, x2, edge), x2 - x0);
  }

  lemma Cancel(a: real, b: real, d: real)
    requires d != 0.0 && a * d == b * d
    ensures a == b
  {
    assert (a - b) * d == 0.0;
  }

  /** Where the segment meets the vertical line `x == edge` inside the box's vertical extent.
      A segment parallel to the line has no such point. */
  function VerticalHit(p1: Point, p2: Point, edge: real, r: Rect): (h: Option<real>)
    ensures h.Some? ==> 0.0 <= h.value <= 1.0 && PointAt(p1, p2, h.value).x == edge
                        && r.y <= PointAt(p1, p2, h.value).y <= r.y + r.height
  {
    if p2.x != p1.x then
      var t := Param(p1.x, p2.x, edge);
      ParamReaches(p1.x, p2.x, edge);
      assert PointAt(p1, p2, t).x == p1.x + t * (p2.x - p1.x) == edge;
      if 0.0 <= t <= 1.0 && r.y <= PointAt(p1, p2, t).y <= r.y + r.height then Some(t) else None
    else None
  }

  /** Where the segment meets the horizontal line `y == edge` inside the box's horizontal extent. */
  function HorizontalHit(p1: Point, p2: Point, edge: real, r: Rect): (h: Option<real>)
    ensures h.Some? ==> 0.0 <= h.value <= 1.0 && PointAt(p1, p2, h.value).y == edge
                        && r.x <= PointAt(p1, p2, h.value).x <= r.x + r.width
  {
    if p2.y != p1.y then
      var t := Param(p1.y, p2.y, edge);
      ParamReaches(p1.y, p2.y, edge);
      assert PointAt(p1, p2, t).y == p1.y + t * (p2.y - p1.y) == edge;
      if 0.0 <= t <= 1.0 && r.x <= PointAt(p1, p2, t).x <= r.x + r.width then Some(t) else None
    else None
  }

  /** The vertical side test finds every point of the segment on that side. */
  lemma VerticalHitComplete(p1: Point, p2: Point, edge: real, r: Rect, t: real)
    requires p2.x != p1.x && 0.0 <= t <= 1.0 && PointAt(p1, p2, t).x == edge
    requires r.y <= PointAt(p1, p2, t).y <= r.y + r.height
    ensures VerticalHit(p1, p2, edge, r) == Some(t)
  {
    ParamUnique(p1.x, p2.x, edge, t);
  }

  /** The horizontal side test finds every point of the segment on that side. */
  lemma HorizontalHitComplete(p1: Point, p2: Point, edge: real, r: Rect, t: real)
    requires p2.y != p1.y && 0.0 <= t <= 1.0 && PointAt(p1, p2, t).y == edge
    requires r.x <= PointAt(p1, p2, t).x <= r.x + r.width
    ensures HorizontalHit(p1, p2, edge, r) == Some(t)
  {
    ParamUnique(p1.y, p2.y, edge, t);
  }

  function OptionSeq(h: Option<real>): seq<real> {
    if h.Some? then [h.value] else []
  }

  /** The segment parameters collected from the left, right, top and bottom sides, in that order. */
  function EdgeHits(p1: Point, p2: Point, r: Rect): (ts: seq<real>)
    ensures forall t :: t in ts ==> 0.0 <= t <= 1.0 && OnBoundary(r, PointAt(p1, p2, t))
  {
    OptionSeq(VerticalHit(p1, p2, r.x, r)) + OptionSeq(VerticalHit(p1, p2, r.x + r.width, r))
    + OptionSeq(HorizontalHit(p1, p2, r.y, r)) + OptionSeq(HorizontalHit(p1, p2, r.y + r.height, r))
  }

  /** A crossing of the box outline that one of the four side tests can see:
      a side is only tested when the segment is not parallel to it. */
  predicate Crossing(p1: Point, p2: Point, r: Rect, t: real) {
    0.0 <= t <= 1.0 &&
    ((p2.x != p1.x && OnVerticalEdge(r, PointAt(p1, p2, t))) ||
     (p2.y != p1.y && OnHorizontalEdge(r, PointAt(p1, p2, t))))
  }

  /** Every crossing the side tests can see is collected. */
  lemma EdgeHitsComplete(p1: Point, p2: Point, r: Rect, t: real)
    requires Crossing(p1, p2, r, t)
    ensures t in EdgeHits(p1, p2, r)
  {
    var q := PointAt(p1, p2, t);
    if p2.x != p1.x && OnVerticalEdge(r, q) {
      if q.x == r.x {
        VerticalHitComplete(p1, p2, r.x, r, t);
      } else {
        VerticalHitComplete(p1, p2, r.x + r.width, r, t);
      }
    } else {
      if q.y == r.y {
        HorizontalHitComplete(p1, p2, r.y, r, t);
      } else {
        HorizontalHitComplete(p1, p2, r.y + r.height, r, t);
      }
    }
  }

  /** `Math.min(...ts)` */
  function Min(ts: seq<real>): (m: real)
    requires ts != []
    ensures m in ts
    ensures forall t :: t in ts ==> m <= t
  {
    if |ts| == 1 then ts[0]
    else
      var rest := Min(ts[1..]);
      assert forall t :: t in ts ==> t == ts[0] || t in ts[1..];
      if ts[0] <= rest then ts[0] else rest
  }

  /** The point where the segment from `p1` towards `p2` first meets the outline of `r`;
      `p1` itself when the points coincide or no side is met. */
  function GetIntersection(p1: Point, p2: Point, r: Rect): (q: Point)
    ensures p1 == p2 ==> q == p1
    ensures EdgeHits(p1, p2, r) == [] ==> q == p1
    ensures p1 != p2 && EdgeHits(p1, p2, r) != [] ==>
              OnBoundary(r, q) && q == PointAt(p1, p2, Min(EdgeHits(p1, p2, r)))
              && 0.0 <= Min(EdgeHits(p1, p2, r)) <= 1.0
  {
    if p1 == p2 then p1
    else
      var ts := EdgeHits(p1, p2, r);
      if ts == [] then p1 else PointAt(p1, p2, Min(ts))
  }

  /** The returned point is the first crossing along the segment: no visible crossing comes earlier. */
  lemma GetIntersectionIsFirst(p1: Point, p2: Point, r: Rect, t: real)
    requires Crossing(p1, p2, r, t)
    ensures EdgeHits(p1, p2, r) != []
    ensures Min(EdgeHits(p1, p2, r)) <= t
    ensures OnBoundary(r, GetIntersection(p1, p2, r))
  {
    EdgeHitsComplete(p1, p2, r, t);
  }

  lemma MulMono(a: real, b: real, c: real)
    requires 0.0 <= a <= b && 0.0 <= c
    ensures a * c <= b * c
  {
  }

  /** Parameter at which a coordinate moving from `x0` towards `x2` leaves the interval
      from `lo` to `hi`. */
  function Exit(lo: real, hi: real, x0: real, x2: real): real
    requires x2 != x0
  {
    if x2 > x0 then (hi - x0) / (x2 - x0) else (x0 - lo) / (x0 - x2)
  }

  /** Parameter at which the segment leaves the box's horizontal extent. */
  function ExitX(p1: Point, p2: Point, r: Rect): real
    requires p2.x != p1.x
  {
    Exit(r.x, r.x + r.width, p1.x, p2.x)
  }

  /** Parameter at which the segment leaves the box's vertical extent. */
  function ExitY(p1: Point, p2: Point, r: Rect): real
    requires p2.y != p1.y
  {
    Exit(r.y, r.y + r.height, p1.y, p2.y)
  }

  lemma DivBounds(a: real, d: real)
    requires 0.0 < a && 0.0 < d
    ensures 0.0 < a / d && (a / d) * d == a
    ensures a <= d ==> a / d <= 1.0
  {
  }

  lemma ExitUp(lo: real, hi: real, x0: real, x2: real)
    requires lo < x0 < hi && x2 > x0
    ensures 0.0 < Exit(lo, hi, x0, x2) && Exit(lo, hi, x0, x2) * (x2 - x0) == hi - x0
    ensures x2 >= hi ==> Exit(lo, hi, x0, x2) <= 1.0
  {
    DivBounds(hi - x0, x2 - x0);
  }

  lemma ExitDown(lo: real, hi: real, x0: real, x2: real)
    requires lo < x0 < hi && x2 < x0
    ensures 0.0 < Exit(lo, hi, x0, x2) && Exit(lo, hi, x0, x2) * (x0 - x2) == x0 - lo
    ensures x2 <= lo ==> Exit(lo, hi, x0, x2) <= 1.0
  {
    DivBounds(x0 - lo, x0 - x2);
  }

  lemma Negate(t: real, x0: real, x2: real)
    ensures t * (x2 - x0) == -(t * (x0 - x2))
  {
  }

  /** Moving from inside the interval, the coordinate reaches the bound it heads for at the
      exit parameter, and only after the segment's end when its end lies outside. */
  lemma {:induction false} ExitFacts(lo: real, hi: real, x0: real, x2: real)
    requires lo < x0 < hi && x2 != x0
    ensures 0.0 < Exit(lo, hi, x0, x2)
    ensures x0 + Exit(lo, hi, x0, x2) * (x2 - x0) == (if x2 > x0 then hi else lo)
    ensures x2 <= lo || x2 >= hi ==> Exit(lo, hi, x0, x2) <= 1.0
  {
    if x2 > x0 {
      ExitUp(lo, hi, x0, x2);
    } else {
      ExitDown(lo, hi, x0, x2);
      Negate(Exit(lo, hi, x0, x2), x0, x2);
    }
  }

  lemma WithinUp(lo: real, hi: real, x0: real, d: real, e: real, t: real)
    requires lo < x0 && 0.0 < d && e * d == hi - x0 && 0.0 <= t <= e
    ensures lo <= x0 + t * d <= hi
  {
    MulMono(t, e, d);
    MulMono(0.0, t, d);
  }

  lemma WithinDown(lo: real, hi: real, x0: real, d: real, e: real, t: real)
    requires x0 < hi && 0.0 < d && e * d == x0 - lo && 0.0 <= t <= e
    ensures lo <= x0 - t * d <= hi
  {
    MulMono(t, e, d);
    MulMono(0.0, t, d);
  }

  /** Up to the exit parameter the coordinate stays within the interval. */
  lemma {:induction false} WithinUntilExit(lo: real, hi: real, x0: real, x2: real, t: real)
    requires lo < x0 < hi && x2 != x0 && 0.0 <= t <= Exit(lo, hi, x0, x2)
    ensures lo <= x0 + t * (x2 - x0) <= hi
  {
    if x2 > x0 {
      ExitUp(lo, hi, x0, x2);
      WithinUp(lo, hi, x0, x2 - x0, Exit(lo, hi, x0, x2), t);
    } else {
      ExitDown(lo, hi, x0, x2);
      WithinDown(lo, hi, x0, x0 - x2, Exit(lo, hi, x0, x2), t);
      Negate(t, x0, x2);
    }
  }

  lemma {:induction false} ExitXFacts(p1: Point, p2: Point, r: Rect)
    requires StrictlyInside(r, p1) && p2.x != p1.x
    ensures 0.0 < ExitX(p1, p2, r)
    ensures PointAt(p1, p2, ExitX(p1, p2, r)).x == (if p2.x > p1.x then r.x + r.width else r.x)
    ensures forall t :: 0.0 <= t <= ExitX(p1, p2, r) ==> r.x <= PointAt(p1, p2, t).x <= r.x + r.width
    ensures p2.x <= r.x || p2.x >= r.x + r.width ==> ExitX(p1, p2, r) <= 1.0
  {
    ExitFacts(r.x, r.x + r.width, p1.x, p2.x);
    forall t | 0.0 <= t <= ExitX(p1, p2, r)
      ensures r.x <= PointAt(p1, p2, t).x <= r.x + r.width
    {
      WithinUntilExit(r.x, r.x + r.width, p1.x, p2.x, t);
    }
  }

  lemma {:induction false} ExitYFacts(p1: Point, p2: Point, r: Rect)
    requires StrictlyInside(r, p1) && p2.y != p1.y
    ensures 0.0 < ExitY(p1, p2, r)
    ensures PointAt(p1, p2, ExitY(p1, p2, r)).y == (if p2.y > p1.y then r.y + r.height else r.y)
    ensures forall t :: 0.0 <= t <= ExitY(p1, p2, r) ==> r.y <= PointAt(p1, p2, t).y <= r.y + r.height
    ensures p2.y <= r.y || p2.y >= r.y + r.height ==> ExitY(p1, p2, r) <= 1.0
  {
    ExitFacts(r.y, r.y + r.height, p1.y, p2.y);
    forall t | 0.0 <= t <= ExitY(p1, p2, r)
      ensures r.y <= PointAt(p1, p2, t).y <= r.y + r.height
    {
      WithinUntilExit(r.y, r.y + r.height, p1.y, p2.y, t);
    }
  }

  /** A segment that starts strictly inside the box and ends outside it (or on its outline)
      always crosses a side, so the clipped point lies on the outline. */
  lemma {:induction false} ExitFromInside(p1: Point, p2: Point, r: Rect)
    requires StrictlyInside(r, p1) && !StrictlyInside(r, p2)
    ensures EdgeHits(p1, p2, r) != []
    ensures OnBoundary(r, GetIntersection(p1, p2, r))
  {
    var outX := p2.x <= r.x || p2.x >= r.x + r.width;
    var outY := p2.y <= r.y || p2.y >= r.y + r.height;
    if p2.x != p1.x {
      ExitXFacts(p1, p2, r);
    }
    if p2.y != p1.y {
      ExitYFacts(p1, p2, r);
    }
    if p2.x != p1.x && (p2.y == p1.y || ExitX(p1, p2, r) <= ExitY(p1, p2, r)) {
      var t := ExitX(p1, p2, r);
      assert t <= 1.0;
      assert r.y <= PointAt(p1, p2, t).y <= r.y + r.height;
      assert Crossing(p1, p2, r, t);
      GetIntersectionIsFirst(p1, p2, r, t);
    } else {
      var t := ExitY(p1, p2, r);
      assert t <= 1.0;
      assert r.x <= PointAt(p1, p2, t).x <= r.x + r.width;
      assert Crossing(p1, p2, r, t);
      GetIntersectionIsFirst(p1, p2, r, t);
    }
  }

  /** Index of the last block with the given id: `new Map(objects.map(o => [o.id, o]))`
      keeps the last entry written for a key. */
  function LastIndexOf(objects: seq<CanvasObject>, id: string): (k: Option<nat>)
    ensures k.Some? ==> k.value < |objects| && objects[k.value].id == id
                        && forall j :: k.value < j < |objects| ==> objects[j].id != id
    ensures k.None? ==> forall j :: 0 <= j < |objects| ==> objects[j].id != id
    decreases |objects|
  {
    if objects == [] then None
    else if objects[|objects| - 1].id == id then Some(|objects| - 1)
    else LastIndexOf(objects[..|objects| - 1], id)
  }

  /** `new Map(objects.map(o => [o.id, o])).get(id)`: the last block with the id. */
  function Lookup(objects: seq<CanvasObject>, id: string): (o: Option<CanvasObject>)
    ensures o.Some? <==> exists j :: 0 <= j < |objects| && objects[j].id == id
    ensures o.Some? ==> o.value in objects && o.value.id == id
    ensures o.Some? ==> exists k :: 0 <= k < |objects| && o.value == objects[k]
                                   && forall j :: k < j < |objects| ==> objects[j].id != id
  {
    var k := LastIndexOf(objects, id);
    if k.Some? then Some(objects[k.value]) else None
  }

  function RectOf(o: CanvasObject): Rect {
    Rect(o.x, o.y, o.width, o.height)
  }

  function Center(o: CanvasObject): (c: Point)
    ensures o.width > 0.0 && o.height > 0.0 ==> StrictlyInside(RectOf(o), c)
  {
    Point(o.x + o.width / 2.0, o.y + o.height / 2.0)
  }

  datatype ConnectionLine = ConnectionLine(conn: Connection, start: Point, end: Point)

  /** The drawn line of one connection, or nothing when either end block is missing. */
  function LineOf(objects: seq<CanvasObject>, c: Connection): (l: Option<ConnectionLine>)
    ensures l.Some? <==> Lookup(objects, c.fromObjectId).Some? && Lookup(objects, c.toObjectId).Some?
    ensures l.Some? ==> l.value.conn == c
  {
    var source := Lookup(objects, c.fromObjectId);
    var target := Lookup(objects, c.toObjectId);
    if source.None? || target.None? then None
    else
      var s := source.value;
      var t := target.value;
      Some(ConnectionLine(c, GetIntersection(Center(s), Center(t), RectOf(s)),
                             GetIntersection(Center(t), Center(s), RectOf(t))))
  }

  /** Whether the layer draws a line for a connection: both of its blocks exist. */
  function BothEndsExist(objects: seq<CanvasObject>): Connection -> bool {
    (c: Connection) => Lookup(objects, c.fromObjectId).Some? && Lookup(objects, c.toObjectId).Some?
  }

  /** The connections a sequence of lines was drawn for, in the order of the lines. */
  function LineConns(ls: seq<ConnectionLine>): seq<Connection> {
    seq(|ls|, i requires 0 <= i < |ls| => ls[i].conn)
  }

  /** The lines the layer draws: connections whose two blocks exist, in order. */
  function ConnectionLines(objects: seq<CanvasObject>, conns: seq<Connection>): (ls: seq<ConnectionLine>)
    ensures |ls| <= |conns|
    ensures LineConns(ls) == Filter(conns, BothEndsExist(objects))
    ensures forall l :: l in ls ==> l.conn in conns && LineOf(objects, l.conn) == Some(l)
    ensures forall c :: c in conns && LineOf(objects, c).Some? ==> LineOf(objects, c).value in ls
    decreases |conns|
  {
    if conns == [] then []
    else
      var init := conns[..|conns| - 1];
      var c := conns[|conns| - 1];
      assert conns == init + [c];
      var l := LineOf(objects, c);
      var rest := ConnectionLines(objects, init);
      var ls := rest + (if l.Some? then [l.value] else []);
      assert l.Some? == BothEndsExist(objects)(c);
      assert LineConns(ls) == LineConns(rest) + (if l.Some? then [c] else []);
      ls
  }

  /** Each drawn line starts on the outline of its source block and ends on the outline of its
      target block, as long as both blocks have a positive size and neither block's centre lies
      inside the other block. */
  lemma LinesClippedToBlocks(objects: seq<CanvasObject>, conns: seq<Connection>, l: ConnectionLine)
    requires l in ConnectionLines(objects, conns)
    requires forall o :: o in objects ==> o.width > 0.0 && o.height > 0.0
    requires !StrictlyInside(RectOf(Lookup(objects, l.conn.fromObjectId).value),
                             Center(Lookup(objects, l.conn.toObjectId).value))
    requires !StrictlyInside(RectOf(Lookup(objects, l.conn.toObjectId).value),
                             Center(Lookup(objects, l.conn.fromObjectId).value))
    ensures OnBoundary(RectOf(Lookup(objects, l.conn.fromObjectId).value), l.start)
    ensures OnBoundary(RectOf(Lookup(objects, l.conn.toObjectId).value), l.end)
  {
    var s := Lookup(objects, l.conn.fromObjectId).value;
    var t := Lookup(objects, l.conn.toObjectId).value;
    ExitFromInside(Center(s), Center(t), RectOf(s));
    ExitFromInside(Center(t), Center(s), RectOf(t));
  }
}
