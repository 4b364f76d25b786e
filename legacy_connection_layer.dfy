/** The earlier connection layer (components/notebook/connection-layer.tsx): lines run from
    block centre to block centre without clipping, and blocks are found with a linear search. */
module LegacyConnectionLayer {
  import opened NoteTypes
  import ConnectionLayer

  /** Index of the first block with the given id (`objects.find`). */
  function FirstIndexOf(objects: seq<CanvasObject>, id: string): (k: Option<nat>)
    ensures k.Some? ==> k.value < |objects| && objects[k.value].id == id
                        && forall j :: 0 <= j < k.value ==> objects[j].id != id
    ensures k.None? ==> forall j :: 0 <= j < |objects| ==> objects[j].id != id
    decreases |objects|
  {
    if objects == [] then None
    else if objects[0].id == id then Some(0)
    else match FirstIndexOf(objects[1..], id)
      case None => None
      case Some(k) => Some(k + 1)
  }

  /** Centre of the first block with the given id, or nothing when there is none. */
  function GetCenter(objects: seq<CanvasObject>, id: string): (c: Option<Point>)
    ensures c.None? <==> forall o :: o in objects ==> o.id != id
    ensures c.Some? ==> exists o :: o in objects && o.id == id && c.value == ConnectionLayer.Center(o)
    ensures c.Some? ==> exists k :: 0 <= k < |objects| && objects[k].id == id
                                   && c.value == ConnectionLayer.Center(objects[k])
                                   && forall j :: 0 <= j < k ==> objects[j].id != id
  {
    var k := FirstIndexOf(objects, id);
    if k.None? then None else Some(ConnectionLayer.Center(objects[k.value]))
  }

  datatype CenterLine = CenterLine(conn: Connection, start: Point, end: Point)

  /** Whether a line is drawn for a connection: both of its blocks exist. */
  function BothCentersExist(objects: seq<CanvasObject>): Connection -> bool {
    (c: Connection) => GetCenter(objects, c.fromObjectId).Some? && GetCenter(objects, c.toObjectId).Some?
  }

  /** The connections a sequence of lines was drawn for, in the order of the lines. */
  function CenterLineConns(ls: seq<CenterLine>): seq<Connection> {
    seq(|ls|, i requires 0 <= i < |ls| => ls[i].conn)
  }

  /** The lines both layers draw: one per connection whose two blocks exist, centre to centre,
      in the order of the connections. */
  function CenterLines(objects: seq<CanvasObject>, conns: seq<Connection>): (ls: seq<CenterLine>)
    ensures |ls| <= |conns|
    ensures CenterLineConns(ls) == Filter(conns, BothCentersExist(objects))
    ensures forall l :: l in ls ==>
              (l.conn in conns
               && GetCenter(objects, l.conn.fromObjectId) == Some(l.start)
               && GetCenter(objects, l.conn.toObjectId) == Some(l.end))
    ensures forall c ::
              (c in conns && GetCenter(objects, c.fromObjectId).Some? && GetCenter(objects, c.toObjectId).Some?) ==>
              CenterLine(c, GetCenter(objects, c.fromObjectId).value, GetCenter(objects, c.toObjectId).value) in ls
    decreases |conns|
  {
    if conns == [] then []
    else
      var init := conns[..|conns| - 1];
      var c := conns[|conns| - 1];
      assert conns == init + [c];
      var s := GetCenter(objects, c.fromObjectId);
      var e := GetCenter(objects, c.toObjectId);
      var drawn := s.Some? && e.Some?;
      var rest := CenterLines(objects, init);
      var ls := rest + (if drawn then [CenterLine(c, s.value, e.value)] else []);
      assert drawn == BothCentersExist(objects)(c);
      assert CenterLineConns(ls) == CenterLineConns(rest) + (if drawn then [c] else []);
      ls
  }

  /** With unique block ids the first match and the last match are the same block. */
  lemma UniqueIdsSameBlock(objects: seq<CanvasObject>, id: string)
    requires forall i, j :: 0 <= i < j < |objects| ==> objects[i].id != objects[j].id
    ensures FirstIndexOf(objects, id) == ConnectionLayer.LastIndexOf(objects, id)
  {
  }

  /** With duplicate ids the two layers pick different blocks: the earlier layer the first,
      the later one the last. */
  lemma DuplicateIdsDiffer()
    ensures var a := CanvasObject("b", Fact, "", 0.0, 0.0, 100.0, 100.0, None);
            var b := CanvasObject("b", Fact, "", 500.0, 0.0, 100.0, 100.0, None);
            GetCenter([a, b], "b") == Some(Point(50.0, 50.0))
            && ConnectionLayer.Lookup([a, b], "b") == Some(b)
  {
    var a := CanvasObject("b", Fact, "", 0.0, 0.0, 100.0, 100.0, None);
    var b := CanvasObject("b", Fact, "", 500.0, 0.0, 100.0, 100.0, None);
    assert [a, b][1..] == [b];
    assert [a, b][..1] == [a];
  }

  /** With unique ids, the later layer draws a line for exactly the connections this one does,
      and its clipped ends lie on the centre-to-centre segment drawn here. */
  lemma {:induction false} ClippedLineOnCenterLine(objects: seq<CanvasObject>, c: Connection)
    requires forall i, j :: 0 <= i < j < |objects| ==> objects[i].id != objects[j].id
    ensures ConnectionLayer.LineOf(objects, c).Some? <==>
              GetCenter(objects, c.fromObjectId).Some? && GetCenter(objects, c.toObjectId).Some?
    ensures ConnectionLayer.LineOf(objects, c).Some? ==>
              var s := GetCenter(objects, c.fromObjectId).value;
              var e := GetCenter(objects, c.toObjectId).value;
              var l := ConnectionLayer.LineOf(objects, c).value;
              (l.start == s || exists t :: 0.0 <= t <= 1.0 && l.start == ConnectionLayer.PointAt(s, e, t))
              && (l.end == e || exists t :: 0.0 <= t <= 1.0 && l.end == ConnectionLayer.PointAt(e, s, t))
  {
    UniqueIdsSameBlock(objects, c.fromObjectId);
    UniqueIdsSameBlock(objects, c.toObjectId);
    var l := ConnectionLayer.LineOf(objects, c);
    if l.Some? {
      var s := GetCenter(objects, c.fromObjectId).value;
      var e := GetCenter(objects, c.toObjectId).value;
      var src := ConnectionLayer.Lookup(objects, c.fromObjectId).value;
      var tgt := ConnectionLayer.Lookup(objects, c.toObjectId).value;
      assert s == ConnectionLayer.Center(src) && e == ConnectionLayer.Center(tgt);
      var hs := ConnectionLayer.EdgeHits(s, e, ConnectionLayer.RectOf(src));
      if s != e && hs != [] {
        assert l.value.start == ConnectionLayer.PointAt(s, e, ConnectionLayer.Min(hs));
      }
      var he := ConnectionLayer.EdgeHits(e, s, ConnectionLayer.RectOf(tgt));
      if s != e && he != [] {
        assert l.value.end == ConnectionLayer.PointAt(e, s, ConnectionLayer.Min(he));
      }
    }
  }
}
