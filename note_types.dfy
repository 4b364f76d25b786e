/** Shared data model of the notebook: pages, canvas blocks, connections, ink
    strokes, layout and the partial patches that the canvas hands to its host. */
module NoteTypes {

  datatype Option<+T> = None | Some(value: T)

  /** JavaScript truthiness of an optional string: null, undefined and "" are falsy. */
  predicate Truthy(o: Option<string>) {
    o.Some? && o.value != ""
  }

  /** JavaScript truthiness of an optional number: undefined and 0 are falsy. */
  predicate TruthyNum(o: Option<int>) {
    o.Some? && o.value != 0
  }

  /** JavaScript truthiness of an optional boolean. */
  predicate TruthyBool(o: Option<bool>) {
    o.Some? && o.value
  }

  datatype Point = Point(x: real, y: real)

  datatype Size = Size(width: real, height: real)

  datatype Section = Title | Fact | Abstraction | Diversion

  datatype TextStyle = TextStyle(color: Option<string>, fontSize: Option<real>, bold: Option<bool>, italic: Option<bool>)

  /** A text block on the canvas; `content` is the editor's opaque HTML. */
  datatype CanvasObject = CanvasObject(
    id: string, section: Section, content: string,
    x: real, y: real, width: real, height: real,
    style: Option<TextStyle>)

  datatype ConnectionType = Arrow | Line

  datatype ConnectionStyle = Solid | Dashed | HandDrawn

  datatype Connection = Connection(id: string, fromObjectId: string, toObjectId: string,
                                   kind: ConnectionType, style: ConnectionStyle)

  datatype InkPoint = InkPoint(x: real, y: real, pressure: Option<real>)

  datatype Stroke = Stroke(id: string, points: seq<InkPoint>, color: string, width: real, isHighlighter: bool)

  /** Section boundaries in percent; each field may be absent. */
  datatype Layout = Layout(titleHeight: Option<real>, centerPosition: Option<real>, diversionPosition: Option<real>)

  datatype NotePage = NotePage(
    id: string, notebookId: string, title: string, tags: seq<string>,
    createdAt: int, updatedAt: int,
    isFavorite: Option<bool>, deletedAt: Option<int>,
    objects: seq<CanvasObject>, connections: seq<Connection>, strokes: seq<Stroke>,
    layout: Option<Layout>)

  /** `Partial<NotePage>` as far as the notebook produces it: a present field replaces the page's. */
  datatype PagePatch = PagePatch(
    title: Option<string>, tags: Option<seq<string>>, isFavorite: Option<bool>,
    objects: Option<seq<CanvasObject>>, connections: Option<seq<Connection>>,
    strokes: Option<seq<Stroke>>, layout: Option<Layout>)

  const NoPatch: PagePatch := PagePatch(None, None, None, None, None, None, None)

  /** `{ ...page, ...patch }` */
  function ApplyPatch(p: NotePage, u: PagePatch): (r: NotePage)
    ensures r.id == p.id && r.createdAt == p.createdAt && r.updatedAt == p.updatedAt && r.deletedAt == p.deletedAt
    ensures r.objects == (if u.objects.Some? then u.objects.value else p.objects)
    ensures r.connections == (if u.connections.Some? then u.connections.value else p.connections)
    ensures r.notebookId == p.notebookId
    ensures r.title == (if u.title.Some? then u.title.value else p.title)
    ensures r.tags == (if u.tags.Some? then u.tags.value else p.tags)
    ensures r.isFavorite == (if u.isFavorite.Some? then u.isFavorite else p.isFavorite)
    ensures r.strokes == (if u.strokes.Some? then u.strokes.value else p.strokes)
    ensures r.layout == (if u.layout.Some? then u.layout else p.layout)
    ensures u == NoPatch ==> r == p
  {
    NotePage(p.id, p.notebookId,
             if u.title.Some? then u.title.value else p.title,
             if u.tags.Some? then u.tags.value else p.tags,
             p.createdAt, p.updatedAt,
             if u.isFavorite.Some? then u.isFavorite else p.isFavorite,
             p.deletedAt,
             if u.objects.Some? then u.objects.value else p.objects,
             if u.connections.Some? then u.connections.value else p.connections,
             if u.strokes.Some? then u.strokes.value else p.strokes,
             if u.layout.Some? then u.layout else p.layout)
  }

  /** The host applies the patches one after another, each to the page the previous one produced. */
  function ApplyPatches(p: NotePage, us: seq<PagePatch>): NotePage
    decreases |us|
  {
    if us == [] then p else ApplyPatches(ApplyPatch(p, us[0]), us[1..])
  }

  /** `Partial<CanvasObject>` for the fields the canvas updates. */
  datatype ObjectPatch = ObjectPatch(x: Option<real>, y: Option<real>, width: Option<real>,
                                     height: Option<real>, content: Option<string>)

  const NoObjectPatch: ObjectPatch := ObjectPatch(None, None, None, None, None)

  /** `{ ...obj, ...updates }` */
  function ApplyObjectPatch(o: CanvasObject, u: ObjectPatch): (r: CanvasObject)
    ensures r.id == o.id && r.section == o.section && r.style == o.style
    ensures u.x.Some? ==> r.x == u.x.value
    ensures u.x.None? ==> r.x == o.x
    ensures u.width.Some? ==> r.width == u.width.value
    ensures u.width.None? ==> r.width == o.width
    ensures r.y == (if u.y.Some? then u.y.value else o.y)
    ensures r.height == (if u.height.Some? then u.height.value else o.height)
    ensures r.content == (if u.content.Some? then u.content.value else o.content)
    ensures u == NoObjectPatch ==> r == o
  {
    o.(x := if u.x.Some? then u.x.value else o.x,
       y := if u.y.Some? then u.y.value else o.y,
       width := if u.width.Some? then u.width.value else o.width,
       height := if u.height.Some? then u.height.value else o.height,
       content := if u.content.Some? then u.content.value else o.content)
  }

  /** `Array.prototype.filter`, written from the back so that loops can extend it one element at a time. */
  function Filter<T(!new)>(s: seq<T>, keep: T -> bool): (r: seq<T>)
    ensures |r| <= |s|
    ensures forall x :: x in r <==> x in s && keep(x)
    decreases |s|
  {
    if s == [] then []
    else
      var init := Filter(s[..|s| - 1], keep);
      assert s == s[..|s| - 1] + [s[|s| - 1]];
      if keep(s[|s| - 1]) then init + [s[|s| - 1]] else init
  }

  /** `a` can be obtained from `b` by deleting elements: the order of what is kept is unchanged. */
  predicate IsSubseq<T(==)>(a: seq<T>, b: seq<T>)
    decreases |b|
  {
    if a == [] then true
    else if b == [] then false
    else if a[|a| - 1] == b[|b| - 1] then IsSubseq(a[..|a| - 1], b[..|b| - 1])
    else IsSubseq(a, b[..|b| - 1])
  }

  lemma {:induction false} SubseqExtend<T>(a: seq<T>, b: seq<T>, y: T)
    requires IsSubseq(a, b)
    ensures IsSubseq(a, b + [y])
    decreases |a| + |b|, 1
  {
    assert (b + [y])[..|b|] == b;
    if a != [] && a[|a| - 1] == y {
      SubseqDropLast(a, b);
    }
  }

  lemma {:induction false} SubseqDropLast<T>(a: seq<T>, b: seq<T>)
    requires a != [] && IsSubseq(a, b)
    ensures IsSubseq(a[..|a| - 1], b)
    decreases |a| + |b|, 0
  {
    var b' := b[..|b| - 1];
    assert b == b' + [b[|b| - 1]];
    if a[|a| - 1] == b[|b| - 1] {
      SubseqExtend(a[..|a| - 1], b', b[|b| - 1]);
    } else {
      SubseqDropLast(a, b');
      SubseqExtend(a[..|a| - 1], b', b[|b| - 1]);
    }
  }

  /** A subsequence as long as the sequence is the sequence itself. */
  lemma {:induction false} SubseqSameLength<T>(a: seq<T>, b: seq<T>)
    requires IsSubseq(a, b) && |a| >= |b|
    ensures a == b
    decreases |b|
  {
    if b != [] {
      if a[|a| - 1] == b[|b| - 1] {
        SubseqSameLength(a[..|a| - 1], b[..|b| - 1]);
        assert a == a[..|a| - 1] + [a[|a| - 1]];
        assert b == b[..|b| - 1] + [b[|b| - 1]];
      } else {
        SubseqLength(a, b[..|b| - 1]);
      }
    }
  }

  lemma {:induction false} SubseqLength<T>(a: seq<T>, b: seq<T>)
    requires IsSubseq(a, b)
    ensures |a| <= |b|
    decreases |b|
  {
    if a != [] {
      if a[|a| - 1] == b[|b| - 1] {
        SubseqLength(a[..|a| - 1], b[..|b| - 1]);
      } else {
        SubseqLength(a, b[..|b| - 1]);
      }
    }
  }

  lemma SubseqAppendBoth<T>(a: seq<T>, b: seq<T>, y: T)
    requires IsSubseq(a, b)
    ensures IsSubseq(a + [y], b + [y])
  {
    assert (a + [y])[..|a|] == a;
    assert (b + [y])[..|b|] == b;
  }

  /** What `Filter` keeps stays in its original order. */
  lemma {:induction false} FilterIsSubseq<T(!new)>(s: seq<T>, keep: T -> bool)
    ensures IsSubseq(Filter(s, keep), s)
    decreases |s|
  {
    if s != [] {
      var init := s[..|s| - 1];
      FilterIsSubseq(init, keep);
      if !keep(s[|s| - 1]) {
        SubseqExtend(Filter(init, keep), init, s[|s| - 1]);
        assert init + [s[|s| - 1]] == s;
      } else {
        var f := Filter(s, keep);
        assert f[..|f| - 1] == Filter(init, keep);
      }
    }
  }

  /** With exactly one element failing the test, filtering removes just that element. */
  lemma {:induction false} FilterRemovesOne<T(!new)>(s: seq<T>, keep: T -> bool, k: nat)
    requires k < |s| && !keep(s[k])
    requires forall i :: 0 <= i < |s| && i != k ==> keep(s[i])
    ensures Filter(s, keep) == s[..k] + s[k + 1..]
    decreases |s|
  {
    var init := s[..|s| - 1];
    if k == |s| - 1 {
      FilterIdentity(init, keep);
    } else {
      FilterRemovesOne(init, keep, k);
      assert init[..k] == s[..k];
      assert init[k + 1..] + [s[|s| - 1]] == s[k + 1..];
    }
  }

  lemma FilterAppend<T(!new)>(s: seq<T>, x: T, keep: T -> bool)
    ensures Filter(s + [x], keep) == Filter(s, keep) + (if keep(x) then [x] else [])
  {
    assert (s + [x])[..|s + [x]| - 1] == s;
  }

  /** Two sequences that agree on which positions pass, and on the elements there, filter alike. */
  lemma {:induction false} FilterAgree<T(!new)>(a: seq<T>, b: seq<T>, keep: T -> bool)
    requires |a| == |b|
    requires forall i :: 0 <= i < |a| ==> keep(a[i]) == keep(b[i])
    requires forall i :: 0 <= i < |a| && keep(b[i]) ==> a[i] == b[i]
    ensures Filter(a, keep) == Filter(b, keep)
    decreases |a|
  {
    if a != [] {
      var n := |a| - 1;
      FilterAgree(a[..n], b[..n], keep);
    }
  }

  /** Filtering keeps everything exactly when every element passes. */
  lemma {:induction false} FilterIdentity<T(!new)>(s: seq<T>, keep: T -> bool)
    ensures Filter(s, keep) == s <==> forall i :: 0 <= i < |s| ==> keep(s[i])
    decreases |s|
  {
    if s != [] {
      var init := s[..|s| - 1];
      FilterIdentity(init, keep);
      assert s == init + [s[|s| - 1]];
      if !keep(s[|s| - 1]) {
        assert |Filter(s, keep)| <= |init| < |s|;
      } else if Filter(s, keep) == s {
        assert Filter(init, keep) == Filter(s, keep)[..|s| - 1] == init;
      }
    }
  }

  /** Filtering a sequence with one element in front. */
  lemma {:induction false} FilterPrepend<T(!new)>(x: T, s: seq<T>, keep: T -> bool)
    ensures Filter([x] + s, keep) == (if keep(x) then [x] else []) + Filter(s, keep)
    decreases |s|
  {
    if s != [] {
      var init := s[..|s| - 1];
      var last := s[|s| - 1];
      FilterPrepend(x, init, keep);
      assert ([x] + s)[..|[x] + s| - 1] == [x] + init;
      assert ([x] + s)[|[x] + s| - 1] == last;
    }
  }

  /** The test `p => p.id !== id`. */
  function OtherThan(id: string): NotePage -> bool {
    (p: NotePage) => p.id != id
  }

  /** `pages.filter(p => p.id !== id)`: every page with that id goes, the rest stay. */
  function WithoutId(pages: seq<NotePage>, id: string): (r: seq<NotePage>)
    ensures forall p :: p in r <==> p in pages && p.id != id
    ensures (forall i :: 0 <= i < |pages| ==> pages[i].id != id) ==> r == pages
  {
    FilterIdentity(pages, OtherThan(id));
    Filter(pages, OtherThan(id))
  }

  /** What `WithoutId` keeps stays in its original order. */
  lemma WithoutIdIsSubseq(pages: seq<NotePage>, id: string)
    ensures IsSubseq(WithoutId(pages, id), pages)
  {
    FilterIsSubseq(pages, OtherThan(id));
  }

  /** `pages.map(p => p.id === id ? { ...p, ...updates, updatedAt: now } : p)` */
  function UpdateMatching(pages: seq<NotePage>, id: string, u: PagePatch, now: int): (r: seq<NotePage>)
    ensures |r| == |pages|
    ensures forall i :: 0 <= i < |pages| ==>
      r[i] == if pages[i].id == id then ApplyPatch(pages[i], u).(updatedAt := now) else pages[i]
    decreases |pages|
  {
    if pages == [] then []
    else [if pages[0].id == id then ApplyPatch(pages[0], u).(updatedAt := now) else pages[0]]
         + UpdateMatching(pages[1..], id, u, now)
  }

  /** Index of the first page satisfying `p` (`Array.prototype.find`). */
  function FindFirst(pages: seq<NotePage>, p: NotePage -> bool): (r: Option<nat>)
    ensures r.Some? ==> r.value < |pages| && p(pages[r.value])
                        && forall j :: 0 <= j < r.value ==> !p(pages[j])
    ensures r.None? ==> forall j :: 0 <= j < |pages| ==> !p(pages[j])
    decreases |pages|
  {
    if pages == [] then None
    else if p(pages[0]) then Some(0)
    else match FindFirst(pages[1..], p)
      case None => None
      case Some(k) => Some(k + 1)
  }

  /** Lower-cases ASCII letters; other characters are unchanged. */
  function LowerChar(c: char): char {
    if 'A' <= c <= 'Z' then (c as int + 32) as char else c
  }

  function Lower(s: string): (r: string)
    ensures |r| == |s|
    ensures forall i :: 0 <= i < |s| ==> r[i] == LowerChar(s[i])
  {
    seq(|s|, i requires 0 <= i < |s| => LowerChar(s[i]))
  }
}
