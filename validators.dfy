/** The checks the main process applies to data arriving over IPC (electron/utils/validators.ts),
    over a model of the JavaScript values that can arrive. */
module Validators {
  import opened NoteTypes

  /** A value as the renderer can send it. Arrays and plain objects both have `typeof` 'object'. */
  datatype JsValue =
    | Undefined
    | Null
    | Bool(b: bool)
    | Number(n: real)
    | Str(s: string)
    | Array(items: seq<JsValue>)
    | Object(fields: map<string, JsValue>)

  /** `typeof v === 'object'` */
  predicate IsObjectType(v: JsValue) {
    v.Null? || v.Array? || v.Object?
  }

  /** Property access `v[key]`: a missing property, and any property of a non-object, reads as
      undefined. */
  function Get(v: JsValue, key: string): (r: JsValue)
    ensures !v.Object? ==> r == Undefined
    ensures v.Object? && key !in v.fields ==> r == Undefined
  {
    if v.Object? && key in v.fields then v.fields[key] else Undefined
  }

  /** `isValidNotePage`: an object (not null) whose id, title and notebookId are strings, whose
      two time stamps are numbers, and whose tags, objects, strokes and connections are arrays;
      what the arrays hold is not looked at. */
  predicate IsValidNotePage(v: JsValue)
    ensures IsValidNotePage(v) ==> v.Object?
    ensures IsValidNotePage(v) ==>
              {"id", "title", "notebookId", "tags", "createdAt", "updatedAt", "objects", "strokes", "connections"}
              <= v.fields.Keys
  {
    && IsObjectType(v) && !v.Null?
    && Get(v, "id").Str? && Get(v, "title").Str? && Get(v, "notebookId").Str?
    && Get(v, "tags").Array?
    && Get(v, "createdAt").Number? && Get(v, "updatedAt").Number?
    && Get(v, "objects").Array? && Get(v, "strokes").Array? && Get(v, "connections").Array?
  }

  /** `isValidPages`: an array every element of which is a valid page. */
  predicate IsValidPages(v: JsValue)
    ensures IsValidPages(v) <==> v.Array? && forall x :: x in v.items ==> IsValidNotePage(x)
    ensures v == Array([]) ==> IsValidPages(v)
  {
    v.Array? && forall i :: 0 <= i < |v.items| ==> IsValidNotePage(v.items[i])
  }

  /** `isValidAppConfig`: an object (not null) whose theme, when present, is one of the three
      names, whose `lastActivePageId`, when present, is a string, and whose `sidebarWidth`, when
      present, is a number. */
  predicate IsValidAppConfig(v: JsValue)
    ensures IsValidAppConfig(v) ==> v.Object? || v.Array?
    ensures v.Object? && v.fields == map[] ==> IsValidAppConfig(v)
    ensures (v.Object? && "theme" in v.fields && v.fields["theme"].Str?
             && v.fields["theme"].s !in {"light", "dark", "system"}) ==> !IsValidAppConfig(v)
  {
    && IsObjectType(v) && !v.Null?
    && (Get(v, "theme") != Undefined ==> Get(v, "theme") in [Str("light"), Str("dark"), Str("system")])
    && (Get(v, "lastActivePageId") != Undefined ==> Get(v, "lastActivePageId").Str?)
    && (Get(v, "sidebarWidth") != Undefined ==> Get(v, "sidebarWidth").Number?)
  }

  /** A page as the app sends it, as far as the check looks: its fields as properties, its
      blocks, strokes and connections encoded by whatever the caller chooses. */
  function PageValue(p: NotePage, obj: CanvasObject -> JsValue, stroke: Stroke -> JsValue,
                     conn: Connection -> JsValue): JsValue
  {
    Object(map[
      "id" := Str(p.id), "notebookId" := Str(p.notebookId), "title" := Str(p.title),
      "tags" := Array(seq(|p.tags|, i requires 0 <= i < |p.tags| => Str(p.tags[i]))),
      "createdAt" := Number(p.createdAt as real), "updatedAt" := Number(p.updatedAt as real),
      "objects" := Array(seq(|p.objects|, i requires 0 <= i < |p.objects| => obj(p.objects[i]))),
      "strokes" := Array(seq(|p.strokes|, i requires 0 <= i < |p.strokes| => stroke(p.strokes[i]))),
      "connections" := Array(seq(|p.connections|, i requires 0 <= i < |p.connections| => conn(p.connections[i])))])
  }

  /** Every page the app sends passes the page check, however its contents are encoded. */
  lemma SentPageIsValid(p: NotePage, obj: CanvasObject -> JsValue, stroke: Stroke -> JsValue,
                        conn: Connection -> JsValue)
    ensures IsValidNotePage(PageValue(p, obj, stroke, conn))
  {
    var v := PageValue(p, obj, stroke, conn);
    assert Get(v, "id") == Str(p.id) && Get(v, "title") == Str(p.title);
    assert Get(v, "notebookId") == Str(p.notebookId) && Get(v, "tags").Array?;
    assert Get(v, "createdAt").Number? && Get(v, "updatedAt").Number?;
    assert Get(v, "objects").Array? && Get(v, "strokes").Array? && Get(v, "connections").Array?;
  }

  /** Every list of pages the app sends passes the pages check. */
  lemma SentPagesAreValid(ps: seq<NotePage>, obj: CanvasObject -> JsValue, stroke: Stroke -> JsValue,
                          conn: Connection -> JsValue)
    ensures IsValidPages(Array(seq(|ps|, i requires 0 <= i < |ps| => PageValue(ps[i], obj, stroke, conn))))
  {
    forall i | 0 <= i < |ps| {
      SentPageIsValid(ps[i], obj, stroke, conn);
    }
  }

  /** Null and every value whose `typeof` is not 'object' fail both object checks. */
  lemma NonObjectsRejected(v: JsValue)
    requires v.Undefined? || v.Null? || v.Bool? || v.Number? || v.Str?
    ensures !IsValidNotePage(v) && !IsValidAppConfig(v)
  {
  }

  /** The page check looks only at the kind of each listed property: replacing what an array
      property holds by any other array never changes the verdict. */
  lemma PageCheckIgnoresContents(fields: map<string, JsValue>, key: string, items: seq<JsValue>)
    requires key in fields && fields[key].Array?
    ensures IsValidNotePage(Object(fields[key := Array(items)])) == IsValidNotePage(Object(fields))
  {
  }

  /** The empty array is a valid list of pages, and two lists are valid together exactly when
      each is. */
  lemma PagesCheckSplits(a: seq<JsValue>, b: seq<JsValue>)
    ensures IsValidPages(Array([]))
    ensures IsValidPages(Array(a + b)) <==> IsValidPages(Array(a)) && IsValidPages(Array(b))
  {
    if IsValidPages(Array(a)) && IsValidPages(Array(b)) {
      forall i | 0 <= i < |a + b|
        ensures IsValidNotePage((a + b)[i])
      {
        if i >= |a| {
          assert (a + b)[i] == b[i - |a|];
        }
      }
    }
    if IsValidPages(Array(a + b)) {
      forall i | 0 <= i < |a|
        ensures IsValidNotePage(a[i])
      {
        assert (a + b)[i] == a[i];
      }
      forall i | 0 <= i < |b|
        ensures IsValidNotePage(b[i])
      {
        assert (a + b)[|a| + i] == b[i];
      }
    }
  }

  /** The empty object is a valid configuration, and a theme alone is accepted exactly when it
      is 'light', 'dark' or 'system'. */
  lemma ConfigThemes(theme: string)
    ensures IsValidAppConfig(Object(map[]))
    ensures IsValidAppConfig(Object(map["theme" := Str(theme)])) <==> theme in {"light", "dark", "system"}
  {
    var v := Object(map["theme" := Str(theme)]);
    assert Get(v, "theme") == Str(theme);
  }

  /** An array has `typeof` 'object' and none of the three properties, so it passes the
      configuration check (and an array is never a valid page, for lack of an id). */
  lemma ArraysPassConfigCheck(items: seq<JsValue>)
    ensures IsValidAppConfig(Array(items))
    ensures !IsValidNotePage(Array(items))
  {
  }
}
