/** The notes hook (src/features/notes/hooks/use-notes.ts): the page list and the active page
    id held as state, the choice of the active page when the saved notes are loaded, adding and
    updating pages, and the page shown as active. Loading, saving, the clock and id generation
    are the caller's: their results arrive as parameters. */
module Notes {
  import opened NoteTypes

  /** A page is shown (not in the trash) when its `deletedAt` is falsy. */
  predicate IsLive(p: NotePage) {
    !TruthyNum(p.deletedAt)
  }

  /** The page created when nothing was saved; `loadedAt` is the time the module was loaded. */
  function InitialPage(loadedAt: int): (r: NotePage)
    ensures r.id == "1" && r.notebookId == "default" && r.createdAt == loadedAt && r.updatedAt == loadedAt
    ensures IsLive(r) && !TruthyBool(r.isFavorite) && r.objects == [] && r.connections == [] && r.strokes == []
  {
    NotePage("1", "default", "メモの魔力 - 実践ノート", ["Guide"], loadedAt, loadedAt,
             None, None, [], [], [], None)
  }

  /** The empty page `handleAddPage` creates. */
  function NewPage(id: string, now: int): (r: NotePage)
    ensures r.id == id && r.notebookId == "default" && r.title == "" && r.tags == []
    ensures r.createdAt == now && r.updatedAt == now
    ensures IsLive(r) && !TruthyBool(r.isFavorite) && r.objects == [] && r.connections == [] && r.strokes == []
  {
    NotePage(id, "default", "", [], now, now, None, None, [], [], [], None)
  }

  /** The page the canvas shows: the first page with the active id that is not in the trash. */
  function ActivePage(pages: seq<NotePage>, activeId: Option<string>): (r: Option<NotePage>)
    ensures r.Some? <==> exists i :: 0 <= i < |pages| && Some(pages[i].id) == activeId && IsLive(pages[i])
    ensures r.Some? ==> r.value in pages && Some(r.value.id) == activeId && IsLive(r.value)
  {
    match FindFirst(pages, (p: NotePage) => Some(p.id) == activeId && IsLive(p))
    case None => None
    case Some(k) => Some(pages[k])
  }

  /** The active id chosen on a non-empty load: the saved last-active id when a page with that
      id is not in the trash; otherwise the id of the first page not in the trash, unless that
      id is empty or there is no such page, in which case none. */
  function ChooseActive(saved: seq<NotePage>, lastActiveId: Option<string>): (r: Option<string>)
    ensures (exists i :: 0 <= i < |saved| && Some(saved[i].id) == lastActiveId && IsLive(saved[i])) ==>
              r == lastActiveId
    ensures r.Some? ==> exists i :: 0 <= i < |saved| && saved[i].id == r.value && IsLive(saved[i])
    ensures (forall i :: 0 <= i < |saved| ==> !IsLive(saved[i])) ==> r.None?
    ensures r.None? ==> forall i :: 0 <= i < |saved| && IsLive(saved[i]) ==>
                          Some(saved[i].id) != lastActiveId
                          && exists j :: 0 <= j <= i && IsLive(saved[j]) && saved[j].id == ""
    ensures (forall i :: 0 <= i < |saved| && IsLive(saved[i]) ==> Some(saved[i].id) != lastActiveId) ==>
              forall k :: 0 <= k < |saved| && IsLive(saved[k]) && (forall j :: 0 <= j < k ==> !IsLive(saved[j])) ==>
                r == (if saved[k].id != "" then Some(saved[k].id) else None)
  {
    match FindFirst(saved, (p: NotePage) => Some(p.id) == lastActiveId && IsLive(p))
    case Some(k) => Some(saved[k].id)
    case None =>
      match FindFirst(saved, (p: NotePage) => IsLive(p))
      case Some(k) => if saved[k].id != "" then Some(saved[k].id) else None
      case None => None
  }

  /** The id chosen on load always names a page that is then shown. */
  lemma ChosenPageIsShown(saved: seq<NotePage>, lastActiveId: Option<string>)
    ensures ChooseActive(saved, lastActiveId).Some? ==>
              ActivePage(saved, ChooseActive(saved, lastActiveId)).Some?
  {
    var r := ChooseActive(saved, lastActiveId);
    if r.Some? {
      var i :| 0 <= i < |saved| && saved[i].id == r.value && IsLive(saved[i]);
      assert Some(saved[i].id) == r;
    }
  }

  /** A newly added page, put first, is the page shown for its id. */
  lemma AddedPageIsShown(pages: seq<NotePage>, id: string, now: int)
    ensures ActivePage([NewPage(id, now)] + pages, Some(id)) == Some(NewPage(id, now))
  {
    assert ([NewPage(id, now)] + pages)[0] == NewPage(id, now);
  }

  /** Updating pages keeps every shown page shown: a patch changes neither ids nor `deletedAt`. */
  lemma UpdateKeepsShown(pages: seq<NotePage>, id: string, u: PagePatch, now: int, activeId: Option<string>)
    requires ActivePage(pages, activeId).Some?
    ensures ActivePage(UpdateMatching(pages, id, u, now), activeId).Some?
  {
    var i :| 0 <= i < |pages| && Some(pages[i].id) == activeId && IsLive(pages[i]);
    var r := UpdateMatching(pages, id, u, now);
    assert r[i].id == pages[i].id && r[i].deletedAt == pages[i].deletedAt;
  }

  /** The state `useNotes` holds. */
  class Workspace {
    var pages: seq<NotePage>
    var activePageId: Option<string>

    /** The active id, when there is one, names a page that is shown. */
    predicate ActiveShown()
      reads this
    {
      activePageId.Some? ==> ActivePage(pages, activePageId).Some?
    }

    constructor()
      ensures pages == [] && activePageId.None? && ActiveShown()
    {
      pages, activePageId := [], None;
    }

    /** The load effect, given what storage returned: saved pages are taken as they are and
        the active page chosen among them; with nothing saved the initial page is created and
        made active. */
    method Load(saved: seq<NotePage>, lastActiveId: Option<string>, loadedAt: int)
      modifies this
      ensures |saved| > 0 ==> pages == saved && activePageId == ChooseActive(saved, lastActiveId)
      ensures |saved| == 0 ==> pages == [InitialPage(loadedAt)] && activePageId == Some("1")
      ensures ActiveShown()
    {
      if |saved| > 0 {
        pages := saved;
        activePageId := ChooseActive(saved, lastActiveId);
        ChosenPageIsShown(saved, lastActiveId);
      } else {
        pages := [InitialPage(loadedAt)];
        activePageId := Some("1");
        assert pages[0].id == "1" && IsLive(pages[0]);
      }
    }

    /** `handleAddPage`: a new empty page goes first and becomes active. */
    method AddPage(freshId: string, now: int)
      modifies this
      ensures pages == [NewPage(freshId, now)] + old(pages)
      ensures activePageId == Some(freshId)
      ensures ActivePage(pages, activePageId) == Some(NewPage(freshId, now))
    {
      pages := [NewPage(freshId, now)] + pages;
      activePageId := Some(freshId);
      AddedPageIsShown(old(pages), freshId, now);
    }

    /** `handleUpdatePage`: the patch and the time stamp go to the pages with that id only. */
    method UpdatePage(id: string, u: PagePatch, now: int)
      modifies this
      ensures pages == UpdateMatching(old(pages), id, u, now) && activePageId == old(activePageId)
      ensures old(ActiveShown()) ==> ActiveShown()
    {
      pages := UpdateMatching(pages, id, u, now);
      if old(ActiveShown()) && activePageId.Some? {
        UpdateKeepsShown(old(pages), id, u, now, activePageId);
      }
    }

    /** `handleUpdatePageTitle`: a title-only update of the pages with that id. */
    method UpdatePageTitle(id: string, newTitle: string, now: int)
      modifies this
      ensures pages == UpdateMatching(old(pages), id, NoPatch.(title := Some(newTitle)), now)
      ensures activePageId == old(activePageId)
      ensures old(ActiveShown()) ==> ActiveShown()
    {
      UpdatePage(id, NoPatch.(title := Some(newTitle)), now);
    }
  }

  /** Loading nothing and adding a page leaves two pages, the new one first and shown. */
  method FirstRunThenAdd(loadedAt: int, now: int) returns (count: nat, shown: Option<NotePage>)
    ensures count == 2 && shown == Some(NewPage("p2", now))
  {
    var w := new Workspace();
    w.Load([], None, loadedAt);
    w.AddPage("p2", now);
    count := |w.pages|;
    shown := ActivePage(w.pages, w.activePageId);
  }
}
