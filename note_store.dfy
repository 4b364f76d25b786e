/** The global notes store (src/features/notes/stores/note-store.ts): reducers from one store
    state to the next over the page list and the active page id, and the slice of the state
    that the persistence layer writes and reads back. */
module NoteStore {
  import opened NoteTypes

  datatype NoteState = NoteState(pages: seq<NotePage>, activePageId: Option<string>)

  /** What is written to storage. */
  datatype PersistedState = PersistedState(pages: seq<NotePage>, activePageId: Option<string>)

  /** The version stamped on what is persisted. */
  const StoreVersion: nat := 1

  const InitialState: NoteState := NoteState([], None)

  /** `setPages`: the page list is replaced and the active id kept. */
  function SetPages(s: NoteState, pages: seq<NotePage>): (r: NoteState)
    ensures r.pages == pages && r.activePageId == s.activePageId
  {
    s.(pages := pages)
  }

  /** `addPage`: the new page goes first; the others follow unchanged and in order. */
  function AddPage(s: NoteState, page: NotePage): (r: NoteState)
    ensures |r.pages| == |s.pages| + 1 && r.pages[0] == page && r.pages[1..] == s.pages
    ensures r.activePageId == s.activePageId
  {
    s.(pages := [page] + s.pages)
  }

  /** `updatePage`: the pages with that id take the present fields of the patch and the time
      `now` as `updatedAt`; every other page is unchanged, and so are the order and the ids. */
  function UpdatePage(s: NoteState, id: string, updates: PagePatch, now: int): (r: NoteState)
    ensures |r.pages| == |s.pages| && r.activePageId == s.activePageId
    ensures forall i :: 0 <= i < |s.pages| ==> r.pages[i].id == s.pages[i].id
    ensures forall i :: 0 <= i < |s.pages| && s.pages[i].id != id ==> r.pages[i] == s.pages[i]
    ensures forall i :: 0 <= i < |s.pages| && s.pages[i].id == id ==>
              r.pages[i] == ApplyPatch(s.pages[i], updates).(updatedAt := now)
  {
    s.(pages := UpdateMatching(s.pages, id, updates, now))
  }

  /** `deletePage`: the pages with that id go; the others stay, in order. */
  function DeletePage(s: NoteState, id: string): (r: NoteState)
    ensures forall p :: p in r.pages <==> p in s.pages && p.id != id
    ensures IsSubseq(r.pages, s.pages)
    ensures r.activePageId == s.activePageId
  {
    WithoutIdIsSubseq(s.pages, id);
    s.(pages := WithoutId(s.pages, id))
  }

  /** `setActivePageId`: only the active id changes. */
  function SetActivePageId(s: NoteState, id: Option<string>): (r: NoteState)
    ensures r.activePageId == id && r.pages == s.pages
  {
    s.(activePageId := id)
  }

  /** `partialize`: the actions are dropped and the two data fields are kept. */
  function Partialize(s: NoteState): (r: PersistedState)
    ensures r.pages == s.pages && r.activePageId == s.activePageId
  {
    PersistedState(s.pages, s.activePageId)
  }

  /** `migrate`: every stored version is taken as it is. */
  function Migrate(persisted: PersistedState, version: int): PersistedState {
    persisted
  }

  /** Rehydration: the stored fields replace those of the freshly created store. */
  function Rehydrate(current: NoteState, persisted: PersistedState): (r: NoteState)
    ensures r.pages == persisted.pages && r.activePageId == persisted.activePageId
  {
    current.(pages := persisted.pages, activePageId := persisted.activePageId)
  }

  /** Persisting a state and reading it back, whatever version it was stored under, restores
      that state exactly. */
  lemma PersistRoundTrip(s: NoteState, version: int)
    ensures Rehydrate(InitialState, Migrate(Partialize(s), version)) == s
  {
  }

  /** Adding a page and then deleting its id gives back the store as it was, when no page
      already had that id. */
  lemma DeleteUndoesAdd(s: NoteState, page: NotePage)
    requires forall i :: 0 <= i < |s.pages| ==> s.pages[i].id != page.id
    ensures DeletePage(AddPage(s, page), page.id) == s
  {
    FilterPrepend(page, s.pages, OtherThan(page.id));
    FilterIdentity(s.pages, OtherThan(page.id));
    assert DeletePage(AddPage(s, page), page.id).pages == Filter([page] + s.pages, OtherThan(page.id));
  }

  /** Updating pages and then deleting their id is the same as deleting straight away. */
  lemma DeleteAfterUpdate(s: NoteState, id: string, updates: PagePatch, now: int)
    ensures DeletePage(UpdatePage(s, id, updates, now), id) == DeletePage(s, id)
  {
    var u := UpdatePage(s, id, updates, now).pages;
    FilterAgree(u, s.pages, OtherThan(id));
  }

  /** With no page carrying the id, an update changes nothing and stamps nothing. */
  lemma UpdateUnknownId(s: NoteState, id: string, updates: PagePatch, now: int)
    requires forall i :: 0 <= i < |s.pages| ==> s.pages[i].id != id
    ensures UpdatePage(s, id, updates, now) == s
  {
    assert UpdatePage(s, id, updates, now).pages == s.pages;
  }
}
