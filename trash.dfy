/** The trash (src/features/notes/hooks/use-trash.ts): the pages in the trash, moving a page
    to the trash and back, deleting it for good, and the automatic purge of pages that have
    been in the trash for two weeks. The handlers act on the notes state; the clock and the
    user's answer to the confirmation dialog are parameters. */
module Trash {
  import opened NoteTypes
  import opened Notes

  /** Fourteen days in milliseconds. */
  const TwoWeeksMs: int := 14 * 24 * 60 * 60 * 1000

  /** The test `page => page.deletedAt !== undefined`. */
  const InTrash: NotePage -> bool := (p: NotePage) => p.deletedAt.Some?

  /** `trashedPages`: exactly the pages carrying a deletion time, in their order. */
  function TrashedPages(pages: seq<NotePage>): (r: seq<NotePage>)
    ensures forall p :: p in r <==> p in pages && p.deletedAt.Some?
    ensures IsSubseq(r, pages)
  {
    FilterIsSubseq(pages, InTrash);
    Filter(pages, InTrash)
  }

  /** A page is purged when its deletion time is truthy and earlier than two weeks before `now`. */
  predicate Expired(p: NotePage, now: int)
    ensures Expired(p, now) ==> p.deletedAt.Some? && p.deletedAt.value + TwoWeeksMs < now
    ensures p.deletedAt.None? || p.deletedAt == Some(0) ==> !Expired(p, now)
  {
    TruthyNum(p.deletedAt) && p.deletedAt.value < now - TwoWeeksMs
  }

  function NotExpired(now: int): NotePage -> bool {
    (p: NotePage) => !Expired(p, now)
  }

  /** What `cleanupOldTrash` keeps: every page that has not expired, in order. */
  function Cleaned(pages: seq<NotePage>, now: int): (r: seq<NotePage>)
    ensures forall p :: p in r <==> p in pages && !Expired(p, now)
    ensures IsSubseq(r, pages)
  {
    FilterIsSubseq(pages, NotExpired(now));
    Filter(pages, NotExpired(now))
  }

  /** The soft delete: the pages with that id get `now` as their deletion and update time;
      every other page, and the order, is unchanged. */
  function SoftDeleted(pages: seq<NotePage>, id: string, now: int): (r: seq<NotePage>)
    ensures |r| == |pages|
    ensures forall i :: 0 <= i < |pages| && pages[i].id != id ==> r[i] == pages[i]
    ensures forall i :: 0 <= i < |pages| && pages[i].id == id ==>
              r[i] == pages[i].(deletedAt := Some(now), updatedAt := now)
  {
    seq(|pages|, i requires 0 <= i < |pages| =>
      if pages[i].id == id then pages[i].(deletedAt := Some(now), updatedAt := now) else pages[i])
  }

  /** The restore: the pages with that id lose their deletion time and get `now` as update
      time; every other page, and the order, is unchanged. */
  function Restored(pages: seq<NotePage>, id: string, now: int): (r: seq<NotePage>)
    ensures |r| == |pages|
    ensures forall i :: 0 <= i < |pages| && pages[i].id != id ==> r[i] == pages[i]
    ensures forall i :: 0 <= i < |pages| && pages[i].id == id ==>
              r[i] == pages[i].(deletedAt := None, updatedAt := now)
  {
    seq(|pages|, i requires 0 <= i < |pages| =>
      if pages[i].id == id then pages[i].(deletedAt := None, updatedAt := now) else pages[i])
  }

  /** The page made active after the active page `id` went to the trash: the first other page
      not in the trash, unless its id is empty; none when there is no such page. */
  function NextActive(updated: seq<NotePage>, id: string): (r: Option<string>)
    ensures r.Some? ==> r.value != id && r.value != ""
                        && exists i :: 0 <= i < |updated| && updated[i].id == r.value && IsLive(updated[i])
    ensures (forall i :: 0 <= i < |updated| ==> updated[i].id == id || !IsLive(updated[i])) ==> r.None?
    ensures forall k :: 0 <= k < |updated| && updated[k].id != id && IsLive(updated[k])
                        && (forall j :: 0 <= j < k ==> updated[j].id == id || !IsLive(updated[j])) ==>
              r == (if updated[k].id != "" then Some(updated[k].id) else None)
  {
    match FindFirst(updated, (p: NotePage) => p.id != id && IsLive(p))
    case Some(k) => if updated[k].id != "" then Some(updated[k].id) else None
    case None => None
  }

  /** A soft-deleted page is in the trash afterwards, and no longer shown. */
  lemma SoftDeletedIsTrashed(pages: seq<NotePage>, id: string, now: int, i: nat)
    requires i < |pages| && pages[i].id == id
    ensures SoftDeleted(pages, id, now)[i] in TrashedPages(SoftDeleted(pages, id, now))
    ensures now != 0 ==> ActivePage(SoftDeleted(pages, id, now), Some(id)).None?
  {
  }

  /** A restored page is out of the trash and shown again. */
  lemma RestoredIsShown(pages: seq<NotePage>, id: string, now: int, i: nat)
    requires i < |pages| && pages[i].id == id
    ensures Restored(pages, id, now)[i] !in TrashedPages(Restored(pages, id, now))
    ensures ActivePage(Restored(pages, id, now), Some(id)).Some?
  {
    assert IsLive(Restored(pages, id, now)[i]);
  }

  /** Restoring a page that was moved to the trash gives back the page as it was before the
      soft delete, with only its update time moved on. */
  lemma RestoreUndoesSoftDelete(pages: seq<NotePage>, id: string, deletedAt: int, restoredAt: int)
    requires forall i :: 0 <= i < |pages| && pages[i].id == id ==> pages[i].deletedAt.None?
    ensures Restored(SoftDeleted(pages, id, deletedAt), id, restoredAt) == UpdateMatching(pages, id, NoPatch, restoredAt)
  {
    var r := Restored(SoftDeleted(pages, id, deletedAt), id, restoredAt);
    var u := UpdateMatching(pages, id, NoPatch, restoredAt);
    forall i | 0 <= i < |pages|
      ensures r[i] == u[i]
    {
      if pages[i].id == id {
        assert ApplyPatch(pages[i], NoPatch) == pages[i];
      }
    }
  }

  /** The purge never removes a page that is shown, so the active page survives it. */
  lemma CleanupKeepsShown(pages: seq<NotePage>, now: int, activeId: Option<string>)
    requires ActivePage(pages, activeId).Some?
    ensures ActivePage(Cleaned(pages, now), activeId).Some?
  {
    var i :| 0 <= i < |pages| && Some(pages[i].id) == activeId && IsLive(pages[i]);
    assert pages[i] in Cleaned(pages, now);
    var j :| 0 <= j < |Cleaned(pages, now)| && Cleaned(pages, now)[j] == pages[i];
  }

  /** Moving a page other than the active one to the trash leaves the active page shown. */
  lemma SoftDeleteKeepsShown(pages: seq<NotePage>, id: string, now: int, activeId: Option<string>)
    requires ActivePage(pages, activeId).Some? && activeId != Some(id)
    ensures ActivePage(SoftDeleted(pages, id, now), activeId).Some?
  {
    var i :| 0 <= i < |pages| && Some(pages[i].id) == activeId && IsLive(pages[i]);
    assert SoftDeleted(pages, id, now)[i] == pages[i];
  }

  /** The page chosen after the active page went to the trash is shown. */
  lemma NextActiveIsShown(updated: seq<NotePage>, id: string)
    ensures NextActive(updated, id).Some? ==> ActivePage(updated, NextActive(updated, id)).Some?
  {
    var r := NextActive(updated, id);
    if r.Some? {
      var i :| 0 <= i < |updated| && updated[i].id == r.value && IsLive(updated[i]);
      assert Some(updated[i].id) == r;
    }
  }

  /** Deleting a page for good leaves every other shown page shown. */
  lemma PermanentDeleteKeepsShown(pages: seq<NotePage>, id: string, activeId: Option<string>)
    requires ActivePage(pages, activeId).Some? && activeId != Some(id)
    ensures ActivePage(WithoutId(pages, id), activeId).Some?
  {
    var i :| 0 <= i < |pages| && Some(pages[i].id) == activeId && IsLive(pages[i]);
    assert pages[i] in WithoutId(pages, id);
    var j :| 0 <= j < |WithoutId(pages, id)| && WithoutId(pages, id)[j] == pages[i];
  }

  /** `cleanupOldTrash` at time `now`. */
  method CleanupOldTrash(w: Workspace, now: int)
    modifies w
    ensures w.pages == Cleaned(old(w.pages), now) && w.activePageId == old(w.activePageId)
    ensures old(w.ActiveShown()) ==> w.ActiveShown()
  {
    w.pages := Cleaned(w.pages, now);
    if old(w.ActiveShown()) && w.activePageId.Some? {
      CleanupKeepsShown(old(w.pages), now, w.activePageId);
    }
  }

  /** `handleDeletePage`: the page goes to the trash; when it was the active page, the first
      other page still shown becomes active, or none. */
  method DeletePage(w: Workspace, id: string, now: int)
    modifies w
    ensures w.pages == SoftDeleted(old(w.pages), id, now)
    ensures w.activePageId == (if old(w.activePageId) == Some(id) then NextActive(w.pages, id)
                               else old(w.activePageId))
    ensures old(w.ActiveShown()) || old(w.activePageId) == Some(id) ==> w.ActiveShown()
  {
    var updated := SoftDeleted(w.pages, id, now);
    w.pages := updated;
    if w.activePageId == Some(id) {
      w.activePageId := NextActive(updated, id);
      NextActiveIsShown(updated, id);
    } else if old(w.ActiveShown()) && w.activePageId.Some? {
      SoftDeleteKeepsShown(old(w.pages), id, now, w.activePageId);
    }
  }

  /** `handleRestorePage`: the page comes back from the trash; the active id is untouched. */
  method RestorePage(w: Workspace, id: string, now: int)
    modifies w
    ensures w.pages == Restored(old(w.pages), id, now) && w.activePageId == old(w.activePageId)
    ensures old(w.ActiveShown()) ==> w.ActiveShown()
  {
    w.pages := Restored(w.pages, id, now);
    if old(w.ActiveShown()) && w.activePageId.Some? {
      var i :| 0 <= i < |old(w.pages)| && Some(old(w.pages)[i].id) == w.activePageId && IsLive(old(w.pages)[i]);
      assert IsLive(w.pages[i]) && Some(w.pages[i].id) == w.activePageId;
    }
  }

  /** `handlePermanentDeletePage`: without confirmation nothing changes; otherwise the pages
      with that id are removed, and the active id is cleared if it was theirs. */
  method PermanentDeletePage(w: Workspace, id: string, confirmed: bool)
    modifies w
    ensures !confirmed ==> w.pages == old(w.pages) && w.activePageId == old(w.activePageId)
    ensures confirmed ==> w.pages == WithoutId(old(w.pages), id)
    ensures confirmed ==> w.activePageId == (if old(w.activePageId) == Some(id) then None else old(w.activePageId))
    ensures old(w.ActiveShown()) ==> w.ActiveShown()
  {
    if !confirmed {
      return;
    }
    w.pages := WithoutId(w.pages, id);
    if w.activePageId == Some(id) {
      w.activePageId := None;
    } else if old(w.ActiveShown()) && w.activePageId.Some? {
      PermanentDeleteKeepsShown(old(w.pages), id, w.activePageId);
    }
  }

  /** Deleting the only page, which was active, leaves nothing active; restoring it brings it
      back without making it active again. */
  method DeleteOnlyPageThenRestore(now: int) returns (activeAfterDelete: Option<string>, trashed: nat,
                                                     activeAfterRestore: Option<string>, trashedAfter: nat)
    ensures activeAfterDelete.None? && trashed == 1
    ensures activeAfterRestore.None? && trashedAfter == 0
  {
    var w := new Workspace();
    w.AddPage("a", now);
    DeletePage(w, "a", now);
    activeAfterDelete := w.activePageId;
    trashed := |TrashedPages(w.pages)|;
    assert w.pages[0] in TrashedPages(w.pages);
    RestorePage(w, "a", now);
    activeAfterRestore := w.activePageId;
    trashedAfter := |TrashedPages(w.pages)|;
  }
}
