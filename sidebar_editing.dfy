/** Inline renaming of a page in the sidebar (src/features/sidebar/hooks/use-sidebar-editing.ts):
    the id being edited and the edit buffer, set by starting an edit, and cleared by finishing
    it (which may hand a title update to the page handler) or by Escape. The handlers read the
    latest values through refs, so each method reads the current fields. */
module SidebarEditing {
  import opened NoteTypes

  /** The `{ title }` update handed to `onUpdatePage`. */
  datatype TitleUpdate = TitleUpdate(id: string, title: string)

  /** The update finishing an edit produces: one exactly when an id is being edited (a truthy
      one), a handler is present, a page with that id exists, and the first such page's title
      differs from the buffer. The buffer is taken as typed, untrimmed, even when empty. */
  function FinishUpdate(pages: seq<NotePage>, editingId: Option<string>, title: string, hasHandler: bool)
    : (r: Option<TitleUpdate>)
    ensures r.Some? ==> Truthy(editingId) && hasHandler && r.value == TitleUpdate(editingId.value, title)
    ensures r.Some? <==>
              && Truthy(editingId) && hasHandler
              && exists i :: 0 <= i < |pages| && pages[i].id == editingId.value && pages[i].title != title
                             && forall j :: 0 <= j < i ==> pages[j].id != editingId.value
  {
    if !Truthy(editingId) || !hasHandler then None
    else
      match FindFirst(pages, (p: NotePage) => p.id == editingId.value)
      case None => None
      case Some(k) => if pages[k].title != title then Some(TitleUpdate(editingId.value, title)) else None
  }

  /** Applying the update renames the page being edited and leaves every other page as it was. */
  lemma FinishRenames(pages: seq<NotePage>, editingId: Option<string>, title: string, now: int, i: nat)
    requires FinishUpdate(pages, editingId, title, true).Some?
    requires i < |pages|
    ensures var u := FinishUpdate(pages, editingId, title, true).value;
            var after := UpdateMatching(pages, u.id, NoPatch.(title := Some(u.title)), now);
            && (pages[i].id == editingId.value ==> after[i].title == title && after[i].updatedAt == now)
            && (pages[i].id != editingId.value ==> after[i] == pages[i])
  {
  }

  class Editor {
    /** `editingPageId` */
    var editingPageId: Option<string>
    /** `editingTitle` */
    var editingTitle: string

    constructor()
      ensures editingPageId.None? && editingTitle == ""
    {
      editingPageId, editingTitle := None, "";
    }

    /** `handleStartEditing`: edit this page, starting from its title. */
    method StartEditing(page: NotePage)
      modifies this
      ensures editingPageId == Some(page.id) && editingTitle == page.title
    {
      editingPageId, editingTitle := Some(page.id), page.title;
    }

    /** `setEditingTitle`, from the input field. */
    method SetEditingTitle(title: string)
      modifies this
      ensures editingTitle == title && editingPageId == old(editingPageId)
    {
      editingTitle := title;
    }

    /** `handleFinishEditing`: hand over the update, if any, and stop editing. */
    method FinishEditing(pages: seq<NotePage>, hasHandler: bool) returns (update: Option<TitleUpdate>)
      modifies this
      ensures update == FinishUpdate(pages, old(editingPageId), old(editingTitle), hasHandler)
      ensures editingPageId.None? && editingTitle == ""
    {
      update := FinishUpdate(pages, editingPageId, editingTitle, hasHandler);
      editingPageId, editingTitle := None, "";
    }

    /** `handleKeyDown`: Enter finishes the edit, Escape abandons it without an update, and any
        other key changes nothing. */
    method KeyDown(key: string, pages: seq<NotePage>, hasHandler: bool) returns (update: Option<TitleUpdate>)
      modifies this
      ensures key == "Enter" ==>
                update == FinishUpdate(pages, old(editingPageId), old(editingTitle), hasHandler)
                && editingPageId.None? && editingTitle == ""
      ensures key == "Escape" ==> update.None? && editingPageId.None? && editingTitle == ""
      ensures key != "Enter" && key != "Escape" ==>
                update.None? && editingPageId == old(editingPageId) && editingTitle == old(editingTitle)
    {
      update := None;
      if key == "Enter" {
        update := FinishEditing(pages, hasHandler);
      } else if key == "Escape" {
        editingPageId, editingTitle := None, "";
      }
    }
  }

  /** Renaming a page to the empty title and pressing Enter hands over the empty title. */
  method RenameToEmpty(page: NotePage) returns (update: Option<TitleUpdate>, idAfter: Option<string>)
    requires page.id != "" && page.title != ""
    ensures update == Some(TitleUpdate(page.id, "")) && idAfter.None?
  {
    var e := new Editor();
    e.StartEditing(page);
    e.SetEditingTitle("");
    update := e.KeyDown("Enter", [page], true);
    idAfter := e.editingPageId;
  }

  /** Pressing Enter without changing the title hands over nothing, and so does Escape after a
      change. */
  method UnchangedOrAbandoned(page: NotePage, title: string) returns (first: Option<TitleUpdate>, second: Option<TitleUpdate>)
    requires page.id != ""
    ensures first.None? && second.None?
  {
    var e := new Editor();
    e.StartEditing(page);
    first := e.KeyDown("Enter", [page], true);
    e.StartEditing(page);
    e.SetEditingTitle(title);
    second := e.KeyDown("Escape", [page], true);
  }
}
