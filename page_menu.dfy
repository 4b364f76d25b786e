/** The actions of a page's context and dropdown menus
    (src/features/sidebar/components/parts/page-item-menu.tsx): restore and permanent delete
    for a page in the trash, rename and delete for any other. */
module PageMenu {
  import opened NoteTypes

  datatype Icon = Pencil | RotateCcw | Trash2

  datatype Variant = Default | Destructive

  /** What choosing an action does: a call of one handler. */
  datatype HandlerCall = Restore(id: string) | PermanentDelete(id: string) | StartEditing(page: NotePage)
                       | Delete(id: string)

  /** Which of the optional handlers were given; `onStartEditing` always is. */
  datatype Handlers = Handlers(hasDelete: bool, hasRestore: bool, hasPermanentDelete: bool)

  /** An action (`caption` is its `label`); `onClick` is the call it makes, none when its optional handler is missing. */
  datatype MenuAction = MenuAction(icon: Icon, caption: string, onClick: Option<HandlerCall>, variant: Option<Variant>)

  /** `getPageMenuActions` */
  function PageMenuActions(page: NotePage, h: Handlers, isTrash: bool): (r: seq<MenuAction>)
    ensures |r| == 2
    ensures r[0].variant.None? && r[1].variant == Some(Destructive)
    ensures isTrash ==>
              && r[0].onClick == (if h.hasRestore then Some(Restore(page.id)) else None)
              && r[1].onClick == (if h.hasPermanentDelete then Some(PermanentDelete(page.id)) else None)
    ensures !isTrash ==>
              && r[0].onClick == Some(StartEditing(page))
              && r[1].onClick == (if h.hasDelete then Some(Delete(page.id)) else None)
  {
    if isTrash then
      [MenuAction(RotateCcw, "復元", if h.hasRestore then Some(Restore(page.id)) else None, None),
       MenuAction(Trash2, "完全に削除",
                  if h.hasPermanentDelete then Some(PermanentDelete(page.id)) else None, Some(Destructive))]
    else
      [MenuAction(Pencil, "名前を変更", Some(StartEditing(page)), None),
       MenuAction(Trash2, "削除", if h.hasDelete then Some(Delete(page.id)) else None, Some(Destructive))]
  }

  /** The two labels of a menu differ, so they serve as the items' keys; the trash menu and the
      other menu share no label, and only the destructive actions use the bin icon. */
  lemma LabelsAreKeys(page: NotePage, h: Handlers)
    ensures var t := PageMenuActions(page, h, true);
            var o := PageMenuActions(page, h, false);
            && t[0].caption != t[1].caption && o[0].caption != o[1].caption
            && t[0].caption != o[0].caption && t[0].caption != o[1].caption
            && t[1].caption != o[0].caption && t[1].caption != o[1].caption
            && t[1].icon == Trash2 && o[1].icon == Trash2 && t[0].icon != Trash2 && o[0].icon != Trash2
  {
  }

  /** Every call a menu can make concerns the page it was built for. */
  lemma CallsConcernThePage(page: NotePage, h: Handlers, isTrash: bool, k: nat)
    requires k < 2
    ensures var c := PageMenuActions(page, h, isTrash)[k].onClick;
            c.Some? ==> (if c.value.StartEditing? then c.value.page == page else c.value.id == page.id)
  {
  }
}
