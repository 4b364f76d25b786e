/** The sidebar's grouping of pages (src/features/sidebar/hooks/use-sidebar-grouping.ts): one
    pass over the pages sorts each into the trash, the favourites or one of four groups by the
    day it was last updated, and each day group is then ordered newest first. The calendar
    tests of the date library are parameters. */
module SidebarGrouping {
  import opened NoteTypes

  /** `isToday`, `isYesterday` and `isThisWeek` applied to a page's `updatedAt`. */
  datatype DateTests = DateTests(isToday: int -> bool, isYesterday: int -> bool, isThisWeek: int -> bool)

  /** Where a page lands. */
  datatype Bucket = Deleted | Favorite | Today | Yesterday | ThisWeek | Older

  /** The one bucket of a page: the trash when `deletedAt` is truthy, else the favourites when
      `isFavorite` is truthy, else the first date test that holds, else older. */
  function BucketOf(p: NotePage, d: DateTests): (b: Bucket)
    ensures b == Deleted <==> TruthyNum(p.deletedAt)
    ensures b == Favorite <==> !TruthyNum(p.deletedAt) && TruthyBool(p.isFavorite)
    ensures b in {Today, Yesterday, ThisWeek, Older} <==> !TruthyNum(p.deletedAt) && !TruthyBool(p.isFavorite)
    ensures b == Today <==> b !in {Deleted, Favorite} && d.isToday(p.updatedAt)
    ensures b == Older ==> !d.isToday(p.updatedAt) && !d.isYesterday(p.updatedAt) && !d.isThisWeek(p.updatedAt)
  {
    if TruthyNum(p.deletedAt) then Deleted
    else if TruthyBool(p.isFavorite) then Favorite
    else if d.isToday(p.updatedAt) then Today
    else if d.isYesterday(p.updatedAt) then Yesterday
    else if d.isThisWeek(p.updatedAt) then ThisWeek
    else Older
  }

  /** The pages of one bucket, in input order. */
  function Pick(s: seq<NotePage>, b: Bucket, d: DateTests): seq<NotePage>
    decreases |s|
  {
    if s == [] then []
    else
      var n := |s| - 1;
      Pick(s[..n], b, d) + (if BucketOf(s[n], d) == b then [s[n]] else [])
  }

  /** The pages not in the trash, in input order. */
  function NotDeleted(s: seq<NotePage>): seq<NotePage>
    decreases |s|
  {
    if s == [] then []
    else
      var n := |s| - 1;
      NotDeleted(s[..n]) + (if !TruthyNum(s[n].deletedAt) then [s[n]] else [])
  }

  datatype Grouping = Grouping(
    activePages: seq<NotePage>, deletedPages: seq<NotePage>, favoritePages: seq<NotePage>,
    today: seq<NotePage>, yesterday: seq<NotePage>, thisWeek: seq<NotePage>, older: seq<NotePage>)

  /** Ordered by `updatedAt`, newest first. */
  predicate NewestFirst(s: seq<NotePage>) {
    forall i, j :: 0 <= i < j < |s| ==> s[i].updatedAt >= s[j].updatedAt
  }

  /** A sequence holding the pages of `s` and `x` is bounded by any time bounding them. */
  lemma BoundedByTop(x: NotePage, s: seq<NotePage>, r: seq<NotePage>, top: int)
    requires multiset(r) == multiset(s) + multiset{x}
    requires x.updatedAt <= top && forall i :: 0 <= i < |s| ==> s[i].updatedAt <= top
    ensures forall k :: 0 <= k < |r| ==> r[k].updatedAt <= top
  {
    forall k | 0 <= k < |r|
      ensures r[k].updatedAt <= top
    {
      assert r[k] in multiset(r);
      if r[k] != x {
        assert r[k] in multiset(s);
        var i :| 0 <= i < |s| && s[i] == r[k];
      }
    }
  }

  /** A page no older than any page of a newest-first sequence may go in front of it. */
  lemma PrependNewest(y: NotePage, t: seq<NotePage>)
    requires NewestFirst(t) && forall k :: 0 <= k < |t| ==> t[k].updatedAt <= y.updatedAt
    ensures NewestFirst([y] + t)
  {
  }

  /** Puts `x` before the first page it is not older than. */
  function Insert(x: NotePage, s: seq<NotePage>): (r: seq<NotePage>)
    requires NewestFirst(s)
    ensures NewestFirst(r) && multiset(r) == multiset(s) + multiset{x}
    decreases |s|
  {
    if s == [] || x.updatedAt >= s[0].updatedAt then [x] + s
    else
      var rest := Insert(x, s[1..]);
      assert s == [s[0]] + s[1..];
      BoundedByTop(x, s[1..], rest, s[0].updatedAt);
      PrependNewest(s[0], rest);
      [s[0]] + rest
  }

  /** `group.sort((a, b) => b.updatedAt - a.updatedAt)`: a stable sort, newest first. */
  function SortNewestFirst(s: seq<NotePage>): (r: seq<NotePage>)
    ensures NewestFirst(r) && multiset(r) == multiset(s)
    decreases |s|
  {
    if s == [] then []
    else
      assert s == [s[0]] + s[1..];
      Insert(s[0], SortNewestFirst(s[1..]))
  }

  /** One more page extends exactly the list of its own bucket, and the list of pages not in
      the trash when it is not in the trash. */
  lemma PickAppend(s: seq<NotePage>, x: NotePage, d: DateTests)
    ensures forall b :: Pick(s + [x], b, d) == Pick(s, b, d) + (if BucketOf(x, d) == b then [x] else [])
    ensures NotDeleted(s + [x]) == NotDeleted(s) + (if !TruthyNum(x.deletedAt) then [x] else [])
  {
    assert (s + [x])[..|s|] == s;
  }

  /** `useSidebarGrouping`: the single pass and the sort of each date group. */
  method Group(pages: seq<NotePage>, d: DateTests) returns (g: Grouping)
    ensures g.activePages == NotDeleted(pages)
    ensures g.deletedPages == Pick(pages, Deleted, d)
    ensures g.favoritePages == Pick(pages, Favorite, d)
    ensures g.today == SortNewestFirst(Pick(pages, Today, d))
    ensures g.yesterday == SortNewestFirst(Pick(pages, Yesterday, d))
    ensures g.thisWeek == SortNewestFirst(Pick(pages, ThisWeek, d))
    ensures g.older == SortNewestFirst(Pick(pages, Older, d))
  {
    var active, deleted, favorites := [], [], [];
    var today, yesterday, thisWeek, older := [], [], [], [];
    for i := 0 to |pages|
      invariant active == NotDeleted(pages[..i])
      invariant deleted == Pick(pages[..i], Deleted, d)
      invariant favorites == Pick(pages[..i], Favorite, d)
      invariant today == Pick(pages[..i], Today, d)
      invariant yesterday == Pick(pages[..i], Yesterday, d)
      invariant thisWeek == Pick(pages[..i], ThisWeek, d)
      invariant older == Pick(pages[..i], Older, d)
    {
      var page := pages[i];
      assert pages[..i + 1] == pages[..i] + [page];
      PickAppend(pages[..i], page, d);
      if TruthyNum(page.deletedAt) {
        deleted := deleted + [page];
        continue;
      }
      active := active + [page];
      if TruthyBool(page.isFavorite) {
        favorites := favorites + [page];
        continue;
      }
      if d.isToday(page.updatedAt) {
        today := today + [page];
      } else if d.isYesterday(page.updatedAt) {
        yesterday := yesterday + [page];
      } else if d.isThisWeek(page.updatedAt) {
        thisWeek := thisWeek + [page];
      } else {
        older := older + [page];
      }
    }
    assert pages[..|pages|] == pages;
    g := Grouping(active, deleted, favorites, SortNewestFirst(today), SortNewestFirst(yesterday),
                  SortNewestFirst(thisWeek), SortNewestFirst(older));
  }

  /** The six buckets of the pages, unsorted. */
  function BucketSplit(s: seq<NotePage>, d: DateTests): multiset<NotePage> {
    multiset(Pick(s, Deleted, d)) + multiset(Pick(s, Favorite, d)) + multiset(Pick(s, Today, d))
      + multiset(Pick(s, Yesterday, d)) + multiset(Pick(s, ThisWeek, d)) + multiset(Pick(s, Older, d))
  }

  /** One more page adds itself to the multiset of its own bucket only. */
  lemma PickStep(s: seq<NotePage>, x: NotePage, b: Bucket, d: DateTests)
    ensures BucketOf(x, d) == b ==> multiset(Pick(s + [x], b, d)) == multiset(Pick(s, b, d)) + multiset{x}
    ensures BucketOf(x, d) != b ==> multiset(Pick(s + [x], b, d)) == multiset(Pick(s, b, d))
  {
    assert (s + [x])[..|s|] == s;
  }

  lemma SplitStep(s: seq<NotePage>, x: NotePage, d: DateTests)
    ensures BucketSplit(s + [x], d) == BucketSplit(s, d) + multiset{x}
  {
    PickStep(s, x, Deleted, d);
    PickStep(s, x, Favorite, d);
    PickStep(s, x, Today, d);
    PickStep(s, x, Yesterday, d);
    PickStep(s, x, ThisWeek, d);
    PickStep(s, x, Older, d);
  }

  /** Splitting by bucket loses and duplicates nothing: every page lands in exactly one of the
      trash, the favourites and the four date groups. */
  lemma {:induction false} SplitIsPartition(s: seq<NotePage>, d: DateTests)
    ensures BucketSplit(s, d) == multiset(s)
    decreases |s|
  {
    if s != [] {
      var n := |s| - 1;
      var init, x := s[..n], s[n];
      SplitIsPartition(init, d);
      assert s == init + [x];
      SplitStep(init, x, d);
      assert multiset(s) == multiset(init) + multiset{x};
    }
  }

  /** All pages of a grouping except `activePages`: the trash, the favourites and the four date
      groups together. */
  function Buckets(g: Grouping): multiset<NotePage> {
    multiset(g.deletedPages) + multiset(g.favoritePages) + multiset(g.today)
      + multiset(g.yesterday) + multiset(g.thisWeek) + multiset(g.older)
  }

  /** The groups `Group` returns hold each input page exactly as often as the input does. */
  lemma GroupIsPartition(pages: seq<NotePage>, d: DateTests, g: Grouping)
    requires g.deletedPages == Pick(pages, Deleted, d)
    requires g.favoritePages == Pick(pages, Favorite, d)
    requires g.today == SortNewestFirst(Pick(pages, Today, d))
    requires g.yesterday == SortNewestFirst(Pick(pages, Yesterday, d))
    requires g.thisWeek == SortNewestFirst(Pick(pages, ThisWeek, d))
    requires g.older == SortNewestFirst(Pick(pages, Older, d))
    ensures Buckets(g) == multiset(pages)
  {
    SplitIsPartition(pages, d);
  }

  /** A bucket holds exactly the input's pages that belong to it. */
  lemma {:induction false} PickMembers(s: seq<NotePage>, b: Bucket, d: DateTests, p: NotePage)
    ensures p in Pick(s, b, d) <==> p in s && BucketOf(p, d) == b
    decreases |s|
  {
    if s != [] {
      var n := |s| - 1;
      PickMembers(s[..n], b, d, p);
      assert s == s[..n] + [s[n]];
    }
  }

  /** A bucket keeps the input order. */
  lemma {:induction false} PickIsSubseq(s: seq<NotePage>, b: Bucket, d: DateTests)
    ensures IsSubseq(Pick(s, b, d), s)
    decreases |s|
  {
    if s != [] {
      var n := |s| - 1;
      PickIsSubseq(s[..n], b, d);
      assert s == s[..n] + [s[n]];
      if BucketOf(s[n], d) == b {
        assert Pick(s, b, d) == Pick(s[..n], b, d) + [s[n]];
        SubseqAppendBoth(Pick(s[..n], b, d), s[..n], s[n]);
      } else {
        assert Pick(s, b, d) == Pick(s[..n], b, d);
        SubseqExtend(Pick(s[..n], b, d), s[..n], s[n]);
      }
    }
  }

  /** `activePages` holds exactly the pages not in the trash, in input order. */
  lemma {:induction false} NotDeletedMembers(s: seq<NotePage>, p: NotePage)
    ensures p in NotDeleted(s) <==> p in s && !TruthyNum(p.deletedAt)
    ensures IsSubseq(NotDeleted(s), s)
    decreases |s|
  {
    if s != [] {
      var n := |s| - 1;
      NotDeletedMembers(s[..n], p);
      assert s == s[..n] + [s[n]];
      if !TruthyNum(s[n].deletedAt) {
        assert NotDeleted(s) == NotDeleted(s[..n]) + [s[n]];
        SubseqAppendBoth(NotDeleted(s[..n]), s[..n], s[n]);
      } else {
        assert NotDeleted(s) == NotDeleted(s[..n]);
        SubseqExtend(NotDeleted(s[..n]), s[..n], s[n]);
      }
    }
  }

  /** Sorting keeps exactly the same pages. */
  lemma SortKeepsMembers(s: seq<NotePage>, p: NotePage)
    ensures p in SortNewestFirst(s) <==> p in s
  {
    assert p in SortNewestFirst(s) <==> p in multiset(SortNewestFirst(s));
    assert p in s <==> p in multiset(s);
  }

  /** A favourite is never in a date group, and a page is in at most one date group. */
  lemma FavoritesNotDated(pages: seq<NotePage>, d: DateTests, g: Grouping, p: NotePage)
    requires g.favoritePages == Pick(pages, Favorite, d)
    requires g.today == SortNewestFirst(Pick(pages, Today, d))
    requires g.yesterday == SortNewestFirst(Pick(pages, Yesterday, d))
    requires g.thisWeek == SortNewestFirst(Pick(pages, ThisWeek, d))
    requires g.older == SortNewestFirst(Pick(pages, Older, d))
    ensures p in g.favoritePages ==> p !in g.today && p !in g.yesterday && p !in g.thisWeek && p !in g.older
    ensures p in g.today ==> p !in g.yesterday && p !in g.thisWeek && p !in g.older
    ensures p in g.yesterday ==> p !in g.thisWeek && p !in g.older
    ensures p in g.thisWeek ==> p !in g.older
  {
    PickMembers(pages, Favorite, d, p);
    PickMembers(pages, Today, d, p);
    PickMembers(pages, Yesterday, d, p);
    PickMembers(pages, ThisWeek, d, p);
    PickMembers(pages, Older, d, p);
    SortKeepsMembers(Pick(pages, Today, d), p);
    SortKeepsMembers(Pick(pages, Yesterday, d), p);
    SortKeepsMembers(Pick(pages, ThisWeek, d), p);
    SortKeepsMembers(Pick(pages, Older, d), p);
  }
}
