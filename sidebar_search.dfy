/** The sidebar's title search (src/features/sidebar/hooks/use-sidebar-search.ts): a blank
    query shows every page; any other query keeps the pages whose lower-cased title contains the
    lower-cased query, spaces included. */
module SidebarSearch {
  import opened NoteTypes

  /** The characters `String.prototype.trim` removes: the white space and line terminators of
      ECMAScript (the space separators of Unicode, tab, vertical tab, form feed, the byte order
      mark, line feed, carriage return and the two Unicode line separators). */
  predicate IsJsWhitespace(c: char) {
    c == ' ' || c == '\t' || c == '\n' || c == '\r' || c == '\U{B}' || c == '\U{C}'
    || c == '\U{A0}' || c == '\U{1680}' || ('\U{2000}' <= c <= '\U{200A}')
    || c == '\U{2028}' || c == '\U{2029}' || c == '\U{202F}' || c == '\U{205F}'
    || c == '\U{3000}' || c == '\U{FEFF}'
  }

  /** `!query.trim()`: nothing is left once white space is trimmed. */
  predicate Blank(query: string)
    ensures Blank(query) <==> forall c :: c in query ==> IsJsWhitespace(c)
    ensures query == [] ==> Blank(query)
  {
    forall i :: 0 <= i < |query| ==> IsJsWhitespace(query[i])
  }

  /** `needle` occurs in `haystack` starting at index `i`. */
  predicate OccursAt(haystack: string, needle: string, i: int) {
    0 <= i && i + |needle| <= |haystack| && haystack[i..i + |needle|] == needle
  }

  /** `haystack.includes(needle)` */
  predicate Contains(haystack: string, needle: string)
    ensures needle == [] ==> Contains(haystack, needle)
    ensures haystack == needle ==> Contains(haystack, needle)
    ensures Contains(haystack, needle) ==> |needle| <= |haystack|
  {
    assert haystack[0..0] == [] && OccursAt(haystack, [], 0);
    assert OccursAt(haystack, haystack, 0);
    exists i :: 0 <= i <= |haystack| && OccursAt(haystack, needle, i)
  }

  /** The test of the filter: the lower-cased title contains the lower-cased query as typed. */
  function TitleMatches(query: string): NotePage -> bool {
    (p: NotePage) => Contains(Lower(p.title), Lower(query))
  }

  /** `filteredPages` */
  function FilteredPages(pages: seq<NotePage>, query: string): (r: seq<NotePage>)
    ensures Blank(query) ==> r == pages
    ensures !Blank(query) ==> forall p :: p in r <==> p in pages && Contains(Lower(p.title), Lower(query))
    ensures IsSubseq(r, pages)
  {
    if Blank(query) then
      SubseqReflexive(pages);
      pages
    else
      FilterIsSubseq(pages, TitleMatches(query));
      Filter(pages, TitleMatches(query))
  }

  lemma {:induction false} SubseqReflexive(s: seq<NotePage>)
    ensures IsSubseq(s, s)
    decreases |s|
  {
    if s != [] {
      SubseqReflexive(s[..|s| - 1]);
    }
  }

  /** Searching the results again with the same query changes nothing. */
  lemma SearchIdempotent(pages: seq<NotePage>, query: string)
    ensures FilteredPages(FilteredPages(pages, query), query) == FilteredPages(pages, query)
  {
    if !Blank(query) {
      var r := FilteredPages(pages, query);
      assert forall i :: 0 <= i < |r| ==> r[i] in r;
      FilterIdentity(r, TitleMatches(query));
    }
  }

  /** A lone space is blank, so it keeps every page. */
  lemma SpaceKeepsAll(pages: seq<NotePage>)
    ensures FilteredPages(pages, " ") == pages
  {
  }

  /** A query that is not blank is matched as typed: a trailing space keeps "memo" from
      matching the title "memo". */
  lemma TrailingSpaceCounts(p: NotePage)
    requires p.title == "memo"
    ensures FilteredPages([p], "memo ") == []
  {
    assert !IsJsWhitespace("memo "[0]);
    assert Lower("memo ") == "memo ";
    assert !Contains(Lower(p.title), Lower("memo "));
    assert p !in FilteredPages([p], "memo ");
  }

  /** Case is ignored: "MEMO" finds the title "memo". */
  lemma CaseIgnored(p: NotePage)
    requires p.title == "memo"
    ensures FilteredPages([p], "MEMO") == [p]
  {
    assert !IsJsWhitespace("MEMO"[0]);
    assert Lower("MEMO") == "memo" && Lower(p.title) == "memo";
    assert OccursAt(Lower(p.title), Lower("MEMO"), 0);
    assert p in FilteredPages([p], "MEMO");
  }
}
