/**
 * The pagination of the diary (`show_diary`, bot.py:570-599): five entries a page, newest
 * first, a back button on every page but the first and a forward button while more entries
 * follow. An empty page (an empty diary, or a page number past the end) shows the
 * "diary is empty" text and the main menu instead.
 *
 * The entries of one user are given in the order of `get_entries` (database.py:144-152):
 * newest first. `Journal` connects this to the check-in flow, whose journal is in
 * chronological order.
 */
module Diary {
  import Conversation

  /** `per_page` of `show_diary`. */
  const PerPage: nat := 5

  /** The screen `show_diary` produces for one page number. */
  datatype View<T> =
    | EmptyDiary
    | Page(items: seq<T>, back: bool, forward: bool)

  /** SQL's `LIMIT limit OFFSET offset` over rows in query order. */
  function Window<T>(rows: seq<T>, limit: nat, offset: nat): (r: seq<T>)
    ensures offset >= |rows| ==> r == []
    ensures offset < |rows| ==> |r| == (if offset + limit <= |rows| then limit else |rows| - offset)
    ensures forall i :: 0 <= i < |r| ==> offset + i < |rows| && r[i] == rows[offset + i]
  {
    if offset >= |rows| then []
    else if offset + limit <= |rows| then rows[offset..offset + limit]
    else rows[offset..]
  }

  /**
   * `show_diary(user, page)`: the page's window of the entries and the two navigation
   * conditions, `page > 0` and `(page + 1) * per_page < total`.
   */
  function ShowDiary<T>(entries: seq<T>, page: nat): View<T>
  {
    var items := Window(entries, PerPage, page * PerPage);
    if items == [] then EmptyDiary
    else Page(items, page > 0, (page + 1) * PerPage < |entries|)
  }

  /** A page is shown exactly when it starts before the end of the diary; it has one to five entries. */
  lemma PageShownIffInRange<T>(entries: seq<T>, page: nat)
    ensures ShowDiary(entries, page).Page? <==> page * PerPage < |entries|
    ensures ShowDiary(entries, page).Page? ==> 1 <= |ShowDiary(entries, page).items| <= PerPage
  {
  }

  /** The forward button is there exactly when the next page has entries. */
  lemma ForwardIffNextPage<T>(entries: seq<T>, page: nat)
    requires ShowDiary(entries, page).Page?
    ensures ShowDiary(entries, page).forward <==> ShowDiary(entries, page + 1).Page?
  {
    PageShownIffInRange(entries, page + 1);
  }

  /** The back button is there exactly from the second page on, and it leads to a full page. */
  lemma BackLeadsToFullPage<T>(entries: seq<T>, page: nat)
    requires ShowDiary(entries, page).Page?
    ensures ShowDiary(entries, page).back <==> page > 0
    ensures page > 0 ==> var prev := ShowDiary(entries, page - 1);
      prev.Page? && |prev.items| == PerPage && prev.forward
  {
  }

  /** Every entry is on page `i / 5`, at position `i % 5`. */
  lemma EntryOnItsPage<T>(entries: seq<T>, i: nat)
    requires i < |entries|
    ensures var v := ShowDiary(entries, i / PerPage);
      v.Page? && i % PerPage < |v.items| && v.items[i % PerPage] == entries[i]
  {
    var page := i / PerPage;
    assert page * PerPage <= i < page * PerPage + PerPage;
  }

  /** The entries seen by following the forward button from `page` until it disappears. */
  function Browse<T>(entries: seq<T>, page: nat): seq<T>
    decreases |entries| - page * PerPage
  {
    var v := ShowDiary(entries, page);
    if v.EmptyDiary? then []
    else v.items + (if v.forward then Browse(entries, page + 1) else [])
  }

  /**
   * Paging forward from the first page shows every entry exactly once and in order: the
   * pages from `page` on, joined, are the entries from `page * 5` on.
   */
  lemma {:induction false} BrowseShowsAll<T>(entries: seq<T>, page: nat)
    requires page * PerPage <= |entries|
    ensures Browse(entries, page) == entries[page * PerPage..]
    decreases |entries| - page * PerPage
  {
    var v := ShowDiary(entries, page);
    var start := page * PerPage;
    if start == |entries| {
      assert v.EmptyDiary?;
    } else if v.forward {
      assert v.items == entries[start..start + PerPage];
      BrowseShowsAll(entries, page + 1);
      assert entries[start..] == entries[start..start + PerPage] + entries[start + PerPage..];
    } else {
      assert v.items == entries[start..];
    }
  }

  lemma BrowseFromStart<T>(entries: seq<T>)
    ensures Browse(entries, 0) == entries
  {
    BrowseShowsAll(entries, 0);
  }

  /** The journal of the check-in flow, oldest first, in the newest-first order of the diary. */
  function Reversed<T>(s: seq<T>): (r: seq<T>)
    ensures |r| == |s| && forall i :: 0 <= i < |s| ==> r[i] == s[|s| - 1 - i]
  {
    if s == [] then [] else [s[|s| - 1]] + Reversed(s[..|s| - 1])
  }

  function Journal(journal: seq<Conversation.Entry>, page: nat): View<Conversation.Entry>
  {
    ShowDiary(Reversed(journal), page)
  }

  /**
   * Right after an entry is committed, the first diary page starts with it, followed by the
   * (up to four) entries committed just before it, newest first.
   */
  lemma NewestFirst(journal: seq<Conversation.Entry>, e: Conversation.Entry)
    ensures var v := Journal(journal + [e], 0);
      v.Page? && v.items[0] == e
      && forall i :: 1 <= i < |v.items| ==> v.items[i] == journal[|journal| - i]
  {
    var r := Reversed(journal + [e]);
    assert r[0] == e;
  }
}
