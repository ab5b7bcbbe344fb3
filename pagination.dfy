/**
 * The pagination loops of `export_playlists` (main.py:36-41) and
 * `export_liked_songs` (main.py:68-73): starting from the first page the API
 * returns, keep asking for the next page while the current one has a `next`
 * cursor, appending each page's `items`.
 *
 * The API is modelled as a finite sequence of pages.  Page 0 is the response
 * to the initial request, and a page's `next` cursor is the index of the page
 * `sp.next` would return for it.  The Web API's cursors only move forward,
 * which `ForwardLinks` states and which makes the loop terminate.
 */
module Pagination {
  import opened Wrappers

  datatype Page<T> = Page(items: seq<T>, next: Option<nat>)

  /** Every cursor points to a later page that exists. */
  predicate ForwardLinks<T>(pages: seq<Page<T>>)
  {
    forall i :: 0 <= i < |pages| && pages[i].next.Some? ==> i < pages[i].next.value < |pages|
  }

  /** The items gathered when the loop is entered at page `i`. */
  function Collected<T>(pages: seq<Page<T>>, i: nat): seq<T>
    requires ForwardLinks(pages) && i < |pages|
    decreases |pages| - i
  {
    pages[i].items + Remaining(pages, i)
  }

  /** The items of the pages after page `i` that the loop still has to fetch. */
  function Remaining<T>(pages: seq<Page<T>>, i: nat): seq<T>
    requires ForwardLinks(pages) && i < |pages|
    decreases |pages| - i, 0
  {
    match pages[i].next
    case None => []
    case Some(n) => Collected(pages, n)
  }

  /** The indices of the pages visited from page `i` on, following the cursors. */
  function Chain<T>(pages: seq<Page<T>>, i: nat): seq<nat>
    requires ForwardLinks(pages) && i < |pages|
    decreases |pages| - i
  {
    match pages[i].next
    case None => [i]
    case Some(n) => [i] + Chain(pages, n)
  }

  /** The items of the listed pages, concatenated in the order listed. */
  function ItemsOf<T>(pages: seq<Page<T>>, idx: seq<nat>): seq<T>
    requires forall k :: 0 <= k < |idx| ==> idx[k] < |pages|
  {
    if idx == [] then [] else pages[idx[0]].items + ItemsOf(pages, idx[1..])
  }

  /** All pages' items, concatenated in page order. */
  function AllItems<T>(pages: seq<Page<T>>): seq<T>
  {
    if pages == [] then [] else pages[0].items + AllItems(pages[1..])
  }

  /**
   * The chain of visited pages starts at `i`, only moves forward, follows each
   * page's cursor, and ends at the first page without one: the loop stops
   * exactly when `next` is null.
   */
  lemma {:induction false} ChainFollowsCursors<T>(pages: seq<Page<T>>, i: nat)
    requires ForwardLinks(pages) && i < |pages|
    ensures var c := Chain(pages, i);
      && |c| >= 1 && c[0] == i
      && (forall k :: 0 <= k < |c| ==> i <= c[k] < |pages|)
      && (forall k :: 0 <= k < |c| - 1 ==> pages[c[k]].next == Some(c[k + 1]))
      && pages[c[|c| - 1]].next == None
    decreases |pages| - i
  {
    match pages[i].next
    case None =>
    case Some(n) =>
      ChainFollowsCursors(pages, n);
  }

  /** What the loop gathers is the concatenation of the visited pages' items, in visiting order. */
  lemma {:induction false} CollectedAlongChain<T>(pages: seq<Page<T>>, i: nat)
    requires ForwardLinks(pages) && i < |pages|
    ensures ChainBounded(pages, i) && Collected(pages, i) == ItemsOf(pages, Chain(pages, i))
    decreases |pages| - i
  {
    ChainFollowsCursors(pages, i);
    match pages[i].next
    case None =>
      assert Chain(pages, i)[1..] == [];
    case Some(n) =>
      CollectedAlongChain(pages, n);
      assert Chain(pages, i)[1..] == Chain(pages, n);
  }

  /** The chain from `i` only names existing pages (so `ItemsOf` is defined on it). */
  predicate ChainBounded<T>(pages: seq<Page<T>>, i: nat)
    requires ForwardLinks(pages) && i < |pages|
  {
    forall k :: 0 <= k < |Chain(pages, i)| ==> Chain(pages, i)[k] < |pages|
  }

  /**
   * When every page but the last points to the one after it, the loop
   * gathers every page's items in page order.
   */
  lemma {:induction false} SequentialPagesCollectAll<T>(pages: seq<Page<T>>, i: nat)
    requires i < |pages|
    requires forall k :: 0 <= k < |pages| - 1 ==> pages[k].next == Some(k + 1)
    requires pages[|pages| - 1].next == None
    ensures ForwardLinks(pages) && Collected(pages, i) == AllItems(pages[i..])
    decreases |pages| - i
  {
    if i < |pages| - 1 {
      SequentialPagesCollectAll(pages, i + 1);
      assert pages[i..][1..] == pages[i + 1..];
    } else {
      assert pages[i..][1..] == [];
    }
  }

  /**
   * The `while results['next']` loop.  `tracks` starts as the first page's
   * items and is extended by each fetched page; `last` is the page whose
   * missing cursor ended the loop, and `fetches` counts the `sp.next` calls.
   */
  method Accumulate<T>(pages: seq<Page<T>>) returns (tracks: seq<T>, last: nat, fetches: nat)
    requires |pages| > 0 && ForwardLinks(pages)
    ensures tracks == Collected(pages, 0)
    ensures ChainBounded(pages, 0) && tracks == ItemsOf(pages, Chain(pages, 0))
    ensures last < |pages| && pages[last].next.None?
    ensures Chain(pages, 0)[|Chain(pages, 0)| - 1] == last
    ensures fetches == |Chain(pages, 0)| - 1
  {
    var results := 0;
    tracks := pages[0].items;
    fetches := 0;
    ghost var visited: seq<nat> := [];
    while pages[results].next.Some?
      invariant results < |pages|
      invariant tracks + Remaining(pages, results) == Collected(pages, 0)
      invariant Chain(pages, 0) == visited + Chain(pages, results)
      invariant |visited| == fetches
      decreases |pages| - results
    {
      var n := pages[results].next.value;
      assert Chain(pages, results) == [results] + Chain(pages, n);
      visited := visited + [results];
      results := n;
      tracks := tracks + pages[results].items;
      fetches := fetches + 1;
    }
    last := results;
    CollectedAlongChain(pages, 0);
  }
}
