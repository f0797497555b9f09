/**
 Empty pages that are kept for some cycles before they are released, and the window of queues that
 is searched for them.
 */
module RetiredPages {
  import opened Options
  import opened SizeClasses
  import opened PageQueues
  import opened PageSearch

  /** MI_RETIRE_CYCLES, and MI_SMALL_OBJ_SIZE_MAX in words */
  const RETIRE_CYCLES: nat := 8
  const SMALL_OBJ_WMAX: nat := 256

  /** The queues of which a page may have been retired; `min > max` if there are none. */
  datatype Window = Window(min: nat, max: nat)

  predicate InWindow(window: Window, q: nat) {
    window.min <= q <= window.max
  }

  /** What a cycle does to the first page of a queue. */
  function Aged(page: Page): Page {
    if page.retire == 0 then page
    else page.(retire := if page.used == 0 then page.retire - 1 else 0)
  }

  /** A cycle releases the page. */
  predicate Expires(page: Page, force: bool) {
    page.retire > 0 && page.used == 0 && (force || page.retire == 1)
  }

  predicate IsHead(lists: Lists, q: nat, x: PageId) {
    q < |lists| && lists[q] != [] && lists[q][0] == x
  }

  /** The first page of the queue is released. */
  predicate HeadExpires(lists: Lists, pages: Pages, q: nat, force: bool) {
    q < |lists| && lists[q] != [] && lists[q][0] in pages && Expires(pages[lists[q][0]], force)
  }

  /** The first page of the queue stays, and stays retired. */
  predicate HeadStaysRetired(lists: Lists, pages: Pages, q: nat, force: bool) {
    && q < |lists| && lists[q] != [] && lists[q][0] in pages
    && !Expires(pages[lists[q][0]], force) && Aged(pages[lists[q][0]]).retire > 0
  }

  /** A page that is the first of a queue from `min` on and below `b`. */
  predicate Visited(lists: Lists, pages: Pages, x: PageId, min: nat, b: nat)
    requires x in pages
  {
    min <= HomeOf(pages[x]) < b && IsHead(lists, HomeOf(pages[x]), x)
  }

  /** Queue `q` when the queues from `min` on and below `b` have been visited. */
  function AgedList(lists: Lists, pages: Pages, min: nat, b: nat, force: bool, q: nat): seq<PageId>
    requires q < |lists|
  {
    if min <= q < b && HeadExpires(lists, pages, q, force) then lists[q][1..] else lists[q]
  }

  /** The first pages of the queues from `min` on and below `b` have aged by a cycle. */
  ghost predicate AgedBelow(lists0: Lists, pages0: Pages, lists: Lists, pages: Pages, min: nat, b: nat, force: bool) {
    && |lists| == |lists0|
    && (forall q | 0 <= q < |lists| :: lists[q] == AgedList(lists0, pages0, min, b, force, q))
    && (forall x :: x in pages <==>
          x in pages0 && !(Visited(lists0, pages0, x, min, b) && Expires(pages0[x], force)))
    && (forall x | x in pages ::
          OnlyLinks(if Visited(lists0, pages0, x, min, b) then Aged(pages0[x]) else pages0[x], pages[x]))
  }

  /** The queues of a window whose first page stays retired. */
  ghost predicate WindowOf(lists: Lists, pages: Pages, min: nat, b: nat, force: bool, window: Window) {
    && (forall q | min <= q < b && HeadStaysRetired(lists, pages, q, force) :: InWindow(window, q))
    && (window == Window(BIN_FULL, 0) ||
        (&& min <= window.min <= window.max < b
         && HeadStaysRetired(lists, pages, window.min, force) && HeadStaysRetired(lists, pages, window.max, force)))
  }

  // ---------------------------------------------------------------------------------------------
  // The cycle of one queue
  // ---------------------------------------------------------------------------------------------

  /** What the cycle of queue `q` does. */
  ghost predicate AgedAt(lists: Lists, pages: Pages, lists': Lists, pages': Pages, q: nat, force: bool) {
    && |lists'| == |lists| && q < |lists|
    && (if HeadExpires(lists, pages, q, force)
        then lists' == lists[q := lists[q][1..]] && pages'.Keys == pages.Keys - {lists[q][0]}
        else lists' == lists && pages'.Keys == pages.Keys)
    && (forall x | x in pages' :: x in pages && OnlyLinks(if IsHead(lists, q, x) then Aged(pages[x]) else pages[x], pages'[x]))
  }

  lemma HeadIn(queues: seq<Queue>, pages: Pages, lists: Lists, q: nat)
    requires QueuesOk(queues, pages, lists) && q < BIN_FULL
    ensures |queues| == |lists| == BIN_FULL + 1 && queues[q].first == At(lists[q], 0)
    ensures lists[q] != [] ==> lists[q][0] in pages && HomeOf(pages[lists[q][0]]) == q && lists[q][0] in lists[q]
    ensures NoDup(lists[q])
  {
    hide Bin, BinWSize;
    assert Spelled(queues[q], pages, lists[q]);
    if lists[q] != [] { assert lists[q][0] in lists[q]; }
  }

  /** Taking the first page out of a list without duplicates leaves the rest. */
  lemma TakenHead(lists: Lists, lists': Lists, q: nat, p: PageId)
    requires Taken(lists, lists', q, p) && lists[q] != [] && lists[q][0] == p && NoDup(lists[q])
    ensures lists' == lists[q := lists[q][1..]]
  {
    var k :| 0 <= k < |lists[q]| && lists[q][k] == p && lists' == lists[q := Without(lists[q], k)];
    assert Without(lists[q], 0) == lists[q][1..];
  }

  /** The body of the loop of `_mi_heap_collect_retired`; `kept` if the page stays retired. */
  method CollectBin(heap: Heap, q: nat, force: bool) returns (kept: bool)
    requires heap.Valid() && AllCounted(heap.pages) && q < BIN_FULL
    modifies heap, heap.queues, heap.direct
    ensures heap.Valid() && AllCounted(heap.pages)
    ensures AgedAt(old(heap.lists), old(heap.pages), heap.lists, heap.pages, q, force)
    ensures kept <==> HeadStaysRetired(old(heap.lists), old(heap.pages), q, force)
  {
    hide Bin, BinWSize, QueuesOk, DirectOk, HomeOf, Taken;
    HeadIn(heap.queues[..], heap.pages, heap.lists, q);
    kept := false;
    var first := heap.queues[q].first;
    if first.Some? && heap.pages[first.value].retire != 0 {
      var p := first.value;
      ghost var lists0 := heap.lists;
      if heap.pages[p].used == 0 {
        var retire := heap.pages[p].retire - 1;
        if force || retire == 0 {
          var page := heap.Remove(q, p);
          TakenHead(lists0, heap.lists, q, p);
        } else {
          heap.SetCounts(p, heap.pages[p].(retire := retire));
          kept := true;
        }
      } else {
        heap.SetCounts(p, heap.pages[p].(retire := 0));
      }
    }
  }

  // ---------------------------------------------------------------------------------------------
  // The cycle of all queues
  // ---------------------------------------------------------------------------------------------

  lemma AgedStart(lists: Lists, pages: Pages, min: nat, force: bool)
    ensures AgedBelow(lists, pages, lists, pages, min, min, force) && WindowOf(lists, pages, min, min, force, Window(BIN_FULL, 0))
  {
  }

  /** An empty window. */
  lemma AgedNone(lists: Lists, pages: Pages, window: Window, force: bool)
    ensures window.min > window.max ==>
      && AgedBelow(lists, pages, lists, pages, window.min, window.max + 1, force)
      && WindowOf(lists, pages, window.min, window.max + 1, force, Window(BIN_FULL, 0))
  {
  }

  lemma AgedNext(queues: seq<Queue>, lists0: Lists, pages0: Pages, lists: Lists, pages: Pages, lists': Lists, pages': Pages,
                 min: nat, q: nat, force: bool)
    requires QueuesOk(queues, pages0, lists0) && AgedBelow(lists0, pages0, lists, pages, min, q, force) && min <= q < BIN_FULL
    requires AgedAt(lists, pages, lists', pages', q, force)
    ensures HeadStaysRetired(lists, pages, q, force) <==> HeadStaysRetired(lists0, pages0, q, force)
    ensures AgedBelow(lists0, pages0, lists', pages', min, q + 1, force)
  {
    hide Bin, BinWSize, QueuesOk, HomeOf, AgedBelow, AgedAt, HeadExpires, HeadStaysRetired, Expires, Aged, Visited, AgedList;
    HeadIn(queues, pages0, lists0, q);
    HomeListed(queues, pages0, lists0, q);
    HeadSame(lists0, pages0, lists, pages, min, q, force);
    NextLists(lists0, pages0, lists, pages, lists', pages', min, q, force);
    forall x: PageId ensures NextPageOk(lists0, pages0, pages', x, min, q, force) {
      NextPage(lists0, pages0, lists, pages, lists', pages', min, q, force, x);
    }
    Together(lists0, pages0, lists', pages', min, q, force);
  }

  /** Queue `q` and its first page are as they were. */
  lemma HeadSame(lists0: Lists, pages0: Pages, lists: Lists, pages: Pages, min: nat, q: nat, force: bool)
    requires AgedBelow(lists0, pages0, lists, pages, min, q, force) && min <= q < |lists0|
    requires lists0[q] != [] ==> lists0[q][0] in pages0 && HomeOf(pages0[lists0[q][0]]) == q
    ensures |lists| == |lists0| && lists[q] == lists0[q]
    ensures lists0[q] != [] ==> lists0[q][0] in pages && OnlyLinks(pages0[lists0[q][0]], pages[lists0[q][0]])
    ensures HeadExpires(lists, pages, q, force) <==> HeadExpires(lists0, pages0, q, force)
    ensures HeadStaysRetired(lists, pages, q, force) <==> HeadStaysRetired(lists0, pages0, q, force)
  {
    hide HomeOf;
  }

  lemma NextLists(lists0: Lists, pages0: Pages, lists: Lists, pages: Pages, lists': Lists, pages': Pages,
                  min: nat, q: nat, force: bool)
    requires AgedBelow(lists0, pages0, lists, pages, min, q, force) && min <= q < |lists0|
    requires AgedAt(lists, pages, lists', pages', q, force) && lists[q] == lists0[q]
    requires HeadExpires(lists, pages, q, force) <==> HeadExpires(lists0, pages0, q, force)
    ensures |lists'| == |lists0|
    ensures forall r | 0 <= r < |lists0| :: lists'[r] == AgedList(lists0, pages0, min, q + 1, force, r)
  {
    hide HeadExpires, Expires, Aged, Visited;
  }

  /** What `AgedBelow` says of one page. */
  predicate NextPageOk(lists0: Lists, pages0: Pages, pages: Pages, x: PageId, min: nat, q: nat, force: bool) {
    && (x in pages <==> x in pages0 && !(Visited(lists0, pages0, x, min, q + 1) && Expires(pages0[x], force)))
    && (x in pages ==>
          OnlyLinks(if Visited(lists0, pages0, x, min, q + 1) then Aged(pages0[x]) else pages0[x], pages[x]))
  }

  lemma NextPage(lists0: Lists, pages0: Pages, lists: Lists, pages: Pages, lists': Lists, pages': Pages,
                 min: nat, q: nat, force: bool, x: PageId)
    requires AgedBelow(lists0, pages0, lists, pages, min, q, force) && min <= q < |lists0|
    requires AgedAt(lists, pages, lists', pages', q, force) && lists[q] == lists0[q]
    requires forall y | y in pages0 :: IsHead(lists0, q, y) ==> HomeOf(pages0[y]) == q
    requires HeadExpires(lists, pages, q, force) <==> HeadExpires(lists0, pages0, q, force)
    ensures NextPageOk(lists0, pages0, pages', x, min, q, force)
  {
    hide HomeOf;
  }

  lemma Together(lists0: Lists, pages0: Pages, lists: Lists, pages: Pages, min: nat, q: nat, force: bool)
    requires |lists| == |lists0| && forall x: PageId :: NextPageOk(lists0, pages0, pages, x, min, q, force)
    requires forall r | 0 <= r < |lists| :: lists[r] == AgedList(lists0, pages0, min, q + 1, force, r)
    ensures AgedBelow(lists0, pages0, lists, pages, min, q + 1, force)
  {
    hide HeadExpires, Expires, Aged, Visited, AgedList;
    forall x ensures x in pages <==> x in pages0 && !(Visited(lists0, pages0, x, min, q + 1) && Expires(pages0[x], force)) {
      assert NextPageOk(lists0, pages0, pages, x, min, q, force);
    }
    forall x | x in pages
      ensures OnlyLinks(if Visited(lists0, pages0, x, min, q + 1) then Aged(pages0[x]) else pages0[x], pages[x])
    {
      assert NextPageOk(lists0, pages0, pages, x, min, q, force);
    }
  }

  /** The first page of another queue is not the first page of this one. */
  lemma HomeListed(queues: seq<Queue>, pages: Pages, lists: Lists, q: nat)
    requires QueuesOk(queues, pages, lists) && q < BIN_FULL
    ensures forall x | x in pages :: IsHead(lists, q, x) ==> HomeOf(pages[x]) == q
  {
    hide Bin, BinWSize;
  }

  lemma WindowNext(lists: Lists, pages: Pages, min: nat, q: nat, force: bool, window: Window, window': Window)
    requires WindowOf(lists, pages, min, q, force, window) && min <= q < BIN_FULL
    requires window' == if HeadStaysRetired(lists, pages, q, force)
      then Window(if q < window.min then q else window.min, if q > window.max then q else window.max) else window
    ensures WindowOf(lists, pages, min, q + 1, force, window')
  {
    hide HeadStaysRetired;
  }

  /**
   `_mi_heap_collect_retired`: the first page of each queue of the window grows a cycle older, and is
   released when its cycles are over; the new window reaches from the first to the last queue whose
   first page stays retired.
   */
  method CollectRetired(heap: Heap, window: Window, force: bool) returns (window': Window)
    requires heap.Valid() && AllCounted(heap.pages) && window.max < BIN_FULL
    modifies heap, heap.queues, heap.direct
    ensures heap.Valid() && AllCounted(heap.pages)
    ensures AgedBelow(old(heap.lists), old(heap.pages), heap.lists, heap.pages, window.min, window.max + 1, force)
    ensures WindowOf(old(heap.lists), old(heap.pages), window.min, window.max + 1, force, window')
    ensures window'.max < BIN_FULL
  {
    hide Bin, BinWSize, QueuesOk, DirectOk, HomeOf, AgedBelow, AgedAt, HeadStaysRetired, AllCounted;
    ghost var queues0, lists0, pages0 := heap.queues[..], heap.lists, heap.pages;
    window' := Window(BIN_FULL, 0);
    var q := window.min;
    AgedStart(lists0, pages0, q, force);
    AgedNone(lists0, pages0, window, force);
    while q <= window.max
      invariant window.min <= q && heap.Valid() && AllCounted(heap.pages)
      invariant if window.min <= window.max then q <= window.max + 1 else q == window.min
      invariant q == window.min ==> heap.lists == lists0 && heap.pages == pages0 && window' == Window(BIN_FULL, 0)
      invariant AgedBelow(lists0, pages0, heap.lists, heap.pages, window.min, q, force)
      invariant WindowOf(lists0, pages0, window.min, q, force, window')
      decreases window.max + 1 - (q as int)
    {
      ghost var lists1, pages1 := heap.lists, heap.pages;
      var kept := CollectBin(heap, q, force);
      AgedNext(queues0, lists0, pages0, lists1, pages1, heap.lists, heap.pages, window.min, q, force);
      ghost var before := window';
      if kept {
        window' := Window(if q < window'.min then q else window'.min, if q > window'.max then q else window'.max);
      }
      WindowNext(lists0, pages0, window.min, q, force, before, window');
      q := q + 1;
    }
  }

  // ---------------------------------------------------------------------------------------------
  // Retiring a page
  // ---------------------------------------------------------------------------------------------

  /** A queue has one page exactly if that page is both its first and its last. */
  lemma AloneIff(queues: seq<Queue>, pages: Pages, lists: Lists, p: PageId)
    requires QueuesOk(queues, pages, lists) && p in pages
    ensures var q := HomeOf(pages[p]);
      q < |queues| == |lists| && (queues[q].first == Some(p) && queues[q].last == Some(p) <==> lists[q] == [p])
  {
    hide Bin, BinWSize;
    var q, k := Position(queues, pages, lists, p);
    assert lists[q] == [p] <==> |lists[q]| == 1;
  }

  function FirstCycles(page: Page): nat {
    if page.wsize <= SMALL_OBJ_WMAX then RETIRE_CYCLES else RETIRE_CYCLES / 4
  }

  /**
   `_mi_page_retire`: an empty page that is alone in its queue is kept for some cycles, and its queue is in
   the window; any other one is released.
   */
  method Retire(heap: Heap, p: PageId, window: Window) returns (kept: bool, window': Window)
    requires heap.Valid() && AllCounted(heap.pages) && p in heap.pages && heap.pages[p].used == 0 && window.max < BIN_FULL
    modifies heap, heap.queues, heap.direct
    ensures heap.Valid() && AllCounted(heap.pages) && window'.max < BIN_FULL
    ensures old(HomeOf(heap.pages[p])) < |old(heap.lists)|
    ensures kept <==> !old(heap.pages[p].inFull) && old(heap.lists)[old(HomeOf(heap.pages[p]))] == [p]
    ensures kept ==>
      && heap.lists == old(heap.lists)
      && heap.pages == old(heap.pages)[p := heap.pages[p]]
      && heap.pages[p] == old(heap.pages[p]).(retire := if old(heap.pages[p].wsize) * WORD <= 2048 then 8 else 2)
      && InWindow(window', HomeOf(heap.pages[p])) && forall q | InWindow(window, q) :: InWindow(window', q)
    ensures !kept ==>
      && window' == window && Taken(old(heap.lists), heap.lists, old(HomeOf(heap.pages[p])), p)
      && heap.pages.Keys == old(heap.pages.Keys) - {p}
      && forall x | x in heap.pages :: OnlyLinks(old(heap.pages[x]), heap.pages[x])
  {
    hide Bin, BinWSize, QueuesOk, DirectOk, Taken;
    window' := window;
    var q := HomeOf(heap.pages[p]);
    AloneIff(heap.queues[..], heap.pages, heap.lists, p);
    HomeReachable(heap.queues[..], heap.pages, heap.lists, p);
    NotInFull(heap.pages[p]);
    MaxRetire(heap.queues[..], heap.pages, heap.lists, p);
    var queue := heap.queues[q];
    kept := heap.pages[p].wsize <= LARGE_WMAX && !heap.pages[p].inFull && queue == Queue(Some(p), Some(p));
    if kept {
      heap.SetCounts(p, heap.pages[p].(retire := FirstCycles(heap.pages[p])));
      window' := Window(if q < window.min then q else window.min, if q > window.max then q else window.max);
    } else {
      var page := heap.Remove(q, p);
    }
  }

  /** No page of a queue is too large to be retired. */
  lemma MaxRetire(queues: seq<Queue>, pages: Pages, lists: Lists, p: PageId)
    requires QueuesOk(queues, pages, lists) && p in pages
    ensures pages[p].wsize <= LARGE_WMAX
  {
    hide Bin, BinWSize;
    assert SizeOk(pages[p].wsize);
    BinInverse(Bin(pages[p].wsize));
  }

  lemma NotInFull(page: Page)
    ensures !page.inFull && Reachable(HomeOf(page)) ==> HomeOf(page) < BIN_FULL
    ensures !page.inFull ==> HomeOf(page) != BIN_FULL
  {
    if !page.inFull { BinFits(if page.wsize <= LARGE_WMAX then page.wsize else 0); }
  }

  /** A page after `n` cycles in which it was the first of its queue. */
  function AgedBy(page: Page, n: nat): Page {
    if n == 0 then page else Aged(AgedBy(page, n - 1))
  }

  /** A retired page that stays empty, and the first of its queue, is released in the last of its cycles and not before. */
  lemma {:induction false} ReleasedInLastCycle(page: Page, n: nat)
    requires page.used == 0 && n < page.retire
    ensures AgedBy(page, n) == page.(retire := page.retire - n)
    ensures Expires(AgedBy(page, n), false) <==> n == page.retire - 1
  {
    if n > 0 { ReleasedInLastCycle(page, n - 1); }
  }
}
