/** The whole search for a page with free blocks: when the queue has none, pages come from segments. */
module FreshPages {
  import opened Options
  import opened SizeClasses
  import opened PageQueues
  import opened PageSearch
  import opened RetiredPages

  /** A page that is put first in the queue of its size. */
  datatype Supplied = Supplied(id: PageId, page: Page)

  /** What the segments give: pages of abandoned segments that are reclaimed, and perhaps a fresh page. */
  datatype Supply = Supply(reclaimed: seq<Supplied>, blank: Option<Supplied>)

  /** A page after `mi_page_init`, before its free list is made. */
  predicate Blank(page: Page, wsize: nat) {
    && page.wsize == wsize && page.reserved > 0
    && page.free == page.local == page.used == page.capacity == page.retire == 0
  }

  ghost predicate ReclaimedOk(reclaimed: seq<Supplied>, ids: set<PageId>) {
    && (forall i | 0 <= i < |reclaimed| :: SizeOk(reclaimed[i].page.wsize) && CountsOk(reclaimed[i].page))
    && (forall i | 0 <= i < |reclaimed| :: reclaimed[i].id !in ids)
    && (forall i, j | 0 <= i < j < |reclaimed| :: reclaimed[i].id != reclaimed[j].id)
  }

  function Ids(reclaimed: seq<Supplied>): set<PageId> {
    set i | 0 <= i < |reclaimed| :: reclaimed[i].id
  }

  function FreshIds(supply: Supply): set<PageId> {
    Ids(supply.reclaimed) + if supply.blank.Some? then {supply.blank.value.id} else {}
  }

  /** Pages that are in no queue, of the sizes of queues, with their blocks counted right. */
  ghost predicate SupplyOk(supply: Supply, q: nat, ids: set<PageId>)
    requires q <= BIN_FULL
  {
    && ReclaimedOk(supply.reclaimed, ids)
    && (supply.blank.Some? ==>
          && supply.blank.value.id !in ids + Ids(supply.reclaimed)
          && Blank(supply.blank.value.page, BinWSize(q)))
  }

  /** The queues when each page was put first in the queue of its size. */
  function PushedAll(lists: Lists, reclaimed: seq<Supplied>): Lists {
    if reclaimed == [] then lists
    else
      var last := reclaimed[|reclaimed| - 1];
      var before := PushedAll(lists, reclaimed[..|reclaimed| - 1]);
      var q := Bin(last.page.wsize);
      if q < |before| then before[q := [last.id] + before[q]] else before
  }

  /** The heap has these pages more, and the others are as they were but for links. */
  ghost predicate Added(pages0: Pages, pages: Pages, ids: set<PageId>) {
    pages.Keys == pages0.Keys + ids && forall x | x in pages0 :: OnlyLinks(pages0[x], pages[x])
  }

  lemma SizeQueue(page: Page)
    requires SizeOk(page.wsize)
    ensures Bin(page.wsize) < BIN_FULL && Reachable(Bin(page.wsize))
  {
  }

  lemma AddedNext(pages0: Pages, pages1: Pages, pages2: Pages, ids: set<PageId>, p: PageId)
    requires Added(pages0, pages1, ids) && Added(pages1, pages2, {p})
    ensures Added(pages0, pages2, ids + {p})
  {
  }

  /** `_mi_page_reclaim` for each page of the reclaimed segments. */
  method PushAll(heap: Heap, reclaimed: seq<Supplied>)
    requires heap.Valid() && AllCounted(heap.pages) && ReclaimedOk(reclaimed, heap.pages.Keys)
    modifies heap, heap.queues, heap.direct
    ensures heap.Valid() && AllCounted(heap.pages)
    ensures heap.lists == PushedAll(old(heap.lists), reclaimed) && Added(old(heap.pages), heap.pages, Ids(reclaimed))
  {
    hide Bin, BinWSize, QueuesOk, DirectOk, Reachable, SizeOk, CountsOk, HomeOf, AllCounted, PushedBy, ReclaimedOk, PushedOne;
    ghost var lists0, pages0 := heap.lists, heap.pages;
    var i := 0;
    NonePushed(lists0, pages0, reclaimed);
    while i < |reclaimed|
      modifies heap, heap.queues, heap.direct
      invariant 0 <= i <= |reclaimed| && heap.Valid() && AllCounted(heap.pages)
      invariant PushedBy(lists0, pages0, heap.lists, heap.pages, reclaimed, i)
    {
      ghost var lists1, pages1 := heap.lists, heap.pages;
      NextItem(lists0, pages0, lists1, pages1, reclaimed, i);
      PushOne(heap, reclaimed[i]);
      PushedNext(lists0, pages0, lists1, pages1, heap.lists, heap.pages, reclaimed, i);
      i := i + 1;
    }
    AllPushed(lists0, pages0, heap.lists, heap.pages, reclaimed);
  }

  /** The first `i` pages have been pushed. */
  ghost predicate PushedBy(lists0: Lists, pages0: Pages, lists: Lists, pages: Pages, reclaimed: seq<Supplied>, i: nat) {
    && i <= |reclaimed| && lists == PushedAll(lists0, reclaimed[..i]) && Added(pages0, pages, Ids(reclaimed[..i]))
  }

  /** One page was pushed. */
  ghost predicate PushedOne(lists: Lists, pages: Pages, lists': Lists, pages': Pages, item: Supplied) {
    && Bin(item.page.wsize) < |lists|
    && lists' == lists[Bin(item.page.wsize) := [item.id] + lists[Bin(item.page.wsize)]]
    && Added(pages, pages', {item.id})
    && item.id in pages'
    && pages'[item.id] == item.page.(inFull := false, next := pages'[item.id].next, prev := pages'[item.id].prev)
  }

  lemma NonePushed(lists: Lists, pages: Pages, reclaimed: seq<Supplied>)
    ensures PushedBy(lists, pages, lists, pages, reclaimed, 0)
  {
    assert reclaimed[..0] == [];
  }

  lemma AllPushed(lists0: Lists, pages0: Pages, lists: Lists, pages: Pages, reclaimed: seq<Supplied>)
    requires PushedBy(lists0, pages0, lists, pages, reclaimed, |reclaimed|)
    ensures lists == PushedAll(lists0, reclaimed) && Added(pages0, pages, Ids(reclaimed))
  {
    assert reclaimed[..|reclaimed|] == reclaimed;
  }

  lemma NextItem(lists0: Lists, pages0: Pages, lists: Lists, pages: Pages, reclaimed: seq<Supplied>, i: nat)
    requires PushedBy(lists0, pages0, lists, pages, reclaimed, i) && i < |reclaimed| && ReclaimedOk(reclaimed, pages0.Keys)
    ensures reclaimed[i].id !in pages && SizeOk(reclaimed[i].page.wsize) && CountsOk(reclaimed[i].page)
  {
    hide SizeOk, CountsOk, PushedAll;
  }

  lemma PushedNext(lists0: Lists, pages0: Pages, lists: Lists, pages: Pages, lists': Lists, pages': Pages,
                   reclaimed: seq<Supplied>, i: nat)
    requires PushedBy(lists0, pages0, lists, pages, reclaimed, i) && i < |reclaimed|
    requires PushedOne(lists, pages, lists', pages', reclaimed[i])
    ensures PushedBy(lists0, pages0, lists', pages', reclaimed, i + 1)
  {
    hide Bin;
    PrefixIds(reclaimed, i);
    AddedNext(pages0, pages, pages', Ids(reclaimed[..i]), reclaimed[i].id);
    assert reclaimed[..i + 1][..i] == reclaimed[..i];
  }

  lemma PrefixIds(reclaimed: seq<Supplied>, i: nat)
    requires i < |reclaimed|
    ensures Ids(reclaimed[..i + 1]) == Ids(reclaimed[..i]) + {reclaimed[i].id}
  {
  }

  method PushOne(heap: Heap, item: Supplied)
    requires heap.Valid() && AllCounted(heap.pages) && item.id !in heap.pages
    requires SizeOk(item.page.wsize) && CountsOk(item.page)
    modifies heap, heap.queues, heap.direct
    ensures heap.Valid() && AllCounted(heap.pages)
    ensures PushedOne(old(heap.lists), old(heap.pages), heap.lists, heap.pages, item)
  {
    hide Bin, BinWSize, QueuesOk, DirectOk, SizeOk;
    SizeQueue(item.page);
    Lengths(heap.queues[..], heap.pages, heap.lists);
    heap.Push(Bin(item.page.wsize), item.id, item.page);
  }

  lemma QueueSize(q: nat)
    requires Reachable(q)
    ensures q < BIN_FULL && SizeOk(BinWSize(q)) && Bin(BinWSize(q)) == q && BinWSize(q) > 0
  {
    hide Bin, BinWSize;
    BinInverse(q);
    SmallQueue(q);
  }

  /** `mi_page_fresh`: reclaimed pages go to their queues; a fresh page, if there is one, is the first of this queue. */
  method TakeFresh(heap: Heap, q: nat, supply: Supply) returns (p: Option<PageId>)
    requires heap.Valid() && AllCounted(heap.pages) && Reachable(q) && SupplyOk(supply, q, heap.pages.Keys)
    modifies heap, heap.queues, heap.direct
    ensures heap.Valid() && AllCounted(heap.pages) && Added(old(heap.pages), heap.pages, FreshIds(supply))
    ensures match supply.blank
      case None => p == None && heap.lists == PushedAll(old(heap.lists), supply.reclaimed)
      case Some(item) =>
        && p == Some(item.id) && CanServe(heap, q, item.id)
        && var lists := PushedAll(old(heap.lists), supply.reclaimed);
           q < |lists| && heap.lists == lists[q := [item.id] + lists[q]]
  {
    hide Bin, BinWSize, QueuesOk, DirectOk, SizeOk, CountsOk, Reachable, AllCounted, PushedOne, Added, ReclaimedOk, PushedAll,
         HomeOf, Extended;
    ghost var pages0 := heap.pages;
    PushAll(heap, supply.reclaimed);
    if supply.blank.None? {
      assert Ids(supply.reclaimed) == FreshIds(supply);
      return None;
    }
    var item := supply.blank.value;
    QueueSize(q);
    BlankOk(item.page, q);
    ExtendedOk(item.page);
    ghost var lists1, pages1 := heap.lists, heap.pages;
    var made := item.(page := Extended(item.page));
    NotThere(pages0, pages1, Ids(supply.reclaimed), item.id);
    PushOne(heap, made);
    Arrived(pages0, lists1, pages1, heap.lists, heap.pages, Ids(supply.reclaimed), made, q);
    FirstIs(heap.queues[..], heap.pages, heap.lists, q, item.id);
    return Some(item.id);
  }

  lemma NotThere(pages0: Pages, pages: Pages, ids: set<PageId>, p: PageId)
    requires Added(pages0, pages, ids) && p !in pages0.Keys + ids
    ensures p !in pages
  {
  }

  lemma Arrived(pages0: Pages, lists: Lists, pages: Pages, lists': Lists, pages': Pages, ids: set<PageId>,
                item: Supplied, q: nat)
    requires Added(pages0, pages, ids) && PushedOne(lists, pages, lists', pages', item) && Bin(item.page.wsize) == q
    ensures Added(pages0, pages', ids + {item.id})
    ensures q < |lists| && lists' == lists[q := [item.id] + lists[q]] && IsHead(lists', q, item.id)
    ensures item.id in pages' && pages'[item.id].free == item.page.free && pages'[item.id].retire == item.page.retire
  {
    hide Bin;
    AddedNext(pages0, pages, pages', ids, item.id);
  }

  lemma BlankOk(page: Page, q: nat)
    requires Reachable(q) && q <= BIN_FULL && Blank(page, BinWSize(q))
    ensures CountsOk(page) && page.capacity < page.reserved && SizeOk(page.wsize) && Bin(page.wsize) == q
  {
    hide Bin, BinWSize;
    QueueSize(q);
  }

  lemma FirstIs(queues: seq<Queue>, pages: Pages, lists: Lists, q: nat, p: PageId)
    requires QueuesOk(queues, pages, lists) && q < BIN_FULL && IsHead(lists, q, p)
    ensures q < |queues| && queues[q].first == Some(p) && p in pages && HomeOf(pages[p]) == q
  {
    hide Bin, BinWSize;
    HeadIn(queues, pages, lists, q);
  }

  /** A page that can serve the queue: the first, with a free block, and not retired. */
  predicate CanServe(heap: Heap, q: nat, p: PageId)
    reads heap, heap.queues
  {
    && q < heap.queues.Length && heap.queues[q].first == Some(p)
    && p in heap.pages && HomeOf(heap.pages[p]) == q && heap.pages[p].free > 0 && heap.pages[p].retire == 0
  }

  // ---------------------------------------------------------------------------------------------
  // The whole search
  // ---------------------------------------------------------------------------------------------

  /** What other threads free during a search, and what segments give after it. */
  datatype Attempt = Attempt(freed: nat -> nat, supply: Supply)

  /** Position `k` is the first of the queue with a page that becomes available. */
  ghost predicate FirstUsable(lists: Lists, pages: Pages, q: nat, freed: nat -> nat, k: nat) {
    && q < |lists| && k < |lists[q]| && (forall i | 0 <= i <= k :: lists[q][i] in pages)
    && Usable(pages[lists[q][k]], freed(2 * k))
    && forall i | 0 <= i < k :: !Usable(pages[lists[q][i]], freed(2 * i))
  }

  /** Only retired pages have left the heap, and none was retired. */
  ghost predicate OnlyRetiredLeft(pages0: Pages, pages: Pages) {
    forall x | x in pages0 && (x in pages ==> pages[x].retire > 0) :: pages0[x].retire > 0
  }

  lemma LeftTwice(pages0: Pages, pages1: Pages, pages2: Pages)
    requires OnlyRetiredLeft(pages0, pages1) && OnlyRetiredLeft(pages1, pages2)
    ensures OnlyRetiredLeft(pages0, pages2)
  {
    forall x | x in pages0 && (x in pages2 ==> pages2[x].retire > 0) ensures pages0[x].retire > 0 {
      if x in pages1 { assert pages1[x].retire > 0; }
    }
  }

  lemma RetireLeft(pages0: Pages, pages: Pages)
    requires SameRetire(pages0, pages)
    ensures OnlyRetiredLeft(pages0, pages)
  {
  }

  lemma AgedLeft(lists0: Lists, pages0: Pages, lists: Lists, pages: Pages, min: nat, b: nat, force: bool)
    requires AgedBelow(lists0, pages0, lists, pages, min, b, force)
    ensures OnlyRetiredLeft(pages0, pages) && pages.Keys <= pages0.Keys
  {
    hide Visited;
  }

  lemma AddedLeft(pages0: Pages, pages: Pages, ids: set<PageId>)
    requires Added(pages0, pages, ids)
    ensures OnlyRetiredLeft(pages0, pages)
  {
  }

  /** The pages that the segments give are new to the heap. */
  lemma SupplyNew(supply: Supply, q: nat, ids: set<PageId>)
    requires q <= BIN_FULL && SupplyOk(supply, q, ids)
    ensures FreshIds(supply) !! ids
  {
    hide SizeOk, CountsOk, BinWSize;
  }

  lemma SupplyStays(supply: Supply, q: nat, ids: set<PageId>, ids': set<PageId>)
    requires q <= BIN_FULL && SupplyOk(supply, q, ids) && ids' <= ids
    ensures SupplyOk(supply, q, ids')
  {
    hide SizeOk, CountsOk, BinWSize;
  }

  /** There is at most one first usable position. */
  lemma OneFirst(lists: Lists, pages: Pages, q: nat, freed: nat -> nat, k: nat, found: Option<PageId>)
    requires q < |lists| && k <= |lists[q]|
    requires forall i | 0 <= i < k :: lists[q][i] in pages && !Usable(pages[lists[q][i]], freed(2 * i))
    requires found.None? ==> k == |lists[q]|
    requires match found
      case None => k == |lists[q]|
      case Some(p) => k < |lists[q]| && p == lists[q][k] && p in pages && Usable(pages[p], freed(2 * k))
    ensures forall j: nat | FirstUsable(lists, pages, q, freed, j) :: j == k && found == Some(lists[q][j])
    ensures found.Some? ==> FirstUsable(lists, pages, q, freed, k)
  {
    hide Usable;
  }

  /** The page of another queue is released by the next collection of retired pages. */
  predicate Due(lists: Lists, pages: Pages, x: PageId, q: nat, window: Window)
    requires x in pages
  {
    HomeOf(pages[x]) != q && Visited(lists, pages, x, window.min, window.max + 1) && Expires(pages[x], false)
  }

  /** A search that finds nothing leaves the retired pages of other queues for the collection. */
  lemma DueReleased(queues: seq<Queue>, pages0: Pages, lists0: Lists, queues1: seq<Queue>, pages1: Pages, lists1: Lists,
                    pages2: Pages, lists2: Lists, q: nat, freed: nat -> nat, k: nat, window: Window, x: PageId)
    requires QueuesOk(queues, pages0, lists0) && QueuesOk(queues1, pages1, lists1) && q < BIN_FULL && window.max < BIN_FULL
    requires PrefixMoved(lists0, lists1, q, k) && Searched(pages0, pages1, lists0[q], freed, k, None)
    requires AgedBelow(lists1, pages1, lists2, pages2, window.min, window.max + 1, false)
    requires x in pages0 && Due(lists0, pages0, x, q, window)
    ensures x !in pages2
  {
    hide Bin, BinWSize, Spelled, HomeOf, SweptTwice;
    var home := HomeOf(pages0[x]);
    assert lists1[home] == lists0[home];
    assert x in lists0[home];
    assert x in lists1[home];
    assert HomeOf(pages1[x]) == home;
    NotAmong(queues, pages0, lists0, q, k, x);
    assert Same(pages0[x], pages1[x]);
  }

  lemma NotAmong(queues: seq<Queue>, pages: Pages, lists: Lists, q: nat, k: nat, x: PageId)
    requires QueuesOk(queues, pages, lists) && q < BIN_FULL && x in pages && HomeOf(pages[x]) != q
    ensures !Among(lists[q], k, x)
  {
    hide Bin, BinWSize, Spelled, HomeOf;
  }

  lemma SearchedClear(pages0: Pages, pages1: Pages, list: seq<PageId>, freed: nat -> nat, k: nat, p: PageId)
    requires Searched(pages0, pages1, list, freed, k, Some(p)) && p in pages1 && k < |list| && list[k] == p && NoDup(list)
    ensures Searched(pages0, pages1[p := pages1[p].(retire := 0)], list, freed, k, Some(p))
  {
    hide SweptTwice, Same;
  }

  /**
   `mi_page_queue_find_free_ex`: the first usable page of the queue; if there is none, retired pages are
   collected, and a fresh page is taken; if there is none, and this is the first attempt, once again.
   */
  method FindPage(heap: Heap, q: nat, first: Attempt, second: Option<Attempt>, window: Window)
    returns (found: Option<PageId>, window': Window)
    requires heap.Valid() && AllCounted(heap.pages) && Reachable(q) && q <= BIN_FULL && window.max < BIN_FULL
    requires SupplyOk(first.supply, q, heap.pages.Keys)
    requires second.Some? ==> SupplyOk(second.value.supply, q, heap.pages.Keys + FreshIds(first.supply))
    modifies heap, heap.queues, heap.direct
    ensures heap.Valid() && AllCounted(heap.pages) && window'.max < BIN_FULL
    ensures match found
      case Some(p) => CanServe(heap, q, p)
      case None => first.supply.blank == None && (second.Some? ==> second.value.supply.blank == None)
    ensures forall k: nat | FirstUsable(old(heap.lists), old(heap.pages), q, first.freed, k) ::
      && found == Some(old(heap.lists)[q][k]) && window' == window
      && PrefixMoved(old(heap.lists), heap.lists, q, k)
      && Searched(old(heap.pages), heap.pages, old(heap.lists)[q], first.freed, k, found)
    ensures (forall k: nat :: !FirstUsable(old(heap.lists), old(heap.pages), q, first.freed, k)) ==>
      forall x | x in old(heap.pages) && Due(old(heap.lists), old(heap.pages), x, q, window) :: x !in heap.pages
    ensures OnlyRetiredLeft(old(heap.pages), heap.pages)
    ensures heap.pages.Keys <=
      old(heap.pages.Keys) + FreshIds(first.supply) + if second.Some? then FreshIds(second.value.supply) else {}
    decreases second.Some?
  {
    hide Bin, BinWSize, QueuesOk, DirectOk, Reachable, HomeOf, Usable, AllCounted, OnlyRetiredLeft, SupplyOk, FirstUsable,
         PrefixMoved, AgedBelow, WindowOf, SameRetire, Added, PushedAll, FreshIds, Searched, Due, Made;
    ghost var lists0, pages0 := heap.lists, heap.pages;
    ghost var k: nat;
    found, k := FindFree(heap, q, first.freed);
    QueueBound(q);
    PrefixBound(lists0, heap.lists, q, k);
    OneFirst(lists0, pages0, q, first.freed, k, found);
    RetireLeft(pages0, heap.pages);
    ghost var queues0 := old(heap.queues[..]);
    ListNoDup(queues0, pages0, lists0, q);
    window' := window;
    if found.Some? {
      ghost var pages1 := heap.pages;
      TakenFirst(heap.queues[..], heap.pages, heap.lists, q, found.value);
      heap.SetCounts(found.value, heap.pages[found.value].(retire := 0));
      SearchedClear(pages0, pages1, lists0[q], first.freed, k, found.value);
      Cleared(pages1, found.value);
      LeftTwice(pages0, pages1, heap.pages);
      return;
    }
    ghost var queues1, lists1, pages1 := heap.queues[..], heap.lists, heap.pages;
    window' := CollectRetired(heap, window, false);
    ghost var pages2 := heap.pages;
    AgedLeft(lists1, pages1, heap.lists, pages2, window.min, window.max + 1, false);
    LeftTwice(pages0, pages1, pages2);
    forall x | x in pages0 && Due(lists0, pages0, x, q, window) ensures x !in pages2 {
      DueReleased(queues0, pages0, lists0, queues1, pages1, lists1, pages2, heap.lists, q, first.freed, k, window, x);
    }
    SupplyStays(first.supply, q, pages0.Keys, pages2.Keys);
    found := TakeFresh(heap, q, first.supply);
    ghost var pages3 := heap.pages;
    AddedLeft(pages2, pages3, FreshIds(first.supply));
    LeftTwice(pages0, pages2, pages3);
    AddedKeys(pages2, pages3, FreshIds(first.supply));
    SupplyNew(first.supply, q, pages0.Keys);
    if found.None? && second.Some? {
      SupplyNew(second.value.supply, q, pages0.Keys + FreshIds(first.supply));
      SupplyStays(second.value.supply, q, pages0.Keys + FreshIds(first.supply), pages3.Keys);
      found, window' := FindPage(heap, q, second.value, None, window');
      LeftTwice(pages0, pages3, heap.pages);
    }
  }

  lemma PrefixBound(lists0: Lists, lists: Lists, q: nat, k: nat)
    requires PrefixMoved(lists0, lists, q, k)
    ensures q < |lists0| && k <= |lists0[q]|
  {
  }

  lemma AddedKeys(pages0: Pages, pages: Pages, ids: set<PageId>)
    requires Added(pages0, pages, ids)
    ensures pages.Keys == pages0.Keys + ids
  {
  }

  lemma Cleared(pages: Pages, p: PageId)
    requires p in pages
    ensures OnlyRetiredLeft(pages, pages[p := pages[p].(retire := 0)])
    ensures AllCounted(pages) ==> AllCounted(pages[p := pages[p].(retire := 0)])
  {
  }

  lemma TakenFirst(queues: seq<Queue>, pages: Pages, lists: Lists, q: nat, p: PageId)
    requires QueuesOk(queues, pages, lists) && q < BIN_FULL && q < |queues| && queues[q].first == Some(p)
    ensures p in pages && HomeOf(pages[p]) == q && forall n :: HomeOf(pages[p].(retire := n)) == q
  {
    hide Bin, BinWSize;
    HeadIn(queues, pages, lists, q);
  }
}
