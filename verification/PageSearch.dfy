/** The search for a page with free blocks in a queue of a heap. */
module PageSearch {
  import opened Options
  import opened SizeClasses
  import opened PageQueues
  import FreeProtocol

  /** MI_MAX_EXTEND_SIZE */
  const MAX_EXTEND_SIZE: nat := 4096

  /** Blocks that other threads freed are at most the used ones. */
  function Remote(page: Page, freed: nat): nat {
    if freed <= page.used then freed else page.used
  }

  /** `_mi_page_free_collect` without force, when other threads have freed some blocks. */
  function Collected(page: Page, freed: nat): Page {
    var n := Remote(page, freed);
    var local := page.local + n;
    if page.free == 0 then page.(used := page.used - n, free := local, local := 0)
    else page.(used := page.used - n, local := local)
  }

  /** How many blocks `mi_page_extend_free` adds. */
  function ExtendBy(page: Page): nat
    requires page.capacity <= page.reserved && page.wsize > 0
  {
    var bsize := page.wsize * WORD;
    var max := if bsize >= MAX_EXTEND_SIZE then 1 else MAX_EXTEND_SIZE / bsize;
    if page.reserved - page.capacity > max then max else page.reserved - page.capacity
  }

  function Extended(page: Page): Page
    requires page.capacity <= page.reserved && page.wsize > 0
  {
    page.(capacity := page.capacity + ExtendBy(page), free := page.free + ExtendBy(page))
  }

  /** No page of the heap was retired or taken out of retirement. */
  ghost predicate SameRetire(pages0: Pages, pages: Pages) {
    pages.Keys == pages0.Keys && forall x | x in pages :: pages[x].retire == pages0[x].retire
  }

  lemma RetireKept(pages0: Pages, pages1: Pages, pages2: Pages)
    ensures SameRetire(pages0, pages0)
    ensures SameRetire(pages0, pages1) && SameRetire(pages1, pages2) ==> SameRetire(pages0, pages2)
  {
  }

  /** The blocks of a page are counted right. */
  predicate CountsOk(page: Page) {
    page.used + page.free + page.local == page.capacity <= page.reserved && page.wsize > 0
  }

  /** The page has a block that is free, or was freed by its owner or by others, or can be extended. */
  predicate Usable(page: Page, freed: nat) {
    page.free > 0 || page.local > 0 || (freed > 0 && page.used > 0) || page.capacity < page.reserved
  }

  /** What the first two attempts make of a page. */
  function Made(page: Page, freed: nat): Page
    requires page.capacity <= page.reserved && page.wsize > 0
  {
    var collected := Collected(page, freed);
    if collected.free == 0 && page.capacity < page.reserved then Extended(collected) else collected
  }

  /** After collecting, a usable page has a free block, or can be extended. */
  lemma UsableIff(page: Page, freed: nat)
    ensures Usable(page, freed) <==> Collected(page, freed).free > 0 || page.capacity < page.reserved
  {
  }

  /** The counts of a page are those of the lists of a page of the protocol; `n` blocks wait on its thread-free list. */
  predicate CountsOf(page: Page, lists: FreeProtocol.Page, n: nat) {
    && page.free == |lists.free| && page.local == |lists.localFree| && n == |lists.tfree|
    && page.used == lists.used && page.capacity == lists.capacity
  }

  /** Collecting does to the counts what it does to the lists. */
  lemma CollectedCounts(page: Page, freed: nat, lists: FreeProtocol.Page)
    requires CountsOk(page) && CountsOf(page, lists, Remote(page, freed))
    ensures CountsOf(Collected(page, freed), FreeProtocol.Migrate(FreeProtocol.TakeThreadFree(lists), false), 0)
    ensures
      var n := if freed <= page.used then freed else page.used;
      var collected := Collected(page, freed);
      && collected.used == page.used - n
      && (page.free == 0 ==> collected.local == 0 && collected.free == page.local + n)
      && (page.free > 0 ==> collected.local == page.local + n && collected.free == page.free)
  {
  }

  /**
   A page is extended by at least a block, within its reserve; by no more than fill MI_MAX_EXTEND_SIZE, if that
   is more than a block; and by less only if it has no more in reserve.
   */
  lemma ExtendedBy(page: Page)
    requires CountsOk(page) && page.capacity < page.reserved
    ensures
      var n, bsize := Extended(page).capacity - page.capacity, page.wsize * WORD;
      && 1 <= n <= page.reserved - page.capacity && Extended(page).free == page.free + n
      && (n == 1 || n * bsize <= MAX_EXTEND_SIZE)
      && (n == page.reserved - page.capacity || (n + 1) * bsize > MAX_EXTEND_SIZE)
  {
    var bsize := page.wsize * WORD;
    if bsize < MAX_EXTEND_SIZE { Quotient(MAX_EXTEND_SIZE, bsize, ExtendBy(page)); }
  }

  lemma Quotient(x: nat, d: nat, n: nat)
    requires 0 < d < x && n <= x / d
    ensures x / d >= 1 && n * d <= x && (x / d + 1) * d > x
  {
    assert (x / d) * d + x % d == x;
    var e := x / d - n;
    assert (x / d) * d == n * d + e * d;
    assert (x / d) * d > 0;
  }

  lemma CollectedOk(page: Page, freed: nat)
    requires CountsOk(page)
    ensures CountsOk(Collected(page, freed)) && SameQueue(page, Collected(page, freed))
    ensures var collected := Collected(page, freed);
      collected.retire == page.retire && collected.capacity == page.capacity && collected.reserved == page.reserved
  {
  }

  lemma ExtendedOk(page: Page)
    requires CountsOk(page) && page.capacity < page.reserved
    ensures CountsOk(Extended(page)) && SameQueue(page, Extended(page)) && Extended(page).free > 0
    ensures Extended(page).retire == page.retire
  {
    var bsize := page.wsize * WORD;
    if bsize < MAX_EXTEND_SIZE { assert MAX_EXTEND_SIZE / bsize >= 1; }
  }

  /** The pages from position `k` on have the counts that they had before. */
  ghost predicate Untouched(pages0: Pages, pages: Pages, list: seq<PageId>, k: nat) {
    forall i | k <= i < |list| ::
      list[i] in pages0 && list[i] in pages && Same(pages0[list[i]], pages[list[i]])
  }

  /** The page was collected, put on the full queue, and collected again. */
  predicate SweptTwice(page: Page, page': Page, freed: nat, freed': nat) {
    page'.inFull && Same(Collected(Collected(page, freed), freed'), page')
  }

  lemma SweptStays(a: Page, b: Page, c: Page, freed: nat, freed': nat)
    requires SweptTwice(a, b, freed, freed') && Same(b, c) && c.inFull == b.inFull
    ensures SweptTwice(a, c, freed, freed')
  {
    hide Collected;
  }

  lemma SweptNow(a: Page, b: Page, c: Page, d: Page, freed: nat, freed': nat)
    requires Same(a, b) && c == Collected(b, freed) && Same(Collected(c, freed'), d) && d.inFull
    ensures SweptTwice(a, d, freed, freed')
  {
    hide Collected;
    UsableSame(a, b, freed);
    UsableSame(Collected(a, freed), c, freed');
  }

  predicate Among(list: seq<PageId>, k: nat, x: PageId) {
    exists i :: 0 <= i < k && i < |list| && list[i] == x
  }

  lemma AmongNext(list: seq<PageId>, k: nat)
    requires k < |list|
    ensures forall x :: Among(list, k + 1, x) <==> Among(list, k, x) || x == list[k]
  {
    forall x ensures Among(list, k + 1, x) <==> Among(list, k, x) || x == list[k] {
      if x == list[k] { assert 0 <= k < k + 1 && list[k] == x; }
      if Among(list, k + 1, x) && x != list[k] {
        var i :| 0 <= i < k + 1 && i < |list| && list[i] == x;
        assert i < k;
      }
      if Among(list, k, x) {
        var i :| 0 <= i < k && i < |list| && list[i] == x;
      }
    }
  }

  /** The first `k` pages of the list were collected twice; others than these and `except` were not touched. */
  ghost predicate Searched(pages0: Pages, pages: Pages, list: seq<PageId>, freed: nat -> nat, k: nat, except: Option<PageId>) {
    && k <= |list| && pages.Keys == pages0.Keys
    && (forall i | 0 <= i < k ::
          list[i] in pages && SweptTwice(pages0[list[i]], pages[list[i]], freed(2 * i), freed(2 * i + 1)))
    && (forall x | x in pages && !Among(list, k, x) && Some(x) != except :: Same(pages0[x], pages[x]))
  }

  /** Only `p` was collected and moved. */
  predicate OthersSame(pages: Pages, pages': Pages, p: PageId) {
    pages'.Keys == pages.Keys &&
    forall x | x in pages && x != p :: Same(pages[x], pages'[x]) && pages'[x].inFull == pages[x].inFull
  }

  lemma OthersTwice(pages1: Pages, pages2: Pages, pages3: Pages, p: PageId)
    requires pages2.Keys == pages1.Keys && forall x | x in pages1 && x != p :: pages2[x] == pages1[x]
    requires OthersSame(pages2, pages3, p)
    ensures OthersSame(pages1, pages3, p)
  {
    hide Same;
  }

  lemma SearchedNext(pages0: Pages, pages1: Pages, pages3: Pages, list: seq<PageId>, freed: nat -> nat, k: nat)
    requires Searched(pages0, pages1, list, freed, k, None) && k < |list| && NoDup(list) && list[k] in pages0
    requires OthersSame(pages1, pages3, list[k])
    requires SweptTwice(pages0[list[k]], pages3[list[k]], freed(2 * k), freed(2 * k + 1))
    ensures Searched(pages0, pages3, list, freed, k + 1, None)
  {
    hide SweptTwice, Same, OthersSame, Among;
    SameKeys(pages1, pages3, list[k]);
    forall i | 0 <= i < k + 1
      ensures list[i] in pages3 && SweptTwice(pages0[list[i]], pages3[list[i]], freed(2 * i), freed(2 * i + 1))
    {
      if i < k {
        OtherSame(pages1, pages3, list[k], list[i]);
        SweptStays(pages0[list[i]], pages1[list[i]], pages3[list[i]], freed(2 * i), freed(2 * i + 1));
      }
    }
    AmongNext(list, k);
    forall x | x in pages3 && !Among(list, k + 1, x) ensures Same(pages0[x], pages3[x]) {
      OtherSame(pages1, pages3, list[k], x);
      SameTwice(pages0[x], pages1[x], pages3[x]);
    }
  }

  lemma OtherSame(pages: Pages, pages': Pages, p: PageId, x: PageId)
    requires OthersSame(pages, pages', p) && x in pages && x != p
    ensures x in pages' && Same(pages[x], pages'[x]) && pages'[x].inFull == pages[x].inFull
  {
  }

  lemma SameKeys(pages: Pages, pages': Pages, p: PageId)
    requires OthersSame(pages, pages', p)
    ensures pages'.Keys == pages.Keys
  {
  }

  lemma SameTwice(a: Page, b: Page, c: Page)
    requires Same(a, b) && Same(b, c)
    ensures Same(a, c)
  {
  }

  lemma SearchedStart(pages: Pages, list: seq<PageId>, freed: nat -> nat)
    ensures Searched(pages, pages, list, freed, 0, None)
  {
  }

  lemma MadeSame(a: Page, b: Page, freed: nat)
    requires Same(a, b) && CountsOk(a) && CountsOk(b)
    ensures Same(Made(a, freed), Made(b, freed))
  {
  }

  lemma NotMade(page: Page, freed: nat)
    requires CountsOk(page) && !Usable(page, freed)
    ensures Made(page, freed) == Collected(page, freed)
  {
    UsableIff(page, freed);
  }

  lemma CountedAt(pages: Pages, p: PageId)
    requires AllCounted(pages) && p in pages
    ensures CountsOk(pages[p])
  {
  }

  lemma SearchedEnd(pages0: Pages, pages1: Pages, pages2: Pages, list: seq<PageId>, freed: nat -> nat, k: nat)
    requires Searched(pages0, pages1, list, freed, k, None) && k < |list| && NoDup(list) && pages2.Keys == pages1.Keys
    requires forall x | x in pages1 && x != list[k] :: pages2[x] == pages1[x]
    ensures Searched(pages0, pages2, list, freed, k, Some(list[k]))
  {
    hide Collected;
    forall i | 0 <= i < k ensures list[i] != list[k] { }
  }

  ghost predicate AllCounted(pages: Pages) {
    forall x | x in pages :: CountsOk(pages[x])
  }

  /** The first `k` pages of `list` went to the full queue, in order; nothing else moved. */
  ghost predicate PrefixMoved(lists0: Lists, lists: Lists, q: nat, k: nat) {
    && |lists0| == |lists| == BIN_FULL + 1 && q < BIN_FULL && k <= |lists0[q]|
    && lists == lists0[q := lists0[q][k..]][BIN_FULL := lists0[BIN_FULL] + lists0[q][..k]]
  }

  /** The first page of a queue, and the one after it. */
  lemma HeadOf(queues: seq<Queue>, pages: Pages, lists: Lists, lists0: Lists, q: nat, k: nat)
    requires QueuesOk(queues, pages, lists) && PrefixMoved(lists0, lists, q, k)
    ensures |queues| == BIN_FULL + 1 && queues[q].first == At(lists0[q], k)
    ensures k < |lists0[q]| ==>
      var p := lists0[q][k];
      p in pages && HomeOf(pages[p]) == q && pages[p].next == At(lists0[q], k + 1)
  {
    hide Bin, BinWSize;
    assert Spelled(queues[q], pages, lists[q]);
    if k < |lists0[q]| {
      assert lists[q][0] == lists0[q][k];
      assert lists[q][0] in lists[q];
      assert At(lists[q], 1) == At(lists0[q], k + 1);
    }
  }

  /** Moving the first page of the queue. */
  lemma MovedHead(queues: seq<Queue>, pages: Pages, lists0: Lists, lists: Lists, lists': Lists, q: nat, k: nat)
    requires QueuesOk(queues, pages, lists) && PrefixMoved(lists0, lists, q, k) && k < |lists0[q]|
    requires Moved(lists, lists', q, BIN_FULL, lists0[q][k])
    ensures PrefixMoved(lists0, lists', q, k + 1)
  {
    hide Bin, BinWSize;
    assert Spelled(queues[q], pages, lists[q]);
    assert lists[q][0] == lists0[q][k];
    MovedFirst(lists, lists', q, lists0[q][k]);
    PrefixNext(lists0, lists, q, k);
  }

  lemma MovedFirst(lists: Lists, lists': Lists, q: nat, p: PageId)
    requires |lists| == BIN_FULL + 1 && q < BIN_FULL && lists[q] != [] && lists[q][0] == p && NoDup(lists[q])
    requires Moved(lists, lists', q, BIN_FULL, p)
    ensures lists' == lists[q := lists[q][1..]][BIN_FULL := lists[BIN_FULL] + [p]]
  {
    var mid :| Taken(lists, mid, q, p) && BIN_FULL < |mid| && lists' == mid[BIN_FULL := mid[BIN_FULL] + [p]];
    var j :| 0 <= j < |lists[q]| && lists[q][j] == p && mid == lists[q := Without(lists[q], j)];
    assert Without(lists[q], 0) == lists[q][1..];
  }

  lemma PrefixNext(lists0: Lists, lists: Lists, q: nat, k: nat)
    requires PrefixMoved(lists0, lists, q, k) && k < |lists0[q]|
    ensures lists[q] != [] && lists[q][0] == lists0[q][k]
    ensures PrefixMoved(lists0, lists[q := lists[q][1..]][BIN_FULL := lists[BIN_FULL] + [lists0[q][k]]], q, k + 1)
  {
    assert lists[q][1..] == lists0[q][k + 1..];
    assert lists0[BIN_FULL] + lists0[q][..k] + [lists0[q][k]] == lists0[BIN_FULL] + lists0[q][..k + 1];
  }

  lemma UntouchedAt(pages0: Pages, pages: Pages, list: seq<PageId>, k: nat)
    requires Untouched(pages0, pages, list, k) && k < |list|
    ensures list[k] in pages0 && list[k] in pages && Same(pages0[list[k]], pages[list[k]])
  {
  }

  lemma QueueBound(q: nat)
    requires Reachable(q)
    ensures q < BIN_FULL
  {
  }

  lemma StartUntouched(queues: seq<Queue>, pages: Pages, lists: Lists, q: nat)
    requires QueuesOk(queues, pages, lists) && q < BIN_FULL
    ensures Untouched(pages, pages, lists[q], 0)
  {
    hide Bin, BinWSize;
    assert Spelled(queues[q], pages, lists[q]);
  }

  lemma UsableSame(a: Page, b: Page, freed: nat)
    requires Same(a, b)
    ensures Usable(a, freed) <==> Usable(b, freed)
    ensures Usable(b, freed) <==> Collected(b, freed).free > 0 || Collected(b, freed).capacity < Collected(b, freed).reserved
    ensures Same(Collected(a, freed), Collected(b, freed))
  {
  }

  /** Only the page at position `k` changed its counts. */
  lemma OneTouched(pages0: Pages, pages: Pages, pages': Pages, list: seq<PageId>, k: nat)
    requires Untouched(pages0, pages, list, k) && k < |list| && NoDup(list) && pages'.Keys == pages.Keys
    requires forall x | x in pages && x != list[k] :: Same(pages[x], pages'[x])
    ensures Untouched(pages0, pages', list, k + 1)
  {
  }

  lemma ListNoDup(queues: seq<Queue>, pages: Pages, lists: Lists, q: nat)
    requires QueuesOk(queues, pages, lists) && q < BIN_FULL
    ensures NoDup(lists[q])
  {
    hide Bin, BinWSize;
    assert Spelled(queues[q], pages, lists[q]);
  }

  /** `mi_page_to_full`: the page goes to the full queue, and is collected once more. */
  method ToFull(heap: Heap, q: nat, p: PageId, freed: nat, ghost lists0: Lists, ghost pages0: Pages, ghost k: nat)
    requires heap.Valid() && p in heap.pages && q == HomeOf(heap.pages[p]) && q < BIN_FULL && AllCounted(heap.pages)
    requires PrefixMoved(lists0, heap.lists, q, k) && k < |lists0[q]| && p == lists0[q][k] && NoDup(lists0[q])
    requires Untouched(pages0, heap.pages, lists0[q], k + 1)
    modifies heap, heap.queues, heap.direct
    ensures heap.Valid() && heap.pages.Keys == old(heap.pages.Keys) && heap.pageCount == old(heap.pageCount)
    ensures AllCounted(heap.pages) && PrefixMoved(lists0, heap.lists, q, k + 1)
    ensures Untouched(pages0, heap.pages, lists0[q], k + 1)
    ensures SameRetire(old(heap.pages), heap.pages)
    ensures Same(Collected(old(heap.pages)[p], freed), heap.pages[p]) && heap.pages[p].inFull
    ensures OthersSame(old(heap.pages), heap.pages, p)
  {
    hide Bin, BinWSize, QueuesOk, DirectOk, PrefixMoved, Moved, HomeOf, Collected;
    ghost var queues1, pages1, lists1 := heap.queues[..], heap.pages, heap.lists;
    heap.EnqueueFrom(BIN_FULL, q, p);
    MovedHead(queues1, pages1, lists0, lists1, heap.lists, q, k);
    CollectedOk(heap.pages[p], freed);
    UsableSame(pages1[p], heap.pages[p], freed);
    heap.SetCounts(p, Collected(heap.pages[p], freed));
  }

  lemma NoMoves(lists: Lists, q: nat)
    requires |lists| == BIN_FULL + 1 && q < BIN_FULL
    ensures PrefixMoved(lists, lists, q, 0)
  {
    assert lists[q][0..] == lists[q];
    assert lists[BIN_FULL] + lists[q][..0] == lists[BIN_FULL];
  }

  /** The first two attempts at a page: collect it, or extend it. */
  method MakeAvailable(heap: Heap, p: PageId, freed: nat) returns (ok: bool)
    requires heap.Valid() && p in heap.pages && AllCounted(heap.pages)
    modifies heap`pages
    ensures heap.Valid() && AllCounted(heap.pages) && heap.pages.Keys == old(heap.pages.Keys)
    ensures forall x | x in heap.pages && x != p :: heap.pages[x] == old(heap.pages)[x]
    ensures SameQueue(old(heap.pages)[p], heap.pages[p])
    ensures SameRetire(old(heap.pages), heap.pages)
    ensures ok <==> Usable(old(heap.pages)[p], freed)
    ensures CountsOk(old(heap.pages)[p]) && heap.pages[p] == Made(old(heap.pages)[p], freed)
    ensures ok ==> heap.pages[p].free > 0
  {
    hide Bin, BinWSize, QueuesOk, DirectOk, Collected, Extended;
    var page := heap.pages[p];
    CollectedOk(page, freed);
    UsableSame(page, page, freed);
    heap.SetCounts(p, Collected(page, freed));
    ok := heap.pages[p].free > 0;
    if !ok && heap.pages[p].capacity < heap.pages[p].reserved {
      ExtendedOk(heap.pages[p]);
      heap.SetCounts(p, Extended(heap.pages[p]));
      ok := true;
    }
  }

  /**
   The search of `mi_page_queue_find_free_ex` through a queue.
   `freed(i)` is what other threads have freed before the i-th collection.  It moves the pages before
   the first usable one to the full queue, and makes that one available at the head of its queue.
   */
  method FindFree(heap: Heap, q: nat, freed: nat -> nat) returns (found: Option<PageId>, k: nat)
    requires heap.Valid() && Reachable(q) && AllCounted(heap.pages)
    modifies heap, heap.queues, heap.direct
    ensures heap.Valid() && heap.pages.Keys == old(heap.pages.Keys) && heap.pageCount == old(heap.pageCount)
    ensures AllCounted(heap.pages) && PrefixMoved(old(heap.lists), heap.lists, q, k)
    ensures SameRetire(old(heap.pages), heap.pages)
    ensures forall i | 0 <= i < k ::
      old(heap.lists)[q][i] in old(heap.pages) && !Usable(old(heap.pages)[old(heap.lists)[q][i]], freed(2 * i))
    ensures match found
      case None => k == |old(heap.lists)[q]|
      case Some(p) =>
        && k < |old(heap.lists)[q]| && p == old(heap.lists)[q][k]
        && p in old(heap.pages) && Usable(old(heap.pages)[p], freed(2 * k))
        && heap.queues[q].first == Some(p) && heap.pages[p].free > 0
        && CountsOk(old(heap.pages)[p]) && Same(Made(old(heap.pages)[p], freed(2 * k)), heap.pages[p])
    ensures Searched(old(heap.pages), heap.pages, old(heap.lists)[q], freed, k, found)
  {
    hide Bin, BinWSize, QueuesOk, DirectOk, PrefixMoved, Moved, Reachable, Collected, Extended, CountsOk,
         HomeOf, Usable, AllCounted, Untouched, SameRetire, Searched, Made, OthersSame, SweptTwice;
    ghost var lists0, pages0 := heap.lists, heap.pages;
    QueueBound(q);
    Lengths(heap.queues[..], heap.pages, heap.lists);
    NoMoves(lists0, q);
    k := 0;
    found := heap.queues[q].first;
    StartUntouched(heap.queues[..], pages0, lists0, q);
    RetireKept(pages0, pages0, pages0);
    SearchedStart(pages0, lists0[q], freed);
    ListNoDup(heap.queues[..], pages0, lists0, q);
    HeadOf(heap.queues[..], heap.pages, heap.lists, lists0, q, k);
    while found.Some?
      invariant heap.Valid() && heap.pages.Keys == pages0.Keys && heap.pageCount == old(heap.pageCount)
      invariant k <= |lists0[q]| && PrefixMoved(lists0, heap.lists, q, k) && AllCounted(heap.pages)
      invariant found == At(lists0[q], k) && Untouched(pages0, heap.pages, lists0[q], k)
      invariant SameRetire(pages0, heap.pages) && Searched(pages0, heap.pages, lists0[q], freed, k, None)
      invariant forall i | 0 <= i < k :: lists0[q][i] in pages0 && !Usable(pages0[lists0[q][i]], freed(2 * i))
      decreases |lists0[q]| - k
    {
      var p := found.value;
      ghost var pages1 := heap.pages;
      HeadOf(heap.queues[..], heap.pages, heap.lists, lists0, q, k);
      UntouchedAt(pages0, pages1, lists0[q], k);
      var next := heap.pages[p].next;
      UsableSame(pages0[p], pages1[p], freed(2 * k));
      var ok := MakeAvailable(heap, p, freed(2 * k));
      OneTouched(pages0, pages1, heap.pages, lists0[q], k);
      RetireKept(pages0, pages1, heap.pages);
      ghost var pages2 := heap.pages;
      HeadOf(heap.queues[..], heap.pages, heap.lists, lists0, q, k);
      if ok {
        SearchedEnd(pages0, pages1, heap.pages, lists0[q], freed, k);
        CountedAt(pages0, p);
        MadeSame(pages0[p], pages1[p], freed(2 * k));
        return;
      }
      NotMade(pages1[p], freed(2 * k));
      ToFull(heap, q, p, freed(2 * k + 1), lists0, pages0, k);
      RetireKept(pages0, pages2, heap.pages);
      SweptNow(pages0[p], pages1[p], pages2[p], heap.pages[p], freed(2 * k), freed(2 * k + 1));
      OthersTwice(pages1, pages2, heap.pages, p);
      SearchedNext(pages0, pages1, heap.pages, lists0[q], freed, k);
      k := k + 1;
      found := next;
    }
  }
}
