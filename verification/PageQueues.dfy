/**
 The page queues of a heap: doubly linked lists of pages, one for each size class, one for huge pages
 and one for full pages; and the index that leads from small sizes directly to the first page of
 their queue.  NULL, and the empty page of the index, are `None`.
 */
module PageQueues {
  import opened Options
  import opened SizeClasses

  type PageId = nat

  /** MI_SMALL_WSIZE_MAX */
  const SMALL_WMAX: nat := 128

  /** MI_PAGES_DIRECT: one more for the padding of debug mode, and one for size 0. */
  const DIRECT: nat := 130

  /** A page; `free` and `local` count the blocks on its lists, `retire` the cycles until it is released. */
  datatype Page = Page(
    next: Option<PageId>, prev: Option<PageId>,
    wsize: nat, inFull: bool,
    free: nat, local: nat, used: nat, capacity: nat, reserved: nat, retire: nat)

  datatype Queue = Queue(first: Option<PageId>, last: Option<PageId>)

  type Pages = map<PageId, Page>
  type Lists = seq<seq<PageId>>

  /** `mi_page_queue_of` */
  function HomeOf(page: Page): nat {
    if page.inFull then BIN_FULL else Bin(page.wsize)
  }

  // ---------------------------------------------------------------------------------------------
  // Doubly linked lists
  // ---------------------------------------------------------------------------------------------

  ghost predicate NoDup(list: seq<PageId>) {
    forall i, j :: 0 <= i < j < |list| ==> list[i] != list[j]
  }

  function At(list: seq<PageId>, i: int): Option<PageId> {
    if 0 <= i < |list| then Some(list[i]) else None
  }

  /** The links of the pages, in both directions, and the ends of the queue spell out the list. */
  ghost predicate Spelled(queue: Queue, pages: Pages, list: seq<PageId>) {
    && NoDup(list)
    && queue == Queue(At(list, 0), At(list, |list| - 1))
    && forall i | 0 <= i < |list| ::
         list[i] in pages && pages[list[i]].next == At(list, i + 1) && pages[list[i]].prev == At(list, i - 1)
  }

  /** Every page is in the one queue that it says it is in, and has the block size of its class. */
  ghost predicate QueuesOk(queues: seq<Queue>, pages: Pages, lists: Lists) {
    && |queues| == |lists| == BIN_FULL + 1
    && (forall q | 0 <= q < |lists| :: Spelled(queues[q], pages, lists[q]))
    && (forall q, p | 0 <= q < |lists| :: p in lists[q] <==> p in pages && HomeOf(pages[p]) == q)
    && (forall p | p in pages :: SizeOk(pages[p].wsize))
  }

  predicate SizeOk(wsize: nat) {
    Reachable(Bin(wsize)) && wsize == BinWSize(Bin(wsize))
  }

  /** Every small size leads to the first page of its queue. */
  ghost predicate DirectOk(direct: seq<Option<PageId>>, queues: seq<Queue>) {
    && |direct| == DIRECT && |queues| == BIN_FULL + 1
    && (forall i | 0 <= i <= SMALL_WMAX :: Bin(i) <= BIN_FULL && direct[i] == queues[Bin(i)].first)
    && direct[DIRECT - 1] == None
  }

  /** Like `DirectOk`, but the sizes of queue `q` still lead to `was`. */
  ghost predicate DirectBut(direct: seq<Option<PageId>>, queues: seq<Queue>, q: nat, was: Option<PageId>) {
    && |direct| == DIRECT && |queues| == BIN_FULL + 1
    && (forall i | 0 <= i <= SMALL_WMAX ::
          Bin(i) <= BIN_FULL && direct[i] == if Bin(i) == q then was else queues[Bin(i)].first)
    && direct[DIRECT - 1] == None
  }

  // ---------------------------------------------------------------------------------------------
  // Which sizes belong to a queue
  // ---------------------------------------------------------------------------------------------

  /** The reachable queue before a reachable one. */
  function Before(q: nat): nat
    requires Reachable(q) && q > 1
  {
    if q == 4 || q == 6 || q == 8 then q - 2 else q - 1
  }

  /** The sizes of a queue are those above the size of the queue before it. */
  lemma ClassOf(q: nat, i: nat)
    requires Reachable(q) && i <= LARGE_WMAX
    ensures q > 1 ==> (Bin(i) == q <==> BinWSize(Before(q)) < i <= BinWSize(q))
    ensures q == 1 ==> (Bin(i) == q <==> i <= BinWSize(q))
  {
    hide Bin, BinWSize;
    BinFits(i);
    if i <= BinWSize(q) { SmallestFit(i, q); }
    if q > 1 {
      if i <= BinWSize(Before(q)) { SmallestFit(i, Before(q)); }
      if Bin(i) < Before(q) { TableGrows(Bin(i), Before(q)); }
    }
  }

  /** The queues that the loop skips have sizes of the same bin; the one it stops at has not. */
  lemma Skipped(q: nat, prev: nat)
    requires Reachable(q) && 1 < q && Before(q) <= prev < q
    ensures Bin(BinWSize(prev)) == q <==> prev != Before(q)
  {
    if prev == Before(q) {
      hide Bin, BinWSize;
      BinInverse(prev);
    }
  }

  lemma SmallQueue(q: nat)
    requires Reachable(q)
    ensures 1 <= BinWSize(q) && (q > 1 ==> 1 < BinWSize(q))
  {
  }

  lemma SmallBin(i: nat)
    requires i <= SMALL_WMAX
    ensures Reachable(Bin(i)) && i <= BinWSize(Bin(i)) <= SMALL_WMAX
  {
    hide Bin, BinWSize;
    BinFits(i);
    assert BinWSize(24) == 128 && Reachable(24) by { Entry24(); }
    SmallestFit(i, 24);
    if Bin(i) < 24 { TableGrows(Bin(i), 24); }
  }

  lemma Entry24()
    ensures BinWSize(24) == 128
  {
  }

  // ---------------------------------------------------------------------------------------------
  // Linking and unlinking
  // ---------------------------------------------------------------------------------------------

  function Without(list: seq<PageId>, k: nat): seq<PageId>
    requires k < |list|
  {
    list[..k] + list[k + 1..]
  }

  /** The neighbours of a page are linked to each other. */
  function Bypass(pages: Pages, p: PageId): Pages
    requires p in pages
  {
    var page := pages[p];
    var left := if page.prev.Some? && page.prev.value in pages
                then pages[page.prev.value := pages[page.prev.value].(next := page.next)] else pages;
    if page.next.Some? && page.next.value in pages
    then left[page.next.value := left[page.next.value].(prev := page.prev)] else left
  }

  function Unqueue(queue: Queue, page: Page, p: PageId): Queue {
    Queue(if queue.first == Some(p) then page.next else queue.first,
          if queue.last == Some(p) then page.prev else queue.last)
  }

  /** The links of two pages are the same. */
  predicate SameLinks(pages: Pages, pages': Pages, x: PageId) {
    x in pages && x in pages' && pages'[x].next == pages[x].next && pages'[x].prev == pages[x].prev
  }

  lemma SpelledFrame(queue: Queue, pages: Pages, pages': Pages, list: seq<PageId>)
    requires Spelled(queue, pages, list) && forall x | x in list && x in pages :: SameLinks(pages, pages', x)
    ensures Spelled(queue, pages', list)
  {
  }

  lemma BypassAt(pages: Pages, p: PageId, x: PageId)
    requires p in pages && x in pages
    ensures x in Bypass(pages, p)
    ensures Bypass(pages, p)[x] == pages[x].(
      next := if pages[p].prev == Some(x) then pages[p].next else pages[x].next,
      prev := if pages[p].next == Some(x) then pages[p].prev else pages[x].prev)
    ensures Bypass(pages, p).Keys == pages.Keys
  {
  }

  /** Only the next element of `k` has `k` before it. */
  lemma Neighbours(list: seq<PageId>, i: nat, k: nat)
    requires NoDup(list) && i < |list| && k < |list|
    ensures At(list, k - 1) == Some(list[i]) <==> i == k - 1
    ensures At(list, k + 1) == Some(list[i]) <==> i == k + 1
  {
  }

  /** The neighbours in the list are the only pages whose links change. */
  lemma BypassLinks(queue: Queue, pages: Pages, list: seq<PageId>, k: nat, i: nat)
    requires Spelled(queue, pages, list) && k < |list| && i < |list| && i != k
    ensures var pages' := Bypass(pages, list[k]);
      && list[i] in pages && list[i] in pages'
      && pages'[list[i]].next == (if i == k - 1 then At(list, k + 1) else At(list, i + 1))
      && pages'[list[i]].prev == (if i == k + 1 then At(list, k - 1) else At(list, i - 1))
  {
    hide Bypass;
    BypassAt(pages, list[k], list[i]);
    Neighbours(list, i, k);
  }

  lemma BypassElsewhere(queue: Queue, pages: Pages, list: seq<PageId>, k: nat, x: PageId)
    requires Spelled(queue, pages, list) && k < |list| && x in pages
    ensures x in Bypass(pages, list[k]) && Bypass(pages, list[k]).Keys == pages.Keys
    ensures x !in list || x == list[k] ==> Bypass(pages, list[k])[x] == pages[x]
    ensures Bypass(pages, list[k])[x] == pages[x].(next := Bypass(pages, list[k])[x].next, prev := Bypass(pages, list[k])[x].prev)
  {
    hide Bypass;
    BypassAt(pages, list[k], x);
    Neighbours(list, k, k);
    if k > 0 { assert list[k - 1] in list; }
    if k < |list| - 1 { assert list[k + 1] in list; }
  }

  lemma WithoutAt(list: seq<PageId>, k: nat, i: nat)
    requires k < |list| && i < |list| - 1
    ensures |Without(list, k)| == |list| - 1
    ensures Without(list, k)[i] == if i < k then list[i] else list[i + 1]
  {
  }

  lemma WithoutNeighbours(list: seq<PageId>, k: nat, i: nat)
    requires k < |list| && i < |list| - 1
    ensures var j := if i < k then i else i + 1;
      && At(Without(list, k), i + 1) == (if j == k - 1 then At(list, k + 1) else At(list, j + 1))
      && At(Without(list, k), i - 1) == (if j == k + 1 then At(list, k - 1) else At(list, j - 1))
  {
  }

  lemma WithoutNoDup(list: seq<PageId>, k: nat)
    requires NoDup(list) && k < |list|
    ensures NoDup(Without(list, k))
  {
    var rest := Without(list, k);
    forall i, j | 0 <= i < j < |rest| ensures rest[i] != rest[j] {
      WithoutAt(list, k, i);
      WithoutAt(list, k, j);
    }
  }

  lemma SpelledNoDup(queue: Queue, pages: Pages, list: seq<PageId>)
    requires Spelled(queue, pages, list)
    ensures NoDup(list)
  {
  }

  /** Unlinking a page leaves the rest of the list. */
  lemma UnlinkSpelled(queue: Queue, pages: Pages, list: seq<PageId>, k: nat, pages': Pages)
    requires Spelled(queue, pages, list) && k < |list|
    requires forall x | x in pages && x != list[k] :: SameLinks(Bypass(pages, list[k]), pages', x)
    ensures Spelled(Unqueue(queue, pages[list[k]], list[k]), pages', Without(list, k))
  {
    hide Bypass, Without, Spelled, At, Unqueue;
    SpelledNoDup(queue, pages, list);
    WithoutNoDup(list, k);
    UnlinkEnds(queue, pages, list, k);
    forall i | 0 <= i < |Without(list, k)| ensures LinkedAt(pages', Without(list, k), i) {
      WithoutSize(list, k);
      UnlinkedAt(queue, pages, list, k, pages', i);
    }
    MakeSpelled(Unqueue(queue, pages[list[k]], list[k]), pages', Without(list, k));
  }

  predicate LinkedAt(pages: Pages, list: seq<PageId>, i: nat)
    requires i < |list|
  {
    list[i] in pages && pages[list[i]].next == At(list, i + 1) && pages[list[i]].prev == At(list, i - 1)
  }

  lemma MakeSpelled(queue: Queue, pages: Pages, list: seq<PageId>)
    requires NoDup(list) && queue == Queue(At(list, 0), At(list, |list| - 1))
    requires forall i | 0 <= i < |list| :: LinkedAt(pages, list, i)
    ensures Spelled(queue, pages, list)
  {
    hide At;
    forall i | 0 <= i < |list|
      ensures list[i] in pages && pages[list[i]].next == At(list, i + 1) && pages[list[i]].prev == At(list, i - 1)
    {
      assert LinkedAt(pages, list, i);
    }
  }

  lemma WithoutSize(list: seq<PageId>, k: nat)
    requires k < |list|
    ensures |Without(list, k)| == |list| - 1
  {
  }

  /** The ends of the queue without the page. */
  lemma UnlinkEnds(queue: Queue, pages: Pages, list: seq<PageId>, k: nat)
    requires Spelled(queue, pages, list) && k < |list|
    ensures var rest := Without(list, k);
      list[k] in pages && Unqueue(queue, pages[list[k]], list[k]) == Queue(At(rest, 0), At(rest, |rest| - 1))
  {
    hide Without, At, Spelled;
    SpelledNoDup(queue, pages, list);
    SpelledParts(queue, pages, list, k);
    WithoutSize(list, k);
    FirstWithout(list, k);
    LastWithout(list, k);
  }

  lemma SpelledParts(queue: Queue, pages: Pages, list: seq<PageId>, k: nat)
    requires Spelled(queue, pages, list) && k < |list|
    ensures queue == Queue(At(list, 0), At(list, |list| - 1)) && list[k] in pages
    ensures pages[list[k]].next == At(list, k + 1) && pages[list[k]].prev == At(list, k - 1)
  {
  }

  lemma FirstWithout(list: seq<PageId>, k: nat)
    requires NoDup(list) && k < |list|
    ensures At(Without(list, k), 0) == if At(list, 0) == Some(list[k]) then At(list, k + 1) else At(list, 0)
  {
    hide Without;
    WithoutSize(list, k);
    if |list| > 1 { WithoutAt(list, k, 0); }
  }

  lemma LastWithout(list: seq<PageId>, k: nat)
    requires NoDup(list) && k < |list|
    ensures At(Without(list, k), |list| - 2) ==
      if At(list, |list| - 1) == Some(list[k]) then At(list, k - 1) else At(list, |list| - 1)
  {
    hide Without;
    WithoutSize(list, k);
    if |list| > 1 { WithoutAt(list, k, |list| - 2); }
  }

  lemma Different(queue: Queue, pages: Pages, list: seq<PageId>, j: nat, k: nat)
    requires Spelled(queue, pages, list) && j < |list| && k < |list| && j != k
    ensures list[k] in pages && list[j] != list[k]
  {
  }

  lemma UnlinkedAt(queue: Queue, pages: Pages, list: seq<PageId>, k: nat, pages': Pages, i: nat)
    requires Spelled(queue, pages, list) && k < |list| && i < |list| - 1
    requires forall x | x in pages && x != list[k] :: SameLinks(Bypass(pages, list[k]), pages', x)
    ensures var rest := Without(list, k);
      i < |rest| && LinkedAt(pages', rest, i)
  {
    hide Bypass, Without, At, Spelled;
    var j := if i < k then i else i + 1;
    WithoutAt(list, k, i);
    WithoutNeighbours(list, k, i);
    BypassLinks(queue, pages, list, k, j);
    Different(queue, pages, list, j, k);
    assert SameLinks(Bypass(pages, list[k]), pages', list[j]);
  }

  /** Linking a page after the last one. */
  lemma EnqueueSpelled(queue: Queue, pages: Pages, list: seq<PageId>, p: PageId, pages': Pages)
    requires Spelled(queue, pages, list) && p !in list && p in pages'
    requires pages'[p].next == None && pages'[p].prev == queue.last
    requires queue.last.Some? ==> queue.last.value in pages' && pages'[queue.last.value].next == Some(p) &&
                                  queue.last.value in pages && pages'[queue.last.value].prev == pages[queue.last.value].prev
    requires forall x | x in list && queue.last != Some(x) && x in pages :: SameLinks(pages, pages', x)
    ensures Spelled(Queue(if queue.last.Some? then queue.first else Some(p), Some(p)), pages', list + [p])
  {
    var all := list + [p];
    forall i | 0 <= i < |all|
      ensures all[i] in pages' && pages'[all[i]].next == At(all, i + 1) && pages'[all[i]].prev == At(all, i - 1)
    {
      if i < |list| { assert all[i] == list[i]; assert list[i] in list; }
    }
  }

  /** Linking a page before the first one. */
  lemma PushSpelled(queue: Queue, pages: Pages, list: seq<PageId>, p: PageId, pages': Pages)
    requires Spelled(queue, pages, list) && p !in list && p in pages'
    requires pages'[p].prev == None && pages'[p].next == queue.first
    requires queue.first.Some? ==> queue.first.value in pages' && pages'[queue.first.value].prev == Some(p) &&
                                   queue.first.value in pages && pages'[queue.first.value].next == pages[queue.first.value].next
    requires forall x | x in list && queue.first != Some(x) && x in pages :: SameLinks(pages, pages', x)
    ensures Spelled(Queue(Some(p), if queue.first.Some? then queue.last else Some(p)), pages', [p] + list)
  {
    var all := [p] + list;
    forall i | 0 <= i < |all|
      ensures all[i] in pages' && pages'[all[i]].next == At(all, i + 1) && pages'[all[i]].prev == At(all, i - 1)
    {
      if i > 0 { assert all[i] == list[i - 1]; assert list[i - 1] in list; }
    }
  }

  lemma WithoutElements(list: seq<PageId>, k: nat)
    requires NoDup(list) && k < |list|
    ensures forall x :: x in Without(list, k) <==> x in list && x != list[k]
  {
    var rest := Without(list, k);
    forall x | x in list && x != list[k] ensures x in rest {
      var i :| 0 <= i < |list| && list[i] == x;
      assert x == rest[if i < k then i else i - 1];
    }
  }

  // ---------------------------------------------------------------------------------------------
  // The queues after a page was removed, pushed or moved
  // ---------------------------------------------------------------------------------------------

  /** The queue of a page, and its position in it. */
  lemma Position(queues: seq<Queue>, pages: Pages, lists: Lists, p: PageId) returns (q: nat, k: nat)
    requires QueuesOk(queues, pages, lists) && p in pages && HomeOf(pages[p]) <= BIN_FULL
    ensures q == HomeOf(pages[p]) && q < |lists| && k < |lists[q]| && lists[q][k] == p && Spelled(queues[q], pages, lists[q])
  {
    hide Bin;
    q := HomeOf(pages[p]);
    assert p in lists[q];
    k :| 0 <= k < |lists[q]| && lists[q][k] == p;
  }

  lemma RemovedOk(queues: seq<Queue>, pages: Pages, lists: Lists, q: nat, k: nat, pages': Pages)
    requires QueuesOk(queues, pages, lists) && q < |lists| && k < |lists[q]|
    requires lists[q][k] in pages && pages' == Bypass(pages, lists[q][k]) - {lists[q][k]}
    ensures QueuesOk(queues[q := Unqueue(queues[q], pages[lists[q][k]], lists[q][k])], pages', lists[q := Without(lists[q], k)])
  {
    hide Bin, Reachable, BinWSize, Bypass, Without, Unqueue, Spelled;
    var p := lists[q][k];
    var queues', lists' := queues[q := Unqueue(queues[q], pages[p], p)], lists[q := Without(lists[q], k)];
    assert Spelled(queues[q], pages, lists[q]);
    forall x | x in pages
      ensures x != p ==> SameLinks(Bypass(pages, p), pages', x)
      ensures x != p ==> pages'[x].wsize == pages[x].wsize && HomeOf(pages'[x]) == HomeOf(pages[x])
      ensures x != p && x !in lists[q] ==> pages'[x] == pages[x]
    {
      BypassElsewhere(queues[q], pages, lists[q], k, x);
    }
    BypassElsewhere(queues[q], pages, lists[q], k, p);
    UnlinkSpelled(queues[q], pages, lists[q], k, pages');
    assert NoDup(lists[q]) by { SpelledNoDup(queues[q], pages, lists[q]); }
    WithoutElements(lists[q], k);
    assert p in lists[q];
    forall r | 0 <= r < |lists| && r != q ensures Spelled(queues'[r], pages', lists'[r]) {
      forall x | x in lists[r] && x in pages ensures SameLinks(pages, pages', x) { assert x !in lists[q]; }
      SpelledFrame(queues[r], pages, pages', lists[r]);
    }
    forall r, x | 0 <= r < |lists| ensures x in lists'[r] <==> x in pages' && HomeOf(pages'[x]) == r {
      assert x in lists[r] <==> x in pages && HomeOf(pages[x]) == r;
    }
    forall x | x in pages' ensures SizeOk(pages'[x].wsize) { assert SizeOk(pages[x].wsize); }
  }

  /** A page is added to one queue; the links of the other pages there may change, nothing else. */
  lemma AddedOk(queues: seq<Queue>, pages: Pages, lists: Lists, q: nat, p: PageId, queue: Queue, list: seq<PageId>, pages': Pages)
    requires QueuesOk(queues, pages, lists) && q < |lists| && p !in pages
    requires pages'.Keys == pages.Keys + {p} && HomeOf(pages'[p]) == q && SizeOk(pages'[p].wsize)
    requires forall x | x in pages :: pages'[x] == pages[x].(next := pages'[x].next, prev := pages'[x].prev)
    requires forall x | x in pages && x !in lists[q] :: pages'[x] == pages[x]
    requires Spelled(queue, pages', list) && forall x :: x in list <==> x == p || x in lists[q]
    ensures QueuesOk(queues[q := queue], pages', lists[q := list])
  {
    hide Bin, Reachable, BinWSize;
    var queues', lists' := queues[q := queue], lists[q := list];
    forall r | 0 <= r < |lists| && r != q ensures Spelled(queues'[r], pages', lists'[r]) {
      forall x | x in lists[r] && x in pages ensures SameLinks(pages, pages', x) { assert x !in lists[q]; }
      SpelledFrame(queues[r], pages, pages', lists[r]);
    }
    forall r, x | 0 <= r < |lists| ensures x in lists'[r] <==> x in pages' && HomeOf(pages'[x]) == r {
      assert x in lists[r] <==> x in pages && HomeOf(pages[x]) == r;
    }
    forall x | x in pages' ensures SizeOk(pages'[x].wsize) { if x != p { assert SizeOk(pages[x].wsize); } }
  }

  // ---------------------------------------------------------------------------------------------
  // The heap
  // ---------------------------------------------------------------------------------------------

  class Heap {
    const queues: array<Queue>
    const direct: array<Option<PageId>>
    var pages: Pages
    var pageCount: int
    ghost var lists: Lists

    ghost predicate Valid() reads this, queues, direct {
      && queues.Length == BIN_FULL + 1 && direct.Length == DIRECT
      && QueuesOk(queues[..], pages, lists)
      && DirectOk(direct[..], queues[..])
      && pageCount == |pages|
    }

    /** `mi_heap_queue_first_update` */
    method FirstUpdate(q: nat, ghost was: Option<PageId>)
      requires queues.Length == BIN_FULL + 1 && direct.Length == DIRECT
      requires q <= BIN_FULL && (Reachable(q) || q == BIN_HUGE || q == BIN_FULL)
      requires DirectBut(direct[..], queues[..], q, was)
      modifies direct
      ensures DirectOk(direct[..], queues[..])
    {
      hide Bin, BinWSize, Reachable;
      var idx := BinWSize(q);
      forall i: nat | i <= SMALL_WMAX ensures Bin(i) == q ==> idx <= SMALL_WMAX && i <= idx { SmallBin(i); }
      if idx > SMALL_WMAX { return; }
      NotSpecial(q);
      var page := queues[q].first;
      forall i: nat | i <= SMALL_WMAX ensures q == 1 ==> (Bin(i) == q <==> i <= idx) { ClassOf(q, i); }
      BinInverse(q);
      if direct[idx] == page { return; }
      var start := 0;
      if idx > 1 {
        SmallQueue(q);
        FirstQueue(q);
        start := FindStart(q, idx);
        forall i: nat | i <= SMALL_WMAX ensures Bin(i) == q <==> start <= i <= idx { ClassOf(q, i); }
      } else {
        SmallQueue(q);
      }
      ghost var before := direct[..];
      var size := start;
      while size <= idx
        modifies direct
        invariant start <= size <= idx + 1
        invariant forall i | 0 <= i < DIRECT :: direct[i] == if start <= i < size then page else before[i]
      {
        direct[size] := page;
        size := size + 1;
      }
    }

    /** The unlinking that `mi_page_queue_remove` and `mi_page_queue_enqueue_from` begin with. */
    method Unlink(q: nat, p: PageId)
      requires queues.Length == BIN_FULL + 1 && direct.Length == DIRECT && DirectOk(direct[..], queues[..])
      requires q <= BIN_FULL && (Reachable(q) || q == BIN_FULL)
      requires p in pages && (pages[p].prev.Some? ==> pages[p].prev.value in pages && pages[p].prev.value != p)
      requires pages[p].next.Some? ==> pages[p].next.value in pages && pages[p].next.value != p
      modifies this`pages, queues, direct
      ensures pages == Bypass(old(pages), p) && DirectOk(direct[..], queues[..])
      ensures queues[..] == old(queues[..])[q := Unqueue(old(queues[q]), old(pages[p]), p)]
    {
      hide Reachable, Bypass, DirectOk, DirectBut;
      var page := pages[p];
      ghost var queues0, pages0, was := queues[..], pages, queues[q].first;
      if page.prev.Some? { pages := pages[page.prev.value := pages[page.prev.value].(next := page.next)]; }
      if page.next.Some? { pages := pages[page.next.value := pages[page.next.value].(prev := page.prev)]; }
      BypassIs(pages0, p, pages);
      if Some(p) == queues[q].last { queues[q] := queues[q].(last := page.prev); }
      FirstKept(queues0, queues[..], q, direct[..]);
      if Some(p) == queues[q].first {
        queues[q] := queues[q].(first := page.next);
        OneChanged(queues0, queues[..], q, direct[..]);
        FirstUpdate(q, was);
      }
    }

    /** `mi_page_queue_remove`; returns the page, which is in no queue any more. */
    method Remove(q: nat, p: PageId) returns (page: Page)
      requires Valid() && p in pages && q == HomeOf(pages[p])
      modifies this, queues, direct
      ensures Valid() && pages.Keys == old(pages.Keys) - {p} && pageCount == old(pageCount) - 1
      ensures Taken(old(lists), lists, q, p)
      ensures page == old(pages[p]).(next := None, prev := None, inFull := false)
      ensures forall x | x in pages :: OnlyLinks(old(pages[x]), pages[x])
    {
      hide Bin, BinWSize, Reachable, Bypass, Spelled, QueuesOk, DirectOk, HomeOf, Taken, SizeOk;
      page := pages[p];
      ghost var pages0 := pages;
      ghost var mid := Ready(queues[..], pages, lists, p);
      Unlink(q, p);
      RemovedCount(pages0, pages, p);
      pageCount := pageCount - 1;
      pages := pages - {p};
      forall x | x in pages ensures OnlyLinks(pages0[x], pages[x]) { assert Same(pages0[x], pages[x]); }
      page := page.(next := None, prev := None, inFull := false);
      lists := mid;
    }

    /** `mi_page_queue_push`: a page that is in no queue becomes the first of queue `q`. */
    method Push(q: nat, p: PageId, page: Page)
      requires Valid() && p !in pages && q <= BIN_FULL && SizeOk(page.wsize)
      requires q == BIN_FULL || q == Bin(page.wsize)
      modifies this, queues, direct
      ensures Valid() && pages.Keys == old(pages.Keys) + {p} && pageCount == old(pageCount) + 1
      ensures lists == old(lists)[q := [p] + old(lists[q])]
      ensures pages[p] == page.(inFull := q == BIN_FULL, next := pages[p].next, prev := pages[p].prev)
      ensures forall x | x in old(pages) :: OnlyLinks(old(pages)[x], pages[x])
    {
      hide Bin, BinWSize, Reachable, Spelled, QueuesOk, DirectOk, DirectBut, SizeOk, HomeOf;
      ghost var pages0 := pages;
      LinkFirst(q, p, page, lists);
      AddedCount(pages0, pages, p);
      pageCount := pageCount + 1;
      lists := lists[q := [p] + lists[q]];
    }

    /** The linking in `mi_page_queue_push`. */
    method LinkFirst(q: nat, p: PageId, page: Page, ghost all: Lists)
      requires queues.Length == BIN_FULL + 1 && direct.Length == DIRECT && DirectOk(direct[..], queues[..])
      requires QueuesOk(queues[..], pages, all) && p !in pages
      requires q <= BIN_FULL && SizeOk(page.wsize) && (q == BIN_FULL || q == Bin(page.wsize))
      modifies this`pages, queues, direct
      ensures DirectOk(direct[..], queues[..]) && q < |all| && QueuesOk(queues[..], pages, all[q := [p] + all[q]])
      ensures pages.Keys == old(pages.Keys) + {p}
      ensures pages[p] == page.(inFull := q == BIN_FULL, next := pages[p].next, prev := pages[p].prev)
      ensures forall x | x in old(pages) :: OnlyLinks(old(pages)[x], pages[x])
    {
      hide Bin, BinWSize, Reachable, Spelled, QueuesOk, DirectOk, DirectBut, SizeOk, HomeOf;
      ghost var queues0, pages0, was := queues[..], pages, queues[q].first;
      SpelledIn(queues0, pages0, all, q);
      ToReachable(page, q);
      pages := pages[p := page.(inFull := q == BIN_FULL, next := queues[q].first, prev := None)];
      if queues[q].first.Some? {
        var first := queues[q].first.value;
        pages := pages[first := pages[first].(prev := Some(p))];
        queues[q] := queues[q].(first := Some(p));
      } else {
        queues[q] := Queue(Some(p), Some(p));
      }
      PushSpelled(queues0[q], pages0, all[q], p, pages);
      ghost var list := [p] + all[q];
      EnqueuedHome(pages[p], q);
      AddedOk(queues0, pages0, all, q, p, queues[q], list, pages);
      assert queues[..] == queues0[q := queues[q]];
      OneChanged(queues0, queues[..], q, direct[..]);
      FirstUpdate(q, was);
    }

    /** The second half of `mi_page_queue_enqueue_from`: an unlinked page becomes the last of a queue. */
    method LinkLast(to: nat, p: PageId, ghost rest: Pages, ghost mid: Lists)
      requires queues.Length == BIN_FULL + 1 && direct.Length == DIRECT && DirectOk(direct[..], queues[..])
      requires QueuesOk(queues[..], rest, mid) && p in pages && rest == pages - {p}
      requires to <= BIN_FULL && SizeOk(pages[p].wsize) && (to == BIN_FULL || to == Bin(pages[p].wsize))
      modifies this`pages, queues, direct
      ensures DirectOk(direct[..], queues[..]) && QueuesOk(queues[..], pages, mid[to := mid[to] + [p]])
      ensures pages.Keys == old(pages.Keys)
      ensures forall x | x in pages ::
        Same(old(pages[x]), pages[x]) && pages[x].inFull == if x == p then to == BIN_FULL else old(pages[x].inFull)
    {
      hide Bin, BinWSize, Spelled, QueuesOk, DirectOk, DirectBut, HomeOf, SizeOk;
      ghost var queues1, was := queues[..], queues[to].first;
      SpelledIn(queues1, rest, mid, to);
      ToReachable(pages[p], to);
      var page := pages[p].(prev := queues[to].last, next := None, inFull := to == BIN_FULL);
      pages := pages[p := page];
      if queues[to].last.Some? {
        var last := queues[to].last.value;
        pages := pages[last := pages[last].(next := Some(p))];
        queues[to] := queues[to].(last := Some(p));
        FirstKept(queues1, queues[..], to, direct[..]);
      } else {
        queues[to] := Queue(Some(p), Some(p));
        OneChanged(queues1, queues[..], to, direct[..]);
        FirstUpdate(to, was);
      }
      EnqueueSpelled(queues1[to], rest, mid[to], p, pages);
      EnqueuedHome(page, to);
      AddedOk(queues1, rest, mid, to, p, queues[to], mid[to] + [p], pages);
      assert queues[..] == queues1[to := queues[to]];
    }

    /** `mi_page_queue_enqueue_from`: a page moves from one queue to the end of another. */
    method EnqueueFrom(to: nat, from: nat, p: PageId)
      requires Valid() && p in pages && from == HomeOf(pages[p]) && to != from && to <= BIN_FULL
      requires to == BIN_FULL || to == Bin(pages[p].wsize)
      modifies this, queues, direct
      ensures Valid() && pages.Keys == old(pages.Keys) && pageCount == old(pageCount)
      ensures Moved(old(lists), lists, from, to, p)
      ensures forall x | x in pages ::
        Same(old(pages[x]), pages[x]) && pages[x].inFull == if x == p then to == BIN_FULL else old(pages[x].inFull)
    {
      hide Bin, BinWSize, Reachable, Bypass, Without, Spelled, QueuesOk, DirectOk, DirectBut, HomeOf, SizeOk;
      ghost var pages0 := pages;
      ghost var mid := Ready(queues[..], pages, lists, p);
      Unlink(from, p);
      SameCount(pages0, pages);
      LinkLast(to, p, Bypass(pages0, p) - {p}, mid);
      SameCount(pages0, pages);
      lists := mid[to := mid[to] + [p]];
    }

    /**
     `_mi_page_queue_append`: the pages of queue `q` of another heap come after those of this one.
     (Each page is also taken out of the delayed-freeing state; see the cross-thread free protocol.)
     */
    method Append(q: nat, from: Heap) returns (count: nat)
      requires from != this && from.queues != queues && from.direct != direct && q <= BIN_FULL
      requires queues.Length == BIN_FULL + 1 && direct.Length == DIRECT && from.queues.Length == BIN_FULL + 1
      requires QueuesOk(queues[..], pages, lists) && DirectOk(direct[..], queues[..])
      requires QueuesOk(from.queues[..], from.pages, from.lists)
      requires forall x | x in from.lists[q] :: x !in pages
      modifies this`pages, this`lists, queues, direct
      ensures QueuesOk(queues[..], pages, lists) && DirectOk(direct[..], queues[..])
      ensures lists == old(lists)[q := old(lists[q]) + from.lists[q]] && count == |from.lists[q]|
      ensures forall x :: x in pages <==> x in old(pages) || x in from.lists[q]
      ensures forall x | x in old(pages) :: OnlyLinks(old(pages)[x], pages[x])
      ensures forall x | x in from.lists[q] :: x in from.pages && OnlyLinks(from.pages[x], pages[x])
    {
      hide Bin, BinWSize, Reachable, Spelled, QueuesOk, DirectOk, DirectBut, SizeOk, HomeOf, Adopt, Bridge;
      Lengths(queues[..], pages, lists);
      Lengths(from.queues[..], from.pages, from.lists);
      ghost var queues0, pages0, list := queues[..], pages, from.lists[q];
      SpelledIn(queues0, pages0, lists, q);
      SpelledIn(from.queues[..], from.pages, from.lists, q);
      EndsOf(queues0[q], pages0, lists[q]);
      EndsOf(from.queues[q], from.pages, list);
      if from.queues[q].first == None {
        AppendNothing(lists, q, list);
        return 0;
      }
      count := AdoptAll(q, from);
      ghost var adopted := pages;
      AppendReady(queues0, pages0, lists, from.queues[..], from.pages, from.lists, q);
      if queues[q].last == None {
        queues[q] := from.queues[q];
        assert lists[q] + list == list;
        OneChanged(queues0, queues[..], q, direct[..]);
        FirstUpdate(q, queues0[q].first);
      } else {
        var last, first := queues[q].last.value, from.queues[q].first.value;
        pages := pages[last := pages[last].(next := Some(first))];
        pages := pages[first := pages[first].(prev := Some(last))];
        BridgeIs(adopted, last, first, pages);
        BridgeSpelled(queues0[q], lists[q], from.queues[q], list, adopted);
        queues[q] := queues[q].(last := from.queues[q].last);
        FirstKept(queues0, queues[..], q, direct[..]);
      }
      AppendLinks(queues0, pages0, lists, from.queues[..], from.pages, from.lists, q, pages);
      AppendedOk(queues0, pages0, lists, q, list, queues[q], pages);
      assert queues[..] == queues0[q := queues[q]];
      lists := lists[q := lists[q] + list];
    }

    /** The walk that sets the heap of each page of a queue, and counts them. */
    method AdoptAll(q: nat, from: Heap) returns (count: nat)
      requires from != this && q <= BIN_FULL && from.queues.Length == BIN_FULL + 1
      requires QueuesOk(from.queues[..], from.pages, from.lists)
      modifies this`pages
      ensures pages == Adopt(old(pages), from.pages, from.lists[q]) && count == |from.lists[q]|
    {
      hide Bin, Spelled, QueuesOk, Adopt;
      Lengths(from.queues[..], from.pages, from.lists);
      SpelledIn(from.queues[..], from.pages, from.lists, q);
      ghost var list := from.lists[q];
      count := 0;
      var p := from.queues[q].first;
      SpelledAt(from.queues[q], from.pages, list, 0);
      AdoptNone(pages, from.pages, list);
      while p.Some?
        invariant count <= |list| && p == At(list, count)
        invariant pages == Adopt(old(pages), from.pages, list[..count])
        decreases |list| - count
      {
        SpelledAt(from.queues[q], from.pages, list, count);
        AdoptOne(old(pages), from.pages, list, count);
        pages := pages[p.value := from.pages[p.value]];
        p := from.pages[p.value].next;
        count := count + 1;
      }
      assert list[..count] == list;
    }

    /** `mi_heap_absorb`: all queues of another heap are appended, and that heap is reset. */
    method Absorb(from: Heap)
      requires from != this && from.queues != queues && from.direct != direct && Valid() && from.Valid()
      requires forall x | x in pages :: x !in from.pages
      modifies this, queues, direct, from, from.queues, from.direct
      ensures Valid() && from.Valid() && from.pages == map[] && from.pageCount == 0
      ensures pageCount == old(pageCount) + old(from.pageCount) && pages.Keys == old(pages.Keys) + old(from.pages.Keys)
      ensures forall q | 0 <= q <= BIN_FULL :: lists[q] == old(lists[q]) + old(from.lists[q])
      ensures Carried(old(pages), old(from.pages), pages)
    {
      hide QueuesOk, DirectOk, Absorbed;
      ghost var lists0, pages0, listsF, pagesF := lists, pages, from.lists, from.pages;
      Lengths(queues[..], pages, lists);
      Lengths(from.queues[..], pagesF, listsF);
      if from.pageCount == 0 {
        NoPages(from.queues[..], pagesF, listsF);
        forall q | 0 <= q <= BIN_FULL ensures lists[q] == lists[q] + listsF[q] { assert listsF[q] == []; }
        return;
      }
      AbsorbedStart(lists0, pages0, listsF, pagesF, pageCount, from.pageCount);
      AppendAll(from);
      AllMoved(from.queues[..], pagesF, lists0, listsF, pages0, lists, pages, pageCount, from.pageCount);
      from.Reset();
    }

    /** The loop of `mi_heap_absorb` over the queues. */
    method AppendAll(from: Heap)
      requires from != this && from.queues != queues && from.direct != direct && from.queues.Length == BIN_FULL + 1
      requires queues.Length == BIN_FULL + 1 && direct.Length == DIRECT
      requires QueuesOk(queues[..], pages, lists) && DirectOk(direct[..], queues[..])
      requires QueuesOk(from.queues[..], from.pages, from.lists) && forall x | x in pages :: x !in from.pages
      requires Absorbed(lists, pages, from.lists, from.pages, 0, lists, pages, pageCount, from.pageCount)
      modifies this, queues, direct, from`pageCount
      ensures QueuesOk(queues[..], pages, lists) && DirectOk(direct[..], queues[..])
      ensures Absorbed(old(lists), old(pages), from.lists, from.pages, BIN_FULL + 1, lists, pages, pageCount, from.pageCount)
      ensures Carried(old(pages), from.pages, pages)
    {
      hide QueuesOk, DirectOk, Absorbed, Carried;
      ghost var lists0, pages0, listsF, pagesF := lists, pages, from.lists, from.pages;
      Lengths(queues[..], pages, lists);
      Lengths(from.queues[..], pagesF, listsF);
      CarriedStart(pages0, pagesF);
      var q := 0;
      while q <= BIN_FULL
        modifies this`pages, this`lists, this`pageCount, queues, direct, from`pageCount
        invariant 0 <= q <= BIN_FULL + 1
        invariant QueuesOk(queues[..], pages, lists) && DirectOk(direct[..], queues[..])
        invariant Absorbed(lists0, pages0, listsF, pagesF, q, lists, pages, pageCount, from.pageCount)
        invariant Carried(pages0, pagesF, pages)
      {
        NotYetHere(from.queues[..], pagesF, lists0, listsF, pages0, lists, pages, pageCount, from.pageCount, q);
        ghost var listsQ, pagesQ := lists, pages;
        Lengths(queues[..], pages, lists);
        var count := Append(q, from);
        CarriedNext(pages0, pagesF, pagesQ, listsF[q], pages);
        AbsorbedNext(lists0, pages0, listsF, pagesF, q, listsQ, pagesQ, pageCount, from.pageCount, lists, pages);
        pageCount := pageCount + count;
        from.pageCount := from.pageCount - count;
        q := q + 1;
      }
    }

    /** `_mi_heap_get_free_small_page`: the page, or the empty page, for a small size in bytes. */
    method GetFreeSmall(size: nat) returns (p: Option<PageId>)
      requires Valid() && size <= (SMALL_WMAX + 1) * WORD
      ensures p.Some? ==> p.value in pages && !pages[p.value].inFull && size <= pages[p.value].wsize * WORD
      ensures size <= SMALL_WMAX * WORD ==> Bin(WSize(size)) <= BIN_FULL && p == queues[Bin(WSize(size))].first
    {
      hide Bin, BinWSize, Spelled, QueuesOk;
      p := direct[WSize(size)];
      if WSize(size) <= SMALL_WMAX {
        FastPathFits(queues[..], pages, lists, WSize(size));
      }
    }

    /** Changing the counts of a page leaves the queues alone. */
    method SetCounts(p: PageId, page: Page)
      requires Valid() && p in pages && SameQueue(pages[p], page)
      modifies this`pages
      ensures Valid() && pages == old(pages)[p := page]
    {
      hide Bin, BinWSize, Spelled;
      CountsKept(queues[..], pages, lists, p, page);
      SameCount(pages, pages[p := page]);
      pages := pages[p := page];
    }

    /** `mi_heap_reset_pages` */
    method Reset()
      requires queues.Length == BIN_FULL + 1 && direct.Length == DIRECT
      modifies this, queues, direct
      ensures Valid() && pages == map[] && pageCount == 0
    {
      var i := 0;
      while i < DIRECT
        modifies direct
        invariant 0 <= i <= DIRECT && forall j | 0 <= j < i :: direct[j] == None
      {
        direct[i] := None;
        i := i + 1;
      }
      i := 0;
      while i <= BIN_FULL
        modifies queues
        invariant 0 <= i <= BIN_FULL + 1 && forall j | 0 <= j < i :: queues[j] == Queue(None, None)
      {
        queues[i] := Queue(None, None);
        i := i + 1;
      }
      pages, pageCount := map[], 0;
      lists := seq(BIN_FULL + 1, _ => []);
      forall i: nat | i <= SMALL_WMAX ensures Bin(i) <= BIN_FULL { SmallBin(i); }
    }
  }

  /** What a page that is about to be unlinked relies on, and the lists without it. */
  lemma Ready(queues: seq<Queue>, pages: Pages, lists: Lists, p: PageId) returns (mid: Lists)
    requires QueuesOk(queues, pages, lists) && p in pages
    ensures var q := HomeOf(pages[p]);
      && q <= BIN_FULL && (Reachable(q) || q == BIN_FULL) && q < |queues|
      && Taken(lists, mid, q, p) && |mid| == BIN_FULL + 1
      && QueuesOk(queues[q := Unqueue(queues[q], pages[p], p)], Bypass(pages, p) - {p}, mid)
    ensures pages[p].prev.Some? ==> pages[p].prev.value in pages && pages[p].prev.value != p
    ensures pages[p].next.Some? ==> pages[p].next.value in pages && pages[p].next.value != p
    ensures Bypass(pages, p).Keys == pages.Keys && Bypass(pages, p)[p] == pages[p] && SizeOk(pages[p].wsize)
    ensures forall x | x in pages :: Same(pages[x], Bypass(pages, p)[x]) && Bypass(pages, p)[x].inFull == pages[x].inFull
  {
    hide Bin, BinWSize, Reachable, Bypass, Without, HomeOf, Unqueue, SizeOk;
    HomeReachable(queues, pages, lists, p);
    var q, k := Position(queues, pages, lists, p);
    mid := lists[q := Without(lists[q], k)];
    RemovedOk(queues, pages, lists, q, k, Bypass(pages, p) - {p});
    Linked(queues[q], pages, lists[q], k);
    TakenAt(lists, mid, q, p, k);
    BypassSame(queues, pages, lists, p, q, k);
  }

  lemma AddedCount(pages: Pages, pages': Pages, p: PageId)
    requires p !in pages && pages'.Keys == pages.Keys + {p}
    ensures |pages'| == |pages| + 1
  {
    assert |pages'.Keys| == |pages.Keys + {p}|;
  }

  // ---------------------------------------------------------------------------------------------
  // Absorbing another heap
  // ---------------------------------------------------------------------------------------------

  /** The pages of a heap together with some pages of another one. */
  function Adopt(pages: Pages, other: Pages, list: seq<PageId>): Pages {
    pages + map x | x in list && x in other :: other[x]
  }

  /** The last page of one list and the first of another are linked to each other. */
  function Bridge(pages: Pages, last: Option<PageId>, first: Option<PageId>): Pages
    requires last.Some? && first.Some? && last.value in pages && first.value in pages
  {
    var left := pages[last.value := pages[last.value].(next := first)];
    left[first.value := left[first.value].(prev := last)]
  }

  lemma BridgeSpelled(queue: Queue, list: seq<PageId>, queueB: Queue, listB: seq<PageId>, pages: Pages)
    requires Spelled(queue, pages, list) && Spelled(queueB, pages, listB) && list != [] && listB != []
    requires forall x | x in list :: x !in listB
    ensures queue.last.Some? && queue.last.value in pages && queueB.first.Some? && queueB.first.value in pages
    ensures Spelled(Queue(queue.first, queueB.last), Bridge(pages, queue.last, queueB.first), list + listB)
  {
    hide Bridge, Spelled, At;
    SpelledNoDup(queue, pages, list);
    SpelledNoDup(queueB, pages, listB);
    ConcatNoDup(list, listB);
    BridgeEnds(queue, list, queueB, listB, pages);
    forall i | 0 <= i < |list + listB| ensures LinkedAt(Bridge(pages, queue.last, queueB.first), list + listB, i) {
      BridgeAt(queue, list, queueB, listB, pages, i);
    }
    MakeSpelled(Queue(queue.first, queueB.last), Bridge(pages, queue.last, queueB.first), list + listB);
  }

  lemma BridgeEnds(queue: Queue, list: seq<PageId>, queueB: Queue, listB: seq<PageId>, pages: Pages)
    requires Spelled(queue, pages, list) && Spelled(queueB, pages, listB) && list != [] && listB != []
    ensures queue.last.Some? && queue.last.value in pages && queueB.first.Some? && queueB.first.value in pages
    ensures var all := list + listB; Queue(queue.first, queueB.last) == Queue(At(all, 0), At(all, |all| - 1))
  {
  }

  lemma BridgeAt(queue: Queue, list: seq<PageId>, queueB: Queue, listB: seq<PageId>, pages: Pages, i: nat)
    requires Spelled(queue, pages, list) && Spelled(queueB, pages, listB) && list != [] && listB != []
    requires (forall x | x in list :: x !in listB) && i < |list| + |listB|
    requires queue.last.Some? && queue.last.value in pages && queueB.first.Some? && queueB.first.value in pages
    ensures LinkedAt(Bridge(pages, queue.last, queueB.first), list + listB, i)
  {
    var n := |list|;
    assert list[n - 1] in list && listB[0] in listB;
    if i < n {
      assert list[i] in list;
      assert (list + listB)[i] == list[i];
    } else {
      assert listB[i - n] in listB;
      assert (list + listB)[i] == listB[i - n];
    }
  }

  lemma ConcatNoDup(xs: seq<PageId>, ys: seq<PageId>)
    requires NoDup(xs) && NoDup(ys) && forall x | x in xs :: x !in ys
    ensures NoDup(xs + ys)
  {
    var all := xs + ys;
    forall i, j | 0 <= i < j < |all| ensures all[i] != all[j] {
      if i < |xs| <= j { assert xs[i] in xs; assert ys[j - |xs|] in ys; }
    }
  }

  /** Some pages of another heap, all of one queue there, join the same queue here. */
  lemma AppendedOk(queues: seq<Queue>, pages: Pages, lists: Lists, q: nat, added: seq<PageId>, queue: Queue, pages': Pages)
    requires QueuesOk(queues, pages, lists) && q < |lists| && forall x | x in added :: x !in pages
    requires forall x :: x in pages' <==> x in pages || x in added
    requires forall x | x in added :: HomeOf(pages'[x]) == q && SizeOk(pages'[x].wsize)
    requires forall x | x in pages :: pages'[x] == pages[x].(next := pages'[x].next, prev := pages'[x].prev)
    requires forall x | x in pages && x !in lists[q] :: pages'[x] == pages[x]
    requires Spelled(queue, pages', lists[q] + added)
    ensures QueuesOk(queues[q := queue], pages', lists[q := lists[q] + added])
  {
    hide Bin, Reachable, BinWSize;
    var queues', lists' := queues[q := queue], lists[q := lists[q] + added];
    forall r | 0 <= r < |lists| && r != q ensures Spelled(queues'[r], pages', lists'[r]) {
      forall x | x in lists[r] && x in pages ensures SameLinks(pages, pages', x) { assert x !in lists[q]; }
      SpelledFrame(queues[r], pages, pages', lists[r]);
    }
    forall r, x | 0 <= r < |lists| ensures x in lists'[r] <==> x in pages' && HomeOf(pages'[x]) == r {
      assert x in lists[r] <==> x in pages && HomeOf(pages[x]) == r;
    }
    forall x | x in pages' ensures SizeOk(pages'[x].wsize) { if x in pages { assert SizeOk(pages[x].wsize); } }
  }

  lemma SameCount(pages: Pages, pages': Pages)
    requires pages'.Keys == pages.Keys
    ensures |pages'| == |pages|
  {
    assert |pages'.Keys| == |pages.Keys|;
  }

  lemma ToReachable(page: Page, to: nat)
    requires SizeOk(page.wsize) && (to == BIN_FULL || to == Bin(page.wsize))
    ensures Reachable(to) || to == BIN_FULL
  {
    hide Bin, BinWSize;
  }

  /** The page `p` was taken out of queue `from` and put at the end of queue `to`. */
  ghost predicate Moved(lists: Lists, lists': Lists, from: nat, to: nat, p: PageId) {
    exists mid :: Taken(lists, mid, from, p) && to < |mid| && lists' == mid[to := mid[to] + [p]]
  }

  /** All but the links and the full flag. */
  predicate Same(a: Page, b: Page) {
    b == a.(next := b.next, prev := b.prev, inFull := b.inFull)
  }

  /** All but the links. */
  predicate OnlyLinks(a: Page, b: Page) {
    b == a.(next := b.next, prev := b.prev)
  }

  /** The pages of two heaps are those of one heap, with other links. */
  predicate Carried(pages0: Pages, pagesF: Pages, pages: Pages) {
    forall x | x in pages ::
      && (x in pages0 ==> OnlyLinks(pages0[x], pages[x]))
      && (x in pagesF && x !in pages0 ==> OnlyLinks(pagesF[x], pages[x]))
  }

  lemma CarriedStart(pages0: Pages, pagesF: Pages)
    ensures Carried(pages0, pagesF, pages0)
  {
  }

  lemma CarriedNext(pages0: Pages, pagesF: Pages, pages: Pages, list: seq<PageId>, pages': Pages)
    requires Carried(pages0, pagesF, pages) && forall x :: x in pages' <==> x in pages || x in list
    requires forall x | x in pages :: OnlyLinks(pages[x], pages'[x])
    requires forall x | x in list :: x in pagesF && x !in pages0 && OnlyLinks(pagesF[x], pages'[x])
    ensures Carried(pages0, pagesF, pages')
  {
  }

  lemma EnqueuedHome(page: Page, to: nat)
    requires page.inFull == (to == BIN_FULL) && SizeOk(page.wsize) && (to == BIN_FULL || to == Bin(page.wsize))
    ensures HomeOf(page) == to
  {
  }

  /** The ends of a queue are pages, and not a page that is in none. */
  lemma SpelledIn(queues: seq<Queue>, pages: Pages, lists: Lists, q: nat)
    requires QueuesOk(queues, pages, lists) && q < |queues|
    ensures q < |lists| && Spelled(queues[q], pages, lists[q])
    ensures queues[q].first.Some? <==> queues[q].last.Some?
    ensures queues[q].first.Some? ==> queues[q].first.value in pages && queues[q].first.value in lists[q]
    ensures queues[q].last.Some? ==> queues[q].last.value in pages && queues[q].last.value in lists[q]
    ensures forall x | x in lists[q] :: x in pages
  {
  }

  lemma BypassSame(queues: seq<Queue>, pages: Pages, lists: Lists, p: PageId, q: nat, k: nat)
    requires QueuesOk(queues, pages, lists) && q < |lists| && k < |lists[q]| && lists[q][k] == p && p in pages
    ensures Bypass(pages, p).Keys == pages.Keys && Bypass(pages, p)[p] == pages[p]
    ensures forall x | x in pages ::
      Same(pages[x], Bypass(pages, p)[x]) && Bypass(pages, p)[x].inFull == pages[x].inFull
    ensures SizeOk(pages[p].wsize)
  {
    hide Bypass;
    BypassKeys(pages, p);
    forall x | x in pages ensures Same(pages[x], Bypass(pages, p)[x]) && Bypass(pages, p)[x].inFull == pages[x].inFull {
      BypassAt(pages, p, x);
    }
    BypassElsewhere(queues[q], pages, lists[q], k, p);
  }

  /** The page `p` was taken out of queue `q`; all else stays, in order. */
  ghost predicate Taken(lists: Lists, lists': Lists, q: nat, p: PageId) {
    q < |lists| && exists k :: 0 <= k < |lists[q]| && lists[q][k] == p && lists' == lists[q := Without(lists[q], k)]
  }

  lemma TakenAt(lists: Lists, lists': Lists, q: nat, p: PageId, k: nat)
    requires q < |lists| && k < |lists[q]| && lists[q][k] == p && lists' == lists[q := Without(lists[q], k)]
    ensures Taken(lists, lists', q, p)
  {
  }

  lemma BypassKeys(pages: Pages, p: PageId)
    requires p in pages
    ensures Bypass(pages, p).Keys == pages.Keys
  {
  }

  lemma NotSpecial(q: nat)
    requires q <= BIN_FULL && (Reachable(q) || q == BIN_HUGE || q == BIN_FULL)
    requires BinWSize(q) <= SMALL_WMAX
    ensures Reachable(q)
  {
  }

  lemma FirstQueue(q: nat)
    requires Reachable(q)
    ensures q == 1 ==> BinWSize(q) == 1
    ensures q >= 1
  {
  }

  /** The first size of a queue: one more than the size of the last queue with another bin. */
  method FindStart(q: nat, idx: nat) returns (start: nat)
    requires Reachable(q) && q > 1 && idx == BinWSize(q)
    ensures start == BinWSize(Before(q)) + 1 && start <= BinWSize(q)
  {
    hide Bin, BinWSize;
    var prev: int := q - 1;
    BeforeBounds(q);
    Skipped(q, prev);
    while Bin(BinWSize(prev)) == q && prev > 0
      invariant Before(q) <= prev < q
    {
      Skipped(q, prev);
      prev := prev - 1;
      Skipped(q, prev);
    }
    start := BinWSize(prev) + 1;
    TableGrows(Before(q), q);
    if start > idx { start := idx; }
  }

  lemma BeforeBounds(q: nat)
    requires Reachable(q) && q > 1
    ensures 1 <= Before(q) < q && Reachable(Before(q)) && q <= 48
  {
  }

  // ---------------------------------------------------------------------------------------------
  // What the methods need
  // ---------------------------------------------------------------------------------------------

  lemma HomeReachable(queues: seq<Queue>, pages: Pages, lists: Lists, p: PageId)
    requires QueuesOk(queues, pages, lists) && p in pages
    ensures HomeOf(pages[p]) <= BIN_FULL && (Reachable(HomeOf(pages[p])) || HomeOf(pages[p]) == BIN_FULL)
  {
    hide Bin, BinWSize;
    assert SizeOk(pages[p].wsize);
  }

  /** The neighbours of a page are pages. */
  lemma Linked(queue: Queue, pages: Pages, list: seq<PageId>, k: nat)
    requires Spelled(queue, pages, list) && k < |list|
    ensures list[k] in pages
    ensures pages[list[k]].prev.Some? ==> pages[list[k]].prev.value in pages && pages[list[k]].prev.value != list[k]
    ensures pages[list[k]].next.Some? ==> pages[list[k]].next.value in pages && pages[list[k]].next.value != list[k]
    ensures queue.first == Some(list[k]) <==> k == 0
    ensures queue.last.Some? && queue.first.Some?
  {
  }

  /** The two assignments that bypass a page. */
  lemma BypassIs(pages: Pages, p: PageId, pages': Pages)
    requires p in pages
    requires var page := pages[p];
      && (page.prev.Some? ==> page.prev.value in pages) && (page.next.Some? ==> page.next.value in pages)
      && var left := if page.prev.Some? then pages[page.prev.value := pages[page.prev.value].(next := page.next)] else pages;
      pages' == if page.next.Some? then left[page.next.value := left[page.next.value].(prev := page.prev)] else left
    ensures pages' == Bypass(pages, p)
  {
  }

  lemma OneChanged(queues: seq<Queue>, queues': seq<Queue>, q: nat, direct: seq<Option<PageId>>)
    requires DirectOk(direct, queues) && q < |queues| && |queues'| == |queues|
    requires forall r | 0 <= r < |queues| && r != q :: queues'[r] == queues[r]
    ensures DirectBut(direct, queues', q, queues[q].first)
  {
    hide Bin;
  }

  /** The index stays right while the first pages of the queues stay. */
  lemma FirstKept(queues: seq<Queue>, queues': seq<Queue>, q: nat, direct: seq<Option<PageId>>)
    requires q < |queues| && |queues'| == |queues| && forall r | 0 <= r < |queues| && r != q :: queues'[r] == queues[r]
    requires DirectOk(direct, queues') || (DirectOk(direct, queues) && queues'[q].first == queues[q].first)
    ensures DirectOk(direct, queues')
  {
    hide Bin;
  }

  lemma RemovedCount(pages: Pages, pages': Pages, p: PageId)
    requires p in pages && pages'.Keys == pages.Keys
    ensures |pages' - {p}| == |pages| - 1
  {
    assert (pages' - {p}).Keys == pages.Keys - {p};
    assert |pages.Keys| == |pages.Keys - {p}| + 1;
  }

  // ---------------------------------------------------------------------------------------------
  // What absorbing needs
  // ---------------------------------------------------------------------------------------------

  lemma SpelledAt(queue: Queue, pages: Pages, list: seq<PageId>, k: nat)
    requires Spelled(queue, pages, list) && k <= |list|
    ensures k == 0 ==> queue.first == At(list, 0)
    ensures k < |list| ==> list[k] in pages && pages[list[k]].next == At(list, k + 1)
  {
  }

  lemma AdoptNone(pages: Pages, other: Pages, list: seq<PageId>)
    ensures Adopt(pages, other, list[..0]) == pages
  {
  }

  lemma AdoptOne(pages: Pages, other: Pages, list: seq<PageId>, k: nat)
    requires k < |list| && list[k] in other
    ensures Adopt(pages, other, list[..k])[list[k] := other[list[k]]] == Adopt(pages, other, list[..k + 1])
  {
    assert list[..k + 1] == list[..k] + [list[k]];
  }

  /** The first page of the queue of a small size has blocks that fit. */
  lemma FastPathFits(queues: seq<Queue>, pages: Pages, lists: Lists, w: nat)
    requires QueuesOk(queues, pages, lists) && w <= SMALL_WMAX
    ensures Bin(w) <= BIN_FULL && |queues| == BIN_FULL + 1
    ensures queues[Bin(w)].first.Some? ==>
      var p := queues[Bin(w)].first.value;
      p in pages && !pages[p].inFull && Bin(pages[p].wsize) == Bin(w) && w <= pages[p].wsize
  {
    hide Bin, BinWSize, Spelled;
    SmallBin(w);
    SpelledIn(queues, pages, lists, Bin(w));
    if queues[Bin(w)].first.Some? {
      var p := queues[Bin(w)].first.value;
      assert HomeOf(pages[p]) == Bin(w) && SizeOk(pages[p].wsize);
    }
  }

  predicate SameQueue(a: Page, b: Page) {
    a.next == b.next && a.prev == b.prev && a.inFull == b.inFull && a.wsize == b.wsize
  }

  lemma CountsKept(queues: seq<Queue>, pages: Pages, lists: Lists, p: PageId, page: Page)
    requires QueuesOk(queues, pages, lists) && p in pages && SameQueue(pages[p], page)
    ensures QueuesOk(queues, pages[p := page], lists)
  {
    hide Bin, BinWSize;
    forall q | 0 <= q < |lists| ensures Spelled(queues[q], pages[p := page], lists[q]) {
      SpelledFrame(queues[q], pages, pages[p := page], lists[q]);
    }
  }

  lemma EndsOf(queue: Queue, pages: Pages, list: seq<PageId>)
    requires Spelled(queue, pages, list)
    ensures queue.first == None <==> list == []
    ensures queue.last == None <==> list == []
    ensures list == [] ==> queue == Queue(None, None)
  {
  }

  lemma AppendNothing(lists: Lists, q: nat, list: seq<PageId>)
    requires q < |lists| && list == []
    ensures lists[q := lists[q] + list] == lists
  {
    assert lists[q] + list == lists[q];
  }

  lemma Lengths(queues: seq<Queue>, pages: Pages, lists: Lists)
    requires QueuesOk(queues, pages, lists)
    ensures |queues| == |lists| == BIN_FULL + 1
  {
  }

  /** Both lists are spelled out by the pages together. */
  lemma AppendReady(queues: seq<Queue>, pages: Pages, lists: Lists, queuesF: seq<Queue>, pagesF: Pages, listsF: Lists, q: nat)
    requires QueuesOk(queues, pages, lists) && QueuesOk(queuesF, pagesF, listsF) && q <= BIN_FULL
    requires forall x | x in listsF[q] :: x !in pages
    ensures var all := Adopt(pages, pagesF, listsF[q]);
      Spelled(queues[q], all, lists[q]) && Spelled(queuesF[q], all, listsF[q])
    ensures forall x | x in lists[q] :: x !in listsF[q]
    ensures Reachable(q) || q == BIN_FULL || listsF[q] == []
    ensures queues[q].last.Some? ==> queues[q].last.value in Adopt(pages, pagesF, listsF[q])
    ensures queuesF[q].first.Some? ==> queuesF[q].first.value in Adopt(pages, pagesF, listsF[q])
    ensures queues[q].last.Some? && queuesF[q].first.Some? ==> queues[q].last != queuesF[q].first
  {
    hide Bin, BinWSize;
    var all := Adopt(pages, pagesF, listsF[q]);
    SpelledIn(queues, pages, lists, q);
    SpelledIn(queuesF, pagesF, listsF, q);
    SpelledFrame(queues[q], pages, all, lists[q]);
    SpelledFrame(queuesF[q], pagesF, all, listsF[q]);
    if listsF[q] != [] {
      assert listsF[q][0] in listsF[q];
      HomeReachable(queuesF, pagesF, listsF, listsF[q][0]);
    }
  }

  lemma BridgeIs(pages: Pages, last: PageId, first: PageId, pages': Pages)
    requires last in pages && first in pages && last != first
    requires pages' == pages[last := pages[last].(next := Some(first))][first := pages[first].(prev := Some(last))]
    ensures pages' == Bridge(pages, Some(last), Some(first))
  {
  }

  /** Only links have changed, and only of pages of queue `q`. */
  lemma AppendLinks(queues: seq<Queue>, pages: Pages, lists: Lists, queuesF: seq<Queue>, pagesF: Pages, listsF: Lists, q: nat,
                    pages': Pages)
    requires QueuesOk(queues, pages, lists) && QueuesOk(queuesF, pagesF, listsF) && q <= BIN_FULL
    requires (forall x | x in listsF[q] :: x !in pages) && listsF[q] != []
    requires queuesF[q].first.Some?
    requires var all := Adopt(pages, pagesF, listsF[q]);
      && (queues[q].last.Some? ==> queues[q].last.value in all) && queuesF[q].first.value in all
      && pages' == if queues[q].last.Some? then Bridge(all, queues[q].last, queuesF[q].first) else all
    ensures forall x :: x in pages' <==> x in pages || x in listsF[q]
    ensures forall x | x in listsF[q] :: HomeOf(pages'[x]) == q && SizeOk(pages'[x].wsize)
    ensures forall x | x in pages :: pages'[x] == pages[x].(next := pages'[x].next, prev := pages'[x].prev)
    ensures forall x | x in pages && x !in lists[q] :: pages'[x] == pages[x]
    ensures forall x | x in listsF[q] :: x in pagesF && OnlyLinks(pagesF[x], pages'[x])
  {
    hide Bin, BinWSize, SizeOk;
    SpelledIn(queues, pages, lists, q);
    SpelledIn(queuesF, pagesF, listsF, q);
    forall x | x in listsF[q] ensures HomeOf(pages'[x]) == q && SizeOk(pages'[x].wsize) {
      assert HomeOf(pagesF[x]) == q && SizeOk(pagesF[x].wsize);
    }
  }

  function Total(lists: Lists): nat {
    if lists == [] then 0 else Total(lists[..|lists| - 1]) + |lists[|lists| - 1]|
  }

  lemma TotalNext(lists: Lists, q: nat)
    requires q < |lists|
    ensures Total(lists[..q + 1]) == Total(lists[..q]) + |lists[q]|
  {
    assert lists[..q + 1][..q] == lists[..q];
  }

  /** The first `q` queues have been appended. */
  ghost predicate Absorbed(lists0: Lists, pages0: Pages, listsF: Lists, pagesF: Pages, q: nat,
                           lists: Lists, pages: Pages, count: int, countF: int) {
    && |lists0| == |listsF| == |lists| == BIN_FULL + 1 && q <= BIN_FULL + 1
    && (forall r | 0 <= r <= BIN_FULL :: lists[r] == if r < q then lists0[r] + listsF[r] else lists0[r])
    && (forall x :: x in pages <==> x in pages0 || exists r :: 0 <= r < q && x in listsF[r])
    && count == |pages0| + Total(listsF[..q]) && countF == |pagesF| - Total(listsF[..q])
  }

  lemma AbsorbedStart(lists0: Lists, pages0: Pages, listsF: Lists, pagesF: Pages, count: int, countF: int)
    requires |lists0| == |listsF| == BIN_FULL + 1 && count == |pages0| && countF == |pagesF|
    ensures Absorbed(lists0, pages0, listsF, pagesF, 0, lists0, pages0, count, countF)
  {
  }

  lemma AbsorbedNext(lists0: Lists, pages0: Pages, listsF: Lists, pagesF: Pages, q: nat,
                     lists: Lists, pages: Pages, count: int, countF: int, lists': Lists, pages': Pages)
    requires Absorbed(lists0, pages0, listsF, pagesF, q, lists, pages, count, countF) && q <= BIN_FULL
    requires lists' == lists[q := lists[q] + listsF[q]] && forall x :: x in pages' <==> x in pages || x in listsF[q]
    ensures Absorbed(lists0, pages0, listsF, pagesF, q + 1, lists', pages', count + |listsF[q]|, countF - |listsF[q]|)
  {
    TotalNext(listsF, q);
    forall x ensures x in pages' <==> x in pages0 || exists r :: 0 <= r < q + 1 && x in listsF[r] {
      if x in pages' && x !in pages0 && x !in listsF[q] {
        var r :| 0 <= r < q && x in listsF[r];
      }
    }
  }

  lemma NotYetHere(queuesF: seq<Queue>, pagesF: Pages, lists0: Lists, listsF: Lists, pages0: Pages,
                   lists: Lists, pages: Pages, count: int, countF: int, q: nat)
    requires QueuesOk(queuesF, pagesF, listsF) && q <= BIN_FULL
    requires forall x | x in pages0 :: x !in pagesF
    requires Absorbed(lists0, pages0, listsF, pagesF, q, lists, pages, count, countF)
    ensures forall x | x in listsF[q] :: x !in pages
  {
    hide Bin, Spelled, Total;
    forall x | x in listsF[q] ensures x !in pages {
      assert x in pagesF && HomeOf(pagesF[x]) == q;
      forall r | 0 <= r < q ensures x !in listsF[r] { assert x in listsF[r] <==> x in pagesF && HomeOf(pagesF[x]) == r; }
    }
  }

  function Elements(list: seq<PageId>): set<PageId> {
    set x | x in list
  }

  /** The pages of the queues before `q`. */
  function UpTo(pages: Pages, q: nat): set<PageId> {
    set x | x in pages && HomeOf(pages[x]) < q
  }

  lemma UpToNext(queues: seq<Queue>, pages: Pages, lists: Lists, q: nat)
    requires QueuesOk(queues, pages, lists) && q < |lists|
    ensures UpTo(pages, q + 1) == UpTo(pages, q) + Elements(lists[q]) && UpTo(pages, q) !! Elements(lists[q])
  {
    hide Bin, Spelled, HomeOf;
    forall x ensures x in Elements(lists[q]) <==> x in pages && HomeOf(pages[x]) == q {
      assert x in lists[q] <==> x in pages && HomeOf(pages[x]) == q;
    }
  }

  lemma {:induction false} TotalCounts(queues: seq<Queue>, pages: Pages, lists: Lists, q: nat)
    requires QueuesOk(queues, pages, lists) && q <= |lists|
    ensures Total(lists[..q]) == |UpTo(pages, q)|
  {
    hide QueuesOk, HomeOf;
    Lengths(queues, pages, lists);
    if q == 0 {
      assert UpTo(pages, q) == {};
    } else {
      TotalCounts(queues, pages, lists, q - 1);
      TotalNext(lists, q - 1);
      UpToNext(queues, pages, lists, q - 1);
      SpelledIn(queues, pages, lists, q - 1);
      SpelledNoDup(queues[q - 1], pages, lists[q - 1]);
      ElementsCount(lists[q - 1]);
    }
  }

  lemma {:induction false} ElementsCount(list: seq<PageId>)
    requires NoDup(list)
    ensures |Elements(list)| == |list|
    decreases |list|
  {
    if list == [] {
      assert Elements(list) == {};
    } else {
      ElementsCount(list[1..]);
      assert Elements(list) == Elements(list[1..]) + {list[0]};
    }
  }

  /** The total length of the queues is the number of pages. */
  lemma TotalIsCount(queues: seq<Queue>, pages: Pages, lists: Lists)
    requires QueuesOk(queues, pages, lists)
    ensures Total(lists) == |pages|
  {
    hide QueuesOk, HomeOf;
    Lengths(queues, pages, lists);
    TotalCounts(queues, pages, lists, |lists|);
    assert lists[..|lists|] == lists;
    forall x | x in pages ensures HomeOf(pages[x]) < |lists| { HomeReachable(queues, pages, lists, x); }
    assert UpTo(pages, |lists|) == pages.Keys;
  }

  lemma NoPages(queues: seq<Queue>, pages: Pages, lists: Lists)
    requires QueuesOk(queues, pages, lists) && |pages| == 0
    ensures pages == map[] && forall q | 0 <= q < |lists| :: lists[q] == []
  {
    hide Bin, BinWSize, Reachable, SizeOk;
    assert pages.Keys == {};
    forall q | 0 <= q < |lists| ensures lists[q] == [] {
      if lists[q] != [] { SomePage(pages, lists, q); assert false; }
    }
  }

  lemma SomePage(pages: Pages, lists: Lists, q: nat)
    requires q < |lists| && lists[q] != [] && forall p :: p in lists[q] ==> p in pages
    ensures pages.Keys != {}
  {
    assert lists[q][0] in lists[q];
    assert lists[q][0] in pages.Keys;
  }

  lemma AllMoved(queuesF: seq<Queue>, pagesF: Pages, lists0: Lists, listsF: Lists, pages0: Pages,
                 lists: Lists, pages: Pages, count: int, countF: int)
    requires QueuesOk(queuesF, pagesF, listsF) && forall x | x in pages0 :: x !in pagesF
    requires Absorbed(lists0, pages0, listsF, pagesF, BIN_FULL + 1, lists, pages, count, countF)
    ensures pages.Keys == pages0.Keys + pagesF.Keys && count == |pages| == |pages0| + |pagesF| && countF == 0
    ensures forall q | 0 <= q <= BIN_FULL :: lists[q] == lists0[q] + listsF[q]
  {
    hide QueuesOk, Total;
    TotalIsCount(queuesF, pagesF, listsF);
    assert listsF[..BIN_FULL + 1] == listsF;
    forall x ensures x in pages <==> x in pages0 || x in pagesF { MovedIff(queuesF, pagesF, listsF, x); }
    UnionCount(pages0, pagesF, pages);
  }

  lemma MovedIff(queuesF: seq<Queue>, pagesF: Pages, listsF: Lists, x: PageId)
    requires QueuesOk(queuesF, pagesF, listsF)
    ensures x in pagesF <==> exists r :: 0 <= r < BIN_FULL + 1 && x in listsF[r]
  {
    hide Bin, BinWSize, Spelled;
    if x in pagesF {
      HomeReachable(queuesF, pagesF, listsF, x);
      assert x in listsF[HomeOf(pagesF[x])];
    }
  }

  lemma UnionCount(a: Pages, b: Pages, all: Pages)
    requires (forall x | x in a :: x !in b) && forall x :: x in all <==> x in a || x in b
    ensures all.Keys == a.Keys + b.Keys && |all| == |a| + |b|
  {
    assert all.Keys == a.Keys + b.Keys;
    assert a.Keys !! b.Keys;
  }
}
