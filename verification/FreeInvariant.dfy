/**
 The invariant of the cross-thread free protocol.  It is stated relative to two history maps: the
 place of every block, and the block whose freer holds the DELAYED_FREEING lock of a page.
 */
module FreeInvariant {
  import opened Options
  import opened FreeProtocol

  type Pages = map<PageId, Page>
  type Heaps = map<HeapId, Heap>
  type Freers = map<Block, Freer>
  type Owners = map<ThreadId, Owner>
  type Places = map<Block, Place>
  type LockMap = map<PageId, Block>

  datatype Place =
    | InFree
    | InLocal
    | InThreadFree
    | InDelayed(heap: HeapId)
    | InTodo(thread: ThreadId)
    | IsLive
    | InHand  // held by a freeing thread

  datatype History = History(at: Places, lock: LockMap)

  ghost predicate NoDup(list: seq<Block>) {
    forall i, j :: 0 <= i < j < |list| ==> list[i] != list[j]
  }

  /** The freer is between its two compare-and-swaps on the flag. */
  predicate HoldsLock(f: Freer) {
    !f.Begin? && !f.HasWord?
  }

  /** The block is still in the freer's hands, on no list. */
  predicate HasBlock(f: Freer) {
    !f.Landed? && !f.Resetting?
  }

  // ---------------------------------------------------------------------------------------------
  // Block conservation
  // ---------------------------------------------------------------------------------------------

  ghost predicate IsAt(at: Places, b: Block, place: Place) {
    b in at && at[b] == place
  }

  /** `list` holds exactly the blocks of page `p` at `place`, each once. */
  ghost predicate PageList(list: seq<Block>, p: PageId, at: Places, place: Place) {
    && NoDup(list)
    && forall b: Block :: b in list <==> b.page == p && IsAt(at, b, place)
  }

  ghost predicate PageOk(p: PageId, page: Page, at: Places) {
    && PageList(page.free, p, at, InFree)
    && PageList(page.localFree, p, at, InLocal)
    && PageList(page.tfree, p, at, InThreadFree)
    && page.used + |page.free| + |page.localFree| == page.capacity
  }

  ghost predicate BlocksOfPages(pages: Pages, at: Places) {
    && (forall b :: b in at <==> b.page in pages && b.index < pages[b.page].capacity)
    && (forall p | p in pages :: PageOk(p, pages[p], at))
  }

  /** `list` holds exactly the blocks at `place`, each once. */
  ghost predicate ListIs(list: seq<Block>, at: Places, place: Place) {
    && NoDup(list)
    && forall b :: b in list <==> IsAt(at, b, place)
  }

  ghost predicate DelayedLists(heaps: Heaps, at: Places) {
    && (forall h | h in heaps :: ListIs(heaps[h].delayed, at, InDelayed(h)))
    && (forall b | b in at && at[b].InDelayed? :: at[b].heap in heaps)
  }

  ghost predicate TodoLists(owners: Owners, at: Places) {
    && (forall t | t in owners :: ListIs(owners[t].todo, at, InTodo(t)))
    && (forall b | b in at && at[b].InTodo? :: at[b].thread in owners)
  }

  ghost predicate LiveBlocks(live: set<Block>, at: Places) {
    forall b :: b in live <==> IsAt(at, b, IsLive)
  }

  ghost predicate HandBlocks(freers: Freers, at: Places) {
    forall b :: b in freers && HasBlock(freers[b]) <==> IsAt(at, b, InHand)
  }

  // ---------------------------------------------------------------------------------------------
  // The DELAYED_FREEING lock
  // ---------------------------------------------------------------------------------------------

  ghost predicate Locks(pages: Pages, freers: Freers, lock: LockMap) {
    && (forall p :: p in pages && pages[p].flag == Freeing <==> p in lock)
    && (forall p | p in lock :: lock[p].page == p && lock[p] in freers && HoldsLock(freers[lock[p]]))
    && (forall b | b in freers && HoldsLock(freers[b]) :: b.page in lock && lock[b.page] == b)
  }

  /** A block on an owner's `todo` list that the owner has not yet spun for. */
  predicate Unspun(o: Owner, b: Block) {
    b in o.todo && (b == o.todo[0] ==> o.stage == Spin)
  }

  /** The block is on a delayed list, or unspun on a `todo` list. */
  predicate Waiting(owners: Owners, at: Places, b: Block) {
    b in at &&
    (at[b].InDelayed? || (at[b].InTodo? && at[b].thread in owners && Unspun(owners[at[b].thread], b)))
  }

  /** A pushed block keeps waiting until the lock is released. */
  ghost predicate LandedBlocks(freers: Freers, owners: Owners, at: Places) {
    forall b | b in freers && !HasBlock(freers[b]) :: Waiting(owners, at, b)
  }

  // ---------------------------------------------------------------------------------------------
  // Pages, heaps and their owners
  // ---------------------------------------------------------------------------------------------

  /** The owner has moved page `p` away from heap `h` but has not spun for it yet. */
  predicate Moving(o: Owner, h: HeapId, p: PageId) {
    o.task.AbsorbSpin? && o.task.from == h && o.task.page == p
  }

  /** The owner is absorbing heap `h` and will still drain it. */
  predicate WillDrain(o: Owner, h: HeapId) {
    match o.task
    case AbsorbPages(from, _) => from == h
    case AbsorbSpin(from, _, _) => from == h
    case AbsorbDrain(from) => from == h
    case _ => false
  }

  predicate PageHeapOk(page: Page, heaps: Heaps, owners: Owners) {
    && (page.owner.Some? ==> page.owner.value in owners)
    && (page.heap.Some? ==> page.heap.value in heaps && page.owner == Some(heaps[page.heap.value].thread))
    && (page.heap.None? ==> page.flag == Never)
  }

  ghost predicate HeapsOfPages(pages: Pages, heaps: Heaps, owners: Owners) {
    forall p | p in pages :: PageHeapOk(pages[p], heaps, owners)
  }

  /** A freer that read its page's heap holds the page's heap, or the one it is being moved from. */
  predicate HeapOk(p: PageId, h: HeapId, pages: Pages, heaps: Heaps, owners: Owners) {
    && p in pages
    && pages[p].heap.Some?
    && h in heaps
    && heaps[h].thread in owners
    && pages[p].owner == Some(heaps[h].thread)
    && (pages[p].heap == Some(h) || Moving(owners[heaps[h].thread], h, p))
  }

  ghost predicate FreerHeaps(pages: Pages, heaps: Heaps, freers: Freers, owners: Owners) {
    forall b | b in freers && (freers[b].HasHeap? || freers[b].HasDelayed?) ::
      HeapOk(b.page, freers[b].heap, pages, heaps, owners)
  }

  /** A block on a delayed list belongs to a page of that heap, or of one that absorbs it. */
  predicate DelayedOk(p: PageId, h: HeapId, pages: Pages, heaps: Heaps, owners: Owners) {
    && p in pages
    && pages[p].heap.Some?
    && h in heaps
    && heaps[h].thread in owners
    && pages[p].owner == Some(heaps[h].thread)
    && (pages[p].heap == Some(h) || WillDrain(owners[heaps[h].thread], h))
  }

  ghost predicate DelayedBlocks(pages: Pages, heaps: Heaps, owners: Owners, at: Places) {
    forall b | b in at && at[b].InDelayed? :: DelayedOk(b.page, at[b].heap, pages, heaps, owners)
  }

  ghost predicate TodoBlocks(pages: Pages, at: Places) {
    forall b | b in at && at[b].InTodo? ::
      b.page in pages && pages[b.page].owner == Some(at[b].thread) && pages[b.page].heap.Some?
  }

  predicate PageOwned(pages: Pages, t: ThreadId, p: PageId) {
    p in pages && pages[p].owner == Some(t) && pages[p].heap.Some?
  }

  predicate PageTaken(pages: Pages, t: ThreadId, p: PageId) {
    p in pages && pages[p].owner == Some(t) && pages[p].heap.None?
  }

  predicate PageIn(pages: Pages, h: HeapId, p: PageId) {
    p in pages && pages[p].heap == Some(h)
  }

  predicate HeapOwned(heaps: Heaps, t: ThreadId, h: HeapId) {
    h in heaps && heaps[h].thread == t
  }

  ghost predicate NeverFlagged(pages: Pages, h: HeapId, except: set<PageId>) {
    forall p | PageIn(pages, h, p) && p !in except :: pages[p].flag == Never
  }

  ghost predicate AllIn(pages: Pages, h: HeapId, ps: set<PageId>) {
    forall p | p in ps :: PageIn(pages, h, p)
  }

  ghost predicate NoPages(pages: Pages, h: HeapId) {
    forall p :: !PageIn(pages, h, p)
  }

  /** What the task of an owner relies on. */
  ghost predicate TaskOk(pages: Pages, heaps: Heaps, t: ThreadId, o: Owner) {
    match o.task
    case Idle => true
    case CollectPage(p, _) => o.todo == [] && PageOwned(pages, t, p)
    case DelayedFree(h) => o.todo == [] && HeapOwned(heaps, t, h)
    case AbsorbFirst(from, to) => o.todo == [] && from != to && HeapOwned(heaps, t, from) && HeapOwned(heaps, t, to)
    case AbsorbPages(from, to) => from != to && HeapOwned(heaps, t, from) && HeapOwned(heaps, t, to)
    case AbsorbSpin(from, to, p) =>
      o.todo == [] && from != to && HeapOwned(heaps, t, from) && HeapOwned(heaps, t, to) && PageIn(pages, to, p)
    case AbsorbDrain(from) => o.todo == [] && HeapOwned(heaps, t, from) && NoPages(pages, from)
    case AbsorbEnd(from) => HeapOwned(heaps, t, from) && NoPages(pages, from) && heaps[from].delayed == []
    case AbandonMark(h, rest) =>
      o.todo == [] && HeapOwned(heaps, t, h) && NeverFlagged(pages, h, rest) && AllIn(pages, h, rest)
    case AbandonSpin(h, p, rest) =>
      o.todo == [] && HeapOwned(heaps, t, h) && NeverFlagged(pages, h, rest + {p}) && AllIn(pages, h, rest + {p})
    case AbandonDrain(h) => o.todo == [] && HeapOwned(heaps, t, h) && NeverFlagged(pages, h, {})
    case AbandonVisit(h) => HeapOwned(heaps, t, h) && NeverFlagged(pages, h, {}) && heaps[h].delayed == []
    case AbandonCollect(h, p) =>
      o.todo == [] && HeapOwned(heaps, t, h) && NeverFlagged(pages, h, {}) && heaps[h].delayed == [] && PageIn(pages, h, p)
    case AbandonDecide(h, p) =>
      o.todo == [] && HeapOwned(heaps, t, h) && NeverFlagged(pages, h, {}) && heaps[h].delayed == [] && PageIn(pages, h, p)
    case Popped(p) => o.todo == [] && PageTaken(pages, t, p)
    case PoppedCollect(p) => o.todo == [] && PageTaken(pages, t, p)
    case ReclaimSpin(p) => o.todo == [] && PageOwned(pages, t, p)
    case ReclaimCollect(p) => o.todo == [] && PageOwned(pages, t, p) && pages[p].flag != Never
    case ReclaimDecide(p) => o.todo == [] && PageOwned(pages, t, p) && pages[p].flag != Never
  }

  ghost predicate Tasks(pages: Pages, heaps: Heaps, owners: Owners) {
    && (forall t | t in owners :: TaskOk(pages, heaps, t, owners[t]))
    && (forall h | h in heaps :: heaps[h].thread in owners)
  }

  // ---------------------------------------------------------------------------------------------
  // No remote free is lost
  // ---------------------------------------------------------------------------------------------

  /** A block of `p` is waiting. */
  ghost predicate HasWaiting(owners: Owners, at: Places, p: PageId) {
    exists b: Block :: b.page == p && Waiting(owners, at, b)
  }

  /** The owner is about to collect the page, or to set the flag of a reclaimed page and collect it. */
  predicate Collects(o: Owner, p: PageId) {
    (CollectTarget(o).Some? && CollectTarget(o).value.page == p) || o.task == ReclaimSpin(p)
  }

  /** Some owner is about to collect the page. */
  ghost predicate AboutToCollect(owners: Owners, p: PageId) {
    exists t :: t in owners && Collects(owners[t], p)
  }

  ghost predicate PageNotLost(p: PageId, page: Page, owners: Owners, at: Places) {
    && (page.flag == NoDelayed ==> HasWaiting(owners, at, p))
    && (page.flag == UseDelayed && page.tfree != [] ==> AboutToCollect(owners, p) || HasWaiting(owners, at, p))
  }

  ghost predicate NotLost(pages: Pages, owners: Owners, at: Places) {
    forall p | p in pages :: PageNotLost(p, pages[p], owners, at)
  }

  ghost predicate Blocks(s: State, at: Places) {
    && BlocksOfPages(s.pages, at)
    && DelayedLists(s.heaps, at)
    && TodoLists(s.owners, at)
    && LiveBlocks(s.live, at)
    && HandBlocks(s.freers, at)
  }

  ghost predicate Ownership(s: State, at: Places) {
    && HeapsOfPages(s.pages, s.heaps, s.owners)
    && FreerHeaps(s.pages, s.heaps, s.freers, s.owners)
    && DelayedBlocks(s.pages, s.heaps, s.owners, at)
    && TodoBlocks(s.pages, at)
    && Tasks(s.pages, s.heaps, s.owners)
  }

  ghost predicate Inv(s: State, g: History) {
    && Blocks(s, g.at)
    && Locks(s.pages, s.freers, g.lock)
    && LandedBlocks(s.freers, s.owners, g.at)
    && Ownership(s, g.at)
    && NotLost(s.pages, s.owners, g.at)
  }
}
