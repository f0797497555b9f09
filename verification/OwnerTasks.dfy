/** Allocation, absorbing a heap, abandoning and reclaiming pages keep the invariant. */
module OwnerTasks {
  import opened Options
  import opened FreeProtocol
  import opened FreeInvariant
  import opened FreeFrames
  import opened OwnerLoops
  import opened OwnerActions

  // ---------------------------------------------------------------------------------------------
  // Allocating a block
  // ---------------------------------------------------------------------------------------------

  lemma MallocPages(pages: Pages, at: Places, p: PageId, page: Page)
    requires BlocksOfPages(pages, at) && p in pages && pages[p].free != []
    requires page == pages[p].(free := pages[p].free[1..], used := pages[p].used + 1)
    ensures pages[p].free[0] in at && at[pages[p].free[0]] == InFree
    ensures BlocksOfPages(pages[p := page], at[pages[p].free[0] := IsLive])
  {
    var before, b := pages[p], pages[p].free[0];
    var at' := at[b := IsLive];
    assert PageOk(p, before, at);
    assert b in before.free;
    assert IsAt(at, b, InFree);
    Behead(before.free);
    assert PageOk(p, page, at') by {
      forall c: Block ensures c in page.free <==> c.page == p && IsAt(at', c, InFree) {
        assert c in before.free <==> c.page == p && IsAt(at, c, InFree);
      }
      forall c: Block ensures IsAt(at, c, InLocal) == IsAt(at', c, InLocal) {}
      forall c: Block ensures IsAt(at, c, InThreadFree) == IsAt(at', c, InThreadFree) {}
    }
    PageChanges(pages, at, at', p, page);
  }

  lemma MallocLists(live: set<Block>, at: Places, b: Block)
    requires LiveBlocks(live, at) && b in at && at[b] == InFree
    ensures LiveBlocks(live + {b}, at[b := IsLive])
    ensures var at' := at[b := IsLive];
      at'.Keys == at.Keys && Same(at, at', HandKind) && Same(at, at', DelayedKind) && Same(at, at', TodoKind)
  {
    forall c ensures c in live + {b} <==> IsAt(at[b := IsLive], c, IsLive) {
      assert c in live <==> IsAt(at, c, IsLive);
    }
  }

  lemma MallocKeeps(s: State, g: History, p: PageId) returns (g': History)
    requires Inv(s, g) && p in s.pages && s.pages[p].free != []
    ensures var page := s.pages[p];
      Inv(s.(pages := s.pages[p := page.(free := page.free[1..], used := page.used + 1)],
             live := s.live + {page.free[0]}), g')
  {
    hide BlocksOfPages, DelayedLists, TodoLists, LiveBlocks, HandBlocks, Locks, LandedBlocks, FreerHeaps,
      DelayedBlocks, TodoBlocks, Tasks, HeapsOfPages, NotLost, Same;
    var b, page := s.pages[p].free[0], s.pages[p].(free := s.pages[p].free[1..], used := s.pages[p].used + 1);
    var pages' := s.pages[p := page];
    g' := g.(at := g.at[b := IsLive]);
    MallocPages(s.pages, g.at, p, page);
    MallocLists(s.live, g.at, b);
    OnlyListsKeep(s, g, p, page);
    DelayedSame(s.heaps, g.at, g'.at);
    TodoSame(s.owners, g.at, g'.at);
    HandSame(s.freers, g.at, g'.at);
    LandedSame(s.freers, s.owners, g.at, g'.at);
    DelayedBlocksSame(pages', s.heaps, s.owners, g.at, g'.at);
    TodoBlocksSame(pages', g.at, g'.at);
    NotLostSame(pages', s.owners, g.at, g'.at);
  }

  // ---------------------------------------------------------------------------------------------
  // New blocks, pages and heaps
  // ---------------------------------------------------------------------------------------------

  /** The places when page `p` gets new free blocks with indices in [lo, hi). */
  function Extended(at: Places, p: PageId, lo: nat, hi: nat): Places
    requires lo <= hi
  {
    at + map b | b in Fresh(p, lo, hi) :: InFree
  }

  lemma FreshIs(p: PageId, lo: nat, hi: nat)
    requires lo <= hi
    ensures NoDup(Fresh(p, lo, hi)) && |Fresh(p, lo, hi)| == hi - lo
    ensures forall b: Block :: b in Fresh(p, lo, hi) <==> b.page == p && lo <= b.index < hi
  {
    forall b: Block | b.page == p && lo <= b.index < hi ensures b in Fresh(p, lo, hi) {
      assert Fresh(p, lo, hi)[b.index - lo] == b;
    }
  }

  lemma ExtendSame(at: Places, p: PageId, lo: nat, hi: nat)
    requires lo <= hi && forall b: Block | b.page == p && lo <= b.index < hi :: b !in at
    ensures var at' := Extended(at, p, lo, hi);
      Same(at, at', LiveKind) && Same(at, at', HandKind) && Same(at, at', DelayedKind) && Same(at, at', TodoKind)
    ensures forall b: Block :: b in Extended(at, p, lo, hi) <==> b in at || (b.page == p && lo <= b.index < hi)
    ensures forall b: Block | b in at :: Extended(at, p, lo, hi)[b] == at[b]
    ensures forall b: Block | b.page == p && lo <= b.index < hi :: Extended(at, p, lo, hi)[b] == InFree
  {
    FreshIs(p, lo, hi);
  }

  lemma ExtendOtherPage(q: PageId, page: Page, at: Places, at': Places)
    requires PageOk(q, page, at)
    requires forall b: Block | b.page == q :: (b in at <==> b in at') && (b in at ==> at'[b] == at[b])
    ensures PageOk(q, page, at')
  {
    forall b: Block | b.page == q ensures IsAt(at, b, InFree) == IsAt(at', b, InFree) {}
    forall b: Block | b.page == q ensures IsAt(at, b, InLocal) == IsAt(at', b, InLocal) {}
    forall b: Block | b.page == q ensures IsAt(at, b, InThreadFree) == IsAt(at', b, InThreadFree) {}
  }

  lemma ExtendPage(p: PageId, page: Page, at: Places, n: nat)
    requires PageOk(p, page, at) && forall b: Block :: b.page == p && b in at ==> b.index < page.capacity
    ensures PageOk(p, page.(free := Fresh(p, page.capacity, page.capacity + n) + page.free, capacity := page.capacity + n),
                   Extended(at, p, page.capacity, page.capacity + n))
  {
    var lo, hi := page.capacity, page.capacity + n;
    var at', added := Extended(at, p, lo, hi), Fresh(p, lo, hi);
    FreshIs(p, lo, hi);
    ExtendSame(at, p, lo, hi);
    forall b | b in added ensures b !in page.free { assert !IsAt(at, b, InFree); }
    Concat(added, page.free);
    forall b: Block ensures b in added + page.free <==> b.page == p && IsAt(at', b, InFree) {
      assert b in page.free <==> b.page == p && IsAt(at, b, InFree);
    }
    forall b: Block | b.page == p ensures IsAt(at, b, InLocal) == IsAt(at', b, InLocal) {}
    forall b: Block | b.page == p ensures IsAt(at, b, InThreadFree) == IsAt(at', b, InThreadFree) {}
  }

  lemma ExtendPages(pages: Pages, at: Places, p: PageId, n: nat)
    requires BlocksOfPages(pages, at) && p in pages
    ensures var page := pages[p];
      BlocksOfPages(pages[p := page.(free := Fresh(p, page.capacity, page.capacity + n) + page.free,
                                     capacity := page.capacity + n)],
                    Extended(at, p, page.capacity, page.capacity + n))
  {
    hide PageOk;
    var lo, hi := pages[p].capacity, pages[p].capacity + n;
    ExtendSame(at, p, lo, hi);
    ExtendPage(p, pages[p], at, n);
    forall q | q in pages && q != p ensures PageOk(q, pages[q], Extended(at, p, lo, hi)) {
      ExtendOtherPage(q, pages[q], at, Extended(at, p, lo, hi));
    }
  }

  lemma ExtendKeeps(s: State, g: History, p: PageId, n: nat) returns (g': History)
    requires Inv(s, g) && p in s.pages
    ensures var page := s.pages[p];
      Inv(s.(pages := s.pages[p := page.(free := Fresh(p, page.capacity, page.capacity + n) + page.free,
                                         capacity := page.capacity + n)]), g')
  {
    hide BlocksOfPages, DelayedLists, TodoLists, LiveBlocks, HandBlocks, Locks, LandedBlocks, FreerHeaps,
      DelayedBlocks, TodoBlocks, Tasks, HeapsOfPages, NotLost, Same, Extended, Fresh;
    var lo, hi := s.pages[p].capacity, s.pages[p].capacity + n;
    var page := s.pages[p].(free := Fresh(p, lo, hi) + s.pages[p].free, capacity := hi);
    var pages' := s.pages[p := page];
    g' := g.(at := Extended(g.at, p, lo, hi));
    NewBlocks(s.pages, g.at, p);
    ExtendSame(g.at, p, lo, hi);
    ExtendPages(s.pages, g.at, p, n);
    OnlyListsKeep(s, g, p, page);
    LiveSame(s.live, g.at, g'.at);
    DelayedSame(s.heaps, g.at, g'.at);
    TodoSame(s.owners, g.at, g'.at);
    HandSame(s.freers, g.at, g'.at);
    LandedSame(s.freers, s.owners, g.at, g'.at);
    DelayedBlocksSame(pages', s.heaps, s.owners, g.at, g'.at);
    TodoBlocksSame(pages', g.at, g'.at);
    NotLostSame(pages', s.owners, g.at, g'.at);
  }

  lemma NewBlocks(pages: Pages, at: Places, p: PageId)
    requires BlocksOfPages(pages, at)
    ensures forall b: Block | b.page == p && (p in pages ==> pages[p].capacity <= b.index) :: b !in at
  {
  }

  /** A fresh, still empty page of an owner's heap. */
  function EmptyPage(t: ThreadId, h: HeapId): Page {
    Page(Some(t), Some(h), UseDelayed, [], [], [], 0, 0, false)
  }

  lemma FreshTask(pages: Pages, heaps: Heaps, t: ThreadId, u: ThreadId, o: Owner, p: PageId, h: HeapId)
    requires TaskOk(pages, heaps, u, o) && p !in pages && HeapOwned(heaps, t, h) && (u == t ==> o.task.Idle?)
    ensures TaskOk(pages[p := EmptyPage(t, h)], heaps, u, o)
  {
    var pages' := pages[p := EmptyPage(t, h)];
    forall k, q {:trigger PageIn(pages', k, q)} | k != h ensures PageIn(pages', k, q) <==> PageIn(pages, k, q) {}
    if o.task.AbsorbEnd? || o.task.AbsorbDrain? {
      assert NoPages(pages', o.task.from) by {
        forall q ensures !PageIn(pages', o.task.from, q) { assert !PageIn(pages, o.task.from, q); }
      }
    }
  }

  lemma FreshTasks(pages: Pages, heaps: Heaps, owners: Owners, t: ThreadId, p: PageId, h: HeapId)
    requires Tasks(pages, heaps, owners) && p !in pages && HeapOwned(heaps, t, h) && t in owners && owners[t].task.Idle?
    ensures Tasks(pages[p := EmptyPage(t, h)], heaps, owners)
  {
    hide TaskOk;
    forall u | u in owners ensures TaskOk(pages[p := EmptyPage(t, h)], heaps, u, owners[u]) {
      FreshTask(pages, heaps, t, u, owners[u], p, h);
    }
  }

  lemma FreshBlocks(pages: Pages, at: Places, p: PageId, t: ThreadId, h: HeapId)
    requires BlocksOfPages(pages, at) && p !in pages
    ensures BlocksOfPages(pages[p := EmptyPage(t, h)], at)
  {
    forall b: Block ensures b.page == p ==> b !in at {}
  }

  lemma FreshHomes(s: State, g: History, p: PageId, t: ThreadId, h: HeapId)
    requires Ownership(s, g.at) && NotLost(s.pages, s.owners, g.at) && Locks(s.pages, s.freers, g.lock)
    requires p !in s.pages && HeapOwned(s.heaps, t, h) && t in s.owners
    ensures var pages' := s.pages[p := EmptyPage(t, h)];
      && Locks(pages', s.freers, g.lock) && HeapsOfPages(pages', s.heaps, s.owners)
      && FreerHeaps(pages', s.heaps, s.freers, s.owners) && DelayedBlocks(pages', s.heaps, s.owners, g.at)
      && TodoBlocks(pages', g.at) && NotLost(pages', s.owners, g.at)
  {
    hide TaskOk, HasWaiting, AboutToCollect;
  }

  lemma FreshPageKeeps(s: State, g: History, t: ThreadId, p: PageId, h: HeapId, n: nat) returns (g': History)
    requires Inv(s, g) && t in s.owners && s.owners[t].task.Idle? && p !in s.pages && HeapOwned(s.heaps, t, h)
    ensures Inv(s.(pages := s.pages[p := Page(Some(t), Some(h), UseDelayed, [], Fresh(p, 0, n), [], 0, n, false)]), g')
  {
    hide BlocksOfPages, DelayedLists, TodoLists, LiveBlocks, HandBlocks, Locks, LandedBlocks, FreerHeaps,
      DelayedBlocks, TodoBlocks, Tasks, HeapsOfPages, NotLost, Fresh;
    FreshBlocks(s.pages, g.at, p, t, h);
    FreshHomes(s, g, p, t, h);
    FreshTasks(s.pages, s.heaps, s.owners, t, p, h);
    var s1 := s.(pages := s.pages[p := EmptyPage(t, h)]);
    g' := ExtendKeeps(s1, g, p, n);
    assert Fresh(p, 0, n) + [] == Fresh(p, 0, n);
    var page := Page(Some(t), Some(h), UseDelayed, [], Fresh(p, 0, n), [], 0, n, false);
    assert s1.pages[p := page] == s.pages[p := page];
  }

  lemma NewHeapLists(pages: Pages, heaps: Heaps, freers: Freers, owners: Owners, at: Places, t: ThreadId, h: HeapId)
    requires DelayedLists(heaps, at) && h !in heaps && t in owners
    requires HeapsOfPages(pages, heaps, owners) && FreerHeaps(pages, heaps, freers, owners)
    requires DelayedBlocks(pages, heaps, owners, at)
    ensures DelayedLists(heaps[h := Heap(t, [])], at)
    ensures HeapsOfPages(pages, heaps[h := Heap(t, [])], owners)
    ensures FreerHeaps(pages, heaps[h := Heap(t, [])], freers, owners)
    ensures DelayedBlocks(pages, heaps[h := Heap(t, [])], owners, at)
  {
    assert forall b :: !IsAt(at, b, InDelayed(h));
  }

  lemma NewHeapTask(pages: Pages, heaps: Heaps, u: ThreadId, o: Owner, t: ThreadId, h: HeapId)
    requires TaskOk(pages, heaps, u, o) && h !in heaps
    ensures TaskOk(pages, heaps[h := Heap(t, [])], u, o)
  {
  }

  lemma NewHeapTasks(pages: Pages, heaps: Heaps, owners: Owners, t: ThreadId, h: HeapId)
    requires Tasks(pages, heaps, owners) && h !in heaps && t in owners
    ensures Tasks(pages, heaps[h := Heap(t, [])], owners)
  {
    hide TaskOk;
    forall u | u in owners ensures TaskOk(pages, heaps[h := Heap(t, [])], u, owners[u]) {
      NewHeapTask(pages, heaps, u, owners[u], t, h);
    }
  }

  lemma NewHeapKeeps(s: State, g: History, t: ThreadId, h: HeapId)
    requires Inv(s, g) && t in s.owners && h !in s.heaps
    ensures Inv(s.(heaps := s.heaps[h := Heap(t, [])]), g)
  {
    hide BlocksOfPages, DelayedLists, TodoLists, LiveBlocks, HandBlocks, Locks, LandedBlocks, FreerHeaps,
      DelayedBlocks, TodoBlocks, Tasks, HeapsOfPages, NotLost;
    NewHeapLists(s.pages, s.heaps, s.freers, s.owners, g.at, t, h);
    NewHeapTasks(s.pages, s.heaps, s.owners, t, h);
  }

  // ---------------------------------------------------------------------------------------------
  // Freeing the memory of a heap
  // ---------------------------------------------------------------------------------------------

  lemma EndHeapFreers(pages: Pages, heaps: Heaps, freers: Freers, owners: Owners, at: Places, h: HeapId)
    requires DelayedLists(heaps, at) && h in heaps && heaps[h].delayed == [] && NoPages(pages, h)
    requires heaps[h].thread in owners && !owners[heaps[h].thread].task.AbsorbSpin?
    requires HeapsOfPages(pages, heaps, owners) && FreerHeaps(pages, heaps, freers, owners)
    requires DelayedBlocks(pages, heaps, owners, at)
    ensures DelayedLists(heaps - {h}, at)
    ensures HeapsOfPages(pages, heaps - {h}, owners) && FreerHeaps(pages, heaps - {h}, freers, owners)
    ensures DelayedBlocks(pages, heaps - {h}, owners, at)
  {
    assert ListIs(heaps[h].delayed, at, InDelayed(h));
    forall b | b in at ensures at[b] != InDelayed(h) { assert !IsAt(at, b, InDelayed(h)); }
    forall b | b in freers && (freers[b].HasHeap? || freers[b].HasDelayed?) ensures freers[b].heap != h {
      assert HeapOk(b.page, freers[b].heap, pages, heaps, owners);
      assert !PageIn(pages, h, b.page);
    }
    forall p | p in pages ensures PageHeapOk(pages[p], heaps - {h}, owners) {
      assert PageHeapOk(pages[p], heaps, owners);
      assert !PageIn(pages, h, p);
    }
  }

  lemma EndHeapTask(pages: Pages, heaps: Heaps, u: ThreadId, o: Owner, t: ThreadId, h: HeapId)
    requires TaskOk(pages, heaps, u, o) && h in heaps && heaps[h].thread == t && (u == t ==> o.task.Idle?)
    ensures TaskOk(pages, heaps - {h}, u, o)
  {
  }

  lemma EndHeapTasks(pages: Pages, heaps: Heaps, owners: Owners, t: ThreadId, h: HeapId)
    requires Tasks(pages, heaps, owners) && h in heaps && heaps[h].thread == t && t in owners && owners[t].task.Idle?
    ensures Tasks(pages, heaps - {h}, owners)
  {
    hide TaskOk;
    forall u | u in owners ensures TaskOk(pages, heaps - {h}, u, owners[u]) {
      EndHeapTask(pages, heaps, u, owners[u], t, h);
    }
  }

  lemma EndHeapKeeps(s: State, g: History, t: ThreadId, h: HeapId)
    requires Inv(s, g) && t in s.owners && s.owners[t].task.Idle?
    requires HeapOwned(s.heaps, t, h) && s.heaps[h].delayed == [] && NoPages(s.pages, h)
    ensures EndHeap(s, h).Ok? && Inv(EndHeap(s, h).state, g)
  {
    hide BlocksOfPages, DelayedLists, TodoLists, LiveBlocks, HandBlocks, Locks, LandedBlocks, FreerHeaps,
      DelayedBlocks, TodoBlocks, Tasks, HeapsOfPages, NotLost, NoPages;
    NoPagesOf(s, h);
    EndHeapFreers(s.pages, s.heaps, s.freers, s.owners, g.at, h);
    EndHeapTasks(s.pages, s.heaps, s.owners, t, h);
  }

  lemma NoPagesOf(s: State, h: HeapId)
    ensures PagesOf(s, h) == {} <==> NoPages(s.pages, h)
  {
    if PagesOf(s, h) == {} {
      forall p ensures !PageIn(s.pages, h, p) { assert p !in PagesOf(s, h); }
    }
    if NoPages(s.pages, h) {
      forall p ensures p !in PagesOf(s, h) { assert !PageIn(s.pages, h, p); }
    }
  }

  // ---------------------------------------------------------------------------------------------
  // Changing the owner or heap of a page nobody is locking or waiting for
  // ---------------------------------------------------------------------------------------------

  /** No freer holds the page's lock, and none of its blocks is on a delayed or todo list. */
  ghost predicate Detached(s: State, at: Places, p: PageId) {
    && p in s.pages && s.pages[p].flag != Freeing
    && forall b | b in at && b.page == p :: !at[b].InDelayed? && !at[b].InTodo?
  }

  lemma RehomeHomes(s: State, g: History, p: PageId, page: Page)
    requires Ownership(s, g.at) && Locks(s.pages, s.freers, g.lock) && Detached(s, g.at, p)
    requires PageHeapOk(page, s.heaps, s.owners)
    ensures HeapsOfPages(s.pages[p := page], s.heaps, s.owners)
    ensures FreerHeaps(s.pages[p := page], s.heaps, s.freers, s.owners)
    ensures DelayedBlocks(s.pages[p := page], s.heaps, s.owners, g.at) && TodoBlocks(s.pages[p := page], g.at)
  {
    forall b | b in s.freers && (s.freers[b].HasHeap? || s.freers[b].HasDelayed?)
      ensures b.page != p && HeapOk(b.page, s.freers[b].heap, s.pages[p := page], s.heaps, s.owners)
    {
      assert HoldsLock(s.freers[b]);
      assert HeapOk(b.page, s.freers[b].heap, s.pages, s.heaps, s.owners);
    }
  }

  /** The page gets a new owner and heap; its owner moves to a new task. */
  lemma RehomeKeeps(s: State, g: History, t: ThreadId, p: PageId, page: Page, o: Owner)
    requires Inv(s, g) && t in s.owners && Detached(s, g.at, p)
    requires s.pages[p].owner == Some(t) || s.pages[p].owner.None?
    requires page == s.pages[p].(owner := page.owner, heap := page.heap, inFull := page.inFull)
    requires PageHeapOk(page, s.heaps, s.owners) && (page.heap.Some? ==> HeapOwned(s.heaps, t, page.heap.value))
    requires CanMove(s.pages, s.owners[t], o) && TaskOk(s.pages[p := page], s.heaps, t, o)
    requires !s.owners[t].task.AbsorbSpin? && forall q :: !Collects(s.owners[t], q)
    ensures Inv(s.(pages := s.pages[p := page], owners := s.owners[t := o]), g)
  {
    hide BlocksOfPages, DelayedLists, TodoLists, LiveBlocks, HandBlocks, Locks, LandedBlocks, FreerHeaps,
      DelayedBlocks, TodoBlocks, Tasks, HeapsOfPages, NotLost, PageNotLost, TaskOk, Detached, CanMove, PageHeapOk;
    InvParts(s, g);
    var pages', owners' := s.pages[p := page], s.owners[t := o];
    DetachedPage(s, g.at, p);
    FlagChanges(s.pages, g.at, p, page);
    FlagLocks(s.pages, s.freers, g.lock, p, page);
    RehomeHomes(s, g, p, page);
    RehomeCanMove(s.pages, s.owners[t], o, p, page);
    RehomeTasks(s, t, p, page, o);
    MoveTodo(s.owners, g.at, t, o);
    MoveLanded(pages', s.freers, g.lock, s.owners, g.at, t, o);
    MoveFreerHeaps(pages', s.heaps, s.freers, g.lock, s.owners, t, o);
    MoveDelayed(pages', s.heaps, s.owners, g.at, t, o);
    RehomeNotLost(s.pages, s.owners, g.at, p, page);
    MoveNotLost(pages', s.owners, g.at, t, o);
  }

  lemma DetachedPage(s: State, at: Places, p: PageId)
    requires Detached(s, at, p)
    ensures p in s.pages && s.pages[p].flag != Freeing
  {
  }

  lemma RehomeCanMove(pages: Pages, o: Owner, o': Owner, p: PageId, page: Page)
    requires CanMove(pages, o, o') && p in pages && page.flag == pages[p].flag && page.tfree == pages[p].tfree
    ensures CanMove(pages[p := page], o, o') && o'.todo == o.todo
  {
  }

  lemma RehomeNotLost(pages: Pages, owners: Owners, at: Places, p: PageId, page: Page)
    requires NotLost(pages, owners, at) && p in pages && page.flag == pages[p].flag && page.tfree == pages[p].tfree
    ensures NotLost(pages[p := page], owners, at)
  {
    hide HasWaiting, AboutToCollect;
    assert PageNotLost(p, pages[p], owners, at);
  }

  lemma RehomeTasks(s: State, t: ThreadId, p: PageId, page: Page, o: Owner)
    requires HeapsOfPages(s.pages, s.heaps, s.owners) && Tasks(s.pages, s.heaps, s.owners) && t in s.owners
    requires p in s.pages && (s.pages[p].owner == Some(t) || s.pages[p].owner.None?)
    requires page.heap.Some? ==> HeapOwned(s.heaps, t, page.heap.value)
    requires TaskOk(s.pages[p := page], s.heaps, t, o)
    ensures Tasks(s.pages[p := page], s.heaps, s.owners[t := o])
  {
    hide TaskOk;
    forall u | u in s.owners ensures TaskOk(s.pages[p := page], s.heaps, u, s.owners[t := o][u]) {
      if u != t { OthersTask(s.pages, s.heaps, s.owners, t, u, s.owners[u], p, page); }
    }
  }

  lemma NoDelayedBlock(s: State, at: Places, p: PageId)
    requires DelayedBlocks(s.pages, s.heaps, s.owners, at) && TodoBlocks(s.pages, at)
    requires p in s.pages && s.pages[p].heap.None?
    ensures forall b | b in at && b.page == p :: !at[b].InDelayed? && !at[b].InTodo?
  {
  }

  /** A page without a heap is detached. */
  lemma HeaplessDetached(s: State, g: History, p: PageId)
    requires Inv(s, g) && p in s.pages && s.pages[p].heap.None?
    ensures Detached(s, g.at, p) && s.pages[p].flag == Never
  {
    assert PageHeapOk(s.pages[p], s.heaps, s.owners);
    NoDelayedBlock(s, g.at, p);
  }

  /**
   A page about to be abandoned is detached: it is NEVER_DELAYED_FREE, the delayed list of its heap
   is drained and its owner has nothing left to do.
   */
  lemma AbandonedDetached(s: State, g: History, t: ThreadId)
    requires Inv(s, g) && t in s.owners && s.owners[t].task.AbandonDecide?
    ensures var p := s.owners[t].task.page;
      Detached(s, g.at, p) && s.pages[p].flag == Never && s.pages[p].owner == Some(t)
    ensures HeapOwned(s.heaps, t, s.owners[t].task.heap) && s.heaps[s.owners[t].task.heap].delayed == []
  {
    hide BlocksOfPages, Locks, LandedBlocks, FreerHeaps, NotLost, LiveBlocks, HandBlocks;
    var o, p, h := s.owners[t], s.owners[t].task.page, s.owners[t].task.heap;
    assert TaskOk(s.pages, s.heaps, t, o);
    assert PageHeapOk(s.pages[p], s.heaps, s.owners);
    assert ListIs(s.heaps[h].delayed, g.at, InDelayed(h));
    assert ListIs(o.todo, g.at, InTodo(t));
    forall b | b in g.at && b.page == p ensures !g.at[b].InDelayed? && !g.at[b].InTodo? {
      assert !IsAt(g.at, b, InDelayed(h));
      assert !IsAt(g.at, b, InTodo(t));
    }
  }

  // ---------------------------------------------------------------------------------------------
  // Moving a page to the absorbing heap
  // ---------------------------------------------------------------------------------------------

  lemma AbsorbHomes(s: State, g: History, t: ThreadId, p: PageId, page: Page, o: Owner)
    requires Inv(s, g) && t in s.owners && CanAct(s, t, DoAbsorbPage(p))
    requires page == s.pages[p].(heap := Some(s.owners[t].task.to))
    requires o == s.owners[t].(task := AbsorbSpin(s.owners[t].task.from, s.owners[t].task.to, p), seen := Nothing)
    ensures HeapOwned(s.heaps, t, s.owners[t].task.to) && s.pages[p].owner == Some(t)
    ensures HeapsOfPages(s.pages[p := page], s.heaps, s.owners[t := o])
    ensures FreerHeaps(s.pages[p := page], s.heaps, s.freers, s.owners[t := o])
    ensures DelayedBlocks(s.pages[p := page], s.heaps, s.owners[t := o], g.at) && TodoBlocks(s.pages[p := page], g.at)
  {
    hide BlocksOfPages, DelayedLists, TodoLists, Locks, LandedBlocks, NotLost, LiveBlocks, HandBlocks;
    var pages', owners' := s.pages[p := page], s.owners[t := o];
    assert TaskOk(s.pages, s.heaps, t, s.owners[t]);
    assert PageHeapOk(s.pages[p], s.heaps, s.owners);
    forall b | b in s.freers && (s.freers[b].HasHeap? || s.freers[b].HasDelayed?)
      ensures HeapOk(b.page, s.freers[b].heap, pages', s.heaps, owners')
    {
      assert HeapOk(b.page, s.freers[b].heap, s.pages, s.heaps, s.owners);
    }
    forall b | b in g.at && g.at[b].InDelayed? ensures DelayedOk(b.page, g.at[b].heap, pages', s.heaps, owners') {
      assert DelayedOk(b.page, g.at[b].heap, s.pages, s.heaps, s.owners);
    }
    forall q | q in pages' ensures PageHeapOk(pages'[q], s.heaps, owners') {
      assert q != p ==> PageHeapOk(s.pages[q], s.heaps, s.owners);
    }
  }

  lemma AbsorbOwnTask(s: State, t: ThreadId, p: PageId, page: Page)
    requires t in s.owners && TaskOk(s.pages, s.heaps, t, s.owners[t]) && CanAct(s, t, DoAbsorbPage(p))
    requires page == s.pages[p].(heap := Some(s.owners[t].task.to))
    ensures var o := s.owners[t];
      TaskOk(s.pages[p := page], s.heaps, t, o.(task := AbsorbSpin(o.task.from, o.task.to, p), seen := Nothing))
  {
  }

  lemma AbsorbCanMove(pages: Pages, o: Owner, p: PageId)
    requires o.task.AbsorbPages? && o.todo == []
    ensures CanMove(pages, o, o.(task := AbsorbSpin(o.task.from, o.task.to, p), seen := Nothing))
  {
  }

  lemma AbsorbPageKeeps(s: State, g: History, t: ThreadId, p: PageId)
    requires Inv(s, g) && t in s.owners && CanAct(s, t, DoAbsorbPage(p))
    ensures Inv(Act(s, t, DoAbsorbPage(p)).state, g)
  {
    hide BlocksOfPages, DelayedLists, TodoLists, LiveBlocks, HandBlocks, Locks, LandedBlocks, FreerHeaps,
      DelayedBlocks, TodoBlocks, Tasks, HeapsOfPages, NotLost, PageNotLost, TaskOk, CanMove;
    InvParts(s, g);
    OwnerTaskOk(s, g, t);
    var page := s.pages[p].(heap := Some(s.owners[t].task.to));
    var o := s.owners[t].(task := AbsorbSpin(s.owners[t].task.from, s.owners[t].task.to, p), seen := Nothing);
    var pages', owners' := s.pages[p := page], s.owners[t := o];
    AbsorbHomes(s, g, t, p, page, o);
    AbsorbOwnTask(s, t, p, page);
    AbsorbCanMove(s.pages, s.owners[t], p);
    RehomeTasks(s, t, p, page, o);
    FlagChanges(s.pages, g.at, p, page);
    FlagLocks(s.pages, s.freers, g.lock, p, page);
    MoveTodo(s.owners, g.at, t, o);
    MoveLanded(s.pages, s.freers, g.lock, s.owners, g.at, t, o);
    MoveNotLost(s.pages, s.owners, g.at, t, o);
    RehomeNotLost(s.pages, owners', g.at, p, page);
  }
}
