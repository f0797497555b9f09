/** Every step of a freeing thread keeps the invariant. */
module FreerSteps {
  import opened Options
  import opened FreeProtocol
  import opened FreeInvariant
  import opened FreeFrames

  // ---------------------------------------------------------------------------------------------
  // What a freer knows
  // ---------------------------------------------------------------------------------------------

  /** The page of a block that is being freed is in use; under the lock its heap is alive. */
  lemma FreerPage(s: State, g: History, b: Block)
    requires Inv(s, g) && b in s.freers
    ensures b.page in s.pages && b in g.at
    ensures HasBlock(s.freers[b]) <==> g.at[b] == InHand
  {
    if HasBlock(s.freers[b]) {
      assert IsAt(g.at, b, InHand);
    } else {
      assert Waiting(s.owners, g.at, b);
    }
  }

  lemma FreerHeap(s: State, g: History, b: Block)
    requires Inv(s, g) && b in s.freers && HoldsLock(s.freers[b])
    ensures b.page in s.pages && s.pages[b.page].flag == Freeing && s.pages[b.page].heap.Some?
    ensures HeapOk(b.page, s.pages[b.page].heap.value, s.pages, s.heaps, s.owners)
    ensures s.freers[b].HasHeap? || s.freers[b].HasDelayed? ==>
      HeapOk(b.page, s.freers[b].heap, s.pages, s.heaps, s.owners)
  {
    FreerPage(s, g, b);
    assert PageHeapOk(s.pages[b.page], s.heaps, s.owners);
  }

  // ---------------------------------------------------------------------------------------------
  // Only the program counter changes
  // ---------------------------------------------------------------------------------------------

  lemma CounterLocks(pages: Pages, freers: Freers, lock: LockMap, b: Block, f: Freer)
    requires Locks(pages, freers, lock) && b in freers && HoldsLock(f) == HoldsLock(freers[b])
    ensures Locks(pages, freers[b := f], lock)
  {
  }

  lemma CounterHeaps(pages: Pages, heaps: Heaps, freers: Freers, owners: Owners, b: Block, f: Freer)
    requires FreerHeaps(pages, heaps, freers, owners)
    requires f.HasHeap? || f.HasDelayed? ==> HeapOk(b.page, f.heap, pages, heaps, owners)
    ensures FreerHeaps(pages, heaps, freers[b := f], owners)
  {
  }

  lemma CounterHands(freers: Freers, at: Places, owners: Owners, b: Block, f: Freer)
    requires b in freers && HasBlock(f) == HasBlock(freers[b])
    requires HandBlocks(freers, at) && LandedBlocks(freers, owners, at)
    ensures HandBlocks(freers[b := f], at) && LandedBlocks(freers[b := f], owners, at)
  {
  }

  lemma CounterMoves(s: State, g: History, b: Block, f: Freer)
    requires Inv(s, g) && b in s.freers
    requires HoldsLock(f) == HoldsLock(s.freers[b]) && HasBlock(f) == HasBlock(s.freers[b])
    requires f.HasHeap? || f.HasDelayed? ==> HeapOk(b.page, f.heap, s.pages, s.heaps, s.owners)
    ensures Inv(s.(freers := s.freers[b := f]), g)
  {
    hide *;
    InvParts(s, g);
    CounterHands(s.freers, g.at, s.owners, b, f);
    CounterLocks(s.pages, s.freers, g.lock, b, f);
    CounterHeaps(s.pages, s.heaps, s.freers, s.owners, b, f);
    PartsInv(s.(freers := s.freers[b := f]), g);
  }

  // ---------------------------------------------------------------------------------------------
  // A live block is handed to a freeing thread
  // ---------------------------------------------------------------------------------------------

  lemma StartFreers(pages: Pages, heaps: Heaps, freers: Freers, owners: Owners, at: Places, lock: LockMap, b: Block)
    requires b in at && at[b] == IsLive
    requires HandBlocks(freers, at) && LandedBlocks(freers, owners, at)
    requires Locks(pages, freers, lock) && FreerHeaps(pages, heaps, freers, owners)
    ensures b !in freers
    ensures HandBlocks(freers[b := Begin], at[b := InHand])
    ensures LandedBlocks(freers[b := Begin], owners, at[b := InHand])
    ensures Locks(pages, freers[b := Begin], lock)
    ensures FreerHeaps(pages, heaps, freers[b := Begin], owners)
  {
    var at' := at[b := InHand];
    assert !IsAt(at, b, InHand);
    forall c ensures c in freers[b := Begin] && HasBlock(freers[b := Begin][c]) <==> IsAt(at', c, InHand) {
      assert c in freers && HasBlock(freers[c]) <==> IsAt(at, c, InHand);
    }
  }

  lemma StartLive(live: set<Block>, at: Places, b: Block)
    requires LiveBlocks(live, at) && b in live
    ensures b in at && at[b] == IsLive
    ensures LiveBlocks(live - {b}, at[b := InHand])
  {
    assert IsAt(at, b, IsLive);
    forall c ensures c in live - {b} <==> IsAt(at[b := InHand], c, IsLive) {
      assert c in live <==> IsAt(at, c, IsLive);
    }
  }

  /** Moving a live block into a freer's hands disturbs no list of a page, heap or owner. */
  lemma LiveToHand(at: Places, b: Block)
    requires b in at && at[b] == IsLive
    ensures var at' := at[b := InHand];
      at'.Keys == at.Keys && Same(at, at', PageKind) && Same(at, at', DelayedKind) && Same(at, at', TodoKind)
  {
  }

  lemma StartFreeKeeps(s: State, g: History, b: Block) returns (g': History)
    requires Inv(s, g) && b in s.live
    ensures Inv(s.(live := s.live - {b}, freers := s.freers[b := Begin]), g')
  {
    hide *;
    g' := g.(at := g.at[b := InHand]);
    InvParts(s, g);
    StartLive(s.live, g.at, b);
    StartFreers(s.pages, s.heaps, s.freers, s.owners, g.at, g.lock, b);
    LiveToHand(g.at, b);
    PagesSame(s.pages, g.at, g'.at);
    DelayedSame(s.heaps, g.at, g'.at);
    TodoSame(s.owners, g.at, g'.at);
    DelayedBlocksSame(s.pages, s.heaps, s.owners, g.at, g'.at);
    TodoBlocksSame(s.pages, g.at, g'.at);
    NotLostSame(s.pages, s.owners, g.at, g'.at);
    PartsInv(s.(live := s.live - {b}, freers := s.freers[b := Begin]), g');
  }

  // ---------------------------------------------------------------------------------------------
  // Setting and resetting DELAYED_FREEING
  // ---------------------------------------------------------------------------------------------

  lemma LockFreers(pages: Pages, heaps: Heaps, freers: Freers, owners: Owners, at: Places, lock: LockMap, b: Block, page: Page)
    requires Locks(pages, freers, lock) && FreerHeaps(pages, heaps, freers, owners)
    requires HandBlocks(freers, at) && LandedBlocks(freers, owners, at)
    requires b in freers && freers[b].HasWord? && b.page in pages
    requires pages[b.page].flag == UseDelayed && page == pages[b.page].(flag := Freeing)
    ensures Locks(pages[b.page := page], freers[b := Locked], lock[b.page := b])
    ensures FreerHeaps(pages, heaps, freers[b := Locked], owners)
    ensures HandBlocks(freers[b := Locked], at) && LandedBlocks(freers[b := Locked], owners, at)
  {
    assert b.page !in lock;
    CounterHands(freers, at, owners, b, Locked);
  }

  /** A page whose flag changes between USE, FREEING and NO keeps everything but the lock. */
  lemma FlagKeeps(s: State, g: History, p: PageId, page: Page)
    requires Inv(s, g) && p in s.pages && page == s.pages[p].(flag := page.flag)
    requires page.flag != Never && s.pages[p].flag != Never && PageNotLost(p, page, s.owners, g.at)
    ensures BlocksOfPages(s.pages[p := page], g.at)
    ensures HeapsOfPages(s.pages[p := page], s.heaps, s.owners) && Tasks(s.pages[p := page], s.heaps, s.owners)
    ensures DelayedBlocks(s.pages[p := page], s.heaps, s.owners, g.at) && TodoBlocks(s.pages[p := page], g.at)
    ensures NotLost(s.pages[p := page], s.owners, g.at)
    ensures SameHome(s.pages[p], page)
  {
    hide BlocksOfPages, DelayedLists, TodoLists, LiveBlocks, HandBlocks, Locks, LandedBlocks, HeapsOfPages, FreerHeaps,
      DelayedBlocks, TodoBlocks, Tasks, NotLost, PageNotLost;
    FlagChanges(s.pages, g.at, p, page);
    HomesSame(s, g.at, p, page);
    HeapsOfPagesSame(s.pages, s.heaps, s.owners, p, page);
    TasksSame(s.pages, s.heaps, s.owners, p, page);
    PageNotLostChanges(s.pages, s.owners, g.at, p, page);
  }

  lemma FreerHomesSame(pages: Pages, heaps: Heaps, freers: Freers, owners: Owners, p: PageId, page: Page)
    requires p in pages && SameHome(pages[p], page) && FreerHeaps(pages, heaps, freers, owners)
    ensures FreerHeaps(pages[p := page], heaps, freers, owners)
  {
  }

  lemma LockKeeps(s: State, g: History, b: Block) returns (g': History)
    requires Inv(s, g) && b in s.freers && s.freers[b].HasWord? && b.page in s.pages
    requires s.pages[b.page].flag == UseDelayed
    ensures Inv(s.(pages := s.pages[b.page := s.pages[b.page].(flag := Freeing)], freers := s.freers[b := Locked]), g')
  {
    hide BlocksOfPages, DelayedLists, TodoLists, LiveBlocks, HandBlocks, Locks, LandedBlocks, HeapsOfPages, FreerHeaps,
      DelayedBlocks, TodoBlocks, Tasks, NotLost, SameHome;
    var p, page := b.page, s.pages[b.page].(flag := Freeing);
    g' := g.(lock := g.lock[p := b]);
    LockFreers(s.pages, s.heaps, s.freers, s.owners, g.at, g.lock, b, page);
    FlagKeeps(s, g, p, page);
    FreerHomesSame(s.pages, s.heaps, s.freers[b := Locked], s.owners, p, page);
  }

  lemma UnlockFreers(pages: Pages, heaps: Heaps, freers: Freers, owners: Owners, at: Places, lock: LockMap, b: Block, page: Page)
    requires Locks(pages, freers, lock) && FreerHeaps(pages, heaps, freers, owners)
    requires HandBlocks(freers, at) && LandedBlocks(freers, owners, at)
    requires b in freers && freers[b].Resetting? && b.page in pages && page == pages[b.page].(flag := NoDelayed)
    ensures pages[b.page].flag == Freeing && Waiting(owners, at, b)
    ensures Locks(pages[b.page := page], freers - {b}, lock - {b.page})
    ensures FreerHeaps(pages, heaps, freers - {b}, owners)
    ensures HandBlocks(freers - {b}, at) && LandedBlocks(freers - {b}, owners, at)
  {
  }

  lemma UnlockKeeps(s: State, g: History, b: Block) returns (g': History)
    requires Inv(s, g) && b in s.freers && s.freers[b].Resetting? && b.page in s.pages
    ensures Inv(s.(pages := s.pages[b.page := s.pages[b.page].(flag := NoDelayed)], freers := s.freers - {b}), g')
  {
    hide BlocksOfPages, DelayedLists, TodoLists, LiveBlocks, HandBlocks, Locks, LandedBlocks, HeapsOfPages, FreerHeaps,
      DelayedBlocks, TodoBlocks, Tasks, NotLost, SameHome;
    var p, page := b.page, s.pages[b.page].(flag := NoDelayed);
    g' := g.(lock := g.lock - {p});
    UnlockFreers(s.pages, s.heaps, s.freers, s.owners, g.at, g.lock, b, page);
    assert HasWaiting(s.owners, g.at, p);
    FlagKeeps(s, g, p, page);
    FreerHomesSame(s.pages, s.heaps, s.freers - {b}, s.owners, p, page);
  }

  // ---------------------------------------------------------------------------------------------
  // Pushing on the thread-free list
  // ---------------------------------------------------------------------------------------------

  lemma PushFreers(pages: Pages, heaps: Heaps, freers: Freers, owners: Owners, at: Places, lock: LockMap, b: Block, page: Page)
    requires Locks(pages, freers, lock) && FreerHeaps(pages, heaps, freers, owners)
    requires HandBlocks(freers, at) && LandedBlocks(freers, owners, at)
    requires b in freers && freers[b].HasWord? && b.page in pages
    requires page == pages[b.page].(tfree := [b] + pages[b.page].tfree)
    ensures Locks(pages[b.page := page], freers - {b}, lock)
    ensures FreerHeaps(pages[b.page := page], heaps, freers - {b}, owners)
    ensures HandBlocks(freers - {b}, at[b := InThreadFree])
    ensures LandedBlocks(freers - {b}, owners, at[b := InThreadFree])
  {
    var at' := at[b := InThreadFree];
    assert IsAt(at, b, InHand);
    forall c ensures c in freers - {b} && HasBlock((freers - {b})[c]) <==> IsAt(at', c, InHand) {
      assert c in freers && HasBlock(freers[c]) <==> IsAt(at, c, InHand);
    }
  }

  lemma PushPage(pages: Pages, at: Places, b: Block, page: Page)
    requires BlocksOfPages(pages, at) && b in at && at[b] == InHand && b.page in pages
    requires page == pages[b.page].(tfree := [b] + pages[b.page].tfree)
    ensures BlocksOfPages(pages[b.page := page], at[b := InThreadFree])
  {
    var p, at', before := b.page, at[b := InThreadFree], pages[b.page];
    assert PageOk(p, before, at);
    Prepend(b, before.tfree);
    assert PageOk(p, page, at') by {
      forall c: Block ensures c in page.tfree <==> c.page == p && IsAt(at', c, InThreadFree) {
        assert c in before.tfree <==> c.page == p && IsAt(at, c, InThreadFree);
      }
      forall c: Block ensures IsAt(at, c, InFree) == IsAt(at', c, InFree) {}
      forall c: Block ensures IsAt(at, c, InLocal) == IsAt(at', c, InLocal) {}
    }
    PageChanges(pages, at, at', p, page);
  }

  lemma PushOwnership(s: State, at: Places, b: Block, page: Page)
    requires Ownership(s, at) && NotLost(s.pages, s.owners, at)
    requires b.page in s.pages && page == s.pages[b.page].(tfree := [b] + s.pages[b.page].tfree)
    requires s.pages[b.page].flag != UseDelayed
    ensures HeapsOfPages(s.pages[b.page := page], s.heaps, s.owners)
    ensures DelayedBlocks(s.pages[b.page := page], s.heaps, s.owners, at) && TodoBlocks(s.pages[b.page := page], at)
    ensures Tasks(s.pages[b.page := page], s.heaps, s.owners)
    ensures NotLost(s.pages[b.page := page], s.owners, at)
  {
    hide DelayedBlocks, TodoBlocks, Tasks, FreerHeaps, HeapsOfPages, HasWaiting;
    var p := b.page;
    HomesSame(s, at, p, page);
    HeapsOfPagesSame(s.pages, s.heaps, s.owners, p, page);
    TasksSame(s.pages, s.heaps, s.owners, p, page);
    assert PageNotLost(p, s.pages[p], s.owners, at);
    PageNotLostChanges(s.pages, s.owners, at, p, page);
  }

  /** Moving a block from a freer's hands to the thread-free list disturbs only those two. */
  lemma HandToThreadFree(at: Places, b: Block)
    requires b in at && at[b] == InHand
    ensures var at' := at[b := InThreadFree];
      at'.Keys == at.Keys && Same(at, at', LiveKind) && Same(at, at', DelayedKind) && Same(at, at', TodoKind)
  {
  }

  lemma PushKeeps(s: State, g: History, b: Block) returns (g': History)
    requires Inv(s, g) && b in s.freers && s.freers[b].HasWord? && b.page in s.pages && b in g.at && g.at[b] == InHand
    requires s.pages[b.page].flag != UseDelayed
    ensures Inv(s.(pages := s.pages[b.page := s.pages[b.page].(tfree := [b] + s.pages[b.page].tfree)],
                   freers := s.freers - {b}), g')
  {
    hide BlocksOfPages, DelayedLists, TodoLists, LiveBlocks, HandBlocks, Locks, LandedBlocks, HeapsOfPages, FreerHeaps,
      DelayedBlocks, TodoBlocks, Tasks, NotLost, Same;
    var p, page := b.page, s.pages[b.page].(tfree := [b] + s.pages[b.page].tfree);
    g' := g.(at := g.at[b := InThreadFree]);
    PushFreers(s.pages, s.heaps, s.freers, s.owners, g.at, g.lock, b, page);
    PushPage(s.pages, g.at, b, page);
    PushOwnership(s, g.at, b, page);
    HandToThreadFree(g.at, b);
    DelayedSame(s.heaps, g.at, g'.at);
    TodoSame(s.owners, g.at, g'.at);
    LiveSame(s.live, g.at, g'.at);
    DelayedBlocksSame(s.pages[p := page], s.heaps, s.owners, g.at, g'.at);
    TodoBlocksSame(s.pages[p := page], g.at, g'.at);
    NotLostSame(s.pages[p := page], s.owners, g.at, g'.at);
  }

  // ---------------------------------------------------------------------------------------------
  // Pushing on the delayed list of a heap
  // ---------------------------------------------------------------------------------------------

  lemma LandLists(heaps: Heaps, freers: Freers, owners: Owners, at: Places, b: Block, h: HeapId, heap: Heap)
    requires DelayedLists(heaps, at) && HandBlocks(freers, at) && LandedBlocks(freers, owners, at)
    requires b in freers && HasBlock(freers[b]) && h in heaps
    requires heap == heaps[h].(delayed := [b] + heaps[h].delayed)
    ensures DelayedLists(heaps[h := heap], at[b := InDelayed(h)])
    ensures HandBlocks(freers[b := Landed], at[b := InDelayed(h)])
    ensures LandedBlocks(freers[b := Landed], owners, at[b := InDelayed(h)])
  {
    var at' := at[b := InDelayed(h)];
    assert IsAt(at, b, InHand);
    assert ListIs(heaps[h].delayed, at, InDelayed(h));
    Prepend(b, heaps[h].delayed);
    forall k | k in heaps ensures ListIs(heaps[h := heap][k].delayed, at', InDelayed(k)) {
      assert ListIs(heaps[k].delayed, at, InDelayed(k));
      forall c ensures IsAt(at', c, InDelayed(k)) == (IsAt(at, c, InDelayed(k)) || (c == b && k == h)) {}
    }
    forall c ensures c in freers[b := Landed] && HasBlock(freers[b := Landed][c]) <==> IsAt(at', c, InHand) {
      assert c in freers && HasBlock(freers[c]) <==> IsAt(at, c, InHand);
    }
  }

  lemma NotInHeap(pages: Pages, h: HeapId, p: PageId)
    requires NoPages(pages, h)
    ensures p in pages ==> pages[p].heap != Some(h)
  {
    assert !PageIn(pages, h, p);
  }

  /** No task counts on the delayed list of `h` staying empty while a freer can still push on it. */
  lemma LandTask(pages: Pages, heaps: Heaps, owners: Owners, t: ThreadId, p: PageId, h: HeapId, heap: Heap)
    requires t in owners && TaskOk(pages, heaps, t, owners[t])
    requires HeapOk(p, h, pages, heaps, owners) && pages[p].flag == Freeing && heap.thread == heaps[h].thread
    ensures TaskOk(pages, heaps[h := heap], t, owners[t])
  {
    var task := owners[t].task;
    if task.AbsorbEnd? && task.from == h {
      NotInHeap(pages, h, p);
      assert false;
    } else if (task.AbandonVisit? || task.AbandonCollect? || task.AbandonDecide?) && task.heap == h {
      assert PageIn(pages, h, p);
    }
  }

  lemma LandTasks(pages: Pages, heaps: Heaps, owners: Owners, p: PageId, h: HeapId, heap: Heap)
    requires Tasks(pages, heaps, owners)
    requires HeapOk(p, h, pages, heaps, owners) && pages[p].flag == Freeing && heap.thread == heaps[h].thread
    ensures Tasks(pages, heaps[h := heap], owners)
  {
    hide TaskOk;
    forall t | t in owners ensures TaskOk(pages, heaps[h := heap], t, owners[t]) {
      LandTask(pages, heaps, owners, t, p, h, heap);
    }
  }

  lemma LandHomes(s: State, at: Places, b: Block, h: HeapId, heap: Heap)
    requires HeapOk(b.page, h, s.pages, s.heaps, s.owners)
    requires heap.thread == s.heaps[h].thread
    requires HeapsOfPages(s.pages, s.heaps, s.owners) && FreerHeaps(s.pages, s.heaps, s.freers, s.owners)
    requires DelayedBlocks(s.pages, s.heaps, s.owners, at) && TodoBlocks(s.pages, at)
    requires b in at && at[b] == InHand
    ensures HeapsOfPages(s.pages, s.heaps[h := heap], s.owners)
    ensures FreerHeaps(s.pages, s.heaps[h := heap], s.freers[b := Landed], s.owners)
    ensures DelayedBlocks(s.pages, s.heaps[h := heap], s.owners, at[b := InDelayed(h)])
    ensures TodoBlocks(s.pages, at[b := InDelayed(h)])
  {
  }

  lemma LandNotLost(pages: Pages, owners: Owners, at: Places, b: Block, h: HeapId)
    requires NotLost(pages, owners, at) && b in at && at[b] == InHand
    ensures NotLost(pages, owners, at[b := InDelayed(h)])
  {
    var at' := at[b := InDelayed(h)];
    forall p | p in pages ensures PageNotLost(p, pages[p], owners, at') {
      assert PageNotLost(p, pages[p], owners, at);
      WaitingKept(owners, at, owners, at', p);
    }
  }

  lemma HandToDelayed(at: Places, b: Block, h: HeapId)
    requires b in at && at[b] == InHand
    ensures var at' := at[b := InDelayed(h)];
      at'.Keys == at.Keys && Same(at, at', LiveKind) && Same(at, at', PageKind) && Same(at, at', TodoKind)
  {
  }

  lemma LandKeeps(s: State, g: History, b: Block) returns (g': History)
    requires Inv(s, g) && b in s.freers && s.freers[b].HasDelayed? && s.freers[b].heap in s.heaps
    requires b in g.at && g.at[b] == InHand && b.page in s.pages && s.pages[b.page].flag == Freeing
    requires HeapOk(b.page, s.freers[b].heap, s.pages, s.heaps, s.owners)
    ensures var h := s.freers[b].heap;
      Inv(s.(heaps := s.heaps[h := s.heaps[h].(delayed := [b] + s.heaps[h].delayed)],
             freers := s.freers[b := Landed]), g')
  {
    hide BlocksOfPages, DelayedLists, TodoLists, LiveBlocks, HandBlocks, Locks, LandedBlocks, HeapsOfPages, FreerHeaps,
      DelayedBlocks, TodoBlocks, Tasks, NotLost, Same;
    var h := s.freers[b].heap;
    var heap := s.heaps[h].(delayed := [b] + s.heaps[h].delayed);
    g' := g.(at := g.at[b := InDelayed(h)]);
    LandLists(s.heaps, s.freers, s.owners, g.at, b, h, heap);
    LandTasks(s.pages, s.heaps, s.owners, b.page, h, heap);
    LandHomes(s, g.at, b, h, heap);
    LandNotLost(s.pages, s.owners, g.at, b, h);
    CounterLocks(s.pages, s.freers, g.lock, b, Landed);
    HandToDelayed(g.at, b, h);
    PagesSame(s.pages, g.at, g'.at);
    TodoSame(s.owners, g.at, g'.at);
    LiveSame(s.live, g.at, g'.at);
  }

  // ---------------------------------------------------------------------------------------------
  // All steps of a freeing thread
  // ---------------------------------------------------------------------------------------------

  lemma FreerStepKeeps(s: State, g: History, b: Block, ok: bool) returns (g': History)
    requires Inv(s, g) && b in s.freers
    ensures AdvanceFreer(s, b, ok).Ok? && Inv(AdvanceFreer(s, b, ok).state, g')
  {
    hide Inv;
    g' := g;
    FreerPage(s, g, b);
    if HoldsLock(s.freers[b]) {
      FreerHeap(s, g, b);
    }
    var page := s.pages[b.page];
    match s.freers[b]
    case Begin => CounterMoves(s, g, b, HasWord(WordOf(page)));
    case HasWord(w) =>
      if ok && WordOf(page) == w {
        if w.flag == UseDelayed {
          g' := LockKeeps(s, g, b);
        } else {
          g' := PushKeeps(s, g, b);
        }
      } else {
        CounterMoves(s, g, b, Begin);
      }
    case Locked => CounterMoves(s, g, b, HasHeap(page.heap.value));
    case HasHeap(h) => CounterMoves(s, g, b, HasDelayed(h, Head(s.heaps[h].delayed)));
    case HasDelayed(h, head) =>
      if ok && Head(s.heaps[h].delayed) == head {
        g' := LandKeeps(s, g, b);
      } else {
        CounterMoves(s, g, b, HasHeap(h));
      }
    case Landed => CounterMoves(s, g, b, Resetting(WordOf(page)));
    case Resetting(w) =>
      if ok && WordOf(page) == w {
        g' := UnlockKeeps(s, g, b);
      } else {
        CounterMoves(s, g, b, Landed);
      }
  }
}
