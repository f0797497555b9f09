/** The atomic loops of an owning thread keep the invariant. */
module OwnerLoops {
  import opened Options
  import opened FreeProtocol
  import opened FreeInvariant
  import opened FreeFrames

  // ---------------------------------------------------------------------------------------------
  // An owner moves on without touching its todo list
  // ---------------------------------------------------------------------------------------------

  /** The owner has spun for the page and will collect it next. */
  predicate Settled(pages: Pages, o: Owner, p: PageId) {
    p in pages && pages[p].flag != Freeing && pages[p].flag != NoDelayed && Collects(o, p)
  }

  ghost predicate CanMove(pages: Pages, o: Owner, o': Owner) {
    && o'.todo == o.todo
    && (forall b | Unspun(o, b) :: Unspun(o', b) || Settled(pages, o', b.page))
    && (o.task.AbsorbSpin? ==> o'.task == o.task || (o.task.page in pages && pages[o.task.page].flag != Freeing))
    && (forall p | p in pages && Collects(o, p) :: Collects(o', p) || pages[p].tfree == [])
    && (forall h | WillDrain(o, h) :: WillDrain(o', h))
  }

  lemma MoveTodo(owners: Owners, at: Places, t: ThreadId, o: Owner)
    requires TodoLists(owners, at) && t in owners && o.todo == owners[t].todo
    ensures TodoLists(owners[t := o], at)
  {
    forall u | u in owners ensures ListIs(owners[t := o][u].todo, at, InTodo(u)) {
      assert ListIs(owners[u].todo, at, InTodo(u));
    }
  }

  lemma MoveLanded(pages: Pages, freers: Freers, lock: LockMap, owners: Owners, at: Places, t: ThreadId, o: Owner)
    requires LandedBlocks(freers, owners, at) && Locks(pages, freers, lock)
    requires t in owners && CanMove(pages, owners[t], o)
    ensures LandedBlocks(freers, owners[t := o], at)
  {
    forall b | b in freers && !HasBlock(freers[b]) ensures Waiting(owners[t := o], at, b) {
      assert Waiting(owners, at, b);
      assert HoldsLock(freers[b]);
    }
  }

  lemma MoveFreerHeaps(pages: Pages, heaps: Heaps, freers: Freers, lock: LockMap, owners: Owners, t: ThreadId, o: Owner)
    requires FreerHeaps(pages, heaps, freers, owners) && Locks(pages, freers, lock)
    requires t in owners && CanMove(pages, owners[t], o)
    ensures FreerHeaps(pages, heaps, freers, owners[t := o])
  {
    forall b | b in freers && (freers[b].HasHeap? || freers[b].HasDelayed?)
      ensures HeapOk(b.page, freers[b].heap, pages, heaps, owners[t := o])
    {
      assert HoldsLock(freers[b]);
      assert HeapOk(b.page, freers[b].heap, pages, heaps, owners);
    }
  }

  lemma MoveDelayed(pages: Pages, heaps: Heaps, owners: Owners, at: Places, t: ThreadId, o: Owner)
    requires DelayedBlocks(pages, heaps, owners, at) && HeapsOfPages(pages, heaps, owners)
    requires t in owners && CanMove(pages, owners[t], o)
    ensures DelayedBlocks(pages, heaps, owners[t := o], at) && HeapsOfPages(pages, heaps, owners[t := o])
  {
    forall b | b in at && at[b].InDelayed? ensures DelayedOk(b.page, at[b].heap, pages, heaps, owners[t := o]) {
      assert DelayedOk(b.page, at[b].heap, pages, heaps, owners);
    }
    forall p | p in pages ensures PageHeapOk(pages[p], heaps, owners[t := o]) {
      assert PageHeapOk(pages[p], heaps, owners);
    }
  }

  lemma MoveTasks(pages: Pages, heaps: Heaps, owners: Owners, t: ThreadId, o: Owner)
    requires Tasks(pages, heaps, owners) && t in owners && TaskOk(pages, heaps, t, o)
    ensures Tasks(pages, heaps, owners[t := o])
  {
    hide TaskOk;
  }

  lemma MovePageNotLost(p: PageId, pages: Pages, owners: Owners, at: Places, t: ThreadId, o: Owner)
    requires p in pages && PageNotLost(p, pages[p], owners, at)
    requires t in owners && CanMove(pages, owners[t], o)
    ensures PageNotLost(p, pages[p], owners[t := o], at)
  {
    var owners' := owners[t := o];
    if HasWaiting(owners, at, p) {
      var b: Block :| b.page == p && Waiting(owners, at, b);
      if !Waiting(owners', at, b) {
        assert Unspun(owners[t], b);
        assert Collects(owners'[t], p);
      }
    }
    if AboutToCollect(owners, p) {
      var u :| u in owners && Collects(owners[u], p);
      assert Collects(owners'[u], p) || pages[p].tfree == [];
    }
  }

  lemma MoveNotLost(pages: Pages, owners: Owners, at: Places, t: ThreadId, o: Owner)
    requires NotLost(pages, owners, at)
    requires t in owners && CanMove(pages, owners[t], o)
    ensures NotLost(pages, owners[t := o], at)
  {
    hide CanMove, PageNotLost;
    forall p | p in pages ensures PageNotLost(p, pages[p], owners[t := o], at) {
      MovePageNotLost(p, pages, owners, at, t, o);
    }
  }

  lemma OwnerMoves(s: State, g: History, t: ThreadId, o: Owner)
    requires Inv(s, g) && t in s.owners
    requires CanMove(s.pages, s.owners[t], o) && TaskOk(s.pages, s.heaps, t, o)
    ensures Inv(s.(owners := s.owners[t := o]), g)
  {
    hide BlocksOfPages, DelayedLists, TodoLists, LiveBlocks, HandBlocks, Locks, LandedBlocks, HeapsOfPages, FreerHeaps,
      DelayedBlocks, TodoBlocks, Tasks, NotLost, TaskOk, Collects, Unspun, Settled, WillDrain;
    InvParts(s, g);
    MoveTodo(s.owners, g.at, t, o);
    MoveLanded(s.pages, s.freers, g.lock, s.owners, g.at, t, o);
    MoveFreerHeaps(s.pages, s.heaps, s.freers, g.lock, s.owners, t, o);
    MoveDelayed(s.pages, s.heaps, s.owners, g.at, t, o);
    MoveTasks(s.pages, s.heaps, s.owners, t, o);
    MoveNotLost(s.pages, s.owners, g.at, t, o);
    PartsInv(s.(owners := s.owners[t := o]), g);
  }

  // ---------------------------------------------------------------------------------------------
  // An owner changes one of its own pages
  // ---------------------------------------------------------------------------------------------

  /** The tasks of other owners do not mention a page of thread `t`. */
  lemma OthersTask(pages: Pages, heaps: Heaps, owners: Owners, t: ThreadId, u: ThreadId, o: Owner, p: PageId, page: Page)
    requires HeapsOfPages(pages, heaps, owners) && TaskOk(pages, heaps, u, o) && u != t
    requires p in pages && (pages[p].owner == Some(t) || pages[p].owner.None?)
    requires page.heap.Some? ==> HeapOwned(heaps, t, page.heap.value)
    ensures TaskOk(pages[p := page], heaps, u, o)
  {
    var pages' := pages[p := page];
    assert PageHeapOk(pages[p], heaps, owners);
    forall h, q {:trigger PageIn(pages', h, q)} | HeapOwned(heaps, u, h)
      ensures PageIn(pages', h, q) <==> PageIn(pages, h, q) && q != p
    {
      if q in pages { assert PageHeapOk(pages[q], heaps, owners); }
    }
    if o.task.AbsorbDrain? || o.task.AbsorbEnd? {
      assert NoPages(pages', o.task.from) by {
        forall q ensures !PageIn(pages', o.task.from, q) {
          assert !PageIn(pages, o.task.from, q);
        }
      }
    }
  }

  lemma OwnPageTasks(pages: Pages, heaps: Heaps, owners: Owners, t: ThreadId, p: PageId, page: Page)
    requires HeapsOfPages(pages, heaps, owners) && Tasks(pages, heaps, owners) && t in owners
    requires p in pages && (pages[p].owner == Some(t) || pages[p].owner.None?)
    requires page.heap.Some? ==> HeapOwned(heaps, t, page.heap.value)
    requires TaskOk(pages[p := page], heaps, t, owners[t])
    ensures Tasks(pages[p := page], heaps, owners)
  {
    hide TaskOk;
    forall u | u in owners ensures TaskOk(pages[p := page], heaps, u, owners[u]) {
      if u != t { OthersTask(pages, heaps, owners, t, u, owners[u], p, page); }
    }
  }

  lemma FlagLocks(pages: Pages, freers: Freers, lock: LockMap, p: PageId, page: Page)
    requires Locks(pages, freers, lock) && p in pages && (page.flag == Freeing <==> pages[p].flag == Freeing)
    ensures Locks(pages[p := page], freers, lock)
  {
  }

  lemma OnePageHeap(pages: Pages, heaps: Heaps, owners: Owners, p: PageId, page: Page)
    requires HeapsOfPages(pages, heaps, owners) && PageHeapOk(page, heaps, owners)
    ensures HeapsOfPages(pages[p := page], heaps, owners)
  {
  }

  /** An owner sets the flag of one of its pages. */
  lemma SetFlagKeeps(s: State, g: History, t: ThreadId, p: PageId, page: Page)
    requires Inv(s, g) && t in s.owners && p in s.pages && s.pages[p].owner == Some(t) && s.pages[p].heap.Some?
    requires page == s.pages[p].(flag := page.flag) && page.flag != Freeing && s.pages[p].flag != Freeing
    requires PageNotLost(p, page, s.owners, g.at)
    requires TaskOk(s.pages[p := page], s.heaps, t, s.owners[t])
    ensures Inv(s.(pages := s.pages[p := page]), g)
  {
    hide BlocksOfPages, DelayedLists, TodoLists, LiveBlocks, HandBlocks, Locks, LandedBlocks, FreerHeaps,
      DelayedBlocks, TodoBlocks, Tasks, NotLost, PageNotLost, TaskOk;
    InvParts(s, g);
    assert PageHeapOk(s.pages[p], s.heaps, s.owners);
    FlagChanges(s.pages, g.at, p, page);
    FlagLocks(s.pages, s.freers, g.lock, p, page);
    HomesSame(s, g.at, p, page);
    OnePageHeap(s.pages, s.heaps, s.owners, p, page);
    OwnPageTasks(s.pages, s.heaps, s.owners, t, p, page);
    PageNotLostChanges(s.pages, s.owners, g.at, p, page);
  }

  // ---------------------------------------------------------------------------------------------
  // _mi_page_use_delayed_free
  // ---------------------------------------------------------------------------------------------

  /** The page an owner spins for is its own. */
  lemma SpinPage(s: State, g: History, t: ThreadId)
    requires Inv(s, g) && t in s.owners && SpinTarget(s.owners[t]).Some?
    ensures PageOwned(s.pages, t, SpinTarget(s.owners[t]).value.page)
  {
    var o := s.owners[t];
    if o.todo != [] {
      assert o.todo[0] in o.todo;
      assert IsAt(g.at, o.todo[0], InTodo(t));
    } else {
      assert TaskOk(s.pages, s.heaps, t, o);
      assert PageHeapOk(s.pages[SpinTarget(o).value.page], s.heaps, s.owners);
    }
  }

  lemma SpinTask(pages: Pages, heaps: Heaps, t: ThreadId, o: Owner, page: Page)
    requires TaskOk(pages, heaps, t, o) && SpinTarget(o).Some? && SpinTarget(o).value.page in pages
    requires var call := SpinTarget(o).value;
      page == pages[call.page].(flag := page.flag) && !MustSet(call, page.flag) && page.flag != Freeing &&
      ((page.flag == call.delay && MustSet(call, pages[call.page].flag)) || page == pages[call.page])
    ensures TaskOk(pages[SpinTarget(o).value.page := page], heaps, t, o)
    ensures TaskOk(pages[SpinTarget(o).value.page := page], heaps, t, SpinDone(o))
  {
    var call := SpinTarget(o).value;
    var pages' := pages[call.page := page];
    forall h, q {:trigger PageIn(pages', h, q)} ensures PageIn(pages', h, q) <==> PageIn(pages, h, q) {}
    if o.task.AbsorbEnd? {
      assert NoPages(pages', o.task.from) by {
        forall q ensures !PageIn(pages', o.task.from, q) {
          assert !PageIn(pages, o.task.from, q);
        }
      }
    }
  }

  lemma SpinNotLost(s: State, g: History, t: ThreadId, page: Page)
    requires Inv(s, g) && t in s.owners && SpinTarget(s.owners[t]).Some?
    requires SpinTarget(s.owners[t]).value.page in s.pages
    requires var call := SpinTarget(s.owners[t]).value;
      page == s.pages[call.page].(flag := call.delay) && MustSet(call, s.pages[call.page].flag)
    ensures PageNotLost(SpinTarget(s.owners[t]).value.page, page, s.owners, g.at)
  {
    var o, p := s.owners[t], SpinTarget(s.owners[t]).value.page;
    assert PageNotLost(p, s.pages[p], s.owners, g.at);
    if o.todo != [] {
      assert o.todo[0] in o.todo;
      assert IsAt(g.at, o.todo[0], InTodo(t));
      assert Waiting(s.owners, g.at, o.todo[0]);
    } else if o.task.ReclaimSpin? {
      assert Collects(o, p);
    }
  }

  lemma SpinCanMove(pages: Pages, heaps: Heaps, t: ThreadId, o: Owner)
    requires TaskOk(pages, heaps, t, o) && SpinTarget(o).Some? && SpinTarget(o).value.page in pages
    requires var call := SpinTarget(o).value;
      pages[call.page].flag != Freeing && !MustSet(call, pages[call.page].flag)
    ensures CanMove(pages, o, SpinDone(o))
  {
    var o' := SpinDone(o);
    forall b | Unspun(o, b) ensures Unspun(o', b) || Settled(pages, o', b.page) {
      if b == o.todo[0] { assert Collects(o', b.page); }
    }
  }

  /** Only the register of an owner changes. */
  lemma SeenMoves(s: State, g: History, t: ThreadId, seen: Seen)
    requires Inv(s, g) && t in s.owners
    ensures Inv(s.(owners := s.owners[t := s.owners[t].(seen := seen)]), g)
  {
    var o := s.owners[t].(seen := seen);
    assert TaskOk(s.pages, s.heaps, t, s.owners[t]);
    SeenTask(s.pages, s.heaps, t, s.owners[t], seen);
    SeenCanMove(s.pages, s.owners[t], seen);
    OwnerMoves(s, g, t, o);
  }

  lemma SeenTask(pages: Pages, heaps: Heaps, t: ThreadId, o: Owner, seen: Seen)
    requires TaskOk(pages, heaps, t, o)
    ensures TaskOk(pages, heaps, t, o.(seen := seen))
  {
  }

  lemma SeenCanMove(pages: Pages, o: Owner, seen: Seen)
    ensures CanMove(pages, o, o.(seen := seen))
  {
  }

  lemma OwnerTaskOk(s: State, g: History, t: ThreadId)
    requires Inv(s, g) && t in s.owners
    ensures TaskOk(s.pages, s.heaps, t, s.owners[t])
  {
  }

  /** The loop ends with a flag that passes its tests. */
  lemma SpinEnds(s: State, g: History, t: ThreadId, page: Page)
    requires Inv(s, g) && t in s.owners && SpinTarget(s.owners[t]).Some?
    requires PageOwned(s.pages, t, SpinTarget(s.owners[t]).value.page)
    requires var call := SpinTarget(s.owners[t]).value;
      var before := s.pages[call.page];
      before.flag != Freeing &&
      page == if MustSet(call, before.flag) then before.(flag := call.delay) else before
    ensures Inv(WithOwner(WithPage(s, SpinTarget(s.owners[t]).value.page, page), t, SpinDone(s.owners[t])), g)
  {
    hide Inv, CanMove, TaskOk, SpinDone, PageNotLost;
    var o, call := s.owners[t], SpinTarget(s.owners[t]).value;
    var s1 := WithPage(s, call.page, page);
    assert SpinTarget(o).value.delay != Freeing;
    OwnerTaskOk(s, g, t);
    SpinTask(s.pages, s.heaps, t, o, page);
    if MustSet(call, s.pages[call.page].flag) {
      SpinNotLost(s, g, t, page);
      SetFlagKeeps(s, g, t, call.page, page);
    } else {
      assert s1.pages == s.pages;
    }
    SpinCanMove(s1.pages, s1.heaps, t, o);
    OwnerMoves(s1, g, t, SpinDone(o));
  }

  lemma SpinKeeps(s: State, g: History, t: ThreadId, ok: bool)
    requires Inv(s, g) && t in s.owners && SpinTarget(s.owners[t]).Some?
    ensures OwnerSpin(s, t, ok).Ok? && Inv(OwnerSpin(s, t, ok).state, g)
  {
    hide Inv, SpinDone, SpinTarget;
    SpinPage(s, g, t);
    var o, call := s.owners[t], SpinTarget(s.owners[t]).value;
    var page := s.pages[call.page];
    if o.seen.SawWord? {
      if ok && WordOf(page) == o.seen.word && MustSet(call, page.flag) {
        SpinEnds(s, g, t, page.(flag := call.delay));
      } else {
        SeenMoves(s, g, t, Nothing);
      }
    } else if page.flag != Freeing {
      if MustSet(call, page.flag) {
        SeenMoves(s, g, t, SawWord(WordOf(page)));
      } else {
        SpinEnds(s, g, t, page);
        assert s.pages[call.page := page] == s.pages;
      }
    }
  }

  // ---------------------------------------------------------------------------------------------
  // _mi_page_free_collect
  // ---------------------------------------------------------------------------------------------

  /** Move the blocks of page `p` at one place to another. */
  function Relocate(at: Places, p: PageId, x: Place, y: Place): Places {
    map b | b in at :: if b.page == p && at[b] == x then y else at[b]
  }

  /** The thread-free list fits: the count of `_mi_page_thread_free_collect` never exceeds the capacity. */
  lemma ThreadFreeFits(pages: Pages, at: Places, p: PageId)
    requires BlocksOfPages(pages, at) && p in pages
    ensures |pages[p].tfree| <= pages[p].capacity
  {
    var page := pages[p];
    assert PageOk(p, page, at);
    forall b: Block | b in page.tfree ensures b.page == p && b.index < page.capacity {
      assert IsAt(at, b, InThreadFree);
    }
    Pigeonhole(page.tfree, p, page.capacity);
  }

  lemma TakeThreadFreeOk(p: PageId, page: Page, at: Places)
    requires PageOk(p, page, at) && |page.tfree| <= page.capacity
    ensures PageOk(p, TakeThreadFree(page), Relocate(at, p, InThreadFree, InLocal))
  {
    var page', at' := TakeThreadFree(page), Relocate(at, p, InThreadFree, InLocal);
    assert forall b :: b in page.tfree ==> b !in page.localFree by {
      forall b | b in page.tfree ensures b !in page.localFree { assert IsAt(at, b, InThreadFree); }
    }
    Concat(page.tfree, page.localFree);
    forall b: Block ensures b in page'.free <==> b.page == p && IsAt(at', b, InFree) {
      assert b in page.free <==> b.page == p && IsAt(at, b, InFree);
    }
    forall b: Block ensures b in page'.localFree <==> b.page == p && IsAt(at', b, InLocal) {
      assert b in page.localFree <==> b.page == p && IsAt(at, b, InLocal);
      assert b in page.tfree <==> b.page == p && IsAt(at, b, InThreadFree);
    }
    forall b: Block ensures b in page'.tfree <==> b.page == p && IsAt(at', b, InThreadFree) {}
  }

  lemma MigrateOk(p: PageId, page: Page, at: Places, force: bool) returns (at': Places)
    requires PageOk(p, page, at)
    ensures at' == at || at' == Relocate(at, p, InLocal, InFree)
    ensures PageOk(p, Migrate(page, force), at')
  {
    var page' := Migrate(page, force);
    if page'.localFree == page.localFree {
      at' := at;
    } else {
      at' := Relocate(at, p, InLocal, InFree);
      assert forall b :: b in page.localFree ==> b !in page.free by {
        forall b | b in page.localFree ensures b !in page.free { assert IsAt(at, b, InLocal); }
      }
      Concat(page.localFree, page.free);
      assert page'.free == page.localFree + page.free;
      forall b: Block ensures b in page'.free <==> b.page == p && IsAt(at', b, InFree) {
        assert b in page.free <==> b.page == p && IsAt(at, b, InFree);
        assert b in page.localFree <==> b.page == p && IsAt(at, b, InLocal);
      }
      forall b: Block ensures b in page'.tfree <==> b.page == p && IsAt(at', b, InThreadFree) {
        assert b in page.tfree <==> b.page == p && IsAt(at, b, InThreadFree);
      }
      forall b: Block ensures b in page'.localFree <==> b.page == p && IsAt(at', b, InLocal) {}
    }
  }

  /** A change of places among the lists of page `p`. */
  ghost predicate WithinPage(at: Places, at': Places, p: PageId) {
    && at'.Keys == at.Keys
    && forall b | b in at && at'[b] != at[b] :: b.page == p && KindOf(at[b]) == PageKind && KindOf(at'[b]) == PageKind
  }

  lemma WithinSame(at: Places, at': Places, p: PageId)
    requires WithinPage(at, at', p)
    ensures Same(at, at', LiveKind) && Same(at, at', HandKind) && Same(at, at', DelayedKind) && Same(at, at', TodoKind)
  {
  }

  lemma CollectOk(p: PageId, page: Page, at: Places, force: bool) returns (at': Places)
    requires PageOk(p, page, at) && |page.tfree| <= page.capacity
    ensures WithinPage(at, at', p) && PageOk(p, Migrate(TakeThreadFree(page), force), at')
  {
    TakeThreadFreeOk(p, page, at);
    at' := MigrateOk(p, TakeThreadFree(page), Relocate(at, p, InThreadFree, InLocal), force);
  }

  /** A page keeps owner, heap and flag, and its blocks move among its lists. */
  lemma PageListsKeep(s: State, g: History, p: PageId, page: Page, at': Places)
    requires Inv(s, g) && p in s.pages && SameHome(s.pages[p], page) && page.flag == s.pages[p].flag
    requires WithinPage(g.at, at', p) && PageOk(p, page, at') && page.capacity == s.pages[p].capacity
    requires page.tfree == [] || page.tfree == s.pages[p].tfree
    ensures Inv(s.(pages := s.pages[p := page]), g.(at := at'))
  {
    hide BlocksOfPages, DelayedLists, TodoLists, LiveBlocks, HandBlocks, Locks, LandedBlocks, FreerHeaps,
      DelayedBlocks, TodoBlocks, Tasks, HeapsOfPages, PageOk, Same, HasWaiting, AboutToCollect;
    var pages' := s.pages[p := page];
    WithinSame(g.at, at', p);
    WithinPages(s.pages, g.at, p, page, at');
    DelayedSame(s.heaps, g.at, at');
    TodoSame(s.owners, g.at, at');
    LiveSame(s.live, g.at, at');
    HandSame(s.freers, g.at, at');
    LandedSame(s.freers, s.owners, g.at, at');
    FlagLocks(s.pages, s.freers, g.lock, p, page);
    HomesSame(s, g.at, p, page);
    DelayedBlocksSame(pages', s.heaps, s.owners, g.at, at');
    TodoBlocksSame(pages', g.at, at');
    HeapsOfPagesSame(s.pages, s.heaps, s.owners, p, page);
    TasksSame(s.pages, s.heaps, s.owners, p, page);
    assert PageNotLost(p, s.pages[p], s.owners, g.at);
    PageNotLostChanges(s.pages, s.owners, g.at, p, page);
    NotLostSame(pages', s.owners, g.at, at');
  }

  lemma WithinPages(pages: Pages, at: Places, p: PageId, page: Page, at': Places)
    requires BlocksOfPages(pages, at) && p in pages
    requires WithinPage(at, at', p) && PageOk(p, page, at') && page.capacity == pages[p].capacity
    ensures BlocksOfPages(pages[p := page], at')
  {
    PageChanges(pages, at, at', p, page);
  }

  lemma CollectPage_(s: State, g: History, t: ThreadId)
    requires Inv(s, g) && t in s.owners && CollectTarget(s.owners[t]).Some?
    ensures CollectTarget(s.owners[t]).value.page in s.pages
  {
    var o := s.owners[t];
    if o.todo != [] {
      assert o.todo[0] in o.todo;
      assert IsAt(g.at, o.todo[0], InTodo(t));
    } else {
      assert TaskOk(s.pages, s.heaps, t, o);
    }
  }

  lemma CollectTask(pages: Pages, heaps: Heaps, t: ThreadId, o: Owner)
    requires TaskOk(pages, heaps, t, o) && CollectTarget(o).Some?
    ensures TaskOk(pages, heaps, t, CollectDone(o))
  {
  }

  lemma CollectCanMove(pages: Pages, o: Owner)
    requires CollectTarget(o).Some? && CollectTarget(o).value.page in pages
    requires pages[CollectTarget(o).value.page].tfree == []
    ensures CanMove(pages, o, CollectDone(o))
  {
  }

  lemma CollectEnds(s: State, g: History, t: ThreadId) returns (g': History)
    requires Inv(s, g) && t in s.owners && CollectTarget(s.owners[t]).Some?
    requires CollectTarget(s.owners[t]).value.page in s.pages
    ensures var call := CollectTarget(s.owners[t]).value;
      Inv(WithOwner(WithPage(s, call.page, Migrate(TakeThreadFree(s.pages[call.page]), call.force)), t,
                    CollectDone(s.owners[t])), g')
  {
    hide CollectTarget, CollectDone, TaskOk, BlocksOfPages, DelayedLists, TodoLists, LiveBlocks, HandBlocks, Locks,
      LandedBlocks, FreerHeaps, DelayedBlocks, TodoBlocks, Tasks, HeapsOfPages, NotLost, CanMove, PageOk, WithinPage;
    var o, call := s.owners[t], CollectTarget(s.owners[t]).value;
    var page := s.pages[call.page];
    var page' := Migrate(TakeThreadFree(page), call.force);
    ThreadFreeFits(s.pages, g.at, call.page);
    PageIsOk(s.pages, g.at, call.page);
    var at' := CollectOk(call.page, page, g.at, call.force);
    g' := g.(at := at');
    PageListsKeep(s, g, call.page, page', at');
    var s1 := WithPage(s, call.page, page');
    OwnerTaskOk(s1, g', t);
    CollectTask(s1.pages, s1.heaps, t, o);
    CollectCanMove(s1.pages, o);
    OwnerMoves(s1, g', t, CollectDone(o));
  }

  lemma PageIsOk(pages: Pages, at: Places, p: PageId)
    requires BlocksOfPages(pages, at) && p in pages
    ensures PageOk(p, pages[p], at)
  {
  }

  lemma CollectKeeps(s: State, g: History, t: ThreadId, ok: bool) returns (g': History)
    requires Inv(s, g) && t in s.owners && CollectTarget(s.owners[t]).Some?
    ensures OwnerCollect(s, t, ok).Ok? && Inv(OwnerCollect(s, t, ok).state, g')
  {
    hide Inv, CollectTarget, CollectDone, Migrate;
    CollectPage_(s, g, t);
    var o, call := s.owners[t], CollectTarget(s.owners[t]).value;
    var page := s.pages[call.page];
    g' := g;
    if o.seen.SawWord? {
      if ok && WordOf(page) == o.seen.word {
        g' := CollectEnds(s, g, t);
      } else {
        SeenMoves(s, g, t, Nothing);
      }
    } else if !call.force && page.tfree == [] {
      assert TakeThreadFree(page) == page;
      g' := CollectEnds(s, g, t);
    } else {
      SeenMoves(s, g, t, SawWord(WordOf(page)));
    }
  }

  // ---------------------------------------------------------------------------------------------
  // _mi_heap_delayed_free: taking the list over
  // ---------------------------------------------------------------------------------------------

  /** The places after thread `t` took over the delayed list of heap `h`. */
  function TakeOver(at: Places, h: HeapId, t: ThreadId): Places {
    map b | b in at :: if at[b] == InDelayed(h) then InTodo(t) else at[b]
  }

  lemma TakeHeap(s: State, g: History, t: ThreadId)
    requires Inv(s, g) && t in s.owners && TakeTarget(s.owners[t]).Some?
    ensures HeapOwned(s.heaps, t, TakeTarget(s.owners[t]).value)
  {
    assert TaskOk(s.pages, s.heaps, t, s.owners[t]);
  }

  lemma TakeLists(heaps: Heaps, owners: Owners, at: Places, h: HeapId, t: ThreadId, o: Owner)
    requires DelayedLists(heaps, at) && TodoLists(owners, at)
    requires h in heaps && t in owners && owners[t].todo == [] && o.todo == heaps[h].delayed
    ensures DelayedLists(heaps[h := heaps[h].(delayed := [])], TakeOver(at, h, t))
    ensures TodoLists(owners[t := o], TakeOver(at, h, t))
  {
    var at', heaps', owners' := TakeOver(at, h, t), heaps[h := heaps[h].(delayed := [])], owners[t := o];
    assert ListIs(heaps[h].delayed, at, InDelayed(h));
    assert ListIs(owners[t].todo, at, InTodo(t));
    forall k | k in heaps ensures ListIs(heaps'[k].delayed, at', InDelayed(k)) {
      assert ListIs(heaps[k].delayed, at, InDelayed(k));
      forall b ensures IsAt(at', b, InDelayed(k)) == (IsAt(at, b, InDelayed(k)) && k != h) {}
    }
    forall u | u in owners' ensures ListIs(owners'[u].todo, at', InTodo(u)) {
      assert ListIs(owners[u].todo, at, InTodo(u));
      forall b ensures IsAt(at', b, InTodo(u)) == (IsAt(at, b, InTodo(u)) || (u == t && IsAt(at, b, InDelayed(h)))) {}
    }
  }

  lemma TakeSame(at: Places, h: HeapId, t: ThreadId)
    ensures var at' := TakeOver(at, h, t);
      at'.Keys == at.Keys && Same(at, at', PageKind) && Same(at, at', LiveKind) && Same(at, at', HandKind)
  {
  }

  /** Every waiting block keeps waiting: what was on the delayed list is now unspun. */
  lemma TakeWaiting(heaps: Heaps, owners: Owners, at: Places, h: HeapId, t: ThreadId, o: Owner)
    requires DelayedLists(heaps, at) && h in heaps
    requires t in owners && owners[t].todo == [] && o.todo == heaps[h].delayed && o.stage == Spin
    ensures forall b | Waiting(owners, at, b) :: Waiting(owners[t := o], TakeOver(at, h, t), b)
  {
    assert ListIs(heaps[h].delayed, at, InDelayed(h));
    forall b | Waiting(owners, at, b) ensures Waiting(owners[t := o], TakeOver(at, h, t), b) {
      if at[b] == InDelayed(h) { assert IsAt(at, b, InDelayed(h)); }
    }
  }

  lemma TakeNotLost(pages: Pages, owners: Owners, at: Places, owners': Owners, at': Places)
    requires NotLost(pages, owners, at)
    requires forall b | Waiting(owners, at, b) :: Waiting(owners', at', b)
    requires forall p | AboutToCollect(owners, p) :: AboutToCollect(owners', p)
    ensures NotLost(pages, owners', at')
  {
    forall p | p in pages ensures PageNotLost(p, pages[p], owners', at') {
      assert PageNotLost(p, pages[p], owners, at);
      WaitingKept(owners, at, owners', at', p);
    }
  }

  lemma TakeCollects(owners: Owners, t: ThreadId, o: Owner)
    requires t in owners && TakeTarget(owners[t]).Some?
    ensures forall p | AboutToCollect(owners, p) :: AboutToCollect(owners[t := o], p)
  {
    forall p | AboutToCollect(owners, p) ensures AboutToCollect(owners[t := o], p) {
      var u :| u in owners && Collects(owners[u], p);
      assert u != t;
      assert Collects(owners[t := o][u], p);
    }
  }

  lemma TakeHomes(s: State, at: Places, h: HeapId, t: ThreadId, o: Owner)
    requires Ownership(s, at) && HeapOwned(s.heaps, t, h) && t in s.owners
    requires TakeTarget(s.owners[t]) == Some(h) && o == TakeDone(s.owners[t], s.heaps[h].delayed)
    ensures HeapsOfPages(s.pages, s.heaps[h := s.heaps[h].(delayed := [])], s.owners[t := o])
    ensures FreerHeaps(s.pages, s.heaps[h := s.heaps[h].(delayed := [])], s.freers, s.owners[t := o])
    ensures TodoBlocks(s.pages, TakeOver(at, h, t))
  {
    var heaps', owners' := s.heaps[h := s.heaps[h].(delayed := [])], s.owners[t := o];
    forall p | p in s.pages ensures PageHeapOk(s.pages[p], heaps', owners') {
      assert PageHeapOk(s.pages[p], s.heaps, s.owners);
    }
    forall b | b in s.freers && (s.freers[b].HasHeap? || s.freers[b].HasDelayed?)
      ensures HeapOk(b.page, s.freers[b].heap, s.pages, heaps', owners')
    {
      assert HeapOk(b.page, s.freers[b].heap, s.pages, s.heaps, s.owners);
    }
  }

  lemma TakeDelayed(pages: Pages, heaps: Heaps, owners: Owners, at: Places, h: HeapId, t: ThreadId, o: Owner)
    requires DelayedBlocks(pages, heaps, owners, at) && HeapOwned(heaps, t, h) && t in owners
    requires TakeTarget(owners[t]) == Some(h) && o == TakeDone(owners[t], heaps[h].delayed)
    ensures DelayedBlocks(pages, heaps[h := heaps[h].(delayed := [])], owners[t := o], TakeOver(at, h, t))
  {
    var heaps', owners', at' := heaps[h := heaps[h].(delayed := [])], owners[t := o], TakeOver(at, h, t);
    forall b | b in at' && at'[b].InDelayed? ensures DelayedOk(b.page, at'[b].heap, pages, heaps', owners') {
      assert DelayedOk(b.page, at[b].heap, pages, heaps, owners);
    }
  }

  lemma TakeTask(pages: Pages, heaps: Heaps, u: ThreadId, o: Owner, h: HeapId)
    requires TaskOk(pages, heaps, u, o) && h in heaps
    ensures TaskOk(pages, heaps[h := heaps[h].(delayed := [])], u, o)
  {
  }

  lemma TakeOwnTask(pages: Pages, heaps: Heaps, t: ThreadId, o: Owner, h: HeapId)
    requires TaskOk(pages, heaps, t, o) && TakeTarget(o) == Some(h)
    ensures TaskOk(pages, heaps[h := heaps[h].(delayed := [])], t, TakeDone(o, heaps[h].delayed))
  {
  }

  lemma TakeTasks(pages: Pages, heaps: Heaps, owners: Owners, t: ThreadId, h: HeapId)
    requires Tasks(pages, heaps, owners) && t in owners && TakeTarget(owners[t]) == Some(h) && h in heaps
    ensures Tasks(pages, heaps[h := heaps[h].(delayed := [])], owners[t := TakeDone(owners[t], heaps[h].delayed)])
  {
    hide TaskOk, TakeDone;
    var o := TakeDone(owners[t], heaps[h].delayed);
    forall u | u in owners ensures TaskOk(pages, heaps[h := heaps[h].(delayed := [])], u, owners[t := o][u]) {
      if u == t { TakeOwnTask(pages, heaps, t, owners[t], h); } else { TakeTask(pages, heaps, u, owners[u], h); }
    }
  }

  lemma TakeLanded(freers: Freers, owners: Owners, at: Places, owners': Owners, at': Places)
    requires LandedBlocks(freers, owners, at)
    requires forall b | Waiting(owners, at, b) :: Waiting(owners', at', b)
    ensures LandedBlocks(freers, owners', at')
  {
  }

  lemma TakeEnds(s: State, g: History, t: ThreadId) returns (g': History)
    requires Inv(s, g) && t in s.owners && TakeTarget(s.owners[t]).Some?
    requires HeapOwned(s.heaps, t, TakeTarget(s.owners[t]).value)
    ensures var h := TakeTarget(s.owners[t]).value;
      Inv(s.(heaps := s.heaps[h := s.heaps[h].(delayed := [])],
             owners := s.owners[t := TakeDone(s.owners[t], s.heaps[h].delayed)]), g')
  {
    hide BlocksOfPages, DelayedLists, TodoLists, LiveBlocks, HandBlocks, Locks, LandedBlocks, FreerHeaps,
      DelayedBlocks, TodoBlocks, Tasks, HeapsOfPages, NotLost, Same, Waiting, AboutToCollect;
    var h, o := TakeTarget(s.owners[t]).value, TakeDone(s.owners[t], s.heaps[TakeTarget(s.owners[t]).value].delayed);
    g' := g.(at := TakeOver(g.at, h, t));
    TakeLists(s.heaps, s.owners, g.at, h, t, o);
    TakeSame(g.at, h, t);
    PagesSame(s.pages, g.at, g'.at);
    LiveSame(s.live, g.at, g'.at);
    HandSame(s.freers, g.at, g'.at);
    TakeWaiting(s.heaps, s.owners, g.at, h, t, o);
    TakeLanded(s.freers, s.owners, g.at, s.owners[t := o], g'.at);
    TakeCollects(s.owners, t, o);
    TakeNotLost(s.pages, s.owners, g.at, s.owners[t := o], g'.at);
    TakeHomes(s, g.at, h, t, o);
    TakeDelayed(s.pages, s.heaps, s.owners, g.at, h, t, o);
    TakeTasks(s.pages, s.heaps, s.owners, t, h);
  }

  lemma TakeKeeps(s: State, g: History, t: ThreadId, ok: bool) returns (g': History)
    requires Inv(s, g) && t in s.owners && TakeTarget(s.owners[t]).Some?
    ensures OwnerTake(s, t, ok).Ok? && Inv(OwnerTake(s, t, ok).state, g')
  {
    hide Inv, TakeTarget, TakeDone;
    TakeHeap(s, g, t);
    var o, h := s.owners[t], TakeTarget(s.owners[t]).value;
    var list := s.heaps[h].delayed;
    g' := g;
    if o.seen.SawHead? {
      if ok && Head(list) == o.seen.head {
        g' := TakeEnds(s, g, t);
      } else {
        SeenMoves(s, g, t, Nothing);
      }
    } else if list == [] {
      g' := TakeEnds(s, g, t);
      assert s.heaps[h := s.heaps[h].(delayed := [])] == s.heaps;
    } else {
      SeenMoves(s, g, t, SawHead(Head(list)));
    }
  }
}
