/** What an owning thread does between its atomic loops keeps the invariant. */
module OwnerActions {
  import opened Options
  import opened FreeProtocol
  import opened FreeInvariant
  import opened FreeFrames
  import opened OwnerLoops

  // ---------------------------------------------------------------------------------------------
  // Releasing an empty page
  // ---------------------------------------------------------------------------------------------

  /** With `used == 0` every block of the page is on its free or local list. */
  lemma AllFree(pages: Pages, at: Places, p: PageId)
    requires BlocksOfPages(pages, at) && p in pages && pages[p].used == 0
    ensures Quiet(at, p)
  {
    var page := pages[p];
    assert PageOk(p, page, at);
    var list := page.free + page.localFree;
    forall b | b in page.free ensures b !in page.localFree { assert IsAt(at, b, InFree); }
    Concat(page.free, page.localFree);
    forall b: Block | b in list ensures b.page == p && b.index < page.capacity {
      assert IsAt(at, b, InFree) || IsAt(at, b, InLocal);
    }
    forall b | b in at && b.page == p ensures at[b] == InFree || at[b] == InLocal {
      PigeonholeFull(list, p, page.capacity, b);
      assert IsAt(at, b, InFree) || IsAt(at, b, InLocal);
    }
  }

  function Without(at: Places, p: PageId): Places {
    map b | b in at && b.page != p :: at[b]
  }

  lemma WithoutSame(at: Places, p: PageId)
    requires Quiet(at, p)
    ensures var at' := Without(at, p);
      Same(at, at', LiveKind) && Same(at, at', HandKind) && Same(at, at', DelayedKind) && Same(at, at', TodoKind)
  {
  }

  lemma WithoutPages(pages: Pages, at: Places, p: PageId)
    requires BlocksOfPages(pages, at)
    ensures BlocksOfPages(pages - {p}, Without(at, p))
  {
    var at' := Without(at, p);
    forall q | q in pages && q != p ensures PageOk(q, pages[q], at') {
      assert PageOk(q, pages[q], at);
      forall b: Block | b.page == q ensures IsAt(at, b, InFree) == IsAt(at', b, InFree) {}
      forall b: Block | b.page == q ensures IsAt(at, b, InLocal) == IsAt(at', b, InLocal) {}
      forall b: Block | b.page == q ensures IsAt(at, b, InThreadFree) == IsAt(at', b, InThreadFree) {}
    }
  }

  /** All blocks of the page are on its free and local lists. */
  ghost predicate Quiet(at: Places, p: PageId) {
    forall b | b in at && b.page == p :: at[b] == InFree || at[b] == InLocal
  }

  /** Nobody is freeing a block of the page. */
  lemma QuietFreers(freers: Freers, owners: Owners, at: Places, p: PageId)
    requires HandBlocks(freers, at) && LandedBlocks(freers, owners, at) && Quiet(at, p)
    ensures forall b | b in freers :: b.page != p
  {
    forall b | b in freers ensures b.page != p {
      if HasBlock(freers[b]) {
        assert IsAt(at, b, InHand);
      } else {
        assert Waiting(owners, at, b);
      }
    }
  }

  /** So nobody holds its lock. */
  lemma QuietLocks(pages: Pages, heaps: Heaps, freers: Freers, owners: Owners, lock: LockMap, p: PageId)
    requires Locks(pages, freers, lock) && FreerHeaps(pages, heaps, freers, owners)
    requires forall b | b in freers :: b.page != p
    ensures p in pages ==> pages[p].flag != Freeing
    ensures Locks(pages - {p}, freers, lock) && FreerHeaps(pages - {p}, heaps, freers, owners)
  {
  }

  lemma QuietHomes(pages: Pages, heaps: Heaps, owners: Owners, at: Places, p: PageId)
    requires HeapsOfPages(pages, heaps, owners) && DelayedBlocks(pages, heaps, owners, at) && TodoBlocks(pages, at)
    requires NotLost(pages, owners, at) && Quiet(at, p)
    ensures HeapsOfPages(pages - {p}, heaps, owners)
    ensures DelayedBlocks(pages - {p}, heaps, owners, at) && TodoBlocks(pages - {p}, at)
    ensures NotLost(pages - {p}, owners, at)
  {
    hide PageNotLost;
  }

  /** The tasks during which an owner may release any page of its own. */
  predicate MayRelease(task: Task) {
    task.Idle? || task.AbsorbPages? || task.AbsorbEnd? || task.AbandonVisit?
  }

  lemma ReleaseTask(pages: Pages, heaps: Heaps, owners: Owners, t: ThreadId, u: ThreadId, o: Owner, p: PageId)
    requires HeapsOfPages(pages, heaps, owners) && TaskOk(pages, heaps, u, o)
    requires p in pages && pages[p].owner == Some(t) && (u == t ==> MayRelease(o.task))
    ensures TaskOk(pages - {p}, heaps, u, o)
  {
    var pages' := pages - {p};
    forall h, q {:trigger PageIn(pages', h, q)} ensures PageIn(pages', h, q) <==> PageIn(pages, h, q) && q != p {}
    forall h | HeapOwned(heaps, u, h) && u != t ensures !PageIn(pages, h, p) {
      assert PageHeapOk(pages[p], heaps, owners);
    }
    if o.task.AbsorbEnd? || o.task.AbsorbDrain? {
      assert NoPages(pages', o.task.from) by {
        forall q ensures !PageIn(pages', o.task.from, q) { assert !PageIn(pages, o.task.from, q); }
      }
    }
  }

  lemma ReleaseTasks(pages: Pages, heaps: Heaps, owners: Owners, t: ThreadId, p: PageId)
    requires HeapsOfPages(pages, heaps, owners) && Tasks(pages, heaps, owners)
    requires p in pages && pages[p].owner == Some(t) && t in owners && MayRelease(owners[t].task)
    ensures Tasks(pages - {p}, heaps, owners)
  {
    hide TaskOk;
    forall u | u in owners ensures TaskOk(pages - {p}, heaps, u, owners[u]) {
      ReleaseTask(pages, heaps, owners, t, u, owners[u], p);
    }
  }

  lemma ReleaseKeeps(s: State, g: History, t: ThreadId, p: PageId) returns (g': History)
    requires Inv(s, g) && p in s.pages && s.pages[p].used == 0 && s.pages[p].owner == Some(t)
    requires t in s.owners && MayRelease(s.owners[t].task)
    ensures ReleasePage(s, p).Ok? && Inv(ReleasePage(s, p).state, g')
  {
    hide BlocksOfPages, DelayedLists, TodoLists, LiveBlocks, HandBlocks, Locks, LandedBlocks, FreerHeaps,
      DelayedBlocks, TodoBlocks, Tasks, HeapsOfPages, NotLost, Same, MayRelease, Quiet;
    g' := g.(at := Without(g.at, p));
    AllFree(s.pages, g.at, p);
    QuietFreers(s.freers, s.owners, g.at, p);
    QuietLocks(s.pages, s.heaps, s.freers, s.owners, g.lock, p);
    QuietHomes(s.pages, s.heaps, s.owners, g.at, p);
    ReleaseTasks(s.pages, s.heaps, s.owners, t, p);
    WithoutSame(g.at, p);
    WithoutPages(s.pages, g.at, p);
    DelayedSame(s.heaps, g.at, g'.at);
    TodoSame(s.owners, g.at, g'.at);
    LiveSame(s.live, g.at, g'.at);
    HandSame(s.freers, g.at, g'.at);
    LandedSame(s.freers, s.owners, g.at, g'.at);
    DelayedBlocksSame(s.pages - {p}, s.heaps, s.owners, g.at, g'.at);
    TodoBlocksSame(s.pages - {p}, g.at, g'.at);
    NotLostSame(s.pages - {p}, s.owners, g.at, g'.at);
  }

  // ---------------------------------------------------------------------------------------------
  // Freeing a block locally
  // ---------------------------------------------------------------------------------------------

  lemma FreeLocalPages(pages: Pages, at: Places, b: Block, page: Page)
    requires BlocksOfPages(pages, at) && b in at && KindOf(at[b]) != PageKind && b.page in pages
    requires page == FreeLocal(pages[b.page], b).(inFull := page.inFull)
    ensures BlocksOfPages(pages[b.page := page], at[b := InLocal])
  {
    var p, at', before := b.page, at[b := InLocal], pages[b.page];
    assert PageOk(p, before, at);
    assert b !in before.localFree by { assert !IsAt(at, b, InLocal); }
    Prepend(b, before.localFree);
    assert PageOk(p, page, at') by {
      forall c: Block ensures c in page.localFree <==> c.page == p && IsAt(at', c, InLocal) {
        assert c in before.localFree <==> c.page == p && IsAt(at, c, InLocal);
      }
      forall c: Block ensures IsAt(at, c, InFree) == IsAt(at', c, InFree) {}
      forall c: Block ensures IsAt(at, c, InThreadFree) == IsAt(at', c, InThreadFree) {}
    }
    PageChanges(pages, at, at', p, page);
  }

  lemma FreeLiveLists(live: set<Block>, at: Places, b: Block)
    requires LiveBlocks(live, at) && b in live
    ensures b in at && at[b] == IsLive && LiveBlocks(live - {b}, at[b := InLocal])
    ensures var at' := at[b := InLocal];
      at'.Keys == at.Keys && Same(at, at', HandKind) && Same(at, at', DelayedKind) && Same(at, at', TodoKind)
  {
    assert IsAt(at, b, IsLive);
    forall c ensures c in live - {b} <==> IsAt(at[b := InLocal], c, IsLive) {
      assert c in live <==> IsAt(at, c, IsLive);
    }
  }

  /** A page keeps owner, heap, flag and thread-free list. */
  predicate OnlyLists(page: Page, page': Page) {
    SameHome(page, page') && page'.flag == page.flag && page'.tfree == page.tfree
  }

  lemma OnlyListsKeep(s: State, g: History, p: PageId, page: Page)
    requires Inv(s, g) && p in s.pages && OnlyLists(s.pages[p], page)
    ensures Locks(s.pages[p := page], s.freers, g.lock) && HeapsOfPages(s.pages[p := page], s.heaps, s.owners)
    ensures FreerHeaps(s.pages[p := page], s.heaps, s.freers, s.owners)
    ensures DelayedBlocks(s.pages[p := page], s.heaps, s.owners, g.at) && TodoBlocks(s.pages[p := page], g.at)
    ensures Tasks(s.pages[p := page], s.heaps, s.owners) && NotLost(s.pages[p := page], s.owners, g.at)
  {
    hide BlocksOfPages, DelayedLists, TodoLists, LiveBlocks, HandBlocks, Locks, LandedBlocks, FreerHeaps,
      DelayedBlocks, TodoBlocks, Tasks, HeapsOfPages, HasWaiting, AboutToCollect;
    FlagLocks(s.pages, s.freers, g.lock, p, page);
    HomesSame(s, g.at, p, page);
    HeapsOfPagesSame(s.pages, s.heaps, s.owners, p, page);
    TasksSame(s.pages, s.heaps, s.owners, p, page);
    assert PageNotLost(p, s.pages[p], s.owners, g.at);
    PageNotLostChanges(s.pages, s.owners, g.at, p, page);
  }

  lemma FreeLiveKeeps(s: State, g: History, b: Block, page: Page) returns (g': History)
    requires Inv(s, g) && b in s.live && b.page in s.pages
    requires page == FreeLocal(s.pages[b.page], b).(inFull := page.inFull)
    ensures Inv(s.(pages := s.pages[b.page := page], live := s.live - {b}), g')
  {
    hide BlocksOfPages, DelayedLists, TodoLists, LiveBlocks, HandBlocks, Locks, LandedBlocks, FreerHeaps,
      DelayedBlocks, TodoBlocks, Tasks, HeapsOfPages, NotLost, Same;
    g' := g.(at := g.at[b := InLocal]);
    var pages' := s.pages[b.page := page];
    FreeLiveLists(s.live, g.at, b);
    FreeLocalPages(s.pages, g.at, b, page);
    OnlyListsKeep(s, g, b.page, page);
    DelayedSame(s.heaps, g.at, g'.at);
    TodoSame(s.owners, g.at, g'.at);
    HandSame(s.freers, g.at, g'.at);
    LandedSame(s.freers, s.owners, g.at, g'.at);
    DelayedBlocksSame(pages', s.heaps, s.owners, g.at, g'.at);
    TodoBlocksSame(pages', g.at, g'.at);
    NotLostSame(pages', s.owners, g.at, g'.at);
  }

  // ---------------------------------------------------------------------------------------------
  // Finishing a delayed block
  // ---------------------------------------------------------------------------------------------

  lemma FinishTodo(owners: Owners, at: Places, t: ThreadId, o: Owner)
    requires TodoLists(owners, at) && t in owners && owners[t].todo != [] && o.todo == owners[t].todo[1..]
    ensures owners[t].todo[0] in at && at[owners[t].todo[0]] == InTodo(t)
    ensures TodoLists(owners[t := o], at[owners[t].todo[0] := InLocal])
  {
    var b := owners[t].todo[0];
    var at' := at[b := InLocal];
    assert ListIs(owners[t].todo, at, InTodo(t));
    assert b in owners[t].todo;
    assert IsAt(at, b, InTodo(t));
    Behead(owners[t].todo);
    forall u | u in owners ensures ListIs(owners[t := o][u].todo, at', InTodo(u)) {
      assert ListIs(owners[u].todo, at, InTodo(u));
      forall c ensures IsAt(at', c, InTodo(u)) == (IsAt(at, c, InTodo(u)) && c != b) {}
    }
  }

  lemma FinishSame(at: Places, b: Block, t: ThreadId)
    requires b in at && at[b] == InTodo(t)
    ensures var at' := at[b := InLocal];
      at'.Keys == at.Keys && Same(at, at', HandKind) && Same(at, at', DelayedKind) && Same(at, at', LiveKind)
  {
  }

  /** The finished block was not waiting any more; the other ones still are. */
  lemma FinishWaiting(owners: Owners, at: Places, t: ThreadId, o: Owner)
    requires TodoLists(owners, at) && t in owners && owners[t].todo != [] && owners[t].stage == Finish
    requires o == owners[t].(todo := owners[t].todo[1..], stage := Spin)
    ensures forall b | Waiting(owners, at, b) :: Waiting(owners[t := o], at[owners[t].todo[0] := InLocal], b)
  {
    var b := owners[t].todo[0];
    assert ListIs(owners[t].todo, at, InTodo(t));
    assert b in owners[t].todo;
    assert IsAt(at, b, InTodo(t));
    Behead(owners[t].todo);
  }

  lemma FinishCollects(owners: Owners, t: ThreadId, o: Owner)
    requires t in owners && owners[t].todo != [] && owners[t].stage == Finish
    requires owners[t].task.ReclaimSpin? ==> o.task == owners[t].task
    ensures forall p | AboutToCollect(owners, p) :: AboutToCollect(owners[t := o], p)
  {
    forall p | AboutToCollect(owners, p) ensures AboutToCollect(owners[t := o], p) {
      var u :| u in owners && Collects(owners[u], p);
      assert Collects(owners[t := o][u], p);
    }
  }

  lemma FinishHomes(pages: Pages, heaps: Heaps, freers: Freers, owners: Owners, at: Places, t: ThreadId, o: Owner)
    requires HeapsOfPages(pages, heaps, owners) && FreerHeaps(pages, heaps, freers, owners)
    requires DelayedBlocks(pages, heaps, owners, at) && TodoBlocks(pages, at)
    requires t in owners && owners[t].todo != [] && o.task == owners[t].task
    requires owners[t].todo[0] in at && at[owners[t].todo[0]] == InTodo(t)
    ensures HeapsOfPages(pages, heaps, owners[t := o]) && FreerHeaps(pages, heaps, freers, owners[t := o])
    ensures DelayedBlocks(pages, heaps, owners[t := o], at[owners[t].todo[0] := InLocal])
    ensures TodoBlocks(pages, at[owners[t].todo[0] := InLocal])
  {
    forall p | p in pages ensures PageHeapOk(pages[p], heaps, owners[t := o]) {
      assert PageHeapOk(pages[p], heaps, owners);
    }
  }

  lemma FinishTask(pages: Pages, heaps: Heaps, t: ThreadId, o: Owner)
    requires TaskOk(pages, heaps, t, o) && o.todo != []
    ensures MayRelease(o.task) && TaskOk(pages, heaps, t, o.(todo := o.todo[1..], stage := Spin))
  {
  }

  lemma FinishKeeps(s: State, g: History, t: ThreadId, page: Page) returns (g': History)
    requires Inv(s, g) && t in s.owners && s.owners[t].todo != [] && s.owners[t].stage == Finish
    requires s.owners[t].todo[0].page in s.pages
    requires var b := s.owners[t].todo[0]; page == FreeLocal(s.pages[b.page], b).(inFull := page.inFull)
    ensures var o := s.owners[t];
      Inv(s.(pages := s.pages[o.todo[0].page := page],
             owners := s.owners[t := o.(todo := o.todo[1..], stage := Spin)]), g')
    ensures MayRelease(s.owners[t].task)
  {
    hide BlocksOfPages, DelayedLists, TodoLists, LiveBlocks, HandBlocks, Locks, LandedBlocks, FreerHeaps,
      DelayedBlocks, TodoBlocks, Tasks, HeapsOfPages, NotLost, Same, Waiting, AboutToCollect, MayRelease, TaskOk;
    var o, b := s.owners[t], s.owners[t].todo[0];
    var o', pages' := o.(todo := o.todo[1..], stage := Spin), s.pages[b.page := page];
    var owners' := s.owners[t := o'];
    g' := g.(at := g.at[b := InLocal]);
    OwnerTaskOk(s, g, t);
    FinishTask(s.pages, s.heaps, t, o);
    FinishTodo(s.owners, g.at, t, o');
    FinishSame(g.at, b, t);
    FreeLocalPages(s.pages, g.at, b, page);
    OnlyListsKeep(s, g, b.page, page);
    DelayedSame(s.heaps, g.at, g'.at);
    LiveSame(s.live, g.at, g'.at);
    HandSame(s.freers, g.at, g'.at);
    FinishWaiting(s.owners, g.at, t, o');
    TakeLanded(s.freers, s.owners, g.at, owners', g'.at);
    FinishCollects(s.owners, t, o');
    TakeNotLost(pages', s.owners, g.at, owners', g'.at);
    FinishHomes(pages', s.heaps, s.freers, s.owners, g.at, t, o');
    FinishOwnTask(s, g, t, o', b.page, page);
  }

  lemma FinishOwnTask(s: State, g: History, t: ThreadId, o: Owner, p: PageId, page: Page)
    requires Inv(s, g) && t in s.owners && p in s.pages && OnlyLists(s.pages[p], page)
    requires TaskOk(s.pages, s.heaps, t, o)
    ensures Tasks(s.pages[p := page], s.heaps, s.owners[t := o])
  {
    hide TaskOk;
    MoveTasks(s.pages, s.heaps, s.owners, t, o);
    TasksSame(s.pages, s.heaps, s.owners[t := o], p, page);
  }

  // ---------------------------------------------------------------------------------------------
  // After a local free: retire or unfull
  // ---------------------------------------------------------------------------------------------

  lemma FinishedBlock(s: State, g: History, t: ThreadId)
    requires Inv(s, g) && t in s.owners && s.owners[t].todo != []
    ensures PageOwned(s.pages, t, s.owners[t].todo[0].page)
  {
    var b := s.owners[t].todo[0];
    assert b in s.owners[t].todo;
    assert IsAt(g.at, b, InTodo(t));
  }

  lemma FinishStepKeeps(s: State, g: History, t: ThreadId, release: bool) returns (g': History)
    requires Inv(s, g) && Enabled(s, FinishStep(t, release))
    ensures OwnerFinish(s, t, release).Ok? && Inv(OwnerFinish(s, t, release).state, g')
  {
    hide Inv, MayRelease;
    FinishedBlock(s, g, t);
    var o, b := s.owners[t], s.owners[t].todo[0];
    var page := FreeLocal(s.pages[b.page], b);
    var s1 := WithOwner(s, t, o.(todo := o.todo[1..], stage := Spin));
    if page.used == 0 {
      g' := FinishKeeps(s, g, t, page);
      if release {
        g' := ReleaseKeeps(WithPage(s1, b.page, page), g', t, b.page);
      }
    } else {
      g' := FinishKeeps(s, g, t, page.(inFull := false));
    }
  }

  lemma FreeStepKeeps(s: State, g: History, t: ThreadId, b: Block, release: bool) returns (g': History)
    requires Inv(s, g) && t in s.owners && CanAct(s, t, DoFree(b, release))
    ensures Act(s, t, DoFree(b, release)).Ok? && Inv(Act(s, t, DoFree(b, release)).state, g')
  {
    hide Inv;
    var page := FreeLocal(s.pages[b.page], b);
    var s1 := s.(live := s.live - {b});
    if page.used == 0 {
      g' := FreeLiveKeeps(s, g, b, page);
      if release {
        g' := ReleaseKeeps(WithPage(s1, b.page, page), g', t, b.page);
      }
    } else {
      g' := FreeLiveKeeps(s, g, b, page.(inFull := false));
    }
  }
}
