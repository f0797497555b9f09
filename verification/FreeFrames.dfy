/** What each part of the invariant depends on: lemmas shared by the steps of freers and owners. */
module FreeFrames {
  import opened Options
  import opened FreeProtocol
  import opened FreeInvariant

  // ---------------------------------------------------------------------------------------------
  // Lists without duplicates
  // ---------------------------------------------------------------------------------------------

  lemma EmptyRange(b: Block, list: seq<Block>, p: PageId)
    requires forall b: Block :: b in list ==> b.page == p && b.index < 0
    ensures b !in list
  {
  }

  /** A duplicate-free list of blocks of one page with indices below n has at most n elements. */
  lemma {:induction false} Pigeonhole(list: seq<Block>, p: PageId, n: nat)
    requires NoDup(list) && forall b: Block :: b in list ==> b.page == p && b.index < n
    ensures |list| <= n
    decreases n
  {
    if n == 0 {
      if list != [] {
        EmptyRange(list[0], list, p);
      }
    } else if k :| 0 <= k < |list| && list[k] == Block(p, n - 1) {
      var rest := list[..k] + list[k + 1..];
      forall b: Block | b in rest ensures b in list && b != list[k] {}
      forall i, j | 0 <= i < j < |rest| ensures rest[i] != rest[j] {
        assert rest[i] == list[if i < k then i else i + 1] && rest[j] == list[if j < k then j else j + 1];
      }
      Pigeonhole(rest, p, n - 1);
    } else {
      forall b: Block | b in list ensures b.index < n - 1 {
        var i :| 0 <= i < |list| && list[i] == b;
      }
      Pigeonhole(list, p, n - 1);
    }
  }

  /** If such a list has n elements, it holds every block of the page. */
  lemma PigeonholeFull(list: seq<Block>, p: PageId, n: nat, b: Block)
    requires NoDup(list) && forall c: Block :: c in list ==> c.page == p && c.index < n
    requires |list| == n && b.page == p && b.index < n
    ensures b in list
  {
    if b !in list {
      Pigeonhole(list + [b], p, n);
    }
  }

  lemma Prepend(b: Block, list: seq<Block>)
    requires NoDup(list) && b !in list
    ensures NoDup([b] + list)
    ensures forall c :: c in [b] + list <==> c == b || c in list
  {
  }

  lemma Behead(list: seq<Block>)
    requires NoDup(list) && list != []
    ensures NoDup(list[1..])
    ensures forall c :: c in list[1..] <==> c != list[0] && c in list
  {
    forall c | c in list && c != list[0] ensures c in list[1..] {
      var i :| 0 <= i < |list| && list[i] == c;
      assert list[1..][i - 1] == c;
    }
  }

  lemma Concat(a: seq<Block>, b: seq<Block>)
    requires NoDup(a) && NoDup(b) && forall c :: c in a ==> c !in b
    ensures NoDup(a + b)
    ensures forall c :: c in a + b <==> c in a || c in b
  {
    forall i, j | 0 <= i < j < |a + b| ensures (a + b)[i] != (a + b)[j] {
      if i < |a| <= j { assert a[i] in a && b[j - |a|] in b; }
    }
  }

  // ---------------------------------------------------------------------------------------------
  // Moving blocks between places
  // ---------------------------------------------------------------------------------------------

  datatype Kind = PageKind | DelayedKind | TodoKind | LiveKind | HandKind

  function KindOf(place: Place): Kind {
    match place
    case InFree => PageKind
    case InLocal => PageKind
    case InThreadFree => PageKind
    case InDelayed(_) => DelayedKind
    case InTodo(_) => TodoKind
    case IsLive => LiveKind
    case InHand => HandKind
  }

  /** The same blocks are at places of kind `k` in both maps. */
  ghost predicate Same(at: Places, at': Places, k: Kind) {
    forall b | (b in at && KindOf(at[b]) == k) || (b in at' && KindOf(at'[b]) == k) ::
      b in at && b in at' && at[b] == at'[b]
  }

  /** Moving one block disturbs only the kinds it leaves and enters. */
  lemma Moved(at: Places, b: Block, place: Place)
    requires b in at
    ensures at[b := place].Keys == at.Keys
    ensures forall k {:trigger Same(at, at[b := place], k)} | k != KindOf(at[b]) && k != KindOf(place) ::
      Same(at, at[b := place], k)
  {
  }

  lemma PagesSame(pages: Pages, at: Places, at': Places)
    requires BlocksOfPages(pages, at) && Same(at, at', PageKind) && at'.Keys == at.Keys
    ensures BlocksOfPages(pages, at')
  {
    forall p | p in pages ensures PageOk(p, pages[p], at') {
      assert PageOk(p, pages[p], at);
      forall b: Block ensures IsAt(at, b, InFree) == IsAt(at', b, InFree) {}
      forall b: Block ensures IsAt(at, b, InLocal) == IsAt(at', b, InLocal) {}
      forall b: Block ensures IsAt(at, b, InThreadFree) == IsAt(at', b, InThreadFree) {}
    }
  }

  /** One page changes, together with blocks of that page only. */
  lemma PageChanges(pages: Pages, at: Places, at': Places, p: PageId, page: Page)
    requires BlocksOfPages(pages, at) && p in pages && at'.Keys == at.Keys
    requires forall b | b in at && at[b] != at'[b] :: b.page == p
    requires PageOk(p, page, at') && page.capacity == pages[p].capacity
    ensures BlocksOfPages(pages[p := page], at')
  {
    forall q | q in pages && q != p ensures PageOk(q, pages[q], at') {
      assert PageOk(q, pages[q], at);
      forall b: Block | b.page == q ensures IsAt(at, b, InFree) == IsAt(at', b, InFree) {}
      forall b: Block | b.page == q ensures IsAt(at, b, InLocal) == IsAt(at', b, InLocal) {}
      forall b: Block | b.page == q ensures IsAt(at, b, InThreadFree) == IsAt(at', b, InThreadFree) {}
    }
  }

  lemma DelayedSame(heaps: Heaps, at: Places, at': Places)
    requires DelayedLists(heaps, at) && Same(at, at', DelayedKind)
    ensures DelayedLists(heaps, at')
  {
    forall h | h in heaps ensures ListIs(heaps[h].delayed, at', InDelayed(h)) {
      assert ListIs(heaps[h].delayed, at, InDelayed(h));
      forall b ensures IsAt(at, b, InDelayed(h)) == IsAt(at', b, InDelayed(h)) {}
    }
  }

  lemma TodoSame(owners: Owners, at: Places, at': Places)
    requires TodoLists(owners, at) && Same(at, at', TodoKind)
    ensures TodoLists(owners, at')
  {
    forall t | t in owners ensures ListIs(owners[t].todo, at', InTodo(t)) {
      assert ListIs(owners[t].todo, at, InTodo(t));
      forall b ensures IsAt(at, b, InTodo(t)) == IsAt(at', b, InTodo(t)) {}
    }
  }

  lemma LiveSame(live: set<Block>, at: Places, at': Places)
    requires LiveBlocks(live, at) && Same(at, at', LiveKind)
    ensures LiveBlocks(live, at')
  {
    forall b ensures IsAt(at, b, IsLive) == IsAt(at', b, IsLive) {}
  }

  lemma HandSame(freers: Freers, at: Places, at': Places)
    requires HandBlocks(freers, at) && Same(at, at', HandKind)
    ensures HandBlocks(freers, at')
  {
    forall b ensures IsAt(at, b, InHand) == IsAt(at', b, InHand) {}
  }

  /** Waiting depends on the delayed and todo places only. */
  lemma WaitingSame(owners: Owners, at: Places, at': Places)
    requires Same(at, at', DelayedKind) && Same(at, at', TodoKind)
    ensures forall b :: Waiting(owners, at, b) <==> Waiting(owners, at', b)
  {
  }

  lemma LandedSame(freers: Freers, owners: Owners, at: Places, at': Places)
    requires LandedBlocks(freers, owners, at)
    requires Same(at, at', DelayedKind) && Same(at, at', TodoKind)
    ensures LandedBlocks(freers, owners, at')
  {
    WaitingSame(owners, at, at');
  }

  lemma NotLostSame(pages: Pages, owners: Owners, at: Places, at': Places)
    requires NotLost(pages, owners, at)
    requires Same(at, at', DelayedKind) && Same(at, at', TodoKind)
    ensures NotLost(pages, owners, at')
  {
    forall p | p in pages ensures PageNotLost(p, pages[p], owners, at') {
      assert PageNotLost(p, pages[p], owners, at);
      WaitingKept(owners, at, owners, at', p);
    }
  }

  /** If every waiting block of `p` keeps waiting, then `p` keeps having one. */
  lemma WaitingKept(owners: Owners, at: Places, owners': Owners, at': Places, p: PageId)
    requires forall b: Block | b.page == p && Waiting(owners, at, b) :: Waiting(owners', at', b)
    ensures HasWaiting(owners, at, p) ==> HasWaiting(owners', at', p)
  {
    if HasWaiting(owners, at, p) {
      var b: Block :| b.page == p && Waiting(owners, at, b);
      assert Waiting(owners', at', b);
    }
  }

  lemma DelayedBlocksSame(pages: Pages, heaps: Heaps, owners: Owners, at: Places, at': Places)
    requires DelayedBlocks(pages, heaps, owners, at) && Same(at, at', DelayedKind)
    ensures DelayedBlocks(pages, heaps, owners, at')
  {
  }

  lemma TodoBlocksSame(pages: Pages, at: Places, at': Places)
    requires TodoBlocks(pages, at) && Same(at, at', TodoKind)
    ensures TodoBlocks(pages, at')
  {
  }

  // ---------------------------------------------------------------------------------------------
  // Changing a page without changing its owner or heap
  // ---------------------------------------------------------------------------------------------

  /** The page keeps its owner and heap. */
  predicate SameHome(page: Page, page': Page) {
    page'.owner == page.owner && page'.heap == page.heap
  }

  lemma HomesSame(s: State, at: Places, p: PageId, page: Page)
    requires p in s.pages && SameHome(s.pages[p], page)
    requires FreerHeaps(s.pages, s.heaps, s.freers, s.owners)
    requires DelayedBlocks(s.pages, s.heaps, s.owners, at) && TodoBlocks(s.pages, at)
    ensures FreerHeaps(s.pages[p := page], s.heaps, s.freers, s.owners)
    ensures DelayedBlocks(s.pages[p := page], s.heaps, s.owners, at)
    ensures TodoBlocks(s.pages[p := page], at)
  {
  }

  lemma NoPagesSame(pages: Pages, h: HeapId, p: PageId, page: Page)
    requires NoPages(pages, h) && page.heap != Some(h)
    ensures NoPages(pages[p := page], h)
  {
    var pages' := pages[p := page];
    forall q ensures !PageIn(pages', h, q) {
      assert !PageIn(pages, h, q);
    }
  }

  lemma TaskSame(pages: Pages, heaps: Heaps, t: ThreadId, o: Owner, p: PageId, page: Page)
    requires TaskOk(pages, heaps, t, o)
    requires p in pages && SameHome(pages[p], page) && (page.flag == Never <==> pages[p].flag == Never)
    ensures TaskOk(pages[p := page], heaps, t, o)
  {
    if o.task.AbsorbDrain? || o.task.AbsorbEnd? {
      assert !PageIn(pages, o.task.from, p);
      NoPagesSame(pages, o.task.from, p, page);
    }
  }

  /** ... nor whether its flag is NEVER. */
  lemma TasksSame(pages: Pages, heaps: Heaps, owners: Owners, p: PageId, page: Page)
    requires Tasks(pages, heaps, owners)
    requires p in pages && SameHome(pages[p], page) && (page.flag == Never <==> pages[p].flag == Never)
    ensures Tasks(pages[p := page], heaps, owners)
  {
    forall t | t in owners ensures TaskOk(pages[p := page], heaps, t, owners[t]) {
      TaskSame(pages, heaps, t, owners[t], p, page);
    }
  }

  lemma HeapsOfPagesSame(pages: Pages, heaps: Heaps, owners: Owners, p: PageId, page: Page)
    requires HeapsOfPages(pages, heaps, owners)
    requires p in pages && SameHome(pages[p], page) && (page.flag == Never <==> pages[p].flag == Never)
    ensures HeapsOfPages(pages[p := page], heaps, owners)
  {
  }

  lemma PageNotLostChanges(pages: Pages, owners: Owners, at: Places, p: PageId, page: Page)
    requires NotLost(pages, owners, at) && PageNotLost(p, page, owners, at)
    ensures NotLost(pages[p := page], owners, at)
  {
  }

  /** A page whose lists and counts are unchanged keeps its blocks. */
  lemma FlagChanges(pages: Pages, at: Places, p: PageId, page: Page)
    requires BlocksOfPages(pages, at) && p in pages
    requires page.tfree == pages[p].tfree && page.free == pages[p].free && page.localFree == pages[p].localFree
    requires page.used == pages[p].used && page.capacity == pages[p].capacity
    ensures BlocksOfPages(pages[p := page], at)
  {
    assert PageOk(p, pages[p], at);
  }

  // ---------------------------------------------------------------------------------------------
  // The invariant and its parts
  // ---------------------------------------------------------------------------------------------

  lemma InvParts(s: State, g: History)
    requires Inv(s, g)
    ensures BlocksOfPages(s.pages, g.at) && DelayedLists(s.heaps, g.at) && TodoLists(s.owners, g.at)
    ensures LiveBlocks(s.live, g.at) && HandBlocks(s.freers, g.at)
    ensures Locks(s.pages, s.freers, g.lock) && LandedBlocks(s.freers, s.owners, g.at)
    ensures HeapsOfPages(s.pages, s.heaps, s.owners) && FreerHeaps(s.pages, s.heaps, s.freers, s.owners)
    ensures DelayedBlocks(s.pages, s.heaps, s.owners, g.at) && TodoBlocks(s.pages, g.at)
    ensures Tasks(s.pages, s.heaps, s.owners) && NotLost(s.pages, s.owners, g.at)
  {
  }

  lemma PartsInv(s: State, g: History)
    requires BlocksOfPages(s.pages, g.at) && DelayedLists(s.heaps, g.at) && TodoLists(s.owners, g.at)
    requires LiveBlocks(s.live, g.at) && HandBlocks(s.freers, g.at)
    requires Locks(s.pages, s.freers, g.lock) && LandedBlocks(s.freers, s.owners, g.at)
    requires HeapsOfPages(s.pages, s.heaps, s.owners) && FreerHeaps(s.pages, s.heaps, s.freers, s.owners)
    requires DelayedBlocks(s.pages, s.heaps, s.owners, g.at) && TodoBlocks(s.pages, g.at)
    requires Tasks(s.pages, s.heaps, s.owners) && NotLost(s.pages, s.owners, g.at)
    ensures Inv(s, g)
  {
  }
}
