/**
 The cross-thread free protocol as a state machine in which every atomic read, store and
 compare-and-swap is one step.

 A page carries one atomic word (the head of its thread-free list and a two-bit delayed flag), a
 heap carries one atomic word (the head of its delayed-free list).  Any number of threads free
 blocks they do not own: `freers` holds one program counter for each block that is being freed.
 Any number of owning threads allocate, free locally, collect, drain delayed lists, absorb heaps,
 abandon pages and reclaim them: `owners` holds their program counters.

 A step that touches a released page, touches a released heap, or breaks an internal assertion of
 the allocator has the outcome `Fault`.
 */
module FreeProtocol {
  import opened Options

  type PageId = nat
  type HeapId = nat
  type ThreadId = nat

  datatype Block = Block(page: PageId, index: nat)

  datatype Delayed = UseDelayed | Freeing | NoDelayed | Never

  /** A page in use.  `owner` is the thread of its segment (None when abandoned). */
  datatype Page = Page(
    owner: Option<ThreadId>,
    heap: Option<HeapId>,
    flag: Delayed,
    tfree: seq<Block>,
    free: seq<Block>,
    localFree: seq<Block>,
    used: int,
    capacity: nat,
    inFull: bool)

  datatype Heap = Heap(thread: ThreadId, delayed: seq<Block>)

  /** The atomic word of a page: only the head of the list is compared by a CAS. */
  datatype Word = Word(head: Option<Block>, flag: Delayed)

  /** Where a thread freeing someone else's block is in `_mi_free_block_mt`. */
  datatype Freer =
    | Begin                                         // about to read the page word
    | HasWord(word: Word)                           // about to CAS the page word
    | Locked                                        // set DELAYED_FREEING, about to read page->heap
    | HasHeap(heap: HeapId)                         // about to read heap->thread_delayed_free
    | HasDelayed(heap: HeapId, head: Option<Block>) // about to CAS heap->thread_delayed_free
    | Landed                                        // block is on the delayed list
    | Resetting(word: Word)                         // about to CAS the flag to NO_DELAYED_FREE

  /** Where an owner is with the delayed block it is processing. */
  datatype Stage = Spin | Collect | Finish

  datatype Seen = Nothing | SawWord(word: Word) | SawHead(head: Option<Block>)

  datatype Task =
    | Idle
    | CollectPage(page: PageId, force: bool)
    | DelayedFree(heap: HeapId)
    | AbsorbFirst(from: HeapId, to: HeapId)         // first drain of `from`
    | AbsorbPages(from: HeapId, to: HeapId)         // appending the queues
    | AbsorbSpin(from: HeapId, to: HeapId, page: PageId)
    | AbsorbDrain(from: HeapId)                     // second drain of `from`
    | AbsorbEnd(from: HeapId)
    | AbandonMark(heap: HeapId, rest: set<PageId>)  // marking pages NEVER_DELAYED_FREE
    | AbandonSpin(heap: HeapId, page: PageId, rest: set<PageId>)
    | AbandonDrain(heap: HeapId)
    | AbandonVisit(heap: HeapId)
    | AbandonCollect(heap: HeapId, page: PageId)
    | AbandonDecide(heap: HeapId, page: PageId)
    | Popped(page: PageId)                          // took an abandoned page, not reclaimed yet
    | PoppedCollect(page: PageId)
    | ReclaimSpin(page: PageId)                     // heap is set, flag is not
    | ReclaimCollect(page: PageId)
    | ReclaimDecide(page: PageId)

  /** `todo` is the delayed list the owner took over and has not processed yet. */
  datatype Owner = Owner(task: Task, todo: seq<Block>, stage: Stage, seen: Seen)

  datatype State = State(
    pages: map<PageId, Page>,
    heaps: map<HeapId, Heap>,
    freers: map<Block, Freer>,
    live: set<Block>,
    owners: map<ThreadId, Owner>)

  datatype Outcome = Ok(state: State) | Fault

  function Head(list: seq<Block>): Option<Block> {
    if list == [] then None else Some(list[0])
  }

  function WordOf(page: Page): Word {
    Word(Head(page.tfree), page.flag)
  }

  function WithPage(s: State, p: PageId, page: Page): State {
    s.(pages := s.pages[p := page])
  }

  function WithOwner(s: State, t: ThreadId, o: Owner): State {
    s.(owners := s.owners[t := o])
  }

  /** The blocks with indices in [lo, hi) of a page, in order. */
  function Fresh(p: PageId, lo: nat, hi: nat): seq<Block>
    requires lo <= hi
  {
    seq(hi - lo, (i: nat) => Block(p, lo + i))
  }

  // ---------------------------------------------------------------------------------------------
  // Plain (owner-only) page operations
  // ---------------------------------------------------------------------------------------------

  /** Take the whole thread-free list: append it before the local list and update `used`. */
  function TakeThreadFree(page: Page): Page {
    var n := |page.tfree|;
    if n > page.capacity then
      page.(tfree := [])  // "corrupted thread-free list": the items are dropped
    else
      page.(tfree := [], localFree := page.tfree + page.localFree, used := page.used - n)
  }

  /** The second half of `_mi_page_free_collect`: migrate the local list to the free list. */
  function Migrate(page: Page, force: bool): Page {
    if page.localFree == [] then page
    else if page.free == [] then page.(free := page.localFree, localFree := [])
    else if force then page.(free := page.localFree + page.free, localFree := [])
    else page
  }

  /** Push a block on the local list (`_mi_free_block` with `local` set). */
  function FreeLocal(page: Page, b: Block): Page {
    page.(localFree := [b] + page.localFree, used := page.used - 1)
  }

  /** After a local free: retire an empty page (releasing it or keeping it), or unfull a full one. */
  function AfterFree(s: State, p: PageId, page: Page, release: bool): Outcome {
    if page.used == 0 then
      if release then ReleasePage(WithPage(s, p, page), p) else Ok(WithPage(s, p, page))
    else
      Ok(WithPage(s, p, page.(inFull := false)))
  }

  /** `release` is a choice only where `_mi_page_retire` has one. */
  predicate RetireChoice(page: Page, release: bool) {
    if page.used == 0 then page.inFull ==> release else !release
  }

  /** `_mi_page_free` with its internal assertions. */
  function ReleasePage(s: State, p: PageId): Outcome
    requires p in s.pages
  {
    if s.pages[p].used != 0 || s.pages[p].flag == Freeing then Fault
    else Ok(s.(pages := s.pages - {p}))
  }

  // ---------------------------------------------------------------------------------------------
  // A thread freeing a block it does not own: _mi_free_block_mt
  // ---------------------------------------------------------------------------------------------

  function AdvanceFreer(s: State, b: Block, ok: bool): Outcome
    requires b in s.freers
  {
    match s.freers[b]
    case HasHeap(h) =>
      if h !in s.heaps then Fault
      else Ok(s.(freers := s.freers[b := HasDelayed(h, Head(s.heaps[h].delayed))]))
    case HasDelayed(h, head) =>
      if h !in s.heaps then Fault
      else if ok && Head(s.heaps[h].delayed) == head then
        var heap := s.heaps[h];
        Ok(s.(heaps := s.heaps[h := heap.(delayed := [b] + heap.delayed)],
              freers := s.freers[b := Landed]))
      else
        Ok(s.(freers := s.freers[b := HasHeap(h)]))
    case _ =>
      if b.page !in s.pages then Fault else AdvanceOnPage(s, b, ok)
  }

  function AdvanceOnPage(s: State, b: Block, ok: bool): Outcome
    requires b in s.freers && b.page in s.pages
    requires !s.freers[b].HasHeap? && !s.freers[b].HasDelayed?
  {
    var page := s.pages[b.page];
    match s.freers[b]
    case Begin =>
      Ok(s.(freers := s.freers[b := HasWord(WordOf(page))]))
    case HasWord(w) =>
      if ok && WordOf(page) == w then
        if w.flag == UseDelayed then
          Ok(WithPage(s, b.page, page.(flag := Freeing)).(freers := s.freers[b := Locked]))
        else
          Ok(WithPage(s, b.page, page.(tfree := [b] + page.tfree)).(freers := s.freers - {b}))
      else
        Ok(s.(freers := s.freers[b := Begin]))
    case Locked =>
      if page.heap.None? then Fault
      else Ok(s.(freers := s.freers[b := HasHeap(page.heap.value)]))
    case Landed =>
      if page.flag != Freeing then Fault
      else Ok(s.(freers := s.freers[b := Resetting(WordOf(page))]))
    case Resetting(w) =>
      if ok && WordOf(page) == w then
        Ok(WithPage(s, b.page, page.(flag := NoDelayed)).(freers := s.freers - {b}))
      else
        Ok(s.(freers := s.freers[b := Landed]))
  }

  // ---------------------------------------------------------------------------------------------
  // The owner's three atomic loops
  // ---------------------------------------------------------------------------------------------

  /** The call of `_mi_page_use_delayed_free` an owner is in: page, new flag, override_never. */
  datatype SpinCall = SpinCall(page: PageId, delay: Delayed, override: bool)

  function SpinTarget(o: Owner): Option<SpinCall> {
    if o.todo != [] then
      if o.stage == Spin then Some(SpinCall(o.todo[0].page, UseDelayed, false)) else None
    else
      match o.task
      case AbsorbSpin(_, _, p) => Some(SpinCall(p, UseDelayed, false))
      case AbandonSpin(_, p, _) => Some(SpinCall(p, Never, false))
      case ReclaimSpin(p) => Some(SpinCall(p, UseDelayed, true))
      case _ => None
  }

  function SpinDone(o: Owner): Owner {
    if o.todo != [] then o.(stage := Collect, seen := Nothing)
    else
      o.(seen := Nothing, task :=
        match o.task
        case AbsorbSpin(from, to, _) => AbsorbPages(from, to)
        case AbandonSpin(h, _, rest) => AbandonMark(h, rest)
        case ReclaimSpin(p) => ReclaimCollect(p)
        case other => other)
  }

  /** The loop reaches its CAS only for a word whose flag passes these tests. */
  predicate MustSet(call: SpinCall, flag: Delayed) {
    flag != Freeing && flag != call.delay && (call.override || flag != Never)
  }

  function OwnerSpin(s: State, t: ThreadId, ok: bool): Outcome
    requires t in s.owners && SpinTarget(s.owners[t]).Some?
  {
    var o := s.owners[t];
    var call := SpinTarget(o).value;
    if call.page !in s.pages then Fault
    else
      var page := s.pages[call.page];
      match o.seen
      case SawWord(w) =>
        if ok && WordOf(page) == w && MustSet(call, w.flag) then
          Ok(WithOwner(WithPage(s, call.page, page.(flag := call.delay)), t, SpinDone(o)))
        else
          Ok(WithOwner(s, t, o.(seen := Nothing)))
      case _ =>
        if page.flag == Freeing then Ok(s)  // yield and read again
        else if MustSet(call, page.flag) then
          Ok(WithOwner(s, t, o.(seen := SawWord(WordOf(page)))))
        else
          Ok(WithOwner(s, t, SpinDone(o)))
  }

  /** The call of `_mi_page_free_collect` an owner is in. */
  datatype CollectCall = CollectCall(page: PageId, force: bool)

  function CollectTarget(o: Owner): Option<CollectCall> {
    if o.todo != [] then
      if o.stage == Collect then Some(CollectCall(o.todo[0].page, false)) else None
    else
      match o.task
      case CollectPage(p, force) => Some(CollectCall(p, force))
      case AbandonCollect(_, p) => Some(CollectCall(p, true))
      case PoppedCollect(p) => Some(CollectCall(p, false))
      case ReclaimCollect(p) => Some(CollectCall(p, false))
      case _ => None
  }

  function CollectDone(o: Owner): Owner {
    if o.todo != [] then o.(stage := Finish, seen := Nothing)
    else
      o.(seen := Nothing, task :=
        match o.task
        case CollectPage(_, _) => Idle
        case AbandonCollect(h, p) => AbandonDecide(h, p)
        case PoppedCollect(p) => Popped(p)
        case ReclaimCollect(p) => ReclaimDecide(p)
        case other => other)
  }

  function OwnerCollect(s: State, t: ThreadId, ok: bool): Outcome
    requires t in s.owners && CollectTarget(s.owners[t]).Some?
  {
    var o := s.owners[t];
    var call := CollectTarget(o).value;
    if call.page !in s.pages then Fault
    else
      var page := s.pages[call.page];
      match o.seen
      case SawWord(w) =>
        if ok && WordOf(page) == w then
          Ok(WithOwner(WithPage(s, call.page, Migrate(TakeThreadFree(page), call.force)), t, CollectDone(o)))
        else
          Ok(WithOwner(s, t, o.(seen := Nothing)))
      case _ =>
        if !call.force && page.tfree == [] then  // the quick test
          Ok(WithOwner(WithPage(s, call.page, Migrate(page, call.force)), t, CollectDone(o)))
        else
          Ok(WithOwner(s, t, o.(seen := SawWord(WordOf(page)))))
  }

  /** The heap whose delayed list an owner is about to take over in `_mi_heap_delayed_free`. */
  function TakeTarget(o: Owner): Option<HeapId> {
    if o.todo != [] then None
    else
      match o.task
      case DelayedFree(h) => Some(h)
      case AbsorbFirst(from, _) => Some(from)
      case AbsorbDrain(from) => Some(from)
      case AbandonDrain(h) => Some(h)
      case _ => None
  }

  function TakeDone(o: Owner, list: seq<Block>): Owner {
    o.(seen := Nothing, todo := list, stage := Spin, task :=
      match o.task
      case DelayedFree(_) => Idle
      case AbsorbFirst(from, to) => AbsorbPages(from, to)
      case AbsorbDrain(from) => AbsorbEnd(from)
      case AbandonDrain(h) => AbandonVisit(h)
      case other => other)
  }

  function OwnerTake(s: State, t: ThreadId, ok: bool): Outcome
    requires t in s.owners && TakeTarget(s.owners[t]).Some?
  {
    var o := s.owners[t];
    var h := TakeTarget(o).value;
    if h !in s.heaps then Fault
    else
      var list := s.heaps[h].delayed;
      match o.seen
      case SawHead(head) =>
        if ok && Head(list) == head then
          Ok(WithOwner(s, t, TakeDone(o, list)).(heaps := s.heaps[h := s.heaps[h].(delayed := [])]))
        else
          Ok(WithOwner(s, t, o.(seen := Nothing)))
      case _ =>
        if list == [] then Ok(WithOwner(s, t, TakeDone(o, [])))
        else Ok(WithOwner(s, t, o.(seen := SawHead(Head(list)))))
  }

  /** The last part of `_mi_free_delayed_block`: free the block locally, go on to the next one. */
  function OwnerFinish(s: State, t: ThreadId, release: bool): Outcome
    requires t in s.owners && s.owners[t].todo != []
  {
    var o := s.owners[t];
    var b := o.todo[0];
    if b.page !in s.pages then Fault
    else
      AfterFree(WithOwner(s, t, o.(todo := o.todo[1..], stage := Spin)), b.page,
                FreeLocal(s.pages[b.page], b), release)
  }

  // ---------------------------------------------------------------------------------------------
  // Abandoning, absorbing, reclaiming
  // ---------------------------------------------------------------------------------------------

  /** `_mi_page_abandon` with its internal assertions, or the release of an empty page. */
  function AbandonOrRelease(s: State, h: HeapId, p: PageId): Outcome
    requires p in s.pages
  {
    var page := s.pages[p];
    if page.used == 0 then ReleasePage(s, p)
    else if page.flag != Never || h !in s.heaps || (exists b :: b in s.heaps[h].delayed && b.page == p) then Fault
    else Ok(WithPage(s, p, page.(owner := None, heap := None, inFull := false)))
  }

  /** The pages of a heap. */
  function PagesOf(s: State, h: HeapId): set<PageId> {
    set p | p in s.pages && s.pages[p].heap == Some(h)
  }

  /** What an owner does between its atomic loops. */
  datatype Action =
    | DoMalloc(page: PageId)
    | DoFree(block: Block, release: bool)
    | DoExtend(page: PageId, extend: nat)
    | DoFreshPage(page: PageId, heap: HeapId, extend: nat)
    | DoNewHeap(heap: HeapId)
    | DoCollect(page: PageId, force: bool)
    | DoToFull(page: PageId)
    | DoReleaseEmpty(page: PageId)
    | DoDelayedFree(heap: HeapId)
    | DoAbsorb(from: HeapId, to: HeapId)
    | DoAbsorbPage(page: PageId)
    | DoAbsorbNoMore
    | DoAbsorbEnd
    | DoAbandon(heap: HeapId)
    | DoAbandonMark(page: PageId)
    | DoAbandonMarked
    | DoAbandonPage(page: PageId)
    | DoAbandonDecide
    | DoAbandonEnd
    | DoPop(page: PageId)
    | DoCheckFree
    | DoPushBack
    | DoReclaim(heap: HeapId)
    | DoReclaimDecide

  predicate Owns(s: State, t: ThreadId, p: PageId) {
    p in s.pages && s.pages[p].owner == Some(t) && s.pages[p].heap.Some?
  }

  predicate OwnsHeap(s: State, t: ThreadId, h: HeapId) {
    h in s.heaps && s.heaps[h].thread == t
  }

  /** When the program of an owner with nothing left in `todo` can take an action. */
  predicate CanAct(s: State, t: ThreadId, a: Action)
    requires t in s.owners
  {
    var o := s.owners[t];
    o.todo == [] &&
    match a
    case DoMalloc(p) => o.task.Idle? && Owns(s, t, p) && s.pages[p].free != []
    case DoFree(b, release) =>
      o.task.Idle? && b in s.live && Owns(s, t, b.page) && RetireChoice(FreeLocal(s.pages[b.page], b), release)
    case DoExtend(p, n) => o.task.Idle? && Owns(s, t, p)
    case DoFreshPage(p, h, n) => o.task.Idle? && p !in s.pages && OwnsHeap(s, t, h)
    case DoNewHeap(h) => o.task.Idle? && h !in s.heaps
    case DoCollect(p, force) => o.task.Idle? && Owns(s, t, p)
    case DoToFull(p) => o.task.Idle? && Owns(s, t, p) && s.pages[p].free == []
    case DoReleaseEmpty(p) =>
      (o.task.Idle? || o.task.AbandonVisit?) && Owns(s, t, p) && s.pages[p].used == 0
    case DoDelayedFree(h) => o.task.Idle? && OwnsHeap(s, t, h)
    case DoAbsorb(from, to) => o.task.Idle? && from != to && OwnsHeap(s, t, from) && OwnsHeap(s, t, to)
    case DoAbsorbPage(p) => o.task.AbsorbPages? && p in s.pages && s.pages[p].heap == Some(o.task.from)
    case DoAbsorbNoMore => o.task.AbsorbPages? && PagesOf(s, o.task.from) == {}
    case DoAbsorbEnd => o.task.AbsorbEnd?
    case DoAbandon(h) => o.task.Idle? && OwnsHeap(s, t, h)
    case DoAbandonMark(p) => o.task.AbandonMark? && p in o.task.rest
    case DoAbandonMarked => o.task.AbandonMark? && o.task.rest == {}
    case DoAbandonPage(p) => o.task.AbandonVisit? && p in s.pages && s.pages[p].heap == Some(o.task.heap)
    case DoAbandonDecide => o.task.AbandonDecide?
    case DoAbandonEnd => o.task.AbandonVisit? && PagesOf(s, o.task.heap) == {}
    case DoPop(p) => o.task.Idle? && p in s.pages && s.pages[p].owner.None?
    case DoCheckFree => o.task.Popped?
    case DoPushBack => o.task.Popped?
    case DoReclaim(h) => o.task.Popped? && OwnsHeap(s, t, h)
    case DoReclaimDecide => o.task.ReclaimDecide?
  }

  function Act(s: State, t: ThreadId, a: Action): Outcome
    requires t in s.owners && CanAct(s, t, a)
  {
    var o := s.owners[t];
    match a
    case DoMalloc(p) =>
      var page := s.pages[p];
      Ok(WithPage(s, p, page.(free := page.free[1..], used := page.used + 1)).(live := s.live + {page.free[0]}))
    case DoFree(b, release) =>
      AfterFree(s.(live := s.live - {b}), b.page, FreeLocal(s.pages[b.page], b), release)
    case DoExtend(p, n) =>
      var page := s.pages[p];
      Ok(WithPage(s, p, page.(free := Fresh(p, page.capacity, page.capacity + n) + page.free,
                              capacity := page.capacity + n)))
    case DoFreshPage(p, h, n) =>
      Ok(WithPage(s, p, Page(Some(t), Some(h), UseDelayed, [], Fresh(p, 0, n), [], 0, n, false)))
    case DoNewHeap(h) =>
      Ok(s.(heaps := s.heaps[h := Heap(t, [])]))
    case DoCollect(p, force) =>
      Ok(WithOwner(s, t, o.(task := CollectPage(p, force), seen := Nothing)))
    case DoToFull(p) =>
      Ok(WithOwner(WithPage(s, p, s.pages[p].(inFull := true)), t,
                   o.(task := CollectPage(p, false), seen := Nothing)))
    case DoReleaseEmpty(p) =>
      ReleasePage(s, p)
    case DoDelayedFree(h) =>
      Ok(WithOwner(s, t, o.(task := DelayedFree(h), seen := Nothing)))
    case DoAbsorb(from, to) =>
      Ok(WithOwner(s, t, o.(task := if PagesOf(s, from) == {} then AbsorbEnd(from) else AbsorbFirst(from, to),
                            seen := Nothing)))
    case DoAbsorbPage(p) =>
      Ok(WithOwner(WithPage(s, p, s.pages[p].(heap := Some(o.task.to))), t,
                   o.(task := AbsorbSpin(o.task.from, o.task.to, p), seen := Nothing)))
    case DoAbsorbNoMore =>
      Ok(WithOwner(s, t, o.(task := AbsorbDrain(o.task.from), seen := Nothing)))
    case DoAbsorbEnd =>
      EndHeap(WithOwner(s, t, o.(task := Idle)), o.task.from)
    case DoAbandon(h) =>
      Ok(WithOwner(s, t, o.(task := AbandonMark(h, PagesOf(s, h)), seen := Nothing)))
    case DoAbandonMark(p) =>
      Ok(WithOwner(s, t, o.(task := AbandonSpin(o.task.heap, p, o.task.rest - {p}), seen := Nothing)))
    case DoAbandonMarked =>
      Ok(WithOwner(s, t, o.(task := AbandonDrain(o.task.heap), seen := Nothing)))
    case DoAbandonPage(p) =>
      Ok(WithOwner(s, t, o.(task := AbandonCollect(o.task.heap, p), seen := Nothing)))
    case DoAbandonDecide =>
      if o.task.page !in s.pages then Fault
      else AbandonOrRelease(WithOwner(s, t, o.(task := AbandonVisit(o.task.heap))), o.task.heap, o.task.page)
    case DoAbandonEnd =>
      EndHeap(WithOwner(s, t, o.(task := Idle)), o.task.heap)
    case DoPop(p) =>
      Ok(WithOwner(WithPage(s, p, s.pages[p].(owner := Some(t))), t, o.(task := Popped(p), seen := Nothing)))
    case DoCheckFree =>
      Ok(WithOwner(s, t, o.(task := PoppedCollect(o.task.page), seen := Nothing)))
    case DoPushBack =>
      if o.task.page !in s.pages then Fault
      else Ok(WithOwner(WithPage(s, o.task.page, s.pages[o.task.page].(owner := None)), t, o.(task := Idle)))
    case DoReclaim(h) =>
      var p := o.task.page;
      if p !in s.pages || s.pages[p].flag != Never || s.pages[p].heap.Some? then Fault
      else Ok(WithOwner(WithPage(s, p, s.pages[p].(heap := Some(h))), t,
                        o.(task := ReclaimSpin(p), seen := Nothing)))
    case DoReclaimDecide =>
      var p := o.task.page;
      if p !in s.pages then Fault
      else if s.pages[p].used == 0 then ReleasePage(WithOwner(s, t, o.(task := Idle)), p)
      else if s.pages[p].flag == Never then Fault
      else Ok(WithOwner(s, t, o.(task := Idle)))
  }

  /** Free the memory of a heap: its delayed list must be empty and no page may belong to it. */
  function EndHeap(s: State, h: HeapId): Outcome {
    if h !in s.heaps || s.heaps[h].delayed != [] || PagesOf(s, h) != {} then Fault
    else Ok(s.(heaps := s.heaps - {h}))
  }

  // ---------------------------------------------------------------------------------------------
  // Steps and runs
  // ---------------------------------------------------------------------------------------------

  /** `ok` is false where a weak CAS fails although it compared equal. */
  datatype Step =
    | StartFree(block: Block)
    | FreerStep(block: Block, ok: bool)
    | SpinStep(thread: ThreadId, ok: bool)
    | CollectStep(thread: ThreadId, ok: bool)
    | TakeStep(thread: ThreadId, ok: bool)
    | FinishStep(thread: ThreadId, release: bool)
    | ActStep(thread: ThreadId, action: Action)

  predicate Enabled(s: State, step: Step) {
    match step
    case StartFree(b) => b in s.live
    case FreerStep(b, _) => b in s.freers
    case SpinStep(t, _) => t in s.owners && SpinTarget(s.owners[t]).Some?
    case CollectStep(t, _) => t in s.owners && CollectTarget(s.owners[t]).Some?
    case TakeStep(t, _) => t in s.owners && TakeTarget(s.owners[t]).Some?
    case FinishStep(t, release) =>
      t in s.owners && s.owners[t].todo != [] && s.owners[t].stage == Finish &&
      var b := s.owners[t].todo[0];
      b.page in s.pages ==> RetireChoice(FreeLocal(s.pages[b.page], b), release)
    case ActStep(t, a) => t in s.owners && CanAct(s, t, a)
  }

  function Do(s: State, step: Step): Outcome
    requires Enabled(s, step)
  {
    match step
    case StartFree(b) => Ok(s.(live := s.live - {b}, freers := s.freers[b := Begin]))
    case FreerStep(b, ok) => AdvanceFreer(s, b, ok)
    case SpinStep(t, ok) => OwnerSpin(s, t, ok)
    case CollectStep(t, ok) => OwnerCollect(s, t, ok)
    case TakeStep(t, ok) => OwnerTake(s, t, ok)
    case FinishStep(t, release) => OwnerFinish(s, t, release)
    case ActStep(t, a) => Act(s, t, a)
  }

  /** No pages, heaps or blocks yet; any finite set of threads, all idle. */
  predicate Init(s: State) {
    && s.pages == map[] && s.heaps == map[] && s.freers == map[] && s.live == {}
    && forall t | t in s.owners :: s.owners[t] == Owner(Idle, [], Spin, Nothing)
  }

  /** A finite run: the i-th step is enabled in the i-th state and leads to the next one. */
  ghost predicate IsRun(states: seq<State>, steps: seq<Step>) {
    && |states| == |steps| + 1
    && Init(states[0])
    && forall i {:trigger steps[i]} | 0 <= i < |steps| ::
      Enabled(states[i], steps[i]) && Do(states[i], steps[i]) == Ok(states[i + 1])
  }
}
