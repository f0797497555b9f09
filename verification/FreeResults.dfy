/** The main results about the cross-thread free protocol: each speaks of every run. */
module FreeResults {
  import opened Options
  import opened FreeProtocol
  import opened FreeInvariant
  import opened FreeFrames
  import opened FreerSteps
  import opened OwnerLoops
  import opened OwnerActions
  import opened FreeTheorems
  import OwnerTasks
  import FreeQuiet

  /** The state after a run. */
  function Last(states: seq<State>): State
    requires states != []
  {
    states[|states| - 1]
  }

  /** The invariant, said of the last state. */
  lemma LastInvariant(states: seq<State>, steps: seq<Step>) returns (g: History)
    requires IsRun(states, steps)
    ensures states != [] && Inv(Last(states), g)
  {
    hide Inv;
    g := RunInvariant(states, steps);
  }

  // ---------------------------------------------------------------------------------------------
  // Page lifetime
  // ---------------------------------------------------------------------------------------------

  /**
   No step of any run touches a released page or heap, reads a NULL heap under the lock, or breaks
   one of the modelled internal assertions.
   */
  lemma NoFault(states: seq<State>, steps: seq<Step>, step: Step)
    requires IsRun(states, steps) && Enabled(Last(states), step)
    ensures Do(Last(states), step).Ok?
  {
    hide Inv, Enabled, Do;
    var g := LastInvariant(states, steps);
    var g' := StepKeeps(Last(states), g, step);
  }

  datatype Holder =
    | OnFreeList
    | OnLocalList
    | OnThreadFreeList
    | OnDelayedList(heap: HeapId)
    | OnTodoList(thread: ThreadId)
    | WithProgram
    | WithFreer

  /** Who has a block. */
  predicate Holds(s: State, x: Holder, b: Block) {
    match x
    case OnFreeList => b.page in s.pages && b in s.pages[b.page].free
    case OnLocalList => b.page in s.pages && b in s.pages[b.page].localFree
    case OnThreadFreeList => b.page in s.pages && b in s.pages[b.page].tfree
    case OnDelayedList(h) => h in s.heaps && b in s.heaps[h].delayed
    case OnTodoList(t) => t in s.owners && b in s.owners[t].todo
    case WithProgram => b in s.live
    case WithFreer => b in s.freers && HasBlock(s.freers[b])
  }

  function HolderOf(place: Place): Holder {
    match place
    case InFree => OnFreeList
    case InLocal => OnLocalList
    case InThreadFree => OnThreadFreeList
    case InDelayed(h) => OnDelayedList(h)
    case InTodo(t) => OnTodoList(t)
    case IsLive => WithProgram
    case InHand => WithFreer
  }

  lemma PageLists(s: State, g: History, b: Block)
    requires Blocks(s, g.at) && b.page in s.pages
    ensures b in s.pages[b.page].free <==> IsAt(g.at, b, InFree)
    ensures b in s.pages[b.page].localFree <==> IsAt(g.at, b, InLocal)
    ensures b in s.pages[b.page].tfree <==> IsAt(g.at, b, InThreadFree)
  {
    assert PageOk(b.page, s.pages[b.page], g.at);
  }

  lemma HoldsIff(s: State, g: History, x: Holder, b: Block)
    requires Blocks(s, g.at)
    ensures Holds(s, x, b) <==> b in g.at && HolderOf(g.at[b]) == x
  {
    hide PageOk, NoDup;
    match x
    case OnFreeList => if b.page in s.pages { PageLists(s, g, b); }
    case OnLocalList => if b.page in s.pages { PageLists(s, g, b); }
    case OnThreadFreeList => if b.page in s.pages { PageLists(s, g, b); }
    case OnDelayedList(h) =>
      if h in s.heaps { assert ListIs(s.heaps[h].delayed, g.at, InDelayed(h)); }
    case OnTodoList(t) =>
      if t in s.owners { assert ListIs(s.owners[t].todo, g.at, InTodo(t)); }
    case WithProgram => assert b in s.live <==> IsAt(g.at, b, IsLive);
    case WithFreer => assert b in s.freers && HasBlock(s.freers[b]) <==> IsAt(g.at, b, InHand);
  }

  /**
   Conservation: a block has exactly one holder if its page is in use and its index is below the
   page's capacity, and none otherwise; and used + |free| + |local_free| == capacity.
   */
  lemma BlocksConserved(states: seq<State>, steps: seq<Step>, b: Block)
    requires IsRun(states, steps)
    ensures var s := Last(states);
      if b.page in s.pages && b.index < s.pages[b.page].capacity
      then exists x :: Holds(s, x, b) && forall y | Holds(s, y, b) :: y == x
      else forall x :: !Holds(s, x, b)
    ensures var s := Last(states);
      forall p | p in s.pages ::
        s.pages[p].used + |s.pages[p].free| + |s.pages[p].localFree| == s.pages[p].capacity
  {
    hide IsRun, Holds, HolderOf, DelayedLists, TodoLists, LiveBlocks, HandBlocks, Locks, LandedBlocks,
         Ownership, NotLost, PageList;
    var g := LastInvariant(states, steps);
    var s := Last(states);
    forall x ensures Holds(s, x, b) <==> b in g.at && HolderOf(g.at[b]) == x { HoldsIff(s, g, x, b); }
    if b in g.at {
      assert Holds(s, HolderOf(g.at[b]), b);
    }
    forall p | p in s.pages ensures s.pages[p].used + |s.pages[p].free| + |s.pages[p].localFree| == s.pages[p].capacity {
      assert PageOk(p, s.pages[p], g.at);
    }
  }

  /** No list ever holds a block twice, so every list is acyclic. */
  lemma ListsWithoutDuplicates(states: seq<State>, steps: seq<Step>)
    requires IsRun(states, steps)
    ensures var s := Last(states);
      && (forall p | p in s.pages :: NoDup(s.pages[p].free) && NoDup(s.pages[p].localFree) && NoDup(s.pages[p].tfree))
      && (forall h | h in s.heaps :: NoDup(s.heaps[h].delayed))
      && (forall t | t in s.owners :: NoDup(s.owners[t].todo))
  {
    hide IsRun, NoDup;
    var g := LastInvariant(states, steps);
    var s := Last(states);
    forall p | p in s.pages ensures NoDup(s.pages[p].free) && NoDup(s.pages[p].localFree) && NoDup(s.pages[p].tfree) {
      assert PageOk(p, s.pages[p], g.at);
    }
    forall h | h in s.heaps ensures NoDup(s.heaps[h].delayed) { assert ListIs(s.heaps[h].delayed, g.at, InDelayed(h)); }
    forall t | t in s.owners ensures NoDup(s.owners[t].todo) { assert ListIs(s.owners[t].todo, g.at, InTodo(t)); }
  }

  /** The count of `_mi_page_thread_free_collect` never exceeds the capacity. */
  lemma CollectNeverCorrupt(states: seq<State>, steps: seq<Step>, p: PageId)
    requires IsRun(states, steps) && p in Last(states).pages
    ensures |Last(states).pages[p].tfree| <= Last(states).pages[p].capacity
  {
    hide IsRun;
    var g := LastInvariant(states, steps);
    ThreadFreeFits(Last(states).pages, g.at, p);
  }

  /**
   `used == 0` alone makes releasing a page safe: no block of it is live, with a freeing thread, on
   its thread-free list, on a delayed list or on a todo list, nobody is about to touch its word, and
   its flag is not FREEING.
   */
  lemma EmptyPageIsQuiet(states: seq<State>, steps: seq<Step>, p: PageId)
    requires IsRun(states, steps) && p in Last(states).pages && Last(states).pages[p].used == 0
    ensures var s := Last(states);
      && s.pages[p].flag != Freeing && s.pages[p].tfree == []
      && (forall b | b in s.live :: b.page != p)
      && (forall b | b in s.freers :: b.page != p)
      && (forall h, b | h in s.heaps && b in s.heaps[h].delayed :: b.page != p)
      && (forall t, b | t in s.owners && b in s.owners[t].todo :: b.page != p)
  {
    hide IsRun, BlocksOfPages, DelayedLists, TodoLists, LiveBlocks, HandBlocks, Locks, LandedBlocks, Ownership,
         NotLost, Quiet, Holds;
    var g := LastInvariant(states, steps);
    var s := Last(states);
    AllFree(s.pages, g.at, p);
    InvParts(s, g);
    QuietFreers(s.freers, s.owners, g.at, p);
    QuietLocks(s.pages, s.heaps, s.freers, s.owners, g.lock, p);
    QuietLists(s, g, p);
  }

  lemma QuietLists(s: State, g: History, p: PageId)
    requires Blocks(s, g.at) && Quiet(g.at, p) && p in s.pages
    ensures s.pages[p].tfree == []
    ensures forall b | b in s.live :: b.page != p
    ensures forall h, b | h in s.heaps && b in s.heaps[h].delayed :: b.page != p
    ensures forall t, b | t in s.owners && b in s.owners[t].todo :: b.page != p
  {
    hide BlocksOfPages, DelayedLists, TodoLists, LiveBlocks, HandBlocks, Blocks;
    if s.pages[p].tfree != [] { QuietTfree(s, g, p, s.pages[p].tfree[0]); }
    forall b | b in s.live ensures b.page != p { HoldsIff(s, g, WithProgram, b); }
    forall h, b | h in s.heaps && b in s.heaps[h].delayed ensures b.page != p { HoldsIff(s, g, OnDelayedList(h), b); }
    forall t, b | t in s.owners && b in s.owners[t].todo ensures b.page != p { HoldsIff(s, g, OnTodoList(t), b); }
  }

  lemma QuietTfree(s: State, g: History, p: PageId, b: Block)
    requires Blocks(s, g.at) && Quiet(g.at, p) && p in s.pages
    ensures b !in s.pages[p].tfree
  {
    hide DelayedLists, TodoLists, LiveBlocks, HandBlocks;
    assert PageOk(p, s.pages[p], g.at);
    assert b in s.pages[p].tfree <==> b.page == p && IsAt(g.at, b, InThreadFree);
  }

  /** After its release nobody refers to a page: not the program, not a freer, not a list. */
  lemma ReleasedPageUnreferenced(states: seq<State>, steps: seq<Step>, p: PageId)
    requires IsRun(states, steps) && p !in Last(states).pages
    ensures var s := Last(states);
      && (forall b | b in s.live :: b.page != p)
      && (forall b | b in s.freers :: b.page != p)
      && (forall h, b | h in s.heaps && b in s.heaps[h].delayed :: b.page != p)
      && (forall t, b | t in s.owners && b in s.owners[t].todo :: b.page != p)
  {
    hide IsRun, DelayedLists, TodoLists, LiveBlocks, HandBlocks, Locks, LandedBlocks, Ownership, NotLost,
         PageOk, Inv, Holds;
    var g := LastInvariant(states, steps);
    var s := Last(states);
    forall b | b in s.freers ensures b.page != p { FreerPage(s, g, b); }
    forall b: Block | b.page == p ensures forall x :: !Holds(s, x, b) { BlocksConserved(states, steps, b); }
    NotHeld(s, p);
  }

  lemma NotHeld(s: State, p: PageId)
    requires forall b: Block | b.page == p :: forall x :: !Holds(s, x, b)
    ensures forall b | b in s.live :: b.page != p
    ensures forall h, b | h in s.heaps && b in s.heaps[h].delayed :: b.page != p
    ensures forall t, b | t in s.owners && b in s.owners[t].todo :: b.page != p
  {
    forall b | b in s.live ensures b.page != p { assert Holds(s, WithProgram, b); }
    forall h, b | h in s.heaps && b in s.heaps[h].delayed ensures b.page != p { assert Holds(s, OnDelayedList(h), b); }
    forall t, b | t in s.owners && b in s.owners[t].todo ensures b.page != p { assert Holds(s, OnTodoList(t), b); }
  }

  // ---------------------------------------------------------------------------------------------
  // DELAYED_FREEING is a lock
  // ---------------------------------------------------------------------------------------------

  /**
   The flag of a page is DELAYED_FREEING exactly while one freer of a block of that page is between
   its two flag updates; that freer finds a live heap of the page's owner.
   */
  lemma FlagIsALock(states: seq<State>, steps: seq<Step>, p: PageId)
    requires IsRun(states, steps) && p in Last(states).pages
    ensures var s := Last(states);
      s.pages[p].flag == Freeing <==> exists b: Block :: b.page == p && b in s.freers && HoldsLock(s.freers[b])
    ensures var s := Last(states);
      forall b, c: Block | b in s.freers && c in s.freers && b.page == p && c.page == p &&
                           HoldsLock(s.freers[b]) && HoldsLock(s.freers[c]) :: b == c
    ensures var s := Last(states);
      forall b | b in s.freers && b.page == p && HoldsLock(s.freers[b]) ::
        && s.pages[p].heap.Some? && s.pages[p].heap.value in s.heaps
        && s.pages[p].owner == Some(s.heaps[s.pages[p].heap.value].thread)
        && (s.freers[b].HasHeap? || s.freers[b].HasDelayed? ==>
              s.freers[b].heap in s.heaps && s.pages[p].owner == Some(s.heaps[s.freers[b].heap].thread))
  {
    hide IsRun, BlocksOfPages, DelayedLists, TodoLists, LiveBlocks, HandBlocks, LandedBlocks, Ownership, NotLost;
    var g := LastInvariant(states, steps);
    var s := Last(states);
    forall b | b in s.freers && b.page == p && HoldsLock(s.freers[b])
      ensures s.pages[p].heap.Some? && s.pages[p].heap.value in s.heaps
      ensures s.pages[p].owner == Some(s.heaps[s.pages[p].heap.value].thread)
      ensures s.freers[b].HasHeap? || s.freers[b].HasDelayed? ==>
              s.freers[b].heap in s.heaps && s.pages[p].owner == Some(s.heaps[s.freers[b].heap].thread)
    {
      FreerHeap(s, g, b);
    }
  }

  /** Only the holder's own reset ends the lock: every other step leaves the page and its flag alone. */
  lemma OnlyResetUnlocks(s: State, step: Step, p: PageId)
    requires Enabled(s, step) && Do(s, step).Ok? && p in s.pages && s.pages[p].flag == Freeing
    ensures var s' := Do(s, step).state;
      p in s'.pages &&
      (s'.pages[p].flag == Freeing ||
       (step.FreerStep? && step.block.page == p && s.freers[step.block].Resetting? && step.block !in s'.freers))
  {
    hide AdvanceOnPage, OwnerSpin, OwnerCollect, OwnerFinish, Act, CanAct, RetireChoice;
    match step
    case FreerStep(b, ok) => FreerUnlocks(s, b, ok, p);
    case SpinStep(t, ok) => SpinUnlocks(s, t, ok, p);
    case CollectStep(t, ok) => CollectUnlocks(s, t, ok, p);
    case FinishStep(t, release) => FinishUnlocks(s, t, release, p);
    case ActStep(t, a) => ActUnlocks(s, t, a, p);
    case _ =>
  }

  lemma FreerUnlocks(s: State, b: Block, ok: bool, p: PageId)
    requires b in s.freers && AdvanceFreer(s, b, ok).Ok? && p in s.pages && s.pages[p].flag == Freeing
    ensures var s' := AdvanceFreer(s, b, ok).state;
      p in s'.pages && (s'.pages[p].flag == Freeing || (b.page == p && s.freers[b].Resetting? && b !in s'.freers))
  {
  }

  lemma SpinUnlocks(s: State, t: ThreadId, ok: bool, p: PageId)
    requires t in s.owners && SpinTarget(s.owners[t]).Some? && OwnerSpin(s, t, ok).Ok?
    requires p in s.pages && s.pages[p].flag == Freeing
    ensures var s' := OwnerSpin(s, t, ok).state; p in s'.pages && s'.pages[p].flag == Freeing
  {
  }

  lemma CollectUnlocks(s: State, t: ThreadId, ok: bool, p: PageId)
    requires t in s.owners && CollectTarget(s.owners[t]).Some? && OwnerCollect(s, t, ok).Ok?
    requires p in s.pages && s.pages[p].flag == Freeing
    ensures var s' := OwnerCollect(s, t, ok).state; p in s'.pages && s'.pages[p].flag == Freeing
  {
  }

  lemma FinishUnlocks(s: State, t: ThreadId, release: bool, p: PageId)
    requires t in s.owners && s.owners[t].todo != [] && OwnerFinish(s, t, release).Ok?
    requires p in s.pages && s.pages[p].flag == Freeing
    ensures var s' := OwnerFinish(s, t, release).state; p in s'.pages && s'.pages[p].flag == Freeing
  {
  }

  lemma ActUnlocks(s: State, t: ThreadId, a: Action, p: PageId)
    requires t in s.owners && CanAct(s, t, a) && Act(s, t, a).Ok? && p in s.pages && s.pages[p].flag == Freeing
    ensures var s' := Act(s, t, a).state; p in s'.pages && s'.pages[p].flag == Freeing
  {
    hide PagesOf, Fresh, RetireChoice, OwnsHeap;
  }

  // ---------------------------------------------------------------------------------------------
  // No remote free is lost
  // ---------------------------------------------------------------------------------------------

  /** A freer holds the page's lock, a block of the page waits, or an owner is about to collect it. */
  ghost predicate WillBeCollected(s: State, p: PageId) {
    || (exists b: Block :: b.page == p && b in s.freers && HoldsLock(s.freers[b]))
    || (exists h, b: Block :: h in s.heaps && b in s.heaps[h].delayed && b.page == p)
    || (exists t, b: Block :: t in s.owners && Unspun(s.owners[t], b) && b.page == p)
    || AboutToCollect(s.owners, p)
  }

  lemma NotLostState(s: State, g: History, p: PageId)
    requires Inv(s, g) && p in s.pages && s.pages[p].flag != Never
    requires s.pages[p].tfree != [] || s.pages[p].flag == NoDelayed
    ensures WillBeCollected(s, p)
  {
    hide BlocksOfPages, LiveBlocks, HandBlocks, LandedBlocks, Ownership;
    assert PageNotLost(p, s.pages[p], s.owners, g.at);
    if s.pages[p].flag == Freeing {
      var b := g.lock[p];
      assert b in s.freers && HoldsLock(s.freers[b]) && b.page == p;
    } else if HasWaiting(s.owners, g.at, p) {
      var b: Block :| b.page == p && Waiting(s.owners, g.at, b);
      if g.at[b].InDelayed? {
        var h := g.at[b].heap;
        assert ListIs(s.heaps[h].delayed, g.at, InDelayed(h));
        assert IsAt(g.at, b, InDelayed(h));
        assert h in s.heaps && b in s.heaps[h].delayed && b.page == p;
      } else {
        assert Unspun(s.owners[g.at[b].thread], b);
      }
    }
  }

  /** If a page has remote frees and is not NEVER_DELAYED_FREE, something will still collect them. */
  lemma NoLostFree(states: seq<State>, steps: seq<Step>, p: PageId)
    requires IsRun(states, steps) && p in Last(states).pages
    requires Last(states).pages[p].flag != Never && Last(states).pages[p].tfree != []
    ensures WillBeCollected(Last(states), p)
  {
    hide IsRun, Inv;
    var g := LastInvariant(states, steps);
    NotLostState(Last(states), g, p);
  }

  /** No thread is in the middle of a free or of an owner's task. */
  predicate Quiescent(s: State) {
    s.freers == map[] && forall t | t in s.owners :: s.owners[t].task.Idle? && s.owners[t].todo == []
  }

  /**
   When all is quiet, every page of the full queue, and of any heap, that has remote frees has a block
   on the delayed list of its own heap, so the next `_mi_heap_delayed_free` of that heap reaches it.
   */
  lemma QuiescentPageIsReached(states: seq<State>, steps: seq<Step>, p: PageId)
    requires IsRun(states, steps) && Quiescent(Last(states)) && p in Last(states).pages
    requires Last(states).pages[p].inFull || Last(states).pages[p].heap.Some?
    requires Last(states).pages[p].tfree != []
    ensures var s := Last(states);
      && s.pages[p].heap.Some? && s.pages[p].heap.value in s.heaps
      && s.pages[p].owner == Some(s.heaps[s.pages[p].heap.value].thread)
      && exists b :: b in s.heaps[s.pages[p].heap.value].delayed && b.page == p
  {
    hide IsRun, Inv, WillDrain, FreeQuiet.PagesQuiet;
    var g := LastInvariant(states, steps);
    var s := Last(states);
    QuietPage(states, steps, p);
    NotLostState(s, g, p);
    assert !AboutToCollect(s.owners, p);
    var h, b: Block :| h in s.heaps && b in s.heaps[h].delayed && b.page == p;
    DelayedHeap(s, g, h, b);
  }

  /** When all is quiet, a full page has a heap, and a page of a heap is not NEVER_DELAYED_FREE. */
  lemma QuietPage(states: seq<State>, steps: seq<Step>, p: PageId)
    requires IsRun(states, steps) && Quiescent(Last(states)) && p in Last(states).pages
    ensures Last(states).pages[p].inFull ==> Last(states).pages[p].heap.Some?
    ensures Last(states).pages[p].heap.Some? ==> Last(states).pages[p].flag != Never
  {
    hide Init, Enabled, Do;
    FreeQuiet.RunQuiet(states, steps);
    assert FreeQuiet.PageQuiet(p, Last(states).pages[p], Last(states).owners);
  }

  lemma DelayedHeap(s: State, g: History, h: HeapId, b: Block)
    requires Inv(s, g) && h in s.heaps && b in s.heaps[h].delayed
    ensures s.heaps[h].thread in s.owners
    ensures DelayedOk(b.page, h, s.pages, s.heaps, s.owners)
    ensures s.owners[s.heaps[h].thread].task.Idle? ==> s.pages[b.page].heap == Some(h)
  {
    hide BlocksOfPages, Locks, LandedBlocks, FreerHeaps, NotLost, LiveBlocks, HandBlocks, TodoLists, HeapsOfPages;
    assert ListIs(s.heaps[h].delayed, g.at, InDelayed(h));
    assert IsAt(g.at, b, InDelayed(h));
  }

  /** A block leaves a todo list only when its owner finishes freeing it. */
  lemma OnlyFinishLeaves(s: State, step: Step, t: ThreadId, b: Block)
    requires Enabled(s, step) && Do(s, step).Ok? && t in s.owners && b in s.owners[t].todo
    ensures var s' := Do(s, step).state;
      t in s'.owners && (b in s'.owners[t].todo || (step.FinishStep? && step.thread == t && s.owners[t].todo[0] == b))
  {
    hide OwnerSpin, OwnerCollect, OwnerTake, OwnerFinish, Act, CanAct, RetireChoice, AdvanceFreer;
    match step
    case FreerStep(c, ok) => assert Do(s, step).state.owners == s.owners by { FreerOwners(s, c, ok); }
    case SpinStep(u, ok) => SpinTodo(s, u, ok, t);
    case CollectStep(u, ok) => CollectTodo(s, u, ok, t);
    case TakeStep(u, ok) => TakeTodo(s, u, ok, t);
    case FinishStep(u, release) => FinishTodo(s, u, release, t, b);
    case ActStep(u, a) => ActTodo(s, u, a, t);
    case _ =>
  }

  lemma FreerOwners(s: State, b: Block, ok: bool)
    requires b in s.freers && AdvanceFreer(s, b, ok).Ok?
    ensures AdvanceFreer(s, b, ok).state.owners == s.owners
  {
  }

  lemma SpinTodo(s: State, u: ThreadId, ok: bool, t: ThreadId)
    requires u in s.owners && SpinTarget(s.owners[u]).Some? && OwnerSpin(s, u, ok).Ok? && t in s.owners
    ensures t in OwnerSpin(s, u, ok).state.owners && OwnerSpin(s, u, ok).state.owners[t].todo == s.owners[t].todo
  {
  }

  lemma CollectTodo(s: State, u: ThreadId, ok: bool, t: ThreadId)
    requires u in s.owners && CollectTarget(s.owners[u]).Some? && OwnerCollect(s, u, ok).Ok? && t in s.owners
    ensures t in OwnerCollect(s, u, ok).state.owners && OwnerCollect(s, u, ok).state.owners[t].todo == s.owners[t].todo
  {
  }

  lemma TakeTodo(s: State, u: ThreadId, ok: bool, t: ThreadId)
    requires u in s.owners && TakeTarget(s.owners[u]).Some? && OwnerTake(s, u, ok).Ok? && t in s.owners
    requires s.owners[t].todo != []
    ensures t in OwnerTake(s, u, ok).state.owners && OwnerTake(s, u, ok).state.owners[t].todo == s.owners[t].todo
  {
  }

  lemma FinishTodo(s: State, u: ThreadId, release: bool, t: ThreadId, b: Block)
    requires u in s.owners && s.owners[u].todo != [] && OwnerFinish(s, u, release).Ok? && t in s.owners
    requires b in s.owners[t].todo
    ensures t in OwnerFinish(s, u, release).state.owners
    ensures b in OwnerFinish(s, u, release).state.owners[t].todo || (u == t && s.owners[t].todo[0] == b)
  {
    var todo := s.owners[t].todo;
    assert todo == [todo[0]] + todo[1..];
  }

  lemma ActTodo(s: State, u: ThreadId, a: Action, t: ThreadId)
    requires u in s.owners && CanAct(s, u, a) && Act(s, u, a).Ok? && t in s.owners
    ensures t in Act(s, u, a).state.owners && Act(s, u, a).state.owners[t].todo == s.owners[t].todo
  {
    hide PagesOf, Fresh, RetireChoice, OwnsHeap, Owns;
  }

  /** At some step between `i` and `j` the page of `b` was released or taken off the full queue. */
  ghost predicate LeftFull(states: seq<State>, b: Block, i: nat, j: nat)
    requires j < |states|
  {
    exists k :: i < k <= j && (b.page in states[k].pages ==> !states[k].pages[b.page].inFull)
  }

  /**
   A drain reaches the page of every block it took over: if `b` was on the owner's todo list and is
   no more, its page was released or left the full queue in between.
   */
  lemma {:induction false} DrainReaches(states: seq<State>, steps: seq<Step>, t: ThreadId, b: Block, i: nat, j: nat)
    requires IsRun(states, steps) && i <= j < |states|
    requires t in states[i].owners && b in states[i].owners[t].todo
    requires t !in states[j].owners || b !in states[j].owners[t].todo
    ensures LeftFull(states, b, i, j)
    decreases j - i
  {
    hide Enabled, Do, Init;
    var step := steps[i];
    assert Enabled(states[i], step) && Do(states[i], step) == Ok(states[i + 1]);
    OnlyFinishLeaves(states[i], step, t, b);
    if b in states[i + 1].owners[t].todo {
      DrainReaches(states, steps, t, b, i + 1, j);
    } else {
      FinishedLeavesFull(states[i], step);
    }
  }

  lemma FinishedLeavesFull(s: State, step: Step)
    requires step.FinishStep? && Enabled(s, step) && Do(s, step).Ok?
    ensures var p := s.owners[step.thread].todo[0].page;
      p in Do(s, step).state.pages ==> !Do(s, step).state.pages[p].inFull
  {
  }

  /** Taking over a delayed list puts all of it on the owner's todo list. */
  lemma DrainTakesAll(s: State, t: ThreadId, ok: bool)
    requires t in s.owners && TakeTarget(s.owners[t]).Some? && OwnerTake(s, t, ok).Ok?
    requires TakeTarget(OwnerTake(s, t, ok).state.owners[t]) != TakeTarget(s.owners[t])
    ensures var h := TakeTarget(s.owners[t]).value;
      OwnerTake(s, t, ok).state.owners[t].todo == s.heaps[h].delayed && OwnerTake(s, t, ok).state.heaps[h].delayed == []
  {
  }

  // ---------------------------------------------------------------------------------------------
  // Handing a heap over
  // ---------------------------------------------------------------------------------------------

  /** No freer has read heap `h` and is about to push on its delayed list. */
  predicate NoHolder(s: State, h: HeapId) {
    forall b | b in s.freers && (s.freers[b].HasHeap? || s.freers[b].HasDelayed?) :: s.freers[b].heap != h
  }

  /** The owner of heap `h` has appended all its pages elsewhere, or has marked all of them NEVER. */
  predicate HandedOver(o: Owner, h: HeapId) {
    match o.task
    case AbsorbDrain(from) => from == h
    case AbsorbEnd(from) => from == h
    case AbandonDrain(k) => k == h
    case AbandonVisit(k) => k == h
    case AbandonCollect(k, _) => k == h
    case AbandonDecide(k, _) => k == h
    case _ => false
  }

  lemma HandedOverTask(s: State, g: History, t: ThreadId, h: HeapId, b: Block)
    requires Inv(s, g) && t in s.owners && HandedOver(s.owners[t], h)
    requires b in s.freers && (s.freers[b].HasHeap? || s.freers[b].HasDelayed?)
    ensures s.freers[b].heap != h
  {
    hide Inv;
    FreerHeap(s, g, b);
    OwnerTaskOk(s, g, t);
    var task := s.owners[t].task;
    assert PageIn(s.pages, h, b.page) <==> s.pages[b.page].heap == Some(h);
  }

  /**
   Once every page of a heap was appended to the absorbing heap, or was marked NEVER, no freer holds
   the heap, and no step can push on its delayed list: the list stays as it is or is taken over.
   */
  lemma HandOver(states: seq<State>, steps: seq<Step>, t: ThreadId, h: HeapId, step: Step)
    requires IsRun(states, steps) && t in Last(states).owners && HandedOver(Last(states).owners[t], h)
    requires Enabled(Last(states), step) && Do(Last(states), step).Ok?
    ensures NoHolder(Last(states), h)
    ensures var s' := Do(Last(states), step).state;
      h in Last(states).heaps && h in s'.heaps ==>
        s'.heaps[h].delayed == Last(states).heaps[h].delayed || s'.heaps[h].delayed == []
  {
    hide IsRun, Inv, HandedOver, Do, Enabled;
    var g := LastInvariant(states, steps);
    var s := Last(states);
    forall b | b in s.freers && (s.freers[b].HasHeap? || s.freers[b].HasDelayed?) ensures s.freers[b].heap != h {
      HandedOverTask(s, g, t, h, b);
    }
    if h in s.heaps && h in Do(s, step).state.heaps { OnlyHoldersPush(s, h, step); }
  }

  /** A step pushes on the delayed list of a heap only for a freer that holds the heap. */
  lemma OnlyHoldersPush(s: State, h: HeapId, step: Step)
    requires Enabled(s, step) && Do(s, step).Ok? && h in s.heaps && h in Do(s, step).state.heaps && NoHolder(s, h)
    ensures var list := Do(s, step).state.heaps[h].delayed; list == s.heaps[h].delayed || list == []
  {
  }

  /** An absorbed heap is freed with an empty list, and so is the heap of a thread that ends. */
  lemma HeapEndsEmpty(states: seq<State>, steps: seq<Step>, t: ThreadId)
    requires IsRun(states, steps) && t in Last(states).owners
    requires Last(states).owners[t].task.AbsorbEnd? || Last(states).owners[t].task.AbandonVisit?
    ensures var s := Last(states);
      var h := if s.owners[t].task.AbsorbEnd? then s.owners[t].task.from else s.owners[t].task.heap;
      h in s.heaps && s.heaps[h].delayed == [] && NoHolder(s, h)
  {
    hide IsRun, Inv;
    var g := LastInvariant(states, steps);
    var s := Last(states);
    var h := if s.owners[t].task.AbsorbEnd? then s.owners[t].task.from else s.owners[t].task.heap;
    OwnerTaskOk(s, g, t);
    forall b | b in s.freers && (s.freers[b].HasHeap? || s.freers[b].HasDelayed?) ensures s.freers[b].heap != h {
      HandedOverTask(s, g, t, h, b);
    }
  }

  /** An abandoned page is NEVER_DELAYED_FREE, unlocked, and on no delayed or todo list. */
  lemma AbandonedPageDetached(states: seq<State>, steps: seq<Step>, p: PageId)
    requires IsRun(states, steps) && p in Last(states).pages && Last(states).pages[p].owner.None?
    ensures var s := Last(states);
      && s.pages[p].flag == Never && s.pages[p].heap.None?
      && (forall b | b in s.freers && b.page == p :: !HoldsLock(s.freers[b]))
      && (forall h, b | h in s.heaps && b in s.heaps[h].delayed :: b.page != p)
      && (forall t, b | t in s.owners && b in s.owners[t].todo :: b.page != p)
  {
    hide IsRun, Inv, Holds;
    var g := LastInvariant(states, steps);
    var s := Last(states);
    OrphanHeap(s, g, p);
    DetachedLists(s, g, p);
    forall b | b in s.freers && b.page == p ensures !HoldsLock(s.freers[b]) {
      if HoldsLock(s.freers[b]) { FreerHeap(s, g, b); }
    }
  }

  lemma DetachedLists(s: State, g: History, p: PageId)
    requires Inv(s, g) && p in s.pages && s.pages[p].heap.None?
    ensures s.pages[p].flag == Never
    ensures forall h, b | h in s.heaps && b in s.heaps[h].delayed :: b.page != p
    ensures forall t, b | t in s.owners && b in s.owners[t].todo :: b.page != p
  {
    hide BlocksOfPages, DelayedLists, TodoLists, LiveBlocks, HandBlocks, Locks, LandedBlocks, FreerHeaps,
         NotLost, Tasks, TodoBlocks, DelayedBlocks;
    assert PageHeapOk(s.pages[p], s.heaps, s.owners);
    OwnerTasks.NoDelayedBlock(s, g.at, p);
    forall h, b | h in s.heaps && b in s.heaps[h].delayed ensures b.page != p { HoldsIff(s, g, OnDelayedList(h), b); }
    forall t, b | t in s.owners && b in s.owners[t].todo ensures b.page != p { HoldsIff(s, g, OnTodoList(t), b); }
  }
}
