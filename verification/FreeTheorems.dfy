/** The invariant holds in every state of every run, and what follows from it. */
module FreeTheorems {
  import opened Options
  import opened FreeProtocol
  import opened FreeInvariant
  import opened FreeFrames
  import opened FreerSteps
  import opened OwnerLoops
  import opened OwnerActions
  import opened OwnerTasks

  // ---------------------------------------------------------------------------------------------
  // Actions that only start the next task of an owner
  // ---------------------------------------------------------------------------------------------

  predicate OnlyTask(a: Action) {
    a.DoCollect? || a.DoDelayedFree? || a.DoAbsorb? || a.DoAbsorbNoMore? || a.DoAbandon? || a.DoAbandonMark? ||
    a.DoAbandonMarked? || a.DoAbandonPage? || a.DoCheckFree?
  }

  lemma NextTaskOnly(s: State, t: ThreadId, a: Action)
    requires t in s.owners && CanAct(s, t, a) && OnlyTask(a)
    ensures Act(s, t, a).Ok? && t in Act(s, t, a).state.owners
    ensures var o := Act(s, t, a).state.owners[t]; Act(s, t, a).state == s.(owners := s.owners[t := o])
  {
    hide PagesOf, Owns, OwnsHeap;
  }

  lemma FirstTaskOk(s: State, t: ThreadId, a: Action)
    requires t in s.owners && CanAct(s, t, a) && (a.DoCollect? || a.DoDelayedFree? || a.DoAbsorb? || a.DoAbandon?)
    requires DelayedEmpties(s, t)
    ensures Act(s, t, a).Ok? && TaskOk(s.pages, s.heaps, t, Act(s, t, a).state.owners[t])
  {
    hide CollectTarget, WillDrain, DelayedEmpties, PagesOf, NoPages, RetireChoice, NeverFlagged, AllIn;
    match a
    case DoAbsorb(from, to) => if PagesOf(s, from) == {} { AbsorbStartOk(s, t, from, to); }
    case DoAbandon(h) => AbandonStartOk(s, h);
    case _ =>
  }

  lemma NextTaskOk(s: State, t: ThreadId, a: Action)
    requires t in s.owners && CanAct(s, t, a) && OnlyTask(a) && TaskOk(s.pages, s.heaps, t, s.owners[t])
    requires DelayedEmpties(s, t)
    ensures Act(s, t, a).Ok? && TaskOk(s.pages, s.heaps, t, Act(s, t, a).state.owners[t])
  {
    hide CollectTarget, WillDrain, DelayedEmpties, PagesOf, NoPages, RetireChoice, NeverFlagged, AllIn;
    if a.DoCollect? || a.DoDelayedFree? || a.DoAbsorb? || a.DoAbandon? {
      FirstTaskOk(s, t, a);
    } else {
      match a
      case DoAbsorbNoMore => NoPagesOf(s, s.owners[t].task.from);
      case DoAbandonMark(p) => assert s.owners[t].task.rest - {p} + {p} == s.owners[t].task.rest;
      case _ =>
    }
  }

  lemma AbsorbStartOk(s: State, t: ThreadId, from: HeapId, to: HeapId)
    requires t in s.owners && s.owners[t].task.Idle? && from != to && OwnsHeap(s, t, from) && OwnsHeap(s, t, to)
    requires DelayedEmpties(s, t) && PagesOf(s, from) == {}
    ensures s.heaps[from].delayed == [] && NoPages(s.pages, from)
  {
    NoPagesOf(s, from);
  }

  lemma AbandonStartOk(s: State, h: HeapId)
    ensures AllIn(s.pages, h, PagesOf(s, h)) && NeverFlagged(s.pages, h, PagesOf(s, h))
  {
  }

  /** A heap of thread `t` without pages has an empty delayed list, unless `t` is absorbing it. */
  ghost predicate DelayedEmpties(s: State, t: ThreadId)
    requires t in s.owners
  {
    forall h | HeapOwned(s.heaps, t, h) && NoPages(s.pages, h) && !WillDrain(s.owners[t], h) :: s.heaps[h].delayed == []
  }

  lemma DelayedEmpty(s: State, g: History, t: ThreadId)
    requires Inv(s, g) && t in s.owners
    ensures DelayedEmpties(s, t)
  {
    hide BlocksOfPages, Locks, LandedBlocks, FreerHeaps, NotLost, LiveBlocks, HandBlocks, Tasks, TodoLists;
    forall h | HeapOwned(s.heaps, t, h) && NoPages(s.pages, h) && !WillDrain(s.owners[t], h)
      ensures s.heaps[h].delayed == []
    {
      assert ListIs(s.heaps[h].delayed, g.at, InDelayed(h));
      if s.heaps[h].delayed != [] {
        var b := s.heaps[h].delayed[0];
        assert b in s.heaps[h].delayed;
        assert IsAt(g.at, b, InDelayed(h));
        NotInHeap(s.pages, h, b.page);
        assert false;
      }
    }
  }

  /** An owner with nothing in its hands can start any task, if it goes on absorbing. */
  lemma FreeToMove(pages: Pages, o: Owner, o': Owner)
    requires o.todo == [] && o'.todo == [] && CollectTarget(o).None?
    requires !o.task.ReclaimSpin? && !o.task.AbsorbSpin? && !o.task.AbsorbDrain?
    requires o.task.AbsorbPages? ==> o'.task == AbsorbDrain(o.task.from)
    ensures CanMove(pages, o, o')
  {
  }

  lemma NextTaskCanMove(s: State, t: ThreadId, a: Action)
    requires t in s.owners && CanAct(s, t, a) && OnlyTask(a) && Act(s, t, a).Ok?
    ensures CanMove(s.pages, s.owners[t], Act(s, t, a).state.owners[t])
  {
    hide CanMove, PagesOf, Owns, OwnsHeap;
    FreeToMove(s.pages, s.owners[t], Act(s, t, a).state.owners[t]);
  }

  lemma TaskStarts(s: State, g: History, t: ThreadId, a: Action)
    requires Inv(s, g) && t in s.owners && CanAct(s, t, a) && OnlyTask(a)
    ensures Act(s, t, a).Ok? && Inv(Act(s, t, a).state, g)
  {
    hide Inv, CanMove, TaskOk, CanAct, Act, OnlyTask, DelayedEmpties;
    OwnerTaskOk(s, g, t);
    DelayedEmpty(s, g, t);
    NextTaskOnly(s, t, a);
    NextTaskOk(s, t, a);
    NextTaskCanMove(s, t, a);
    OwnerMoves(s, g, t, Act(s, t, a).state.owners[t]);
  }

  // ---------------------------------------------------------------------------------------------
  // The other actions
  // ---------------------------------------------------------------------------------------------

  lemma ToFullKeeps(s: State, g: History, t: ThreadId, p: PageId)
    requires Inv(s, g) && t in s.owners && CanAct(s, t, DoToFull(p))
    ensures Inv(Act(s, t, DoToFull(p)).state, g)
  {
    hide BlocksOfPages, DelayedLists, TodoLists, LiveBlocks, HandBlocks, Locks, LandedBlocks, FreerHeaps,
      DelayedBlocks, TodoBlocks, Tasks, HeapsOfPages, NotLost, CanMove, TaskOk;
    var page := s.pages[p].(inFull := true);
    FlagChanges(s.pages, g.at, p, page);
    OnlyListsKeep(s, g, p, page);
    var s1 := WithPage(s, p, page);
    var o := s.owners[t].(task := CollectPage(p, false), seen := Nothing);
    CollectStarts(s1, t, p);
    OwnerMoves(s1, g, t, o);
  }

  lemma CollectStarts(s: State, t: ThreadId, p: PageId)
    requires t in s.owners && s.owners[t].task.Idle? && s.owners[t].todo == [] && Owns(s, t, p)
    ensures var o := s.owners[t].(task := CollectPage(p, false), seen := Nothing);
      CanMove(s.pages, s.owners[t], o) && TaskOk(s.pages, s.heaps, t, o)
  {
  }

  /** An owner becomes idle, or goes on visiting pages, when its task for a page or heap is done. */
  lemma TaskEnds(s: State, g: History, t: ThreadId, task: Task)
    requires Inv(s, g) && t in s.owners && s.owners[t].todo == []
    requires task.Idle? || (s.owners[t].task.AbandonDecide? && task == AbandonVisit(s.owners[t].task.heap))
    requires var old_ := s.owners[t].task; old_.AbsorbEnd? || old_.AbandonVisit? || old_.AbandonDecide? || old_.ReclaimDecide?
    ensures Inv(s.(owners := s.owners[t := s.owners[t].(task := task)]), g)
  {
    hide Inv;
    OwnerTaskOk(s, g, t);
    OwnerMoves(s, g, t, s.owners[t].(task := task));
  }

  lemma HeapEnds(s: State, g: History, t: ThreadId, a: Action)
    requires Inv(s, g) && t in s.owners && CanAct(s, t, a) && (a.DoAbsorbEnd? || a.DoAbandonEnd?)
    ensures Act(s, t, a).Ok? && Inv(Act(s, t, a).state, g)
  {
    hide Inv, EndHeap;
    var o := s.owners[t];
    var h := if a.DoAbsorbEnd? then o.task.from else o.task.heap;
    OwnerTaskOk(s, g, t);
    NoPagesOf(s, h);
    TaskEnds(s, g, t, Idle);
    EndHeapKeeps(WithOwner(s, t, o.(task := Idle)), g, t, h);
  }

  lemma DecideKeeps(s: State, g: History, t: ThreadId) returns (g': History)
    requires Inv(s, g) && t in s.owners && CanAct(s, t, DoAbandonDecide)
    ensures Act(s, t, DoAbandonDecide).Ok? && Inv(Act(s, t, DoAbandonDecide).state, g')
  {
    hide Inv, CanMove, TaskOk, Detached;
    var o, p, h := s.owners[t], s.owners[t].task.page, s.owners[t].task.heap;
    var o' := o.(task := AbandonVisit(h));
    g' := g;
    AbandonedDetached(s, g, t);
    DetachedPage(s, g.at, p);
    if s.pages[p].used == 0 {
      TaskEnds(s, g, t, AbandonVisit(h));
      g' := ReleaseKeeps(WithOwner(s, t, o'), g, t, p);
    } else {
      var page := s.pages[p].(owner := None, heap := None, inFull := false);
      OwnerTaskOk(s, g, t);
      DecideMoves(s, t, p, page);
      RehomeKeeps(s, g, t, p, page, o');
    }
  }

  lemma DecideMoves(s: State, t: ThreadId, p: PageId, page: Page)
    requires t in s.owners && TaskOk(s.pages, s.heaps, t, s.owners[t])
    requires s.owners[t].task.AbandonDecide? && s.owners[t].task.page == p && p in s.pages && page.heap.None?
    ensures var o := s.owners[t].(task := AbandonVisit(s.owners[t].task.heap));
      CanMove(s.pages, s.owners[t], o) && TaskOk(s.pages[p := page], s.heaps, t, o)
  {
    var pages' := s.pages[p := page];
    forall h, q {:trigger PageIn(pages', h, q)} ensures PageIn(pages', h, q) <==> PageIn(s.pages, h, q) && q != p {}
  }

  lemma PopKeeps(s: State, g: History, t: ThreadId, p: PageId)
    requires Inv(s, g) && t in s.owners && CanAct(s, t, DoPop(p))
    ensures Inv(Act(s, t, DoPop(p)).state, g)
  {
    hide Inv, CanMove, Detached;
    OrphanHeap(s, g, p);
    HeaplessDetached(s, g, p);
    var o := s.owners[t].(task := Popped(p), seen := Nothing);
    IdleCanMove(s.pages, s.owners[t], o);
    RehomeKeeps(s, g, t, p, s.pages[p].(owner := Some(t)), o);
  }

  lemma OrphanHeap(s: State, g: History, p: PageId)
    requires Inv(s, g) && p in s.pages && s.pages[p].owner.None?
    ensures s.pages[p].heap.None?
  {
    assert PageHeapOk(s.pages[p], s.heaps, s.owners);
  }

  lemma IdleCanMove(pages: Pages, o: Owner, o': Owner)
    requires o.todo == [] && o'.todo == [] && (o.task.Idle? || o.task.Popped?)
    ensures CanMove(pages, o, o') && forall q :: !Collects(o, q)
  {
  }

  lemma PushBackKeeps(s: State, g: History, t: ThreadId)
    requires Inv(s, g) && t in s.owners && CanAct(s, t, DoPushBack)
    ensures Act(s, t, DoPushBack).Ok? && Inv(Act(s, t, DoPushBack).state, g)
  {
    hide Inv, CanMove, Detached;
    OwnerTaskOk(s, g, t);
    var p, o := s.owners[t].task.page, s.owners[t].(task := Idle);
    HeaplessDetached(s, g, p);
    IdleCanMove(s.pages, s.owners[t], o);
    RehomeKeeps(s, g, t, p, s.pages[p].(owner := None), o);
  }

  lemma ReclaimKeeps(s: State, g: History, t: ThreadId, h: HeapId)
    requires Inv(s, g) && t in s.owners && CanAct(s, t, DoReclaim(h))
    ensures Act(s, t, DoReclaim(h)).Ok? && Inv(Act(s, t, DoReclaim(h)).state, g)
  {
    hide Inv, CanMove, Detached;
    OwnerTaskOk(s, g, t);
    var p, o := s.owners[t].task.page, s.owners[t].(task := ReclaimSpin(s.owners[t].task.page), seen := Nothing);
    HeaplessDetached(s, g, p);
    IdleCanMove(s.pages, s.owners[t], o);
    RehomeKeeps(s, g, t, p, s.pages[p].(heap := Some(h)), o);
  }

  lemma ReclaimDecideKeeps(s: State, g: History, t: ThreadId) returns (g': History)
    requires Inv(s, g) && t in s.owners && CanAct(s, t, DoReclaimDecide)
    ensures Act(s, t, DoReclaimDecide).Ok? && Inv(Act(s, t, DoReclaimDecide).state, g')
  {
    hide Inv;
    OwnerTaskOk(s, g, t);
    var p := s.owners[t].task.page;
    g' := g;
    TaskEnds(s, g, t, Idle);
    if s.pages[p].used == 0 {
      g' := ReleaseKeeps(WithOwner(s, t, s.owners[t].(task := Idle)), g, t, p);
    }
  }

  lemma ActKeeps(s: State, g: History, t: ThreadId, a: Action) returns (g': History)
    requires Inv(s, g) && t in s.owners && CanAct(s, t, a)
    ensures Act(s, t, a).Ok? && Inv(Act(s, t, a).state, g')
  {
    hide Inv;
    g' := g;
    match a
    case DoMalloc(p) => g' := MallocKeeps(s, g, p);
    case DoFree(b, release) => g' := FreeStepKeeps(s, g, t, b, release);
    case DoExtend(p, n) => g' := ExtendKeeps(s, g, p, n);
    case DoFreshPage(p, h, n) => g' := FreshPageKeeps(s, g, t, p, h, n);
    case DoNewHeap(h) => NewHeapKeeps(s, g, t, h);
    case DoToFull(p) => ToFullKeeps(s, g, t, p);
    case DoReleaseEmpty(p) => g' := ReleaseKeeps(s, g, t, p);
    case DoAbsorbPage(p) => AbsorbPageKeeps(s, g, t, p);
    case DoAbsorbEnd => HeapEnds(s, g, t, a);
    case DoAbandonEnd => HeapEnds(s, g, t, a);
    case DoAbandonDecide => g' := DecideKeeps(s, g, t);
    case DoPop(p) => PopKeeps(s, g, t, p);
    case DoPushBack => PushBackKeeps(s, g, t);
    case DoReclaim(h) => ReclaimKeeps(s, g, t, h);
    case DoReclaimDecide => g' := ReclaimDecideKeeps(s, g, t);
    case _ => TaskStarts(s, g, t, a);
  }

  // ---------------------------------------------------------------------------------------------
  // Every step, every run
  // ---------------------------------------------------------------------------------------------

  lemma InitHolds(s: State) returns (g: History)
    requires Init(s)
    ensures Inv(s, g)
  {
    g := History(map[], map[]);
  }

  /** Every enabled step, of any thread, keeps the invariant and faults nowhere. */
  lemma StepKeeps(s: State, g: History, step: Step) returns (g': History)
    requires Inv(s, g) && Enabled(s, step)
    ensures Do(s, step).Ok? && Inv(Do(s, step).state, g')
  {
    hide Inv;
    g' := g;
    match step
    case StartFree(b) => g' := StartFreeKeeps(s, g, b);
    case FreerStep(b, ok) => g' := FreerStepKeeps(s, g, b, ok);
    case SpinStep(t, ok) => SpinKeeps(s, g, t, ok);
    case CollectStep(t, ok) => g' := CollectKeeps(s, g, t, ok);
    case TakeStep(t, ok) => g' := TakeKeeps(s, g, t, ok);
    case FinishStep(t, release) => g' := FinishStepKeeps(s, g, t, release);
    case ActStep(t, a) => g' := ActKeeps(s, g, t, a);
  }

  lemma {:induction false} RunInvariant(states: seq<State>, steps: seq<Step>) returns (g: History)
    requires IsRun(states, steps)
    ensures Inv(states[|steps|], g)
    decreases |steps|
  {
    hide Inv, Enabled, Do, Init;
    if steps == [] {
      g := InitHolds(states[0]);
    } else {
      var n := |steps| - 1;
      var h := RunInvariant(states[..n + 1], steps[..n]);
      assert Enabled(states[n], steps[n]);
      g := StepKeeps(states[n], h, steps[n]);
    }
  }
}
