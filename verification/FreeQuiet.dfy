/**
 When a page that belongs to a heap is NEVER_DELAYED_FREE: only while the owner abandons that heap, or
 is about to set the flag of a page that it reclaims.  And only pages of a heap are marked full.
 */
module FreeQuiet {
  import opened Options
  import opened FreeProtocol
  import opened FreeInvariant
  import opened OwnerLoops
  import opened FreeTheorems

  /** The owner is abandoning heap `h`. */
  predicate Abandons(o: Owner, h: HeapId) {
    match o.task
    case AbandonMark(k, _) => k == h
    case AbandonSpin(k, _, _) => k == h
    case AbandonDrain(k) => k == h
    case AbandonVisit(k) => k == h
    case AbandonCollect(k, _) => k == h
    case AbandonDecide(k, _) => k == h
    case _ => false
  }

  predicate NeverTask(o: Owner, p: PageId, h: HeapId) {
    Abandons(o, h) || o.task == ReclaimSpin(p)
  }

  predicate PageQuiet(p: PageId, page: Page, owners: Owners) {
    && (page.inFull ==> page.heap.Some?)
    && (page.heap.Some? && page.flag == Never ==>
          page.owner.Some? && page.owner.value in owners && NeverTask(owners[page.owner.value], p, page.heap.value))
  }

  ghost predicate PagesQuiet(pages: Pages, owners: Owners) {
    forall p | p in pages :: PageQuiet(p, pages[p], owners)
  }

  // ---------------------------------------------------------------------------------------------
  // Every step
  // ---------------------------------------------------------------------------------------------

  /** One page changes. */
  lemma OnePage(pages: Pages, owners: Owners, p: PageId, page: Page)
    requires PagesQuiet(pages, owners) && PageQuiet(p, page, owners)
    ensures PagesQuiet(pages[p := page], owners)
  {
  }

  /** One owner changes, in a way that the pages of its own do not mind. */
  lemma OneOwner(pages: Pages, owners: Owners, t: ThreadId, o: Owner)
    requires PagesQuiet(pages, owners) && t in owners
    requires forall p | p in pages && pages[p].owner == Some(t) && pages[p].heap.Some? && pages[p].flag == Never ::
      NeverTask(owners[t], p, pages[p].heap.value) ==> NeverTask(o, p, pages[p].heap.value)
    ensures PagesQuiet(pages, owners[t := o])
  {
  }

  lemma FreerQuiet(s: State, b: Block, ok: bool)
    requires PagesQuiet(s.pages, s.owners) && b in s.freers && AdvanceFreer(s, b, ok).Ok?
    ensures var s' := AdvanceFreer(s, b, ok).state; PagesQuiet(s'.pages, s'.owners)
  {
  }

  lemma SpinQuiet(s: State, g: History, t: ThreadId, ok: bool)
    requires Inv(s, g) && PagesQuiet(s.pages, s.owners)
    requires t in s.owners && SpinTarget(s.owners[t]).Some? && OwnerSpin(s, t, ok).Ok?
    ensures var s' := OwnerSpin(s, t, ok).state; PagesQuiet(s'.pages, s'.owners)
  {
    hide Inv, PagesQuiet, PageQuiet, NeverTask;
    var o, s' := s.owners[t], OwnerSpin(s, t, ok).state;
    var p := SpinTarget(o).value.page;
    assert s'.owners == s.owners[t := s'.owners[t]];
    assert s'.pages == s.pages[p := s'.pages[p]];
    QuietAt(s.pages, s.owners, p);
    SpinPageQuiet(s, g, t, ok);
    OnePage(s.pages, s.owners, p, s'.pages[p]);
    SpinOwnerQuiet(s, g, t, ok);
    OneOwner(s'.pages, s.owners, t, s'.owners[t]);
  }

  /** Only abandoning sets the flag to NEVER. */
  lemma SpinPageQuiet(s: State, g: History, t: ThreadId, ok: bool)
    requires Inv(s, g) && t in s.owners && SpinTarget(s.owners[t]).Some? && OwnerSpin(s, t, ok).Ok?
    requires var p := SpinTarget(s.owners[t]).value.page; p in s.pages && PageQuiet(p, s.pages[p], s.owners)
    ensures var p := SpinTarget(s.owners[t]).value.page;
      p in OwnerSpin(s, t, ok).state.pages && PageQuiet(p, OwnerSpin(s, t, ok).state.pages[p], s.owners)
  {
    hide Inv;
    OwnerTaskOk(s, g, t);
    HomeOf(s, g, SpinTarget(s.owners[t]).value.page);
  }

  /** A page in a heap belongs to the thread of the heap. */
  lemma HomeOf(s: State, g: History, p: PageId)
    requires Inv(s, g) && p in s.pages
    ensures PageHeapOk(s.pages[p], s.heaps, s.owners)
  {
  }

  /** An owner gives up a reason for a NEVER flag only when the flag is not NEVER any more. */
  lemma SpinOwnerQuiet(s: State, g: History, t: ThreadId, ok: bool)
    requires Inv(s, g) && t in s.owners && SpinTarget(s.owners[t]).Some? && OwnerSpin(s, t, ok).Ok?
    ensures var s' := OwnerSpin(s, t, ok).state;
      forall p | p in s'.pages && s'.pages[p].owner == Some(t) && s'.pages[p].heap.Some? && s'.pages[p].flag == Never ::
        NeverTask(s.owners[t], p, s'.pages[p].heap.value) ==> NeverTask(s'.owners[t], p, s'.pages[p].heap.value)
  {
    hide Inv;
  }

  lemma CollectQuiet(s: State, t: ThreadId, ok: bool)
    requires PagesQuiet(s.pages, s.owners) && t in s.owners && CollectTarget(s.owners[t]).Some? && OwnerCollect(s, t, ok).Ok?
    ensures var s' := OwnerCollect(s, t, ok).state; PagesQuiet(s'.pages, s'.owners)
  {
    hide PagesQuiet, PageQuiet, NeverTask, Migrate, TakeThreadFree;
    var o, s' := s.owners[t], OwnerCollect(s, t, ok).state;
    var call := CollectTarget(o).value;
    var p := call.page;
    assert s'.owners == s.owners[t := s'.owners[t]];
    assert s'.pages == s.pages[p := s'.pages[p]];
    QuietAt(s.pages, s.owners, p);
    CollectedQuiet(p, s.pages[p], call.force, s.owners);
    OnePage(s.pages, s.owners, p, s'.pages[p]);
    CollectDoneQuiet(o);
    OneOwner(s'.pages, s.owners, t, s'.owners[t]);
  }

  lemma CollectedQuiet(p: PageId, page: Page, force: bool, owners: Owners)
    requires PageQuiet(p, page, owners)
    ensures PageQuiet(p, Migrate(page, force), owners) && PageQuiet(p, Migrate(TakeThreadFree(page), force), owners)
  {
  }

  lemma CollectDoneQuiet(o: Owner)
    requires CollectTarget(o).Some?
    ensures forall p, h :: NeverTask(o, p, h) ==> NeverTask(CollectDone(o), p, h)
    ensures forall p, h :: NeverTask(o, p, h) ==> NeverTask(o.(seen := Nothing), p, h)
    ensures forall p, h, w :: NeverTask(o, p, h) ==> NeverTask(o.(seen := SawWord(w)), p, h)
  {
  }

  lemma TakeQuiet(s: State, t: ThreadId, ok: bool)
    requires PagesQuiet(s.pages, s.owners) && t in s.owners && TakeTarget(s.owners[t]).Some? && OwnerTake(s, t, ok).Ok?
    ensures var s' := OwnerTake(s, t, ok).state; PagesQuiet(s'.pages, s'.owners)
  {
  }

  lemma FinishQuiet(s: State, t: ThreadId, release: bool)
    requires PagesQuiet(s.pages, s.owners) && t in s.owners && s.owners[t].todo != [] && OwnerFinish(s, t, release).Ok?
    ensures var s' := OwnerFinish(s, t, release).state; PagesQuiet(s'.pages, s'.owners)
  {
  }

  /** The actions that only start an owner's next task. */
  lemma TaskQuiet(s: State, t: ThreadId, a: Action)
    requires PagesQuiet(s.pages, s.owners) && t in s.owners && CanAct(s, t, a) && OnlyTask(a) && Act(s, t, a).Ok?
    ensures var s' := Act(s, t, a).state; PagesQuiet(s'.pages, s'.owners)
  {
    hide PagesQuiet, NeverTask, Act, CanAct;
    NextTaskOnly(s, t, a);
    NextKeepsNever(s, t, a);
    OneOwner(s.pages, s.owners, t, Act(s, t, a).state.owners[t]);
  }

  lemma NextKeepsNever(s: State, t: ThreadId, a: Action)
    requires t in s.owners && CanAct(s, t, a) && OnlyTask(a) && Act(s, t, a).Ok?
    ensures t in Act(s, t, a).state.owners
    ensures forall p, h :: NeverTask(s.owners[t], p, h) ==> NeverTask(Act(s, t, a).state.owners[t], p, h)
  {
    hide PagesOf, OwnsHeap, Owns;
  }

  /** Abandoning ends when no page is left in the heap. */
  lemma EndQuiet(s: State, t: ThreadId)
    requires PagesQuiet(s.pages, s.owners) && t in s.owners && CanAct(s, t, DoAbandonEnd) && Act(s, t, DoAbandonEnd).Ok?
    ensures var s' := Act(s, t, DoAbandonEnd).state; PagesQuiet(s'.pages, s'.owners)
  {
    hide PagesQuiet;
    var h := s.owners[t].task.heap;
    forall p | p in s.pages ensures s.pages[p].heap != Some(h) { assert p !in PagesOf(s, h); }
    OneOwner(s.pages, s.owners, t, s.owners[t].(task := Idle));
  }

  /** A page that is appended to another heap is not NEVER: its owner is absorbing. */
  lemma AbsorbQuiet(s: State, t: ThreadId, p: PageId)
    requires PagesQuiet(s.pages, s.owners) && t in s.owners && CanAct(s, t, DoAbsorbPage(p)) && s.pages[p].owner == Some(t)
    ensures var s' := Act(s, t, DoAbsorbPage(p)).state; PagesQuiet(s'.pages, s'.owners)
  {
    hide PagesQuiet;
    var o := s.owners[t];
    QuietAt(s.pages, s.owners, p);
    var page := s.pages[p].(heap := Some(o.task.to));
    OnePage(s.pages, s.owners, p, page);
    OneOwner(s.pages[p := page], s.owners, t, Act(s, t, DoAbsorbPage(p)).state.owners[t]);
  }

  /** Ordinary work of an owner. */
  predicate Works(a: Action) {
    a.DoMalloc? || a.DoFree? || a.DoExtend? || a.DoFreshPage? || a.DoNewHeap? || a.DoToFull? || a.DoReleaseEmpty?
  }

  lemma WorkQuiet(s: State, t: ThreadId, a: Action)
    requires PagesQuiet(s.pages, s.owners) && t in s.owners && CanAct(s, t, a) && Works(a) && Act(s, t, a).Ok?
    ensures var s' := Act(s, t, a).state; PagesQuiet(s'.pages, s'.owners)
  {
    hide PagesOf, Fresh, RetireChoice, OwnsHeap;
  }

  /** A page is popped, pushed back or reclaimed. */
  predicate Adopts(a: Action) {
    a.DoPop? || a.DoPushBack? || a.DoReclaim?
  }

  /** The reclaiming of a page, or the absorbing of a heap, ends. */
  predicate Ends(a: Action) {
    a.DoReclaimDecide? || a.DoAbsorbEnd?
  }

  lemma EndsQuiet(s: State, g: History, t: ThreadId, a: Action)
    requires Inv(s, g) && PagesQuiet(s.pages, s.owners)
    requires t in s.owners && CanAct(s, t, a) && Ends(a) && Act(s, t, a).Ok?
    ensures var s' := Act(s, t, a).state; PagesQuiet(s'.pages, s'.owners)
  {
    hide Inv, Fresh, RetireChoice, PagesOf, OwnsHeap;
    OwnerTaskOk(s, g, t);
  }

  lemma AdoptQuiet(s: State, g: History, t: ThreadId, a: Action)
    requires Inv(s, g) && PagesQuiet(s.pages, s.owners)
    requires t in s.owners && CanAct(s, t, a) && Adopts(a) && Act(s, t, a).Ok?
    ensures var s' := Act(s, t, a).state; PagesQuiet(s'.pages, s'.owners)
  {
    hide Inv, Fresh, RetireChoice, PagesOf, OwnsHeap;
    OwnerTaskOk(s, g, t);
  }

  lemma DecideQuiet(s: State, g: History, t: ThreadId)
    requires Inv(s, g) && PagesQuiet(s.pages, s.owners)
    requires t in s.owners && CanAct(s, t, DoAbandonDecide) && Act(s, t, DoAbandonDecide).Ok?
    ensures var s' := Act(s, t, DoAbandonDecide).state; PagesQuiet(s'.pages, s'.owners)
  {
    hide Inv, Fresh, RetireChoice, PagesOf, OwnsHeap;
    OwnerTaskOk(s, g, t);
  }

  lemma AbsorbPageOwned(s: State, g: History, t: ThreadId, p: PageId)
    requires Inv(s, g) && t in s.owners && CanAct(s, t, DoAbsorbPage(p))
    ensures p in s.pages && s.pages[p].owner == Some(t)
  {
    hide Inv;
    OwnerTaskOk(s, g, t);
    HomeOf(s, g, p);
  }

  lemma ActQuiet(s: State, g: History, t: ThreadId, a: Action)
    requires Inv(s, g) && PagesQuiet(s.pages, s.owners)
    requires t in s.owners && CanAct(s, t, a) && !OnlyTask(a) && Act(s, t, a).Ok?
    ensures var s' := Act(s, t, a).state; PagesQuiet(s'.pages, s'.owners)
  {
    hide Inv, PagesQuiet, CanAct, Act;
    match a
    case DoAbandonEnd => EndQuiet(s, t);
    case DoAbsorbPage(p) => AbsorbPageOwned(s, g, t, p); AbsorbQuiet(s, t, p);
    case DoAbandonDecide => DecideQuiet(s, g, t);
    case _ =>
      if Works(a) {
        WorkQuiet(s, t, a);
      } else if Adopts(a) {
        AdoptQuiet(s, g, t, a);
      } else {
        EndsQuiet(s, g, t, a);
      }
  }

  lemma QuietAt(pages: Pages, owners: Owners, p: PageId)
    requires PagesQuiet(pages, owners) && p in pages
    ensures PageQuiet(p, pages[p], owners)
  {
  }

  lemma StepQuiet(s: State, g: History, step: Step)
    requires Inv(s, g) && PagesQuiet(s.pages, s.owners) && Enabled(s, step) && Do(s, step).Ok?
    ensures PagesQuiet(Do(s, step).state.pages, Do(s, step).state.owners)
  {
    hide Inv, PagesQuiet, AdvanceFreer, OwnerSpin, OwnerCollect, OwnerTake, OwnerFinish, Act, CanAct, RetireChoice;
    match step
    case StartFree(_) =>
    case FreerStep(b, ok) => FreerQuiet(s, b, ok);
    case SpinStep(t, ok) => SpinQuiet(s, g, t, ok);
    case CollectStep(t, ok) => CollectQuiet(s, t, ok);
    case TakeStep(t, ok) => TakeQuiet(s, t, ok);
    case FinishStep(t, release) => FinishQuiet(s, t, release);
    case ActStep(t, a) => if OnlyTask(a) { TaskQuiet(s, t, a); } else { ActQuiet(s, g, t, a); }
  }

  lemma {:induction false} RunQuiet(states: seq<State>, steps: seq<Step>)
    requires IsRun(states, steps)
    ensures PagesQuiet(states[|steps|].pages, states[|steps|].owners)
    decreases |steps|
  {
    hide Inv, Enabled, Do, PagesQuiet;
    if steps == [] {
      assert PagesQuiet(states[0].pages, states[0].owners) by { InitQuiet(states[0]); }
    } else {
      var n := |steps| - 1;
      RunQuiet(states[..n + 1], steps[..n]);
      var g := RunInvariant(states[..n + 1], steps[..n]);
      assert Enabled(states[n], steps[n]);
      StepQuiet(states[n], g, steps[n]);
    }
  }

  lemma InitQuiet(s: State)
    requires Init(s)
    ensures PagesQuiet(s.pages, s.owners)
  {
  }
}
