/** Whole operations of an owner that nobody disturbs: a drain, absorbing a heap, abandoning one, reclaiming a page. */
module HeapAlone {
  import opened Options
  import opened FreeProtocol
  import opened FreeInvariant
  import opened OwnerLoops
  import opened FreeTheorems
  import opened FreeResults
  import opened FreeAlone
  import opened OwnerAlone
  import OwnerTasks

  /** Of the owners only `t` has changed, and it is between two operations again. */
  predicate Rested(owners: Owners, owners': Owners, t: ThreadId) {
    t in owners' && owners' == owners[t := owners'[t]] && owners'[t].task.Idle? && owners'[t].todo == []
  }

  /** The owner has nothing to do and no page is locked. */
  ghost predicate Quiet(s: State, t: ThreadId) {
    t in s.owners && s.owners[t].task.Idle? && s.owners[t].todo == [] && Unlocked(s.pages)
  }

  lemma ActAlone(s: State, t: ThreadId, a: Action, s': State)
    requires t in s.owners && CanAct(s, t, a) && Act(s, t, a) == Ok(s')
    ensures Leads(s, [ActStep(t, a)], s') && AllBy([ActStep(t, a)], t)
  {
    hide CanAct, Act, Leads;
    LeadsOne(s, ActStep(t, a), s');
  }

  lemma Then(s: State, a: seq<Step>, s': State, b: seq<Step>, s'': State, t: ThreadId)
    requires Leads(s, a, s') && Leads(s', b, s'') && AllBy(a, t) && AllBy(b, t)
    ensures Leads(s, a + b, s'') && AllBy(a + b, t)
  {
    hide Leads;
    LeadsThen(s, a, s', b, s'');
  }

  // ---------------------------------------------------------------------------------------------
  // A drain
  // ---------------------------------------------------------------------------------------------

  /** The owner takes over a delayed list and works it off. */
  lemma TakeAndDrain(s: State, g: History, t: ThreadId, h: HeapId) returns (steps: seq<Step>, s': State)
    requires Inv(s, g) && Unlocked(s.pages) && Ready(s, t) && TakeTarget(s.owners[t]) == Some(h) && h in s.heaps
    ensures Leads(s, steps, s') && AllBy(steps, t)
    ensures s'.owners == s.owners[t := TakeDone(s.owners[t], [])]
    ensures s'.heaps == s.heaps[h := Heap(s.heaps[h].thread, [])] && s'.freers == s.freers && s'.live == s.live
    ensures OnlyDrained(s.pages, s'.pages, s.heaps[h].delayed)
    ensures forall b | b in s.heaps[h].delayed :: Back(s'.pages, b)
  {
    hide Inv, Leads, Unlocked, Back, OnlyDrained, TakeTarget;
    var o, list := s.owners[t], s.heaps[h].delayed;
    var a, s1 := TakeAlone(s, t);
    var g1 := LeadsKeeps(s, g, a, s1);
    Taking(o, list);
    var c;
    c, s' := DrainRest(s1, g1, t);
    assert s1.owners[t := TakeDone(o, [])] == s.owners[t := TakeDone(o, [])];
    Then(s, a, s1, c, s', t);
    steps := a + c;
  }

  lemma Taking(o: Owner, list: seq<Block>)
    ensures TakeDone(o, list).todo == list && TakeDone(o, list).stage == Spin && TakeDone(o, list).seen == Nothing
    ensures TakeDone(o, list).(todo := []) == TakeDone(o, [])
  {
  }

  /**
   A drain that nobody disturbs empties the delayed list, and gives each block of it back to its page: the
   page was released, or has the block on a list of its own, has nothing left on its thread-free list, is off
   the full queue, and may be freed to with a delay again.  The other pages and heaps stay as they are.
   */
  lemma DrainAlone(states: seq<State>, steps: seq<Step>, t: ThreadId, h: HeapId) returns (more: seq<Step>, s': State)
    requires IsRun(states, steps) && Quiet(Last(states), t) && OwnsHeap(Last(states), t, h)
    ensures Leads(Last(states), more, s') && AllBy(more, t)
    ensures var s := Last(states);
      && Rested(s.owners, s'.owners, t) && s'.freers == s.freers && s'.live == s.live
      && s'.heaps == s.heaps[h := Heap(t, [])]
      && OnlyDrained(s.pages, s'.pages, s.heaps[h].delayed)
      && forall b | b in s.heaps[h].delayed :: Back(s'.pages, b)
  {
    hide IsRun, Inv, Leads, Unlocked, Back, OnlyDrained;
    var g := LastInvariant(states, steps);
    var s := Last(states);
    var s1 := WithOwner(s, t, s.owners[t].(task := DelayedFree(h), seen := Nothing));
    ActAlone(s, t, DoDelayedFree(h), s1);
    var g1 := LeadsKeeps(s, g, [ActStep(t, DoDelayedFree(h))], s1);
    var c;
    c, s' := TakeAndDrain(s1, g1, t, h);
    assert s'.owners == s.owners[t := s'.owners[t]];
    Then(s, [ActStep(t, DoDelayedFree(h))], s1, c, s', t);
    more := [ActStep(t, DoDelayedFree(h))] + c;
  }

  /** In a quiet state a drain reaches every page of the heap that has remote frees. */
  lemma QuietDrainRecovers(states: seq<State>, steps: seq<Step>, t: ThreadId, h: HeapId) returns (more: seq<Step>, s': State)
    requires IsRun(states, steps) && Quiescent(Last(states)) && t in Last(states).owners && OwnsHeap(Last(states), t, h)
    ensures Leads(Last(states), more, s') && AllBy(more, t)
    ensures forall p | p in Last(states).pages && Last(states).pages[p].heap == Some(h) && p in s'.pages ::
      s'.pages[p].tfree == [] && (Last(states).pages[p].tfree != [] ==> !s'.pages[p].inFull)
  {
    hide Enabled, Do, Init, Inv, Leads, Back, OnlyDrained, Unlocked;
    var s := Last(states);
    QuietUnlocked(states, steps);
    more, s' := DrainAlone(states, steps, t, h);
    forall p | p in s.pages && s.pages[p].heap == Some(h) && p in s'.pages
      ensures s'.pages[p].tfree == [] && (s.pages[p].tfree != [] ==> !s'.pages[p].inFull)
    {
      Recovered(states, steps, p, h, s'.pages);
    }
  }

  lemma Recovered(states: seq<State>, steps: seq<Step>, p: PageId, h: HeapId, pages': Pages)
    requires IsRun(states, steps) && Quiescent(Last(states)) && p in Last(states).pages && h in Last(states).heaps
    requires Last(states).pages[p].heap == Some(h) && p in pages'
    requires OnlyDrained(Last(states).pages, pages', Last(states).heaps[h].delayed)
    requires forall b | b in Last(states).heaps[h].delayed :: Back(pages', b)
    ensures pages'[p].tfree == [] && (Last(states).pages[p].tfree != [] ==> !pages'[p].inFull)
  {
    hide Enabled, Do, Init;
    var s := Last(states);
    if b :| b in s.heaps[h].delayed && b.page == p {
      assert Back(pages', b);
    } else if s.pages[p].tfree != [] {
      QuiescentPageIsReached(states, steps, p);
    }
  }

  /** Without a free under way no page is locked. */
  lemma QuietUnlocked(states: seq<State>, steps: seq<Step>)
    requires IsRun(states, steps) && Last(states).freers == map[]
    ensures Unlocked(Last(states).pages)
  {
    hide IsRun, Blocks, Ownership, NotLost, LandedBlocks;
    var g := LastInvariant(states, steps);
    forall p | p in Last(states).pages ensures Last(states).pages[p].flag != Freeing {
      assert p !in g.lock;
    }
  }

  // ---------------------------------------------------------------------------------------------
  // Putting a page on the full queue
  // ---------------------------------------------------------------------------------------------

  /** `mi_page_to_full`: the page is marked, and collected right away. */
  lemma ToFullAlone(states: seq<State>, steps: seq<Step>, t: ThreadId, p: PageId) returns (more: seq<Step>, s': State)
    requires IsRun(states, steps) && Quiet(Last(states), t) && Owns(Last(states), t, p) && Last(states).pages[p].free == []
    ensures Leads(Last(states), more, s') && AllBy(more, t)
    ensures
      var s := Last(states);
      var page := s.pages[p];
      Rested(s.owners, s'.owners, t) &&
      s' == s.(owners := s'.owners,
               pages := s.pages[p := page.(inFull := true, tfree := [], localFree := [],
                                           free := page.tfree + page.localFree, used := page.used - |page.tfree|)])
  {
    hide IsRun, Inv, Leads;
    var g := LastInvariant(states, steps);
    var s := Last(states);
    PageFits(s, g, p);
    var s1 := WithOwner(WithPage(s, p, s.pages[p].(inFull := true)), t,
                        s.owners[t].(task := CollectPage(p, false), seen := Nothing));
    ActAlone(s, t, DoToFull(p), s1);
    var c;
    c, s' := CollectAlone(s1, t);
    assert s'.owners == s.owners[t := s.owners[t].(seen := Nothing)];
    var page := s.pages[p];
    assert page.tfree + page.localFree + [] == page.tfree + page.localFree;
    assert s1.pages[p := s'.pages[p]] == s.pages[p := s'.pages[p]];
    Then(s, [ActStep(t, DoToFull(p))], s1, c, s', t);
    more := [ActStep(t, DoToFull(p))] + c;
  }

  lemma PageFits(s: State, g: History, p: PageId)
    requires Inv(s, g) && p in s.pages
    ensures |s.pages[p].tfree| <= s.pages[p].capacity
  {
    ThreadFreeFits(s.pages, g.at, p);
  }

  /** `_mi_page_free_collect` by the owner of a page: all that was freed is on the local list, or the free list. */
  lemma CollectPageAlone(states: seq<State>, steps: seq<Step>, t: ThreadId, p: PageId, force: bool)
    returns (more: seq<Step>, s': State)
    requires IsRun(states, steps) && Quiet(Last(states), t) && Owns(Last(states), t, p)
    ensures Leads(Last(states), more, s') && AllBy(more, t)
    ensures var s := Last(states); Rested(s.owners, s'.owners, t)
    ensures
      var s := Last(states);
      var page := s.pages[p];
      var all := page.tfree + page.localFree;
      s' == s.(owners := s'.owners,
               pages := s.pages[p := page.(tfree := [], used := page.used - |page.tfree|,
                 localFree := if page.free == [] || force then [] else all,
                 free := if page.free == [] || force then all + page.free else page.free)])
  {
    hide IsRun, Inv, Leads;
    var g := LastInvariant(states, steps);
    var s := Last(states);
    PageFits(s, g, p);
    var s1 := WithOwner(s, t, s.owners[t].(task := CollectPage(p, force), seen := Nothing));
    ActAlone(s, t, DoCollect(p, force), s1);
    var c;
    c, s' := CollectAlone(s1, t);
    assert s'.owners == s.owners[t := s'.owners[t]];
    Then(s, [ActStep(t, DoCollect(p, force))], s1, c, s', t);
    more := [ActStep(t, DoCollect(p, force))] + c;
  }

  /** A page without blocks in use is released. */
  lemma ReleaseAlone(states: seq<State>, steps: seq<Step>, t: ThreadId, p: PageId)
    requires IsRun(states, steps) && Quiet(Last(states), t) && Owns(Last(states), t, p) && Last(states).pages[p].used == 0
    ensures Leads(Last(states), [ActStep(t, DoReleaseEmpty(p))], Last(states).(pages := Last(states).pages - {p}))
  {
    hide Enabled, Do, Init, Leads;
    var s := Last(states);
    UnlockedAt(s.pages, p);
    ActAlone(s, t, DoReleaseEmpty(p), s.(pages := s.pages - {p}));
  }

  /** A page that was popped and turns out not to be wanted is without an owner again, and collected. */
  lemma PushBackAlone(states: seq<State>, steps: seq<Step>, t: ThreadId, p: PageId) returns (more: seq<Step>, s': State)
    requires IsRun(states, steps) && Quiet(Last(states), t)
    requires p in Last(states).pages && Last(states).pages[p].owner == None
    ensures Leads(Last(states), [ActStep(t, DoPop(p))] + [ActStep(t, DoCheckFree)] + more + [ActStep(t, DoPushBack)], s')
    ensures AllBy(more, t)
    ensures var s := Last(states);
      && Rested(s.owners, s'.owners, t)
      && s' == s.(owners := s'.owners, pages := s.pages[p := Swept(s.pages[p], false)])
  {
    hide IsRun, Inv, Leads, Swept;
    var g := LastInvariant(states, steps);
    var s := Last(states);
    var page := s.pages[p];
    PageFits(s, g, p);
    var a, b := [ActStep(t, DoPop(p))] + [ActStep(t, DoCheckFree)], [ActStep(t, DoPushBack)];
    var s1 := PopAndCheck(s, t, p);
    var s2;
    more, s2 := CollectAlone(s1, t);
    Then(s, a, s1, more, s2, t);
    SweptOwner(page, t);
    s' := WithOwner(WithPage(s2, p, Swept(page, false)), t, s2.owners[t].(task := Idle));
    ActAlone(s2, t, DoPushBack, s');
    Then(s, a + more, s2, b, s', t);
    assert s'.owners == s.owners[t := s'.owners[t]];
    assert s'.pages == s.pages[p := Swept(page, false)];
  }

  lemma PopAndCheck(s: State, t: ThreadId, p: PageId) returns (s': State)
    requires t in s.owners && s.owners[t].task.Idle? && s.owners[t].todo == [] && p in s.pages && s.pages[p].owner == None
    ensures Leads(s, [ActStep(t, DoPop(p))] + [ActStep(t, DoCheckFree)], s')
    ensures AllBy([ActStep(t, DoPop(p))] + [ActStep(t, DoCheckFree)], t)
    ensures s' == s.(owners := s.owners[t := s.owners[t].(task := PoppedCollect(p), seen := Nothing)],
                     pages := s.pages[p := s.pages[p].(owner := Some(t))])
  {
    hide Leads;
    var s1 := WithOwner(WithPage(s, p, s.pages[p].(owner := Some(t))), t, s.owners[t].(task := Popped(p), seen := Nothing));
    ActAlone(s, t, DoPop(p), s1);
    s' := WithOwner(s1, t, s1.owners[t].(task := PoppedCollect(p)));
    ActAlone(s1, t, DoCheckFree, s');
    Then(s, [ActStep(t, DoPop(p))], s1, [ActStep(t, DoCheckFree)], s', t);
    assert s'.owners == s.owners[t := s.owners[t].(task := PoppedCollect(p), seen := Nothing)];
  }

  lemma SweptOwner(page: Page, t: ThreadId)
    requires page.owner == None
    ensures Swept(page.(owner := Some(t)), false).(owner := None) == Swept(page, false)
  {
  }

  // ---------------------------------------------------------------------------------------------
  // Absorbing a heap
  // ---------------------------------------------------------------------------------------------

  /** A page of the absorbed heap after it was appended. */
  function Adopted(page: Page, to: HeapId): Page {
    page.(heap := Some(to), flag := if page.flag == Never then Never else UseDelayed)
  }

  /** The pages of one heap are those of the other, and nothing else has changed. */
  function AllAdopted(pages: Pages, from: HeapId, to: HeapId): Pages {
    map p | p in pages :: if pages[p].heap == Some(from) then Adopted(pages[p], to) else pages[p]
  }

  lemma {:induction false} AppendAlone(s: State, t: ThreadId, from: HeapId, to: HeapId) returns (steps: seq<Step>, s': State)
    requires Unlocked(s.pages) && Ready(s, t) && s.owners[t].todo == [] && s.owners[t].task == AbsorbPages(from, to) && from != to
    ensures Leads(s, steps, s') && AllBy(steps, t) && s' == s.(pages := AllAdopted(s.pages, from, to))
    decreases PagesOf(s, from)
  {
    hide Leads, Unlocked;
    if p :| p in PagesOf(s, from) {
      var page, o := s.pages[p], s.owners[t];
      var s1 := WithOwner(WithPage(s, p, page.(heap := Some(to))), t, o.(task := AbsorbSpin(from, to, p), seen := Nothing));
      ActAlone(s, t, DoAbsorbPage(p), s1);
      UnlockedAt(s.pages, p);
      var a, s2 := SpinAlone(s1, t);
      assert s2.owners == s.owners;
      assert s2.pages == s.pages[p := Adopted(page, to)];
      Fewer(s, s2, from, to, p);
      var c;
      c, s' := AppendAlone(s2, t, from, to);
      Then(s, [ActStep(t, DoAbsorbPage(p))], s1, a, s2, t);
      Then(s, [ActStep(t, DoAbsorbPage(p))] + a, s2, c, s', t);
      steps := [ActStep(t, DoAbsorbPage(p))] + a + c;
    } else {
      NoneAdopted(s, from, to);
      LeadsNone(s);
      steps, s' := [], s;
    }
  }

  lemma UnlockedAt(pages: Pages, p: PageId)
    requires Unlocked(pages) && p in pages
    ensures pages[p].flag != Freeing
  {
  }

  lemma Fewer(s: State, s2: State, from: HeapId, to: HeapId, p: PageId)
    requires Unlocked(s.pages) && p in PagesOf(s, from) && from != to && s2.pages == s.pages[p := Adopted(s.pages[p], to)]
    ensures Unlocked(s2.pages) && PagesOf(s2, from) == PagesOf(s, from) - {p} && PagesOf(s2, from) < PagesOf(s, from)
    ensures AllAdopted(s2.pages, from, to) == AllAdopted(s.pages, from, to)
  {
    assert PagesOf(s2, from) == PagesOf(s, from) - {p};
  }

  lemma NoneAdopted(s: State, from: HeapId, to: HeapId)
    requires PagesOf(s, from) == {}
    ensures AllAdopted(s.pages, from, to) == s.pages
  {
    forall p | p in s.pages ensures s.pages[p].heap != Some(from) { assert p !in PagesOf(s, from); }
  }

  /** The drains and the appending; `from` is left with no page and an empty delayed list. */
  lemma AbsorbPagesAlone(s: State, g: History, t: ThreadId, from: HeapId, to: HeapId) returns (steps: seq<Step>, s': State)
    requires Inv(s, g) && Unlocked(s.pages) && Ready(s, t) && s.owners[t].todo == [] && s.owners[t].task == AbsorbFirst(from, to)
    requires from != to && from in s.heaps
    ensures Leads(s, steps, s') && AllBy(steps, t)
    ensures s'.owners == s.owners[t := Owner(AbsorbEnd(from), [], Spin, Nothing)]
    ensures s'.heaps == s.heaps[from := Heap(s.heaps[from].thread, [])] && s'.freers == s.freers && s'.live == s.live
    ensures Absorbed(s.pages, s'.pages, s.heaps[from].delayed, from, to)
  {
    hide Inv, Leads, Unlocked, Back, OnlyDrained, AllAdopted, Absorbed;
    var a, s1 := TakeAndDrain(s, g, t, from);
    DrainedUnlocked(s.pages, s1.pages, s.heaps[from].delayed);
    var b, s2 := AppendAlone(s1, t, from, to);
    Then(s, a, s1, b, s2, t);
    NoneLeft(s1.pages, s2, from, to);
    var o := s2.owners[t];
    var s3 := WithOwner(s2, t, o.(task := AbsorbDrain(from), seen := Nothing));
    ActAlone(s2, t, DoAbsorbNoMore, s3);
    Then(s, a + b, s2, [ActStep(t, DoAbsorbNoMore)], s3, t);
    var c;
    c, s' := TakeAlone(s3, t);
    assert s'.heaps == s2.heaps == s.heaps[from := Heap(s.heaps[from].thread, [])];
    Then(s, a + b + [ActStep(t, DoAbsorbNoMore)], s3, c, s', t);
    steps := a + b + [ActStep(t, DoAbsorbNoMore)] + c;
    assert s'.owners == s.owners[t := Owner(AbsorbEnd(from), [], Spin, Nothing)];
    DrainedAdopted(s.pages, s1.pages, s.heaps[from].delayed, from, to);
  }

  /**
   What absorbing heap `from` does to the pages: pages are only released; those of `from` belong to `to`; each
   block that was delayed is back on its page; pages of `from` without such a block change in nothing but the
   heap and the flag, and other pages without one in nothing.
   */
  ghost predicate Absorbed(pages: Pages, pages': Pages, list: seq<Block>, from: HeapId, to: HeapId) {
    && (forall p | p in pages' ::
          && p in pages && pages'[p].owner == pages[p].owner
          && pages'[p].heap == if pages[p].heap == Some(from) then Some(to) else pages[p].heap)
    && (forall b | b in list :: Back(pages', b))
    && (forall p | p in pages && (forall b | b in list :: b.page != p) ::
          && p in pages'
          && pages'[p] == if pages[p].heap == Some(from) then Adopted(pages[p], to) else pages[p])
  }

  lemma DrainedUnlocked(pages: Pages, pages': Pages, list: seq<Block>)
    requires OnlyDrained(pages, pages', list)
    ensures Unlocked(pages')
  {
  }

  lemma NoneLeft(pages: Pages, s: State, from: HeapId, to: HeapId)
    requires s.pages == AllAdopted(pages, from, to) && from != to
    ensures PagesOf(s, from) == {}
  {
  }

  lemma DrainedAdopted(pages: Pages, pages1: Pages, list: seq<Block>, from: HeapId, to: HeapId)
    requires OnlyDrained(pages, pages1, list) && forall b | b in list :: Back(pages1, b)
    ensures Absorbed(pages, AllAdopted(pages1, from, to), list, from, to)
  {
    forall b | b in list ensures Back(AllAdopted(pages1, from, to), b) { assert Back(pages1, b); }
  }

  /** A heap that nobody disturbs is absorbed: its memory is released, and its pages belong to the other heap. */
  lemma AbsorbAlone(states: seq<State>, steps: seq<Step>, t: ThreadId, from: HeapId, to: HeapId)
    returns (more: seq<Step>, s': State)
    requires IsRun(states, steps) && Quiet(Last(states), t)
    requires from != to && OwnsHeap(Last(states), t, from) && OwnsHeap(Last(states), t, to)
    ensures Leads(Last(states), more, s') && AllBy(more, t)
    ensures var s := Last(states);
      && Rested(s.owners, s'.owners, t) && s'.freers == s.freers && s'.live == s.live
      && s'.heaps == s.heaps - {from} && Absorbed(s.pages, s'.pages, s.heaps[from].delayed, from, to)
  {
    hide IsRun, Inv, Leads, Unlocked, Absorbed;
    var g := LastInvariant(states, steps);
    var s := Last(states);
    var o := s.owners[t];
    var act := ActStep(t, DoAbsorb(from, to));
    var s1, s2, c;
    if PagesOf(s, from) == {} {
      s1 := WithOwner(s, t, o.(task := AbsorbEnd(from), seen := Nothing));
      ActAlone(s, t, DoAbsorb(from, to), s1);
      s2, c := s1, [];
      LeadsNone(s1);
      NothingAbsorbed(s, g, t, from, to);
    } else {
      s1 := WithOwner(s, t, o.(task := AbsorbFirst(from, to), seen := Nothing));
      ActAlone(s, t, DoAbsorb(from, to), s1);
      var g1 := LeadsKeeps(s, g, [act], s1);
      c, s2 := AbsorbPagesAlone(s1, g1, t, from, to);
    }
    Then(s, [act], s1, c, s2, t);
    var g2 := LeadsKeeps(s, g, [act] + c, s2);
    EndAlone(s2, g2, t, DoAbsorbEnd, from);
    s' := s2.(owners := s2.owners[t := s2.owners[t].(task := Idle)], heaps := s2.heaps - {from});
    Then(s, [act] + c, s2, [ActStep(t, DoAbsorbEnd)], s', t);
    more := [act] + c + [ActStep(t, DoAbsorbEnd)];
    assert s'.heaps == s.heaps - {from};
    assert s'.owners == s.owners[t := s2.owners[t].(task := Idle)];
  }

  /** The end of a heap does not fault. */
  lemma EndAlone(s: State, g: History, t: ThreadId, a: Action, h: HeapId)
    requires Inv(s, g) && t in s.owners && s.owners[t].todo == []
    requires (a.DoAbsorbEnd? && s.owners[t].task == AbsorbEnd(h)) ||
             (a.DoAbandonEnd? && s.owners[t].task == AbandonVisit(h) && PagesOf(s, h) == {})
    ensures Leads(s, [ActStep(t, a)], s.(owners := s.owners[t := s.owners[t].(task := Idle)], heaps := s.heaps - {h}))
    ensures AllBy([ActStep(t, a)], t)
  {
    hide Inv, Leads;
    HeapEnds(s, g, t, a);
    ActAlone(s, t, a, s.(owners := s.owners[t := s.owners[t].(task := Idle)], heaps := s.heaps - {h}));
  }

  lemma NothingAbsorbed(s: State, g: History, t: ThreadId, from: HeapId, to: HeapId)
    requires Inv(s, g) && Quiet(s, t) && OwnsHeap(s, t, from) && PagesOf(s, from) == {}
    ensures Absorbed(s.pages, s.pages, s.heaps[from].delayed, from, to)
  {
    hide Inv;
    NoneAdopted(s, from, to);
    DelayedEmpty(s, g, t);
    assert NoPages(s.pages, from) by { OwnerTasks.NoPagesOf(s, from); }
    forall p | p in s.pages ensures s.pages[p].heap != Some(from) { assert !PageIn(s.pages, from, p); }
  }

  // ---------------------------------------------------------------------------------------------
  // Abandoning a heap
  // ---------------------------------------------------------------------------------------------

  /** The pages of the set are NEVER_DELAYED_FREE. */
  function AllMarked(pages: Pages, ps: set<PageId>): Pages {
    map p | p in pages :: if p in ps then pages[p].(flag := Never) else pages[p]
  }

  lemma {:induction false} MarkAlone(s: State, t: ThreadId, h: HeapId, rest: set<PageId>) returns (steps: seq<Step>, s': State)
    requires Unlocked(s.pages) && Ready(s, t) && s.owners[t].todo == [] && s.owners[t].task == AbandonMark(h, rest)
    requires rest <= s.pages.Keys
    ensures Leads(s, steps, s') && AllBy(steps, t)
    ensures s' == s.(pages := AllMarked(s.pages, rest), owners := s.owners[t := s.owners[t].(task := AbandonMark(h, {}))])
    decreases rest
  {
    hide Leads, Unlocked;
    var o := s.owners[t];
    if p :| p in rest {
      var s1 := WithOwner(s, t, o.(task := AbandonSpin(h, p, rest - {p}), seen := Nothing));
      ActAlone(s, t, DoAbandonMark(p), s1);
      UnlockedAt(s.pages, p);
      var a, s2 := SpinAlone(s1, t);
      assert s2.pages == s.pages[p := s.pages[p].(flag := Never)];
      FewerMarks(s.pages, s2.pages, rest, p);
      var c;
      c, s' := MarkAlone(s2, t, h, rest - {p});
      assert s'.owners == s.owners[t := o.(task := AbandonMark(h, {}))];
      Then(s, [ActStep(t, DoAbandonMark(p))], s1, a, s2, t);
      Then(s, [ActStep(t, DoAbandonMark(p))] + a, s2, c, s', t);
      steps := [ActStep(t, DoAbandonMark(p))] + a + c;
    } else {
      LeadsNone(s);
      steps, s' := [], s;
      assert rest == {};
      assert AllMarked(s.pages, rest) == s.pages;
      assert s.owners == s.owners[t := o.(task := AbandonMark(h, {}))];
    }
  }

  lemma FewerMarks(pages: Pages, pages2: Pages, rest: set<PageId>, p: PageId)
    requires Unlocked(pages) && p in rest && p in pages && pages2 == pages[p := pages[p].(flag := Never)]
    ensures Unlocked(pages2) && AllMarked(pages2, rest - {p}) == AllMarked(pages, rest)
  {
  }

  /** A page that its heap gives up, with all its free blocks on the free list. */
  function Orphaned(page: Page): Page {
    page.(owner := None, heap := None, inFull := false, tfree := [], localFree := [],
          free := page.tfree + page.localFree + page.free, used := page.used - |page.tfree|)
  }

  /** The pages of heap `h` are given up, but for those without blocks in use, which are released. */
  function AllOrphaned(pages: Pages, h: HeapId): Pages {
    map p | p in pages && (pages[p].heap == Some(h) ==> Orphaned(pages[p]).used != 0) ::
      if pages[p].heap == Some(h) then Orphaned(pages[p]) else pages[p]
  }

  /** One page of the heap is collected, and given up or released. */
  lemma VisitAlone(s: State, g: History, t: ThreadId, h: HeapId, p: PageId) returns (steps: seq<Step>, s': State)
    requires Inv(s, g) && Ready(s, t) && s.owners[t].todo == [] && s.owners[t].task == AbandonVisit(h)
    requires p in PagesOf(s, h)
    ensures Leads(s, steps, s') && AllBy(steps, t)
    ensures s' == s.(pages := if Orphaned(s.pages[p]).used == 0 then s.pages - {p} else s.pages[p := Orphaned(s.pages[p])])
  {
    hide Inv, Leads, Swept, Orphaned;
    var o := s.owners[t];
    var act1, act2 := ActStep(t, DoAbandonPage(p)), ActStep(t, DoAbandonDecide);
    var s1 := WithOwner(s, t, o.(task := AbandonCollect(h, p), seen := Nothing));
    ActAlone(s, t, DoAbandonPage(p), s1);
    PageFits(s, g, p);
    var a, s2 := CollectAlone(s1, t);
    Then(s, [act1], s1, a, s2, t);
    var g2 := LeadsKeeps(s, g, [act1] + a, s2);
    var g3 := DecideKeeps(s2, g2, t);
    s' := Act(s2, t, DoAbandonDecide).state;
    ActAlone(s2, t, DoAbandonDecide, s');
    Then(s, [act1] + a, s2, [act2], s', t);
    steps := [act1] + a + [act2];
    Decided(s, s2, s', t, h, p);
  }

  lemma Decided(s: State, s2: State, s': State, t: ThreadId, h: HeapId, p: PageId)
    requires t in s.owners && s.owners[t].todo == [] && s.owners[t].task == AbandonVisit(h) && s.owners[t].seen.Nothing?
    requires p in s.pages
    requires s2 == s.(owners := s.owners[t := s.owners[t].(task := AbandonDecide(h, p))],
                      pages := s.pages[p := Swept(s.pages[p], true)])
    requires Act(s2, t, DoAbandonDecide) == Ok(s')
    ensures s' == s.(pages := if Orphaned(s.pages[p]).used == 0 then s.pages - {p} else s.pages[p := Orphaned(s.pages[p])])
  {
    assert s2.owners[t := s.owners[t]] == s.owners;
    assert s2.pages - {p} == s.pages - {p};
    assert s2.pages[p := Orphaned(s.pages[p])] == s.pages[p := Orphaned(s.pages[p])];
  }

  lemma {:induction false} VisitAllAlone(s: State, g: History, t: ThreadId, h: HeapId) returns (steps: seq<Step>, s': State)
    requires Inv(s, g) && Ready(s, t) && s.owners[t].todo == [] && s.owners[t].task == AbandonVisit(h)
    ensures Leads(s, steps, s') && AllBy(steps, t) && s' == s.(pages := AllOrphaned(s.pages, h))
    decreases PagesOf(s, h)
  {
    hide Inv, Leads, AllOrphaned, Orphaned;
    if p :| p in PagesOf(s, h) {
      var a, s1 := VisitAlone(s, g, t, h, p);
      var g1 := LeadsKeeps(s, g, a, s1);
      FewerVisits(s, s1, h, p);
      var c;
      c, s' := VisitAllAlone(s1, g1, t, h);
      Then(s, a, s1, c, s', t);
      steps := a + c;
    } else {
      NoneOrphaned(s, h);
      LeadsNone(s);
      steps, s' := [], s;
    }
  }

  lemma FewerVisits(s: State, s1: State, h: HeapId, p: PageId)
    requires p in PagesOf(s, h)
    requires s1.pages == if Orphaned(s.pages[p]).used == 0 then s.pages - {p} else s.pages[p := Orphaned(s.pages[p])]
    ensures PagesOf(s1, h) < PagesOf(s, h) && AllOrphaned(s1.pages, h) == AllOrphaned(s.pages, h)
  {
    assert PagesOf(s1, h) == PagesOf(s, h) - {p};
  }

  lemma NoneOrphaned(s: State, h: HeapId)
    requires PagesOf(s, h) == {}
    ensures AllOrphaned(s.pages, h) == s.pages
  {
    forall p | p in s.pages ensures s.pages[p].heap != Some(h) { assert p !in PagesOf(s, h); }
  }

  /**
   What abandoning heap `h` does to the pages: pages of other heaps stay as they are, unless they have a
   block of the list; those of `h` are released, or have no owner, no heap, the flag NEVER, and all their
   blocks that are not in use on the free list; each block that was delayed is on it.
   */
  ghost predicate Abandoned(pages: Pages, pages': Pages, list: seq<Block>, h: HeapId) {
    && (forall p | p in pages' :: p in pages && (pages[p].heap == Some(h) ==> GivenUp(pages'[p])))
    && (forall b | b in list && b.page in pages' && pages[b.page].heap == Some(h) :: b in pages'[b.page].free)
    && (forall p | p in pages && (forall b | b in list :: b.page != p) :: Untouched(pages, pages', h, p))
  }

  lemma AllAbandoned(pages: Pages, marked: Pages, drained: Pages, list: seq<Block>, h: HeapId)
    requires marked == AllMarked(pages, set p | p in pages && pages[p].heap == Some(h))
    requires OnlyDrained(marked, drained, list) && forall b | b in list :: Back(drained, b)
    ensures Abandoned(pages, AllOrphaned(drained, h), list, h)
  {
    hide AllOrphaned, Orphaned, OnlyDrained, Back, AllMarked;
    var pages' := AllOrphaned(drained, h);
    forall p | p in pages' ensures p in pages && (pages[p].heap == Some(h) ==> GivenUp(pages'[p])) {
      OneGivenUp(pages, marked, drained, list, h, p);
    }
    forall b | b in list && b.page in pages' && pages[b.page].heap == Some(h) ensures b in pages'[b.page].free {
      OneFreed(pages, marked, drained, list, h, b);
    }
    forall p | p in pages && (forall b | b in list :: b.page != p) ensures Untouched(pages, pages', h, p) {
      OneUntouched(pages, marked, drained, list, h, p);
    }
  }

  predicate GivenUp(page: Page) {
    && page.owner == None && page.heap == None && page.flag == Never && !page.inFull
    && page.tfree == [] && page.localFree == [] && page.used != 0
  }

  /** A page without a delayed block. */
  predicate Untouched(pages: Pages, pages': Pages, h: HeapId, p: PageId)
    requires p in pages
  {
    if pages[p].heap == Some(h) then
      && (p in pages' <==> pages[p].used != |pages[p].tfree|)
      && (p in pages' ==> pages'[p] == Orphaned(pages[p]).(flag := Never))
    else p in pages' && pages'[p] == pages[p]
  }

  lemma OneGivenUp(pages: Pages, marked: Pages, drained: Pages, list: seq<Block>, h: HeapId, p: PageId)
    requires marked == AllMarked(pages, set p | p in pages && pages[p].heap == Some(h))
    requires OnlyDrained(marked, drained, list) && p in AllOrphaned(drained, h)
    ensures p in pages && (pages[p].heap == Some(h) ==> GivenUp(AllOrphaned(drained, h)[p]))
  {
  }

  lemma OneFreed(pages: Pages, marked: Pages, drained: Pages, list: seq<Block>, h: HeapId, b: Block)
    requires marked == AllMarked(pages, set p | p in pages && pages[p].heap == Some(h))
    requires OnlyDrained(marked, drained, list) && b.page in AllOrphaned(drained, h) && Back(drained, b)
    requires b.page in pages && pages[b.page].heap == Some(h)
    ensures b in AllOrphaned(drained, h)[b.page].free
  {
  }

  lemma OneUntouched(pages: Pages, marked: Pages, drained: Pages, list: seq<Block>, h: HeapId, p: PageId)
    requires marked == AllMarked(pages, set p | p in pages && pages[p].heap == Some(h))
    requires OnlyDrained(marked, drained, list) && p in pages && forall b | b in list :: b.page != p
    ensures Untouched(pages, AllOrphaned(drained, h), h, p)
  {
  }

  /** A heap that nobody disturbs is abandoned: its memory is released, and its pages are without an owner. */
  lemma AbandonAlone(states: seq<State>, steps: seq<Step>, t: ThreadId, h: HeapId) returns (more: seq<Step>, s': State)
    requires IsRun(states, steps) && Quiet(Last(states), t) && OwnsHeap(Last(states), t, h)
    ensures Leads(Last(states), more, s') && AllBy(more, t)
    ensures var s := Last(states);
      && Rested(s.owners, s'.owners, t) && s'.freers == s.freers && s'.live == s.live && s'.heaps == s.heaps - {h}
      && Abandoned(s.pages, s'.pages, s.heaps[h].delayed, h)
  {
    hide IsRun, Inv, Leads, Unlocked, Abandoned, AllOrphaned, OnlyDrained, Back;
    var g := LastInvariant(states, steps);
    var s := Last(states);
    var s1 := WithOwner(s, t, s.owners[t].(task := AbandonMark(h, PagesOf(s, h)), seen := Nothing));
    var act := [ActStep(t, DoAbandon(h))];
    ActAlone(s, t, DoAbandon(h), s1);
    var a, s2 := MarkAlone(s1, t, h, PagesOf(s, h));
    Then(s, act, s1, a, s2, t);
    var g2 := LeadsKeeps(s, g, act + a, s2);
    MarkedUnlocked(s.pages, PagesOf(s, h));
    var c, s3 := SweepAlone(s2, g2, t, h);
    Then(s, act + a, s2, c, s3, t);
    var g3 := LeadsKeeps(s, g, act + a + c, s3);
    EndAlone(s3, g3, t, DoAbandonEnd, h);
    s' := s3.(owners := s3.owners[t := s3.owners[t].(task := Idle)], heaps := s3.heaps - {h});
    Then(s, act + a + c, s3, [ActStep(t, DoAbandonEnd)], s', t);
    more := act + a + c + [ActStep(t, DoAbandonEnd)];
    assert s'.heaps == s.heaps - {h};
    assert s'.owners == s.owners[t := s'.owners[t]];
    AbandonedHow(s.pages, s2.pages, s'.pages, s.heaps[h].delayed, h);
  }

  /** The pages come from a drain of the marked ones. */
  ghost predicate SweptFrom(marked: Pages, pages': Pages, list: seq<Block>, h: HeapId) {
    exists drained ::
      OnlyDrained(marked, drained, list) && (forall b | b in list :: Back(drained, b)) && pages' == AllOrphaned(drained, h)
  }

  lemma AbandonedHow(pages: Pages, marked: Pages, pages': Pages, list: seq<Block>, h: HeapId)
    requires marked == AllMarked(pages, set p | p in pages && pages[p].heap == Some(h)) && SweptFrom(marked, pages', list, h)
    ensures Abandoned(pages, pages', list, h)
  {
    hide OnlyDrained, Back, AllOrphaned, Abandoned;
    var drained :|
      OnlyDrained(marked, drained, list) && (forall b | b in list :: Back(drained, b)) && pages' == AllOrphaned(drained, h);
    AllAbandoned(pages, marked, drained, list, h);
  }

  lemma MarkedUnlocked(pages: Pages, ps: set<PageId>)
    requires Unlocked(pages)
    ensures Unlocked(AllMarked(pages, ps))
  {
  }

  /** The drain of a marked heap, and the visit of its pages. */
  lemma SweepAlone(s: State, g: History, t: ThreadId, h: HeapId) returns (steps: seq<Step>, s': State)
    requires Inv(s, g) && Unlocked(s.pages) && Ready(s, t) && s.owners[t].todo == [] && h in s.heaps
    requires s.owners[t].task == AbandonMark(h, {})
    ensures Leads(s, steps, s') && AllBy(steps, t)
    ensures s'.owners == s.owners[t := Owner(AbandonVisit(h), [], Spin, Nothing)] && PagesOf(s', h) == {}
    ensures s'.heaps == s.heaps[h := Heap(s.heaps[h].thread, [])] && s'.freers == s.freers && s'.live == s.live
    ensures SweptFrom(s.pages, s'.pages, s.heaps[h].delayed, h)
  {
    hide Inv, Leads, Unlocked, OnlyDrained, Back, AllOrphaned;
    var act := [ActStep(t, DoAbandonMarked)];
    var s1 := WithOwner(s, t, s.owners[t].(task := AbandonDrain(h), seen := Nothing));
    ActAlone(s, t, DoAbandonMarked, s1);
    var g1 := LeadsKeeps(s, g, act, s1);
    var a, s2 := TakeAndDrain(s1, g1, t, h);
    Then(s, act, s1, a, s2, t);
    var g2 := LeadsKeeps(s, g, act + a, s2);
    var c;
    c, s' := VisitAllAlone(s2, g2, t, h);
    Then(s, act + a, s2, c, s', t);
    steps := act + a + c;
    assert s'.owners == s.owners[t := Owner(AbandonVisit(h), [], Spin, Nothing)];
    NoneOfHeap(s2.pages, s', h);
  }

  lemma NoneOfHeap(pages: Pages, s: State, h: HeapId)
    requires s.pages == AllOrphaned(pages, h)
    ensures PagesOf(s, h) == {}
  {
  }

  // ---------------------------------------------------------------------------------------------
  // Reclaiming a page
  // ---------------------------------------------------------------------------------------------

  /** A reclaimed page: it belongs to the heap, may be freed to with a delay, and was collected. */
  function Reclaimed(page: Page, t: ThreadId, h: HeapId): Page {
    Swept(page.(owner := Some(t), heap := Some(h), flag := UseDelayed), false)
  }

  /** A page without an owner is reclaimed into a heap, or released if it turns out to be empty. */
  lemma ReclaimAlone(states: seq<State>, steps: seq<Step>, t: ThreadId, p: PageId, h: HeapId) returns (more: seq<Step>, s': State)
    requires IsRun(states, steps) && Quiet(Last(states), t) && OwnsHeap(Last(states), t, h)
    requires p in Last(states).pages && Last(states).pages[p].owner == None
    ensures Leads(Last(states), more, s') && AllBy(more, t)
    ensures
      var s := Last(states);
      var page := s.pages[p];
      && Rested(s.owners, s'.owners, t) && s'.heaps == s.heaps && s'.freers == s.freers && s'.live == s.live
      && s'.pages == if page.used == |page.tfree| then s.pages - {p} else s.pages[p := Reclaimed(page, t, h)]
  {
    hide IsRun, Inv, Leads, Unlocked, Reclaimed;
    var g := LastInvariant(states, steps);
    var s := Last(states);
    AbandonedPageDetached(states, steps, p);
    var a, s1 := AdoptAlone(s, g, t, p, h);
    var g1 := LeadsKeeps(s, g, a, s1);
    s' := EndReclaim(s1, g1, t);
    Then(s, a, s1, [ActStep(t, DoReclaimDecide)], s', t);
    more := a + [ActStep(t, DoReclaimDecide)];
    ReclaimedUsed(s.pages[p], t, h);
    assert s1.pages - {p} == s.pages - {p};
    assert s'.owners == s.owners[t := s'.owners[t]];
  }

  lemma ReclaimedUsed(page: Page, t: ThreadId, h: HeapId)
    ensures Reclaimed(page, t, h).used == page.used - |page.tfree|
  {
  }

  /** The page is popped, put in the heap, flagged and collected. */
  lemma AdoptAlone(s: State, g: History, t: ThreadId, p: PageId, h: HeapId) returns (steps: seq<Step>, s': State)
    requires Inv(s, g) && Quiet(s, t) && OwnsHeap(s, t, h)
    requires p in s.pages && s.pages[p].owner == None && s.pages[p].flag == Never && s.pages[p].heap.None?
    ensures Leads(s, steps, s') && AllBy(steps, t)
    ensures s' == s.(owners := s.owners[t := s.owners[t].(task := ReclaimDecide(p), seen := Nothing)],
                     pages := s.pages[p := Reclaimed(s.pages[p], t, h)])
  {
    hide Inv, Leads, Unlocked, Swept;
    var o, page := s.owners[t], s.pages[p];
    PageFits(s, g, p);
    var act, s2 := PopAndAdopt(s, t, p, h);
    var a, s3 := SpinAlone(s2, t);
    Then(s, act, s2, a, s3, t);
    var c;
    c, s' := CollectAlone(s3, t);
    Then(s, act + a, s3, c, s', t);
    steps := act + a + c;
    assert s'.pages == s.pages[p := Reclaimed(page, t, h)];
    assert s'.owners == s.owners[t := o.(task := ReclaimDecide(p), seen := Nothing)];
  }

  lemma PopAndAdopt(s: State, t: ThreadId, p: PageId, h: HeapId) returns (steps: seq<Step>, s': State)
    requires t in s.owners && s.owners[t].task.Idle? && s.owners[t].todo == [] && OwnsHeap(s, t, h)
    requires p in s.pages && s.pages[p].owner == None && s.pages[p].flag == Never && s.pages[p].heap.None?
    ensures Leads(s, steps, s') && AllBy(steps, t)
    ensures s' == s.(owners := s.owners[t := s.owners[t].(task := ReclaimSpin(p), seen := Nothing)],
                     pages := s.pages[p := s.pages[p].(owner := Some(t), heap := Some(h))])
  {
    hide Leads;
    var o, page := s.owners[t], s.pages[p];
    var s1 := WithOwner(WithPage(s, p, page.(owner := Some(t))), t, o.(task := Popped(p), seen := Nothing));
    ActAlone(s, t, DoPop(p), s1);
    s' := s.(owners := s.owners[t := o.(task := ReclaimSpin(p), seen := Nothing)],
             pages := s.pages[p := page.(owner := Some(t), heap := Some(h))]);
    assert s1.owners[t := s'.owners[t]] == s'.owners;
    assert s1.pages[p := s'.pages[p]] == s'.pages;
    ActAlone(s1, t, DoReclaim(h), s');
    steps := [ActStep(t, DoPop(p))] + [ActStep(t, DoReclaim(h))];
    Then(s, [ActStep(t, DoPop(p))], s1, [ActStep(t, DoReclaim(h))], s', t);
  }

  lemma EndReclaim(s: State, g: History, t: ThreadId) returns (s': State)
    requires Inv(s, g) && t in s.owners && s.owners[t].todo == [] && s.owners[t].task.ReclaimDecide?
    ensures Leads(s, [ActStep(t, DoReclaimDecide)], s') && AllBy([ActStep(t, DoReclaimDecide)], t)
    ensures s.owners[t].task.page in s.pages
    ensures
      var p := s.owners[t].task.page;
      s' == s.(owners := s.owners[t := s.owners[t].(task := Idle)],
               pages := if s.pages[p].used == 0 then s.pages - {p} else s.pages)
  {
    hide Inv, Leads;
    OwnerTaskOk(s, g, t);
    assert Enabled(s, ActStep(t, DoReclaimDecide));
    var g' := StepKeeps(s, g, ActStep(t, DoReclaimDecide));
    s' := Act(s, t, DoReclaimDecide).state;
    ActAlone(s, t, DoReclaimDecide, s');
  }
}
