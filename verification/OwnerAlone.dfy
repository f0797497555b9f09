/** What the loops of an owner do when no page is locked, and what a whole drain gives back. */
module OwnerAlone {
  import opened Options
  import opened FreeProtocol
  import opened FreeInvariant
  import opened OwnerLoops
  import opened FreeTheorems
  import opened FreeResults
  import opened FreeAlone

  /** No freeing thread holds the lock of a page. */
  ghost predicate Unlocked(pages: Pages) {
    forall p | p in pages :: pages[p].flag != Freeing
  }

  /** The owner loop has not begun. */
  predicate Ready(s: State, t: ThreadId) {
    t in s.owners && s.owners[t].seen.Nothing?
  }

  // ---------------------------------------------------------------------------------------------
  // The three loops
  // ---------------------------------------------------------------------------------------------

  /** The flag after `_mi_page_use_delayed_free`: the new one, but NEVER stays unless it may be overridden. */
  function FlagAfter(call: SpinCall, flag: Delayed): Delayed {
    if flag == Never && !call.override then Never else call.delay
  }

  lemma SpinAlone(s: State, t: ThreadId) returns (steps: seq<Step>, s': State)
    requires Ready(s, t) && SpinTarget(s.owners[t]).Some?
    requires var p := SpinTarget(s.owners[t]).value.page; p in s.pages && s.pages[p].flag != Freeing
    ensures Leads(s, steps, s') && AllBy(steps, t)
    ensures
      var call := SpinTarget(s.owners[t]).value;
      var page := s.pages[call.page];
      s' == s.(pages := s.pages[call.page := page.(flag := FlagAfter(call, page.flag))],
               owners := s.owners[t := SpinDone(s.owners[t])])
  {
    hide SpinTarget, SpinDone, Perform, Leads, Head;
    var o := s.owners[t];
    var call := SpinTarget(o).value;
    var page := s.pages[call.page];
    var step := SpinStep(t, true);
    if MustSet(call, page.flag) {
      var s1 := WithOwner(s, t, o.(seen := SawWord(WordOf(page))));
      SeenTarget(o, SawWord(WordOf(page)));
      s' := WithOwner(WithPage(s, call.page, page.(flag := call.delay)), t, SpinDone(o));
      assert s1.owners[t := SpinDone(o)] == s.owners[t := SpinDone(o)];
      LeadsOne(s, step, s1);
      LeadsOne(s1, step, s');
      LeadsThen(s, [step], s1, [step], s');
      steps := [step] + [step];
    } else {
      assert s.pages[call.page := page] == s.pages;
      s' := WithOwner(s, t, SpinDone(o));
      LeadsOne(s, step, s');
      steps := [step];
    }
  }

  lemma SeenTarget(o: Owner, seen: Seen)
    ensures SpinTarget(o.(seen := seen)) == SpinTarget(o) && SpinDone(o.(seen := seen)) == SpinDone(o)
    ensures CollectTarget(o.(seen := seen)) == CollectTarget(o) && CollectDone(o.(seen := seen)) == CollectDone(o)
    ensures TakeTarget(o.(seen := seen)) == TakeTarget(o)
    ensures forall list :: TakeDone(o.(seen := seen), list) == TakeDone(o, list)
  {
  }

  /**
   A page after `_mi_page_free_collect`: the thread-free list is empty and comes first, then the local list;
   both are on the free list if that was empty or the collect is forced.
   */
  function Swept(page: Page, force: bool): Page {
    if page.free == [] || force then
      page.(tfree := [], localFree := [], free := page.tfree + page.localFree + page.free, used := page.used - |page.tfree|)
    else
      page.(tfree := [], localFree := page.tfree + page.localFree, used := page.used - |page.tfree|)
  }

  lemma SweptIs(page: Page, force: bool)
    requires |page.tfree| <= page.capacity
    ensures Migrate(TakeThreadFree(page), force) == Swept(page, force)
    ensures page.tfree == [] ==> Migrate(page, force) == Swept(page, force)
  {
    assert page.tfree == [] ==> page.tfree + page.localFree == page.localFree;
    assert page.tfree + page.localFree + [] == page.tfree + page.localFree;
  }

  lemma CollectAlone(s: State, t: ThreadId) returns (steps: seq<Step>, s': State)
    requires Ready(s, t) && CollectTarget(s.owners[t]).Some?
    requires var p := CollectTarget(s.owners[t]).value.page; p in s.pages && |s.pages[p].tfree| <= s.pages[p].capacity
    ensures Leads(s, steps, s') && AllBy(steps, t)
    ensures
      var call := CollectTarget(s.owners[t]).value;
      s' == s.(pages := s.pages[call.page := Swept(s.pages[call.page], call.force)],
               owners := s.owners[t := CollectDone(s.owners[t])])
  {
    hide CollectTarget, CollectDone, Perform, Leads, WordOf, Migrate, TakeThreadFree, Swept;
    var o := s.owners[t];
    var call := CollectTarget(o).value;
    var page := s.pages[call.page];
    var step := CollectStep(t, true);
    SweptIs(page, call.force);
    s' := WithOwner(WithPage(s, call.page, Swept(page, call.force)), t, CollectDone(o));
    if call.force || page.tfree != [] {
      var s1 := WithOwner(s, t, o.(seen := SawWord(WordOf(page))));
      SeenTarget(o, SawWord(WordOf(page)));
      assert s1.owners[t := CollectDone(o)] == s.owners[t := CollectDone(o)];
      LeadsOne(s, step, s1);
      LeadsOne(s1, step, s');
      LeadsThen(s, [step], s1, [step], s');
      steps := [step] + [step];
    } else {
      LeadsOne(s, step, s');
      steps := [step];
    }
  }

  lemma TakeAlone(s: State, t: ThreadId) returns (steps: seq<Step>, s': State)
    requires Ready(s, t) && TakeTarget(s.owners[t]).Some? && TakeTarget(s.owners[t]).value in s.heaps
    ensures Leads(s, steps, s') && AllBy(steps, t)
    ensures
      var h := TakeTarget(s.owners[t]).value;
      s' == s.(heaps := s.heaps[h := Heap(s.heaps[h].thread, [])],
               owners := s.owners[t := TakeDone(s.owners[t], s.heaps[h].delayed)])
  {
    hide TakeTarget, TakeDone, Perform, Leads;
    var o := s.owners[t];
    var h := TakeTarget(o).value;
    var list := s.heaps[h].delayed;
    var step := TakeStep(t, true);
    s' := WithOwner(s, t, TakeDone(o, list)).(heaps := s.heaps[h := s.heaps[h].(delayed := [])]);
    if list == [] {
      assert s.heaps[h := s.heaps[h].(delayed := [])] == s.heaps;
      LeadsOne(s, step, s');
      steps := [step];
    } else {
      var s1 := WithOwner(s, t, o.(seen := SawHead(Head(list))));
      SeenTarget(o, SawHead(Head(list)));
      assert s1.owners[t := TakeDone(o, list)] == s.owners[t := TakeDone(o, list)];
      LeadsOne(s, step, s1);
      LeadsOne(s1, step, s');
      LeadsThen(s, [step], s1, [step], s');
      steps := [step] + [step];
    }
  }

  // ---------------------------------------------------------------------------------------------
  // One block of a list that was taken over
  // ---------------------------------------------------------------------------------------------

  /** The page when a delayed block was given back, as long as it still has blocks in use. */
  function GivenBack(page: Page, b: Block): Page {
    var swept := Swept(page.(flag := if page.flag == Never then Never else UseDelayed), false);
    swept.(localFree := [b] + swept.localFree, used := swept.used - 1, inFull := swept.used - 1 == 0 && page.inFull)
  }

  /** The page is released by `_mi_page_retire` if it was full, and kept otherwise. */
  function GiveBack(s: State, t: ThreadId, b: Block): State
    requires t in s.owners && b.page in s.pages && s.owners[t].todo != []
  {
    var page := GivenBack(s.pages[b.page], b);
    var owners := s.owners[t := s.owners[t].(todo := s.owners[t].todo[1..], stage := Spin, seen := Nothing)];
    s.(owners := owners, pages := if page.inFull then s.pages - {b.page} else s.pages[b.page := page])
  }

  lemma FinishAlone(s: State, t: ThreadId) returns (steps: seq<Step>, s': State)
    requires Ready(s, t) && s.owners[t].todo != [] && s.owners[t].stage == Finish
    requires var b := s.owners[t].todo[0]; b.page in s.pages && s.pages[b.page].flag != Freeing
    ensures Leads(s, steps, s') && AllBy(steps, t)
    ensures
      var o := s.owners[t];
      var b := o.todo[0];
      var page := FreeLocal(s.pages[b.page], b);
      s' == s.(owners := s.owners[t := o.(todo := o.todo[1..], stage := Spin)],
               pages := if page.used == 0 && page.inFull then s.pages - {b.page}
                        else s.pages[b.page := page.(inFull := false)])
  {
    hide Perform, Leads, FreeLocal;
    var o := s.owners[t];
    var b := o.todo[0];
    var page := FreeLocal(s.pages[b.page], b);
    var release := page.used == 0 && page.inFull;
    var step := FinishStep(t, release);
    FreeLocalFlag(s.pages[b.page], b);
    var s1 := WithPage(WithOwner(s, t, o.(todo := o.todo[1..], stage := Spin)), b.page, page);
    assert s1.pages - {b.page} == s.pages - {b.page};
    s' := s1.(pages := if release then s.pages - {b.page} else s.pages[b.page := page.(inFull := false)]);
    assert page.used == 0 && !page.inFull ==> page.(inFull := false) == page;
    LeadsOne(s, step, s');
    steps := [step];
  }

  lemma FreeLocalFlag(page: Page, b: Block)
    ensures FreeLocal(page, b).flag == page.flag
  {
  }

  /** Spin, collect and free: one round of `_mi_heap_delayed_free`. */
  lemma RoundAlone(s: State, g: History, t: ThreadId) returns (steps: seq<Step>, s': State)
    requires Inv(s, g) && Unlocked(s.pages) && Ready(s, t) && s.owners[t].todo != [] && s.owners[t].stage == Spin
    ensures s.owners[t].todo[0].page in s.pages
    ensures Leads(s, steps, s') && AllBy(steps, t) && s' == GiveBack(s, t, s.owners[t].todo[0])
  {
    hide Inv, Unlocked, Leads, Swept, FreeLocal, Perform;
    var o := s.owners[t];
    var b := o.todo[0];
    TodoHome(s, g, t);
    var page := s.pages[b.page];
    var a, s1 := SpinAlone(s, t);
    var page1 := page.(flag := if page.flag == Never then Never else UseDelayed);
    assert s1.pages[b.page] == page1;
    var c, s2 := CollectAlone(s1, t);
    assert s2.pages[b.page] == Swept(page1, false);
    SweptFlag(page1, false);
    var d;
    d, s' := FinishAlone(s2, t);
    LeadsThen(s, a, s1, c, s2);
    LeadsThen(s, a + c, s2, d, s');
    AllByJoin(a, c, t);
    AllByJoin(a + c, d, t);
    steps := a + c + d;
    RoundIs(s, t, s2, s');
  }

  lemma SweptFlag(page: Page, force: bool)
    ensures Swept(page, force).flag == page.flag && Swept(page, force).inFull == page.inFull
  {
  }

  /** The page of a block that was taken over is there, has a heap, and its lists fit. */
  lemma TodoHome(s: State, g: History, t: ThreadId)
    requires Inv(s, g) && Unlocked(s.pages) && t in s.owners && s.owners[t].todo != []
    ensures var p := s.owners[t].todo[0].page;
      p in s.pages && s.pages[p].flag != Freeing && |s.pages[p].tfree| <= s.pages[p].capacity
  {
    var b := s.owners[t].todo[0];
    assert ListIs(s.owners[t].todo, g.at, InTodo(t));
    assert b in s.owners[t].todo;
    assert IsAt(g.at, b, InTodo(t));
    ThreadFreeFits(s.pages, g.at, b.page);
  }

  lemma RoundIs(s: State, t: ThreadId, s2: State, s': State)
    requires t in s.owners && s.owners[t].todo != [] && s.owners[t].todo[0].page in s.pages
    requires
      var o := s.owners[t];
      var b := o.todo[0];
      var page := s.pages[b.page];
      var swept := Swept(page.(flag := if page.flag == Never then Never else UseDelayed), false);
      && s2.pages == s.pages[b.page := swept] && swept.inFull == page.inFull
      && s2.owners == s.owners[t := o.(stage := Finish, seen := Nothing)]
      && s2.heaps == s.heaps && s2.freers == s.freers && s2.live == s.live
    requires
      var o := s.owners[t];
      var b := o.todo[0];
      var page := FreeLocal(s2.pages[b.page], b);
      s' == s2.(owners := s2.owners[t := s2.owners[t].(todo := o.todo[1..], stage := Spin)],
               pages := if page.used == 0 && page.inFull then s2.pages - {b.page}
                        else s2.pages[b.page := page.(inFull := false)])
    ensures s' == GiveBack(s, t, s.owners[t].todo[0])
  {
    hide Swept;
    var b := s.owners[t].todo[0];
    assert s2.pages - {b.page} == s.pages - {b.page};
    var page := FreeLocal(s2.pages[b.page], b).(inFull := false);
    assert s2.pages[b.page := page] == s.pages[b.page := page];
    assert s'.owners == GiveBack(s, t, b).owners;
  }

  // ---------------------------------------------------------------------------------------------
  // A whole drain
  // ---------------------------------------------------------------------------------------------

  /** The block is back on a list of its page, which is off the full queue with nothing left to collect. */
  predicate Back(pages: Pages, b: Block) {
    b.page in pages ==>
      var page := pages[b.page];
      && (b in page.free || b in page.localFree)
      && page.tfree == [] && !page.inFull && (page.flag == UseDelayed || page.flag == Never)
  }

  /** Pages are only released; those that stay keep their heap and owner, and others than `ps` are as they were. */
  ghost predicate OnlyDrained(pages: Pages, pages': Pages, list: seq<Block>) {
    && (forall p | p in pages' :: p in pages && pages'[p].heap == pages[p].heap && pages'[p].owner == pages[p].owner)
    && (forall p | p in pages && (forall b | b in list :: b.page != p) :: p in pages' && pages'[p] == pages[p])
    && (forall p | p in pages' :: pages'[p].flag != Freeing && (pages[p].flag == Never <==> pages'[p].flag == Never))
  }

  lemma RoundBack(s: State, t: ThreadId, b: Block, c: Block)
    requires t in s.owners && s.owners[t].todo != [] && b.page in s.pages
    ensures Back(GiveBack(s, t, b).pages, b)
    ensures Back(s.pages, c) ==> Back(GiveBack(s, t, b).pages, c)
  {
  }

  lemma RoundOnly(s: State, t: ThreadId, b: Block)
    requires Unlocked(s.pages) && t in s.owners && s.owners[t].todo != [] && b.page in s.pages
    ensures OnlyDrained(s.pages, GiveBack(s, t, b).pages, [b]) && Unlocked(GiveBack(s, t, b).pages)
  {
  }

  lemma OnlyTwice(pages0: Pages, pages1: Pages, pages2: Pages, list: seq<Block>)
    requires list != [] && OnlyDrained(pages0, pages1, [list[0]]) && OnlyDrained(pages1, pages2, list[1..])
    ensures OnlyDrained(pages0, pages2, list)
  {
    forall p | p in pages0 && (forall b | b in list :: b.page != p) ensures p in pages2 && pages2[p] == pages0[p] {
      assert list[0] in list;
      assert forall b | b in list[1..] :: b in list;
    }
  }

  /** The blocks that were taken over are given back one after the other. */
  lemma {:induction false} DrainRest(s: State, g: History, t: ThreadId) returns (steps: seq<Step>, s': State)
    requires Inv(s, g) && Unlocked(s.pages) && Ready(s, t) && s.owners[t].stage == Spin
    ensures Leads(s, steps, s') && AllBy(steps, t)
    ensures s'.owners == s.owners[t := s.owners[t].(todo := [])] && s'.heaps == s.heaps
    ensures s'.freers == s.freers && s'.live == s.live
    ensures OnlyDrained(s.pages, s'.pages, s.owners[t].todo)
    ensures forall b | b in s.owners[t].todo :: Back(s'.pages, b)
    ensures forall c | Back(s.pages, c) :: Back(s'.pages, c)
    decreases |s.owners[t].todo|
  {
    hide Inv, Leads, Unlocked, Back, GivenBack, OnlyDrained;
    var o := s.owners[t];
    if o.todo == [] {
      steps, s' := [], s;
      LeadsNone(s);
      DrainedNone(s.pages);
      assert s.owners[t := o.(todo := [])] == s.owners;
    } else {
      var b := o.todo[0];
      var a, s1 := RoundAlone(s, g, t);
      var g1 := LeadsKeeps(s, g, a, s1);
      RoundOnly(s, t, b);
      var c;
      c, s' := DrainRest(s1, g1, t);
      LeadsThen(s, a, s1, c, s');
      AllByJoin(a, c, t);
      steps := a + c;
      OnlyTwice(s.pages, s1.pages, s'.pages, o.todo);
      forall x | x in o.todo ensures Back(s'.pages, x) {
        RoundBack(s, t, b, x);
        if x != b { assert x in s1.owners[t].todo by { InRest(o.todo, x); } }
      }
      forall x | Back(s.pages, x) ensures Back(s'.pages, x) { RoundBack(s, t, b, x); }
      assert s1.owners[t := s1.owners[t].(todo := [])] == s.owners[t := o.(todo := [])];
    }
  }

  lemma InRest(list: seq<Block>, x: Block)
    requires list != [] && x in list && x != list[0]
    ensures x in list[1..]
  {
    var i :| 0 <= i < |list| && list[i] == x;
    assert list[1..][i - 1] == x;
  }

  lemma LeadsNone(s: State)
    ensures Leads(s, [], s)
  {
  }

  lemma DrainedNone(pages: Pages)
    ensures Unlocked(pages) ==> OnlyDrained(pages, pages, [])
  {
  }
}
