/**
 What each operation of the protocol does when the other threads stand still: a remote free hands its
 block over, a drain gives back all blocks of the list, a collect empties the thread-free list.
 */
module FreeAlone {
  import opened Options
  import opened FreeProtocol
  import opened FreeInvariant
  import opened OwnerLoops
  import opened FreeTheorems
  import opened FreeResults

  // ---------------------------------------------------------------------------------------------
  // Steps in a row
  // ---------------------------------------------------------------------------------------------

  /** The steps one after the other, with nothing in between. */
  function Perform(s: State, steps: seq<Step>): Outcome
    decreases |steps|
  {
    if steps == [] then Ok(s)
    else if !Enabled(s, steps[0]) then Fault
    else
      match Do(s, steps[0])
      case Fault => Fault
      case Ok(s') => Perform(s', steps[1..])
  }

  predicate Leads(s: State, steps: seq<Step>, s': State) {
    Perform(s, steps) == Ok(s')
  }

  lemma LeadsOne(s: State, step: Step, s': State)
    requires Enabled(s, step) && Do(s, step) == Ok(s')
    ensures Leads(s, [step], s')
  {
    assert Perform(s', []) == Ok(s');
  }

  lemma {:induction false} LeadsThen(s: State, a: seq<Step>, s': State, b: seq<Step>, s'': State)
    requires Leads(s, a, s') && Leads(s', b, s'')
    ensures Leads(s, a + b, s'')
    decreases |a|
  {
    if a == [] {
      assert a + b == b;
    } else {
      assert (a + b)[1..] == a[1..] + b;
      LeadsThen(Do(s, a[0]).state, a[1..], s', b, s'');
    }
  }

  /** The invariant holds after the steps as well. */
  lemma {:induction false} LeadsKeeps(s: State, g: History, steps: seq<Step>, s': State) returns (g': History)
    requires Inv(s, g) && Leads(s, steps, s')
    ensures Inv(s', g')
    decreases |steps|
  {
    hide Inv, Enabled, Do;
    g' := g;
    if steps != [] {
      g' := StepKeeps(s, g, steps[0]);
      g' := LeadsKeeps(Do(s, steps[0]).state, g', steps[1..], s');
    }
  }

  predicate IsBy(step: Step, t: ThreadId) {
    match step
    case StartFree(_) => false
    case FreerStep(_, _) => false
    case SpinStep(u, _) => u == t
    case CollectStep(u, _) => u == t
    case TakeStep(u, _) => u == t
    case FinishStep(u, _) => u == t
    case ActStep(u, _) => u == t
  }

  /** Only thread `t` moves, and as an owner. */
  predicate AllBy(steps: seq<Step>, t: ThreadId) {
    forall i | 0 <= i < |steps| :: IsBy(steps[i], t)
  }

  lemma AllByJoin(a: seq<Step>, b: seq<Step>, t: ThreadId)
    requires AllBy(a, t) && AllBy(b, t)
    ensures AllBy(a + b, t)
  {
  }

  // ---------------------------------------------------------------------------------------------
  // A remote free
  // ---------------------------------------------------------------------------------------------

  function Times(n: nat, step: Step): seq<Step> {
    if n == 0 then [] else [step] + Times(n - 1, step)
  }

  lemma Again(s: State, step: Step, s': State, n: nat, s'': State)
    requires n > 0 && Enabled(s, step) && Do(s, step) == Ok(s') && Leads(s', Times(n - 1, step), s'')
    ensures Leads(s, Times(n, step), s'')
  {
    hide Enabled, Do;
    LeadsOne(s, step, s');
    LeadsThen(s, [step], s', Times(n - 1, step), s'');
  }

  function At(s: State, b: Block, f: Freer): State {
    s.(freers := s.freers[b := f])
  }

  /** The state in which the block is on the delayed list of heap `h`, and the page may be freed to again. */
  function HandedOver(s: State, b: Block, h: HeapId): State
    requires h in s.heaps && b.page in s.pages
  {
    s.(heaps := s.heaps[h := s.heaps[h].(delayed := [b] + s.heaps[h].delayed)],
       pages := s.pages[b.page := s.pages[b.page].(flag := NoDelayed)],
       freers := s.freers - {b})
  }

  /** The second half: the block is on the list, and the lock is given back. */
  lemma ResetAlone(s: State, b: Block)
    requires b in s.freers && s.freers[b].Landed? && b.page in s.pages && s.pages[b.page].flag == Freeing
    ensures Leads(s, Times(2, FreerStep(b, true)),
      s.(pages := s.pages[b.page := s.pages[b.page].(flag := NoDelayed)], freers := s.freers - {b}))
  {
    var step := FreerStep(b, true);
    var w := WordOf(s.pages[b.page]);
    var s1 := At(s, b, Resetting(w));
    var s2 := s.(pages := s.pages[b.page := s.pages[b.page].(flag := NoDelayed)], freers := s.freers - {b});
    assert s1.freers - {b} == s.freers - {b};
    assert Leads(s2, Times(0, step), s2);
    Again(s1, step, s2, 1, s2);
    Again(s, step, s1, 2, s2);
  }

  /** The middle: push the block on the delayed list of the heap. */
  lemma PushDelayedAlone(s: State, b: Block, h: HeapId)
    requires b in s.freers && s.freers[b] == HasHeap(h) && h in s.heaps
    requires b.page in s.pages && s.pages[b.page].flag == Freeing
    ensures Leads(s, Times(4, FreerStep(b, true)), HandedOver(s, b, h))
  {
    hide Leads, Times, HandedOver;
    var head := Head(s.heaps[h].delayed);
    var s1 := At(s, b, HasDelayed(h, head));
    SwapAlone(s1, b, h, head);
    SameHanded(s, s1, b, h);
    Again(s, FreerStep(b, true), s1, 4, HandedOver(s, b, h));
  }

  lemma SwapAlone(s: State, b: Block, h: HeapId, head: Option<Block>)
    requires b in s.freers && s.freers[b] == HasDelayed(h, head) && h in s.heaps && head == Head(s.heaps[h].delayed)
    requires b.page in s.pages && s.pages[b.page].flag == Freeing
    ensures Leads(s, Times(3, FreerStep(b, true)), HandedOver(s, b, h))
  {
    hide Leads, Times, Head, AdvanceOnPage;
    var heap := s.heaps[h];
    var s1 := s.(heaps := s.heaps[h := heap.(delayed := [b] + heap.delayed)], freers := s.freers[b := Landed]);
    ResetAlone(s1, b);
    assert s1.freers - {b} == s.freers - {b};
    Again(s, FreerStep(b, true), s1, 3, HandedOver(s, b, h));
  }

  lemma SameHanded(s: State, s1: State, b: Block, h: HeapId)
    requires h in s.heaps && b.page in s.pages && exists f :: s1 == At(s, b, f)
    ensures HandedOver(s1, b, h) == HandedOver(s, b, h)
  {
    assert s1.freers - {b} == s.freers - {b};
  }

  /** The first part: lock the page, and find its heap. */
  lemma DelayAlone(s: State, b: Block, h: HeapId)
    requires b in s.freers && s.freers[b].Begin? && b.page in s.pages && s.pages[b.page].flag == UseDelayed
    requires s.pages[b.page].heap == Some(h) && h in s.heaps
    ensures Leads(s, Times(7, FreerStep(b, true)), HandedOver(s, b, h))
  {
    hide Leads, Times;
    var step, page := FreerStep(b, true), s.pages[b.page];
    var locked := s.(pages := s.pages[b.page := page.(flag := Freeing)]);
    var s1, s2, s3 := At(s, b, HasWord(WordOf(page))), At(locked, b, Locked), At(locked, b, HasHeap(h));
    PushDelayedAlone(s3, b, h);
    SameHandedOver(s, s3, b, h);
    var done := HandedOver(s, b, h);
    assert s2.freers[b := HasHeap(h)] == s3.freers;
    Again(s2, step, s3, 5, done);
    assert s1.freers[b := Locked] == s2.freers;
    Again(s1, step, s2, 6, done);
    Again(s, step, s1, 7, done);
  }

  lemma SameHandedOver(s: State, s3: State, b: Block, h: HeapId)
    requires h in s.heaps && b.page in s.pages
    requires s3 == At(s.(pages := s.pages[b.page := s.pages[b.page].(flag := Freeing)]), b, HasHeap(h))
    ensures HandedOver(s3, b, h) == HandedOver(s, b, h)
  {
    assert s3.freers - {b} == s.freers - {b};
    assert s3.pages[b.page := s3.pages[b.page].(flag := NoDelayed)] == s.pages[b.page := s.pages[b.page].(flag := NoDelayed)];
  }

  lemma PushAlone(s: State, b: Block)
    requires b in s.freers && s.freers[b].Begin? && b.page in s.pages
    requires s.pages[b.page].flag == NoDelayed || s.pages[b.page].flag == Never
    ensures Leads(s, Times(2, FreerStep(b, true)),
      s.(pages := s.pages[b.page := s.pages[b.page].(tfree := [b] + s.pages[b.page].tfree)], freers := s.freers - {b}))
  {
    var step, page := FreerStep(b, true), s.pages[b.page];
    var s1 := At(s, b, HasWord(WordOf(page)));
    var s2 := s.(pages := s.pages[b.page := page.(tfree := [b] + page.tfree)], freers := s.freers - {b});
    assert s1.freers - {b} == s.freers - {b};
    assert Leads(s2, Times(0, step), s2);
    Again(s1, step, s2, 1, s2);
    Again(s, step, s1, 2, s2);
  }

  lemma FreerHome(s: State, g: History, b: Block)
    requires Inv(s, g) && b in s.freers && s.freers[b].Begin?
    ensures b.page in s.pages
    ensures s.pages[b.page].heap.Some? ==> s.pages[b.page].heap.value in s.heaps
    ensures s.pages[b.page].heap.None? ==> s.pages[b.page].flag == Never
  {
    assert IsAt(g.at, b, InHand);
    assert PageHeapOk(s.pages[b.page], s.heaps, s.owners);
  }

  /**
   A remote free that nobody disturbs hands its block over: to the delayed list of the heap of the page if
   the flag asks for that, and the flag is NO_DELAYED_FREE then; else to the thread-free list of the page.
   Everything else is as it was.
   */
  lemma RemoteFreeAlone(states: seq<State>, steps: seq<Step>, b: Block)
    requires IsRun(states, steps) && b in Last(states).freers && Last(states).freers[b].Begin?
    requires b.page in Last(states).pages ==> Last(states).pages[b.page].flag != Freeing
    ensures b.page in Last(states).pages
    ensures
      var s := Last(states);
      var page := s.pages[b.page];
      if page.flag == UseDelayed then
        page.heap.Some? && page.heap.value in s.heaps &&
        var h := page.heap.value;
        Leads(s, Times(7, FreerStep(b, true)),
          s.(heaps := s.heaps[h := Heap(s.heaps[h].thread, [b] + s.heaps[h].delayed)],
             pages := s.pages[b.page := page.(flag := NoDelayed)],
             freers := s.freers - {b}))
      else
        Leads(s, Times(2, FreerStep(b, true)),
          s.(pages := s.pages[b.page := page.(tfree := [b] + page.tfree)], freers := s.freers - {b}))
  {
    hide Inv, IsRun, Perform, Times;
    var g := LastInvariant(states, steps);
    var s := Last(states);
    FreerHome(s, g, b);
    if s.pages[b.page].flag == UseDelayed {
      DelayAlone(s, b, s.pages[b.page].heap.value);
    } else {
      PushAlone(s, b);
    }
  }

  /** The same from the call on: a block that the program has is handed over. */
  lemma LiveFreeAlone(states: seq<State>, steps: seq<Step>, b: Block)
    requires IsRun(states, steps) && b in Last(states).live
    requires b.page in Last(states).pages ==> Last(states).pages[b.page].flag != Freeing
    ensures b.page in Last(states).pages
    ensures
      var s := Last(states);
      var page := s.pages[b.page];
      if page.flag == UseDelayed then
        page.heap.Some? && page.heap.value in s.heaps &&
        var h := page.heap.value;
        Leads(s, [StartFree(b)] + Times(7, FreerStep(b, true)),
          s.(heaps := s.heaps[h := Heap(s.heaps[h].thread, [b] + s.heaps[h].delayed)],
             pages := s.pages[b.page := page.(flag := NoDelayed)],
             live := s.live - {b}))
      else
        Leads(s, [StartFree(b)] + Times(2, FreerStep(b, true)),
          s.(pages := s.pages[b.page := page.(tfree := [b] + page.tfree)], live := s.live - {b}))
  {
    hide Inv, Perform, Times, Leads, AdvanceFreer;
    var g := LastInvariant(states, steps);
    var s := Last(states);
    NotFreed(s, g, b);
    var s1 := s.(live := s.live - {b}, freers := s.freers[b := Begin]);
    assert IsRun(states + [s1], steps + [StartFree(b)]);
    RemoteFreeAlone(states + [s1], steps + [StartFree(b)], b);
    assert s1.freers - {b} == s.freers;
    LeadsOne(s, StartFree(b), s1);
    var page := s.pages[b.page];
    if page.flag == UseDelayed {
      var h := page.heap.value;
      LeadsThen(s, [StartFree(b)], s1, Times(7, FreerStep(b, true)),
        s.(heaps := s.heaps[h := Heap(s.heaps[h].thread, [b] + s.heaps[h].delayed)],
           pages := s.pages[b.page := page.(flag := NoDelayed)],
           live := s.live - {b}));
    } else {
      LeadsThen(s, [StartFree(b)], s1, Times(2, FreerStep(b, true)),
        s.(pages := s.pages[b.page := page.(tfree := [b] + page.tfree)], live := s.live - {b}));
    }
  }

  /** No thread is freeing a block that the program has. */
  lemma NotFreed(s: State, g: History, b: Block)
    requires Inv(s, g) && b in s.live
    ensures b !in s.freers
  {
    assert IsAt(g.at, b, IsLive);
  }

  // ---------------------------------------------------------------------------------------------
  // An owner allocates and frees
  // ---------------------------------------------------------------------------------------------

  /** A block that its owner allocates and frees again was the first free one, and is the first local one then. */
  lemma MallocAndFree(states: seq<State>, steps: seq<Step>, t: ThreadId, p: PageId)
    requires IsRun(states, steps) && t in Last(states).owners
    requires Last(states).owners[t].task.Idle? && Last(states).owners[t].todo == []
    requires Owns(Last(states), t, p) && Last(states).pages[p].free != [] && !Last(states).pages[p].inFull
    ensures
      var s := Last(states);
      var page := s.pages[p];
      var b := page.free[0];
      && b.page == p && b !in s.live
      && Leads(s, [ActStep(t, DoMalloc(p))],
           s.(live := s.live + {b}, pages := s.pages[p := page.(free := page.free[1..], used := page.used + 1)]))
      && Leads(s, [ActStep(t, DoMalloc(p))] + [ActStep(t, DoFree(b, false))],
           s.(pages := s.pages[p := page.(free := page.free[1..], localFree := [b] + page.localFree)]))
  {
    hide IsRun, Inv, Leads;
    var g := LastInvariant(states, steps);
    var s := Last(states);
    var page := s.pages[p];
    var b := page.free[0];
    FirstFree(s, g, p);
    var s1 := s.(live := s.live + {b}, pages := s.pages[p := page.(free := page.free[1..], used := page.used + 1)]);
    LeadsOne(s, ActStep(t, DoMalloc(p)), s1);
    var s2 := s.(pages := s.pages[p := page.(free := page.free[1..], localFree := [b] + page.localFree)]);
    assert s1.live - {b} == s.live;
    assert s1.pages[p := s2.pages[p]] == s2.pages;
    LeadsOne(s1, ActStep(t, DoFree(b, false)), s2);
    LeadsThen(s, [ActStep(t, DoMalloc(p))], s1, [ActStep(t, DoFree(b, false))], s2);
  }

  lemma FirstFree(s: State, g: History, p: PageId)
    requires Inv(s, g) && p in s.pages && s.pages[p].free != []
    ensures s.pages[p].free[0].page == p && s.pages[p].free[0] !in s.live
  {
    var b := s.pages[p].free[0];
    assert PageOk(p, s.pages[p], g.at);
    assert b in s.pages[p].free;
    assert IsAt(g.at, b, InFree);
  }

  /** A new heap, a page of it with `n` blocks, and `m` blocks more: they come in order, the later ones first. */
  lemma NewPageAlone(s: State, t: ThreadId, h: HeapId, p: PageId, n: nat, m: nat)
    requires t in s.owners && s.owners[t].task.Idle? && s.owners[t].todo == [] && h !in s.heaps && p !in s.pages
    ensures Leads(s, [ActStep(t, DoNewHeap(h))] + [ActStep(t, DoFreshPage(p, h, n))] + [ActStep(t, DoExtend(p, m))],
      s.(heaps := s.heaps[h := Heap(t, [])],
         pages := s.pages[p := Page(Some(t), Some(h), UseDelayed, [],
           seq(n + m, i requires 0 <= i < n + m => Block(p, if i < m then n + i else i - m)), [], 0, n + m, false)]))
  {
    hide Leads;
    var s1 := s.(heaps := s.heaps[h := Heap(t, [])]);
    var s2 := s1.(pages := s.pages[p := Page(Some(t), Some(h), UseDelayed, [], Fresh(p, 0, n), [], 0, n, false)]);
    var list := seq(n + m, i requires 0 <= i < n + m => Block(p, if i < m then n + i else i - m));
    assert list == Fresh(p, n, n + m) + Fresh(p, 0, n);
    var s3 := s1.(pages := s.pages[p := Page(Some(t), Some(h), UseDelayed, [], list, [], 0, n + m, false)]);
    assert s2.pages[p := s3.pages[p]] == s3.pages;
    var a, b, c := ActStep(t, DoNewHeap(h)), ActStep(t, DoFreshPage(p, h, n)), ActStep(t, DoExtend(p, m));
    LeadsOne(s, a, s1);
    LeadsOne(s1, b, s2);
    LeadsOne(s2, c, s3);
    LeadsThen(s, [a], s1, [b], s2);
    LeadsThen(s, [a] + [b], s2, [c], s3);
  }
}
