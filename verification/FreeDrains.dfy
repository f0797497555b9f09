/** What a drain does to a page with remote frees, from a quiet state on: one theorem about whole runs. */
module FreeDrains {
  import opened Options
  import opened FreeProtocol
  import opened FreeInvariant
  import opened FreeFrames
  import opened OwnerLoops
  import opened FreeTheorems
  import opened FreeResults
  import FreeQuiet

  /** At step `j` thread `t` takes over the delayed list of heap `h`. */
  ghost predicate TakesList(states: seq<State>, steps: seq<Step>, j: nat, t: ThreadId, h: HeapId) {
    && j < |steps| && |states| == |steps| + 1
    && steps[j].TakeStep? && steps[j].thread == t
    && t in states[j].owners && TakeTarget(states[j].owners[t]) == Some(h)
    && t in states[j + 1].owners && TakeTarget(states[j + 1].owners[t]) != Some(h)
  }

  /** The block is on the delayed list of the heap. */
  predicate OnList(s: State, h: HeapId, t: ThreadId, b: Block) {
    h in s.heaps && s.heaps[h].thread == t && b in s.heaps[h].delayed
  }

  /** The block is on the list that the thread took over. */
  predicate Taken(s: State, t: ThreadId, b: Block) {
    t in s.owners && b in s.owners[t].todo
  }

  // ---------------------------------------------------------------------------------------------
  // A block stays on a delayed list until the owner takes it over
  // ---------------------------------------------------------------------------------------------

  lemma FreerKeepsList(s: State, c: Block, ok: bool, h: HeapId, t: ThreadId, b: Block)
    requires c in s.freers && AdvanceFreer(s, c, ok).Ok? && OnList(s, h, t, b)
    ensures OnList(AdvanceFreer(s, c, ok).state, h, t, b)
  {
  }

  lemma TakeKeepsList(s: State, g: History, u: ThreadId, ok: bool, h: HeapId, t: ThreadId, b: Block)
    requires Inv(s, g) && u in s.owners && TakeTarget(s.owners[u]).Some? && OwnerTake(s, u, ok).Ok? && OnList(s, h, t, b)
    ensures OnList(OwnerTake(s, u, ok).state, h, t, b) || Taken(OwnerTake(s, u, ok).state, t, b)
  {
    hide Inv;
    OwnerTaskOk(s, g, u);
  }

  lemma ActKeepsList(s: State, u: ThreadId, a: Action, h: HeapId, t: ThreadId, b: Block)
    requires u in s.owners && CanAct(s, u, a) && Act(s, u, a).Ok? && OnList(s, h, t, b)
    ensures OnList(Act(s, u, a).state, h, t, b)
  {
    hide PagesOf, Fresh, RetireChoice, OwnsHeap, Owns;
  }

  lemma OthersKeepList(s: State, step: Step)
    requires Enabled(s, step) && Do(s, step).Ok? && (step.StartFree? || step.SpinStep? || step.CollectStep? || step.FinishStep?)
    ensures Do(s, step).state.heaps == s.heaps
  {
    hide Migrate, TakeThreadFree, RetireChoice;
  }

  /** Only the take-over by its owner takes a block off a delayed list. */
  lemma ListStays(s: State, g: History, step: Step, h: HeapId, t: ThreadId, b: Block)
    requires Inv(s, g) && Enabled(s, step) && Do(s, step).Ok? && OnList(s, h, t, b)
    ensures OnList(Do(s, step).state, h, t, b) || Taken(Do(s, step).state, t, b)
  {
    hide Inv, AdvanceFreer, OwnerSpin, OwnerCollect, OwnerTake, OwnerFinish, Act, CanAct, RetireChoice;
    match step
    case FreerStep(c, ok) => FreerKeepsList(s, c, ok, h, t, b);
    case TakeStep(u, ok) => TakeKeepsList(s, g, u, ok, h, t, b);
    case ActStep(u, a) => ActKeepsList(s, u, a, h, t, b);
    case _ => OthersKeepList(s, step);
  }

  /** The take-over takes the block. */
  lemma TakeTakes(s: State, t: ThreadId, ok: bool, h: HeapId, b: Block)
    requires t in s.owners && TakeTarget(s.owners[t]) == Some(h) && OwnerTake(s, t, ok).Ok? && OnList(s, h, t, b)
    requires TakeTarget(OwnerTake(s, t, ok).state.owners[t]) != Some(h)
    ensures Taken(OwnerTake(s, t, ok).state, t, b)
  {
    DrainTakesAll(s, t, ok);
  }

  /** By the end of a take-over the block has been on the list taken over. */
  lemma {:induction false} Arrives(states: seq<State>, steps: seq<Step>, h: HeapId, t: ThreadId, b: Block, i: nat, j: nat)
    returns (m: nat)
    requires IsRun(states, steps) && i <= j && TakesList(states, steps, j, t, h) && OnList(states[i], h, t, b)
    ensures i < m <= j + 1 && Taken(states[m], t, b)
    decreases j - i
  {
    hide Enabled, Do, Init, Inv, OnList, Taken;
    var g := RunInvariant(states[..i + 1], steps[..i]);
    assert Enabled(states[i], steps[i]) && Do(states[i], steps[i]) == Ok(states[i + 1]);
    ListStays(states[i], g, steps[i], h, t, b);
    if i == j {
      m := i + 1;
      TookOver(states[i], steps[i], h, t, b);
    } else if Taken(states[i + 1], t, b) {
      m := i + 1;
    } else {
      m := Arrives(states, steps, h, t, b, i + 1, j);
    }
  }

  lemma TookOver(s: State, step: Step, h: HeapId, t: ThreadId, b: Block)
    requires step.TakeStep? && step.thread == t && Enabled(s, step) && Do(s, step).Ok? && OnList(s, h, t, b)
    requires TakeTarget(s.owners[t]) == Some(h) && t in Do(s, step).state.owners
    requires TakeTarget(Do(s, step).state.owners[t]) != Some(h)
    ensures Taken(Do(s, step).state, t, b)
  {
    hide OwnerTake;
    TakeTakes(s, t, step.ok, h, b);
  }

  // ---------------------------------------------------------------------------------------------
  // The theorem
  // ---------------------------------------------------------------------------------------------

  /**
   From a quiet state with a page of heap `h` that has remote frees: once its owner has taken over the
   delayed list of the heap, and has worked off what it took, the page was released, or was off the
   full queue, at some state in between.
   */
  lemma QuietPageIsDrained(states: seq<State>, steps: seq<Step>, p: PageId, h: HeapId, t: ThreadId, i: nat, j: nat, k: nat)
    requires IsRun(states, steps) && i <= j < k < |states| && Quiescent(states[i])
    requires p in states[i].pages && states[i].pages[p].tfree != []
    requires states[i].pages[p].heap == Some(h) && states[i].pages[p].owner == Some(t)
    requires TakesList(states, steps, j, t, h)
    requires t in states[k].owners && states[k].owners[t].todo == []
    ensures exists m :: i < m <= k && (p in states[m].pages ==> !states[m].pages[p].inFull)
  {
    hide Enabled, Do, Init, Quiescent, TakesList;
    QuiescentPageIsReached(states[..i + 1], steps[..i], p);
    var b :| b in states[i].heaps[h].delayed && b.page == p;
    assert j < |steps| by { TakeIsStep(states, steps, j, t, h); }
    var m := Arrives(states, steps, h, t, b, i, j);
    DrainReaches(states, steps, t, b, m, k);
    var n :| m < n <= k && (b.page in states[n].pages ==> !states[n].pages[b.page].inFull);
  }

  lemma TakeIsStep(states: seq<State>, steps: seq<Step>, j: nat, t: ThreadId, h: HeapId)
    requires TakesList(states, steps, j, t, h)
    ensures j < |steps|
  {
  }

  /** The theorem covers every page of the full queue: such a page has a heap, and the owner of that heap. */
  lemma FullPageHasHome(states: seq<State>, steps: seq<Step>, p: PageId)
    requires IsRun(states, steps) && p in Last(states).pages && Last(states).pages[p].inFull
    ensures var s := Last(states);
      s.pages[p].heap.Some? && s.pages[p].heap.value in s.heaps && s.pages[p].owner == Some(s.heaps[s.pages[p].heap.value].thread)
  {
    hide Init, Enabled, Do, Inv;
    FreeQuiet.RunQuiet(states, steps);
    assert FreeQuiet.PageQuiet(p, Last(states).pages[p], Last(states).owners);
    var g := LastInvariant(states, steps);
    FreeQuiet.HomeOf(Last(states), g, p);
  }
}
