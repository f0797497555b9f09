/** The main results about the region allocator: each speaks of every run. */
module RegionResults {
  import opened Options
  import opened BitScan
  import opened Regions
  import opened RegionInvariant
  import opened RegionSteps
  import opened RegionMoves
  import opened RegionTheorems

  // ---------------------------------------------------------------------------------------------
  // Safety of every step
  // ---------------------------------------------------------------------------------------------

  /**
   No step of any run breaks an assertion: a claimed run is still claimed and its region published
   when it is read back, a free finds the address it expects and all its bits set.
   */
  lemma NoFault(states: seq<State>, steps: seq<Step>, step: Step)
    requires IsRun(states, steps) && Enabled(Last(states), step.thread, step.choice)
    ensures !Do(Last(states), step.thread, step.choice).Fault?
  {
    hide Inv, Enabled, Do;
    var g := RunInvariant(states, steps);
    StepKeeps(Last(states), g, step.thread, step.choice);
  }

  // ---------------------------------------------------------------------------------------------
  // Exclusion
  // ---------------------------------------------------------------------------------------------

  predicate Apart(a: Address, m: nat, b: Address, n: nat) {
    a + m <= b || b + n <= a
  }

  /** A block lies in the held area of its region, where its memory id says. */
  ghost predicate Located(s: State, block: Block) {
    && Decode(block.memid).InRegion?
    && var run := RunOf(block);
    && run.idx in s.slots && InBounds(run)
    && s.slots[run.idx].info.Info?
    && s.slots[run.idx].start in s.held
    && block.p == s.slots[run.idx].start + run.bit
    && Range(run.bit, run.bit + run.blocks) <= s.slots[run.idx].inUse
  }

  lemma LiveLocated(s: State, g: History, id: nat)
    requires Inv(s, g) && id in s.live
    ensures Located(s, s.live[id]) && s.live[id].memid == id && StageOf(g.stage, RunOf(s.live[id]).idx, Open)
  {
    hide CountOk, SlotsOk, HandsOwn, Range, Decode, Pcs, OwnsRun;
    var run := RunOf(s.live[id]);
    assert BlockOk(s.live[id], s.slots, g.stage);
    OpenShows(s, g, run.idx);
    assert OwnsRun(g.owner, ByBlock(id), run);
    forall b | b in Range(run.bit, run.bit + run.blocks) ensures b in s.slots[run.idx].inUse {
      OwnsBit(g.owner, ByBlock(id), run, b);
    }
  }

  /** Different open slots have areas that do not overlap. */
  lemma OpenApart(s: State, g: History, i: nat, j: nat)
    requires Inv(s, g) && i in s.slots && j in s.slots && i != j && StageOf(g.stage, i, Open) && StageOf(g.stage, j, Open)
    ensures !Overlap(s.slots[i].start, s.slots[j].start)
  {
    hide CountOk, SlotsOk, HandsOwn, BlocksOwn, BlocksOk, Pcs, BitsOk;
    OpenShows(s, g, i);
    OpenShows(s, g, j);
  }

  lemma RunsApart(owner: Owners, c: Claimant, d: Claimant, a: Run, b: Run)
    requires OwnsRun(owner, c, a) && OwnsRun(owner, d, b) && c != d && a.idx == b.idx && a.blocks > 0 && b.blocks > 0
    ensures Apart(a.bit, a.blocks, b.bit, b.blocks)
  {
    if !Apart(a.bit, a.blocks, b.bit, b.blocks) {
      var x := Bit(a.idx, if a.bit < b.bit then b.bit else a.bit);
      BothOwn(owner, c, d, a, b, x);
      assert false;
    }
  }

  lemma BothOwn(owner: Owners, c: Claimant, d: Claimant, a: Run, b: Run, x: Bit)
    requires OwnsRun(owner, c, a) && OwnsRun(owner, d, b) && InRun(x, a) && InRun(x, b)
    ensures c == d
  {
    assert IsOwner(owner, x, c) && IsOwner(owner, x, d);
  }

  /**
   Outstanding claims are exclusive: the blocks callers hold are pairwise disjoint address ranges,
   each where its memory id says, in memory that is held, with all its bits set.
   */
  lemma LiveDisjoint(states: seq<State>, steps: seq<Step>, id: nat, other: nat)
    requires IsRun(states, steps) && id in Last(states).live && other in Last(states).live
    ensures Located(Last(states), Last(states).live[id]) && Last(states).live[id].memid == id
    ensures id != other ==>
      Apart(Last(states).live[id].p, Last(states).live[id].blocks, Last(states).live[other].p, Last(states).live[other].blocks)
  {
    hide IsRun, Inv, Range, Decode, OwnsRun;
    var g := RunInvariant(states, steps);
    var s := Last(states);
    LiveLocated(s, g, id);
    LiveLocated(s, g, other);
    var a, b := RunOf(s.live[id]), RunOf(s.live[other]);
    if id != other {
      if a.idx == b.idx {
        BlockOwns(s, g, id);
        BlockOwns(s, g, other);
        RunsApart(g.owner, ByBlock(id), ByBlock(other), a, b);
      } else {
        OpenApart(s, g, a.idx, b.idx);
      }
    }
  }

  lemma BlockOwns(s: State, g: History, id: nat)
    requires Inv(s, g) && id in s.live
    ensures OwnsRun(g.owner, ByBlock(id), RunOf(s.live[id]))
  {
  }

  /**
   A run that a thread is claiming, the first run of a region that it creates, or a run that it is
   freeing, is disjoint from all blocks and from the runs of other threads.
   */
  lemma HandDisjoint(states: seq<State>, steps: seq<Step>, t: ThreadId)
    requires IsRun(states, steps) && t in Last(states).threads && HandRun(Last(states).threads[t]).blocks > 0
    ensures var s := Last(states); var run := HandRun(s.threads[t]);
      && (forall id | id in s.live && RunOf(s.live[id]).idx == run.idx ::
            Apart(run.bit, run.blocks, RunOf(s.live[id]).bit, s.live[id].blocks))
      && (forall u | u in s.threads && u != t && HandRun(s.threads[u]).blocks > 0 && HandRun(s.threads[u]).idx == run.idx ::
            Apart(run.bit, run.blocks, HandRun(s.threads[u]).bit, HandRun(s.threads[u]).blocks))
  {
    hide IsRun, Inv, Range, Decode, OwnsRun;
    var g := RunInvariant(states, steps);
    var s := Last(states);
    var run := HandRun(s.threads[t]);
    InvHand(s, g, t);
    forall id | id in s.live && RunOf(s.live[id]).idx == run.idx
      ensures Apart(run.bit, run.blocks, RunOf(s.live[id]).bit, s.live[id].blocks)
    {
      LiveLocated(s, g, id);
      BlockOwns(s, g, id);
      RunsApart(g.owner, ByThread(t), ByBlock(id), run, RunOf(s.live[id]));
    }
    forall u | u in s.threads && u != t && HandRun(s.threads[u]).blocks > 0 && HandRun(s.threads[u]).idx == run.idx
      ensures Apart(run.bit, run.blocks, HandRun(s.threads[u]).bit, HandRun(s.threads[u]).blocks)
    {
      InvHand(s, g, u);
      RunsApart(g.owner, ByThread(t), ByThread(u), run, HandRun(s.threads[u]));
    }
  }

  /** A claimed run lies in a published region that suits the request: NUMA node, large pages or not. */
  lemma ClaimSuits(states: seq<State>, steps: seq<Step>, t: ThreadId)
    requires IsRun(states, steps) && t in Last(states).threads
    requires var pc := Last(states).threads[t]; pc.LoadCheck? || pc.LoadInfo? || pc.LoadStart?
    ensures var s := Last(states); var pc := s.threads[t];
      && pc.idx in s.slots && pc.bit + pc.r.blocks <= BITS
      && s.slots[pc.idx].info.Info?
      && (pc.r.numa < 0 || s.slots[pc.idx].info.numa < 0 || s.slots[pc.idx].info.numa == pc.r.numa)
      && (s.slots[pc.idx].info.large ==> pc.r.large)
  {
    hide IsRun, Inv;
    var g := RunInvariant(states, steps);
    InvHand(Last(states), g, t);
    OpenShows(Last(states), g, Last(states).threads[t].idx);
  }

  /** Two threads that create regions never initialize the same slot. */
  lemma SlotsUnique(states: seq<State>, steps: seq<Step>, t: ThreadId, u: ThreadId)
    requires IsRun(states, steps) && t in Last(states).threads && u in Last(states).threads && t != u
    requires Creating(Last(states).threads[t]) && Creating(Last(states).threads[u])
    ensures Last(states).threads[t].idx != Last(states).threads[u].idx
    ensures Last(states).threads[t].idx < REGION_MAX
  {
    hide IsRun, Inv;
    var g := RunInvariant(states, steps);
    InvHand(Last(states), g, t);
    InvHand(Last(states), g, u);
    InTable(Last(states), g, Last(states).threads[t].idx);
  }

  // ---------------------------------------------------------------------------------------------
  // Collected regions
  // ---------------------------------------------------------------------------------------------

  /** What a collected region looks like. */
  predicate Dead(slot: Slot) {
    slot.info.NoInfo? && slot.inUse == Full()
  }

  /** Only a collected region looks like this: a slot in initialization has at most 16 bits set. */
  lemma DeadMeansGone(s: State, g: History, i: nat)
    requires Inv(s, g) && i in s.slots && Dead(s.slots[i])
    ensures StageOf(g.stage, i, Gone)
  {
    hide CountOk, BlocksOwn, BlocksOk, Pcs, HandsOwn, BitsOk, Areas, Range, Full;
    assert SlotOk(i, s.slots[i], g.stage, g.home);
    assert 63 in Full();
    if i in g.stage && g.stage[i].Building? {
      HighBitFree(s, g, i);
      assert false;
    }
  }

  lemma HighBitFree(s: State, g: History, i: nat)
    requires Inv(s, g) && i in s.slots && i in g.stage && g.stage[i].Building?
    ensures 63 !in s.slots[i].inUse
  {
    hide CountOk, SlotsOk, Areas, Range, Full, Decode, BlockOk;
    var x := Bit(i, 63);
    if x in g.owner {
      BuildingOwner(s, g, x);
    }
  }

  /** The owner of a bit of a slot in initialization is a thread that initializes it. */
  lemma BuildingOwner(s: State, g: History, x: Bit)
    requires Inv(s, g) && x in g.owner && x.idx in g.stage && g.stage[x.idx].Building?
    ensures x.bit < MAX_BLOCKS
  {
    hide CountOk, SlotsOk, Areas, Range, Full, Decode, BitsOk;
    var c := g.owner[x];
    assert IsOwner(g.owner, x, c);
    match c
    case ByThread(t) =>
      assert InRun(x, HandRun(s.threads[t]));
      assert PcOk(t, s.threads[t], s.slots, g.stage, g.home);
    case ByBlock(id) =>
      BlockOwns(s, g, id);
      assert InRun(x, RunOf(s.live[id]));
      LiveOpen(s, g, id);
  }

  lemma LiveOpen(s: State, g: History, id: nat)
    requires Inv(s, g) && id in s.live
    ensures StageOf(g.stage, RunOf(s.live[id]).idx, Open)
  {
    assert BlockOk(s.live[id], s.slots, g.stage);
  }

  /** No step changes a collected region. */
  lemma DeadStays(s: State, g: History, step: Step, i: nat)
    requires Inv(s, g) && Enabled(s, step.thread, step.choice) && Do(s, step.thread, step.choice).Ok?
    requires i in s.slots && Dead(s.slots[i])
    ensures var s' := Do(s, step.thread, step.choice).state; i in s'.slots && s'.slots[i] == s.slots[i]
  {
    hide Inv, Range, Full, Decode, RunOf;
    DeadMeansGone(s, g, i);
    var t := step.thread;
    InvHand(s, g, t);
    if step.choice.Go? {
      var pc := s.threads[t];
      if pc.ClaimCas? && pc.idx == i && s.slots[i].inUse == pc.seen { FullNotFree(pc.seen, pc.r.blocks, pc.bit); assert false; }
      assert 0 in Full();
      GoChanges(s, t, step.choice.ok, i);
    }
  }

  lemma FullNotFree(w: Word, count: nat, bit: nat)
    requires w == Full() && count > 0 && bit + count <= BITS
    ensures !Free(w, count, bit)
  {
    assert bit in Range(bit, bit + count);
  }

  /** The slot that a continuing thread may change. */
  function Changes(pc: Pc): Option<nat> {
    match pc
    case ClaimCas(_, _, _, idx, _, _) => Some(idx)
    case OsZero(_, idx, _, _) => Some(idx)
    case OsBits(_, idx, _, _) => Some(idx)
    case OsStart(_, idx, _, _) => Some(idx)
    case OsInfo(_, idx, _, _) => Some(idx)
    case FreeBits(block) => Some(RunOf(block).idx)
    case CollectCas(_, i) => Some(i)
    case CollectClear(_, i, _) => Some(i)
    case _ => None
  }

  lemma GoChanges(s: State, t: ThreadId, ok: bool, i: nat)
    requires t in s.threads && Continue(s, t, ok).Ok? && i in s.slots
    requires Changes(s.threads[t]) == Some(i) ==>
      (s.threads[t].ClaimCas? && s.slots[i].inUse != s.threads[t].seen) ||
      (s.threads[t].CollectCas? && s.slots[i].inUse != {})
    ensures i in Continue(s, t, ok).state.slots && Continue(s, t, ok).state.slots[i] == s.slots[i]
  {
    hide Range, Full, Decode, FirstFit, ClaimTry, ClaimNext, MemId, Suitable, CollectNext;
  }

  /** A collected region stays collected for good, and never hands out a block again. */
  lemma {:induction false} CollectedForGood(states: seq<State>, steps: seq<Step>, i: nat, m: nat, n: nat)
    requires IsRun(states, steps) && m <= n < |states| && i in states[m].slots && Dead(states[m].slots[i])
    ensures i in states[n].slots && Dead(states[n].slots[i])
    ensures forall id | id in states[n].live :: RunOf(states[n].live[id]).idx != i
    decreases n
  {
    hide Inv, Enabled, Do, Init, Dead;
    var g := RunInvariant(states[..n + 1], steps[..n]);
    if m < n {
      CollectedForGood(states, steps, i, m, n - 1);
      var h := RunInvariant(states[..n], steps[..n - 1]);
      assert Enabled(states[n - 1], steps[n - 1].thread, steps[n - 1].choice);
      DeadStays(states[n - 1], h, steps[n - 1], i);
    }
    DeadMeansGone(states[n], g, i);
    forall id | id in states[n].live ensures RunOf(states[n].live[id]).idx != i { LiveOpen(states[n], g, id); }
  }

  /** Memory that is about to be given back holds no block. */
  lemma DroppedUnused(states: seq<State>, steps: seq<Step>, t: ThreadId, id: nat)
    requires IsRun(states, steps) && t in Last(states).threads && id in Last(states).live
    requires Last(states).threads[t].CollectDrop? || Last(states).threads[t].OsDrop?
    ensures Apart(Last(states).threads[t].start, BITS, Last(states).live[id].p, Last(states).live[id].blocks)
  {
    hide IsRun, Inv, Range, Decode;
    var g := RunInvariant(states, steps);
    var s := Last(states);
    InvHand(s, g, t);
    LiveLocated(s, g, id);
    OpenShows(s, g, RunOf(s.live[id]).idx);
    HomesApart(s, g, s.threads[t].start, s.slots[RunOf(s.live[id]).idx].start);
  }

  lemma HomesApart(s: State, g: History, a: Address, b: Address)
    requires Inv(s, g) && a in g.home && b in g.home && g.home[a] != g.home[b]
    ensures !Overlap(a, b)
  {
  }

  // ---------------------------------------------------------------------------------------------
  // The counter
  // ---------------------------------------------------------------------------------------------

  /** The counter exceeds the table exactly while a failed creation has yet to undo its increment. */
  lemma CountFitsIff(states: seq<State>, steps: seq<Step>)
    requires IsRun(states, steps)
    ensures Last(states).count <= REGION_MAX <==> forall t | t in Last(states).threads :: !Last(states).threads[t].OsUndo?
  {
    hide IsRun, SlotsOk, BitsOk, HandsOwn, BlocksOwn, BlocksOk, Pcs, Areas;
    var g := RunInvariant(states, steps);
    var s := Last(states);
    if t :| t in s.threads && s.threads[t].OsUndo? {
      assert t in Undoing(s.threads);
    } else {
      assert Undoing(s.threads) == {};
    }
  }

  /** Where a search through the table is, and how many slots it read that there are. */
  predicate SearchesAt(pc: Pc, i: nat, count: nat) {
    (pc.ClaimInfo? && pc.idx == i && pc.count == count) || (pc.CollectInfo? && pc.i == i && pc.count == count)
  }

  /**
   Only a search overruns the table, exactly at an index past its end, and only if the count that
   this search read exceeds the table, whatever the counter did elsewhere.
   */
  lemma OverrunOnlyPastEnd(states: seq<State>, steps: seq<Step>, step: Step)
    requires IsRun(states, steps) && Enabled(Last(states), step.thread, step.choice)
    ensures Do(Last(states), step.thread, step.choice).Overrun? <==>
      step.choice.Go? && exists i: nat, count: nat :: SearchesAt(Last(states).threads[step.thread], i, count) && i >= REGION_MAX
    ensures Do(Last(states), step.thread, step.choice).Overrun? ==>
      exists i: nat, count: nat :: SearchesAt(Last(states).threads[step.thread], i, count) && REGION_MAX <= i < count
  {
    hide Inv, Enabled, Do;
    var g := RunInvariant(states, steps);
    var s, t := Last(states), step.thread;
    StepKeeps(s, g, t, step.choice);
    assert t in s.threads by { EnabledThread(s, step); }
    var pc := s.threads[t];
    if pc.ClaimInfo? { assert SearchesAt(pc, pc.idx, pc.count); }
    if pc.CollectInfo? { assert SearchesAt(pc, pc.i, pc.count); }
    SearchOverruns(s, g, step);
  }

  lemma EnabledThread(s: State, step: Step)
    requires Enabled(s, step.thread, step.choice)
    ensures step.thread in s.threads
  {
  }

  lemma SearchOverruns(s: State, g: History, step: Step)
    requires Inv(s, g) && Enabled(s, step.thread, step.choice)
    ensures Do(s, step.thread, step.choice).Overrun? ==> step.choice.Go?
    ensures var pc := s.threads[step.thread];
      step.choice.Go? && ((pc.ClaimInfo? && pc.idx >= REGION_MAX) || (pc.CollectInfo? && pc.i >= REGION_MAX)) ==>
        Do(s, step.thread, step.choice).Overrun?
  {
    hide Inv, ContinueClaim, ContinueCollect, ContinueCreate, ContinueLoad, ContinueFree;
    var pc := s.threads[step.thread];
    if pc.ClaimInfo? { InTable(s, g, pc.idx); }
    if pc.CollectInfo? { InTable(s, g, pc.i); }
  }
}
