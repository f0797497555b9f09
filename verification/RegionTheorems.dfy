/** The region allocator: the invariant holds in every run, and what follows. */
module RegionTheorems {
  import opened Options
  import opened BitScan
  import opened Regions
  import opened RegionInvariant
  import opened RegionSteps
  import opened RegionMoves

  // ---------------------------------------------------------------------------------------------
  // Every step
  // ---------------------------------------------------------------------------------------------

  /** An outcome that keeps the invariant; the table may be overrun only while looking for a region. */
  ghost predicate Fine(o: Outcome, pc: Pc) {
    match o
    case Ok(s') => exists g' :: Inv(s', g')
    case Fault => false
    case Overrun => (pc.ClaimInfo? && REGION_MAX <= pc.idx < pc.count) || (pc.CollectInfo? && REGION_MAX <= pc.i < pc.count)
  }

  lemma InTable(s: State, g: History, i: nat)
    requires Inv(s, g)
    ensures i in s.slots <==> i < REGION_MAX
  {
  }

  /** The scan of a field goes on with a run that is free in what it read, or to the next region. */
  lemma TryOk(s: State, g: History, t: ThreadId, from: nat)
    requires Inv(s, g) && t in s.threads && (s.threads[t].ClaimMap? || s.threads[t].ClaimRemap?) && s.threads[t].idx in s.slots
    ensures var pc := s.threads[t];
      var pc' := ClaimTry(pc.r, pc.count, pc.visited, pc.idx, s.slots[pc.idx].inUse, from);
      PcOk(t, pc', s.slots, g.stage, g.home) && HandRun(pc').blocks == 0 && !pc'.OsUndo?
  {
    hide Inv, Free;
    InvHand(s, g, t);
  }

  lemma ClaimStepKeeps(s: State, g: History, t: ThreadId, ok: bool)
    requires Inv(s, g) && t in s.threads
    requires var pc := s.threads[t]; pc.ClaimInfo? || pc.ClaimMap? || pc.ClaimCas? || pc.ClaimRemap?
    ensures Fine(Continue(s, t, ok), s.threads[t])
  {
    hide Inv, Free, FirstFit, ClaimTry, Range, InRun, ContinueCreate, ContinueLoad, ContinueFree, ContinueCollect;
    var pc := s.threads[t];
    InvHand(s, g, t);
    InTable(s, g, pc.idx);
    if pc.idx in s.slots {
      match pc
      case ClaimInfo(r, count, visited, idx) =>
        if s.slots[idx].info.Info? { LooksPublished(s, g, idx); }
        MoveKeeps(s, g, t, if Suitable(s.slots[idx].info, r) then ClaimMap(r, count, visited, idx)
                           else ClaimNext(r, count, visited + 1, idx + 1));
      case ClaimMap(r, count, visited, idx) =>
        TryOk(s, g, t, 0);
        MoveKeeps(s, g, t, ClaimTry(r, count, visited, idx, s.slots[idx].inUse, 0));
      case ClaimCas(r, count, visited, idx, seen, bit) =>
        if ok && s.slots[idx].inUse == seen {
          var g' := ClaimKeeps(s, g, t, Continue(s, t, ok).state);
        } else {
          MoveKeeps(s, g, t, ClaimRemap(r, count, visited, idx, bit));
        }
      case ClaimRemap(r, count, visited, idx, bit) =>
        TryOk(s, g, t, bit);
        MoveKeeps(s, g, t, ClaimTry(r, count, visited, idx, s.slots[idx].inUse, bit));
    }
  }

  /** A slot with a non-zero info was published. */
  lemma LooksPublished(s: State, g: History, i: nat)
    requires Inv(s, g) && i in s.slots && s.slots[i].info.Info?
    ensures Published(g.stage, i)
  {
    assert SlotOk(i, s.slots[i], g.stage, g.home);
  }

  lemma OsStepKeeps(s: State, g: History, t: ThreadId, ok: bool)
    requires Inv(s, g) && t in s.threads
    requires var pc := s.threads[t];
      pc.OsGuard? || pc.OsCount? || pc.OsUndo? || pc.OsDrop? || pc.OsZero? || pc.OsBits? || pc.OsStart? || pc.OsInfo?
    ensures Fine(Continue(s, t, ok), s.threads[t])
  {
    hide Inv, Range, InRun, ContinueClaim, ContinueLoad, ContinueFree, ContinueCollect;
    var pc := s.threads[t];
    InvHand(s, g, t);
    match pc
    case OsGuard(r) => MoveKeeps(s, g, t, if s.count >= REGION_MAX - 1 then Idle else OsAlloc(r));
    case OsCount(r, start, isLarge) =>
      if s.count >= REGION_MAX { OverflowKeeps(s, g, t, Continue(s, t, ok).state); }
      else { var g' := SlotKeeps(s, g, t, Continue(s, t, ok).state); }
    case OsUndo(start) =>
      UndoKeeps(s, g, t, Put(s, t, OsDrop(start)).(count := if s.count == 0 then 0 else s.count - 1));
    case OsDrop(start) => var g' := DropKeeps(s, g, t, Idle, start, Put(s, t, Idle).(held := s.held - {start}));
    case _ => CreateStepKeeps(s, g, t, ok);
  }

  /** The steps of a thread that initializes a slot. */
  lemma CreateStepKeeps(s: State, g: History, t: ThreadId, ok: bool)
    requires Inv(s, g) && t in s.threads && Creating(s.threads[t])
    ensures Fine(Continue(s, t, ok), s.threads[t])
  {
    hide Inv, Range, InRun, ContinueClaim, ContinueLoad, ContinueFree, ContinueCollect;
    InvHand(s, g, t);
    match s.threads[t]
    case OsZero(r, idx, start, isLarge) =>
      BuildKeeps(s, g, t, OsBits(r, idx, start, isLarge), s.slots[idx].(inUse := {}), Continue(s, t, ok).state);
    case OsBits(r, idx, start, isLarge) => var g' := FirstClaimKeeps(s, g, t, Continue(s, t, ok).state);
    case OsStart(r, idx, start, isLarge) =>
      BuildKeeps(s, g, t, OsInfo(r, idx, start, isLarge), s.slots[idx].(start := start), Continue(s, t, ok).state);
    case OsInfo(r, idx, start, isLarge) =>
      var g' := PublishKeeps(s, g, t, Info(isLarge, if r.numa < 0 then 0 else r.numa), Continue(s, t, ok).state);
  }

  /** The bits in a thread's hands are set. */
  lemma HandSet(s: State, g: History, t: ThreadId)
    requires Inv(s, g) && t in s.threads && HasRun(s.threads[t])
    ensures var run := HandRun(s.threads[t]);
      run.idx in s.slots && Range(run.bit, run.bit + run.blocks) <= s.slots[run.idx].inUse
  {
    hide CountOk, SlotsOk, BlocksOwn, BlocksOk, Areas, Range, Decode, OwnsRun;
    InvHand(s, g, t);
    var run := HandRun(s.threads[t]);
    forall b | b in Range(run.bit, run.bit + run.blocks) ensures b in s.slots[run.idx].inUse {
      OwnsBit(g.owner, ByThread(t), run, b);
    }
  }

  lemma OwnsBit(owner: Owners, c: Claimant, run: Run, b: nat)
    requires OwnsRun(owner, c, run) && run.bit <= b < run.bit + run.blocks
    ensures IsOwner(owner, Bit(run.idx, b), c)
  {
    assert InRun(Bit(run.idx, b), run);
  }

  lemma LoadStepKeeps(s: State, g: History, t: ThreadId, ok: bool)
    requires Inv(s, g) && t in s.threads
    requires var pc := s.threads[t]; pc.LoadCheck? || pc.LoadInfo? || pc.LoadStart?
    ensures Fine(Continue(s, t, ok), s.threads[t])
  {
    hide Inv, Range, InRun, MemId, Decode, ContinueClaim, ContinueCreate, ContinueFree, ContinueCollect;
    var pc := s.threads[t];
    InvHand(s, g, t);
    HandSet(s, g, t);
    OpenShows(s, g, pc.idx);
    match pc
    case LoadCheck(r, idx, bit) => MoveKeeps(s, g, t, LoadInfo(r, idx, bit));
    case LoadInfo(r, idx, bit) => MoveKeeps(s, g, t, LoadStart(r, idx, bit));
    case LoadStart(r, idx, bit) =>
      FreshId(s, g, t);
      var g' := LoadKeeps(s, g, t, Continue(s, t, ok).state);
  }

  /** An open slot has its info and its start. */
  lemma OpenShows(s: State, g: History, i: nat)
    requires Inv(s, g) && i in s.slots && StageOf(g.stage, i, Open)
    ensures s.slots[i].info.Info? && s.slots[i].start > 0 && IsHome(g.home, s.slots[i].start, InSlot(i))
  {
    assert SlotOk(i, s.slots[i], g.stage, g.home);
  }

  lemma FreeStepKeeps(s: State, g: History, t: ThreadId, ok: bool)
    requires Inv(s, g) && t in s.threads && (s.threads[t].FreeStart? || s.threads[t].FreeBits?)
    ensures Fine(Continue(s, t, ok), s.threads[t])
  {
    hide Inv, Range, InRun, MemId, Decode, ContinueClaim, ContinueCreate, ContinueLoad, ContinueCollect;
    var block := s.threads[t].block;
    InvHand(s, g, t);
    HandSet(s, g, t);
    OpenShows(s, g, RunOf(block).idx);
    if s.threads[t].FreeStart? {
      MoveKeeps(s, g, t, FreeBits(block));
    } else {
      var g' := UnclaimKeeps(s, g, t, Continue(s, t, ok).state);
    }
  }

  lemma CollectStepKeeps(s: State, g: History, t: ThreadId, ok: bool)
    requires Inv(s, g) && t in s.threads
    requires var pc := s.threads[t];
      pc.CollectInfo? || pc.CollectMap? || pc.CollectCas? || pc.CollectStart? || pc.CollectClear? || pc.CollectDrop?
    ensures Fine(Continue(s, t, ok), s.threads[t])
  {
    hide Inv, Range, InRun, Full, ContinueClaim, ContinueCreate, ContinueLoad, ContinueFree;
    var pc := s.threads[t];
    InvHand(s, g, t);
    InTable(s, g, pc.i);
    if pc.i in s.slots {
      match pc
      case CollectInfo(_, _) => CollectLookKeeps(s, g, t, ok);
      case CollectMap(_, _) => CollectLookKeeps(s, g, t, ok);
      case CollectCas(count, i) =>
        if ok && s.slots[i].inUse == {} {
          var g' := TakeKeeps(s, g, t, Continue(s, t, ok).state);
        } else {
          MoveKeeps(s, g, t, CollectMap(count, i));
        }
      case _ => CollectEndKeeps(s, g, t, ok);
    }
  }

  /** The steps of a thread that looks for an unused region. */
  lemma CollectLookKeeps(s: State, g: History, t: ThreadId, ok: bool)
    requires Inv(s, g) && t in s.threads
    requires var pc := s.threads[t]; (pc.CollectInfo? || pc.CollectMap?) && pc.i in s.slots
    ensures Fine(Continue(s, t, ok), s.threads[t])
  {
    hide Inv, Range, InRun, Full, ContinueClaim, ContinueCreate, ContinueLoad, ContinueFree;
    InvHand(s, g, t);
    match s.threads[t]
    case CollectInfo(count, i) =>
      if s.slots[i].info.Info? { LooksPublished(s, g, i); }
      MoveKeeps(s, g, t, if s.slots[i].info.Info? then CollectMap(count, i) else CollectNext(count, i + 1));
    case CollectMap(count, i) =>
      MoveKeeps(s, g, t, if s.slots[i].inUse == {} then CollectCas(count, i) else CollectNext(count, i + 1));
  }

  /** The steps of a thread that has claimed a whole region. */
  lemma CollectEndKeeps(s: State, g: History, t: ThreadId, ok: bool)
    requires Inv(s, g) && t in s.threads
    requires var pc := s.threads[t]; (pc.CollectStart? || pc.CollectClear? || pc.CollectDrop?) && pc.i in s.slots
    ensures Fine(Continue(s, t, ok), s.threads[t])
  {
    hide Inv, Range, InRun, Full, ContinueClaim, ContinueCreate, ContinueLoad, ContinueFree;
    InvHand(s, g, t);
    match s.threads[t]
    case CollectStart(count, i) => MoveKeeps(s, g, t, CollectClear(count, i, s.slots[i].start));
    case CollectClear(count, i, start) =>
      var g' := ClearKeeps(s, g, t, PutSlot(s, t, CollectDrop(count, i, start), i, s.slots[i].(info := NoInfo)));
    case CollectDrop(count, i, start) =>
      var s' := Put(s, t, CollectNext(count, i + 1)).(held := s.held - {start});
      var g' := DropKeeps(s, g, t, CollectNext(count, i + 1), start, s');
  }

  lemma StepKeeps(s: State, g: History, t: ThreadId, c: Choice)
    requires Inv(s, g) && Enabled(s, t, c)
    ensures Fine(Do(s, t, c), s.threads[t])
  {
    hide Inv, Range, InRun, Continue, Fine, ClaimNext, Decode;
    var pc := s.threads[t];
    InvHand(s, g, t);
    match c
    case Go(ok) => GoKeeps(s, g, t, ok);
    case Alloc(r, first) => MoveKeeps(s, g, t, ClaimCount(r, first)); IsFine(Put(s, t, ClaimCount(r, first)), g, pc);
    case Fresh(start, isLarge) =>
      var g' := FreshKeeps(s, g, t, start, isLarge, Do(s, t, c).state);
      IsFine(Do(s, t, c).state, g', pc);
    case Refuse => MoveKeeps(s, g, t, Idle); IsFine(Put(s, t, Idle), g, pc);
    case Release(id) => var g' := ReleaseKeeps(s, g, t, id, Do(s, t, c).state); IsFine(Do(s, t, c).state, g', pc);
    case Collect => MoveKeeps(s, g, t, CollectCount); IsFine(Put(s, t, CollectCount), g, pc);
  }

  lemma IsFine(s: State, g: History, pc: Pc)
    requires Inv(s, g)
    ensures Fine(Ok(s), pc)
  {
  }

  lemma GoKeeps(s: State, g: History, t: ThreadId, ok: bool)
    requires Inv(s, g) && t in s.threads && !s.threads[t].Idle? && !s.threads[t].OsAlloc?
    ensures Fine(Continue(s, t, ok), s.threads[t])
  {
    hide Inv, Fine, Continue, PcOk;
    var pc := s.threads[t];
    if pc.ClaimInfo? || pc.ClaimMap? || pc.ClaimCas? || pc.ClaimRemap? {
      ClaimStepKeeps(s, g, t, ok);
    } else if pc.FreeStart? || pc.FreeBits? {
      FreeStepKeeps(s, g, t, ok);
    } else if pc.LoadCheck? || pc.LoadInfo? || pc.LoadStart? {
      LoadStepKeeps(s, g, t, ok);
    } else if pc.ClaimCount? || pc.CollectCount? {
      StartStepKeeps(s, g, t, ok);
    } else if pc.CollectInfo? || pc.CollectMap? || pc.CollectCas? || pc.CollectStart? || pc.CollectClear? || pc.CollectDrop? {
      CollectStepKeeps(s, g, t, ok);
    } else {
      OsStepKeeps(s, g, t, ok);
    }
  }

  lemma StartStepKeeps(s: State, g: History, t: ThreadId, ok: bool)
    requires Inv(s, g) && t in s.threads && (s.threads[t].ClaimCount? || s.threads[t].CollectCount?)
    ensures Fine(Continue(s, t, ok), s.threads[t])
  {
    hide Inv;
    InvHand(s, g, t);
    match s.threads[t]
    case ClaimCount(r, first) => MoveKeeps(s, g, t, ClaimNext(r, s.count, 0, first));
    case CollectCount => MoveKeeps(s, g, t, CollectNext(s.count, 0));
  }

  // ---------------------------------------------------------------------------------------------
  // Every run
  // ---------------------------------------------------------------------------------------------

  lemma InitHolds(s: State)
    requires Init(s)
    ensures Inv(s, History(map[], map[], 0, map[]))
  {
    hide Range;
    assert Undoing(s.threads) == {};
    forall i ensures i in s.slots <==> 0 <= i < REGION_MAX { assert i in s.slots <==> i in Range(0, REGION_MAX); }
  }

  /** The state after a run. */
  function Last(states: seq<State>): State
    requires states != []
  {
    states[|states| - 1]
  }

  lemma {:induction false} RunInvariant(states: seq<State>, steps: seq<Step>) returns (g: History)
    requires IsRun(states, steps)
    ensures states != [] && Inv(Last(states), g)
    decreases |steps|
  {
    hide Inv, Enabled, Do, Init;
    if steps == [] {
      g := History(map[], map[], 0, map[]);
      InitHolds(states[0]);
    } else {
      var n := |steps| - 1;
      var h := RunInvariant(states[..n + 1], steps[..n]);
      assert Enabled(states[n], steps[n].thread, steps[n].choice);
      StepKeeps(states[n], h, steps[n].thread, steps[n].choice);
      g :| Inv(states[n + 1], g);
    }
  }
}
