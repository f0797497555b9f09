/** Steps of the region allocator that hand over blocks, and that create and collect regions. */
module RegionMoves {
  import opened Options
  import opened BitScan
  import opened Regions
  import opened RegionInvariant
  import opened RegionSteps

  // ---------------------------------------------------------------------------------------------
  // Blocks
  // ---------------------------------------------------------------------------------------------

  /** The atomic `and` that frees a run of blocks. */
  lemma UnclaimKeeps(s: State, g: History, t: ThreadId, s': State) returns (g': History)
    requires Inv(s, g) && t in s.threads && s.threads[t].FreeBits?
    requires var run := RunOf(s.threads[t].block);
      run.idx in s.slots &&
      s' == PutSlot(s, t, Idle, run.idx,
              s.slots[run.idx].(inUse := s.slots[run.idx].inUse - Range(run.bit, run.bit + run.blocks)))
    ensures Inv(s', g')
  {
    hide SlotOk, BitsOk, Areas, CountOk, BlocksOk, BlocksOwn, Pcs, Friendly, OwnsRun, HandsOwn, IsOwner, Range,
         SlotsOk, Decode, RunOf;
    var run := RunOf(s.threads[t].block);
    var slot := s'.slots[run.idx];
    InvHand(s, g, t);
    g' := g.(owner := g.owner - Bits(run));
    OwnerRemoved(g.owner, ByThread(t), run);
    BitsFreed(s.slots, g.stage, g.owner, run, slot);
    OwnsNone(g'.owner, ByThread(t));
    HandsStep(s.threads, g.owner, g'.owner, t, Idle);
    BlocksStep(s.live, g.owner, g'.owner);
    UseBlocksOk(s.live, s.slots, g.stage, run.idx, slot);
    assert SlotOk(run.idx, slot, g.stage, g.home) by { OpenAgain(s.slots, g.stage, g.home, run.idx, slot); }
    SlotsStep(s.slots, g.stage, g.home, run.idx, slot);
    forall u | u in s.threads && u != t
      ensures Friendly(s.slots, s'.slots, g.stage, g.stage, g.home, g.home, u, s.threads[u])
    {
      UseFriendly(s.slots, g.stage, g.home, run.idx, slot, u, s.threads[u]);
    }
    PcsStep(s.threads, s.slots, s'.slots, g.stage, g.stage, g.home, g.home, t, Idle);
    CountKept(s.slots, g.stage, g.used, s.count, s.threads, run.idx, slot, t, Idle);
  }

  lemma OwnsNone(owner: Owners, c: Claimant)
    requires forall x :: !IsOwner(owner, x, c)
    ensures OwnsRun(owner, c, NoRun)
  {
    forall x ensures IsOwner(owner, x, c) <==> InRun(x, NoRun) { assert !IsOwner(owner, x, c); }
  }

  /** All bits of one claimant go to another that had none. */
  function Handed(owner: Owners, c: Claimant, d: Claimant): Owners {
    map x | x in owner :: if owner[x] == c then d else owner[x]
  }

  lemma HandedOwns(owner: Owners, c: Claimant, d: Claimant, run: Run)
    requires OwnsRun(owner, c, run) && (forall x :: !IsOwner(owner, x, d)) && c != d
    ensures var owner' := Handed(owner, c, d);
      && OwnsRun(owner', d, run) && (forall x :: !IsOwner(owner', x, c))
      && (forall x, e | e != c && e != d :: IsOwner(owner, x, e) <==> IsOwner(owner', x, e))
  {
    var owner' := Handed(owner, c, d);
    forall x ensures IsOwner(owner', x, d) <==> InRun(x, run) {
      assert !IsOwner(owner, x, d);
      assert IsOwner(owner, x, c) <==> InRun(x, run);
    }
  }

  lemma HandedBits(slots: Slots, stage: Stages, owner: Owners, c: Claimant, d: Claimant)
    requires BitsOk(slots, stage, owner)
    ensures BitsOk(slots, stage, Handed(owner, c, d))
  {
    hide Collected;
  }

  /** The threads' part when thread `t` gives away or gets bits. */
  lemma HandsHanded(threads: Threads, owner: Owners, owner': Owners, t: ThreadId, pc: Pc, id: nat)
    requires HandsOwn(threads, owner) && t in threads && OwnsRun(owner', ByThread(t), HandRun(pc))
    requires forall x, e | e != ByThread(t) && e != ByBlock(id) :: IsOwner(owner, x, e) <==> IsOwner(owner', x, e)
    ensures HandsOwn(threads[t := pc], owner')
  {
    forall x, u | u != t ensures IsOwner(owner, x, ByThread(u)) <==> IsOwner(owner', x, ByThread(u)) {}
    HandsStep(threads, owner, owner', t, pc);
  }

  lemma BlocksAdded(live: Blocks, owner: Owners, owner': Owners, t: ThreadId, block: Block)
    requires BlocksOwn(live, owner) && OwnsRun(owner', ByBlock(block.memid), RunOf(block))
    requires forall x, e | e != ByThread(t) && e != ByBlock(block.memid) :: IsOwner(owner, x, e) <==> IsOwner(owner', x, e)
    ensures BlocksOwn(live[block.memid := block], owner')
  {
    hide RunOf;
    forall id | id in live && id != block.memid ensures OwnsRun(owner', ByBlock(id), RunOf(live[id])) {
      assert OwnsRun(owner, ByBlock(id), RunOf(live[id]));
    }
    forall x | x in owner' && owner'[x].ByBlock? && owner'[x].memid != block.memid ensures owner'[x].memid in live {
      assert IsOwner(owner', x, ByBlock(owner'[x].memid));
      assert IsOwner(owner, x, ByBlock(owner'[x].memid));
    }
  }

  lemma BlocksRemoved(live: Blocks, owner: Owners, owner': Owners, t: ThreadId, id: nat)
    requires BlocksOwn(live, owner) && (forall x :: !IsOwner(owner', x, ByBlock(id)))
    requires forall x, e | e != ByThread(t) && e != ByBlock(id) :: IsOwner(owner, x, e) <==> IsOwner(owner', x, e)
    ensures BlocksOwn(live - {id}, owner')
  {
    hide RunOf;
    forall i | i in live && i != id ensures OwnsRun(owner', ByBlock(i), RunOf(live[i])) {
      assert OwnsRun(owner, ByBlock(i), RunOf(live[i]));
    }
    forall x | x in owner' && owner'[x].ByBlock? ensures owner'[x].memid in live - {id} {
      assert IsOwner(owner', x, ByBlock(owner'[x].memid));
      assert IsOwner(owner, x, ByBlock(owner'[x].memid));
    }
  }

  lemma FirstBit(s: State, g: History, id: nat)
    requires Inv(s, g) && id in s.live
    ensures var run := RunOf(s.live[id]); s.live[id].memid == id && IsOwner(g.owner, Bit(run.idx, run.bit), ByBlock(id))
  {
    hide SlotsOk, BitsOk, Areas, CountOk, Decode, HandsOwn, Pcs;
    var run := RunOf(s.live[id]);
    assert OwnsRun(g.owner, ByBlock(id), run) && BlockOk(s.live[id], s.slots, g.stage);
    assert InRun(Bit(run.idx, run.bit), run);
  }

  /** A run in a thread's hands is not the run of a block as well, so its memory id is new. */
  lemma FreshId(s: State, g: History, t: ThreadId)
    requires Inv(s, g) && t in s.threads && s.threads[t].LoadStart?
    ensures var id := MemId(s.threads[t].idx, s.threads[t].bit);
      id !in s.live && forall x :: !IsOwner(g.owner, x, ByBlock(id))
  {
    hide SlotsOk, BitsOk, Areas, CountOk, Decode;
    var pc := s.threads[t];
    var id := MemId(pc.idx, pc.bit);
    InvHand(s, g, t);
    MemIdRoundTrip(pc.idx, pc.bit);
    var x := Bit(pc.idx, pc.bit);
    assert InRun(x, HandRun(pc));
    assert IsOwner(g.owner, x, ByThread(t));
    if id in s.live {
      FirstBit(s, g, id);
      assert false;
    }
    forall y ensures !IsOwner(g.owner, y, ByBlock(id)) {}
  }

  /** The caller gets its block. */
  lemma LoadKeeps(s: State, g: History, t: ThreadId, s': State) returns (g': History)
    requires Inv(s, g) && t in s.threads && s.threads[t].LoadStart? && s.threads[t].idx in s.slots
    requires var pc := s.threads[t]; var id := MemId(pc.idx, pc.bit);
      s' == Put(s, t, Idle).(live := s.live[id := Block(id, s.slots[pc.idx].start + pc.bit, pc.r.blocks)])
    ensures Inv(s', g')
  {
    hide SlotOk, BitsOk, Areas, CountOk, BlocksOwn, Pcs, Friendly, OwnsRun, HandsOwn, IsOwner, Range, SlotsOk,
         Decode, MemId;
    var pc := s.threads[t];
    var block := Block(MemId(pc.idx, pc.bit), s.slots[pc.idx].start + pc.bit, pc.r.blocks);
    InvHand(s, g, t);
    FreshId(s, g, t);
    MemIdRoundTrip(pc.idx, pc.bit);
    var owner' := Handed(g.owner, ByThread(t), ByBlock(block.memid));
    g' := g.(owner := owner');
    HandedOwns(g.owner, ByThread(t), ByBlock(block.memid), HandRun(pc));
    HandedBits(s.slots, g.stage, g.owner, ByThread(t), ByBlock(block.memid));
    OwnsNone(owner', ByThread(t));
    HandsHanded(s.threads, g.owner, owner', t, Idle, block.memid);
    BlocksAdded(s.live, g.owner, owner', t, block);
    forall u | u in s.threads && u != t
      ensures Friendly(s.slots, s.slots, g.stage, g.stage, g.home, g.home, u, s.threads[u])
    {
      SameFriendly(s.slots, g.stage, g.home, u, s.threads[u]);
    }
    PcsStep(s.threads, s.slots, s.slots, g.stage, g.stage, g.home, g.home, t, Idle);
    CountStep(s.slots, g.stage, g.used, s.count, s.threads, t, Idle);
  }

  /** The caller gives its block back. */
  lemma ReleaseKeeps(s: State, g: History, t: ThreadId, id: nat, s': State) returns (g': History)
    requires Inv(s, g) && t in s.threads && s.threads[t].Idle? && id in s.live
    requires s' == Put(s, t, FreeStart(s.live[id])).(live := s.live - {id})
    ensures Inv(s', g')
  {
    hide SlotOk, BitsOk, Areas, CountOk, Pcs, Friendly, OwnsRun, HandsOwn, IsOwner, Range, SlotsOk, Decode,
         MemId, RunOf;
    var pc' := FreeStart(s.live[id]);
    InvHand(s, g, t);
    OwnsNothing(g.owner, ByThread(t));
    assert OwnsRun(g.owner, ByBlock(id), RunOf(s.live[id]));
    var owner' := Handed(g.owner, ByBlock(id), ByThread(t));
    g' := g.(owner := owner');
    HandedOwns(g.owner, ByBlock(id), ByThread(t), RunOf(s.live[id]));
    HandedBits(s.slots, g.stage, g.owner, ByBlock(id), ByThread(t));
    HandsHanded(s.threads, g.owner, owner', t, pc', id);
    BlocksRemoved(s.live, g.owner, owner', t, id);
    forall u | u in s.threads && u != t
      ensures Friendly(s.slots, s.slots, g.stage, g.stage, g.home, g.home, u, s.threads[u])
    {
      SameFriendly(s.slots, g.stage, g.home, u, s.threads[u]);
    }
    PcsStep(s.threads, s.slots, s.slots, g.stage, g.stage, g.home, g.home, t, pc');
    CountStep(s.slots, g.stage, g.used, s.count, s.threads, t, pc');
  }

  // ---------------------------------------------------------------------------------------------
  // Creating a region
  // ---------------------------------------------------------------------------------------------

  /** Changing the slot that thread `t` builds is friendly to the others. */
  lemma BuildFriendly(slots: Slots, stage: Stages, home: Homes, t: ThreadId, i: nat, slot: Slot, u: ThreadId, pc: Pc)
    requires i in slots && StageOf(stage, i, Building(t)) && u != t
    ensures Friendly(slots, slots[i := slot], stage, stage, home, home, u, pc)
  {
  }

  lemma BuildBlocksOk(live: Blocks, slots: Slots, stage: Stages, i: nat, slot: Slot)
    requires BlocksOk(live, slots, stage) && i in slots && !StageOf(stage, i, Open)
    ensures BlocksOk(live, slots[i := slot], stage)
  {
    hide RunOf, Decode, InBounds;
  }

  /** A slot that no thread has claimed bits of has no owners. */
  lemma EmptyUnowned(slots: Slots, stage: Stages, owner: Owners, i: nat)
    requires BitsOk(slots, stage, owner) && i in slots && !Collected(stage, i) && slots[i].inUse == {}
    ensures forall x | x in owner :: x.idx != i
  {
    hide Collected;
    forall x | x in owner ensures x.idx != i { assert x == Bit(x.idx, x.bit); }
  }

  /** The claim of the first blocks of a slot that is being initialized. */
  lemma FirstClaimKeeps(s: State, g: History, t: ThreadId, s': State) returns (g': History)
    requires Inv(s, g) && t in s.threads && s.threads[t].OsBits? && s.threads[t].idx in s.slots
    requires var pc := s.threads[t]; var slot := s.slots[pc.idx];
      s' == PutSlot(s, t, OsStart(pc.r, pc.idx, pc.start, pc.isLarge), pc.idx,
                    slot.(inUse := slot.inUse + Range(0, pc.r.blocks)))
    ensures Inv(s', g')
  {
    hide BitsOk, Areas, CountOk, BlocksOwn, BlocksOk, Pcs, Friendly, OwnsRun, HandsOwn, IsOwner, Range, SlotsOk, Decode;
    var pc := s.threads[t];
    var run := Run(pc.idx, 0, pc.r.blocks);
    var slot := s'.slots[pc.idx];
    var pc' := OsStart(pc.r, pc.idx, pc.start, pc.isLarge);
    InvHand(s, g, t);
    EmptyUnowned(s.slots, g.stage, g.owner, pc.idx);
    g' := g.(owner := g.owner + map x | x in Bits(run) :: ByThread(t));
    OwnsNothing(g.owner, ByThread(t));
    OwnerAdded(g.owner, t, run);
    BitsClaimed(s.slots, g.stage, g.owner, run, slot, ByThread(t));
    HandsStep(s.threads, g.owner, g'.owner, t, pc');
    BlocksStep(s.live, g.owner, g'.owner);
    BuildBlocksOk(s.live, s.slots, g.stage, pc.idx, slot);
    SlotOkOf(s.slots, g.stage, g.home, pc.idx);
    SlotsStep(s.slots, g.stage, g.home, pc.idx, slot);
    forall u | u in s.threads && u != t
      ensures Friendly(s.slots, s'.slots, g.stage, g.stage, g.home, g.home, u, s.threads[u])
    {
      BuildFriendly(s.slots, g.stage, g.home, t, pc.idx, slot, u, s.threads[u]);
    }
    PcsStep(s.threads, s.slots, s'.slots, g.stage, g.stage, g.home, g.home, t, pc');
    CountKept(s.slots, g.stage, g.used, s.count, s.threads, pc.idx, slot, t, pc');
  }

  lemma SlotOkOf(slots: Slots, stage: Stages, home: Homes, i: nat)
    requires SlotsOk(slots, stage, home) && i in slots
    ensures SlotOk(i, slots[i], stage, home)
  {
  }

  /** Writing the start of a slot, or clearing bits that are clear. */
  lemma BuildKeeps(s: State, g: History, t: ThreadId, pc': Pc, slot: Slot, s': State)
    requires Inv(s, g) && t in s.threads && (s.threads[t].OsZero? || s.threads[t].OsStart?) && s.threads[t].idx in s.slots
    requires var pc := s.threads[t]; slot.inUse == s.slots[pc.idx].inUse && slot.info == s.slots[pc.idx].info
    requires PcOk(t, pc', s.slots[s.threads[t].idx := slot], g.stage, g.home) && !pc'.OsUndo?
    requires HandRun(pc') == HandRun(s.threads[t])
    requires s' == PutSlot(s, t, pc', s.threads[t].idx, slot)
    ensures Inv(s', g)
  {
    hide BitsOk, Areas, CountOk, BlocksOwn, BlocksOk, Pcs, Friendly, OwnsRun, HandsOwn, IsOwner, Range,
         SlotsOk, Decode, HandRun;
    var pc := s.threads[t];
    InvHand(s, g, t);
    assert StageOf(g.stage, pc.idx, Building(t));
    BuildBlocksOk(s.live, s.slots, g.stage, pc.idx, slot);
    BitsSame(s.slots, g.stage, g.owner, pc.idx, slot);
    HandsStep(s.threads, g.owner, g.owner, t, pc');
    SlotOkOf(s.slots, g.stage, g.home, pc.idx);
    SlotsStep(s.slots, g.stage, g.home, pc.idx, slot);
    forall u | u in s.threads && u != t
      ensures Friendly(s.slots, s'.slots, g.stage, g.stage, g.home, g.home, u, s.threads[u])
    {
      BuildFriendly(s.slots, g.stage, g.home, t, pc.idx, slot, u, s.threads[u]);
    }
    PcsStep(s.threads, s.slots, s'.slots, g.stage, g.stage, g.home, g.home, t, pc');
    CountKept(s.slots, g.stage, g.used, s.count, s.threads, pc.idx, slot, t, pc');
  }

  lemma BitsSame(slots: Slots, stage: Stages, owner: Owners, i: nat, slot: Slot)
    requires BitsOk(slots, stage, owner) && i in slots && slot.inUse == slots[i].inUse
    ensures BitsOk(slots[i := slot], stage, owner)
  {
    hide Collected;
  }

  // ---------------------------------------------------------------------------------------------
  // Changing the stage of a slot
  // ---------------------------------------------------------------------------------------------

  /** The stage of a slot changes: it is published, taken for collection, or collected. */
  lemma StageFriendly(slots: Slots, stage: Stages, home: Homes, home': Homes, t: ThreadId, i: nat, slot: Slot, st: Stage,
                      u: ThreadId, pc: Pc)
    requires i in slots && i in stage && u != t
    requires stage[i] == Building(t) || (Published(stage, i) && slot.start == slots[i].start && !st.Building? && !st.Open?)
    requires !(stage[i] == Taken(u)) && (HasRun(pc) && HandRun(pc).idx == i ==> stage[i] != Open)
    requires forall a, v | v != t :: IsHome(home, a, InHandOf(v)) ==> IsHome(home', a, InHandOf(v))
    requires forall a, j | j != i :: IsHome(home, a, InSlot(j)) ==> IsHome(home', a, InSlot(j))
    ensures Friendly(slots, slots[i := slot], stage, stage[i := st], home, home', u, pc)
  {
    hide HandRun;
  }

  /** Nobody relies on an open slot without owned bits being open. */
  lemma NoRunIn(s: State, g: History, i: nat, u: ThreadId)
    requires Inv(s, g) && u in s.threads && HasRun(s.threads[u]) && (forall x | x in g.owner :: x.idx != i)
    ensures HandRun(s.threads[u]).idx != i
  {
    hide SlotsOk, BitsOk, Areas, CountOk, Decode, BlocksOk, BlocksOwn;
    InvHand(s, g, u);
    var run := HandRun(s.threads[u]);
    assert InRun(Bit(run.idx, run.bit), run);
    assert IsOwner(g.owner, Bit(run.idx, run.bit), ByThread(u));
  }

  lemma NoBlockIn(s: State, g: History, i: nat, id: nat)
    requires Inv(s, g) && id in s.live && (forall x | x in g.owner :: x.idx != i)
    ensures RunOf(s.live[id]).idx != i
  {
    hide SlotsOk, BitsOk, Areas, CountOk, Decode, HandsOwn, Pcs;
    FirstBit(s, g, id);
  }

  lemma StageSlots(slots: Slots, stage: Stages, home: Homes, home': Homes, i: nat, slot: Slot, st: Stage)
    requires SlotsOk(slots, stage, home) && i in slots && i in stage && SlotOk(i, slot, stage[i := st], home')
    requires forall a, j | j != i :: IsHome(home, a, InSlot(j)) ==> IsHome(home', a, InSlot(j))
    ensures SlotsOk(slots[i := slot], stage[i := st], home')
  {
    var slots', stage' := slots[i := slot], stage[i := st];
    forall j | j in slots' && j != i ensures SlotOk(j, slots'[j], stage', home') { assert SlotOk(j, slots[j], stage, home); }
  }

  lemma StageBlocks(live: Blocks, slots: Slots, stage: Stages, i: nat, slot: Slot, st: Stage)
    requires BlocksOk(live, slots, stage) && i in slots && i in stage
    requires forall id | id in live :: RunOf(live[id]).idx != i
    ensures BlocksOk(live, slots[i := slot], stage[i := st])
  {
    hide RunOf, Decode, InBounds;
  }

  lemma StageCount(slots: Slots, stage: Stages, used: nat, count: nat, threads: Threads, i: nat, slot: Slot, st: Stage,
                   t: ThreadId, pc: Pc)
    requires CountOk(slots, stage, used, count, threads) && i in slots && i in stage
    requires t in threads && threads[t].OsUndo? == pc.OsUndo?
    ensures CountOk(slots[i := slot], stage[i := st], used, count, threads[t := pc])
  {
    assert Undoing(threads[t := pc]) == Undoing(threads);
  }

  /** A block lies in an open slot. */
  lemma BlockOpen(live: Blocks, slots: Slots, stage: Stages, i: nat)
    requires BlocksOk(live, slots, stage) && !StageOf(stage, i, Open)
    ensures forall id | id in live :: RunOf(live[id]).idx != i
  {
    hide Decode;
    forall id | id in live ensures RunOf(live[id]).idx != i { assert BlockOk(live[id], slots, stage); }
  }

  /** Publishing a region: its info becomes non-zero. */
  lemma PublishKeeps(s: State, g: History, t: ThreadId, info: Info, s': State) returns (g': History)
    requires Inv(s, g) && t in s.threads && s.threads[t].OsInfo? && s.threads[t].idx in s.slots
    requires Suitable(info, s.threads[t].r)
    requires var pc := s.threads[t];
      s' == PutSlot(s, t, LoadCheck(pc.r, pc.idx, 0), pc.idx, s.slots[pc.idx].(info := info))
    ensures Inv(s', g')
  {
    hide BitsOk, Areas, CountOk, BlocksOwn, BlocksOk, Pcs, Friendly, OwnsRun, HandsOwn, IsOwner, Range, SlotsOk, Decode;
    var pc := s.threads[t];
    var slot := s'.slots[pc.idx];
    var pc' := LoadCheck(pc.r, pc.idx, 0);
    g' := g.(stage := g.stage[pc.idx := Open]);
    InvHand(s, g, t);
    SlotOkOf(s.slots, g.stage, g.home, pc.idx);
    StageSlots(s.slots, g.stage, g.home, g.home, pc.idx, slot, Open);
    BitsStaged(s.slots, g.stage, g.owner, pc.idx, slot, Open);
    HandsStep(s.threads, g.owner, g.owner, t, pc');
    BlockOpen(s.live, s.slots, g.stage, pc.idx);
    StageBlocks(s.live, s.slots, g.stage, pc.idx, slot, Open);
    forall u | u in s.threads && u != t
      ensures Friendly(s.slots, s'.slots, g.stage, g'.stage, g.home, g.home, u, s.threads[u])
    {
      StageFriendly(s.slots, g.stage, g.home, g.home, t, pc.idx, slot, Open, u, s.threads[u]);
    }
    PcsStep(s.threads, s.slots, s'.slots, g.stage, g'.stage, g.home, g.home, t, pc');
    StageCount(s.slots, g.stage, g.used, s.count, s.threads, pc.idx, slot, Open, t, pc');
  }

  lemma BitsStaged(slots: Slots, stage: Stages, owner: Owners, i: nat, slot: Slot, st: Stage)
    requires BitsOk(slots, stage, owner) && i in slots && i in stage
    requires if Collected(stage[i := st], i) then forall x | x in owner :: x.idx != i
             else slot.inUse == slots[i].inUse && !Collected(stage, i)
    ensures BitsOk(slots[i := slot], stage[i := st], owner)
  {
  }

  // ---------------------------------------------------------------------------------------------
  // Collecting a region
  // ---------------------------------------------------------------------------------------------

  /** The CAS that claims a whole unused region. */
  lemma TakeKeeps(s: State, g: History, t: ThreadId, s': State) returns (g': History)
    requires Inv(s, g) && t in s.threads && s.threads[t].CollectCas? && s.threads[t].i in s.slots
    requires s.slots[s.threads[t].i].inUse == {}
    requires var pc := s.threads[t];
      s' == PutSlot(s, t, CollectStart(pc.count, pc.i), pc.i, s.slots[pc.i].(inUse := Full()))
    ensures Inv(s', g')
  {
    hide BitsOk, Areas, CountOk, BlocksOwn, BlocksOk, Pcs, Friendly, OwnsRun, HandsOwn, IsOwner, Range,
         SlotsOk, Decode, Full, RunOf;
    var pc := s.threads[t];
    var slot := s'.slots[pc.i];
    var pc' := CollectStart(pc.count, pc.i);
    g' := g.(stage := g.stage[pc.i := Taken(t)]);
    InvHand(s, g, t);
    SlotOkOf(s.slots, g.stage, g.home, pc.i);
    assert g.stage[pc.i].Open? by { assert 0 in Full(); }
    EmptyUnowned(s.slots, g.stage, g.owner, pc.i);
    StageSlots(s.slots, g.stage, g.home, g.home, pc.i, slot, Taken(t));
    BitsStaged(s.slots, g.stage, g.owner, pc.i, slot, Taken(t));
    HandsStep(s.threads, g.owner, g.owner, t, pc');
    forall id | id in s.live ensures RunOf(s.live[id]).idx != pc.i { NoBlockIn(s, g, pc.i, id); }
    StageBlocks(s.live, s.slots, g.stage, pc.i, slot, Taken(t));
    forall u | u in s.threads && u != t
      ensures Friendly(s.slots, s'.slots, g.stage, g'.stage, g.home, g.home, u, s.threads[u])
    {
      if HasRun(s.threads[u]) { NoRunIn(s, g, pc.i, u); }
      StageFriendly(s.slots, g.stage, g.home, g.home, t, pc.i, slot, Taken(t), u, s.threads[u]);
    }
    PcsStep(s.threads, s.slots, s'.slots, g.stage, g'.stage, g.home, g.home, t, pc');
    StageCount(s.slots, g.stage, g.used, s.count, s.threads, pc.i, slot, Taken(t), t, pc');
  }

  /** Clearing the info of a collected region. */
  lemma ClearKeeps(s: State, g: History, t: ThreadId, s': State) returns (g': History)
    requires Inv(s, g) && t in s.threads && s.threads[t].CollectClear? && s.threads[t].i in s.slots
    requires var pc := s.threads[t];
      s' == PutSlot(s, t, CollectDrop(pc.count, pc.i, pc.start), pc.i, s.slots[pc.i].(info := NoInfo))
    ensures Inv(s', g') && s.threads[t].start > 0
  {
    hide BitsOk, CountOk, BlocksOwn, BlocksOk, Pcs, Friendly, OwnsRun, HandsOwn, IsOwner, Range, SlotsOk,
         Decode, Full, RunOf;
    var pc := s.threads[t];
    var slot := s'.slots[pc.i];
    var pc' := CollectDrop(pc.count, pc.i, pc.start);
    InvHand(s, g, t);
    SlotOkOf(s.slots, g.stage, g.home, pc.i);
    var home' := g.home[pc.start := InHandOf(t)];
    g' := g.(stage := g.stage[pc.i := Gone], home := home');
    StageSlots(s.slots, g.stage, g.home, home', pc.i, slot, Gone);
    CollectedUnowned(s.slots, g.stage, g.owner, pc.i);
    BitsStaged(s.slots, g.stage, g.owner, pc.i, slot, Gone);
    HandsStep(s.threads, g.owner, g.owner, t, pc');
    BlockOpen(s.live, s.slots, g.stage, pc.i);
    StageBlocks(s.live, s.slots, g.stage, pc.i, slot, Gone);
    forall u | u in s.threads && u != t
      ensures Friendly(s.slots, s'.slots, g.stage, g'.stage, g.home, home', u, s.threads[u])
    {
      StageFriendly(s.slots, g.stage, g.home, home', t, pc.i, slot, Gone, u, s.threads[u]);
    }
    PcsStep(s.threads, s.slots, s'.slots, g.stage, g'.stage, g.home, home', t, pc');
    StageCount(s.slots, g.stage, g.used, s.count, s.threads, pc.i, slot, Gone, t, pc');
  }

  lemma CollectedUnowned(slots: Slots, stage: Stages, owner: Owners, i: nat)
    requires BitsOk(slots, stage, owner) && Collected(stage, i)
    ensures forall x | x in owner :: x.idx != i
  {
  }

  // ---------------------------------------------------------------------------------------------
  // Memory areas and the counter
  // ---------------------------------------------------------------------------------------------

  /** A change of homes is friendly if other threads and slots keep theirs. */
  lemma HomeFriendly(slots: Slots, stage: Stages, home: Homes, home': Homes, t: ThreadId, u: ThreadId, pc: Pc)
    requires u != t
    requires forall a, v | v != t :: IsHome(home, a, InHandOf(v)) ==> IsHome(home', a, InHandOf(v))
    requires forall a, j :: IsHome(home, a, InSlot(j)) ==> IsHome(home', a, InSlot(j))
    ensures Friendly(slots, slots, stage, stage, home, home', u, pc)
  {
    hide HandRun;
  }

  lemma HomeSlots(slots: Slots, stage: Stages, home: Homes, home': Homes)
    requires SlotsOk(slots, stage, home)
    requires forall a, j :: IsHome(home, a, InSlot(j)) ==> IsHome(home', a, InSlot(j))
    ensures SlotsOk(slots, stage, home')
  {
    forall i | i in slots ensures SlotOk(i, slots[i], stage, home') { assert SlotOk(i, slots[i], stage, home); }
  }

  /** A step that changes the homes of areas in the hands of `t`, the areas held, or the counter. */
  lemma AreaKeeps(s: State, g: History, t: ThreadId, pc': Pc, home': Homes, s': State)
    requires Inv(s, g) && t in s.threads
    requires HandRun(pc').blocks == 0 && HandRun(s.threads[t]).blocks == 0
    requires PcOk(t, pc', s.slots, g.stage, home')
    requires forall a, v | v != t :: IsHome(g.home, a, InHandOf(v)) ==> IsHome(home', a, InHandOf(v))
    requires forall a, j :: IsHome(g.home, a, InSlot(j)) ==> IsHome(home', a, InSlot(j))
    requires Areas(s'.held, home')
    requires s' == Put(s, t, pc').(held := s'.held, count := s'.count)
    requires CountOk(s.slots, g.stage, g.used, s'.count, s'.threads)
    ensures Inv(s', g.(home := home'))
  {
    hide PcOk, Friendly, HandRun, RunOf, SlotOk, BitsOk, Areas, CountOk, BlocksOk, BlocksOwn, Pcs, SlotsOk,
         HandsOwn, IsHome;
    InvHand(s, g, t);
    forall u | u in s.threads && u != t
      ensures Friendly(s.slots, s.slots, g.stage, g.stage, g.home, home', u, s.threads[u])
    {
      HomeFriendly(s.slots, g.stage, g.home, home', t, u, s.threads[u]);
    }
    HomeSlots(s.slots, g.stage, g.home, home');
    PcsStep(s.threads, s.slots, s.slots, g.stage, g.stage, g.home, home', t, pc');
    HandsStep(s.threads, g.owner, g.owner, t, pc');
  }

  /** The system gives a fresh area. */
  lemma FreshKeeps(s: State, g: History, t: ThreadId, start: Address, isLarge: bool, s': State) returns (g': History)
    requires Inv(s, g) && t in s.threads && s.threads[t].OsAlloc?
    requires start > 0 && (isLarge ==> s.threads[t].r.large) && forall a | a in s.held :: !Overlap(a, start)
    requires s' == Put(s, t, OsCount(s.threads[t].r, start, isLarge)).(held := s.held + {start})
    ensures Inv(s', g')
  {
    hide SlotsOk, BitsOk, BlocksOk, BlocksOwn, HandsOwn, Friendly, CountOk;
    InvHand(s, g, t);
    var home' := g.home[start := InHandOf(t)];
    g' := g.(home := home');
    assert start !in s.held by { assert Overlap(start, start); }
    CountStep(s.slots, g.stage, g.used, s.count, s.threads, t, s'.threads[t]);
    AreaKeeps(s, g, t, s'.threads[t], home', s');
  }

  /** A thread gives an area back that is in its hands. */
  lemma DropKeeps(s: State, g: History, t: ThreadId, pc': Pc, start: Address, s': State) returns (g': History)
    requires Inv(s, g) && t in s.threads && IsHome(g.home, start, InHandOf(t))
    requires s.threads[t] == OsDrop(start) || (s.threads[t].CollectDrop? && s.threads[t].start == start)
    requires pc'.Idle? || (pc'.CollectInfo? && pc'.i < pc'.count)
    requires s' == Put(s, t, pc').(held := s.held - {start})
    ensures Inv(s', g') && start in s.held
  {
    hide SlotsOk, BitsOk, BlocksOk, BlocksOwn, HandsOwn, Friendly, CountOk;
    var home' := g.home - {start};
    g' := g.(home := home');
    CountStep(s.slots, g.stage, g.used, s.count, s.threads, t, pc');
    AreaKeeps(s, g, t, pc', home', s');
  }

  lemma UndoCount(threads: Threads, t: ThreadId, pc: Pc)
    requires t in threads && threads[t].OsUndo? != pc.OsUndo?
    ensures |Undoing(threads[t := pc])| == |Undoing(threads)| + (if pc.OsUndo? then 1 else -1)
    ensures t in Undoing(threads[t := pc]) <==> pc.OsUndo?
  {
    var before, after := Undoing(threads), Undoing(threads[t := pc]);
    if pc.OsUndo? { assert after == before + {t}; } else { assert before == after + {t}; }
  }

  /** The counter goes beyond the table: the increment is to be undone. */
  lemma OverflowKeeps(s: State, g: History, t: ThreadId, s': State)
    requires Inv(s, g) && t in s.threads && s.threads[t].OsCount? && s.count >= REGION_MAX
    requires s' == Put(s, t, OsUndo(s.threads[t].start)).(count := s.count + 1)
    ensures Inv(s', g)
  {
    hide SlotsOk, BitsOk, BlocksOk, BlocksOwn, HandsOwn, Friendly, Areas;
    InvHand(s, g, t);
    UndoCount(s.threads, t, s'.threads[t]);
    assert Undoing(s.threads) == {} ==> g.used == s.count;
    AreaKeeps(s, g, t, s'.threads[t], g.home, s');
  }

  /** The decrement that undoes it. */
  lemma UndoKeeps(s: State, g: History, t: ThreadId, s': State)
    requires Inv(s, g) && t in s.threads && s.threads[t].OsUndo?
    requires s' == Put(s, t, OsDrop(s.threads[t].start)).(count := if s.count == 0 then 0 else s.count - 1)
    ensures s.count > 0 && Inv(s', g)
  {
    hide SlotsOk, BitsOk, BlocksOk, BlocksOwn, HandsOwn, Friendly, Areas;
    InvHand(s, g, t);
    UndoCount(s.threads, t, s'.threads[t]);
    assert t in Undoing(s.threads);
    AreaKeeps(s, g, t, s'.threads[t], g.home, s');
  }

  // ---------------------------------------------------------------------------------------------
  // A fresh slot
  // ---------------------------------------------------------------------------------------------

  /** A new slot is friendly to all. */
  lemma NewFriendly(slots: Slots, stage: Stages, home: Homes, t: ThreadId, i: nat, start: Address, u: ThreadId, pc: Pc)
    requires i !in stage && u != t && IsHome(home, start, InHandOf(t))
    ensures Friendly(slots, slots, stage, stage[i := Building(t)], home, home[start := InSlot(i)], u, pc)
  {
    hide HandRun;
  }

  lemma NewSlots(slots: Slots, stage: Stages, home: Homes, t: ThreadId, i: nat, start: Address)
    requires SlotsOk(slots, stage, home) && i !in stage && IsHome(home, start, InHandOf(t))
    ensures SlotsOk(slots, stage[i := Building(t)], home[start := InSlot(i)])
  {
    var stage', home' := stage[i := Building(t)], home[start := InSlot(i)];
    forall j | j in slots ensures SlotOk(j, slots[j], stage', home') { assert SlotOk(j, slots[j], stage, home); }
  }

  lemma NewBlocks(live: Blocks, slots: Slots, stage: Stages, i: nat, st: Stage)
    requires BlocksOk(live, slots, stage) && i !in stage
    ensures BlocksOk(live, slots, stage[i := st])
  {
    hide RunOf, Decode, InBounds;
  }

  lemma NewBits(slots: Slots, stage: Stages, owner: Owners, i: nat, t: ThreadId)
    requires BitsOk(slots, stage, owner) && i !in stage
    ensures BitsOk(slots, stage[i := Building(t)], owner)
  {
  }

  lemma NewCount(slots: Slots, stage: Stages, used: nat, count: nat, threads: Threads, t: ThreadId, pc: Pc)
    requires CountOk(slots, stage, used, count, threads) && count < REGION_MAX
    requires t in threads && !threads[t].OsUndo? && !pc.OsUndo?
    ensures count == used && count !in stage && count in slots
    ensures CountOk(slots, stage[count := Building(t)], used + 1, count + 1, threads[t := pc])
  {
    assert Undoing(threads[t := pc]) == Undoing(threads);
  }

  /** The increment of the counter that wins a slot. */
  lemma SlotKeeps(s: State, g: History, t: ThreadId, s': State) returns (g': History)
    requires Inv(s, g) && t in s.threads && s.threads[t].OsCount? && s.count < REGION_MAX
    requires var pc := s.threads[t]; s' == Put(s, t, OsZero(pc.r, s.count, pc.start, pc.isLarge)).(count := s.count + 1)
    ensures Inv(s', g')
  {
    hide BitsOk, BlocksOk, BlocksOwn, HandsOwn, Friendly, SlotsOk, CountOk, Pcs;
    var pc, pc', i := s.threads[t], s'.threads[t], s.count;
    InvHand(s, g, t);
    NewCount(s.slots, g.stage, g.used, s.count, s.threads, t, pc');
    var stage', home' := g.stage[i := Building(t)], g.home[pc.start := InSlot(i)];
    g' := g.(stage := stage', home := home', used := g.used + 1);
    SlotOkOf(s.slots, g.stage, g.home, i);
    NewSlots(s.slots, g.stage, g.home, t, i, pc.start);
    NewBlocks(s.live, s.slots, g.stage, i, Building(t));
    NewBits(s.slots, g.stage, g.owner, i, t);
    HandsStep(s.threads, g.owner, g.owner, t, pc');
    forall u | u in s.threads && u != t
      ensures Friendly(s.slots, s.slots, g.stage, stage', g.home, home', u, s.threads[u])
    {
      NewFriendly(s.slots, g.stage, g.home, t, i, pc.start, u, s.threads[u]);
    }
    PcsStep(s.threads, s.slots, s.slots, g.stage, stage', g.home, home', t, pc');
  }
}
