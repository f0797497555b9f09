/** Every step keeps the invariant of the region allocator. */
module RegionSteps {
  import opened Options
  import opened BitScan
  import opened Regions
  import opened RegionInvariant

  // ---------------------------------------------------------------------------------------------
  // What the other threads rely on
  // ---------------------------------------------------------------------------------------------

  predicate HasRun(pc: Pc) {
    pc.LoadCheck? || pc.LoadInfo? || pc.LoadStart? || pc.FreeStart? || pc.FreeBits?
  }

  /** The change of slots, stages and homes leaves alone what thread `u` relies on. */
  ghost predicate Friendly(slots: Slots, slots': Slots, stage: Stages, stage': Stages, home: Homes, home': Homes,
                           u: ThreadId, pc: Pc) {
    && (forall j | j in slots :: j in slots')
    && (forall j | j in slots && Published(stage, j) :: Published(stage', j) && slots'[j].start == slots[j].start)
    && (forall j | j in slots && Published(stage, j) && StageOf(stage', j, Open) ::
          StageOf(stage, j, Open) && slots'[j].info == slots[j].info)
    && (forall j | j in slots && StageOf(stage, j, Building(u)) :: StageOf(stage', j, Building(u)) && slots'[j] == slots[j])
    && (forall j | j in slots && StageOf(stage, j, Taken(u)) :: StageOf(stage', j, Taken(u)))
    && (forall a | IsHome(home, a, InHandOf(u)) :: IsHome(home', a, InHandOf(u)))
    && (forall a, j | StageOf(stage, j, Building(u)) && IsHome(home, a, InSlot(j)) :: IsHome(home', a, InSlot(j)))
    && (HasRun(pc) && StageOf(stage, HandRun(pc).idx, Open) ==> StageOf(stage', HandRun(pc).idx, Open))
  }

  lemma OtherPcOk(slots: Slots, slots': Slots, stage: Stages, stage': Stages, home: Homes, home': Homes, u: ThreadId, pc: Pc)
    requires PcOk(u, pc, slots, stage, home) && Friendly(slots, slots', stage, stage', home, home', u, pc)
    ensures PcOk(u, pc, slots', stage', home')
  {
    hide Decode, Free, Range;
  }

  lemma PcsStep(threads: Threads, slots: Slots, slots': Slots, stage: Stages, stage': Stages, home: Homes, home': Homes,
                t: ThreadId, pc: Pc)
    requires Pcs(threads, slots, stage, home) && t in threads && PcOk(t, pc, slots', stage', home')
    requires forall u | u in threads && u != t :: Friendly(slots, slots', stage, stage', home, home', u, threads[u])
    ensures Pcs(threads[t := pc], slots', stage', home')
  {
    hide PcOk, Friendly;
    forall u | u in threads && u != t ensures PcOk(u, threads[u], slots', stage', home') {
      OtherPcOk(slots, slots', stage, stage', home, home', u, threads[u]);
    }
  }

  lemma SameFriendly(slots: Slots, stage: Stages, home: Homes, u: ThreadId, pc: Pc)
    ensures Friendly(slots, slots, stage, stage, home, home, u, pc)
  {
  }

  // ---------------------------------------------------------------------------------------------
  // Owners and the counter
  // ---------------------------------------------------------------------------------------------

  lemma HandsStep(threads: Threads, owner: Owners, owner': Owners, t: ThreadId, pc: Pc)
    requires HandsOwn(threads, owner) && t in threads && OwnsRun(owner', ByThread(t), HandRun(pc))
    requires forall x, u | u != t :: IsOwner(owner, x, ByThread(u)) <==> IsOwner(owner', x, ByThread(u))
    ensures HandsOwn(threads[t := pc], owner')
  {
    forall u | u in threads && u != t ensures OwnsRun(owner', ByThread(u), HandRun(threads[u])) {
      assert OwnsRun(owner, ByThread(u), HandRun(threads[u]));
    }
    forall x | x in owner' && owner'[x].ByThread? ensures owner'[x].thread in threads {
      if owner'[x].thread != t {
        assert IsOwner(owner', x, ByThread(owner'[x].thread));
        assert IsOwner(owner, x, ByThread(owner'[x].thread));
      }
    }
  }

  lemma BlocksStep(live: Blocks, owner: Owners, owner': Owners)
    requires BlocksOwn(live, owner)
    requires forall x, id :: IsOwner(owner, x, ByBlock(id)) <==> IsOwner(owner', x, ByBlock(id))
    ensures BlocksOwn(live, owner')
  {
    forall id | id in live ensures OwnsRun(owner', ByBlock(id), RunOf(live[id])) {
      assert OwnsRun(owner, ByBlock(id), RunOf(live[id]));
    }
    forall x | x in owner' && owner'[x].ByBlock? ensures owner'[x].memid in live {
      assert IsOwner(owner', x, ByBlock(owner'[x].memid));
      assert IsOwner(owner, x, ByBlock(owner'[x].memid));
    }
  }

  lemma CountStep(slots: Slots, stage: Stages, used: nat, count: nat, threads: Threads, t: ThreadId, pc: Pc)
    requires CountOk(slots, stage, used, count, threads) && t in threads && threads[t].OsUndo? == pc.OsUndo?
    ensures CountOk(slots, stage, used, count, threads[t := pc])
  {
    assert Undoing(threads[t := pc]) == Undoing(threads);
  }

  /** A step that only moves the thread on. */
  lemma MoveKeeps(s: State, g: History, t: ThreadId, pc: Pc)
    requires Inv(s, g) && t in s.threads && PcOk(t, pc, s.slots, g.stage, g.home)
    requires HandRun(pc) == HandRun(s.threads[t]) || (HandRun(pc).blocks == 0 && HandRun(s.threads[t]).blocks == 0)
    requires s.threads[t].OsUndo? == pc.OsUndo?
    ensures Inv(Put(s, t, pc), g)
  {
    hide PcOk, Friendly, HandRun, RunOf, SlotOk, BitsOk, Areas, CountOk, BlocksOk, BlocksOwn, Pcs;
    forall u | u in s.threads && u != t
      ensures Friendly(s.slots, s.slots, g.stage, g.stage, g.home, g.home, u, s.threads[u])
    {
      SameFriendly(s.slots, g.stage, g.home, u, s.threads[u]);
    }
    PcsStep(s.threads, s.slots, s.slots, g.stage, g.stage, g.home, g.home, t, pc);
    assert OwnsRun(g.owner, ByThread(t), HandRun(s.threads[t]));
    HandsStep(s.threads, g.owner, g.owner, t, pc);
    CountStep(s.slots, g.stage, g.used, s.count, s.threads, t, pc);
  }

  // ---------------------------------------------------------------------------------------------
  // Claiming and freeing bits of an open slot
  // ---------------------------------------------------------------------------------------------

  /** The bits of a run. */
  function Bits(run: Run): set<Bit> {
    set b | b in Range(run.bit, run.bit + run.blocks) :: Bit(run.idx, b)
  }

  /** Changing only the bits in use of a published slot is friendly to all. */
  lemma UseFriendly(slots: Slots, stage: Stages, home: Homes, i: nat, slot: Slot, u: ThreadId, pc: Pc)
    requires i in slots && Published(stage, i) && slot.info == slots[i].info && slot.start == slots[i].start
    ensures Friendly(slots, slots[i := slot], stage, stage, home, home, u, pc)
  {
  }

  lemma UseBlocksOk(live: Blocks, slots: Slots, stage: Stages, i: nat, slot: Slot)
    requires BlocksOk(live, slots, stage) && i in slots && slot.start == slots[i].start
    ensures BlocksOk(live, slots[i := slot], stage)
  {
    hide RunOf, Decode, InBounds;
  }

  lemma SlotsStep(slots: Slots, stage: Stages, home: Homes, i: nat, slot: Slot)
    requires SlotsOk(slots, stage, home) && i in slots && SlotOk(i, slot, stage, home)
    ensures SlotsOk(slots[i := slot], stage, home)
  {
    hide SlotOk;
  }

  /** The bits of a run become one, with an owner. */
  lemma BitsClaimed(slots: Slots, stage: Stages, owner: Owners, run: Run, slot: Slot, c: Claimant)
    requires BitsOk(slots, stage, owner) && run.idx in slots && !Collected(stage, run.idx)
    requires slot.inUse == slots[run.idx].inUse + Range(run.bit, run.bit + run.blocks)
    ensures BitsOk(slots[run.idx := slot], stage, owner + map x | x in Bits(run) :: c)
  {
    hide Collected, Range;
    var owner' := owner + map x | x in Bits(run) :: c;
    forall b: nat ensures b in slot.inUse <==> Bit(run.idx, b) in owner' {
      assert Bit(run.idx, b) in Bits(run) <==> b in Range(run.bit, run.bit + run.blocks);
    }
  }

  /** The bits of a run become zero, without an owner. */
  lemma BitsFreed(slots: Slots, stage: Stages, owner: Owners, run: Run, slot: Slot)
    requires BitsOk(slots, stage, owner) && run.idx in slots && !Collected(stage, run.idx)
    requires slot.inUse == slots[run.idx].inUse - Range(run.bit, run.bit + run.blocks)
    ensures BitsOk(slots[run.idx := slot], stage, owner - Bits(run))
  {
    hide Collected, Range;
    var owner' := owner - Bits(run);
    forall b: nat ensures b in slot.inUse <==> Bit(run.idx, b) in owner' {
      assert Bit(run.idx, b) in Bits(run) <==> b in Range(run.bit, run.bit + run.blocks);
    }
  }

  /** A thread gets unowned bits. */
  lemma OwnerAdded(owner: Owners, t: ThreadId, run: Run)
    requires forall x :: !IsOwner(owner, x, ByThread(t))
    requires forall x | InRun(x, run) :: x !in owner
    ensures var owner' := owner + map x | x in Bits(run) :: ByThread(t);
      && OwnsRun(owner', ByThread(t), run)
      && (forall x, c | c != ByThread(t) :: IsOwner(owner, x, c) <==> IsOwner(owner', x, c))
  {
    var owner' := owner + map x | x in Bits(run) :: ByThread(t);
    forall x ensures x in Bits(run) <==> InRun(x, run) {
      assert InRun(x, run) ==> x == Bit(run.idx, x.bit);
    }
    forall x ensures IsOwner(owner', x, ByThread(t)) <==> InRun(x, run) { assert !IsOwner(owner, x, ByThread(t)); }
  }

  /** All bits of a claimant go to another one, or become unowned. */
  lemma OwnerRemoved(owner: Owners, c: Claimant, run: Run)
    requires OwnsRun(owner, c, run)
    ensures var owner' := owner - Bits(run);
      && (forall x :: !IsOwner(owner', x, c))
      && (forall x, d | d != c :: IsOwner(owner, x, d) <==> IsOwner(owner', x, d))
  {
    var owner' := owner - Bits(run);
    forall x ensures x in Bits(run) <==> InRun(x, run) {
      assert InRun(x, run) ==> x == Bit(run.idx, x.bit);
    }
    forall x ensures x in Bits(run) <==> IsOwner(owner, x, c) {}
  }

  lemma InvHand(s: State, g: History, t: ThreadId)
    requires Inv(s, g) && t in s.threads
    ensures OwnsRun(g.owner, ByThread(t), HandRun(s.threads[t])) && PcOk(t, s.threads[t], s.slots, g.stage, g.home)
  {
  }

  /** A free run has no owner. */
  lemma FreeUnowned(slots: Slots, stage: Stages, owner: Owners, run: Run)
    requires BitsOk(slots, stage, owner) && run.idx in slots && !Collected(stage, run.idx)
    requires Free(slots[run.idx].inUse, run.blocks, run.bit)
    ensures forall x | InRun(x, run) :: x !in owner
  {
    hide Collected;
    forall x | InRun(x, run) ensures x !in owner {
      assert x == Bit(run.idx, x.bit);
      assert x.bit in Range(run.bit, run.bit + run.blocks);
    }
  }

  /** A published slot with a free run is open. */
  lemma FreeMeansOpen(slots: Slots, stage: Stages, home: Homes, i: nat, blocks: nat, bit: nat)
    requires SlotsOk(slots, stage, home) && i in slots && Published(stage, i) && blocks > 0
    requires Free(slots[i].inUse, blocks, bit)
    ensures StageOf(stage, i, Open) && !Collected(stage, i)
  {
    assert SlotOk(i, slots[i], stage, home);
    assert bit in Range(bit, bit + blocks);
  }

  /** The CAS that claims a run of blocks. */
  lemma ClaimKeeps(s: State, g: History, t: ThreadId, s': State) returns (g': History)
    requires Inv(s, g) && t in s.threads && s.threads[t].ClaimCas?
    requires s.threads[t].idx in s.slots && s.slots[s.threads[t].idx].inUse == s.threads[t].seen
    requires var pc := s.threads[t]; var slot := s.slots[pc.idx];
      s' == PutSlot(s, t, LoadCheck(pc.r, pc.idx, pc.bit), pc.idx,
                    slot.(inUse := slot.inUse + Range(pc.bit, pc.bit + pc.r.blocks)))
    ensures Inv(s', g')
  {
    hide SlotOk, BitsOk, Areas, CountOk, BlocksOk, BlocksOwn, Pcs, Friendly, OwnsRun, HandsOwn, IsOwner, Range,
         Free, SlotsOk, BlocksOk, Collected;
    var pc := s.threads[t];
    var run := Run(pc.idx, pc.bit, pc.r.blocks);
    var slot := s'.slots[pc.idx];
    var pc' := LoadCheck(pc.r, pc.idx, pc.bit);
    InvHand(s, g, t);
    FreeMeansOpen(s.slots, g.stage, g.home, pc.idx, pc.r.blocks, pc.bit);
    FreeUnowned(s.slots, g.stage, g.owner, run);
    g' := g.(owner := g.owner + map x | x in Bits(run) :: ByThread(t));
    OwnsNothing(g.owner, ByThread(t));
    OwnerAdded(g.owner, t, run);
    BitsClaimed(s.slots, g.stage, g.owner, run, slot, ByThread(t));
    HandsStep(s.threads, g.owner, g'.owner, t, pc');
    BlocksStep(s.live, g.owner, g'.owner);
    UseBlocksOk(s.live, s.slots, g.stage, pc.idx, slot);
    assert SlotOk(pc.idx, slot, g.stage, g.home) by { OpenAgain(s.slots, g.stage, g.home, pc.idx, slot); }
    SlotsStep(s.slots, g.stage, g.home, pc.idx, slot);
    assert InBounds(run) by { FreeFitsWord(s.slots[pc.idx].inUse, pc.r.blocks, pc.bit); }
    forall u | u in s.threads && u != t
      ensures Friendly(s.slots, s'.slots, g.stage, g.stage, g.home, g.home, u, s.threads[u])
    {
      UseFriendly(s.slots, g.stage, g.home, pc.idx, slot, u, s.threads[u]);
    }
    PcsStep(s.threads, s.slots, s'.slots, g.stage, g.stage, g.home, g.home, t, pc');
    CountKept(s.slots, g.stage, g.used, s.count, s.threads, pc.idx, slot, t, pc');
  }

  lemma FreeFitsWord(w: Word, count: nat, bit: nat)
    requires Free(w, count, bit)
    ensures bit + count <= BITS
  {
  }

  lemma OwnsNothing(owner: Owners, c: Claimant)
    requires OwnsRun(owner, c, NoRun)
    ensures forall x :: !IsOwner(owner, x, c)
  {
    forall x ensures !IsOwner(owner, x, c) { assert IsOwner(owner, x, c) <==> InRun(x, NoRun); }
  }

  lemma OpenAgain(slots: Slots, stage: Stages, home: Homes, i: nat, slot: Slot)
    requires SlotsOk(slots, stage, home) && i in slots && StageOf(stage, i, Open)
    requires slot.info == slots[i].info && slot.start == slots[i].start
    ensures SlotOk(i, slot, stage, home)
  {
    assert SlotOk(i, slots[i], stage, home);
  }

  lemma CountKept(slots: Slots, stage: Stages, used: nat, count: nat, threads: Threads, i: nat, slot: Slot, t: ThreadId, pc: Pc)
    requires CountOk(slots, stage, used, count, threads) && i in slots
    requires t in threads && threads[t].OsUndo? == pc.OsUndo?
    ensures CountOk(slots[i := slot], stage, used, count, threads[t := pc])
  {
    assert Undoing(threads[t := pc]) == Undoing(threads);
  }
}
