/**
 The invariant of the region allocator, relative to a history: who owns each bit, the stage of each
 slot, and where each memory area is.
 */
module RegionInvariant {
  import opened Options
  import opened BitScan
  import opened Regions

  type Slots = map<nat, Slot>
  type Threads = map<ThreadId, Pc>
  type Blocks = map<nat, Block>
  type Owners = map<Bit, Claimant>
  type Stages = map<nat, Stage>
  type Homes = map<Address, Home>

  datatype Bit = Bit(idx: nat, bit: nat)

  datatype Claimant = ByBlock(memid: nat) | ByThread(thread: ThreadId)

  /** A slot is being initialized, is published, is being collected, or was collected. */
  datatype Stage = Building(thread: ThreadId) | Open | Taken(thread: ThreadId) | Gone

  /** A memory area belongs to a slot, or is in the hands of a thread. */
  datatype Home = InSlot(idx: nat) | InHandOf(thread: ThreadId)

  datatype History = History(owner: Owners, stage: Stages, used: nat, home: Homes)

  /** `blocks` bits of slot `idx` from `bit` on. */
  datatype Run = Run(idx: nat, bit: nat, blocks: nat)

  predicate InRun(x: Bit, run: Run) {
    x.idx == run.idx && run.bit <= x.bit < run.bit + run.blocks
  }

  const NoRun := Run(0, 0, 0)

  function RunOf(block: Block): Run {
    match Decode(block.memid)
    case InRegion(idx, bit) => Run(idx, bit, block.blocks)
    case InArena(_) => NoRun
  }

  /** The bits that a thread has claimed for nobody but itself yet. */
  function HandRun(pc: Pc): Run {
    match pc
    case OsStart(r, idx, _, _) => Run(idx, 0, r.blocks)
    case OsInfo(r, idx, _, _) => Run(idx, 0, r.blocks)
    case LoadCheck(r, idx, bit) => Run(idx, bit, r.blocks)
    case LoadInfo(r, idx, bit) => Run(idx, bit, r.blocks)
    case LoadStart(r, idx, bit) => Run(idx, bit, r.blocks)
    case FreeStart(block) => RunOf(block)
    case FreeBits(block) => RunOf(block)
    case _ => NoRun
  }

  ghost predicate IsOwner(owner: Owners, x: Bit, c: Claimant) {
    x in owner && owner[x] == c
  }

  /** The claimant owns exactly the bits of the run. */
  ghost predicate OwnsRun(owner: Owners, c: Claimant, run: Run) {
    forall x :: IsOwner(owner, x, c) <==> InRun(x, run)
  }

  ghost predicate HandsOwn(threads: Threads, owner: Owners) {
    && (forall t | t in threads :: OwnsRun(owner, ByThread(t), HandRun(threads[t])))
    && (forall x | x in owner && owner[x].ByThread? :: owner[x].thread in threads)
  }

  ghost predicate BlocksOwn(live: Blocks, owner: Owners) {
    && (forall id | id in live :: OwnsRun(owner, ByBlock(id), RunOf(live[id])))
    && (forall x | x in owner && owner[x].ByBlock? :: owner[x].memid in live)
  }

  // ---------------------------------------------------------------------------------------------
  // Slots
  // ---------------------------------------------------------------------------------------------

  predicate IsHome(home: Homes, start: Address, h: Home) {
    start in home && home[start] == h
  }

  predicate Creating(pc: Pc) {
    pc.OsZero? || pc.OsBits? || pc.OsStart? || pc.OsInfo?
  }

  predicate StageOf(stage: Stages, i: nat, st: Stage) {
    i in stage && stage[i] == st
  }

  predicate Published(stage: Stages, i: nat) {
    i in stage && !stage[i].Building?
  }

  /** What a slot looks like in each stage. */
  predicate SlotOk(i: nat, slot: Slot, stage: Stages, home: Homes) {
    if i !in stage then slot == Slot(NoInfo, 0, {})
    else
      match stage[i]
      case Building(_) => slot.info.NoInfo?
      case Open => slot.info.Info? && slot.start > 0 && IsHome(home, slot.start, InSlot(i))
      case Taken(_) => slot.info.Info? && slot.start > 0 && IsHome(home, slot.start, InSlot(i)) && slot.inUse == Full()
      case Gone => slot.info.NoInfo? && slot.inUse == Full()
  }

  ghost predicate SlotsOk(slots: Slots, stage: Stages, home: Homes) {
    forall i | i in slots :: SlotOk(i, slots[i], stage, home)
  }

  /** The one bits of a slot that is not collected are the bits somebody owns. */
  ghost predicate BitsOk(slots: Slots, stage: Stages, owner: Owners) {
    && (forall i, b | i in slots && !Collected(stage, i) :: b in slots[i].inUse <==> Bit(i, b) in owner)
    && (forall x | x in owner :: x.idx in slots && !Collected(stage, x.idx))
  }

  predicate Collected(stage: Stages, i: nat) {
    i in stage && (stage[i].Taken? || stage[i].Gone?)
  }

  predicate InBounds(run: Run) {
    0 < run.blocks && run.bit + run.blocks <= BITS
  }

  /** A block that a caller has, or is freeing. */
  predicate BlockOk(block: Block, slots: Slots, stage: Stages) {
    && Decode(block.memid).InRegion?
    && InBounds(RunOf(block))
    && RunOf(block).idx in slots
    && StageOf(stage, RunOf(block).idx, Open)
    && slots[RunOf(block).idx].start + RunOf(block).bit == block.p
  }

  ghost predicate BlocksOk(live: Blocks, slots: Slots, stage: Stages) {
    forall id | id in live :: live[id].memid == id && BlockOk(live[id], slots, stage)
  }

  // ---------------------------------------------------------------------------------------------
  // Threads
  // ---------------------------------------------------------------------------------------------

  predicate RequestOk(r: Request) {
    0 < r.blocks <= MAX_BLOCKS
  }

  /** A published slot suits the request as long as it is open. */
  predicate Suits(slots: Slots, stage: Stages, i: nat, r: Request) {
    && i in slots && Published(stage, i)
    && (stage[i].Open? && slots[i].info.Info? ==> Suitable(slots[i].info, r))
  }

  /** The slot that thread `t` is initializing. */
  predicate Builds(slots: Slots, stage: Stages, home: Homes, t: ThreadId, i: nat, start: Address, shows: Address) {
    i in slots && StageOf(stage, i, Building(t)) && start > 0 && IsHome(home, start, InSlot(i)) && slots[i].start == shows
  }

  predicate PcOk(t: ThreadId, pc: Pc, slots: Slots, stage: Stages, home: Homes) {
    match pc
    case ClaimCount(r, _) => RequestOk(r)
    case ClaimInfo(r, count, _, idx) => RequestOk(r) && idx < count
    case ClaimMap(r, count, _, idx) => RequestOk(r) && idx < count && Suits(slots, stage, idx, r)
    case ClaimCas(r, count, _, idx, seen, bit) =>
      RequestOk(r) && idx < count && Suits(slots, stage, idx, r) && Free(seen, r.blocks, bit)
    case ClaimRemap(r, count, _, idx, _) => RequestOk(r) && idx < count && Suits(slots, stage, idx, r)
    case OsGuard(r) => RequestOk(r)
    case OsAlloc(r) => RequestOk(r)
    case OsCount(r, start, isLarge) => RequestOk(r) && start > 0 && IsHome(home, start, InHandOf(t)) && (isLarge ==> r.large)
    case OsUndo(start) => IsHome(home, start, InHandOf(t))
    case OsDrop(start) => IsHome(home, start, InHandOf(t))
    case OsZero(r, idx, start, isLarge) =>
      RequestOk(r) && (isLarge ==> r.large) && Builds(slots, stage, home, t, idx, start, 0) && slots[idx].inUse == {}
    case OsBits(r, idx, start, isLarge) =>
      RequestOk(r) && (isLarge ==> r.large) && Builds(slots, stage, home, t, idx, start, 0) && slots[idx].inUse == {}
    case OsStart(r, idx, start, isLarge) =>
      RequestOk(r) && (isLarge ==> r.large) && Builds(slots, stage, home, t, idx, start, 0)
    case OsInfo(r, idx, start, isLarge) =>
      RequestOk(r) && (isLarge ==> r.large) && Builds(slots, stage, home, t, idx, start, start)
    case LoadCheck(r, idx, bit) => InBounds(Run(idx, bit, r.blocks)) && StageOf(stage, idx, Open) && Suits(slots, stage, idx, r)
    case LoadInfo(r, idx, bit) => InBounds(Run(idx, bit, r.blocks)) && StageOf(stage, idx, Open) && Suits(slots, stage, idx, r)
    case LoadStart(r, idx, bit) => InBounds(Run(idx, bit, r.blocks)) && StageOf(stage, idx, Open) && Suits(slots, stage, idx, r)
    case FreeStart(block) => BlockOk(block, slots, stage)
    case FreeBits(block) => BlockOk(block, slots, stage)
    case CollectInfo(count, i) => i < count
    case CollectMap(count, i) => i < count && i in slots && Published(stage, i)
    case CollectCas(count, i) => i < count && i in slots && Published(stage, i)
    case CollectStart(_, i) => i in slots && StageOf(stage, i, Taken(t))
    case CollectClear(_, i, start) => i in slots && StageOf(stage, i, Taken(t)) && start == slots[i].start
    case CollectDrop(_, i, start) => i in slots && IsHome(home, start, InHandOf(t))
    case _ => true
  }

  ghost predicate Pcs(threads: Threads, slots: Slots, stage: Stages, home: Homes) {
    forall t | t in threads :: PcOk(t, threads[t], slots, stage, home)
  }

  // ---------------------------------------------------------------------------------------------
  // The counter and the memory areas
  // ---------------------------------------------------------------------------------------------

  function Undoing(threads: Threads): set<ThreadId> {
    set t | t in threads && threads[t].OsUndo?
  }

  /** The counter is the number of slots used plus the number of increments to be undone. */
  ghost predicate CountOk(slots: Slots, stage: Stages, used: nat, count: nat, threads: Threads) {
    && (forall i :: i in slots <==> 0 <= i < REGION_MAX)
    && (forall i :: i in stage <==> 0 <= i < used)
    && used <= REGION_MAX
    && count == used + |Undoing(threads)|
    && (Undoing(threads) != {} ==> used == REGION_MAX)
  }

  /** Memory areas held at the same time do not overlap. */
  ghost predicate Areas(held: set<Address>, home: Homes) {
    && (forall a :: a in held <==> a in home)
    && (forall a, b | a in held && b in held && a != b :: !Overlap(a, b))
  }

  ghost predicate Inv(s: State, g: History) {
    && CountOk(s.slots, g.stage, g.used, s.count, s.threads)
    && SlotsOk(s.slots, g.stage, g.home)
    && BitsOk(s.slots, g.stage, g.owner)
    && HandsOwn(s.threads, g.owner)
    && BlocksOwn(s.live, g.owner)
    && BlocksOk(s.live, s.slots, g.stage)
    && Pcs(s.threads, s.slots, g.stage, g.home)
    && Areas(s.held, g.home)
  }
}
