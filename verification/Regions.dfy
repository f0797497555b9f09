/**
 The region allocator as a state machine in which every atomic access is one step.

 The table of regions has a fixed number of slots.  Any number of threads claim runs of blocks in
 published regions, create fresh regions, free runs by their memory id, and collect whole regions
 that are not in use.  Addresses are in units of MI_SEGMENT_SIZE; address 0 stands for NULL.

 A step that breaks an internal assertion of the allocator has the outcome `Fault`.  A step that
 indexes the table beyond its end has the outcome `Overrun`.
 */
module Regions {
  import opened Options
  import opened BitScan

  type Address = nat
  type ThreadId = nat

  /** MI_REGION_MAX: 256 GiB in regions of 64 * 128 KiB. */
  const REGION_MAX: nat := 32768

  /** MI_REGION_MAX_OBJ_BLOCKS */
  const MAX_BLOCKS: nat := 16

  datatype Info = NoInfo | Info(large: bool, numa: int)

  datatype Slot = Slot(info: Info, start: Address, inUse: Word)

  /** What a caller wants; a negative NUMA node suits all regions. */
  datatype Request = Request(blocks: nat, large: bool, numa: int)

  /** What a caller got; `memid` encodes the slot and the first bit. */
  datatype Block = Block(memid: nat, p: Address, blocks: nat)

  datatype Pc =
    | Idle
    // mi_region_try_claim
    | ClaimCount(r: Request, first: nat)
    | ClaimInfo(r: Request, count: nat, visited: nat, idx: nat)
    | ClaimMap(r: Request, count: nat, visited: nat, idx: nat)
    | ClaimCas(r: Request, count: nat, visited: nat, idx: nat, seen: Word, bit: nat)
    | ClaimRemap(r: Request, count: nat, visited: nat, idx: nat, bit: nat)
    // mi_region_try_alloc_os
    | OsGuard(r: Request)
    | OsAlloc(r: Request)
    | OsCount(r: Request, start: Address, isLarge: bool)
    | OsUndo(start: Address)
    | OsDrop(start: Address)
    | OsZero(r: Request, idx: nat, start: Address, isLarge: bool)
    | OsBits(r: Request, idx: nat, start: Address, isLarge: bool)
    | OsStart(r: Request, idx: nat, start: Address, isLarge: bool)
    | OsInfo(r: Request, idx: nat, start: Address, isLarge: bool)
    // mi_region_try_alloc, after the claim
    | LoadCheck(r: Request, idx: nat, bit: nat)
    | LoadInfo(r: Request, idx: nat, bit: nat)
    | LoadStart(r: Request, idx: nat, bit: nat)
    // _mi_mem_free
    | FreeStart(block: Block)
    | FreeBits(block: Block)
    // _mi_mem_collect
    | CollectCount
    | CollectInfo(count: nat, i: nat)
    | CollectMap(count: nat, i: nat)
    | CollectCas(count: nat, i: nat)
    | CollectStart(count: nat, i: nat)
    | CollectClear(count: nat, i: nat, start: Address)
    | CollectDrop(count: nat, i: nat, start: Address)

  /** `held` are the starts of the memory areas obtained from the system and not given back. */
  datatype State = State(
    slots: map<nat, Slot>,
    count: nat,
    held: set<Address>,
    live: map<nat, Block>,
    threads: map<ThreadId, Pc>)

  datatype Outcome = Ok(state: State) | Fault | Overrun

  datatype Choice =
    | Go(ok: bool)                           // ok is false where a weak CAS fails spuriously
    | Alloc(r: Request, first: nat)          // `first` is the thread's last found position
    | Fresh(start: Address, isLarge: bool)   // the system gives memory
    | Refuse                                 // the system gives none
    | Release(memid: nat)
    | Collect

  // ---------------------------------------------------------------------------------------------
  // Memory ids
  // ---------------------------------------------------------------------------------------------

  datatype Decoded = InRegion(idx: nat, bit: nat) | InArena(memid: nat)

  /** `mi_memid_create` */
  function MemId(idx: nat, bit: nat): nat { (idx * BITS + bit) * 2 }

  /** `mi_memid_create_from_arena` */
  function ArenaMemId(memid: nat): nat { memid * 2 + 1 }

  /** `mi_memid_is_arena` */
  function Decode(id: nat): Decoded {
    if id % 2 == 1 then InArena(id / 2) else InRegion(id / 2 / BITS, id / 2 % BITS)
  }

  lemma MemIdRoundTrip(idx: nat, bit: nat)
    requires bit < BITS
    ensures Decode(MemId(idx, bit)) == InRegion(idx, bit)
  {
  }

  /** Encoding is the inverse of decoding: no two ids mean the same. */
  lemma MemIdUnique(id: nat)
    ensures match Decode(id)
      case InRegion(idx, bit) => bit < BITS && MemId(idx, bit) == id
      case InArena(memid) => ArenaMemId(memid) == id
  {
  }

  lemma ArenaIdRoundTrip(memid: nat)
    ensures Decode(ArenaMemId(memid)) == InArena(memid)
  {
  }

  // ---------------------------------------------------------------------------------------------
  // Steps
  // ---------------------------------------------------------------------------------------------

  function Put(s: State, t: ThreadId, pc: Pc): State {
    s.(threads := s.threads[t := pc])
  }

  function PutSlot(s: State, t: ThreadId, pc: Pc, idx: nat, slot: Slot): State {
    s.(threads := s.threads[t := pc], slots := s.slots[idx := slot])
  }

  /** `mi_region_is_suitable` */
  predicate Suitable(info: Info, r: Request) {
    info.Info? && (r.numa >= 0 && info.numa >= 0 ==> info.numa == r.numa) && (info.large ==> r.large)
  }

  /** Where the loop over the regions continues. */
  function ClaimNext(r: Request, count: nat, visited: nat, idx: nat): Pc {
    if visited < count then ClaimInfo(r, count, visited, if idx >= count then 0 else idx) else OsGuard(r)
  }

  /** Where the scan of a field continues after reading it. */
  function ClaimTry(r: Request, count: nat, visited: nat, idx: nat, seen: Word, from: nat): Pc {
    match FirstFit(seen, r.blocks, from)
    case None => ClaimNext(r, count, visited + 1, idx + 1)
    case Some(bit) => ClaimCas(r, count, visited, idx, seen, bit)
  }

  function CollectNext(count: nat, i: nat): Pc {
    if i < count then CollectInfo(count, i) else Idle
  }

  /** The memory of a region from `a` and from `b`. */
  predicate Overlap(a: Address, b: Address) {
    a < b + BITS && b < a + BITS
  }

  predicate Enabled(s: State, t: ThreadId, c: Choice) {
    t in s.threads &&
    var pc := s.threads[t];
    match c
    case Go(_) => !pc.Idle? && !pc.OsAlloc?
    case Alloc(r, _) => pc.Idle? && 0 < r.blocks <= MAX_BLOCKS
    case Fresh(start, isLarge) =>
      pc.OsAlloc? && start > 0 && (isLarge ==> pc.r.large) && forall a | a in s.held :: !Overlap(a, start)
    case Refuse => pc.OsAlloc?
    case Release(memid) => pc.Idle? && memid in s.live
    case Collect => pc.Idle?
  }

  function Do(s: State, t: ThreadId, c: Choice): Outcome
    requires Enabled(s, t, c)
  {
    match c
    case Go(ok) => Continue(s, t, ok)
    case Alloc(r, first) => Ok(Put(s, t, ClaimCount(r, first)))
    case Fresh(start, isLarge) =>
      Ok(Put(s, t, OsCount(s.threads[t].r, start, isLarge)).(held := s.held + {start}))
    case Refuse => Ok(Put(s, t, Idle))
    case Release(memid) => Ok(Put(s, t, FreeStart(s.live[memid])).(live := s.live - {memid}))
    case Collect => Ok(Put(s, t, CollectCount))
  }

  function Continue(s: State, t: ThreadId, ok: bool): Outcome
    requires t in s.threads
  {
    match s.threads[t]
    case ClaimCount(r, first) => Ok(Put(s, t, ClaimNext(r, s.count, 0, first)))
    case ClaimInfo(_, _, _, idx) => if idx !in s.slots then Overrun else ContinueClaim(s, t, ok)
    case ClaimMap(_, _, _, idx) => if idx !in s.slots then Overrun else ContinueClaim(s, t, ok)
    case ClaimCas(_, _, _, idx, _, _) => if idx !in s.slots then Overrun else ContinueClaim(s, t, ok)
    case ClaimRemap(_, _, _, idx, _) => if idx !in s.slots then Overrun else ContinueClaim(s, t, ok)
    case OsGuard(r) => Ok(Put(s, t, if s.count >= REGION_MAX - 1 then Idle else OsAlloc(r)))
    case OsCount(r, start, isLarge) =>
      Ok(Put(s, t, if s.count >= REGION_MAX then OsUndo(start) else OsZero(r, s.count, start, isLarge)).(count := s.count + 1))
    case OsUndo(start) => if s.count == 0 then Fault else Ok(Put(s, t, OsDrop(start)).(count := s.count - 1))
    case OsDrop(start) => if start !in s.held then Fault else Ok(Put(s, t, Idle).(held := s.held - {start}))
    case OsZero(_, idx, _, _) => if idx !in s.slots then Overrun else ContinueCreate(s, t)
    case OsBits(_, idx, _, _) => if idx !in s.slots then Overrun else ContinueCreate(s, t)
    case OsStart(_, idx, _, _) => if idx !in s.slots then Overrun else ContinueCreate(s, t)
    case OsInfo(_, idx, _, _) => if idx !in s.slots then Overrun else ContinueCreate(s, t)
    case LoadCheck(_, idx, _) => if idx !in s.slots then Overrun else ContinueLoad(s, t)
    case LoadInfo(_, idx, _) => if idx !in s.slots then Overrun else ContinueLoad(s, t)
    case LoadStart(_, idx, _) => if idx !in s.slots then Overrun else ContinueLoad(s, t)
    case FreeStart(_) => ContinueFree(s, t)
    case FreeBits(_) => ContinueFree(s, t)
    case CollectCount => Ok(Put(s, t, CollectNext(s.count, 0)))
    case CollectInfo(_, i) => if i !in s.slots then Overrun else ContinueCollect(s, t, ok)
    case CollectMap(_, i) => if i !in s.slots then Overrun else ContinueCollect(s, t, ok)
    case CollectCas(_, i) => if i !in s.slots then Overrun else ContinueCollect(s, t, ok)
    case CollectStart(_, i) => if i !in s.slots then Overrun else ContinueCollect(s, t, ok)
    case CollectClear(_, i, _) => if i !in s.slots then Overrun else ContinueCollect(s, t, ok)
    case CollectDrop(_, i, _) => if i !in s.slots then Overrun else ContinueCollect(s, t, ok)
    case _ => Ok(s)
  }

  /** One step of the claim loop. */
  function ContinueClaim(s: State, t: ThreadId, ok: bool): Outcome
    requires t in s.threads
    requires var pc := s.threads[t]; (pc.ClaimInfo? || pc.ClaimMap? || pc.ClaimCas? || pc.ClaimRemap?) && pc.idx in s.slots
  {
    var slot := s.slots[s.threads[t].idx];
    match s.threads[t]
    case ClaimInfo(r, count, visited, idx) =>
      Ok(Put(s, t, if Suitable(slot.info, r) then ClaimMap(r, count, visited, idx)
                   else ClaimNext(r, count, visited + 1, idx + 1)))
    case ClaimMap(r, count, visited, idx) =>
      Ok(Put(s, t, ClaimTry(r, count, visited, idx, slot.inUse, 0)))
    case ClaimCas(r, count, visited, idx, seen, bit) =>
      if ok && slot.inUse == seen then
        Ok(PutSlot(s, t, LoadCheck(r, idx, bit), idx, slot.(inUse := seen + Range(bit, bit + r.blocks))))
      else
        Ok(Put(s, t, ClaimRemap(r, count, visited, idx, bit)))
    case ClaimRemap(r, count, visited, idx, bit) =>
      Ok(Put(s, t, ClaimTry(r, count, visited, idx, slot.inUse, bit)))
  }

  /** One step of the initialization of a fresh region. */
  function ContinueCreate(s: State, t: ThreadId): Outcome
    requires t in s.threads
    requires var pc := s.threads[t]; (pc.OsZero? || pc.OsBits? || pc.OsStart? || pc.OsInfo?) && pc.idx in s.slots
  {
    var slot := s.slots[s.threads[t].idx];
    match s.threads[t]
    case OsZero(r, idx, start, isLarge) =>
      Ok(PutSlot(s, t, OsBits(r, idx, start, isLarge), idx, slot.(inUse := {})))
    case OsBits(r, idx, start, isLarge) =>
      Ok(PutSlot(s, t, OsStart(r, idx, start, isLarge), idx, slot.(inUse := slot.inUse + Range(0, r.blocks))))
    case OsStart(r, idx, start, isLarge) =>
      Ok(PutSlot(s, t, OsInfo(r, idx, start, isLarge), idx, slot.(start := start)))
    case OsInfo(r, idx, start, isLarge) =>
      Ok(PutSlot(s, t, LoadCheck(r, idx, 0), idx, slot.(info := Info(isLarge, if r.numa < 0 then 0 else r.numa))))
  }

  /** The claimed blocks are read back and handed to the caller. */
  function ContinueLoad(s: State, t: ThreadId): Outcome
    requires t in s.threads
    requires var pc := s.threads[t]; (pc.LoadCheck? || pc.LoadInfo? || pc.LoadStart?) && pc.idx in s.slots
  {
    var slot := s.slots[s.threads[t].idx];
    match s.threads[t]
    case LoadCheck(r, idx, bit) =>
      if !(Range(bit, bit + r.blocks) <= slot.inUse) then Fault else Ok(Put(s, t, LoadInfo(r, idx, bit)))
    case LoadInfo(r, idx, bit) =>
      if slot.info.NoInfo? || (slot.info.large && !r.large) then Fault else Ok(Put(s, t, LoadStart(r, idx, bit)))
    case LoadStart(r, idx, bit) =>
      var id := MemId(idx, bit);
      if slot.start == 0 || id in s.live then Fault
      else Ok(Put(s, t, Idle).(live := s.live[id := Block(id, slot.start + bit, r.blocks)]))
  }

  /** Freeing: the id is decoded, the address compared, and the bits are cleared. */
  function ContinueFree(s: State, t: ThreadId): Outcome
    requires t in s.threads && (s.threads[t].FreeStart? || s.threads[t].FreeBits?)
  {
    var block := s.threads[t].block;
    match Decode(block.memid)
    case InArena(_) => Ok(Put(s, t, Idle))
    case InRegion(idx, bit) =>
      if idx !in s.slots then Overrun
      else
        var slot := s.slots[idx];
        if s.threads[t].FreeStart? then
          if slot.start == 0 || slot.start + bit != block.p || bit + block.blocks > BITS then Fault
          else Ok(Put(s, t, FreeBits(block)))
        else
          var run := Range(bit, bit + block.blocks);
          if !(run <= slot.inUse) then Fault
          else Ok(PutSlot(s, t, Idle, idx, slot.(inUse := slot.inUse - run)))
  }

  /** Collecting: claim a whole unused region, clear its info, and give its memory back. */
  function ContinueCollect(s: State, t: ThreadId, ok: bool): Outcome
    requires t in s.threads
    requires var pc := s.threads[t];
      (pc.CollectInfo? || pc.CollectMap? || pc.CollectCas? || pc.CollectStart? || pc.CollectClear? || pc.CollectDrop?) &&
      pc.i in s.slots
  {
    var slot := s.slots[s.threads[t].i];
    match s.threads[t]
    case CollectInfo(count, i) =>
      Ok(Put(s, t, if slot.info.Info? then CollectMap(count, i) else CollectNext(count, i + 1)))
    case CollectMap(count, i) =>
      Ok(Put(s, t, if slot.inUse == {} then CollectCas(count, i) else CollectNext(count, i + 1)))
    case CollectCas(count, i) =>
      if ok && slot.inUse == {} then
        Ok(PutSlot(s, t, CollectStart(count, i), i, slot.(inUse := Full())))
      else
        Ok(Put(s, t, CollectMap(count, i)))
    case CollectStart(count, i) => Ok(Put(s, t, CollectClear(count, i, slot.start)))
    case CollectClear(count, i, start) =>
      Ok(PutSlot(s, t, if start == 0 then CollectNext(count, i + 1) else CollectDrop(count, i, start), i,
                 slot.(info := NoInfo)))
    case CollectDrop(count, i, start) =>
      if start !in s.held then Fault
      else Ok(Put(s, t, CollectNext(count, i + 1)).(held := s.held - {start}))
  }

  /** An empty table; any finite set of threads, all idle. */
  predicate Init(s: State) {
    && s.slots.Keys == Range(0, REGION_MAX)
    && (forall i | i in s.slots :: s.slots[i] == Slot(NoInfo, 0, {}))
    && s.count == 0 && s.held == {} && s.live == map[]
    && forall t | t in s.threads :: s.threads[t] == Idle
  }

  datatype Step = Step(thread: ThreadId, choice: Choice)

  /** A finite run: the i-th step is enabled in the i-th state and leads to the next one. */
  ghost predicate IsRun(states: seq<State>, steps: seq<Step>) {
    && |states| == |steps| + 1
    && Init(states[0])
    && forall i {:trigger steps[i]} | 0 <= i < |steps| ::
         Enabled(states[i], steps[i].thread, steps[i].choice) &&
         Do(states[i], steps[i].thread, steps[i].choice) == Ok(states[i + 1])
  }
}
