/**
 What the operations on the regions do when the other threads stand still: an allocation claims the lowest free
 run of the first region that serves it, or creates a region; a free and a collect clear what they should.
 */
module RegionAlone {
  import opened Options
  import opened BitScan
  import opened Regions
  import opened RegionInvariant
  import opened RegionTheorems
  import opened RegionResults

  /** Thread `t` makes these choices one after the other, with nothing in between. */
  function Perform(s: State, t: ThreadId, choices: seq<Choice>): Outcome
    decreases |choices|
  {
    if choices == [] then Ok(s)
    else if !Enabled(s, t, choices[0]) then Fault
    else
      match Do(s, t, choices[0])
      case Ok(s') => Perform(s', t, choices[1..])
      case other => other
  }

  predicate Leads(s: State, t: ThreadId, choices: seq<Choice>, s': State) {
    Perform(s, t, choices) == Ok(s')
  }

  lemma LeadsOne(s: State, t: ThreadId, c: Choice, s': State)
    requires Enabled(s, t, c) && Do(s, t, c) == Ok(s')
    ensures Leads(s, t, [c], s')
  {
    assert Perform(s', t, []) == Ok(s');
  }

  lemma {:induction false} LeadsThen(s: State, t: ThreadId, a: seq<Choice>, s': State, b: seq<Choice>, s'': State)
    requires Leads(s, t, a, s') && Leads(s', t, b, s'')
    ensures Leads(s, t, a + b, s'')
    decreases |a|
  {
    if a == [] {
      assert a + b == b;
    } else {
      assert (a + b)[1..] == a[1..] + b;
      LeadsThen(Do(s, t, a[0]).state, t, a[1..], s', b, s'');
    }
  }

  /** `n` steps that go on with the operation; every compare-and-swap that compares equal succeeds. */
  function Steps(n: nat): seq<Choice> {
    if n == 0 then [] else [Go(true)] + Steps(n - 1)
  }

  lemma Next(s: State, t: ThreadId, s': State, n: nat, s'': State)
    requires n > 0 && Enabled(s, t, Go(true)) && Do(s, t, Go(true)) == Ok(s') && Leads(s', t, Steps(n - 1), s'')
    ensures Leads(s, t, Steps(n), s'')
  {
    hide Enabled, Do;
    LeadsOne(s, t, Go(true), s');
    LeadsThen(s, t, [Go(true)], s', Steps(n - 1), s'');
  }

  lemma Stay(s: State, t: ThreadId)
    ensures Leads(s, t, Steps(0), s)
  {
  }

  /** A step that moves only the place of the thread. */
  lemma Move(s: State, t: ThreadId, pc: Pc, pc': Pc, n: nat, s': State)
    requires n > 0 && Enabled(Put(s, t, pc), t, Go(true))
    requires Do(Put(s, t, pc), t, Go(true)) == Ok(Put(Put(s, t, pc), t, pc')) && Leads(Put(s, t, pc'), t, Steps(n - 1), s')
    ensures Leads(Put(s, t, pc), t, Steps(n), s')
  {
    hide Enabled, Do, Leads;
    assert s.threads[t := pc][t := pc'] == s.threads[t := pc'];
    Next(Put(s, t, pc), t, Put(s, t, pc'), n, s');
  }

  /** A step that also changes slot `i`. */
  lemma MoveSlot(s: State, t: ThreadId, pc: Pc, pc': Pc, i: nat, slot: Slot, n: nat, s': State)
    requires n > 0 && Enabled(Put(s, t, pc), t, Go(true))
    requires Do(Put(s, t, pc), t, Go(true)) == Ok(PutSlot(Put(s, t, pc), t, pc', i, slot))
    requires Leads(PutSlot(s, t, pc', i, slot), t, Steps(n - 1), s')
    ensures Leads(Put(s, t, pc), t, Steps(n), s')
  {
    hide Enabled, Do, Leads;
    assert s.threads[t := pc][t := pc'] == s.threads[t := pc'];
    Next(Put(s, t, pc), t, PutSlot(s, t, pc', i, slot), n, s');
  }

  // ---------------------------------------------------------------------------------------------
  // The search
  // ---------------------------------------------------------------------------------------------

  /** The region is there for the request: initialized, of its NUMA node if both have one, large only if allowed. */
  predicate Meets(info: Info, r: Request) {
    info.Info? && (r.numa < 0 || info.numa < 0 || info.numa == r.numa) && (info.large ==> r.large)
  }

  lemma MeetsIff(info: Info, r: Request)
    ensures Suitable(info, r) <==> Meets(info, r)
  {
  }

  /** Region `i` meets the request and has a run of zero bits for it. */
  ghost predicate Serves(slots: Slots, i: nat, r: Request) {
    i in slots && Meets(slots[i].info, r) && exists b: nat :: Free(slots[i].inUse, r.blocks, b)
  }

  /** The region searched after `visited` others, from `first` on and round `count` of them. */
  function Turn(first: nat, visited: nat, count: nat): nat {
    if first + visited < count then first + visited else first + visited - count
  }

  /** Where the search stands: nothing before has served, and region `idx`, or its wrap-around, is next. */
  predicate StandsAt(first: nat, visited: nat, count: nat, idx: nat) {
    visited < count ==> first < count && (if idx >= count then 0 else idx) == Turn(first, visited, count)
  }

  /** A region that does not serve is passed. */
  lemma PassAlone(s: State, t: ThreadId, r: Request, count: nat, visited: nat, idx: nat, n: nat, s': State) returns (m: nat)
    requires idx in s.slots && !Serves(s.slots, idx, r)
    requires Leads(Put(s, t, ClaimNext(r, count, visited + 1, idx + 1)), t, Steps(n), s')
    ensures Leads(Put(s, t, ClaimInfo(r, count, visited, idx)), t, Steps(m), s')
  {
    hide Free, Leads, Steps, ClaimNext, FirstFit, Suitable;
    var slot := s.slots[idx];
    MeetsIff(slot.info, r);
    var here, map_ := ClaimInfo(r, count, visited, idx), ClaimMap(r, count, visited, idx);
    var next := ClaimNext(r, count, visited + 1, idx + 1);
    if Suitable(slot.info, r) {
      NoFit(slot.inUse, r.blocks);
      Move(s, t, map_, next, n + 1, s');
      Move(s, t, here, map_, n + 2, s');
      m := n + 2;
    } else {
      Move(s, t, here, next, n + 1, s');
      m := n + 1;
    }
  }

  lemma NoFit(word: Word, blocks: nat)
    ensures FirstFit(word, blocks, 0).None? <==> !exists b: nat :: Free(word, blocks, b)
  {
    hide Free, FirstFit;
  }

  /** The lowest free run of a region that serves is claimed. */
  lemma TakeAlone(s: State, t: ThreadId, r: Request, count: nat, visited: nat, idx: nat) returns (bit: nat)
    requires idx in s.slots && Serves(s.slots, idx, r)
    ensures Free(s.slots[idx].inUse, r.blocks, bit) && forall c: nat | c < bit :: !Free(s.slots[idx].inUse, r.blocks, c)
    ensures Leads(Put(s, t, ClaimInfo(r, count, visited, idx)), t, Steps(3), Claimed(s, t, r, idx, bit))
  {
    hide Free, Leads, Steps, Range, ClaimNext, FirstFit, Suitable;
    var slot := s.slots[idx];
    MeetsIff(slot.info, r);
    NoFit(slot.inUse, r.blocks);
    bit := FirstFit(slot.inUse, r.blocks, 0).value;
    var here, map_ := ClaimInfo(r, count, visited, idx), ClaimMap(r, count, visited, idx);
    var cas := ClaimCas(r, count, visited, idx, slot.inUse, bit);
    Stay(Claimed(s, t, r, idx, bit), t);
    MoveSlot(s, t, cas, LoadCheck(r, idx, bit), idx, slot.(inUse := slot.inUse + Range(bit, bit + r.blocks)), 1,
             Claimed(s, t, r, idx, bit));
    Move(s, t, map_, cas, 2, Claimed(s, t, r, idx, bit));
    Move(s, t, here, map_, 3, Claimed(s, t, r, idx, bit));
  }

  /** The run from `bit` on is claimed, and about to be read back. */
  function Claimed(s: State, t: ThreadId, r: Request, idx: nat, bit: nat): State
    requires idx in s.slots
  {
    PutSlot(s, t, LoadCheck(r, idx, bit), idx, s.slots[idx].(inUse := s.slots[idx].inUse + Range(bit, bit + r.blocks)))
  }

  /** The loop over the regions; `v` is the number of regions that did not serve. */
  lemma {:induction false} LoopAlone(s: State, t: ThreadId, r: Request, first: nat, count: nat, visited: nat, idx: nat)
    returns (n: nat, v: nat, s': State)
    requires r.blocks > 0 && (forall i: nat | i < count :: i in s.slots)
    requires StandsAt(first, visited, count, idx) && visited <= count
    ensures visited <= v <= count && Leads(Put(s, t, ClaimNext(r, count, visited, idx)), t, Steps(n), s')
    ensures forall w: nat | visited <= w < v :: !Serves(s.slots, Turn(first, w, count), r)
    ensures v == count ==> s' == Put(s, t, OsGuard(r))
    ensures v < count ==> var i := Turn(first, v, count);
      && Serves(s.slots, i, r)
      && exists bit: nat ::
           && Free(s.slots[i].inUse, r.blocks, bit) && (forall c: nat | c < bit :: !Free(s.slots[i].inUse, r.blocks, c))
           && s' == Claimed(s, t, r, i, bit)
    decreases count - visited
  {
    hide Free, Leads, Steps, Serves, Claimed;
    if visited == count {
      Stay(s, t);
      n, v, s' := 0, count, Put(s, t, OsGuard(r));
      Stay(s', t);
    } else {
      var i := Turn(first, visited, count);
      if Serves(s.slots, i, r) {
        var bit := TakeAlone(s, t, r, count, visited, i);
        n, v, s' := 3, visited, Claimed(s, t, r, i, bit);
      } else {
        n, v, s' := LoopAlone(s, t, r, first, count, visited + 1, i + 1);
        n := PassAlone(s, t, r, count, visited, i, n, s');
      }
    }
  }

  /**
   A search that nobody disturbs claims the lowest free run of the first region, from the one last found on and
   round the table, that meets the request and has one; it goes on to create a region exactly if there is none.
   */
  lemma SearchAlone(states: seq<State>, steps: seq<Step>, t: ThreadId, r: Request, first: nat)
    returns (n: nat, v: nat, s': State)
    requires IsRun(states, steps) && t in Last(states).threads && Last(states).threads[t].Idle?
    requires 0 < r.blocks <= MAX_BLOCKS && Last(states).count <= REGION_MAX
    ensures Leads(Last(states), t, [Alloc(r, first)] + Steps(n), s') && v <= Last(states).count
    ensures v == Last(states).count <==> forall i: nat | i < Last(states).count :: !Serves(Last(states).slots, i, r)
    ensures var s := Last(states); var from := if first < s.count then first else 0;
      && (forall w: nat | w < v :: !Serves(s.slots, Turn(from, w, s.count), r))
      && (v == s.count ==> s' == Put(s, t, OsGuard(r)))
      && (v < s.count ==> var i := Turn(from, v, s.count);
            && Serves(s.slots, i, r)
            && exists bit: nat ::
                 && Free(s.slots[i].inUse, r.blocks, bit) && (forall c: nat | c < bit :: !Free(s.slots[i].inUse, r.blocks, c))
                 && s' == Claimed(s, t, r, i, bit))
  {
    hide Init, Enabled, Do, Inv, Leads, Steps, Serves, Claimed, Free;
    var s := Last(states);
    var g := RunInvariant(states, steps);
    InTable(s, g);
    var from := if first < s.count then first else 0;
    n, v, s' := LoopAlone(s, t, r, from, s.count, 0, first);
    StartSearch(s, t, r, first, n, s');
    n := n + 1;
    NoneServes(s.slots, r, from, s.count, v);
  }

  lemma NoneServes(slots: Slots, r: Request, first: nat, count: nat, v: nat)
    requires v <= count && (count > 0 ==> first < count) && forall w: nat | w < v :: !Serves(slots, Turn(first, w, count), r)
    requires v < count ==> Serves(slots, Turn(first, v, count), r)
    ensures v == count <==> forall i: nat | i < count :: !Serves(slots, i, r)
  {
    hide Serves;
    if v == count {
      forall i: nat | i < count ensures !Serves(slots, i, r) {
        AllTurns(first, count, i);
      }
    }
  }

  lemma StartSearch(s: State, t: ThreadId, r: Request, first: nat, n: nat, s': State)
    requires t in s.threads && s.threads[t].Idle? && 0 < r.blocks <= MAX_BLOCKS
    requires Leads(Put(s, t, ClaimNext(r, s.count, 0, first)), t, Steps(n), s')
    ensures Leads(s, t, [Alloc(r, first)] + Steps(n + 1), s')
  {
    hide Leads, Steps, ClaimNext;
    LeadsOne(s, t, Alloc(r, first), Put(s, t, ClaimCount(r, first)));
    Move(s, t, ClaimCount(r, first), ClaimNext(r, s.count, 0, first), n + 1, s');
    LeadsThen(s, t, [Alloc(r, first)], Put(s, t, ClaimCount(r, first)), Steps(n + 1), s');
  }

  lemma InTable(s: State, g: History)
    requires Inv(s, g)
    ensures forall i: nat :: i in s.slots <==> i < REGION_MAX
  {
  }

  /** Every region of the table has its turn. */
  lemma AllTurns(first: nat, count: nat, i: nat)
    requires first < count && i < count
    ensures exists v: nat :: v < count && Turn(first, v, count) == i
  {
    var v: nat := if i >= first then i - first else i + count - first;
    assert Turn(first, v, count) == i;
  }

  // ---------------------------------------------------------------------------------------------
  // A run that goes on
  // ---------------------------------------------------------------------------------------------

  lemma GoOn(states: seq<State>, steps: seq<Step>, t: ThreadId, c: Choice, s': State)
    requires IsRun(states, steps) && Enabled(Last(states), t, c) && Do(Last(states), t, c) == Ok(s')
    ensures IsRun(states + [s'], steps + [Step(t, c)]) && Last(states + [s']) == s'
  {
    hide Enabled, Do, Init;
  }

  /** Steps in a row make a longer run. */
  lemma {:induction false} Extend(states: seq<State>, steps: seq<Step>, t: ThreadId, choices: seq<Choice>, s': State)
    returns (states': seq<State>, steps': seq<Step>)
    requires IsRun(states, steps) && Leads(Last(states), t, choices, s')
    ensures IsRun(states', steps') && Last(states') == s'
    decreases |choices|
  {
    hide Enabled, Do, Init;
    if choices == [] {
      states', steps' := states, steps;
    } else {
      var s1 := Do(Last(states), t, choices[0]).state;
      GoOn(states, steps, t, choices[0], s1);
      states', steps' := Extend(states + [s1], steps + [Step(t, choices[0])], t, choices[1..], s');
    }
  }

  // ---------------------------------------------------------------------------------------------
  // Handing the blocks out
  // ---------------------------------------------------------------------------------------------

  /** The run is handed to the caller. */
  function Handed(s: State, t: ThreadId, r: Request, idx: nat, bit: nat): State
    requires idx in s.slots
  {
    var id := MemId(idx, bit);
    Put(s, t, Idle).(live := s.live[id := Block(id, s.slots[idx].start + bit, r.blocks)])
  }

  /** A run that was claimed is read back, and handed out at its address. */
  lemma LoadAlone(states: seq<State>, steps: seq<Step>, t: ThreadId, r: Request, idx: nat, bit: nat)
    requires IsRun(states, steps) && t in Last(states).threads && Last(states).threads[t] == LoadCheck(r, idx, bit)
    ensures idx in Last(states).slots && Leads(Last(states), t, Steps(3), Handed(Last(states), t, r, idx, bit))
  {
    hide Init, Leads, Steps, MemId, Range, Enabled, Do;
    var s := Last(states);
    ClaimSuits(states, steps, t);
    NoFault(states, steps, Step(t, Go(true))) by { CanGo(s, t); }
    var s1, s2 := Put(s, t, LoadInfo(r, idx, bit)), Put(s, t, LoadStart(r, idx, bit));
    LoadSteps(s, t, r, idx, bit);
    GoOn(states, steps, t, Go(true), s1);
    LoadSteps(s1, t, r, idx, bit);
    NoFault(states + [s1], steps + [Step(t, Go(true))], Step(t, Go(true)));
    assert s1.threads[t := LoadStart(r, idx, bit)] == s2.threads;
    GoOn(states + [s1], steps + [Step(t, Go(true))], t, Go(true), s2);
    LoadSteps(s2, t, r, idx, bit);
    NoFault(states + [s1] + [s2], steps + [Step(t, Go(true))] + [Step(t, Go(true))], Step(t, Go(true)));
    assert s2.threads[t := Idle] == s.threads[t := Idle];
    var done := Handed(s, t, r, idx, bit);
    Stay(done, t);
    Next(s2, t, done, 1, done);
    Next(s1, t, s2, 2, done);
    Next(s, t, s1, 3, done);
  }

  lemma CanGo(s: State, t: ThreadId)
    requires t in s.threads && (s.threads[t].LoadCheck? || s.threads[t].LoadInfo? || s.threads[t].LoadStart?)
    ensures Enabled(s, t, Go(true))
  {
  }

  lemma LoadSteps(s: State, t: ThreadId, r: Request, idx: nat, bit: nat)
    requires t in s.threads && idx in s.slots
    ensures s.threads[t] == LoadCheck(r, idx, bit) ==>
      Enabled(s, t, Go(true)) && (!Do(s, t, Go(true)).Fault? ==> Do(s, t, Go(true)) == Ok(Put(s, t, LoadInfo(r, idx, bit))))
    ensures s.threads[t] == LoadInfo(r, idx, bit) ==>
      Enabled(s, t, Go(true)) && (!Do(s, t, Go(true)).Fault? ==> Do(s, t, Go(true)) == Ok(Put(s, t, LoadStart(r, idx, bit))))
    ensures s.threads[t] == LoadStart(r, idx, bit) ==>
      Enabled(s, t, Go(true)) && (!Do(s, t, Go(true)).Fault? ==> Do(s, t, Go(true)) == Ok(Handed(s, t, r, idx, bit)))
  {
    hide Range, MemId;
  }

  /**
   An allocation that nobody disturbs, when some region serves it: the caller holds the lowest free run of the
   first such region, at its address in the memory of the region; all else is as it was.
   */
  lemma AllocAlone(states: seq<State>, steps: seq<Step>, t: ThreadId, r: Request, first: nat, i: nat)
    returns (n: nat, v: nat, idx: nat, bit: nat)
    requires IsRun(states, steps) && t in Last(states).threads && Last(states).threads[t].Idle?
    requires 0 < r.blocks <= MAX_BLOCKS && Last(states).count <= REGION_MAX
    requires i < Last(states).count && Serves(Last(states).slots, i, r)
    ensures var s := Last(states); var from := if first < s.count then first else 0;
      && v < s.count && idx == Turn(from, v, s.count) && idx in s.slots && Serves(s.slots, idx, r)
      && forall w: nat | w < v :: !Serves(s.slots, Turn(from, w, s.count), r)
    ensures
      var s := Last(states);
      var slot := s.slots[idx];
      var id := MemId(idx, bit);
      && Free(slot.inUse, r.blocks, bit) && (forall c: nat | c < bit :: !Free(slot.inUse, r.blocks, c))
      && Leads(s, t, [Alloc(r, first)] + Steps(n),
           s.(slots := s.slots[idx := slot.(inUse := slot.inUse + Range(bit, bit + r.blocks))],
              live := s.live[id := Block(id, slot.start + bit, r.blocks)]))
  {
    hide Init, Enabled, Do, Leads, Steps, Serves, Free, Range, MemId, Claimed, Turn;
    var s := Last(states);
    var s1;
    n, v, s1 := SearchAlone(states, steps, t, r, first);
    idx := Turn(if first < s.count then first else 0, v, s.count);
    ServesIn(s.slots, idx, r);
    bit :| Free(s.slots[idx].inUse, r.blocks, bit) && (forall c: nat | c < bit :: !Free(s.slots[idx].inUse, r.blocks, c))
      && s1 == Claimed(s, t, r, idx, bit);
    HandAlone(states, steps, t, r, first, n, idx, bit);
    n := n + 3;
  }

  /** The claimed run is handed out. */
  lemma HandAlone(states: seq<State>, steps: seq<Step>, t: ThreadId, r: Request, first: nat, n: nat, idx: nat, bit: nat)
    requires IsRun(states, steps) && t in Last(states).threads && Last(states).threads[t].Idle? && idx in Last(states).slots
    requires Leads(Last(states), t, [Alloc(r, first)] + Steps(n), Claimed(Last(states), t, r, idx, bit))
    ensures
      var s := Last(states);
      var slot := s.slots[idx];
      var id := MemId(idx, bit);
      Leads(s, t, [Alloc(r, first)] + Steps(n + 3),
        s.(slots := s.slots[idx := slot.(inUse := slot.inUse + Range(bit, bit + r.blocks))],
           live := s.live[id := Block(id, slot.start + bit, r.blocks)]))
  {
    hide Init, Enabled, Do, Leads, Steps, Range, MemId;
    var s := Last(states);
    var s1 := Claimed(s, t, r, idx, bit);
    var states1, steps1 := Extend(states, steps, t, [Alloc(r, first)] + Steps(n), s1);
    LoadAlone(states1, steps1, t, r, idx, bit);
    var done := Handed(s1, t, r, idx, bit);
    LeadsThen(s, t, [Alloc(r, first)] + Steps(n), s1, Steps(3), done);
    AddSteps(n, 3);
    assert [Alloc(r, first)] + Steps(n) + Steps(3) == [Alloc(r, first)] + Steps(n + 3);
    assert done.threads == s.threads;
  }

  lemma ServesIn(slots: Slots, i: nat, r: Request)
    ensures Serves(slots, i, r) ==> i in slots
  {
  }

  lemma {:induction false} AddSteps(m: nat, n: nat)
    ensures Steps(m) + Steps(n) == Steps(m + n)
  {
    if m > 0 {
      AddSteps(m - 1, n);
      assert Steps(m) + Steps(n) == [Go(true)] + (Steps(m - 1) + Steps(n));
    } else {
      assert Steps(0) + Steps(n) == Steps(n);
    }
  }

  // ---------------------------------------------------------------------------------------------
  // Creating a region
  // ---------------------------------------------------------------------------------------------

  /** A fresh region in the next slot, with its first blocks claimed. */
  function Created(s: State, r: Request, start: Address, isLarge: bool): State {
    s.(slots := s.slots[s.count := Slot(Info(isLarge, if r.numa < 0 then 0 else r.numa), start, Range(0, r.blocks))],
       count := s.count + 1, held := s.held + {start})
  }

  /** The bitmap of the slot is cleared, and the first blocks are claimed. */
  lemma ClearAlone(s: State, t: ThreadId, r: Request, idx: nat, start: Address, isLarge: bool, n: nat, s': State)
    requires t in s.threads && idx in s.slots
    requires
      var slot := s.slots[idx].(inUse := Range(0, r.blocks));
      Leads(PutSlot(s, t, OsStart(r, idx, start, isLarge), idx, slot), t, Steps(n), s')
    ensures Leads(Put(s, t, OsZero(r, idx, start, isLarge)), t, Steps(n + 2), s')
  {
    hide Leads, Steps, Range;
    var slot := s.slots[idx];
    var a, b := slot.(inUse := {}), slot.(inUse := Range(0, r.blocks));
    var sa := s.(slots := s.slots[idx := a]);
    assert {} + Range(0, r.blocks) == Range(0, r.blocks);
    assert sa.slots[idx := b] == s.slots[idx := b];
    MoveSlot(sa, t, OsBits(r, idx, start, isLarge), OsStart(r, idx, start, isLarge), idx, b, n + 1, s');
    MoveSlot(s, t, OsZero(r, idx, start, isLarge), OsBits(r, idx, start, isLarge), idx, a, n + 2, s');
  }

  /** The start and then the info of the slot are stored. */
  lemma ShareAlone(s: State, t: ThreadId, r: Request, idx: nat, start: Address, isLarge: bool)
    requires t in s.threads && idx in s.slots
    ensures
      var slot := s.slots[idx].(start := start, info := Info(isLarge, if r.numa < 0 then 0 else r.numa));
      Leads(Put(s, t, OsStart(r, idx, start, isLarge)), t, Steps(2), PutSlot(s, t, LoadCheck(r, idx, 0), idx, slot))
  {
    hide Leads, Steps, Range;
    var c := s.slots[idx].(start := start);
    var d := c.(info := Info(isLarge, if r.numa < 0 then 0 else r.numa));
    var sc := s.(slots := s.slots[idx := c]);
    var done := PutSlot(s, t, LoadCheck(r, idx, 0), idx, d);
    Stay(done, t);
    assert sc.slots[idx := d] == s.slots[idx := d];
    MoveSlot(sc, t, OsInfo(r, idx, start, isLarge), LoadCheck(r, idx, 0), idx, d, 1, done);
    MoveSlot(s, t, OsStart(r, idx, start, isLarge), OsInfo(r, idx, start, isLarge), idx, c, 2, done);
  }

  /** The slot is filled in, field by field. */
  lemma FillAlone(s: State, t: ThreadId, r: Request, idx: nat, start: Address, isLarge: bool)
    requires t in s.threads && idx in s.slots
    ensures
      var slot := Slot(Info(isLarge, if r.numa < 0 then 0 else r.numa), start, Range(0, r.blocks));
      Leads(Put(s, t, OsZero(r, idx, start, isLarge)), t, Steps(4), PutSlot(s, t, LoadCheck(r, idx, 0), idx, slot))
  {
    hide Leads, Steps, Range;
    var sb := s.(slots := s.slots[idx := s.slots[idx].(inUse := Range(0, r.blocks))]);
    var slot := Slot(Info(isLarge, if r.numa < 0 then 0 else r.numa), start, Range(0, r.blocks));
    ShareAlone(sb, t, r, idx, start, isLarge);
    assert sb.slots[idx := slot] == s.slots[idx := slot];
    ClearAlone(s, t, r, idx, start, isLarge, 2, PutSlot(s, t, LoadCheck(r, idx, 0), idx, slot));
  }

  /** The guard is passed, memory is obtained, and the next slot is taken. */
  lemma ObtainAlone(s: State, t: ThreadId, r: Request, start: Address, isLarge: bool)
    requires t in s.threads && s.count < REGION_MAX - 1 && start > 0 && (isLarge ==> r.large)
    requires forall a | a in s.held :: !Overlap(a, start)
    ensures Leads(Put(s, t, OsGuard(r)), t, [Go(true)] + [Fresh(start, isLarge)] + [Go(true)],
      Put(s.(count := s.count + 1, held := s.held + {start}), t, OsZero(r, s.count, start, isLarge)))
  {
    hide Leads, Overlap;
    var s0, s1 := Put(s, t, OsGuard(r)), Put(s, t, OsAlloc(r));
    var m := s.(held := s.held + {start});
    var s2 := Put(m, t, OsCount(r, start, isLarge));
    var s3 := Put(m.(count := s.count + 1), t, OsZero(r, s.count, start, isLarge));
    assert s0.threads[t := OsAlloc(r)] == s1.threads;
    assert s1.threads[t := OsCount(r, start, isLarge)] == s2.threads;
    assert s2.threads[t := OsZero(r, s.count, start, isLarge)] == s3.threads;
    LeadsOne(s0, t, Go(true), s1);
    LeadsOne(s1, t, Fresh(start, isLarge), s2);
    LeadsOne(s2, t, Go(true), s3);
    LeadsThen(s0, t, [Go(true)], s1, [Fresh(start, isLarge)], s2);
    LeadsThen(s0, t, [Go(true)] + [Fresh(start, isLarge)], s2, [Go(true)], s3);
  }

  /**
   A creation that nobody disturbs: the next slot holds a region of the request's NUMA node in the memory that
   the system gave, with exactly the blocks of the request in use, and the caller holds them.
   */
  lemma CreateAlone(states: seq<State>, steps: seq<Step>, t: ThreadId, r: Request, start: Address, isLarge: bool)
    requires IsRun(states, steps) && t in Last(states).threads && Last(states).threads[t] == OsGuard(r)
    requires Last(states).count < REGION_MAX - 1 && start > 0 && (isLarge ==> r.large)
    requires forall a | a in Last(states).held :: !Overlap(a, start)
    ensures
      var s := Last(states);
      var id := MemId(s.count, 0);
      Leads(s, t, [Go(true)] + [Fresh(start, isLarge)] + [Go(true)] + Steps(4) + Steps(3),
        Created(s, r, start, isLarge).(
          live := s.live[id := Block(id, start, r.blocks)], threads := s.threads[t := Idle]))
  {
    hide Init, Enabled, Do, Inv, Leads, Steps, Range, MemId, Overlap;
    var s := Last(states);
    var g := RunInvariant(states, steps);
    InTable(s, g);
    assert s.threads[t := OsGuard(r)] == s.threads;
    ObtainAlone(s, t, r, start, isLarge);
    var m := s.(count := s.count + 1, held := s.held + {start});
    FillAlone(m, t, r, s.count, start, isLarge);
    var c := Created(s, r, start, isLarge);
    var s1 := Put(c, t, LoadCheck(r, s.count, 0));
    var begin := [Go(true)] + [Fresh(start, isLarge)] + [Go(true)];
    LeadsThen(s, t, begin, Put(m, t, OsZero(r, s.count, start, isLarge)), Steps(4), s1);
    var states1, steps1 := Extend(states, steps, t, begin + Steps(4), s1);
    LoadAlone(states1, steps1, t, r, s.count, 0);
    assert s1.threads[t := Idle] == s.threads[t := Idle];
    LeadsThen(s, t, begin + Steps(4), s1, Steps(3), Handed(s1, t, r, s.count, 0));
  }

  /** A creation that finds the table full undoes its increment, and gives the memory back. */
  lemma UndoAlone(s: State, t: ThreadId, r: Request, start: Address, isLarge: bool)
    requires t in s.threads && s.threads[t] == OsCount(r, start, isLarge) && s.count >= REGION_MAX && start in s.held
    ensures Leads(s, t, Steps(3), s.(held := s.held - {start}, threads := s.threads[t := Idle]))
  {
    hide Leads, Steps, ContinueClaim, ContinueCreate, ContinueLoad, ContinueFree, ContinueCollect, ClaimNext;
    var s1, s2 := Put(s.(count := s.count + 1), t, OsUndo(start)), Put(s, t, OsDrop(start));
    var done := Put(s.(held := s.held - {start}), t, Idle);
    Stay(done, t);
    assert s2.threads[t := Idle] == done.threads && s1.threads[t := OsDrop(start)] == s2.threads;
    Next(s2, t, done, 1, done);
    Next(s1, t, s2, 2, done);
    Next(s, t, s1, 3, done);
  }

  // ---------------------------------------------------------------------------------------------
  // Freeing
  // ---------------------------------------------------------------------------------------------

  /** A free that nobody disturbs clears exactly the bits of the block. */
  lemma FreeAlone(states: seq<State>, steps: seq<Step>, t: ThreadId, id: nat)
    requires IsRun(states, steps) && t in Last(states).threads && Last(states).threads[t].Idle? && id in Last(states).live
    ensures
      var s := Last(states);
      var run := RunOf(s.live[id]);
      && run.idx in s.slots
      && Leads(s, t, [Release(id)] + Steps(2),
           s.(live := s.live - {id},
              slots := s.slots[run.idx :=
                s.slots[run.idx].(inUse := s.slots[run.idx].inUse - Range(run.bit, run.bit + run.blocks))]))
  {
    hide Init, Leads, Steps, MemId, Range, Enabled, Do, RunOf;
    var s := Last(states);
    var block := s.live[id];
    var run := RunOf(block);
    var s0 := s.(live := s.live - {id});
    LiveDisjoint(states, steps, id, id);
    LiveRun(s, id);
    var s1, s2 := Put(s0, t, FreeStart(block)), Put(s0, t, FreeBits(block));
    StartFree(s, t, id);
    GoOn(states, steps, t, Release(id), s1);
    FreeSteps(s1, t, block);
    NoFault(states + [s1], steps + [Step(t, Release(id))], Step(t, Go(true)));
    assert s1.threads[t := FreeBits(block)] == s2.threads;
    GoOn(states + [s1], steps + [Step(t, Release(id))], t, Go(true), s2);
    FreeSteps(s2, t, block);
    NoFault(states + [s1] + [s2], steps + [Step(t, Release(id))] + [Step(t, Go(true))], Step(t, Go(true)));
    var done := s0.(slots := s.slots[run.idx :=
      s.slots[run.idx].(inUse := s.slots[run.idx].inUse - Range(run.bit, run.bit + run.blocks))]);
    assert s2.threads[t := Idle] == s.threads;
    Stay(done, t);
    Next(s2, t, done, 1, done);
    Next(s1, t, s2, 2, done);
    LeadsOne(s, t, Release(id), s1);
    LeadsThen(s, t, [Release(id)], s1, Steps(2), done);
  }

  lemma StartFree(s: State, t: ThreadId, id: nat)
    requires t in s.threads && s.threads[t].Idle? && id in s.live
    ensures Enabled(s, t, Release(id)) && Do(s, t, Release(id)) == Ok(Put(s.(live := s.live - {id}), t, FreeStart(s.live[id])))
  {
  }

  lemma LiveRun(s: State, id: nat)
    requires id in s.live && Located(s, s.live[id])
    ensures Decode(s.live[id].memid).InRegion? && RunOf(s.live[id]).idx in s.slots
  {
  }

  lemma FreeSteps(s: State, t: ThreadId, block: Block)
    requires t in s.threads && Decode(block.memid).InRegion? && RunOf(block).idx in s.slots
    ensures s.threads[t] == FreeStart(block) ==>
      Enabled(s, t, Go(true)) && (!Do(s, t, Go(true)).Fault? ==> Do(s, t, Go(true)) == Ok(Put(s, t, FreeBits(block))))
    ensures s.threads[t] == FreeBits(block) ==>
      var run := RunOf(block);
      Enabled(s, t, Go(true)) &&
      (!Do(s, t, Go(true)).Fault? ==> Do(s, t, Go(true)) == Ok(PutSlot(s, t, Idle, run.idx,
        s.slots[run.idx].(inUse := s.slots[run.idx].inUse - Range(run.bit, run.bit + run.blocks)))))
  {
    hide Range, Decode;
  }

  // ---------------------------------------------------------------------------------------------
  // Collecting
  // ---------------------------------------------------------------------------------------------

  /** An initialized region without a block in use. */
  predicate Unused(slot: Slot) {
    slot.info.Info? && slot.inUse == {}
  }

  /** The slots from `lo` on and below `hi` whose regions are unused are claimed for good. */
  function Retired(slots: Slots, lo: nat, hi: nat): Slots {
    map i | i in slots :: if lo <= i < hi && Unused(slots[i]) then Slot(NoInfo, slots[i].start, Full()) else slots[i]
  }

  /** The memory of these regions. */
  function Areas(slots: Slots, lo: nat, hi: nat): set<Address> {
    set i | i in slots && lo <= i < hi && Unused(slots[i]) :: slots[i].start
  }

  /** The regions have memory, each its own. */
  ghost predicate Based(slots: Slots, held: set<Address>) {
    && (forall i | i in slots && slots[i].info.Info? :: slots[i].start > 0 && slots[i].start in held)
    && (forall i, j | i in slots && j in slots && slots[i].info.Info? && slots[j].info.Info? && i != j ::
          slots[i].start != slots[j].start)
  }

  lemma IsBased(s: State, g: History)
    requires Inv(s, g)
    ensures Based(s.slots, s.held)
  {
    hide CountOk, BitsOk, HandsOwn, BlocksOwn, BlocksOk, Pcs;
    forall i | i in s.slots && s.slots[i].info.Info?
      ensures s.slots[i].start > 0 && IsHome(g.home, s.slots[i].start, InSlot(i))
    {
      assert SlotOk(i, s.slots[i], g.stage, g.home);
    }
  }

  /** A region that is not unused is passed. */
  lemma KeepAlone(s: State, t: ThreadId, count: nat, i: nat, n: nat, s': State) returns (m: nat)
    requires i in s.slots && !Unused(s.slots[i]) && Leads(Put(s, t, CollectNext(count, i + 1)), t, Steps(n), s')
    ensures Leads(Put(s, t, CollectInfo(count, i)), t, Steps(m), s')
  {
    hide Leads, Steps, CollectNext;
    if s.slots[i].info.Info? {
      Move(s, t, CollectMap(count, i), CollectNext(count, i + 1), n + 1, s');
      Move(s, t, CollectInfo(count, i), CollectMap(count, i), n + 2, s');
      m := n + 2;
    } else {
      Move(s, t, CollectInfo(count, i), CollectNext(count, i + 1), n + 1, s');
      m := n + 1;
    }
  }

  /** An unused region is claimed, its info cleared, and its memory given back. */
  lemma RetireAlone(s: State, t: ThreadId, count: nat, i: nat, n: nat, s': State)
    requires i in s.slots && Unused(s.slots[i]) && s.slots[i].start > 0 && s.slots[i].start in s.held
    requires
      var start := s.slots[i].start;
      Leads(Put(s.(slots := s.slots[i := Slot(NoInfo, start, Full())], held := s.held - {start}), t, CollectNext(count, i + 1)),
            t, Steps(n), s')
    ensures Leads(Put(s, t, CollectInfo(count, i)), t, Steps(n + 6), s')
  {
    hide Leads, Steps, CollectNext, Full, ContinueClaim, ContinueCreate, ContinueLoad, ContinueFree, ClaimNext;
    var slot := s.slots[i];
    var full := slot.(inUse := Full());
    var s1 := s.(slots := s.slots[i := full]);
    assert s1.slots[i := Slot(NoInfo, slot.start, Full())] == s.slots[i := Slot(NoInfo, slot.start, Full())];
    DropAlone(s1, t, count, i, n, s');
    FindUnused(s, t, count, i, n + 4, s') by {
      MoveSlot(s, t, CollectCas(count, i), CollectStart(count, i), i, full, n + 4, s');
    }
  }

  lemma FindUnused(s: State, t: ThreadId, count: nat, i: nat, n: nat, s': State)
    requires i in s.slots && Unused(s.slots[i]) && Leads(Put(s, t, CollectCas(count, i)), t, Steps(n), s')
    ensures Leads(Put(s, t, CollectInfo(count, i)), t, Steps(n + 2), s')
  {
    hide Leads, Steps, CollectNext, Full, ContinueClaim, ContinueCreate, ContinueLoad, ContinueFree, ClaimNext;
    Move(s, t, CollectMap(count, i), CollectCas(count, i), n + 1, s');
    Move(s, t, CollectInfo(count, i), CollectMap(count, i), n + 2, s');
  }

  /** The memory of the region is given back. */
  lemma GiveBackAlone(s: State, t: ThreadId, count: nat, i: nat, start: Address, n: nat, s': State)
    requires i in s.slots && start in s.held
    requires Leads(Put(s.(held := s.held - {start}), t, CollectNext(count, i + 1)), t, Steps(n), s')
    ensures Leads(Put(s, t, CollectDrop(count, i, start)), t, Steps(n + 1), s')
  {
    hide Leads, Steps, CollectNext, Full, ContinueClaim, ContinueCreate, ContinueLoad, ContinueFree, ClaimNext;
    var s1 := s.(held := s.held - {start});
    assert Put(s, t, CollectDrop(count, i, start)).threads[t := CollectNext(count, i + 1)]
      == Put(s1, t, CollectNext(count, i + 1)).threads;
    Next(Put(s, t, CollectDrop(count, i, start)), t, Put(s1, t, CollectNext(count, i + 1)), n + 1, s');
  }

  /** The claimed region loses its info and its memory. */
  lemma DropAlone(s: State, t: ThreadId, count: nat, i: nat, n: nat, s': State)
    requires i in s.slots && s.slots[i].inUse == Full() && s.slots[i].start > 0 && s.slots[i].start in s.held
    requires
      var start := s.slots[i].start;
      Leads(Put(s.(slots := s.slots[i := Slot(NoInfo, start, Full())], held := s.held - {start}), t, CollectNext(count, i + 1)),
            t, Steps(n), s')
    ensures Leads(Put(s, t, CollectStart(count, i)), t, Steps(n + 3), s')
  {
    hide Leads, Steps, CollectNext, Full, ContinueClaim, ContinueCreate, ContinueLoad, ContinueFree, ClaimNext;
    var slot := s.slots[i];
    var gone := Slot(NoInfo, slot.start, Full());
    var s2 := s.(slots := s.slots[i := gone]);
    GiveBackAlone(s2, t, count, i, slot.start, n, s');
    MoveSlot(s, t, CollectClear(count, i, slot.start), CollectDrop(count, i, slot.start), i, gone, n + 2, s');
    Move(s, t, CollectStart(count, i), CollectClear(count, i, slot.start), n + 3, s');
  }

  lemma {:induction false} SweepAlone(s: State, t: ThreadId, count: nat, i: nat) returns (n: nat)
    requires Based(s.slots, s.held) && i <= count && forall j: nat | j < count :: j in s.slots
    ensures Leads(Put(s, t, CollectNext(count, i)), t, Steps(n),
      Put(s.(slots := Retired(s.slots, i, count), held := s.held - Areas(s.slots, i, count)), t, Idle))
    decreases count - i
  {
    hide Leads, Steps, Based, Full, Unused;
    if i == count {
      assert Retired(s.slots, i, count) == s.slots;
      assert Areas(s.slots, i, count) == {};
      assert s.held - {} == s.held;
      n := 0;
      Stay(Put(s, t, Idle), t);
    } else {
      var start := s.slots[i].start;
      var done := Put(s.(slots := Retired(s.slots, i, count), held := s.held - Areas(s.slots, i, count)), t, Idle);
      if Unused(s.slots[i]) {
        var s1 := s.(slots := s.slots[i := Slot(NoInfo, start, Full())], held := s.held - {start});
        UnusedBased(s, i);
        n := SweepAlone(s1, t, count, i + 1);
        OneRetired(s, s1, count, i);
        RetireAlone(s, t, count, i, n, done);
        n := n + 6;
      } else {
        n := SweepAlone(s, t, count, i + 1);
        NotRetired(s, count, i);
        n := KeepAlone(s, t, count, i, n, done);
      }
    }
  }

  lemma UnusedBased(s: State, i: nat)
    requires Based(s.slots, s.held) && i in s.slots && Unused(s.slots[i])
    ensures s.slots[i].start > 0 && s.slots[i].start in s.held
    ensures Based(s.slots[i := Slot(NoInfo, s.slots[i].start, Full())], s.held - {s.slots[i].start})
  {
  }

  lemma OneRetired(s: State, s1: State, count: nat, i: nat)
    requires Based(s.slots, s.held) && i in s.slots && i < count && Unused(s.slots[i])
    requires s1 == s.(slots := s.slots[i := Slot(NoInfo, s.slots[i].start, Full())], held := s.held - {s.slots[i].start})
    ensures Retired(s1.slots, i + 1, count) == Retired(s.slots, i, count)
    ensures s1.held - Areas(s1.slots, i + 1, count) == s.held - Areas(s.slots, i, count)
  {
    var a, a1 := Areas(s.slots, i, count), Areas(s1.slots, i + 1, count);
    assert forall j | j in s.slots && j != i :: s1.slots[j] == s.slots[j];
    forall x | x in a ensures x in a1 || x == s.slots[i].start {
      var j :| j in s.slots && i <= j < count && Unused(s.slots[j]) && s.slots[j].start == x;
      if j != i { assert j in s1.slots && Unused(s1.slots[j]); }
    }
    forall x | x in a1 ensures x in a {
      var j :| j in s1.slots && i + 1 <= j < count && Unused(s1.slots[j]) && s1.slots[j].start == x;
      assert j in s.slots && Unused(s.slots[j]);
    }
    assert a == a1 + {s.slots[i].start};
  }

  lemma NotRetired(s: State, count: nat, i: nat)
    requires i in s.slots && i < count && !Unused(s.slots[i])
    ensures Retired(s.slots, i + 1, count) == Retired(s.slots, i, count)
    ensures Areas(s.slots, i + 1, count) == Areas(s.slots, i, count)
  {
  }

  /**
   A collect that nobody disturbs gives back exactly the memory of the regions without a block in use, and
   their slots are claimed for good.
   */
  lemma CollectAlone(states: seq<State>, steps: seq<Step>, t: ThreadId) returns (n: nat)
    requires IsRun(states, steps) && t in Last(states).threads && Last(states).threads[t].Idle?
    requires Last(states).count <= REGION_MAX
    ensures var s := Last(states);
      Leads(s, t, [Collect] + Steps(n),
        s.(slots := Retired(s.slots, 0, s.count), held := s.held - Areas(s.slots, 0, s.count)))
  {
    hide Init, Enabled, Do, Inv, Leads, Steps, Based;
    var s := Last(states);
    var g := RunInvariant(states, steps);
    InTable(s, g);
    IsBased(s, g);
    n := SweepAlone(s, t, s.count, 0);
    var done := s.(slots := Retired(s.slots, 0, s.count), held := s.held - Areas(s.slots, 0, s.count));
    assert done.threads[t := Idle] == done.threads;
    StartCollect(s, t, n, done);
    n := n + 1;
  }

  lemma StartCollect(s: State, t: ThreadId, n: nat, s': State)
    requires t in s.threads && s.threads[t].Idle? && Leads(Put(s, t, CollectNext(s.count, 0)), t, Steps(n), s')
    ensures Leads(s, t, [Collect] + Steps(n + 1), s')
  {
    hide Leads, Steps, CollectNext;
    LeadsOne(s, t, Collect, Put(s, t, CollectCount));
    Move(s, t, CollectCount, CollectNext(s.count, 0), n + 1, s');
    LeadsThen(s, t, [Collect], Put(s, t, CollectCount), Steps(n + 1), s');
  }
}
