/**
 The search for a region while other threads claim, free, create and collect: it goes on to create a region only
 after it has seen every run of every region taken, or the region not fit for the request, at some time.
 */
module RegionSearch {
  import opened Options
  import opened BitScan
  import opened Regions
  import opened RegionTheorems
  import opened RegionAlone
  import RegionOverrun

  /** The region cannot give the run at `c`. */
  predicate Lacks(s: State, idx: nat, r: Request, c: nat) {
    idx in s.slots ==> !(Meets(s.slots[idx].info, r) && Free(s.slots[idx].inUse, r.blocks, c))
  }

  /** At some time from state `i` to state `j` the region could not give the run at `c`. */
  ghost predicate RuledOut(states: seq<State>, i: nat, j: nat, idx: nat, r: Request, c: nat) {
    exists m :: i <= m <= j && m < |states| && Lacks(states[m], idx, r, c)
  }

  lemma RuledLater(states: seq<State>, i: nat, j: nat, j': nat, idx: nat, r: Request, c: nat)
    requires RuledOut(states, i, j, idx, r, c) && j <= j'
    ensures RuledOut(states, i, j', idx, r, c)
  {
    hide Lacks;
    var m :| i <= m <= j && m < |states| && Lacks(states[m], idx, r, c);
  }

  lemma RuledNow(states: seq<State>, i: nat, j: nat, idx: nat, r: Request, c: nat)
    requires i <= j < |states| && Lacks(states[j], idx, r, c)
    ensures RuledOut(states, i, j, idx, r, c)
  {
  }

  /** All runs of the regions of the first `v` turns are ruled out. */
  ghost predicate TurnsRuledOut(states: seq<State>, i: nat, j: nat, r: Request, first: nat, count: nat, v: nat) {
    first < count && v <= count && forall w: nat, c: nat | w < v :: RuledOut(states, i, j, Turn(first, w, count), r, c)
  }

  /** The runs of region `idx` below `bit` are ruled out. */
  ghost predicate BitsRuledOut(states: seq<State>, i: nat, j: nat, r: Request, idx: nat, bit: nat) {
    forall c: nat | c < bit :: RuledOut(states, i, j, idx, r, c)
  }

  lemma TurnsLater(states: seq<State>, i: nat, j: nat, r: Request, first: nat, count: nat, v: nat)
    requires TurnsRuledOut(states, i, j, r, first, count, v)
    ensures TurnsRuledOut(states, i, j + 1, r, first, count, v)
  {
    hide RuledOut;
    var j' := j + 1;
    forall w: nat, c: nat | w < v ensures RuledOut(states, i, j', Turn(first, w, count), r, c) {
      RuledLater(states, i, j, j', Turn(first, w, count), r, c);
    }
  }

  lemma BitsLater(states: seq<State>, i: nat, j: nat, r: Request, idx: nat, bit: nat)
    requires BitsRuledOut(states, i, j, r, idx, bit)
    ensures BitsRuledOut(states, i, j + 1, r, idx, bit)
  {
    hide RuledOut;
    var j' := j + 1;
    forall c: nat | c < bit ensures RuledOut(states, i, j', idx, r, c) { RuledLater(states, i, j, j', idx, r, c); }
  }

  /** What the search of a thread has seen, when it is at this place. */
  ghost predicate Facts(states: seq<State>, i: nat, j: nat, pc: Pc, r: Request, first: nat, count: nat) {
    match pc
    case ClaimCount(r', _) => r' == r
    case ClaimInfo(r', n, v, idx) =>
      r' == r && n == count && v < count && TurnsRuledOut(states, i, j, r, first, count, v) && idx == Turn(first, v, count)
    case ClaimMap(r', n, v, idx) =>
      r' == r && n == count && v < count && TurnsRuledOut(states, i, j, r, first, count, v) && idx == Turn(first, v, count)
    case ClaimCas(r', n, v, idx, _, bit) =>
      && r' == r && n == count && v < count && TurnsRuledOut(states, i, j, r, first, count, v) && idx == Turn(first, v, count)
      && BitsRuledOut(states, i, j, r, idx, bit)
    case ClaimRemap(r', n, v, idx, bit) =>
      && r' == r && n == count && v < count && TurnsRuledOut(states, i, j, r, first, count, v) && idx == Turn(first, v, count)
      && BitsRuledOut(states, i, j, r, idx, bit)
    case OsGuard(r') => r' == r && (count == 0 || TurnsRuledOut(states, i, j, r, first, count, count))
    case _ => true
  }

  /** Other threads do not change what was seen. */
  lemma FactsLater(states: seq<State>, i: nat, j: nat, pc: Pc, r: Request, first: nat, count: nat)
    requires Facts(states, i, j, pc, r, first, count)
    ensures Facts(states, i, j + 1, pc, r, first, count)
  {
    hide TurnsRuledOut, BitsRuledOut;
    match pc
    case ClaimInfo(_, _, v, _) => TurnsLater(states, i, j, r, first, count, v);
    case ClaimMap(_, _, v, _) => TurnsLater(states, i, j, r, first, count, v);
    case ClaimCas(_, _, v, idx, _, bit) => TurnsLater(states, i, j, r, first, count, v); BitsLater(states, i, j, r, idx, bit);
    case ClaimRemap(_, _, v, idx, bit) => TurnsLater(states, i, j, r, first, count, v); BitsLater(states, i, j, r, idx, bit);
    case OsGuard(_) => if count > 0 { TurnsLater(states, i, j, r, first, count, count); }
    case _ =>
  }

  /** All runs of the region of turn `v` are ruled out: the search goes on to the next one. */
  lemma PassFacts(states: seq<State>, i: nat, j: nat, r: Request, first: nat, count: nat, v: nat)
    requires TurnsRuledOut(states, i, j, r, first, count, v) && v < count
    requires forall c: nat :: RuledOut(states, i, j, Turn(first, v, count), r, c)
    ensures Facts(states, i, j, ClaimNext(r, count, v + 1, Turn(first, v, count) + 1), r, first, count)
  {
    hide RuledOut;
    assert TurnsRuledOut(states, i, j, r, first, count, v + 1);
  }

  /** The scan of a field goes on after a read at state `j`, from position `from` on. */
  lemma TryFacts(states: seq<State>, i: nat, j: nat, r: Request, first: nat, count: nat, v: nat, from: nat)
    requires i <= j < |states| && TurnsRuledOut(states, i, j, r, first, count, v) && v < count
    requires Turn(first, v, count) in states[j].slots && BitsRuledOut(states, i, j, r, Turn(first, v, count), from)
    ensures var idx := Turn(first, v, count);
      Facts(states, i, j, ClaimTry(r, count, v, idx, states[j].slots[idx].inUse, from), r, first, count)
  {
    hide RuledOut, TurnsRuledOut, Free, FirstFit, ClaimNext;
    var idx := Turn(first, v, count);
    var word := states[j].slots[idx].inUse;
    var fit := FirstFit(word, r.blocks, from);
    forall c: nat | fit.None? || c < fit.value ensures RuledOut(states, i, j, idx, r, c) {
      if c >= from { RuledNow(states, i, j, idx, r, c); }
    }
    if fit.None? { PassFacts(states, i, j, r, first, count, v); }
  }

  /** A step of the thread itself, after its search has begun. */
  lemma OwnStep(states: seq<State>, i: nat, j: nat, t: ThreadId, ok: bool, r: Request, first: nat, count: nat)
    requires i <= j < |states| && t in states[j].threads && Facts(states, i, j, states[j].threads[t], r, first, count)
    requires !states[j].threads[t].ClaimCount? && Continue(states[j], t, ok).Ok? && t in Continue(states[j], t, ok).state.threads
    ensures Facts(states, i, j, Continue(states[j], t, ok).state.threads[t], r, first, count)
  {
    hide TurnsRuledOut, ClaimNext, ClaimTry, Suitable, ContinueCreate, ContinueLoad, ContinueFree, ContinueCollect, CollectNext;
    var s := states[j];
    match s.threads[t]
    case ClaimInfo(_, _, v, idx) => InfoStep(states, i, j, r, first, count, v);
    case ClaimMap(_, _, v, idx) => TryFacts(states, i, j, r, first, count, v, 0);
    case ClaimCas(_, _, _, _, _, _) =>
    case ClaimRemap(_, _, v, idx, bit) => TryFacts(states, i, j, r, first, count, v, bit);
    case _ => Elsewhere(s, t, ok);
  }

  lemma InfoStep(states: seq<State>, i: nat, j: nat, r: Request, first: nat, count: nat, v: nat)
    requires i <= j < |states| && TurnsRuledOut(states, i, j, r, first, count, v) && v < count
    requires Turn(first, v, count) in states[j].slots
    ensures var idx := Turn(first, v, count);
      !Suitable(states[j].slots[idx].info, r) ==> Facts(states, i, j, ClaimNext(r, count, v + 1, idx + 1), r, first, count)
  {
    hide RuledOut, TurnsRuledOut, ClaimNext, Free;
    var idx := Turn(first, v, count);
    if !Suitable(states[j].slots[idx].info, r) {
      MeetsIff(states[j].slots[idx].info, r);
      forall c: nat ensures RuledOut(states, i, j, idx, r, c) { RuledNow(states, i, j, idx, r, c); }
      PassFacts(states, i, j, r, first, count, v);
    }
  }

  predicate Searching(pc: Pc) {
    pc.ClaimCount? || pc.ClaimInfo? || pc.ClaimMap? || pc.ClaimCas? || pc.ClaimRemap?
  }

  /** A thread comes to the search, and to the guard of a creation, only from the search. */
  lemma Elsewhere(s: State, t: ThreadId, ok: bool)
    requires t in s.threads && !Searching(s.threads[t]) && Continue(s, t, ok).Ok?
    ensures t in Continue(s, t, ok).state.threads
    ensures Outside(s.threads[t], Continue(s, t, ok).state.threads[t])
  {
    hide ContinueClaim, ContinueCreate, ContinueLoad, ContinueFree, ContinueCollect, CollectNext;
    var pc := s.threads[t];
    if (pc.OsZero? || pc.OsBits? || pc.OsStart? || pc.OsInfo?) && pc.idx in s.slots {
      CreateOutside(s, t);
    } else if (pc.LoadCheck? || pc.LoadInfo? || pc.LoadStart?) && pc.idx in s.slots {
      LoadOutside(s, t);
    } else if pc.FreeStart? || pc.FreeBits? {
      FreeOutside(s, t);
    } else if (pc.CollectInfo? || pc.CollectMap? || pc.CollectCas? || pc.CollectStart? || pc.CollectClear? || pc.CollectDrop?)
      && pc.i in s.slots {
      CollectOutside(s, t, ok);
    } else {
      NextOutside(s.count);
    }
  }

  predicate Outside(pc: Pc, pc': Pc) {
    !Searching(pc') && (pc'.OsGuard? ==> pc' == pc)
  }

  lemma NextOutside(count: nat)
    ensures forall pc :: Outside(pc, CollectNext(count, 0))
  {
  }

  lemma CreateOutside(s: State, t: ThreadId)
    requires t in s.threads
    requires var pc := s.threads[t]; (pc.OsZero? || pc.OsBits? || pc.OsStart? || pc.OsInfo?) && pc.idx in s.slots
    ensures ContinueCreate(s, t).Ok? ==>
      t in ContinueCreate(s, t).state.threads && Outside(s.threads[t], ContinueCreate(s, t).state.threads[t])
  {
    hide Range;
  }

  lemma LoadOutside(s: State, t: ThreadId)
    requires t in s.threads
    requires var pc := s.threads[t]; (pc.LoadCheck? || pc.LoadInfo? || pc.LoadStart?) && pc.idx in s.slots
    ensures ContinueLoad(s, t).Ok? ==>
      t in ContinueLoad(s, t).state.threads && Outside(s.threads[t], ContinueLoad(s, t).state.threads[t])
  {
    hide Range, MemId;
  }

  lemma FreeOutside(s: State, t: ThreadId)
    requires t in s.threads && (s.threads[t].FreeStart? || s.threads[t].FreeBits?)
    ensures ContinueFree(s, t).Ok? ==>
      t in ContinueFree(s, t).state.threads && Outside(s.threads[t], ContinueFree(s, t).state.threads[t])
  {
    hide Range, Decode;
  }

  lemma CollectOutside(s: State, t: ThreadId, ok: bool)
    requires t in s.threads
    requires var pc := s.threads[t];
      (pc.CollectInfo? || pc.CollectMap? || pc.CollectCas? || pc.CollectStart? || pc.CollectClear? || pc.CollectDrop?) &&
      pc.i in s.slots
    ensures ContinueCollect(s, t, ok).Ok? ==>
      t in ContinueCollect(s, t, ok).state.threads && Outside(s.threads[t], ContinueCollect(s, t, ok).state.threads[t])
  {
    hide Full;
  }

  /** The first step of the search reads the counter. */
  lemma CountStep(states: seq<State>, i: nat, j: nat, t: ThreadId, ok: bool, r: Request) returns (first: nat, count: nat)
    requires i <= j < |states| && t in states[j].threads && states[j].threads[t].ClaimCount? && states[j].threads[t].r == r
    ensures Continue(states[j], t, ok).Ok? && t in Continue(states[j], t, ok).state.threads && count == states[j].count
    ensures Facts(states, i, j, Continue(states[j], t, ok).state.threads[t], r, first, count)
  {
    count := states[j].count;
    var from := states[j].threads[t].first;
    first := if from < count then from else 0;
    assert count > 0 ==> TurnsRuledOut(states, i, j, r, first, count, 0);
  }

  /** The thread has not ended its operation since step `i`. */
  ghost predicate Busy(states: seq<State>, t: ThreadId, i: nat, j: nat) {
    forall k | i < k <= j && k < |states| :: t in states[k].threads && !states[k].threads[t].Idle?
  }

  /** The count that the search read, once it has. */
  ghost predicate CountRead(states: seq<State>, i: nat, j: nat, pc: Pc, count: nat) {
    pc.ClaimCount? || exists m :: i <= m <= j && m < |states| && states[m].count == count
  }

  lemma {:induction false} RunFacts(states: seq<State>, steps: seq<Step>, t: ThreadId, r: Request, from: nat, i: nat, j: nat)
    returns (first: nat, count: nat)
    requires IsRun(states, steps) && i < j < |states| && steps[i] == Step(t, Alloc(r, from)) && Busy(states, t, i, j)
    ensures t in states[j].threads && Facts(states, i, j, states[j].threads[t], r, first, count)
    ensures CountRead(states, i, j, states[j].threads[t], count)
    decreases j
  {
    hide Init, Enabled, Do, Facts;
    var s, step := states[j - 1], steps[j - 1];
    assert Enabled(s, step.thread, step.choice) && Do(s, step.thread, step.choice) == Ok(states[j]);
    if j == i + 1 {
      first, count := 0, 0;
      Begins(s, t, r, from);
      CountFacts(states, i, j, ClaimCount(r, from), r);
    } else {
      first, count := RunFacts(states, steps, t, r, from, i, j - 1);
      if step.thread != t {
        OtherStep(s, step, t);
        FactsLater(states, i, j - 1, s.threads[t], r, first, count);
      } else {
        var ok := BusyGoes(s, step, states[j]);
        if Continue(s, t, ok) != Ok(states[j]) {
          NoFacts(states, i, j - 1, states[j].threads[t], r, first, count);
        } else if s.threads[t].ClaimCount? {
          CountOf(states, i, j - 1, s.threads[t], r, first, count);
          first, count := CountStep(states, i, j - 1, t, ok, r);
        } else {
          OwnStep(states, i, j - 1, t, ok, r, first, count);
        }
        FactsLater(states, i, j - 1, states[j].threads[t], r, first, count);
      }
    }
  }

  lemma CountFacts(states: seq<State>, i: nat, j: nat, pc: Pc, r: Request)
    requires pc.ClaimCount? && pc.r == r
    ensures forall first, count :: Facts(states, i, j, pc, r, first, count)
  {
  }

  lemma NoFacts(states: seq<State>, i: nat, j: nat, pc: Pc, r: Request, first: nat, count: nat)
    requires pc.OsCount?
    ensures Facts(states, i, j, pc, r, first, count)
  {
  }

  lemma CountOf(states: seq<State>, i: nat, j: nat, pc: Pc, r: Request, first: nat, count: nat)
    requires pc.ClaimCount? && Facts(states, i, j, pc, r, first, count)
    ensures pc.r == r
  {
  }

  lemma Begins(s: State, t: ThreadId, r: Request, from: nat)
    requires Enabled(s, t, Alloc(r, from))
    ensures t in s.threads && Do(s, t, Alloc(r, from)) == Ok(Put(s, t, ClaimCount(r, from)))
  {
  }

  lemma OtherStep(s: State, step: Step, t: ThreadId)
    requires Enabled(s, step.thread, step.choice) && Do(s, step.thread, step.choice).Ok? && step.thread != t && t in s.threads
    ensures var s' := Do(s, step.thread, step.choice).state; t in s'.threads && s'.threads[t] == s.threads[t]
  {
    hide Enabled, Do;
    RegionOverrun.StepFits(s, step.thread, step.choice);
  }

  /** A thread that is busy and not waiting for memory goes on; memory that it waits for leads out of the search. */
  lemma BusyGoes(s: State, step: Step, s': State) returns (ok: bool)
    requires Enabled(s, step.thread, step.choice) && Do(s, step.thread, step.choice) == Ok(s')
    requires step.thread in s.threads && !s.threads[step.thread].Idle?
    requires step.thread in s'.threads && !s'.threads[step.thread].Idle?
    ensures Continue(s, step.thread, ok) == Ok(s') ||
            (!Searching(s.threads[step.thread]) && s'.threads[step.thread].OsCount?)
  {
    hide Continue;
    ok := step.choice.Go? && step.choice.ok;
  }

  /**
   In any run, a thread that goes on to create a region has read a count of regions, and of each of them has
   seen each run of blocks taken, or the region not fit for the request, since it began.
   */
  lemma CreatesOnlyIfNoneServes(states: seq<State>, steps: seq<Step>, t: ThreadId, r: Request, from: nat, i: nat, j: nat)
    returns (count: nat)
    requires IsRun(states, steps) && i < j < |states| && steps[i] == Step(t, Alloc(r, from)) && Busy(states, t, i, j)
    requires t in states[j].threads && states[j].threads[t].OsGuard?
    ensures states[j].threads[t].r == r && exists m :: i <= m <= j && states[m].count == count
    ensures forall idx: nat, c: nat | idx < count :: RuledOut(states, i, j, idx, r, c)
  {
    hide IsRun, RuledOut;
    var first;
    first, count := RunFacts(states, steps, t, r, from, i, j);
    forall idx: nat, c: nat | idx < count ensures RuledOut(states, i, j, idx, r, c) {
      AllTurns(first, count, idx);
    }
  }
}
