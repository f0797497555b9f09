/**
 When the searches through the table of regions stay inside it: as long as the counter never exceeds
 the table, which two threads cannot make it do.
 */
module RegionOverrun {
  import opened BitScan
  import opened Regions
  import opened RegionTheorems

  /** Every search goes through at most as many slots as the table has. */
  predicate SeenFits(pc: Pc) {
    match pc
    case ClaimInfo(_, count, _, _) => count <= REGION_MAX
    case ClaimMap(_, count, _, _) => count <= REGION_MAX
    case ClaimCas(_, count, _, _, _, _) => count <= REGION_MAX
    case ClaimRemap(_, count, _, _, _) => count <= REGION_MAX
    case CollectInfo(count, _) => count <= REGION_MAX
    case CollectMap(count, _) => count <= REGION_MAX
    case CollectCas(count, _) => count <= REGION_MAX
    case CollectStart(count, _) => count <= REGION_MAX
    case CollectClear(count, _, _) => count <= REGION_MAX
    case CollectDrop(count, _, _) => count <= REGION_MAX
    case _ => true
  }

  /** The thread has passed the guard of a creation and has yet to increment the counter. */
  predicate Pending(pc: Pc) {
    pc.OsAlloc? || pc.OsCount?
  }

  predicate AllFit(s: State) {
    forall t | t in s.threads :: SeenFits(s.threads[t])
  }

  /** The step changes only the place of thread `t`, to one that fits, and counts it right. */
  predicate MovesFit(s: State, t: ThreadId, o: Outcome)
    requires t in s.threads
  {
    o.Ok? ==>
      && t in o.state.threads && o.state.threads == s.threads[t := o.state.threads[t]]
      && (SeenFits(s.threads[t]) && s.count <= REGION_MAX ==> SeenFits(o.state.threads[t]))
      && Counts(s, s.threads[t], o.state, o.state.threads[t])
  }

  /** Only a thread that passes the guard becomes pending, and only a pending one increments the counter. */
  predicate Counts(s: State, pc: Pc, s': State, pc': Pc) {
    if Pending(pc) then s'.count <= s.count + (if Pending(pc') then 0 else 1)
    else if Pending(pc') then s'.count == s.count <= REGION_MAX - 2
    else s'.count <= s.count
  }

  lemma ClaimFits(s: State, t: ThreadId, ok: bool)
    requires t in s.threads
    requires var pc := s.threads[t]; (pc.ClaimInfo? || pc.ClaimMap? || pc.ClaimCas? || pc.ClaimRemap?) && pc.idx in s.slots
    ensures MovesFit(s, t, ContinueClaim(s, t, ok))
  {
    hide Range, FirstFit, Suitable;
  }

  lemma CollectFits(s: State, t: ThreadId, ok: bool)
    requires t in s.threads
    requires var pc := s.threads[t];
      (pc.CollectInfo? || pc.CollectMap? || pc.CollectCas? || pc.CollectStart? || pc.CollectClear? || pc.CollectDrop?) &&
      pc.i in s.slots
    ensures MovesFit(s, t, ContinueCollect(s, t, ok))
  {
    hide Full;
  }

  lemma CreateFits(s: State, t: ThreadId)
    requires t in s.threads
    requires var pc := s.threads[t]; (pc.OsZero? || pc.OsBits? || pc.OsStart? || pc.OsInfo?) && pc.idx in s.slots
    ensures MovesFit(s, t, ContinueCreate(s, t))
  {
    hide Range;
  }

  lemma LoadFits(s: State, t: ThreadId)
    requires t in s.threads
    requires var pc := s.threads[t]; (pc.LoadCheck? || pc.LoadInfo? || pc.LoadStart?) && pc.idx in s.slots
    ensures MovesFit(s, t, ContinueLoad(s, t))
  {
    hide Range, MemId;
  }

  lemma FreeFits(s: State, t: ThreadId)
    requires t in s.threads && (s.threads[t].FreeStart? || s.threads[t].FreeBits?)
    ensures MovesFit(s, t, ContinueFree(s, t))
  {
    hide Range, Decode;
  }

  lemma GoFits(s: State, t: ThreadId, ok: bool)
    requires t in s.threads && Enabled(s, t, Go(ok))
    ensures MovesFit(s, t, Continue(s, t, ok))
  {
    hide ContinueClaim, ContinueCollect, ContinueCreate, ContinueLoad, ContinueFree;
    var pc := s.threads[t];
    if (pc.ClaimInfo? || pc.ClaimMap? || pc.ClaimCas? || pc.ClaimRemap?) && pc.idx in s.slots { ClaimFits(s, t, ok); }
    else if (pc.OsZero? || pc.OsBits? || pc.OsStart? || pc.OsInfo?) && pc.idx in s.slots { CreateFits(s, t); }
    else if (pc.LoadCheck? || pc.LoadInfo? || pc.LoadStart?) && pc.idx in s.slots { LoadFits(s, t); }
    else if pc.FreeStart? || pc.FreeBits? { FreeFits(s, t); }
    else if (pc.CollectInfo? || pc.CollectMap? || pc.CollectCas? || pc.CollectStart? || pc.CollectClear? || pc.CollectDrop?) &&
      pc.i in s.slots { CollectFits(s, t, ok); }
  }

  lemma StepFits(s: State, t: ThreadId, c: Choice)
    requires Enabled(s, t, c)
    ensures t in s.threads && MovesFit(s, t, Do(s, t, c))
  {
    hide Continue, SeenFits, Overlap, Counts;
    if c.Go? { GoFits(s, t, c.ok); } else { StartFits(s, t, c); }
  }

  lemma FitsKept(s: State, t: ThreadId, c: Choice)
    requires AllFit(s) && Enabled(s, t, c) && Do(s, t, c).Ok? && s.count <= REGION_MAX
    ensures AllFit(Do(s, t, c).state)
  {
    hide Do, Enabled, SeenFits, Counts;
    StepFits(s, t, c);
  }

  lemma StartFits(s: State, t: ThreadId, c: Choice)
    requires Enabled(s, t, c) && !c.Go?
    ensures MovesFit(s, t, Do(s, t, c))
  {
  }

  lemma {:induction false} CalmRunFits(states: seq<State>, steps: seq<Step>)
    requires IsRun(states, steps) && forall s | s in states :: s.count <= REGION_MAX
    ensures AllFit(Last(states))
    decreases |steps|
  {
    hide Enabled, Do, AllFit;
    if steps == [] {
      assert AllFit(states[0]) by { InitFits(states[0]); }
    } else {
      var n := |steps| - 1;
      CalmRunFits(states[..n + 1], steps[..n]);
      assert Enabled(states[n], steps[n].thread, steps[n].choice);
      FitsKept(states[n], steps[n].thread, steps[n].choice);
    }
  }

  lemma InitFits(s: State)
    requires Init(s)
    ensures AllFit(s)
  {
  }

  /** If the counter never exceeded the table, no step overruns it. */
  lemma CalmRunNeverOverruns(states: seq<State>, steps: seq<Step>, step: Step)
    requires IsRun(states, steps) && forall s | s in states :: s.count <= REGION_MAX
    requires Enabled(Last(states), step.thread, step.choice)
    ensures Do(Last(states), step.thread, step.choice).Ok?
  {
    hide Enabled, Do, RegionInvariant.Inv, AllFit;
    var g := RunInvariant(states, steps);
    StepKeeps(Last(states), g, step.thread, step.choice);
    CalmRunFits(states, steps);
    FitOf(Last(states), step);
  }

  lemma FitOf(s: State, step: Step)
    requires AllFit(s) && Enabled(s, step.thread, step.choice)
    ensures step.thread in s.threads && SeenFits(s.threads[step.thread])
  {
  }

  // ---------------------------------------------------------------------------------------------
  // Two threads
  // ---------------------------------------------------------------------------------------------

  function PendingOf(s: State): set<ThreadId> {
    set t | t in s.threads && Pending(s.threads[t])
  }

  /** What the guard of a creation leaves room for. */
  predicate RoomLeft(s: State, n: nat) {
    |s.threads| == n && s.count + |PendingOf(s)| <= REGION_MAX - 2 + n
  }

  lemma PendingStep(s: State, t: ThreadId, s': State)
    requires t in s.threads && t in s'.threads && s'.threads == s.threads[t := s'.threads[t]]
    ensures |PendingOf(s')| + (if Pending(s.threads[t]) then 1 else 0) ==
            |PendingOf(s)| + (if Pending(s'.threads[t]) then 1 else 0)
    ensures |PendingOf(s')| <= |s.threads| == |s'.threads|
  {
    var before, after := PendingOf(s), PendingOf(s');
    assert before - {t} == after - {t};
    Without(before, t);
    Without(after, t);
    assert s'.threads.Keys == s.threads.Keys;
    assert |s'.threads| == |s'.threads.Keys|;
    SubsetSize(after, s'.threads.Keys);
  }

  lemma Without(xs: set<ThreadId>, t: ThreadId)
    ensures |xs| == |xs - {t}| + (if t in xs then 1 else 0)
  {
    if t in xs { assert xs == (xs - {t}) + {t}; } else { assert xs == xs - {t}; }
  }

  lemma SubsetSize(xs: set<ThreadId>, ys: set<ThreadId>)
    requires xs <= ys
    ensures |xs| <= |ys|
  {
    assert ys == xs + (ys - xs);
  }

  lemma RoomKept(s: State, t: ThreadId, c: Choice, n: nat)
    requires RoomLeft(s, n) && Enabled(s, t, c) && Do(s, t, c).Ok?
    ensures RoomLeft(Do(s, t, c).state, n)
  {
    hide Do, Enabled, SeenFits, Pending, PendingOf;
    StepFits(s, t, c);
    PendingStep(s, t, Do(s, t, c).state);
  }

  lemma {:induction false} RunRoom(states: seq<State>, steps: seq<Step>, i: nat)
    requires IsRun(states, steps) && i < |states|
    ensures RoomLeft(states[i], |states[0].threads|)
  {
    hide Enabled, Do, RoomLeft;
    if i == 0 {
      InitRoom(states[0]);
    } else {
      RunRoom(states, steps, i - 1);
      assert Enabled(states[i - 1], steps[i - 1].thread, steps[i - 1].choice);
      RoomKept(states[i - 1], steps[i - 1].thread, steps[i - 1].choice, |states[0].threads|);
    }
  }

  lemma InitRoom(s: State)
    requires Init(s)
    ensures RoomLeft(s, |s.threads|)
  {
    hide Range;
    assert PendingOf(s) == {};
  }

  /** With at most two threads no step of any run overruns the table. */
  lemma TwoThreadsStay(states: seq<State>, steps: seq<Step>, step: Step)
    requires IsRun(states, steps) && |states[0].threads| <= 2
    requires Enabled(Last(states), step.thread, step.choice)
    ensures Do(Last(states), step.thread, step.choice).Ok?
  {
    hide Enabled, Do, IsRun, PendingOf;
    forall s | s in states ensures s.count <= REGION_MAX {
      var i :| 0 <= i < |states| && states[i] == s;
      RunRoom(states, steps, i);
    }
    CalmRunNeverOverruns(states, steps, step);
  }
}
