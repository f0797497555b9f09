/**
 A run of any three threads in which a search through the table of regions overruns it: one thread
 fills the table but for two slots, all three pass the guard of a creation, and while the last one has
 yet to undo its increment the first one searches the table again.
 */
module RegionThreeThreads {
  import opened BitScan
  import opened Regions
  import opened RegionTheorems
  import opened RegionOverrun

  /** A run of exactly these threads leads to the state. */
  ghost predicate Reachable(s: State, threads: set<ThreadId>) {
    exists states: seq<State>, steps :: IsRun(states, steps) && states[0].threads.Keys == threads && Last(states) == s
  }

  lemma Reach(s: State, threads: set<ThreadId>, t: ThreadId, c: Choice, s': State)
    requires Reachable(s, threads) && Enabled(s, t, c) && Do(s, t, c) == Ok(s')
    ensures Reachable(s', threads)
  {
    hide Enabled, Do, Init;
    var states: seq<State>, steps :| IsRun(states, steps) && states[0].threads.Keys == threads && Last(states) == s;
    assert IsRun(states + [s'], steps + [Step(t, c)]);
  }

  lemma ReachInit(s: State)
    requires Init(s)
    ensures Reachable(s, s.threads.Keys)
  {
    assert IsRun([s], []);
  }

  /** A request for one block on NUMA node `n`. */
  function On(n: nat): Request { Request(1, false, n) }

  function Start(i: nat): Address { 1 + i * BITS }

  /** A thread goes on without changing anything else. */
  lemma Move(s: State, threads: set<ThreadId>, t: ThreadId, a: Pc, b: Pc)
    requires Reachable(Put(s, t, a), threads) && Enabled(Put(s, t, a), t, Go(true))
    requires Do(Put(s, t, a), t, Go(true)) == Ok(Put(Put(s, t, a), t, b))
    ensures Reachable(Put(s, t, b), threads)
  {
    hide Reachable, Do, Enabled;
    assert s.threads[t := a][t := b] == s.threads[t := b];
    Reach(Put(s, t, a), threads, t, Go(true), Put(s, t, b));
  }

  /** No slot up to `k` suits the request. */
  predicate NoneSuits(s: State, k: nat, r: Request) {
    forall i | 0 <= i < k :: i in s.slots && !Suitable(s.slots[i].info, r)
  }

  /** A search goes past slots that do not suit it. */
  lemma {:induction false} ReachLooking(s: State, threads: set<ThreadId>, t: ThreadId, r: Request, k: nat)
    requires k < s.count && NoneSuits(s, k, r) && Reachable(Put(s, t, ClaimInfo(r, s.count, 0, 0)), threads)
    ensures Reachable(Put(s, t, ClaimInfo(r, s.count, k, k)), threads)
    decreases k
  {
    hide Reachable, Suitable;
    if k > 0 {
      ReachLooking(s, threads, t, r, k - 1);
      Move(s, threads, t, ClaimInfo(r, s.count, k - 1, k - 1), ClaimInfo(r, s.count, k, k));
    }
  }

  /** A search that starts at the first slot. */
  lemma ReachSearch(s: State, threads: set<ThreadId>, t: ThreadId, r: Request)
    requires Reachable(s, threads) && t in s.threads && s.threads[t].Idle? && 0 < r.blocks <= MAX_BLOCKS
    ensures Reachable(Put(s, t, ClaimNext(r, s.count, 0, 0)), threads)
  {
    hide Reachable, ClaimNext;
    Reach(s, threads, t, Alloc(r, 0), Put(s, t, ClaimCount(r, 0)));
    Move(s, threads, t, ClaimCount(r, 0), ClaimNext(r, s.count, 0, 0));
  }

  /** A search that finds nothing goes on to the guard of a creation. */
  lemma ReachGuard(s: State, threads: set<ThreadId>, t: ThreadId, r: Request)
    requires Reachable(s, threads) && t in s.threads && s.threads[t].Idle? && 0 < r.blocks <= MAX_BLOCKS
    requires NoneSuits(s, s.count, r)
    ensures Reachable(Put(s, t, OsGuard(r)), threads)
  {
    hide Reachable, Suitable;
    ReachSearch(s, threads, t, r);
    if s.count > 0 {
      var k := s.count - 1;
      ReachLooking(s, threads, t, r, k);
      Move(s, threads, t, ClaimInfo(r, s.count, k, k), OsGuard(r));
    }
  }

  /** The thread has passed the guard and has memory for a region. */
  function WithMemory(s: State, t: ThreadId, r: Request, start: Address): State {
    Put(s, t, OsCount(r, start, false)).(held := s.held + {start})
  }

  lemma ReachMemory(s: State, threads: set<ThreadId>, t: ThreadId, r: Request, start: Address)
    requires Reachable(s, threads) && t in s.threads && s.threads[t].Idle? && 0 < r.blocks <= MAX_BLOCKS
    requires NoneSuits(s, s.count, r) && s.count < REGION_MAX - 1
    requires start > 0 && forall a | a in s.held :: !Overlap(a, start)
    ensures Reachable(WithMemory(s, t, r, start), threads)
  {
    hide Reachable, NoneSuits, Overlap;
    ReachGuard(s, threads, t, r);
    Move(s, threads, t, OsGuard(r), OsAlloc(r));
    assert s.threads[t := OsAlloc(r)][t := OsCount(r, start, false)] == s.threads[t := OsCount(r, start, false)];
    Reach(Put(s, t, OsAlloc(r)), threads, t, Fresh(start, false), WithMemory(s, t, r, start));
  }

  /** Slot `i` is published on its NUMA node, and nothing in it is in use. */
  function Built(i: nat): Slot { Slot(Info(false, i), Start(i), {}) }

  /** A thread that has won a slot publishes it, and gives the block that it gets back. */
  lemma ReachBuilt(s: State, threads: set<ThreadId>, t: ThreadId, i: nat)
    requires t in s.threads && i in s.slots && s.slots[i] == Slot(NoInfo, 0, {}) && s.live == map[]
    requires Reachable(Put(s, t, OsZero(On(i), i, Start(i), false)), threads)
    ensures Reachable(Put(s, t, Idle).(slots := s.slots[i := Built(i)]), threads)
  {
    hide Reachable, Range, MemId, Decode, Start;
    var run := Range(0, 1);
    var used := s.(slots := s.slots[i := Slot(NoInfo, 0, run)]);
    var open := s.(slots := s.slots[i := Slot(Info(false, i), Start(i), run)]);
    ReachPublished(s, threads, t, i, run);
    Move(open, threads, t, LoadCheck(On(i), i, 0), LoadInfo(On(i), i, 0));
    Move(open, threads, t, LoadInfo(On(i), i, 0), LoadStart(On(i), i, 0));
    StartPositive(i);
    ReachReleased(open, threads, t, i, run);
    assert run - run == {};
    assert open.slots[i := Built(i)] == s.slots[i := Built(i)];
  }

  lemma StartPositive(i: nat)
    ensures Start(i) > 0
  {
  }

  /** The state with another slot `i`, and thread `t` at another place. */
  function At(s: State, t: ThreadId, i: nat, slot: Slot, pc: Pc): State {
    Put(s.(slots := s.slots[i := slot]), t, pc)
  }

  /** A step that changes slot `i`. */
  lemma SlotStep(s: State, threads: set<ThreadId>, t: ThreadId, i: nat, a: Slot, b: Slot, pc: Pc, pc': Pc)
    requires Reachable(At(s, t, i, a, pc), threads) && Enabled(At(s, t, i, a, pc), t, Go(true))
    requires Do(At(s, t, i, a, pc), t, Go(true)) == Ok(PutSlot(At(s, t, i, a, pc), t, pc', i, b))
    ensures Reachable(At(s, t, i, b, pc'), threads)
  {
    hide Reachable, Do, Enabled;
    assert s.slots[i := a][i := b] == s.slots[i := b];
    assert s.threads[t := pc][t := pc'] == s.threads[t := pc'];
    Reach(At(s, t, i, a, pc), threads, t, Go(true), At(s, t, i, b, pc'));
  }

  /** From the first write to the publication. */
  lemma ReachPublished(s: State, threads: set<ThreadId>, t: ThreadId, i: nat, run: Word)
    requires t in s.threads && i in s.slots && s.slots[i] == Slot(NoInfo, 0, {}) && run == Range(0, 1)
    requires Reachable(Put(s, t, OsZero(On(i), i, Start(i), false)), threads)
    ensures Reachable(At(s, t, i, Slot(Info(false, i), Start(i), run), LoadCheck(On(i), i, 0)), threads)
  {
    hide Reachable, Range, Start;
    var start, blank := Start(i), Slot(NoInfo, 0, {});
    assert s.slots[i := blank] == s.slots;
    SlotStep(s, threads, t, i, blank, blank, OsZero(On(i), i, start, false), OsBits(On(i), i, start, false));
    assert {} + run == run;
    SlotStep(s, threads, t, i, blank, Slot(NoInfo, 0, run), OsBits(On(i), i, start, false), OsStart(On(i), i, start, false));
    ReachShown(s, threads, t, i, start, run);
  }

  /** The start is written, then the info. */
  lemma ReachShown(s: State, threads: set<ThreadId>, t: ThreadId, i: nat, start: Address, run: Word)
    requires t in s.threads && i in s.slots
    requires Reachable(At(s, t, i, Slot(NoInfo, 0, run), OsStart(On(i), i, start, false)), threads)
    ensures Reachable(At(s, t, i, Slot(Info(false, i), start, run), LoadCheck(On(i), i, 0)), threads)
  {
    hide Reachable, Range;
    SlotStep(s, threads, t, i, Slot(NoInfo, 0, run), Slot(NoInfo, start, run),
             OsStart(On(i), i, start, false), OsInfo(On(i), i, start, false));
    SlotStep(s, threads, t, i, Slot(NoInfo, start, run), Slot(Info(false, i), start, run),
             OsInfo(On(i), i, start, false), LoadCheck(On(i), i, 0));
  }

  /** From the last read of a claimed block to its release. */
  lemma ReachReleased(s: State, threads: set<ThreadId>, t: ThreadId, i: nat, run: Word)
    requires t in s.threads && i in s.slots && s.slots[i] == Slot(Info(false, i), Start(i), run) && run == Range(0, 1)
    requires s.live == map[] && Start(i) > 0
    requires Reachable(Put(s, t, LoadStart(On(i), i, 0)), threads)
    ensures Reachable(At(s, t, i, Slot(Info(false, i), Start(i), run - run), Idle), threads)
  {
    hide Reachable, Range, MemId, Decode, Start;
    MemIdRoundTrip(i, 0);
    var id := MemId(i, 0);
    var block := Block(id, Start(i), 1);
    var idle := Put(s, t, Idle).(live := map[id := block]);
    assert s.threads[t := LoadStart(On(i), i, 0)][t := Idle] == s.threads[t := Idle];
    Reach(Put(s, t, LoadStart(On(i), i, 0)), threads, t, Go(true), idle);
    assert idle.live - {id} == map[];
    assert idle.threads[t := FreeStart(block)] == s.threads[t := FreeStart(block)];
    Reach(idle, threads, t, Release(id), Put(s, t, FreeStart(block)));
    Move(s, threads, t, FreeStart(block), FreeBits(block));
    assert s.slots[i := s.slots[i]] == s.slots;
    SlotStep(s, threads, t, i, s.slots[i], Slot(Info(false, i), Start(i), run - run), FreeBits(block), Idle);
  }

  /** The first `n` slots are published, each on its own NUMA node; all threads are idle. */
  function Grown(threads: set<ThreadId>, n: nat): State {
    State(map i | i in Range(0, REGION_MAX) :: if i < n then Built(i) else Slot(NoInfo, 0, {}),
          n, set i | i in Range(0, n) :: Start(i), map[], map t | t in threads :: Idle)
  }

  lemma StartApart(threads: set<ThreadId>, n: nat, i: nat)
    requires n <= i
    ensures Start(i) > 0 && forall a | a in Grown(threads, n).held :: !Overlap(a, Start(i))
  {
  }

  lemma {:induction false} ReachGrown(threads: set<ThreadId>, t: ThreadId, n: nat)
    requires t in threads && n <= REGION_MAX - 2
    ensures Reachable(Grown(threads, n), threads)
  {
    hide Reachable, Range, Start, Overlap;
    if n == 0 {
      var s := Grown(threads, 0);
      assert s.held == {};
      ReachInit(s);
      assert s.threads.Keys == threads;
    } else {
      var i := n - 1;
      ReachGrown(threads, t, i);
      var s := Grown(threads, i);
      StartApart(threads, i, i);
      ReachMemory(s, threads, t, On(i), Start(i));
      ReachSlot(WithMemory(s, t, On(i), Start(i)), threads, t, i);
      var s' := s.(held := s.held + {Start(i)}, count := n);
      assert WithMemory(s, t, On(i), Start(i)).(count := n) == Put(s', t, OsCount(On(i), Start(i), false));
      assert s'.threads[t := OsCount(On(i), Start(i), false)][t := OsZero(On(i), i, Start(i), false)]
          == s'.threads[t := OsZero(On(i), i, Start(i), false)];
      ReachBuilt(s', threads, t, i);
      GrownNext(threads, t, n, At(s', t, i, Built(i), Idle));
    }
  }

  /** The increment of the counter that wins slot `i`. */
  lemma ReachSlot(s: State, threads: set<ThreadId>, t: ThreadId, i: nat)
    requires Reachable(s, threads) && t in s.threads && s.threads[t] == OsCount(On(i), Start(i), false)
    requires s.count == i < REGION_MAX
    ensures Reachable(Put(s, t, OsZero(On(i), i, Start(i), false)).(count := i + 1), threads)
  {
    hide Reachable, Start;
    Reach(s, threads, t, Go(true), Put(s, t, OsZero(On(i), i, Start(i), false)).(count := i + 1));
  }

  lemma GrownNext(threads: set<ThreadId>, t: ThreadId, n: nat, s: State)
    requires t in threads && 0 < n < REGION_MAX
    requires var before := Grown(threads, n - 1);
      s == At(before.(held := before.held + {Start(n - 1)}, count := n), t, n - 1, Built(n - 1), Idle)
    ensures s == Grown(threads, n)
  {
    hide Start;
    assert s.slots == Grown(threads, n).slots;
    assert s.held == Grown(threads, n).held;
    assert s.threads == Grown(threads, n).threads;
  }

  /** Regions on other NUMA nodes, and slots that are not published, do not suit. */
  lemma Unsuited(slots: map<nat, Slot>, s: State, k: nat, n: nat)
    requires s.slots == slots && k <= n && forall i | 0 <= i < k :: i in slots && (slots[i] == Built(i) || slots[i].info.NoInfo?)
    ensures NoneSuits(s, k, On(n))
  {
    hide Start;
  }

  /** All three threads have passed the guard and have memory. */
  function AllPast(threads: set<ThreadId>, a: ThreadId, b: ThreadId, c: ThreadId): State {
    var n := REGION_MAX - 2;
    var s := WithMemory(Grown(threads, n), a, On(n), Start(n));
    WithMemory(WithMemory(s, b, On(n + 1), Start(n + 1)), c, On(n + 2), Start(n + 2))
  }

  lemma ReachAllPast(threads: set<ThreadId>, a: ThreadId, b: ThreadId, c: ThreadId)
    requires a in threads && b in threads && c in threads && a != b && a != c && b != c
    ensures Reachable(AllPast(threads, a, b, c), threads)
  {
    hide Reachable, Range, Start, Overlap, NoneSuits;
    var n := REGION_MAX - 2;
    var s := Grown(threads, n);
    ReachGrown(threads, a, n);
    FreshStarts(threads, n);
    Unsuited(s.slots, s, n, n);
    ReachMemory(s, threads, a, On(n), Start(n));
    var s1 := WithMemory(s, a, On(n), Start(n));
    Unsuited(s.slots, s1, n, n + 1);
    ReachMemory(s1, threads, b, On(n + 1), Start(n + 1));
    var s2 := WithMemory(s1, b, On(n + 1), Start(n + 1));
    Unsuited(s.slots, s2, n, n + 2);
    ReachMemory(s2, threads, c, On(n + 2), Start(n + 2));
  }

  lemma FreshStarts(threads: set<ThreadId>, n: nat)
    ensures forall i: nat | n <= i :: Start(i) > 0 && forall a | a in Grown(threads, n).held :: !Overlap(a, Start(i))
    ensures !Overlap(Start(n), Start(n + 1)) && !Overlap(Start(n), Start(n + 2)) && !Overlap(Start(n + 1), Start(n + 2))
  {
    forall i: nat | n <= i ensures Start(i) > 0 && forall a | a in Grown(threads, n).held :: !Overlap(a, Start(i)) {
      StartApart(threads, n, i);
    }
  }

  /** All three have incremented the counter; the first is idle again, the last has an increment to undo. */
  lemma ReachExceeded(threads: set<ThreadId>, a: ThreadId, b: ThreadId, c: ThreadId) returns (s: State)
    requires a in threads && b in threads && c in threads && a != b && a != c && b != c
    ensures Reachable(s, threads) && s.count == REGION_MAX + 1 && a in s.threads && s.threads[a].Idle?
    ensures s.slots.Keys == Range(0, REGION_MAX) && NoneSuits(s, REGION_MAX, On(REGION_MAX))
  {
    hide Reachable, Range, Start;
    var n := REGION_MAX - 2;
    var s0 := AllPast(threads, a, b, c);
    ReachAllPast(threads, a, b, c);
    ReachSlot(s0, threads, a, n);
    var s1 := Put(s0, a, OsZero(On(n), n, Start(n), false)).(count := n + 1);
    ReachSlot(s1, threads, b, n + 1);
    var s2 := Put(s1, b, OsZero(On(n + 1), n + 1, Start(n + 1), false)).(count := n + 2);
    var s3 := Put(s2, c, OsUndo(Start(n + 2))).(count := n + 3);
    Reach(s2, threads, c, Go(true), s3);
    assert s3.threads[a := s3.threads[a]] == s3.threads;
    ReachBuilt(s3, threads, a, n);
    s := Put(s3, a, Idle).(slots := s3.slots[n := Built(n)]);
    assert s.slots.Keys == Range(0, REGION_MAX);
    Unsuited(s.slots, s, REGION_MAX, REGION_MAX);
  }

  /** Any three threads can overrun the table. */
  lemma TableOverrun(threads: set<ThreadId>, a: ThreadId, b: ThreadId, c: ThreadId) returns (s: State)
    requires a in threads && b in threads && c in threads && a != b && a != c && b != c
    ensures Reachable(s, threads) && Enabled(s, a, Go(true)) && Do(s, a, Go(true)) == Overrun && s.count == REGION_MAX + 1
  {
    hide Reachable, Range, NoneSuits;
    var s0 := ReachExceeded(threads, a, b, c);
    var r := On(REGION_MAX);
    ReachSearch(s0, threads, a, r);
    ReachLooking(s0, threads, a, r, REGION_MAX);
    s := Put(s0, a, ClaimInfo(r, s0.count, REGION_MAX, REGION_MAX));
  }

  lemma Three(threads: set<ThreadId>) returns (a: ThreadId, b: ThreadId, c: ThreadId)
    requires |threads| >= 3
    ensures a in threads && b in threads && c in threads && a != b && a != c && b != c
  {
    a :| a in threads;
    Without(threads, a);
    b :| b in threads - {a};
    Without(threads - {a}, b);
    c :| c in threads - {a} - {b};
  }

  /** Some run of exactly these threads has a step that overruns the table. */
  ghost predicate CanOverrun(threads: set<ThreadId>) {
    exists s, step: Step ::
      Reachable(s, threads) && Enabled(s, step.thread, step.choice) && Do(s, step.thread, step.choice).Overrun?
  }

  /** The searches of a set of threads can leave the table exactly if there are three threads or more. */
  lemma OverrunIffThreeThreads(threads: set<ThreadId>)
    ensures CanOverrun(threads) <==> |threads| >= 3
  {
    hide Reachable, Enabled, Do;
    if |threads| >= 3 {
      var a, b, c := Three(threads);
      var s := TableOverrun(threads, a, b, c);
      assert Do(s, Step(a, Go(true)).thread, Step(a, Go(true)).choice).Overrun?;
    } else {
      forall s, step: Step | Reachable(s, threads) && Enabled(s, step.thread, step.choice)
        ensures !Do(s, step.thread, step.choice).Overrun?
      {
        FewStay(threads, s, step);
      }
    }
  }

  lemma FewStay(threads: set<ThreadId>, s: State, step: Step)
    requires Reachable(s, threads) && |threads| <= 2 && Enabled(s, step.thread, step.choice)
    ensures Do(s, step.thread, step.choice).Ok?
  {
    hide Enabled, Do, Init;
    var states: seq<State>, steps :| IsRun(states, steps) && states[0].threads.Keys == threads && Last(states) == s;
    assert |states[0].threads| == |states[0].threads.Keys|;
    TwoThreadsStay(states, steps, step);
  }
}
