/**
 Publishing a region under release/acquire memory (sections 5.1.2.4 and 7.17.3 of ISO/IEC 9899:2011).

 Every location has a set of messages, each with an interval of timestamps, a value and the view that
 a release attached to it.  A thread has a view: for each location the timestamp below which it may
 no longer read.  A store may take any free interval above the thread's view; a read-modify-write
 takes an interval that starts where the one of the message it read ends.

 One thread publishes: it clears the bitmap, claims its own bits, and stores `info`.  Any number of
 threads read `info`, claim bits by a compare-and-swap, read the bitmap with relaxed order, and
 unclaim.  Reading the bitmap and not finding one's own bits has the outcome `Stale`.
 */
module Publication {
  type Bits = set<nat>
  type ThreadId = nat

  datatype View = View(bitmap: real, info: real)

  const Nothing := View(0.0, 0.0)

  function Max(a: real, b: real): real { if a < b then b else a }

  function Join(v: View, w: View): View {
    View(Max(v.bitmap, w.bitmap), Max(v.info, w.info))
  }

  datatype Message<V> = Message(from: real, to: real, value: V, view: View)

  datatype Pc =
    | StoreBitmap | ClaimOwn | StoreInfo    // the publisher
    | WantInfo | WantClaim | Holding

  datatype Thread = Thread(pc: Pc, view: View, mask: Bits)

  datatype State = State(bitmap: set<Message<Bits>>, info: set<Message<bool>>, threads: map<ThreadId, Thread>)

  datatype Outcome = Ok(state: State) | Stale

  datatype Action =
    | Store(from: real, to: real)                     // the publisher's stores
    | Update(read: Message<Bits>, to: real)           // a read-modify-write of the bitmap
    | ReadInfo(info: Message<bool>)
    | ReadBitmap(read: Message<Bits>)
    | Again(mask: Bits)                               // what a thread that holds nothing wants next

  datatype Step = Step(thread: ThreadId, action: Action)

  /** The interval lies beside all intervals taken. */
  predicate Vacant<V(==)>(messages: set<Message<V>>, from: real, to: real) {
    0.0 <= from < to && forall m | m in messages :: to <= m.from || m.to <= from
  }

  predicate Enabled(s: State, step: Step) {
    step.thread in s.threads &&
    var th := s.threads[step.thread];
    match step.action
    case Store(from, to) =>
      (th.pc.StoreBitmap? && th.view.bitmap < to && Vacant(s.bitmap, from, to)) ||
      (th.pc.StoreInfo? && th.view.info < to && Vacant(s.info, from, to))
    case Update(m, to) =>
      && m in s.bitmap && th.view.bitmap <= m.to && Vacant(s.bitmap, m.to, to)
      && (th.pc.ClaimOwn? || (th.pc.WantClaim? && th.mask !! m.value) || th.pc.Holding?)
    case ReadInfo(m) => th.pc.WantInfo? && m in s.info && th.view.info <= m.to
    case ReadBitmap(m) => th.pc.Holding? && m in s.bitmap && th.view.bitmap <= m.to
    case Again(mask) => th.pc.WantClaim? || th.pc.WantInfo?
  }

  function Put(s: State, t: ThreadId, th: Thread): State {
    s.(threads := s.threads[t := th])
  }

  /** `acquire` tells whether claimers read `info` with acquire order, or relaxed. */
  function Do(s: State, step: Step, acquire: bool): Outcome
    requires Enabled(s, step)
  {
    var t := step.thread;
    var th := s.threads[t];
    match step.action
    case Store(from, to) =>
      if th.pc.StoreBitmap? then
        var view := th.view.(bitmap := to);
        Ok(Put(s, t, th.(pc := ClaimOwn, view := view)).(bitmap := s.bitmap + {Message(from, to, {}, view)}))
      else
        var view := th.view.(info := to);
        Ok(Put(s, t, th.(pc := Holding, view := view)).(info := s.info + {Message(from, to, true, view)}))
    case Update(m, to) =>
      // acquire and release: the view of the message read, then the new timestamp
      var view := Join(th.view, m.view).(bitmap := to);
      var value := if th.pc.Holding? then m.value - th.mask else m.value + th.mask;
      var pc := if th.pc.Holding? then WantClaim else if th.pc.ClaimOwn? then StoreInfo else Holding;
      Ok(Put(s, t, th.(pc := pc, view := view)).(bitmap := s.bitmap + {Message(m.to, to, value, view)}))
    case ReadInfo(m) =>
      var view := th.view.(info := m.to);
      Ok(Put(s, t, th.(pc := if m.value then WantClaim else WantInfo, view := if acquire then Join(view, m.view) else view)))
    case ReadBitmap(m) =>
      if !(th.mask <= m.value) then Stale
      else Ok(Put(s, t, th.(view := th.view.(bitmap := m.to))))
    case Again(mask) => Ok(Put(s, t, th.(mask := mask)))
  }

  const FirstBitmap := Message(0.0, 0.0, {}, Nothing)
  const FirstInfo := Message(0.0, 0.0, false, Nothing)

  /** Thread `p` is about to publish; the others want to claim. */
  predicate Init(s: State, p: ThreadId) {
    && s.bitmap == {FirstBitmap} && s.info == {FirstInfo}
    && p in s.threads && s.threads[p].pc.StoreBitmap? && s.threads[p].view == Nothing
    && forall t | t in s.threads && t != p :: s.threads[t].pc.WantInfo? && s.threads[t].view == Nothing
  }

  ghost predicate IsRun(states: seq<State>, steps: seq<Step>, p: ThreadId, acquire: bool) {
    && |states| == |steps| + 1
    && Init(states[0], p)
    && forall i {:trigger steps[i]} | 0 <= i < |steps| ::
         Enabled(states[i], steps[i]) && Do(states[i], steps[i], acquire) == Ok(states[i + 1])
  }

  // ---------------------------------------------------------------------------------------------
  // The invariant
  // ---------------------------------------------------------------------------------------------

  type Chain = seq<Message<Bits>>

  /** Each message starts where the one before it ends: nothing can come between. */
  ghost predicate Adjacent(chain: Chain) {
    && (forall k | 0 <= k < |chain| :: 0.0 <= chain[k].from < chain[k].to)
    && (forall k | 0 <= k < |chain| - 1 :: chain[k].to == chain[k + 1].from)
  }

  /** The bits are set in every message that a thread with this view may still read. */
  ghost predicate Keeps(chain: Chain, view: View, mask: Bits) {
    forall m | m in chain && view.bitmap <= m.to :: mask <= m.value
  }

  predicate Has(pc: Pc) {
    pc.Holding? || pc.StoreInfo?
  }

  ghost predicate ThreadOk(chain: Chain, th: Thread) {
    && (th.pc.StoreBitmap? ==> chain == [])
    && (th.pc.ClaimOwn? ==> |chain| == 1 && chain[0].value == {})
    && (th.pc.ClaimOwn? || th.pc.StoreInfo? || th.pc.WantClaim? || th.pc.Holding? ==>
          chain != [] && chain[0].to <= th.view.bitmap)
    && (Has(th.pc) ==> th.view.bitmap <= chain[|chain| - 1].to && Keeps(chain, th.view, th.mask))
  }

  /** A thread other than the publisher has seen nothing before `info` was stored. */
  ghost predicate BeforePublish(s: State, p: ThreadId) {
    p in s.threads && (s.threads[p].pc.StoreBitmap? || s.threads[p].pc.ClaimOwn? || s.threads[p].pc.StoreInfo?) ==>
      (forall m | m in s.info :: !m.value) && forall t | t in s.threads && t != p :: s.threads[t].pc.WantInfo?
  }

  ghost predicate OnePublisher(s: State, p: ThreadId) {
    forall t | t in s.threads && t != p ::
      s.threads[t].pc.WantInfo? || s.threads[t].pc.WantClaim? || s.threads[t].pc.Holding?
  }

  ghost predicate Disjoint(s: State) {
    forall t, u | t in s.threads && u in s.threads && t != u && Has(s.threads[t].pc) && Has(s.threads[u].pc) ::
      s.threads[t].mask !! s.threads[u].mask
  }

  ghost predicate Infos(s: State, chain: Chain) {
    forall m | m in s.info && m.value :: chain != [] && chain[0].to <= m.view.bitmap
  }

  ghost predicate Inv(s: State, p: ThreadId, chain: Chain) {
    && (forall m :: m in s.bitmap <==> m == FirstBitmap || m in chain)
    && Adjacent(chain)
    && (forall t | t in s.threads :: ThreadOk(chain, s.threads[t]))
    && BeforePublish(s, p) && OnePublisher(s, p) && Disjoint(s) && Infos(s, chain)
  }

  // ---------------------------------------------------------------------------------------------
  // The chain
  // ---------------------------------------------------------------------------------------------

  lemma {:induction false} Increasing(chain: Chain, i: nat, j: nat)
    requires Adjacent(chain) && i < j < |chain|
    ensures chain[i].to <= chain[j].from < chain[j].to
    decreases j
  {
    if i < j - 1 { Increasing(chain, i, j - 1); }
    assert chain[j - 1].to == chain[j].from;
  }

  /** A thread that knows of the publisher's store can only update the last message. */
  lemma UpdatesLast(s: State, p: ThreadId, chain: Chain, view: View, m: Message<Bits>, to: real)
    requires Inv(s, p, chain) && chain != [] && chain[0].to <= view.bitmap
    requires m in s.bitmap && view.bitmap <= m.to && Vacant(s.bitmap, m.to, to)
    ensures m == chain[|chain| - 1]
  {
    hide ThreadOk, BeforePublish, OnePublisher, Disjoint, Infos;
    assert m in chain;
    var k :| 0 <= k < |chain| && chain[k] == m;
    if k < |chain| - 1 {
      NextTaken(s, p, chain, k);
      assert false;
    }
  }

  lemma NextTaken(s: State, p: ThreadId, chain: Chain, k: nat)
    requires Inv(s, p, chain) && k < |chain| - 1
    ensures exists x :: x in s.bitmap && x.from == chain[k].to < x.to
  {
    hide ThreadOk, BeforePublish, OnePublisher, Disjoint, Infos;
    assert chain[k + 1] in chain;
  }

  lemma Extended(chain: Chain, m: Message<Bits>)
    requires Adjacent(chain) && chain != [] && m.from == chain[|chain| - 1].to < m.to
    ensures Adjacent(chain + [m])
  {
  }

  /** A new last message leaves a holder its bits if it still contains them. */
  lemma StillKeeps(chain: Chain, m: Message<Bits>, th: Thread)
    requires chain != [] && ThreadOk(chain, th) && (Has(th.pc) ==> th.mask <= m.value)
    requires chain[|chain| - 1].to < m.to && !th.pc.ClaimOwn?
    ensures ThreadOk(chain + [m], th)
  {
  }

  lemma HolderInLast(chain: Chain, th: Thread)
    requires ThreadOk(chain, th) && Has(th.pc)
    ensures chain != [] && th.mask <= chain[|chain| - 1].value
  {
  }

  /** The thread that wrote the last message reads only that one. */
  lemma LastKeeps(chain: Chain, m: Message<Bits>, view: View, mask: Bits)
    requires Adjacent(chain + [m]) && view.bitmap == m.to && mask <= m.value
    ensures Keeps(chain + [m], view, mask)
  {
    var all := chain + [m];
    forall x | x in all && view.bitmap <= x.to ensures mask <= x.value {
      var k :| 0 <= k < |all| && all[k] == x;
      if k < |chain| { Increasing(all, k, |chain|); }
    }
  }

  // ---------------------------------------------------------------------------------------------
  // Every step
  // ---------------------------------------------------------------------------------------------

  /** The publisher clears the bitmap. */
  lemma StoreBitmapKeeps(s: State, p: ThreadId, chain: Chain, from: real, to: real)
    requires Inv(s, p, chain) && p in s.threads && s.threads[p].pc.StoreBitmap? && Enabled(s, Step(p, Store(from, to)))
    ensures chain == [] &&
      Inv(Do(s, Step(p, Store(from, to)), true).state, p, [Message(from, to, {}, s.threads[p].view.(bitmap := to))])
  {
    var m := Message(from, to, {}, s.threads[p].view.(bitmap := to));
    assert ThreadOk(chain, s.threads[p]);
    assert chain == [];
    var s' := Do(s, Step(p, Store(from, to)), true).state;
    forall t | t in s'.threads ensures ThreadOk([m], s'.threads[t]) {
      assert ThreadOk(chain, s.threads[t]);
    }
  }

  /** The publisher stores `info`; its release view includes the clearing of the bitmap. */
  lemma StoreInfoKeeps(s: State, p: ThreadId, chain: Chain, from: real, to: real)
    requires Inv(s, p, chain) && p in s.threads && s.threads[p].pc.StoreInfo? && Enabled(s, Step(p, Store(from, to)))
    ensures Inv(Do(s, Step(p, Store(from, to)), true).state, p, chain)
  {
    hide Adjacent;
    assert ThreadOk(chain, s.threads[p]);
    var s' := Do(s, Step(p, Store(from, to)), true).state;
    forall t | t in s'.threads ensures ThreadOk(chain, s'.threads[t]) { assert ThreadOk(chain, s.threads[t]); }
  }

  /** The state after a read-modify-write, and the message it added. */
  function Updated(s: State, t: ThreadId, m: Message<Bits>, to: real): (r: Message<Bits>)
    requires t in s.threads
  {
    var th := s.threads[t];
    Message(m.to, to, if th.pc.Holding? then m.value - th.mask else m.value + th.mask, Join(th.view, m.view).(bitmap := to))
  }

  /** The masks of the other holders are in the new last message too. */
  lemma OthersInUpdated(s: State, p: ThreadId, chain: Chain, t: ThreadId, m: Message<Bits>, to: real, u: ThreadId)
    requires Inv(s, p, chain) && Enabled(s, Step(t, Update(m, to))) && u in s.threads && u != t && Has(s.threads[u].pc)
    ensures chain != [] && chain[0].to <= s.threads[t].view.bitmap && m == chain[|chain| - 1]
    ensures s.threads[u].mask <= Updated(s, t, m, to).value
    ensures !s.threads[t].pc.ClaimOwn? && !s.threads[u].pc.ClaimOwn?
  {
    hide Adjacent, Infos;
    var th := s.threads[t];
    assert ThreadOk(chain, th) && ThreadOk(chain, s.threads[u]);
    assert t == p || !th.pc.ClaimOwn?;
    UpdatesLast(s, p, chain, th.view, m, to);
    HolderInLast(chain, s.threads[u]);
  }

  lemma UpdateKeeps(s: State, p: ThreadId, chain: Chain, t: ThreadId, m: Message<Bits>, to: real)
    requires Inv(s, p, chain) && Enabled(s, Step(t, Update(m, to)))
    ensures Inv(Do(s, Step(t, Update(m, to)), true).state, p, chain + [Updated(s, t, m, to)])
  {
    hide Adjacent, Keeps, Vacant;
    var th, added := s.threads[t], Updated(s, t, m, to);
    var s' := Do(s, Step(t, Update(m, to)), true).state;
    assert ThreadOk(chain, th);
    UpdatesLast(s, p, chain, th.view, m, to);
    assert m.to < to by { VacantOrder(s.bitmap, m.to, to); }
    Extended(chain, added);
    LastKeeps(chain, added, added.view, th.mask * added.value);
    forall u | u in s'.threads ensures ThreadOk(chain + [added], s'.threads[u]) {
      assert ThreadOk(chain, s.threads[u]);
      if u != t {
        if Has(s.threads[u].pc) { OthersInUpdated(s, p, chain, t, m, to, u); }
        assert !s.threads[u].pc.ClaimOwn?;
        StillKeeps(chain, added, s.threads[u]);
      } else {
        assert th.mask * added.value == th.mask || th.pc.Holding?;
      }
    }
    forall u, v | u in s'.threads && v in s'.threads && u != v && Has(s'.threads[u].pc) && Has(s'.threads[v].pc)
      ensures s'.threads[u].mask !! s'.threads[v].mask
    {
      if u == t { NewDisjoint(s, p, chain, t, m, to, v); }
      if v == t { NewDisjoint(s, p, chain, t, m, to, u); }
    }
  }

  lemma VacantOrder(messages: set<Message<Bits>>, from: real, to: real)
    requires Vacant(messages, from, to)
    ensures from < to
  {
  }

  lemma NewDisjoint(s: State, p: ThreadId, chain: Chain, t: ThreadId, m: Message<Bits>, to: real, u: ThreadId)
    requires Inv(s, p, chain) && Enabled(s, Step(t, Update(m, to))) && u in s.threads && u != t && Has(s.threads[u].pc)
    requires !s.threads[t].pc.Holding?
    ensures s.threads[t].mask !! s.threads[u].mask
  {
    hide Adjacent, Keeps, Vacant;
    OthersInUpdated(s, p, chain, t, m, to, u);
    HolderInLast(chain, s.threads[u]);
  }

  lemma ReadKeeps(s: State, p: ThreadId, chain: Chain, step: Step)
    requires Inv(s, p, chain) && Enabled(s, step) && !step.action.Store? && !step.action.Update?
    ensures Do(s, step, true).Ok? && Inv(Do(s, step, true).state, p, chain)
  {
    hide Adjacent, Vacant;
    var t := step.thread;
    assert ThreadOk(chain, s.threads[t]);
    if step.action.ReadBitmap? { Readable(s, p, chain, t, step.action.read); }
    var s' := Do(s, step, true).state;
    forall u | u in s'.threads ensures ThreadOk(chain, s'.threads[u]) { assert ThreadOk(chain, s.threads[u]); }
  }

  /** What a holder can read is in the chain, and has its bits. */
  lemma Readable(s: State, p: ThreadId, chain: Chain, t: ThreadId, m: Message<Bits>)
    requires Inv(s, p, chain) && t in s.threads && s.threads[t].pc.Holding?
    requires m in s.bitmap && s.threads[t].view.bitmap <= m.to
    ensures m in chain && s.threads[t].mask <= m.value && m.to <= chain[|chain| - 1].to
  {
    assert ThreadOk(chain, s.threads[t]);
    assert m in chain;
    var k :| 0 <= k < |chain| && chain[k] == m;
    if k < |chain| - 1 { Increasing(chain, k, |chain| - 1); }
  }

  lemma StepKeeps(s: State, p: ThreadId, chain: Chain, step: Step) returns (chain': Chain)
    requires Inv(s, p, chain) && Enabled(s, step)
    ensures Do(s, step, true).Ok? && Inv(Do(s, step, true).state, p, chain')
  {
    match step.action
    case Store(from, to) =>
      assert step == Step(p, Store(from, to));
      if s.threads[p].pc.StoreBitmap? {
        chain' := [Message(from, to, {}, s.threads[p].view.(bitmap := to))];
        StoreBitmapKeeps(s, p, chain, from, to);
      } else {
        chain' := chain;
        StoreInfoKeeps(s, p, chain, from, to);
      }
    case Update(m, to) =>
      chain' := chain + [Updated(s, step.thread, m, to)];
      UpdateKeeps(s, p, chain, step.thread, m, to);
    case _ =>
      chain' := chain;
      ReadKeeps(s, p, chain, step);
  }

  // ---------------------------------------------------------------------------------------------
  // Every run with acquire, and a stale run without
  // ---------------------------------------------------------------------------------------------

  /** The state after a run. */
  function Last(states: seq<State>): State
    requires states != []
  {
    states[|states| - 1]
  }

  lemma {:induction false} RunInvariant(states: seq<State>, steps: seq<Step>, p: ThreadId) returns (chain: Chain)
    requires IsRun(states, steps, p, true)
    ensures states != [] && Inv(Last(states), p, chain)
    decreases |steps|
  {
    hide Inv, Enabled, Do;
    if steps == [] {
      chain := [];
      InitHolds(states[0], p);
    } else {
      var n := |steps| - 1;
      var before := RunInvariant(states[..n + 1], steps[..n], p);
      assert Enabled(states[n], steps[n]);
      chain := StepKeeps(states[n], p, before, steps[n]);
    }
  }

  lemma InitHolds(s: State, p: ThreadId)
    requires Init(s, p)
    ensures Inv(s, p, [])
  {
  }

  /**
   With an acquire read of `info`, every thread that won its compare-and-swap sees its own bits in
   everything it may read, until it unclaims them.
   */
  lemma OwnBitsSeen(states: seq<State>, steps: seq<Step>, p: ThreadId, t: ThreadId, m: Message<Bits>)
    requires IsRun(states, steps, p, true) && t in Last(states).threads && Last(states).threads[t].pc.Holding?
    requires m in Last(states).bitmap && Last(states).threads[t].view.bitmap <= m.to
    ensures Last(states).threads[t].mask <= m.value
  {
    hide Inv, IsRun;
    var chain := RunInvariant(states, steps, p);
    Readable(Last(states), p, chain, t, m);
  }

  /** No step of such a run is stale. */
  lemma NeverStale(states: seq<State>, steps: seq<Step>, p: ThreadId, step: Step)
    requires IsRun(states, steps, p, true) && Enabled(Last(states), step)
    ensures Do(Last(states), step, true).Ok?
  {
    hide Inv, IsRun, Enabled, Do;
    var chain := RunInvariant(states, steps, p);
    var chain' := StepKeeps(Last(states), p, chain, step);
  }

  /** Threads that hold bits at the same time hold different ones. */
  lemma HoldersDisjoint(states: seq<State>, steps: seq<Step>, p: ThreadId, t: ThreadId, u: ThreadId)
    requires IsRun(states, steps, p, true) && t in Last(states).threads && u in Last(states).threads && t != u
    requires Last(states).threads[t].pc.Holding? && Last(states).threads[u].pc.Holding?
    ensures Last(states).threads[t].mask !! Last(states).threads[u].mask
  {
    hide IsRun, Adjacent, ThreadOk;
    var chain := RunInvariant(states, steps, p);
  }

  /**
   With a relaxed read of `info`, a run exists in which a thread wins its compare-and-swap on the
   initial bitmap, which comes before the publisher's store, and then reads the store.
   */
  lemma StaleRun() returns (states: seq<State>, steps: seq<Step>, step: Step)
    ensures IsRun(states, steps, 0, false) && Enabled(Last(states), step) && Do(Last(states), step, false) == Stale
  {
    hide Enabled, Do, Init;
    var s0 := State({FirstBitmap}, {FirstInfo}, map[0 := Thread(StoreBitmap, Nothing, {1}), 1 := Thread(WantInfo, Nothing, {0})]);
    var clear := Message(2.0, 3.0, {}, View(3.0, 0.0));
    var own := Message(3.0, 4.0, {1}, View(4.0, 0.0));
    var shown := Message(0.0, 1.0, true, View(4.0, 1.0));
    var s1 := State({FirstBitmap, clear}, {FirstInfo}, map[0 := Thread(ClaimOwn, View(3.0, 0.0), {1}), 1 := s0.threads[1]]);
    var s2 := State({FirstBitmap, clear, own}, {FirstInfo}, map[0 := Thread(StoreInfo, View(4.0, 0.0), {1}), 1 := s0.threads[1]]);
    var s3 := State(s2.bitmap, {FirstInfo, shown}, map[0 := Thread(Holding, View(4.0, 1.0), {1}), 1 := s0.threads[1]]);
    var s4 := State(s2.bitmap, s3.info, map[0 := s3.threads[0], 1 := Thread(WantClaim, View(0.0, 1.0), {0})]);
    StaleInit(s0);
    StaleStart(s0, s1, s2, clear, own);
    StalePublish(s2, s3, s4, shown);
    var s5 := StaleClaim(s4, clear, own);
    states := [s0, s1, s2, s3, s4, s5];
    steps := [Step(0, Store(2.0, 3.0)), Step(0, Update(clear, 4.0)), Step(0, Store(0.0, 1.0)),
              Step(1, ReadInfo(shown)), Step(1, Update(FirstBitmap, 1.0))];
    step := Step(1, ReadBitmap(own));
  }

  lemma StaleInit(s0: State)
    requires s0 == State({FirstBitmap}, {FirstInfo},
                         map[0 := Thread(StoreBitmap, Nothing, {1}), 1 := Thread(WantInfo, Nothing, {0})])
    ensures Init(s0, 0)
  {
  }

  /** The claimer updates the initial bitmap, and may then read the publisher's message. */
  lemma StaleClaim(s4: State, clear: Message<Bits>, own: Message<Bits>) returns (s5: State)
    requires clear == Message(2.0, 3.0, {}, View(3.0, 0.0)) && own == Message(3.0, 4.0, {1}, View(4.0, 0.0))
    requires s4.bitmap == {FirstBitmap, clear, own} && 0 in s4.threads
    requires s4.threads == map[0 := s4.threads[0], 1 := Thread(WantClaim, View(0.0, 1.0), {0})]
    ensures Enabled(s4, Step(1, Update(FirstBitmap, 1.0))) && Do(s4, Step(1, Update(FirstBitmap, 1.0)), false) == Ok(s5)
    ensures Enabled(s5, Step(1, ReadBitmap(own))) && Do(s5, Step(1, ReadBitmap(own)), false) == Stale
  {
    s5 := Do(s4, Step(1, Update(FirstBitmap, 1.0)), false).state;
    assert own in s5.bitmap;
  }

  /** The publisher clears the bitmap and claims its own bit. */
  lemma StaleStart(s0: State, s1: State, s2: State, clear: Message<Bits>, own: Message<Bits>)
    requires clear == Message(2.0, 3.0, {}, View(3.0, 0.0)) && own == Message(3.0, 4.0, {1}, View(4.0, 0.0))
    requires 1 in s0.threads
    requires s0 == State({FirstBitmap}, {FirstInfo}, map[0 := Thread(StoreBitmap, Nothing, {1}), 1 := s0.threads[1]])
    requires s1 == State({FirstBitmap, clear}, {FirstInfo}, map[0 := Thread(ClaimOwn, View(3.0, 0.0), {1}), 1 := s0.threads[1]])
    requires s2 == State({FirstBitmap, clear, own}, {FirstInfo},
                         map[0 := Thread(StoreInfo, View(4.0, 0.0), {1}), 1 := s0.threads[1]])
    ensures Enabled(s0, Step(0, Store(2.0, 3.0))) && Do(s0, Step(0, Store(2.0, 3.0)), false) == Ok(s1)
    ensures Enabled(s1, Step(0, Update(clear, 4.0))) && Do(s1, Step(0, Update(clear, 4.0)), false) == Ok(s2)
  {
    assert clear.value + {1} == {1};
    assert s0.bitmap + {clear} == s1.bitmap;
    assert s1.bitmap + {own} == s2.bitmap;
    assert s0.threads[0 := s1.threads[0]] == s1.threads;
    assert s1.threads[0 := s2.threads[0]] == s2.threads;
  }

  /** The publisher stores `info`, and the claimer reads it with relaxed order. */
  lemma StalePublish(s2: State, s3: State, s4: State, shown: Message<bool>)
    requires shown == Message(0.0, 1.0, true, View(4.0, 1.0)) && s2.info == {FirstInfo}
    requires s2.threads == map[0 := Thread(StoreInfo, View(4.0, 0.0), {1}), 1 := Thread(WantInfo, Nothing, {0})]
    requires s3 == State(s2.bitmap, {FirstInfo, shown}, map[0 := Thread(Holding, View(4.0, 1.0), {1}), 1 := s2.threads[1]])
    requires s4 == State(s2.bitmap, s3.info, map[0 := s3.threads[0], 1 := Thread(WantClaim, View(0.0, 1.0), {0})])
    ensures Enabled(s2, Step(0, Store(0.0, 1.0))) && Do(s2, Step(0, Store(0.0, 1.0)), false) == Ok(s3)
    ensures Enabled(s3, Step(1, ReadInfo(shown))) && Do(s3, Step(1, ReadInfo(shown)), false) == Ok(s4)
  {
    assert s2.info + {shown} == s3.info;
    assert s2.threads[0 := s3.threads[0]] == s3.threads;
    assert s3.threads[1 := s4.threads[1]] == s4.threads;
  }
}
