/**
 What publishing, claiming and unclaiming do in release/acquire memory when no other thread moves: bits can be
 claimed exactly if they are free in the last message, and unclaiming gives them back.
 */
module PublicationAlone {
  import opened Publication

  // ---------------------------------------------------------------------------------------------
  // No view is ahead of the bitmap
  // ---------------------------------------------------------------------------------------------

  ghost predicate Below(bitmap: set<Message<Bits>>, view: View) {
    exists m :: m in bitmap && view.bitmap <= m.to
  }

  ghost predicate AllBelow(s: State) {
    && (forall t | t in s.threads :: Below(s.bitmap, s.threads[t].view))
    && (forall m | m in s.bitmap :: Below(s.bitmap, m.view))
    && (forall m | m in s.info :: Below(s.bitmap, m.view))
  }

  lemma BelowMore(bitmap: set<Message<Bits>>, bitmap': set<Message<Bits>>, view: View)
    requires Below(bitmap, view) && bitmap <= bitmap'
    ensures Below(bitmap', view)
  {
    var m :| m in bitmap && view.bitmap <= m.to;
    assert m in bitmap';
  }

  lemma BelowJoin(bitmap: set<Message<Bits>>, v: View, w: View)
    requires Below(bitmap, v) && Below(bitmap, w)
    ensures Below(bitmap, Join(v, w))
  {
  }

  lemma BelowInfo(bitmap: set<Message<Bits>>, view: View, to: real)
    requires Below(bitmap, view)
    ensures Below(bitmap, view.(info := to))
  {
  }

  lemma StepBelow(s: State, step: Step, acquire: bool)
    requires AllBelow(s) && Enabled(s, step) && Do(s, step, acquire).Ok?
    ensures AllBelow(Do(s, step, acquire).state)
  {
    hide Below, Vacant;
    var s', t := Do(s, step, acquire).state, step.thread;
    StepView(s, step, acquire);
    forall u | u in s'.threads ensures Below(s'.bitmap, s'.threads[u].view) {
      if u != t { BelowMore(s.bitmap, s'.bitmap, s.threads[u].view); }
    }
    forall m | m in s'.bitmap ensures Below(s'.bitmap, m.view) {
      if m in s.bitmap { BelowMore(s.bitmap, s'.bitmap, m.view); }
    }
    forall m | m in s'.info ensures Below(s'.bitmap, m.view) {
      if m in s.info { BelowMore(s.bitmap, s'.bitmap, m.view); }
    }
  }

  /** What a step adds is not ahead of the bitmap. */
  ghost predicate AddsBelow(s: State, s': State, t: ThreadId) {
    && s.bitmap <= s'.bitmap && s.info <= s'.info && t in s'.threads && s'.threads == s.threads[t := s'.threads[t]]
    && Below(s'.bitmap, s'.threads[t].view)
    && (forall m | m in s'.bitmap && m !in s.bitmap :: Below(s'.bitmap, m.view))
    && (forall m | m in s'.info && m !in s.info :: Below(s'.bitmap, m.view))
  }

  lemma AddedMessage(s: State, s': State, t: ThreadId, m: Message<Bits>)
    requires s'.bitmap == s.bitmap + {m} && s'.info == s.info && m.view.bitmap == m.to
    requires t in s'.threads && s'.threads == s.threads[t := s'.threads[t]] && s'.threads[t].view == m.view
    ensures AddsBelow(s, s', t)
  {
    assert m in s'.bitmap;
  }

  lemma StoredInfo(s: State, s': State, t: ThreadId, m: Message<bool>)
    requires s'.bitmap == s.bitmap && s'.info == s.info + {m} && Below(s.bitmap, m.view)
    requires t in s'.threads && s'.threads == s.threads[t := s'.threads[t]] && s'.threads[t].view == m.view
    ensures AddsBelow(s, s', t)
  {
  }

  lemma StepView(s: State, step: Step, acquire: bool)
    requires AllBelow(s) && Enabled(s, step) && Do(s, step, acquire).Ok?
    ensures AddsBelow(s, Do(s, step, acquire).state, step.thread)
  {
    hide AddsBelow, Below, Vacant;
    var s', t := Do(s, step, acquire).state, step.thread;
    match step.action
    case Update(m, to) => AddedMessage(s, s', t, Updated(s, t, m, to));
    case Store(from, to) =>
      var th := s.threads[t];
      if th.pc.StoreBitmap? {
        AddedMessage(s, s', t, Message(from, to, {}, th.view.(bitmap := to)));
      } else {
        BelowInfo(s.bitmap, th.view, to);
        StoredInfo(s, s', t, Message(from, to, true, th.view.(info := to)));
      }
    case _ => ReadView(s, step, acquire);
  }

  lemma ReadView(s: State, step: Step, acquire: bool)
    requires AllBelow(s) && Enabled(s, step) && Do(s, step, acquire).Ok? && !step.action.Update? && !step.action.Store?
    ensures AddsBelow(s, Do(s, step, acquire).state, step.thread)
  {
    hide Below, Vacant;
    var t := step.thread;
    match step.action
    case ReadInfo(m) =>
      BelowInfo(s.bitmap, s.threads[t].view, m.to);
      BelowJoin(s.bitmap, s.threads[t].view.(info := m.to), m.view);
    case ReadBitmap(m) => BelowAt(s.bitmap, s.threads[t].view.(bitmap := m.to), m);
    case Again(_) =>
  }

  lemma BelowAt(bitmap: set<Message<Bits>>, view: View, m: Message<Bits>)
    requires m in bitmap && view.bitmap <= m.to
    ensures Below(bitmap, view)
  {
  }

  lemma {:induction false} RunBelow(states: seq<State>, steps: seq<Step>, p: ThreadId, acquire: bool)
    requires IsRun(states, steps, p, acquire)
    ensures AllBelow(Last(states))
    decreases |steps|
  {
    hide Enabled, Do, AllBelow;
    if steps == [] {
      InitBelow(states[0], p);
    } else {
      var n := |steps| - 1;
      RunBelow(states[..n + 1], steps[..n], p, acquire);
      StepBelow(states[n], steps[n], acquire);
    }
  }

  lemma InitBelow(s: State, p: ThreadId)
    requires Init(s, p)
    ensures AllBelow(s)
  {
    assert FirstBitmap in s.bitmap;
  }

  // ---------------------------------------------------------------------------------------------
  // Claiming and unclaiming
  // ---------------------------------------------------------------------------------------------

  /** The message that ends last. */
  predicate Latest(s: State, m: Message<Bits>) {
    m in s.bitmap && forall x | x in s.bitmap :: x.to <= m.to && x.from <= x.to
  }

  lemma ChainLatest(s: State, p: ThreadId, chain: Chain)
    requires Inv(s, p, chain) && chain != []
    ensures Latest(s, chain[|chain| - 1])
  {
    hide ThreadOk, BeforePublish, OnePublisher, Disjoint, Infos;
    var last := chain[|chain| - 1];
    assert last in chain;
    forall x | x in s.bitmap ensures x.to <= last.to && x.from <= x.to {
      if x in chain {
        var k :| 0 <= k < |chain| && chain[k] == x;
        if k < |chain| - 1 { Increasing(chain, k, |chain| - 1); }
      }
    }
  }

  /** A read-modify-write of the last message may take any interval after it. */
  lemma AfterLatest(s: State, m: Message<Bits>, to: real)
    requires Latest(s, m) && 0.0 <= m.to < to
    ensures Vacant(s.bitmap, m.to, to)
  {
  }

  /** The state after a read-modify-write. */
  function Swapped(s: State, t: ThreadId, m: Message<Bits>, to: real, value: Bits, pc: Pc): State
    requires t in s.threads
  {
    var view := Join(s.threads[t].view, m.view).(bitmap := to);
    s.(threads := s.threads[t := Thread(pc, view, s.threads[t].mask)], bitmap := s.bitmap + {Message(m.to, to, value, view)})
  }

  lemma SwappedLatest(s: State, t: ThreadId, m: Message<Bits>, to: real, value: Bits, pc: Pc) returns (m': Message<Bits>)
    requires t in s.threads && Latest(s, m) && m.to < to
    ensures m' == Message(m.to, to, value, Join(s.threads[t].view, m.view).(bitmap := to))
    ensures Latest(Swapped(s, t, m, to, value, pc), m')
  {
    m' := Message(m.to, to, value, Join(s.threads[t].view, m.view).(bitmap := to));
  }

  /**
   A thread that has seen the publication can claim its bits exactly if they are free in the last message; the
   message that it adds has them besides, it then reads them, and unclaiming adds one without them again.
   */
  lemma ClaimIff(states: seq<State>, steps: seq<Step>, p: ThreadId, t: ThreadId) returns (m: Message<Bits>)
    requires IsRun(states, steps, p, true) && t in Last(states).threads && Last(states).threads[t].pc.WantClaim?
    ensures var s := Last(states); Latest(s, m)
    ensures var s := Last(states); var mask := s.threads[t].mask;
      (exists x, to :: Enabled(s, Step(t, Update(x, to)))) <==> mask !! m.value
    ensures var s := Last(states); var mask := s.threads[t].mask;
      mask !! m.value ==> forall to | to > m.to ::
        && Enabled(s, Step(t, Update(m, to)))
        && Do(s, Step(t, Update(m, to)), true) == Ok(Swapped(s, t, m, to, m.value + mask, Holding))
        && ClaimedAndFreed(Swapped(s, t, m, to, m.value + mask, Holding), t, m.value, mask, to)
  {
    hide Init, Enabled, Do, Inv, Latest, Vacant, AllBelow;
    var s := Last(states);
    var mask := s.threads[t].mask;
    var chain := RunInvariant(states, steps, p);
    RunBelow(states, steps, p, true);
    ChainThere(s, p, chain, t);
    m := chain[|chain| - 1];
    ChainLatest(s, p, chain);
    if x, to :| Enabled(s, Step(t, Update(x, to))) {
      OnlyLatest(s, p, chain, t, x, to);
    }
    if mask !! m.value {
      forall to | to > m.to
        ensures Enabled(s, Step(t, Update(m, to)))
        ensures Do(s, Step(t, Update(m, to)), true) == Ok(Swapped(s, t, m, to, m.value + mask, Holding))
        ensures ClaimedAndFreed(Swapped(s, t, m, to, m.value + mask, Holding), t, m.value, mask, to)
      {
        LatestAhead(s, m, t);
        CanClaim(s, t, m, to);
        var m' := SwappedLatest(s, t, m, to, m.value + mask, Holding);
        CanFree(Swapped(s, t, m, to, m.value + mask, Holding), t, m', m.value, mask);
      }
      assert Enabled(s, Step(t, Update(m, m.to + 1.0)));
    }
  }

  /** A holder reads its bits in the last message, and unclaims them: then the value is `value`. */
  ghost predicate ClaimedAndFreed(s: State, t: ThreadId, value: Bits, mask: Bits, to: real) {
    t in s.threads && exists m ::
      && Latest(s, m) && m.to == to && m.value == value + mask
      && Enabled(s, Step(t, ReadBitmap(m))) && Do(s, Step(t, ReadBitmap(m)), true).Ok?
      && forall to' | to' > to ::
           && Enabled(s, Step(t, Update(m, to')))
           && Do(s, Step(t, Update(m, to')), true) == Ok(Swapped(s, t, m, to', value, WantClaim))
  }

  lemma ChainThere(s: State, p: ThreadId, chain: Chain, t: ThreadId)
    requires Inv(s, p, chain) && t in s.threads && s.threads[t].pc.WantClaim?
    ensures chain != [] && chain[0].to <= s.threads[t].view.bitmap && 0.0 <= chain[|chain| - 1].to
  {
    assert ThreadOk(chain, s.threads[t]);
  }

  lemma OnlyLatest(s: State, p: ThreadId, chain: Chain, t: ThreadId, x: Message<Bits>, to: real)
    requires Inv(s, p, chain) && t in s.threads && s.threads[t].pc.WantClaim? && Enabled(s, Step(t, Update(x, to)))
    requires chain != [] && chain[0].to <= s.threads[t].view.bitmap
    ensures x == chain[|chain| - 1] && s.threads[t].mask !! x.value
  {
    hide Inv, Vacant;
    UpdatesLast(s, p, chain, s.threads[t].view, x, to);
  }

  lemma LatestAhead(s: State, m: Message<Bits>, t: ThreadId)
    requires AllBelow(s) && Latest(s, m) && t in s.threads
    ensures s.threads[t].view.bitmap <= m.to
  {
    assert Below(s.bitmap, s.threads[t].view);
  }

  lemma CanClaim(s: State, t: ThreadId, m: Message<Bits>, to: real)
    requires t in s.threads && s.threads[t].pc.WantClaim? && s.threads[t].mask !! m.value && Latest(s, m) && 0.0 <= m.to < to
    requires s.threads[t].view.bitmap <= m.to
    ensures Enabled(s, Step(t, Update(m, to)))
    ensures Do(s, Step(t, Update(m, to)), true) == Ok(Swapped(s, t, m, to, m.value + s.threads[t].mask, Holding))
  {
    hide Vacant;
    AfterLatest(s, m, to);
  }

  lemma CanFree(s: State, t: ThreadId, m: Message<Bits>, value: Bits, mask: Bits)
    requires t in s.threads && s.threads[t].pc.Holding? && s.threads[t].mask == mask && s.threads[t].view.bitmap == m.to
    requires Latest(s, m) && m.value == value + mask && mask !! value && 0.0 <= m.to
    ensures ClaimedAndFreed(s, t, value, mask, m.to)
  {
    hide Vacant;
    assert m.value - mask == value;
    forall to | to > m.to
      ensures Enabled(s, Step(t, Update(m, to)))
      ensures Do(s, Step(t, Update(m, to)), true) == Ok(Swapped(s, t, m, to, value, WantClaim))
    {
      AfterLatest(s, m, to);
    }
  }

  // ---------------------------------------------------------------------------------------------
  // Publishing
  // ---------------------------------------------------------------------------------------------

  /**
   The publisher clears the bitmap, claims its bits and stores `info`; a thread that then reads `info` wants to
   claim, and can read no message of the bitmap from before the publication.
   */
  lemma PublishAlone(s: State, p: ThreadId, t: ThreadId) returns (s3: State, shown: Message<bool>)
    requires Init(s, p) && t in s.threads && t != p
    ensures
      var own := Message(1.0, 2.0, s.threads[p].mask, View(2.0, 0.0));
      && p in s3.threads && s3.threads[p] == Thread(Holding, View(2.0, 1.0), s.threads[p].mask)
      && s3.bitmap == {FirstBitmap, Message(0.0, 1.0, {}, View(1.0, 0.0)), own} && s3.info == {FirstInfo, shown} && shown.value
      && Perform(s, [Step(p, Store(0.0, 1.0)), Step(p, Update(Message(0.0, 1.0, {}, View(1.0, 0.0)), 2.0)),
                     Step(p, Store(0.0, 1.0))]) == Ok(s3)
      && t in s3.threads && Enabled(s3, Step(t, ReadInfo(shown))) && Do(s3, Step(t, ReadInfo(shown)), true).Ok?
      && var th := Do(s3, Step(t, ReadInfo(shown)), true).state.threads[t];
         th.pc == WantClaim && th.mask == s.threads[t].mask && forall m | m in s3.bitmap && th.view.bitmap <= m.to :: m == own
  {
    var mask := s.threads[p].mask;
    var clear, own := Message(0.0, 1.0, {}, View(1.0, 0.0)), Message(1.0, 2.0, mask, View(2.0, 0.0));
    shown := Message(0.0, 1.0, true, View(2.0, 1.0));
    var s1 := State({FirstBitmap, clear}, {FirstInfo}, s.threads[p := Thread(ClaimOwn, View(1.0, 0.0), mask)]);
    var s2 := State({FirstBitmap, clear, own}, {FirstInfo}, s.threads[p := Thread(StoreInfo, View(2.0, 0.0), mask)]);
    s3 := State(s2.bitmap, {FirstInfo, shown}, s.threads[p := Thread(Holding, View(2.0, 1.0), mask)]);
    FirstSteps(s, s1, s2, p, clear, own);
    LastStep(s, s2, s3, p, shown);
    PerformThree(s, s1, s2, s3, Step(p, Store(0.0, 1.0)), Step(p, Update(clear, 2.0)), Step(p, Store(0.0, 1.0)));
  }

  /** The steps one after the other, with nothing in between. */
  function Perform(s: State, steps: seq<Step>): Outcome
    decreases |steps|
  {
    if steps == [] then Ok(s)
    else if !Enabled(s, steps[0]) then Stale
    else
      match Do(s, steps[0], true)
      case Stale => Stale
      case Ok(s') => Perform(s', steps[1..])
  }

  lemma PerformThree(s: State, s1: State, s2: State, s3: State, a: Step, b: Step, c: Step)
    requires Enabled(s, a) && Do(s, a, true) == Ok(s1) && Enabled(s1, b) && Do(s1, b, true) == Ok(s2)
    requires Enabled(s2, c) && Do(s2, c, true) == Ok(s3)
    ensures Perform(s, [a, b, c]) == Ok(s3)
  {
    hide Enabled, Do;
    assert [a, b, c][1..] == [b, c] && [b, c][1..] == [c] && [c][1..] == [];
    assert Perform(s3, []) == Ok(s3);
    assert Perform(s2, [c]) == Ok(s3);
    assert Perform(s1, [b, c]) == Ok(s3);
  }

  lemma FirstSteps(s: State, s1: State, s2: State, p: ThreadId, clear: Message<Bits>, own: Message<Bits>)
    requires Init(s, p)
    requires clear == Message(0.0, 1.0, {}, View(1.0, 0.0)) && own == Message(1.0, 2.0, s.threads[p].mask, View(2.0, 0.0))
    requires s1 == State({FirstBitmap, clear}, {FirstInfo}, s.threads[p := Thread(ClaimOwn, View(1.0, 0.0), s.threads[p].mask)])
    requires s2 == State({FirstBitmap, clear, own}, {FirstInfo},
                         s.threads[p := Thread(StoreInfo, View(2.0, 0.0), s.threads[p].mask)])
    ensures Enabled(s, Step(p, Store(0.0, 1.0))) && Do(s, Step(p, Store(0.0, 1.0)), true) == Ok(s1)
    ensures Enabled(s1, Step(p, Update(clear, 2.0))) && Do(s1, Step(p, Update(clear, 2.0)), true) == Ok(s2)
  {
    assert s.bitmap + {clear} == s1.bitmap && s1.bitmap + {own} == s2.bitmap;
    assert {} + s.threads[p].mask == s.threads[p].mask;
    assert s1.threads[p := s2.threads[p]] == s2.threads;
  }

  lemma LastStep(s: State, s2: State, s3: State, p: ThreadId, shown: Message<bool>)
    requires Init(s, p) && shown == Message(0.0, 1.0, true, View(2.0, 1.0)) && s2.info == {FirstInfo}
    requires s2.threads == s.threads[p := Thread(StoreInfo, View(2.0, 0.0), s.threads[p].mask)]
    requires s3 == State(s2.bitmap, {FirstInfo, shown}, s.threads[p := Thread(Holding, View(2.0, 1.0), s.threads[p].mask)])
    ensures Enabled(s2, Step(p, Store(0.0, 1.0))) && Do(s2, Step(p, Store(0.0, 1.0)), true) == Ok(s3)
  {
    assert s2.info + {shown} == s3.info;
    assert s2.threads[p := s3.threads[p]] == s3.threads;
  }
}
