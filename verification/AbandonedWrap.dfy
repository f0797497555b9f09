/**
 Why the theorems about the abandoned lists speak of timely runs: with MI_SEGMENT_SIZE updates in one
 window of a pop the tag comes round, and the pop puts back a segment that another thread holds.
 */
module AbandonedWrap {
  import opened AbandonedLists
  import opened AbandonedInvariant

  ghost predicate Reachable(s: State) {
    exists states, steps :: IsRun(states, steps) && states[|steps|] == s
  }

  lemma Reach(s: State, t: ThreadId, c: Choice, s': State)
    requires Reachable(s) && Enabled(s, t, c) && Do(s, t, c) == Ok(s')
    ensures Reachable(s')
  {
    hide Enabled, Do, Init;
    var states, steps :| IsRun(states, steps) && states[|steps|] == s;
    assert IsRun(states + [s'], steps + [Step(t, c)]);
  }

  /** A thread that is idle, with the segment in its hands. */
  predicate Holding(s: State, t: ThreadId, x: Segment) {
    t in s.threads && s.threads[t].pc.Idle? && x in s.threads[t].segs && x in s.next
  }

  /** The state after a whole push. */
  function Pushed(s: State, t: ThreadId, x: Segment): State
    requires t in s.threads
  {
    s.(threads := s.threads[t := Thread(Idle, s.threads[t].segs - {x})], next := s.next[x := Ptr(s.abandoned)],
       abandoned := Tagged(x, s.abandoned), updates := s.updates + 1)
  }

  lemma ReachPush(s: State, t: ThreadId, x: Segment)
    requires Reachable(s) && Holding(s, t, x)
    ensures Reachable(Pushed(s, t, x))
  {
    hide Reachable, Ptr, Tagged;
    var s1 := Put(s, t, PushRead(x)).(next := s.next[x := NULL]);
    var s2 := Put(s, t, PushLink(x, s.abandoned)).(next := s.next[x := NULL]);
    var s3 := Put(s, t, PushCas(x, s.abandoned)).(next := s.next[x := Ptr(s.abandoned)]);
    Reach(s, t, Abandon(x), s1);
    PutTwice(s, t, PushRead(x), PushLink(x, s.abandoned));
    Reach(s1, t, Go(true), s2);
    PutTwice(s, t, PushLink(x, s.abandoned), PushCas(x, s.abandoned));
    assert s.next[x := NULL][x := Ptr(s.abandoned)] == s.next[x := Ptr(s.abandoned)];
    Reach(s2, t, Go(true), s3);
    assert s3.threads[t := Thread(Idle, s.threads[t].segs - {x})] == Pushed(s, t, x).threads;
    Reach(s3, t, Go(true), Pushed(s, t, x));
  }

  lemma PutTwice(s: State, t: ThreadId, a: Pc, b: Pc)
    requires t in s.threads
    ensures Put(s, t, a).threads[t := Put(s, t, a).threads[t].(pc := b)] == Put(s, t, b).threads
  {
  }

  /** The state after a whole pop of a non-empty list. */
  function PoppedOne(s: State, t: ThreadId): State
    requires t in s.threads && Ptr(s.abandoned) in s.next
  {
    var x := Ptr(s.abandoned);
    s.(threads := s.threads[t := Thread(Idle, s.threads[t].segs + {x})], next := s.next[x := NULL],
       abandoned := Tagged(s.next[x], s.abandoned), updates := s.updates + 1)
  }

  /** A popper that has read the word and the link, and is about to compare and swap. */
  function Popping(s: State, t: ThreadId): State
    requires t in s.threads && Ptr(s.abandoned) in s.next
  {
    Put(s, t, PopCas(s.abandoned, s.updates, Tagged(s.next[Ptr(s.abandoned)], s.abandoned))).(readers := s.readers + 1)
  }

  lemma ReachPopping(s: State, t: ThreadId)
    requires Reachable(s) && t in s.threads && s.threads[t].pc.Idle?
    requires Ptr(s.abandoned) in s.next && Ptr(s.abandoned) != NULL
    ensures Reachable(Popping(s, t))
  {
    hide Reachable, Ptr, Tagged;
    var r := s.(readers := s.readers + 1);
    Reach(s, t, Pop, Put(s, t, Peek));
    PutTwice(s, t, Peek, Enter);
    Reach(Put(s, t, Peek), t, Go(true), Put(s, t, Enter));
    PutTwice(s, t, Enter, PopRead);
    Reach(Put(s, t, Enter), t, Go(true), Put(r, t, PopRead));
    PutTwice(r, t, PopRead, PopNext(s.abandoned, s.updates));
    Reach(Put(r, t, PopRead), t, Go(true), Put(r, t, PopNext(s.abandoned, s.updates)));
    PutTwice(r, t, PopNext(s.abandoned, s.updates), Popping(s, t).threads[t].pc);
    Reach(Put(r, t, PopNext(s.abandoned, s.updates)), t, Go(true), Popping(s, t));
  }

  lemma ReachPop(s: State, t: ThreadId)
    requires Reachable(s) && t in s.threads && s.threads[t].pc.Idle?
    requires Ptr(s.abandoned) in s.next && Ptr(s.abandoned) != NULL
    ensures Reachable(PoppedOne(s, t))
  {
    hide Reachable, Ptr, Tagged;
    var x := Ptr(s.abandoned);
    ReachPopping(s, t);
    var s1 := Popping(s, t);
    var segs := s.threads[t].segs + {x};
    var s2 := PutSegs(s1, t, Exit(x), segs).(abandoned := s1.threads[t].pc.next, updates := s.updates + 1);
    Reach(s1, t, Go(true), s2);
    var s3 := Put(s2, t, Clear(x)).(readers := s.readers);
    Reach(s2, t, Go(true), s3);
    var s4 := Put(s3, t, AbandonedLists.Popped(x)).(next := s.next[x := NULL]);
    Reach(s3, t, Go(true), s4);
    assert Put(s4, t, Idle).threads == s.threads[t := Thread(Idle, segs)];
    Reach(s4, t, Keep, PoppedOne(s, t));
  }

  // ---------------------------------------------------------------------------------------------
  // The run
  // ---------------------------------------------------------------------------------------------

  /**
   Thread 1 is inside a pop of segment 2 with link 1; since then thread 2 has taken both, pushed 3
   and 2, and popped and pushed 2 again until `abandoned` had been updated `n` times.
   */
  function Waiting(n: nat): State {
    State(map[1 := 0, 2 := 3, 3 := 0], 2 * TAGS + n % TAGS, n, NULL, 1, {},
          map[1 := Thread(PopCas(2 * TAGS + 2, 2, 1 * TAGS + 3), {}), 2 := Thread(Idle, {1})])
  }

  function UpTo(n: nat): (r: set<Segment>)
    ensures forall x :: x in r <==> 0 < x <= n
  {
    if n == 0 then {} else UpTo(n - 1) + {n}
  }

  /** Segments 1 to `n` are in the hands of thread 2. */
  function Mapped(n: nat): State {
    State(map x | x in UpTo(n) :: 0, 0, 0, NULL, 0, {}, map[1 := Thread(Idle, {}), 2 := Thread(Idle, UpTo(n))])
  }

  lemma {:induction false} ReachMapped(n: nat)
    ensures Reachable(Mapped(n))
  {
    hide Reachable;
    if n == 0 {
      assert Mapped(0).next == map[];
      assert Mapped(0).threads[2].segs == {};
      ReachInit(Mapped(0));
    } else {
      ReachMapped(n - 1);
      var s := Do(Mapped(n - 1), 2, Map(n, 0)).state;
      Reach(Mapped(n - 1), 2, Map(n, 0), s);
      assert s.next == Mapped(n).next;
      assert s.threads[2].segs == Mapped(n).threads[2].segs;
      assert s.threads == Mapped(n).threads;
    }
  }

  /** Segments 2 and 1 are abandoned, segment 3 is in the hands of thread 2. */
  function TwoPushed(): State {
    State(map[1 := 0, 2 := 1, 3 := 0], 2 * TAGS + 2, 2, NULL, 0, {}, map[1 := Thread(Idle, {}), 2 := Thread(Idle, {3})])
  }

  lemma ReachStart()
    ensures Reachable(Waiting(6))
  {
    hide Reachable;
    ReachTwoPushed();
    ReachPopping(TwoPushed(), 1);
    ReachWaiting(Popping(TwoPushed(), 1));
  }

  lemma ReachTwoPushed()
    ensures Reachable(TwoPushed())
  {
    hide Reachable;
    ReachMapped(3);
    var s := Mapped(3);
    ReachPush(s, 2, 1);
    ReachPush(Pushed(s, 2, 1), 2, 2);
    var s' := Pushed(Pushed(s, 2, 1), 2, 2);
    assert s'.next == TwoPushed().next;
    assert s'.threads[2].segs == {3};
    assert s'.threads == TwoPushed().threads;
  }

  lemma ReachInit(s: State)
    requires Init(s)
    ensures Reachable(s)
  {
    assert IsRun([s], []);
  }

  lemma ReachWaiting(s: State)
    requires Reachable(s)
    requires s == State(map[1 := 0, 2 := 1, 3 := 0], 2 * TAGS + 2, 2, NULL, 1, {},
                        map[1 := Thread(PopCas(2 * TAGS + 2, 2, 1 * TAGS + 3), {}), 2 := Thread(Idle, {3})])
    ensures Reachable(Waiting(6))
  {
    hide Reachable;
    ReachPop(s, 2);
    ReachPop(PoppedOne(s, 2), 2);
    var s2 := PoppedOne(PoppedOne(s, 2), 2);
    ReachPush(s2, 2, 3);
    ReachPush(Pushed(s2, 2, 3), 2, 2);
    var s' := Pushed(Pushed(s2, 2, 3), 2, 2);
    assert s'.next == Waiting(6).next;
    assert s'.threads[2].segs == {1};
    assert s'.threads == Waiting(6).threads;
  }

  /** One more pop and push of segment 2. */
  lemma ReachRound(n: nat)
    requires Reachable(Waiting(n))
    ensures Reachable(Waiting(n + 2))
  {
    hide Reachable;
    var s := Waiting(n);
    ReachPop(s, 2);
    ReachPush(PoppedOne(s, 2), 2, 2);
    assert Pushed(PoppedOne(s, 2), 2, 2) == Waiting(n + 2);
  }

  lemma {:induction false} ReachRounds(k: nat)
    ensures Reachable(Waiting(6 + 2 * k))
  {
    hide Reachable, Waiting;
    if k == 0 { ReachStart(); } else { ReachRounds(k - 1); ReachRound(6 + 2 * (k - 1)); }
  }

  /**
   A run exists in which a pop compares equal after exactly MI_SEGMENT_SIZE updates, and makes
   segment 1, which thread 2 has in its hands, the head of the abandoned list; segment 3 is lost.
   */
  lemma TagWraps() returns (s: State, s': State)
    ensures Reachable(s) && !InTime(s, Step(1, Go(true))) && s.updates == s.threads[1].pc.at + TAGS
    ensures Enabled(s, 1, Go(true)) && Do(s, 1, Go(true)) == Ok(s')
    ensures 1 in s'.threads && 2 in s'.threads && Ptr(s'.abandoned) == 1 && 1 in s'.threads[2].segs
    ensures 1 in s'.next && s'.next[1] == NULL && 3 in s'.next && s'.visited == NULL && s'.pool == {}
    ensures forall t | t in s'.threads :: 3 !in s'.threads[t].segs
  {
    hide Reachable;
    ReachRounds((TAGS + 2 - 6) / 2);
    s := Waiting(TAGS + 2);
    s' := Do(s, 1, Go(true)).state;
  }
}
