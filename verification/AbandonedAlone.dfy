/**
 What the operations on the abandoned lists do when the other threads stand still: a push and a pop work on
 the first segment of a list, the visited list is migrated in order, and memory is released behind the readers.
 */
module AbandonedAlone {
  import opened AbandonedLists
  import opened AbandonedInvariant
  import opened AbandonedSteps
  import opened AbandonedMoves
  import opened AbandonedTheorems
  import opened AbandonedResults

  /** Thread `t` makes these choices one after the other, with nothing in between. */
  function Perform(s: State, t: ThreadId, choices: seq<Choice>): Outcome
    decreases |choices|
  {
    if choices == [] then Ok(s)
    else if !Enabled(s, t, choices[0]) then Fault
    else
      match Do(s, t, choices[0])
      case Fault => Fault
      case Ok(s') => Perform(s', t, choices[1..])
  }

  predicate Leads(s: State, t: ThreadId, choices: seq<Choice>, s': State) {
    Perform(s, t, choices) == Ok(s')
  }

  lemma LeadsOne(s: State, t: ThreadId, c: Choice, s': State)
    requires Enabled(s, t, c) && Do(s, t, c) == Ok(s')
    ensures Leads(s, t, [c], s')
  {
    assert Perform(s', t, []) == Ok(s');
  }

  lemma {:induction false} LeadsThen(s: State, t: ThreadId, a: seq<Choice>, s': State, b: seq<Choice>, s'': State)
    requires Leads(s, t, a, s') && Leads(s', t, b, s'')
    ensures Leads(s, t, a + b, s'')
    decreases |a|
  {
    if a == [] {
      assert a + b == b;
    } else {
      assert (a + b)[1..] == a[1..] + b;
      LeadsThen(Do(s, t, a[0]).state, t, a[1..], s', b, s'');
    }
  }

  /** `n` steps that go on with the operation; every compare-and-swap that compares equal succeeds. */
  function Steps(n: nat): seq<Choice> {
    if n == 0 then [] else [Go(true)] + Steps(n - 1)
  }

  lemma Next(s: State, t: ThreadId, s': State, n: nat, s'': State)
    requires n > 0 && Enabled(s, t, Go(true)) && Do(s, t, Go(true)) == Ok(s') && Leads(s', t, Steps(n - 1), s'')
    ensures Leads(s, t, Steps(n), s'')
  {
    hide Enabled, Do;
    LeadsOne(s, t, Go(true), s');
    LeadsThen(s, t, [Go(true)], s', Steps(n - 1), s'');
  }

  lemma Stay(s: State, t: ThreadId)
    ensures Leads(s, t, Steps(0), s)
  {
  }

  /** The state with thread `t` elsewhere. */
  function At(s: State, t: ThreadId, pc: Pc): State
    requires t in s.threads
  {
    s.(threads := s.threads[t := Thread(pc, s.threads[t].segs)])
  }

  /** A step that moves only the place of the thread. */
  lemma Move(s: State, t: ThreadId, pc: Pc, pc': Pc, n: nat, s': State)
    requires t in s.threads && n > 0 && Enabled(At(s, t, pc), t, Go(true))
    requires Do(At(s, t, pc), t, Go(true)) == Ok(Put(At(s, t, pc), t, pc')) && Leads(At(s, t, pc'), t, Steps(n - 1), s')
    ensures Leads(At(s, t, pc), t, Steps(n), s')
  {
    hide Enabled, Do, Leads;
    assert s.threads[t := Thread(pc, s.threads[t].segs)][t := Thread(pc', s.threads[t].segs)] ==
      s.threads[t := Thread(pc', s.threads[t].segs)];
    Next(At(s, t, pc), t, At(s, t, pc'), n, s');
  }

  // ---------------------------------------------------------------------------------------------
  // Pushing
  // ---------------------------------------------------------------------------------------------

  /** The segment `x` is pushed on the abandoned list. */
  function Pushed(s: State, t: ThreadId, x: Segment): State
    requires t in s.threads
  {
    s.(next := s.next[x := Ptr(s.abandoned)], abandoned := Tagged(x, s.abandoned), updates := s.updates + 1,
       threads := s.threads[t := Thread(Idle, s.threads[t].segs - {x})])
  }

  lemma PushAlone(s: State, t: ThreadId, x: Segment)
    requires t in s.threads && s.threads[t].pc.Idle? && x in s.threads[t].segs && x in s.next
    ensures Leads(s, t, [Abandon(x)] + Steps(3), Pushed(s, t, x))
  {
    hide Ptr, Tagged, Leads;
    var ts := s.abandoned;
    var s0 := s.(next := s.next[x := NULL]);
    var s1 := s.(next := s.next[x := Ptr(ts)]);
    assert s0.next[x := Ptr(ts)] == s1.next;
    assert s0.threads[t := s0.threads[t].(pc := PushRead(x))] == At(s0, t, PushRead(x)).threads;
    LeadsOne(s, t, Abandon(x), At(s0, t, PushRead(x)));
    Stay(Pushed(s, t, x), t);
    assert At(s1, t, PushCas(x, ts)).threads[t := Thread(Idle, s.threads[t].segs - {x})] == Pushed(s, t, x).threads;
    Next(At(s1, t, PushCas(x, ts)), t, Pushed(s, t, x), 1, Pushed(s, t, x));
    assert At(s0, t, PushLink(x, ts)).threads[t := Thread(PushCas(x, ts), s.threads[t].segs)]
      == At(s1, t, PushCas(x, ts)).threads;
    Next(At(s0, t, PushLink(x, ts)), t, At(s1, t, PushCas(x, ts)), 2, Pushed(s, t, x));
    Move(s0, t, PushRead(x), PushLink(x, ts), 3, Pushed(s, t, x));
    LeadsThen(s, t, [Abandon(x)], At(s0, t, PushRead(x)), Steps(3), Pushed(s, t, x));
  }

  /** The popped segment `x` is pushed on the visited list. */
  function Revisited(s: State, t: ThreadId, x: Segment): State
    requires t in s.threads
  {
    s.(next := s.next[x := s.visited], visited := x, threads := s.threads[t := Thread(Idle, s.threads[t].segs - {x})])
  }

  lemma RevisitAlone(s: State, t: ThreadId, x: Segment)
    requires t in s.threads && s.threads[t].pc == Popped(x) && x in s.next && s.next[x] == NULL
    ensures Leads(s, t, [Revisit] + Steps(3), Revisited(s, t, x))
  {
    hide Leads;
    var head := s.visited;
    var s1 := s.(next := s.next[x := head]);
    assert s.threads[t := s.threads[t].(pc := VisitRead(x))] == At(s, t, VisitRead(x)).threads;
    LeadsOne(s, t, Revisit, At(s, t, VisitRead(x)));
    Stay(Revisited(s, t, x), t);
    assert At(s1, t, VisitCas(x, head)).threads[t := Thread(Idle, s.threads[t].segs - {x})] == Revisited(s, t, x).threads;
    Next(At(s1, t, VisitCas(x, head)), t, Revisited(s, t, x), 1, Revisited(s, t, x));
    assert At(s, t, VisitLink(x, head)).threads[t := Thread(VisitCas(x, head), s.threads[t].segs)]
      == At(s1, t, VisitCas(x, head)).threads;
    Next(At(s, t, VisitLink(x, head)), t, At(s1, t, VisitCas(x, head)), 2, Revisited(s, t, x));
    Move(s, t, VisitRead(x), VisitLink(x, head), 3, Revisited(s, t, x));
    LeadsThen(s, t, [Revisit], At(s, t, VisitRead(x)), Steps(3), Revisited(s, t, x));
  }

  // ---------------------------------------------------------------------------------------------
  // Popping
  // ---------------------------------------------------------------------------------------------

  /** The first segment `x` of the abandoned list is popped. */
  function PoppedState(s: State, t: ThreadId, x: Segment): State
    requires t in s.threads && x in s.next
  {
    s.(next := s.next[x := NULL], abandoned := Tagged(s.next[x], s.abandoned), updates := s.updates + 1,
       threads := s.threads[t := Thread(Popped(x), s.threads[t].segs + {x})])
  }

  /** The loop of `mi_abandoned_pop`. */
  lemma LoopAlone(s: State, t: ThreadId, x: Segment)
    requires t in s.threads && x == Ptr(s.abandoned) && x != NULL && x in s.next
    ensures Leads(At(s, t, Enter), t, Steps(6), PoppedState(s, t, x))
  {
    hide Ptr, Tagged, Leads;
    var ts, nx := s.abandoned, Tagged(s.next[x], s.abandoned);
    var in1 := s.(readers := s.readers + 1);
    var got := in1.(abandoned := nx, updates := s.updates + 1, threads := s.threads[t := Thread(Idle, s.threads[t].segs + {x})]);
    TakenAlone(s, got, t, x);
    assert At(in1, t, PopCas(ts, s.updates, nx)).threads[t := Thread(Exit(x), s.threads[t].segs + {x})]
      == At(got, t, Exit(x)).threads;
    Next(At(in1, t, PopCas(ts, s.updates, nx)), t, At(got, t, Exit(x)), 3, PoppedState(s, t, x));
    Move(in1, t, PopNext(ts, s.updates), PopCas(ts, s.updates, nx), 4, PoppedState(s, t, x));
    Move(in1, t, PopRead, PopNext(ts, s.updates), 5, PoppedState(s, t, x));
    assert At(s, t, Enter).threads[t := Thread(PopRead, s.threads[t].segs)] == At(in1, t, PopRead).threads;
    Next(At(s, t, Enter), t, At(in1, t, PopRead), 6, PoppedState(s, t, x));
  }

  lemma TakenAlone(s: State, got: State, t: ThreadId, x: Segment)
    requires t in s.threads && x != NULL && x in s.next
    requires got == s.(readers := s.readers + 1, abandoned := Tagged(s.next[x], s.abandoned), updates := s.updates + 1,
                       threads := s.threads[t := Thread(Idle, s.threads[t].segs + {x})])
    ensures Leads(At(got, t, Exit(x)), t, Steps(2), PoppedState(s, t, x))
  {
    hide Tagged, Leads;
    var out := got.(readers := s.readers);
    var done := PoppedState(s, t, x);
    Stay(done, t);
    assert At(out, t, Clear(x)).threads[t := Thread(Popped(x), s.threads[t].segs + {x})] == done.threads;
    Next(At(out, t, Clear(x)), t, done, 1, done);
    assert At(got, t, Exit(x)).threads[t := Thread(Clear(x), s.threads[t].segs + {x})] == At(out, t, Clear(x)).threads;
    Next(At(got, t, Exit(x)), t, At(out, t, Clear(x)), 2, done);
  }

  /** The visited list becomes the abandoned one, which was empty. */
  function Migrated(s: State): State {
    s.(visited := NULL, abandoned := Tagged(s.visited, s.abandoned), updates := s.updates + 1)
  }

  lemma SwapAlone(s: State, t: ThreadId)
    requires t in s.threads && Ptr(s.abandoned) == NULL && s.visited != NULL
    ensures Leads(At(s, t, Quick), t, Steps(4), At(Migrated(s), t, Enter))
  {
    hide Ptr, Tagged, Leads;
    var first, ts := s.visited, s.abandoned;
    var s1 := s.(visited := NULL);
    var done := At(Migrated(s), t, Enter);
    Stay(done, t);
    assert At(s1, t, Swap(first, ts)).threads[t := Thread(Enter, s.threads[t].segs)] == done.threads;
    Next(At(s1, t, Swap(first, ts)), t, done, 1, done);
    Move(s1, t, SwapRead(first), Swap(first, ts), 2, done);
    assert At(s, t, Grab).threads[t := Thread(SwapRead(first), s.threads[t].segs)] == At(s1, t, SwapRead(first)).threads;
    Next(At(s, t, Grab), t, At(s1, t, SwapRead(first)), 3, done);
    Move(s, t, Quick, Grab, 4, done);
  }

  /** What is needed of the links for popping the first of a list. */
  lemma Heads(s: State, l: Lists)
    requires ListsOf(s, l) && NULL !in s.next
    ensures l.ab == [] <==> Ptr(s.abandoned) == NULL
    ensures l.vis == [] <==> s.visited == NULL
    ensures l.ab != [] ==> Ptr(s.abandoned) == l.ab[0] && l.ab[0] in s.next
    ensures l.vis != [] ==> s.visited == l.vis[0] && l.vis[0] in s.next
  {
    hide Linked, ChainOk;
    NilIff(s.next, Ptr(s.abandoned), l.ab);
    NilIff(s.next, s.visited, l.vis);
    FirstIn(s.next, Ptr(s.abandoned), l.ab);
    FirstIn(s.next, s.visited, l.vis);
  }

  lemma FirstIn(next: Links, head: Segment, list: seq<Segment>)
    requires Linked(next, head, list)
    ensures list != [] ==> head == list[0] && list[0] in next
  {
    if list != [] { assert list[0] in list; }
  }

  /** Taking the first segment out, and clearing its link, leaves the rest. */
  lemma RestLinked(next: Links, head: Segment, list: seq<Segment>)
    requires Linked(next, head, list) && list != [] && NoDup(list)
    ensures Linked(next[list[0] := NULL], next[list[0]], list[1..])
  {
    var rest, next' := list[1..], next[list[0] := NULL];
    assert list[0] in list;
    forall x | x in rest ensures x in next' { assert x in list; }
    forall i | 0 <= i < |rest| - 1 ensures next'[rest[i]] == rest[i + 1] { assert rest[i] == list[i + 1] != list[0]; }
    if rest != [] { assert next[list[0]] == list[1]; assert rest[|rest| - 1] == list[|list| - 1] != list[0]; }
  }

  lemma ApartLinked(next: Links, head: Segment, list: seq<Segment>, x: Segment, y: Segment)
    requires Linked(next, head, list) && x !in list
    ensures Linked(next[x := y], head, list)
  {
    forall i | 0 <= i < |list| ensures list[i] != x { assert list[i] in list; }
  }

  /** Tagging keeps the address. */
  lemma TaggedPtr(x: Segment, w: Word)
    ensures Ptr(Tagged(x, w)) == x
  {
    TaggedParts(x, w);
  }

  /** The lists of a reachable state, and that they have no segment in common. */
  lemma ListsApart(states: seq<State>, steps: seq<Step>, l: Lists)
    requires IsTimelyRun(states, steps) && ListsOf(Last(states), l)
    ensures NULL !in Last(states).next && forall x | x in l.ab :: x !in l.vis
  {
    hide IsTimelyRun, Linked, ChainOk, NoDup, Windows, HandLinks, Guard, ReadersOf, Ptr;
    var g := RunInvariant(states, steps);
    var s := Last(states);
    InvMapped(s, g);
    Spelled(s, g);
    LinkedUnique(s.next, Ptr(s.abandoned), l.ab, g.ab);
    LinkedUnique(s.next, s.visited, l.vis, g.vis);
  }

  /** The segment is in no list of the other. */
  lemma LinkedStay(s: State, l: Lists, x: Segment)
    requires ListsOf(s, l) && l.ab != [] && x == l.ab[0] && x in s.next && Ptr(s.abandoned) == x
    requires forall y | y in l.ab :: y !in l.vis
    ensures Linked(s.next[x := NULL], s.next[x], l.ab[1..]) && Linked(s.next[x := NULL], s.visited, l.vis)
  {
    hide Linked, ChainOk, NoDup;
    RestLinked(s.next, x, l.ab);
    assert x in l.ab;
    ApartLinked(s.next, s.visited, l.vis, x, NULL);
  }

  /**
   A pop that nobody disturbs returns the first segment of the abandoned list; if that list is empty, the
   first of the visited list, which has moved there in order; and nothing exactly if both are empty.
   */
  lemma PopAlone(states: seq<State>, steps: seq<Step>, l: Lists, t: ThreadId) returns (n: nat, s': State)
    requires IsTimelyRun(states, steps) && ListsOf(Last(states), l)
    requires t in Last(states).threads && Last(states).threads[t].pc.Idle?
    ensures Leads(Last(states), t, [Pop] + Steps(n), s')
    ensures
      var s := Last(states);
      if l.ab == [] && l.vis == [] then s' == s
      else
        var list := if l.ab != [] then l.ab else l.vis;
        var x := list[0];
        && s'.threads == s.threads[t := Thread(Popped(x), s.threads[t].segs + {x})]
        && x in s.next && s'.next == s.next[x := NULL] && s'.readers == s.readers && s'.pool == s.pool
        && Linked(s'.next, Ptr(s'.abandoned), list[1..])
        && Linked(s'.next, s'.visited, if l.ab != [] then l.vis else [])
  {
    hide Init, Enabled, Do, InTime, Leads, Linked, ChainOk, NoDup, Ptr, Tagged;
    var s := Last(states);
    ListsApart(states, steps, l);
    Heads(s, l);
    StartPop(s, t);
    if l.ab != [] {
      var x := l.ab[0];
      LoopAlone(s, t, x);
      n, s' := 7, PoppedState(s, t, x);
      PeekAlone(s, t, Enter, 6, s');
      TaggedPtr(s.next[x], s.abandoned);
      LinkedStay(s, l, x);
    } else if l.vis != [] {
      n := 11;
      s' := FromVisited(s, l, t);
      PeekAlone(s, t, Quick, 10, s');
    } else {
      n, s' := 2, s;
      Stay(s, t);
      NothingAlone(s, t);
    }
    LeadsThen(s, t, [Pop], At(s, t, Peek), Steps(n), s');
  }

  lemma StartPop(s: State, t: ThreadId)
    requires t in s.threads && s.threads[t].pc.Idle?
    ensures Leads(s, t, [Pop], At(s, t, Peek))
  {
    hide Leads;
    assert s.threads[t := s.threads[t].(pc := Peek)] == At(s, t, Peek).threads;
    LeadsOne(s, t, Pop, At(s, t, Peek));
  }

  lemma PeekAlone(s: State, t: ThreadId, pc: Pc, n: nat, s': State)
    requires t in s.threads && pc == (if Ptr(s.abandoned) == NULL then Quick else Enter) && Leads(At(s, t, pc), t, Steps(n), s')
    ensures Leads(At(s, t, Peek), t, Steps(n + 1), s')
  {
    hide Leads, Ptr, Steps;
    Move(s, t, Peek, pc, n + 1, s');
  }

  lemma NothingAlone(s: State, t: ThreadId)
    requires t in s.threads && s.threads[t].pc.Idle? && Ptr(s.abandoned) == NULL && s.visited == NULL
    ensures Leads(At(s, t, Peek), t, Steps(2), s)
  {
    hide Leads, Ptr;
    Stay(s, t);
    assert At(s, t, Quick).threads[t := Thread(Idle, s.threads[t].segs)] == s.threads;
    Next(At(s, t, Quick), t, s, 1, s);
    PeekAlone(s, t, Quick, 1, s);
  }

  /** The pop of a segment of the visited list. */
  lemma FromVisited(s: State, l: Lists, t: ThreadId) returns (s': State)
    requires t in s.threads && ListsOf(s, l) && NULL !in s.next && l.ab == [] && l.vis != []
    ensures Leads(At(s, t, Quick), t, Steps(10), s')
    ensures var x := l.vis[0];
      && x in s.next && s'.threads == s.threads[t := Thread(Popped(x), s.threads[t].segs + {x})]
      && s'.next == s.next[x := NULL] && s'.readers == s.readers && s'.pool == s.pool
      && Linked(s'.next, Ptr(s'.abandoned), l.vis[1..]) && Linked(s'.next, s'.visited, [])
  {
    hide Leads, Linked, ChainOk, NoDup, Ptr, Tagged;
    var x := l.vis[0];
    Heads(s, l);
    var m := Migrated(s);
    TaggedPtr(x, s.abandoned);
    assert x != NULL by { NilIff(s.next, s.visited, l.vis); }
    LoopAlone(m, t, x);
    SwapAlone(s, t);
    s' := PoppedState(m, t, x);
    LeadsThen(At(s, t, Quick), t, Steps(4), At(m, t, Enter), Steps(6), s');
    assert Steps(4) + Steps(6) == Steps(10) by { AddSteps(4, 6); }
    TaggedPtr(s.next[x], m.abandoned);
    RestLinked(s.next, x, l.vis);
    EmptyLinked(s'.next);
  }

  lemma EmptyLinked(next: Links)
    ensures Linked(next, NULL, [])
  {
  }

  lemma {:induction false} AddSteps(m: nat, n: nat)
    ensures Steps(m) + Steps(n) == Steps(m + n)
  {
    if m > 0 {
      AddSteps(m - 1, n);
      assert Steps(m) + Steps(n) == [Go(true)] + (Steps(m - 1) + Steps(n));
    } else {
      assert Steps(0) + Steps(n) == Steps(n);
    }
  }

  // ---------------------------------------------------------------------------------------------
  // Pushing, in terms of the lists
  // ---------------------------------------------------------------------------------------------

  /** A segment in the hands of a thread is in memory, and on neither list. */
  lemma HandsApart(states: seq<State>, steps: seq<Step>, l: Lists, t: ThreadId, x: Segment)
    requires IsTimelyRun(states, steps) && ListsOf(Last(states), l)
    requires t in Last(states).threads && x in Last(states).threads[t].segs
    ensures x in Last(states).next && x != NULL && x !in l.ab && x !in l.vis
  {
    hide IsTimelyRun, Linked, ChainOk, NoDup, Windows, HandLinks, Guard, ReadersOf, Ptr;
    var g := RunInvariant(states, steps);
    var s := Last(states);
    InvMapped(s, g);
    Spelled(s, g);
    LinkedUnique(s.next, Ptr(s.abandoned), l.ab, g.ab);
    LinkedUnique(s.next, s.visited, l.vis, g.vis);
    assert SetIs(s.threads[t].segs, g.at, InHands(t));
    assert IsAt(g.at, x, InHands(t));
  }

  lemma PrependLinked(next: Links, head: Segment, list: seq<Segment>, x: Segment)
    requires Linked(next, head, list) && x in next && x !in list
    ensures Linked(next[x := head], x, [x] + list)
  {
    var all, next' := [x] + list, next[x := head];
    forall i | 0 <= i < |all| - 1 ensures next'[all[i]] == all[i + 1] {
      if i > 0 { assert all[i] == list[i - 1] && list[i - 1] in list; }
    }
    if list != [] { assert all[|all| - 1] == list[|list| - 1] && list[|list| - 1] in list; }
  }

  /** A segment that is abandoned undisturbed is the first of the abandoned list; the visited list stays. */
  lemma AbandonAlone(states: seq<State>, steps: seq<Step>, l: Lists, t: ThreadId, x: Segment) returns (s': State)
    requires IsTimelyRun(states, steps) && ListsOf(Last(states), l)
    requires t in Last(states).threads && Last(states).threads[t].pc.Idle? && x in Last(states).threads[t].segs
    ensures Leads(Last(states), t, [Abandon(x)] + Steps(3), s')
    ensures var s := Last(states);
      && s'.threads == s.threads[t := Thread(Idle, s.threads[t].segs - {x})]
      && Linked(s'.next, Ptr(s'.abandoned), [x] + l.ab) && Linked(s'.next, s'.visited, l.vis) && s'.visited == s.visited
  {
    hide Init, Enabled, Do, InTime, Leads, Linked, ChainOk, NoDup, Ptr, Tagged;
    var s := Last(states);
    HandsApart(states, steps, l, t, x);
    PushAlone(s, t, x);
    s' := Pushed(s, t, x);
    TaggedPtr(x, s.abandoned);
    PrependLinked(s.next, Ptr(s.abandoned), l.ab, x);
    ApartLinked(s.next, s.visited, l.vis, x, Ptr(s.abandoned));
  }

  /** A popped segment that is pushed back undisturbed is the first of the visited list; the abandoned list stays. */
  lemma VisitAlone(states: seq<State>, steps: seq<Step>, l: Lists, t: ThreadId, x: Segment) returns (s': State)
    requires IsTimelyRun(states, steps) && ListsOf(Last(states), l)
    requires t in Last(states).threads && Last(states).threads[t].pc == Popped(x)
    ensures Leads(Last(states), t, [Revisit] + Steps(3), s')
    ensures var s := Last(states);
      && s'.threads == s.threads[t := Thread(Idle, s.threads[t].segs - {x})]
      && Linked(s'.next, s'.visited, [x] + l.vis) && Linked(s'.next, Ptr(s'.abandoned), l.ab) && s'.abandoned == s.abandoned
  {
    hide Init, Enabled, Do, InTime, Leads, Linked, ChainOk, NoDup, Ptr, Tagged;
    var s := Last(states);
    PoppedHeld(states, steps, t, x);
    HandsApart(states, steps, l, t, x);
    RevisitAlone(s, t, x);
    s' := Revisited(s, t, x);
    PrependLinked(s.next, s.visited, l.vis, x);
    ApartLinked(s.next, Ptr(s.abandoned), l.ab, x, s.visited);
  }

  /** A popped segment is in the hands of its thread, without a link. */
  lemma PoppedHeld(states: seq<State>, steps: seq<Step>, t: ThreadId, x: Segment)
    requires IsTimelyRun(states, steps) && t in Last(states).threads && Last(states).threads[t].pc == Popped(x)
    ensures x in Last(states).threads[t].segs && x in Last(states).next && Last(states).next[x] == NULL
  {
    hide IsTimelyRun, Linked, ChainOk, NoDup, Windows, Guard, ReadersOf, Ptr;
    var g := RunInvariant(states, steps);
    assert HandsOk(Last(states).next, Last(states).threads[t]);
  }

  // ---------------------------------------------------------------------------------------------
  // Migrating before an abandoned list that is not empty
  // ---------------------------------------------------------------------------------------------

  /** The walk to the end of the chain. */
  lemma {:induction false} WalkAlone(s: State, t: ThreadId, first: Segment, chain: seq<Segment>, k: nat, n: nat, s': State)
    requires t in s.threads && Linked(s.next, first, chain) && NULL !in s.next && k < |chain|
    requires Leads(At(s, t, TailRead(first, chain[|chain| - 1])), t, Steps(n), s')
    ensures Leads(At(s, t, Walk(first, chain[k])), t, Steps(n + |chain| - k), s')
    decreases |chain| - k
  {
    hide Leads, Steps;
    var x := chain[k];
    assert x in chain;
    if k < |chain| - 1 {
      assert chain[k + 1] in chain;
      WalkAlone(s, t, first, chain, k + 1, n, s');
      Move(s, t, Walk(first, x), Walk(first, chain[k + 1]), n + |chain| - k, s');
    } else {
      Move(s, t, Walk(first, x), TailRead(first, x), n + 1, s');
    }
  }

  /** The chain, which ends in `last`, comes before the abandoned list. */
  function Prepended(s: State, t: ThreadId, first: Segment, last: Segment): State
    requires t in s.threads
  {
    At(s.(next := s.next[last := Ptr(s.abandoned)], abandoned := Tagged(first, s.abandoned), updates := s.updates + 1), t, Enter)
  }

  lemma TailAlone(s: State, t: ThreadId, first: Segment, last: Segment)
    requires t in s.threads && last in s.next
    ensures Leads(At(s, t, TailRead(first, last)), t, Steps(3), Prepended(s, t, first, last))
  {
    hide Leads, Ptr, Tagged;
    var ts, done := s.abandoned, Prepended(s, t, first, last);
    var s1 := s.(next := s.next[last := Ptr(ts)]);
    Stay(done, t);
    assert At(s1, t, TailCas(first, last, ts)).threads[t := Thread(Enter, s.threads[t].segs)] == done.threads;
    Next(At(s1, t, TailCas(first, last, ts)), t, done, 1, done);
    assert At(s, t, TailLink(first, last, ts)).threads[t := Thread(TailCas(first, last, ts), s.threads[t].segs)]
      == At(s1, t, TailCas(first, last, ts)).threads;
    Next(At(s, t, TailLink(first, last, ts)), t, At(s1, t, TailCas(first, last, ts)), 2, done);
    Move(s, t, TailRead(first, last), TailLink(first, last, ts), 3, done);
  }

  lemma JoinLinked(next: Links, first: Segment, chain: seq<Segment>, head: Segment, list: seq<Segment>)
    requires Linked(next, first, chain) && Linked(next, head, list) && chain != [] && NoDup(chain)
    requires forall x | x in chain :: x !in list
    ensures Linked(next[chain[|chain| - 1] := head], first, chain + list)
  {
    var last := chain[|chain| - 1];
    var all, next' := chain + list, next[last := head];
    assert last in chain;
    forall i | 0 <= i < |all| - 1 ensures next'[all[i]] == all[i + 1] {
      if i < |chain| - 1 {
        assert all[i] == chain[i] != last;
      } else if i >= |chain| {
        assert all[i] == list[i - |chain|] && list[i - |chain|] in list;
      }
    }
    if list != [] { assert all[|all| - 1] == list[|list| - 1] && list[|list| - 1] in list; }
  }

  /**
   A thread that has grabbed the visited list, and finds the abandoned list not empty, puts the grabbed one
   before it, in order, if nobody disturbs it.
   */
  lemma MigrateAlone(states: seq<State>, steps: seq<Step>, l: Lists, t: ThreadId, first: Segment) returns (n: nat, s': State)
    requires IsTimelyRun(states, steps) && ListsOf(Last(states), l) && t in Last(states).threads
    requires Last(states).threads[t].pc == SwapRead(first) && l.ab != []
    ensures t in l.chains && Leads(Last(states), t, Steps(n), s')
    ensures var s := Last(states);
      && s'.threads == s.threads[t := s.threads[t].(pc := Enter)]
      && Linked(s'.next, Ptr(s'.abandoned), l.chains[t] + l.ab) && Linked(s'.next, s'.visited, l.vis)
  {
    hide Init, Enabled, Do, InTime, Leads, Linked, NoDup, Ptr, Tagged;
    var s, chain := Last(states), l.chains[t];
    ListsApart(states, steps, l);
    ChainApart(states, steps, l, t);
    Heads(s, l);
    NilIff(s.next, first, chain);
    var last := chain[|chain| - 1];
    LastIn(s.next, first, chain);
    NilIff(s.next, Ptr(s.abandoned), l.ab);
    TailAlone(s, t, first, last);
    s' := Prepended(s, t, first, last);
    WalkAlone(s, t, first, chain, 0, 3, s');
    n := 3 + |chain| + 1;
    FirstIn(s.next, first, chain);
    assert At(s, t, SwapRead(first)) == s by { assert s.threads[t := s.threads[t]] == s.threads; }
    WalkFrom(s, t, first, n, s');
    TaggedPtr(first, s.abandoned);
    JoinLinked(s.next, first, chain, Ptr(s.abandoned), l.ab);
    ApartLinked(s.next, s.visited, l.vis, last, Ptr(s.abandoned));
  }

  lemma WalkFrom(s: State, t: ThreadId, first: Segment, n: nat, s': State)
    requires t in s.threads && n > 0 && Ptr(s.abandoned) != NULL && Leads(At(s, t, Walk(first, first)), t, Steps(n - 1), s')
    ensures Leads(At(s, t, SwapRead(first)), t, Steps(n), s')
  {
    hide Leads, Ptr, Steps;
    Move(s, t, SwapRead(first), Walk(first, first), n, s');
  }

  lemma LastIn(next: Links, head: Segment, list: seq<Segment>)
    requires Linked(next, head, list) && list != []
    ensures list[|list| - 1] in list && list[|list| - 1] in next
  {
  }

  /** The chain of a thread has no segment in common with the two lists. */
  lemma ChainApart(states: seq<State>, steps: seq<Step>, l: Lists, t: ThreadId)
    requires IsTimelyRun(states, steps) && ListsOf(Last(states), l) && t in Last(states).threads
    ensures t in l.chains && NoDup(l.chains[t]) && forall x | x in l.chains[t] :: x !in l.ab && x !in l.vis
  {
    hide IsTimelyRun, Linked, ChainOk, NoDup, Windows, HandLinks, Guard, ReadersOf, Ptr;
    var g := RunInvariant(states, steps);
    var s := Last(states);
    InvMapped(s, g);
    Spelled(s, g);
    LinkedUnique(s.next, Ptr(s.abandoned), l.ab, g.ab);
    LinkedUnique(s.next, s.visited, l.vis, g.vis);
    ChainUnique(s.next, s.threads[t].pc, l.chains[t], g.chains[t]);
    assert ListIs(g.chains[t], g.at, InChain(t));
  }

  // ---------------------------------------------------------------------------------------------
  // Releasing memory
  // ---------------------------------------------------------------------------------------------

  /** Without readers the memory of segments in hand is released after one look at their count. */
  lemma ReleaseAlone(s: State, t: ThreadId, which: set<Segment>)
    requires t in s.threads && s.threads[t].pc.Idle? && which <= s.threads[t].segs && s.readers == 0
    ensures Leads(s, t, [Release(which)] + Steps(2),
      s.(next := s.next - which, threads := s.threads[t := Thread(Idle, s.threads[t].segs - which)]))
  {
    hide Leads;
    var done := s.(next := s.next - which, threads := s.threads[t := Thread(Idle, s.threads[t].segs - which)]);
    assert s.threads[t := s.threads[t].(pc := Await(which))] == At(s, t, Await(which)).threads;
    LeadsOne(s, t, Release(which), At(s, t, Await(which)));
    Stay(done, t);
    assert At(s, t, Safe(which)).threads[t := Thread(Idle, s.threads[t].segs - which)] == done.threads;
    Next(At(s, t, Safe(which)), t, done, 1, done);
    Move(s, t, Await(which), Safe(which), 2, done);
    LeadsThen(s, t, [Release(which)], At(s, t, Await(which)), Steps(2), done);
  }

  // ---------------------------------------------------------------------------------------------
  // When a pop returns nothing, in any run
  // ---------------------------------------------------------------------------------------------

  /** The thread is inside a pop. */
  predicate InPop(pc: Pc) {
    match pc
    case Idle => false
    case PushRead(_) => false
    case PushLink(_, _) => false
    case PushCas(_, _) => false
    case VisitRead(_) => false
    case VisitLink(_, _) => false
    case VisitCas(_, _) => false
    case Popped(_) => false
    case Await(_) => false
    case Safe(_) => false
    case _ => true
  }

  /** At step `k` the thread finds the visited list empty, or the abandoned list inside the loop. */
  ghost predicate FindsEmpty(states: seq<State>, steps: seq<Step>, t: ThreadId, k: nat)
    requires k < |steps| && |states| == |steps| + 1
  {
    steps[k].thread == t && t in states[k].threads &&
    match states[k].threads[t].pc
    case Quick => states[k].visited == NULL
    case Grab => states[k].visited == NULL
    case PopRead => Ptr(states[k].abandoned) == NULL
    case _ => false
  }

  ghost predicate Waits(states: seq<State>, t: ThreadId, pc: Pc, k: int, j: int) {
    forall m | k < m <= j && 0 <= m < |states| :: t in states[m].threads && states[m].threads[t].pc == pc
  }

  /** A thread that is about to return nothing has found the abandoned list empty, in any run. */
  lemma {:induction false} ExitEmpty(states: seq<State>, steps: seq<Step>, t: ThreadId, j: nat) returns (k: nat)
    requires IsTimelyRun(states, steps) && j < |states| && t in states[j].threads && states[j].threads[t].pc == Exit(NULL)
    ensures k < j && FindsEmpty(states, steps, t, k) && Waits(states, t, Exit(NULL), k, j)
    decreases j
  {
    hide IsTimelyRun, FindsEmpty, Waits;
    InitIdle(states, steps, t);
    BeforeExit(states, steps, t, j);
    var s := states[j - 1];
    if s.threads[t].pc == Exit(NULL) {
      k := ExitEmpty(states, steps, t, j - 1);
      WaitsOn(states, t, Exit(NULL), k, j);
    } else {
      k := j - 1;
      ReadEmpty(states, steps, t, k);
      WaitsOn(states, t, Exit(NULL), k, j);
    }
  }

  lemma WaitsOn(states: seq<State>, t: ThreadId, pc: Pc, k: int, j: int)
    requires k < j && 0 <= j < |states| && t in states[j].threads && states[j].threads[t].pc == pc
    requires k < j - 1 ==> Waits(states, t, pc, k, j - 1)
    ensures Waits(states, t, pc, k, j)
  {
  }

  lemma BeforeExit(states: seq<State>, steps: seq<Step>, t: ThreadId, j: nat)
    requires IsTimelyRun(states, steps) && 0 < j < |states| && t in states[j].threads && states[j].threads[t].pc == Exit(NULL)
    ensures |states| == |steps| + 1 && t in states[j - 1].threads
    ensures states[j - 1].threads[t].pc == Exit(NULL) ||
            (steps[j - 1].thread == t && states[j - 1].threads[t].pc.PopRead? && Ptr(states[j - 1].abandoned) == NULL)
  {
    hide Init, Enabled, Do, InTime, Inv;
    var s, step := states[j - 1], steps[j - 1];
    assert Enabled(s, step.thread, step.choice) && Do(s, step.thread, step.choice) == Ok(states[j]);
    var g := RunInvariant(states[..j], steps[..j - 1]);
    ExitFrom(s, g, step, t);
  }

  lemma ReadEmpty(states: seq<State>, steps: seq<Step>, t: ThreadId, k: nat)
    requires |states| == |steps| + 1 && k < |steps| && steps[k].thread == t && t in states[k].threads
    requires states[k].threads[t].pc.PopRead? && Ptr(states[k].abandoned) == NULL
    ensures FindsEmpty(states, steps, t, k)
  {
  }

  lemma InitIdle(states: seq<State>, steps: seq<Step>, t: ThreadId)
    requires IsTimelyRun(states, steps)
    ensures |states| == |steps| + 1 && (t in states[0].threads ==> states[0].threads[t].pc.Idle?)
  {
    hide Enabled, Do, InTime;
  }

  lemma ExitFrom(s: State, g: History, step: Step, t: ThreadId)
    requires Inv(s, g) && Enabled(s, step.thread, step.choice) && Do(s, step.thread, step.choice).Ok?
    requires t in Do(s, step.thread, step.choice).state.threads
    requires Do(s, step.thread, step.choice).state.threads[t].pc == Exit(NULL)
    ensures t in s.threads
    ensures s.threads[t].pc == Exit(NULL) ||
            (step.thread == t && s.threads[t].pc.PopRead? && Ptr(s.abandoned) == NULL)
  {
    hide Inv, Ptr, Tagged, Tag, ContinuePush, ContinueVisit, ContinueRevisit, ContinuePop;
    if step.thread != t {
      OtherPlace(s, step.thread, step.choice, t);
    } else if step.choice.Go? {
      if s.threads[t].pc.PopCas? { SeenSome(s, g, t); }
      ExitOnly(s, t, step.choice.ok);
    }
  }

  lemma OtherPlace(s: State, u: ThreadId, c: Choice, t: ThreadId)
    requires Enabled(s, u, c) && Do(s, u, c).Ok? && u != t && t in Do(s, u, c).state.threads
    ensures t in s.threads && Do(s, u, c).state.threads[t] == s.threads[t]
  {
    hide Ptr, Tagged, Tag;
  }

  /** Only the loop of a pop comes to its end. */
  lemma ExitOnly(s: State, t: ThreadId, ok: bool)
    requires t in s.threads && (s.threads[t].pc.PopCas? ==> Ptr(s.threads[t].pc.ts) != NULL)
    requires !s.threads[t].pc.Idle? && !s.threads[t].pc.Popped?
    requires Continue(s, t, ok).Ok? && t in Continue(s, t, ok).state.threads
    requires Continue(s, t, ok).state.threads[t].pc == Exit(NULL)
    ensures s.threads[t].pc == Exit(NULL) || (s.threads[t].pc.PopRead? && Ptr(s.abandoned) == NULL)
  {
    hide Ptr, Tagged, Tag;
  }

  lemma SeenSome(s: State, g: History, t: ThreadId)
    requires Inv(s, g) && t in s.threads && s.threads[t].pc.PopCas?
    ensures Ptr(s.threads[t].pc.ts) != NULL
  {
    hide Linked, ChainOk, NoDup, ListIs, SetIs, HandLinks, Guard, ReadersOf, ChainLinks, Mapped, Ptr, Tagged, Tag;
    assert SeenOk(s.next, s.abandoned, s.updates, s.threads[t].pc);
  }

  /** A pop that returns nothing has read an empty visited list, or an empty abandoned list inside its loop. */
  lemma NothingOnlyIfEmpty(states: seq<State>, steps: seq<Step>, t: ThreadId, j: nat) returns (k: nat)
    requires IsTimelyRun(states, steps) && j < |steps| && steps[j].thread == t
    requires t in states[j].threads && InPop(states[j].threads[t].pc)
    requires t in states[j + 1].threads && states[j + 1].threads[t].pc.Idle?
    ensures k <= j && FindsEmpty(states, steps, t, k)
    ensures k < j ==> Waits(states, t, Exit(NULL), k, j)
  {
    hide Init, Enabled, Do, InTime, FindsEmpty;
    var s, step := states[j], steps[j];
    assert Enabled(s, step.thread, step.choice) && Do(s, step.thread, step.choice) == Ok(states[j + 1]);
    IdleFrom(states, steps, t, j);
    if s.threads[t].pc == Exit(NULL) {
      k := ExitEmpty(states, steps, t, j);
    } else {
      k := j;
    }
  }

  lemma IdleFrom(states: seq<State>, steps: seq<Step>, t: ThreadId, j: nat)
    requires |states| == |steps| + 1 && j < |steps| && steps[j].thread == t
    requires Enabled(states[j], t, steps[j].choice) && Do(states[j], t, steps[j].choice) == Ok(states[j + 1])
    requires InPop(states[j].threads[t].pc) && t in states[j + 1].threads && states[j + 1].threads[t].pc.Idle?
    ensures states[j].threads[t].pc == Exit(NULL) || FindsEmpty(states, steps, t, j)
  {
    hide Ptr, Tagged;
  }

  // ---------------------------------------------------------------------------------------------
  // When a push or a migration ends, in any run
  // ---------------------------------------------------------------------------------------------

  /** Inside `mi_abandoned_push` of a segment. */
  predicate Pushes(pc: Pc, x: Segment) {
    pc == PushRead(x) || (pc.PushLink? && pc.seg == x) || (pc.PushCas? && pc.seg == x)
  }

  /** Inside `mi_abandoned_visited_push` of a segment. */
  predicate Visits(pc: Pc, x: Segment) {
    pc == VisitRead(x) || (pc.VisitLink? && pc.seg == x) || (pc.VisitCas? && pc.seg == x)
  }

  /**
   Whatever the other threads do, a push goes on until its segment is the first of its list, before those that
   were on it, and out of the hands of the thread.
   */
  lemma PushEndsPushed(s: State, g: History, t: ThreadId, c: Choice, x: Segment)
    requires Inv(s, g) && Enabled(s, t, c) && Do(s, t, c).Ok? && (Pushes(s.threads[t].pc, x) || Visits(s.threads[t].pc, x))
    ensures t in Do(s, t, c).state.threads
    ensures
      var s' := Do(s, t, c).state;
      var pc, pc' := s.threads[t].pc, s'.threads[t].pc;
      if pc'.Idle? then
        && x !in s'.threads[t].segs && x in s'.next
        && (Pushes(pc, x) ==> Ptr(s'.abandoned) == x && s'.next[x] == Ptr(s.abandoned) && s'.visited == s.visited)
        && (Visits(pc, x) ==> s'.visited == x && s'.next[x] == s.visited && s'.abandoned == s.abandoned)
      else (Pushes(pc, x) ==> Pushes(pc', x)) && (Visits(pc, x) ==> Visits(pc', x))
  {
    hide Linked, ChainOk, NoDup, ListIs, SetIs, Guard, ReadersOf, ChainLinks, Windows, Tagged, Ptr, Tag;
    assert HandsOk(s.next, s.threads[t]);
    TaggedPtr(x, s.abandoned);
  }

  /** Inside `mi_abandoned_visited_revisit`, with the chain in hand. */
  predicate Migrates(pc: Pc) {
    pc.SwapRead? || pc.Swap? || pc.Walk? || pc.TailRead? || pc.TailLink? || pc.TailCas?
  }

  /** Whatever the other threads do, a migration goes on until its chain comes before the abandoned list. */
  lemma MigrationEnds(s: State, g: History, t: ThreadId, c: Choice)
    requires Inv(s, g) && Enabled(s, t, c) && Do(s, t, c).Ok? && Migrates(s.threads[t].pc)
    ensures t in Do(s, t, c).state.threads
    ensures
      var s' := Do(s, t, c).state;
      var pc, pc' := s.threads[t].pc, s'.threads[t].pc;
      (Migrates(pc') && pc'.first == pc.first) || (pc'.Enter? && Ptr(s'.abandoned) == pc.first)
  {
    hide Linked, ChainOk, NoDup, ListIs, SetIs, Guard, ReadersOf, ChainLinks, Windows, HandLinks, Tagged, Ptr, Tag;
    TaggedPtr(s.threads[t].pc.first, s.abandoned);
    if s.threads[t].pc.Swap? { TaggedPtr(s.threads[t].pc.first, s.threads[t].pc.ts); }
    if s.threads[t].pc.TailCas? { TaggedPtr(s.threads[t].pc.first, s.threads[t].pc.ts); }
  }
}
