/** The main results about the abandoned lists: each speaks of every run. */
module AbandonedResults {
  import opened AbandonedLists
  import opened AbandonedInvariant
  import opened AbandonedSteps
  import opened AbandonedMoves
  import opened AbandonedTheorems

  /** The state after a run. */
  function Last(states: seq<State>): State
    requires states != []
  {
    states[|states| - 1]
  }

  /** In a timely run no step touches released memory or breaks an assertion. */
  lemma NoFault(states: seq<State>, steps: seq<Step>, step: Step)
    requires IsTimelyRun(states, steps)
    requires Enabled(Last(states), step.thread, step.choice) && InTime(Last(states), step)
    ensures Do(Last(states), step.thread, step.choice).Ok?
  {
    hide Inv, Enabled, Do, InTime;
    var g := RunInvariant(states, steps);
    var g' := StepKeeps(Last(states), g, step.thread, step.choice);
  }

  // ---------------------------------------------------------------------------------------------
  // Every segment is in exactly one place
  // ---------------------------------------------------------------------------------------------

  /** The lists that the heads and links of a state spell out. */
  datatype Lists = Lists(ab: seq<Segment>, vis: seq<Segment>, chains: map<ThreadId, seq<Segment>>)

  ghost predicate ListsOf(s: State, l: Lists) {
    && Linked(s.next, Ptr(s.abandoned), l.ab) && NoDup(l.ab)
    && Linked(s.next, s.visited, l.vis) && NoDup(l.vis)
    && (forall t | t in s.threads :: t in l.chains && ChainOk(s.next, s.threads[t].pc, l.chains[t]) && NoDup(l.chains[t]))
  }

  predicate In(s: State, l: Lists, x: Segment, place: Place) {
    match place
    case InAbandoned => x in l.ab
    case InVisited => x in l.vis
    case InChain(t) => t in s.threads && t in l.chains && x in l.chains[t]
    case InHands(t) => t in s.threads && x in s.threads[t].segs
    case InPool => x in s.pool
  }

  /**
   The lists of every state are acyclic, and every segment in memory is in exactly one of the
   abandoned list, the visited list, the chain one thread is migrating, one thread's hands and the
   free segments of the regions.
   */
  lemma ExactlyOnePlace(states: seq<State>, steps: seq<Step>) returns (l: Lists)
    requires IsTimelyRun(states, steps)
    ensures ListsOf(Last(states), l)
    ensures forall x | x in Last(states).next :: exists place ::
      In(Last(states), l, x, place) && forall other | In(Last(states), l, x, other) :: other == place
    ensures forall x, place | x !in Last(states).next :: !In(Last(states), l, x, place)
  {
    hide IsTimelyRun;
    var g := RunInvariant(states, steps);
    var s := Last(states);
    l := Lists(g.ab, g.vis, g.chains);
    assert ListsOf(s, l) by { Spelled(s, g); }
    forall x, place ensures In(s, l, x, place) <==> IsAt(g.at, x, place) { InIff(s, g, x, place); }
    InvMapped(s, g);
    forall x | x in s.next
      ensures exists place :: In(s, l, x, place) && forall other | In(s, l, x, other) :: other == place
    {
      assert In(s, l, x, g.at[x]);
    }
  }

  lemma Spelled(s: State, g: History)
    requires Inv(s, g)
    ensures ListsOf(s, Lists(g.ab, g.vis, g.chains))
  {
    hide Linked, ChainOk, NoDup, Windows, HandLinks, Guard, ReadersOf, Ptr;
    forall t | t in s.threads ensures t in g.chains && ChainOk(s.next, s.threads[t].pc, g.chains[t]) && NoDup(g.chains[t]) {
      assert ListIs(g.chains[t], g.at, InChain(t));
    }
  }

  lemma InIff(s: State, g: History, x: Segment, place: Place)
    requires Inv(s, g)
    ensures In(s, Lists(g.ab, g.vis, g.chains), x, place) <==> IsAt(g.at, x, place)
  {
    hide Linked, ChainOk, NoDup, Windows, HandLinks, Guard, ReadersOf, ChainLinks, Mapped;
    match place
    case InChain(t) => if t in s.threads { assert ListIs(g.chains[t], g.at, InChain(t)); }
    case InHands(t) => if t in s.threads { assert SetIs(s.threads[t].segs, g.at, InHands(t)); }
    case _ =>
  }

  // ---------------------------------------------------------------------------------------------
  // The reader guard
  // ---------------------------------------------------------------------------------------------

  /**
   When a thread has awaited the readers for segments in its hands, no popper is about to read one
   of their links, and they are on no list; and a popper never reads a link that is not in memory.
   */
  lemma ReaderGuard(states: seq<State>, steps: seq<Step>, t: ThreadId, u: ThreadId)
    requires IsTimelyRun(states, steps) && t in Last(states).threads && u in Last(states).threads
    requires Last(states).threads[t].pc.PopNext?
    ensures Ptr(Last(states).threads[t].pc.ts) in Last(states).next
    ensures Last(states).threads[u].pc.Safe? ==> Ptr(Last(states).threads[t].pc.ts) !in Last(states).threads[u].pc.which
  {
    hide IsTimelyRun, Ptr, Tag, ListIs, SetIs, Linked, Windows, ChainLinks, HandLinks, ReadersOf;
    var g := RunInvariant(states, steps);
    assert Readable(Last(states).next, Last(states).threads, Ptr(Last(states).threads[t].pc.ts));
  }

  /** The count of readers is exact, so a thread may wait for it to become zero. */
  lemma ReadersCounted(states: seq<State>, steps: seq<Step>)
    requires IsTimelyRun(states, steps)
    ensures Last(states).readers == |ReadersOf(Last(states).threads)|
  {
    hide IsTimelyRun, Ptr, Tag, ListIs, SetIs, Linked, Windows, ChainLinks, HandLinks;
    var g := RunInvariant(states, steps);
  }

  // ---------------------------------------------------------------------------------------------
  // Exactly when the CAS of a pop is right
  // ---------------------------------------------------------------------------------------------

  lemma NilIff(next: Links, head: Segment, list: seq<Segment>)
    requires NULL !in next && Linked(next, head, list)
    ensures head == NULL <==> list == []
    ensures NULL !in list
  {
    if list != [] { assert list[0] in list; }
  }

  /** Links and a head spell out only one list. */
  lemma {:induction false} LinkedUnique(next: Links, head: Segment, xs: seq<Segment>, ys: seq<Segment>)
    requires NULL !in next && Linked(next, head, xs) && Linked(next, head, ys)
    ensures xs == ys
    decreases |xs|
  {
    NilIff(next, head, xs);
    NilIff(next, head, ys);
    if xs != [] {
      Tail(next, head, xs);
      Tail(next, head, ys);
      LinkedUnique(next, next[head], xs[1..], ys[1..]);
      assert xs == [head] + xs[1..] && ys == [head] + ys[1..];
    }
  }

  lemma OpenTail(next: Links, first: Segment, last: Segment, list: seq<Segment>)
    requires Open(next, first, last, list) && NoDup(list)
    ensures list == [first] + list[1..]
    ensures first == last ==> list[1..] == []
    ensures first != last ==> first in next && Open(next, next[first], last, list[1..]) && NoDup(list[1..])
  {
    assert list[0] in list;
    if first != last { assert next[list[0]] == list[1]; }
  }

  lemma {:induction false} OpenUnique(next: Links, first: Segment, last: Segment, xs: seq<Segment>, ys: seq<Segment>)
    requires Open(next, first, last, xs) && Open(next, first, last, ys) && NoDup(xs) && NoDup(ys)
    ensures xs == ys
    decreases |xs|
  {
    OpenTail(next, first, last, xs);
    OpenTail(next, first, last, ys);
    if first != last {
      OpenUnique(next, next[first], last, xs[1..], ys[1..]);
    }
  }

  lemma ChainUnique(next: Links, pc: Pc, xs: seq<Segment>, ys: seq<Segment>)
    requires NULL !in next && ChainOk(next, pc, xs) && ChainOk(next, pc, ys) && NoDup(xs) && NoDup(ys)
    ensures xs == ys
  {
    hide Linked, Open, NoDup;
    match pc
    case SwapRead(first) => LinkedUnique(next, first, xs, ys);
    case Swap(first, _) => LinkedUnique(next, first, xs, ys);
    case Walk(first, _) => LinkedUnique(next, first, xs, ys);
    case TailRead(first, last) => OpenUnique(next, first, last, xs, ys);
    case TailLink(first, last, _) => OpenUnique(next, first, last, xs, ys);
    case TailCas(first, last, _) => OpenUnique(next, first, last, xs, ys);
    case _ =>
  }

  /** Two lists of the same segments that end in NULL have the same head. */
  lemma SameHead(next: Links, a: Segment, b: Segment, xs: seq<Segment>, ys: seq<Segment>)
    requires NULL !in next && Linked(next, a, xs) && Linked(next, b, ys) && NoDup(ys)
    requires forall x :: x in xs <==> x in ys
    ensures a == b
  {
    SomeElement(xs);
    SomeElement(ys);
    if ys != [] {
      assert xs[0] in ys;
      var k :| 0 <= k < |ys| && ys[k] == xs[0];
      Suffix(next, b, ys, k);
      LinkedUnique(next, a, xs, ys[k..]);
      assert ys[0] in ys[k..];
    }
  }

  lemma SomeElement(list: seq<Segment>)
    ensures list == [] || exists x :: x in list
  {
    if list != [] { assert list[0] in list; }
  }

  lemma Suffix(next: Links, head: Segment, list: seq<Segment>, k: nat)
    requires Linked(next, head, list) && k < |list|
    ensures Linked(next, list[k], list[k..])
  {
    var rest := list[k..];
    forall x | x in rest ensures x in next { assert x in list; }
    forall i | 0 <= i < |rest| - 1 ensures next[rest[i]] == rest[i + 1] { assert rest[i] == list[k + i]; }
  }

  /** The state after the CAS of a pop that compared equal. */
  function AfterPop(s: State, t: ThreadId): State
    requires t in s.threads && s.threads[t].pc.PopCas?
  {
    var x := Ptr(s.abandoned);
    PutSegs(s, t, Exit(x), s.threads[t].segs + {x}).(abandoned := s.threads[t].pc.next, updates := s.updates + 1)
  }

  /** Whatever history fits the state after the pop, the abandoned list lost the popped segment only. */
  lemma PoppedOnly(s: State, g: History, t: ThreadId, g': History, y: Segment)
    requires Inv(s, g) && t in s.threads && s.threads[t].pc.PopCas? && s.threads[t].pc.ts == s.abandoned
    requires Inv(AfterPop(s, t), g')
    ensures y in g'.ab <==> y in g.ab && y != Ptr(s.abandoned)
  {
    hide Inv, Linked, Ptr, NoDup, ChainOk, ListIs;
    var s' := AfterPop(s, t);
    var x := Ptr(s.abandoned);
    assert SeenOk(s.next, s.abandoned, s.updates, s.threads[t].pc) by { Own1(s, g, t); }
    EmptyIff(s, g);
    InvMapped(s, g);
    InvMapped(s', g');
    var l, l' := Lists(g.ab, g.vis, g.chains), Lists(g'.ab, g'.vis, g'.chains);
    Spelled(s, g);
    Spelled(s', g');
    assert g'.vis == g.vis by { LinkedUnique(s.next, s.visited, g.vis, g'.vis); }
    forall u | u in s.threads ensures u in g.chains && u in g'.chains && g'.chains[u] == g.chains[u] {
      if u != t { ChainUnique(s.next, s.threads[u].pc, g.chains[u], g'.chains[u]); }
      else { Own1(s, g, t); Own1(s', g', t); }
    }
    forall place ensures In(s, l, y, place) <==> IsAt(g.at, y, place) { InIff(s, g, y, place); }
    forall place ensures In(s', l', y, place) <==> IsAt(g'.at, y, place) { InIff(s', g', y, place); }
    assert g.ab != [] && x == g.ab[0];
    SameElsewhere(s, t, l, l', y);
    if y in g.at {
      assert In(s, l, y, g.at[y]) && In(s', l', y, g'.at[y]);
    }
    assert y in g.ab <==> In(s, l, y, InAbandoned);
    assert y in g'.ab <==> In(s', l', y, InAbandoned);
  }

  /** The pop changes the membership of nothing but the abandoned list, and of the popped segment. */
  lemma SameElsewhere(s: State, t: ThreadId, l: Lists, l': Lists, y: Segment)
    requires t in s.threads && s.threads[t].pc.PopCas? && l'.vis == l.vis
    requires forall u | u in s.threads :: u in l.chains && u in l'.chains && l'.chains[u] == l.chains[u]
    ensures forall place: Place | !place.InAbandoned? && y != Ptr(s.abandoned) ::
      In(s, l, y, place) <==> In(AfterPop(s, t), l', y, place)
    ensures y == Ptr(s.abandoned) ==> In(AfterPop(s, t), l', y, InHands(t))
  {
    hide Ptr;
  }

  /**
   A pop whose CAS compares equal keeps the lists in order exactly if the link it read before is
   the one the segment still has.
   */
  lemma PopRightIff(s: State, g: History, t: ThreadId)
    requires Inv(s, g) && t in s.threads && s.threads[t].pc.PopCas? && s.threads[t].pc.ts == s.abandoned
    ensures Ptr(s.abandoned) in s.next
    ensures (exists g' :: Inv(AfterPop(s, t), g')) <==> s.next[Ptr(s.abandoned)] == Ptr(s.threads[t].pc.next)
  {
    hide Inv, Linked, Ptr, Tag, NoDup, ListIs;
    var x, nx := Ptr(s.abandoned), s.threads[t].pc.next;
    Own1(s, g, t);
    EmptyIff(s, g);
    InvMapped(s, g);
    Spelled(s, g);
    Tail(s.next, x, g.ab);
    if s.next[x] == Ptr(nx) {
      var g' := PopChecked(s, g, t, nx, AfterPop(s, t));
    }
    if g' :| Inv(AfterPop(s, t), g') {
      var rest := g.ab[1..];
      Spelled(AfterPop(s, t), g');
      assert g.ab == [x] + rest;
      TailNoDup(g.ab);
      forall y ensures y in g'.ab <==> y in rest { PoppedOnly(s, g, t, g', y); }
      SameHead(s.next, Ptr(nx), s.next[x], g'.ab, rest);
    }
  }

  lemma TailNoDup(list: seq<Segment>)
    requires list != [] && NoDup(list)
    ensures NoDup(list[1..]) && list[0] !in list[1..]
  {
  }
}
