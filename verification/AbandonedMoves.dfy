/** Steps that move segments between the lists, the pool and the hands of threads. */
module AbandonedMoves {
  import opened AbandonedLists
  import opened AbandonedInvariant
  import opened AbandonedSteps

  /** A thread outside the migration of the visited list has no chain. */
  predicate Chainless(pc: Pc) {
    !pc.SwapRead? && !pc.Swap? && !pc.Walk? && !pc.TailRead? && !pc.TailLink? && !pc.TailCas?
  }

  lemma NoChain(s: State, g: History, t: ThreadId)
    requires Inv(s, g) && t in s.threads && Chainless(s.threads[t].pc)
    ensures t in g.chains && g.chains[t] == [] && g.chains[t := []] == g.chains
    ensures forall x :: !IsAt(g.at, x, InChain(t))
  {
    hide Linked, Windows, Guard, HandLinks, HandsAt, ReadersOf, NoDup, IsAt, Open;
    assert ListIs(g.chains[t], g.at, InChain(t));
  }

  lemma HandsHave(s: State, g: History, t: ThreadId, x: Segment)
    requires Inv(s, g) && t in s.threads && x in s.threads[t].segs
    ensures IsAt(g.at, x, InHands(t)) && x in s.next && x != NULL
  {
    hide Linked, Windows, Guard, ChainLinks, HandLinks, ChainsAt, ReadersOf;
    assert SetIs(s.threads[t].segs, g.at, InHands(t));
  }

  // ---------------------------------------------------------------------------------------------
  // From a thread's hands to a list or the pool
  // ---------------------------------------------------------------------------------------------

  lemma HandedPlaces(at: Places, t: ThreadId, segs: set<Segment>, x: Segment, place: Place)
    requires SetIs(segs, at, InHands(t)) && x in segs && !place.InHands? && !place.InChain?
    requires forall x :: !IsAt(at, x, InChain(t))
    ensures var at' := Moved(at, {x}, place);
      && SetIs(segs - {x}, at', InHands(t)) && ListIs([], at', InChain(t)) && OthersSame(at, at', t)
      && !IsAt(at, x, InAbandoned) && !IsAt(at, x, InVisited) && !IsAt(at, x, InPool)
  {
    var at' := Moved(at, {x}, place);
    forall y ensures !IsAt(at', y, InChain(t)) { assert !IsAt(at, y, InChain(t)); }
    NoneAt(at', InChain(t));
  }

  lemma NoneAt(at: Places, place: Place)
    requires forall x :: !IsAt(at, x, place)
    ensures ListIs([], at, place)
  {
    var none: seq<Segment> := [];
    forall x ensures x in none <==> IsAt(at, x, place) { assert !IsAt(at, x, place); }
  }

  lemma PushPlaces(at: Places, list: seq<Segment>, x: Segment, place: Place)
    requires ListIs(list, at, place) && x in at && !IsAt(at, x, place)
    ensures ListIs([x] + list, Moved(at, {x}, place), place)
  {
    var at' := Moved(at, {x}, place);
    forall y ensures y in [x] + list <==> IsAt(at', y, place) {}
  }

  /** The CAS that pushes on the visited list. */
  lemma VisitKeeps(s: State, g: History, t: ThreadId, x: Segment, s': State) returns (g': History)
    requires Inv(s, g) && t in s.threads && s.threads[t].pc == VisitCas(x, s.visited)
    requires s' == PutSegs(s, t, Idle, s.threads[t].segs - {x}).(visited := x)
    ensures Inv(s', g')
  {
    hide Agree, OthersSame, ListIs, SetIs, Linked, Ptr, Tag, SeenOk, Readable, Windows, Guard, ChainLinks, ReadersOf;
    var at' := Moved(g.at, {x}, InVisited);
    var th := Thread(Idle, s.threads[t].segs - {x});
    g' := g.(vis := [x] + g.vis, at := at');
    assert HandsOk(s.next, s.threads[t]);
    HandsHave(s, g, t, x);
    SameAgrees(s, g, t);
    NoChain(s, g, t);
    HandedPlaces(g.at, t, s.threads[t].segs, x, InVisited);
    PushPlaces(g.at, g.vis, x, InVisited);
    MovedElsewhere(g.at, {x}, InVisited, g.ab, InAbandoned);
    MovedElsewhereSet(g.at, {x}, InVisited, s.pool, InPool);
    ThreadsKeep(s, g, t, s.next, at', th, []);
    WindowsKept(s, g, t, s.next, th);
    Join(s.next, [x], g.vis, s.visited);
  }

  /** The CAS that pushes on the abandoned list. */
  lemma PushKeeps(s: State, g: History, t: ThreadId, x: Segment, s': State) returns (g': History)
    requires Inv(s, g) && t in s.threads && s.threads[t].pc == PushCas(x, s.abandoned)
    requires s' == PutSegs(s, t, Idle, s.threads[t].segs - {x}).(abandoned := Tagged(x, s.abandoned), updates := s.updates + 1)
    ensures Inv(s', g')
  {
    hide Agree, OthersSame, ListIs, SetIs, Linked, Ptr, Tag, Tagged, SeenOk, Readable, Windows, Guard,
         ChainLinks, ReadersOf;
    assert HandsOk(s.next, s.threads[t]);
    HandsHave(s, g, t, x);
    NoChain(s, g, t);
    HandedPlaces(g.at, t, s.threads[t].segs, x, InAbandoned);
    assert Elements([x]) == {x};
    g' := Published(g, t, [x], []);
    PublishKeeps(s, g, t, [x], Thread(Idle, s.threads[t].segs - {x}), [], s');
  }

  /** Giving a segment back to its region. */
  lemma UnclaimKeeps(s: State, g: History, t: ThreadId, x: Segment, s': State) returns (g': History)
    requires Inv(s, g) && t in s.threads && s.threads[t].pc.Idle? && x in s.threads[t].segs
    requires s' == PutSegs(s, t, Idle, s.threads[t].segs - {x}).(pool := s.pool + {x})
    ensures Inv(s', g')
  {
    hide Agree, OthersSame, ListIs, Linked, Ptr, Tag, SeenOk, Readable, Windows, Guard, ChainLinks, ReadersOf;
    var at' := Moved(g.at, {x}, InPool);
    var th := Thread(Idle, s.threads[t].segs - {x});
    g' := g.(at := at');
    HandsHave(s, g, t, x);
    SameAgrees(s, g, t);
    NoChain(s, g, t);
    HandedPlaces(g.at, t, s.threads[t].segs, x, InPool);
    MovedElsewhere(g.at, {x}, InPool, g.ab, InAbandoned);
    MovedElsewhere(g.at, {x}, InPool, g.vis, InVisited);
    ThreadsKeep(s, g, t, s.next, at', th, []);
    WindowsKept(s, g, t, s.next, th);
  }

  // ---------------------------------------------------------------------------------------------
  // To a thread's hands
  // ---------------------------------------------------------------------------------------------

  lemma TakenPlaces(at: Places, t: ThreadId, segs: set<Segment>, xs: set<Segment>, place: Place)
    requires SetIs(segs, at, InHands(t)) && !place.InHands? && !place.InChain? && forall x | x in xs :: IsAt(at, x, place)
    requires forall x :: !IsAt(at, x, InChain(t))
    ensures var at' := Moved(at, xs, InHands(t));
      && SetIs(segs + xs, at', InHands(t)) && ListIs([], at', InChain(t)) && OthersSame(at, at', t)
      && forall x, other | x in xs && other != place :: !IsAt(at, x, other)
  {
    var at' := Moved(at, xs, InHands(t));
    forall y ensures !IsAt(at', y, InChain(t)) { assert !IsAt(at, y, InChain(t)); }
    NoneAt(at', InChain(t));
  }

  lemma ClaimKeeps(s: State, g: History, t: ThreadId, xs: set<Segment>, s': State) returns (g': History)
    requires Inv(s, g) && t in s.threads && s.threads[t].pc.Idle? && xs <= s.pool
    requires s' == PutSegs(s, t, Idle, s.threads[t].segs + xs).(pool := s.pool - xs)
    ensures Inv(s', g')
  {
    hide Agree, OthersSame, ListIs, Linked, Ptr, Tag, SeenOk, Readable, Windows, Guard, ChainLinks, ReadersOf;
    var at' := Moved(g.at, xs, InHands(t));
    var th := Thread(Idle, s.threads[t].segs + xs);
    g' := g.(at := at');
    SameAgrees(s, g, t);
    NoChain(s, g, t);
    TakenPlaces(g.at, t, s.threads[t].segs, xs, InPool);
    MovedElsewhere(g.at, xs, InHands(t), g.ab, InAbandoned);
    MovedElsewhere(g.at, xs, InHands(t), g.vis, InVisited);
    ThreadsKeep(s, g, t, s.next, at', th, []);
    WindowsKept(s, g, t, s.next, th);
  }

  lemma PopPlaces(at: Places, list: seq<Segment>, place: Place, t: ThreadId)
    requires ListIs(list, at, place) && list != [] && !place.InHands?
    ensures IsAt(at, list[0], place) && ListIs(list[1..], Moved(at, {list[0]}, InHands(t)), place)
  {
    var x := list[0];
    var at' := Moved(at, {x}, InHands(t));
    assert x in list;
    assert list == [x] + list[1..];
    forall y ensures y in list[1..] <==> IsAt(at', y, place) {
      assert y in list <==> IsAt(at, y, place);
      assert y in list <==> y == x || y in list[1..];
    }
  }

  lemma Tail(next: Links, head: Segment, list: seq<Segment>)
    requires Linked(next, head, list) && list != [] && NULL !in list
    ensures head == list[0] && head in next && Linked(next, next[head], list[1..])
  {
    assert list[0] in list;
    if |list| > 1 { assert next[list[0]] == list[1]; }
  }

  /** The abandoned list is empty exactly if the pointer part of its word is NULL. */
  lemma EmptyIff(s: State, g: History)
    requires Inv(s, g)
    ensures Ptr(s.abandoned) == NULL <==> g.ab == []
    ensures Ptr(s.abandoned) == First(g.ab) && s.visited == First(g.vis) && NULL !in g.ab && NULL !in g.vis
  {
    hide Windows, Guard, ChainLinks, ChainsAt, HandLinks, HandsAt, ReadersOf, NoDup, Ptr, Tag;
    assert NULL !in g.at;
    assert !IsAt(g.at, NULL, InAbandoned) && !IsAt(g.at, NULL, InVisited);
    if g.ab != [] { assert g.ab[0] in g.ab; }
  }

  /** The CAS of a pop whose word is still the one it read, with no update in between. */
  lemma PopKeeps(s: State, g: History, t: ThreadId, next: Word, s': State) returns (g': History)
    requires Inv(s, g) && t in s.threads && s.threads[t].pc == PopCas(s.abandoned, s.updates, next)
    requires var x := Ptr(s.abandoned);
      s' == PutSegs(s, t, Exit(x), s.threads[t].segs + {x}).(abandoned := next, updates := s.updates + 1)
    ensures Inv(s', g')
  {
    hide Agree, ListIs, SetIs, Linked, Guard, ChainLinks, ChainsAt, HandsAt, HandLinks, ReadersOf, Ptr, Tag;
    assert SeenOk(s.next, s.abandoned, s.updates, s.threads[t].pc);
    g' := PopChecked(s, g, t, next, s');
  }

  /** The CAS of a pop is right if the link it read is the one the segment has now. */
  lemma PopChecked(s: State, g: History, t: ThreadId, next: Word, s': State) returns (g': History)
    requires Inv(s, g) && t in s.threads && s.threads[t].pc.PopCas? && Ptr(s.abandoned) != NULL
    requires Ptr(s.abandoned) in s.next ==> s.next[Ptr(s.abandoned)] == Ptr(next)
    requires Tag(next) == (Tag(s.abandoned) + 1) % TAGS
    requires var x := Ptr(s.abandoned);
      s' == PutSegs(s, t, Exit(x), s.threads[t].segs + {x}).(abandoned := next, updates := s.updates + 1)
    ensures Inv(s', g')
    ensures g'.at == Moved(g.at, {Ptr(s.abandoned)}, InHands(t))
  {
    hide Agree, OthersSame, ListIs, SetIs, Linked, Ptr, Tag, Readable, Windows, Guard, ChainLinks, ReadersOf, SeenOk;
    EmptyIff(s, g);
    var x := g.ab[0];
    var at' := Moved(g.at, {x}, InHands(t));
    var th := Thread(Exit(x), s.threads[t].segs + {x});
    g' := g.(ab := g.ab[1..], at := at');
    SameAgrees(s, g, t);
    NoChain(s, g, t);
    PopPlaces(g.at, g.ab, InAbandoned, t);
    TakenPlaces(g.at, t, s.threads[t].segs, {x}, InAbandoned);
    MovedElsewhere(g.at, {x}, InHands(t), g.vis, InVisited);
    MovedElsewhereSet(g.at, {x}, InHands(t), s.pool, InPool);
    ThreadsKeep(s, g, t, s.next, at', th, []);
    WindowsUpdate(s.next, s.next, s.abandoned, next, s.updates, s.threads, t, th);
    Tail(s.next, x, g.ab);
  }

  // ---------------------------------------------------------------------------------------------
  // Migrating the visited list
  // ---------------------------------------------------------------------------------------------

  lemma GrabPlaces(at: Places, t: ThreadId, list: seq<Segment>)
    requires ListIs(list, at, InVisited) && forall x :: !IsAt(at, x, InChain(t))
    ensures var at' := Moved(at, Elements(list), InChain(t));
      ListIs(list, at', InChain(t)) && ListIs([], at', InVisited) && OthersSame(at, at', t)
    ensures forall x | x in Elements(list) :: IsAt(at, x, InVisited)
  {
    var at' := Moved(at, Elements(list), InChain(t));
    forall x ensures x in list <==> IsAt(at', x, InChain(t)) {
      assert !IsAt(at, x, InChain(t));
      assert x in list <==> IsAt(at, x, InVisited);
    }
    forall x ensures !IsAt(at', x, InVisited) { assert x in list <==> IsAt(at, x, InVisited); }
    NoneAt(at', InVisited);
  }

  /** The exchange that takes over the whole visited list. */
  lemma GrabKeeps(s: State, g: History, t: ThreadId, s': State) returns (g': History)
    requires Inv(s, g) && t in s.threads && s.threads[t].pc.Grab? && s.visited != NULL
    requires s' == Put(s, t, SwapRead(s.visited)).(visited := NULL)
    ensures Inv(s', g')
  {
    hide Agree, OthersSame, ListIs, SetIs, Linked, Ptr, Tag, Readable, Windows, Guard, ChainLinks, ReadersOf, SeenOk;
    var at' := Moved(g.at, Elements(g.vis), InChain(t));
    var th := Thread(SwapRead(s.visited), s.threads[t].segs);
    g' := g.(vis := [], at := at', chains := g.chains[t := g.vis]);
    SameAgrees(s, g, t);
    NoChain(s, g, t);
    GrabPlaces(g.at, t, g.vis);
    MovedElsewhere(g.at, Elements(g.vis), InChain(t), g.ab, InAbandoned);
    MovedElsewhereSet(g.at, Elements(g.vis), InChain(t), s.pool, InPool);
    MovedElsewhereSet(g.at, Elements(g.vis), InChain(t), s.threads[t].segs, InHands(t));
    ThreadsKeep(s, g, t, s.next, at', th, g.vis);
    WindowsKept(s, g, t, s.next, th);
    LinkedNil(s.next);
  }

  lemma LinkedNil(next: Links)
    ensures Linked(next, NULL, [])
  {
  }

  lemma ChainPlaces(at: Places, t: ThreadId, segs: set<Segment>, list: seq<Segment>)
    requires ListIs(list, at, InChain(t)) && SetIs(segs, at, InHands(t))
    ensures var at' := Moved(at, Elements(list), InAbandoned);
      SetIs(segs, at', InHands(t)) && ListIs([], at', InChain(t))
    ensures NoDup(list) && forall x | x in list :: Own(at, t, x)
  {
    var at' := Moved(at, Elements(list), InAbandoned);
    forall x ensures !IsAt(at', x, InChain(t)) { assert x in list <==> IsAt(at, x, InChain(t)); }
    NoneAt(at', InChain(t));
  }

  /** The CAS that puts a grabbed chain before the abandoned list. */
  lemma PrependKeeps(s: State, g: History, t: ThreadId, last: Segment, s': State) returns (g': History)
    requires Inv(s, g) && t in s.threads && t in g.chains && !Reading(s.threads[t].pc)
    requires g.chains[t] != [] && Open(s.next, g.chains[t][0], last, g.chains[t]) && s.next[last] == Ptr(s.abandoned)
    requires s' == Put(s, t, Enter).(abandoned := Tagged(g.chains[t][0], s.abandoned), updates := s.updates + 1)
    ensures Inv(s', g')
  {
    hide Agree, OthersSame, Linked, Ptr, Tag, Tagged, Readable, Windows, Guard, ChainLinks, ReadersOf, SeenOk,
         NoDup, Own, IsAt, ListIs, SetIs;
    var list := g.chains[t];
    ChainPlaces(g.at, t, s.threads[t].segs, list);
    g' := Published(g, t, list, []);
    PublishKeeps(s, g, t, list, s.threads[t].(pc := Enter), [], s');
  }

  // ---------------------------------------------------------------------------------------------
  // Memory
  // ---------------------------------------------------------------------------------------------

  lemma MapPlaces(s: State, g: History, t: ThreadId, x: Segment, junk: Segment, at': Places)
    requires Inv(s, g) && t in s.threads && Chainless(s.threads[t].pc) && x !in s.next && x != NULL
    requires at' == g.at[x := InHands(t)]
    ensures ListIs(g.ab, at', InAbandoned) && ListIs(g.vis, at', InVisited) && SetIs(s.pool, at', InPool)
    ensures SetIs(s.threads[t].segs + {x}, at', InHands(t)) && ListIs([], at', InChain(t)) && OthersSame(g.at, at', t)
    ensures Agree(s.next, s.next[x := junk], g.at, t) && Mapped(s.next[x := junk], at')
  {
    hide Linked, Ptr, Tag, Readable, Windows, Guard, ChainLinks, ReadersOf, SeenOk, NoDup, ChainsAt, HandLinks;
    NoChain(s, g, t);
    assert SetIs(s.threads[t].segs, g.at, InHands(t));
    assert x !in g.at;
    forall y, p | y != x ensures IsAt(at', y, p) <==> IsAt(g.at, y, p) {}
    forall y ensures !IsAt(at', y, InChain(t)) { assert !IsAt(g.at, y, InChain(t)); }
    NoneAt(at', InChain(t));
  }

  lemma MapKeeps(s: State, g: History, t: ThreadId, x: Segment, junk: Segment, s': State) returns (g': History)
    requires Inv(s, g) && t in s.threads && s.threads[t].pc.Idle? && x !in s.next && x != NULL
    requires s' == PutSegs(s, t, Idle, s.threads[t].segs + {x}).(next := s.next[x := junk])
    ensures Inv(s', g')
  {
    hide Agree, OthersSame, ListIs, SetIs, Linked, Ptr, Tag, Readable, Windows, Guard, ChainLinks, ReadersOf,
         SeenOk, NoDup, ChainsAt, HandsAt;
    var at' := g.at[x := InHands(t)];
    var th := Thread(Idle, s.threads[t].segs + {x});
    g' := g.(at := at');
    NoChain(s, g, t);
    MapPlaces(s, g, t, x, junk, at');
    ThreadsKeep(s, g, t, s'.next, at', th, []);
    WindowsKept(s, g, t, s'.next, th);
    LinkedAgrees(s.next, s'.next, g.at, t, Ptr(s.abandoned), g.ab, InAbandoned);
    LinkedAgrees(s.next, s'.next, g.at, t, s.visited, g.vis, InVisited);
  }

  lemma UnmapPlaces(s: State, g: History, t: ThreadId, which: set<Segment>, at': Places)
    requires Inv(s, g) && t in s.threads && which <= s.threads[t].segs && Chainless(s.threads[t].pc)
    requires at' == g.at - which
    ensures ListIs(g.ab, at', InAbandoned) && ListIs(g.vis, at', InVisited) && SetIs(s.pool, at', InPool)
    ensures SetIs(s.threads[t].segs - which, at', InHands(t)) && ListIs([], at', InChain(t)) && OthersSame(g.at, at', t)
    ensures Agree(s.next, s.next - which, g.at, t) && Mapped(s.next - which, at')
  {
    hide Linked, Ptr, Tag, Readable, Windows, Guard, ChainLinks, ReadersOf, SeenOk, NoDup, ChainsAt, HandLinks;
    NoChain(s, g, t);
    assert SetIs(s.threads[t].segs, g.at, InHands(t));
    forall x | x in which ensures IsAt(g.at, x, InHands(t)) {}
    forall y ensures !IsAt(at', y, InChain(t)) { assert !IsAt(g.at, y, InChain(t)); }
    NoneAt(at', InChain(t));
    forall x, u | u != t ensures IsAt(g.at, x, InHands(u)) <==> IsAt(at', x, InHands(u)) {}
    forall x, u | u != t ensures IsAt(g.at, x, InChain(u)) <==> IsAt(at', x, InChain(u)) {}
  }

  /** Releasing segments whose readers are gone. */
  lemma UnmapKeeps(s: State, g: History, t: ThreadId, which: set<Segment>, s': State) returns (g': History)
    requires Inv(s, g) && t in s.threads && s.threads[t].pc == Safe(which)
    requires s' == PutSegs(s, t, Idle, s.threads[t].segs - which).(next := s.next - which)
    ensures Inv(s', g')
  {
    hide Agree, OthersSame, ListIs, SetIs, Linked, Ptr, Tag, Readable, Windows, Guard, ChainLinks, ReadersOf,
         SeenOk, NoDup, ChainsAt, HandsAt;
    var at' := g.at - which;
    var th := Thread(Idle, s.threads[t].segs - which);
    g' := g.(at := at');
    assert HandsOk(s.next, s.threads[t]);
    NoChain(s, g, t);
    UnmapPlaces(s, g, t, which, at');
    ChainLinksStep(s.next, s'.next, s.threads, g.chains, g.at, t, th, []);
    HandLinksStep(s.next, s'.next, s.threads, g.at, t, th);
    ChainsAtStep(g.chains, s.threads, g.at, at', t, th, []);
    HandsAtStep(s.threads, g.at, at', t, th);
    ReadersStep(s.threads, t, th);
    StillThere(s.next, s.threads, t);
    GuardStep(s.next, s'.next, s.threads, t, th);
    WindowsKept(s, g, t, s'.next, th);
    LinkedAgrees(s.next, s'.next, g.at, t, Ptr(s.abandoned), g.ab, InAbandoned);
    LinkedAgrees(s.next, s'.next, g.at, t, s.visited, g.vis, InVisited);
  }

  /** No popper is about to read a link of a segment that is being released. */
  lemma StillThere(next: Links, threads: Threads, t: ThreadId)
    requires Guard(next, threads) && t in threads && threads[t].pc.Safe?
    ensures forall u | u in threads && threads[u].pc.PopNext? :: Ptr(threads[u].pc.ts) in next - threads[t].pc.which
  {
    hide Ptr;
    forall u | u in threads && threads[u].pc.PopNext? ensures Ptr(threads[u].pc.ts) in next - threads[t].pc.which {
      assert Readable(next, threads, Ptr(threads[u].pc.ts));
    }
  }
}
