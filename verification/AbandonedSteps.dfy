/** Every timely step keeps the invariant of the abandoned lists. */
module AbandonedSteps {
  import opened AbandonedLists
  import opened AbandonedInvariant

  // ---------------------------------------------------------------------------------------------
  // Links that another thread's step leaves alone
  // ---------------------------------------------------------------------------------------------

  /** The thread's own segments: in its hands or in the chain it grabbed. */
  ghost predicate Own(at: Places, t: ThreadId, x: Segment) {
    IsAt(at, x, InHands(t)) || IsAt(at, x, InChain(t))
  }

  /** Only links of the thread's own segments, or of segments that were not there, differ. */
  ghost predicate Agree(next: Links, next': Links, at: Places, t: ThreadId) {
    forall x | x in at && !Own(at, t, x) :: x in next && x in next' && next'[x] == next[x]
  }

  lemma LinksAgree(next: Links, next': Links, list: seq<Segment>)
    requires Links1(next, list)
    requires forall x | x in list :: x in next' && next'[x] == next[x]
    ensures Links1(next', list)
    ensures forall x | x in list :: x in next' && next'[x] == next[x]
    ensures list != [] ==> list[|list| - 1] in next && next'[list[|list| - 1]] == next[list[|list| - 1]]
  {
    if list != [] { assert list[|list| - 1] in list; }
    forall i | 0 <= i < |list| - 1 ensures next'[list[i]] == list[i + 1] { assert list[i] in list; }
  }

  lemma ListAgrees(next: Links, next': Links, at: Places, t: ThreadId, list: seq<Segment>, place: Place)
    requires Agree(next, next', at, t) && ListIs(list, at, place) && place != InHands(t) && place != InChain(t)
    ensures forall x | x in list :: x in next' && next'[x] == next[x]
  {
    forall x | x in list ensures x in next' && next'[x] == next[x] { assert IsAt(at, x, place); }
  }

  lemma LinkedAgrees(next: Links, next': Links, at: Places, t: ThreadId, head: Segment, list: seq<Segment>, place: Place)
    requires Linked(next, head, list)
    requires Agree(next, next', at, t) && ListIs(list, at, place) && place != InHands(t) && place != InChain(t)
    ensures Linked(next', head, list)
  {
    hide Agree, ListIs;
    ListAgrees(next, next', at, t, list, place);
    LinksAgree(next, next', list);
  }

  lemma ChainAgrees(next: Links, next': Links, at: Places, t: ThreadId, u: ThreadId, pc: Pc, list: seq<Segment>)
    requires ChainOk(next, pc, list) && t != u
    requires Agree(next, next', at, t) && ListIs(list, at, InChain(u))
    ensures ChainOk(next', pc, list)
  {
    hide Agree, ListIs;
    if list != [] {
      ListAgrees(next, next', at, t, list, InChain(u));
      OpenLinks(next, pc, list);
      LinksAgree(next, next', list);
    }
  }

  lemma OpenLinks(next: Links, pc: Pc, list: seq<Segment>)
    requires ChainOk(next, pc, list) && list != []
    ensures Links1(next, list)
  {
  }

  lemma HandsAgree(next: Links, next': Links, at: Places, t: ThreadId, u: ThreadId, th: Thread)
    requires HandsOk(next, th) && t != u
    requires Agree(next, next', at, t) && SetIs(th.segs, at, InHands(u))
    ensures HandsOk(next', th)
  {
    forall x | x in th.segs ensures x in next' && x in next && next'[x] == next[x] { assert IsAt(at, x, InHands(u)); }
  }

  lemma SeenAgrees(next: Links, next': Links, at: Places, t: ThreadId, ab: seq<Segment>, abandoned: Word, updates: nat, pc: Pc)
    requires SeenOk(next, abandoned, updates, pc)
    requires Agree(next, next', at, t) && ListIs(ab, at, InAbandoned) && Ptr(abandoned) == First(ab)
    ensures SeenOk(next', abandoned, updates, pc)
  {
    hide Ptr, Tag;
    if ab != [] {
      assert ab[0] in ab;
      assert IsAt(at, ab[0], InAbandoned);
    }
  }

  // ---------------------------------------------------------------------------------------------
  // One thread moves: what the invariant says of all threads
  // ---------------------------------------------------------------------------------------------

  lemma ChainLinksStep(next: Links, next': Links, threads: Threads, chains: map<ThreadId, seq<Segment>>, at: Places,
                       t: ThreadId, th: Thread, chain: seq<Segment>)
    requires ChainLinks(next, threads, chains) && ChainsAt(chains, threads, at) && Agree(next, next', at, t)
    requires t in threads && ChainOk(next', th.pc, chain)
    ensures ChainLinks(next', threads[t := th], chains[t := chain])
  {
    hide Agree, ChainOk;
    forall u | u in threads && u != t ensures ChainOk(next', threads[u].pc, chains[u]) {
      ChainAgrees(next, next', at, t, u, threads[u].pc, chains[u]);
    }
  }

  lemma HandLinksStep(next: Links, next': Links, threads: Threads, at: Places, t: ThreadId, th: Thread)
    requires HandLinks(next, threads) && HandsAt(threads, at) && Agree(next, next', at, t)
    requires t in threads && HandsOk(next', th)
    ensures HandLinks(next', threads[t := th])
  {
    hide Agree, HandsOk;
    forall u | u in threads && u != t ensures HandsOk(next', threads[u]) {
      HandsAgree(next, next', at, t, u, threads[u]);
    }
  }

  lemma WindowsStep(next: Links, next': Links, abandoned: Word, updates: nat, threads: Threads, at: Places,
                    ab: seq<Segment>, t: ThreadId, th: Thread)
    requires Windows(next, abandoned, updates, threads) && Agree(next, next', at, t)
    requires ListIs(ab, at, InAbandoned) && Ptr(abandoned) == First(ab)
    requires t in threads && SeenOk(next', abandoned, updates, th.pc)
    ensures Windows(next', abandoned, updates, threads[t := th])
  {
    hide Agree, SeenOk, Ptr, Tag;
    forall u | u in threads && u != t ensures SeenOk(next', abandoned, updates, threads[u].pc) {
      SeenAgrees(next, next', at, t, ab, abandoned, updates, threads[u].pc);
    }
  }

  /** An update of `abandoned` leaves every open window one more update behind. */
  lemma WindowsUpdate(next: Links, next': Links, abandoned: Word, abandoned': Word, updates: nat, threads: Threads,
                      t: ThreadId, th: Thread)
    requires Windows(next, abandoned, updates, threads)
    requires t in threads && !th.pc.PopNext? && !th.pc.PopCas?
    requires Tag(abandoned') == (Tag(abandoned) + 1) % TAGS
    ensures Windows(next', abandoned', updates + 1, threads[t := th])
  {
    hide Ptr, Tag;
    var threads' := threads[t := th];
    forall u | u in threads' ensures SeenOk(next', abandoned', updates + 1, threads'[u].pc) {
      if u != t { assert SeenOk(next, abandoned, updates, threads[u].pc); }
    }
  }

  lemma ReadersStep(threads: Threads, t: ThreadId, th: Thread)
    requires t in threads
    ensures |ReadersOf(threads[t := th])| + (if Reading(threads[t].pc) then 1 else 0)
         == |ReadersOf(threads)| + (if Reading(th.pc) then 1 else 0)
  {
    var before, after := ReadersOf(threads), ReadersOf(threads[t := th]);
    assert before - {t} == after - {t};
    Without(before, t);
    Without(after, t);
  }

  lemma Without(xs: set<ThreadId>, t: ThreadId)
    ensures |xs| == |xs - {t}| + (if t in xs then 1 else 0)
  {
    if t in xs { assert xs == (xs - {t}) + {t}; } else { assert xs == xs - {t}; }
  }

  lemma GuardStep(next: Links, next': Links, threads: Threads, t: ThreadId, th: Thread)
    requires Guard(next, threads) && t in threads
    requires forall u | u in threads && u != t && threads[u].pc.PopNext? :: Ptr(threads[u].pc.ts) in next'
    requires th.pc.Safe? ==> ReadersOf(threads) == {} || (threads[t].pc.Safe? && threads[t].pc.which == th.pc.which)
    requires th.pc.PopNext? ==> Readable(next', threads, Ptr(th.pc.ts))
    ensures Guard(next', threads[t := th])
  {
    hide Ptr;
    var threads' := threads[t := th];
    forall u | u in threads' && threads'[u].pc.PopNext? ensures Readable(next', threads', Ptr(threads'[u].pc.ts)) {
      if u != t {
        assert u in ReadersOf(threads);
        assert Readable(next, threads, Ptr(threads[u].pc.ts));
      }
    }
  }

  lemma GuardKept(next: Links, next': Links, threads: Threads)
    requires Guard(next, threads) && next.Keys <= next'.Keys
    ensures forall u | u in threads && threads[u].pc.PopNext? :: Ptr(threads[u].pc.ts) in next'
  {
    forall u | u in threads && threads[u].pc.PopNext? ensures Ptr(threads[u].pc.ts) in next' {
      assert Readable(next, threads, Ptr(threads[u].pc.ts));
    }
  }

  // ---------------------------------------------------------------------------------------------
  // Steps that move no segment
  // ---------------------------------------------------------------------------------------------

  ghost predicate PcOk(s: State, g: History, t: ThreadId, next': Links, pc: Pc)
    requires t in s.threads && t in g.chains
  {
    && ChainOk(next', pc, g.chains[t])
    && HandsOk(next', s.threads[t].(pc := pc))
    && SeenOk(next', s.abandoned, s.updates, pc)
    && (pc.PopNext? ==> Readable(next', s.threads, Ptr(pc.ts)))
    && (pc.Safe? ==> ReadersOf(s.threads) == {})
  }

  lemma MoveKeeps(s: State, g: History, t: ThreadId, next': Links, pc: Pc, s': State)
    requires Inv(s, g) && t in s.threads && t in g.chains
    requires Agree(s.next, next', g.at, t) && next'.Keys == s.next.Keys
    requires PcOk(s, g, t, next', pc)
    requires s' == Put(s, t, pc).(next := next', readers := s'.readers)
    requires s'.readers + (if Reading(s.threads[t].pc) then 1 else 0) == s.readers + (if Reading(pc) then 1 else 0)
    ensures Inv(s', g)
  {
    hide Agree, ListIs, SetIs, Linked, Ptr, Tag, ChainOk, HandsOk, SeenOk, Readable, Reading, Windows, Guard,
         ChainLinks, HandLinks, ReadersOf;
    var th := s.threads[t].(pc := pc);
    assert g.chains[t := g.chains[t]] == g.chains;
    ChainLinksStep(s.next, next', s.threads, g.chains, g.at, t, th, g.chains[t]);
    HandLinksStep(s.next, next', s.threads, g.at, t, th);
    LinkedAgrees(s.next, next', g.at, t, Ptr(s.abandoned), g.ab, InAbandoned);
    LinkedAgrees(s.next, next', g.at, t, s.visited, g.vis, InVisited);
    LinkedFirst(s.next, Ptr(s.abandoned), g.ab);
    WindowsStep(s.next, next', s.abandoned, s.updates, s.threads, g.at, g.ab, t, th);
    ReadersStep(s.threads, t, th);
    GuardKept(s.next, next', s.threads);
    GuardStep(s.next, next', s.threads, t, th);
  }

  lemma LinkedFirst(next: Links, head: Segment, list: seq<Segment>)
    requires Linked(next, head, list)
    ensures head == First(list)
  {
  }

  // ---------------------------------------------------------------------------------------------
  // Steps that move segments
  // ---------------------------------------------------------------------------------------------

  function Moved(at: Places, xs: set<Segment>, place: Place): Places {
    map x | x in at :: if x in xs then place else at[x]
  }

  /** Only the thread's own places and the shared lists change. */
  ghost predicate OthersSame(at: Places, at': Places, t: ThreadId) {
    forall x, u | u != t ::
      && (IsAt(at, x, InHands(u)) <==> IsAt(at', x, InHands(u)))
      && (IsAt(at, x, InChain(u)) <==> IsAt(at', x, InChain(u)))
  }

  lemma ChainsAtStep(chains: map<ThreadId, seq<Segment>>, threads: Threads, at: Places, at': Places,
                     t: ThreadId, th: Thread, chain: seq<Segment>)
    requires ChainsAt(chains, threads, at) && OthersSame(at, at', t)
    requires t in threads && ListIs(chain, at', InChain(t))
    ensures ChainsAt(chains[t := chain], threads[t := th], at')
  {
    forall u | u in threads && u != t ensures ListIs(chains[u], at', InChain(u)) {
      assert ListIs(chains[u], at, InChain(u));
    }
    forall x | x in at' && at'[x].InChain? ensures at'[x].thread in threads {
      if at'[x].thread != t {
        assert IsAt(at', x, InChain(at'[x].thread));
        assert IsAt(at, x, InChain(at'[x].thread));
      }
    }
  }

  lemma HandsAtStep(threads: Threads, at: Places, at': Places, t: ThreadId, th: Thread)
    requires HandsAt(threads, at) && OthersSame(at, at', t)
    requires t in threads && SetIs(th.segs, at', InHands(t))
    ensures HandsAt(threads[t := th], at')
  {
    forall u | u in threads && u != t ensures SetIs(threads[u].segs, at', InHands(u)) {
      assert SetIs(threads[u].segs, at, InHands(u));
    }
    forall x | x in at' && at'[x].InHands? ensures at'[x].thread in threads {
      if at'[x].thread != t {
        assert IsAt(at', x, InHands(at'[x].thread));
        assert IsAt(at, x, InHands(at'[x].thread));
      }
    }
  }

  /** The parts of the invariant that speak of threads, after thread `t` moved segments of its own. */
  lemma ThreadsKeep(s: State, g: History, t: ThreadId, next': Links, at': Places, th: Thread, chain: seq<Segment>)
    requires Inv(s, g) && t in s.threads && Agree(s.next, next', g.at, t) && OthersSame(g.at, at', t)
    requires ListIs(chain, at', InChain(t)) && SetIs(th.segs, at', InHands(t))
    requires ChainOk(next', th.pc, chain) && HandsOk(next', th)
    requires !th.pc.PopNext? && !th.pc.Safe? && next'.Keys >= s.next.Keys
    ensures var threads' := s.threads[t := th];
      && ChainLinks(next', threads', g.chains[t := chain]) && ChainsAt(g.chains[t := chain], threads', at')
      && HandLinks(next', threads') && HandsAt(threads', at')
      && Guard(next', threads')
      && |ReadersOf(threads')| + (if Reading(s.threads[t].pc) then 1 else 0)
         == s.readers + (if Reading(th.pc) then 1 else 0)
  {
    hide Agree, OthersSame, ListIs, SetIs, Linked, Ptr, Tag, ChainOk, HandsOk, SeenOk, Readable, Reading,
         Windows, Guard, ChainLinks, HandLinks, ChainsAt, HandsAt, ReadersOf;
    ChainLinksStep(s.next, next', s.threads, g.chains, g.at, t, th, chain);
    HandLinksStep(s.next, next', s.threads, g.at, t, th);
    ChainsAtStep(g.chains, s.threads, g.at, at', t, th, chain);
    HandsAtStep(s.threads, g.at, at', t, th);
    ReadersStep(s.threads, t, th);
    GuardKept(s.next, next', s.threads);
    GuardStep(s.next, next', s.threads, t, th);
  }

  /** A thread that is in neither CAS window and does not update `abandoned`. */
  lemma WindowsKept(s: State, g: History, t: ThreadId, next': Links, th: Thread)
    requires Inv(s, g) && t in s.threads && Agree(s.next, next', g.at, t)
    requires !th.pc.PopNext? && !th.pc.PopCas?
    ensures Windows(next', s.abandoned, s.updates, s.threads[t := th])
  {
    hide Agree, ListIs, SetIs, Ptr, Tag, Windows, Guard, ChainLinks, HandLinks, ChainsAt, HandsAt, ReadersOf;
    WindowsStep(s.next, next', s.abandoned, s.updates, s.threads, g.at, g.ab, t, th);
  }

  lemma SameAgrees(s: State, g: History, t: ThreadId)
    requires Mapped(s.next, g.at)
    ensures Agree(s.next, s.next, g.at, t)
  {
  }

  /** Two lists become one when the last link of the first leads to the head of the second. */
  lemma Join(next: Links, list: seq<Segment>, rest: seq<Segment>, head: Segment)
    requires list != [] && Links1(next, list) && next[list[|list| - 1]] == head && Linked(next, head, rest)
    ensures Linked(next, list[0], list + rest)
  {
    var whole := list + rest;
    forall i | 0 <= i < |whole| - 1 ensures whole[i] in next && next[whole[i]] == whole[i + 1] {
      assert whole[i] in whole;
      if i < |list| { assert whole[i] == list[i]; assert list[i] in list; } else { assert whole[i] == rest[i - |list|]; }
    }
  }

  function Elements(list: seq<Segment>): set<Segment> {
    set x | x in list
  }

  /** What publishing the thread's own list does to the places. */
  lemma PublishPlaces(at: Places, t: ThreadId, ab: seq<Segment>, list: seq<Segment>)
    requires NoDup(list) && (forall x | x in list :: Own(at, t, x)) && ListIs(ab, at, InAbandoned)
    ensures var at' := Moved(at, Elements(list), InAbandoned);
      ListIs(list + ab, at', InAbandoned) && OthersSame(at, at', t)
  {
    var at' := Moved(at, Elements(list), InAbandoned);
    forall x ensures x in list + ab <==> IsAt(at', x, InAbandoned) {
      assert x in list + ab <==> x in list || x in ab;
      if x in list { assert Own(at, t, x); }
    }
    forall x | x in list ensures x !in ab { assert Own(at, t, x); }
    ConcatNoDup(list, ab);
  }

  lemma ConcatNoDup(xs: seq<Segment>, ys: seq<Segment>)
    requires NoDup(xs) && NoDup(ys) && forall x | x in xs :: x !in ys
    ensures NoDup(xs + ys)
  {
    var whole := xs + ys;
    forall i, j | 0 <= i < j < |whole| ensures whole[i] != whole[j] {
      if i < |xs| <= j { assert xs[i] in xs; assert ys[j - |xs|] in ys; }
    }
  }

  lemma MovedElsewhere(at: Places, xs: set<Segment>, place: Place, list: seq<Segment>, other: Place)
    requires ListIs(list, at, other) && place != other && forall x | x in xs :: !IsAt(at, x, other)
    ensures ListIs(list, Moved(at, xs, place), other)
  {
  }

  lemma MovedElsewhereSet(at: Places, xs: set<Segment>, place: Place, ys: set<Segment>, other: Place)
    requires SetIs(ys, at, other) && place != other && forall x | x in xs :: !IsAt(at, x, other)
    ensures SetIs(ys, Moved(at, xs, place), other)
  {
  }

  /** The history after a list was published. */
  function Published(g: History, t: ThreadId, list: seq<Segment>, chain: seq<Segment>): History {
    History(list + g.ab, g.vis, g.chains[t := chain], Moved(g.at, Elements(list), InAbandoned))
  }

  /** A thread publishes a list of its own segments by a CAS on `abandoned`. */
  lemma PublishKeeps(s: State, g: History, t: ThreadId, list: seq<Segment>, th: Thread, chain: seq<Segment>, s': State)
    requires Inv(s, g) && t in s.threads && (th.pc.Idle? || th.pc.Enter?) && !Reading(s.threads[t].pc)
    requires list != [] && NoDup(list) && forall x | x in list :: Own(g.at, t, x)
    requires Links1(s.next, list) && s.next[list[|list| - 1]] == Ptr(s.abandoned)
    requires chain == [] && ListIs(chain, Moved(g.at, Elements(list), InAbandoned), InChain(t))
    requires SetIs(th.segs, Moved(g.at, Elements(list), InAbandoned), InHands(t))
    requires s' == s.(threads := s.threads[t := th], abandoned := Tagged(list[0], s.abandoned), updates := s.updates + 1)
    ensures Inv(s', Published(g, t, list, chain))
  {
    hide Agree, OthersSame, ListIs, SetIs, Linked, Ptr, Tag, Tagged, SeenOk, Readable, Windows, Guard,
         ChainLinks, HandLinks, ChainsAt, HandsAt, ReadersOf;
    var at' := Moved(g.at, Elements(list), InAbandoned);
    SameAgrees(s, g, t);
    PublishPlaces(g.at, t, g.ab, list);
    ThreadsKeep(s, g, t, s.next, at', th, chain);
    TaggedParts(list[0], s.abandoned);
    WindowsUpdate(s.next, s.next, s.abandoned, s'.abandoned, s.updates, s.threads, t, th);
    Join(s.next, list, g.ab, Ptr(s.abandoned));
    OwnElsewhere(g.at, t, list);
    MovedElsewhere(g.at, Elements(list), InAbandoned, g.vis, InVisited);
    MovedElsewhereSet(g.at, Elements(list), InAbandoned, s.pool, InPool);
  }

  lemma OwnElsewhere(at: Places, t: ThreadId, list: seq<Segment>)
    requires forall x | x in list :: Own(at, t, x)
    ensures forall x | x in Elements(list) :: !IsAt(at, x, InVisited) && !IsAt(at, x, InPool)
  {
  }

  lemma TaggedParts(x: Segment, w: Word)
    ensures Ptr(Tagged(x, w)) == x && Tag(Tagged(x, w)) == (Tag(w) + 1) % TAGS
  {
  }
}
