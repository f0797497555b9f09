/** The abandoned lists: the invariant holds in every timely run. */
module AbandonedTheorems {
  import opened AbandonedLists
  import opened AbandonedInvariant
  import opened AbandonedSteps
  import opened AbandonedMoves

  /** A step that only moves the thread on. */
  lemma GoKeeps(s: State, g: History, t: ThreadId, pc: Pc)
    requires Inv(s, g) && t in s.threads && t in g.chains && PcOk(s, g, t, s.next, pc)
    requires Reading(pc) == Reading(s.threads[t].pc)
    ensures Inv(Put(s, t, pc), g)
  {
    hide Inv, PcOk, Agree;
    assert Agree(s.next, s.next, g.at, t) by { InvMapped(s, g); SameAgrees(s, g, t); }
    MoveKeeps(s, g, t, s.next, pc, Put(s, t, pc));
  }

  lemma InvMapped(s: State, g: History)
    requires Inv(s, g)
    ensures Mapped(s.next, g.at)
  {
  }

  /** A step that writes the link of a segment of the thread's own. */
  lemma WriteKeeps(s: State, g: History, t: ThreadId, x: Segment, y: Segment, pc: Pc)
    requires Inv(s, g) && t in s.threads && t in g.chains && Own(g.at, t, x)
    requires x in s.next ==> PcOk(s, g, t, s.next[x := y], pc)
    requires Reading(pc) == Reading(s.threads[t].pc)
    ensures SetNext(Put(s, t, pc), x, y).Ok? && Inv(SetNext(Put(s, t, pc), x, y).state, g)
  {
    hide Inv, PcOk;
    InvMapped(s, g);
    MoveKeeps(s, g, t, s.next[x := y], pc, SetNext(Put(s, t, pc), x, y).state);
  }

  lemma Own1(s: State, g: History, t: ThreadId)
    requires Inv(s, g) && t in s.threads
    ensures t in g.chains && ChainOk(s.next, s.threads[t].pc, g.chains[t]) && HandsOk(s.next, s.threads[t])
    ensures SeenOk(s.next, s.abandoned, s.updates, s.threads[t].pc)
    ensures Chainless(s.threads[t].pc) ==> g.chains[t] == []
    ensures ListIs(g.chains[t], g.at, InChain(t))
  {
    hide Linked, Ptr, Tag, NoDup, IsAt, Open;
  }

  lemma PushStepKeeps(s: State, g: History, t: ThreadId, ok: bool) returns (g': History)
    requires Inv(s, g) && t in s.threads
    requires var pc := s.threads[t].pc; pc.PushRead? || pc.PushLink? || pc.PushCas?
    ensures ContinuePush(s, t, ok).Ok? && Inv(ContinuePush(s, t, ok).state, g')
  {
    hide Inv, Linked, Ptr, Tag, Open, Tagged, ListIs, Readable, ReadersOf;
    Own1(s, g, t);
    g' := g;
    match s.threads[t].pc
    case PushRead(x) => GoKeeps(s, g, t, PushLink(x, s.abandoned));
    case PushLink(x, ts) => HandsHave(s, g, t, x); WriteKeeps(s, g, t, x, Ptr(ts), PushCas(x, ts));
    case PushCas(x, ts) =>
      if ok && s.abandoned == ts {
        g' := PushKeeps(s, g, t, x, ContinuePush(s, t, ok).state);
      } else {
        GoKeeps(s, g, t, PushRead(x));
      }
  }

  lemma VisitStepKeeps(s: State, g: History, t: ThreadId, ok: bool) returns (g': History)
    requires Inv(s, g) && t in s.threads
    requires var pc := s.threads[t].pc; pc.VisitRead? || pc.VisitLink? || pc.VisitCas?
    ensures ContinueVisit(s, t, ok).Ok? && Inv(ContinueVisit(s, t, ok).state, g')
  {
    hide Inv, Linked, Ptr, Tag, Open, Tagged, ListIs, Readable, ReadersOf;
    Own1(s, g, t);
    g' := g;
    match s.threads[t].pc
    case VisitRead(x) => GoKeeps(s, g, t, VisitLink(x, s.visited));
    case VisitLink(x, head) => HandsHave(s, g, t, x); WriteKeeps(s, g, t, x, head, VisitCas(x, head));
    case VisitCas(x, head) =>
      if ok && s.visited == head {
        g' := VisitKeeps(s, g, t, x, ContinueVisit(s, t, ok).state);
      } else {
        GoKeeps(s, g, t, VisitRead(x));
      }
  }

  /** The walk to the end of the grabbed chain finds memory that is there, and ends at its last element. */
  lemma WalkOn(s: State, g: History, t: ThreadId, first: Segment, last: Segment)
    requires Inv(s, g) && t in s.threads && s.threads[t].pc == Walk(first, last)
    ensures t in g.chains && last in s.next
    ensures s.next[last] != NULL ==> ChainOk(s.next, Walk(first, s.next[last]), g.chains[t])
    ensures s.next[last] == NULL ==> Open(s.next, first, last, g.chains[t])
  {
    hide Ptr, Tag, NoDup, ReadersOf, Windows, Guard, HandLinks, HandsAt, Linked;
    Own1(s, g, t);
    var list := g.chains[t];
    assert list != [] && first == list[0] && Links1(s.next, list) && s.next[list[|list| - 1]] == NULL
      by { ChainParts(s.next, first, list); }
    var k :| 0 <= k < |list| && list[k] == last;
    if k < |list| - 1 {
      assert s.next[list[k]] == list[k + 1];
      assert list[k + 1] in list;
      assert list[k + 1] in s.next;
    }
  }

  lemma ChainParts(next: Links, first: Segment, list: seq<Segment>)
    requires Linked(next, first, list) && first != NULL
    ensures list != [] && first == list[0] && Links1(next, list) && next[list[|list| - 1]] == NULL
    ensures first in list
  {
  }

  lemma OwnLast(s: State, g: History, t: ThreadId, first: Segment, last: Segment)
    requires Inv(s, g) && t in s.threads && t in g.chains && Open(s.next, first, last, g.chains[t])
    ensures Own(g.at, t, last) && last in s.next
  {
    hide Ptr, Tag, NoDup, ReadersOf, Windows, Guard, HandLinks, HandsAt, Linked, ChainLinks;
    assert ListIs(g.chains[t], g.at, InChain(t));
    assert last in g.chains[t];
    assert IsAt(g.at, last, InChain(t));
  }

  /** Writing the last link does not open the chain elsewhere. */
  lemma Relinked(next: Links, first: Segment, last: Segment, list: seq<Segment>, y: Segment)
    requires Open(next, first, last, list) && NoDup(list)
    ensures Open(next[last := y], first, last, list)
  {
  }

  lemma RevisitStepKeeps(s: State, g: History, t: ThreadId, ok: bool) returns (g': History)
    requires Inv(s, g) && t in s.threads
    requires var pc := s.threads[t].pc; pc.Peek? || pc.Quick? || pc.Grab? || pc.SwapRead? || pc.Swap?
    ensures ContinueRevisit(s, t, ok).Ok? && Inv(ContinueRevisit(s, t, ok).state, g')
  {
    hide Inv, Linked, Ptr, Tag, Open, Tagged, ListIs, Readable, ReadersOf;
    Own1(s, g, t);
    EmptyIff(s, g);
    g' := g;
    match s.threads[t].pc
    case Peek => GoKeeps(s, g, t, if Ptr(s.abandoned) == NULL then Quick else Enter);
    case Quick => GoKeeps(s, g, t, if s.visited == NULL then Idle else Grab);
    case Grab =>
      if s.visited == NULL {
        assert s.(visited := NULL) == s;
        GoKeeps(s, g, t, Idle);
      } else {
        g' := GrabKeeps(s, g, t, ContinueRevisit(s, t, ok).state);
      }
    case SwapRead(first) =>
      ChainParts(s.next, first, g.chains[t]);
      GoKeeps(s, g, t, if Ptr(s.abandoned) == NULL then Swap(first, s.abandoned) else Walk(first, first));
    case Swap(first, ts) =>
      ChainParts(s.next, first, g.chains[t]);
      if s.abandoned == ts {
        var last := g.chains[t][|g.chains[t]| - 1];
        assert Open(s.next, first, last, g.chains[t]) by { ChainOpen(s.next, first, g.chains[t]); }
        g' := PrependKeeps(s, g, t, last, ContinueRevisit(s, t, ok).state);
      } else {
        GoKeeps(s, g, t, Walk(first, first));
      }
  }

  lemma ChainOpen(next: Links, first: Segment, list: seq<Segment>)
    requires Linked(next, first, list) && first != NULL
    ensures list != [] && Open(next, first, list[|list| - 1], list)
  {
  }

  lemma MigrateStepKeeps(s: State, g: History, t: ThreadId, ok: bool) returns (g': History)
    requires Inv(s, g) && t in s.threads
    requires var pc := s.threads[t].pc; pc.Walk? || pc.TailRead? || pc.TailLink? || pc.TailCas?
    ensures ContinueRevisit(s, t, ok).Ok? && Inv(ContinueRevisit(s, t, ok).state, g')
  {
    hide Inv, Linked, Ptr, Tag, Open, Tagged, NoDup, Readable, ReadersOf;
    Own1(s, g, t);
    g' := g;
    match s.threads[t].pc
    case Walk(first, last) =>
      WalkOn(s, g, t, first, last);
      GoKeeps(s, g, t, if s.next[last] != NULL then Walk(first, s.next[last]) else TailRead(first, last));
    case TailRead(first, last) => GoKeeps(s, g, t, TailLink(first, last, s.abandoned));
    case TailLink(first, last, ts) =>
      OwnLast(s, g, t, first, last);
      Relinked(s.next, first, last, g.chains[t], Ptr(ts));
      WriteKeeps(s, g, t, last, Ptr(ts), TailCas(first, last, ts));
    case TailCas(first, last, ts) =>
      if ok && s.abandoned == ts {
        assert g.chains[t] != [] && first == g.chains[t][0] by { OpenFirst(s.next, first, last, g.chains[t]); }
        g' := PrependKeeps(s, g, t, last, ContinueRevisit(s, t, ok).state);
      } else {
        GoKeeps(s, g, t, TailRead(first, last));
      }
  }

  lemma OpenFirst(next: Links, first: Segment, last: Segment, list: seq<Segment>)
    requires Open(next, first, last, list)
    ensures list != [] && first == list[0]
  {
  }

  // ---------------------------------------------------------------------------------------------
  // The loop of a pop
  // ---------------------------------------------------------------------------------------------

  /** The head of the abandoned list is in memory, and nobody is about to release it. */
  lemma HeadReadable(s: State, g: History)
    requires Inv(s, g) && Ptr(s.abandoned) != NULL
    ensures Readable(s.next, s.threads, Ptr(s.abandoned))
  {
    hide Ptr, Tag, NoDup, ReadersOf, Windows, Guard, ChainLinks, ChainsAt;
    var x := g.ab[0];
    assert x in g.ab;
    assert IsAt(g.at, x, InAbandoned);
    forall u | u in s.threads && s.threads[u].pc.Safe? ensures x !in s.threads[u].pc.which {
      assert HandsOk(s.next, s.threads[u]);
      assert SetIs(s.threads[u].segs, g.at, InHands(u));
    }
  }

  lemma ReadersIncrement(s: State, g: History, t: ThreadId, pc: Pc, more: int)
    requires Inv(s, g) && t in s.threads && t in g.chains && PcOk(s, g, t, s.next, pc)
    requires (if Reading(pc) then 1 else 0) == more + (if Reading(s.threads[t].pc) then 1 else 0)
    ensures Inv(Put(s, t, pc).(readers := s.readers + more), g)
  {
    hide Inv, PcOk, Agree;
    assert Agree(s.next, s.next, g.at, t) by { InvMapped(s, g); SameAgrees(s, g, t); }
    MoveKeeps(s, g, t, s.next, pc, Put(s, t, pc).(readers := s.readers + more));
  }

  /** With fewer than MI_SEGMENT_SIZE updates in the window, an equal word means no update at all. */
  lemma EqualTagsMeanNoUpdate(s: State, g: History, t: ThreadId)
    requires Inv(s, g) && t in s.threads && s.threads[t].pc.PopCas? && s.threads[t].pc.ts == s.abandoned
    ensures s.threads[t].pc.at <= s.updates && (s.updates - s.threads[t].pc.at) % TAGS == 0
    ensures s.updates < s.threads[t].pc.at + TAGS ==> s.threads[t].pc.at == s.updates
  {
    hide Linked, ListIs, SetIs, ChainLinks, ChainsAt, HandsAt, HandLinks, ReadersOf, Guard;
    assert SeenOk(s.next, s.abandoned, s.updates, s.threads[t].pc);
    var at := s.threads[t].pc.at;
    assert s.updates % TAGS == at % TAGS;
    SameTag(at, s.updates);
  }

  lemma SameTag(a: nat, b: nat)
    requires a <= b && a % TAGS == b % TAGS
    ensures (b - a) % TAGS == 0
    ensures b < a + TAGS ==> a == b
  {
  }

  lemma PopStepKeeps(s: State, g: History, t: ThreadId, ok: bool) returns (g': History)
    requires Inv(s, g) && t in s.threads && InTime(s, Step(t, Go(ok)))
    requires var pc := s.threads[t].pc; pc.Enter? || pc.PopRead? || pc.PopNext? || pc.PopCas? || pc.Exit? || pc.Clear?
    ensures ContinuePop(s, t, ok).Ok? && Inv(ContinuePop(s, t, ok).state, g')
  {
    hide Inv, Linked, Ptr, Tag, Open, Tagged, ListIs, Readable, ReadersOf;
    Own1(s, g, t);
    g' := g;
    match s.threads[t].pc
    case Enter => ReadersIncrement(s, g, t, PopRead, 1);
    case PopRead =>
      if Ptr(s.abandoned) != NULL { HeadReadable(s, g); AbandonedTag(s, g); }
      GoKeeps(s, g, t, if Ptr(s.abandoned) == NULL then Exit(NULL) else PopNext(s.abandoned, s.updates));
    case PopNext(ts, at) =>
      Reads(s, g, t);
      TaggedParts(s.next[Ptr(ts)], ts);
      GoKeeps(s, g, t, PopCas(ts, at, Tagged(s.next[Ptr(ts)], ts)));
    case PopCas(ts, at, next) =>
      if ok && s.abandoned == ts {
        EqualTagsMeanNoUpdate(s, g, t);
        g' := PopKeeps(s, g, t, next, ContinuePop(s, t, ok).state);
      } else {
        GoKeeps(s, g, t, PopRead);
      }
    case Exit(x) => ReadersIncrement(s, g, t, if x == NULL then Idle else Clear(x), -1);
    case Clear(x) => HandsHave(s, g, t, x); WriteKeeps(s, g, t, x, NULL, Popped(x));
  }

  lemma AbandonedTag(s: State, g: History)
    requires Inv(s, g)
    ensures Tag(s.abandoned) == s.updates % TAGS
  {
  }

  lemma Reads(s: State, g: History, t: ThreadId)
    requires Inv(s, g) && t in s.threads && s.threads[t].pc.PopNext?
    ensures Ptr(s.threads[t].pc.ts) in s.next
  {
    hide Ptr, Tag, ListIs, SetIs, Linked, Windows, ChainLinks, HandLinks, ReadersOf;
    assert Readable(s.next, s.threads, Ptr(s.threads[t].pc.ts));
  }

  // ---------------------------------------------------------------------------------------------
  // All steps, all runs
  // ---------------------------------------------------------------------------------------------

  lemma AwaitStepKeeps(s: State, g: History, t: ThreadId) returns (g': History)
    requires Inv(s, g) && t in s.threads && (s.threads[t].pc.Await? || s.threads[t].pc.Safe?)
    ensures Continue(s, t, true).Ok? && Continue(s, t, false) == Continue(s, t, true)
    ensures Inv(Continue(s, t, true).state, g')
  {
    hide Inv, Linked, Ptr, Tag, Open, Tagged, ListIs, Readable, ReadersOf;
    Own1(s, g, t);
    g' := g;
    match s.threads[t].pc
    case Await(which) =>
      if s.readers == 0 {
        NoReaders(s, g);
        GoKeeps(s, g, t, Safe(which));
      }
    case Safe(which) =>
      g' := UnmapKeeps(s, g, t, which, Continue(s, t, true).state);
  }

  lemma NoReaders(s: State, g: History)
    requires Inv(s, g) && s.readers == 0
    ensures ReadersOf(s.threads) == {}
  {
    hide Linked, Ptr, Tag, Windows, ChainLinks, HandLinks, ChainsAt, HandsAt, ListIs, SetIs, ReadersOf;
  }

  lemma ContinueKeeps(s: State, g: History, t: ThreadId, ok: bool) returns (g': History)
    requires Inv(s, g) && t in s.threads && InTime(s, Step(t, Go(ok))) && !s.threads[t].pc.Idle? && !s.threads[t].pc.Popped?
    ensures Continue(s, t, ok).Ok? && Inv(Continue(s, t, ok).state, g')
  {
    hide Inv, ContinuePush, ContinueVisit, ContinueRevisit, ContinuePop, InTime;
    var pc := s.threads[t].pc;
    if pc.PushRead? || pc.PushLink? || pc.PushCas? {
      g' := PushStepKeeps(s, g, t, ok);
    } else if pc.VisitRead? || pc.VisitLink? || pc.VisitCas? {
      g' := VisitStepKeeps(s, g, t, ok);
    } else if pc.Peek? || pc.Quick? || pc.Grab? || pc.SwapRead? || pc.Swap? {
      g' := RevisitStepKeeps(s, g, t, ok);
    } else if pc.Walk? || pc.TailRead? || pc.TailLink? || pc.TailCas? {
      g' := MigrateStepKeeps(s, g, t, ok);
    } else if pc.Await? || pc.Safe? {
      g' := AwaitStepKeeps(s, g, t);
    } else {
      g' := PopStepKeeps(s, g, t, ok);
    }
  }

  lemma StepKeeps(s: State, g: History, t: ThreadId, c: Choice) returns (g': History)
    requires Inv(s, g) && Enabled(s, t, c) && InTime(s, Step(t, c))
    ensures Do(s, t, c).Ok? && Inv(Do(s, t, c).state, g')
  {
    hide Inv, Continue, Linked, Ptr, Tag, Open, ListIs, Readable, ReadersOf, InTime;
    Own1(s, g, t);
    g' := g;
    match c
    case Go(ok) => g' := ContinueKeeps(s, g, t, ok);
    case Map(x, junk) => g' := MapKeeps(s, g, t, x, junk, Do(s, t, c).state);
    case Claim(which) => g' := ClaimKeeps(s, g, t, which, Do(s, t, c).state);
    case Unclaim(x) => g' := UnclaimKeeps(s, g, t, x, Do(s, t, c).state);
    case Write(x, junk) =>
      HandsHave(s, g, t, x);
      PutSame(s, t);
      WriteKeeps(s, g, t, x, junk, Idle);
    case Abandon(x) => HandsHave(s, g, t, x); WriteKeeps(s, g, t, x, NULL, PushRead(x));
    case Pop => GoKeeps(s, g, t, Peek);
    case Keep => GoKeeps(s, g, t, Idle);
    case Revisit => GoKeeps(s, g, t, VisitRead(s.threads[t].pc.seg));
    case Release(which) => GoKeeps(s, g, t, Await(which));
  }

  lemma PutSame(s: State, t: ThreadId)
    requires t in s.threads
    ensures Put(s, t, s.threads[t].pc) == s
  {
    assert s.threads[t := s.threads[t]] == s.threads;
  }

  lemma InitHolds(s: State) returns (g: History)
    requires Init(s)
    ensures Inv(s, g)
  {
    g := History([], [], map t | t in s.threads :: [], map[]);
    assert ReadersOf(s.threads) == {};
  }

  lemma {:induction false} RunInvariant(states: seq<State>, steps: seq<Step>) returns (g: History)
    requires IsTimelyRun(states, steps)
    ensures states != [] && Inv(states[|states| - 1], g)
    decreases |steps|
  {
    hide Inv, Enabled, Do, Init, InTime;
    if steps == [] {
      g := InitHolds(states[0]);
    } else {
      var n := |steps| - 1;
      var h := RunInvariant(states[..n + 1], steps[..n]);
      assert Enabled(states[n], steps[n].thread, steps[n].choice) && InTime(states[n], steps[n]);
      g := StepKeeps(states[n], h, steps[n].thread, steps[n].choice);
    }
  }
}
