/** The invariant of the abandoned lists, relative to a history: the lists and each segment's place. */
module AbandonedInvariant {
  import opened AbandonedLists

  type Links = map<Segment, Segment>
  type Threads = map<ThreadId, Thread>
  type Places = map<Segment, Place>

  datatype Place =
    | InAbandoned
    | InVisited
    | InChain(thread: ThreadId)  // grabbed from the visited list, on its way to the abandoned list
    | InHands(thread: ThreadId)
    | InPool

  datatype History = History(
    ab: seq<Segment>,
    vis: seq<Segment>,
    chains: map<ThreadId, seq<Segment>>,
    at: Places)

  ghost predicate NoDup(list: seq<Segment>) {
    forall i, j :: 0 <= i < j < |list| ==> list[i] != list[j]
  }

  ghost predicate IsAt(at: Places, x: Segment, place: Place) {
    x in at && at[x] == place
  }

  /** `list` holds exactly the segments at `place`, each once. */
  ghost predicate ListIs(list: seq<Segment>, at: Places, place: Place) {
    NoDup(list) && forall x :: x in list <==> IsAt(at, x, place)
  }

  ghost predicate SetIs(xs: set<Segment>, at: Places, place: Place) {
    forall x :: x in xs <==> IsAt(at, x, place)
  }

  ghost predicate Mapped(next: Links, at: Places) {
    NULL !in next && forall x :: x in at <==> x in next
  }

  ghost predicate ChainsAt(chains: map<ThreadId, seq<Segment>>, threads: Threads, at: Places) {
    && (forall t | t in threads :: t in chains && ListIs(chains[t], at, InChain(t)))
    && (forall x | x in at && at[x].InChain? :: at[x].thread in threads)
  }

  ghost predicate HandsAt(threads: Threads, at: Places) {
    && (forall t | t in threads :: SetIs(threads[t].segs, at, InHands(t)))
    && (forall x | x in at && at[x].InHands? :: at[x].thread in threads)
  }

  // ---------------------------------------------------------------------------------------------
  // Links
  // ---------------------------------------------------------------------------------------------

  /** The links lead from each element of the list to the following one. */
  ghost predicate Links1(next: Links, list: seq<Segment>) {
    && (forall x | x in list :: x in next)
    && (forall i | 0 <= i < |list| - 1 :: next[list[i]] == list[i + 1])
  }

  function First(list: seq<Segment>): Segment {
    if list == [] then NULL else list[0]
  }

  /** `head` and the links form exactly this NULL-terminated list. */
  ghost predicate Linked(next: Links, head: Segment, list: seq<Segment>) {
    && head == First(list)
    && Links1(next, list)
    && (list != [] ==> next[list[|list| - 1]] == NULL)
  }

  /** Like `Linked`, but the last element may point anywhere. */
  ghost predicate Open(next: Links, first: Segment, last: Segment, list: seq<Segment>) {
    && list != [] && first == list[0] && last == list[|list| - 1]
    && Links1(next, list)
  }

  /** What a thread knows of the chain it grabbed. */
  ghost predicate ChainOk(next: Links, pc: Pc, list: seq<Segment>) {
    match pc
    case SwapRead(first) => first != NULL && Linked(next, first, list)
    case Swap(first, ts) => first != NULL && Linked(next, first, list) && Ptr(ts) == NULL
    case Walk(first, last) => first != NULL && Linked(next, first, list) && last in list
    case TailRead(first, last) => Open(next, first, last, list)
    case TailLink(first, last, _) => Open(next, first, last, list)
    case TailCas(first, last, ts) => Open(next, first, last, list) && next[last] == Ptr(ts)
    case _ => list == []
  }

  ghost predicate ChainLinks(next: Links, threads: Threads, chains: map<ThreadId, seq<Segment>>) {
    forall t | t in threads :: t in chains && ChainOk(next, threads[t].pc, chains[t])
  }

  /** What a thread knows of the segments in its hands. */
  predicate HandsOk(next: Links, th: Thread) {
    match th.pc
    case PushRead(x) => x in th.segs
    case PushLink(x, _) => x in th.segs
    case PushCas(x, ts) => x in th.segs && x in next && next[x] == Ptr(ts)
    case VisitRead(x) => x in th.segs
    case VisitLink(x, _) => x in th.segs
    case VisitCas(x, head) => x in th.segs && x in next && next[x] == head
    case Exit(x) => x != NULL ==> x in th.segs
    case Clear(x) => x in th.segs
    case Popped(x) => x in th.segs && x in next && next[x] == NULL
    case Await(which) => which <= th.segs
    case Safe(which) => which <= th.segs
    case _ => true
  }

  ghost predicate HandLinks(next: Links, threads: Threads) {
    forall t | t in threads :: HandsOk(next, threads[t])
  }

  // ---------------------------------------------------------------------------------------------
  // Tags and readers
  // ---------------------------------------------------------------------------------------------

  /** What a thread knows of `abandoned` inside the window of its pop. */
  predicate SeenOk(next: Links, abandoned: Word, updates: nat, pc: Pc) {
    match pc
    case PopNext(ts, at) =>
      Ptr(ts) != NULL && at <= updates && Tag(ts) == at % TAGS && (at == updates ==> ts == abandoned)
    case PopCas(ts, at, nx) =>
      && Ptr(ts) != NULL && at <= updates && Tag(ts) == at % TAGS && (at == updates ==> ts == abandoned)
      && Tag(nx) == (Tag(ts) + 1) % TAGS
      && (at == updates ==> Ptr(ts) in next && next[Ptr(ts)] == Ptr(nx))
    case _ => true
  }

  ghost predicate Windows(next: Links, abandoned: Word, updates: nat, threads: Threads) {
    && Tag(abandoned) == updates % TAGS
    && forall t | t in threads :: SeenOk(next, abandoned, updates, threads[t].pc)
  }

  /** The thread counts as a reader. */
  predicate Reading(pc: Pc) {
    pc.PopRead? || pc.PopNext? || pc.PopCas? || pc.Exit?
  }

  function ReadersOf(threads: Threads): set<ThreadId> {
    set t | t in threads && Reading(threads[t].pc)
  }

  /** `x` is in memory, and nobody was told that its readers are gone. */
  ghost predicate Readable(next: Links, threads: Threads, x: Segment) {
    x in next && forall u | u in threads && threads[u].pc.Safe? :: x !in threads[u].pc.which
  }

  /** A popper is about to read only links of readable segments. */
  ghost predicate Guard(next: Links, threads: Threads) {
    forall t | t in threads && threads[t].pc.PopNext? :: Readable(next, threads, Ptr(threads[t].pc.ts))
  }

  ghost predicate Inv(s: State, g: History) {
    && Mapped(s.next, g.at)
    && ListIs(g.ab, g.at, InAbandoned)
    && ListIs(g.vis, g.at, InVisited)
    && SetIs(s.pool, g.at, InPool)
    && ChainsAt(g.chains, s.threads, g.at)
    && HandsAt(s.threads, g.at)
    && Linked(s.next, Ptr(s.abandoned), g.ab)
    && Linked(s.next, s.visited, g.vis)
    && ChainLinks(s.next, s.threads, g.chains)
    && HandLinks(s.next, s.threads)
    && Windows(s.next, s.abandoned, s.updates, s.threads)
    && s.readers == |ReadersOf(s.threads)|
    && Guard(s.next, s.threads)
  }
}
