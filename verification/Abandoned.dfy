/**
 The lists of abandoned segments as a state machine in which every atomic access, and every write of
 a link, is one step.

 `abandoned` is a stack whose head word packs a segment address with a tag in its low bits;
 `visited` is a stack that is only pushed on and grabbed as a whole.  Any number of threads push,
 pop, push on the visited stack, migrate it, and release the memory of segments they hold after
 waiting until no thread is inside a pop.

 Segments are numbered by their address divided by MI_SEGMENT_SIZE; 0 stands for NULL.  A step
 that reads or writes a link in memory that was released has the outcome `Fault`, and so has a
 broken internal assertion.
 */
module AbandonedLists {
  type Segment = nat
  type ThreadId = nat

  /** The tagged word: address | tag, with a tag of 17 bits. */
  type Word = nat

  /** MI_SEGMENT_SIZE, the number of tags. */
  const TAGS: nat := 0x2_0000

  const NULL: Segment := 0

  function Ptr(w: Word): Segment { w / TAGS }

  function Tag(w: Word): nat { w % TAGS }

  /** `mi_tagged_segment` */
  function Tagged(x: Segment, w: Word): Word {
    x * TAGS + (Tag(w) + 1) % TAGS
  }

  datatype Pc =
    | Idle
    // mi_abandoned_push
    | PushRead(seg: Segment) | PushLink(seg: Segment, ts: Word) | PushCas(seg: Segment, ts: Word)
    // mi_abandoned_visited_push
    | VisitRead(seg: Segment) | VisitLink(seg: Segment, head: Segment) | VisitCas(seg: Segment, head: Segment)
    // mi_abandoned_pop, first read
    | Peek
    // mi_abandoned_visited_revisit
    | Quick
    | Grab
    | SwapRead(first: Segment) | Swap(first: Segment, ts: Word)
    | Walk(first: Segment, last: Segment)
    | TailRead(first: Segment, last: Segment)
    | TailLink(first: Segment, last: Segment, ts: Word)
    | TailCas(first: Segment, last: Segment, ts: Word)
    // mi_abandoned_pop, the loop; `at` records how many updates `abandoned` had seen at the read
    | Enter
    | PopRead
    | PopNext(ts: Word, at: nat)
    | PopCas(ts: Word, at: nat, next: Word)
    | Exit(seg: Segment)
    | Clear(seg: Segment)
    | Popped(seg: Segment)
    // _mi_abandoned_await_readers, then the release of the awaited segments
    | Await(which: set<Segment>)
    | Safe(which: set<Segment>)

  /** A thread and the segments in its hands. */
  datatype Thread = Thread(pc: Pc, segs: set<Segment>)

  /**
   `next` maps every segment whose memory is there to its `abandoned_next` field; `pool` holds the
   segments that lie free in a region; `updates` counts the updates of `abandoned`.
   */
  datatype State = State(
    next: map<Segment, Segment>,
    abandoned: Word,
    updates: nat,
    visited: Segment,
    readers: int,
    pool: set<Segment>,
    threads: map<ThreadId, Thread>)

  datatype Outcome = Ok(state: State) | Fault

  /** What a thread does next: `Go` continues the operation it is in, the others start one. */
  datatype Choice =
    | Go(ok: bool)                              // ok is false where a weak CAS fails spuriously
    | Map(seg: Segment, junk: Segment)          // obtain fresh memory
    | Claim(which: set<Segment>)                // claim segments of a region
    | Unclaim(seg: Segment)                     // give a segment back to its region
    | Write(seg: Segment, junk: Segment)        // use the memory for anything
    | Abandon(seg: Segment)
    | Pop
    | Keep                                      // reclaim the popped segment
    | Revisit                                   // push the popped segment on the visited list
    | Release(which: set<Segment>)              // await the readers, then release

  function Put(s: State, t: ThreadId, pc: Pc): State
    requires t in s.threads
  {
    s.(threads := s.threads[t := s.threads[t].(pc := pc)])
  }

  function PutSegs(s: State, t: ThreadId, pc: Pc, segs: set<Segment>): State {
    s.(threads := s.threads[t := Thread(pc, segs)])
  }

  predicate Enabled(s: State, t: ThreadId, c: Choice) {
    t in s.threads &&
    var th := s.threads[t];
    match c
    case Go(_) => !th.pc.Idle? && !th.pc.Popped?
    case Map(x, _) => th.pc.Idle? && x !in s.next && x != NULL
    case Claim(which) => th.pc.Idle? && which <= s.pool
    case Unclaim(x) => th.pc.Idle? && x in th.segs
    case Write(x, _) => th.pc.Idle? && x in th.segs
    case Abandon(x) => th.pc.Idle? && x in th.segs
    case Pop => th.pc.Idle?
    case Keep => th.pc.Popped?
    case Revisit => th.pc.Popped?
    case Release(which) => th.pc.Idle? && which <= th.segs
  }

  function Do(s: State, t: ThreadId, c: Choice): Outcome
    requires Enabled(s, t, c)
  {
    var th := s.threads[t];
    match c
    case Go(ok) => Continue(s, t, ok)
    case Map(x, junk) => Ok(PutSegs(s, t, Idle, th.segs + {x}).(next := s.next[x := junk]))
    case Claim(which) => Ok(PutSegs(s, t, Idle, th.segs + which).(pool := s.pool - which))
    case Unclaim(x) => Ok(PutSegs(s, t, Idle, th.segs - {x}).(pool := s.pool + {x}))
    case Write(x, junk) => SetNext(s, x, junk)
    case Abandon(x) =>
      // `mi_segment_abandon` clears the link before it pushes
      if x !in s.next then Fault else Ok(Put(s, t, PushRead(x)).(next := s.next[x := NULL]))
    case Pop => Ok(Put(s, t, Peek))
    case Keep =>
      // `mi_segment_reclaim` expects no link
      if th.pc.seg !in s.next || s.next[th.pc.seg] != NULL then Fault else Ok(Put(s, t, Idle))
    case Revisit =>
      if th.pc.seg !in s.next || s.next[th.pc.seg] != NULL then Fault
      else Ok(Put(s, t, VisitRead(th.pc.seg)))
    case Release(which) => Ok(Put(s, t, Await(which)))
  }

  function SetNext(s: State, x: Segment, y: Segment): Outcome {
    if x !in s.next then Fault else Ok(s.(next := s.next[x := y]))
  }

  function Continue(s: State, t: ThreadId, ok: bool): Outcome
    requires t in s.threads
  {
    match s.threads[t].pc
    case PushRead(_) => ContinuePush(s, t, ok)
    case PushLink(_, _) => ContinuePush(s, t, ok)
    case PushCas(_, _) => ContinuePush(s, t, ok)
    case VisitRead(_) => ContinueVisit(s, t, ok)
    case VisitLink(_, _) => ContinueVisit(s, t, ok)
    case VisitCas(_, _) => ContinueVisit(s, t, ok)
    case Await(which) => Ok(if s.readers == 0 then Put(s, t, Safe(which)) else s)
    case Safe(which) => Ok(PutSegs(s, t, Idle, s.threads[t].segs - which).(next := s.next - which))
    case Enter => ContinuePop(s, t, ok)
    case PopRead => ContinuePop(s, t, ok)
    case PopNext(_, _) => ContinuePop(s, t, ok)
    case PopCas(_, _, _) => ContinuePop(s, t, ok)
    case Exit(_) => ContinuePop(s, t, ok)
    case Clear(_) => ContinuePop(s, t, ok)
    case _ => ContinueRevisit(s, t, ok)
  }

  function ContinuePush(s: State, t: ThreadId, ok: bool): Outcome
    requires t in s.threads
  {
    match s.threads[t].pc
    case PushRead(x) => Ok(Put(s, t, PushLink(x, s.abandoned)))
    case PushLink(x, ts) => SetNext(Put(s, t, PushCas(x, ts)), x, Ptr(ts))
    case PushCas(x, ts) =>
      if ok && s.abandoned == ts then
        Ok(PutSegs(s, t, Idle, s.threads[t].segs - {x}).(abandoned := Tagged(x, ts), updates := s.updates + 1))
      else
        Ok(Put(s, t, PushRead(x)))
    case _ => Ok(s)
  }

  function ContinueVisit(s: State, t: ThreadId, ok: bool): Outcome
    requires t in s.threads
  {
    match s.threads[t].pc
    case VisitRead(x) => Ok(Put(s, t, VisitLink(x, s.visited)))
    case VisitLink(x, head) => SetNext(Put(s, t, VisitCas(x, head)), x, head)
    case VisitCas(x, head) =>
      if ok && s.visited == head then
        Ok(PutSegs(s, t, Idle, s.threads[t].segs - {x}).(visited := x))
      else
        Ok(Put(s, t, VisitRead(x)))
    case _ => Ok(s)
  }

  function ContinueRevisit(s: State, t: ThreadId, ok: bool): Outcome
    requires t in s.threads
  {
    match s.threads[t].pc
    case Peek => Ok(Put(s, t, if Ptr(s.abandoned) == NULL then Quick else Enter))
    case Quick => Ok(Put(s, t, if s.visited == NULL then Idle else Grab))
    case Grab => Ok(Put(s, t, if s.visited == NULL then Idle else SwapRead(s.visited)).(visited := NULL))
    case SwapRead(first) =>
      Ok(Put(s, t, if Ptr(s.abandoned) == NULL then Swap(first, s.abandoned) else Walk(first, first)))
    case Swap(first, ts) =>
      if s.abandoned == ts then
        Ok(Put(s, t, Enter).(abandoned := Tagged(first, ts), updates := s.updates + 1))
      else
        Ok(Put(s, t, Walk(first, first)))
    case Walk(first, last) =>
      if last !in s.next then Fault
      else if s.next[last] != NULL then Ok(Put(s, t, Walk(first, s.next[last])))
      else Ok(Put(s, t, TailRead(first, last)))
    case TailRead(first, last) => Ok(Put(s, t, TailLink(first, last, s.abandoned)))
    case TailLink(first, last, ts) => SetNext(Put(s, t, TailCas(first, last, ts)), last, Ptr(ts))
    case TailCas(first, last, ts) =>
      if ok && s.abandoned == ts then
        Ok(Put(s, t, Enter).(abandoned := Tagged(first, ts), updates := s.updates + 1))
      else
        Ok(Put(s, t, TailRead(first, last)))
    case _ => Ok(s)
  }

  function ContinuePop(s: State, t: ThreadId, ok: bool): Outcome
    requires t in s.threads
  {
    match s.threads[t].pc
    case Enter => Ok(Put(s, t, PopRead).(readers := s.readers + 1))
    case PopRead => Ok(Put(s, t, if Ptr(s.abandoned) == NULL then Exit(NULL) else PopNext(s.abandoned, s.updates)))
    case PopNext(ts, at) =>
      if Ptr(ts) !in s.next then Fault
      else Ok(Put(s, t, PopCas(ts, at, Tagged(s.next[Ptr(ts)], ts))))
    case PopCas(ts, at, next) =>
      if ok && s.abandoned == ts then
        Ok(PutSegs(s, t, Exit(Ptr(ts)), s.threads[t].segs + {Ptr(ts)}).(abandoned := next, updates := s.updates + 1))
      else
        Ok(Put(s, t, PopRead))
    case Exit(x) => Ok(Put(s, t, if x == NULL then Idle else Clear(x)).(readers := s.readers - 1))
    case Clear(x) => SetNext(Put(s, t, Popped(x)), x, NULL)
    case _ => Ok(s)
  }

  /** Nothing is mapped yet; any finite set of threads, all idle. */
  predicate Init(s: State) {
    && s.next == map[] && s.abandoned == 0 && s.updates == 0 && s.visited == NULL && s.readers == 0 && s.pool == {}
    && forall t | t in s.threads :: s.threads[t] == Thread(Idle, {})
  }

  datatype Step = Step(thread: ThreadId, choice: Choice)

  /**
   The step does not compare a word that is MI_SEGMENT_SIZE or more updates old: only the
   compare-and-swap of a pop needs this.
   */
  predicate InTime(s: State, step: Step) {
    step.choice.Go? && step.thread in s.threads && s.threads[step.thread].pc.PopCas? ==>
      s.updates < s.threads[step.thread].pc.at + TAGS
  }

  /** A finite run: the i-th step is enabled in the i-th state and leads to the next one. */
  ghost predicate IsRun(states: seq<State>, steps: seq<Step>) {
    && |states| == |steps| + 1
    && Init(states[0])
    && forall i {:trigger steps[i]} | 0 <= i < |steps| ::
         Enabled(states[i], steps[i].thread, steps[i].choice) &&
         Do(states[i], steps[i].thread, steps[i].choice) == Ok(states[i + 1])
  }

  /** A run in which every compare-and-swap of a pop is in time. */
  ghost predicate IsTimelyRun(states: seq<State>, steps: seq<Step>) {
    IsRun(states, steps) && forall i | 0 <= i < |steps| :: InTime(states[i], steps[i])
  }
}
