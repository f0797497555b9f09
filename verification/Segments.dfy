/**
 The pages of the segments of a thread: which are in use, which are abandoned, the two counters kept
 for that, and the queues of segments with free pages.  Huge segments are not in these queues.
 */
module Segments {
  import opened Options
  import opened AlignedAlloc
  import opened PageQueues

  type SegmentId = nat

  datatype PageUse = Unused | InUse | Left  // Left: abandoned by its heap

  datatype Segment = Segment(
    kind: Kind, pages: seq<PageUse>,
    used: int, abandoned: int, capacity: nat,
    next: Option<SegmentId>, prev: Option<SegmentId>,
    abandonedNext: Option<SegmentId>)  // the link of the lists of abandoned segments

  /** What became of a segment: kept, given back to the system or the cache, or abandoned. */
  datatype Fate = Kept | Freed | GivenUp

  type Table = map<SegmentId, Segment>
  type Lists = map<Kind, seq<SegmentId>>

  /** The number of pages of a segment. */
  function Capacity(kind: Kind): nat {
    match kind
    case Small => SEGMENT / SMALL_PAGE
    case Medium => SEGMENT / MEDIUM_PAGE
    case _ => 1
  }

  /** The pages of a segment that is not huge fill it. */
  lemma CapacityFills(kind: Kind, pl: Place)
    requires kind == KindOf(pl.bsize) != Huge
    ensures Capacity(kind) * PageSize(pl) == SEGMENT
    ensures kind == Small ==> Capacity(kind) == 16
    ensures kind == Medium ==> Capacity(kind) == 4
  {
  }

  function Count(pages: seq<PageUse>, use: PageUse): nat {
    if pages == [] then 0 else (if pages[0] == use then 1 else 0) + Count(pages[1..], use)
  }

  lemma {:induction false} CountUpdate(pages: seq<PageUse>, i: nat, v: PageUse, use: PageUse)
    requires i < |pages|
    ensures Count(pages[i := v], use) ==
      Count(pages, use) + (if v == use then 1 else 0) - (if pages[i] == use then 1 else 0)
    decreases |pages|
  {
    if i == 0 {
      assert pages[0 := v][1..] == pages[1..];
    } else {
      CountUpdate(pages[1..], i - 1, v, use);
      assert pages[i := v][1..] == pages[1..][i - 1 := v];
    }
  }

  lemma {:induction false} CountAll(pages: seq<PageUse>)
    ensures Count(pages, Unused) + Count(pages, InUse) + Count(pages, Left) == |pages|
    decreases |pages|
  {
    if pages != [] { CountAll(pages[1..]); }
  }

  lemma {:induction false} CountNone(pages: seq<PageUse>, use: PageUse)
    ensures Count(pages, use) == 0 <==> forall i | 0 <= i < |pages| :: pages[i] != use
    decreases |pages|
  {
    if pages != [] {
      CountNone(pages[1..], use);
      assert forall i | 0 < i < |pages| :: pages[i] == pages[1..][i - 1];
      assert forall i | 0 <= i < |pages[1..]| :: pages[1..][i] == pages[i + 1];
    }
  }

  /** `used` counts the pages in use, `abandoned` those of them that are abandoned. */
  predicate Counted(seg: Segment) {
    && |seg.pages| == seg.capacity == Capacity(seg.kind)
    && seg.abandoned == Count(seg.pages, Left)
    && seg.used == Count(seg.pages, InUse) + Count(seg.pages, Left)
  }

  /** A segment that a thread owns: not all of its pages are abandoned, and it has no link to an abandoned segment. */
  predicate Owned(seg: Segment) {
    Counted(seg) && seg.abandonedNext == None && (seg.used == 0 || seg.abandoned < seg.used)
  }

  /** An abandoned segment, before it is pushed or after it was popped: all its pages in use are abandoned, without links. */
  predicate Orphan(seg: Segment) {
    && Counted(seg) && 0 < seg.used == seg.abandoned
    && seg.next == None && seg.prev == None && seg.abandonedNext == None
  }

  // ---------------------------------------------------------------------------------------------
  // The queues
  // ---------------------------------------------------------------------------------------------

  predicate Queued(kind: Kind) {
    kind == Small || kind == Medium
  }

  predicate JoinedAt(table: Table, list: seq<SegmentId>, i: nat)
    requires i < |list|
  {
    list[i] in table && table[list[i]].next == At(list, i + 1) && table[list[i]].prev == At(list, i - 1)
  }

  ghost predicate Spells(queue: Queue, table: Table, list: seq<SegmentId>) {
    && NoDup(list) && queue == Queue(At(list, 0), At(list, |list| - 1))
    && forall i | 0 <= i < |list| ::
         list[i] in table && table[list[i]].next == At(list, i + 1) && table[list[i]].prev == At(list, i - 1)
  }

  /** Both queues are spelled out by the links; segments outside have no links. */
  ghost predicate LinksOk(free: map<Kind, Queue>, table: Table, lists: Lists) {
    && free.Keys == lists.Keys == {Small, Medium}
    && (forall k | k in lists :: Spells(free[k], table, lists[k]))
    && Kinds(table, lists)
    && Loose(table, lists)
  }

  ghost predicate Kinds(table: Table, lists: Lists) {
    forall k, x | k in lists && x in lists[k] :: x in table && table[x].kind == k
  }

  predicate Listed(table: Table, lists: Lists, x: SegmentId)
    requires x in table
  {
    table[x].kind in lists && x in lists[table[x].kind]
  }

  /** Segments in no list have no links. */
  ghost predicate Loose(table: Table, lists: Lists) {
    forall x | x in table && !Listed(table, lists, x) :: table[x].next == None && table[x].prev == None
  }

  /** The pointer test of `mi_segment_is_in_free_queue`. */
  predicate PointerTest(free: map<Kind, Queue>, seg: Segment, x: SegmentId) {
    seg.kind in free && (seg.next != None || seg.prev != None || free[seg.kind].first == Some(x))
  }

  /** The pointer test is list membership. */
  lemma PointerTestIff(free: map<Kind, Queue>, table: Table, lists: Lists, x: SegmentId)
    requires LinksOk(free, table, lists) && x in table
    ensures PointerTest(free, table[x], x) <==> table[x].kind in lists && x in lists[table[x].kind]
  {
    var kind := table[x].kind;
    if kind in lists && x in lists[kind] {
      assert Spells(free[kind], table, lists[kind]);
      var i :| 0 <= i < |lists[kind]| && lists[kind][i] == x;
    } else if kind in lists {
      assert Spells(free[kind], table, lists[kind]);
      if lists[kind] != [] { assert lists[kind][0] in lists[kind]; }
    }
  }

  /** The neighbours of a segment are linked to each other, and the segment to nothing. */
  function Unlink(table: Table, x: SegmentId): Table
    requires x in table
  {
    var seg := table[x];
    map y | y in table ::
      if y == x then seg.(next := None, prev := None)
      else table[y].(next := if seg.prev == Some(y) then seg.next else table[y].next,
                     prev := if seg.next == Some(y) then seg.prev else table[y].prev)
  }

  lemma UnlinkSpells(queue: Queue, table: Table, list: seq<SegmentId>, k: nat)
    requires Spells(queue, table, list) && k < |list|
    ensures var x := list[k];
      Spells(Queue(if queue.first == Some(x) then table[x].next else queue.first,
                   if queue.last == Some(x) then table[x].prev else queue.last),
             Unlink(table, x), Without(list, k))
  {
    hide At, Without;
    WithoutSize(list, k);
    WithoutNoDup(list, k);
    FirstWithout(list, k);
    LastWithout(list, k);
    forall i | 0 <= i < |list| - 1 ensures JoinedAt(Unlink(table, list[k]), Without(list, k), i) {
      WithoutAt(list, k, i);
      WithoutNeighbours(list, k, i);
      Neighbours(list, if i < k then i else i + 1, k);
    }
    JoinedSpells(Unlink(table, list[k]), Without(list, k));
  }

  lemma JoinedSpells(table: Table, list: seq<SegmentId>)
    requires NoDup(list) && forall i | 0 <= i < |list| :: JoinedAt(table, list, i)
    ensures Spells(Queue(At(list, 0), At(list, |list| - 1)), table, list)
  {
    hide At;
    forall i | 0 <= i < |list|
      ensures list[i] in table && table[list[i]].next == At(list, i + 1) && table[list[i]].prev == At(list, i - 1)
    {
      assert JoinedAt(table, list, i);
    }
  }

  lemma FrameSpells(queue: Queue, table: Table, table': Table, list: seq<SegmentId>)
    requires Spells(queue, table, list)
    requires forall x | x in list && x in table ::
      x in table' && table'[x].next == table[x].next && table'[x].prev == table[x].prev
    ensures Spells(queue, table', list)
  {
  }

  lemma EnqueueSpells(queue: Queue, table: Table, list: seq<SegmentId>, x: SegmentId, table': Table)
    requires Spells(queue, table, list) && x !in list && x in table'
    requires table'[x].next == None && table'[x].prev == queue.last
    requires forall y | y in list && y in table :: y in table' && table'[y].prev == table[y].prev &&
               table'[y].next == if queue.last == Some(y) then Some(x) else table[y].next
    ensures Spells(Queue(if queue.last.Some? then queue.first else Some(x), Some(x)), table', list + [x])
  {
    var all := list + [x];
    forall i | 0 <= i < |all|
      ensures all[i] in table' && table'[all[i]].next == At(all, i + 1) && table'[all[i]].prev == At(all, i - 1)
    {
      if i < |list| { assert all[i] == list[i]; assert list[i] in list; }
    }
  }

  /** All but the links of the segments is the same. */
  predicate SameButLinks(table: Table, table': Table) {
    table'.Keys == table.Keys &&
    forall x | x in table :: table'[x] == table[x].(next := table'[x].next, prev := table'[x].prev)
  }

  /** The segment was taken out of its list; all else stays, in order. */
  ghost predicate Dropped(lists: Lists, lists': Lists, kind: Kind, x: SegmentId) {
    kind in lists && exists k :: 0 <= k < |lists[kind]| && lists[kind][k] == x && lists' == lists[kind := Without(lists[kind], k)]
  }

  lemma DroppedOk(free: map<Kind, Queue>, table: Table, lists: Lists, x: SegmentId, free': map<Kind, Queue>)
    returns (lists': Lists)
    requires LinksOk(free, table, lists) && x in table && table[x].kind in lists && x in lists[table[x].kind]
    requires free' == free[table[x].kind := Queue(
      if free[table[x].kind].first == Some(x) then table[x].next else free[table[x].kind].first,
      if free[table[x].kind].last == Some(x) then table[x].prev else free[table[x].kind].last)]
    ensures Dropped(lists, lists', table[x].kind, x) && LinksOk(free', Unlink(table, x), lists')
    ensures SameButLinks(table, Unlink(table, x))
    ensures lists'.Keys == lists.Keys && forall k, y | k in lists ::
      y in lists'[k] <==> y in lists[k] && (y != x || k != table[x].kind)
  {
    hide Unlink, Without, Spells, Loose, Kinds;
    var kind, table' := table[x].kind, Unlink(table, x);
    UnlinkLinks(table, x);
    SpellsNoDup(free[kind], table, lists[kind]);
    var i :| 0 <= i < |lists[kind]| && lists[kind][i] == x;
    lists' := lists[kind := Without(lists[kind], i)];
    UnlinkSpells(free[kind], table, lists[kind], i);
    WithoutElements(lists[kind], i);
    Neighboured(free[kind], table, lists[kind], i);
    forall k | k in lists && k != kind ensures Spells(free'[k], table', lists'[k]) {
      OtherList(table, lists, x, k);
      FrameSpells(free[k], table, table', lists[k]);
    }
    DroppedLoose(table, lists, lists', x);
  }

  lemma SpellsNoDup(queue: Queue, table: Table, list: seq<SegmentId>)
    requires Spells(queue, table, list)
    ensures NoDup(list) && forall x | x in list :: x in table
  {
  }

  lemma UnlinkLinks(table: Table, x: SegmentId)
    requires x in table
    ensures SameButLinks(table, Unlink(table, x)) && Unlink(table, x)[x].next == None && Unlink(table, x)[x].prev == None
    ensures forall y | y in table && y != x && table[x].prev != Some(y) && table[x].next != Some(y) ::
      Unlink(table, x)[y] == table[y]
  {
  }

  /** The segment and its neighbours are not in the other list. */
  lemma OtherList(table: Table, lists: Lists, x: SegmentId, k: Kind)
    requires Kinds(table, lists) && x in table && Listed(table, lists, x) && k in lists && k != table[x].kind
    requires table[x].next.Some? ==> table[x].next.value in lists[table[x].kind]
    requires table[x].prev.Some? ==> table[x].prev.value in lists[table[x].kind]
    ensures forall y | y in lists[k] && y in table :: y in Unlink(table, x) && Unlink(table, x)[y] == table[y]
  {
    hide Unlink;
    UnlinkLinks(table, x);
  }

  lemma DroppedLoose(table: Table, lists: Lists, lists': Lists, x: SegmentId)
    requires Kinds(table, lists) && Loose(table, lists) && x in table && Listed(table, lists, x) && lists'.Keys == lists.Keys
    requires forall k, y | k in lists :: y in lists'[k] <==> y in lists[k] && (y != x || k != table[x].kind)
    requires table[x].next.Some? ==> table[x].next.value in lists[table[x].kind]
    requires table[x].prev.Some? ==> table[x].prev.value in lists[table[x].kind]
    ensures Kinds(Unlink(table, x), lists') && Loose(Unlink(table, x), lists')
  {
    hide Unlink;
    UnlinkLinks(table, x);
    var table' := Unlink(table, x);
    forall y | y in table' && !Listed(table', lists', y) ensures table'[y].next == None && table'[y].prev == None {
      if y != x { assert !Listed(table, lists, y); }
    }
  }

  /** The neighbours of a segment in a list are in the list. */
  lemma Neighboured(queue: Queue, table: Table, list: seq<SegmentId>, i: nat)
    requires Spells(queue, table, list) && i < |list|
    ensures table[list[i]].next.Some? ==> table[list[i]].next.value in list && table[list[i]].next.value in table
    ensures table[list[i]].prev.Some? ==> table[list[i]].prev.value in list && table[list[i]].prev.value in table
    ensures table[list[i]].next != Some(list[i]) && table[list[i]].prev != Some(list[i])
  {
    if i > 0 { assert list[i - 1] in list; }
    if i < |list| - 1 { assert list[i + 1] in list; }
  }

  lemma EnqueuedOk(free: map<Kind, Queue>, table: Table, lists: Lists, x: SegmentId, table': Table, queue: Queue)
    requires LinksOk(free, table, lists) && x in table && table[x].kind in lists && x !in lists[table[x].kind]
    requires var kind := table[x].kind;
      && queue == Queue(if free[kind].last.Some? then free[kind].first else Some(x), Some(x))
      && table'.Keys == table.Keys
      && table'[x] == table[x].(next := None, prev := free[kind].last)
      && forall y | y in table && y != x ::
           table'[y] == if free[kind].last == Some(y) then table[y].(next := Some(x)) else table[y]
    ensures LinksOk(free[table[x].kind := queue], table', lists[table[x].kind := lists[table[x].kind] + [x]])
  {
    hide Spells, Loose, Kinds;
    var kind := table[x].kind;
    LastListed(free[kind], table, lists[kind]);
    EnqueueSpells(free[kind], table, lists[kind], x, table');
    forall k | k in lists && k != kind ensures Spells(free[k], table', lists[k]) {
      OtherTail(free[kind], table, lists, kind, k, x);
      SpellsNoDup(free[k], table, lists[k]);
      FrameSpells(free[k], table, table', lists[k]);
    }
    EnqueuedLoose(table, lists, x, table', free[kind].last);
  }

  lemma LastListed(queue: Queue, table: Table, list: seq<SegmentId>)
    requires Spells(queue, table, list)
    ensures queue.last.Some? ==> queue.last.value in list && queue.last.value in table
  {
    if list != [] { assert list[|list| - 1] in list; }
  }

  lemma OtherTail(queue: Queue, table: Table, lists: Lists, kind: Kind, k: Kind, x: SegmentId)
    requires Kinds(table, lists) && kind in lists && k in lists && k != kind && x in table && table[x].kind == kind
    requires queue.last.Some? ==> queue.last.value in lists[kind]
    ensures x !in lists[k] && (queue.last.Some? ==> queue.last.value !in lists[k])
  {
    if queue.last.Some? { assert table[queue.last.value].kind == kind; }
  }

  lemma EnqueuedLoose(table: Table, lists: Lists, x: SegmentId, table': Table, last: Option<SegmentId>)
    requires Kinds(table, lists) && Loose(table, lists) && x in table && table[x].kind in lists
    requires last.Some? ==> last.value in lists[table[x].kind]
    requires table'.Keys == table.Keys && table'[x].kind == table[x].kind
    requires forall y | y in table && y != x :: table'[y] == if last == Some(y) then table[y].(next := Some(x)) else table[y]
    ensures var lists' := lists[table[x].kind := lists[table[x].kind] + [x]]; Kinds(table', lists') && Loose(table', lists')
  {
    hide Kinds, Loose;
    var kind := table[x].kind;
    var lists' := lists[kind := lists[kind] + [x]];
    assert forall k | k in lists && k != kind :: lists'[k] == lists[k];
    EnqueuedKinds(table, lists, lists', x, table');
    StillLoose(table, lists, lists', x, table', last);
  }

  lemma EnqueuedKinds(table: Table, lists: Lists, lists': Lists, x: SegmentId, table': Table)
    requires Kinds(table, lists) && x in table && lists'.Keys == lists.Keys && table'.Keys == table.Keys
    requires forall k, y | k in lists && y in lists'[k] :: y in lists[k] || (y == x && k == table[x].kind)
    requires forall y | y in table :: table'[y].kind == table[y].kind
    ensures Kinds(table', lists')
  {
  }

  lemma StillLoose(table: Table, lists: Lists, lists': Lists, x: SegmentId, table': Table, last: Option<SegmentId>)
    requires Kinds(table, lists) && Loose(table, lists) && x in table && lists'.Keys == lists.Keys && table'.Keys == table.Keys
    requires forall k, y | k in lists && y in lists[k] :: y in lists'[k]
    requires table[x].kind in lists && x in lists'[table[x].kind]
    requires last.Some? ==> last.value in lists[table[x].kind]
    requires table'[x].kind == table[x].kind
    requires forall y | y in table && y != x :: table'[y] == if last == Some(y) then table[y].(next := Some(x)) else table[y]
    ensures Loose(table', lists')
  {
    forall y | y in table' && !Listed(table', lists', y) ensures table'[y].next == None && table'[y].prev == None {
      assert !Listed(table, lists, y);
    }
  }

  lemma Unlisted(free: map<Kind, Queue>, table: Table, lists: Lists, x: SegmentId)
    requires LinksOk(free, table, lists) && x in table
    ensures !Listed(table, lists, x) ==> table[x].next == None && table[x].prev == None
    ensures forall y | y in table :: table[y].kind in free <==> table[y].kind in lists
    ensures SameButLinks(table, table)
    ensures forall k | k in lists && k != table[x].kind :: x !in lists[k]
  {
  }

  lemma Member(free: map<Kind, Queue>, table: Table, lists: Lists, x: SegmentId)
    requires LinksOk(free, table, lists) && x in table && table[x].kind in lists && x in lists[table[x].kind]
    ensures table[x].kind in free
    ensures table[x].next.Some? ==> table[x].next.value in table && table[x].next.value != x
    ensures table[x].prev.Some? ==> table[x].prev.value in table && table[x].prev.value != x
    ensures table[x].next.Some? && table[x].prev.Some? ==> table[x].next != table[x].prev
  {
    var kind := table[x].kind;
    assert Spells(free[kind], table, lists[kind]);
    var i :| 0 <= i < |lists[kind]| && lists[kind][i] == x;
    Neighboured(free[kind], table, lists[kind], i);
  }

  /** The assignments that unlink a segment. */
  lemma UnlinkIs(table: Table, x: SegmentId, table': Table)
    requires x in table
    requires var seg := table[x];
      && (seg.prev.Some? ==> seg.prev.value in table && seg.prev.value != x)
      && (seg.next.Some? ==> seg.next.value in table && seg.next.value != x)
      && var left := if seg.prev.Some? then table[seg.prev.value := table[seg.prev.value].(next := seg.next)] else table;
      && var both := if seg.next.Some? then left[seg.next.value := left[seg.next.value].(prev := seg.prev)] else left;
      table' == both[x := both[x].(next := None, prev := None)]
    ensures table' == Unlink(table, x)
  {
  }

  /** The counters are right, and the segment is in its queue exactly if it has free pages. */
  ghost predicate AtRest(table: Table, lists: Lists, x: SegmentId)
    requires x in table
  {
    && Owned(table[x])
    && (Queued(table[x].kind) ==>
          table[x].kind in lists && (x in lists[table[x].kind] <==> table[x].used < table[x].capacity))
  }

  predicate SameSegment(a: Segment, b: Segment) {
    a == b.(next := a.next, prev := a.prev)
  }

  /** If only segment `x` changed, all are at rest if it is. */
  lemma RestKept(table: Table, lists: Lists, table': Table, lists': Lists, x: SegmentId)
    requires forall y | y in table && y != x :: AtRest(table, lists, y)
    requires forall y | y in table' && y != x :: y in table && SameSegment(table'[y], table[y])
    requires lists'.Keys == lists.Keys && forall k, y | k in lists && y != x :: y in lists'[k] <==> y in lists[k]
    requires x in table' ==> AtRest(table', lists', x)
    ensures forall y | y in table' :: AtRest(table', lists', y)
  {
    forall y | y in table' && y != x ensures AtRest(table', lists', y) { assert AtRest(table, lists, y); }
  }

  // ---------------------------------------------------------------------------------------------
  // The segments of a thread
  // ---------------------------------------------------------------------------------------------

  /** The thread-local data about segments. */
  class Tld {
    var table: Table
    var free: map<Kind, Queue>
    ghost var lists: Lists

    /** The links are right and the counters are; queue membership may be about to change. */
    ghost predicate Linked() reads this {
      LinksOk(free, table, lists)
    }

    /**
     At the boundaries of operations: a small or medium segment is in its queue exactly if it has
     free pages.
     */
    ghost predicate Valid() reads this {
      Linked() && forall x | x in table :: AtRest(table, lists, x)
    }

    constructor ()
      ensures Valid() && table == map[]
    {
      table := map[];
      free := map[Small := Queue(None, None), Medium := Queue(None, None)];
      lists := map[Small := [], Medium := []];
    }

    /** `mi_segment_remove_from_free_queue` */
    method RemoveFromFreeQueue(x: SegmentId)
      requires Linked() && x in table
      modifies this
      ensures Linked() && SameButLinks(old(table), table) && table[x].next == None && table[x].prev == None
      ensures if old(table[x].kind in lists && x in lists[table[x].kind])
              then Dropped(old(lists), lists, table[x].kind, x)
              else lists == old(lists) && free == old(free) && table == old(table)
      ensures lists.Keys == old(lists.Keys)
      ensures forall k, y | k in lists :: y in lists[k] <==> y in old(lists[k]) && (y != x || k != table[x].kind)
    {
      hide LinksOk, Unlink, Dropped, SameButLinks, PointerTest;
      PointerTestIff(free, table, lists, x);
      Unlisted(free, table, lists, x);
      var seg := table[x];
      if PointerTest(free, seg, x) {
        ghost var table0, free0 := table, free;
        var queue := free[seg.kind];
        Member(free, table, lists, x);
        if seg.prev.Some? { table := table[seg.prev.value := table[seg.prev.value].(next := seg.next)]; }
        if seg.next.Some? { table := table[seg.next.value := table[seg.next.value].(prev := seg.prev)]; }
        if queue.first == Some(x) { queue := queue.(first := seg.next); }
        if queue.last == Some(x) { queue := queue.(last := seg.prev); }
        table := table[x := table[x].(next := None, prev := None)];
        free := free[seg.kind := queue];
        UnlinkIs(table0, x, table);
        lists := DroppedOk(free0, table0, lists, x, free);
      }
    }

    /** `mi_segment_insert_in_free_queue` */
    method InsertInFreeQueue(x: SegmentId)
      requires Linked() && x in table && Queued(table[x].kind) && x !in lists[table[x].kind]
      modifies this
      ensures Linked() && SameButLinks(old(table), table)
      ensures table[x].kind in old(lists) && lists == old(lists)[table[x].kind := old(lists[table[x].kind]) + [x]]
    {
      hide LinksOk;
      Unlisted(free, table, lists, x);
      QueueKinds(free, table, lists);
      var kind := table[x].kind;
      var queue := free[kind];
      ghost var table0 := table;
      TailIn(free, table, lists, kind, x);
      table := table[x := table[x].(next := None, prev := queue.last)];
      if queue.last.Some? {
        var last := queue.last.value;
        table := table[last := table[last].(next := Some(x))];
        queue := queue.(last := Some(x));
      } else {
        queue := Queue(Some(x), Some(x));
      }
      EnqueuedOk(free, table0, lists, x, table, queue);
      free := free[kind := queue];
      lists := lists[kind := lists[kind] + [x]];
    }

    /** The counters and pages of a segment change; its links do not. */
    method Set(x: SegmentId, seg: Segment)
      requires Linked() && x in table && seg.kind == table[x].kind && seg.next == table[x].next && seg.prev == table[x].prev
      modifies this`table
      ensures Linked() && table == old(table)[x := seg]
    {
      CountersKept(free, table, lists, x, seg);
      table := table[x := seg];
    }

    /** A fresh segment, without pages in use. */
    method Init(x: SegmentId, kind: Kind)
      requires Valid() && x !in table && kind != Huge
      modifies this
      ensures Valid() && table.Keys == old(table.Keys) + {x}
      ensures table[x].kind == kind && table[x].used == 0 && table[x].abandoned == 0
      ensures forall y | y in old(table) :: SameSegment(table[y], old(table[y]))
    {
      hide LinksOk, AtRest, Count;
      var n := Capacity(kind);
      var pages := seq(n, _ => Unused);
      NoneUsed(pages);
      QueueKinds(free, table, lists);
      ghost var table0, lists0 := table, lists;
      var seg := Segment(kind, pages, 0, 0, n, None, None, None);
      FreshLinks(free, table, lists, x, seg);
      table := table[x := seg];
      if Queued(kind) { InsertInFreeQueue(x); }
      assert AtRest(table, lists, x) by { FreshAtRest(table, lists, x); }
      RestKept(table0, lists0, table, lists, x);
    }

    /** `mi_segment_page_claim`; `committed` is false where the page memory cannot be committed. */
    method Claim(x: SegmentId, i: nat, committed: bool) returns (ok: bool)
      requires Valid() && x in table && i < |table[x].pages| && table[x].pages[i] == Unused
      modifies this
      ensures Valid() && table.Keys == old(table.Keys) && ok == committed
      ensures table[x].pages == if ok then old(table[x].pages)[i := InUse] else old(table[x].pages)
      ensures table[x].kind == old(table[x].kind)
      ensures forall y | y in table && y != x :: SameSegment(table[y], old(table[y]))
    {
      hide LinksOk, AtRest, Count, Dropped;
      if !committed { return false; }
      ok := true;
      var seg := table[x];
      assert AtRest(table, lists, x);
      var seg' := seg.(pages := seg.pages[i := InUse], used := seg.used + 1);
      ClaimCounts(table, lists, x, i, seg');
      QueueKinds(free, table, lists);
      ghost var table0, lists0 := table, lists;
      Set(x, seg');
      if table[x].used == table[x].capacity && Queued(seg.kind) {
        RemoveFromFreeQueue(x);
      }
      assert AtRest(table, lists, x) by { RestIs(table, lists, x); }
      RestKept(table0, lists0, table, lists, x);
    }

    /** The thread gives a segment up: it leaves its queue and the thread. */
    method Detach(x: SegmentId) returns (seg: Segment)
      requires Linked() && x in table
      modifies this
      ensures Linked() && table.Keys == old(table.Keys) - {x} && lists.Keys == old(lists.Keys)
      ensures SameSegment(seg, old(table[x])) && seg.next == None && seg.prev == None
      ensures forall y | y in table :: SameSegment(table[y], old(table[y]))
      ensures forall k, y | k in lists && y != x :: y in lists[k] <==> y in old(lists[k])
    {
      hide LinksOk, Dropped;
      QueueKinds(free, table, lists);
      RemoveFromFreeQueue(x);
      QueueKinds(free, table, lists);
      seg := table[x];
      RemovedLinks(free, table, lists, x);
      table := table - {x};
    }

    /**
     `_mi_segment_page_free`: a page without blocks is cleared.  The segment is freed when it has no
     more pages in use, abandoned when only abandoned pages are left, and put back in its queue when
     it was full.
     */
    method PageFree(x: SegmentId, i: nat) returns (fate: Fate, seg: Segment)
      requires Valid() && x in table && i < |table[x].pages| && table[x].pages[i] == InUse
      modifies this
      ensures Valid() && table.Keys == old(table.Keys) - (if fate == Kept then {} else {x})
      ensures seg.pages == old(table[x].pages)[i := Unused] && seg.kind == old(table[x].kind) && Counted(seg)
      ensures fate == Freed <==> seg.used == 0
      ensures fate == GivenUp <==> Orphan(seg)
      ensures fate == Kept ==> table[x] == seg
      ensures fate == Freed ==> seg.next == None && seg.prev == None && seg.abandonedNext == None
      ensures forall y | y in table && y != x :: SameSegment(table[y], old(table[y]))
    {
      hide LinksOk, AtRest, Count;
      ghost var table0, lists0 := table, lists;
      seg := table[x];
      assert AtRest(table, lists, x);
      seg := seg.(pages := seg.pages[i := Unused], used := seg.used - 1);
      FreeCounts(table, lists, x, i, seg);
      QueueKinds(free, table, lists);
      Set(x, seg);
      if seg.used == 0 {
        fate := Freed;
        seg := Detach(x);
      } else if seg.used == seg.abandoned {
        fate := GivenUp;
        seg := Detach(x);
      } else {
        fate := Kept;
        if seg.used + 1 == seg.capacity { InsertInFreeQueue(x); }
        seg := table[x];
        assert AtRest(table, lists, x) by { RestIs(table, lists, x); }
      }
      RestKept(table0, lists0, table, lists, x);
    }

    /** `_mi_segment_page_abandon`: the segment is abandoned with the last of its pages in use. */
    method PageAbandon(x: SegmentId, i: nat) returns (fate: Fate, seg: Segment)
      requires Valid() && x in table && i < |table[x].pages| && table[x].pages[i] == InUse
      modifies this
      ensures Valid() && table.Keys == old(table.Keys) - (if fate == Kept then {} else {x})
      ensures seg.pages == old(table[x].pages)[i := Left] && seg.kind == old(table[x].kind) && Counted(seg)
      ensures fate == GivenUp <==> Orphan(seg)
      ensures fate == Kept || fate == GivenUp
      ensures fate == Kept ==> table[x] == seg
      ensures forall y | y in table && y != x :: SameSegment(table[y], old(table[y]))
    {
      hide LinksOk, AtRest, Count;
      ghost var table0, lists0 := table, lists;
      seg := table[x];
      assert AtRest(table, lists, x);
      seg := seg.(pages := seg.pages[i := Left], abandoned := seg.abandoned + 1);
      AbandonCounts(table, lists, x, i, seg);
      QueueKinds(free, table, lists);
      Set(x, seg);
      if seg.used == seg.abandoned {
        fate := GivenUp;
        seg := Detach(x);
      } else {
        fate := Kept;
        assert AtRest(table, lists, x) by { RestIs(table, lists, x); }
      }
      RestKept(table0, lists0, table, lists, x);
    }

    /**
     `mi_segment_reclaim`: the thread takes over an abandoned segment.  `empty(i)` tells whether page
     `i` turns out to have no blocks; such a page is cleared.
     */
    method Reclaim(x: SegmentId, orphan: Segment, empty: nat -> bool) returns (fate: Fate, seg: Segment)
      requires Valid() && x !in table && Orphan(orphan) && orphan.kind != Huge
      modifies this
      ensures Valid() && table.Keys == old(table.Keys) + (if fate == Kept then {x} else {})
      ensures fate == Freed <==> seg.used == 0
      ensures fate != GivenUp && seg.abandoned == 0 && Counted(seg)
      ensures seg.pages == Reclaimed(orphan.pages, empty, |orphan.pages|)
      ensures fate == Kept ==> table[x] == seg
      ensures forall y | y in old(table) :: SameSegment(table[y], old(table[y]))
    {
      hide LinksOk, AtRest, Count;
      ghost var table0, lists0 := table, lists;
      seg := ReclaimPages(orphan, empty);
      if seg.used == 0 {
        fate := Freed;
      } else {
        fate := Kept;
        QueueKinds(free, table, lists);
        FreshLinks(free, table, lists, x, seg);
        table := table[x := seg];
        if Queued(seg.kind) && seg.used < seg.capacity { InsertInFreeQueue(x); }
        seg := table[x];
        assert AtRest(table, lists, x) by { RestIs(table, lists, x); }
        RestKept(table0, lists0, table, lists, x);
      }
    }
  }

  /** The loop of `mi_segment_reclaim` over the pages. */
  method ReclaimPages(orphan: Segment, empty: nat -> bool) returns (seg: Segment)
    requires Orphan(orphan)
    ensures Owned(seg) && seg.abandoned == 0 && 0 <= seg.used <= seg.capacity
    ensures seg == orphan.(pages := Reclaimed(orphan.pages, empty, |orphan.pages|), used := seg.used, abandoned := 0)
  {
    hide Count;
    seg := orphan;
    var i := 0;
    while i < seg.capacity
      invariant 0 <= i <= seg.capacity && Counted(seg)
      invariant seg == orphan.(pages := seg.pages, used := seg.used, abandoned := seg.abandoned)
      invariant seg.pages == Reclaimed(orphan.pages, empty, i)
    {
      if seg.pages[i] != Unused {
        var use := if empty(i) then Unused else InUse;
        ReclaimCounts(orphan, empty, i, seg, use);
        seg := seg.(pages := seg.pages[i := use], abandoned := seg.abandoned - 1,
                    used := seg.used - if empty(i) then 1 else 0);
      }
      i := i + 1;
    }
    NoneLeft(orphan, empty, seg);
  }

  lemma FreshAtRest(table: Table, lists: Lists, x: SegmentId)
    requires x in table && Owned(table[x]) && table[x].used < table[x].capacity
    requires Queued(table[x].kind) ==> table[x].kind in lists && x in lists[table[x].kind]
    ensures AtRest(table, lists, x)
  {
  }

  lemma RestIs(table: Table, lists: Lists, x: SegmentId)
    requires x in table && Owned(table[x])
    requires Queued(table[x].kind) ==>
      table[x].kind in lists && (x in lists[table[x].kind] <==> table[x].used < table[x].capacity)
    ensures AtRest(table, lists, x)
  {
  }

  lemma ClaimCounts(table: Table, lists: Lists, x: SegmentId, i: nat, seg: Segment)
    requires x in table && AtRest(table, lists, x) && i < |table[x].pages| && table[x].pages[i] == Unused
    requires seg == table[x].(pages := table[x].pages[i := InUse], used := table[x].used + 1)
    ensures Owned(seg) && seg.used <= seg.capacity
    ensures Queued(seg.kind) ==> seg.kind in lists && x in lists[seg.kind]
  {
    hide Count;
    var pages := table[x].pages;
    CountUpdate(pages, i, InUse, InUse);
    CountUpdate(pages, i, InUse, Left);
    CountAll(seg.pages);
    CountAll(pages);
    CountPositive(pages, i);
  }

  lemma CountPositive(pages: seq<PageUse>, i: nat)
    requires i < |pages|
    ensures Count(pages, pages[i]) > 0
  {
    CountNone(pages, pages[i]);
  }

  lemma QueueKinds(free: map<Kind, Queue>, table: Table, lists: Lists)
    requires LinksOk(free, table, lists)
    ensures forall k :: k in lists <==> Queued(k)
    ensures forall k :: k in free <==> Queued(k)
    ensures forall k, x | k in lists && x in lists[k] :: x in table && table[x].kind == k
  {
  }

  lemma TailIn(free: map<Kind, Queue>, table: Table, lists: Lists, kind: Kind, x: SegmentId)
    requires LinksOk(free, table, lists) && kind in lists && x !in lists[kind]
    ensures kind in free && (free[kind].last.Some? ==> free[kind].last.value in table && free[kind].last.value != x)
  {
    assert Spells(free[kind], table, lists[kind]);
    LastListed(free[kind], table, lists[kind]);
  }

  lemma CountersKept(free: map<Kind, Queue>, table: Table, lists: Lists, x: SegmentId, seg: Segment)
    requires LinksOk(free, table, lists) && x in table
    requires seg.kind == table[x].kind && seg.next == table[x].next && seg.prev == table[x].prev
    ensures LinksOk(free, table[x := seg], lists)
  {
    hide Spells, Kinds, Loose;
    var table' := table[x := seg];
    assert forall y | y in table ::
      table'[y].kind == table[y].kind && table'[y].next == table[y].next && table'[y].prev == table[y].prev;
    SameLinksOk(free, table, lists, table');
  }

  /** Only links and kinds matter to the queues. */
  lemma SameLinksOk(free: map<Kind, Queue>, table: Table, lists: Lists, table': Table)
    requires LinksOk(free, table, lists) && table.Keys <= table'.Keys
    requires forall y | y in table ::
      table'[y].kind == table[y].kind && table'[y].next == table[y].next && table'[y].prev == table[y].prev
    requires forall y | y in table' && y !in table :: table'[y].next == None && table'[y].prev == None
    ensures LinksOk(free, table', lists)
  {
    hide Spells;
    forall k | k in lists ensures Spells(free[k], table', lists[k]) { FrameSpells(free[k], table, table', lists[k]); }
    SameLoose(table, lists, table');
  }

  lemma SameLoose(table: Table, lists: Lists, table': Table)
    requires Loose(table, lists) && table.Keys <= table'.Keys
    requires forall y | y in table ::
      table'[y].kind == table[y].kind && table'[y].next == table[y].next && table'[y].prev == table[y].prev
    requires forall y | y in table' && y !in table :: table'[y].next == None && table'[y].prev == None
    ensures Loose(table', lists)
  {
    forall y | y in table' && !Listed(table', lists, y) ensures table'[y].next == None && table'[y].prev == None {
      if y in table { assert !Listed(table, lists, y); }
    }
  }

  lemma FreshLinks(free: map<Kind, Queue>, table: Table, lists: Lists, x: SegmentId, seg: Segment)
    requires LinksOk(free, table, lists) && x !in table && seg.next == None && seg.prev == None
    ensures LinksOk(free, table[x := seg], lists) && forall k | k in lists :: x !in lists[k]
  {
    hide Spells, Loose;
    SameLinksOk(free, table, lists, table[x := seg]);
  }

  lemma {:induction false} NoneUsed(pages: seq<PageUse>)
    requires forall i | 0 <= i < |pages| :: pages[i] == Unused
    ensures Count(pages, InUse) == 0 && Count(pages, Left) == 0
  {
    CountNone(pages, InUse);
    CountNone(pages, Left);
  }

  lemma RemovedLinks(free: map<Kind, Queue>, table: Table, lists: Lists, x: SegmentId)
    requires LinksOk(free, table, lists) && x in table && forall k | k in lists :: x !in lists[k]
    ensures LinksOk(free, table - {x}, lists)
  {
    var table' := table - {x};
    forall k | k in lists ensures Spells(free[k], table', lists[k]) { FrameSpells(free[k], table, table', lists[k]); }
    forall y | y in table' && !Listed(table', lists, y) ensures table'[y].next == None && table'[y].prev == None {
      assert !Listed(table, lists, y);
    }
  }

  lemma FreeCounts(table: Table, lists: Lists, x: SegmentId, i: nat, seg: Segment)
    requires x in table && AtRest(table, lists, x) && i < |table[x].pages| && table[x].pages[i] == InUse
    requires seg == table[x].(pages := table[x].pages[i := Unused], used := table[x].used - 1)
    ensures Counted(seg) && 0 <= seg.abandoned <= seg.used < seg.capacity && seg.abandonedNext == None
    ensures seg.used > 0 && seg.used + 1 == seg.capacity ==> Queued(seg.kind)
    ensures Queued(seg.kind) ==> seg.kind in lists && (x in lists[seg.kind] <==> seg.used + 1 < seg.capacity)
  {
    hide Count;
    var pages := table[x].pages;
    CountUpdate(pages, i, Unused, InUse);
    CountUpdate(pages, i, Unused, Left);
    CountAll(pages);
    CountPositive(pages, i);
  }

  lemma AbandonCounts(table: Table, lists: Lists, x: SegmentId, i: nat, seg: Segment)
    requires x in table && AtRest(table, lists, x) && i < |table[x].pages| && table[x].pages[i] == InUse
    requires seg == table[x].(pages := table[x].pages[i := Left], abandoned := table[x].abandoned + 1)
    ensures Counted(seg) && 0 < seg.abandoned <= seg.used <= seg.capacity && seg.abandonedNext == None
    ensures Queued(seg.kind) ==> seg.kind in lists && (x in lists[seg.kind] <==> seg.used < seg.capacity)
  {
    hide Count;
    var pages := table[x].pages;
    CountUpdate(pages, i, Left, InUse);
    CountUpdate(pages, i, Left, Left);
    CountAll(pages);
    CountPositive(pages, i);
  }

  /** The pages of a reclaimed segment: empty ones are cleared, the others are in use again. */
  function Reclaimed(pages: seq<PageUse>, empty: nat -> bool, n: nat): (r: seq<PageUse>)
    requires n <= |pages|
    ensures |r| == |pages|
  {
    seq(|pages|, (i: nat) requires i < |pages| =>
      if i < n && pages[i] != Unused then if empty(i) then Unused else InUse else pages[i])
  }

  /** In an abandoned segment every page in use is abandoned. */
  lemma OrphanPages(seg: Segment)
    requires Orphan(seg)
    ensures forall i | 0 <= i < |seg.pages| :: seg.pages[i] != InUse
  {
    CountNone(seg.pages, InUse);
  }

  lemma ReclaimCounts(orphan: Segment, empty: nat -> bool, i: nat, seg: Segment, use: PageUse)
    requires Orphan(orphan) && Counted(seg) && i < |orphan.pages| && seg.pages == Reclaimed(orphan.pages, empty, i)
    requires seg.pages[i] != Unused && use == if empty(i) then Unused else InUse
    ensures seg.pages[i := use] == Reclaimed(orphan.pages, empty, i + 1)
    ensures Count(seg.pages[i := use], Left) == Count(seg.pages, Left) - 1
    ensures Count(seg.pages[i := use], InUse) == Count(seg.pages, InUse) + if empty(i) then 0 else 1
  {
    hide Count;
    OrphanPages(orphan);
    CountUpdate(seg.pages, i, use, Left);
    CountUpdate(seg.pages, i, use, InUse);
  }

  lemma NoneLeft(orphan: Segment, empty: nat -> bool, seg: Segment)
    requires Orphan(orphan) && Counted(seg) && seg.abandonedNext == None
    requires seg.pages == Reclaimed(orphan.pages, empty, |orphan.pages|)
    ensures seg.abandoned == 0 && 0 <= seg.used <= seg.capacity && Owned(seg)
  {
    CountNone(seg.pages, Left);
    CountAll(seg.pages);
  }
}
