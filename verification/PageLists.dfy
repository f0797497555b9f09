/**
 A page with its three lists of free blocks, changed in place by its owner.  What the methods do to
 the lists is what the steps of the cross-thread free protocol say of them.
 */
module PageLists {
  import opened Options
  import opened BitScan
  import opened FreeLists
  import FreeProtocol

  /** The lists as the protocol sees them. */
  function Blocks(p: nat, list: seq<nat>): seq<FreeProtocol.Block> {
    seq(|list|, i requires 0 <= i < |list| => FreeProtocol.Block(p, list[i]))
  }

  lemma BlocksConcat(p: nat, xs: seq<nat>, ys: seq<nat>)
    ensures Blocks(p, xs + ys) == Blocks(p, xs) + Blocks(p, ys)
  {
  }

  ghost predicate LinksIn(next: seq<Link>) {
    forall x | x in next && x.Some? :: x.value < |next|
  }

  /** Three lists of different blocks below `capacity`, spelled out by their heads. */
  ghost predicate ListsOk(next: seq<Link>, free: Link, local: Link, thread: Link,
                          f: seq<nat>, l: seq<nat>, t: seq<nat>, capacity: nat) {
    && capacity <= |next| && LinksIn(next)
    && Spells(next, free, f) && Spells(next, local, l) && Spells(next, thread, t)
    && NoDup(f) && NoDup(l) && NoDup(t)
    && Within(f, capacity) && Within(l, capacity) && Within(t, capacity)
    && Apart(f, l) && Apart(f, t) && Apart(l, t)
  }

  class Page {
    const next: array<Link>
    var free: Link
    var local: Link
    var thread: Link
    var used: int
    var capacity: nat

    ghost var freeList: seq<nat>
    ghost var localList: seq<nat>
    ghost var threadList: seq<nat>

    ghost predicate Valid() reads this, next {
      && ListsOk(next[..], free, local, thread, freeList, localList, threadList, capacity)
      && used + |freeList| + |localList| == capacity
    }

    /** The page as the protocol sees it. */
    ghost function Abs(p: nat): FreeProtocol.Page reads this {
      FreeProtocol.Page(None, None, FreeProtocol.Never, Blocks(p, threadList), Blocks(p, freeList), Blocks(p, localList),
                        used, capacity, false)
    }

    constructor (reserved: nat)
      ensures Valid() && fresh(next) && next.Length == reserved
      ensures capacity == 0 && used == 0 && freeList == [] && localList == [] && threadList == []
    {
      next := new Link[reserved](_ => None);
      free, local, thread, used, capacity := None, None, None, 0, 0;
      freeList, localList, threadList := [], [], [];
    }

    /**
     `mi_page_free_list_extend`: the new blocks in order, before the free list.
     */
    method ExtendSequential(extend: nat, ghost p: nat)
      requires Valid() && extend >= 1 && capacity + extend <= next.Length
      modifies this, next
      ensures Valid() && capacity == old(capacity) + extend && used == old(used)
      ensures freeList == Ascent(old(capacity), extend) + old(freeList)
      ensures Abs(p).free == FreeProtocol.Fresh(p, old(capacity), capacity) + old(Abs(p)).free
      ensures localList == old(localList) && threadList == old(threadList)
    {
      hide ListsOk, Blocks, FreeProtocol.Fresh, NoDup;
      AscentNoDup(capacity, extend);
      ghost var links := next[..];
      ghost var f := freeList;
      var start, last := capacity, capacity + extend - 1;
      var block := start;
      while block <= last
        modifies next
        invariant start <= block <= last + 1
        invariant forall i | start <= i < block :: next[i] == Some(i + 1)
        invariant forall i | 0 <= i < next.Length && !(start <= i < block) :: next[i] == links[i]
      {
        next[block] := Some(block + 1);
        block := block + 1;
      }
      next[last] := free;
      Extended(links, next[..], free, local, thread, f, localList, threadList, capacity, Ascent(start, extend));
      BlocksConcat(p, Ascent(start, extend), f);
      BlocksFresh(p, start, extend);
      free := Some(start);
      freeList := Ascent(start, extend) + f;
      capacity := capacity + extend;
    }

    /**
     `mi_page_free_list_extend_secure`: the new blocks in an order that random values decide, before
     the free list.  `r` is the first random value, `picks(i)` the one of round `i`.
     */
    method ExtendSecure(extend: nat, r: nat, picks: nat -> nat)
      returns (ghost order: seq<nat>, ghost slice: seq<nat>, ghost shift: nat)
      requires Valid() && extend >= 1 && capacity + extend <= next.Length
      modifies this, next
      ensures Valid() && capacity == old(capacity) + extend && used == old(used)
      ensures freeList == order + old(freeList) && NoDup(order) && |order| == extend
      ensures multiset(order) == multiset(Ascent(old(capacity), extend))
      ensures shift <= 6 && Pow2(shift) <= extend && (shift < 6 ==> extend < Pow2(shift + 1))
      ensures var count := Pow2(shift);
        && Follows(Bounds(old(capacity), extend, count, extend / count), order, slice, count, picks)
        && slice[0] == r % count
      ensures localList == old(localList) && threadList == old(threadList)
    {
      var s := MAX_SHIFT;
      while extend / Pow2(s) == 0
        modifies {}
        invariant 0 <= s <= MAX_SHIFT && (s < MAX_SHIFT ==> extend / Pow2(s + 1) == 0)
        decreases s
      {
        NotYet(extend, s);
        s := s - 1;
      }
      SliceCount(extend, s);
      if s < MAX_SHIFT { NoQuotient(extend, Pow2(s + 1)); }
      shift := s;
      var count := Pow2(s);
      var size := extend / count;
      DivisionParts(extend, count);
      ghost var base := capacity;
      order, slice := Thread(count, size, extend % count, extend, r, picks);
      SameElements(order, Ascent(base, extend));
    }

    /** Thread the blocks of `count` slices together and put them before the free list. */
    method Thread(count: nat, size: nat, rest: nat, extend: nat, r: nat, picks: nat -> nat)
      returns (ghost order: seq<nat>, ghost slice: seq<nat>)
      requires Valid() && extend >= 1 && capacity + extend <= next.Length
      requires 0 < count <= MAX_SLICES && Sliced(extend, count, size, rest)
      modifies this, next
      ensures Valid() && capacity == old(capacity) + extend && used == old(used)
      ensures freeList == order + old(freeList) && NoDup(order) && |order| == extend
      ensures forall x :: x in order <==> old(capacity) <= x < old(capacity) + extend
      ensures |slice| == extend && slice[0] == r % count
      ensures Follows(Bounds(old(capacity), extend, count, size), order, slice, count, picks)
      ensures localList == old(localList) && threadList == old(threadList)
    {
      hide Threading, Sum, Bound, Bounds, NoDup, ListsOk, Sliced, Joined, Follows, UsedUp;
      ghost var links, f := next[..], freeList;
      var blocks, counts := Slices(capacity, extend, count, size, rest);
      var current := r % count;
      ghost var was := counts[..count];
      ThreadingStart(capacity, extend, size, rest, blocks[..count], was, current);
      counts[current] := counts[current] - 1;
      assert counts[..count] == was[current := was[current] - 1];
      var freeStart := blocks[current];
      ghost var lo := Bounds(capacity, extend, count, size);
      BoundsEnds(capacity, extend, count, size);
      BoundsAt(capacity, extend, count, size);
      FollowsStart(lo, blocks[..count], current, picks);
      current, order, slice := Rounds(next, blocks, counts, count, current, extend, picks, lo);
      ThreadingCovers(lo, blocks[..count], counts[..count], current, order, slice);
      LastThreaded(lo, blocks[..count], counts[..count], current, order, slice);
      ghost var nx := next[..];
      next[blocks[current]] := free;
      assert next[..] == nx[blocks[current] := free];
      TailLinked(nx, order, free);
      Extended(links, next[..], free, local, thread, f, localList, threadList, capacity, order);
      free := Some(freeStart);
      freeList := order + f;
      capacity := capacity + extend;
    }

    /** `_mi_page_malloc`: take the first free block. */
    method Malloc() returns (b: nat)
      requires Valid() && free != None
      modifies this
      ensures Valid() && freeList == old(freeList[1..]) && b == old(freeList[0]) && used == old(used) + 1
      ensures localList == old(localList) && threadList == old(threadList) && capacity == old(capacity)
      ensures b < capacity && b !in freeList && b !in localList && b !in threadList
    {
      b := free.value;
      free := next[b];
      used := used + 1;
      assert freeList[0] in freeList;
      assert forall x | x in freeList[1..] :: x in freeList;
      freeList := freeList[1..];
    }

    /** The block is in nobody's list. */
    ghost predicate Out(b: nat) reads this {
      b < capacity && b !in freeList && b !in localList && b !in threadList
    }

    /** `_mi_free_block` by the owner: push the block on the local list. */
    method FreeLocal(b: nat, ghost p: nat)
      requires Valid() && Out(b)
      modifies this, next
      ensures Abs(p) == FreeProtocol.FreeLocal(old(Abs(p)), FreeProtocol.Block(p, b))
      ensures Valid() && localList == [b] + old(localList) && used == old(used) - 1
      ensures freeList == old(freeList) && threadList == old(threadList) && capacity == old(capacity)
    {
      Pushable(next[..], local, localList, b);
      Unlinked(next[..], free, freeList, b, local);
      Unlinked(next[..], thread, threadList, b, local);
      HeadIn(next[..], local, localList);
      BlocksConcat(p, [b], localList);
      next[b] := local;
      local := Some(b);
      used := used - 1;
      localList := [b] + localList;
    }

    /** The push of a block freed by another thread. */
    method FreeRemote(b: nat)
      requires Valid() && Out(b)
      modifies this, next
      ensures Valid() && threadList == [b] + old(threadList) && used == old(used)
      ensures freeList == old(freeList) && localList == old(localList) && capacity == old(capacity)
    {
      Pushable(next[..], thread, threadList, b);
      Unlinked(next[..], free, freeList, b, thread);
      Unlinked(next[..], local, localList, b, thread);
      HeadIn(next[..], thread, threadList);
      next[b] := thread;
      thread := Some(b);
      threadList := [b] + threadList;
    }

    /**
     `_mi_page_thread_free_collect`: the whole thread-free list goes before the local list.  It is
     the step `TakeThreadFree` of the protocol; the corruption branch is never taken.
     */
    method ThreadFreeCollect(p: nat)
      requires Valid()
      modifies this, next
      ensures Valid() && Abs(p) == FreeProtocol.TakeThreadFree(old(Abs(p)))
      ensures threadList == [] && localList == old(threadList) + old(localList) && freeList == old(freeList)
      ensures used == old(used) - |old(threadList)| && capacity == old(capacity)
    {
      Fits(freeList, localList, threadList, capacity);
      BlocksConcat(p, threadList, localList);
      var head := thread;
      thread := None;
      if head == None { return; }
      ghost var links := next[..];
      HeadIn(links, head, threadList);
      var count, tail := FindTail(next, head.value, capacity);
      CountIs(links, head, threadList, capacity, count, tail);
      if count > capacity {
        assert false;  // "corrupted thread-free list"
      }
      Appendable(links, head, threadList, tail, local, localList);
      Unlinked(links, free, freeList, tail, local);
      HeadIn(links, local, localList);
      next[tail] := local;
      local := head;
      used := used - count;
      Merged(threadList, localList, freeList, capacity);
      localList, threadList := threadList + localList, [];
    }

    /**
     `_mi_page_free_collect`: it is `TakeThreadFree` (when forced, or when a quick test sees a
     thread-free list) followed by `Migrate`.
     */
    method Collect(p: nat, force: bool)
      requires Valid()
      modifies this, next
      ensures Valid() && Abs(p) == FreeProtocol.Migrate(FreeProtocol.TakeThreadFree(old(Abs(p))), force)
      ensures force ==> localList == []
      ensures old(freeList) == [] ==> localList == []
    {
      if force || thread != None {
        ThreadFreeCollect(p);
      }
      Heads(next[..], free, freeList);
      Heads(next[..], local, localList);
      Heads(next[..], thread, threadList);
      BlocksConcat(p, localList, freeList);
      if local != None {
        if free == None {
          free := local;
          local := None;
          freeList, localList := localList, [];
        } else if force {
          AppendLocal();
        }
      }
    }

    /** The local list goes before the free list: a linear operation. */
    method AppendLocal()
      requires Valid() && local != None
      modifies this, next
      ensures Valid() && freeList == old(localList) + old(freeList) && localList == []
      ensures threadList == old(threadList) && used == old(used) && capacity == old(capacity)
    {
      ghost var links := next[..];
      HeadIn(links, local, localList);
      var tail := FindLast(next, local.value, localList);
      Appendable(links, local, localList, tail, free, freeList);
      HeadIn(links, free, freeList);
      Unlinked(links, thread, threadList, tail, free);
      next[tail] := free;
      free := local;
      local := None;
      Merged(localList, freeList, threadList, capacity);
      freeList, localList := localList + freeList, [];
    }
  }

  /**
   The rounds of the randomized extender: each links the block that was linked last to the next
   block of a slice chosen at random.
   */
  method Rounds(next: array<Link>, blocks: array<nat>, counts: array<nat>, count: nat, first: nat, extend: nat,
                picks: nat -> nat, ghost lo: seq<nat>)
    returns (current: nat, ghost order: seq<nat>, ghost slice: seq<nat>)
    requires blocks != counts && 0 < count <= blocks.Length && count <= counts.Length && first < count
    requires Threading(lo, blocks[..count], counts[..count], first, [blocks[first]], [first])
    requires UsedUp(lo, blocks[..count], first, [first]) && Follows(lo, [blocks[first]], [first], count, picks)
    requires lo[|lo| - 1] - lo[0] == extend && lo[|lo| - 1] <= next.Length
    modifies next, blocks, counts
    ensures current < count && Threading(lo, blocks[..count], counts[..count], current, order, slice)
    ensures |order| == extend && order[0] == old(blocks[first]) && Joined(next[..], order)
    ensures Follows(lo, order, slice, count, picks) && |slice| == extend && slice[0] == first
    ensures forall b | 0 <= b < next.Length && b !in order :: next[b] == old(next[b])
  {
    hide Threading, Sum, Joined, Follows, UsedUp, Round;
    current, order, slice := first, [blocks[first]], [first];
    LastThreaded(lo, blocks[..count], counts[..count], current, order, slice);
    JoinedOne(next[..], blocks[first]);
    var i := 1;
    while i < extend
      invariant 1 <= i <= extend && |order| == i && current < count
      invariant Threading(lo, blocks[..count], counts[..count], current, order, slice)
      invariant order[0] == old(blocks[first]) && Joined(next[..], order)
      invariant UsedUp(lo, blocks[..count], current, slice) && Follows(lo, order, slice, count, picks)
      invariant |slice| == i && slice[0] == first
      invariant forall b | 0 <= b < next.Length && b !in order :: next[b] == old(next[b])
    {
      ghost var nx, bs, cs := next[..], blocks[..count], counts[..count];
      LastThreaded(lo, bs, cs, current, order, slice);
      var pick, n := FindSlice(counts, count, picks(i) % count);
      FollowsNext(lo, bs, cs, current, order, slice, picks, n, pick);
      ThreadingStep(lo, bs, cs, current, order, slice, pick);
      counts[pick] := counts[pick] - 1;
      var block := blocks[current];
      blocks[current] := block + 1;
      next[block] := Some(blocks[pick]);
      assert counts[..count] == cs[pick := cs[pick] - 1];
      assert blocks[..count] == bs[current := bs[current] + 1];
      assert next[..] == nx[block := Some(blocks[pick])];
      JoinedMore(nx, order, blocks[pick]);
      order, slice := order + [blocks[pick]], slice + [pick];
      current := pick;
      i := i + 1;
    }
    LastThreaded(lo, blocks[..count], counts[..count], current, order, slice);
  }

  /** The start and the number of blocks of each slice; the last one holds the rest as well. */
  method Slices(base: nat, extend: nat, count: nat, size: nat, rest: nat) returns (blocks: array<nat>, counts: array<nat>)
    requires 0 < count <= MAX_SLICES
    ensures fresh(blocks) && fresh(counts) && blocks != counts && blocks.Length == counts.Length == MAX_SLICES
    ensures forall k | 0 <= k < count :: blocks[k] == Bound(base, extend, count, size, k)
    ensures forall k | 0 <= k < count :: counts[k] == size + if k == count - 1 then rest else 0
  {
    hide Bound;
    blocks := new nat[MAX_SLICES](_ => 0);
    counts := new nat[MAX_SLICES](_ => 0);
    var i := 0;
    while i < count
      invariant 0 <= i <= count
      invariant forall k | 0 <= k < i :: blocks[k] == Bound(base, extend, count, size, k) && counts[k] == size
    {
      blocks[i] := base + i * size;
      BoundAt(base, extend, count, size, i);
      counts[i] := size;
      i := i + 1;
    }
    counts[count - 1] := counts[count - 1] + rest;
  }

  lemma BoundAt(base: nat, extend: nat, count: nat, size: nat, k: nat)
    requires k < count
    ensures Bound(base, extend, count, size, k) == base + k * size
  {
  }

  /** The cyclic search for a slice that has blocks left. */
  method FindSlice(counts: array<nat>, count: nat, start: nat) returns (k: nat, ghost n: nat)
    requires start < count <= counts.Length && Sum(counts[..count]) > 0
    ensures k < count && counts[k] > 0 && n < count && Round(start, n, count) == k
    ensures forall d: nat | d < n :: counts[Round(start, d, count)] == 0
  {
    ghost var w := SomeLeft(counts[..count]);
    ghost var m := if w >= start then w - start else w + count - start;
    k, n := start, 0;
    while counts[k] == 0
      invariant n <= m < count && k < count && Round(start, n, count) == k
      invariant forall d: nat | d < n :: counts[Round(start, d, count)] == 0
      decreases m - n
    {
      k, n := k + 1, n + 1;
      if k == count { k := 0; }
    }
  }

  /** The last block of a list. */
  method FindLast(next: array<Link>, head: nat, ghost list: seq<nat>) returns (tail: nat)
    requires Spells(next[..], Some(head), list) && list != []
    ensures tail == list[|list| - 1]
  {
    tail := head;
    ghost var k := 0;
    SpellsJoined(next[..], Some(head), list);
    while next[tail] != None
      invariant 0 <= k < |list| && tail == list[k]
      decreases |list| - k
    {
      tail := next[tail].value;
      k := k + 1;
    }
    EndsHere(next[..], list, k);
  }

  // ---------------------------------------------------------------------------------------------
  // What the methods need
  // ---------------------------------------------------------------------------------------------

  lemma BoundsEnds(base: nat, extend: nat, count: nat, size: nat)
    requires count > 0
    ensures Bounds(base, extend, count, size)[0] == base && Bounds(base, extend, count, size)[count] == base + extend
  {
  }

  lemma BoundsAt(base: nat, extend: nat, count: nat, size: nat)
    ensures forall k | 0 <= k < count :: Bounds(base, extend, count, size)[k] == Bound(base, extend, count, size, k)
  {
  }

  lemma EndsHere(next: seq<Link>, list: seq<nat>, k: nat)
    requires Joined(next, list) && k < |list| && next[list[k]] == None
    ensures k == |list| - 1
  {
  }

  /** The block linked last, and how many are left. */
  lemma LastThreaded(lo: seq<nat>, blocks: seq<nat>, counts: seq<nat>, current: nat, order: seq<nat>, slice: seq<nat>)
    requires Threading(lo, blocks, counts, current, order, slice)
    ensures |lo| == |blocks| + 1 && |counts| == |blocks| && current < |blocks|
    ensures order != [] && order[|order| - 1] == blocks[current] && NoDup(order)
    ensures Sum(counts) + |order| == lo[|lo| - 1] - lo[0]
    ensures forall k | 0 <= k < |order| :: lo[0] <= order[k] < lo[|lo| - 1]
  {
    hide Sum;
    ThreadingCovers(lo, blocks, counts, current, order, slice);
    assert forall k | 0 <= k < |order| :: order[k] in order;
  }

  lemma JoinedOne(next: seq<Link>, b: nat)
    requires b < |next|
    ensures Joined(next, [b])
  {
  }

  lemma JoinedMore(next: seq<Link>, order: seq<nat>, b: nat)
    requires Joined(next, order) && order != [] && NoDup(order) && b < |next|
    ensures order[|order| - 1] < |next| && Joined(next[order[|order| - 1] := Some(b)], order + [b])
  {
  }

  lemma BlocksFresh(p: nat, start: nat, extend: nat)
    ensures Blocks(p, Ascent(start, extend)) == FreeProtocol.Fresh(p, start, start + extend)
  {
  }

  lemma AscentNoDup(start: nat, extend: nat)
    ensures NoDup(Ascent(start, extend))
  {
  }

  /** `extend` blocks from `start` on. */
  function Ascent(start: nat, extend: nat): (r: seq<nat>)
    ensures |r| == extend && forall k | 0 <= k < extend :: r[k] == start + k
    ensures forall x :: x in r <==> start <= x < start + extend
  {
    if extend == 0 then [] else Ascent(start, extend - 1) + [start + extend - 1]
  }

  /** The randomized extender links the same blocks as the sequential one: two lists without duplicates. */
  lemma SameElements(xs: seq<nat>, ys: seq<nat>)
    requires NoDup(xs) && NoDup(ys) && forall x :: x in xs <==> x in ys
    ensures multiset(xs) == multiset(ys)
  {
    forall x ensures multiset(xs)[x] == multiset(ys)[x] {
      Once(xs, x);
      Once(ys, x);
    }
  }

  lemma {:induction false} Once(xs: seq<nat>, x: nat)
    requires NoDup(xs)
    ensures multiset(xs)[x] == if x in xs then 1 else 0
    decreases |xs|
  {
    if xs != [] {
      Once(xs[1..], x);
      assert xs == [xs[0]] + xs[1..];
      assert x in xs <==> x == xs[0] || x in xs[1..];
    }
  }

  lemma NoQuotient(x: nat, n: nat)
    requires n > 0 && x / n == 0
    ensures x < n
  {
  }

  lemma SliceCount(extend: nat, shift: nat)
    requires extend >= 1 && shift <= MAX_SHIFT && extend / Pow2(shift) != 0
    ensures 0 < Pow2(shift) <= MAX_SLICES && Pow2(shift) <= extend
  {
    Pow2Mono(shift, MAX_SHIFT);
    Quotient(extend, Pow2(shift));
  }

  lemma Quotient(x: nat, n: nat)
    requires n > 0 && x / n != 0
    ensures n <= x
  {
  }

  /** Without a shift the quotient is not zero. */
  lemma NotYet(extend: nat, shift: nat)
    requires extend >= 1 && extend / Pow2(shift) == 0
    ensures shift > 0
  {
  }

  /** New blocks, linked in some order before the free list, make a longer free list. */
  lemma Extended(links: seq<Link>, next: seq<Link>, free: Link, local: Link, thread: Link,
                 f: seq<nat>, l: seq<nat>, t: seq<nat>, capacity: nat, order: seq<nat>)
    requires ListsOk(links, free, local, thread, f, l, t, capacity) && |next| == |links|
    requires order != [] && NoDup(order) && capacity + |order| <= |next|
    requires forall x | x in order :: capacity <= x < capacity + |order|
    requires forall k {:trigger next[order[k]]} | 0 <= k < |order| ::
      order[k] < |next| && next[order[k]] == if k < |order| - 1 then Some(order[k + 1]) else free
    requires forall b | 0 <= b < |next| && b !in order :: next[b] == links[b]
    ensures ListsOk(next, Some(order[0]), local, thread, order + f, l, t, capacity + |order|)
  {
    NotNew(f, capacity, order);
    NotNew(l, capacity, order);
    NotNew(t, capacity, order);
    SpellsFrame(links, next, free, f);
    SpellsFrame(links, next, local, l);
    SpellsFrame(links, next, thread, t);
    forall k | 0 <= k < |order| ensures order[k] < |next| { assert order[k] in order; }
    assert next[order[|order| - 1]] == free;
    JoinedSpells(next, order, f);
    Merged(order, f, l, capacity + |order|);
    Merged(order, f, t, capacity + |order|);
    NewLinksIn(links, next, free, f, capacity, order);
  }

  /** Writing the last link completes the order. */
  lemma TailLinked(next: seq<Link>, order: seq<nat>, x: Link)
    requires Joined(next, order) && NoDup(order) && order != []
    ensures order[|order| - 1] < |next|
    ensures var next' := next[order[|order| - 1] := x];
      && (forall k {:trigger next'[order[k]]} | 0 <= k < |order| ::
            order[k] < |next'| && next'[order[k]] == if k < |order| - 1 then Some(order[k + 1]) else x)
      && (forall b | 0 <= b < |next| && b !in order :: next'[b] == next[b])
  {
  }

  lemma NotNew(list: seq<nat>, capacity: nat, order: seq<nat>)
    requires Within(list, capacity) && forall x | x in order :: capacity <= x
    ensures Apart(list, order) && Apart(order, list)
  {
  }

  lemma NewLinksIn(links: seq<Link>, next: seq<Link>, free: Link, f: seq<nat>, capacity: nat, order: seq<nat>)
    requires LinksIn(links) && |next| == |links| && Spells(links, free, f) && capacity + |order| <= |next|
    requires forall x | x in order :: capacity <= x < capacity + |order|
    requires forall k {:trigger next[order[k]]} | 0 <= k < |order| ::
      order[k] < |next| && next[order[k]] == if k < |order| - 1 then Some(order[k + 1]) else free
    requires forall b | 0 <= b < |next| && b !in order :: next[b] == links[b]
    ensures LinksIn(next)
  {
    HeadIn(links, free, f);
    forall x | x in next && x.Some? ensures x.value < |next| {
      var b :| 0 <= b < |next| && next[b] == x;
      if b in order {
        var k :| 0 <= k < |order| && order[k] == b;
        assert next[order[k]] == if k < |order| - 1 then Some(order[k + 1]) else free;
        if k < |order| - 1 { assert order[k + 1] in order; }
      } else {
        assert links[b] in links;
      }
    }
  }

  lemma Heads(next: seq<Link>, head: Link, list: seq<nat>)
    requires Spells(next, head, list)
    ensures head == None <==> list == []
  {
  }

  lemma HeadIn(next: seq<Link>, head: Link, list: seq<nat>)
    requires Spells(next, head, list)
    ensures head.Some? ==> list != [] && head.value == list[0] && head.value in list && head.value < |next|
  {
  }

  /** A block that is on no list can be linked before one. */
  lemma Pushable(next: seq<Link>, head: Link, list: seq<nat>, b: nat)
    requires Spells(next, head, list) && b < |next| && b !in list
    ensures Spells(next[b := head], Some(b), [b] + list)
  {
    SpellsFrame(next, next[b := head], head, list);
    assert ([b] + list)[1..] == list;
  }

  /** Writing the link of a block that is not on the list leaves it alone. */
  lemma Unlinked(next: seq<Link>, head: Link, list: seq<nat>, b: nat, x: Link)
    requires Spells(next, head, list) && b < |next| && b !in list
    ensures Spells(next[b := x], head, list)
  {
    SpellsFrame(next, next[b := x], head, list);
  }

  /** Linking the tail of one list to the head of another joins them. */
  lemma Appendable(next: seq<Link>, head: Link, list: seq<nat>, tail: nat, other: Link, rest: seq<nat>)
    requires Spells(next, head, list) && Spells(next, other, rest) && list != [] && tail == list[|list| - 1]
    requires NoDup(list) && Apart(list, rest)
    ensures tail < |next| && Spells(next[tail := other], head, list + rest)
  {
    SpellsJoined(next, head, list);
    var next' := next[tail := other];
    assert tail in list;
    SpellsFrame(next, next', other, rest);
    assert Joined(next', list);
    JoinedSpells(next', list, rest);
  }

  lemma Merged(xs: seq<nat>, ys: seq<nat>, zs: seq<nat>, capacity: nat)
    requires NoDup(xs) && NoDup(ys) && Apart(xs, ys) && Within(xs, capacity) && Within(ys, capacity)
    requires Apart(zs, xs) || Apart(xs, zs)
    requires Apart(zs, ys) || Apart(ys, zs)
    ensures NoDup(xs + ys) && Within(xs + ys, capacity) && Apart(zs, xs + ys) && Apart(xs + ys, zs)
  {
    var all := xs + ys;
    forall i, j | 0 <= i < j < |all| ensures all[i] != all[j] {
      if i < |xs| <= j { assert xs[i] in xs; assert ys[j - |xs|] in ys; }
    }
  }

  /** Together the lists have at most `capacity` blocks. */
  lemma Fits(f: seq<nat>, l: seq<nat>, t: seq<nat>, capacity: nat)
    requires NoDup(f) && NoDup(l) && NoDup(t) && Within(f, capacity) && Within(l, capacity) && Within(t, capacity)
    requires Apart(f, l) && Apart(f, t) && Apart(l, t)
    ensures |f| + |l| + |t| <= capacity
  {
    Merged(f, l, t, capacity);
    Merged(f + l, t, [], capacity);
    Pigeonhole(f + l + t, 0, capacity);
  }

  /** The count of the tail walk is the length of the list. */
  lemma CountIs(next: seq<Link>, head: Link, list: seq<nat>, max: nat, count: nat, tail: nat)
    requires Spells(next, head, list) && LinksIn(next) && head.Some? && head.value < |next| && |list| <= max
    requires 1 <= count <= max + 1 && (count > max <==> Walk(next, head, max).Some?)
    requires Walk(next, head, count - 1) == Some(tail)
    requires count <= max ==> tail < |next| && next[tail] == None
    ensures count == |list| && tail == list[|list| - 1]
  {
    WalkSpelled(next, head, list, max);
    WalkSpelled(next, head, list, count - 1);
    WalkSpelled(next, head, list, count);
    WalkStep(next, head, count - 1);
  }
}
