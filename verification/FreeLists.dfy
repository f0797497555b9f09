/**
 The free lists of a page at the level of links, as the owner of the page changes them in place.

 A block is its index in the page; `next` holds the link inside each block.  The ghost lists say
 what the heads and links spell out.
 */
module FreeLists {
  import opened Options
  import opened BitScan
  import FreeProtocol

  type Link = Option<nat>

  /** MI_MAX_SLICE_SHIFT */
  const MAX_SHIFT: nat := 6

  /** MI_MAX_SLICES */
  const MAX_SLICES: nat := 64

  // ---------------------------------------------------------------------------------------------
  // Linked lists
  // ---------------------------------------------------------------------------------------------

  /** The head and the links spell out exactly this list. */
  ghost predicate Spells(next: seq<Link>, head: Link, list: seq<nat>)
    decreases |list|
  {
    if list == [] then head == None
    else head == Some(list[0]) && list[0] < |next| && Spells(next, next[list[0]], list[1..])
  }

  function Elements(list: seq<nat>): set<nat> {
    set x | x in list
  }

  ghost predicate NoDup(list: seq<nat>) {
    forall i, j :: 0 <= i < j < |list| ==> list[i] != list[j]
  }

  ghost predicate Within(list: seq<nat>, n: nat) {
    forall x | x in list :: x < n
  }

  ghost predicate Apart(xs: seq<nat>, ys: seq<nat>) {
    forall x | x in xs :: x !in ys
  }

  /** The links go from each element to the following one. */
  ghost predicate Joined(next: seq<Link>, list: seq<nat>) {
    && (forall k | 0 <= k < |list| :: list[k] < |next|)
    && (forall k {:trigger next[list[k]]} | 0 <= k < |list| - 1 :: next[list[k]] == Some(list[k + 1]))
  }

  /** A list is spelled out if its links join it, its head is right, and its last link is NULL. */
  lemma {:induction false} JoinedSpells(next: seq<Link>, list: seq<nat>, tail: seq<nat>)
    requires list != [] && Joined(next, list) && Spells(next, next[list[|list| - 1]], tail)
    ensures Spells(next, Some(list[0]), list + tail)
    decreases |list|
  {
    if |list| == 1 {
      assert (list + tail)[1..] == tail;
    } else {
      var rest := list[1..];
      assert Joined(next, rest) by {
        forall k | 0 <= k < |rest| - 1 ensures next[rest[k]] == Some(rest[k + 1]) { assert rest[k] == list[k + 1]; }
      }
      JoinedSpells(next, rest, tail);
      assert (list + tail)[1..] == rest + tail;
    }
  }

  /** Writing links of other blocks leaves a list alone. */
  lemma {:induction false} SpellsFrame(next: seq<Link>, next': seq<Link>, head: Link, list: seq<nat>)
    requires Spells(next, head, list) && |next'| == |next|
    requires forall x | x in list && x < |next| :: next'[x] == next[x]
    ensures Spells(next', head, list)
    decreases |list|
  {
    if list != [] {
      assert list[0] in list;
      assert forall x | x in list[1..] :: x in list;
      SpellsFrame(next, next', next[list[0]], list[1..]);
    }
  }

  lemma {:induction false} SpellsJoined(next: seq<Link>, head: Link, list: seq<nat>)
    requires Spells(next, head, list)
    ensures Joined(next, list) && (list != [] ==> head == Some(list[0]) && next[list[|list| - 1]] == None)
    decreases |list|
  {
    if list != [] {
      SpellsJoined(next, next[list[0]], list[1..]);
      forall k | 0 <= k < |list| ensures list[k] < |next| { if k > 0 { assert list[k] == list[1..][k - 1]; } }
      forall k | 0 <= k < |list| - 1 ensures next[list[k]] == Some(list[k + 1]) {
        if k > 0 { assert list[k] == list[1..][k - 1] && list[k + 1] == list[1..][k]; }
      }
    }
  }

  /** A list without duplicates below `n` has at most `n` elements, and all of them if exactly `n`. */
  lemma Pigeonhole(list: seq<nat>, lo: nat, hi: nat)
    requires NoDup(list) && lo <= hi && forall x | x in list :: lo <= x < hi
    ensures |list| <= hi - lo
    ensures |list| == hi - lo ==> forall x :: x in list <==> lo <= x < hi
  {
    var xs := Elements(list);
    ElementsCount(list);
    RangeSize(lo, hi);
    assert xs <= Range(lo, hi);
    SubsetSize(xs, Range(lo, hi));
    if |list| == hi - lo {
      forall x ensures x in list <==> lo <= x < hi { assert x in xs <==> x in Range(lo, hi); }
    }
  }

  lemma {:induction false} ElementsCount(list: seq<nat>)
    requires NoDup(list)
    ensures |Elements(list)| == |list|
    decreases |list|
  {
    if list == [] {
      assert Elements(list) == {};
    } else {
      var rest := list[1..];
      ElementsCount(rest);
      assert Elements(list) == Elements(rest) + {list[0]};
    }
  }

  lemma SubsetSize(xs: set<nat>, ys: set<nat>)
    requires xs <= ys
    ensures |xs| <= |ys| && (|xs| == |ys| ==> xs == ys)
  {
    assert ys == xs + (ys - xs);
    assert |ys| == |xs| + |ys - xs|;
  }

  // ---------------------------------------------------------------------------------------------
  // The walk to the tail of a list that may be corrupted
  // ---------------------------------------------------------------------------------------------

  /** The block `k` links after the head, if the links lead so far. */
  function Walk(next: seq<Link>, head: Link, k: nat): Link
    requires forall x | x in next && x.Some? :: x.value < |next|
    requires head.Some? ==> head.value < |next|
    decreases k
  {
    if k == 0 || head == None then head else Walk(next, next[head.value], k - 1)
  }

  lemma {:induction false} WalkStep(next: seq<Link>, head: Link, k: nat)
    requires forall x | x in next && x.Some? :: x.value < |next|
    requires head.Some? ==> head.value < |next|
    ensures Walk(next, head, k).Some? ==> Walk(next, head, k).value < |next|
    ensures Walk(next, head, k + 1) == if Walk(next, head, k).Some? then next[Walk(next, head, k).value] else None
    decreases k
  {
    if k > 0 && head.Some? {
      WalkStep(next, next[head.value], k - 1);
    }
  }

  /** A spelled list is what the walk visits. */
  lemma {:induction false} WalkSpelled(next: seq<Link>, head: Link, list: seq<nat>, k: nat)
    requires forall x | x in next && x.Some? :: x.value < |next|
    requires head.Some? ==> head.value < |next|
    requires Spells(next, head, list)
    ensures Walk(next, head, k) == if k < |list| then Some(list[k]) else None
    decreases k
  {
    if k > 0 && list != [] {
      WalkSpelled(next, next[list[0]], list[1..], k - 1);
    }
  }

  /**
   The loop that finds the tail and the count of a list that is not empty.  It stops even if the
   links run in a circle; it counts beyond `max` exactly if more than `max` blocks are linked.
   */
  method FindTail(next: array<Link>, head: nat, max: nat) returns (count: nat, tail: nat)
    requires head < next.Length && forall x | x in next[..] && x.Some? :: x.value < next.Length
    ensures 1 <= count <= max + 1
    ensures count > max <==> Walk(next[..], Some(head), max).Some?
    ensures Walk(next[..], Some(head), count - 1) == Some(tail)
    ensures count <= max ==> tail < next.Length && next[tail] == None
  {
    ghost var links := next[..];
    count, tail := 1, head;
    while next[tail] != None && count <= max
      invariant 1 <= count <= max + 1 && tail < next.Length
      invariant Walk(links, Some(head), count - 1) == Some(tail)
      decreases max + 1 - count
    {
      WalkStep(links, Some(head), count - 1);
      assert next[tail] in links;
      count, tail := count + 1, next[tail].value;
    }
    WalkEnds(links, Some(head), count - 1, max);
  }

  /** The walk is over after its last block. */
  lemma {:induction false} WalkEnds(next: seq<Link>, head: Link, k: nat, n: nat)
    requires forall x | x in next && x.Some? :: x.value < |next|
    requires head.Some? ==> head.value < |next|
    requires Walk(next, head, k).Some?
    ensures n <= k ==> Walk(next, head, n).Some?
    ensures Walk(next, head, k).value < |next|
    ensures n > k && next[Walk(next, head, k).value] == None ==> Walk(next, head, n) == None
    decreases k
  {
    if k > 0 {
      if n > 0 { WalkEnds(next, next[head.value], k - 1, n - 1); } else { WalkEnds(next, next[head.value], k - 1, 0); }
    }
  }

  // ---------------------------------------------------------------------------------------------
  // The slices of the randomized extender
  // ---------------------------------------------------------------------------------------------

  function Sum(xs: seq<nat>): nat {
    if xs == [] then 0 else xs[0] + Sum(xs[1..])
  }

  lemma {:induction false} SumUpdate(xs: seq<nat>, i: nat, v: nat)
    requires i < |xs|
    ensures Sum(xs[i := v]) == Sum(xs) - xs[i] + v
    decreases |xs|
  {
    if i == 0 {
      assert xs[0 := v][1..] == xs[1..];
    } else {
      SumUpdate(xs[1..], i - 1, v);
      assert xs[i := v][1..] == xs[1..][i - 1 := v];
    }
  }

  lemma {:induction false} SumSame(xs: seq<nat>, v: nat)
    requires forall k | 0 <= k < |xs| :: xs[k] == v
    ensures Sum(xs) == |xs| * v
    decreases |xs|
  {
    if xs != [] {
      assert forall k | 0 <= k < |xs[1..]| :: xs[1..][k] == xs[k + 1];
      SumSame(xs[1..], v);
    }
  }

  /** Slice `k` is the blocks from `lo[k]` to `lo[k + 1]`. */
  ghost predicate Ascending(lo: seq<nat>) {
    forall j, k :: 0 <= j < k < |lo| ==> lo[j] <= lo[k]
  }

  /** How far a slice is used: its current block counts if it is the last one linked. */
  function Done(blocks: seq<nat>, current: nat, k: nat): nat
    requires k < |blocks|
  {
    blocks[k] + if k == current then 1 else 0
  }

  /** `order` are the blocks linked so far, `slice[j]` is the slice of `order[j]`. */
  ghost predicate Threading(lo: seq<nat>, blocks: seq<nat>, counts: seq<nat>, current: nat,
                            order: seq<nat>, slice: seq<nat>) {
    && |lo| == |blocks| + 1 && |counts| == |blocks| && current < |blocks| && Ascending(lo)
    && (forall k | 0 <= k < |blocks| :: lo[k] <= Done(blocks, current, k) && Done(blocks, current, k) + counts[k] == lo[k + 1])
    && |slice| == |order|
    && (forall j | 0 <= j < |order| :: slice[j] < |blocks| && lo[slice[j]] <= order[j] < Done(blocks, current, slice[j]))
    && NoDup(order)
    && order != [] && order[|order| - 1] == blocks[current]
    && Sum(counts) + |order| == lo[|lo| - 1] - lo[0]
  }

  /** One more block from slice `k` is linked. */
  lemma ThreadingStep(lo: seq<nat>, blocks: seq<nat>, counts: seq<nat>, current: nat, order: seq<nat>, slice: seq<nat>, k: nat)
    requires Threading(lo, blocks, counts, current, order, slice) && k < |blocks| && counts[k] > 0
    ensures var blocks' := blocks[current := blocks[current] + 1];
      && Threading(lo, blocks', counts[k := counts[k] - 1], k, order + [blocks'[k]], slice + [k])
      && lo[0] <= blocks'[k] < lo[|lo| - 1] && blocks'[k] !in order
  {
    var blocks' := blocks[current := blocks[current] + 1];
    var b := blocks'[k];
    assert b == Done(blocks, current, k);
    forall j | 0 <= j < |order| ensures order[j] != b {
      var s := slice[j];
      assert order[j] < Done(blocks, current, s) <= lo[s + 1];
      if s < k { assert lo[s + 1] <= lo[k]; }
      if k < s { assert lo[k + 1] <= lo[s]; }
    }
    forall i | 0 <= i < |blocks| ensures Done(blocks', k, i) == Done(blocks, current, i) + if i == k then 1 else 0 {}
    SumUpdate(counts, k, counts[k] - 1);
  }

  /** How many blocks of slice `k` are left when blocks of the slices `used` were linked. */
  function LeftOf(lo: seq<nat>, used: seq<nat>, k: nat): int
    requires k + 1 < |lo|
  {
    lo[k + 1] as int - lo[k] - multiset(used)[k]
  }

  /** The slice `d` places after `start`, round `count` slices. */
  function Round(start: nat, d: nat, count: nat): (k: nat)
    requires start < count && d < count
    ensures k < count
  {
    if start + d < count then start + d else start + d - count
  }

  /** From slice `start` on and round, `k` is the first one with blocks left. */
  ghost predicate FirstWithBlocks(lo: seq<nat>, used: seq<nat>, count: nat, start: nat, k: nat) {
    && |lo| == count + 1 && start < count && k < count && LeftOf(lo, used, k) > 0
    && exists n: nat :: n < count && Round(start, n, count) == k &&
         forall d: nat | d < n :: LeftOf(lo, used, Round(start, d, count)) == 0
  }

  /**
   The order that the random values decide: block `i` is the next one of the first slice with blocks left, from
   the slice that value `i` picks on.
   */
  ghost predicate Follows(lo: seq<nat>, order: seq<nat>, slice: seq<nat>, count: nat, picks: nat -> nat) {
    && |lo| == count + 1 && |slice| == |order| && count > 0
    && (forall i | 0 <= i < |order| :: slice[i] < count && order[i] == lo[slice[i]] + multiset(slice[..i])[slice[i]])
    && (forall i | 1 <= i < |order| :: FirstWithBlocks(lo, slice[..i], count, picks(i) % count, slice[i]))
  }

  /** The slices are used as far as their blocks were linked. */
  ghost predicate UsedUp(lo: seq<nat>, blocks: seq<nat>, current: nat, slice: seq<nat>) {
    |lo| == |blocks| + 1 && forall k | 0 <= k < |blocks| :: Done(blocks, current, k) == lo[k] + multiset(slice)[k]
  }

  lemma FollowsNext(lo: seq<nat>, blocks: seq<nat>, counts: seq<nat>, current: nat, order: seq<nat>, slice: seq<nat>,
                    picks: nat -> nat, n: nat, k: nat)
    requires Threading(lo, blocks, counts, current, order, slice) && UsedUp(lo, blocks, current, slice)
    requires Follows(lo, order, slice, |blocks|, picks) && k < |blocks| && counts[k] > 0
    requires n < |blocks| && Round(picks(|order|) % |blocks|, n, |blocks|) == k
    requires forall d: nat | d < n :: counts[Round(picks(|order|) % |blocks|, d, |blocks|)] == 0
    ensures var blocks' := blocks[current := blocks[current] + 1];
      && UsedUp(lo, blocks', k, slice + [k]) && Follows(lo, order + [blocks'[k]], slice + [k], |blocks|, picks)
  {
    hide Sum, NoDup, Ascending, LeftOf, Round, Follows, UsedUp;
    var start := picks(|order|) % |blocks|;
    LeftCounts(lo, blocks, counts, current, order, slice);
    assert FirstWithBlocks(lo, slice, |blocks|, start, k);
    UsedNext(lo, blocks, current, slice, k);
    FollowsMore(lo, order, slice, |blocks|, picks, blocks[current := blocks[current] + 1][k], k);
  }

  lemma LeftCounts(lo: seq<nat>, blocks: seq<nat>, counts: seq<nat>, current: nat, order: seq<nat>, slice: seq<nat>)
    requires Threading(lo, blocks, counts, current, order, slice) && UsedUp(lo, blocks, current, slice)
    ensures forall k | 0 <= k < |blocks| :: LeftOf(lo, slice, k) == counts[k]
  {
    hide Sum, NoDup, Ascending;
  }

  lemma UsedNext(lo: seq<nat>, blocks: seq<nat>, current: nat, slice: seq<nat>, k: nat)
    requires UsedUp(lo, blocks, current, slice) && current < |blocks| && k < |blocks|
    ensures var blocks' := blocks[current := blocks[current] + 1];
      blocks'[k] == lo[k] + multiset(slice)[k] && UsedUp(lo, blocks', k, slice + [k])
  {
    var blocks' := blocks[current := blocks[current] + 1];
    forall i | 0 <= i < |blocks| ensures Done(blocks', k, i) == Done(blocks, current, i) + if i == k then 1 else 0 { }
    assert multiset(slice + [k]) == multiset(slice) + multiset{k};
  }

  /** One more block keeps what is said of the ones before. */
  lemma FollowsMore(lo: seq<nat>, order: seq<nat>, slice: seq<nat>, count: nat, picks: nat -> nat, b: nat, k: nat)
    requires Follows(lo, order, slice, count, picks) && order != [] && k < count && b == lo[k] + multiset(slice)[k]
    requires FirstWithBlocks(lo, slice, count, picks(|order|) % count, k)
    ensures Follows(lo, order + [b], slice + [k], count, picks)
  {
    hide FirstWithBlocks;
    var order', slice' := order + [b], slice + [k];
    forall i | 0 <= i < |order'|
      ensures slice'[i] < count && order'[i] == lo[slice'[i]] + multiset(slice'[..i])[slice'[i]]
      ensures i >= 1 ==> FirstWithBlocks(lo, slice'[..i], count, picks(i) % count, slice'[i])
    {
      if i < |order| { assert slice'[..i] == slice[..i]; } else { assert slice'[..i] == slice; }
    }
  }

  lemma FollowsStart(lo: seq<nat>, blocks: seq<nat>, current: nat, picks: nat -> nat)
    requires |lo| == |blocks| + 1 && current < |blocks| && forall k | 0 <= k < |blocks| :: blocks[k] == lo[k]
    ensures UsedUp(lo, blocks, current, [current]) && Follows(lo, [blocks[current]], [current], |blocks|, picks)
  {
  }

  /** All blocks of the slices are linked once there are as many as the slices have. */
  lemma ThreadingCovers(lo: seq<nat>, blocks: seq<nat>, counts: seq<nat>, current: nat, order: seq<nat>, slice: seq<nat>)
    requires Threading(lo, blocks, counts, current, order, slice)
    ensures forall x | x in order :: lo[0] <= x < lo[|lo| - 1]
    ensures Sum(counts) == 0 ==> forall x :: x in order <==> lo[0] <= x < lo[|lo| - 1]
  {
    forall x | x in order ensures lo[0] <= x < lo[|lo| - 1] {
      var j :| 0 <= j < |order| && order[j] == x;
      var s := slice[j];
      assert lo[0] <= lo[s] && lo[s + 1] <= lo[|lo| - 1];
      assert Done(blocks, current, s) <= lo[s + 1];
    }
    Pigeonhole(order, lo[0], lo[|lo| - 1]);
  }

  /** While blocks are left, some slice has one. */
  lemma SomeLeft(counts: seq<nat>) returns (k: nat)
    requires Sum(counts) > 0
    ensures k < |counts| && counts[k] > 0
  {
    if forall j | 0 <= j < |counts| :: counts[j] == 0 { SumSame(counts, 0); }
    k :| 0 <= k < |counts| && counts[k] != 0;
  }

  /** Where slice `k` begins, when each has `size` blocks and the last one takes what is left. */
  function Bound(base: nat, extend: nat, count: nat, size: nat, k: nat): nat {
    if k == count then base + extend else base + k * size
  }

  function Bounds(base: nat, extend: nat, count: nat, size: nat): (lo: seq<nat>)
    ensures |lo| == count + 1
  {
    seq(count + 1, (k: nat) => Bound(base, extend, count, size, k))
  }

  /** `count` slices of `size` blocks, and `rest` more. */
  predicate Sliced(extend: nat, count: nat, size: nat, rest: nat) {
    extend == count * size + rest && size >= 1
  }

  lemma SliceSizes(base: nat, extend: nat, count: nat, size: nat, rest: nat, k: nat)
    requires k < count && extend == count * size + rest
    ensures Bound(base, extend, count, size, k) + size + (if k == count - 1 then rest else 0)
         == Bound(base, extend, count, size, k + 1)
  {
    assert (k + 1) * size == k * size + size;
  }

  lemma {:induction false} BoundsAscend(base: nat, extend: nat, count: nat, size: nat, rest: nat, j: nat, k: nat)
    requires j <= k <= count && extend == count * size + rest
    ensures Bound(base, extend, count, size, j) <= Bound(base, extend, count, size, k)
    decreases k
  {
    if j < k {
      SliceSizes(base, extend, count, size, rest, k - 1);
      BoundsAscend(base, extend, count, size, rest, j, k - 1);
    }
  }

  lemma SizesSum(counts: seq<nat>, size: nat, rest: nat, current: nat)
    requires current < |counts| && forall k | 0 <= k < |counts| :: counts[k] == size + if k == |counts| - 1 then rest else 0
    requires size >= 1
    ensures Sum(counts[current := counts[current] - 1]) + 1 == |counts| * size + rest
  {
    var count := |counts|;
    var same := seq(count, (k: nat) => size);
    SumSame(same, size);
    assert counts == same[count - 1 := counts[count - 1]];
    SumUpdate(same, count - 1, counts[count - 1]);
    SumUpdate(counts, current, counts[current] - 1);
  }

  /** Before the first link: each slice has its blocks, and the first one of slice `current` is taken. */
  lemma ThreadingStart(base: nat, extend: nat, size: nat, rest: nat, blocks: seq<nat>, counts: seq<nat>, current: nat)
    requires Sliced(extend, |blocks|, size, rest) && |counts| == |blocks| && current < |blocks|
    requires forall k | 0 <= k < |blocks| :: blocks[k] == Bound(base, extend, |blocks|, size, k)
    requires forall k | 0 <= k < |blocks| :: counts[k] == size + if k == |blocks| - 1 then rest else 0
    ensures counts[current] > 0
    ensures Threading(Bounds(base, extend, |blocks|, size), blocks, counts[current := counts[current] - 1], current,
                      [blocks[current]], [current])
  {
    hide Bound, Sum;
    var lo := Bounds(base, extend, |blocks|, size);
    forall j, k | 0 <= j < k < |lo| ensures lo[j] <= lo[k] { BoundsAscend(base, extend, |blocks|, size, rest, j, k); }
    forall k | 0 <= k < |blocks| ensures lo[k] + counts[k] == lo[k + 1] {
      SliceSizes(base, extend, |blocks|, size, rest, k);
    }
    SizesSum(counts, size, rest, current);
    BoundEnds(base, extend, |blocks|, size);
  }

  lemma BoundEnds(base: nat, extend: nat, count: nat, size: nat)
    requires count > 0
    ensures Bound(base, extend, count, size, 0) == base && Bound(base, extend, count, size, count) == base + extend
  {
  }

  lemma DivisionParts(extend: nat, count: nat)
    requires 0 < count <= extend
    ensures Sliced(extend, count, extend / count, extend % count)
  {
  }
}
