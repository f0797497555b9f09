/** Arenas: ids of arena memory, and the claim of block runs in the bitmap of an arena. */
module Arenas {
  import opened Options
  import opened BitScan

  /** MI_MEMID_OS */
  const MEMID_OS: nat := 0

  datatype Indices = Indices(arena: nat, bit: nat)

  /** `mi_arena_id_create` */
  function ArenaId(arena: nat, bit: nat): nat {
    bit * 256 + (arena + 1) % 256
  }

  /** `mi_arena_id_indices` */
  function ArenaIndices(id: nat): Indices
    requires id % 256 > 0
  {
    Indices(id % 256 - 1, id / 256)
  }

  /** The id of an arena block decodes to its indices, and is never the id of system memory. */
  lemma ArenaIdRoundTrip(arena: nat, bit: nat)
    requires arena < 0xFE
    ensures ArenaId(arena, bit) != MEMID_OS && ArenaId(arena, bit) % 256 > 0
    ensures ArenaIndices(ArenaId(arena, bit)) == Indices(arena, bit)
  {
  }

  /** Every id with a low byte is the id of one block. */
  lemma ArenaIdInverse(id: nat)
    requires id % 256 > 0
    ensures ArenaId(ArenaIndices(id).arena, ArenaIndices(id).bit) == id
  {
  }

  /** `_mi_divide_up` */
  function DivideUp(n: nat, d: nat): nat
    requires d > 0
  {
    (n + d - 1) / d
  }

  /** An arena of `blocks` blocks; the bits past its end are set for good. */
  class Arena {
    const blocks: nat
    const fields: array<Field>
    var searchIdx: nat

    ghost predicate Valid() reads fields, fields[..] {
      && fields.Length == DivideUp(blocks, BITS) && blocks > 0
      && (forall i, j | 0 <= i < j < fields.Length :: fields[i] != fields[j])
      && (forall i | 0 <= i < fields.Length :: fields[i].Valid())
      && Leftover(blocks) <= fields[fields.Length - 1].word
    }

    /** The words of the bitmap. */
    ghost function Words(): (r: seq<Word>) reads fields, fields[..]
      ensures |r| == fields.Length
    {
      seq(fields.Length, i requires 0 <= i < fields.Length reads fields, fields[..] => fields[i].word)
    }

    /** The bitmap is all zero but for the leftover bits of the last field, which are claimed. */
    constructor (blocks: nat)
      requires blocks > 0
      ensures Valid() && fresh(fields) && this.blocks == blocks
      ensures forall i | 0 <= i < fields.Length :: fresh(fields[i])
      ensures forall i | 0 <= i < fields.Length :: fields[i].word == if i == fields.Length - 1 then Leftover(blocks) else {}
    {
      var n := DivideUp(blocks, BITS);
      var one := new Field({});
      var all := new Field[n](_ => one);
      this.blocks := blocks;
      fields := all;
      searchIdx := 0;
      new;
      FieldCount(blocks);
      var i := 0;
      while i < n
        modifies fields
        invariant 0 <= i <= n
        invariant forall j | 0 <= j < i :: fresh(fields[j]) && fields[j].word == {} && fields[j].Valid()
        invariant forall j, k | 0 <= j < k < i :: fields[j] != fields[k]
      {
        var field := new Field({});
        fields[i] := field;
        i := i + 1;
      }
      var post := n * BITS - blocks;
      if post > 0 {
        var allZero, anyZero := fields[n - 1].Claim(post, BITS - post);
      }
    }

    /** The field that a search begins with. */
    function First(): nat
      reads this
    {
      if searchIdx >= fields.Length then 0 else searchIdx
    }

    /** The attempt on one field, while other threads claim and free. */
    method TryField(idx: nat, count: nat, others: seq<Other>) returns (r: Option<nat>)
      requires Valid() && 0 < count <= BITS && idx < fields.Length && Fair(blocks, idx, others)
      modifies fields[idx]
      ensures Valid()
      ensures Words() == old(Words())[idx := LeftBy(old(Words())[idx], count, others)]
      ensures match ScanField(old(Words())[idx], others, count)
        case NotFound(_) => r == None
        case Claimed(bit, _) => r == Some(bit) && bit + count <= BITS && idx * BITS + bit + count <= blocks
    {
      hide Free, Range, ScanFrom, Leftover, Seen;
      ghost var words := Words();
      assert fields[idx].word == words[idx];
      var scan := fields[idx].TryFindClaim(count, others);
      LeftoverStays(blocks, idx, words[idx], others, scan.k);
      assert Words() == words[idx := LeftBy(words[idx], count, others)];
      if scan.NotFound? { return None; }
      ClaimedWasFree(words[idx], others, count, 0, 0);
      InArena(blocks, Seen(words[idx], others, scan.k), idx, scan.bit, count);
      return Some(scan.bit);
    }

    /**
     `mi_arena_alloc`: from the last field searched on, round the bitmap.  `others(v)` is what other
     threads do to the field that is visited after `v` others, before each access to it.
     */
    method Alloc(count: nat, others: nat -> seq<Other>) returns (r: Option<nat>)
      requires Valid() && 0 < count <= BITS && AllFair(blocks, fields.Length, First(), others)
      modifies this, fields[..]
      ensures Valid() && |old(Words())| == fields.Length && old(First()) < fields.Length
      ensures match Search(old(Words()), count, old(First()), others, 0)
        case None => r == None && searchIdx == old(searchIdx)
        case Some(spot) =>
          && r == Some(spot.field * BITS + spot.bit) && r.value + count <= blocks && searchIdx == spot.field
          && r.value / BITS == spot.field && r.value % BITS == spot.bit
      ensures forall i | 0 <= i < fields.Length :: Words()[i] == WordAfter(old(Words()), count, old(First()), others, i)
    {
      hide Free, Leftover, Range, Seen, ScanFrom, LeftBy, ScanField, Progress, WordAfter, Fair, Turn, Before;
      ghost var words, n := Words(), fields.Length;
      FieldCount(blocks);
      var idx := searchIdx;
      var visited := 0;
      ghost var first := First();
      FirstTurn(first, n, words, count, others);
      while visited < fields.Length
        modifies this`searchIdx, fields[..]
        invariant 0 <= visited <= n && Valid() && searchIdx == old(searchIdx)
        invariant idx < n || idx == n || visited == 0
        invariant visited < n ==> (if idx >= n then 0 else idx) == Turn(first, visited, n)
        invariant Search(words, count, first, others, 0) == Search(words, count, first, others, visited)
        invariant Progress(words, Words(), count, first, others, visited)
      {
        if idx >= fields.Length { idx := 0; }
        NextTurn(first, visited, n);
        StillThere(words, Words(), count, first, others, visited);
        var bit := TryField(idx, count, others(visited));
        visited := visited + 1;
        if bit.Some? {
          searchIdx := idx;
          BitParts(idx, bit.value);
          AfterSearch(words, Words(), count, first, others, visited);
          return Some(idx * BITS + bit.value);
        }
        idx := idx + 1;
      }
      AfterSearch(words, Words(), count, first, others, visited);
      return None;
    }

    /** `_mi_arena_free` for a run of blocks of this arena; tells whether all of them were claimed. */
    method Release(bit: nat, count: nat) returns (ok: bool)
      requires Valid() && bit % BITS + count <= BITS && bit + count <= blocks && count > 0
      modifies fields[..]
      ensures Valid() && bit / BITS < fields.Length
      ensures ok <==> Range(bit % BITS, bit % BITS + count) <= old(Words())[bit / BITS]
      ensures Words() == old(Words())[bit / BITS := old(Words())[bit / BITS] - Range(bit % BITS, bit % BITS + count)]
    {
      ghost var words := Words();
      FieldCount(blocks);
      var idx := bit / BITS;
      assert fields[idx].word == words[idx];
      ok := fields[idx].Unclaim(count, bit % BITS);
      assert Words() == words[idx := words[idx] - Range(bit % BITS, bit % BITS + count)];
    }
  }

  /** The field searched after `visited` others, from `first` on and round. */
  function Turn(first: nat, visited: nat, n: nat): int {
    if first + visited < n then first + visited else first + visited - n
  }

  /** How many fields are searched before field `i`. */
  function Before(first: nat, i: nat, n: nat): int {
    if i >= first then i - first else i + n - first
  }

  /** `Turn` and `Before` are inverses. */
  lemma TurnBefore(first: nat, visited: nat, n: nat)
    requires first < n && visited < n
    ensures 0 <= Turn(first, visited, n) < n && Before(first, Turn(first, visited, n), n) == visited
    ensures forall i: nat | i < n :: 0 <= Before(first, i, n) < n && Turn(first, Before(first, i, n), n) == i
  {
  }

  lemma NextTurn(first: nat, visited: nat, n: nat)
    requires first < n && visited < n
    ensures 0 <= Turn(first, visited, n) < n
    ensures Turn(first, visited + 1, n) == if Turn(first, visited, n) + 1 < n then Turn(first, visited, n) + 1 else 0
  {
  }

  lemma BitParts(idx: nat, bit: nat)
    requires bit < BITS
    ensures (idx * BITS + bit) / BITS == idx && (idx * BITS + bit) % BITS == bit
  {
  }

  // ---------------------------------------------------------------------------------------------
  // The search among other threads
  // ---------------------------------------------------------------------------------------------

  /** Other threads leave words, and leave the bits past the end of the arena claimed. */
  ghost predicate Fair(blocks: nat, idx: nat, others: seq<Other>) {
    forall o | o in others :: IsWord(o.word) && (idx == DivideUp(blocks, BITS) - 1 ==> Leftover(blocks) <= o.word)
  }

  ghost predicate AllFair(blocks: nat, n: nat, first: nat, others: nat -> seq<Other>) {
    forall v: nat | v < n :: Fair(blocks, Turn(first, v, n), others(v))
  }

  /** The run that was claimed: its field, visited after `visited` others, and the access that claimed it. */
  datatype Spot = Spot(field: nat, bit: nat, visited: nat, k: nat)

  /** The search from the field after `visited` others on: the reference definition. */
  function Search(words: seq<Word>, count: nat, first: nat, others: nat -> seq<Other>, visited: nat): Option<Spot>
    requires first < |words|
    decreases |words| - (visited as int)
  {
    if visited >= |words| then None
    else
      var i := Turn(first, visited, |words|);
      match ScanField(words[i], others(visited), count)
      case Claimed(bit, k) => Some(Spot(i, bit, visited, k))
      case NotFound(_) => Search(words, count, first, others, visited + 1)
  }

  /** The word that a scan of a field leaves. */
  function LeftBy(start: Word, count: nat, others: seq<Other>): Word {
    match ScanField(start, others, count)
    case Claimed(bit, k) => Seen(start, others, k) + Range(bit, bit + count)
    case NotFound(k) => Seen(start, others, k)
  }

  /** The word of field `i` after the search. */
  function WordAfter(words: seq<Word>, count: nat, first: nat, others: nat -> seq<Other>, i: nat): Word
    requires first < |words| && i < |words|
  {
    var v := Before(first, i, |words|);
    var r := Search(words, count, first, others, 0);
    if r.Some? && r.value.visited < v then words[i] else LeftBy(words[i], count, others(v))
  }

  /** The words when the fields of the first `visited` turns have been tried. */
  ghost predicate Progress(words: seq<Word>, now: seq<Word>, count: nat, first: nat, others: nat -> seq<Other>, visited: nat) {
    && |words| == |now| && first < |words|
    && forall i | 0 <= i < |words| ::
         now[i] == if Before(first, i, |words|) < visited
                   then LeftBy(words[i], count, others(Before(first, i, |words|)))
                   else words[i]
  }

  lemma FirstTurn(first: nat, n: nat, words: seq<Word>, count: nat, others: nat -> seq<Other>)
    requires first < n == |words|
    ensures Turn(first, 0, n) == first && Progress(words, words, count, first, others, 0)
  {
    hide LeftBy;
    TurnBefore(first, 0, n);
  }

  /** The field whose turn it is has its first word; the attempt makes progress. */
  lemma StillThere(words: seq<Word>, now: seq<Word>, count: nat, first: nat, others: nat -> seq<Other>, visited: nat)
    requires Progress(words, now, count, first, others, visited) && visited < |words|
    ensures var i := Turn(first, visited, |words|);
      && 0 <= i < |words| && now[i] == words[i]
      && Progress(words, now[i := LeftBy(words[i], count, others(visited))], count, first, others, visited + 1)
  {
    hide LeftBy;
    TurnBefore(first, visited, |words|);
  }

  /** After the last attempt. */
  lemma AfterSearch(words: seq<Word>, now: seq<Word>, count: nat, first: nat, others: nat -> seq<Other>, visited: nat)
    requires Progress(words, now, count, first, others, visited)
    requires var r := Search(words, count, first, others, 0);
      if r.Some? then visited == r.value.visited + 1 else visited == |words|
    ensures forall i | 0 <= i < |words| :: now[i] == WordAfter(words, count, first, others, i)
  {
    hide LeftBy, Search;
    forall i | 0 <= i < |words| ensures 0 <= Before(first, i, |words|) < |words| { }
  }

  lemma LeftoverStays(blocks: nat, idx: nat, start: Word, others: seq<Other>, k: nat)
    requires Fair(blocks, idx, others) && (idx == DivideUp(blocks, BITS) - 1 ==> Leftover(blocks) <= start)
    ensures idx == DivideUp(blocks, BITS) - 1 ==> Leftover(blocks) <= Seen(start, others, k)
  {
  }

  /** Every run of `count` bits was taken in one of the words that a scan of the field has read. */
  ghost predicate SawAllTaken(start: Word, count: nat, others: seq<Other>) {
    forall b: nat :: SawTaken(start, count, others, b)
  }

  ghost predicate SawTaken(start: Word, count: nat, others: seq<Other>, b: nat) {
    exists j: nat :: j <= ScanField(start, others, count).k && !Free(Seen(start, others, j), count, b)
  }

  lemma ScanSaw(start: Word, count: nat, others: seq<Other>)
    requires ScanField(start, others, count).NotFound?
    ensures SawAllTaken(start, count, others)
  {
    hide Free, Seen, ScanFrom;
    forall b: nat ensures SawTaken(start, count, others, b) {
      NotFoundSawAllTaken(start, others, count, 0, 0, b);
    }
  }

  /**
   Whatever other threads do, the search claims a run that is free at its compare-and-swap, and has
   seen all runs of the fields before taken; if it fails, it has seen all runs of all fields taken.
   */
  lemma {:induction false} SearchRight(words: seq<Word>, count: nat, first: nat, others: nat -> seq<Other>, visited: nat)
    requires first < |words|
    ensures match Search(words, count, first, others, visited)
      case None => forall v: nat | visited <= v < |words| :: SawAllTaken(words[Turn(first, v, |words|)], count, others(v))
      case Some(spot) =>
        && visited <= spot.visited < |words| && spot.field == Turn(first, spot.visited, |words|)
        && Free(Seen(words[spot.field], others(spot.visited), spot.k), count, spot.bit)
        && forall v: nat | visited <= v < spot.visited :: SawAllTaken(words[Turn(first, v, |words|)], count, others(v))
    decreases |words| - (visited as int)
  {
    hide Free, Seen, ScanFrom, SawAllTaken;
    if visited < |words| {
      var i := Turn(first, visited, |words|);
      match ScanField(words[i], others(visited), count)
      case Claimed(bit, k) => ClaimedWasFree(words[i], others(visited), count, 0, 0);
      case NotFound(_) =>
        ScanSaw(words[i], count, others(visited));
        SearchRight(words, count, first, others, visited + 1);
    }
  }

  /** Undisturbed, the search fails exactly if no field has a free run, and claims the lowest of the first that has one. */
  lemma {:induction false} UndisturbedSearch(words: seq<Word>, count: nat, first: nat, others: nat -> seq<Other>, visited: nat)
    requires first < |words| && forall v :: others(v) == []
    ensures match Search(words, count, first, others, visited)
      case None => forall v, b: nat | visited <= v < |words| :: !Free(words[Turn(first, v, |words|)], count, b)
      case Some(spot) =>
        && visited <= spot.visited < |words| && spot.field == Turn(first, spot.visited, |words|)
        && Free(words[spot.field], count, spot.bit) && (forall b: nat | b < spot.bit :: !Free(words[spot.field], count, b))
        && forall v, b: nat | visited <= v < spot.visited :: !Free(words[Turn(first, v, |words|)], count, b)
    decreases |words| - (visited as int)
  {
    hide Free, ScanFrom, Range;
    if visited < |words| {
      var i := Turn(first, visited, |words|);
      UndisturbedIsFirstFit(words[i], count);
      if ScanField(words[i], [], count).NotFound? { UndisturbedSearch(words, count, first, others, visited + 1); }
    }
  }

  /** A free run is never past the end of the arena. */
  lemma InArena(blocks: nat, word: Word, idx: nat, bit: nat, count: nat)
    requires blocks > 0 && idx < DivideUp(blocks, BITS) && count > 0 && Free(word, count, bit)
    requires idx == DivideUp(blocks, BITS) - 1 ==> Leftover(blocks) <= word
    ensures idx * BITS + bit + count <= blocks
    ensures (idx * BITS + bit) / BITS == idx && (idx * BITS + bit) % BITS == bit
  {
    var m := blocks % BITS;
    if idx == DivideUp(blocks, BITS) - 1 && m > 0 && bit + count > m {
      PastEnd(blocks, bit, count);
      assert false;
    }
  }

  lemma PastEnd(blocks: nat, bit: nat, count: nat)
    requires blocks % BITS > 0 && bit + count > blocks % BITS && bit + count <= BITS && count > 0
    ensures !(Range(bit, bit + count) !! Leftover(blocks))
  {
    var b := if bit > blocks % BITS then bit else blocks % BITS;
    assert b in Leftover(blocks) && b in Range(bit, bit + count);
  }

  /** The bits of the last field that are past the end of the arena. */
  function Leftover(blocks: nat): Word {
    if blocks % BITS == 0 then {} else Range(blocks % BITS, BITS)
  }

  lemma FieldCount(blocks: nat)
    requires blocks > 0
    ensures var n := DivideUp(blocks, BITS);
      n > 0 && 0 <= n * BITS - blocks < BITS
      && Leftover(blocks) == Range(BITS - (n * BITS - blocks), BITS)
  {
  }
}
