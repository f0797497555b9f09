/** Aligned allocation, and the way back from an aligned pointer to the start of its block. */
module AlignedAlloc {
  import opened Options
  import opened BitScan
  import opened SizeClasses

  type Address = nat

  /** MI_SEGMENT_SIZE and the sizes of small and medium pages */
  const SEGMENT: nat := 131072
  const SMALL_PAGE: nat := 8192
  const MEDIUM_PAGE: nat := 32768

  /** MI_SMALL_OBJ_SIZE_MAX, MI_MEDIUM_OBJ_SIZE_MAX, MI_LARGE_OBJ_SIZE_MAX */
  const SMALL_OBJ: nat := 2048
  const MEDIUM_OBJ: nat := 8192
  const LARGE_OBJ: nat := 65536

  /** MI_SMALL_SIZE_MAX */
  const SMALL_SIZE: nat := 1024

  /** MI_PADDING_SIZE of debug mode */
  const PADDING: nat := 8

  /** PTRDIFF_MAX */
  const MAX_SIZE: nat := 0x7FFF_FFFF_FFFF_FFFF

  datatype Kind = Small | Medium | Large | Huge

  /** `_mi_segment_page_alloc` */
  function KindOf(bsize: nat): Kind {
    if bsize <= SMALL_OBJ then Small else if bsize <= MEDIUM_OBJ then Medium else if bsize <= LARGE_OBJ then Large else Huge
  }

  /** Block `i` of page `idx` of a segment; `info` is the size of the segment info before page 0. */
  datatype Place = Place(seg: Address, info: nat, segSize: nat, idx: nat, bsize: nat, i: nat)

  function PageSize(pl: Place): nat {
    match KindOf(pl.bsize)
    case Small => SMALL_PAGE
    case Medium => MEDIUM_PAGE
    case Large => SEGMENT
    case Huge => pl.segSize
  }

  /** `mi_segment_raw_page_start` */
  function RawStart(pl: Place): Address {
    pl.seg + pl.idx * PageSize(pl) + if pl.idx == 0 then pl.info else 0
  }

  /** `_mi_segment_page_start`: the first page of small or medium objects starts at a multiple of the block size. */
  function PageStart(pl: Place): Address
    requires pl.bsize > 0
  {
    var raw := RawStart(pl);
    if pl.idx == 0 && (KindOf(pl.bsize) == Small || KindOf(pl.bsize) == Medium) then
      var adjust := pl.bsize - raw % pl.bsize;
      if adjust < pl.bsize then raw + adjust else raw
    else raw
  }

  function BlockStart(pl: Place): Address
    requires pl.bsize > 0
  {
    PageStart(pl) + pl.i * pl.bsize
  }

  /** `_mi_ptr_segment` */
  function SegmentOf(p: Address): Address { p - p % SEGMENT }

  /** `_mi_segment_page_idx_of`; a huge page has index 0. */
  function IndexOf(pl: Place, p: Address): int {
    (p - pl.seg) / (if KindOf(pl.bsize) == Small then SMALL_PAGE
                    else if KindOf(pl.bsize) == Medium then MEDIUM_PAGE else SEGMENT)
  }

  /** `_mi_page_ptr_unalign` */
  function Unalign(pl: Place, p: Address): int
    requires pl.bsize > 0
  {
    p - (p - PageStart(pl)) % pl.bsize
  }

  /** A block inside the page of a segment. */
  predicate PlaceOk(pl: Place) {
    && pl.seg > 0 && pl.seg % SEGMENT == 0
    && 0 < pl.info < SMALL_PAGE && pl.info % 16 == 0
    && pl.bsize > 0 && pl.bsize % WORD == 0
    && BlockStart(pl) + pl.bsize <= pl.seg + pl.idx * PageSize(pl) + PageSize(pl)
    && match KindOf(pl.bsize)
       case Small => pl.idx < 16
       case Medium => pl.idx < 4
       case Large => pl.idx == 0
       case Huge => pl.idx == 0 && pl.i == 0 && SEGMENT <= pl.segSize
  }

  /** The block is of the size class of the request, or of a huge page that holds it. */
  predicate Serves(pl: Place, n: nat) {
    PlaceOk(pl) && if n <= LARGE_OBJ then pl.bsize == GoodSize(n) else pl.bsize > LARGE_OBJ && n <= pl.bsize
  }

  // ---------------------------------------------------------------------------------------------
  // Multiples
  // ---------------------------------------------------------------------------------------------

  lemma MultipleOf(c: nat, d: nat)
    requires d > 0
    ensures (c * d) % d == 0
  {
    ModUnique(c * d, d, c);
  }

  lemma ModUnique(x: nat, d: nat, c: nat)
    requires d > 0 && x == c * d
    ensures x % d == 0 && x / d == c
  {
    var e := x / d - c;
    assert e * d == -(x % d);
    assert e < 0 ==> e * d + d <= 0;
    assert e > 0 ==> e * d >= d;
  }

  lemma MultipleSum(x: nat, y: nat, d: nat)
    requires d > 0 && x % d == 0 && y % d == 0
    ensures (x + y) % d == 0
  {
    assert x + y == (x / d + y / d) * d;
    MultipleOf(x / d + y / d, d);
  }

  lemma MultipleTimes(x: nat, k: nat, d: nat)
    requires d > 0 && x % d == 0
    ensures (k * x) % d == 0
  {
    assert k * x == k * (x / d) * d;
    MultipleOf(k * (x / d), d);
  }

  lemma MultipleTrans(x: nat, d: nat, e: nat)
    requires d > 0 && e > 0 && x % d == 0 && d % e == 0
    ensures x % e == 0
  {
    MultipleTimes(d, x / d, e);
  }

  /** The smaller of two powers of two divides the larger. */
  lemma PowersDivide(a: nat, b: nat)
    requires a <= b
    ensures Pow2(b) % Pow2(a) == 0
  {
    Pow2Sum(b - a, a);
    MultipleOf(Pow2(b - a), Pow2(a));
  }

  lemma {:induction false} Pow2Order(a: nat, b: nat)
    requires Pow2(a) <= Pow2(b)
    ensures a <= b
    decreases b
  {
    assert Pow2(b + 1) == 2 * Pow2(b);
    if a > b { Pow2Mono(b + 1, a); }
  }

  // ---------------------------------------------------------------------------------------------
  // Natural alignment
  // ---------------------------------------------------------------------------------------------

  /** A power of two of at least a word is a power of two of words. */
  lemma PowerWords(k: nat)
    requires Pow2(k) % WORD == 0
    ensures k >= 3 && Pow2(k) == WORD * Pow2(k - 3)
  {
    assert Pow2(0) == 1 && Pow2(1) == 2 && Pow2(2) == 4 && Pow2(3) == 8;
    if k >= 3 { Pow2Sum(3, k - 3); }
  }

  /** The size of the class of a multiple of a power of two is one as well, if the power is not larger. */
  lemma ClassMultiple(w: nat, j: nat)
    requires Pow2(j) <= w <= LARGE_WMAX && w % Pow2(j) == 0
    ensures Bin(w) <= BIN_FULL && BinWSize(Bin(w)) % Pow2(j) == 0
  {
    if w <= 8 {
      SmallClassMultiple(w, j);
    } else {
      hide Bin, BinWSize, Bsr32, Pow2;
      var p, t := BinParts(w);
      ClassPower(w, p, t, Bsr32(w - 1) - 2, j);
    }
  }

  lemma SmallClassMultiple(w: nat, j: nat)
    requires Pow2(j) <= w <= 8 && w % Pow2(j) == 0
    ensures BinWSize(Bin(w)) % Pow2(j) == 0
  {
    assert Pow2(0) == 1 && Pow2(1) == 2 && Pow2(2) == 4 && Pow2(3) == 8 && Pow2(4) == 16;
    if j >= 4 { Pow2Mono(4, j); }
  }

  /** Between two neighbours of the table, only the upper one is a multiple of a larger power. */
  lemma ClassPower(w: nat, p: nat, t: nat, c: nat, j: nat)
    requires p == Pow2(c) && t * p < w <= (t + 1) * p && w % Pow2(j) == 0
    ensures ((t + 1) * p) % Pow2(j) == 0
  {
    if j <= c {
      PowersDivide(j, c);
      MultipleTimes(p, t + 1, Pow2(j));
    } else {
      PowersDivide(c, j);
      MultipleTrans(w, Pow2(j), p);
      OnlyMultiple(w, p, t);
    }
  }

  lemma OnlyMultiple(w: nat, p: nat, t: nat)
    requires p > 0 && w % p == 0 && t * p < w <= (t + 1) * p
    ensures w == (t + 1) * p
  {
    var c := w / p;
    assert w == c * p;
    assert c <= t ==> c * p <= t * p;
    assert c >= t + 2 ==> c * p >= (t + 2) * p;
  }

  /** The start of the first page is a multiple of the block size. */
  lemma FirstPageAligned(pl: Place)
    requires PlaceOk(pl) && pl.idx == 0 && pl.bsize <= MEDIUM_OBJ
    ensures PageStart(pl) % pl.bsize == 0
  {
    var raw := RawStart(pl);
    var r := raw % pl.bsize;
    if pl.bsize - r < pl.bsize {
      assert raw + (pl.bsize - r) == (raw / pl.bsize + 1) * pl.bsize;
      MultipleOf(raw / pl.bsize + 1, pl.bsize);
    }
  }

  /** The start of every page is a multiple of any power of two that divides the block size and a small page. */
  lemma PageAligned(pl: Place, a: nat)
    requires PlaceOk(pl) && pl.bsize <= MEDIUM_OBJ && a > 0 && pl.bsize % a == 0 && SMALL_PAGE % a == 0
    ensures PageStart(pl) % a == 0
  {
    if pl.idx == 0 {
      FirstPageAligned(pl);
      MultipleTrans(PageStart(pl), pl.bsize, a);
    } else {
      MultipleTimes(SMALL_PAGE, 4, a);
      MultipleTimes(SMALL_PAGE, 16, a);
      MultipleTrans(pl.seg, SEGMENT, a);
      MultipleTimes(PageSize(pl), pl.idx, a);
      MultipleSum(pl.seg, pl.idx * PageSize(pl), a);
    }
  }

  /** The branch that does not over-allocate: a block of the class of the request is aligned. */
  lemma NaturallyAligned(pl: Place, n: nat, k: nat)
    requires Serves(pl, n) && Pow2(k) % WORD == 0
    requires Pow2(k) <= n <= MEDIUM_OBJ && n % Pow2(k) == 0
    ensures BlockStart(pl) % Pow2(k) == 0
  {
    hide PlaceOk, KindOf, PageStart, Pow2, GoodSize;
    var a := Pow2(k);
    ClassAligned(n, k);
    SmallPagePower(k);
    MediumClass(n);
    PlaceSize(pl);
    PageAligned(pl, a);
    MultipleTimes(pl.bsize, pl.i, a);
    MultipleSum(PageStart(pl), pl.i * pl.bsize, a);
  }

  lemma SmallPagePower(k: nat)
    requires Pow2(k) <= MEDIUM_OBJ
    ensures SMALL_PAGE % Pow2(k) == 0
  {
    assert Pow2(13) == SMALL_PAGE;
    Pow2Order(k, 13);
    PowersDivide(k, 13);
  }

  /** The good size of a multiple of a power of two is one as well. */
  lemma ClassAligned(n: nat, k: nat)
    requires Pow2(k) % WORD == 0 && Pow2(k) <= n <= LARGE_OBJ && n % Pow2(k) == 0
    ensures GoodSize(n) % Pow2(k) == 0
  {
    hide Pow2, GoodSize, Bin, BinWSize;
    PowerWords(k);
    MultipleTrans(n, Pow2(k), WORD);
    var w := n / WORD;
    WordsMultiple(n, w, Pow2(k - 3));
    ClassMultiple(w, k - 3);
    GoodSizeMultiple(n, w, Pow2(k - 3));
  }

  lemma WordsMultiple(n: nat, w: nat, u: nat)
    requires u > 0 && n == w * WORD && n % (WORD * u) == 0
    ensures w % u == 0 && WSize(n) == w && (WORD * u <= n ==> u <= w)
  {
    var c := n / (WORD * u);
    assert n == c * (WORD * u) == WORD * (c * u);
    MultipleOf(c, u);
  }

  lemma GoodSizeMultiple(n: nat, w: nat, u: nat)
    requires u > 0 && n <= LARGE_OBJ && WSize(n) == w && w <= LARGE_WMAX
    requires Bin(w) <= BIN_FULL && BinWSize(Bin(w)) % u == 0
    ensures GoodSize(n) % (WORD * u) == 0
  {
    hide Bin, BinWSize;
    var c := BinWSize(Bin(w)) / u;
    assert GoodSize(n) == c * u * WORD == c * (WORD * u);
    MultipleOf(c, WORD * u);
  }

  lemma MediumClass(n: nat)
    requires n <= MEDIUM_OBJ
    ensures GoodSize(n) <= MEDIUM_OBJ
  {
    hide Bin, BinWSize;
    assert BinWSize(36) == 1024 && Reachable(36) by { Entry36(); }
    BinFits(WSize(n));
    SmallestFit(WSize(n), 36);
    if Bin(WSize(n)) < 36 { TableGrows(Bin(WSize(n)), 36); }
  }

  lemma Entry36()
    ensures BinWSize(36) == 1024
  {
  }

  // ---------------------------------------------------------------------------------------------
  // From a pointer inside a block back to the block
  // ---------------------------------------------------------------------------------------------

  lemma OffsetMod(k: nat, d: nat, r: nat)
    requires d > 0 && r < d
    ensures (k * d + r) % d == r && (k * d + r) / d == k
  {
    var x := k * d + r;
    var e := x / d - k;
    assert e * d == r - x % d;
    assert e < 0 ==> e * d + d <= 0;
    assert e > 0 ==> e * d >= d;
  }

  /** A pointer into a block is mapped to the start of the block. */
  lemma UnalignInside(pl: Place, p: Address)
    requires pl.bsize > 0 && BlockStart(pl) <= p < BlockStart(pl) + pl.bsize
    ensures Unalign(pl, p) == BlockStart(pl)
  {
    hide PageStart;
    assert p - PageStart(pl) == pl.i * pl.bsize + (p - BlockStart(pl));
    OffsetMod(pl.i, pl.bsize, p - BlockStart(pl));
  }

  /** The kinds are those for which at least four blocks, or two, fit in a page. */
  lemma KindByBlocks(bsize: nat)
    ensures KindOf(bsize) == Small <==> 4 * bsize <= SMALL_PAGE
    ensures KindOf(bsize) == Medium <==> 4 * bsize <= MEDIUM_PAGE && 4 * bsize > SMALL_PAGE
    ensures KindOf(bsize) == Large <==> 2 * bsize <= SEGMENT && 4 * bsize > MEDIUM_PAGE
  {
  }

  /** The page starts right after the segment info, or at the first multiple of the block size after it. */
  lemma PageStartFirst(pl: Place, x: nat)
    requires PlaceOk(pl)
    ensures RawStart(pl) <= PageStart(pl) < RawStart(pl) + pl.bsize
    ensures pl.idx > 0 || pl.bsize > MEDIUM_OBJ ==> PageStart(pl) == RawStart(pl)
    ensures pl.idx == 0 && pl.bsize <= MEDIUM_OBJ && x % pl.bsize == 0 && RawStart(pl) <= x ==> PageStart(pl) <= x
  {
    if pl.idx == 0 && pl.bsize <= MEDIUM_OBJ && x % pl.bsize == 0 && RawStart(pl) <= x < PageStart(pl) {
      FirstPageAligned(pl);
      NoMultipleBetween(x, PageStart(pl), pl.bsize);
      assert false;
    }
  }

  lemma TimesMono(a: nat, b: nat, d: nat)
    requires a <= b
    ensures a * d <= b * d
  {
    assert b * d == a * d + (b - a) * d;
  }

  lemma NoMultipleBetween(x: nat, y: nat, d: nat)
    requires d > 0 && x % d == 0 && y % d == 0 && x < y
    ensures x + d <= y
  {
    var a, b := x / d, y / d;
    assert x == a * d && y == b * d;
    if b <= a {
      TimesMono(b, a, d);
      assert false;
    }
    TimesMono(a + 1, b, d);
  }

  lemma InPage(pl: Place, p: Address)
    requires PlaceOk(pl) && BlockStart(pl) <= p < BlockStart(pl) + pl.bsize
    ensures pl.seg + pl.idx * PageSize(pl) <= p < pl.seg + pl.idx * PageSize(pl) + PageSize(pl)
  {
    assert pl.i * pl.bsize >= 0;
  }

  /** A pointer into a block finds its segment and page, if it is less than a segment size from the start. */
  lemma FindsPage(pl: Place, p: Address)
    requires PlaceOk(pl) && BlockStart(pl) <= p < BlockStart(pl) + pl.bsize
    requires KindOf(pl.bsize) == Huge ==> p < pl.seg + SEGMENT
    ensures SegmentOf(p) == pl.seg && IndexOf(pl, p) == pl.idx
  {
    InPage(pl, p);
    hide PageStart, BlockStart;
    var psize := PageSize(pl);
    assert pl.idx * psize + psize <= SEGMENT || KindOf(pl.bsize) == Huge;
    OffsetMod(pl.seg / SEGMENT, SEGMENT, p - pl.seg);
    if KindOf(pl.bsize) == Small || KindOf(pl.bsize) == Medium {
      OffsetMod(pl.idx, psize, p - pl.seg - pl.idx * psize);
    }
  }

  // ---------------------------------------------------------------------------------------------
  // Over-allocating and aligning
  // ---------------------------------------------------------------------------------------------

  /** `_mi_is_power_of_two` */
  function IsPowerOfTwo(x: nat): bool {
    x == 1 || (x > 1 && x % 2 == 0 && IsPowerOfTwo(x / 2))
  }

  lemma {:induction false} PowerOf(x: nat) returns (k: nat)
    requires IsPowerOfTwo(x)
    ensures x == Pow2(k)
  {
    k := 0;
    if x > 1 {
      var j := PowerOf(x / 2);
      k := j + 1;
    }
  }

  /** `aligned_p` for a block that starts at `p`. */
  function AlignUp(p: Address, alignment: nat, offset: nat): Address
    requires alignment > 0
  {
    var adjust := alignment - (p + offset) % alignment;
    if adjust == alignment then p else p + adjust
  }

  lemma AlignUpOk(p: Address, alignment: nat, offset: nat)
    requires alignment > 0
    ensures (AlignUp(p, alignment, offset) + offset) % alignment == 0
    ensures p <= AlignUp(p, alignment, offset) < p + alignment
  {
    var x := p + offset;
    var r := x % alignment;
    if r > 0 {
      assert x + (alignment - r) == (x / alignment + 1) * alignment;
      MultipleOf(x / alignment + 1, alignment);
    }
  }

  /** How far `AlignUp` moves a pointer. */
  function Shift(p: Address, alignment: nat, offset: nat): nat
    requires alignment > 0
  {
    -((p + offset) as int) % alignment
  }

  lemma AlignUpShifts(p: Address, alignment: nat, offset: nat)
    requires alignment > 0
    ensures AlignUp(p, alignment, offset) == p + Shift(p, alignment, offset)
  {
    var x, d := p + offset, AlignUp(p, alignment, offset) - p;
    AlignUpOk(p, alignment, offset);
    NegativeMod(x, alignment, d);
  }

  lemma NegativeMod(x: int, a: nat, d: nat)
    requires a > 0 && d < a && (x + d) % a == 0
    ensures -x % a == d
  {
    var e := -x / a + (x + d) / a;
    assert e * a == (-x - -x % a) + (x + d);
    assert e < 0 ==> e * a + a <= 0;
    assert e > 0 ==> e * a >= a;
  }

  /** The adjusted pointer is less than a segment size from the start of the segment of a block that large. */
  predicate Near(pl: Place, alignment: nat, offset: nat)
    requires pl.bsize > 0 && alignment > 0
  {
    alignment < SEGMENT || Shift(BlockStart(pl), alignment, offset) < SEGMENT - pl.info
  }

  /** The adjustment of a word-aligned block by a word-aligned offset is a multiple of the word size. */
  lemma AdjustWordAligned(pl: Place, alignment: nat, offset: nat)
    requires PlaceOk(pl) && alignment > 0 && alignment % WORD == 0 && offset % WORD == 0
    ensures pl.bsize > 0 && Shift(BlockStart(pl), alignment, offset) % WORD == 0
    ensures AlignUp(BlockStart(pl), alignment, offset) % WORD == 0
  {
    hide PlaceOk, PageStart, BlockStart, AlignUp, Shift;
    PlaceSize(pl);
    AlignUpOk(BlockStart(pl), alignment, offset);
    var p := AlignUp(BlockStart(pl), alignment, offset);
    MultipleTrans(p + offset, alignment, WORD);
    WordDifference(p, offset);
    BlockWordAligned(pl);
    AlignUpShifts(BlockStart(pl), alignment, offset);
    WordDifference(Shift(BlockStart(pl), alignment, offset), BlockStart(pl));
  }

  lemma WordDifference(p: nat, offset: nat)
    requires (p + offset) % WORD == 0 && offset % WORD == 0
    ensures p % WORD == 0
  {
  }

  /** The start of a block of a huge page, aligned below the segment size, stays in the first segment size. */
  lemma HugeAligned(pl: Place, k: nat, offset: nat)
    requires PlaceOk(pl) && KindOf(pl.bsize) == Huge && Pow2(k) < SEGMENT
    ensures AlignUp(BlockStart(pl), Pow2(k), offset) < pl.seg + SEGMENT
  {
    HugeStart(pl);
    hide PlaceOk, BlockStart, PageStart, Pow2;
    AlignUpOk(BlockStart(pl), Pow2(k), offset);
    HalfSegment(k);
  }

  lemma HugeStart(pl: Place)
    requires PlaceOk(pl) && KindOf(pl.bsize) == Huge
    ensures BlockStart(pl) == pl.seg + pl.info && pl.info < SMALL_PAGE
  {
  }

  lemma SegmentPower()
    ensures Pow2(16) == SEGMENT / 2 && Pow2(17) == SEGMENT
  {
    assert Pow2(13) == 8192;
    assert Pow2(14) == 16384;
    assert Pow2(15) == 32768;
  }

  lemma HalfSegment(k: nat)
    requires Pow2(k) < SEGMENT
    ensures Pow2(k) <= SEGMENT / 2
  {
    SegmentPower();
    if k >= 17 { Pow2Mono(17, k); } else { Pow2Mono(k, 16); }
  }

  /** Exactly when an over-allocated pointer lies in the segment of its block, for every alignment and offset. */
  lemma SegmentFoundIff(pl: Place, k: nat, offset: nat, size: nat)
    requires Serves(pl, size + Pow2(k) - 1 + PADDING)
    ensures pl.bsize > 0
    ensures SegmentOf(AlignUp(BlockStart(pl), Pow2(k), offset)) == pl.seg
      <==> Pow2(k) < SEGMENT || -((BlockStart(pl) + offset) as int) % Pow2(k) < SEGMENT - pl.info
  {
    hide PlaceOk, BlockStart, Pow2, PageStart, PageSize, KindOf, IndexOf, GoodSize;
    PlaceSize(pl);
    var a := Pow2(k);
    var p := AlignUp(BlockStart(pl), a, offset);
    AlignUpOk(BlockStart(pl), a, offset);
    BlockHolds(pl, size + a - 1 + PADDING);
    if Near(pl, a, offset) {
      AlignedFreed(pl, k, offset, p);
    } else {
      LargeBlock(pl);
      HugeStart(pl);
      AlignUpShifts(BlockStart(pl), a, offset);
      FarAway(pl, p);
    }
  }

  /** For the alignment of a segment this is a condition on the offset alone. */
  lemma SegmentAlignedIff(pl: Place, offset: nat, size: nat)
    requires Serves(pl, size + SEGMENT - 1 + PADDING)
    ensures pl.bsize > 0
    ensures SegmentOf(AlignUp(BlockStart(pl), SEGMENT, offset)) == pl.seg
      <==> 0 < offset % SEGMENT <= SEGMENT - pl.info
  {
    hide PlaceOk, BlockStart, Pow2, PageStart, PageSize, KindOf, IndexOf, GoodSize, AlignUp, SegmentOf;
    SegmentPower();
    SegmentFoundIff(pl, 17, offset, size);
    BlockHolds(pl, size + SEGMENT - 1 + PADDING);
    LargeBlock(pl);
    HugeStart(pl);
    SegmentAligned(pl);
    var o := offset % SEGMENT;
    var d := if o == 0 then SEGMENT - pl.info
             else if o <= SEGMENT - pl.info then SEGMENT - pl.info - o else 2 * SEGMENT - pl.info - o;
    var c := if o == 0 || o <= SEGMENT - pl.info then 1 else 2;
    var q := pl.seg / SEGMENT + offset / SEGMENT + c;
    assert BlockStart(pl) + offset + d == q * SEGMENT;
    MultipleOf(q, SEGMENT);
    NegativeMod(BlockStart(pl) + offset, SEGMENT, d);
  }

  lemma SegmentAligned(pl: Place)
    requires PlaceOk(pl)
    ensures pl.seg % SEGMENT == 0 && 0 < pl.info < SEGMENT
  {
  }

  /** Blocks of at least the segment size are those of huge pages. */
  lemma LargeBlock(pl: Place)
    requires PlaceOk(pl) && SEGMENT <= pl.bsize
    ensures KindOf(pl.bsize) == Huge
  {
  }

  lemma FarAway(pl: Place, p: Address)
    requires PlaceOk(pl) && pl.seg + SEGMENT <= p
    ensures SegmentOf(p) != pl.seg
  {
    hide PageStart, BlockStart;
  }

  lemma BlockHolds(pl: Place, n: nat)
    requires Serves(pl, n)
    ensures n <= pl.bsize
  {
    hide PlaceOk, GoodSize;
    if n <= LARGE_OBJ { GoodSizeSound(n); }
  }

  /** No block starts at the start of its segment. */
  lemma AfterInfo(pl: Place)
    requires PlaceOk(pl)
    ensures pl.seg < BlockStart(pl)
  {
    assert pl.i * pl.bsize >= 0;
    assert pl.idx > 0 ==> pl.idx * PageSize(pl) >= PageSize(pl);
  }

  lemma BlockWordAligned(pl: Place)
    requires PlaceOk(pl)
    ensures BlockStart(pl) % WORD == 0
  {
    hide KindOf;
    StartWordAligned(pl);
    MultipleTimes(pl.bsize, pl.i, WORD);
    MultipleSum(PageStart(pl), pl.i * pl.bsize, WORD);
  }

  lemma StartWordAligned(pl: Place)
    requires PlaceOk(pl)
    ensures PageStart(pl) % WORD == 0
  {
    MultipleTrans(pl.seg, SEGMENT, WORD);
    if pl.idx == 0 && pl.bsize <= MEDIUM_OBJ {
      FirstPageAligned(pl);
      MultipleTrans(PageStart(pl), pl.bsize, WORD);
    } else {
      RawWordAligned(pl);
    }
  }

  lemma RawWordAligned(pl: Place)
    requires PlaceOk(pl)
    ensures RawStart(pl) % WORD == 0
  {
    hide PageStart, BlockStart;
    MultipleTrans(pl.seg, SEGMENT, WORD);
    if pl.idx == 0 {
      assert pl.idx * PageSize(pl) == 0;
      MultipleSum(pl.seg, pl.info, WORD);
    } else {
      MultipleTimes(PageSize(pl), pl.idx, WORD);
      MultipleSum(pl.seg, pl.idx * PageSize(pl), WORD);
    }
  }

  // ---------------------------------------------------------------------------------------------
  // The allocation
  // ---------------------------------------------------------------------------------------------

  /** The first free block of the small size is aligned already. */
  predicate AlignedSmall(size: nat, alignment: nat, offset: nat, small: Option<Place>) {
    && size + PADDING <= SMALL_SIZE && small.Some? && small.value.bsize > 0
    && alignment > 0 && (BlockStart(small.value) + offset) % alignment == 0
  }

  /** An ordinary block of the size is aligned in any case. */
  predicate Natural(size: nat, alignment: nat, offset: nat) {
    && offset == 0 && 0 < alignment <= size + PADDING <= MEDIUM_OBJ && (size + PADDING) % alignment == 0
  }

  datatype PageRef = PageRef(seg: Address, idx: int)

  /** Where the pages keep whether they hold blocks handed out at an aligned address. */
  class Pages {
    var hasAligned: set<PageRef>

    constructor ()
      ensures hasAligned == {}
    {
      hasAligned := {};
    }

    /** The block that `mi_free` frees for a pointer: found through the segment and page of the pointer. */
    function FreedBlock(pl: Place, p: Address): int
      requires pl.bsize > 0
      reads this
    {
      if PageRef(SegmentOf(p), IndexOf(pl, p)) in hasAligned then Unalign(pl, p) else p
    }

    /** `mi_usable_size`: what is left of the block from the pointer on, without the padding. */
    function UsableSize(pl: Place, p: Address): int
      requires pl.bsize > 0
      reads this
    {
      pl.bsize - PADDING - (p - FreedBlock(pl, p))
    }

    /**
     `mi_heap_malloc_zero_aligned_at`.  `small` is the first free block of the direct page for the
     padded size, `regular(n)` the block that an ordinary allocation of `n` bytes would return.
     */
    method MallocAlignedAt(size: nat, alignment: nat, offset: nat, small: Option<Place>, regular: nat -> Option<Place>)
      returns (r: Option<Address>, pl: Place)
      requires alignment % WORD == 0 && offset % WORD == 0
      requires small.Some? ==> Serves(small.value, size + PADDING)
      requires forall n: nat :: regular(n).Some? ==> Serves(regular(n).value, n + PADDING)
      modifies this
      ensures size > MAX_SIZE || !IsPowerOfTwo(alignment) ==> r == None
      ensures r == None <==>
        || size > MAX_SIZE || !IsPowerOfTwo(alignment)
        || (!AlignedSmall(size, alignment, offset, small) &&
             if Natural(size, alignment, offset) then regular(size) == None else regular(size + alignment - 1) == None)
      ensures r == None ==> hasAligned == old(hasAligned)
      ensures r.Some? ==> IsPowerOfTwo(alignment) && (r.value + offset) % alignment == 0
      ensures r.Some? ==>
        pl.bsize > 0 && PlaceOk(pl) && BlockStart(pl) <= r.value && r.value + size + PADDING <= BlockStart(pl) + pl.bsize
      ensures r.Some? ==> (SegmentOf(r.value) == pl.seg <==> Near(pl, alignment, offset))
      ensures r.Some? && SegmentOf(r.value) == pl.seg ==>
        && FreedBlock(pl, r.value) == BlockStart(pl) && size <= UsableSize(pl, r.value)
        && r.value + UsableSize(pl, r.value) + PADDING == BlockStart(pl) + pl.bsize
      ensures r.Some? && AlignedSmall(size, alignment, offset, small) ==>
        pl == small.value && r.value == BlockStart(pl) && hasAligned == old(hasAligned)
      ensures r.Some? && !AlignedSmall(size, alignment, offset, small) && Natural(size, alignment, offset) ==>
        regular(size) == Some(pl) && r.value == BlockStart(pl) && hasAligned == old(hasAligned)
      ensures r.Some? && !AlignedSmall(size, alignment, offset, small) && !Natural(size, alignment, offset) ==>
        && regular(size + alignment - 1) == Some(pl) && r.value < BlockStart(pl) + alignment
        && hasAligned == old(hasAligned) + if r.value != BlockStart(pl) then {PageRef(pl.seg, pl.idx)} else {}
    {
      hide PlaceOk, GoodSize, Pow2, IndexOf, SegmentOf, KindOf, Near, BlockStart, PageStart, AlignUp, Unalign;
      r, pl := None, Place(0, 0, 0, 0, 1, 0);
      if size > MAX_SIZE || alignment == 0 || !IsPowerOfTwo(alignment) { return; }
      ghost var k := PowerOf(alignment);
      var padsize := size + PADDING;
      if padsize <= SMALL_SIZE && small.Some? {
        PlaceSize(small.value);
        if (BlockStart(small.value) + offset) % alignment == 0 {
          pl := small.value;
          BlockHolds(pl, padsize);
          StartFreed(pl);
          StartFound(pl, k, offset);
          return Some(BlockStart(pl)), pl;
        }
      }
      if offset == 0 && alignment <= padsize && padsize <= MEDIUM_OBJ && padsize % alignment == 0 {
        var block := regular(size);
        if block.None? { return; }
        pl := block.value;
        NaturallyAligned(pl, padsize, k);
        PlaceSize(pl);
        BlockHolds(pl, padsize);
        StartFreed(pl);
        StartFound(pl, k, offset);
        return Some(BlockStart(pl)), pl;
      }
      var block := regular(size + alignment - 1);
      if block.None? { return; }
      pl := block.value;
      PlaceSize(pl);
      BlockHolds(pl, size + alignment - 1 + PADDING);
      var p := BlockStart(pl);
      var aligned := AlignUp(p, alignment, offset);
      AlignUpOk(p, alignment, offset);
      if aligned != p { hasAligned := hasAligned + {PageRef(pl.seg, pl.idx)}; }
      FoundIfNear(pl, k, offset, size);
      if Near(pl, alignment, offset) { AlignedFreed(pl, k, offset, aligned); StartFreed(pl); }
      r := Some(aligned);
    }
  }

  /**
   What is reported for a pointer into a block that finds its page ends with the block, before the padding,
   exactly if the page is marked or the pointer is the start of the block.
   */
  lemma UsableToEnd(pages: Pages, pl: Place, p: Address)
    requires PlaceOk(pl) && BlockStart(pl) <= p < BlockStart(pl) + pl.bsize
    requires KindOf(pl.bsize) == Huge ==> p < pl.seg + SEGMENT
    ensures p + pages.UsableSize(pl, p) + PADDING == BlockStart(pl) + pl.bsize
      <==> PageRef(pl.seg, pl.idx) in pages.hasAligned || p == BlockStart(pl)
  {
    hide PlaceOk, BlockStart, KindOf, PageStart, IndexOf, SegmentOf, Unalign;
    PlaceSize(pl);
    FindsPage(pl, p);
    UnalignInside(pl, p);
  }

  lemma PlaceSize(pl: Place)
    requires PlaceOk(pl)
    ensures pl.bsize > 0 && pl.seg <= BlockStart(pl)
  {
    AfterInfo(pl);
  }

  /** A block that was handed out at its start is freed at its start, whatever the flag says. */
  lemma StartFreed(pl: Place)
    requires PlaceOk(pl)
    ensures Unalign(pl, BlockStart(pl)) == BlockStart(pl)
  {
    UnalignInside(pl, BlockStart(pl));
  }

  /** The start of a block is found, and `Near`, if it is aligned already. */
  lemma StartFound(pl: Place, k: nat, offset: nat)
    requires PlaceOk(pl) && (BlockStart(pl) + offset) % Pow2(k) == 0
    ensures SegmentOf(BlockStart(pl)) == pl.seg && Near(pl, Pow2(k), offset)
  {
    hide PlaceOk, BlockStart, Pow2, PageStart, KindOf, IndexOf, SegmentOf;
    SegmentAligned(pl);
    PlaceSize(pl);
    NegativeMod(BlockStart(pl) + offset, Pow2(k), 0);
    AlignUpShifts(BlockStart(pl), Pow2(k), offset);
    AlignedFreed(pl, k, offset, BlockStart(pl));
  }

  lemma FoundIfNear(pl: Place, k: nat, offset: nat, size: nat)
    requires Serves(pl, size + Pow2(k) - 1 + PADDING)
    ensures pl.bsize > 0
    ensures SegmentOf(AlignUp(BlockStart(pl), Pow2(k), offset)) == pl.seg <==> Near(pl, Pow2(k), offset)
  {
    hide PlaceOk, BlockStart, Pow2, PageStart, KindOf, IndexOf, SegmentOf, AlignUp, GoodSize;
    PlaceSize(pl);
    SegmentFoundIff(pl, k, offset, size);
  }

  /** A pointer aligned in the first segment size finds the page, and is mapped back to the start of the block. */
  lemma AlignedFreed(pl: Place, k: nat, offset: nat, p: Address)
    requires PlaceOk(pl) && p == AlignUp(BlockStart(pl), Pow2(k), offset)
    requires Near(pl, Pow2(k), offset) && p < BlockStart(pl) + pl.bsize
    ensures pl.seg <= p && SegmentOf(p) == pl.seg && IndexOf(pl, p) == pl.idx && Unalign(pl, p) == BlockStart(pl)
  {
    hide IndexOf, SegmentOf, PageStart, Pow2;
    AlignUpOk(BlockStart(pl), Pow2(k), offset);
    AfterInfo(pl);
    if KindOf(pl.bsize) == Huge {
      HugeStart(pl);
      if Pow2(k) < SEGMENT { HugeAligned(pl, k, offset); } else { AlignUpShifts(BlockStart(pl), Pow2(k), offset); }
    }
    UnalignInside(pl, p);
    FindsPage(pl, p);
  }
}
