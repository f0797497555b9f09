/** Size classes: from the size of a request to the queue that serves it. */
module SizeClasses {
  import opened BitScan

  /** MI_INTPTR_SIZE */
  const WORD: nat := 8

  /** MI_LARGE_OBJ_WSIZE_MAX */
  const LARGE_WMAX: nat := 8192

  /** MI_BIN_HUGE and MI_BIN_FULL */
  const BIN_HUGE: nat := 73
  const BIN_FULL: nat := 74

  /** `_mi_wsize_from_size` */
  function WSize(size: nat): nat { (size + WORD - 1) / WORD }

  /** `mi_bsr32`: the position of the highest one bit. */
  function Bsr32(x: nat): nat
    requires x > 0
  {
    if x == 1 then 0 else 1 + Bsr32(x / 2)
  }

  /** `_mi_bin` for a size in words, with MI_ALIGN2W: the small sizes are rounded to two words. */
  function Bin(w: nat): nat {
    if w <= 1 then 1
    else if w <= 8 then (w + 1) / 2 * 2
    else if w > LARGE_WMAX then BIN_HUGE
    else
      var b := Bsr32(w - 1);
      if b < 2 then 0 else 4 * b + (w - 1) / Pow2(b - 2) % 4 - 3
  }

  /** `_mi_bin_size`, in words: the sizes of the queues of a heap. */
  function BinWSize(bin: nat): nat
    requires bin <= BIN_FULL
  {
    match bin
    case 0 => 1
    case 1 => 1 case 2 => 2 case 3 => 3 case 4 => 4 case 5 => 5 case 6 => 6 case 7 => 7 case 8 => 8
    case 9 => 10 case 10 => 12 case 11 => 14 case 12 => 16 case 13 => 20 case 14 => 24 case 15 => 28 case 16 => 32
    case 17 => 40 case 18 => 48 case 19 => 56 case 20 => 64 case 21 => 80 case 22 => 96 case 23 => 112 case 24 => 128
    case 25 => 160 case 26 => 192 case 27 => 224 case 28 => 256 case 29 => 320 case 30 => 384 case 31 => 448 case 32 => 512
    case 33 => 640 case 34 => 768 case 35 => 896 case 36 => 1024 case 37 => 1280 case 38 => 1536 case 39 => 1792 case 40 => 2048
    case 41 => 2560 case 42 => 3072 case 43 => 3584 case 44 => 4096
    case 45 => 5120 case 46 => 6144 case 47 => 7168 case 48 => 8192
    case 49 => 10240 case 50 => 12288 case 51 => 14336 case 52 => 16384
    case 53 => 20480 case 54 => 24576 case 55 => 28672 case 56 => 32768
    case 57 => 40960 case 58 => 49152 case 59 => 57344 case 60 => 65536
    case 61 => 81920 case 62 => 98304 case 63 => 114688 case 64 => 131072
    case 65 => 163840 case 66 => 196608 case 67 => 229376 case 68 => 262144
    case 69 => 327680 case 70 => 393216 case 71 => 458752 case 72 => 524288
    case 73 => LARGE_WMAX + 1
    case _ => LARGE_WMAX + 2
  }

  /** `mi_good_size` for sizes that are not huge. */
  function GoodSize(size: nat): nat
    requires size <= LARGE_WMAX * WORD
  {
    var bin := Bin(WSize(size));
    if bin <= BIN_FULL then BinWSize(bin) * WORD else 0
  }

  /** The bins that some size up to the large maximum has. */
  predicate Reachable(bin: nat) {
    bin == 1 || bin == 2 || bin == 4 || bin == 6 || 8 <= bin <= 48
  }

  // ---------------------------------------------------------------------------------------------
  // The top three bits
  // ---------------------------------------------------------------------------------------------

  lemma {:induction false} HighestBit(x: nat)
    requires x > 0
    ensures Pow2(Bsr32(x)) <= x < Pow2(Bsr32(x) + 1)
  {
    if x > 1 { HighestBit(x / 2); }
  }

  lemma BitRange(x: nat)
    requires 8 <= x < LARGE_WMAX
    ensures 3 <= Bsr32(x) <= 12
  {
    HighestBit(x);
    var b := Bsr32(x);
    assert Pow2(3) == 8 && Pow2(13) == 8192;
    if b < 3 { Pow2Mono(b + 1, 3); }
    if b > 12 { Pow2Mono(13, b); }
  }

  lemma Quarters(x: nat, p: nat)
    requires p > 0 && 4 * p <= x < 8 * p
    ensures 4 <= x / p < 8 && x / p * p <= x < (x / p + 1) * p
  {
  }

  lemma Pow2Quarter(b: nat)
    requires b >= 2
    ensures Pow2(b) == 4 * Pow2(b - 2) && Pow2(b + 1) == 8 * Pow2(b - 2)
  {
    assert Pow2(b - 1) == 2 * Pow2(b - 2);
  }

  /** The quotient by a quarter of the highest power of two is between 4 and 7. */
  lemma TopBits(x: nat) returns (p: nat, t: nat)
    requires 8 <= x < LARGE_WMAX
    ensures var b := Bsr32(x); 3 <= b <= 12 && p == Pow2(b - 2) && t == x / p
    ensures 4 <= t < 8 && t * p <= x < (t + 1) * p
  {
    hide Pow2, Bsr32;
    BitRange(x);
    HighestBit(x);
    Pow2Quarter(Bsr32(x));
    p := Pow2(Bsr32(x) - 2);
    t := x / p;
    Quarters(x, p);
  }

  /** The table follows the formula: four sizes between two powers of two. */
  lemma TableEntry(b: nat, t: nat)
    requires 3 <= b <= 12 && 4 <= t < 8
    ensures 9 <= 4 * b + t - 7 <= 48
    ensures BinWSize(4 * b + t - 7) == (t + 1) * Pow2(b - 2)
    ensures BinWSize(4 * b + t - 8) == t * Pow2(b - 2)
  {
    assert Pow2(1) == 2 && Pow2(2) == 4 && Pow2(3) == 8 && Pow2(4) == 16 && Pow2(5) == 32;
    assert Pow2(6) == 64 && Pow2(7) == 128 && Pow2(8) == 256 && Pow2(9) == 512 && Pow2(10) == 1024;
  }

  /** The sizes of the queues grow, from the first to the last that is reachable. */
  lemma TableGrows(i: nat, j: nat)
    requires 1 <= i < j <= 48
    ensures BinWSize(i) < BinWSize(j)
  {
    hide BinWSize;
    NextGrows(j - 1);
    if i < j - 1 { TableGrows(i, j - 1); }
  }

  lemma NextGrows(i: nat)
    requires 1 <= i < 48
    ensures BinWSize(i) < BinWSize(i + 1)
  {
  }

  // ---------------------------------------------------------------------------------------------
  // What the bins promise
  // ---------------------------------------------------------------------------------------------

  /** A size above 8 words lies between two neighbours of the table. */
  lemma BinParts(w: nat) returns (p: nat, t: nat)
    requires 8 < w <= LARGE_WMAX
    ensures 4 <= t < 8 && 9 <= Bin(w) <= 48 && t * p < w <= (t + 1) * p
    ensures Bsr32(w - 1) >= 3 && p == Pow2(Bsr32(w - 1) - 2) && p > 0 && t == (w - 1) / p
    ensures BinWSize(Bin(w)) == (t + 1) * p && BinWSize(Bin(w) - 1) == t * p
  {
    hide Pow2, Bsr32, BinWSize;
    p, t := TopBits(w - 1);
    TableEntry(Bsr32(w - 1), t);
    assert Bin(w) == 4 * Bsr32(w - 1) + t - 7;
  }

  lemma SmallFits(w: nat)
    requires w <= 8
    ensures Reachable(Bin(w)) && w <= BinWSize(Bin(w))
  {
  }

  /** The bin is reachable, its blocks fit, and the queue before it is too small. */
  lemma BinFits(w: nat)
    requires w <= LARGE_WMAX
    ensures Reachable(Bin(w)) && w <= BinWSize(Bin(w))
    ensures w > 8 ==> Bin(w) >= 9 && BinWSize(Bin(w) - 1) < w
  {
    hide Bin, BinWSize;
    if w > 8 { var p, t := BinParts(w); } else { SmallFits(w); }
  }

  /** The bin is the smallest reachable one whose blocks fit. */
  lemma SmallestFit(w: nat, bin: nat)
    requires w <= LARGE_WMAX && Reachable(bin) && w <= BinWSize(bin)
    ensures Bin(w) <= bin
  {
    if w > 8 {
      hide Bin, BinWSize;
      BinFits(w);
      if bin < Bin(w) - 1 { TableGrows(bin, Bin(w) - 1); }
    }
  }

  lemma HugeBin(w: nat)
    requires w > LARGE_WMAX
    ensures Bin(w) == BIN_HUGE
  {
  }

  /** A larger size never gets a smaller bin. */
  lemma BinMonotone(v: nat, w: nat)
    requires v <= w
    ensures Bin(v) <= Bin(w)
  {
    hide Bin, BinWSize;
    if w <= LARGE_WMAX {
      BinFits(w);
      SmallestFit(v, Bin(w));
    } else {
      HugeBin(w);
      if v <= LARGE_WMAX { BinFits(v); } else { HugeBin(v); }
    }
  }

  lemma LastEntry()
    ensures BinWSize(48) == LARGE_WMAX
  {
  }

  /** The size of a reachable bin has that bin. */
  lemma BinInverse(bin: nat)
    requires Reachable(bin)
    ensures BinWSize(bin) <= LARGE_WMAX && Bin(BinWSize(bin)) == bin
  {
    hide Bin, BinWSize;
    if bin < 48 { TableGrows(bin, 48); }
    assert BinWSize(48) == LARGE_WMAX by { LastEntry(); }
    var w := BinWSize(bin);
    BinFits(w);
    SmallestFit(w, bin);
    if Bin(w) < bin { TableGrows(Bin(w), bin); }
  }

  /** Every bin of a size up to the large maximum is reachable, and every reachable bin is one. */
  lemma ReachableIff(bin: nat)
    ensures Reachable(bin) <==> exists w: nat :: w <= LARGE_WMAX && Bin(w) == bin
    ensures Reachable(bin) <==> bin in {1, 2, 4, 6} || 8 <= bin <= 48
  {
    hide Bin, BinWSize;
    if Reachable(bin) { BinInverse(bin); }
    if w: nat :| w <= LARGE_WMAX && Bin(w) == bin { BinFits(w); }
  }

  /** Above 8 words the blocks are less than a quarter larger than the request. */
  lemma WasteBelowQuarter(w: nat)
    requires 8 < w <= LARGE_WMAX
    ensures Reachable(Bin(w)) && 4 * (BinWSize(Bin(w)) - w) < w
  {
    hide Bin, BinWSize, Pow2, Bsr32;
    var p, t := BinParts(w);
    assert 4 * p <= t * p;
    assert (t + 1) * p == t * p + p;
  }

  /**
   The waste is at most an eighth exactly if the request is far enough above the multiple of a quarter of
   the highest power of two before it; the fewer quarters, the farther.
   */
  lemma WasteEighthIff(w: nat)
    requires 8 < w <= LARGE_WMAX
    ensures Bsr32(w - 1) >= 3 && Pow2(Bsr32(w - 1) - 2) > 0 && Bin(w) <= BIN_FULL
    ensures
      var p := Pow2(Bsr32(w - 1) - 2);
      var t := (w - 1) / p;
      8 * (BinWSize(Bin(w)) - w) <= w <==> 9 * (w - t * p) >= (8 - t) * p
  {
    hide Bin, BinWSize, Pow2, Bsr32;
    var p, t := BinParts(w);
    assert (t + 1) * p == t * p + p;
    assert (8 - t) * p == 8 * p - t * p;
  }

  /** A quarter is the bound: some sizes waste more than an eighth, and more than 23 percent. */
  lemma WasteExceedsEighth()
    ensures 8 * (BinWSize(Bin(65)) - 65) > 65 && 100 * (BinWSize(Bin(65)) - 65) > 23 * 65
  {
    assert Bsr32(64) == 6;
    assert Pow2(4) == 16;
  }

  /** The good size is the largest size of the bin of the request, and holds the request. */
  lemma GoodSizeSound(size: nat)
    requires size <= LARGE_WMAX * WORD
    ensures size <= GoodSize(size) <= LARGE_WMAX * WORD && Bin(WSize(GoodSize(size))) == Bin(WSize(size))
    ensures forall n: nat | n <= LARGE_WMAX * WORD && Bin(WSize(n)) == Bin(WSize(size)) :: n <= GoodSize(size)
  {
    hide Bin, BinWSize;
    var w := WSize(size);
    BinFits(w);
    BinInverse(Bin(w));
    forall n: nat | n <= LARGE_WMAX * WORD && Bin(WSize(n)) == Bin(w) ensures n <= GoodSize(size) { BinFits(WSize(n)); }
    assert WSize(BinWSize(Bin(w)) * WORD) == BinWSize(Bin(w));
  }
}
