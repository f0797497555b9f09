/**
 Claiming runs of bits in one field of an atomic bitmap.

 A machine word of 64 bits is the set of positions of its one bits.  Other threads may change the
 field before each of our accesses: `others[k]` is what they leave in it before access `k`, and
 whether a weak compare-and-swap made then fails although it compares equal.
 */
module BitScan {
  import opened Options

  /** MI_BITMAP_FIELD_BITS */
  const BITS: nat := 64

  type Word = set<nat>

  predicate IsWord(w: Word) {
    forall b | b in w :: b < BITS
  }

  predicate Between(lo: nat, b: nat, hi: nat) {
    lo <= b < hi
  }

  /** The positions from lo to hi - 1. */
  function Range(lo: nat, hi: nat): (r: set<nat>)
    ensures forall b :: b in r <==> lo <= b < hi
  {
    set b | lo <= b < hi && Between(lo, b, hi)
  }

  lemma {:induction false} RangeSize(lo: nat, hi: nat)
    ensures |Range(lo, hi)| == if lo <= hi then hi - lo else 0
    decreases hi
  {
    if lo < hi {
      RangeSize(lo, hi - 1);
      assert Range(lo, hi) == Range(lo, hi - 1) + {hi - 1};
    } else {
      assert Range(lo, hi) == {};
    }
  }

  /** MI_BITMAP_FIELD_FULL */
  function Full(): (r: Word)
    ensures forall b :: b in r <==> 0 <= b < BITS
  {
    Range(0, BITS)
  }

  function Not(w: Word): Word { Full() - w }

  /** Shift left; the bits that leave the word are lost. */
  function Shl(w: Word, k: nat): (r: Word)
    ensures forall b :: b in r <==> k <= b < BITS && b - k in w
  {
    set b | b in Full() && b >= k && b - k in w
  }

  /** `mi_bitmap_mask_` */
  function Mask(count: nat, bit: nat): Word
    requires count + bit <= BITS
  {
    if count == BITS then Full() else Shl(Range(0, count), bit)
  }

  lemma MaskIsRange(count: nat, bit: nat)
    requires count + bit <= BITS
    ensures Mask(count, bit) == Range(bit, bit + count) && |Mask(count, bit)| == count
  {
    hide Range, Shl, Full;
    assert Mask(count, bit) == Range(bit, bit + count);
    RangeSize(bit, bit + count);
  }

  /** `mi_bsf`: the lowest one bit, or the number of bits. */
  function Bsf(w: Word): nat { LowestFrom(w, 0) }

  function LowestFrom(w: Word, from: nat): (r: nat)
    requires from <= BITS
    ensures from <= r <= BITS && (r < BITS ==> r in w) && forall b | from <= b < r :: b !in w
    decreases BITS - from
  {
    if from == BITS || from in w then from else LowestFrom(w, from + 1)
  }

  /** `mi_bsr`: the highest one bit, or the number of bits. */
  function Bsr(w: Word): nat { HighestBelow(w, BITS) }

  function HighestBelow(w: Word, below: nat): (r: nat)
    requires below <= BITS
    ensures r == BITS || r < below
    ensures r < BITS ==> r in w
    ensures forall b | b in w && b < below :: r < BITS && b <= r
    decreases below
  {
    if below == 0 then BITS else if below - 1 in w then below - 1 else HighestBelow(w, below - 1)
  }

  /** `count` zero bits from `bit` on. */
  predicate Free(bits: Word, count: nat, bit: nat) {
    bit + count <= BITS && Range(bit, bit + count) !! bits
  }

  /** First fit, one position at a time: the lowest run of `count` zero bits at `from` or above. */
  function FirstFit(bits: Word, count: nat, from: nat): (r: Option<nat>)
    ensures r.Some? ==> from <= r.value && Free(bits, count, r.value)
    ensures r.Some? ==> forall b | from <= b < r.value :: !Free(bits, count, b)
    ensures r.None? ==> forall b | from <= b :: !Free(bits, count, b)
    decreases BITS + 1 - from
  {
    if from + count > BITS then None
    else if Free(bits, count, from) then Some(from)
    else FirstFit(bits, count, from + 1)
  }

  /** First fit may start anywhere below the first run without changing its result. */
  lemma {:induction false} FirstFitSkips(bits: Word, count: nat, from: nat, to: nat)
    requires from <= to && forall b | from <= b < to :: !Free(bits, count, b)
    ensures FirstFit(bits, count, from) == FirstFit(bits, count, to)
    decreases (to as int) - (from as int)
  {
    if from < to {
      FirstFitSkips(bits, count, from + 1, to);
    }
  }

  // ---------------------------------------------------------------------------------------------
  // The scan in an environment of other threads
  // ---------------------------------------------------------------------------------------------

  datatype Other = Other(word: Word, fails: bool)

  /** The word at our access number `k`, when we have not written yet. */
  function Seen(start: Word, others: seq<Other>, k: nat): Word {
    if others == [] then start
    else if k < |others| then others[k].word
    else others[|others| - 1].word
  }

  predicate Fails(others: seq<Other>, k: nat) {
    k < |others| && others[k].fails
  }

  /** `k` is the number of the access that ended the scan. */
  datatype Scan = Claimed(bit: nat, k: nat) | NotFound(k: nat)

  /** The scan from position `from`, after access `k` has read the field: the reference definition. */
  function ScanFrom(start: Word, others: seq<Other>, count: nat, from: nat, k: nat): Scan
    decreases if k < |others| then |others| - k else 0
  {
    var bits := Seen(start, others, k);
    match FirstFit(bits, count, from)
    case None => NotFound(k)
    case Some(bit) =>
      if Seen(start, others, k + 1) == bits && !Fails(others, k + 1) then Claimed(bit, k + 1)
      else ScanFrom(start, others, count, bit, k + 2)
  }

  /** The whole scan. */
  function ScanField(start: Word, others: seq<Other>, count: nat): Scan {
    ScanFrom(start, others, count, 0, 0)
  }

  /** A field of the bitmap. */
  class Field {
    var word: Word

    ghost predicate Valid() reads this { IsWord(word) }

    constructor (w: Word)
      requires IsWord(w)
      ensures word == w && Valid()
    {
      word := w;
    }

    /** The other threads take their turn before our access number `k`. */
    method Yield(others: seq<Other>, k: nat)
      modifies this
      ensures word == if k < |others| then others[k].word else old(word)
    {
      if k < |others| { word := others[k].word; }
    }

    /**
     `mi_bitmap_try_find_claim_field`, which skips whole stretches with bit scans.  It does what the
     reference scan does, one position at a time.
     */
    method TryFindClaim(count: nat, others: seq<Other>) returns (r: Scan)
      requires 0 < count <= BITS && Valid() && forall o | o in others :: IsWord(o.word)
      modifies this
      ensures r == ScanField(old(word), others, count)
      ensures Valid()
      ensures r.Claimed? ==> r.bit + count <= BITS && word == Seen(old(word), others, r.k) + Range(r.bit, r.bit + count)
      ensures r.NotFound? ==> word == Seen(old(word), others, r.k)
    {
      hide Range, Shl, Full, Mask, Bsf, Bsr, Free, FirstFit, Seen, ScanFrom;
      ghost var start := word;
      var k := 0;
      Yield(others, k);
      SeenNext(start, others, k);
      var bits := word;
      if bits == Full() {
        FullHasNoRun(bits, count);
        GivesUp(start, others, count, 0, k);
        return NotFound(k);
      }
      var mask := Mask(count, 0);
      var max := BITS - count;
      var bit: nat := Bsf(Not(bits));
      var m := Shl(mask, bit);
      LowBitsTaken(bits, count, bit);
      SameScan(start, others, count, 0, bit, k);
      while bit <= max
        invariant bits == Seen(start, others, k) && word == bits && IsWord(bits)
        invariant m == Shl(mask, bit)
        invariant ScanField(start, others, count) == ScanFrom(start, others, count, bit, k)
        decreases if k < |others| then |others| - k else 0, BITS + count - bit
      {
        ShiftedMask(count, bit);
        if bits !! m {
          FreeFits(bits, count, bit);
          var newbits := bits + m;
          k := k + 1;
          Yield(others, k);
          SeenNext(start, others, k);
          if word == bits && !Fails(others, k) {
            Succeeds(start, others, count, bit, k - 1);
            word := newbits;
            return Claimed(bit, k);
          }
          Retries(start, others, count, bit, k - 1);
          k := k + 1;
          Yield(others, k);
          SeenNext(start, others, k);
          bits := word;
        } else {
          var shift := if count == 1 then 1 else Bsr(bits * m) - bit + 1;
          SkippedTaken(bits, count, bit, shift);
          FirstFitSkips(bits, count, bit, bit + shift);
          SameScan(start, others, count, bit, bit + shift, k);
          ShlTwice(mask, bit, shift);
          bit := bit + shift;
          m := Shl(m, shift);
        }
      }
      GivesUp(start, others, count, bit, k);
      return NotFound(k);
    }

    /** `mi_bitmap_claim`: set the bits; tell whether all were zero, and whether any was. */
    method Claim(count: nat, bit: nat) returns (allZero: bool, anyZero: bool)
      requires count + bit <= BITS && Valid()
      modifies this
      ensures word == old(word) + Range(bit, bit + count) && Valid()
      ensures allZero <==> Free(old(word), count, bit)
      ensures anyZero <==> !(Range(bit, bit + count) <= old(word))
    {
      MaskIsRange(count, bit);
      var mask := Mask(count, bit);
      DisjointIff(mask, word);
      allZero, anyZero := word * mask == {}, word * mask != mask;
      word := word + mask;
    }

    /** `mi_bitmap_unclaim`: clear the bits; tell whether all were one. */
    method Unclaim(count: nat, bit: nat) returns (allOne: bool)
      requires count + bit <= BITS && Valid()
      modifies this
      ensures word == old(word) - Range(bit, bit + count) && Valid()
      ensures allOne <==> Range(bit, bit + count) <= old(word)
    {
      MaskIsRange(count, bit);
      var mask := Mask(count, bit);
      allOne := word * mask == mask;
      word := word * Not(mask);
    }
  }

  /** From one access to the next the field changes only as the others leave it. */
  lemma SeenNext(start: Word, others: seq<Other>, k: nat)
    ensures k < |others| ==> Seen(start, others, k) == others[k].word && others[k] in others
    ensures k >= |others| ==> Seen(start, others, k) == if k == 0 then start else Seen(start, others, k - 1)
  {
  }

  lemma SameScan(start: Word, others: seq<Other>, count: nat, from: nat, to: nat, k: nat)
    requires FirstFit(Seen(start, others, k), count, from) == FirstFit(Seen(start, others, k), count, to)
    ensures ScanFrom(start, others, count, from, k) == ScanFrom(start, others, count, to, k)
  {
  }

  lemma GivesUp(start: Word, others: seq<Other>, count: nat, from: nat, k: nat)
    requires FirstFit(Seen(start, others, k), count, from) == None || from + count > BITS
    ensures ScanFrom(start, others, count, from, k) == NotFound(k)
  {
  }

  lemma FreeFits(bits: Word, count: nat, bit: nat)
    requires bit + count <= BITS && Range(bit, bit + count) !! bits
    ensures FirstFit(bits, count, bit) == Some(bit)
  {
  }

  lemma Succeeds(start: Word, others: seq<Other>, count: nat, bit: nat, k: nat)
    requires FirstFit(Seen(start, others, k), count, bit) == Some(bit)
    requires Seen(start, others, k + 1) == Seen(start, others, k) && !Fails(others, k + 1)
    ensures ScanFrom(start, others, count, bit, k) == Claimed(bit, k + 1)
  {
  }

  /** After a failed compare-and-swap the scan reads again and goes on at the same position. */
  lemma Retries(start: Word, others: seq<Other>, count: nat, bit: nat, k: nat)
    requires FirstFit(Seen(start, others, k), count, bit) == Some(bit)
    requires !(Seen(start, others, k + 1) == Seen(start, others, k) && !Fails(others, k + 1))
    ensures k + 1 < |others|
    ensures ScanFrom(start, others, count, bit, k) == ScanFrom(start, others, count, bit, k + 2)
  {
  }

  lemma FullHasNoRun(bits: Word, count: nat)
    requires bits == Full() && 0 < count <= BITS
    ensures FirstFit(bits, count, 0) == None
  {
    forall b: nat | b < BITS ensures !Free(bits, count, b) { NotFree(bits, count, b, b); }
  }

  /** A one bit inside the run makes it taken. */
  lemma NotFree(bits: Word, count: nat, bit: nat, b: nat)
    requires b in bits && bit <= b < bit + count
    ensures !Free(bits, count, bit)
  {
    assert b in Range(bit, bit + count);
  }

  /** Below the first zero bit nothing is free. */
  lemma LowBitsTaken(bits: Word, count: nat, bit: nat)
    requires IsWord(bits) && count > 0 && bit == Bsf(Not(bits))
    ensures FirstFit(bits, count, 0) == FirstFit(bits, count, bit)
  {
    forall b | 0 <= b < bit ensures !Free(bits, count, b) {
      assert b !in Not(bits);
      NotFree(bits, count, b, b);
    }
    FirstFitSkips(bits, count, 0, bit);
  }

  lemma ShiftedMask(count: nat, bit: nat)
    requires count + bit <= BITS
    ensures Shl(Mask(count, 0), bit) == Range(bit, bit + count)
  {
    MaskIsRange(count, 0);
  }

  lemma ShlTwice(w: Word, a: nat, b: nat)
    ensures Shl(Shl(w, a), b) == Shl(w, a + b)
  {
    hide Shl;
    assert Shl(Shl(w, a), b) == Shl(w, a + b);
  }

  lemma DisjointIff(a: Word, b: Word)
    ensures a !! b <==> a * b == {}
  {
    if a * b == {} {
      forall x | x in a ensures x !in b { assert x !in a * b; }
    }
  }

  /** No run is free that starts at or before the highest one bit under the mask. */
  lemma SkippedTaken(bits: Word, count: nat, bit: nat, shift: int)
    requires IsWord(bits) && 0 < count && bit + count <= BITS && !(bits !! Range(bit, bit + count))
    requires shift == if count == 1 then 1 else Bsr(bits * Range(bit, bit + count)) - bit + 1
    ensures 0 < shift <= count
    ensures forall b | bit <= b < bit + shift :: !Free(bits, count, b)
  {
    var under := bits * Range(bit, bit + count);
    var top := if count == 1 then bit else Bsr(under);
    assert under != {} by { DisjointIff(bits, Range(bit, bit + count)); }
    var one :| one in under;
    assert top in under;
    forall b | bit <= b < bit + shift ensures !Free(bits, count, b) { NotFree(bits, count, b, top); }
  }

  // ---------------------------------------------------------------------------------------------
  // What the scan promises
  // ---------------------------------------------------------------------------------------------

  /** Undisturbed, the scan claims the lowest free run, and fails only if there is none. */
  lemma UndisturbedIsFirstFit(start: Word, count: nat)
    ensures match ScanField(start, [], count)
      case Claimed(bit, _) => Free(start, count, bit) && forall b: nat | b < bit :: !Free(start, count, b)
      case NotFound(_) => forall b: nat :: !Free(start, count, b)
  {
    hide Free, FirstFit;
  }

  /** Disturbed in any way, the scan claims only bits that are zero at its compare-and-swap. */
  lemma {:induction false} ClaimedWasFree(start: Word, others: seq<Other>, count: nat, from: nat, k: nat)
    requires ScanFrom(start, others, count, from, k).Claimed?
    ensures var r := ScanFrom(start, others, count, from, k);
      k < r.k && from <= r.bit && Free(Seen(start, others, r.k), count, r.bit) && !Fails(others, r.k)
    decreases if k < |others| then |others| - k else 0
  {
    var bits := Seen(start, others, k);
    var bit := FirstFit(bits, count, from).value;
    if !(Seen(start, others, k + 1) == bits && !Fails(others, k + 1)) {
      ClaimedWasFree(start, others, count, bit, k + 2);
    }
  }

  /** A claimed run contributes exactly `count` new bits. */
  lemma ClaimFlipsCount(start: Word, others: seq<Other>, count: nat)
    requires ScanField(start, others, count).Claimed?
    ensures var r := ScanField(start, others, count);
      var before := Seen(start, others, r.k);
      |(before + Range(r.bit, r.bit + count)) - before| == count
  {
    hide Range;
    ClaimedWasFree(start, others, count, 0, 0);
    var r := ScanField(start, others, count);
    var before := Seen(start, others, r.k);
    RangeSize(r.bit, r.bit + count);
    assert (before + Range(r.bit, r.bit + count)) - before == Range(r.bit, r.bit + count);
  }

  /**
   The scan gives up only after it has seen every run taken: each position was not free in one of
   the words that it read.
   */
  lemma {:induction false} NotFoundSawAllTaken(start: Word, others: seq<Other>, count: nat, from: nat, k: nat, b: nat)
    requires ScanFrom(start, others, count, from, k).NotFound? && from <= b
    ensures exists j :: k <= j <= ScanFrom(start, others, count, from, k).k && !Free(Seen(start, others, j), count, b)
    decreases if k < |others| then |others| - k else 0
  {
    var bits := Seen(start, others, k);
    var fit := FirstFit(bits, count, from);
    if fit.None? || b < fit.value {
      assert !Free(Seen(start, others, k), count, b);
      NotFoundLater(start, others, count, from, k);
    } else {
      NotFoundSawAllTaken(start, others, count, fit.value, k + 2, b);
      var j :| k + 2 <= j <= ScanFrom(start, others, count, fit.value, k + 2).k && !Free(Seen(start, others, j), count, b);
    }
  }

  lemma {:induction false} NotFoundLater(start: Word, others: seq<Other>, count: nat, from: nat, k: nat)
    ensures k <= ScanFrom(start, others, count, from, k).k
    decreases if k < |others| then |others| - k else 0
  {
    var bits := Seen(start, others, k);
    var fit := FirstFit(bits, count, from);
    if fit.Some? && !(Seen(start, others, k + 1) == bits && !Fails(others, k + 1)) {
      NotFoundLater(start, others, count, fit.value, k + 2);
    }
  }

  /** The number of accesses is bounded by the number of times that others interfere. */
  lemma {:induction false} ScanEnds(start: Word, others: seq<Other>, count: nat, from: nat, k: nat)
    ensures ScanFrom(start, others, count, from, k).k <= (if k < |others| then |others| else k) + 2
    decreases if k < |others| then |others| - k else 0
  {
    var bits := Seen(start, others, k);
    var fit := FirstFit(bits, count, from);
    if fit.Some? && !(Seen(start, others, k + 1) == bits && !Fails(others, k + 1)) {
      ScanEnds(start, others, count, fit.value, k + 2);
    }
  }

  /** Unclaiming undoes a claim exactly if the claimed bits were all zero. */
  lemma UnclaimUndoesClaim(w: Word, count: nat, bit: nat)
    requires count + bit <= BITS
    ensures (w + Range(bit, bit + count)) - Range(bit, bit + count) == w <==> Free(w, count, bit)
  {
    var run := Range(bit, bit + count);
    if Free(w, count, bit) {
      assert (w + run) - run == w;
    } else {
      DisjointIff(run, w);
      var b :| b in run * w;
      assert b !in (w + run) - run;
    }
  }

  // ---------------------------------------------------------------------------------------------
  // Words as numbers
  // ---------------------------------------------------------------------------------------------

  function Pow2(n: nat): (r: nat)
    ensures r >= 1
  {
    if n == 0 then 1 else 2 * Pow2(n - 1)
  }

  lemma {:induction false} Pow2Mono(a: nat, b: nat)
    requires a <= b
    ensures Pow2(a) <= Pow2(b)
    decreases b
  {
    if a < b { Pow2Mono(a, b - 1); }
  }

  /** The number that the lowest `n` bits of a word stand for. */
  function Value(w: Word, n: nat): nat {
    if n == 0 then 0 else Value(w, n - 1) + if n - 1 in w then Pow2(n - 1) else 0
  }

  lemma {:induction false} ValueFits(w: Word, n: nat)
    ensures Value(w, n) < Pow2(n)
  {
    if n > 0 { ValueFits(w, n - 1); }
  }

  /** Comparing two words as numbers compares all their bits. */
  lemma {:induction false} ValueInjective(v: Word, w: Word, n: nat)
    ensures Value(v, n) == Value(w, n) <==> forall b: nat | b < n :: b in v <==> b in w
  {
    if n > 0 {
      ValueInjective(v, w, n - 1);
      ValueFits(v, n - 1);
      ValueFits(w, n - 1);
    }
  }

  lemma {:induction false} RangeValue(lo: nat, hi: nat, n: nat)
    requires lo <= hi
    ensures Value(Range(lo, hi), n) == if n <= lo then 0 else if n <= hi then Pow2(n) - Pow2(lo) else Pow2(hi) - Pow2(lo)
  {
    if n > 0 { RangeValue(lo, hi, n - 1); }
  }

  lemma {:induction false} Pow2Sum(a: nat, b: nat)
    ensures Pow2(a + b) == Pow2(a) * Pow2(b)
  {
    if a > 0 {
      Pow2Sum(a - 1, b);
      assert Pow2(a + b) == 2 * Pow2(a - 1 + b);
    }
  }

  /** The mask is the number ((1 << count) - 1) << bit in all words that are wide enough for it. */
  lemma MaskValue(count: nat, bit: nat, n: nat)
    requires count + bit <= BITS && count + bit <= n
    ensures Value(Mask(count, bit), n) == (Pow2(count) - 1) * Pow2(bit) < Pow2(n)
  {
    hide Pow2, Value, Mask, Range;
    MaskIsRange(count, bit);
    RangeValue(bit, bit + count, n);
    Pow2Sum(count, bit);
    LessOne(Pow2(count), Pow2(bit));
    ValueFits(Range(bit, bit + count), n);
  }

  lemma LessOne(a: int, b: int)
    ensures (a - 1) * b == a * b - b
  {
  }
}
