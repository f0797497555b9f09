/**
 The word of a page that packs the head of its thread-free list with the delayed flag: block
 addresses are multiples of four, and the flag is in the two low bits.
 */
module ThreadFreeWord {
  import opened FreeProtocol

  function FlagBits(d: Delayed): nat {
    match d
    case UseDelayed => 0
    case Freeing => 1
    case NoDelayed => 2
    case Never => 3
  }

  /** `mi_tf_make` */
  function Pack(address: nat, d: Delayed): nat { address + FlagBits(d) }

  /** `mi_tf_block` */
  function PackedBlock(w: nat): nat { w - w % 4 }

  /** `mi_tf_delayed` */
  function PackedFlag(w: nat): Delayed {
    match w % 4
    case 0 => UseDelayed
    case 1 => Freeing
    case 2 => NoDelayed
    case _ => Never
  }

  /** `mi_tf_set_delayed` and `mi_tf_set_block` */
  function SetFlag(w: nat, d: Delayed): nat { Pack(PackedBlock(w), d) }
  function SetBlock(w: nat, address: nat): nat { Pack(address, PackedFlag(w)) }

  /** Comparing two packed words compares the heads and the flags, as the protocol does. */
  lemma PackInjective(a: nat, b: nat, d: Delayed, e: Delayed)
    requires a % 4 == 0 && b % 4 == 0
    ensures Pack(a, d) == Pack(b, e) <==> a == b && d == e
    ensures PackedBlock(Pack(a, d)) == a && PackedFlag(Pack(a, d)) == d
  {
  }

  /** Setting one half of the word keeps the other. */
  lemma SetKeepsOther(w: nat, address: nat, d: Delayed)
    requires address % 4 == 0
    ensures PackedBlock(SetFlag(w, d)) == PackedBlock(w) && PackedFlag(SetFlag(w, d)) == d
    ensures PackedBlock(SetBlock(w, address)) == address && PackedFlag(SetBlock(w, address)) == PackedFlag(w)
  {
  }
}
