/**
 * The header word of an AOS message sent over LMP (include/aos/aos_lmp.h):
 * an 8-bit message type in bits 24-31 and a 24-bit length in bits 0-23 of
 * one 32-bit `uintptr_t`.
 */
module AosLmp {
  /** The mask of the length field, `0xffffff`. */
  const LengthMask: bv32 := 0xff_ffff

  /** `aos_chan_msg_set_type_and_length`: the word stored through `hdr`. */
  function SetTypeAndLength(mtype: bv32, len: bv32): (hdr: bv32)
    requires mtype < 256
    ensures hdr >> 24 == mtype
    ensures hdr & LengthMask == len & LengthMask
  {
    (mtype << 24) | (len & LengthMask)
  }

  /** `aos_chan_msg_extract_type`: the top eight bits, so always below 256. */
  function ExtractType(hdr: bv32): (mtype: bv32)
    ensures mtype < 256
  {
    hdr >> 24
  }

  /** `aos_chan_msg_extract_size`: the low 24 bits, so always below 2^24. */
  function ExtractSize(hdr: bv32): (len: bv32)
    ensures len < 0x100_0000
  {
    hdr & LengthMask
  }

  /** The type survives packing whatever the length, even one that does not fit. */
  lemma TypeRoundTrip(mtype: bv32, len: bv32)
    requires mtype < 256
    ensures ExtractType(SetTypeAndLength(mtype, len)) == mtype
  {
  }

  /** The length comes back truncated to 24 bits, and intact when it fits. */
  lemma SizeRoundTrip(mtype: bv32, len: bv32)
    requires mtype < 256
    ensures ExtractSize(SetTypeAndLength(mtype, len)) == len & LengthMask
    ensures len < 0x100_0000 ==> ExtractSize(SetTypeAndLength(mtype, len)) == len
  {
  }

  /** The type and length fields are disjoint and together cover the word. */
  lemma FieldsDisjoint(mtype: bv32, len: bv32)
    requires mtype < 256
    ensures (mtype << 24) & (len & LengthMask) == 0
    ensures (0xff << 24) | LengthMask == 0xffff_ffff
  {
  }

  /** Every 32-bit word is the packing of its own type and size. */
  lemma WordRoundTrip(hdr: bv32)
    ensures SetTypeAndLength(ExtractType(hdr), ExtractSize(hdr)) == hdr
  {
  }

  /** Two packings that agree are packings of the same type and (truncated) length. */
  lemma PackingInjective(t1: bv32, l1: bv32, t2: bv32, l2: bv32)
    requires t1 < 256 && t2 < 256
    requires SetTypeAndLength(t1, l1) == SetTypeAndLength(t2, l2)
    ensures t1 == t2 && l1 & LengthMask == l2 & LengthMask
  {
    TypeRoundTrip(t1, l1);
    TypeRoundTrip(t2, l2);
    SizeRoundTrip(t1, l1);
    SizeRoundTrip(t2, l2);
  }
}
