/**
 * The AOS message layout of include/aos/aos_msg_def.h: the size constants,
 * the header union and the raw and string message shapes.
 *
 * The header union's bit-fields (8 + 54 + 1 + 1 bits) fill one `uintptr_t`,
 * which is therefore a 64-bit word here; this is a different layout from the
 * 32-bit LMP header word of module AosLmp, and the two are not reconciled.
 * Bit-fields are assumed to be allocated from the least significant bit up
 * (an assumption of this model): `msgtype` in bits
 * 0-7, `length` in bits 8-61, `fragment` in bit 62 and `last` in bit 63.
 */
module AosMsgDef {
  /** `sizeof(uintptr_t)`: the header's bit-fields need a 64-bit word. */
  const WordBytes: nat := 8

  /** `AOS_MSG_HDR`. */
  const AosMsgHdr: nat := WordBytes

  /** `AOS_MSG_BODY`. */
  const AosMsgBody: nat := 512

  /** `AOS_MSG_MAX`. */
  const AosMsgMax: nat := AosMsgBody + AosMsgHdr

  /** `AOS_MSG_WORDS`. */
  const AosMsgWords: nat := AosMsgMax / WordBytes

  /** `AOS_MSGTYPE_MAX`: the enumeration lists 81 message types before it, from 0 up. */
  const AosMsgtypeMax: nat := 81

  const MsgtypeBits: nat := 8
  const LengthBits: nat := 54
  const FragmentBits: nat := 1
  const LastBits: nat := 1

  /**
   * `AOS_MSG_BLOCK`, which is `LMP_PAYLOAD`: the `LMP_MSG_LENGTH - 1`
   * payload words of an LMP message. `LMP_MSG_LENGTH` is defined outside
   * the modelled files, so it stays a parameter.
   */
  function AosMsgBlock(lmpMsgLength: nat): (block: nat)
    requires lmpMsgLength >= 1
    ensures block % WordBytes == 0 && block / WordBytes == lmpMsgLength - 1
  {
    (lmpMsgLength - 1) * WordBytes
  }

  /**
   * `AOS_MSG_MAX_STRING`: the body less one block reserved for a fixed
   * payload. The unsigned subtraction is only meaningful when a block fits
   * in the body.
   */
  function AosMsgMaxString(lmpMsgLength: nat): (n: nat)
    requires lmpMsgLength >= 1 && AosMsgBlock(lmpMsgLength) <= AosMsgBody
    ensures n + AosMsgBlock(lmpMsgLength) == AosMsgBody
    ensures n % WordBytes == 0
  {
    AosMsgBody - AosMsgBlock(lmpMsgLength)
  }

  /** The size of a C structure whose members take `bytes` bytes and whose alignment is one word. */
  function WordPaddedSize(bytes: nat): (size: nat)
    ensures bytes <= size < bytes + WordBytes && size % WordBytes == 0
  {
    (bytes + WordBytes - 1) / WordBytes * WordBytes
  }

  /** The header's fields fill exactly one `AOS_MSG_HDR` word. */
  lemma HeaderFillsWord()
    ensures MsgtypeBits + LengthBits + FragmentBits + LastBits == 64 == 8 * AosMsgHdr
  {
  }

  /** Every message type, `AOS_MSGTYPE_MAX` included, fits in the 8-bit `msgtype` field (even below 128). */
  lemma MsgTypeFitsField()
    ensures AosMsgtypeMax < 128 && AosMsgtypeMax < 256
  {
  }

  /** `AOS_MSG_MAX` is the body plus the header: 520 bytes, 65 words. */
  lemma MaxSize()
    ensures AosMsgMax == AosMsgBody + AosMsgHdr == 520
    ensures AosMsgWords == 65 && AosMsgWords * WordBytes == AosMsgMax
  {
  }

  /** A raw message, one header word and `AOS_MSG_WORDS - 1` body words, is `AOS_MSG_MAX` bytes. */
  lemma RawMessageSize()
    ensures WordPaddedSize(AosMsgHdr + (AosMsgWords - 1) * WordBytes) == AosMsgMax
  {
  }

  /**
   * A string message, a header and `AOS_MSG_MAX_STRING` characters padded to
   * the header's alignment, is `AOS_MSG_MAX - AOS_MSG_BLOCK` bytes: the
   * string leaves exactly one block of the body unused.
   */
  lemma StringMessageSize(lmpMsgLength: nat)
    requires lmpMsgLength >= 1 && AosMsgBlock(lmpMsgLength) <= AosMsgBody
    ensures WordPaddedSize(AosMsgHdr + AosMsgMaxString(lmpMsgLength))
            == AosMsgMax - AosMsgBlock(lmpMsgLength)
  {
    var n := AosMsgHdr + AosMsgMaxString(lmpMsgLength);
    assert n % WordBytes == 0;
    assert n == (n / WordBytes) * WordBytes;
    assert (n + WordBytes - 1) / WordBytes == n / WordBytes;
  }

  /** `union aos_msg_hdr`, one field per bit-field, each held in a 64-bit word. */
  datatype MsgHdr = MsgHdr(msgtype: bv64, length: bv64, fragment: bv64, last: bv64)

  /** Every field is within its bit width. */
  predicate FieldsFit(h: MsgHdr) {
    && h.msgtype < 1 << 8
    && h.length < 1 << 54
    && h.fragment < 2
    && h.last < 2
  }

  /** Writing the four fields and reading `raw`. */
  function EncodeHdr(h: MsgHdr): (raw: bv64)
    requires FieldsFit(h)
    ensures raw & 0xff == h.msgtype
    ensures (raw >> 8) & ((1 << 54) - 1) == h.length
    ensures (raw >> 62) & 1 == h.fragment && raw >> 63 == h.last
  {
    h.msgtype | (h.length << 8) | (h.fragment << 62) | (h.last << 63)
  }

  /** Writing `raw` and reading the four fields. */
  function DecodeHdr(raw: bv64): (h: MsgHdr)
    ensures FieldsFit(h)
  {
    MsgHdr(raw & 0xff, (raw >> 8) & ((1 << 54) - 1), (raw >> 62) & 1, raw >> 63)
  }

  /** Fields within their widths come back unchanged. */
  lemma DecodeEncode(h: MsgHdr)
    requires FieldsFit(h)
    ensures DecodeHdr(EncodeHdr(h)) == h
  {
  }

  /** Every raw word is the encoding of its own fields: no bit of the word is outside a field. */
  lemma EncodeDecode(raw: bv64)
    ensures EncodeHdr(DecodeHdr(raw)) == raw
  {
  }

  /** Every message type value, up to `AOS_MSGTYPE_MAX`, survives a trip through the header. */
  lemma MsgTypeRoundTrip(mtype: bv64, length: bv64, fragment: bv64, last: bv64)
    requires mtype <= AosMsgtypeMax as bv64
    requires length < 1 << 54 && fragment < 2 && last < 2
    ensures FieldsFit(MsgHdr(mtype, length, fragment, last))
    ensures DecodeHdr(EncodeHdr(MsgHdr(mtype, length, fragment, last))).msgtype == mtype
  {
    DecodeEncode(MsgHdr(mtype, length, fragment, last));
  }
}
