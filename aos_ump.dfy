/**
 * The user-level message channel of include/aos/aos_ump.h: a channel is one
 * cache line, 31 packet bytes followed by one flags byte whose top three
 * bits are the 'channel full', 'fragmented' and 'last fragment' flags and
 * whose low five bits are the length of the delivered message.
 */
module AosUmp {
  /** `URPC_BYTES`: the packet bytes of a channel. */
  const UrpcBytes: nat := 31

  /** `SPAWN_NAME_MAX`. */
  const SpawnNameMax: nat := UrpcBytes - 2

  /** The size of a channel (`struct urpc_channel`): the packet, then the flags byte. */
  const UrpcChannelSize: nat := UrpcBytes + 1

  const UrpcFFull: bv8 := 1 << 7
  const UrpcFFrag: bv8 := 1 << 6
  const UrpcFLast: bv8 := 1 << 5
  const UrpcLengthMask: bv8 := 0x1f

  /** `URPC_FULL(flags)`: the mask bit itself when bit 7 is set, zero otherwise. */
  function UrpcFull(flags: bv8): (f: bv8)
    ensures f == 0 || f == UrpcFFull
    ensures f != 0 <==> flags >= 0x80
  {
    flags & UrpcFFull
  }

  /** `URPC_FRAG(flags)`. */
  function UrpcFrag(flags: bv8): (f: bv8)
    ensures f == 0 || f == UrpcFFrag
  {
    flags & UrpcFFrag
  }

  /** `URPC_LAST(flags)`. */
  function UrpcLast(flags: bv8): (f: bv8)
    ensures f == 0 || f == UrpcFLast
  {
    flags & UrpcFLast
  }

  /** `URPC_LENGTH(flags)`: at most `URPC_BYTES`, because the field has five bits. */
  function UrpcLength(flags: bv8): (len: bv8)
    ensures len as nat <= UrpcBytes
    ensures len == flags % 32
  {
    flags & UrpcLengthMask
  }

  /** The flags are bits 7, 6 and 5, pairwise disjoint and disjoint from the length field. */
  lemma MasksDisjoint()
    ensures UrpcFFull == 0x80 && UrpcFFrag == 0x40 && UrpcFLast == 0x20
    ensures UrpcFFull & UrpcFFrag == 0 && UrpcFFull & UrpcFLast == 0 && UrpcFFrag & UrpcFLast == 0
    ensures (UrpcFFull | UrpcFFrag | UrpcFLast) & UrpcLengthMask == 0
    ensures UrpcFFull | UrpcFFrag | UrpcFLast | UrpcLengthMask == 0xff
  {
  }

  /** A flags byte is fully described by its three flags and its length. */
  lemma FlagsDecompose(flags: bv8)
    ensures flags == UrpcFull(flags) | UrpcFrag(flags) | UrpcLast(flags) | UrpcLength(flags)
  {
  }

  /** The flags of the single, last fragment of an `n`-byte message decode as built. */
  lemma LastFragmentFlags(n: bv8)
    requires n as nat <= UrpcBytes
    ensures var flags := UrpcFFull | UrpcFLast | n;
            UrpcLength(flags) == n && UrpcFull(flags) != 0 && UrpcLast(flags) != 0 && UrpcFrag(flags) == 0
  {
  }

  /** The name limit leaves two of the packet bytes spare: 29. */
  lemma SpawnNameFits()
    ensures SpawnNameMax == 29 && SpawnNameMax + 2 == UrpcBytes
  {
  }

  /** A channel: its packet and its flags byte. */
  datatype UrpcChannel = UrpcChannel(packet: seq<bv8>, flags: bv8)

  predicate WellSized(c: UrpcChannel) {
    |c.packet| == UrpcBytes
  }

  /** The bytes of a channel as laid out in memory: the packet, then the flags at offset 31. */
  function ChannelBytes(c: UrpcChannel): (bytes: seq<bv8>)
    requires WellSized(c)
    ensures |bytes| == UrpcChannelSize == 32
    ensures bytes[UrpcBytes] == c.flags
  {
    c.packet + [c.flags]
  }

  /** A channel read from one 32-byte cache line. */
  function ChannelOfBytes(bytes: seq<bv8>): (c: UrpcChannel)
    requires |bytes| == UrpcChannelSize
    ensures WellSized(c)
    ensures c.flags == bytes[UrpcBytes]
    ensures forall i :: 0 <= i < UrpcBytes ==> c.packet[i] == bytes[i]
  {
    UrpcChannel(bytes[..UrpcBytes], bytes[UrpcBytes])
  }

  lemma ChannelRoundTrip(c: UrpcChannel)
    requires WellSized(c)
    ensures ChannelOfBytes(ChannelBytes(c)) == c
  {
    assert ChannelBytes(c)[..UrpcBytes] == c.packet;
  }

  lemma CacheLineRoundTrip(bytes: seq<bv8>)
    requires |bytes| == UrpcChannelSize
    ensures ChannelBytes(ChannelOfBytes(bytes)) == bytes
  {
    assert bytes == bytes[..UrpcBytes] + [bytes[UrpcBytes]];
  }

  /** A channel, named by the memory it occupies. */
  datatype ChanRef = ChanRef(id: nat)

  /** `struct urpc_pair`: the channel this side sends on (`fore`) and the one it receives on (`back`). */
  datatype UrpcPair = UrpcPair(fore: ChanRef, back: ChanRef)

  /** The call a wrapper makes: `urpc_receive(chan, out, buflen)` or `urpc_send(chan, in, bytes)`. */
  datatype UrpcCall = UrpcReceive(chan: ChanRef, buflen: nat) | UrpcSend(chan: ChanRef, bytes: nat)

  /** What `urpc_wait` does: the receive it issues, and the byte count it returns. */
  datatype Waited = Waited(call: UrpcCall, size: nat)

  /**
   * `urpc_wait`: receives on `back` and returns what that receive returned
   * (`received`, the result of `urpc_receive`, whose body is not modelled).
   */
  function UrpcWait(pair: UrpcPair, buflen: nat, received: nat): (w: Waited)
    ensures w.call.UrpcReceive? && w.call.chan == pair.back && w.call.buflen == buflen
    ensures w.size == received
  {
    Waited(UrpcReceive(pair.back, buflen), received)
  }

  /** `urpc_reply`: sends on `fore`. */
  function UrpcReply(pair: UrpcPair, bytes: nat): (call: UrpcCall)
    ensures call.UrpcSend? && call.chan == pair.fore && call.bytes == bytes
  {
    UrpcSend(pair.fore, bytes)
  }

  /** The other end of a connection sees the same two channels the other way round. */
  function Peer(pair: UrpcPair): (peer: UrpcPair) {
    UrpcPair(pair.back, pair.fore)
  }

  /**
   * What one end replies, the other end waits for, in both directions; a
   * side never receives on the channel it replies on unless both are the same.
   */
  lemma ReplyReachesPeer(pair: UrpcPair, buflen: nat, received: nat, bytes: nat)
    ensures UrpcReply(pair, bytes).chan == UrpcWait(Peer(pair), buflen, received).call.chan
    ensures UrpcReply(Peer(pair), bytes).chan == UrpcWait(pair, buflen, received).call.chan
    ensures Peer(Peer(pair)) == pair
    ensures pair.fore != pair.back ==> UrpcReply(pair, bytes).chan != UrpcWait(pair, buflen, received).call.chan
  {
  }
}
