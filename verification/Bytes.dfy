/** Fixed-width integers and the byte-order conversions of the little-endian host. */
module Bytes {

  type byte = x: int | 0 <= x < 0x100
  type word = x: int | 0 <= x < 0x1_0000
  type dword = x: int | 0 <= x < 0x1_0000_0000

  /** The 16-bit value a little-endian host reads from two consecutive bytes. */
  function LittleEndian(first: byte, second: byte): word {
    first + 0x100 * second
  }

  /** The 16-bit value two consecutive bytes stand for on the wire. */
  function BigEndian(first: byte, second: byte): word {
    0x100 * first + second
  }

  /** `ntohs` and `htons`: both exchange the two bytes of a host word. */
  function Swap(w: word): word {
    (w % 0x100) * 0x100 + w / 0x100
  }

  function LowByte(w: word): byte { w % 0x100 }

  function HighByte(w: word): byte { w / 0x100 }

  /** `ntohl`: exchange the halves and the bytes within each half. */
  function SwapLong(d: dword): dword {
    0x1_0000 * Swap(d % 0x1_0000) + Swap(d / 0x1_0000)
  }

  /** The 32-bit value a little-endian host reads from four consecutive bytes. */
  function LittleEndianLong(b0: byte, b1: byte, b2: byte, b3: byte): dword {
    LittleEndian(b0, b1) + 0x1_0000 * LittleEndian(b2, b3)
  }

  /** Converting a host load to host order yields exactly the value on the wire. */
  lemma SwapOfHostLoad(first: byte, second: byte)
    ensures Swap(LittleEndian(first, second)) == BigEndian(first, second)
    ensures LowByte(LittleEndian(first, second)) == first && HighByte(LittleEndian(first, second)) == second
  {
    assert (first + 0x100 * second) / 0x100 == second;
  }

  /** `ntohl` of a four-byte load is the big-endian value of the four bytes. */
  lemma SwapLongOfHostLoad(b0: byte, b1: byte, b2: byte, b3: byte)
    ensures SwapLong(LittleEndianLong(b0, b1, b2, b3)) == 0x1_0000 * BigEndian(b0, b1) + BigEndian(b2, b3)
  {
    var low: int, high: int := LittleEndian(b0, b1), LittleEndian(b2, b3);
    assert (low + 0x1_0000 * high) / 0x1_0000 == high;
    SwapOfHostLoad(b0, b1);
    SwapOfHostLoad(b2, b3);
  }

  /** Swapping twice changes nothing, so one routine converts in both directions. */
  lemma SwapInvolution(w: word)
    ensures Swap(Swap(w)) == w
  {
    SwapOfHostLoad(HighByte(w), LowByte(w));
  }

  /** A copy into a buffer at a position. */
  function WriteAt(buffer: seq<byte>, at: nat, data: seq<byte>): (out: seq<byte>)
    requires at + |data| <= |buffer|
    ensures |out| == |buffer|
    ensures forall i :: 0 <= i < |out| ==> out[i] == if at <= i < at + |data| then data[i - at] else buffer[i]
  {
    buffer[..at] + data + buffer[at + |data|..]
  }
}
