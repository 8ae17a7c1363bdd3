/** Gathering a packet's buffer chain into one buffer, and the receive path that builds and rotates such a chain. */
module Gather {
  import opened Bytes

  /** The bytes of a packet: its buffers one after the other. */
  ghost function Flatten(chain: seq<seq<byte>>): seq<byte> {
    if chain == [] then [] else chain[0] + Flatten(chain[1..])
  }

  /** How many bytes a read of `count` bytes at `offset` finds in a packet of `total` bytes. */
  function Available(total: nat, offset: nat, count: nat): nat {
    if offset >= total then 0 else if total - offset < count then total - offset else count
  }

  /** The first `n` bytes of the destination are the packet's from the offset on; the others are what they were. */
  ghost predicate Written(dest: seq<byte>, was: seq<byte>, flat: seq<byte>, offset: nat, n: nat) {
    && n <= |dest| == |was| && dest[n..] == was[n..]
    && (n > 0 ==> offset + n <= |flat| && dest[..n] == flat[offset..offset + n])
  }

  /** What is left of the packet from a position inside buffer `i`. */
  ghost function Rest(chain: seq<seq<byte>>, i: nat, at: nat, length: nat): seq<byte>
    requires i < |chain| && at + length <= |chain[i]|
  {
    chain[i][at..at + length] + Flatten(chain[i + 1..])
  }

  lemma FirstBuffer(chain: seq<seq<byte>>)
    requires chain != []
    ensures ReadPosition(chain, 0, 0, |chain[0]|, Flatten(chain), 0)
  {
    assert chain[0][0..0 + |chain[0]|] == chain[0];
  }

  lemma NextBuffer(chain: seq<seq<byte>>, i: nat, at: nat)
    requires i + 1 < |chain| && at <= |chain[i]|
    ensures Rest(chain, i, at, 0) == Rest(chain, i + 1, 0, |chain[i + 1]|)
  {
    assert chain[i + 1..][1..] == chain[i + 2..];
    assert chain[i][at..at + 0] == [];
  }

  lemma LastBuffer(chain: seq<seq<byte>>, i: nat, at: nat)
    requires i + 1 == |chain| && at <= |chain[i]|
    ensures Rest(chain, i, at, 0) == []
  {
  }

  /** `UF_ReadOnPacket`: for any chain, zero-length buffers included, any offset and any count, the destination
      receives exactly the packet's bytes from the offset on, as many as there are up to the count, the count is
      reported, and the rest of the destination is untouched. */
  method ReadOnPacket(chain: seq<seq<byte>>, lpBuffer: array<byte>, numberOfBytesToRead: nat, offset: nat)
      returns (numberOfBytesRead: nat)
    requires chain != [] && numberOfBytesToRead <= lpBuffer.Length
    modifies lpBuffer
    ensures numberOfBytesRead == Available(|Flatten(chain)|, offset, numberOfBytesToRead)
    ensures Written(lpBuffer[..], old(lpBuffer[..]), Flatten(chain), offset, numberOfBytesRead)
  {
    numberOfBytesRead := 0;
    if numberOfBytesToRead == 0 {
      return;
    }
    ghost var was := lpBuffer[..];
    var toRead: nat, toSkip: nat := numberOfBytesToRead, offset;
    var i: nat, currentOffset: nat, currentLength: nat := 0, 0, |chain[0]|;
    FirstBuffer(chain);
    while toSkip > 0 || toRead > 0
      invariant numberOfBytesRead + toRead == numberOfBytesToRead
      invariant Reading(chain, i, currentOffset, currentLength, toSkip, toRead, lpBuffer[..], was, offset, numberOfBytesRead)
      decreases |chain| - i, currentLength
    {
      var more, skipped, copied;
      more, i, currentOffset, skipped, copied :=
        ReadStep(chain, i, currentOffset, currentLength, toSkip, toRead, lpBuffer, numberOfBytesRead, was, offset);
      if !more {
        return;
      }
      toSkip := toSkip - skipped;
      toRead := toRead - copied;
      numberOfBytesRead := numberOfBytesRead + copied;
      currentLength := 0;
    }
  }

  /** The state of the loop: what was written so far, and, while bytes are still wanted, a read position that has
      `toSkip` bytes to go to the next wanted one. */
  ghost predicate Reading(chain: seq<seq<byte>>, i: nat, at: nat, length: nat, toSkip: nat, toRead: nat,
                          dest: seq<byte>, was: seq<byte>, offset: nat, read: nat) {
    && (toSkip > 0 ==> toRead > 0 && read == 0 && (length > 0 ==> at == 0))
    && Written(dest, was, Flatten(chain), offset, read) && read + toRead <= |dest|
    && i < |chain|
    && (toRead > 0 ==> toSkip <= offset + read
                       && ReadPosition(chain, i, at, length, Flatten(chain), offset + read - toSkip))
  }

  /** One iteration of the loop. */
  method ReadStep(chain: seq<seq<byte>>, i0: nat, at0: nat, length0: nat, toSkip: nat, toRead: nat, a: array<byte>,
                  read: nat, ghost was: seq<byte>, ghost offset: nat)
      returns (more: bool, i: nat, at: nat, skipped: nat, copied: nat)
    requires Reading(chain, i0, at0, length0, toSkip, toRead, a[..], was, offset, read) && toRead > 0
    modifies a
    ensures more ==> skipped <= toSkip && copied <= toRead
    ensures more ==> Reading(chain, i, at, 0, toSkip - skipped, toRead - copied, a[..], was, offset, read + copied)
    ensures more ==> i0 <= i && (length0 == 0 ==> i0 < i)
    ensures !more ==> read == Available(|Flatten(chain)|, offset, read + toRead) && a[..] == old(a[..])
  {
    var length;
    ghost var flat := Flatten(chain);
    ghost var start := offset + read - toSkip;
    more, i, at, length := NextData(chain, i0, at0, length0, flat, start);
    skipped, copied := 0, 0;
    if !more {
      NothingLeft(|flat|, offset, read, toSkip, toRead);
      return;
    }
    skipped, copied := ReadFromBuffer(chain, i, at, length, toSkip, toRead, a, read, was, flat, offset, start);
    at := at + skipped;
    assert start + skipped + copied == offset + (read + copied) - (toSkip - skipped);
  }

  lemma NothingLeft(total: nat, offset: nat, read: nat, toSkip: nat, toRead: nat)
    requires toSkip <= offset + read == total + toSkip && toRead > 0 && (toSkip > 0 ==> read == 0)
    ensures read == Available(total, offset, read + toRead)
  {
  }

  /** The body of the loop on a buffer with `length` > 0 bytes left: skip what the offset still asks for, then copy what
      the count still asks for. */
  method ReadFromBuffer(chain: seq<seq<byte>>, i: nat, at: nat, length: nat, toSkip: nat, toRead: nat, a: array<byte>,
                        written: nat, ghost was: seq<byte>, ghost flat: seq<byte>, ghost offset: nat, ghost start: nat)
      returns (skipped: nat, copied: nat)
    requires ReadPosition(chain, i, at, length, flat, start) && start + toSkip == offset + written
    requires 0 < length && 0 < toRead && written + toRead <= a.Length && (toSkip > 0 ==> written == 0 && at == 0)
    requires Written(a[..], was, flat, offset, written)
    modifies a
    ensures skipped == (if length > toSkip then toSkip else length)
    ensures skipped < toSkip ==> copied == 0
    ensures copied == (if length - skipped > toRead then toRead else length - skipped)
    ensures Written(a[..], was, flat, offset, written + copied)
    ensures toRead > copied ==> ReadPosition(chain, i, at + skipped, 0, flat, start + skipped + copied)
  {
    var skip, currentOffset, currentLength := toSkip, at, length;
    skipped := 0;
    if skip > 0 {
      currentOffset := if currentLength > skip then skip else currentLength;
      skipped := currentOffset;
      skip := skip - currentOffset;
      currentLength := currentLength - currentOffset;
      SkipInBuffer(chain, i, at, length, skipped, flat, start);
    }
    if skip > 0 || currentLength == 0 {
      copied := 0;
      return;
    }
    copied := if currentLength > toRead then toRead else currentLength;
    CopyFromBuffer(chain, i, currentOffset, currentLength, copied, a, written, was, flat, offset);
  }

  /** The inner loop: move on to the next buffer while the current one has nothing left. */
  method NextData(chain: seq<seq<byte>>, i0: nat, at0: nat, length0: nat, ghost flat: seq<byte>, ghost start: nat)
      returns (found: bool, i: nat, at: nat, length: nat)
    requires ReadPosition(chain, i0, at0, length0, flat, start)
    ensures i0 <= i && ReadPosition(chain, i, at, length, flat, start)
    ensures found ==> length > 0 && (if length0 == 0 then i0 < i && at == 0 else i == i0 && at == at0 && length == length0)
    ensures !found ==> start == |flat|
  {
    found, i, at, length := true, i0, at0, length0;
    while length == 0
      invariant i0 <= i && ReadPosition(chain, i, at, length, flat, start)
      invariant if i == i0 then at == at0 && length == length0 else at == 0 && length0 == 0
      decreases |chain| - i
    {
      if i + 1 == |chain| {
        LastBuffer(chain, i, at);
        found := false;
        return;
      }
      NextBuffer(chain, i, at);
      i := i + 1;
      at, length := 0, |chain[i]|;
    }
  }

  /** Copy the next `n` bytes of a buffer to the end of what was written so far. */
  method CopyFromBuffer(chain: seq<seq<byte>>, i: nat, at: nat, length: nat, n: nat, a: array<byte>, written: nat,
                        ghost was: seq<byte>, ghost flat: seq<byte>, ghost offset: nat)
    requires ReadPosition(chain, i, at, length, flat, offset + written)
    requires 0 < n <= length && written + n <= a.Length && Written(a[..], was, flat, offset, written)
    modifies a
    ensures offset + written + n <= |flat| && Written(a[..], was, flat, offset, written + n)
    ensures n == length ==> ReadPosition(chain, i, at, 0, flat, offset + written + n)
  {
    SkipInBuffer(chain, i, at, length, n, flat, offset + written);
    EmptyRest(chain, i, at, at + n);
    PieceInPacket(chain, i, at, length, n, flat, offset + written);
    WriteMore(a[..], was, flat, offset, written, n);
    CopyIn(a, written, chain[i][at..at + n]);
  }

  /** `NdisMoveMemory` into the destination. */
  method CopyIn(a: array<byte>, at: nat, data: seq<byte>)
    requires at + |data| <= a.Length
    modifies a
    ensures a[..] == WriteAt(old(a[..]), at, data)
  {
    forall k | 0 <= k < |data| {
      a[at + k] := data[k];
    }
  }

  lemma WriteMore(dest: seq<byte>, was: seq<byte>, flat: seq<byte>, offset: nat, n: nat, m: nat)
    requires Written(dest, was, flat, offset, n) && 0 < m && n + m <= |dest| && offset + n + m <= |flat|
    ensures Written(WriteAt(dest, n, flat[offset + n..offset + n + m]), was, flat, offset, n + m)
  {
    var data := flat[offset + n..offset + n + m];
    var out := WriteAt(dest, n, data);
    assert out[..n + m] == dest[..n] + data;
    assert out[n + m..] == dest[n..][m..] == was[n + m..];
    assert dest[..n] == flat[offset..offset + n];
  }

  lemma EmptyRest(chain: seq<seq<byte>>, i: nat, at: nat, at': nat)
    requires i < |chain| && at <= |chain[i]| && at' <= |chain[i]|
    ensures Rest(chain, i, at, 0) == Rest(chain, i, at', 0)
  {
  }

  /** What is left of the current buffer and the buffers after it is the packet from `start` on. */
  ghost predicate ReadPosition(chain: seq<seq<byte>>, i: nat, at: nat, length: nat, flat: seq<byte>, start: nat) {
    && i < |chain| && at + length <= |chain[i]| && start <= |flat|
    && Rest(chain, i, at, length) == flat[start..]
  }

  lemma PieceInPacket(chain: seq<seq<byte>>, i: nat, at: nat, length: nat, n: nat, flat: seq<byte>, start: nat)
    requires ReadPosition(chain, i, at, length, flat, start) && n <= length
    ensures start + n <= |flat| && flat[start..start + n] == chain[i][at..at + n]
  {
    var rest := Rest(chain, i, at, length);
    assert rest[..n] == chain[i][at..at + n];
    assert flat[start..start + n] == flat[start..][..n];
  }

  /** Moving `n` bytes forward inside a buffer moves `n` bytes forward in the packet. */
  lemma SkipInBuffer(chain: seq<seq<byte>>, i: nat, at: nat, length: nat, n: nat, flat: seq<byte>, start: nat)
    requires ReadPosition(chain, i, at, length, flat, start) && n <= length
    ensures ReadPosition(chain, i, at + n, length - n, flat, start + n)
  {
    var rest := Rest(chain, i, at, length);
    assert rest[n..] == chain[i][at + n..at + length] + Flatten(chain[i + 1..]);
    assert flat[start + n..] == flat[start..][n..];
  }
}
