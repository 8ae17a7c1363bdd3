/** The Internet checksum of `GetChecksum`, against RFC 1071. */
module Checksum {
  import opened Bytes

  /** Exact sum of the words, in unbounded arithmetic. */
  ghost function Sum(ws: seq<word>): nat {
    if ws == [] then 0 else Sum(ws[..|ws| - 1]) + ws[|ws| - 1]
  }

  /** One's complement addition: a carry out of bit 15 is added back in at bit 0 (section 1 of RFC 1071). */
  function OnesAdd(a: word, b: word): word {
    if a + b >= 0x1_0000 then a + b - 0xFFFF else a + b
  }

  /** One's complement sum of the words, added one at a time. */
  function OnesSum(ws: seq<word>): word {
    if ws == [] then 0 else OnesAdd(OnesSum(ws[..|ws| - 1]), ws[|ws| - 1])
  }

  /** The words the host loads from a buffer; an odd last byte is padded with a zero byte. */
  function HostWords(bytes: seq<byte>): seq<word> {
    seq((|bytes| + 1) / 2, i requires 0 <= i < (|bytes| + 1) / 2 =>
      LittleEndian(bytes[2 * i], if 2 * i + 1 < |bytes| then bytes[2 * i + 1] else 0))
  }

  /** The same words read in network order. */
  function WireWords(bytes: seq<byte>): seq<word> {
    seq((|bytes| + 1) / 2, i requires 0 <= i < (|bytes| + 1) / 2 =>
      BigEndian(bytes[2 * i], if 2 * i + 1 < |bytes| then bytes[2 * i + 1] else 0))
  }

  /** The two folds and the complement that end the routine, on a 32-bit accumulator. */
  function FoldTwice(sum: dword): word {
    var folded := sum / 0x1_0000 + sum % 0x1_0000;
    0xFFFF - (folded + folded / 0x1_0000) % 0x1_0000
  }

  /** The representative of `n` modulo 65535 that one's complement addition produces: only zero sums to zero. */
  ghost function Residue(n: nat): word {
    if n == 0 then 0 else 1 + (n - 1) % 0xFFFF
  }

  lemma ResidueAdd(n: nat, w: word)
    ensures OnesAdd(Residue(n), w) == Residue(n + w)
  {
    if n > 0 {
      var q, r := (n - 1) / 0xFFFF, (n - 1) % 0xFFFF;
      assert n + w - 1 == 0xFFFF * q + (r + w);
      if r + w >= 0xFFFF {
        ResidueUnique(n + w, q + 1, r + w - 0xFFFF);
      } else {
        ResidueUnique(n + w, q, r + w);
      }
    }
  }

  lemma ResidueUnique(n: nat, q: nat, r: nat)
    requires n > 0 && n - 1 == 0xFFFF * q + r && r < 0xFFFF
    ensures Residue(n) == 1 + r
  {
  }

  lemma {:induction false} OnesSumIsResidue(ws: seq<word>)
    ensures OnesSum(ws) == Residue(Sum(ws))
  {
    if ws != [] {
      OnesSumIsResidue(ws[..|ws| - 1]);
      ResidueAdd(Sum(ws[..|ws| - 1]), ws[|ws| - 1]);
    }
  }

  /** Two folds bring any 32-bit accumulator down to its residue. */
  lemma TwoFoldsReduce(n: dword)
    ensures FoldTwice(n) == 0xFFFF - Residue(n)
  {
    var high, low := n / 0x1_0000, n % 0x1_0000;
    var folded := high + low;
    if folded >= 0x1_0000 {
      assert n - 1 == 0xFFFF * (high + 1) + (folded - 0x1_0000);
      ResidueUnique(n, high + 1, folded - 0x1_0000);
      assert folded / 0x1_0000 == 1;
      assert (folded + 1) % 0x1_0000 == folded + 1 - 0x1_0000;
    } else if folded > 0 {
      assert n - 1 == 0xFFFF * high + (folded - 1);
      ResidueUnique(n, high, folded - 1);
    }
  }

  lemma {:induction false} SumBound(ws: seq<word>)
    ensures Sum(ws) <= 0xFFFF * |ws|
  {
    if ws != [] {
      SumBound(ws[..|ws| - 1]);
    }
  }

  /** For any buffer of up to 65537 words the 32-bit accumulator holds the exact sum, and the routine's result
      is the complement of the one's complement sum. */
  lemma AccumulatorIsExact(ws: seq<word>)
    requires |ws| <= 0x1_0001
    ensures Sum(ws) < 0x1_0000_0000
    ensures FoldTwice(Sum(ws)) == 0xFFFF - OnesSum(ws)
  {
    SumBound(ws);
    TwoFoldsReduce(Sum(ws));
    OnesSumIsResidue(ws);
  }

  /** The bound is tight: with one word more the accumulator can wrap and the result is no longer the checksum. */
  lemma BoundIsTight() returns (ws: seq<word>)
    ensures |ws| == 0x1_0002
    ensures FoldTwice(Sum(ws) % 0x1_0000_0000) != 0xFFFF - OnesSum(ws)
  {
    ws := seq(0x1_0002, i => 0xFFFF);
    SumOfOnes(ws);
    OnesSumIsResidue(ws);
    assert Sum(ws) == 0x1_0000_0000 + 0xFFFE;
    ResidueUnique(Sum(ws), 0x1_0001, 0xFFFE);
    assert FoldTwice(0xFFFE) == 1;
  }

  lemma {:induction false} SumOfOnes(ws: seq<word>)
    requires forall i :: 0 <= i < |ws| ==> ws[i] == 0xFFFF
    ensures Sum(ws) == 0xFFFF * |ws|
  {
    if ws != [] {
      SumOfOnes(ws[..|ws| - 1]);
    }
  }

  /** What the 32-bit accumulator holds when the loop over a buffer ends. */
  ghost function Accumulated(bytes: seq<byte>): dword {
    Sum(HostWords(bytes)) % 0x1_0000_0000
  }

  /** The checksum RFC 1071 prescribes, over words in host order. */
  ghost function HostChecksum(bytes: seq<byte>): word {
    0xFFFF - OnesSum(HostWords(bytes))
  }

  /** The checksum RFC 1071 prescribes, over words in network order. */
  ghost function WireChecksum(bytes: seq<byte>): word {
    0xFFFF - OnesSum(WireWords(bytes))
  }

  lemma NoWrap(n: nat)
    requires n < 0x1_0000_0000
    ensures n % 0x1_0000_0000 == n
  {
  }

  lemma ShortBufferChecksum(bytes: seq<byte>)
    requires |bytes| <= 0x2_0002
    ensures FoldTwice(Accumulated(bytes)) == HostChecksum(bytes)
  {
    AccumulatorIsExact(HostWords(bytes));
    NoWrap(Sum(HostWords(bytes)));
  }

  /** The accumulator after `k` words. */
  ghost function AccumulatedTo(ws: seq<word>, k: nat): dword
    requires k <= |ws|
  {
    Sum(ws[..k]) % 0x1_0000_0000
  }

  lemma AccumulateWord(ws: seq<word>, k: nat)
    requires k < |ws|
    ensures AccumulatedTo(ws, k + 1) == (AccumulatedTo(ws, k) + ws[k]) % 0x1_0000_0000
  {
    assert ws[..k + 1][..k] == ws[..k];
    AddModulo(Sum(ws[..k]), ws[k]);
  }

  lemma AddModulo(a: nat, w: word)
    ensures (a + w) % 0x1_0000_0000 == (a % 0x1_0000_0000 + w) % 0x1_0000_0000
  {
  }

  lemma AccumulatedAll(ws: seq<word>)
    ensures AccumulatedTo(ws, |ws|) == Sum(ws) % 0x1_0000_0000
  {
    assert ws[..|ws|] == ws;
  }

  /** The loop of the routine: host words are added on a 32-bit accumulator that may wrap. */
  method SumWords(buffer: array<byte>, start: nat, size: nat) returns (cksum: dword)
    requires start + size <= buffer.Length
    ensures cksum == Accumulated(buffer[start..start + size])
  {
    ghost var bytes := buffer[start..start + size];
    ghost var ws := HostWords(bytes);
    ghost var k := 0;
    cksum := 0;
    var at, left := start, size;
    while left > 1
      invariant 0 <= left <= size && size - left == 2 * k && at == start + 2 * k
      invariant k <= |ws| && cksum == AccumulatedTo(ws, k)
    {
      AccumulateWord(ws, k);
      assert buffer[at] == bytes[2 * k] && buffer[at + 1] == bytes[2 * k + 1];
      cksum := (cksum + LittleEndian(buffer[at], buffer[at + 1])) % 0x1_0000_0000;
      at, left := at + 2, left - 2;
      k := k + 1;
    }
    AccumulatedAll(ws);
    if left != 0 {
      AccumulateWord(ws, k);
      assert buffer[at] == bytes[2 * k] && k + 1 == |ws|;
      cksum := (cksum + buffer[at]) % 0x1_0000_0000;
    }
  }

  /** The routine: the sum, two folds and a complement. On every buffer the program could pass it, it is the
      checksum of RFC 1071. */
  method GetChecksum(buffer: array<byte>, start: nat, size: nat) returns (checksum: word)
    requires start + size <= buffer.Length
    ensures checksum == FoldTwice(Accumulated(buffer[start..start + size]))
    ensures size <= 0x2_0002 ==> checksum == HostChecksum(buffer[start..start + size])
  {
    var cksum := SumWords(buffer, start, size);
    checksum := FoldAndComplement(cksum);
    if size <= 0x2_0002 {
      ShortBufferChecksum(buffer[start..start + size]);
    }
  }

  method FoldAndComplement(sum: dword) returns (checksum: word)
    ensures checksum == FoldTwice(sum)
  {
    var cksum: dword := sum / 0x1_0000 + sum % 0x1_0000;
    cksum := cksum + cksum / 0x1_0000;
    checksum := 0xFFFF - cksum % 0x1_0000;
  }

  // ---- Byte-order independence (section 2(B) of RFC 1071)

  function SwapAll(ws: seq<word>): seq<word> {
    seq(|ws|, i requires 0 <= i < |ws| => Swap(ws[i]))
  }

  /** A byte swap multiplies by 256 modulo 65535. */
  lemma SwapShift(w: word)
    ensures 0x100 * (w as int) == Swap(w) + 0xFFFF * (w / 0x100)
    ensures Swap(w) == 0 <==> w == 0
  {
  }

  lemma {:induction false} SwappedSum(ws: seq<word>) returns (carried: nat)
    ensures 0x100 * Sum(ws) == Sum(SwapAll(ws)) + 0xFFFF * carried
    ensures Sum(ws) == 0 <==> Sum(SwapAll(ws)) == 0
  {
    if ws == [] {
      carried := 0;
    } else {
      var init := ws[..|ws| - 1];
      var last: int := ws[|ws| - 1];
      var before := SwappedSum(init);
      assert SwapAll(ws)[..|ws| - 1] == SwapAll(init);
      carried := before + last / 0x100;
      SwapShift(last);
    }
  }

  lemma ResidueShift(n: nat, k: nat)
    requires n > 0
    ensures Residue(n + 0xFFFF * k) == Residue(n)
  {
    var q, r := (n - 1) / 0xFFFF, (n - 1) % 0xFFFF;
    ResidueUnique(n + 0xFFFF * k, q + k, r);
  }

  lemma SwapOfResidue(n: nat)
    ensures Swap(Residue(n)) == Residue(0x100 * n)
  {
    if n > 0 {
      var q := (n - 1) / 0xFFFF;
      var r: int := Residue(n);
      SwapShift(r);
      var carried := 0x100 * q + r / 0x100;
      assert 0x100 * n == Swap(r) + 0xFFFF * carried;
      ResidueShift(Swap(r), carried);
      ResidueUnique(Swap(r), 0, Swap(r) - 1);
    }
  }

  /** Swapping the bytes of every word swaps the bytes of the one's complement sum. */
  lemma ByteOrderIndependence(ws: seq<word>)
    ensures OnesSum(SwapAll(ws)) == Swap(OnesSum(ws))
  {
    var carried := SwappedSum(ws);
    OnesSumIsResidue(ws);
    OnesSumIsResidue(SwapAll(ws));
    SwapOfResidue(Sum(ws));
    if Sum(ws) > 0 {
      ResidueShift(Sum(SwapAll(ws)), carried);
    }
  }

  lemma ComplementSwap(w: word)
    ensures Swap(0xFFFF - w) == 0xFFFF - Swap(w)
    ensures HighByte(Swap(w)) == LowByte(w) && LowByte(Swap(w)) == HighByte(w)
  {
    assert 0xFFFF - w == LittleEndian(0xFF - LowByte(w), 0xFF - HighByte(w));
    SwapOfHostLoad(0xFF - LowByte(w), 0xFF - HighByte(w));
    SwapOfHostLoad(HighByte(w), LowByte(w));
  }

  lemma SwappedWords(bytes: seq<byte>)
    ensures SwapAll(HostWords(bytes)) == WireWords(bytes)
  {
    forall i | 0 <= i < |HostWords(bytes)|
      ensures Swap(HostWords(bytes)[i]) == WireWords(bytes)[i]
    {
      SwapOfHostLoad(bytes[2 * i], if 2 * i + 1 < |bytes| then bytes[2 * i + 1] else 0);
    }
  }

  /** Storing the host checksum natively puts on the wire the bytes of the network-order checksum. */
  lemma NativeStoreIsWireChecksum(bytes: seq<byte>)
    ensures var host, wire := HostChecksum(bytes), WireChecksum(bytes);
            LowByte(host) == HighByte(wire) && HighByte(host) == LowByte(wire)
  {
    var ws := HostWords(bytes);
    SwappedWords(bytes);
    ByteOrderIndependence(ws);
    ComplementSwap(OnesSum(ws));
    ComplementSwap(0xFFFF - OnesSum(ws));
  }

  // ---- A stored checksum closes the sum

  lemma {:induction false} SumUpdate(ws: seq<word>, k: nat, w: word)
    requires k < |ws|
    ensures Sum(ws[k := w]) == Sum(ws) - ws[k] + w
  {
    var init := ws[..|ws| - 1];
    if k == |ws| - 1 {
      assert ws[k := w][..|ws| - 1] == init;
    } else {
      SumUpdate(init, k, w);
      assert ws[k := w][..|ws| - 1] == init[k := w];
    }
  }

  /** Writing the complement of the sum into the word that was zero while summing makes the whole sum 0xFFFF. */
  lemma ChecksumCloses(ws: seq<word>, k: nat)
    requires k < |ws| && ws[k] == 0
    ensures OnesSum(ws[k := 0xFFFF - OnesSum(ws)]) == 0xFFFF
  {
    var c := 0xFFFF - OnesSum(ws);
    SumUpdate(ws, k, c);
    OnesSumIsResidue(ws);
    OnesSumIsResidue(ws[k := c]);
    if Sum(ws) > 0 {
      var q, r := (Sum(ws) - 1) / 0xFFFF, (Sum(ws) - 1) % 0xFFFF;
      assert Sum(ws) + c - 1 == 0xFFFF * q + 0xFFFE;
      ResidueUnique(Sum(ws) + c, q, 0xFFFE);
    }
  }
}
