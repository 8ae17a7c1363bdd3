/** One datagram under reassembly: what a work buffer holds, and what that means in terms of the fragments that
    reached it (section 3.2 of RFC 791). */
module Datagram {
  import opened Bytes
  import opened IpHeader

  const WORKBUFSIZE := 65536
  const WORKBUF := 65550
  const BITMAP_SIZE := 8192

  const NO_INFO := Info(0, 0, 0, 0, 0, 0, 0)

  /** The contents of a work buffer. `fragments` is the fragment list, most recent arrival first. */
  datatype Datagram = Datagram(
    key: Key,
    ttl: byte,
    finalbuf: seq<byte>,
    bits: seq<bool>,
    totallen: word,
    last: bool,
    fragments: seq<Piece>,
    info: Info)

  ghost predicate Shaped(d: Datagram) {
    |d.finalbuf| == WORKBUF && |d.bits| == BITMAP_SIZE
  }

  /** A fragment reassembly can place: no IP options, and it ends within the work buffer. */
  predicate Placeable(f: Piece) {
    && |f.mac| == ETHER_HDR_SIZE && |f.header| == IP_HDR_SIZE && |f.payload| == f.total - IP_HDR_SIZE
    && 8 * f.offset + f.total <= WORKBUFSIZE && (f.offset == 0 ==> f.more)
  }

  /** `RtlSetBits`. */
  function SetBits(bits: seq<bool>, start: nat, count: nat): (out: seq<bool>)
    ensures |out| == |bits|
    ensures forall i :: 0 <= i < |out| ==> (out[i] <==> bits[i] || start <= i < start + count)
  {
    seq(|bits|, i requires 0 <= i < |bits| => bits[i] || start <= i < start + count)
  }

  /** A work buffer just taken from the pool: zeroed, then labelled. */
  function Fresh(key: Key, ttl: byte): Datagram {
    Datagram(key, ttl, seq(WORKBUF, i => 0), seq(BITMAP_SIZE, i => false), 0, false, [], NO_INFO)
  }

  /** The state of a work buffer after one more fragment has been placed in it. */
  function Merge(d: Datagram, r: Piece): (d': Datagram)
    requires |d.finalbuf| == WORKBUF && |d.bits| == BITMAP_SIZE && Placeable(r)
    ensures Shaped(d')
  {
    var framed := WriteAt(d.finalbuf, 0, r.mac);
    var d' := d.(bits := SetBits(d.bits, r.offset, r.total / 8), fragments := [r] + d.fragments);
    if r.offset == 0 then
      d'.(finalbuf := WriteAt(framed, ETHER_HDR_SIZE, r.header + r.payload),
          info := r.request.info)
    else
      var filled := WriteAt(framed, HEADERS_SIZE + 8 * r.offset, r.payload);
      if r.more then
        d'.(finalbuf := filled)
      else
        d'.(finalbuf := filled, last := true, totallen := (8 * r.offset + r.total) % WORKBUFSIZE)
  }

  /** `RtlAreBitsSet` over the first `totallen / 8` bits; it answers FALSE for an empty range. */
  ghost predicate AllBitsSet(d: Datagram) {
    d.totallen / 8 > 0 && d.totallen / 8 <= |d.bits| && forall b :: 0 <= b < d.totallen / 8 ==> d.bits[b]
  }

  // ---- What a list of fragments means, independently of the buffer

  /** Fragment `r` sets bit `b`: the claimed range includes the 20 header bytes. */
  ghost predicate Claims(r: Piece, b: int)
    requires Placeable(r)
  {
    r.offset <= b < r.offset + r.total / 8
  }

  /** Fragment `r` brings payload byte `p` of the datagram. */
  ghost predicate Carries(r: Piece, p: int)
    requires Placeable(r)
  {
    8 * r.offset <= p < 8 * r.offset + |r.payload|
  }

  ghost predicate AllPlaceable(fs: seq<Piece>) {
    forall i :: 0 <= i < |fs| ==> Placeable(fs[i])
  }

  ghost predicate Claimed(fs: seq<Piece>, b: int)
    requires AllPlaceable(fs)
  {
    exists i :: 0 <= i < |fs| && Claims(fs[i], b)
  }

  /** Payload byte `p` according to the most recent fragment that carries it; zero when none does. */
  ghost function ByteAt(fs: seq<Piece>, p: nat): byte
    requires AllPlaceable(fs)
  {
    if fs == [] then 0
    else if Carries(fs[0], p) then fs[0].payload[p - 8 * fs[0].offset]
    else ByteAt(fs[1..], p)
  }

  /** The IP header of the most recent first fragment. */
  ghost function HeaderOf(fs: seq<Piece>): (header: seq<byte>)
    requires AllPlaceable(fs)
    ensures |header| == IP_HDR_SIZE
  {
    if fs == [] then seq(IP_HDR_SIZE, i => 0)
    else if fs[0].offset == 0 then fs[0].header
    else HeaderOf(fs[1..])
  }

  /** The request fields of the most recent first fragment. */
  ghost function InfoOf(fs: seq<Piece>): Info
    requires AllPlaceable(fs)
  {
    if fs == [] then NO_INFO
    else if fs[0].offset == 0 then fs[0].request.info
    else InfoOf(fs[1..])
  }

  ghost predicate HasLast(fs: seq<Piece>)
    requires AllPlaceable(fs)
  {
    exists i :: 0 <= i < |fs| && !fs[i].more
  }

  /** The datagram's total length according to the most recent last fragment, in 16 bits. */
  ghost function LengthOf(fs: seq<Piece>): word
    requires AllPlaceable(fs)
  {
    if fs == [] then 0
    else if !fs[0].more then (8 * fs[0].offset + fs[0].total) % WORKBUFSIZE
    else LengthOf(fs[1..])
  }

  /** The fragments that arrived make a complete datagram, as far as the bitmap can tell. */
  ghost predicate Complete(fs: seq<Piece>)
    requires AllPlaceable(fs)
  {
    HasLast(fs) && LengthOf(fs) / 8 > 0 && forall b :: 0 <= b < LengthOf(fs) / 8 ==> Claimed(fs, b)
  }

  /** The work buffer says exactly what the fragments that reached it say. */
  ghost predicate Faithful(d: Datagram) {
    && Shaped(d)
    && AllPlaceable(d.fragments)
    && (forall i :: 0 <= i < |d.fragments| ==> d.fragments[i].key == d.key)
    && (forall b :: 0 <= b < BITMAP_SIZE ==> (d.bits[b] <==> Claimed(d.fragments, b)))
    && (forall p :: 0 <= p < WORKBUF - HEADERS_SIZE ==> d.finalbuf[HEADERS_SIZE + p] == ByteAt(d.fragments, p))
    && d.finalbuf[ETHER_HDR_SIZE..HEADERS_SIZE] == HeaderOf(d.fragments)
    && (d.fragments != [] ==> d.finalbuf[..ETHER_HDR_SIZE] == d.fragments[0].mac)
    && (d.last <==> HasLast(d.fragments))
    && d.totallen == LengthOf(d.fragments)
    && d.info == InfoOf(d.fragments)
  }

  lemma FreshIsFaithful(key: Key, ttl: byte)
    ensures Faithful(Fresh(key, ttl))
  {
  }

  lemma ClaimedCons(fs: seq<Piece>, r: Piece, b: int)
    requires AllPlaceable(fs) && Placeable(r)
    ensures AllPlaceable([r] + fs)
    ensures Claimed([r] + fs, b) <==> Claims(r, b) || Claimed(fs, b)
  {
    var all := [r] + fs;
    assert all[0] == r && forall i :: 0 <= i < |fs| ==> all[i + 1] == fs[i];
    if Claimed(fs, b) {
      var i :| 0 <= i < |fs| && Claims(fs[i], b);
      assert Claims(all[i + 1], b);
    }
  }

  lemma HasLastCons(fs: seq<Piece>, r: Piece)
    requires AllPlaceable(fs) && Placeable(r)
    ensures AllPlaceable([r] + fs)
    ensures HasLast([r] + fs) <==> !r.more || HasLast(fs)
  {
    var all := [r] + fs;
    assert all[0] == r && forall i :: 0 <= i < |fs| ==> all[i + 1] == fs[i];
    if HasLast(fs) {
      var i :| 0 <= i < |fs| && !fs[i].more;
      assert !all[i + 1].more;
    }
  }

  lemma MergedBytes(d: Datagram, r: Piece)
    requires Faithful(d) && Placeable(r)
    ensures var d' := Merge(d, r);
            && AllPlaceable(d'.fragments)
            && (forall p :: 0 <= p < WORKBUF - HEADERS_SIZE ==> d'.finalbuf[HEADERS_SIZE + p] == ByteAt(d'.fragments, p))
            && d'.finalbuf[ETHER_HDR_SIZE..HEADERS_SIZE] == HeaderOf(d'.fragments)
            && d'.finalbuf[..ETHER_HDR_SIZE] == r.mac
  {
    var d' := Merge(d, r);
    assert d'.fragments[1..] == d.fragments;
    forall p | 0 <= p < WORKBUF - HEADERS_SIZE
      ensures d'.finalbuf[HEADERS_SIZE + p] == ByteAt(d'.fragments, p)
    {
      assert ByteAt(d'.fragments, p) == if Carries(r, p) then r.payload[p - 8 * r.offset] else ByteAt(d.fragments, p);
    }
  }

  /** Placing a fragment keeps the buffer faithful. */
  lemma MergeIsFaithful(d: Datagram, r: Piece)
    requires Faithful(d) && Placeable(r) && r.key == d.key
    ensures Faithful(Merge(d, r))
  {
    var d' := Merge(d, r);
    MergedBytes(d, r);
    assert d'.fragments[1..] == d.fragments;
    forall b | 0 <= b < BITMAP_SIZE
      ensures d'.bits[b] <==> Claimed(d'.fragments, b)
    {
      ClaimedCons(d.fragments, r, b);
    }
    HasLastCons(d.fragments, r);
  }

  /** `Verify`'s test answers exactly whether the fragments are complete. */
  lemma VerifyMeansComplete(d: Datagram)
    requires Faithful(d)
    ensures d.last && AllBitsSet(d) <==> Complete(d.fragments)
  {
  }

  // ---- Facts about any complete list

  lemma ClaimedZeroHasFirst(fs: seq<Piece>) returns (i: nat)
    requires AllPlaceable(fs) && Claimed(fs, 0)
    ensures i < |fs| && fs[i].offset == 0
  {
    i :| 0 <= i < |fs| && Claims(fs[i], 0);
  }

  /** The fields and header reported for a datagram come from one of its own first fragments. */
  lemma {:induction false} FirstFragmentDescribes(fs: seq<Piece>, first: nat) returns (i: nat)
    requires AllPlaceable(fs) && first < |fs| && fs[first].offset == 0
    ensures i < |fs| && fs[i].offset == 0
    ensures InfoOf(fs) == fs[i].request.info && HeaderOf(fs) == fs[i].header
  {
    if fs[0].offset == 0 {
      i := 0;
    } else {
      i := FirstFragmentDescribes(fs[1..], first - 1);
      i := i + 1;
    }
  }

  lemma {:induction false} LengthFromLast(fs: seq<Piece>) returns (i: nat)
    requires AllPlaceable(fs) && HasLast(fs)
    ensures i < |fs| && !fs[i].more
    ensures LengthOf(fs) == (8 * fs[i].offset + fs[i].total) % WORKBUFSIZE
  {
    if !fs[0].more {
      i := 0;
    } else {
      assert HasLast(fs[1..]) by {
        var k :| 0 <= k < |fs| && !fs[k].more;
        assert fs[1..][k - 1] == fs[k];
      }
      i := LengthFromLast(fs[1..]);
      i := i + 1;
    }
  }

  /** A datagram that fills the work buffer to the last byte never completes: its length is 0 in 16 bits, and no bits
      are never all set. */
  lemma FullRangeNeverCompletes(fs: seq<Piece>)
    requires AllPlaceable(fs)
    requires forall i :: 0 <= i < |fs| && !fs[i].more ==> 8 * fs[i].offset + fs[i].total == WORKBUFSIZE
    ensures !Complete(fs)
  {
    if HasLast(fs) {
      var i := LengthFromLast(fs);
    }
  }

  /** One past the last byte `Analyze` copies for a fragment with a 20-byte header, and one past the last bit it sets for a
      known datagram, computed in 16 bits as the program does. */
  function CopyEnd(offset: nat, total: word): nat {
    if offset == 0 then ETHER_HDR_SIZE + total else HEADERS_SIZE + 8 * offset + (total - IP_HDR_SIZE) % 0x1_0000
  }

  function ClaimEnd(offset: nat, total: word): nat {
    if offset == 0 then total / 8 else offset + ((total - IP_HDR_SIZE) % 0x1_0000 + IP_HDR_SIZE) / 8
  }

  /** Past the guard of the program, what it writes stays inside the work buffer if and only if the total length covers the
      header, or the fragment is the first. */
  lemma WritesStayInsideIff(offset: nat, total: word)
    requires 8 * offset + total <= WORKBUFSIZE
    ensures CopyEnd(offset, total) <= WORKBUF <==> offset == 0 || total >= IP_HDR_SIZE
    ensures ClaimEnd(offset, total) <= BITMAP_SIZE <==> offset == 0 || total >= IP_HDR_SIZE
  {
    if total < IP_HDR_SIZE {
      assert (total - IP_HDR_SIZE) % 0x1_0000 == 0x1_0000 + total - IP_HDR_SIZE;
    }
  }

  /** Every placed byte and bit stays inside the work buffer; both bounds can be reached. */
  lemma WritesStayInside(r: Piece)
    requires Placeable(r)
    ensures ETHER_HDR_SIZE + 8 * r.offset + r.total <= WORKBUF
    ensures r.offset + r.total / 8 <= BITMAP_SIZE
  {
  }

  /** What completeness really means, for any fragments: every block of the datagram was received, or starts fewer
      than 16 bytes past the end of a received fragment. The slack is the 20-byte header, which each fragment's
      claim on the bitmap includes. */
  lemma CompleteUpToTwoBlocks(fs: seq<Piece>, b: nat) returns (i: nat)
    requires AllPlaceable(fs) && Complete(fs)
    requires b < LengthOf(fs) / 8
    ensures i < |fs| && 8 * fs[i].offset <= 8 * b < 8 * fs[i].offset + |fs[i].payload| + 16
  {
    assert Claimed(fs, b);
    i :| 0 <= i < |fs| && Claims(fs[i], b);
  }
}
