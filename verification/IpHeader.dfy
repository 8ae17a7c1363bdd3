/** Ethernet and IPv4 header fields of a captured packet, and the checks made before a packet is reassembled. */
module IpHeader {
  import opened Bytes
  import opened Checksum

  const ETHER_HDR_SIZE := 14
  const IP_HDR_SIZE := 20
  const HEADERS_SIZE := 34
  const MAX_ETHER_SIZE := 1514

  /** The fields of a firewall request that a reassembled datagram inherits from its first fragment. */
  datatype Info = Info(ipProto: byte, sourceAddr: dword, destAddr: dword, sourcePort: word, destPort: word,
                       pid: nat, reqFlags: bv32)

  /** A firewall request: `tag` is its identity, `buffer` the captured frame starting at the Ethernet header. */
  datatype Request = Request(tag: nat, buffer: seq<byte>, direction: nat, info: Info)

  /** A 16-bit header field in host order: what `ntohs` returns for the host's load of it (`SwapOfHostLoad`). */
  function WordAt(b: seq<byte>, i: nat): word
    requires i + 1 < |b|
  {
    BigEndian(b[i], b[i + 1])
  }

  /** A 32-bit header field in host order, as `ntohl` returns it (`SwapLongOfHostLoad`). */
  function LongAt(b: seq<byte>, i: nat): dword
    requires i + 3 < |b|
  {
    0x1_0000 * WordAt(b, i) + WordAt(b, i + 2)
  }

  /** The low 13 bits of the fragment field: the offset, in units of 8 bytes. */
  function OffsetBits(field: word): nat { field % 0x2000 }

  predicate MoreFragmentsBit(field: word) { field / 0x2000 % 2 == 1 }

  /** The mask 0x3FFF keeps the offset and the more-fragments bit. */
  lemma FragmentMask(field: word)
    ensures field % 0x4000 != 0 <==> OffsetBits(field) != 0 || MoreFragmentsBit(field)
  {
  }

  datatype Verdict = NotEthernet | NotIp | MalformedIp | Fragment | Whole

  /** What `InitPacketHeaders` and `ruleValidateIP` decide about a frame before reassembly is considered. */
  function Classify(buffer: seq<byte>): (v: Verdict)
    ensures v == Fragment || v == Whole <==>
              && HEADERS_SIZE <= |buffer| <= MAX_ETHER_SIZE && BigEndian(buffer[12], buffer[13]) == 0x0800
              && (buffer[14] % 16) * 4 >= IP_HDR_SIZE
              && ETHER_HDR_SIZE + WordAt(buffer, 16) <= |buffer|
    ensures v == Fragment || v == Whole ==>
              (v == Fragment <==> OffsetBits(WordAt(buffer, 20)) != 0 || MoreFragmentsBit(WordAt(buffer, 20)))
    ensures v == NotEthernet <==> |buffer| < ETHER_HDR_SIZE || |buffer| > MAX_ETHER_SIZE
    ensures ETHER_HDR_SIZE <= |buffer| <= MAX_ETHER_SIZE ==> (v == NotIp <==> BigEndian(buffer[12], buffer[13]) != 0x0800)
  {
    if |buffer| < ETHER_HDR_SIZE || |buffer| > MAX_ETHER_SIZE then NotEthernet
    else if WordAt(buffer, 12) != 0x0800 then NotIp
    else if |buffer| < HEADERS_SIZE then MalformedIp
    else if |buffer| < WordAt(buffer, 16) + ETHER_HDR_SIZE then MalformedIp
    else if (buffer[14] % 16) * 4 < IP_HDR_SIZE then MalformedIp
    else
      FragmentMask(WordAt(buffer, 20));
      if WordAt(buffer, 20) % 0x4000 != 0 then Fragment else Whole
  }

  /** Datagrams are told apart by identification, protocol and both addresses (section 3.2 of RFC 791). */
  datatype Key = Key(id: word, protocol: byte, source: dword, dest: dword)

  /** A request reassembly accepts: classified as a fragment, with a total length that covers its own header.
      The second condition is not checked by the program. */
  predicate WellFormed(r: Request) {
    Classify(r.buffer) == Fragment && WordAt(r.buffer, 16) >= (r.buffer[14] % 16) * 4
  }

  /** A request with the fields `Analyze` reads from its headers. `offset` counts units of 8 bytes, `total` is the
      fragment's own total length. */
  datatype Piece = Piece(request: Request, key: Key, ttl: byte, offset: nat, total: nat, more: bool,
                         mac: seq<byte>, header: seq<byte>, payload: seq<byte>)

  function Decode(r: Request): (f: Piece)
    requires WellFormed(r)
    ensures |f.mac| == ETHER_HDR_SIZE && |f.header| >= IP_HDR_SIZE && |f.header| + |f.payload| == f.total
    ensures f.request == r && ETHER_HDR_SIZE + f.total <= |r.buffer|
    ensures f.offset < 0x2000 && f.total <= MAX_ETHER_SIZE - ETHER_HDR_SIZE && (f.offset == 0 ==> f.more)
  {
    var b := r.buffer;
    var headerEnd := ETHER_HDR_SIZE + (b[14] % 16) * 4;
    var total := WordAt(b, 16);
    var flagOffset := WordAt(b, 20);
    Piece(r, Key(WordAt(b, 18), b[23], LongAt(b, 26), LongAt(b, 30)), b[22],
          OffsetBits(flagOffset), total, MoreFragmentsBit(flagOffset),
          b[..ETHER_HDR_SIZE], b[ETHER_HDR_SIZE..headerEnd], b[headerEnd..ETHER_HDR_SIZE + total])
  }

  /** The three parts of a decoded fragment are the captured frame, up to the total length of its IP header. */
  lemma DecodeSplitsFrame(r: Request)
    requires WellFormed(r)
    ensures var f := Decode(r);
            f.mac + f.header + f.payload == r.buffer[..ETHER_HDR_SIZE + f.total]
  {
  }

  // ---- The header of a reassembled datagram

  /** The frame with a new total length, no fragment bits and a zero checksum. */
  function Blanked(frame: seq<byte>, totallen: word): (blank: seq<byte>)
    requires |frame| >= HEADERS_SIZE
    ensures |blank| == |frame|
  {
    frame[16 := HighByte(totallen)][17 := LowByte(totallen)][20 := 0][21 := 0][24 := 0][25 := 0]
  }

  /** What `PrepareIpHeader` leaves in the buffer: the blanked header with the host checksum stored natively. */
  ghost function Prepared(frame: seq<byte>, totallen: word): (out: seq<byte>)
    requires |frame| >= HEADERS_SIZE
    ensures |out| == |frame|
  {
    var blank := Blanked(frame, totallen);
    var checksum := HostChecksum(blank[ETHER_HDR_SIZE..HEADERS_SIZE]);
    blank[24 := LowByte(checksum)][25 := HighByte(checksum)]
  }

  lemma FieldsOfPrepared(frame: seq<byte>, totallen: word)
    requires |frame| >= HEADERS_SIZE
    ensures var out := Prepared(frame, totallen);
            && WordAt(out, 16) == totallen && WordAt(out, 20) == 0
            && (forall i :: 0 <= i < |frame| && i !in {16, 17, 20, 21, 24, 25} ==> out[i] == frame[i])
  {
  }

  lemma PreparedWords(frame: seq<byte>, totallen: word)
    requires |frame| >= HEADERS_SIZE
    ensures var blank := HostWords(Blanked(frame, totallen)[ETHER_HDR_SIZE..HEADERS_SIZE]);
            && |blank| == 10 && blank[5] == 0
            && HostWords(Prepared(frame, totallen)[ETHER_HDR_SIZE..HEADERS_SIZE]) == blank[5 := 0xFFFF - OnesSum(blank)]
  {
    var blank: seq<byte> := Blanked(frame, totallen)[ETHER_HDR_SIZE..HEADERS_SIZE];
    var c := HostChecksum(blank);
    var header := Prepared(frame, totallen)[ETHER_HDR_SIZE..HEADERS_SIZE];
    assert header == blank[10 := LowByte(c)][11 := HighByte(c)];
    assert HostWords(header) == HostWords(blank)[5 := c];
  }

  /** A valid header of an unfragmented datagram: its one's complement sum in network order is 0xFFFF (section 3.1
      of RFC 791), it carries the total length and no fragment bits. */
  ghost predicate ValidHeader(frame: seq<byte>, totallen: word)
    requires |frame| >= HEADERS_SIZE
  {
    && OnesSum(WireWords(frame[ETHER_HDR_SIZE..HEADERS_SIZE])) == 0xFFFF
    && WordAt(frame, 16) == totallen && WordAt(frame, 20) == 0
  }

  /** The frames agree outside the length, fragment and checksum fields. */
  ghost predicate SameOutsideRewrite(a: seq<byte>, b: seq<byte>)
    requires |a| <= |b|
  {
    forall i :: 0 <= i < |a| && i !in {16, 17, 20, 21, 24, 25} ==> a[i] == b[i]
  }

  /** The rewritten header is a valid header of an unfragmented datagram, and every byte outside the length, fragment
      and checksum fields is untouched. */
  lemma PreparedHeaderIsValid(frame: seq<byte>, totallen: word)
    requires |frame| >= HEADERS_SIZE
    ensures ValidHeader(Prepared(frame, totallen), totallen)
    ensures SameOutsideRewrite(Prepared(frame, totallen), frame)
  {
    FieldsOfPrepared(frame, totallen);
    PreparedWords(frame, totallen);
    ChecksumCloses(HostWords(Blanked(frame, totallen)[ETHER_HDR_SIZE..HEADERS_SIZE]), 5);
    var header := Prepared(frame, totallen)[ETHER_HDR_SIZE..HEADERS_SIZE];
    SwappedWords(header);
    ByteOrderIndependence(HostWords(header));
  }

  lemma PrefixKeepsHeader(frame: seq<byte>, n: nat, totallen: word)
    requires HEADERS_SIZE <= n <= |frame| && ValidHeader(frame, totallen)
    ensures ValidHeader(frame[..n], totallen)
  {
    assert frame[..n][ETHER_HDR_SIZE..HEADERS_SIZE] == frame[ETHER_HDR_SIZE..HEADERS_SIZE];
  }

  /** The header checksum bytes on the wire are those of the network-order checksum. */
  lemma PreparedChecksumOnTheWire(frame: seq<byte>, totallen: word)
    requires |frame| >= HEADERS_SIZE
    ensures var out := Prepared(frame, totallen);
            WordAt(out, 24) == WireChecksum(Blanked(frame, totallen)[ETHER_HDR_SIZE..HEADERS_SIZE])
  {
    NativeStoreIsWireChecksum(Blanked(frame, totallen)[ETHER_HDR_SIZE..HEADERS_SIZE]);
  }
}
