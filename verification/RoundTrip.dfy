/** Fragmenting a datagram and reassembling it: frames built as section 3.2 of RFC 791 says, and what becomes of them. */
module RoundTrip {
  import opened Bytes
  import opened IpHeader
  import opened Lists
  import opened Datagram
  import opened Split
  import opened Reassembly
  import opened ReassemblyRuns

  const MAX_PAYLOAD := 1480

  function FlagOffset(offset: nat, more: bool): word
    requires offset < 0x2000
  {
    if more then 0x2000 + offset else offset
  }

  /** The frame of one fragment: Ethernet header, a header without options, and the payload. */
  function Frame(key: Key, ttl: byte, offset: nat, more: bool, payload: seq<byte>): (frame: seq<byte>)
    requires offset < 0x2000 && |payload| <= MAX_PAYLOAD
    ensures |frame| == HEADERS_SIZE + |payload|
  {
    Headers(key, ttl, FlagOffset(offset, more), IP_HDR_SIZE + |payload|) + payload
  }

  function Headers(key: Key, ttl: byte, flagOffset: word, total: word): (headers: seq<byte>)
    ensures |headers| == HEADERS_SIZE
  {
    [0, 0, 0, 0, 0, 0, 0, 0, 0, 0, 0, 0, 0x08, 0x00,
     0x45, 0, HighByte(total), LowByte(total), HighByte(key.id), LowByte(key.id), HighByte(flagOffset), LowByte(flagOffset),
     ttl, key.protocol, 0, 0,
     HighByte(key.source / 0x1_0000), LowByte(key.source / 0x1_0000),
     HighByte(key.source % 0x1_0000), LowByte(key.source % 0x1_0000),
     HighByte(key.dest / 0x1_0000), LowByte(key.dest / 0x1_0000),
     HighByte(key.dest % 0x1_0000), LowByte(key.dest % 0x1_0000)]
  }

  lemma HalvesOfLong(d: dword)
    ensures 0x1_0000 * BigEndian(HighByte(d / 0x1_0000), LowByte(d / 0x1_0000))
            + BigEndian(HighByte(d % 0x1_0000), LowByte(d % 0x1_0000)) == d
  {
  }

  lemma FieldsOfHeaders(key: Key, ttl: byte, flagOffset: word, total: word)
    ensures var b := Headers(key, ttl, flagOffset, total);
            && WordAt(b, 12) == 0x0800 && b[14] == 0x45 && WordAt(b, 16) == total && WordAt(b, 18) == key.id
            && WordAt(b, 20) == flagOffset && b[22] == ttl && b[23] == key.protocol
            && LongAt(b, 26) == key.source && LongAt(b, 30) == key.dest
  {
    HalvesOfLong(key.source);
    HalvesOfLong(key.dest);
  }

  lemma FieldsOfFrame(key: Key, ttl: byte, offset: nat, more: bool, payload: seq<byte>)
    requires offset < 0x2000 && |payload| <= MAX_PAYLOAD
    ensures var b := Frame(key, ttl, offset, more, payload);
            && WordAt(b, 12) == 0x0800 && b[14] == 0x45 && WordAt(b, 16) == IP_HDR_SIZE + |payload|
            && WordAt(b, 18) == key.id && WordAt(b, 20) == FlagOffset(offset, more) && b[22] == ttl
            && b[23] == key.protocol && LongAt(b, 26) == key.source && LongAt(b, 30) == key.dest
            && b[HEADERS_SIZE..] == payload
  {
    FieldsOfHeaders(key, ttl, FlagOffset(offset, more), IP_HDR_SIZE + |payload|);
    HeadersFirst(Headers(key, ttl, FlagOffset(offset, more), IP_HDR_SIZE + |payload|), payload);
  }

  lemma HeadersFirst(headers: seq<byte>, payload: seq<byte>)
    requires |headers| == HEADERS_SIZE
    ensures var b := headers + payload;
            && b[HEADERS_SIZE..] == payload && b[14] == headers[14] && b[22] == headers[22] && b[23] == headers[23]
            && (forall i :: 0 <= i < HEADERS_SIZE - 1 ==> WordAt(b, i) == WordAt(headers, i))
            && LongAt(b, 26) == LongAt(headers, 26) && LongAt(b, 30) == LongAt(headers, 30)
  {
  }

  lemma FlagsOfFrame(offset: nat, more: bool)
    requires offset < 0x2000
    ensures OffsetBits(FlagOffset(offset, more)) == offset && (MoreFragmentsBit(FlagOffset(offset, more)) <==> more)
    ensures offset > 0 || more ==> FlagOffset(offset, more) % 0x4000 != 0
  {
  }

  /** Decoding the frame of a fragment gives the fragment back. */
  lemma DecodeOfFrame(r: Request, key: Key, ttl: byte, offset: nat, more: bool, payload: seq<byte>)
    requires offset < 0x2000 && |payload| <= MAX_PAYLOAD && (offset > 0 || more)
    requires r.buffer == Frame(key, ttl, offset, more, payload)
    ensures WellFormed(r)
    ensures var f := Decode(r);
            && f.key == key && f.ttl == ttl && f.offset == offset && (f.more <==> more) && f.payload == payload
            && |f.header| == IP_HDR_SIZE
  {
    FieldsOfFrame(key, ttl, offset, more, payload);
    FlagsOfFrame(offset, more);
  }

  /** The checks before reassembly let a fragment through whose total length does not cover its header, and what is copied
      for it would not stay inside the work buffer. */
  lemma ShortTotalIsAccepted(key: Key, ttl: byte)
    ensures var b := Headers(key, ttl, FlagOffset(1, true), 0);
            && Classify(b) == Fragment && (b[14] % 16) * 4 == IP_HDR_SIZE
            && CopyEnd(OffsetBits(WordAt(b, 20)), WordAt(b, 16)) > WORKBUF
  {
    FieldsOfHeaders(key, ttl, FlagOffset(1, true), 0);
    FlagsOfFrame(1, true);
    WritesStayInsideIff(1, 0);
  }

  // ---- A whole datagram

  ghost predicate FitsFrames(payload: seq<byte>, cuts: seq<nat>)
    requires IsSplit(payload, cuts)
  {
    forall i :: 0 <= i < |cuts| ==> PieceEnd(payload, cuts, i) - 8 * cuts[i] <= MAX_PAYLOAD
  }

  ghost predicate IsArrival(e: Event, key: Key, ttl: byte, payload: seq<byte>, cuts: seq<nat>, i: nat)
    requires IsSplit(payload, cuts) && FitsFrames(payload, cuts) && i < |cuts|
  {
    && e.Arrive? && e.poolOk && cuts[i] < 0x2000
    && e.request.buffer == Frame(key, ttl, cuts[i], i < |cuts| - 1, payload[8 * cuts[i]..PieceEnd(payload, cuts, i)])
  }

  lemma ArrivalBringsPiece(e: Event, key: Key, ttl: byte, payload: seq<byte>, cuts: seq<nat>, i: nat)
    requires IsSplit(payload, cuts) && FitsFrames(payload, cuts) && i < |cuts|
    requires IsArrival(e, key, ttl, payload, cuts, i)
    ensures ValidEvent(e) && ArrivalFor(e, key) && IsPiece(Decode(e.request), payload, cuts, i)
  {
    var part := payload[8 * cuts[i]..PieceEnd(payload, cuts, i)];
    assert i > 0 ==> cuts[i] > cuts[0];
    DecodeOfFrame(e.request, key, ttl, cuts[i], i < |cuts| - 1, part);
  }

  /** The pieces arrive in the order given by `order`, which may repeat them. */
  ghost predicate ArriveInOrder(es: seq<Event>, key: Key, ttl: byte, payload: seq<byte>, cuts: seq<nat>, order: seq<nat>)
    requires IsSplit(payload, cuts) && FitsFrames(payload, cuts)
  {
    && |es| == |order|
    && forall n :: 0 <= n < |order| ==> order[n] < |cuts| && IsArrival(es[n], key, ttl, payload, cuts, order[n])
  }

  lemma InOrderIsValid(es: seq<Event>, key: Key, ttl: byte, payload: seq<byte>, cuts: seq<nat>, order: seq<nat>)
    requires IsSplit(payload, cuts) && FitsFrames(payload, cuts) && ArriveInOrder(es, key, ttl, payload, cuts, order)
    ensures ValidEvents(es) && OnlyPieces(es, key, payload, cuts)
  {
    forall n | 0 <= n < |es|
      ensures ValidEvent(es[n]) && IsSomePiece(Decode(es[n].request), payload, cuts)
    {
      ArrivalBringsPiece(es[n], key, ttl, payload, cuts, order[n]);
    }
  }

  lemma InOrderPrefix(es: seq<Event>, key: Key, ttl: byte, payload: seq<byte>, cuts: seq<nat>, order: seq<nat>)
    requires IsSplit(payload, cuts) && FitsFrames(payload, cuts) && ArriveInOrder(es, key, ttl, payload, cuts, order)
    requires es != []
    ensures ArriveInOrder(es[..|es| - 1], key, ttl, payload, cuts, order[..|order| - 1])
  {
  }

  /** A fragment is at most one piece of the split. */
  lemma PieceIndex(f: Piece, payload: seq<byte>, cuts: seq<nat>, at: nat, i: nat)
    requires IsSplit(payload, cuts) && IsPiece(f, payload, cuts, at)
    ensures IsPiece(f, payload, cuts, i) <==> i == at
  {
    assert i < at ==> cuts[i] < cuts[at];
    assert at < i < |cuts| ==> cuts[at] < cuts[i];
  }

  lemma ArrivedCons(f: Piece, fs: seq<Piece>, payload: seq<byte>, cuts: seq<nat>, at: nat, i: nat)
    requires IsSplit(payload, cuts) && IsPiece(f, payload, cuts, at)
    ensures Arrived([f] + fs, payload, cuts, i) <==> i == at || Arrived(fs, payload, cuts, i)
  {
    var all := [f] + fs;
    PieceIndex(f, payload, cuts, at, i);
    assert all[0] == f;
    assert forall k :: 0 <= k < |fs| ==> all[k + 1] == fs[k];
    assert forall k :: 0 < k < |all| ==> all[k] == fs[k - 1];
  }

  lemma LastOrdered(order: seq<nat>, i: nat)
    requires order != []
    ensures i in order <==> i == order[|order| - 1] || i in order[..|order| - 1]
  {
    assert order == order[..|order| - 1] + [order[|order| - 1]];
  }

  /** A piece has arrived if and only if the order has got to it. */
  lemma {:induction false} ArrivedIffOrdered(es: seq<Event>, key: Key, ttl: byte, payload: seq<byte>, cuts: seq<nat>,
                                             order: seq<nat>, i: nat)
    requires IsSplit(payload, cuts) && FitsFrames(payload, cuts) && ArriveInOrder(es, key, ttl, payload, cuts, order)
    ensures ValidEvents(es) && |ArrivedFor(es, key)| == |es|
    ensures Arrived(ArrivedFor(es, key), payload, cuts, i) <==> i in order
  {
    InOrderIsValid(es, key, ttl, payload, cuts, order);
    if es != [] {
      var n := |es| - 1;
      InOrderPrefix(es, key, ttl, payload, cuts, order);
      ArrivedIffOrdered(es[..n], key, ttl, payload, cuts, order[..n], i);
      ArrivalBringsPiece(es[n], key, ttl, payload, cuts, order[n]);
      ArrivedCons(Decode(es[n].request), ArrivedFor(es[..n], key), payload, cuts, order[n], i);
      LastOrdered(order, i);
    }
  }

  /** While a piece is missing the datagram waits in the queue, from the first arrival on, undisturbed. */
  lemma {:induction false} WaitsForMissing(es: seq<Event>, key: Key, ttl: byte, payload: seq<byte>, cuts: seq<nat>,
                                           order: seq<nat>, missing: nat)
    requires IsSplit(payload, cuts) && FitsFrames(payload, cuts) && MiddlePiecesLarge(cuts)
    requires ArriveInOrder(es, key, ttl, payload, cuts, order) && missing < |cuts| && missing !in order
    ensures ValidEvents(es) && UndisturbedRun(INIT, es, key)
    ensures Tracks(Run(INIT, es), key, ArrivedFor(es, key)) && Run(INIT, es).delivered == []
  {
    InOrderIsValid(es, key, ttl, payload, cuts, order);
    if es != [] {
      var n := |es| - 1;
      InOrderPrefix(es, key, ttl, payload, cuts, order);
      WaitsForMissing(es[..n], key, ttl, payload, cuts, order[..n], missing);
      ArrivalBringsPiece(es[n], key, ttl, payload, cuts, order[n]);
      ArrivedIffOrdered(es[..n], key, ttl, payload, cuts, order[..n], missing);
      ArrivedIffOrdered(es, key, ttl, payload, cuts, order, missing);
      IncompleteUntilAllArrived(es, key, payload, cuts);
      ArrivedArePlaceable(INIT, es[..n], key);
      RunKeepsGood(INIT, es[..n]);
      NextIsUndisturbed(es, key);
      OwnArrival(Run(INIT, es[..n]), es[n].request, es[n].poolOk, es[n].clones, key, ArrivedFor(es[..n], key));
    }
  }

  lemma NextIsUndisturbed(es: seq<Event>, key: Key)
    requires ValidEvents(es) && es != [] && ArrivalFor(es[|es| - 1], key) && es[|es| - 1].poolOk
    requires Placeable(Decode(es[|es| - 1].request))
    requires Tracks(Run(INIT, es[..|es| - 1]), key, ArrivedFor(es[..|es| - 1], key))
    requires |ArrivedFor(es[..|es| - 1], key)| == |es| - 1
    ensures Undisturbed(Run(INIT, es[..|es| - 1]), es[|es| - 1], key)
  {
    if |es| == 1 {
      assert Run(INIT, es[..0]) == INIT;
    }
  }

  lemma MissingInEveryPrefix(es: seq<Event>, key: Key, ttl: byte, payload: seq<byte>, cuts: seq<nat>, order: seq<nat>)
    requires IsSplit(payload, cuts) && FitsFrames(payload, cuts) && ArriveInOrder(es, key, ttl, payload, cuts, order)
    requires order != [] && order[|order| - 1] !in order[..|order| - 1]
    ensures ValidEvents(es)
    ensures forall i :: 0 <= i < |es| ==> !AllArrived(ArrivedFor(es[..i], key), payload, cuts)
  {
    InOrderIsValid(es, key, ttl, payload, cuts, order);
    var missing := order[|order| - 1];
    forall i | 0 <= i < |es|
      ensures !AllArrived(ArrivedFor(es[..i], key), payload, cuts)
    {
      assert missing !in order[..i] by {
        assert forall k :: 0 <= k < i ==> order[..i][k] == order[..|order| - 1][k];
      }
      ArrivedIffOrdered(es[..i], key, ttl, payload, cuts, order[..i], missing);
    }
  }

  /** Up to and including the arrival of the last missing piece nothing is disturbed, and nothing has been delivered
      before it. */
  lemma CompletionIsUndisturbed(es: seq<Event>, key: Key, ttl: byte, payload: seq<byte>, cuts: seq<nat>, order: seq<nat>)
    requires IsSplit(payload, cuts) && FitsFrames(payload, cuts) && MiddlePiecesLarge(cuts)
    requires ArriveInOrder(es, key, ttl, payload, cuts, order)
    requires order != [] && order[|order| - 1] !in order[..|order| - 1]
    ensures ValidEvents(es) && UndisturbedRun(INIT, es, key) && Run(INIT, es[..|es| - 1]).delivered == []
  {
    var n := |es| - 1;
    InOrderIsValid(es, key, ttl, payload, cuts, order);
    InOrderPrefix(es, key, ttl, payload, cuts, order);
    WaitsForMissing(es[..n], key, ttl, payload, cuts, order[..n], order[n]);
    ArrivalBringsPiece(es[n], key, ttl, payload, cuts, order[n]);
    ArrivedIffOrdered(es[..n], key, ttl, payload, cuts, order[..n], order[n]);
    NextIsUndisturbed(es, key);
  }

  ghost predicate MentionsAll(order: seq<nat>, pieces: nat) {
    forall i :: 0 <= i < pieces ==> i in order
  }

  lemma AllArriveInOrder(es: seq<Event>, key: Key, ttl: byte, payload: seq<byte>, cuts: seq<nat>, order: seq<nat>)
    requires IsSplit(payload, cuts) && FitsFrames(payload, cuts) && ArriveInOrder(es, key, ttl, payload, cuts, order)
    requires MentionsAll(order, |cuts|)
    ensures ValidEvents(es) && AllArrived(ArrivedFor(es, key), payload, cuts)
  {
    InOrderIsValid(es, key, ttl, payload, cuts, order);
    forall i | 0 <= i < |cuts|
      ensures Arrived(ArrivedFor(es, key), payload, cuts, i)
    {
      ArrivedIffOrdered(es, key, ttl, payload, cuts, order, i);
    }
  }

  lemma OneDelivery(es: seq<Event>, e: Event, key: Key, payload: seq<byte>, cuts: seq<nat>)
    requires ValidEvents(es + [e]) && UndisturbedRun(INIT, es + [e], key)
    requires IsSplit(payload, cuts) && MiddlePiecesLarge(cuts) && OnlyPieces(es + [e], key, payload, cuts)
    requires forall i :: 0 <= i <= |es| ==> !AllArrived(ArrivedFor((es + [e])[..i], key), payload, cuts)
    requires AllArrived(ArrivedFor(es + [e], key), payload, cuts)
    ensures ValidEvents(es)
    ensures Run(INIT, es).delivered == [] ==>
              var delivered := Run(INIT, es + [e]).delivered;
              |delivered| == 1 && delivered[0].key == key && HoldsPayload(delivered[0], payload)
    ensures !InQueue(Run(INIT, es + [e]), key)
  {
    ExactReassembly(INIT, es, e, key, payload, cuts);
  }

  /** Round trip. Cut any payload into pieces that fit frames, the middle ones of at least 24 bytes; put them on the wire
      in any order, repeating them at will. When the last one still missing arrives, and not before, one datagram is
      delivered, and it holds the payload. */
  lemma FragmentAndReassemble(es: seq<Event>, key: Key, ttl: byte, payload: seq<byte>, cuts: seq<nat>, order: seq<nat>)
    requires IsSplit(payload, cuts) && FitsFrames(payload, cuts) && MiddlePiecesLarge(cuts)
    requires ArriveInOrder(es, key, ttl, payload, cuts, order)
    requires order != [] && order[|order| - 1] !in order[..|order| - 1] && MentionsAll(order, |cuts|)
    ensures ValidEvents(es) && Run(INIT, es[..|es| - 1]).delivered == []
    ensures var delivered := Run(INIT, es).delivered;
            |delivered| == 1 && delivered[0].key == key && HoldsPayload(delivered[0], payload)
    ensures !InQueue(Run(INIT, es), key)
  {
    FrontAndLast(es);
    InOrderIsValid(es, key, ttl, payload, cuts, order);
    CompletionIsUndisturbed(es, key, ttl, payload, cuts, order);
    AllArriveInOrder(es, key, ttl, payload, cuts, order);
    MissingInEveryPrefix(es, key, ttl, payload, cuts, order);
    OneDelivery(es[..|es| - 1], es[|es| - 1], key, payload, cuts);
  }

  // ---- Amid ticks of the ageing thread

  /** Frames of the pieces arrive, in any order and as often as one likes, and the ageing thread ticks in between. */
  ghost predicate ArriveAmidTicks(es: seq<Event>, key: Key, ttl: byte, payload: seq<byte>, cuts: seq<nat>)
    requires IsSplit(payload, cuts) && FitsFrames(payload, cuts)
  {
    forall n :: 0 <= n < |es| ==> es[n].Tick? || IsSomeArrival(es[n], key, ttl, payload, cuts)
  }

  ghost predicate IsSomeArrival(e: Event, key: Key, ttl: byte, payload: seq<byte>, cuts: seq<nat>)
    requires IsSplit(payload, cuts) && FitsFrames(payload, cuts)
  {
    exists i: nat :: i < |cuts| && IsArrival(e, key, ttl, payload, cuts, i)
  }

  lemma SomeArrivalBringsPiece(e: Event, key: Key, ttl: byte, payload: seq<byte>, cuts: seq<nat>) returns (i: nat)
    requires IsSplit(payload, cuts) && FitsFrames(payload, cuts) && IsSomeArrival(e, key, ttl, payload, cuts)
    ensures ValidEvent(e) && ArrivalFor(e, key) && e.poolOk && Decode(e.request).ttl == ttl
    ensures i < |cuts| && IsPiece(Decode(e.request), payload, cuts, i)
  {
    i :| i < |cuts| && IsArrival(e, key, ttl, payload, cuts, i);
    ArrivalBringsPiece(e, key, ttl, payload, cuts, i);
    var part := payload[8 * cuts[i]..PieceEnd(payload, cuts, i)];
    DecodeOfFrame(e.request, key, ttl, cuts[i], i < |cuts| - 1, part);
  }

  lemma AmidTicksIsValid(es: seq<Event>, key: Key, ttl: byte, payload: seq<byte>, cuts: seq<nat>)
    requires IsSplit(payload, cuts) && FitsFrames(payload, cuts) && ArriveAmidTicks(es, key, ttl, payload, cuts)
    ensures ValidEvents(es) && OnlyPieces(es, key, payload, cuts)
  {
    forall n | 0 <= n < |es|
      ensures ValidEvent(es[n])
      ensures ArrivalFor(es[n], key) ==> IsSomePiece(Decode(es[n].request), payload, cuts)
    {
      if !es[n].Tick? {
        var i := SomeArrivalBringsPiece(es[n], key, ttl, payload, cuts);
      }
    }
  }

  /** The datagram is alone in the queue, and has lost one unit of TTL at most for each tick. */
  ghost predicate Alone(s: State, key: Key, ttl: byte, ticks: nat, fs: seq<Piece>) {
    && s.delivered == [] && s.loaned == []
    && (fs == [] ==> s.queue == [])
    && (fs != [] ==>
          && |s.queue| == 1 && s.queue[0].key == key && s.queue[0].fragments == fs
          && s.queue[0].ttl + ticks >= ttl)
  }

  lemma TickLeavesAlone(s: State, key: Key, ttl: byte, ticks: nat, fs: seq<Piece>)
    requires Good(s) && Alone(s, key, ttl, ticks, fs) && ticks < ttl
    ensures Alone(Age(s), key, ttl, ticks + 1, fs) && Undisturbed(s, Tick, key)
  {
    if fs != [] {
      var d := s.queue[0];
      var older := s.queue[0 := d.(ttl := d.ttl - 1)];
      assert Scan(s.queue, 0) == Scan(older, 1) && Scan(older, 1).queue == older;
      assert older[0].key == key;
    }
  }

  lemma ArrivalLeavesAlone(s: State, e: Event, key: Key, ttl: byte, ticks: nat, fs: seq<Piece>)
    requires Good(s) && Alone(s, key, ttl, ticks, fs) && ValidEvent(e) && ArrivalFor(e, key) && e.poolOk
    requires Placeable(Decode(e.request)) && Decode(e.request).ttl == ttl
    requires AllPlaceable([Decode(e.request)] + fs) && !Complete([Decode(e.request)] + fs)
    ensures Alone(Step(s, e), key, ttl, ticks, [Decode(e.request)] + fs) && Undisturbed(s, e, key)
  {
    var f := Decode(e.request);
    FindInQueue(s, key);
    if fs == [] {
      assert [f] + fs == [f];
    } else {
      assert s.queue[0].key == key;
      MergeIsFaithful(s.queue[0], f);
      VerifyMeansComplete(Merge(s.queue[0], f));
    }
  }

  lemma MissingFromFront(es: seq<Event>, key: Key, payload: seq<byte>, cuts: seq<nat>, missing: nat)
    requires ValidEvents(es) && IsSplit(payload, cuts) && es != []
    requires !Arrived(ArrivedFor(es, key), payload, cuts, missing)
    ensures !Arrived(ArrivedFor(es[..|es| - 1], key), payload, cuts, missing)
  {
    StillMissing(es, |es| - 1, key, payload, cuts, missing);
  }

  /** While a piece is missing and there are no more ticks than the TTL, the datagram waits, undisturbed. */
  lemma {:induction false} WaitsAmidTicks(es: seq<Event>, key: Key, ttl: byte, payload: seq<byte>, cuts: seq<nat>, missing: nat)
    requires IsSplit(payload, cuts) && FitsFrames(payload, cuts) && MiddlePiecesLarge(cuts) && missing < |cuts|
    requires ArriveAmidTicks(es, key, ttl, payload, cuts) && Ticks(es) <= ttl
    requires ValidEvents(es) && !Arrived(ArrivedFor(es, key), payload, cuts, missing)
    ensures UndisturbedRun(INIT, es, key) && Alone(Run(INIT, es), key, ttl, Ticks(es), ArrivedFor(es, key))
  {
    if es != [] {
      var front, e := es[..|es| - 1], es[|es| - 1];
      MissingFromFront(es, key, payload, cuts, missing);
      WaitsAmidTicks(front, key, ttl, payload, cuts, missing);
      OneMoreAmidTicks(es, key, ttl, payload, cuts, missing);
    }
  }

  lemma OneMoreAmidTicks(es: seq<Event>, key: Key, ttl: byte, payload: seq<byte>, cuts: seq<nat>, missing: nat)
    requires IsSplit(payload, cuts) && FitsFrames(payload, cuts) && MiddlePiecesLarge(cuts) && missing < |cuts|
    requires ArriveAmidTicks(es, key, ttl, payload, cuts) && Ticks(es) <= ttl && es != []
    requires ValidEvents(es) && !Arrived(ArrivedFor(es, key), payload, cuts, missing)
    requires var front := es[..|es| - 1]; Alone(Run(INIT, front), key, ttl, Ticks(front), ArrivedFor(front, key))
    ensures Undisturbed(Run(INIT, es[..|es| - 1]), es[|es| - 1], key)
    ensures Alone(Run(INIT, es), key, ttl, Ticks(es), ArrivedFor(es, key))
  {
    var front, e := es[..|es| - 1], es[|es| - 1];
    RunKeepsGood(INIT, front);
    if e.Tick? {
      TickLeavesAlone(Run(INIT, front), key, ttl, Ticks(front), ArrivedFor(front, key));
    } else {
      NextArrivalFits(es, key, ttl, payload, cuts, missing);
      ArrivalLeavesAlone(Run(INIT, front), e, key, ttl, Ticks(front), ArrivedFor(front, key));
    }
  }

  lemma NextArrivalFits(es: seq<Event>, key: Key, ttl: byte, payload: seq<byte>, cuts: seq<nat>, missing: nat)
    requires IsSplit(payload, cuts) && FitsFrames(payload, cuts) && MiddlePiecesLarge(cuts) && missing < |cuts|
    requires ArriveAmidTicks(es, key, ttl, payload, cuts) && es != [] && !es[|es| - 1].Tick?
    requires ValidEvents(es) && !Arrived(ArrivedFor(es, key), payload, cuts, missing)
    ensures var e, before := es[|es| - 1], ArrivedFor(es[..|es| - 1], key);
            && ArrivalFor(e, key) && e.poolOk && Decode(e.request).ttl == ttl && Placeable(Decode(e.request))
            && ArrivedFor(es, key) == [Decode(e.request)] + before
            && AllPlaceable([Decode(e.request)] + before) && !Complete([Decode(e.request)] + before)
  {
    var i := SomeArrivalBringsPiece(es[|es| - 1], key, ttl, payload, cuts);
    AmidTicksIsValid(es, key, ttl, payload, cuts);
    IncompleteUntilAllArrived(es, key, payload, cuts);
  }

  /** Round trip, amid at most as many ticks as the frames' TTL: when the last missing piece arrives, and not before, one
      datagram is delivered, and it holds the payload. */
  lemma ReassembleAmidTicks(es: seq<Event>, e: Event, key: Key, ttl: byte, payload: seq<byte>, cuts: seq<nat>)
    requires IsSplit(payload, cuts) && FitsFrames(payload, cuts) && MiddlePiecesLarge(cuts)
    requires ArriveAmidTicks(es + [e], key, ttl, payload, cuts) && Ticks(es) <= ttl
    requires ValidEvents(es + [e]) && ValidEvents(es)
    requires !AllArrived(ArrivedFor(es, key), payload, cuts) && AllArrived(ArrivedFor(es + [e], key), payload, cuts)
    ensures Run(INIT, es).delivered == []
    ensures var delivered := Run(INIT, es + [e]).delivered;
            |delivered| == 1 && delivered[0].key == key && HoldsPayload(delivered[0], payload)
    ensures !InQueue(Run(INIT, es + [e]), key)
  {
    var missing :| 0 <= missing < |cuts| && !Arrived(ArrivedFor(es, key), payload, cuts, missing);
    var all := es + [e];
    assert all[..|es|] == es && all[|es|] == e;
    AmidTicksPrefix(es, e, key, ttl, payload, cuts);
    WaitsAmidTicks(es, key, ttl, payload, cuts, missing);
    LastIsUndisturbed(es, e, key, ttl, payload, cuts);
    MissingAllAlong(es, e, key, payload, cuts, missing);
    AmidTicksIsValid(all, key, ttl, payload, cuts);
    OneDelivery(es, e, key, payload, cuts);
  }

  lemma AmidTicksPrefix(es: seq<Event>, e: Event, key: Key, ttl: byte, payload: seq<byte>, cuts: seq<nat>)
    requires IsSplit(payload, cuts) && FitsFrames(payload, cuts) && ArriveAmidTicks(es + [e], key, ttl, payload, cuts)
    ensures ArriveAmidTicks(es, key, ttl, payload, cuts)
    ensures e.Tick? || IsSomeArrival(e, key, ttl, payload, cuts)
  {
    assert (es + [e])[|es|] == e;
    assert forall n :: 0 <= n < |es| ==> (es + [e])[n] == es[n];
  }

  lemma LastIsUndisturbed(es: seq<Event>, e: Event, key: Key, ttl: byte, payload: seq<byte>, cuts: seq<nat>)
    requires IsSplit(payload, cuts) && FitsFrames(payload, cuts)
    requires ArriveAmidTicks(es + [e], key, ttl, payload, cuts) && ValidEvents(es + [e]) && ValidEvents(es)
    requires UndisturbedRun(INIT, es, key) && ArrivedFor(es + [e], key) != ArrivedFor(es, key)
    requires Alone(Run(INIT, es), key, ttl, Ticks(es), ArrivedFor(es, key))
    ensures UndisturbedRun(INIT, es + [e], key)
  {
    var all := es + [e];
    assert all[..|es|] == es && all[|es|] == e;
    AmidTicksPrefix(es, e, key, ttl, payload, cuts);
    RunKeepsGood(INIT, es);
    var i := SomeArrivalBringsPiece(e, key, ttl, payload, cuts);
    if ArrivedFor(es, key) != [] {
      assert Run(INIT, es).queue[0].key == key;
    }
  }

  lemma MissingAllAlong(es: seq<Event>, e: Event, key: Key, payload: seq<byte>, cuts: seq<nat>, missing: nat)
    requires ValidEvents(es + [e]) && ValidEvents(es) && IsSplit(payload, cuts) && missing < |cuts|
    requires !Arrived(ArrivedFor(es, key), payload, cuts, missing)
    ensures forall i :: 0 <= i <= |es| ==> !AllArrived(ArrivedFor((es + [e])[..i], key), payload, cuts)
  {
    forall i | 0 <= i <= |es|
      ensures !AllArrived(ArrivedFor((es + [e])[..i], key), payload, cuts)
    {
      assert (es + [e])[..i] == es[..i];
      StillMissing(es, i, key, payload, cuts, missing);
    }
  }

  // ---- A datagram that is delivered too early

  /** A frame with piece `i` of the split arrives. */
  ghost function Sent(key: Key, ttl: byte, payload: seq<byte>, cuts: seq<nat>, i: nat): (e: Event)
    requires IsSplit(payload, cuts) && FitsFrames(payload, cuts) && i < |cuts| && cuts[i] < 0x2000
    ensures IsArrival(e, key, ttl, payload, cuts, i)
  {
    var part := payload[8 * cuts[i]..PieceEnd(payload, cuts, i)];
    Arrive(Request(i, Frame(key, ttl, cuts[i], i < |cuts| - 1, part), 0, NO_INFO), true, 0)
  }

  lemma CutsFit(payload: seq<byte>, cuts: seq<nat>, i: nat)
    requires IsSplit(payload, cuts) && i < |cuts|
    ensures cuts[i] < 0x2000
  {
    assert i < |cuts| - 1 ==> cuts[i] < cuts[|cuts| - 1];
  }

  /** The pieces of the split as their frames are decoded. */
  ghost function SentPieces(key: Key, ttl: byte, payload: seq<byte>, cuts: seq<nat>): (pieces: seq<Piece>)
    requires IsSplit(payload, cuts) && FitsFrames(payload, cuts)
    ensures |pieces| == |cuts|
  {
    seq(|cuts|, i requires 0 <= i < |cuts| => SentPiece(key, ttl, payload, cuts, i))
  }

  ghost function SentPiece(key: Key, ttl: byte, payload: seq<byte>, cuts: seq<nat>, i: nat): (f: Piece)
    requires IsSplit(payload, cuts) && FitsFrames(payload, cuts) && i < |cuts|
    ensures IsPiece(f, payload, cuts, i)
  {
    CutsFit(payload, cuts, i);
    ArrivalBringsPiece(Sent(key, ttl, payload, cuts, i), key, ttl, payload, cuts, i);
    Decode(Sent(key, ttl, payload, cuts, i).request)
  }

  /** Piece `k` of those that are sent: all but piece `missing`. */
  function Other(k: nat, missing: nat): nat { if k < missing then k else k + 1 }

  lemma ArrivalOfOther(key: Key, ttl: byte, payload: seq<byte>, cuts: seq<nat>, missing: nat, k: nat) returns (e: Event)
    requires IsSplit(payload, cuts) && FitsFrames(payload, cuts) && missing < |cuts| && k < |cuts| - 1
    ensures ValidEvent(e) && ArrivalFor(e, key) && e.poolOk
    ensures Decode(e.request) == AllBut(SentPieces(key, ttl, payload, cuts), missing)[k]
    ensures IsPiece(Decode(e.request), payload, cuts, Other(k, missing))
  {
    var i := Other(k, missing);
    CutsFit(payload, cuts, i);
    e := Sent(key, ttl, payload, cuts, i);
    ArrivalBringsPiece(e, key, ttl, payload, cuts, i);
  }

  /** After some arrivals: the fragments `fs` wait in the queue and nothing has been delivered. */
  ghost predicate Waits(es: seq<Event>, key: Key, fs: seq<Piece>) {
    && ValidEvents(es) && ArrivedFor(es, key) == fs && |fs| == |es|
    && UndisturbedRun(INIT, es, key) && Tracks(Run(INIT, es), key, fs) && Run(INIT, es).delivered == []
  }

  /** One more fragment arrives. */
  lemma OneMore(es: seq<Event>, e: Event, key: Key, fs: seq<Piece>)
    requires Waits(es, key, fs) && AllPlaceable(fs)
    requires ValidEvent(e) && ArrivalFor(e, key) && e.poolOk && Placeable(Decode(e.request))
    ensures var all := [Decode(e.request)] + fs;
            && AllPlaceable(all) && ValidEvents(es + [e]) && ArrivedFor(es + [e], key) == all
            && UndisturbedRun(INIT, es + [e], key)
            && (!Complete(all) ==> Waits(es + [e], key, all))
            && (Complete(all) ==> DeliveredFrom([], Run(INIT, es + [e]).delivered, key, all))
  {
    var longer := es + [e];
    assert longer[..|es|] == es && longer[|es|] == e;
    NextIsUndisturbed(longer, key);
    RunKeepsGood(INIT, es);
    OwnArrival(Run(INIT, es), e.request, e.poolOk, e.clones, key, fs);
  }

  lemma OneMorePiece(es: seq<Event>, e: Event, key: Key, payload: seq<byte>, cuts: seq<nat>, i: nat)
    requires IsSplit(payload, cuts) && ValidEvents(es) && OnlyPieces(es, key, payload, cuts)
    requires ValidEvent(e) && e.Arrive? && IsPiece(Decode(e.request), payload, cuts, i)
    ensures ValidEvents(es + [e]) && OnlyPieces(es + [e], key, payload, cuts)
  {
  }

  lemma NothingWaits(key: Key)
    ensures Waits([], key, [])
  {
    assert Run(INIT, []) == INIT;
  }

  /** The pieces sent up to now: all but piece `missing`, from number `n` of them on. */
  ghost function SentDownTo(key: Key, ttl: byte, payload: seq<byte>, cuts: seq<nat>, missing: nat, n: nat): seq<Piece>
    requires IsSplit(payload, cuts) && FitsFrames(payload, cuts) && missing < |cuts| && n <= |cuts| - 1
  {
    AllBut(SentPieces(key, ttl, payload, cuts), missing)[n..]
  }

  lemma SentOneFurther(key: Key, ttl: byte, payload: seq<byte>, cuts: seq<nat>, missing: nat, n: nat)
    requires IsSplit(payload, cuts) && FitsFrames(payload, cuts) && missing < |cuts| && n < |cuts| - 1
    ensures [AllBut(SentPieces(key, ttl, payload, cuts), missing)[n]] + SentDownTo(key, ttl, payload, cuts, missing, n + 1)
         == SentDownTo(key, ttl, payload, cuts, missing, n)
  {
    var all := AllBut(SentPieces(key, ttl, payload, cuts), missing);
    HeadAndRest(all, n);
  }

  lemma NoFirstNotComplete(fs: seq<Piece>)
    requires AllPlaceable(fs) && forall i :: 0 <= i < |fs| ==> fs[i].offset > 0
    ensures !Complete(fs)
  {
    assert !Claimed(fs, 0);
  }

  lemma LaterPiecesStartLater(pieces: seq<Piece>, payload: seq<byte>, cuts: seq<nat>, i: nat, fs: seq<Piece>, n: nat)
    requires IsSplit(payload, cuts) && ArePiecesInOrder(pieces, payload, cuts) && 0 < i < |cuts| - 1
    requires 1 <= n <= |pieces| - 1 && fs == AllBut(pieces, i)[n..]
    ensures AllPlaceable(fs) && !Complete(fs)
  {
    forall k | 0 <= k < |fs|
      ensures Placeable(fs[k]) && fs[k].offset > 0
    {
      var j := if k + n < i then k + n else k + n + 1;
      assert fs[k] == pieces[j] && IsPiece(pieces[j], payload, cuts, j);
    }
    NoFirstNotComplete(fs);
  }

  lemma NotCompleteYet(key: Key, ttl: byte, payload: seq<byte>, cuts: seq<nat>, missing: nat, n: nat)
    requires IsSplit(payload, cuts) && FitsFrames(payload, cuts) && 0 < missing < |cuts| - 1 && 1 <= n <= |cuts| - 1
    ensures var fs := SentDownTo(key, ttl, payload, cuts, missing, n); AllPlaceable(fs) && !Complete(fs)
  {
    LaterPiecesStartLater(SentPieces(key, ttl, payload, cuts), payload, cuts, missing,
                          SentDownTo(key, ttl, payload, cuts, missing, n), n);
  }

  /** The frame of number `n` arrives after those behind it. */
  lemma SendNext(es: seq<Event>, key: Key, ttl: byte, payload: seq<byte>, cuts: seq<nat>, missing: nat, n: nat)
    returns (e: Event)
    requires IsSplit(payload, cuts) && FitsFrames(payload, cuts) && 0 < missing < |cuts| - 1 && n < |cuts| - 1
    requires Waits(es, key, SentDownTo(key, ttl, payload, cuts, missing, n + 1)) && OnlyPieces(es, key, payload, cuts)
    ensures ValidEvents(es + [e]) && OnlyPieces(es + [e], key, payload, cuts)
    ensures var all := SentDownTo(key, ttl, payload, cuts, missing, n);
            && AllPlaceable(all) && ArrivedFor(es + [e], key) == all
            && (!Complete(all) ==> Waits(es + [e], key, all))
            && (Complete(all) ==> DeliveredFrom([], Run(INIT, es + [e]).delivered, key, all))
  {
    e := ArrivalOfOther(key, ttl, payload, cuts, missing, n);
    NotCompleteYet(key, ttl, payload, cuts, missing, n + 1);
    OneMore(es, e, key, SentDownTo(key, ttl, payload, cuts, missing, n + 1));
    OneMorePiece(es, e, key, payload, cuts, Other(n, missing));
    SentOneFurther(key, ttl, payload, cuts, missing, n);
  }

  /** All pieces but one arrive, the last one first; until the very first piece comes the datagram waits. */
  lemma {:induction false} SendDownTo(key: Key, ttl: byte, payload: seq<byte>, cuts: seq<nat>, missing: nat, n: nat)
    returns (es: seq<Event>)
    requires IsSplit(payload, cuts) && FitsFrames(payload, cuts) && 0 < missing < |cuts| - 1 && 1 <= n <= |cuts| - 1
    ensures Waits(es, key, SentDownTo(key, ttl, payload, cuts, missing, n)) && OnlyPieces(es, key, payload, cuts)
    decreases |cuts| - n
  {
    es := [];
    if n == |cuts| - 1 {
      NothingWaits(key);
    } else {
      es := SendDownTo(key, ttl, payload, cuts, missing, n + 1);
      var e := SendNext(es, key, ttl, payload, cuts, missing, n);
      NotCompleteYet(key, ttl, payload, cuts, missing, n);
      es := es + [e];
    }
  }

  lemma MissingBytesAreZero(fs: seq<Piece>, payload: seq<byte>, cuts: seq<nat>, i: nat, p: nat)
    requires IsSplit(payload, cuts) && AllPieces(fs, payload, cuts) && AllPlaceable(fs) && i < |cuts|
    requires !Arrived(fs, payload, cuts, i) && 8 * cuts[i] <= p < PieceEnd(payload, cuts, i)
    ensures ByteAt(fs, p) == 0
  {
    if fs != [] {
      assert IsSomePiece(fs[0], payload, cuts);
      var j :| IsPiece(fs[0], payload, cuts, j);
      PiecesApart(payload, cuts, i, j, p);
      MissingFromRest(fs, payload, cuts, i);
      MissingBytesAreZero(fs[1..], payload, cuts, i, p);
    }
  }

  lemma MissingFromRest(fs: seq<Piece>, payload: seq<byte>, cuts: seq<nat>, i: nat)
    requires IsSplit(payload, cuts) && fs != [] && AllPieces(fs, payload, cuts) && AllPlaceable(fs)
    requires !Arrived(fs, payload, cuts, i)
    ensures !IsPiece(fs[0], payload, cuts, i)
    ensures AllPieces(fs[1..], payload, cuts) && AllPlaceable(fs[1..]) && !Arrived(fs[1..], payload, cuts, i)
  {
    assert forall k :: 0 <= k < |fs| - 1 ==> fs[1..][k] == fs[k + 1];
  }

  lemma PiecesApart(payload: seq<byte>, cuts: seq<nat>, i: nat, j: nat, p: nat)
    requires IsSplit(payload, cuts) && i < |cuts| && j < |cuts| && i != j
    requires 8 * cuts[i] <= p < PieceEnd(payload, cuts, i)
    ensures !(8 * cuts[j] <= p < PieceEnd(payload, cuts, j))
  {
    if i < j {
      CutsOrdered(payload, cuts, i + 1, j);
    } else {
      CutsOrdered(payload, cuts, j + 1, i);
    }
  }

  /** The bytes of piece `i` are zeros. */
  ghost predicate Blank(buffer: seq<byte>, payload: seq<byte>, cuts: seq<nat>, i: nat)
    requires IsSplit(payload, cuts) && i < |cuts| && |buffer| == HEADERS_SIZE + |payload|
  {
    forall k :: HEADERS_SIZE + 8 * cuts[i] <= k < HEADERS_SIZE + PieceEnd(payload, cuts, i) ==> buffer[k] == 0
  }

  /** A delivery of some pieces of the split, without piece `i`. */
  ghost predicate Misses(v: Delivery, key: Key, payload: seq<byte>, cuts: seq<nat>, i: nat)
    requires IsSplit(payload, cuts) && i < |cuts|
  {
    && v.key == key && AllPieces(v.fragments, payload, cuts) && !Arrived(v.fragments, payload, cuts, i)
    && |v.buffer| == HEADERS_SIZE + |payload| && Blank(v.buffer, payload, cuts, i)
  }

  lemma MissedDelivery(v: Delivery, payload: seq<byte>, cuts: seq<nat>, i: nat)
    requires IsSplit(payload, cuts) && i < |cuts| && DeliveryIsSound(v)
    requires AllPieces(v.fragments, payload, cuts) && !Arrived(v.fragments, payload, cuts, i)
    ensures |v.buffer| == HEADERS_SIZE + |payload| && Blank(v.buffer, payload, cuts, i)
  {
    LengthOfPieces(v.fragments, payload, cuts);
    forall k | HEADERS_SIZE + 8 * cuts[i] <= k < HEADERS_SIZE + PieceEnd(payload, cuts, i)
      ensures v.buffer[k] == 0
    {
      MissingBytesAreZero(v.fragments, payload, cuts, i, k - HEADERS_SIZE);
      assert v.buffer[HEADERS_SIZE + (k - HEADERS_SIZE)] == ByteAt(v.fragments, k - HEADERS_SIZE);
    }
  }

  /** Early delivery. For every payload and every split with a middle piece of less than 24 bytes there are frames, none of
      them that piece, whose arrival delivers the datagram; where the piece belongs the delivery holds zeros. */
  lemma ShortPieceIsMissed(key: Key, ttl: byte, payload: seq<byte>, cuts: seq<nat>, i: nat) returns (es: seq<Event>)
    requires IsSplit(payload, cuts) && FitsFrames(payload, cuts)
    requires 0 < i < |cuts| - 1 && cuts[i + 1] < cuts[i] + 3
    ensures ValidEvents(es) && OnlyPieces(es, key, payload, cuts)
    ensures var delivered := Run(INIT, es).delivered; |delivered| == 1 && Misses(delivered[0], key, payload, cuts, i)
  {
    var pieces := SentPieces(key, ttl, payload, cuts);
    es := SendDownTo(key, ttl, payload, cuts, i, 1);
    var e := SendNext(es, key, ttl, payload, cuts, i, 0);
    es := es + [e];
    AllButMissesOne(pieces, payload, cuts, i);
    OthersAreAllBut(pieces, payload, cuts, i);
    SmallMiddlePieceIsNotMissed(AllBut(pieces, i), payload, cuts, i);
    assert SentDownTo(key, ttl, payload, cuts, i, 0) == AllBut(pieces, i);
    OnlyDelivery(es, key, payload, cuts, i);
  }

  lemma OnlyDelivery(es: seq<Event>, key: Key, payload: seq<byte>, cuts: seq<nat>, i: nat)
    requires IsSplit(payload, cuts) && i < |cuts| && ValidEvents(es)
    requires AllPieces(ArrivedFor(es, key), payload, cuts) && !Arrived(ArrivedFor(es, key), payload, cuts, i)
    requires DeliveredFrom([], Run(INIT, es).delivered, key, ArrivedFor(es, key))
    ensures Misses(Run(INIT, es).delivered[0], key, payload, cuts, i)
  {
    RunKeepsGood(INIT, es);
    MissedDelivery(Run(INIT, es).delivered[0], payload, cuts, i);
  }

  /** The smallest case: 24 bytes in three frames of 8; the last and the first are enough. */
  lemma EarlyDeliveryHappens(key: Key, ttl: byte) returns (es: seq<Event>, payload: seq<byte>, cuts: seq<nat>)
    ensures IsSplit(payload, cuts) && |payload| == 24 && |cuts| == 3
    ensures ValidEvents(es) && OnlyPieces(es, key, payload, cuts)
    ensures var delivered := Run(INIT, es).delivered;
            |delivered| == 1 && delivered[0].key == key && !HoldsPayload(delivered[0], payload)
  {
    payload, cuts := seq(24, k => 1), [0, 1, 2];
    es := ShortPieceIsMissed(key, ttl, payload, cuts, 1);
    BlankIsNotThePayload(Run(INIT, es).delivered[0], payload, cuts);
  }

  lemma BlankIsNotThePayload(v: Delivery, payload: seq<byte>, cuts: seq<nat>)
    requires IsSplit(payload, cuts) && cuts == [0, 1, 2] && |payload| == 24 && payload[8] == 1
    requires |v.buffer| == HEADERS_SIZE + 24 && Blank(v.buffer, payload, cuts, 1)
    ensures !HoldsPayload(v, payload)
  {
    assert v.buffer[HEADERS_SIZE + 8] == 0;
    assert v.buffer[HEADERS_SIZE..][8] == v.buffer[HEADERS_SIZE + 8];
  }
}
