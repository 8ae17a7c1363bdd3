/** What reassembly promises over whole runs: exact delivery whatever the order of arrival, and bounded lifetime. */
module ReassemblyRuns {
  import opened Bytes
  import opened IpHeader
  import opened Datagram
  import opened Lists
  import opened Split
  import opened Reassembly

  // ---- Following one datagram through a run

  ghost predicate InQueue(s: State, key: Key) {
    exists k :: 0 <= k < |s.queue| && s.queue[k].key == key
  }

  /** The queue holds exactly the fragments `fs` for the key, most recent first. */
  ghost predicate Tracks(s: State, key: Key, fs: seq<Piece>) {
    if fs == [] then !InQueue(s, key)
    else exists k :: 0 <= k < |s.queue| && s.queue[k].key == key && s.queue[k].fragments == fs
  }

  ghost predicate ArrivalFor(e: Event, key: Key)
    requires ValidEvent(e)
  {
    e.Arrive? && Decode(e.request).key == key
  }

  /** Nothing outside the datagram's own fragments disturbs it: its fragments can be placed, a work buffer is there
      when its first fragment comes, and the ageing thread does not expire it. Other datagrams, losses and clients
      are unrestricted. */
  ghost predicate Undisturbed(s: State, e: Event, key: Key)
    requires AllShaped(s.queue) && ValidEvent(e)
  {
    && (ArrivalFor(e, key) ==> Placeable(Decode(e.request)) && (!InQueue(s, key) ==> BufferAvailable(s, e.poolOk)))
    && (e.Tick? && InQueue(s, key) ==> InQueue(Age(s), key))
  }

  ghost predicate UndisturbedRun(s: State, es: seq<Event>, key: Key)
    requires AllShaped(s.queue) && ValidEvents(es)
  {
    es == [] || (UndisturbedRun(s, es[..|es| - 1], key) && Undisturbed(Run(s, es[..|es| - 1]), es[|es| - 1], key))
  }

  /** The datagram's fragments that arrive in a run, most recent first. */
  ghost function ArrivedFor(es: seq<Event>, key: Key): seq<Piece>
    requires ValidEvents(es)
  {
    if es == [] then []
    else
      var before := ArrivedFor(es[..|es| - 1], key);
      if ArrivalFor(es[|es| - 1], key) then [Decode(es[|es| - 1].request)] + before else before
  }

  lemma {:induction false} ArrivedArePlaceable(s: State, es: seq<Event>, key: Key)
    requires AllShaped(s.queue) && ValidEvents(es) && UndisturbedRun(s, es, key)
    ensures AllPlaceable(ArrivedFor(es, key))
  {
    if es != [] {
      ArrivedArePlaceable(s, es[..|es| - 1], key);
    }
  }

  /** The log of deliveries grew by datagrams with other keys only. */
  ghost predicate OthersDelivered(before: seq<Delivery>, after: seq<Delivery>, key: Key) {
    before <= after && forall i :: |before| <= i < |after| ==> after[i].key != key
  }

  /** The log of deliveries grew by one: this datagram, from these fragments, in the direction of the last to arrive. */
  ghost predicate DeliveredFrom(before: seq<Delivery>, after: seq<Delivery>, key: Key, fs: seq<Piece>) {
    && |after| == |before| + 1 && before <= after && after[|before|].key == key && after[|before|].fragments == fs
    && fs != [] && after[|before|].direction == fs[0].request.direction
  }

  lemma FindInQueue(s: State, key: Key)
    ensures Find(s.queue, key, 0) < |s.queue| <==> InQueue(s, key)
  {
  }

  /** A fragment of the tracked datagram: delivered at once if it completes the datagram, added otherwise. */
  lemma OwnArrival(s: State, r: Request, poolOk: bool, clones: nat, key: Key, fs: seq<Piece>)
    requires Good(s) && WellFormed(r) && Tracks(s, key, fs) && AllPlaceable(fs)
    requires Decode(r).key == key && Undisturbed(s, Arrive(r, poolOk, clones), key)
    ensures var s', all := Analyze(s, r, poolOk, clones), [Decode(r)] + fs;
            && AllPlaceable(all)
            && (Complete(all) ==> DeliveredFrom(s.delivered, s'.delivered, key, all) && !InQueue(s', key))
            && (!Complete(all) ==> s'.delivered == s.delivered && Tracks(s', key, all))
  {
    var f := Decode(r);
    var k := Find(s.queue, key, 0);
    FindInQueue(s, key);
    if k < |s.queue| {
      assert s.queue[k].fragments == fs;
      OwnQueued(s, k, f, clones);
    } else {
      assert fs == [] && [f] + fs == [f];
      OwnNew(s, f, poolOk);
    }
  }

  lemma OwnQueued(s: State, k: nat, f: Piece, clones: nat)
    requires Good(s) && k < |s.queue| && s.queue[k].key == f.key && Placeable(f)
    ensures var s', all := AnalyzeQueued(s, k, f, clones), [f] + s.queue[k].fragments;
            && AllPlaceable(all)
            && (Complete(all) ==> DeliveredFrom(s.delivered, s'.delivered, f.key, all) && !InQueue(s', f.key))
            && (!Complete(all) ==> s'.delivered == s.delivered && Tracks(s', f.key, all))
  {
    var d' := Merge(s.queue[k], f);
    MergeIsFaithful(s.queue[k], f);
    VerifyMeansComplete(d');
    if !Complete(d'.fragments) {
      assert s.queue[k := d'][k] == d';
    }
  }

  lemma OwnNew(s: State, f: Piece, poolOk: bool)
    requires Good(s) && !InQueue(s, f.key) && Placeable(f) && BufferAvailable(s, poolOk)
    ensures var s' := AnalyzeNew(s, f, poolOk);
            s'.delivered == s.delivered && Tracks(s', f.key, [f]) && !Complete([f])
  {
    var s' := AnalyzeNew(s, f, poolOk);
    SingleIsNotComplete(f);
    assert s'.queue[|s.queue|].fragments == [f] + [] == [f];
  }

  /** A fragment of another datagram leaves the tracked one alone. */
  lemma OtherArrival(s: State, r: Request, poolOk: bool, clones: nat, key: Key, fs: seq<Piece>)
    requires Good(s) && WellFormed(r) && Tracks(s, key, fs) && Decode(r).key != key
    ensures var s' := Analyze(s, r, poolOk, clones);
            Tracks(s', key, fs) && OthersDelivered(s.delivered, s'.delivered, key)
  {
    var f := Decode(r);
    if |f.header| <= IP_HDR_SIZE {
      var k := Find(s.queue, f.key, 0);
      if k < |s.queue| {
        OtherQueued(s, k, f, clones, key, fs);
      } else {
        OtherNew(s, f, poolOk, key, fs);
      }
    }
  }

  lemma TracksRemove(s: State, s': State, k: nat, key: Key, fs: seq<Piece>)
    requires k < |s.queue| && s.queue[k].key != key && s'.queue == RemoveAt(s.queue, k) && Tracks(s, key, fs)
    ensures Tracks(s', key, fs)
  {
    if fs != [] {
      var j :| 0 <= j < |s.queue| && s.queue[j].key == key && s.queue[j].fragments == fs;
      assert s'.queue[if j < k then j else j - 1] == s.queue[j];
    }
  }

  lemma TracksUpdate(s: State, s': State, k: nat, d: Datagram, key: Key, fs: seq<Piece>)
    requires k < |s.queue| && s.queue[k].key != key && d.key != key && s'.queue == s.queue[k := d] && Tracks(s, key, fs)
    ensures Tracks(s', key, fs)
  {
    if fs != [] {
      var j :| 0 <= j < |s.queue| && s.queue[j].key == key && s.queue[j].fragments == fs;
      assert s'.queue[j] == s.queue[j];
    }
  }

  lemma OtherQueued(s: State, k: nat, f: Piece, clones: nat, key: Key, fs: seq<Piece>)
    requires Good(s) && k < |s.queue| && s.queue[k].key == f.key != key && Tracks(s, key, fs)
    requires 8 * f.offset + f.total <= WORKBUFSIZE ==> Placeable(f)
    ensures var s' := AnalyzeQueued(s, k, f, clones);
            Tracks(s', key, fs) && OthersDelivered(s.delivered, s'.delivered, key)
  {
    var s' := AnalyzeQueued(s, k, f, clones);
    if |s'.queue| < |s.queue| {
      TracksRemove(s, s', k, key, fs);
    } else {
      TracksUpdate(s, s', k, Merge(s.queue[k], f), key, fs);
    }
  }

  lemma OtherNew(s: State, f: Piece, poolOk: bool, key: Key, fs: seq<Piece>)
    requires Good(s) && f.key != key && Tracks(s, key, fs)
    requires 8 * f.offset + f.total <= WORKBUFSIZE ==> Placeable(f)
    ensures var s' := AnalyzeNew(s, f, poolOk);
            Tracks(s', key, fs) && s'.delivered == s.delivered
  {
    var s' := AnalyzeNew(s, f, poolOk);
    if fs != [] {
      var j :| 0 <= j < |s.queue| && s.queue[j].key == key && s.queue[j].fragments == fs;
      assert s'.queue[j] == s.queue[j];
    }
  }

  /** A datagram that survives a tick was there before, with the same fragments. */
  lemma TickOrigin(s: State, j: nat) returns (k: nat)
    requires Good(s) && j < |Age(s).queue|
    ensures k < |s.queue| && Age(s).queue[j].key == s.queue[k].key && Age(s).queue[j].fragments == s.queue[k].fragments
  {
    var from := ScanAges(s.queue, 0);
    k := from[j];
    assert SameButTtl(Age(s).queue[j], s.queue[k]);
  }

  lemma TickTracks(s: State, key: Key, fs: seq<Piece>)
    requires Good(s) && Tracks(s, key, fs) && (InQueue(s, key) ==> InQueue(Age(s), key))
    ensures Tracks(Age(s), key, fs) && Age(s).delivered == s.delivered
  {
    var s' := Age(s);
    if InQueue(s', key) {
      var j :| 0 <= j < |s'.queue| && s'.queue[j].key == key;
      var k := TickOrigin(s, j);
    }
  }

  lemma OtherEvent(s: State, e: Event, key: Key, fs: seq<Piece>)
    requires Good(s) && ValidEvent(e) && Tracks(s, key, fs) && Undisturbed(s, e, key) && !ArrivalFor(e, key)
    ensures Tracks(Step(s, e), key, fs) && OthersDelivered(s.delivered, Step(s, e).delivered, key)
  {
    match e
    case Arrive(r, poolOk, clones) => OtherArrival(s, r, poolOk, clones, key, fs);
    case Tick => TickTracks(s, key, fs);
    case CloneLoan(_) =>
    case ReleaseLoan(_) =>
  }

  /** As long as a datagram is not complete it is not delivered, and the queue holds exactly the fragments that
      arrived for it. */
  lemma {:induction false} NotDeliveredBefore(s: State, es: seq<Event>, key: Key)
    requires Good(s) && ValidEvents(es) && !InQueue(s, key) && UndisturbedRun(s, es, key)
    requires forall i :: 0 <= i <= |es| ==>
               AllPlaceable(ArrivedFor(es[..i], key)) && !Complete(ArrivedFor(es[..i], key))
    ensures Tracks(Run(s, es), key, ArrivedFor(es, key))
    ensures OthersDelivered(s.delivered, Run(s, es).delivered, key)
  {
    if es != [] {
      var init, e := es[..|es| - 1], es[|es| - 1];
      assert forall i :: 0 <= i <= |init| ==> es[..i] == init[..i];
      NotDeliveredBefore(s, init, key);
      RunKeepsGood(s, init);
      assert es[..|es|] == es && init[..|init|] == init;
      if ArrivalFor(e, key) {
        OwnArrival(Run(s, init), e.request, e.poolOk, e.clones, key, ArrivedFor(init, key));
      } else {
        OtherEvent(Run(s, init), e, key, ArrivedFor(init, key));
      }
    }
  }

  /** A datagram is delivered exactly at the arrival that completes it, whatever the order of arrival, the
      duplicates, and everything that happens to other datagrams meanwhile. */
  lemma DeliveredAtCompletion(s: State, es: seq<Event>, e: Event, key: Key)
    requires Good(s) && ValidEvents(es + [e]) && !InQueue(s, key) && UndisturbedRun(s, es + [e], key)
    requires forall i :: 0 <= i <= |es| ==>
               AllPlaceable(ArrivedFor(es[..i], key)) && !Complete(ArrivedFor(es[..i], key))
    requires AllPlaceable(ArrivedFor(es + [e], key)) && Complete(ArrivedFor(es + [e], key))
    ensures ValidEvents(es)
    ensures OthersDelivered(s.delivered, Run(s, es).delivered, key)
    ensures DeliveredFrom(Run(s, es).delivered, Run(s, es + [e]).delivered, key, ArrivedFor(es + [e], key))
    ensures !InQueue(Run(s, es + [e]), key)
  {
    var all := es + [e];
    assert all[..|all| - 1] == es && es[..|es|] == es;
    NotDeliveredBefore(s, es, key);
    RunKeepsGood(s, es);
    OwnArrival(Run(s, es), e.request, e.poolOk, e.clones, key, ArrivedFor(es, key));
  }

  // ---- Exact reassembly of a split datagram

  /** Every fragment that arrives for the key is a piece of the split, possibly a duplicate. */
  ghost predicate OnlyPieces(es: seq<Event>, key: Key, payload: seq<byte>, cuts: seq<nat>)
    requires ValidEvents(es) && IsSplit(payload, cuts)
  {
    forall i :: 0 <= i < |es| && ArrivalFor(es[i], key) ==> IsSomePiece(Decode(es[i].request), payload, cuts)
  }

  lemma {:induction false} ArrivedAreThePieces(es: seq<Event>, key: Key, payload: seq<byte>, cuts: seq<nat>)
    requires ValidEvents(es) && IsSplit(payload, cuts) && OnlyPieces(es, key, payload, cuts)
    ensures AllPieces(ArrivedFor(es, key), payload, cuts) && AllPlaceable(ArrivedFor(es, key))
  {
    if es != [] {
      ArrivedAreThePieces(es[..|es| - 1], key, payload, cuts);
    }
    PiecesPlaceable(ArrivedFor(es, key), payload, cuts);
  }

  /** After the Ethernet and IP headers the buffer is exactly the payload. */
  ghost predicate HoldsPayload(v: Delivery, payload: seq<byte>) {
    |v.buffer| == HEADERS_SIZE + |payload| && v.buffer[HEADERS_SIZE..] == payload
  }

  /** Exact reassembly. Split any payload on 8-byte boundaries so that the middle pieces bring at least 24 bytes
      each; let the pieces arrive in any order, with duplicates, among any traffic of other datagrams. Then nothing
      is delivered for the datagram until the last missing piece arrives, and at that arrival it is delivered, once,
      with exactly the payload after its headers. */
  lemma ExactReassembly(s: State, es: seq<Event>, e: Event, key: Key, payload: seq<byte>, cuts: seq<nat>)
    requires Good(s) && ValidEvents(es + [e]) && !InQueue(s, key) && UndisturbedRun(s, es + [e], key)
    requires IsSplit(payload, cuts) && MiddlePiecesLarge(cuts) && OnlyPieces(es + [e], key, payload, cuts)
    requires forall i :: 0 <= i <= |es| ==> !AllArrived(ArrivedFor((es + [e])[..i], key), payload, cuts)
    requires AllArrived(ArrivedFor(es + [e], key), payload, cuts)
    ensures ValidEvents(es)
    ensures OthersDelivered(s.delivered, Run(s, es).delivered, key)
    ensures var before, after := Run(s, es).delivered, Run(s, es + [e]).delivered;
            && DeliveredFrom(before, after, key, ArrivedFor(es + [e], key))
            && HoldsPayload(after[|before|], payload)
    ensures !InQueue(Run(s, es + [e]), key)
  {
    var all := es + [e];
    forall i | 0 <= i <= |es|
      ensures AllPlaceable(ArrivedFor(es[..i], key)) && !Complete(ArrivedFor(es[..i], key))
    {
      assert all[..i] == es[..i];
      IncompleteUntilAllArrived(es[..i], key, payload, cuts);
    }
    var fs := ArrivedFor(all, key);
    ArrivedAreThePieces(all, key, payload, cuts);
    AllArrivedIsComplete(fs, payload, cuts);
    DeliveredAtCompletion(s, es, e, key);
    RunKeepsGood(s, all);
    SoundDeliveryHoldsPayload(Run(s, all).delivered[|Run(s, es).delivered|], payload, cuts);
  }

  lemma IncompleteUntilAllArrived(es: seq<Event>, key: Key, payload: seq<byte>, cuts: seq<nat>)
    requires ValidEvents(es) && IsSplit(payload, cuts) && MiddlePiecesLarge(cuts) && OnlyPieces(es, key, payload, cuts)
    requires !AllArrived(ArrivedFor(es, key), payload, cuts)
    ensures AllPlaceable(ArrivedFor(es, key)) && !Complete(ArrivedFor(es, key))
  {
    var fs := ArrivedFor(es, key);
    ArrivedAreThePieces(es, key, payload, cuts);
    CompleteOnlyWhenAllArrived(fs, payload, cuts);
  }

  lemma SoundDeliveryHoldsPayload(v: Delivery, payload: seq<byte>, cuts: seq<nat>)
    requires DeliveryIsSound(v) && IsSplit(payload, cuts)
    requires AllPieces(v.fragments, payload, cuts) && AllArrived(v.fragments, payload, cuts)
    ensures HoldsPayload(v, payload)
  {
    LengthOfPieces(v.fragments, payload, cuts);
    forall p | 0 <= p < |payload|
      ensures v.buffer[HEADERS_SIZE + p] == payload[p]
    {
      PayloadRestored(v.fragments, payload, cuts, p);
    }
  }

  lemma {:induction false} ArrivedPrefix(es: seq<Event>, j: nat, key: Key) returns (n: nat)
    requires ValidEvents(es) && j <= |es|
    ensures n <= |ArrivedFor(es, key)| && ArrivedFor(es[..j], key) == ArrivedFor(es, key)[n..]
  {
    if j == |es| {
      assert es[..j] == es;
      n := 0;
    } else {
      var init := es[..|es| - 1];
      assert init[..j] == es[..j];
      n := ArrivedPrefix(init, j, key);
      if ArrivalFor(es[|es| - 1], key) {
        n := n + 1;
      }
    }
  }

  lemma {:induction false} UndisturbedPrefix(s: State, es: seq<Event>, n: nat, key: Key)
    requires AllShaped(s.queue) && ValidEvents(es) && n <= |es| && UndisturbedRun(s, es, key)
    ensures ValidEvents(es[..n]) && UndisturbedRun(s, es[..n], key)
  {
    if n == |es| {
      assert es[..n] == es;
    } else {
      assert es[..|es| - 1][..n] == es[..n];
      UndisturbedPrefix(s, es[..|es| - 1], n, key);
    }
  }

  /** The first `n` events complete the datagram. */
  ghost predicate CompleteAfter(es: seq<Event>, n: nat, key: Key)
    requires ValidEvents(es) && n <= |es|
  {
    AllPlaceable(ArrivedFor(es[..n], key)) && Complete(ArrivedFor(es[..n], key))
  }

  lemma FirstComplete(es: seq<Event>, key: Key) returns (n: nat)
    requires ValidEvents(es) && CompleteAfter(es, |es|, key)
    ensures n <= |es| && CompleteAfter(es, n, key) && forall j :: 0 <= j < n ==> !CompleteAfter(es, j, key)
  {
    n := 0;
    while !CompleteAfter(es, n, key)
      invariant n <= |es| && forall j :: 0 <= j < n ==> !CompleteAfter(es, j, key)
      decreases |es| - n
    {
      n := n + 1;
    }
  }

  /** The last arrival, and no earlier one, completes the datagram: it is delivered then. */
  lemma DeliveredAtEnd(s: State, es: seq<Event>, key: Key, payload: seq<byte>, cuts: seq<nat>)
    requires Good(s) && ValidEvents(es) && !InQueue(s, key) && UndisturbedRun(s, es, key)
    requires IsSplit(payload, cuts) && OnlyPieces(es, key, payload, cuts)
    requires es != [] && CompleteAfter(es, |es|, key) && forall j :: 0 <= j < |es| ==> !CompleteAfter(es, j, key)
    ensures DeliveredFrom(Run(s, es[..|es| - 1]).delivered, Run(s, es).delivered, key, ArrivedFor(es, key))
  {
    var front, e := es[..|es| - 1], es[|es| - 1];
    forall j | 0 <= j <= |front|
      ensures AllPlaceable(ArrivedFor(front[..j], key)) && !Complete(ArrivedFor(front[..j], key))
    {
      assert front[..j] == es[..j] && !CompleteAfter(es, j, key);
      ArrivedAreThePieces(es[..j], key, payload, cuts);
    }
    FrontAndLast(es);
    assert es[..|es|] == es;
    DeliveredAtCompletion(s, front, e, key);
  }

  /** If pieces of a split complete the datagram, it is delivered at the first arrival that does. */
  lemma DeliveredOnceComplete(s: State, es: seq<Event>, key: Key, payload: seq<byte>, cuts: seq<nat>) returns (n: nat)
    requires Good(s) && ValidEvents(es) && !InQueue(s, key) && UndisturbedRun(s, es, key)
    requires IsSplit(payload, cuts) && OnlyPieces(es, key, payload, cuts) && CompleteAfter(es, |es|, key)
    ensures 0 < n <= |es|
    ensures DeliveredFrom(Run(s, es[..n - 1]).delivered, Run(s, es[..n]).delivered, key, ArrivedFor(es[..n], key))
  {
    n := FirstComplete(es, key);
    assert ArrivedFor(es[..0], key) == [];
    UndisturbedPrefix(s, es, n, key);
    assert forall j :: 0 <= j <= n ==> es[..n][..j] == es[..j];
    assert forall j :: 0 <= j < n ==> CompleteAfter(es[..n], j, key) == CompleteAfter(es, j, key);
    DeliveredAtEnd(s, es[..n], key, payload, cuts);
  }

  /** Without the 24 bytes the promise fails: when the pieces other than a short middle one have arrived, in any order, with
      duplicates and among any other traffic, the datagram has been delivered as whole, although that piece never came. */
  lemma ShortPieceDeliveredEarly(s: State, es: seq<Event>, key: Key, payload: seq<byte>, cuts: seq<nat>, i: nat)
    returns (n: nat)
    requires Good(s) && ValidEvents(es) && !InQueue(s, key) && UndisturbedRun(s, es, key)
    requires IsSplit(payload, cuts) && OnlyPieces(es, key, payload, cuts)
    requires 0 < i < |cuts| - 1 && cuts[i + 1] < cuts[i] + 3
    requires var fs := ArrivedFor(es, key);
             OthersArrived(fs, payload, cuts, i) && !Arrived(fs, payload, cuts, i)
    ensures 0 < n <= |es| && !Arrived(ArrivedFor(es[..n], key), payload, cuts, i)
    ensures DeliveredFrom(Run(s, es[..n - 1]).delivered, Run(s, es[..n]).delivered, key, ArrivedFor(es[..n], key))
  {
    assert es[..|es|] == es;
    ArrivedAreThePieces(es, key, payload, cuts);
    SmallMiddlePieceIsNotMissed(ArrivedFor(es, key), payload, cuts, i);
    n := DeliveredOnceComplete(s, es, key, payload, cuts);
    StillMissing(es, n, key, payload, cuts, i);
  }

  lemma StillMissing(es: seq<Event>, n: nat, key: Key, payload: seq<byte>, cuts: seq<nat>, i: nat)
    requires ValidEvents(es) && IsSplit(payload, cuts) && n <= |es| && !Arrived(ArrivedFor(es, key), payload, cuts, i)
    ensures !Arrived(ArrivedFor(es[..n], key), payload, cuts, i)
  {
    var k := ArrivedPrefix(es, n, key);
    assert forall j :: 0 <= j < |ArrivedFor(es[..n], key)| ==> ArrivedFor(es[..n], key)[j] == ArrivedFor(es, key)[k + j];
  }

  /** The request a client sees carries the fields of one of the datagram's own first fragments. */
  lemma DeliveryDescribedByFirst(v: Delivery) returns (i: nat)
    requires DeliveryIsSound(v)
    ensures i < |v.fragments| && v.fragments[i].offset == 0 && v.fragments[i].key == v.key
    ensures v.info == v.fragments[i].request.info.(reqFlags := v.fragments[i].request.info.reqFlags | FL_REQUEST_REASSEMBLED)
    ensures forall j :: 0 <= j < IP_HDR_SIZE && j !in {2, 3, 6, 7, 10, 11} ==>
              v.buffer[ETHER_HDR_SIZE + j] == v.fragments[i].header[j]
  {
    assert Claimed(v.fragments, 0);
    var first := ClaimedZeroHasFirst(v.fragments);
    i := FirstFragmentDescribes(v.fragments, first);
  }

  // ---- Lifetime

  /** The first fragment of a datagram to arrive starts it with the TTL of its own header, byte 22 of the frame. */
  lemma NewDatagramIsQueued(s: State, r: Request, poolOk: bool, clones: nat)
    requires Good(s) && WellFormed(r) && Placeable(Decode(r)) && !InQueue(s, Decode(r).key)
    requires s.free > 0 || (s.created <= 100 && poolOk)
    ensures var s', key := Analyze(s, r, poolOk, clones), Decode(r).key;
            && s'.delivered == s.delivered && Tracks(s', key, [Decode(r)])
            && InQueue(s', key) && TtlOf(s', key) == r.buffer[22]
  {
    var f := Decode(r);
    var s' := Analyze(s, r, poolOk, clones);
    FindInQueue(s, f.key);
    AnalyzeKeepsGood(s, r, poolOk, clones);
    OwnNew(s, f, poolOk);
    TtlAt(s', f.key, |s.queue|);
  }

  /** A later fragment that does not complete the datagram leaves it queued, with its TTL. */
  lemma LaterFragmentKeepsTtl(s: State, r: Request, poolOk: bool, clones: nat, fs: seq<Piece>)
    requires Good(s) && WellFormed(r) && Placeable(Decode(r))
    requires fs != [] && Tracks(s, Decode(r).key, fs) && AllPlaceable(fs) && !Complete([Decode(r)] + fs)
    ensures var s', key := Analyze(s, r, poolOk, clones), Decode(r).key;
            && s'.delivered == s.delivered && Tracks(s', key, [Decode(r)] + fs)
            && InQueue(s, key) && InQueue(s', key) && TtlOf(s', key) == TtlOf(s, key)
  {
    OwnArrival(s, r, poolOk, clones, Decode(r).key, fs);
    ArrivalKeepsTtl(s, r, poolOk, clones, Decode(r).key);
  }

  /** A pass spares a datagram that has a unit of TTL for the pass, if it has not passed it yet, and one for each expiry. */
  lemma {:induction false} ScanSpares(q: seq<Datagram>, i: nat, k: nat) returns (j: nat)
    requires i <= |q| && k < |q| && q[k].ttl >= Scan(q, i).recycled + One(k >= i)
    ensures j < |Scan(q, i).queue| && SameButTtl(Scan(q, i).queue[j], q[k])
    ensures Scan(q, i).queue[j].ttl + Scan(q, i).recycled + One(k >= i) >= q[k].ttl
    decreases |q|, |q| - i
  {
    if i == |q| {
      j := k;
    } else if q[i].ttl == 0 {
      j := ScanSpares(RemoveAt(q, i), 0, if k < i then k else k - 1);
    } else {
      j := ScanSpares(q[i := q[i].(ttl := q[i].ttl - 1)], i + 1, k);
    }
  }

  /** What a tick can take from a datagram: a unit for the pass, and one for each datagram that expires. */
  ghost function TickCost(s: State): nat {
    1 + Scan(s.queue, 0).recycled
  }

  lemma TickSpares(s: State, key: Key)
    requires Good(s) && InQueue(s, key) && TtlOf(s, key) >= TickCost(s)
    ensures InQueue(Age(s), key) && TtlOf(Age(s), key) + TickCost(s) >= TtlOf(s, key)
  {
    FindInQueue(s, key);
    TickKeepsGood(s);
    var j := ScanSpares(s.queue, 0, Find(s.queue, key, 0));
    TtlAt(Age(s), key, j);
  }

  /** What the ticks of a run can take. */
  ghost function TicksCost(s: State, es: seq<Event>): nat
    requires AllShaped(s.queue) && ValidEvents(es)
  {
    if es == [] then 0
    else
      var front := es[..|es| - 1];
      TicksCost(s, front) + if es[|es| - 1].Tick? then TickCost(Run(s, front)) else 0
  }

  /** The fragments `fs` and those that arrive in a run. */
  ghost function Collected(es: seq<Event>, key: Key, fs: seq<Piece>): seq<Piece>
    requires ValidEvents(es)
  {
    ArrivedFor(es, key) + fs
  }

  lemma CollectedLast(es: seq<Event>, key: Key, fs: seq<Piece>)
    requires ValidEvents(es) && es != []
    ensures var front, e := Collected(es[..|es| - 1], key, fs), es[|es| - 1];
            Collected(es, key, fs) == if ArrivalFor(e, key) then [Decode(e.request)] + front else front
  {
  }

  /** All along, the fragments collected can be placed and are not complete. */
  ghost predicate StaysIncomplete(es: seq<Event>, key: Key, fs: seq<Piece>)
    requires ValidEvents(es)
  {
    && AllPlaceable(Collected(es, key, fs)) && !Complete(Collected(es, key, fs))
    && (es == [] || StaysIncomplete(es[..|es| - 1], key, fs))
  }

  lemma NextCollected(es: seq<Event>, key: Key, fs: seq<Piece>)
    requires ValidEvents(es) && es != [] && StaysIncomplete(es, key, fs)
    ensures var front, e := Collected(es[..|es| - 1], key, fs), es[|es| - 1];
            && AllPlaceable(front) && ValidEvent(e)
            && (ArrivalFor(e, key) ==> Placeable(Decode(e.request)) && !Complete([Decode(e.request)] + front))
  {
    CollectedLast(es, key, fs);
    if ArrivalFor(es[|es| - 1], key) {
      assert Collected(es, key, fs)[0] == Decode(es[|es| - 1].request);
    }
  }

  ghost predicate Outlived(s: State, es: seq<Event>, key: Key, fs: seq<Piece>)
    requires AllShaped(s.queue) && ValidEvents(es) && InQueue(s, key)
  {
    var t := Run(s, es);
    && Tracks(t, key, Collected(es, key, fs)) && OthersDelivered(s.delivered, t.delivered, key)
    && InQueue(t, key) && TtlOf(t, key) + TicksCost(s, es) >= TtlOf(s, key)
  }

  lemma OutlivesOneMore(s: State, es: seq<Event>, key: Key, fs: seq<Piece>)
    requires Good(s) && ValidEvents(es) && es != [] && fs != [] && InQueue(s, key)
    requires TicksCost(s, es) <= TtlOf(s, key) && StaysIncomplete(es, key, fs) && Outlived(s, es[..|es| - 1], key, fs)
    ensures Outlived(s, es, key, fs)
  {
    var front, e := es[..|es| - 1], es[|es| - 1];
    RunKeepsGood(s, front);
    CollectedLast(es, key, fs);
    NextCollected(es, key, fs);
    OutlivesEvent(Run(s, front), e, key, Collected(front, key, fs));
  }

  /** A queued datagram that is not complete stays queued, collecting its fragments, as long as the ticks, and the expiries of
      other datagrams at them, have not used its TTL up; whatever else arrives, and whatever the clients do. */
  lemma {:induction false} OutlivesTicks(s: State, es: seq<Event>, key: Key, fs: seq<Piece>)
    requires Good(s) && ValidEvents(es) && fs != [] && Tracks(s, key, fs) && InQueue(s, key)
    requires TicksCost(s, es) <= TtlOf(s, key) && StaysIncomplete(es, key, fs)
    ensures Outlived(s, es, key, fs)
  {
    if es == [] {
      assert Collected(es, key, fs) == fs;
    } else {
      OutlivesTicks(s, es[..|es| - 1], key, fs);
      OutlivesOneMore(s, es, key, fs);
    }
  }

  lemma OutlivesEvent(s: State, e: Event, key: Key, fs: seq<Piece>)
    requires Good(s) && ValidEvent(e) && fs != [] && Tracks(s, key, fs) && AllPlaceable(fs)
    requires e.Tick? ==> TickCost(s) <= TtlOf(s, key)
    requires ArrivalFor(e, key) ==> Placeable(Decode(e.request)) && !Complete([Decode(e.request)] + fs)
    ensures var s' := Step(s, e);
            && Tracks(s', key, if ArrivalFor(e, key) then [Decode(e.request)] + fs else fs)
            && OthersDelivered(s.delivered, s'.delivered, key)
            && InQueue(s', key) && TtlOf(s', key) + (if e.Tick? then TickCost(s) else 0) >= TtlOf(s, key)
  {
    if e.Tick? {
      TickSpares(s, key);
      TickTracks(s, key, fs);
    } else if ArrivalFor(e, key) {
      LaterFragmentKeepsTtl(s, e.request, e.poolOk, e.clones, fs);
    } else {
      OtherEvent(s, e, key, fs);
      if e.Arrive? {
        ArrivalKeepsTtl(s, e.request, e.poolOk, e.clones, key);
      }
    }
  }

  ghost function Ticks(es: seq<Event>): nat {
    if es == [] then 0 else Ticks(es[..|es| - 1]) + if es[|es| - 1].Tick? then 1 else 0
  }

  /** The TTL of the queued datagram with the key. */
  ghost function TtlOf(s: State, key: Key): nat
    requires InQueue(s, key)
  {
    s.queue[Find(s.queue, key, 0)].ttl
  }

  lemma TtlAt(s: State, key: Key, k: nat)
    requires Good(s) && k < |s.queue| && s.queue[k].key == key
    ensures InQueue(s, key) && TtlOf(s, key) == s.queue[k].ttl
  {
    FindInQueue(s, key);
  }

  lemma TickLowersTtl(s: State, key: Key)
    requires Good(s) && InQueue(s, key) && InQueue(Age(s), key)
    ensures TtlOf(Age(s), key) < TtlOf(s, key)
  {
    var s' := Age(s);
    TickKeepsGood(s);
    var from := ScanAges(s.queue, 0);
    var j :| 0 <= j < |s'.queue| && s'.queue[j].key == key;
    assert SameButTtl(s'.queue[j], s.queue[from[j]]);
    TtlAt(s', key, j);
    TtlAt(s, key, from[j]);
  }

  lemma RemoveKeepsTtl(s: State, s': State, k: nat, key: Key)
    requires Good(s) && Good(s') && k < |s.queue| && s'.queue == RemoveAt(s.queue, k) && InQueue(s', key)
    ensures InQueue(s, key) && TtlOf(s', key) == TtlOf(s, key)
  {
    var j :| 0 <= j < |s'.queue| && s'.queue[j].key == key;
    TtlAt(s', key, j);
    TtlAt(s, key, if j < k then j else j + 1);
  }

  lemma UpdateKeepsTtl(s: State, s': State, k: nat, d: Datagram, key: Key)
    requires Good(s) && Good(s') && k < |s.queue| && s'.queue == s.queue[k := d] && InQueue(s', key)
    requires d.key == s.queue[k].key && d.ttl == s.queue[k].ttl
    ensures InQueue(s, key) && TtlOf(s', key) == TtlOf(s, key)
  {
    var j :| 0 <= j < |s'.queue| && s'.queue[j].key == key;
    TtlAt(s', key, j);
    TtlAt(s, key, j);
  }

  lemma QueuedKeepsTtl(s: State, k: nat, f: Piece, clones: nat, key: Key)
    requires Good(s) && k < |s.queue| && s.queue[k].key == f.key
    requires 8 * f.offset + f.total <= WORKBUFSIZE ==> Placeable(f)
    requires InQueue(AnalyzeQueued(s, k, f, clones), key)
    ensures InQueue(s, key) && TtlOf(AnalyzeQueued(s, k, f, clones), key) == TtlOf(s, key)
  {
    var s' := AnalyzeQueued(s, k, f, clones);
    QueuedKeepsGood(s, k, f, clones);
    if |s'.queue| < |s.queue| {
      RemoveKeepsTtl(s, s', k, key);
    } else {
      UpdateKeepsTtl(s, s', k, Merge(s.queue[k], f), key);
    }
  }

  lemma NewKeepsTtl(s: State, f: Piece, poolOk: bool, key: Key)
    requires Good(s) && !InQueue(s, f.key) && InQueue(s, key)
    requires 8 * f.offset + f.total <= WORKBUFSIZE ==> Placeable(f)
    ensures InQueue(AnalyzeNew(s, f, poolOk), key)
    ensures TtlOf(AnalyzeNew(s, f, poolOk), key) == TtlOf(s, key)
  {
    var s' := AnalyzeNew(s, f, poolOk);
    NewKeepsGood(s, f, poolOk);
    var j :| 0 <= j < |s.queue| && s.queue[j].key == key;
    TtlAt(s, key, j);
    TtlAt(s', key, j);
  }

  lemma ArrivalKeepsTtl(s: State, r: Request, poolOk: bool, clones: nat, key: Key)
    requires Good(s) && WellFormed(r) && InQueue(s, key) && InQueue(Analyze(s, r, poolOk, clones), key)
    ensures TtlOf(Analyze(s, r, poolOk, clones), key) == TtlOf(s, key)
  {
    var f := Decode(r);
    if |f.header| <= IP_HDR_SIZE {
      FindInQueue(s, f.key);
      var k := Find(s.queue, f.key, 0);
      if k < |s.queue| {
        QueuedKeepsTtl(s, k, f, clones, key);
      } else {
        NewKeepsTtl(s, f, poolOk, key);
      }
    }
  }

  lemma StepLowersTtl(s: State, e: Event, key: Key)
    requires Good(s) && ValidEvent(e) && InQueue(s, key) && InQueue(Step(s, e), key)
    ensures TtlOf(Step(s, e), key) + (if e.Tick? then 1 else 0) <= TtlOf(s, key)
  {
    match e
    case Arrive(r, poolOk, clones) => ArrivalKeepsTtl(s, r, poolOk, clones, key);
    case Tick => TickLowersTtl(s, key);
    case CloneLoan(_) =>
    case ReleaseLoan(_) =>
  }

  lemma {:induction false} TtlBoundsTicks(s: State, es: seq<Event>, key: Key)
    requires Good(s) && ValidEvents(es)
    requires forall i :: 0 <= i <= |es| ==> InQueue(Run(s, es[..i]), key)
    ensures InQueue(s, key) && InQueue(Run(s, es), key)
    ensures TtlOf(Run(s, es), key) + Ticks(es) <= TtlOf(s, key)
  {
    assert es[..0] == [] && es[..|es|] == es;
    if es != [] {
      var init := es[..|es| - 1];
      assert forall i :: 0 <= i <= |init| ==> init[..i] == es[..i];
      TtlBoundsTicks(s, init, key);
      RunKeepsGood(s, init);
      StepLowersTtl(Run(s, init), es[|es| - 1], key);
    }
  }

  /** A datagram queued with TTL `t` is gone -- delivered, dropped or expired -- within `t` + 1 ticks, whatever else
      happens in between. */
  lemma BoundedLifetime(s: State, es: seq<Event>, key: Key) returns (gone: nat)
    requires Good(s) && ValidEvents(es) && InQueue(s, key) && Ticks(es) > TtlOf(s, key)
    ensures gone <= |es| && !InQueue(Run(s, es[..gone]), key)
  {
    if forall i :: 0 <= i <= |es| ==> InQueue(Run(s, es[..i]), key) {
      TtlBoundsTicks(s, es, key);
      assert false;
    }
    gone :| 0 <= gone <= |es| && !InQueue(Run(s, es[..gone]), key);
  }
}
