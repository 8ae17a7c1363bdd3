/** The reassembly queue as a state machine: fragments arrive, the ageing thread ticks, clients hold and release what
    was delivered. */
module Reassembly {
  import opened Bytes
  import opened IpHeader
  import opened Datagram
  import opened Lists
  import opened Multisets

  const MAX_WORKBUFFER_COUNT := 100
  const FL_REQUEST_REASSEMBLED: bv32 := 0x4000_0000

  /** A delivered work buffer some client still references. */
  datatype Loan = Loan(datagram: Datagram, references: nat)

  /** What a client is offered: the buffer of the reassembled request, its fields, and the fragments under it. */
  datatype Delivery = Delivery(key: Key, buffer: seq<byte>, direction: nat, info: Info, fragments: seq<Piece>)

  datatype State = State(
    queue: seq<Datagram>,
    loaned: seq<Loan>,
    free: nat,
    created: nat,
    delivered: seq<Delivery>,
    freed: multiset<Request>,
    abandoned: multiset<Request>)

  /** `poolOk` says whether the system pool has memory, `clones` how many references clients take while the
      datagram is offered to them. */
  datatype Event =
    | Arrive(request: Request, poolOk: bool, clones: nat)
    | Tick
    | CloneLoan(loan: nat)
    | ReleaseLoan(loan: nat)

  const INIT := State([], [], 0, 0, [], multiset{}, multiset{})

  ghost predicate AllShaped(queue: seq<Datagram>) {
    forall k :: 0 <= k < |queue| ==> Shaped(queue[k])
  }

  ghost predicate ValidEvent(e: Event) {
    e.Arrive? ==> WellFormed(e.request)
  }

  /** Position of the first datagram with the key, or the length of the queue. */
  function Find(queue: seq<Datagram>, key: Key, from: nat): (k: nat)
    requires from <= |queue|
    ensures from <= k <= |queue|
    ensures k < |queue| ==> queue[k].key == key
    ensures forall j :: from <= j < k ==> queue[j].key != key
    decreases |queue| - from
  {
    if from == |queue| || queue[from].key == key then from else Find(queue, key, from + 1)
  }

  ghost function RequestsOf(fs: seq<Piece>): multiset<Request> {
    if fs == [] then multiset{} else multiset{fs[0].request} + RequestsOf(fs[1..])
  }

  // ---- Verify

  /** The work buffer as it is handed to clients. */
  ghost function Finished(d: Datagram): Datagram
    requires Shaped(d)
  {
    d.(finalbuf := Prepared(d.finalbuf, d.totallen),
       info := d.info.(reqFlags := d.info.reqFlags | FL_REQUEST_REASSEMBLED))
  }

  /** The request offered to clients: the first `totallen` + 14 bytes of the finished buffer. */
  ghost function Delivered(d: Datagram, direction: nat): Delivery
    requires Shaped(d) && d.totallen + ETHER_HDR_SIZE <= WORKBUF
  {
    var f := Finished(d);
    Delivery(d.key, f.finalbuf[..d.totallen + ETHER_HDR_SIZE], direction, f.info, d.fragments)
  }

  /** Datagram `d`, already off the queue, is offered to clients; its buffer is recycled at once when none keeps it. */
  ghost function Offered(s: State, d: Datagram, direction: nat, clones: nat): State
    requires Shaped(d)
  {
    var s' := s.(delivered := s.delivered + [Delivered(d, direction)]);
    if clones == 0 then s'.(free := s.free + 1, freed := s.freed + RequestsOf(d.fragments))
    else s'.(loaned := s.loaned + [Loan(Finished(d), clones)])
  }

  /** Deliver the datagram at position `k`, whose buffer is now `d`. */
  ghost function Deliver(s: State, k: nat, d: Datagram, direction: nat, clones: nat): State
    requires k < |s.queue| && Shaped(d)
  {
    Offered(s.(queue := RemoveAt(s.queue, k)), d, direction, clones)
  }

  lemma DeliverUpdated(s: State, k: nat, d: Datagram, direction: nat, clones: nat)
    requires k < |s.queue| && Shaped(d)
    ensures Deliver(s.(queue := s.queue[k := d]), k, d, direction, clones) == Deliver(s, k, d, direction, clones)
  {
    assert RemoveAt(s.queue[k := d], k) == RemoveAt(s.queue, k);
  }

  // ---- Analyze

  predicate BufferAvailable(s: State, poolOk: bool) {
    s.free > 0 || (s.created <= MAX_WORKBUFFER_COUNT && poolOk)
  }

  /** A work buffer was taken: from the free list if it has one, else from the system pool. */
  function Allocated(s: State): State {
    if s.free > 0 then s.(free := s.free - 1) else s.(created := s.created + 1)
  }

  /** A fragment of the datagram at position `k`. */
  ghost function AnalyzeQueued(s: State, k: nat, f: Piece, clones: nat): (s': State)
    requires AllShaped(s.queue) && k < |s.queue|
    requires 8 * f.offset + f.total <= WORKBUFSIZE ==> Placeable(f)
    ensures AllShaped(s'.queue)
  {
    var d := s.queue[k];
    if 8 * f.offset + f.total > WORKBUFSIZE then
      s.(queue := RemoveAt(s.queue, k), free := s.free + 1,
         abandoned := s.abandoned + RequestsOf([f] + d.fragments))
    else
      var d' := Merge(d, f);
      if d'.last && AllBitsSet(d') then Deliver(s, k, d', f.request.direction, clones)
      else s.(queue := s.queue[k := d'])
  }

  /** The first fragment of its datagram to arrive. */
  ghost function AnalyzeNew(s: State, f: Piece, poolOk: bool): (s': State)
    requires AllShaped(s.queue)
    requires 8 * f.offset + f.total <= WORKBUFSIZE ==> Placeable(f)
    ensures AllShaped(s'.queue)
  {
    if 8 * f.offset + f.total > WORKBUFSIZE || !BufferAvailable(s, poolOk) then
      s.(abandoned := s.abandoned + multiset{f.request})
    else
      Allocated(s).(queue := s.queue + [Merge(Fresh(f.key, f.ttl), f)])
  }

  ghost function Analyze(s: State, r: Request, poolOk: bool, clones: nat): (s': State)
    requires AllShaped(s.queue) && WellFormed(r)
    ensures AllShaped(s'.queue)
  {
    var f := Decode(r);
    if |f.header| > IP_HDR_SIZE then s.(abandoned := s.abandoned + multiset{r})
    else
      var k := Find(s.queue, f.key, 0);
      if k < |s.queue| then AnalyzeQueued(s, k, f, clones) else AnalyzeNew(s, f, poolOk)
  }

  // ---- Ageing

  datatype Scanned = Scanned(queue: seq<Datagram>, freed: multiset<Request>, recycled: nat)

  /** One pass of the ageing thread from position `i`: it starts over from the head after each removal. */
  ghost function Scan(q: seq<Datagram>, i: nat): (r: Scanned)
    requires i <= |q|
    decreases |q|, |q| - i
  {
    if i == |q| then Scanned(q, multiset{}, 0)
    else if q[i].ttl == 0 then
      var rest := Scan(RemoveAt(q, i), 0);
      Scanned(rest.queue, RequestsOf(q[i].fragments) + rest.freed, rest.recycled + 1)
    else Scan(q[i := q[i].(ttl := q[i].ttl - 1)], i + 1)
  }

  /** A pass over `q0` that has reached position `i` of `q`, having freed and recycled this much. */
  ghost predicate ScanReached(q0: seq<Datagram>, q: seq<Datagram>, i: nat, freed: multiset<Request>, recycled: nat) {
    && i <= |q|
    && Scan(q0, 0) == Scanned(Scan(q, i).queue, freed + Scan(q, i).freed, recycled + Scan(q, i).recycled)
  }

  lemma ScanStarts(q: seq<Datagram>)
    ensures ScanReached(q, q, 0, multiset{}, 0)
  {
    assert multiset{} + Scan(q, 0).freed == Scan(q, 0).freed;
  }

  lemma ScanContinues(q0: seq<Datagram>, q: seq<Datagram>, i: nat, freed: multiset<Request>, recycled: nat)
    requires ScanReached(q0, q, i, freed, recycled) && i < |q|
    ensures q[i].ttl > 0 ==> ScanReached(q0, q[i := q[i].(ttl := q[i].ttl - 1)], i + 1, freed, recycled)
    ensures q[i].ttl == 0 ==>
              ScanReached(q0, RemoveAt(q, i), 0, freed + RequestsOf(q[i].fragments), recycled + 1)
  {
    if q[i].ttl == 0 {
      Move(freed, RequestsOf(q[i].fragments), Scan(RemoveAt(q, i), 0).freed);
    }
  }

  lemma ScanEnds(q0: seq<Datagram>, q: seq<Datagram>, freed: multiset<Request>, recycled: nat)
    requires ScanReached(q0, q, |q|, freed, recycled)
    ensures Scan(q0, 0) == Scanned(q, freed, recycled)
  {
    assert freed + multiset{} == freed;
  }

  ghost predicate SameButTtl(a: Datagram, b: Datagram) {
    a.(ttl := 0) == b.(ttl := 0)
  }

  /** `from[j]` is the old position of the datagram now at position `j`. */
  ghost predicate Origins(q: seq<Datagram>, r: Scanned, from: seq<nat>) {
    && |r.queue| + r.recycled == |q| && |from| == |r.queue|
    && (forall j :: 0 <= j < |from| ==> from[j] < |q|)
    && (forall j, k :: 0 <= j < k < |from| ==> from[j] < from[k])
    && (forall j :: 0 <= j < |from| ==> SameButTtl(r.queue[j], q[from[j]]))
  }

  /** Datagrams at or past position `i` lost one unit of TTL for the pass; everyone lost at most one more per
      expiry. */
  ghost predicate AgedFrom(q: seq<Datagram>, i: nat, r: Scanned, from: seq<nat>)
    requires Origins(q, r, from)
  {
    forall j :: 0 <= j < |from| ==>
      var once := if from[j] >= i then 1 else 0;
      r.queue[j].ttl + once <= q[from[j]].ttl <= r.queue[j].ttl + once + r.recycled
  }

  ghost function Shifted(from: seq<nat>, i: nat): seq<nat> {
    seq(|from|, j requires 0 <= j < |from| => if from[j] < i then from[j] else from[j] + 1)
  }

  lemma AgedAfterRemoval(q: seq<Datagram>, i: nat, rest: Scanned, from: seq<nat>, freed: multiset<Request>)
    requires i < |q| && Origins(RemoveAt(q, i), rest, from) && AgedFrom(RemoveAt(q, i), 0, rest, from)
    ensures var r := Scanned(rest.queue, freed, rest.recycled + 1);
            Origins(q, r, Shifted(from, i)) && AgedFrom(q, i, r, Shifted(from, i))
  {
  }

  lemma AgedAfterDecrement(q: seq<Datagram>, i: nat, r: Scanned, from: seq<nat>)
    requires i < |q| && q[i].ttl > 0
    requires var q' := q[i := q[i].(ttl := q[i].ttl - 1)]; Origins(q', r, from) && AgedFrom(q', i + 1, r, from)
    ensures Origins(q, r, from) && AgedFrom(q, i, r, from)
  {
  }

  /** Survivors of a pass keep their order and contents. Each loses at least one unit of TTL for the pass, and at
      most one more for each datagram the tick expires. */
  lemma {:induction false} ScanAges(q: seq<Datagram>, i: nat) returns (from: seq<nat>)
    requires i <= |q|
    ensures Origins(q, Scan(q, i), from) && AgedFrom(q, i, Scan(q, i), from)
    decreases |q|, |q| - i
  {
    if i == |q| {
      from := seq(|q|, j => j);
    } else if q[i].ttl == 0 {
      var rest := ScanAges(RemoveAt(q, i), 0);
      AgedAfterRemoval(q, i, Scan(RemoveAt(q, i), 0), rest, Scan(q, i).freed);
      from := Shifted(rest, i);
    } else {
      from := ScanAges(q[i := q[i].(ttl := q[i].ttl - 1)], i + 1);
      AgedAfterDecrement(q, i, Scan(q, i), from);
    }
  }

  /** A pass frees exactly the fragments of the datagrams it expires. */
  lemma {:induction false} ScanFrees(q: seq<Datagram>, i: nat)
    requires i <= |q|
    ensures Held(q) == Held(Scan(q, i).queue) + Scan(q, i).freed
    decreases |q|, |q| - i
  {
    if i < |q| {
      var fs := RequestsOf(q[i].fragments);
      if q[i].ttl == 0 {
        ScanFrees(RemoveAt(q, i), 0);
        HeldRemove(q, i);
        Move(Held(Scan(q, i).queue), fs, Scan(RemoveAt(q, i), 0).freed);
      } else {
        var d := q[i].(ttl := q[i].ttl - 1);
        ScanFrees(q[i := d], i + 1);
        HeldUpdate(q, i, d);
        Cancel(Held(q[i := d]), Held(q), fs);
      }
    }
  }

  /** A tick can cost a datagram more than one unit of TTL: an expiry behind it restarts the pass. */
  lemma TickCanCostTwo(d: Datagram, expired: Datagram)
    requires d.ttl >= 2 && expired.ttl == 0
    ensures Scan([d, expired], 0).queue == [d.(ttl := d.ttl - 2)]
  {
    var once := d.(ttl := d.ttl - 1);
    assert [d, expired][0 := once] == [once, expired];
    assert RemoveAt([once, expired], 1) == [once];
    assert [once][0 := once.(ttl := once.ttl - 1)] == [d.(ttl := d.ttl - 2)];
    var twice := [d.(ttl := d.ttl - 2)];
    assert Scan(twice, 1).queue == twice;
    assert Scan([once], 0) == Scan(twice, 1);
    assert Scan([once, expired], 1).queue == Scan([once], 0).queue;
  }

  // ---- Runs

  function WithReferences(loans: seq<Loan>, k: nat, references: nat): seq<Loan>
    requires k < |loans|
  {
    loans[k := Loan(loans[k].datagram, references)]
  }

  /** One tick of the ageing thread. */
  ghost function Age(s: State): (s': State)
    requires AllShaped(s.queue)
    ensures AllShaped(s'.queue)
  {
    var r := Scan(s.queue, 0);
    ScanShaped(s.queue);
    s.(queue := r.queue, free := s.free + r.recycled, freed := s.freed + r.freed)
  }

  /** One step of the pass: expire the datagram at position `i`, or count it down. */
  ghost function AgeAt(s: State, i: nat): State
    requires i < |s.queue|
  {
    var d := s.queue[i];
    if d.ttl == 0 then
      s.(queue := RemoveAt(s.queue, i), free := s.free + 1, freed := s.freed + RequestsOf(d.fragments))
    else s.(queue := s.queue[i := d.(ttl := d.ttl - 1)])
  }

  /** A tick that began in `s0` has reached position `i` in `s`, having freed and recycled this much. */
  ghost predicate AgeReached(s0: State, s: State, i: nat, freed: multiset<Request>, recycled: nat) {
    && s == s0.(queue := s.queue, free := s0.free + recycled, freed := s0.freed + freed)
    && ScanReached(s0.queue, s.queue, i, freed, recycled)
  }

  lemma AgeStarts(s: State)
    ensures AgeReached(s, s, 0, multiset{}, 0)
  {
    ScanStarts(s.queue);
    assert s.freed + multiset{} == s.freed;
  }

  lemma AgeContinues(s0: State, s: State, i: nat, freed: multiset<Request>, recycled: nat)
    requires AgeReached(s0, s, i, freed, recycled) && i < |s.queue|
    ensures s.queue[i].ttl > 0 ==> AgeReached(s0, AgeAt(s, i), i + 1, freed, recycled)
    ensures s.queue[i].ttl == 0 ==>
              AgeReached(s0, AgeAt(s, i), 0, freed + RequestsOf(s.queue[i].fragments), recycled + 1)
  {
    ScanContinues(s0.queue, s.queue, i, freed, recycled);
    Move(s0.freed, freed, RequestsOf(s.queue[i].fragments));
  }

  lemma AgeEnds(s0: State, s: State, freed: multiset<Request>, recycled: nat)
    requires AllShaped(s0.queue) && AgeReached(s0, s, |s.queue|, freed, recycled)
    ensures s == Age(s0)
  {
    ScanEnds(s0.queue, s.queue, freed, recycled);
  }

  /** `FWCloneRequest` on a delivered request. */
  ghost function Clone(s: State, i: nat): State {
    if i < |s.loaned| then s.(loaned := WithReferences(s.loaned, i, s.loaned[i].references + 1)) else s
  }

  /** `FWFreeCloneRequest` on a delivered request. */
  ghost function Release(s: State, i: nat): State {
    if i >= |s.loaned| then s
    else if s.loaned[i].references > 1 then
      s.(loaned := WithReferences(s.loaned, i, s.loaned[i].references - 1))
    else
      s.(loaned := RemoveAt(s.loaned, i), free := s.free + 1,
         freed := s.freed + RequestsOf(s.loaned[i].datagram.fragments))
  }

  ghost function Step(s: State, e: Event): (s': State)
    requires AllShaped(s.queue) && ValidEvent(e)
    ensures AllShaped(s'.queue)
  {
    match e
    case Arrive(r, poolOk, clones) => Analyze(s, r, poolOk, clones)
    case Tick => Age(s)
    case CloneLoan(i) => Clone(s, i)
    case ReleaseLoan(i) => Release(s, i)
  }

  lemma ScanShaped(q: seq<Datagram>)
    requires AllShaped(q)
    ensures AllShaped(Scan(q, 0).queue)
  {
    var from := ScanAges(q, 0);
  }

  ghost predicate ValidEvents(es: seq<Event>) {
    forall i :: 0 <= i < |es| ==> ValidEvent(es[i])
  }

  ghost function Run(s: State, es: seq<Event>): (s': State)
    requires AllShaped(s.queue) && ValidEvents(es)
    ensures AllShaped(s'.queue)
  {
    if es == [] then s else Step(Run(s, es[..|es| - 1]), es[|es| - 1])
  }

  // ---- Conservation

  /** The requests held by a queue of datagrams. */
  ghost function Held(q: seq<Datagram>): multiset<Request> {
    if q == [] then multiset{} else RequestsOf(q[0].fragments) + Held(q[1..])
  }

  ghost function HeldByLoans(loans: seq<Loan>): multiset<Request> {
    if loans == [] then multiset{} else RequestsOf(loans[0].datagram.fragments) + HeldByLoans(loans[1..])
  }

  /** Where every request that ever arrived is now. */
  ghost function Accounted(s: State): multiset<Request> {
    Held(s.queue) + HeldByLoans(s.loaned) + s.freed + s.abandoned
  }

  ghost function Arrivals(es: seq<Event>): multiset<Request> {
    if es == [] then multiset{}
    else Arrivals(es[..|es| - 1]) + if es[|es| - 1].Arrive? then multiset{es[|es| - 1].request} else multiset{}
  }

  lemma {:induction false} HeldRemove(q: seq<Datagram>, k: nat)
    requires k < |q|
    ensures Held(q) == Held(RemoveAt(q, k)) + RequestsOf(q[k].fragments)
  {
    if k == 0 {
      assert RemoveAt(q, 0) == q[1..];
    } else {
      var rest := q[1..];
      HeldRemove(rest, k - 1);
      assert RemoveAt(q, k)[1..] == RemoveAt(rest, k - 1) && rest[k - 1] == q[k];
      Move(RequestsOf(q[0].fragments), Held(RemoveAt(rest, k - 1)), RequestsOf(q[k].fragments));
    }
  }

  lemma {:induction false} HeldUpdate(q: seq<Datagram>, k: nat, d: Datagram)
    requires k < |q|
    ensures Held(q[k := d]) + RequestsOf(q[k].fragments) == Held(q) + RequestsOf(d.fragments)
  {
    if k == 0 {
      assert q[k := d][1..] == q[1..];
    } else {
      var rest := q[1..];
      HeldUpdate(rest, k - 1, d);
      assert q[k := d][1..] == rest[k - 1 := d] && rest[k - 1] == q[k];
      SumUnder(RequestsOf(q[0].fragments), Held(rest[k - 1 := d]), RequestsOf(q[k].fragments), Held(rest),
               RequestsOf(d.fragments));
    }
  }

  lemma {:induction false} HeldAppend(q: seq<Datagram>, d: Datagram)
    ensures Held(q + [d]) == Held(q) + RequestsOf(d.fragments)
  {
    if q == [] {
      assert q + [d] == [d];
    } else {
      HeldAppend(q[1..], d);
      assert (q + [d])[1..] == q[1..] + [d];
      Move(RequestsOf(q[0].fragments), Held(q[1..]), RequestsOf(d.fragments));
    }
  }

  lemma {:induction false} LoansRemove(loans: seq<Loan>, k: nat)
    requires k < |loans|
    ensures HeldByLoans(loans) == HeldByLoans(RemoveAt(loans, k)) + RequestsOf(loans[k].datagram.fragments)
  {
    if k == 0 {
      assert RemoveAt(loans, 0) == loans[1..];
    } else {
      LoansRemove(loans[1..], k - 1);
      assert RemoveAt(loans, k)[1..] == RemoveAt(loans[1..], k - 1);
      Move(RequestsOf(loans[0].datagram.fragments), HeldByLoans(RemoveAt(loans[1..], k - 1)),
           RequestsOf(loans[k].datagram.fragments));
    }
  }

  lemma {:induction false} LoansUpdate(loans: seq<Loan>, k: nat, references: nat)
    requires k < |loans|
    ensures HeldByLoans(WithReferences(loans, k, references)) == HeldByLoans(loans)
  {
    var updated := WithReferences(loans, k, references);
    if k == 0 {
      assert updated[1..] == loans[1..];
    } else {
      LoansUpdate(loans[1..], k - 1, references);
      assert updated[1..] == WithReferences(loans[1..], k - 1, references);
    }
  }

  lemma {:induction false} LoansAppend(loans: seq<Loan>, loan: Loan)
    ensures HeldByLoans(loans + [loan]) == HeldByLoans(loans) + RequestsOf(loan.datagram.fragments)
  {
    if loans == [] {
      assert loans + [loan] == [loan];
    } else {
      LoansAppend(loans[1..], loan);
      assert (loans + [loan])[1..] == loans[1..] + [loan];
      Move(RequestsOf(loans[0].datagram.fragments), HeldByLoans(loans[1..]), RequestsOf(loan.datagram.fragments));
    }
  }

  lemma RequestsCons(f: Piece, fs: seq<Piece>)
    ensures RequestsOf([f] + fs) == multiset{f.request} + RequestsOf(fs)
  {
    assert ([f] + fs)[1..] == fs;
  }

  lemma QueuedConserves(s: State, k: nat, f: Piece, clones: nat)
    requires AllShaped(s.queue) && k < |s.queue|
    requires 8 * f.offset + f.total <= WORKBUFSIZE ==> Placeable(f)
    ensures Accounted(AnalyzeQueued(s, k, f, clones)) == Accounted(s) + multiset{f.request}
  {
    var d, s' := s.queue[k], AnalyzeQueued(s, k, f, clones);
    var held, mine := RequestsOf(d.fragments), multiset{f.request};
    var rest := Held(RemoveAt(s.queue, k));
    var others := rest + HeldByLoans(s.loaned) + s.freed + s.abandoned;
    RequestsCons(f, d.fragments);
    HeldRemove(s.queue, k);
    Grow(rest, HeldByLoans(s.loaned), s.freed, s.abandoned, held);
    Grow(rest, HeldByLoans(s.loaned), s.freed, s.abandoned, mine + held);
    Move(others, mine, held);
    assert Accounted(s) + mine == others + (mine + held);
    if 8 * f.offset + f.total > WORKBUFSIZE {
      assert Accounted(s') == others + (mine + held);
    } else {
      var d' := Merge(d, f);
      if d'.last && AllBitsSet(d') {
        LoansAppend(s.loaned, Loan(Finished(d'), clones));
        assert Accounted(s') == others + (mine + held);
      } else {
        HeldUpdate(s.queue, k, d');
        Move(Held(s.queue), mine, held);
        Cancel(Held(s.queue[k := d']), Held(s.queue) + mine, held);
        Grow(Held(s.queue), HeldByLoans(s.loaned), s.freed, s.abandoned, mine);
        assert Accounted(s') == Accounted(s) + mine;
      }
    }
  }

  lemma NewConserves(s: State, f: Piece, poolOk: bool)
    requires AllShaped(s.queue)
    requires 8 * f.offset + f.total <= WORKBUFSIZE ==> Placeable(f)
    ensures Accounted(AnalyzeNew(s, f, poolOk)) == Accounted(s) + multiset{f.request}
  {
    if 8 * f.offset + f.total <= WORKBUFSIZE {
      RequestsCons(f, []);
      HeldAppend(s.queue, Merge(Fresh(f.key, f.ttl), f));
    }
    Grow(Held(s.queue), HeldByLoans(s.loaned), s.freed, s.abandoned, multiset{f.request});
  }

  lemma AnalyzeConserves(s: State, r: Request, poolOk: bool, clones: nat)
    requires AllShaped(s.queue) && WellFormed(r)
    ensures Accounted(Analyze(s, r, poolOk, clones)) == Accounted(s) + multiset{r}
  {
    var f := Decode(r);
    if |f.header| <= IP_HDR_SIZE {
      var k := Find(s.queue, f.key, 0);
      if k < |s.queue| {
        QueuedConserves(s, k, f, clones);
      } else {
        NewConserves(s, f, poolOk);
      }
    }
  }

  lemma StepConserves(s: State, e: Event)
    requires AllShaped(s.queue) && ValidEvent(e)
    ensures Accounted(Step(s, e)) == Accounted(s) + if e.Arrive? then multiset{e.request} else multiset{}
  {
    match e
    case Arrive(r, poolOk, clones) => AnalyzeConserves(s, r, poolOk, clones);
    case Tick => TickConserves(s);
    case CloneLoan(i) => CloneConserves(s, i);
    case ReleaseLoan(i) => ReleaseConserves(s, i);
  }

  lemma CloneConserves(s: State, i: nat)
    ensures Accounted(Clone(s, i)) == Accounted(s)
  {
    if i < |s.loaned| {
      RecountConserves(s, i, s.loaned[i].references + 1);
    }
  }

  lemma RecountConserves(s: State, i: nat, references: nat)
    requires i < |s.loaned|
    ensures Accounted(s.(loaned := WithReferences(s.loaned, i, references))) == Accounted(s)
  {
    LoansUpdate(s.loaned, i, references);
  }

  lemma TickConserves(s: State)
    requires AllShaped(s.queue)
    ensures Accounted(Age(s)) == Accounted(s)
  {
    var r := Scan(s.queue, 0);
    ScanFrees(s.queue, 0);
    Grow(Held(r.queue), HeldByLoans(s.loaned), s.freed, s.abandoned, r.freed);
  }

  lemma ReleaseConserves(s: State, i: nat)
    ensures Accounted(Release(s, i)) == Accounted(s)
  {
    if i < |s.loaned| {
      if s.loaned[i].references > 1 {
        RecountConserves(s, i, s.loaned[i].references - 1);
      } else {
        LoansRemove(s.loaned, i);
        Grow(Held(s.queue), HeldByLoans(RemoveAt(s.loaned, i)), s.freed, s.abandoned,
             RequestsOf(s.loaned[i].datagram.fragments));
      }
    }
  }

  /** Every request that arrived is in exactly one place: held by a queued datagram, held by a delivered one, freed,
      or abandoned. In particular a request that arrived once is freed at most once. */
  lemma {:induction false} RunConserves(s: State, es: seq<Event>)
    requires AllShaped(s.queue) && ValidEvents(es)
    ensures Accounted(Run(s, es)) == Accounted(s) + Arrivals(es)
  {
    if es != [] {
      RunConserves(s, es[..|es| - 1]);
      StepConserves(Run(s, es[..|es| - 1]), es[|es| - 1]);
    }
  }

  // ---- The invariant

  /** Buffer `b` holds the datagram the fragments describe, under a valid header of its own. */
  ghost predicate Describes(b: seq<byte>, fs: seq<Piece>)
    requires AllPlaceable(fs)
  {
    && LengthOf(fs) > IP_HDR_SIZE && |b| == ETHER_HDR_SIZE + LengthOf(fs)
    && ValidHeader(b, LengthOf(fs))
    && (forall i :: 0 <= i < IP_HDR_SIZE && i !in {2, 3, 6, 7, 10, 11} ==> b[ETHER_HDR_SIZE + i] == HeaderOf(fs)[i])
    && (forall p :: 0 <= p < LengthOf(fs) - IP_HDR_SIZE ==> b[HEADERS_SIZE + p] == ByteAt(fs, p))
  }

  /** What a delivery says about the fragments under it. */
  ghost predicate DeliveryIsSound(v: Delivery) {
    && AllPlaceable(v.fragments) && Complete(v.fragments)
    && (forall i :: 0 <= i < |v.fragments| ==> v.fragments[i].key == v.key)
    && Describes(v.buffer, v.fragments)
    && v.info == InfoOf(v.fragments).(reqFlags := InfoOf(v.fragments).reqFlags | FL_REQUEST_REASSEMBLED)
  }

  /** A queued datagram says exactly what its fragments say, and waits for more of them. */
  ghost predicate Waiting(d: Datagram) {
    Faithful(d) && d.fragments != [] && !Complete(d.fragments)
  }

  ghost predicate DistinctKeys(q: seq<Datagram>) {
    forall i, j :: 0 <= i < j < |q| ==> q[i].key != q[j].key
  }

  ghost predicate GoodQueue(q: seq<Datagram>) {
    (forall k :: 0 <= k < |q| ==> Waiting(q[k])) && DistinctKeys(q)
  }

  lemma GoodQueueUpdate(q: seq<Datagram>, k: nat, d: Datagram)
    requires GoodQueue(q) && k < |q| && Waiting(d) && d.key == q[k].key
    ensures GoodQueue(q[k := d])
  {
  }

  lemma GoodQueueAppend(q: seq<Datagram>, d: Datagram)
    requires GoodQueue(q) && Waiting(d) && forall k :: 0 <= k < |q| ==> q[k].key != d.key
    ensures GoodQueue(q + [d])
  {
  }

  lemma GoodQueueAged(q: seq<Datagram>, r: Scanned, from: seq<nat>)
    requires GoodQueue(q) && Origins(q, r, from)
    ensures GoodQueue(r.queue)
  {
    forall j | 0 <= j < |from|
      ensures Waiting(r.queue[j]) && r.queue[j].key == q[from[j]].key
    {
      assert SameButTtl(r.queue[j], q[from[j]]);
    }
  }

  lemma GoodQueueRemove(q: seq<Datagram>, k: nat)
    requires GoodQueue(q) && k < |q|
    ensures GoodQueue(RemoveAt(q, k))
  {
  }

  ghost predicate Good(s: State) {
    && GoodQueue(s.queue)
    && |s.queue| + |s.loaned| + s.free == s.created <= MAX_WORKBUFFER_COUNT + 1
    && (forall k :: 0 <= k < |s.loaned| ==> s.loaned[k].references > 0)
    && (forall k :: 0 <= k < |s.delivered| ==> DeliveryIsSound(s.delivered[k]))
  }

  lemma CompleteLength(fs: seq<Piece>)
    requires AllPlaceable(fs) && Complete(fs)
    ensures LengthOf(fs) >= IP_HDR_SIZE + 8
  {
    var i := LengthFromLast(fs);
  }

  lemma SingleIsNotComplete(f: Piece)
    requires Placeable(f)
    ensures !Complete([f])
  {
    assert Claimed([f], 0) ==> f.offset == 0;
  }

  lemma HeaderBytes(d: Datagram, i: nat)
    requires Faithful(d) && i < IP_HDR_SIZE
    ensures d.finalbuf[ETHER_HDR_SIZE + i] == HeaderOf(d.fragments)[i]
  {
    assert d.finalbuf[ETHER_HDR_SIZE..HEADERS_SIZE][i] == d.finalbuf[ETHER_HDR_SIZE + i];
  }

  /** A prefix of a frame that agrees with a faithful buffer outside the rewritten fields describes its fragments. */
  lemma PrefixDescribes(d: Datagram, frame: seq<byte>)
    requires Faithful(d) && d.totallen > IP_HDR_SIZE && |frame| == |d.finalbuf|
    requires ValidHeader(frame, d.totallen) && SameOutsideRewrite(frame, d.finalbuf)
    ensures Describes(frame[..ETHER_HDR_SIZE + d.totallen], d.fragments)
  {
    var b := frame[..ETHER_HDR_SIZE + d.totallen];
    PrefixKeepsHeader(frame, ETHER_HDR_SIZE + d.totallen, d.totallen);
    forall i: nat | i < IP_HDR_SIZE && i !in {2, 3, 6, 7, 10, 11}
      ensures b[ETHER_HDR_SIZE + i] == HeaderOf(d.fragments)[i]
    {
      HeaderBytes(d, i);
    }
    forall p | 0 <= p < d.totallen - IP_HDR_SIZE
      ensures b[HEADERS_SIZE + p] == ByteAt(d.fragments, p)
    {
      assert d.finalbuf[HEADERS_SIZE + p] == ByteAt(d.fragments, p);
    }
  }

  lemma DeliveredIsSound(d: Datagram, direction: nat)
    requires Faithful(d) && Complete(d.fragments)
    ensures DeliveryIsSound(Delivered(d, direction))
  {
    CompleteLength(d.fragments);
    PreparedHeaderIsValid(d.finalbuf, d.totallen);
    PrefixDescribes(d, Prepared(d.finalbuf, d.totallen));
  }

  lemma DeliverKeepsGood(s: State, k: nat, v: Delivery, loan: Datagram, clones: nat, freed: multiset<Request>)
    requires Good(s) && k < |s.queue| && DeliveryIsSound(v)
    ensures var s' := s.(queue := RemoveAt(s.queue, k), delivered := s.delivered + [v]);
            && Good(s'.(free := s.free + 1, freed := freed))
            && (clones > 0 ==> Good(s'.(loaned := s.loaned + [Loan(loan, clones)])))
  {
    GoodQueueRemove(s.queue, k);
  }

  lemma QueuedKeepsGood(s: State, k: nat, f: Piece, clones: nat)
    requires Good(s) && k < |s.queue| && f.key == s.queue[k].key
    requires 8 * f.offset + f.total <= WORKBUFSIZE ==> Placeable(f)
    ensures Good(AnalyzeQueued(s, k, f, clones))
  {
    if 8 * f.offset + f.total > WORKBUFSIZE {
      GoodQueueRemove(s.queue, k);
    } else {
      var d' := Merge(s.queue[k], f);
      MergeIsFaithful(s.queue[k], f);
      VerifyMeansComplete(d');
      if Complete(d'.fragments) {
        DeliveredIsSound(d', f.request.direction);
        DeliverKeepsGood(s, k, Delivered(d', f.request.direction), Finished(d'), clones,
                         s.freed + RequestsOf(d'.fragments));
      } else {
        GoodQueueUpdate(s.queue, k, d');
      }
    }
  }

  lemma NewKeepsGood(s: State, f: Piece, poolOk: bool)
    requires Good(s) && forall k :: 0 <= k < |s.queue| ==> s.queue[k].key != f.key
    requires 8 * f.offset + f.total <= WORKBUFSIZE ==> Placeable(f)
    ensures Good(AnalyzeNew(s, f, poolOk))
  {
    if 8 * f.offset + f.total <= WORKBUFSIZE {
      FreshIsFaithful(f.key, f.ttl);
      MergeIsFaithful(Fresh(f.key, f.ttl), f);
      SingleIsNotComplete(f);
      assert [f] + [] == [f];
      GoodQueueAppend(s.queue, Merge(Fresh(f.key, f.ttl), f));
    }
  }

  lemma AnalyzeKeepsGood(s: State, r: Request, poolOk: bool, clones: nat)
    requires Good(s) && WellFormed(r)
    ensures Good(Analyze(s, r, poolOk, clones))
  {
    var f := Decode(r);
    if |f.header| <= IP_HDR_SIZE {
      var k := Find(s.queue, f.key, 0);
      if k < |s.queue| {
        QueuedKeepsGood(s, k, f, clones);
      } else {
        NewKeepsGood(s, f, poolOk);
      }
    }
  }

  lemma TickKeepsGood(s: State)
    requires Good(s)
    ensures Good(Age(s))
  {
    var from := ScanAges(s.queue, 0);
    GoodQueueAged(s.queue, Scan(s.queue, 0), from);
  }

  lemma StepKeepsGood(s: State, e: Event)
    requires Good(s) && ValidEvent(e)
    ensures Good(Step(s, e))
  {
    match e
    case Arrive(r, poolOk, clones) => AnalyzeKeepsGood(s, r, poolOk, clones);
    case Tick => TickKeepsGood(s);
    case CloneLoan(_) =>
    case ReleaseLoan(_) =>
  }

  /** Over every run from an empty system: each queued buffer says exactly what its fragments say, every delivery is
      complete and carries its fragments' bytes under a valid header, no complete datagram waits, and each of the
      at most 101 buffers ever allocated is queued, on loan, or free. */
  lemma {:induction false} RunKeepsGood(s: State, es: seq<Event>)
    requires Good(s) && ValidEvents(es)
    ensures Good(Run(s, es))
  {
    if es != [] {
      RunKeepsGood(s, es[..|es| - 1]);
      StepKeepsGood(Run(s, es[..|es| - 1]), es[|es| - 1]);
    }
  }
}
