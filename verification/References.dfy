/** Reference counts across the two layers: packets of the filter below, the firewall requests that hold them, and the
    reassembled requests that hold their fragments. A thread that lets go of something works through the drops that
    follow one interlocked operation or one locked region at a time. */
module References {
  import opened Lists

  datatype Adapter = Detached | On(a: nat)

  /** `refs` is m_References of a packet. `handles` are the references the handler that created it and the clients have
      in hand, `sends` those of sends NDIS has not completed; `released` counts the times its memory was given back. */
  datatype Packet = Packet(refs: int, adapter: Adapter, released: nat, handles: nat, sends: nat)

  /** What reassembly does with a request given to it: it waits for its datagram, or belongs to a reassembled request. */
  datatype Hold = NoHold | ByReassembly | InGroup(g: nat)

  /** A firewall request on a packet; `handles` are the references the request callback and the clients have in hand. */
  datatype Request = Request(refs: int, packet: nat, freed: nat, handles: nat, hold: Hold)

  /** A reassembled request; the first handle is the reassembly thread's. */
  datatype Group = Group(refs: int, fragments: seq<nat>, recycled: nat, handles: nat)

  /** What a thread has still to do. */
  datatype Op =
    | DecPacket(p: nat)          // the interlocked decrement of `FLTFreeCloneRequest`
    | Unlink(p: nat)             // then, under the lock, off the packet list
    | Release(p: nat)            // and the memory back
    | DecRequest(q: nat)         // the interlocked decrement of `FWFreeCloneRequest`
    | FreeRequest(q: nat)        // after the packet's drop: the request back to its list
    | DecGroup(g: nat)
    | RecycleGroup(g: nat)       // after the loop over the fragments
    | LookAdapter(p: nat)        // `SendPacket`, under the lock: read the adapter's handle
    | TakePacket(p: nat, a: nat) // then take a reference
    | CallNdis(p: nat, a: nat)   // and hand the packet over through that handle
    | ReturnPacket(p: nat)       // the caller of the send has its reference back in hand
    | ReturnRequest(q: nat)
    | ReturnGroup(g: nat)

  type Thread = seq<Op>

  /** `list` is g_PacketsList; `open[a]` says that adapter `a` has not been closed. */
  datatype State = State(packets: seq<Packet>, list: seq<nat>, requests: seq<Request>, groups: seq<Group>,
                         open: seq<bool>, threads: seq<Thread>)

  const INIT := State([], [], [], [], [], [])

  datatype Action =
    | OpenAdapter
    | CloseAdapter(a: nat)
    | CreatePacket(a: nat)
    | ClonePacket(p: nat)
    | FreePacket(p: nat)
    | Send(p: nat)
    | SendDone(p: nat)
    | Allocate(p: nat)              // AllocateRequest clones the packet for the request
    | CloneRequest(q: nat)
    | CloneItsPacket(q: nat)        // a client below clones the packet a firewall client is injecting
    | FreeClone(q: nat)
    | SendItsPacket(q: nat)
    | HandOver(q: nat)              // ReassemblePacket: the reference moves to the reassembly queue
    | ReassemblyFrees(q: nat)       // a duplicate, or a fragment of an expired datagram
    | Assemble(fragments: seq<nat>) // a completed datagram takes its fragments over
    | CloneGroup(g: nat)
    | FreeGroup(g: nat)
    | SendFragments(g: nat)
    | Advance(i: nat)               // thread `i` does the next thing it has to do

  // ---- What the threads still owe

  /** What an operation still to be done stands for: a reference not yet given up, or the rest of a release. */
  datatype Claim = OnPacket(p: nat) | Unlinking(p: nat) | Releasing(p: nat) | OnRequest(q: nat) | Freeing(q: nat)
                 | OnGroup(g: nat) | Recycling(g: nat) | Nothing

  function ClaimOf(o: Op): Claim {
    match o
    case DecPacket(p) => OnPacket(p)
    case Unlink(p) => Unlinking(p)
    case Release(p) => Releasing(p)
    case DecRequest(q) => OnRequest(q)
    case FreeRequest(q) => Freeing(q)
    case DecGroup(g) => OnGroup(g)
    case RecycleGroup(g) => Recycling(g)
    case LookAdapter(_) => Nothing
    case TakePacket(_, _) => Nothing
    case CallNdis(p, _) => OnPacket(p)
    case ReturnPacket(p) => OnPacket(p)
    case ReturnRequest(q) => OnRequest(q)
    case ReturnGroup(g) => OnGroup(g)
  }

  function Tally(t: Thread, c: Claim): nat {
    if t == [] then 0 else One(ClaimOf(t[0]) == c) + Tally(t[1..], c)
  }

  function Total(threads: seq<Thread>, c: Claim): nat {
    if threads == [] then 0 else Total(threads[..|threads| - 1], c) + Tally(threads[|threads| - 1], c)
  }

  /** A live request on packet `p`. */
  function Weight(r: Request, p: nat): nat {
    One(r.packet == p && r.refs > 0)
  }

  function LiveOn(requests: seq<Request>, p: nat): nat {
    if requests == [] then 0
    else LiveOn(requests[..|requests| - 1], p) + Weight(requests[|requests| - 1], p)
  }

  lemma {:induction false} TallyAppend(t: Thread, u: Thread, c: Claim)
    ensures Tally(t + u, c) == Tally(t, c) + Tally(u, c)
  {
    if t == [] {
      assert t + u == u;
    } else {
      TallyAppend(t[1..], u, c);
      assert (t + u)[1..] == t[1..] + u;
    }
  }

  lemma {:induction false} TotalUpdate(threads: seq<Thread>, i: nat, t: Thread, c: Claim)
    requires i < |threads|
    ensures Total(threads[i := t], c) == Total(threads, c) - Tally(threads[i], c) + Tally(t, c)
  {
    var n := |threads| - 1;
    var updated := threads[i := t];
    if i < n {
      TotalUpdate(threads[..n], i, t, c);
      assert updated[..n] == threads[..n][i := t];
    } else {
      assert updated[..n] == threads[..n];
    }
  }

  lemma {:induction false} TotalAtLeast(threads: seq<Thread>, i: nat, c: Claim)
    requires i < |threads|
    ensures Total(threads, c) >= Tally(threads[i], c)
  {
    var n := |threads| - 1;
    if i < n {
      TotalAtLeast(threads[..n], i, c);
    }
  }

  /** Thread `i` has done its next operation, which left it `more` to do first. */
  function Continue(threads: seq<Thread>, i: nat, more: Thread): seq<Thread>
    requires i < |threads| && threads[i] != []
  {
    threads[i := more + threads[i][1..]]
  }

  lemma ContinueTotal(threads: seq<Thread>, i: nat, more: Thread, c: Claim)
    requires i < |threads| && threads[i] != []
    ensures Total(Continue(threads, i, more), c)
         == Total(threads, c) - One(ClaimOf(threads[i][0]) == c) + Tally(more, c)
  {
    TotalUpdate(threads, i, more + threads[i][1..], c);
    TallyAppend(more, threads[i][1..], c);
  }

  lemma SpawnTotal(threads: seq<Thread>, t: Thread, c: Claim)
    ensures Total(threads + [t], c) == Total(threads, c) + Tally(t, c)
  {
    assert (threads + [t])[..|threads|] == threads;
  }

  lemma {:induction false} LiveOnUpdate(requests: seq<Request>, q: nat, r: Request, p: nat)
    requires q < |requests|
    ensures LiveOn(requests[q := r], p) == LiveOn(requests, p) - Weight(requests[q], p) + Weight(r, p)
  {
    var n := |requests| - 1;
    var updated := requests[q := r];
    if q < n {
      LiveOnUpdate(requests[..n], q, r, p);
      assert updated[..n] == requests[..n][q := r];
    } else {
      assert updated[..n] == requests[..n];
    }
  }

  lemma {:induction false} LiveOnLeast(requests: seq<Request>, q: nat)
    requires q < |requests| && requests[q].refs > 0
    ensures LiveOn(requests, requests[q].packet) > 0
  {
    var n := |requests| - 1;
    if q < n {
      LiveOnLeast(requests[..n], q);
    }
  }

  lemma {:induction false} LiveOnSame(requests: seq<Request>, requests': seq<Request>, p: nat)
    requires |requests| == |requests'|
    requires forall q :: 0 <= q < |requests| ==>
               requests'[q].packet == requests[q].packet && requests'[q].refs == requests[q].refs
    ensures LiveOn(requests, p) == LiveOn(requests', p)
  {
    if requests != [] {
      LiveOnSame(requests[..|requests| - 1], requests'[..|requests| - 1], p);
    }
  }

  // ---- The steps

  predicate AllBelow(ids: seq<nat>, bound: nat) {
    forall k :: 0 <= k < |ids| ==> ids[k] < bound
  }

  /** The next thing thread `i` has to do names things that exist. */
  predicate CanAdvance(s: State, i: nat) {
    i < |s.threads| && s.threads[i] != [] && OpKnown(s, s.threads[i][0])
  }

  predicate OpKnown(s: State, o: Op) {
    match o
    case DecPacket(p) => p < |s.packets|
    case Unlink(p) => p < |s.packets|
    case Release(p) => p < |s.packets|
    case DecRequest(q) => q < |s.requests| && s.requests[q].packet < |s.packets|
    case FreeRequest(q) => q < |s.requests|
    case DecGroup(g) => g < |s.groups| && AllBelow(s.groups[g].fragments, |s.requests|)
    case RecycleGroup(g) => g < |s.groups|
    case LookAdapter(p) => p < |s.packets|
    case TakePacket(p, a) => p < |s.packets| && a < |s.open|
    case CallNdis(p, a) => p < |s.packets| && a < |s.open|
    case ReturnPacket(p) => p < |s.packets|
    case ReturnRequest(q) => q < |s.requests|
    case ReturnGroup(g) => g < |s.groups|
  }

  predicate HeldPacket(s: State, p: nat) { p < |s.packets| && s.packets[p].handles > 0 }

  predicate HeldRequest(s: State, q: nat) {
    q < |s.requests| && s.requests[q].handles > 0 && s.requests[q].packet < |s.packets|
  }

  predicate HeldGroup(s: State, g: nat) {
    g < |s.groups| && s.groups[g].handles > 0 && AllBelow(s.groups[g].fragments, |s.requests|)
  }

  /** Clients let go of, and work with, only what they have in hand. */
  predicate Enabled(s: State, a: Action) {
    match a
    case OpenAdapter => true
    case CloseAdapter(n) => n < |s.open| && s.open[n]
    case CreatePacket(n) => n < |s.open| && s.open[n]
    case ClonePacket(p) => HeldPacket(s, p)
    case FreePacket(p) => HeldPacket(s, p)
    case Send(p) => HeldPacket(s, p)
    case SendDone(p) => p < |s.packets| && s.packets[p].sends > 0
    case Allocate(p) => HeldPacket(s, p)
    case CloneRequest(q) => HeldRequest(s, q)
    case CloneItsPacket(q) => HeldRequest(s, q)
    case FreeClone(q) => HeldRequest(s, q)
    case SendItsPacket(q) => HeldRequest(s, q)
    case HandOver(q) => HeldRequest(s, q) && s.requests[q].hold == NoHold
    case ReassemblyFrees(q) => q < |s.requests| && s.requests[q].hold == ByReassembly
    case Assemble(fragments) =>
      && (forall j, k :: 0 <= j < k < |fragments| ==> fragments[j] != fragments[k])
      && AllBelow(fragments, |s.requests|)
      && forall k :: 0 <= k < |fragments| ==> s.requests[fragments[k]].hold == ByReassembly
    case CloneGroup(g) => HeldGroup(s, g)
    case FreeGroup(g) => HeldGroup(s, g)
    case SendFragments(g) => HeldGroup(s, g)
    case Advance(i) => CanAdvance(s, i)
  }

  function PutPacket(s: State, p: nat, k: Packet): State
    requires p < |s.packets|
  {
    s.(packets := s.packets[p := k])
  }

  function PutRequest(s: State, q: nat, r: Request): State
    requires q < |s.requests|
  {
    s.(requests := s.requests[q := r])
  }

  function PutGroup(s: State, g: nat, r: Group): State
    requires g < |s.groups|
  {
    s.(groups := s.groups[g := r])
  }

  function Spawn(s: State, t: Thread): State {
    s.(threads := s.threads + [t])
  }

  /** The packets on the list that came from adapter `a` are detached from it. */
  function DetachAll(packets: seq<Packet>, list: seq<nat>, a: nat): (detached: seq<Packet>)
    ensures |detached| == |packets|
    ensures forall p :: 0 <= p < |packets| ==> detached[p] == Detach(packets[p], p in list, a)
  {
    seq(|packets|, p requires 0 <= p < |packets| => Detach(packets[p], p in list, a))
  }

  function Detach(k: Packet, listed: bool, a: nat): Packet {
    if listed && k.adapter == On(a) then k.(adapter := Detached) else k
  }

  function Create(s: State, a: nat): State {
    s.(packets := s.packets + [Packet(1, On(a), 0, 1, 0)], list := s.list + [|s.packets|])
  }

  /** One more reference, in hand. */
  function AnotherHandle(k: Packet): Packet { k.(refs := k.refs + 1, handles := k.handles + 1) }

  function AllocateOn(s: State, p: nat): State
    requires p < |s.packets|
  {
    PutPacket(s, p, s.packets[p].(refs := s.packets[p].refs + 1)).(
      requests := s.requests + [Request(1, p, 0, 1, NoHold)])
  }

  /** The reference a request's holder had is now reassembly's, a group's, or a thread's. */
  function Rehold(requests: seq<Request>, fragments: seq<nat>, h: Hold): (reheld: seq<Request>)
    ensures |reheld| == |requests|
    ensures forall q :: 0 <= q < |requests| ==>
              reheld[q] == if q in fragments then requests[q].(hold := h) else requests[q]
  {
    seq(|requests|, q requires 0 <= q < |requests| =>
      if q in fragments then requests[q].(hold := h) else requests[q])
  }

  function AssembleAll(s: State, fragments: seq<nat>): State {
    s.(requests := Rehold(s.requests, fragments, InGroup(|s.groups|)), groups := s.groups + [Group(1, fragments, 0, 1)])
  }

  /** The loop over the fragments of a reassembled request at its last drop. */
  function Drops(fragments: seq<nat>): (t: Thread)
    ensures |t| == |fragments| && forall k :: 0 <= k < |fragments| ==> t[k] == DecRequest(fragments[k])
  {
    seq(|fragments|, k requires 0 <= k < |fragments| => DecRequest(fragments[k]))
  }

  /** And the loop that injects each of them below. */
  function Looks(requests: seq<Request>, fragments: seq<nat>): (t: Thread)
    requires AllBelow(fragments, |requests|)
    ensures |t| == |fragments|
    ensures forall k :: 0 <= k < |fragments| ==> t[k] == LookAdapter(requests[fragments[k]].packet)
  {
    seq(|fragments|, k requires 0 <= k < |fragments| => LookAdapter(requests[fragments[k]].packet))
  }

  // What one operation of a thread does; `more` is what it leaves the thread to do first.

  function DoDecPacket(s: State, i: nat, p: nat): State
    requires CanAdvance(s, i) && p < |s.packets|
  {
    var k := s.packets[p].(refs := s.packets[p].refs - 1);
    PutPacket(s, p, k).(threads := Continue(s.threads, i, if k.refs == 0 then [Unlink(p)] else []))
  }

  function DoUnlink(s: State, i: nat, p: nat): State
    requires CanAdvance(s, i)
  {
    s.(list := Without(s.list, p), threads := Continue(s.threads, i, [Release(p)]))
  }

  function DoRelease(s: State, i: nat, p: nat): State
    requires CanAdvance(s, i) && p < |s.packets|
  {
    PutPacket(s, p, s.packets[p].(released := s.packets[p].released + 1)).(threads := Continue(s.threads, i, []))
  }

  function DoDecRequest(s: State, i: nat, q: nat): State
    requires CanAdvance(s, i) && q < |s.requests|
  {
    var r := s.requests[q].(refs := s.requests[q].refs - 1);
    PutRequest(s, q, r).(
      threads := Continue(s.threads, i, if r.refs == 0 then [DecPacket(r.packet), FreeRequest(q)] else []))
  }

  function DoFreeRequest(s: State, i: nat, q: nat): State
    requires CanAdvance(s, i) && q < |s.requests|
  {
    PutRequest(s, q, s.requests[q].(freed := s.requests[q].freed + 1)).(threads := Continue(s.threads, i, []))
  }

  /** The last decrement leaves the references the group held to the thread that goes on to free the fragments. */
  function DoDecGroup(s: State, i: nat, g: nat): State
    requires CanAdvance(s, i) && g < |s.groups|
  {
    var r := s.groups[g].(refs := s.groups[g].refs - 1);
    if r.refs == 0 then
      PutGroup(s, g, r).(requests := Rehold(s.requests, r.fragments, NoHold),
                         threads := Continue(s.threads, i, Drops(r.fragments) + [RecycleGroup(g)]))
    else PutGroup(s, g, r).(threads := Continue(s.threads, i, []))
  }

  function DoRecycle(s: State, i: nat, g: nat): State
    requires CanAdvance(s, i) && g < |s.groups|
  {
    PutGroup(s, g, s.groups[g].(recycled := s.groups[g].recycled + 1)).(threads := Continue(s.threads, i, []))
  }

  function DoLook(s: State, i: nat, p: nat): State
    requires CanAdvance(s, i) && p < |s.packets|
  {
    var a := s.packets[p].adapter;
    s.(threads := Continue(s.threads, i, if a.On? then [TakePacket(p, a.a)] else []))
  }

  function DoTake(s: State, i: nat, p: nat, a: nat): State
    requires CanAdvance(s, i) && p < |s.packets|
  {
    PutPacket(s, p, s.packets[p].(refs := s.packets[p].refs + 1)).(threads := Continue(s.threads, i, [CallNdis(p, a)]))
  }

  function DoCall(s: State, i: nat, p: nat): State
    requires CanAdvance(s, i) && p < |s.packets|
  {
    PutPacket(s, p, s.packets[p].(sends := s.packets[p].sends + 1)).(threads := Continue(s.threads, i, []))
  }

  function DoReturnPacket(s: State, i: nat, p: nat): State
    requires CanAdvance(s, i) && p < |s.packets|
  {
    PutPacket(s, p, s.packets[p].(handles := s.packets[p].handles + 1)).(threads := Continue(s.threads, i, []))
  }

  function DoReturnRequest(s: State, i: nat, q: nat): State
    requires CanAdvance(s, i) && q < |s.requests|
  {
    PutRequest(s, q, s.requests[q].(handles := s.requests[q].handles + 1)).(threads := Continue(s.threads, i, []))
  }

  function DoReturnGroup(s: State, i: nat, g: nat): State
    requires CanAdvance(s, i) && g < |s.groups|
  {
    PutGroup(s, g, s.groups[g].(handles := s.groups[g].handles + 1)).(threads := Continue(s.threads, i, []))
  }

  function Do(s: State, i: nat): State
    requires CanAdvance(s, i)
  {
    match s.threads[i][0]
    case DecPacket(p) => DoDecPacket(s, i, p)
    case Unlink(p) => DoUnlink(s, i, p)
    case Release(p) => DoRelease(s, i, p)
    case DecRequest(q) => DoDecRequest(s, i, q)
    case FreeRequest(q) => DoFreeRequest(s, i, q)
    case DecGroup(g) => DoDecGroup(s, i, g)
    case RecycleGroup(g) => DoRecycle(s, i, g)
    case LookAdapter(p) => DoLook(s, i, p)
    case TakePacket(p, a) => DoTake(s, i, p, a)
    case CallNdis(p, _) => DoCall(s, i, p)
    case ReturnPacket(p) => DoReturnPacket(s, i, p)
    case ReturnRequest(q) => DoReturnRequest(s, i, q)
    case ReturnGroup(g) => DoReturnGroup(s, i, g)
  }

  // What an action of a handler, a client or the reassembly does.

  /** A packet reference in hand goes to a new thread. */
  function Part(s: State, p: nat, t: Thread): State
    requires HeldPacket(s, p)
  {
    Spawn(PutPacket(s, p, s.packets[p].(handles := s.packets[p].handles - 1)), t)
  }

  function PartRequest(s: State, q: nat, t: Thread): State
    requires q < |s.requests| && s.requests[q].handles > 0
  {
    Spawn(PutRequest(s, q, s.requests[q].(handles := s.requests[q].handles - 1)), t)
  }

  function PartGroup(s: State, g: nat, t: Thread): State
    requires HeldGroup(s, g)
  {
    Spawn(PutGroup(s, g, s.groups[g].(handles := s.groups[g].handles - 1)), t)
  }

  function PartSend(s: State, p: nat): State
    requires p < |s.packets| && s.packets[p].sends > 0
  {
    Spawn(PutPacket(s, p, s.packets[p].(sends := s.packets[p].sends - 1)), [DecPacket(p)])
  }

  function Queue(s: State, q: nat): State
    requires HeldRequest(s, q)
  {
    PutRequest(s, q, s.requests[q].(handles := s.requests[q].handles - 1, hold := ByReassembly))
  }

  function Unqueue(s: State, q: nat): State
    requires q < |s.requests|
  {
    Spawn(PutRequest(s, q, s.requests[q].(hold := NoHold)), [DecRequest(q)])
  }

  function AnotherRequest(s: State, q: nat): State
    requires q < |s.requests|
  {
    PutRequest(s, q, s.requests[q].(refs := s.requests[q].refs + 1, handles := s.requests[q].handles + 1))
  }

  function AnotherGroup(s: State, g: nat): State
    requires g < |s.groups|
  {
    PutGroup(s, g, s.groups[g].(refs := s.groups[g].refs + 1, handles := s.groups[g].handles + 1))
  }

  function Close(s: State, a: nat): State
    requires a < |s.open|
  {
    s.(packets := DetachAll(s.packets, s.list, a), open := s.open[a := false])
  }

  function Step(s: State, a: Action): State {
    if !Enabled(s, a) then s
    else
      match a
      case OpenAdapter => s.(open := s.open + [true])
      case CloseAdapter(n) => Close(s, n)
      case CreatePacket(n) => Create(s, n)
      case ClonePacket(p) => PutPacket(s, p, AnotherHandle(s.packets[p]))
      case FreePacket(p) => Part(s, p, [DecPacket(p)])
      case Send(p) => Part(s, p, [LookAdapter(p), ReturnPacket(p)])
      case SendDone(p) => PartSend(s, p)
      case Allocate(p) => AllocateOn(s, p)
      case CloneRequest(q) => AnotherRequest(s, q)
      case CloneItsPacket(q) => PutPacket(s, s.requests[q].packet, AnotherHandle(s.packets[s.requests[q].packet]))
      case FreeClone(q) => PartRequest(s, q, [DecRequest(q)])
      case SendItsPacket(q) => PartRequest(s, q, [LookAdapter(s.requests[q].packet), ReturnRequest(q)])
      case HandOver(q) => Queue(s, q)
      case ReassemblyFrees(q) => Unqueue(s, q)
      case Assemble(fragments) => AssembleAll(s, fragments)
      case CloneGroup(g) => AnotherGroup(s, g)
      case FreeGroup(g) => PartGroup(s, g, [DecGroup(g)])
      case SendFragments(g) => PartGroup(s, g, Looks(s.requests, s.groups[g].fragments) + [ReturnGroup(g)])
      case Advance(i) => Do(s, i)
  }

  function Run(s: State, acts: seq<Action>): State {
    if acts == [] then s else Step(Run(s, acts[..|acts| - 1]), acts[|acts| - 1])
  }

  // ---- The invariant

  /** A packet and the claims on it: live requests, references threads have still to give up, and the two halves of its
      release still to be done. */
  predicate PacketSound(k: Packet, live: nat, owed: nat, unlinking: nat, releasing: nat, listed: bool) {
    && k.refs == k.handles + k.sends + live + owed
    && k.released + unlinking + releasing == One(k.refs == 0)
    && (listed <==> k.refs > 0 || unlinking > 0)
  }

  predicate RequestSound(r: Request, owed: nat, freeing: nat) {
    && r.refs == r.handles + One(r.hold != NoHold) + owed
    && r.freed + freeing == One(r.refs == 0)
  }

  predicate GroupSound(g: Group, owed: nat, recycling: nat) {
    && g.refs == g.handles + owed
    && g.recycled + recycling == One(g.refs == 0)
  }

  ghost predicate PacketFits(s: State, p: nat)
    requires p < |s.packets|
  {
    PacketSound(s.packets[p], LiveOn(s.requests, p), Total(s.threads, OnPacket(p)), Total(s.threads, Unlinking(p)),
                Total(s.threads, Releasing(p)), p in s.list)
  }

  ghost predicate RequestFits(s: State, q: nat)
    requires q < |s.requests|
  {
    RequestSound(s.requests[q], Total(s.threads, OnRequest(q)), Total(s.threads, Freeing(q)))
  }

  ghost predicate GroupFits(s: State, g: nat)
    requires g < |s.groups|
  {
    GroupSound(s.groups[g], Total(s.threads, OnGroup(g)), Total(s.threads, Recycling(g)))
  }

  ghost predicate PacketsInv(s: State) {
    AllBelow(s.list, |s.packets|) && forall p :: 0 <= p < |s.packets| ==> PacketFits(s, p)
  }

  ghost predicate RequestsInv(s: State) {
    forall q :: 0 <= q < |s.requests| ==> s.requests[q].packet < |s.packets| && RequestFits(s, q)
  }

  ghost predicate GroupsInv(s: State) {
    forall g :: 0 <= g < |s.groups| ==>
      AllBelow(s.groups[g].fragments, |s.requests|) && NoDuplicates(s.groups[g].fragments) && GroupFits(s, g)
  }

  /** A live reassembled request, and nobody else, holds the first reference of its fragments. */
  ghost predicate FragmentsInv(requests: seq<Request>, groups: seq<Group>) {
    forall q: nat, g: nat :: q < |requests| ==>
      (requests[q].hold == InGroup(g) <==> g < |groups| && groups[g].refs > 0 && q in groups[g].fragments)
  }

  ghost predicate AdaptersInv(s: State) {
    forall p :: 0 <= p < |s.packets| && s.packets[p].refs > 0 && s.packets[p].adapter.On? ==>
      s.packets[p].adapter.a < |s.open| && s.open[s.packets[p].adapter.a]
  }

  /** The last thing a sending thread does is to give its reference back: to the packet itself, to a request on it, or to
      a reassembled request with a fragment on it. */
  ghost predicate Covers(s: State, o: Op, p: nat) {
    match o
    case ReturnPacket(x) => x == p
    case ReturnRequest(q) => q < |s.requests| && s.requests[q].packet == p
    case ReturnGroup(g) =>
      g < |s.groups| && exists k :: 0 <= k < |s.groups[g].fragments| && s.groups[g].fragments[k] < |s.requests|
                                    && s.requests[s.groups[g].fragments[k]].packet == p
    case _ => false
  }

  ghost predicate OpInv(s: State, t: Thread, k: nat)
    requires k < |t|
  {
    && OpKnown(s, t[k])
    && (t[k].LookAdapter? || t[k].TakePacket? ==> Covers(s, t[|t| - 1], t[k].p))
    && (t[k].TakePacket? || t[k].CallNdis? ==> k == 0)
  }

  ghost predicate ThreadInv(s: State, t: Thread) {
    forall k :: 0 <= k < |t| ==> OpInv(s, t, k)
  }

  ghost predicate ThreadsInv(s: State) {
    forall i :: 0 <= i < |s.threads| ==> ThreadInv(s, s.threads[i])
  }

  ghost predicate Inv(s: State) {
    && PacketsInv(s) && RequestsInv(s) && GroupsInv(s) && FragmentsInv(s.requests, s.groups) && AdaptersInv(s)
    && ThreadsInv(s)
  }

  // ---- Threads

  /** What a step never changes: a request stays on its packet, a reassembled request keeps its fragments. */
  ghost predicate Static(s: State, s': State) {
    && |s'.packets| >= |s.packets| && |s'.requests| >= |s.requests| && |s'.groups| >= |s.groups| && |s'.open| >= |s.open|
    && (forall q :: 0 <= q < |s.requests| ==> s'.requests[q].packet == s.requests[q].packet)
    && (forall g :: 0 <= g < |s.groups| ==> s'.groups[g].fragments == s.groups[g].fragments)
  }

  lemma CoversKept(s: State, s': State, o: Op, p: nat)
    requires Static(s, s') && Covers(s, o, p)
    ensures Covers(s', o, p)
  {
    if o.ReturnGroup? {
      var k :| 0 <= k < |s.groups[o.g].fragments| && s.groups[o.g].fragments[k] < |s.requests|
               && s.requests[s.groups[o.g].fragments[k]].packet == p;
      assert s'.groups[o.g].fragments[k] == s.groups[o.g].fragments[k];
    }
  }

  lemma OpKnownKept(s: State, s': State, o: Op)
    requires Static(s, s') && OpKnown(s, o)
    ensures OpKnown(s', o)
  {
  }

  lemma ThreadKept(s: State, s': State, t: Thread)
    requires Static(s, s') && ThreadInv(s, t)
    ensures ThreadInv(s', t)
  {
    forall k | 0 <= k < |t|
      ensures OpInv(s', t, k)
    {
      assert OpInv(s, t, k);
      OpKnownKept(s, s', t[k]);
      if t[k].LookAdapter? || t[k].TakePacket? {
        CoversKept(s, s', t[|t| - 1], t[k].p);
      }
    }
  }

  /** The thread that takes a step: it goes on to `more`, then to what it had left. */
  lemma ThreadGoesOn(s: State, t: Thread, more: Thread)
    requires ThreadInv(s, t) && t != [] && ThreadInv(s, more)
    requires forall k :: 0 <= k < |more| ==> !more[k].LookAdapter? && !more[k].TakePacket?
    ensures ThreadInv(s, more + t[1..])
  {
    var u := more + t[1..];
    forall k | 0 <= k < |u|
      ensures OpInv(s, u, k)
    {
      if k < |more| {
        assert OpInv(s, more, k);
      } else {
        assert OpInv(s, t, k - |more| + 1);
        assert u[|u| - 1] == t[|t| - 1];
      }
    }
  }

  lemma ContinueKeepsThreads(s: State, s': State, i: nat, more: Thread)
    requires ThreadsInv(s) && Static(s, s') && i < |s.threads| && s.threads[i] != []
    requires s'.threads == Continue(s.threads, i, more) && ThreadInv(s', more + s.threads[i][1..])
    ensures ThreadsInv(s')
  {
    forall j | 0 <= j < |s'.threads|
      ensures ThreadInv(s', s'.threads[j])
    {
      if j != i {
        assert ThreadInv(s, s.threads[j]);
        ThreadKept(s, s', s.threads[j]);
      }
    }
  }

  lemma GoOnKeepsThreads(s: State, s': State, i: nat, more: Thread)
    requires ThreadsInv(s) && Static(s, s') && i < |s.threads| && s.threads[i] != []
    requires s'.threads == Continue(s.threads, i, more) && ThreadInv(s', more)
    requires forall k :: 0 <= k < |more| ==> !more[k].LookAdapter? && !more[k].TakePacket?
    ensures ThreadsInv(s')
  {
    assert ThreadInv(s, s.threads[i]);
    ThreadKept(s, s', s.threads[i]);
    ThreadGoesOn(s', s.threads[i], more);
    ContinueKeepsThreads(s, s', i, more);
  }

  lemma SpawnKeepsThreads(s: State, s': State, t: Thread)
    requires ThreadsInv(s) && Static(s, s') && s'.threads == s.threads + [t] && ThreadInv(s', t)
    ensures ThreadsInv(s')
  {
    forall j | 0 <= j < |s'.threads|
      ensures ThreadInv(s', s'.threads[j])
    {
      if j < |s.threads| {
        assert ThreadInv(s, s.threads[j]);
        ThreadKept(s, s', s.threads[j]);
      }
    }
  }

  lemma SameThreadsKept(s: State, s': State)
    requires ThreadsInv(s) && Static(s, s') && s'.threads == s.threads
    ensures ThreadsInv(s')
  {
    forall j | 0 <= j < |s'.threads|
      ensures ThreadInv(s', s'.threads[j])
    {
      assert ThreadInv(s, s.threads[j]);
      ThreadKept(s, s', s.threads[j]);
    }
  }

  // ---- Claims

  predicate AboutPacket(c: Claim) { c.OnPacket? || c.Unlinking? || c.Releasing? }

  predicate AboutRequest(c: Claim) { c.OnRequest? || c.Freeing? }

  predicate AboutGroup(c: Claim) { c.OnGroup? || c.Recycling? }

  ghost predicate SameClaims(threads: seq<Thread>, threads': seq<Thread>, c: Claim) {
    Total(threads', c) == Total(threads, c)
  }

  ghost predicate PacketClaimsKept(threads: seq<Thread>, threads': seq<Thread>, p: nat) {
    && SameClaims(threads, threads', OnPacket(p)) && SameClaims(threads, threads', Unlinking(p))
    && SameClaims(threads, threads', Releasing(p))
  }

  ghost predicate RequestClaimsKept(threads: seq<Thread>, threads': seq<Thread>, q: nat) {
    SameClaims(threads, threads', OnRequest(q)) && SameClaims(threads, threads', Freeing(q))
  }

  ghost predicate GroupClaimsKept(threads: seq<Thread>, threads': seq<Thread>, g: nat) {
    SameClaims(threads, threads', OnGroup(g)) && SameClaims(threads, threads', Recycling(g))
  }

  /** Packets nothing happens to. */
  lemma PacketsFrame(s: State, s': State)
    requires PacketsInv(s) && s'.packets == s.packets && s'.list == s.list
    requires forall p :: 0 <= p < |s.packets| ==>
               LiveOn(s'.requests, p) == LiveOn(s.requests, p) && PacketClaimsKept(s.threads, s'.threads, p)
    ensures PacketsInv(s')
  {
    forall p | 0 <= p < |s.packets|
      ensures PacketFits(s', p)
    {
      assert PacketFits(s, p) && PacketClaimsKept(s.threads, s'.threads, p);
    }
  }

  lemma RequestsFrame(s: State, s': State)
    requires RequestsInv(s) && s'.requests == s.requests && |s'.packets| >= |s.packets|
    requires forall q :: 0 <= q < |s.requests| ==> RequestClaimsKept(s.threads, s'.threads, q)
    ensures RequestsInv(s')
  {
    forall q | 0 <= q < |s.requests|
      ensures s'.requests[q].packet < |s'.packets| && RequestFits(s', q)
    {
      assert RequestFits(s, q) && RequestClaimsKept(s.threads, s'.threads, q);
    }
  }

  lemma GroupsFrame(s: State, s': State)
    requires GroupsInv(s) && s'.groups == s.groups && |s'.requests| >= |s.requests|
    requires forall g :: 0 <= g < |s.groups| ==> GroupClaimsKept(s.threads, s'.threads, g)
    ensures GroupsInv(s')
  {
    forall g | 0 <= g < |s.groups|
      ensures GroupFits(s', g)
    {
      assert GroupFits(s, g) && GroupClaimsKept(s.threads, s'.threads, g);
    }
  }

  /** None of the operations makes the claim. */
  predicate Silent(t: Thread, c: Claim) {
    forall k :: 0 <= k < |t| ==> ClaimOf(t[k]) != c
  }

  lemma {:induction false} SilentTally(t: Thread, c: Claim)
    requires Silent(t, c)
    ensures Tally(t, c) == 0
  {
    if t != [] {
      SilentTally(t[1..], c);
    }
  }

  lemma ContinueKeepsClaims(threads: seq<Thread>, i: nat, more: Thread, c: Claim)
    requires i < |threads| && threads[i] != [] && ClaimOf(threads[i][0]) != c && Silent(more, c)
    ensures SameClaims(threads, Continue(threads, i, more), c)
  {
    ContinueTotal(threads, i, more, c);
    SilentTally(more, c);
  }

  /** An operation that is not about packets, followed by others that are not. */
  lemma ContinueOffPackets(s: State, s': State, i: nat, more: Thread)
    requires PacketsInv(s) && s'.packets == s.packets && s'.list == s.list
    requires forall p :: 0 <= p < |s.packets| ==> LiveOn(s'.requests, p) == LiveOn(s.requests, p)
    requires i < |s.threads| && s.threads[i] != [] && s'.threads == Continue(s.threads, i, more)
    requires !AboutPacket(ClaimOf(s.threads[i][0])) && forall k :: 0 <= k < |more| ==> !AboutPacket(ClaimOf(more[k]))
    ensures PacketsInv(s')
  {
    forall p | 0 <= p < |s.packets|
      ensures PacketClaimsKept(s.threads, s'.threads, p)
    {
      ContinueKeepsClaims(s.threads, i, more, OnPacket(p));
      ContinueKeepsClaims(s.threads, i, more, Unlinking(p));
      ContinueKeepsClaims(s.threads, i, more, Releasing(p));
    }
    PacketsFrame(s, s');
  }

  lemma ContinueOffRequests(s: State, s': State, i: nat, more: Thread)
    requires RequestsInv(s) && s'.requests == s.requests && |s'.packets| >= |s.packets|
    requires i < |s.threads| && s.threads[i] != [] && s'.threads == Continue(s.threads, i, more)
    requires !AboutRequest(ClaimOf(s.threads[i][0])) && forall k :: 0 <= k < |more| ==> !AboutRequest(ClaimOf(more[k]))
    ensures RequestsInv(s')
  {
    forall q | 0 <= q < |s.requests|
      ensures RequestClaimsKept(s.threads, s'.threads, q)
    {
      ContinueKeepsClaims(s.threads, i, more, OnRequest(q));
      ContinueKeepsClaims(s.threads, i, more, Freeing(q));
    }
    RequestsFrame(s, s');
  }

  lemma ContinueOffGroups(s: State, s': State, i: nat, more: Thread)
    requires GroupsInv(s) && s'.groups == s.groups && |s'.requests| >= |s.requests|
    requires i < |s.threads| && s.threads[i] != [] && s'.threads == Continue(s.threads, i, more)
    requires !AboutGroup(ClaimOf(s.threads[i][0])) && forall k :: 0 <= k < |more| ==> !AboutGroup(ClaimOf(more[k]))
    ensures GroupsInv(s')
  {
    forall g | 0 <= g < |s.groups|
      ensures GroupClaimsKept(s.threads, s'.threads, g)
    {
      ContinueKeepsClaims(s.threads, i, more, OnGroup(g));
      ContinueKeepsClaims(s.threads, i, more, Recycling(g));
    }
    GroupsFrame(s, s');
  }

  lemma SpawnKeepsClaims(threads: seq<Thread>, t: Thread, c: Claim)
    requires Silent(t, c)
    ensures SameClaims(threads, threads + [t], c)
  {
    SpawnTotal(threads, t, c);
    SilentTally(t, c);
  }

  lemma SpawnOffRequests(s: State, s': State, t: Thread)
    requires RequestsInv(s) && s'.requests == s.requests && |s'.packets| >= |s.packets| && s'.threads == s.threads + [t]
    requires forall k :: 0 <= k < |t| ==> !AboutRequest(ClaimOf(t[k]))
    ensures RequestsInv(s')
  {
    forall q | 0 <= q < |s.requests|
      ensures RequestClaimsKept(s.threads, s'.threads, q)
    {
      SpawnKeepsClaims(s.threads, t, OnRequest(q));
      SpawnKeepsClaims(s.threads, t, Freeing(q));
    }
    RequestsFrame(s, s');
  }

  lemma SpawnOffGroups(s: State, s': State, t: Thread)
    requires GroupsInv(s) && s'.groups == s.groups && |s'.requests| >= |s.requests| && s'.threads == s.threads + [t]
    requires forall k :: 0 <= k < |t| ==> !AboutGroup(ClaimOf(t[k]))
    ensures GroupsInv(s')
  {
    forall g | 0 <= g < |s.groups|
      ensures GroupClaimsKept(s.threads, s'.threads, g)
    {
      SpawnKeepsClaims(s.threads, t, OnGroup(g));
      SpawnKeepsClaims(s.threads, t, Recycling(g));
    }
    GroupsFrame(s, s');
  }

  // ---- Operations on packets

  /** Claims about packets name packet `p` only. */
  predicate OnlyPacket(t: Thread, p: nat) {
    forall k :: 0 <= k < |t| ==> AboutPacket(ClaimOf(t[k])) ==> ClaimOf(t[k]).p == p
  }

  /** At most packet `p` changes. */
  ghost predicate OthersKept(s: State, s': State, p: nat) {
    && |s'.packets| == |s.packets| && AllBelow(s'.list, |s'.packets|)
    && forall j :: 0 <= j < |s.packets| && j != p ==>
         s'.packets[j] == s.packets[j] && (j in s'.list <==> j in s.list)
         && LiveOn(s'.requests, j) == LiveOn(s.requests, j) && PacketClaimsKept(s.threads, s'.threads, j)
  }

  lemma OnePacketChanges(s: State, s': State, p: nat)
    requires PacketsInv(s) && p < |s.packets| && OthersKept(s, s', p) && PacketFits(s', p)
    ensures PacketsInv(s')
  {
    forall j | 0 <= j < |s'.packets|
      ensures PacketFits(s', j)
    {
      if j != p {
        assert PacketFits(s, j) && PacketClaimsKept(s.threads, s'.threads, j);
      }
    }
  }

  lemma ContinueKeepsOthers(threads: seq<Thread>, i: nat, more: Thread, p: nat, j: nat)
    requires i < |threads| && threads[i] != [] && j != p && OnlyPacket(more, p) && OnlyPacket([threads[i][0]], p)
    ensures PacketClaimsKept(threads, Continue(threads, i, more), j)
  {
    assert [threads[i][0]][0] == threads[i][0];
    ContinueKeepsClaims(threads, i, more, OnPacket(j));
    ContinueKeepsClaims(threads, i, more, Unlinking(j));
    ContinueKeepsClaims(threads, i, more, Releasing(j));
  }

  lemma ContinueOnPacket(s: State, s': State, i: nat, more: Thread, p: nat)
    requires PacketsInv(s) && p < |s.packets| && |s'.packets| == |s.packets| && AllBelow(s'.list, |s'.packets|)
    requires forall j :: 0 <= j < |s.packets| && j != p ==>
               s'.packets[j] == s.packets[j] && (j in s'.list <==> j in s.list)
               && LiveOn(s'.requests, j) == LiveOn(s.requests, j)
    requires i < |s.threads| && s.threads[i] != [] && s'.threads == Continue(s.threads, i, more)
    requires OnlyPacket(more, p) && OnlyPacket([s.threads[i][0]], p) && PacketFits(s', p)
    ensures PacketsInv(s')
  {
    forall j | 0 <= j < |s.packets| && j != p
      ensures PacketClaimsKept(s.threads, s'.threads, j)
    {
      ContinueKeepsOthers(s.threads, i, more, p, j);
    }
    OnePacketChanges(s, s', p);
  }

  /** The claims on packet `p` after thread `i` has gone on to at most one more operation. */
  lemma PacketClaimsAfter(threads: seq<Thread>, i: nat, more: Thread, p: nat)
    requires i < |threads| && threads[i] != [] && |more| <= 1
    ensures var head, after := ClaimOf(threads[i][0]), Continue(threads, i, more);
            var next := if more == [] then Nothing else ClaimOf(more[0]);
            && Total(after, OnPacket(p)) == Total(threads, OnPacket(p)) - One(head == OnPacket(p)) + One(next == OnPacket(p))
            && Total(after, Unlinking(p))
               == Total(threads, Unlinking(p)) - One(head == Unlinking(p)) + One(next == Unlinking(p))
            && Total(after, Releasing(p))
               == Total(threads, Releasing(p)) - One(head == Releasing(p)) + One(next == Releasing(p))
  {
    ContinueTotal(threads, i, more, OnPacket(p));
    ContinueTotal(threads, i, more, Unlinking(p));
    ContinueTotal(threads, i, more, Releasing(p));
    assert more != [] ==> more[1..] == [];
  }

  /** The claim of the operation a thread is about to do is one of those outstanding. */
  lemma HeadClaims(threads: seq<Thread>, i: nat)
    requires i < |threads| && threads[i] != []
    ensures Total(threads, ClaimOf(threads[i][0])) > 0
  {
    TotalAtLeast(threads, i, ClaimOf(threads[i][0]));
  }

  /** The parts of the invariant an operation on packets does not touch. */
  lemma PacketOpKeepsRest(s: State, s': State, i: nat, more: Thread)
    requires Inv(s) && |s'.packets| == |s.packets| && s'.requests == s.requests && s'.groups == s.groups && s'.open == s.open
    requires i < |s.threads| && s.threads[i] != [] && s'.threads == Continue(s.threads, i, more)
    requires !AboutRequest(ClaimOf(s.threads[i][0])) && !AboutGroup(ClaimOf(s.threads[i][0]))
    requires |more| <= 1 && (more != [] ==> AboutPacket(ClaimOf(more[0])) || ClaimOf(more[0]) == Nothing)
    ensures RequestsInv(s') && GroupsInv(s') && FragmentsInv(s'.requests, s'.groups) && Static(s, s')
  {
    ContinueOffRequests(s, s', i, more);
    ContinueOffGroups(s, s', i, more);
  }

  lemma DecPacketKeepsPackets(s: State, i: nat, p: nat)
    requires PacketsInv(s) && CanAdvance(s, i) && s.threads[i][0] == DecPacket(p) && p < |s.packets|
    ensures PacketsInv(DoDecPacket(s, i, p))
  {
    var s' := DoDecPacket(s, i, p);
    var more := if s'.packets[p].refs == 0 then [Unlink(p)] else [];
    assert PacketFits(s, p);
    HeadClaims(s.threads, i);
    PacketClaimsAfter(s.threads, i, more, p);
    ContinueOnPacket(s, s', i, more, p);
  }

  lemma UnlinkKeepsPackets(s: State, i: nat, p: nat)
    requires PacketsInv(s) && CanAdvance(s, i) && s.threads[i][0] == Unlink(p) && p < |s.packets|
    ensures PacketsInv(DoUnlink(s, i, p))
  {
    var s' := DoUnlink(s, i, p);
    assert PacketFits(s, p);
    HeadClaims(s.threads, i);
    PacketClaimsAfter(s.threads, i, [Release(p)], p);
    WithoutKeepsBelow(s.list, p, |s.packets|);
    ContinueOnPacket(s, s', i, [Release(p)], p);
  }

  lemma WithoutKeepsBelow(list: seq<nat>, p: nat, bound: nat)
    requires AllBelow(list, bound)
    ensures AllBelow(Without(list, p), bound)
  {
    var rest := Without(list, p);
    forall k | 0 <= k < |rest|
      ensures rest[k] < bound
    {
      assert rest[k] in rest;
    }
  }

  lemma ReleaseKeepsPackets(s: State, i: nat, p: nat)
    requires PacketsInv(s) && CanAdvance(s, i) && s.threads[i][0] == Release(p) && p < |s.packets|
    ensures PacketsInv(DoRelease(s, i, p))
  {
    assert PacketFits(s, p);
    HeadClaims(s.threads, i);
    PacketClaimsAfter(s.threads, i, [], p);
    ContinueOnPacket(s, DoRelease(s, i, p), i, [], p);
  }

  lemma TakeKeepsPackets(s: State, i: nat, p: nat, a: nat)
    requires PacketsInv(s) && CanAdvance(s, i) && s.threads[i][0] == TakePacket(p, a) && p < |s.packets|
    requires s.packets[p].refs > 0
    ensures PacketsInv(DoTake(s, i, p, a))
  {
    assert PacketFits(s, p);
    PacketClaimsAfter(s.threads, i, [CallNdis(p, a)], p);
    ContinueOnPacket(s, DoTake(s, i, p, a), i, [CallNdis(p, a)], p);
  }

  /** A reference a thread had goes to NDIS, or back to its holder. */
  lemma PassOnKeepsPackets(s: State, s': State, i: nat, p: nat)
    requires PacketsInv(s) && CanAdvance(s, i) && ClaimOf(s.threads[i][0]) == OnPacket(p) && p < |s.packets|
    requires |s'.packets| == |s.packets| && s'.packets[p].refs == s.packets[p].refs
    requires s' == PutPacket(s, p, s'.packets[p]).(threads := Continue(s.threads, i, []))
    requires s'.packets[p].released == s.packets[p].released
    requires s'.packets[p].handles + s'.packets[p].sends == s.packets[p].handles + s.packets[p].sends + 1
    ensures PacketsInv(s')
  {
    assert PacketFits(s, p);
    PacketClaimsAfter(s.threads, i, [], p);
    ContinueOnPacket(s, s', i, [], p);
  }

  // ---- Each operation keeps the invariant

  ghost predicate HeadIs(s: State, i: nat, o: Op) {
    CanAdvance(s, i) && s.threads[i][0] == o
  }

  lemma DecPacketKeepsInv(s: State, i: nat, p: nat)
    requires Inv(s) && HeadIs(s, i, DecPacket(p))
    ensures Inv(DoDecPacket(s, i, p))
  {
    var s' := DoDecPacket(s, i, p);
    var more := if s'.packets[p].refs == 0 then [Unlink(p)] else [];
    DecPacketKeepsPackets(s, i, p);
    PacketOpKeepsRest(s, s', i, more);
    GoOnKeepsThreads(s, s', i, more);
  }

  lemma UnlinkKeepsInv(s: State, i: nat, p: nat)
    requires Inv(s) && HeadIs(s, i, Unlink(p))
    ensures Inv(DoUnlink(s, i, p))
  {
    var s' := DoUnlink(s, i, p);
    UnlinkKeepsPackets(s, i, p);
    PacketOpKeepsRest(s, s', i, [Release(p)]);
    GoOnKeepsThreads(s, s', i, [Release(p)]);
  }

  lemma ReleaseKeepsInv(s: State, i: nat, p: nat)
    requires Inv(s) && HeadIs(s, i, Release(p))
    ensures Inv(DoRelease(s, i, p))
  {
    var s' := DoRelease(s, i, p);
    ReleaseKeepsPackets(s, i, p);
    PacketOpKeepsRest(s, s', i, []);
    GoOnKeepsThreads(s, s', i, []);
  }

  lemma PassOnKeepsInv(s: State, s': State, i: nat, p: nat)
    requires Inv(s) && CanAdvance(s, i) && p < |s.packets|
    requires s.threads[i][0] == ReturnPacket(p) || (s.threads[i][0].CallNdis? && s.threads[i][0].p == p)
    requires |s'.packets| == |s.packets| && s'.packets[p].refs == s.packets[p].refs
    requires s' == PutPacket(s, p, s'.packets[p]).(threads := Continue(s.threads, i, []))
    requires s'.packets[p].released == s.packets[p].released && s'.packets[p].adapter == s.packets[p].adapter
    requires s'.packets[p].handles + s'.packets[p].sends == s.packets[p].handles + s.packets[p].sends + 1
    ensures Inv(s')
  {
    PassOnKeepsPackets(s, s', i, p);
    PacketOpKeepsRest(s, s', i, []);
    GoOnKeepsThreads(s, s', i, []);
  }

  lemma {:induction false} TallyOfMember(t: Thread, k: nat)
    requires k < |t|
    ensures Tally(t, ClaimOf(t[k])) > 0
  {
    if k > 0 {
      TallyOfMember(t[1..], k - 1);
    }
  }

  lemma LastClaims(threads: seq<Thread>, i: nat)
    requires i < |threads| && threads[i] != []
    ensures Total(threads, ClaimOf(threads[i][|threads[i]| - 1])) > 0
  {
    TallyOfMember(threads[i], |threads[i]| - 1);
    TotalAtLeast(threads, i, ClaimOf(threads[i][|threads[i]| - 1]));
  }

  lemma RequestIsLive(s: State, q: nat)
    requires PacketsInv(s) && RequestsInv(s) && q < |s.requests| && s.requests[q].refs > 0
    ensures s.packets[s.requests[q].packet].refs > 0
  {
    LiveOnLeast(s.requests, q);
    assert PacketFits(s, s.requests[q].packet);
  }

  lemma FragmentIsLive(s: State, g: nat, k: nat)
    requires PacketsInv(s) && RequestsInv(s) && FragmentsInv(s.requests, s.groups)
    requires g < |s.groups| && s.groups[g].refs > 0 && k < |s.groups[g].fragments| && s.groups[g].fragments[k] < |s.requests|
    ensures var q := s.groups[g].fragments[k];
            s.requests[q].refs > 0 && s.packets[s.requests[q].packet].refs > 0
  {
    var q := s.groups[g].fragments[k];
    assert q in s.groups[g].fragments;
    assert s.requests[q].hold == InGroup(g);
    assert RequestFits(s, q);
    RequestIsLive(s, q);
  }

  /** The packet a thread is sending is alive: the reference the thread will give back keeps it. */
  lemma CoveredIsLive(s: State, i: nat, p: nat)
    requires PacketsInv(s) && RequestsInv(s) && GroupsInv(s) && FragmentsInv(s.requests, s.groups)
    requires i < |s.threads| && s.threads[i] != [] && p < |s.packets|
    requires Covers(s, s.threads[i][|s.threads[i]| - 1], p)
    ensures s.packets[p].refs > 0
  {
    var last := s.threads[i][|s.threads[i]| - 1];
    LastClaims(s.threads, i);
    match last
    case ReturnPacket(x) => assert PacketFits(s, p);
    case ReturnRequest(q) =>
      assert RequestFits(s, q);
      RequestIsLive(s, q);
    case ReturnGroup(g) =>
      assert GroupFits(s, g);
      var k :| 0 <= k < |s.groups[g].fragments| && s.groups[g].fragments[k] < |s.requests|
               && s.requests[s.groups[g].fragments[k]].packet == p;
      FragmentIsLive(s, g, k);
  }

  lemma SenderIsCovered(s: State, i: nat)
    requires ThreadsInv(s) && CanAdvance(s, i) && (s.threads[i][0].LookAdapter? || s.threads[i][0].TakePacket?)
    ensures Covers(s, s.threads[i][|s.threads[i]| - 1], s.threads[i][0].p) && |s.threads[i]| >= 2
  {
    assert ThreadInv(s, s.threads[i]);
    assert OpInv(s, s.threads[i], 0);
  }

  /** A sending thread goes on: the operation `o` for its packet, then what it had left. */
  lemma SenderGoesOn(s: State, t: Thread, o: Op, p: nat)
    requires ThreadInv(s, t) && |t| >= 2 && OpKnown(s, o) && Covers(s, t[|t| - 1], p)
    requires (o.TakePacket? || o.CallNdis?) && o.p == p
    ensures ThreadInv(s, [o] + t[1..])
  {
    var u := [o] + t[1..];
    forall k | 0 <= k < |u|
      ensures OpInv(s, u, k)
    {
      assert u[|u| - 1] == t[|t| - 1];
      if k > 0 {
        assert OpInv(s, t, k);
      }
    }
  }

  lemma LookKeepsInv(s: State, i: nat, p: nat)
    requires Inv(s) && HeadIs(s, i, LookAdapter(p))
    ensures Inv(DoLook(s, i, p))
  {
    var s' := DoLook(s, i, p);
    SenderIsCovered(s, i);
    CoveredIsLive(s, i, p);
    if s.packets[p].adapter == Detached {
      LookKeepsRest(s, s', i, []);
      GoOnKeepsThreads(s, s', i, []);
    } else {
      var o := TakePacket(p, s.packets[p].adapter.a);
      LookKeepsRest(s, s', i, [o]);
      ThreadKept(s, s', s.threads[i]);
      SenderGoesOn(s', s.threads[i], o, p);
      ContinueKeepsThreads(s, s', i, [o]);
    }
  }

  lemma LookKeepsRest(s: State, s': State, i: nat, more: Thread)
    requires Inv(s) && CanAdvance(s, i) && s.threads[i][0].LookAdapter?
    requires s' == s.(threads := Continue(s.threads, i, more))
    requires forall k :: 0 <= k < |more| ==> more[k].TakePacket?
    ensures PacketsInv(s') && RequestsInv(s') && GroupsInv(s') && FragmentsInv(s'.requests, s'.groups) && AdaptersInv(s')
    ensures Static(s, s') && ThreadInv(s, s.threads[i])
  {
    ContinueOffPackets(s, s', i, more);
    ContinueOffRequests(s, s', i, more);
    ContinueOffGroups(s, s', i, more);
  }

  lemma TakeKeepsInv(s: State, i: nat, p: nat, a: nat)
    requires Inv(s) && HeadIs(s, i, TakePacket(p, a))
    ensures Inv(DoTake(s, i, p, a))
  {
    var s' := DoTake(s, i, p, a);
    SenderIsCovered(s, i);
    CoveredIsLive(s, i, p);
    TakeKeepsPackets(s, i, p, a);
    PacketOpKeepsRest(s, s', i, [CallNdis(p, a)]);
    assert ThreadInv(s, s.threads[i]);
    ThreadKept(s, s', s.threads[i]);
    CoversKept(s, s', s.threads[i][|s.threads[i]| - 1], p);
    SenderGoesOn(s', s.threads[i], CallNdis(p, a), p);
    ContinueKeepsThreads(s, s', i, [CallNdis(p, a)]);
  }

  // ---- Operations on requests

  /** At most request `q` changes. */
  lemma OneRequestChanges(s: State, s': State, q: nat)
    requires RequestsInv(s) && q < |s.requests| && |s'.requests| == |s.requests| && |s'.packets| >= |s.packets|
    requires forall j :: 0 <= j < |s.requests| && j != q ==>
               s'.requests[j] == s.requests[j] && RequestClaimsKept(s.threads, s'.threads, j)
    requires s'.requests[q].packet == s.requests[q].packet && RequestFits(s', q)
    ensures RequestsInv(s')
  {
    forall j | 0 <= j < |s'.requests|
      ensures s'.requests[j].packet < |s'.packets| && RequestFits(s', j)
    {
      if j != q {
        assert RequestFits(s, j) && RequestClaimsKept(s.threads, s'.threads, j);
      }
    }
  }

  predicate OnlyRequest(t: Thread, q: nat) {
    forall k :: 0 <= k < |t| ==> AboutRequest(ClaimOf(t[k])) ==> ClaimOf(t[k]).q == q
  }

  lemma ContinueOnRequest(s: State, s': State, i: nat, more: Thread, q: nat)
    requires RequestsInv(s) && q < |s.requests| && |s'.packets| >= |s.packets|
    requires |s'.requests| == |s.requests|
    requires s'.requests == s.requests[q := s'.requests[q]]
    requires s'.requests[q].packet == s.requests[q].packet && RequestFits(s', q)
    requires i < |s.threads| && s.threads[i] != [] && s'.threads == Continue(s.threads, i, more)
    requires OnlyRequest(more, q) && OnlyRequest([s.threads[i][0]], q)
    ensures RequestsInv(s')
  {
    assert [s.threads[i][0]][0] == s.threads[i][0];
    forall j | 0 <= j < |s.requests| && j != q
      ensures RequestClaimsKept(s.threads, s'.threads, j)
    {
      ContinueKeepsClaims(s.threads, i, more, OnRequest(j));
      ContinueKeepsClaims(s.threads, i, more, Freeing(j));
    }
    OneRequestChanges(s, s', q);
  }

  lemma RequestClaimsAfter(threads: seq<Thread>, i: nat, more: Thread, q: nat)
    requires i < |threads| && threads[i] != []
    ensures var head, after := ClaimOf(threads[i][0]), Continue(threads, i, more);
            && Total(after, OnRequest(q)) == Total(threads, OnRequest(q)) - One(head == OnRequest(q)) + Tally(more, OnRequest(q))
            && Total(after, Freeing(q)) == Total(threads, Freeing(q)) - One(head == Freeing(q)) + Tally(more, Freeing(q))
  {
    ContinueTotal(threads, i, more, OnRequest(q));
    ContinueTotal(threads, i, more, Freeing(q));
  }

  lemma TallyOfTwo(a: Op, b: Op, c: Claim)
    ensures Tally([a, b], c) == One(ClaimOf(a) == c) + One(ClaimOf(b) == c)
  {
    TallyOfOne(a, c);
    TallyOfOne(b, c);
    TallyAppend([a], [b], c);
    assert [a] + [b] == [a, b];
  }

  lemma TallyOfOne(a: Op, c: Claim)
    ensures Tally([a], c) == One(ClaimOf(a) == c)
  {
    assert Tally([a][1..], c) == 0;
  }

  lemma DecRequestKeepsRequests(s: State, i: nat, q: nat)
    requires RequestsInv(s) && HeadIs(s, i, DecRequest(q))
    ensures RequestsInv(DoDecRequest(s, i, q))
  {
    var s' := DoDecRequest(s, i, q);
    var dec, free := DecPacket(s.requests[q].packet), FreeRequest(q);
    var more := if s'.requests[q].refs == 0 then [dec, free] else [];
    assert RequestFits(s, q);
    HeadClaims(s.threads, i);
    RequestClaimsAfter(s.threads, i, more, q);
    TallyOfTwo(dec, free, OnRequest(q));
    TallyOfTwo(dec, free, Freeing(q));
    ContinueOnRequest(s, s', i, more, q);
  }

  lemma LastDecKeepsPackets(s: State, i: nat, q: nat)
    requires PacketsInv(s) && HeadIs(s, i, DecRequest(q)) && s.requests[q].refs == 1
    ensures PacketsInv(DoDecRequest(s, i, q))
  {
    var s' := DoDecRequest(s, i, q);
    var p := s.requests[q].packet;
    var more := [DecPacket(p), FreeRequest(q)];
    forall j | 0 <= j < |s.packets|
      ensures LiveOn(s'.requests, j) == LiveOn(s.requests, j) - One(j == p)
    {
      LiveOnUpdate(s.requests, q, s'.requests[q], j);
    }
    LiveOnLeast(s.requests, q);
    assert PacketFits(s, p);
    ContinueTotal(s.threads, i, more, OnPacket(p));
    ContinueTotal(s.threads, i, more, Unlinking(p));
    ContinueTotal(s.threads, i, more, Releasing(p));
    TallyOfTwo(more[0], more[1], OnPacket(p));
    TallyOfTwo(more[0], more[1], Unlinking(p));
    TallyOfTwo(more[0], more[1], Releasing(p));
    ContinueOnPacket(s, s', i, more, p);
  }

  lemma OtherDecKeepsPackets(s: State, i: nat, q: nat)
    requires PacketsInv(s) && RequestsInv(s) && HeadIs(s, i, DecRequest(q)) && s.requests[q].refs != 1
    ensures PacketsInv(DoDecRequest(s, i, q))
  {
    var s' := DoDecRequest(s, i, q);
    assert RequestFits(s, q);
    HeadClaims(s.threads, i);
    forall j | 0 <= j < |s.packets|
      ensures LiveOn(s'.requests, j) == LiveOn(s.requests, j)
    {
      LiveOnUpdate(s.requests, q, s'.requests[q], j);
    }
    ContinueOffPackets(s, s', i, []);
  }

  /** The parts of the invariant an operation on request `q` that keeps its hold does not touch. */
  lemma RequestOpKeepsRest(s: State, s': State, i: nat, more: Thread, q: nat)
    requires Inv(s) && CanAdvance(s, i) && q < |s.requests| && s'.packets == s.packets && s'.groups == s.groups
    requires s'.open == s.open && |s'.requests| == |s.requests|
    requires s'.requests == s.requests[q := s'.requests[q]]
    requires s'.requests[q].packet == s.requests[q].packet && s'.requests[q].hold == s.requests[q].hold
    requires s'.threads == Continue(s.threads, i, more)
    requires AboutRequest(ClaimOf(s.threads[i][0]))
    requires forall k :: 0 <= k < |more| ==> (more[k].DecPacket? || more[k].FreeRequest?) && OpKnown(s', more[k])
    ensures GroupsInv(s') && FragmentsInv(s'.requests, s'.groups) && AdaptersInv(s') && ThreadsInv(s')
  {
    ContinueOffGroups(s, s', i, more);
    assert ThreadInv(s', more) by {
      assert forall k :: 0 <= k < |more| ==> OpInv(s', more, k);
    }
    GoOnKeepsThreads(s, s', i, more);
  }

  lemma DecRequestKeepsInv(s: State, i: nat, q: nat)
    requires Inv(s) && HeadIs(s, i, DecRequest(q))
    ensures Inv(DoDecRequest(s, i, q))
  {
    var s' := DoDecRequest(s, i, q);
    var more := if s'.requests[q].refs == 0 then [DecPacket(s.requests[q].packet), FreeRequest(q)] else [];
    DecRequestKeepsRequests(s, i, q);
    if s.requests[q].refs == 1 {
      LastDecKeepsPackets(s, i, q);
    } else {
      OtherDecKeepsPackets(s, i, q);
    }
    RequestOpKeepsRest(s, s', i, more, q);
  }

  /** The request's count stays: its memory goes back, or a thread's reference goes back to its holder. */
  lemma SettleRequestKeepsInv(s: State, s': State, i: nat, q: nat)
    requires Inv(s) && CanAdvance(s, i) && q < |s.requests| && |s'.requests| == |s.requests|
    requires (s.threads[i][0] == FreeRequest(q) && s'.requests[q] == s.requests[q].(freed := s.requests[q].freed + 1))
             || (s.threads[i][0] == ReturnRequest(q) && s'.requests[q] == s.requests[q].(handles := s.requests[q].handles + 1))
    requires s' == PutRequest(s, q, s'.requests[q]).(threads := Continue(s.threads, i, []))
    ensures Inv(s')
  {
    assert RequestFits(s, q);
    HeadClaims(s.threads, i);
    RequestClaimsAfter(s.threads, i, [], q);
    ContinueOnRequest(s, s', i, [], q);
    forall j | 0 <= j < |s.packets|
      ensures LiveOn(s'.requests, j) == LiveOn(s.requests, j)
    {
      LiveOnUpdate(s.requests, q, s'.requests[q], j);
    }
    ContinueOffPackets(s, s', i, []);
    RequestOpKeepsRest(s, s', i, [], q);
  }

  // ---- Operations on groups

  predicate OnlyGroup(t: Thread, g: nat) {
    forall k :: 0 <= k < |t| ==> AboutGroup(ClaimOf(t[k])) ==> ClaimOf(t[k]).g == g
  }

  lemma ContinueOnGroup(s: State, s': State, i: nat, more: Thread, g: nat)
    requires GroupsInv(s) && g < |s.groups| && |s'.requests| >= |s.requests| && |s'.groups| == |s.groups|
    requires s'.groups == s.groups[g := s'.groups[g]]
    requires s'.groups[g].fragments == s.groups[g].fragments && GroupFits(s', g)
    requires i < |s.threads| && s.threads[i] != [] && s'.threads == Continue(s.threads, i, more)
    requires OnlyGroup(more, g) && OnlyGroup([s.threads[i][0]], g)
    ensures GroupsInv(s')
  {
    assert [s.threads[i][0]][0] == s.threads[i][0];
    forall j | 0 <= j < |s'.groups|
      ensures GroupFits(s', j)
    {
      if j != g {
        ContinueKeepsClaims(s.threads, i, more, OnGroup(j));
        ContinueKeepsClaims(s.threads, i, more, Recycling(j));
        assert GroupFits(s, j);
      }
    }
  }

  lemma GroupClaimsAfter(threads: seq<Thread>, i: nat, more: Thread, g: nat)
    requires i < |threads| && threads[i] != []
    ensures var head, after := ClaimOf(threads[i][0]), Continue(threads, i, more);
            && Total(after, OnGroup(g)) == Total(threads, OnGroup(g)) - One(head == OnGroup(g)) + Tally(more, OnGroup(g))
            && Total(after, Recycling(g)) == Total(threads, Recycling(g)) - One(head == Recycling(g)) + Tally(more, Recycling(g))
  {
    ContinueTotal(threads, i, more, OnGroup(g));
    ContinueTotal(threads, i, more, Recycling(g));
  }

  /** The parts of the invariant an operation on a group that does not kill it leaves alone. */
  lemma GroupOpKeepsRest(s: State, s': State, i: nat, g: nat)
    requires Inv(s) && CanAdvance(s, i) && g < |s.groups| && |s'.groups| == |s.groups|
    requires s' == PutGroup(s, g, s'.groups[g]).(threads := Continue(s.threads, i, []))
    requires s'.groups[g].fragments == s.groups[g].fragments && (s'.groups[g].refs > 0 <==> s.groups[g].refs > 0)
    requires AboutGroup(ClaimOf(s.threads[i][0]))
    ensures PacketsInv(s') && RequestsInv(s') && FragmentsInv(s'.requests, s'.groups) && AdaptersInv(s') && ThreadsInv(s')
  {
    ContinueOffPackets(s, s', i, []);
    ContinueOffRequests(s, s', i, []);
    GoOnKeepsThreads(s, s', i, []);
  }

  lemma SettleGroupKeepsInv(s: State, s': State, i: nat, g: nat)
    requires Inv(s) && CanAdvance(s, i) && g < |s.groups| && |s'.groups| == |s.groups|
    requires s' == PutGroup(s, g, s'.groups[g]).(threads := Continue(s.threads, i, []))
    requires var r, r' := s.groups[g], s'.groups[g];
             || (s.threads[i][0] == RecycleGroup(g) && r' == r.(recycled := r.recycled + 1))
             || (s.threads[i][0] == ReturnGroup(g) && r' == r.(handles := r.handles + 1))
             || (s.threads[i][0] == DecGroup(g) && r' == r.(refs := r.refs - 1) && r.refs != 1)
    ensures Inv(s')
  {
    assert GroupFits(s, g);
    HeadClaims(s.threads, i);
    GroupClaimsAfter(s.threads, i, [], g);
    ContinueOnGroup(s, s', i, [], g);
    GroupOpKeepsRest(s, s', i, g);
  }

  lemma {:induction false} TallyOfDrops(fragments: seq<nat>, q: nat)
    requires NoDuplicates(fragments)
    ensures Tally(Drops(fragments), OnRequest(q)) == One(q in fragments)
  {
    if fragments != [] {
      assert Drops(fragments)[1..] == Drops(fragments[1..]);
      assert fragments[0] !in fragments[1..];
      TallyOfDrops(fragments[1..], q);
    }
  }

  /** What the freeing thread goes on to at the last drop of a group. */
  function Demolition(fragments: seq<nat>, g: nat): Thread { Drops(fragments) + [RecycleGroup(g)] }

  lemma DemolitionClaims(fragments: seq<nat>, g: nat, c: Claim)
    requires NoDuplicates(fragments)
    ensures c.OnRequest? ==> Tally(Demolition(fragments, g), c) == One(c.q in fragments)
    ensures !c.OnRequest? ==> Tally(Demolition(fragments, g), c) == One(c == Recycling(g))
  {
    TallyAppend(Drops(fragments), [RecycleGroup(g)], c);
    TallyOfOne(RecycleGroup(g), c);
    if c.OnRequest? {
      TallyOfDrops(fragments, c.q);
    } else {
      SilentTally(Drops(fragments), c);
    }
  }

  lemma DemolitionShape(fragments: seq<nat>, g: nat)
    ensures var t := Demolition(fragments, g);
            OnlyGroup(t, g) && forall k :: 0 <= k < |t| ==> !AboutPacket(ClaimOf(t[k]))
  {
    var t := Demolition(fragments, g);
    forall k | 0 <= k < |t|
      ensures !AboutPacket(ClaimOf(t[k])) && (AboutGroup(ClaimOf(t[k])) ==> ClaimOf(t[k]).g == g)
    {
      assert t[k] == if k < |fragments| then DecRequest(fragments[k]) else RecycleGroup(g);
    }
  }

  /** The last decrement of group `g`, which held the first reference of its fragments. */
  ghost predicate LastDrop(s: State, i: nat, g: nat) {
    HeadIs(s, i, DecGroup(g)) && s.groups[g].refs == 1
  }

  lemma LastDropKeepsPackets(s: State, i: nat, g: nat)
    requires Inv(s) && LastDrop(s, i, g)
    ensures PacketsInv(DoDecGroup(s, i, g))
  {
    var s' := DoDecGroup(s, i, g);
    var fragments := s.groups[g].fragments;
    forall p | 0 <= p < |s.packets|
      ensures LiveOn(s'.requests, p) == LiveOn(s.requests, p)
    {
      LiveOnSame(s.requests, s'.requests, p);
    }
    DemolitionShape(fragments, g);
    ContinueOffPackets(s, s', i, Demolition(fragments, g));
  }

  lemma FragmentHold(s: State, g: nat, q: nat)
    requires FragmentsInv(s.requests, s.groups) && g < |s.groups| && s.groups[g].refs > 0 && q < |s.requests|
    ensures s.requests[q].hold == InGroup(g) <==> q in s.groups[g].fragments
  {
  }

  lemma LastDropKeepsRequests(s: State, i: nat, g: nat)
    requires Inv(s) && LastDrop(s, i, g)
    ensures RequestsInv(DoDecGroup(s, i, g))
  {
    var s' := DoDecGroup(s, i, g);
    var fragments := s.groups[g].fragments;
    forall q | 0 <= q < |s'.requests|
      ensures s'.requests[q].packet < |s'.packets| && RequestFits(s', q)
    {
      assert RequestFits(s, q);
      FragmentHold(s, g, q);
      RequestClaimsAfter(s.threads, i, Demolition(fragments, g), q);
      DemolitionClaims(fragments, g, OnRequest(q));
      DemolitionClaims(fragments, g, Freeing(q));
    }
  }

  lemma LastDropKeepsGroups(s: State, i: nat, g: nat)
    requires Inv(s) && LastDrop(s, i, g)
    ensures GroupsInv(DoDecGroup(s, i, g))
  {
    var s' := DoDecGroup(s, i, g);
    var more := Demolition(s.groups[g].fragments, g);
    assert GroupFits(s, g);
    HeadClaims(s.threads, i);
    GroupClaimsAfter(s.threads, i, more, g);
    DemolitionClaims(s.groups[g].fragments, g, OnGroup(g));
    DemolitionClaims(s.groups[g].fragments, g, Recycling(g));
    DemolitionShape(s.groups[g].fragments, g);
    ContinueOnGroup(s, s', i, more, g);
  }

  lemma LastDropKeepsFragments(s: State, i: nat, g: nat)
    requires Inv(s) && LastDrop(s, i, g)
    ensures FragmentsInv(DoDecGroup(s, i, g).requests, DoDecGroup(s, i, g).groups)
  {
    var s' := DoDecGroup(s, i, g);
    forall q: nat, h: nat | q < |s'.requests|
      ensures s'.requests[q].hold == InGroup(h) <==>
              h < |s'.groups| && s'.groups[h].refs > 0 && q in s'.groups[h].fragments
    {
      FragmentHold(s, g, q);
      assert s.requests[q].hold == InGroup(h) <==> h < |s.groups| && s.groups[h].refs > 0 && q in s.groups[h].fragments;
    }
  }

  lemma LastDropKeepsThreads(s: State, i: nat, g: nat)
    requires Inv(s) && LastDrop(s, i, g)
    ensures ThreadsInv(DoDecGroup(s, i, g))
  {
    var s' := DoDecGroup(s, i, g);
    var fragments := s.groups[g].fragments;
    var more := Demolition(fragments, g);
    forall k | 0 <= k < |more|
      ensures OpInv(s', more, k) && !more[k].LookAdapter? && !more[k].TakePacket?
    {
      if k < |fragments| {
        assert more[k] == DecRequest(fragments[k]);
        assert RequestsInv(s) && RequestFits(s, fragments[k]);
      }
    }
    GoOnKeepsThreads(s, s', i, more);
  }

  lemma LastDropKeepsInv(s: State, i: nat, g: nat)
    requires Inv(s) && LastDrop(s, i, g)
    ensures Inv(DoDecGroup(s, i, g))
  {
    LastDropKeepsPackets(s, i, g);
    LastDropKeepsRequests(s, i, g);
    LastDropKeepsGroups(s, i, g);
    LastDropKeepsFragments(s, i, g);
    LastDropKeepsThreads(s, i, g);
  }

  lemma DecGroupKeepsInv(s: State, i: nat, g: nat)
    requires Inv(s) && HeadIs(s, i, DecGroup(g))
    ensures Inv(DoDecGroup(s, i, g))
  {
    if s.groups[g].refs == 1 {
      LastDropKeepsInv(s, i, g);
    } else {
      SettleGroupKeepsInv(s, DoDecGroup(s, i, g), i, g);
    }
  }

  lemma CallKeepsInv(s: State, i: nat, p: nat, a: nat)
    requires Inv(s) && HeadIs(s, i, CallNdis(p, a))
    ensures Inv(DoCall(s, i, p))
  {
    PassOnKeepsInv(s, DoCall(s, i, p), i, p);
  }

  lemma ReturnPacketKeepsInv(s: State, i: nat, p: nat)
    requires Inv(s) && HeadIs(s, i, ReturnPacket(p))
    ensures Inv(DoReturnPacket(s, i, p))
  {
    PassOnKeepsInv(s, DoReturnPacket(s, i, p), i, p);
  }

  lemma FreeRequestKeepsInv(s: State, i: nat, q: nat)
    requires Inv(s) && HeadIs(s, i, FreeRequest(q))
    ensures Inv(DoFreeRequest(s, i, q))
  {
    SettleRequestKeepsInv(s, DoFreeRequest(s, i, q), i, q);
  }

  lemma ReturnRequestKeepsInv(s: State, i: nat, q: nat)
    requires Inv(s) && HeadIs(s, i, ReturnRequest(q))
    ensures Inv(DoReturnRequest(s, i, q))
  {
    SettleRequestKeepsInv(s, DoReturnRequest(s, i, q), i, q);
  }

  lemma RecycleKeepsInv(s: State, i: nat, g: nat)
    requires Inv(s) && HeadIs(s, i, RecycleGroup(g))
    ensures Inv(DoRecycle(s, i, g))
  {
    SettleGroupKeepsInv(s, DoRecycle(s, i, g), i, g);
  }

  lemma ReturnGroupKeepsInv(s: State, i: nat, g: nat)
    requires Inv(s) && HeadIs(s, i, ReturnGroup(g))
    ensures Inv(DoReturnGroup(s, i, g))
  {
    SettleGroupKeepsInv(s, DoReturnGroup(s, i, g), i, g);
  }

  lemma AdvanceKeepsInv(s: State, i: nat)
    requires Inv(s) && CanAdvance(s, i)
    ensures Inv(Do(s, i))
  {
    match s.threads[i][0]
    case DecPacket(p) => DecPacketKeepsInv(s, i, p);
    case Unlink(p) => UnlinkKeepsInv(s, i, p);
    case Release(p) => ReleaseKeepsInv(s, i, p);
    case DecRequest(q) => DecRequestKeepsInv(s, i, q);
    case FreeRequest(q) => FreeRequestKeepsInv(s, i, q);
    case DecGroup(g) => DecGroupKeepsInv(s, i, g);
    case RecycleGroup(g) => RecycleKeepsInv(s, i, g);
    case LookAdapter(p) => LookKeepsInv(s, i, p);
    case TakePacket(p, a) => TakeKeepsInv(s, i, p, a);
    case CallNdis(p, a) => CallKeepsInv(s, i, p, a);
    case ReturnPacket(p) => ReturnPacketKeepsInv(s, i, p);
    case ReturnRequest(q) => ReturnRequestKeepsInv(s, i, q);
    case ReturnGroup(g) => ReturnGroupKeepsInv(s, i, g);
  }

  // ---- What handlers, clients and the reassembly do

  /** The new thread claims one reference of packet `p`, and nothing else of packets. */
  ghost predicate TakesOver(t: Thread, p: nat) {
    OnlyPacket(t, p) && Tally(t, OnPacket(p)) == 1 && Tally(t, Unlinking(p)) == 0 && Tally(t, Releasing(p)) == 0
  }

  /** A reference of packet `p` goes from a holder to a new thread. */
  lemma PartKeepsPackets(s: State, s': State, p: nat, t: Thread)
    requires PacketsInv(s) && p < |s.packets| && |s'.packets| == |s.packets| && TakesOver(t, p)
    requires s' == Spawn(PutPacket(s, p, s'.packets[p]), t)
    requires s'.packets[p].refs == s.packets[p].refs && s'.packets[p].released == s.packets[p].released
    requires s'.packets[p].handles + s'.packets[p].sends + 1 == s.packets[p].handles + s.packets[p].sends
    ensures PacketsInv(s')
  {
    assert PacketFits(s, p);
    SpawnTotal(s.threads, t, OnPacket(p));
    SpawnTotal(s.threads, t, Unlinking(p));
    SpawnTotal(s.threads, t, Releasing(p));
    forall j | 0 <= j < |s.packets| && j != p
      ensures PacketClaimsKept(s.threads, s'.threads, j)
    {
      SpawnKeepsClaims(s.threads, t, OnPacket(j));
      SpawnKeepsClaims(s.threads, t, Unlinking(j));
      SpawnKeepsClaims(s.threads, t, Releasing(j));
    }
    OnePacketChanges(s, s', p);
  }

  lemma PartKeepsInv(s: State, s': State, p: nat, t: Thread)
    requires Inv(s) && p < |s.packets| && |s'.packets| == |s.packets|
    requires t == [DecPacket(p)] || t == [LookAdapter(p), ReturnPacket(p)]
    requires s' == Spawn(PutPacket(s, p, s'.packets[p]), t)
    requires s'.packets[p].refs == s.packets[p].refs && s'.packets[p].released == s.packets[p].released
    requires s'.packets[p].adapter == s.packets[p].adapter
    requires s'.packets[p].handles + s'.packets[p].sends + 1 == s.packets[p].handles + s.packets[p].sends
    ensures Inv(s')
  {
    PartingThread(t, p);
    PartKeepsPackets(s, s', p, t);
    SpawnOffRequests(s, s', t);
    SpawnOffGroups(s, s', t);
    assert ThreadInv(s', t) by {
      assert forall k :: 0 <= k < |t| ==> OpInv(s', t, k);
    }
    SpawnKeepsThreads(s, s', t);
  }

  lemma PartingThread(t: Thread, p: nat)
    requires t == [DecPacket(p)] || t == [LookAdapter(p), ReturnPacket(p)]
    ensures TakesOver(t, p)
  {
    if |t| == 1 {
      TallyOfOne(DecPacket(p), OnPacket(p));
      TallyOfOne(DecPacket(p), Unlinking(p));
      TallyOfOne(DecPacket(p), Releasing(p));
    } else {
      TallyOfTwo(LookAdapter(p), ReturnPacket(p), OnPacket(p));
      TallyOfTwo(LookAdapter(p), ReturnPacket(p), Unlinking(p));
      TallyOfTwo(LookAdapter(p), ReturnPacket(p), Releasing(p));
    }
  }

  /** A live packet gains a handle and a reference. */
  lemma AnotherHandleKeepsInv(s: State, p: nat)
    requires Inv(s) && p < |s.packets| && s.packets[p].refs > 0
    ensures Inv(PutPacket(s, p, AnotherHandle(s.packets[p])))
  {
    var s' := PutPacket(s, p, AnotherHandle(s.packets[p]));
    assert PacketFits(s, p);
    OnePacketChanges(s, s', p);
    SameThreadsKept(s, s');
    RequestsFrame(s, s');
    GroupsFrame(s, s');
  }

  lemma HeldIsLive(s: State, p: nat)
    requires PacketsInv(s) && HeldPacket(s, p)
    ensures s.packets[p].refs > 0
  {
    assert PacketFits(s, p);
  }

  lemma HeldRequestIsLive(s: State, q: nat)
    requires PacketsInv(s) && RequestsInv(s) && HeldRequest(s, q)
    ensures s.requests[q].refs > 0 && s.packets[s.requests[q].packet].refs > 0
  {
    assert RequestFits(s, q);
    RequestIsLive(s, q);
  }

  lemma {:induction false} NoLiveRequest(requests: seq<Request>, p: nat)
    requires forall q :: 0 <= q < |requests| ==> requests[q].packet < p
    ensures LiveOn(requests, p) == 0
  {
    if requests != [] {
      NoLiveRequest(requests[..|requests| - 1], p);
    }
  }

  /** Nothing that is still to be done is about an object yet to come. */
  lemma {:induction false} NoClaimYet(threads: seq<Thread>, c: Claim)
    requires forall i :: 0 <= i < |threads| ==> Silent(threads[i], c)
    ensures Total(threads, c) == 0
  {
    if threads != [] {
      NoClaimYet(threads[..|threads| - 1], c);
      SilentTally(threads[|threads| - 1], c);
    }
  }

  predicate NamesNew(s: State, c: Claim) {
    match c
    case OnPacket(p) => p == |s.packets|
    case Unlinking(p) => p == |s.packets|
    case Releasing(p) => p == |s.packets|
    case OnRequest(q) => q == |s.requests|
    case Freeing(q) => q == |s.requests|
    case OnGroup(g) => g == |s.groups|
    case Recycling(g) => g == |s.groups|
    case Nothing => false
  }

  lemma NoClaimOnNew(s: State, c: Claim)
    requires ThreadsInv(s) && NamesNew(s, c)
    ensures Total(s.threads, c) == 0
  {
    forall i | 0 <= i < |s.threads|
      ensures Silent(s.threads[i], c)
    {
      assert ThreadInv(s, s.threads[i]);
      forall k | 0 <= k < |s.threads[i]|
        ensures ClaimOf(s.threads[i][k]) != c
      {
        assert OpInv(s, s.threads[i], k);
      }
    }
    NoClaimYet(s.threads, c);
  }

  lemma CreateKeepsPackets(s: State, a: nat)
    requires PacketsInv(s) && RequestsInv(s) && ThreadsInv(s)
    ensures PacketsInv(Create(s, a))
  {
    var s' := Create(s, a);
    NoLiveRequest(s.requests, |s.packets|);
    NoClaimOnNew(s, OnPacket(|s.packets|));
    NoClaimOnNew(s, Unlinking(|s.packets|));
    NoClaimOnNew(s, Releasing(|s.packets|));
    forall p | 0 <= p < |s'.packets|
      ensures PacketFits(s', p)
    {
      if p < |s.packets| {
        assert PacketFits(s, p);
      } else {
        assert s'.list[|s.list|] == p;
      }
    }
  }

  lemma CreateKeepsInv(s: State, a: nat)
    requires Inv(s) && Enabled(s, CreatePacket(a))
    ensures Inv(Create(s, a))
  {
    var s' := Create(s, a);
    CreateKeepsPackets(s, a);
    RequestsFrame(s, s');
    GroupsFrame(s, s');
    SameThreadsKept(s, s');
  }

  lemma AllocateKeepsPackets(s: State, p: nat)
    requires PacketsInv(s) && HeldPacket(s, p)
    ensures PacketsInv(AllocateOn(s, p))
  {
    var s' := AllocateOn(s, p);
    forall j | 0 <= j < |s'.packets|
      ensures PacketFits(s', j)
    {
      assert PacketFits(s, j);
      assert s'.requests[..|s.requests|] == s.requests;
    }
  }

  lemma BoundIsFresh(ids: seq<nat>, bound: nat)
    requires AllBelow(ids, bound)
    ensures bound !in ids
  {
  }

  lemma AllocateKeepsRequests(s: State, p: nat)
    requires RequestsInv(s) && GroupsInv(s) && FragmentsInv(s.requests, s.groups) && ThreadsInv(s) && HeldPacket(s, p)
    ensures var s' := AllocateOn(s, p); RequestsInv(s') && GroupsInv(s') && FragmentsInv(s'.requests, s'.groups)
  {
    var s' := AllocateOn(s, p);
    NoClaimOnNew(s, OnRequest(|s.requests|));
    NoClaimOnNew(s, Freeing(|s.requests|));
    forall q | 0 <= q < |s'.requests|
      ensures s'.requests[q].packet < |s'.packets| && RequestFits(s', q)
    {
      assert q < |s.requests| ==> RequestFits(s, q);
    }
    GroupsFrame(s, s');
    forall g | 0 <= g < |s.groups|
      ensures |s.requests| !in s.groups[g].fragments
    {
      BoundIsFresh(s.groups[g].fragments, |s.requests|);
    }
  }

  lemma AllocateKeepsInv(s: State, p: nat)
    requires Inv(s) && HeldPacket(s, p)
    ensures Inv(AllocateOn(s, p))
  {
    HeldIsLive(s, p);
    AllocateKeepsPackets(s, p);
    AllocateKeepsRequests(s, p);
    SameThreadsKept(s, AllocateOn(s, p));
  }

  /** Request `q` changes its holders, not its life; a new thread may take a reference over. */
  lemma RequestChangeKeepsInv(s: State, s': State, q: nat)
    requires Inv(s) && q < |s.requests| && |s'.requests| == |s.requests|
    requires s'.packets == s.packets && s'.list == s.list && s'.groups == s.groups && s'.open == s.open
    requires s'.requests == s.requests[q := s'.requests[q]] && s'.requests[q].packet == s.requests[q].packet
    requires s'.requests[q].refs > 0 <==> s.requests[q].refs > 0
    requires s'.requests[q].hold == s.requests[q].hold || (!s.requests[q].hold.InGroup? && !s'.requests[q].hold.InGroup?)
    requires RequestsInv(s') && GroupsInv(s') && ThreadsInv(s')
    requires forall p :: 0 <= p < |s.packets| ==> PacketClaimsKept(s.threads, s'.threads, p)
    ensures Inv(s')
  {
    forall j | 0 <= j < |s.packets|
      ensures LiveOn(s'.requests, j) == LiveOn(s.requests, j)
    {
      LiveOnUpdate(s.requests, q, s'.requests[q], j);
    }
    PacketsFrame(s, s');
  }

  /** Same threads: a clone, or a reference handed over to reassembly. */
  lemma RehandKeepsInv(s: State, s': State, q: nat)
    requires Inv(s) && HeldRequest(s, q) && |s'.requests| == |s.requests| && s' == PutRequest(s, q, s'.requests[q])
    requires var r, r' := s.requests[q], s'.requests[q];
             || r' == r.(refs := r.refs + 1, handles := r.handles + 1)
             || (r.hold == NoHold && r' == r.(handles := r.handles - 1, hold := ByReassembly))
    ensures Inv(s')
  {
    assert RequestFits(s, q);
    OneRequestChanges(s, s', q);
    GroupsFrame(s, s');
    SameThreadsKept(s, s');
    RequestChangeKeepsInv(s, s', q);
  }

  /** A reference of request `q` goes to a new thread. */
  lemma PartRequestKeepsInv(s: State, s': State, q: nat, t: Thread)
    requires Inv(s) && q < |s.requests| && |s'.requests| == |s.requests|
    requires s' == Spawn(PutRequest(s, q, s'.requests[q]), t)
    requires t == [DecRequest(q)] || t == [LookAdapter(s.requests[q].packet), ReturnRequest(q)]
    requires var r, r' := s.requests[q], s'.requests[q];
             || (r.handles > 0 && r' == r.(handles := r.handles - 1))
             || (r.hold == ByReassembly && r' == r.(hold := NoHold))
    ensures Inv(s')
  {
    PartRequestKeepsRequests(s, s', q, t);
    forall p | 0 <= p < |s.packets|
      ensures PacketClaimsKept(s.threads, s'.threads, p)
    {
      SpawnKeepsClaims(s.threads, t, OnPacket(p));
      SpawnKeepsClaims(s.threads, t, Unlinking(p));
      SpawnKeepsClaims(s.threads, t, Releasing(p));
    }
    SpawnOffGroups(s, s', t);
    assert ThreadInv(s', t) by {
      assert forall k :: 0 <= k < |t| ==> OpInv(s', t, k);
    }
    SpawnKeepsThreads(s, s', t);
    RequestChangeKeepsInv(s, s', q);
  }

  lemma PartRequestKeepsRequests(s: State, s': State, q: nat, t: Thread)
    requires RequestsInv(s) && q < |s.requests| && |s'.requests| == |s.requests|
    requires s' == Spawn(PutRequest(s, q, s'.requests[q]), t)
    requires t == [DecRequest(q)] || t == [LookAdapter(s.requests[q].packet), ReturnRequest(q)]
    requires var r, r' := s.requests[q], s'.requests[q];
             || (r.handles > 0 && r' == r.(handles := r.handles - 1))
             || (r.hold == ByReassembly && r' == r.(hold := NoHold))
    ensures RequestsInv(s')
  {
    assert RequestFits(s, q);
    TallyOfOne(DecRequest(q), OnRequest(q));
    TallyOfOne(DecRequest(q), Freeing(q));
    TallyOfTwo(LookAdapter(s.requests[q].packet), ReturnRequest(q), OnRequest(q));
    TallyOfTwo(LookAdapter(s.requests[q].packet), ReturnRequest(q), Freeing(q));
    SpawnTotal(s.threads, t, OnRequest(q));
    SpawnTotal(s.threads, t, Freeing(q));
    forall j | 0 <= j < |s.requests| && j != q
      ensures RequestClaimsKept(s.threads, s'.threads, j)
    {
      SpawnKeepsClaims(s.threads, t, OnRequest(j));
      SpawnKeepsClaims(s.threads, t, Freeing(j));
    }
    OneRequestChanges(s, s', q);
  }

  lemma AssembleKeepsPackets(s: State, fragments: seq<nat>)
    requires PacketsInv(s)
    ensures PacketsInv(AssembleAll(s, fragments))
  {
    var s' := AssembleAll(s, fragments);
    forall p | 0 <= p < |s.packets|
      ensures LiveOn(s'.requests, p) == LiveOn(s.requests, p)
    {
      LiveOnSame(s.requests, s'.requests, p);
    }
    PacketsFrame(s, s');
  }

  lemma AssembleKeepsRequests(s: State, fragments: seq<nat>)
    requires RequestsInv(s) && Enabled(s, Assemble(fragments))
    ensures RequestsInv(AssembleAll(s, fragments))
  {
    var s' := AssembleAll(s, fragments);
    forall q | 0 <= q < |s'.requests|
      ensures s'.requests[q].packet < |s'.packets| && RequestFits(s', q)
    {
      assert RequestFits(s, q);
    }
  }

  lemma AssembleKeepsGroups(s: State, fragments: seq<nat>)
    requires GroupsInv(s) && ThreadsInv(s) && Enabled(s, Assemble(fragments))
    ensures GroupsInv(AssembleAll(s, fragments))
  {
    var s' := AssembleAll(s, fragments);
    NoClaimOnNew(s, OnGroup(|s.groups|));
    NoClaimOnNew(s, Recycling(|s.groups|));
    forall g | 0 <= g < |s'.groups|
      ensures AllBelow(s'.groups[g].fragments, |s'.requests|) && NoDuplicates(s'.groups[g].fragments) && GroupFits(s', g)
    {
      assert g < |s.groups| ==> s'.groups[g] == s.groups[g] && GroupFits(s, g);
    }
  }

  lemma AssembleKeepsFragments(s: State, fragments: seq<nat>)
    requires FragmentsInv(s.requests, s.groups) && Enabled(s, Assemble(fragments))
    ensures FragmentsInv(AssembleAll(s, fragments).requests, AssembleAll(s, fragments).groups)
  {
    var s' := AssembleAll(s, fragments);
    forall q: nat, g: nat | q < |s.requests|
      ensures s'.requests[q].hold == InGroup(g) <==>
              g < |s'.groups| && s'.groups[g].refs > 0 && q in s'.groups[g].fragments
    {
      assert s.requests[q].hold == InGroup(g) <==> g < |s.groups| && s.groups[g].refs > 0 && q in s.groups[g].fragments;
      assert q in fragments ==> s.requests[q].hold == ByReassembly;
    }
  }

  lemma AssembleKeepsInv(s: State, fragments: seq<nat>)
    requires Inv(s) && Enabled(s, Assemble(fragments))
    ensures Inv(AssembleAll(s, fragments))
  {
    AssembleKeepsPackets(s, fragments);
    AssembleKeepsRequests(s, fragments);
    AssembleKeepsGroups(s, fragments);
    AssembleKeepsFragments(s, fragments);
    SameThreadsKept(s, AssembleAll(s, fragments));
  }

  /** Group `g` changes its holders, not its life. */
  lemma GroupChangeKeepsRest(s: State, s': State, g: nat)
    requires Inv(s) && g < |s.groups| && |s'.groups| == |s.groups| && s'.groups == s.groups[g := s'.groups[g]]
    requires s'.packets == s.packets && s'.list == s.list && s'.requests == s.requests && s'.open == s.open
    requires s'.groups[g].fragments == s.groups[g].fragments && (s'.groups[g].refs > 0 <==> s.groups[g].refs > 0)
    ensures FragmentsInv(s'.requests, s'.groups) && AdaptersInv(s') && Static(s, s')
  {
  }

  lemma CloneGroupKeepsInv(s: State, g: nat)
    requires Inv(s) && HeldGroup(s, g)
    ensures Inv(AnotherGroup(s, g))
  {
    var s' := AnotherGroup(s, g);
    assert GroupFits(s, g);
    GroupChangeKeepsRest(s, s', g);
    PacketsFrame(s, s');
    RequestsFrame(s, s');
    SameThreadsKept(s, s');
    forall j | 0 <= j < |s'.groups|
      ensures GroupFits(s', j)
    {
      assert GroupFits(s, j);
    }
  }

  /** The thread of a reassembled request's last holder, or of one that injects its fragments. */
  ghost predicate GroupThread(s: State, g: nat, t: Thread)
    requires HeldGroup(s, g)
  {
    t == [DecGroup(g)] || t == Looks(s.requests, s.groups[g].fragments) + [ReturnGroup(g)]
  }

  lemma GroupThreadClaims(s: State, g: nat, t: Thread, c: Claim)
    requires HeldGroup(s, g) && GroupThread(s, g, t) && c != Nothing
    ensures Tally(t, c) == One(c == OnGroup(g))
  {
    if t == [DecGroup(g)] {
      TallyOfOne(DecGroup(g), c);
    } else {
      var looks := Looks(s.requests, s.groups[g].fragments);
      SilentTally(looks, c);
      TallyOfOne(ReturnGroup(g), c);
      TallyAppend(looks, [ReturnGroup(g)], c);
    }
  }

  lemma GroupThreadIsSound(s: State, s': State, g: nat, t: Thread)
    requires Inv(s) && HeldGroup(s, g) && GroupThread(s, g, t) && Static(s, s')
    ensures ThreadInv(s', t)
  {
    var fragments := s.groups[g].fragments;
    forall k | 0 <= k < |t|
      ensures OpInv(s, t, k)
    {
      if |t| > 1 && k < |fragments| {
        assert t[k] == LookAdapter(s.requests[fragments[k]].packet);
        assert t[|t| - 1] == ReturnGroup(g);
        assert RequestFits(s, fragments[k]);
      }
    }
    ThreadKept(s, s', t);
  }

  lemma PartGroupKeepsInv(s: State, g: nat, t: Thread)
    requires Inv(s) && HeldGroup(s, g) && GroupThread(s, g, t)
    ensures Inv(PartGroup(s, g, t))
  {
    var s' := PartGroup(s, g, t);
    GroupChangeKeepsRest(s, s', g);
    PartGroupKeepsClaims(s, g, t);
    PacketsFrame(s, s');
    RequestsFrame(s, s');
    PartGroupKeepsGroups(s, g, t);
    GroupThreadIsSound(s, s', g, t);
    SpawnKeepsThreads(s, s', t);
  }

  lemma PartGroupKeepsClaims(s: State, g: nat, t: Thread)
    requires HeldGroup(s, g) && GroupThread(s, g, t)
    ensures var threads := s.threads + [t];
            && (forall p :: 0 <= p < |s.packets| ==> PacketClaimsKept(s.threads, threads, p))
            && (forall q :: 0 <= q < |s.requests| ==> RequestClaimsKept(s.threads, threads, q))
  {
    var threads := s.threads + [t];
    forall p | 0 <= p < |s.packets|
      ensures PacketClaimsKept(s.threads, threads, p)
    {
      GroupThreadTotal(s, g, t, OnPacket(p));
      GroupThreadTotal(s, g, t, Unlinking(p));
      GroupThreadTotal(s, g, t, Releasing(p));
    }
    forall q | 0 <= q < |s.requests|
      ensures RequestClaimsKept(s.threads, threads, q)
    {
      GroupThreadTotal(s, g, t, OnRequest(q));
      GroupThreadTotal(s, g, t, Freeing(q));
    }
  }

  lemma GroupThreadTotal(s: State, g: nat, t: Thread, c: Claim)
    requires HeldGroup(s, g) && GroupThread(s, g, t) && c != Nothing
    ensures Total(s.threads + [t], c) == Total(s.threads, c) + One(c == OnGroup(g))
  {
    GroupThreadClaims(s, g, t, c);
    SpawnTotal(s.threads, t, c);
  }

  lemma PartGroupKeepsGroups(s: State, g: nat, t: Thread)
    requires GroupsInv(s) && HeldGroup(s, g) && GroupThread(s, g, t)
    ensures GroupsInv(PartGroup(s, g, t))
  {
    var s' := PartGroup(s, g, t);
    forall j | 0 <= j < |s'.groups|
      ensures GroupFits(s', j)
    {
      assert GroupFits(s, j);
      GroupThreadTotal(s, g, t, OnGroup(j));
      GroupThreadTotal(s, g, t, Recycling(j));
    }
  }

  lemma CloseKeepsPackets(s: State, a: nat)
    requires PacketsInv(s) && a < |s.open|
    ensures PacketsInv(Close(s, a))
  {
    var s' := Close(s, a);
    forall p | 0 <= p < |s'.packets|
      ensures PacketFits(s', p)
    {
      assert PacketFits(s, p);
    }
  }

  lemma CloseKeepsAdapters(s: State, a: nat)
    requires PacketsInv(s) && AdaptersInv(s) && a < |s.open|
    ensures AdaptersInv(Close(s, a))
  {
    forall p | 0 <= p < |s.packets| && s.packets[p].refs > 0
      ensures p in s.list
    {
      assert PacketFits(s, p);
    }
  }

  lemma CloseKeepsInv(s: State, a: nat)
    requires Inv(s) && a < |s.open|
    ensures Inv(Close(s, a))
  {
    var s' := Close(s, a);
    CloseKeepsPackets(s, a);
    CloseKeepsAdapters(s, a);
    RequestsFrame(s, s');
    GroupsFrame(s, s');
    SameThreadsKept(s, s');
  }

  lemma OpenKeepsInv(s: State)
    requires Inv(s)
    ensures Inv(s.(open := s.open + [true]))
  {
    var s' := s.(open := s.open + [true]);
    PacketsFrame(s, s');
    RequestsFrame(s, s');
    GroupsFrame(s, s');
    SameThreadsKept(s, s');
  }

  // ---- Each action keeps the invariant

  lemma PacketActionKeepsInv(s: State, a: Action)
    requires Inv(s) && Enabled(s, a) && (a.FreePacket? || a.Send? || a.SendDone?)
    ensures Inv(Step(s, a))
  {
    match a
    case FreePacket(p) => PartKeepsInv(s, Step(s, a), p, [DecPacket(p)]);
    case Send(p) => PartKeepsInv(s, Step(s, a), p, [LookAdapter(p), ReturnPacket(p)]);
    case SendDone(p) => PartKeepsInv(s, Step(s, a), p, [DecPacket(p)]);
  }

  lemma CloneActionKeepsInv(s: State, a: Action)
    requires Inv(s) && Enabled(s, a) && (a.ClonePacket? || a.CloneItsPacket? || a.CloneGroup?)
    ensures Inv(Step(s, a))
  {
    match a
    case ClonePacket(p) =>
      HeldIsLive(s, p);
      AnotherHandleKeepsInv(s, p);
    case CloneItsPacket(q) =>
      HeldRequestIsLive(s, q);
      AnotherHandleKeepsInv(s, s.requests[q].packet);
    case CloneGroup(g) => CloneGroupKeepsInv(s, g);
  }

  lemma RequestActionKeepsInv(s: State, a: Action)
    requires Inv(s) && Enabled(s, a)
    requires a.CloneRequest? || a.HandOver? || a.FreeClone? || a.SendItsPacket? || a.ReassemblyFrees?
    ensures Inv(Step(s, a))
  {
    var s' := Step(s, a);
    match a
    case CloneRequest(q) => RehandKeepsInv(s, s', q);
    case HandOver(q) => RehandKeepsInv(s, s', q);
    case FreeClone(q) => PartRequestKeepsInv(s, s', q, [DecRequest(q)]);
    case SendItsPacket(q) =>
      PartRequestKeepsInv(s, s', q, [LookAdapter(s.requests[q].packet), ReturnRequest(q)]);
    case ReassemblyFrees(q) => PartRequestKeepsInv(s, s', q, [DecRequest(q)]);
  }

  lemma StepKeepsInv(s: State, a: Action)
    requires Inv(s)
    ensures Inv(Step(s, a))
  {
    if Enabled(s, a) {
      match a
      case OpenAdapter => OpenKeepsInv(s);
      case CloseAdapter(n) => CloseKeepsInv(s, n);
      case CreatePacket(n) => CreateKeepsInv(s, n);
      case Allocate(p) => AllocateKeepsInv(s, p);
      case Assemble(fragments) => AssembleKeepsInv(s, fragments);
      case FreeGroup(g) => PartGroupKeepsInv(s, g, [DecGroup(g)]);
      case SendFragments(g) => PartGroupKeepsInv(s, g, Looks(s.requests, s.groups[g].fragments) + [ReturnGroup(g)]);
      case Advance(i) => AdvanceKeepsInv(s, i);
      case FreePacket(_) => PacketActionKeepsInv(s, a);
      case Send(_) => PacketActionKeepsInv(s, a);
      case SendDone(_) => PacketActionKeepsInv(s, a);
      case ClonePacket(_) => CloneActionKeepsInv(s, a);
      case CloneItsPacket(_) => CloneActionKeepsInv(s, a);
      case CloneGroup(_) => CloneActionKeepsInv(s, a);
      case _ => RequestActionKeepsInv(s, a);
    }
  }

  lemma {:induction false} RunKeepsInv(acts: seq<Action>)
    ensures Inv(Run(INIT, acts))
  {
    if acts != [] {
      RunKeepsInv(acts[..|acts| - 1]);
      StepKeepsInv(Run(INIT, acts[..|acts| - 1]), acts[|acts| - 1]);
    }
  }

  // ---- What holds over every run

  /** A packet's count is its holders -- the handles of its creator and of clients, the sends in flight, the live firewall
      requests on it -- and the drops that have begun but not been counted yet. It is on the list while the count is
      positive, and released exactly once by the end of the drop that makes it zero. */
  lemma PacketConservation(acts: seq<Action>, p: nat)
    requires p < |Run(INIT, acts).packets|
    ensures var s := Run(INIT, acts);
            var k := s.packets[p];
            var ending := Total(s.threads, Unlinking(p)) + Total(s.threads, Releasing(p));
            && k.refs == k.handles + k.sends + LiveOn(s.requests, p) + Total(s.threads, OnPacket(p))
            && (k.refs > 0 ==> p in s.list && k.released == 0 && ending == 0)
            && (k.refs == 0 && ending == 0 ==> p !in s.list && k.released == 1)
            && (k.refs == 0 && ending > 0 ==> k.released == 0 && ending == 1)
  {
    RunKeepsInv(acts);
    assert PacketFits(Run(INIT, acts), p);
  }

  /** A firewall request, and a reassembled one, likewise. */
  lemma RequestConservation(acts: seq<Action>, q: nat)
    requires q < |Run(INIT, acts).requests|
    ensures var s := Run(INIT, acts);
            var r := s.requests[q];
            && r.refs == r.handles + One(r.hold != NoHold) + Total(s.threads, OnRequest(q))
            && r.freed + Total(s.threads, Freeing(q)) == One(r.refs == 0)
  {
    RunKeepsInv(acts);
    assert RequestFits(Run(INIT, acts), q);
  }

  lemma GroupConservation(acts: seq<Action>, g: nat)
    requires g < |Run(INIT, acts).groups|
    ensures var s := Run(INIT, acts);
            var r := s.groups[g];
            && r.refs == r.handles + Total(s.threads, OnGroup(g))
            && r.recycled + Total(s.threads, Recycling(g)) == One(r.refs == 0)
  {
    RunKeepsInv(acts);
    assert GroupFits(Run(INIT, acts), g);
  }

  /** A live request holds its packet: neither has been given back. */
  lemma RequestKeepsPacket(s: State, q: nat)
    requires Inv(s) && q < |s.requests| && s.requests[q].refs > 0
    ensures s.requests[q].freed == 0
    ensures s.requests[q].packet in s.list && s.packets[s.requests[q].packet].released == 0
  {
    assert RequestFits(s, q);
    RequestIsLive(s, q);
    assert PacketFits(s, s.requests[q].packet);
  }

  /** A live reassembled request holds all its fragments and their packets. */
  lemma GroupKeepsPackets(acts: seq<Action>, g: nat, q: nat)
    requires g < |Run(INIT, acts).groups| && Run(INIT, acts).groups[g].refs > 0
    requires q in Run(INIT, acts).groups[g].fragments
    ensures var s := Run(INIT, acts);
            && s.groups[g].recycled == 0
            && q < |s.requests| && s.requests[q].freed == 0 && s.requests[q].packet < |s.packets|
            && s.requests[q].packet in s.list && s.packets[s.requests[q].packet].released == 0
  {
    RunKeepsInv(acts);
    var s := Run(INIT, acts);
    assert GroupFits(s, g);
    var k :| 0 <= k < |s.groups[g].fragments| && s.groups[g].fragments[k] == q;
    FragmentIsLive(s, g, k);
    RequestKeepsPacket(s, q);
  }

  /** What an operation works on has not been given back. */
  ghost predicate OnLiveMemory(s: State, o: Op)
    requires OpKnown(s, o)
  {
    match o
    case DecPacket(p) => s.packets[p].released == 0
    case Unlink(p) => s.packets[p].released == 0
    case Release(p) => s.packets[p].released == 0
    case DecRequest(q) => s.requests[q].freed == 0
    case FreeRequest(q) => s.requests[q].freed == 0
    case DecGroup(g) => s.groups[g].recycled == 0
    case RecycleGroup(g) => s.groups[g].recycled == 0
    case LookAdapter(p) => s.packets[p].released == 0
    case TakePacket(p, _) => s.packets[p].released == 0
    case CallNdis(p, _) => s.packets[p].released == 0
    case ReturnPacket(p) => s.packets[p].released == 0
    case ReturnRequest(q) => s.requests[q].freed == 0
    case ReturnGroup(g) => s.groups[g].recycled == 0
  }

  /** Whatever a thread does next, it does to memory that has not been given back. */
  lemma NoUseAfterFree(acts: seq<Action>, i: nat)
    requires CanAdvance(Run(INIT, acts), i)
    ensures OnLiveMemory(Run(INIT, acts), Run(INIT, acts).threads[i][0])
  {
    var s := Run(INIT, acts);
    var o := s.threads[i][0];
    RunKeepsInv(acts);
    HeadClaims(s.threads, i);
    match ClaimOf(o)
    case OnPacket(p) => assert PacketFits(s, p);
    case Unlinking(p) => assert PacketFits(s, p);
    case Releasing(p) => assert PacketFits(s, p);
    case OnRequest(q) => assert RequestFits(s, q);
    case Freeing(q) => assert RequestFits(s, q);
    case OnGroup(g) => assert GroupFits(s, g);
    case Recycling(g) => assert GroupFits(s, g);
    case Nothing =>
      SenderIsCovered(s, i);
      CoveredIsLive(s, i, o.p);
      assert PacketFits(s, o.p);
  }

  /** The last drop of a reassembled request frees each fragment nobody else has: once no thread has anything left to do
      with the fragment, it has been freed, exactly once. */
  lemma LastDropFreesFragments(acts: seq<Action>, g: nat, q: nat)
    requires g < |Run(INIT, acts).groups| && Run(INIT, acts).groups[g].refs == 0
    requires q in Run(INIT, acts).groups[g].fragments && q < |Run(INIT, acts).requests|
    requires var s := Run(INIT, acts);
             && s.requests[q].handles == 0 && s.requests[q].hold != ByReassembly
             && (forall h :: 0 <= h < |s.groups| && h != g ==> s.groups[h].refs == 0 || q !in s.groups[h].fragments)
             && Total(s.threads, OnRequest(q)) == 0 && Total(s.threads, Freeing(q)) == 0
    ensures Run(INIT, acts).requests[q].refs == 0 && Run(INIT, acts).requests[q].freed == 1
  {
    var s := Run(INIT, acts);
    RunKeepsInv(acts);
    GroupedIsLive(s.requests, s.groups, q);
    assert RequestFits(s, q);
  }

  lemma GroupedIsLive(requests: seq<Request>, groups: seq<Group>, q: nat)
    requires FragmentsInv(requests, groups) && q < |requests|
    ensures var h := requests[q].hold;
            h.InGroup? ==> h.g < |groups| && groups[h.g].refs > 0 && q in groups[h.g].fragments
  {
    var h := requests[q].hold;
    assert h.InGroup? ==> h == InGroup(h.g);
  }

  /** Nobody holds anything any more, at either layer, and no thread has anything left to do. */
  ghost predicate Quiet(s: State) {
    && (forall p :: 0 <= p < |s.packets| ==> s.packets[p].handles == 0 && s.packets[p].sends == 0)
    && (forall q :: 0 <= q < |s.requests| ==> s.requests[q].handles == 0 && s.requests[q].hold != ByReassembly)
    && (forall g :: 0 <= g < |s.groups| ==> s.groups[g].handles == 0)
    && (forall i :: 0 <= i < |s.threads| ==> s.threads[i] == [])
  }

  lemma {:induction false} NoneLive(requests: seq<Request>, p: nat)
    requires forall q :: 0 <= q < |requests| ==> requests[q].refs == 0
    ensures LiveOn(requests, p) == 0
  {
    if requests != [] {
      NoneLive(requests[..|requests| - 1], p);
    }
  }

  lemma {:induction false} NoneOwed(threads: seq<Thread>, c: Claim)
    requires forall i :: 0 <= i < |threads| ==> threads[i] == []
    ensures Total(threads, c) == 0
  {
    if threads != [] {
      NoneOwed(threads[..|threads| - 1], c);
    }
  }

  lemma QuietGroupIsRecycled(s: State, g: nat)
    requires Inv(s) && Quiet(s) && g < |s.groups|
    ensures s.groups[g].refs == 0 && s.groups[g].recycled == 1
  {
    assert GroupFits(s, g);
    NoneOwed(s.threads, OnGroup(g));
    NoneOwed(s.threads, Recycling(g));
  }

  lemma QuietRequestIsFreed(s: State, q: nat)
    requires Inv(s) && Quiet(s) && q < |s.requests|
    ensures s.requests[q].refs == 0 && s.requests[q].freed == 1
  {
    GroupedIsLive(s.requests, s.groups, q);
    assert RequestFits(s, q);
    NoneOwed(s.threads, OnRequest(q));
    NoneOwed(s.threads, Freeing(q));
    forall g | 0 <= g < |s.groups|
      ensures s.groups[g].refs == 0
    {
      QuietGroupIsRecycled(s, g);
    }
  }

  /** Nothing leaks: when the last holder has gone and the drops have ended, the list is empty and every packet, request
      and work buffer has been given back exactly once. A fragment the reassembly drops without freeing counts as held for
      ever. */
  lemma NothingLeaks(acts: seq<Action>)
    requires Quiet(Run(INIT, acts))
    ensures var s := Run(INIT, acts);
            && s.list == []
            && (forall p :: 0 <= p < |s.packets| ==> s.packets[p].released == 1)
            && (forall q :: 0 <= q < |s.requests| ==> s.requests[q].freed == 1)
            && (forall g :: 0 <= g < |s.groups| ==> s.groups[g].recycled == 1)
  {
    RunKeepsInv(acts);
    var s := Run(INIT, acts);
    assert s.list == [] || s.list[0] in s.list;
    forall g | 0 <= g < |s.groups|
      ensures s.groups[g].recycled == 1
    {
      QuietGroupIsRecycled(s, g);
    }
    forall q | 0 <= q < |s.requests|
      ensures s.requests[q].refs == 0 && s.requests[q].freed == 1
    {
      QuietRequestIsFreed(s, q);
    }
    forall p | 0 <= p < |s.packets|
      ensures s.packets[p].released == 1 && p !in s.list
    {
      NoneLive(s.requests, p);
      NoneOwed(s.threads, OnPacket(p));
      NoneOwed(s.threads, Unlinking(p));
      NoneOwed(s.threads, Releasing(p));
      assert PacketFits(s, p);
    }
  }

  // ---- Every drop ends

  /** The operations an operation leads to, itself included. */
  function Work(s: State, o: Op): nat {
    match o
    case DecPacket(_) => 3
    case Unlink(_) => 2
    case DecRequest(_) => 5
    case DecGroup(g) => if g < |s.groups| then 2 + 5 * |s.groups[g].fragments| else 1
    case LookAdapter(_) => 3
    case TakePacket(_, _) => 2
    case _ => 1
  }

  function WorkLeft(s: State, t: Thread): nat {
    if t == [] then 0 else Work(s, t[0]) + WorkLeft(s, t[1..])
  }

  lemma {:induction false} WorkAppend(s: State, t: Thread, u: Thread)
    ensures WorkLeft(s, t + u) == WorkLeft(s, t) + WorkLeft(s, u)
  {
    if t == [] {
      assert t + u == u;
    } else {
      WorkAppend(s, t[1..], u);
      assert (t + u)[1..] == t[1..] + u;
    }
  }

  lemma {:induction false} WorkSame(s: State, s': State, t: Thread)
    requires |s'.groups| == |s.groups|
    requires forall g :: 0 <= g < |s.groups| ==> s'.groups[g].fragments == s.groups[g].fragments
    ensures WorkLeft(s', t) == WorkLeft(s, t)
  {
    if t != [] {
      WorkSame(s, s', t[1..]);
    }
  }

  lemma {:induction false} WorkOfDrops(s: State, fragments: seq<nat>)
    ensures WorkLeft(s, Drops(fragments)) == 5 * |fragments|
  {
    if fragments != [] {
      assert Drops(fragments)[1..] == Drops(fragments[1..]);
      WorkOfDrops(s, fragments[1..]);
    }
  }

  lemma WorkOfFew(s: State, a: Op, b: Op)
    ensures WorkLeft(s, [a]) == Work(s, a) && WorkLeft(s, [a, b]) == Work(s, a) + Work(s, b)
  {
    assert WorkLeft(s, [a][1..]) == 0 && WorkLeft(s, [b][1..]) == 0;
    assert [a, b][1..] == [b];
  }

  /** What an operation leaves its thread to do first. */
  function More(s: State, o: Op): Thread
    requires OpKnown(s, o)
  {
    match o
    case DecPacket(p) => if s.packets[p].refs == 1 then [Unlink(p)] else []
    case Unlink(p) => [Release(p)]
    case DecRequest(q) =>
      if s.requests[q].refs == 1 then [DecPacket(s.requests[q].packet), FreeRequest(q)] else []
    case DecGroup(g) => if s.groups[g].refs == 1 then Demolition(s.groups[g].fragments, g) else []
    case LookAdapter(p) => if s.packets[p].adapter.On? then [TakePacket(p, s.packets[p].adapter.a)] else []
    case TakePacket(p, a) => [CallNdis(p, a)]
    case _ => []
  }

  lemma GoesOnToMore(s: State, i: nat)
    requires CanAdvance(s, i)
    ensures Do(s, i).threads == Continue(s.threads, i, More(s, s.threads[i][0]))
    ensures |Do(s, i).groups| == |s.groups|
    ensures forall g :: 0 <= g < |s.groups| ==> Do(s, i).groups[g].fragments == s.groups[g].fragments
  {
  }

  lemma WorkOfDemolition(s: State, fragments: seq<nat>, g: nat)
    ensures WorkLeft(s, Demolition(fragments, g)) == 5 * |fragments| + 1
  {
    WorkOfDrops(s, fragments);
    WorkOfFew(s, RecycleGroup(g), RecycleGroup(g));
    WorkAppend(s, Drops(fragments), [RecycleGroup(g)]);
  }

  /** It is less than the operation itself. */
  lemma MoreIsLess(s: State, o: Op)
    requires OpKnown(s, o)
    ensures WorkLeft(s, More(s, o)) < Work(s, o)
  {
    var more := More(s, o);
    if o.DecGroup? {
      WorkOfDemolition(s, s.groups[o.g].fragments, o.g);
    } else if |more| == 1 {
      WorkOfFew(s, more[0], more[0]);
    } else if |more| == 2 {
      WorkOfFew(s, more[0], more[1]);
    }
  }

  /** Each operation brings its thread closer to its end, so every drop and every send ends. */
  lemma ThreadsEnd(s: State, i: nat)
    requires CanAdvance(s, i)
    ensures WorkLeft(Do(s, i), Do(s, i).threads[i]) < WorkLeft(s, s.threads[i])
  {
    var more := More(s, s.threads[i][0]);
    GoesOnToMore(s, i);
    MoreIsLess(s, s.threads[i][0]);
    WorkAppend(s, more, s.threads[i][1..]);
    WorkSame(s, Do(s, i), more + s.threads[i][1..]);
  }

  // ---- Sends and adapters that go away

  /** Thread `i` is about to use the handle of adapter `a`. */
  predicate Sending(s: State, i: nat, a: nat) {
    i < |s.threads| && s.threads[i] != []
    && (s.threads[i][0].TakePacket? || s.threads[i][0].CallNdis?) && s.threads[i][0].a == a
  }

  predicate ReadsHandle(s: State, x: Action, i: nat) {
    x == Advance(i) && CanAdvance(s, i) && s.threads[i][0].LookAdapter?
  }

  /** Adapter `a` was closed after thread `i` last read an adapter's handle. */
  predicate ClosedInGap(acts: seq<Action>, i: nat, a: nat) {
    acts != [] &&
    var s, x := Run(INIT, acts[..|acts| - 1]), acts[|acts| - 1];
    !ReadsHandle(s, x, i) && ((x == CloseAdapter(a) && Enabled(s, x)) || ClosedInGap(acts[..|acts| - 1], i, a))
  }

  lemma {:induction false} OpenOnlyCloses(s: State, x: Action, a: nat)
    requires a < |s.open|
    ensures a < |Step(s, x).open|
    ensures Step(s, x).open[a] <==> s.open[a] && !(x == CloseAdapter(a) && Enabled(s, x))
  {
  }

  /** The thread an action starts, if it starts one. */
  function Started(s: State, x: Action): Thread
    requires Enabled(s, x)
  {
    match x
    case FreePacket(p) => [DecPacket(p)]
    case Send(p) => [LookAdapter(p), ReturnPacket(p)]
    case SendDone(p) => [DecPacket(p)]
    case FreeClone(q) => [DecRequest(q)]
    case SendItsPacket(q) => [LookAdapter(s.requests[q].packet), ReturnRequest(q)]
    case ReassemblyFrees(q) => [DecRequest(q)]
    case FreeGroup(g) => [DecGroup(g)]
    case SendFragments(g) => Looks(s.requests, s.groups[g].fragments) + [ReturnGroup(g)]
    case _ => []
  }

  lemma OthersKeepThread(s: State, x: Action)
    requires Enabled(s, x) && !x.Advance?
    ensures Step(s, x).threads == if Started(s, x) == [] then s.threads else s.threads + [Started(s, x)]
  {
  }

  lemma StartsUnread(s: State, x: Action)
    requires Enabled(s, x) && Started(s, x) != []
    ensures !Started(s, x)[0].TakePacket? && !Started(s, x)[0].CallNdis?
  {
    if x.SendFragments? {
      var fragments := s.groups[x.g].fragments;
      assert Started(s, x)[0] == if fragments == [] then ReturnGroup(x.g) else Looks(s.requests, fragments)[0];
    }
  }

  lemma RestIsUnread(s: State, i: nat)
    requires ThreadsInv(s) && CanAdvance(s, i)
    ensures var rest := s.threads[i][1..]; rest != [] ==> !rest[0].TakePacket? && !rest[0].CallNdis?
  {
    assert ThreadInv(s, s.threads[i]);
    if |s.threads[i]| > 1 {
      assert OpInv(s, s.threads[i], 1);
    }
  }

  /** A thread that is about to use a handle has read it before, or is reading it now. */
  lemma SendingBefore(s: State, x: Action, i: nat, a: nat)
    requires Inv(s) && Sending(Step(s, x), i, a)
    ensures Sending(s, i, a) || (ReadsHandle(s, x, i) && s.packets[s.threads[i][0].p].adapter == On(a))
    ensures Sending(s, i, a) ==> !ReadsHandle(s, x, i)
  {
    if x == Advance(i) && CanAdvance(s, i) {
      var t := s.threads[i];
      var more := More(s, t[0]);
      GoesOnToMore(s, i);
      RestIsUnread(s, i);
      assert [] + t[1..] == t[1..];
      if more != [] {
        assert (more + t[1..])[0] == more[0];
        SendingAmong(s, t[0], a);
      }
    } else if Enabled(s, x) && !x.Advance? {
      OthersKeepThread(s, x);
      if Started(s, x) != [] {
        StartsUnread(s, x);
      }
    }
  }

  /** Only reading a handle, or passing it on, leads to using it. */
  lemma SendingAmong(s: State, o: Op, a: nat)
    requires OpKnown(s, o) && More(s, o) != []
    requires (More(s, o)[0].TakePacket? || More(s, o)[0].CallNdis?) && More(s, o)[0].a == a
    ensures (o.LookAdapter? && s.packets[o.p].adapter == On(a)) || (o.TakePacket? && o.a == a)
  {
  }

  /** While a thread is about to use the handle of an adapter, the adapter is open exactly if it has not been closed since
      the thread read the handle. */
  lemma {:induction false} OpenUnlessClosedInGap(acts: seq<Action>, i: nat, a: nat)
    requires Sending(Run(INIT, acts), i, a)
    ensures var s := Run(INIT, acts); a < |s.open| && (s.open[a] <==> !ClosedInGap(acts, i, a))
  {
    if acts != [] {
      var front := acts[..|acts| - 1];
      var s, x := Run(INIT, front), acts[|acts| - 1];
      RunKeepsInv(front);
      SendingBefore(s, x, i, a);
      if Sending(s, i, a) {
        OpenUnlessClosedInGap(front, i, a);
      } else {
        SenderIsCovered(s, i);
        CoveredIsLive(s, i, s.threads[i][0].p);
      }
      OpenOnlyCloses(s, x, a);
    }
  }

  /** `SendPacket` calls NDIS through the handle of an open adapter if and only if the adapter was not closed between the
      locked read of the handle and the call. */
  lemma CallUsesOpenAdapterIff(acts: seq<Action>, i: nat)
    requires CanAdvance(Run(INIT, acts), i) && Run(INIT, acts).threads[i][0].CallNdis?
    ensures var s := Run(INIT, acts);
            var a := s.threads[i][0].a;
            s.open[a] <==> !ClosedInGap(acts, i, a)
  {
    OpenUnlessClosedInGap(acts, i, Run(INIT, acts).threads[i][0].a);
  }

  lemma Extend(acts: seq<Action>, x: Action) returns (longer: seq<Action>)
    ensures Run(INIT, longer) == Step(Run(INIT, acts), x)
  {
    longer := acts + [x];
    assert longer[..|longer| - 1] == acts;
  }

  lemma SendBegins() returns (acts: seq<Action>)
    ensures Run(INIT, acts) == State([Packet(1, On(0), 0, 0, 0)], [0], [], [], [true], [[LookAdapter(0), ReturnPacket(0)]])
  {
    acts := Extend([], OpenAdapter);
    acts := Extend(acts, CreatePacket(0));
    assert Run(INIT, acts) == State([Packet(1, On(0), 0, 1, 0)], [0], [], [], [true], []);
    acts := Extend(acts, Send(0));
  }

  lemma SendReadsHandle() returns (acts: seq<Action>)
    ensures Run(INIT, acts) == State([Packet(1, On(0), 0, 0, 0)], [0], [], [], [true], [[TakePacket(0, 0), ReturnPacket(0)]])
  {
    acts := SendBegins();
    var s := Run(INIT, acts);
    acts := Extend(acts, Advance(0));
    assert Do(s, 0) == DoLook(s, 0, 0);
    assert [TakePacket(0, 0)] + [LookAdapter(0), ReturnPacket(0)][1..] == [TakePacket(0, 0), ReturnPacket(0)];
  }

  /** It does happen: a send that has read the handle, the adapter closed, and NDIS called through the handle. */
  lemma ClosedAdapterIsUsed() returns (acts: seq<Action>)
    ensures var s := Run(INIT, acts); CanAdvance(s, 0) && s.threads[0][0] == CallNdis(0, 0) && !s.open[0]
  {
    acts := SendReadsHandle();
    acts := Extend(acts, CloseAdapter(0));
    var s := Run(INIT, acts);
    assert s.threads == [[TakePacket(0, 0), ReturnPacket(0)]] && |s.packets| == 1 && s.open == [false];
    acts := Extend(acts, Advance(0));
    assert Do(s, 0) == DoTake(s, 0, 0, 0);
  }

  // ---- The counters and lists as the program updates them

  datatype PacketFields = PacketFields(references: int, adapter: Adapter)
  datatype RequestFields = RequestFields(references: int, packet: nat)
  datatype GroupFields = GroupFields(references: int, fragments: seq<nat>)

  predicate PacketMirrors(f: PacketFields, k: Packet) {
    f.references == k.refs && f.adapter == k.adapter
  }

  predicate RequestMirrors(f: RequestFields, r: Request) {
    f.references == r.refs && f.packet == r.packet
  }

  predicate GroupMirrors(f: GroupFields, g: Group) {
    f.references == g.refs && f.fragments == g.fragments
  }

  ghost predicate PacketsMirror(fields: seq<PacketFields>, packets: seq<Packet>) {
    |fields| == |packets| && forall p :: 0 <= p < |packets| ==> PacketMirrors(fields[p], packets[p])
  }

  ghost predicate RequestsMirror(fields: seq<RequestFields>, requests: seq<Request>) {
    |fields| == |requests| && forall q :: 0 <= q < |requests| ==> RequestMirrors(fields[q], requests[q])
  }

  ghost predicate GroupsMirror(fields: seq<GroupFields>, groups: seq<Group>) {
    |fields| == |groups| && forall g :: 0 <= g < |groups| ==> GroupMirrors(fields[g], groups[g])
  }

  ghost predicate Reachable(s: State) {
    exists acts :: s == Run(INIT, acts)
  }

  lemma StaysReachable(s: State, x: Action)
    requires Reachable(s)
    ensures Reachable(Step(s, x))
  {
    var acts :| s == Run(INIT, acts);
    var longer := Extend(acts, x);
  }

  lemma ListKnown(s: State)
    requires Reachable(s)
    ensures AllBelow(s.list, |s.packets|)
  {
    var acts :| s == Run(INIT, acts);
    RunKeepsInv(acts);
  }

  /** The fields of both layers, and what each thread has still to do. `model` also follows who holds what. */
  class Layers {
    var packets: seq<PacketFields>
    var packetsList: seq<nat>
    var requests: seq<RequestFields>
    var groups: seq<GroupFields>
    var threads: seq<Thread>
    ghost var model: State

    ghost predicate Valid()
      reads this
    {
      && PacketsMirror(packets, model.packets) && RequestsMirror(requests, model.requests)
      && GroupsMirror(groups, model.groups)
      && packetsList == model.list && threads == model.threads && Reachable(model)
    }

    constructor ()
      ensures Valid() && model == INIT
    {
      packets, packetsList, requests, groups, threads := [], [], [], [], [];
      model := INIT;
      new;
      assert Run(INIT, []) == INIT;
    }

    /** An adapter appears, or a holder's reference passes to reassembly: none of these fields changes. */
    ghost method Follow(x: Action)
      requires Valid() && (x.OpenAdapter? || x.HandOver?)
      modifies this`model
      ensures Valid() && model == Step(old(model), x)
    {
      StaysReachable(model, x);
      model := Step(model, x);
    }

    /** `CloseAdapter`: the loop over the packets list, under its lock. */
    method DetachPackets(a: nat)
      requires Valid() && Enabled(model, CloseAdapter(a))
      modifies this
      ensures Valid() && model == Step(old(model), CloseAdapter(a))
    {
      ListKnown(model);
      StaysReachable(model, CloseAdapter(a));
      var k := 0;
      while k < |packetsList|
        invariant k <= |packetsList| && |packets| == |model.packets|
        invariant model == old(model) && packetsList == old(packetsList) && threads == old(threads)
        invariant requests == old(requests) && groups == old(groups)
        invariant forall p :: 0 <= p < |packets| ==>
                    PacketMirrors(packets[p], Detach(model.packets[p], p in packetsList[..k], a))
      {
        var p := packetsList[k];
        assert packetsList[..k + 1] == packetsList[..k] + [p];
        if packets[p].adapter == On(a) {
          packets := packets[p := packets[p].(adapter := Detached)];
        }
        k := k + 1;
      }
      assert packetsList[..k] == packetsList;
      model := Step(model, CloseAdapter(a));
    }

    /** The handlers: a new packet with one reference, at the tail of the list. */
    method CreateOn(a: nat)
      requires Valid() && Enabled(model, CreatePacket(a))
      modifies this
      ensures Valid() && model == Step(old(model), CreatePacket(a))
    {
      StaysReachable(model, CreatePacket(a));
      packetsList := packetsList + [|packets|];
      packets := packets + [PacketFields(1, On(a))];
      model := Step(model, CreatePacket(a));
    }

    /** `FLTCloneRequest`, by a client that has the packet or a request on it. */
    method CloneOfPacket(p: nat, x: Action)
      requires Valid() && Enabled(model, x)
      requires x == ClonePacket(p) || (x.CloneItsPacket? && model.requests[x.q].packet == p)
      modifies this
      ensures Valid() && model == Step(old(model), x)
    {
      StaysReachable(model, x);
      packets := packets[p := packets[p].(references := packets[p].references + 1)];
      model := Step(model, x);
    }

    /** `AllocateRequest`: the packet is cloned for a request with one reference. */
    method AllocateRequest(p: nat)
      requires Valid() && Enabled(model, Allocate(p))
      modifies this
      ensures Valid() && model == Step(old(model), Allocate(p))
    {
      StaysReachable(model, Allocate(p));
      packets := packets[p := packets[p].(references := packets[p].references + 1)];
      requests := requests + [RequestFields(1, p)];
      model := Step(model, Allocate(p));
    }

    /** `FWCloneRequest`. */
    method CloneOfRequest(q: nat)
      requires Valid() && Enabled(model, CloneRequest(q))
      modifies this
      ensures Valid() && model == Step(old(model), CloneRequest(q))
    {
      StaysReachable(model, CloneRequest(q));
      requests := requests[q := requests[q].(references := requests[q].references + 1)];
      model := Step(model, CloneRequest(q));
    }

    /** `FWCloneRequest` on a reassembled request. */
    method CloneOfGroup(g: nat)
      requires Valid() && Enabled(model, CloneGroup(g))
      modifies this
      ensures Valid() && model == Step(old(model), CloneGroup(g))
    {
      StaysReachable(model, CloneGroup(g));
      groups := groups[g := groups[g].(references := groups[g].references + 1)];
      model := Step(model, CloneGroup(g));
    }

    /** A completed datagram becomes a request of its own. */
    method AssembleGroup(fragments: seq<nat>)
      requires Valid() && Enabled(model, Assemble(fragments))
      modifies this
      ensures Valid() && model == Step(old(model), Assemble(fragments))
    {
      StaysReachable(model, Assemble(fragments));
      groups := groups + [GroupFields(1, fragments)];
      model := Step(model, Assemble(fragments));
    }

    /** A holder starts to let go, or to send. */
    method Start(x: Action)
      requires Valid() && Enabled(model, x)
      requires x.FreePacket? || x.Send? || x.SendDone? || x.FreeClone? || x.SendItsPacket? || x.ReassemblyFrees? || x.FreeGroup?
      modifies this
      ensures Valid() && model == Step(old(model), x)
    {
      StaysReachable(model, x);
      var t: Thread;
      match x {
        case FreePacket(p) => t := [DecPacket(p)];
        case Send(p) => t := [LookAdapter(p), ReturnPacket(p)];
        case SendDone(p) => t := [DecPacket(p)];
        case FreeClone(q) => t := [DecRequest(q)];
        case SendItsPacket(q) => t := [LookAdapter(requests[q].packet), ReturnRequest(q)];
        case ReassemblyFrees(q) => t := [DecRequest(q)];
        case FreeGroup(g) => t := [DecGroup(g)];
      }
      threads := threads + [t];
      model := Step(model, x);
    }

    /** `FWInjectRequest` on a reassembled request: each of its fragments is injected below. */
    method StartFragments(g: nat)
      requires Valid() && Enabled(model, SendFragments(g))
      modifies this
      ensures Valid() && model == Step(old(model), SendFragments(g))
    {
      StaysReachable(model, SendFragments(g));
      var fragments := groups[g].fragments;
      var looks: Thread := [];
      var k := 0;
      while k < |fragments|
        invariant k <= |fragments| && |looks| == k
        invariant forall j :: 0 <= j < k ==> looks[j] == LookAdapter(model.requests[fragments[j]].packet)
      {
        looks := looks + [LookAdapter(requests[fragments[k]].packet)];
        k := k + 1;
      }
      assert looks == Looks(model.requests, fragments);
      threads := threads + [looks + [ReturnGroup(g)]];
      model := Step(model, SendFragments(g));
    }

    /** `FLTFreeCloneRequest`: the interlocked decrement. */
    method DecrementPacket(i: nat, p: nat) returns (zero: bool)
      requires Valid() && HeadIs(model, i, DecPacket(p))
      modifies this
      ensures Valid() && model == Step(old(model), Advance(i)) && (zero <==> old(packets)[p].references == 1)
    {
      StaysReachable(model, Advance(i));
      packets := packets[p := packets[p].(references := packets[p].references - 1)];
      zero := packets[p].references == 0;
      threads := Continue(threads, i, if zero then [Unlink(p)] else []);
      model := Step(model, Advance(i));
    }

    /** The locked removal from the packets list. */
    method UnlinkPacket(i: nat, p: nat)
      requires Valid() && HeadIs(model, i, Unlink(p))
      modifies this
      ensures Valid() && model == Step(old(model), Advance(i))
    {
      StaysReachable(model, Advance(i));
      RemoveFromList(p);
      threads := Continue(threads, i, [Release(p)]);
      model := Step(model, Advance(i));
    }

    method RemoveFromList(p: nat)
      modifies this`packetsList
      ensures packetsList == Without(old(packetsList), p)
    {
      var k := 0;
      while k < |packetsList|
        invariant k <= |packetsList| && p !in packetsList[..k]
        invariant Without(packetsList, p) == Without(old(packetsList), p)
        decreases |packetsList| - k
      {
        if packetsList[k] == p {
          WithoutSkips(packetsList, k);
          packetsList := packetsList[..k] + packetsList[k + 1..];
        } else {
          k := k + 1;
        }
      }
      assert p !in packetsList;
    }

    /** `FWFreeCloneRequest`: the interlocked decrement; the last one goes on to drop the packet. */
    method DecrementRequest(i: nat, q: nat) returns (zero: bool)
      requires Valid() && HeadIs(model, i, DecRequest(q))
      modifies this
      ensures Valid() && model == Step(old(model), Advance(i)) && (zero <==> old(requests)[q].references == 1)
    {
      StaysReachable(model, Advance(i));
      requests := requests[q := requests[q].(references := requests[q].references - 1)];
      zero := requests[q].references == 0;
      threads := Continue(threads, i, if zero then [DecPacket(requests[q].packet), FreeRequest(q)] else []);
      model := Step(model, Advance(i));
    }

    /** `FWFreeCloneRequest` on a reassembled request: the last one goes on to the loop over its fragments. */
    method DecrementGroup(i: nat, g: nat) returns (zero: bool)
      requires Valid() && HeadIs(model, i, DecGroup(g))
      modifies this
      ensures Valid() && model == Step(old(model), Advance(i)) && (zero <==> old(groups)[g].references == 1)
    {
      StaysReachable(model, Advance(i));
      groups := groups[g := groups[g].(references := groups[g].references - 1)];
      zero := groups[g].references == 0;
      threads := Continue(threads, i, if zero then Drops(groups[g].fragments) + [RecycleGroup(g)] else []);
      model := Step(model, Advance(i));
    }

    /** `SendPacket`: the locked read of the adapter's handle. */
    method ReadHandle(i: nat, p: nat) returns (attached: bool)
      requires Valid() && HeadIs(model, i, LookAdapter(p))
      modifies this
      ensures Valid() && model == Step(old(model), Advance(i)) && (attached <==> packets[p].adapter.On?)
    {
      StaysReachable(model, Advance(i));
      attached := packets[p].adapter.On?;
      threads := Continue(threads, i, if attached then [TakePacket(p, packets[p].adapter.a)] else []);
      model := Step(model, Advance(i));
    }

    /** Then the reference for the send. */
    method TakeForSend(i: nat, p: nat, a: nat)
      requires Valid() && HeadIs(model, i, TakePacket(p, a))
      modifies this
      ensures Valid() && model == Step(old(model), Advance(i))
    {
      StaysReachable(model, Advance(i));
      packets := packets[p := packets[p].(references := packets[p].references + 1)];
      threads := Continue(threads, i, [CallNdis(p, a)]);
      model := Step(model, Advance(i));
    }

    /** The operations that change none of the counters: memory goes back, NDIS is called, a reference is in hand again. */
    method Settle(i: nat)
      requires Valid() && CanAdvance(model, i)
      requires var o := model.threads[i][0];
               || o.Release? || o.FreeRequest? || o.RecycleGroup? || o.CallNdis?
               || o.ReturnPacket? || o.ReturnRequest? || o.ReturnGroup?
      modifies this
      ensures Valid() && model == Step(old(model), Advance(i))
    {
      StaysReachable(model, Advance(i));
      threads := Continue(threads, i, []);
      model := Step(model, Advance(i));
    }

    method DoNext(i: nat)
      requires Valid() && CanAdvance(model, i)
      modifies this
      ensures Valid() && model == Step(old(model), Advance(i))
    {
      match threads[i][0] {
        case DecPacket(p) => var zero := DecrementPacket(i, p);
        case Unlink(p) => UnlinkPacket(i, p);
        case DecRequest(q) => var zero := DecrementRequest(i, q);
        case DecGroup(g) => var zero := DecrementGroup(i, g);
        case LookAdapter(p) => var attached := ReadHandle(i, p);
        case TakePacket(p, a) => TakeForSend(i, p, a);
        case _ => Settle(i);
      }
    }

    method Perform(x: Action)
      requires Valid() && Enabled(model, x)
      modifies this
      ensures Valid() && model == Step(old(model), x)
    {
      match x {
        case OpenAdapter => Follow(x);
        case HandOver(_) => Follow(x);
        case CloseAdapter(a) => DetachPackets(a);
        case CreatePacket(a) => CreateOn(a);
        case ClonePacket(p) => CloneOfPacket(p, x);
        case CloneItsPacket(q) => CloneOfPacket(requests[q].packet, x);
        case Allocate(p) => AllocateRequest(p);
        case CloneRequest(q) => CloneOfRequest(q);
        case CloneGroup(g) => CloneOfGroup(g);
        case Assemble(fragments) => AssembleGroup(fragments);
        case SendFragments(g) => StartFragments(g);
        case Advance(i) => DoNext(i);
        case _ => Start(x);
      }
    }

    /** Any interleaving of what holders and threads do takes the fields where the state machine goes, so everything
        proved of its runs holds of them. */
    method PerformAll(acts: seq<Action>)
      requires Valid() && forall n :: 0 <= n < |acts| ==> Enabled(Run(model, acts[..n]), acts[n])
      modifies this
      ensures Valid() && model == Run(old(model), acts)
    {
      for n := 0 to |acts|
        invariant Valid() && model == Run(old(model), acts[..n])
      {
        assert acts[..n + 1][..n] == acts[..n];
        Perform(acts[n]);
      }
      assert acts[..|acts|] == acts;
    }
  }
}
