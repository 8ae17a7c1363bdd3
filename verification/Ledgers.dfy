/** The counts of both layers, told from what handlers, clients and threads have done: who has which reference in hand, which
    sends NDIS has, and what every packet, request and reassembled request was made from. */
module Ledgers {
  import opened Lists
  import opened References

  // ---- References in hand

  /** What thread `i` does next. */
  function NextOp(s: State, i: nat): Op
    requires CanAdvance(s, i)
  {
    s.threads[i][0]
  }

  /** A packet's creator and its clients take references, give them up, and part with one for the time of a send. */
  function PacketDelta(s: State, a: Action, p: nat): int {
    if !Enabled(s, a) then 0
    else
      match a
      case CreatePacket(_) => One(|s.packets| == p)
      case ClonePacket(x) => One(x == p)
      case CloneItsPacket(q) => One(s.requests[q].packet == p)
      case FreePacket(x) => 0 - One(x == p)
      case Send(x) => 0 - One(x == p)
      case Advance(i) => One(NextOp(s, i) == ReturnPacket(p))
      case _ => 0
  }

  function RequestDelta(s: State, a: Action, q: nat): int {
    if !Enabled(s, a) then 0
    else
      match a
      case Allocate(_) => One(|s.requests| == q)
      case CloneRequest(x) => One(x == q)
      case FreeClone(x) => 0 - One(x == q)
      case HandOver(x) => 0 - One(x == q)
      case SendItsPacket(x) => 0 - One(x == q)
      case Advance(i) => One(NextOp(s, i) == ReturnRequest(q))
      case _ => 0
  }

  function GroupDelta(s: State, a: Action, g: nat): int {
    if !Enabled(s, a) then 0
    else
      match a
      case Assemble(_) => One(|s.groups| == g)
      case CloneGroup(x) => One(x == g)
      case FreeGroup(x) => 0 - One(x == g)
      case SendFragments(x) => 0 - One(x == g)
      case Advance(i) => One(NextOp(s, i) == ReturnGroup(g))
      case _ => 0
  }

  /** NDIS has a packet from the call on, until it completes the send. */
  function SendDelta(s: State, a: Action, p: nat): int {
    if !Enabled(s, a) then 0
    else
      match a
      case SendDone(x) => 0 - One(x == p)
      case Advance(i) => One(NextOp(s, i).CallNdis? && NextOp(s, i).p == p)
      case _ => 0
  }

  function PacketsInHand(acts: seq<Action>, p: nat): int {
    if acts == [] then 0
    else PacketsInHand(acts[..|acts| - 1], p) + PacketDelta(Run(INIT, acts[..|acts| - 1]), acts[|acts| - 1], p)
  }

  function RequestsInHand(acts: seq<Action>, q: nat): int {
    if acts == [] then 0
    else RequestsInHand(acts[..|acts| - 1], q) + RequestDelta(Run(INIT, acts[..|acts| - 1]), acts[|acts| - 1], q)
  }

  function GroupsInHand(acts: seq<Action>, g: nat): int {
    if acts == [] then 0
    else GroupsInHand(acts[..|acts| - 1], g) + GroupDelta(Run(INIT, acts[..|acts| - 1]), acts[|acts| - 1], g)
  }

  function SendsInFlight(acts: seq<Action>, p: nat): int {
    if acts == [] then 0
    else SendsInFlight(acts[..|acts| - 1], p) + SendDelta(Run(INIT, acts[..|acts| - 1]), acts[|acts| - 1], p)
  }

  function PacketHandles(s: State, p: nat): int { if p < |s.packets| then s.packets[p].handles else 0 }

  function PacketSends(s: State, p: nat): int { if p < |s.packets| then s.packets[p].sends else 0 }

  function RequestHandles(s: State, q: nat): int { if q < |s.requests| then s.requests[q].handles else 0 }

  function GroupHandles(s: State, g: nat): int { if g < |s.groups| then s.groups[g].handles else 0 }

  lemma AdvanceOnPackets(s: State, i: nat, p: nat)
    requires CanAdvance(s, i)
    ensures var s' := Do(s, i);
            && PacketHandles(s', p) == PacketHandles(s, p) + One(NextOp(s, i) == ReturnPacket(p))
            && PacketSends(s', p) == PacketSends(s, p) + One(NextOp(s, i).CallNdis? && NextOp(s, i).p == p)
  {
  }

  lemma AdvanceOnRequests(s: State, i: nat, q: nat)
    requires CanAdvance(s, i)
    ensures RequestHandles(Do(s, i), q) == RequestHandles(s, q) + One(NextOp(s, i) == ReturnRequest(q))
  {
  }

  lemma AdvanceOnGroups(s: State, i: nat, g: nat)
    requires CanAdvance(s, i)
    ensures GroupHandles(Do(s, i), g) == GroupHandles(s, g) + One(NextOp(s, i) == ReturnGroup(g))
  {
  }

  lemma StepOnPackets(s: State, a: Action, p: nat)
    ensures PacketHandles(Step(s, a), p) == PacketHandles(s, p) + PacketDelta(s, a, p)
    ensures PacketSends(Step(s, a), p) == PacketSends(s, p) + SendDelta(s, a, p)
  {
    if Enabled(s, a) && a.Advance? {
      AdvanceOnPackets(s, a.i, p);
    }
  }

  lemma StepOnRequests(s: State, a: Action, q: nat)
    ensures RequestHandles(Step(s, a), q) == RequestHandles(s, q) + RequestDelta(s, a, q)
  {
    if Enabled(s, a) && a.Advance? {
      AdvanceOnRequests(s, a.i, q);
    }
  }

  lemma StepOnGroups(s: State, a: Action, g: nat)
    ensures GroupHandles(Step(s, a), g) == GroupHandles(s, g) + GroupDelta(s, a, g)
  {
    if Enabled(s, a) && a.Advance? {
      AdvanceOnGroups(s, a.i, g);
    }
  }

  /** The references in hand are those taken and not given up, and the sends in flight those begun and not completed. With the
      conservation of the counts this says of every count what it is, from what was done alone. */
  lemma {:induction false} HandlesAreInHand(acts: seq<Action>, n: nat)
    ensures var s := Run(INIT, acts);
            && PacketHandles(s, n) == PacketsInHand(acts, n) && PacketSends(s, n) == SendsInFlight(acts, n)
            && RequestHandles(s, n) == RequestsInHand(acts, n) && GroupHandles(s, n) == GroupsInHand(acts, n)
  {
    if acts != [] {
      var s, a := Run(INIT, acts[..|acts| - 1]), acts[|acts| - 1];
      HandlesAreInHand(acts[..|acts| - 1], n);
      StepOnPackets(s, a, n);
      StepOnRequests(s, a, n);
      StepOnGroups(s, a, n);
    }
  }

  // ---- What everything was made from

  /** The adapter of every packet, the packet of every request, the fragments of every reassembled request, in the order they were
      made; and the number of adapters. */
  datatype Made = Made(packets: seq<nat>, requests: seq<nat>, groups: seq<seq<nat>>, adapters: nat)

  function MadeAfter(m: Made, s: State, a: Action): Made {
    if !Enabled(s, a) then m
    else
      match a
      case OpenAdapter => m.(adapters := m.adapters + 1)
      case CreatePacket(n) => m.(packets := m.packets + [n])
      case Allocate(p) => m.(requests := m.requests + [p])
      case Assemble(fragments) => m.(groups := m.groups + [fragments])
      case _ => m
  }

  function MadeOf(acts: seq<Action>): Made {
    if acts == [] then Made([], [], [], 0)
    else MadeAfter(MadeOf(acts[..|acts| - 1]), Run(INIT, acts[..|acts| - 1]), acts[|acts| - 1])
  }

  ghost predicate MadeFrom(s: State, m: Made) {
    && |s.packets| == |m.packets| && |s.requests| == |m.requests| && |s.groups| == |m.groups| && |s.open| == m.adapters
    && (forall p :: 0 <= p < |s.packets| ==>
          m.packets[p] < |s.open|
          && (s.packets[p].adapter == On(m.packets[p]) || (s.packets[p].adapter == Detached && !s.open[m.packets[p]])))
    && (forall q :: 0 <= q < |s.requests| ==> s.requests[q].packet == m.requests[q])
    && (forall g :: 0 <= g < |s.groups| ==> s.groups[g].fragments == m.groups[g])
  }

  /** A step that makes nothing, and detaches nothing that is still open. */
  ghost predicate MakesNothing(s: State, s': State) {
    && |s'.packets| == |s.packets| && |s'.requests| == |s.requests| && |s'.groups| == |s.groups| && |s'.open| == |s.open|
    && (forall a :: 0 <= a < |s.open| && !s.open[a] ==> !s'.open[a])
    && (forall p :: 0 <= p < |s.packets| ==> s'.packets[p].adapter == s.packets[p].adapter)
    && (forall q :: 0 <= q < |s.requests| ==> s'.requests[q].packet == s.requests[q].packet)
    && (forall g :: 0 <= g < |s.groups| ==> s'.groups[g].fragments == s.groups[g].fragments)
  }

  lemma AdvanceMakesNothing(s: State, i: nat)
    requires CanAdvance(s, i)
    ensures MakesNothing(s, Do(s, i))
  {
  }

  lemma ActionMakesNothing(s: State, a: Action)
    requires !a.OpenAdapter? && !a.CloseAdapter? && !a.CreatePacket? && !a.Allocate? && !a.Assemble?
    ensures MakesNothing(s, Step(s, a))
  {
    if Enabled(s, a) && a.Advance? {
      AdvanceMakesNothing(s, a.i);
    }
  }

  lemma StepMakes(s: State, a: Action, m: Made)
    requires MadeFrom(s, m)
    ensures MadeFrom(Step(s, a), MadeAfter(m, s, a))
  {
    if !a.OpenAdapter? && !a.CloseAdapter? && !a.CreatePacket? && !a.Allocate? && !a.Assemble? {
      ActionMakesNothing(s, a);
    }
  }

  /** Every packet, request and reassembled request is what it was made as; a packet is detached only from an adapter that was
      closed. */
  lemma {:induction false} AllIsAsMade(acts: seq<Action>)
    ensures MadeFrom(Run(INIT, acts), MadeOf(acts))
  {
    if acts != [] {
      AllIsAsMade(acts[..|acts| - 1]);
      StepMakes(Run(INIT, acts[..|acts| - 1]), acts[|acts| - 1], MadeOf(acts[..|acts| - 1]));
    }
  }

  /** A packet somebody has is on its adapter exactly as long as that is open. */
  lemma AttachedWhileOpen(acts: seq<Action>, p: nat)
    requires p < |Run(INIT, acts).packets| && Run(INIT, acts).packets[p].refs > 0
    ensures var s, m := Run(INIT, acts), MadeOf(acts);
            && p < |m.packets| && m.packets[p] < |s.open|
            && s.packets[p].adapter == if s.open[m.packets[p]] then On(m.packets[p]) else Detached
  {
    AllIsAsMade(acts);
    RunKeepsInv(acts);
  }

  // ---- What reassembly has

  /** The request was handed over to reassembly, which has neither freed it nor made it part of a reassembled request since. */
  predicate WithReassembly(acts: seq<Action>, q: nat) {
    acts != [] &&
    var s, a := Run(INIT, acts[..|acts| - 1]), acts[|acts| - 1];
    if Enabled(s, a) && a == HandOver(q) then true
    else if Enabled(s, a) && (a == ReassemblyFrees(q) || (a.Assemble? && q in a.fragments)) then false
    else WithReassembly(acts[..|acts| - 1], q)
  }

  predicate WaitsThere(s: State, q: nat) { q < |s.requests| && s.requests[q].hold == ByReassembly }

  lemma AdvanceOnHold(s: State, i: nat, q: nat)
    requires CanAdvance(s, i) && FragmentsInv(s.requests, s.groups)
    ensures WaitsThere(Do(s, i), q) <==> WaitsThere(s, q)
  {
    if NextOp(s, i).DecGroup? {
      var g := NextOp(s, i).g;
      if q < |s.requests| && q in s.groups[g].fragments && s.groups[g].refs == 1 {
        assert s.requests[q].hold == InGroup(g);
      }
    }
  }

  lemma StepOnHold(s: State, a: Action, q: nat)
    requires FragmentsInv(s.requests, s.groups)
    ensures WaitsThere(Step(s, a), q) <==>
              if Enabled(s, a) && a == HandOver(q) then true
              else if Enabled(s, a) && (a == ReassemblyFrees(q) || (a.Assemble? && q in a.fragments)) then false
              else WaitsThere(s, q)
  {
    if Enabled(s, a) && a.Advance? {
      AdvanceOnHold(s, a.i, q);
    }
  }

  lemma {:induction false} HoldRemembers(acts: seq<Action>, q: nat)
    ensures WaitsThere(Run(INIT, acts), q) <==> WithReassembly(acts, q)
  {
    if acts != [] {
      HoldRemembers(acts[..|acts| - 1], q);
      RunKeepsInv(acts[..|acts| - 1]);
      StepOnHold(Run(INIT, acts[..|acts| - 1]), acts[|acts| - 1], q);
    }
  }

  // ---- A send, left alone

  /** `n` steps of thread `i`. */
  function Steps(s: State, i: nat, n: nat): State {
    if n == 0 then s else Step(Steps(s, i, n - 1), Advance(i))
  }

  /** What thread `i` does next, with `rest` to follow. */
  predicate IsAt(s: State, i: nat, o: Op, rest: Thread) {
    i < |s.threads| && s.threads[i] == [o] + rest
  }

  lemma ContinueAt(s: State, i: nat, o: Op, rest: Thread, more: Thread)
    requires IsAt(s, i, o, rest)
    ensures Continue(s.threads, i, more) == s.threads[i := more + rest]
  {
    assert ([o] + rest)[1..] == rest;
  }

  lemma LookStep(s: State, i: nat, p: nat, rest: Thread)
    requires IsAt(s, i, LookAdapter(p), rest) && p < |s.packets| && s.packets[p].adapter.On?
    ensures Step(s, Advance(i)) == s.(threads := s.threads[i := [TakePacket(p, s.packets[p].adapter.a)] + rest])
  {
    ContinueAt(s, i, LookAdapter(p), rest, [TakePacket(p, s.packets[p].adapter.a)]);
  }

  lemma LookInVain(s: State, i: nat, p: nat, rest: Thread)
    requires IsAt(s, i, LookAdapter(p), rest) && p < |s.packets| && s.packets[p].adapter == Detached
    ensures Step(s, Advance(i)) == s.(threads := s.threads[i := rest])
  {
    ContinueAt(s, i, LookAdapter(p), rest, []);
    assert [] + rest == rest;
  }

  lemma TakeStep(s: State, i: nat, p: nat, a: nat, rest: Thread)
    requires IsAt(s, i, TakePacket(p, a), rest) && p < |s.packets| && a < |s.open|
    ensures Step(s, Advance(i)) == s.(packets := s.packets[p := s.packets[p].(refs := s.packets[p].refs + 1)],
                                      threads := s.threads[i := [CallNdis(p, a)] + rest])
  {
    ContinueAt(s, i, TakePacket(p, a), rest, [CallNdis(p, a)]);
  }

  lemma CallStep(s: State, i: nat, p: nat, a: nat, rest: Thread)
    requires IsAt(s, i, CallNdis(p, a), rest) && p < |s.packets| && a < |s.open|
    ensures Step(s, Advance(i)) == s.(packets := s.packets[p := s.packets[p].(sends := s.packets[p].sends + 1)],
                                      threads := s.threads[i := rest])
  {
    ContinueAt(s, i, CallNdis(p, a), rest, []);
    assert [] + rest == rest;
  }

  /** `SendPacket`, left alone: a packet on an open adapter goes to NDIS with a reference of its own. */
  lemma AttachedIsSent(s: State, i: nat, p: nat, rest: Thread)
    requires IsAt(s, i, LookAdapter(p), rest) && p < |s.packets|
    requires s.packets[p].adapter.On? && s.packets[p].adapter.a < |s.open|
    ensures Steps(s, i, 3) == Sent(s, i, p, rest)
  {
    var a := s.packets[p].adapter.a;
    LookStep(s, i, p, rest);
    var s1 := Steps(s, i, 1);
    assert Steps(s, i, 0) == s && s1 == Step(s, Advance(i));
    TakeStep(s1, i, p, a, rest);
    var s2 := Steps(s, i, 2);
    assert s2 == Step(s1, Advance(i));
    CallStep(s2, i, p, a, rest);
    assert Steps(s, i, 3) == Step(s2, Advance(i));
    assert Steps(s, i, 3).packets == Sent(s, i, p, rest).packets;
    assert Steps(s, i, 3).threads == Sent(s, i, p, rest).threads;
  }

  function Sent(s: State, i: nat, p: nat, rest: Thread): State
    requires i < |s.threads| && p < |s.packets|
  {
    var k := s.packets[p];
    s.(packets := s.packets[p := k.(refs := k.refs + 1, sends := k.sends + 1)], threads := s.threads[i := rest])
  }

  /** Without an adapter nothing is sent. */
  lemma DetachedIsNotSent(s: State, i: nat, p: nat, rest: Thread)
    requires IsAt(s, i, LookAdapter(p), rest) && p < |s.packets| && s.packets[p].adapter == Detached
    ensures Steps(s, i, 1) == s.(threads := s.threads[i := rest])
  {
    LookInVain(s, i, p, rest);
    assert Steps(s, i, 0) == s;
  }

  /** What a send of packet `p` comes to, left alone: it goes to NDIS, with a reference of its own, exactly when it has an
      adapter. */
  function Attempted(s: State, p: nat): State
    requires p < |s.packets|
  {
    var k := s.packets[p];
    if k.adapter.On? then s.(packets := s.packets[p := k.(refs := k.refs + 1, sends := k.sends + 1)]) else s
  }

  function StepsToSend(k: Packet): nat { if k.adapter.On? then 3 else 1 }

  /** Whoever sent it then goes on to `back`. */
  lemma SendFrom(s: State, s1: State, p: nat, back: Op)
    requires p < |s.packets| && (s.packets[p].adapter.On? ==> s.packets[p].adapter.a < |s.open|)
    requires |s1.packets| == |s.packets| && s1.packets[p].adapter == s.packets[p].adapter && |s1.open| == |s.open|
    requires s1.threads == s.threads + [[LookAdapter(p), back]]
    ensures var s2 := Steps(s1, |s.threads|, StepsToSend(s.packets[p]));
            s2 == Attempted(s1, p).(threads := s.threads + [[back]])
  {
    var i := |s.threads|;
    assert s1.threads[i] == [LookAdapter(p)] + [back];
    assert s1.threads[i := [back]] == s.threads + [[back]];
    if s.packets[p].adapter.On? {
      AttachedIsSent(s1, i, p, [back]);
    } else {
      DetachedIsNotSent(s1, i, p, [back]);
    }
  }

  /** A client that sends a packet it has in hand has it in hand again afterwards. */
  lemma SendAlone(s: State, p: nat)
    requires Inv(s) && HeldPacket(s, p)
    ensures Steps(Step(s, Send(p)), |s.threads|, StepsToSend(s.packets[p]) + 1)
         == Attempted(s, p).(threads := s.threads + [[]])
  {
    var i, s1, n := |s.threads|, Step(s, Send(p)), StepsToSend(s.packets[p]);
    PacketIsKnownToAdapter(s, p);
    SendFrom(s, s1, p, ReturnPacket(p));
    ReturnPacketStep(Steps(s1, i, n), s.threads, p);
    assert Steps(s1, i, n + 1).packets == Attempted(s, p).packets;
  }

  lemma ReturnPacketStep(s: State, before: seq<Thread>, p: nat)
    requires s.threads == before + [[ReturnPacket(p)]] && p < |s.packets|
    ensures Step(s, Advance(|before|))
         == s.(packets := s.packets[p := s.packets[p].(handles := s.packets[p].handles + 1)], threads := before + [[]])
  {
    var i := |before|;
    var nothing: Thread := [];
    assert s.threads[i] == [ReturnPacket(p)] + nothing;
    ContinueAt(s, i, ReturnPacket(p), nothing, nothing);
    assert nothing + nothing == nothing;
    assert s.threads[i := nothing] == before + [nothing];
  }

  lemma ReturnRequestStep(s: State, before: seq<Thread>, q: nat)
    requires s.threads == before + [[ReturnRequest(q)]] && q < |s.requests|
    ensures Step(s, Advance(|before|))
         == s.(requests := s.requests[q := s.requests[q].(handles := s.requests[q].handles + 1)], threads := before + [[]])
  {
    var i := |before|;
    var nothing: Thread := [];
    assert s.threads[i] == [ReturnRequest(q)] + nothing;
    ContinueAt(s, i, ReturnRequest(q), nothing, nothing);
    assert nothing + nothing == nothing;
    assert s.threads[i := nothing] == before + [nothing];
  }

  lemma PacketIsKnownToAdapter(s: State, p: nat)
    requires Inv(s) && HeldPacket(s, p)
    ensures s.packets[p].adapter.On? ==> s.packets[p].adapter.a < |s.open|
  {
    assert PacketFits(s, p);
  }

  /** The same for the packet of a firewall request. */
  lemma SendItsPacketAlone(s: State, q: nat)
    requires Inv(s) && HeldRequest(s, q)
    ensures var p := s.requests[q].packet;
            Steps(Step(s, SendItsPacket(q)), |s.threads|, StepsToSend(s.packets[p]) + 1)
            == Attempted(s, p).(threads := s.threads + [[]])
  {
    var p, i, s1 := s.requests[q].packet, |s.threads|, Step(s, SendItsPacket(q));
    var n := StepsToSend(s.packets[p]);
    RequestPacketIsKnown(s, q);
    SendFrom(s, s1, p, ReturnRequest(q));
    ReturnRequestStep(Steps(s1, i, n), s.threads, q);
    assert Steps(s1, i, n + 1).requests == s.requests;
  }

  lemma RequestPacketIsKnown(s: State, q: nat)
    requires Inv(s) && HeldRequest(s, q)
    ensures var k := s.packets[s.requests[q].packet]; k.adapter.On? ==> k.adapter.a < |s.open|
  {
    assert RequestFits(s, q);
    HeldRequestIsLive(s, q);
    RequestIsLive(s, q);
    assert PacketFits(s, s.requests[q].packet);
  }

  /** Injecting a reassembled request sends the packet of every one of its fragments, in order. */
  lemma EachFragmentIsSent(s: State, g: nat)
    requires HeldGroup(s, g)
    ensures var t := Step(s, SendFragments(g)).threads[|s.threads|];
            && |t| == |s.groups[g].fragments| + 1 && t[|t| - 1] == ReturnGroup(g)
            && forall k :: 0 <= k < |s.groups[g].fragments| ==>
                 t[k] == LookAdapter(s.requests[s.groups[g].fragments[k]].packet)
  {
  }
}
