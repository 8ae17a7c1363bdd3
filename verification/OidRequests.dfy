/** OID requests and power states of an adapter. NDIS issues one request at a time to the miniport edge, while power
    events, the lower miniport's completions and the unbind run on threads of their own; each takes what it needs in its
    locked region and then completes the request without looking back. */
module OidRequests {
  import opened Lists

  /** `NDIS_DEVICE_POWER_STATE`: 1 is D0, larger is lower power. */
  type Power = nat
  const D0: Power := 1

  datatype Kind =
    | Local                              // answered without forwarding
    | Query(capabilities: bool)          // `capabilities`: the OID is OID_PNP_CAPABILITIES
    | Set
    | SetPower(valid: bool, target: Power)

  /** Where a thread stands. */
  datatype Thread =
    // a request handler
    | Entered(kind: Kind)
    | NotUnbinding(kind: Kind)           // first look at UnbindingInProcess passed
    | Deciding(kind: Kind)               // the miniport is at D0, pAdapt->Request is filled in
    | PowerDecided(target: Power)        // set-power: StandingBy written, state not yet
    | Returning                          // about to return a final status
    // a request handler or a power event
    | Forwarding(kind: Kind, handler: bool)  // marked outstanding, about to call NdisRequest
    // the lower miniport
    | Below(kind: Kind)
    // whoever is in PtRequestComplete
    | Completing(kind: Kind, success: bool, forwarded: bool)
    | Filling                            // MPQueryPNPCapabilities
    | Notifying                          // about to call NdisM...InformationComplete
    // a power event of the protocol edge
    | Begun(previous: Power, target: Power)
    | Waiting
    | ReadyToDrain
    // PtUnbindAdapter
    | Unbinding
    | Finished

  /** The flags and states of the adapter, `request` for pAdapt->Request, the requests issued so far, the log of
      completions NDIS has seen, and the threads. */
  datatype State = State(
    queuedRequest: bool, outstandingRequests: bool, standingBy: bool, unbinding: bool,
    mpState: Power, ptState: Power, request: Kind,
    issued: nat, completed: seq<int>, threads: seq<Thread>)

  const INIT := State(false, false, false, false, D0, D0, Local, 0, [], [])

  /** `pends` says whether the lower miniport pends the request, `ok` whether what it does succeeds. */
  datatype Action =
    | Issue(kind: Kind)
    | PowerEvent(target: Power)          // reads PTDeviceState
    | Unbind
    | Advance(i: nat, pends: bool, ok: bool)

  function Go(s: State, i: nat, t: Thread): State
    requires i < |s.threads|
  {
    s.(threads := s.threads[i := t])
  }

  /** A step of thread `i` that leaves the others, and what NDIS has issued, alone. */
  predicate OnlyThread(s: State, s': State, i: nat)
    requires i < |s.threads|
  {
    |s'.threads| == |s.threads| && s'.threads == s.threads[i := s'.threads[i]] && s'.issued == s.issued
  }

  /** A step of thread `i` that leaves the state of the lower edge alone and marks no request; the thread does not wait. */
  predicate EdgeAlone(s: State, s': State, i: nat) {
    && |s'.threads| > i && s'.threads[i] != Waiting
    && s'.ptState == s.ptState && (s'.outstandingRequests ==> s.outstandingRequests)
  }

  /** The first tests of a handler; all of a set-power but its last write. */
  function Enter(s: State, i: nat, k: Kind): (s': State)
    requires i < |s.threads|
    ensures OnlyThread(s, s', i) && EdgeAlone(s, s', i)
  {
    if k.Local? then Go(s, i, Returning)
    else if k.SetPower? then PowerStep(s, i, k)
    else if s.unbinding then Go(s, i, Returning)
    else Go(s, i, NotUnbinding(k))
  }

  /** `MPProcessSetPowerOid` up to the update of StandingBy. */
  function PowerStep(s: State, i: nat, k: Kind): (s': State)
    requires i < |s.threads| && k.SetPower?
    ensures OnlyThread(s, s', i) && EdgeAlone(s, s', i)
  {
    if !k.valid || (s.mpState > D0 && k.target != D0) then Go(s, i, Returning)
    else if s.mpState == D0 && k.target > D0 then Go(s, i, PowerDecided(k.target)).(standingBy := true)
    else if s.mpState > D0 && k.target == D0 then Go(s, i, PowerDecided(k.target)).(standingBy := false)
    else Go(s, i, PowerDecided(k.target))
  }

  function LookPower(s: State, i: nat, k: Kind): (s': State)
    requires i < |s.threads|
    ensures OnlyThread(s, s', i) && EdgeAlone(s, s', i)
  {
    if s.mpState > D0 then Go(s, i, Returning) else Go(s, i, Deciding(k)).(request := k)
  }

  /** The locked decision of `MPQueryInformation` and `MPSetInformation`. A queued request is left to others: the handler
      returns that it is pending. */
  function Decide(s: State, i: nat, k: Kind): (s': State)
    requires i < |s.threads|
    ensures OnlyThread(s, s', i)
    ensures s.ptState > D0 ==> EdgeAlone(s, s', i)
  {
    if s.unbinding then Go(s, i, Returning)
    else if s.ptState > D0 && !s.standingBy then Go(s, i, Finished).(queuedRequest := true)
    else if s.standingBy then Go(s, i, Returning)
    else Go(s, i, Forwarding(k, true)).(outstandingRequests := true)
  }

  /** `NdisRequest`. A request the lower miniport pends is completed from there; a set forwarded by its own handler and
      finished at once is completed by the handler's return; every other one through `PtRequestComplete`. */
  function Forward(s: State, i: nat, k: Kind, handler: bool, pends: bool, ok: bool): (s': State)
    requires i < |s.threads|
    ensures !pends ==> OnlyThread(s, s', i)
    ensures EdgeAlone(s, s', i)
  {
    if pends then
      Go(s, i, Finished).(threads := s.threads[i := Finished] + [Below(k)])
    else if handler && k.Set? then Go(s, i, Returning).(outstandingRequests := false)
    else Go(s, i, Completing(k, ok, true))
  }

  /** The head of `PtRequestComplete`. */
  function CompleteHead(s: State, i: nat, k: Kind, success: bool): (s': State)
    requires i < |s.threads|
    ensures OnlyThread(s, s', i) && EdgeAlone(s, s', i)
  {
    Go(s, i, if success && k.Query? && k.capabilities then Filling else Notifying).(outstandingRequests := false)
  }

  /** `MPQueryPNPCapabilities`; `fits` when the buffer is large enough. */
  function Fill(s: State, i: nat, fits: bool): (s': State)
    requires i < |s.threads|
    ensures OnlyThread(s, s', i)
  {
    if fits then Go(s, i, Notifying).(mpState := D0, ptState := D0) else Go(s, i, Notifying)
  }

  /** NDIS is told that its current request is complete. */
  function Notify(s: State, i: nat): (s': State)
    requires i < |s.threads|
    ensures OnlyThread(s, s', i) && EdgeAlone(s, s', i)
  {
    Go(s, i, Finished).(completed := s.completed + [s.issued - 1])
  }

  /** The first locked region of `PtPnPNetEventSetPower`. */
  function ChangePower(s: State, i: nat, previous: Power, target: Power): (s': State)
    requires i < |s.threads|
    ensures OnlyThread(s, s', i)
  {
    if target > D0 then
      Go(s, i, Waiting).(ptState := target, standingBy := s.standingBy || previous == D0)
    else
      var s' := s.(ptState := target, standingBy := s.standingBy && previous <= D0);
      if s.queuedRequest then
        Go(s', i, Forwarding(s.request, false)).(queuedRequest := false, outstandingRequests := true)
      else Go(s', i, Finished)
  }

  /** A locked region that takes the queued request, if there is one, to fail it. */
  function Drain(s: State, i: nat): (s': State)
    requires i < |s.threads|
    ensures OnlyThread(s, s', i) && EdgeAlone(s, s', i)
  {
    if s.queuedRequest then Go(s, i, Completing(s.request, false, false)).(queuedRequest := false)
    else Go(s, i, Finished)
  }

  function Do(s: State, i: nat, pends: bool, ok: bool): State
    requires i < |s.threads|
  {
    match s.threads[i]
    case Entered(k) => Enter(s, i, k)
    case NotUnbinding(k) => LookPower(s, i, k)
    case Deciding(k) => Decide(s, i, k)
    case PowerDecided(target) => Go(s, i, Returning).(mpState := target)
    case Returning => Notify(s, i)
    case Forwarding(k, handler) => Forward(s, i, k, handler, pends, ok)
    case Below(k) => Go(s, i, Completing(k, ok, true))
    case Completing(k, success, _) => CompleteHead(s, i, k, success)
    case Filling => Fill(s, i, ok)
    case Notifying => Notify(s, i)
    case Begun(previous, target) => ChangePower(s, i, previous, target)
    case Waiting => if s.outstandingRequests then s else Go(s, i, ReadyToDrain)
    case ReadyToDrain => Drain(s, i)
    case Unbinding => Drain(s, i).(unbinding := true)
    case Finished => s
  }

  /** NDIS issues its next request only when it has seen the last one completed. */
  predicate Enabled(s: State, a: Action) {
    match a
    case Issue(_) => s.issued == 0 || s.issued - 1 in s.completed
    case PowerEvent(_) => true
    case Unbind => true
    case Advance(i, _, _) => i < |s.threads|
  }

  function Spawn(s: State, t: Thread): State { s.(threads := s.threads + [t]) }

  function Step(s: State, a: Action): State {
    if !Enabled(s, a) then s
    else
      match a
      case Issue(kind) => Spawn(s, Entered(kind)).(issued := s.issued + 1)
      case PowerEvent(target) => Spawn(s, Begun(s.ptState, target))
      case Unbind => Spawn(s, Unbinding)
      case Advance(i, pends, ok) => Do(s, i, pends, ok)
  }

  function Run(s: State, acts: seq<Action>): State {
    if acts == [] then s else Step(Run(s, acts[..|acts| - 1]), acts[|acts| - 1])
  }

  // ---- Who has the request

  /** `Owed`: the thread will complete the request it has in hand; `Marked`: it has marked a request outstanding;
      `Ahead`: how much of the request's way is still ahead of it. */
  datatype Measure = Owed | Marked | Ahead

  function Value(t: Thread, m: Measure): nat {
    match m
    case Owed => One(WillComplete(t))
    case Marked => One(t.Forwarding? || t.Below? || (t.Completing? && t.forwarded))
    case Ahead => AheadOf(t)
  }

  predicate WillComplete(t: Thread) {
    || t.Entered? || t.NotUnbinding? || t.Deciding? || t.PowerDecided? || t.Returning? || t.Forwarding?
    || t.Below? || t.Completing? || t.Filling? || t.Notifying?
  }

  const QUEUED_AHEAD := 6

  function AheadOf(t: Thread): nat {
    match t
    case Entered(_) => 9
    case NotUnbinding(_) => 8
    case Deciding(_) => 7
    case Forwarding(_, _) => 5
    case Below(_) => 4
    case Completing(_, _, _) => 3
    case Filling => 2
    case PowerDecided(_) => 2
    case Notifying => 1
    case Returning => 1
    case _ => 0
  }

  function Sum(threads: seq<Thread>, m: Measure): nat {
    if threads == [] then 0 else Sum(threads[..|threads| - 1], m) + Value(threads[|threads| - 1], m)
  }

  lemma {:induction false} SumUpdate(threads: seq<Thread>, i: nat, t: Thread, m: Measure)
    requires i < |threads|
    ensures Sum(threads[i := t], m) == Sum(threads, m) - Value(threads[i], m) + Value(t, m)
  {
    var n := |threads| - 1;
    var updated := threads[i := t];
    if i < n {
      SumUpdate(threads[..n], i, t, m);
      assert updated[..n] == threads[..n][i := t];
    } else {
      assert updated[..n] == threads[..n];
    }
  }

  lemma SumAppend(threads: seq<Thread>, t: Thread, m: Measure)
    ensures Sum(threads + [t], m) == Sum(threads, m) + Value(t, m)
  {
    assert (threads + [t])[..|threads|] == threads;
  }

  /** A thread that has marked the request will complete it. */
  lemma {:induction false} MarkedIsOwed(threads: seq<Thread>, i: nat)
    ensures Sum(threads, Marked) <= Sum(threads, Owed)
    ensures i < |threads| ==>
              Sum(threads, Owed) - Sum(threads, Marked) >= Value(threads[i], Owed) - Value(threads[i], Marked)
    ensures i < |threads| ==> Sum(threads, Owed) >= Value(threads[i], Owed) && Sum(threads, Marked) >= Value(threads[i], Marked)
  {
    if threads != [] {
      MarkedIsOwed(threads[..|threads| - 1], i);
    }
  }

  // ---- The invariant

  /** Exactly one thread, or the queue, has the request NDIS is waiting for; the requests before it have been completed,
      once each, in order. */
  ghost predicate TokenInv(s: State) {
    && Sum(s.threads, Owed) + One(s.queuedRequest) + |s.completed| == s.issued
    && |s.completed| + 1 >= s.issued
    && forall id :: 0 <= id < |s.completed| ==> s.completed[id] == id
  }

  /** A request is outstanding exactly while a thread that marked it has it; what is queued waits for power, and for no
      unbind. */
  ghost predicate FlagsInv(s: State) {
    && (s.outstandingRequests <==> Sum(s.threads, Marked) > 0)
    && (s.queuedRequest ==> s.ptState > D0 && !s.unbinding)
  }

  ghost predicate Inv(s: State) { TokenInv(s) && FlagsInv(s) }

  /** Thread `i` goes from what it had to `t`, and the flags follow. */
  lemma GoKeepsInv(s: State, s': State, i: nat, t: Thread)
    requires Inv(s) && i < |s.threads| && s'.threads == s.threads[i := t] && s'.issued == s.issued
    requires |s'.completed| + Value(t, Owed) + One(s'.queuedRequest)
             == |s.completed| + Value(s.threads[i], Owed) + One(s.queuedRequest)
    requires s'.completed == s.completed || (s'.completed == s.completed + [s.issued - 1] && WillComplete(s.threads[i]))
    requires s'.outstandingRequests == s.outstandingRequests
             || (s'.outstandingRequests && Value(t, Marked) == 1 && Value(s.threads[i], Marked) == 0)
             || (!s'.outstandingRequests && Value(t, Marked) == 0 && WillComplete(s.threads[i]))
    requires s'.outstandingRequests == s.outstandingRequests ==> Value(t, Marked) == Value(s.threads[i], Marked)
    requires s'.queuedRequest ==> s'.ptState > D0 && !s'.unbinding
    ensures Inv(s')
  {
    SumUpdate(s.threads, i, t, Owed);
    SumUpdate(s.threads, i, t, Marked);
    MarkedIsOwed(s.threads, i);
  }

  /** A thread that has the request has it alone. */
  lemma HasItAlone(s: State, i: nat)
    requires TokenInv(s) && i < |s.threads| && WillComplete(s.threads[i])
    ensures !s.queuedRequest && Sum(s.threads, Owed) == 1 && |s.completed| + 1 == s.issued
    ensures Sum(s.threads, Marked) == Value(s.threads[i], Marked)
  {
    MarkedIsOwed(s.threads, i);
  }

  lemma HandlerKeepsInv(s: State, i: nat)
    requires Inv(s) && i < |s.threads|
    requires s.threads[i].Entered? || s.threads[i].NotUnbinding? || s.threads[i].PowerDecided?
    ensures Inv(Do(s, i, false, false))
  {
    var s' := Do(s, i, false, false);
    HasItAlone(s, i);
    GoKeepsInv(s, s', i, s'.threads[i]);
  }

  lemma DecideKeepsInv(s: State, i: nat, k: Kind)
    requires Inv(s) && i < |s.threads| && s.threads[i] == Deciding(k)
    ensures Inv(Decide(s, i, k))
  {
    var s' := Decide(s, i, k);
    HasItAlone(s, i);
    GoKeepsInv(s, s', i, s'.threads[i]);
  }

  lemma PendKeepsInv(s: State, i: nat, k: Kind)
    requires Inv(s) && i < |s.threads| && s.threads[i].Forwarding?
    ensures Inv(Forward(s, i, k, s.threads[i].handler, true, false))
  {
    var threads := s.threads[i := Finished];
    SumUpdate(s.threads, i, Finished, Owed);
    SumUpdate(s.threads, i, Finished, Marked);
    SumAppend(threads, Below(k), Owed);
    SumAppend(threads, Below(k), Marked);
  }

  lemma ForwardKeepsInv(s: State, i: nat, k: Kind, handler: bool, pends: bool, ok: bool)
    requires Inv(s) && i < |s.threads| && s.threads[i] == Forwarding(k, handler)
    ensures Inv(Forward(s, i, k, handler, pends, ok))
  {
    var s' := Forward(s, i, k, handler, pends, ok);
    if pends {
      PendKeepsInv(s, i, k);
    } else {
      HasItAlone(s, i);
      GoKeepsInv(s, s', i, s'.threads[i]);
    }
  }

  lemma CompletionKeepsInv(s: State, i: nat, ok: bool)
    requires Inv(s) && i < |s.threads|
    requires s.threads[i].Below? || s.threads[i].Completing? || s.threads[i].Filling?
    ensures Inv(Do(s, i, false, ok))
  {
    var s' := Do(s, i, false, ok);
    HasItAlone(s, i);
    GoKeepsInv(s, s', i, s'.threads[i]);
  }

  lemma NotifyKeepsInv(s: State, i: nat)
    requires Inv(s) && i < |s.threads| && (s.threads[i] == Notifying || s.threads[i] == Returning)
    ensures Inv(Notify(s, i))
  {
    HasItAlone(s, i);
    GoKeepsInv(s, Notify(s, i), i, Finished);
  }

  /** While a request is queued nothing is outstanding. */
  lemma QueuedIsNotOutstanding(s: State)
    requires Inv(s) && s.queuedRequest
    ensures !s.outstandingRequests && Sum(s.threads, Owed) == 0
  {
    MarkedIsOwed(s.threads, 0);
  }

  lemma ChangePowerKeepsInv(s: State, i: nat, previous: Power, target: Power)
    requires Inv(s) && i < |s.threads| && s.threads[i] == Begun(previous, target)
    ensures Inv(ChangePower(s, i, previous, target))
  {
    var s' := ChangePower(s, i, previous, target);
    if s.queuedRequest {
      QueuedIsNotOutstanding(s);
    }
    GoKeepsInv(s, s', i, s'.threads[i]);
  }

  lemma DrainKeepsInv(s: State, i: nat)
    requires Inv(s) && i < |s.threads| && (s.threads[i] == ReadyToDrain || s.threads[i] == Unbinding)
    ensures Inv(Drain(s, i)) && !Drain(s, i).queuedRequest
  {
    GoKeepsInv(s, Drain(s, i), i, Drain(s, i).threads[i]);
  }

  lemma WaitKeepsInv(s: State, i: nat)
    requires Inv(s) && i < |s.threads| && s.threads[i] == Waiting
    ensures Inv(Do(s, i, false, false))
  {
    if !s.outstandingRequests {
      GoKeepsInv(s, Go(s, i, ReadyToDrain), i, ReadyToDrain);
    }
  }

  lemma DoKeepsInv(s: State, i: nat, pends: bool, ok: bool)
    requires Inv(s) && i < |s.threads|
    ensures Inv(Do(s, i, pends, ok))
  {
    match s.threads[i]
    case Deciding(k) => DecideKeepsInv(s, i, k);
    case Forwarding(k, handler) => ForwardKeepsInv(s, i, k, handler, pends, ok);
    case Below(_) => CompletionKeepsInv(s, i, ok);
    case Completing(_, _, _) => CompletionKeepsInv(s, i, ok);
    case Filling => CompletionKeepsInv(s, i, ok);
    case Notifying => NotifyKeepsInv(s, i);
    case Returning => NotifyKeepsInv(s, i);
    case Entered(_) => HandlerKeepsInv(s, i);
    case NotUnbinding(_) => HandlerKeepsInv(s, i);
    case PowerDecided(_) => HandlerKeepsInv(s, i);
    case _ => EventKeepsInv(s, i, pends, ok);
  }

  /** A power event, or the unbind. */
  lemma EventKeepsInv(s: State, i: nat, pends: bool, ok: bool)
    requires Inv(s) && i < |s.threads| && !WillComplete(s.threads[i])
    ensures Inv(Do(s, i, pends, ok))
  {
    match s.threads[i]
    case Begun(previous, target) => ChangePowerKeepsInv(s, i, previous, target);
    case Waiting => WaitKeepsInv(s, i);
    case ReadyToDrain => DrainKeepsInv(s, i);
    case Unbinding => DrainKeepsInv(s, i);
    case Finished =>
  }

  lemma SpawnKeepsInv(s: State, t: Thread)
    requires Inv(s) && Value(t, Owed) == 0 && Value(t, Marked) == 0
    ensures Inv(Spawn(s, t))
  {
    SumAppend(s.threads, t, Owed);
    SumAppend(s.threads, t, Marked);
  }

  lemma IssueKeepsInv(s: State, kind: Kind)
    requires Inv(s) && Enabled(s, Issue(kind))
    ensures Inv(Step(s, Issue(kind)))
  {
    SumAppend(s.threads, Entered(kind), Owed);
    SumAppend(s.threads, Entered(kind), Marked);
    IssueMeansIdle(s, kind);
  }

  lemma IssueMeansIdle(s: State, kind: Kind)
    requires TokenInv(s) && Enabled(s, Issue(kind))
    ensures |s.completed| == s.issued && Sum(s.threads, Owed) == 0 && !s.queuedRequest
  {
    if s.issued > 0 {
      var id :| 0 <= id < |s.completed| && s.completed[id] == s.issued - 1;
    }
  }

  lemma StepKeepsInv(s: State, a: Action)
    requires Inv(s)
    ensures Inv(Step(s, a))
  {
    if Enabled(s, a) {
      match a
      case Issue(kind) => IssueKeepsInv(s, kind);
      case PowerEvent(target) => SpawnKeepsInv(s, Begun(s.ptState, target));
      case Unbind => SpawnKeepsInv(s, Unbinding);
      case Advance(i, pends, ok) => DoKeepsInv(s, i, pends, ok);
    }
  }

  lemma {:induction false} RunKeepsInv(s: State, acts: seq<Action>)
    requires Inv(s)
    ensures Inv(Run(s, acts))
  {
    if acts != [] {
      RunKeepsInv(s, acts[..|acts| - 1]);
      StepKeepsInv(Run(s, acts[..|acts| - 1]), acts[|acts| - 1]);
    }
  }

  // ---- What the protocol promises

  /** NDIS is waiting for the request issued last. */
  predicate Busy(s: State) { |s.completed| < s.issued }

  lemma {:induction false} CountInOrder(completed: seq<int>, id: nat)
    requires forall k :: 0 <= k < |completed| ==> completed[k] == k
    ensures multiset(completed)[id] == One(id < |completed|)
  {
    if completed != [] {
      var n := |completed| - 1;
      CountInOrder(completed[..n], id);
      assert completed == completed[..n] + [completed[n]];
    }
  }

  /** Over every interleaving of handlers, lower completions, power events and unbinds: each request issued is completed
      exactly once, the one NDIS is waiting for excepted; and a queued request waits for the lower edge to power up, with
      nothing outstanding. */
  lemma CompletedExactlyOnce(acts: seq<Action>)
    ensures var s := Run(INIT, acts);
            && (forall id :: 0 <= id < s.issued ==>
                  multiset(s.completed)[id] == if id == s.issued - 1 && Busy(s) then 0 else 1)
            && (forall id :: id in s.completed ==> 0 <= id < s.issued)
            && (s.queuedRequest ==> s.ptState > D0 && !s.outstandingRequests)
  {
    var s := Run(INIT, acts);
    RunKeepsInv(INIT, acts);
    if s.queuedRequest {
      QueuedIsNotOutstanding(s);
    }
    forall id | 0 <= id < s.issued
      ensures multiset(s.completed)[id] == if id == s.issued - 1 && Busy(s) then 0 else 1
    {
      CountInOrder(s.completed, id);
    }
  }

  /** Whoever has the request has it alone: two threads never both mean to complete it, and none does while it is
      queued. */
  lemma OneCompleter(acts: seq<Action>, i: nat, j: nat)
    requires var s := Run(INIT, acts); i < j < |s.threads| && WillComplete(s.threads[i])
    ensures !WillComplete(Run(INIT, acts).threads[j]) && !Run(INIT, acts).queuedRequest
  {
    var s := Run(INIT, acts);
    RunKeepsInv(INIT, acts);
    HasItAlone(s, i);
    SumUpdate(s.threads, i, Finished, Owed);
    MarkedIsOwed(s.threads[i := Finished], j);
  }

  /** The assertion at the head of the completion routine, that a request is outstanding, holds exactly when the request
      was forwarded, and fails whenever the routine is called to fail a queued one. */
  lemma AssertedOutstandingIff(acts: seq<Action>, i: nat)
    requires var s := Run(INIT, acts); i < |s.threads| && s.threads[i].Completing?
    ensures Run(INIT, acts).outstandingRequests <==> Run(INIT, acts).threads[i].forwarded
  {
    RunKeepsInv(INIT, acts);
    HasItAlone(Run(INIT, acts), i);
  }

  // ---- After the unbind

  lemma {:induction false} UnbindStops(s: State, a: Action)
    requires Inv(s) && s.unbinding
    ensures var s' := Step(s, a);
            && s'.unbinding && !s'.queuedRequest
            && Sum(s'.threads, Marked) <= Sum(s.threads, Marked)
            && s'.issued >= s.issued && (Sum(s'.threads, Marked) > 0 ==> s'.issued == s.issued)
  {
    if Enabled(s, a) {
      match a
      case Issue(kind) =>
        IssueMeansIdle(s, kind);
        SumAppend(s.threads, Entered(kind), Marked);
        MarkedIsOwed(s.threads, 0);
      case PowerEvent(target) => SumAppend(s.threads, Begun(s.ptState, target), Marked);
      case Unbind => SumAppend(s.threads, Unbinding, Marked);
      case Advance(i, pends, ok) => UnbindStopsThreads(s, i, pends, ok);
    }
  }

  /** A step of thread `i` is a step of that thread only, unless the lower miniport pends a request. */
  lemma MovesAlone(s: State, i: nat, pends: bool, ok: bool)
    requires i < |s.threads| && !(s.threads[i].Forwarding? && pends)
    ensures OnlyThread(s, Do(s, i, pends, ok), i)
  {
  }

  predicate Handling(t: Thread) {
    t.Entered? || t.NotUnbinding? || t.Deciding? || t.PowerDecided? || t.Returning?
  }

  /** After the unbind thread `i` queues nothing and marks nothing. */
  ghost predicate StoppedBy(s: State, i: nat, pends: bool, ok: bool)
    requires i < |s.threads|
  {
    var s' := Do(s, i, pends, ok);
    && s'.unbinding && !s'.queuedRequest && s'.issued == s.issued && |s'.threads| > i
    && (!(s.threads[i].Forwarding? && pends) ==> Value(s'.threads[i], Marked) <= Value(s.threads[i], Marked))
  }

  lemma EnteredStops(s: State, i: nat, pends: bool, ok: bool)
    requires Inv(s) && s.unbinding && i < |s.threads| && s.threads[i].Entered?
    ensures StoppedBy(s, i, pends, ok)
  {
  }

  lemma HandlersStop(s: State, i: nat, pends: bool, ok: bool)
    requires Inv(s) && s.unbinding && i < |s.threads| && Handling(s.threads[i]) && !s.threads[i].Entered?
    ensures StoppedBy(s, i, pends, ok)
  {
  }

  lemma CompletersStop(s: State, i: nat, pends: bool, ok: bool)
    requires Inv(s) && s.unbinding && i < |s.threads| && WillComplete(s.threads[i]) && !Handling(s.threads[i])
    ensures StoppedBy(s, i, pends, ok)
  {
  }

  lemma EventsStop(s: State, i: nat, pends: bool, ok: bool)
    requires Inv(s) && s.unbinding && i < |s.threads| && !WillComplete(s.threads[i])
    ensures StoppedBy(s, i, pends, ok)
  {
  }

  lemma UnbindStopsThreads(s: State, i: nat, pends: bool, ok: bool)
    requires Inv(s) && s.unbinding && i < |s.threads|
    ensures var s' := Do(s, i, pends, ok);
            && s'.unbinding && !s'.queuedRequest && s'.issued == s.issued
            && Sum(s'.threads, Marked) <= Sum(s.threads, Marked)
  {
    if s.threads[i].Entered? {
      EnteredStops(s, i, pends, ok);
    } else if Handling(s.threads[i]) {
      HandlersStop(s, i, pends, ok);
    } else if WillComplete(s.threads[i]) {
      CompletersStop(s, i, pends, ok);
    } else {
      EventsStop(s, i, pends, ok);
    }
    if s.threads[i].Forwarding? && pends {
      SumUpdate(s.threads, i, Finished, Marked);
      SumAppend(s.threads[i := Finished], Below(s.threads[i].kind), Marked);
    } else {
      MovesAlone(s, i, pends, ok);
      SumUpdate(s.threads, i, Do(s, i, pends, ok).threads[i], Marked);
    }
  }

  /** Once the unbind has been announced it stays announced, and from then on no request is queued and none is marked
      outstanding that was not before. */
  lemma {:induction false} NothingStartsAfterUnbind(s: State, acts: seq<Action>)
    requires Inv(s) && s.unbinding
    ensures var s' := Run(s, acts);
            && s'.unbinding && !s'.queuedRequest
            && Sum(s'.threads, Marked) <= Sum(s.threads, Marked) && s'.issued >= s.issued
            && (s'.outstandingRequests ==> s.outstandingRequests && s'.issued == s.issued)
  {
    if acts != [] {
      var front := acts[..|acts| - 1];
      NothingStartsAfterUnbind(s, front);
      RunKeepsInv(s, front);
      UnbindStops(Run(s, front), acts[|acts| - 1]);
      StepKeepsInv(Run(s, front), acts[|acts| - 1]);
    }
  }

  // ---- Progress

  /** How much of the way to its completion the current request still has ahead. */
  function Distance(s: State): nat {
    Sum(s.threads, Ahead) + if s.queuedRequest then QUEUED_AHEAD else 0
  }

  /** Whoever has the request can take its next step, which brings the request closer to completion. */
  lemma CompleterMoves(s: State, i: nat, pends: bool, ok: bool)
    requires Inv(s) && i < |s.threads| && WillComplete(s.threads[i])
    ensures Distance(Do(s, i, pends, ok)) < Distance(s)
  {
    HasItAlone(s, i);
    ThreadDistance(s, i, pends, ok);
    if Handling(s.threads[i]) {
      HandlerGetsCloser(s, i, pends, ok);
    } else {
      CompleterGetsCloser(s, i, pends, ok);
    }
  }

  /** What a step of thread `i` does to the distance. */
  lemma ThreadDistance(s: State, i: nat, pends: bool, ok: bool)
    requires i < |s.threads|
    ensures var t, s' := s.threads[i], Do(s, i, pends, ok);
            |s'.threads| >= |s.threads| &&
            Sum(s'.threads, Ahead) == Sum(s.threads, Ahead) - AheadOf(t) + AheadOf(s'.threads[i])
                                      + if t.Forwarding? && pends then AheadOf(Below(t.kind)) else 0
  {
    var t, s' := s.threads[i], Do(s, i, pends, ok);
    if t.Forwarding? && pends {
      SumUpdate(s.threads, i, Finished, Ahead);
      SumAppend(s.threads[i := Finished], Below(t.kind), Ahead);
    } else {
      MovesAlone(s, i, pends, ok);
      SumUpdate(s.threads, i, s'.threads[i], Ahead);
    }
  }

  /** The way ahead after a step of thread `i`: its own, that of a request it has left below, and the queue's. */
  ghost function AheadAfter(s: State, i: nat, pends: bool, ok: bool): nat
    requires i < |s.threads| && |Do(s, i, pends, ok).threads| > i
  {
    var t, s' := s.threads[i], Do(s, i, pends, ok);
    AheadOf(s'.threads[i]) + (if t.Forwarding? && pends then AheadOf(Below(t.kind)) else 0)
    + (if s'.queuedRequest then QUEUED_AHEAD else 0)
  }

  lemma HandlerGetsCloser(s: State, i: nat, pends: bool, ok: bool)
    requires i < |s.threads| && Handling(s.threads[i]) && !s.queuedRequest
    ensures |Do(s, i, pends, ok).threads| > i && AheadAfter(s, i, pends, ok) < AheadOf(s.threads[i])
  {
    match s.threads[i]
    case Entered(k) => assert Do(s, i, pends, ok) == Enter(s, i, k);
    case NotUnbinding(k) => assert Do(s, i, pends, ok) == LookPower(s, i, k);
    case Deciding(k) => assert Do(s, i, pends, ok) == Decide(s, i, k);
    case _ =>
  }

  lemma CompleterGetsCloser(s: State, i: nat, pends: bool, ok: bool)
    requires i < |s.threads| && WillComplete(s.threads[i]) && !Handling(s.threads[i]) && !s.queuedRequest
    ensures |Do(s, i, pends, ok).threads| > i && AheadAfter(s, i, pends, ok) < AheadOf(s.threads[i])
  {
    match s.threads[i]
    case Forwarding(k, handler) => assert Do(s, i, pends, ok) == Forward(s, i, k, handler, pends, ok);
    case Completing(k, success, _) => assert Do(s, i, pends, ok) == CompleteHead(s, i, k, success);
    case Filling => assert Do(s, i, pends, ok) == Fill(s, i, ok);
    case _ =>
  }

  /** A thread whose locked region takes a queued request: the power-up of the lower edge, the end of its power-down, and
      the unbind. */
  predicate TakesQueued(t: Thread) {
    (t.Begun? && t.target <= D0) || t == ReadyToDrain || t == Unbinding
  }

  lemma QueuedIsTaken(s: State, i: nat, pends: bool, ok: bool)
    requires Inv(s) && s.queuedRequest && i < |s.threads| && TakesQueued(s.threads[i])
    ensures var s' := Do(s, i, pends, ok);
            Distance(s') < Distance(s) && !s'.queuedRequest && |s'.threads| > i && WillComplete(s'.threads[i])
  {
    ThreadDistance(s, i, pends, ok);
  }

  /** The power-down of the lower edge gets there: while a request is queued it does not have to wait. */
  lemma PowerDownGetsThere(s: State, i: nat, pends: bool, ok: bool)
    requires Inv(s) && s.queuedRequest && i < |s.threads|
    ensures s.threads[i].Begun? && s.threads[i].target > D0 ==>
              Do(s, i, pends, ok).threads[i] == Waiting && Do(s, i, pends, ok).queuedRequest
    ensures s.threads[i] == Waiting ==> Do(s, i, pends, ok).threads[i] == ReadyToDrain && Do(s, i, pends, ok).queuedRequest
  {
    QueuedIsNotOutstanding(s);
  }

  /** Nothing that happens sets the current request back. */
  lemma NothingSetsBack(s: State, a: Action)
    requires Inv(s) && Busy(s)
    ensures Distance(Step(s, a)) <= Distance(s)
  {
    match a
    case Issue(kind) =>
      if Enabled(s, a) {
        IssueMeansIdle(s, kind);
      }
    case PowerEvent(target) => SumAppend(s.threads, Begun(s.ptState, target), Ahead);
    case Unbind => SumAppend(s.threads, Unbinding, Ahead);
    case Advance(i, pends, ok) =>
      if i < |s.threads| {
        ThreadsSetNothingBack(s, i, pends, ok);
      }
  }

  lemma ThreadsSetNothingBack(s: State, i: nat, pends: bool, ok: bool)
    requires Inv(s) && i < |s.threads|
    ensures Distance(Do(s, i, pends, ok)) <= Distance(s)
  {
    if WillComplete(s.threads[i]) {
      CompleterMoves(s, i, pends, ok);
    } else if s.queuedRequest && TakesQueued(s.threads[i]) {
      QueuedIsTaken(s, i, pends, ok);
    } else {
      BystanderKeepsDistance(s, i, pends, ok);
    }
  }

  lemma BystanderStays(s: State, i: nat, pends: bool, ok: bool)
    requires i < |s.threads| && !WillComplete(s.threads[i]) && !(s.queuedRequest && TakesQueued(s.threads[i]))
    ensures var s' := Do(s, i, pends, ok);
            |s'.threads| > i && AheadOf(s'.threads[i]) == 0 && s'.queuedRequest == s.queuedRequest
  {
  }

  lemma BystanderKeepsDistance(s: State, i: nat, pends: bool, ok: bool)
    requires i < |s.threads| && !WillComplete(s.threads[i]) && !(s.queuedRequest && TakesQueued(s.threads[i]))
    ensures Distance(Do(s, i, pends, ok)) == Distance(s)
  {
    ThreadDistance(s, i, pends, ok);
    BystanderStays(s, i, pends, ok);
  }

  lemma {:induction false} SomebodyHasIt(threads: seq<Thread>) returns (i: nat)
    requires Sum(threads, Owed) > 0
    ensures i < |threads| && WillComplete(threads[i])
  {
    i := |threads| - 1;
    if !WillComplete(threads[i]) {
      i := SomebodyHasIt(threads[..i]);
    }
  }

  /** No request is stuck. While NDIS waits for one, either a thread has it, and each step of that thread brings it closer
      to completion; or it is queued, and the power-up of the lower edge, its power-down and the unbind each take it off
      the queue. Nothing else that can happen sets it back. */
  lemma RequestsMakeProgress(acts: seq<Action>, other: Action) returns (i: nat)
    requires Busy(Run(INIT, acts))
    ensures var s := Run(INIT, acts);
            && Distance(Step(s, other)) <= Distance(s)
            && (!s.queuedRequest ==>
                  i < |s.threads| && forall pends, ok :: Distance(Step(s, Advance(i, pends, ok))) < Distance(s))
            && (s.queuedRequest ==> forall j: nat, pends, ok :: j < |s.threads| && TakesQueued(s.threads[j]) ==>
                  Distance(Step(s, Advance(j, pends, ok))) < Distance(s) && !Step(s, Advance(j, pends, ok)).queuedRequest)
  {
    var s := Run(INIT, acts);
    RunKeepsInv(INIT, acts);
    NothingSetsBack(s, other);
    i := 0;
    if s.queuedRequest {
      forall j: nat, pends, ok | j < |s.threads| && TakesQueued(s.threads[j])
        ensures Distance(Step(s, Advance(j, pends, ok))) < Distance(s) && !Step(s, Advance(j, pends, ok)).queuedRequest
      {
        QueuedIsTaken(s, j, pends, ok);
      }
    } else {
      i := SomebodyHasIt(s.threads);
      forall pends, ok
        ensures Distance(Step(s, Advance(i, pends, ok))) < Distance(s)
      {
        CompleterMoves(s, i, pends, ok);
      }
    }
  }

  // ---- Queued requests are drained

  lemma Extend(acts: seq<Action>, a: Action) returns (longer: seq<Action>)
    ensures Run(INIT, longer) == Step(Run(INIT, acts), a)
    ensures longer != [] && longer[..|longer| - 1] == acts && longer[|longer| - 1] == a
  {
    longer := acts + [a];
    assert longer[..|longer| - 1] == acts;
  }

  /** Thread `i` goes on. */
  lemma Next(acts: seq<Action>, i: nat) returns (longer: seq<Action>)
    requires i < |Run(INIT, acts).threads|
    ensures Run(INIT, longer) == Do(Run(INIT, acts), i, false, true)
    ensures longer != [] && longer[..|longer| - 1] == acts && longer[|longer| - 1] == Advance(i, false, true)
  {
    longer := Extend(acts, Advance(i, false, true));
  }

  /** The thread that came last goes on. */
  lemma NextOfLast(acts: seq<Action>, before: seq<Thread>, t: Thread) returns (longer: seq<Action>)
    requires Run(INIT, acts).threads == before + [t] && !t.Begun?
    ensures Run(INIT, longer) == Do(Run(INIT, acts), |before|, false, true) && Announced(longer) == Announced(acts)
    ensures longer != [] && longer[..|longer| - 1] == acts && longer[|longer| - 1] == Advance(|before|, false, true)
  {
    longer := Next(acts, |before|);
  }

  lemma GoLast(s: State, before: seq<Thread>, t: Thread, t': Thread)
    requires s.threads == before + [t]
    ensures Go(s, |before|, t').threads == before + [t']
  {
  }

  function AfterSetPower(s: State, target: Power): State {
    var standingBy := if s.mpState == D0 && target > D0 then true
                      else if s.mpState > D0 && target == D0 then false else s.standingBy;
    s.(mpState := target, standingBy := standingBy, issued := s.issued + 1, completed := s.completed + [s.issued],
       threads := s.threads + [Finished])
  }

  /** The three steps of a set-power that suits the state of the upper edge. */
  lemma SetPowerSteps(s: State, target: Power) returns (s1: State, s2: State, s3: State)
    requires Enabled(s, Issue(Local)) && (s.mpState > D0 ==> target == D0)
    ensures s1 == Step(s, Issue(SetPower(true, target))) && s1.threads == s.threads + [Entered(SetPower(true, target))]
    ensures s2 == Do(s1, |s.threads|, false, true) && s2.threads == s.threads + [PowerDecided(target)]
    ensures s3 == Do(s2, |s.threads|, false, true) && s3.threads == s.threads + [Returning]
    ensures Do(s3, |s.threads|, false, true) == AfterSetPower(s, target)
  {
    s1 := Step(s, Issue(SetPower(true, target)));
    GoLast(s1, s.threads, Entered(SetPower(true, target)), PowerDecided(target));
    s2 := Do(s1, |s.threads|, false, true);
    GoLast(s2, s.threads, PowerDecided(target), Returning);
    s3 := Do(s2, |s.threads|, false, true);
    GoLast(s3, s.threads, Returning, Finished);
  }

  /** A set-power runs to its end. */
  lemma SetPowerRuns(acts: seq<Action>, target: Power) returns (longer: seq<Action>)
    requires var s := Run(INIT, acts); Enabled(s, Issue(Local)) && (s.mpState > D0 ==> target == D0)
    ensures Run(INIT, longer) == AfterSetPower(Run(INIT, acts), target) && Announced(longer) == Announced(acts)
  {
    var before := Run(INIT, acts).threads;
    var s1, s2, s3 := SetPowerSteps(Run(INIT, acts), target);
    longer := Extend(acts, Issue(SetPower(true, target)));
    longer := NextOfLast(longer, before, Entered(SetPower(true, target)));
    longer := NextOfLast(longer, before, PowerDecided(target));
    longer := NextOfLast(longer, before, Returning);
  }

  /** The lower edge powers down, then the upper edge. */
  lemma PowerDown() returns (acts: seq<Action>)
    ensures Run(INIT, acts) == INIT.(ptState := 3, mpState := 3, standingBy := true, issued := 1, completed := [0],
                                     threads := [Waiting, Finished])
  {
    acts := Extend([], PowerEvent(3));
    acts := Next(acts, 0);
    assert Run(INIT, acts) == INIT.(ptState := 3, standingBy := true, threads := [Waiting]);
    acts := SetPowerRuns(acts, 3);
  }

  /** Then the upper edge comes back alone, and accepts requests again. */
  lemma UpperEdgeBack() returns (acts: seq<Action>)
    ensures Run(INIT, acts) == INIT.(ptState := 3, issued := 2, completed := [0, 1],
                                     threads := [Waiting, Finished, Finished])
  {
    acts := PowerDown();
    acts := SetPowerRuns(acts, D0);
  }

  /** A query that comes now has to be queued. */
  lemma QueryIsQueued() returns (acts: seq<Action>)
    ensures Run(INIT, acts) == INIT.(queuedRequest := true, ptState := 3, request := Query(false), issued := 3,
                                     completed := [0, 1], threads := [Waiting, Finished, Finished, Finished])
  {
    acts := UpperEdgeBack();
    acts := Extend(acts, Issue(Query(false)));
    assert Run(INIT, acts).threads == [Waiting, Finished, Finished, Entered(Query(false))];
    acts := Next(acts, 3);
    acts := Next(acts, 3);
    assert Run(INIT, acts) == INIT.(ptState := 3, request := Query(false), issued := 3, completed := [0, 1],
                                    threads := [Waiting, Finished, Finished, Deciding(Query(false))]);
    acts := Next(acts, 3);
  }

  /** The power-down, which has been waiting, drains it; */
  lemma PowerDownDrains() returns (acts: seq<Action>)
    ensures var s := Run(INIT, acts); |s.threads| > 0 && s.threads[0] == Completing(Query(false), false, false)
  {
    acts := QueryIsQueued();
    acts := Next(acts, 0);
    assert Run(INIT, acts).threads[0] == ReadyToDrain;
    acts := Next(acts, 0);
  }

  /** or an unbind does. */
  lemma UnbindDrains() returns (acts: seq<Action>)
    ensures var s := Run(INIT, acts); |s.threads| == 5 && s.threads[4] == Completing(Query(false), false, false)
  {
    acts := QueryIsQueued();
    acts := Extend(acts, Unbind);
    assert Run(INIT, acts).threads[4] == Unbinding;
    acts := Next(acts, 4);
  }

  // ---- The state of the lower edge

  /** The first locked region of a power event of the lower edge. */
  predicate SetsPower(s: State, a: Action) {
    a.Advance? && a.i < |s.threads| && s.threads[a.i].Begun?
  }

  /** A capabilities query that writes D0 over the states of both edges, without the lock. */
  predicate Overwrites(s: State, a: Action) {
    a.Advance? && a.i < |s.threads| && s.threads[a.i] == Filling && a.ok
  }

  /** The state the lower edge was last announced to be in. */
  function Announced(acts: seq<Action>): Power {
    if acts == [] then D0
    else
      var s, a := Run(INIT, acts[..|acts| - 1]), acts[|acts| - 1];
      if SetsPower(s, a) then s.threads[a.i].target else Announced(acts[..|acts| - 1])
  }

  /** A capabilities query was completed since the lower edge was announced to have powered down. */
  predicate OverwrittenWhileDown(acts: seq<Action>) {
    acts != [] &&
    var front := acts[..|acts| - 1];
    var s, a := Run(INIT, front), acts[|acts| - 1];
    !SetsPower(s, a) && ((Overwrites(s, a) && Announced(front) > D0) || OverwrittenWhileDown(front))
  }

  /** What a step of a thread that is not a power event about to begin does to the lower edge's state, and who starts to wait
      or marks a request. */
  ghost predicate LeavesEdge(s: State, i: nat, pends: bool, ok: bool)
    requires i < |s.threads|
  {
    var t, s' := s.threads[i], Do(s, i, pends, ok);
    && |s'.threads| > i && (s'.threads[i] == Waiting ==> t == Waiting)
    && s'.ptState == (if t == Filling && ok then D0 else s.ptState)
    && (s'.outstandingRequests ==> s.outstandingRequests || (t.Deciding? && s.ptState <= D0))
  }

  lemma EnteredLeavesEdge(s: State, i: nat, pends: bool, ok: bool)
    requires i < |s.threads| && s.threads[i].Entered?
    ensures LeavesEdge(s, i, pends, ok)
  {
  }

  lemma HandlerLeavesEdge(s: State, i: nat, pends: bool, ok: bool)
    requires i < |s.threads| && Handling(s.threads[i]) && !s.threads[i].Entered?
    ensures LeavesEdge(s, i, pends, ok)
  {
  }

  lemma CompleterLeavesEdge(s: State, i: nat, pends: bool, ok: bool)
    requires i < |s.threads| && WillComplete(s.threads[i]) && !Handling(s.threads[i])
    ensures LeavesEdge(s, i, pends, ok)
  {
  }

  lemma EventLeavesEdge(s: State, i: nat, pends: bool, ok: bool)
    requires i < |s.threads| && !WillComplete(s.threads[i]) && !s.threads[i].Begun?
    ensures LeavesEdge(s, i, pends, ok)
  {
  }

  lemma ThreadLeavesEdge(s: State, i: nat, pends: bool, ok: bool)
    requires i < |s.threads| && !s.threads[i].Begun?
    ensures LeavesEdge(s, i, pends, ok)
  {
    if s.threads[i].Entered? {
      EnteredLeavesEdge(s, i, pends, ok);
    } else if Handling(s.threads[i]) {
      HandlerLeavesEdge(s, i, pends, ok);
    } else if WillComplete(s.threads[i]) {
      CompleterLeavesEdge(s, i, pends, ok);
    } else {
      EventLeavesEdge(s, i, pends, ok);
    }
  }

  /** What a step does to PTDeviceState. */
  lemma StepOnPtState(s: State, a: Action)
    ensures Step(s, a).ptState == if SetsPower(s, a) then s.threads[a.i].target
                                  else if Overwrites(s, a) then D0 else s.ptState
  {
    if a.Advance? && a.i < |s.threads| && !s.threads[a.i].Begun? {
      ThreadLeavesEdge(s, a.i, a.pends, a.ok);
    }
  }

  lemma {:induction false} PtStateIsAnnounced(acts: seq<Action>)
    ensures Run(INIT, acts).ptState > D0 <==> Announced(acts) > D0 && !OverwrittenWhileDown(acts)
    ensures OverwrittenWhileDown(acts) ==> Announced(acts) > D0
  {
    if acts != [] {
      var front := acts[..|acts| - 1];
      PtStateIsAnnounced(front);
      StepOnPtState(Run(INIT, front), acts[|acts| - 1]);
    }
  }

  /** A request is marked outstanding, to be forwarded. */
  predicate Marks(s: State, a: Action) {
    a.Advance? && a.i < |s.threads| && (s.threads[a.i].Deciding? || s.threads[a.i].Begun?)
    && Step(s, a).threads[a.i].Forwarding?
  }

  lemma MarksAtD0(s: State, a: Action)
    requires Marks(s, a)
    ensures Step(s, a).ptState <= D0
  {
  }

  /** A request goes on to be forwarded with the lower edge at D0, as it was announced, if and only if no capabilities query
      was completed since the lower edge was announced to have powered down. */
  lemma ForwardedAtD0Iff(acts: seq<Action>)
    requires acts != [] && Marks(Run(INIT, acts[..|acts| - 1]), acts[|acts| - 1])
    ensures Announced(acts) <= D0 <==> !OverwrittenWhileDown(acts)
  {
    MarksAtD0(Run(INIT, acts[..|acts| - 1]), acts[|acts| - 1]);
    PtStateIsAnnounced(acts);
  }

  /** What makes the lower edge look powered: its power-up, or a capabilities query. */
  predicate Reopens(s: State, a: Action) {
    (SetsPower(s, a) && s.threads[a.i].target <= D0) || Overwrites(s, a)
  }

  predicate BeginsPowerDown(s: State, a: Action, i: nat) {
    SetsPower(s, a) && a.i == i && s.threads[i].target > D0
  }

  /** Since power-down `i` began the lower edge has been made to look powered. */
  predicate ReopenedSince(acts: seq<Action>, i: nat) {
    acts != [] &&
    var s, a := Run(INIT, acts[..|acts| - 1]), acts[|acts| - 1];
    !BeginsPowerDown(s, a, i) && (Reopens(s, a) || ReopenedSince(acts[..|acts| - 1], i))
  }

  predicate HasBegun(acts: seq<Action>, i: nat) {
    acts != [] &&
    (BeginsPowerDown(Run(INIT, acts[..|acts| - 1]), acts[|acts| - 1], i) || HasBegun(acts[..|acts| - 1], i))
  }

  predicate EndsWait(s: State, a: Action, i: nat) {
    a.Advance? && a.i == i && i < |s.threads| && s.threads[i] == Waiting && !s.outstandingRequests
  }

  /** Power-down `i` has waited for outstanding requests to complete. */
  predicate HasWaited(acts: seq<Action>, i: nat) {
    acts != [] &&
    var s, a := Run(INIT, acts[..|acts| - 1]), acts[|acts| - 1];
    !BeginsPowerDown(s, a, i) && (EndsWait(s, a, i) || HasWaited(acts[..|acts| - 1], i))
  }

  lemma {:induction false} ClosedSince(acts: seq<Action>, i: nat)
    requires HasBegun(acts, i) && !ReopenedSince(acts, i)
    ensures Run(INIT, acts).ptState > D0
  {
    var front := acts[..|acts| - 1];
    var s, a := Run(INIT, front), acts[|acts| - 1];
    StepOnPtState(s, a);
    if !BeginsPowerDown(s, a, i) {
      ClosedSince(front, i);
    }
  }

  lemma StartsToWait(s: State, a: Action, i: nat)
    requires i < |Step(s, a).threads| && Step(s, a).threads[i] == Waiting
    ensures BeginsPowerDown(s, a, i) || (i < |s.threads| && s.threads[i] == Waiting)
  {
    if a.Advance? && a.i < |s.threads| {
      if s.threads[a.i].Forwarding? && a.pends {
        assert Step(s, a).threads == s.threads[a.i := Finished] + [Below(s.threads[a.i].kind)];
      } else {
        MovesAlone(s, a.i, a.pends, a.ok);
      }
      if !s.threads[a.i].Begun? {
        ThreadLeavesEdge(s, a.i, a.pends, a.ok);
      }
    }
  }

  lemma {:induction false} WaitingHasBegun(acts: seq<Action>, i: nat)
    requires i < |Run(INIT, acts).threads| && Run(INIT, acts).threads[i] == Waiting
    ensures HasBegun(acts, i)
  {
    var front := acts[..|acts| - 1];
    var s, a := Run(INIT, front), acts[|acts| - 1];
    StartsToWait(s, a, i);
    if !BeginsPowerDown(s, a, i) {
      WaitingHasBegun(front, i);
    }
  }

  lemma NothingMarked(s: State, a: Action)
    requires !s.outstandingRequests && s.ptState > D0 && !Reopens(s, a)
    ensures !Step(s, a).outstandingRequests
  {
    if a.Advance? && a.i < |s.threads| && !s.threads[a.i].Begun? {
      ThreadLeavesEdge(s, a.i, a.pends, a.ok);
    }
  }

  /** Once a power-down has waited, nothing is outstanding, up to the assertion at its end and beyond, unless the lower edge
      has been made to look powered since it began. */
  lemma {:induction false} PowerDownIsQuiet(acts: seq<Action>, i: nat)
    requires HasWaited(acts, i) && !ReopenedSince(acts, i)
    ensures HasBegun(acts, i) && !Run(INIT, acts).outstandingRequests
  {
    var front := acts[..|acts| - 1];
    var s, a := Run(INIT, front), acts[|acts| - 1];
    if EndsWait(s, a, i) {
      WaitingHasBegun(front, i);
    } else {
      PowerDownIsQuiet(front, i);
      ClosedSince(front, i);
      NothingMarked(s, a);
    }
  }

  /** A capabilities query is with the lower miniport when the lower edge powers down. */
  lemma PowerDownDuringQuery() returns (acts: seq<Action>)
    ensures Run(INIT, acts) == INIT.(outstandingRequests := true, standingBy := true, ptState := 3, request := Query(true),
                                     issued := 1, threads := [Completing(Query(true), true, true), Waiting])
    ensures Announced(acts) == 3
  {
    acts := Extend([], Issue(Query(true)));
    acts := Next(acts, 0);
    acts := Next(acts, 0);
    assert Run(INIT, acts) == INIT.(request := Query(true), issued := 1, threads := [Deciding(Query(true))]);
    acts := Next(acts, 0);
    acts := Next(acts, 0);
    assert Run(INIT, acts) == INIT.(outstandingRequests := true, request := Query(true), issued := 1,
                                    threads := [Completing(Query(true), true, true)]);
    acts := Extend(acts, PowerEvent(3));
    assert Run(INIT, acts).threads == [Completing(Query(true), true, true), Begun(D0, 3)];
    acts := Next(acts, 1);
  }

  /** The power-down finds it completed; but then the query sets the states back. */
  lemma QueryOverwrites() returns (acts: seq<Action>)
    ensures Run(INIT, acts) == INIT.(standingBy := true, request := Query(true), issued := 1, completed := [0],
                                     threads := [Finished, ReadyToDrain])
    ensures Announced(acts) == 3
  {
    acts := PowerDownDuringQuery();
    acts := Next(acts, 0);
    var s := INIT.(standingBy := true, ptState := 3, request := Query(true), issued := 1, threads := [Filling, Waiting]);
    assert Run(INIT, acts) == s && Announced(acts) == 3;
    acts := Next(acts, 1);
    assert Run(INIT, acts) == s.(threads := [Filling, ReadyToDrain]) && Announced(acts) == 3;
    acts := Next(acts, 0);
    assert Run(INIT, acts) == s.(ptState := D0, threads := [Notifying, ReadyToDrain]) && Announced(acts) == 3;
    acts := Next(acts, 0);
  }

  /** A query goes on to be forwarded when both edges look powered. */
  lemma QueryRuns(acts: seq<Action>) returns (longer: seq<Action>)
    requires var s := Run(INIT, acts);
             Enabled(s, Issue(Local)) && !s.unbinding && !s.standingBy && s.mpState <= D0 && s.ptState <= D0
    ensures longer != [] && Marks(Run(INIT, longer[..|longer| - 1]), longer[|longer| - 1])
    ensures Announced(longer) == Announced(acts) && Run(INIT, longer).outstandingRequests
    ensures Run(INIT, longer).threads == Run(INIT, acts).threads + [Forwarding(Query(false), true)]
  {
    var before := Run(INIT, acts).threads;
    longer := Extend(acts, Issue(Query(false)));
    GoLast(Run(INIT, longer), before, Entered(Query(false)), NotUnbinding(Query(false)));
    longer := NextOfLast(longer, before, Entered(Query(false)));
    GoLast(Run(INIT, longer), before, NotUnbinding(Query(false)), Deciding(Query(false)));
    longer := NextOfLast(longer, before, NotUnbinding(Query(false)));
    GoLast(Run(INIT, longer), before, Deciding(Query(false)), Forwarding(Query(false), true));
    longer := NextOfLast(longer, before, Deciding(Query(false)));
  }

  /** It does happen: the upper edge powers down and up again, and the next query is forwarded while the lower edge is down,
      and before the power-down gets to the assertion that nothing is outstanding. */
  lemma ForwardedWhileDown() returns (acts: seq<Action>)
    ensures var s := Run(INIT, acts);
            && acts != [] && Marks(Run(INIT, acts[..|acts| - 1]), acts[|acts| - 1])
            && Announced(acts) > D0 && s.outstandingRequests
            && |s.threads| > 1 && s.threads[1] == ReadyToDrain
  {
    acts := QueryOverwrites();
    acts := SetPowerRuns(acts, 3);
    acts := SetPowerRuns(acts, D0);
    acts := QueryRuns(acts);
  }

  // ---- The adapter as the program updates it

  /** The fields of `ADAPT` the protocol turns on, and where each thread stands; one method per region. `model` also has
      what NDIS has seen. */
  class Adapter {
    var queuedRequest: bool
    var outstandingRequests: bool
    var standingBy: bool
    var unbindingInProcess: bool
    var mpDeviceState: Power
    var ptDeviceState: Power
    var request: Kind
    var threads: seq<Thread>
    ghost var model: State

    ghost predicate Valid()
      reads this
    {
      && model.queuedRequest == queuedRequest && model.outstandingRequests == outstandingRequests
      && model.standingBy == standingBy && model.unbinding == unbindingInProcess
      && model.mpState == mpDeviceState && model.ptState == ptDeviceState
      && model.request == request && model.threads == threads
      && Inv(model)
    }

    /** Thread `i` is to take the step. */
    ghost predicate At(i: nat, t: Thread)
      reads this
    {
      Valid() && i < |model.threads| && model.threads[i] == t
    }

    constructor ()
      ensures Valid() && model == INIT
    {
      queuedRequest, outstandingRequests, standingBy, unbindingInProcess := false, false, false, false;
      mpDeviceState, ptDeviceState, request, threads := D0, D0, Local, [];
      model := INIT;
    }

    /** A handler is called, a power event arrives, or the unbind does. */
    method Start(a: Action)
      requires Valid() && !a.Advance? && Enabled(model, a)
      modifies this
      ensures Valid() && model == Step(old(model), a)
    {
      StepKeepsInv(model, a);
      var t := match a
               case Issue(kind) => Entered(kind)
               case PowerEvent(target) => Begun(ptDeviceState, target)
               case Unbind => Unbinding
               case Advance(_, _, _) => Finished;
      threads := threads + [t];
      model := Step(model, a);
    }

    /** The first tests of `MPQueryInformation` and `MPSetInformation`. */
    method EnterHandler(i: nat, kind: Kind)
      requires At(i, Entered(kind)) && !kind.SetPower?
      modifies this
      ensures Valid() && model == Do(old(model), i, false, false)
    {
      DoKeepsInv(model, i, false, false);
      model := Do(model, i, false, false);
      threads := threads[i := if kind.Local? || unbindingInProcess then Returning else NotUnbinding(kind)];
    }

    /** `MPProcessSetPowerOid` up to the update of StandingBy. */
    method SetPowerDecide(i: nat, valid: bool, target: Power)
      requires At(i, Entered(SetPower(valid, target)))
      modifies this
      ensures Valid() && model == Do(old(model), i, false, false)
    {
      DoKeepsInv(model, i, false, false);
      model := Do(model, i, false, false);
      if !valid || (mpDeviceState > D0 && target != D0) {
        threads := threads[i := Returning];
        return;
      }
      if mpDeviceState == D0 && target > D0 {
        standingBy := true;
      }
      if mpDeviceState > D0 && target == D0 {
        standingBy := false;
      }
      threads := threads[i := PowerDecided(target)];
    }

    method SetPowerWrite(i: nat, target: Power)
      requires At(i, PowerDecided(target))
      modifies this
      ensures Valid() && model == Do(old(model), i, false, false)
    {
      DoKeepsInv(model, i, false, false);
      model := Do(model, i, false, false);
      mpDeviceState := target;
      threads := threads[i := Returning];
    }

    /** The unlocked test of the miniport's state; then pAdapt->Request is filled in. */
    method LookMiniportPower(i: nat, kind: Kind)
      requires At(i, NotUnbinding(kind))
      modifies this
      ensures Valid() && model == Do(old(model), i, false, false)
    {
      DoKeepsInv(model, i, false, false);
      model := Do(model, i, false, false);
      if mpDeviceState > D0 {
        threads := threads[i := Returning];
      } else {
        request := kind;
        threads := threads[i := Deciding(kind)];
      }
    }

    /** The locked decision: fail, queue, or mark outstanding and forward. */
    method DecideRequest(i: nat, kind: Kind)
      requires At(i, Deciding(kind))
      modifies this
      ensures Valid() && model == Do(old(model), i, false, false)
    {
      DoKeepsInv(model, i, false, false);
      model := Do(model, i, false, false);
      if unbindingInProcess {
        threads := threads[i := Returning];
        return;
      }
      if ptDeviceState > D0 && standingBy == false {
        queuedRequest := true;
        threads := threads[i := Finished];
        return;
      }
      if standingBy {
        threads := threads[i := Returning];
        return;
      }
      outstandingRequests := true;
      threads := threads[i := Forwarding(kind, true)];
    }

    /** `NdisRequest` and what its caller does with the status. */
    method CallLower(i: nat, kind: Kind, handler: bool, pends: bool, ok: bool)
      requires At(i, Forwarding(kind, handler))
      modifies this
      ensures Valid() && model == Do(old(model), i, pends, ok)
    {
      DoKeepsInv(model, i, pends, ok);
      model := Do(model, i, pends, ok);
      if pends {
        threads := threads[i := Finished] + [Below(kind)];
      } else if handler && kind.Set? {
        outstandingRequests := false;
        threads := threads[i := Returning];
      } else {
        threads := threads[i := Completing(kind, ok, true)];
      }
    }

    /** The head of `PtRequestComplete`: no request is outstanding any more. */
    method CompletionHead(i: nat, kind: Kind, success: bool, forwarded: bool)
      requires At(i, Completing(kind, success, forwarded))
      modifies this
      ensures Valid() && model == Do(old(model), i, false, false)
    {
      DoKeepsInv(model, i, false, false);
      model := Do(model, i, false, false);
      outstandingRequests := false;
      threads := threads[i := if success && kind.Query? && kind.capabilities then Filling else Notifying];
    }

    /** `MPQueryPNPCapabilities`. */
    method FillCapabilities(i: nat, fits: bool)
      requires At(i, Filling)
      modifies this
      ensures Valid() && model == Do(old(model), i, false, fits)
    {
      DoKeepsInv(model, i, false, fits);
      model := Do(model, i, false, fits);
      if fits {
        mpDeviceState := D0;
        ptDeviceState := D0;
      }
      threads := threads[i := Notifying];
    }

    /** The first locked region of `PtPnPNetEventSetPower`. */
    method EnterPowerChange(i: nat, previous: Power, target: Power)
      requires At(i, Begun(previous, target))
      modifies this
      ensures Valid() && model == Do(old(model), i, false, false)
    {
      DoKeepsInv(model, i, false, false);
      model := Do(model, i, false, false);
      ptDeviceState := target;
      if ptDeviceState > D0 {
        if previous == D0 {
          standingBy := true;
        }
        threads := threads[i := Waiting];
      } else {
        if previous > D0 {
          standingBy := false;
        }
        if queuedRequest {
          queuedRequest := false;
          outstandingRequests := true;
          threads := threads[i := Forwarding(request, false)];
        } else {
          threads := threads[i := Finished];
        }
      }
    }

    /** One look at OutstandingRequests while waiting. */
    method WaitForRequests(i: nat)
      requires At(i, Waiting)
      modifies this
      ensures Valid() && model == Do(old(model), i, false, false)
    {
      DoKeepsInv(model, i, false, false);
      model := Do(model, i, false, false);
      if !outstandingRequests {
        threads := threads[i := ReadyToDrain];
      }
    }

    /** The second locked region: take a queued request to fail it. */
    method DrainQueued(i: nat)
      requires At(i, ReadyToDrain)
      modifies this
      ensures Valid() && model == Do(old(model), i, false, false)
    {
      DoKeepsInv(model, i, false, false);
      model := Do(model, i, false, false);
      threads := threads[i := if queuedRequest then Completing(request, false, false) else Finished];
      if queuedRequest {
        queuedRequest := false;
      }
    }

    /** The locked region of `PtUnbindAdapter`. */
    method UnbindRegion(i: nat)
      requires At(i, Unbinding)
      modifies this
      ensures Valid() && model == Do(old(model), i, false, false)
    {
      DoKeepsInv(model, i, false, false);
      model := Do(model, i, false, false);
      unbindingInProcess := true;
      threads := threads[i := if queuedRequest then Completing(request, false, false) else Finished];
      if queuedRequest {
        queuedRequest := false;
      }
    }

    /** The lower miniport completes a request it pended. */
    method LowerCompletes(i: nat, kind: Kind, ok: bool)
      requires At(i, Below(kind))
      modifies this
      ensures Valid() && model == Do(old(model), i, false, ok)
    {
      DoKeepsInv(model, i, false, ok);
      model := Do(model, i, false, ok);
      threads := threads[i := Completing(kind, ok, true)];
    }

    /** NDIS is told that the request is complete, by a call or by the handler's return. */
    method TellNdis(i: nat)
      requires At(i, Notifying) || At(i, Returning)
      modifies this
      ensures Valid() && model == Do(old(model), i, false, false)
    {
      DoKeepsInv(model, i, false, false);
      model := Do(model, i, false, false);
      threads := threads[i := Finished];
    }

    method Perform(a: Action)
      requires Valid() && Enabled(model, a)
      modifies this
      ensures Valid() && model == Step(old(model), a)
    {
      if a.Advance? {
        DoNext(a.i, a.pends, a.ok);
      } else {
        Start(a);
      }
    }

    /** Thread `i` does the next thing it has to do. */
    method DoNext(i: nat, pends: bool, ok: bool)
      requires Valid() && i < |threads|
      modifies this
      ensures Valid() && model == Do(old(model), i, pends, ok)
    {
      match threads[i] {
        case Entered(kind) =>
          if kind.SetPower? {
            SetPowerDecide(i, kind.valid, kind.target);
          } else {
            EnterHandler(i, kind);
          }
        case NotUnbinding(kind) => LookMiniportPower(i, kind);
        case Deciding(kind) => DecideRequest(i, kind);
        case PowerDecided(target) => SetPowerWrite(i, target);
        case Returning => TellNdis(i);
        case Forwarding(kind, handler) => CallLower(i, kind, handler, pends, ok);
        case Below(kind) => LowerCompletes(i, kind, ok);
        case Completing(kind, success, forwarded) => CompletionHead(i, kind, success, forwarded);
        case Filling => FillCapabilities(i, ok);
        case Notifying => TellNdis(i);
        case Begun(previous, target) => EnterPowerChange(i, previous, target);
        case Waiting => WaitForRequests(i);
        case ReadyToDrain => DrainQueued(i);
        case Unbinding => UnbindRegion(i);
        case Finished =>
      }
    }

    /** Any interleaving of the regions takes the adapter where the state machine goes. */
    method PerformAll(acts: seq<Action>)
      requires Valid() && forall n :: 0 <= n < |acts| ==> Enabled(Run(model, acts[..n]), acts[n])
      modifies this
      ensures Valid() && model == Run(old(model), acts)
    {
      for n := 0 to |acts|
        invariant Valid() && model == Run(old(model), acts[..n])
      {
        assert acts[..n + 1][..n] == acts[..n];
        Perform(acts[n]);
      }
      assert acts[..|acts|] == acts;
    }
  }
}
