/** The adapter's requests, flags and power states, told from what was issued and what has run: which request waits and which is
    sent down, who fails a queued one, and what every flag remembers. */
module OidHistory {
  import opened Lists
  import opened OidRequests

  // ---- The current request

  /** The request issued last. */
  function Current(acts: seq<Action>): Kind {
    if acts == [] then Local
    else
      var s, a := Run(INIT, acts[..|acts| - 1]), acts[|acts| - 1];
      if a.Issue? && Enabled(s, a) then a.kind else Current(acts[..|acts| - 1])
  }

  function Issues(acts: seq<Action>): nat {
    if acts == [] then 0
    else
      var s, a := Run(INIT, acts[..|acts| - 1]), acts[|acts| - 1];
      Issues(acts[..|acts| - 1]) + One(a.Issue? && Enabled(s, a))
  }

  /** A thread that has a request has this one. */
  predicate Has(t: Thread, k: Kind) {
    match t
    case Entered(kind) => kind == k
    case NotUnbinding(kind) => kind == k
    case Deciding(kind) => kind == k
    case PowerDecided(target) => k == SetPower(true, target)
    case Forwarding(kind, _) => kind == k
    case Below(kind) => kind == k
    case Completing(kind, _, _) => kind == k
    case _ => true
  }

  ghost predicate KindInv(s: State, k: Kind) {
    && (forall i :: 0 <= i < |s.threads| ==> Has(s.threads[i], k) && (s.threads[i].Deciding? ==> s.request == k))
    && (s.queuedRequest ==> s.request == k)
  }

  // ---- What a step does, thread by thread

  /** What a step of thread `i`, which was `t`, does to pAdapt->Request and to the flags; `k` is the current request. */
  predicate Effects(s: State, s': State, t: Thread, i: nat, ok: bool, k: Kind) {
    && |s'.threads| > i && Has(s'.threads[i], k)
    && (if t.NotUnbinding? then s'.threads[i].Deciding? ==> s'.request == k
        else s'.request == s.request && !s'.threads[i].Deciding?)
    && (s'.queuedRequest ==> s.queuedRequest || t.Deciding?)
    && (s'.threads[i].Completing? && !s'.threads[i].forwarded ==> s.queuedRequest && (t == ReadyToDrain || t == Unbinding))
    && s'.unbinding == (s.unbinding || t == Unbinding)
    && s'.mpState == (if t.PowerDecided? then t.target else if t == Filling && ok then D0 else s.mpState)
    && s'.standingBy == StandingByAfter(s, t)
  }

  /** A set-power the upper edge can follow: D0 at any time, anything else only from D0. */
  predicate Follows(s: State, k: Kind) {
    k.SetPower? && k.valid && (s.mpState > D0 ==> k.target == D0)
  }

  /** Standing by after a change of power that left D0, not after one that came back. */
  function StandingByAfter(s: State, t: Thread): bool {
    match t
    case Begun(previous, target) =>
      if target > D0 && previous == D0 then true
      else if target <= D0 && previous > D0 then false else s.standingBy
    case Entered(k) =>
      if Follows(s, k) && s.mpState == D0 && k.target > D0 then true
      else if Follows(s, k) && s.mpState > D0 then false else s.standingBy
    case _ => s.standingBy
  }

  lemma EnteredEffects(s: State, i: nat, k: Kind)
    requires i < |s.threads|
    ensures Effects(s, Enter(s, i, k), Entered(k), i, false, k)
  {
  }

  lemma LookEffects(s: State, i: nat, k: Kind)
    requires i < |s.threads|
    ensures Effects(s, LookPower(s, i, k), NotUnbinding(k), i, false, k)
  {
  }

  lemma DecideEffects(s: State, i: nat, k: Kind)
    requires i < |s.threads|
    ensures Effects(s, Decide(s, i, k), Deciding(k), i, false, k)
  {
  }

  lemma ForwardEffects(s: State, i: nat, k: Kind, handler: bool, pends: bool, ok: bool)
    requires i < |s.threads|
    ensures Effects(s, Forward(s, i, k, handler, pends, ok), Forwarding(k, handler), i, ok, k)
  {
  }

  lemma CompleteEffects(s: State, i: nat, k: Kind, success: bool, forwarded: bool)
    requires i < |s.threads|
    ensures Effects(s, CompleteHead(s, i, k, success), Completing(k, success, forwarded), i, false, k)
  {
  }

  lemma FillEffects(s: State, i: nat, ok: bool, k: Kind)
    requires i < |s.threads|
    ensures Effects(s, Fill(s, i, ok), Filling, i, ok, k)
  {
  }

  lemma ChangePowerEffects(s: State, i: nat, previous: Power, target: Power, k: Kind)
    requires i < |s.threads| && (s.queuedRequest ==> s.request == k)
    ensures Effects(s, ChangePower(s, i, previous, target), Begun(previous, target), i, false, k)
  {
  }

  lemma DrainEffects(s: State, i: nat, k: Kind)
    requires i < |s.threads| && (s.queuedRequest ==> s.request == k)
    ensures Effects(s, Drain(s, i), ReadyToDrain, i, false, k)
    ensures Effects(s, Drain(s, i).(unbinding := true), Unbinding, i, false, k)
  {
  }

  lemma HandlerEffects(s: State, i: nat, pends: bool, ok: bool, k: Kind)
    requires i < |s.threads| && Handling(s.threads[i]) && Has(s.threads[i], k)
    ensures Effects(s, Do(s, i, pends, ok), s.threads[i], i, ok, k)
  {
    match s.threads[i]
    case Entered(_) => EnteredEffects(s, i, k);
    case NotUnbinding(_) => LookEffects(s, i, k);
    case Deciding(_) => DecideEffects(s, i, k);
    case _ =>
  }

  lemma CompleterEffects(s: State, i: nat, pends: bool, ok: bool, k: Kind)
    requires i < |s.threads| && WillComplete(s.threads[i]) && !Handling(s.threads[i]) && Has(s.threads[i], k)
    ensures Effects(s, Do(s, i, pends, ok), s.threads[i], i, ok, k)
  {
    match s.threads[i]
    case Forwarding(_, handler) => ForwardEffects(s, i, k, handler, pends, ok);
    case Completing(_, success, forwarded) => CompleteEffects(s, i, k, success, forwarded);
    case Filling => FillEffects(s, i, ok, k);
    case _ =>
  }

  lemma PowerEffects(s: State, i: nat, pends: bool, ok: bool, k: Kind)
    requires i < |s.threads| && s.threads[i].Begun? && (s.queuedRequest ==> s.request == k)
    ensures Effects(s, Do(s, i, pends, ok), s.threads[i], i, ok, k)
  {
    ChangePowerEffects(s, i, s.threads[i].previous, s.threads[i].target, k);
  }

  lemma EventEffects(s: State, i: nat, pends: bool, ok: bool, k: Kind)
    requires i < |s.threads| && !WillComplete(s.threads[i]) && !s.threads[i].Begun? && (s.queuedRequest ==> s.request == k)
    ensures Effects(s, Do(s, i, pends, ok), s.threads[i], i, ok, k)
  {
    DrainEffects(s, i, k);
  }

  lemma StepEffects(s: State, i: nat, pends: bool, ok: bool, k: Kind)
    requires i < |s.threads| && Has(s.threads[i], k) && (s.queuedRequest ==> s.request == k)
    ensures Effects(s, Do(s, i, pends, ok), s.threads[i], i, ok, k)
  {
    if Handling(s.threads[i]) {
      HandlerEffects(s, i, pends, ok, k);
    } else if WillComplete(s.threads[i]) {
      CompleterEffects(s, i, pends, ok, k);
    } else if s.threads[i].Begun? {
      PowerEffects(s, i, pends, ok, k);
    } else {
      EventEffects(s, i, pends, ok, k);
    }
  }

  // ---- The request a thread has is the current one

  /** Two threads never both have the request. */
  lemma Alone(s: State, i: nat, j: nat)
    requires Inv(s) && i < |s.threads| && j < |s.threads| && i != j && WillComplete(s.threads[i])
    ensures !WillComplete(s.threads[j]) && !s.queuedRequest
  {
    HasItAlone(s, i);
    SumUpdate(s.threads, i, Finished, Owed);
    MarkedIsOwed(s.threads[i := Finished], j);
  }

  /** Every other thread stays what it was; a request the lower miniport pends goes to a thread of its own. */
  lemma OthersStay(s: State, i: nat, pends: bool, ok: bool, j: nat)
    requires i < |s.threads| && j < |Do(s, i, pends, ok).threads| && j != i
    ensures var s' := Do(s, i, pends, ok);
            if j < |s.threads| then s'.threads[j] == s.threads[j]
            else s.threads[i].Forwarding? && s'.threads[j] == Below(s.threads[i].kind)
  {
    if s.threads[i].Forwarding? && pends {
      assert Do(s, i, pends, ok).threads == s.threads[i := Finished] + [Below(s.threads[i].kind)];
    } else {
      MovesAlone(s, i, pends, ok);
    }
  }

  lemma DoKeepsKind(s: State, i: nat, pends: bool, ok: bool, k: Kind)
    requires Inv(s) && KindInv(s, k) && i < |s.threads|
    ensures KindInv(Do(s, i, pends, ok), k)
  {
    var s' := Do(s, i, pends, ok);
    StepEffects(s, i, pends, ok, k);
    if WillComplete(s.threads[i]) {
      HasItAlone(s, i);
    }
    forall j | 0 <= j < |s'.threads|
      ensures Has(s'.threads[j], k) && (s'.threads[j].Deciding? ==> s'.request == k)
    {
      if j != i {
        OthersStay(s, i, pends, ok, j);
        if j < |s.threads| && WillComplete(s.threads[i]) {
          Alone(s, i, j);
        }
      }
    }
  }

  lemma {:induction false} NoneHas(threads: seq<Thread>, i: nat)
    requires Sum(threads, Owed) == 0 && i < |threads|
    ensures !WillComplete(threads[i])
  {
    MarkedIsOwed(threads, i);
  }

  lemma IssueKeepsKind(s: State, k: Kind, kind: Kind)
    requires Inv(s) && KindInv(s, k) && Enabled(s, Issue(kind))
    ensures KindInv(Step(s, Issue(kind)), kind)
  {
    IssueMeansIdle(s, kind);
    var s' := Step(s, Issue(kind));
    forall j | 0 <= j < |s'.threads|
      ensures Has(s'.threads[j], kind) && !s'.threads[j].Deciding?
    {
      if j < |s.threads| {
        NoneHas(s.threads, j);
      }
    }
  }

  lemma {:induction false} RequestsAreCurrent(acts: seq<Action>)
    ensures KindInv(Run(INIT, acts), Current(acts)) && Run(INIT, acts).issued == Issues(acts)
  {
    if acts != [] {
      var front, a := acts[..|acts| - 1], acts[|acts| - 1];
      var s := Run(INIT, front);
      RequestsAreCurrent(front);
      RunKeepsInv(INIT, front);
      StepOnIssued(s, a);
      if Enabled(s, a) {
        match a
        case Issue(kind) => IssueKeepsKind(s, Current(front), kind);
        case PowerEvent(target) => assert Step(s, a).threads == s.threads + [Begun(s.ptState, target)];
        case Unbind => assert Step(s, a).threads == s.threads + [Unbinding];
        case Advance(i, pends, ok) => DoKeepsKind(s, i, pends, ok, Current(front));
      }
    }
  }

  lemma StepOnIssued(s: State, a: Action)
    ensures Step(s, a).issued == s.issued + One(a.Issue? && Enabled(s, a))
  {
    if a.Advance? && a.i < |s.threads| && !(s.threads[a.i].Forwarding? && a.pends) {
      MovesAlone(s, a.i, a.pends, a.ok);
    }
  }

  // ---- What becomes of a queued request

  /** The power-up of the lower edge sends the queued request down: exactly the one NDIS is waiting for, marked outstanding. */
  lemma PowerUpSendsQueued(acts: seq<Action>, i: nat, pends: bool, ok: bool)
    requires var s := Run(INIT, acts);
             s.queuedRequest && i < |s.threads| && s.threads[i].Begun? && s.threads[i].target <= D0
    ensures var s, s' := Run(INIT, acts), Run(INIT, acts + [Advance(i, pends, ok)]);
            && !s'.queuedRequest && s'.outstandingRequests && s'.ptState == s.threads[i].target
            && s'.threads == s.threads[i := Forwarding(Current(acts), false)]
  {
    RequestsAreCurrent(acts);
    assert (acts + [Advance(i, pends, ok)])[..|acts|] == acts;
  }

  /** Thread `i` has taken the queued request at the end of a power-down, or at an unbind. */
  predicate HasDrained(acts: seq<Action>, i: nat) {
    acts != [] &&
    var s, a := Run(INIT, acts[..|acts| - 1]), acts[|acts| - 1];
    || (a.Advance? && a.i == i && i < |s.threads| && s.queuedRequest
        && (s.threads[i] == ReadyToDrain || s.threads[i] == Unbinding))
    || HasDrained(acts[..|acts| - 1], i)
  }

  /** A request is failed without having been forwarded only by a power-down or an unbind that took it off the queue. */
  lemma {:induction false} UnforwardedWasDrained(acts: seq<Action>, i: nat)
    requires var s := Run(INIT, acts); i < |s.threads| && s.threads[i].Completing? && !s.threads[i].forwarded
    ensures HasDrained(acts, i)
  {
    if acts != [] {
      var front, a := acts[..|acts| - 1], acts[|acts| - 1];
      var s := Run(INIT, front);
      RequestsAreCurrent(front);
      if a.Advance? && a.i < |s.threads| {
        if a.i == i {
          StepEffects(s, i, a.pends, a.ok, Current(front));
        } else {
          OthersStay(s, a.i, a.pends, a.ok, i);
        }
      }
      if !(a.Advance? && a.i == i) {
        UnforwardedWasDrained(front, i);
      }
    }
  }

  /** And it does go down: queued while the lower edge is down, sent and completed when it is back. */
  lemma QueuedIsForwarded() returns (acts: seq<Action>)
    ensures var s := Run(INIT, acts);
            && s.completed == [0, 1, 2] && s.issued == 3 && !s.queuedRequest && !s.outstandingRequests && s.ptState == D0
  {
    acts := QueryIsQueued();
    var s := INIT.(ptState := 3, request := Query(false), issued := 3, completed := [0, 1],
                   threads := [Waiting, Finished, Finished, Finished]);
    var before := s.threads;
    acts := Extend(acts, PowerEvent(D0));
    assert Run(INIT, acts) == s.(queuedRequest := true, threads := before + [Begun(3, D0)]);
    acts := Next(acts, 4);
    s := s.(ptState := D0);
    assert Run(INIT, acts) == s.(outstandingRequests := true, threads := before + [Forwarding(Query(false), false)]);
    acts := Next(acts, 4);
    assert Run(INIT, acts) == s.(outstandingRequests := true, threads := before + [Completing(Query(false), true, true)]);
    acts := Next(acts, 4);
    assert Run(INIT, acts) == s.(threads := before + [Notifying]);
    acts := Next(acts, 4);
  }

  // ---- What a handler decides

  /** A request is forwarded by its handler exactly when nothing is unbinding or standing by and the lower edge is at D0; it is
      queued exactly when only the lower edge is not; any other is failed. */
  lemma HandlerDecides(s: State, i: nat, pends: bool, ok: bool)
    requires i < |s.threads| && s.threads[i].Deciding? && !s.queuedRequest
    ensures var s' := Do(s, i, pends, ok);
            && |s'.threads| == |s.threads|
            && (s'.threads[i] == Forwarding(s.threads[i].kind, true) <==> !s.unbinding && !s.standingBy && s.ptState <= D0)
            && (s'.queuedRequest <==> !s.unbinding && !s.standingBy && s.ptState > D0)
            && (s.unbinding || s.standingBy <==> s'.threads[i] == Returning)
  {
  }

  /** A query or a set gets that far exactly when it found no unbind, */
  lemma HandlerEnters(s: State, i: nat, pends: bool, ok: bool)
    requires i < |s.threads| && s.threads[i].Entered? && !s.threads[i].kind.SetPower?
    ensures var k, s' := s.threads[i].kind, Do(s, i, pends, ok);
            && |s'.threads| == |s.threads|
            && (s'.threads[i] == NotUnbinding(k) <==> !k.Local? && !s.unbinding)
            && (s'.threads[i] == Returning <==> k.Local? || s.unbinding)
  {
  }

  /** and the upper edge at D0. */
  lemma HandlerFindsPower(s: State, i: nat, pends: bool, ok: bool)
    requires i < |s.threads| && s.threads[i].NotUnbinding?
    ensures var k, s' := s.threads[i].kind, Do(s, i, pends, ok);
            && |s'.threads| == |s.threads|
            && (s'.threads[i] == Deciding(k) <==> s.mpState <= D0)
            && (s'.threads[i] == Returning <==> s.mpState > D0)
  {
  }

  /** A request the lower miniport pends is completed from there; a set its own handler forwarded, if finished at once, by the
      handler's return, with nothing outstanding any more; any other by whoever forwarded it, as a forwarded request. */
  lemma LowerFinishes(s: State, i: nat, pends: bool, ok: bool)
    requires i < |s.threads| && s.threads[i].Forwarding?
    ensures var k, byHandler, s' := s.threads[i].kind, s.threads[i].handler, Do(s, i, pends, ok);
            if pends then s'.threads == s.threads[i := Finished] + [Below(k)] && s'.outstandingRequests == s.outstandingRequests
            else if byHandler && k == Set then s'.threads == s.threads[i := Returning] && !s'.outstandingRequests
            else s'.threads == s.threads[i := Completing(k, ok, true)] && s'.outstandingRequests == s.outstandingRequests
  {
  }

  /** A completed request is outstanding no more; a successful capabilities query goes on to be filled in. */
  lemma CompletionEnds(s: State, i: nat, pends: bool, ok: bool)
    requires i < |s.threads| && s.threads[i].Completing?
    ensures var t, s' := s.threads[i], Do(s, i, pends, ok);
            && !s'.outstandingRequests
            && s'.threads == s.threads[i := if t.success && t.kind == Query(true) then Filling else Notifying]
  {
  }

  // ---- What the flags remember

  /** `PtUnbindAdapter` has been through its locked region. */
  predicate HasUnbound(acts: seq<Action>) {
    acts != [] &&
    var s, a := Run(INIT, acts[..|acts| - 1]), acts[|acts| - 1];
    (a.Advance? && a.i < |s.threads| && s.threads[a.i] == Unbinding) || HasUnbound(acts[..|acts| - 1])
  }

  /** What the last set-power wrote, or a capabilities query. */
  function UpperState(acts: seq<Action>): Power {
    if acts == [] then D0
    else
      var s, a := Run(INIT, acts[..|acts| - 1]), acts[|acts| - 1];
      if a.Advance? && a.i < |s.threads| && s.threads[a.i].PowerDecided? then s.threads[a.i].target
      else if Overwrites(s, a) then D0
      else UpperState(acts[..|acts| - 1])
  }

  /** What the last change of power of either edge said. */
  function StandsBy(acts: seq<Action>): bool {
    acts != [] &&
    var front := acts[..|acts| - 1];
    var s, a := Run(INIT, front), acts[|acts| - 1];
    if a.Advance? && a.i < |s.threads| then StandingByAfter(s.(standingBy := StandsBy(front)), s.threads[a.i])
    else StandsBy(front)
  }

  /** The flags and the state of the upper edge are what the last to change them said. */
  lemma {:induction false} FlagsRemember(acts: seq<Action>)
    ensures var s := Run(INIT, acts);
            && (s.unbinding <==> HasUnbound(acts)) && s.mpState == UpperState(acts) && (s.standingBy <==> StandsBy(acts))
  {
    if acts != [] {
      var front, a := acts[..|acts| - 1], acts[|acts| - 1];
      var s := Run(INIT, front);
      FlagsRemember(front);
      RequestsAreCurrent(front);
      if a.Advance? && a.i < |s.threads| {
        StepEffects(s, a.i, a.pends, a.ok, Current(front));
      }
    }
  }
}
