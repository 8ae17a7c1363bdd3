/** What becomes of a pended IRP, told from what was done to it: who decides how it ends, how it ends then, who holds its
    firewall request, and in what order the worker takes the IRPs. */
module IrpFates {
  import opened Lists
  import opened PendedIrps

  // ---- How an IRP ends

  /** Decided when the IRP arrives and cannot be pended, when its cancel routine is taken back or taken, and when the worker
      dispatches it. */
  datatype Fate = Undecided | SentAtOnce | Cancelled | ToClients

  function FateAfter(fate: Fate, s: State, a: Action, i: nat): Fate {
    if !Enabled(s, a) then fate
    else
      match a
      case Arrive(requestOk) => if i == |s.irps| && !requestOk then SentAtOnce else fate
      case PendExchange(j) => if i == j && s.irps[i].cancelRoutine then Cancelled else fate
      case CancelExchange(j) => if i == j && s.irps[i].cancelRoutine then Cancelled else fate
      case WorkerDispatch(requestOk) =>
        if s.worker != Holding(i) then fate else if requestOk then ToClients else SentAtOnce
      case _ => fate
  }

  function FateOf(acts: seq<Action>, i: nat): Fate {
    if acts == [] then Undecided
    else FateAfter(FateOf(acts[..|acts| - 1], i), Run(INIT, acts[..|acts| - 1]), acts[|acts| - 1], i)
  }

  /** What was done with an IRP that ended this way. */
  predicate Disposed(r: Irp, fate: Fate) {
    match fate
    case Undecided => false
    case SentAtOnce => r.forwarded == 1 && r.failed == 0 && r.cancelled == 0 && r.finds == 0
    case Cancelled => r.cancelled == 1 && r.forwarded == 0 && r.failed == 0 && r.finds == 0
    case ToClients =>
      && r.cancelled == 0
      && (r.finds == 0 ==> r.failed == 1 && r.forwarded == 0)
      && (r.finds > 0 ==> r.failed == 0 && r.forwarded > 0)
  }

  predicate FateInv(r: Irp, fate: Fate) {
    && (fate == Undecided <==> r.owner == Unpended || r.owner == Listed || r.owner == ByWorker)
    && (r.owner == ByPender || r.owner == ByCanceller ==> fate == Cancelled)
    && (r.owner.ByClients? ==> fate == ToClients)
    && (r.owner == Finished ==> Disposed(r, fate))
  }

  lemma IrpsGrow(s: State, a: Action)
    ensures |Step(s, a).irps| == |s.irps| + One(a.Arrive?)
  {
  }

  lemma {:induction false} UndecidedBeforeArrival(acts: seq<Action>, i: nat)
    requires i >= |Run(INIT, acts).irps|
    ensures FateOf(acts, i) == Undecided
  {
    if acts != [] {
      var front := acts[..|acts| - 1];
      IrpsGrow(Run(INIT, front), acts[|acts| - 1]);
      UndecidedBeforeArrival(front, i);
      UnknownIsUndecided(Run(INIT, front), acts[|acts| - 1], i);
    }
  }

  lemma UnknownIsUndecided(s: State, a: Action, i: nat)
    requires i >= |Step(s, a).irps|
    ensures FateAfter(Undecided, s, a, i) == Undecided
  {
    IrpsGrow(s, a);
  }

  lemma ArrivalFate(s: State, a: Action, i: nat)
    requires Inv(s) && a.Arrive? && i == |s.irps|
    ensures Known(Step(s, a), i) && FateInv(Step(s, a).irps[i], FateAfter(Undecided, s, a, i))
  {
  }

  /** Nothing that decides or disposes. */
  lemma SameFate(r: Irp, r': Irp, fate: Fate)
    requires FateInv(r, fate) && r'.owner == r.owner && r'.forwarded == r.forwarded && r'.failed == r.failed
    requires r'.cancelled == r.cancelled && r'.finds == r.finds
    ensures FateInv(r', fate)
  {
  }

  lemma InsertingFate(r: Irp, fate: Fate)
    requires FateInv(r, fate) && r.owner == Unpended
    ensures FateInv(Inserting(r), fate)
  {
  }

  lemma TakingBackFate(r: Irp, fate: Fate)
    requires FateInv(r, fate) && TokenInv(r)
    ensures FateInv(TakingBack(r), if r.cancelRoutine then Cancelled else fate)
  {
    if !r.cancelRoutine {
      SameFate(r, TakingBack(r), fate);
    }
  }

  lemma CompletingFate(r: Irp, fate: Fate)
    requires FateInv(r, fate) && DispositionInv(r) && r.owner == ByPender
    ensures FateInv(PenderCompleting(r), fate)
  {
  }

  lemma TakingFate(r: Irp, fate: Fate)
    requires FateInv(r, fate) && TokenInv(r) && r.cancelRoutine
    ensures FateInv(Taking(r), fate)
  {
  }

  lemma PenderFate(s: State, a: Action, i: nat, fate: Fate)
    requires Known(s, i) && TokenInv(s.irps[i]) && DispositionInv(s.irps[i]) && FateInv(s.irps[i], fate) && Enabled(s, a)
    requires a == PendInsert(i) || a == PendLook(i) || a == PendExchange(i) || a == PendComplete(i) || a == PendSignal(i)
    ensures FateInv(Step(s, a).irps[i], FateAfter(fate, s, a, i))
  {
    var r, r' := s.irps[i], Step(s, a).irps[i];
    match a
    case PendInsert(_) =>
      InsertingFate(r, fate);
      assert r' == Inserting(r);
    case PendLook(_) =>
      SameFate(r, Looking(r), fate);
      assert r' == Looking(r);
    case PendExchange(_) =>
      TakingBackFate(r, fate);
      assert r' == TakingBack(r);
    case PendComplete(_) =>
      CompletingFate(r, fate);
      assert r' == PenderCompleting(r);
    case PendSignal(_) =>
      SameFate(r, Signalling(r), fate);
      assert r' == Signalling(r);
  }

  lemma ClaimingFate(r: Irp, fate: Fate)
    requires FateInv(r, fate) && TokenInv(r)
    ensures FateInv(Claiming(r), if r.cancelRoutine then Cancelled else fate)
  {
    if !r.cancelRoutine {
      SameFate(r, Claiming(r), fate);
    }
  }

  lemma CancellingFate(r: Irp, fate: Fate)
    requires FateInv(r, fate) && DispositionInv(r) && r.owner == ByCanceller
    ensures FateInv(Cancelling(r), fate)
  {
  }

  lemma CancellerFate(s: State, a: Action, i: nat, fate: Fate)
    requires Known(s, i) && TokenInv(s.irps[i]) && DispositionInv(s.irps[i]) && FateInv(s.irps[i], fate) && Enabled(s, a)
    requires a == CancelFlag(i) || a == CancelExchange(i) || a == CancelRemove(i) || a == CancelComplete(i)
    ensures FateInv(Step(s, a).irps[i], FateAfter(fate, s, a, i))
  {
    var r, r' := s.irps[i], Step(s, a).irps[i];
    match a
    case CancelFlag(_) =>
      SameFate(r, Flagging(r), fate);
      assert r' == Flagging(r);
    case CancelExchange(_) =>
      ClaimingFate(r, fate);
      assert r' == Claiming(r);
    case CancelRemove(_) =>
      SameFate(r, Unlisting(r), fate);
      assert r' == Unlisting(r);
    case CancelComplete(_) =>
      CancellingFate(r, fate);
      assert r' == Cancelling(r);
  }

  /** What the clients do with the IRP while they hold its request neither decides nor ends anything. */
  lemma AtClientsFate(r: Irp, r': Irp)
    requires FateInv(r, ToClients) && r.owner.ByClients? && r'.owner.ByClients?
    ensures FateInv(r', ToClients)
  {
  }

  lemma ClientFate(s: State, a: Action, i: nat, fate: Fate)
    requires Known(s, i) && TokenInv(s.irps[i]) && DispositionInv(s.irps[i]) && FateInv(s.irps[i], fate) && Enabled(s, a)
    requires a == CloneRequest(i) || a == FindIrp(i) || a == SendIrp(i) || a == ClearIrp(i)
    ensures FateInv(Step(s, a).irps[i], FateAfter(fate, s, a, i))
  {
    AtClientsFate(s.irps[i], Step(s, a).irps[i]);
  }

  /** The last drop of the firewall request is the one that can dispose of the IRP. */
  lemma DropFate(r: Irp)
    requires DispositionInv(r) && r.owner.ByClients? && Open(r.owner) < r.owner.references
    ensures FateInv(Dropping(r), ToClients)
  {
  }

  lemma FreeFate(s: State, a: Action, i: nat, fate: Fate)
    requires Known(s, i) && IrpInv(s.irps[i]) && FateInv(s.irps[i], fate) && Enabled(s, a)
    requires a == FreeRequest(i) || (a == WorkerRelease && s.worker == Injecting(i))
    ensures FateInv(Step(s, a).irps[i], FateAfter(fate, s, a, i))
  {
    DropFate(s.irps[i]);
    assert Step(s, a).irps[i] == Dropping(s.irps[i]);
  }

  lemma ScanFate(s: State, i: nat, fate: Fate)
    requires Known(s, i) && TokenInv(s.irps[i]) && FateInv(s.irps[i], fate) && s.worker.Scanning?
    ensures Known(Step(s, WorkerStep), i) && FateInv(Step(s, WorkerStep).irps[i], fate)
  {
    if s.worker.cursor < |s.pending| && Takeable(s, s.worker.cursor) {
      var j := s.pending[s.worker.cursor];
      assert Step(s, WorkerStep).irps == s.irps[j := Taking(s.irps[j])];
      if i == j {
        TakingFate(s.irps[i], fate);
      }
    } else {
      assert Step(s, WorkerStep).irps == s.irps;
    }
  }

  lemma DispatchFate(s: State, requestOk: bool, i: nat, fate: Fate)
    requires Inv(s) && Known(s, i) && FateInv(s.irps[i], fate) && s.worker == Holding(i)
    ensures var a := WorkerDispatch(requestOk);
            Known(Step(s, a), i) && FateInv(Step(s, a).irps[i], FateAfter(fate, s, a, i))
  {
    assert IrpInv(s.irps[i]) && s.irps[i].owner == ByWorker;
    assert Step(s, WorkerDispatch(requestOk)).irps == s.irps[i := Dispatching(s.irps[i], requestOk)];
  }

  /** An action that is about another IRP, or about none. */
  predicate Elsewhere(s: State, a: Action, i: nat) {
    match a
    case Arrive(_) => i < |s.irps|
    case PendInsert(j) => i != j
    case PendLook(j) => i != j
    case PendExchange(j) => i != j
    case PendComplete(j) => i != j
    case PendSignal(j) => i != j
    case CancelFlag(j) => i != j
    case CancelExchange(j) => i != j
    case CancelRemove(j) => i != j
    case CancelComplete(j) => i != j
    case WorkerWake => true
    case WorkerLock => true
    case WorkerStep => false
    case WorkerDispatch(_) => s.worker != Holding(i)
    case WorkerRelease => s.worker != Injecting(i)
    case CloneRequest(j) => i != j
    case FindIrp(j) => i != j
    case SendIrp(j) => i != j
    case ClearIrp(j) => i != j
    case FreeRequest(j) => i != j
  }

  lemma LeftAlone(s: State, a: Action, i: nat)
    requires Known(s, i) && Elsewhere(s, a, i)
    ensures Known(Step(s, a), i) && Step(s, a).irps[i] == s.irps[i]
  {
  }

  lemma StepFate(s: State, a: Action, i: nat, fate: Fate)
    requires Inv(s) && Known(s, i) && FateInv(s.irps[i], fate)
    ensures Known(Step(s, a), i) && FateInv(Step(s, a).irps[i], FateAfter(fate, s, a, i))
  {
    assert IrpInv(s.irps[i]);
    if !Enabled(s, a) {
      assert Step(s, a) == s;
    } else if Elsewhere(s, a, i) {
      LeftAlone(s, a, i);
    } else if a.WorkerStep? {
      ScanFate(s, i, fate);
    } else if a.WorkerDispatch? {
      DispatchFate(s, a.requestOk, i, fate);
    } else {
      OwnStepFate(s, a, i, fate);
    }
  }

  lemma OwnStepFate(s: State, a: Action, i: nat, fate: Fate)
    requires Known(s, i) && IrpInv(s.irps[i]) && FateInv(s.irps[i], fate) && Enabled(s, a)
    requires !Elsewhere(s, a, i) && !a.WorkerStep? && !a.WorkerDispatch?
    ensures Known(Step(s, a), i) && FateInv(Step(s, a).irps[i], FateAfter(fate, s, a, i))
  {
    IrpsGrow(s, a);
    if a.FreeRequest? || a.WorkerRelease? {
      FreeFate(s, a, i, fate);
    } else if a.CloneRequest? || a.FindIrp? || a.SendIrp? || a.ClearIrp? {
      ClientFate(s, a, i, fate);
    } else if a.CancelFlag? || a.CancelExchange? || a.CancelRemove? || a.CancelComplete? {
      CancellerFate(s, a, i, fate);
    } else {
      PenderFate(s, a, i, fate);
    }
  }

  lemma {:induction false} FateHolds(acts: seq<Action>, i: nat)
    requires Known(Run(INIT, acts), i)
    ensures FateInv(Run(INIT, acts).irps[i], FateOf(acts, i))
  {
    var front := acts[..|acts| - 1];
    var s, a := Run(INIT, front), acts[|acts| - 1];
    RunKeepsInv(front);
    if Known(s, i) {
      FateHolds(front, i);
      StepFate(s, a, i, FateOf(front, i));
    } else {
      IrpsGrow(s, a);
      UndecidedBeforeArrival(front, i);
      ArrivalFate(s, a, i);
    }
  }

  /** An IRP is disposed of as was decided: one that could not be pended, or found no client or memory, is sent down; one
      whose cancel routine was taken is cancelled; one that went to the clients is sent down if an injection found it, and
      failed if none did. */
  lemma DisposedByFate(acts: seq<Action>, i: nat)
    requires Known(Run(INIT, acts), i)
    ensures var r, fate := Run(INIT, acts).irps[i], FateOf(acts, i);
            && (r.owner == Finished ==> Disposed(r, fate))
            && (r.owner != Finished && fate != ToClients ==> Dispositions(r) == 0)
            && (r.owner != Finished && fate == ToClients ==>
                  r.failed == 0 && r.cancelled == 0 && (r.forwarded > 0 ==> r.finds > 0))
  {
    RunKeepsInv(acts);
    FateHolds(acts, i);
    assert IrpInv(Run(INIT, acts).irps[i]);
  }

  // ---- Who holds the firewall request

  /** The holders of the firewall request: the worker when it has handed the IRP to the clients, and whoever cloned it, until
      each has dropped it. */
  function HoldersAfter(n: int, s: State, a: Action, i: nat): int {
    if !Enabled(s, a) then n
    else
      match a
      case WorkerDispatch(requestOk) => if s.worker == Holding(i) && requestOk then 1 else n
      case CloneRequest(j) => if i == j then n + 1 else n
      case FreeRequest(j) => if i == j then n - 1 else n
      case WorkerRelease => if s.worker == Injecting(i) then n - 1 else n
      case _ => n
  }

  function HoldersOf(acts: seq<Action>, i: nat): int {
    if acts == [] then 0
    else HoldersAfter(HoldersOf(acts[..|acts| - 1], i), Run(INIT, acts[..|acts| - 1]), acts[|acts| - 1], i)
  }

  predicate HeldBy(r: Irp, n: int) {
    n == if r.owner.ByClients? then r.owner.references else 0
  }

  lemma StepHolders(s: State, a: Action, i: nat, n: int)
    requires Inv(s) && Known(s, i) && HeldBy(s.irps[i], n)
    ensures Known(Step(s, a), i) && HeldBy(Step(s, a).irps[i], HoldersAfter(n, s, a, i))
  {
    assert IrpInv(s.irps[i]);
    if !Enabled(s, a) {
      assert Step(s, a) == s;
    } else if Elsewhere(s, a, i) {
      LeftAlone(s, a, i);
    } else if a.WorkerStep? {
      ScanHolders(s, i, n);
    } else if a.WorkerDispatch? {
      assert s.irps[i].owner == ByWorker;
      assert Step(s, a).irps == s.irps[i := Dispatching(s.irps[i], a.requestOk)];
    } else {
      OwnStepHolders(s, a, i, n);
    }
  }

  lemma ScanHolders(s: State, i: nat, n: int)
    requires Known(s, i) && TokenInv(s.irps[i]) && HeldBy(s.irps[i], n) && s.worker.Scanning?
    ensures Known(Step(s, WorkerStep), i) && HeldBy(Step(s, WorkerStep).irps[i], n)
  {
    if s.worker.cursor < |s.pending| && Takeable(s, s.worker.cursor) {
      var j := s.pending[s.worker.cursor];
      assert Step(s, WorkerStep).irps == s.irps[j := Taking(s.irps[j])];
    } else {
      assert Step(s, WorkerStep).irps == s.irps;
    }
  }

  lemma OwnStepHolders(s: State, a: Action, i: nat, n: int)
    requires Known(s, i) && TokenInv(s.irps[i]) && HeldBy(s.irps[i], n) && Enabled(s, a)
    requires !Elsewhere(s, a, i) && !a.WorkerStep? && !a.WorkerDispatch?
    ensures Known(Step(s, a), i) && HeldBy(Step(s, a).irps[i], HoldersAfter(n, s, a, i))
  {
    IrpsGrow(s, a);
  }

  lemma {:induction false} NoHoldersBeforeArrival(acts: seq<Action>, i: nat)
    requires i >= |Run(INIT, acts).irps|
    ensures HoldersOf(acts, i) == 0
  {
    if acts != [] {
      var front := acts[..|acts| - 1];
      RunKeepsInv(front);
      IrpsGrow(Run(INIT, front), acts[|acts| - 1]);
      NoHoldersBeforeArrival(front, i);
    }
  }

  /** The count of a firewall request is its holders; with the last of them gone the IRP is finished. */
  lemma {:induction false} ReferencesAreHolders(acts: seq<Action>, i: nat)
    requires Known(Run(INIT, acts), i)
    ensures HeldBy(Run(INIT, acts).irps[i], HoldersOf(acts, i))
  {
    var front := acts[..|acts| - 1];
    var s, a := Run(INIT, front), acts[|acts| - 1];
    RunKeepsInv(front);
    IrpsGrow(s, a);
    if Known(s, i) {
      ReferencesAreHolders(front, i);
      StepHolders(s, a, i, HoldersOf(front, i));
    } else {
      NoHoldersBeforeArrival(front, i);
    }
  }

  // ---- Injections

  /** How often a test of the pointer found the IRP, and how often it was sent on. */
  datatype Injections = Injections(cleared: bool, found: nat, sends: nat)

  function InjectionsAfter(n: Injections, s: State, a: Action, i: nat): Injections {
    if !Enabled(s, a) then n
    else if a == FindIrp(i) && !n.cleared then n.(found := n.found + 1)
    else if a == SendIrp(i) then n.(sends := n.sends + 1)
    else if a == ClearIrp(i) then n.(cleared := true)
    else n
  }

  function InjectionsOf(acts: seq<Action>, i: nat): Injections {
    if acts == [] then Injections(false, 0, 0)
    else InjectionsAfter(InjectionsOf(acts[..|acts| - 1], i), Run(INIT, acts[..|acts| - 1]), acts[|acts| - 1], i)
  }

  predicate CountsInjections(r: Irp, n: Injections) {
    && r.finds == n.found
    && (BeforeClients(r.owner) ==> n == Injections(false, 0, 0))
    && (r.owner.ByClients? ==> r.owner.armed == !n.cleared && r.forwarded + r.faults == n.sends)
    && (r.owner == Finished && r.finds > 0 ==> r.forwarded + r.faults == n.sends)
  }

  lemma NoInjection(s: State, a: Action, i: nat, n: Injections)
    requires a != FindIrp(i) && a != SendIrp(i) && a != ClearIrp(i)
    ensures InjectionsAfter(n, s, a, i) == n
  {
  }

  lemma ClientInjections(s: State, a: Action, i: nat, n: Injections)
    requires Known(s, i) && DispositionInv(s.irps[i]) && CountsInjections(s.irps[i], n) && Enabled(s, a)
    requires a == CloneRequest(i) || a == FindIrp(i) || a == SendIrp(i) || a == ClearIrp(i)
    ensures CountsInjections(Step(s, a).irps[i], InjectionsAfter(n, s, a, i))
  {
  }

  lemma FreeInjections(s: State, a: Action, i: nat, n: Injections)
    requires Known(s, i) && DispositionInv(s.irps[i]) && CountsInjections(s.irps[i], n) && Enabled(s, a)
    requires a == FreeRequest(i) || (a == WorkerRelease && s.worker == Injecting(i))
    ensures CountsInjections(Step(s, a).irps[i], n)
  {
    assert Step(s, a).irps[i] == Dropping(s.irps[i]);
  }

  lemma EarlyInjections(s: State, a: Action, i: nat, n: Injections)
    requires Known(s, i) && TokenInv(s.irps[i]) && CountsInjections(s.irps[i], n) && Enabled(s, a)
    requires || a == PendInsert(i) || a == PendLook(i) || a == PendExchange(i) || a == PendComplete(i) || a == PendSignal(i)
             || a == CancelFlag(i) || a == CancelExchange(i) || a == CancelRemove(i) || a == CancelComplete(i)
    requires BeforeClients(s.irps[i].owner) ==> s.irps[i].finds == 0
    ensures CountsInjections(Step(s, a).irps[i], n)
  {
  }

  lemma OwnStepInjections(s: State, a: Action, i: nat, n: Injections)
    requires Known(s, i) && IrpInv(s.irps[i]) && CountsInjections(s.irps[i], n) && Enabled(s, a)
    requires !Elsewhere(s, a, i) && !a.WorkerStep? && !a.WorkerDispatch?
    ensures Known(Step(s, a), i) && CountsInjections(Step(s, a).irps[i], InjectionsAfter(n, s, a, i))
  {
    IrpsGrow(s, a);
    if a.FreeRequest? || a.WorkerRelease? {
      FreeInjections(s, a, i, n);
    } else if a.CloneRequest? || a.FindIrp? || a.SendIrp? || a.ClearIrp? {
      ClientInjections(s, a, i, n);
    } else {
      EarlyInjections(s, a, i, n);
    }
  }

  lemma ScanInjections(s: State, i: nat, n: Injections)
    requires Known(s, i) && TokenInv(s.irps[i]) && CountsInjections(s.irps[i], n) && s.worker.Scanning?
    ensures Known(Step(s, WorkerStep), i) && CountsInjections(Step(s, WorkerStep).irps[i], n)
  {
    if s.worker.cursor < |s.pending| && Takeable(s, s.worker.cursor) {
      var j := s.pending[s.worker.cursor];
      assert Step(s, WorkerStep).irps == s.irps[j := Taking(s.irps[j])];
    } else {
      assert Step(s, WorkerStep).irps == s.irps;
    }
  }

  lemma DispatchInjections(s: State, requestOk: bool, i: nat, n: Injections)
    requires Known(s, i) && IrpInv(s.irps[i]) && s.irps[i].owner == ByWorker && s.worker == Holding(i)
    requires CountsInjections(s.irps[i], n)
    ensures Known(Step(s, WorkerDispatch(requestOk)), i)
    ensures CountsInjections(Step(s, WorkerDispatch(requestOk)).irps[i], n)
  {
    assert Step(s, WorkerDispatch(requestOk)).irps == s.irps[i := Dispatching(s.irps[i], requestOk)];
  }

  lemma OtherStepInjections(s: State, a: Action, i: nat, n: Injections)
    requires Known(s, i) && IrpInv(s.irps[i]) && (s.worker == Holding(i) ==> s.irps[i].owner == ByWorker)
    requires CountsInjections(s.irps[i], n) && Enabled(s, a)
    requires Elsewhere(s, a, i) || a.WorkerStep? || a.WorkerDispatch?
    ensures Known(Step(s, a), i) && CountsInjections(Step(s, a).irps[i], n)
  {
    if Elsewhere(s, a, i) {
      LeftAlone(s, a, i);
    } else if a.WorkerStep? {
      ScanInjections(s, i, n);
    } else {
      DispatchInjections(s, a.requestOk, i, n);
    }
  }

  lemma StepInjections(s: State, a: Action, i: nat, n: Injections)
    requires Known(s, i) && IrpInv(s.irps[i]) && (s.worker == Holding(i) ==> s.irps[i].owner == ByWorker)
    requires CountsInjections(s.irps[i], n)
    ensures Known(Step(s, a), i) && CountsInjections(Step(s, a).irps[i], InjectionsAfter(n, s, a, i))
  {
    if !Enabled(s, a) {
      assert Step(s, a) == s;
    } else if Elsewhere(s, a, i) || a.WorkerStep? || a.WorkerDispatch? {
      NoInjection(s, a, i, n);
      OtherStepInjections(s, a, i, n);
    } else {
      OwnStepInjections(s, a, i, n);
    }
  }

  lemma {:induction false} NoInjectionsBeforeArrival(acts: seq<Action>, i: nat)
    requires i >= |Run(INIT, acts).irps|
    ensures InjectionsOf(acts, i) == Injections(false, 0, 0)
  {
    if acts != [] {
      var front := acts[..|acts| - 1];
      IrpsGrow(Run(INIT, front), acts[|acts| - 1]);
      NoInjectionsBeforeArrival(front, i);
    }
  }

  /** The pointer of an IRP at the clients is set until an injection has cleared it; every test of it until then finds the
      IRP, and every send is one that forwards it or goes through the cleared pointer. */
  lemma {:induction false} InjectionsAreCounted(acts: seq<Action>, i: nat)
    requires Known(Run(INIT, acts), i)
    ensures CountsInjections(Run(INIT, acts).irps[i], InjectionsOf(acts, i))
  {
    var front := acts[..|acts| - 1];
    var s, a := Run(INIT, front), acts[|acts| - 1];
    RunKeepsInv(front);
    IrpsGrow(s, a);
    if Known(s, i) {
      InjectionsAreCounted(front, i);
      assert IrpInv(s.irps[i]);
      StepInjections(s, a, i, InjectionsOf(front, i));
    } else {
      NoInjectionsBeforeArrival(front, i);
    }
  }

  // ---- No cancellation is lost

  /** `IoCancelIrp` has been called for the IRP. */
  predicate CancelRequested(acts: seq<Action>, i: nat) {
    acts != [] &&
    ((acts[|acts| - 1] == CancelFlag(i) && Enabled(Run(INIT, acts[..|acts| - 1]), CancelFlag(i)))
     || CancelRequested(acts[..|acts| - 1], i))
  }

  /** The flag says whether the IRP was cancelled; and one that was, and that its pender has done with, still has its
      canceller to come while it is on the list. */
  predicate CancelNoticed(r: Irp, requested: bool) {
    && (r.cancel <==> requested)
    && (r.canceller == NoCancel <==> !requested)
    && (requested && r.owner == Listed && !HoldsLock(r) ==> r.canceller == Flagged)
    && (r.pender == SawCancel ==> requested)
  }

  lemma OwnStepNotices(s: State, a: Action, i: nat, requested: bool)
    requires Known(s, i) && TokenInv(s.irps[i]) && CancelNoticed(s.irps[i], requested) && Enabled(s, a)
    requires !Elsewhere(s, a, i) && !a.WorkerStep?
    requires a.WorkerDispatch? ==> s.irps[i].owner == ByWorker
    ensures Known(Step(s, a), i) && CancelNoticed(Step(s, a).irps[i], requested || a == CancelFlag(i))
  {
    IrpsGrow(s, a);
  }

  lemma ScanNotices(s: State, i: nat, requested: bool)
    requires Known(s, i) && CancelNoticed(s.irps[i], requested) && s.worker.Scanning?
    ensures Known(Step(s, WorkerStep), i) && CancelNoticed(Step(s, WorkerStep).irps[i], requested)
  {
    if s.worker.cursor < |s.pending| && Takeable(s, s.worker.cursor) {
      var j := s.pending[s.worker.cursor];
      assert Step(s, WorkerStep).irps == s.irps[j := Taking(s.irps[j])];
    } else {
      assert Step(s, WorkerStep).irps == s.irps;
    }
  }

  lemma StepNotices(s: State, a: Action, i: nat, requested: bool)
    requires Inv(s) && Known(s, i) && CancelNoticed(s.irps[i], requested)
    ensures Known(Step(s, a), i)
    ensures CancelNoticed(Step(s, a).irps[i], requested || (a == CancelFlag(i) && Enabled(s, a)))
  {
    assert IrpInv(s.irps[i]);
    if !Enabled(s, a) {
      assert Step(s, a) == s;
    } else if Elsewhere(s, a, i) {
      LeftAlone(s, a, i);
    } else if a.WorkerStep? {
      ScanNotices(s, i, requested);
    } else {
      OwnStepNotices(s, a, i, requested);
    }
  }

  lemma {:induction false} NotRequestedBeforeArrival(acts: seq<Action>, i: nat)
    requires i >= |Run(INIT, acts).irps|
    ensures !CancelRequested(acts, i)
  {
    if acts != [] {
      var front := acts[..|acts| - 1];
      IrpsGrow(Run(INIT, front), acts[|acts| - 1]);
      NotRequestedBeforeArrival(front, i);
    }
  }

  lemma {:induction false} CancelsAreNoticed(acts: seq<Action>, i: nat)
    requires Known(Run(INIT, acts), i)
    ensures CancelNoticed(Run(INIT, acts).irps[i], CancelRequested(acts, i))
  {
    var front := acts[..|acts| - 1];
    var s, a := Run(INIT, front), acts[|acts| - 1];
    RunKeepsInv(front);
    IrpsGrow(s, a);
    if Known(s, i) {
      CancelsAreNoticed(front, i);
      StepNotices(s, a, i, CancelRequested(front, i));
    } else {
      NotRequestedBeforeArrival(front, i);
    }
  }

  /** A cancellation is never lost: while a cancelled IRP is on the list, its canceller or its pender will still look, and
      whoever does finds the cancel routine set. */
  lemma NoLostCancel(acts: seq<Action>, i: nat)
    requires var s := Run(INIT, acts); Known(s, i) && s.irps[i].owner == Listed && CancelRequested(acts, i)
    ensures var s := Run(INIT, acts);
            && (|| Enabled(s, CancelExchange(i)) || Enabled(s, PendExchange(i))
                || (Enabled(s, PendLook(i)) && Enabled(Step(s, PendLook(i)), PendExchange(i))))
            && s.irps[i].cancelRoutine
  {
    RunKeepsInv(acts);
    CancelsAreNoticed(acts, i);
    assert IrpInv(Run(INIT, acts).irps[i]);
  }

  // ---- In the order they were pended

  /** When the IRP was put on the list. */
  function PendedAt(acts: seq<Action>, i: nat): nat {
    if acts == [] then 0
    else if acts[|acts| - 1] == PendInsert(i) && Enabled(Run(INIT, acts[..|acts| - 1]), PendInsert(i)) then |acts|
    else PendedAt(acts[..|acts| - 1], i)
  }

  ghost predicate InOrder(acts: seq<Action>, pending: seq<nat>) {
    && (forall k :: 0 <= k < |pending| ==> PendedAt(acts, pending[k]) <= |acts|)
    && forall j, k :: 0 <= j < k < |pending| ==> PendedAt(acts, pending[j]) < PendedAt(acts, pending[k])
  }

  lemma SelectionInOrder(acts: seq<Action>, pending: seq<nat>, rest: seq<nat>, from: seq<nat>)
    requires InOrder(acts, pending) && Selects(pending, rest, from)
    ensures InOrder(acts, rest)
  {
  }

  lemma RemovalInOrder(acts: seq<Action>, pending: seq<nat>, k: nat)
    requires InOrder(acts, pending) && k < |pending|
    ensures InOrder(acts, RemoveAt(pending, k))
  {
    var rest := RemoveAt(pending, k);
    SelectionInOrder(acts, pending, rest, seq(|rest|, j requires 0 <= j < |rest| => if j < k then j else j + 1));
  }

  /** What a step can do to the list: add at the tail, or take out. */
  lemma StepOnPending(s: State, a: Action)
    ensures var p, p' := s.pending, Step(s, a).pending;
            || (p' == p && (a.PendInsert? ==> !Enabled(s, a)))
            || (a.PendInsert? && Enabled(s, a) && p' == p + [a.i])
            || (!a.PendInsert? && exists i :: p' == Without(p, i))
            || (!a.PendInsert? && exists k: nat :: k < |p| && p' == RemoveAt(p, k))
  {
    if a.WorkerStep? && Enabled(s, a) && s.worker.cursor < |s.pending| && Takeable(s, s.worker.cursor) {
      assert Step(s, a).pending == RemoveAt(s.pending, s.worker.cursor);
    } else if (a.PendExchange? || a.CancelRemove?) && Enabled(s, a) {
      assert Step(s, a).pending == s.pending || Step(s, a).pending == Without(s.pending, a.i);
    }
  }

  lemma SamePlaces(acts: seq<Action>, pending: seq<nat>)
    requires acts != [] && InOrder(acts[..|acts| - 1], pending)
    requires !(acts[|acts| - 1].PendInsert? && Enabled(Run(INIT, acts[..|acts| - 1]), acts[|acts| - 1]))
    ensures InOrder(acts, pending)
  {
  }

  lemma UnpendedIsOffList(s: State, i: nat)
    requires Inv(s) && Known(s, i) && s.irps[i].owner == Unpended
    ensures i !in s.pending
  {
    assert IrpInv(s.irps[i]);
    assert TokenInv(s.irps[i]);
  }

  lemma InsertedLast(acts: seq<Action>, i: nat)
    requires acts != [] && acts[|acts| - 1] == PendInsert(i) && Enabled(Run(INIT, acts[..|acts| - 1]), PendInsert(i))
    requires InOrder(acts[..|acts| - 1], Run(INIT, acts[..|acts| - 1]).pending)
    ensures InOrder(acts, Run(INIT, acts[..|acts| - 1]).pending + [i])
  {
    var front := acts[..|acts| - 1];
    var s := Run(INIT, front);
    RunKeepsInv(front);
    UnpendedIsOffList(s, i);
    assert forall k :: 0 <= k < |s.pending| ==> PendedAt(acts, s.pending[k]) == PendedAt(front, s.pending[k]);
  }

  /** The list is in the order in which its IRPs were pended. */
  lemma {:induction false} ListIsInOrder(acts: seq<Action>)
    ensures InOrder(acts, Run(INIT, acts).pending)
  {
    if acts != [] {
      var front, a := acts[..|acts| - 1], acts[|acts| - 1];
      var s := Run(INIT, front);
      ListIsInOrder(front);
      StepOnPending(s, a);
      if a.PendInsert? && Enabled(s, a) {
        InsertedLast(acts, a.i);
      } else {
        SamePlaces(acts, s.pending);
        if i :| Step(s, a).pending == Without(s.pending, i) {
          var from := WithoutKeepsOrder(s.pending, i);
          SelectionInOrder(acts, s.pending, Without(s.pending, i), from);
        } else if k: nat :| k < |s.pending| && Step(s, a).pending == RemoveAt(s.pending, k) {
          RemovalInOrder(acts, s.pending, k);
        }
      }
    }
  }

  /** What the scan cannot take has been claimed. */
  lemma PassedIsClaimed(s: State, k: nat)
    requires IrpsInv(s.irps) && ListInv(s.irps, s.pending) && k < |s.pending| && !Takeable(s, k)
    ensures Known(s, s.pending[k]) && s.irps[s.pending[k]].canceller == Claimed
  {
    var j := s.pending[k];
    assert j in s.pending;
    assert IrpInv(s.irps[j]);
    assert OnList(s.irps[j]) && TokenInv(s.irps[j]);
  }

  lemma TakenAtCursor(s: State, i: nat)
    requires Enabled(s, WorkerStep) && Step(s, WorkerStep).worker == Holding(i)
    ensures s.worker.cursor < |s.pending| && s.pending[s.worker.cursor] == i
  {
  }

  lemma PendedBefore(acts: seq<Action>, pending: seq<nat>, c: nat, j: nat) returns (k: nat)
    requires InOrder(acts, pending) && c < |pending| && j in pending && PendedAt(acts, j) < PendedAt(acts, pending[c])
    ensures k < c && pending[k] == j
  {
    k :| 0 <= k < |pending| && pending[k] == j;
  }

  /** The worker takes first what was pended first: whatever on the list was pended before the IRP it takes has been claimed by
      its canceller. */
  lemma OldestFirst(acts: seq<Action>, i: nat, j: nat)
    requires var s := Run(INIT, acts);
             Enabled(s, WorkerStep) && Step(s, WorkerStep).worker == Holding(i) && j in s.pending
    requires PendedAt(acts, j) < PendedAt(acts, i)
    ensures var s := Run(INIT, acts); Known(s, j) && s.irps[j].canceller == Claimed
  {
    var s := Run(INIT, acts);
    RunKeepsInv(acts);
    ListIsInOrder(acts);
    TakenAtCursor(s, i);
    var k := PendedBefore(acts, s.pending, s.worker.cursor, j);
    PassedIsClaimed(s, k);
  }

  // ---- The worker's event

  /** The event was set, by a pender or a canceller as its last act, since the worker last woke. */
  predicate Signalled(acts: seq<Action>) {
    acts != [] &&
    var front, a := acts[..|acts| - 1], acts[|acts| - 1];
    var known := Enabled(Run(INIT, front), a);
    (known && (a.PendSignal? || a.CancelComplete?)) || (!(known && a.WorkerWake?) && Signalled(front))
  }

  lemma StepOnEvent(s: State, a: Action)
    ensures Step(s, a).event == if !Enabled(s, a) then s.event
                                else if a.PendSignal? || a.CancelComplete? then true
                                else if a.WorkerWake? then false else s.event
  {
  }

  lemma {:induction false} EventIsSignal(acts: seq<Action>)
    ensures Run(INIT, acts).event <==> Signalled(acts)
  {
    if acts != [] {
      EventIsSignal(acts[..|acts| - 1]);
      StepOnEvent(Run(INIT, acts[..|acts| - 1]), acts[|acts| - 1]);
    }
  }
}
