/** IRPs pended by the firewall: the pender, the I/O manager's cancellation, the worker thread and the clients race over
    each of them, and the atomic exchange of the cancel routine decides who owns it. */
module PendedIrps {
  import opened Lists

  /** Where `tdiPendIrp` stands for an IRP. It holds the list lock while `Inserted` and `SawCancel`. */
  datatype Pender = NotStarted | Inserted | SawCancel | MustComplete | MustSignal | PendDone

  /** Where the cancellation of an IRP stands: the I/O manager sets the flag, takes the routine, and calls it if there
      was one. */
  datatype Canceller = NoCancel | Flagged | Missed | Claimed | Removed | CancelDone

  /** Who will dispose of the IRP. `ByClients` counts the references on its firewall request, the injections that found
      the IRP but have not sent it (`found`) and those that have sent it but not cleared the pointer (`sent`); `armed`
      says that the pointer `m_pIrp` is still set. */
  datatype Owner =
    | Unpended
    | Listed
    | ByPender
    | ByCanceller
    | ByWorker
    | ByClients(references: nat, found: nat, sent: nat, armed: bool)
    | Finished

  /** `cancelRoutine` and `cancel` are the fields of the IRP; the counters are history: dispositions by kind, sends
      through an already cleared pointer, injections that found the IRP, and times its request was recycled. */
  datatype Irp = Irp(cancelRoutine: bool, cancel: bool, pender: Pender, canceller: Canceller, owner: Owner,
                     forwarded: nat, failed: nat, cancelled: nat, faults: nat, finds: nat, recycled: nat)

  const NEW_IRP := Irp(false, false, NotStarted, NoCancel, Unpended, 0, 0, 0, 0, 0, 0)

  datatype Lock = Unlocked | PenderHolds(i: nat) | WorkerHolds

  datatype Worker = Sleeping | Awake | Scanning(cursor: nat) | Holding(i: nat) | Injecting(i: nat) | Relocking

  /** `pending` is g_PendingRequestList, one request per IRP; `event` is g_FwThreadEvent. */
  datatype State = State(irps: seq<Irp>, pending: seq<nat>, lock: Lock, worker: Worker, event: bool)

  const INIT := State([], [], Unlocked, Sleeping, false)

  datatype Action =
    | Arrive(requestOk: bool)            // tdiConnectionOk: with no request to pend it on, the IRP is sent at once
    | PendInsert(i: nat)                 // lock, insert, set the cancel routine
    | PendLook(i: nat)                   // read the cancel flag
    | PendExchange(i: nat)               // take the routine back, if it is still there
    | PendComplete(i: nat)
    | PendSignal(i: nat)
    | CancelFlag(i: nat)                 // IoCancelIrp sets the flag
    | CancelExchange(i: nat)             // and takes the routine
    | CancelRemove(i: nat)               // tdiCancelIrp: locked removal
    | CancelComplete(i: nat)
    | WorkerWake
    | WorkerLock
    | WorkerStep                         // one entry of the scan, or its end
    | WorkerDispatch(requestOk: bool)    // a client is connected and a firewall request was allocated
    | WorkerRelease
    | CloneRequest(i: nat)
    | FindIrp(i: nat)                    // InjectLoopbackRequest tests m_pIrp
    | SendIrp(i: nat)                    // and chains the IRP
    | ClearIrp(i: nat)                   // and clears m_pIrp
    | FreeRequest(i: nat)

  predicate Known(s: State, i: nat) { i < |s.irps| }

  /** The IRP is known and its firewall request is in the clients' hands. */
  predicate AtClients(s: State, i: nat) {
    Known(s, i) && s.irps[i].owner.ByClients?
  }

  /** Someone holds a reference on the firewall request without being inside an injection; while the worker has its own
      reference, that one is not counted. */
  predicate HasIdleReference(s: State, i: nat, workers: nat) {
    AtClients(s, i) && Open(s.irps[i].owner) + workers < s.irps[i].owner.references
  }

  predicate Enabled(s: State, a: Action) {
    match a
    case Arrive(_) => true
    case PendInsert(i) => Known(s, i) && s.irps[i].owner == Unpended && s.lock == Unlocked
    case PendLook(i) => Known(s, i) && s.lock == PenderHolds(i) && s.irps[i].pender == Inserted
    case PendExchange(i) => Known(s, i) && s.lock == PenderHolds(i) && s.irps[i].pender == SawCancel
    case PendComplete(i) => Known(s, i) && s.irps[i].pender == MustComplete
    case PendSignal(i) => Known(s, i) && s.irps[i].pender == MustSignal
    case CancelFlag(i) => Known(s, i) && s.irps[i].canceller == NoCancel
    case CancelExchange(i) => Known(s, i) && s.irps[i].canceller == Flagged
    case CancelRemove(i) => Known(s, i) && s.irps[i].canceller == Claimed && s.lock == Unlocked
    case CancelComplete(i) => Known(s, i) && s.irps[i].canceller == Removed
    case WorkerWake => s.worker == Sleeping && s.event
    case WorkerLock => (s.worker == Awake || s.worker == Relocking) && s.lock == Unlocked
    case WorkerStep => s.worker.Scanning?
    case WorkerDispatch(_) => s.worker.Holding? && Known(s, s.worker.i)
    case WorkerRelease => s.worker.Injecting? && HasIdleReference(s, s.worker.i, 0)
    case CloneRequest(i) => AtClients(s, i) && s.irps[i].owner.references > 0
    case FindIrp(i) => HasIdleReference(s, i, 0)
    case SendIrp(i) => AtClients(s, i) && s.irps[i].owner.found > 0
    case ClearIrp(i) => AtClients(s, i) && s.irps[i].owner.sent > 0
    case FreeRequest(i) => HasIdleReference(s, i, if s.worker == Injecting(i) then 1 else 0)
  }

  /** Injections in progress; each is made by a holder of a reference. */
  function Open(o: Owner): nat
    requires o.ByClients?
  {
    o.found + o.sent
  }

  // ---- What each action does to an IRP

  function Arrived(requestOk: bool): Irp {
    if requestOk then NEW_IRP else NEW_IRP.(owner := Finished, forwarded := 1)
  }

  function Inserting(r: Irp): Irp {
    r.(owner := Listed, cancelRoutine := true, pender := Inserted)
  }

  function Looking(r: Irp): Irp {
    r.(pender := if r.cancel then SawCancel else MustSignal)
  }

  function TakingBack(r: Irp): Irp {
    if r.cancelRoutine then
      r.(cancelRoutine := false, owner := ByPender, pender := MustComplete, recycled := r.recycled + 1)
    else r.(pender := MustSignal)
  }

  function PenderCompleting(r: Irp): Irp {
    r.(owner := Finished, cancelled := r.cancelled + 1, pender := MustSignal)
  }

  function Signalling(r: Irp): Irp {
    r.(pender := PendDone)
  }

  function Flagging(r: Irp): Irp {
    r.(cancel := true, canceller := Flagged)
  }

  function Claiming(r: Irp): Irp {
    if r.cancelRoutine then r.(cancelRoutine := false, owner := ByCanceller, canceller := Claimed)
    else r.(canceller := Missed)
  }

  function Unlisting(r: Irp): Irp {
    r.(canceller := Removed, recycled := r.recycled + 1)
  }

  function Cancelling(r: Irp): Irp {
    r.(owner := Finished, cancelled := r.cancelled + 1, canceller := CancelDone)
  }

  function Taking(r: Irp): Irp {
    r.(cancelRoutine := false, owner := ByWorker)
  }

  function Dispatching(r: Irp, requestOk: bool): Irp {
    if requestOk then r.(owner := ByClients(1, 0, 0, true))
    else r.(owner := Finished, forwarded := r.forwarded + 1, recycled := r.recycled + 1)
  }

  function Cloning(r: Irp): Irp
    requires r.owner.ByClients?
  {
    r.(owner := r.owner.(references := r.owner.references + 1))
  }

  function Finding(r: Irp): Irp
    requires r.owner.ByClients?
  {
    if r.owner.armed then r.(owner := r.owner.(found := r.owner.found + 1), finds := r.finds + 1) else r
  }

  function Sending(r: Irp): Irp
    requires r.owner.ByClients? && r.owner.found > 0
  {
    var r' := r.(owner := r.owner.(found := r.owner.found - 1, sent := r.owner.sent + 1));
    if r.owner.armed then r'.(forwarded := r.forwarded + 1) else r'.(faults := r.faults + 1)
  }

  function Clearing(r: Irp): Irp
    requires r.owner.ByClients? && r.owner.sent > 0
  {
    r.(owner := r.owner.(sent := r.owner.sent - 1, armed := false))
  }

  /** Dropping a reference on the firewall request; the last one fails an IRP nobody sent and recycles the request. */
  function Dropping(r: Irp): Irp
    requires r.owner.ByClients? && r.owner.references > 0
  {
    if r.owner.references > 1 then r.(owner := r.owner.(references := r.owner.references - 1))
    else r.(owner := Finished, failed := if r.owner.armed then r.failed + 1 else r.failed, recycled := r.recycled + 1)
  }

  // ---- What each action does to the state

  function Put(s: State, i: nat, r: Irp): State
    requires Known(s, i)
  {
    s.(irps := s.irps[i := r])
  }

  /** The scan: an entry whose cancel routine is still set is taken and the scan will restart at the head; one whose
      routine is gone is passed over. */
  function Scan(s: State, cursor: nat): State {
    if cursor >= |s.pending| then s.(worker := Sleeping, lock := Unlocked)
    else if Takeable(s, cursor) then Take(s, cursor)
    else s.(worker := Scanning(cursor + 1))
  }

  predicate Takeable(s: State, k: nat)
    requires k < |s.pending|
  {
    Known(s, s.pending[k]) && s.irps[s.pending[k]].cancelRoutine
  }

  function Take(s: State, cursor: nat): State
    requires cursor < |s.pending| && Takeable(s, cursor)
  {
    var i := s.pending[cursor];
    Put(s, i, Taking(s.irps[i])).(pending := s.pending[..cursor] + s.pending[cursor + 1..],
                                  worker := Holding(i), lock := Unlocked)
  }

  function Insert(s: State, i: nat): State
    requires Known(s, i)
  {
    Put(s, i, Inserting(s.irps[i])).(pending := s.pending + [i], lock := PenderHolds(i))
  }

  function Look(s: State, i: nat): State
    requires Known(s, i)
  {
    var s' := Put(s, i, Looking(s.irps[i]));
    if s.irps[i].cancel then s' else s'.(lock := Unlocked)
  }

  function Exchange(s: State, i: nat): State
    requires Known(s, i)
  {
    var s' := Put(s, i, TakingBack(s.irps[i])).(lock := Unlocked);
    if s.irps[i].cancelRoutine then s'.(pending := Without(s.pending, i)) else s'
  }

  function Dispatch(s: State, i: nat, requestOk: bool): State
    requires Known(s, i)
  {
    Put(s, i, Dispatching(s.irps[i], requestOk)).(worker := if requestOk then Injecting(i) else Relocking)
  }

  function Step(s: State, a: Action): State {
    if !Enabled(s, a) then s
    else
      match a
      case Arrive(requestOk) => s.(irps := s.irps + [Arrived(requestOk)])
      case PendInsert(i) => Insert(s, i)
      case PendLook(i) => Look(s, i)
      case PendExchange(i) => Exchange(s, i)
      case PendComplete(i) => Put(s, i, PenderCompleting(s.irps[i]))
      case PendSignal(i) => Put(s, i, Signalling(s.irps[i])).(event := true)
      case CancelFlag(i) => Put(s, i, Flagging(s.irps[i]))
      case CancelExchange(i) => Put(s, i, Claiming(s.irps[i]))
      case CancelRemove(i) => Put(s, i, Unlisting(s.irps[i])).(pending := Without(s.pending, i))
      case CancelComplete(i) => Put(s, i, Cancelling(s.irps[i])).(event := true)
      case WorkerWake => s.(worker := Awake, event := false)
      case WorkerLock => s.(worker := Scanning(0), lock := WorkerHolds)
      case WorkerStep => Scan(s, s.worker.cursor)
      case WorkerDispatch(requestOk) => Dispatch(s, s.worker.i, requestOk)
      case WorkerRelease => Put(s, s.worker.i, Dropping(s.irps[s.worker.i])).(worker := Relocking)
      case CloneRequest(i) => Put(s, i, Cloning(s.irps[i]))
      case FindIrp(i) => Put(s, i, Finding(s.irps[i]))
      case SendIrp(i) => Put(s, i, Sending(s.irps[i]))
      case ClearIrp(i) => Put(s, i, Clearing(s.irps[i]))
      case FreeRequest(i) => Put(s, i, Dropping(s.irps[i]))
  }

  function Run(s: State, acts: seq<Action>): State {
    if acts == [] then s else Step(Run(s, acts[..|acts| - 1]), acts[|acts| - 1])
  }

  // ---- The invariant of one IRP

  function Dispositions(r: Irp): nat {
    r.forwarded + r.failed + r.cancelled
  }

  predicate BeforeClients(o: Owner) {
    o == Unpended || o == Listed || o == ByPender || o == ByCanceller || o == ByWorker
  }

  /** The cancel routine is set exactly while the IRP is on the list unclaimed; whoever takes it off owns the IRP. */
  predicate TokenInv(r: Irp) {
    && (r.cancelRoutine <==> r.owner == Listed)
    && (r.pender == NotStarted ==> r.owner == Unpended || r.owner == Finished)
    && (r.owner == Unpended ==> r.pender == NotStarted)
    && (r.owner == ByPender <==> r.pender == MustComplete)
    && (r.owner == ByCanceller <==> r.canceller == Claimed || r.canceller == Removed)
    && (HoldsLock(r) ==> r.owner == Listed || r.canceller == Claimed)
    && (r.canceller == CancelDone ==> r.owner == Finished && r.cancelled == 1 && r.finds == 0)
  }

  /** The request is recycled by whoever takes the IRP off the list or by the last reference, and only then. */
  predicate RecycleInv(r: Irp) {
    && r.recycled == (if r.owner == ByPender || r.canceller == Removed || (r.owner == Finished && r.pender != NotStarted)
                      then 1 else 0)
  }

  /** Nobody disposes of an IRP before its owner does; at the clients, every injection that found the IRP has sent it,
      faulted, or is still to send it. */
  predicate DispositionInv(r: Irp) {
    && (BeforeClients(r.owner) ==> Dispositions(r) == 0 && r.finds == 0 && r.faults == 0)
    && (r.owner.ByClients? ==>
          && Open(r.owner) <= r.owner.references && r.owner.references > 0
          && r.failed == 0 && r.cancelled == 0
          && r.finds == r.forwarded + r.faults + r.owner.found
          && (r.owner.armed ==> r.faults == 0 && r.forwarded == r.owner.sent)
          && (!r.owner.armed ==> r.forwarded > 0))
    && (r.owner == Finished ==>
          if r.finds == 0 then Dispositions(r) == 1 && r.faults == 0
          else Dispositions(r) == r.forwarded && r.forwarded > 0 && r.finds == r.forwarded + r.faults)
  }

  predicate IrpInv(r: Irp) {
    TokenInv(r) && RecycleInv(r) && DispositionInv(r)
  }

  predicate OnList(r: Irp) {
    r.owner == Listed || r.canceller == Claimed
  }

  predicate HoldsLock(r: Irp) {
    r.pender == Inserted || r.pender == SawCancel
  }

  lemma InsertingKeepsIrp(r: Irp)
    requires IrpInv(r) && r.owner == Unpended
    ensures IrpInv(Inserting(r))
  {
  }

  lemma LookingKeepsIrp(r: Irp)
    requires IrpInv(r) && r.pender == Inserted
    ensures IrpInv(Looking(r))
  {
  }

  lemma TakingBackKeepsIrp(r: Irp)
    requires IrpInv(r) && r.pender == SawCancel
    ensures IrpInv(TakingBack(r))
  {
  }

  lemma CompletingKeepsIrp(r: Irp)
    requires IrpInv(r) && r.pender == MustComplete
    ensures IrpInv(PenderCompleting(r))
  {
  }

  lemma SignallingKeepsIrp(r: Irp)
    requires IrpInv(r) && r.pender == MustSignal
    ensures IrpInv(Signalling(r))
  {
  }

  lemma FlaggingKeepsIrp(r: Irp)
    requires IrpInv(r) && r.canceller == NoCancel
    ensures IrpInv(Flagging(r))
  {
  }

  lemma ClaimingKeepsDisposition(r: Irp)
    requires TokenInv(r) && DispositionInv(r)
    ensures DispositionInv(Claiming(r))
  {
  }

  lemma ClaimingKeepsIrp(r: Irp)
    requires IrpInv(r) && r.canceller == Flagged
    ensures IrpInv(Claiming(r))
  {
    ClaimingKeepsDisposition(r);
  }

  lemma UnlistingKeepsIrp(r: Irp)
    requires IrpInv(r) && r.canceller == Claimed && !HoldsLock(r)
    ensures IrpInv(Unlisting(r))
  {
  }

  lemma CancellingKeepsIrp(r: Irp)
    requires IrpInv(r) && r.canceller == Removed
    ensures IrpInv(Cancelling(r)) && !HoldsLock(r)
  {
  }

  lemma TakingKeepsIrp(r: Irp)
    requires IrpInv(r) && r.cancelRoutine && !HoldsLock(r)
    ensures IrpInv(Taking(r))
  {
  }

  lemma DispatchingKeepsIrp(r: Irp, requestOk: bool)
    requires IrpInv(r) && r.owner == ByWorker
    ensures IrpInv(Dispatching(r, requestOk))
  {
  }

  lemma ArrivedIsSound(requestOk: bool)
    ensures IrpInv(Arrived(requestOk))
  {
    var r := Arrived(requestOk);
    if requestOk {
      assert r == Irp(false, false, NotStarted, NoCancel, Unpended, 0, 0, 0, 0, 0, 0);
    } else {
      assert r == Irp(false, false, NotStarted, NoCancel, Finished, 1, 0, 0, 0, 0, 0);
    }
  }

  lemma CloningKeepsIrp(r: Irp)
    requires IrpInv(r) && r.owner.ByClients?
    ensures IrpInv(Cloning(r))
  {
  }

  lemma FindingKeepsIrp(r: Irp)
    requires IrpInv(r) && r.owner.ByClients? && Open(r.owner) < r.owner.references
    ensures IrpInv(Finding(r))
  {
  }

  lemma SendingKeepsIrp(r: Irp)
    requires IrpInv(r) && r.owner.ByClients? && r.owner.found > 0
    ensures IrpInv(Sending(r))
  {
  }

  lemma ClearingKeepsIrp(r: Irp)
    requires IrpInv(r) && r.owner.ByClients? && r.owner.sent > 0
    ensures IrpInv(Clearing(r))
  {
  }

  lemma DroppingKeepsDisposition(r: Irp)
    requires DispositionInv(r) && r.owner.ByClients? && Open(r.owner) < r.owner.references
    ensures DispositionInv(Dropping(r))
  {
  }

  lemma DroppingKeepsIrp(r: Irp)
    requires IrpInv(r) && r.owner.ByClients? && Open(r.owner) < r.owner.references
    ensures IrpInv(Dropping(r))
  {
    DroppingKeepsDisposition(r);
  }

  // ---- The invariant of the whole

  ghost predicate IrpsInv(irps: seq<Irp>) {
    forall i :: 0 <= i < |irps| ==> IrpInv(irps[i])
  }

  /** The list holds, once each, the IRPs nobody has taken and those a canceller has claimed but not yet removed. */
  ghost predicate ListInv(irps: seq<Irp>, pending: seq<nat>) {
    && NoDuplicates(pending)
    && (forall i :: i in pending ==> i < |irps|)
    && (forall i :: 0 <= i < |irps| ==> (i in pending <==> OnList(irps[i])))
  }

  ghost predicate LockInv(irps: seq<Irp>, lock: Lock, worker: Worker) {
    && (forall i :: 0 <= i < |irps| ==> (HoldsLock(irps[i]) <==> lock == PenderHolds(i)))
    && (lock.PenderHolds? ==> lock.i < |irps|)
    && (lock == WorkerHolds <==> worker.Scanning?)
  }

  ghost predicate WorkerInv(irps: seq<Irp>, worker: Worker) {
    && (forall i :: 0 <= i < |irps| ==> (irps[i].owner == ByWorker <==> worker == Holding(i)))
    && (worker.Holding? ==> worker.i < |irps|)
    && (worker.Injecting? ==> worker.i < |irps| && irps[worker.i].owner.ByClients?)
  }

  /** The scan has left nothing takeable behind its cursor. */
  ghost predicate ScanInv(s: State) {
    s.worker.Scanning? ==>
      && s.worker.cursor <= |s.pending|
      && forall k :: 0 <= k < s.worker.cursor ==> !Takeable(s, k)
  }

  /** A listed IRP whose pender has signalled is not forgotten: the event is set or the worker is up. */
  ghost predicate WakeInv(s: State) {
    s.worker == Sleeping && !s.event ==>
      forall i :: 0 <= i < |s.irps| && s.irps[i].owner == Listed ==> s.irps[i].pender != PendDone
  }

  ghost predicate Inv(s: State) {
    && IrpsInv(s.irps) && ListInv(s.irps, s.pending) && LockInv(s.irps, s.lock, s.worker)
    && WorkerInv(s.irps, s.worker) && ScanInv(s) && WakeInv(s)
  }

  // ---- Replacing one IRP, each part of the invariant on its own

  lemma PutKeepsIrps(irps: seq<Irp>, i: nat, r: Irp)
    requires IrpsInv(irps) && i < |irps| && IrpInv(r)
    ensures IrpsInv(irps[i := r])
  {
    var irps' := irps[i := r];
    forall j | 0 <= j < |irps'|
      ensures IrpInv(irps'[j])
    {
      assert j != i ==> irps'[j] == irps[j];
    }
  }

  lemma PutKeepsList(irps: seq<Irp>, i: nat, r: Irp, pending: seq<nat>, pending': seq<nat>)
    requires ListInv(irps, pending) && i < |irps| && NoDuplicates(pending')
    requires forall j :: j in pending' <==> if j == i then OnList(r) else j in pending
    ensures ListInv(irps[i := r], pending')
  {
  }

  lemma PutKeepsLock(irps: seq<Irp>, i: nat, r: Irp, lock: Lock, worker: Worker, lock': Lock, worker': Worker)
    requires LockInv(irps, lock, worker) && i < |irps|
    requires HoldsLock(r) <==> lock' == PenderHolds(i)
    requires lock == lock' || (lock == PenderHolds(i) && lock' == Unlocked) || lock' == PenderHolds(i)
             || (lock == WorkerHolds && lock' == Unlocked)
    requires lock' == PenderHolds(i) ==> lock == lock' || lock == Unlocked
    requires lock' == WorkerHolds <==> worker'.Scanning?
    ensures LockInv(irps[i := r], lock', worker')
  {
    forall j | 0 <= j < |irps|
      ensures HoldsLock(irps[i := r][j]) <==> lock' == PenderHolds(j)
    {
      if j != i { assert HoldsLock(irps[j]) <==> lock == PenderHolds(j); }
    }
  }

  lemma PutKeepsWorker(irps: seq<Irp>, i: nat, r: Irp, worker: Worker, worker': Worker)
    requires WorkerInv(irps, worker) && i < |irps|
    requires r.owner == ByWorker <==> worker' == Holding(i)
    requires worker'.Holding? ==> worker'.i == i || worker == worker'
    requires worker.Holding? ==> worker.i == i || worker == worker'
    requires worker'.Injecting? ==> worker == worker' || worker'.i == i
    requires worker' == Injecting(i) ==> r.owner.ByClients?
    ensures WorkerInv(irps[i := r], worker')
  {
  }

  lemma PutKeepsScan(s: State, i: nat, r: Irp)
    requires ScanInv(s) && Known(s, i) && (r.cancelRoutine ==> s.irps[i].cancelRoutine)
    ensures ScanInv(Put(s, i, r))
  {
    if s.worker.Scanning? {
      forall k | 0 <= k < s.worker.cursor
        ensures !Takeable(Put(s, i, r), k)
      {
        assert !Takeable(s, k);
      }
    }
  }

  lemma PutKeepsWake(s: State, i: nat, r: Irp)
    requires WakeInv(s) && Known(s, i)
    requires r.owner == Listed && r.pender == PendDone ==>
               s.event || (s.irps[i].owner == Listed && s.irps[i].pender == PendDone)
    ensures WakeInv(Put(s, i, r))
  {
  }

  /** A change to one IRP that the list, the lock and the worker do not notice. */
  predicate Unnoticed(s: State, i: nat, r: Irp)
    requires Known(s, i)
  {
    var was := s.irps[i];
    && (OnList(r) <==> OnList(was)) && (HoldsLock(r) <==> HoldsLock(was))
    && (r.owner == ByWorker <==> was.owner == ByWorker)
    && (r.cancelRoutine ==> was.cancelRoutine)
    && (s.worker == Injecting(i) ==> r.owner.ByClients?)
    && (r.owner == Listed && r.pender == PendDone ==> s.event || (was.owner == Listed && was.pender == PendDone))
  }

  lemma PutKeepsInv(s: State, i: nat, r: Irp)
    requires Inv(s) && Known(s, i) && IrpInv(r) && Unnoticed(s, i, r)
    ensures Inv(Put(s, i, r))
  {
    PutKeepsIrps(s.irps, i, r);
    PutKeepsList(s.irps, i, r, s.pending, s.pending);
    PutKeepsLock(s.irps, i, r, s.lock, s.worker, s.lock, s.worker);
    PutKeepsWorker(s.irps, i, r, s.worker, s.worker);
    PutKeepsScan(s, i, r);
    PutKeepsWake(s, i, r);
  }

  lemma EventKeepsInv(s: State)
    requires Inv(s)
    ensures Inv(s.(event := true))
  {
    var s' := s.(event := true);
    assert forall k :: 0 <= k < |s.pending| ==> Takeable(s', k) == Takeable(s, k);
  }

  // ---- Each action keeps the invariant

  lemma AppendKeepsTables(irps: seq<Irp>, r: Irp, pending: seq<nat>)
    requires IrpsInv(irps) && ListInv(irps, pending) && IrpInv(r) && !OnList(r)
    ensures IrpsInv(irps + [r]) && ListInv(irps + [r], pending)
  {
    forall i | 0 <= i < |irps| + 1
      ensures IrpInv((irps + [r])[i]) && (i in pending <==> OnList((irps + [r])[i]))
    {
      assert i < |irps| ==> (irps + [r])[i] == irps[i];
    }
  }

  lemma AppendKeepsLock(irps: seq<Irp>, r: Irp, lock: Lock, worker: Worker)
    requires LockInv(irps, lock, worker) && WorkerInv(irps, worker)
    requires r.pender == NotStarted && r.owner != ByWorker
    ensures LockInv(irps + [r], lock, worker) && WorkerInv(irps + [r], worker)
  {
  }

  lemma AppendKeepsWake(s: State, r: Irp)
    requires WakeInv(s) && ScanInv(s) && r.pender == NotStarted && forall i :: i in s.pending ==> i < |s.irps|
    ensures WakeInv(s.(irps := s.irps + [r])) && ScanInv(s.(irps := s.irps + [r]))
  {
    forall k | 0 <= k < |s.pending|
      ensures Takeable(s.(irps := s.irps + [r]), k) == Takeable(s, k)
    {
      assert s.pending[k] in s.pending;
    }
  }

  lemma ArriveKeepsInv(s: State, requestOk: bool)
    requires Inv(s)
    ensures Inv(Step(s, Arrive(requestOk)))
  {
    var r := Arrived(requestOk);
    ArrivedIsSound(requestOk);
    AppendKeepsTables(s.irps, r, s.pending);
    AppendKeepsLock(s.irps, r, s.lock, s.worker);
    AppendKeepsWake(s, r);
  }

  lemma InsertKeepsInv(s: State, i: nat)
    requires Inv(s) && Enabled(s, PendInsert(i))
    ensures Inv(Step(s, PendInsert(i)))
  {
    var r := Inserting(s.irps[i]);
    InsertingKeepsIrp(s.irps[i]);
    assert !OnList(s.irps[i]) && !HoldsLock(s.irps[i]);
    PutKeepsIrps(s.irps, i, r);
    PutKeepsList(s.irps, i, r, s.pending, s.pending + [i]);
    PutKeepsLock(s.irps, i, r, s.lock, s.worker, PenderHolds(i), s.worker);
    PutKeepsWorker(s.irps, i, r, s.worker, s.worker);
    PutKeepsWake(s, i, r);
  }

  /** The pender changes its IRP and releases the lock; the IRP stays on the list if it was there. */
  lemma UnlockKeepsInv(s: State, i: nat, r: Irp)
    requires Inv(s) && s.lock == PenderHolds(i) && Known(s, i) && IrpInv(r) && r.pender == MustSignal
    requires (OnList(r) <==> OnList(s.irps[i])) && r.owner == s.irps[i].owner
    ensures Inv(Put(s, i, r).(lock := Unlocked))
  {
    PutKeepsIrps(s.irps, i, r);
    PutKeepsList(s.irps, i, r, s.pending, s.pending);
    PutKeepsLock(s.irps, i, r, s.lock, s.worker, Unlocked, s.worker);
    PutKeepsWorker(s.irps, i, r, s.worker, s.worker);
    PutKeepsWake(s, i, r);
  }

  lemma LookKeepsInv(s: State, i: nat)
    requires Inv(s) && Enabled(s, PendLook(i))
    ensures Inv(Step(s, PendLook(i)))
  {
    LookingKeepsIrp(s.irps[i]);
    if s.irps[i].cancel {
      PutKeepsInv(s, i, Looking(s.irps[i]));
    } else {
      UnlockKeepsInv(s, i, Looking(s.irps[i]));
    }
  }

  /** Entry `i` leaves the list. */
  lemma UnlistKeepsInv(s: State, i: nat, r: Irp)
    requires Inv(s) && Known(s, i) && OnList(s.irps[i]) && BeforeClients(s.irps[i].owner)
    requires IrpInv(r) && !OnList(r) && !HoldsLock(r) && r.owner != ByWorker
    requires s.lock == Unlocked || s.lock == PenderHolds(i)
    ensures Inv(Put(s, i, r).(pending := Without(s.pending, i), lock := Unlocked))
  {
    WithoutKeepsDistinct(s.pending, i);
    assert s.irps[i].owner != ByWorker;
    PutKeepsIrps(s.irps, i, r);
    PutKeepsList(s.irps, i, r, s.pending, Without(s.pending, i));
    PutKeepsLock(s.irps, i, r, s.lock, s.worker, Unlocked, s.worker);
    PutKeepsWorker(s.irps, i, r, s.worker, s.worker);
    PutKeepsWake(s, i, r);
  }

  lemma ExchangeKeepsInv(s: State, i: nat)
    requires Inv(s) && Enabled(s, PendExchange(i))
    ensures Inv(Step(s, PendExchange(i)))
  {
    TakingBackKeepsIrp(s.irps[i]);
    if s.irps[i].cancelRoutine {
      UnlistKeepsInv(s, i, TakingBack(s.irps[i]));
    } else {
      UnlockKeepsInv(s, i, TakingBack(s.irps[i]));
    }
  }

  lemma CompleteKeepsInv(s: State, i: nat)
    requires Inv(s) && Enabled(s, PendComplete(i))
    ensures Inv(Step(s, PendComplete(i)))
  {
    CompletingKeepsIrp(s.irps[i]);
    PutKeepsInv(s, i, PenderCompleting(s.irps[i]));
  }

  lemma SignalKeepsInv(s: State, i: nat)
    requires Inv(s) && Enabled(s, PendSignal(i))
    ensures Inv(Step(s, PendSignal(i)))
  {
    SignallingKeepsIrp(s.irps[i]);
    EventKeepsInv(s);
    PutKeepsInv(s.(event := true), i, Signalling(s.irps[i]));
  }

  lemma FlagKeepsInv(s: State, i: nat)
    requires Inv(s) && Enabled(s, CancelFlag(i))
    ensures Inv(Step(s, CancelFlag(i)))
  {
    FlaggingKeepsIrp(s.irps[i]);
    PutKeepsInv(s, i, Flagging(s.irps[i]));
  }

  lemma ClaimKeepsInv(s: State, i: nat)
    requires Inv(s) && Enabled(s, CancelExchange(i))
    ensures Inv(Step(s, CancelExchange(i)))
  {
    ClaimingKeepsIrp(s.irps[i]);
    PutKeepsInv(s, i, Claiming(s.irps[i]));
  }

  lemma CancelRemoveKeepsInv(s: State, i: nat)
    requires Inv(s) && Enabled(s, CancelRemove(i))
    ensures Inv(Step(s, CancelRemove(i)))
  {
    UnlistingKeepsIrp(s.irps[i]);
    UnlistKeepsInv(s, i, Unlisting(s.irps[i]));
  }

  lemma CancelCompleteKeepsInv(s: State, i: nat)
    requires Inv(s) && Enabled(s, CancelComplete(i))
    ensures Inv(Step(s, CancelComplete(i)))
  {
    CancellingKeepsIrp(s.irps[i]);
    EventKeepsInv(s);
    PutKeepsInv(s.(event := true), i, Cancelling(s.irps[i]));
  }

  lemma TakeKeepsList(s: State, c: nat)
    requires ListInv(s.irps, s.pending) && IrpsInv(s.irps) && c < |s.pending| && Takeable(s, c)
    ensures ListInv(Take(s, c).irps, Take(s, c).pending)
  {
    var i := s.pending[c];
    RemoveFromDistinct(s.pending, c);
    assert TokenInv(s.irps[i]);
    PutKeepsList(s.irps, i, Taking(s.irps[i]), s.pending, s.pending[..c] + s.pending[c + 1..]);
  }

  lemma TakeKeepsRest(s: State, c: nat)
    requires IrpsInv(s.irps) && LockInv(s.irps, s.lock, s.worker) && WorkerInv(s.irps, s.worker)
    requires s.worker == Scanning(c) && c < |s.pending| && Takeable(s, c)
    ensures var s' := Take(s, c);
            IrpsInv(s'.irps) && LockInv(s'.irps, s'.lock, s'.worker) && WorkerInv(s'.irps, s'.worker)
  {
    var i := s.pending[c];
    var r := Taking(s.irps[i]);
    TakingKeepsIrp(s.irps[i]);
    PutKeepsIrps(s.irps, i, r);
    PutKeepsLock(s.irps, i, r, s.lock, s.worker, Unlocked, Holding(i));
    PutKeepsWorker(s.irps, i, r, s.worker, Holding(i));
  }

  lemma TakeKeepsInv(s: State)
    requires Inv(s) && s.worker.Scanning? && s.worker.cursor < |s.pending| && Takeable(s, s.worker.cursor)
    ensures Inv(Scan(s, s.worker.cursor))
  {
    TakeKeepsList(s, s.worker.cursor);
    TakeKeepsRest(s, s.worker.cursor);
  }

  lemma PassOverKeepsInv(s: State)
    requires Inv(s) && s.worker.Scanning? && s.worker.cursor < |s.pending| && !Takeable(s, s.worker.cursor)
    ensures Inv(Scan(s, s.worker.cursor))
  {
    var s' := Scan(s, s.worker.cursor);
    assert forall k :: 0 <= k < |s.pending| ==> Takeable(s', k) == Takeable(s, k);
  }

  /** At the end of a pass every entry left on the list has been claimed by a canceller. */
  lemma PassLeavesClaimed(s: State, i: nat)
    requires Inv(s) && s.worker.Scanning? && s.worker.cursor >= |s.pending| && i in s.pending
    ensures s.irps[i].owner == ByCanceller && s.irps[i].canceller == Claimed
  {
    var k :| 0 <= k < |s.pending| && s.pending[k] == i;
    assert !Takeable(s, k);
    assert IrpInv(s.irps[i]);
  }

  lemma SleepKeepsInv(s: State)
    requires Inv(s) && s.worker.Scanning? && s.worker.cursor >= |s.pending|
    ensures Inv(Scan(s, s.worker.cursor))
  {
    forall i | 0 <= i < |s.irps|
      ensures s.irps[i].owner != Listed
    {
      if s.irps[i].owner == Listed {
        assert OnList(s.irps[i]);
        PassLeavesClaimed(s, i);
      }
    }
  }

  lemma DispatchKeepsInv(s: State, requestOk: bool)
    requires Inv(s) && Enabled(s, WorkerDispatch(requestOk))
    ensures Inv(Step(s, WorkerDispatch(requestOk)))
  {
    var i := s.worker.i;
    var r := Dispatching(s.irps[i], requestOk);
    var worker := if requestOk then Injecting(i) else Relocking;
    DispatchingKeepsIrp(s.irps[i], requestOk);
    PutKeepsIrps(s.irps, i, r);
    PutKeepsList(s.irps, i, r, s.pending, s.pending);
    PutKeepsLock(s.irps, i, r, s.lock, s.worker, s.lock, worker);
    PutKeepsWorker(s.irps, i, r, s.worker, worker);
  }

  lemma WorkerLockKeepsInv(s: State)
    requires Inv(s) && Enabled(s, WorkerLock)
    ensures Inv(Step(s, WorkerLock))
  {
  }

  lemma WorkerWakeKeepsInv(s: State)
    requires Inv(s) && Enabled(s, WorkerWake)
    ensures Inv(Step(s, WorkerWake))
  {
  }

  lemma RelockingKeepsInv(s: State)
    requires Inv(s) && s.worker.Injecting?
    ensures Inv(s.(worker := Relocking))
  {
  }

  lemma ReleaseKeepsInv(s: State)
    requires Inv(s) && Enabled(s, WorkerRelease)
    ensures Inv(Step(s, WorkerRelease))
  {
    RelockingKeepsInv(s);
    DroppingKeepsIrp(s.irps[s.worker.i]);
    PutKeepsInv(s.(worker := Relocking), s.worker.i, Dropping(s.irps[s.worker.i]));
  }

  lemma ClientKeepsInv(s: State, i: nat, r: Irp)
    requires Inv(s) && AtClients(s, i) && IrpInv(r) && (r.owner.ByClients? || r.owner == Finished)
    requires r.canceller == s.irps[i].canceller && r.pender == s.irps[i].pender
    requires s.worker == Injecting(i) ==> r.owner.ByClients?
    ensures Inv(Put(s, i, r))
  {
    assert IrpInv(s.irps[i]);
    PutKeepsInv(s, i, r);
  }

  lemma FindKeepsInv(s: State, i: nat)
    requires Inv(s) && Enabled(s, FindIrp(i))
    ensures Inv(Step(s, FindIrp(i)))
  {
    FindingKeepsIrp(s.irps[i]);
    ClientKeepsInv(s, i, Finding(s.irps[i]));
  }

  lemma SendKeepsInv(s: State, i: nat)
    requires Inv(s) && Enabled(s, SendIrp(i))
    ensures Inv(Step(s, SendIrp(i)))
  {
    SendingKeepsIrp(s.irps[i]);
    ClientKeepsInv(s, i, Sending(s.irps[i]));
  }

  lemma ClearKeepsInv(s: State, i: nat)
    requires Inv(s) && Enabled(s, ClearIrp(i))
    ensures Inv(Step(s, ClearIrp(i)))
  {
    ClearingKeepsIrp(s.irps[i]);
    ClientKeepsInv(s, i, Clearing(s.irps[i]));
  }

  lemma CloneKeepsInv(s: State, i: nat)
    requires Inv(s) && Enabled(s, CloneRequest(i))
    ensures Inv(Step(s, CloneRequest(i)))
  {
    CloningKeepsIrp(s.irps[i]);
    ClientKeepsInv(s, i, Cloning(s.irps[i]));
  }

  lemma FreeKeepsInv(s: State, i: nat)
    requires Inv(s) && Enabled(s, FreeRequest(i))
    ensures Inv(Step(s, FreeRequest(i)))
  {
    DroppingKeepsIrp(s.irps[i]);
    ClientKeepsInv(s, i, Dropping(s.irps[i]));
  }

  lemma WorkerStepKeepsInv(s: State)
    requires Inv(s) && Enabled(s, WorkerStep)
    ensures Inv(Step(s, WorkerStep))
  {
    if s.worker.cursor >= |s.pending| {
      SleepKeepsInv(s);
    } else if Takeable(s, s.worker.cursor) {
      TakeKeepsInv(s);
    } else {
      PassOverKeepsInv(s);
    }
  }

  lemma StepKeepsInv(s: State, a: Action)
    requires Inv(s)
    ensures Inv(Step(s, a))
  {
    if Enabled(s, a) {
      match a
      case Arrive(requestOk) => ArriveKeepsInv(s, requestOk);
      case PendInsert(i) => InsertKeepsInv(s, i);
      case PendLook(i) => LookKeepsInv(s, i);
      case PendExchange(i) => ExchangeKeepsInv(s, i);
      case PendComplete(i) => CompleteKeepsInv(s, i);
      case PendSignal(i) => SignalKeepsInv(s, i);
      case CancelFlag(i) => FlagKeepsInv(s, i);
      case CancelExchange(i) => ClaimKeepsInv(s, i);
      case CancelRemove(i) => CancelRemoveKeepsInv(s, i);
      case CancelComplete(i) => CancelCompleteKeepsInv(s, i);
      case WorkerWake => WorkerWakeKeepsInv(s);
      case WorkerLock => WorkerLockKeepsInv(s);
      case WorkerStep => WorkerStepKeepsInv(s);
      case WorkerDispatch(requestOk) => DispatchKeepsInv(s, requestOk);
      case WorkerRelease => ReleaseKeepsInv(s);
      case CloneRequest(i) => CloneKeepsInv(s, i);
      case FreeRequest(i) => FreeKeepsInv(s, i);
      case FindIrp(i) => FindKeepsInv(s, i);
      case SendIrp(i) => SendKeepsInv(s, i);
      case ClearIrp(i) => ClearKeepsInv(s, i);
    }
  }

  lemma {:induction false} RunKeepsInv(acts: seq<Action>)
    ensures Inv(Run(INIT, acts))
  {
    if acts != [] {
      RunKeepsInv(acts[..|acts| - 1]);
      StepKeepsInv(Run(INIT, acts[..|acts| - 1]), acts[|acts| - 1]);
    }
  }

  // ---- One disposition

  /** An injection finds the IRP while another one still has it: the pointer is not cleared yet. */
  predicate SecondFind(s: State, a: Action, i: nat) {
    a == FindIrp(i) && Enabled(s, a) && s.irps[i].owner.armed && Open(s.irps[i].owner) > 0
  }

  predicate Overlapping(acts: seq<Action>, i: nat) {
    acts != [] && (SecondFind(Run(INIT, acts[..|acts| - 1]), acts[|acts| - 1], i)
                   || Overlapping(acts[..|acts| - 1], i))
  }

  lemma OnlyFindsCount(s: State, a: Action, i: nat)
    requires Known(s, i) && a != FindIrp(i)
    ensures Known(Step(s, a), i) && Step(s, a).irps[i].finds == s.irps[i].finds
  {
  }

  /** While the pointer is set, the finds so far are the injections in progress. */
  lemma FindCounts(s: State, i: nat)
    requires Known(s, i) && DispositionInv(s.irps[i])
    ensures Known(Step(s, FindIrp(i)), i)
    ensures Step(s, FindIrp(i)).irps[i].finds > 1 <==> s.irps[i].finds > 1 || SecondFind(s, FindIrp(i), i)
  {
  }

  lemma FindsStartAtNone(s: State, a: Action, i: nat)
    requires !Known(s, i) && Known(Step(s, a), i)
    ensures Step(s, a).irps[i].finds == 0
  {
  }

  lemma {:induction false} OverlapIsASecondFind(acts: seq<Action>, i: nat)
    ensures Overlapping(acts, i) <==> Known(Run(INIT, acts), i) && Run(INIT, acts).irps[i].finds > 1
  {
    if acts != [] {
      var s, a := Run(INIT, acts[..|acts| - 1]), acts[|acts| - 1];
      OverlapIsASecondFind(acts[..|acts| - 1], i);
      RunKeepsInv(acts[..|acts| - 1]);
      if !Known(s, i) {
        if Known(Step(s, a), i) { FindsStartAtNone(s, a, i); }
      } else if a == FindIrp(i) {
        FindCounts(s, i);
      } else {
        OnlyFindsCount(s, a, i);
      }
    }
  }

  /** An IRP that is done with got exactly one disposition, and no injection went through a cleared pointer, if and only
      if no injection of it ever found it while another one still had it. It is never left without a disposition, and
      its request, when it had one, went back to the free list exactly once. */
  lemma DisposedOnceIff(acts: seq<Action>, i: nat)
    requires Known(Run(INIT, acts), i) && Run(INIT, acts).irps[i].owner == Finished
    ensures var r := Run(INIT, acts).irps[i];
            && (Dispositions(r) == 1 && r.faults == 0 <==> !Overlapping(acts, i))
            && Dispositions(r) >= 1
            && r.recycled == if r.pender == NotStarted then 0 else 1
  {
    RunKeepsInv(acts);
    OverlapIsASecondFind(acts, i);
    assert IrpInv(Run(INIT, acts).irps[i]);
  }

  /** At every moment: no disposition while the firewall owns the IRP, and never two without an overlap. */
  lemma AtMostOneDisposition(acts: seq<Action>, i: nat)
    requires Known(Run(INIT, acts), i)
    ensures var r := Run(INIT, acts).irps[i];
            && (BeforeClients(r.owner) ==> Dispositions(r) == 0)
            && (!Overlapping(acts, i) ==> Dispositions(r) <= 1 && r.faults == 0)
            && r.recycled <= 1
  {
    RunKeepsInv(acts);
    OverlapIsASecondFind(acts, i);
    assert IrpInv(Run(INIT, acts).irps[i]);
  }

  /** Cancellation is exclusive: once a canceller has claimed an IRP nobody else disposes of it. */
  lemma ClaimedIsCancelled(acts: seq<Action>, i: nat)
    requires Known(Run(INIT, acts), i) && Run(INIT, acts).irps[i].canceller == CancelDone
    ensures var r := Run(INIT, acts).irps[i];
            r.owner == Finished && r.cancelled == 1 && r.forwarded == 0 && r.failed == 0 && r.faults == 0
  {
    RunKeepsInv(acts);
    assert IrpInv(Run(INIT, acts).irps[i]);
  }

  lemma FinishedIsLeftAlone(s: State, a: Action, i: nat)
    requires WorkerInv(s.irps, s.worker) && Known(s, i) && TokenInv(s.irps[i]) && s.irps[i].owner == Finished
    ensures Known(Step(s, a), i)
    ensures a == PendSignal(i) || a == CancelFlag(i) || a == CancelExchange(i) || Step(s, a).irps[i] == s.irps[i]
  {
  }

  /** Nothing is done to an IRP once it is disposed of. */
  lemma FinishedIsFinal(s: State, a: Action, i: nat)
    requires Inv(s) && Known(s, i) && s.irps[i].owner == Finished
    ensures Known(Step(s, a), i)
    ensures var r, r' := s.irps[i], Step(s, a).irps[i];
            r'.owner == Finished && Dispositions(r') == Dispositions(r) && r'.faults == r.faults
            && r'.recycled == r.recycled
  {
    assert IrpInv(s.irps[i]);
    FinishedIsLeftAlone(s, a, i);
  }

  // ---- The worker

  /** When a pass of the worker ends, whatever is still on the list already belongs to a canceller. */
  lemma FullPassLeavesClaimed(acts: seq<Action>, i: nat)
    requires var s := Run(INIT, acts); s.worker.Scanning? && s.worker.cursor >= |s.pending| && i in s.pending
    ensures Known(Run(INIT, acts), i)
    ensures var r := Run(INIT, acts).irps[i]; r.owner == ByCanceller && r.canceller == Claimed
  {
    RunKeepsInv(acts);
    PassLeavesClaimed(Run(INIT, acts), i);
  }

  /** No wakeup is lost: while the worker sleeps with its event reset, no listed IRP is past the signal of its pender. */
  lemma NoLostWakeup(acts: seq<Action>, i: nat)
    requires var s := Run(INIT, acts);
             s.worker == Sleeping && !s.event && Known(s, i) && s.irps[i].owner == Listed
    ensures Enabled(Run(INIT, acts), PendLook(i)) || Enabled(Run(INIT, acts), PendExchange(i))
            || Enabled(Run(INIT, acts), PendSignal(i))
  {
    RunKeepsInv(acts);
    assert IrpInv(Run(INIT, acts).irps[i]);
  }

  /** Left alone, the worker's pass ends: every step puts it to sleep, shortens the list, or moves the cursor on. */
  lemma PassAdvances(s: State)
    requires Inv(s) && s.worker.Scanning?
    ensures var s' := Step(s, WorkerStep);
            || s'.worker == Sleeping
            || |s'.pending| < |s.pending|
            || (s'.pending == s.pending && s'.worker == Scanning(s.worker.cursor + 1) && s.worker.cursor < |s.pending|)
  {
  }

  // ---- Overlapping injections do go wrong

  lemma Extend(acts: seq<Action>, a: Action) returns (longer: seq<Action>)
    ensures Run(INIT, longer) == Step(Run(INIT, acts), a)
    ensures longer != [] && longer[..|longer| - 1] == acts && longer[|longer| - 1] == a
  {
    longer := acts + [a];
    assert longer[..|longer| - 1] == acts;
  }

  lemma PendedAlone() returns (acts: seq<Action>)
    ensures var r := NEW_IRP.(pender := PendDone, owner := Listed, cancelRoutine := true);
            Run(INIT, acts) == State([r], [0], Unlocked, Sleeping, true)
  {
    acts := Extend([], Arrive(true));
    acts := Extend(acts, PendInsert(0));
    acts := Extend(acts, PendLook(0));
    acts := Extend(acts, PendSignal(0));
  }

  lemma TakenAlone() returns (acts: seq<Action>)
    ensures var r := NEW_IRP.(pender := PendDone, owner := ByWorker);
            Run(INIT, acts) == State([r], [], Unlocked, Holding(0), false)
  {
    acts := PendedAlone();
    acts := Extend(acts, WorkerWake);
    acts := Extend(acts, WorkerLock);
    acts := Extend(acts, WorkerStep);
  }

  /** Two references, and both injections have found the IRP. */
  lemma TwoInjections() returns (acts: seq<Action>)
    ensures var r := NEW_IRP.(pender := PendDone, owner := ByClients(2, 2, 0, true), finds := 2);
            Run(INIT, acts) == State([r], [], Unlocked, Injecting(0), false)
  {
    acts := TakenAlone();
    acts := Extend(acts, WorkerDispatch(true));
    acts := Extend(acts, CloneRequest(0));
    assert Run(INIT, acts) == State([NEW_IRP.(pender := PendDone, owner := ByClients(2, 0, 0, true))], [], Unlocked,
                                    Injecting(0), false);
    acts := Extend(acts, FindIrp(0));
    acts := Extend(acts, FindIrp(0));
  }

  /** The IRP is sent down twice when the second send comes before the first injection clears the pointer. */
  lemma OverlapSendsTwice() returns (acts: seq<Action>)
    ensures Known(Run(INIT, acts), 0) && Run(INIT, acts).irps[0].forwarded == 2
  {
    acts := TwoInjections();
    acts := Extend(acts, SendIrp(0));
    acts := Extend(acts, SendIrp(0));
  }

  /** And the second send goes through the cleared pointer when it comes after. */
  lemma OverlapFaults() returns (acts: seq<Action>)
    ensures Known(Run(INIT, acts), 0) && Run(INIT, acts).irps[0].faults == 1
  {
    acts := TwoInjections();
    acts := Extend(acts, SendIrp(0));
    acts := Extend(acts, ClearIrp(0));
    acts := Extend(acts, SendIrp(0));
  }

  // ---- The lists and fields as the program updates them

  /** What the fields of one IRP and of its requests hold: the cancel routine and flag, whether `m_pIrp` is set, and
      `m_References`. */
  datatype Fields = Fields(cancelRoutine: bool, cancel: bool, pointer: bool, references: nat)

  predicate Mirrors(f: Fields, r: Irp) {
    && f.cancelRoutine == r.cancelRoutine && f.cancel == r.cancel
    && (BeforeClients(r.owner) ==> f.pointer)
    && (r.owner.ByClients? ==> f.pointer == r.owner.armed && f.references == r.owner.references)
  }

  ghost predicate AllMirror(fields: seq<Fields>, irps: seq<Irp>) {
    |fields| == |irps| && forall i :: 0 <= i < |irps| ==> Mirrors(fields[i], irps[i])
  }

  lemma MirrorPut(fields: seq<Fields>, irps: seq<Irp>, i: nat, f: Fields, r: Irp)
    requires AllMirror(fields, irps) && i < |irps| && Mirrors(f, r)
    ensures AllMirror(fields[i := f], irps[i := r])
  {
  }

  lemma MirrorTakingBack(f: Fields, r: Irp)
    requires Mirrors(f, r) && IrpInv(r) && r.pender == SawCancel
    ensures Mirrors(f.(cancelRoutine := false), TakingBack(r))
  {
  }

  lemma TakingBackShows(s: State, i: nat)
    requires Enabled(s, PendExchange(i))
    ensures var s' := Step(s, PendExchange(i));
            && s'.irps == s.irps[i := TakingBack(s.irps[i])] && s'.event == s.event
            && s'.pending == (if s.irps[i].cancelRoutine then Without(s.pending, i) else s.pending)
            && (s.irps[i].cancelRoutine <==> Enabled(s', PendComplete(i)))
  {
  }

  ghost predicate Reachable(s: State) {
    exists acts :: s == Run(INIT, acts)
  }

  lemma StaysReachable(s: State, a: Action)
    requires Reachable(s)
    ensures Reachable(Step(s, a))
  {
    var acts :| s == Run(INIT, acts);
    var longer := Extend(acts, a);
  }

  lemma ReachableInv(s: State)
    requires Reachable(s)
    ensures Inv(s)
  {
    var acts :| s == Run(INIT, acts);
    RunKeepsInv(acts);
  }

  lemma ReachableIrp(s: State, i: nat)
    requires Reachable(s) && Known(s, i)
    ensures IrpInv(s.irps[i])
  {
    ReachableInv(s);
  }

  lemma ListedIsKnown(s: State, i: nat)
    requires Reachable(s) && i in s.pending
    ensures Known(s, i)
  {
    ReachableInv(s);
  }

  lemma HeldIsByWorker(s: State, i: nat)
    requires Reachable(s) && s.worker == Holding(i)
    ensures Known(s, i) && s.irps[i].owner == ByWorker
  {
    ReachableInv(s);
  }

  lemma MirrorUnlisting(f: Fields, r: Irp)
    requires Mirrors(f, r)
    ensures Mirrors(f, Unlisting(r))
  {
  }

  lemma MirrorDispatching(f: Fields, r: Irp, requestOk: bool)
    requires Mirrors(f, r) && r.owner == ByWorker
    ensures Mirrors(if requestOk then f.(references := 1) else f, Dispatching(r, requestOk))
  {
  }

  /** The global lists of the firewall, the fields of the IRPs and requests on them, and where `fwThread` stands, one method
      per atomic step. */
  class Firewall {
    var fields: seq<Fields>
    var pendingRequestList: seq<nat>
    var fwThreadEvent: bool
    var worker: Worker
    ghost var model: State

    ghost predicate Valid()
      reads this
    {
      && AllMirror(fields, model.irps)
      && pendingRequestList == model.pending && fwThreadEvent == model.event && worker == model.worker
      && Reachable(model)
    }

    constructor ()
      ensures Valid() && model == INIT
    {
      fields, pendingRequestList, fwThreadEvent, worker := [], [], false, Sleeping;
      model := INIT;
      new;
      assert Run(INIT, []) == INIT;
    }

    /** Steps that touch none of the fields: the IRP is completed, or sent down. */
    ghost method Follow(a: Action)
      requires Valid() && (a.PendComplete? || a.SendIrp?)
      modifies this`model
      ensures Valid() && model == Step(old(model), a)
    {
      StaysReachable(model, a);
      model := Step(model, a);
    }

    method ConnectionOk(requestOk: bool)
      requires Valid()
      modifies this
      ensures Valid() && model == Step(old(model), Arrive(requestOk))
    {
      StaysReachable(model, Arrive(requestOk));
      fields := fields + [Fields(false, false, true, 0)];
      model := Step(model, Arrive(requestOk));
    }

    /** `tdiPendIrp`, under the lock: insert at the tail and set the cancel routine. */
    method InsertPending(i: nat)
      requires Valid() && Enabled(model, PendInsert(i))
      modifies this
      ensures Valid() && model == Step(old(model), PendInsert(i))
    {
      StaysReachable(model, PendInsert(i));
      pendingRequestList := pendingRequestList + [i];
      fields := fields[i := fields[i].(cancelRoutine := true)];
      model := Step(model, PendInsert(i));
    }

    /** Only then is the cancel flag looked at. */
    method LookForCancel(i: nat) returns (cancelled: bool)
      requires Valid() && Enabled(model, PendLook(i))
      modifies this`model
      ensures Valid() && model == Step(old(model), PendLook(i))
      ensures cancelled <==> Enabled(model, PendExchange(i))
    {
      StaysReachable(model, PendLook(i));
      cancelled := fields[i].cancel;
      model := Step(model, PendLook(i));
    }

    /** The routine is taken back; if it was still there, the pender removes the request and completes the IRP. */
    method TakeRoutineBack(i: nat) returns (mine: bool)
      requires Valid() && Enabled(model, PendExchange(i))
      modifies this
      ensures Valid() && model == Step(old(model), PendExchange(i))
      ensures mine <==> Enabled(model, PendComplete(i))
    {
      StaysReachable(model, PendExchange(i));
      ReachableIrp(model, i);
      MirrorTakingBack(fields[i], model.irps[i]);
      MirrorPut(fields, model.irps, i, fields[i].(cancelRoutine := false), TakingBack(model.irps[i]));
      TakingBackShows(model, i);
      mine := fields[i].cancelRoutine;
      assert mine == model.irps[i].cancelRoutine;
      model := Step(model, PendExchange(i));
      fields := fields[i := fields[i].(cancelRoutine := false)];
      if mine {
        RemovePending(i);
      }
    }

    /** Removes every entry of the IRP, starting over at the head after each removal. */
    method RemovePending(i: nat)
      modifies this`pendingRequestList
      ensures pendingRequestList == Without(old(pendingRequestList), i)
    {
      var k := 0;
      while k < |pendingRequestList|
        invariant k <= |pendingRequestList| && i !in pendingRequestList[..k]
        invariant Without(pendingRequestList, i) == Without(old(pendingRequestList), i)
        decreases |pendingRequestList|, |pendingRequestList| - k
      {
        if pendingRequestList[k] == i {
          WithoutSkips(pendingRequestList, k);
          pendingRequestList := pendingRequestList[..k] + pendingRequestList[k + 1..];
          k := 0;
        } else {
          k := k + 1;
        }
      }
      assert i !in pendingRequestList;
    }

    /** The event is set by the pender as its last act, and by the cancel routine after completing the IRP. */
    method SetEvent(a: Action)
      requires Valid() && (a.PendSignal? || a.CancelComplete?) && Enabled(model, a)
      modifies this
      ensures Valid() && model == Step(old(model), a)
    {
      StaysReachable(model, a);
      fwThreadEvent := true;
      model := Step(model, a);
    }

    /** `IoCancelIrp`: the flag first. */
    method SetCancelFlag(i: nat)
      requires Valid() && Enabled(model, CancelFlag(i))
      modifies this
      ensures Valid() && model == Step(old(model), CancelFlag(i))
    {
      StaysReachable(model, CancelFlag(i));
      fields := fields[i := fields[i].(cancel := true)];
      model := Step(model, CancelFlag(i));
    }

    /** Then the routine; it is called if it was there. */
    method TakeRoutine(i: nat) returns (call: bool)
      requires Valid() && Enabled(model, CancelExchange(i))
      modifies this
      ensures Valid() && model == Step(old(model), CancelExchange(i))
      ensures call <==> model.irps[i].canceller == Claimed
    {
      StaysReachable(model, CancelExchange(i));
      ReachableIrp(model, i);
      call := fields[i].cancelRoutine;
      fields := fields[i := fields[i].(cancelRoutine := false)];
      model := Step(model, CancelExchange(i));
    }

    /** `tdiCancelIrp`, under the lock. */
    method CancelRemovePending(i: nat)
      requires Valid() && Enabled(model, CancelRemove(i))
      modifies this
      ensures Valid() && model == Step(old(model), CancelRemove(i))
    {
      StaysReachable(model, CancelRemove(i));
      MirrorUnlisting(fields[i], model.irps[i]);
      MirrorPut(fields, model.irps, i, fields[i], Unlisting(model.irps[i]));
      RemovePending(i);
      model := Step(model, CancelRemove(i));
    }

    method WaitForEvent()
      requires Valid() && Enabled(model, WorkerWake)
      modifies this
      ensures Valid() && model == Step(old(model), WorkerWake)
    {
      StaysReachable(model, WorkerWake);
      fwThreadEvent := false;
      worker := Awake;
      model := Step(model, WorkerWake);
    }

    /** The worker takes the list lock and starts at the head. */
    method LockList()
      requires Valid() && Enabled(model, WorkerLock)
      modifies this
      ensures Valid() && model == Step(old(model), WorkerLock)
    {
      StaysReachable(model, WorkerLock);
      worker := Scanning(0);
      model := Step(model, WorkerLock);
    }

    /** At the end of the list the worker goes back to waiting. */
    method EndPass(cursor: nat)
      requires Valid() && worker == Scanning(cursor) && cursor >= |pendingRequestList|
      modifies this
      ensures Valid() && model == Step(old(model), WorkerStep)
    {
      StaysReachable(model, WorkerStep);
      worker := Sleeping;
      model := Step(model, WorkerStep);
    }

    /** `tdiGetRequest` on the entry under the cursor: taken if its routine was still there. */
    method GetRequest(cursor: nat) returns (taken: bool)
      requires Valid() && worker == Scanning(cursor) && cursor < |pendingRequestList|
      modifies this
      ensures Valid() && model == Step(old(model), WorkerStep)
      ensures taken <==> model.worker == Holding(old(pendingRequestList)[cursor])
    {
      var i := pendingRequestList[cursor];
      ListedIsKnown(model, i);
      ReachableIrp(model, i);
      StaysReachable(model, WorkerStep);
      taken := fields[i].cancelRoutine;
      if taken {
        fields := fields[i := fields[i].(cancelRoutine := false)];
        pendingRequestList := pendingRequestList[..cursor] + pendingRequestList[cursor + 1..];
        worker := Holding(i);
      } else {
        worker := Scanning(cursor + 1);
      }
      model := Step(model, WorkerStep);
    }

    /** What the worker does with an IRP it took; with a firewall request its reference count starts at 1. */
    method DispatchTaken(i: nat, requestOk: bool)
      requires Valid() && worker == Holding(i)
      modifies this
      ensures Valid() && model == Step(old(model), WorkerDispatch(requestOk))
    {
      HeldIsByWorker(model, i);
      StaysReachable(model, WorkerDispatch(requestOk));
      MirrorDispatching(fields[i], model.irps[i], requestOk);
      var f := if requestOk then fields[i].(references := 1) else fields[i];
      MirrorPut(fields, model.irps, i, f, Dispatching(model.irps[i], requestOk));
      fields := fields[i := f];
      worker := if requestOk then Injecting(i) else Relocking;
      model := Step(model, WorkerDispatch(requestOk));
    }

    method Clone(i: nat)
      requires Valid() && Enabled(model, CloneRequest(i))
      modifies this
      ensures Valid() && model == Step(old(model), CloneRequest(i))
    {
      StaysReachable(model, CloneRequest(i));
      fields := fields[i := fields[i].(references := fields[i].references + 1)];
      model := Step(model, CloneRequest(i));
    }

    /** `InjectLoopbackRequest`: the test of the pointer; sending and clearing it are separate steps. */
    method TestPointer(i: nat) returns (found: bool)
      requires Valid() && Enabled(model, FindIrp(i))
      modifies this`model
      ensures Valid() && model == Step(old(model), FindIrp(i))
      ensures found <==> model.irps[i].finds == old(model.irps[i].finds) + 1
    {
      StaysReachable(model, FindIrp(i));
      found := fields[i].pointer;
      model := Step(model, FindIrp(i));
    }

    method ClearPointer(i: nat)
      requires Valid() && Enabled(model, ClearIrp(i))
      modifies this
      ensures Valid() && model == Step(old(model), ClearIrp(i))
    {
      StaysReachable(model, ClearIrp(i));
      fields := fields[i := fields[i].(pointer := false)];
      model := Step(model, ClearIrp(i));
    }

    /** Drops a reference; the last drop fails the IRP if the pointer is still set. */
    method Free(a: Action, i: nat) returns (fail: bool)
      requires Valid() && Enabled(model, a)
      requires a == FreeRequest(i) || (a == WorkerRelease && worker == Injecting(i))
      modifies this
      ensures Valid() && model == Step(old(model), a)
      ensures fail <==> model.irps[i].failed == old(model.irps[i].failed) + 1
    {
      StaysReachable(model, a);
      fail := fields[i].references == 1 && fields[i].pointer;
      fields := fields[i := fields[i].(pointer := fields[i].pointer && !fail, references := fields[i].references - 1)];
      if a == WorkerRelease {
        worker := Relocking;
      }
      model := Step(model, a);
    }

    method Perform(a: Action)
      requires Valid() && Enabled(model, a)
      modifies this
      ensures Valid() && model == Step(old(model), a)
    {
      match a {
        case Arrive(requestOk) => ConnectionOk(requestOk);
        case PendInsert(i) => InsertPending(i);
        case PendLook(i) => var cancelled := LookForCancel(i);
        case PendExchange(i) => var mine := TakeRoutineBack(i);
        case PendComplete(_) => Follow(a);
        case PendSignal(_) => SetEvent(a);
        case CancelFlag(i) => SetCancelFlag(i);
        case CancelExchange(i) => var call := TakeRoutine(i);
        case CancelRemove(i) => CancelRemovePending(i);
        case CancelComplete(_) => SetEvent(a);
        case WorkerWake => WaitForEvent();
        case WorkerLock => LockList();
        case WorkerStep => ScanOne(worker.cursor);
        case WorkerDispatch(requestOk) => DispatchTaken(worker.i, requestOk);
        case WorkerRelease => var fail := Free(a, worker.i);
        case CloneRequest(i) => Clone(i);
        case FindIrp(i) => var found := TestPointer(i);
        case SendIrp(_) => Follow(a);
        case ClearIrp(i) => ClearPointer(i);
        case FreeRequest(i) => var fail := Free(a, i);
      }
    }

    /** One iteration of the worker's loop over the list. */
    method ScanOne(cursor: nat)
      requires Valid() && worker == Scanning(cursor)
      modifies this
      ensures Valid() && model == Step(old(model), WorkerStep)
    {
      if cursor < |pendingRequestList| {
        var taken := GetRequest(cursor);
      } else {
        EndPass(cursor);
      }
    }

    /** Any interleaving of the regions takes the fields where the state machine goes, so everything proved of its runs
        holds of them. */
    method PerformAll(acts: seq<Action>)
      requires Valid() && forall n :: 0 <= n < |acts| ==> Enabled(Run(model, acts[..n]), acts[n])
      modifies this
      ensures Valid() && model == Run(old(model), acts)
    {
      for n := 0 to |acts|
        invariant Valid() && model == Run(old(model), acts[..n])
      {
        assert acts[..n + 1][..n] == acts[..n];
        Perform(acts[n]);
      }
      assert acts[..|acts|] == acts;
    }
  }
}
