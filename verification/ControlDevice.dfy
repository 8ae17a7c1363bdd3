/** The control device shared by all adapters: the first to register creates it, the last to deregister deletes it, and
    the lock is dropped while either happens. */
module ControlDevice {

  datatype DeviceState = Ready | Creating | Deleting

  /** Where an adapter's call stands. Idle adapters are in no call and not registered. */
  datatype Phase =
    | Idle
    | Waiting       // registering, first in, waiting for the device to be ready
    | InCreation    // registering, lock dropped, device not created yet
    | CreateDone    // registering, device creation returned
    | Registered
    | InDeletion    // deregistering, last out, lock dropped
    | DeleteDone    // deregistering, device deletion returned

  datatype DeviceEvent = Created | CreateFailed | Deleted

  /** `MiniportCount`, `ControlDeviceState`, whether `NdisDeviceHandle` is set, and the adapters. `failed` says that the
      last creation failed; `log` records what happened to the device. */
  datatype State = State(count: int, device: DeviceState, handle: bool, failed: bool,
                         adapters: map<nat, Phase>, log: seq<DeviceEvent>)

  const INIT := State(0, Ready, false, false, map[], [])

  /** The lock-held regions and the calls made between them, by adapter. */
  datatype Action =
    | Enter(a: nat)                 // PtRegisterDevice up to the wait
    | StartCreation(a: nat)         // the wait ends
    | Create(a: nat, ok: bool)      // NdisMRegisterDevice
    | FinishCreation(a: nat)
    | Leave(a: nat)                 // PtDeregisterDevice up to the unlock
    | Delete(a: nat)                // NdisMDeregisterDevice
    | FinishDeletion(a: nat)

  function PhaseOf(s: State, a: nat): Phase {
    if a in s.adapters then s.adapters[a] else Idle
  }

  /** An adapter is where the action begins, and a waiting one finds the device ready. */
  predicate Enabled(s: State, act: Action) {
    match act
    case Enter(a) => PhaseOf(s, a) == Idle
    case StartCreation(a) => PhaseOf(s, a) == Waiting && s.device == Ready
    case Create(a, _) => PhaseOf(s, a) == InCreation
    case FinishCreation(a) => PhaseOf(s, a) == CreateDone
    case Leave(a) => PhaseOf(s, a) == Registered
    case Delete(a) => PhaseOf(s, a) == InDeletion
    case FinishDeletion(a) => PhaseOf(s, a) == DeleteDone
  }

  function Move(s: State, a: nat, p: Phase): State {
    s.(adapters := s.adapters[a := p])
  }

  function Step(s: State, act: Action): State {
    if !Enabled(s, act) then s
    else
      match act
      case Enter(a) =>
        Move(s, a, if s.count + 1 == 1 then Waiting else Registered).(count := s.count + 1)
      case StartCreation(a) => Move(s, a, InCreation).(device := Creating)
      case Create(a, ok) =>
        Move(s, a, CreateDone).(handle := ok, failed := !ok, log := s.log + [if ok then Created else CreateFailed])
      case FinishCreation(a) => Move(s, a, Registered).(device := Ready)
      case Leave(a) =>
        if s.count - 1 == 0 then Move(s, a, InDeletion).(count := s.count - 1, device := Deleting)
        else Move(s, a, Idle).(count := s.count - 1)
      case Delete(a) =>
        Move(s, a, DeleteDone).(handle := false, failed := false,
                                log := if s.handle then s.log + [Deleted] else s.log)
      case FinishDeletion(a) => Move(s, a, Idle).(device := Ready)
  }

  function Run(s: State, acts: seq<Action>): State {
    if acts == [] then s else Step(Run(s, acts[..|acts| - 1]), acts[|acts| - 1])
  }

  // ---- The invariant

  predicate Counts(p: Phase) {
    p == Waiting || p == InCreation || p == CreateDone || p == Registered
  }

  predicate Registering(p: Phase) {
    p == Waiting || p == InCreation || p == CreateDone
  }

  predicate CreatingPhase(p: Phase) {
    p == InCreation || p == CreateDone
  }

  predicate DeletingPhase(p: Phase) {
    p == InDeletion || p == DeleteDone
  }

  ghost function Counted(s: State): set<nat> {
    set a | a in s.adapters && Counts(s.adapters[a])
  }

  /** Whether the device exists after these events. */
  function Exists(log: seq<DeviceEvent>): bool {
    if log == [] then false
    else match log[|log| - 1]
      case Created => true
      case Deleted => false
      case CreateFailed => Exists(log[..|log| - 1])
  }

  /** The device is created only while it does not exist and deleted only while it does. */
  ghost predicate Alternates(log: seq<DeviceEvent>) {
    forall i :: 0 <= i < |log| ==>
      && (log[i] == Created ==> !Exists(log[..i]))
      && (log[i] == Deleted ==> Exists(log[..i]))
  }

  /** `c` is the adapter between entering and finishing a first registration, `d` the one between entering and
      finishing a last deregistration; -1 when there is none. */
  ghost predicate Holders(s: State, c: int, d: int) {
    && (c == -1 || c in s.adapters) && (d == -1 || d in s.adapters)
    && forall a :: a in s.adapters ==>
         (Registering(s.adapters[a]) <==> a == c) && (DeletingPhase(s.adapters[a]) <==> a == d)
  }

  ghost predicate InvFor(s: State, c: int, d: int) {
    && s.count == |Counted(s)| && Holders(s, c, d)
    && (s.device == Creating <==> c != -1 && CreatingPhase(s.adapters[c]))
    && (s.device == Deleting <==> d != -1)
    && (d != -1 && s.count > 0 ==> c != -1)
    && s.handle == Exists(s.log) && Alternates(s.log) && (s.handle ==> !s.failed)
    && (if d != -1 then s.handle == (s.adapters[d] == InDeletion && !s.failed)
        else if c != -1 then s.handle == (s.adapters[c] == CreateDone && !s.failed)
        else s.handle == (s.count > 0 && !s.failed))
  }

  ghost predicate Inv(s: State) {
    exists c, d :: InvFor(s, c, d)
  }

  lemma CountAfterMove(s: State, a: nat, p: Phase)
    ensures var s' := Move(s, a, p);
            |Counted(s')| == |Counted(s)| + (if Counts(p) then 1 else 0) - (if Counts(PhaseOf(s, a)) then 1 else 0)
  {
    var s' := Move(s, a, p);
    if Counts(p) {
      assert Counted(s') == Counted(s) + {a};
    } else {
      assert Counted(s') == Counted(s) - {a};
    }
  }

  /** A count of zero means nobody is counted; a count of one means only this adapter is. */
  lemma CountMeans(s: State, a: nat)
    requires s.count == |Counted(s)|
    ensures s.count == 0 ==> forall b :: b in s.adapters ==> !Counts(s.adapters[b])
    ensures s.count == 1 && a in Counted(s) ==> forall b :: b in s.adapters && b != a ==> !Counts(s.adapters[b])
    ensures a in Counted(s) ==> s.count > 0
  {
    if s.count == 0 {
      assert Counted(s) == {};
      forall b | b in s.adapters
        ensures !Counts(s.adapters[b])
      {
        assert b !in Counted(s);
      }
    }
    if a in Counted(s) {
      assert |Counted(s) - {a}| == |Counted(s)| - 1;
      if s.count == 1 {
        forall b | b in s.adapters && b != a
          ensures !Counts(s.adapters[b])
        {
          assert b !in Counted(s) - {a};
        }
      }
    }
  }

  lemma ExtendLog(log: seq<DeviceEvent>, e: DeviceEvent)
    requires Alternates(log) && (e == Created ==> !Exists(log)) && (e == Deleted ==> Exists(log))
    ensures Alternates(log + [e])
    ensures Exists(log + [e]) == if e == Created then true else if e == Deleted then false else Exists(log)
  {
    var log' := log + [e];
    assert log'[..|log|] == log;
    assert forall i :: 0 <= i < |log| ==> log'[..i] == log[..i];
  }

  lemma EnterKeepsInv(s: State, a: nat, c: int, d: int)
    requires InvFor(s, c, d) && PhaseOf(s, a) == Idle
    ensures InvFor(Step(s, Enter(a)), if s.count == 0 then a else c, d)
  {
    CountMeans(s, a);
    CountAfterMove(s, a, if s.count + 1 == 1 then Waiting else Registered);
  }

  lemma LeaveKeepsInv(s: State, a: nat, c: int, d: int)
    requires InvFor(s, c, d) && PhaseOf(s, a) == Registered
    ensures InvFor(Step(s, Leave(a)), c, if s.count == 1 then a else d)
  {
    CountMeans(s, a);
    CountAfterMove(s, a, if s.count - 1 == 0 then InDeletion else Idle);
  }

  lemma DeviceKeepsInv(s: State, act: Action, c: int, d: int)
    requires InvFor(s, c, d) && Enabled(s, act) && (act.Create? || act.Delete?)
    ensures InvFor(Step(s, act), c, d)
  {
    CountMeans(s, act.a);
    CountAfterMove(s, act.a, if act.Create? then CreateDone else DeleteDone);
    if act.Create? {
      ExtendLog(s.log, if act.ok then Created else CreateFailed);
    } else if s.handle {
      ExtendLog(s.log, Deleted);
    }
  }

  lemma FlagKeepsInv(s: State, act: Action, c: int, d: int)
    requires InvFor(s, c, d) && Enabled(s, act)
    requires act.StartCreation? || act.FinishCreation? || act.FinishDeletion?
    ensures InvFor(Step(s, act), if act.FinishCreation? then -1 else c, if act.FinishDeletion? then -1 else d)
  {
    CountMeans(s, act.a);
    CountAfterMove(s, act.a, Step(s, act).adapters[act.a]);
  }

  lemma StepKeepsInv(s: State, act: Action)
    requires Inv(s)
    ensures Inv(Step(s, act))
  {
    var c, d :| InvFor(s, c, d);
    if Enabled(s, act) {
      match act
      case Enter(a) => EnterKeepsInv(s, a, c, d);
      case Leave(a) => LeaveKeepsInv(s, a, c, d);
      case Create(_, _) => DeviceKeepsInv(s, act, c, d);
      case Delete(_) => DeviceKeepsInv(s, act, c, d);
      case StartCreation(_) => FlagKeepsInv(s, act, c, d);
      case FinishCreation(_) => FlagKeepsInv(s, act, c, d);
      case FinishDeletion(_) => FlagKeepsInv(s, act, c, d);
    }
  }

  lemma {:induction false} RunKeepsInv(acts: seq<Action>)
    ensures Inv(Run(INIT, acts))
  {
    if acts == [] {
      assert Counted(INIT) == {};
      assert InvFor(INIT, -1, -1);
    } else {
      RunKeepsInv(acts[..|acts| - 1]);
      StepKeepsInv(Run(INIT, acts[..|acts| - 1]), acts[|acts| - 1]);
    }
  }

  // ---- What the protocol promises

  /** No adapter is inside a call. */
  ghost predicate Quiet(s: State) {
    forall a :: a in s.adapters ==> s.adapters[a] == Idle || s.adapters[a] == Registered
  }

  /** Over every interleaving of registrations and deregistrations: creation and deletion never overlap, neither
      overlaps itself, and the device is created only while it does not exist and deleted only while it does. */
  lemma CreationAndDeletionAlternate(acts: seq<Action>)
    ensures var s := Run(INIT, acts);
            && Alternates(s.log) && s.handle == Exists(s.log)
            && (forall a, b :: a in s.adapters && b in s.adapters && a != b ==>
                  && !(CreatingPhase(s.adapters[a]) && (CreatingPhase(s.adapters[b]) || DeletingPhase(s.adapters[b])))
                  && !(DeletingPhase(s.adapters[a]) && DeletingPhase(s.adapters[b])))
  {
    RunKeepsInv(acts);
    var s := Run(INIT, acts);
    var c, d :| InvFor(s, c, d);
  }

  /** When no call is in progress the device exists exactly when adapters are registered, unless its creation failed;
      and the flag is ready for the next call. */
  lemma QuietDevice(acts: seq<Action>)
    requires Quiet(Run(INIT, acts))
    ensures var s := Run(INIT, acts);
            && (s.handle <==> s.count > 0 && !s.failed) && s.device == Ready
            && (s.count > 0 <==> exists a :: a in s.adapters && s.adapters[a] == Registered)
  {
    RunKeepsInv(acts);
    var s := Run(INIT, acts);
    var c, d :| InvFor(s, c, d);
    if s.count > 0 {
      var a :| a in Counted(s);
    }
    if a :| a in s.adapters && s.adapters[a] == Registered {
      CountMeans(s, a);
    }
  }

  /** The assertions the program makes: a first registration never finds a creation in progress, and a last
      deregistration always finds the device ready. */
  lemma AssertionsHold(acts: seq<Action>, a: nat)
    ensures var s := Run(INIT, acts);
            && (PhaseOf(s, a) == Idle && s.count == 0 ==> s.device != Creating)
            && (PhaseOf(s, a) == Registered ==> s.count > 0)
            && (PhaseOf(s, a) == Registered && s.count == 1 ==> s.device == Ready)
  {
    RunKeepsInv(acts);
    var s := Run(INIT, acts);
    var c, d :| InvFor(s, c, d);
    CountMeans(s, a);
  }

  /** The wait cannot be forever: whoever waits for a ready device waits for a deletion that is under way and will make
      it ready. */
  lemma WaitIsForADeletion(acts: seq<Action>, a: nat) returns (d: nat)
    requires var s := Run(INIT, acts); PhaseOf(s, a) == Waiting && s.device != Ready
    ensures var s := Run(INIT, acts);
            && DeletingPhase(PhaseOf(s, d)) && (Enabled(s, Delete(d)) || Enabled(s, FinishDeletion(d)))
            && (Enabled(s, FinishDeletion(d)) ==> Step(s, FinishDeletion(d)).device == Ready)
  {
    RunKeepsInv(acts);
    var s := Run(INIT, acts);
    var c, e :| InvFor(s, c, e);
    d := e;
  }

  // ---- The globals, told from the calls

  /** Calls of `PtRegisterDevice` that have got in, less those of `PtDeregisterDevice`. */
  function Registrations(acts: seq<Action>): int {
    if acts == [] then 0
    else
      var s, act := Run(INIT, acts[..|acts| - 1]), acts[|acts| - 1];
      Registrations(acts[..|acts| - 1])
      + (if !Enabled(s, act) then 0 else if act.Enter? then 1 else if act.Leave? then -1 else 0)
  }

  /** Adapter `a` is registered, or registering. */
  predicate IsRegistered(acts: seq<Action>, a: nat) {
    acts != [] &&
    var s, act := Run(INIT, acts[..|acts| - 1]), acts[|acts| - 1];
    if Enabled(s, act) && act == Enter(a) then true
    else if Enabled(s, act) && act == Leave(a) then false
    else IsRegistered(acts[..|acts| - 1], a)
  }

  datatype Device = Absent | Present | Refused

  /** What the last call of `NdisMRegisterDevice` or `NdisMDeregisterDevice` left. */
  function DeviceAfter(acts: seq<Action>): Device {
    if acts == [] then Absent
    else
      var s, act := Run(INIT, acts[..|acts| - 1]), acts[|acts| - 1];
      if Enabled(s, act) && act.Create? then (if act.ok then Present else Refused)
      else if Enabled(s, act) && act.Delete? then Absent
      else DeviceAfter(acts[..|acts| - 1])
  }

  lemma StepOnGlobals(s: State, act: Action, a: nat)
    ensures var s' := Step(s, act);
            && s'.count == s.count + (if !Enabled(s, act) then 0 else if act.Enter? then 1 else if act.Leave? then -1 else 0)
            && (Counts(PhaseOf(s', a)) <==>
                  if Enabled(s, act) && act == Enter(a) then true
                  else if Enabled(s, act) && act == Leave(a) then false else Counts(PhaseOf(s, a)))
            && (if Enabled(s, act) && act.Create? then s'.handle == act.ok && s'.failed == !act.ok
                else if Enabled(s, act) && act.Delete? then !s'.handle && !s'.failed
                else s'.handle == s.handle && s'.failed == s.failed)
  {
  }

  /** The count is the calls that have got in; the handle is set while the device exists. */
  lemma {:induction false} GlobalsRemember(acts: seq<Action>, a: nat)
    ensures var s := Run(INIT, acts);
            && s.count == Registrations(acts) && (Counts(PhaseOf(s, a)) <==> IsRegistered(acts, a))
            && (s.handle <==> DeviceAfter(acts) == Present) && (s.failed <==> DeviceAfter(acts) == Refused)
  {
    if acts != [] {
      GlobalsRemember(acts[..|acts| - 1], a);
      StepOnGlobals(Run(INIT, acts[..|acts| - 1]), acts[|acts| - 1], a);
    }
  }

  /** The first to register, left alone, creates the device; the last to deregister deletes it. */
  lemma FirstAndLast(s: State, a: nat)
    requires s.count == 0 && s.device == Ready && PhaseOf(s, a) == Idle && !s.handle
    ensures var s' := Step(Step(Step(Step(s, Enter(a)), StartCreation(a)), Create(a, true)), FinishCreation(a));
            && s'.count == 1 && s'.handle && s'.device == Ready && PhaseOf(s', a) == Registered
            && var s'' := Step(Step(Step(s', Leave(a)), Delete(a)), FinishDeletion(a));
            s''.count == 0 && !s''.handle && s''.device == Ready && PhaseOf(s'', a) == Idle
  {
    var s1 := Step(s, Enter(a));
    assert PhaseOf(s1, a) == Waiting;
    var s2 := Step(s1, StartCreation(a));
    assert PhaseOf(s2, a) == InCreation && s2.device == Creating;
    var s3 := Step(s2, Create(a, true));
    assert PhaseOf(s3, a) == CreateDone && s3.handle;
    var s4 := Step(s3, FinishCreation(a));
    var s5 := Step(s4, Leave(a));
    assert PhaseOf(s5, a) == InDeletion && s5.device == Deleting;
    var s6 := Step(s5, Delete(a));
    assert PhaseOf(s6, a) == DeleteDone;
  }

  // ---- The globals as the program updates them

  /** `MiniportCount`, `ControlDeviceState` and `NdisDeviceHandle`, updated region by region; `calls` stands for the
      program counters of the adapters' calls. */
  class Globals {
    var miniportCount: int
    var controlDeviceState: DeviceState
    var ndisDeviceHandle: bool
    var calls: map<nat, Phase>
    ghost var model: State

    ghost predicate Valid()
      reads this
    {
      && model.count == miniportCount && model.device == controlDeviceState && model.handle == ndisDeviceHandle
      && model.adapters == calls && Inv(model)
    }

    constructor ()
      ensures Valid() && model == INIT
    {
      miniportCount, controlDeviceState, ndisDeviceHandle, calls := 0, Ready, false, map[];
      model := INIT;
      new;
      RunKeepsInv([]);
    }

    /** `PtRegisterDevice` up to the wait: only the first one in goes on. */
    method EnterRegister(a: nat) returns (first: bool)
      requires Valid() && Enabled(model, Enter(a))
      modifies this
      ensures Valid() && model == Step(old(model), Enter(a)) && (first <==> PhaseOf(model, a) == Waiting)
    {
      StepKeepsInv(model, Enter(a));
      miniportCount := miniportCount + 1;
      first := 1 == miniportCount;
      calls := calls[a := if first then Waiting else Registered];
      model := Step(model, Enter(a));
    }

    /** One look at the state while waiting. */
    method TryStartCreation(a: nat) returns (started: bool)
      requires Valid() && PhaseOf(model, a) == Waiting
      modifies this
      ensures Valid() && model == Step(old(model), StartCreation(a)) && (started <==> old(controlDeviceState) == Ready)
    {
      StepKeepsInv(model, StartCreation(a));
      started := controlDeviceState == Ready;
      if started {
        controlDeviceState := Creating;
        calls := calls[a := InCreation];
      }
      model := Step(model, StartCreation(a));
    }

    /** `NdisMRegisterDevice`, with the lock dropped. */
    method CreateDevice(a: nat, ok: bool)
      requires Valid() && Enabled(model, Create(a, ok))
      modifies this
      ensures Valid() && model == Step(old(model), Create(a, ok))
    {
      StepKeepsInv(model, Create(a, ok));
      ndisDeviceHandle := ok;
      calls := calls[a := CreateDone];
      model := Step(model, Create(a, ok));
    }

    /** The end of a first registration or of a last deregistration. */
    method MakeReady(act: Action)
      requires Valid() && (act.FinishCreation? || act.FinishDeletion?) && Enabled(model, act)
      modifies this
      ensures Valid() && model == Step(old(model), act)
    {
      StepKeepsInv(model, act);
      controlDeviceState := Ready;
      calls := calls[act.a := if act.FinishCreation? then Registered else Idle];
      model := Step(model, act);
    }

    /** `PtDeregisterDevice` up to the unlock: only the last one out goes on. */
    method EnterDeregister(a: nat) returns (last: bool)
      requires Valid() && Enabled(model, Leave(a))
      modifies this
      ensures Valid() && model == Step(old(model), Leave(a)) && (last <==> PhaseOf(model, a) == InDeletion)
    {
      StepKeepsInv(model, Leave(a));
      miniportCount := miniportCount - 1;
      last := 0 == miniportCount;
      if last {
        controlDeviceState := Deleting;
      }
      calls := calls[a := if last then InDeletion else Idle];
      model := Step(model, Leave(a));
    }

    /** `NdisMDeregisterDevice`, with the lock dropped, when there is a device. */
    method DeleteDevice(a: nat)
      requires Valid() && Enabled(model, Delete(a))
      modifies this
      ensures Valid() && model == Step(old(model), Delete(a))
    {
      StepKeepsInv(model, Delete(a));
      if ndisDeviceHandle {
        ndisDeviceHandle := false;
      }
      calls := calls[a := DeleteDone];
      model := Step(model, Delete(a));
    }

    /** Any interleaving of the regions takes the globals where the state machine goes. */
    method PerformAll(acts: seq<Action>)
      requires Valid()
      modifies this
      ensures Valid() && model == Run(old(model), acts)
    {
      for n := 0 to |acts|
        invariant Valid() && model == Run(old(model), acts[..n])
      {
        assert acts[..n + 1][..n] == acts[..n];
        var act := acts[n];
        var phase := if act.a in calls then calls[act.a] else Idle;
        match act {
          case Enter(a) => if phase == Idle { var first := EnterRegister(a); }
          case StartCreation(a) => if phase == Waiting { var started := TryStartCreation(a); }
          case Create(a, ok) => if phase == InCreation { CreateDevice(a, ok); }
          case FinishCreation(a) => if phase == CreateDone { MakeReady(act); }
          case Leave(a) => if phase == Registered { var last := EnterDeregister(a); }
          case Delete(a) => if phase == InDeletion { DeleteDevice(a); }
          case FinishDeletion(a) => if phase == DeleteDone { MakeReady(act); }
        }
      }
      assert acts[..|acts|] == acts;
    }
  }
}
