/**
 Taking the driver's hooks down while any number of threads may be inside a detour. A pose callback
 is counted before it reads the driver pointer and until the driver is done with it; teardown
 stores null and then waits for the count to reach zero. Hook installers check twice, the second
 time under the setup mutex.

 Each step is one atomic access, one lock or unlock, or one call into MinHook, sequentially
 consistent. InjectHooks and DisableHooks are called by one thread, as the host does; the threads
 in the detours are any number, and may be anywhere in them at any time, hook enabled or not.
 */
module HookTeardown {

  const Bindings: nat := 2   // one per supported interface version

  // --- where each thread is ---

  datatype PosePc =
    | Outside
    | Counted        // counted, the driver not read yet
    | Inside         // in the driver
    | Leaving        // still counted, done with the driver or found none

  datatype InstallPc =
    | Idle
    | Asked(binding: nat)        // saw that requests are accepted
    | Locked(binding: nat)
    | Rechecked(binding: nat)    // saw it again, under the mutex
    | Hooked(binding: nat)       // the hook is created and enabled
    | Unlocking

  datatype ControlPc =
    | Down(released: bool)       // before the first InjectHooks and after a DisableHooks, with its result
    | Injecting(released: bool)  // locked; nothing has changed since Down
    | DriverStored
    | ContextHooked
    | Installed
    | Opened                     // requests accepted, still locked
    | Up
    | Stopping                   // no more requests
    | DriverCleared
    | Clearing(next: nat)        // locked
    | Disabling(next: nat)       // the context hook first, then each pose hook
    | Waiting

  datatype Owner = Free | Control | Installer(tid: nat)

  datatype State = State(
    driver: bool, accepting: bool, count: nat, mutex: Owner,
    ready: seq<bool>, enabled: seq<bool>, contextEnabled: bool,
    pose: seq<PosePc>, install: seq<InstallPc>, control: ControlPc)

  function Initial(poseThreads: nat, installThreads: nat): State {
    State(false, false, 0, Free, seq(Bindings, _ => false), seq(Bindings, _ => false), false,
          seq(poseThreads, _ => Outside), seq(installThreads, _ => Idle), Down(true))
  }

  // ---------------------------------------------------------------------------
  // The steps
  // ---------------------------------------------------------------------------

  datatype Event =
    | Pose(tid: nat)
    | Install(tid: nat, binding: nat, succeeds: bool)
    | Inject(succeeds: bool)
    | Teardown(succeeds: bool, timedOut: bool)

  /** A pose callback's next step. */
  function PoseStep(s: State, tid: nat): State
    requires tid < |s.pose|
  {
    match s.pose[tid]
    case Outside => s.(count := s.count + 1, pose := s.pose[tid := Counted])
    case Counted => s.(pose := s.pose[tid := if s.driver then Inside else Leaving])
    case Inside => s.(pose := s.pose[tid := Leaving])
    case Leaving => s.(count := if s.count > 0 then s.count - 1 else 0, pose := s.pose[tid := Outside])
  }

  /** A detoured GetGenericInterface that may install the hook it was asked for. */
  function InstallStep(s: State, tid: nat, binding: nat, succeeds: bool): (t: State)
    requires tid < |s.install| && |s.ready| == |s.enabled| == Bindings
    ensures |t.ready| == |t.enabled| == Bindings
  {
    match s.install[tid]
    case Idle => if s.accepting && binding < Bindings then s.(install := s.install[tid := Asked(binding)]) else s
    case Asked(b) =>
      if s.mutex.Free? then s.(mutex := Installer(tid), install := s.install[tid := Locked(b)]) else s
    case Locked(b) =>
      s.(install := s.install[tid := if s.accepting && b < Bindings && !s.ready[b] then Rechecked(b) else Unlocking])
    case Rechecked(b) =>
      if succeeds && b < Bindings then s.(enabled := s.enabled[b := true], install := s.install[tid := Hooked(b)])
      else s.(install := s.install[tid := Unlocking])
    case Hooked(b) =>
      if b < Bindings then s.(ready := s.ready[b := true], install := s.install[tid := Unlocking]) else s
    case Unlocking => s.(mutex := Free, install := s.install[tid := Idle])
  }

  function InjectStep(s: State, succeeds: bool): State {
    match s.control
    case Down(released) => if s.mutex.Free? then s.(mutex := Control, control := Injecting(released)) else s
    case Injecting(released) =>
      if succeeds then s.(driver := true, control := DriverStored)
      else s.(mutex := Free, control := Down(released))      // MinHook would not start
    case DriverStored =>
      // A callback may have read the driver before it is withdrawn again.
      if succeeds then s.(contextEnabled := true, control := ContextHooked)
      else s.(driver := false, mutex := Free, control := Down(false))
    case ContextHooked => s.(control := Installed)
    case Installed => s.(accepting := true, control := Opened)
    case Opened => s.(mutex := Free, control := Up)
    case _ => s
  }

  /** MinHook may refuse to disable a hook; it is then left, and only forwards. */
  function TeardownStep(s: State, succeeds: bool, timedOut: bool): (t: State)
    requires |s.ready| == |s.enabled| == Bindings
    ensures |t.ready| == |t.enabled| == Bindings
  {
    match s.control
    case Up => s.(accepting := false, control := Stopping)
    case Down(_) => s.(accepting := false, control := Stopping)
    case Stopping => s.(driver := false, control := DriverCleared)
    case DriverCleared => if s.mutex.Free? then s.(mutex := Control, control := Clearing(0)) else s
    case Clearing(next) =>
      if next < Bindings then s.(ready := s.ready[next := false], control := Clearing(next + 1))
      else s.(contextEnabled := s.contextEnabled && !succeeds, control := Disabling(0))
    case Disabling(next) =>
      if next < Bindings then s.(enabled := s.enabled[next := s.enabled[next] && !succeeds], control := Disabling(next + 1))
      else s.(mutex := Free, control := Waiting)
    case Waiting => if s.count == 0 then s.(control := Down(true)) else if timedOut then s.(control := Down(false)) else s
    case _ => s
  }

  function Step(s: State, event: Event): (t: State)
    requires |s.ready| == |s.enabled| == Bindings
    ensures |t.ready| == |t.enabled| == Bindings
  {
    match event
    case Pose(tid) => if tid < |s.pose| then PoseStep(s, tid) else s
    case Install(tid, binding, succeeds) => if tid < |s.install| then InstallStep(s, tid, binding, succeeds) else s
    case Inject(succeeds) => InjectStep(s, succeeds)
    case Teardown(succeeds, timedOut) => TeardownStep(s, succeeds, timedOut)
  }

  // ---------------------------------------------------------------------------
  // The invariant
  // ---------------------------------------------------------------------------

  function InDetour(pose: seq<PosePc>): nat {
    if pose == [] then 0 else (if pose[0].Outside? then 0 else 1) + InDetour(pose[1..])
  }

  predicate NoneInside(pose: seq<PosePc>) {
    forall t :: 0 <= t < |pose| ==> !pose[t].Inside?
  }

  predicate Holds(pc: InstallPc) {
    pc.Locked? || pc.Rechecked? || pc.Hooked? || pc.Unlocking?
  }

  predicate ControlHolds(pc: ControlPc) {
    pc.Injecting? || pc.DriverStored? || pc.ContextHooked? || pc.Installed? || pc.Opened?
    || pc.Clearing? || pc.Disabling?
  }

  /** From the moment teardown holds the mutex until the next InjectHooks lets requests in again. */
  predicate TornDown(pc: ControlPc) {
    pc.Disabling? || pc.Waiting? || pc.Down? || pc.Injecting? || pc.DriverStored? || pc.ContextHooked? || pc.Installed?
  }

  predicate Released(s: State) {
    s.control == Down(true) || s.control == Injecting(true)
  }

  predicate MutexInv(s: State) {
    && (s.mutex.Control? <==> ControlHolds(s.control))
    && (forall t :: 0 <= t < |s.install| ==> (Holds(s.install[t]) <==> s.mutex == Installer(t)))
    && (s.mutex.Installer? ==> s.mutex.tid < |s.install|)
  }

  predicate ReadyInv(s: State) {
    ReadyIsEnabled(s.ready, s.enabled, s.install) && NoLateInstaller(s.control, s.install) && ReadyCleared(s.control, s.ready)
  }

  predicate ReadyIsEnabled(ready: seq<bool>, enabled: seq<bool>, install: seq<InstallPc>) {
    && |ready| == |enabled| == Bindings
    && (forall b :: 0 <= b < Bindings && ready[b] ==> enabled[b])
    && (forall t :: 0 <= t < |install| && install[t].Hooked? ==> install[t].binding < Bindings && enabled[install[t].binding])
  }

  predicate NoLateInstaller(control: ControlPc, install: seq<InstallPc>) {
    TornDown(control) ==> forall t :: 0 <= t < |install| ==> !install[t].Rechecked? && !install[t].Hooked?
  }

  predicate ReadyCleared(control: ControlPc, ready: seq<bool>) {
    && |ready| == Bindings
    && (TornDown(control) ==> forall b :: 0 <= b < Bindings ==> !ready[b])
    && (control.Clearing? ==> control.next <= Bindings && forall b :: 0 <= b < control.next ==> !ready[b])
  }

  predicate DriverInv(s: State) {
    && s.count == InDetour(s.pose)
    && (s.accepting ==> s.control.Opened? || s.control.Up?)
    && (s.driver ==> s.control.DriverStored? || s.control.ContextHooked? || s.control.Installed? || s.control.Opened?
                     || s.control.Up? || s.control.Stopping?)
    && (Released(s) ==> NoneInside(s.pose))
  }

  predicate Inv(s: State) {
    MutexInv(s) && ReadyInv(s) && DriverInv(s)
  }

  lemma {:induction false} NobodyInDetour(threads: nat)
    ensures InDetour(seq(threads, _ => Outside)) == 0
    decreases threads
  {
    if threads > 0 {
      assert seq(threads, _ => Outside)[1..] == seq(threads - 1, _ => Outside);
      NobodyInDetour(threads - 1);
    }
  }

  lemma InitialInv(poseThreads: nat, installThreads: nat)
    ensures Inv(Initial(poseThreads, installThreads))
  {
    NobodyInDetour(poseThreads);
  }

  lemma {:induction false} InDetourUpdate(pose: seq<PosePc>, tid: nat, pc: PosePc)
    requires tid < |pose|
    ensures InDetour(pose[tid := pc]) ==
            InDetour(pose) + (if pc.Outside? then 0 else 1) - (if pose[tid].Outside? then 0 else 1)
    decreases |pose|
  {
    if tid == 0 {
      assert pose[0 := pc][1..] == pose[1..];
    } else {
      assert pose[tid := pc][1..] == pose[1..][tid - 1 := pc];
      InDetourUpdate(pose[1..], tid - 1, pc);
    }
  }

  /** A count of zero means every thread is outside. */
  lemma {:induction false} NobodyCounted(pose: seq<PosePc>)
    requires InDetour(pose) == 0
    ensures forall t :: 0 <= t < |pose| ==> pose[t].Outside?
    decreases |pose|
  {
    if pose != [] {
      NobodyCounted(pose[1..]);
    }
  }

  lemma PoseKeeps(s: State, tid: nat)
    requires Inv(s) && tid < |s.pose|
    ensures Inv(PoseStep(s, tid))
  {
    hide ReadyIsEnabled, NoLateInstaller, ReadyCleared, MutexInv, InDetour;
    var t := PoseStep(s, tid);
    InDetourUpdate(s.pose, tid, t.pose[tid]);
    MutexUntouched(s, t);
  }

  lemma MutexUntouched(s: State, t: State)
    requires MutexInv(s) && t.mutex == s.mutex && t.install == s.install && t.control == s.control
    ensures MutexInv(t)
  {
  }

  lemma InstallKeeps(s: State, tid: nat, binding: nat, succeeds: bool)
    requires Inv(s) && tid < |s.install|
    ensures Inv(InstallStep(s, tid, binding, succeeds))
  {
    InstallKeepsMutex(s, tid, binding, succeeds);
    InstallKeepsReady(s, tid, binding, succeeds);
    hide InDetour, NoneInside, MutexInv, ReadyIsEnabled, NoLateInstaller, ReadyCleared;
  }

  lemma InstallKeepsMutex(s: State, tid: nat, binding: nat, succeeds: bool)
    requires MutexInv(s) && |s.ready| == |s.enabled| == Bindings && tid < |s.install|
    ensures MutexInv(InstallStep(s, tid, binding, succeeds))
  {
  }

  lemma InstallKeepsReady(s: State, tid: nat, binding: nat, succeeds: bool)
    requires Inv(s) && tid < |s.install|
    ensures ReadyInv(InstallStep(s, tid, binding, succeeds))
  {
    InstallKeepsLate(s, tid, binding, succeeds);
    InstallKeepsCleared(s, tid, binding, succeeds);
    InstallKeepsEnabled(s, tid, binding, succeeds);
    hide *;
  }

  lemma InstallKeepsLate(s: State, tid: nat, binding: nat, succeeds: bool)
    requires Inv(s) && tid < |s.install|
    ensures var t := InstallStep(s, tid, binding, succeeds); NoLateInstaller(t.control, t.install)
  {
    hide InDetour, NoneInside, MutexInv, ReadyIsEnabled, ReadyCleared;
  }

  lemma InstallKeepsCleared(s: State, tid: nat, binding: nat, succeeds: bool)
    requires Inv(s) && tid < |s.install|
    ensures var t := InstallStep(s, tid, binding, succeeds); ReadyCleared(t.control, t.ready)
  {
    hide DriverInv, ReadyIsEnabled;
  }

  lemma InstallKeepsEnabled(s: State, tid: nat, binding: nat, succeeds: bool)
    requires Inv(s) && tid < |s.install|
    ensures var t := InstallStep(s, tid, binding, succeeds); ReadyIsEnabled(t.ready, t.enabled, t.install)
  {
    hide DriverInv, MutexInv, NoLateInstaller, ReadyCleared, ReadyIsEnabled;
    EnabledStays(s.ready, s.enabled, s.install, tid, Unlocking);
    match s.install[tid]
    case Idle => EnabledStays(s.ready, s.enabled, s.install, tid, Asked(binding));
    case Asked(b) => EnabledStays(s.ready, s.enabled, s.install, tid, Locked(b));
    case Locked(b) => EnabledStays(s.ready, s.enabled, s.install, tid, Rechecked(b));
    case Rechecked(b) => if succeeds && b < Bindings { EnabledNow(s.ready, s.enabled, s.install, tid, b); }
    case Hooked(b) => ReadyNow(s.ready, s.enabled, s.install, tid, b);
    case Unlocking => EnabledStays(s.ready, s.enabled, s.install, tid, Idle);
  }

  lemma EnabledStays(ready: seq<bool>, enabled: seq<bool>, install: seq<InstallPc>, tid: nat, pc: InstallPc)
    requires ReadyIsEnabled(ready, enabled, install) && tid < |install|
    ensures pc.Hooked? || ReadyIsEnabled(ready, enabled, install[tid := pc])
  {
  }

  lemma EnabledNow(ready: seq<bool>, enabled: seq<bool>, install: seq<InstallPc>, tid: nat, b: nat)
    requires ReadyIsEnabled(ready, enabled, install) && tid < |install| && b < Bindings
    ensures ReadyIsEnabled(ready, enabled[b := true], install[tid := Hooked(b)])
  {
  }

  lemma ReadyNow(ready: seq<bool>, enabled: seq<bool>, install: seq<InstallPc>, tid: nat, b: nat)
    requires ReadyIsEnabled(ready, enabled, install) && tid < |install| && install[tid] == Hooked(b)
    ensures b < Bindings && ReadyIsEnabled(ready[b := true], enabled, install[tid := Unlocking])
  {
  }

  lemma InjectKeeps(s: State, succeeds: bool)
    requires Inv(s)
    ensures Inv(InjectStep(s, succeeds))
  {
    var t := InjectStep(s, succeeds);
    hide InDetour, NoneInside, ReadyIsEnabled;
    assert MutexInv(t) by { hide ReadyInv, DriverInv; }
    assert ReadyInv(t) by { hide MutexInv, DriverInv; }
    hide ReadyInv, MutexInv;
  }

  lemma TeardownKeeps(s: State, succeeds: bool, timedOut: bool)
    requires Inv(s)
    ensures Inv(TeardownStep(s, succeeds, timedOut))
  {
    var t := TeardownStep(s, succeeds, timedOut);
    TeardownKeepsReady(s, succeeds, timedOut);
    assert MutexInv(t) by { hide ReadyInv, DriverInv; }
    if s.count == 0 {
      NobodyCounted(s.pose);
    }
    hide InDetour, ReadyInv;
  }

  /** An installer that saw requests accepted still holds the mutex teardown is waiting for. */
  lemma TeardownKeepsReady(s: State, succeeds: bool, timedOut: bool)
    requires Inv(s)
    ensures ReadyInv(TeardownStep(s, succeeds, timedOut))
  {
    TeardownKeepsLate(s, succeeds, timedOut);
    TeardownKeepsCleared(s, succeeds, timedOut);
    TeardownKeepsEnabled(s, succeeds, timedOut);
    hide *;
  }

  lemma TeardownKeepsLate(s: State, succeeds: bool, timedOut: bool)
    requires Inv(s)
    ensures var t := TeardownStep(s, succeeds, timedOut); NoLateInstaller(t.control, t.install)
  {
    hide DriverInv, ReadyIsEnabled, ReadyCleared;
  }

  lemma TeardownKeepsCleared(s: State, succeeds: bool, timedOut: bool)
    requires Inv(s)
    ensures var t := TeardownStep(s, succeeds, timedOut); ReadyCleared(t.control, t.ready)
  {
    hide DriverInv, ReadyIsEnabled, NoLateInstaller, MutexInv;
  }

  lemma TeardownKeepsEnabled(s: State, succeeds: bool, timedOut: bool)
    requires Inv(s)
    ensures var t := TeardownStep(s, succeeds, timedOut); ReadyIsEnabled(t.ready, t.enabled, t.install)
  {
    hide DriverInv, MutexInv;
    if s.control.Disabling? {
      assert forall b :: 0 <= b < Bindings ==> !s.ready[b];
    }
  }

  lemma StepKeeps(s: State, event: Event)
    requires Inv(s)
    ensures Inv(Step(s, event))
  {
    match event
    case Pose(tid) => if tid < |s.pose| { PoseKeeps(s, tid); }
    case Install(tid, binding, succeeds) => if tid < |s.install| { InstallKeeps(s, tid, binding, succeeds); }
    case Inject(succeeds) => InjectKeeps(s, succeeds);
    case Teardown(succeeds, timedOut) => TeardownKeeps(s, succeeds, timedOut);
  }

  function Run(s: State, events: seq<Event>): (t: State)
    requires |s.ready| == |s.enabled| == Bindings
    ensures |t.ready| == |t.enabled| == Bindings
    decreases |events|
  {
    if events == [] then s else Run(Step(s, events[0]), events[1..])
  }

  lemma {:induction false} RunKeeps(s: State, events: seq<Event>)
    requires Inv(s)
    ensures Inv(Run(s, events))
    decreases |events|
  {
    if events != [] {
      StepKeeps(s, events[0]);
      RunKeeps(Step(s, events[0]), events[1..]);
    }
  }

  // ---------------------------------------------------------------------------
  // What teardown promises
  // ---------------------------------------------------------------------------

  /** No step stores a driver again. */
  predicate NoInject(events: seq<Event>) {
    forall i :: 0 <= i < |events| ==> !events[i].Inject?
  }

  /** With no driver stored and nobody inside, nobody gets in, whatever else happens. */
  lemma {:induction false} NothingEnters(s: State, events: seq<Event>)
    requires |s.ready| == |s.enabled| == Bindings && !s.driver && NoneInside(s.pose) && NoInject(events)
    ensures var t := Run(s, events); !t.driver && NoneInside(t.pose)
    decreases |events|
  {
    if events != [] {
      NothingEntersOnce(s, events[0]);
      NothingEnters(Step(s, events[0]), events[1..]);
    }
  }

  lemma NothingEntersOnce(s: State, event: Event)
    requires |s.ready| == |s.enabled| == Bindings && !s.driver && NoneInside(s.pose) && !event.Inject?
    ensures !Step(s, event).driver && NoneInside(Step(s, event).pose)
  {
  }

  /**
   Once DisableHooks has returned true, no callback is inside the driver and none enters it before
   the next InjectHooks, for any number of threads and any interleaving before and after.
   */
  lemma TeardownReleasesTheDriver(poseThreads: nat, installThreads: nat, before: seq<Event>, after: seq<Event>)
    requires Run(Initial(poseThreads, installThreads), before).control == Down(true) && NoInject(after)
    ensures var t := Run(Run(Initial(poseThreads, installThreads), before), after);
            !t.driver && NoneInside(t.pose)
  {
    InitialInv(poseThreads, installThreads);
    RunKeeps(Initial(poseThreads, installThreads), before);
    NothingEnters(Run(Initial(poseThreads, installThreads), before), after);
  }

  /** A pose hook that is reported ready is enabled, and none is reported once teardown has returned. */
  lemma ReadyMeansHooked(poseThreads: nat, installThreads: nat, events: seq<Event>, binding: nat)
    requires binding < Bindings
    ensures var t := Run(Initial(poseThreads, installThreads), events);
            && (t.ready[binding] ==> t.enabled[binding])
            && (t.control.Down? ==> !t.ready[binding] && !t.accepting)
            && (t.control.Down? ==> forall i :: 0 <= i < |t.install| ==> !t.install[i].Rechecked? && !t.install[i].Hooked?)
  {
    InitialInv(poseThreads, installThreads);
    RunKeeps(Initial(poseThreads, installThreads), events);
    hide InDetour;
  }


  // ---------------------------------------------------------------------------
  // What gets done
  // ---------------------------------------------------------------------------

  /** What a callback has left to do; one that has not read the driver yet may still have to call it. */
  function CallbackLeft(pc: PosePc): nat {
    match pc
    case Outside => 0
    case Counted => 3
    case Inside => 2
    case Leaving => 1
  }

  /**
   A counted callback enters the driver exactly when one is stored, one that is inside comes out,
   and each of its steps brings it closer to the end of its guard, where the count falls by one.
   */
  lemma CallbackGoesThrough(s: State, tid: nat)
    requires Inv(s) && tid < |s.pose|
    ensures var t := PoseStep(s, tid);
            && (s.pose[tid].Outside? ==> t.pose[tid].Counted? && t.count == s.count + 1)
            && (s.pose[tid].Counted? ==> (t.pose[tid].Inside? <==> s.driver))
            && (!s.pose[tid].Outside? ==> CallbackLeft(t.pose[tid]) < CallbackLeft(s.pose[tid]))
            && (s.pose[tid].Leaving? <==> !s.pose[tid].Outside? && t.pose[tid].Outside?)
            && (s.pose[tid].Leaving? ==> t.count == s.count - 1)
            && (s.pose[tid].Counted? || s.pose[tid].Inside? ==> t.count == s.count)
  {
    InDetourUpdate(s.pose, tid, Outside);
  }

  function HolderLeft(pc: InstallPc): nat {
    match pc
    case Locked(_) => 4
    case Rechecked(_) => 3
    case Hooked(_) => 2
    case Unlocking => 1
    case _ => 0
  }

  /** An installer that holds the mutex is on its way to giving it back. */
  lemma InstallerGivesBack(s: State, tid: nat, binding: nat, succeeds: bool)
    requires Inv(s) && s.mutex == Installer(tid)
    ensures var t := InstallStep(s, tid, binding, succeeds);
            && HolderLeft(t.install[tid]) < HolderLeft(s.install[tid])
            && (t.mutex.Free? <==> s.install[tid].Unlocking?)
  {
    hide DriverInv;
  }

  function TeardownLeft(pc: ControlPc): nat {
    match pc
    case Stopping => 2 * Bindings + 6
    case DriverCleared => 2 * Bindings + 5
    case Clearing(next) => Bindings + 4 + if next < Bindings then Bindings - next else 0
    case Disabling(next) => 3 + if next < Bindings then Bindings - next else 0
    case Waiting => 1
    case _ => 0
  }

  predicate TearingDown(pc: ControlPc) {
    pc.Stopping? || pc.DriverCleared? || pc.Clearing? || pc.Disabling? || pc.Waiting?
  }

  /**
   A teardown moves on with every step, but where it waits for an installer's mutex or for the
   callbacks; and its result is true exactly when no callback was counted at its last look.
   */
  lemma TeardownGoesOn(s: State, succeeds: bool, timedOut: bool)
    requires Inv(s) && TearingDown(s.control)
    ensures var t := TeardownStep(s, succeeds, timedOut);
            && (if (s.control.DriverCleared? && s.mutex.Installer?) || (s.control.Waiting? && s.count > 0 && !timedOut) then t == s
                else TeardownLeft(t.control) < TeardownLeft(s.control))
            && (t.control.Down? <==> s.control.Waiting? && (s.count == 0 || timedOut))
            && (t.control.Down? ==> (t.control.released <==> s.count == 0))
            && (TearingDown(t.control) || t.control.Down?)
  {
    hide DriverInv, ReadyIsEnabled, NoLateInstaller;
  }

  /** With MinHook refusing nothing, no hook is left enabled behind it. */
  predicate Disabled(s: State) {
    && |s.ready| == |s.enabled| == Bindings
    && (s.control.Disabling? || s.control.Waiting? ==> !s.contextEnabled)
    && (s.control.Disabling? ==> s.control.next <= Bindings && forall b :: 0 <= b < s.control.next ==> !s.enabled[b])
    && (s.control.Waiting? ==> forall b :: 0 <= b < Bindings ==> !s.enabled[b])
  }

  predicate Unrefused(event: Event) {
    match event
    case Teardown(succeeds, _) => succeeds
    case Inject(_) => false
    case _ => true
  }

  lemma DisabledStep(s: State, event: Event)
    requires Inv(s) && Disabled(s) && TearingDown(s.control) && Unrefused(event)
    ensures var t := Step(s, event);
            && Inv(t)
            && (TearingDown(t.control) ==> Disabled(t))
            && (t.control.Down? ==> !t.contextEnabled && forall b :: 0 <= b < Bindings ==> !t.enabled[b])
  {
    StepKeeps(s, event);
    hide DriverInv, MutexInv, ReadyCleared, ReadyIsEnabled;
  }

  /** From the moment a teardown begins until it returns. */
  lemma {:induction false} TeardownDisablesEveryHook(s: State, events: seq<Event>)
    requires Inv(s) && (s.control.Stopping? || s.control.DriverCleared? || s.control.Clearing?)
    requires forall i :: 0 <= i < |events| ==> Unrefused(events[i])
    requires forall i :: 0 <= i < |events| ==> TearingDown(Run(s, events[..i]).control)
    ensures Run(s, events).control.Down? ==>
              !Run(s, events).contextEnabled && forall b :: 0 <= b < Bindings ==> !Run(s, events).enabled[b]
  {
    DisabledRun(s, events);
  }

  lemma {:induction false} DisabledRun(s: State, events: seq<Event>)
    requires Inv(s) && Disabled(s) && |s.ready| == |s.enabled| == Bindings
    requires forall i :: 0 <= i < |events| ==> Unrefused(events[i])
    requires forall i :: 0 <= i < |events| ==> TearingDown(Run(s, events[..i]).control)
    requires TearingDown(s.control)
    ensures Run(s, events).control.Down? ==>
              !Run(s, events).contextEnabled && forall b :: 0 <= b < Bindings ==> !Run(s, events).enabled[b]
    decreases |events|
  {
    hide Inv, Disabled, Unrefused;
    if events != [] {
      var t := Step(s, events[0]);
      DisabledStep(s, events[0]);
      if |events| == 1 {
        assert Run(s, events) == t;
      } else {
        forall i | 0 <= i < |events| - 1 ensures TearingDown(Run(t, events[1..][..i]).control) {
          assert events[..i + 1][1..] == events[1..][..i];
          assert Run(s, events[..i + 1]) == Run(t, events[1..][..i]);
        }
        assert events[1..][..0] == [];
        assert Run(t, []) == t;
        DisabledRun(t, events[1..]);
      }
    }
  }

  function Again(event: Event, n: nat): seq<Event> {
    if n == 0 then [] else [event] + Again(event, n - 1)
  }

  lemma OnceMore(s: State, event: Event, n: nat)
    requires |s.ready| == |s.enabled| == Bindings
    ensures Run(s, Again(event, n + 1)) == Run(Step(s, event), Again(event, n))
  {
    assert Again(event, n + 1)[0] == event && Again(event, n + 1)[1..] == Again(event, n);
  }

  /** An InjectHooks that nothing refuses ends with the driver stored, the context hook enabled and requests accepted. */
  lemma InjectServes(s: State)
    requires Inv(s) && s.control.Down? && s.mutex.Free?
    ensures var t := Run(s, Again(Inject(true), 6));
            && t.control.Up? && t.driver && t.contextEnabled && t.accepting && t.mutex.Free?
            && t.pose == s.pose && t.install == s.install
  {
    hide Run, Again;
    var a := Step(s, Inject(true));
    var b := Step(a, Inject(true));
    var c := Step(b, Inject(true));
    var d := Step(c, Inject(true));
    var e := Step(d, Inject(true));
    OnceMore(s, Inject(true), 5);
    OnceMore(a, Inject(true), 4);
    OnceMore(b, Inject(true), 3);
    OnceMore(c, Inject(true), 2);
    OnceMore(d, Inject(true), 1);
    OnceMore(e, Inject(true), 0);
    NoMore(Step(e, Inject(true)), Inject(true));
  }

  lemma NoMore(s: State, event: Event)
    requires |s.ready| == |s.enabled| == Bindings
    ensures Run(s, Again(event, 0)) == s
  {
  }

  /** A request for a binding that is not ready, made while requests are accepted, ends with its hook enabled and ready. */
  lemma InstallHooksIt(s: State, tid: nat, binding: nat)
    requires Inv(s) && s.accepting && s.mutex.Free? && tid < |s.install| && s.install[tid].Idle?
    requires binding < Bindings && !s.ready[binding]
    ensures var t := Run(s, Again(Install(tid, binding, true), 6));
            t.ready == s.ready[binding := true] && t.enabled == s.enabled[binding := true] && t.mutex.Free? && t.install == s.install
  {
    hide Run, Again, DriverInv, MutexInv, NoLateInstaller, ReadyCleared;
    var step := Install(tid, binding, true);
    var a := Step(s, step);
    var b := Step(a, step);
    var c := Step(b, step);
    var d := Step(c, step);
    var e := Step(d, step);
    OnceMore(s, step, 5);
    OnceMore(a, step, 4);
    OnceMore(b, step, 3);
    OnceMore(c, step, 2);
    OnceMore(d, step, 1);
    OnceMore(e, step, 0);
    NoMore(Step(e, step), step);
    assert Step(e, step).install == s.install;
  }
}
