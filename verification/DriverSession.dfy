/**
 One driver conversation: handshake, optional recovery of the frame corrections, one complete
 state. Whatever falls short of a complete batch comes back with everything cleared, and whatever
 is shipped passes the driver's structural checks.

 Masks are one flag per slot. The transport is the list of replies it will give.
 */
module DriverSession {
  import opened Common
  import opened Rotations
  import opened AlignmentField
  import FrameRecovery

  const Hmd: nat := 0

  // ---------------------------------------------------------------------------
  // The slot policy
  // ---------------------------------------------------------------------------

  datatype DeviceClass = InvalidClass | HmdClass | OtherClass

  /** A property that could not be read is None. */
  datatype Device = Device(deviceClass: DeviceClass, trackingSystem: Option<string>, serial: Option<string>)

  datatype Desired = Desired(reference: string, target: string, transform: Rigid, scale: real, timeShift: real,
                             generation: nat, continuousArmed: bool, hideMountedTracker: bool, trackerSerial: string)

  datatype Decision = Decision(apply: bool, hidden: bool, reference: bool, target: bool, tracker: bool, disableProfile: bool)

  function DecideSlot(desired: Desired, id: nat, device: Device): Decision {
    if device.deviceClass.InvalidClass? || device.trackingSystem.None? then Decision(false, false, false, false, false, false)
    else
      var reference := device.trackingSystem.value == desired.reference;
      var target := device.trackingSystem.value == desired.target;
      if id == Hmd then Decision(false, false, reference, target, false, !reference)
      else if !target then Decision(false, false, reference, target, false, false)
      else
        var tracker := desired.trackerSerial != "" && device.serial == Some(desired.trackerSerial);
        Decision(true, desired.continuousArmed && desired.hideMountedTracker && tracker, reference, target, tracker, false)
  }

  datatype SlotState = SlotState(enabled: seq<bool>, hidden: seq<bool>, reference: seq<bool>, target: seq<bool>,
                                 hmdMismatch: bool, tracker: Option<nat>)

  function Nowhere(): seq<bool> { seq(Slots, _ => false) }

  predicate Decided(desired: Desired, devices: seq<Device>, upTo: nat, s: SlotState)
    requires upTo <= |devices|
  {
    && |s.enabled| == |s.hidden| == |s.reference| == |s.target| == upTo
    && (forall id :: 0 <= id < upTo ==>
         var d := DecideSlot(desired, id, devices[id]);
         && s.enabled[id] == d.apply && s.hidden[id] == d.hidden && s.reference[id] == d.reference
         && s.target[id] == d.target && (d.disableProfile ==> s.hmdMismatch))
    && (s.hmdMismatch ==> exists id :: 0 <= id < upTo && DecideSlot(desired, id, devices[id]).disableProfile)
    && TrackerIs(desired, devices, upTo, s.tracker)
  }

  /** The slots that decide they hold the tracker; of several the last one counts. */
  predicate TrackerIs(desired: Desired, devices: seq<Device>, upTo: nat, tracker: Option<nat>)
    requires upTo <= |devices|
  {
    match tracker
    case None => forall id :: 0 <= id < upTo ==> !DecideSlot(desired, id, devices[id]).tracker
    case Some(last) =>
      && last < upTo && DecideSlot(desired, last, devices[last]).tracker
      && forall id :: last < id < upTo ==> !DecideSlot(desired, id, devices[id]).tracker
  }

  method DeriveDriverSlotState(desired: Desired, devices: seq<Device>) returns (s: SlotState)
    ensures Decided(desired, devices, |devices|, s)
  {
    s := SlotState([], [], [], [], false, None);
    for id := 0 to |devices|
      invariant Decided(desired, devices, id, s)
    {
      hide DecideSlot;
      var d := DecideSlot(desired, id, devices[id]);
      s := SlotState(s.enabled + [d.apply], s.hidden + [d.hidden], s.reference + [d.reference], s.target + [d.target],
                     s.hmdMismatch || d.disableProfile, if d.tracker then Some(id) else s.tracker);
    }
  }

  // ---------------------------------------------------------------------------
  // The wire
  // ---------------------------------------------------------------------------

  datatype Field = Field(enabled: bool, generation: nat, anchorCount: nat, sigma: real, anchors: seq<LocalDelta>)

  datatype RuntimeState = RuntimeState(
    transformSlot: nat, transformEnabled: bool, transformHidden: bool, transform: Rigid, scale: real, timeOffset: real,
    generation: nat, enabled: seq<bool>, hidden: seq<bool>, field: Field,
    frames: seq<Rigid>, frameKeys: seq<nat>, profileKey: nat, expectedSession: nat)

  /** What the driver demands of a state besides its numbers. */
  predicate DriverAccepts(state: RuntimeState) {
    && |state.enabled| == |state.hidden| == |state.frames| == |state.frameKeys| == Slots
    && state.transformSlot == 0 && state.transformEnabled && !state.transformHidden
    && (forall id :: 0 <= id < Slots && state.hidden[id] ==> state.enabled[id])
    && (state.field.enabled ==> true in state.enabled)
  }

  predicate WellFormed(state: RuntimeState) {
    DriverAccepts(state) && (!state.field.enabled ==> state.field.anchorCount == 0)
  }

  /** The driver's structural checks, in its order. */
  method ValidateStructure(state: RuntimeState) returns (ok: bool)
    requires |state.enabled| == |state.hidden| == |state.frames| == |state.frameKeys| == Slots
    ensures ok <==> DriverAccepts(state)
  {
    var some := false;
    for id := 0 to Slots
      invariant forall i :: 0 <= i < id && state.hidden[i] ==> state.enabled[i]
      invariant some == (exists i :: 0 <= i < id && state.enabled[i])
    {
      if state.hidden[id] && !state.enabled[id] {
        return false;
      }
      some := some || state.enabled[id];
    }
    if state.transformSlot != 0 || !state.transformEnabled || state.transformHidden {
      return false;
    }
    if state.field.enabled && !some {
      return false;
    }
    ok := true;
  }

  datatype Request = Handshake | GetRuntimeState | SetRuntimeState(state: RuntimeState) | DisableTransform(id: nat)

  datatype RejectReason = NoReason | InvalidValues | OtherReason

  datatype Response =
    | Success
    | HandshakeReply(version: bool, poseHooks: nat, session: nat)
    | RuntimeStateReply(version: bool, saved: FrameRecovery.Checkpoint)
    | Invalid(reason: RejectReason)

  /** No response is a transport that failed. */
  datatype Reply = Reply(response: Option<Response>, versionMismatch: bool, generation: nat)

  predicate AcceptedReply(request: Request, reply: Reply) {
    && reply.response.Some?
    && match reply.response.value
       case Success => !request.GetRuntimeState?
       case HandshakeReply(version, _, _) => request.Handshake? && version
       case RuntimeStateReply(version, _) => request.GetRuntimeState? && version
       case Invalid(_) => false
  }

  datatype Exchange = Exchange(request: Request, reply: Reply)

  /** Every request of a batch was accepted, all by one connection; generation zero names none. */
  predicate OneConnection(exchanges: seq<Exchange>) {
    && (forall i :: 0 <= i < |exchanges| ==> AcceptedReply(exchanges[i].request, exchanges[i].reply))
    && (forall i, j :: 0 <= i < j < |exchanges| && exchanges[i].reply.generation != 0 ==>
         exchanges[j].reply.generation == exchanges[i].reply.generation)
  }

  /** The generation the batch is bound to so far. */
  predicate BoundTo(exchanges: seq<Exchange>, generation: nat) {
    && OneConnection(exchanges)
    && (generation == 0 ==> forall i :: 0 <= i < |exchanges| ==> exchanges[i].reply.generation == 0)
    && (generation != 0 ==> exchanges != [] && exchanges[|exchanges| - 1].reply.generation == generation)
  }

  /** The batch stays on one connection exactly when the next reply accepts and comes from the bound one. */
  lemma BoundGrows(exchanges: seq<Exchange>, generation: nat, next: Exchange)
    requires BoundTo(exchanges, generation)
    ensures OneConnection(exchanges + [next]) <==>
              AcceptedReply(next.request, next.reply) && (generation == 0 || next.reply.generation == generation)
    ensures OneConnection(exchanges + [next]) ==> BoundTo(exchanges + [next], next.reply.generation)
  {
    var more := exchanges + [next];
    assert more[|exchanges|] == next;
    assert forall i :: 0 <= i < |exchanges| ==> more[i] == exchanges[i];
  }

  // ---------------------------------------------------------------------------
  // A reconciliation
  // ---------------------------------------------------------------------------

  datatype Cause = NoCause | HmdMismatch | DriverUnreachable | DriverVersionMismatch | DriverRefusedValues

  datatype ApplyRequest = ApplyRequest(
    enabled: bool, desired: Desired, devices: seq<Device>, field: Field, frames: seq<Rigid>, frameKeys: seq<nat>,
    bound: seq<bool>, profileKey: nat, session: nat, recoverFrames: bool)
  {
    predicate Shaped() { |devices| == |frames| == |frameKeys| == |bound| == Slots }
  }

  datatype ApplyResult = ApplyResult(
    enabled: bool, synchronized: bool, cause: Cause, reference: seq<bool>, target: seq<bool>, tracker: Option<nat>,
    session: nat, recoveryChecked: bool, framesRecovered: bool, frames: seq<Rigid>, frameKeys: seq<nat>)

  predicate Cleared(r: ApplyResult) {
    !r.enabled && r.reference == Nowhere() && r.target == Nowhere() && r.tracker.None?
  }

  /** A slot with a parked correction, not yet bound to the device the correction belongs to. */
  predicate ParkedSlot(state: RuntimeState, bound: seq<bool>, id: nat)
    requires id < Slots && |state.frameKeys| == |bound| == Slots
  {
    state.frameKeys[id] != 0 && !bound[id]
  }

  /** What is shipped and told of slot `id`: its decision, without a correction parked in it. */
  predicate SlotAgrees(request: ApplyRequest, state: RuntimeState, r: ApplyResult, id: nat)
    requires request.Shaped() && id < Slots
    requires |state.enabled| == |state.hidden| == |state.frameKeys| == |r.target| == |r.reference| == Slots
  {
    var d, parked := DecideSlot(request.desired, id, request.devices[id]), ParkedSlot(state, request.bound, id);
    && (state.enabled[id] <==> d.apply && !parked) && (state.hidden[id] <==> d.hidden && !parked)
    && (r.target[id] <==> d.target && !parked) && (r.reference[id] <==> d.reference)
  }

  /** The tracker told is the one decided, unless a correction is parked in its slot. */
  ghost predicate TrackerAgrees(request: ApplyRequest, state: RuntimeState, r: ApplyResult)
    requires request.Shaped() && |state.frameKeys| == Slots
  {
    exists last :: TrackerIs(request.desired, request.devices, Slots, last)
                   && r.tracker == if last.Some? && ParkedSlot(state, request.bound, last.value) then None else last
  }

  /**
   What the caller may believe about the profile is what was shipped: the slot decisions when it
   is live, nothing when the headset is another system's.
   */
  ghost predicate Agrees(request: ApplyRequest, state: RuntimeState, r: ApplyResult)
    requires request.Shaped()
  {
    && WellFormed(state) && |r.target| == |r.reference| == Slots
    && (r.enabled <==> request.enabled && !DecideSlot(request.desired, Hmd, request.devices[Hmd]).disableProfile)
    && (r.cause == if request.enabled && !r.enabled then HmdMismatch else NoCause)
    && (r.enabled ==> TrackerAgrees(request, state, r) && forall id :: 0 <= id < Slots ==> SlotAgrees(request, state, r, id))
    && (!r.enabled ==> state.enabled == Nowhere() && state.hidden == Nowhere() && Cleared(r))
  }

  /** Nothing drives the headset or a slot with a parked correction, and a tracker told is a slot that is driven. */
  lemma AgreementIsSafe(request: ApplyRequest, state: RuntimeState, r: ApplyResult)
    requires request.Shaped() && Agrees(request, state, r)
    ensures !state.enabled[Hmd]
    ensures forall id :: 0 <= id < Slots && ParkedSlot(state, request.bound, id) ==> !state.enabled[id] && !state.hidden[id]
    ensures r.tracker.Some? ==> r.tracker.value < Slots && state.enabled[r.tracker.value] && r.target[r.tracker.value]
    ensures r.enabled && request.desired.reference != request.desired.target ==> r.target == state.enabled
  {
    if r.enabled {
      forall id | 0 <= id < Slots
        ensures ParkedSlot(state, request.bound, id) ==> !state.enabled[id] && !state.hidden[id]
        ensures request.desired.reference != request.desired.target ==> r.target[id] == state.enabled[id]
      {
        assert SlotAgrees(request, state, r, id);
      }
      assert SlotAgrees(request, state, r, Hmd);
      if r.tracker.Some? {
        assert SlotAgrees(request, state, r, r.tracker.value);
      }
    }
  }

  /** With one tracker in sight, it is told unless a correction is parked in its slot. */
  lemma OneTrackerIsTold(request: ApplyRequest, state: RuntimeState, r: ApplyResult, id: nat)
    requires request.Shaped() && Agrees(request, state, r) && r.enabled && id < Slots
    requires forall i :: 0 <= i < Slots ==> (DecideSlot(request.desired, i, request.devices[i]).tracker <==> i == id)
    ensures r.tracker == if ParkedSlot(state, request.bound, id) then None else Some(id)
  {
    var last :| TrackerIs(request.desired, request.devices, Slots, last)
                && r.tracker == if last.Some? && ParkedSlot(state, request.bound, last.value) then None else last;
    assert DecideSlot(request.desired, id, request.devices[id]).tracker;
  }

  /** The transform and the field shipped are the request's, the field off where it has no slot to act on. */
  predicate Shipped(request: ApplyRequest, state: RuntimeState, session: nat) {
    && state.transform == request.desired.transform && state.scale == request.desired.scale
    && state.timeOffset == request.desired.timeShift && state.generation == request.desired.generation
    && state.profileKey == request.profileKey && state.expectedSession == session
    && state.field == request.field.(enabled := state.field.enabled, anchorCount := state.field.anchorCount)
    && (state.field.enabled <==> request.field.enabled && true in state.enabled)
    && state.field.anchorCount == if state.field.enabled then request.field.anchorCount else 0
  }

  /** The answer that carried `saved` is one of these. */
  predicate Answered(exchanges: seq<Exchange>, saved: FrameRecovery.Checkpoint) {
    exists i :: 0 <= i < |exchanges| && exchanges[i].request.GetRuntimeState?
                && exchanges[i].reply.response == Some(RuntimeStateReply(true, saved))
  }

  /** What the result says of the recovery is what the driver answered in this batch. */
  ghost predicate RecoveryTold(c: Curves, request: ApplyRequest, batch: seq<Exchange>, r: ApplyResult)
    requires c.Lawful() && request.Shaped()
  {
    && (r.recoveryChecked ==> request.recoverFrames)
    && (r.framesRecovered ==> r.recoveryChecked && |r.frames| == |r.frameKeys| == Slots)
    && (r.framesRecovered ==>
         exists saved :: Answered(batch, saved) && FrameRecovery.Belongs(saved, r.session, request.profileKey)
                         && FrameRecovery.Recovered(c, saved, request.frameKeys, r.frames, r.frameKeys))
    && (!r.framesRecovered ==> r.frames == [] && r.frameKeys == if r.recoveryChecked then request.frameKeys else [])
  }

  /** The corrections shipped are the recovered ones, or the request's where there was nothing to recover. */
  predicate CorrectionsShipped(request: ApplyRequest, state: RuntimeState, r: ApplyResult) {
    if r.framesRecovered then state.frames == r.frames && state.frameKeys == r.frameKeys
    else state.frames == request.frames && state.frameKeys == request.frameKeys
  }

  function FailureCause(versionMismatch: bool, refusal: RejectReason): Cause {
    if versionMismatch then DriverVersionMismatch
    else if refusal.InvalidValues? then DriverRefusedValues else DriverUnreachable
  }

  predicate RepliesShaped(replies: seq<Reply>) {
    forall i :: 0 <= i < |replies| && replies[i].response.Some? && replies[i].response.value.RuntimeStateReply? ==>
      FrameRecovery.Shaped(replies[i].response.value.saved)
  }

  /** What the transport answers to the `i`-th request from now. */
  function Answer(replies: seq<Reply>, i: nat): Reply {
    if i < |replies| then replies[i] else Reply(None, false, 0)
  }

  function Unanswered(replies: seq<Reply>, n: nat): seq<Reply> {
    if n < |replies| then replies[n..] else []
  }

  /** A batch asks in a fixed order, and its replies are the transport's, one for each request. */
  predicate AskedInOrder(request: ApplyRequest, replies: seq<Reply>, batch: seq<Exchange>) {
    && 1 <= |batch| <= (if request.recoverFrames then 3 else 2)
    && batch[0].request.Handshake?
    && (|batch| > 1 ==> if request.recoverFrames then batch[1].request.GetRuntimeState? else batch[1].request.SetRuntimeState?)
    && (|batch| > 2 ==> batch[2].request.SetRuntimeState?)
    && forall i :: 0 <= i < |batch| ==> batch[i].reply == Answer(replies, i)
  }

  /** The session the handshake named, or none. */
  function SessionOf(batch: seq<Exchange>): nat
    requires batch != []
  {
    var reply := batch[0].reply;
    if AcceptedReply(batch[0].request, reply) && reply.response.value.HandshakeReply? then reply.response.value.session else 0
  }

  /** Why a batch that ended here failed: its last request says so. */
  function CauseOf(batch: seq<Exchange>): Cause
    requires batch != []
  {
    var last := batch[|batch| - 1];
    FailureCause(last.reply.response.None? && last.reply.versionMismatch,
                 if !AcceptedReply(last.request, last.reply) && last.reply.response.Some? && last.reply.response.value.Invalid?
                 then last.reply.response.value.reason else NoReason)
  }

  /** The corrections an exchange brought back. */
  function Checkpoint(exchange: Exchange): Option<FrameRecovery.Checkpoint> {
    match exchange.reply.response
    case Some(RuntimeStateReply(true, saved)) => if exchange.request.GetRuntimeState? then Some(saved) else None
    case _ => None
  }

  /** They are this session's and this profile's, and every one of them is sane. */
  predicate Restorable(request: ApplyRequest, session: nat, exchange: Exchange) {
    match Checkpoint(exchange)
    case None => false
    case Some(saved) =>
      && FrameRecovery.Shaped(saved) && FrameRecovery.Belongs(saved, session, request.profileKey)
      && forall k :: 0 <= k < Slots && saved.keys[k] != 0 ==> FrameRecovery.ValidFrame(saved.frames[k])
  }

  /** The driver answered with corrections under the request's own profile key. */
  predicate OwnAnswered(request: ApplyRequest, batch: seq<Exchange>) {
    request.recoverFrames && |batch| > 1 && request.profileKey != 0 && Checkpoint(batch[1]).Some?
    && Checkpoint(batch[1]).value.profileKey == request.profileKey
  }

  /** Slots whose parked correction is not bound to them are taken back out. */
  method RetireParked(state: RuntimeState, bound: seq<bool>, target: seq<bool>, tracker: Option<nat>)
    returns (enabled: seq<bool>, hidden: seq<bool>, newTarget: seq<bool>, newTracker: Option<nat>)
    requires |state.enabled| == |state.hidden| == |state.frameKeys| == |bound| == |target| == Slots
    ensures |enabled| == |hidden| == |newTarget| == Slots
    ensures forall id :: 0 <= id < Slots ==>
              var parked := ParkedSlot(state, bound, id);
              && enabled[id] == (state.enabled[id] && !parked) && hidden[id] == (state.hidden[id] && !parked)
              && newTarget[id] == (target[id] && !parked)
    ensures newTracker ==
            if tracker.Some? && tracker.value < Slots && ParkedSlot(state, bound, tracker.value) then None else tracker
  {
    enabled, hidden, newTarget, newTracker := state.enabled, state.hidden, target, tracker;
    for id := 0 to Slots
      invariant |enabled| == |hidden| == |newTarget| == Slots
      invariant forall i :: 0 <= i < Slots ==>
                  var parked := i < id && ParkedSlot(state, bound, i);
                  && enabled[i] == (state.enabled[i] && !parked) && hidden[i] == (state.hidden[i] && !parked)
                  && newTarget[i] == (target[i] && !parked)
      invariant newTracker ==
                if tracker.Some? && tracker.value < id && ParkedSlot(state, bound, tracker.value) then None else tracker
    {
      if state.frameKeys[id] != 0 && !bound[id] {
        enabled, hidden, newTarget := enabled[id := false], hidden[id := false], newTarget[id := false];
        if newTracker == Some(id) {
          newTracker := None;
        }
      }
    }
  }

  class DriverSession {
    // What the transport will answer, in order; then it fails.
    var replies: seq<Reply>
    var versionMismatch: bool
    var refusal: RejectReason
    ghost var exchanges: seq<Exchange>

    predicate Valid()
      reads `replies
    {
      RepliesShaped(replies)
    }

    method SendRequest(request: Request, generation: nat) returns (ok: bool, reply: Reply, bound: nat)
      requires Valid()
      modifies this
      ensures Valid() && exchanges == old(exchanges) + [Exchange(request, reply)]
      ensures reply == Answer(old(replies), 0) && replies == Unanswered(old(replies), 1)
      ensures ok <==> AcceptedReply(request, reply) && (generation == 0 || reply.generation == generation)
      ensures ok ==> bound == reply.generation && reply.response.Some?
      ensures ok && reply.response.value.RuntimeStateReply? ==> FrameRecovery.Shaped(reply.response.value.saved)
      ensures versionMismatch == (old(versionMismatch) || (reply.response.None? && reply.versionMismatch))
      ensures refusal ==
              if !AcceptedReply(request, reply) && reply.response.Some? && reply.response.value.Invalid?
              then reply.response.value.reason else old(refusal)
    {
      reply := Reply(None, false, 0);
      if replies != [] {
        reply := replies[0];
        replies := replies[1..];
      }
      exchanges := exchanges + [Exchange(request, reply)];
      bound := generation;
      if reply.response.Some? {
        if AcceptedReply(request, reply) {
          if generation != 0 && generation != reply.generation {
            // The pipe was reopened in between.
            return false, reply, bound;
          }
          return true, reply, reply.generation;
        }
        if reply.response.value.Invalid? {
          refusal := reply.response.value.reason;
        }
        return false, reply, bound;
      }
      versionMismatch := versionMismatch || reply.versionMismatch;
      ok := false;
    }

    /** A request on its own: no generation binds it. */
    method DisableDeviceTransform(id: nat) returns (ok: bool)
      requires Valid()
      modifies this
      ensures Valid() && exchanges == old(exchanges) + [Exchange(DisableTransform(id), Answer(old(replies), 0))]
      ensures ok <==> AcceptedReply(DisableTransform(id), Answer(old(replies), 0))
    {
      versionMismatch, refusal := false, NoReason;
      var reply, bound;
      ok, reply, bound := SendRequest(DisableTransform(id), 0);
    }

    /**
     The recovered corrections replace the request's; an answer that is ours but not sane ends the
     batch. `told` is what the result says of it.
     */
    method Recover(c: Curves, request: ApplyRequest, session: nat, generation: nat)
      returns (ok: bool, told: ApplyResult, bound: nat, ghost sent: seq<Exchange>)
      requires c.Lawful() && request.Shaped() && Valid() && request.recoverFrames && !versionMismatch && refusal.NoReason?
      modifies this
      ensures Valid() && sent == [Exchange(GetRuntimeState, Answer(old(replies), 0))]
      ensures exchanges == old(exchanges) + sent && replies == Unanswered(old(replies), 1)
      ensures Cleared(told) && !told.enabled && !told.synchronized && told.session == session
      ensures RecoveryTold(c, request, sent, told)
      ensures told.recoveryChecked <==>
                AcceptedReply(GetRuntimeState, sent[0].reply) && (generation == 0 || sent[0].reply.generation == generation)
      ensures told.recoveryChecked && Restorable(request, session, sent[0]) ==> told.framesRecovered
      ensures ok <==> told.recoveryChecked && !(OwnAnswered(request, [Exchange(Handshake, Answer([], 0))] + sent) && !told.framesRecovered)
      ensures ok ==> bound == sent[0].reply.generation && !versionMismatch && refusal.NoReason?
      ensures !ok ==> told.cause == CauseOf(sent)
    {
      hide FrameRecovery.Recovered, FrameRecovery.Belongs;
      told := Nothing(session);
      var reply;
      ok, reply, bound := SendRequest(GetRuntimeState, generation);
      sent := [Exchange(GetRuntimeState, reply)];
      if !ok {
        told := told.(cause := FailureCause(versionMismatch, refusal));
        return;
      }
      told := told.(recoveryChecked := true, frameKeys := request.frameKeys);
      var saved := reply.response.value.saved;
      var out := new Rigid[Slots](_ => Still);
      var outKeys := new nat[Slots](_ => 0);
      var recovered :=
        FrameRecovery.RecoverTrackerFrames(c, saved, session, request.profileKey, request.frameKeys, out, outKeys);
      if !recovered && request.profileKey != 0 && saved.profileKey == request.profileKey {
        ok, told := false, told.(cause := FailureCause(versionMismatch, refusal));
        return;
      }
      if recovered {
        assert sent[0].reply.response == Some(RuntimeStateReply(true, saved));
        told := told.(framesRecovered := true, frames := out[..], frameKeys := outKeys[..]);
      }
    }

    /** Everything sent after the exchanges in `before`. */
    ghost function Batch(before: seq<Exchange>): seq<Exchange>
      reads `exchanges
    {
      if |before| <= |exchanges| then exchanges[|before|..] else []
    }

    /**
     One reconciliation. It is synchronized exactly when every request was accepted on one
     connection, the session is the one the caller knows or the caller knows none, and no
     corrections under its own profile key were refused. It ended then with a state that is well
     formed, carries the request's transform, field and corrections, or the recovered ones, and is
     what the result says it is; otherwise the result is cleared.
     */
    method Apply(c: Curves, request: ApplyRequest) returns (r: ApplyResult)
      requires c.Lawful() && request.Shaped() && Valid()
      modifies this
      ensures Valid() && old(exchanges) <= exchanges
      ensures AskedInOrder(request, old(replies), Batch(old(exchanges))) && r.session == SessionOf(Batch(old(exchanges)))
      ensures r.synchronized <==>
                && OneConnection(Batch(old(exchanges)))
                && (request.session == 0 || request.session == r.session)
                && (OwnAnswered(request, Batch(old(exchanges))) ==> r.framesRecovered)
      ensures r.synchronized ==>
                && exchanges[|exchanges| - 1].request.SetRuntimeState?
                && var state := exchanges[|exchanges| - 1].request.state;
                   Agrees(request, state, r) && Shipped(request, state, r.session) && CorrectionsShipped(request, state, r)
      ensures RecoveryTold(c, request, Batch(old(exchanges)), r)
      ensures r.recoveryChecked <==>
                request.recoverFrames && |Batch(old(exchanges))| > 1 && OneConnection(Batch(old(exchanges))[..2])
      ensures r.recoveryChecked ==>
                && |Batch(old(exchanges))| > 1
                && (Restorable(request, r.session, Batch(old(exchanges))[1]) ==> r.framesRecovered)
      ensures !r.synchronized ==> Cleared(r) && r.cause == CauseOf(Batch(old(exchanges)))
      ensures forall i :: |old(exchanges)| <= i < |exchanges| && exchanges[i].request.SetRuntimeState? ==>
                WellFormed(exchanges[i].request.state)
    {
      hide Agrees, Cleared, WellFormed, AcceptedReply, Shipped, CorrectionsShipped, RecoveryTold, Restorable, OneConnection;
      versionMismatch, refusal := false, NoReason;
      ghost var before := exchanges;
      assert BoundTo([], 0) by { NoneSent(); }
      var ok, reply, bound := SendRequest(Handshake, 0);
      var session := if ok && reply.response.value.HandshakeReply? then reply.response.value.session else 0;
      ghost var batch := [Exchange(Handshake, reply)];
      assert exchanges == before + batch && Batch(before) == batch;
      r := Nothing(session);
      NothingTold(c, request, batch, session);
      BoundGrows([], 0, Exchange(Handshake, reply));
      assert [] + batch == batch;
      if !ok || (request.session != 0 && request.session != session) {
        r := Failed(c, request, batch, r);
        return;
      }
      r := Continue(c, request, r, bound, before, batch[0]);
    }

    /** The rest of a batch whose handshake stands. */
    method Continue(c: Curves, request: ApplyRequest, told: ApplyResult, generation: nat,
                    ghost before: seq<Exchange>, ghost greeting: Exchange)
      returns (r: ApplyResult)
      requires c.Lawful() && request.Shaped() && Valid() && !versionMismatch && refusal.NoReason?
      requires exchanges == before + [greeting] && BoundTo([greeting], generation) && greeting.request.Handshake?
      requires told == Nothing(told.session)
      modifies this
      ensures Valid() && before <= exchanges && |exchanges| > |before| + 1
      ensures var batch := Batch(before);
              && |batch| == (if request.recoverFrames && batch[|batch| - 1].request.SetRuntimeState? then 3 else 2)
              && batch[0] == greeting
              && (if request.recoverFrames then batch[1].request.GetRuntimeState? else batch[1].request.SetRuntimeState?)
              && batch[1].reply == Answer(old(replies), 0)
              && (|batch| > 2 ==> batch[2].request.SetRuntimeState? && batch[2].reply == Answer(old(replies), 1))
      ensures r.session == told.session
      ensures r.synchronized <==> OneConnection(Batch(before)) && (OwnAnswered(request, Batch(before)) ==> r.framesRecovered)
      ensures r.synchronized ==>
                && exchanges[|exchanges| - 1].request.SetRuntimeState?
                && var state := exchanges[|exchanges| - 1].request.state;
                   Agrees(request, state, r) && Shipped(request, state, r.session) && CorrectionsShipped(request, state, r)
      ensures RecoveryTold(c, request, Batch(before), r)
      ensures r.recoveryChecked <==> request.recoverFrames && OneConnection(Batch(before)[..2])
      ensures r.recoveryChecked && Restorable(request, r.session, Batch(before)[1]) ==> r.framesRecovered
      ensures !r.synchronized ==> Cleared(r) && r.cause == CauseOf(Batch(before))
      ensures forall i :: |before| < i < |exchanges| && exchanges[i].request.SetRuntimeState? ==>
                WellFormed(exchanges[i].request.state)
    {
      hide Agrees, Cleared, WellFormed, AcceptedReply, Shipped, CorrectionsShipped, RecoveryTold, Restorable, OneConnection,
           Answered, FrameRecovery.Recovered, FrameRecovery.Belongs;
      ghost var batch := [greeting];
      var bound := generation;
      r := told;
      NothingTold(c, request, batch, told.session);
      if request.recoverFrames {
        var ok, nextBound;
        ghost var sent;
        ok, r, nextBound, sent := Recover(c, request, told.session, bound);
        assert exchanges == before + (batch + sent) && Batch(before) == batch + sent;
        ToldByMore(c, request, batch, sent, [], r);
        assert batch + sent + [] == batch + sent;
        BoundGrows(batch, bound, sent[0]);
        assert (batch + sent)[..2] == batch + sent;
        if !ok {
          return;
        }
        batch, bound := batch + sent, nextBound;
      }
      NotChecked(c, request, batch, r);
      r := Conclude(c, request, r, bound, before, batch);
      assert request.recoverFrames ==> Batch(before)[..2] == batch;
    }

    /** Builds the state and ships it. */
    method Conclude(c: Curves, request: ApplyRequest, told: ApplyResult, generation: nat,
                    ghost before: seq<Exchange>, ghost batch: seq<Exchange>)
      returns (r: ApplyResult)
      requires c.Lawful() && request.Shaped() && Valid() && exchanges == before + batch && BoundTo(batch, generation)
      requires RecoveryTold(c, request, batch, told) && (told.recoveryChecked <==> request.recoverFrames)
      requires !versionMismatch && refusal.NoReason?
      requires forall i :: 0 <= i < |batch| ==> !batch[i].request.SetRuntimeState?
      modifies this
      ensures Valid() && before <= exchanges && exchanges != [] && exchanges[|exchanges| - 1].request.SetRuntimeState?
      ensures |exchanges| == |before| + |batch| + 1 && exchanges[..|before| + |batch|] == before + batch
      ensures exchanges[|exchanges| - 1].reply == Answer(old(replies), 0) && r.session == told.session
      ensures r.recoveryChecked == told.recoveryChecked && r.framesRecovered == told.framesRecovered
      ensures r.synchronized <==> OneConnection(Batch(before))
      ensures var state := exchanges[|exchanges| - 1].request.state;
              && WellFormed(state)
              && (r.synchronized ==>
                    && Agrees(request, state, r) && Shipped(request, state, r.session) && CorrectionsShipped(request, state, r))
      ensures RecoveryTold(c, request, Batch(before), r)
      ensures !r.synchronized ==> Cleared(r) && r.cause == CauseOf(Batch(before))
    {
      hide AcceptedReply, RecoveryTold, WellFormed, Shipped, Agrees, OneConnection;
      RecoveredShape(c, request, batch, told);
      var frames := if told.framesRecovered then told.frames else request.frames;
      var keys := if told.framesRecovered then told.frameKeys else request.frameKeys;
      var state;
      state, r := BuildState(request, frames, keys, told.session);
      ghost var built := r;
      r := r.(recoveryChecked := told.recoveryChecked, framesRecovered := told.framesRecovered, frames := told.frames,
              frameKeys := told.frameKeys);
      SameSaying(c, request, batch, told, r);
      var ok, reply, bound := SendRequest(SetRuntimeState(state), generation);
      ghost var last := Exchange(SetRuntimeState(state), reply);
      assert exchanges == before + (batch + [last]);
      assert Batch(before) == batch + [last];
      ToldByMore(c, request, [], batch, [last], r);
      assert [] + batch + [last] == batch + [last];
      BoundGrows(batch, generation, last);
      if !ok {
        r := Failed(c, request, batch + [last], r);
        return;
      }
      AgreesTold(request, state, built, r);
      AgreesTold(request, state, r, r.(synchronized := true));
      SameSaying(c, request, batch + [last], r, r.(synchronized := true));
      r := r.(synchronized := true);
    }

    /** After a failure nothing is believed but what the recovery was told. */
    method Failed(c: Curves, request: ApplyRequest, ghost batch: seq<Exchange>, told: ApplyResult) returns (r: ApplyResult)
      requires c.Lawful() && request.Shaped() && RecoveryTold(c, request, batch, told)
      ensures Cleared(r) && !r.enabled && !r.synchronized && r.cause == FailureCause(versionMismatch, refusal)
      ensures RecoveryTold(c, request, batch, r) && r.session == told.session
      ensures r.recoveryChecked == told.recoveryChecked && r.framesRecovered == told.framesRecovered
    {
      hide RecoveryTold;
      r := told.(enabled := false, synchronized := false, cause := FailureCause(versionMismatch, refusal),
                 reference := Nowhere(), target := Nowhere(), tracker := None);
      SameSaying(c, request, batch, told, r);
    }
  }

  function Nothing(session: nat): ApplyResult {
    ApplyResult(false, false, NoCause, Nowhere(), Nowhere(), None, session, false, false, [], [])
  }

  lemma NoneSent()
    ensures BoundTo([], 0)
  {
  }

  lemma NothingTold(c: Curves, request: ApplyRequest, batch: seq<Exchange>, session: nat)
    requires c.Lawful() && request.Shaped()
    ensures RecoveryTold(c, request, batch, Nothing(session)) && Cleared(Nothing(session))
  {
  }

  lemma NotChecked(c: Curves, request: ApplyRequest, batch: seq<Exchange>, r: ApplyResult)
    requires c.Lawful() && request.Shaped() && RecoveryTold(c, request, batch, r)
    ensures r.recoveryChecked ==> request.recoverFrames
  {
  }

  lemma RecoveredShape(c: Curves, request: ApplyRequest, batch: seq<Exchange>, r: ApplyResult)
    requires c.Lawful() && request.Shaped() && RecoveryTold(c, request, batch, r)
    ensures r.framesRecovered ==> |r.frames| == |r.frameKeys| == Slots
  {
  }

  lemma SameSaying(c: Curves, request: ApplyRequest, batch: seq<Exchange>, r: ApplyResult, other: ApplyResult)
    requires c.Lawful() && request.Shaped() && RecoveryTold(c, request, batch, r)
    requires other.recoveryChecked == r.recoveryChecked && other.framesRecovered == r.framesRecovered
    requires other.frames == r.frames && other.frameKeys == r.frameKeys && other.session == r.session
    ensures RecoveryTold(c, request, batch, other)
  {
    hide FrameRecovery.Recovered;
  }

  lemma ToldByMore(c: Curves, request: ApplyRequest, before: seq<Exchange>, batch: seq<Exchange>, after: seq<Exchange>,
                   r: ApplyResult)
    requires c.Lawful() && request.Shaped() && RecoveryTold(c, request, batch, r)
    ensures RecoveryTold(c, request, before + batch + after, r)
  {
    hide FrameRecovery.Recovered, FrameRecovery.Belongs;
    forall saved | Answered(batch, saved) ensures Answered(before + batch + after, saved) {
      var i :| 0 <= i < |batch| && batch[i].request.GetRuntimeState?
               && batch[i].reply.response == Some(RuntimeStateReply(true, saved));
      assert (before + batch + after)[|before| + i] == batch[i];
    }
  }

  lemma AgreesTold(request: ApplyRequest, state: RuntimeState, r: ApplyResult, told: ApplyResult)
    requires request.Shaped() && Agrees(request, state, r)
    requires told.enabled == r.enabled && told.cause == r.cause && told.reference == r.reference
    requires told.target == r.target && told.tracker == r.tracker
    ensures Agrees(request, state, told)
  {
    if r.enabled {
      assert TrackerAgrees(request, state, told);
      forall id | 0 <= id < Slots ensures SlotAgrees(request, state, told, id) {
        assert SlotAgrees(request, state, r, id);
      }
    }
  }

  method BuildState(request: ApplyRequest, frames: seq<Rigid>, keys: seq<nat>, session: nat)
    returns (state: RuntimeState, r: ApplyResult)
    requires request.Shaped() && |frames| == |keys| == Slots
    ensures Agrees(request, state, r) && WellFormed(state) && !r.synchronized
    ensures state.frames == frames && state.frameKeys == keys && Shipped(request, state, session) && r.session == session
  {
    var d := request.desired;
    var enabled, cause := request.enabled, NoCause;
    var reference, target, tracker := Nowhere(), Nowhere(), None;
    state := RuntimeState(0, true, false, d.transform, d.scale, d.timeShift, d.generation, Nowhere(), Nowhere(),
                          request.field, frames, keys, request.profileKey, session);
    if enabled {
      var slots := DeriveDriverSlotState(d, request.devices);
      reference, target, tracker := slots.reference, slots.target, slots.tracker;
      state := state.(enabled := slots.enabled, hidden := slots.hidden);
      var kept, keptHidden;
      kept, keptHidden, target, tracker := RetireParked(state, request.bound, target, tracker);
      state := state.(enabled := kept, hidden := keptHidden);
      if slots.hmdMismatch {
        enabled, cause := false, HmdMismatch;
      }
    }
    if !enabled {
      state := state.(enabled := Nowhere(), hidden := Nowhere());
      reference, target, tracker := Nowhere(), Nowhere(), None;
    }
    var fieldEnabled := state.field.enabled && true in state.enabled;
    state := state.(field := state.field.(enabled := fieldEnabled,
                                          anchorCount := if fieldEnabled then state.field.anchorCount else 0));
    r := ApplyResult(enabled, false, cause, reference, target, tracker, session, false, false, [], []);
  }
}
