/**
 Continuous alignment: a mounted tracker's poses are paired with the headset's into observations, a
 window of them is evaluated every so often, and the decision either waits for the caller's next
 poll or shows in the state.

 The pose arithmetic, the robust estimate and the continuity tests enter by their results. Times are
 the samples' clock and not negative.
 */
module ContinuousAlignment {
  import opened Common
  import opened Rotations
  import opened ContinuousDecisions

  const MinObservations: nat := 40
  const WindowSeconds: real := 10.0
  const KeepSeconds: real := 12.0
  const ObsMinSpacing: real := 0.1
  const JumpConfirmSpacing: real := 0.1
  const JumpGuardWindow: real := 0.5
  const MaxStreamGap: real := 0.2
  const EvaluateInterval: real := 2.0
  const CoastGap: real := 2.0

  // ---------------------------------------------------------------------------
  // The streams
  // ---------------------------------------------------------------------------

  datatype PoseSample = PoseSample(time: real, pose: int)
  datatype Observation = Observation(time: real, transform: Rigid)

  /** What pairing a target sample with the reference at a time gives. */
  datatype Formed = Rejected | Observed(transform: Rigid)

  /** The speed gate and the pairing; whether two observations agree; whether raw poses step between two times. */
  datatype Gates = Gates(
    fast: PoseSample -> bool,
    form: (PoseSample, seq<PoseSample>, real) -> Formed,
    agree: (Rigid, Rigid) -> bool,
    poseStep: (seq<PoseSample>, real, real) -> bool)

  datatype Streams = Streams(
    refs: seq<PoseSample>, refHead: nat, targets: seq<PoseSample>, targetHead: nat, processed: nat,
    observations: seq<Observation>, lastObs: real, lastKept: real, pending: Option<Observation>)

  const NoStreams := Streams([], 0, [], 0, 0, [], 0.0, 0.0, None)

  predicate Ordered(samples: seq<PoseSample>) {
    forall i, j :: 0 <= i < j < |samples| ==> samples[i].time < samples[j].time
  }

  predicate Cursors(s: Streams) {
    s.refHead <= |s.refs| && s.targetHead <= s.processed <= |s.targets| && Ordered(s.refs) && Ordered(s.targets)
  }

  /** What is kept is at least `ObsMinSpacing` apart. */
  predicate Spaced(s: Streams) {
    && (forall i :: 0 < i < |s.observations| ==> s.observations[i].time - s.observations[i - 1].time >= ObsMinSpacing)
    && (s.observations != [] ==> s.observations[|s.observations| - 1].time == s.lastKept)
  }

  function LiveRefs(s: Streams): seq<PoseSample>
    requires s.refHead <= |s.refs|
  {
    s.refs[s.refHead..]
  }

  function LiveTargets(s: Streams): seq<PoseSample>
    requires s.targetHead <= |s.targets|
  {
    s.targets[s.targetHead..]
  }

  function Unprocessed(s: Streams): seq<PoseSample>
    requires s.processed <= |s.targets|
  {
    s.targets[s.processed..]
  }

  // --- one observation ---

  /** What became of an observation: too close to a candidate, fresh, a candidate itself, or its confirmation. */
  datatype Fate = Ignored | Fresh | Held | Confirmed

  /** It steps away from the last one kept, and so do the raw poses of one side between the two. */
  predicate Steps(s: Streams, g: Gates, obs: Observation, offset: real) {
    && s.observations != []
    && var prev := s.observations[|s.observations| - 1];
       && obs.time - prev.time < JumpGuardWindow && !g.agree(obs.transform, prev.transform)
       && (g.poseStep(s.refs, prev.time - offset, obs.time - offset) || g.poseStep(s.targets, prev.time, obs.time))
  }

  function FateOf(s: Streams, g: Gates, obs: Observation, offset: real): Fate {
    if s.pending.Some? && obs.time - s.pending.value.time < JumpConfirmSpacing then Ignored
    else if s.pending.Some? && g.agree(obs.transform, s.pending.value.transform) then Confirmed
    else if Steps(s, g, obs, offset) then Held
    else Fresh
  }

  /** A candidate is used up by the observation that confirms or refutes it. */
  function Took(s: Streams, g: Gates, obs: Observation, offset: real): Streams {
    match FateOf(s, g, obs, offset)
    case Ignored => s
    case Confirmed => s.(pending := None)
    case Held => s.(pending := Some(obs))
    case Fresh =>
      var f := s.(pending := None, lastObs := obs.time);
      if obs.time - f.lastKept < ObsMinSpacing then f
      else f.(lastKept := obs.time, observations := f.observations + [obs])
  }

  // --- all that can be formed ---

  /** The reference around a target's time has not arrived yet. */
  predicate Waits(s: Streams, t: PoseSample, offset: real)
    requires s.refHead <= |s.refs|
  {
    || s.refHead == |s.refs| || t.time - offset > s.refs[|s.refs| - 1].time
    || (|s.refs| - s.refHead < 2 && t.time - offset >= s.refs[s.refHead].time)
  }

  datatype Pairing = TooFast | Waiting | TooOld | Unpaired | Paired(obs: Observation)

  function Pair(s: Streams, g: Gates, t: PoseSample, offset: real): Pairing
    requires s.refHead <= |s.refs|
  {
    if g.fast(t) then TooFast
    else if Waits(s, t, offset) then Waiting
    else if t.time - offset < s.refs[s.refHead].time then TooOld
    else
      match g.form(t, s.refs, t.time - offset)
      case Rejected => Unpaired
      case Observed(transform) => Paired(Observation(t.time, transform))
  }

  /** Where forming got to, whether a candidate was held on the way, and whether a jump was confirmed. */
  datatype Forming = Forming(streams: Streams, held: bool, jumped: bool)

  /** A confirmed jump takes both windows with it. */
  function Emptied(s: Streams): Streams {
    s.(refs := [], refHead := 0, targets := [], targetHead := 0, processed := 0, observations := [])
  }

  /** The targets not processed yet, in order, up to the first that has to wait. */
  function FormFrom(s: Streams, g: Gates, offset: real, held: bool): Forming
    requires s.refHead <= |s.refs|
    decreases |s.targets| - s.processed
  {
    if s.processed >= |s.targets| then Forming(s, held, false)
    else
      match Pair(s, g, s.targets[s.processed], offset)
      case Waiting => Forming(s, held, false)
      case Paired(obs) =>
        var q := Took(s, g, obs, offset);
        var fate := FateOf(s, g, obs, offset);
        if fate.Confirmed? then Forming(Emptied(q), held, true)
        else FormFrom(q.(processed := q.processed + 1), g, offset, held || fate.Held?)
      case _ => FormFrom(s.(processed := s.processed + 1), g, offset, held)
  }

  lemma TookKeeps(s: Streams, g: Gates, obs: Observation, offset: real)
    requires Cursors(s) && Spaced(s)
    ensures var v := Took(s, g, obs, offset);
            && Cursors(v) && Spaced(v) && v.processed == s.processed && v.targets == s.targets && v.refs == s.refs
            && (FateOf(s, g, obs, offset).Confirmed? ==> v.pending.None?)
            && (v.pending.Some? ==> s.pending.Some? || FateOf(s, g, obs, offset).Held?)
            && (FateOf(s, g, obs, offset).Fresh? ==> v.pending.None? && v.lastObs == obs.time)
  {
    hide Steps, Ordered;
  }

  /** What is fresh is kept, at the spacing asked for; a step is held back, and nothing else joins the window. */
  lemma TookAdds(s: Streams, g: Gates, obs: Observation, offset: real)
    ensures var v, fate := Took(s, g, obs, offset), FateOf(s, g, obs, offset);
            && v.observations == s.observations + (if fate.Fresh? && obs.time - s.lastKept >= ObsMinSpacing then [obs] else [])
            && v.pending == (if fate.Held? then Some(obs) else if fate.Ignored? then s.pending else None)
            && (fate.Held? <==>
                 && !(s.pending.Some? && (obs.time - s.pending.value.time < JumpConfirmSpacing
                                          || g.agree(obs.transform, s.pending.value.transform)))
                 && Steps(s, g, obs, offset))
            && (fate.Confirmed? <==>
                 && s.pending.Some? && obs.time - s.pending.value.time >= JumpConfirmSpacing
                 && g.agree(obs.transform, s.pending.value.transform))
  {
    hide Steps;
    assert s.observations + [] == s.observations;
  }

  /**
   Forming stops where the next target has to wait, or with both windows emptied; a candidate is
   unresolved afterwards only if it was before or was held on the way.
   */
  lemma {:induction false} FormFromKeeps(s: Streams, g: Gates, offset: real, held: bool)
    requires Cursors(s) && Spaced(s)
    ensures var f := FormFrom(s, g, offset, held);
            && Cursors(f.streams) && Spaced(f.streams) && (held ==> f.held)
            && (f.streams.pending.Some? ==> s.pending.Some? || f.held)
            && if f.jumped then
                 f.streams.targets == [] && f.streams.refs == [] && f.streams.observations == [] && f.streams.pending.None?
               else
                 && f.streams.targets == s.targets && f.streams.refs == s.refs && s.processed <= f.streams.processed
                 && (f.streams.processed == |s.targets|
                     || Pair(f.streams, g, s.targets[f.streams.processed], offset).Waiting?)
    decreases |s.targets| - s.processed
  {
    hide Ordered, Steps, Took, FateOf;
    if s.processed < |s.targets| {
      match Pair(s, g, s.targets[s.processed], offset)
      case Waiting =>
      case Paired(obs) =>
        TookKeeps(s, g, obs, offset);
        var q := Took(s, g, obs, offset);
        if !FateOf(s, g, obs, offset).Confirmed? {
          FormFromKeeps(q.(processed := q.processed + 1), g, offset, held || FateOf(s, g, obs, offset).Held?);
        } else {
          assert Ordered([]) by { EmptyOrdered(); }
        }
      case _ => FormFromKeeps(s.(processed := s.processed + 1), g, offset, held);
    }
  }

  lemma EmptyOrdered()
    ensures Ordered([])
  {
  }

  // --- what expires ---

  /** The first sample, from a head on, that is not older than a time. */
  function FirstFrom(samples: seq<PoseSample>, head: nat, cutoff: real): (first: nat)
    requires head <= |samples|
    ensures head <= first <= |samples|
    decreases |samples| - head
  {
    if head == |samples| || samples[head].time >= cutoff then head else FirstFrom(samples, head + 1, cutoff)
  }

  function FirstObserved(observations: seq<Observation>, head: nat, cutoff: real): (first: nat)
    requires head <= |observations|
    ensures head <= first <= |observations|
    decreases |observations| - head
  {
    if head == |observations| || observations[head].time >= cutoff then head else FirstObserved(observations, head + 1, cutoff)
  }

  function Compacted(s: Streams): Streams
    requires s.refHead <= |s.refs| && s.targetHead <= s.processed <= |s.targets|
  {
    s.(refs := s.refs[s.refHead..], refHead := 0,
       targets := s.targets[s.targetHead..], targetHead := 0, processed := s.processed - s.targetHead)
  }

  /** The heads pass what has expired; a target that expired unprocessed is never processed. */
  function Retired(s: Streams, cutoff: real): Streams
    requires s.refHead <= |s.refs| && s.targetHead <= s.processed <= |s.targets|
  {
    var refHead := FirstFrom(s.refs, s.refHead, cutoff);
    var targetHead := FirstFrom(s.targets, s.targetHead, cutoff);
    s.(refHead := refHead, targetHead := targetHead, processed := if s.processed < targetHead then targetHead else s.processed)
  }

  /** The windows are compacted once a quarter of either is dead. */
  function Swept(s: Streams, cutoff: real): Streams
    requires s.refHead <= |s.refs| && s.targetHead <= s.processed <= |s.targets|
  {
    var r := Retired(s, cutoff);
    if 4 * r.refHead > |r.refs| || 4 * r.targetHead > |r.targets| then Compacted(r) else r
  }

  function Trimmed(s: Streams, now: real): Streams
    requires s.refHead <= |s.refs| && s.targetHead <= s.processed <= |s.targets|
  {
    var c := Swept(s, now - KeepSeconds);
    c.(observations := c.observations[FirstObserved(c.observations, 0, now - WindowSeconds)..])
  }

  /** What is left of a stream is all of it that is not older than a time. */
  predicate LeftFrom(left: seq<PoseSample>, all: seq<PoseSample>, cutoff: real) {
    && |left| <= |all| && left == all[|all| - |left|..]
    && (forall i :: 0 <= i < |all| - |left| ==> all[i].time < cutoff)
    && (forall i :: 0 <= i < |left| ==> left[i].time >= cutoff)
  }

  predicate LeftObserved(left: seq<Observation>, all: seq<Observation>, cutoff: real) {
    && |left| <= |all| && left == all[|all| - |left|..]
    && (forall i :: 0 <= i < |all| - |left| ==> all[i].time < cutoff)
    && (forall i :: 0 <= i < |left| ==> left[i].time >= cutoff)
  }

  lemma {:induction false} FirstFromSplits(samples: seq<PoseSample>, head: nat, cutoff: real)
    requires head <= |samples| && Ordered(samples)
    ensures var first := FirstFrom(samples, head, cutoff);
            && (forall i :: head <= i < first ==> samples[i].time < cutoff)
            && (forall i :: first <= i < |samples| ==> samples[i].time >= cutoff)
    decreases |samples| - head
  {
    if head < |samples| && samples[head].time < cutoff {
      FirstFromSplits(samples, head + 1, cutoff);
    }
  }

  /** A stretch of a stream that begins anywhere loses exactly its expired samples. */
  lemma LeftOfStretch(samples: seq<PoseSample>, head: nat, start: nat, cutoff: real)
    requires head <= start <= |samples| && Ordered(samples)
    ensures var first := FirstFrom(samples, head, cutoff);
            LeftFrom(samples[if start < first then first else start..], samples[start..], cutoff)
  {
    FirstFromSplits(samples, head, cutoff);
    hide Ordered, FirstFrom;
  }

  lemma {:induction false} FirstObservedSplits(s: Streams, head: nat, cutoff: real)
    requires head <= |s.observations| && Spaced(s)
    ensures var first := FirstObserved(s.observations, head, cutoff);
            && (forall i :: head <= i < first ==> s.observations[i].time < cutoff)
            && (forall i :: first <= i < |s.observations| ==> s.observations[i].time >= cutoff)
    decreases |s.observations| - head
  {
    if head < |s.observations| {
      if s.observations[head].time < cutoff {
        FirstObservedSplits(s, head + 1, cutoff);
      } else {
        LaterObserved(s, head);
      }
    }
  }

  lemma LaterObserved(s: Streams, head: nat)
    requires head < |s.observations| && Spaced(s)
    ensures forall i :: head <= i < |s.observations| ==> s.observations[i].time >= s.observations[head].time
  {
    for n := head to |s.observations|
      invariant forall i :: head <= i < n ==> s.observations[i].time >= s.observations[head].time
    {
      if n > head {
        assert s.observations[n].time - s.observations[n - 1].time >= ObsMinSpacing;
      }
    }
  }

  lemma CompactingIsInvisible(s: Streams)
    requires Cursors(s)
    ensures var v := Compacted(s);
            Cursors(v) && LiveRefs(v) == LiveRefs(s) && LiveTargets(v) == LiveTargets(s) && Unprocessed(v) == Unprocessed(s)
  {
  }

  lemma RetiringDropsTheExpired(s: Streams, cutoff: real)
    requires Cursors(s)
    ensures var v := Retired(s, cutoff);
            && Cursors(v) && LeftFrom(LiveRefs(v), LiveRefs(s), cutoff) && LeftFrom(LiveTargets(v), LiveTargets(s), cutoff)
            && LeftFrom(Unprocessed(v), Unprocessed(s), cutoff)
  {
    LeftOfStretch(s.refs, s.refHead, s.refHead, cutoff);
    LeftOfStretch(s.targets, s.targetHead, s.targetHead, cutoff);
    LeftOfStretch(s.targets, s.targetHead, s.processed, cutoff);
    hide LeftFrom, FirstFrom, Ordered;
    var first := FirstFrom(s.refs, s.refHead, cutoff);
    assert s.refHead < first || first == s.refHead;
  }

  lemma SweepingDropsTheExpired(s: Streams, cutoff: real)
    requires Cursors(s)
    ensures var v := Swept(s, cutoff);
            && Cursors(v) && LeftFrom(LiveRefs(v), LiveRefs(s), cutoff) && LeftFrom(LiveTargets(v), LiveTargets(s), cutoff)
            && LeftFrom(Unprocessed(v), Unprocessed(s), cutoff)
  {
    RetiringDropsTheExpired(s, cutoff);
    CompactingIsInvisible(Retired(s, cutoff));
    hide LeftFrom, FirstFrom, Ordered;
  }

  lemma ExpiringObservations(s: Streams, cutoff: real)
    requires Spaced(s)
    ensures var left := s.observations[FirstObserved(s.observations, 0, cutoff)..];
            Spaced(s.(observations := left)) && LeftObserved(left, s.observations, cutoff)
  {
    FirstObservedSplits(s, 0, cutoff);
  }

  lemma SweepingLeavesTheRest(s: Streams, cutoff: real)
    requires Cursors(s)
    ensures var v := Swept(s, cutoff);
            v.observations == s.observations && v.pending == s.pending && v.lastObs == s.lastObs && v.lastKept == s.lastKept
  {
    hide FirstFrom, Ordered;
  }

  /**
   Trimming drops from every stream exactly what is older than its window: live samples, targets
   still to be processed and observations otherwise stay the same and in order.
   */
  lemma TrimDropsTheExpired(s: Streams, now: real)
    requires Cursors(s) && Spaced(s)
    ensures var v := Trimmed(s, now);
            && Cursors(v) && Spaced(v) && v.pending == s.pending && v.lastObs == s.lastObs && v.lastKept == s.lastKept
            && LeftFrom(LiveRefs(v), LiveRefs(s), now - KeepSeconds)
            && LeftFrom(LiveTargets(v), LiveTargets(s), now - KeepSeconds)
            && LeftFrom(Unprocessed(v), Unprocessed(s), now - KeepSeconds)
            && LeftObserved(v.observations, s.observations, now - WindowSeconds)
  {
    SweepingDropsTheExpired(s, now - KeepSeconds);
    ExpiringObservations(s, now - WindowSeconds);
    SweepingLeavesTheRest(s, now - KeepSeconds);
    hide LeftFrom, LeftObserved, FirstObserved, Ordered, Swept;
  }

  // ---------------------------------------------------------------------------
  // The engine, call by call
  // ---------------------------------------------------------------------------

  datatype Engine = Engine(mounted: bool, streams: Streams, course: Course, target: Target, lastEvaluate: real)

  datatype Call =
    | PushReference(sample: PoseSample) | PushTarget(sample: PoseSample)
    | Update(now: real, offset: real, estimated: Option<Reading>, cal: Rigid)
    | Reset(gap: bool) | NoteTargetResolved(time: real, newSolution: bool)
    | SetMounted(mounted: bool) | SetSettling(settling: bool) | SetRestartsVisible(visible: bool) | SetFollowMode(follow: bool)
    | PollCorrection | PollReanchor | PollEvent

  /** Nothing was mounted, pushed or decided yet; the last restart is long ago. */
  const NewEngine := Engine(false, NoStreams, Start, Target(false, false, -1000000000.0, 0), 0.0)

  function ResetBy(e: Engine, gap: bool): Engine {
    e.(streams := NoStreams, course := Restart(e.course, gap))
  }

  /** The target's tracking restarted: everything before it is another stream. */
  function TargetResolved(e: Engine, time: real, newSolution: bool): Engine {
    ResetBy(e, true).(target := e.target.(lastResolve := time,
                                          solutions := e.target.solutions + if newSolution then 1 else 0))
  }

  function PushedReference(e: Engine, sample: PoseSample): Engine {
    var refs := e.streams.refs;
    if refs != [] && sample.time <= refs[|refs| - 1].time then e
    else
      var u := if refs != [] && sample.time - refs[|refs| - 1].time >= MaxStreamGap then ResetBy(e, true) else e;
      u.(streams := u.streams.(refs := u.streams.refs + [sample]))
  }

  function PushedTarget(e: Engine, sample: PoseSample): Engine {
    var targets := e.streams.targets;
    if targets != [] && sample.time <= targets[|targets| - 1].time then e
    else
      var u := if targets != [] && sample.time - targets[|targets| - 1].time >= MaxStreamGap then ResetBy(e, true) else e;
      u.(streams := u.streams.(targets := u.streams.targets + [sample]))
  }

  /** Forms what can be formed and drops what has expired; too few observations carry no correction. */
  function Maintained(e: Engine, g: Gates, now: real, offset: real): Engine
    requires Cursors(e.streams) && Spaced(e.streams)
  {
    FormFromKeeps(e.streams, g, offset, false);
    var f := FormFrom(e.streams, g, offset, false);
    var formed := if f.jumped then Broke(e.course) else if f.held then Uncorrected(e.course) else e.course;
    var s := Trimmed(f.streams, now);
    e.(streams := s, course := if |s.observations| < MinObservations then Uncorrected(formed) else formed)
  }

  predicate IsFresh(s: Streams, now: real) {
    s.lastObs > 0.0 && now - s.lastObs <= CoastGap
  }

  /** A decision while a jump candidate is unresolved authorizes no correction. */
  function Evaluated(e: Engine, now: real, estimated: Option<Reading>, cal: Rigid): Engine {
    var jump := e.streams.pending.Some?;
    var c := Decided(e.course, e.target, jump, now, estimated, cal);
    e.(course := if jump then Uncorrected(c) else c)
  }

  /** With the streams up to date: an evaluation if one is due and there is enough to evaluate. */
  function Continued(u: Engine, now: real, estimated: Option<Reading>, cal: Rigid): Engine {
    if now - u.lastEvaluate < EvaluateInterval then u
    else
      var v := u.(lastEvaluate := now);
      if |v.streams.observations| >= MinObservations then Evaluated(v, now, estimated, cal)
      else if v.course.state.Tracking? || v.course.state.Holding? then v.(course := Deactivated(v.course))
      else v
  }

  function Updated(e: Engine, g: Gates, now: real, offset: real, estimated: Option<Reading>, cal: Rigid): Engine
    requires Cursors(e.streams) && Spaced(e.streams)
  {
    if !e.mounted then e.(course := Deactivated(e.course))
    else
      var m := Maintained(e, g, now, offset);
      if !IsFresh(m.streams, now) then m.(course := Coasted(m.course))
      else Continued(m.(course := Recovered(m.course)), now, estimated, cal)
  }

  function Called(e: Engine, g: Gates, call: Call): Engine
    requires Cursors(e.streams) && Spaced(e.streams)
  {
    match call
    case PushReference(sample) => PushedReference(e, sample)
    case PushTarget(sample) => PushedTarget(e, sample)
    case Update(now, offset, estimated, cal) => Updated(e, g, now, offset, estimated, cal)
    case Reset(gap) => ResetBy(e, gap)
    case NoteTargetResolved(time, newSolution) => TargetResolved(e, time, newSolution)
    case SetMounted(mounted) => e.(mounted := mounted)
    case SetSettling(settling) => e.(target := e.target.(settling := settling))
    case SetRestartsVisible(visible) => e.(target := e.target.(restartsVisible := visible))
    case SetFollowMode(follow) => e.(course := Switched(e.course, follow))
    case PollCorrection => e.(course := e.course.(correction := None))
    case PollReanchor => e.(course := e.course.(reanchor := None))
    case PollEvent => e.(course := e.course.(events := if e.course.events == [] then [] else e.course.events[1..]))
  }

  /** What a caller owes: a calibration whose rotation is one, and times that are not negative. */
  predicate Proper(call: Call) {
    call.Update? ==> Unit(call.cal.rotation) && call.now >= 0.0
  }

  /** The record is in the order of its times, none of them after the last evaluation. */
  predicate Clocked(record: seq<Note>, lastEvaluate: real) {
    Rises(record) && NoLater(record, lastEvaluate)
  }

  /** A waiting correction is eligible: Tracking, with no jump candidate unresolved. */
  ghost predicate Valid(e: Engine) {
    && Cursors(e.streams) && Spaced(e.streams) && Sound(e.course) && Clocked(e.course.record, e.lastEvaluate)
    && (e.course.eligible ==> e.streams.pending.None?)
  }

  /** Nothing was added but what ends evidence. */
  ghost predicate OnlyEnded(was: seq<Note>, record: seq<Note>) {
    was <= record && forall i :: |was| <= i < |record| ==> !record[i].Timed()
  }

  lemma StillClocked(was: seq<Note>, record: seq<Note>, lastEvaluate: real)
    requires Clocked(was, lastEvaluate) && OnlyEnded(was, record)
    ensures Clocked(record, lastEvaluate)
  {
    assert forall i :: 0 <= i < |was| ==> record[i] == was[i];
  }

  lemma EndedAgain(was: seq<Note>, more: seq<Note>, record: seq<Note>)
    requires OnlyEnded(was, more) && OnlyEnded(more, record)
    ensures OnlyEnded(was, record)
  {
  }

  // What interrupts a course only ends evidence.

  lemma BrokeEnds(c: Course)
    ensures OnlyEnded(c.record, Broke(c).record) && OnlyEnded(c.record, c.record)
  {
    assert c.record + [] == c.record;
    Appended(c.record, [], c.record);
    Appended(c.record, [Broken], Broke(c).record);
    hide OnlyEnded;
  }

  lemma CoastedEnds(c: Course)
    ensures OnlyEnded(c.record, Coasted(c).record)
  {
    assert c.record + [Broken] + [Ended] == c.record + [Broken, Ended];
    Appended(c.record, [Broken], Coasted(c).record);
    Appended(c.record, [Broken, Ended], Coasted(c).record);
    hide OnlyEnded;
  }

  lemma DeactivatedEnds(c: Course)
    ensures OnlyEnded(c.record, Deactivated(c).record)
  {
    BrokeEnds(c);
    Appended(c.record, [Ended], Deactivated(c).record);
    hide OnlyEnded;
  }

  lemma RestartEnds(c: Course, gap: bool)
    ensures OnlyEnded(c.record, Restart(c, gap).record)
  {
    var last := if !gap then [Forgot] else if c.state.Frozen? then [] else [Ended];
    assert Restart(c, gap).record == c.record + [Broken] + last;
    assert c.record + [Broken] + last == c.record + ([Broken] + last);
    hide OnlyEnded, Restart;
    Appended(c.record, [Broken] + last, Restart(c, gap).record);
  }

  lemma SwitchedEnds(c: Course, follow: bool)
    ensures OnlyEnded(c.record, Switched(c, follow).record)
  {
    BrokeEnds(c);
    Appended(c.record, [Forgot], Switched(c, follow).record);
    hide OnlyEnded;
  }

  lemma Appended(was: seq<Note>, more: seq<Note>, record: seq<Note>)
    requires forall n :: n in more ==> !n.Timed()
    ensures record == was + more ==> OnlyEnded(was, record)
  {
  }

  // --- what each call may change, and what that rests on ---

  /** A freeze is only raised by an update, after a run of evaluations beyond the band. */
  ghost predicate FreezeRests(e: Engine, call: Call, v: Engine) {
    !e.course.state.Frozen? && v.course.state.Frozen? ==>
      && call.Update? && call.estimated.Some?
      && exists since :: Lasted(since, call.now, FreezeConfirm) && Throughout(Told(v.course.record), since, call.now, BeyondBand)
  }

  ghost predicate Replaces(e: Engine, call: Call, v: Engine) {
    && call.Update? && call.estimated.Some? && v.streams.pending.None? && v.course.state.Tracking?
    && v.course.anchors == e.course.anchors + [Anchor(call.cal, false)] && v.course.replaced == Some(call.cal)
    && v.course.reanchor == Some(DeltaToEstimate(call.estimated.value, call.cal)) && e.target.restartsVisible
    && exists since, at ::
         Lasted(since, call.now, ReanchorConfirm) && Throughout(Told(v.course.record), since, call.now, StandsStill(at))
  }

  ghost predicate Restores(e: Engine, call: Call, v: Engine) {
    && call.Update? && v.streams.pending.None? && v.course.state.Tracking?
    && e.course.replaced.Some? && e.course.anchors != [] && v.course.replaced.None?
    && e.course.anchors[|e.course.anchors| - 1] == Anchor(e.course.replaced.value, false)
    && v.course.anchors == e.course.anchors[|e.course.anchors| - 1 := Anchor(e.course.replaced.value, true)]
    && v.course.reanchor.Some? && Compose(v.course.reanchor.value, call.cal) == e.course.replaced.value
    && exists since ::
         Lasted(since, call.now, ResumeConfirm) && Throughout(Told(v.course.record), since, call.now, FitsAgain(e.course.replaced.value))
  }

  ghost predicate Resumes(e: Engine, call: Call, v: Engine) {
    && call.Update? && call.estimated.Some? && v.course.state.Tracking? && SameCalibration(e.course, v.course)
    && exists since :: (Lasted(since, call.now, ResumeConfirm) && Throughout(Told(v.course.record), since, call.now, WellInsideBand))
                       || (Lasted(since, call.now, ResumeInBand) && Throughout(Told(v.course.record), since, call.now, WithinBand))
  }

  /**
   A freeze only ends when readings have been back inside for long enough, when they stood still for
   longer and are followed, when they fit what a re-anchor had replaced, or when the caller breaks off.
   */
  ghost predicate ThawRests(e: Engine, call: Call, v: Engine) {
    e.course.state.Frozen? && !v.course.state.Frozen? ==>
      || Resumes(e, call, v) || Replaces(e, call, v) || Restores(e, call, v)
      || (call.Update? && !e.mounted && v.course.state.Inactive?)
      || (call == Reset(false) && v.course.state.Inactive?)
      || (call == SetFollowMode(true) && v.course.state.Holding?)
  }

  /** Follow mode takes the estimate itself, and leaves nothing to undo. */
  predicate FollowedFrom(c: Course, v: Course, r: Reading, cal: Rigid) {
    && c.follow && v.anchors == c.anchors && v.replaced == c.replaced
    && v.reanchor == Some(DeltaToEstimate(r, cal)) && Stuck(r, cal)
  }

  /** The anchors, what an undo restores and the re-anchor that waits only change so. */
  ghost predicate CalibrationRests(e: Engine, call: Call, v: Engine) {
    || SameCalibration(e.course, v.course) || Replaces(e, call, v) || Restores(e, call, v)
    || (&& call.Update? && call.estimated.Some? && v.streams.pending.None?
        && FollowedFrom(e.course, v.course, call.estimated.value, call.cal))
    || (&& !call.Update? && v.course.anchors == e.course.anchors
        && (v.course.reanchor == e.course.reanchor || v.course.reanchor.None?)
        && (v.course.replaced == e.course.replaced || v.course.replaced.None?))
  }

  /** A correction an update leaves waiting is the largest allowed part of a deviation inside the band, or was waiting. */
  predicate CorrectionRests(e: Engine, call: Call, v: Engine) {
    v.course.correction.Some? && v.course.correction != e.course.correction ==>
      && call.Update? && call.estimated.Some? && v.streams.pending.None? && v.course.state.Tracking?
      && var r := call.estimated.value;
         InBand(Measured(r, call.cal)) && !r.noisy && (!e.target.settling || e.course.follow)
         && v.course.correction.value == PartWay(r, call.cal, Part(Measured(r, call.cal)))
  }

  ghost predicate Rests(e: Engine, call: Call, v: Engine) {
    FreezeRests(e, call, v) && ThawRests(e, call, v) && CalibrationRests(e, call, v) && CorrectionRests(e, call, v)
  }

  lemma ResetByKeeps(e: Engine, gap: bool)
    requires Valid(e)
    ensures Valid(ResetBy(e, gap)) && ResetBy(e, gap).streams == NoStreams
  {
    RestartKeeps(e.course, gap);
    RestartEnds(e.course, gap);
    StillClocked(e.course.record, Restart(e.course, gap).record, e.lastEvaluate);
    hide Sound, Clocked;
  }

  lemma ResetByRests(e: Engine, call: Call, v: Engine, gap: bool)
    requires Valid(e) && v.course == Restart(e.course, gap) && !call.Update? && (!gap ==> call == Reset(false))
    ensures Rests(e, call, v)
  {
    RestartKeeps(e.course, gap);
    hide Sound, Restart, Replaces, Restores, Resumes, Cursors, Spaced, Clocked;
  }

  /** What comes before the decision leaves all it rests on as it is, but for breaks in the record. */
  ghost predicate UpTo(e: Engine, u: Engine) {
    && Valid(u) && u.target == e.target && u.course.follow == e.course.follow
    && SameCalibration(e.course, u.course) && (u.course.state.Frozen? <==> e.course.state.Frozen?)
    && (u.course.correction.Some? ==> u.course.correction == e.course.correction)
  }

  lemma InterruptedKeeps(c: Course, jumped: bool, held: bool, few: bool)
    requires Sound(c)
    ensures var formed := if jumped then Broke(c) else if held then Uncorrected(c) else c;
            var v := if few then Uncorrected(formed) else formed;
            && Sound(v) && v.follow == c.follow && SameCalibration(c, v) && v.state == c.state
            && (v.correction.Some? ==> v.correction == c.correction) && (v.eligible ==> c.eligible && !jumped && !held)
            && v.events == c.events
            && OnlyEnded(c.record, v.record)
  {
    BrokeIsSound(c);
    UncorrectedIsSound(c);
    UncorrectedIsSound(Broke(c));
    UncorrectedIsSound(Uncorrected(c));
    hide Sound;
  }

  lemma StreamsMaintained(s: Streams, g: Gates, now: real, offset: real)
    requires Cursors(s) && Spaced(s)
    ensures var f := FormFrom(s, g, offset, false);
            && Cursors(f.streams)
            && var t := Trimmed(f.streams, now);
               Cursors(t) && Spaced(t) && (t.pending.Some? ==> s.pending.Some? || f.held)
  {
    var f := FormFrom(s, g, offset, false);
    FormFromKeeps(s, g, offset, false);
    TrimDropsTheExpired(f.streams, now);
    hide LeftFrom, LeftObserved, FormFrom, Trimmed, Pair;
  }

  lemma MaintainedKeeps(e: Engine, g: Gates, now: real, offset: real)
    requires Valid(e)
    ensures UpTo(e, Maintained(e, g, now, offset))
  {
    hide Sound, Ordered, Spaced, FormFrom, Trimmed, Broke, Uncorrected, Clocked, OnlyEnded;
    StreamsMaintained(e.streams, g, now, offset);
    var f := FormFrom(e.streams, g, offset, false);
    InterruptedKeeps(e.course, f.jumped, f.held, |Trimmed(f.streams, now).observations| < MinObservations);
    StillClocked(e.course.record, Maintained(e, g, now, offset).course.record, e.lastEvaluate);
  }

  lemma UpToCourse(e: Engine, u: Engine, c: Course)
    requires UpTo(e, u) && Sound(c) && c.follow == u.course.follow && SameCalibration(u.course, c)
    requires (c.state.Frozen? <==> u.course.state.Frozen?) && (c.eligible ==> u.course.eligible)
    requires c.correction.Some? ==> c.correction == u.course.correction
    requires OnlyEnded(u.course.record, c.record)
    ensures UpTo(e, u.(course := c))
  {
    StillClocked(u.course.record, c.record, u.lastEvaluate);
    hide Sound, Cursors, Spaced, Clocked;
  }

  lemma UpToRests(e: Engine, call: Call, v: Engine)
    requires UpTo(e, v)
    ensures Rests(e, call, v)
  {
    hide Sound, Cursors, Spaced, Clocked, Replaces, Restores, Resumes, Ongoing, FollowedFrom;
  }

  lemma ToldIsLooked(c: Course, v: Course, t: Target, jump: bool, now: real, r: Reading, cal: Rigid)
    requires Exactly(c, v, t, jump, now, r, cal)
    ensures Told(v.record) == Looked(c, t, now, r, cal) && OneMore(c.record, v.record, now)
    ensures LastNote(Told(v.record)).Timed() && LastNote(Told(v.record)).time == now
  {
    var rec := Looked(c, t, now, r, cal);
    assert rec[|rec| - 1].Read? && rec[..|c.record|] == c.record;
    assert v.record == rec || v.record == rec + [Ended] || v.record == rec + [Froze(now)];
    hide FreezeDue, ResumeDue, UndoDue, ReanchorDue, FollowDue, CorrectDue, Measured, DeltaToEstimate, PartWay, Part, MoveOf;
    assert (rec + [Ended])[..|rec|] == rec && (rec + [Froze(now)])[..|rec|] == rec;
  }

  /** What a quiet evaluation of the engine `u` decides, before a candidate that is unresolved withdraws its correction. */
  ghost predicate Decision(u: Engine, call: Call, c: Course) {
    && call.Update? && call.estimated.Some?
    && Exactly(u.course, c, u.target, u.streams.pending.Some?, call.now, call.estimated.value, call.cal)
    && Rises(Told(c.record))
  }

  lemma SoundCourse(u: Engine)
    requires Valid(u)
    ensures Sound(u.course)
  {
    hide Sound;
  }

  /** What a decision leaves the course in, by what is due; the rest of it is not looked at here. */
  lemma DecisionIs(u: Engine, call: Call, c: Course)
    requires Valid(u) && Decision(u, call, c)
    ensures var rec, r, jump := Told(c.record), call.estimated.value, u.streams.pending.Some?;
            && rec == Looked(u.course, u.target, call.now, r, call.cal)
            && Rises(rec) && LastNote(rec).Timed() && LastNote(rec).time == call.now
            && (!u.course.state.Frozen? && c.state.Frozen? ==> FreezeDue(u.course, rec, call.now))
            && (u.course.state.Frozen? && !c.state.Frozen? ==>
                 ResumeDue(u.course, rec, call.now) || UndoDue(u.course, rec, jump, call.now) || ReanchorDue(rec, jump, call.now))
            && (ResumeDue(u.course, rec, call.now) ==> c.state.Tracking? && SameCalibration(u.course, c))
            && (UndoDue(u.course, rec, jump, call.now) ==>
                 && c.state.Tracking? && u.course.replaced.Some? && c.replaced.None? && u.course.anchors != []
                 && u.course.anchors[|u.course.anchors| - 1] == Anchor(u.course.replaced.value, false)
                 && Unit(u.course.replaced.value.rotation) && !jump
                 && c.anchors == u.course.anchors[|u.course.anchors| - 1 := Anchor(u.course.replaced.value, true)]
                 && c.reanchor == Some(MoveOf(call.cal, u.course.replaced.value)))
            && (ReanchorDue(rec, jump, call.now) ==>
                 && c.state.Tracking? && c.replaced == Some(call.cal) && c.reanchor == Some(DeltaToEstimate(r, call.cal))
                 && c.anchors == u.course.anchors + [Anchor(call.cal, false)] && u.target.restartsVisible && !jump)
            && (SameCalibration(u.course, c) || UndoDue(u.course, rec, jump, call.now) || ReanchorDue(rec, jump, call.now)
                || (!jump && FollowedFrom(u.course, c, r, call.cal)))
            && (c.correction.Some? ==> c.eligible)
            && (c.eligible ==>
                 && c.state.Tracking? && InBand(Measured(r, call.cal))
                 && c.correction == Some(PartWay(r, call.cal, Part(Measured(r, call.cal)))))
  {
    var r, jump, rec := call.estimated.value, u.streams.pending.Some?, Told(c.record);
    SoundCourse(u);
    ToldIsLooked(u.course, c, u.target, jump, call.now, r, call.cal);
    DuesExclude(u.course, u.target, jump, call.now, r, call.cal);
    if ReanchorDue(rec, jump, call.now) {
      ReanchorIsUnblamed(u.course, u.target, jump, call.now, r, call.cal);
    }
    hide MarksAre, Rises, Measured, DeltaToEstimate, PartWay, Part, MoveOf, Looked, Told, RunSince, StillSince, ReturnSince,
         EpisodeOf, BlameOf, LastNote, Unit, RestartedIn, Valid;
  }

  // Each change a decision makes rests on its run.

  lemma DecisionFreezes(e: Engine, u: Engine, c: Course, call: Call)
    requires UpTo(e, u) && Decision(u, call, c) && Proper(call)
    ensures FreezeRests(e, call, u.(course := if u.streams.pending.Some? then Uncorrected(c) else c))
  {
    DecisionIs(u, call, c);
    DuesAreRuns(u.course, Told(c.record), u.streams.pending.Some?, call.now);
    hide Ongoing, Rises, Exactly, Measured, DeltaToEstimate, PartWay, Part, MoveOf, Looked, Told, Stuck, Compose, Unit;
    hide ResumeDue, UndoDue, ReanchorDue, FreezeDue, Valid, LastNote;
  }

  lemma DecisionThaws(e: Engine, u: Engine, c: Course, call: Call)
    requires UpTo(e, u) && Decision(u, call, c) && Proper(call)
    ensures ThawRests(e, call, u.(course := if u.streams.pending.Some? then Uncorrected(c) else c))
  {
    DecisionIs(u, call, c);
    DuesAreRuns(u.course, Told(c.record), u.streams.pending.Some?, call.now);
    if UndoDue(u.course, Told(c.record), u.streams.pending.Some?, call.now) {
      MoveCarries(call.cal, u.course.replaced.value);
    }
    hide Ongoing, Rises, Exactly, Measured, DeltaToEstimate, PartWay, Part, MoveOf, Looked, Told, Stuck, Compose, Unit;
    hide ResumeDue, UndoDue, ReanchorDue, FreezeDue, Valid, LastNote;
  }

  lemma DecisionReplaces(e: Engine, u: Engine, c: Course, call: Call)
    requires UpTo(e, u) && Decision(u, call, c) && Proper(call)
    ensures CalibrationRests(e, call, u.(course := if u.streams.pending.Some? then Uncorrected(c) else c))
  {
    DecisionIs(u, call, c);
    DuesAreRuns(u.course, Told(c.record), u.streams.pending.Some?, call.now);
    if UndoDue(u.course, Told(c.record), u.streams.pending.Some?, call.now) {
      MoveCarries(call.cal, u.course.replaced.value);
    }
    hide Ongoing, Rises, Exactly, Measured, DeltaToEstimate, PartWay, Part, MoveOf, Looked, Told, Stuck, Compose, Unit;
    hide ResumeDue, UndoDue, ReanchorDue, FreezeDue, Valid, LastNote;
  }

  /** A correction is only left where nothing is unresolved. */
  lemma DecisionCorrects(e: Engine, u: Engine, c: Course, call: Call)
    requires UpTo(e, u) && Decision(u, call, c)
    requires Quiet(u.course, u.target, call.estimated.value)
    ensures CorrectionRests(e, call, u.(course := if u.streams.pending.Some? then Uncorrected(c) else c))
  {
    DecisionIs(u, call, c);
    hide Rises, Exactly, Measured, DeltaToEstimate, PartWay, Part, MoveOf, Looked, Told, Unit;
    hide ResumeDue, UndoDue, ReanchorDue, FreezeDue, Valid, LastNote, InBand;
  }

  lemma EvaluatedKeeps(e: Engine, u: Engine, call: Call)
    requires Valid(e) && UpTo(e, u) && call.Update? && Proper(call) && u.lastEvaluate < call.now
    ensures var v := Evaluated(u.(lastEvaluate := call.now), call.now, call.estimated, call.cal);
            Valid(v) && Rests(e, call, v)
  {
    var w := u.(lastEvaluate := call.now);
    LaterClocked(e, u, call.now);
    var jump := u.streams.pending.Some?;
    var c := Decided(u.course, u.target, jump, call.now, call.estimated, call.cal);
    SoundCourse(u);
    DecidedExactly(u.course, u.target, jump, call.now, call.estimated, call.cal);
    UncorrectedIsSound(c);
    hide Sound, Decided, Exactly, Withholds, Rests, Cursors, Spaced;
    match call.estimated
    case None => WithdrawnRests(e, w, c, call);
    case Some(r) =>
      if Quiet(u.course, u.target, r) {
        QuietRests(e, u, c, call);
      } else {
        WaitingRests(e, u, c, call);
      }
  }

  lemma WithdrawnRests(e: Engine, w: Engine, c: Course, call: Call)
    requires UpTo(e, w) && c == Uncorrected(w.course) && Sound(c)
    ensures var v := w.(course := if w.streams.pending.Some? then Uncorrected(c) else c); Valid(v) && Rests(e, call, v)
  {
    hide Sound, Rests, Cursors, Spaced, Clocked;
    UpToCourse(e, w, c);
    UpToRests(e, call, w.(course := c));
  }

  lemma QuietRests(e: Engine, u: Engine, c: Course, call: Call)
    requires UpTo(e, u) && call.Update? && Proper(call) && u.lastEvaluate < call.now && call.estimated.Some?
    requires Quiet(u.course, u.target, call.estimated.value) && Sound(c) && Sound(Uncorrected(c))
    requires Exactly(u.course, c, u.target, u.streams.pending.Some?, call.now, call.estimated.value, call.cal)
    ensures var v := u.(lastEvaluate := call.now, course := if u.streams.pending.Some? then Uncorrected(c) else c);
            Valid(v) && Rests(e, call, v)
  {
    var w := u.(lastEvaluate := call.now);
    ToldIsLooked(u.course, c, u.target, u.streams.pending.Some?, call.now, call.estimated.value, call.cal);
    OneMoreRises(u.course.record, c.record, u.lastEvaluate, call.now);
    LaterClocked(e, u, call.now);
    DecisionFreezes(e, w, c, call);
    DecisionThaws(e, w, c, call);
    DecisionReplaces(e, w, c, call);
    DecisionCorrects(e, w, c, call);
    hide Sound, Exactly, Cursors, Spaced, Rises, NoLater, Told, FreezeRests, ThawRests, CalibrationRests, CorrectionRests;
  }

  lemma WaitingRests(e: Engine, u: Engine, c: Course, call: Call)
    requires UpTo(e, u) && call.Update? && Proper(call) && u.lastEvaluate < call.now
    requires Withholds(u.course, c, u.target, call.now) && Sound(c) && Sound(Uncorrected(c))
    ensures var v := u.(lastEvaluate := call.now, course := if u.streams.pending.Some? then Uncorrected(c) else c);
            Valid(v) && Rests(e, call, v)
  {
    var v := u.(lastEvaluate := call.now, course := if u.streams.pending.Some? then Uncorrected(c) else c);
    var note := if u.target.settling && !u.course.follow then Unsettled(call.now) else Noisy(call.now);
    assert c.record == u.course.record + [note];
    assert OneMore(u.course.record, c.record, call.now);
    OneMoreRises(u.course.record, c.record, u.lastEvaluate, call.now);
    hide Sound, Cursors, Spaced, Rises, NoLater, Told, Rests;
    UpToRests(e, call, v);
  }

  lemma LaterClocked(e: Engine, u: Engine, now: real)
    requires UpTo(e, u) && u.lastEvaluate < now
    ensures UpTo(e, u.(lastEvaluate := now))
  {
    hide Sound, Cursors, Spaced;
  }

  lemma ContinuedKeeps(e: Engine, u: Engine, call: Call)
    requires Valid(e) && UpTo(e, u) && call.Update? && Proper(call)
    ensures var v := Continued(u, call.now, call.estimated, call.cal); Valid(v) && Rests(e, call, v)
  {
    var v := u.(lastEvaluate := call.now);
    hide Sound, Rests, Cursors, Spaced, Evaluated, Deactivated, Clocked;
    if call.now - u.lastEvaluate < EvaluateInterval {
      UpToRests(e, call, u);
    } else {
      LaterClocked(e, u, call.now);
      if |u.streams.observations| >= MinObservations {
        EvaluatedKeeps(e, u, call);
      } else if u.course.state.Tracking? || u.course.state.Holding? {
        DeactivatedKeeps(e, v, call);
      } else {
        UpToRests(e, call, v);
      }
    }
  }

  lemma CoastedRests(e: Engine, m: Engine, call: Call)
    requires Valid(e) && UpTo(e, m)
    ensures var v := m.(course := Coasted(m.course)); Valid(v) && Rests(e, call, v)
    ensures UpTo(e, m.(course := Recovered(m.course)))
  {
    SoundCourse(m);
    CoastedExactly(m.course);
    RecoveredExactly(m.course);
    CoastedEnds(m.course);
    BrokeEnds(m.course);
    hide Sound, Rests, Cursors, Spaced, Entered, Clocked;
    UpToCourse(e, m, Coasted(m.course));
    UpToRests(e, call, m.(course := Coasted(m.course)));
    UpToCourse(e, m, Recovered(m.course));
  }

  lemma ValidStreams(e: Engine)
    requires Valid(e)
    ensures Cursors(e.streams) && Spaced(e.streams)
  {
    hide Sound, Clocked;
  }

  lemma UpdatedKeeps(e: Engine, g: Gates, call: Call)
    requires Valid(e) && call.Update? && Proper(call)
    ensures var v := Updated(e, g, call.now, call.offset, call.estimated, call.cal);
            Valid(v) && Rests(e, call, v)
  {
    ValidStreams(e);
    hide Valid, Rests, UpTo, Maintained, Continued, Deactivated, Coasted, Recovered, Cursors, Spaced;
    if !e.mounted {
      NotMountedRests(e, call);
    } else {
      MaintainedKeeps(e, g, call.now, call.offset);
      var m := Maintained(e, g, call.now, call.offset);
      CoastedRests(e, m, call);
      ContinuedKeeps(e, m.(course := Recovered(m.course)), call);
    }
  }

  lemma DeactivatedKeeps(e: Engine, v: Engine, call: Call)
    requires UpTo(e, v) && (v.course.state.Tracking? || v.course.state.Holding?)
    ensures var d := v.(course := Deactivated(v.course)); Valid(d) && Rests(e, call, d)
  {
    SoundCourse(v);
    DeactivatedExactly(v.course);
    DeactivatedEnds(v.course);
    var c := Deactivated(v.course);
    hide Sound, Rests, Cursors, Spaced, Deactivated;
    UpToCourse(e, v, c);
    UpToRests(e, call, v.(course := c));
  }

  lemma NotMountedRests(e: Engine, call: Call)
    requires Valid(e) && call.Update? && !e.mounted
    ensures var v := e.(course := Deactivated(e.course)); Valid(v) && Rests(e, call, v)
  {
    SoundCourse(e);
    DeactivatedExactly(e.course);
    DeactivatedEnds(e.course);
    StillClocked(e.course.record, Deactivated(e.course).record, e.lastEvaluate);
    hide Sound, Cursors, Spaced, Clocked, Deactivated, Replaces, Restores, Resumes, FollowedFrom;
  }

  /** A later sample keeps a stream in order. */
  lemma AppendKeeps(s: Streams, sample: PoseSample)
    requires Cursors(s) && Spaced(s)
    ensures s.refs == [] || sample.time > s.refs[|s.refs| - 1].time ==>
              Cursors(s.(refs := s.refs + [sample])) && Spaced(s.(refs := s.refs + [sample]))
    ensures s.targets == [] || sample.time > s.targets[|s.targets| - 1].time ==>
              Cursors(s.(targets := s.targets + [sample])) && Spaced(s.(targets := s.targets + [sample]))
  {
  }

  lemma PushedReferenceKeeps(e: Engine, sample: PoseSample)
    requires Valid(e)
    ensures var v := PushedReference(e, sample); Valid(v) && Rests(e, PushReference(sample), v)
  {
    var v := PushedReference(e, sample);
    ResetByKeeps(e, true);
    AppendKeeps(e.streams, sample);
    AppendKeeps(NoStreams, sample);
    hide Sound, Rests, Restart, Cursors, Spaced, Clocked;
    if v.course == e.course {
      SameCourseRests(e, PushReference(sample), v);
    } else {
      ResetByRests(e, PushReference(sample), v, true);
    }
  }

  lemma PushedTargetKeeps(e: Engine, sample: PoseSample)
    requires Valid(e)
    ensures var v := PushedTarget(e, sample); Valid(v) && Rests(e, PushTarget(sample), v)
  {
    var v := PushedTarget(e, sample);
    ResetByKeeps(e, true);
    AppendKeeps(e.streams, sample);
    AppendKeeps(NoStreams, sample);
    hide Sound, Rests, Restart, Cursors, Spaced, Clocked;
    if v.course == e.course {
      SameCourseRests(e, PushTarget(sample), v);
    } else {
      ResetByRests(e, PushTarget(sample), v, true);
    }
  }

  lemma SameCourseRests(e: Engine, call: Call, v: Engine)
    requires v.course == e.course && !call.Update?
    ensures Rests(e, call, v)
  {
    hide Ongoing, Replaces, Restores, Resumes, FollowedFrom;
  }

  lemma SwitchedSame(c: Course, follow: bool)
    ensures follow == c.follow ==> Switched(c, follow) == c
  {
  }

  lemma NoFollowNoReplaced(c: Course)
    requires Sound(c)
    ensures c.state.Frozen? ==> !c.follow
  {
    hide MarksAre;
  }

  lemma SwitchedRests(e: Engine, follow: bool)
    requires Valid(e)
    ensures var v := e.(course := Switched(e.course, follow)); Valid(v) && Rests(e, SetFollowMode(follow), v)
  {
    SwitchedIsValid(e, follow);
    SwitchedKeeps(e.course, follow);
    NoFollowNoReplaced(e.course);
    SwitchedSame(e.course, follow);
    hide Valid, Sound, Switched, Replaces, Restores, Resumes, FollowedFrom;
  }

  lemma SwitchedIsValid(e: Engine, follow: bool)
    requires Valid(e)
    ensures Valid(e.(course := Switched(e.course, follow))) && Sound(e.course)
  {
    SwitchedKeeps(e.course, follow);
    SwitchedEnds(e.course, follow);
    StillClocked(e.course.record, Switched(e.course, follow).record, e.lastEvaluate);
    hide Sound, Switched, Cursors, Spaced, Clocked;
  }

  lemma PolledRests(e: Engine, call: Call)
    requires Valid(e) && (call.PollCorrection? || call.PollReanchor? || call.PollEvent?)
    ensures var c := if call.PollCorrection? then e.course.(correction := None)
                     else if call.PollReanchor? then e.course.(reanchor := None)
                     else e.course.(events := if e.course.events == [] then [] else e.course.events[1..]);
            var v := e.(course := c);
            Valid(v) && Rests(e, call, v)
  {
    hide RunSince, EpisodeOf, BlameOf, StillSince, ReturnSince, Unit, Cursors, Spaced, Clocked, Replaces, Restores, Resumes, FollowedFrom;
  }

  /** Every call keeps the engine valid, and every change it makes rests on its evidence. */
  lemma CalledKeeps(e: Engine, g: Gates, call: Call)
    requires Valid(e) && Proper(call)
    ensures Valid(Called(e, g, call)) && Rests(e, call, Called(e, g, call))
  {
    hide Sound, Cursors, Spaced, Rests, Updated, PushedReference, PushedTarget, ResetBy, Switched;
    match call
    case PushReference(sample) => PushedReferenceKeeps(e, sample);
    case PushTarget(sample) => PushedTargetKeeps(e, sample);
    case Update(_, _, _, _) => UpdatedKeeps(e, g, call);
    case Reset(gap) => ResetCalledKeeps(e, gap);
    case NoteTargetResolved(_, _) => ResolvedKeeps(e, call, Called(e, g, call));
    case SetFollowMode(follow) => SwitchedRests(e, follow);
    case PollCorrection => PolledRests(e, call);
    case PollReanchor => PolledRests(e, call);
    case PollEvent => PolledRests(e, call);
    case _ => SameCourseRests(e, call, Called(e, g, call));
  }

  lemma ResetCalledKeeps(e: Engine, gap: bool)
    requires Valid(e)
    ensures Valid(ResetBy(e, gap)) && Rests(e, Reset(gap), ResetBy(e, gap))
  {
    ResetByKeeps(e, gap);
    hide Valid, Rests, Restart;
    ResetByRests(e, Reset(gap), ResetBy(e, gap), gap);
  }

  lemma ResolvedKeeps(e: Engine, call: Call, v: Engine)
    requires Valid(e) && call.NoteTargetResolved? && v == ResetBy(e, true).(target := v.target)
    ensures Valid(v) && Rests(e, call, v)
  {
    ResetByKeeps(e, true);
    hide Sound, Cursors, Spaced, Rests, Restart;
    ResetByRests(e, call, v, true);
  }

  // --- what each call does, and exactly when ---

  predicate Withdrawn(c: Course) {
    !c.eligible && c.correction.None?
  }

  /** An update that cannot evaluate: the state says why, and nothing is corrected. */
  ghost predicate Idles(e: Engine, v: Engine, state: State, event: seq<Event>) {
    && v.course.state == state && Withdrawn(v.course) && SameCalibration(e.course, v.course)
    && v.course.events == e.course.events + event
  }

  /**
   An update evaluates exactly when the tracker is mounted, its last observation is fresh, the last
   evaluation is long enough ago and the window has enough observations; what it decides then is
   exactly what is due, and an unresolved jump candidate holds a correction back. `m` is the engine
   with its streams up to date.
   */
  ghost predicate UpdatesExactly(e: Engine, m: Engine, call: Call, v: Engine)
    requires call.Update?
  {
    var was := e.course.state;
    var recovered := if was.Coasting? then [TrackerRecovered] else [];
    if !e.mounted then v.streams == e.streams && Idles(e, v, Inactive, [])
    else if !IsFresh(m.streams, call.now) then
      && v.streams == m.streams && v.lastEvaluate == e.lastEvaluate
      && Idles(e, v, if was.Tracking? || was.Holding? then Coasting else was,
               if was.Tracking? || was.Holding? then [TrackerLost] else [])
    else
      && v.streams == m.streams
      && if call.now - e.lastEvaluate < EvaluateInterval then
           && v.lastEvaluate == e.lastEvaluate && SameCalibration(e.course, v.course)
           && v.course.state == (if was.Coasting? then Inactive else was)
           && v.course.events == e.course.events + recovered
           && v.course.correction == m.course.correction && v.course.eligible == m.course.eligible
         else if |m.streams.observations| < MinObservations then
           && v.lastEvaluate == call.now
           && Idles(e, v, if was.Tracking? || was.Holding? || was.Coasting? then Inactive else was, recovered)
         else
           && v.lastEvaluate == call.now
           && var jump := m.streams.pending.Some?;
              exists c ::
                && DecidesExactly(Recovered(m.course), c, e.target, jump, call.now, call.estimated, call.cal)
                && v.course == if jump then Uncorrected(c) else c
  }

  /** A jump confirmed breaks the course, and a step held back or a thin window withdraws what waits; nothing else does. */
  ghost predicate MaintainsExactly(e: Engine, g: Gates, now: real, offset: real, m: Engine)
    requires Cursors(e.streams) && Spaced(e.streams)
  {
    FormFromKeeps(e.streams, g, offset, false);
    var f := FormFrom(e.streams, g, offset, false);
    && m.streams == Trimmed(f.streams, now) && m.course.state == e.course.state
    && (if f.jumped || f.held || |m.streams.observations| < MinObservations then Withdrawn(m.course)
        else m.course.correction == e.course.correction && m.course.eligible == e.course.eligible)
    && m.course.events == e.course.events && SameCalibration(e.course, m.course)
    && m.course.record == e.course.record + (if f.jumped then [Broken] else [])
    && m.target == e.target && m.lastEvaluate == e.lastEvaluate && m.mounted == e.mounted
  }

  lemma MaintainedExactly(e: Engine, g: Gates, now: real, offset: real)
    requires Valid(e)
    ensures MaintainsExactly(e, g, now, offset, Maintained(e, g, now, offset))
  {
    hide MarksAre, Clocked, Trimmed, FormFrom, Cursors, Spaced, Unit;
    FormFromKeeps(e.streams, g, offset, false);
    assert e.course.record + [] == e.course.record;
  }

  /** The engine with its streams up to date has the course it had, but for what was withdrawn or broken. */
  ghost predicate Upkept(e: Engine, m: Engine) {
    && Sound(m.course) && m.course.state == e.course.state && m.course.events == e.course.events
    && SameCalibration(e.course, m.course) && m.target == e.target && m.lastEvaluate == e.lastEvaluate
  }

  lemma IdlesExactly(e: Engine, m: Engine, call: Call)
    requires Sound(e.course) && Upkept(e, m) && call.Update?
    requires !e.mounted || !IsFresh(m.streams, call.now)
    ensures UpdatesExactly(e, m, call, if !e.mounted then e.(course := Deactivated(e.course)) else m.(course := Coasted(m.course)))
  {
    DeactivatedExactly(e.course);
    CoastedExactly(m.course);
    hide Sound, Coasted, Deactivated, DecidesExactly, Recovered;
  }

  lemma PausesExactly(e: Engine, m: Engine, call: Call)
    requires Upkept(e, m) && call.Update? && e.mounted && IsFresh(m.streams, call.now)
    requires call.now - e.lastEvaluate < EvaluateInterval
    ensures UpdatesExactly(e, m, call, Continued(m.(course := Recovered(m.course)), call.now, call.estimated, call.cal))
  {
    RecoveredExactly(m.course);
    hide Sound, Recovered, Deactivated, DecidesExactly, Evaluated, IsFresh;
  }

  lemma StarvesExactly(e: Engine, m: Engine, call: Call)
    requires Upkept(e, m) && call.Update? && e.mounted && IsFresh(m.streams, call.now)
    requires call.now - e.lastEvaluate >= EvaluateInterval && |m.streams.observations| < MinObservations
    ensures UpdatesExactly(e, m, call, Continued(m.(course := Recovered(m.course)), call.now, call.estimated, call.cal))
  {
    var u := Recovered(m.course);
    RecoveredExactly(m.course);
    DeactivatedExactly(u);
    if !u.state.Tracking? {
      IdleIsWithdrawn(u);
    }
    hide Sound, Recovered, Deactivated, DecidesExactly, Evaluated, IsFresh;
  }

  lemma EvaluatesExactly(e: Engine, m: Engine, call: Call)
    requires Upkept(e, m) && call.Update? && Proper(call) && e.mounted && IsFresh(m.streams, call.now)
    requires call.now - e.lastEvaluate >= EvaluateInterval && |m.streams.observations| >= MinObservations
    ensures UpdatesExactly(e, m, call, Continued(m.(course := Recovered(m.course)), call.now, call.estimated, call.cal))
  {
    var u, jump := Recovered(m.course), m.streams.pending.Some?;
    RecoveredExactly(m.course);
    DecidedExactly(u, m.target, jump, call.now, call.estimated, call.cal);
    hide Sound, Recovered, Decided, DecidesExactly, Unit, IsFresh, Idles;
    assert DecidesExactly(u, Decided(u, e.target, jump, call.now, call.estimated, call.cal), e.target, jump, call.now,
                          call.estimated, call.cal);
  }

  lemma IdleIsWithdrawn(c: Course)
    requires Sound(c) && !c.state.Tracking?
    ensures Withdrawn(c)
  {
    hide MarksAre;
  }

  lemma UpdatedExactly(e: Engine, g: Gates, call: Call)
    requires Valid(e) && call.Update? && Proper(call)
    ensures UpdatesExactly(e, Maintained(e, g, call.now, call.offset), call,
                           Updated(e, g, call.now, call.offset, call.estimated, call.cal))
  {
    var m := Maintained(e, g, call.now, call.offset);
    MaintainedKeeps(e, g, call.now, call.offset);
    MaintainedExactly(e, g, call.now, call.offset);
    SoundCourse(e);
    SoundCourse(m);
    hide Sound, Maintained, Coasted, Recovered, Deactivated, Continued, UpdatesExactly, Cursors, Spaced, Clocked, Unit, IsFresh;
    if !e.mounted || !IsFresh(m.streams, call.now) {
      IdlesExactly(e, m, call);
    } else {
      if call.now - e.lastEvaluate < EvaluateInterval {
        PausesExactly(e, m, call);
      } else if |m.streams.observations| < MinObservations {
        StarvesExactly(e, m, call);
      } else {
        EvaluatesExactly(e, m, call);
      }
    }
  }

  /** A restart: a gap keeps a freeze and its episode, what an undo would restore and what is blamed; any other keeps none. */
  ghost predicate Restarts(e: Engine, v: Engine, gap: bool) {
    var c, was := v.course, e.course;
    && Withdrawn(c) && c.reanchor.None? && c.events == [] && c.anchors == was.anchors && c.follow == was.follow
    && c.replaced == (if gap then was.replaced else None) && c.blamed == (if gap then was.blamed else None)
    && c.state == (if gap && (was.state.Frozen? || was.state.Coasting?) then was.state else Inactive)
    && (c.state.Frozen? ==> c.episodeSince == was.episodeSince)
  }

  lemma RestartsBy(e: Engine, v: Engine, gap: bool)
    requires Valid(e) && v.course == Restart(e.course, gap)
    ensures Restarts(e, v, gap)
  {
    SoundCourse(e);
    RestartKeeps(e.course, gap);
    hide Sound, Restart, Cursors, Spaced, Clocked;
  }

  /** A sample that is late is dropped, and one behind a gap begins the streams anew. */
  lemma PushedExactly(e: Engine, sample: PoseSample)
    requires Valid(e)
    ensures var v, refs := PushedReference(e, sample), e.streams.refs;
            if refs != [] && sample.time <= refs[|refs| - 1].time then v == e
            else if refs != [] && sample.time - refs[|refs| - 1].time >= MaxStreamGap then
              v.streams == NoStreams.(refs := [sample]) && Restarts(e, v, true)
            else v == e.(streams := e.streams.(refs := refs + [sample]))
    ensures var v, targets := PushedTarget(e, sample), e.streams.targets;
            if targets != [] && sample.time <= targets[|targets| - 1].time then v == e
            else if targets != [] && sample.time - targets[|targets| - 1].time >= MaxStreamGap then
              v.streams == NoStreams.(targets := [sample]) && Restarts(e, v, true)
            else v == e.(streams := e.streams.(targets := targets + [sample]))
  {
    RestartsBy(e, ResetBy(e, true).(streams := PushedReference(e, sample).streams), true);
    RestartsBy(e, ResetBy(e, true).(streams := PushedTarget(e, sample).streams), true);
    hide Valid, Restart, Restarts;
  }

  /** A reset empties the streams and restarts the decisions; so does a restart of the target, which is noted. */
  lemma ResetExactly(e: Engine, gap: bool, time: real, newSolution: bool)
    requires Valid(e)
    ensures var v := ResetBy(e, gap);
            v.streams == NoStreams && Restarts(e, v, gap) && v.target == e.target && v.mounted == e.mounted
    ensures var v := TargetResolved(e, time, newSolution);
            && v.streams == NoStreams && Restarts(e, v, true) && v.target.lastResolve == time
            && v.target.solutions == e.target.solutions + if newSolution then 1 else 0
  {
    RestartsBy(e, ResetBy(e, gap), gap);
    RestartsBy(e, TargetResolved(e, time, newSolution), true);
    hide Valid, Restart, Restarts;
  }

  lemma CorrectionDecided(u: Course, c: Course, t: Target, now: real, r: Reading, cal: Rigid)
    requires DecidesExactly(u, c, t, false, now, Some(r), cal) && Quiet(u, t, r)
    requires !u.state.Frozen? && InBand(Measured(r, cal))
    ensures var d := Measured(r, cal);
            c.correction == if d.yaw >= DeadbandYaw || d.pos >= DeadbandPos then Some(PartWay(r, cal, Part(d))) else None
  {
    hide Measured, PartWay, Part, InBand, FreezeDue, ResumeDue, UndoDue, ReanchorDue, FollowDue, Looked, DeltaToEstimate, MoveOf;
  }

  /**
   A correction is sent for every deviation inside the band and past the deadband in yaw or at the
   head, whenever an evaluation with a quiet reading finds no freeze and nothing unresolved.
   */
  lemma DueCorrectionIsSent(e: Engine, g: Gates, call: Call)
    requires Valid(e) && call.Update? && Proper(call) && e.mounted && call.estimated.Some?
    requires var m := Maintained(e, g, call.now, call.offset);
             IsFresh(m.streams, call.now) && |m.streams.observations| >= MinObservations && m.streams.pending.None?
    requires call.now - e.lastEvaluate >= EvaluateInterval && Quiet(e.course, e.target, call.estimated.value)
    requires !e.course.state.Frozen? && InBand(Measured(call.estimated.value, call.cal))
    ensures var r, v := call.estimated.value, Updated(e, g, call.now, call.offset, call.estimated, call.cal);
            var d := Measured(r, call.cal);
            v.course.correction == if d.yaw >= DeadbandYaw || d.pos >= DeadbandPos then Some(PartWay(r, call.cal, Part(d))) else None
  {
    var m := Maintained(e, g, call.now, call.offset);
    UpdatedExactly(e, g, call);
    MaintainedKeeps(e, g, call.now, call.offset);
    SoundCourse(m);
    RecoveredExactly(m.course);
    hide Sound, Maintained, Recovered, Cursors, Spaced, Clocked, Unit, Measured, PartWay, Part, Updated, DecidesExactly, InBand;
    var c :| DecidesExactly(Recovered(m.course), c, e.target, false, call.now, call.estimated, call.cal)
             && Updated(e, g, call.now, call.offset, call.estimated, call.cal).course == c;
    CorrectionDecided(Recovered(m.course), c, e.target, call.now, call.estimated.value, call.cal);
  }

  // --- whole runs ---

  /** The engines a run of calls goes through, the one it starts from included. */
  ghost predicate Runs(g: Gates, calls: seq<Call>, engines: seq<Engine>) {
    && |engines| == |calls| + 1
    && forall i :: 0 <= i < |calls| ==>
         Cursors(engines[i].streams) && Spaced(engines[i].streams) && engines[i + 1] == Called(engines[i], g, calls[i])
  }

  lemma NewIsValid()
    ensures Valid(NewEngine)
  {
  }

  lemma WaitingIsAllowed(e: Engine)
    requires Valid(e)
    ensures e.course.correction.Some? ==> e.course.eligible
    ensures e.course.eligible ==> e.course.state.Tracking? && e.streams.pending.None?
  {
    hide MarksAre, Cursors, Spaced, Clocked;
  }

  lemma UpdateIsCalled(e: Engine, g: Gates, call: Call)
    requires Cursors(e.streams) && Spaced(e.streams) && call.Update?
    ensures Called(e, g, call) == Updated(e, g, call.now, call.offset, call.estimated, call.cal)
  {
    hide Updated, Cursors, Spaced;
  }

  /**
   In every run from a new engine, whatever the calls, a waiting correction may be applied, every
   mark is what the record says, each call's changes rest on the evidence asked for, and each update
   does exactly what is due.
   */
  lemma {:induction false} EveryChangeRests(g: Gates, calls: seq<Call>, engines: seq<Engine>, i: nat)
    requires Runs(g, calls, engines) && engines[0] == NewEngine && i <= |calls|
    requires forall k :: 0 <= k < |calls| ==> Proper(calls[k])
    ensures Valid(engines[i])
    ensures engines[i].course.correction.Some? ==> engines[i].course.state.Tracking? && engines[i].streams.pending.None?
    ensures i < |calls| ==> Rests(engines[i], calls[i], engines[i + 1])
    ensures i < |calls| && calls[i].Update? ==>
              UpdatesExactly(engines[i], Maintained(engines[i], g, calls[i].now, calls[i].offset), calls[i], engines[i + 1])
    decreases i
  {
    NewIsValid();
    hide Called, Rests, Sound, Maintained, Updated, UpdatesExactly;
    if i > 0 {
      EveryChangeRests(g, calls, engines, i - 1);
      CalledKeeps(engines[i - 1], g, calls[i - 1]);
    }
    if i < |calls| {
      CalledKeeps(engines[i], g, calls[i]);
      if calls[i].Update? {
        UpdatedExactly(engines[i], g, calls[i]);
        UpdateIsCalled(engines[i], g, calls[i]);
      }
    }
    WaitingIsAllowed(engines[i]);
  }

  // ---------------------------------------------------------------------------
  // The engine, updated in place
  // ---------------------------------------------------------------------------

  class ContinuousAlignment {
    const gates: Gates
    var mounted: bool

    var refWindow: seq<PoseSample>
    var refHead: nat
    var targetWindow: seq<PoseSample>
    var targetHead: nat
    var targetProcessed: nat
    var observations: seq<Observation>
    var lastObsTime: real
    var lastKeptObsTime: real
    var lastEvaluateTime: real
    var pendingObs: Option<Observation>

    // The decisions' state, what has been recorded of them included.
    var course: Course
    var target: Target

    ghost function Windows(): Streams
      reads this
    {
      Streams(refWindow, refHead, targetWindow, targetHead, targetProcessed, observations, lastObsTime, lastKeptObsTime,
              pendingObs)
    }

    ghost function View(): Engine
      reads this
    {
      Engine(mounted, Windows(), course, target, lastEvaluateTime)
    }

    constructor (gates: Gates)
      ensures View() == NewEngine && this.gates == gates
    {
      this.gates, mounted := gates, false;
      refWindow, refHead, targetWindow, targetHead, targetProcessed := [], 0, [], 0, 0;
      observations, lastObsTime, lastKeptObsTime, lastEvaluateTime, pendingObs := [], 0.0, 0.0, 0.0, None;
      course, target := Start, Target(false, false, -1000000000.0, 0);
    }

    // --- decisions ---

    method EnterState(s: State)
      modifies `course
      ensures course == Entered(old(course), s)
    {
      if !s.Tracking? {
        Withdraw();
      }
      if s.Frozen? || s.Tracking? {
        course := course.(exceededSince := NotSet, belowSince := NotSet, inBandSince := NotSet);
      }
      if s.Inactive? || s.Coasting? {
        course := course.(episodeSince := NotSet, reanchorSince := NotSet, undoSince := NotSet);
      }
      course := course.(state := s);
    }

    method Withdraw()
      modifies `course
      ensures course == Uncorrected(old(course))
    {
      course := course.(eligible := false, correction := None);
    }

    method ClearConfirmMarks()
      modifies `course
      ensures course == Broke(old(course))
    {
      Withdraw();
      course := course.(exceededSince := NotSet, belowSince := NotSet, inBandSince := NotSet);
      course := course.(reanchorSince := NotSet, undoSince := NotSet);
      course := course.(record := course.record + [Broken]);
    }

    method ReadByLaterSolution(r: Reading) returns (same: bool)
      modifies `course
      ensures same == ReadBySomeLaterSolution(old(course), target, r)
      ensures course == if same then old(course)
                        else old(course).(blamed := Some(Blamed(r.estimate, target.solutions, old(course).episodeSince)))
    {
      hide Measured;
      if course.blamed.Some? {
        var b := course.blamed.value;
        if b.episode == course.episodeSince && b.solution != target.solutions && Steady(Measured(r, b.estimate)) {
          return true;
        }
      }
      course := course.(blamed := Some(Blamed(r.estimate, target.solutions, course.episodeSince)));
      same := false;
    }

    method TryUndo(now: real, cal: Rigid)
      requires course.replaced.Some?
      modifies `course
      ensures course == Undone(old(course), pendingObs.Some?, now, cal)
    {
      hide MoveOf;
      course := course.(reanchorSince := NotSet);
      if course.undoSince < 0.0 {
        course := course.(undoSince := now);
      }
      if now - course.undoSince < ResumeConfirm || pendingObs.Some? {
        return;
      }
      var back := course.replaced.value;
      course := course.(reanchor := Some(MoveOf(cal, back)), events := course.events + [ReanchorUndone]);
      if course.anchors != [] {
        course := course.(anchors := course.anchors[|course.anchors| - 1 := Anchor(back, true)]);
      }
      course := course.(replaced := None, episodeSince := NotSet, undoSince := NotSet, record := course.record + [Ended]);
      EnterState(Tracking);
    }

    method Reanchor(r: Reading, cal: Rigid, across: bool)
      modifies `course
      ensures course == ReanchoredAt(old(course), r, cal, across)
    {
      hide DeltaToEstimate;
      course := course.(reanchor := Some(DeltaToEstimate(r, cal)), replaced := Some(cal));
      course := course.(anchors := course.anchors + [Anchor(cal, false)]);
      course := course.(events := course.events + [Reanchored(false, across)]);
      course := course.(episodeSince := NotSet, reanchorSince := NotSet, record := course.record + [Ended]);
      EnterState(Tracking);
    }

    method TryReanchor(now: real, r: Reading, cal: Rigid)
      modifies `course
      ensures course == Tried(old(course), target, pendingObs.Some?, now, r, cal)
    {
      hide Measured, ReanchoredAt, Undone, Steady, WellInside;
      if course.replaced.Some? {
        if WellInside(Measured(r, course.replaced.value)) {
          TryUndo(now, cal);
          return;
        }
        course := course.(undoSince := NotSet);
      }
      var restarted := course.episodeSince >= 0.0 && target.lastResolve >= course.episodeSince - ResolveAttribution;
      var acrossSolutions := false;
      if restarted {
        acrossSolutions := ReadByLaterSolution(r);
      }
      if (restarted && !acrossSolutions) || !target.restartsVisible {
        course := course.(reanchorSince := NotSet);
        return;
      }
      if course.reanchorSince >= 0.0 && !Steady(Measured(r, course.reanchorRef)) {
        course := course.(reanchorSince := NotSet);
      }
      if course.reanchorSince < 0.0 {
        course := course.(reanchorSince := now, reanchorRef := r.estimate);
        return;
      }
      if now - course.reanchorSince < ReanchorConfirm || pendingObs.Some? {
        return;
      }
      Reanchor(r, cal, acrossSolutions);
    }

    method DecideSettling(now: real)
      modifies `course
      ensures course == WhileUnsettled(old(course), now)
    {
      course := course.(exceededSince := NotSet, belowSince := NotSet, inBandSince := NotSet);
      course := course.(reanchorSince := NotSet, undoSince := NotSet, record := course.record + [Unsettled(now)]);
      if !course.state.Frozen? {
        EnterState(Holding);
      }
    }

    method DecideNoisy(now: real)
      modifies `course
      ensures course == WhileNoisy(old(course), now)
    {
      course := course.(exceededSince := NotSet, reanchorSince := NotSet, undoSince := NotSet);
      course := course.(record := course.record + [Noisy(now)]);
      if course.state.Frozen? {
        course := course.(belowSince := NotSet, inBandSince := NotSet);
        return;
      }
      if course.scatterSince < 0.0 {
        course := course.(scatterSince := now);
      }
      EnterState(Holding);
      if !course.unstable && now - course.scatterSince >= ScatterNotify {
        course := course.(unstable := true, events := course.events + [ObservationsUnstable]);
      }
    }

    method Follow(now: real, r: Reading, cal: Rigid)
      modifies `course
      ensures course == Followed(old(course), target, pendingObs.Some?, now, r, cal)
    {
      hide DeltaToEstimate;
      if pendingObs.Some? {
        return;
      }
      course := course.(reanchor := Some(DeltaToEstimate(r, cal)));
      course := course.(events := course.events + [Reanchored(now - target.lastResolve <= ResolveAttribution, false)]);
      course := course.(record := course.record + [Ended]);
      EnterState(Tracking);
    }

    /** How long a frozen deviation has been well inside, and in the band at all. */
    method MarkFrozen(now: real, d: Deviation)
      modifies `course
      ensures course == old(course).(belowSince := Since(old(course).belowSince, WellInside(d), now),
                                     inBandSince := Since(old(course).inBandSince, InBand(d), now))
    {
      hide WellInside, InBand;
      if !WellInside(d) {
        course := course.(belowSince := NotSet);
      } else if course.belowSince < 0.0 {
        course := course.(belowSince := now);
      }
      if !InBand(d) {
        course := course.(inBandSince := NotSet);
      } else if course.inBandSince < 0.0 {
        course := course.(inBandSince := now);
      }
    }

    method DecideFrozen(now: real, r: Reading, cal: Rigid)
      modifies `course
      ensures course == WhileFrozen(old(course), target, pendingObs.Some?, now, r, cal)
    {
      hide Measured, Tried, WellInside, InBand, Since;
      var d := Measured(r, cal);
      MarkFrozen(now, d);
      if (course.belowSince >= 0.0 && now - course.belowSince >= ResumeConfirm) ||
         (course.inBandSince >= 0.0 && now - course.inBandSince >= ResumeInBand) {
        EnterState(Tracking);
        course := course.(episodeSince := NotSet, reanchorSince := NotSet, undoSince := NotSet);
        course := course.(events := course.events + [Resumed], record := course.record + [Ended]);
        return;
      }
      if !InBand(d) {
        TryReanchor(now, r, cal);
      } else {
        course := course.(reanchorSince := NotSet, undoSince := NotSet);
      }
    }

    method DecideExceeded(now: real)
      modifies `course
      ensures course == Suspected(old(course), target, now)
    {
      course := course.(episodeSince := NotSet, reanchorSince := NotSet, undoSince := NotSet);
      if course.exceededSince < 0.0 {
        course := course.(exceededSince := now);
      } else if now - course.exceededSince >= FreezeConfirm {
        EnterState(Frozen);
        course := course.(episodeSince := now, record := course.record + [Froze(now)]);
        course := course.(events := course.events + [FrozenLargeDeviation(now - target.lastResolve <= ResolveAttribution)]);
      }
    }

    method DecideTilted(now: real, r: Reading, cal: Rigid)
      modifies `course
      ensures course == HeldOnTilt(old(course), target, pendingObs.Some?, now, r, cal)
    {
      hide Tried;
      course := course.(exceededSince := NotSet);
      if course.episodeSince < 0.0 {
        course := course.(episodeSince := now);
      }
      EnterState(Holding);
      TryReanchor(now, r, cal);
    }

    method DecideInside(r: Reading, cal: Rigid)
      modifies `course
      ensures course == Corrected(old(course), r, cal)
    {
      hide Measured, PartWay;
      var d := Measured(r, cal);
      course := course.(episodeSince := NotSet, reanchorSince := NotSet, undoSince := NotSet);
      EnterState(Tracking);
      if d.yaw < DeadbandYaw && d.pos < DeadbandPos {
        return;
      }
      var part := 1.0;
      if d.yaw > MaxStepYaw {
        part := Smaller(part, MaxStepYaw / d.yaw);
      }
      if d.pos > MaxStepPos {
        part := Smaller(part, MaxStepPos / d.pos);
      }
      course := course.(correction := Some(PartWay(r, cal, part)), eligible := true);
    }

    method DecideQuiet(now: real, r: Reading, cal: Rigid)
      modifies `course
      ensures course == WhileQuiet(old(course), target, pendingObs.Some?, now, r, cal)
    {
      hide Measured, Followed, WhileFrozen, Suspected, HeldOnTilt, Corrected;
      var note := Read(now, r, cal, course.state.Frozen?, course.follow, course.replaced, target);
      course := course.(scatterSince := NotSet, unstable := false, record := course.record + [note]);
      if course.state.Holding? {
        EnterState(Tracking);
      }
      var d := Measured(r, cal);
      if course.follow && (Exceeds(d) || Tilted(d)) {
        Follow(now, r, cal);
      } else if course.state.Frozen? {
        DecideFrozen(now, r, cal);
      } else if Exceeds(d) {
        DecideExceeded(now);
      } else if Tilted(d) {
        DecideTilted(now, r, cal);
      } else {
        DecideInside(r, cal);
      }
    }

    method Decide(now: real, estimated: Option<Reading>, cal: Rigid)
      modifies `course
      ensures course == Decided(old(course), target, pendingObs.Some?, now, estimated, cal)
    {
      hide WhileQuiet, WhileNoisy, WhileUnsettled;
      Withdraw();
      match estimated
      case None => return;
      case Some(r) =>
        if target.settling && !course.follow {
          DecideSettling(now);
        } else if r.noisy {
          DecideNoisy(now);
        } else {
          DecideQuiet(now, r, cal);
        }
    }

    // --- the streams ---

    method ClearStreams()
      modifies `refWindow, `targetWindow, `refHead, `targetHead, `targetProcessed, `observations, `lastObsTime,
               `lastKeptObsTime, `pendingObs
      ensures Windows() == NoStreams
    {
      refWindow, targetWindow, refHead, targetHead, targetProcessed := [], [], 0, 0, 0;
      observations, lastObsTime, lastKeptObsTime := [], 0.0, 0.0;
      pendingObs := None;
    }

    method RestartDecisions(gap: bool)
      modifies `course
      ensures course == Restart(old(course), gap)
    {
      var kept := if gap && (course.state.Frozen? || course.state.Coasting?) then course.state else Inactive;
      ClearConfirmMarks();
      course := course.(scatterSince := NotSet, unstable := false, reanchor := None);
      if !gap {
        course := course.(replaced := None, blamed := None);
      }
      course := course.(events := []);
      EnterState(kept);
      if !gap {
        course := course.(record := course.record + [Forgot]);
      } else if !kept.Frozen? {
        course := course.(record := course.record + [Ended]);
      }
    }

    method Reset(gap: bool)
      modifies this
      ensures View() == ResetBy(old(View()), gap)
    {
      hide Restart;
      ClearStreams();
      RestartDecisions(gap);
    }

    method PushReference(s: PoseSample)
      modifies this
      ensures View() == PushedReference(old(View()), s)
    {
      hide Restart;
      if refWindow != [] {
        var last := refWindow[|refWindow| - 1].time;
        if s.time <= last {
          return;
        }
        if s.time - last >= MaxStreamGap {
          Reset(true);
        }
      }
      refWindow := refWindow + [s];
    }

    method PushTarget(s: PoseSample)
      modifies this
      ensures View() == PushedTarget(old(View()), s)
    {
      hide Restart;
      if targetWindow != [] {
        var last := targetWindow[|targetWindow| - 1].time;
        if s.time <= last {
          return;
        }
        if s.time - last >= MaxStreamGap {
          Reset(true);
        }
      }
      targetWindow := targetWindow + [s];
    }

    method NoteTargetResolved(time: real, newSolution: bool)
      modifies this
      ensures Cursors(old(Windows())) && Spaced(old(Windows())) ==>
                View() == Called(old(View()), gates, Call.NoteTargetResolved(time, newSolution))
    {
      hide Restart, Cursors, Spaced;
      Reset(true);
      target := target.(lastResolve := time);
      if newSolution {
        target := target.(solutions := target.solutions + 1);
      }
    }

    /** Lone steps are held back; `jumped` when a later one that agrees has confirmed the last. */
    method TakeObservation(obs: Observation, offset: real) returns (jumped: bool)
      modifies `observations, `lastObsTime, `lastKeptObsTime, `pendingObs, `course
      ensures Windows() == Took(old(Windows()), gates, obs, offset)
      ensures var fate := FateOf(old(Windows()), gates, obs, offset);
              jumped == fate.Confirmed? && course == if fate.Held? then Uncorrected(old(course)) else old(course)
    {
      hide Uncorrected;
      jumped := false;
      if pendingObs.Some? {
        if obs.time - pendingObs.value.time < JumpConfirmSpacing {
          return;
        }
        var same := gates.agree(obs.transform, pendingObs.value.transform);
        pendingObs := None;
        if same {
          return true;
        }
      }
      if observations != [] {
        var prev := observations[|observations| - 1];
        if obs.time - prev.time < JumpGuardWindow && !gates.agree(obs.transform, prev.transform)
           && (gates.poseStep(refWindow, prev.time - offset, obs.time - offset)
               || gates.poseStep(targetWindow, prev.time, obs.time)) {
          pendingObs := Some(obs);
          Withdraw();
          return;
        }
      }
      lastObsTime := obs.time;
      if obs.time - lastKeptObsTime < ObsMinSpacing {
        return;
      }
      lastKeptObsTime := obs.time;
      observations := observations + [obs];
    }

    method PairTarget(t: PoseSample, offset: real) returns (pairing: Pairing)
      requires refHead <= |refWindow|
      ensures pairing == Pair(Windows(), gates, t, offset)
    {
      if gates.fast(t) {
        return TooFast;
      }
      var refTime := t.time - offset;
      var live := |refWindow| - refHead;
      if live == 0 || refTime > refWindow[|refWindow| - 1].time || (live < 2 && refTime >= refWindow[refHead].time) {
        return Waiting;
      }
      if refTime < refWindow[refHead].time {
        return TooOld;
      }
      match gates.form(t, refWindow, refTime)
      case Rejected => pairing := Unpaired;
      case Observed(transform) => pairing := Paired(Observation(t.time, transform));
    }

    method DropWindows()
      modifies `refWindow, `refHead, `targetWindow, `targetHead, `targetProcessed, `observations, `course
      ensures Windows() == Emptied(old(Windows())) && course == Broke(old(course))
    {
      observations, refWindow, targetWindow, refHead, targetHead, targetProcessed := [], [], [], 0, 0, 0;
      ClearConfirmMarks();
    }

    method FormObservations(offset: real)
      requires Cursors(Windows()) && Spaced(Windows())
      modifies `refWindow, `refHead, `targetWindow, `targetHead, `targetProcessed, `observations, `lastObsTime,
               `lastKeptObsTime, `pendingObs, `course
      ensures var f := FormFrom(old(Windows()), gates, offset, false);
              Windows() == f.streams && course == if f.jumped then Broke(old(course)) else if f.held then Uncorrected(old(course))
                                                  else old(course)
    {
      hide Ordered, Took, FateOf, Pair;
      ghost var held := false;
      ghost var f := FormFrom(Windows(), gates, offset, false);
      while targetProcessed < |targetWindow|
        invariant Cursors(Windows()) && Spaced(Windows())
        invariant FormFrom(Windows(), gates, offset, held) == f
        invariant course == if held then Uncorrected(old(course)) else old(course)
        decreases |targetWindow| - targetProcessed
      {
        ghost var s := Windows();
        var pairing := PairTarget(targetWindow[targetProcessed], offset);
        if pairing.Waiting? {
          return;
        }
        if pairing.Paired? {
          TookKeeps(s, gates, pairing.obs, offset);
          var jumped := TakeObservation(pairing.obs, offset);
          if jumped {
            DropWindows();
            return;
          }
          held := held || FateOf(s, gates, pairing.obs, offset).Held?;
        }
        targetProcessed := targetProcessed + 1;
      }
    }

    method CompactWindows()
      requires refHead <= |refWindow| && targetHead <= targetProcessed <= |targetWindow|
      modifies `refWindow, `refHead, `targetWindow, `targetHead, `targetProcessed
      ensures Windows() == Compacted(old(Windows()))
    {
      if refHead > 0 {
        refWindow, refHead := refWindow[refHead..], 0;
      }
      if targetHead > 0 {
        targetWindow, targetProcessed, targetHead := targetWindow[targetHead..], targetProcessed - targetHead, 0;
      }
    }

    method RetireExpired(cutoff: real)
      requires refHead <= |refWindow| && targetHead <= targetProcessed <= |targetWindow|
      modifies `refHead, `targetHead, `targetProcessed
      ensures Windows() == Retired(old(Windows()), cutoff)
    {
      while refHead < |refWindow| && refWindow[refHead].time < cutoff
        invariant refHead <= |refWindow| && Windows() == old(Windows()).(refHead := refHead)
        invariant FirstFrom(refWindow, refHead, cutoff) == FirstFrom(old(refWindow), old(refHead), cutoff)
        decreases |refWindow| - refHead
      {
        refHead := refHead + 1;
      }
      ghost var first := refHead;
      while targetHead < |targetWindow| && targetWindow[targetHead].time < cutoff
        invariant targetHead <= |targetWindow| && refHead == first
        invariant Windows() == old(Windows()).(refHead := refHead, targetHead := targetHead)
        invariant FirstFrom(targetWindow, targetHead, cutoff) == FirstFrom(old(targetWindow), old(targetHead), cutoff)
        decreases |targetWindow| - targetHead
      {
        targetHead := targetHead + 1;
      }
      if targetProcessed < targetHead {
        targetProcessed := targetHead;
      }
    }

    method TrimWindows(now: real)
      requires refHead <= |refWindow| && targetHead <= targetProcessed <= |targetWindow|
      modifies `refWindow, `refHead, `targetWindow, `targetHead, `targetProcessed, `observations
      ensures Windows() == Trimmed(old(Windows()), now)
    {
      RetireExpired(now - KeepSeconds);
      if 4 * refHead > |refWindow| || 4 * targetHead > |targetWindow| {
        CompactWindows();
      }
      ghost var before := Windows();
      ghost var n := 0;
      assert observations == before.observations[0..];
      while observations != [] && observations[0].time < now - WindowSeconds
        invariant n <= |before.observations| && observations == before.observations[n..]
        invariant Windows() == before.(observations := observations)
        invariant FirstObserved(before.observations, n, now - WindowSeconds)
                  == FirstObserved(before.observations, 0, now - WindowSeconds)
        decreases |observations|
      {
        observations := observations[1..];
        n := n + 1;
      }
    }

    // --- one update ---

    method Maintain(now: real, offset: real)
      requires Cursors(Windows()) && Spaced(Windows())
      modifies this
      ensures View() == Maintained(old(View()), gates, now, offset)
    {
      hide FormFrom, Trimmed, Broke;
      FormFromKeeps(Windows(), gates, offset, false);
      FormObservations(offset);
      TrimWindows(now);
      if |observations| < MinObservations {
        Withdraw();
      }
    }

    method Coast()
      modifies `course
      ensures course == Coasted(old(course))
    {
      ClearConfirmMarks();
      if course.state.Tracking? || course.state.Holding? {
        EnterState(Coasting);
        course := course.(events := course.events + [TrackerLost], record := course.record + [Ended]);
      }
    }

    /** Nothing is evaluated; with the state an episode ends. */
    method Deactivate()
      modifies `course
      ensures course == Deactivated(old(course))
    {
      if course.state.Frozen? || course.state.Holding? {
        course := course.(record := course.record + [Ended]);
      }
      EnterState(Inactive);
    }

    method Recover()
      modifies `course
      ensures course == Recovered(old(course))
    {
      if course.state.Coasting? {
        EnterState(Inactive);
        course := course.(events := course.events + [TrackerRecovered]);
      }
    }

    method Evaluate(now: real, estimated: Option<Reading>, cal: Rigid)
      modifies this
      ensures View() == Evaluated(old(View()), now, estimated, cal)
    {
      hide Decided;
      Decide(now, estimated, cal);
      if pendingObs.Some? {
        Withdraw();
      }
    }

    method Update(now: real, offset: real, estimated: Option<Reading>, cal: Rigid)
      requires Cursors(Windows()) && Spaced(Windows())
      modifies this
      ensures View() == Updated(old(View()), gates, now, offset, estimated, cal)
      ensures old(Valid(View())) && Unit(cal.rotation) && now >= 0.0 ==>
                && Valid(View()) && Rests(old(View()), Call.Update(now, offset, estimated, cal), View())
                && UpdatesExactly(old(View()), Maintained(old(View()), gates, now, offset),
                                  Call.Update(now, offset, estimated, cal), View())
    {
      hide Maintained, Evaluated, Cursors, Spaced, Coasted, Recovered, Deactivated, Valid, Rests, Unit, UpdatesExactly;
      if old(Valid(View())) && Unit(cal.rotation) && now >= 0.0 {
        UpdatedKeeps(View(), gates, Call.Update(now, offset, estimated, cal));
        UpdatedExactly(View(), gates, Call.Update(now, offset, estimated, cal));
      }
      if !mounted {
        Deactivate();
        return;
      }
      Maintain(now, offset);
      if !(lastObsTime > 0.0 && now - lastObsTime <= CoastGap) {
        Coast();
        return;
      }
      Recover();
      if now - lastEvaluateTime < EvaluateInterval {
        return;
      }
      lastEvaluateTime := now;
      if |observations| < MinObservations {
        if course.state.Tracking? || course.state.Holding? {
          Deactivate();
        }
        return;
      }
      Evaluate(now, estimated, cal);
    }

    method SetFollowMode(follow: bool)
      modifies `course
      ensures course == Switched(old(course), follow)
    {
      if follow == course.follow {
        return;
      }
      course := course.(follow := follow, exceededSince := NotSet, belowSince := NotSet, inBandSince := NotSet);
      course := course.(episodeSince := NotSet, reanchorSince := NotSet, undoSince := NotSet);
      course := course.(replaced := None, blamed := None, record := course.record + [Forgot]);
      if course.state.Frozen? {
        EnterState(Holding);
      }
    }

    method PollCorrection() returns (out: Option<Rigid>)
      modifies `course
      ensures out == old(course).correction && course == old(course).(correction := None)
      ensures old(Valid(View())) ==>
                Valid(View()) && (out.Some? ==> course.eligible && course.state.Tracking? && pendingObs.None?)
    {
      hide Ongoing, Cursors, Spaced, Clocked;
      out := course.correction;
      course := course.(correction := None);
    }

    method PollReanchor() returns (out: Option<Rigid>)
      modifies `course
      ensures out == old(course).reanchor && course == old(course).(reanchor := None)
      ensures old(Valid(View())) ==> Valid(View())
    {
      hide Ongoing, Cursors, Spaced, Clocked;
      out := course.reanchor;
      course := course.(reanchor := None);
    }
  }

  // ---------------------------------------------------------------------------
  // The gate
  // ---------------------------------------------------------------------------

  /** Some reading of the trigger since the correction came in was released. */
  predicate ReleasedSince(readings: seq<bool>) {
    exists i :: 0 <= i < |readings| && !readings[i]
  }

  class CorrectionGate {
    var pending: Option<Rigid>
    var releasedSinceOffer: bool
    // How the trigger read each time it was asked since the waiting correction came in.
    ghost var readings: seq<bool>

    ghost predicate Valid()
      reads this
    {
      pending.Some? ==> (releasedSinceOffer <==> ReleasedSince(readings))
    }

    constructor ()
      ensures Valid() && pending.None?
    {
      pending, releasedSinceOffer, readings := None, false, [];
    }

    method Offer(correction: Rigid, triggerPressed: bool)
      requires Valid()
      modifies this
      ensures Valid() && pending == Some(correction)
      ensures readings == (if old(pending).None? then [] else old(readings)) + [triggerPressed]
    {
      if pending.None? {
        releasedSinceOffer := !triggerPressed;
        readings := [];
      } else if !triggerPressed {
        releasedSinceOffer := true;
      }
      ghost var was := readings;
      readings := readings + [triggerPressed];
      ReadingAdds(was, triggerPressed);
      pending := Some(correction);
    }

    /** With confirmation asked for, a trigger held since before the correction came in is none. */
    method Take(confirmationRequired: bool, triggerPressed: bool) returns (out: Option<Rigid>)
      requires Valid()
      modifies this
      ensures Valid()
      ensures out.Some? <==> old(pending).Some? && (confirmationRequired ==> triggerPressed && ReleasedSince(old(readings)))
      ensures out.Some? ==> out == old(pending) && pending.None?
      ensures out.None? ==> pending == old(pending)
    {
      if pending.None? {
        return None;
      }
      if confirmationRequired {
        if !triggerPressed {
          releasedSinceOffer := true;
          ghost var was := readings;
          readings := readings + [false];
          ReadingAdds(was, false);
          return None;
        }
        if !releasedSinceOffer {
          return None;
        }
      }
      out := pending;
      Clear();
    }

    method Clear()
      modifies this
      ensures Valid() && pending.None?
    {
      pending, releasedSinceOffer, readings := None, false, [];
    }
  }

  lemma ReadingAdds(readings: seq<bool>, pressed: bool)
    ensures ReleasedSince(readings + [pressed]) <==> ReleasedSince(readings) || !pressed
  {
    if ReleasedSince(readings) {
      var i :| 0 <= i < |readings| && !readings[i];
      assert !(readings + [pressed])[i];
    }
    if !pressed {
      assert !(readings + [pressed])[|readings|];
    }
  }

  /** What a tick hands to the calibration: a re-anchor at once, a correction only past the gate. */
  method HandleContinuousOutput(engine: ContinuousAlignment, gate: CorrectionGate, confirmationRequired: bool,
                                triggerPressed: bool)
    returns (reanchor: Option<Rigid>, correction: Option<Rigid>)
    requires Valid(engine.View()) && gate.Valid()
    modifies engine`course, gate
    ensures Valid(engine.View()) && gate.Valid() && engine.course.correction.None? && engine.course.reanchor.None?
    ensures reanchor == old(engine.course.reanchor)
    // Nothing waits or is applied while the engine does not allow it.
    ensures correction.Some? || gate.pending.Some? ==>
              engine.course.eligible && engine.course.state.Tracking? && engine.pendingObs.None?
    ensures correction.Some? && confirmationRequired ==> triggerPressed
    // One correction is applied or waits, the newest, and none from before a re-anchor.
    ensures correction.None? || gate.pending.None?
    ensures var newest := if old(engine.course.correction).Some? then old(engine.course.correction)
                          else if reanchor.Some? then None else old(gate.pending);
            if engine.course.eligible then correction == newest || (correction.None? && gate.pending == newest)
            else correction.None? && gate.pending.None?
    // And it is applied as soon as it may be: at once, or when a fresh press confirms one that was waiting.
    ensures var newest := if old(engine.course.correction).Some? then old(engine.course.correction)
                          else if reanchor.Some? then None else old(gate.pending);
            correction.Some? <==>
              && engine.course.eligible && newest.Some?
              && (confirmationRequired ==>
                   triggerPressed && reanchor.None? && old(gate.pending).Some? && ReleasedSince(old(gate.readings)))
    ensures !confirmationRequired ==> gate.pending.None?
  {
    hide Sound, Cursors, Spaced;
    WaitingIsAllowed(engine.View());
    reanchor := engine.PollReanchor();
    if reanchor.Some? {
      gate.Clear();
    }
    var received := engine.PollCorrection();
    if !engine.course.eligible {
      gate.Clear();
      received := None;
    }
    if received.Some? {
      ReadingAdds(if gate.pending.None? then [] else gate.readings, confirmationRequired && triggerPressed);
      gate.Offer(received.value, confirmationRequired && triggerPressed);
    }
    correction := gate.Take(confirmationRequired, triggerPressed);
  }
}
