/**
 What continuous alignment makes of one reading after another: a correction that waits, a freeze, a
 resume, a re-anchor, the return from one, and the evidence each of them rests on.

 The robust estimate enters by its result and the angles and lengths by functions of it. Times are
 the samples' clock and not negative; a mark of -1 is not set. Angles are in degrees.
 */
module ContinuousDecisions {
  import opened Common
  import opened Rotations

  datatype State = Inactive | Tracking | Coasting | Frozen | Holding

  datatype Deviation = Deviation(yaw: real, tilt: real, pos: real)

  const DeadbandYaw: real := 0.1
  const DeadbandPos: real := 0.003
  const MaxStepYaw: real := 0.5
  const MaxStepPos: real := 0.01
  const FreezeYaw: real := 2.0
  const FreezePos: real := 0.05
  const HoldTilt: real := 1.5
  const FreezeConfirm: real := 6.0
  const ResumeFactor: real := 0.5
  const ResumeConfirm: real := 5.0
  const ResumeInBand: real := 30.0
  const ResolveAttribution: real := 120.0
  const ReanchorConfirm: real := 30.0
  const ReanchorSteady: real := 1.0
  const ReanchorSteadyPos: real := 0.05
  const ScatterNotify: real := 10.0
  const NotSet: real := -1.0

  predicate Exceeds(d: Deviation) { d.yaw >= FreezeYaw || d.pos >= FreezePos }
  predicate Tilted(d: Deviation) { d.tilt >= HoldTilt }
  predicate InBand(d: Deviation) { !Exceeds(d) && !Tilted(d) }
  predicate WellInside(d: Deviation) {
    d.yaw < FreezeYaw * ResumeFactor && d.pos < FreezePos * ResumeFactor && !Tilted(d)
  }
  predicate Steady(d: Deviation) { d.yaw < ReanchorSteady && d.tilt < ReanchorSteady && d.pos < ReanchorSteadyPos }

  // ---------------------------------------------------------------------------
  // One reading
  // ---------------------------------------------------------------------------

  /** A rotation's signed yaw and the tilt it leaves, the turn by a yaw, and a length. */
  datatype Measures = Measures(yaw: Quat -> real, tilt: Quat -> real, turn: real -> Quat, length: Vec -> real)

  /** The windowed estimate, whether its scatter disqualifies it, and where the head is. */
  datatype Reading = Reading(estimate: Rigid, noisy: bool, head: Vec, sense: Measures)

  /** From a calibration to the estimate, as a left delta. */
  function Apart(r: Reading, cal: Rigid): Rigid { MoveOf(cal, r.estimate) }

  /** How far that delta carries the head. */
  function HeadStep(r: Reading, cal: Rigid): Vec { Minus(Act(Apart(r, cal), r.head), r.head) }

  function Magnitude(x: real): real { if x < 0.0 then -x else x }

  function Measured(r: Reading, cal: Rigid): Deviation {
    var turned := Apart(r, cal).rotation;
    Deviation(Magnitude(r.sense.yaw(turned)), r.sense.tilt(turned), r.sense.length(HeadStep(r, cal)))
  }

  predicate Stuck(r: Reading, cal: Rigid) { !InBand(Measured(r, cal)) }

  /** Part of the yaw, turned about the head, and the same part of the head's step. */
  function PartWay(r: Reading, cal: Rigid, part: real): Rigid {
    var turn := r.sense.turn(part * r.sense.yaw(Apart(r, cal).rotation));
    Rigid(turn, Minus(Add(r.head, Scale(HeadStep(r, cal), part)), RotateVector(turn, r.head)))
  }

  function Smaller(a: real, b: real): real { if b < a then b else a }

  /** The part of a deviation that one correction may take. */
  function Part(d: Deviation): real {
    var byYaw := if d.yaw > MaxStepYaw then Smaller(1.0, MaxStepYaw / d.yaw) else 1.0;
    if d.pos > MaxStepPos then Smaller(byYaw, MaxStepPos / d.pos) else byYaw
  }

  function DeltaToEstimate(r: Reading, cal: Rigid): Rigid {
    if Tilted(Measured(r, cal)) then Apart(r, cal) else PartWay(r, cal, 1.0)
  }

  /** The largest part, up to all of it, of a value that stays within a limit. */
  function Cap(limit: real, value: real): real
    requires limit > 0.0
  {
    if value > limit then limit / value else 1.0
  }

  lemma CapIsLargest(limit: real, value: real, part: real)
    requires limit > 0.0 && value >= 0.0
    ensures 0.0 < Cap(limit, value) <= 1.0
    ensures 0.0 <= part <= Cap(limit, value) ==> part * value <= limit
    ensures part <= 1.0 && part * value <= limit ==> part <= Cap(limit, value)
  {
    var cap := Cap(limit, value);
    if value > limit {
      assert cap * value == limit;
      assert cap > 0.0 by { SignOfRatio(cap, value, limit); }
      assert cap <= 1.0 by { LessByProduct(cap, 1.0, value); }
      if part * value <= limit {
        LessByProduct(part, cap, value);
      }
    }
    if 0.0 <= part <= cap {
      ProductGrows(part, cap, value);
    }
  }

  lemma SignOfRatio(ratio: real, value: real, limit: real)
    requires ratio * value == limit && limit > 0.0 && value > 0.0
    ensures ratio > 0.0
  {
  }

  lemma LessByProduct(a: real, b: real, value: real)
    requires value > 0.0 && a * value <= b * value
    ensures a <= b
  {
  }

  lemma ProductGrows(a: real, b: real, value: real)
    requires value >= 0.0 && a <= b
    ensures a * value <= b * value
  {
  }

  /** The part taken is the largest, up to all of it, that keeps both steps within their limits. */
  lemma PartIsTheLargestAllowed(d: Deviation, other: real)
    requires d.yaw >= 0.0 && d.pos >= 0.0
    ensures 0.0 < Part(d) <= 1.0 && Part(d) * d.yaw <= MaxStepYaw && Part(d) * d.pos <= MaxStepPos
    ensures other <= 1.0 && other * d.yaw <= MaxStepYaw && other * d.pos <= MaxStepPos ==> other <= Part(d)
  {
    assert Part(d) == Smaller(Cap(MaxStepYaw, d.yaw), Cap(MaxStepPos, d.pos)) by {
      CapIsLargest(MaxStepYaw, d.yaw, 1.0);
      CapIsLargest(MaxStepPos, d.pos, 1.0);
    }
    hide Part, Cap;
    CapIsLargest(MaxStepYaw, d.yaw, Part(d));
    CapIsLargest(MaxStepPos, d.pos, Part(d));
    CapIsLargest(MaxStepYaw, d.yaw, other);
    CapIsLargest(MaxStepPos, d.pos, other);
  }

  /** A correction pivots at the head: the head moves by exactly its part of the step there. */
  lemma PartWayMovesTheHead(r: Reading, cal: Rigid, part: real)
    ensures Act(PartWay(r, cal, part), r.head) == Add(r.head, Scale(HeadStep(r, cal), part))
  {
    hide HeadStep, RotateVector, Apart;
  }

  /** A re-anchor puts the head exactly where the estimate has it, whether or not its tilt goes in. */
  lemma DeltaPutsTheHead(r: Reading, cal: Rigid)
    requires Unit(r.estimate.rotation) && Unit(cal.rotation)
    ensures Act(DeltaToEstimate(r, cal), r.head) == Act(Apart(r, cal), r.head)
    ensures Tilted(Measured(r, cal)) ==> Compose(DeltaToEstimate(r, cal), cal) == r.estimate
  {
    MoveCarries(cal, r.estimate);
    PartWayMovesTheHead(r, cal, 1.0);
    hide Act, MoveOf, Measured, PartWay, Compose, Unit;
  }

  // ---------------------------------------------------------------------------
  // The record, and the evidence in it
  // ---------------------------------------------------------------------------

  /** What the caller tells of the target's own tracking. */
  datatype Target = Target(settling: bool, restartsVisible: bool, lastResolve: real, solutions: nat)

  /**
   What an evaluation concluded from, and what ends evidence: the streams broke, an episode ended,
   everything was forgotten, or a freeze began. A reading comes with what it was read in.
   */
  datatype Note =
    | Broken | Ended | Forgot | Froze(since: real)
    | Unsettled(time: real) | Noisy(time: real)
    | Read(time: real, reading: Reading, cal: Rigid, frozen: bool, follow: bool, replaced: Option<Rigid>, target: Target)
  {
    predicate Timed() { Unsettled? || Noisy? || Read? }

    /** Neither correction nor follow mode takes this deviation on: it is evidence for going over to the estimate, or back. */
    predicate Tries() {
      && Read? && !follow && !InBand(Measured(reading, cal)) && (frozen || !Exceeds(Measured(reading, cal)))
    }

    /** It fits what the last re-anchor replaced. */
    predicate Returns() {
      Read? && replaced.Some? && WellInside(Measured(reading, replaced.value))
    }
  }

  datatype Evidence = BeyondBand | WellInsideBand | WithinBand | StandsStill(at: Rigid) | FitsAgain(cal: Rigid)

  predicate Shows(note: Note, evidence: Evidence) {
    && note.Read?
    && match evidence
       case BeyondBand => Exceeds(Measured(note.reading, note.cal))
       case WellInsideBand => WellInside(Measured(note.reading, note.cal))
       case WithinBand => InBand(Measured(note.reading, note.cal))
       case StandsStill(at) =>
         note.Tries() && !note.Returns() && (note.reading.estimate == at || Steady(Measured(note.reading, at)))
       case FitsAgain(cal) => note.Tries() && WellInside(Measured(note.reading, cal))
  }

  /** Everything recorded from a reading at `since` on shows it. */
  ghost predicate Ongoing(record: seq<Note>, since: real, evidence: Evidence) {
    exists i :: 0 <= i < |record| && record[i].Read? && record[i].time == since
                && (evidence.StandsStill? ==> record[i].reading.estimate == evidence.at)
                && forall j :: i <= j < |record| ==> Shows(record[j], evidence)
  }

  lemma Begins(record: seq<Note>, note: Note, evidence: Evidence)
    requires Shows(note, evidence) && (evidence.StandsStill? ==> note.reading.estimate == evidence.at)
    ensures Ongoing(record + [note], note.time, evidence)
  {
    assert note.Read?;
    hide Shows;
    assert (record + [note])[|record|] == note;
  }

  lemma GoesOn(record: seq<Note>, since: real, note: Note, evidence: Evidence)
    requires Ongoing(record, since, evidence) && Shows(note, evidence)
    ensures Ongoing(record + [note], since, evidence)
  {
    hide Shows;
    var i :| 0 <= i < |record| && record[i].Read? && record[i].time == since
             && (evidence.StandsStill? ==> record[i].reading.estimate == evidence.at)
             && forall j :: i <= j < |record| ==> Shows(record[j], evidence);
    assert (record + [note])[i] == record[i];
  }

  /** No two evaluations are at the same time or out of order, and none is before the clock began. */
  predicate Rises(record: seq<Note>) {
    && (forall i, j :: 0 <= i < j < |record| && record[i].Timed() && record[j].Timed() ==> record[i].time < record[j].time)
    && forall i :: 0 <= i < |record| && record[i].Timed() ==> record[i].time >= 0.0
  }

  predicate NoLater(record: seq<Note>, now: real) {
    forall i :: 0 <= i < |record| && record[i].Timed() ==> record[i].time <= now
  }

  function LastNote(record: seq<Note>): Note {
    if record == [] then Broken else record[|record| - 1]
  }

  /** The record up to its last evaluation, without the mark of what that one ended or began. */
  function Told(record: seq<Note>): seq<Note> {
    if LastNote(record).Ended? || LastNote(record).Froze? then record[..|record| - 1] else record
  }

  /** From a reading at `since` to one at `now`, in the order of their times, everything recorded shows it. */
  ghost predicate Throughout(record: seq<Note>, since: real, now: real, evidence: Evidence) {
    && Ongoing(record, since, evidence) && Rises(record)
    && LastNote(record).Timed() && LastNote(record).time == now
  }

  /** One evaluation was noted, and at most what it ended or began. */
  ghost predicate OneMore(was: seq<Note>, record: seq<Note>, now: real) {
    && |Told(record)| == |was| + 1 && was <= Told(record) && Told(record) <= record
    && LastNote(Told(record)).Timed() && LastNote(Told(record)).time == now
  }

  lemma OneMoreRises(was: seq<Note>, record: seq<Note>, last: real, now: real)
    requires Rises(was) && NoLater(was, last) && last < now && now >= 0.0 && OneMore(was, record, now)
    ensures Rises(record) && NoLater(record, now) && Rises(Told(record))
  {
    assert forall i :: 0 <= i < |was| ==> Told(record)[i] == was[i];
    assert forall i :: 0 <= i < |Told(record)| ==> record[i] == Told(record)[i];
  }

  // ---------------------------------------------------------------------------
  // Since when the record shows what it shows
  // ---------------------------------------------------------------------------

  function Since(mark: real, holds: bool, now: real): real {
    if !holds then NotSet else if mark < 0.0 then now else mark
  }

  predicate Lasted(mark: real, now: real, seconds: real) {
    mark >= 0.0 && now - mark >= seconds
  }

  function TimeOf(note: Note): real {
    if note.Timed() then note.time else NotSet
  }

  /** The time of the first of the last notes that all show it. */
  function RunSince(record: seq<Note>, evidence: Evidence): real {
    if record == [] then NotSet
    else
      var n := |record| - 1;
      Since(RunSince(record[..n], evidence), Shows(record[n], evidence), TimeOf(record[n]))
  }

  /** Since when there has been a deviation that is not corrected: a freeze, or a tilt that is held. */
  function EpisodeAfter(episode: real, note: Note): real {
    match note
    case Froze(since) => since
    case Ended => NotSet
    case Forgot => NotSet
    case Read(time, reading, cal, frozen, follow, _, _) =>
      var d := Measured(reading, cal);
      if frozen || (follow && !InBand(d)) then episode
      else if Tilted(d) && !Exceeds(d) then Since(episode, true, time)
      else NotSet
    case _ => episode
  }

  function EpisodeOf(record: seq<Note>): real {
    if record == [] then NotSet else EpisodeAfter(EpisodeOf(record[..|record| - 1]), record[|record| - 1])
  }

  /** The reading an episode is put down to, and the target's solution it came from. */
  datatype Blamed = Blamed(estimate: Rigid, solution: nat, episode: real)

  /** The target restarted during the episode or shortly before it. */
  predicate RestartedIn(episode: real, t: Target) {
    episode >= 0.0 && t.lastResolve >= episode - ResolveAttribution
  }

  /** Another solution, begun later, sees the same deviation. */
  predicate ReadAcross(blamed: Option<Blamed>, episode: real, t: Target, r: Reading) {
    && blamed.Some? && blamed.value.episode == episode && blamed.value.solution != t.solutions
    && Steady(Measured(r, blamed.value.estimate))
  }

  /** The deviation is put down to the target. */
  predicate Blames(note: Note, episode: real, blamed: Option<Blamed>)
    requires note.Read?
  {
    RestartedIn(episode, note.target) && !ReadAcross(blamed, episode, note.target, note.reading)
  }

  function BlameAfter(blamed: Option<Blamed>, episode: real, note: Note): Option<Blamed> {
    if note.Forgot? then None
    else if note.Tries() && !note.Returns() && Blames(note, episode, blamed) then
      Some(Blamed(note.reading.estimate, note.target.solutions, episode))
    else blamed
  }

  function BlameOf(record: seq<Note>): Option<Blamed> {
    if record == [] then None
    else BlameAfter(BlameOf(record[..|record| - 1]), EpisodeOf(record), record[|record| - 1])
  }

  /** Since when, and at what, an estimate that could be followed has stood still. */
  datatype Stand = Stand(since: real, at: Rigid)

  const Moving := Stand(NotSet, Still)

  /** A restart that could be seen would be, and the deviation is not put down to one. */
  predicate Followable(note: Note, episode: real, blamed: Option<Blamed>) {
    note.Tries() && !note.Returns() && note.target.restartsVisible && !Blames(note, episode, blamed)
  }

  function StillAfter(still: Stand, episode: real, blamed: Option<Blamed>, note: Note): Stand {
    if !Followable(note, episode, blamed) then Moving
    else if still.since < 0.0 || !Steady(Measured(note.reading, still.at)) then Stand(note.time, note.reading.estimate)
    else still
  }

  function StillSince(record: seq<Note>): Stand {
    if record == [] then Moving
    else
      var n := |record| - 1;
      StillAfter(StillSince(record[..n]), EpisodeOf(record), BlameOf(record[..n]), record[n])
  }

  /** How long there has been a reading that fits what was replaced. */
  function ReturnSince(record: seq<Note>, replaced: Option<Rigid>): real {
    if replaced.Some? then RunSince(record, FitsAgain(replaced.value)) else NotSet
  }

  /** What one more note makes of it all. */
  lemma NoteAdds(record: seq<Note>, note: Note, evidence: Evidence)
    ensures RunSince(record + [note], evidence) == Since(RunSince(record, evidence), Shows(note, evidence), TimeOf(note))
    ensures EpisodeOf(record + [note]) == EpisodeAfter(EpisodeOf(record), note)
    ensures BlameOf(record + [note]) == BlameAfter(BlameOf(record), EpisodeOf(record + [note]), note)
    ensures StillSince(record + [note]) ==
            StillAfter(StillSince(record), EpisodeOf(record + [note]), BlameOf(record), note)
  {
    assert (record + [note])[..|record|] == record;
    hide Shows, EpisodeAfter, BlameAfter, StillAfter;
  }

  /** A run is there for as long as it says. */
  lemma {:induction false} RunIsOngoing(record: seq<Note>, evidence: Evidence)
    requires RunSince(record, evidence) >= 0.0 && !evidence.StandsStill?
    ensures Ongoing(record, RunSince(record, evidence), evidence)
    decreases |record|
  {
    var n := |record| - 1;
    assert record == record[..n] + [record[n]];
    assert record[n].Read? by { assert Shows(record[n], evidence); }
    hide Shows;
    if RunSince(record[..n], evidence) < 0.0 {
      Begins(record[..n], record[n], evidence);
    } else {
      RunIsOngoing(record[..n], evidence);
      GoesOn(record[..n], RunSince(record[..n], evidence), record[n], evidence);
    }
  }

  lemma RisesBefore(record: seq<Note>, n: nat)
    requires Rises(record) && n < |record| && record[n].Read?
    ensures Rises(record[..n]) && record[n].time >= 0.0
    ensures forall k :: 0 <= k < n && record[..n][k].Read? ==> record[..n][k].time < record[n].time
  {
  }

  /** A run that goes on began with a reading before. */
  lemma RunBeganBefore(record: seq<Note>, evidence: Evidence, time: real)
    requires RunSince(record, evidence) >= 0.0 && !evidence.StandsStill?
    requires forall k :: 0 <= k < |record| && record[k].Read? ==> record[k].time < time
    ensures RunSince(record, evidence) < time
  {
    RunIsOngoing(record, evidence);
    hide RunSince, Shows;
  }

  lemma ShownIsRead(n: Note, evidence: Evidence)
    requires Shows(n, evidence)
    ensures n.Read?
  {
  }

  lemma ShownExtends(record: seq<Note>, evidence: Evidence)
    requires record != [] && Shows(record[|record| - 1], evidence) && !evidence.StandsStill?
    ensures var n := |record| - 1;
            record[n].Read? && RunSince(record, evidence) == Since(RunSince(record[..n], evidence), true, record[n].time)
  {
  }

  /** And no run began before it. */
  lemma {:induction false} RunIsLongest(record: seq<Note>, i: nat, evidence: Evidence)
    requires i < |record| && Rises(record) && !evidence.StandsStill?
    requires forall j :: i <= j < |record| ==> Shows(record[j], evidence)
    ensures record[i].Read? && 0.0 <= RunSince(record, evidence) <= record[i].time
    decreases |record|
  {
    hide Shows, Rises, RunSince;
    var n := |record| - 1;
    ShownExtends(record, evidence);
    assert Shows(record[i], evidence);
    ShownIsRead(record[i], evidence);
    RisesBefore(record, n);
    if i < n {
      RunIsLongest(record[..n], i, evidence);
    } else if RunSince(record[..n], evidence) >= 0.0 {
      RunBeganBefore(record[..n], evidence, record[n].time);
    }
  }

  /** What a record shows is shown long enough exactly if some run of readings says so. */
  lemma LastedExactly(record: seq<Note>, now: real, seconds: real, evidence: Evidence)
    requires Rises(record) && !evidence.StandsStill?
    ensures Lasted(RunSince(record, evidence), now, seconds) <==>
              exists since :: Lasted(since, now, seconds) && Ongoing(record, since, evidence)
  {
    hide Ongoing, Rises;
    if RunSince(record, evidence) >= 0.0 {
      RunIsOngoing(record, evidence);
    }
    forall since | Ongoing(record, since, evidence) ensures 0.0 <= RunSince(record, evidence) <= since {
      LongestRun(record, since, evidence);
    }
  }

  lemma LongestRun(record: seq<Note>, since: real, evidence: Evidence)
    requires Ongoing(record, since, evidence) && Rises(record) && !evidence.StandsStill?
    ensures 0.0 <= RunSince(record, evidence) <= since
  {
    var i :| 0 <= i < |record| && record[i].Read? && record[i].time == since
             && forall j :: i <= j < |record| ==> Shows(record[j], evidence);
    hide Shows;
    RunIsLongest(record, i, evidence);
  }

  /** An estimate that stands still has done so in every reading since. */
  lemma {:induction false} StandIsOngoing(record: seq<Note>)
    requires StillSince(record).since >= 0.0
    ensures Ongoing(record, StillSince(record).since, StandsStill(StillSince(record).at))
    decreases |record|
  {
    var n := |record| - 1;
    var still := StillSince(record);
    assert record == record[..n] + [record[n]];
    assert Shows(record[n], StandsStill(still.at)) && record[n].Read?;
    hide Shows, EpisodeOf, BlameOf;
    var before := StillSince(record[..n]);
    if before.since >= 0.0 && still == before {
      StandIsOngoing(record[..n]);
      GoesOn(record[..n], still.since, record[n], StandsStill(still.at));
    } else {
      Begins(record[..n], record[n], StandsStill(still.at));
    }
  }

  // ---------------------------------------------------------------------------
  // The course of decisions
  // ---------------------------------------------------------------------------

  datatype Event =
    | FrozenLargeDeviation(afterResolve: bool) | Resumed | TrackerLost | TrackerRecovered | ObservationsUnstable
    | Reanchored(afterResolve: bool, acrossSolutions: bool) | ReanchorUndone

  /** A re-anchor decided, the calibration it replaced, and whether it was undone since. */
  datatype Anchor = Anchor(replaced: Rigid, undone: bool)

  datatype Course = Course(
    state: State, eligible: bool, correction: Option<Rigid>, reanchor: Option<Rigid>, events: seq<Event>,
    exceededSince: real, belowSince: real, inBandSince: real,
    episodeSince: real, reanchorSince: real, undoSince: real, reanchorRef: Rigid,
    replaced: Option<Rigid>, blamed: Option<Blamed>, scatterSince: real, unstable: bool, follow: bool,
    record: seq<Note>, anchors: seq<Anchor>)

  const Start := Course(Inactive, false, None, None, [], NotSet, NotSet, NotSet, NotSet, NotSet, NotSet, Still,
                        None, None, NotSet, false, false, [], [])

  /** Outside Tracking no correction waits, and the two ends of a freeze drop the confirms between them. */
  function Entered(c: Course, s: State): Course {
    var a := if s.Tracking? then c else c.(eligible := false, correction := None);
    var b := if s.Frozen? || s.Tracking? then a.(exceededSince := NotSet, belowSince := NotSet, inBandSince := NotSet)
             else a;
    var d := if s.Inactive? || s.Coasting? then b.(episodeSince := NotSet, reanchorSince := NotSet, undoSince := NotSet)
             else b;
    d.(state := s)
  }

  function Uncorrected(c: Course): Course {
    c.(eligible := false, correction := None)
  }

  /** The stream of observations broke: no mark set on it counts any more. */
  function Broke(c: Course): Course {
    c.(eligible := false, correction := None, exceededSince := NotSet, belowSince := NotSet, inBandSince := NotSet,
       reanchorSince := NotSet, undoSince := NotSet, record := c.record + [Broken])
  }

  /** The target says itself that its pose is not to be trusted yet. */
  function WhileUnsettled(c: Course, now: real): Course {
    var u := c.(exceededSince := NotSet, belowSince := NotSet, inBandSince := NotSet, reanchorSince := NotSet,
                undoSince := NotSet, record := c.record + [Unsettled(now)]);
    if u.state.Frozen? then u else Entered(u, Holding)
  }

  function WhileNoisy(c: Course, now: real): Course {
    var u := c.(exceededSince := NotSet, reanchorSince := NotSet, undoSince := NotSet, record := c.record + [Noisy(now)]);
    if u.state.Frozen? then u.(belowSince := NotSet, inBandSince := NotSet)
    else
      var h := Entered(u.(scatterSince := if u.scatterSince < 0.0 then now else u.scatterSince), Holding);
      if !h.unstable && now - h.scatterSince >= ScatterNotify then h.(unstable := true, events := h.events + [ObservationsUnstable])
      else h
  }

  /** In follow mode a deviation out of the band is taken over in one step, unless a jump is suspected. */
  function Followed(c: Course, t: Target, jump: bool, now: real, r: Reading, cal: Rigid): Course {
    if jump then c
    else Entered(c.(reanchor := Some(DeltaToEstimate(r, cal)),
                    events := c.events + [Reanchored(now - t.lastResolve <= ResolveAttribution, false)],
                    record := c.record + [Ended]), Tracking)
  }

  predicate ReadBySomeLaterSolution(c: Course, t: Target, r: Reading) {
    ReadAcross(c.blamed, c.episodeSince, t, r)
  }

  predicate Restarted(c: Course, t: Target) {
    RestartedIn(c.episodeSince, t)
  }

  function Undone(c: Course, jump: bool, now: real, cal: Rigid): Course
    requires c.replaced.Some?
  {
    var u := c.(reanchorSince := NotSet, undoSince := Since(c.undoSince, true, now));
    if now - u.undoSince < ResumeConfirm || jump then u
    else
      Entered(u.(reanchor := Some(MoveOf(cal, u.replaced.value)), events := u.events + [ReanchorUndone],
                 anchors := if u.anchors == [] then [] else u.anchors[|u.anchors| - 1 := Anchor(u.replaced.value, true)],
                 replaced := None, episodeSince := NotSet, undoSince := NotSet, record := u.record + [Ended]), Tracking)
  }

  /** Sends the delta to the estimate out, and remembers what it replaces. */
  function ReanchoredAt(c: Course, r: Reading, cal: Rigid, across: bool): Course {
    Entered(c.(reanchor := Some(DeltaToEstimate(r, cal)), replaced := Some(cal),
               anchors := c.anchors + [Anchor(cal, false)], events := c.events + [Reanchored(false, across)],
               episodeSince := NotSet, reanchorSince := NotSet, record := c.record + [Ended]), Tracking)
  }

  /** While stuck: go back to the replaced calibration, go over to the estimate, or keep collecting evidence. */
  function Tried(c: Course, t: Target, jump: bool, now: real, r: Reading, cal: Rigid): Course {
    if c.replaced.Some? && WellInside(Measured(r, c.replaced.value)) then Undone(c, jump, now, cal)
    else
      var u := if c.replaced.Some? then c.(undoSince := NotSet) else c;
      var across := Restarted(u, t) && ReadBySomeLaterSolution(u, t, r);
      var b := if Restarted(u, t) && !across then u.(blamed := Some(Blamed(r.estimate, t.solutions, u.episodeSince))) else u;
      if (Restarted(u, t) && !across) || !t.restartsVisible then b.(reanchorSince := NotSet)
      else if b.reanchorSince < 0.0 || !Steady(Measured(r, b.reanchorRef)) then
        b.(reanchorSince := now, reanchorRef := r.estimate)
      else if now - b.reanchorSince < ReanchorConfirm || jump then b
      else ReanchoredAt(b, r, cal, across)
  }

  function WhileFrozen(c: Course, t: Target, jump: bool, now: real, r: Reading, cal: Rigid): Course {
    var d := Measured(r, cal);
    var u := c.(belowSince := Since(c.belowSince, WellInside(d), now), inBandSince := Since(c.inBandSince, InBand(d), now));
    if Lasted(u.belowSince, now, ResumeConfirm) || Lasted(u.inBandSince, now, ResumeInBand) then
      Entered(u, Tracking).(episodeSince := NotSet, reanchorSince := NotSet, undoSince := NotSet, events := u.events + [Resumed],
                            record := u.record + [Ended])
    else if !InBand(d) then Tried(u, t, jump, now, r, cal)
    else u.(reanchorSince := NotSet, undoSince := NotSet)
  }

  /** Beyond the band while not frozen: nothing is corrected, and a long enough run of it freezes. */
  function Suspected(c: Course, t: Target, now: real): Course {
    var u := c.(episodeSince := NotSet, reanchorSince := NotSet, undoSince := NotSet);
    if u.exceededSince < 0.0 then u.(exceededSince := now)
    else if now - u.exceededSince < FreezeConfirm then u
    else Entered(u, Frozen).(episodeSince := now, record := u.record + [Froze(now)],
                             events := u.events + [FrozenLargeDeviation(now - t.lastResolve <= ResolveAttribution)])
  }

  function HeldOnTilt(c: Course, t: Target, jump: bool, now: real, r: Reading, cal: Rigid): Course {
    var u := c.(exceededSince := NotSet, episodeSince := Since(c.episodeSince, true, now));
    Tried(Entered(u, Holding), t, jump, now, r, cal)
  }

  function Corrected(c: Course, r: Reading, cal: Rigid): Course {
    var d := Measured(r, cal);
    var u := Entered(c.(episodeSince := NotSet, reanchorSince := NotSet, undoSince := NotSet), Tracking);
    if d.yaw < DeadbandYaw && d.pos < DeadbandPos then u
    else u.(correction := Some(PartWay(r, cal, Part(d))), eligible := true)
  }

  function WhileQuiet(c: Course, t: Target, jump: bool, now: real, r: Reading, cal: Rigid): Course {
    var note := Read(now, r, cal, c.state.Frozen?, c.follow, c.replaced, t);
    var read := c.(scatterSince := NotSet, unstable := false, record := c.record + [note]);
    var u := if read.state.Holding? then Entered(read, Tracking) else read;
    var d := Measured(r, cal);
    if u.follow && !InBand(d) then Followed(u, t, jump, now, r, cal)
    else if u.state.Frozen? then WhileFrozen(u, t, jump, now, r, cal)
    else if Exceeds(d) then Suspected(u, t, now)
    else if Tilted(d) then HeldOnTilt(u, t, jump, now, r, cal)
    else Corrected(u, r, cal)
  }

  /** One evaluation; `jump` while a jump candidate is unresolved. Without an estimate it only withdraws. */
  function Decided(c: Course, t: Target, jump: bool, now: real, estimated: Option<Reading>, cal: Rigid): Course {
    var u := Uncorrected(c);
    match estimated
    case None => u
    case Some(r) =>
      if t.settling && !u.follow then WhileUnsettled(u, now)
      else if r.noisy then WhileNoisy(u, now)
      else WhileQuiet(u, t, jump, now, r, cal)
  }

  // ---------------------------------------------------------------------------
  // What every mark is
  // ---------------------------------------------------------------------------

  /** Each mark is what the record says: since when there has been what it stands for. */
  predicate MarksAre(c: Course, record: seq<Note>) {
    && (!c.state.Frozen? && !c.follow ==> c.exceededSince == RunSince(record, BeyondBand))
    && (c.state.Frozen? ==>
         c.belowSince == RunSince(record, WellInsideBand) && c.inBandSince == RunSince(record, WithinBand))
    && c.reanchorSince == StillSince(record).since
    && (c.reanchorSince >= 0.0 ==> c.reanchorRef == StillSince(record).at)
    && c.undoSince == ReturnSince(record, c.replaced)
    && c.episodeSince == EpisodeOf(record) && c.blamed == BlameOf(record)
  }

  /** A correction only waits while it may be applied; marks are only set where they are used. */
  predicate Shaped(c: Course) {
    && (c.correction.Some? ==> c.eligible) && (c.eligible ==> c.state.Tracking?)
    && (c.state.Frozen? ==> !c.follow && c.episodeSince >= 0.0)
    && (c.state.Frozen? || c.state.Holding? || c.follow ==> c.exceededSince == NotSet)
    && (c.follow || !(c.state.Frozen? || c.state.Holding?) ==>
         c.episodeSince == c.reanchorSince == c.undoSince == NotSet)
    && (c.follow ==> c.replaced.None?)
    && (c.replaced.Some? ==>
         c.anchors != [] && c.anchors[|c.anchors| - 1] == Anchor(c.replaced.value, false) && Unit(c.replaced.value.rotation))
  }

  predicate Sound(c: Course) {
    Shaped(c) && MarksAre(c, c.record)
  }

  /** What a reading makes of the marks. */
  lemma OneReadingAdds(c: Course, note: Note)
    requires Sound(c) && note.Read? && note.frozen == c.state.Frozen? && note.follow == c.follow && note.replaced == c.replaced
    ensures var rec, d := c.record + [note], Measured(note.reading, note.cal);
            && (!note.frozen && !note.follow ==>
                 RunSince(rec, BeyondBand) == Since(c.exceededSince, Exceeds(d), note.time))
            && (note.frozen ==>
                 && RunSince(rec, WellInsideBand) == Since(c.belowSince, WellInside(d), note.time)
                 && RunSince(rec, WithinBand) == Since(c.inBandSince, InBand(d), note.time))
            && (c.replaced.Some? ==>
                 ReturnSince(rec, c.replaced) == Since(c.undoSince, note.Tries() && note.Returns(), note.time))
            && EpisodeOf(rec) == EpisodeAfter(c.episodeSince, note)
            && BlameOf(rec) == BlameAfter(c.blamed, EpisodeOf(rec), note)
            && StillSince(rec) == if !Followable(note, EpisodeOf(rec), c.blamed) then Moving
                                  else if c.reanchorSince < 0.0 || !Steady(Measured(note.reading, c.reanchorRef))
                                  then Stand(note.time, note.reading.estimate)
                                  else Stand(c.reanchorSince, c.reanchorRef)
  {
    NoteAdds(c.record, note, BeyondBand);
    NoteAdds(c.record, note, WellInsideBand);
    NoteAdds(c.record, note, WithinBand);
    if c.replaced.Some? {
      NoteAdds(c.record, note, FitsAgain(c.replaced.value));
    }
    hide Measured, RunSince, EpisodeOf, BlameOf, StillSince, Exceeds, WellInside, InBand, Steady, EpisodeAfter, BlameAfter, Blames;
  }

  /** A note that is no reading shows nothing. */
  lemma InterruptionAdds(record: seq<Note>, note: Note, replaced: Option<Rigid>)
    requires !note.Read?
    ensures var rec := record + [note];
            && RunSince(rec, BeyondBand) == RunSince(rec, WellInsideBand) == RunSince(rec, WithinBand) == NotSet
            && ReturnSince(rec, replaced) == NotSet && StillSince(rec) == Moving
            && EpisodeOf(rec) == (if note.Froze? then note.since else if note.Ended? || note.Forgot? then NotSet
                                  else EpisodeOf(record))
            && BlameOf(rec) == (if note.Forgot? then None else BlameOf(record))
  {
    NoteAdds(record, note, BeyondBand);
    NoteAdds(record, note, WellInsideBand);
    NoteAdds(record, note, WithinBand);
    if replaced.Some? {
      NoteAdds(record, note, FitsAgain(replaced.value));
    }
    hide RunSince, EpisodeOf, BlameOf, StillSince;
  }

  /** Everything that ends evidence leaves the marks it unsets unset. */
  lemma EndedIsSound(c: Course, record: seq<Note>, note: Note)
    requires Shaped(c) && c.record == record + [note]
    requires note.Ended? || note.Forgot?
    requires c.blamed == (if note.Forgot? then None else BlameOf(record)) && !c.state.Frozen?
    requires c.exceededSince == c.reanchorSince == c.undoSince == c.episodeSince == NotSet
    ensures Sound(c)
  {
    InterruptionAdds(record, note, c.replaced);
    hide Shaped, RunSince, EpisodeOf, BlameOf, StillSince, ReturnSince;
  }

  // ---------------------------------------------------------------------------
  // When an evaluation does what
  // ---------------------------------------------------------------------------

  /** The record with this reading. */
  function Looked(c: Course, t: Target, now: real, r: Reading, cal: Rigid): seq<Note> {
    c.record + [Read(now, r, cal, c.state.Frozen?, c.follow, c.replaced, t)]
  }

  predicate FreezeDue(c: Course, rec: seq<Note>, now: real) {
    !c.state.Frozen? && !c.follow && Lasted(RunSince(rec, BeyondBand), now, FreezeConfirm)
  }

  predicate ResumeDue(c: Course, rec: seq<Note>, now: real) {
    && c.state.Frozen?
    && (Lasted(RunSince(rec, WellInsideBand), now, ResumeConfirm) || Lasted(RunSince(rec, WithinBand), now, ResumeInBand))
  }

  predicate UndoDue(c: Course, rec: seq<Note>, jump: bool, now: real) {
    !jump && Lasted(ReturnSince(rec, c.replaced), now, ResumeConfirm)
  }

  predicate ReanchorDue(rec: seq<Note>, jump: bool, now: real) {
    !jump && Lasted(StillSince(rec).since, now, ReanchorConfirm)
  }

  predicate FollowDue(c: Course, jump: bool, r: Reading, cal: Rigid) {
    c.follow && !jump && Stuck(r, cal)
  }

  /** Inside the band, not frozen, and past the deadband in yaw or at the head. */
  predicate CorrectDue(c: Course, r: Reading, cal: Rigid) {
    var d := Measured(r, cal);
    !c.state.Frozen? && InBand(d) && (d.yaw >= DeadbandYaw || d.pos >= DeadbandPos)
  }

  /**
   All that a quiet evaluation does, and exactly when: what is due by the record with this reading
   is done, and nothing else is.
   */
  ghost predicate Exactly(c: Course, v: Course, t: Target, jump: bool, now: real, r: Reading, cal: Rigid) {
    var rec, d := Looked(c, t, now, r, cal), Measured(r, cal);
    var freeze, resume := FreezeDue(c, rec, now), ResumeDue(c, rec, now);
    var undo, reanchor, follow := UndoDue(c, rec, jump, now), ReanchorDue(rec, jump, now), FollowDue(c, jump, r, cal);
    && (undo ==> c.replaced.Some?)
    && (v.state.Frozen? <==> freeze || (c.state.Frozen? && !resume && !undo && !reanchor))
    && (v.state.Holding? <==> !c.state.Frozen? && !c.follow && Tilted(d) && !Exceeds(d) && !undo && !reanchor)
    && (!v.state.Frozen? && !v.state.Holding? ==>
         v.state == if c.state.Frozen? || c.state.Holding? || undo || reanchor || follow || InBand(d) then Tracking else c.state)
    && (v.eligible <==> CorrectDue(c, r, cal))
    && v.correction == (if CorrectDue(c, r, cal) then Some(PartWay(r, cal, Part(d))) else None)
    && v.reanchor == (if follow || reanchor then Some(DeltaToEstimate(r, cal))
                      else if undo then Some(MoveOf(cal, c.replaced.value)) else c.reanchor)
    && v.replaced == (if reanchor then Some(cal) else if undo then None else c.replaced)
    && v.anchors == (if reanchor then c.anchors + [Anchor(cal, false)]
                     else if undo && c.anchors != [] then c.anchors[|c.anchors| - 1 := Anchor(c.replaced.value, true)]
                     else c.anchors)
    && v.events == c.events + (if freeze then [FrozenLargeDeviation(now - t.lastResolve <= ResolveAttribution)]
                               else if resume then [Resumed]
                               else if follow then [Reanchored(now - t.lastResolve <= ResolveAttribution, false)]
                               else if reanchor then [Reanchored(false, RestartedIn(EpisodeOf(rec), t))]
                               else if undo then [ReanchorUndone] else [])
    && v.record == rec + (if freeze then [Froze(now)] else if resume || undo || reanchor || follow then [Ended] else [])
    && v.follow == c.follow
  }

  // --- one case at a time; `u` is the course with the reading noted ---

  /** The course as a quiet evaluation finds it, the reading noted. */
  function Noted(c: Course, t: Target, now: real, r: Reading, cal: Rigid): Course {
    var read := c.(scatterSince := NotSet, unstable := false, record := Looked(c, t, now, r, cal));
    if read.state.Holding? then Entered(read, Tracking) else read
  }

  // --- what is due where the deviation is ---

  lemma InBandDue(c: Course, t: Target, jump: bool, now: real, r: Reading, cal: Rigid)
    requires Sound(c) && InBand(Measured(r, cal)) && !c.state.Frozen?
    ensures var rec := Looked(c, t, now, r, cal);
            && !FreezeDue(c, rec, now) && !ResumeDue(c, rec, now) && !UndoDue(c, rec, jump, now)
            && !ReanchorDue(rec, jump, now) && !FollowDue(c, jump, r, cal)
            && (!c.follow ==> RunSince(rec, BeyondBand) == NotSet) && StillSince(rec) == Moving
            && ReturnSince(rec, c.replaced) == NotSet && EpisodeOf(rec) == NotSet && BlameOf(rec) == c.blamed
  {
    var note := Read(now, r, cal, c.state.Frozen?, c.follow, c.replaced, t);
    OneReadingAdds(c, note);
    hide Measured, RunSince, EpisodeOf, BlameOf, StillSince, RestartedIn;
  }

  lemma FollowingDue(c: Course, t: Target, jump: bool, now: real, r: Reading, cal: Rigid)
    requires Sound(c) && c.follow && Stuck(r, cal)
    ensures var rec := Looked(c, t, now, r, cal);
            && !FreezeDue(c, rec, now) && !ResumeDue(c, rec, now) && !UndoDue(c, rec, jump, now)
            && !ReanchorDue(rec, jump, now) && StillSince(rec) == Moving
            && ReturnSince(rec, c.replaced) == NotSet && EpisodeOf(rec) == NotSet && BlameOf(rec) == c.blamed
  {
    var note := Read(now, r, cal, c.state.Frozen?, c.follow, c.replaced, t);
    OneReadingAdds(c, note);
    hide Measured, RunSince, EpisodeOf, BlameOf, StillSince, RestartedIn;
  }

  lemma ExceedingDue(c: Course, t: Target, jump: bool, now: real, r: Reading, cal: Rigid)
    requires Sound(c) && !c.follow && !c.state.Frozen? && Exceeds(Measured(r, cal))
    ensures var rec := Looked(c, t, now, r, cal);
            && !ResumeDue(c, rec, now) && !UndoDue(c, rec, jump, now)
            && !ReanchorDue(rec, jump, now) && !FollowDue(c, jump, r, cal)
            && RunSince(rec, BeyondBand) == Since(c.exceededSince, true, now) && StillSince(rec) == Moving
            && ReturnSince(rec, c.replaced) == NotSet && EpisodeOf(rec) == NotSet && BlameOf(rec) == c.blamed
  {
    var note := Read(now, r, cal, c.state.Frozen?, c.follow, c.replaced, t);
    OneReadingAdds(c, note);
    hide Measured, RunSince, EpisodeOf, BlameOf, StillSince, RestartedIn;
  }

  lemma FrozenDue(c: Course, t: Target, jump: bool, now: real, r: Reading, cal: Rigid)
    requires Sound(c) && c.state.Frozen?
    ensures var rec, d := Looked(c, t, now, r, cal), Measured(r, cal);
            && !FreezeDue(c, rec, now) && !FollowDue(c, jump, r, cal)
            && RunSince(rec, WellInsideBand) == Since(c.belowSince, WellInside(d), now)
            && RunSince(rec, WithinBand) == Since(c.inBandSince, InBand(d), now)
            && (ResumeDue(c, rec, now) ==> InBand(d)) && EpisodeOf(rec) == c.episodeSince
            && (InBand(d) ==>
                 && !UndoDue(c, rec, jump, now) && !ReanchorDue(rec, jump, now)
                 && StillSince(rec) == Moving && ReturnSince(rec, c.replaced) == NotSet && BlameOf(rec) == c.blamed)
  {
    var note := Read(now, r, cal, c.state.Frozen?, c.follow, c.replaced, t);
    OneReadingAdds(c, note);
    hide Measured, RunSince, EpisodeOf, BlameOf, StillSince, RestartedIn;
  }

  /** A deviation that is neither corrected nor about to freeze: frozen, or held on its tilt. */
  lemma TryingDue(c: Course, t: Target, now: real, r: Reading, cal: Rigid)
    requires Sound(c) && !c.follow && !InBand(Measured(r, cal)) && (c.state.Frozen? || !Exceeds(Measured(r, cal)))
    ensures var rec := Looked(c, t, now, r, cal);
            var episode := EpisodeOf(rec);
            var back := c.replaced.Some? && WellInside(Measured(r, c.replaced.value));
            var blames := RestartedIn(episode, t) && !ReadAcross(c.blamed, episode, t, r);
            && (!c.state.Frozen? ==> RunSince(rec, BeyondBand) == NotSet)
            && episode == (if c.state.Frozen? then c.episodeSince else Since(c.episodeSince, true, now))
            && ReturnSince(rec, c.replaced) == Since(c.undoSince, back, now)
            && BlameOf(rec) == (if !back && blames then Some(Blamed(r.estimate, t.solutions, episode)) else c.blamed)
            && StillSince(rec) == (if back || blames || !t.restartsVisible then Moving
                                   else if c.reanchorSince < 0.0 || !Steady(Measured(r, c.reanchorRef)) then Stand(now, r.estimate)
                                   else Stand(c.reanchorSince, c.reanchorRef))
  {
    var note := Read(now, r, cal, c.state.Frozen?, c.follow, c.replaced, t);
    OneReadingAdds(c, note);
    hide Measured, RunSince, EpisodeOf, BlameOf, StillSince, RestartedIn, Exceeds, WellInside, Steady;
  }

  /** Noting a reading ends a hold and changes nothing else the marks are read for. */
  lemma NotedIs(c: Course, t: Target, now: real, r: Reading, cal: Rigid)
    requires Sound(c)
    ensures var n := Noted(c, t, now, r, cal);
            n == c.(state := if c.state.Holding? then Tracking else c.state, scatterSince := NotSet, unstable := false,
                    record := Looked(c, t, now, r, cal), belowSince := n.belowSince, inBandSince := n.inBandSince)
    ensures !c.state.Holding? ==> Noted(c, t, now, r, cal).belowSince == c.belowSince
                                  && Noted(c, t, now, r, cal).inBandSince == c.inBandSince
  {
    hide MarksAre, Looked;
  }

  predicate Unmarked(v: Course) {
    v.exceededSince == v.reanchorSince == v.undoSince == v.episodeSince == NotSet
  }

  /** Every mark was unset, and what is kept beside them. */
  predicate Cleared(c: Course, v: Course) {
    Unmarked(v) && v.blamed == c.blamed && v.follow == c.follow
  }

  /** A course with no mark set is sound when the record shows nothing at its end. */
  lemma ClearedIsSound(v: Course, rec: seq<Note>)
    requires Shaped(v) && v.record == rec && !v.state.Frozen? && Unmarked(v)
    requires !v.follow ==> RunSince(rec, BeyondBand) == NotSet
    requires StillSince(rec) == Moving && ReturnSince(rec, v.replaced) == NotSet && EpisodeOf(rec) == NotSet
    requires BlameOf(rec) == v.blamed
    ensures Sound(v)
  {
    hide Shaped, RunSince, EpisodeOf, BlameOf, StillSince, ReturnSince;
  }

  lemma CorrectedIs(c: Course, t: Target, now: real, r: Reading, cal: Rigid)
    requires Shaped(c) && !c.eligible && InBand(Measured(r, cal)) && !c.state.Frozen?
    ensures var v := Corrected(Noted(c, t, now, r, cal), r, cal);
            && v.state.Tracking? && Cleared(c, v) && SameCalibration(c, v) && v.record == Looked(c, t, now, r, cal)
            && v.events == c.events && (v.eligible <==> CorrectDue(c, r, cal))
            && v.correction == (if CorrectDue(c, r, cal) then Some(PartWay(r, cal, Part(Measured(r, cal)))) else None)
            && Shaped(v)
  {
    hide Measured, PartWay, Part, Looked, Unit;
  }

  lemma CorrectedIsSound(c: Course, t: Target, jump: bool, now: real, r: Reading, cal: Rigid)
    requires Sound(c) && !c.eligible && InBand(Measured(r, cal)) && !c.state.Frozen?
    ensures Sound(Corrected(Noted(c, t, now, r, cal), r, cal))
  {
    InBandDue(c, t, jump, now, r, cal);
    CorrectedIs(c, t, now, r, cal);
    hide Measured, RunSince, EpisodeOf, BlameOf, StillSince, ReturnSince, Looked, Noted, Corrected, Shaped, MarksAre;
    ClearedIsSound(Corrected(Noted(c, t, now, r, cal), r, cal), Looked(c, t, now, r, cal));
  }

  lemma CorrectedExactly(c: Course, t: Target, jump: bool, now: real, r: Reading, cal: Rigid)
    requires Sound(c) && !c.eligible && InBand(Measured(r, cal)) && !c.state.Frozen?
    ensures Exactly(c, Corrected(Noted(c, t, now, r, cal), r, cal), t, jump, now, r, cal)
  {
    InBandDue(c, t, jump, now, r, cal);
    CorrectedIs(c, t, now, r, cal);
    hide Measured, PartWay, Part, RunSince, EpisodeOf, BlameOf, StillSince, ReturnSince, Looked, DeltaToEstimate, MoveOf, Noted, Corrected, CorrectDue;
    hide FreezeDue, ResumeDue, UndoDue, ReanchorDue, FollowDue, MarksAre, Shaped;
  }

  lemma FollowedIs(c: Course, t: Target, jump: bool, now: real, r: Reading, cal: Rigid)
    requires Shaped(c) && !c.eligible && c.correction.None? && c.follow && Stuck(r, cal)
    ensures var v := Followed(Noted(c, t, now, r, cal), t, jump, now, r, cal);
            && v.state == (if c.state.Holding? || !jump then Tracking else c.state) && !v.state.Frozen? && !v.state.Holding?
            && Cleared(c, v) && !v.eligible && v.correction.None? && v.anchors == c.anchors && v.replaced == c.replaced
            && v.record == Looked(c, t, now, r, cal) + (if jump then [] else [Ended])
            && v.reanchor == (if jump then c.reanchor else Some(DeltaToEstimate(r, cal)))
            && v.events == c.events + (if jump then [] else [Reanchored(now - t.lastResolve <= ResolveAttribution, false)])
            && Shaped(v)
  {
    assert Looked(c, t, now, r, cal) + [] == Looked(c, t, now, r, cal);
    hide Measured, DeltaToEstimate, Looked, Unit, Stuck;
  }

  lemma FollowedExactly(c: Course, t: Target, jump: bool, now: real, r: Reading, cal: Rigid)
    requires Sound(c) && !c.eligible && c.correction.None? && c.follow && Stuck(r, cal)
    ensures var v := Followed(Noted(c, t, now, r, cal), t, jump, now, r, cal);
            Sound(v) && Exactly(c, v, t, jump, now, r, cal)
  {
    var v, rec := Followed(Noted(c, t, now, r, cal), t, jump, now, r, cal), Looked(c, t, now, r, cal);
    FollowingDue(c, t, jump, now, r, cal);
    FollowedIs(c, t, jump, now, r, cal);
    InterruptionAdds(rec, Ended, c.replaced);
    assert rec + [] == rec;
    hide Measured, PartWay, Part, RunSince, EpisodeOf, BlameOf, StillSince, ReturnSince, Looked, DeltaToEstimate, MoveOf, Noted, Followed, Shaped, MarksAre;
    hide FreezeDue, ResumeDue, UndoDue, ReanchorDue;
    ClearedIsSound(v, v.record);
  }

  lemma SuspectedIs(c: Course, t: Target, now: real, r: Reading, cal: Rigid)
    requires Shaped(c) && !c.eligible && c.correction.None? && now >= 0.0 && !c.follow && !c.state.Frozen?
    ensures var v := Suspected(Noted(c, t, now, r, cal), t, now);
            var freeze := Lasted(Since(c.exceededSince, true, now), now, FreezeConfirm);
            && v.state == (if freeze then Frozen else if c.state.Holding? then Tracking else c.state)
            && v.exceededSince == (if freeze then NotSet else Since(c.exceededSince, true, now))
            && v.episodeSince == (if freeze then now else NotSet) && v.reanchorSince == v.undoSince == NotSet
            && (freeze ==> v.belowSince == v.inBandSince == NotSet)
            && v.record == Looked(c, t, now, r, cal) + (if freeze then [Froze(now)] else [])
            && v.events == c.events + (if freeze then [FrozenLargeDeviation(now - t.lastResolve <= ResolveAttribution)] else [])
            && v.blamed == c.blamed && v.follow == c.follow && !v.eligible && v.correction.None? && SameCalibration(c, v)
            && Shaped(v)
  {
    assert Looked(c, t, now, r, cal) + [] == Looked(c, t, now, r, cal);
    hide Looked, Unit;
  }

  lemma SuspectedIsSound(c: Course, t: Target, jump: bool, now: real, r: Reading, cal: Rigid)
    requires Sound(c) && !c.eligible && c.correction.None? && now >= 0.0
    requires !c.follow && !c.state.Frozen? && Exceeds(Measured(r, cal))
    ensures Sound(Suspected(Noted(c, t, now, r, cal), t, now))
  {
    var rec := Looked(c, t, now, r, cal);
    ExceedingDue(c, t, jump, now, r, cal);
    SuspectedIs(c, t, now, r, cal);
    InterruptionAdds(rec, Froze(now), c.replaced);
    assert rec + [] == rec;
    hide Measured, RunSince, EpisodeOf, BlameOf, StillSince, ReturnSince, Looked, Noted, Suspected, Shaped, Exceeds, Since;
    hide ResumeDue, UndoDue, ReanchorDue, FollowDue, FreezeDue;
  }

  lemma SuspectedExactly(c: Course, t: Target, jump: bool, now: real, r: Reading, cal: Rigid)
    requires Sound(c) && !c.eligible && c.correction.None? && now >= 0.0
    requires !c.follow && !c.state.Frozen? && Exceeds(Measured(r, cal))
    ensures Exactly(c, Suspected(Noted(c, t, now, r, cal), t, now), t, jump, now, r, cal)
  {
    ExceedingDue(c, t, jump, now, r, cal);
    SuspectedIs(c, t, now, r, cal);
    hide Measured, PartWay, Part, RunSince, EpisodeOf, BlameOf, StillSince, ReturnSince, Looked, DeltaToEstimate, MoveOf, Noted, Suspected, Shaped, MarksAre;
    hide ResumeDue, UndoDue, ReanchorDue, FollowDue, Lasted, Since;
  }

  // --- a try; `u` is frozen or holds, with the reading noted and its episode marked ---

  /** What a try starts from: the marks it does not set are those of the record with the reading. */
  ghost predicate Trying(c: Course, u: Course, t: Target, now: real, r: Reading, cal: Rigid) {
    var rec := Looked(c, t, now, r, cal);
    && !c.follow && !c.eligible && c.correction.None? && !InBand(Measured(r, cal))
    && (if c.state.Frozen? then u.state.Frozen? else u.state.Holding? && !Exceeds(Measured(r, cal)))
    && u == c.(state := u.state, scatterSince := NotSet, unstable := false, record := rec, episodeSince := EpisodeOf(rec),
               exceededSince := NotSet, belowSince := u.belowSince, inBandSince := u.inBandSince)
    && (u.state.Frozen? ==>
         u.belowSince == RunSince(rec, WellInsideBand) && u.inBandSince == RunSince(rec, WithinBand) && u.episodeSince >= 0.0)
  }

  /** What a try comes to: nothing yet, an undo, or a re-anchor. */
  predicate TryingIs(c: Course, u: Course, v: Course, t: Target, jump: bool, now: real, r: Reading, cal: Rigid) {
    var rec := Looked(c, t, now, r, cal);
    if UndoDue(c, rec, jump, now) then
      && c.replaced.Some? && v.state.Tracking? && v.reanchor == Some(MoveOf(cal, c.replaced.value)) && v.replaced.None?
      && v.anchors == (if c.anchors == [] then [] else c.anchors[|c.anchors| - 1 := Anchor(c.replaced.value, true)])
      && v.events == c.events + [ReanchorUndone] && !ReanchorDue(rec, jump, now)
    else if ReanchorDue(rec, jump, now) then
      && v.state.Tracking? && v.reanchor == Some(DeltaToEstimate(r, cal)) && v.replaced == Some(cal)
      && v.anchors == c.anchors + [Anchor(cal, false)] && v.events == c.events + [Reanchored(false, RestartedIn(EpisodeOf(rec), t))]
    else
      && v.state == u.state && v.reanchor == c.reanchor && v.replaced == c.replaced && v.anchors == c.anchors
      && v.events == c.events
  }

  predicate TryingLeaves(c: Course, v: Course, t: Target, jump: bool, now: real, r: Reading, cal: Rigid) {
    var rec := Looked(c, t, now, r, cal);
    !v.eligible && v.correction.None? && v.follow == c.follow && v.exceededSince == NotSet
  }

  lemma UndoneIsSound(c: Course, u: Course, t: Target, jump: bool, now: real, r: Reading, cal: Rigid)
    requires Sound(c) && Trying(c, u, t, now, r, cal)
    requires c.replaced.Some? && WellInside(Measured(r, c.replaced.value))
    ensures Sound(Undone(u, jump, now, cal))
  {
    TryingDue(c, t, now, r, cal);
    InterruptionAdds(Looked(c, t, now, r, cal), Ended, None);
    hide Measured, RunSince, EpisodeOf, BlameOf, StillSince, ReturnSince, Looked, MoveOf;
    hide InBand, WellInside, Exceeds, Steady, RestartedIn, ReadAcross, Unit;
  }

  lemma UndoneIs(c: Course, u: Course, t: Target, jump: bool, now: real, r: Reading, cal: Rigid)
    requires Sound(c) && Trying(c, u, t, now, r, cal)
    requires c.replaced.Some? && WellInside(Measured(r, c.replaced.value))
    ensures var v, rec := Undone(u, jump, now, cal), Looked(c, t, now, r, cal);
            && TryingIs(c, u, v, t, jump, now, r, cal) && TryingLeaves(c, v, t, jump, now, r, cal)
            && v.record == rec + (if UndoDue(c, rec, jump, now) then [Ended] else [])
            && !ReanchorDue(rec, jump, now)
  {
    TryingDue(c, t, now, r, cal);
    hide Measured, RunSince, EpisodeOf, BlameOf, StillSince, ReturnSince, Looked, DeltaToEstimate, MoveOf;
    hide InBand, WellInside, Exceeds, Steady, RestartedIn, ReadAcross, Unit, MarksAre;
  }

  lemma FollowingWaits(c: Course, u: Course, t: Target, jump: bool, now: real, r: Reading, cal: Rigid)
    requires Sound(c) && Trying(c, u, t, now, r, cal) && !ReanchorDue(Looked(c, t, now, r, cal), jump, now)
    requires !(c.replaced.Some? && WellInside(Measured(r, c.replaced.value)))
    ensures var v := Tried(u, t, jump, now, r, cal);
            && Sound(v) && v == u.(undoSince := v.undoSince, reanchorSince := v.reanchorSince, reanchorRef := v.reanchorRef,
                                   blamed := v.blamed)
            && !UndoDue(c, Looked(c, t, now, r, cal), jump, now)
  {
    TryingDue(c, t, now, r, cal);
    hide Measured, RunSince, EpisodeOf, BlameOf, StillSince, ReturnSince, Looked, ReanchoredAt;
    hide InBand, WellInside, Exceeds, Steady, RestartedIn, ReadAcross, Unit;
  }

  lemma FollowingActs(c: Course, u: Course, t: Target, jump: bool, now: real, r: Reading, cal: Rigid)
    requires Sound(c) && Trying(c, u, t, now, r, cal) && ReanchorDue(Looked(c, t, now, r, cal), jump, now)
    requires !(c.replaced.Some? && WellInside(Measured(r, c.replaced.value))) && Unit(cal.rotation)
    ensures var v, b := Tried(u, t, jump, now, r, cal), u.(undoSince := NotSet);
            && v == ReanchoredAt(b, r, cal, RestartedIn(EpisodeOf(Looked(c, t, now, r, cal)), t))
            && !UndoDue(c, Looked(c, t, now, r, cal), jump, now) && BlameOf(Looked(c, t, now, r, cal)) == u.blamed
  {
    TryingDue(c, t, now, r, cal);
    hide Measured, RunSince, EpisodeOf, BlameOf, StillSince, ReturnSince, Looked, ReanchoredAt;
    hide InBand, WellInside, Exceeds, Steady, RestartedIn, ReadAcross, Unit;
  }

  lemma ReanchoredIsSound(c: Course, record: seq<Note>, r: Reading, cal: Rigid, across: bool)
    requires c.record == record && !c.follow && !c.eligible && c.correction.None? && Unit(cal.rotation)
    requires c.blamed == BlameOf(record) && c.undoSince == NotSet
    ensures Sound(ReanchoredAt(c, r, cal, across))
  {
    ReanchoredShape(c, r, cal, across);
    hide Shaped, Entered, BlameOf, DeltaToEstimate, Unit, ReanchoredAt;
    EndedIsSound(ReanchoredAt(c, r, cal, across), record, Ended);
  }

  lemma ReanchoredShape(c: Course, r: Reading, cal: Rigid, across: bool)
    requires !c.follow && !c.eligible && c.correction.None? && Unit(cal.rotation) && c.undoSince == NotSet
    ensures var v := ReanchoredAt(c, r, cal, across);
            && Shaped(v) && v.record == c.record + [Ended] && v.blamed == c.blamed && !v.state.Frozen?
            && v.exceededSince == v.reanchorSince == v.undoSince == v.episodeSince == NotSet
  {
    hide DeltaToEstimate, Unit;
  }

  lemma FollowingIs(c: Course, u: Course, t: Target, jump: bool, now: real, r: Reading, cal: Rigid)
    requires Sound(c) && Trying(c, u, t, now, r, cal) && Unit(cal.rotation)
    requires !(c.replaced.Some? && WellInside(Measured(r, c.replaced.value)))
    ensures var v, rec := Tried(u, t, jump, now, r, cal), Looked(c, t, now, r, cal);
            && Sound(v) && TryingIs(c, u, v, t, jump, now, r, cal) && TryingLeaves(c, v, t, jump, now, r, cal)
            && v.record == rec + (if ReanchorDue(rec, jump, now) then [Ended] else [])
            && !UndoDue(c, rec, jump, now)
  {
    var rec := Looked(c, t, now, r, cal);
    if ReanchorDue(rec, jump, now) {
      FollowingActs(c, u, t, jump, now, r, cal);
      ReanchoredIsSound(u.(undoSince := NotSet), rec, r, cal, RestartedIn(EpisodeOf(rec), t));
    } else {
      FollowingWaits(c, u, t, jump, now, r, cal);
    }
    hide Measured, RunSince, EpisodeOf, BlameOf, StillSince, ReturnSince, Looked, DeltaToEstimate, MoveOf, Tried, Sound;
    hide InBand, WellInside, Exceeds, RestartedIn, Unit, UndoDue, ReanchorDue;
  }

  lemma TriedIs(c: Course, u: Course, t: Target, jump: bool, now: real, r: Reading, cal: Rigid)
    requires Sound(c) && Trying(c, u, t, now, r, cal) && Unit(cal.rotation)
    ensures var v, rec := Tried(u, t, jump, now, r, cal), Looked(c, t, now, r, cal);
            && Sound(v) && TryingIs(c, u, v, t, jump, now, r, cal) && TryingLeaves(c, v, t, jump, now, r, cal)
            && v.record == rec + (if UndoDue(c, rec, jump, now) || ReanchorDue(rec, jump, now) then [Ended] else [])
  {
    if c.replaced.Some? && WellInside(Measured(r, c.replaced.value)) {
      UndoneIsSound(c, u, t, jump, now, r, cal);
      UndoneIs(c, u, t, jump, now, r, cal);
    } else {
      FollowingIs(c, u, t, jump, now, r, cal);
    }
    hide Measured, RunSince, EpisodeOf, BlameOf, StillSince, ReturnSince, Looked, DeltaToEstimate, MoveOf, Sound, Undone,
         TryingIs, TryingLeaves, WellInside;
  }

  lemma HoldingTries(c: Course, t: Target, now: real, r: Reading, cal: Rigid)
    requires Sound(c) && !c.eligible && c.correction.None? && now >= 0.0
    requires !c.follow && !c.state.Frozen? && !Exceeds(Measured(r, cal)) && Tilted(Measured(r, cal))
    ensures var n := Noted(c, t, now, r, cal);
            Trying(c, Entered(n.(exceededSince := NotSet, episodeSince := Since(n.episodeSince, true, now)), Holding), t, now, r, cal)
  {
    TryingDue(c, t, now, r, cal);
    NotedIs(c, t, now, r, cal);
    hide Measured, RunSince, BlameOf, StillSince, ReturnSince, Looked, EpisodeOf, Noted;
  }

  lemma HeldOnTiltExactly(c: Course, t: Target, jump: bool, now: real, r: Reading, cal: Rigid)
    requires Sound(c) && !c.eligible && c.correction.None? && Unit(cal.rotation) && now >= 0.0
    requires !c.follow && !c.state.Frozen? && !Exceeds(Measured(r, cal)) && Tilted(Measured(r, cal))
    ensures var v := HeldOnTilt(Noted(c, t, now, r, cal), t, jump, now, r, cal);
            Sound(v) && Exactly(c, v, t, jump, now, r, cal)
  {
    TiltIsNotDue(c, t, now, r, cal);
    HoldingTries(c, t, now, r, cal);
    var n := Noted(c, t, now, r, cal);
    var u := Entered(n.(exceededSince := NotSet, episodeSince := Since(n.episodeSince, true, now)), Holding);
    assert u.state.Holding?;
    TriedIs(c, u, t, jump, now, r, cal);
    HoldingExactly(c, u, Tried(u, t, jump, now, r, cal), t, jump, now, r, cal);
    hide Sound, Shaped, Exactly, Tried, Trying, TryingIs, TryingLeaves, Looked, Measured, Noted, Entered, Since, EpisodeOf;
    hide FreezeDue, ResumeDue, FollowDue, CorrectDue, UndoDue, ReanchorDue, Exceeds, Tilted, InBand, Unit;
  }

  lemma HoldingExactly(c: Course, u: Course, v: Course, t: Target, jump: bool, now: real, r: Reading, cal: Rigid)
    requires !c.follow && !c.state.Frozen? && !Exceeds(Measured(r, cal)) && Tilted(Measured(r, cal)) && u.state.Holding?
    requires TryingIs(c, u, v, t, jump, now, r, cal) && TryingLeaves(c, v, t, jump, now, r, cal)
    requires var rec := Looked(c, t, now, r, cal);
             && !FreezeDue(c, rec, now) && !ResumeDue(c, rec, now) && !CorrectDue(c, r, cal) && !InBand(Measured(r, cal))
             && !FollowDue(c, jump, r, cal)
             && v.record == rec + (if UndoDue(c, rec, jump, now) || ReanchorDue(rec, jump, now) then [Ended] else [])
    ensures Exactly(c, v, t, jump, now, r, cal)
  {
    hide Measured, EpisodeOf, Looked, DeltaToEstimate, MoveOf, RestartedIn, PartWay, Part;
    hide UndoDue, ReanchorDue, FreezeDue, ResumeDue, FollowDue, CorrectDue, Exceeds, Tilted, InBand;
  }

  lemma TiltIsNotDue(c: Course, t: Target, now: real, r: Reading, cal: Rigid)
    requires Sound(c) && !c.follow && !c.state.Frozen? && !Exceeds(Measured(r, cal)) && Tilted(Measured(r, cal))
    ensures var rec := Looked(c, t, now, r, cal);
            && !FreezeDue(c, rec, now) && !ResumeDue(c, rec, now) && !CorrectDue(c, r, cal) && !InBand(Measured(r, cal))
            && forall jump :: !FollowDue(c, jump, r, cal)
  {
    TryingDue(c, t, now, r, cal);
    hide Measured, RunSince, EpisodeOf, BlameOf, StillSince, ReturnSince, Looked, Sound;
  }

  lemma ResumedIs(c: Course, t: Target, jump: bool, now: real, r: Reading, cal: Rigid)
    requires Shaped(c) && c.state.Frozen? && ResumeDue(c, Looked(c, t, now, r, cal), now)
    requires RunSince(Looked(c, t, now, r, cal), WellInsideBand) == Since(c.belowSince, WellInside(Measured(r, cal)), now)
    requires RunSince(Looked(c, t, now, r, cal), WithinBand) == Since(c.inBandSince, InBand(Measured(r, cal)), now)
    ensures var v := WhileFrozen(Noted(c, t, now, r, cal), t, jump, now, r, cal);
            && v.state.Tracking? && Cleared(c, v) && SameCalibration(c, v) && v.record == Looked(c, t, now, r, cal) + [Ended]
            && v.events == c.events + [Resumed] && v.eligible == c.eligible && v.correction == c.correction && Shaped(v)
  {
    hide Measured, Looked, Unit, RunSince, WellInside, InBand, Since, Tried;
  }

  lemma ResumedExactly(c: Course, t: Target, jump: bool, now: real, r: Reading, cal: Rigid)
    requires Sound(c) && !c.eligible && c.correction.None? && c.state.Frozen?
    requires ResumeDue(c, Looked(c, t, now, r, cal), now)
    ensures var v := WhileFrozen(Noted(c, t, now, r, cal), t, jump, now, r, cal);
            Sound(v) && Exactly(c, v, t, jump, now, r, cal)
  {
    var v, rec := WhileFrozen(Noted(c, t, now, r, cal), t, jump, now, r, cal), Looked(c, t, now, r, cal);
    FrozenDue(c, t, jump, now, r, cal);
    ResumedIs(c, t, jump, now, r, cal);
    InterruptionAdds(rec, Ended, c.replaced);
    hide Measured, PartWay, Part, RunSince, EpisodeOf, BlameOf, StillSince, ReturnSince, Looked, DeltaToEstimate, MoveOf, Noted, WhileFrozen, Shaped, MarksAre;
    hide UndoDue, ReanchorDue, FreezeDue, FollowDue, ResumeDue, InBand;
    ClearedIsSound(v, v.record);
  }

  lemma WaitsFrozen(c: Course, t: Target, jump: bool, now: real, r: Reading, cal: Rigid)
    requires Sound(c) && !c.eligible && c.correction.None? && c.state.Frozen? && InBand(Measured(r, cal))
    requires !ResumeDue(c, Looked(c, t, now, r, cal), now)
    ensures var v := WhileFrozen(Noted(c, t, now, r, cal), t, jump, now, r, cal);
            Sound(v) && Exactly(c, v, t, jump, now, r, cal)
  {
    FrozenDue(c, t, jump, now, r, cal);
    hide Measured, RunSince, EpisodeOf, BlameOf, StillSince, ReturnSince, Looked, DeltaToEstimate, MoveOf, Tried;
    hide UndoDue, ReanchorDue, FreezeDue, FollowDue, PartWay, Part, WellInside, InBand;
  }

  lemma TriesFrozen(c: Course, t: Target, jump: bool, now: real, r: Reading, cal: Rigid)
    requires Sound(c) && !c.eligible && c.correction.None? && c.state.Frozen? && !InBand(Measured(r, cal)) && Unit(cal.rotation)
    ensures var v := WhileFrozen(Noted(c, t, now, r, cal), t, jump, now, r, cal);
            Sound(v) && Exactly(c, v, t, jump, now, r, cal)
  {
    FrozenDue(c, t, jump, now, r, cal);
    var d, n := Measured(r, cal), Noted(c, t, now, r, cal);
    var u := n.(belowSince := Since(n.belowSince, WellInside(d), now), inBandSince := Since(n.inBandSince, InBand(d), now));
    assert Trying(c, u, t, now, r, cal) by {
      hide Measured, RunSince, BlameOf, StillSince, ReturnSince, Looked, EpisodeOf, WellInside, InBand;
    }
    TriedIs(c, u, t, jump, now, r, cal);
    hide Measured, RunSince, EpisodeOf, BlameOf, StillSince, ReturnSince, Looked, DeltaToEstimate, MoveOf, Sound, Tried, Trying;
    hide UndoDue, ReanchorDue, PartWay, Part, WellInside, InBand, FreezeDue, FollowDue;
  }

  // --- one evaluation ---

  /** Neither unsettled nor noisy: the reading is evidence. */
  predicate Quiet(c: Course, t: Target, r: Reading) {
    !(t.settling && !c.follow) && !r.noisy
  }

  predicate SameCalibration(c: Course, v: Course) {
    v.anchors == c.anchors && v.replaced == c.replaced && v.reanchor == c.reanchor
  }

  /**
   Through what is no evidence every verdict waits: nothing is corrected, and a freeze stays one.
   Noise that lasts is told of once.
   */
  ghost predicate Withholds(c: Course, v: Course, t: Target, now: real) {
    && v.state == (if c.state.Frozen? then Frozen else Holding) && !v.eligible && v.correction.None?
    && SameCalibration(c, v) && v.follow == c.follow
    && v.record == c.record + [if t.settling && !c.follow then Unsettled(now) else Noisy(now)]
    && var noise := !(t.settling && !c.follow) && !c.state.Frozen?;
       var told := noise && !c.unstable && Lasted(c.scatterSince, now, ScatterNotify);
       && (noise ==> v.scatterSince == Since(c.scatterSince, true, now)) && (!noise ==> v.scatterSince == c.scatterSince)
       && (v.unstable <==> c.unstable || told)
       && v.events == c.events + if told then [ObservationsUnstable] else []
  }

  /** What an evaluation does, with or without an estimate. */
  ghost predicate DecidesExactly(c: Course, v: Course, t: Target, jump: bool, now: real, estimated: Option<Reading>, cal: Rigid) {
    match estimated
    case None => v == Uncorrected(c)
    case Some(r) =>
      if Quiet(c, t, r) then Exactly(c, v, t, jump, now, r, cal) && v.scatterSince == NotSet && !v.unstable
      else Withholds(c, v, t, now)
  }

  lemma WhileFrozenExactly(c: Course, t: Target, jump: bool, now: real, r: Reading, cal: Rigid)
    requires Sound(c) && !c.eligible && c.correction.None? && c.state.Frozen? && Unit(cal.rotation)
    ensures var v := WhileFrozen(Noted(c, t, now, r, cal), t, jump, now, r, cal);
            Sound(v) && Exactly(c, v, t, jump, now, r, cal)
  {
    hide Sound, Measured, Exactly, WhileFrozen, Noted, Looked, InBand, Unit, ResumeDue;
    if ResumeDue(c, Looked(c, t, now, r, cal), now) {
      ResumedExactly(c, t, jump, now, r, cal);
    } else if InBand(Measured(r, cal)) {
      WaitsFrozen(c, t, jump, now, r, cal);
    } else {
      TriesFrozen(c, t, jump, now, r, cal);
    }
  }

  lemma WhileQuietExactly(c: Course, t: Target, jump: bool, now: real, r: Reading, cal: Rigid)
    requires Sound(c) && !c.eligible && c.correction.None? && now >= 0.0 && Unit(cal.rotation)
    ensures var v := WhileQuiet(c, t, jump, now, r, cal);
            Sound(v) && Exactly(c, v, t, jump, now, r, cal)
  {
    NotedState(c, t, now, r, cal);
    hide MarksAre, Measured, Exactly, WhileFrozen, Suspected, Followed, HeldOnTilt, Corrected, Unit, Entered;
    assert WhileQuiet(c, t, jump, now, r, cal) ==
           var u := Noted(c, t, now, r, cal);
           if u.follow && Stuck(r, cal) then Followed(u, t, jump, now, r, cal)
           else if u.state.Frozen? then WhileFrozen(u, t, jump, now, r, cal)
           else if Exceeds(Measured(r, cal)) then Suspected(u, t, now)
           else if Tilted(Measured(r, cal)) then HeldOnTilt(u, t, jump, now, r, cal)
           else Corrected(u, r, cal);
    hide Looked, Noted, WhileQuiet, Shaped;
    if c.follow && Stuck(r, cal) {
      FollowedExactly(c, t, jump, now, r, cal);
    } else if c.state.Frozen? {
      WhileFrozenExactly(c, t, jump, now, r, cal);
    } else if Exceeds(Measured(r, cal)) {
      SuspectedIsSound(c, t, jump, now, r, cal);
      SuspectedExactly(c, t, jump, now, r, cal);
    } else if Tilted(Measured(r, cal)) {
      HeldOnTiltExactly(c, t, jump, now, r, cal);
    } else {
      CorrectedIsSound(c, t, jump, now, r, cal);
      CorrectedExactly(c, t, jump, now, r, cal);
    }
  }

  lemma NotedState(c: Course, t: Target, now: real, r: Reading, cal: Rigid)
    requires Sound(c)
    ensures var n := Noted(c, t, now, r, cal);
            n.follow == c.follow && (n.state.Frozen? <==> c.state.Frozen?) && (c.state.Frozen? ==> !c.follow)
  {
    hide MarksAre, Looked;
  }

  lemma UncorrectedIsSound(c: Course)
    requires Sound(c)
    ensures Sound(Uncorrected(c))
  {
    hide RunSince, EpisodeOf, BlameOf, StillSince, ReturnSince;
  }

  lemma ExactlyLikewise(c: Course, v: Course, t: Target, jump: bool, now: real, r: Reading, cal: Rigid)
    requires Exactly(Uncorrected(c), v, t, jump, now, r, cal)
    ensures Exactly(c, v, t, jump, now, r, cal)
  {
    hide Measured, PartWay, Part, RunSince, EpisodeOf, BlameOf, StillSince, ReturnSince, DeltaToEstimate, MoveOf;
  }

  lemma WithholdsLikewise(c: Course, v: Course, t: Target, now: real)
    requires Withholds(Uncorrected(c), v, t, now)
    ensures Withholds(c, v, t, now)
  {
  }

  predicate SameNoise(c: Course, v: Course) {
    v.scatterSince == c.scatterSince && v.unstable == c.unstable
  }

  lemma TryLeavesNoise(c: Course, t: Target, jump: bool, now: real, r: Reading, cal: Rigid)
    ensures SameNoise(c, Tried(c, t, jump, now, r, cal))
  {
    hide Measured, DeltaToEstimate, MoveOf, RestartedIn, ReadAcross, Steady, WellInside;
  }

  lemma FreezeLeavesNoise(c: Course, t: Target, jump: bool, now: real, r: Reading, cal: Rigid)
    ensures SameNoise(c, WhileFrozen(c, t, jump, now, r, cal))
  {
    var d := Measured(r, cal);
    var u := c.(belowSince := Since(c.belowSince, WellInside(d), now), inBandSince := Since(c.inBandSince, InBand(d), now));
    TryLeavesNoise(u, t, jump, now, r, cal);
    hide Measured, Tried, WellInside, InBand, Since, Lasted;
  }

  lemma TiltLeavesNoise(c: Course, t: Target, jump: bool, now: real, r: Reading, cal: Rigid)
    ensures SameNoise(c, HeldOnTilt(c, t, jump, now, r, cal))
  {
    var u := Entered(c.(exceededSince := NotSet, episodeSince := Since(c.episodeSince, true, now)), Holding);
    TryLeavesNoise(u, t, jump, now, r, cal);
    hide Measured, Tried, Since;
  }

  lemma QuietEndsNoise(c: Course, t: Target, jump: bool, now: real, r: Reading, cal: Rigid)
    ensures WhileQuiet(c, t, jump, now, r, cal).scatterSince == NotSet && !WhileQuiet(c, t, jump, now, r, cal).unstable
  {
    var note := Read(now, r, cal, c.state.Frozen?, c.follow, c.replaced, t);
    var read := c.(scatterSince := NotSet, unstable := false, record := c.record + [note]);
    var u := if read.state.Holding? then Entered(read, Tracking) else read;
    FreezeLeavesNoise(u, t, jump, now, r, cal);
    TiltLeavesNoise(u, t, jump, now, r, cal);
    hide Measured, PartWay, Part, DeltaToEstimate, WhileFrozen, HeldOnTilt;
  }

  lemma UnsettledIs(c: Course, t: Target, now: real)
    requires Sound(c) && !c.eligible && c.correction.None? && t.settling && !c.follow
    ensures Withholds(c, WhileUnsettled(c, now), t, now)
  {
    hide MarksAre, Unit;
  }

  lemma UnsettledMarks(c: Course, now: real)
    requires Shaped(c) && !c.eligible && c.correction.None? && !c.follow
    ensures var v := WhileUnsettled(c, now);
            && Shaped(v) && (v.state.Frozen? <==> c.state.Frozen?) && v.follow == c.follow && v.replaced == c.replaced
            && v.exceededSince == v.reanchorSince == v.undoSince == NotSet
            && (v.state.Frozen? ==> v.belowSince == v.inBandSince == NotSet)
            && v.episodeSince == c.episodeSince && v.blamed == c.blamed && v.record == c.record + [Unsettled(now)]
  {
    hide Unit;
  }

  lemma UnsettledIsSound(c: Course, now: real)
    requires Sound(c) && !c.eligible && c.correction.None? && !c.follow
    ensures Sound(WhileUnsettled(c, now))
  {
    UnsettledMarks(c, now);
    InterruptionAdds(c.record, Unsettled(now), c.replaced);
    hide RunSince, EpisodeOf, BlameOf, StillSince, ReturnSince, Shaped, WhileUnsettled;
  }

  lemma NoisyIs(c: Course, t: Target, now: real)
    requires Sound(c) && !c.eligible && c.correction.None? && !(t.settling && !c.follow)
    ensures Withholds(c, WhileNoisy(c, now), t, now)
  {
    hide MarksAre, Unit;
  }

  lemma NoisyMarks(c: Course, now: real)
    requires Shaped(c) && !c.eligible && c.correction.None?
    ensures var v := WhileNoisy(c, now);
            && Shaped(v) && (v.state.Frozen? <==> c.state.Frozen?) && v.follow == c.follow && v.replaced == c.replaced
            && v.exceededSince == v.reanchorSince == v.undoSince == NotSet
            && (v.state.Frozen? ==> v.belowSince == v.inBandSince == NotSet)
            && v.episodeSince == c.episodeSince && v.blamed == c.blamed && v.record == c.record + [Noisy(now)]
  {
    hide Unit;
  }

  lemma NoisyIsSound(c: Course, now: real)
    requires Sound(c) && !c.eligible && c.correction.None?
    ensures Sound(WhileNoisy(c, now))
  {
    NoisyMarks(c, now);
    InterruptionAdds(c.record, Noisy(now), c.replaced);
    hide RunSince, EpisodeOf, BlameOf, StillSince, ReturnSince, Shaped, WhileNoisy;
  }

  /**
   An evaluation keeps every mark what the record says, and does exactly what is due: nothing is
   passed over, and nothing is done without its evidence.
   */
  lemma DecidedExactly(c: Course, t: Target, jump: bool, now: real, estimated: Option<Reading>, cal: Rigid)
    requires Sound(c) && now >= 0.0 && Unit(cal.rotation)
    ensures var v := Decided(c, t, jump, now, estimated, cal);
            Sound(v) && DecidesExactly(c, v, t, jump, now, estimated, cal)
  {
    UncorrectedIsSound(c);
    hide Sound, WhileQuiet, Exactly, Unit, WhileUnsettled, WhileNoisy, Withholds;
    match estimated
    case None =>
    case Some(r) =>
      var u, v := Uncorrected(c), Decided(c, t, jump, now, estimated, cal);
      if Quiet(c, t, r) {
        WhileQuietExactly(u, t, jump, now, r, cal);
        ExactlyLikewise(c, v, t, jump, now, r, cal);
        QuietEndsNoise(u, t, jump, now, r, cal);
      } else {
        if t.settling && !u.follow {
          UnsettledIs(u, t, now);
          UnsettledIsSound(u, now);
        } else {
          NoisyIs(u, t, now);
          NoisyIsSound(u, now);
        }
        WithholdsLikewise(c, v, t, now);
      }
  }

  /**
   The runs an evaluation looks for, in words: a freeze, a resume and an undo are due exactly if the
   readings up to this one have shown what they ask for, without a break, for that long.
   */
  lemma DuesAreRuns(c: Course, rec: seq<Note>, jump: bool, now: real)
    requires Rises(rec)
    ensures FreezeDue(c, rec, now) <==>
              && !c.state.Frozen? && !c.follow
              && exists since :: Lasted(since, now, FreezeConfirm) && Ongoing(rec, since, BeyondBand)
    ensures ResumeDue(c, rec, now) <==>
              && c.state.Frozen?
              && ((exists since :: Lasted(since, now, ResumeConfirm) && Ongoing(rec, since, WellInsideBand))
                  || exists since :: Lasted(since, now, ResumeInBand) && Ongoing(rec, since, WithinBand))
    ensures UndoDue(c, rec, jump, now) <==>
              && c.replaced.Some? && !jump
              && exists since :: Lasted(since, now, ResumeConfirm) && Ongoing(rec, since, FitsAgain(c.replaced.value))
    ensures ReanchorDue(rec, jump, now) ==>
              !jump && exists since, at :: Lasted(since, now, ReanchorConfirm) && Ongoing(rec, since, StandsStill(at))
  {
    LastedExactly(rec, now, FreezeConfirm, BeyondBand);
    LastedExactly(rec, now, ResumeConfirm, WellInsideBand);
    LastedExactly(rec, now, ResumeInBand, WithinBand);
    if c.replaced.Some? {
      LastedExactly(rec, now, ResumeConfirm, FitsAgain(c.replaced.value));
    }
    if StillSince(rec).since >= 0.0 {
      StandIsOngoing(rec);
    }
    hide Ongoing, Rises, RunSince, StillSince;
  }

  /** Note `j` is a reading that could be followed, with what the record knew by then. */
  predicate FollowableAt(record: seq<Note>, j: nat)
    requires j < |record|
  {
    Followable(record[j], EpisodeOf(record[..j + 1]), BlameOf(record[..j]))
  }

  /**
   A re-anchor is not missed either: an estimate that has stood where it was at a reading behind
   which nothing could be followed is marked since then, and followed once that was long enough ago.
   */
  lemma {:induction false} StandIsFound(record: seq<Note>, i: nat, now: real)
    requires i < |record| && Rises(record) && (i > 0 ==> !FollowableAt(record, i - 1))
    requires forall j :: i <= j < |record| ==> record[j].Read? && FollowableAt(record, j)
    requires forall j :: i < j < |record| ==> Steady(Measured(record[j].reading, record[i].reading.estimate))
    ensures record[i].time >= 0.0 && StillSince(record) == Stand(record[i].time, record[i].reading.estimate)
    ensures now - record[i].time >= ReanchorConfirm ==> ReanchorDue(record, false, now)
    decreases |record|
  {
    hide FollowableAt, Measured, Steady, StillSince, Rises;
    var n := |record| - 1;
    StandStep(record);
    RisesBefore(record, n);
    FollowableBefore(record, n);
    if i < n {
      StandIsFound(record[..n], i, now);
    } else if i > 0 {
      StandStep(record[..n]);
    } else {
      NothingStands();
    }
  }

  lemma NothingStands()
    ensures StillSince([]) == Moving
  {
  }

  lemma StandStep(record: seq<Note>)
    requires record != []
    ensures var n := |record| - 1;
            var before := StillSince(record[..n]);
            if !FollowableAt(record, n) then StillSince(record) == Moving
            else
              && record[n].Read?
              && StillSince(record) == if before.since < 0.0 || !Steady(Measured(record[n].reading, before.at))
                                       then Stand(record[n].time, record[n].reading.estimate) else before
  {
    assert record[..|record| - 1 + 1] == record;
    hide EpisodeOf, BlameOf, Measured, Steady, Blames;
  }

  /** What was known then does not depend on what came after. */
  lemma FollowableBefore(record: seq<Note>, n: nat)
    requires n <= |record|
    ensures forall j :: 0 <= j < n ==> (FollowableAt(record[..n], j) <==> FollowableAt(record, j))
  {
    forall j | 0 <= j < n ensures FollowableAt(record[..n], j) <==> FollowableAt(record, j) {
      assert record[..n][..j + 1] == record[..j + 1] && record[..n][..j] == record[..j];
    }
  }

  /** At most one thing is due at a time. */
  lemma DuesExclude(c: Course, t: Target, jump: bool, now: real, r: Reading, cal: Rigid)
    requires Sound(c)
    ensures var rec := Looked(c, t, now, r, cal);
            && (FreezeDue(c, rec, now) ==>
                 && Exceeds(Measured(r, cal)) && !ResumeDue(c, rec, now) && !UndoDue(c, rec, jump, now)
                 && !ReanchorDue(rec, jump, now) && !FollowDue(c, jump, r, cal))
            && (ResumeDue(c, rec, now) ==>
                 InBand(Measured(r, cal)) && !UndoDue(c, rec, jump, now) && !ReanchorDue(rec, jump, now) && !FollowDue(c, jump, r, cal))
            && (UndoDue(c, rec, jump, now) || ReanchorDue(rec, jump, now) ==> !FollowDue(c, jump, r, cal) && Stuck(r, cal))
            && !(UndoDue(c, rec, jump, now) && ReanchorDue(rec, jump, now))
            && (CorrectDue(c, r, cal) ==> !FollowDue(c, jump, r, cal))
  {
    var d := Measured(r, cal);
    if c.state.Frozen? {
      FrozenDue(c, t, jump, now, r, cal);
      NotFollowing(c);
      if !InBand(d) {
        TryingDue(c, t, now, r, cal);
      }
    } else if InBand(d) {
      InBandDue(c, t, jump, now, r, cal);
    } else if c.follow {
      FollowingDue(c, t, jump, now, r, cal);
    } else if Exceeds(d) {
      ExceedingDue(c, t, jump, now, r, cal);
    } else {
      TryingDue(c, t, now, r, cal);
    }
    hide Sound, Measured, RunSince, EpisodeOf, BlameOf, StillSince, Looked, RestartedIn, ReadAcross, Steady;
  }

  lemma NotFollowing(c: Course)
    requires Sound(c)
    ensures c.state.Frozen? ==> !c.follow
  {
    hide MarksAre;
  }

  /** A re-anchor goes to an estimate nothing puts down to the target, or that a later solution of it reads too. */
  lemma ReanchorIsUnblamed(c: Course, t: Target, jump: bool, now: real, r: Reading, cal: Rigid)
    requires Sound(c) && ReanchorDue(Looked(c, t, now, r, cal), jump, now)
    ensures var episode := EpisodeOf(Looked(c, t, now, r, cal));
            && t.restartsVisible && !c.follow && Stuck(r, cal)
            && (!RestartedIn(episode, t) || ReadAcross(c.blamed, episode, t, r))
  {
    var note := Read(now, r, cal, c.state.Frozen?, c.follow, c.replaced, t);
    OneReadingAdds(c, note);
    hide Measured, RunSince, EpisodeOf, BlameOf, StillSince, Steady, WellInside;
  }

  // ---------------------------------------------------------------------------
  // What else ends or interrupts a course
  // ---------------------------------------------------------------------------

  /** No fresh observation: what is confirmed starts over, and what was followed is lost from sight. */
  function Coasted(c: Course): Course {
    var b := Broke(c);
    if b.state.Tracking? || b.state.Holding? then
      Entered(b, Coasting).(events := b.events + [TrackerLost], record := b.record + [Ended])
    else b
  }

  function Recovered(c: Course): Course {
    if c.state.Coasting? then Entered(c, Inactive).(events := c.events + [TrackerRecovered]) else c
  }

  /** Nothing is evaluated any more: an episode ends with it. */
  function Deactivated(c: Course): Course {
    Entered(if c.state.Frozen? || c.state.Holding? then c.(record := c.record + [Ended]) else c, Inactive)
  }

  /** A gap keeps a freeze and what an undo would restore; any other break keeps neither. */
  function Restart(c: Course, gap: bool): Course {
    var b := Broke(c).(scatterSince := NotSet, unstable := false, reanchor := None, events := [],
                       replaced := if gap then c.replaced else None, blamed := if gap then c.blamed else None);
    var kept := if gap && (c.state.Frozen? || c.state.Coasting?) then c.state else Inactive;
    Entered(b, kept).(record := b.record + if !gap then [Forgot] else if kept.Frozen? then [] else [Ended])
  }

  function Switched(c: Course, follow: bool): Course {
    if follow == c.follow then c
    else
      var b := c.(follow := follow, exceededSince := NotSet, belowSince := NotSet, inBandSince := NotSet,
                  episodeSince := NotSet, reanchorSince := NotSet, undoSince := NotSet, replaced := None, blamed := None,
                  record := c.record + [Forgot]);
      if b.state.Frozen? then Entered(b, Holding) else b
  }

  /** A course that is not frozen has the marks of one with the same marks. */
  lemma SameMarks(c: Course, v: Course, record: seq<Note>)
    requires MarksAre(c, record) && !c.state.Frozen? && !v.state.Frozen? && v.follow == c.follow && v.replaced == c.replaced
    requires v.exceededSince == c.exceededSince && v.episodeSince == c.episodeSince && v.blamed == c.blamed
    requires v.reanchorSince == c.reanchorSince && v.reanchorRef == c.reanchorRef && v.undoSince == c.undoSince
    ensures MarksAre(v, record)
  {
    hide RunSince, EpisodeOf, BlameOf, StillSince, ReturnSince;
  }

  lemma ShapedFrozen(c: Course)
    requires Shaped(c) && (c.state.Frozen? || c.state.Holding?)
    ensures c.exceededSince == NotSet
  {
  }

  lemma BrokeIsSound(c: Course)
    requires Sound(c)
    ensures Sound(Broke(c)) && EpisodeOf(Broke(c).record) == c.episodeSince && BlameOf(Broke(c).record) == c.blamed
  {
    InterruptionAdds(c.record, Broken, c.replaced);
    hide RunSince, EpisodeOf, BlameOf, StillSince, ReturnSince, Unit;
  }

  /** Without a fresh observation what was followed is lost from sight, and a freeze stays. */
  lemma CoastedExactly(c: Course)
    requires Sound(c)
    ensures var v := Coasted(c);
            && Sound(v) && !v.eligible && v.correction.None? && SameCalibration(c, v) && v.follow == c.follow
            && v.state == (if c.state.Tracking? || c.state.Holding? then Coasting else c.state)
            && v.events == c.events + if c.state.Tracking? || c.state.Holding? then [TrackerLost] else []
  {
    CoastedIsSound(c);
    EnteredAway(Broke(c), Coasting);
    hide Sound, Shaped, MarksAre, Entered;
  }

  lemma EnteredAway(c: Course, s: State)
    requires s.Inactive? || s.Coasting?
    ensures Entered(c, s) == c.(state := s, eligible := false, correction := None, episodeSince := NotSet,
                                reanchorSince := NotSet, undoSince := NotSet)
  {
  }

  lemma CoastedIsSound(c: Course)
    requires Sound(c)
    ensures Sound(Coasted(c))
  {
    BrokeIsSound(c);
    InterruptionAdds(c.record + [Broken], Ended, c.replaced);
    hide RunSince, EpisodeOf, BlameOf, StillSince, ReturnSince, Unit;
  }

  lemma RecoveredExactly(c: Course)
    requires Sound(c)
    ensures var v := Recovered(c);
            && Sound(v) && SameCalibration(c, v) && v.follow == c.follow && v.record == c.record
            && v.state == (if c.state.Coasting? then Inactive else c.state) && v.eligible == c.eligible
            && v.correction == c.correction && v.events == c.events + if c.state.Coasting? then [TrackerRecovered] else []
  {
    hide RunSince, EpisodeOf, BlameOf, StillSince, ReturnSince, Unit;
  }

  lemma DeactivatedExactly(c: Course)
    requires Sound(c)
    ensures var v := Deactivated(c);
            && Sound(v) && v.state.Inactive? && !v.eligible && v.correction.None? && SameCalibration(c, v)
            && v.follow == c.follow && v.events == c.events
  {
    var v := Deactivated(c);
    assert Shaped(v) && c.blamed == BlameOf(c.record) by {
      hide RunSince, EpisodeOf, BlameOf, StillSince, ReturnSince, Unit;
    }
    if c.state.Frozen? || c.state.Holding? {
      hide Unit, MarksAre, Shaped;
      ShapedFrozen(c);
      EndedIsSound(v, c.record, Ended);
    } else {
      SameMarks(c, v, c.record);
      hide Unit, MarksAre;
    }
  }

  lemma RestartIsSound(c: Course, gap: bool)
    requires Sound(c)
    ensures Sound(Restart(c, gap))
  {
    var v := Restart(c, gap);
    assert Shaped(v) by {
      hide MarksAre, Unit;
    }
    if gap && c.state.Frozen? {
      InterruptionAdds(c.record, Broken, c.replaced);
      assert v.record == c.record + [Broken];
      hide RunSince, EpisodeOf, BlameOf, StillSince, ReturnSince, Shaped;
    } else {
      InterruptionAdds(c.record, Broken, None);
      hide RunSince, EpisodeOf, BlameOf, StillSince, ReturnSince, Shaped, Sound;
      EndedIsSound(v, c.record + [Broken], if gap then Ended else Forgot);
    }
  }

  lemma RestartKeeps(c: Course, gap: bool)
    requires Sound(c)
    ensures var v := Restart(c, gap);
            && Sound(v) && !v.eligible && v.correction.None? && v.anchors == c.anchors && v.reanchor.None?
            && v.replaced == (if gap then c.replaced else None) && v.blamed == (if gap then c.blamed else None)
            && v.state == (if gap && (c.state.Frozen? || c.state.Coasting?) then c.state else Inactive)
            && v.follow == c.follow && v.events == []
            && (v.state.Frozen? ==> v.episodeSince == c.episodeSince)
  {
    RestartIsSound(c, gap);
    hide Sound;
  }

  lemma SwitchedKeeps(c: Course, follow: bool)
    requires Sound(c)
    ensures var v := Switched(c, follow);
            && Sound(v) && v.anchors == c.anchors && v.reanchor == c.reanchor && v.follow == follow
            && (follow != c.follow ==> v.replaced.None? && v.blamed.None?)
            && v.state == (if follow != c.follow && c.state.Frozen? then Holding else c.state)
            && v.eligible == c.eligible && v.correction == c.correction
  {
    InterruptionAdds(c.record, Forgot, None);
    hide RunSince, EpisodeOf, BlameOf, StillSince, ReturnSince, Unit;
  }
}
