/**
 The overlay's conversation with the driver: a worker thread that coalesces submitted states and
 lets a neutralization hold them back, and the tracker that decides which of the driver's verdicts
 still answers what is on the wire.

 Every public operation holds the worker's mutex, so each is one step; the worker's own steps are
 taking a job and finishing it. The caller's thread submits, polls and notes.
 */
module DriverSync {
  import opened Common

  /** A complete desired state; two are the same when the driver would be asked the same. */
  type Job = nat

  datatype Work =
    | Synchronize(sequence: nat, job: Job)
    | Disable(sequence: nat, devices: seq<nat>)

  datatype Completion = Completion(work: Work, succeeded: bool)

  datatype Tracker = Tracker(
    latestSequence: nat, latestStateChangeSequence: nat, lastAcceptedVerdictSequence: nat,
    lastVerdictRefused: bool, stateChangedSinceVerdict: bool)
  {
    predicate HoldsRefusal() { lastVerdictRefused && !stateChangedSinceVerdict }
  }

  datatype Sync = Sync(
    nextSequence: nat, lastSubmission: Option<Job>,
    pendingState: Option<Work>, pendingNeutralization: Option<Work>,
    held: bool, stopping: bool, exited: bool,
    running: Option<Work>, completions: seq<Completion>,
    tracker: Tracker,
    sent: map<nat, Job>,          // what was submitted under each sequence number
    verdicts: map<nat, bool>,     // the verdicts accepted
    statesTaken: nat)             // how many states the worker has taken

  const Fresh := Sync(0, None, None, None, false, false, false, None, [], Tracker(0, 0, 0, false, false), map[], map[], 0)

  // ---------------------------------------------------------------------------
  // The steps
  // ---------------------------------------------------------------------------

  function NotedSubmission(t: Tracker, sequence: nat, stateChanged: bool): Tracker {
    var u := t.(latestSequence := sequence);
    if stateChanged then u.(latestStateChangeSequence := sequence, stateChangedSinceVerdict := true) else u
  }

  /** A verdict counts if it is at least as new as the state it would speak of. */
  predicate Accepts(t: Tracker, sequence: nat) {
    sequence >= t.latestStateChangeSequence
  }

  function NotedVerdict(t: Tracker, sequence: nat, synchronized: bool): Tracker {
    if !Accepts(t, sequence) then t
    else t.(lastAcceptedVerdictSequence := sequence, lastVerdictRefused := !synchronized, stateChangedSinceVerdict := false)
  }

  /** A newer state replaces one that was not taken yet. */
  function Submitted(s: Sync, job: Job): Sync {
    var sequence := s.nextSequence + 1;
    s.(nextSequence := sequence, lastSubmission := Some(job), pendingState := Some(Synchronize(sequence, job)),
    tracker := NotedSubmission(s.tracker, sequence, s.lastSubmission != Some(job)), sent := s.sent[sequence := job])
  }

  function Neutralized(s: Sync, devices: seq<nat>): Sync {
    var sequence := s.nextSequence + 1;
    s.(nextSequence := sequence, held := true, pendingNeutralization := Some(Disable(sequence, devices)))
  }

  function Polled(s: Sync): Sync {
    if s.completions == [] then s
    else
      var done := s.completions[0];
      var t := s.(completions := s.completions[1..]);
      if done.work.Disable? then t
      else if !Accepts(s.tracker, done.work.sequence) then t
      else t.(tracker := NotedVerdict(s.tracker, done.work.sequence, done.succeeded),
           verdicts := s.verdicts[done.work.sequence := done.succeeded])
  }

  /** What the worker finds to do, neutralizations first. */
  function Next(s: Sync): Option<Work> {
    if s.pendingNeutralization.Some? then s.pendingNeutralization
    else if s.pendingState.Some? && !s.held then s.pendingState
    else None
  }

  function Taken(s: Sync): Sync {
    if s.exited || s.running.Some? then s
    else
      match Next(s)
      case Some(work) =>
        if work.Disable? then s.(running := Some(work), pendingNeutralization := None)
        else s.(running := Some(work), pendingState := None, statesTaken := s.statesTaken + 1)
      case None => s.(exited := s.stopping)
  }

  function Finished(s: Sync, succeeded: bool): Sync {
    if s.running.None? then s
    else s.(running := None, completions := s.completions + [Completion(s.running.value, succeeded)])
  }

  datatype Event =
    | Submit(job: Job) | Neutralize(devices: seq<nat>) | Release | Stop | Poll
    | Take | Finish(succeeded: bool)

  function After(s: Sync, event: Event): Sync {
    match event
    case Submit(job) => Submitted(s, job)
    case Neutralize(devices) => Neutralized(s, devices)
    case Release => s.(held := false)
    case Stop => s.(stopping := true, held := false)
    case Poll => Polled(s)
    case Take => Taken(s)
    case Finish(succeeded) => Finished(s, succeeded)
  }

  function Run(s: Sync, events: seq<Event>): Sync
    decreases |events|
  {
    if events == [] then s else Run(After(s, events[0]), events[1..])
  }

  // ---------------------------------------------------------------------------
  // The invariant
  // ---------------------------------------------------------------------------

  /** The states on their way, oldest first: finished, in the driver, waiting. */
  function OnTheWay(s: Sync): seq<Work> {
    States(s.completions) + Maybe(s.running) + Maybe(s.pendingState)
  }

  function States(completions: seq<Completion>): seq<Work> {
    if completions == [] then []
    else (if completions[0].work.Synchronize? then [completions[0].work] else []) + States(completions[1..])
  }

  function Maybe(work: Option<Work>): seq<Work> {
    if work.Some? && work.value.Synchronize? then [work.value] else []
  }

  predicate Rising(works: seq<Work>, above: nat) {
    works == [] || (works[0].sequence > above && Rising(works[1..], works[0].sequence))
  }

  predicate AreSent(sent: map<nat, Job>, works: seq<Work>) {
    forall i :: 0 <= i < |works| ==>
      works[i].Synchronize? && works[i].sequence in sent && sent[works[i].sequence] == works[i].job
  }

  function Latest(works: seq<Work>, otherwise: nat): nat {
    if works == [] then otherwise else works[|works| - 1].sequence
  }

  predicate Inv(s: Sync) {
    && (s.pendingState.Some? ==> s.pendingState.value.Synchronize?)
    && (s.pendingNeutralization.Some? ==> s.pendingNeutralization.value.Disable?)
    && Queued(s, OnTheWay(s)) && Submissions(s) && VerdictsRecorded(s)
       // No state is in the driver once the neutralization is.
    && (s.held && s.pendingNeutralization.None? ==> Maybe(s.running) == [])
  }

  /** Everything submitted is on its way or answered, and is answered in order. */
  predicate Queued(s: Sync, works: seq<Work>) {
    && Rising(works, s.tracker.lastAcceptedVerdictSequence) && AreSent(s.sent, works)
    && Latest(works, s.tracker.lastAcceptedVerdictSequence) == s.tracker.latestSequence
  }

  /** Since the latest change only the last submission has been sent. */
  predicate Submissions(s: Sync) {
    && (forall k :: k in s.sent ==> 1 <= k <= s.tracker.latestSequence)
    && s.tracker.latestSequence <= s.nextSequence
    && (s.lastSubmission.None? ==> s.tracker.latestSequence == 0)
    && s.tracker.latestStateChangeSequence <= s.tracker.latestSequence
    && (s.lastSubmission.Some? ==>
         forall k :: k in s.sent && k >= s.tracker.latestStateChangeSequence ==> s.sent[k] == s.lastSubmission.value)
  }

  predicate VerdictsRecorded(s: Sync) {
    && (s.tracker.lastVerdictRefused <==>
         s.tracker.lastAcceptedVerdictSequence in s.verdicts && !s.verdicts[s.tracker.lastAcceptedVerdictSequence])
    && s.verdicts.Keys <= s.sent.Keys
    && (!s.tracker.stateChangedSinceVerdict <==>
         s.tracker.lastAcceptedVerdictSequence >= s.tracker.latestStateChangeSequence)
  }

  lemma FreshIsInv()
    ensures Inv(Fresh)
  {
  }

  // --- lists of states ---

  lemma {:induction false} RisingAppend(works: seq<Work>, above: nat, last: Work)
    requires Rising(works, above) && last.sequence > Latest(works, above)
    ensures Rising(works + [last], above)
    decreases |works|
  {
    if works == [] {
      assert [last][1..] == [];
    } else {
      assert (works + [last])[1..] == works[1..] + [last];
      RisingAppend(works[1..], works[0].sequence, last);
    }
  }

  lemma {:induction false} RisingPrefix(works: seq<Work>, last: Work, above: nat)
    requires Rising(works + [last], above)
    ensures Rising(works, above) && last.sequence > Latest(works, above)
    decreases |works|
  {
    if works != [] {
      assert (works + [last])[1..] == works[1..] + [last];
      RisingPrefix(works[1..], last, works[0].sequence);
    } else {
      assert (works + [last])[0] == last;
    }
  }

  lemma RisingLower(works: seq<Work>, above: nat, lower: nat)
    requires Rising(works, above) && lower <= above
    ensures Rising(works, lower)
  {
  }

  lemma {:induction false} StatesAppend(completions: seq<Completion>, last: Completion)
    ensures States(completions + [last]) == States(completions) + Maybe(Some(last.work))
    decreases |completions|
  {
    if completions == [] {
      assert [last][1..] == [];
      FirstOfStates([last]);
    } else {
      assert (completions + [last])[1..] == completions[1..] + [last];
      StatesAppend(completions[1..], last);
      FirstOfStates(completions);
      FirstOfStates(completions + [last]);
      hide States;
    }
  }

  // --- each step ---

  lemma SubmittedKeeps(s: Sync, job: Job)
    requires Inv(s)
    ensures Inv(Submitted(s, job))
  {
    var t := Submitted(s, job);
    var before := States(s.completions) + Maybe(s.running);
    assert OnTheWay(s) == before + Maybe(s.pendingState);
    assert OnTheWay(t) == before + [t.pendingState.value];
    QueuedSubmission(s, t, before);
    hide Queued, OnTheWay, States, Maybe;
  }

  lemma QueuedSubmission(s: Sync, t: Sync, before: seq<Work>)
    requires Submissions(s) && Queued(s, before + Maybe(s.pendingState))
    requires t.tracker.latestSequence == s.nextSequence + 1 && t.pendingState.Some?
    requires t.tracker.lastAcceptedVerdictSequence == s.tracker.lastAcceptedVerdictSequence
    requires t.pendingState.value.Synchronize? && t.pendingState.value.sequence == s.nextSequence + 1
    requires t.sent == s.sent[s.nextSequence + 1 := t.pendingState.value.job]
    ensures Queued(t, before + [t.pendingState.value])
  {
    hide Rising;
    if s.pendingState.Some? && s.pendingState.value.Synchronize? {
      RisingPrefix(before, s.pendingState.value, s.tracker.lastAcceptedVerdictSequence);
    } else {
      assert before + Maybe(s.pendingState) == before;
    }
    RisingAppend(before, s.tracker.lastAcceptedVerdictSequence, t.pendingState.value);
    assert forall i :: 0 <= i < |before| ==> before[i] == (before + Maybe(s.pendingState))[i];
  }

  lemma PolledKeeps(s: Sync)
    requires Inv(s)
    ensures Inv(Polled(s))
  {
    hide Inv;
    if s.completions == [] {
    } else if s.completions[0].work.Disable? {
      PolledDisable(s);
    } else {
      PolledVerdict(s);
    }
  }

  lemma PolledDisable(s: Sync)
    requires Inv(s) && s.completions != [] && s.completions[0].work.Disable?
    ensures Inv(Polled(s))
  {
    hide Queued, OnTheWay, States, Submissions;
    PolledShortens(s);
    QueuedSame(s, Polled(s), OnTheWay(s));
    SubmissionsSame(s, Polled(s));
  }

  lemma PolledVerdict(s: Sync)
    requires Inv(s) && s.completions != [] && s.completions[0].work.Synchronize?
    ensures Inv(Polled(s))
  {
    hide Queued, OnTheWay, States, Submissions, Maybe, VerdictsRecorded, Polled;
    PolledFrame(s);
    PolledShortens(s);
    assert Maybe(Some(s.completions[0].work)) == [s.completions[0].work] by { SingleState(s.completions[0].work); }
    QueuedTail(s, Polled(s), s.completions[0].work, OnTheWay(Polled(s)));
    SubmissionsSame(s, Polled(s));
    VerdictIsRecorded(s);
  }

  lemma VerdictIsRecorded(s: Sync)
    requires VerdictsRecorded(s) && s.completions != [] && s.completions[0].work.Synchronize?
    requires s.completions[0].work.sequence in s.sent
    ensures VerdictsRecorded(Polled(s))
  {
  }

  lemma SingleState(work: Work)
    requires work.Synchronize?
    ensures Maybe(Some(work)) == [work]
  {
  }

  lemma SubmissionsSame(s: Sync, t: Sync)
    requires Submissions(s) && t.sent == s.sent && t.nextSequence == s.nextSequence
    requires t.lastSubmission == s.lastSubmission && t.tracker.latestSequence == s.tracker.latestSequence
    requires t.tracker.latestStateChangeSequence == s.tracker.latestStateChangeSequence
    ensures Submissions(t)
  {
  }

  lemma PolledShortens(s: Sync)
    requires s.completions != []
    ensures OnTheWay(s) == Maybe(Some(s.completions[0].work)) + OnTheWay(Polled(s))
    ensures s.completions[0].work.Disable? ==> OnTheWay(s) == OnTheWay(Polled(s))
  {
    hide States, Polled;
    PolledFrame(s);
    FirstOfStates(s.completions);
    var first, rest := Maybe(Some(s.completions[0].work)), States(s.completions[1..]);
    assert (first + rest) + Maybe(s.running) + Maybe(s.pendingState) ==
           first + (rest + Maybe(s.running) + Maybe(s.pendingState));
    if s.completions[0].work.Disable? {
      assert first == [];
    }
  }

  lemma PolledFrame(s: Sync)
    requires s.completions != []
    ensures Polled(s).completions == s.completions[1..] && Polled(s).running == s.running
    ensures Polled(s).pendingState == s.pendingState && Polled(s).sent == s.sent
    ensures Polled(s).pendingNeutralization == s.pendingNeutralization && Polled(s).held == s.held
    ensures Polled(s).nextSequence == s.nextSequence && Polled(s).lastSubmission == s.lastSubmission
    ensures Polled(s).tracker.latestSequence == s.tracker.latestSequence
    ensures Polled(s).tracker.latestStateChangeSequence == s.tracker.latestStateChangeSequence
    ensures var first := s.completions[0].work;
            Polled(s).tracker.lastAcceptedVerdictSequence ==
            if first.Synchronize? && Accepts(s.tracker, first.sequence) then first.sequence
            else s.tracker.lastAcceptedVerdictSequence
  {
  }

  lemma QueuedSame(s: Sync, t: Sync, works: seq<Work>)
    requires Queued(s, works) && t.sent == s.sent && t.tracker == s.tracker
    ensures Queued(t, works)
  {
  }

  lemma QueuedTail(s: Sync, t: Sync, first: Work, rest: seq<Work>)
    requires Submissions(s) && Queued(s, [first] + rest) && t == Polled(s)
    requires s.completions != [] && first == s.completions[0].work
    ensures Queued(t, rest)
    ensures first.Synchronize? && first.sequence in s.sent && s.sent[first.sequence] == first.job
    ensures first.sequence > s.tracker.lastAcceptedVerdictSequence
  {
    hide Rising, Polled;
    PolledFrame(s);
    var all := [first] + rest;
    RisingTail(first, rest, s.tracker.lastAcceptedVerdictSequence);
    assert all[0] == first && all[1..] == rest;
    assert forall i :: 0 <= i < |rest| ==> rest[i] == all[i + 1];
  }

  lemma FirstOfStates(completions: seq<Completion>)
    requires completions != []
    ensures States(completions) == Maybe(Some(completions[0].work)) + States(completions[1..])
  {
  }

  lemma RisingTail(first: Work, rest: seq<Work>, above: nat)
    requires Rising([first] + rest, above)
    ensures first.sequence > above && Rising(rest, first.sequence) && Rising(rest, above)
  {
    assert ([first] + rest)[0] == first && ([first] + rest)[1..] == rest;
    RisingLower(rest, first.sequence, above);
  }

  lemma TakenKeeps(s: Sync)
    requires Inv(s)
    ensures Inv(Taken(s))
  {
    hide Rising, States;
    assert OnTheWay(Taken(s)) == OnTheWay(s);
  }

  lemma FinishedKeeps(s: Sync, succeeded: bool)
    requires Inv(s)
    ensures Inv(Finished(s, succeeded))
  {
    if s.running.Some? {
      StatesAppend(s.completions, Completion(s.running.value, succeeded));
      assert OnTheWay(Finished(s, succeeded)) == OnTheWay(s);
    }
  }

  lemma AfterKeeps(s: Sync, event: Event)
    requires Inv(s)
    ensures Inv(After(s, event))
  {
    hide Queued, Submitted, Polled, Taken, Finished;
    match event
    case Submit(job) => SubmittedKeeps(s, job);
    case Poll => PolledKeeps(s);
    case Take => TakenKeeps(s);
    case Finish(succeeded) => FinishedKeeps(s, succeeded);
    case _ => {
      var t := After(s, event);
      assert OnTheWay(t) == OnTheWay(s);
      QueuedSame(s, t, OnTheWay(s));
    }
  }

  lemma {:induction false} RunKeeps(s: Sync, events: seq<Event>)
    requires Inv(s)
    ensures Inv(Run(s, events))
    decreases |events|
  {
    if events != [] {
      AfterKeeps(s, events[0]);
      RunKeeps(After(s, events[0]), events[1..]);
    }
  }

  // ---------------------------------------------------------------------------
  // What the verdicts mean
  // ---------------------------------------------------------------------------

  /** A verdict that is taken answers a state equal to the last one submitted. */
  lemma AcceptedVerdictIsCurrent(events: seq<Event>)
    ensures var s := Run(Fresh, events);
            s.completions != [] && s.completions[0].work.Synchronize? && Accepts(s.tracker, s.completions[0].work.sequence)
            ==> s.lastSubmission == Some(s.completions[0].work.job)
                && s.completions[0].work.sequence > s.tracker.lastAcceptedVerdictSequence
  {
    FreshIsInv();
    RunKeeps(Fresh, events);
    var s := Run(Fresh, events);
    if s.completions != [] && s.completions[0].work.Synchronize? {
      assert OnTheWay(s)[0] == s.completions[0].work;
    }
  }

  /**
   A refusal is held exactly when the last verdict taken refused and the state has not changed since;
   it was then given to the last state submitted, and nothing else was sent since.
   */
  lemma HeldRefusalIsCurrent(events: seq<Event>)
    ensures var s := Run(Fresh, events);
            var k := s.tracker.lastAcceptedVerdictSequence;
            && (s.tracker.HoldsRefusal() <==>
                 k in s.verdicts && !s.verdicts[k] && k >= s.tracker.latestStateChangeSequence)
            && (s.tracker.HoldsRefusal() ==>
                 && k in s.sent && s.lastSubmission == Some(s.sent[k])
                 && forall later :: later in s.sent && later >= k ==> s.sent[later] == s.sent[k])
  {
    FreshIsInv();
    RunKeeps(Fresh, events);
  }

  predicate Quiet(s: Sync) {
    s.running.None? && s.completions == [] && Next(s).None? && !s.held
  }

  /** Once nothing is held and nothing is left to do, the last verdict answers the latest submission. */
  lemma QuietIsAnswered(events: seq<Event>)
    ensures var s := Run(Fresh, events);
            Quiet(s) && s.sent != map[] ==> s.tracker.lastAcceptedVerdictSequence == s.tracker.latestSequence
                                            && !s.tracker.stateChangedSinceVerdict
  {
    FreshIsInv();
    RunKeeps(Fresh, events);
  }

  /** How far a worker and a caller that only finish what there is are from that. */
  function Left(s: Sync): nat {
    3 * (|Maybe(s.pendingState)| + (if s.pendingNeutralization.Some? then 1 else 0))
    + (if s.running.Some? then 2 else 0) + |s.completions|
  }

  lemma WorkRunsOut(s: Sync, succeeded: bool)
    requires Inv(s) && !s.exited
    ensures s.completions != [] ==> Left(Polled(s)) < Left(s)
    ensures s.running.Some? ==> Left(Finished(s, succeeded)) < Left(s)
    ensures s.running.None? && Next(s).Some? ==> Left(Taken(s)) < Left(s) && Taken(s).running == Next(s)
    ensures s.running.None? && Next(s).None? ==> Taken(s).exited == s.stopping
  {
    hide Inv, NotedVerdict, Accepts, States, OnTheWay;
    KindsOf(s);
  }

  lemma KindsOf(s: Sync)
    requires Inv(s)
    ensures s.pendingState.Some? ==> s.pendingState.value.Synchronize?
    ensures s.pendingNeutralization.Some? ==> s.pendingNeutralization.value.Disable?
  {
  }

  // ---------------------------------------------------------------------------
  // What a neutralization holds back
  // ---------------------------------------------------------------------------

  predicate NoRelease(events: seq<Event>) {
    forall i :: 0 <= i < |events| ==> !events[i].Release? && !events[i].Stop?
  }

  lemma HoldStep(s: Sync, event: Event)
    requires Inv(s) && s.held && !event.Release? && !event.Stop?
    ensures Inv(After(s, event)) && After(s, event).held && After(s, event).statesTaken == s.statesTaken
  {
    hide Inv, Next, NotedSubmission, NotedVerdict, Accepts;
    AfterKeeps(s, event);
    NextIsNeutralization(s);
  }

  lemma NextIsNeutralization(s: Sync)
    requires Inv(s) && s.held
    ensures Next(s).Some? ==> Next(s).value.Disable?
  {
  }

  lemma {:induction false} HoldKeeps(s: Sync, events: seq<Event>)
    requires Inv(s) && s.held && NoRelease(events)
    ensures Inv(Run(s, events)) && Run(s, events).held && Run(s, events).statesTaken == s.statesTaken
    decreases |events|
  {
    hide Inv, After;
    if events != [] {
      HoldStep(s, events[0]);
      HoldKeeps(After(s, events[0]), events[1..]);
    }
  }

  /**
   From the moment a neutralization is asked for until it is released or the worker is stopped, the
   worker takes no state; and once the neutralization itself has been taken, none is in the driver.
   */
  lemma NeutralizeHoldsStates(before: seq<Event>, devices: seq<nat>, events: seq<Event>)
    requires NoRelease(events)
    ensures var s := Run(Fresh, before);
            var t := Run(Neutralized(s, devices), events);
            && t.statesTaken == s.statesTaken
            && (t.pendingNeutralization.None? ==> Maybe(t.running) == [])
  {
    FreshIsInv();
    RunKeeps(Fresh, before);
    var s := Run(Fresh, before);
    AfterKeeps(s, Neutralize(devices));
    HoldKeeps(Neutralized(s, devices), events);
    hide Queued, Submissions, VerdictsRecorded;
  }

  /**
   What the worker takes for a neutralization is the last one asked for, with the devices of that
   call: until it has it in hand, that one waits.
   */
  lemma {:induction false} NeutralizesTheLastAsked(s: Sync, devices: seq<nat>, events: seq<Event>)
    requires forall i :: 0 <= i < |events| ==> !events[i].Neutralize?
    ensures var asked := Some(Disable(s.nextSequence + 1, devices));
            || Run(Neutralized(s, devices), events).pendingNeutralization == asked
            || exists k :: 0 <= k <= |events| && Run(Neutralized(s, devices), events[..k]).running == asked
  {
    StaysOrIsTaken(Neutralized(s, devices), Disable(s.nextSequence + 1, devices), events);
  }

  lemma {:induction false} StaysOrIsTaken(s: Sync, work: Work, events: seq<Event>)
    requires s.pendingNeutralization == Some(work) && work.Disable?
    requires forall i :: 0 <= i < |events| ==> !events[i].Neutralize?
    ensures || Run(s, events).pendingNeutralization == Some(work)
            || exists k :: 0 <= k <= |events| && Run(s, events[..k]).running == Some(work)
    decreases |events|
  {
    if events != [] {
      var t := After(s, events[0]);
      if t.pendingNeutralization == Some(work) {
        StaysOrIsTaken(t, work, events[1..]);
        if k :| 0 <= k < |events| && Run(t, events[1..][..k]).running == Some(work) {
          assert events[..k + 1][1..] == events[1..][..k];
          assert Run(s, events[..k + 1]) == Run(t, events[1..][..k]);
        }
      } else {
        assert t.running == Some(work);
        assert events[..1][1..] == [];
        assert Run(s, events[..1]) == t;
      }
    }
  }

  // ---------------------------------------------------------------------------
  // The objects, updated in place
  // ---------------------------------------------------------------------------

  class DriverSyncTracker {
    var latestSequence: nat
    var latestStateChangeSequence: nat
    var lastAcceptedVerdictSequence: nat
    var lastVerdictRefused: bool
    var stateChangedSinceVerdict: bool

    function View(): Tracker
      reads this
    {
      Tracker(latestSequence, latestStateChangeSequence, lastAcceptedVerdictSequence,
              lastVerdictRefused, stateChangedSinceVerdict)
    }

    constructor ()
      ensures View() == Fresh.tracker
    {
      latestSequence, latestStateChangeSequence, lastAcceptedVerdictSequence := 0, 0, 0;
      lastVerdictRefused, stateChangedSinceVerdict := false, false;
    }

    method NoteSubmission(sequence: nat, stateChanged: bool) returns (holds: bool)
      modifies this
      ensures View() == NotedSubmission(old(View()), sequence, stateChanged)
      ensures holds == View().HoldsRefusal()
    {
      latestSequence := sequence;
      if stateChanged {
        latestStateChangeSequence := sequence;
        stateChangedSinceVerdict := true;
      }
      holds := lastVerdictRefused && !stateChangedSinceVerdict;
    }

    method NoteVerdict(sequence: nat, synchronized: bool) returns (accepted: bool)
      modifies this
      ensures View() == NotedVerdict(old(View()), sequence, synchronized)
      ensures accepted == Accepts(old(View()), sequence)
    {
      if sequence < latestStateChangeSequence {
        return false;
      }
      lastAcceptedVerdictSequence := sequence;
      lastVerdictRefused := !synchronized;
      stateChangedSinceVerdict := false;
      return true;
    }
  }

  /** The worker and the tracker beside it. */
  class CalibrationDriver {
    const tracker: DriverSyncTracker

    var nextSequence: nat
    var lastSubmission: Option<Job>
    var pendingState: Option<Work>
    var pendingNeutralization: Option<Work>
    var neutralizationHeld: bool
    var stopping: bool
    var exited: bool
    var running: Option<Work>
    var completions: seq<Completion>

    ghost var sent: map<nat, Job>
    ghost var verdicts: map<nat, bool>
    ghost var statesTaken: nat

    ghost function View(): Sync
      reads this, tracker
    {
      Sync(nextSequence, lastSubmission, pendingState, pendingNeutralization, neutralizationHeld, stopping, exited,
           running, completions, tracker.View(), sent, verdicts, statesTaken)
    }

    constructor ()
      ensures View() == Fresh && fresh(tracker)
    {
      tracker := new DriverSyncTracker();
      nextSequence, lastSubmission, pendingState, pendingNeutralization := 0, None, None, None;
      neutralizationHeld, stopping, exited, running, completions := false, false, false, None, [];
      sent, verdicts, statesTaken := map[], map[], 0;
    }

    /** Submits a state; the result says the driver refused this very state and was asked nothing else since. */
    method Submit(job: Job) returns (staysDisabled: bool)
      modifies this, tracker
      ensures View() == Submitted(old(View()), job) && staysDisabled == View().tracker.HoldsRefusal()
    {
      var sequence := nextSequence + 1;
      nextSequence := sequence;
      var stateChanged := lastSubmission != Some(job);
      lastSubmission := Some(job);
      pendingState := Some(Synchronize(sequence, job));
      sent := sent[sequence := job];
      staysDisabled := tracker.NoteSubmission(sequence, stateChanged);
    }

    method Neutralize(devices: seq<nat>) returns (sequence: nat)
      modifies this
      ensures View() == Neutralized(old(View()), devices) && sequence == View().nextSequence
    {
      sequence := nextSequence + 1;
      nextSequence := sequence;
      neutralizationHeld := true;
      pendingNeutralization := Some(Disable(sequence, devices));
    }

    method ReleaseNeutralization()
      modifies `neutralizationHeld
      ensures View() == After(old(View()), Release)
    {
      neutralizationHeld := false;
    }

    method Stop()
      modifies `stopping, `neutralizationHeld
      ensures View() == After(old(View()), Event.Stop)
    {
      stopping := true;
      neutralizationHeld := false;
    }

    /** The worker wakes: a neutralization first, then a state nothing holds back, then the end. */
    method TakeWork()
      requires pendingNeutralization.Some? ==> pendingNeutralization.value.Disable?
      requires pendingState.Some? ==> pendingState.value.Synchronize?
      modifies this
      ensures View() == Taken(old(View()))
    {
      if exited || running.Some? {
        return;
      }
      if pendingNeutralization.Some? {
        running := pendingNeutralization;
        pendingNeutralization := None;
      } else if pendingState.Some? && !neutralizationHeld {
        running := pendingState;
        pendingState := None;
        statesTaken := statesTaken + 1;
      } else if stopping {
        exited := true;
      }
    }

    /** The driver answered, or the transport gave up. */
    method Complete(succeeded: bool)
      modifies `running, `completions
      ensures View() == Finished(old(View()), succeeded)
    {
      if running.Some? {
        completions := completions + [Completion(running.value, succeeded)];
        running := None;
      }
    }

    method PollOne() returns (done: Completion, accepted: bool)
      requires completions != []
      modifies this, tracker
      ensures View() == Polled(old(View())) && done == old(completions)[0]
      ensures accepted == (done.work.Synchronize? && Accepts(old(tracker.View()), done.work.sequence))
    {
      done := completions[0];
      completions := completions[1..];
      accepted := false;
      if done.work.Synchronize? {
        accepted := tracker.NoteVerdict(done.work.sequence, done.succeeded);
        if accepted {
          verdicts := verdicts[done.work.sequence := done.succeeded];
        }
      }
    }

    method PollCalibrationDriver()
      modifies this, tracker
      ensures View() == Drained(old(View())) && completions == []
    {
      while completions != []
        invariant Drained(View()) == Drained(old(View()))
        decreases |completions|
      {
        var done, accepted := PollOne();
      }
    }
  }

  function Drained(s: Sync): Sync
    decreases |s.completions|
  {
    if s.completions == [] then s else Drained(Polled(s))
  }
}
