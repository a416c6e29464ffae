/**
 Jump candidates and the deltas made of them. A worldFromDriver rebase of the headset is exact and
 taken at once; a step of the composed pose waits for other devices' votes. Each candidate is
 evidence for one delta at most, each device has one vote, and the headset anchors every vote.

 The window fits, the continuity tests and the yaw projection enter by their results.
 */
module JumpDetector {
  import opened Common
  import opened Rotations
  import opened Counting

  const Hmd: nat := 0
  const AgreeWindow: real := 0.25
  const Window: real := 0.2
  const LeadSeconds: real := 5.0
  const FollowSeconds: real := 30.0
  const KeepSeconds: real := 5.45
  const ActiveSeconds: real := 1.0

  datatype Kind = Exact | Heuristic
  datatype Life = Pending | Ready | Dead

  datatype Candidate = Candidate(
    serial: nat, device: nat, time: real, kind: Kind, life: Life, delta: Rigid, yaw: real,
    windowStart: real, needsCorroboration: bool, followDeadline: real, lastHoldCheck: real,
    heldPosition: bool, driftCatchUp: bool, settledSolo: bool)
  {
    predicate LiveExact() { kind.Exact? && !life.Dead? }
    predicate ReadyHeuristic() { kind.Heuristic? && life.Ready? }
  }

  datatype Delta = Delta(transform: Rigid, time: real, exact: bool, devicesAgreeing: nat)

  datatype DeviceState = DeviceState(frameValid: bool, frame: Rigid, lastValidTime: real, repeatedPositions: nat)

  /** How two candidates' steps compare; the bounds are tighter when either is small. */
  datatype Tolerances = Tolerances(agree: (Candidate, Candidate) -> bool, big: Candidate -> bool,
                                   meanYaw: seq<real> -> Quat, exactAgree: (Candidate, Candidate) -> bool)

  function Gap(a: real, b: real): real { if a < b then b - a else a - b }

  // ---------------------------------------------------------------------------
  // The evidence
  // ---------------------------------------------------------------------------

  function Serials(cs: seq<Candidate>): (s: seq<nat>)
    ensures |s| == |cs| && forall i :: 0 <= i < |cs| ==> s[i] == cs[i].serial
  {
    seq(|cs|, i requires 0 <= i < |cs| => cs[i].serial)
  }

  /** What is left to use: nothing in the list has been used, and nothing is in it twice. */
  predicate Fresh(cs: seq<Candidate>, used: set<nat>, next: nat) {
    && NoRepeats(Serials(cs))
    && (forall i :: 0 <= i < |cs| ==> cs[i].serial < next && cs[i].serial !in used && cs[i].device < Slots)
  }

  /** The same candidates in the same places, whatever became of them. */
  predicate SameEvidence(was: seq<Candidate>, now: seq<Candidate>) {
    && |was| == |now|
    && forall i :: 0 <= i < |was| ==>
         && now[i].serial == was[i].serial && now[i].device == was[i].device && now[i].time == was[i].time
         && now[i].kind == was[i].kind && now[i].delta == was[i].delta
         && (now[i].life == was[i].life || now[i].life.Dead?)
  }

  function Kept(cs: seq<Candidate>, keep: Candidate -> bool): seq<Candidate> {
    if cs == [] then [] else (if keep(cs[0]) then [cs[0]] else []) + Kept(cs[1..], keep)
  }

  lemma {:induction false} KeptAreThere(cs: seq<Candidate>, keep: Candidate -> bool, c: Candidate)
    ensures c in Kept(cs, keep) <==> c in cs && keep(c)
    decreases |cs|
  {
    if cs != [] {
      KeptAreThere(cs[1..], keep, c);
    }
  }

  lemma OtherSerial(cs: seq<Candidate>, c: Candidate, used: set<nat>, next: nat)
    requires Fresh(cs, used, next) && cs != [] && c in cs[1..]
    ensures c.serial != cs[0].serial && c.serial < next && c.serial !in used && c.device < Slots
  {
    var j :| 0 <= j < |cs[1..]| && cs[1..][j] == c;
    assert cs[j + 1] == c && Serials(cs)[j + 1] != Serials(cs)[0];
  }

  lemma RestIsFresh(cs: seq<Candidate>, used: set<nat>, next: nat)
    requires Fresh(cs, used, next) && cs != []
    ensures Fresh(cs[1..], used, next)
  {
    assert forall i :: 0 <= i < |cs| - 1 ==> Serials(cs[1..])[i] == Serials(cs)[i + 1];
  }

  lemma OneMoreFresh(c: Candidate, rest: seq<Candidate>, used: set<nat>, next: nat)
    requires Fresh(rest, used, next) && c.serial < next && c.serial !in used && c.device < Slots
    requires forall i :: 0 <= i < |rest| ==> rest[i].serial != c.serial
    ensures Fresh([c] + rest, used, next)
  {
    assert Serials([c] + rest) == [c.serial] + Serials(rest);
  }

  lemma {:induction false} KeptStaysFresh(cs: seq<Candidate>, keep: Candidate -> bool, used: set<nat>, next: nat)
    requires Fresh(cs, used, next)
    ensures Fresh(Kept(cs, keep), used, next)
    decreases |cs|
  {
    if cs != [] {
      var rest := Kept(cs[1..], keep);
      RestIsFresh(cs, used, next);
      KeptStaysFresh(cs[1..], keep, used, next);
      forall i | 0 <= i < |rest| ensures rest[i].serial != cs[0].serial {
        KeptAreThere(cs[1..], keep, rest[i]);
        OtherSerial(cs, rest[i], used, next);
      }
      assert cs[0].serial < next && cs[0].serial !in used && cs[0].device < Slots;
      hide Fresh;
      OneMoreFresh(cs[0], rest, used, next);
      assert [] + rest == rest;
    }
  }

  lemma SameStaysFresh(was: seq<Candidate>, now: seq<Candidate>, used: set<nat>, next: nat)
    requires Fresh(was, used, next) && SameEvidence(was, now)
    ensures Fresh(now, used, next)
  {
    assert Serials(now) == Serials(was);
  }

  // ---------------------------------------------------------------------------
  // Votes
  // ---------------------------------------------------------------------------

  function VotersOf(cs: seq<Candidate>, votes: seq<nat>): (s: seq<nat>)
    requires forall i :: 0 <= i < |votes| ==> votes[i] < |cs|
    ensures |s| == |votes| && forall i :: 0 <= i < |votes| ==> s[i] == cs[votes[i]].device
  {
    seq(|votes|, i requires 0 <= i < |votes| => cs[votes[i]].device)
  }

  predicate InLag(anchor: Candidate, other: Candidate) {
    -LeadSeconds <= other.time - anchor.time && other.time <= anchor.followDeadline
  }

  /** The anchor is the headset's; every other vote is another device's, ready, in time and agreeing. */
  predicate Ballot(cs: seq<Candidate>, anchor: nat, votes: seq<nat>, tol: Tolerances) {
    && anchor < |cs| && votes != [] && votes[0] == anchor
    && cs[anchor].device == Hmd && cs[anchor].ReadyHeuristic()
    && (forall i :: 0 <= i < |votes| ==> votes[i] < |cs| && cs[votes[i]].ReadyHeuristic())
    && (forall i :: 0 < i < |votes| ==>
         InLag(cs[anchor], cs[votes[i]]) && tol.agree(cs[anchor], cs[votes[i]]) && cs[votes[i]].device != Hmd)
    && NoRepeats(VotersOf(cs, votes))
  }

  /** Another device's candidate that may vote for the anchor's step. */
  predicate Eligible(anchor: Candidate, c: Candidate, tol: Tolerances) {
    c.ReadyHeuristic() && c.device != Hmd && InLag(anchor, c) && tol.agree(anchor, c)
  }

  /** Every device that may vote does, with its first candidate that may. */
  predicate Complete(cs: seq<Candidate>, anchor: nat, votes: seq<nat>, tol: Tolerances)
    requires Ballot(cs, anchor, votes, tol)
  {
    && (forall i :: 0 <= i < |cs| && Eligible(cs[anchor], cs[i], tol) ==> cs[i].device in VotersOf(cs, votes))
    && (forall v, k :: 0 < v < |votes| && 0 <= k < votes[v] && Eligible(cs[anchor], cs[k], tol) ==>
         cs[k].device != cs[votes[v]].device)
  }

  function Voters(cs: seq<Candidate>, votes: seq<nat>): (v: seq<Candidate>)
    requires forall i :: 0 <= i < |votes| ==> votes[i] < |cs|
    ensures |v| == |votes| && forall i :: 0 <= i < |votes| ==> v[i] == cs[votes[i]]
  {
    seq(|votes|, i requires 0 <= i < |votes| => cs[votes[i]])
  }

  function DevicesOf(voters: seq<Candidate>): (s: seq<nat>)
    ensures |s| == |voters| && forall i :: 0 <= i < |voters| ==> s[i] == voters[i].device
  {
    seq(|voters|, i requires 0 <= i < |voters| => voters[i].device)
  }

  function YawsOf(voters: seq<Candidate>): seq<real> {
    seq(|voters|, i requires 0 <= i < |voters| => voters[i].yaw)
  }

  function MeanTranslation(voters: seq<Candidate>): Vec
    requires voters != []
  {
    Scale(SumTranslations(voters), 1.0 / |voters| as real)
  }

  function SumTranslations(voters: seq<Candidate>): Vec {
    if voters == [] then Origin
    else Add(SumTranslations(voters[..|voters| - 1]), voters[|voters| - 1].delta.translation)
  }

  function SerialsOf(voters: seq<Candidate>): set<nat> {
    set i | 0 <= i < |voters| :: voters[i].serial
  }

  method CollectVotes(cs: seq<Candidate>, anchor: nat, tol: Tolerances) returns (votes: seq<nat>)
    requires anchor < |cs| && cs[anchor].device == Hmd && cs[anchor].ReadyHeuristic()
    requires forall i :: 0 <= i < |cs| ==> cs[i].device < Slots
    ensures Ballot(cs, anchor, votes, tol) && Complete(cs, anchor, votes, tol)
  {
    votes := [anchor];
    var counted: set<nat> := {Hmd};
    for i := 0 to |cs|
      invariant Ballot(cs, anchor, votes, tol)
      invariant forall d :: d in counted <==> d in VotersOf(cs, votes)
      invariant forall j :: 0 <= j < i && Eligible(cs[anchor], cs[j], tol) ==> cs[j].device in counted
      invariant forall v, k :: 0 < v < |votes| && 0 <= k < votes[v] && Eligible(cs[anchor], cs[k], tol) ==>
                  cs[k].device != cs[votes[v]].device
    {
      var o := cs[i];
      if !o.ReadyHeuristic() || o.device in counted {
        continue;
      }
      if !InLag(cs[anchor], o) {
        continue;
      }
      if tol.agree(cs[anchor], o) {
        assert VotersOf(cs, votes + [i]) == VotersOf(cs, votes) + [o.device];
        assert VotersOf(cs, votes + [i])[|votes|] == o.device;
        counted := counted + {o.device};
        votes := votes + [i];
      }
    }
  }

  method Average(voters: seq<Candidate>, tol: Tolerances) returns (delta: Rigid)
    requires voters != []
    ensures delta == Rigid(tol.meanYaw(YawsOf(voters)), MeanTranslation(voters))
  {
    var sum := Origin;
    for i := 0 to |voters|
      invariant sum == SumTranslations(voters[..i])
    {
      assert voters[..i + 1][..i] == voters[..i];
      sum := Add(sum, voters[i].delta.translation);
    }
    assert voters[..|voters|] == voters;
    delta := Rigid(tol.meanYaw(YawsOf(voters)), Scale(sum, 1.0 / |voters| as real));
  }

  /** Discarded with a step: the headset's up to it, and everybody else's up to its last confirmation. */
  predicate Outlives(c: Candidate, stepTime: real, evidenceEnd: real) {
    if c.device == Hmd then c.kind.Heuristic? && c.time > stepTime else c.time > evidenceEnd
  }

  function LastTime(voters: seq<Candidate>): (t: real)
    requires voters != []
    ensures forall i :: 0 <= i < |voters| ==> voters[i].time <= t
    ensures exists i :: 0 <= i < |voters| && voters[i].time == t
  {
    var n := |voters| - 1;
    if n == 0 then voters[0].time
    else
      var before := LastTime(voters[..n]);
      if before < voters[n].time then voters[n].time else before
  }

  /** What is left of the candidates after a step. */
  function Outliving(cs: seq<Candidate>, step: Step): seq<Candidate>
    requires step.voters != []
  {
    Kept(cs, (c: Candidate) => Outlives(c, step.delta.time, LastTime(step.voters)))
  }

  /** No vote outlives the step it was given for. */
  lemma VotesAreDiscarded(cs: seq<Candidate>, anchor: nat, votes: seq<nat>, tol: Tolerances, evidenceEnd: real,
                          used: set<nat>, next: nat)
    requires Ballot(cs, anchor, votes, tol) && Fresh(cs, used, next)
    requires forall i :: 0 <= i < |votes| ==> cs[votes[i]].time <= evidenceEnd
    ensures Fresh(Kept(cs, (c: Candidate) => Outlives(c, cs[anchor].time, evidenceEnd)), used + SerialsOf(Voters(cs, votes)), next)
  {
    var keep := (c: Candidate) => Outlives(c, cs[anchor].time, evidenceEnd);
    var left := Kept(cs, keep);
    KeptStaysFresh(cs, keep, used, next);
    forall i | 0 <= i < |left| ensures left[i].serial !in SerialsOf(Voters(cs, votes)) {
      KeptAreThere(cs, keep, left[i]);
      var j :| 0 <= j < |cs| && cs[j] == left[i];
      forall v | 0 <= v < |votes| ensures cs[votes[v]].serial != left[i].serial {
        assert votes[v] != j by { assert v == 0 ==> votes[v] == anchor; }
        assert Serials(cs)[votes[v]] != Serials(cs)[j];
      }
    }
  }

  // ---------------------------------------------------------------------------
  // Taking a step
  // ---------------------------------------------------------------------------

  /** A delta and the candidates it was made of, the headset's first. */
  datatype Step = Step(delta: Delta, voters: seq<Candidate>)

  /** Another rebase at the same time that agrees. */
  predicate Seconds(anchor: Candidate, other: Candidate, tol: Tolerances) {
    other.LiveExact() && Gap(other.time, anchor.time) <= AgreeWindow && tol.exactAgree(anchor, other)
  }

  /**
   The headset's candidate, and with it one of each other device that agrees in time. An exact
   delta is the headset's rebase; any other is the mean of the ready votes.
   */
  predicate IsStep(step: Step, tol: Tolerances) {
    var voters := step.voters;
    && voters != [] && voters[0].device == Hmd && NoRepeats(DevicesOf(voters))
    && step.delta.devicesAgreeing == |voters| && step.delta.time == voters[0].time
    && if step.delta.exact then
         && step.delta.transform == voters[0].delta && voters[0].LiveExact()
         && forall i :: 0 < i < |voters| ==> Seconds(voters[0], voters[i], tol)
       else
         && step.delta.transform == Rigid(tol.meanYaw(YawsOf(voters)), MeanTranslation(voters))
         && (forall i :: 0 <= i < |voters| ==> voters[i].ReadyHeuristic())
         && forall i :: 0 < i < |voters| ==> InLag(voters[0], voters[i]) && tol.agree(voters[0], voters[i])
  }

  predicate HasExact(cs: seq<Candidate>) {
    exists i :: 0 <= i < |cs| && cs[i].LiveExact() && cs[i].device == Hmd
  }

  function FirstExact(cs: seq<Candidate>): (i: nat)
    requires HasExact(cs)
    ensures i < |cs| && cs[i].LiveExact() && cs[i].device == Hmd
    ensures forall j :: 0 <= j < i ==> !(cs[j].LiveExact() && cs[j].device == Hmd)
  {
    if cs[0].LiveExact() && cs[0].device == Hmd then 0
    else
      assert HasExact(cs[1..]) by {
        var i :| 0 <= i < |cs| && cs[i].LiveExact() && cs[i].device == Hmd;
        assert cs[1..][i - 1] == cs[i];
      }
      1 + FirstExact(cs[1..])
  }

  /** An exact rebase of the headset is taken as it is; agreement only counts the devices. */
  method TakeExact(cs: seq<Candidate>, tol: Tolerances) returns (step: Option<Step>)
    ensures step.Some? <==> HasExact(cs)
    ensures step.Some? ==>
              && IsStep(step.value, tol) && step.value.delta.exact && step.value.voters[0] == cs[FirstExact(cs)]
              && (forall s :: s in SerialsOf(step.value.voters) ==> s in Serials(cs))
              && forall k :: 0 <= k < |cs| && k != FirstExact(cs) && Seconds(cs[FirstExact(cs)], cs[k], tol) ==>
                   cs[k].device in DevicesOf(step.value.voters)
  {
    for i := 0 to |cs|
      invariant forall j :: 0 <= j < i ==> !(cs[j].LiveExact() && cs[j].device == Hmd)
    {
      if cs[i].LiveExact() && cs[i].device == Hmd {
        var voters := AgreeingExact(cs, i, tol);
        assert FirstExact(cs) == i by { FirstExactIs(cs, i); }
        return Some(Step(Delta(cs[i].delta, cs[i].time, true, |voters|), voters));
      }
    }
    step := None;
  }

  /** One rebase of every other device that agrees at the same time. */
  method AgreeingExact(cs: seq<Candidate>, i: nat, tol: Tolerances) returns (voters: seq<Candidate>)
    requires i < |cs| && cs[i].LiveExact() && cs[i].device == Hmd
    ensures voters != [] && voters[0] == cs[i] && NoRepeats(DevicesOf(voters))
    ensures forall v :: 0 < v < |voters| ==> Seconds(cs[i], voters[v], tol)
    ensures forall s :: s in SerialsOf(voters) ==> s in Serials(cs)
    // Nobody who agrees in time goes uncounted.
    ensures forall k :: 0 <= k < |cs| && k != i && Seconds(cs[i], cs[k], tol) ==> cs[k].device in DevicesOf(voters)
  {
    voters := [cs[i]];
    var counted: set<nat> := {Hmd};
    assert Serials(cs)[i] == cs[i].serial;
    for k := 0 to |cs|
      invariant voters != [] && voters[0] == cs[i] && NoRepeats(DevicesOf(voters))
      invariant forall d :: d in counted <==> d in DevicesOf(voters)
      invariant forall v :: 0 < v < |voters| ==> Seconds(cs[i], voters[v], tol)
      invariant forall s :: s in SerialsOf(voters) ==> s in Serials(cs)
      invariant forall j :: 0 <= j < k && j != i && Seconds(cs[i], cs[j], tol) ==> cs[j].device in counted
    {
      var o := cs[k];
      if k == i || !o.LiveExact() || Gap(o.time, cs[i].time) > AgreeWindow {
        continue;
      }
      if tol.exactAgree(cs[i], o) && o.device !in counted {
        assert DevicesOf(voters + [o]) == DevicesOf(voters) + [o.device];
        assert DevicesOf(voters + [o])[|voters|] == o.device;
        assert Serials(cs)[k] == o.serial;
        counted := counted + {o.device};
        voters := voters + [o];
      }
    }
  }

  lemma FirstExactIs(cs: seq<Candidate>, i: nat)
    requires i < |cs| && cs[i].LiveExact() && cs[i].device == Hmd
    requires forall j :: 0 <= j < i ==> !(cs[j].LiveExact() && cs[j].device == Hmd)
    ensures HasExact(cs) && FirstExact(cs) == i
  {
  }

  /** What the other devices are doing at the headset's latest sample. */
  datatype Others = Others(now: real, solo: bool, lockedStill: bool, lastAcceptTime: real)

  /** What makes a headset's step qualify while no other device is tracking. */
  predicate StandsAlone(anchor: Candidate, others: Others, tol: Tolerances) {
    && others.solo
    && ((!anchor.needsCorroboration && !anchor.heldPosition && !anchor.driftCatchUp && tol.big(anchor)) || anchor.settledSolo)
  }

  /** Why a step is applied: two devices agree, or the headset is alone and its step qualifies. */
  predicate Warranted(anchor: Candidate, votes: nat, others: Others, tol: Tolerances) {
    votes >= 2 || StandsAlone(anchor, others, tol)
  }

  /** A headset candidate that waits for its confirmation. */
  predicate Anchors(c: Candidate) {
    c.ReadyHeuristic() && c.device == Hmd
  }

  /**
   A step is due: a ready headset candidate with a baseline from after the last step, and another
   device that agrees in time or a headset on its own that qualifies.
   */
  predicate Due(cs: seq<Candidate>, i: nat, others: Others, tol: Tolerances)
    requires i < |cs|
  {
    && Anchors(cs[i]) && cs[i].windowStart > others.lastAcceptTime
    && (StandsAlone(cs[i], others, tol) || exists j :: 0 <= j < |cs| && Eligible(cs[i], cs[j], tol))
  }

  /** Not confirmed: keep waiting while a controller may still follow, or give the candidate up. */
  function Waited(c: Candidate, others: Others): Candidate {
    if others.now <= c.time + Window + AgreeWindow then c
    else
      var held := if !others.solo && others.lockedStill
                  then c.(followDeadline := c.followDeadline + (others.now - c.lastHoldCheck)) else c;
      var checked := held.(lastHoldCheck := others.now);
      if !others.solo && others.now <= checked.followDeadline then checked else checked.(life := Dead)
  }

  /** What becomes of a candidate that is looked at and not taken: a headset's one has an old baseline, or waits on. */
  function PassedOver(c: Candidate, others: Others): Candidate {
    if !Anchors(c) then c
    else if c.windowStart <= others.lastAcceptTime then c.(life := Dead)
    else Waited(c, others)
  }

  /** The first `n` candidates have been passed over. */
  function Judged(was: seq<Candidate>, n: nat, others: Others): (cs: seq<Candidate>)
    requires n <= |was|
    ensures |cs| == |was| && forall i :: 0 <= i < |was| ==> cs[i] == if i < n then PassedOver(was[i], others) else was[i]
  {
    seq(|was|, i requires 0 <= i < |was| => if i < n then PassedOver(was[i], others) else was[i])
  }

  /** Steps given up among the first `n`; a drift catch-up is not counted as one. */
  function GivenUp(was: seq<Candidate>, n: nat, others: Others): nat
    requires n <= |was|
  {
    if n == 0 then 0
    else
      var c := was[n - 1];
      GivenUp(was, n - 1, others)
      + if Anchors(c) && c.windowStart > others.lastAcceptTime && Waited(c, others).life.Dead? && !c.driftCatchUp then 1 else 0
  }

  /** Candidates passed over are the same evidence. */
  lemma JudgedIsSame(was: seq<Candidate>, n: nat, others: Others)
    requires n <= |was|
    ensures SameEvidence(was, Judged(was, n, others))
  {
  }

  lemma JudgedNext(was: seq<Candidate>, n: nat, others: Others)
    requires n < |was|
    ensures Judged(was, n, others)[n := PassedOver(was[n], others)] == Judged(was, n + 1, others)
    ensures !Anchors(was[n]) ==> Judged(was, n + 1, others) == Judged(was, n, others)
  {
  }

  /** Passing over headset candidates takes nobody's vote away, so the votes collected decide whether a step is due. */
  lemma VotesDecide(was: seq<Candidate>, i: nat, votes: seq<nat>, others: Others, tol: Tolerances)
    requires i < |was| && Anchors(was[i]) && was[i].windowStart > others.lastAcceptTime
    requires Ballot(Judged(was, i, others), i, votes, tol) && Complete(Judged(was, i, others), i, votes, tol)
    ensures Warranted(was[i], |votes|, others, tol) <==> Due(was, i, others, tol)
  {
    var cs := Judged(was, i, others);
    if |votes| >= 2 {
      assert VotersOf(cs, votes)[0] == Hmd && VotersOf(cs, votes)[1] != Hmd;
      assert cs[votes[1]] == was[votes[1]];
      assert Eligible(was[i], was[votes[1]], tol);
    }
    if j :| 0 <= j < |was| && Eligible(was[i], was[j], tol) {
      assert cs[j] == was[j];
      var v :| 0 <= v < |votes| && VotersOf(cs, votes)[v] == was[j].device;
      assert v != 0;
    }
  }

  /**
   The headset's candidates in turn. A step is taken exactly when one is due, for the first that is,
   with the vote of every device that may vote; if none is, every candidate has waited on or died.
   */
  method TakeHeuristic(was: seq<Candidate>, others: Others, tol: Tolerances, ghost used: set<nat>, ghost next: nat)
    returns (step: Option<Step>, cs: seq<Candidate>, expired: nat, ghost judged: seq<Candidate>, ghost votes: seq<nat>)
    requires Fresh(was, used, next)
    ensures step.Some? <==> exists i :: 0 <= i < |was| && Due(was, i, others, tol)
    ensures step.None? ==> cs == Judged(was, |was|, others) && expired == GivenUp(was, |was|, others)
    ensures step.Some? ==>
              && votes != [] && votes[0] < |was| && Due(was, votes[0], others, tol)
              && (forall i :: 0 <= i < votes[0] ==> !Due(was, i, others, tol))
              && judged == Judged(was, votes[0], others) && expired == GivenUp(was, votes[0], others)
              && Ballot(judged, votes[0], votes, tol) && Complete(judged, votes[0], votes, tol)
              && IsStep(step.value, tol) && !step.value.delta.exact && step.value.voters == Voters(judged, votes)
              && cs == Outliving(judged, step.value)
    ensures Fresh(cs, if step.Some? then used + SerialsOf(step.value.voters) else used, next)
  {
    cs, expired, step, judged, votes := was, 0, None, was, [];
    assert cs == Judged(was, 0, others);
    hide Fresh, SameEvidence, Due, Warranted, Waited, IsStep, Outliving;
    for i := 0 to |was|
      invariant cs == Judged(was, i, others) && expired == GivenUp(was, i, others)
      invariant forall k :: 0 <= k < i ==> !Due(was, k, others, tol)
    {
      JudgedNext(was, i, others);
      JudgedIsSame(was, i, others);
      OnlyAnchorsAreDue(was, i, others, tol);
      var c0 := cs[i];
      if !c0.ReadyHeuristic() || c0.device != Hmd {
        continue;
      }
      // A new event needs a baseline from after the previous one.
      if c0.windowStart <= others.lastAcceptTime {
        cs := cs[i := c0.(life := Dead)];
        continue;
      }
      SameStaysFresh(was, cs, used, next);
      FreshDevices(cs, used, next);
      var agree := CollectVotes(cs, i, tol);
      VotesDecide(was, i, agree, others, tol);
      if Warranted(c0, |agree|, others, tol) {
        judged, votes := cs, agree;
        var applied;
        applied, cs := ApplyVotes(cs, i, agree, tol, used, next);
        step := Some(applied);
        return;
      }
      var waited := Waited(c0, others);
      if waited.life.Dead? && !c0.driftCatchUp {
        expired := expired + 1;
      }
      cs := cs[i := waited];
    }
    JudgedIsSame(was, |was|, others);
    SameStaysFresh(was, cs, used, next);
  }

  lemma OnlyAnchorsAreDue(cs: seq<Candidate>, i: nat, others: Others, tol: Tolerances)
    requires i < |cs|
    ensures !Anchors(cs[i]) || cs[i].windowStart <= others.lastAcceptTime ==> !Due(cs, i, others, tol)
  {
  }

  /**
   The wait for a controller that is locked still has no end: while every other device is, the time
   left until the deadline stays what it was, and the candidate lives on.
   */
  lemma LockedStillWaits(c: Candidate, others: Others)
    requires !others.solo && others.lockedStill && !c.life.Dead? && c.lastHoldCheck <= c.followDeadline
    requires c.lastHoldCheck <= others.now
    ensures var w := Waited(c, others);
            && w.life == c.life && w.followDeadline - w.lastHoldCheck >= c.followDeadline - c.lastHoldCheck
            && (others.now > c.time + Window + AgreeWindow ==>
                 w.followDeadline - w.lastHoldCheck == c.followDeadline - c.lastHoldCheck && w.lastHoldCheck == others.now)
  {
  }

  /** Otherwise it waits exactly until agreement can no longer come at once, and with company until its deadline. */
  lemma WaitsForItsDeadline(c: Candidate, others: Others)
    requires !c.life.Dead? && !(others.lockedStill && !others.solo)
    ensures !Waited(c, others).life.Dead? <==>
              others.now <= c.time + Window + AgreeWindow || (!others.solo && others.now <= c.followDeadline)
    ensures Waited(c, others).followDeadline == c.followDeadline
  {
  }

  lemma FreshDevices(cs: seq<Candidate>, used: set<nat>, next: nat)
    requires Fresh(cs, used, next)
    ensures forall i :: 0 <= i < |cs| ==> cs[i].device < Slots
  {
  }

  /** The averaged delta, and the candidates that outlive its evidence. */
  method ApplyVotes(cs: seq<Candidate>, anchor: nat, votes: seq<nat>, tol: Tolerances, ghost used: set<nat>, ghost next: nat)
    returns (step: Step, left: seq<Candidate>)
    requires Ballot(cs, anchor, votes, tol) && Fresh(cs, used, next)
    ensures IsStep(step, tol) && !step.delta.exact && step.voters == Voters(cs, votes)
    ensures left == Outliving(cs, step)
    ensures Fresh(left, used + SerialsOf(step.voters), next)
  {
    var voters := Voters(cs, votes);
    assert DevicesOf(voters) == VotersOf(cs, votes);
    var delta := Average(voters, tol);
    var evidenceEnd := LastConfirmation(cs, votes);
    VotesAreDiscarded(cs, anchor, votes, tol, evidenceEnd, used, next);
    step := Step(Delta(delta, cs[anchor].time, false, |votes|), voters);
    var stepTime := cs[anchor].time;
    var keep := (c: Candidate) => Outlives(c, stepTime, evidenceEnd);
    left := Kept(cs, keep);
    KeptAlike(cs, keep, (c: Candidate) => Outlives(c, step.delta.time, LastTime(step.voters)));
  }

  lemma {:induction false} KeptAlike(cs: seq<Candidate>, keep: Candidate -> bool, same: Candidate -> bool)
    requires forall c :: keep(c) == same(c)
    ensures Kept(cs, keep) == Kept(cs, same)
    decreases |cs|
  {
    if cs != [] {
      KeptAlike(cs[1..], keep, same);
    }
  }

  method LastConfirmation(cs: seq<Candidate>, votes: seq<nat>) returns (t: real)
    requires votes != [] && forall i :: 0 <= i < |votes| ==> votes[i] < |cs|
    ensures t == LastTime(Voters(cs, votes))
    ensures forall i :: 0 <= i < |votes| ==> cs[votes[i]].time <= t
  {
    t := cs[votes[0]].time;
    for i := 1 to |votes|
      invariant t == LastTime(Voters(cs, votes)[..i])
    {
      assert Voters(cs, votes)[..i + 1][..i] == Voters(cs, votes)[..i];
      if t < cs[votes[i]].time {
        t := cs[votes[i]].time;
      }
    }
    assert Voters(cs, votes)[..|votes|] == Voters(cs, votes);
  }

  // ---------------------------------------------------------------------------
  // Who is there, and what lasts
  // ---------------------------------------------------------------------------

  predicate Active(devices: seq<DeviceState>, i: nat)
    requires |devices| == Slots && i < Slots
  {
    devices[i].lastValidTime > devices[Hmd].lastValidTime - ActiveSeconds
  }

  /** Solo when no two devices are tracking; locked still when others are, and none of them moves. */
  function Around(devices: seq<DeviceState>, lastAcceptTime: real): Others
    requires |devices| == Slots
  {
    Others(devices[Hmd].lastValidTime,
           forall i, j :: 0 <= i < j < Slots ==> !(Active(devices, i) && Active(devices, j)),
           (exists i :: 0 <= i < Slots && i != Hmd && Active(devices, i))
           && (forall i :: 0 <= i < Slots && i != Hmd && Active(devices, i) ==> devices[i].repeatedPositions >= 2),
           lastAcceptTime)
  }

  /** A waiting headset candidate is kept until its deadline, any other long enough to confirm one that trails it. */
  predicate StillOfUse(c: Candidate, devices: seq<DeviceState>) {
    !c.life.Dead? && (c.device < |devices| ==>
                        devices[c.device].lastValidTime - c.time <=
                        if c.kind.Heuristic? && c.device == Hmd then c.followDeadline - c.time else KeepSeconds)
  }

  function Lasting(cs: seq<Candidate>, devices: seq<DeviceState>): seq<Candidate> {
    Kept(cs, (c: Candidate) => StillOfUse(c, devices))
  }

  lemma LastingIsFresh(cs: seq<Candidate>, devices: seq<DeviceState>, used: set<nat>, next: nat)
    requires Fresh(cs, used, next) && !HasExact(cs)
    ensures Fresh(Lasting(cs, devices), used, next) && !HasExact(Lasting(cs, devices))
  {
    var keep := (c: Candidate) => StillOfUse(c, devices);
    KeptStaysFresh(cs, keep, used, next);
    KeptHasNoExact(cs, keep);
    KeptAlike(cs, keep, (c: Candidate) => StillOfUse(c, devices));
  }

  /** What one pass over the candidates makes of them, with no exact rebase among them. */
  ghost predicate Decides(was: seq<Candidate>, others: Others, devices: seq<DeviceState>, tol: Tolerances,
                          took: Option<Step>, left: seq<Candidate>, ignored: int)
  {
    match took
    case None =>
      && (forall i :: 0 <= i < |was| ==> !Due(was, i, others, tol))
      && left == Lasting(Judged(was, |was|, others), devices)
      && ignored == GivenUp(was, |was|, others)
    case Some(step) =>
      exists votes: seq<nat> ::
        && votes != [] && votes[0] < |was| && Due(was, votes[0], others, tol)
        && (forall i :: 0 <= i < votes[0] ==> !Due(was, i, others, tol))
        && var judged := Judged(was, votes[0], others);
           && Ballot(judged, votes[0], votes, tol) && Complete(judged, votes[0], votes, tol)
           && step.voters == Voters(judged, votes) && left == Outliving(judged, step)
           && ignored == GivenUp(was, votes[0], others)
  }

  function FittedBy(fits: Candidate -> Option<Fit>, devices: seq<DeviceState>, c: Candidate): Candidate
    requires |devices| == Slots && c.device < Slots
  {
    if !(c.kind.Heuristic? && c.life.Pending?) || devices[c.device].lastValidTime < c.time + Window then c
    else
      match fits(c)
      case None => c.(life := Dead)
      case Some(fit) =>
        c.(life := Ready, delta := fit.delta, yaw := fit.yaw, heldPosition := fit.heldPosition,
           driftCatchUp := fit.driftCatchUp, settledSolo := fit.settledSolo)
  }

  /**
   What a sample adds to the candidates: a rebase always, another step unless a live candidate of
   the device is closer than a window.
   */
  predicate RaisedBy(was: seq<Candidate>, now: seq<Candidate>, s: Sample, rebased: bool)
    requires was <= now
  {
    if rebased then
      && |now| == |was| + 1
      && var c := now[|was|]; c.LiveExact() && c.device == s.device && c.time == s.time
    else if s.jump.Some? && forall i :: 0 <= i < |was| && was[i].device == s.device && !was[i].life.Dead? ==>
                              Gap(was[i].time, s.time) >= Window then
      && |now| == |was| + 1
      && var c := now[|was|];
         && c.kind.Heuristic? && c.life.Pending? && c.device == s.device && c.time == s.time
         && c.windowStart == s.jump.value.windowStart && c.needsCorroboration == s.jump.value.needsCorroboration
         && c.followDeadline == s.time + Window + FollowSeconds
    else now == was
  }

  lemma BallotInRange(cs: seq<Candidate>, votes: seq<nat>, tol: Tolerances)
    requires votes != [] && Ballot(cs, votes[0], votes, tol)
    ensures forall i :: 0 <= i < |votes| ==> votes[i] < |cs|
  {
  }

  lemma OutlivingAreThere(cs: seq<Candidate>, step: Step)
    requires step.voters != []
    ensures forall c :: c in Outliving(cs, step) ==> c in cs
  {
    var keep := (c: Candidate) => Outlives(c, step.delta.time, LastTime(step.voters));
    forall c | c in Outliving(cs, step) ensures c in cs {
      KeptAlike(cs, keep, (c: Candidate) => Outlives(c, step.delta.time, LastTime(step.voters)));
      KeptAreThere(cs, keep, c);
    }
  }

  // ---------------------------------------------------------------------------
  // The detector, updated in place
  // ---------------------------------------------------------------------------

  /** A step of the composed pose the frame pair does not explain. */
  datatype Jump = Jump(windowStart: real, needsCorroboration: bool)

  datatype Sample = Sample(device: nat, usable: bool, time: real, frame: Rigid, localContinuous: bool,
                           jump: Option<Jump>, repeatsPosition: bool)

  /** What fitting a candidate's windows gives; None drops it. */
  datatype Fit = Fit(delta: Rigid, yaw: real, heldPosition: bool, driftCatchUp: bool, settledSolo: bool)

  const GapSeconds: real := 2.0
  const NoDevice := DeviceState(false, Still, -1.0, 0)

  /** The delta of a rebase with its rotation projected to a yaw. */
  function RebaseDelta(yawOnly: Quat -> Quat, was: Rigid, now: Rigid): Rigid {
    var yaw := yawOnly(MoveOf(was, now).rotation);
    Rigid(yaw, Minus(now.translation, RotateVector(yaw, was.translation)))
  }

  /** A change the projection does not alter. */
  predicate PureYaw(yawOnly: Quat -> Quat, was: Rigid, now: Rigid) {
    yawOnly(MoveOf(was, now).rotation) == MoveOf(was, now).rotation
  }

  function Composed(chain: seq<Rigid>): Rigid {
    if chain == [] then Still else Compose(chain[|chain| - 1], Composed(chain[..|chain| - 1]))
  }

  lemma ChainExtends(chain: seq<Rigid>, first: Rigid, was: Rigid, now: Rigid, yawOnly: Quat -> Quat)
    requires Compose(Composed(chain), first) == was && PureYaw(yawOnly, was, now)
    requires Unit(was.rotation) && Unit(now.rotation)
    ensures Compose(Composed(chain + [RebaseDelta(yawOnly, was, now)]), first) == now
  {
    var d := RebaseDelta(yawOnly, was, now);
    assert (chain + [d])[..|chain|] == chain;
    assert d == MoveOf(was, now);
    MoveCarries(was, now);
    ComposeAssociative(d, Composed(chain), first);
    hide Compose, MoveOf, Unit;
  }

  class JumpDetector {
    const tol: Tolerances
    const yawOnly: Quat -> Quat
    const fits: Candidate -> Option<Fit>

    var devices: seq<DeviceState>
    var candidates: seq<Candidate>
    var accepted: seq<Delta>
    var lastAcceptTime: real
    var ignoredSteps: nat
    var nextSerial: nat

    // Every delta so far, with its evidence, and all the evidence used.
    ghost var steps: seq<Step>
    ghost var used: set<nat>
    // The exact deltas since the headset's frame last changed in a way they do not follow.
    ghost var chain: seq<Rigid>
    ghost var chainStart: Rigid

    /** Each delta so far is a step of its own evidence, and no candidate is in two of them or still waits. */
    ghost predicate Evidence()
      reads `candidates, `used, `nextSerial, `steps, `accepted
    {
      && Fresh(candidates, used, nextSerial)
      && |steps| == |accepted|
      && (forall i :: 0 <= i < |steps| ==>
           steps[i].delta == accepted[i] && IsStep(steps[i], tol) && SerialsOf(steps[i].voters) <= used)
      && (forall i, j :: 0 <= i < j < |steps| ==> SerialsOf(steps[i].voters) !! SerialsOf(steps[j].voters))
      && (forall s :: s in used ==> s < nextSerial)
    }

    ghost predicate ChainHolds()
      reads `devices, `chain, `chainStart
    {
      && |devices| == Slots
      && Unit(devices[Hmd].frame.rotation)
      && (devices[Hmd].frameValid ==> Compose(Composed(chain), chainStart) == devices[Hmd].frame)
    }

    ghost predicate Valid()
      reads this
    {
      Evidence() && ChainHolds() && !HasExact(candidates)
    }

    constructor (tol: Tolerances, yawOnly: Quat -> Quat, fits: Candidate -> Option<Fit>)
      ensures Valid() && steps == [] && accepted == []
      ensures this.tol == tol && this.yawOnly == yawOnly && this.fits == fits
    {
      this.tol, this.yawOnly, this.fits := tol, yawOnly, fits;
      devices := seq(Slots, _ => NoDevice);
      candidates, accepted, lastAcceptTime, ignoredSteps, nextSerial := [], [], -1000000000.0, 0, 0;
      steps, used, chain, chainStart := [], {}, [], Still;
    }

    /** A delta goes out, and its evidence is spent. */
    method Emit(step: Step, left: seq<Candidate>)
      requires Evidence() && IsStep(step, tol) && SerialsOf(step.voters) !! used
      requires Fresh(left, used + SerialsOf(step.voters), nextSerial)
      requires forall s :: s in SerialsOf(step.voters) ==> s < nextSerial
      modifies `candidates, `accepted, `lastAcceptTime, `steps, `used
      ensures Evidence() && candidates == left && accepted == old(accepted) + [step.delta]
      ensures steps == old(steps) + [step] && used == old(used) + SerialsOf(step.voters) && lastAcceptTime == step.delta.time
    {
      hide IsStep, Fresh, SerialsOf;
      accepted := accepted + [step.delta];
      lastAcceptTime := step.delta.time;
      candidates := left;
      used := used + SerialsOf(step.voters);
      steps := steps + [step];
    }

    method Neighbours() returns (others: Others)
      requires |devices| == Slots
      ensures others == Around(devices, lastAcceptTime)
    {
      var active, besides, locked := 0, 0, true;
      for i := 0 to Slots
        invariant active >= 0 && besides >= 0
        invariant active == 0 <==> forall j :: 0 <= j < i ==> !Active(devices, j)
        invariant active <= 1 <==> forall j, k :: 0 <= j < k < i ==> !(Active(devices, j) && Active(devices, k))
        invariant besides > 0 <==> exists j :: 0 <= j < i && j != Hmd && Active(devices, j)
        invariant locked <==> forall j :: 0 <= j < i && j != Hmd && Active(devices, j) ==> devices[j].repeatedPositions >= 2
      {
        if Active(devices, i) {
          active := active + 1;
          if i != Hmd {
            besides := besides + 1;
            locked := locked && devices[i].repeatedPositions >= 2;
          }
        }
      }
      others := Others(devices[Hmd].lastValidTime, active <= 1, besides > 0 && locked, lastAcceptTime);
    }

    /** Exact first: two rebases telescope however close they are. */
    method TryAccept() returns (ghost took: Option<Step>)
      requires Evidence() && |devices| == Slots
      modifies `candidates, `accepted, `lastAcceptTime, `ignoredSteps, `steps, `used
      ensures Evidence() && !HasExact(candidates)
      ensures took.None? ==> steps == old(steps) && accepted == old(accepted)
      ensures took.Some? ==> steps == old(steps) + [took.value] && accepted == old(accepted) + [took.value.delta]
      ensures took.Some? ==> SerialsOf(took.value.voters) !! old(used)
      ensures old(HasExact(candidates)) ==>
                && took.Some? && took.value.delta.exact && candidates == []
                && took.value.delta.transform == old(candidates)[FirstExact(old(candidates))].delta
                && ignoredSteps == old(ignoredSteps)
      ensures !old(HasExact(candidates)) ==>
                && (took.Some? ==> !took.value.delta.exact)
                && Decides(old(candidates), Around(devices, old(lastAcceptTime)), devices, tol, took, candidates,
                           ignoredSteps - old(ignoredSteps))
    {
      hide IsStep, SerialsOf, Decides, Around;
      var exact := TakeExact(candidates, tol);
      StepIsExact(candidates, exact, tol);
      if exact.Some? {
        SerialsAreUnused(candidates, used, nextSerial);
        Emit(exact.value, []);
        return exact;
      }
      took := TryHeuristic();
    }

    /** Without an exact rebase: the first headset candidate whose step is due, or everybody waits on. */
    method TryHeuristic() returns (ghost took: Option<Step>)
      requires Evidence() && |devices| == Slots && !HasExact(candidates)
      modifies `candidates, `accepted, `lastAcceptTime, `ignoredSteps, `steps, `used
      ensures Evidence() && !HasExact(candidates)
      ensures took.None? ==> steps == old(steps) && accepted == old(accepted)
      ensures took.Some? ==> steps == old(steps) + [took.value] && accepted == old(accepted) + [took.value.delta]
      ensures took.Some? ==> SerialsOf(took.value.voters) !! old(used) && !took.value.delta.exact
      ensures Decides(old(candidates), Around(devices, old(lastAcceptTime)), devices, tol, took, candidates,
                      ignoredSteps - old(ignoredSteps))
    {
      hide IsStep, SerialsOf, Around, Due, Outliving, GivenUp, Complete, Ballot, Fresh, SameEvidence, HasExact, Lasting;
      ghost var before := candidates;
      var others := Neighbours();
      var step, left, expired, judged, votes := TakeHeuristic(candidates, others, tol, used, nextSerial);
      ignoredSteps := ignoredSteps + expired;
      if step.Some? {
        JudgedIsSame(before, votes[0], others);
        BallotInRange(judged, votes, tol);
        VotesAreUnused(before, judged, votes, used, nextSerial);
        OutlivingAreThere(judged, step.value);
        NoExactAfter(before, judged, left);
        Emit(step.value, left);
        return step;
      }
      JudgedIsSame(before, |before|, others);
      NoExactAfter(before, left, left);
      LastingIsFresh(left, devices, used, nextSerial);
      candidates := Lasting(left, devices);
      took := None;
    }

    // --- samples ---

    /** An observed bad frame: neither path may bridge it. */
    method BreakContinuity(device: nat)
      requires Valid() && device < Slots
      modifies `devices, `candidates
      ensures Valid()
      ensures devices == old(devices)[device := old(devices)[device].(frameValid := false, repeatedPositions := 0)]
      ensures candidates == AllBroken(old(candidates), device)
      ensures accepted == old(accepted) && lastAcceptTime == old(lastAcceptTime) && ignoredSteps == old(ignoredSteps)
    {
      devices := devices[device := devices[device].(frameValid := false, repeatedPositions := 0)];
      var dropped := DropHeuristics(candidates, device);
      SameStaysFresh(candidates, dropped, used, nextSerial);
      NoExactAfter(candidates, dropped, dropped);
      candidates := dropped;
    }

    /** A hole in the stream may have hidden any device's sample. */
    method NoteStreamHole()
      requires Valid()
      modifies `devices, `candidates
      ensures Valid() && |candidates| == |old(candidates)|
      ensures forall i :: 0 <= i < |candidates| ==>
                candidates[i] == var c := old(candidates)[i]; if c.kind.Heuristic? && c.life.Pending? then c.(life := Dead) else c
      ensures forall d :: 0 <= d < Slots ==> !devices[d].frameValid && devices[d].lastValidTime == old(devices[d].lastValidTime)
    {
      ghost var was := devices;
      for d := 0 to Slots
        modifies `devices
        invariant |devices| == Slots
        invariant forall e :: 0 <= e < d ==> !devices[e].frameValid && devices[e].lastValidTime == was[e].lastValidTime
        invariant forall e :: 0 <= e < Slots ==> devices[e].frame == was[e].frame
        invariant forall e :: d <= e < Slots ==> devices[e] == was[e]
      {
        devices := devices[d := devices[d].(frameValid := false, repeatedPositions := 0)];
      }
      var cs := candidates;
      for i := 0 to |cs|
        modifies {}
        invariant |cs| == |candidates|
        invariant forall j :: 0 <= j < |cs| ==>
                    cs[j] == var c := candidates[j]; if j < i && c.kind.Heuristic? && c.life.Pending? then c.(life := Dead) else c
      {
        if cs[i].kind.Heuristic? && cs[i].life.Pending? {
          cs := cs[i := cs[i].(life := Dead)];
        }
      }
      SameStaysFresh(candidates, cs, used, nextSerial);
      NoExactAfter(candidates, cs, cs);
      candidates := cs;
    }

    method AddCandidate(c: Candidate)
      requires Evidence() && c.serial == nextSerial && c.device < Slots
      modifies `candidates, `nextSerial
      ensures Evidence() && candidates == old(candidates) + [c]
    {
      assert Serials(candidates + [c]) == Serials(candidates) + [c.serial];
      candidates := candidates + [c];
      nextSerial := nextSerial + 1;
    }

    /** Adds a candidate unless a live one of the device is closer than a window. */
    method DetectDiscontinuity(s: Sample, jump: Jump)
      requires Evidence() && s.device < Slots
      modifies `candidates, `nextSerial
      ensures Evidence() && (candidates == old(candidates) || |candidates| == |old(candidates)| + 1)
      ensures old(candidates) <= candidates
      ensures |candidates| > |old(candidates)| <==>
                forall i :: 0 <= i < |old(candidates)|
                            && old(candidates)[i].device == s.device && !old(candidates)[i].life.Dead? ==>
                              Gap(old(candidates)[i].time, s.time) >= Window
      ensures |candidates| > |old(candidates)| ==>
                var c := candidates[|old(candidates)|];
                && c.device == s.device && c.time == s.time && c.kind.Heuristic? && c.life.Pending?
                && c.windowStart == jump.windowStart && c.needsCorroboration == jump.needsCorroboration
                && c.followDeadline == s.time + Window + FollowSeconds
    {
      for i := 0 to |candidates|
        modifies {}
        invariant forall j :: 0 <= j < i && candidates[j].device == s.device && !candidates[j].life.Dead? ==>
                    Gap(candidates[j].time, s.time) >= Window
      {
        if candidates[i].device == s.device && !candidates[i].life.Dead? && Gap(candidates[i].time, s.time) < Window {
          return;
        }
      }
      AddCandidate(Candidate(nextSerial, s.device, s.time, Heuristic, Pending, Still, 0.0, jump.windowStart,
                             jump.needsCorroboration, s.time + Window + FollowSeconds, s.time, false, false, false));
    }

    /** A candidate once its window has filled: ready with what the fit gives, or dropped. */
    function Fitted(c: Candidate): Candidate
      requires |devices| == Slots && c.device < Slots
      reads `devices
    {
      FittedBy(fits, devices, c)
    }

    method EvaluatePendingCandidates()
      requires Evidence() && |devices| == Slots
      modifies `candidates
      ensures Evidence() && |candidates| == |old(candidates)|
      ensures forall i :: 0 <= i < |candidates| ==>
                old(candidates)[i].device < Slots && candidates[i] == Fitted(old(candidates)[i])
      ensures HasExact(candidates) == old(HasExact(candidates))
      ensures old(HasExact(candidates)) ==>
                candidates[FirstExact(candidates)] == old(candidates)[FirstExact(old(candidates))]
    {
      hide IsStep, SerialsOf;
      ghost var was := candidates;
      var cs := candidates;
      for i := 0 to |cs|
        modifies {}
        invariant |cs| == |was|
        invariant forall j :: 0 <= j < |cs| ==> was[j].device < Slots
        invariant forall j :: 0 <= j < |cs| ==> cs[j] == if j < i then Fitted(was[j]) else was[j]
      {
        var c := cs[i];
        if !(c.kind.Heuristic? && c.life.Pending?) || devices[c.device].lastValidTime < c.time + Window {
          continue;
        }
        match fits(c)
        case None =>
          cs := cs[i := c.(life := Dead)];
        case Some(fit) =>
          cs := cs[i := c.(life := Ready, delta := fit.delta, yaw := fit.yaw, heldPosition := fit.heldPosition,
                           driftCatchUp := fit.driftCatchUp, settledSolo := fit.settledSolo)];
      }
      assert Serials(cs) == Serials(was);
      SameExact(was, cs);
      candidates := cs;
    }

    /** The headset's sample follows on from the one before, in the same frame or one it was rebased to. */
    ghost predicate Continues(s: Sample)
      requires |devices| == Slots
      reads this
    {
      var dev := devices[Hmd];
      && s.device == Hmd && s.usable && dev.frameValid
      && (dev.lastValidTime >= 0.0 ==> dev.lastValidTime < s.time <= dev.lastValidTime + GapSeconds)
      && (dev.frame == s.frame || (s.localContinuous && PureYaw(yawOnly, dev.frame, s.frame)))
    }

    /**
     One sample. While the headset's samples continue, its frame is the chain's deltas applied to
     the frame the chain began in, and every change adds exactly the delta that was sent out.
     */
    method Push(s: Sample) returns (ghost waiting: seq<Candidate>, ghost took: Option<Step>)
      requires Valid() && s.device < Slots && Unit(s.frame.rotation)
      modifies this
      ensures Valid() && accepted == old(accepted) + if took.Some? then [took.value.delta] else []
      ensures !Counts(s, old(devices)[s.device]) ==> took.None? && candidates == AllBroken(old(candidates), s.device)
      ensures Counts(s, old(devices)[s.device]) ==>
                devices == old(devices)[s.device := Noted(s, if Follows(s, old(devices)[s.device])
                                                             then old(devices)[s.device].repeatedPositions else 0)]
      ensures Counts(s, old(devices)[s.device]) ==>
                Raised(if Follows(s, old(devices)[s.device]) then old(candidates) else AllBroken(old(candidates), s.device),
                       waiting, devices, s)
      ensures Counts(s, old(devices)[s.device]) && !HasExact(waiting) ==>
                && (took.Some? ==> !took.value.delta.exact)
                && Decides(waiting, Around(devices, old(lastAcceptTime)), devices, tol, took, candidates,
                           ignoredSteps - old(ignoredSteps))
      ensures Counts(s, old(devices)[s.device]) ==>
                (HasExact(waiting) <==>
                  && s.device == Hmd && Follows(s, old(devices)[Hmd]) && s.localContinuous
                  && old(devices)[Hmd].frameValid && old(devices)[Hmd].frame != s.frame)
      ensures Counts(s, old(devices)[s.device]) && HasExact(waiting) ==>
                && took.Some? && took.value.delta.exact && candidates == []
                && took.value.delta.transform == RebaseDelta(yawOnly, old(devices)[Hmd].frame, s.frame)
      ensures |accepted| <= |old(accepted)| + 1 && old(accepted) <= accepted && old(steps) <= steps
      ensures |steps| - |old(steps)| == |accepted| - |old(accepted)|
      ensures old(Continues(s)) ==> devices[Hmd].frameValid && devices[Hmd].frame == s.frame && chainStart == old(chainStart)
      ensures old(Continues(s)) && old(devices[Hmd].frame) == s.frame ==> chain == old(chain)
      ensures old(Continues(s)) && old(devices[Hmd].frame) != s.frame ==>
                && |accepted| == |old(accepted)| + 1 && accepted[|accepted| - 1].exact
                && chain == old(chain) + [accepted[|accepted| - 1].transform]
      ensures s.device != Hmd ==> chain == old(chain) && chainStart == old(chainStart)
    {
      hide Evidence, ChainHolds, Unit, PureYaw, Raised, Decides, Around, HasExact, RebaseDelta;
      assert |devices| == Slots by { ChainHasDevices(); }
      var dev := devices[s.device];
      waiting, took := [], None;
      if !s.usable || (dev.lastValidTime >= 0.0 && s.time <= dev.lastValidTime) {
        BreakContinuity(s.device);
        return;
      }
      if dev.lastValidTime >= 0.0 && s.time - dev.lastValidTime > GapSeconds {
        // The sample itself still counts.
        BreakContinuity(s.device);
      }
      waiting, took := Observe(s);
    }

    lemma ChainHasDevices()
      requires ChainHolds()
      ensures |devices| == Slots
    {
    }

    /** `waiting` are the candidates once this sample has raised its own and filled the windows it fills. */
    method Observe(s: Sample) returns (ghost waiting: seq<Candidate>, ghost took: Option<Step>)
      requires Valid() && s.device < Slots && Unit(s.frame.rotation)
      modifies this
      ensures Valid()
      ensures Raised(old(candidates), waiting, devices, s)
      ensures HasExact(waiting) <==>
                s.device == Hmd && s.localContinuous && old(devices[Hmd]).frameValid && old(devices[Hmd]).frame != s.frame
      ensures !HasExact(waiting) ==>
                && (took.Some? ==> !took.value.delta.exact)
                && Decides(waiting, Around(devices, old(lastAcceptTime)), devices, tol, took, candidates,
                           ignoredSteps - old(ignoredSteps))
      ensures HasExact(waiting) ==>
                && took.Some? && took.value.delta.exact && candidates == []
                && took.value.delta.transform == RebaseDelta(yawOnly, old(devices)[Hmd].frame, s.frame)
      ensures accepted == old(accepted) + if took.Some? then [took.value.delta] else []
      ensures |accepted| <= |old(accepted)| + 1 && old(accepted) <= accepted && old(steps) <= steps
      ensures |steps| - |old(steps)| == |accepted| - |old(accepted)|
      ensures devices == old(devices)[s.device := Noted(s, old(devices)[s.device].repeatedPositions)]
      ensures var dev := old(devices[s.device]);
              && (s.device != Hmd || (dev.frameValid && dev.frame == s.frame) ==>
                   chain == old(chain) && chainStart == old(chainStart))
              && (s.device == Hmd && dev.frameValid && dev.frame != s.frame && s.localContinuous
                  && PureYaw(yawOnly, dev.frame, s.frame) ==>
                   && |accepted| == |old(accepted)| + 1 && accepted[|accepted| - 1].exact
                   && chain == old(chain) + [accepted[|accepted| - 1].transform] && chainStart == old(chainStart))
    {
      hide Compose, Unit, MoveOf, PureYaw, RebaseDelta, Evidence, Composed, HasExact, Decides, Around, Raised, Fitted;
      var dev := devices[s.device];
      ghost var was := candidates;
      var rebased := Raise(s, dev);
      ghost var raised := candidates;
      devices := devices[s.device := Noted(s, dev.repeatedPositions)];
      EvaluatePendingCandidates();
      waiting := candidates;
      RaisedAndFitted(was, raised, waiting, s);
      took := TryAccept();
      if s.device == Hmd {
        ChainFollows(chain, chainStart, dev, s, yawOnly);
        chain, chainStart := NextChain(chain, chainStart, dev, s, yawOnly).0, NextChain(chain, chainStart, dev, s, yawOnly).1;
      }
    }

    /** The sample's candidates: those that waited and one of its own, all fitted that can be by now. */
    ghost predicate Raised(was: seq<Candidate>, waiting: seq<Candidate>, devices: seq<DeviceState>, s: Sample) {
      exists raised: seq<Candidate>, rebased: bool ::
        && was <= raised && RaisedBy(was, raised, s, rebased) && |waiting| == |raised| && |devices| == Slots
        && forall i :: 0 <= i < |raised| ==> raised[i].device < Slots && waiting[i] == FittedBy(fits, devices, raised[i])
    }

    lemma RaisedAndFitted(was: seq<Candidate>, raised: seq<Candidate>, waiting: seq<Candidate>, s: Sample)
      requires was <= raised && |waiting| == |raised| && |devices| == Slots
      requires RaisedBy(was, raised, s, true) || RaisedBy(was, raised, s, false)
      requires forall i :: 0 <= i < |raised| ==> raised[i].device < Slots && waiting[i] == Fitted(raised[i])
      ensures Raised(was, waiting, devices, s)
    {
    }

    /** The candidate this sample raises: a rebase its local pose rode out, or a step nothing explains. */
    method Raise(s: Sample, dev: DeviceState) returns (rebased: bool)
      requires Evidence() && !HasExact(candidates) && s.device < Slots
      modifies `candidates, `nextSerial
      ensures Evidence() && rebased == (dev.frameValid && dev.frame != s.frame && s.localContinuous)
      ensures old(candidates) <= candidates && RaisedBy(old(candidates), candidates, s, rebased)
      ensures HasExact(candidates) <==> rebased && s.device == Hmd
      ensures HasExact(candidates) ==> candidates[FirstExact(candidates)].delta == RebaseDelta(yawOnly, dev.frame, s.frame)
    {
      hide Evidence, HasExact, RebaseDelta;
      ghost var was := candidates;
      rebased := dev.frameValid && dev.frame != s.frame && s.localContinuous;
      if rebased {
        AddCandidate(Candidate(nextSerial, s.device, s.time, Exact, Ready, RebaseDelta(yawOnly, dev.frame, s.frame), 0.0,
                               s.time, false, s.time, s.time, false, false, false));
      } else if s.jump.Some? {
        DetectDiscontinuity(s, s.jump.value);
      }
      ExactIsTheNewOne(was, candidates, s.device, rebased);
    }
  }

  /** A sample with a usable pose, later than the device's last one. */
  predicate Counts(s: Sample, dev: DeviceState) {
    s.usable && !(dev.lastValidTime >= 0.0 && s.time <= dev.lastValidTime)
  }

  /** What is known of a device after a sample that counts; `repeats` is for how long it has not moved. */
  function Noted(s: Sample, repeats: nat): DeviceState {
    DeviceState(true, s.frame, s.time, if s.repeatsPosition then repeats + 1 else 0)
  }

  /** It comes soon enough after the last one to be compared with it. */
  predicate Follows(s: Sample, dev: DeviceState) {
    dev.lastValidTime < 0.0 || s.time - dev.lastValidTime <= GapSeconds
  }

  /** A change the deltas do not follow starts the chain over. */
  ghost function NextChain(chain: seq<Rigid>, start: Rigid, dev: DeviceState, s: Sample, yawOnly: Quat -> Quat)
    : (seq<Rigid>, Rigid)
  {
    if dev.frameValid && dev.frame == s.frame then (chain, start)
    else if dev.frameValid && s.localContinuous && PureYaw(yawOnly, dev.frame, s.frame) then
      (chain + [RebaseDelta(yawOnly, dev.frame, s.frame)], start)
    else ([], s.frame)
  }

  lemma ChainFollows(chain: seq<Rigid>, start: Rigid, dev: DeviceState, s: Sample, yawOnly: Quat -> Quat)
    requires Unit(dev.frame.rotation) && Unit(s.frame.rotation)
    requires dev.frameValid ==> Compose(Composed(chain), start) == dev.frame
    ensures var next := NextChain(chain, start, dev, s, yawOnly); Compose(Composed(next.0), next.1) == s.frame
  {
    hide Compose, Unit, MoveOf, PureYaw, RebaseDelta;
    if dev.frameValid && dev.frame == s.frame {
    } else if dev.frameValid && s.localContinuous && PureYaw(yawOnly, dev.frame, s.frame) {
      ChainExtends(chain, start, dev.frame, s.frame, yawOnly);
    } else {
      StillIsNeutral(s.frame);
    }
  }

  /** Before this sample there was no exact headset candidate, so if there is one now it is this sample's. */
  lemma ExactIsTheNewOne(was: seq<Candidate>, now: seq<Candidate>, device: nat, rebased: bool)
    requires !HasExact(was) && was <= now && |now| <= |was| + 1
    requires |now| > |was| ==> now[|was|].device == device && (now[|was|].LiveExact() <==> rebased)
    requires rebased ==> |now| == |was| + 1
    ensures HasExact(now) <==> rebased && device == Hmd
    ensures HasExact(now) ==> FirstExact(now) == |was|
  {
    assert forall j :: 0 <= j < |was| ==> now[j] == was[j];
    if rebased && device == Hmd {
      FirstExactIs(now, |was|);
    }
  }

  lemma SameExact(was: seq<Candidate>, now: seq<Candidate>)
    requires |was| == |now|
    requires forall j :: 0 <= j < |now| ==> now[j] == was[j] || (now[j].kind.Heuristic? && was[j].kind.Heuristic?)
    ensures HasExact(was) == HasExact(now)
    ensures HasExact(was) ==> now[FirstExact(now)] == was[FirstExact(was)]
  {
    if HasExact(was) {
      var i := FirstExact(was);
      assert now[i] == was[i];
      FirstExactIs(now, i);
    }
    if HasExact(now) {
      assert was[FirstExact(now)] == now[FirstExact(now)];
    }
  }

  /** A device whose continuity broke can vouch for no step across the break. */
  function Broken(c: Candidate, device: nat): Candidate {
    if c.device == device && c.kind.Heuristic? then c.(life := Dead) else c
  }

  function AllBroken(cs: seq<Candidate>, device: nat): (broken: seq<Candidate>)
    ensures |broken| == |cs| && forall i :: 0 <= i < |cs| ==> broken[i] == Broken(cs[i], device)
  {
    seq(|cs|, i requires 0 <= i < |cs| => Broken(cs[i], device))
  }

  method DropHeuristics(was: seq<Candidate>, device: nat) returns (cs: seq<Candidate>)
    ensures SameEvidence(was, cs)
    ensures forall i :: 0 <= i < |cs| ==> cs[i] == Broken(was[i], device)
  {
    cs := was;
    for i := 0 to |cs|
      invariant |cs| == |was|
      invariant forall j :: 0 <= j < |cs| ==> cs[j] == if j < i then Broken(was[j], device) else was[j]
    {
      if cs[i].device == device && cs[i].kind.Heuristic? {
        cs := cs[i := cs[i].(life := Dead)];
      }
    }
  }

  lemma StepIsExact(cs: seq<Candidate>, step: Option<Step>, tol: Tolerances)
    requires step.Some? ==> HasExact(cs) && IsStep(step.value, tol) && step.value.delta.exact
                            && step.value.voters[0] == cs[FirstExact(cs)]
    ensures step.Some? ==> step.value.delta.transform == cs[FirstExact(cs)].delta
  {
  }

  lemma SerialsAreUnused(cs: seq<Candidate>, used: set<nat>, next: nat)
    requires Fresh(cs, used, next)
    ensures forall s :: s in Serials(cs) ==> s !in used && s < next
    ensures Fresh([], used, next)
  {
  }

  lemma VotesAreUnused(cs: seq<Candidate>, judged: seq<Candidate>, votes: seq<nat>, used: set<nat>, next: nat)
    requires Fresh(cs, used, next) && SameEvidence(cs, judged) && forall i :: 0 <= i < |votes| ==> votes[i] < |judged|
    ensures forall s :: s in SerialsOf(Voters(judged, votes)) ==> s !in used && s < next
  {
  }

  lemma NoExactAfter(cs: seq<Candidate>, judged: seq<Candidate>, left: seq<Candidate>)
    requires !HasExact(cs) && SameEvidence(cs, judged) && forall c :: c in left ==> c in judged
    ensures !HasExact(left)
  {
    forall i | 0 <= i < |left| ensures !(left[i].LiveExact() && left[i].device == Hmd) {
      assert left[i] in judged;
      var j :| 0 <= j < |judged| && judged[j] == left[i];
      assert !(cs[j].LiveExact() && cs[j].device == Hmd);
    }
  }

  lemma KeptHasNoExact(cs: seq<Candidate>, keep: Candidate -> bool)
    requires !HasExact(cs)
    ensures !HasExact(Kept(cs, keep))
  {
    forall i | 0 <= i < |Kept(cs, keep)| ensures !(Kept(cs, keep)[i].LiveExact() && Kept(cs, keep)[i].device == Hmd) {
      KeptAreThere(cs, keep, Kept(cs, keep)[i]);
    }
  }
}
