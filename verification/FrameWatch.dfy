/**
 The lighthouse frame watch: every frame change of a tracker becomes a move its correction follows
 or a switch into another frame, at once or once enough is known of the other devices. Its outcome is
 tracked by number.

 A frame is the device's worldFromDriver, compared exactly. What a change looks like from the
 device's own samples (its continuity) is part of the sample. Times are not negative.
 */
module FrameWatch {
  import opened Common
  import opened Rotations
  import opened Counting

  const MaxPendingMoves: nat := 256
  const MaxTransitions: nat := 512
  const MaxInferences: nat := 64
  const RecentTransitions: nat := 16
  const InferSeconds: real := 5.0

  type Frame = f: Rigid | Unit(f.rotation) witness Still

  datatype Kind = Moves | ReExpressed | Unclear
  datatype Cause = Appeared | Reexpression | OwnJump | Returned

  datatype Sample = Sample(id: nat, tracking: bool, connected: bool, baseStation: bool, time: real, frame: Frame,
                           kind: Kind)

  datatype Device = Device(valid: bool, away: bool, baseStation: bool, mark: nat, frame: Frame)

  /** `change` numbers the frame change a result is about. */
  datatype Move = Move(id: nat, time: real, delta: Rigid, from: Frame, to: Frame, inferred: bool, returned: bool, change: nat)
  datatype Switch = Switch(id: nat, time: real, cause: Cause, from: Frame, to: Frame, change: nat)
  datatype Transition = Transition(number: nat, from: Frame, to: Frame)
  datatype Inference = Inference(move: Move, since: nat)

  const NoDevice := Device(false, false, false, 0, Still)

  datatype Outcome =
    | Waiting
    | MoveQueued | SwitchQueued        // in the list, not taken yet
    | Moved | Switched                 // taken by the caller
    | MoveDropped | SwitchDropped      // the list was full
    | Superseded | Forgotten

  datatype Watch = Watch(
    devices: seq<Device>, moves: seq<Move>, moveOverflow: bool, switches: seq<Switch>,
    transitions: seq<Transition>, inferences: seq<Inference>, nextTransition: nat, latestTime: real,
    changes: nat, outcome: map<nat, Outcome>, unreportedDrops: nat)

  // ---------------------------------------------------------------------------
  // Deltas and chains
  // ---------------------------------------------------------------------------

  /** Where the recorded moves since `since` lead from a frame, and whether any applied. */
  function Follow(transitions: seq<Transition>, since: nat, at: Frame, moved: bool): (Frame, bool)
    decreases |transitions|
  {
    if transitions == [] then (at, moved)
    else if transitions[0].number < since || transitions[0].from != at then Follow(transitions[1..], since, at, moved)
    else Follow(transitions[1..], since, transitions[0].to, true)
  }

  predicate Leads(transitions: seq<Transition>, from: Frame, to: Frame, since: nat) {
    Follow(transitions, since, from, false) == (to, true)
  }

  /** The transitions `Follow` takes. */
  function ChainOf(transitions: seq<Transition>, since: nat, at: Frame): seq<Transition>
    decreases |transitions|
  {
    if transitions == [] then []
    else if transitions[0].number < since || transitions[0].from != at then ChainOf(transitions[1..], since, at)
    else [transitions[0]] + ChainOf(transitions[1..], since, transitions[0].to)
  }

  /** Each move of a chain begins in the frame the one before it ended in. */
  predicate Connects(chain: seq<Transition>, from: Frame, to: Frame) {
    if chain == [] then from == to else chain[0].from == from && Connects(chain[1..], chain[0].to, to)
  }

  function ChainDelta(chain: seq<Transition>): Rigid {
    if chain == [] then Still else Compose(ChainDelta(chain[1..]), MoveOf(chain[0].from, chain[0].to))
  }

  predicate Recorded(chain: seq<Transition>, transitions: seq<Transition>, since: nat) {
    forall i :: 0 <= i < |chain| ==> chain[i] in transitions && chain[i].number >= since
  }

  lemma {:induction false} ChainIsRecorded(transitions: seq<Transition>, since: nat, at: Frame, moved: bool)
    ensures var chain := ChainOf(transitions, since, at);
            && Recorded(chain, transitions, since)
            && Connects(chain, at, Follow(transitions, since, at, moved).0)
            && (Follow(transitions, since, at, moved).1 <==> moved || chain != [])
    decreases |transitions|
  {
    if transitions != [] {
      var t := transitions[0];
      if t.number < since || t.from != at {
        ChainIsRecorded(transitions[1..], since, at, moved);
      } else {
        ChainIsRecorded(transitions[1..], since, t.to, true);
        var rest := ChainOf(transitions[1..], since, t.to);
        assert ([t] + rest)[1..] == rest;
      }
    }
  }

  /** The deltas along a chain compose to the delta between its ends. */
  lemma {:induction false} ChainTelescopes(chain: seq<Transition>, from: Frame, to: Frame)
    requires Connects(chain, from, to)
    ensures Compose(ChainDelta(chain), from) == to
    decreases |chain|
  {
    hide Compose, MoveOf, Unit;
    if chain == [] {
      StillIsNeutral(from);
    } else {
      MoveCarries(chain[0].from, chain[0].to);
      ChainTelescopes(chain[1..], chain[0].to, to);
      ComposeAssociative(ChainDelta(chain[1..]), MoveOf(chain[0].from, chain[0].to), from);
    }
  }

  /** An inferred move is backed by recorded moves of other devices, and is exactly their composition. */
  lemma InferredMoveIsBacked(transitions: seq<Transition>, from: Frame, to: Frame, since: nat)
    requires Leads(transitions, from, to, since)
    ensures var chain := ChainOf(transitions, since, from);
            && chain != [] && Recorded(chain, transitions, since) && Connects(chain, from, to)
            && Compose(ChainDelta(chain), from) == to
            && ChainDelta(chain) == MoveOf(from, to)
  {
    var chain := ChainOf(transitions, since, from);
    ChainIsRecorded(transitions, since, from, false);
    ChainTelescopes(chain, from, to);
    MoveCarries(from, to);
    RightCancel(ChainDelta(chain), MoveOf(from, to), from);
  }

  // ---------------------------------------------------------------------------
  // The watch's steps
  // ---------------------------------------------------------------------------

  function Resolved(w: Watch, change: nat, outcome: Outcome): Watch {
    w.(outcome := w.outcome[change := outcome])
  }

  /** The list is bounded; what does not fit leaves the overflow flag behind. */
  function Hand(w: Watch, m: Move): Watch {
    if |w.moves| < MaxPendingMoves then Resolved(w, m.change, MoveQueued).(moves := w.moves + [m])
    else Resolved(w, m.change, MoveDropped).(moveOverflow := true, unreportedDrops := w.unreportedDrops + 1)
  }

  function AddSwitch(w: Watch, s: Switch): Watch {
    if |w.switches| < MaxPendingMoves then Resolved(w, s.change, SwitchQueued).(switches := w.switches + [s])
    else Resolved(w, s.change, SwitchDropped)
  }

  function SwitchOf(m: Move): Switch {
    Switch(m.id, m.time, if m.returned then Returned else OwnJump, m.from, m.to, m.change)
  }

  /** Gives up on a waiting change: it is given out as a switch. */
  function Settle(w: Watch, f: Inference): Watch {
    AddSwitch(w, SwitchOf(f.move))
  }

  /** The move is among the last sixteen that were recorded. */
  predicate RecentlyRecorded(transitions: seq<Transition>, from: Frame, to: Frame) {
    exists i :: 0 <= i < |transitions| && |transitions| - RecentTransitions <= i
                && transitions[i].from == from && transitions[i].to == to
  }

  function Recording(w: Watch, from: Frame, to: Frame): Watch {
    var kept := if |w.transitions| >= MaxTransitions then w.transitions[1..] else w.transitions;
    w.(transitions := kept + [Transition(w.nextTransition, from, to)], nextTransition := w.nextTransition + 1)
  }

  /** Each waiting inference the transitions now lead along is handed out; the others keep waiting. */
  function HandLeading(w: Watch, waiting: seq<Inference>): Watch
    decreases |waiting|
  {
    if waiting == [] then w
    else
      var f := waiting[0];
      if Leads(w.transitions, f.move.from, f.move.to, f.since) then HandLeading(Hand(w, f.move), waiting[1..])
      else HandLeading(w.(inferences := w.inferences + [f]), waiting[1..])
  }

  function AddTransition(w: Watch, from: Frame, to: Frame): Watch {
    if RecentlyRecorded(w.transitions, from, to) then w
    else HandLeading(Recording(w, from, to).(inferences := []), w.inferences)
  }

  /** The waiting changes of one device end with `result`; the others keep waiting. */
  function DropWaiting(w: Watch, waiting: seq<Inference>, id: nat, result: Outcome): Watch
    decreases |waiting|
  {
    if waiting == [] then w
    else if waiting[0].move.id == id then DropWaiting(Resolved(w, waiting[0].move.change, result), waiting[1..], id, result)
    else DropWaiting(w.(inferences := w.inferences + [waiting[0]]), waiting[1..], id, result)
  }

  /** Takes the place of whatever its device was waiting with. */
  function Infer(w: Watch, f: Inference): Watch {
    var v := DropWaiting(w.(inferences := []), w.inferences, f.move.id, Superseded);
    if Leads(v.transitions, f.move.from, f.move.to, f.since) then Hand(v, f.move)
    else if |v.inferences| < MaxInferences then v.(inferences := v.inferences + [f])
    else Settle(v, f)
  }

  function Expire(w: Watch, waiting: seq<Inference>, cutoff: real): Watch
    decreases |waiting|
  {
    if waiting == [] then w
    else if waiting[0].move.time < cutoff then Expire(Settle(w, waiting[0]), waiting[1..], cutoff)
    else Expire(w.(inferences := w.inferences + [waiting[0]]), waiting[1..], cutoff)
  }

  function ExpireInferences(w: Watch): Watch {
    Expire(w.(inferences := []), w.inferences, w.latestTime - InferSeconds)
  }

  function Latest(a: real, b: real): real { if a < b then b else a }

  /** A change gets its number when it is seen, and waits until something is decided. */
  function Numbered(w: Watch): Watch {
    w.(changes := w.changes + 1, outcome := w.outcome[w.changes := Waiting])
  }

  function Changed(w: Watch, d: Device, s: Sample): Watch
    requires s.id < Slots
  {
    var m := Move(s.id, s.time, MoveOf(d.frame, s.frame), d.frame, s.frame, false, false, w.changes);
    if d.valid && s.kind.Moves? then
      if s.baseStation then AddTransition(w, d.frame, s.frame)
      else AddTransition(Hand(Numbered(w), m), d.frame, s.frame)
    else if s.baseStation then w
    else if d.valid && s.kind.ReExpressed? then
      AddSwitch(Numbered(w), Switch(s.id, s.time, Reexpression, d.frame, s.frame, w.changes))
    else Infer(Numbered(w), Inference(m.(inferred := true, returned := !d.valid), d.mark))
  }

  /** A sample that does not track only marks a disconnected device as away; its last frame is kept. */
  function Noted(w: Watch, s: Sample): Watch
    requires |w.devices| == Slots
  {
    if s.id >= Slots then w
    else
      var d := w.devices[s.id];
      if !s.tracking then
        if s.connected then w
        else w.(devices := w.devices[s.id := d.(valid := false, away := d.away || d.valid)])
      else
        var u := w.(latestTime := Latest(w.latestTime, s.time),
                 devices := w.devices[s.id := Device(true, false, s.baseStation, w.nextTransition, s.frame)]);
        var v :=
          if (d.valid || d.away) && d.frame != s.frame then Changed(u, d, s)
          else if !d.valid && !d.away && !s.baseStation then
            AddSwitch(Numbered(u), Switch(s.id, s.time, Appeared, Still, s.frame, u.changes))
          else u;
        ExpireInferences(v)
  }

  // --- forgetting a device ---

  function DropMoves(w: Watch, queued: seq<Move>, id: nat): Watch
    decreases |queued|
  {
    if queued == [] then w
    else if queued[0].id == id then DropMoves(Resolved(w, queued[0].change, Forgotten), queued[1..], id)
    else DropMoves(w.(moves := w.moves + [queued[0]]), queued[1..], id)
  }

  function DropSwitches(w: Watch, queued: seq<Switch>, id: nat): Watch
    decreases |queued|
  {
    if queued == [] then w
    else if queued[0].id == id then DropSwitches(Resolved(w, queued[0].change, Forgotten), queued[1..], id)
    else DropSwitches(w.(switches := w.switches + [queued[0]]), queued[1..], id)
  }

  function Forgot(w: Watch, id: nat): Watch
    requires |w.devices| == Slots
  {
    var d := if id < Slots then w.(devices := w.devices[id := NoDevice]) else w;
    var m := DropMoves(d.(moves := []), d.moves, id);
    var s := DropSwitches(m.(switches := []), m.switches, id);
    DropWaiting(s.(inferences := []), s.inferences, id, Forgotten)
  }

  // --- what the caller takes ---

  function Marked(outcome: map<nat, Outcome>, changes: seq<nat>, result: Outcome): map<nat, Outcome>
    decreases |changes|
  {
    if changes == [] then outcome else Marked(outcome[changes[0] := result], changes[1..], result)
  }

  function MoveChanges(moves: seq<Move>): (changes: seq<nat>)
    ensures |changes| == |moves| && forall i :: 0 <= i < |moves| ==> changes[i] == moves[i].change
  {
    seq(|moves|, i requires 0 <= i < |moves| => moves[i].change)
  }

  function SwitchChanges(switches: seq<Switch>): (changes: seq<nat>)
    ensures |changes| == |switches| && forall i :: 0 <= i < |switches| ==> changes[i] == switches[i].change
  {
    seq(|switches|, i requires 0 <= i < |switches| => switches[i].change)
  }

  function InferenceChanges(inferences: seq<Inference>): (changes: seq<nat>)
    ensures |changes| == |inferences| && forall i :: 0 <= i < |inferences| ==> changes[i] == inferences[i].move.change
  {
    seq(|inferences|, i requires 0 <= i < |inferences| => inferences[i].move.change)
  }

  function MovesTaken(w: Watch): Watch {
    w.(moves := [], outcome := Marked(w.outcome, MoveChanges(w.moves), Moved))
  }

  function SwitchesTaken(w: Watch): Watch {
    w.(switches := [], outcome := Marked(w.outcome, SwitchChanges(w.switches), Switched))
  }

  function OverflowTaken(w: Watch): Watch {
    w.(moveOverflow := false, unreportedDrops := 0)
  }

  // ---------------------------------------------------------------------------
  // One outcome for every change
  // ---------------------------------------------------------------------------

  /** `changes` are, without repetition, all those whose outcome is `status`. */
  predicate Exactly(outcome: map<nat, Outcome>, changes: seq<nat>, status: Outcome) {
    && NoRepeats(changes)
    && (forall i :: 0 <= i < |changes| ==> changes[i] in outcome && outcome[changes[i]] == status)
    && (forall n :: n in outcome && outcome[n] == status ==> n in changes)
  }

  lemma LosesOne(outcome: map<nat, Outcome>, before: seq<nat>, change: nat, after: seq<nat>, status: Outcome, other: Outcome)
    requires Exactly(outcome, before + [change] + after, status) && other != status
    ensures Exactly(outcome[change := other], before + after, status)
  {
    var all, left := before + [change] + after, before + after;
    assert all[|before|] == change;
    forall i | 0 <= i < |left| ensures left[i] != change && left[i] in outcome && outcome[left[i]] == status {
      assert left[i] == all[if i < |before| then i else i + 1];
    }
    forall i, j | 0 <= i < j < |left| ensures left[i] != left[j] {
      assert left[i] == all[if i < |before| then i else i + 1];
      assert left[j] == all[if j < |before| then j else j + 1];
    }
    forall n | n in outcome[change := other] && outcome[change := other][n] == status ensures n in left {
      assert n != change && n in all;
      var i :| 0 <= i < |all| && all[i] == n;
      assert left[if i < |before| then i else i - 1] == n;
    }
  }

  lemma GainsOne(outcome: map<nat, Outcome>, changes: seq<nat>, change: nat, status: Outcome)
    requires Exactly(outcome, changes, status) && (change in outcome ==> outcome[change] != status)
    ensures Exactly(outcome[change := status], changes + [change], status)
  {
    forall n | n in outcome[change := status] && outcome[change := status][n] == status ensures n in changes + [change] {
      if n == change {
        assert (changes + [change])[|changes|] == change;
      }
    }
  }

  lemma Untouched(outcome: map<nat, Outcome>, changes: seq<nat>, change: nat, status: Outcome, other: Outcome)
    requires Exactly(outcome, changes, status) && (change in outcome ==> outcome[change] != status) && other != status
    ensures Exactly(outcome[change := other], changes, status)
  {
  }

  function Ids(inferences: seq<Inference>): (ids: seq<nat>)
    ensures |ids| == |inferences| && forall i :: 0 <= i < |inferences| ==> ids[i] == inferences[i].move.id
  {
    seq(|inferences|, i requires 0 <= i < |inferences| => inferences[i].move.id)
  }

  predicate AllDevices(ids: seq<nat>) {
    forall i :: 0 <= i < |ids| ==> ids[i] < Slots
  }

  lemma HandIgnoresWaiting(w: Watch, m: Move, waiting: seq<Inference>)
    ensures Hand(w.(inferences := waiting), m) == Hand(w, m).(inferences := waiting)
  {
  }

  lemma SwitchIgnoresWaiting(w: Watch, s: Switch, waiting: seq<Inference>)
    ensures AddSwitch(w.(inferences := waiting), s) == AddSwitch(w, s).(inferences := waiting)
  {
  }

  /** At most one change of each device waits. */
  predicate OnePerDevice(pool: seq<Inference>) {
    NoRepeats(Ids(pool)) && AllDevices(Ids(pool))
  }

  /** The books, while `pool` waits. */
  ghost predicate Accounted(w: Watch, pool: seq<Inference>) {
    && (forall n :: n in w.outcome <==> 0 <= n < w.changes)
    && Exactly(w.outcome, InferenceChanges(pool), Waiting)
    && Exactly(w.outcome, MoveChanges(w.moves), MoveQueued)
    && Exactly(w.outcome, SwitchChanges(w.switches), SwitchQueued)
    && |w.moves| <= MaxPendingMoves && |w.switches| <= MaxPendingMoves
    && (w.unreportedDrops > 0 ==> w.moveOverflow)
  }

  ghost predicate Inv(w: Watch) {
    |w.devices| == Slots && Accounted(w, w.inferences) && OnePerDevice(w.inferences)
  }

  /** What was decided stays decided, and what is queued is only taken or forgotten. */
  predicate Progress(was: map<nat, Outcome>, now: map<nat, Outcome>) {
    forall n :: n in was ==>
      && n in now
      && (Final(was[n]) ==> now[n] == was[n])
      && (was[n].MoveQueued? ==> now[n].MoveQueued? || now[n].Moved? || now[n].Forgotten?)
      && (was[n].SwitchQueued? ==> now[n].SwitchQueued? || now[n].Switched? || now[n].Forgotten?)
  }

  lemma ProgressJoins(a: map<nat, Outcome>, b: map<nat, Outcome>, c: map<nat, Outcome>)
    requires Progress(a, b) && Progress(b, c)
    ensures Progress(a, c)
  {
  }

  lemma ProgressOf(outcome: map<nat, Outcome>, change: nat, result: Outcome)
    requires change in outcome ==> outcome[change] == Waiting
    ensures Progress(outcome, outcome[change := result])
  {
  }

  lemma ProgressNone(outcome: map<nat, Outcome>)
    ensures Progress(outcome, outcome)
  {
  }

  // --- lists ---

  lemma PoolSplit(before: seq<Inference>, f: Inference, after: seq<Inference>)
    ensures InferenceChanges(before + [f] + after) == InferenceChanges(before) + [f.move.change] + InferenceChanges(after)
    ensures InferenceChanges(before + after) == InferenceChanges(before) + InferenceChanges(after)
    ensures Ids(before + [f] + after) == Ids(before) + [f.move.id] + Ids(after)
    ensures Ids(before + after) == Ids(before) + Ids(after)
  {
  }

  lemma MoveChangesAppend(moves: seq<Move>, m: Move)
    ensures MoveChanges(moves + [m]) == MoveChanges(moves) + [m.change]
  {
    assert forall i :: 0 <= i <= |moves| ==> MoveChanges(moves + [m])[i] == (MoveChanges(moves) + [m.change])[i];
  }

  lemma SwitchChangesAppend(switches: seq<Switch>, s: Switch)
    ensures SwitchChanges(switches + [s]) == SwitchChanges(switches) + [s.change]
  {
    assert forall i :: 0 <= i <= |switches| ==> SwitchChanges(switches + [s])[i] == (SwitchChanges(switches) + [s.change])[i];
  }

  /** A waiting change is decided. */
  lemma DecidedWaiting(w: Watch, before: seq<Inference>, f: Inference, after: seq<Inference>, other: Outcome)
    requires Accounted(w, before + [f] + after) && other != Waiting
    ensures Exactly(w.outcome[f.move.change := other], InferenceChanges(before + after), Waiting)
    ensures f.move.change in w.outcome && w.outcome[f.move.change] == Waiting
  {
    var pool := before + [f] + after;
    PoolSplit(before, f, after);
    assert InferenceChanges(pool)[|before|] == f.move.change;
    hide InferenceChanges, Ids, NoRepeats, AllDevices;
    LosesOne(w.outcome, InferenceChanges(before), f.move.change, InferenceChanges(after), Waiting, other);
  }

  lemma OneFewer(before: seq<Inference>, f: Inference, after: seq<Inference>)
    requires OnePerDevice(before + [f] + after)
    ensures OnePerDevice(before + after)
  {
    PoolSplit(before, f, after);
    hide Ids, NoRepeats, AllDevices;
    FewerStayDistinct(Ids(before), f.move.id, Ids(after));
  }

  lemma FewerStayDistinct(before: seq<nat>, x: nat, after: seq<nat>)
    requires NoRepeats(before + [x] + after) && AllDevices(before + [x] + after)
    ensures NoRepeats(before + after) && AllDevices(before + after)
  {
    var all, left := before + [x] + after, before + after;
    assert forall i :: 0 <= i < |left| ==> left[i] == all[if i < |before| then i else i + 1];
    forall i, j | 0 <= i < j < |left| ensures left[i] != left[j] {
      assert left[i] == all[if i < |before| then i else i + 1];
      assert left[j] == all[if j < |before| then j else j + 1];
    }
  }

  lemma HandKeeps(w: Watch, before: seq<Inference>, f: Inference, after: seq<Inference>)
    requires Accounted(w, before + [f] + after)
    ensures Accounted(Hand(w, f.move), before + after) && Progress(w.outcome, Hand(w, f.move).outcome)
  {
    var m := f.move;
    hide Exactly, Progress;
    DecidedWaiting(w, before, f, after, if |w.moves| < MaxPendingMoves then MoveQueued else MoveDropped);
    ProgressOf(w.outcome, m.change, if |w.moves| < MaxPendingMoves then MoveQueued else MoveDropped);
    Untouched(w.outcome, SwitchChanges(w.switches), m.change, SwitchQueued,
              if |w.moves| < MaxPendingMoves then MoveQueued else MoveDropped);
    if |w.moves| < MaxPendingMoves {
      GainsOne(w.outcome, MoveChanges(w.moves), m.change, MoveQueued);
      MoveChangesAppend(w.moves, m);
    } else {
      Untouched(w.outcome, MoveChanges(w.moves), m.change, MoveQueued, MoveDropped);
    }
  }

  lemma SettleKeeps(w: Watch, before: seq<Inference>, f: Inference, after: seq<Inference>)
    requires Accounted(w, before + [f] + after)
    ensures Accounted(Settle(w, f), before + after) && Progress(w.outcome, Settle(w, f).outcome)
  {
    var m := f.move;
    var result := if |w.switches| < MaxPendingMoves then SwitchQueued else SwitchDropped;
    hide Exactly, Progress;
    DecidedWaiting(w, before, f, after, result);
    ProgressOf(w.outcome, m.change, result);
    Untouched(w.outcome, MoveChanges(w.moves), m.change, MoveQueued, result);
    if |w.switches| < MaxPendingMoves {
      GainsOne(w.outcome, SwitchChanges(w.switches), m.change, SwitchQueued);
      SwitchChangesAppend(w.switches, SwitchOf(m));
    } else {
      Untouched(w.outcome, SwitchChanges(w.switches), m.change, SwitchQueued, SwitchDropped);
    }
  }

  // --- the passes over what waits ---

  lemma {:induction false} HandLeadingKeeps(w: Watch, waiting: seq<Inference>)
    requires Accounted(w, w.inferences + waiting) && OnePerDevice(w.inferences + waiting)
    ensures var v := HandLeading(w, waiting);
            && Accounted(v, v.inferences) && OnePerDevice(v.inferences) && v.devices == w.devices
            && Progress(w.outcome, v.outcome)
    decreases |waiting|
  {
    hide Accounted, OnePerDevice, Leads, Progress;
    if waiting == [] {
      ProgressNone(w.outcome);
      assert w.inferences + waiting == w.inferences;
    } else {
      var f := waiting[0];
      assert w.inferences + waiting == w.inferences + [f] + waiting[1..];
      if Leads(w.transitions, f.move.from, f.move.to, f.since) {
        HandKeeps(w, w.inferences, f, waiting[1..]);
        OneFewer(w.inferences, f, waiting[1..]);
        HandLeadingKeeps(Hand(w, f.move), waiting[1..]);
        ProgressJoins(w.outcome, Hand(w, f.move).outcome, HandLeading(w, waiting).outcome);
      } else {
        SameBooks(w, w.(inferences := w.inferences + [f]), w.inferences + waiting);
        HandLeadingKeeps(w.(inferences := w.inferences + [f]), waiting[1..]);
      }
    }
  }

  /** The books do not read the waiting list, the transitions, the devices or the clock. */
  lemma SameBooks(w: Watch, v: Watch, pool: seq<Inference>)
    requires Accounted(w, pool) && v.moves == w.moves && v.switches == w.switches && v.outcome == w.outcome
    requires v.changes == w.changes && v.moveOverflow == w.moveOverflow && v.unreportedDrops == w.unreportedDrops
    ensures Accounted(v, pool)
  {
  }

  lemma {:induction false} ExpireKeeps(w: Watch, waiting: seq<Inference>, cutoff: real)
    requires Accounted(w, w.inferences + waiting) && OnePerDevice(w.inferences + waiting)
    ensures var v := Expire(w, waiting, cutoff);
            && Accounted(v, v.inferences) && OnePerDevice(v.inferences) && v.devices == w.devices
            && Progress(w.outcome, v.outcome)
    decreases |waiting|
  {
    hide Accounted, OnePerDevice, Progress;
    if waiting == [] {
      ProgressNone(w.outcome);
      assert w.inferences + waiting == w.inferences;
    } else {
      var f := waiting[0];
      assert w.inferences + waiting == w.inferences + [f] + waiting[1..];
      if f.move.time < cutoff {
        SettleKeeps(w, w.inferences, f, waiting[1..]);
        OneFewer(w.inferences, f, waiting[1..]);
        ExpireKeeps(Settle(w, f), waiting[1..], cutoff);
        ProgressJoins(w.outcome, Settle(w, f).outcome, Expire(w, waiting, cutoff).outcome);
      } else {
        SameBooks(w, w.(inferences := w.inferences + [f]), w.inferences + waiting);
        ExpireKeeps(w.(inferences := w.inferences + [f]), waiting[1..], cutoff);
      }
    }
  }

  predicate Final(outcome: Outcome) {
    !outcome.Waiting? && !outcome.MoveQueued? && !outcome.SwitchQueued?
  }

  lemma ResolveKeeps(w: Watch, before: seq<Inference>, f: Inference, after: seq<Inference>, result: Outcome)
    requires Accounted(w, before + [f] + after) && Final(result)
    ensures Accounted(Resolved(w, f.move.change, result), before + after)
    ensures Progress(w.outcome, Resolved(w, f.move.change, result).outcome)
  {
    hide Exactly, Progress;
    DecidedWaiting(w, before, f, after, result);
    ProgressOf(w.outcome, f.move.change, result);
    Untouched(w.outcome, MoveChanges(w.moves), f.move.change, MoveQueued, result);
    Untouched(w.outcome, SwitchChanges(w.switches), f.move.change, SwitchQueued, result);
  }

  lemma {:induction false} DropWaitingKeeps(w: Watch, waiting: seq<Inference>, id: nat, result: Outcome, more: seq<Inference>)
    requires Accounted(w, w.inferences + waiting + more) && OnePerDevice(w.inferences + waiting) && Final(result)
    requires id !in Ids(w.inferences)
    ensures var v := DropWaiting(w, waiting, id, result);
            && Accounted(v, v.inferences + more) && OnePerDevice(v.inferences) && id !in Ids(v.inferences)
            && v.devices == w.devices && v.transitions == w.transitions && v.switches == w.switches
            && Progress(w.outcome, v.outcome)
    decreases |waiting|
  {
    hide Accounted, OnePerDevice, Ids, Progress;
    if waiting == [] {
      ProgressNone(w.outcome);
      assert w.inferences + waiting == w.inferences;
    } else {
      var f := waiting[0];
      assert w.inferences + waiting == w.inferences + [f] + waiting[1..];
      assert w.inferences + waiting + more == w.inferences + [f] + (waiting[1..] + more);
      if f.move.id == id {
        ResolveKeeps(w, w.inferences, f, waiting[1..] + more, result);
        OneFewer(w.inferences, f, waiting[1..]);
        assert w.inferences + (waiting[1..] + more) == w.inferences + waiting[1..] + more;
        DropWaitingKeeps(Resolved(w, f.move.change, result), waiting[1..], id, result, more);
        ProgressJoins(w.outcome, Resolved(w, f.move.change, result).outcome, DropWaiting(w, waiting, id, result).outcome);
      } else {
        assert w.inferences + waiting + more == (w.inferences + [f]) + waiting[1..] + more;
        SameBooks(w, w.(inferences := w.inferences + [f]), w.inferences + waiting + more);
        IdsAppend(w.inferences, f, id);
        DropWaitingKeeps(w.(inferences := w.inferences + [f]), waiting[1..], id, result, more);
      }
    }
  }

  lemma IdsAppend(pool: seq<Inference>, f: Inference, id: nat)
    requires id !in Ids(pool) && f.move.id != id
    ensures id !in Ids(pool + [f])
  {
    assert forall i :: 0 <= i < |pool| ==> Ids(pool + [f])[i] == Ids(pool)[i];
  }

  // --- a frame change ---

  lemma NumberedKeeps(w: Watch, f: Inference)
    requires Inv(w) && f.move.change == w.changes
    ensures Accounted(Numbered(w), w.inferences + [f]) && Progress(w.outcome, Numbered(w).outcome)
  {
    hide Exactly;
    GainsOne(w.outcome, InferenceChanges(w.inferences), w.changes, Waiting);
    Untouched(w.outcome, MoveChanges(w.moves), w.changes, MoveQueued, Waiting);
    Untouched(w.outcome, SwitchChanges(w.switches), w.changes, SwitchQueued, Waiting);
    assert InferenceChanges(w.inferences + [f]) == InferenceChanges(w.inferences) + [f.move.change];
  }

  /** Every device waits for at most one change, so there is always room for another device's. */
  lemma InferenceFits(inferences: seq<Inference>, id: nat)
    requires OnePerDevice(inferences) && id < Slots && id !in Ids(inferences)
    ensures |inferences| < MaxInferences
  {
    RoomForOneMore(Ids(inferences), Slots, id);
  }

  lemma OneMore(pool: seq<Inference>, f: Inference)
    requires OnePerDevice(pool) && f.move.id < Slots && f.move.id !in Ids(pool)
    ensures OnePerDevice(pool + [f])
  {
    assert Ids(pool + [f]) == Ids(pool) + [f.move.id];
  }

  lemma InferKeeps(w: Watch, f: Inference)
    requires |w.devices| == Slots && Accounted(w, w.inferences + [f]) && OnePerDevice(w.inferences)
    requires f.move.id < Slots
    ensures Inv(Infer(w, f)) && Progress(w.outcome, Infer(w, f).outcome) && Infer(w, f).switches == w.switches
  {
    hide Accounted, OnePerDevice, Leads, Ids, Progress;
    var cleared := w.(inferences := []);
    var v := DropWaiting(cleared, w.inferences, f.move.id, Superseded);
    SameBooks(w, cleared, w.inferences + [f]);
    assert [] + w.inferences + [f] == w.inferences + [f] && [] + w.inferences == w.inferences;
    assert f.move.id !in Ids([]) by { NoIds(f.move.id); }
    DropWaitingKeeps(cleared, w.inferences, f.move.id, Superseded, [f]);
    InferenceFits(v.inferences, f.move.id);
    OneMore(v.inferences, f);
    assert v.inferences + [f] + [] == v.inferences + [f] && v.inferences + [] == v.inferences;
    if Leads(v.transitions, f.move.from, f.move.to, f.since) {
      HandKeeps(v, v.inferences, f, []);
      ProgressJoins(w.outcome, v.outcome, Hand(v, f.move).outcome);
    } else {
      SameBooks(v, v.(inferences := v.inferences + [f]), v.inferences + [f]);
    }
  }

  lemma NoIds(id: nat)
    ensures id !in Ids([])
  {
  }

  lemma AddTransitionKeeps(w: Watch, from: Frame, to: Frame)
    requires Inv(w)
    ensures Inv(AddTransition(w, from, to)) && Progress(w.outcome, AddTransition(w, from, to).outcome)
  {
    ProgressNone(w.outcome);
    hide Accounted, OnePerDevice, RecentlyRecorded, Progress;
    if !RecentlyRecorded(w.transitions, from, to) {
      var v := Recording(w, from, to).(inferences := []);
      assert v.inferences + w.inferences == w.inferences;
      SameBooks(w, v, w.inferences);
      HandLeadingKeeps(v, w.inferences);
    }
  }

  lemma ExpireInferencesKeeps(w: Watch)
    requires Inv(w)
    ensures Inv(ExpireInferences(w)) && Progress(w.outcome, ExpireInferences(w).outcome)
  {
    hide Accounted, OnePerDevice, Progress;
    var v := w.(inferences := []);
    assert v.inferences + w.inferences == w.inferences;
    SameBooks(w, v, w.inferences);
    ExpireKeeps(v, w.inferences, w.latestTime - InferSeconds);
  }

  lemma HandAtOnceKeeps(w: Watch, f: Inference)
    requires Inv(w) && f.move.change == w.changes
    ensures Inv(Hand(Numbered(w), f.move)) && Inv(Settle(Numbered(w), f))
    ensures Progress(w.outcome, Hand(Numbered(w), f.move).outcome) && Progress(w.outcome, Settle(Numbered(w), f).outcome)
  {
    NumberedKeeps(w, f);
    hide Accounted, OnePerDevice, Progress;
    assert w.inferences + [f] + [] == w.inferences + [f] && w.inferences + [] == w.inferences;
    HandKeeps(Numbered(w), w.inferences, f, []);
    SettleKeeps(Numbered(w), w.inferences, f, []);
    ProgressJoins(w.outcome, Numbered(w).outcome, Hand(Numbered(w), f.move).outcome);
    ProgressJoins(w.outcome, Numbered(w).outcome, Settle(Numbered(w), f).outcome);
  }

  lemma AddSwitchKeeps(w: Watch, s: Switch)
    requires Inv(w) && s.change == w.changes
    ensures Inv(AddSwitch(Numbered(w), s)) && Progress(w.outcome, AddSwitch(Numbered(w), s).outcome)
  {
    var f := Inference(Move(s.id, s.time, Still, s.from, s.to, false, false, s.change), 0);
    NumberedKeeps(w, f);
    HandAtOnceKeeps(w, f);
    SwitchLikeAnother(Numbered(w), s, SwitchOf(f.move), w.inferences);
  }

  /** The books only know a switch by its number. */
  lemma SwitchLikeAnother(w: Watch, s: Switch, other: Switch, pool: seq<Inference>)
    requires s.change == other.change && Accounted(AddSwitch(w, other), pool)
    ensures Accounted(AddSwitch(w, s), pool)
  {
    SwitchChangesAppend(w.switches, s);
    SwitchChangesAppend(w.switches, other);
    hide Exactly;
  }

  lemma ChangedKeeps(w: Watch, d: Device, s: Sample)
    requires Inv(w) && s.id < Slots
    ensures Inv(Changed(w, d, s)) && Progress(w.outcome, Changed(w, d, s).outcome)
  {
    ProgressNone(w.outcome);
    hide Inv, MoveOf, Progress;
    var m := Move(s.id, s.time, MoveOf(d.frame, s.frame), d.frame, s.frame, false, false, w.changes);
    if d.valid && s.kind.Moves? {
      if s.baseStation {
        AddTransitionKeeps(w, d.frame, s.frame);
      } else {
        HandAtOnceKeeps(w, Inference(m, 0));
        AddTransitionKeeps(Hand(Numbered(w), m), d.frame, s.frame);
        ProgressJoins(w.outcome, Hand(Numbered(w), m).outcome, Changed(w, d, s).outcome);
      }
    } else if s.baseStation {
    } else if d.valid && s.kind.ReExpressed? {
      AddSwitchKeeps(w, Switch(s.id, s.time, Reexpression, d.frame, s.frame, w.changes));
    } else {
      InferredKeeps(w, Inference(m.(inferred := true, returned := !d.valid), d.mark));
    }
  }

  lemma InferredKeeps(w: Watch, f: Inference)
    requires Inv(w) && f.move.change == w.changes && f.move.id < Slots
    ensures Inv(Infer(Numbered(w), f)) && Progress(w.outcome, Infer(Numbered(w), f).outcome)
  {
    NumberedKeeps(w, f);
    hide Accounted, OnePerDevice, Progress;
    InferKeeps(Numbered(w), f);
    ProgressJoins(w.outcome, Numbered(w).outcome, Infer(Numbered(w), f).outcome);
  }

  lemma NotedKeeps(w: Watch, s: Sample)
    requires Inv(w)
    ensures Inv(Noted(w, s)) && Progress(w.outcome, Noted(w, s).outcome)
  {
    ProgressNone(w.outcome);
    if s.id < Slots {
      var d := w.devices[s.id];
      if !s.tracking {
        var t := w.(devices := w.devices[s.id := d.(valid := false, away := d.away || d.valid)]);
        SameBooks(w, t, w.inferences);
      } else {
        var u := w.(latestTime := Latest(w.latestTime, s.time),
                    devices := w.devices[s.id := Device(true, false, s.baseStation, w.nextTransition, s.frame)]);
        SameBooks(w, u, w.inferences);
        TrackedKeeps(u, d, s);
      }
    }
  }

  lemma TrackedKeeps(u: Watch, d: Device, s: Sample)
    requires Inv(u) && s.id < Slots
    ensures var v := if (d.valid || d.away) && d.frame != s.frame then Changed(u, d, s)
                     else if !d.valid && !d.away && !s.baseStation then
                       AddSwitch(Numbered(u), Switch(s.id, s.time, Appeared, Still, s.frame, u.changes))
                     else u;
            Inv(ExpireInferences(v)) && Progress(u.outcome, ExpireInferences(v).outcome)
  {
    ProgressNone(u.outcome);
    hide Inv, Progress;
    var v := u;
    if (d.valid || d.away) && d.frame != s.frame {
      ChangedKeeps(u, d, s);
      v := Changed(u, d, s);
    } else if !d.valid && !d.away && !s.baseStation {
      var appeared := Switch(s.id, s.time, Appeared, Still, s.frame, u.changes);
      AddSwitchKeeps(u, appeared);
      v := AddSwitch(Numbered(u), appeared);
    }
    ExpireInferencesKeeps(v);
    ProgressJoins(u.outcome, v.outcome, ExpireInferences(v).outcome);
  }

  // --- what the caller takes or forgets ---

  lemma {:induction false} MarkedAs(outcome: map<nat, Outcome>, changes: seq<nat>, result: Outcome, n: nat)
    requires forall i :: 0 <= i < |changes| ==> changes[i] in outcome
    ensures n in Marked(outcome, changes, result) <==> n in outcome
    ensures n in outcome ==> Marked(outcome, changes, result)[n] == if n in changes then result else outcome[n]
    decreases |changes|
  {
    if changes != [] {
      MarkedAs(outcome[changes[0] := result], changes[1..], result, n);
      assert n in changes <==> n == changes[0] || n in changes[1..];
    }
  }

  lemma TakenList(outcome: map<nat, Outcome>, changes: seq<nat>, status: Outcome, result: Outcome)
    requires Exactly(outcome, changes, status) && Final(result)
    requires (status.MoveQueued? && result.Moved?) || (status.SwitchQueued? && result.Switched?)
    ensures var after := Marked(outcome, changes, result);
            && Exactly(after, [], status) && Progress(outcome, after) && (forall n :: n in after <==> n in outcome)
    ensures forall other: seq<nat>, s: Outcome :: s != status && s != result && Exactly(outcome, other, s) ==>
              Exactly(Marked(outcome, changes, result), other, s)
  {
    forall n: nat
      ensures n in Marked(outcome, changes, result) <==> n in outcome
      ensures n in outcome ==> Marked(outcome, changes, result)[n] == if n in changes then result else outcome[n]
    {
      MarkedAs(outcome, changes, result, n);
    }
  }

  lemma MovesTakenKeeps(w: Watch)
    requires Inv(w)
    ensures Inv(MovesTaken(w)) && Progress(w.outcome, MovesTaken(w).outcome)
  {
    TakenList(w.outcome, MoveChanges(w.moves), MoveQueued, Moved);
    hide Exactly, OnePerDevice, Progress, Marked;
    assert MoveChanges([]) == [];
  }

  lemma SwitchesTakenKeeps(w: Watch)
    requires Inv(w)
    ensures Inv(SwitchesTaken(w)) && Progress(w.outcome, SwitchesTaken(w).outcome)
  {
    TakenList(w.outcome, SwitchChanges(w.switches), SwitchQueued, Switched);
    hide Exactly, OnePerDevice, Progress, Marked;
    assert SwitchChanges([]) == [];
  }

  lemma MoveChangesSplit(before: seq<Move>, m: Move, after: seq<Move>)
    ensures MoveChanges(before + [m] + after) == MoveChanges(before) + [m.change] + MoveChanges(after)
    ensures MoveChanges(before + after) == MoveChanges(before) + MoveChanges(after)
  {
  }

  lemma SwitchChangesSplit(before: seq<Switch>, s: Switch, after: seq<Switch>)
    ensures SwitchChanges(before + [s] + after) == SwitchChanges(before) + [s.change] + SwitchChanges(after)
    ensures SwitchChanges(before + after) == SwitchChanges(before) + SwitchChanges(after)
  {
  }

  lemma ForgetQueued(outcome: map<nat, Outcome>, change: nat)
    requires change in outcome && (outcome[change].MoveQueued? || outcome[change].SwitchQueued?)
    ensures Progress(outcome, outcome[change := Forgotten])
  {
  }

  lemma {:induction false} DropMovesKeeps(w: Watch, queued: seq<Move>, id: nat, pool: seq<Inference>)
    requires Accounted(w.(moves := w.moves + queued), pool)
    ensures var v := DropMoves(w, queued, id);
            && Accounted(v, pool) && Progress(w.outcome, v.outcome)
            && v.switches == w.switches && v.inferences == w.inferences && v.devices == w.devices
    decreases |queued|
  {
    hide Exactly, Progress;
    if queued == [] {
      assert w.moves + queued == w.moves;
      ProgressNone(w.outcome);
    } else {
      var m := queued[0];
      assert w.moves + queued == w.moves + [m] + queued[1..];
      if m.id == id {
        MoveChangesSplit(w.moves, m, queued[1..]);
        var all := MoveChanges(w.moves + [m] + queued[1..]);
        assert all[|w.moves|] == m.change;
        assert m.change in w.outcome && w.outcome[m.change] == MoveQueued by { QueuedHas(w.outcome, all, |w.moves|, MoveQueued); }
        LosesOne(w.outcome, MoveChanges(w.moves), m.change, MoveChanges(queued[1..]), MoveQueued, Forgotten);
        Untouched(w.outcome, InferenceChanges(pool), m.change, Waiting, Forgotten);
        Untouched(w.outcome, SwitchChanges(w.switches), m.change, SwitchQueued, Forgotten);
        ForgetQueued(w.outcome, m.change);
        var t := Resolved(w, m.change, Forgotten);
        DropMovesKeeps(t, queued[1..], id, pool);
        ProgressJoins(w.outcome, t.outcome, DropMoves(w, queued, id).outcome);
      } else {
        DropMovesKeeps(w.(moves := w.moves + [m]), queued[1..], id, pool);
      }
    }
  }

  lemma QueuedHas(outcome: map<nat, Outcome>, changes: seq<nat>, i: nat, status: Outcome)
    requires Exactly(outcome, changes, status) && i < |changes|
    ensures changes[i] in outcome && outcome[changes[i]] == status
  {
  }

  lemma {:induction false} DropSwitchesKeeps(w: Watch, queued: seq<Switch>, id: nat, pool: seq<Inference>)
    requires Accounted(w.(switches := w.switches + queued), pool)
    ensures var v := DropSwitches(w, queued, id);
            Accounted(v, pool) && Progress(w.outcome, v.outcome) && v.inferences == w.inferences && v.devices == w.devices
    decreases |queued|
  {
    hide Exactly, Progress;
    if queued == [] {
      assert w.switches + queued == w.switches;
      ProgressNone(w.outcome);
    } else {
      var m := queued[0];
      assert w.switches + queued == w.switches + [m] + queued[1..];
      if m.id == id {
        SwitchChangesSplit(w.switches, m, queued[1..]);
        var all := SwitchChanges(w.switches + [m] + queued[1..]);
        assert all[|w.switches|] == m.change;
        assert m.change in w.outcome && w.outcome[m.change] == SwitchQueued by {
          QueuedHas(w.outcome, all, |w.switches|, SwitchQueued);
        }
        LosesOne(w.outcome, SwitchChanges(w.switches), m.change, SwitchChanges(queued[1..]), SwitchQueued, Forgotten);
        Untouched(w.outcome, InferenceChanges(pool), m.change, Waiting, Forgotten);
        Untouched(w.outcome, MoveChanges(w.moves), m.change, MoveQueued, Forgotten);
        ForgetQueued(w.outcome, m.change);
        var t := Resolved(w, m.change, Forgotten);
        DropSwitchesKeeps(t, queued[1..], id, pool);
        ProgressJoins(w.outcome, t.outcome, DropSwitches(w, queued, id).outcome);
      } else {
        DropSwitchesKeeps(w.(switches := w.switches + [m]), queued[1..], id, pool);
      }
    }
  }

  lemma QueuesForgotten(w: Watch, id: nat)
    requires Accounted(w, w.inferences)
    ensures var m := DropMoves(w.(moves := []), w.moves, id);
            var s := DropSwitches(m.(switches := []), m.switches, id);
            && Accounted(s, w.inferences) && Progress(w.outcome, s.outcome)
            && s.inferences == w.inferences && s.devices == w.devices
  {
    hide Accounted, Progress;
    var emptied := w.(moves := []);
    assert emptied.moves + w.moves == w.moves && emptied.(moves := w.moves) == w;
    DropMovesKeeps(emptied, w.moves, id, w.inferences);
    var m := DropMoves(emptied, w.moves, id);
    var emptiedToo := m.(switches := []);
    assert emptiedToo.switches + m.switches == m.switches && emptiedToo.(switches := m.switches) == m;
    DropSwitchesKeeps(emptiedToo, m.switches, id, w.inferences);
    ProgressJoins(w.outcome, m.outcome, DropSwitches(emptiedToo, m.switches, id).outcome);
  }

  lemma WaitingForgotten(s: Watch, id: nat)
    requires |s.devices| == Slots && Accounted(s, s.inferences) && OnePerDevice(s.inferences)
    ensures var v := DropWaiting(s.(inferences := []), s.inferences, id, Forgotten);
            Inv(v) && Progress(s.outcome, v.outcome)
  {
    hide Accounted, OnePerDevice, Progress, Ids;
    var cleared := s.(inferences := []);
    SameBooks(s, cleared, s.inferences);
    assert [] + s.inferences + [] == s.inferences && [] + s.inferences == s.inferences;
    NoIds(id);
    DropWaitingKeeps(cleared, s.inferences, id, Forgotten, []);
    var v := DropWaiting(cleared, s.inferences, id, Forgotten);
    assert v.inferences + [] == v.inferences;
  }

  lemma ForgotKeeps(w: Watch, id: nat)
    requires Inv(w)
    ensures Inv(Forgot(w, id)) && Progress(w.outcome, Forgot(w, id).outcome)
  {
    var d := if id < Slots then w.(devices := w.devices[id := NoDevice]) else w;
    SameBooks(w, d, w.inferences);
    hide Accounted, OnePerDevice, Progress, DropWaiting, DropMoves, DropSwitches;
    QueuesForgotten(d, id);
    var m := DropMoves(d.(moves := []), d.moves, id);
    var s := DropSwitches(m.(switches := []), m.switches, id);
    WaitingForgotten(s, id);
    ProgressJoins(w.outcome, s.outcome, Forgot(w, id).outcome);
  }

  // ---------------------------------------------------------------------------
  // Whole runs
  // ---------------------------------------------------------------------------

  datatype Event = Note(sample: Sample) | Forget(id: nat) | TakeMoves | TakeSwitches | TakeOverflow

  function Fresh(): Watch {
    Watch(seq(Slots, _ => NoDevice), [], false, [], [], [], 0, 0.0, 0, map[], 0)
  }

  function After(w: Watch, event: Event): Watch
    requires |w.devices| == Slots
  {
    match event
    case Note(sample) => Noted(w, sample)
    case Forget(id) => Forgot(w, id)
    case TakeMoves => MovesTaken(w)
    case TakeSwitches => SwitchesTaken(w)
    case TakeOverflow => OverflowTaken(w)
  }

  ghost predicate Reaches(w: Watch, events: seq<Event>, v: Watch)
    decreases |events|
  {
    if events == [] then v == w else |w.devices| == Slots && Reaches(After(w, events[0]), events[1..], v)
  }

  lemma AfterKeeps(w: Watch, event: Event)
    requires Inv(w)
    ensures Inv(After(w, event)) && Progress(w.outcome, After(w, event).outcome)
  {
    match event
    case Note(sample) => NotedKeeps(w, sample);
    case Forget(id) => ForgotKeeps(w, id);
    case TakeMoves => MovesTakenKeeps(w);
    case TakeSwitches => SwitchesTakenKeeps(w);
    case TakeOverflow => ProgressNone(w.outcome);
  }

  lemma {:induction false} ReachesKeeps(w: Watch, events: seq<Event>, v: Watch)
    requires Inv(w) && Reaches(w, events, v)
    ensures Inv(v) && Progress(w.outcome, v.outcome)
    decreases |events|
  {
    hide Inv, Progress, After;
    if events == [] {
      ProgressNone(w.outcome);
    } else {
      AfterKeeps(w, events[0]);
      ReachesKeeps(After(w, events[0]), events[1..], v);
      ProgressJoins(w.outcome, After(w, events[0]).outcome, v.outcome);
    }
  }

  lemma FreshInv()
    ensures Inv(Fresh())
  {
  }

  /**
   Over every run each change of frame has one outcome: it is in exactly the list its outcome
   names, once, what was decided for it earlier in the run still stands, and a move was only
   dropped with the overflow flag set until somebody asked.
   */
  lemma EveryChangeHasOneOutcome(events: seq<Event>, more: seq<Event>, w: Watch, v: Watch)
    requires Reaches(Fresh(), events, w) && Reaches(w, more, v)
    ensures forall n :: 0 <= n < v.changes <==> n in v.outcome
    ensures Exactly(v.outcome, InferenceChanges(v.inferences), Waiting)
    ensures Exactly(v.outcome, MoveChanges(v.moves), MoveQueued)
    ensures Exactly(v.outcome, SwitchChanges(v.switches), SwitchQueued)
    ensures Progress(w.outcome, v.outcome)
    ensures v.unreportedDrops > 0 ==> v.moveOverflow
    ensures NoRepeats(Ids(v.inferences)) && |v.inferences| <= Slots
  {
    FreshInv();
    ReachesKeeps(Fresh(), events, w);
    ReachesKeeps(w, more, v);
    AtMostOneEach(v.inferences);
    hide Exactly, Progress;
  }

  lemma AtMostOneEach(inferences: seq<Inference>)
    requires OnePerDevice(inferences)
    ensures |inferences| <= Slots
  {
    AllDifferent(Ids(inferences));
    assert Elements(Ids(inferences)) <= Below(Slots);
    SmallerSet(Elements(Ids(inferences)), Below(Slots));
  }

  // --- what is handed out ---

  /** The chain of recorded transitions from `m`'s old frame, `since` on, ends in its new one and makes up its delta. */
  predicate Backed(m: Move, transitions: seq<Transition>, since: nat) {
    var chain := ChainOf(transitions, since, m.from);
    && chain != [] && Recorded(chain, transitions, since) && Connects(chain, m.from, m.to)
    && m.delta == ChainDelta(chain)
  }

  /** The change a sample has to wait with, followed from the mark its device was last seen at. */
  function Proposed(w: Watch, event: Event): seq<Inference>
    requires |w.devices| == Slots
  {
    if event.Note? && event.sample.id < Slots && event.sample.tracking && !event.sample.baseStation then
      var s, d := event.sample, w.devices[event.sample.id];
      if (d.valid || d.away) && d.frame != s.frame && !(d.valid && !s.kind.Unclear?) then
        [Inference(Move(s.id, s.time, MoveOf(d.frame, s.frame), d.frame, s.frame, true, !d.valid, w.changes), d.mark)]
      else []
    else []
  }

  predicate IsInferred(f: Inference) {
    f.move.inferred && f.move.delta == MoveOf(f.move.from, f.move.to)
  }

  lemma LedIsBacked(f: Inference, transitions: seq<Transition>)
    requires IsInferred(f) && Leads(transitions, f.move.from, f.move.to, f.since)
    ensures Backed(f.move, transitions, f.since)
  {
    InferredMoveIsBacked(transitions, f.move.from, f.move.to, f.since);
    hide ChainOf, Recorded, Connects, ChainDelta, MoveOf, Leads;
  }

  /** Every recorded transition is numbered below the next one. */
  predicate NumbersRise(w: Watch) {
    forall i :: 0 <= i < |w.transitions| ==> w.transitions[i].number < w.nextTransition
  }

  /** `v` hands out no inferred moves `w` did not, except ones of `pool` that `v`'s transitions lead to. */
  ghost predicate HandsOut(w: Watch, v: Watch, pool: seq<Inference>) {
    && (NumbersRise(w) ==> NumbersRise(v))
    && (forall f :: f in v.inferences ==> f in pool)
    && (forall m :: m in v.moves && m.inferred && m !in w.moves ==>
          exists f :: f in pool && f.move == m && Leads(v.transitions, m.from, m.to, f.since))
  }

  lemma {:induction false} HandLeadingHandsOut(w: Watch, waiting: seq<Inference>)
    ensures var v := HandLeading(w, waiting);
            && v.transitions == w.transitions && v.nextTransition == w.nextTransition
            && HandsOut(w, v, w.inferences + waiting)
    decreases |waiting|
  {
    hide Leads;
    if waiting != [] {
      var f := waiting[0];
      var next := if Leads(w.transitions, f.move.from, f.move.to, f.since) then Hand(w, f.move)
                  else w.(inferences := w.inferences + [f]);
      HandLeadingHandsOut(next, waiting[1..]);
      var v := HandLeading(next, waiting[1..]);
      forall m | m in v.moves && m.inferred && m !in w.moves
        ensures exists g :: g in w.inferences + waiting && g.move == m && Leads(v.transitions, m.from, m.to, g.since)
      {
        if m in next.moves {
          assert f in w.inferences + waiting;
        }
      }
    }
  }

  lemma {:induction false} DroppingHandsOut(w: Watch, waiting: seq<Inference>, id: nat, result: Outcome)
    ensures var v := DropWaiting(w, waiting, id, result);
            && v.moves == w.moves && v.transitions == w.transitions && v.nextTransition == w.nextTransition
            && forall f :: f in v.inferences ==> f in w.inferences + waiting
    decreases |waiting|
  {
    if waiting != [] {
      var next := if waiting[0].move.id == id then Resolved(w, waiting[0].move.change, result)
                  else w.(inferences := w.inferences + [waiting[0]]);
      DroppingHandsOut(next, waiting[1..], id, result);
    }
  }

  lemma {:induction false} ExpiringHandsOut(w: Watch, waiting: seq<Inference>, cutoff: real)
    ensures var v := Expire(w, waiting, cutoff);
            && v.moves == w.moves && v.transitions == w.transitions && v.nextTransition == w.nextTransition
            && forall f :: f in v.inferences ==> f in w.inferences + waiting
    decreases |waiting|
  {
    if waiting != [] {
      var next := if waiting[0].move.time < cutoff then Settle(w, waiting[0])
                  else w.(inferences := w.inferences + [waiting[0]]);
      ExpiringHandsOut(next, waiting[1..], cutoff);
    }
  }

  lemma InferHandsOut(w: Watch, f: Inference)
    ensures HandsOut(w, Infer(w, f), w.inferences + [f])
  {
    hide Leads, DropWaiting;
    DroppingHandsOut(w.(inferences := []), w.inferences, f.move.id, Superseded);
    assert f in w.inferences + [f];
  }

  lemma AddTransitionHandsOut(w: Watch, from: Frame, to: Frame)
    ensures HandsOut(w, AddTransition(w, from, to), w.inferences)
  {
    hide Leads, RecentlyRecorded, HandLeading;
    var v := Recording(w, from, to).(inferences := []);
    HandLeadingHandsOut(v, w.inferences);
    assert v.inferences + w.inferences == w.inferences;
  }

  lemma ChangedHandsOut(w: Watch, d: Device, s: Sample, pool: seq<Inference>)
    requires s.id < Slots
    requires pool == w.inferences
                     + if s.baseStation || (d.valid && !s.kind.Unclear?) then []
                       else [Inference(Move(s.id, s.time, MoveOf(d.frame, s.frame), d.frame, s.frame, true, !d.valid, w.changes),
                                       d.mark)]
    ensures HandsOut(w, Changed(w, d, s), pool)
  {
    hide Leads, Infer, AddTransition, MoveOf;
    var m := Move(s.id, s.time, MoveOf(d.frame, s.frame), d.frame, s.frame, false, false, w.changes);
    AddTransitionHandsOut(w, d.frame, s.frame);
    AddTransitionHandsOut(Hand(Numbered(w), m), d.frame, s.frame);
    InferHandsOut(Numbered(w), Inference(m.(inferred := true, returned := !d.valid), d.mark));
  }

  lemma {:induction false} ForgettingMoves(w: Watch, queued: seq<Move>, id: nat)
    ensures var v := DropMoves(w, queued, id);
            && v.inferences == w.inferences && v.transitions == w.transitions && v.nextTransition == w.nextTransition
            && forall m :: m in v.moves ==> m in w.moves + queued
    decreases |queued|
  {
    if queued != [] {
      var next := if queued[0].id == id then Resolved(w, queued[0].change, Forgotten) else w.(moves := w.moves + [queued[0]]);
      ForgettingMoves(next, queued[1..], id);
    }
  }

  lemma {:induction false} ForgettingSwitches(w: Watch, queued: seq<Switch>, id: nat)
    ensures var v := DropSwitches(w, queued, id);
            && v.inferences == w.inferences && v.transitions == w.transitions && v.nextTransition == w.nextTransition
            && v.moves == w.moves
    decreases |queued|
  {
    if queued != [] {
      var next := if queued[0].id == id then Resolved(w, queued[0].change, Forgotten)
                  else w.(switches := w.switches + [queued[0]]);
      ForgettingSwitches(next, queued[1..], id);
    }
  }

  lemma ForgotHandsOut(w: Watch, id: nat)
    requires |w.devices| == Slots
    ensures HandsOut(w, Forgot(w, id), w.inferences)
  {
    var d := if id < Slots then w.(devices := w.devices[id := NoDevice]) else w;
    ForgettingMoves(d.(moves := []), d.moves, id);
    var m := DropMoves(d.(moves := []), d.moves, id);
    ForgettingSwitches(m.(switches := []), m.switches, id);
    var s := DropSwitches(m.(switches := []), m.switches, id);
    DroppingHandsOut(s.(inferences := []), s.inferences, id, Forgotten);
    assert [] + s.inferences == w.inferences;
  }

  lemma ExpiryHandsOut(w: Watch, u: Watch, v: Watch, pool: seq<Inference>)
    requires u.moves == w.moves && u.transitions == w.transitions && u.nextTransition == w.nextTransition
    requires HandsOut(u, v, pool)
    ensures HandsOut(w, ExpireInferences(v), pool)
  {
    hide Leads;
    ExpiringHandsOut(v.(inferences := []), v.inferences, v.latestTime - InferSeconds);
    assert [] + v.inferences == v.inferences;
  }

  lemma NotedHandsOut(w: Watch, s: Sample)
    requires |w.devices| == Slots
    ensures HandsOut(w, Noted(w, s), w.inferences + Proposed(w, Note(s)))
  {
    if s.id < Slots && s.tracking {
      var d, pool := w.devices[s.id], w.inferences + Proposed(w, Note(s));
      var u := w.(latestTime := Latest(w.latestTime, s.time),
               devices := w.devices[s.id := Device(true, false, s.baseStation, w.nextTransition, s.frame)]);
      var appeared := Switch(s.id, s.time, Appeared, Still, s.frame, u.changes);
      assert HandsOut(u, u, pool) && HandsOut(u, AddSwitch(Numbered(u), appeared), pool);
      var v := u;
      hide Changed, MoveOf, ExpireInferences, HandsOut;
      if (d.valid || d.away) && d.frame != s.frame {
        ChangedHandsOut(u, d, s, pool);
        v := Changed(u, d, s);
      } else if !d.valid && !d.away && !s.baseStation {
        v := AddSwitch(Numbered(u), appeared);
      }
      ExpiryHandsOut(w, u, v, pool);
    }
  }

  lemma AfterHandsOut(w: Watch, event: Event)
    requires |w.devices| == Slots
    ensures HandsOut(w, After(w, event), w.inferences + Proposed(w, event))
  {
    hide Leads, Noted, Forgot;
    match event
    case Note(sample) => NotedHandsOut(w, sample);
    case Forget(id) => ForgotHandsOut(w, id);
    case _ =>
  }

  /** Where a run from the start gets to. */
  ghost function Played(events: seq<Event>): (w: Watch)
    ensures Inv(w)
    decreases |events|
  {
    if events == [] then FreshInv(); Fresh()
    else
      var before := Played(events[..|events| - 1]);
      AfterKeeps(before, events[|events| - 1]);
      After(before, events[|events| - 1])
  }

  lemma {:induction false} ReachesOn(w: Watch, events: seq<Event>, v: Watch)
    requires Inv(w)
    ensures events != [] ==> (Reaches(w, events, v) <==>
              exists u :: Reaches(w, events[..|events| - 1], u) && |u.devices| == Slots && v == After(u, events[|events| - 1]))
    decreases |events|
  {
    hide After, Accounted, OnePerDevice, Progress;
    if |events| > 1 {
      var first, rest := After(w, events[0]), events[1..];
      AfterKeeps(w, events[0]);
      ReachesOn(first, rest, v);
      var front := events[..|events| - 1];
      assert rest[..|rest| - 1] == front[1..] && rest[|rest| - 1] == events[|events| - 1];
      if Reaches(w, events, v) {
        var u :| Reaches(first, rest[..|rest| - 1], u) && |u.devices| == Slots && v == After(u, rest[|rest| - 1]);
        assert Reaches(w, front, u);
      }
      forall u | Reaches(w, front, u) && |u.devices| == Slots && v == After(u, events[|events| - 1])
        ensures Reaches(w, events, v)
      {
        assert Reaches(first, rest[..|rest| - 1], u);
      }
    } else if |events| == 1 {
      assert Reaches(w, events[..0], w);
      assert events[1..] == [];
    }
  }

  /** A run has one end, and it is where the run from the start gets to. */
  lemma {:induction false} ReachedIsPlayed(events: seq<Event>, w: Watch)
    ensures Reaches(Fresh(), events, w) <==> w == Played(events)
    decreases |events|
  {
    hide After, Fresh, Accounted, OnePerDevice;
    FreshInv();
    if events != [] {
      ReachesOn(Fresh(), events, w);
      var front := events[..|events| - 1];
      forall u: Watch ensures Reaches(Fresh(), front, u) <==> u == Played(front) {
        ReachedIsPlayed(front, u);
      }
    }
  }

  /** In event `k` the device of `m` was seen in `m`'s new frame; before, in its old one, at `mark`. */
  ghost predicate ChangeSeen(events: seq<Event>, k: nat, m: Move, mark: nat)
    requires k < |events|
  {
    && events[k].Note? && events[k].sample.id == m.id < Slots
    && events[k].sample.frame == m.to && events[k].sample.time == m.time
    && Played(events[..k]).devices[m.id].frame == m.from && m.from != m.to
    && Played(events[..k]).devices[m.id].mark == mark
  }

  /** What a run's waiting changes are. */
  ghost predicate WaitsAreSeen(events: seq<Event>, pool: seq<Inference>) {
    forall f :: f in pool ==> IsInferred(f) && exists k :: 0 <= k < |events| && ChangeSeen(events, k, f.move, f.since)
  }

  lemma ProposedIsSeen(events: seq<Event>, event: Event)
    ensures WaitsAreSeen(events + [event], Proposed(Played(events), event))
  {
    var all := events + [event];
    assert all[..|events|] == events;
    hide MoveOf, Played;
    forall f | f in Proposed(Played(events), event)
      ensures IsInferred(f) && exists k :: 0 <= k < |all| && ChangeSeen(all, k, f.move, f.since)
    {
      assert ChangeSeen(all, |events|, f.move, f.since);
    }
  }

  lemma SeenStays(events: seq<Event>, event: Event, pool: seq<Inference>)
    requires WaitsAreSeen(events, pool)
    ensures WaitsAreSeen(events + [event], pool)
  {
    var all := events + [event];
    hide Played, IsInferred;
    forall f | f in pool ensures IsInferred(f) && exists k :: 0 <= k < |all| && ChangeSeen(all, k, f.move, f.since) {
      var k :| 0 <= k < |events| && ChangeSeen(events, k, f.move, f.since);
      assert all[..k] == events[..k];
      assert ChangeSeen(all, k, f.move, f.since);
    }
  }

  lemma {:induction false} WaitingIsSeen(events: seq<Event>)
    ensures WaitsAreSeen(events, Played(events).inferences)
    decreases |events|
  {
    if events != [] {
      var front, event := events[..|events| - 1], events[|events| - 1];
      assert events == front + [event];
      WaitingIsSeen(front);
      ProposedIsSeen(front, event);
      SeenStays(front, event, Played(front).inferences);
      SeenTogether(events, Played(front).inferences, Proposed(Played(front), event));
      AfterHandsOut(Played(front), event);
      FewerSeen(events, Played(front), Played(events), Played(front).inferences + Proposed(Played(front), event));
      hide WaitsAreSeen, HandsOut, Proposed, Inv, After;
    }
  }

  lemma SeenTogether(events: seq<Event>, pool: seq<Inference>, more: seq<Inference>)
    requires WaitsAreSeen(events, pool) && WaitsAreSeen(events, more)
    ensures WaitsAreSeen(events, pool + more)
  {
    hide ChangeSeen, IsInferred;
  }

  lemma FewerSeen(events: seq<Event>, w: Watch, v: Watch, pool: seq<Inference>)
    requires HandsOut(w, v, pool) && WaitsAreSeen(events, pool)
    ensures WaitsAreSeen(events, v.inferences)
  {
    hide ChangeSeen, IsInferred, Leads;
  }

  /**
   Over every run, each inferred move that becomes due was seen as a change of its device in one of
   the run's events, and a chain of transitions recorded since that device was last seen in its old
   frame leads to the new one and makes up the move's delta.
   */
  lemma EveryInferredMoveIsBacked(events: seq<Event>, event: Event, w: Watch, m: Move)
    requires Reaches(Fresh(), events, w)
    requires |w.devices| == Slots && m in After(w, event).moves && m !in w.moves && m.inferred
    ensures exists k, mark :: 0 <= k <= |events| && ChangeSeen(events + [event], k, m, mark)
                              && Backed(m, After(w, event).transitions, mark)
  {
    hide After, Proposed, ChangeSeen, Leads, Backed, IsInferred, Played, Fresh;
    ReachedIsPlayed(events, w);
    AfterHandsOut(w, event);
    var v := After(w, event);
    var f :| f in w.inferences + Proposed(w, event) && f.move == m && Leads(v.transitions, m.from, m.to, f.since);
    WaitingIsSeen(events);
    SeenStays(events, event, w.inferences);
    ProposedIsSeen(events, event);
    LedIsBacked(f, v.transitions);
    var k :| 0 <= k < |events + [event]| && ChangeSeen(events + [event], k, m, f.since);
  }

  // --- a move that repeats ---

  lemma {:induction false} FollowAppended(transitions: seq<Transition>, t: Transition, since: nat, at: Frame, moved: bool)
    ensures var so := Follow(transitions, since, at, moved);
            Follow(transitions + [t], since, at, moved) == if t.number >= since && t.from == so.0 then (t.to, true) else so
    decreases |transitions|
  {
    if transitions == [] {
      assert transitions + [t] == [t];
    } else {
      var head := transitions[0];
      assert (transitions + [t])[1..] == transitions[1..] + [t];
      if head.number < since || head.from != at {
        FollowAppended(transitions[1..], t, since, at, moved);
      } else {
        FollowAppended(transitions[1..], t, since, head.to, true);
      }
    }
  }

  /** The oldest transition goes when a full list takes a new one. */
  function Kept(transitions: seq<Transition>): seq<Transition> {
    if |transitions| >= MaxTransitions then transitions[1..] else transitions
  }

  /**
   Whether a device that was last seen in `from`, at mark `since`, is led to `to` once some device
   reports that move: if it is among the last sixteen, exactly if it was led there before; otherwise
   exactly if what is kept leaves it in `from`, or leads it to `to` already.
   */
  lemma WhenAReportLeads(w: Watch, from: Frame, to: Frame, since: nat)
    ensures Leads(AddTransition(w, from, to).transitions, from, to, since) <==>
              if RecentlyRecorded(w.transitions, from, to) then Leads(w.transitions, from, to, since)
              else (since <= w.nextTransition && Follow(Kept(w.transitions), since, from, false).0 == from)
                   || Leads(Kept(w.transitions), from, to, since)
  {
    if !RecentlyRecorded(w.transitions, from, to) {
      var v := Recording(w, from, to).(inferences := []);
      HandLeadingHandsOut(v, w.inferences);
      FollowAppended(Kept(w.transitions), Transition(w.nextTransition, from, to), since, from, false);
    }
  }

  lemma {:induction false} NothingSince(transitions: seq<Transition>, since: nat, at: Frame, moved: bool)
    requires forall i :: 0 <= i < |transitions| ==> transitions[i].number < since
    ensures Follow(transitions, since, at, moved) == (at, moved)
    decreases |transitions|
  {
    if transitions != [] {
      NothingSince(transitions[1..], since, at, moved);
    }
  }

  lemma {:induction false} NumbersRiseInRuns(events: seq<Event>)
    ensures NumbersRise(Played(events))
    decreases |events|
  {
    if events != [] {
      NumbersRiseInRuns(events[..|events| - 1]);
      AfterHandsOut(Played(events[..|events| - 1]), events[|events| - 1]);
      hide After, Proposed;
    }
  }

  /**
   In every run, a device last seen in `from` since the last recorded transition is led to `to` by a
   report of that move exactly when the move is not among the last sixteen recorded.
   */
  lemma RepeatedMoveIsMissed(events: seq<Event>, w: Watch, from: Frame, to: Frame)
    requires Reaches(Fresh(), events, w)
    ensures Leads(AddTransition(w, from, to).transitions, from, to, w.nextTransition)
            <==> !RecentlyRecorded(w.transitions, from, to)
  {
    hide Fresh, Played, Reaches, AddTransition;
    ReachedIsPlayed(events, w);
    NumbersRiseInRuns(events);
    NothingSince(w.transitions, w.nextTransition, from, false);
    NothingSince(Kept(w.transitions), w.nextTransition, from, false);
    WhenAReportLeads(w, from, to, w.nextTransition);
  }

  // --- what becomes of a device that returns ---

  lemma {:induction false} ExpiringDecides(w: Watch, waiting: seq<Inference>, cutoff: real, n: nat)
    requires n in w.outcome
    ensures var v := Expire(w, waiting, cutoff);
            n in v.outcome && (v.outcome[n] == w.outcome[n] || v.outcome[n].SwitchQueued? || v.outcome[n].SwitchDropped?)
    decreases |waiting|
  {
    if waiting != [] {
      ExpiringDecides(if waiting[0].move.time < cutoff then Settle(w, waiting[0])
                      else w.(inferences := w.inferences + [waiting[0]]), waiting[1..], cutoff, n);
    }
  }

  lemma {:induction false} DroppingLeavesOthers(w: Watch, waiting: seq<Inference>, id: nat, result: Outcome, n: nat)
    requires n in w.outcome && n !in InferenceChanges(waiting)
    ensures var v := DropWaiting(w, waiting, id, result); n in v.outcome && v.outcome[n] == w.outcome[n]
    decreases |waiting|
  {
    if waiting != [] {
      assert InferenceChanges(waiting)[0] == waiting[0].move.change;
      assert InferenceChanges(waiting)[1..] == InferenceChanges(waiting[1..]);
      DroppingLeavesOthers(if waiting[0].move.id == id then Resolved(w, waiting[0].move.change, result)
                           else w.(inferences := w.inferences + [waiting[0]]), waiting[1..], id, result, n);
    }
  }

  predicate IsMove(outcome: Outcome) { outcome.MoveQueued? || outcome.MoveDropped? }

  predicate IsSwitchOrWaits(outcome: Outcome) { outcome.Waiting? || outcome.SwitchQueued? || outcome.SwitchDropped? }

  lemma InferringDecides(w: Watch, f: Inference)
    requires f.move.change in w.outcome && w.outcome[f.move.change].Waiting?
    requires f.move.change !in InferenceChanges(w.inferences)
    ensures var v, led := Infer(w, f), Leads(w.transitions, f.move.from, f.move.to, f.since);
            && f.move.change in v.outcome
            && if led then IsMove(v.outcome[f.move.change]) else IsSwitchOrWaits(v.outcome[f.move.change])
  {
    hide Leads, DropWaiting;
    DroppingHandsOut(w.(inferences := []), w.inferences, f.move.id, Superseded);
    DroppingLeavesOthers(w.(inferences := []), w.inferences, f.move.id, Superseded, f.move.change);
  }

  /**
   A device that comes back in another frame has moved with its frame exactly if the recorded
   transitions lead there from its mark; if they do not, it waits for one that does, or has switched.
   */
  lemma WhenAReturningDeviceIsLed(w: Watch, s: Sample)
    requires Inv(w) && s.id < Slots && s.tracking && !s.baseStation
    requires var d := w.devices[s.id]; !d.valid && d.away && d.frame != s.frame
    ensures var v, d := Noted(w, s), w.devices[s.id];
            && w.changes in v.outcome
            && if Leads(w.transitions, d.frame, s.frame, d.mark) then IsMove(v.outcome[w.changes])
               else IsSwitchOrWaits(v.outcome[w.changes])
  {
    var d := w.devices[s.id];
    var seen := w.(latestTime := Latest(w.latestTime, s.time),
                   devices := w.devices[s.id := Device(true, false, s.baseStation, w.nextTransition, s.frame)]);
    var f := Inference(Move(s.id, s.time, MoveOf(d.frame, s.frame), d.frame, s.frame, true, true, w.changes), d.mark);
    SameBooks(w, seen, w.inferences);
    assert w.changes !in InferenceChanges(w.inferences);
    InferringDecides(Numbered(seen), f);
    hide Infer, Leads, MoveOf, Expire, Accounted, OnePerDevice;
    InferredKeeps(seen, f);
    var v := Infer(Numbered(seen), f);
    ExpireInferencesKeeps(v);
    ExpiringDecides(v.(inferences := []), v.inferences, v.latestTime - InferSeconds, w.changes);
    assert Noted(w, s) == ExpireInferences(v);
  }

  // --- the run in which it goes wrong ---

  function Station(time: real, frame: Frame): Event {
    Note(Sample(0, true, true, true, time, frame, Moves))
  }

  function Tracker(time: real, frame: Frame): Event {
    Note(Sample(1, true, true, false, time, frame, Unclear))
  }

  function TrackerLost(time: real): Event {
    Note(Sample(1, false, false, false, time, Still, Unclear))
  }

  /** The tracker, seen `here`, is off while the station moves there with it, and comes back `there`. */
  function AwayForTheMove(here: Frame, there: Frame, later: real): seq<Event> {
    [Tracker(0.0, here), TrackerLost(0.0), Station(0.0, there), Tracker(0.0, there), Tracker(later, there)]
  }

  /** The station stands in `here`, and the tracker was never seen. */
  ghost predicate Waits(w: Watch, here: Frame) {
    && |w.devices| == Slots && w.devices[0].valid && w.devices[0].frame == here && w.devices[1] == NoDevice
    && w.moves == [] && w.switches == [] && w.inferences == [] && w.latestTime == 0.0
    && w.changes == 0 && w.outcome == map[] && NumbersRise(w) && |w.transitions| < MaxTransitions
  }

  function StationAt(w: Watch, frame: Frame): Watch
    requires |w.devices| == Slots
  {
    w.(devices := w.devices[0 := Device(true, false, true, w.nextTransition, frame)])
  }

  lemma StationMoves(w: Watch, from: Frame, to: Frame)
    requires |w.devices| == Slots && w.devices[0].valid && w.devices[0].frame == from && from != to
    requires w.inferences == [] && w.latestTime == 0.0
    ensures After(w, Station(0.0, to)) == if RecentlyRecorded(w.transitions, from, to) then StationAt(w, to)
                                          else Recording(StationAt(w, to), from, to)
  {
    hide RecentlyRecorded, MoveOf;
    var u := StationAt(w, to);
    assert Recording(u, from, to).(inferences := []) == Recording(u, from, to);
    assert HandLeading(Recording(u, from, to), []) == Recording(u, from, to);
  }

  /** The tracker has been seen `here` and is off. */
  function TrackerOff(w: Watch, here: Frame): Watch
    requires |w.devices| == Slots
  {
    w.(devices := w.devices[1 := Device(false, true, false, w.nextTransition, here)], changes := 1,
       outcome := map[0 := SwitchQueued], switches := [Switch(1, 0.0, Appeared, Still, here, 0)])
  }

  lemma TrackerGoes(w: Watch, here: Frame)
    requires Waits(w, here)
    ensures |After(w, Tracker(0.0, here)).devices| == Slots
    ensures After(After(w, Tracker(0.0, here)), TrackerLost(0.0)) == TrackerOff(w, here)
  {
    var d := Device(true, false, false, w.nextTransition, here);
    var seen := w.(devices := w.devices[1 := d], changes := 1, outcome := map[0 := SwitchQueued],
                   switches := [Switch(1, 0.0, Appeared, Still, here, 0)]);
    assert After(w, Tracker(0.0, here)) == seen;
    assert seen.devices[1 := d.(valid := false, away := true)] == TrackerOff(w, here).devices;
  }

  /** The tracker's change is decided, and it was sampled once more. */
  function TrackerBack(w: Watch, there: Frame, later: real): Watch
    requires |w.devices| == Slots
  {
    var d := w.devices[1];
    var f := Inference(Move(1, 0.0, MoveOf(d.frame, there), d.frame, there, true, true, w.changes), d.mark);
    var u := Numbered(w.(devices := w.devices[1 := Device(true, false, false, w.nextTransition, there)], latestTime := later));
    if Leads(w.transitions, d.frame, there, d.mark) then Hand(u, f.move) else Settle(u, f)
  }

  /** The tracker's return: handed out, or waiting. */
  function TrackerThere(w: Watch, there: Frame): Watch
    requires |w.devices| == Slots
  {
    var d := w.devices[1];
    var f := Inference(Move(1, 0.0, MoveOf(d.frame, there), d.frame, there, true, true, w.changes), d.mark);
    var u := Numbered(w.(devices := w.devices[1 := Device(true, false, false, w.nextTransition, there)]));
    if Leads(w.transitions, d.frame, there, d.mark) then Hand(u, f.move) else u.(inferences := [f])
  }

  lemma TrackerReturns(w: Watch, there: Frame)
    requires |w.devices| == Slots && w.devices[1].frame != there && !w.devices[1].valid && w.devices[1].away
    requires w.inferences == [] && w.latestTime == 0.0
    ensures After(w, Tracker(0.0, there)) == TrackerThere(w, there)
  {
    hide Leads, MoveOf;
    var d := w.devices[1];
    var f := Inference(Move(1, 0.0, MoveOf(d.frame, there), d.frame, there, true, true, w.changes), d.mark);
    var u := Numbered(w.(devices := w.devices[1 := Device(true, false, false, w.nextTransition, there)]));
    var v := TrackerThere(w, there);
    InfersIntoEmpty(u, f);
    YoungWait(v, f);
    HandIgnoresWaiting(u, f.move, []);
  }

  lemma InfersIntoEmpty(u: Watch, f: Inference)
    requires u.inferences == []
    ensures Infer(u, f) == if Leads(u.transitions, f.move.from, f.move.to, f.since) then Hand(u, f.move)
                           else u.(inferences := [f])
  {
    hide Leads, Hand;
    assert u.(inferences := []) == u && DropWaiting(u, [], f.move.id, Superseded) == u;
  }

  lemma YoungWait(v: Watch, f: Inference)
    requires v.inferences == [] || v.inferences == [f]
    ensures v.inferences == [] || f.move.time >= v.latestTime - InferSeconds ==> ExpireInferences(v) == v
    ensures v.inferences == [f] && f.move.time < v.latestTime - InferSeconds ==>
              ExpireInferences(v) == Settle(v.(inferences := []), f)
  {
    hide AddSwitch;
    var none := v.(inferences := []);
    var cutoff := v.latestTime - InferSeconds;
    if v.inferences == [] {
      assert Expire(none, [], cutoff) == none == v;
    } else if f.move.time < cutoff {
      SwitchIgnoresWaiting(v, SwitchOf(f.move), []);
      assert Expire(none, [f], cutoff) == Expire(Settle(none, f), [], cutoff);
    } else {
      assert Expire(none, [f], cutoff) == Expire(none.(inferences := [f]), [], cutoff);
    }
  }

  lemma TrackerStays(w: Watch, there: Frame, later: real)
    requires |w.devices| == Slots && w.devices[1].frame != there && w.inferences == [] && w.latestTime == 0.0
    requires later > InferSeconds
    ensures var v := TrackerThere(w, there);
            |v.devices| == Slots && After(v, Tracker(later, there)) == TrackerBack(w, there, later)
  {
    hide Leads, MoveOf;
    var d := w.devices[1];
    var f := Inference(Move(1, 0.0, MoveOf(d.frame, there), d.frame, there, true, true, w.changes), d.mark);
    var v := TrackerThere(w, there);
    var again := v.(latestTime := later, devices := v.devices[1 := Device(true, false, false, v.nextTransition, there)]);
    assert again.devices == v.devices;
    YoungWait(again, f);
  }

  /** What the run of `AwayForTheMove` leaves, as a move or as a switch. */
  predicate GivenOutAs(v: Watch, here: Frame, there: Frame, switched: bool) {
    if switched then
      && v.moves == [] && |v.switches| == 2 && v.switches[1].id == 1 && v.switches[1].cause == Returned
      && v.switches[1].from == here && v.switches[1].to == there
      && 1 in v.outcome && v.outcome[1] == SwitchQueued
    else
      && |v.switches| == 1 && |v.moves| == 1 && v.moves[0].id == 1
      && v.moves[0].from == here && v.moves[0].to == there
      && 1 in v.outcome && v.outcome[1] == MoveQueued
  }

  lemma LedUnlessRepeated(w: Watch, here: Frame, there: Frame)
    requires NumbersRise(w) && |w.transitions| < MaxTransitions
    ensures var next := if RecentlyRecorded(w.transitions, here, there) then w else Recording(w, here, there);
            Leads(next.transitions, here, there, w.nextTransition) <==> !RecentlyRecorded(w.transitions, here, there)
  {
    hide RecentlyRecorded;
    NothingSince(w.transitions, w.nextTransition, here, false);
    FollowAppended(w.transitions, Transition(w.nextTransition, here, there), w.nextTransition, here, false);
  }

  lemma AwayAndBack(w: Watch, here: Frame, there: Frame, later: real)
    requires Waits(w, here) && here != there
    ensures var moved := After(TrackerOff(w, here), Station(0.0, there));
            && |moved.devices| == Slots && moved.devices[1] == TrackerOff(w, here).devices[1]
            && moved.inferences == [] && moved.latestTime == 0.0
            && GivenOutAs(TrackerBack(moved, there, later), here, there, RecentlyRecorded(w.transitions, here, there))
  {
    StationMoves(TrackerOff(w, here), here, there);
    LedUnlessRepeated(w, here, there);
    hide Leads, RecentlyRecorded, After, MoveOf;
  }

  lemma GoesOn(w: Watch, event: Event, events: seq<Event>, v: Watch)
    requires |w.devices| == Slots && Reaches(After(w, event), events, v)
    ensures Reaches(w, [event] + events, v)
  {
    assert ([event] + events)[1..] == events;
  }

  lemma AwayForTheMoveEnds(w: Watch, here: Frame, there: Frame, later: real)
    requires Waits(w, here) && here != there && later > InferSeconds
    ensures exists v :: Reaches(w, AwayForTheMove(here, there, later), v)
                        && GivenOutAs(v, here, there, RecentlyRecorded(w.transitions, here, there))
  {
    hide After, RecentlyRecorded, TrackerThere, TrackerBack, GivenOutAs, NumbersRise;
    TrackerGoes(w, here);
    var seen := After(w, Tracker(0.0, here));
    var off := TrackerOff(w, here);
    AwayAndBack(w, here, there, later);
    var moved := After(off, Station(0.0, there));
    TrackerReturns(moved, there);
    TrackerStays(moved, there, later);
    var v := TrackerBack(moved, there, later);
    var back := [Tracker(0.0, there), Tracker(later, there)];
    assert Reaches(v, [], v);
    GoesOn(TrackerThere(moved, there), Tracker(later, there), [], v);
    GoesOn(moved, Tracker(0.0, there), [Tracker(later, there)], v);
    assert [Tracker(later, there)] + [] == [Tracker(later, there)] && [Tracker(0.0, there)] + [Tracker(later, there)] == back;
    GoesOn(off, Station(0.0, there), back, v);
    GoesOn(seen, TrackerLost(0.0), [Station(0.0, there)] + back, v);
    GoesOn(w, Tracker(0.0, here), [TrackerLost(0.0)] + ([Station(0.0, there)] + back), v);
    assert AwayForTheMove(here, there, later) == [Tracker(0.0, here)] + ([TrackerLost(0.0)] + ([Station(0.0, there)] + back));
  }

  /**
   The station and the tracker move together from `here` to `there` both times. The first time the
   tracker, away for it, is given out as moved; the second time, the station having been back, as switched.
   */
  lemma RepeatedMoveBecomesASwitch(here: Frame, there: Frame, later: real)
    requires here != there && later > InferSeconds
    ensures exists moved ::
              && Reaches(Fresh(), [Station(0.0, here)] + AwayForTheMove(here, there, later), moved)
              && GivenOutAs(moved, here, there, false)
    ensures exists missed ::
              && Reaches(Fresh(), [Station(0.0, here)] + ([Station(0.0, there)] + ([Station(0.0, here)]
                                  + AwayForTheMove(here, there, later))), missed)
              && GivenOutAs(missed, here, there, true)
  {
    var first := After(Fresh(), Station(0.0, here));
    assert first == StationAt(Fresh(), here);
    StationMoves(first, here, there);
    var second := After(first, Station(0.0, there));
    assert second == Recording(StationAt(first, there), here, there);
    StationMoves(second, there, here);
    var third := After(second, Station(0.0, here));
    assert third == Recording(StationAt(second, here), there, here);
    assert third.transitions == [Transition(0, here, there), Transition(1, there, here)];
    assert third.transitions[0].to == there;
    assert RecentlyRecorded(third.transitions, here, there) && !RecentlyRecorded(first.transitions, here, there);
    AwayForTheMoveEnds(first, here, there, later);
    AwayForTheMoveEnds(third, here, there, later);
    hide After, GivenOutAs, Reaches, RecentlyRecorded, Recording;
    var away := AwayForTheMove(here, there, later);
    var moved :| Reaches(first, away, moved) && GivenOutAs(moved, here, there, false);
    GoesOn(Fresh(), Station(0.0, here), away, moved);
    var missed :| Reaches(third, away, missed) && GivenOutAs(missed, here, there, true);
    GoesOn(second, Station(0.0, here), away, missed);
    GoesOn(first, Station(0.0, there), [Station(0.0, here)] + away, missed);
    GoesOn(Fresh(), Station(0.0, here), [Station(0.0, there)] + ([Station(0.0, here)] + away), missed);
  }

  // ---------------------------------------------------------------------------
  // What becomes of every change, sample by sample
  // ---------------------------------------------------------------------------

  /** A move is in the list, or did not fit and left the flag behind. */
  predicate IsHanded(w: Watch, m: Move) {
    && m.change in w.outcome
    && ((w.outcome[m.change].MoveQueued? && m in w.moves) || (w.outcome[m.change].MoveDropped? && w.moveOverflow))
  }

  predicate IsSwitched(w: Watch, s: Switch) {
    && s.change in w.outcome
    && ((w.outcome[s.change].SwitchQueued? && s in w.switches) || w.outcome[s.change].SwitchDropped?)
  }

  predicate IsWaiting(w: Watch, f: Inference) {
    f in w.inferences && f.move.change in w.outcome && w.outcome[f.move.change].Waiting?
  }

  predicate IsLed(f: Inference, transitions: seq<Transition>) {
    Leads(transitions, f.move.from, f.move.to, f.since)
  }

  /** The lists only grow, and outcomes other than those of `changes` stay. */
  ghost predicate Grows(w: Watch, v: Watch, changes: seq<nat>) {
    && w.moves <= v.moves && w.switches <= v.switches && (w.moveOverflow ==> v.moveOverflow)
    && v.devices == w.devices && v.latestTime == w.latestTime && v.changes == w.changes
    && forall n :: n in w.outcome && n !in changes ==> n in v.outcome && v.outcome[n] == w.outcome[n]
  }

  lemma GrowsJoins(w: Watch, u: Watch, v: Watch, changes: seq<nat>, first: seq<nat>, rest: seq<nat>)
    requires Grows(w, u, first) && Grows(u, v, rest) && forall n :: n !in changes ==> n !in first && n !in rest
    ensures Grows(w, v, changes)
  {
  }

  /** What one step decided stands while others are decided. */
  lemma DecidedStays(w: Watch, v: Watch, changes: seq<nat>, f: Inference)
    requires Grows(w, v, changes) && f.move.change !in changes
    ensures IsHanded(w, f.move) ==> IsHanded(v, f.move)
    ensures IsSwitched(w, SwitchOf(f.move)) ==> IsSwitched(v, SwitchOf(f.move))
    ensures w.inferences <= v.inferences && IsWaiting(w, f) ==> IsWaiting(v, f)
    ensures f.move.change in w.outcome ==> f.move.change in v.outcome && v.outcome[f.move.change] == w.outcome[f.move.change]
  {
  }

  lemma StepGrows(w: Watch, f: Inference, result: Outcome)
    ensures Grows(w, Hand(w, f.move), [f.move.change]) && IsHanded(Hand(w, f.move), f.move)
    ensures Grows(w, Settle(w, f), [f.move.change]) && IsSwitched(Settle(w, f), SwitchOf(f.move))
    ensures Grows(w, Resolved(w, f.move.change, result), [f.move.change])
    ensures Grows(w, w.(inferences := w.inferences + [f]), [f.move.change])
    ensures Hand(w, f.move).switches == w.switches && Settle(w, f).moves == w.moves
    ensures SameRecord(w, Hand(w, f.move)) && SameRecord(w, Settle(w, f))
  {
    HandGrows(w, f.move);
    SettleGrows(w, f);
    hide Hand, Settle, IsHanded, IsSwitched, SameRecord;
  }

  lemma HandGrows(w: Watch, m: Move)
    ensures Grows(w, Hand(w, m), [m.change]) && IsHanded(Hand(w, m), m)
    ensures Hand(w, m).switches == w.switches && SameRecord(w, Hand(w, m))
  {
  }

  lemma SettleGrows(w: Watch, f: Inference)
    ensures Grows(w, Settle(w, f), [f.move.change]) && IsSwitched(Settle(w, f), SwitchOf(f.move))
    ensures Settle(w, f).moves == w.moves && SameRecord(w, Settle(w, f))
  {
  }

  predicate SameRecord(w: Watch, v: Watch) {
    v.transitions == w.transitions && v.nextTransition == w.nextTransition && v.inferences == w.inferences
  }

  lemma GrowsNone(w: Watch, changes: seq<nat>)
    ensures Grows(w, w, changes)
  {
  }

  lemma FirstChange(waiting: seq<Inference>)
    requires waiting != [] && NoRepeats(InferenceChanges(waiting))
    ensures NoRepeats(InferenceChanges(waiting[1..])) && waiting[0].move.change !in InferenceChanges(waiting[1..])
    ensures forall n :: n in InferenceChanges(waiting) <==> n == waiting[0].move.change || n in InferenceChanges(waiting[1..])
  {
    var all := InferenceChanges(waiting);
    assert InferenceChanges(waiting[1..]) == all[1..];
    assert all[0] == waiting[0].move.change;
  }

  lemma RestStillWaits(w: Watch, v: Watch, waiting: seq<Inference>)
    requires waiting != [] && NoRepeats(InferenceChanges(waiting)) && Grows(w, v, [waiting[0].move.change])
    requires forall f :: f in waiting ==> f.move.change in w.outcome && w.outcome[f.move.change].Waiting?
    ensures forall f :: f in waiting[1..] ==> f.move.change in v.outcome && v.outcome[f.move.change].Waiting?
  {
    FirstChange(waiting);
    forall f | f in waiting[1..] ensures f.move.change in v.outcome && v.outcome[f.move.change].Waiting? {
      InChanges(waiting[1..], f);
    }
  }

  lemma InChanges(waiting: seq<Inference>, f: Inference)
    requires f in waiting
    ensures f.move.change in InferenceChanges(waiting)
  {
    var i :| 0 <= i < |waiting| && waiting[i] == f;
    assert InferenceChanges(waiting)[i] == f.move.change;
  }

  lemma {:induction false} HandLeadingFates(w: Watch, waiting: seq<Inference>)
    requires NoRepeats(InferenceChanges(waiting))
    requires forall f :: f in waiting ==> f.move.change in w.outcome && w.outcome[f.move.change].Waiting?
    ensures var v := HandLeading(w, waiting);
            && Grows(w, v, InferenceChanges(waiting)) && v.switches == w.switches
            && v.transitions == w.transitions && v.nextTransition == w.nextTransition
            && w.inferences <= v.inferences
            && forall f :: f in waiting ==> if IsLed(f, w.transitions) then IsHanded(v, f.move) else IsWaiting(v, f)
    decreases |waiting|
  {
    hide Leads, NoRepeats, InferenceChanges, Grows, Hand;
    if waiting == [] {
      GrowsNone(w, InferenceChanges(waiting));
    } else {
      var f := waiting[0];
      FirstChange(waiting);
      StepGrows(w, f, Waiting);
      var next := if IsLed(f, w.transitions) then Hand(w, f.move) else w.(inferences := w.inferences + [f]);
      RestStillWaits(w, next, waiting);
      HandLeadingFates(next, waiting[1..]);
      var v := HandLeading(next, waiting[1..]);
      GrowsJoins(w, next, v, InferenceChanges(waiting), [f.move.change], InferenceChanges(waiting[1..]));
      DecidedStays(next, v, InferenceChanges(waiting[1..]), f);
      assert forall g :: g in waiting ==> g == f || g in waiting[1..];
    }
  }

  lemma {:induction false} ExpireFates(w: Watch, waiting: seq<Inference>, cutoff: real)
    requires NoRepeats(InferenceChanges(waiting))
    requires forall f :: f in waiting ==> f.move.change in w.outcome && w.outcome[f.move.change].Waiting?
    ensures var v := Expire(w, waiting, cutoff);
            && Grows(w, v, InferenceChanges(waiting)) && v.moves == w.moves
            && v.transitions == w.transitions && v.nextTransition == w.nextTransition
            && w.inferences <= v.inferences
            && forall f :: f in waiting ==> if f.move.time < cutoff then IsSwitched(v, SwitchOf(f.move)) else IsWaiting(v, f)
    decreases |waiting|
  {
    hide NoRepeats, InferenceChanges, Grows, Settle;
    if waiting == [] {
      GrowsNone(w, InferenceChanges(waiting));
    } else {
      var f := waiting[0];
      FirstChange(waiting);
      StepGrows(w, f, Waiting);
      var next := if f.move.time < cutoff then Settle(w, f) else w.(inferences := w.inferences + [f]);
      RestStillWaits(w, next, waiting);
      ExpireFates(next, waiting[1..], cutoff);
      var v := Expire(next, waiting[1..], cutoff);
      GrowsJoins(w, next, v, InferenceChanges(waiting), [f.move.change], InferenceChanges(waiting[1..]));
      DecidedStays(next, v, InferenceChanges(waiting[1..]), f);
      assert forall g :: g in waiting ==> g == f || g in waiting[1..];
    }
  }

  lemma {:induction false} DropWaitingFates(w: Watch, waiting: seq<Inference>, id: nat, result: Outcome)
    requires NoRepeats(InferenceChanges(waiting))
    requires forall f :: f in waiting ==> f.move.change in w.outcome && w.outcome[f.move.change].Waiting?
    ensures var v := DropWaiting(w, waiting, id, result);
            && Grows(w, v, InferenceChanges(waiting)) && v.moves == w.moves && v.switches == w.switches
            && v.transitions == w.transitions && v.nextTransition == w.nextTransition
            && w.inferences <= v.inferences
            && forall f :: f in waiting ==>
                 if f.move.id == id then f.move.change in v.outcome && v.outcome[f.move.change] == result else IsWaiting(v, f)
    decreases |waiting|
  {
    hide NoRepeats, InferenceChanges, Grows, Settle;
    if waiting == [] {
      GrowsNone(w, InferenceChanges(waiting));
    } else {
      var f := waiting[0];
      FirstChange(waiting);
      StepGrows(w, f, result);
      var next := if f.move.id == id then Resolved(w, f.move.change, result) else w.(inferences := w.inferences + [f]);
      RestStillWaits(w, next, waiting);
      DropWaitingFates(next, waiting[1..], id, result);
      var v := DropWaiting(next, waiting[1..], id, result);
      GrowsJoins(w, next, v, InferenceChanges(waiting), [f.move.change], InferenceChanges(waiting[1..]));
      DecidedStays(next, v, InferenceChanges(waiting[1..]), f);
      assert forall g :: g in waiting ==> g == f || g in waiting[1..];
    }
  }

  /** What the books say of a waiting list. */
  lemma WaitingAreBooked(w: Watch)
    requires Accounted(w, w.inferences)
    ensures NoRepeats(InferenceChanges(w.inferences))
    ensures forall f :: f in w.inferences ==> f.move.change in w.outcome && w.outcome[f.move.change].Waiting?
    ensures forall n :: n in InferenceChanges(w.inferences) ==> n in w.outcome && w.outcome[n].Waiting?
    ensures w.changes !in w.outcome
  {
    forall f | f in w.inferences ensures f.move.change in w.outcome && w.outcome[f.move.change].Waiting? {
      var i :| 0 <= i < |w.inferences| && w.inferences[i] == f;
      assert InferenceChanges(w.inferences)[i] == f.move.change;
    }
  }

  /** At the end of every sample exactly what has waited too long is given up, as a switch. */
  lemma OverdueIsSettled(w: Watch)
    requires Inv(w)
    ensures var v := ExpireInferences(w);
            && Grows(w, v, InferenceChanges(w.inferences)) && v.moves == w.moves
            && v.transitions == w.transitions && v.nextTransition == w.nextTransition
            && (forall n :: n in w.outcome && !w.outcome[n].Waiting? ==> n in v.outcome && v.outcome[n] == w.outcome[n])
            && forall f :: f in w.inferences ==>
                 if f.move.time < w.latestTime - InferSeconds then IsSwitched(v, SwitchOf(f.move)) else IsWaiting(v, f)
  {
    WaitingAreBooked(w);
    hide Inv;
    ExpireFates(w.(inferences := []), w.inferences, w.latestTime - InferSeconds);
    hide InferenceChanges, NoRepeats, Expire;
  }

  /** Recording a move hands out exactly the waiting changes it completes. */
  ghost predicate RecordingIs(w: Watch, from: Frame, to: Frame, v: Watch) {
    var recent := RecentlyRecorded(w.transitions, from, to);
    && v.switches == w.switches && w.moves <= v.moves && (w.moveOverflow ==> v.moveOverflow)
    && v.devices == w.devices && v.latestTime == w.latestTime && v.changes == w.changes
    && v.transitions == (if recent then w.transitions else Kept(w.transitions) + [Transition(w.nextTransition, from, to)])
    && v.nextTransition == w.nextTransition + (if recent then 0 else 1)
    && (forall n :: n in w.outcome && !w.outcome[n].Waiting? ==> n in v.outcome && v.outcome[n] == w.outcome[n])
    && forall f :: f in w.inferences ==> if !recent && IsLed(f, v.transitions) then IsHanded(v, f.move) else IsWaiting(v, f)
  }

  lemma RecordingFates(w: Watch, from: Frame, to: Frame)
    requires Inv(w)
    ensures RecordingIs(w, from, to, AddTransition(w, from, to))
  {
    WaitingAreBooked(w);
    hide Inv, RecentlyRecorded, Leads;
    HandLeadingFates(Recording(w, from, to).(inferences := []), w.inferences);
    hide InferenceChanges, NoRepeats, HandLeading;
  }

  /** What a device's newer change leaves of the waiting ones. */
  lemma ReplacingFates(w: Watch, f: Inference)
    requires |w.devices| == Slots && Accounted(w, w.inferences + [f]) && OnePerDevice(w.inferences) && f.move.id < Slots
    ensures var u := DropWaiting(w.(inferences := []), w.inferences, f.move.id, Superseded);
            && Grows(w, u, InferenceChanges(w.inferences)) && SameRecord(w.(inferences := u.inferences), u)
            && u.switches == w.switches && |u.inferences| < MaxInferences
            && f.move.change in u.outcome && u.outcome[f.move.change].Waiting?
            && forall g :: g in w.inferences ==>
                 && g.move.change != f.move.change
                 && if g.move.id == f.move.id then g.move.change in u.outcome && u.outcome[g.move.change].Superseded?
                    else IsWaiting(u, g)
  {
    PoolIsBooked(w, f);
    InferFits(w, f);
    hide Accounted, OnePerDevice;
    DropWaitingFates(w.(inferences := []), w.inferences, f.move.id, Superseded);
    GrowsLikewise(w, DropWaiting(w.(inferences := []), w.inferences, f.move.id, Superseded), InferenceChanges(w.inferences));
    DecidedStays(w.(inferences := []), DropWaiting(w.(inferences := []), w.inferences, f.move.id, Superseded),
                 InferenceChanges(w.inferences), f);
    hide InferenceChanges, NoRepeats, DropWaiting, Grows;
  }

  lemma OthersKeepTheirs(u: Watch, v: Watch, pool: seq<Inference>, f: Inference)
    requires Grows(u, v, [f.move.change]) && u.inferences <= v.inferences
    requires forall g :: g in pool ==> g.move.change != f.move.change
    ensures forall g :: g in pool && g.move.change in u.outcome && u.outcome[g.move.change].Superseded? ==>
              g.move.change in v.outcome && v.outcome[g.move.change].Superseded?
    ensures forall g :: g in pool && IsWaiting(u, g) ==> IsWaiting(v, g)
  {
  }

  /** A change to infer is handed out if it is led already, and waits otherwise; it replaces what its device waited with. */
  lemma InferringFates(w: Watch, f: Inference)
    requires |w.devices| == Slots && Accounted(w, w.inferences + [f]) && OnePerDevice(w.inferences) && f.move.id < Slots
    ensures var v := Infer(w, f);
            && Grows(w, v, InferenceChanges(w.inferences + [f])) && v.switches == w.switches
            && v.transitions == w.transitions && v.nextTransition == w.nextTransition
            && (if IsLed(f, w.transitions) then IsHanded(v, f.move) else IsWaiting(v, f))
            && forall g :: g in w.inferences ==>
                 if g.move.id == f.move.id then g.move.change in v.outcome && v.outcome[g.move.change].Superseded?
                 else IsWaiting(v, g)
  {
    ReplacingFates(w, f);
    AppendedChange(w.inferences, f);
    var u, v := DropWaiting(w.(inferences := []), w.inferences, f.move.id, Superseded), Infer(w, f);
    StepGrows(u, f, Waiting);
    hide InferenceChanges, NoRepeats, DropWaiting, Grows, Hand, Accounted, OnePerDevice, Leads;
    GrowsJoins(w, u, v, InferenceChanges(w.inferences + [f]), InferenceChanges(w.inferences), [f.move.change]);
    OthersKeepTheirs(u, v, w.inferences, f);
  }

  lemma GrowsLikewise(w: Watch, v: Watch, changes: seq<nat>)
    requires Grows(w.(inferences := []), v, changes)
    ensures Grows(w, v, changes)
  {
  }

  lemma AppendedChange(pool: seq<Inference>, f: Inference)
    ensures forall n :: n in InferenceChanges(pool + [f]) <==> n in InferenceChanges(pool) || n == f.move.change
  {
    assert InferenceChanges(pool + [f]) == InferenceChanges(pool) + [f.move.change];
  }

  lemma PoolIsBooked(w: Watch, f: Inference)
    requires Accounted(w, w.inferences + [f])
    ensures NoRepeats(InferenceChanges(w.inferences)) && f.move.change !in InferenceChanges(w.inferences)
    ensures f.move.change in w.outcome && w.outcome[f.move.change].Waiting?
    ensures forall g :: g in w.inferences ==>
              g.move.change in w.outcome && w.outcome[g.move.change].Waiting? && g.move.change != f.move.change
  {
    var all := InferenceChanges(w.inferences + [f]);
    assert InferenceChanges(w.inferences) == all[..|w.inferences|] && all[|w.inferences|] == f.move.change;
    forall g | g in w.inferences
      ensures g.move.change in w.outcome && w.outcome[g.move.change].Waiting? && g.move.change != f.move.change
    {
      var i :| 0 <= i < |w.inferences| && w.inferences[i] == g;
      assert all[i] == g.move.change;
    }
  }

  lemma InferFits(w: Watch, f: Inference)
    requires |w.devices| == Slots && Accounted(w, w.inferences + [f]) && OnePerDevice(w.inferences) && f.move.id < Slots
    ensures var v := DropWaiting(w.(inferences := []), w.inferences, f.move.id, Superseded);
            |v.inferences| < MaxInferences && v.transitions == w.transitions
  {
    hide Accounted, OnePerDevice, Ids, Progress;
    var cleared := w.(inferences := []);
    SameBooks(w, cleared, w.inferences + [f]);
    assert [] + w.inferences + [f] == w.inferences + [f] && [] + w.inferences == w.inferences;
    NoIds(f.move.id);
    DropWaitingKeeps(cleared, w.inferences, f.move.id, Superseded, [f]);
    InferenceFits(DropWaiting(cleared, w.inferences, f.move.id, Superseded).inferences, f.move.id);
  }

  /** The sample shows a change that is given out: a tracker in another frame, or one not seen before. */
  predicate Raises(d: Device, s: Sample) {
    !s.baseStation && (d.valid || d.away ==> d.frame != s.frame)
  }

  /** Its own samples do not say what the change was. */
  predicate Infers(d: Device, s: Sample) {
    Raises(d, s) && (d.valid || d.away) && !(d.valid && !s.kind.Unclear?)
  }

  /** The device moved with its frame, and the move is new. */
  predicate Records(w: Watch, d: Device, s: Sample) {
    d.valid && d.frame != s.frame && s.kind.Moves? && !RecentlyRecorded(w.transitions, d.frame, s.frame)
  }

  function OwnMove(w: Watch, d: Device, s: Sample): Move {
    Move(s.id, s.time, MoveOf(d.frame, s.frame), d.frame, s.frame, false, false, w.changes)
  }

  /** What the sample has to wait with, if it has to. */
  function OwnWait(w: Watch, d: Device, s: Sample): Inference {
    Inference(OwnMove(w, d, s).(inferred := true, returned := !d.valid), d.mark)
  }

  /** The change a sample shows, before what is overdue is given up. */
  predicate NewIs(w: Watch, d: Device, s: Sample, t: Watch) {
    if !d.valid && !d.away then IsSwitched(t, Switch(s.id, s.time, Appeared, Still, s.frame, w.changes))
    else if d.valid && s.kind.Moves? then IsHanded(t, OwnMove(w, d, s))
    else if d.valid && s.kind.ReExpressed? then
      IsSwitched(t, Switch(s.id, s.time, Reexpression, d.frame, s.frame, w.changes))
    else if IsLed(OwnWait(w, d, s), w.transitions) then IsHanded(t, OwnWait(w, d, s).move)
    else IsWaiting(t, OwnWait(w, d, s))
  }

  /** A change that waited, before what is overdue is given up. */
  predicate OldIs(w: Watch, d: Device, s: Sample, t: Watch, f: Inference) {
    if Records(w, d, s) && IsLed(f, t.transitions) then IsHanded(t, f.move)
    else if Infers(d, s) && f.move.id == s.id then f.move.change in t.outcome && t.outcome[f.move.change].Superseded?
    else IsWaiting(t, f)
  }

  ghost predicate StepIs(w: Watch, d: Device, s: Sample, t: Watch) {
    && Inv(t) && t.devices == w.devices && t.latestTime == w.latestTime
    && t.changes == w.changes + (if Raises(d, s) then 1 else 0)
    && t.transitions == (if Records(w, d, s) then Kept(w.transitions) + [Transition(w.nextTransition, d.frame, s.frame)]
                         else w.transitions)
    && (Raises(d, s) ==> NewIs(w, d, s, t))
    && forall f :: f in w.inferences ==> OldIs(w, d, s, t, f)
  }

  lemma BooksWait(w: Watch)
    requires Accounted(w, w.inferences)
    ensures forall f :: f in w.inferences ==> IsWaiting(w, f)
  {
    WaitingAreBooked(w);
    hide Exactly, InferenceChanges, NoRepeats;
  }

  lemma StationMovedIs(w: Watch, d: Device, s: Sample)
    requires Inv(w) && s.id < Slots && d.valid && d.frame != s.frame && s.kind.Moves? && s.baseStation
    ensures StepIs(w, d, s, Changed(w, d, s))
  {
    ChangedKeeps(w, d, s);
    hide Inv, RecentlyRecorded, Leads, MoveOf, InferenceChanges, NoRepeats, HandLeading;
    RecordingFates(w, d.frame, s.frame);
  }

  lemma TrackerMovedIs(w: Watch, d: Device, s: Sample)
    requires Inv(w) && s.id < Slots && d.valid && d.frame != s.frame && s.kind.Moves? && !s.baseStation
    ensures StepIs(w, d, s, Changed(w, d, s))
  {
    var m := OwnMove(w, d, s);
    var h := Hand(Numbered(w), m);
    var t := AddTransition(h, d.frame, s.frame);
    assert m.change == w.changes;
    hide Inv, RecentlyRecorded, Leads, MoveOf, Hand, RecordingIs, StepIs;
    assert Changed(w, d, s) == t;
    ChangedKeeps(w, d, s);
    hide Changed, AddTransition, Numbered;
    HandAtOnceKeeps(w, Inference(m, 0));
    RecordingFates(h, d.frame, s.frame);
    HandedThenRecorded(w, d, s, t);
  }

  lemma HandedThenRecorded(w: Watch, d: Device, s: Sample, t: Watch)
    requires RecordingIs(Hand(Numbered(w), OwnMove(w, d, s)), d.frame, s.frame, t) && Inv(t)
    requires d.valid && d.frame != s.frame && s.kind.Moves? && !s.baseStation
    ensures StepIs(w, d, s, t)
  {
    var m := OwnMove(w, d, s);
    var h := Hand(Numbered(w), m);
    HandedAtOnce(w, m);
    hide Inv, RecentlyRecorded, MoveOf, Hand, Numbered, OwnMove, IsLed, IsWaiting, Kept;
    HandedStays(h, t, m);
  }

  lemma HandedAtOnce(w: Watch, m: Move)
    requires m.change == w.changes
    ensures var h := Hand(Numbered(w), m);
            && IsHanded(h, m) && h.transitions == w.transitions && h.nextTransition == w.nextTransition
            && h.inferences == w.inferences && h.devices == w.devices && h.latestTime == w.latestTime
            && h.changes == w.changes + 1
  {
  }

  lemma HandedStays(h: Watch, t: Watch, m: Move)
    requires IsHanded(h, m) && h.moves <= t.moves && (h.moveOverflow ==> t.moveOverflow)
    requires forall n :: n in h.outcome && !h.outcome[n].Waiting? ==> n in t.outcome && t.outcome[n] == h.outcome[n]
    ensures IsHanded(t, m)
  {
  }

  lemma ReExpressedIs(w: Watch, d: Device, s: Sample)
    requires Inv(w) && s.id < Slots && d.valid && d.frame != s.frame && s.kind.ReExpressed?
    ensures StepIs(w, d, s, Changed(w, d, s))
  {
    ChangedKeeps(w, d, s);
    WaitingAreBooked(w);
    BooksWait(w);
    hide Inv, RecentlyRecorded, Leads, MoveOf, InferenceChanges, NoRepeats;
  }

  lemma InferredIs(w: Watch, d: Device, s: Sample)
    requires Inv(w) && s.id < Slots && d.frame != s.frame && !(d.valid && !s.kind.Unclear?) && (d.valid || d.away)
    ensures StepIs(w, d, s, Changed(w, d, s))
  {
    if s.baseStation {
      BaseStationIs(w, d, s);
    } else {
      DeviceInferredIs(w, d, s);
    }
    hide *;
  }

  lemma BaseStationIs(w: Watch, d: Device, s: Sample)
    requires Inv(w) && s.id < Slots && d.frame != s.frame && !(d.valid && !s.kind.Unclear?) && (d.valid || d.away)
    requires s.baseStation
    ensures StepIs(w, d, s, Changed(w, d, s))
  {
    ChangedKeeps(w, d, s);
    WaitingAreBooked(w);
    BooksWait(w);
    hide Accounted, OnePerDevice, RecentlyRecorded, Leads, MoveOf, InferenceChanges, NoRepeats;
  }

  lemma DeviceInferredIs(w: Watch, d: Device, s: Sample)
    requires Inv(w) && s.id < Slots && d.frame != s.frame && !(d.valid && !s.kind.Unclear?) && (d.valid || d.away)
    requires !s.baseStation
    ensures StepIs(w, d, s, Changed(w, d, s))
  {
    ChangedKeeps(w, d, s);
    WaitingAreBooked(w);
    BooksWait(w);
    var f := OwnWait(w, d, s);
    NumberedKeeps(w, f);
    hide Accounted, OnePerDevice, RecentlyRecorded, Leads, MoveOf, InferenceChanges, NoRepeats;
    InferringFates(Numbered(w), f);
    hide Infer;
  }

  lemma AppearedIs(w: Watch, d: Device, s: Sample)
    requires Inv(w) && s.id < Slots && !d.valid && !d.away
    ensures var appeared := Switch(s.id, s.time, Appeared, Still, s.frame, w.changes);
            StepIs(w, d, s, if s.baseStation then w else AddSwitch(Numbered(w), appeared))
  {
    AddSwitchKeeps(w, Switch(s.id, s.time, Appeared, Still, s.frame, w.changes));
    WaitingAreBooked(w);
    BooksWait(w);
    hide Inv, RecentlyRecorded, Leads, MoveOf, InferenceChanges, NoRepeats;
  }

  lemma UnchangedIs(w: Watch, d: Device, s: Sample)
    requires Inv(w) && d.frame == s.frame && (d.valid || d.away)
    ensures StepIs(w, d, s, w)
  {
    BooksWait(w);
    hide Accounted, OnePerDevice, RecentlyRecorded, Leads, MoveOf;
  }

  /** A sample of device `d`, its own place in the books and the clock brought up to date. */
  function Seen(w: Watch, s: Sample): Watch
    requires |w.devices| == Slots && s.id < Slots
  {
    w.(latestTime := Latest(w.latestTime, s.time),
    devices := w.devices[s.id := Device(true, false, s.baseStation, w.nextTransition, s.frame)])
  }

  /** The step a tracked sample takes before what is overdue is given up. */
  lemma SampleSteps(w: Watch, s: Sample) returns (t: Watch)
    requires Inv(w) && s.id < Slots && s.tracking
    ensures StepIs(Seen(w, s), w.devices[s.id], s, t) && Noted(w, s) == ExpireInferences(t)
  {
    var u, d := Seen(w, s), w.devices[s.id];
    SameBooks(w, u, w.inferences);
    hide Accounted, OnePerDevice, StepIs, Changed, ExpireInferences;
    if !d.valid && !d.away {
      AppearedIs(u, d, s);
      t := if s.baseStation then u else AddSwitch(Numbered(u), Switch(s.id, s.time, Appeared, Still, s.frame, u.changes));
    } else if d.frame == s.frame {
      UnchangedIs(u, d, s);
      t := u;
    } else {
      t := Changed(u, d, s);
      if d.valid && s.kind.Moves? {
        if s.baseStation {
          StationMovedIs(u, d, s);
        } else {
          TrackerMovedIs(u, d, s);
        }
      } else if d.valid && s.kind.ReExpressed? {
        ReExpressedIs(u, d, s);
      } else {
        InferredIs(u, d, s);
      }
    }
  }

  /** What a change that has to wait comes to once a sample is dealt with: overdue, it is given up as a switch. */
  predicate WaitsOrSwitched(v: Watch, f: Inference) {
    if f.move.time < v.latestTime - InferSeconds then IsSwitched(v, SwitchOf(f.move)) else IsWaiting(v, f)
  }

  /** The change a sample shows: what its own samples say, what the record says, or a wait. */
  predicate NewIsDecided(w: Watch, d: Device, s: Sample, v: Watch) {
    if !d.valid && !d.away then IsSwitched(v, Switch(s.id, s.time, Appeared, Still, s.frame, w.changes))
    else if d.valid && s.kind.Moves? then IsHanded(v, OwnMove(w, d, s))
    else if d.valid && s.kind.ReExpressed? then
      IsSwitched(v, Switch(s.id, s.time, Reexpression, d.frame, s.frame, w.changes))
    else if IsLed(OwnWait(w, d, s), w.transitions) then IsHanded(v, OwnWait(w, d, s).move)
    else WaitsOrSwitched(v, OwnWait(w, d, s))
  }

  /** A change that waited: the move this sample records completes it, its device's newer one replaces it, or it waits on. */
  predicate OldIsDecided(w: Watch, d: Device, s: Sample, v: Watch, f: Inference) {
    if Records(w, d, s) && IsLed(f, v.transitions) then IsHanded(v, f.move)
    else if Infers(d, s) && f.move.id == s.id then f.move.change in v.outcome && v.outcome[f.move.change].Superseded?
    else WaitsOrSwitched(v, f)
  }

  lemma SettledLater(t: Watch, f: Inference, m: Move, sw: Switch)
    requires Inv(t)
    ensures var v := ExpireInferences(t);
            && (IsHanded(t, m) ==> IsHanded(v, m)) && (IsSwitched(t, sw) ==> IsSwitched(v, sw))
            && (IsWaiting(t, f) ==> WaitsOrSwitched(v, f))
            && (f.move.change in t.outcome && t.outcome[f.move.change].Superseded? ==>
                 f.move.change in v.outcome && v.outcome[f.move.change].Superseded?)
            && v.devices == t.devices && v.latestTime == t.latestTime && v.changes == t.changes && v.transitions == t.transitions
  {
    OverdueIsSettled(t);
    hide Inv, ExpireInferences, InferenceChanges;
  }

  /**
   Every tracked sample decides what there is to decide, and nothing else. Its own change of frame
   is given out as a move, as a switch or as led by the record, or waits; a move that is new is
   recorded and completes what it leads; and what waited is replaced, given up or waits on.
   */
  lemma EverySampleDecides(w: Watch, s: Sample)
    requires Inv(w) && s.id < Slots && s.tracking
    ensures var v, d := Noted(w, s), w.devices[s.id];
            && v.devices == w.devices[s.id := Device(true, false, s.baseStation, w.nextTransition, s.frame)]
            && v.latestTime == Latest(w.latestTime, s.time) && v.changes == w.changes + (if Raises(d, s) then 1 else 0)
            && v.transitions == (if Records(w, d, s) then Kept(w.transitions) + [Transition(w.nextTransition, d.frame, s.frame)]
                                 else w.transitions)
            && (Raises(d, s) ==> NewIsDecided(w, d, s, v))
            && forall f :: f in w.inferences ==> OldIsDecided(w, d, s, v, f)
  {
    var v, d, u := Noted(w, s), w.devices[s.id], Seen(w, s);
    var t := SampleSteps(w, s);
    var own := OwnWait(w, d, s);
    hide Noted, ExpireInferences, Inv, RecentlyRecorded, Leads, MoveOf, IsHanded, IsSwitched, IsWaiting, WaitsOrSwitched;
    StepIsSound(u, d, s, t);
    var first := Switch(s.id, s.time, Appeared, Still, s.frame, w.changes);
    SettledLater(t, own, OwnMove(w, d, s), first);
    SettledLater(t, own, own.move, Switch(s.id, s.time, Reexpression, d.frame, s.frame, w.changes));
    forall f | f in w.inferences ensures OldIsDecided(w, d, s, v, f) {
      SettledLater(t, f, f.move, first);
    }
  }

  lemma StepIsSound(w: Watch, d: Device, s: Sample, t: Watch)
    requires StepIs(w, d, s, t)
    ensures Inv(t)
  {
  }

  /** A sample that does not track marks a device that is disconnected as away, and changes nothing else. */
  lemma LostIsAway(w: Watch, s: Sample)
    requires |w.devices| == Slots && s.id < Slots && !s.tracking
    ensures var v, d := Noted(w, s), w.devices[s.id];
            && v == w.(devices := v.devices) && |v.devices| == Slots
            && (forall id :: 0 <= id < Slots && (id != s.id || s.connected) ==> v.devices[id] == w.devices[id])
            && (!s.connected ==>
                 && !v.devices[s.id].valid && (v.devices[s.id].away <==> d.away || d.valid)
                 && v.devices[s.id].frame == d.frame && v.devices[s.id].mark == d.mark)
  {
  }

  lemma {:induction false} OthersMovesStay(w: Watch, queued: seq<Move>, id: nat)
    ensures var v := DropMoves(w, queued, id);
            && (forall m :: m in v.moves <==> m in w.moves || (m in queued && m.id != id))
            && v.switches == w.switches && v.inferences == w.inferences && v.devices == w.devices
            && v.transitions == w.transitions
    decreases |queued|
  {
    if queued != [] {
      var next := if queued[0].id == id then Resolved(w, queued[0].change, Forgotten) else w.(moves := w.moves + [queued[0]]);
      OthersMovesStay(next, queued[1..], id);
      assert forall m :: m in queued <==> m == queued[0] || m in queued[1..];
    }
  }

  lemma {:induction false} OthersSwitchesStay(w: Watch, queued: seq<Switch>, id: nat)
    ensures var v := DropSwitches(w, queued, id);
            && (forall s :: s in v.switches <==> s in w.switches || (s in queued && s.id != id))
            && v.moves == w.moves && v.inferences == w.inferences && v.devices == w.devices && v.transitions == w.transitions
    decreases |queued|
  {
    if queued != [] {
      var next := if queued[0].id == id then Resolved(w, queued[0].change, Forgotten)
                  else w.(switches := w.switches + [queued[0]]);
      OthersSwitchesStay(next, queued[1..], id);
      assert forall s :: s in queued <==> s == queued[0] || s in queued[1..];
    }
  }

  lemma {:induction false} OthersWaitOn(w: Watch, waiting: seq<Inference>, id: nat, result: Outcome)
    ensures var v := DropWaiting(w, waiting, id, result);
            && (forall f :: f in v.inferences <==> f in w.inferences || (f in waiting && f.move.id != id))
            && v.moves == w.moves && v.switches == w.switches && v.devices == w.devices && v.transitions == w.transitions
    decreases |waiting|
  {
    if waiting != [] {
      var next := if waiting[0].move.id == id then Resolved(w, waiting[0].move.change, result)
                  else w.(inferences := w.inferences + [waiting[0]]);
      OthersWaitOn(next, waiting[1..], id, result);
      assert forall f :: f in waiting <==> f == waiting[0] || f in waiting[1..];
    }
  }

  /** A device forgotten is as if never seen: nothing of it is queued or waits any more, and all else is as it was. */
  lemma ForgottenIsGone(w: Watch, id: nat)
    requires |w.devices| == Slots && id < Slots
    ensures var v := Forgot(w, id);
            && v.devices == w.devices[id := NoDevice] && v.transitions == w.transitions
            && (forall m :: m in v.moves <==> m in w.moves && m.id != id)
            && (forall s :: s in v.switches <==> s in w.switches && s.id != id)
            && (forall f :: f in v.inferences <==> f in w.inferences && f.move.id != id)
  {
    var d := w.(devices := w.devices[id := NoDevice]);
    OthersMovesStay(d.(moves := []), d.moves, id);
    var m := DropMoves(d.(moves := []), d.moves, id);
    OthersSwitchesStay(m.(switches := []), m.switches, id);
    var s := DropSwitches(m.(switches := []), m.switches, id);
    OthersWaitOn(s.(inferences := []), s.inferences, id, Forgotten);
    hide DropMoves, DropSwitches, DropWaiting;
  }

  // ---------------------------------------------------------------------------
  // The watch, updated in place
  // ---------------------------------------------------------------------------

  class LighthouseFrameWatch {
    const devices: array<Device>
    var moves: seq<Move>
    var moveOverflow: bool
    var switches: seq<Switch>
    var transitions: seq<Transition>
    var inferences: seq<Inference>
    var nextTransition: nat
    var latestTime: real

    // Numbers the frame changes, so that results can be told apart.
    var changes: nat
    ghost var outcome: map<nat, Outcome>
    ghost var unreportedDrops: nat

    ghost function View(): Watch
      reads this, devices
    {
      Watch(devices[..], moves, moveOverflow, switches, transitions, inferences, nextTransition, latestTime,
            changes, outcome, unreportedDrops)
    }

    constructor ()
      ensures View() == Fresh() && fresh(devices)
    {
      devices := new Device[Slots](_ => NoDevice);
      moves, moveOverflow, switches, transitions, inferences := [], false, [], [], [];
      nextTransition, latestTime, changes, outcome, unreportedDrops := 0, 0.0, 0, map[], 0;
    }

    method HandOut(m: Move)
      modifies `moves, `moveOverflow, `outcome, `unreportedDrops
      ensures View() == Hand(old(View()), m)
    {
      if |moves| < MaxPendingMoves {
        moves := moves + [m];
        outcome := outcome[m.change := MoveQueued];
      } else {
        moveOverflow := true;
        outcome, unreportedDrops := outcome[m.change := MoveDropped], unreportedDrops + 1;
      }
    }

    method Switched(s: Switch)
      modifies `switches, `outcome
      ensures View() == AddSwitch(old(View()), s)
    {
      if |switches| >= MaxPendingMoves {
        outcome := outcome[s.change := SwitchDropped];
        return;
      }
      switches := switches + [s];
      outcome := outcome[s.change := SwitchQueued];
    }

    /** One pass over the list decides `Leads`. */
    method LeadsTo(f: Inference) returns (leads: bool)
      ensures leads == Leads(transitions, f.move.from, f.move.to, f.since)
    {
      var at, moved := f.move.from, false;
      for i := 0 to |transitions|
        invariant Follow(transitions, f.since, f.move.from, false) == Follow(transitions[i..], f.since, at, moved)
      {
        var t := transitions[i];
        assert transitions[i..][1..] == transitions[i + 1..];
        if t.number < f.since || t.from != at {
          continue;
        }
        at, moved := t.to, true;
      }
      leads := moved && at == f.move.to;
    }

    method IsRecent(from: Frame, to: Frame) returns (recent: bool)
      ensures recent == RecentlyRecorded(transitions, from, to)
    {
      var first := if |transitions| > RecentTransitions then |transitions| - RecentTransitions else 0;
      for i := first to |transitions|
        invariant forall j :: first <= j < i ==> !(transitions[j].from == from && transitions[j].to == to)
      {
        if transitions[i].from == from && transitions[i].to == to {
          return true;
        }
      }
      recent := false;
    }

    method NoteTransition(from: Frame, to: Frame)
      modifies this
      ensures View() == AddTransition(old(View()), from, to)
    {
      hide RecentlyRecorded, Leads, Hand;
      var recent := IsRecent(from, to);
      if recent {
        return;
      }
      if |transitions| >= MaxTransitions {
        transitions := transitions[1..];
      }
      transitions := transitions + [Transition(nextTransition, from, to)];
      nextTransition := nextTransition + 1;

      HandOutLed();
    }

    /** Hands out what the recorded moves lead along now; the rest goes on waiting. */
    method HandOutLed()
      modifies this
      ensures View() == HandLeading(old(View()).(inferences := []), old(inferences))
    {
      hide Leads, Hand;
      ghost var result := HandLeading(View().(inferences := []), inferences);
      var i := 0;
      assert inferences[..0] == [] && inferences[0..] == inferences;
      while i < |inferences|
        invariant i <= |inferences|
        invariant HandLeading(View().(inferences := inferences[..i]), inferences[i..]) == result
        decreases |inferences| - i
      {
        var f := inferences[i];
        assert inferences[i..][0] == f && inferences[i..][1..] == inferences[i + 1..];
        var leads := LeadsTo(f);
        if leads {
          ghost var was, before := inferences, View();
          HandOut(f.move);
          HandIgnoresWaiting(before, f.move, was[..i]);
          inferences := inferences[..i] + inferences[i + 1..];
          assert inferences[..i] == was[..i] && inferences[i..] == was[i + 1..];
        } else {
          assert inferences[..i] + [f] == inferences[..i + 1];
          i := i + 1;
        }
      }
      assert inferences[..i] == inferences && inferences[i..] == [];
    }

    /** The list without one device's changes, which end with `result`. */
    method EraseWaiting(id: nat, ghost result: Outcome)
      modifies `inferences, `outcome
      ensures View() == DropWaiting(old(View()).(inferences := []), old(inferences), id, result)
    {
      var kept := [];
      ghost var target := DropWaiting(View().(inferences := []), inferences, id, result);
      for i := 0 to |inferences|
        modifies `outcome
        invariant DropWaiting(View().(inferences := kept), inferences[i..], id, result) == target
      {
        assert inferences[i..][0] == inferences[i] && inferences[i..][1..] == inferences[i + 1..];
        if inferences[i].move.id == id {
          outcome := outcome[inferences[i].move.change := result];
        } else {
          kept := kept + [inferences[i]];
        }
      }
      inferences := kept;
    }

    method InferMove(f: Inference)
      modifies this
      ensures View() == Infer(old(View()), f)
    {
      hide DropWaiting, Leads;
      EraseWaiting(f.move.id, Superseded);
      var leads := LeadsTo(f);
      if leads {
        HandOut(f.move);
      } else if |inferences| < MaxInferences {
        inferences := inferences + [f];
      } else {
        Switched(SwitchOf(f.move));
      }
    }

    method Expired()
      modifies `inferences, `switches, `outcome
      ensures View() == ExpireInferences(old(View()))
    {
      hide AddSwitch;
      var cutoff := latestTime - InferSeconds;
      var kept := [];
      ghost var target := ExpireInferences(View());
      assert inferences[0..] == inferences;
      for i := 0 to |inferences|
        modifies `switches, `outcome
        invariant Expire(View().(inferences := kept), inferences[i..], cutoff) == target
      {
        var f := inferences[i];
        assert inferences[i..][0] == f && inferences[i..][1..] == inferences[i + 1..];
        if f.move.time < cutoff {
          ghost var before := View();
          Switched(SwitchOf(f.move));
          SwitchIgnoresWaiting(before, SwitchOf(f.move), kept);
        } else {
          kept := kept + [f];
        }
      }
      inferences := kept;
    }

    method NumberChange() returns (change: nat)
      modifies `changes, `outcome
      ensures View() == Numbered(old(View())) && change == old(changes)
    {
      change := changes;
      changes := changes + 1;
      outcome := outcome[change := Waiting];
    }

    /** A device's frame changed; `d` is how it was last seen. */
    method NoteChange(d: Device, s: Sample)
      requires s.id < Slots
      modifies this
      ensures View() == Changed(old(View()), d, s)
    {
      hide Infer, AddTransition, AddSwitch, Hand, MoveOf;
      if s.baseStation {
        if d.valid && s.kind.Moves? {
          NoteTransition(d.frame, s.frame);
        }
        return;
      }
      var change := NumberChange();
      var m := Move(s.id, s.time, MoveOf(d.frame, s.frame), d.frame, s.frame, false, false, change);
      if d.valid && s.kind.Moves? {
        HandOut(m);
        NoteTransition(d.frame, s.frame);
      } else if d.valid && s.kind.ReExpressed? {
        Switched(Switch(s.id, s.time, Reexpression, d.frame, s.frame, change));
      } else {
        InferMove(Inference(m.(inferred := true, returned := !d.valid), d.mark));
      }
    }

    method TakeMoves() returns (out: seq<Move>)
      modifies `moves, `outcome
      ensures out == old(moves) && View() == MovesTaken(old(View()))
    {
      out := moves;
      outcome := Marked(outcome, MoveChanges(moves), Moved);
      moves := [];
    }

    method TakeSwitches() returns (out: seq<Switch>)
      modifies `switches, `outcome
      ensures out == old(switches) && View() == SwitchesTaken(old(View()))
    {
      out := switches;
      outcome := Marked(outcome, SwitchChanges(switches), Outcome.Switched);
      switches := [];
    }

    method TakeMoveOverflow() returns (overflow: bool)
      modifies `moveOverflow, `unreportedDrops
      ensures overflow == old(moveOverflow) && View() == OverflowTaken(old(View()))
    {
      overflow := moveOverflow;
      moveOverflow, unreportedDrops := false, 0;
    }

    method Note(s: Sample)
      requires devices.Length == Slots
      modifies this, devices
      ensures View() == Noted(old(View()), s)
    {
      hide Infer, AddTransition, AddSwitch, Hand, ExpireInferences, MoveOf;
      if s.id >= Slots {
        return;
      }
      var d := devices[s.id];
      if !s.tracking {
        if !s.connected {
          devices[s.id] := d.(valid := false, away := d.away || d.valid);
        }
        return;
      }
      latestTime := Latest(latestTime, s.time);
      devices[s.id] := Device(true, false, s.baseStation, nextTransition, s.frame);
      if (d.valid || d.away) && d.frame != s.frame {
        NoteChange(d, s);
      } else if !d.valid && !d.away && !s.baseStation {
        var change := NumberChange();
        Switched(Switch(s.id, s.time, Appeared, Still, s.frame, change));
      }
      Expired();
    }
  }
}
