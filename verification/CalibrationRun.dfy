/**
 The target's lighthouse frame while a calibration collects samples. Samples taken after the frame has
 moved are put back by the inverse of all its moves so far, and what is solved from them is
 composed with those moves again at the end.

 Whether a pose stayed on its trajectory, in the device's frame and in the world, is part of the
 sample.
 */
module CalibrationRun {
  import opened Rotations

  datatype Verdict = Same | Moved | Changed

  /** One target sample: its frame, and what its local and world poses did since the one before. */
  datatype Sample = Sample(frame: Rigid, localKept: bool, worldKept: bool)

  /** The frame as the samples show it, the way back to the first one, and the moves undone so far. */
  datatype Tracked = Tracked(
    valid: bool, frame: Rigid, toStart: Rigid, moves: nat,
    carried: Rigid,       // every move so far, composed
    startView: Rigid)     // the current frame as it stood when the run began

  const Untracked := Tracked(false, Still, Still, 0, Still, Still)

  function Judged(t: Tracked, s: Sample): Verdict {
    if !t.valid || t.frame == s.frame || s.worldKept then Same
    else if s.localKept then Moved else Changed
  }

  function Accepted(t: Tracked, s: Sample): Tracked {
    match Judged(t, s)
    case Changed => t
    case Moved =>
      var move := MoveOf(t.frame, s.frame);
      t.(frame := s.frame, moves := t.moves + 1, toStart := Compose(t.toStart, Inverse(move)),
      carried := Compose(move, t.carried))
    case Same => t.(valid := true, frame := s.frame, startView := Compose(t.toStart, s.frame))
  }

  predicate Inv(t: Tracked) {
    && Unit(t.frame.rotation) && Unit(t.toStart.rotation) && Unit(t.carried.rotation)
    && Compose(t.toStart, t.carried) == Still
    && (t.valid ==> Compose(t.toStart, t.frame) == t.startView)
  }

  lemma ComposedUnit(a: Rigid, b: Rigid)
    requires Unit(a.rotation) && Unit(b.rotation)
    ensures Unit(Compose(a, b).rotation)
  {
    NormMultiply(a.rotation, b.rotation);
    hide Norm2, Multiply;
  }

  /** One more move undone: the way back stays the inverse of everything that moved. */
  lemma AcceptedKeeps(t: Tracked, s: Sample)
    requires Inv(t) && Unit(s.frame.rotation)
    ensures Inv(Accepted(t, s))
    ensures Judged(t, s).Moved? ==> Accepted(t, s).startView == t.startView
  {
    if Judged(t, s).Moved? {
      var move := MoveOf(t.frame, s.frame);
      var back := Inverse(move);
      MoveCarries(t.frame, s.frame);
      InverseUndoes(move);
      ComposedUnit(t.toStart, back);
      ComposedUnit(move, t.carried);
      // toStart' after the new frame is toStart after the old one.
      ComposeAssociative(t.toStart, back, s.frame);
      ComposeAssociative(back, move, t.frame);
      StillIsNeutral(t.frame);
      // toStart' after every move is still the identity.
      ComposeAssociative(t.toStart, back, Compose(move, t.carried));
      ComposeAssociative(back, move, t.carried);
      StillIsNeutral(t.carried);
      hide Compose, Inverse, MoveOf, Unit;
    }
  }

  /**
   A sample is turned away exactly when the frame changed under a path that went on in neither view.
   A device on its path in the world is put back as before; one on its path in its own frame is put
   back where that path led in the frame before.
   */
  lemma AcceptedExactly(t: Tracked, s: Sample, local: Vec)
    requires Inv(t) && Unit(s.frame.rotation)
    ensures var after := Accepted(t, s);
            var led := t.valid && t.frame != s.frame && !s.worldKept;
            && (Judged(t, s).Changed? <==> led && !s.localKept)
            && (Judged(t, s).Changed? ==> after == t)
            && (!Judged(t, s).Changed? ==> after.valid && after.frame == s.frame)
            && (!led ==> Judged(t, s).Same? && after.toStart == t.toStart && after.moves == t.moves)
            && (led && s.localKept ==>
                 && Judged(t, s).Moved? && after.moves == t.moves + 1
                 && Act(after.toStart, Act(s.frame, local)) == Act(t.toStart, Act(t.frame, local)))
  {
    if Judged(t, s).Moved? {
      var move := MoveOf(t.frame, s.frame);
      var back := Inverse(move);
      MoveCarries(t.frame, s.frame);
      InverseUndoes(move);
      ComposeAssociative(t.toStart, back, s.frame);
      ComposeAssociative(back, move, t.frame);
      StillIsNeutral(t.frame);
      ComposeActs(Compose(t.toStart, back), s.frame, local);
      ComposeActs(t.toStart, t.frame, local);
      hide Compose, Inverse, MoveOf, Unit, Act;
    }
  }

  function Followed(t: Tracked, samples: seq<Sample>): Tracked
    decreases |samples|
  {
    if samples == [] then t else Followed(Accepted(t, samples[0]), samples[1..])
  }

  /** The moves among the samples, composed. */
  function MovesOf(t: Tracked, samples: seq<Sample>): Rigid
    decreases |samples|
  {
    if samples == [] then Still
    else
      var rest := MovesOf(Accepted(t, samples[0]), samples[1..]);
      if Judged(t, samples[0]).Moved? then Compose(rest, MoveOf(t.frame, samples[0].frame)) else rest
  }

  predicate UnitFrames(samples: seq<Sample>) {
    forall i :: 0 <= i < |samples| ==> Unit(samples[i].frame.rotation)
  }

  lemma {:induction false} FollowedKeeps(t: Tracked, samples: seq<Sample>)
    requires Inv(t) && UnitFrames(samples)
    ensures Inv(Followed(t, samples))
    ensures Followed(t, samples).carried == Compose(MovesOf(t, samples), t.carried)
    decreases |samples|
  {
    hide Inv, Unit, Compose, MoveOf;
    if samples == [] {
      StillIsNeutral(t.carried);
    } else {
      AcceptedKeeps(t, samples[0]);
      FollowedKeeps(Accepted(t, samples[0]), samples[1..]);
      ComposeAssociative(MovesOf(Accepted(t, samples[0]), samples[1..]), MoveOf(t.frame, samples[0].frame), t.carried);
    }
  }

  /** Through any samples, the way back is the inverse of all the frame moves, in order. */
  lemma ToStartUndoesEveryMove(samples: seq<Sample>, v: Vec)
    requires UnitFrames(samples)
    ensures Act(Followed(Untracked, samples).toStart, Act(MovesOf(Untracked, samples), v)) == v
  {
    var t := Followed(Untracked, samples);
    UntrackedInv();
    FollowedKeeps(Untracked, samples);
    StillIsNeutral(MovesOf(Untracked, samples));
    ComposeActs(t.toStart, t.carried, v);
    RotateIdentity(v);
    hide Unit, Compose, RotateVector, MovesOf, Followed;
  }

  lemma UntrackedInv()
    ensures Inv(Untracked)
  {
    StillIsNeutral(Still);
    hide Compose;
  }

  predicate NeverReexpressed(t: Tracked, samples: seq<Sample>)
    decreases |samples|
  {
    samples == [] ||
    (&& (t.valid && t.frame != samples[0].frame ==> !samples[0].worldKept)
     && NeverReexpressed(Accepted(t, samples[0]), samples[1..]))
  }

  /** Unless the device changes station, the starting view is the first frame itself. */
  lemma {:induction false} StartFrameStays(t: Tracked, samples: seq<Sample>)
    requires Inv(t) && t.valid && UnitFrames(samples) && NeverReexpressed(t, samples)
    ensures Followed(t, samples).startView == t.startView && Followed(t, samples).valid
    decreases |samples|
  {
    hide Inv, Unit;
    if samples != [] {
      AcceptedKeeps(t, samples[0]);
      ValidFrameView(t);
      StartFrameStays(Accepted(t, samples[0]), samples[1..]);
    }
  }

  lemma ValidFrameView(t: Tracked)
    requires Inv(t) && t.valid
    ensures Compose(t.toStart, t.frame) == t.startView
  {
  }

  /**
   A sample's world pose put back is the pose its local pose has in the starting frame, rotation
   and position alike.
   */
  lemma PutBackIsStartPose(samples: seq<Sample>, local: Rigid)
    requires UnitFrames(samples) && Followed(Untracked, samples).valid
    ensures var t := Followed(Untracked, samples);
            Compose(t.toStart, Compose(t.frame, local)) == Compose(t.startView, local)
  {
    var t := Followed(Untracked, samples);
    UntrackedInv();
    FollowedKeeps(Untracked, samples);
    ComposeAssociative(t.toStart, t.frame, local);
    hide Unit, Compose, Followed;
  }

  // ---------------------------------------------------------------------------
  // Carrying the calibration
  // ---------------------------------------------------------------------------

  /** C(x) = R (s x) + t. */
  function Calibrated(c: Rigid, scale: real, x: Vec): Vec {
    Add(RotateVector(c.rotation, Scale(x, scale)), c.translation)
  }

  function CarriedTo(c: Rigid, toStart: Rigid, scale: real): Rigid {
    Rigid(Multiply(c.rotation, toStart.rotation),
          Add(c.translation, Scale(RotateVector(c.rotation, toStart.translation), scale)))
  }

  /** The carried calibration maps a current point where the solved one maps its starting point. */
  lemma CarriedCalibrationAgrees(c: Rigid, toStart: Rigid, scale: real, x: Vec)
    ensures Calibrated(CarriedTo(c, toStart, scale), scale, x) == Calibrated(c, scale, Act(toStart, x))
  {
    var turned := RotateVector(toStart.rotation, x);
    RotateMultiply(c.rotation, toStart.rotation, Scale(x, scale));
    RotateScale(toStart.rotation, x, scale);
    ScaleAdd(turned, toStart.translation, scale);
    RotateAdd(c.rotation, Scale(turned, scale), Scale(toStart.translation, scale));
    RotateScale(c.rotation, toStart.translation, scale);
    AddShuffle(RotateVector(c.rotation, Scale(turned, scale)), c.translation,
               RotateVector(c.rotation, Scale(toStart.translation, scale)));
    hide RotateVector, Multiply, Scale, Add;
  }

  lemma AddShuffle(a: Vec, b: Vec, c: Vec)
    ensures Add(a, Add(b, c)) == Add(Add(a, c), b)
  {
  }

  // ---------------------------------------------------------------------------
  // The objects, updated in place
  // ---------------------------------------------------------------------------

  class PoseSample {
    var rotation: Quat
    var position: Vec
    var velocity: Vec
    var angularVelocity: Vec
  }

  class TargetFrame {
    var valid: bool
    var frame: Rigid
    var toStart: Rigid
    var moves: nat
    ghost var carried: Rigid
    ghost var startView: Rigid

    ghost function View(): Tracked
      reads this
    {
      Tracked(valid, frame, toStart, moves, carried, startView)
    }

    constructor ()
      ensures View() == Untracked
    {
      valid, frame, toStart, moves, carried, startView := false, Still, Still, 0, Still, Still;
    }

    method Accept(s: Sample) returns (verdict: Verdict)
      requires Inv(View()) && Unit(s.frame.rotation)
      modifies this
      ensures View() == Accepted(old(View()), s) && verdict == Judged(old(View()), s) && Inv(View())
    {
      hide Inv, Unit, Compose, Multiply, RotateVector, Conjugate;
      AcceptedKeeps(View(), s);
      verdict := Same;
      if valid && frame != s.frame && !s.worldKept {
        if !s.localKept {
          return Changed;
        }
        var moveRotation := Multiply(s.frame.rotation, Conjugate(frame.rotation));
        var moveTranslation := Minus(s.frame.translation, RotateVector(moveRotation, frame.translation));
        var back := Conjugate(moveRotation);
        ghost var move := MoveOf(frame, s.frame);
        BackwardsStep(toStart, move);
        toStart := Rigid(Multiply(toStart.rotation, back),
                         Minus(toStart.translation, RotateVector(toStart.rotation, RotateVector(back, moveTranslation))));
        moves := moves + 1;
        carried := Compose(move, carried);
        verdict := Moved;
      } else {
        startView := Compose(toStart, s.frame);
      }
      valid := true;
      frame := s.frame;
    }

    /** Applies the way back to a pose and to its derivatives. */
    method ToStart(s: PoseSample)
      modifies s
      ensures Rigid(s.rotation, s.position) == Compose(toStart, old(Rigid(s.rotation, s.position)))
      ensures s.velocity == RotateVector(toStart.rotation, old(s.velocity))
      ensures s.angularVelocity == RotateVector(toStart.rotation, old(s.angularVelocity))
    {
      s.rotation := Multiply(toStart.rotation, s.rotation);
      s.position := Add(RotateVector(toStart.rotation, s.position), toStart.translation);
      s.velocity := RotateVector(toStart.rotation, s.velocity);
      s.angularVelocity := RotateVector(toStart.rotation, s.angularVelocity);
    }

    method CarryCalibration(rotation: Quat, translation: Vec, scale: real) returns (newRotation: Quat, newTranslation: Vec)
      ensures forall x :: Calibrated(Rigid(newRotation, newTranslation), scale, x) ==
                          Calibrated(Rigid(rotation, translation), scale, Act(toStart, x))
    {
      newTranslation := Add(translation, Scale(RotateVector(rotation, toStart.translation), scale));
      newRotation := Multiply(rotation, toStart.rotation);
      forall x
        ensures Calibrated(Rigid(newRotation, newTranslation), scale, x) ==
                Calibrated(Rigid(rotation, translation), scale, Act(toStart, x))
      {
        CarriedCalibrationAgrees(Rigid(rotation, translation), toStart, scale, x);
      }
    }
  }

  lemma BackwardsStep(toStart: Rigid, move: Rigid)
    ensures var back := Conjugate(move.rotation);
            Compose(toStart, Inverse(move)) ==
            Rigid(Multiply(toStart.rotation, back),
                  Minus(toStart.translation, RotateVector(toStart.rotation, RotateVector(back, move.translation))))
  {
    var turned := RotateVector(Conjugate(move.rotation), move.translation);
    RotateScale(toStart.rotation, turned, -1.0);
    hide RotateVector, Multiply, Conjugate;
  }
}
