/**
 The overlay's side of the correction field, over absolute anchors: what the driver will make of
 the base calibration at a point, and why a correction of base and anchors together moves exactly
 that.
 */
module FieldMath {
  import opened Rotations
  import opened AlignmentField

  predicate UnitAnchors(anchors: seq<Anchor>) {
    forall i :: 0 <= i < |anchors| ==> Unit(anchors[i].solved.rotation)
  }

  lemma ProductIsUnit(a: Quat, b: Quat)
    requires Unit(a) && Unit(b)
    ensures Unit(Multiply(a, b)) && Unit(Multiply(a, Conjugate(b))) && Unit(Conjugate(b))
  {
    NormMultiply(a, b);
    NormMultiply(a, Conjugate(b));
    NormMultiply(b, b);
    hide Multiply, Conjugate, Norm2;
  }

  function AnchorDelta(c: Curves, anchor: Anchor, base: Rigid): LocalDelta
    requires c.Lawful() && Unit(anchor.solved.rotation) && Unit(base.rotation)
  {
    ProductIsUnit(anchor.solved.rotation, base.rotation);
    var rotation := Normalized(c, Multiply(anchor.solved.rotation, Conjugate(base.rotation)));
    LocalDelta(anchor.position,
               Rigid(rotation, Minus(anchor.solved.translation, RotateVector(rotation, base.translation))))
  }

  function DeltasOf(c: Curves, anchors: seq<Anchor>, base: Rigid): (deltas: seq<LocalDelta>)
    requires c.Lawful() && UnitAnchors(anchors) && Unit(base.rotation)
    ensures |deltas| == |anchors|
    ensures forall i :: 0 <= i < |anchors| ==> deltas[i] == AnchorDelta(c, anchors[i], base)
  {
    seq(|anchors|, i requires 0 <= i < |anchors| => AnchorDelta(c, anchors[i], base))
  }

  function Expected(c: Curves, falloff: real, anchors: seq<Anchor>, base: Rigid, query: Vec): Rigid
    requires c.Lawful() && UnitAnchors(anchors) && Unit(base.rotation)
  {
    var blend := Blend(c, falloff, DeltasOf(c, anchors, base), query);
    ProductIsUnit(blend.rotation, base.rotation);
    Rigid(Normalized(c, Multiply(blend.rotation, base.rotation)),
          Add(RotateVector(blend.rotation, base.translation), blend.translation))
  }

  lemma ExpectedIsComposition(c: Curves, falloff: real, anchors: seq<Anchor>, base: Rigid, query: Vec)
    requires c.Lawful() && UnitAnchors(anchors) && Unit(base.rotation)
    ensures Expected(c, falloff, anchors, base, query) ==
            Compose(Blend(c, falloff, DeltasOf(c, anchors, base), query), base)
  {
    var blend := Blend(c, falloff, DeltasOf(c, anchors, base), query);
    ProductIsUnit(blend.rotation, base.rotation);
    NormalizedUnit(c, Multiply(blend.rotation, base.rotation));
    hide Blend, Multiply, RotateVector, Normalized, Unit;
  }

  /** Applied after the base, an anchor's delta is the calibration solved there. */
  lemma AnchorDeltaReproduces(c: Curves, anchor: Anchor, base: Rigid)
    requires c.Lawful() && Unit(anchor.solved.rotation) && Unit(base.rotation)
    ensures Compose(AnchorDelta(c, anchor, base).delta, base) == anchor.solved
    ensures Unit(AnchorDelta(c, anchor, base).delta.rotation)
  {
    var solved := anchor.solved.rotation;
    ProductIsUnit(solved, base.rotation);
    NormalizedUnit(c, Multiply(solved, Conjugate(base.rotation)));
    MultiplyAssociative(solved, Conjugate(base.rotation), base.rotation);
    UnitInverse(base.rotation);
    IdentityMultiply(solved);
    hide Multiply, Conjugate, RotateVector, Normalized, Unit;
  }

  // ---------------------------------------------------------------------------
  // Cancelling
  // ---------------------------------------------------------------------------

  lemma SameAtAPoint(a: Rigid, b: Rigid, at: Vec)
    requires a.rotation == b.rotation && Act(a, at) == Act(b, at)
    ensures a == b
  {
    hide RotateVector;
  }

  // ---------------------------------------------------------------------------
  // Moving everything by D
  // ---------------------------------------------------------------------------

  function Around(d: Rigid, g: Rigid): Rigid {
    Compose(Compose(d, g), Inverse(d))
  }

  function MovedAnchor(d: Rigid, anchor: Anchor): Anchor {
    Anchor(Act(d, anchor.position), Compose(d, anchor.solved))
  }

  function MovedAnchors(d: Rigid, anchors: seq<Anchor>): (moved: seq<Anchor>)
    ensures |moved| == |anchors|
    ensures forall i :: 0 <= i < |anchors| ==> moved[i] == MovedAnchor(d, anchors[i])
  {
    seq(|anchors|, i requires 0 <= i < |anchors| => MovedAnchor(d, anchors[i]))
  }

  lemma MovedStaysUnit(d: Rigid, g: Rigid)
    requires Unit(d.rotation) && Unit(g.rotation)
    ensures Unit(Compose(d, g).rotation)
  {
    ProductIsUnit(d.rotation, g.rotation);
  }

  lemma AroundActs(d: Rigid, g: Rigid, v: Vec)
    requires Unit(d.rotation)
    ensures Act(Around(d, g), Act(d, v)) == Act(d, Act(g, v))
  {
    ComposeActs(Compose(d, g), Inverse(d), Act(d, v));
    ComposeActs(Inverse(d), d, v);
    ComposeActs(d, g, v);
    InverseUndoes(d);
    StillActs(v);
    hide Act, Compose, Inverse, Unit;
  }

  lemma AroundComposes(d: Rigid, g: Rigid, base: Rigid)
    requires Unit(d.rotation)
    ensures Compose(Around(d, g), Compose(d, base)) == Compose(d, Compose(g, base))
  {
    ComposeAssociative(Compose(d, g), Inverse(d), Compose(d, base));
    ComposeAssociative(Inverse(d), d, base);
    ComposeAssociative(d, g, base);
    InverseUndoes(d);
    StillIsNeutral(base);
    hide Compose, Inverse, Unit;
  }

  lemma DeltaMovesAround(c: Curves, d: Rigid, anchor: Anchor, base: Rigid)
    requires c.Lawful() && Unit(d.rotation) && Unit(anchor.solved.rotation) && Unit(base.rotation)
    ensures Unit(Compose(d, anchor.solved).rotation) && Unit(Compose(d, base).rotation)
    ensures AnchorDelta(c, MovedAnchor(d, anchor), Compose(d, base)).delta ==
            Around(d, AnchorDelta(c, anchor, base).delta)
  {
    MovedStaysUnit(d, anchor.solved);
    MovedStaysUnit(d, base);
    var before, after := AnchorDelta(c, anchor, base).delta, AnchorDelta(c, MovedAnchor(d, anchor), Compose(d, base)).delta;
    AnchorDeltaReproduces(c, anchor, base);
    AnchorDeltaReproduces(c, MovedAnchor(d, anchor), Compose(d, base));
    AroundComposes(d, before, base);
    RightCancel(after, Around(d, before), Compose(d, base));
    hide Compose, Inverse, Unit, AnchorDelta, Around;
  }

  // --- what D does to the sums ---

  function Turned(d: Quat, q: Quat): Quat {
    Multiply(Multiply(d, q), Conjugate(d))
  }

  lemma AroundTurns(d: Rigid, g: Rigid)
    ensures Around(d, g).rotation == Turned(d.rotation, g.rotation)
  {
  }

  lemma TurnedLinear(d: Quat, a: Quat, b: Quat, s: real)
    ensures Turned(d, Sum(a, b)) == Sum(Turned(d, a), Turned(d, b))
    ensures Turned(d, Times(a, s)) == Times(Turned(d, a), s)
  {
    MultiplySum(d, a, b);
    SumMultiply(Multiply(d, a), Multiply(d, b), Conjugate(d));
    TimesMultiply(d, a, s);
    TimesMultiply(Multiply(d, a), Conjugate(d), s);
    hide Multiply, Conjugate, Sum, Times;
  }

  lemma TurnedIdentity(d: Quat)
    requires Unit(d)
    ensures Turned(d, Identity) == Identity
  {
    IdentityMultiply(d);
    UnitInverse(d);
    hide Multiply, Conjugate, Unit;
  }

  lemma TurnedNorm(d: Quat, q: Quat)
    requires Unit(d)
    ensures Norm2(Turned(d, q)) == Norm2(q)
  {
    NormMultiply(d, q);
    NormMultiply(Multiply(d, q), d);
    NormMultiply(Multiply(d, q), Conjugate(d));
    NormMultiply(d, d);
    hide Multiply, Conjugate, Norm2;
  }

  /** Conjugation keeps the scalar part, so the short way round stays the short way. */
  lemma TurnedKeepsScalar(d: Quat, q: Quat)
    requires Unit(d)
    ensures Turned(d, q).w == q.w
  {
    var m := Multiply(d, q);
    Components(d, q);
    Components(m, Conjugate(d));
    ScalarKept(m.w, m.x, m.y, m.z, d.w, d.x, d.y, d.z, q.w, q.x, q.y, q.z, Norm2(d));
    hide Multiply;
  }

  lemma ScalarKept(mw: real, mx: real, my: real, mz: real, dw: real, dx: real, dy: real, dz: real,
                   qw: real, qx: real, qy: real, qz: real, n: real)
    requires mw == dw * qw - dx * qx - dy * qy - dz * qz && mx == dw * qx + dx * qw + dy * qz - dz * qy
    requires my == dw * qy + dy * qw + dz * qx - dx * qz && mz == dw * qz + dz * qw + dx * qy - dy * qx
    requires n == dw * dw + dx * dx + dy * dy + dz * dz && n == 1.0
    ensures mw * dw + mx * dx + my * dy + mz * dz == qw
  {
    assert mw * dw + mx * dx + my * dy + mz * dz == n * qw;
  }

  lemma ShortWayTurns(d: Quat, q: Quat)
    requires Unit(d)
    ensures ShortWay(Turned(d, q)) == Turned(d, ShortWay(q))
  {
    TurnedKeepsScalar(d, q);
    TurnedLinear(d, q, q, -1.0);
    hide Turned;
  }

  /** A turn about the vertical keeps every horizontal distance. */
  lemma YawKeepsDistance(d: Rigid, a: Vec, b: Vec)
    requires Yaw(d.rotation)
    ensures Distance2(Act(d, a), Act(d, b)) == Distance2(a, b)
  {
    var w, y := d.rotation.w, d.rotation.y;
    YawTurns(d.rotation, Minus(a, b));
    RotateMinus(d.rotation, a, b);
    var e, f := RotateVector(d.rotation, a), RotateVector(d.rotation, b);
    assert Act(d, a).x - Act(d, b).x == e.x - f.x == Minus(e, f).x;
    assert Act(d, a).z - Act(d, b).z == e.z - f.z == Minus(e, f).z;
    var turned := RotateVector(d.rotation, Minus(a, b));
    assert Distance2(Act(d, a), Act(d, b)) == turned.x * turned.x + turned.z * turned.z;
    hide RotateVector;
  }

  lemma YawTurns(q: Quat, v: Vec)
    requires Yaw(q)
    ensures var t := RotateVector(q, v); t.x * t.x + t.z * t.z == v.x * v.x + v.z * v.z
  {
    var m := Multiply(q, Pure(v));
    Components(q, Pure(v));
    Components(m, Conjugate(q));
    YawScalar(m.w, m.x, m.y, m.z, q.w, q.y, v.x, v.y, v.z);
    hide Multiply;
  }

  lemma YawScalar(mw: real, mx: real, my: real, mz: real, w: real, y: real, vx: real, vy: real, vz: real)
    requires w * w + y * y == 1.0
    requires mw == -y * vy && mx == w * vx + y * vz && my == w * vy && mz == w * vz - y * vx
    ensures var tx := mx * w + mz * y;
            var tz := mz * w - mx * y;
            tx * tx + tz * tz == vx * vx + vz * vz
  {
    assert mx * mx + mz * mz == (w * w + y * y) * (vx * vx + vz * vz);
    assert (mx * w + mz * y) * (mx * w + mz * y) + (mz * w - mx * y) * (mz * w - mx * y) ==
           (w * w + y * y) * (mx * mx + mz * mz);
  }

  /** The sums over moved anchors at a moved query. */
  predicate SumsMoved(d: Rigid, g: Sums, h: Sums) {
    && h.weight == g.weight && h.q == Turned(d.rotation, g.q)
    && h.p == Add(RotateVector(d.rotation, g.p), Scale(d.translation, g.weight))
  }

  lemma FloorMoves(d: Rigid, query: Vec)
    requires Unit(d.rotation)
    ensures SumsMoved(d, Floor(query), Floor(Act(d, query)))
  {
    TurnedIdentity(d.rotation);
    TurnedLinear(d.rotation, Identity, Identity, FloorWeight);
    RotateScale(d.rotation, query, FloorWeight);
    hide RotateVector, Turned, Unit, Times;
  }

  lemma WeighedMoves(d: Rigid, g: Sums, h: Sums, w: real, rotation: Quat, sent: Vec)
    requires Unit(d.rotation) && SumsMoved(d, g, h)
    ensures SumsMoved(d, Weighed(g, w, rotation, sent), Weighed(h, w, Turned(d.rotation, rotation), Act(d, sent)))
  {
    ShortWayTurns(d.rotation, rotation);
    TurnedLinear(d.rotation, g.q, Times(ShortWay(rotation), w), 0.0);
    TurnedLinear(d.rotation, ShortWay(rotation), ShortWay(rotation), w);
    PointsMove(d, g.p, g.weight, w, sent);
    hide RotateVector, Turned, Unit, Times, Add, Scale, ShortWay, Act;
  }

  lemma PointsMove(d: Rigid, p: Vec, weight: real, w: real, sent: Vec)
    ensures Add(Add(RotateVector(d.rotation, p), Scale(d.translation, weight)), Scale(Act(d, sent), w)) ==
            Add(RotateVector(d.rotation, Add(p, Scale(sent, w))), Scale(d.translation, weight + w))
  {
    RotateAdd(d.rotation, p, Scale(sent, w));
    RotateScale(d.rotation, sent, w);
    hide RotateVector;
  }

  lemma {:induction false} GatheredMoves(c: Curves, falloff: real, d: Rigid, deltas: seq<LocalDelta>,
                                         moved: seq<LocalDelta>, query: Vec)
    requires c.Lawful() && Yaw(d.rotation) && |moved| == |deltas|
    requires forall i :: 0 <= i < |deltas| ==>
               moved[i].position == Act(d, deltas[i].position) && moved[i].delta == Around(d, deltas[i].delta)
    ensures SumsMoved(d, Gathered(c, falloff, deltas, query), Gathered(c, falloff, moved, Act(d, query)))
    decreases |deltas|
  {
    if deltas == [] {
      FloorMoves(d, query);
    } else {
      var last, lastMoved := deltas[|deltas| - 1], moved[|moved| - 1];
      var g := Gathered(c, falloff, deltas[..|deltas| - 1], query);
      var h := Gathered(c, falloff, moved[..|moved| - 1], Act(d, query));
      GatheredMoves(c, falloff, d, deltas[..|deltas| - 1], moved[..|moved| - 1], query);
      StepMoves(c, falloff, d, query, g, h, last, lastMoved);
      hide SumsMoved, Step;
    }
  }

  lemma SameDistanceSameWeight(c: Curves, falloff: real, a: Vec, b: Vec, e: Vec, f: Vec)
    requires Distance2(a, b) == Distance2(e, f)
    ensures Weight(c, falloff, a, b) == Weight(c, falloff, e, f)
  {
    hide Distance2, Exponent;
  }

  lemma StepMoves(c: Curves, falloff: real, d: Rigid, query: Vec, g: Sums, h: Sums, one: LocalDelta, moved: LocalDelta)
    requires Yaw(d.rotation) && SumsMoved(d, g, h)
    requires moved.position == Act(d, one.position) && moved.delta == Around(d, one.delta)
    ensures SumsMoved(d, Step(c, falloff, query, g, one), Step(c, falloff, Act(d, query), h, moved))
  {
    YawKeepsDistance(d, query, one.position);
    SameDistanceSameWeight(c, falloff, query, one.position, Act(d, query), moved.position);
    AroundTurns(d, one.delta);
    AroundActs(d, one.delta, query);
    WeighedMoves(d, g, h, Weight(c, falloff, query, one.position), one.delta.rotation, Act(one.delta, query));
    hide Act, Around, Weighed, Turned, SumsMoved, Weight;
  }

  lemma NormalizedTurns(c: Curves, d: Quat, q: Quat)
    requires c.Lawful() && Unit(d) && Norm2(q) > 0.0
    ensures Norm2(Turned(d, q)) > 0.0 && Normalized(c, Turned(d, q)) == Turned(d, Normalized(c, q))
  {
    TurnedNorm(d, q);
    TurnedLinear(d, q, q, 1.0 / c.root(Norm2(q)));
    hide Turned, Norm2, Times;
  }

  lemma MeanMoves(d: Rigid, p: Vec, weight: real)
    requires weight > 0.0
    ensures Scale(Add(RotateVector(d.rotation, p), Scale(d.translation, weight)), 1.0 / weight) ==
            Act(d, Scale(p, 1.0 / weight))
  {
    RotateScale(d.rotation, p, 1.0 / weight);
    ScaleAdd(RotateVector(d.rotation, p), Scale(d.translation, weight), 1.0 / weight);
    ScaleBack(d.translation, weight);
    hide RotateVector, Scale, Add;
  }

  lemma BlendMoves(c: Curves, falloff: real, d: Rigid, deltas: seq<LocalDelta>, moved: seq<LocalDelta>, query: Vec)
    requires c.Lawful() && Yaw(d.rotation) && |moved| == |deltas|
    requires forall i :: 0 <= i < |deltas| ==>
               moved[i].position == Act(d, deltas[i].position) && moved[i].delta == Around(d, deltas[i].delta)
    ensures Blend(c, falloff, moved, Act(d, query)) == Around(d, Blend(c, falloff, deltas, query))
  {
    var g, h := Gathered(c, falloff, deltas, query), Gathered(c, falloff, moved, Act(d, query));
    var before, after := Blend(c, falloff, deltas, query), Blend(c, falloff, moved, Act(d, query));
    GatheredMoves(c, falloff, d, deltas, moved, query);
    FloorHolds(c, falloff, deltas, query);
    NormalizedTurns(c, d.rotation, g.q);
    AroundTurns(d, before);
    BlendReachesTheMean(c, falloff, deltas, query);
    BlendReachesTheMean(c, falloff, moved, Act(d, query));
    MeanMoves(d, g.p, g.weight);
    AroundActs(d, before, query);
    hide Act, Around, Turned, Gathered, Norm2, Scale, Normalized, Minus;
    assert after.rotation == Around(d, before).rotation;
    assert Act(after, Act(d, query)) == Act(Around(d, before), Act(d, query));
    SameAtAPoint(after, Around(d, before), Act(d, query));
  }

  /**
   A yaw-plus-translation correction of the base and of every anchor moves the blended
   expectation by exactly that correction, for any anchors and any query.
   */
  lemma ExpectedMoves(c: Curves, falloff: real, d: Rigid, anchors: seq<Anchor>, base: Rigid, query: Vec)
    requires c.Lawful() && Yaw(d.rotation) && UnitAnchors(anchors) && Unit(base.rotation)
    ensures UnitAnchors(MovedAnchors(d, anchors)) && Unit(Compose(d, base).rotation)
    ensures Expected(c, falloff, MovedAnchors(d, anchors), Compose(d, base), Act(d, query)) ==
            Compose(d, Expected(c, falloff, anchors, base, query))
  {
    MovedStaysUnit(d, base);
    var shifted := MovedAnchors(d, anchors);
    MovedAnchorsStayUnit(d, anchors);
    var deltas, moved := DeltasOf(c, anchors, base), DeltasOf(c, shifted, Compose(d, base));
    forall i | 0 <= i < |anchors|
      ensures moved[i].position == Act(d, deltas[i].position) && moved[i].delta == Around(d, deltas[i].delta)
    {
      DeltaMovesAround(c, d, anchors[i], base);
    }
    BlendMoves(c, falloff, d, deltas, moved, query);
    ExpectedIsComposition(c, falloff, anchors, base, query);
    ExpectedIsComposition(c, falloff, shifted, Compose(d, base), Act(d, query));
    AroundComposes(d, Blend(c, falloff, deltas, query), base);
    hide Act, Around, Compose, Blend, Expected, Unit;
  }

  // ---------------------------------------------------------------------------
  // The overlay's loop, and what it ships to the driver
  // ---------------------------------------------------------------------------

  method BlendedFieldCalibration(c: Curves, anchors: seq<Anchor>, base: Rigid, query: Vec, sigma: real)
    returns (rotOut: Quat, transOut: Vec)
    requires c.Lawful() && UnitAnchors(anchors) && Unit(base.rotation) && sigma > 0.0
    ensures Rigid(rotOut, transOut) == Expected(c, Falloff(sigma), anchors, base, query)
  {
    hide Normalized, RotateVector, Exponent, Multiply, Scale, Floor, Unit, Act, Norm2;
    var wSum := FloorWeight;
    var q := Quat(FloorWeight, 0.0, 0.0, 0.0);
    var p := Vec(FloorWeight * query.x, FloorWeight * query.y, FloorWeight * query.z);
    FloorComponents(query);
    var falloff := 1.0 / (2.0 * sigma * sigma);
    ghost var deltas := DeltasOf(c, anchors, base);
    for i := 0 to |anchors|
      invariant Sums(wSum, q, p) == Gathered(c, falloff, deltas[..i], query)
    {
      assert deltas[..i + 1][..i] == deltas[..i];
      wSum, q, p := AccumulateAnchor(c, falloff, query, wSum, q, p, anchors[i], base);
    }
    assert deltas[..|anchors|] == deltas;
    FloorHolds(c, falloff, deltas, query);
    NormalizedComponents(c, q);
    MeanComponents(p, wSum);
    var norm := c.root(Norm2(q));
    var dBlend := Quat(q.w / norm, q.x / norm, q.y / norm, q.z / norm);
    var tBlend := Minus(Vec(p.x / wSum, p.y / wSum, p.z / wSum), RotateVector(dBlend, query));
    ProductIsUnit(dBlend, base.rotation);
    UnitNormPositive(Multiply(dBlend, base.rotation));
    rotOut := Normalized(c, Multiply(dBlend, base.rotation));
    transOut := Add(RotateVector(dBlend, base.translation), tBlend);
  }

  lemma UnitNormPositive(q: Quat)
    requires Unit(q)
    ensures Norm2(q) > 0.0
  {
  }

  method AccumulateAnchor(c: Curves, falloff: real, query: Vec, wSum: real, q: Quat, p: Vec, a: Anchor, base: Rigid)
    returns (wSum': real, q': Quat, p': Vec)
    requires c.Lawful() && Unit(a.solved.rotation) && Unit(base.rotation)
    ensures Sums(wSum', q', p') == Step(c, falloff, query, Sums(wSum, q, p), AnchorDelta(c, a, base))
  {
    hide Weighed, RotateVector, Exponent, Multiply, Conjugate, Unit, Norm2, Normalized;
    var baseInv := Conjugate(base.rotation);
    ProductIsUnit(a.solved.rotation, base.rotation);
    UnitNormPositive(Multiply(a.solved.rotation, baseInv));
    var dR := Normalized(c, Multiply(a.solved.rotation, baseInv));
    var dT := Minus(a.solved.translation, RotateVector(dR, base.translation));
    var dx := query.x - a.position.x;
    var dz := query.z - a.position.z;
    var distance2 := dx * dx + dz * dz;
    assert distance2 == Distance2(query, a.position);
    var w := c.kernel(Exponent(distance2, falloff));
    var sign := if dR.w < 0.0 then -1.0 else 1.0;
    var sent := Add(RotateVector(dR, query), dT);
    WeighedComponents(Sums(wSum, q, p), w, sign, dR, sent);
    q' := Quat(q.w + sign * w * dR.w, q.x + sign * w * dR.x, q.y + sign * w * dR.y, q.z + sign * w * dR.z);
    p' := Vec(p.x + w * sent.x, p.y + w * sent.y, p.z + w * sent.z);
    wSum' := wSum + w;
  }

  const MaxAnchors: nat := 8

  method BuildAlignmentField(c: Curves, enabled: bool, anchors: seq<Anchor>, base: Rigid)
    returns (shipped: bool, deltas: seq<LocalDelta>)
    requires c.Lawful() && UnitAnchors(anchors) && Unit(base.rotation)
    ensures shipped == (enabled && anchors != [])
    ensures !shipped ==> deltas == []
    ensures shipped ==>
              deltas == DeltasOf(c, if |anchors| <= MaxAnchors then anchors else anchors[..MaxAnchors], base)
  {
    shipped := enabled && anchors != [];
    deltas := [];
    if !shipped {
      return;
    }
    hide Unit, Normalized, Conjugate, Multiply, RotateVector, Norm2;
    var count := if |anchors| <= MaxAnchors then |anchors| else MaxAnchors;
    for i := 0 to count
      invariant |deltas| == i && forall j :: 0 <= j < i ==> deltas[j] == AnchorDelta(c, anchors[j], base)
    {
      var product := Multiply(anchors[i].solved.rotation, Conjugate(base.rotation));
      ProductIsUnit(anchors[i].solved.rotation, base.rotation);
      UnitNormPositive(product);
      var rotation := Normalized(c, product);
      deltas := deltas + [LocalDelta(anchors[i].position,
                                     Rigid(rotation, Minus(anchors[i].solved.translation,
                                                           RotateVector(rotation, base.translation))))];
    }
  }

  // ---------------------------------------------------------------------------
  // A correction moves everything or nothing
  // ---------------------------------------------------------------------------

  const MaxAbsTranslation: real := 10000.0
  const MaxAbsAnchorPosition: real := 10000.0
  const MaxAbsAnchorDelta: real := 100.0

  function Magnitude(a: real): real { if a < 0.0 then -a else a }

  predicate Bounded(v: Vec, limit: real) {
    Magnitude(v.x) <= limit && Magnitude(v.y) <= limit && Magnitude(v.z) <= limit
  }

  predicate ValidAnchor(c: Curves, anchor: Anchor, base: Rigid)
    requires c.Lawful() && Unit(anchor.solved.rotation) && Unit(base.rotation)
  {
    && Bounded(anchor.position, MaxAbsAnchorPosition) && Bounded(anchor.solved.translation, MaxAbsTranslation)
    && Bounded(base.translation, MaxAbsTranslation)
    && Bounded(AnchorDelta(c, anchor, base).delta.translation, MaxAbsAnchorDelta)
  }

  lemma MovedAnchorsStayUnit(d: Rigid, anchors: seq<Anchor>)
    requires Unit(d.rotation) && UnitAnchors(anchors)
    ensures UnitAnchors(MovedAnchors(d, anchors))
  {
    forall i | 0 <= i < |anchors| ensures Unit(MovedAnchor(d, anchors[i]).solved.rotation) {
      MovedStaysUnit(d, anchors[i].solved);
    }
  }

  predicate ValidMoved(c: Curves, d: Rigid, anchor: Anchor, base: Rigid)
    requires c.Lawful() && Unit(d.rotation) && Unit(anchor.solved.rotation) && Unit(base.rotation)
  {
    MovedStaysUnit(d, anchor.solved);
    MovedStaysUnit(d, base);
    ValidAnchor(c, MovedAnchor(d, anchor), Compose(d, base))
  }

  const MinScale: real := 0.25
  const MaxScale: real := 4.0

  predicate ValidScale(scale: real) { MinScale <= scale <= MaxScale }

  class Calibration {
    var anchors: seq<Anchor>
    var base: Rigid
    var scale: real
    var baseGeneration: nat
    var roomProtected: bool
    var room: Rigid
    var revision: nat
    var fieldGeneration: nat
    var profileDirty: bool
    var settingsDirty: bool
    var coupled: bool

    predicate Valid()
      reads this
    {
      UnitAnchors(anchors) && Unit(base.rotation)
    }

    /** Nothing is changed until everything has been checked. */
    ghost predicate Accepts(c: Curves, d: Rigid, moveRoom: bool, plausible: Rigid -> bool)
      requires c.Lawful() && Unit(d.rotation) && Valid()
      reads this
    {
      && Bounded(d.translation, MaxAbsTranslation) && Bounded(Compose(d, base).translation, MaxAbsTranslation)
      && ValidScale(scale)
      && (moveRoom && roomProtected ==> plausible(Compose(d, room)))
      && (forall i :: 0 <= i < |anchors| ==> ValidMoved(c, d, anchors[i], base))
    }

    method MoveAnchors(d: Rigid)
      modifies `anchors
      ensures anchors == MovedAnchors(d, old(anchors))
    {
      ghost var was := anchors;
      for i := 0 to |anchors|
        invariant |anchors| == |was|
        invariant forall j :: 0 <= j < i ==> anchors[j] == MovedAnchor(d, was[j])
        invariant forall j :: i <= j < |was| ==> anchors[j] == was[j]
      {
        anchors := anchors[i := MovedAnchor(d, anchors[i])];
      }
      assert anchors == MovedAnchors(d, was);
    }

    method CheckDelta(c: Curves, d: Rigid, moveRoom: bool, plausible: Rigid -> bool) returns (ok: bool)
      requires c.Lawful() && Unit(d.rotation) && Valid()
      ensures ok == Accepts(c, d, moveRoom, plausible)
    {
      hide Unit, Compose, Bounded, ValidMoved;
      if !Bounded(d.translation, MaxAbsTranslation) {
        return false;
      }
      var newBase := Compose(d, base);
      if !Bounded(newBase.translation, MaxAbsTranslation) || !ValidScale(scale) {
        return false;
      }
      for i := 0 to |anchors|
        invariant forall j :: 0 <= j < i ==> ValidMoved(c, d, anchors[j], base)
      {
        if !ValidMoved(c, d, anchors[i], base) {
          return false;
        }
      }
      ok := !(moveRoom && roomProtected) || plausible(Compose(d, room));
    }

    /**
     `snap` is a universe change: a new revision, and both records to be written. A continuous
     correction only marks the profile.
     */
    method ApplyCalibrationDelta(c: Curves, d: Rigid, snap: bool, moveRoom: bool, plausible: Rigid -> bool)
      returns (ok: bool)
      requires c.Lawful() && Unit(d.rotation) && Valid()
      modifies this
      ensures Valid()
      ensures ok == old(Accepts(c, d, moveRoom, plausible))
      ensures ok ==> anchors == MovedAnchors(d, old(anchors)) && base == Compose(d, old(base)) && profileDirty
      ensures ok ==> room == if snap && moveRoom && old(roomProtected) then Compose(d, old(room)) else old(room)
      ensures ok && snap ==>
                revision == old(revision) + 1 && coupled && settingsDirty
                && fieldGeneration == old(fieldGeneration) + (if old(anchors) == [] then 0 else 1)
                && baseGeneration == old(baseGeneration) + 1
      ensures ok && !snap ==>
                revision == old(revision) && coupled == old(coupled) && settingsDirty == old(settingsDirty)
                && fieldGeneration == old(fieldGeneration) && baseGeneration == old(baseGeneration)
      ensures !ok ==> anchors == old(anchors) && base == old(base) && room == old(room) && revision == old(revision)
                      && fieldGeneration == old(fieldGeneration) && profileDirty == old(profileDirty)
                      && settingsDirty == old(settingsDirty) && coupled == old(coupled)
                      && baseGeneration == old(baseGeneration)
      ensures roomProtected == old(roomProtected) && scale == old(scale)
    {
      hide Unit, Compose, Bounded, ValidMoved, Act, Accepts;
      ok := CheckDelta(c, d, moveRoom, plausible);
      if !ok {
        return;
      }
      var newRoom := Compose(d, room);
      MovedStaysUnit(d, base);
      MovedAnchorsStayUnit(d, anchors);
      MoveAnchors(d);
      base := Compose(d, base);
      if snap {
        baseGeneration := baseGeneration + 1;
        if anchors != [] {
          fieldGeneration := fieldGeneration + 1;
        }
        revision, coupled := revision + 1, true;
        if moveRoom && roomProtected {
          room := newRoom;
        }
        settingsDirty := true;
      }
      profileDirty := true;
    }
  }
}
