/**
 The spatial correction field: the driver blends per-anchor deltas at the device's own position,
 the overlay blends the same deltas over its absolute anchors to know what the driver will do.

 `exp` enters as a positive function of its argument and `sqrt` by what it promises.
 */
module AlignmentField {
  import opened Rotations

  datatype Curves = Curves(kernel: real -> real, root: real -> real)
  {
    ghost predicate Lawful() {
      && (forall x: real :: kernel(x) > 0.0)
      && (forall x: real :: x >= 0.0 ==> root(x) >= 0.0 && root(x) * root(x) == x)
    }
  }

  const FloorWeight: real := 0.05

  /** `delta` is applied after the base calibration, for devices near `position`. */
  datatype LocalDelta = LocalDelta(position: Vec, delta: Rigid)

  /** An absolute calibration solved at `position`. */
  datatype Anchor = Anchor(position: Vec, solved: Rigid)

  // ---------------------------------------------------------------------------
  // Normalizing
  // ---------------------------------------------------------------------------

  lemma RootPositive(c: Curves, x: real)
    requires c.Lawful() && x > 0.0
    ensures c.root(x) > 0.0
  {
  }

  lemma RootOfOne(c: Curves)
    requires c.Lawful()
    ensures c.root(1.0) == 1.0
  {
    RootOfSquare(c, 1.0);
  }

  lemma SquaresRise(a: real, b: real)
    requires 0.0 <= a < b
    ensures a * a < b * b
  {
    var d, sum := b - a, b + a;
    assert d * sum > 0.0;
    assert d * sum == b * b - a * a;
  }

  lemma RootOfSquare(c: Curves, x: real)
    requires c.Lawful() && x > 0.0
    ensures c.root(x * x) == x
  {
    var r := c.root(x * x);
    if r < x {
      SquaresRise(r, x);
    } else if x < r {
      SquaresRise(x, r);
    }
  }

  function Normalized(c: Curves, q: Quat): (u: Quat)
    requires c.Lawful() && Norm2(q) > 0.0
    ensures Unit(u)
  {
    RootPositive(c, Norm2(q));
    var n := c.root(Norm2(q));
    NormTimes(q, 1.0 / n);
    assert (1.0 / n) * (1.0 / n) * (n * n) == 1.0;
    Times(q, 1.0 / n)
  }

  lemma NormTimes(q: Quat, s: real)
    ensures Norm2(Times(q, s)) == s * s * Norm2(q)
  {
  }

  lemma NormalizedUnit(c: Curves, q: Quat)
    requires c.Lawful() && Unit(q)
    ensures Normalized(c, q) == q
  {
    RootOfOne(c);
  }

  // ---------------------------------------------------------------------------
  // The blend
  // ---------------------------------------------------------------------------

  datatype Sums = Sums(weight: real, q: Quat, p: Vec)

  function Distance2(a: Vec, b: Vec): real {
    (a.x - b.x) * (a.x - b.x) + (a.z - b.z) * (a.z - b.z)
  }

  function Exponent(distance2: real, falloff: real): real {
    -distance2 * falloff
  }

  function Weight(c: Curves, falloff: real, query: Vec, position: Vec): real {
    c.kernel(Exponent(Distance2(query, position), falloff))
  }

  lemma WeightPositive(c: Curves, falloff: real, query: Vec, position: Vec)
    requires c.Lawful()
    ensures Weight(c, falloff, query, position) > 0.0
  {
    hide Distance2;
  }

  /** Of the two quaternions of a rotation, the one whose scalar part is not negative. */
  function ShortWay(q: Quat): Quat {
    if q.w < 0.0 then Times(q, -1.0) else q
  }

  function Floor(query: Vec): Sums {
    Sums(FloorWeight, Times(Identity, FloorWeight), Scale(query, FloorWeight))
  }

  function Weighed(before: Sums, w: real, rotation: Quat, sent: Vec): Sums {
    Sums(before.weight + w, Sum(before.q, Times(ShortWay(rotation), w)), Add(before.p, Scale(sent, w)))
  }

  function Step(c: Curves, falloff: real, query: Vec, before: Sums, last: LocalDelta): Sums {
    Weighed(before, Weight(c, falloff, query, last.position), last.delta.rotation, Act(last.delta, query))
  }

  /** The weighted sums over the anchors, from the identity floor up. */
  function Gathered(c: Curves, falloff: real, deltas: seq<LocalDelta>, query: Vec): Sums {
    if deltas == [] then Floor(query)
    else Step(c, falloff, query, Gathered(c, falloff, deltas[..|deltas| - 1], query), deltas[|deltas| - 1])
  }

  /** The scalar part never falls below the floor, so the normalization never divides by zero. */
  lemma {:induction false} FloorHolds(c: Curves, falloff: real, deltas: seq<LocalDelta>, query: Vec)
    requires c.Lawful()
    ensures var g := Gathered(c, falloff, deltas, query);
            g.weight >= FloorWeight && g.q.w >= FloorWeight && Norm2(g.q) > 0.0
    decreases |deltas|
  {
    if deltas != [] {
      FloorHolds(c, falloff, deltas[..|deltas| - 1], query);
      var last := deltas[|deltas| - 1];
      WeightPositive(c, falloff, query, last.position);
      WeighedHolds(Gathered(c, falloff, deltas[..|deltas| - 1], query), Weight(c, falloff, query, last.position),
                   last.delta.rotation, Act(last.delta, query));
    }
    NormAboveZero(Gathered(c, falloff, deltas, query).q);
    hide Weighed, Weight, Norm2, Act;
  }

  lemma WeighedHolds(g: Sums, w: real, rotation: Quat, sent: Vec)
    requires w > 0.0
    ensures Weighed(g, w, rotation, sent).weight >= g.weight && Weighed(g, w, rotation, sent).q.w >= g.q.w
  {
    hide Norm2;
    assert Times(ShortWay(rotation), w).w >= 0.0;
  }

  lemma NormAboveZero(q: Quat)
    requires q.w > 0.0
    ensures Norm2(q) > 0.0
  {
    var w, x, y, z := q.w * q.w, q.x * q.x, q.y * q.y, q.z * q.z;
    PositiveTimes(q.w, q.w, w);
    SquareNotNegative(q.x, x);
    SquareNotNegative(q.y, y);
    SquareNotNegative(q.z, z);
    assert Norm2(q) == w + x + y + z;
  }

  lemma PositiveTimes(a: real, b: real, product: real)
    requires a > 0.0 && b > 0.0 && product == a * b
    ensures product > 0.0
  {
  }

  lemma SquareNotNegative(a: real, square: real)
    requires square == a * a
    ensures square >= 0.0
  {
  }

  function Blend(c: Curves, falloff: real, deltas: seq<LocalDelta>, query: Vec): (blend: Rigid)
    requires c.Lawful()
    ensures Unit(blend.rotation)
  {
    FloorHolds(c, falloff, deltas, query);
    var g := Gathered(c, falloff, deltas, query);
    var rotation := Normalized(c, g.q);
    Rigid(rotation, Minus(Scale(g.p, 1.0 / g.weight), RotateVector(rotation, query)))
  }

  /** The blend sends the query to the weighted mean of where the deltas send it. */
  lemma BlendReachesTheMean(c: Curves, falloff: real, deltas: seq<LocalDelta>, query: Vec)
    requires c.Lawful()
    ensures Gathered(c, falloff, deltas, query).weight > 0.0
    ensures var g := Gathered(c, falloff, deltas, query);
            Act(Blend(c, falloff, deltas, query), query) == Scale(g.p, 1.0 / g.weight)
  {
    FloorHolds(c, falloff, deltas, query);
    hide RotateVector;
  }

  lemma NoAnchorsIsStill(c: Curves, falloff: real, query: Vec)
    requires c.Lawful()
    ensures Blend(c, falloff, [], query) == Still
  {
    hide RotateVector, Normalized, Scale, Times;
    FloorHolds(c, falloff, [], query);
    NormalizedScaled(c, Identity, FloorWeight);
    RotateIdentity(query);
    ScaleBack(query, FloorWeight);
  }

  lemma ScaleBack(v: Vec, s: real)
    requires s > 0.0
    ensures Scale(Scale(v, s), 1.0 / s) == v
  {
    CancelScalar(v.x, s);
    CancelScalar(v.y, s);
    CancelScalar(v.z, s);
  }

  lemma CancelScalar(a: real, s: real)
    requires s > 0.0
    ensures (a * s) * (1.0 / s) == a
  {
  }

  lemma NormalizedScaled(c: Curves, u: Quat, s: real)
    requires c.Lawful() && Unit(u) && s > 0.0
    ensures Norm2(Times(u, s)) > 0.0 && Normalized(c, Times(u, s)) == u
  {
    UnitTimes(u, s);
    RootOfSquare(c, s);
    TimesBack(u, s);
    hide Norm2, Times;
  }

  lemma UnitTimes(u: Quat, s: real)
    requires Unit(u) && s > 0.0
    ensures Norm2(Times(u, s)) == s * s && s * s > 0.0
  {
    NormTimes(u, s);
    hide Norm2, Times;
  }

  lemma TimesBack(u: Quat, s: real)
    requires s > 0.0
    ensures Times(Times(u, s), 1.0 / s) == u
  {
    CancelScalar(u.w, s);
    CancelScalar(u.x, s);
    CancelScalar(u.y, s);
    CancelScalar(u.z, s);
  }

  function Along(n: Vec, v: Vec): real { n.x * v.x + n.y * v.y + n.z * v.z }

  lemma AlongLinear(n: Vec, a: Vec, b: Vec, s: real)
    ensures Along(n, Add(a, b)) == Along(n, a) + Along(n, b)
    ensures Along(n, Scale(a, s)) == Along(n, a) * s
  {
  }

  lemma ScaledBound(a: real, bound: real, w: real)
    requires a <= bound && w > 0.0
    ensures a * w <= bound * w
  {
  }

  /** The sums lie, weight for weight, on the near side of a plane. */
  predicate Inside(g: Sums, n: Vec, bound: real) {
    Along(n, g.p) <= bound * g.weight
  }

  lemma WeighedStaysInside(before: Sums, w: real, rotation: Quat, sent: Vec, n: Vec, bound: real)
    requires Inside(before, n, bound) && Along(n, sent) <= bound && w > 0.0
    ensures Inside(Weighed(before, w, rotation, sent), n, bound)
  {
    AlongLinear(n, before.p, Scale(sent, w), 0.0);
    AlongLinear(n, sent, sent, w);
    ScaledBound(Along(n, sent), bound, w);
    hide Along, Add, Scale, Times, Sum;
  }

  lemma {:induction false} GatheredStaysInside(c: Curves, falloff: real, deltas: seq<LocalDelta>, query: Vec,
                                               n: Vec, bound: real)
    requires c.Lawful() && Along(n, query) <= bound
    requires forall i :: 0 <= i < |deltas| ==> Along(n, Act(deltas[i].delta, query)) <= bound
    ensures Inside(Gathered(c, falloff, deltas, query), n, bound)
    decreases |deltas|
  {
    hide Act, Along, Weight, Inside, Weighed;
    if deltas == [] {
      FloorIsInside(query, n, bound);
    } else {
      var last := deltas[|deltas| - 1];
      GatheredStaysInside(c, falloff, deltas[..|deltas| - 1], query, n, bound);
      WeightPositive(c, falloff, query, last.position);
      WeighedStaysInside(Gathered(c, falloff, deltas[..|deltas| - 1], query), Weight(c, falloff, query, last.position),
                         last.delta.rotation, Act(last.delta, query), n, bound);
    }
  }

  lemma FloorIsInside(query: Vec, n: Vec, bound: real)
    requires Along(n, query) <= bound
    ensures Inside(Floor(query), n, bound)
  {
    AlongLinear(n, query, query, FloorWeight);
    hide Along, Scale;
  }

  /**
   The correction is never larger than the anchors ask for: on every side, the blended position
   lies no further out than the uncorrected position or the farthest single delta's.
   */
  lemma BlendStaysInTheHull(c: Curves, falloff: real, deltas: seq<LocalDelta>, query: Vec, n: Vec, bound: real)
    requires c.Lawful() && Along(n, query) <= bound
    requires forall i :: 0 <= i < |deltas| ==> Along(n, Act(deltas[i].delta, query)) <= bound
    ensures Along(n, Act(Blend(c, falloff, deltas, query), query)) <= bound
  {
    hide Act, Along, Blend, Gathered, Scale;
    BlendReachesTheMean(c, falloff, deltas, query);
    GatheredStaysInside(c, falloff, deltas, query, n, bound);
    var g := Gathered(c, falloff, deltas, query);
    AlongLinear(n, g.p, g.p, 1.0 / g.weight);
    ScaledBound(Along(n, g.p), bound * g.weight, 1.0 / g.weight);
    CancelScalar(bound, g.weight);
  }

  // ---------------------------------------------------------------------------
  // The driver's loop
  // ---------------------------------------------------------------------------

  function Falloff(sigma: real): real
    requires sigma > 0.0
  {
    1.0 / (2.0 * sigma * sigma)
  }

  lemma DivideIsTimes(a: real, n: real)
    requires n > 0.0
    ensures a / n == a * (1.0 / n)
  {
  }

  lemma NormalizedComponents(c: Curves, q: Quat)
    requires c.Lawful() && Norm2(q) > 0.0
    ensures c.root(Norm2(q)) > 0.0
    ensures var n := c.root(Norm2(q)); Normalized(c, q) == Quat(q.w / n, q.x / n, q.y / n, q.z / n)
  {
    var n := c.root(Norm2(q));
    RootPositive(c, Norm2(q));
    DivideIsTimes(q.w, n);
    DivideIsTimes(q.x, n);
    DivideIsTimes(q.y, n);
    DivideIsTimes(q.z, n);
    hide Norm2;
  }

  lemma WeighedComponents(g: Sums, w: real, sign: real, r: Quat, sent: Vec)
    requires sign == if r.w < 0.0 then -1.0 else 1.0
    ensures Weighed(g, w, r, sent) ==
            Sums(g.weight + w,
                 Quat(g.q.w + sign * w * r.w, g.q.x + sign * w * r.x, g.q.y + sign * w * r.y, g.q.z + sign * w * r.z),
                 Vec(g.p.x + w * sent.x, g.p.y + w * sent.y, g.p.z + w * sent.z))
  {
    ShortWayIs(r, sign);
    hide ShortWay;
    var v := Weighed(g, w, r, sent);
    assert v.q == Sum(g.q, Times(Times(r, sign), w));
    TimesEither(r.w, sign, w);
    TimesEither(r.x, sign, w);
    TimesEither(r.y, sign, w);
    TimesEither(r.z, sign, w);
    assert v.q.w == g.q.w + sign * w * r.w && v.q.x == g.q.x + sign * w * r.x;
    assert v.q.y == g.q.y + sign * w * r.y && v.q.z == g.q.z + sign * w * r.z;
  }

  lemma ShortWayIs(r: Quat, sign: real)
    requires sign == if r.w < 0.0 then -1.0 else 1.0
    ensures ShortWay(r) == Times(r, sign)
  {
  }

  lemma TimesEither(a: real, sign: real, w: real)
    ensures (a * sign) * w == sign * w * a
  {
  }

  lemma MeanComponents(p: Vec, weight: real)
    requires weight > 0.0
    ensures Scale(p, 1.0 / weight) == Vec(p.x / weight, p.y / weight, p.z / weight)
  {
    DivideIsTimes(p.x, weight);
    DivideIsTimes(p.y, weight);
    DivideIsTimes(p.z, weight);
  }

  method BlendAt(c: Curves, sigma: real, anchors: seq<LocalDelta>, basePos: Vec) returns (rotOut: Quat, transOut: Vec)
    requires c.Lawful() && sigma > 0.0
    ensures Rigid(rotOut, transOut) == Blend(c, Falloff(sigma), anchors, basePos)
  {
    hide Weighed, RotateVector, Exponent, Norm2, Normalized, Scale, Floor, Act;
    var wSum := FloorWeight;
    var q := Quat(FloorWeight, 0.0, 0.0, 0.0);
    var p := Vec(FloorWeight * basePos.x, FloorWeight * basePos.y, FloorWeight * basePos.z);
    var falloff := 1.0 / (2.0 * sigma * sigma);
    FloorComponents(basePos);
    for i := 0 to |anchors|
      invariant Sums(wSum, q, p) == Gathered(c, falloff, anchors[..i], basePos)
    {
      assert anchors[..i + 1][..i] == anchors[..i];
      wSum, q, p := Accumulate(c, falloff, basePos, wSum, q, p, anchors[i]);
    }
    assert anchors[..|anchors|] == anchors;
    FloorHolds(c, falloff, anchors, basePos);
    NormalizedComponents(c, q);
    MeanComponents(p, wSum);
    var norm := c.root(Norm2(q));
    rotOut := Quat(q.w / norm, q.x / norm, q.y / norm, q.z / norm);
    var turned := RotateVector(rotOut, basePos);
    transOut := Minus(Vec(p.x / wSum, p.y / wSum, p.z / wSum), turned);
  }

  /** One anchor's turn in the sums. */
  method Accumulate(c: Curves, falloff: real, basePos: Vec, wSum: real, q: Quat, p: Vec, a: LocalDelta)
    returns (wSum': real, q': Quat, p': Vec)
    ensures Sums(wSum', q', p') == Step(c, falloff, basePos, Sums(wSum, q, p), a)
  {
    hide Weighed, RotateVector, Exponent;
    var dx := basePos.x - a.position.x;
    var dz := basePos.z - a.position.z;
    var distance2 := dx * dx + dz * dz;
    assert distance2 == Distance2(basePos, a.position);
    var w := c.kernel(Exponent(distance2, falloff));
    var r := a.delta.rotation;
    // The sign that `ShortWay` takes.
    var sign := if r.w < 0.0 then -1.0 else 1.0;
    var sent := Add(RotateVector(r, basePos), a.delta.translation);
    WeighedComponents(Sums(wSum, q, p), w, sign, r, sent);
    q' := Quat(q.w + sign * w * r.w, q.x + sign * w * r.x, q.y + sign * w * r.y, q.z + sign * w * r.z);
    p' := Vec(p.x + w * sent.x, p.y + w * sent.y, p.z + w * sent.z);
    wSum' := wSum + w;
  }

  lemma FloorComponents(query: Vec)
    ensures Floor(query) == Sums(FloorWeight, Quat(FloorWeight, 0.0, 0.0, 0.0),
                                 Vec(FloorWeight * query.x, FloorWeight * query.y, FloorWeight * query.z))
  {
  }
}
