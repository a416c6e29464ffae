/**
 The driver's pose pipeline: cancel the device's frame motion, scale, slew or snap the base
 calibration, blend the field at the calibrated position, and apply the composed transform to the
 pose in place.
 */
module RuntimePose {
  import opened Rotations
  import opened AlignmentField
  import FieldMath

  // ---------------------------------------------------------------------------
  // Poses
  // ---------------------------------------------------------------------------

  datatype Pose = Pose(worldFromDriver: Rigid, position: Vec, velocity: Vec, acceleration: Vec, timeOffset: real,
                       valid: bool, connected: bool, running: bool)

  function World(p: Pose): Vec { Act(p.worldFromDriver, p.position) }

  function WorldVelocity(p: Pose): Vec { RotateVector(p.worldFromDriver.rotation, p.velocity) }

  function WorldAcceleration(p: Pose): Vec { RotateVector(p.worldFromDriver.rotation, p.acceleration) }

  function Applied(p: Pose, g: Rigid, scale: real, timeOffset: real): Pose {
    p.(worldFromDriver := Rigid(Multiply(g.rotation, p.worldFromDriver.rotation),
                                Add(RotateVector(g.rotation, Scale(p.worldFromDriver.translation, scale)), g.translation)),
    position := Scale(p.position, scale), velocity := Scale(p.velocity, scale),
    acceleration := Scale(p.acceleration, scale), timeOffset := p.timeOffset + timeOffset)
  }

  /** The exact solver model: position, velocity and acceleration in the world follow it together. */
  lemma AppliedMovesWorld(p: Pose, g: Rigid, scale: real, timeOffset: real)
    ensures var after := Applied(p, g, scale, timeOffset);
            && World(after) == Act(g, Scale(World(p), scale))
            && WorldVelocity(after) == RotateVector(g.rotation, Scale(WorldVelocity(p), scale))
            && WorldAcceleration(after) == RotateVector(g.rotation, Scale(WorldAcceleration(p), scale))
  {
    var w := p.worldFromDriver;
    var at := RotateVector(w.rotation, p.position);
    RotateMultiply(g.rotation, w.rotation, Scale(p.position, scale));
    RotateMultiply(g.rotation, w.rotation, Scale(p.velocity, scale));
    RotateMultiply(g.rotation, w.rotation, Scale(p.acceleration, scale));
    RotateScale(w.rotation, p.position, scale);
    RotateScale(w.rotation, p.velocity, scale);
    RotateScale(w.rotation, p.acceleration, scale);
    ScaleAdd(at, w.translation, scale);
    RotateAdd(g.rotation, Scale(at, scale), Scale(w.translation, scale));
    hide RotateVector, Multiply, Scale;
  }

  // ---------------------------------------------------------------------------
  // Slewing
  // ---------------------------------------------------------------------------

  datatype Limits = Limits(maxTranslationPerSec: real, maxRotationPerSec: real, maxGapSeconds: real)

  const FieldSlewLimits := Limits(0.25, 1.0, 0.25)
  const BaseSlewLimits := Limits(0.01, 0.00873, 0.25)

  datatype Slew = Slew(hasCurrent: bool, generation: nat, lastTime: real, current: Rigid)

  predicate Snaps(s: Slew, now: real, limits: Limits, generation: nat) {
    var dt := now - s.lastTime;
    !s.hasCurrent || s.generation != generation || dt <= 0.0 || dt > limits.maxGapSeconds
  }

  /** The trigonometry and its roots, by what they promise. */
  datatype Trig = Trig(curves: Curves, acos: real -> real)
  {
    ghost predicate Lawful() {
      curves.Lawful()
    }

    /** An arc is at least as long as its chord. */
    ghost predicate ArcsExceedChords() {
      forall c: real :: 0.0 <= c <= 1.0 ==> acos(c) >= 0.0 && acos(c) * acos(c) >= 2.0 * (1.0 - c)
    }
  }

  function Length(t: Trig, v: Vec): real { t.curves.root(Length2(v)) }

  function Least(a: real, b: real): real { if b < a then b else a }

  function Agreement(a: Quat, b: Quat): real {
    if Dot(a, b) < 0.0 then -Dot(a, b) else Dot(a, b)
  }

  predicate Positive(limits: Limits) {
    limits.maxTranslationPerSec > 0.0 && limits.maxRotationPerSec > 0.0
  }

  function Product(a: real, b: real): real { a * b }

  /** How much of `whole` fits in `limit`. */
  function Fraction(limit: real, whole: real): (f: real)
    requires limit > 0.0
    ensures 0.0 < f <= 1.0 && Product(f, whole) <= limit
  {
    if whole > limit then Quotient(limit, whole); limit / whole else 1.0
  }

  /** The share of the way to the target this step may cover. */
  function Share(t: Trig, s: Slew, target: Rigid, position: Vec, now: real, limits: Limits): real
    requires Positive(limits) && now > s.lastTime
  {
    var dt := now - s.lastTime;
    ReachIsPositive(limits, dt);
    var f := Fraction(Product(limits.maxTranslationPerSec, dt),
                      Length(t, Minus(Act(target, position), Act(s.current, position))));
    var angle := 2.0 * t.acos(Least(Agreement(s.current.rotation, target.rotation), 1.0));
    Least(f, Fraction(Product(limits.maxRotationPerSec, dt), angle))
  }

  lemma ReachIsPositive(limits: Limits, dt: real)
    requires Positive(limits) && dt > 0.0
    ensures Product(limits.maxTranslationPerSec, dt) > 0.0 && Product(limits.maxRotationPerSec, dt) > 0.0
  {
  }

  lemma ShareIsLimited(t: Trig, s: Slew, target: Rigid, position: Vec, now: real, limits: Limits)
    requires t.Lawful() && Positive(limits) && now > s.lastTime
    ensures var f := Share(t, s, target, position, now, limits);
            var len := Length(t, Minus(Act(target, position), Act(s.current, position)));
            0.0 <= f <= 1.0 && Product(f, len) <= Product(limits.maxTranslationPerSec, now - s.lastTime)
  {
    var dt := now - s.lastTime;
    var len := Length(t, Minus(Act(target, position), Act(s.current, position)));
    LengthIsRoot(t, Minus(Act(target, position), Act(s.current, position)));
    ReachIsPositive(limits, dt);
    hide Act, Minus, Length, Agreement, Product, Fraction;
    var stepShare := Fraction(Product(limits.maxTranslationPerSec, dt), len);
    assert Product(stepShare, len) <= Product(limits.maxTranslationPerSec, dt);
    ShrinkLess(Share(t, s, target, position, now, limits), stepShare, len);
  }

  lemma LengthIsRoot(t: Trig, v: Vec)
    requires t.Lawful()
    ensures Length(t, v) >= 0.0 && Length(t, v) * Length(t, v) == Length2(v)
  {
    assert Length2(v) >= 0.0;
  }

  lemma Quotient(a: real, b: real)
    requires 0.0 < a < b
    ensures 0.0 < a / b < 1.0 && (a / b) * b == a
  {
    var q := a / b;
    assert q * b == a && q > 0.0;
    if q >= 1.0 {
      ShrinkLess(1.0, q, b);
    }
  }

  lemma ShrinkLess(f: real, g: real, len: real)
    requires f <= g && len >= 0.0
    ensures Product(f, len) <= Product(g, len)
  {
  }

  function Between(a: Quat, b: Quat, f: real): Quat {
    Sum(Times(a, 1.0 - f), Times(b, if Dot(a, b) < 0.0 then -f else f))
  }

  lemma BetweenIsNotZero(a: Quat, b: Quat, f: real)
    requires Unit(a) && Unit(b) && 0.0 <= f <= 1.0
    ensures Norm2(Between(a, b, f)) > 0.0
  {
    var t := if Dot(a, b) < 0.0 then -f else f;
    BetweenNorm(a, b, 1.0 - f, t);
    SquareSumPositive(f, t, Dot(a, b), Norm2(a), Norm2(b));
    hide Dot, Sum, Times;
  }

  lemma SquareSumPositive(f: real, t: real, dot: real, na: real, nb: real)
    requires 0.0 <= f <= 1.0 && t == (if dot < 0.0 then -f else f) && na == 1.0 && nb == 1.0
    ensures (1.0 - f) * (1.0 - f) * na + t * t * nb + 2.0 * ((1.0 - f) * t * dot) > 0.0
  {
    var e, c := 1.0 - f, if dot < 0.0 then -dot else dot;
    assert t * dot == f * c;
    assert e * (f * c) >= 0.0;
    assert e * t * dot == e * (f * c);
    assert t * t == f * f;
    if f == 0.0 {
      assert e * e == 1.0;
    } else {
      assert f * f > 0.0 && e * e >= 0.0;
    }
  }

  lemma BetweenNorm(a: Quat, b: Quat, s: real, t: real)
    ensures Norm2(Sum(Times(a, s), Times(b, t))) == s * s * Norm2(a) + t * t * Norm2(b) + 2.0 * (s * t * Dot(a, b))
  {
    var q := Sum(Times(a, s), Times(b, t));
    BlendedSquares(a.w, a.x, a.y, a.z, b.w, b.x, b.y, b.z, s, t, Norm2(a), Norm2(b), Dot(a, b), q.w, q.x, q.y, q.z);
    hide Sum, Times;
  }

  lemma BlendedSquares(aw: real, ax: real, ay: real, az: real, bw: real, bx: real, b2: real, bz: real,
                       s: real, t: real, na: real, nb: real, dot: real, qw: real, qx: real, qy: real, qz: real)
    requires na == aw * aw + ax * ax + ay * ay + az * az && nb == bw * bw + bx * bx + b2 * b2 + bz * bz
    requires dot == aw * bw + ax * bx + ay * b2 + az * bz
    requires qw == aw * s + bw * t && qx == ax * s + bx * t && qy == ay * s + b2 * t && qz == az * s + bz * t
    ensures qw * qw + qx * qx + qy * qy + qz * qz == s * s * na + t * t * nb + 2.0 * (s * t * dot)
  {
  }

  function Slewed(t: Trig, s: Slew, target: Rigid, position: Vec, now: real, limits: Limits, generation: nat): Slew
    requires t.Lawful() && Positive(limits) && Unit(s.current.rotation) && Unit(target.rotation)
  {
    if Snaps(s, now, limits, generation) then Slew(true, generation, now, target)
    else
      ShareIsLimited(t, s, target, position, now, limits);
      var f := Share(t, s, target, position, now, limits);
      BetweenIsNotZero(s.current.rotation, target.rotation, f);
      var rotation := Normalized(t.curves, Between(s.current.rotation, target.rotation, f));
      var from := Act(s.current, position);
      var reached := Add(from, Scale(Minus(Act(target, position), from), f));
      Slew(true, generation, now, Rigid(rotation, Minus(reached, RotateVector(rotation, position))))
  }

  /** The device under the slew moves straight towards its target, within the speed limit and never past it. */
  lemma SlewLimitsTheDevice(t: Trig, s: Slew, target: Rigid, position: Vec, now: real, limits: Limits, generation: nat)
    requires t.Lawful() && Positive(limits) && Unit(s.current.rotation) && Unit(target.rotation)
    ensures var after := Slewed(t, s, target, position, now, limits, generation);
            && Unit(after.current.rotation)
            && (Snaps(s, now, limits, generation) ==> Act(after.current, position) == Act(target, position))
    ensures !Snaps(s, now, limits, generation) ==>
              var after := Slewed(t, s, target, position, now, limits, generation);
              var step := Minus(Act(target, position), Act(s.current, position));
              var maxStep := Product(limits.maxTranslationPerSec, now - s.lastTime);
              var f := Share(t, s, target, position, now, limits);
              && 0.0 <= f <= 1.0 && Act(after.current, position) == Add(Act(s.current, position), Scale(step, f))
              && Length2(Scale(step, f)) <= maxStep * maxStep
  {
    if !Snaps(s, now, limits, generation) {
      ShareIsLimited(t, s, target, position, now, limits);
      var f := Share(t, s, target, position, now, limits);
      var from := Act(s.current, position);
      var step := Minus(Act(target, position), from);
      var len := Length(t, step);
      var maxStep := Product(limits.maxTranslationPerSec, now - s.lastTime);
      BetweenIsNotZero(s.current.rotation, target.rotation, f);
      LengthIsRoot(t, step);
      LengthScaled(step, f, len, maxStep);
      hide Product;
      var after := Slewed(t, s, target, position, now, limits, generation);
      PutBack(after.current.rotation, position, Add(from, Scale(step, f)));
      assert Act(after.current, position) == Add(from, Scale(step, f)) by {
        hide Share, Between, Normalized, RotateVector, Length2, Scale;
      }
    }
  }

  /**
   A step that stops short has used up one of its two limits: the device has gone as far as the speed
   allows, or the turn has. One that does not stop short puts the device where the target has it.
   */
  lemma SlewGoesAsFarAsItMay(t: Trig, s: Slew, target: Rigid, position: Vec, now: real, limits: Limits, generation: nat)
    requires t.Lawful() && Positive(limits) && Unit(s.current.rotation) && Unit(target.rotation)
    ensures var after := Slewed(t, s, target, position, now, limits, generation);
            after.hasCurrent && after.generation == generation && after.lastTime == now
    ensures !Snaps(s, now, limits, generation) ==>
              var after := Slewed(t, s, target, position, now, limits, generation);
              var dt := now - s.lastTime;
              var step := Minus(Act(target, position), Act(s.current, position));
              var angle := 2.0 * t.acos(Least(Agreement(s.current.rotation, target.rotation), 1.0));
              var f := Share(t, s, target, position, now, limits);
              || Act(after.current, position) == Act(target, position)
              || Product(f, Length(t, step)) == Product(limits.maxTranslationPerSec, dt)
              || Product(f, angle) == Product(limits.maxRotationPerSec, dt)
  {
    if !Snaps(s, now, limits, generation) {
      var from, to := Act(s.current, position), Act(target, position);
      var dt := now - s.lastTime;
      ReachIsPositive(limits, dt);
      SlewLimitsTheDevice(t, s, target, position, now, limits, generation);
      FractionFits(Product(limits.maxTranslationPerSec, dt), Length(t, Minus(to, from)));
      FractionFits(Product(limits.maxRotationPerSec, dt),
                   2.0 * t.acos(Least(Agreement(s.current.rotation, target.rotation), 1.0)));
      AddMinus(from, to);
      hide Act, Minus, Length, Agreement, Product, Fraction, Slewed, Add, Scale, Snaps;
    }
  }

  lemma FractionFits(limit: real, whole: real)
    requires limit > 0.0
    ensures Fraction(limit, whole) == 1.0 || Product(Fraction(limit, whole), whole) == limit
  {
    if whole > limit {
      Quotient(limit, whole);
    }
  }

  lemma AddMinus(from: Vec, to: Vec)
    ensures Add(from, Scale(Minus(to, from), 1.0)) == to
  {
  }

  // --- how far a step turns ---

  /** Two unit quaternions never agree by more than one. */
  lemma AgreementIsBounded(a: Quat, b: Quat)
    requires Unit(a) && Unit(b)
    ensures 0.0 <= Agreement(a, b) <= 1.0
  {
    var t := if Dot(a, b) < 0.0 then 1.0 else -1.0;
    BetweenNorm(a, b, 1.0, t);
    assert Norm2(Sum(Times(a, 1.0), Times(b, t))) >= 0.0 by { NormNotNegative(Sum(Times(a, 1.0), Times(b, t))); }
    hide Dot, Sum, Times, Norm2;
    assert t * t == 1.0;
  }

  lemma NormNotNegative(q: Quat)
    ensures Norm2(q) >= 0.0
  {
  }

  /** Of the blend at `f` of two orientations that agree by `c`: how it agrees with the first, and its squared norm. */
  function BlendDot(f: real, c: real): real { 1.0 - f + f * c }
  function BlendNorm(f: real, c: real): real { (1.0 - f) * (1.0 - f) + f * f + 2.0 * ((1.0 - f) * f * c) }

  lemma DotBetween(a: Quat, b: Quat, f: real)
    requires Unit(a)
    ensures Dot(a, Between(a, b, f)) == BlendDot(f, Agreement(a, b))
  {
    var t := if Dot(a, b) < 0.0 then -f else f;
    DotSum(a, b, 1.0 - f, t);
    hide Dot, Sum, Times;
    assert t * Dot(a, b) == f * Agreement(a, b);
  }

  lemma DotSum(a: Quat, b: Quat, s: real, t: real)
    ensures Dot(a, Sum(Times(a, s), Times(b, t))) == s * Norm2(a) + t * Dot(a, b)
  {
  }

  lemma NormBetween(a: Quat, b: Quat, f: real)
    requires Unit(a) && Unit(b)
    ensures Norm2(Between(a, b, f)) == BlendNorm(f, Agreement(a, b))
  {
    var t := if Dot(a, b) < 0.0 then -f else f;
    BetweenNorm(a, b, 1.0 - f, t);
    hide Dot, Sum, Times;
    assert t * t == f * f;
    assert (1.0 - f) * t * Dot(a, b) == (1.0 - f) * f * Agreement(a, b);
  }

  lemma DotNormalized(c: Curves, a: Quat, q: Quat) returns (r: real)
    requires c.Lawful() && Norm2(q) > 0.0
    ensures r > 0.0 && Product(r, r) == Norm2(q) && Product(Dot(a, Normalized(c, q)), r) == Dot(a, q)
  {
    RootPositive(c, Norm2(q));
    r := c.root(Norm2(q));
    DotTimes(a, q, 1.0 / r);
    hide Dot, Times;
    assert (1.0 / r) * r == 1.0;
    var d := Dot(a, q);
    assert (d * (1.0 / r)) * r == d * ((1.0 / r) * r);
  }

  lemma DotTimes(a: Quat, q: Quat, s: real)
    ensures Dot(a, Times(q, s)) == Dot(a, q) * s
  {
  }

  /** The blend stays on the near side of the target. */
  lemma NotPastTheTarget(f: real, c: real, d: real, n: real, r: real, x: real)
    requires 0.0 <= f <= 1.0 && 0.0 <= c <= 1.0 && r > 0.0 && Product(r, r) == n && Product(x, r) == d
    requires d == BlendDot(f, c) && n == BlendNorm(f, c)
    ensures x >= c
  {
    NearSideOf(f, c, d, n);
    hide BlendDot, BlendNorm;
    RootAtLeast(x, c, r, d, n);
  }

  lemma NearSideOf(f: real, c: real, d: real, n: real)
    requires 0.0 <= f <= 1.0 && 0.0 <= c <= 1.0 && d == BlendDot(f, c) && n == BlendNorm(f, c)
    ensures d >= 0.0 && d * d >= c * c * n
  {
    var e := 1.0 - f;
    Parts(f, c);
    NearSide(e, f, c);
    FitNotNegative(e, f, c);
  }

  lemma FitNotNegative(e: real, f: real, c: real)
    requires 0.0 <= e && 0.0 <= f && 0.0 <= c <= 1.0
    ensures (1.0 - c * c) * (e * e + 2.0 * (e * f * c)) >= 0.0
  {
    AtLeastZero(e, f);
    AtLeastZero(e * f, c);
    AtLeastZero(e, e);
    AtLeastZero(c, 1.0 - c);
    AtLeastZero(1.0 - c * c, e * e + 2.0 * (e * f * c));
  }

  lemma RootAtLeast(x: real, c: real, r: real, d: real, n: real)
    requires x * r == d && r > 0.0 && r * r == n && d >= 0.0 && c >= 0.0 && d * d >= c * c * n
    ensures x >= c
  {
    var reach := c * r;
    assert c * c * n == reach * reach by { SquareOf(c, r, reach, n); }
    if x < c {
      LessTimes(x, c, r);
      SmallerSquare(d, reach);
    }
  }

  lemma SmallerSquare(x: real, c: real)
    requires 0.0 <= x < c
    ensures x * x < c * c
  {
    AtLeastZero(x, c - x);
    LessTimes(x, c, c);
  }

  lemma Parts(f: real, c: real)
    requires 0.0 <= f <= 1.0 && 0.0 <= c <= 1.0
    ensures (1.0 - f) * f >= 0.0 && (1.0 - f) * f * c >= 0.0 && f * c >= 0.0 && (1.0 - f) * (1.0 - f) >= 0.0 && c * c <= 1.0
  {
    AtLeastZero(1.0 - f, f);
    AtLeastZero((1.0 - f) * f, c);
    AtLeastZero(f, c);
    AtLeastZero(1.0 - f, 1.0 - f);
    AtLeastZero(c, 1.0 - c);
  }

  lemma NearSide(e: real, f: real, c: real)
    requires e == 1.0 - f
    ensures (e + f * c) * (e + f * c) - c * c * (e * e + f * f + 2.0 * (e * f * c))
            == (1.0 - c * c) * (e * e + 2.0 * (e * f * c))
  {
    assert (e + f * c) * (e + f * c) == e * e + 2.0 * (e * f * c) + c * c * (f * f);
    var m := e * e + 2.0 * (e * f * c);
    assert c * c * (m + f * f) == c * c * m + c * c * (f * f);
    assert (1.0 - c * c) * m == m - c * c * m;
  }

  lemma AtLeastZero(a: real, b: real)
    requires a >= 0.0 && b >= 0.0
    ensures a * b >= 0.0
  {
  }

  lemma BelowZero(x: real, r: real)
    requires x < 0.0 && r > 0.0
    ensures x * r < 0.0
  {
  }

  lemma SquareOf(x: real, r: real, d: real, n: real)
    requires x * r == d && r * r == n
    ensures d * d == (x * x) * n
  {
    assert (x * r) * (x * r) == (x * x) * (r * r);
  }

  lemma LessTimes(a: real, b: real, n: real)
    requires a < b && n > 0.0
    ensures a * n < b * n
  {
  }

  /** Of a cosine, the squared sine. */
  function Sine2(cosine: real): real { 1.0 - cosine * cosine }

  /** The squared chord of a cosine's arc, scaled. */
  function Chord2(f: real, cosine: real): real { f * f * (2.0 * (1.0 - cosine)) }

  /** The sine of the angle turned is at most the share of the chord. */
  lemma SineOfTurn(f: real, c: real, d: real, n: real, r: real, x: real)
    requires 0.0 <= f <= 1.0 && 0.0 <= c <= 1.0 && r > 0.0 && Product(r, r) == n && Product(x, r) == d
    requires d == BlendDot(f, c) && n == BlendNorm(f, c)
    ensures Sine2(x) <= Chord2(f, c)
  {
    var g, half := f * f * (2.0 * (1.0 - c)), 0.5 * (1.0 + c);
    SquareOf(x, r, d, n);
    AcrossOf(f, c);
    NormAtLeast(f, c);
    HalfOf(f * f, c);
    AtLeastZero(f, f);
    AtLeastZero(f * f, 2.0 * (1.0 - c));
    var xx, across := x * x, f * f * (1.0 - c * c);
    assert d * d == xx * n && n - d * d == across && across == g * half;
    CrossDivides(1.0 - xx, g, n, half);
  }

  /** `y` of a larger whole is `g` of a smaller one, so it is no more. */
  lemma CrossDivides(y: real, g: real, n: real, half: real)
    requires y * n == g * half && n >= half > 0.0 && g >= 0.0
    ensures y <= g
  {
    AtLeastZero(g, n - half);
    assert g * (n - half) == g * n - g * half;
    if y > g {
      LessTimes(g, y, n);
    }
  }

  lemma AcrossOf(f: real, c: real)
    ensures (1.0 - f) * (1.0 - f) + f * f + 2.0 * ((1.0 - f) * f * c) - (1.0 - f + f * c) * (1.0 - f + f * c)
            == f * f * (1.0 - c * c)
  {
    var e := 1.0 - f;
    assert (e + f * c) * (e + f * c) == e * e + 2.0 * (e * f * c) + f * f * (c * c);
  }

  lemma HalfOf(s: real, c: real)
    ensures s * (1.0 - c * c) == s * (2.0 * (1.0 - c)) * (0.5 * (1.0 + c))
  {
    assert (1.0 - c) * (1.0 + c) == 1.0 - c * c;
    assert s * (2.0 * (1.0 - c)) * (0.5 * (1.0 + c)) == s * ((1.0 - c) * (1.0 + c));
  }

  lemma NormAtLeast(f: real, c: real)
    requires 0.0 <= f <= 1.0 && 0.0 <= c <= 1.0
    ensures (1.0 - f) * (1.0 - f) + f * f + 2.0 * ((1.0 - f) * f * c) >= 0.5 * (1.0 + c)
  {
    var e, h := 1.0 - f, 1.0 - 2.0 * f;
    assert e * e + f * f == 1.0 - 2.0 * (e * f);
    assert h * h == 1.0 - 4.0 * (e * f);
    assert 2.0 * (e * f * c) == 2.0 * (e * f) * c;
    assert 1.0 - 2.0 * (e * f) + 2.0 * (e * f) * c - 0.5 * (1.0 + c) == 0.5 * (h * h) * (1.0 - c) by {
      var p := e * f;
      assert h * h * (1.0 - c) == (1.0 - 4.0 * p) * (1.0 - c);
      assert (1.0 - 4.0 * p) * (1.0 - c) == 1.0 - c - 4.0 * p + 4.0 * p * c;
    }
    AtLeastZero(h * h, 1.0 - c);
  }

  lemma ShareOfTurnIsLimited(t: Trig, s: Slew, target: Rigid, position: Vec, now: real, limits: Limits)
    requires t.Lawful() && t.ArcsExceedChords() && Positive(limits) && now > s.lastTime
    requires Unit(s.current.rotation) && Unit(target.rotation)
    ensures var f := Share(t, s, target, position, now, limits);
            var angle := 2.0 * t.acos(Agreement(s.current.rotation, target.rotation));
            angle >= 0.0 && Product(f, angle) <= Product(limits.maxRotationPerSec, now - s.lastTime)
  {
    var dt := now - s.lastTime;
    AgreementIsBounded(s.current.rotation, target.rotation);
    ReachIsPositive(limits, dt);
    hide Act, Minus, Length, Agreement, Product, Fraction, Unit;
    var angle := 2.0 * t.acos(Agreement(s.current.rotation, target.rotation));
    var turnShare := Fraction(Product(limits.maxRotationPerSec, dt), angle);
    ShrinkLess(Share(t, s, target, position, now, limits), turnShare, angle);
  }

  /**
   A step turns the device towards its target and not past it, and the sine of half the turn is at
   most half the angular limit. Of two orientations `Dot` is the cosine of that half.
   */
  lemma SlewLimitsTheTurn(t: Trig, s: Slew, target: Rigid, position: Vec, now: real, limits: Limits, generation: nat)
    requires t.Lawful() && t.ArcsExceedChords() && Positive(limits)
    requires Unit(s.current.rotation) && Unit(target.rotation) && !Snaps(s, now, limits, generation)
    ensures var half := Dot(s.current.rotation, Slewed(t, s, target, position, now, limits, generation).current.rotation);
            var maxTurn := Product(limits.maxRotationPerSec, now - s.lastTime);
            && half >= Agreement(s.current.rotation, target.rotation)
            && Sine2(half) <= Product(0.5 * maxTurn, 0.5 * maxTurn)
  {
    var a, b := s.current.rotation, target.rotation;
    ShareIsLimited(t, s, target, position, now, limits);
    ShareOfTurnIsLimited(t, s, target, position, now, limits);
    AgreementIsBounded(a, b);
    var f, c := Share(t, s, target, position, now, limits), Agreement(a, b);
    TurnOfBlend(t.curves, a, b, f);
    BetweenIsNotZero(a, b, f);
    var half := Dot(a, Normalized(t.curves, Between(a, b, f)));
    assert half == Dot(a, Slewed(t, s, target, position, now, limits, generation).current.rotation) by {
      hide Dot, Share, Between, Normalized, Agreement, Act, Minus, Unit;
    }
    ChordWithin(f, t.acos(c), c, Product(limits.maxRotationPerSec, now - s.lastTime));
    hide Sine2, Chord2, Product, Dot, Agreement, Slewed, Share, Between, Normalized;
  }

  lemma TurnOfBlend(c: Curves, a: Quat, b: Quat, f: real)
    requires c.Lawful() && Unit(a) && Unit(b) && 0.0 <= f <= 1.0
    ensures Norm2(Between(a, b, f)) > 0.0
    ensures var half := Dot(a, Normalized(c, Between(a, b, f)));
            half >= Agreement(a, b) && Sine2(half) <= Chord2(f, Agreement(a, b))
  {
    var q, agreement := Between(a, b, f), Agreement(a, b);
    AgreementIsBounded(a, b);
    BetweenIsNotZero(a, b, f);
    DotBetween(a, b, f);
    NormBetween(a, b, f);
    var r := DotNormalized(c, a, q);
    var half, d, n := Dot(a, Normalized(c, q)), Dot(a, q), Norm2(q);
    hide Agreement, Dot, Norm2, Between, Normalized, Sine2, Chord2, BlendDot, BlendNorm, Product;
    NotPastTheTarget(f, agreement, d, n, r, half);
    SineOfTurn(f, agreement, d, n, r, half);
  }

  lemma ChordWithin(f: real, arc: real, c: real, maxTurn: real)
    requires 0.0 <= f && 0.0 <= arc && arc * arc >= 2.0 * (1.0 - c) && Product(f, 2.0 * arc) <= maxTurn
    ensures Chord2(f, c) <= Product(0.5 * maxTurn, 0.5 * maxTurn)
  {
    var chord2 := 2.0 * (1.0 - c);
    var reach, half := f * arc, 0.5 * maxTurn;
    assert Product(f, 2.0 * arc) == 2.0 * reach;
    assert f * f * (arc * arc) == reach * reach;
    AtLeastZero(f, f);
    AtLeastZero(f * f, arc * arc - chord2);
    assert f * f * (arc * arc - chord2) == f * f * (arc * arc) - f * f * chord2;
    AtLeastZero(f, arc);
    ShrinkLess(reach, half, reach);
    ShrinkLess(reach, half, half);
  }

  lemma PutBack(rotation: Quat, position: Vec, reached: Vec)
    ensures Act(Rigid(rotation, Minus(reached, RotateVector(rotation, position))), position) == reached
  {
    hide RotateVector;
  }

  lemma LengthScaled(step: Vec, f: real, len: real, limit: real)
    requires len * len == Length2(step) && len >= 0.0 && f >= 0.0 && Product(f, len) <= limit
    ensures Length2(Scale(step, f)) <= limit * limit
  {
    assert Length2(Scale(step, f)) == f * f * Length2(step);
    var reach := f * len;
    assert f * f * (len * len) == reach * reach;
    assert reach >= 0.0;
    ShrinkLess(reach, limit, reach);
    ShrinkLess(reach, limit, limit);
  }

  // ---------------------------------------------------------------------------
  // The pipeline
  // ---------------------------------------------------------------------------

  datatype DeviceTransform = DeviceTransform(enabled: bool, generation: nat, transform: Rigid, scale: real, timeOffset: real)
  datatype Field = Field(enabled: bool, generation: nat, sigma: real, anchors: seq<LocalDelta>)

  const MaxAbsPosePosition: real := 10000.0

  predicate Usable(p: Pose, world: Vec, scale: real) {
    p.valid && (p.connected || p.running) && FieldMath.Bounded(world, scale * MaxAbsPosePosition)
  }

  ghost predicate Ready(t: Trig, cal: DeviceTransform, frame: Rigid, field: Field, base: Slew, local: Slew) {
    && t.Lawful() && Unit(cal.transform.rotation) && Unit(frame.rotation) && field.sigma > 0.0
    && Unit(base.current.rotation) && Unit(local.current.rotation)
  }

  /** The device's own world position with its frame motion cancelled, scaled. */
  function Steadied(raw: Pose, frame: Rigid, scale: real): Vec {
    Scale(Act(frame, World(raw)), scale)
  }

  function NextBase(t: Trig, raw: Pose, cal: DeviceTransform, frame: Rigid, now: real, base: Slew): Slew
    requires t.Lawful() && Unit(base.current.rotation) && Unit(cal.transform.rotation)
  {
    var at := Steadied(raw, frame, cal.scale);
    if Usable(raw, at, cal.scale) then Slewed(t, base, cal.transform, at, now, BaseSlewLimits, cal.generation)
    else if !base.hasCurrent then Slewed(t, base, cal.transform, Origin, now, BaseSlewLimits, cal.generation)
    else base
  }

  function NextLocal(t: Trig, raw: Pose, cal: DeviceTransform, frame: Rigid, field: Field, now: real, base: Rigid,
                     local: Slew): Slew
    requires t.Lawful() && Unit(local.current.rotation) && field.sigma > 0.0
  {
    var at := Steadied(raw, frame, cal.scale);
    if !field.enabled || field.anchors == [] then local.(hasCurrent := false)
    else if Usable(raw, at, cal.scale) then
      var basePos := Act(base, at);
      Slewed(t, local, Blend(t.curves, Falloff(field.sigma), field.anchors, basePos), basePos, now, FieldSlewLimits,
             field.generation)
    else local
  }

  function Layered(base: Slew, local: Slew): Rigid {
    if local.hasCurrent then Compose(local.current, base.current) else base.current
  }

  /** What reaches the world: the base calibration, then the field's correction of it. */
  function LocalLayer(local: Slew): Rigid {
    if local.hasCurrent then local.current else Still
  }

  class DriverPose {
    var worldFromDriver: Rigid
    var position: Vec
    var velocity: Vec
    var acceleration: Vec
    var timeOffset: real
    const valid: bool
    const connected: bool
    const running: bool

    function View(): Pose
      reads this
    {
      Pose(worldFromDriver, position, velocity, acceleration, timeOffset, valid, connected, running)
    }

    method Apply(g: Rigid, scale: real, addedOffset: real)
      modifies this
      ensures View() == Applied(old(View()), g, scale, addedOffset)
    {
      var rotation := Multiply(g.rotation, worldFromDriver.rotation);
      position, velocity, acceleration := Scale(position, scale), Scale(velocity, scale), Scale(acceleration, scale);
      var scaled := Scale(worldFromDriver.translation, scale);
      worldFromDriver := Rigid(rotation, Add(RotateVector(g.rotation, scaled), g.translation));
      timeOffset := timeOffset + addedOffset;
    }
  }

  class EvalState {
    var hasCurrent: bool
    var generation: nat
    var lastTime: real
    var current: Rigid

    function View(): Slew
      reads this
    {
      Slew(hasCurrent, generation, lastTime, current)
    }

    method SlewTowardAt(t: Trig, target: Rigid, position: Vec, now: real, limits: Limits, newGeneration: nat)
      requires t.Lawful() && Positive(limits) && Unit(current.rotation) && Unit(target.rotation)
      modifies this
      ensures View() == Slewed(t, old(View()), target, position, now, limits, newGeneration)
      ensures Unit(current.rotation)
    {
      hide Unit, Act, Share, Between, Normalized, RotateVector;
      ghost var before := View();
      SlewLimitsTheDevice(t, before, target, position, now, limits, newGeneration);
      var snap := Snaps(View(), now, limits, newGeneration);
      if snap {
        current := target;
      } else {
        ShareIsLimited(t, before, target, position, now, limits);
        var f := Share(t, View(), target, position, now, limits);
        var from := Act(current, position);
        var step := Minus(Act(target, position), from);
        BetweenIsNotZero(current.rotation, target.rotation, f);
        var rotation := Normalized(t.curves, Between(current.rotation, target.rotation, f));
        current := Rigid(rotation, Minus(Add(from, Scale(step, f)), RotateVector(rotation, position)));
      }
      hasCurrent, generation, lastTime := true, newGeneration, now;
    }

    method Evaluate(t: Trig, field: Field, basePos: Vec, now: real)
      requires t.Lawful() && Unit(current.rotation) && field.sigma > 0.0
      modifies this
      ensures View() == Slewed(t, old(View()), Blend(t.curves, Falloff(field.sigma), field.anchors, basePos), basePos,
                               now, FieldSlewLimits, field.generation)
      ensures Unit(current.rotation)
    {
      hide Unit, Slewed, Blend;
      var rotation, translation := BlendAt(t.curves, field.sigma, field.anchors, basePos);
      SlewTowardAt(t, Rigid(rotation, translation), basePos, now, FieldSlewLimits, field.generation);
    }
  }

  /** The pose pipeline, on the pose and both smoothing states in place. */
  method ApplyRuntimePose(pose: DriverPose, t: Trig, cal: DeviceTransform, frame: Rigid, field: Field, now: real,
                          base: EvalState, local: EvalState)
    requires base != local && Ready(t, cal, frame, field, base.View(), local.View())
    modifies pose, base, local
    ensures cal.enabled ==>
              && base.View() == NextBase(t, old(pose.View()), cal, frame, now, old(base.View()))
              && local.View() == NextLocal(t, old(pose.View()), cal, frame, field, now, base.current, old(local.View()))
              && pose.View() == Applied(Applied(old(pose.View()), frame, 1.0, 0.0),
                                        Layered(base.View(), local.View()), cal.scale, cal.timeOffset)
    ensures !cal.enabled ==>
              && pose.View() == old(pose.View())
              && base.View() == old(base.View()).(hasCurrent := false)
              && local.View() == old(local.View()).(hasCurrent := false)
    ensures Unit(base.current.rotation) && Unit(local.current.rotation)
  {
    hide Unit, Slewed, Blend, RotateVector, Multiply, Snaps;
    if !cal.enabled {
      // Enabled again, both layers snap instead of slewing from a stale state.
      base.hasCurrent, local.hasCurrent := false, false;
      return;
    }
    ghost var raw := pose.View();
    pose.Apply(frame, 1.0, 0.0);
    var rotated := RotateVector(pose.worldFromDriver.rotation, Scale(pose.position, cal.scale));
    var rawWorld := Add(rotated, Scale(pose.worldFromDriver.translation, cal.scale));
    RawWorldIsSteadied(raw, frame, cal.scale);
    var usable := Usable(pose.View(), rawWorld, cal.scale);
    if usable {
      base.SlewTowardAt(t, cal.transform, rawWorld, now, BaseSlewLimits, cal.generation);
    } else if !base.hasCurrent {
      base.SlewTowardAt(t, cal.transform, Origin, now, BaseSlewLimits, cal.generation);
    }
    // An invalid position must not enter the smoothing state: hold the last transform and clock.
    if !field.enabled || field.anchors == [] {
      local.hasCurrent := false;
    } else if usable {
      var basePos := Add(RotateVector(base.current.rotation, rawWorld), base.current.translation);
      local.Evaluate(t, field, basePos, now);
    }
    var rotation, translation := base.current.rotation, base.current.translation;
    if local.hasCurrent {
      rotation := Multiply(local.current.rotation, base.current.rotation);
      translation := Add(RotateVector(local.current.rotation, base.current.translation), local.current.translation);
    }
    pose.Apply(Rigid(rotation, translation), cal.scale, cal.timeOffset);
  }

  lemma RawWorldIsSteadied(raw: Pose, frame: Rigid, scale: real)
    ensures var p := Applied(raw, frame, 1.0, 0.0);
            Add(RotateVector(p.worldFromDriver.rotation, Scale(p.position, scale)),
                Scale(p.worldFromDriver.translation, scale)) == Steadied(raw, frame, scale)
  {
    var p := Applied(raw, frame, 1.0, 0.0);
    AppliedMovesWorld(raw, frame, 1.0, 0.0);
    ScaleByOne(World(raw));
    RotateScale(p.worldFromDriver.rotation, p.position, scale);
    ScaleAdd(RotateVector(p.worldFromDriver.rotation, p.position), p.worldFromDriver.translation, scale);
    hide RotateVector, Scale, Applied;
  }

  lemma ScaleByOne(v: Vec)
    ensures Scale(v, 1.0) == v
  {
  }

  /** The pose an enabled device is given. */
  function Output(t: Trig, raw: Pose, cal: DeviceTransform, frame: Rigid, field: Field, now: real,
                  base: Slew, local: Slew): Pose
    requires t.Lawful() && Unit(base.current.rotation) && Unit(local.current.rotation)
    requires Unit(cal.transform.rotation) && field.sigma > 0.0
  {
    var nextBase := NextBase(t, raw, cal, frame, now, base);
    var nextLocal := NextLocal(t, raw, cal, frame, field, now, nextBase.current, local);
    Applied(Applied(raw, frame, 1.0, 0.0), Layered(nextBase, nextLocal), cal.scale, cal.timeOffset)
  }

  /** The pipeline is its mathematical composition: field(base(scale * frame(raw))). */
  lemma PipelineIsComposition(t: Trig, raw: Pose, cal: DeviceTransform, frame: Rigid, field: Field, now: real,
                              base: Slew, local: Slew)
    requires t.Lawful() && Unit(base.current.rotation) && Unit(local.current.rotation)
    requires Unit(cal.transform.rotation) && field.sigma > 0.0
    ensures var nextBase := NextBase(t, raw, cal, frame, now, base);
            var nextLocal := NextLocal(t, raw, cal, frame, field, now, nextBase.current, local);
            World(Output(t, raw, cal, frame, field, now, base, local)) ==
            Act(LocalLayer(nextLocal), Act(nextBase.current, Scale(Act(frame, World(raw)), cal.scale)))
  {
    var nextBase := NextBase(t, raw, cal, frame, now, base);
    var nextLocal := NextLocal(t, raw, cal, frame, field, now, nextBase.current, local);
    hide NextBase, NextLocal, Applied, Act, Compose, World, Unit, Scale;
    AppliedMovesWorld(raw, frame, 1.0, 0.0);
    AppliedMovesWorld(Applied(raw, frame, 1.0, 0.0), Layered(nextBase, nextLocal), cal.scale, cal.timeOffset);
    ScaleByOne(World(raw));
    var at := Scale(Act(frame, World(raw)), cal.scale);
    ComposeActs(nextLocal.current, nextBase.current, at);
    StillActs(Act(nextBase.current, at));
  }

  /**
   When both layers have just snapped, the device lands exactly where the overlay's blend over its
   absolute anchors expects it.
   */
  lemma SnappedAgreesWithOverlay(t: Trig, raw: Pose, cal: DeviceTransform, frame: Rigid, field: Field,
                                 anchors: seq<Anchor>, now: real, base: Slew, local: Slew)
    requires t.Lawful() && Unit(base.current.rotation) && Unit(local.current.rotation)
    requires Unit(cal.transform.rotation) && field.sigma > 0.0 && field.enabled
    requires anchors != [] && FieldMath.UnitAnchors(anchors)
    requires field.anchors == FieldMath.DeltasOf(t.curves, anchors, cal.transform)
    requires Usable(raw, Steadied(raw, frame, cal.scale), cal.scale)
    requires Snaps(base, now, BaseSlewLimits, cal.generation) && Snaps(local, now, FieldSlewLimits, field.generation)
    ensures var at := Steadied(raw, frame, cal.scale);
            var query := Act(cal.transform, at);
            World(Output(t, raw, cal, frame, field, now, base, local)) ==
            Act(FieldMath.Expected(t.curves, Falloff(field.sigma), anchors, cal.transform, query), at)
  {
    var at := Steadied(raw, frame, cal.scale);
    var query := Act(cal.transform, at);
    PipelineIsComposition(t, raw, cal, frame, field, now, base, local);
    FieldMath.ExpectedIsComposition(t.curves, Falloff(field.sigma), anchors, cal.transform, query);
    ComposeActs(Blend(t.curves, Falloff(field.sigma), field.anchors, query), cal.transform, at);
    hide Act, Compose, Unit, World, Output, Blend, Snaps, FieldMath.Expected;
  }

  /** A pose that cannot be used leaves what has been smoothed so far, clock included, alone. */
  lemma UnusablePoseHolds(t: Trig, raw: Pose, cal: DeviceTransform, frame: Rigid, field: Field, now: real,
                          base: Slew, local: Slew)
    requires t.Lawful() && Unit(base.current.rotation) && Unit(local.current.rotation)
    requires Unit(cal.transform.rotation) && field.sigma > 0.0 && field.enabled && field.anchors != []
    requires base.hasCurrent && !Usable(raw, Steadied(raw, frame, cal.scale), cal.scale)
    ensures NextBase(t, raw, cal, frame, now, base) == base
    ensures NextLocal(t, raw, cal, frame, field, now, base.current, local) == local
    ensures World(Output(t, raw, cal, frame, field, now, base, local)) ==
            Act(LocalLayer(local), Act(base.current, Steadied(raw, frame, cal.scale)))
  {
    PipelineIsComposition(t, raw, cal, frame, field, now, base, local);
    hide Act, Unit, World, Output, Slewed, Blend;
  }
}
