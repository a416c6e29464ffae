/**
 Quaternion and rigid-transform algebra over exact reals. Products are proved associative and
 rotation multiplicative and linear once, from the components; everything above reasons with
 those equations and never opens a component again.
 */
module Rotations {

  datatype Vec = Vec(x: real, y: real, z: real)
  datatype Quat = Quat(w: real, x: real, y: real, z: real)

  const Origin := Vec(0.0, 0.0, 0.0)
  const Identity := Quat(1.0, 0.0, 0.0, 0.0)

  function Add(a: Vec, b: Vec): Vec { Vec(a.x + b.x, a.y + b.y, a.z + b.z) }
  function Minus(a: Vec, b: Vec): Vec { Vec(a.x - b.x, a.y - b.y, a.z - b.z) }
  function Scale(a: Vec, s: real): Vec { Vec(a.x * s, a.y * s, a.z * s) }
  function Length2(a: Vec): real { a.x * a.x + a.y * a.y + a.z * a.z }

  function Sum(a: Quat, b: Quat): Quat { Quat(a.w + b.w, a.x + b.x, a.y + b.y, a.z + b.z) }
  function Times(a: Quat, s: real): Quat { Quat(a.w * s, a.x * s, a.y * s, a.z * s) }
  function Dot(a: Quat, b: Quat): real { a.w * b.w + a.x * b.x + a.y * b.y + a.z * b.z }
  function Norm2(a: Quat): real { Dot(a, a) }
  function Conjugate(a: Quat): Quat { Quat(a.w, -a.x, -a.y, -a.z) }

  function Multiply(lhs: Quat, rhs: Quat): Quat {
    Quat(
      lhs.w * rhs.w - lhs.x * rhs.x - lhs.y * rhs.y - lhs.z * rhs.z,
      lhs.w * rhs.x + lhs.x * rhs.w + lhs.y * rhs.z - lhs.z * rhs.y,
      lhs.w * rhs.y + lhs.y * rhs.w + lhs.z * rhs.x - lhs.x * rhs.z,
      lhs.w * rhs.z + lhs.z * rhs.w + lhs.x * rhs.y - lhs.y * rhs.x)
  }

  function Pure(v: Vec): Quat { Quat(0.0, v.x, v.y, v.z) }
  function VectorPart(q: Quat): Vec { Vec(q.x, q.y, q.z) }

  function RotateVector(q: Quat, v: Vec): Vec {
    VectorPart(Multiply(Multiply(q, Pure(v)), Conjugate(q)))
  }

  predicate Unit(q: Quat) { Norm2(q) == 1.0 }

  /** A rotation about the vertical axis. */
  predicate Yaw(q: Quat) { Unit(q) && q.x == 0.0 && q.z == 0.0 }

  // --- products ---

  lemma Components(a: Quat, b: Quat)
    ensures var m := Multiply(a, b);
            && m.w == a.w * b.w - a.x * b.x - a.y * b.y - a.z * b.z
            && m.x == a.w * b.x + a.x * b.w + a.y * b.z - a.z * b.y
            && m.y == a.w * b.y + a.y * b.w + a.z * b.x - a.x * b.z
            && m.z == a.w * b.z + a.z * b.w + a.x * b.y - a.y * b.x
  {
  }

  /** The same product with the axes turned around, so one component speaks for three. */
  function Turn(q: Quat): Quat { Quat(q.w, q.y, q.z, q.x) }

  lemma TurnMultiply(a: Quat, b: Quat)
    ensures Multiply(Turn(a), Turn(b)) == Turn(Multiply(a, b))
  {
    hide Multiply;
    Components(a, b);
    Components(Turn(a), Turn(b));
  }

  lemma AssociativeScalar(mw: real, mx: real, my: real, mz: real, nw: real, nx: real, ny: real, nz: real,
                          aw: real, ax: real, ay: real, az: real, bw: real, bx: real, b2: real, bz: real,
                          cw: real, cx: real, cy: real, cz: real)
    requires mw == aw * bw - ax * bx - ay * b2 - az * bz && mx == aw * bx + ax * bw + ay * bz - az * b2
    requires my == aw * b2 + ay * bw + az * bx - ax * bz && mz == aw * bz + az * bw + ax * b2 - ay * bx
    requires nw == bw * cw - bx * cx - b2 * cy - bz * cz && nx == bw * cx + bx * cw + b2 * cz - bz * cy
    requires ny == bw * cy + b2 * cw + bz * cx - bx * cz && nz == bw * cz + bz * cw + bx * cy - b2 * cx
    ensures mw * cw - mx * cx - my * cy - mz * cz == aw * nw - ax * nx - ay * ny - az * nz
    ensures mw * cx + mx * cw + my * cz - mz * cy == aw * nx + ax * nw + ay * nz - az * ny
  {
  }

  lemma AssociativeWX(a: Quat, b: Quat, c: Quat)
    ensures Multiply(Multiply(a, b), c).w == Multiply(a, Multiply(b, c)).w
    ensures Multiply(Multiply(a, b), c).x == Multiply(a, Multiply(b, c)).x
  {
    hide Multiply;
    var m, n := Multiply(a, b), Multiply(b, c);
    Components(a, b);
    Components(b, c);
    Components(m, c);
    Components(a, n);
    AssociativeScalar(m.w, m.x, m.y, m.z, n.w, n.x, n.y, n.z, a.w, a.x, a.y, a.z, b.w, b.x, b.y, b.z, c.w, c.x, c.y, c.z);
  }

  lemma MultiplyAssociative(a: Quat, b: Quat, c: Quat)
    ensures Multiply(Multiply(a, b), c) == Multiply(a, Multiply(b, c))
  {
    hide Multiply;
    var a1, b1, c1 := Turn(a), Turn(b), Turn(c);
    AssociativeWX(a, b, c);
    AssociativeWX(a1, b1, c1);
    AssociativeWX(Turn(a1), Turn(b1), Turn(c1));
    TurnAssociation(a, b, c);
    TurnAssociation(a1, b1, c1);
  }

  lemma TurnAssociation(a: Quat, b: Quat, c: Quat)
    ensures Multiply(Multiply(Turn(a), Turn(b)), Turn(c)) == Turn(Multiply(Multiply(a, b), c))
    ensures Multiply(Turn(a), Multiply(Turn(b), Turn(c))) == Turn(Multiply(a, Multiply(b, c)))
  {
    hide Multiply, Turn;
    TurnMultiply(a, b);
    TurnMultiply(b, c);
    TurnMultiply(Multiply(a, b), c);
    TurnMultiply(a, Multiply(b, c));
  }

  lemma MultiplySum(a: Quat, b: Quat, c: Quat)
    ensures Multiply(a, Sum(b, c)) == Sum(Multiply(a, b), Multiply(a, c))
  {
  }

  lemma SumMultiply(a: Quat, b: Quat, c: Quat)
    ensures Multiply(Sum(a, b), c) == Sum(Multiply(a, c), Multiply(b, c))
  {
  }

  lemma TimesW(a: Quat, b: Quat, s: real)
    ensures Multiply(a, Times(b, s)).w == Multiply(a, b).w * s && Multiply(Times(a, s), b).w == Multiply(a, b).w * s
  {
    hide Multiply;
    var m, u, v := Multiply(a, b), Times(a, s), Times(b, s);
    Components(a, b);
    Components(a, v);
    Components(u, b);
    TimesScalar(m.w, a.w, a.x, a.y, a.z, b.w, -b.x, -b.y, -b.z, u.w, u.x, u.y, u.z, v.w, -v.x, -v.y, -v.z, s);
  }

  lemma TimesX(a: Quat, b: Quat, s: real)
    ensures Multiply(a, Times(b, s)).x == Multiply(a, b).x * s && Multiply(Times(a, s), b).x == Multiply(a, b).x * s
  {
    hide Multiply;
    var m, u, v := Multiply(a, b), Times(a, s), Times(b, s);
    Components(a, b);
    Components(a, v);
    Components(u, b);
    TimesScalar(m.x, a.w, a.x, a.y, a.z, b.x, b.w, b.z, -b.y, u.w, u.x, u.y, u.z, v.x, v.w, v.z, -v.y, s);
  }

  lemma TimesScalar(m: real, p: real, q: real, r: real, t: real, e: real, f: real, g: real, h: real,
                    ps: real, qs: real, rs: real, ts: real, es: real, fs: real, gs: real, hs: real, s: real)
    requires m == p * e + q * f + r * g + t * h
    requires ps == p * s && qs == q * s && rs == r * s && ts == t * s
    requires es == e * s && fs == f * s && gs == g * s && hs == h * s
    ensures p * es + q * fs + r * gs + t * hs == m * s
    ensures ps * e + qs * f + rs * g + ts * h == m * s
  {
  }

  lemma TimesMultiply(a: Quat, b: Quat, s: real)
    ensures Multiply(a, Times(b, s)) == Times(Multiply(a, b), s)
    ensures Multiply(Times(a, s), b) == Times(Multiply(a, b), s)
  {
    hide Multiply;
    TimesW(a, b, s);
    TimesX(a, b, s);
    TimesX(Turn(a), Turn(b), s);
    TimesX(Turn(Turn(a)), Turn(Turn(b)), s);
    TurnTimes(a, b, s);
    TurnTimes(Turn(a), Turn(b), s);
  }

  lemma TurnTimes(a: Quat, b: Quat, s: real)
    ensures Multiply(Turn(a), Times(Turn(b), s)) == Turn(Multiply(a, Times(b, s)))
    ensures Multiply(Times(Turn(a), s), Turn(b)) == Turn(Multiply(Times(a, s), b))
    ensures Multiply(Turn(a), Turn(b)) == Turn(Multiply(a, b))
  {
    hide Multiply;
    assert Times(Turn(a), s) == Turn(Times(a, s)) && Times(Turn(b), s) == Turn(Times(b, s));
    TurnMultiply(a, b);
    TurnMultiply(a, Times(b, s));
    TurnMultiply(Times(a, s), b);
    hide Turn, Times;
  }

  lemma ConjugateMultiply(a: Quat, b: Quat)
    ensures Conjugate(Multiply(a, b)) == Multiply(Conjugate(b), Conjugate(a))
    ensures Conjugate(Conjugate(a)) == a
  {
    hide Multiply;
    var p, q := Conjugate(a), Conjugate(b);
    Components(a, b);
    Components(q, p);
    ConjugateScalar(a.w, a.x, a.y, a.z, b.w, b.x, b.y, b.z, p.x, p.y, p.z, q.x, q.y, q.z);
  }

  lemma ConjugateScalar(aw: real, ax: real, ay: real, az: real, bw: real, bx: real, b2: real, bz: real,
                        px: real, py: real, pz: real, qx: real, qy: real, qz: real)
    requires px == -ax && py == -ay && pz == -az && qx == -bx && qy == -b2 && qz == -bz
    ensures bw * aw - qx * px - qy * py - qz * pz == aw * bw - ax * bx - ay * b2 - az * bz
    ensures bw * px + qx * aw + qy * pz - qz * py == -(aw * bx + ax * bw + ay * bz - az * b2)
    ensures bw * py + qy * aw + qz * px - qx * pz == -(aw * b2 + ay * bw + az * bx - ax * bz)
    ensures bw * pz + qz * aw + qx * py - qy * px == -(aw * bz + az * bw + ax * b2 - ay * bx)
  {
  }

  lemma NormMultiply(a: Quat, b: Quat)
    ensures Norm2(Multiply(a, b)) == Norm2(a) * Norm2(b)
    ensures Norm2(Conjugate(a)) == Norm2(a)
  {
    var m := Multiply(a, b);
    FourSquares(m.w, m.x, m.y, m.z, a.w, a.x, a.y, a.z, b.w, b.x, b.y, b.z);
  }

  lemma FourSquares(mw: real, mx: real, my: real, mz: real,
                    aw: real, ax: real, ay: real, az: real, bw: real, bx: real, b2: real, bz: real)
    requires mw == aw * bw - ax * bx - ay * b2 - az * bz && mx == aw * bx + ax * bw + ay * bz - az * b2
    requires my == aw * b2 + ay * bw + az * bx - ax * bz && mz == aw * bz + az * bw + ax * b2 - ay * bx
    ensures mw * mw + mx * mx + my * my + mz * mz ==
            (aw * aw + ax * ax + ay * ay + az * az) * (bw * bw + bx * bx + b2 * b2 + bz * bz)
  {
  }

  lemma UnitInverse(q: Quat)
    requires Unit(q)
    ensures Multiply(q, Conjugate(q)) == Identity && Multiply(Conjugate(q), q) == Identity
  {
  }

  lemma ConjugateIdentity()
    ensures Conjugate(Identity) == Identity
  {
  }

  lemma IdentityMultiply(q: Quat)
    ensures Multiply(Identity, q) == q && Multiply(q, Identity) == q
  {
  }

  // --- rotations ---

  /** Rotating never leaves the pure quaternions. */
  lemma RotateIsPure(q: Quat, v: Vec)
    ensures Multiply(Multiply(q, Pure(v)), Conjugate(q)) == Pure(RotateVector(q, v))
  {
  }

  lemma RotateMultiply(a: Quat, b: Quat, v: Vec)
    ensures RotateVector(Multiply(a, b), v) == RotateVector(a, RotateVector(b, v))
  {
    RotateIsPure(b, v);
    ConjugateMultiply(a, b);
    MultiplyAssociative(a, b, Pure(v));
    var inner := Multiply(b, Pure(v));
    MultiplyAssociative(Multiply(a, inner), Conjugate(b), Conjugate(a));
    MultiplyAssociative(a, inner, Conjugate(b));
    hide Multiply, Conjugate;
  }

  lemma RotateAdd(q: Quat, a: Vec, b: Vec)
    ensures RotateVector(q, Add(a, b)) == Add(RotateVector(q, a), RotateVector(q, b))
  {
    assert Pure(Add(a, b)) == Sum(Pure(a), Pure(b));
    MultiplySum(q, Pure(a), Pure(b));
    SumMultiply(Multiply(q, Pure(a)), Multiply(q, Pure(b)), Conjugate(q));
    hide Multiply, Conjugate;
  }

  lemma RotateScale(q: Quat, a: Vec, s: real)
    ensures RotateVector(q, Scale(a, s)) == Scale(RotateVector(q, a), s)
  {
    assert Pure(Scale(a, s)) == Times(Pure(a), s);
    TimesMultiply(q, Pure(a), s);
    TimesMultiply(Multiply(q, Pure(a)), Conjugate(q), s);
    hide Multiply, Conjugate;
  }

  lemma RotateMinus(q: Quat, a: Vec, b: Vec)
    ensures RotateVector(q, Minus(a, b)) == Minus(RotateVector(q, a), RotateVector(q, b))
  {
    RotateAdd(q, Minus(a, b), b);
    assert Add(Minus(a, b), b) == a;
    hide RotateVector;
  }

  lemma RotateIdentity(v: Vec)
    ensures RotateVector(Identity, v) == v
  {
    hide Multiply;
    IdentityMultiply(Pure(v));
    ConjugateIdentity();
    assert Multiply(Identity, Pure(v)) == Pure(v);
  }

  lemma RotateBack(q: Quat, v: Vec)
    requires Unit(q)
    ensures RotateVector(Conjugate(q), RotateVector(q, v)) == v
    ensures RotateVector(q, RotateVector(Conjugate(q), v)) == v
  {
    RotateMultiply(Conjugate(q), q, v);
    RotateMultiply(q, Conjugate(q), v);
    UnitInverse(q);
    RotateIdentity(v);
    hide *;
  }

  // --- rigid transforms ---

  datatype Rigid = Rigid(rotation: Quat, translation: Vec)

  const Still := Rigid(Identity, Origin)

  function Act(g: Rigid, v: Vec): Vec {
    Add(RotateVector(g.rotation, v), g.translation)
  }

  /** First `inner`, then `outer`. */
  function Compose(outer: Rigid, inner: Rigid): Rigid {
    Rigid(Multiply(outer.rotation, inner.rotation), Act(outer, inner.translation))
  }

  function Inverse(g: Rigid): Rigid {
    var back := Conjugate(g.rotation);
    Rigid(back, Scale(RotateVector(back, g.translation), -1.0))
  }

  lemma ComposeActs(outer: Rigid, inner: Rigid, v: Vec)
    ensures Act(Compose(outer, inner), v) == Act(outer, Act(inner, v))
  {
    RotateMultiply(outer.rotation, inner.rotation, v);
    RotateAdd(outer.rotation, RotateVector(inner.rotation, v), inner.translation);
    hide RotateVector, Multiply;
  }

  lemma ComposeAssociative(a: Rigid, b: Rigid, c: Rigid)
    ensures Compose(Compose(a, b), c) == Compose(a, Compose(b, c))
  {
    MultiplyAssociative(a.rotation, b.rotation, c.rotation);
    ComposeActs(a, b, c.translation);
    hide Act, Multiply;
  }

  lemma InverseUndoes(g: Rigid)
    requires Unit(g.rotation)
    ensures Compose(Inverse(g), g) == Still && Compose(g, Inverse(g)) == Still
    ensures Unit(Inverse(g).rotation)
  {
    UnitInverse(g.rotation);
    NormMultiply(g.rotation, g.rotation);
    var back := Conjugate(g.rotation);
    RotateBack(g.rotation, g.translation);
    RotateScale(g.rotation, RotateVector(back, g.translation), -1.0);
    hide RotateVector, Multiply, Conjugate;
  }

  lemma StillIsNeutral(g: Rigid)
    ensures Compose(Still, g) == g && Compose(g, Still) == g
  {
    IdentityMultiply(g.rotation);
    RotateIdentity(g.translation);
    RotateScale(g.rotation, Origin, 0.0);
    hide Multiply, RotateVector;
  }

  lemma RightCancel(a: Rigid, b: Rigid, g: Rigid)
    requires Unit(g.rotation) && Compose(a, g) == Compose(b, g)
    ensures a == b
  {
    InverseUndoes(g);
    ComposeAssociative(a, g, Inverse(g));
    ComposeAssociative(b, g, Inverse(g));
    StillIsNeutral(a);
    StillIsNeutral(b);
    hide Compose, Inverse, Unit;
  }

  lemma ScaleAdd(a: Vec, b: Vec, s: real)
    ensures Scale(Add(a, b), s) == Add(Scale(a, s), Scale(b, s))
  {
  }

  lemma StillActs(v: Vec)
    ensures Act(Still, v) == v
  {
    RotateIdentity(v);
    hide RotateVector;
  }

  /** From the old frame's world poses to the new one's. */
  function MoveOf(was: Rigid, now: Rigid): Rigid {
    var rotation := Multiply(now.rotation, Conjugate(was.rotation));
    Rigid(rotation, Minus(now.translation, RotateVector(rotation, was.translation)))
  }

  lemma MoveCarries(was: Rigid, now: Rigid)
    requires Unit(was.rotation) && Unit(now.rotation)
    ensures Compose(MoveOf(was, now), was) == now && Unit(MoveOf(was, now).rotation)
    ensures MoveOf(was, now) == Compose(now, Inverse(was))
  {
    UnitInverse(was.rotation);
    NormMultiply(now.rotation, Conjugate(was.rotation));
    NormMultiply(was.rotation, was.rotation);
    MultiplyAssociative(now.rotation, Conjugate(was.rotation), was.rotation);
    IdentityMultiply(now.rotation);
    assert Compose(MoveOf(was, now), was) == now by {
      hide Multiply, RotateVector, Conjugate, Norm2;
    }
    InverseUndoes(was);
    ComposeAssociative(now, Inverse(was), was);
    StillIsNeutral(now);
    RightCancel(MoveOf(was, now), Compose(now, Inverse(was)), was);
    hide Compose, Multiply, Inverse, MoveOf, Norm2;
  }
}
