/** The quaternion algebra of the attitude: exact identities over the reals. */
module Quaternions {
  import opened Physics

  datatype Quat = Quat(w: real, x: real, y: real, z: real)

  const LEVEL_ATTITUDE := Quat(1.0, 0.0, 0.0, 0.0)

  function QuatSq(q: Quat): real {
    q.w * q.w + q.x * q.x + q.y * q.y + q.z * q.z
  }

  predicate Unit(q: Quat) {
    QuatSq(q) == 1.0
  }

  function Dot(a: Vec3, b: Vec3): real {
    a.x * b.x + a.y * b.y + a.z * b.z
  }

  function Scaled(v: Vec3, s: real): Vec3 {
    Vec3(v.x * s, v.y * s, v.z * s)
  }

  function Plus(a: Vec3, b: Vec3): Vec3 {
    Vec3(a.x + b.x, a.y + b.y, a.z + b.z)
  }

  function Cross(a: Vec3, b: Vec3): Vec3 {
    Vec3(a.y * b.z - a.z * b.y, a.z * b.x - a.x * b.z, a.x * b.y - a.y * b.x)
  }

  /** The product of the attitude with a pure rotation rate: the direction the attitude moves in. */
  function Drift(q: Quat, w: Vec3): Quat {
    Quat(-q.x * w.x - q.y * w.y - q.z * w.z,
         q.w * w.x + q.y * w.z - q.z * w.y,
         q.w * w.y - q.x * w.z + q.z * w.x,
         q.w * w.z + q.x * w.y - q.y * w.x)
  }

  function Moved(q: Quat, d: Quat, k: real): Quat {
    Quat(q.w + k * d.w, q.x + k * d.x, q.y + k * d.y, q.z + k * d.z)
  }

  /** One Euler step, not yet normalised. */
  function Turned(q: Quat, w: Vec3, half: real): Quat {
    Moved(q, Drift(q, w), half)
  }

  function Over(q: Quat, norm: real): Quat
    requires norm != 0.0
  {
    var inv := 1.0 / norm;
    Quat(q.w * inv, q.x * inv, q.y * inv, q.z * inv)
  }

  // ---- scalar identities, one small step each ----

  lemma Swap(a: real, b: real, c: real, d: real)
    ensures (a * b) * (c * d) == (a * c) * (b * d)
  {
  }

  lemma Foil(a: real, b: real, c: real, d: real)
    ensures (a + b) * (c + d) == a * c + a * d + b * c + b * d
  {
  }

  lemma Spread(k: real, a: real, b: real, c: real, d: real)
    ensures k * (a + b + c + d) == k * a + k * b + k * c + k * d
  {
    assert k * (a + b + c + d) == k * (a + b) + k * (c + d);
  }

  lemma SquareOfSum(a: real, b: real)
    ensures (a + b) * (a + b) == a * a + 2.0 * (a * b) + b * b
    ensures (a - b) * (a - b) == a * a - 2.0 * (a * b) + b * b
  {
    Foil(a, b, a, b);
    Foil(a, -b, a, -b);
  }

  lemma SquareOfThree(a: real, b: real, c: real)
    ensures (a + b + c) * (a + b + c) == a * a + b * b + c * c + 2.0 * (a * b) + 2.0 * (b * c) + 2.0 * (a * c)
  {
    SquareOfSum(a + b, c);
    SquareOfSum(a, b);
    assert (a + b) * c == a * c + b * c;
  }

  // ---- integration ----

  lemma LagrangeTerm(a: real, b: real, c: real, d: real)
    ensures (a * d - b * c) * (a * d - b * c) == (a * a) * (d * d) + (b * b) * (c * c) - 2.0 * ((a * c) * (b * d))
  {
    SquareOfSum(a * d, b * c);
    Swap(a, d, a, d);
    Swap(b, c, b, c);
    Swap(a, d, b, c);
    Swap(a, b, d, c);
    Swap(a, c, d, b);
  }

  lemma NineProducts(a: Vec3, b: Vec3)
    ensures NormSq(a) * NormSq(b)
         == (a.x * a.x) * (b.x * b.x) + (a.x * a.x) * (b.y * b.y) + (a.x * a.x) * (b.z * b.z)
          + (a.y * a.y) * (b.x * b.x) + (a.y * a.y) * (b.y * b.y) + (a.y * a.y) * (b.z * b.z)
          + (a.z * a.z) * (b.x * b.x) + (a.z * a.z) * (b.y * b.y) + (a.z * a.z) * (b.z * b.z)
  {
    var n := NormSq(b);
    Spread(n, a.x * a.x, a.y * a.y, a.z * a.z, 0.0);
    Spread(a.x * a.x, b.x * b.x, b.y * b.y, b.z * b.z, 0.0);
    Spread(a.y * a.y, b.x * b.x, b.y * b.y, b.z * b.z, 0.0);
    Spread(a.z * a.z, b.x * b.x, b.y * b.y, b.z * b.z, 0.0);
  }

  /** Lagrange's identity: the dot and the cross product share the length of two vectors. */
  lemma Lagrange(a: Vec3, b: Vec3)
    ensures Dot(a, b) * Dot(a, b) + NormSq(Cross(a, b)) == NormSq(a) * NormSq(b)
  {
    LagrangeTerm(a.y, a.z, b.y, b.z);
    LagrangeTerm(a.z, a.x, b.z, b.x);
    LagrangeTerm(a.x, a.y, b.x, b.y);
    SquareOfThree(a.x * b.x, a.y * b.y, a.z * b.z);
    Swap(a.x, b.x, a.x, b.x);
    Swap(a.y, b.y, a.y, b.y);
    Swap(a.z, b.z, a.z, b.z);
    NineProducts(a, b);
  }

  function Part(q: Quat): Vec3 {
    Vec3(q.x, q.y, q.z)
  }

  lemma CrossIsOrthogonal(a: Vec3, b: Vec3)
    ensures Dot(a, Cross(a, b)) == 0.0 && Dot(b, Cross(a, b)) == 0.0
  {
    assert a.x * (a.y * b.z) == a.y * (a.x * b.z) && a.y * (a.z * b.x) == a.z * (a.y * b.x) && a.z * (a.x * b.y) == a.x * (a.z * b.y);
    assert b.x * (a.y * b.z) == b.z * (a.y * b.x) && b.y * (a.z * b.x) == b.x * (a.z * b.y) && b.z * (a.x * b.y) == b.y * (a.x * b.z);
  }

  /** The drift is the scalar part of minus the dot product, and the rate scaled plus the cross product. */
  lemma DriftParts(q: Quat, w: Vec3)
    ensures var d := Drift(q, w); d.w == -Dot(Part(q), w) && Part(d) == Plus(Scaled(w, q.w), Cross(Part(q), w))
  {
  }

  /** The drift is orthogonal to the attitude. */
  lemma DriftIsTangent(q: Quat, w: Vec3)
    ensures Along(q, Drift(q, w)) == 0.0
  {
    var v, c := Part(q), Cross(Part(q), w);
    DriftParts(q, w);
    CrossIsOrthogonal(v, w);
    DotOfSum(v, Scaled(w, q.w), c);
    DotOfScaled(v, w, q.w);
    AlongParts(q, Drift(q, w));
    Cancels(q.w, Dot(v, w));
  }

  lemma AlongParts(q: Quat, d: Quat)
    ensures Along(q, d) == q.w * d.w + Dot(Part(q), Part(d))
  {
  }

  lemma Cancels(k: real, a: real)
    ensures k * -a + k * a == 0.0
  {
  }

  lemma DotOfSum(a: Vec3, b: Vec3, c: Vec3)
    ensures Dot(a, Plus(b, c)) == Dot(a, b) + Dot(a, c)
  {
  }

  lemma DotOfScaled(a: Vec3, b: Vec3, k: real)
    ensures Dot(a, Scaled(b, k)) == k * Dot(a, b)
  {
    Spread(k, a.x * b.x, a.y * b.y, a.z * b.z, 0.0);
    assert a.x * (b.x * k) == k * (a.x * b.x) && a.y * (b.y * k) == k * (a.y * b.y) && a.z * (b.z * k) == k * (a.z * b.z);
  }

  lemma NormOfSum(a: Vec3, b: Vec3)
    ensures NormSq(Plus(a, b)) == NormSq(a) + 2.0 * Dot(a, b) + NormSq(b)
  {
    SquareOfSum(a.x, b.x);
    SquareOfSum(a.y, b.y);
    SquareOfSum(a.z, b.z);
  }

  lemma NormOfScaled(a: Vec3, k: real)
    ensures NormSq(Scaled(a, k)) == (k * k) * NormSq(a)
  {
    Swap(a.x, k, a.x, k);
    Swap(a.y, k, a.y, k);
    Swap(a.z, k, a.z, k);
    Spread(k * k, a.x * a.x, a.y * a.y, a.z * a.z, 0.0);
  }

  /** The drift is as long as the attitude times the rate. */
  lemma DriftNorm(q: Quat, w: Vec3)
    ensures QuatSq(Drift(q, w)) == QuatSq(q) * NormSq(w)
  {
    var v, c, n := Part(q), Cross(Part(q), w), NormSq(w);
    DriftParts(q, w);
    NormOfSum(Scaled(w, q.w), c);
    NormOfScaled(w, q.w);
    CrossIsOrthogonal(v, w);
    DotOfScaled(c, w, q.w);
    Lagrange(v, w);
    assert (-Dot(v, w)) * (-Dot(v, w)) == Dot(v, w) * Dot(v, w);
    assert Dot(Scaled(w, q.w), c) == Dot(c, Scaled(w, q.w));
    assert Dot(c, w) == Dot(w, c);
    assert QuatSq(q) * n == (q.w * q.w) * n + NormSq(v) * n;
  }

  lemma StepSquared(a: real, h: real, b: real)
    ensures (a + h * b) * (a + h * b) == a * a + 2.0 * (h * (a * b)) + (h * h) * (b * b)
  {
    SquareOfSum(a, h * b);
    Swap(h, b, h, b);
    assert a * (h * b) == h * (a * b);
  }

  function Along(p: Quat, q: Quat): real {
    p.w * q.w + Dot(Part(p), Part(q))
  }

  lemma MovedPart(a: Vec3, b: Vec3, k: real)
    ensures NormSq(Plus(a, Scaled(b, k))) == NormSq(a) + 2.0 * (k * Dot(a, b)) + (k * k) * NormSq(b)
  {
    NormOfSum(a, Scaled(b, k));
    DotOfScaled(a, b, k);
    NormOfScaled(b, k);
  }

  lemma AddUp(k: real, sq: real, a: real, b: real, c: real, d: real)
    ensures k * (a + b) == k * a + k * b && sq * (c + d) == sq * c + sq * d
  {
  }

  /** The same with scalar and vector parts apart. */
  lemma MovedParts(a: real, v: Vec3, b: real, u: Vec3, k: real)
    ensures (a + k * b) * (a + k * b) + NormSq(Plus(v, Scaled(u, k)))
         == (a * a + NormSq(v)) + 2.0 * (k * (a * b + Dot(v, u))) + (k * k) * (b * b + NormSq(u))
  {
    MovedPart(v, u, k);
    StepSquared(a, k, b);
    AddUp(k, k * k, a * b, Dot(v, u), b * b, NormSq(u));
  }

  lemma Halves(q: Quat)
    ensures QuatSq(q) == q.w * q.w + NormSq(Part(q))
  {
  }

  lemma MovedHalves(q: Quat, d: Quat, k: real)
    ensures QuatSq(Moved(q, d, k)) == (q.w + k * d.w) * (q.w + k * d.w) + NormSq(Plus(Part(q), Scaled(Part(d), k)))
  {
    Halves(Moved(q, d, k));
    assert Part(Moved(q, d, k)) == Plus(Part(q), Scaled(Part(d), k));
  }

  lemma MovedNorm(q: Quat, d: Quat, k: real)
    ensures QuatSq(Moved(q, d, k)) == QuatSq(q) + 2.0 * (k * Along(q, d)) + (k * k) * QuatSq(d)
  {
    MovedHalves(q, d, k);
    MovedParts(q.w, Part(q), d.w, Part(d), k);
    Halves(q);
    Halves(d);
    Rewritten(k * k, d.w * d.w + NormSq(Part(d)), QuatSq(d));
  }

  lemma Rewritten(k: real, a: real, b: real)
    requires a == b
    ensures k * a == k * b
  {
  }

  lemma Growth(size: real, sq: real, rate: real, drift: real, along: real, k: real)
    requires drift == size * rate && along == 0.0
    ensures size + 2.0 * (k * along) + sq * drift == size * (1.0 + sq * rate)
  {
    assert sq * (size * rate) == size * (sq * rate);
  }

  /** Before normalisation the squared norm has grown by exactly the square of the angle turned. */
  lemma TurnedNorm(q: Quat, w: Vec3, half: real)
    ensures QuatSq(Turned(q, w, half)) == QuatSq(q) * (1.0 + half * half * NormSq(w))
  {
    var d := Drift(q, w);
    MovedNorm(q, d, half);
    DriftIsTangent(q, w);
    DriftNorm(q, w);
    Growth(QuatSq(q), half * half, NormSq(w), QuatSq(d), Along(q, d), half);
  }

  lemma OverIsUnit(q: Quat, norm: real)
    requires norm != 0.0 && norm * norm == QuatSq(q)
    ensures Unit(Over(q, norm))
  {
    var inv := 1.0 / norm;
    assert inv * norm == 1.0;
    assert (inv * norm) * (inv * norm) == inv * inv * (norm * norm);
    assert QuatSq(Over(q, norm)) == inv * inv * QuatSq(q);
  }

  // ---- rotating a world vector into the body ----

  /** A world vector seen from the body: turned against the attitude. */
  function ToBody(q: Quat, u: Vec3): Vec3 {
    var a := Cross(Part(q), u);
    Plus(Plus(u, Scaled(a, -2.0 * q.w)), Scaled(Cross(Part(q), a), 2.0))
  }

  lemma TripleProduct(u: Vec3, v: Vec3, a: Vec3)
    ensures Dot(u, Cross(v, a)) == -Dot(Cross(v, u), a)
  {
    assert u.x * (v.y * a.z) == (v.y * u.x) * a.z && u.x * (v.z * a.y) == (v.z * u.x) * a.y;
    assert u.y * (v.z * a.x) == (v.z * u.y) * a.x && u.y * (v.x * a.z) == (v.x * u.y) * a.z;
    assert u.z * (v.x * a.y) == (v.x * u.z) * a.y && u.z * (v.y * a.x) == (v.y * u.z) * a.x;
  }

  lemma Balance(w: real, part: real, size: real, turned: real)
    requires w * w + part == 1.0 && turned == part * size
    ensures (-2.0 * w) * (-2.0 * w) * size + 4.0 * turned - 4.0 * size == 0.0
  {
    assert (-2.0 * w) * (-2.0 * w) == 4.0 * (w * w);
    assert (w * w) * size + part * size == size;
  }

  /** A unit attitude turns vectors without stretching them. */
  lemma RotationKeepsLength(q: Quat, u: Vec3)
    requires Unit(q)
    ensures NormSq(ToBody(q, u)) == NormSq(u)
  {
    var v, k := Part(q), -2.0 * q.w;
    var a := Cross(v, u);
    var b := Cross(v, a);
    Lengths(v, u, a, b);
    var s, t := Scaled(a, k), Scaled(b, 2.0);
    Sum(u, s, t);
    NormOfScaled(a, k);
    NormOfScaled(b, 2.0);
    DotOfScaled(u, a, k);
    DotOfScaled(u, b, 2.0);
    ScaledOrthogonal(a, b, k, 2.0);
    Balance(q.w, NormSq(v), NormSq(a), NormSq(b));
  }

  lemma Sum(u: Vec3, s: Vec3, t: Vec3)
    ensures NormSq(Plus(Plus(u, s), t)) == NormSq(u) + NormSq(s) + NormSq(t) + 2.0 * Dot(u, s) + 2.0 * Dot(u, t) + 2.0 * Dot(s, t)
  {
    NormOfSum(Plus(u, s), t);
    NormOfSum(u, s);
    DotOfSum(t, u, s);
    Commutes(Plus(u, s), t);
    Commutes(u, t);
    Commutes(s, t);
  }

  lemma Commutes(a: Vec3, b: Vec3)
    ensures Dot(a, b) == Dot(b, a)
  {
  }

  /** What the two cross products of a rotation measure. */
  lemma Lengths(v: Vec3, u: Vec3, a: Vec3, b: Vec3)
    requires a == Cross(v, u) && b == Cross(v, a)
    ensures Dot(u, a) == 0.0 && Dot(a, b) == 0.0 && Dot(u, b) == -NormSq(a) && NormSq(b) == NormSq(v) * NormSq(a)
  {
    CrossIsOrthogonal(v, u);
    CrossIsOrthogonal(v, a);
    TripleProduct(u, v, a);
    Lagrange(v, a);
    assert Dot(v, a) * Dot(v, a) == 0.0;
  }

  lemma ScaledOrthogonal(a: Vec3, b: Vec3, j: real, k: real)
    requires Dot(a, b) == 0.0
    ensures Dot(Scaled(a, j), Scaled(b, k)) == 0.0
  {
    DotOfScaled(Scaled(a, j), b, k);
    DotOfScaled(b, a, j);
    Commutes(Scaled(a, j), b);
    Commutes(a, b);
  }

  /** One component of the rotation, by which axes come first, second and third. */
  function Component(w: real, x: real, y: real, z: real, u: Vec3): real {
    u.x + (y * u.z - z * u.y) * (-2.0 * w) + (y * (x * u.y - y * u.x) - z * (z * u.x - x * u.z)) * 2.0
  }

  /** One row of the rotation matrix, as the source writes it, is one component of the rotation. */
  lemma RowOf(w: real, x: real, y: real, z: real, u: Vec3, c: Vec3)
    requires c == Vec3(1.0 - 2.0 * (y * y + z * z), 2.0 * (x * y + w * z), 2.0 * (x * z - w * y))
    ensures Dot(c, u) == Component(w, x, y, z, u)
  {
    assert (y * y + z * z) * u.x == y * (y * u.x) + z * (z * u.x);
    assert (x * y + w * z) * u.y == y * (x * u.y) + w * (z * u.y);
    assert (x * z - w * y) * u.z == z * (x * u.z) - w * (y * u.z);
    assert (y * u.z - z * u.y) * (-2.0 * w) == -2.0 * (w * (y * u.z)) + 2.0 * (w * (z * u.y));
    assert y * (x * u.y - y * u.x) == y * (x * u.y) - y * (y * u.x);
    assert z * (z * u.x - x * u.z) == z * (z * u.x) - z * (x * u.z);
  }

  lemma ToBodyX(q: Quat, u: Vec3)
    ensures ToBody(q, u).x == Component(q.w, q.x, q.y, q.z, u)
  {
  }

  lemma ToBodyY(q: Quat, u: Vec3)
    ensures ToBody(q, u).y == Component(q.w, q.y, q.z, q.x, Vec3(u.y, u.z, u.x))
  {
  }

  lemma DotCycled(a: Vec3, b: Vec3)
    ensures Dot(Vec3(a.y, a.z, a.x), Vec3(b.y, b.z, b.x)) == Dot(a, b)
  {
  }
}
