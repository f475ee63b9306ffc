/**
 * The gravity correction corrects: how the up the attitude sees moves in one update, exactly, and that
 * the correction turns it toward the measured up; and the bias follows the error.
 */
module AttitudeCorrection {
  import opened Physics
  import opened Quaternions
  import opened AttitudeEstimator

  // ---- how the seen up turns ----

  /** What the square of a turn does to a vector it turns. */
  function Back(u: Vec3, w: Vec3): Vec3 {
    Plus(Scaled(w, 2.0 * Dot(w, u)), Scaled(u, -NormSq(w)))
  }

  /** A vector fixed in the world, seen from a body that turned by a rate for an instant, before the attitude is normalised. */
  function SeenAfter(u: Vec3, w: Vec3, half: real): Vec3 {
    Plus(Plus(u, Scaled(Cross(u, w), 2.0 * half)), Scaled(Back(u, w), half * half))
  }

  lemma MovedY(w: real, x: real, y: real, z: real, dw: real, dx: real, dy: real, dz: real, h: real, w': real, x': real, y': real, z': real)
    requires w' == w + h * dw && x' == x + h * dx && y' == y + h * dy && z' == z + h * dz
    ensures 2.0 * (w' * x' + y' * z') == 2.0 * (w * x + y * z) + 2.0 * h * (w * dx + x * dw + y * dz + z * dy) + h * h * (2.0 * (dw * dx + dy * dz))
  {
  }

  lemma AlongY(w: real, x: real, y: real, z: real, p: real, q: real, r: real, dw: real, dx: real, dy: real, dz: real)
    requires dw == -x * p - y * q - z * r && dx == w * p + y * r - z * q
    requires dy == w * q - x * r + z * p && dz == w * r + x * q - y * p
    ensures w * dx + x * dw + y * dz + z * dy == (w * w - x * x - y * y + z * z) * p - (2.0 * (x * z - w * y)) * r
  {
  }

  lemma SquareY(w: real, x: real, y: real, z: real, p: real, q: real, r: real, dw: real, dx: real, dy: real, dz: real, kd: real, ne: real)
    requires dw == -x * p - y * q - z * r && dx == w * p + y * r - z * q
    requires dy == w * q - x * r + z * p && dz == w * r + x * q - y * p
    requires kd == q * p * (2.0 * (x * z - w * y)) + q * q * (2.0 * (w * x + y * z)) + q * r * (w * w - x * x - y * y + z * z)
    requires ne == (p * p + q * q + r * r) * (2.0 * (w * x + y * z))
    ensures 2.0 * (dw * dx + dy * dz) == 2.0 * kd - ne
  {
  }

  lemma MovedZ(w: real, x: real, y: real, z: real, dw: real, dx: real, dy: real, dz: real, h: real, w': real, x': real, y': real, z': real)
    requires w' == w + h * dw && x' == x + h * dx && y' == y + h * dy && z' == z + h * dz
    ensures w' * w' - x' * x' - y' * y' + z' * z' == w * w - x * x - y * y + z * z + 2.0 * h * (w * dw - x * dx - y * dy + z * dz) + h * h * (dw * dw - dx * dx - dy * dy + dz * dz)
  {
  }

  lemma AlongZ(w: real, x: real, y: real, z: real, p: real, q: real, r: real, dw: real, dx: real, dy: real, dz: real)
    requires dw == -x * p - y * q - z * r && dx == w * p + y * r - z * q
    requires dy == w * q - x * r + z * p && dz == w * r + x * q - y * p
    ensures w * dw - x * dx - y * dy + z * dz == (2.0 * (x * z - w * y)) * q - (2.0 * (w * x + y * z)) * p
  {
  }

  lemma SquareZ(w: real, x: real, y: real, z: real, p: real, q: real, r: real, dw: real, dx: real, dy: real, dz: real, kd: real, n: real, c: real, ne: real)
    requires dw == -x * p - y * q - z * r && dx == w * p + y * r - z * q
    requires dy == w * q - x * r + z * p && dz == w * r + x * q - y * p
    requires kd == r * p * (2.0 * (x * z - w * y)) + r * q * (2.0 * (w * x + y * z)) + r * r * (w * w - x * x - y * y + z * z)
    requires n == p * p + q * q + r * r && c == w * w - x * x - y * y + z * z && ne == n * c
    ensures dw * dw - dx * dx - dy * dy + dz * dz == 2.0 * kd - ne
  {
  }

  lemma Weighted(k: real, p: real, q: real, r: real, a: real, b: real, c: real, d: real, kd: real, w: real, x: real, y: real, z: real)
    requires a == 2.0 * (x * z - w * y) && b == 2.0 * (w * x + y * z) && c == w * w - x * x - y * y + z * z
    requires d == p * a + q * b + r * c && kd == k * d
    ensures kd == k * p * (2.0 * (x * z - w * y)) + k * q * (2.0 * (w * x + y * z)) + k * r * (w * w - x * x - y * y + z * z)
  {
    Rewritten(k, d, p * a + q * b + r * c);
    Rewritten(k * p, a, 2.0 * (x * z - w * y));
    Rewritten(k * q, b, 2.0 * (w * x + y * z));
    Rewritten(k * r, c, w * w - x * x - y * y + z * z);
  }

  lemma Sized(n: real, b: real, n': real, b': real, nb: real)
    requires n == n' && b == b' && nb == n * b
    ensures nb == n' * b'
  {
    Rewritten(n, b, b');
    Rewritten(b', n, n');
  }

  lemma MovedYNamed(w: real, x: real, y: real, z: real, dw: real, dx: real, dy: real, dz: real, h: real, w': real, x': real, y': real, z': real,
                   u: real, m: real, s: real, total: real)
    requires w' == w + h * dw && x' == x + h * dx && y' == y + h * dy && z' == z + h * dz
    requires u == 2.0 * (w * x + y * z) && m == w * dx + x * dw + y * dz + z * dy && s == 2.0 * (dw * dx + dy * dz) && total == 2.0 * (w' * x' + y' * z')
    ensures total == u + 2.0 * h * m + h * h * s
  {
    MovedY(w, x, y, z, dw, dx, dy, dz, h, w', x', y', z');
    Rewritten(2.0 * h, m, w * dx + x * dw + y * dz + z * dy);
    Rewritten(h * h, s, 2.0 * (dw * dx + dy * dz));
  }

  lemma AlongYNamed(w: real, x: real, y: real, z: real, p: real, q: real, r: real, dw: real, dx: real, dy: real, dz: real,
                   a: real, b: real, c: real, m: real)
    requires dw == -x * p - y * q - z * r && dx == w * p + y * r - z * q
    requires dy == w * q - x * r + z * p && dz == w * r + x * q - y * p
    requires a == 2.0 * (x * z - w * y) && b == 2.0 * (w * x + y * z) && c == w * w - x * x - y * y + z * z
    requires m == w * dx + x * dw + y * dz + z * dy
    ensures m == c * p - a * r
  {
    AlongY(w, x, y, z, p, q, r, dw, dx, dy, dz);
    Rewritten(p, c, w * w - x * x - y * y + z * z);
    Rewritten(r, a, 2.0 * (x * z - w * y));
  }

  lemma SquareYNamed(w: real, x: real, y: real, z: real, p: real, q: real, r: real, dw: real, dx: real, dy: real, dz: real,
                    a: real, b: real, c: real, d: real, n: real, s: real, kd: real, ne: real)
    requires dw == -x * p - y * q - z * r && dx == w * p + y * r - z * q
    requires dy == w * q - x * r + z * p && dz == w * r + x * q - y * p
    requires a == 2.0 * (x * z - w * y) && b == 2.0 * (w * x + y * z) && c == w * w - x * x - y * y + z * z
    requires d == p * a + q * b + r * c && n == p * p + q * q + r * r && s == 2.0 * (dw * dx + dy * dz)
    requires kd == q * d && ne == n * b
    ensures s == 2.0 * kd - ne
  {
    Weighted(q, p, q, r, a, b, c, d, kd, w, x, y, z);
    Sized(n, b, p * p + q * q + r * r, 2.0 * (w * x + y * z), ne);
    SquareY(w, x, y, z, p, q, r, dw, dx, dy, dz, kd, ne);
  }

  lemma MovedZNamed(w: real, x: real, y: real, z: real, dw: real, dx: real, dy: real, dz: real, h: real, w': real, x': real, y': real, z': real,
                   u: real, m: real, s: real, total: real)
    requires w' == w + h * dw && x' == x + h * dx && y' == y + h * dy && z' == z + h * dz
    requires u == w * w - x * x - y * y + z * z && m == w * dw - x * dx - y * dy + z * dz && s == dw * dw - dx * dx - dy * dy + dz * dz && total == w' * w' - x' * x' - y' * y' + z' * z'
    ensures total == u + 2.0 * h * m + h * h * s
  {
    MovedZ(w, x, y, z, dw, dx, dy, dz, h, w', x', y', z');
    Rewritten(2.0 * h, m, w * dw - x * dx - y * dy + z * dz);
    Rewritten(h * h, s, dw * dw - dx * dx - dy * dy + dz * dz);
  }

  lemma AlongZNamed(w: real, x: real, y: real, z: real, p: real, q: real, r: real, dw: real, dx: real, dy: real, dz: real,
                   a: real, b: real, c: real, m: real)
    requires dw == -x * p - y * q - z * r && dx == w * p + y * r - z * q
    requires dy == w * q - x * r + z * p && dz == w * r + x * q - y * p
    requires a == 2.0 * (x * z - w * y) && b == 2.0 * (w * x + y * z) && c == w * w - x * x - y * y + z * z
    requires m == w * dw - x * dx - y * dy + z * dz
    ensures m == a * q - b * p
  {
    AlongZ(w, x, y, z, p, q, r, dw, dx, dy, dz);
    Rewritten(q, a, 2.0 * (x * z - w * y));
    Rewritten(p, b, 2.0 * (w * x + y * z));
  }

  lemma SquareZNamed(w: real, x: real, y: real, z: real, p: real, q: real, r: real, dw: real, dx: real, dy: real, dz: real,
                    a: real, b: real, c: real, d: real, n: real, s: real, kd: real, ne: real)
    requires dw == -x * p - y * q - z * r && dx == w * p + y * r - z * q
    requires dy == w * q - x * r + z * p && dz == w * r + x * q - y * p
    requires a == 2.0 * (x * z - w * y) && b == 2.0 * (w * x + y * z) && c == w * w - x * x - y * y + z * z
    requires d == p * a + q * b + r * c && n == p * p + q * q + r * r && s == dw * dw - dx * dx - dy * dy + dz * dz
    requires kd == r * d && ne == n * c
    ensures s == 2.0 * kd - ne
  {
    Weighted(r, p, q, r, a, b, c, d, kd, w, x, y, z);
    SquareZ(w, x, y, z, p, q, r, dw, dx, dy, dz, kd, n, c, ne);
  }

  // The first component is the second one seen a quarter turn about the third axis away.

  lemma MovedXNamed(w: real, x: real, y: real, z: real, dw: real, dx: real, dy: real, dz: real, h: real, w': real, x': real, y': real, z': real,
                   u: real, m: real, s: real, total: real)
    requires w' == w + h * dw && x' == x + h * dx && y' == y + h * dy && z' == z + h * dz
    requires u == 2.0 * (x * z - w * y) && m == x * dz + z * dx - w * dy - y * dw && s == 2.0 * (dx * dz - dw * dy) && total == 2.0 * (x' * z' - w' * y')
    ensures total == u + 2.0 * h * m + h * h * s
  {
    MovedYNamed(w, -y, x, z, dw, -dy, dx, dz, h, w', -y', x', z', u, m, s, total);
  }

  lemma AlongXNamed(w: real, x: real, y: real, z: real, p: real, q: real, r: real, dw: real, dx: real, dy: real, dz: real,
                   a: real, b: real, c: real, m: real)
    requires dw == -x * p - y * q - z * r && dx == w * p + y * r - z * q
    requires dy == w * q - x * r + z * p && dz == w * r + x * q - y * p
    requires a == 2.0 * (x * z - w * y) && b == 2.0 * (w * x + y * z) && c == w * w - x * x - y * y + z * z
    requires m == x * dz + z * dx - w * dy - y * dw
    ensures m == b * r - c * q
  {
    AlongYNamed(w, -y, x, z, -q, p, r, dw, -dy, dx, dz, -b, a, c, m);
  }

  lemma SquareXNamed(w: real, x: real, y: real, z: real, p: real, q: real, r: real, dw: real, dx: real, dy: real, dz: real,
                    a: real, b: real, c: real, d: real, n: real, s: real, kd: real, ne: real)
    requires dw == -x * p - y * q - z * r && dx == w * p + y * r - z * q
    requires dy == w * q - x * r + z * p && dz == w * r + x * q - y * p
    requires a == 2.0 * (x * z - w * y) && b == 2.0 * (w * x + y * z) && c == w * w - x * x - y * y + z * z
    requires d == p * a + q * b + r * c && n == p * p + q * q + r * r && s == 2.0 * (dx * dz - dw * dy)
    requires kd == p * d && ne == n * a
    ensures s == 2.0 * kd - ne
  {
    SquareYNamed(w, -y, x, z, -q, p, r, dw, -dy, dx, dz, -b, a, c, d, n, s, kd, ne);
  }

  /** The mixed term of the seen up, for an attitude and a direction it moves in. */
  function UpBetween(q: Quat, d: Quat): Vec3 {
    Vec3(q.x * d.z + q.z * d.x - q.w * d.y - q.y * d.w, q.w * d.x + q.x * d.w + q.y * d.z + q.z * d.y,
         q.w * d.w - q.x * d.x - q.y * d.y + q.z * d.z)
  }

  // Each component in turn: along the drift, of the drift, of the moved attitude and of the turned one.

  lemma AlongXDrift(q: Quat, w: Vec3, d: Quat, u: Vec3, m: real, m': real)
    requires d == Drift(q, w) && u == UpSeen(q) && m == UpBetween(q, d).x && m' == Cross(u, w).x
    ensures m == m'
  {
    AlongXNamed(q.w, q.x, q.y, q.z, w.x, w.y, w.z, d.w, d.x, d.y, d.z, u.x, u.y, u.z, m);
  }

  lemma OfXDrift(q: Quat, w: Vec3, d: Quat, u: Vec3, along: real, n: real, s: real, s': real)
    requires d == Drift(q, w) && u == UpSeen(q) && s == UpSeen(d).x
    requires along == Dot(w, u) && n == NormSq(w) && s' == w.x * (2.0 * along) + u.x * -n
    ensures s == s'
  {
    SquareXNamed(q.w, q.x, q.y, q.z, w.x, w.y, w.z, d.w, d.x, d.y, d.z, u.x, u.y, u.z, along, n, s, w.x * along, n * u.x);
  }

  lemma MovedXSeen(q: Quat, d: Quat, h: real, t: Quat, u: real, m: real, s: real, total: real)
    requires t == Moved(q, d, h) && u == UpSeen(q).x && m == UpBetween(q, d).x && s == UpSeen(d).x && total == UpSeen(t).x
    ensures total == u + 2.0 * h * m + h * h * s
  {
    MovedXNamed(q.w, q.x, q.y, q.z, d.w, d.x, d.y, d.z, h, t.w, t.x, t.y, t.z, u, m, s, total);
  }

  lemma BackX(u: Vec3, w: Vec3, along: real, n: real)
    requires along == Dot(w, u) && n == NormSq(w)
    ensures Back(u, w).x == w.x * (2.0 * along) + u.x * -n
  {
  }

  lemma SeenX(u: Vec3, w: Vec3, h: real, m: real, s: real, after: real)
    requires m == Cross(u, w).x && s == Back(u, w).x && after == SeenAfter(u, w, h).x
    ensures after == u.x + 2.0 * h * m + h * h * s
  {
  }

  lemma TurnsX(q: Quat, w: Vec3, h: real, d: Quat, t: Quat, u: Vec3, m: real, s: real, m': real, s': real, total: real, after: real)
    requires d == Drift(q, w) && t == Moved(q, d, h) && u == UpSeen(q) && m == UpBetween(q, d).x && s == UpSeen(d).x
    requires m' == Cross(u, w).x && s' == Back(u, w).x && total == UpSeen(t).x && after == SeenAfter(u, w, h).x
    ensures total == after
  {
    MovedXSeen(q, d, h, t, u.x, m, s, total);
    AlongXDrift(q, w, d, u, m, m');
    BackX(u, w, Dot(w, u), NormSq(w));
    OfXDrift(q, w, d, u, Dot(w, u), NormSq(w), s, s');
    SeenX(u, w, h, m', s', after);
    Gathered(u.x, h, m, m', s, s', total);
  }

  lemma AlongYDrift(q: Quat, w: Vec3, d: Quat, u: Vec3, m: real, m': real)
    requires d == Drift(q, w) && u == UpSeen(q) && m == UpBetween(q, d).y && m' == Cross(u, w).y
    ensures m == m'
  {
    AlongYNamed(q.w, q.x, q.y, q.z, w.x, w.y, w.z, d.w, d.x, d.y, d.z, u.x, u.y, u.z, m);
  }

  lemma OfYDrift(q: Quat, w: Vec3, d: Quat, u: Vec3, along: real, n: real, s: real, s': real)
    requires d == Drift(q, w) && u == UpSeen(q) && s == UpSeen(d).y
    requires along == Dot(w, u) && n == NormSq(w) && s' == w.y * (2.0 * along) + u.y * -n
    ensures s == s'
  {
    SquareYNamed(q.w, q.x, q.y, q.z, w.x, w.y, w.z, d.w, d.x, d.y, d.z, u.x, u.y, u.z, along, n, s, w.y * along, n * u.y);
  }

  lemma MovedYSeen(q: Quat, d: Quat, h: real, t: Quat, u: real, m: real, s: real, total: real)
    requires t == Moved(q, d, h) && u == UpSeen(q).y && m == UpBetween(q, d).y && s == UpSeen(d).y && total == UpSeen(t).y
    ensures total == u + 2.0 * h * m + h * h * s
  {
    MovedYNamed(q.w, q.x, q.y, q.z, d.w, d.x, d.y, d.z, h, t.w, t.x, t.y, t.z, u, m, s, total);
  }

  lemma BackY(u: Vec3, w: Vec3, along: real, n: real)
    requires along == Dot(w, u) && n == NormSq(w)
    ensures Back(u, w).y == w.y * (2.0 * along) + u.y * -n
  {
  }

  lemma SeenY(u: Vec3, w: Vec3, h: real, m: real, s: real, after: real)
    requires m == Cross(u, w).y && s == Back(u, w).y && after == SeenAfter(u, w, h).y
    ensures after == u.y + 2.0 * h * m + h * h * s
  {
  }

  lemma TurnsY(q: Quat, w: Vec3, h: real, d: Quat, t: Quat, u: Vec3, m: real, s: real, m': real, s': real, total: real, after: real)
    requires d == Drift(q, w) && t == Moved(q, d, h) && u == UpSeen(q) && m == UpBetween(q, d).y && s == UpSeen(d).y
    requires m' == Cross(u, w).y && s' == Back(u, w).y && total == UpSeen(t).y && after == SeenAfter(u, w, h).y
    ensures total == after
  {
    MovedYSeen(q, d, h, t, u.y, m, s, total);
    AlongYDrift(q, w, d, u, m, m');
    BackY(u, w, Dot(w, u), NormSq(w));
    OfYDrift(q, w, d, u, Dot(w, u), NormSq(w), s, s');
    SeenY(u, w, h, m', s', after);
    Gathered(u.y, h, m, m', s, s', total);
  }

  lemma AlongZDrift(q: Quat, w: Vec3, d: Quat, u: Vec3, m: real, m': real)
    requires d == Drift(q, w) && u == UpSeen(q) && m == UpBetween(q, d).z && m' == Cross(u, w).z
    ensures m == m'
  {
    AlongZNamed(q.w, q.x, q.y, q.z, w.x, w.y, w.z, d.w, d.x, d.y, d.z, u.x, u.y, u.z, m);
  }

  lemma OfZDrift(q: Quat, w: Vec3, d: Quat, u: Vec3, along: real, n: real, s: real, s': real)
    requires d == Drift(q, w) && u == UpSeen(q) && s == UpSeen(d).z
    requires along == Dot(w, u) && n == NormSq(w) && s' == w.z * (2.0 * along) + u.z * -n
    ensures s == s'
  {
    SquareZNamed(q.w, q.x, q.y, q.z, w.x, w.y, w.z, d.w, d.x, d.y, d.z, u.x, u.y, u.z, along, n, s, w.z * along, n * u.z);
  }

  lemma MovedZSeen(q: Quat, d: Quat, h: real, t: Quat, u: real, m: real, s: real, total: real)
    requires t == Moved(q, d, h) && u == UpSeen(q).z && m == UpBetween(q, d).z && s == UpSeen(d).z && total == UpSeen(t).z
    ensures total == u + 2.0 * h * m + h * h * s
  {
    MovedZNamed(q.w, q.x, q.y, q.z, d.w, d.x, d.y, d.z, h, t.w, t.x, t.y, t.z, u, m, s, total);
  }

  lemma BackZ(u: Vec3, w: Vec3, along: real, n: real)
    requires along == Dot(w, u) && n == NormSq(w)
    ensures Back(u, w).z == w.z * (2.0 * along) + u.z * -n
  {
  }

  lemma SeenZ(u: Vec3, w: Vec3, h: real, m: real, s: real, after: real)
    requires m == Cross(u, w).z && s == Back(u, w).z && after == SeenAfter(u, w, h).z
    ensures after == u.z + 2.0 * h * m + h * h * s
  {
  }

  lemma TurnsZ(q: Quat, w: Vec3, h: real, d: Quat, t: Quat, u: Vec3, m: real, s: real, m': real, s': real, total: real, after: real)
    requires d == Drift(q, w) && t == Moved(q, d, h) && u == UpSeen(q) && m == UpBetween(q, d).z && s == UpSeen(d).z
    requires m' == Cross(u, w).z && s' == Back(u, w).z && total == UpSeen(t).z && after == SeenAfter(u, w, h).z
    ensures total == after
  {
    MovedZSeen(q, d, h, t, u.z, m, s, total);
    AlongZDrift(q, w, d, u, m, m');
    BackZ(u, w, Dot(w, u), NormSq(w));
    OfZDrift(q, w, d, u, Dot(w, u), NormSq(w), s, s');
    SeenZ(u, w, h, m', s', after);
    Gathered(u.z, h, m, m', s, s', total);
  }

  lemma Gathered(u: real, h: real, m: real, m': real, s: real, s': real, total: real)
    requires m == m' && s == s' && total == u + 2.0 * h * m + h * h * s
    ensures total == u + 2.0 * h * m' + h * h * s'
  {
  }

  /** One step turns the seen up by its cross product with the rate, and by the square of the turn. */
  lemma UpTurns(q: Quat, w: Vec3, half: real)
    ensures UpSeen(Turned(q, w, half)) == SeenAfter(UpSeen(q), w, half)
  {
    var d, t, u, c, b := Drift(q, w), Turned(q, w, half), UpSeen(q), Cross(UpSeen(q), w), Back(UpSeen(q), w);
    var m, s, after := UpBetween(q, d), UpSeen(d), SeenAfter(u, w, half);
    TurnsX(q, w, half, d, t, u, m.x, s.x, c.x, b.x, UpSeen(t).x, after.x);
    TurnsY(q, w, half, d, t, u, m.y, s.y, c.y, b.y, UpSeen(t).y, after.y);
    TurnsZ(q, w, half, d, t, u, m.z, s.z, c.z, b.z, UpSeen(t).z, after.z);
  }

  /** Normalising the attitude scales what it sees by the square. */
  lemma UpOver(q: Quat, norm: real, k: real)
    requires norm != 0.0 && k == (1.0 / norm) * (1.0 / norm)
    ensures UpSeen(Over(q, norm)) == Scaled(UpSeen(q), k)
  {
    UpOfScaled(q, Over(q, norm), 1.0 / norm, k);
  }

  lemma UpOfScaled(q: Quat, o: Quat, i: real, k: real)
    requires o == Quat(q.w * i, q.x * i, q.y * i, q.z * i) && k == i * i
    ensures UpSeen(o) == Scaled(UpSeen(q), k)
  {
    ScaledX(q.w, q.x, q.y, q.z, i, k, o.w, o.x, o.y, o.z);
    ScaledY(q.w, q.x, q.y, q.z, i, k, o.w, o.x, o.y, o.z);
    ScaledZ(q.w, q.x, q.y, q.z, i, k, o.w, o.x, o.y, o.z);
    Rewritten(k, UpSeen(q).x, 2.0 * (q.x * q.z - q.w * q.y));
    Rewritten(k, UpSeen(q).y, 2.0 * (q.w * q.x + q.y * q.z));
    Rewritten(k, UpSeen(q).z, q.w * q.w - q.x * q.x - q.y * q.y + q.z * q.z);
  }

  lemma ScaledX(w: real, x: real, y: real, z: real, i: real, k: real, w': real, x': real, y': real, z': real)
    requires w' == w * i && x' == x * i && y' == y * i && z' == z * i && k == i * i
    ensures 2.0 * (x' * z' - w' * y') == k * (2.0 * (x * z - w * y))
  {
  }

  lemma ScaledY(w: real, x: real, y: real, z: real, i: real, k: real, w': real, x': real, y': real, z': real)
    requires w' == w * i && x' == x * i && y' == y * i && z' == z * i && k == i * i
    ensures 2.0 * (w' * x' + y' * z') == k * (2.0 * (w * x + y * z))
  {
  }

  lemma ScaledZ(w: real, x: real, y: real, z: real, i: real, k: real, w': real, x': real, y': real, z': real)
    requires w' == w * i && x' == x * i && y' == y * i && z' == z * i && k == i * i
    ensures w' * w' - x' * x' - y' * y' + z' * z' == k * (w * w - x * x - y * y + z * z)
  {
  }

  lemma UpIsUnit(q: Quat)
    requires Unit(q)
    ensures NormSq(UpSeen(q)) == 1.0
  {
    FourSquares(q.w, q.x, q.y, q.z, QuatSq(q));
  }

  lemma FourSquares(w: real, x: real, y: real, z: real, n: real)
    requires n == w * w + x * x + y * y + z * z
    ensures (2.0 * (x * z - w * y)) * (2.0 * (x * z - w * y)) + (2.0 * (w * x + y * z)) * (2.0 * (w * x + y * z)) +
            (w * w - x * x - y * y + z * z) * (w * w - x * x - y * y + z * z) == n * n
  {
  }

  // ---- which way a step turns ----

  lemma DotOfBack(v: Vec3, u: Vec3, w: Vec3, c: real, vw: real, size: real, wu: real, back: real)
    requires c == Dot(v, u) && vw == Dot(v, w) && size == NormSq(w) && wu == Dot(w, u) && back == Dot(v, Back(u, w))
    ensures back == 2.0 * wu * vw - size * c
  {
    DotOfSum(v, Scaled(w, 2.0 * wu), Scaled(u, -size));
    DotOfScaled(v, w, 2.0 * wu);
    DotOfScaled(v, u, -size);
  }

  lemma DotOfParts(v: Vec3, u: Vec3, x: Vec3, b: Vec3, half: real, after: Vec3, c: real, turn: real, back: real, total: real)
    requires after == Plus(Plus(u, Scaled(x, 2.0 * half)), Scaled(b, half * half))
    requires c == Dot(v, u) && turn == Dot(v, x) && back == Dot(v, b) && total == Dot(v, after)
    ensures total == c + 2.0 * half * turn + half * half * back
  {
    DotOfSum(v, Plus(u, Scaled(x, 2.0 * half)), Scaled(b, half * half));
    DotOfSum(v, u, Scaled(x, 2.0 * half));
    DotOfScaled(v, x, 2.0 * half);
    DotOfScaled(v, b, half * half);
  }

  lemma DotOfSeenAfter(v: Vec3, u: Vec3, w: Vec3, half: real, c: real, vw: real, size: real, turn: real, wu: real, back: real, total: real)
    requires c == Dot(v, u) && vw == Dot(v, w) && size == NormSq(w) && turn == Dot(v, Cross(u, w)) && wu == Dot(w, u)
    requires back == Dot(v, Back(u, w)) && total == Dot(v, SeenAfter(u, w, half))
    ensures total == c + 2.0 * half * turn + half * half * back && back == 2.0 * wu * vw - size * c
  {
    DotOfBack(v, u, w, c, vw, size, wu, back);
    DotOfParts(v, u, Cross(u, w), Back(u, w), half, SeenAfter(u, w, half), c, turn, back, total);
  }

  /** The rate at which the seen up closes on the measured one: the gyro's share, and the gain times the square of the error. */
  lemma RateTowardGravity(v: Vec3, u: Vec3, gyro: Vec3, bias: seq<real>, kp: real)
    requires |bias| == 3
    ensures var e := Cross(v, u);
      Dot(v, Cross(u, Rate(gyro, bias, e, kp))) == Dot(e, Vec3(gyro.x + bias[0], gyro.y + bias[1], gyro.z + bias[2])) + kp * NormSq(e)
  {
    var e, own := Cross(v, u), Vec3(gyro.x + bias[0], gyro.y + bias[1], gyro.z + bias[2]);
    var w := Rate(gyro, bias, e, kp);
    TripleProduct(v, u, w);
    Anticommutes(v, u, w);
    assert w == Plus(own, Scaled(e, kp));
    DotOfSum(e, own, Scaled(e, kp));
    DotOfScaled(e, e, kp);
  }

  lemma Anticommutes(v: Vec3, u: Vec3, w: Vec3)
    ensures -Dot(Cross(u, v), w) == Dot(Cross(v, u), w)
  {
  }

  /** With the rate along the error alone, the alignment after one step, before it is normalised. */
  lemma AlignmentAfter(v: Vec3, u: Vec3, w: Vec3, gain: real, half: real, k: real, c: real, e: real, size: real, total: real)
    requires w == Scaled(Cross(v, u), gain) && k == half * gain && c == Dot(v, u) && e == NormSq(Cross(v, u))
    requires size == NormSq(w) && total == Dot(v, SeenAfter(u, w, half))
    ensures total == c * (1.0 - k * k * e) + 2.0 * k * e && half * half * size == k * k * e
  {
    AlignmentParts(v, u, w, gain, half, k, c, e, Dot(v, w), size, Dot(v, Cross(u, w)), Dot(w, u), Dot(v, Back(u, w)), total);
  }

  lemma AlignmentParts(v: Vec3, u: Vec3, w: Vec3, gain: real, half: real, k: real, c: real, e: real,
                       vw: real, size: real, turn: real, wu: real, back: real, total: real)
    requires w == Scaled(Cross(v, u), gain) && k == half * gain && c == Dot(v, u) && e == NormSq(Cross(v, u))
    requires vw == Dot(v, w) && size == NormSq(w) && turn == Dot(v, Cross(u, w)) && wu == Dot(w, u)
    requires back == Dot(v, Back(u, w)) && total == Dot(v, SeenAfter(u, w, half))
    ensures total == c * (1.0 - k * k * e) + 2.0 * k * e && half * half * size == k * k * e
  {
    DotOfSeenAfter(v, u, w, half, c, vw, size, turn, wu, back, total);
    AlongError(v, u, w, gain, e, size, turn, wu);
    Collected(c, e, gain, half, k, vw, size, turn, wu, back, total);
  }

  lemma AlongError(v: Vec3, u: Vec3, w: Vec3, gain: real, e: real, size: real, turn: real, wu: real)
    requires w == Scaled(Cross(v, u), gain) && e == NormSq(Cross(v, u))
    requires size == NormSq(w) && turn == Dot(v, Cross(u, w)) && wu == Dot(w, u)
    ensures turn == gain * e && wu == 0.0 && size == (gain * gain) * e
  {
    var x := Cross(v, u);
    TripleProduct(v, u, w);
    Anticommutes(v, u, w);
    DotOfScaled(x, x, gain);
    CrossIsOrthogonal(v, u);
    Commutes(u, w);
    DotOfScaled(u, x, gain);
    NormOfScaled(x, gain);
  }

  lemma Collected(c: real, e: real, gain: real, half: real, k: real, vw: real, size: real, turn: real, wu: real, back: real, total: real)
    requires k == half * gain && turn == gain * e && wu == 0.0 && size == (gain * gain) * e
    requires total == c + 2.0 * half * turn + half * half * back && back == 2.0 * wu * vw - size * c
    ensures total == c * (1.0 - k * k * e) + 2.0 * k * e && half * half * size == k * k * e
  {
    assert 2.0 * wu * vw == 0.0;
  }

  // ---- one update ----

  /** The rate an update integrates. */
  function Spun(a: Attitude, r: Reading, g: Gains, norm: real): Vec3
    requires |a.bias| == 3
  {
    Rate(r.gyro, BiasAfter(a, r, g, norm), Error(a.q, r, norm), g.kp)
  }

  lemma InverseSquare(norm: real, size: real)
    requires norm != 0.0 && norm * norm == size
    ensures size != 0.0 && (1.0 / norm) * (1.0 / norm) == 1.0 / size
  {
    var i := 1.0 / norm;
    assert i * norm == 1.0;
    assert (i * norm) * (i * norm) == (i * i) * (norm * norm);
  }

  /** What an update does to the up the attitude sees: it turns by the rate for the interval and keeps its length. */
  lemma UpdateTurnsUp(a: Attitude, r: Reading, g: Gains, n: Norms, w: Vec3, half: real, size: real, grown: real)
    requires Valid(a) && r.dt > 0.0 && Rooted(a, r, g, n)
    requires w == Spun(a, r, g, n.accel) && half == 0.5 * r.dt && size == NormSq(w) && grown == 1.0 + half * half * size
    ensures grown >= 1.0
    ensures UpSeen(Update(a, r, g, n).q) == Scaled(SeenAfter(UpSeen(a.q), w, half), 1.0 / grown)
  {
    RawIsDivisible(a, r, g, n);
    TurnedNorm(a.q, w, half);
    SquareNotNegative(half, size);
    InverseSquare(n.step, grown);
    UpTurns(a.q, w, half);
    UpOver(Turned(a.q, w, half), n.step, 1.0 / grown);
  }

  /** The up the frame measured: the direction of its acceleration. */
  function Measured(r: Reading, norm: real): Vec3
    requires norm != 0.0
  {
    Scaled(r.accel, 1.0 / norm)
  }

  /** The gyroscope reads nothing but the bias: the body does not turn. */
  predicate Still(a: Attitude, r: Reading, g: Gains, norm: real)
    requires |a.bias| == 3
  {
    var b := BiasAfter(a, r, g, norm);
    r.gyro.x + b[0] == 0.0 && r.gyro.y + b[1] == 0.0 && r.gyro.z + b[2] == 0.0
  }

  lemma StillSpins(a: Attitude, r: Reading, g: Gains, norm: real)
    requires |a.bias| == 3 && Still(a, r, g, norm)
    ensures Spun(a, r, g, norm) == Scaled(Error(a.q, r, norm), g.kp)
  {
  }

  lemma MeasuredIsUnit(r: Reading, norm: real)
    requires norm != 0.0 && norm * norm == NormSq(r.accel)
    ensures NormSq(Measured(r, norm)) == 1.0
  {
    NormOfScaled(r.accel, 1.0 / norm);
    InverseSquare(norm, NormSq(r.accel));
  }

  lemma AlignmentScaled(v: Vec3, u: Vec3, w: Vec3, gain: real, half: real, k: real, c: real, e: real, grown: real, size: real, total: real, c': real)
    requires w == Scaled(Cross(v, u), gain) && k == half * gain && c == Dot(v, u) && e == NormSq(Cross(v, u))
    requires size == NormSq(w) && total == Dot(v, SeenAfter(u, w, half))
    requires grown == 1.0 + half * half * size && grown >= 1.0 && c' == Dot(v, Scaled(SeenAfter(u, w, half), 1.0 / grown))
    ensures c' * (1.0 + k * k * e) == c * (1.0 - k * k * e) + 2.0 * k * e
  {
    AlignmentAfter(v, u, w, gain, half, k, c, e, size, total);
    DotOfScaled(v, SeenAfter(u, w, half), 1.0 / grown);
    Restored(c', 1.0 / grown, grown, total);
    Rewritten(c', grown, 1.0 + k * k * e);
  }

  /** On a corrected frame of a body at rest the alignment of the seen up with the measured one, exactly. */
  lemma CorrectionAligns(a: Attitude, r: Reading, g: Gains, n: Norms, v: Vec3, u: Vec3, half: real, k: real, c: real, e: real, c': real)
    requires Valid(a) && r.dt > 0.0 && Rooted(a, r, g, n) && Gated(r, n.accel) && Still(a, r, g, n.accel)
    requires v == Measured(r, n.accel) && u == UpSeen(a.q) && half == 0.5 * r.dt && k == half * g.kp
    requires c == Dot(v, u) && e == NormSq(Cross(v, u)) && c' == Dot(v, UpSeen(Update(a, r, g, n).q))
    ensures c' * (1.0 + k * k * e) == c * (1.0 - k * k * e) + 2.0 * k * e
  {
    var w := Spun(a, r, g, n.accel);
    var size := NormSq(w);
    AlignsBy(a, r, g, n, v, u, w, half, k, c, e, size, 1.0 + half * half * size, c');
  }

  lemma AlignsBy(a: Attitude, r: Reading, g: Gains, n: Norms, v: Vec3, u: Vec3, w: Vec3, half: real, k: real, c: real, e: real,
                 size: real, grown: real, c': real)
    requires Valid(a) && r.dt > 0.0 && Rooted(a, r, g, n) && Gated(r, n.accel) && Still(a, r, g, n.accel)
    requires v == Measured(r, n.accel) && u == UpSeen(a.q) && half == 0.5 * r.dt && k == half * g.kp
    requires c == Dot(v, u) && e == NormSq(Cross(v, u)) && c' == Dot(v, UpSeen(Update(a, r, g, n).q))
    requires w == Spun(a, r, g, n.accel) && size == NormSq(w) && grown == 1.0 + half * half * size
    ensures c' * (1.0 + k * k * e) == c * (1.0 - k * k * e) + 2.0 * k * e
  {
    StillSpins(a, r, g, n.accel);
    UpdateTurnsUp(a, r, g, n, w, half, size, grown);
    AlignmentScaled(v, u, w, g.kp, half, k, c, e, grown, size, Dot(v, SeenAfter(u, w, half)), c');
  }

  lemma Restored(share: real, inverse: real, grown: real, total: real)
    requires share == inverse * total && inverse * grown == 1.0
    ensures share * grown == total
  {
    assert share * grown == (inverse * grown) * total;
  }

  /** The alignment rises exactly where the two differ and the step does not overshoot, and never moves where they agree. */
  lemma AlignmentRises(k: real, c: real, e: real, c': real)
    requires e >= 0.0 && k > 0.0 && c' * (1.0 + k * k * e) == c * (1.0 - k * k * e) + 2.0 * k * e
    ensures c' > c <==> e > 0.0 && k * c < 1.0
    ensures c' < c <==> e > 0.0 && k * c > 1.0
  {
    var grown := 1.0 + k * k * e;
    SquareNotNegative(k, e);
    assert (c' - c) * grown == 2.0 * (k * e) * (1.0 - k * c);
    SignOfProduct(c' - c, grown);
    if e > 0.0 {
      ProductPositive(k, e);
      SignOfProduct(1.0 - k * c, 2.0 * (k * e));
    }
  }

  lemma SignOfProduct(a: real, b: real)
    requires b > 0.0
    ensures (a * b > 0.0 <==> a > 0.0) && (a * b < 0.0 <==> a < 0.0)
  {
    if a > 0.0 {
      ProductPositive(a, b);
    } else if a < 0.0 {
      ProductPositive(-a, b);
      assert (-a) * b == -(a * b);
    }
  }

  /** The correction turns the seen up toward the measured one: on every corrected frame of a body at rest. */
  lemma CorrectionCorrects(a: Attitude, r: Reading, g: Gains, n: Norms, v: Vec3, u: Vec3, half: real, k: real, c: real, c': real)
    requires Valid(a) && r.dt > 0.0 && g.kp > 0.0 && Rooted(a, r, g, n) && Gated(r, n.accel) && Still(a, r, g, n.accel)
    requires v == Measured(r, n.accel) && u == UpSeen(a.q) && half == 0.5 * r.dt && k == half * g.kp
    requires c == Dot(v, u) && c' == Dot(v, UpSeen(Update(a, r, g, n).q))
    ensures c' > c <==> v != u && v != Scaled(u, -1.0) && k * c < 1.0
    ensures c' < c <==> v != u && v != Scaled(u, -1.0) && k * c > 1.0
  {
    var e := NormSq(Cross(v, u));
    PositiveProduct(half, g.kp, k);
    CorrectionAligns(a, r, g, n, v, u, half, k, c, e, c');
    ErrorVanishes(a, r, n.accel, v, u, e);
    AlignmentRises(k, c, e, c');
  }

  /** The error is zero exactly where the measured up and the seen one are the same or opposite. */
  lemma ErrorVanishes(a: Attitude, r: Reading, norm: real, v: Vec3, u: Vec3, e: real)
    requires Unit(a.q) && norm != 0.0 && norm * norm == NormSq(r.accel)
    requires v == Measured(r, norm) && u == UpSeen(a.q) && e == NormSq(Cross(v, u))
    ensures e >= 0.0 && (e == 0.0 <==> v == u || v == Scaled(u, -1.0))
  {
    NormNotNegative(Cross(v, u));
    MeasuredIsUnit(r, norm);
    UpIsUnit(a.q);
    Parallel(v, u, Dot(v, u), e);
  }

  lemma SquareIsPositive(a: real, square: real)
    requires square == a * a
    ensures square >= 0.0 && (a != 0.0 ==> square > 0.0)
  {
    if a < 0.0 {
      PositiveProduct(-a, -a, square);
    } else if a > 0.0 {
      PositiveProduct(a, a, square);
    }
  }

  lemma PositiveProduct(a: real, b: real, product: real)
    requires a > 0.0 && b > 0.0 && product == a * b
    ensures product > 0.0
  {
  }

  lemma NormNotNegative(v: Vec3)
    ensures v == Vec3(0.0, 0.0, 0.0) ==> NormSq(v) == 0.0
    ensures v != Vec3(0.0, 0.0, 0.0) ==> NormSq(v) > 0.0
  {
    assert v == Vec3(v.x, v.y, v.z);
    SomeSquare(v.x, v.y, v.z, v.x * v.x, v.y * v.y, v.z * v.z);
  }

  lemma SomeSquare(a: real, b: real, c: real, aa: real, bb: real, cc: real)
    requires aa == a * a && bb == b * b && cc == c * c
    ensures a != 0.0 || b != 0.0 || c != 0.0 ==> aa + bb + cc > 0.0
  {
    SquareIsPositive(a, aa);
    SquareIsPositive(b, bb);
    SquareIsPositive(c, cc);
  }

  /** Unit vectors whose cross product vanishes are the same or opposite. */
  lemma Parallel(v: Vec3, u: Vec3, c: real, e: real)
    requires NormSq(v) == 1.0 && NormSq(u) == 1.0 && c == Dot(v, u) && e == NormSq(Cross(v, u))
    ensures e == 1.0 - c * c && (e == 0.0 <==> v == u || v == Scaled(u, -1.0))
  {
    Lagrange(v, u);
    Gap(v, u, Plus(v, Scaled(u, -1.0)), c, -1.0);
    Gap(v, u, Plus(v, u), c, 1.0);
    Ones(c, e);
    NoGap(v, u);
  }

  lemma NoGap(v: Vec3, u: Vec3)
    ensures v == u <==> Plus(v, Scaled(u, -1.0)) == Vec3(0.0, 0.0, 0.0)
    ensures v == Scaled(u, -1.0) <==> Plus(v, u) == Vec3(0.0, 0.0, 0.0)
  {
  }

  lemma Ones(c: real, e: real)
    requires c * c + e == 1.0
    ensures e == 0.0 <==> c == 1.0 || c == -1.0
  {
    assert (c - 1.0) * (c + 1.0) == c * c - 1.0;
  }

  lemma Gap(v: Vec3, u: Vec3, d: Vec3, c: real, s: real)
    requires NormSq(v) == 1.0 && NormSq(u) == 1.0 && c == Dot(v, u) && (s == 1.0 || s == -1.0)
    requires d == Plus(v, Scaled(u, s))
    ensures d == Vec3(0.0, 0.0, 0.0) <==> c == -s
  {
    MovedPart(v, u, s);
    GapSize(NormSq(d), NormSq(v), Dot(v, u), NormSq(u), s);
    NormNotNegative(d);
  }

  lemma GapSize(n: real, a: real, c: real, b: real, s: real)
    requires n == a + 2.0 * (s * c) + (s * s) * b && a == 1.0 && b == 1.0 && (s == 1.0 || s == -1.0)
    ensures n == 0.0 <==> c == -s
  {
    if s == 1.0 {
      assert n == 2.0 + 2.0 * c;
    } else {
      assert n == 2.0 - 2.0 * c;
    }
  }

  // ---- when nothing moves ----

  lemma AlongMoved(q: Quat, d: Quat, half: real)
    ensures Along(q, Moved(q, d, half)) == QuatSq(q) + half * Along(q, d)
  {
    AlongTerm(q.w, d.w, half);
    AlongTerm(q.x, d.x, half);
    AlongTerm(q.y, d.y, half);
    AlongTerm(q.z, d.z, half);
    Spread(half, q.w * d.w, q.x * d.x, q.y * d.y, q.z * d.z);
  }

  lemma AlongTerm(a: real, b: real, half: real)
    ensures a * (a + half * b) == a * a + half * (a * b)
  {
  }

  lemma AlongOver(q: Quat, t: Quat, norm: real)
    requires norm != 0.0
    ensures Along(q, Over(t, norm)) == (1.0 / norm) * Along(q, t)
  {
    var i := 1.0 / norm;
    Spread(i, q.w * t.w, q.x * t.x, q.y * t.y, q.z * t.z);
    Carried(q.w, t.w, i);
    Carried(q.x, t.x, i);
    Carried(q.y, t.y, i);
    Carried(q.z, t.z, i);
  }

  lemma Carried(a: real, b: real, i: real)
    ensures a * (b * i) == i * (a * b)
  {
  }

  lemma AtRest(q: Quat, w: Vec3, half: real, norm: real)
    requires w == Vec3(0.0, 0.0, 0.0) && Unit(q) && IsRoot(QuatSq(Turned(q, w, half)), norm)
    ensures norm == 1.0 && Over(Turned(q, w, half), norm) == q
  {
    assert Turned(q, w, half) == q;
    OneIsItsRoot(norm);
  }

  lemma OneIsItsRoot(norm: real)
    requires norm >= 0.0 && norm * norm == 1.0
    ensures norm == 1.0
  {
    if norm > 1.0 {
      PositiveProduct(norm - 1.0, norm + 1.0, norm * norm - 1.0);
    } else if norm < 1.0 {
      PositiveProduct(1.0 - norm, norm + 1.0, 1.0 - norm * norm);
    }
  }

  lemma UnitGrows(q: Quat, w: Vec3, half: real, norm: real)
    requires Unit(q) && IsRoot(QuatSq(Turned(q, w, half)), norm) && half > 0.0 && w != Vec3(0.0, 0.0, 0.0)
    ensures norm > 1.0
  {
    TurnedNorm(q, w, half);
    NormNotNegative(w);
    PositiveProduct(half, half, half * half);
    PositiveProduct(half * half, NormSq(w), half * half * NormSq(w));
    if norm <= 1.0 {
      ShortSquare(norm, norm * norm);
    }
  }

  lemma ShortSquare(norm: real, square: real)
    requires 0.0 <= norm <= 1.0 && square == norm * norm
    ensures square <= 1.0
  {
    if norm < 1.0 {
      PositiveProduct(1.0 - norm, 1.0 + norm, 1.0 - square);
    } else {
      Rewritten(norm, norm, 1.0);
    }
  }

  lemma InverseIsNotOne(norm: real)
    requires norm > 1.0
    ensures 1.0 / norm != 1.0
  {
    assert (1.0 / norm) * norm == 1.0;
  }

  lemma Departs(q: Quat, w: Vec3, half: real, norm: real)
    requires Unit(q) && IsRoot(QuatSq(Turned(q, w, half)), norm) && half > 0.0 && w != Vec3(0.0, 0.0, 0.0)
    ensures norm > 1.0 && Over(Turned(q, w, half), norm) != q
  {
    UnitGrows(q, w, half, norm);
    InverseIsNotOne(norm);
    DriftIsTangent(q, w);
    AlongMoved(q, Drift(q, w), half);
    AlongOver(q, Turned(q, w, half), norm);
    Halves(q);
  }

  /** An update leaves the attitude as it is exactly if the rate it integrates is zero. */
  lemma UpdateRests(a: Attitude, r: Reading, g: Gains, n: Norms, w: Vec3)
    requires Valid(a) && r.dt > 0.0 && Rooted(a, r, g, n) && w == Spun(a, r, g, n.accel)
    ensures Update(a, r, g, n).q == a.q <==> w == Vec3(0.0, 0.0, 0.0)
  {
    if w == Vec3(0.0, 0.0, 0.0) {
      AtRest(a.q, w, 0.5 * r.dt, n.step);
    } else {
      Departs(a.q, w, 0.5 * r.dt, n.step);
    }
  }

  lemma CrossOfSame(u: Vec3)
    ensures Cross(u, u) == Vec3(0.0, 0.0, 0.0)
  {
  }

  lemma NoErrorNoBias(bias: seq<real>, ki: real, dt: real)
    requires |bias| == 3 && forall i | 0 <= i < 3 :: -BIAS_LIMIT <= bias[i] <= BIAS_LIMIT
    ensures Learnt(bias, Vec3(0.0, 0.0, 0.0), ki, dt) == bias
  {
  }

  /** Where the seen up agrees with the measured one, and no rate is left, a frame moves nothing. */
  lemma AgreementHolds(a: Attitude, r: Reading, g: Gains, n: Norms)
    requires Valid(a) && r.dt > 0.0 && Rooted(a, r, g, n) && Gated(r, n.accel) && Still(a, r, g, n.accel)
    requires UpSeen(a.q) == Measured(r, n.accel)
    ensures Update(a, r, g, n) == a
  {
    CrossOfSame(UpSeen(a.q));
    NoErrorNoBias(a.bias, g.ki, r.dt);
    UpdateRests(a, r, g, n, Spun(a, r, g, n.accel));
  }

  // ---- the gate and the bias ----

  /** The error is the measured up against the seen one exactly on an allowed, quiet frame that measures about one gravity. */
  lemma ErrorIsGated(q: Quat, r: Reading, norm: real)
    ensures r.correct && NormSq(r.gyro) < 2.25 && 8.80665 < norm < 10.80665 ==> Error(q, r, norm) == Cross(Measured(r, norm), UpSeen(q))
    ensures !(r.correct && NormSq(r.gyro) < 2.25 && 8.80665 < norm < 10.80665) ==> Error(q, r, norm) == Vec3(0.0, 0.0, 0.0)
  {
  }

  /** The bias of an axis moves by the error of the axis, and stops only at the limit on that side. */
  lemma BiasFollowsError(a: Attitude, r: Reading, g: Gains, n: Norms, e: Vec3, axis: nat, tilt: real, was: real, now: real, moved: real)
    requires Valid(a) && r.dt > 0.0 && Rooted(a, r, g, n) && axis < 3 && g.ki > 0.0
    requires e == Error(a.q, r, n.accel) && Gated(r, n.accel) && NormSq(e) < 0.0289
    requires was == a.bias[axis] && now == Update(a, r, g, n).bias[axis]
    requires tilt == [e.x, e.y, e.z][axis] && moved == g.ki * tilt * r.dt
    ensures now - was == moved <==> -0.05 <= was + moved <= 0.05
    ensures now > was <==> tilt > 0.0 && was < 0.05
    ensures now < was <==> tilt < 0.0 && was > -0.05
  {
    Proportional(g.ki, tilt, r.dt, moved);
    AxisLearns(a, r, g, n, e, axis, tilt, now, moved);
    LimitedMoves(was, moved, now);
  }

  lemma AxisLearns(a: Attitude, r: Reading, g: Gains, n: Norms, e: Vec3, axis: nat, tilt: real, now: real, moved: real)
    requires Valid(a) && r.dt > 0.0 && Rooted(a, r, g, n) && axis < 3
    requires e == Error(a.q, r, n.accel) && Gated(r, n.accel) && NormSq(e) < 0.0289
    requires now == Update(a, r, g, n).bias[axis] && tilt == [e.x, e.y, e.z][axis] && moved == g.ki * tilt * r.dt
    ensures now == Limited(a.bias[axis] + moved)
  {
    Nudges(e, g.ki, r.dt, axis, tilt, moved);
    BiasOfAxis(a, r, g, n, e, axis, now, moved);
  }

  lemma Nudges(e: Vec3, ki: real, dt: real, axis: nat, tilt: real, moved: real)
    requires axis < 3 && tilt == [e.x, e.y, e.z][axis] && moved == ki * tilt * dt
    ensures moved == Nudge(e, ki, dt, axis)
  {
  }

  lemma BiasOfAxis(a: Attitude, r: Reading, g: Gains, n: Norms, e: Vec3, axis: nat, now: real, moved: real)
    requires Valid(a) && r.dt > 0.0 && Rooted(a, r, g, n) && axis < 3
    requires e == Error(a.q, r, n.accel) && Learns(e, r, n.accel)
    requires now == Update(a, r, g, n).bias[axis] && moved == Nudge(e, g.ki, r.dt, axis)
    ensures now == Limited(a.bias[axis] + moved)
  {
    assert Update(a, r, g, n).bias == Learnt(a.bias, e, g.ki, r.dt);
  }

  lemma LimitedMoves(was: real, moved: real, now: real)
    requires -0.05 <= was <= 0.05 && now == Limited(was + moved)
    ensures now - was == moved <==> -0.05 <= was + moved <= 0.05
    ensures now > was <==> moved > 0.0 && was < 0.05
    ensures now < was <==> moved < 0.0 && was > -0.05
  {
  }

  lemma Proportional(ki: real, e: real, dt: real, moved: real)
    requires ki > 0.0 && dt > 0.0 && moved == ki * e * dt
    ensures (moved > 0.0 <==> e > 0.0) && (moved < 0.0 <==> e < 0.0)
  {
    SignOfProduct(e, ki);
    SignOfProduct(ki * e, dt);
  }
}
