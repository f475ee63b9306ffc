/**
 * The tilt controller and the leans it is given: the roll and pitch rates asked for are bounded by
 * the gain, because every lean is a unit vector and a unit attitude stretches nothing.
 */
module AttitudeControl {
  import opened Physics
  import opened Quaternions
  import opened AttitudeEstimator

  const MIN_HEADING_NORM: real := 0.001
  const BRAKE_GAIN: real := 1.0
  const BRAKE_TILT_MAX: real := 0.36

  // ---- the controller ----

  /** The first two rows of the world-to-body rotation. */
  function RowX(q: Quat): Vec3 {
    Vec3(1.0 - 2.0 * (q.y * q.y + q.z * q.z), 2.0 * (q.x * q.y + q.w * q.z), 2.0 * (q.x * q.z - q.w * q.y))
  }

  function RowY(q: Quat): Vec3 {
    Vec3(2.0 * (q.x * q.y - q.w * q.z), 1.0 - 2.0 * (q.x * q.x + q.z * q.z), 2.0 * (q.y * q.z + q.w * q.x))
  }

  /** The desired up axis seen from the body, as far as the setpoint needs it. */
  function UpX(q: Quat, u: Vec3): real {
    Dot(RowX(q), u)
  }

  function UpY(q: Quat, u: Vec3): real {
    Dot(RowY(q), u)
  }

  function RateSetpoint(kp: real, q: Quat, u: Vec3): Vec3 {
    Vec3(kp * -UpY(q, u), kp * UpX(q, u), 0.0)
  }

  /** The rows are components of the rotation. */
  lemma RowsAreRotation(q: Quat, u: Vec3)
    ensures UpX(q, u) == ToBody(q, u).x && UpY(q, u) == ToBody(q, u).y
  {
    RowXTurns(q, u);
    RowYTurns(q, u);
  }

  lemma RowXTurns(q: Quat, u: Vec3)
    ensures UpX(q, u) == ToBody(q, u).x
  {
    ToBodyX(q, u);
    RowOf(q.w, q.x, q.y, q.z, u, RowX(q));
  }

  lemma RowYTurns(q: Quat, u: Vec3)
    ensures UpY(q, u) == ToBody(q, u).y
  {
    ToBodyY(q, u);
    var row := RowY(q);
    RowOf(q.w, q.y, q.z, q.x, Vec3(u.y, u.z, u.x), Vec3(row.y, row.z, row.x));
    DotCycled(row, u);
  }

  lemma ScaledPair(kp: real, a: real, b: real)
    ensures (kp * -a) * (kp * -a) + (kp * b) * (kp * b) == (kp * kp) * (a * a + b * b)
  {
    Swap(kp, -a, kp, -a);
    Swap(kp, b, kp, b);
    assert (kp * kp) * (a * a + b * b) == (kp * kp) * (a * a) + (kp * kp) * (b * b);
  }

  /** The setpoint is the gain times the sine of the tilt error: what is left of a unit axis beside its vertical part. */
  lemma SetpointIsSine(kp: real, q: Quat, u: Vec3)
    requires Unit(q) && NormSq(u) == 1.0
    ensures NormSq(RateSetpoint(kp, q, u)) == kp * kp * (1.0 - Square(ToBody(q, u).z))
  {
    var seen := ToBody(q, u);
    RotationKeepsLength(q, u);
    RowsAreRotation(q, u);
    ScaledPair(kp, seen.y, seen.x);
    Measured(RateSetpoint(kp, q, u), seen, kp);
  }

  lemma Measured(rate: Vec3, seen: Vec3, kp: real)
    requires rate == Vec3(kp * -seen.y, kp * seen.x, 0.0) && NormSq(seen) == 1.0
    ensures NormSq(rate) == kp * kp * (1.0 - Square(seen.z))
  {
    ScaledPair(kp, seen.y, seen.x);
    SameFactor(kp * kp, seen.y * seen.y + seen.x * seen.x, 1.0 - Square(seen.z));
  }

  lemma SameFactor(k: real, a: real, b: real)
    requires a == b
    ensures k * a == k * b
  {
  }

  /** For a unit lean and a unit attitude the rates never exceed the gain in length. */
  lemma SetpointIsBounded(kp: real, q: Quat, u: Vec3)
    requires Unit(q) && NormSq(u) == 1.0
    ensures NormSq(RateSetpoint(kp, q, u)) <= kp * kp
  {
    SetpointIsSine(kp, q, u);
    Shrinks(kp, ToBody(q, u).z);
  }

  lemma Shrinks(kp: real, z: real)
    ensures kp * kp * (1.0 - Square(z)) <= kp * kp
  {
    assert kp * kp >= 0.0 && z * z >= 0.0;
    assert (kp * kp) * (z * z) >= 0.0;
  }

  class AttitudeController {
    var kp: real
    var errorRoll: real
    var errorPitch: real
    var setpoint: Vec3

    constructor (kp: real)
      ensures this.kp == kp && errorRoll == 0.0 && errorPitch == 0.0 && setpoint == Vec3(0.0, 0.0, 0.0)
    {
      this.kp := kp;
      errorRoll, errorPitch, setpoint := 0.0, 0.0, Vec3(0.0, 0.0, 0.0);
    }

    /** Records the tilt error and the setpoint it returns; on unit vectors both are bounded. */
    method RateSetpointFor(q: Quat, u: Vec3) returns (rate: Vec3)
      modifies `errorRoll, `errorPitch, `setpoint
      ensures rate == setpoint == RateSetpoint(kp, q, u)
      ensures Unit(q) && NormSq(u) == 1.0 ==> NormSq(rate) <= kp * kp
      ensures errorRoll == -ToBody(q, u).y && errorPitch == ToBody(q, u).x
    {
      RowsAreRotation(q, u);
      errorRoll := -UpY(q, u);
      errorPitch := UpX(q, u);
      setpoint := Vec3(kp * -UpY(q, u), kp * UpX(q, u), 0.0);
      rate := setpoint;
      if Unit(q) && NormSq(u) == 1.0 {
        SetpointIsBounded(kp, q, u);
      }
    }
  }

  // ---- leans ----

  datatype Lean = Lean(x: real, y: real)

  function LeanSq(l: Lean): real {
    l.x * l.x + l.y * l.y
  }

  /** A lean longer than allowed is shortened, its direction kept. */
  function Bounded(l: Lean, max: real, length: real): Lean
    requires IsRoot(LeanSq(l), length) && max >= 0.0
  {
    if length > max then Lean(l.x * (max / length), l.y * (max / length)) else l
  }

  /** The unit vector of a lean over a unit height. */
  function Upright(l: Lean, length: real): Vec3
    requires IsRoot(LeanSq(l) + 1.0, length)
  {
    RootIsPositive(LeanSq(l) + 1.0, length);
    var inv := 1.0 / length;
    Vec3(l.x * inv, l.y * inv, inv)
  }

  lemma RootIsPositive(x: real, root: real)
    requires IsRoot(x, root) && x > 0.0
    ensures root > 0.0
  {
  }

  lemma UprightIsUnit(l: Lean, length: real)
    requires IsRoot(LeanSq(l) + 1.0, length)
    ensures NormSq(Upright(l, length)) == 1.0 && Upright(l, length).z > 0.0
  {
    RootIsPositive(LeanSq(l) + 1.0, length);
    InverseOfRoot(l, length);
  }

  lemma InverseOfRoot(l: Lean, length: real)
    requires length > 0.0 && length * length == LeanSq(l) + 1.0
    ensures var inv := 1.0 / length; NormSq(Vec3(l.x * inv, l.y * inv, inv)) == 1.0 && inv > 0.0
  {
    var inv := 1.0 / length;
    assert inv * length == 1.0;
    Swap(inv, length, inv, length);
    Swap(l.x, inv, l.x, inv);
    Swap(l.y, inv, l.y, inv);
    assert (inv * inv) * (LeanSq(l) + 1.0) == (l.x * l.x) * (inv * inv) + (l.y * l.y) * (inv * inv) + inv * inv;
  }

  lemma BoundedIsShort(l: Lean, max: real, length: real)
    requires IsRoot(LeanSq(l), length) && max >= 0.0
    ensures LeanSq(Bounded(l, max, length)) <= max * max
  {
    if length > max {
      ShortenedTo(l, max, length);
    } else {
      SquaresCompare(max, length);
    }
  }

  lemma ShortenedTo(l: Lean, max: real, length: real)
    requires length > 0.0 && length * length == LeanSq(l)
    ensures LeanSq(Lean(l.x * (max / length), l.y * (max / length))) == max * max
  {
    var k := max / length;
    assert k * length == max;
    Swap(l.x, k, l.x, k);
    Swap(l.y, k, l.y, k);
    Swap(k, length, k, length);
    assert (k * k) * LeanSq(l) == (l.x * l.x) * (k * k) + (l.y * l.y) * (k * k);
  }

  // ---- braking ----

  /** The lean against the horizontal velocity, one g held on the vertical. */
  function BrakeLean(vx: real, vy: real): Lean {
    Lean(-BRAKE_GAIN * vx / GRAVITY, -BRAKE_GAIN * vy / GRAVITY)
  }

  /** What the platform's square root returned for the braking lean and for its upright. */
  datatype BrakeRoots = BrakeRoots(lean: real, up: real)

  function BrakeHeld(vx: real, vy: real, n: BrakeRoots): Lean
    requires IsRoot(LeanSq(BrakeLean(vx, vy)), n.lean)
  {
    Bounded(BrakeLean(vx, vy), BRAKE_TILT_MAX, n.lean)
  }

  predicate BrakeRooted(vx: real, vy: real, n: BrakeRoots) {
    IsRoot(LeanSq(BrakeLean(vx, vy)), n.lean) && IsRoot(LeanSq(BrakeHeld(vx, vy, n)) + 1.0, n.up)
  }

  function BrakeUp(vx: real, vy: real, n: BrakeRoots): Vec3
    requires BrakeRooted(vx, vy, n)
  {
    Upright(BrakeHeld(vx, vy, n), n.up)
  }

  // ---- sticks ----

  lemma SignOfProduct(a: real, k: real)
    requires k > 0.0
    ensures a * k > 0.0 <==> a > 0.0
  {
    if a > 0.0 {
      ProductPositive(a, k);
    } else if a < 0.0 {
      ProductPositive(-a, k);
      assert (-a) * k == -(a * k);
    }
  }

  lemma QuotientGrows(a: real, b: real, k: real)
    requires k > 0.0 && a <= b
    ensures a / k <= b / k
  {
    assert (b / k - a / k) * k == b - a by {
      assert (a / k) * k == a && (b / k) * k == b;
    }
    SignOfProduct(b / k - a / k, k);
  }

  lemma Cancel(s: real, k: real)
    requires k > 0.0 && s * k == k
    ensures s == 1.0
  {
    assert (s - 1.0) * k == 0.0;
  }

  lemma SelfQuotient(k: real)
    requires k > 0.0
    ensures k / k == 1.0
  {
    Cancel(k / k, k);
  }

  /** How far past the dead band, from none at its edge to all at full stick. */
  function PastBand(magnitude: real, deadband: real): (d: real)
    requires 0.0 <= deadband < 1.0 && deadband < magnitude
    ensures 0.0 < d <= 1.0 && (magnitude >= 1.0 ==> d == 1.0)
  {
    var room := 1.0 - deadband;
    var scaled := (magnitude - deadband) / room;
    assert scaled > 0.0 by {
      assert scaled * room == magnitude - deadband;
      SignOfProduct(scaled, room);
    }
    assert magnitude >= 1.0 ==> scaled >= 1.0 by {
      if magnitude >= 1.0 {
        QuotientGrows(room, magnitude - deadband, room);
        SelfQuotient(room);
      }
    }
    if scaled > 1.0 then 1.0 else scaled
  }

  lemma PastBandGrows(a: real, b: real, deadband: real)
    requires 0.0 <= deadband < 1.0 && deadband < a <= b
    ensures PastBand(a, deadband) <= PastBand(b, deadband)
  {
    QuotientGrows(a - deadband, b - deadband, 1.0 - deadband);
  }

  /** A stick past its dead band, linear up to full deflection. */
  function Deflection(stick: real, deadband: real): (d: real)
    requires 0.0 <= deadband < 1.0
    ensures -1.0 <= d <= 1.0
    ensures (d > 0.0 <==> stick > deadband) && (d < 0.0 <==> stick < -deadband)
    ensures (stick >= 1.0 ==> d == 1.0) && (stick <= -1.0 ==> d == -1.0)
  {
    if Abs(stick) <= deadband then 0.0
    else if stick < 0.0 then -PastBand(-stick, deadband)
    else PastBand(stick, deadband)
  }

  /** A stick pushed further never asks for less, and the two directions mirror each other. */
  lemma DeflectionIsMonotone(a: real, b: real, deadband: real)
    requires 0.0 <= deadband < 1.0 && a <= b
    ensures Deflection(a, deadband) <= Deflection(b, deadband)
    ensures Deflection(-a, deadband) == -Deflection(a, deadband)
  {
    if a > deadband {
      PastBandGrows(a, b, deadband);
    } else if b < -deadband {
      PastBandGrows(-b, -a, deadband);
    }
  }

  /** Past its dead band a stick is linear: nothing at the edge, all at full stick, and equal pushes count equally. */
  lemma DeflectionIsLinear(a: real, b: real, deadband: real)
    requires 0.0 <= deadband < 1.0 && deadband < a <= b <= 1.0
    ensures Deflection(a, deadband) * (1.0 - deadband) == a - deadband
    ensures (Deflection(b, deadband) - Deflection(a, deadband)) * (1.0 - deadband) == b - a
  {
    PastBandIsShare(a, deadband);
    PastBandIsShare(b, deadband);
  }

  lemma PastBandIsShare(magnitude: real, deadband: real)
    requires 0.0 <= deadband < 1.0 && deadband < magnitude <= 1.0
    ensures PastBand(magnitude, deadband) * (1.0 - deadband) == magnitude - deadband
  {
    var room := 1.0 - deadband;
    QuotientGrows(magnitude - deadband, room, room);
    SelfQuotient(room);
  }

  /** The sticks, the dead band and the tangent of the maximum tilt. */
  datatype Sticks = Sticks(pitch: real, roll: real, deadband: real, tanMax: real)

  predicate Mapped(s: Sticks) {
    0.0 <= s.deadband < 1.0 && s.tanMax >= 0.0
  }

  /** The square, not the disc: both sticks at full ask for more than the maximum. */
  function Asked(s: Sticks): Lean
    requires Mapped(s)
  {
    Lean(Deflection(s.pitch, s.deadband) * s.tanMax, Deflection(s.roll, s.deadband) * s.tanMax)
  }

  /** The lean the sticks ask for in the heading frame: forward, and left. */
  function StickLean(asked: Lean, tanMax: real, length: real): Lean
    requires IsRoot(LeanSq(asked), length) && tanMax >= 0.0
  {
    var held := Bounded(asked, tanMax, length);
    Lean(held.x, -held.y)
  }

  /** The nose on the ground. */
  function Nose(q: Quat): Lean {
    Lean(1.0 - 2.0 * (q.y * q.y + q.z * q.z), 2.0 * (q.x * q.y + q.w * q.z))
  }

  /** The direction of a nose as a cosine and a sine, or the world axes when it points straight up or down. */
  function Heading(nose: Lean, norm: real): Lean {
    if norm > MIN_HEADING_NORM then Lean(nose.x / norm, nose.y / norm) else Lean(1.0, 0.0)
  }

  function Rotated(heading: Lean, l: Lean): Lean {
    Lean(heading.x * l.x - heading.y * l.y, heading.y * l.x + heading.x * l.y)
  }

  /** What the platform's square root returned for the lean asked, the nose and the upright. */
  datatype StickRoots = StickRoots(asked: real, nose: real, up: real)

  /** The stick lean turned to where the nose points. */
  function Held(s: Sticks, q: Quat, n: StickRoots): Lean
    requires Mapped(s) && IsRoot(LeanSq(Asked(s)), n.asked)
  {
    Rotated(Heading(Nose(q), n.nose), StickLean(Asked(s), s.tanMax, n.asked))
  }

  predicate StickRooted(s: Sticks, q: Quat, n: StickRoots)
    requires Mapped(s)
  {
    && IsRoot(LeanSq(Asked(s)), n.asked) && IsRoot(LeanSq(Nose(q)), n.nose)
    && IsRoot(LeanSq(Held(s, q, n)) + 1.0, n.up)
  }

  function DesiredUp(s: Sticks, q: Quat, n: StickRoots): Vec3
    requires Mapped(s) && StickRooted(s, q, n)
  {
    Upright(Held(s, q, n), n.up)
  }

  lemma HeadingIsUnit(nose: Lean, norm: real)
    requires IsRoot(LeanSq(nose), norm)
    ensures LeanSq(Heading(nose, norm)) == 1.0
  {
    if norm > MIN_HEADING_NORM {
      Normed(nose, norm);
    }
  }

  lemma AsInverse(a: real, n: real)
    requires n > 0.0
    ensures a / n == a * (1.0 / n)
  {
  }

  lemma Normed(l: Lean, n: real)
    requires n * n == LeanSq(l) && n > 0.0
    ensures LeanSq(Lean(l.x / n, l.y / n)) == 1.0
  {
    AsInverse(l.x, n);
    AsInverse(l.y, n);
    InverseOfLength(l, n);
  }

  lemma InverseOfLength(l: Lean, n: real)
    requires n * n == LeanSq(l) && n > 0.0
    ensures var inv := 1.0 / n; LeanSq(Lean(l.x * inv, l.y * inv)) == 1.0
  {
    var inv := 1.0 / n;
    assert inv * n == 1.0;
    Swap(inv, n, inv, n);
    Swap(l.x, inv, l.x, inv);
    Swap(l.y, inv, l.y, inv);
    assert (inv * inv) * LeanSq(l) == (l.x * l.x) * (inv * inv) + (l.y * l.y) * (inv * inv);
  }

  /** Turning a lean to the heading keeps its length. */
  lemma RotatedNorm(heading: Lean, l: Lean)
    requires LeanSq(heading) == 1.0
    ensures LeanSq(Rotated(heading, l)) == LeanSq(l)
  {
    var c, s := heading.x, heading.y;
    SquareOfSum(c * l.x, s * l.y);
    SquareOfSum(s * l.x, c * l.y);
    Swap(c, l.x, c, l.x);
    Swap(s, l.y, s, l.y);
    Swap(s, l.x, s, l.x);
    Swap(c, l.y, c, l.y);
    Swap(c, l.x, s, l.y);
    Swap(s, l.x, c, l.y);
    assert (c * s) * (l.x * l.y) == (s * c) * (l.x * l.y);
    assert (c * c) * (l.x * l.x) + (s * s) * (l.x * l.x) == LeanSq(heading) * (l.x * l.x);
    assert (c * c) * (l.y * l.y) + (s * s) * (l.y * l.y) == LeanSq(heading) * (l.y * l.y);
  }

  // ---- every lean the controller is given ----

  /** The braking lean is a unit vector above the horizon, leaning no further than its maximum. */
  lemma BrakeIsGentle(vx: real, vy: real, n: BrakeRoots)
    requires BrakeRooted(vx, vy, n)
    ensures NormSq(BrakeUp(vx, vy, n)) == 1.0 && BrakeUp(vx, vy, n).z > 0.0
    ensures LeanSq(BrakeHeld(vx, vy, n)) <= Square(BRAKE_TILT_MAX)
  {
    BoundedIsShort(BrakeLean(vx, vy), BRAKE_TILT_MAX, n.lean);
    UprightIsUnit(BrakeHeld(vx, vy, n), n.up);
  }

  lemma StickLeanIsShort(asked: Lean, tanMax: real, length: real)
    requires IsRoot(LeanSq(asked), length) && tanMax >= 0.0
    ensures LeanSq(StickLean(asked, tanMax, length)) <= tanMax * tanMax
  {
    BoundedIsShort(asked, tanMax, length);
    Mirrored(Bounded(asked, tanMax, length));
  }

  lemma Mirrored(l: Lean)
    ensures LeanSq(Lean(l.x, -l.y)) == LeanSq(l)
  {
  }

  /** The lean the sticks ask for is a unit vector above the horizon, within the maximum tilt even on a diagonal. */
  lemma SticksLeanIsBounded(s: Sticks, q: Quat, n: StickRoots)
    requires Mapped(s) && StickRooted(s, q, n)
    ensures NormSq(DesiredUp(s, q, n)) == 1.0 && DesiredUp(s, q, n).z > 0.0
    ensures LeanSq(Held(s, q, n)) <= s.tanMax * s.tanMax
  {
    StickLeanIsShort(Asked(s), s.tanMax, n.asked);
    HeadingIsUnit(Nose(q), n.nose);
    RotatedNorm(Heading(Nose(q), n.nose), StickLean(Asked(s), s.tanMax, n.asked));
    UprightIsUnit(Held(s, q, n), n.up);
  }

  /** So the rates asked for while braking or by the sticks never exceed the gain. */
  lemma RatesAreBounded(kp: real, a: Attitude, vx: real, vy: real, b: BrakeRoots, s: Sticks, n: StickRoots)
    requires Valid(a) && BrakeRooted(vx, vy, b) && Mapped(s) && StickRooted(s, a.q, n)
    ensures NormSq(RateSetpoint(kp, a.q, BrakeUp(vx, vy, b))) <= kp * kp
    ensures NormSq(RateSetpoint(kp, a.q, DesiredUp(s, a.q, n))) <= kp * kp
  {
    BrakeIsGentle(vx, vy, b);
    SetpointIsBounded(kp, a.q, BrakeUp(vx, vy, b));
    SticksLeanIsBounded(s, a.q, n);
    SetpointIsBounded(kp, a.q, DesiredUp(s, a.q, n));
  }

  // ---- which way ----

  /** The rates asked for turn the body so that the desired up rises toward its own: by the gain and the square of the sine. */
  lemma SetpointTurnsToward(kp: real, q: Quat, u: Vec3, seen: Vec3, rate: Vec3)
    requires Unit(q) && NormSq(u) == 1.0 && seen == ToBody(q, u) && rate == RateSetpoint(kp, q, u)
    ensures Cross(seen, rate).z == kp * (1.0 - seen.z * seen.z) && rate.z == 0.0
    ensures Dot(seen, rate) == 0.0
  {
    RotationKeepsLength(q, u);
    RowsAreRotation(q, u);
    Toward(kp, seen.x, seen.y, seen.z, rate.x, rate.y);
  }

  lemma Toward(kp: real, x: real, y: real, z: real, rx: real, ry: real)
    requires x * x + y * y + z * z == 1.0 && rx == kp * -y && ry == kp * x
    ensures x * ry - y * rx == kp * (1.0 - z * z) && x * rx + y * ry == 0.0
  {
    SameFactor(kp, x * x + y * y, 1.0 - z * z);
    SameFactor(x, ry, kp * x);
    SameFactor(y, rx, kp * -y);
    SameFactor(x, rx, kp * -y);
    SameFactor(y, ry, kp * x);
  }

  /** How much a lean is kept of what was asked: all of it up to its maximum. */
  lemma BoundedScales(l: Lean, max: real, length: real, k: real)
    requires IsRoot(LeanSq(l), length) && max > 0.0 && k == (if length > max then max / length else 1.0)
    ensures k > 0.0 && Bounded(l, max, length) == Lean(l.x * k, l.y * k)
    ensures length > max ==> k * length == max
  {
    if length > max {
      assert k * length == max;
      SignOfProduct(k, length);
    }
  }

  /** Braking leans against the velocity, by its length over one g up to the maximum. */
  lemma BrakeOpposes(vx: real, vy: real, n: BrakeRoots, k: real, inv: real)
    requires BrakeRooted(vx, vy, n) && inv == 1.0 / n.up && k == (if n.lean > 0.36 then 0.36 / n.lean else 1.0)
    ensures k > 0.0 && inv > 0.0
    ensures BrakeHeld(vx, vy, n) == Lean(-vx / 9.80665 * k, -vy / 9.80665 * k)
    ensures BrakeUp(vx, vy, n) == Vec3(-vx / 9.80665 * k * inv, -vy / 9.80665 * k * inv, inv)
  {
    BoundedScales(BrakeLean(vx, vy), BRAKE_TILT_MAX, n.lean, k);
    UprightIsUnit(BrakeHeld(vx, vy, n), n.up);
  }

  /** The up a braking drone is asked for leans back along its path, and stands straight only at rest. */
  lemma BrakeLeansBack(vx: real, vy: real, n: BrakeRoots)
    requires BrakeRooted(vx, vy, n)
    ensures var up := BrakeUp(vx, vy, n);
      && (vx > 0.0 <==> up.x < 0.0) && (vx < 0.0 <==> up.x > 0.0)
      && (vy > 0.0 <==> up.y < 0.0) && (vy < 0.0 <==> up.y > 0.0)
      && vx * up.y == vy * up.x
  {
    var k, inv := if n.lean > 0.36 then 0.36 / n.lean else 1.0, 1.0 / n.up;
    BrakeOpposes(vx, vy, n, k, inv);
    ProductPositive(k, inv);
    Against(vx, k, inv, BrakeUp(vx, vy, n).x);
    Against(vy, k, inv, BrakeUp(vx, vy, n).y);
    AlongOnePath(vx, vy, k, inv);
  }

  lemma Against(v: real, k: real, inv: real, lean: real)
    requires k > 0.0 && inv > 0.0 && lean == -v / 9.80665 * k * inv
    ensures (v > 0.0 <==> lean < 0.0) && (v < 0.0 <==> lean > 0.0)
  {
    SignThrough(-v / 9.80665, k, inv, -v / 9.80665 * k, lean);
  }

  lemma AlongOnePath(vx: real, vy: real, k: real, inv: real)
    ensures vx * (-vy / 9.80665 * k * inv) == vy * (-vx / 9.80665 * k * inv)
  {
  }

  /** The nose is the body's forward axis seen in the world, its height left out. */
  lemma NoseIsForward(q: Quat)
    ensures Nose(q).x == ToBody(q, Vec3(1.0, 0.0, 0.0)).x && Nose(q).y == ToBody(q, Vec3(0.0, 1.0, 0.0)).x
  {
    RowsAreRotation(q, Vec3(1.0, 0.0, 0.0));
    RowsAreRotation(q, Vec3(0.0, 1.0, 0.0));
  }

  /** The heading is the direction of the nose, or the world's own axis where the nose points straight up or down. */
  lemma HeadingIsNose(nose: Lean, norm: real)
    ensures norm > 0.001 ==> Heading(nose, norm).x * norm == nose.x && Heading(nose, norm).y * norm == nose.y
    ensures norm <= 0.001 ==> Heading(nose, norm) == Lean(1.0, 0.0)
  {
  }

  /** Along the heading and to its left a turned lean is the lean itself. */
  lemma RotatedParts(heading: Lean, l: Lean)
    requires LeanSq(heading) == 1.0
    ensures var r := Rotated(heading, l);
      && r.x * heading.x + r.y * heading.y == l.x
      && r.y * heading.x - r.x * heading.y == l.y
  {
    var c, s := heading.x, heading.y;
    assert (c * c) * l.x + (s * s) * l.x == LeanSq(heading) * l.x;
    assert (c * c) * l.y + (s * s) * l.y == LeanSq(heading) * l.y;
    assert (s * l.y) * c == (c * l.y) * s && (s * l.x) * c == (c * l.x) * s;
  }

  /** Pitch past its dead band leans along the heading, and roll to its right, each with the sign of its stick. */
  lemma SticksLeanTheirWay(s: Sticks, q: Quat, n: StickRoots, heading: Lean, up: Vec3, forward: real, right: real)
    requires Mapped(s) && s.tanMax > 0.0 && StickRooted(s, q, n) && heading == Heading(Nose(q), n.nose) && up == DesiredUp(s, q, n)
    requires forward == up.x * heading.x + up.y * heading.y && right == up.x * heading.y - up.y * heading.x
    ensures (forward > 0.0 <==> s.pitch > s.deadband) && (forward < 0.0 <==> s.pitch < -s.deadband)
    ensures (right > 0.0 <==> s.roll > s.deadband) && (right < 0.0 <==> s.roll < -s.deadband)
  {
    var lean, inv := StickLean(Asked(s), s.tanMax, n.asked), 1.0 / n.up;
    UprightIsUnit(Held(s, q, n), n.up);
    HeadingIsUnit(Nose(q), n.nose);
    LeanShared(heading, lean, Held(s, q, n), inv, up, forward, right);
    StickSigns(s, Asked(s), n.asked, lean, inv, forward, right);
  }

  lemma StickSigns(s: Sticks, asked: Lean, length: real, lean: Lean, inv: real, forward: real, right: real)
    requires Mapped(s) && s.tanMax > 0.0 && asked == Asked(s) && IsRoot(LeanSq(asked), length)
    requires lean == StickLean(asked, s.tanMax, length) && inv > 0.0 && forward == lean.x * inv && right == -lean.y * inv
    ensures (forward > 0.0 <==> s.pitch > s.deadband) && (forward < 0.0 <==> s.pitch < -s.deadband)
    ensures (right > 0.0 <==> s.roll > s.deadband) && (right < 0.0 <==> s.roll < -s.deadband)
  {
    SignsAlong(asked, s.tanMax, length, lean, inv, forward, right);
    AskedSigns(s);
  }

  lemma SignsAlong(asked: Lean, max: real, length: real, lean: Lean, inv: real, forward: real, right: real)
    requires IsRoot(LeanSq(asked), length) && max > 0.0 && lean == StickLean(asked, max, length)
    requires inv > 0.0 && forward == lean.x * inv && right == -lean.y * inv
    ensures (forward > 0.0 <==> asked.x > 0.0) && (forward < 0.0 <==> asked.x < 0.0)
    ensures (right > 0.0 <==> asked.y > 0.0) && (right < 0.0 <==> asked.y < 0.0)
  {
    var k := if length > max then max / length else 1.0;
    BoundedScales(asked, max, length, k);
    SignThrough(asked.x, k, inv, lean.x, forward);
    SignThrough(asked.y, k, inv, -lean.y, right);
  }

  lemma AskedSigns(s: Sticks)
    requires Mapped(s) && s.tanMax > 0.0
    ensures (Asked(s).x > 0.0 <==> s.pitch > s.deadband) && (Asked(s).x < 0.0 <==> s.pitch < -s.deadband)
    ensures (Asked(s).y > 0.0 <==> s.roll > s.deadband) && (Asked(s).y < 0.0 <==> s.roll < -s.deadband)
  {
    SignsOfProduct(Deflection(s.pitch, s.deadband), s.tanMax);
    SignsOfProduct(Deflection(s.roll, s.deadband), s.tanMax);
  }

  lemma SignsOfProduct(a: real, k: real)
    requires k > 0.0
    ensures (a * k > 0.0 <==> a > 0.0) && (a * k < 0.0 <==> a < 0.0)
  {
    SignOfProduct(a, k);
    SignOfProduct(-a, k);
  }

  lemma LeanShared(heading: Lean, lean: Lean, held: Lean, inv: real, up: Vec3, forward: real, right: real)
    requires LeanSq(heading) == 1.0 && held == Rotated(heading, lean) && up == Vec3(held.x * inv, held.y * inv, inv)
    requires forward == up.x * heading.x + up.y * heading.y && right == up.x * heading.y - up.y * heading.x
    ensures forward == lean.x * inv && right == -lean.y * inv
  {
    RotatedParts(heading, lean);
    Shared(held.x, held.y, heading.x, heading.y, inv, up.x, up.y, forward, right, lean.x, lean.y);
  }

  lemma Shared(x: real, y: real, c: real, s: real, inv: real, ux: real, uy: real, forward: real, right: real, lx: real, ly: real)
    requires ux == x * inv && uy == y * inv && forward == ux * c + uy * s && right == ux * s - uy * c
    requires x * c + y * s == lx && y * c - x * s == ly
    ensures forward == lx * inv && right == -ly * inv
  {
    assert (x * c + y * s) * inv == forward;
    assert (y * c - x * s) * inv == -right;
  }

  lemma SignThrough(asked: real, k: real, inv: real, lean: real, share: real)
    requires k > 0.0 && inv > 0.0 && lean == asked * k && share == lean * inv
    ensures (share > 0.0 <==> asked > 0.0) && (share < 0.0 <==> asked < 0.0)
  {
    SignsOfProduct(asked, k);
    SignsOfProduct(lean, inv);
  }
}
