/**
 * The attitude estimator: gated gravity correction, a clamped gyro bias, one quaternion step and
 * its normalisation. Over every run the attitude stays a unit quaternion and the bias bounded.
 */
module AttitudeEstimator {
  import opened Physics
  import opened Quaternions

  const ACCEL_GATE: real := 1.0
  const GYRO_QUIET: real := 1.5
  const BIAS_LIMIT: real := 0.05
  const KI_ERROR_GATE: real := 0.17

  /** One frame for the estimator; `correct` says whether the gravity correction is allowed. */
  datatype Reading = Reading(gyro: Vec3, accel: Vec3, dt: real, correct: bool)

  datatype Gains = Gains(kp: real, ki: real)

  datatype Attitude = Attitude(q: Quat, bias: seq<real>)

  const START := Attitude(LEVEL_ATTITUDE, [0.0, 0.0, 0.0])

  /** What the platform's square root returned for the two norms of one update. */
  datatype Norms = Norms(accel: real, step: real)

  predicate IsRoot(x: real, root: real) {
    root >= 0.0 && root * root == x
  }

  // ---- one update ----

  predicate Gated(r: Reading, norm: real) {
    r.correct && NormSq(r.gyro) < Square(GYRO_QUIET) && Abs(norm - GRAVITY) < ACCEL_GATE
  }

  /** World up as the attitude sees it from the body. */
  function UpSeen(q: Quat): Vec3 {
    Vec3(2.0 * (q.x * q.z - q.w * q.y), 2.0 * (q.w * q.x + q.y * q.z), q.w * q.w - q.x * q.x - q.y * q.y + q.z * q.z)
  }

  /** Measured up against estimated up: zero when both agree, and zero when the gate is shut. */
  function Error(q: Quat, r: Reading, norm: real): Vec3 {
    if Gated(r, norm) then Cross(Scaled(r.accel, 1.0 / norm), UpSeen(q)) else Vec3(0.0, 0.0, 0.0)
  }

  function AxisOf(v: Vec3, axis: nat): real {
    if axis == 0 then v.x else if axis == 1 then v.y else v.z
  }

  function Limited(b: real): (r: real)
    ensures -BIAS_LIMIT <= r <= BIAS_LIMIT && (-BIAS_LIMIT <= b <= BIAS_LIMIT ==> r == b)
  {
    if b > BIAS_LIMIT then BIAS_LIMIT else if b < -BIAS_LIMIT then -BIAS_LIMIT else b
  }

  predicate Learns(e: Vec3, r: Reading, norm: real) {
    Gated(r, norm) && NormSq(e) < Square(KI_ERROR_GATE)
  }

  function Nudge(e: Vec3, ki: real, dt: real, axis: nat): real {
    ki * AxisOf(e, axis) * dt
  }

  function Learnt(bias: seq<real>, e: Vec3, ki: real, dt: real): seq<real>
    requires |bias| == 3
  {
    Nudged(bias, [Nudge(e, ki, dt, 0), Nudge(e, ki, dt, 1), Nudge(e, ki, dt, 2)])
  }

  function Nudged(bias: seq<real>, nudges: seq<real>): seq<real>
    requires |bias| == |nudges|
  {
    seq(|bias|, i requires 0 <= i < |bias| => Limited(bias[i] + nudges[i]))
  }

  /** The rate integrated: measured, bias and proportional correction. */
  function Rate(gyro: Vec3, bias: seq<real>, e: Vec3, kp: real): Vec3
    requires |bias| == 3
  {
    Vec3(gyro.x + bias[0] + kp * e.x, gyro.y + bias[1] + kp * e.y, gyro.z + bias[2] + kp * e.z)
  }

  predicate Valid(a: Attitude) {
    Unit(a.q) && |a.bias| == 3 && forall i | 0 <= i < 3 :: -BIAS_LIMIT <= a.bias[i] <= BIAS_LIMIT
  }

  /** From a unit attitude the step always lengthens: the division that follows is defined. */
  lemma StepIsDivisible(q: Quat, w: Vec3, half: real, norm: real)
    requires Unit(q) && norm * norm == QuatSq(Turned(q, w, half))
    ensures QuatSq(Turned(q, w, half)) >= 1.0 && norm != 0.0
  {
    TurnedNorm(q, w, half);
    SquareNotNegative(half, NormSq(w));
  }

  lemma SquareNotNegative(half: real, n: real)
    requires n >= 0.0
    ensures half * half * n >= 0.0
  {
    assert half * half >= 0.0;
  }

  /** The bias an update integrates with: the learnt one on a gated frame of small error. */
  function BiasAfter(a: Attitude, r: Reading, g: Gains, norm: real): (bias: seq<real>)
    requires |a.bias| == 3
    ensures |bias| == 3
  {
    var e := Error(a.q, r, norm);
    if Learns(e, r, norm) then Learnt(a.bias, e, g.ki, r.dt) else a.bias
  }

  /** The attitude after one step, before it is normalised. */
  function Raw(a: Attitude, r: Reading, g: Gains, norm: real): Quat
    requires |a.bias| == 3
  {
    Turned(a.q, Rate(r.gyro, BiasAfter(a, r, g, norm), Error(a.q, r, norm), g.kp), 0.5 * r.dt)
  }

  /** The two norms are the lengths of what the update measures and of what it normalises. */
  predicate Rooted(a: Attitude, r: Reading, g: Gains, n: Norms)
    requires |a.bias| == 3
  {
    IsRoot(NormSq(r.accel), n.accel) && IsRoot(QuatSq(Raw(a, r, g, n.accel)), n.step)
  }

  lemma RawIsDivisible(a: Attitude, r: Reading, g: Gains, n: Norms)
    requires Valid(a) && Rooted(a, r, g, n)
    ensures n.step != 0.0
  {
    StepIsDivisible(a.q, Rate(r.gyro, BiasAfter(a, r, g, n.accel), Error(a.q, r, n.accel), g.kp), 0.5 * r.dt, n.step);
  }

  function Update(a: Attitude, r: Reading, g: Gains, n: Norms): Attitude
    requires Valid(a) && (r.dt > 0.0 ==> Rooted(a, r, g, n))
  {
    if r.dt <= 0.0 then a
    else
      RawIsDivisible(a, r, g, n);
      Attitude(Over(Raw(a, r, g, n.accel), n.step), BiasAfter(a, r, g, n.accel))
  }

  // ---- what every update keeps ----

  /** The attitude stays on the unit sphere and the bias within its limit. */
  lemma UpdateKeepsUnit(a: Attitude, r: Reading, g: Gains, n: Norms)
    requires Valid(a) && (r.dt > 0.0 ==> Rooted(a, r, g, n))
    ensures Valid(Update(a, r, g, n))
  {
    if r.dt > 0.0 {
      RawIsDivisible(a, r, g, n);
      OverIsUnit(Raw(a, r, g, n.accel), n.step);
    }
  }

  /** One frame of a run: what was read, the gains in force and the norms the platform computed. */
  datatype Turn = Turn(reading: Reading, gains: Gains, norms: Norms)

  /** Whatever is measured, with whatever gains, from power on. */
  ghost predicate Reached(trace: seq<Attitude>, turns: seq<Turn>) {
    && |trace| == |turns| + 1 && trace[0] == START
    && forall i: nat {:trigger Turns(trace, turns, i)} :: Turns(trace, turns, i)
  }

  ghost predicate Turns(trace: seq<Attitude>, turns: seq<Turn>, i: nat) {
    i < |turns| && i + 1 < |trace| && Valid(trace[i]) ==>
      var t := turns[i];
      && (t.reading.dt > 0.0 ==> Rooted(trace[i], t.reading, t.gains, t.norms))
      && trace[i + 1] == Update(trace[i], t.reading, t.gains, t.norms)
  }

  lemma {:induction false} AttitudeStaysUnit(trace: seq<Attitude>, turns: seq<Turn>, i: nat)
    requires Reached(trace, turns) && i < |trace|
    ensures Valid(trace[i])
  {
    if i > 0 {
      AttitudeStaysUnit(trace, turns, i - 1);
      assert Turns(trace, turns, i - 1);
      var t := turns[i - 1];
      UpdateKeepsUnit(trace[i - 1], t.reading, t.gains, t.norms);
    }
  }

  /** The bias moves only on a frame whose gate is open and whose error is small. */
  lemma BiasLearnsOnlyAtRest(a: Attitude, r: Reading, g: Gains, n: Norms)
    requires Valid(a) && (r.dt > 0.0 ==> Rooted(a, r, g, n)) && Update(a, r, g, n).bias != a.bias
    ensures r.dt > 0.0 && Gated(r, n.accel) && NormSq(Error(a.q, r, n.accel)) < Square(KI_ERROR_GATE)
  {
  }

  // ---- the estimator object ----

  class AttitudeEstimator {
    var gains: Gains
    var attitude: Quat
    const integralFb: array<real>

    ghost function State(): Attitude
      reads this, integralFb
    {
      Attitude(attitude, integralFb[..])
    }

    ghost predicate Steady()
      reads this, integralFb
    {
      integralFb.Length == 3 && Valid(State())
    }

    constructor (gains: Gains)
      ensures Steady() && State() == START && fresh(integralFb) && this.gains == gains
    {
      this.gains := gains;
      attitude := LEVEL_ATTITUDE;
      integralFb := new real[3](_ => 0.0);
      new;
      assert integralFb[..] == [0.0, 0.0, 0.0];
    }

    /** Takes the error into the bias, axis by axis, within the limit. */
    method LearnBias(nudges: seq<real>)
      requires integralFb.Length == 3 == |nudges|
      modifies integralFb
      ensures integralFb[..] == Nudged(old(integralFb[..]), nudges)
    {
      ghost var before := integralFb[..];
      var axis := 0;
      while axis < 3
        invariant 0 <= axis <= 3
        invariant forall i | 0 <= i < axis :: integralFb[i] == Nudged(before, nudges)[i]
        invariant forall i | axis <= i < 3 :: integralFb[i] == before[i]
      {
        var integral := integralFb[axis] + nudges[axis];
        integral := if integral > BIAS_LIMIT then BIAS_LIMIT else integral;
        integral := if integral < -BIAS_LIMIT then -BIAS_LIMIT else integral;
        integralFb[axis] := integral;
        axis := axis + 1;
      }
      assert integralFb[..] == Nudged(before, nudges);
    }

    method Feed(r: Reading, norms: Norms)
      requires Steady() && (r.dt > 0.0 ==> Rooted(State(), r, gains, norms))
      modifies `attitude, integralFb
      ensures Steady() && State() == Update(old(State()), r, gains, norms)
    {
      ghost var before := State();
      UpdateKeepsUnit(before, r, gains, norms);
      if r.dt <= 0.0 {
        return;
      }
      RawIsDivisible(before, r, gains, norms);
      var e := Error(attitude, r, norms.accel);
      if Learns(e, r, norms.accel) {
        LearnBias([Nudge(e, gains.ki, r.dt, 0), Nudge(e, gains.ki, r.dt, 1), Nudge(e, gains.ki, r.dt, 2)]);
      }
      assert integralFb[..] == BiasAfter(before, r, gains, norms.accel);
      attitude := Over(Turned(attitude, Rate(r.gyro, integralFb[..], e, gains.kp), 0.5 * r.dt), norms.step);
    }
  }
}
