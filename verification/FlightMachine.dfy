/**
 * The flight core as a function of its state and one sensor frame. What the estimators and the
 * controllers compute enters as arbitrary reals: everything proved holds whatever they say.
 */
module FlightMachine {
  import opened Bytes
  import opened Physics
  import opened Mixer
  import T = ThrowDetector

  const STICK_DOWN: real := 0.05
  const STICK_UP: real := 0.10
  const STICK_CENTER: real := 0.5
  const CENTER_DEADBAND: real := 0.05
  const CENTER_RELEASE: real := 0.08
  const IMU_FAULT_FRAMES: nat := 10
  const CUTOFF_ACCEL: real := 8.0 * GRAVITY
  const CUTOFF_GYRO: real := 30.0
  const CUTOFF_MIN_UP: real := 0.26
  const TILT_CONFIRM: nat := 300_000
  const SPINUP_LEAD: nat := 100_000
  const RECOVERED_MIN_UP: real := 0.9
  const RECOVERY_TIMEOUT: nat := 2_000_000
  const RECOVERY_MIN_COLLECTIVE: real := 0.3
  const BRAKE_DONE: real := 0.15
  const BRAKE_WINDOW: nat := 4_000_000
  const REFERENCE_SAMPLES: nat := 50
  const REFERENCE_ACCEL_GATE: real := 1.0
  const REFERENCE_GYRO_QUIET: real := 1.5
  const MIN_PLAUSIBLE: real := 30_000.0
  const MAX_PLAUSIBLE: real := 110_000.0

  datatype PilotMode = ManualMode | AutoMode | LevelMode

  datatype Phase = Idle | AltitudeAuto | Armed | Ballistic | Recovery | Hover | Cutoff | Manual | Fault | Level

  datatype Rc = Rc(kill: bool, arm: bool, mode: PilotMode, throttle: real)

  /**
   * A sensor frame, with the squared norms of its accel and gyro; `finite` says that no float of
   * it is a NaN or an infinity.
   */
  datatype Frame = Frame(time: nat, finite: bool, imuValid: bool, baroValid: bool, spinSq: real, forceSq: real, baro: real, rc: Rc)

  /**
   * What the estimators say after this frame (the up axis, the vertical state, the squared
   * horizontal speed), and what the loops then ask for: the vertical loop's collective, the hover
   * collective scaled by the up axis, and the torques.
   */
  datatype Env = Env(upZ: real, velocity: real, altitude: real, driftSq: real, collective: real, scaled: real, torque: Vec3)

  datatype Sticks = Sticks(centered: bool, down: bool)
  datatype Tilt = Tilt(exceeded: bool, since: nat)
  datatype Reference = Reference(count: nat, ready: bool)
  datatype Mission = Mission(mode: PilotMode, takeover: bool, handled: nat, recoveryStart: nat, hoverStart: nat, brakeDone: bool)

  datatype Core = Core(phase: Phase, sticks: Sticks, mission: Mission, tilt: Tilt, blind: nat, motors: Motors,
                       reference: Reference, detector: T.Detector, clock: Option<nat>)

  const POWER_ON := Core(Idle, Sticks(false, true), Mission(ManualMode, false, 0, 0, 0, false), Tilt(false, 0), 0, OFF,
                         Reference(0, false), T.FRESH, None)

  /** The state after a step and the commands it published. */
  datatype Out = Out(core: Core, published: Motors)

  // ---- estimation, as far as the phases depend on it ----

  predicate Accepts(c: Core, time: nat) {
    c.clock.None? || time > c.clock.value
  }

  predicate Plausible(f: Frame) {
    f.baroValid && MIN_PLAUSIBLE <= f.baro <= MAX_PLAUSIBLE
  }

  predicate Resting(f: Frame) {
    && Square(GRAVITY - REFERENCE_ACCEL_GATE) < f.forceSq < Square(GRAVITY + REFERENCE_ACCEL_GATE)
    && f.spinSq < Square(REFERENCE_GYRO_QUIET)
  }

  function Capture(r: Reference, f: Frame): Reference {
    if r.ready || !Plausible(f) || !Resting(f) then r
    else Reference(r.count + 1, r.count + 1 >= REFERENCE_SAMPLES)
  }

  function Estimate(c: Core, f: Frame, e: Env): Core {
    c.(reference := Capture(c.reference, f), detector := T.Update(c.detector, T.Sample(f.time, f.forceSq, e.velocity, e.altitude)))
  }

  // ---- cutoffs ----

  predicate Impact(f: Frame) {
    f.forceSq > Square(CUTOFF_ACCEL)
  }

  predicate Saturated(f: Frame) {
    f.spinSq > Square(CUTOFF_GYRO)
  }

  datatype Check = Check(tilt: Tilt, tripped: bool)

  /** Advances the streak of excessive tilt by one frame. */
  function CheckTilt(t: Tilt, upZ: real, now: nat): Check {
    if upZ >= CUTOFF_MIN_UP then Check(t.(exceeded := false), false)
    else if !t.exceeded then Check(Tilt(true, now), false)
    else Check(t, now - t.since >= TILT_CONFIRM)
  }

  function CheckCutoff(t: Tilt, f: Frame, upZ: real): Check {
    if Impact(f) || Saturated(f) then Check(t, true) else CheckTilt(t, upZ, f.time)
  }

  // ---- phases ----

  /** Both latches, with their hysteresis. */
  function ReadSticks(s: Sticks, throttle: real): Sticks {
    var off := Abs(throttle - STICK_CENTER);
    Sticks(if off <= CENTER_DEADBAND then true else if off > CENTER_RELEASE then false else s.centered,
           if throttle < STICK_DOWN then true else if throttle > STICK_UP then false else s.down)
  }

  function ResetMission(c: Core): Core {
    c.(phase := Idle, tilt := c.tilt.(exceeded := false),
       mission := c.mission.(brakeDone := false, mode := ManualMode, takeover := false))
  }

  function LeaveIdle(c: Core, f: Frame, e: Env): Core {
    if !c.reference.ready || !f.baroValid || !f.rc.arm then c
    else if !f.rc.mode.AutoMode? && c.sticks.down then
      var check := CheckCutoff(c.tilt, f, e.upZ);
      c.(mission := c.mission.(mode := f.rc.mode), tilt := check.tilt,
         phase := if check.tripped then Cutoff else if f.rc.mode.LevelMode? then Level else Manual)
    else if f.rc.mode.AutoMode? && c.sticks.centered then
      c.(mission := c.mission.(mode := AutoMode, handled := c.detector.count), phase := Armed)
    else c
  }

  /** Piloted flight: cut on impact, saturated rates or sustained tilt. */
  function Pilot(c: Core, f: Frame, e: Env): Core {
    var check := CheckCutoff(c.tilt, f, e.upZ);
    c.(tilt := check.tilt, phase := if check.tripped then Cutoff else c.phase)
  }

  function Await(c: Core): Core {
    if c.detector.count > c.mission.handled then c.(phase := Ballistic, mission := c.mission.(handled := c.detector.count))
    else c
  }

  function Coast(c: Core, f: Frame): Core {
    if Saturated(f) then c.(phase := Cutoff)
    else if !c.detector.state.Ballistic? then c.(phase := Armed)
    else if f.time + SPINUP_LEAD >= c.detector.release.apexAt then
      c.(phase := Recovery, mission := c.mission.(recoveryStart := f.time))
    else c
  }

  function Recover(c: Core, f: Frame, e: Env): Core {
    if Impact(f) || Saturated(f) || f.time - c.mission.recoveryStart > RECOVERY_TIMEOUT then c.(phase := Cutoff)
    else if e.upZ >= RECOVERED_MIN_UP then
      c.(phase := Hover, mission := c.mission.(hoverStart := f.time, brakeDone := false, takeover := false))
    else c
  }

  function Hold(c: Core, f: Frame, e: Env): Core {
    var check := CheckCutoff(c.tilt, f, e.upZ);
    var checked := c.(tilt := check.tilt);
    if check.tripped then checked.(phase := Cutoff)
    else if c.sticks.centered then checked.(mission := c.mission.(takeover := true))
    else if c.mission.takeover then checked.(phase := AltitudeAuto)
    else checked
  }

  /** A phase other than IDLE and FAULT, while the arm switch is on. */
  function AdvanceArmed(c: Core, f: Frame, e: Env): Core {
    match c.phase
    case Armed => Await(c)
    case Ballistic => Coast(c, f)
    case Recovery => Recover(c, f, e)
    case Hover => Hold(c, f, e)
    case Cutoff => c
    case _ => Pilot(c, f, e)
  }

  function Advance(before: Core, f: Frame, e: Env): Core {
    var c := before.(sticks := ReadSticks(before.sticks, f.rc.throttle));
    if c.phase.Idle? then LeaveIdle(c, f, e)
    else if c.phase.Fault? then c
    else if !f.rc.arm then c.(phase := Idle)
    else AdvanceArmed(c, f, e)
  }

  // ---- control ----

  predicate Grounded(p: Phase) {
    p.Idle? || p.Armed? || p.Ballistic? || p.Cutoff? || p.Fault?
  }

  predicate BrakeSpent(c: Core, f: Frame, e: Env) {
    e.driftSq < Square(BRAKE_DONE) || f.time - c.mission.hoverStart >= BRAKE_WINDOW
  }

  function Control(c: Core, f: Frame, e: Env): Core {
    match c.phase
    case Recovery =>
      c.(motors := Mix(if e.scaled < RECOVERY_MIN_COLLECTIVE then RECOVERY_MIN_COLLECTIVE else e.scaled, e.torque))
    case Hover =>
      c.(mission := c.mission.(brakeDone := c.mission.brakeDone || BrakeSpent(c, f, e)), motors := Mix(e.collective, e.torque))
    case AltitudeAuto => c.(motors := Mix(e.collective, e.torque))
    case Manual => c.(motors := if f.rc.throttle <= 0.0 then OFF else Mix(f.rc.throttle, e.torque))
    case Level => c.(motors := if f.rc.throttle <= 0.0 then OFF else Mix(f.rc.throttle, e.torque))
    case _ => c.(motors := OFF, tilt := c.tilt.(exceeded := false))
  }

  // ---- one step ----

  predicate Running(m: Motors) {
    m.rearRight > 0.0 || m.frontRight > 0.0 || m.rearLeft > 0.0 || m.frontLeft > 0.0
  }

  function StepWithoutImu(before: Core, f: Frame): Core {
    var c := before.(blind := before.blind + 1);
    if Running(c.motors) && c.blind >= IMU_FAULT_FRAMES then c.(phase := Fault, motors := OFF)
    else if !Running(c.motors) && !f.rc.arm && !c.phase.Fault? then ResetMission(c)
    else c
  }

  function StepKilled(before: Core, f: Frame, e: Env): Core {
    var c := before.(motors := OFF);
    var tracked := if !f.finite || !Accepts(c, f.time) then c
                   else if f.imuValid then Estimate(c.(clock := Some(f.time)), f, e)
                   else c.(clock := Some(f.time));
    ResetMission(tracked)
  }

  function StepLive(c: Core, f: Frame, e: Env): Core {
    Control(Advance(Estimate(c.(clock := Some(f.time), blind := 0), f, e), f, e), f, e)
  }

  function Step(c: Core, f: Frame, e: Env): Out {
    if f.rc.kill then Out(StepKilled(c, f, e), OFF)
    else if !f.finite || !Accepts(c, f.time) then Out(c, c.motors)
    else
      var after := if f.imuValid then StepLive(c, f, e) else StepWithoutImu(c.(clock := Some(f.time)), f);
      Out(after, after.motors)
  }

  // ---- kinds of frames ----

  /** Neither rejected nor killed: the frame moves the machine. */
  predicate Taken(c: Core, f: Frame) {
    !f.rc.kill && f.finite && Accepts(c, f.time)
  }

  /** Taken, with a valid IMU: estimation, phases and control all run. */
  predicate Live(c: Core, f: Frame) {
    Taken(c, f) && f.imuValid
  }

  /** Finite, in order and with a valid IMU, killed or not: the estimators run on it. */
  predicate Measured(c: Core, f: Frame) {
    f.finite && Accepts(c, f.time) && f.imuValid
  }

  // ---- runs ----

  /** One step per frame, from power on. */
  datatype Flight = Flight(frames: seq<Frame>, envs: seq<Env>, states: seq<Core>)

  predicate Turns(r: Flight, i: nat) {
    i < |r.frames| && i < |r.envs| && i + 1 < |r.states| ==> r.states[i + 1] == Step(r.states[i], r.frames[i], r.envs[i]).core
  }

  ghost predicate Run(r: Flight) {
    && |r.envs| == |r.frames| && |r.states| == |r.frames| + 1
    && r.states[0] == POWER_ON
    && forall i: nat {:trigger Turns(r, i)} :: Turns(r, i)
  }
}
