/**
 * What the motors are told in flight, and exactly which frame leads to which phase: the commands carry
 * the collective and the torques each phase asks for, and a throw that is confirmed is flown.
 */
module FlightMotors {
  import opened Bytes
  import opened Physics
  import opened Mixer
  import opened FlightMachine
  import opened FlightSafety
  import opened FlightLaunch

  // ---- the commands ----

  /** The collective each flying phase asks for: the stick's own, the vertical loop's, or the hover's scaled by the tilt over a floor. */
  function Collective(phase: Phase, f: Frame, e: Env): real {
    match phase
    case Manual => f.rc.throttle
    case Level => f.rc.throttle
    case Recovery => if e.scaled > RECOVERY_MIN_COLLECTIVE then e.scaled else RECOVERY_MIN_COLLECTIVE
    case _ => e.collective
  }

  /** Flying by the stick, with the stick all the way down. */
  predicate Stopped(phase: Phase, f: Frame) {
    (phase.Manual? || phase.Level?) && f.rc.throttle <= 0.0
  }

  /** The commands add up to what was asked for exactly if none had to be clamped. */
  predicate Carries(m: Motors, collective: real, torque: Vec3) {
    Unmix(m) == (collective, torque) <==> Unclamped(collective, torque)
  }

  lemma ControlCarries(c: Core, f: Frame, e: Env)
    requires !Grounded(c.phase)
    ensures var motors := Control(c, f, e).motors;
      if Stopped(c.phase, f) then motors == OFF else motors == Mix(Collective(c.phase, f, e), e.torque)
  {
  }

  lemma MixCarries(m: Motors, collective: real, torque: Vec3)
    requires m == Mix(collective, torque)
    ensures Carries(m, collective, torque)
  {
    MixLosesNothingUnlessClamped(collective, torque);
  }

  lemma StepPublishes(c: Core, f: Frame, e: Env)
    requires Live(c, f) && !Grounded(Step(c, f, e).core.phase)
    ensures var out := Step(c, f, e);
      && out.published == out.core.motors
      && out.published == if Stopped(out.core.phase, f) then OFF else Mix(Collective(out.core.phase, f, e), e.torque)
  {
    var seen := Seen(c, f, e);
    ControlKeepsPhase(Advance(seen, f, e), f, e);
    ControlCarries(Advance(seen, f, e), f, e);
  }

  /**
   * The commands published on a live frame that leaves the drone flying carry the collective of its
   * phase and the torques of the rate loop, exactly unless one is clamped; with the stick all the way
   * down in stick flight they are zero.
   */
  lemma CommandsCarry(c: Core, f: Frame, e: Env, phase: Phase, published: Motors)
    requires Live(c, f) && phase == Step(c, f, e).core.phase && published == Step(c, f, e).published && !Grounded(phase)
    ensures published == Step(c, f, e).core.motors
    ensures if Stopped(phase, f) then published == OFF else Carries(published, Collective(phase, f, e), e.torque)
  {
    StepPublishes(c, f, e);
    if !Stopped(phase, f) {
      MixCarries(published, Collective(phase, f, e), e.torque);
    }
  }

  /** More stick never means less thrust. */
  lemma MoreStickMoreThrust(low: real, high: real, torque: Vec3)
    requires low <= high
    ensures var a, b := Mix(low, torque), Mix(high, torque);
      a.rearRight <= b.rearRight && a.frontRight <= b.frontRight && a.rearLeft <= b.rearLeft && a.frontLeft <= b.frontLeft
  {
  }

  // ---- braking ----

  /** The braking of a hover ends once the drift is spent or its window is over, and does not come back in that hover. */
  lemma BrakeIsOneShot(c: Core, f: Frame, e: Env)
    requires Live(c, f) && c.phase.Hover? && Step(c, f, e).core.phase.Hover?
    ensures var after := Step(c, f, e).core;
      && after.mission.hoverStart == c.mission.hoverStart
      && (after.mission.brakeDone <==>
            c.mission.brakeDone || e.driftSq < Square(BRAKE_DONE) || f.time - c.mission.hoverStart >= BRAKE_WINDOW)
  {
  }

  // ---- exactly which frame leads where ----

  /** The detector after the frame, and what the tilt check makes of it. */
  function DetectorAfter(c: Core, f: Frame, e: Env): T.Detector {
    T.Update(c.detector, T.Sample(f.time, f.forceSq, e.velocity, e.altitude))
  }

  predicate TiltTrips(c: Core, f: Frame, e: Env) {
    c.tilt.exceeded && e.upZ < CUTOFF_MIN_UP && f.time - c.tilt.since >= TILT_CONFIRM
  }

  predicate Trips(c: Core, f: Frame, e: Env) {
    Impact(f) || Saturated(f) || TiltTrips(c, f, e)
  }

  /** The frame flies the phase on: live and armed. */
  predicate Flies(c: Core, f: Frame) {
    Live(c, f) && f.rc.arm
  }

  predicate Blind(c: Core, f: Frame) {
    Taken(c, f) && !f.imuValid
  }

  predicate Cuts(c: Core, f: Frame, e: Env) {
    match c.phase
    case Idle => OpensGate(c, f) && Capture(c.reference, f).ready && !f.rc.mode.AutoMode? && Trips(c, f, e)
    case Ballistic => Flies(c, f) && Saturated(f)
    case Recovery => Flies(c, f) && (Impact(f) || Saturated(f) || f.time - c.mission.recoveryStart > RECOVERY_TIMEOUT)
    case Armed => false
    case Fault => false
    case _ => Flies(c, f) && Trips(c, f, e)
  }

  /** The frame that takes the machine to a phase it was not in. */
  predicate Leads(c: Core, f: Frame, e: Env, target: Phase) {
    match target
    case Idle =>
      || f.rc.kill
      || (Live(c, f) && !f.rc.arm && !c.phase.Fault?)
      || (Blind(c, f) && !f.rc.arm && !c.phase.Fault? && !Running(c.motors))
    case Armed =>
      || (c.phase.Idle? && OpensGate(c, f) && Capture(c.reference, f).ready && f.rc.mode.AutoMode?)
      || (c.phase.Ballistic? && Flies(c, f) && !Saturated(f) && !DetectorAfter(c, f, e).state.Ballistic?)
    case Manual => c.phase.Idle? && OpensGate(c, f) && Capture(c.reference, f).ready && f.rc.mode.ManualMode? && !Trips(c, f, e)
    case Level => c.phase.Idle? && OpensGate(c, f) && Capture(c.reference, f).ready && f.rc.mode.LevelMode? && !Trips(c, f, e)
    case Ballistic => c.phase.Armed? && Flies(c, f) && DetectorAfter(c, f, e).count > c.mission.handled
    case Recovery =>
      && c.phase.Ballistic? && Flies(c, f) && !Saturated(f) && DetectorAfter(c, f, e).state.Ballistic?
      && f.time + SPINUP_LEAD >= DetectorAfter(c, f, e).release.apexAt
    case Hover =>
      && c.phase.Recovery? && Flies(c, f) && !Impact(f) && !Saturated(f)
      && f.time - c.mission.recoveryStart <= RECOVERY_TIMEOUT && e.upZ >= RECOVERED_MIN_UP
    case AltitudeAuto =>
      c.phase.Hover? && Flies(c, f) && !Trips(c, f, e) && c.mission.takeover && !ReadSticks(c.sticks, f.rc.throttle).centered
    case Cutoff => Cuts(c, f, e)
    case Fault => Blind(c, f) && Running(c.motors) && c.blind + 1 >= IMU_FAULT_FRAMES
  }

  lemma SeenIs(c: Core, f: Frame, e: Env)
    ensures Seen(c, f, e) == c.(clock := Some(f.time), blind := 0, reference := Capture(c.reference, f), detector := DetectorAfter(c, f, e))
  {
  }

  lemma LiveLeadsExactly(c: Core, f: Frame, e: Env, target: Phase)
    requires Live(c, f) && c.phase != target
    ensures Step(c, f, e).core.phase == target <==> Leads(c, f, e, target)
  {
    SeenIs(c, f, e);
    ControlKeepsPhase(Advance(Seen(c, f, e), f, e), f, e);
    AdvanceLeadsExactly(c, Seen(c, f, e), f, e, target);
  }

  lemma AdvanceLeadsExactly(c: Core, seen: Core, f: Frame, e: Env, target: Phase)
    requires Live(c, f) && c.phase != target
    requires seen == c.(clock := Some(f.time), blind := 0, reference := Capture(c.reference, f), detector := DetectorAfter(c, f, e))
    ensures Advance(seen, f, e).phase == target <==> Leads(c, f, e, target)
  {
  }

  /** A phase is entered exactly by the frames that lead to it. */
  lemma LeadsExactly(c: Core, f: Frame, e: Env, target: Phase)
    requires Safe(c) && c.phase != target
    ensures Step(c, f, e).core.phase == target <==> Leads(c, f, e, target)
  {
    if Live(c, f) {
      LiveLeadsExactly(c, f, e, target);
    }
  }
}
