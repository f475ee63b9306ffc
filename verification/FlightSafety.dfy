/**
 * Motor safety over every sequence of frames, killed, stale, garbled and IMU-less ones included:
 * what the commands can be, when they can be other than zero, how long they may run blind.
 */
module FlightSafety {
  import opened Bytes
  import opened Mixer
  import opened FlightMachine

  predicate Safe(c: Core) {
    && InRange(c.motors)
    && (Grounded(c.phase) ==> c.motors == OFF)
    && (Running(c.motors) ==> c.blind < IMU_FAULT_FRAMES)
    && Captured(c.reference)
  }

  predicate Captured(r: Reference) {
    r.ready ==> r.count >= REFERENCE_SAMPLES
  }

  lemma AdvanceKeeps(c: Core, f: Frame, e: Env)
    ensures var after := Advance(c, f, e);
      after.blind == c.blind && after.reference == c.reference && after.detector == c.detector && after.clock == c.clock
  {
  }

  lemma ControlIsSafe(c: Core, f: Frame, e: Env)
    requires c.blind == 0 && Captured(c.reference)
    ensures Safe(Control(c, f, e))
  {
  }

  lemma LiveIsSafe(c: Core, f: Frame, e: Env)
    requires Captured(c.reference)
    ensures Safe(StepLive(c, f, e))
  {
    var seen := Estimate(c.(clock := Some(f.time), blind := 0), f, e);
    AdvanceKeeps(seen, f, e);
    ControlIsSafe(Advance(seen, f, e), f, e);
  }

  lemma KilledIsSafe(c: Core, f: Frame, e: Env)
    requires Safe(c)
    ensures Safe(StepKilled(c, f, e)) && StepKilled(c, f, e).motors == OFF
  {
  }

  lemma BlindIsSafe(c: Core, f: Frame)
    requires Safe(c)
    ensures Safe(StepWithoutImu(c, f))
  {
  }

  lemma StepKeepsSafe(c: Core, f: Frame, e: Env)
    requires Safe(c)
    ensures Safe(Step(c, f, e).core) && Step(c, f, e).published == Step(c, f, e).core.motors
  {
    if f.rc.kill {
      KilledIsSafe(c, f, e);
    } else if Live(c, f) {
      LiveIsSafe(c, f, e);
    } else if Taken(c, f) {
      BlindIsSafe(c.(clock := Some(f.time)), f);
    }
  }

  lemma {:induction false} RunsAreSafe(r: Flight, i: nat)
    requires Run(r) && i < |r.states|
    ensures Safe(r.states[i])
  {
    if i > 0 {
      RunsAreSafe(r, i - 1);
      assert Turns(r, i - 1);
      StepKeepsSafe(r.states[i - 1], r.frames[i - 1], r.envs[i - 1]);
    }
  }

  /**
   * At every step of every run: the commands published are the ones held, they lie in [0, 1], and
   * in every phase but the flying ones they are zero.
   */
  lemma MotorsAreSafe(r: Flight, i: nat)
    requires Run(r) && i < |r.frames|
    ensures var after := r.states[i + 1];
      && Step(r.states[i], r.frames[i], r.envs[i]).published == after.motors
      && InRange(after.motors)
      && (Grounded(after.phase) ==> after.motors == OFF)
      && (r.frames[i].rc.kill ==> after.motors == OFF && after.phase.Idle?)
  {
    RunsAreSafe(r, i);
    assert Turns(r, i);
    StepKeepsSafe(r.states[i], r.frames[i], r.envs[i]);
  }

  // ---- the way out of IDLE ----

  /** Frame i is one the reference may be captured from. */
  predicate AtRest(r: Flight, i: nat) {
    i < |r.frames| && i < |r.states| && Measured(r.states[i], r.frames[i]) && Plausible(r.frames[i]) && Resting(r.frames[i])
  }

  function RestsBefore(r: Flight, n: nat): nat {
    if n == 0 then 0 else RestsBefore(r, n - 1) + (if AtRest(r, n - 1) then 1 else 0)
  }

  lemma StepCaptures(c: Core, f: Frame, e: Env)
    ensures Step(c, f, e).core.reference
         == (if Measured(c, f) then Capture(c.reference, f) else c.reference)
  {
  }

  /** The reference is captured from the frames at rest, and ready exactly once fifty were measured. */
  lemma {:induction false} CapturedAtRest(r: Flight, n: nat)
    requires Run(r) && n < |r.states|
    ensures r.states[n].reference.count <= RestsBefore(r, n)
    ensures !r.states[n].reference.ready ==> r.states[n].reference.count == RestsBefore(r, n)
    ensures r.states[n].reference.ready <==> RestsBefore(r, n) >= 50
  {
    if n > 0 {
      CapturedAtRest(r, n - 1);
      assert Turns(r, n - 1);
      StepCaptures(r.states[n - 1], r.frames[n - 1], r.envs[n - 1]);
    }
  }

  /** The frame may take the machine out of IDLE: live, armed, barometer fresh, and the stick where the mode wants it. */
  predicate OpensGate(c: Core, f: Frame) {
    && Live(c, f) && f.rc.arm && f.baroValid
    && var sticks := ReadSticks(c.sticks, f.rc.throttle);
       if f.rc.mode.AutoMode? then sticks.centered else sticks.down
  }

  lemma OnlyTheGateLeavesIdle(c: Core, f: Frame, e: Env)
    requires Safe(c) && c.phase.Idle?
    ensures var after := Step(c, f, e).core;
      && (!after.phase.Idle? <==> OpensGate(c, f) && after.reference.ready)
      && (!after.phase.Idle? ==> after.mission.mode == f.rc.mode)
  {
  }

  /** The frame that last took the machine out of IDLE. */
  lemma {:induction false} LastExit(r: Flight, i: nat) returns (m: nat)
    requires Run(r) && i < |r.states| && !r.states[i].phase.Idle?
    ensures m < i && r.states[m].phase.Idle? && OpensGate(r.states[m], r.frames[m]) && r.states[m + 1].reference.ready
    ensures forall j | m < j <= i :: !r.states[j].phase.Idle?
    ensures r.states[m + 1].mission.mode == r.frames[m].rc.mode
  {
    assert i > 0;
    m := i - 1;
    assert Turns(r, m);
    RunsAreSafe(r, m);
    if r.states[m].phase.Idle? {
      OnlyTheGateLeavesIdle(r.states[m], r.frames[m], r.envs[m]);
    } else {
      m := LastExit(r, i - 1);
    }
  }

  /**
   * A command other than zero comes after an exit from IDLE on an armed, live frame through its
   * mode's interlock, with no return to IDLE since, and after at least fifty measured frames at
   * rest under a plausible pressure.
   */
  lemma PowerWasArmed(r: Flight, i: nat) returns (m: nat)
    requires Run(r) && i < |r.states| && r.states[i].motors != OFF
    ensures m < i && r.states[m].phase.Idle? && OpensGate(r.states[m], r.frames[m])
    ensures forall j | m < j <= i :: !r.states[j].phase.Idle?
    ensures RestsBefore(r, m + 1) >= REFERENCE_SAMPLES
  {
    RunsAreSafe(r, i);
    m := LastExit(r, i);
    RunsAreSafe(r, m + 1);
    CapturedAtRest(r, m + 1);
  }

  // ---- blind flight ----

  /** Taken frames without an IMU among the frames from m up to n. */
  function BlindFrames(r: Flight, m: nat, n: nat): nat
    decreases n
  {
    if n <= m then 0
    else BlindFrames(r, m, n - 1)
         + (if n - 1 < |r.frames| && n - 1 < |r.states| && Taken(r.states[n - 1], r.frames[n - 1]) && !r.frames[n - 1].imuValid
            then 1 else 0)
  }

  /** Motors that run after a frame that is not live ran before it, and it was not a kill; a blind frame was counted. */
  lemma HeldCommand(c: Core, f: Frame, e: Env)
    requires !Live(c, f) && Step(c, f, e).core.motors != OFF
    ensures !f.rc.kill && c.motors == Step(c, f, e).core.motors
    ensures Step(c, f, e).core.blind == c.blind + (if Taken(c, f) then 1 else 0)
  {
  }

  lemma LiveSees(c: Core, f: Frame, e: Env)
    requires Live(c, f)
    ensures Step(c, f, e).core.blind == 0
  {
  }

  /**
   * Whenever a command is not zero, it was computed at some live frame, has been held unchanged
   * since through no kill and no other live frame, and fewer than ten frames taken since had no IMU.
   */
  lemma {:induction false} BlindFlightIsShort(r: Flight, i: nat) returns (m: nat)
    requires Run(r) && i < |r.states| && r.states[i].motors != OFF
    ensures m < i && Live(r.states[m], r.frames[m])
    ensures forall j | m < j < i :: !Live(r.states[j], r.frames[j]) && !r.frames[j].rc.kill
    ensures forall j | m < j <= i :: r.states[j].motors == r.states[i].motors
    ensures BlindFrames(r, m + 1, i) == r.states[i].blind < IMU_FAULT_FRAMES
  {
    RunsAreSafe(r, i);
    assert Nonzero(r.states[i].motors);
    assert i > 0;
    m := i - 1;
    assert Turns(r, m);
    if Live(r.states[m], r.frames[m]) {
      LiveSees(r.states[m], r.frames[m], r.envs[m]);
    } else {
      HeldCommand(r.states[m], r.frames[m], r.envs[m]);
      m := BlindFlightIsShort(r, i - 1);
    }
  }

  predicate Nonzero(m: Motors) {
    InRange(m) && m != OFF ==> Running(m)
  }

  // ---- latches ----

  /** FAULT is left exactly by the kill switch. */
  lemma FaultStep(c: Core, f: Frame, e: Env)
    requires Safe(c) && c.phase.Fault?
    ensures Step(c, f, e).core.phase == (if f.rc.kill then Idle else Fault)
  {
  }

  /** CUTOFF is left exactly by a kill or by a taken frame that is disarmed. */
  lemma CutoffStep(c: Core, f: Frame, e: Env)
    requires Safe(c) && c.phase.Cutoff?
    ensures Step(c, f, e).core.phase == (if f.rc.kill || (Taken(c, f) && !f.rc.arm) then Idle else Cutoff)
  {
  }

  lemma {:induction false} FaultIsLatched(r: Flight, i: nat, j: nat)
    requires Run(r) && i <= j < |r.states| && r.states[i].phase.Fault?
    requires forall k | i <= k < j :: !r.frames[k].rc.kill
    ensures r.states[j].phase.Fault? && r.states[j].motors == OFF
  {
    RunsAreSafe(r, j);
    if i < j {
      FaultIsLatched(r, i, j - 1);
      RunsAreSafe(r, j - 1);
      assert Turns(r, j - 1);
      FaultStep(r.states[j - 1], r.frames[j - 1], r.envs[j - 1]);
    }
  }

  lemma {:induction false} CutoffIsLatched(r: Flight, i: nat, j: nat)
    requires Run(r) && i <= j < |r.states| && r.states[i].phase.Cutoff?
    requires forall k | i <= k < j :: !r.frames[k].rc.kill && (Taken(r.states[k], r.frames[k]) ==> r.frames[k].rc.arm)
    ensures r.states[j].phase.Cutoff? && r.states[j].motors == OFF
  {
    RunsAreSafe(r, j);
    if i < j {
      CutoffIsLatched(r, i, j - 1);
      RunsAreSafe(r, j - 1);
      assert Turns(r, j - 1);
      CutoffStep(r.states[j - 1], r.frames[j - 1], r.envs[j - 1]);
    }
  }
}
