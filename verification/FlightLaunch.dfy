/**
 * One launch per throw: which throw each recovery flies, which gesture hands the drone to the
 * pilot, and that the mode locked on the way out of IDLE is the mode of the whole flight.
 */
module FlightLaunch {
  import opened Bytes
  import opened Physics
  import opened FlightMachine
  import opened FlightSafety

  /** While a throw is awaited or coasted through, every throw detected has been handled, and a coast is the detector's own. */
  predicate Handled(c: Core) {
    && c.mission.handled <= c.detector.count
    && (c.phase.Armed? || c.phase.Ballistic? ==> c.mission.handled == c.detector.count)
    && (c.phase.Ballistic? ==> c.detector.state.Ballistic?)
  }

  /** A frame raises the count by one at most, and only into the detector's ballistic state. */
  lemma DetectorCounts(d: T.Detector, s: T.Sample)
    ensures var after := T.Update(d, s);
      d.count <= after.count <= d.count + 1 && (after.count > d.count ==> after.state.Ballistic?)
  {
  }

  /** The mode a phase belongs to. */
  predicate ModeFits(c: Core) {
    match c.phase
    case Manual => c.mission.mode.ManualMode?
    case Level => c.mission.mode.LevelMode?
    case Idle => true
    case Cutoff => true
    case Fault => true
    case _ => c.mission.mode.AutoMode?
  }

  /** What the phase of a live frame is decided from: estimation first, then the phase. */
  function Seen(c: Core, f: Frame, e: Env): Core {
    Estimate(c.(clock := Some(f.time), blind := 0), f, e)
  }

  lemma ControlKeepsPhase(c: Core, f: Frame, e: Env)
    ensures var after := Control(c, f, e);
      && after.phase == c.phase && after.detector == c.detector && after.sticks == c.sticks
      && after.mission == c.mission.(brakeDone := after.mission.brakeDone)
  {
  }

  lemma SeenCounts(c: Core, f: Frame, e: Env)
    ensures var seen := Seen(c, f, e);
      && seen.phase == c.phase && seen.mission == c.mission && seen.sticks == c.sticks
      && c.detector.count <= seen.detector.count <= c.detector.count + 1
      && (seen.detector.count > c.detector.count ==> seen.detector.state.Ballistic?)
  {
    DetectorCounts(c.detector, T.Sample(f.time, f.forceSq, e.velocity, e.altitude));
  }

  /** From a state whose throws were handled one frame ago, the phases keep them handled. */
  lemma AdvanceHandles(c: Core, f: Frame, e: Env)
    requires c.mission.handled <= c.detector.count
    requires c.phase.Armed? && c.mission.handled < c.detector.count ==> c.detector.state.Ballistic?
    requires c.phase.Ballistic? ==> c.mission.handled == c.detector.count
    requires ModeFits(c)
    ensures var after := Advance(c, f, e); Handled(after) && ModeFits(after)
  {
  }

  lemma StepHandles(c: Core, f: Frame, e: Env)
    requires Handled(c) && ModeFits(c) && Safe(c)
    ensures Handled(Step(c, f, e).core) && ModeFits(Step(c, f, e).core)
  {
    if Live(c, f) {
      var seen := Seen(c, f, e);
      SeenCounts(c, f, e);
      BallisticCannotCount(c.detector, T.Sample(f.time, f.forceSq, e.velocity, e.altitude));
      AdvanceHandles(seen, f, e);
      ControlKeepsPhase(Advance(seen, f, e), f, e);
    } else if f.rc.kill && Measured(c, f) {
      DetectorCounts(c.detector, T.Sample(f.time, f.forceSq, e.velocity, e.altitude));
    }
  }

  /** A detector in its ballistic state detects nothing. */
  lemma BallisticCannotCount(d: T.Detector, s: T.Sample)
    ensures d.state.Ballistic? ==> T.Update(d, s).count == d.count
  {
  }

  ghost predicate Sound(c: Core) {
    Safe(c) && Handled(c) && ModeFits(c)
  }

  lemma StepKeepsSound(c: Core, f: Frame, e: Env, after: Core)
    requires Sound(c) && after == Step(c, f, e).core
    ensures Sound(after)
  {
    StepKeepsSafe(c, f, e);
    StepHandles(c, f, e);
  }

  lemma {:induction false} RunsAreSound(r: Flight, i: nat)
    requires Run(r) && i < |r.states|
    ensures Sound(r.states[i])
  {
    if i > 0 {
      RunsAreSound(r, i - 1);
      assert Turns(r, i - 1);
      StepKeepsSound(r.states[i - 1], r.frames[i - 1], r.envs[i - 1], r.states[i]);
    }
  }

  // ---- every recovery flies a throw of its own ----

  /** Frame i takes the machine into RECOVERY. */
  predicate Launches(r: Flight, i: nat) {
    i < |r.frames| && i + 1 < |r.states| && !r.states[i].phase.Recovery? && r.states[i + 1].phase.Recovery?
  }

  /** RECOVERY is entered from BALLISTIC alone, the detector still ballistic, no earlier than the spin-up lead before the apex. */
  lemma LaunchStep(c: Core, f: Frame, e: Env)
    requires Safe(c) && !c.phase.Recovery? && Step(c, f, e).core.phase.Recovery?
    ensures Live(c, f) && f.rc.arm && c.phase.Ballistic?
    ensures var after := Step(c, f, e).core;
      && after.detector.state.Ballistic? && after.mission.handled == c.mission.handled
      && f.time + SPINUP_LEAD >= after.detector.release.apexAt
  {
  }

  /** BALLISTIC is entered from ARMED alone, by a throw the frame itself confirmed. */
  lemma CoastStep(c: Core, f: Frame, e: Env)
    requires Safe(c) && Handled(c) && !c.phase.Ballistic? && Step(c, f, e).core.phase.Ballistic?
    ensures Live(c, f) && f.rc.arm && c.phase.Armed?
    ensures var after := Step(c, f, e).core;
      c.detector.count + 1 == after.detector.count == after.mission.handled && c.mission.handled < after.mission.handled
  {
    SeenCounts(c, f, e);
  }

  /** Coasting changes nothing about the throw being flown; handled counts never fall. */
  lemma HandledStep(c: Core, f: Frame, e: Env)
    requires Safe(c) && Handled(c)
    ensures var after := Step(c, f, e).core;
      && c.mission.handled <= after.mission.handled
      && (c.phase.Ballistic? && after.phase.Ballistic? ==> after.mission.handled == c.mission.handled)
  {
    SeenCounts(c, f, e);
  }

  /** A detector in its ballistic state keeps the release it is in. */
  lemma BallisticKeepsRelease(d: T.Detector, s: T.Sample)
    ensures d.state.Ballistic? ==> T.Update(d, s).release == d.release
  {
  }

  /** Through the coast, and out of it into RECOVERY, the release of the throw is kept. */
  lemma ReleaseStep(c: Core, f: Frame, e: Env)
    requires Safe(c) && Handled(c) && c.phase.Ballistic?
    requires var after := Step(c, f, e).core; after.phase.Ballistic? || after.phase.Recovery?
    ensures Step(c, f, e).core.detector.release == c.detector.release
  {
    BallisticKeepsRelease(c.detector, T.Sample(f.time, f.forceSq, e.velocity, e.altitude));
  }

  /** The frame that confirmed the throw now coasted through, seen while ARMED. */
  lemma {:induction false} ThrowConfirmed(r: Flight, i: nat) returns (m: nat)
    requires Run(r) && i < |r.states| && r.states[i].phase.Ballistic?
    ensures m < i && r.states[m].phase.Armed? && Live(r.states[m], r.frames[m])
    ensures r.states[m].detector.count + 1 == r.states[m + 1].detector.count == r.states[i].mission.handled
    ensures r.states[m + 1].detector.release == r.states[i].detector.release
    ensures forall j | m < j <= i :: r.states[j].phase.Ballistic?
  {
    assert i > 0;
    m := i - 1;
    assert Turns(r, m);
    RunsAreSafe(r, m);
    RunsAreSound(r, m);
    if r.states[m].phase.Ballistic? {
      HandledStep(r.states[m], r.frames[m], r.envs[m]);
      ReleaseStep(r.states[m], r.frames[m], r.envs[m]);
      m := ThrowConfirmed(r, i - 1);
    } else {
      CoastStep(r.states[m], r.frames[m], r.envs[m]);
    }
  }

  /** After a launch, the throws handled never fall below its own, and a later coast has a later throw. */
  lemma {:induction false} LaterThrows(r: Flight, i: nat, j: nat)
    requires Run(r) && Launches(r, i) && i < j < |r.states|
    ensures r.states[i + 1].mission.handled <= r.states[j].mission.handled
    ensures r.states[j].phase.Ballistic? ==> r.states[i + 1].mission.handled < r.states[j].mission.handled
  {
    if i + 1 < j {
      LaterThrows(r, i, j - 1);
      assert Turns(r, j - 1);
      RunsAreSafe(r, j - 1);
      RunsAreSound(r, j - 1);
      HandledStep(r.states[j - 1], r.frames[j - 1], r.envs[j - 1]);
      if r.states[j].phase.Ballistic? && !r.states[j - 1].phase.Ballistic? {
        CoastStep(r.states[j - 1], r.frames[j - 1], r.envs[j - 1]);
      }
    }
  }

  /**
   * Every entry into RECOVERY flies the throw confirmed at frame m, while ARMED and armed ever
   * since, no earlier than 100 ms before its apex.
   */
  lemma LaunchFollowsThrow(r: Flight, i: nat) returns (m: nat)
    requires Run(r) && Launches(r, i)
    ensures m < i && r.states[m].phase.Armed? && Live(r.states[m], r.frames[m])
    ensures r.states[m].detector.count + 1 == r.states[m + 1].detector.count == r.states[i + 1].mission.handled
    ensures forall j | m < j <= i :: r.states[j].phase.Ballistic?
    ensures Live(r.states[i], r.frames[i]) && r.frames[i].rc.arm
    ensures r.states[i + 1].detector.release == r.states[m + 1].detector.release
    ensures r.frames[i].time + SPINUP_LEAD >= r.states[m + 1].detector.release.apexAt
  {
    assert Turns(r, i);
    RunsAreSafe(r, i);
    RunsAreSound(r, i);
    LaunchStep(r.states[i], r.frames[i], r.envs[i]);
    ReleaseStep(r.states[i], r.frames[i], r.envs[i]);
    m := ThrowConfirmed(r, i);
  }

  /** No two launches fly the same throw. */
  lemma LaunchesAreDistinct(r: Flight, i: nat, j: nat)
    requires Run(r) && Launches(r, i) && Launches(r, j) && i < j
    ensures r.states[i + 1].mission.handled < r.states[j + 1].mission.handled
  {
    assert Turns(r, j);
    RunsAreSafe(r, j);
    LaunchStep(r.states[j], r.frames[j], r.envs[j]);
    LaterThrows(r, i, j);
  }

  // ---- the locked mode ----

  lemma ModeStep(c: Core, f: Frame, e: Env)
    requires Safe(c) && !c.phase.Idle? && !Step(c, f, e).core.phase.Idle?
    ensures Step(c, f, e).core.mission.mode == c.mission.mode
  {
    if Live(c, f) {
      AdvanceKeepsMode(Seen(c, f, e), f, e);
      ControlKeepsPhase(Advance(Seen(c, f, e), f, e), f, e);
    }
  }

  lemma AdvanceKeepsMode(c: Core, f: Frame, e: Env)
    requires !c.phase.Idle?
    ensures Advance(c, f, e).mission.mode == c.mission.mode
  {
  }

  /** Between two returns to IDLE the mode is the one the gate frame asked for, whatever the switch does since. */
  lemma {:induction false} ModeIsLocked(r: Flight, i: nat, j: nat)
    requires Run(r) && i <= j < |r.states| && forall k | i <= k <= j :: !r.states[k].phase.Idle?
    ensures r.states[j].mission.mode == r.states[i].mission.mode
  {
    if i < j {
      ModeIsLocked(r, i, j - 1);
      RunsAreSafe(r, j - 1);
      assert Turns(r, j - 1);
      ModeStep(r.states[j - 1], r.frames[j - 1], r.envs[j - 1]);
    }
  }

  // ---- taking over a hover ----

  /** ALTITUDE_AUTO is entered from HOVER alone, with the takeover earned and the stick off centre. */
  lemma TakeoverStep(c: Core, f: Frame, e: Env)
    requires Safe(c) && !c.phase.AltitudeAuto? && Step(c, f, e).core.phase.AltitudeAuto?
    ensures c.phase.Hover? && c.mission.takeover && Live(c, f) && f.rc.arm && !Step(c, f, e).core.sticks.centered
  {
  }

  /** In HOVER the takeover is earned by a live frame that reads the stick centred; entering HOVER forgets it. */
  lemma HoverStep(c: Core, f: Frame, e: Env)
    requires Safe(c) && Step(c, f, e).core.phase.Hover? && Step(c, f, e).core.mission.takeover
    ensures c.phase.Hover?
    ensures c.mission.takeover || (Live(c, f) && Step(c, f, e).core.sticks.centered)
  {
  }

  /** The frame of the present HOVER that read the stick centred. */
  lemma {:induction false} CentredInHover(r: Flight, i: nat) returns (m: nat)
    requires Run(r) && i < |r.states| && r.states[i].phase.Hover? && r.states[i].mission.takeover
    ensures m < i && Live(r.states[m], r.frames[m]) && r.states[m + 1].sticks.centered
    ensures forall j | m <= j <= i :: r.states[j].phase.Hover?
  {
    assert i > 0;
    m := i - 1;
    assert Turns(r, m);
    RunsAreSafe(r, m);
    HoverStep(r.states[m], r.frames[m], r.envs[m]);
    if r.states[m].mission.takeover {
      m := CentredInHover(r, i - 1);
    }
  }

  /** The stick counts as centred no longer only after a live frame past the release distance. */
  lemma SticksStep(c: Core, f: Frame, e: Env)
    requires c.sticks.centered && !Step(c, f, e).core.sticks.centered
    ensures Live(c, f) && Abs(f.rc.throttle - STICK_CENTER) > CENTER_RELEASE
  {
    if Live(c, f) {
      AdvanceReadsSticks(Seen(c, f, e), f, e);
      ControlKeepsPhase(Advance(Seen(c, f, e), f, e), f, e);
    }
  }

  lemma AdvanceReadsSticks(c: Core, f: Frame, e: Env)
    ensures Advance(c, f, e).sticks == ReadSticks(c.sticks, f.rc.throttle)
  {
  }

  lemma {:induction false} StickMoved(r: Flight, m: nat, i: nat) returns (k: nat)
    requires Run(r) && m < i < |r.states| && r.states[m].sticks.centered && !r.states[i].sticks.centered
    ensures m <= k < i && Live(r.states[k], r.frames[k]) && Abs(r.frames[k].rc.throttle - STICK_CENTER) > CENTER_RELEASE
  {
    k := i - 1;
    assert Turns(r, k);
    if r.states[k].sticks.centered {
      SticksStep(r.states[k], r.frames[k], r.envs[k]);
    } else {
      k := StickMoved(r, m, i - 1);
    }
  }

  /**
   * ALTITUDE_AUTO is reached only by taking over a HOVER: at frame m of that hover the stick read
   * centred, and at a later frame k it was moved off centre.
   */
  lemma TakeoverIsAGesture(r: Flight, i: nat) returns (m: nat, k: nat)
    requires Run(r) && i < |r.frames| && !r.states[i].phase.AltitudeAuto? && r.states[i + 1].phase.AltitudeAuto?
    ensures m < k <= i && forall j | m <= j <= i :: r.states[j].phase.Hover?
    ensures Live(r.states[m], r.frames[m]) && r.states[m + 1].sticks.centered
    ensures Live(r.states[k], r.frames[k]) && Abs(r.frames[k].rc.throttle - STICK_CENTER) > CENTER_RELEASE
  {
    assert Turns(r, i);
    RunsAreSafe(r, i);
    TakeoverStep(r.states[i], r.frames[i], r.envs[i]);
    m := CentredInHover(r, i);
    k := StickMoved(r, m + 1, i + 1);
  }
}
