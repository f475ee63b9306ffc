/**
 * Sustained tilt is always cut, and only sustained tilt: a stretch of flight in the tilt-guarded
 * phases that shows nothing but a tilted estimate ends in CUTOFF exactly where it has lasted
 * 300 ms, whatever phases, streak resets and IMU gaps it runs through.
 */
module FlightTilt {
  import opened Bytes
  import opened FlightMachine

  predicate Guarded(p: Phase) {
    p.Manual? || p.Level? || p.AltitudeAuto? || p.Hover?
  }

  /** No streak starts in the future. */
  predicate StreakKept(c: Core) {
    c.tilt.exceeded ==> c.clock.Some? && c.tilt.since <= c.clock.value
  }

  lemma LiveKeepsStreak(c: Core, f: Frame, e: Env)
    requires StreakKept(c) && Live(c, f)
    ensures StreakKept(StepLive(c, f, e))
  {
    var seen := Estimate(c.(clock := Some(f.time), blind := 0), f, e);
    AdvanceKeepsStreak(seen, f, e);
  }

  lemma AdvanceKeepsStreak(c: Core, f: Frame, e: Env)
    requires c.clock == Some(f.time) && (c.tilt.exceeded ==> c.tilt.since < f.time)
    ensures StreakKept(Advance(c, f, e))
  {
  }

  lemma StepKeepsStreak(c: Core, f: Frame, e: Env, after: Core)
    requires StreakKept(c) && after == Step(c, f, e).core
    ensures StreakKept(after)
  {
    if Live(c, f) {
      LiveKeepsStreak(c, f, e);
    }
  }

  lemma {:induction false} RunsKeepStreak(r: Flight, i: nat)
    requires Run(r) && i < |r.states|
    ensures StreakKept(r.states[i])
  {
    if i > 0 {
      RunsKeepStreak(r, i - 1);
      assert Turns(r, i - 1);
      StepKeepsStreak(r.states[i - 1], r.frames[i - 1], r.envs[i - 1], r.states[i]);
    }
  }

  /** A live frame that leaves a tilted drone flying leaves a streak no older than 300 ms; a streak under way keeps its start. */
  lemma LiveTilted(c: Core, f: Frame, e: Env, after: Core)
    requires StreakKept(c) && Live(c, f) && after == Step(c, f, e).core && Guarded(after.phase) && e.upZ < CUTOFF_MIN_UP
    ensures after.tilt.exceeded && after.tilt.since <= f.time && f.time - after.tilt.since < TILT_CONFIRM
    ensures after.tilt.since == (if c.tilt.exceeded then c.tilt.since else f.time)
  {
  }

  /** A frame that is not live and leaves the drone flying leaves the streak alone. */
  lemma GapKeepsStreak(c: Core, f: Frame, e: Env, after: Core)
    requires !Live(c, f) && after == Step(c, f, e).core && Guarded(after.phase)
    ensures after.tilt == c.tilt
  {
  }

  /** From frame k through frame j the drone stays in guarded phases, and every live frame finds it tilted. */
  ghost predicate TiltedThrough(r: Flight, k: nat, j: nat) {
    && |r.envs| == |r.frames| < |r.states| && k <= j < |r.frames| && Live(r.states[k], r.frames[k])
    && forall i: nat {:trigger TiltedAt(r, i)} | k <= i <= j :: TiltedAt(r, i)
  }

  predicate TiltedAt(r: Flight, i: nat) {
    && i < |r.frames| && i < |r.envs| && i + 1 < |r.states|
    && Guarded(r.states[i + 1].phase) && (Live(r.states[i], r.frames[i]) ==> r.envs[i].upZ < CUTOFF_MIN_UP)
  }

  lemma {:induction false} StreakCoversAll(r: Flight, k: nat, j: nat)
    requires Run(r) && TiltedThrough(r, k, j)
    ensures r.states[j + 1].tilt.exceeded && r.states[j + 1].tilt.since <= r.frames[k].time
  {
    assert Turns(r, j) && TiltedAt(r, j);
    RunsKeepStreak(r, j);
    var c, f, e, after := r.states[j], r.frames[j], r.envs[j], r.states[j + 1];
    if Live(c, f) {
      LiveTilted(c, f, e, after);
    } else {
      GapKeepsStreak(c, f, e, after);
    }
    if k < j {
      StreakCoversAll(r, k, j - 1);
    }
  }

  /**
   * Between any two live frames with nothing but tilted estimates in guarded phases from one to
   * the other, less than 300 ms pass: a tilt sustained for longer is cut.
   */
  lemma TiltIsCut(r: Flight, k: nat, n: nat)
    requires Run(r) && TiltedThrough(r, k, n) && Live(r.states[n], r.frames[n])
    ensures r.frames[n].time - r.frames[k].time < TILT_CONFIRM
  {
    StreakCoversAll(r, k, n);
    assert Turns(r, n) && TiltedAt(r, n);
    RunsKeepStreak(r, n);
    LiveTilted(r.states[n], r.frames[n], r.envs[n], r.states[n + 1]);
  }

  // ---- and nothing else is taken for one ----

  /** A streak is under way only in a guarded phase, or stuck in FAULT. */
  predicate StreakInFlight(c: Core) {
    c.tilt.exceeded ==> Guarded(c.phase) || c.phase.Fault?
  }

  lemma StepKeepsInFlight(c: Core, f: Frame, e: Env, after: Core)
    requires StreakInFlight(c) && after == Step(c, f, e).core
    ensures StreakInFlight(after)
  {
  }

  lemma {:induction false} RunsKeepInFlight(r: Flight, i: nat)
    requires Run(r) && i < |r.states|
    ensures StreakInFlight(r.states[i])
  {
    if i > 0 {
      RunsKeepInFlight(r, i - 1);
      assert Turns(r, i - 1);
      StepKeepsInFlight(r.states[i - 1], r.frames[i - 1], r.envs[i - 1], r.states[i]);
    }
  }

  /** A streak in flight was begun by this tilted frame, or was under way in flight and this frame is no exception. */
  lemma StreakStep(c: Core, f: Frame, e: Env, after: Core)
    requires StreakInFlight(c) && after == Step(c, f, e).core && Guarded(after.phase) && after.tilt.exceeded
    ensures Live(c, f) ==> e.upZ < CUTOFF_MIN_UP
    ensures || (Live(c, f) && after.tilt.since == f.time)
            || (c.tilt.exceeded && Guarded(c.phase) && after.tilt.since == c.tilt.since)
  {
  }

  /** The streak kept by the core is a tilted stretch that began with the frame it is dated to. */
  lemma {:induction false} StreakIsTilted(r: Flight, j: nat) returns (k: nat)
    requires Run(r) && j < |r.states| && Guarded(r.states[j].phase) && r.states[j].tilt.exceeded
    ensures k < j && TiltedThrough(r, k, j - 1) && r.frames[k].time == r.states[j].tilt.since
  {
    assert j > 0;
    var c, f, e := r.states[j - 1], r.frames[j - 1], r.envs[j - 1];
    assert Turns(r, j - 1);
    RunsKeepInFlight(r, j - 1);
    StreakStep(c, f, e, r.states[j]);
    assert TiltedAt(r, j - 1);
    if Live(c, f) && r.states[j].tilt.since == f.time {
      k := j - 1;
    } else {
      k := StreakIsTilted(r, j - 1);
      Prolonged(r, k, j - 1);
    }
  }

  lemma Prolonged(r: Flight, k: nat, j: nat)
    requires 0 < j && TiltedThrough(r, k, j - 1) && TiltedAt(r, j)
    ensures TiltedThrough(r, k, j)
  {
    forall i: nat | k <= i <= j ensures TiltedAt(r, i) {
      assert i < j ==> TiltedAt(r, i);
    }
  }

  /** A tilted stretch from frame k on reaches frame n, tilted itself, 300 ms later. */
  ghost predicate Sustained(r: Flight, k: nat, n: nat) {
    && k < n && TiltedThrough(r, k, n - 1) && n < |r.frames|
    && r.envs[n].upZ < CUTOFF_MIN_UP && r.frames[n].time - r.frames[k].time >= TILT_CONFIRM
  }

  /** What cuts a live frame that is neither impact nor saturation. */
  lemma CutStep(c: Core, f: Frame, e: Env, after: Core)
    requires StreakInFlight(c) && Live(c, f) && !Impact(f) && !Saturated(f) && after == Step(c, f, e).core
    requires !c.phase.Cutoff? && !c.phase.Recovery?
    ensures after.phase.Cutoff? <==>
      Guarded(c.phase) && f.rc.arm && c.tilt.exceeded && e.upZ < CUTOFF_MIN_UP && f.time - c.tilt.since >= TILT_CONFIRM
  {
  }

  /**
   * A live frame without impact or saturation takes the drone to CUTOFF exactly if it flies armed
   * in a guarded phase and ends a tilted stretch of at least 300 ms; from RECOVERY alone there is
   * another way, its own timeout.
   */
  lemma TiltCutsExactly(r: Flight, n: nat)
    requires Run(r) && n < |r.frames| && Live(r.states[n], r.frames[n]) && !Impact(r.frames[n]) && !Saturated(r.frames[n])
    requires !r.states[n].phase.Cutoff? && !r.states[n].phase.Recovery?
    ensures r.states[n + 1].phase.Cutoff? <==>
      Guarded(r.states[n].phase) && r.frames[n].rc.arm && exists k: nat :: Sustained(r, k, n)
  {
    var c := r.states[n];
    assert Turns(r, n);
    RunsKeepInFlight(r, n);
    CutStep(c, r.frames[n], r.envs[n], r.states[n + 1]);
    if r.states[n + 1].phase.Cutoff? {
      var k := StreakIsTilted(r, n);
      assert Sustained(r, k, n);
    } else if k: nat :| Sustained(r, k, n) {
      StreakCoversAll(r, k, n - 1);
    }
  }
}
