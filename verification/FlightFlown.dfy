/**
 * A throw is flown: from the raw frames of a clean throw made while ARMED, through the coast, to a
 * drone that spins up before its apex and hovers once it is upright.
 */
module FlightFlown {
  import opened Bytes
  import opened Physics
  import opened FlightMachine
  import opened FlightSafety
  import opened FlightLaunch
  import opened FlightThrow
  import opened FlightMotors

  // ---- timers ----

  /** The times a recovery and a hover are counted from are those of the frames that began them. */
  lemma TimersAreSet(c: Core, f: Frame, e: Env)
    requires Safe(c)
    ensures var after := Step(c, f, e).core;
      && (after.phase.Recovery? ==> after.mission.recoveryStart == if c.phase.Recovery? then c.mission.recoveryStart else f.time)
      && (after.phase.Hover? ==> after.mission.hoverStart == if c.phase.Hover? then c.mission.hoverStart else f.time)
      && (after.phase.Hover? && !c.phase.Hover? ==>
            !after.mission.takeover && (after.mission.brakeDone <==> e.driftSq < Square(BRAKE_DONE)))
      && (after.phase.Hover? && c.phase.Hover? && Live(c, f) ==>
            (after.mission.takeover <==> c.mission.takeover || ReadSticks(c.sticks, f.rc.throttle).centered))
  {
  }

  // ---- the stick latches ----

  /** The stick was last clearly down, or not yet clearly up: below 5 %, and until it is above 10 %. */
  function LastDown(r: Flight, n: nat): bool
    requires |r.frames| < |r.states|
  {
    if n == 0 || n > |r.frames| then true
    else if !Live(r.states[n - 1], r.frames[n - 1]) then LastDown(r, n - 1)
    else if r.frames[n - 1].rc.throttle < 0.05 then true
    else if r.frames[n - 1].rc.throttle > 0.10 then false
    else LastDown(r, n - 1)
  }

  /** It was last clearly centred: within 5 % of the middle, and until it is more than 8 % off. */
  function LastCentred(r: Flight, n: nat): bool
    requires |r.frames| < |r.states|
  {
    if n == 0 || n > |r.frames| then false
    else if !Live(r.states[n - 1], r.frames[n - 1]) then LastCentred(r, n - 1)
    else if Abs(r.frames[n - 1].rc.throttle - 0.5) <= 0.05 then true
    else if Abs(r.frames[n - 1].rc.throttle - 0.5) > 0.08 then false
    else LastCentred(r, n - 1)
  }

  lemma StepReadsSticks(c: Core, f: Frame, e: Env)
    ensures Step(c, f, e).core.sticks == if Live(c, f) then ReadSticks(c.sticks, f.rc.throttle) else c.sticks
  {
  }

  /** Over every run each latch is what the last live frame outside its hysteresis said. */
  lemma {:induction false} LatchesHold(r: Flight, n: nat)
    requires Run(r) && n < |r.states|
    ensures r.states[n].sticks == Sticks(LastCentred(r, n), LastDown(r, n))
  {
    if n > 0 {
      LatchesHold(r, n - 1);
      assert Turns(r, n - 1);
      StepReadsSticks(r.states[n - 1], r.frames[n - 1], r.envs[n - 1]);
    }
  }

  // ---- from the confirmed throw to the launch ----

  /** The frame keeps the coast going: flown, not saturated, and still in free fall as far as the detector minds. */
  predicate Coasts(r: Flight, j: nat) {
    && j < |r.frames| && j < |r.states| && Flies(r.states[j], r.frames[j]) && !Saturated(r.frames[j])
    && r.frames[j].forceSq < Square(T.BALLISTIC_EXIT)
  }

  lemma CoastGoesOn(c: Core, f: Frame, e: Env)
    requires Safe(c) && c.phase.Ballistic? && c.detector.state.Ballistic? && Flies(c, f) && !Saturated(f)
    requires f.forceSq < Square(T.BALLISTIC_EXIT)
    ensures var after := Step(c, f, e).core;
      && after.detector.state.Ballistic? && after.detector.release == c.detector.release
      && (if f.time + SPINUP_LEAD >= c.detector.release.apexAt
          then after.phase.Recovery? && after.mission.recoveryStart == f.time
          else after.phase.Ballistic?)
  {
    LeadsExactly(c, f, e, Recovery);
    TimersAreSet(c, f, e);
    StepFeeds(c, f, e);
    StaysBallistic(c, f, e);
  }

  lemma StaysBallistic(c: Core, f: Frame, e: Env)
    requires c.phase.Ballistic? && Flies(c, f) && !Saturated(f) && DetectorAfter(c, f, e).state.Ballistic?
    ensures var after := Step(c, f, e).core; after.phase.Ballistic? || after.phase.Recovery?
  {
  }

  /** No frame before n is late enough to launch. */
  predicate TooEarly(r: Flight, m: nat, n: nat, apexAt: nat) {
    n <= |r.frames| && forall j :: m < j < n ==> r.frames[j].time + SPINUP_LEAD < apexAt
  }

  lemma {:induction false} Coasting(r: Flight, m: nat, n: nat)
    requires Run(r) && m < n < |r.states| && r.states[m + 1].phase.Ballistic? && r.states[m + 1].detector.state.Ballistic?
    requires forall j :: m < j < n ==> Coasts(r, j)
    requires TooEarly(r, m, n, r.states[m + 1].detector.release.apexAt)
    ensures r.states[n].phase.Ballistic? && r.states[n].detector.state.Ballistic?
    ensures r.states[n].detector.release == r.states[m + 1].detector.release
  {
    if m + 1 < n {
      Coasting(r, m, n - 1);
      assert Turns(r, n - 1) && Coasts(r, n - 1);
      RunsAreSafe(r, n - 1);
      CoastGoesOn(r.states[n - 1], r.frames[n - 1], r.envs[n - 1]);
    }
  }

  /** A throw confirmed while ARMED. */
  predicate Confirmed(r: Flight, m: nat) {
    && m < |r.frames| && m + 1 < |r.states| && r.states[m].phase.Armed? && Flies(r.states[m], r.frames[m])
    && r.states[m + 1].detector.count > r.states[m].detector.count
  }

  lemma ConfirmedCoasts(r: Flight, m: nat)
    requires Run(r) && Confirmed(r, m)
    ensures r.states[m + 1].phase.Ballistic? && r.states[m + 1].detector.state.Ballistic?
  {
    assert Turns(r, m);
    RunsAreSound(r, m);
    RunsAreSafe(r, m);
    StepFeeds(r.states[m], r.frames[m], r.envs[m]);
    DetectorCounts(r.states[m].detector, T.Sample(r.frames[m].time, r.frames[m].forceSq, r.envs[m].velocity, r.envs[m].altitude));
    LeadsExactly(r.states[m], r.frames[m], r.envs[m], Ballistic);
  }

  /**
   * A throw confirmed while ARMED and coasted through is launched at the very first frame that is no
   * more than 100 ms before its apex.
   */
  lemma ThrowIsFlown(r: Flight, m: nat, n: nat)
    requires Run(r) && Confirmed(r, m) && m < n < |r.frames| && forall j :: m < j <= n ==> Coasts(r, j)
    requires var apexAt := r.states[m + 1].detector.release.apexAt;
      TooEarly(r, m, n, apexAt) && r.frames[n].time + SPINUP_LEAD >= apexAt
    ensures Launches(r, n) && r.states[n + 1].mission.recoveryStart == r.frames[n].time
  {
    ConfirmedCoasts(r, m);
    Coasting(r, m, n);
    assert Turns(r, n) && Coasts(r, n);
    RunsAreSafe(r, n);
    CoastGoesOn(r.states[n], r.frames[n], r.envs[n]);
  }

  /** A recovery that comes upright within its time, unhurt, hovers. */
  lemma RecoveryHovers(c: Core, f: Frame, e: Env)
    requires Safe(c) && c.phase.Recovery? && Flies(c, f) && !Impact(f) && !Saturated(f)
    ensures Step(c, f, e).core.phase.Hover? <==> f.time - c.mission.recoveryStart <= RECOVERY_TIMEOUT && e.upZ >= RECOVERED_MIN_UP
  {
    LeadsExactly(c, f, e, Hover);
  }

  // ---- from the raw frames to the confirmed throw ----

  lemma ClockStep(c: Core, f: Frame, e: Env)
    ensures var after := Step(c, f, e).core;
      && (Measured(c, f) ==> after.clock == Some(f.time) && (c.clock.Some? ==> c.clock.value < f.time))
      && (c.clock.Some? ==> after.clock.Some? && c.clock.value <= after.clock.value)
  {
  }

  /** Samples in order, none later than the clock. */
  predicate UpToDate(samples: seq<T.Sample>, clock: Option<nat>) {
    T.InOrder(samples) && forall k :: 0 <= k < |samples| ==> clock.Some? && samples[k].time <= clock.value
  }

  lemma DateGrows(samples: seq<T.Sample>, clock: Option<nat>, s: T.Sample)
    requires UpToDate(samples, clock) && (clock.Some? ==> clock.value < s.time)
    ensures UpToDate(samples + [s], Some(s.time))
  {
  }

  lemma DateKeeps(samples: seq<T.Sample>, clock: Option<nat>, later: Option<nat>)
    requires UpToDate(samples, clock) && (clock.Some? ==> later.Some? && clock.value <= later.value)
    ensures UpToDate(samples, later)
  {
  }

  /** The samples given to the detector so far are in order, none later than the clock. */
  lemma {:induction false} SamplesInOrder(r: Flight, n: nat)
    requires Run(r) && n < |r.states|
    ensures UpToDate(Samples(r, n), r.states[n].clock)
  {
    if n > 0 {
      SamplesInOrder(r, n - 1);
      SampleInOrder(r, n);
    }
  }

  lemma SampleInOrder(r: Flight, n: nat)
    requires Run(r) && 0 < n < |r.states| && UpToDate(Samples(r, n - 1), r.states[n - 1].clock)
    ensures UpToDate(Samples(r, n), r.states[n].clock)
  {
    assert Turns(r, n - 1);
    SamplesGrow(r, n - 1);
    ClockStep(r.states[n - 1], r.frames[n - 1], r.envs[n - 1]);
    if Measured(r.states[n - 1], r.frames[n - 1]) {
      DateGrows(Samples(r, n - 1), r.states[n - 1].clock, SampleAt(r, n - 1));
    } else {
      DateKeeps(Samples(r, n - 1), r.states[n - 1].clock, r.states[n].clock);
    }
  }

  /** The samples of the frames from a to before j. */
  function Raw(r: Flight, a: nat, j: nat): seq<T.Sample>
    requires a <= j <= |r.frames| && |r.envs| == |r.frames|
  {
    seq(j - a, x requires 0 <= x < j - a => SampleAt(r, a + x))
  }

  /** Every frame from a to before j is flown. */
  predicate FliesAll(r: Flight, a: nat, j: nat) {
    j <= |r.frames| && j <= |r.states| && forall x :: a <= x < j ==> Flies(r.states[x], r.frames[x])
  }

  lemma {:induction false} SamplesAlign(r: Flight, a: nat, j: nat)
    requires Run(r) && a <= j <= |r.frames| && FliesAll(r, a, j)
    ensures Samples(r, j) == Samples(r, a) + Raw(r, a, j)
  {
    if a < j {
      SamplesAlign(r, a, j - 1);
      SamplesGrow(r, j - 1);
      assert Flies(r.states[j - 1], r.frames[j - 1]);
      assert Raw(r, a, j) == Raw(r, a, j - 1) + [SampleAt(r, j - 1)];
    }
  }

  /** Frames a..m are a clean throw, thrust up to frame b, made while ARMED with the detector idle. */
  ghost predicate CleanThrow(r: Flight, a: nat, b: nat, m: nat) {
    && a <= b < m < |r.frames| && |r.envs| == |r.frames| < |r.states| && FliesAll(r, a, m + 1)
    && r.states[a].phase.Armed? && r.states[a].detector.state.Idle?
    && T.Clean(Raw(r, a, m + 1), 0, b - a, m - a)
  }

  /** A clean throw stays clean behind whatever came before, and is read from there on. */
  lemma CleanBehind(prefix: seq<T.Sample>, raw: seq<T.Sample>, b: nat, n: nat)
    requires T.InOrder(prefix + raw) && T.Clean(raw, 0, b, n)
    ensures T.Clean(prefix + raw, |prefix|, |prefix| + b, |prefix| + n)
  {
    var all, base := prefix + raw, |prefix|;
    forall j | base <= j <= base + n ensures all[j] == raw[j - base] {
    }
  }

  /** The detector of the core at frame j is the detector after as many samples. */
  lemma DetectorAligns(r: Flight, a: nat, m: nat, j: nat)
    requires Run(r) && a <= j <= m + 1 <= |r.frames| && FliesAll(r, a, m + 1)
    ensures r.states[j].detector == T.After(Samples(r, a) + Raw(r, a, m + 1), |Samples(r, a)| + (j - a))
  {
    DetectorFed(r, j);
    SamplesAlign(r, a, j);
    assert Raw(r, a, j) <= Raw(r, a, m + 1);
    AfterPrefix(Samples(r, j), Samples(r, a) + Raw(r, a, m + 1), |Samples(r, j)|);
  }

  /** What a detector makes of a clean throw behind other samples: nothing until its last frame, and a throw there. */
  lemma CleanIsQuiet(prefix: seq<T.Sample>, raw: seq<T.Sample>, b: nat, n: nat, j: nat)
    requires T.InOrder(prefix + raw) && T.Clean(raw, 0, b, n) && T.After(prefix + raw, |prefix|).state.Idle? && j <= n
    ensures T.After(prefix + raw, |prefix| + j).count == T.After(prefix + raw, |prefix|).count
  {
    CleanBehind(prefix, raw, b, n);
    T.CleanThrowIsQuiet(prefix + raw, |prefix|, |prefix| + b, |prefix| + n, |prefix| + j);
  }

  lemma CleanIsCounted(prefix: seq<T.Sample>, raw: seq<T.Sample>, b: nat, n: nat)
    requires T.InOrder(prefix + raw) && T.Clean(raw, 0, b, n) && T.After(prefix + raw, |prefix|).state.Idle?
    ensures var d := T.After(prefix + raw, |prefix| + (n + 1));
      d.count == T.After(prefix + raw, |prefix|).count + 1 && d.release == T.ReleaseOf(T.CandidateOf(raw[b + 1]))
  {
    CleanBehind(prefix, raw, b, n);
    T.CleanThrowIsDetected(prefix + raw, |prefix|, |prefix| + b, |prefix| + n);
    assert (prefix + raw)[|prefix| + b + 1] == raw[b + 1];
  }

  lemma CleanThrowWaits(r: Flight, a: nat, b: nat, m: nat, j: nat)
    requires Run(r) && CleanThrow(r, a, b, m) && a <= j <= m
    ensures r.states[j].detector.count == r.states[a].detector.count
  {
    OrderedBehind(r, a, m);
    DetectorAligns(r, a, m, a);
    DetectorAligns(r, a, m, j);
    CleanIsQuiet(Samples(r, a), Raw(r, a, m + 1), b - a, m - a, j - a);
  }

  lemma CleanThrowCounts(r: Flight, a: nat, b: nat, m: nat)
    requires Run(r) && CleanThrow(r, a, b, m)
    ensures r.states[m + 1].detector.count == r.states[a].detector.count + 1
    ensures r.states[m + 1].detector.release == T.ReleaseOf(T.CandidateOf(SampleAt(r, b + 1)))
  {
    OrderedBehind(r, a, m);
    DetectorAligns(r, a, m, a);
    DetectorAligns(r, a, m, m + 1);
    CountedBetween(r.states[a].detector, r.states[m + 1].detector, Samples(r, a), Raw(r, a, m + 1), b - a, m - a, SampleAt(r, b + 1));
  }

  lemma CountedBetween(before: T.Detector, after: T.Detector, prefix: seq<T.Sample>, raw: seq<T.Sample>, b: nat, n: nat, fall: T.Sample)
    requires T.InOrder(prefix + raw) && T.Clean(raw, 0, b, n) && raw[b + 1] == fall && before.state.Idle?
    requires before == T.After(prefix + raw, |prefix|) && n < |raw| && after == T.After(prefix + raw, |prefix| + (n + 1))
    ensures after.count == before.count + 1 && after.release == T.ReleaseOf(T.CandidateOf(fall))
  {
    CleanIsCounted(prefix, raw, b, n);
  }

  lemma OrderedBehind(r: Flight, a: nat, m: nat)
    requires Run(r) && a <= m < |r.frames| && FliesAll(r, a, m + 1)
    ensures T.InOrder(Samples(r, a) + Raw(r, a, m + 1))
  {
    SamplesAlign(r, a, m + 1);
    SamplesInOrder(r, m + 1);
  }

  /** Armed, flown and with nothing detected, the drone stays ARMED. */
  lemma {:induction false} StaysArmed(r: Flight, a: nat, j: nat)
    requires Run(r) && a <= j < |r.states| && r.states[a].phase.Armed?
    requires FliesAll(r, a, j) && forall x :: a <= x <= j ==> r.states[x].detector.count == r.states[a].detector.count
    ensures r.states[j].phase.Armed?
  {
    if a < j {
      StaysArmed(r, a, j - 1);
      assert Turns(r, j - 1) && Flies(r.states[j - 1], r.frames[j - 1]);
      RunsAreSound(r, j - 1);
      ArmedWaits(r.states[j - 1], r.frames[j - 1], r.envs[j - 1]);
    }
  }

  lemma ArmedWaits(c: Core, f: Frame, e: Env)
    requires Sound(c) && c.phase.Armed? && Flies(c, f) && Step(c, f, e).core.detector.count == c.detector.count
    ensures Step(c, f, e).core.phase.Armed?
  {
  }

  /**
   * A clean throw made while ARMED is flown: confirmed at frame m, coasted through, and launched at
   * the first frame no more than 100 ms before the apex of a body released at its first falling frame.
   */
  lemma CleanThrowIsFlown(r: Flight, a: nat, b: nat, m: nat, n: nat)
    requires Run(r) && CleanThrow(r, a, b, m) && m < n < |r.frames| && forall j :: m < j <= n ==> Coasts(r, j)
    requires var apexAt := T.ReleaseOf(T.CandidateOf(SampleAt(r, b + 1))).apexAt;
      TooEarly(r, m, n, apexAt) && r.frames[n].time + SPINUP_LEAD >= apexAt
    ensures Launches(r, n) && r.states[n + 1].mission.recoveryStart == r.frames[n].time
  {
    forall j | a <= j <= m ensures r.states[j].detector.count == r.states[a].detector.count {
      CleanThrowWaits(r, a, b, m, j);
    }
    CleanThrowCounts(r, a, b, m);
    StaysArmed(r, a, m);
    assert Flies(r.states[m], r.frames[m]);
    assert Confirmed(r, m);
    ThrowIsFlown(r, m, n);
  }
}
