/**
 * The throw detector: a thrust phase, then confirmed free fall, with the release frozen at the
 * first frame of the fall. What a detection says about the raw frames, and that a clean throw is
 * always detected.
 */
module ThrowDetector {
  import opened Physics

  const THRUST_THRESHOLD: real := 2.0 * GRAVITY
  const FREE_FALL_THRESHOLD: real := 0.3 * GRAVITY
  const BALLISTIC_EXIT: real := 0.5 * GRAVITY
  const THRUST_MIN: nat := 40_000
  const FREE_FALL_CONFIRM: nat := 50_000
  const RELEASE_TIMEOUT: nat := 300_000
  const BALLISTIC_EXIT_CONFIRM: nat := 100_000
  const MIN_RELEASE_VELOCITY: real := 2.0

  /** One frame given to the detector: its squared accel norm, and the vertical estimate of that instant. */
  datatype Sample = Sample(time: nat, forceSq: real, velocity: real, altitude: real)

  datatype ThrowState = Idle | Thrust | Ballistic

  /** The first frame of a fall: when, and the vertical state it froze. */
  datatype Candidate = Candidate(since: nat, velocity: real, altitude: real)

  /** The last throw detected. */
  datatype Release = Release(velocity: real, at: nat, apexAt: nat, apexAltitude: real)

  datatype Detector = Detector(state: ThrowState, thrustStart: nat, thrustLast: nat, falling: bool, candidate: Candidate,
                               exiting: bool, exitStart: nat, count: nat, release: Release)

  const FRESH := Detector(Idle, 0, 0, false, Candidate(0, 0.0, 0.0), false, 0, 0, Release(0.0, 0, 0, 0.0))

  predicate Thrusts(s: Sample) {
    s.forceSq >= Square(THRUST_THRESHOLD)
  }

  predicate Falls(s: Sample) {
    s.forceSq < Square(FREE_FALL_THRESHOLD)
  }

  function CandidateOf(s: Sample): Candidate {
    Candidate(s.time, s.velocity, s.altitude)
  }

  /** The apex of a body released there, predicted from the vertical state at the release. */
  function ReleaseOf(c: Candidate): Release
    requires c.velocity >= MIN_RELEASE_VELOCITY
  {
    Release(c.velocity, c.since, c.since + (c.velocity / GRAVITY * 1_000_000.0).Floor,
            c.altitude + c.velocity * c.velocity / (2.0 * GRAVITY))
  }

  /** The predicted apex is where and, to the microsecond, when a body thrown up at that speed stops rising. */
  lemma ApexIsBallistic(c: Candidate)
    requires c.velocity >= MIN_RELEASE_VELOCITY
    ensures var r := ReleaseOf(c); var flight := c.velocity / GRAVITY;
      && c.velocity - GRAVITY * flight == 0.0
      && r.apexAltitude == c.altitude + c.velocity * flight - GRAVITY * flight * flight / 2.0
      && r.apexAt as real <= c.since as real + flight * 1_000_000.0 < r.apexAt as real + 1.0
  {
    var flight := c.velocity / GRAVITY;
    assert GRAVITY * flight == c.velocity;
    assert c.velocity * c.velocity / (2.0 * GRAVITY) == c.velocity * flight - GRAVITY * flight * flight / 2.0 by {
      assert GRAVITY * flight * flight == c.velocity * flight;
    }
  }

  function Reset(d: Detector): Detector {
    d.(state := Idle, thrustStart := 0, thrustLast := 0, falling := false, exiting := false)
  }

  function UpdateThrust(d: Detector, s: Sample): Detector {
    if Thrusts(s) then d.(thrustLast := s.time, falling := false)
    else if Falls(s) then
      if !d.falling then d.(falling := true, candidate := CandidateOf(s))
      else if s.time - d.candidate.since >= FREE_FALL_CONFIRM then
        if d.thrustLast - d.thrustStart >= THRUST_MIN && d.candidate.velocity >= MIN_RELEASE_VELOCITY
        then d.(count := d.count + 1, release := ReleaseOf(d.candidate), state := Ballistic, exiting := false)
        else Reset(d)
      else d
    else if s.time - d.thrustLast >= RELEASE_TIMEOUT then Reset(d)
    else d.(falling := false)
  }

  function UpdateBallistic(d: Detector, s: Sample): Detector {
    if s.forceSq < Square(BALLISTIC_EXIT) then d.(exiting := false)
    else if !d.exiting then d.(exiting := true, exitStart := s.time)
    else if s.time - d.exitStart >= BALLISTIC_EXIT_CONFIRM then Reset(d)
    else d
  }

  function Update(d: Detector, s: Sample): Detector {
    match d.state
    case Idle => if Thrusts(s) then d.(state := Thrust, thrustStart := s.time, thrustLast := s.time, falling := false) else d
    case Thrust => UpdateThrust(d, s)
    case Ballistic => UpdateBallistic(d, s)
  }

  function After(samples: seq<Sample>, n: nat): Detector
    requires n <= |samples|
  {
    if n == 0 then FRESH else Update(After(samples, n - 1), samples[n - 1])
  }

  // ---- what a detection says about the frames ----

  /** Frames a and b thrust, a no later than b and both before the fall; from k on every frame falls. */
  datatype Marks = Marks(a: nat, b: nat, k: nat)

  predicate FallsFrom(samples: seq<Sample>, k: nat, n: nat) {
    k < n <= |samples| && forall i | k <= i < n :: Falls(samples[i])
  }

  predicate ThrustSpan(samples: seq<Sample>, m: Marks, n: nat, d: Detector) {
    && m.a <= m.b < n <= |samples| && Thrusts(samples[m.a]) && Thrusts(samples[m.b])
    && samples[m.a].time == d.thrustStart && samples[m.b].time == d.thrustLast
  }

  predicate FallSpan(samples: seq<Sample>, m: Marks, n: nat, d: Detector) {
    m.b < m.k && FallsFrom(samples, m.k, n) && CandidateOf(samples[m.k]) == d.candidate
  }

  predicate Explains(samples: seq<Sample>, m: Marks, n: nat, d: Detector) {
    d.state.Thrust? ==> ThrustSpan(samples, m, n, d) && (d.falling ==> FallSpan(samples, m, n, d))
  }

  /** One more frame while in thrust moves one mark at most. */
  lemma ThrustExplained(samples: seq<Sample>, n: nat, d: Detector, m: Marks) returns (later: Marks)
    requires n < |samples| && d.state.Thrust? && Explains(samples, m, n, d)
    ensures Explains(samples, later, n + 1, UpdateThrust(d, samples[n]))
  {
    var s, after := samples[n], UpdateThrust(d, samples[n]);
    later := if Thrusts(s) then m.(b := n) else if !d.falling then m.(k := n) else m;
    if after.state.Thrust? {
      assert ThrustSpan(samples, later, n + 1, after);
      if after.falling {
        assert Falls(s);
        assert FallsFrom(samples, later.k, n + 1);
      }
    }
  }

  /** While in thrust, the detector's instants are those of frames that passed the thresholds. */
  lemma {:induction false} Explained(samples: seq<Sample>, n: nat) returns (m: Marks)
    requires n <= |samples|
    ensures Explains(samples, m, n, After(samples, n))
  {
    if n == 0 {
      return Marks(0, 0, 0);
    }
    m := Explained(samples, n - 1);
    var before := After(samples, n - 1);
    if before.state.Idle? {
      m := Marks(n - 1, n - 1, 0);
    } else if before.state.Thrust? {
      m := ThrustExplained(samples, n - 1, before, m);
    }
  }

  /**
   * The count rises at a frame only by one, and only where earlier frames over 2 g span at least
   * 40 ms, an unbroken block of frames under 0.3 g up to this one lasts at least 50 ms, and the
   * velocity at its first frame was at least 2 m/s; the release and the apex are that frame's.
   */
  lemma DetectionIsSound(samples: seq<Sample>, n: nat) returns (m: Marks)
    requires n < |samples| && After(samples, n + 1).count != After(samples, n).count
    ensures After(samples, n + 1).count == After(samples, n).count + 1
    ensures m.a <= m.b < m.k <= n && Thrusts(samples[m.a]) && Thrusts(samples[m.b])
    ensures samples[m.b].time - samples[m.a].time >= THRUST_MIN
    ensures FallsFrom(samples, m.k, n + 1) && samples[n].time - samples[m.k].time >= FREE_FALL_CONFIRM
    ensures samples[m.k].velocity >= MIN_RELEASE_VELOCITY
    ensures After(samples, n + 1).release == ReleaseOf(CandidateOf(samples[m.k]))
    ensures After(samples, n + 1).state.Ballistic? && !After(samples, n).state.Ballistic?
  {
    m := Explained(samples, n);
  }

  // ---- a clean throw is detected ----

  predicate InOrder(samples: seq<Sample>) {
    forall i, j | 0 <= i < j < |samples| :: samples[i].time < samples[j].time
  }

  /** From an idle detector, thrust frames a..b. */
  lemma {:induction false} ThrustHeld(samples: seq<Sample>, a: nat, i: nat)
    requires a <= i < |samples| && After(samples, a).state.Idle?
    requires forall j | a <= j <= i :: Thrusts(samples[j])
    ensures var d := After(samples, i + 1);
      && d.state.Thrust? && !d.falling && d.thrustStart == samples[a].time && d.thrustLast == samples[i].time
      && d.count == After(samples, a).count
  {
    if i > a {
      ThrustHeld(samples, a, i - 1);
    }
  }

  lemma FallingIsNotThrusting(s: Sample)
    requires Falls(s)
    ensures !Thrusts(s)
  {
  }

  /** Frames k..i fall, for less than the confirmation. */
  lemma {:induction false} FallHeld(samples: seq<Sample>, k: nat, i: nat, d: Detector)
    requires InOrder(samples) && k <= i < |samples| && After(samples, k) == d && d.state.Thrust? && !d.falling
    requires forall j | k <= j <= i :: Falls(samples[j])
    requires samples[i].time - samples[k].time < FREE_FALL_CONFIRM
    ensures After(samples, i + 1) == d.(falling := true, candidate := CandidateOf(samples[k]))
  {
    FallingIsNotThrusting(samples[i]);
    if i > k {
      FallHeld(samples, k, i - 1, d);
    }
  }

  /** Frames a..b over 2 g for 40 ms, then frames to n under 0.3 g leaving at 2 m/s or more, n the first of them 50 ms into the fall. */
  predicate Clean(samples: seq<Sample>, a: nat, b: nat, n: nat) {
    && InOrder(samples) && a <= b && b + 1 < n < |samples|
    && (forall j | a <= j <= b :: Thrusts(samples[j])) && samples[b].time - samples[a].time >= THRUST_MIN
    && (forall j | b < j <= n :: Falls(samples[j])) && samples[b + 1].velocity >= MIN_RELEASE_VELOCITY
    && samples[n - 1].time - samples[b + 1].time < FREE_FALL_CONFIRM <= samples[n].time - samples[b + 1].time
  }

  /** An idle detector shown a clean throw confirms it at its last frame. */
  lemma CleanThrowIsDetected(samples: seq<Sample>, a: nat, b: nat, n: nat)
    requires Clean(samples, a, b, n) && After(samples, a).state.Idle?
    ensures After(samples, n + 1).count == After(samples, a).count + 1
    ensures After(samples, n + 1).state.Ballistic? && After(samples, n + 1).release == ReleaseOf(CandidateOf(samples[b + 1]))
  {
    ThrustHeld(samples, a, b);
    FallHeld(samples, b + 1, n - 1, After(samples, b + 1));
    FallingIsNotThrusting(samples[n]);
  }

  /** And not before. */
  lemma CleanThrowIsQuiet(samples: seq<Sample>, a: nat, b: nat, n: nat, j: nat)
    requires Clean(samples, a, b, n) && After(samples, a).state.Idle? && a <= j <= n
    ensures After(samples, j).count == After(samples, a).count
  {
    ThrustHeld(samples, a, b);
    if a < j <= b + 1 {
      ThrustHeld(samples, a, j - 1);
    } else if b + 1 < j {
      FallHeld(samples, b + 1, j - 1, After(samples, b + 1));
    }
  }

  // ---- the detector object ----

  class ThrowDetector {
    var state: ThrowState
    var thrustStart: nat
    var thrustLast: nat
    var inFreeFallStreak: bool
    var candidate: Candidate
    var inExitStreak: bool
    var exitStart: nat
    var throwCount: nat
    var release: Release

    function View(): Detector
      reads this
    {
      Detector(state, thrustStart, thrustLast, inFreeFallStreak, candidate, inExitStreak, exitStart, throwCount, release)
    }

    constructor ()
      ensures View() == FRESH
    {
      state, thrustStart, thrustLast, inFreeFallStreak, candidate := Idle, 0, 0, false, Candidate(0, 0.0, 0.0);
      inExitStreak, exitStart, throwCount, release := false, 0, 0, Release(0.0, 0, 0, 0.0);
    }

    method Forget()
      modifies `state, `thrustStart, `thrustLast, `inFreeFallStreak, `inExitStreak
      ensures View() == Reset(old(View()))
    {
      state := Idle;
      thrustStart, thrustLast := 0, 0;
      inFreeFallStreak, inExitStreak := false, false;
    }

    method Feed(s: Sample)
      modifies this
      ensures View() == Update(old(View()), s)
    {
      match state {
        case Idle =>
          if Thrusts(s) {
            state := Thrust;
            thrustStart, thrustLast := s.time, s.time;
            inFreeFallStreak := false;
          }
        case Thrust => FeedThrust(s);
        case Ballistic =>
          if s.forceSq < Square(BALLISTIC_EXIT) {
            inExitStreak := false;
          } else if !inExitStreak {
            inExitStreak := true;
            exitStart := s.time;
          } else if s.time - exitStart >= BALLISTIC_EXIT_CONFIRM {
            Forget();
          }
      }
    }

    method FeedThrust(s: Sample)
      modifies this
      ensures View() == UpdateThrust(old(View()), s)
    {
      if Thrusts(s) {
        thrustLast := s.time;
        inFreeFallStreak := false;
      } else if Falls(s) {
        if !inFreeFallStreak {
          inFreeFallStreak := true;
          candidate := CandidateOf(s);
        } else if s.time - candidate.since >= FREE_FALL_CONFIRM {
          if thrustLast - thrustStart >= THRUST_MIN && candidate.velocity >= MIN_RELEASE_VELOCITY {
            throwCount := throwCount + 1;
            release := ReleaseOf(candidate);
            state := Ballistic;
            inExitStreak := false;
          } else {
            Forget();
          }
        }
      } else {
        inFreeFallStreak := false;
        if s.time - thrustLast >= RELEASE_TIMEOUT {
          Forget();
        }
      }
    }
  }
}
