/**
 * From the launch back to the raw frames: every recovery was preceded by the whole signature of a
 * throw in the frames the core measured.
 */
module FlightThrow {
  import opened FlightMachine
  import opened FlightLaunch

  function SampleAt(r: Flight, i: nat): T.Sample
    requires i < |r.frames| && i < |r.envs|
  {
    T.Sample(r.frames[i].time, r.frames[i].forceSq, r.envs[i].velocity, r.envs[i].altitude)
  }

  /** The frames measured before frame n, in order. */
  function MeasuredBefore(r: Flight, n: nat): (which: seq<nat>)
    requires |r.envs| == |r.frames| < |r.states| && n <= |r.frames|
    ensures forall k | 0 <= k < |which| :: which[k] < n && Measured(r.states[which[k]], r.frames[which[k]])
    ensures forall j, k | 0 <= j < k < |which| :: which[j] < which[k]
  {
    if n == 0 then []
    else if Measured(r.states[n - 1], r.frames[n - 1]) then MeasuredBefore(r, n - 1) + [n - 1]
    else MeasuredBefore(r, n - 1)
  }

  function Samples(r: Flight, n: nat): (samples: seq<T.Sample>)
    requires |r.envs| == |r.frames| < |r.states| && n <= |r.frames|
    ensures |samples| == |MeasuredBefore(r, n)|
  {
    var which := MeasuredBefore(r, n);
    seq(|which|, k requires 0 <= k < |which| => SampleAt(r, which[k]))
  }

  lemma {:induction false} AfterPrefix(a: seq<T.Sample>, b: seq<T.Sample>, n: nat)
    requires n <= |a| && a <= b
    ensures T.After(b, n) == T.After(a, n)
  {
    if n > 0 {
      AfterPrefix(a, b, n - 1);
    }
  }

  lemma StepFeeds(c: Core, f: Frame, e: Env)
    ensures Step(c, f, e).core.detector
         == (if Measured(c, f) then T.Update(c.detector, T.Sample(f.time, f.forceSq, e.velocity, e.altitude)) else c.detector)
  {
  }

  /** One frame of a run feeds the detector its sample, or nothing. */
  lemma FrameFeeds(r: Flight, n: nat)
    requires Run(r) && n < |r.frames|
    ensures r.states[n + 1].detector
         == (if Measured(r.states[n], r.frames[n]) then T.Update(r.states[n].detector, SampleAt(r, n)) else r.states[n].detector)
  {
    assert Turns(r, n);
    StepFeeds(r.states[n], r.frames[n], r.envs[n]);
  }

  lemma AfterOneMore(a: seq<T.Sample>, s: T.Sample)
    ensures T.After(a + [s], |a| + 1) == T.Update(T.After(a, |a|), s)
  {
    AfterPrefix(a, a + [s], |a|);
  }

  lemma SamplesGrow(r: Flight, n: nat)
    requires |r.envs| == |r.frames| < |r.states| && n < |r.frames|
    ensures Samples(r, n + 1) == (if Measured(r.states[n], r.frames[n]) then Samples(r, n) + [SampleAt(r, n)] else Samples(r, n))
  {
  }

  lemma FedOn(before: T.Detector, after: T.Detector, a: seq<T.Sample>, b: seq<T.Sample>, s: T.Sample, measured: bool)
    requires before == T.After(a, |a|)
    requires if measured then after == T.Update(before, s) && b == a + [s] else after == before && b == a
    ensures after == T.After(b, |b|)
  {
    if measured {
      AfterOneMore(a, s);
    }
  }

  /** The core's detector is the detector fed with the measured frames and nothing else. */
  lemma {:induction false} DetectorFed(r: Flight, n: nat)
    requires Run(r) && n < |r.states|
    ensures r.states[n].detector == T.After(Samples(r, n), |Samples(r, n)|)
  {
    if n > 0 {
      DetectorFed(r, n - 1);
      FrameFeeds(r, n - 1);
      SamplesGrow(r, n - 1);
      FedOn(r.states[n - 1].detector, r.states[n].detector, Samples(r, n - 1), Samples(r, n), SampleAt(r, n - 1),
            Measured(r.states[n - 1], r.frames[n - 1]));
    }
  }

  /** Measured frames a <= b < k <= n: thrust at a and b spanning 40 ms, nothing but free fall measured from k to n. */
  ghost predicate Signature(r: Flight, a: nat, b: nat, k: nat, n: nat) {
    && a <= b < k <= n < |r.frames| && |r.envs| == |r.frames| < |r.states|
    && (forall i | i == a || i == b || i == k || i == n :: Measured(r.states[i], r.frames[i]))
    && T.Thrusts(SampleAt(r, a)) && T.Thrusts(SampleAt(r, b)) && r.frames[b].time - r.frames[a].time >= T.THRUST_MIN
    && (forall i | k <= i <= n && Measured(r.states[i], r.frames[i]) :: T.Falls(SampleAt(r, i)))
    && r.frames[n].time - r.frames[k].time >= T.FREE_FALL_CONFIRM
    && r.envs[k].velocity >= T.MIN_RELEASE_VELOCITY
  }

  /** A measured frame is somewhere in the list of those before it. */
  lemma {:induction false} Listed(r: Flight, n: nat, i: nat) returns (k: nat)
    requires |r.envs| == |r.frames| < |r.states| && i < n <= |r.frames| && Measured(r.states[i], r.frames[i])
    ensures k < |MeasuredBefore(r, n)| && MeasuredBefore(r, n)[k] == i
  {
    if i == n - 1 {
      return |MeasuredBefore(r, n)| - 1;
    }
    k := Listed(r, n - 1, i);
  }

  /** The marks of a detection, among the samples the detector was fed. */
  predicate Marked(samples: seq<T.Sample>, m: T.Marks) {
    && |samples| > 0 && m.a <= m.b < m.k < |samples|
    && T.Thrusts(samples[m.a]) && T.Thrusts(samples[m.b]) && samples[m.b].time - samples[m.a].time >= T.THRUST_MIN
    && T.FallsFrom(samples, m.k, |samples|) && samples[|samples| - 1].time - samples[m.k].time >= T.FREE_FALL_CONFIRM
    && samples[m.k].velocity >= T.MIN_RELEASE_VELOCITY
  }

  lemma CountHasMarks(r: Flight, n: nat) returns (m: T.Marks)
    requires Run(r) && n < |r.frames| && r.states[n + 1].detector.count != r.states[n].detector.count
    ensures Measured(r.states[n], r.frames[n]) && Marked(Samples(r, n + 1), m)
    ensures r.states[n + 1].detector.release == T.ReleaseOf(T.CandidateOf(Samples(r, n + 1)[m.k]))
  {
    FrameFeeds(r, n);
    DetectorFed(r, n);
    DetectorFed(r, n + 1);
    SamplesGrow(r, n);
    AfterPrefix(Samples(r, n), Samples(r, n + 1), |Samples(r, n)|);
    m := T.DetectionIsSound(Samples(r, n + 1), |Samples(r, n)|);
  }

  /** Where the core's throw count rises, the measured frames up to there carry the signature. */
  lemma CountHasSignature(r: Flight, n: nat) returns (a: nat, b: nat, k: nat)
    requires Run(r) && n < |r.frames| && r.states[n + 1].detector.count != r.states[n].detector.count
    ensures Signature(r, a, b, k, n)
    ensures r.states[n + 1].detector.release == T.ReleaseOf(T.CandidateOf(SampleAt(r, k)))
  {
    var m := CountHasMarks(r, n);
    var all, which := Samples(r, n + 1), MeasuredBefore(r, n + 1);
    a, b, k := which[m.a], which[m.b], which[m.k];
    assert all[m.a] == SampleAt(r, a) && all[m.b] == SampleAt(r, b) && all[m.k] == SampleAt(r, k);
    assert which[|which| - 1] == n && all[|all| - 1] == SampleAt(r, n);
    forall i | k <= i <= n && Measured(r.states[i], r.frames[i]) ensures T.Falls(SampleAt(r, i)) {
      var at := Listed(r, n + 1, i);
      assert T.Falls(all[at]);
    }
  }

  /**
   * Every entry into RECOVERY was preceded, while ARMED, by the signature of a throw in the raw
   * frames, ending at the frame m that confirmed it, and comes no earlier than 100 ms before the
   * apex of a body released at the first falling frame k.
   */
  lemma LaunchHasSignature(r: Flight, i: nat) returns (a: nat, b: nat, k: nat, m: nat)
    requires Run(r) && Launches(r, i)
    ensures m < i && r.states[m].phase.Armed? && Signature(r, a, b, k, m)
    ensures forall j | m < j <= i :: r.states[j].phase.Ballistic?
    ensures r.states[i + 1].detector.release == T.ReleaseOf(T.CandidateOf(SampleAt(r, k)))
    ensures r.frames[i].time + SPINUP_LEAD >= T.ReleaseOf(T.CandidateOf(SampleAt(r, k))).apexAt
  {
    m := LaunchFollowsThrow(r, i);
    a, b, k := CountHasSignature(r, m);
  }
}
