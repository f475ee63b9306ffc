/**
 * The flight core object: latches, timers and mission fields changed in place, one frame at a
 * time. Every method is proved to leave what the flight machine says.
 */
module FlightCore {
  import opened Bytes
  import opened Physics
  import opened Mixer
  import opened FlightMachine

  class FlightCore {
    const detector: T.ThrowDetector
    var phase: Phase
    var stickCentered: bool
    var stickDown: bool
    var mission: Mission
    var tiltExceeded: bool
    var tiltSince: nat
    var imuInvalidRun: nat
    var lastMotor: Motors
    var referenceCount: nat
    var referenceReady: bool
    var hasPrevTimestamp: bool
    var prevTimestamp: nat

    ghost function State(): Core
      reads this, detector
    {
      Core(phase, Sticks(stickCentered, stickDown), mission, Tilt(tiltExceeded, tiltSince), imuInvalidRun, lastMotor,
           Reference(referenceCount, referenceReady), detector.View(), if hasPrevTimestamp then Some(prevTimestamp) else None)
    }

    constructor ()
      ensures fresh(detector) && State() == POWER_ON
    {
      detector := new T.ThrowDetector();
      phase, stickCentered, stickDown := Idle, false, true;
      mission := Mission(ManualMode, false, 0, 0, 0, false);
      tiltExceeded, tiltSince, imuInvalidRun, lastMotor := false, 0, 0, OFF;
      referenceCount, referenceReady, hasPrevTimestamp, prevTimestamp := 0, false, false, 0;
    }

    // ---- small steps ----

    method EndMission()
      modifies `phase, `tiltExceeded, `mission
      ensures State() == ResetMission(old(State()))
    {
      phase := Idle;
      tiltExceeded := false;
      mission := mission.(brakeDone := false);
      mission := mission.(mode := ManualMode, takeover := false);
    }

    method MoveClock(time: nat)
      modifies `hasPrevTimestamp, `prevTimestamp
      ensures State() == old(State()).(clock := Some(time))
    {
      prevTimestamp := time;
      hasPrevTimestamp := true;
    }

    method UpdateEstimators(f: Frame, e: Env)
      modifies `referenceCount, `referenceReady, detector
      ensures State() == Estimate(old(State()), f, e)
    {
      if !referenceReady && Plausible(f) && Resting(f) {
        referenceCount := referenceCount + 1;
        if referenceCount >= REFERENCE_SAMPLES {
          referenceReady := true;
        }
      }
      detector.Feed(T.Sample(f.time, f.forceSq, e.velocity, e.altitude));
    }

    method TiltCutoffConfirmed(upZ: real, now: nat) returns (cut: bool)
      modifies `tiltExceeded, `tiltSince
      ensures Check(Tilt(tiltExceeded, tiltSince), cut) == CheckTilt(old(Tilt(tiltExceeded, tiltSince)), upZ, now)
    {
      if upZ < CUTOFF_MIN_UP {
        if !tiltExceeded {
          tiltExceeded := true;
          tiltSince := now;
        } else if now - tiltSince >= TILT_CONFIRM {
          return true;
        }
      } else {
        tiltExceeded := false;
      }
      return false;
    }

    method CutoffTripped(f: Frame, upZ: real) returns (cut: bool)
      modifies `tiltExceeded, `tiltSince
      ensures Check(Tilt(tiltExceeded, tiltSince), cut) == CheckCutoff(old(Tilt(tiltExceeded, tiltSince)), f, upZ)
    {
      if Impact(f) || Saturated(f) {
        return true;
      }
      cut := TiltCutoffConfirmed(upZ, f.time);
    }

    method UpdateLatches(throttle: real)
      modifies `stickCentered, `stickDown
      ensures Sticks(stickCentered, stickDown) == ReadSticks(old(Sticks(stickCentered, stickDown)), throttle)
    {
      if throttle < STICK_DOWN {
        stickDown := true;
      } else if throttle > STICK_UP {
        stickDown := false;
      }
      var error := throttle - STICK_CENTER;
      var distance := if error < 0.0 then -error else error;
      if distance <= CENTER_DEADBAND {
        stickCentered := true;
      } else if distance > CENTER_RELEASE {
        stickCentered := false;
      }
    }

    // ---- phases ----

    method LeaveIdle(f: Frame, e: Env)
      modifies `phase, `mission, `tiltExceeded, `tiltSince
      ensures State() == FlightMachine.LeaveIdle(old(State()), f, e)
    {
      if !referenceReady || !f.baroValid || !f.rc.arm {
        return;
      }
      if !f.rc.mode.AutoMode? && stickDown {
        mission := mission.(mode := f.rc.mode);
        var piloted := if mission.mode.LevelMode? then Level else Manual;
        var cut := CutoffTripped(f, e.upZ);
        phase := if cut then Cutoff else piloted;
      } else if f.rc.mode.AutoMode? && stickCentered {
        mission := mission.(mode := AutoMode, handled := detector.throwCount);
        phase := Armed;
      }
    }

    method Hold(f: Frame, e: Env)
      modifies `phase, `mission, `tiltExceeded, `tiltSince
      ensures State() == FlightMachine.Hold(old(State()), f, e)
    {
      var cut := CutoffTripped(f, e.upZ);
      if cut {
        phase := Cutoff;
      } else if stickCentered {
        mission := mission.(takeover := true);
      } else if mission.takeover {
        phase := AltitudeAuto;
      }
    }

    method Coast(f: Frame)
      modifies `phase, `mission
      ensures State() == FlightMachine.Coast(old(State()), f)
    {
      if Saturated(f) {
        phase := Cutoff;
      } else if !detector.state.Ballistic? {
        phase := Armed;
      } else if f.time + SPINUP_LEAD >= detector.release.apexAt {
        phase := Recovery;
        mission := mission.(recoveryStart := f.time);
      }
    }

    method Recover(f: Frame, e: Env)
      modifies `phase, `mission
      ensures State() == FlightMachine.Recover(old(State()), f, e)
    {
      if Impact(f) || Saturated(f) || f.time - mission.recoveryStart > RECOVERY_TIMEOUT {
        phase := Cutoff;
      } else if e.upZ >= RECOVERED_MIN_UP {
        phase := Hover;
        mission := mission.(hoverStart := f.time, brakeDone := false, takeover := false);
      }
    }

    method AdvanceArmed(f: Frame, e: Env)
      modifies `phase, `mission, `tiltExceeded, `tiltSince
      ensures State() == FlightMachine.AdvanceArmed(old(State()), f, e)
    {
      match phase {
        case Armed =>
          if detector.throwCount > mission.handled {
            mission := mission.(handled := detector.throwCount);
            phase := Ballistic;
          }
        case Ballistic => Coast(f);
        case Recovery => Recover(f, e);
        case Hover => Hold(f, e);
        case Cutoff =>
        case _ =>
          var cut := CutoffTripped(f, e.upZ);
          if cut {
            phase := Cutoff;
          }
      }
    }

    method AdvancePhase(f: Frame, e: Env)
      modifies this
      ensures State() == Advance(old(State()), f, e)
    {
      UpdateLatches(f.rc.throttle);
      if phase.Idle? {
        LeaveIdle(f, e);
      } else if phase.Fault? {
      } else if !f.rc.arm {
        phase := Idle;
      } else {
        AdvanceArmed(f, e);
      }
    }

    // ---- control ----

    method RunControl(f: Frame, e: Env)
      modifies `lastMotor, `tiltExceeded, `mission
      ensures State() == Control(old(State()), f, e)
    {
      match phase {
        case Recovery =>
          var collective := if e.scaled < RECOVERY_MIN_COLLECTIVE then RECOVERY_MIN_COLLECTIVE else e.scaled;
          lastMotor := Mix(collective, e.torque);
        case Hover =>
          if !mission.brakeDone && (e.driftSq < Square(BRAKE_DONE) || f.time - mission.hoverStart >= BRAKE_WINDOW) {
            mission := mission.(brakeDone := true);
          }
          lastMotor := Mix(e.collective, e.torque);
        case AltitudeAuto => lastMotor := Mix(e.collective, e.torque);
        case Manual => lastMotor := if f.rc.throttle <= 0.0 then OFF else Mix(f.rc.throttle, e.torque);
        case Level => lastMotor := if f.rc.throttle <= 0.0 then OFF else Mix(f.rc.throttle, e.torque);
        case _ =>
          lastMotor := OFF;
          tiltExceeded := false;
      }
    }

    // ---- the step ----

    method StepBlind(f: Frame)
      modifies `imuInvalidRun, `phase, `lastMotor, `tiltExceeded, `mission
      ensures State() == StepWithoutImu(old(State()), f)
    {
      imuInvalidRun := imuInvalidRun + 1;
      var motorsOn := Running(lastMotor);
      if motorsOn && imuInvalidRun >= IMU_FAULT_FRAMES {
        phase := Fault;
        lastMotor := OFF;
      } else if !motorsOn && !f.rc.arm && !phase.Fault? {
        EndMission();
      }
    }

    method StepKill(f: Frame, e: Env)
      modifies this, detector
      ensures State() == StepKilled(old(State()), f, e)
    {
      lastMotor := OFF;
      if f.finite && (!hasPrevTimestamp || f.time > prevTimestamp) {
        MoveClock(f.time);
        if f.imuValid {
          UpdateEstimators(f, e);
        }
      }
      EndMission();
    }

    /** One control step; the kill switch is honoured first. */
    method Step(f: Frame, e: Env) returns (published: Motors)
      modifies this, detector
      ensures Out(State(), published) == FlightMachine.Step(old(State()), f, e)
    {
      if f.rc.kill {
        StepKill(f, e);
        return OFF;
      }
      if !f.finite || (hasPrevTimestamp && f.time <= prevTimestamp) {
        return lastMotor;
      }
      MoveClock(f.time);
      if !f.imuValid {
        StepBlind(f);
        return lastMotor;
      }
      imuInvalidRun := 0;
      UpdateEstimators(f, e);
      AdvancePhase(f, e);
      RunControl(f, e);
      return lastMotor;
    }
  }
}
