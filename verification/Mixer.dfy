/** The motor mixer of the X layout: four clamped commands from a collective and three torques. */
module Mixer {
  import opened Physics

  datatype Motors = Motors(rearRight: real, frontRight: real, rearLeft: real, frontLeft: real)

  const OFF := Motors(0.0, 0.0, 0.0, 0.0)

  function Clamp(value: real): (r: real)
    ensures 0.0 <= r <= 1.0
    ensures 0.0 <= value <= 1.0 ==> r == value
  {
    if value < 0.0 then 0.0 else if value > 1.0 then 1.0 else value
  }

  predicate InRange(m: Motors) {
    0.0 <= m.rearRight <= 1.0 && 0.0 <= m.frontRight <= 1.0 && 0.0 <= m.rearLeft <= 1.0 && 0.0 <= m.frontLeft <= 1.0
  }

  function Mix(collective: real, torque: Vec3): (m: Motors)
    ensures InRange(m)
  {
    Motors(Clamp(collective - torque.x + torque.y - torque.z), Clamp(collective - torque.x - torque.y + torque.z),
           Clamp(collective + torque.x + torque.y + torque.z), Clamp(collective + torque.x - torque.y - torque.z))
  }

  /** What four commands amount to: their common part, and left over right, rear over front, one diagonal over the other. */
  function Unmix(m: Motors): (real, Vec3) {
    ((m.rearRight + m.frontRight + m.rearLeft + m.frontLeft) / 4.0,
     Vec3((m.rearLeft + m.frontLeft - m.rearRight - m.frontRight) / 4.0,
          (m.rearRight + m.rearLeft - m.frontRight - m.frontLeft) / 4.0,
          (m.frontRight + m.rearLeft - m.rearRight - m.frontLeft) / 4.0))
  }

  /** The torques ask for no more than the collective leaves on either side of it. */
  predicate Unclamped(collective: real, torque: Vec3) {
    && 0.0 <= collective - torque.x + torque.y - torque.z <= 1.0
    && 0.0 <= collective - torque.x - torque.y + torque.z <= 1.0
    && 0.0 <= collective + torque.x + torque.y + torque.z <= 1.0
    && 0.0 <= collective + torque.x - torque.y - torque.z <= 1.0
  }

  /** The four commands carry exactly the collective and the torques if and only if no command is clamped. */
  lemma MixLosesNothingUnlessClamped(collective: real, torque: Vec3)
    ensures Unmix(Mix(collective, torque)) == (collective, torque) <==> Unclamped(collective, torque)
  {
    if Unmix(Mix(collective, torque)) == (collective, torque) {
      var m := Mix(collective, torque);
      assert m.rearRight == collective - torque.x + torque.y - torque.z;
      assert m.frontRight == collective - torque.x - torque.y + torque.z;
      assert m.rearLeft == collective + torque.x + torque.y + torque.z;
      assert m.frontLeft == collective + torque.x - torque.y - torque.z;
    }
  }

  /** Torques within the room the collective leaves are never clamped. */
  lemma RoomForTorque(collective: real, torque: Vec3)
    requires Abs(torque.x) + Abs(torque.y) + Abs(torque.z) <= collective
    requires Abs(torque.x) + Abs(torque.y) + Abs(torque.z) <= 1.0 - collective
    ensures Unmix(Mix(collective, torque)) == (collective, torque)
  {
    MixLosesNothingUnlessClamped(collective, torque);
  }
}
