/**
 * Conversion of the raw role gains to the flight controller's output
 * convention out = (roll*r' + pitch*p' + yaw*y' + thrust) * t', where every
 * attitude gain is divided by the rotor's own thrust gain and the thrust gain
 * is kept.
 */
module Normalization {
  import opened MixerTypes
  import opened GainSolver

  /**
   * The gains a row applies per unit command under the output convention:
   * each attitude gain multiplied back by the row's thrust gain.
   */
  function Effective(n: Scales): Scales {
    Scales(n.roll * n.thrust, n.pitch * n.thrust, n.yaw * n.thrust, n.thrust)
  }

  /** Normalisation of one role by its own thrust gain, which it keeps. */
  function NormalizeRole(s: Scales): (n: Scales)
    requires s.thrust != 0.0
    ensures n.thrust == s.thrust
  {
    Scales(s.roll / s.thrust, s.pitch / s.thrust, s.yaw / s.thrust, s.thrust)
  }

  /**
   * A normalised role applies exactly its raw gains under the output
   * convention, and no other tuple with a nonzero thrust gain does.
   */
  lemma NormalizeRoleExactly(s: Scales, n: Scales)
    requires s.thrust != 0.0
    ensures Effective(NormalizeRole(s)) == s
    ensures Effective(n) == s <==> n == NormalizeRole(s)
  {
    var m := NormalizeRole(s);
    assert m.roll * s.thrust == s.roll;
    assert m.pitch * s.thrust == s.pitch;
    assert m.yaw * s.thrust == s.yaw;
    if Effective(n) == s {
      assert n.roll * s.thrust == m.roll * s.thrust;
      assert n.pitch * s.thrust == m.pitch * s.thrust;
      assert n.yaw * s.thrust == m.yaw * s.thrust;
    }
  }

  /** Every role has a thrust gain that can be divided by. */
  predicate NonzeroThrust(s: RoleScales) {
    s.front.thrust != 0.0 && s.mid.thrust != 0.0 && s.rear.thrust != 0.0
  }

  /** The per-unit-command gains of each role. */
  function EffectiveRoles(n: RoleScales): RoleScales {
    RoleScales(Effective(n.front), Effective(n.mid), Effective(n.rear))
  }

  /**
   * Each role normalised by its own thrust gain, which it keeps; the round
   * trip back to the raw gains is NormalizeRoundTrip.
   */
  function Normalize(s: RoleScales): (n: RoleScales)
    requires NonzeroThrust(s)
    ensures n.front.thrust == s.front.thrust
    ensures n.mid.thrust == s.mid.thrust
    ensures n.rear.thrust == s.rear.thrust
  {
    RoleScales(NormalizeRole(s.front), NormalizeRole(s.mid), NormalizeRole(s.rear))
  }

  /** Under the output convention every normalised role applies exactly its raw gains. */
  lemma NormalizeRoundTrip(s: RoleScales)
    requires NonzeroThrust(s)
    ensures EffectiveRoles(Normalize(s)) == s
  {
    NormalizeRoleExactly(s.front, s.front);
    NormalizeRoleExactly(s.mid, s.mid);
    NormalizeRoleExactly(s.rear, s.rear);
  }

  /** The raw gains with the front yaw gain replaced by the rear one. */
  function FrontYawFromRear(s: RoleScales): RoleScales {
    s.(front := s.front.(yaw := s.rear.yaw))
  }

  /**
   * Normalisation as the generator writes it: the front yaw entry is computed
   * from the rear role's yaw gain, so the front yaw gain is never used. It
   * differs from the intended normalisation in that one entry only.
   */
  function NormalizeAsWritten(s: RoleScales): (n: RoleScales)
    requires NonzeroThrust(s)
    ensures n.(front := n.front.(yaw := Normalize(s).front.yaw)) == Normalize(s)
    ensures n.front.yaw == Normalize(FrontYawFromRear(s)).front.yaw
  {
    RoleScales(
      Scales(s.front.roll / s.front.thrust, s.front.pitch / s.front.thrust,
             s.rear.yaw / s.front.thrust, s.front.thrust),
      Scales(s.mid.roll / s.mid.thrust, s.mid.pitch / s.mid.thrust,
             s.mid.yaw / s.mid.thrust, s.mid.thrust),
      Scales(s.rear.roll / s.rear.thrust, s.rear.pitch / s.rear.thrust,
             s.rear.yaw / s.rear.thrust, s.rear.thrust))
  }

  /**
   * As written, the middle and rear roles apply their raw gains, while the
   * front role applies the rear role's yaw gain in place of its own.
   */
  lemma NormalizeAsWrittenRoundTrip(s: RoleScales)
    requires NonzeroThrust(s)
    ensures EffectiveRoles(NormalizeAsWritten(s)) == FrontYawFromRear(s)
  {
    var w := FrontYawFromRear(s);
    NormalizeRoleExactly(w.front, w.front);
    NormalizeRoleExactly(s.mid, s.mid);
    NormalizeRoleExactly(s.rear, s.rear);
    assert NormalizeAsWritten(s) == RoleScales(NormalizeRole(w.front), NormalizeRole(s.mid), NormalizeRole(s.rear));
  }

  /** A role at full thrust gain is left as it is. */
  lemma NormalizeFullThrustRole(s: Scales)
    requires s.thrust == 1.0
    ensures NormalizeRole(s) == s
  {
  }
}
