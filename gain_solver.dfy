/**
 * Derivation of the raw per-role gains of the hex-plus-one airframe: one gain
 * tuple for the front, the middle and the rear ring, each expressed for a
 * thrust gain of one (out = roll*r + pitch*p + yaw*y + thrust*t).
 */
module GainSolver {
  import opened MixerTypes
  import opened Airframe

  /** Raw gains of the three rotor roles; left and right rotors of a ring share them. */
  datatype RoleScales = RoleScales(front: Scales, mid: Scales, rear: Scales)

  /**
   * The design constraints of the frame: the reference gains the designer
   * fixes, and the moment-balance equations the remaining gains must meet.
   * The two yaw equations together fix the front yaw gain at
   * (c - a) / (b + c).
   */
  predicate Balanced(g: Geometry, s: RoleScales): (ok: bool)
    ensures ok ==> s.front.yaw * (g.b + g.c) == g.c - g.a
  {
    // Roll: the three rotors of a side have equal lateral arms, so every ring
    // uses the reference roll gain.
    && s.front.roll == 1.0 && s.mid.roll == 1.0 && s.rear.roll == 1.0
    // Pitch: the front ring is used fully, the middle ring not at all, and
    // the front moment equals the rear moment.
    && s.front.pitch == 1.0 && s.mid.pitch == 0.0
    && s.front.pitch * g.b == s.rear.pitch * g.c
    // Thrust: middle and rear at full gain; the front and middle moments
    // together equal the rear moment.
    && s.mid.thrust == 1.0 && s.rear.thrust == 1.0
    && s.front.thrust * g.b + s.mid.thrust * g.a == s.rear.thrust * g.c
    // Yaw: the middle ring at full gain, zero moment around pitch and zero
    // moment around roll.
    && s.mid.yaw == 1.0
    && g.a * s.mid.yaw + s.front.yaw * g.b == s.rear.yaw * g.c
    && s.front.yaw + s.rear.yaw == s.mid.yaw
  }

  /**
   * The closed-form gains of the generator. The front thrust gain vanishes
   * exactly when the middle and rear arms are equal, and every other thrust
   * gain is the full gain.
   */
  function Solve(g: Geometry): (s: RoleScales)
    requires Solvable(g)
    ensures s.front.thrust == 0.0 <==> g.c == g.a
    ensures s.mid.thrust == s.rear.thrust == 1.0
  {
    var rollScale := 1.0;
    var pitchScaleFront := 1.0;
    var pitchScaleMid := 0.0;
    var pitchScaleRear := pitchScaleFront * g.b / g.c;
    var thrustScaleRear := 1.0;
    var thrustScaleMid := 1.0;
    var thrustScaleFront := (g.c - g.a) / g.b;
    var yawScaleMid := 1.0;
    var yawScaleRear := (g.a + g.b) / (g.b + g.c);
    var yawScaleFront := yawScaleMid - yawScaleRear;
    assert thrustScaleFront * g.b == g.c - g.a;
    RoleScales(
      Scales(rollScale, pitchScaleFront, yawScaleFront, thrustScaleFront),
      Scales(rollScale, pitchScaleMid, yawScaleMid, thrustScaleMid),
      Scales(rollScale, pitchScaleRear, yawScaleRear, thrustScaleRear))
  }

  /** The closed-form gains meet every design constraint. */
  lemma SolveIsBalanced(g: Geometry)
    requires Solvable(g)
    ensures Balanced(g, Solve(g))
  {
    var s := Solve(g);
    assert s.rear.pitch * g.c == g.b;
    assert s.front.thrust * g.b == g.c - g.a;
    assert s.rear.yaw * (g.b + g.c) == g.a + g.b;
  }

  /**
   * The constraints determine the gains: the generator's closed forms are
   * the one and only solution of the design equations.
   */
  lemma BalancedExactlyBySolve(g: Geometry, s: RoleScales)
    requires Solvable(g)
    ensures Balanced(g, s) <==> s == Solve(g)
  {
    SolveIsBalanced(g);
    if Balanced(g, s) {
      var t := Solve(g);
      assert s.rear.pitch == t.rear.pitch by {
        assert s.rear.pitch * g.c == t.rear.pitch * g.c;
      }
      assert s.front.thrust == t.front.thrust by {
        assert s.front.thrust * g.b == t.front.thrust * g.b;
      }
      assert s.rear.yaw == t.rear.yaw by {
        assert s.rear.yaw * (g.b + g.c) == g.a + g.b;
        assert t.rear.yaw * (g.b + g.c) == g.a + g.b;
      }
    }
  }

  /**
   * The front yaw gain exceeds the rear one by (c - 2a - b) / (b + c): the
   * two are equal exactly when c == 2a + b.
   */
  lemma FrontRearYawDifference(g: Geometry)
    requires Solvable(g)
    ensures Solve(g).front.yaw - Solve(g).rear.yaw == (g.c - 2.0 * g.a - g.b) / (g.b + g.c)
    ensures Solve(g).front.yaw == Solve(g).rear.yaw <==> g.c == 2.0 * g.a + g.b
  {
    var s := Solve(g);
    var k := g.b + g.c;
    assert s.rear.yaw * k == g.a + g.b;
    assert (s.front.yaw - s.rear.yaw) * k == g.c - 2.0 * g.a - g.b;
  }
}
