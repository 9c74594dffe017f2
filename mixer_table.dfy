/**
 * The emitted hex-plus-one mixer table: six rows in rotor order 1 to 6, each
 * carrying its ring's normalised gains with the signs given by the rotor's
 * place on the frame.
 */
module MixerTable {
  import opened MixerTypes
  import opened Airframe
  import opened GainSolver
  import opened Normalization

  /** Two rotors mirrored about the longitudinal axis: opposite roll and yaw, equal pitch and thrust. */
  predicate MirrorPair(p: Scales, q: Scales) {
    p.roll == -q.roll && p.yaw == -q.yaw && p.pitch == q.pitch && p.thrust == q.thrust
  }

  /**
   * The six rows in rotor order. Rotors 1 and 2 are the middle ring, 3 and 5
   * the front ring, 4 and 6 the rear ring.
   */
  function Layout(n: RoleScales): (rows: seq<Scales>)
    ensures |rows| == 6
  {
    [ Scales(-n.mid.roll,    n.mid.pitch,   -n.mid.yaw,   n.mid.thrust),
      Scales( n.mid.roll,    n.mid.pitch,    n.mid.yaw,   n.mid.thrust),
      Scales( n.front.roll,  n.front.pitch, -n.front.yaw, n.front.thrust),
      Scales(-n.rear.roll,  -n.rear.pitch,   n.rear.yaw,  n.rear.thrust),
      Scales(-n.front.roll,  n.front.pitch,  n.front.yaw, n.front.thrust),
      Scales( n.rear.roll,  -n.rear.pitch,  -n.rear.yaw,  n.rear.thrust) ]
  }

  /**
   * The two rotors of each ring are mirror images about the longitudinal
   * axis, and every row carries its ring's thrust gain.
   */
  lemma LayoutMirrorPairs(n: RoleScales)
    ensures MirrorPair(Layout(n)[0], Layout(n)[1])
    ensures MirrorPair(Layout(n)[2], Layout(n)[4])
    ensures MirrorPair(Layout(n)[3], Layout(n)[5])
    ensures Column(Layout(n), Thrust)
         == [n.mid.thrust, n.mid.thrust, n.front.thrust, n.rear.thrust, n.front.thrust, n.rear.thrust]
  {
    var rows := Layout(n);
    assert Column(rows, Thrust) == [rows[0].thrust, rows[1].thrust, rows[2].thrust,
                                    rows[3].thrust, rows[4].thrust, rows[5].thrust];
  }

  /** Whatever the ring gains, the roll column and the yaw column each sum to zero. */
  lemma LayoutColumnSums(n: RoleScales)
    ensures Sum(Column(Layout(n), Roll)) == 0.0
    ensures Sum(Column(Layout(n), Yaw)) == 0.0
  {
    SumOfSix(Column(Layout(n), Roll));
    SumOfSix(Column(Layout(n), Yaw));
  }

  /**
   * Under the output convention, row by row, the table `rows` applies the
   * per-unit-command gains `raw`.
   */
  predicate Applies(rows: seq<Scales>, raw: seq<Scales>) {
    |rows| == |raw| && forall i :: 0 <= i < |rows| ==> Effective(rows[i]) == raw[i]
  }

  /** Laying out normalised gains and multiplying back by thrust is laying out the raw gains. */
  lemma EffectiveOfLayout(n: RoleScales)
    ensures Applies(Layout(n), Layout(EffectiveRoles(n)))
  {
    var rows, e := Layout(n), Layout(EffectiveRoles(n));
    var m, f, r := n.mid, n.front, n.rear;
    NegatedTimes(m.roll, m.thrust);
    NegatedTimes(m.yaw, m.thrust);
    NegatedTimes(f.roll, f.thrust);
    NegatedTimes(f.yaw, f.thrust);
    NegatedTimes(r.roll, r.thrust);
    NegatedTimes(r.pitch, r.thrust);
    NegatedTimes(r.yaw, r.thrust);
    assert Effective(rows[0]) == e[0];
    assert Effective(rows[1]) == e[1];
    assert Effective(rows[2]) == e[2];
    assert Effective(rows[3]) == e[3];
    assert Effective(rows[4]) == e[4];
    assert Effective(rows[5]) == e[5];
  }

  /** Multiplying back by thrust commutes with a row's sign flip. */
  lemma NegatedTimes(x: real, t: real)
    ensures (-x) * t == -(x * t)
  {
  }

  /** A table applies the thrust gains it lists. */
  lemma AppliesKeepsThrust(rows: seq<Scales>, raw: seq<Scales>)
    requires Applies(rows, raw)
    ensures Column(rows, Thrust) == Column(raw, Thrust)
  {
    forall i | 0 <= i < |rows|
      ensures Column(rows, Thrust)[i] == Column(raw, Thrust)[i]
    {
      assert Effective(rows[i]) == raw[i];
    }
  }

  /**
   * The mixer table the generator is meant to emit: the raw gains of each
   * ring normalised by that ring's own thrust gain, in rotor order.
   */
  function HP1Table(g: Geometry): (rows: seq<Scales>)
    requires Valid(g)
    ensures |rows| == 6
  {
    Layout(Normalize(Solve(g)))
  }

  /**
   * The mixer table as the generator writes it: the front rows take their
   * yaw gain from the rear ring.
   */
  function HP1TableAsWritten(g: Geometry): (rows: seq<Scales>)
    requires Valid(g)
    ensures |rows| == 6
  {
    Layout(NormalizeAsWritten(Solve(g)))
  }

  /**
   * Under the output convention the table applies exactly the raw gains of
   * the solver: every row's attitude gains multiplied by its thrust gain give
   * back its ring's raw gains, with the row's signs, and the thrust gain is
   * the raw one.
   */
  lemma TableAppliesRawGains(g: Geometry)
    requires Valid(g)
    ensures Applies(HP1Table(g), Layout(Solve(g)))
  {
    NormalizeRoundTrip(Solve(g));
    EffectiveOfLayout(Normalize(Solve(g)));
  }

  /**
   * As written, the table applies the raw gains everywhere except in the yaw
   * gain of the front rows, where it applies the rear ring's yaw gain.
   */
  lemma AsWrittenAppliesRearYawAtFront(g: Geometry)
    requires Valid(g)
    ensures Applies(HP1TableAsWritten(g), Layout(FrontYawFromRear(Solve(g))))
  {
    NormalizeAsWrittenRoundTrip(Solve(g));
    EffectiveOfLayout(NormalizeAsWritten(Solve(g)));
  }

  /**
   * Normalisation keeps every thrust gain: in both tables the thrust column
   * is the full gain at the middle and rear rotors and (c - a) / b at the
   * front ones.
   */
  lemma TableThrustColumn(g: Geometry)
    requires Valid(g)
    ensures Column(HP1Table(g), Thrust) == [1.0, 1.0, (g.c - g.a) / g.b, 1.0, (g.c - g.a) / g.b, 1.0]
    ensures Column(HP1TableAsWritten(g), Thrust) == Column(HP1Table(g), Thrust)
  {
    TableAppliesRawGains(g);
    AsWrittenAppliesRearYawAtFront(g);
    AppliesKeepsThrust(HP1Table(g), Layout(Solve(g)));
    AppliesKeepsThrust(HP1TableAsWritten(g), Layout(FrontYawFromRear(Solve(g))));
    LayoutMirrorPairs(Solve(g));
    LayoutMirrorPairs(FrontYawFromRear(Solve(g)));
  }

  /** The middle rows of both tables are the raw middle gains, so neither middle rotor pitches. */
  lemma MidRowsDoNotPitch(g: Geometry)
    requires Valid(g)
    ensures HP1Table(g)[0] == HP1TableAsWritten(g)[0] == Scales(-1.0, 0.0, -1.0, 1.0)
    ensures HP1Table(g)[1] == HP1TableAsWritten(g)[1] == Scales(1.0, 0.0, 1.0, 1.0)
  {
    NormalizeFullThrustRole(Solve(g).mid);
  }

  /** The lateral offset d changes no entry of either table. */
  lemma TableIgnoresLateralArm(g: Geometry, d: real)
    requires Valid(g)
    ensures HP1Table(g.(d := d)) == HP1Table(g)
    ensures HP1TableAsWritten(g.(d := d)) == HP1TableAsWritten(g)
  {
    assert Solve(g.(d := d)) == Solve(g);
  }
}
