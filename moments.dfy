/**
 * What the mixer table does to the vehicle: the rotor outputs a command
 * produces under the flight controller's output convention, and the roll and
 * pitch torques those outputs exert about the centre of gravity.
 */
module Moments {
  import opened MixerTypes
  import opened Airframe
  import opened GainSolver
  import opened Normalization
  import opened MixerTable

  /** A control command: roll, pitch and yaw demands and collective thrust. */
  datatype Command = Command(roll: real, pitch: real, yaw: real, thrust: real)

  /**
   * A rotor's output: (roll*r + pitch*p + yaw*y + thrust) * t. A pure thrust
   * command drives the rotor at the thrust demand times its thrust gain.
   */
  function Output(row: Scales, cmd: Command): (out: real)
    ensures cmd.roll == cmd.pitch == cmd.yaw == 0.0 ==> out == cmd.thrust * row.thrust
  {
    (cmd.roll * row.roll + cmd.pitch * row.pitch + cmd.yaw * row.yaw + cmd.thrust) * row.thrust
  }

  /** A rotor's output written with per-unit-command gains: linear in the command. */
  function Response(e: Scales, cmd: Command): real {
    cmd.roll * e.roll + cmd.pitch * e.pitch + cmd.yaw * e.yaw + cmd.thrust * e.thrust
  }

  /** The output convention is linear in the command, with the row's effective gains as coefficients. */
  lemma OutputIsResponse(row: Scales, cmd: Command)
    ensures Output(row, cmd) == Response(Effective(row), cmd)
  {
  }

  /** The outputs of every rotor of a table, in row order. */
  function Outputs(rows: seq<Scales>, cmd: Command): (outs: seq<real>)
    ensures |outs| == |rows|
  {
    seq(|rows|, i requires 0 <= i < |rows| => Output(rows[i], cmd))
  }

  /** The outputs written with per-unit-command gains. */
  function Responses(raw: seq<Scales>, cmd: Command): (outs: seq<real>)
    ensures |outs| == |raw|
  {
    seq(|raw|, i requires 0 <= i < |raw| => Response(raw[i], cmd))
  }

  /** A table that applies `raw` produces, for every command, the outputs `raw` describes. */
  lemma AppliedOutputs(rows: seq<Scales>, raw: seq<Scales>, cmd: Command)
    requires Applies(rows, raw)
    ensures Outputs(rows, cmd) == Responses(raw, cmd)
  {
    forall i | 0 <= i < |rows|
      ensures Outputs(rows, cmd)[i] == Responses(raw, cmd)[i]
    {
      OutputIsResponse(rows[i], cmd);
    }
  }

  /** The torque of upward forces `forces` acting at signed arms `arms`. */
  function Moment(arms: seq<real>, forces: seq<real>): real
    requires |arms| == |forces|
  {
    if arms == [] then 0.0 else arms[0] * forces[0] + Moment(arms[1..], forces[1..])
  }

  /** A six-rotor moment written out. */
  lemma {:induction false} MomentOfSix(arms: seq<real>, forces: seq<real>)
    requires |arms| == |forces| == 6
    ensures Moment(arms, forces)
         == arms[0] * forces[0] + arms[1] * forces[1] + arms[2] * forces[2]
          + arms[3] * forces[3] + arms[4] * forces[4] + arms[5] * forces[5]
  {
    var a, f := arms, forces;
    assert Moment(a[5..], f[5..]) == a[5] * f[5] by {
      assert a[5..][1..] == [] && f[5..][1..] == [];
    }
    assert Moment(a[4..], f[4..]) == a[4] * f[4] + Moment(a[5..], f[5..]) by {
      assert a[4..][1..] == a[5..] && f[4..][1..] == f[5..];
    }
    assert Moment(a[3..], f[3..]) == a[3] * f[3] + Moment(a[4..], f[4..]) by {
      assert a[3..][1..] == a[4..] && f[3..][1..] == f[4..];
    }
    assert Moment(a[2..], f[2..]) == a[2] * f[2] + Moment(a[3..], f[3..]) by {
      assert a[2..][1..] == a[3..] && f[2..][1..] == f[3..];
    }
    assert Moment(a[1..], f[1..]) == a[1] * f[1] + Moment(a[2..], f[2..]) by {
      assert a[1..][1..] == a[2..] && f[1..][1..] == f[2..];
    }
  }

  /** Roll torque (right side down positive) of a table's outputs for a command. */
  function RollTorque(g: Geometry, rows: seq<Scales>, cmd: Command): real
    requires |rows| == 6
  {
    Moment(RollArms(g), Outputs(rows, cmd))
  }

  /** Pitch torque (nose up positive) of a table's outputs for a command. */
  function PitchTorque(g: Geometry, rows: seq<Scales>, cmd: Command): real
    requires |rows| == 6
  {
    Moment(PitchArms(g), Outputs(rows, cmd))
  }

  /**
   * Torques of the layout of per-unit-command gains `e`: the mirror signs
   * cancel the pitch, yaw and thrust demands in roll, and the roll and yaw
   * demands in pitch, whatever the ring gains.
   */
  lemma LayoutTorques(g: Geometry, e: RoleScales, cmd: Command)
    ensures Moment(RollArms(g), Responses(Layout(e), cmd))
         == 2.0 * g.d * (cmd.roll * (e.mid.roll + e.front.roll + e.rear.roll)
                       + cmd.yaw * (e.mid.yaw - e.front.yaw - e.rear.yaw))
    ensures Moment(PitchArms(g), Responses(Layout(e), cmd))
         == 2.0 * (cmd.pitch * (g.a * e.mid.pitch + g.b * e.front.pitch + g.c * e.rear.pitch)
                 + cmd.thrust * (g.a * e.mid.thrust + g.b * e.front.thrust - g.c * e.rear.thrust))
  {
    var outs := Responses(Layout(e), cmd);
    var m, f, r := e.mid, e.front, e.rear;
    var R, P, Y, T := cmd.roll, cmd.pitch, cmd.yaw, cmd.thrust;
    assert outs[0] == -(R * m.roll) + P * m.pitch - Y * m.yaw + T * m.thrust;
    assert outs[1] == R * m.roll + P * m.pitch + Y * m.yaw + T * m.thrust;
    assert outs[2] == R * f.roll + P * f.pitch - Y * f.yaw + T * f.thrust;
    assert outs[3] == -(R * r.roll) - P * r.pitch + Y * r.yaw + T * r.thrust;
    assert outs[4] == -(R * f.roll) + P * f.pitch + Y * f.yaw + T * f.thrust;
    assert outs[5] == R * r.roll - P * r.pitch - Y * r.yaw + T * r.thrust;
    var rollSum := -outs[0] + outs[1] + outs[2] - outs[3] - outs[4] + outs[5];
    assert rollSum == 2.0 * (R * m.roll + R * f.roll + R * r.roll + Y * m.yaw - Y * f.yaw - Y * r.yaw);
    MomentOfSix(RollArms(g), outs);
    assert Moment(RollArms(g), outs) == g.d * rollSum;
    var pitchSum := g.a * (outs[0] + outs[1]) + g.b * (outs[2] + outs[4]) - g.c * (outs[3] + outs[5]);
    assert outs[0] + outs[1] == 2.0 * (P * m.pitch + T * m.thrust);
    assert outs[2] + outs[4] == 2.0 * (P * f.pitch + T * f.thrust);
    assert outs[3] + outs[5] == 2.0 * (T * r.thrust - P * r.pitch);
    MomentOfSix(PitchArms(g), outs);
    assert Moment(PitchArms(g), outs) == pitchSum;
  }

  /**
   * The balanced gains decouple the axes: roll torque answers only the roll
   * demand, with six rotors at arm d, and pitch torque only the pitch demand,
   * with front and rear each contributing 2b.
   */
  lemma BalancedTorques(g: Geometry, s: RoleScales, cmd: Command)
    requires Balanced(g, s)
    ensures Moment(RollArms(g), Responses(Layout(s), cmd)) == 6.0 * g.d * cmd.roll
    ensures Moment(PitchArms(g), Responses(Layout(s), cmd)) == 4.0 * g.b * cmd.pitch
  {
    LayoutTorques(g, s, cmd);
  }

  /**
   * With the front yaw gain replaced by the rear one, a yaw demand also rolls
   * the vehicle, in proportion to how far the two yaw gains differ.
   */
  lemma RearYawAtFrontTorques(g: Geometry, s: RoleScales, cmd: Command)
    requires Balanced(g, s)
    ensures Moment(RollArms(g), Responses(Layout(FrontYawFromRear(s)), cmd))
         == 6.0 * g.d * cmd.roll + 2.0 * g.d * cmd.yaw * (s.front.yaw - s.rear.yaw)
    ensures Moment(PitchArms(g), Responses(Layout(FrontYawFromRear(s)), cmd)) == 4.0 * g.b * cmd.pitch
  {
    LayoutTorques(g, FrontYawFromRear(s), cmd);
  }

  /** A table's torques are the torques of the per-unit-command gains it applies. */
  lemma AppliedTorques(g: Geometry, rows: seq<Scales>, raw: seq<Scales>, cmd: Command)
    requires |rows| == 6 && Applies(rows, raw)
    ensures RollTorque(g, rows, cmd) == Moment(RollArms(g), Responses(raw, cmd))
    ensures PitchTorque(g, rows, cmd) == Moment(PitchArms(g), Responses(raw, cmd))
  {
    AppliedOutputs(rows, raw, cmd);
  }

  /** The torques of the solver's gains, laid out in rotor order. */
  lemma SolvedTorques(g: Geometry, cmd: Command)
    requires Solvable(g)
    ensures Moment(RollArms(g), Responses(Layout(Solve(g)), cmd)) == 6.0 * g.d * cmd.roll
    ensures Moment(PitchArms(g), Responses(Layout(Solve(g)), cmd)) == 4.0 * g.b * cmd.pitch
    ensures Moment(RollArms(g), Responses(Layout(FrontYawFromRear(Solve(g))), cmd))
         == 6.0 * g.d * cmd.roll + 2.0 * g.d * cmd.yaw * (Solve(g).front.yaw - Solve(g).rear.yaw)
    ensures Moment(PitchArms(g), Responses(Layout(FrontYawFromRear(Solve(g))), cmd)) == 4.0 * g.b * cmd.pitch
  {
    SolveIsBalanced(g);
    BalancedTorques(g, Solve(g), cmd);
    RearYawAtFrontTorques(g, Solve(g), cmd);
  }

  /**
   * The mixer table decouples the axes for every geometry and every command:
   * its roll torque is 6 d times the roll demand and its pitch torque 4 b
   * times the pitch demand, whatever the yaw and thrust demands.
   */
  lemma TableDecouplesAxes(g: Geometry, cmd: Command)
    requires Valid(g)
    ensures RollTorque(g, HP1Table(g), cmd) == 6.0 * g.d * cmd.roll
    ensures PitchTorque(g, HP1Table(g), cmd) == 4.0 * g.b * cmd.pitch
  {
    TableAppliesRawGains(g);
    AppliedTorques(g, HP1Table(g), Layout(Solve(g)), cmd);
    SolvedTorques(g, cmd);
  }

  /**
   * As written, the table keeps pitch decoupled but a yaw demand rolls the
   * vehicle by 2 d times the gap between the front and rear yaw gains, which
   * is (c - 2a - b) / (b + c).
   */
  lemma AsWrittenYawRolls(g: Geometry, cmd: Command)
    requires Valid(g)
    ensures RollTorque(g, HP1TableAsWritten(g), cmd)
         == 6.0 * g.d * cmd.roll + 2.0 * g.d * cmd.yaw * (Solve(g).front.yaw - Solve(g).rear.yaw)
    ensures PitchTorque(g, HP1TableAsWritten(g), cmd) == 4.0 * g.b * cmd.pitch
  {
    AsWrittenAppliesRearYawAtFront(g);
    AppliedTorques(g, HP1TableAsWritten(g), Layout(FrontYawFromRear(Solve(g))), cmd);
    SolvedTorques(g, cmd);
  }

  /**
   * Pitch torque of rotors 2, 4 and 5, the rotors whose yaw entry is
   * positive: one middle rotor at a, the front rotor at b and the rear rotor
   * at c. The yaw constraint "a + yawFront * b = yawRear * c" says that a yaw
   * demand leaves this group without pitch torque.
   */
  function YawGroupPitch(g: Geometry, outs: seq<real>): real
    requires |outs| == 6
  {
    PitchArms(g)[1] * outs[1] + PitchArms(g)[3] * outs[3] + PitchArms(g)[4] * outs[4]
  }

  /** Under a pure yaw demand y, the group's pitch torque for any laid-out ring gains. */
  lemma LayoutYawGroupPitch(g: Geometry, e: RoleScales, y: real)
    ensures YawGroupPitch(g, Responses(Layout(e), Command(0.0, 0.0, y, 0.0)))
         == y * (g.a * e.mid.yaw + g.b * e.front.yaw - g.c * e.rear.yaw)
  {
    var outs := Responses(Layout(e), Command(0.0, 0.0, y, 0.0));
    assert outs[1] == y * e.mid.yaw;
    assert outs[3] == y * e.rear.yaw;
    assert outs[4] == y * e.front.yaw;
  }

  /**
   * With balanced gains the group answers a yaw demand without pitch torque;
   * with the rear yaw gain at the front it pitches by y (a + (b - c) yawRear).
   */
  lemma BalancedYawGroupPitch(g: Geometry, s: RoleScales, y: real)
    requires Balanced(g, s)
    ensures YawGroupPitch(g, Responses(Layout(s), Command(0.0, 0.0, y, 0.0))) == 0.0
    ensures YawGroupPitch(g, Responses(Layout(FrontYawFromRear(s)), Command(0.0, 0.0, y, 0.0)))
         == y * (g.a + (g.b - g.c) * s.rear.yaw)
  {
    LayoutYawGroupPitch(g, s, y);
    LayoutYawGroupPitch(g, FrontYawFromRear(s), y);
    assert g.a * s.mid.yaw + g.b * s.front.yaw - g.c * s.rear.yaw == 0.0;
  }

  /** The yaw group's pitch torque for the solver's gains, with and without the front yaw substitution. */
  lemma SolvedYawGroupPitch(g: Geometry, y: real)
    requires Solvable(g)
    ensures YawGroupPitch(g, Responses(Layout(Solve(g)), Command(0.0, 0.0, y, 0.0))) == 0.0
    ensures YawGroupPitch(g, Responses(Layout(FrontYawFromRear(Solve(g))), Command(0.0, 0.0, y, 0.0)))
         == y * (g.a + (g.b - g.c) * Solve(g).rear.yaw)
  {
    SolveIsBalanced(g);
    BalancedYawGroupPitch(g, Solve(g), y);
  }

  /** The yaw group of the table stays free of pitch torque under any yaw demand. */
  lemma TableYawGroupPitch(g: Geometry, y: real)
    requires Valid(g)
    ensures YawGroupPitch(g, Outputs(HP1Table(g), Command(0.0, 0.0, y, 0.0))) == 0.0
  {
    var cmd := Command(0.0, 0.0, y, 0.0);
    TableAppliesRawGains(g);
    AppliedOutputs(HP1Table(g), Layout(Solve(g)), cmd);
    SolvedYawGroupPitch(g, y);
  }

  /** As written, the yaw group pitches by y (a + (b - c) yawRear) under a yaw demand y. */
  lemma AsWrittenYawGroupPitch(g: Geometry, y: real)
    requires Valid(g)
    ensures YawGroupPitch(g, Outputs(HP1TableAsWritten(g), Command(0.0, 0.0, y, 0.0)))
         == y * (g.a + (g.b - g.c) * Solve(g).rear.yaw)
  {
    var cmd := Command(0.0, 0.0, y, 0.0);
    AsWrittenAppliesRearYawAtFront(g);
    AppliedOutputs(HP1TableAsWritten(g), Layout(FrontYawFromRear(Solve(g))), cmd);
    SolvedYawGroupPitch(g, y);
  }
}
