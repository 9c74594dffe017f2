/**
 * The V24 frame whose lengths the generator hard-codes: a = 200, b = 760,
 * c = 805 and d = 570 millimetres.
 */
module V24Instance {
  import opened MixerTypes
  import opened Airframe
  import opened GainSolver
  import opened Normalization
  import opened MixerTable
  import opened Moments

  const V24: Geometry := Geometry(200.0, 760.0, 805.0, 570.0)

  /** The V24 lengths admit every division, and their raw gains are these exact ratios. */
  lemma V24Gains()
    ensures Valid(V24)
    ensures Solve(V24).rear.yaw == 960.0 / 1565.0
    ensures Solve(V24).front.yaw == 605.0 / 1565.0
    ensures Solve(V24).rear.pitch == 760.0 / 805.0
    ensures Solve(V24).front.thrust == 605.0 / 760.0 > 0.0
  {
  }

  /**
   * The table the generator prints for its hard-coded V24 lengths, before rounding to
   * six decimals: the front rows carry 729600 / 946825, which is the rear
   * yaw gain 960 / 1565 divided by the front thrust gain 605 / 760.
   */
  lemma V24AsWrittenTable()
    ensures HP1TableAsWritten(V24) == [
      Scales(-1.0, 0.0, -1.0, 1.0),
      Scales(1.0, 0.0, 1.0, 1.0),
      Scales(760.0 / 605.0, 760.0 / 605.0, -729600.0 / 946825.0, 605.0 / 760.0),
      Scales(-1.0, -760.0 / 805.0, 960.0 / 1565.0, 1.0),
      Scales(-760.0 / 605.0, 760.0 / 605.0, 729600.0 / 946825.0, 605.0 / 760.0),
      Scales(1.0, -760.0 / 805.0, -960.0 / 1565.0, 1.0)]
  {
  }

  /**
   * The corrected table for the V24 frame: the front rows carry the front
   * yaw gain 605 / 1565 divided by the front thrust gain, that is 760 / 1565.
   */
  lemma V24Table()
    ensures HP1Table(V24) == [
      Scales(-1.0, 0.0, -1.0, 1.0),
      Scales(1.0, 0.0, 1.0, 1.0),
      Scales(760.0 / 605.0, 760.0 / 605.0, -760.0 / 1565.0, 605.0 / 760.0),
      Scales(-1.0, -760.0 / 805.0, 960.0 / 1565.0, 1.0),
      Scales(-760.0 / 605.0, 760.0 / 605.0, 760.0 / 1565.0, 605.0 / 760.0),
      Scales(1.0, -760.0 / 805.0, -960.0 / 1565.0, 1.0)]
  {
  }

  /** Every rotor of the V24 frame has a strictly positive thrust gain, in both tables. */
  lemma V24ThrustsPositive()
    ensures forall i :: 0 <= i < 6 ==> HP1Table(V24)[i].thrust > 0.0
    ensures forall i :: 0 <= i < 6 ==> HP1TableAsWritten(V24)[i].thrust > 0.0
  {
    V24Table();
    V24AsWrittenTable();
  }

  /**
   * On the V24 frame a pure yaw demand of one rolls the vehicle with the
   * table as written (torque 2 * 570 * (-355 / 1565)), and does not with the
   * corrected table.
   */
  lemma V24AsWrittenYawRolls()
    ensures RollTorque(V24, HP1TableAsWritten(V24), Command(0.0, 0.0, 1.0, 0.0))
         == 2.0 * 570.0 * (-355.0 / 1565.0)
    ensures RollTorque(V24, HP1TableAsWritten(V24), Command(0.0, 0.0, 1.0, 0.0)) != 0.0
    ensures RollTorque(V24, HP1Table(V24), Command(0.0, 0.0, 1.0, 0.0)) == 0.0
  {
    var yaw := Command(0.0, 0.0, 1.0, 0.0);
    V24Gains();
    AsWrittenYawRolls(V24, yaw);
    TableDecouplesAxes(V24, yaw);
  }

  /**
   * On the V24 frame a pure yaw demand of one pitches rotors 2, 4 and 5 by
   * 200 - 45 * 960 / 1565 with the table as written, and not at all with the
   * corrected table.
   */
  lemma V24AsWrittenYawGroupPitches()
    ensures YawGroupPitch(V24, Outputs(HP1TableAsWritten(V24), Command(0.0, 0.0, 1.0, 0.0)))
         == 269800.0 / 1565.0
    ensures YawGroupPitch(V24, Outputs(HP1Table(V24), Command(0.0, 0.0, 1.0, 0.0))) == 0.0
  {
    V24Gains();
    AsWrittenYawGroupPitch(V24, 1.0);
    TableYawGroupPitch(V24, 1.0);
  }
}
