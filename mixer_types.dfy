/**
 * Shared vocabulary of the hex-plus-one mixer model: the four-axis gain tuple
 * that every rotor row of the mixer table carries, and exact sums over
 * sequences of reals.
 */
module MixerTypes {

  /** The four control axes, in the order a mixer row lists them. */
  datatype Axis = Roll | Pitch | Yaw | Thrust

  /**
   * Gains of one rotor for the four control axes, in the order of a
   * `MultirotorMixer::Rotor` row: (roll, pitch, yaw, thrust).
   */
  datatype Scales = Scales(roll: real, pitch: real, yaw: real, thrust: real) {

    /** The gain this tuple holds for one axis. */
    function Gain(axis: Axis): real {
      match axis
      case Roll => roll
      case Pitch => pitch
      case Yaw => yaw
      case Thrust => thrust
    }
  }

  /** One column of a table: the gain every row holds for `axis`, in row order. */
  function Column(rows: seq<Scales>, axis: Axis): seq<real> {
    seq(|rows|, i requires 0 <= i < |rows| => rows[i].Gain(axis))
  }

  /** Sum of a sequence of reals, first element first. */
  function Sum(xs: seq<real>): real {
    if xs == [] then 0.0 else xs[0] + Sum(xs[1..])
  }

  /** A six-element sum, the size of every column of the mixer table, written out. */
  lemma {:induction false} SumOfSix(xs: seq<real>)
    requires |xs| == 6
    ensures Sum(xs) == xs[0] + xs[1] + xs[2] + xs[3] + xs[4] + xs[5]
  {
    assert Sum(xs[5..]) == xs[5] by { assert xs[5..][1..] == []; }
    assert Sum(xs[4..]) == xs[4] + Sum(xs[5..]) by { assert xs[4..][1..] == xs[5..]; }
    assert Sum(xs[3..]) == xs[3] + Sum(xs[4..]) by { assert xs[3..][1..] == xs[4..]; }
    assert Sum(xs[2..]) == xs[2] + Sum(xs[3..]) by { assert xs[2..][1..] == xs[3..]; }
    assert Sum(xs[1..]) == xs[1] + Sum(xs[2..]) by { assert xs[1..][1..] == xs[2..]; }
  }
}
