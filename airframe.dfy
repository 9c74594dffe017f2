/**
 * The airframe geometry of the V24 hex-plus-one vehicle.
 *
 * Seen from above, nose up, the six rotors sit in two columns:
 *
 *     (3)      (5)      front ring, b ahead of the centre of gravity
 *     (2)      (1)      middle ring, a ahead of the centre of gravity
 *           x           centre of gravity
 *     (6)      (4)      rear ring, c behind the centre of gravity
 *
 * Every rotor is d to the side of the longitudinal axis. The roles of a, b
 * and c follow the balance constraints of the generator: the front moment is
 * taken at b and the rear one at c, and the middle ring adds its thrust
 * moment to the front one.
 */
module Airframe {

  /** The four characteristic lengths of the frame, in millimetres. */
  datatype Geometry = Geometry(
    a: real, // middle ring, ahead of the centre of gravity
    b: real, // front ring, ahead of the centre of gravity
    c: real, // rear ring, behind the centre of gravity
    d: real  // lateral offset of every rotor; the gain derivation never reads it
  )

  /** The lengths for which the three closed-form gain ratios are defined. */
  predicate Solvable(g: Geometry) {
    g.b != 0.0 && g.c != 0.0 && g.b + g.c != 0.0
  }

  /**
   * The lengths for which the whole table is defined: besides the three
   * ratios, the front thrust gain (c - a) / b divides the front row and so
   * must not be zero.
   */
  predicate Valid(g: Geometry) {
    Solvable(g) && g.c != g.a
  }

  /**
   * Longitudinal position of each rotor in table order (rotor 1 to rotor 6),
   * positive ahead of the centre of gravity: an upward force there pitches
   * the nose up.
   */
  function PitchArms(g: Geometry): seq<real> {
    [g.a, g.a, g.b, -g.c, g.b, -g.c]
  }

  /**
   * Lateral position of each rotor in table order, positive on the left
   * side: an upward force there rolls the vehicle right side down. Rotors 1,
   * 4 and 5 are on the right, rotors 2, 3 and 6 on the left.
   */
  function RollArms(g: Geometry): seq<real> {
    [-g.d, g.d, g.d, -g.d, -g.d, g.d]
  }
}
