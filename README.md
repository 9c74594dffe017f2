# V24 hex-plus-one mixer table, modelled in Dafny

`generateHP1Table()` derives the static mixer table of the V24 "hex-plus-one"
six-rotor frame. It works from three lever-arm lengths: `a` for the middle
ring, `b` for the front ring and `c` for the rear rotors. A fourth length,
`d`, is the lateral offset, and the function assigns it but never reads it.

The function works in three steps:

1. It fixes reference gains and solves the moment-balance constraints stated
   in its comments. This gives raw roll, pitch, yaw and thrust gains for the
   front, middle and rear roles.
2. It divides each role's attitude gains by that role's thrust gain. This
   matches the flight controller's output convention
   `out = (roll*r + pitch*p + yaw*y + thrust) * t`. The front yaw entry is
   the exception: line 47 divides the rear role's yaw gain instead (see
   Findings).
3. It lays the gains out as six signed `(roll, pitch, yaw, thrust)` rows, in
   rotor order 1 to 6.

The model follows these steps as pure functions over `real`, so every ratio
is exact:

| module | file | contents |
|---|---|---|
| `MixerTypes` | `mixer_types.dfy` | gain tuple `Scales`, columns, sums |
| `Airframe` | `airframe.dfy` | the lengths, the division-safety predicates, rotor positions |
| `GainSolver` | `gain_solver.dfy` | the design constraints (`Balanced`) and the closed-form gains (`Solve`) |
| `Normalization` | `normalization.dfy` | division by the thrust gain, as intended and as written |
| `MixerTable` | `mixer_table.dfy` | the six-row layout and the two tables |
| `Moments` | `moments.dfy` | rotor outputs for a command, and the roll and pitch torques they exert |
| `V24Instance` | `v24_instance.dfy` | the lengths hard-coded at lines 24-27: a = 200, b = 760, c = 805, d = 570 |

The divisions of the script become preconditions: `b != 0`, `c != 0` and
`b + c != 0` for the solver, and `c != a` for the table, because the front
thrust gain `(c - a) / b` is a divisor there. On such lengths the script's
float division would raise `ZeroDivisionError`. The model does not model that
exception: it excludes these inputs by precondition.

## Geometry used for torques

The torque statements need rotor positions. They come from the diagram at
lines 3-13 and from the balance comments:

- Rotors 3 and 5 (front) sit `b` ahead of the centre of gravity.
- Rotors 1 and 2 (middle) sit `a` ahead of it, as the thrust balance
  "front and middle moments equal the rear moment" at line 35 requires.
- Rotors 4 and 6 (rear) sit `c` behind it.
- Every rotor is `d` to the side. Rotors 1, 4 and 5 are on the right, and
  rotors 2, 3 and 6 on the left.

With these positions, a positive roll demand rolls the right side down and a
positive pitch demand raises the nose. The signs of the emitted roll and
pitch columns agree with this.

## Notes on the formulas

- **Length roles.** The 200 mm length `a` is the middle ring's arm. The
  constraint comments take the front moment at `b` and add the middle ring's
  thrust moment at `a`. So the front thrust gain is `(c - a) / b`.
- **Rear yaw gain.** For the V24 lengths it is exactly 960 / 1565 ≈ 0.6134
  (`V24Instance.V24Gains`).
- **No guards.** The code checks neither for non-positive lengths nor for a
  negative thrust gain. The model adds no such check. Every V24 thrust gain
  is positive (`V24Instance.V24ThrustsPositive`).
- **Line 19.** Under the positions above, the yaw constraint at line 19 is
  the pitch balance of rotors 2, 4 and 5, the rotors whose yaw entry is
  positive: `a·1 + b·yawFront − c·yawRear = 0` (`Moments.YawGroupPitch`).

## Model

| member | source | states |
|---|---|---|
| `GainSolver.Balanced` | src/modules/systemlib/mixer/v24_hex_plus_one_mixer_table.py:16-21 | These are the design constraints of the comments, with the reference gains of lines 29-36. Together the two yaw equations force `yawFront*(b+c) == c - a`. `GainSolver.BalancedExactlyBySolve` proves that they have exactly one solution. |
| `GainSolver.Solve` | src/modules/systemlib/mixer/v24_hex_plus_one_mixer_table.py:29-38 | The middle and rear thrust gains are full gain. The front thrust gain is zero exactly when `c == a`. |
| `GainSolver.SolveIsBalanced` | src/modules/systemlib/mixer/v24_hex_plus_one_mixer_table.py:16-38 | The closed-form gains meet every stated constraint: unit roll gains, front pitch balancing rear (`1*b == pitchRear*c`) with middle pitch 0, `thrustFront*b + thrustMid*a == thrustRear*c`, `a*yawMid + yawFront*b == yawRear*c` and `yawFront + yawRear == yawMid`. |
| `GainSolver.BalancedExactlyBySolve` | src/modules/systemlib/mixer/v24_hex_plus_one_mixer_table.py:16-38 | The constraints with the fixed reference gains have exactly one solution, the closed forms (both directions). |
| `GainSolver.FrontRearYawDifference` | src/modules/systemlib/mixer/v24_hex_plus_one_mixer_table.py:36-38 | `yawFront - yawRear == (c - 2a - b) / (b + c)`. The two yaw gains are equal exactly when `c == 2a + b`. |
| `Normalization.NormalizeRole` | src/modules/systemlib/mixer/v24_hex_plus_one_mixer_table.py:41-52 | Normalisation keeps the thrust gain. |
| `Normalization.NormalizeRoleExactly` | src/modules/systemlib/mixer/v24_hex_plus_one_mixer_table.py:40-52 | Multiplying the normalised gains back by the thrust gain returns the raw gains. No other tuple does this (both directions). |
| `Normalization.Normalize` | src/modules/systemlib/mixer/v24_hex_plus_one_mixer_table.py:41-52 | The intended normalisation keeps every role's thrust gain. `Normalization.NormalizeRoundTrip` proves that each role then applies exactly its raw gains. |
| `Normalization.NormalizeRoundTrip` | src/modules/systemlib/mixer/v24_hex_plus_one_mixer_table.py:41-52 | With each role divided by its own thrust gain, every role applies exactly its raw gains. |
| `Normalization.NormalizeAsWritten` | src/modules/systemlib/mixer/v24_hex_plus_one_mixer_table.py:41-52 | The normalisation as written, line 47 included, differs from the intended one only in the front yaw entry. That entry is the rear yaw gain divided by the front thrust gain. `Normalization.NormalizeAsWrittenRoundTrip` gives the gains it applies. |
| `Normalization.NormalizeAsWrittenRoundTrip` | src/modules/systemlib/mixer/v24_hex_plus_one_mixer_table.py:41-52 | As written, the middle and rear roles apply their raw gains. The front role applies the rear yaw gain in place of its own. |
| `Normalization.NormalizeFullThrustRole` | src/modules/systemlib/mixer/v24_hex_plus_one_mixer_table.py:42-49 | Normalisation leaves a role at full thrust gain unchanged. |
| `MixerTable.Layout` | src/modules/systemlib/mixer/v24_hex_plus_one_mixer_table.py:56-61 | The six rows in rotor order. `MixerTable.LayoutMirrorPairs`, `MixerTable.LayoutColumnSums` and `Moments.LayoutTorques` give their mirror symmetry, column sums and torques. |
| `MixerTable.LayoutMirrorPairs` | src/modules/systemlib/mixer/v24_hex_plus_one_mixer_table.py:56-61 | Rows 1/2, 3/5 and 4/6 have opposite roll and yaw and equal pitch and thrust. The thrust column lists each ring's thrust gain. This holds for any gains, so for both tables. |
| `MixerTable.LayoutColumnSums` | src/modules/systemlib/mixer/v24_hex_plus_one_mixer_table.py:56-61 | The roll column and the yaw column each sum to exactly 0, for any gains. |
| `MixerTable.EffectiveOfLayout` | src/modules/systemlib/mixer/v24_hex_plus_one_mixer_table.py:56-61 | The row signs commute with multiplying back by thrust. A laid-out normalised table applies the laid-out raw gains. |
| `MixerTable.AppliesKeepsThrust` | src/modules/systemlib/mixer/v24_hex_plus_one_mixer_table.py:50-52 | A table applies the thrust gains it lists. |
| `MixerTable.HP1Table` | src/modules/systemlib/mixer/v24_hex_plus_one_mixer_table.py:23-61 | The generator with line 47 corrected: six rows in rotor order, each role divided by its own thrust gain. Its properties are the `MixerTable`, `Moments` and `V24Instance` lemmas below. |
| `MixerTable.HP1TableAsWritten` | src/modules/systemlib/mixer/v24_hex_plus_one_mixer_table.py:23-61 | The generator as written, six rows in rotor order. The front rows carry the rear yaw gain (see Findings). |
| `MixerTable.TableAppliesRawGains` | src/modules/systemlib/mixer/v24_hex_plus_one_mixer_table.py:40-61 | Under the output convention, every row of the table applies exactly its ring's raw gains with the row's signs. |
| `MixerTable.AsWrittenAppliesRearYawAtFront` | src/modules/systemlib/mixer/v24_hex_plus_one_mixer_table.py:47 | The as-written table applies the raw gains, except that the front rows apply the rear yaw gain. |
| `MixerTable.TableThrustColumn` | src/modules/systemlib/mixer/v24_hex_plus_one_mixer_table.py:50-61 | The thrust column of both tables is `[1, 1, (c-a)/b, 1, (c-a)/b, 1]`. |
| `MixerTable.MidRowsDoNotPitch` | src/modules/systemlib/mixer/v24_hex_plus_one_mixer_table.py:56-57 | Both middle rows are `(∓1, 0, ∓1, 1)` in both tables, so their pitch entry is 0. |
| `MixerTable.TableIgnoresLateralArm` | src/modules/systemlib/mixer/v24_hex_plus_one_mixer_table.py:27 | Changing `d` changes no entry of either table. |
| `Moments.Output` | src/modules/systemlib/mixer/v24_hex_plus_one_mixer_table.py:40 | The rotor output under the flight controller's convention. A pure thrust command drives a rotor at thrust times its thrust gain. `Moments.OutputIsResponse` shows that the output is linear in the command. |
| `Moments.OutputIsResponse` | src/modules/systemlib/mixer/v24_hex_plus_one_mixer_table.py:40 | The output convention is linear in the command. The coefficients are the row's gains multiplied by its thrust gain. |
| `Moments.AppliedOutputs` | src/modules/systemlib/mixer/v24_hex_plus_one_mixer_table.py:40 | For every command, a table produces the outputs of the gains it applies. |
| `Moments.LayoutTorques` | src/modules/systemlib/mixer/v24_hex_plus_one_mixer_table.py:56-61 | For any gains, the row signs cancel the pitch and thrust demands in roll torque, and the roll and yaw demands in pitch torque (closed forms). |
| `Moments.BalancedTorques` | src/modules/systemlib/mixer/v24_hex_plus_one_mixer_table.py:16-21 | Gains that meet the constraints give roll torque `6 d roll` and pitch torque `4 b pitch`. |
| `Moments.RearYawAtFrontTorques` | src/modules/systemlib/mixer/v24_hex_plus_one_mixer_table.py:47 | With the rear yaw gain at the front, roll torque gains a yaw term `2 d yaw (yawFront - yawRear)`. Pitch torque is unaffected. |
| `Moments.AppliedTorques` | src/modules/systemlib/mixer/v24_hex_plus_one_mixer_table.py:40 | A table's torques are those of the gains it applies. |
| `Moments.SolvedTorques` | src/modules/systemlib/mixer/v24_hex_plus_one_mixer_table.py:29-38 | These are the torques of the solved gains laid out in rotor order, with and without the front yaw substitution. |
| `Moments.TableDecouplesAxes` | src/modules/systemlib/mixer/v24_hex_plus_one_mixer_table.py:15-21 | For every valid geometry and every command, the table's roll torque is `6 d roll` and its pitch torque is `4 b pitch`. Yaw and thrust demands cause no roll or pitch. |
| `Moments.AsWrittenYawRolls` | src/modules/systemlib/mixer/v24_hex_plus_one_mixer_table.py:47 | The as-written table's roll torque is `6 d roll + 2 d yaw (yawFront - yawRear)`. Its pitch torque is `4 b pitch`. |
| `Moments.LayoutYawGroupPitch` | src/modules/systemlib/mixer/v24_hex_plus_one_mixer_table.py:56-61 | For any laid-out gains, a yaw demand `y` pitches rotors 2, 4 and 5 by `y (a yawMid + b yawFront - c yawRear)`. |
| `Moments.BalancedYawGroupPitch` | src/modules/systemlib/mixer/v24_hex_plus_one_mixer_table.py:19 | With balanced gains that pitch torque is 0. With the rear yaw gain at the front, it is `y (a + (b - c) yawRear)`. |
| `Moments.SolvedYawGroupPitch` | src/modules/systemlib/mixer/v24_hex_plus_one_mixer_table.py:19 | The same two statements for the solver's gains. |
| `Moments.TableYawGroupPitch` | src/modules/systemlib/mixer/v24_hex_plus_one_mixer_table.py:19 | For every valid geometry and every yaw demand, rotors 2, 4 and 5 of the table exert no pitch torque. |
| `Moments.AsWrittenYawGroupPitch` | src/modules/systemlib/mixer/v24_hex_plus_one_mixer_table.py:47 | In the as-written table these rotors pitch by `y (a + (b - c) yawRear)` under a yaw demand `y`. |
| `V24Instance.V24Gains` | src/modules/systemlib/mixer/v24_hex_plus_one_mixer_table.py:24-38 | The V24 lengths are valid. `yawRear == 960/1565`, `yawFront == 605/1565`, `pitchRear == 760/805`, and `thrustFront == 605/760 > 0`. |
| `V24Instance.V24AsWrittenTable` | src/modules/systemlib/mixer/v24_hex_plus_one_mixer_table.py:24-61 | These are the exact six rows `generateHP1Table()` prints for its hard-coded lengths, before rounding. |
| `V24Instance.V24Table` | src/modules/systemlib/mixer/v24_hex_plus_one_mixer_table.py:24-61 | These are the exact six rows of the corrected V24 table. |
| `V24Instance.V24ThrustsPositive` | src/modules/systemlib/mixer/v24_hex_plus_one_mixer_table.py:33-35 | Every thrust entry of both V24 tables is strictly positive. |
| `V24Instance.V24AsWrittenYawRolls` | src/modules/systemlib/mixer/v24_hex_plus_one_mixer_table.py:47 | On V24, a unit yaw demand gives roll torque `2 * 570 * (-355/1565)`, which is nonzero, with the as-written table, and 0 with the corrected one. |
| `V24Instance.V24AsWrittenYawGroupPitches` | src/modules/systemlib/mixer/v24_hex_plus_one_mixer_table.py:47 | On V24, a unit yaw demand pitches rotors 2, 4 and 5 by `269800/1565`, which is nonzero, with the as-written table, and by 0 with the corrected one. |

## Findings

| source | as written | input that shows it | evidently intended | confidence | as-written member | corrected member |
|---|---|---|---|---|---|---|
| src/modules/systemlib/mixer/v24_hex_plus_one_mixer_table.py:47 | The front rows' yaw entry is the rear yaw gain divided by the front thrust gain. The front yaw gain computed at line 38 is never used. | a = 200, b = 760, c = 805, d = 570 with a pure unit yaw demand. The roll torque is 2·570·(−355/1565) ≈ −258.6 instead of 0, so the constraint of line 21 fails in the emitted table. The same demand pitches rotors 2, 4 and 5 by 269800/1565 instead of 0, against line 19. | The front yaw gain divided by the front thrust gain. With that, a yaw demand produces no roll for every valid geometry. | not executed; high, because the front yaw gain is assigned and never read | `V24Instance.V24AsWrittenYawRolls`, `V24Instance.V24AsWrittenYawGroupPitches` (on `MixerTable.HP1TableAsWritten`, `Moments.AsWrittenYawRolls`) | `Moments.TableDecouplesAxes`, `Moments.TableYawGroupPitch` (on `MixerTable.HP1Table`) |

## Left out

- Printing: the `print` calls, the C array envelope and the `{:9f}` formatting (lines 55-62) are text output only. The table is modelled as a sequence of exact 4-tuples.
- Floating point: the script computes in IEEE doubles. The model uses exact reals, so the identities hold exactly, and rounding is not modelled.
- The `numpy` import (line 1) is unused by the script.
- Yaw torque: the script has no rotor spin directions, so the model does not derive yaw torque. It covers the roll and pitch torques that the yaw column must not disturb.
- Linear solves and spin directions: this script solves no linear system and has no spin-direction terms. Pseudo-inverse roll solving and spin-weighted yaw are not modelled.
- Division errors: where a divisor is zero the script would raise `ZeroDivisionError`. The model excludes those inputs by precondition (`Airframe.Solvable`, `Airframe.Valid`), so it does not model the exception.
