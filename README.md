# Vehicle tire-load model (Jazar, chapter 2)

This project models the `Veiculo` class of the vehicle-dynamics simulator: a
two-axle road vehicle described by its mass `m`, wheelbase `L`, CG height `h`,
track width `w` and the share of its weight on the front axle, and the two
closed-form load models built on it:

- **longitudinal loads** on a grade under acceleration or braking: a static
  grade term for each axle plus a load transfer `0.5 m ax h / L` moved from the
  front wheels to the rear wheels, each result clamped at zero (a zero load is
  a lifted wheel);
- **lateral loads** on a banked road: the low-side and high-side wheel loads
  with half-tracks `b1 = b2 = w/2`, clamped at zero (a zero high-side load is
  tip-over).

Every load is the load of ONE wheel: the source's factor 0.5 is kept exactly,
and the tool doubles the sum of the two loads for its "mass check". Gravity is
`9.81` (`G`). All arithmetic is exact (`real`).

Angles: the source converts degrees to radians and evaluates `cos` and `sin`
with floating-point library calls. The model takes those two values as the
datatype `RoadAngle.Trig(cos, sin)`; `Level` is the angle 0 (`cos = 1`,
`sin = 0`), and `Upright` says that both lie in `[0, 1]`, as they do for
the 0-90 degree angles the tool offers. Nothing else about trigonometry is
assumed.

Layout: `vehicle_loads.dfy` holds module `RoadAngle` (the angle abstraction)
and module `VehicleLoads` (the `Vehicle` datatype, the load functions and the
lemmas about them).

The source performs no checks on its inputs. The load equations divide by
`L` and `w`, so the model requires `m > 0`, `L > 0`, `w > 0` and `h >= 0`
(the predicate `Vehicle.Valid`, which also records `a1 + a2 == L` and
`g == 9.81`). The front-weight percentage is not restricted; the bounds on
`a1` and `a2` are stated for percentages in `[0, 100]`.

## Model

| member | source | states |
|---|---|---|
| `VehicleLoads.NewVehicle` | app.py:30-39 | the result is a valid vehicle with the given mass, wheelbase, CG height and track; `a2 / L` is the front-weight fraction `pct / 100` and `a1 / L` its complement, so `a1 + a2 == L`; for `0 <= pct <= 100` both distances lie in `[0, L]` |
| `VehicleLoads.LongitudinalLoads` | app.py:41-56 | both wheel loads are never negative; the front load is exactly 0 (wheel lift) if and only if the unclamped `term_front_stat - transf <= 0`, and likewise the rear load with `term_rear_stat + transf`; an unlifted wheel carries exactly its unclamped load |
| `VehicleLoads.LevelStaticSplit` | app.py:47-48 | at rest on level ground (with `a1, a2 >= 0`) the loads equal the static split `m·9.81·0.5·a2/L` (front) and `m·9.81·0.5·a1/L` (rear), the baselines the tool subtracts for its deltas at app.py:110-111 |
| `VehicleLoads.StaticSum` | app.py:47-48 | the two static grade terms add up to `0.5·m·g·cos φ` for any grade |
| `VehicleLoads.TransferConservesLoad` | app.py:47-56 | while neither wheel has lifted, front plus rear load is `0.5·m·g·cos φ`, independent of the acceleration `ax` |
| `VehicleLoads.MassCheck` | app.py:152-154 | on level ground, while neither wheel has lifted, twice the sum of the two loads is the weight `m·g` for every `ax` (the tool's mass check) |
| `VehicleLoads.TransferMonotone` | app.py:51 | the transferred load is non-decreasing in `ax` (mass positive, `h >= 0`, `L > 0`) |
| `VehicleLoads.AccelerationShiftsLoadRearward` | app.py:51-56 | at a fixed grade the front load is non-increasing and the rear load non-decreasing in `ax`, clamps included |
| `VehicleLoads.FrontLiftsExactlyAbove` | app.py:53-56 | with `h > 0` the front load is 0, the lift the tool flags at app.py:156-157, exactly when `ax` is at or above the lift acceleration `term_front_stat / (0.5·m·h/L)` |
| `VehicleLoads.RearLiftsExactlyBelow` | app.py:53-56 | with `h > 0` the rear load is 0 exactly when `ax` is at or below `-term_rear_stat / (0.5·m·h/L)` (hard braking) |
| `VehicleLoads.GradeUnloadsFront` | app.py:47 | at rest on a grade between 0 and 90 degrees the front load is never above its level-ground value (for `a2 >= 0`) |
| `VehicleLoads.GradeLoadsRearIff` | app.py:48 | at rest on a grade between 0 and 90 degrees the rear load is at least its level-ground value if and only if `h·sin φ >= a1·(1 - cos φ)` (for `a1 >= 0`) |
| `VehicleLoads.OnixPlusLevelLoads` | app.py:78-84 | the default configuration (1117 kg, 2.60 m, 0.54 m, 1.508 m, 60 % front) at rest on level ground gives exactly 3287.331 N front and 2191.554 N rear per wheel |
| `VehicleLoads.LateralLoads` | app.py:58-70 | both side loads are never negative; the high-side load is exactly 0 (tip-over, flagged at app.py:202-203) if and only if `(w/2)·cos φ <= h·sin φ`; the low-side load is 0 if and only if `(w/2)·cos φ + h·sin φ <= 0`; an unlifted side carries exactly its unclamped load |
| `VehicleLoads.LevelLateralEqual` | app.py:62-70 | on a level road both side loads equal `m·g/4`, because `b1 = b2 = w/2` |
| `VehicleLoads.LowSideCarriesMore` | app.py:67-70 | for `sin φ >= 0` the low-side load is at least the high-side load, clamps included |
| `VehicleLoads.LateralConservesLoad` | app.py:67-70 | while neither side has lifted, low plus high load is `0.5·m·g·cos φ` |

## Left out

- Streamlit page setup, sidebar inputs, tabs, metrics and warnings (app.py:9-24, app.py:75-211): user interface with no computation; only the conditions it checks on the loads (wheel lift, tip-over, mass check) are stated as lemmas.
- Matplotlib charts and the `np.linspace` sweeps (app.py:115-136, app.py:160-185, app.py:207-211): presentation; each sweep only calls the two load functions at sample points.
- `np.radians`, `np.cos`, `np.sin` and IEEE-754 rounding: floating-point library calls; angles enter as the exact values of their cosine and sine, and every property holds over exact reals, not over floats.
- Traction limits, resistance forces, braking lock-up decelerations, trailer hitch loads, a lateral CG offset and a stored tip-over angle: described for the wider system but absent from `Veiculo`, so there is no code to model.
- Error returns for a zero wheelbase or track: `Veiculo` has no guards, so these are preconditions of the model rather than error results.
