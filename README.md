# Conquer Space core, modelled in Dafny

This project models four small, self-contained pieces of the Conquer Space strategy game and proves what they promise.

- **Resource systems** (`src/common/systems/sysresourcegen.cpp`). The game runs three per-tick systems over an entity registry:
  - generation adds `generator * productivity * Interval()` to each generator's stockpile;
  - factory production adds `recipe.output * productivity * Interval()` to every factory that carries the `Production` tag;
  - factory consumption compares the factory's market stockpile with the factory's own stockpile. If the market is greater, it tags the factory with `Production` and debits the market by `recipe.input * productivity * Interval()`.

  The registry is a `Registry.Universe` object. Its fields are maps from entity to component and a set for the `Production` tag. Each system is a method that loops over a view, given as a sequence of entities, and updates those fields in place. Each method is proved equal to a function on values (`Generate`, `Produce`, `Consume`), and the properties are proved about those functions in `ResourceProperties`.
- **Orbit and kinematics math** (`src/common/components/movement.h`). This covers:
  - degree/radian conversion;
  - the `fmod(θ, 360)` reduction of the true anomaly;
  - the conic radius `a(1−e²)/(1−e·cos(θ mod 360 + argument))`;
  - the polar-to-Cartesian step;
  - the 0.01 render-scale divisor;
  - Kepler's period and the daily angular velocity;
  - the in-place `updateOrbit`, `updatePos` and `findPeriod`.

  `Orbit` and `Kinematics` are classes, because the source updates their fields through references. cos, sin and sqrt are values of type `CMath.MathLib`. The lemmas that need their laws take those laws as predicates (`CosBounded`, `Pythagorean`, `TrigPeriodic`, `SqrtLaw`).
- **UV-sphere mesh builder** (`src/engine/renderer/primitives/uvsphere.cpp`). Its steps:
  - nested loops fill the positions, texture coordinates and normals;
  - a boustrophedon loop builds the triangle-strip index list;
  - a last loop interleaves the 8-float vertex records;
  - the mesh's render type and index count are set.

  Each loop is a method, proved equal to a sequence-valued function. The column loop of the vertex grid is bounded by `y_segments`, not by `x_segments`, and the model keeps that bound. As a result:
  - the grid has `(y_segments+1)²` vertices;
  - the strip indices stay within it exactly when `x_segments <= y_segments` (`StripInBounds`);
  - the only caller, `ConstructSphereMesh(256, 256, …)`, satisfies that condition (`UniverseSphere`).
- **Turn pacing window** (`src/client/systems/systurnsavewindow.cpp`). `SysTurnSaveWindow` is a class with `tick_speed`, `tick_speeds`, `to_tick` and `last_tick`:
  - the `<<`, play/pause and `>>` buttons are the booleans of `DoUi`;
  - the Space key release and keyboard capture are the booleans of `DoUpdate`;
  - `GetTime()` is passed in as a real;
  - `EnableTick()` is a ghost counter of enabled ticks.

  The state machine is also written as functions on a `Pace` value, and the methods are proved to follow them. The `tick_speeds.size() - 1` of the `>>` guard is computed as a 64-bit unsigned subtraction, so an empty `tick_speeds` lets `>>` climb up to 2⁶⁴−1 (`EmptySpeedsUnbounded`).

## Model

| member | source | states |
|---|---|---|
| Resource.Add | src/common/systems/sysresourcegen.cpp:29 | `+=` on resource maps adds amounts good by good, over the union of the goods of both maps (an assumed semantics, because resource.h is not part of this model) |
| Resource.Sub | src/common/systems/sysresourcegen.cpp:81 | `-=` subtracts good by good, over the union of goods, with no clamping at zero (assumed semantics) |
| Resource.Scale | src/common/systems/sysresourcegen.cpp:29 | `map * k` multiplies every amount by `k` and keeps the same goods (assumed semantics) |
| Registry.Productivity | src/common/systems/sysresourcegen.cpp:24-27 | the productivity the systems apply is the entity's FactoryProductivity when it has one, and 1 otherwise |
| ResourceSystems.GenerationCredit | src/common/systems/sysresourcegen.cpp:24-29 | for every good, the credit of a generator is its generator rate × productivity × interval |
| ResourceSystems.Generate | src/common/systems/sysresourcegen.cpp:16-30 | generation keeps the set of stockpiles and the Production tags |
| ResourceSystems.SysResourceGen | src/common/systems/sysresourcegen.cpp:12-31 | the in-place loop over the generator/stockpile view leaves the registry equal to `Generate` of the old registry, whatever order the view lists its entities in |
| ResourceSystems.ProductionCredit | src/common/systems/sysresourcegen.cpp:41-51 | for every good, the production credit is the output of the converter's recipe × productivity × interval |
| ResourceSystems.Produce | src/common/systems/sysresourcegen.cpp:36-52 | production keeps the set of stockpiles and the Production tags |
| ResourceSystems.SysFactoryResourceProduction | src/common/systems/sysresourcegen.cpp:33-53 | the in-place loop over the Production/converter/stockpile view, with every recipe resolving, leaves the registry equal to `Produce` of the old registry |
| ResourceSystems.ConsumptionDebit | src/common/systems/sysresourcegen.cpp:67-81 | for every good, the debit is the recipe input × productivity × interval |
| ResourceSystems.ConsumeOne | src/common/systems/sysresourcegen.cpp:64-82 | one step of the consumption loop keeps the set of stockpiles, and either leaves the tags alone or adds only the entity's own |
| ResourceSystems.Consume | src/common/systems/sysresourcegen.cpp:60-83 | the consumption pass keeps the set of stockpiles, never removes a Production tag, tags only entities in the view, and leaves unchanged every stockpile that is no visited entity's market |
| ResourceSystems.SysFactoryResourceConsumption | src/common/systems/sysresourcegen.cpp:55-84 | the in-place loop over the converter/stockpile/participant view leaves the registry equal to `Consume` over that view in its order, with later entities seeing earlier debits of a shared market |
| ResourceProperties.GenerationExact | src/common/systems/sysresourcegen.cpp:16-29 | a generator's new stockpile is exactly its old stockpile plus generator × productivity × interval, with no cap; a stockpile without a generator is unchanged |
| ResourceProperties.MissingProductivityIsOne | src/common/systems/sysresourcegen.cpp:24-27 | with no FactoryProductivity, generation credits `generator * interval` and production credits `output * interval`, so productivity counts as 1; the same default is used at lines 46-49 and 69-72 |
| ResourceProperties.GenerateTicks | src/common/systems/sysresourcegen.cpp:16-30 | any number of generation passes keeps the set of stockpiles |
| ResourceProperties.GenerationStepMonotone | src/common/systems/sysresourcegen.cpp:29 | with non-negative rates, productivities and interval, one generation step never lowers any amount of any stockpile |
| ResourceProperties.GenerationMonotone | src/common/systems/sysresourcegen.cpp:29 | under the same sign conditions, no amount is lowered by any number of generation ticks |
| ResourceProperties.ProductionExact | src/common/systems/sysresourcegen.cpp:36-51 | a tagged converter's stockpile gains exactly recipe.output × productivity × interval; a stockpile that is untagged or has no converter is unchanged |
| ResourceProperties.ConsumptionGate | src/common/systems/sysresourcegen.cpp:79-83 | if the market compares greater, the entity ends tagged (whether or not it was before), the market falls by exactly input × productivity × interval in every good, and no other stockpile changes; otherwise the registry is unchanged and an existing tag stays |
| ResourceProperties.GateAdmitsOverdraw | src/common/systems/sysresourcegen.cpp:79-81 | the gate compares against the consumer's own stockpile, not against the debit: with element-wise `>`, a market holding 1 unit pays an input of 10 and goes negative |
| ResourceProperties.TagAfterTurn | src/common/systems/sysresourcegen.cpp:61-80 | once an entity's turn in the consumption loop is over, later turns neither add nor remove its tag |
| ResourceProperties.ConsumptionTagIff | src/common/systems/sysresourcegen.cpp:61-82 | an untagged consumer is tagged after the pass if and only if the gate held against the stockpiles left by the consumers before it |
| ResourceProperties.TwoTickLatency | src/common/systems/sysresourcegen.cpp:36-80 | with generation, production and consumption run in that order, an untagged factory gets no output in the tick that first tags it, and gets exactly recipe.output × productivity × interval in the next tick |
| ResourceProperties.Tick | src/common/systems/sysresourcegen.cpp:12-84 | a tick of generation, production and consumption keeps the set of stockpiles, and every tagged converter's recipe still resolves afterwards |
| Movement.Kinematics.constructor | src/common/components/movement.h:18-24 | a new Kinematics is at the origin with zero velocity and top speed 10 |
| Movement.Orbit.constructor | src/common/components/movement.h:51-57 | the five-argument constructor stores true anomaly, semi-major axis, eccentricity, argument and gravitational parameter, and has no reference body |
| Movement.UpdateOrbit | src/common/components/movement.h:81-84 | theta grows by angularvelocity with no mod-360 reduction, only theta changes, and the same orbit is returned |
| Movement.UpdatePos | src/common/components/movement.h:86-88 | the position becomes position + velocity; only the position changes |
| Glm.Plus | src/common/components/movement.h:87 | vector addition adds component by component |
| Movement.KeplerPeriod | src/common/components/movement.h:91-92 | for positive a and μ, the period is positive and satisfies Kepler's law p²·μ = (2π)²·a³ |
| Movement.DailyAngle | src/common/components/movement.h:93 | for a positive period the angular velocity is positive and covers 360 degrees in period × 365 days |
| Movement.FindPeriod | src/common/components/movement.h:90-94 | only period and angularvelocity change; they become the Kepler period of the orbit and its daily angle |
| Movement.KeplerPeriodFormula | src/common/components/movement.h:91-92 | the period is `TWOPI * sqrt(a³/μ)` |
| Movement.FullTurnPerPeriod | src/common/components/movement.h:90-94 | angularvelocity × period × 365 == 360 |
| Movement.ToRadian | src/common/components/movement.h:98-100 | toRadian(θ) · 180 == θ · π |
| Movement.ToDegree | src/common/components/movement.h:102-104 | toDegree(θ) · π == θ · 180 |
| Movement.AngleRoundTrip | src/common/components/movement.h:98-104 | toDegree(toRadian(d)) == d and toRadian(toDegree(r)) == r |
| Movement.AngleTable | test/components/orbittest.cpp:51-71 | the conversions of 30, 45, 60, 90, 180 and 360 degrees to π/6, π/4, π/3, π/2, π and 2π, and back |
| Movement.RadianTurn | src/common/components/movement.h:98-100 | a turn of 360 degrees is 2π radians |
| Movement.ToVec2 | src/common/components/movement.h:108-115 | given sin² + cos² = 1, the Cartesian point of a polar coordinate lies at distance r from the origin |
| Movement.ToVec2Turn | src/common/components/movement.h:108-115 | given cos and sin that repeat after 2·PI, adding 360 degrees to the polar angle gives the same point |
| CMath.FMod360 | src/common/components/movement.h:120-121 | fmod(x, 360) differs from x by a whole number of turns, lies in [0, 360) for x ≥ 0 and in (−360, 0] for x < 0 |
| CMath.FModTurns | src/common/components/movement.h:120-121 | for x ≥ 0, adding k whole turns does not change fmod(x, 360) |
| CMath.FModSmall | src/common/components/movement.h:120-121 | fmod(x, 360) == x on [0, 360) |
| Movement.Denominator | src/common/components/movement.h:119-120 | for −1 < e < 1 the conic denominator is positive, and between 1 − e and 1 + e when e ≥ 0 |
| Movement.ToPolarCoordinate | src/common/components/movement.h:117-122 | the angle is fmod(θ, 360), without the argument, and lies in [0, 360) for θ ≥ 0; r × denominator == a(1 − e²); a circular orbit has r == a |
| Movement.Apsides | src/common/components/movement.h:118-120 | for 0 ≤ e < 1 and a ≥ 0 the radius lies between the periapsis a(1 − e) and the apoapsis a(1 + e) |
| Movement.ToVec2Orbit | src/common/components/movement.h:124 | given sin² + cos² = 1, the orbit's point lies at the conic radius of `toPolarCoordinate` from the focus at the origin |
| Movement.ToVec2OrbitTurns | src/common/components/movement.h:117-124 | for θ ≥ 0, orbits that differ only by 360k degrees of theta map to the same point, for any a, argument and −1 < e < 1 |
| Movement.CircularOrbit | src/common/components/movement.h:118-124 | with e == 0 the orbit's point lies at distance a from the origin (the focus), for every theta |
| Movement.CalculateObjectPos | src/common/components/movement.h:126-130 | the render position is (x / 0.01, 0, y / 0.01) of the orbit's point, so its y component is 0 |
| Movement.CircularObjectPos | src/common/components/movement.h:126-130 | a circular orbit is drawn at distance 100·a in the y = 0 plane |
| Movement.UpdatePosFromOrbit | src/common/components/movement.h:132-134 | the position becomes CalculateObjectPos of the orbit, is returned, and nothing else changes |
| UVSphere.PushGridRow | src/engine/renderer/primitives/uvsphere.cpp:28-38 | the inner vertex loop appends one row of positions, texture coordinates and normals |
| UVSphere.BuildVertices | src/engine/renderer/primitives/uvsphere.cpp:27-39 | the vertex loops produce `Positions`, `TexCoords`, and normals equal to the positions |
| UVSphere.VertexCounts | src/engine/renderer/primitives/uvsphere.cpp:27-39 | positions, uv and normals each hold (y_segments + 1)² entries |
| UVSphere.VertexAt | src/engine/renderer/primitives/uvsphere.cpp:27-37 | entry y·(y_segments + 1) + x holds the vertex of step (x, y), and the uv (x / x_segments, y / y_segments); that normals equal positions is stated by `BuildVertices` |
| UVSphere.Position | src/engine/renderer/primitives/uvsphere.cpp:29-35 | given sin² + cos² = 1, the point pushed for grid step (x, y) lies on the unit sphere |
| UVSphere.TexCoord | src/engine/renderer/primitives/uvsphere.cpp:29-36 | the uv pushed for step (x, y) is (x / x_segments, y / y_segments): non-negative, and at most 1 in a coordinate that stays within its segment count |
| UVSphere.PushForwardRow | src/engine/renderer/primitives/uvsphere.cpp:43-46 | an even row appends its strip pairs for x = 0 … x_segments |
| UVSphere.PushBackwardRow | src/engine/renderer/primitives/uvsphere.cpp:48-51 | an odd row appends its strip pairs for x = x_segments … 0 |
| UVSphere.StripPair | src/engine/renderer/primitives/uvsphere.cpp:42-52 | read as (row, column) of the grid x_segments + 1 wide, the two indices of column step j of row y name one column, j on an even row and x_segments − j on an odd one, upper row first on an even row and lower row first on an odd one |
| UVSphere.StripRow | src/engine/renderer/primitives/uvsphere.cpp:42-52 | one strip row holds 2 (x_segments + 1) indices |
| UVSphere.BuildStripIndices | src/engine/renderer/primitives/uvsphere.cpp:41-53 | with x_segments < 2³¹−1 and at most 2³² grid vertices, the strip loop produces `StripIndices` |
| UVSphere.StripIndices | src/engine/renderer/primitives/uvsphere.cpp:41-53 | the index list has 2·(x_segments + 1)·y_segments entries |
| UVSphere.StripAt | src/engine/renderer/primitives/uvsphere.cpp:42-52 | on an even row, step x emits y(xs+1)+x then (y+1)(xs+1)+x; on an odd row, step j emits (y+1)(xs+1)+x then y(xs+1)+x with x = xs − j; each at position 2(xs+1)y + 2j + c |
| UVSphere.StripIndexBound | src/engine/renderer/primitives/uvsphere.cpp:44-50 | every index is below (y_segments + 1)(x_segments + 1) |
| UVSphere.StripInBounds | src/engine/renderer/primitives/uvsphere.cpp:44-50 | all indices address an existing vertex if and only if x_segments ≤ y_segments |
| UVSphere.PushVertexRecord | src/engine/renderer/primitives/uvsphere.cpp:57-68 | the body of the interleaving loop appends vertex i's position, then its uv and its normal when those vectors are non-empty |
| UVSphere.VertexRecord | src/engine/renderer/primitives/uvsphere.cpp:57-68 | vertex i's record starts with its position, holds its uv at 3-4 when uv is non-empty and ends with its normal when normals is non-empty, and is 3, 5, 6 or 8 floats long accordingly |
| UVSphere.VertexData | src/engine/renderer/primitives/uvsphere.cpp:55-69 | the buffer holds one record of the same width per position |
| UVSphere.InterleaveVertexData | src/engine/renderer/primitives/uvsphere.cpp:55-69 | for fewer than 2³² positions, the interleaving loop terminates with `VertexData` |
| UVSphere.VertexDataLayout | src/engine/renderer/primitives/uvsphere.cpp:55-86 | the buffer holds 8 floats per vertex: position at 8i … 8i+2, uv at 8i+3 … 8i+4, normal at 8i+5 … 8i+7, matching the 8-float stride |
| UVSphere.ConstructSphereMesh | src/engine/renderer/primitives/uvsphere.cpp:12-93 | the built vectors equal the specification functions, the render type is GL_TRIANGLE_STRIP and the index count is the length of the index list |
| UVSphere.UniverseSphere | src/client/scenes/universescene.cpp:22 | the (256, 256) sphere has 257² vertices and 2·257·256 indices, all in range |
| TurnWindow.SizeMinusOne | src/client/systems/systurnsavewindow.cpp:38 | `size() - 1` on a 64-bit size is the number that gives back `size()` when 1 is added modulo 2⁶⁴ |
| TurnWindow.SysTurnSaveWindow.constructor | src/client/systems/systurnsavewindow.cpp:12-13 | the window starts with the given speeds, speed index, play state and last tick time, and no ticks enabled |
| TurnWindow.SysTurnSaveWindow.TogglePlayState | src/client/systems/systurnsavewindow.cpp:60-62 | only the play state changes, and it is negated |
| TurnWindow.SysTurnSaveWindow.DoUi | src/client/systems/systurnsavewindow.cpp:15-43 | the `<<`, play/pause and `>>` buttons are applied in that order, as `UiPace` |
| TurnWindow.SysTurnSaveWindow.DoUpdate | src/client/systems/systurnsavewindow.cpp:45-57 | the key handling and then the timed tick are applied as `UpdatePace`, and the tick counter grows by one exactly when the tick fires |
| TurnWindow.SlowerPace | src/client/systems/systurnsavewindow.cpp:25-30 | `<<` decrements the speed only when it is positive, so the speed never drops below 0; nothing else changes |
| TurnWindow.FasterPace | src/client/systems/systurnsavewindow.cpp:36-41 | `>>` changes only the speed, by at most one step, and increments it exactly when the speed is below `size() - 1`: below size − 1 for a non-empty list, and below 2⁶⁴−1 (the wrapped `0 - 1`) for an empty one |
| TurnWindow.TogglePace | src/client/systems/systurnsavewindow.cpp:60-62 | TogglePlayState negates the play state and changes nothing else |
| TurnWindow.UiPace | src/client/systems/systurnsavewindow.cpp:15-43 | the buttons never change the last tick time, flip the play state exactly when play/pause is clicked, and move the speed by at most one step, and only when `<<` or `>>` is clicked |
| TurnWindow.SpeedStaysValid | src/client/systems/systurnsavewindow.cpp:25-41 | with a non-empty list, `<<` and `>>` keep the speed a valid index, and `>>` increments exactly when a faster entry exists |
| TurnWindow.UiKeepsSpeedValid | src/client/systems/systurnsavewindow.cpp:25-41 | any combination of button presses keeps the speed a valid index and leaves the last tick time alone |
| TurnWindow.FasterSaturates | src/client/systems/systurnsavewindow.cpp:36-41 | pressing `>>` n times reaches min(speed + n, size − 1) |
| TurnWindow.EmptySpeedsUnbounded | src/client/systems/systurnsavewindow.cpp:38 | with an empty list the unsigned `size() - 1` wraps, and n presses of `>>` raise the speed by n |
| TurnWindow.ToggleTwice | src/client/systems/systurnsavewindow.cpp:60-62 | toggling twice is the identity |
| TurnWindow.KeyPace | src/client/systems/systurnsavewindow.cpp:46-50 | releasing Space toggles the play state if and only if the keyboard is not captured, and nothing else changes |
| TurnWindow.Fires | src/client/systems/systurnsavewindow.cpp:52-53 | a tick fires only with the window running after the key handling, and, when the delay is non-negative, only after the last tick time; the delay `tick_speeds[tick_speed] / 1000` is `TurnWindow.Delay` |
| TurnWindow.UpdatePace | src/client/systems/systurnsavewindow.cpp:45-57 | the update never changes the speed, leaves the play state as the key handling set it, sets the last tick time to the second time reading when a tick fires, and otherwise applies only the key handling |
| TurnWindow.PausedNeverTicks | src/client/systems/systurnsavewindow.cpp:52-56 | paused and not resumed, the update enables no tick and leaves the state unchanged |
| TurnWindow.ResumeTicksAtOnce | src/client/systems/systurnsavewindow.cpp:46-56 | a Space release that resumes play after the delay has passed fires at once in the same update |
| TurnWindow.RunningTicksIff | src/client/systems/systurnsavewindow.cpp:52-55 | while running, a tick fires if and only if now − last_tick > tick_speeds[tick_speed] / 1000, and then last_tick becomes the current time |
| TurnWindow.ExactDelayDoesNotTick | src/client/systems/systurnsavewindow.cpp:52-53 | at exactly the delay nothing fires, because the comparison is strict |

## Left out

- I/O, GL and UI: the GL buffer and attribute calls (uvsphere.cpp lines 14-19 and 71-90) are not modelled. Neither are the ImGui window layout and drawing, the date display (`GetUniverse().date`), or the GLFW key codes.
- Floating point: every `float` and `double` is a Dafny `real`. Rounding, NaN and infinities are not modelled, and no claim is made about bit-exact float results.
- cos, sin and sqrt are not defined: they are fields of `CMath.MathLib`, and a lemma states as a `requires` the one law it needs. `PI` comes from `common/components/units.h`, which is not part of this model. `CMath.PI` is therefore an unspecified positive real, so `TrigPeriodic` can hold of the true cos and sin with PI = π, and no property depends on PI's digits.
- The `ResourceMap` operators (`+=`, `-=`, `*`, `>`) are in `common/components/resource.h`, which is not part of this model. `+`, `-` and `*` are assumed to act good by good over the union of goods (`Resource.Add`, `Resource.Sub`, `Resource.Scale`). `>` is a parameter `greater` of the consumption system. `Resource.StrictlyGreater` is one possible reading of it, used only in `GateAdmitsOverdraw`.
- `Interval()` is inherited from a base class that is not part of this model; it is a real parameter of each system.
- The entt registry: view iteration order and storage are not modelled. A view is any sequence that lists each matching entity exactly once (`Registry.Enumerates`).
- `FactoryProductivity` is a map from entity to real. A missing entry reads as productivity 1 (`Registry.Productivity`), so no `Option` is needed.
- ResourceSystems.SysFactoryResourceProduction: requires every tagged converter's recipe to exist (`RecipesResolve`). The source's `universe.get` on a missing recipe has undefined behaviour, which is not modelled.
- ResourceSystems.SysFactoryResourceConsumption: requires every consumer's recipe and market stockpile to exist (`CanConsume`), for the same reason.
- ResourceProperties.TwoTickLatency: the code that schedules the three systems within a tick is not part of this model. `ResourceProperties.Tick` assumes generation, then production, then consumption.
- The `Production` tag is never removed by any of the three systems, and the model follows that code. No other code that might reset it is part of this model.
- `MoveTarget`, the default `Orbit()` constructor and the `Vec2`/`PolarCoordinate` constructors are not modelled; the datatypes `Movement.Vec2` and `Movement.PolarCoordinate` stand for them. The `degree`, `radian`, `astronomical_unit` and `years` unit types are all `real`.
- Movement.FindPeriod: requires a > 0 and μ > 0 and the sqrt law. The source computes NaN or infinity otherwise, which is not modelled.
- Movement.ToPolarCoordinate: requires −1 < e < 1 and |cos| ≤ 1, so that the denominator is not zero. Hyperbolic and parabolic orbits are not modelled.
- CMath.FModTurns: the periodic property is stated only for θ ≥ 0, as the source's tests use it. For θ < 0, fmod keeps the sign of θ, which `FMod360` states.
- UVSphere.ConstructSphereMesh: requires both segment counts to be positive, because uv divides by them. It also requires three bounds that keep the source's fixed-width counters exact:
  - x_segments < 2³¹−1, so that the `int` sum `x_segments + 1` of the strip loop does not overflow;
  - (x_segments + 1)(y_segments + 1) ≤ 2³², so that the `unsigned int` strip index `(y + 1) * (x_segments + 1) + x` does not wrap;
  - (y_segments + 1)² < 2³², so that the `unsigned int` counter of the interleaving loop reaches `positions.size()`.
  The overflow, the wrap, the loop that never ends and the float division by zero are not modelled.
- UVSphere.InterleaveVertexData: requires fewer than 2³² positions, because with 2³² or more the `unsigned int i` of the loop wraps before reaching `positions.size()` and the loop never ends; that non-terminating behaviour is not modelled.
- The vertex coordinates are the reals that cos and sin return; their float values are not modelled.
- `EnableTick()` is a ghost counter, so the effect of a tick on the universe is not modelled. The two `GetTime()` calls of `DoUpdate` are two real arguments, `now` and `nowAgain`, because the clock may advance between them.
- The `SysTurnSaveWindow` header, with the initial field values and the element type of `tick_speeds`, is not part of this model, so the constructor takes the initial state as arguments. `tick_speeds` holds integers.
- TurnWindow.SysTurnSaveWindow.DoUpdate: requires `tick_speed < tick_speeds.size()` whenever the tick condition is evaluated. An out-of-range read of `tick_speeds[tick_speed]` is undefined behaviour in the source.
- TurnWindow.SysTurnSaveWindow.DoUi: requires fewer than 2⁶⁴ speeds, since `size()` is a 64-bit value.
- TurnWindow.Pace: `tick_speed` is an unbounded `nat`, because its declared type is in the header, which is not part of this model. `EmptySpeedsUnbounded` therefore requires the speed to stay at most 2⁶⁴−1, and a wrap past that value is not modelled.
