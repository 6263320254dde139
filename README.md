# Inverted pendulum simulator — a Dafny model of the engine, the control laws and the parameter panel

The simulator moves a cart along a rail. A pendulum rod stands on the cart, and the
motor's force comes from a pluggable control law. This project models the parts that
compute, and proves properties of them:

- **`SimState`** (`state.dfy`). `Simulation.State` is a class with the fifteen mutable
  fields of the Java record. `Value()` reads all of them at once as a `Snapshot` value.
  `new State()` and the copy constructor `new State(s)` are its two constructors.
- **`Dynamics`** (`dynamics.dfy`). These are the two accelerations a micro-step computes,
  the cart's `ax` and the pendulum's `aAng`. The module proves that they solve the coupled
  equations of motion obtained from D'Alembert's principle.
- **`Engine`** (`engine.dfy`).
  - The functions `Step` and `Run` state, on values, what one micro-step and a run of
    micro-steps compute.
  - `class Simulation` holds the current state, the start-state template, the law and the
    precision.
  - Its methods `SolveStep` and `Solve` update the live `State` in place, and are proved
    to do exactly what `Step` and `Run` say.
  - `Reset`, `ResetTo`, `GetState`, `SetPrecision`, `IsStarted` and `SetStrategy` handle
    copies and replacements.
- **`Strategies`** (`strategies.dfy`). The `Strategy` interface becomes a datatype with
  one variant per law:
  - `Null` always pushes 0.
  - `Manual` pushes the operator's integer force.
  - `Simple` is the PD law `10·kp·θ + kd·ω`.

  The manual and PD laws are classes, because the user changes their settings while the
  engine holds them.
- **`Ui`** (`ui.dfy`). This is the parameter mapping of `ControlPanel`.
  - Six integer sliders turn into engine inputs: precision ×100, angle negated, masses
    and length ×0.1, speed 2^v.
  - It covers the choice of display format, `getPrecision`/`setPrecision`, and the start
    state `getState` builds.
- **`JavaMath`** (`java_math.dfy`) holds what the code takes from `java.lang.Math` and from
  Java's integer arithmetic: `PI`, `toRadians`, `pow(2, e)`, the `(int)` cast of a double,
  `long` wrap-around, and truncating `int` division.

Doubles are modelled as exact reals. `Math.sin` and `Math.cos` are uninterpreted
functions. A lemma that needs `sin² + cos² = 1` or `sin 0 = 0` takes it as a hypothesis.

## Model

| member | source | states |
|---|---|---|
| JavaMath.ToRadians | src/ui/ControlPanel.java:325 | degrees to radians: 0 stays 0, the sign is kept, [-90, 90] maps into [-π/2, π/2], 180 maps to π |
| JavaMath.Pow2 | src/ui/ControlPanel.java:264 | `Math.pow(2, e)` for an integer exponent is positive |
| JavaMath.Pow2Increasing | src/ui/ControlPanel.java:263-265 | `2^e` is strictly increasing in `e` (proved by induction on the distance) |
| JavaMath.DoubleToInt | src/ui/ControlPanel.java:225 | the `(int)` cast stays in `int` range, keeps every whole value in range, and floors non-negative values |
| JavaMath.ToLong | src/Simulation.java:114 | `long` arithmetic keeps a 64-bit value congruent to the exact result modulo 2^64, equal to it when it fits |
| JavaMath.TruncDiv | src/ui/ControlPanel.java:234 | Java's `int` division rounds toward zero, for negative dividends too |
| SimState.State.constructor | src/Simulation.java:255-256 | `new State()` holds every field at zero or false |
| SimState.State.Copy | src/Simulation.java:262-283 | the copy constructor yields a fresh object with all fifteen values of its argument |
| Strategies.NullReactIsZero | src/strategy/NullStrategy.java:20-22 | the null law returns 0 for every state and reads no object, so no reset or reaction can change that |
| Strategies.NullReact | src/strategy/NullStrategy.java:20-22 | the inert law: the force is 0 whatever the state |
| Strategies.ManualStrategy.constructor | src/strategy/ManualStrategy.java:16 | a fresh manual law has force 0, the force slider's initial position |
| Strategies.ManualStrategy.ForceSliderChanged | src/strategy/ManualStrategy.java:34-36 | after the slider moves, the force is the slider's value and stays in [-10, 10] |
| Strategies.ManualStrategy.React | src/strategy/ManualStrategy.java:58-60 | the manual law returns the operator's current force, as a real |
| Strategies.ManualReactIgnoresState | src/strategy/ManualStrategy.java:58-60 | the manual law returns the current force whatever the state |
| Strategies.ManualForceInRange | src/strategy/ManualStrategy.java:24 | the manual force lies in the slider range [-10, 10] |
| Strategies.ManualStrategy.Reset | src/strategy/ManualStrategy.java:53-55 | reset leaves the operator's force unchanged |
| Strategies.SimpleStrategy.constructor | src/strategy/SimpleStrategy.java:27-28 | a fresh PD law has raw gains (-7, -4), within their ranges |
| Strategies.SimpleStrategy.KpSliderChanged | src/strategy/SimpleStrategy.java:36 | moving the proportional slider sets `kp` only, and both gains stay in [-10, 10] |
| Strategies.SimpleStrategy.KdSliderChanged | src/strategy/SimpleStrategy.java:45 | moving the derivative slider sets `kd` only, and both gains stay in [-10, 10] |
| Strategies.SimpleStrategy.React | src/strategy/SimpleStrategy.java:84-90 | the PD law `10·kp·θ + kd·ω`, read from the gain sliders at each call |
| Strategies.SimpleStrategy.Reset | src/strategy/SimpleStrategy.java:79-81 | reset leaves both gains unchanged |
| Strategies.SimpleReactInitialGains | src/strategy/SimpleStrategy.java:84-90 | with the initial gains the force is `-70·θ - 4·ω` |
| Strategies.SimpleReactOdd | src/strategy/SimpleStrategy.java:87 | negating θ and ω negates the force; no other field of the state matters |
| Strategies.SimpleReactBounded | src/strategy/SimpleStrategy.java:84-90 | within the gain ranges, \|F\| ≤ 100·\|θ\| + 10·\|ω\| |
| Strategies.ReactAtEquilibrium | src/strategy/SimpleStrategy.java:87 | the PD law, the null law and a manual law set to 0 push nothing when θ = ω = 0 |
| Strategies.Strategy.Reset | src/strategy/Strategy.java:17 | resetting any of the three laws leaves its settings as they were |
| Strategies.Strategy.React | src/strategy/Strategy.java:27 | `react` dispatches to the law in use, reading only that law's own object |
| Dynamics.Denominator | src/Simulation.java:89 | the common denominator `M + m·sin²` is never below the cart mass, so it is never 0 |
| Dynamics.CartAcceleration | src/Simulation.java:89 | the cart's acceleration `(m·g·sin·cos − m·l·ω²·sin + F) / (M + m·sin²)`; what it means is stated by `AccelerationsBalance` and `EquationsOfMotion` |
| Dynamics.AngularAcceleration | src/Simulation.java:95 | the pendulum's angular acceleration `((M+m)·g·sin − m·l·ω²·sin·cos + F·cos) / l / (M + m·sin²)`, with the same two lemmas |
| Dynamics.AccelerationsBalance | src/Simulation.java:89-95 | each computed acceleration times the denominator (and `l`) gives back its numerator |
| Dynamics.EquationsOfMotion | src/Simulation.java:89-95 | `ax` and `aAng` satisfy both coupled equations: `l·aAng = g·sin + ax·cos` and `(M+m)·ax − m·l·aAng·cos + m·l·ω²·sin = F`, whenever sin² + cos² = 1 |
| Dynamics.AccelerationsVanish | src/Simulation.java:89-95 | at rest upright with no force, both accelerations are 0 |
| Engine.Wrap | src/Simulation.java:99-102 | at most one 2π correction: a θ in [-π, π] is untouched, a θ in [-3π, 3π] lands in [-π, π] |
| Engine.Advanced | src/Simulation.java:74-77 | the state at the moment the law is consulted: marked started, `t` advanced by `dt` |
| Engine.Integrate | src/Simulation.java:90-102 | the integration half of a micro-step, given both accelerations; `IntegrateMotion` states what it does |
| Engine.Force | src/Simulation.java:81 | the force of a micro-step is the law's `react` on the state as `Advanced` leaves it |
| Engine.LawSeesNewTimeOldMotion | src/Simulation.java:74-81 | the law sees the time and `started` flag the step ends with, but the position, angle and velocities it starts from |
| Engine.IntegrateMotion | src/Simulation.java:90-97 | semi-implicit Euler: velocities are updated first, so `x` gains `vx·dt + ax·dt²` and θ (before its correction) gains `ω·dt + aAng·dt²`; no other field changes |
| Engine.Step | src/Simulation.java:70-103 | a failed state is left exactly as it is; otherwise the step is marked started and `t` grows by `dt`; `M`, `m`, `l`, `failed`, `y`, `vy`, `ay` never change |
| Engine.StepSolvesEquations | src/Simulation.java:83-95 | both accelerations come from the pre-step θ and ω and solve the equations of motion under the law's force |
| Engine.StepKeepsAngleInRange | src/Simulation.java:96-102 | from θ in [-π, π], a step whose angular move is at most 2π ends in [-π, π] |
| Engine.Run | src/Simulation.java:111-116 | n micro-steps keep the masses, the length, `failed` and the vertical axis |
| Engine.RunFailedIsFrozen | src/Simulation.java:71-72 | a failed state does not move, however many micro-steps run |
| Engine.RunAdvancesTime | src/Simulation.java:111-116 | from a non-failed state, n micro-steps add exactly `n·dt` to `t` and mark the run started when n > 0 |
| Engine.StepStaysAtEquilibrium | src/Simulation.java:83-97 | the upright rest state at x = 0 stays there for a step with no force, with both accelerations 0 |
| Engine.RunStaysAtEquilibrium | src/Simulation.java:111-116 | the same for any number of steps, under a law that pushes nothing at equilibrium |
| Engine.StepCount | src/Simulation.java:114 | the loop runs max(0, nb_ms·precision) times, with the product taken in `long` arithmetic |
| Engine.StepSize | src/Simulation.java:113 | `dt·precision = 0.001` s for a positive precision; `dt` is negative for a negative one |
| Engine.SolveSimulatesMillis | src/Simulation.java:111-116 | with a positive precision, a run covers exactly nb_ms milliseconds; nothing runs when nb_ms ≤ 0 or precision = 0; both negative run time backwards |
| Engine.Simulation.constructor | src/Simulation.java:41-45 | the default engine has an all-zero template, the PD law at its initial gains, precision 1000 and a reset state |
| Engine.Simulation.Create | src/Simulation.java:54-59 | the three-argument constructor installs fresh copies of the start state as template and current state |
| Engine.Simulation.SolveStep | src/Simulation.java:70-103 | the in-place micro-step leaves the live state equal to `Step` of the old state, under the force the law returned |
| Engine.Simulation.Solve | src/Simulation.java:111-116 | the loop leaves the live state equal to `Run` over `StepCount` micro-steps of `StepSize` |
| Engine.Simulation.Reset | src/Simulation.java:122-129 | the current state becomes a fresh copy of the template; template, law and precision are kept |
| Engine.Simulation.ResetTo | src/Simulation.java:136-139 | both the template and the current state become fresh copies of the argument |
| Engine.Simulation.GetState | src/Simulation.java:145-147 | a fresh copy of the current state is returned |
| Engine.Simulation.SetPrecision | src/Simulation.java:153-155 | only the precision changes |
| Engine.Simulation.IsStarted | src/Simulation.java:161-163 | the answer is the `started` flag of the current state |
| Engine.Simulation.SetStrategy | src/Simulation.java:177-182 | the law is replaced, then the state is reset from the template |
| Engine.ResetTwice | src/Simulation.java:122-129 | resetting twice gives the same state as resetting once |
| Engine.SnapshotIsDetached | src/Simulation.java:145-147 | mutating the copy `getState` returned leaves the engine's state unchanged |
| Engine.FailedRunIsFrozen | src/Simulation.java:71-72 | `solve` leaves a failed state unchanged, whatever nb_ms is |
| Engine.ResetAfterRun | src/Simulation.java:122-129 | stepping never touches the template, so a reset after any run restores it |
| Ui.Clamp | src/ui/ControlPanel.java:234 | a slider stores the requested value when it is in range, and the nearest bound otherwise |
| Ui.TransformValue | src/ui/ControlPanel.java:244-268 | the engine value of a slider position: precision ×100, angle negated, masses and length ×0.1, speed 2^v, any other index unchanged; `TransformMonotone` and `TransformInRange` state its properties |
| Ui.TransformMonotone | src/ui/ControlPanel.java:244-268 | each slider's value increases with its position, except the angle's, which decreases |
| Ui.TransformInjective | src/ui/ControlPanel.java:244-268 | distinct positions of a slider always give distinct engine values |
| Ui.SpeedValues | src/ui/ControlPanel.java:263-265 | the speed is one of 1/8, 1/4, 1/2, 1, 2 and 4, and is 1 exactly at the initial position |
| Ui.TransformInRange | src/ui/ControlPanel.java:244-268 | every position gives a value between the values at the slider's two ends |
| Ui.FormatOf | src/ui/ControlPanel.java:277-305 | every known slider gets a fixed format of at most 3 decimals; an unknown index gets the empty format |
| Ui.FormatIsExact | src/ui/ControlPanel.java:277-305 | at every slider position, the chosen number of decimals prints the value without rounding |
| Ui.SpeedFormatIsExact | src/ui/ControlPanel.java:292-301 | the speed `2^v` gets `-v` decimals when v < 0 and none otherwise; one fewer would round it |
| Ui.PrecisionOf | src/ui/ControlPanel.java:224-226 | `getPrecision` on given positions: the `(int)` cast of the precision slider's value; `PrecisionValues` states what it is |
| Ui.PrecisionPosition | src/ui/ControlPanel.java:233-235 | the slider position `setPrecision(p)` leaves lies in the slider's range, and is p/100 for p in [0, 2000] |
| Ui.PrecisionValues | src/ui/ControlPanel.java:224-226 | `getPrecision` is 100 × the slider position: a multiple of 100 in [0, 2000] |
| Ui.PrecisionRoundTrip | src/ui/ControlPanel.java:224-235 | `setPrecision(p)` then `getPrecision()` gives back p exactly when p is a multiple of 100 in [0, 2000] |
| Ui.PrecisionPositionRestores | src/ui/ControlPanel.java:224-235 | `getPrecision` then `setPrecision` leaves the slider where it was |
| Ui.PanelState | src/ui/ControlPanel.java:323-330 | the start state `getState` builds from given positions; `PanelStateShape` states its shape |
| Ui.PanelStateShape | src/ui/ControlPanel.java:323-330 | the start state has M ≥ 0.1, m ≥ 0, l ≥ 0 and θ in [-π/2, π/2] of the opposite sign to the slider, with every other field zero or false; the engine can step it exactly when the length slider is above 0 |
| Ui.ControlPanel.constructor | src/ui/ControlPanel.java:60-89 | a new panel has every slider at its initial position |
| Ui.ControlPanel.SetSliderValue | src/ui/ControlPanel.java:234 | a slider moves to the clamped value and no other slider changes |
| Ui.ControlPanel.GetValue | src/ui/ControlPanel.java:313-316 | a slider's engine value lies between those of its two ends |
| Ui.ControlPanel.GetPrecision | src/ui/ControlPanel.java:224-226 | the result is 100 × the precision slider's position, a multiple of 100 in [0, 2000] |
| Ui.ControlPanel.SetPrecision | src/ui/ControlPanel.java:233-235 | the slider moves to p/100 (rounded toward zero, then clamped), and `GetPrecision()` equals p exactly when p is a multiple of 100 in [0, 2000] |
| Ui.ControlPanel.GetState | src/ui/ControlPanel.java:323-330 | a fresh `State` built from the sliders is returned |

## Left out

- Swing rendering, layout, labels and listeners are left out, as are the animation and plot panels, `MainPanel` (its timer, wall clock and speed scaling) and `OutputFiles` (file output). These are user interface and I/O, with no stateable contract beyond the values modelled here.
- `String.format` output is not modelled. `formatValue` is modelled up to the choice of format.
- `getPanel` and `getStrategy` are not modelled. They only return a Swing panel or a field.
- IEEE doubles are modelled as exact reals. Rounding, overflow to infinity and NaN are therefore not modelled, and neither is numerical or physical stability.
- `Math.sin` and `Math.cos` are uninterpreted. Lemmas that need `sin² + cos² = 1` or `sin 0 = 0` assume it as a hypothesis.
- `Math.PI` is the exact decimal of the double's printed value.
- Engine.Simulation.SolveStep: requires `M > 0`, `m ≥ 0` and `l > 0` on a non-failed state. Java would divide by zero instead, producing infinities or NaN. Such a state is reachable in two ways:
  - the length slider can sit at 0;
  - the default constructor's all-zero template has M = 0.
  `Solve` and `Run` demand this only when at least one micro-step runs, so a precision of 0 with the length slider at 0 is still a valid no-op.
- Engine.Simulation.Solve: requires the `long` bound `nb_ms·precision` to be at most `Integer.MAX_VALUE`. Beyond that, Java's `int` counter wraps around and the loop never ends.
- Engine.StepSize: with precision 0, Java computes an infinite `dt` that no iteration uses. The model uses 0 there.
- Engine.Simulation.SetPrecision: `precision` is a static field in Java, shared by every engine in the process. It is modelled as a field of each engine.
- Engine.Simulation.Reset: `reset()` skips `strategy.reset()` when the strategy is null. The `Strategy` datatype has no null value, so that branch is not modelled.
- Engine.Simulation.constructor: Java leaves `state` null until `reset()` replaces it. The model points it at the template for that instant.
- Strategies.SimpleStrategy.KpSliderChanged: the gains live in the Java sliders. The model keeps them as integer fields, and the two slider-changed methods require in-range values, as a user drag always produces.
- Strategies.ManualStrategy.ForceSliderChanged: Java stores the slider's integer in a `double` field. The model keeps it as an `int` field.
