/**
 * The simulation engine (class Simulation): a current state, a start-state
 * template, a control law and a precision (micro-steps per millisecond).
 * A micro-step applies the cart-pendulum equations of motion obtained from
 * D'Alembert's principle and integrates them with one Euler step in which
 * each velocity is updated before the position that uses it.
 *
 * The functions Step and Run say, on values, what one micro-step and a run
 * of micro-steps compute; the methods of Simulation are proved to do exactly
 * that to the live State object.
 */
module Engine {
  import opened JavaMath
  import opened Dynamics
  import opened SimState
  import opened Strategies

  /** The precision the engine starts with: 1000 micro-steps per millisecond. */
  const DEFAULT_PRECISION: int := 1000

  // ------------------------------------------------------------------ Angle wrap

  /**
   * The correction at the end of a micro-step: subtract 2 pi once if the angle
   * is above pi, otherwise add 2 pi once if it is below -pi.
   */
  function Wrap(theta: real): (r: real)
    ensures r == theta || r == theta - 2.0 * PI || r == theta + 2.0 * PI
    ensures -PI <= theta <= PI ==> r == theta
    ensures -3.0 * PI <= theta <= 3.0 * PI ==> -PI <= r <= PI
    ensures theta > PI ==> r == theta - 2.0 * PI
    ensures theta < -PI ==> r == theta + 2.0 * PI
  {
    var t1 := if theta > PI then theta - 2.0 * PI else theta;
    if t1 < -PI then t1 + 2.0 * PI else t1
  }

  // ------------------------------------------------------------------ Micro-step

  /** One explicit update of a quantity q by its rate of change v over dt: q += v * dt. */
  function Euler(q: real, v: real, dt: real): real
  {
    q + v * dt
  }

  /** The state the control law sees: started, and time already advanced. */
  function Advanced(s: Snapshot, dt: real): Snapshot
  {
    s.(started := true, t := s.t + dt)
  }

  /**
   * The integration half of a micro-step, given the two accelerations:
   * each velocity gains its acceleration times dt, then each position moves
   * by its new velocity, and the angle is wrapped.
   */
  function Integrate(s: Snapshot, ax: real, aAng: real, dt: real): Snapshot
  {
    var vx := Euler(s.vx, ax, dt);
    var vAng := Euler(s.vAng, aAng, dt);
    s.(ax := ax, vx := vx, x := Euler(s.x, vx, dt),
       aAng := aAng, vAng := vAng, theta := Wrap(Euler(s.theta, vAng, dt)))
  }

  /**
   * Integration is semi-implicit Euler: each position moves by the NEW
   * velocity, so x gains vx dt + ax dt^2 (explicit Euler would give vx dt);
   * no other field changes.
   */
  lemma IntegrateMotion(s: Snapshot, ax: real, aAng: real, dt: real)
    ensures var r := Integrate(s, ax, aAng, dt);
            && r.ax == ax && r.vx == s.vx + ax * dt && r.x == s.x + r.vx * dt
            && r.x == s.x + s.vx * dt + ax * dt * dt
            && r.aAng == aAng && r.vAng == s.vAng + aAng * dt
            && r.theta == Wrap(s.theta + r.vAng * dt)
            && r.theta == Wrap(s.theta + s.vAng * dt + aAng * dt * dt)
            && r == s.(ax := r.ax, vx := r.vx, x := r.x, aAng := r.aAng, vAng := r.vAng, theta := r.theta)
  {
    var r := Integrate(s, ax, aAng, dt);
    assert r.x == s.x + (s.vx + ax * dt) * dt;
    var moved := s.theta + r.vAng * dt;
    assert moved == s.theta + s.vAng * dt + aAng * dt * dt by {
      assert moved == s.theta + (s.vAng + aAng * dt) * dt;
    }
    assert r.theta == Wrap(moved);
  }

  /**
   * What solveStep(dt) does to a state, given the force fx the law returns
   * for it: nothing at all on a failed state; otherwise mark it started,
   * advance the time, compute both accelerations from the angle and angular
   * velocity the step started with, and integrate.
   */
  function Step(s: Snapshot, fx: real, dt: real): (r: Snapshot)
    requires !s.failed ==> Physical(s)
    ensures s.failed ==> r == s
    ensures !s.failed ==> r.started && r.t == s.t + dt
    ensures r.M == s.M && r.m == s.m && r.l == s.l && r.failed == s.failed
    ensures r.y == s.y && r.vy == s.vy && r.ay == s.ay
  {
    if s.failed then s
    else
      var sin, cos := Sin(s.theta), Cos(s.theta);
      Integrate(Advanced(s, dt), CartAcceleration(s.M, s.m, s.l, sin, cos, s.vAng, fx),
                AngularAcceleration(s.M, s.m, s.l, sin, cos, s.vAng, fx), dt)
  }

  /** The force the law `st` applies during a step of dt from s: it sees the advanced state. */
  function Force(st: Strategy, s: Snapshot, dt: real): real
    reads st.Repr()
  {
    st.React(Advanced(s, dt))
  }

  /**
   * The law is consulted in the middle of a micro-step: it sees the time and
   * the started flag the step ends with, but the position, angle and
   * velocities the step starts from.
   */
  lemma LawSeesNewTimeOldMotion(s: Snapshot, fx: real, dt: real)
    requires !s.failed && Physical(s)
    ensures var a, r := Advanced(s, dt), Step(s, fx, dt);
            && a.t == r.t && a.started == r.started
            && a.x == s.x && a.vx == s.vx && a.theta == s.theta && a.vAng == s.vAng
            && a.M == s.M && a.m == s.m && a.l == s.l && a.failed == s.failed
  {
  }

  /**
   * The accelerations of a micro-step solve the equations of motion at the
   * angle and angular velocity the step started with, under the force fx.
   */
  lemma StepSolvesEquations(s: Snapshot, fx: real, dt: real)
    requires !s.failed && Physical(s)
    requires Sin(s.theta) * Sin(s.theta) + Cos(s.theta) * Cos(s.theta) == 1.0
    ensures var r := Step(s, fx, dt);
            EquationsHold(s.M, s.m, s.l, Sin(s.theta), Cos(s.theta), s.vAng, fx, r.ax, r.aAng)
  {
    EquationsOfMotion(s.M, s.m, s.l, Sin(s.theta), Cos(s.theta), s.vAng, fx);
  }

  /**
   * A step from an angle in [-pi, pi] whose angular displacement is at most
   * 2 pi ends with an angle in [-pi, pi] again, after at most one correction.
   */
  lemma StepKeepsAngleInRange(s: Snapshot, fx: real, dt: real)
    requires !s.failed && Physical(s)
    requires -PI <= s.theta <= PI
    requires var r := Step(s, fx, dt); -2.0 * PI <= r.vAng * dt <= 2.0 * PI
    ensures -PI <= Step(s, fx, dt).theta <= PI
  {
    var sin, cos := Sin(s.theta), Cos(s.theta);
    IntegrateKeepsAngleInRange(Advanced(s, dt), CartAcceleration(s.M, s.m, s.l, sin, cos, s.vAng, fx),
                               AngularAcceleration(s.M, s.m, s.l, sin, cos, s.vAng, fx), dt);
  }

  /** An angle in [-pi, pi] moved by at most 2 pi is back in [-pi, pi] after the correction. */
  lemma IntegrateKeepsAngleInRange(s: Snapshot, ax: real, aAng: real, dt: real)
    requires -PI <= s.theta <= PI
    requires var r := Integrate(s, ax, aAng, dt); -2.0 * PI <= r.vAng * dt <= 2.0 * PI
    ensures -PI <= Integrate(s, ax, aAng, dt).theta <= PI
  {
    IntegrateMotion(s, ax, aAng, dt);
  }

  // ------------------------------------------------------------------ Runs of steps

  /** The result of n micro-steps of size dt under the law `st`. */
  function Run(st: Strategy, s: Snapshot, n: nat, dt: real): (r: Snapshot)
    reads st.Repr()
    requires n > 0 && !s.failed ==> Physical(s)
    ensures r.M == s.M && r.m == s.m && r.l == s.l && r.failed == s.failed
    ensures r.y == s.y && r.vy == s.vy && r.ay == s.ay
    decreases n
  {
    if n == 0 then s
    else
      var p := Run(st, s, n - 1, dt);
      Step(p, Force(st, p, dt), dt)
  }

  /** A failed state is frozen: any number of micro-steps leaves it as it is. */
  lemma {:induction false} RunFailedIsFrozen(st: Strategy, s: Snapshot, n: nat, dt: real)
    requires s.failed
    ensures Run(st, s, n, dt) == s
  {
    if n > 0 {
      RunFailedIsFrozen(st, s, n - 1, dt);
    }
  }

  /** Each of n micro-steps adds dt to the time, and any step marks the run started. */
  lemma {:induction false} RunAdvancesTime(st: Strategy, s: Snapshot, n: nat, dt: real)
    requires !s.failed && Physical(s)
    ensures Run(st, s, n, dt).t == s.t + n as real * dt
    ensures Run(st, s, n, dt).started == (n > 0 || s.started)
  {
    if n > 0 {
      RunAdvancesTime(st, s, n - 1, dt);
      OneMoreStep(n - 1, dt);
    }
  }

  /** k steps of dt and one more make k + 1 steps of dt. */
  lemma OneMoreStep(k: nat, dt: real)
    ensures k as real * dt + dt == (k + 1) as real * dt
  {
  }

  /**
   * The upright equilibrium, one step: a pendulum standing still at theta = 0
   * on a cart at rest at x = 0 stays there under no force (when sin 0 = 0),
   * with both accelerations 0.
   */
  lemma StepStaysAtEquilibrium(s: Snapshot, dt: real)
    requires !s.failed && Physical(s) && Sin(0.0) == 0.0
    requires s.theta == 0.0 && s.vAng == 0.0 && s.x == 0.0 && s.vx == 0.0
    ensures var r := Step(s, 0.0, dt);
            r.theta == 0.0 && r.vAng == 0.0 && r.x == 0.0 && r.vx == 0.0 && r.ax == 0.0 && r.aAng == 0.0
  {
    AccelerationsVanish(s.M, s.m, s.l, Sin(s.theta), Cos(s.theta), s.vAng, 0.0);
  }

  /** The same for any number of steps, under a law that pushes nothing there. */
  lemma {:induction false} RunStaysAtEquilibrium(st: Strategy, s: Snapshot, n: nat, dt: real)
    requires Physical(s) && AtRestAtEquilibrium(st) && Sin(0.0) == 0.0
    requires s.theta == 0.0 && s.vAng == 0.0 && s.x == 0.0 && s.vx == 0.0
    ensures var r := Run(st, s, n, dt);
            r.theta == 0.0 && r.vAng == 0.0 && r.x == 0.0 && r.vx == 0.0
  {
    if n > 0 {
      RunStaysAtEquilibrium(st, s, n - 1, dt);
      var p := Run(st, s, n - 1, dt);
      if !p.failed {
        ReactAtEquilibrium(st, Advanced(p, dt));
        StepStaysAtEquilibrium(p, dt);
      }
    }
  }

  // ------------------------------------------------------------------ solve(nb_ms)

  /** The loop bound of solve(nb_ms): nb_ms * precision in `long` arithmetic. */
  function Bound(nbMs: int, precision: int): int
  {
    ToLong(nbMs * precision)
  }

  /** The number of micro-steps solve(nb_ms) performs: the loop bound, if positive. */
  function StepCount(nbMs: int, precision: int): (n: nat)
    ensures n == 0 <==> Bound(nbMs, precision) <= 0
    ensures n > 0 ==> n == Bound(nbMs, precision)
    ensures LONG_MIN <= nbMs * precision <= LONG_MAX ==>
              n == if nbMs * precision > 0 then nbMs * precision else 0
  {
    var bound := Bound(nbMs, precision);
    if bound > 0 then bound else 0
  }

  /**
   * The micro-step size 0.001 / precision seconds. With precision 0 Java
   * computes an infinite step that no iteration uses; here it is 0.
   */
  function StepSize(precision: int): (dt: real)
    ensures precision > 0 ==> dt > 0.0 && dt * precision as real == 0.001
    ensures precision < 0 ==> dt < 0.0
  {
    if precision == 0 then 0.0 else 0.001 / precision as real
  }

  /**
   * When nb_ms * precision fits a long: with a positive precision,
   * solve(nb_ms) simulates exactly nb_ms milliseconds when nb_ms >= 0, and
   * nothing otherwise; with precision 0 it performs no step at all; with
   * both negative it steps backwards in time.
   */
  lemma SolveSimulatesMillis(nbMs: int, precision: int)
    requires LONG_MIN <= nbMs * precision <= LONG_MAX
    ensures precision > 0 && nbMs >= 0 ==>
      StepCount(nbMs, precision) as real * StepSize(precision) == nbMs as real / 1000.0
    ensures precision > 0 && nbMs <= 0 ==> StepCount(nbMs, precision) == 0
    ensures precision == 0 ==> StepCount(nbMs, precision) == 0
    ensures precision < 0 && nbMs < 0 ==>
      StepCount(nbMs, precision) > 0 && StepSize(precision) < 0.0
  {
    if precision > 0 && nbMs >= 0 {
      var p := precision as real;
      var dt := StepSize(precision);
      assert p * dt == 0.001;
      calc {
        StepCount(nbMs, precision) as real * dt;
        (nbMs as real * p) * dt;
        nbMs as real * (p * dt);
        nbMs as real * 0.001;
      }
    }
  }

  // ------------------------------------------------------------------ The engine

  class Simulation {
    var startState: State
    var state: State
    var strategy: Strategy
    var precision: int

    /** The current state is never the template itself, so stepping it leaves the template intact. */
    ghost predicate Valid()
      reads this
    {
      state != startState && state !in strategy.Repr()
    }

    /** `new Simulation()`: an all-zero template, the PD law, and a reset. */
    constructor ()
      ensures Valid() && fresh(startState) && fresh(state)
      ensures startState.Value() == Zero && state.Value() == Zero
      ensures strategy.Simple? && fresh(strategy.simple)
      ensures strategy.simple.kpRaw == KP_INITIAL && strategy.simple.kdRaw == KD_INITIAL
      ensures precision == DEFAULT_PRECISION
    {
      startState := new State();
      var law := new SimpleStrategy();
      strategy := Simple(law);
      precision := DEFAULT_PRECISION;
      state := startState;  // Java leaves it null until reset() runs
      new;
      Reset();
    }

    /** `new Simulation(startState, strategy, precision)`: copies of the template, no reset. */
    constructor Create(start: State, law: Strategy, precision: int)
      ensures Valid() && fresh(startState) && fresh(state)
      ensures startState.Value() == start.Value() && state.Value() == start.Value()
      ensures strategy == law && this.precision == precision
    {
      startState := new State.Copy(start);
      state := new State.Copy(start);
      strategy := law;
      this.precision := precision;
    }

    /** solveStep(dt): one micro-step of the live state, in place. */
    method SolveStep(dt: real)
      requires Valid()
      requires !state.failed ==> Physical(state.Value())
      modifies state
      ensures state.Value() == Step(old(state.Value()), old(Force(strategy, state.Value(), dt)), dt)
    {
      if state.failed {
        return;
      }
      state.started := true;
      state.t := state.t + dt;
      ghost var s1 := state.Value();
      var fx := strategy.React(state.Value());
      assert fx == old(Force(strategy, state.Value(), dt));

      var sin := Sin(state.theta);
      var cos := Cos(state.theta);
      var M, m, l, vAng := state.M, state.m, state.l, state.vAng;

      state.ax := CartAcceleration(M, m, l, sin, cos, vAng, fx);
      state.vx := Euler(state.vx, state.ax, dt);
      state.x := Euler(state.x, state.vx, dt);

      state.aAng := AngularAcceleration(M, m, l, sin, cos, vAng, fx);
      state.vAng := Euler(state.vAng, state.aAng, dt);
      state.theta := Euler(state.theta, state.vAng, dt);
      ghost var unwrapped := state.Value();
      assert unwrapped.(theta := Wrap(unwrapped.theta)) == Integrate(s1, unwrapped.ax, unwrapped.aAng, dt);

      if state.theta > PI {
        state.theta := state.theta - 2.0 * PI;
      }
      if state.theta < -PI {
        state.theta := state.theta + 2.0 * PI;
      }
      assert state.Value() == unwrapped.(theta := Wrap(unwrapped.theta));
    }

    /** solve(nb_ms): max(0, nb_ms * precision) micro-steps of 0.001 / precision seconds. */
    method Solve(nbMs: int)
      requires Valid()
      requires StepCount(nbMs, precision) > 0 && !state.failed ==> Physical(state.Value())
      requires Bound(nbMs, precision) <= INT_MAX
      modifies state
      ensures state.Value() == Run(strategy, old(state.Value()), StepCount(nbMs, precision), StepSize(precision))
    {
      var dt := StepSize(precision);
      var i := 0;
      while i < ToLong(nbMs * precision)
        invariant 0 <= i <= StepCount(nbMs, precision)
        invariant state.Value() == Run(strategy, old(state.Value()), i, dt)
        invariant StepCount(nbMs, precision) > 0 && !state.failed ==> Physical(state.Value())
      {
        ghost var before := state.Value();
        SolveStep(dt);
        assert state.Value() == Step(before, Force(strategy, before, dt), dt);
        i := i + 1;
      }
    }

    /** reset(): the current state becomes a fresh copy of the template; the law is reset. */
    method Reset()
      modifies this
      ensures Valid() && fresh(state) && state.Value() == startState.Value()
      ensures startState == old(startState) && strategy == old(strategy) && precision == old(precision)
    {
      state := new State.Copy(startState);
      strategy.Reset();
    }

    /** reset(s): a copy of `s` becomes the template, then reset(). */
    method ResetTo(s: State)
      modifies this
      ensures Valid() && fresh(startState) && fresh(state)
      ensures startState.Value() == old(s.Value()) && state.Value() == old(s.Value())
      ensures strategy == old(strategy) && precision == old(precision)
    {
      startState := new State.Copy(s);
      Reset();
    }

    /** getState(): a fresh copy of the current state. */
    method GetState() returns (s: State)
      ensures fresh(s) && s.Value() == state.Value()
    {
      s := new State.Copy(state);
    }

    /** setPrecision(p). */
    method SetPrecision(p: int)
      modifies this
      ensures precision == p
      ensures state == old(state) && startState == old(startState) && strategy == old(strategy)
    {
      precision := p;
    }

    /** isStarted(): whether a micro-step has run since the last reset. */
    function IsStarted(): (b: bool)
      reads this, state
      ensures b <==> state.Value().started
    {
      state.started
    }

    /** setStrategy(law): install the law, then reset(). */
    method SetStrategy(law: Strategy)
      modifies this
      ensures Valid() && strategy == law
      ensures fresh(state) && state.Value() == startState.Value()
      ensures startState == old(startState) && precision == old(precision)
    {
      strategy := law;
      Reset();
    }
  }

  // ------------------------------------------------------------------ Clients

  /** Resetting twice leaves the same state as resetting once: the template. */
  method ResetTwice(sim: Simulation)
    modifies sim
    ensures sim.Valid() && sim.state.Value() == old(sim.startState.Value())
  {
    sim.Reset();
    var once := sim.state.Value();
    sim.Reset();
    assert sim.state.Value() == once;
  }

  /** Changing the copy getState() returns leaves the engine's own state as it was. */
  method SnapshotIsDetached(sim: Simulation)
    ensures sim.state.Value() == old(sim.state.Value())
  {
    var copy := sim.GetState();
    copy.theta := copy.theta + 1.0;
    copy.failed := true;
  }

  /** A run that the caller has marked failed does not move, however long solve runs. */
  method FailedRunIsFrozen(sim: Simulation, nbMs: int)
    requires sim.Valid() && sim.state.failed
    requires Bound(nbMs, sim.precision) <= INT_MAX
    modifies sim.state
    ensures sim.state.Value() == old(sim.state.Value())
  {
    sim.Solve(nbMs);
    RunFailedIsFrozen(sim.strategy, old(sim.state.Value()), StepCount(nbMs, sim.precision), StepSize(sim.precision));
  }

  /** Stepping never touches the template, so a reset after any run restores it. */
  method ResetAfterRun(sim: Simulation, nbMs: int)
    requires sim.Valid()
    requires !sim.state.failed ==> Physical(sim.state.Value())
    requires Bound(nbMs, sim.precision) <= INT_MAX
    modifies sim, sim.state
    ensures sim.state.Value() == old(sim.startState.Value())
  {
    sim.Solve(nbMs);
    sim.Reset();
  }
}
