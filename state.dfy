/**
 * Simulation.State: the instantaneous configuration of the cart and the
 * pendulum. The Java class is a mutable record that the engine updates in
 * place and copies field by field; here it is a class whose whole content
 * is read at once through Value(), a value of the datatype Snapshot.
 */
module SimState {

  /** The fifteen fields of a State, as a value. */
  datatype Snapshot = Snapshot(
    t: real,                           // elapsed simulated time (s)
    started: bool, failed: bool,       // run flags
    m: real, M: real, l: real,         // pendulum mass, cart mass (kg), rod length (m)
    theta: real, vAng: real, aAng: real, // pendulum angle and its derivatives
    x: real, vx: real, ax: real,       // cart position and its derivatives
    y: real, vy: real, ay: real)       // vertical cart axis, never written by the engine

  /** The value every field takes in `new State()`: zero or false. */
  const Zero: Snapshot :=
    Snapshot(0.0, false, false, 0.0, 0.0, 0.0, 0.0, 0.0, 0.0, 0.0, 0.0, 0.0, 0.0, 0.0, 0.0)

  /**
   * Parameters with which a micro-step can divide: a positive cart mass, a
   * non-negative pendulum mass and a positive rod length.
   */
  predicate Physical(s: Snapshot)
  {
    s.M > 0.0 && s.m >= 0.0 && s.l > 0.0
  }

  class State {
    var t: real
    var started: bool
    var failed: bool
    var m: real
    var M: real
    var l: real
    var theta: real
    var vAng: real
    var aAng: real
    var x: real
    var vx: real
    var ax: real
    var y: real
    var vy: real
    var ay: real

    /** The current content of every field. */
    function Value(): Snapshot
      reads this
    {
      Snapshot(t, started, failed, m, M, l, theta, vAng, aAng, x, vx, ax, y, vy, ay)
    }

    /** `new State()`: every field at Java's default value. */
    constructor ()
      ensures Value() == Zero
    {
      t, started, failed := 0.0, false, false;
      m, M, l := 0.0, 0.0, 0.0;
      theta, vAng, aAng := 0.0, 0.0, 0.0;
      x, vx, ax := 0.0, 0.0, 0.0;
      y, vy, ay := 0.0, 0.0, 0.0;
    }

    /** `new State(s)`: a fresh object holding the same fifteen values as `s`. */
    constructor Copy(s: State)
      ensures Value() == s.Value()
    {
      t := s.t;
      started, failed := s.started, s.failed;
      M, m, l := s.M, s.m, s.l;
      theta, vAng, aAng := s.theta, s.vAng, s.aAng;
      x, vx, ax := s.x, s.vx, s.ax;
      y, vy, ay := s.y, s.vy, s.ay;
    }
  }
}
