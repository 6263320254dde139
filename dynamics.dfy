/**
 * The cart-pendulum equations of motion obtained from D'Alembert's
 * principle: the two accelerations a micro-step computes, and the proof that
 * they solve the coupled equations of the pendulum and of the cart.
 *
 * Throughout, sin and cos stand for Math.sin(theta) and Math.cos(theta) of
 * one angle theta, w for the angular velocity, F for the force of the law.
 */
module Dynamics {

  /** Gravitational acceleration (m/s^2). */
  const G: real := 9.81

  /** The common denominator M + m sin^2; it is never below the cart mass. */
  function Denominator(M: real, m: real, sin: real): (d: real)
    requires M > 0.0 && m >= 0.0
    ensures d >= M
  {
    assert m * sin * sin >= 0.0 by { assert m * sin * sin == m * (sin * sin); }
    M + m * sin * sin
  }

  // ------------------------------------------------------------- The equations

  /**
   * The coupled equations of motion of a cart of mass M carrying a pendulum
   * of mass m on a rod of length l:
   *   l aAng = g sin + ax cos                        (pendulum)
   *   (M + m) ax - m l aAng cos + m l w^2 sin = F    (cart)
   */
  predicate EquationsHold(M: real, m: real, l: real, sin: real, cos: real, w: real, F: real, ax: real, aAng: real)
  {
    && l * aAng == G * sin + ax * cos
    && (M + m) * ax - m * l * aAng * cos + m * l * (w * w) * sin == F
  }

  /** The numerator of the cart's acceleration. */
  function CartNumerator(m: real, l: real, sin: real, cos: real, w: real, F: real): real
  {
    m * G * sin * cos - m * l * (w * w) * sin + F
  }

  /** The numerator of the pendulum's angular acceleration (times l). */
  function PendulumNumerator(M: real, m: real, l: real, sin: real, cos: real, w: real, F: real): real
  {
    (M + m) * G * sin - m * l * (w * w) * sin * cos + F * cos
  }

  // ------------------------------------------------------------- The accelerations

  /**
   * The cart's horizontal acceleration, as solveStep computes it: the
   * solution ax of the cart equation once the pendulum's is substituted in.
   */
  function CartAcceleration(M: real, m: real, l: real, sin: real, cos: real, w: real, F: real): (ax: real)
    requires M > 0.0 && m >= 0.0
  {
    CartNumerator(m, l, sin, cos, w, F) / Denominator(M, m, sin)
  }

  /**
   * The pendulum's angular acceleration, as solveStep computes it: l aAng
   * solves the pendulum equation once the cart's is substituted in.
   */
  function AngularAcceleration(M: real, m: real, l: real, sin: real, cos: real, w: real, F: real): (aAng: real)
    requires M > 0.0 && m >= 0.0 && l > 0.0
  {
    PendulumNumerator(M, m, l, sin, cos, w, F) / l / Denominator(M, m, sin)
  }

  /** Each acceleration, multiplied by the denominator (and l), gives back its numerator. */
  lemma AccelerationsBalance(M: real, m: real, l: real, sin: real, cos: real, w: real, F: real)
    requires M > 0.0 && m >= 0.0 && l > 0.0
    ensures Balanced(CartAcceleration(M, m, l, sin, cos, w, F), Denominator(M, m, sin), CartNumerator(m, l, sin, cos, w, F))
    ensures ScaledBalanced(l, AngularAcceleration(M, m, l, sin, cos, w, F), Denominator(M, m, sin), PendulumNumerator(M, m, l, sin, cos, w, F))
  {
    var na := PendulumNumerator(M, m, l, sin, cos, w, F);
    var d := Denominator(M, m, sin);
    DivThenMul(CartNumerator(m, l, sin, cos, w, F), d);
    DivThenMul(na, l);
    DivThenMul(na / l, d);
    assert l * (na / l / d) * d == na by {
      assert l * (na / l / d) * d == l * ((na / l / d) * d);
    }
  }

  /**
   * The two accelerations solve the coupled equations of motion, whenever
   * sin and cos are those of one angle (sin^2 + cos^2 = 1).
   */
  lemma EquationsOfMotion(M: real, m: real, l: real, sin: real, cos: real, w: real, F: real)
    requires M > 0.0 && m >= 0.0 && l > 0.0
    requires sin * sin + cos * cos == 1.0
    ensures EquationsHold(M, m, l, sin, cos, w, F,
      CartAcceleration(M, m, l, sin, cos, w, F), AngularAcceleration(M, m, l, sin, cos, w, F))
  {
    var ax := CartAcceleration(M, m, l, sin, cos, w, F);
    var aAng := AngularAcceleration(M, m, l, sin, cos, w, F);
    AccelerationsBalance(M, m, l, sin, cos, w, F);
    NumeratorIdentity(M, m, l, sin, cos, w, F);
    PendulumFromProducts(l, aAng, Denominator(M, m, sin), PendulumNumerator(M, m, l, sin, cos, w, F),
      CartNumerator(m, l, sin, cos, w, F), ax, sin, cos);
    CartEquation(M, m, l, sin, cos, w, F, ax, aAng);
  }

  /** At rest at the upright position, with no force, both accelerations vanish. */
  lemma AccelerationsVanish(M: real, m: real, l: real, sin: real, cos: real, w: real, F: real)
    requires M > 0.0 && m >= 0.0 && l > 0.0
    requires sin == 0.0 && w == 0.0 && F == 0.0
    ensures CartAcceleration(M, m, l, sin, cos, w, F) == 0.0
    ensures AngularAcceleration(M, m, l, sin, cos, w, F) == 0.0
  {
  }

  /** The pendulum numerator is g sin times the denominator plus cos times the cart numerator. */
  lemma NumeratorIdentity(M: real, m: real, l: real, sin: real, cos: real, w: real, F: real)
    requires M > 0.0 && m >= 0.0
    requires sin * sin + cos * cos == 1.0
    ensures Decomposes(PendulumNumerator(M, m, l, sin, cos, w, F), sin, Denominator(M, m, sin),
                       CartNumerator(m, l, sin, cos, w, F), cos)
  {
    var w2 := w * w;
    calc {
      G * sin * (M + m * sin * sin) + (m * G * sin * cos - m * l * w2 * sin + F) * cos;
      G * sin * M + m * G * sin * (sin * sin + cos * cos) - m * l * w2 * sin * cos + F * cos;
      { assert m * G * sin * (sin * sin + cos * cos) == m * G * sin; }
      G * sin * M + m * G * sin - m * l * w2 * sin * cos + F * cos;
    }
  }

  /** The cart equation, from the substituted one and the pendulum equation. */
  lemma CartEquation(M: real, m: real, l: real, sin: real, cos: real, w: real, F: real, ax: real, aAng: real)
    requires M > 0.0 && m >= 0.0
    requires sin * sin + cos * cos == 1.0
    requires Balanced(ax, Denominator(M, m, sin), CartNumerator(m, l, sin, cos, w, F))
    requires l * aAng == G * sin + ax * cos
    ensures (M + m) * ax - m * l * aAng * cos + m * l * (w * w) * sin == F
  {
    var w2 := w * w;
    calc {
      (M + m) * ax - m * l * aAng * cos + m * l * w2 * sin;
      (M + m) * ax - m * cos * (l * aAng) + m * l * w2 * sin;
      (M + m) * ax - m * cos * (G * sin + ax * cos) + m * l * w2 * sin;
      ax * (M + m * (1.0 - cos * cos)) - m * G * sin * cos + m * l * w2 * sin;
      { assert 1.0 - cos * cos == sin * sin; }
      ax * (M + m * (sin * sin)) - m * G * sin * cos + m * l * w2 * sin;
      { assert m * (sin * sin) == m * sin * sin; }
      ax * (M + m * sin * sin) - m * G * sin * cos + m * l * w2 * sin;
      F;
    }
  }

  // ------------------------------------------------------------- Algebra

  /** x times d equals n: x is the quotient n / d when d is not zero. */
  predicate Balanced(x: real, d: real, n: real)
  {
    x * d == n
  }

  /** l times a times d equals n. */
  predicate ScaledBalanced(l: real, a: real, d: real, n: real)
  {
    l * a * d == n
  }

  /** na splits into g sin times d plus nx times cos. */
  predicate Decomposes(na: real, sin: real, d: real, nx: real, cos: real)
  {
    na == G * sin * d + nx * cos
  }

  /** Dividing by d and multiplying back by d gives the numerator again. */
  lemma DivThenMul(n: real, d: real)
    requires d != 0.0
    ensures (n / d) * d == n
  {
  }

  /** A non-zero factor cancels from both sides of an equation. */
  lemma CancelFactor(a: real, b: real, d: real)
    requires d != 0.0 && a * d == b * d
    ensures a == b
  {
    assert (a - b) * d == 0.0;
  }


  /** From l aAng d = na = g sin d + nx cos and ax d = nx, cancel d: l aAng = g sin + ax cos. */
  lemma PendulumFromProducts(l: real, aAng: real, d: real, na: real, nx: real, ax: real, sin: real, cos: real)
    requires d != 0.0
    requires ScaledBalanced(l, aAng, d, na) && Balanced(ax, d, nx) && Decomposes(na, sin, d, nx, cos)
    ensures l * aAng == G * sin + ax * cos
  {
    assert (G * sin + ax * cos) * d == G * sin * d + (ax * d) * cos;
    CancelFactor(l * aAng, G * sin + ax * cos, d);
  }

}
