/**
 * The control laws (package `strategy`): each computes, from the current
 * state, the horizontal force the cart's motor applies during a micro-step.
 * Java's Strategy interface becomes the datatype Strategy, one variant per
 * implementation; the two implementations whose tunables the user changes
 * while the engine holds them are classes, so that the engine sees the change.
 */
module Strategies {
  import opened SimState

  // ---------------------------------------------------------------- NullStrategy

  /** NullStrategy.react: the inert law, whatever the state. */
  function NullReact(s: Snapshot): (r: real)
  {
    0.0
  }

  // -------------------------------------------------------------- ManualStrategy

  /** The force slider of ManualStrategy: its range and its initial position. */
  const FORCE_MIN: int := -10
  const FORCE_MAX: int := 10
  const FORCE_INITIAL: int := 0

  /** Open-loop control: the force is whatever the operator's slider says. */
  class ManualStrategy {
    var f: int

    /** The force is always a position of the slider. */
    ghost predicate Valid()
      reads this
    {
      FORCE_MIN <= f <= FORCE_MAX
    }

    /** A fresh strategy starts with the slider at its initial position. */
    constructor ()
      ensures Valid() && f == FORCE_INITIAL
    {
      f := FORCE_INITIAL;
    }

    /** The slider's change listener: the force becomes the slider's value. */
    method ForceSliderChanged(value: int)
      requires FORCE_MIN <= value <= FORCE_MAX
      modifies this
      ensures Valid() && f == value
    {
      f := value;
    }

    /** ManualStrategy.react. */
    function React(s: Snapshot): real
      reads this
    {
      f as real
    }

    /** ManualStrategy.reset: the operator's force survives a simulation reset. */
    method Reset()
      ensures f == old(f)
    {
    }
  }

  // -------------------------------------------------------------- SimpleStrategy

  /** The gain sliders of SimpleStrategy: ranges and initial positions. */
  const KP_MIN: int := -10
  const KP_MAX: int := 10
  const KP_INITIAL: int := -7
  const KD_MIN: int := -10
  const KD_MAX: int := 10
  const KD_INITIAL: int := -4

  /** The proportional gain is ten times its slider position. */
  const KP_SCALE: int := 10

  /** The proportional-derivative law on the pendulum angle. */
  class SimpleStrategy {
    var kpRaw: int
    var kdRaw: int

    /** Both raw gains are slider positions. */
    ghost predicate Valid()
      reads this
    {
      KP_MIN <= kpRaw <= KP_MAX && KD_MIN <= kdRaw <= KD_MAX
    }

    /** A fresh strategy has both sliders at their initial positions. */
    constructor ()
      ensures Valid() && kpRaw == KP_INITIAL && kdRaw == KD_INITIAL
    {
      kpRaw, kdRaw := KP_INITIAL, KD_INITIAL;
    }

    /** The user moves the proportional slider. */
    method KpSliderChanged(value: int)
      requires Valid() && KP_MIN <= value <= KP_MAX
      modifies this
      ensures Valid() && kpRaw == value && kdRaw == old(kdRaw)
    {
      kpRaw := value;
    }

    /** The user moves the derivative slider. */
    method KdSliderChanged(value: int)
      requires Valid() && KD_MIN <= value <= KD_MAX
      modifies this
      ensures Valid() && kdRaw == value && kpRaw == old(kpRaw)
    {
      kdRaw := value;
    }

    /** SimpleStrategy.react: Kp * theta + Kd * vAng with Kp = 10 * kpRaw. */
    function React(s: Snapshot): real
      reads this
    {
      (kpRaw * KP_SCALE) as real * s.theta + kdRaw as real * s.vAng
    }

    /** SimpleStrategy.reset: the gains are left as the sliders set them. */
    method Reset()
      ensures kpRaw == old(kpRaw) && kdRaw == old(kdRaw)
    {
    }
  }

  // -------------------------------------------------------------------- Strategy

  /** The Strategy interface: one of the three laws. */
  datatype Strategy = Null | Manual(manual: ManualStrategy) | Simple(simple: SimpleStrategy)
  {
    /** The objects whose fields the law reads. */
    function Repr(): set<object>
    {
      match this
      case Null => {}
      case Manual(ms) => {ms}
      case Simple(ss) => {ss}
    }

    /** Strategy.react: the force to apply, given the current state. */
    function React(s: Snapshot): real
      reads Repr()
    {
      match this
      case Null => NullReact(s)
      case Manual(ms) => ms.React(s)
      case Simple(ss) => ss.React(s)
    }

    /** Strategy.reset: a no-op for all three laws. */
    method Reset()
      ensures Manual? ==> manual.f == old(manual.f)
      ensures Simple? ==> simple.kpRaw == old(simple.kpRaw) && simple.kdRaw == old(simple.kdRaw)
    {
      match this
      case Null =>
      case Manual(ms) => ms.Reset();
      case Simple(ss) => ss.Reset();
    }
  }

  // -------------------------------------------------------------------- Lemmas

  /** The inert law returns 0 for every state and reads no object at all, so
      no sequence of resets and reactions can make it return anything else. */
  lemma NullReactIsZero(s: Snapshot)
    ensures Null.React(s) == 0.0 && Null.Repr() == {}
  {
  }

  /** The manual law returns the slider's force and ignores the state. */
  lemma ManualReactIgnoresState(ms: ManualStrategy, s1: Snapshot, s2: Snapshot)
    ensures ms.React(s1) == ms.React(s2) == ms.f as real
  {
  }

  /** The manual force stays within the slider's range. */
  lemma ManualForceInRange(ms: ManualStrategy, s: Snapshot)
    requires ms.Valid()
    ensures FORCE_MIN as real <= ms.React(s) <= FORCE_MAX as real
  {
  }

  /** With the sliders at their initial positions the law is -70 theta - 4 vAng. */
  lemma SimpleReactInitialGains(ss: SimpleStrategy, s: Snapshot)
    requires ss.kpRaw == KP_INITIAL && ss.kdRaw == KD_INITIAL
    ensures ss.React(s) == -70.0 * s.theta - 4.0 * s.vAng
  {
  }

  /** The PD law is odd in (theta, vAng) and ignores time and the cart. */
  lemma SimpleReactOdd(ss: SimpleStrategy, s: Snapshot, s': Snapshot)
    ensures ss.React(s.(theta := -s.theta, vAng := -s.vAng)) == -ss.React(s)
    ensures s'.theta == s.theta && s'.vAng == s.vAng ==> ss.React(s') == ss.React(s)
  {
  }

  /** The PD law is bounded by the slider ranges: |F| <= 100 |theta| + 10 |vAng|. */
  lemma SimpleReactBounded(ss: SimpleStrategy, s: Snapshot)
    requires ss.Valid()
    ensures -(100.0 * Abs(s.theta) + 10.0 * Abs(s.vAng)) <= ss.React(s)
    ensures ss.React(s) <= 100.0 * Abs(s.theta) + 10.0 * Abs(s.vAng)
  {
    var kp := (ss.kpRaw * KP_SCALE) as real;
    var kd := ss.kdRaw as real;
    ProductBound(kp, s.theta, 100.0);
    ProductBound(kd, s.vAng, 10.0);
  }

  function Abs(a: real): (r: real)
    ensures r >= 0.0 && (r == a || r == -a)
  {
    if a < 0.0 then -a else a
  }

  lemma ProductBound(k: real, a: real, bound: real)
    requires -bound <= k <= bound
    ensures -(bound * Abs(a)) <= k * a <= bound * Abs(a)
  {
    if a < 0.0 {
      assert k * a == (-k) * (-a);
    }
  }

  /** A law that pushes nothing at the upright equilibrium. */
  predicate AtRestAtEquilibrium(st: Strategy)
    reads st.Repr()
  {
    st.Null? || st.Simple? || (st.Manual? && st.manual.f == 0)
  }

  /** Such a law returns 0 whenever theta and vAng are both 0. */
  lemma ReactAtEquilibrium(st: Strategy, s: Snapshot)
    requires AtRestAtEquilibrium(st) && s.theta == 0.0 && s.vAng == 0.0
    ensures st.React(s) == 0.0
  {
  }
}
