/**
 * The parameter mapping of the control panel (class ui.ControlPanel): six
 * integer sliders whose positions become the engine's inputs. The panel is a
 * class over the slider positions, which the user and setPrecision change;
 * the mapping itself, the choice of display format and the start state the
 * panel builds are functions of those positions.
 */
module Ui {
  import opened JavaMath
  import opened SimState

  // ---------------------------------------------------------------- The sliders

  /** The indices of the six sliders. */
  const PRECISION: int := 0
  const ANGLE: int := 1
  const C_MASS: int := 2
  const P_MASS: int := 3
  const LENGTH: int := 4
  const SPEED: int := 5
  const SLIDER_COUNT: int := 6

  /** A slider's range and its initial position. */
  datatype Slider = Slider(min: int, max: int, initial: int)

  /** The six sliders, in index order. */
  const SLIDERS: seq<Slider> := [
    Slider(0, 20, 10),    // precision, in hundreds of micro-steps per millisecond
    Slider(-90, 90, 22),  // angle, degrees
    Slider(1, 100, 50),   // cart mass, tenths of a kilogram
    Slider(0, 100, 10),   // pendulum mass, tenths of a kilogram
    Slider(0, 20, 5),     // length, tenths of a metre
    Slider(-3, 2, 0)      // speed, as a power of two
  ]

  /** Positions that every slider can hold: one per slider, each within its range. */
  ghost predicate InRange(positions: seq<int>)
  {
    |positions| == SLIDER_COUNT &&
    forall i :: 0 <= i < SLIDER_COUNT ==> SLIDERS[i].min <= positions[i] <= SLIDERS[i].max
  }

  /** JSlider.setValue: a requested position is clamped into the slider's range. */
  function Clamp(sl: Slider, v: int): (r: int)
    requires sl.min <= sl.max
    ensures sl.min <= r <= sl.max
    ensures sl.min <= v <= sl.max <==> r == v
  {
    if v < sl.min then sl.min else if v > sl.max then sl.max else v
  }

  // ---------------------------------------------------------------- transformValue

  /**
   * transformValue: the engine value of a slider position. Precision is in
   * hundreds, the angle is negated, masses and length are in tenths and the
   * speed is a power of two; an unknown index passes the position through.
   */
  function TransformValue(index: int, value: int): real
  {
    var v := value as real;
    if index == PRECISION then v * 100.0
    else if index == ANGLE then -v
    else if index == C_MASS || index == P_MASS || index == LENGTH then v * 0.1
    else if index == SPEED then Pow2(value)
    else v
  }

  /**
   * Moving a slider to the right increases its value, except the angle's,
   * which decreases; so distinct positions always give distinct values.
   */
  lemma TransformMonotone(index: int, v1: int, v2: int)
    requires v1 < v2
    ensures index == ANGLE ==> TransformValue(index, v1) > TransformValue(index, v2)
    ensures index != ANGLE ==> TransformValue(index, v1) < TransformValue(index, v2)
  {
    if index == SPEED {
      Pow2Increasing(v1, v2);
    }
  }

  /** Each slider position gives one and only one engine value. */
  lemma TransformInjective(index: int, v1: int, v2: int)
    ensures TransformValue(index, v1) == TransformValue(index, v2) <==> v1 == v2
  {
    if v1 < v2 {
      TransformMonotone(index, v1, v2);
    } else if v2 < v1 {
      TransformMonotone(index, v2, v1);
    }
  }

  /** The speed slider offers the six speeds 1/8, 1/4, 1/2, 1, 2 and 4. */
  lemma SpeedValues(v: int)
    requires SLIDERS[SPEED].min <= v <= SLIDERS[SPEED].max
    ensures TransformValue(SPEED, v) in {0.125, 0.25, 0.5, 1.0, 2.0, 4.0}
    ensures TransformValue(SPEED, v) == 1.0 <==> v == 0
  {
    assert Pow2(0) == 1.0;
    assert Pow2(1) == 2.0 && Pow2(2) == 4.0;
    assert Pow2(-1) == 0.5 && Pow2(-2) == 0.25 && Pow2(-3) == 0.125;
  }

  /** The smallest and largest engine value of a slider (the angle's order is reversed). */
  function Low(index: int): (r: real)
    requires 0 <= index < SLIDER_COUNT
  {
    var sl := SLIDERS[index];
    if index == ANGLE then TransformValue(index, sl.max) else TransformValue(index, sl.min)
  }

  function High(index: int): (r: real)
    requires 0 <= index < SLIDER_COUNT
  {
    var sl := SLIDERS[index];
    if index == ANGLE then TransformValue(index, sl.min) else TransformValue(index, sl.max)
  }

  /** Every position of a slider gives a value between that slider's extremes. */
  lemma TransformInRange(index: int, v: int)
    requires 0 <= index < SLIDER_COUNT && SLIDERS[index].min <= v <= SLIDERS[index].max
    ensures Low(index) <= TransformValue(index, v) <= High(index)
  {
    var sl := SLIDERS[index];
    if sl.min < v {
      TransformMonotone(index, sl.min, v);
    }
    if v < sl.max {
      TransformMonotone(index, v, sl.max);
    }
  }

  // ---------------------------------------------------------------- formatValue

  /** The format formatValue picks: a fixed number of decimals, or the empty format "". */
  datatype Format = Fixed(decimals: nat) | Empty

  /**
   * The format-choice branch of formatValue: whole numbers for precision and
   * angle, one decimal for masses and length, and for the speed as many
   * decimals as its value needs (0 from 1 up, then 1, 2 and 3 below 1/2,
   * 1/4); an unknown index gets the empty format.
   */
  function FormatOf(index: int, value: real): (f: Format)
    ensures f.Fixed? <==> 0 <= index < SLIDER_COUNT
    ensures f.Fixed? ==> f.decimals <= 3
  {
    if index == PRECISION || index == ANGLE then Fixed(0)
    else if index == C_MASS || index == P_MASS || index == LENGTH then Fixed(1)
    else if index == SPEED then
      if value >= 1.0 then Fixed(0)
      else if value >= 0.5 then Fixed(1)
      else if value >= 0.25 then Fixed(2)
      else Fixed(3)
    else Empty
  }

  /** d decimals print r without rounding. */
  predicate ShowsExactly(r: real, d: nat)
  {
    IsWhole(r * Pow10(d))
  }

  /** At every slider position the chosen format prints the value exactly. */
  lemma FormatIsExact(index: int, v: int)
    requires 0 <= index < SLIDER_COUNT && SLIDERS[index].min <= v <= SLIDERS[index].max
    ensures var value := TransformValue(index, v);
            var f := FormatOf(index, value);
            f.Fixed? && ShowsExactly(value, f.decimals)
  {
    var value := TransformValue(index, v);
    if index == SPEED {
      SpeedFormatIsExact(v);
    } else if index == C_MASS || index == P_MASS || index == LENGTH {
      assert Pow10(1) == 10.0;
      WholeMultiple(value, 1, v);
    } else if index == PRECISION {
      WholeMultiple(value, 0, 100 * v);
    } else {
      WholeMultiple(value, 0, -v);
    }
  }

  /** A value that times 10^d is the integer k prints exactly with d decimals. */
  lemma WholeMultiple(value: real, d: nat, k: int)
    requires value * Pow10(d) == k as real
    ensures ShowsExactly(value, d)
  {
    var p := value * Pow10(d);
    var whole := k as real;
    assert whole.Floor == k;
    assert p == whole;
  }

  /**
   * The speed is printed with no superfluous decimal: 2^v takes -v decimals
   * when v is negative, none otherwise, and one fewer would round it.
   */
  lemma SpeedFormatIsExact(v: int)
    requires SLIDERS[SPEED].min <= v <= SLIDERS[SPEED].max
    ensures var value := TransformValue(SPEED, v);
            var f := FormatOf(SPEED, value);
            && f.Fixed? && ShowsExactly(value, f.decimals)
            && f.decimals == (if v < 0 then -v else 0)
            && (f.decimals > 0 ==> !ShowsExactly(value, f.decimals - 1))
  {
    assert Pow10(1) == 10.0 && Pow10(2) == 100.0 && Pow10(3) == 1000.0;
    var value := TransformValue(SPEED, v);
    if v == -3 {
      assert value == 0.125 by { assert Pow2(-1) == 0.5 && Pow2(-2) == 0.25; }
      assert (12.5).Floor == 12;
    } else if v == -2 {
      assert value == 0.25 by { assert Pow2(-1) == 0.5; }
      assert (2.5).Floor == 2;
    } else if v == -1 {
      assert value == 0.5;
      assert (0.5).Floor == 0;
    } else {
      assert value == 1.0 || value == 2.0 || value == 4.0 by { assert Pow2(1) == 2.0; }
    }
  }

  // ---------------------------------------------------------------- Panel values

  /** getPrecision on given positions: the precision slider's value, cast to int. */
  function PrecisionOf(positions: seq<int>): (p: int)
    requires |positions| == SLIDER_COUNT
  {
    DoubleToInt(TransformValue(PRECISION, positions[PRECISION]))
  }

  /** The precision slider's position after setPrecision(p): p / 100 in Java's int division, clamped. */
  function PrecisionPosition(p: int): (v: int)
    ensures SLIDERS[PRECISION].min <= v <= SLIDERS[PRECISION].max
    ensures 0 <= p <= 2000 ==> v == p / 100
  {
    Clamp(SLIDERS[PRECISION], TruncDiv(p, 100))
  }

  /** getPrecision is 100 times the slider position: a multiple of 100 in [0, 2000]. */
  lemma PrecisionValues(positions: seq<int>)
    requires InRange(positions)
    ensures var p := PrecisionOf(positions);
            p == 100 * positions[PRECISION] && 0 <= p <= 2000 && p % 100 == 0
  {
    var v := positions[PRECISION];
    assert 0 <= v <= 20;
    assert IsWhole(TransformValue(PRECISION, v)) by {
      assert TransformValue(PRECISION, v) == (100 * v) as real;
    }
  }

  /**
   * setPrecision then getPrecision gives p back exactly when p is a multiple
   * of 100 in [0, 2000]; any other p is rounded toward zero and clamped.
   */
  lemma PrecisionRoundTrip(positions: seq<int>, p: int)
    requires InRange(positions)
    ensures var q := PrecisionOf(positions[PRECISION := PrecisionPosition(p)]);
            q == p <==> 0 <= p <= 2000 && p % 100 == 0
  {
    var after := positions[PRECISION := PrecisionPosition(p)];
    PrecisionValues(after);
    var v := PrecisionPosition(p);
    if 0 <= p <= 2000 && p % 100 == 0 {
      assert TruncDiv(p, 100) == p / 100;
    }
  }

  /** getPrecision then setPrecision leaves the slider where it was. */
  lemma PrecisionPositionRestores(positions: seq<int>)
    requires InRange(positions)
    ensures PrecisionPosition(PrecisionOf(positions)) == positions[PRECISION]
  {
    PrecisionValues(positions);
  }

  /**
   * getState on given positions: a new State, every field zero or false,
   * except the angle (the negated slider angle, in radians), the two masses
   * and the length.
   */
  function PanelState(positions: seq<int>): Snapshot
    requires |positions| == SLIDER_COUNT
  {
    Zero.(theta := ToRadians(TransformValue(ANGLE, positions[ANGLE])),
          M := TransformValue(C_MASS, positions[C_MASS]),
          m := TransformValue(P_MASS, positions[P_MASS]),
          l := TransformValue(LENGTH, positions[LENGTH]))
  }

  /**
   * The start state the panel builds: a cart of at least 0.1 kg, an angle
   * of the opposite sign to the slider's within [-pi/2, pi/2], nothing else
   * set; the engine can step it exactly when the length slider is not at 0.
   */
  lemma PanelStateShape(positions: seq<int>)
    requires InRange(positions)
    ensures var s := PanelState(positions);
            && s.M >= 0.1 && s.m >= 0.0 && s.l >= 0.0
            && -PI / 2.0 <= s.theta <= PI / 2.0
            && (s.theta < 0.0 <==> positions[ANGLE] > 0) && (s.theta == 0.0 <==> positions[ANGLE] == 0)
            && s == Zero.(theta := s.theta, M := s.M, m := s.m, l := s.l)
            && (Physical(s) <==> positions[LENGTH] > 0)
  {
    assert 1 <= positions[C_MASS] && 0 <= positions[P_MASS] && 0 <= positions[LENGTH];
    assert -90 <= positions[ANGLE] <= 90;
  }

  // ---------------------------------------------------------------- The panel

  class ControlPanel {
    /** The current position of each slider. */
    var positions: seq<int>

    ghost predicate Valid()
      reads this
    {
      InRange(positions)
    }

    /** A new panel: every slider at its initial position. */
    constructor ()
      ensures Valid()
      ensures forall i :: 0 <= i < SLIDER_COUNT ==> positions[i] == SLIDERS[i].initial
    {
      positions := [10, 22, 50, 10, 5, 0];
    }

    /** JSlider.setValue on slider `index`: the position becomes v, clamped into range. */
    method SetSliderValue(index: int, v: int)
      requires Valid() && 0 <= index < SLIDER_COUNT
      modifies this
      ensures Valid()
      ensures positions == old(positions)[index := Clamp(SLIDERS[index], v)]
    {
      positions := positions[index := Clamp(SLIDERS[index], v)];
    }

    /** getValue: the engine value of slider `index`, between that slider's extremes. */
    function GetValue(index: int): (r: real)
      reads this
      requires Valid() && 0 <= index < SLIDER_COUNT
      ensures Low(index) <= r <= High(index)
    {
      TransformInRange(index, positions[index]);
      TransformValue(index, positions[index])
    }

    /** getPrecision. */
    function GetPrecision(): (p: int)
      reads this
      requires Valid()
      ensures p == 100 * positions[PRECISION] && 0 <= p <= 2000 && p % 100 == 0
    {
      PrecisionValues(positions);
      DoubleToInt(GetValue(PRECISION))
    }

    /** setPrecision(p): the precision slider moves to p / 100, clamped. */
    method SetPrecision(p: int)
      requires Valid()
      modifies this
      ensures Valid() && positions == old(positions)[PRECISION := PrecisionPosition(p)]
      ensures GetPrecision() == p <==> 0 <= p <= 2000 && p % 100 == 0
    {
      SetSliderValue(PRECISION, TruncDiv(p, 100));
      PrecisionRoundTrip(old(positions), p);
    }

    /** getState: a fresh State built from the sliders. */
    method GetState() returns (s: State)
      requires Valid()
      ensures fresh(s) && s.Value() == PanelState(positions)
    {
      s := new State();
      s.theta := ToRadians(GetValue(ANGLE));
      s.M := GetValue(C_MASS);
      s.m := GetValue(P_MASS);
      s.l := GetValue(LENGTH);
    }
  }
}
