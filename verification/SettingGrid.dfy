/** How a number is put on the grid of a setting before it is written. */
module SettingGrid {
  import opened Values

  // Products and quotients by name, so that the proofs choose which of their laws they use.

  function Mul(a: real, b: real): real { a * b }

  function Div(a: real, b: real): real
    requires b != 0.0
  {
    a / b
  }

  /** The nearest whole number; halves go to the even one. */
  function RoundHalfEven(x: real): (r: int)
    ensures -0.5 <= r as real - x <= 0.5
    ensures IsWhole(x) ==> r as real == x
  {
    var rest := x - x.Floor as real;
    if rest < 0.5 then x.Floor
    else if rest > 0.5 then x.Floor + 1
    else if x.Floor % 2 == 0 then x.Floor else x.Floor + 1
  }

  function Pow10(decimals: nat): (r: real)
    ensures r >= 1.0
  {
    if decimals == 0 then 1.0 else 10.0 * Pow10(decimals - 1)
  }

  /** Rounded to a number of decimals. */
  function RoundTo(x: real, decimals: nat): real {
    Div(RoundHalfEven(Mul(x, Pow10(decimals))) as real, Pow10(decimals))
  }

  function GridPoint(minimum: real, k: int, step: real): real { minimum + Mul(k as real, step) }

  /** A whole number of steps from the minimum, rounded to the decimals of the step as written. */
  function Snap(value: real, step: real, minimum: real, decimals: nat): real
    requires step > 0.0
  {
    RoundTo(GridPoint(minimum, RoundHalfEven(Div(value - minimum, step)), step), decimals)
  }

  predicate HasDecimals(x: real, decimals: nat) { IsWhole(Mul(x, Pow10(decimals))) }

  ghost predicate OnGrid(x: real, step: real, minimum: real) { exists k: int :: x == GridPoint(minimum, k, step) }

  lemma WholeIs(x: real, k: int)
    requires x == k as real
    ensures IsWhole(x) && x.Floor == k
  {
  }

  lemma WholeSum(a: real, b: real)
    requires IsWhole(b)
    ensures IsWhole(a) <==> IsWhole(a + b)
  {
    if IsWhole(a) {
      WholeIs(a + b, a.Floor + b.Floor);
    }
    if IsWhole(a + b) {
      WholeIs(a, (a + b).Floor - b.Floor);
    }
  }

  lemma WholeTimes(k: int, a: real)
    requires IsWhole(a)
    ensures IsWhole(Mul(k as real, a))
  {
    var n := a.Floor;
    assert k as real * n as real == (k * n) as real;
    WholeIs(Mul(k as real, a), k * n);
  }

  lemma Associates(a: real, b: real, c: real)
    ensures Mul(Mul(a, b), c) == Mul(a, Mul(b, c))
  {
  }

  lemma Distributes(a: real, b: real, c: real)
    ensures Mul(a + b, c) == Mul(a, c) + Mul(b, c)
    ensures Mul(a - b, c) == Mul(a, c) - Mul(b, c)
  {
  }

  lemma Divides(x: real, p: real)
    requires p != 0.0
    ensures Mul(Div(x, p), p) == x && Div(Mul(x, p), p) == x
  {
  }

  /** A number of steps from a minimum has the decimals of the step exactly if the minimum has. */
  lemma GridPointHasDecimals(minimum: real, k: int, step: real, decimals: nat)
    requires HasDecimals(step, decimals)
    ensures HasDecimals(GridPoint(minimum, k, step), decimals) <==> HasDecimals(minimum, decimals)
  {
    hide Mul, IsWhole, Pow10;
    var p := Pow10(decimals);
    WholeTimes(k, Mul(step, p));
    Associates(k as real, step, p);
    Distributes(minimum, Mul(k as real, step), p);
    WholeSum(Mul(minimum, p), Mul(Mul(k as real, step), p));
  }

  lemma RoundedHasDecimals(x: real, decimals: nat)
    ensures HasDecimals(RoundTo(x, decimals), decimals)
    ensures HasDecimals(x, decimals) ==> RoundTo(x, decimals) == x
  {
    hide Mul, Div, Pow10, RoundHalfEven;
    var p := Pow10(decimals);
    var n := RoundHalfEven(Mul(x, p));
    Divides(n as real, p);
    WholeIs(Mul(RoundTo(x, decimals), p), n);
    Divides(x, p);
  }

  /** The result is on the grid exactly if the minimum has no more decimals than the step: then
      for every value, and otherwise for none. */
  lemma SnapsToTheGridExactlyIf(value: real, step: real, minimum: real, decimals: nat)
    requires step > 0.0 && HasDecimals(step, decimals)
    ensures OnGrid(Snap(value, step, minimum, decimals), step, minimum) <==> HasDecimals(minimum, decimals)
  {
    hide HasDecimals, RoundTo, RoundHalfEven, Mul, Div, GridPoint;
    var k := RoundHalfEven(Div(value - minimum, step));
    var r := Snap(value, step, minimum, decimals);
    GridPointHasDecimals(minimum, k, step, decimals);
    RoundedHasDecimals(GridPoint(minimum, k, step), decimals);
    if HasDecimals(minimum, decimals) {
      assert r == GridPoint(minimum, k, step);
    }
    if OnGrid(r, step, minimum) {
      var j: int :| r == GridPoint(minimum, j, step);
      GridPointHasDecimals(minimum, j, step, decimals);
    }
  }

  lemma SnapIsAStep(value: real, step: real, minimum: real, decimals: nat)
    requires step > 0.0 && HasDecimals(step, decimals) && HasDecimals(minimum, decimals)
    ensures Snap(value, step, minimum, decimals) == GridPoint(minimum, RoundHalfEven(Div(value - minimum, step)), step)
  {
    hide HasDecimals, RoundTo, RoundHalfEven, Mul, Div, GridPoint;
    var k := RoundHalfEven(Div(value - minimum, step));
    GridPointHasDecimals(minimum, k, step, decimals);
    RoundedHasDecimals(GridPoint(minimum, k, step), decimals);
  }

  lemma SnapOfGridPoint(k: int, step: real, minimum: real, decimals: nat)
    requires step > 0.0 && HasDecimals(step, decimals) && HasDecimals(minimum, decimals)
    ensures Snap(GridPoint(minimum, k, step), step, minimum, decimals) == GridPoint(minimum, k, step)
  {
    hide HasDecimals, RoundTo, Mul, Div, Snap;
    SnapIsAStep(GridPoint(minimum, k, step), step, minimum, decimals);
    Divides(k as real, step);
    assert GridPoint(minimum, k, step) - minimum == Mul(k as real, step);
    WholeIs(k as real, k);
  }

  lemma Scaled(a: real, b: real, step: real)
    requires step > 0.0 && -0.5 <= a - b <= 0.5
    ensures -step / 2.0 <= Mul(a, step) - Mul(b, step) <= step / 2.0
  {
    Distributes(a, b, step);
    NotNegative(0.5 - (a - b), step);
    NotNegative(0.5 + (a - b), step);
    Distributes(0.5, a - b, step);
  }

  lemma NotNegative(a: real, b: real)
    requires a >= 0.0 && b >= 0.0
    ensures Mul(a, b) >= 0.0
  {
  }

  /** For such a minimum the result is within half a step of the value, and a value on the grid,
      such as the result itself, is left as it is. */
  lemma SnapIsNearAndStays(value: real, step: real, minimum: real, decimals: nat)
    requires step > 0.0 && HasDecimals(step, decimals) && HasDecimals(minimum, decimals)
    ensures
      var r := Snap(value, step, minimum, decimals);
      && -step / 2.0 <= r - value <= step / 2.0
      && Snap(r, step, minimum, decimals) == r
      && (OnGrid(value, step, minimum) ==> r == value)
  {
    hide HasDecimals, Snap, Mul, Div, RoundHalfEven;
    var q := Div(value - minimum, step);
    SnapIsAStep(value, step, minimum, decimals);
    Divides(value - minimum, step);
    Scaled(RoundHalfEven(q) as real, q, step);
    SnapOfGridPoint(RoundHalfEven(q), step, minimum, decimals);
    if OnGrid(value, step, minimum) {
      var j: int :| value == GridPoint(minimum, j, step);
      SnapOfGridPoint(j, step, minimum, decimals);
    }
  }

  /** A limit of the function: with whole steps from 0.2 the lowest value would be written as zero,
      which is no value of that grid. */
  lemma AFineMinimumIsLost()
    ensures Snap(0.2, 1.0, 0.2, 0) == 0.0 && !OnGrid(0.0, 1.0, 0.2)
  {
    assert RoundHalfEven(0.2) == 0;
    SnapsToTheGridExactlyIf(0.2, 1.0, 0.2, 0);
  }

  lemma StepsBetween(value: real, step: real, minimum: real, steps: int)
    requires step > 0.0 && minimum <= value <= GridPoint(minimum, steps, step)
    ensures 0 <= RoundHalfEven(Div(value - minimum, step)) <= steps
  {
    var q := Div(value - minimum, step);
    Divides(value - minimum, step);
    if q < 0.0 {
      Negative(q, step);
    }
    if q > steps as real {
      Distributes(q, steps as real, step);
      Negative(steps as real - q, step);
      Distributes(steps as real, q, step);
    }
    hide Mul, Div;
  }

  lemma Negative(a: real, b: real)
    requires a < 0.0 && b > 0.0
    ensures Mul(a, b) < 0.0
  {
  }

  /** If the maximum is on the grid as well, a value in the range stays in it. */
  lemma SnapStaysInRange(value: real, step: real, minimum: real, steps: int, decimals: nat)
    requires step > 0.0 && HasDecimals(step, decimals) && HasDecimals(minimum, decimals)
    requires minimum <= value <= GridPoint(minimum, steps, step)
    ensures minimum <= Snap(value, step, minimum, decimals) <= GridPoint(minimum, steps, step)
  {
    hide HasDecimals, Snap, Div;
    var k := RoundHalfEven(Div(value - minimum, step));
    StepsBetween(value, step, minimum, steps);
    SnapIsAStep(value, step, minimum, decimals);
    NotNegative(k as real, step);
    NotNegative((steps - k) as real, step);
    Distributes(steps as real, k as real, step);
    assert (steps - k) as real == steps as real - k as real;
  }
}
