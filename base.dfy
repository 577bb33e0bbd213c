/** Values shared by every part of the planner: optional values, positions,
    the distance function, and Python's numeric conversions. */
module Base {

  datatype Option<+T> = None | Some(value: T)

  /** A position as (latitude, longitude) in degrees. */
  datatype Coord = Coord(lat: real, lon: real)

  /** A distance in kilometres between two positions. The great-circle
      (haversine) formula itself is not modelled: only that it is never
      negative. */
  type Metric = f: (Coord, Coord) -> real | forall a, b :: 0.0 <= f(a, b)
    witness (a: Coord, b: Coord) => 0.0

  function Min(a: real, b: real): real { if a <= b then a else b }

  function Max(a: real, b: real): real { if a >= b then a else b }

  function MinInt(a: int, b: int): int { if a <= b then a else b }

  function MaxInt(a: int, b: int): int { if a >= b then a else b }

  /** Python's `max(lo, min(hi, x))`. */
  function Clamp(lo: real, hi: real, x: real): real { Max(lo, Min(hi, x)) }

  /** Python's `int(x)` on a float: truncation toward zero. */
  function Trunc(x: real): (n: int)
    ensures 0.0 <= x ==> 0 <= n && n as real <= x < n as real + 1.0
    ensures x < 0.0 ==> n <= 0 && n as real - 1.0 < x <= n as real
  {
    if x >= 0.0 then x.Floor else -((-x).Floor)
  }

  /** Python's `round(x, digits)` with `scale == 10^digits`: the nearest
      multiple of `1/scale`, a tie going to the even multiple. */
  function RoundHalfEven(x: real, scale: nat): real
    requires scale > 0
  {
    var y := x * scale as real;
    var f := y.Floor;
    var d := y - f as real;
    var n := if d < 0.5 then f else if d > 0.5 then f + 1 else if f % 2 == 0 then f else f + 1;
    n as real / scale as real
  }

  /** Rounding to one decimal keeps a value of [1, 10] inside [1, 10] and
      moves it by at most 0.05. */
  lemma RoundTenthsInRange(x: real)
    requires 1.0 <= x <= 10.0
    ensures 1.0 <= RoundHalfEven(x, 10) <= 10.0
    ensures -0.05 <= RoundHalfEven(x, 10) - x <= 0.05
  {
    var y := x * 10.0;
    var f := y.Floor;
    assert 10 <= f <= 100;
    assert f == 100 ==> y - f as real == 0.0;
  }
}
