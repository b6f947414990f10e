/**
 * The floating-point library the core calls, kept abstract: numpy's sqrt, arccos and arctan2 and
 * scipy/numpy's PCHIP interpolation, polyfit and polyval. Only which values flow into them is modelled.
 */
module Numerics {

  datatype Numerics = Numerics(
    sqrt: real -> real,
    acos: real -> real,
    atan2: (real, real) -> real,
    /** `PchipInterpolator(xs, ys, extrapolate=True)` evaluated at one point. */
    pchip: (seq<real>, seq<real>, real) -> real,
    /** `np.polyfit(xs, ys, degree)`: the coefficients of the least-squares polynomial. */
    polyfit: (seq<real>, seq<real>, nat) -> seq<real>,
    /** `np.polyval(coefficients, x)` at one point. */
    polyval: (seq<real>, real) -> real)

  /** `np.pi`. */
  const Pi: real := 3.141592653589793

  /** The radians-to-degrees factor `180.0 / np.pi`. */
  const Degrees: real := 180.0 / Pi

  /** The `1e-8` added to the field strength before dividing by it. */
  const Regularizer: real := 0.00000001

  /** The square root of a non-negative number is non-negative (as IEEE `sqrt` is). */
  ghost predicate SqrtNonNegative(num: Numerics) {
    forall x: real :: 0.0 <= x ==> 0.0 <= num.sqrt(x)
  }
}
