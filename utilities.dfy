/** The scalar helpers of Utilities.h, the exceptions the library throws, and the
    contract of std::sqrt, whose results the rest of the model receives as arguments. */
module Utilities {

  /** The standard exceptions the library's operations throw. */
  datatype Exception =
    | LogicError(what: string)
    | OutOfRange(what: string)
    | RuntimeError(what: string)

  /** Either the value an operation returns, or the exception it throws instead. */
  datatype Result<T> = Ok(value: T) | Throws(error: Exception)

  /** A value, or none where the model leaves a computation out. */
  datatype Option<T> = Some(value: T) | None

  /** HALF_CIRCLE, 180 degrees. */
  const HALF_CIRCLE: real := 180.0

  /** PI is `4.f * atan(1.f)` in the source. The model only relies on it being positive,
      so it is this decimal value rather than the rounded float. */
  const PI: real := 3.1415927

  /** `root` is what std::sqrt (or sqrtf) returns for `x`: its non-negative square root.
      A member that takes a square root receives it as a parameter constrained by this. */
  predicate IsSqrt(x: real, root: real)
  {
    root >= 0.0 && root * root == x
  }

  /** A square root of a positive number is positive, and the square root of zero is zero. */
  lemma SqrtPositive(x: real, root: real)
    requires IsSqrt(x, root)
    ensures x > 0.0 <==> root > 0.0
    ensures x == 0.0 <==> root == 0.0
  {
    if root > 0.0 {
      SquareStrictlyMonotone(0.0, root);
    }
  }

  /** Squaring is strictly increasing on the non-negative reals. */
  lemma SquareStrictlyMonotone(a: real, b: real)
    requires 0.0 <= a < b
    ensures a * a < b * b
  {
    var d := b - a;
    assert b * b == a * a + 2.0 * a * d + d * d;
    assert a * d >= 0.0;
    assert d * d > 0.0;
  }

  /** The square root is unique: two non-negative roots of the same number agree. */
  lemma {:induction false} SqrtUnique(x: real, r1: real, r2: real)
    requires IsSqrt(x, r1) && IsSqrt(x, r2)
    ensures r1 == r2
  {
    if r1 < r2 {
      SquareStrictlyMonotone(r1, r2);
    } else if r2 < r1 {
      SquareStrictlyMonotone(r2, r1);
    }
  }

  /** lm::clamp: `value < min ? min : (value > max ? max : value)`. The first test wins,
      so with min > max a value below min comes back as min. */
  function Clamp(value: real, min: real, max: real): (r: real)
    ensures min <= max ==> min <= r <= max
    ensures min <= value <= max ==> r == value
    ensures value < min ==> r == min
    ensures value >= min && value > max ==> r == max
    ensures r == value || r == min || r == max
  {
    if value < min then min else if value > max then max else value
  }

  /** Clamping twice is clamping once, as long as the bounds are ordered. */
  lemma ClampIdempotent(value: real, min: real, max: real)
    requires min <= max
    ensures Clamp(Clamp(value, min, max), min, max) == Clamp(value, min, max)
  {
  }

  /** With inverted bounds clamp is not idempotent: 0 clamped to [1, -1] gives 1
      (the min test wins), and clamping 1 again gives -1 (now the max test fires). */
  lemma ClampInvertedNotIdempotent()
    ensures Clamp(0.0, 1.0, -1.0) == 1.0
    ensures Clamp(Clamp(0.0, 1.0, -1.0), 1.0, -1.0) == -1.0
  {
  }

  /** lm::radiansToDegrees: `rad * (HALF_CIRCLE / PI)`. */
  function RadiansToDegrees(rad: real): real
  {
    rad * (HALF_CIRCLE / PI)
  }

  /** lm::degreesToRadians: `deg * (PI / HALF_CIRCLE)`. */
  function DegreesToRadians(deg: real): real
  {
    deg * (PI / HALF_CIRCLE)
  }

  /** The two conversions are inverse to each other, in both orders. */
  lemma {:induction false} DegreesRadiansRoundTrip(deg: real, rad: real)
    ensures RadiansToDegrees(DegreesToRadians(deg)) == deg
    ensures DegreesToRadians(RadiansToDegrees(rad)) == rad
  {
    assert (PI / HALF_CIRCLE) * (HALF_CIRCLE / PI) == 1.0;
    calc {
      RadiansToDegrees(DegreesToRadians(deg));
      (deg * (PI / HALF_CIRCLE)) * (HALF_CIRCLE / PI);
      deg * ((PI / HALF_CIRCLE) * (HALF_CIRCLE / PI));
      deg;
    }
    calc {
      DegreesToRadians(RadiansToDegrees(rad));
      (rad * (HALF_CIRCLE / PI)) * (PI / HALF_CIRCLE);
      rad * ((PI / HALF_CIRCLE) * (HALF_CIRCLE / PI));
      rad;
    }
  }

  /** Half a circle in degrees is PI radians, and back. */
  lemma HalfCircleIsPi()
    ensures DegreesToRadians(HALF_CIRCLE) == PI
    ensures RadiansToDegrees(PI) == HALF_CIRCLE
  {
  }
}
