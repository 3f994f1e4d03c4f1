/**
 * Angle units at the boundary between the driver API (radians) and the
 * turtle wire protocol (degrees).
 */
module Angles {

  /** M_PI as the C library defines it: the IEEE double nearest to pi,
      884279719003555 / 2^48, written out exactly in decimal. */
  const Pi: real := 3.141592653589793115997963468544185161590576171875

  /** `x * (180.0 / M_PI)`: an API angle in radians as it goes on the wire. */
  function Degrees(radians: real): real {
    radians * (180.0 / Pi)
  }

  /** `x * (M_PI / 180.0)`: a wire angle in degrees as the API returns it. */
  function Radians(degrees: real): real {
    degrees * (Pi / 180.0)
  }

  lemma PiBounds()
    ensures 3.14159265 < Pi < 3.14159266
  {
  }

  /** Over the reals the two conversions are inverse to each other. */
  lemma RadiansOfDegrees(a: real)
    ensures Radians(Degrees(a)) == a
    ensures Degrees(Radians(a)) == a
  {
  }

  /** A conversion changes an angle exactly when the angle is non-zero. */
  lemma DegreesFixesOnlyZero(a: real)
    ensures Degrees(a) == a <==> a == 0.0
    ensures Radians(a) == a <==> a == 0.0
  {
  }
}
