/**
 * The driver's planar pose struct and its arithmetic operators
 * (`+=`, `-=` with rollover correction, `/=`).
 *
 * In the code the binary operators `+`, `-` and `/` are written as
 * `*this += other` and so on: they overwrite and return their left operand.
 * Over immutable values that aliasing disappears; where it matters (the
 * integrator stores the overwritten operand) the Odometry module spells it out.
 */
module Pose {
  import opened Angles

  /** x and y in meters, th in radians; th is stored as given, never normalised. */
  datatype Pose2D = Pose2D(x: real, y: real, th: real)

  /** The default-constructed pose (0, 0, 0). */
  const Origin: Pose2D := Pose2D(0.0, 0.0, 0.0)

  /** Real absolute value (the `abs` of the rollover test, read as the double overload). */
  function Abs(r: real): real {
    if r < 0.0 then -r else r
  }

  /** `operator+=`: component-wise sum. */
  function Add(p: Pose2D, q: Pose2D): Pose2D {
    Pose2D(p.x + q.x, p.y + q.y, p.th + q.th)
  }

  /** The amount `operator-=` adds to theta before subtracting `otherTh`. */
  function Rollover(th: real, otherTh: real): real {
    if Abs(th - otherTh) > Pi then
      if otherTh > 0.0 then 2.0 * Pi else -2.0 * Pi
    else
      0.0
  }

  /**
   * `operator-=`: plain differences on x and y; on theta the plain
   * difference when it is at most pi in magnitude, and otherwise the
   * difference shifted by a full turn, upwards when the subtrahend's theta is
   * positive and downwards when it is not.
   */
  function Sub(p: Pose2D, q: Pose2D): (r: Pose2D)
    ensures r.x == p.x - q.x && r.y == p.y - q.y
    ensures Abs(p.th - q.th) <= Pi ==> r.th == p.th - q.th
    ensures Abs(p.th - q.th) > Pi && q.th > 0.0 ==> r.th == p.th - q.th + 2.0 * Pi
    ensures Abs(p.th - q.th) > Pi && q.th <= 0.0 ==> r.th == p.th - q.th - 2.0 * Pi
  {
    Pose2D(p.x - q.x, p.y - q.y, p.th + Rollover(p.th, q.th) - q.th)
  }

  /** `operator/=`: every component divided by `d`. */
  function Scale(p: Pose2D, d: real): Pose2D
    requires d != 0.0
  {
    Pose2D(p.x / d, p.y / d, p.th / d)
  }

  /** Multiplying a scaled pose back by the divisor restores it. */
  lemma ScaleUndone(p: Pose2D, d: real)
    requires d != 0.0
    ensures Scale(p, d).x * d == p.x && Scale(p, d).y * d == p.y && Scale(p, d).th * d == p.th
  {
  }

  /** True when theta lies in (-pi, pi], the range the base reports. */
  predicate InHalfTurn(th: real) {
    -Pi < th <= Pi
  }

  /**
   * Between two orientations in (-pi, pi] the corrected theta difference
   * lies in [-pi, pi] and differs from the plain one by a whole number of
   * turns (none, or one either way).
   */
  lemma SubWithinHalfTurn(p: Pose2D, q: Pose2D)
    requires InHalfTurn(p.th) && InHalfTurn(q.th)
    ensures -Pi <= Sub(p, q).th <= Pi
    ensures Sub(p, q).th - (p.th - q.th) in {0.0, 2.0 * Pi, -2.0 * Pi}
  {
    var d := p.th - q.th;
    if d > Pi {
      // p.th > q.th + pi forces q.th <= 0, so the correction is downwards.
      assert q.th <= 0.0;
      assert Sub(p, q).th == d - 2.0 * Pi;
    } else if d < -Pi {
      // p.th < q.th - pi forces q.th > 0, so the correction is upwards.
      assert q.th > 0.0;
      assert Sub(p, q).th == d + 2.0 * Pi;
    }
  }

  /** Crossing the wrap boundary from 3.0 to -3.1 reads as a small positive turn (about 0.18), not -6.1. */
  lemma SubAcrossWrap()
    ensures 0.18 < Sub(Pose2D(0.0, 0.0, -3.1), Pose2D(0.0, 0.0, 3.0)).th < 0.19
  {
    PiBounds();
    RolloverUpwards(-3.1, 3.0);
  }

  /** Below minus pi with a positive subtrahend the correction is a full turn upwards. */
  lemma RolloverUpwards(th: real, otherTh: real)
    requires th - otherTh < -Pi && otherTh > 0.0
    ensures Rollover(th, otherTh) == 2.0 * Pi
  {
    PiBounds();
  }

  /** A pose minus itself is the origin: no rollover at zero difference. */
  lemma SubSelf(p: Pose2D)
    ensures Sub(p, p) == Origin
  {
    PiBounds();
    assert Abs(p.th - p.th) == 0.0;
    assert Rollover(p.th, p.th) == 0.0;
  }

  /**
   * Adding a difference back onto the subtrahend restores the minuend on x
   * and y, and on theta up to the full turn the rollover correction introduced.
   */
  lemma AddSubRestores(p: Pose2D, q: Pose2D)
    ensures Add(q, Sub(p, q)).x == p.x && Add(q, Sub(p, q)).y == p.y
    ensures Add(q, Sub(p, q)).th == p.th + Rollover(p.th, q.th)
    ensures Abs(p.th - q.th) <= Pi ==> Add(q, Sub(p, q)) == p
  {
  }
}
