/**
 * `BaseOdometry`: turns the absolute pose samples the base reports into an
 * accumulated pose, a velocity taken from the latest delta alone, and an
 * offset added only when the odometry message is built.
 *
 * Time is an explicit `now` argument (the code reads the ROS clock). Two
 * builds are modelled side by side: `AsWritten`, which follows the code, and
 * `Fixed`, which stores the raw sample as the previous sample.
 */
module Odometry {
  import opened Angles
  import opened Pose

  /** A velocity, or the IEEE infinity/NaN a division by a zero elapsed time yields. */
  datatype Twist = Rate(v: Pose2D) | NonFinite

  /** The members `pose_`, `vel_`, `prev_`, `offset_` and `last_time_`. */
  datatype Odometry = Odometry(pose: Pose2D, vel: Twist, prev: Pose2D, offset: Pose2D, lastTime: real)

  /** A pose sample and the clock reading at which it is integrated. */
  datatype Reading = Reading(pose: Pose2D, at: real)

  /** The code as written, or with `prev_` holding the raw sample. */
  datatype Build = AsWritten | Fixed

  /** `BaseOdometry(offset)`: zero pose, velocity and previous sample; the clock read at construction. */
  function WithOffset(offset: Pose2D, now: real): (o: Odometry)
    ensures o.offset == offset && o.lastTime == now
    ensures o.pose == o.prev == Origin && o.vel == Rate(Origin)
  {
    Odometry(Origin, Rate(Origin), Origin, offset, now)
  }

  /** `BaseOdometry()`: the same with a zero offset. */
  function Initial(now: real): Odometry {
    WithOffset(Origin, now)
  }

  /**
   * `updateWithRelative(delta)`: accumulate `delta` into the pose, take the
   * velocity from this delta and the time since the last update, stamp `now`.
   */
  function UpdateWithRelative(o: Odometry, delta: Pose2D, now: real): (r: Odometry)
    ensures r.pose.x - o.pose.x == delta.x && r.pose.y - o.pose.y == delta.y && r.pose.th - o.pose.th == delta.th
    ensures r.vel.Rate? <==> now != o.lastTime
    ensures r.prev == o.prev && r.offset == o.offset && r.lastTime == now
  {
    var elapsed := now - o.lastTime;
    o.(pose := Add(o.pose, delta),
       vel := if elapsed != 0.0 then Rate(Scale(delta, elapsed)) else NonFinite,
       lastTime := now)
  }

  /** The velocity is the delta per unit of elapsed time: times the elapsed time it gives the delta back. */
  lemma VelocityTimesElapsed(o: Odometry, delta: Pose2D, now: real)
    requires now != o.lastTime
    ensures var r := UpdateWithRelative(o, delta, now); var elapsed := now - o.lastTime;
      && r.vel.Rate?
      && r.vel.v.x * elapsed == delta.x && r.vel.v.y * elapsed == delta.y && r.vel.v.th * elapsed == delta.th
  {
    ScaleUndone(delta, now - o.lastTime);
  }

  /**
   * `updateWithAbsolute(abs)` as written: `abs - prev_` is `abs -= prev_`,
   * which overwrites the by-value parameter with the delta, and the
   * following `prev_ = abs` stores that delta.
   */
  function UpdateWithAbsolute(o: Odometry, sample: Pose2D, now: real): (r: Odometry)
    ensures r.prev == Sub(sample, o.prev)
    ensures r.pose == Add(o.pose, Sub(sample, o.prev))
    ensures r.offset == o.offset && r.lastTime == now
  {
    var delta := Sub(sample, o.prev);
    UpdateWithRelative(o, delta, now).(prev := delta)
  }

  /** `updateWithAbsolute` storing the sample itself as the previous sample. */
  function UpdateWithAbsoluteFixed(o: Odometry, sample: Pose2D, now: real): (r: Odometry)
    ensures r.prev == sample
    ensures r.pose.x == o.pose.x + sample.x - o.prev.x && r.pose.y == o.pose.y + sample.y - o.prev.y
    ensures r.pose.th == o.pose.th + Sub(sample, o.prev).th
    ensures r.offset == o.offset && r.lastTime == now
  {
    UpdateWithRelative(o, Sub(sample, o.prev), now).(prev := sample)
  }

  function Update(b: Build, o: Odometry, sample: Pose2D, now: real): Odometry {
    match b
    case AsWritten => UpdateWithAbsolute(o, sample, now)
    case Fixed => UpdateWithAbsoluteFixed(o, sample, now)
  }

  /** Both builds accumulate the wrap-corrected difference from `prev_` and keep the offset. */
  lemma UpdateAccumulates(b: Build, o: Odometry, sample: Pose2D, now: real)
    ensures Update(b, o, sample, now).pose == Add(o.pose, Sub(sample, o.prev))
    ensures Update(b, o, sample, now).offset == o.offset
    ensures Update(b, o, sample, now).lastTime == now
    ensures Update(b, o, sample, now).vel == UpdateWithRelative(o, Sub(sample, o.prev), now).vel
  {
  }

  /** Right after a reset, a zero sample leaves the pose at the origin and the offset alone, in both builds. */
  lemma UpdateAtRest(b: Build, o: Odometry, sample: Pose2D, now: real)
    requires o.pose == Origin && o.prev == Origin && sample == Origin
    ensures Update(b, o, sample, now).pose == Origin && Update(b, o, sample, now).offset == o.offset
  {
  }

  /**
   * As written the previous sample becomes the delta, so (when the step does
   * not roll over) it equals the raw sample exactly when the old previous
   * sample was the origin.
   */
  lemma PrevHoldsDelta(o: Odometry, sample: Pose2D, now: real)
    ensures UpdateWithAbsolute(o, sample, now).prev == Sub(sample, o.prev)
    ensures Abs(sample.th - o.prev.th) <= Pi ==>
      (UpdateWithAbsolute(o, sample, now).prev == sample <==> o.prev == Origin)
  {
  }

  /** Feeding samples one after another. */
  function Integrate(b: Build, o: Odometry, readings: seq<Reading>): Odometry
    decreases |readings|
  {
    if |readings| == 0 then o
    else Integrate(b, Update(b, o, readings[0].pose, readings[0].at), readings[1..])
  }

  /** No two successive samples (starting from `prev`) are more than pi apart in theta. */
  predicate NoRollover(prev: Pose2D, readings: seq<Reading>)
    decreases |readings|
  {
    |readings| == 0 ||
    (Abs(readings[0].pose.th - prev.th) <= Pi && NoRollover(readings[0].pose, readings[1..]))
  }

  /**
   * With the fix the pose moves by exactly the distance between the last
   * sample and the starting previous sample; on theta this holds when no
   * step crosses the rollover threshold.
   */
  lemma {:induction false} FixedTracksSamples(o: Odometry, readings: seq<Reading>)
    requires |readings| > 0
    ensures var r := Integrate(Fixed, o, readings); var last := readings[|readings| - 1].pose;
      && r.prev == last
      && r.pose.x == o.pose.x + last.x - o.prev.x
      && r.pose.y == o.pose.y + last.y - o.prev.y
      && r.offset == o.offset
      && (NoRollover(o.prev, readings) ==> r.pose.th == o.pose.th + last.th - o.prev.th)
    decreases |readings|
  {
    var o' := Update(Fixed, o, readings[0].pose, readings[0].at);
    if |readings| > 1 {
      FixedTracksSamples(o', readings[1..]);
      assert readings[1..][|readings| - 2] == readings[|readings| - 1];
    }
  }

  /** One as-written step on x: the pose gains the difference from `prev_`, which becomes that difference. */
  lemma AsWrittenStepX(o: Odometry, s: Pose2D, now: real)
    ensures UpdateWithAbsolute(o, s, now).pose.x == o.pose.x + s.x - o.prev.x
    ensures UpdateWithAbsolute(o, s, now).prev.x == s.x - o.prev.x
  {
  }

  /** Three as-written steps on x. */
  lemma AsWrittenThreeX(o: Odometry, r1: Reading, r2: Reading, r3: Reading)
    ensures var d1 := r1.pose.x - o.prev.x; var d2 := r2.pose.x - d1; var d3 := r3.pose.x - d2;
      Integrate(AsWritten, o, [r1, r2, r3]).pose.x == o.pose.x + d1 + d2 + d3
  {
    var rs := [r1, r2, r3];
    var o1 := Update(AsWritten, o, r1.pose, r1.at);
    var o2 := Update(AsWritten, o1, r2.pose, r2.at);
    var o3 := Update(AsWritten, o2, r3.pose, r3.at);
    AsWrittenStepX(o, r1.pose, r1.at);
    AsWrittenStepX(o1, r2.pose, r2.at);
    AsWrittenStepX(o2, r3.pose, r3.at);
    assert rs[1..] == [r2, r3] && rs[1..][1..] == [r3] && rs[1..][1..][1..] == [];
    assert Integrate(AsWritten, o, rs) == Integrate(AsWritten, o1, [r2, r3]);
    assert Integrate(AsWritten, o1, [r2, r3]) == Integrate(AsWritten, o2, [r3]);
    assert Integrate(AsWritten, o2, [r3]) == o3;
  }

  /**
   * Samples x = 1, 2, 3 along a straight line from a fresh integrator: the
   * code as written ends at x = 4, the fix at x = 3.
   */
  lemma AsWrittenDrifts(r1: Reading, r2: Reading, r3: Reading)
    requires r1.pose.x == 1.0 && r2.pose.x == 2.0 && r3.pose.x == 3.0
    ensures Integrate(AsWritten, Initial(0.0), [r1, r2, r3]).pose.x == 4.0
    ensures Integrate(Fixed, Initial(0.0), [r1, r2, r3]).pose.x == 3.0
  {
    AsWrittenThreeX(Initial(0.0), r1, r2, r3);
    FixedTracksSamples(Initial(0.0), [r1, r2, r3]);
  }

  // ---------------------------------------------------------------------
  // The published message

  /** The pose the message carries: accumulated pose plus offset. */
  function PublishedPose(o: Odometry): Pose2D {
    Add(o.pose, o.offset)
  }

  /** The position, yaw and twist fields of `getMessage`, with both covariance matrices. */
  datatype Message = Message(
    stamp: real, x: real, y: real, z: real, yaw: real, twist: Twist,
    poseCovariance: seq<seq<real>>, twistCovariance: seq<seq<real>>)

  /** C++ `int` from its 32 bits (two's complement). */
  function Int32(v: bv32): int {
    if v < 0x8000_0000 then v as int else v as int - 0x1_0000_0000
  }

  /** The 32 bits of a C++ `int`. */
  function Bits(i: int): bv32
    requires -0x8000_0000 <= i < 0x8000_0000
  {
    if i >= 0 then i as bv32 else (i + 0x1_0000_0000) as bv32
  }

  /** C++ `a ^ b` on `int`: bitwise exclusive or. */
  function Xor(a: int, b: int): int
    requires -0x8000_0000 <= a < 0x8000_0000 && -0x8000_0000 <= b < 0x8000_0000
  {
    Int32(Bits(a) ^ Bits(b))
  }

  /** The diagonal as written: `10^-3, 10^-3, 10^6, 10^6, 10^6, 10^3`. */
  function WrittenDiagonal(): seq<real> {
    [Xor(10, -3) as real, Xor(10, -3) as real, Xor(10, 6) as real,
     Xor(10, 6) as real, Xor(10, 6) as real, Xor(10, 3) as real]
  }

  /** The powers of ten the expressions evidently stand for. */
  function IntendedDiagonal(): seq<real> {
    [0.001, 0.001, 1000000.0, 1000000.0, 1000000.0, 1000.0]
  }

  function Diagonal(b: Build): seq<real> {
    if b == AsWritten then WrittenDiagonal() else IntendedDiagonal()
  }

  /** A 6x6 matrix (row-major in the message) with `d` on the diagonal and zeros elsewhere. */
  function DiagonalMatrix(d: seq<real>): seq<seq<real>>
    requires |d| == 6
  {
    seq(6, r => seq(6, c => if r == c && 0 <= r < 6 then d[r] else 0.0))
  }

  /** `getMessage`: the pose fields hold pose plus offset, the twist fields the last velocity. */
  function GetMessage(b: Build, o: Odometry): (m: Message)
    ensures m.x == o.pose.x + o.offset.x && m.y == o.pose.y + o.offset.y && m.z == 0.0
    ensures m.yaw == o.pose.th + o.offset.th
    ensures m.twist == o.vel && m.stamp == o.lastTime
  {
    var p := PublishedPose(o);
    Message(o.lastTime, p.x, p.y, 0.0, p.th, o.vel, DiagonalMatrix(Diagonal(b)), DiagonalMatrix(Diagonal(b)))
  }

  /** The message reports pose plus offset and the velocity of the latest update; off-diagonal covariance is zero. */
  lemma MessageFields(b: Build, o: Odometry)
    ensures var m := GetMessage(b, o);
      && m.x == o.pose.x + o.offset.x && m.y == o.pose.y + o.offset.y && m.z == 0.0
      && m.yaw == o.pose.th + o.offset.th
      && m.twist == o.vel && m.stamp == o.lastTime
      && |m.poseCovariance| == 6 && |m.twistCovariance| == 6
      && forall r, c :: 0 <= r < 6 && 0 <= c < 6 && r != c ==>
           m.poseCovariance[r][c] == 0.0 && m.twistCovariance[r][c] == 0.0
  {
  }

  /** The three literals of the code: `10^-3` is -9, `10^6` is 12, `10^3` is 9. */
  lemma XorLiterals()
    ensures Xor(10, -3) == -9 && Xor(10, 6) == 12 && Xor(10, 3) == 9
  {
    assert Bits(-3) == 0xFFFF_FFFD && Bits(10) == 10 && Bits(6) == 6 && Bits(3) == 3;
    assert (10 as bv32) ^ 0xFFFF_FFFD == 0xFFFF_FFF7;
    assert (10 as bv32) ^ 6 == 12 && (10 as bv32) ^ 3 == 9;
    assert Int32(0xFFFF_FFF7) == -9;
  }

  /** So the written x and y variances are negative, which no covariance can be. */
  lemma WrittenCovarianceNegative(o: Odometry)
    ensures WrittenDiagonal() == [-9.0, -9.0, 12.0, 12.0, 12.0, 9.0]
    ensures GetMessage(AsWritten, o).poseCovariance[0][0] < 0.0
    ensures GetMessage(AsWritten, o).twistCovariance[1][1] < 0.0
  {
    XorLiterals();
  }

  /**
   * The intended variances are positive, smaller on the axes the base
   * measures (x, y, yaw) than on those it does not (z, roll, pitch).
   */
  lemma IntendedCovarianceValid(o: Odometry)
    ensures var m := GetMessage(Fixed, o);
      && (forall i :: 0 <= i < 6 ==> m.poseCovariance[i][i] > 0.0)
      && (forall i, j :: 0 <= i < 6 && 0 <= j < 6 && i in {0, 1, 5} && j in {2, 3, 4} ==>
            m.poseCovariance[i][i] < m.poseCovariance[j][j])
  {
  }
}
