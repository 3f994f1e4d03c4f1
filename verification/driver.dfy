/**
 * The ROS driver's connection supervision: `connect` (tear down the old
 * remote, rebuild the odometry around an offset, retry construction up to
 * five times) and the loops in `publishOdometry` and `setVelocity` that
 * reconnect and retry until a call on the remote succeeds.
 *
 * The environment is finite: the outcomes of successive construction
 * attempts, and of successive calls on the remote. When a sequence runs out
 * before the code would stop, the outcome is "pending".
 */
module Driver {
  import opened Pose
  import opened Odometry
  import opened Commands
  import Connection

  /** `connect` tries to construct the remote this many times. */
  const MaxConnectAttempts: nat := 5

  /** Whether `remote_` holds a remote, and `base_odom_`. */
  datatype Driver = Driver(connected: bool, odom: Odometry)

  /**
   * The odometry a reconnect installs, built at time `now`. As written it is
   * `BaseOdometry(base_odom_.getPose())`: the offset becomes the accumulated
   * pose alone and the old offset is dropped. The fix keeps the published pose.
   */
  function ResetOdometry(b: Build, o: Odometry, now: real): (r: Odometry)
    ensures r.pose == Origin && r.prev == Origin && r.vel == Rate(Origin) && r.lastTime == now
    ensures b == AsWritten ==> r.offset == o.pose
    ensures b == Fixed ==> PublishedPose(r) == PublishedPose(o)
  {
    WithOffset(if b == AsWritten then o.pose else PublishedPose(o), now)
  }

  datatype RetryOutcome = FirstSuccess(used: nat) | AllFailed | AttemptsRanOut

  /**
   * The retry loop: stop at the first successful construction, give up when
   * `budget` attempts have failed. `used` counts the attempts made.
   */
  function Retry(attempts: seq<bool>, budget: nat): (r: RetryOutcome)
    ensures r.FirstSuccess? ==>
      && 1 <= r.used <= budget && r.used <= |attempts| && attempts[r.used - 1]
      && forall j :: 0 <= j < r.used - 1 ==> !attempts[j]
    ensures r.AllFailed? ==> budget <= |attempts| && forall j :: 0 <= j < budget ==> !attempts[j]
    ensures r.AttemptsRanOut? ==> |attempts| < budget && forall j :: 0 <= j < |attempts| ==> !attempts[j]
  {
    if budget == 0 then AllFailed
    else if |attempts| == 0 then AttemptsRanOut
    else if attempts[0] then FirstSuccess(1)
    else
      match Retry(attempts[1..], budget - 1)
      case FirstSuccess(n) => FirstSuccess(n + 1)
      case AllFailed => AllFailed
      case AttemptsRanOut => AttemptsRanOut
  }

  /** `connect` connected (after `used` attempts), threw after five failures, or is still retrying. */
  datatype ConnectOutcome = Up(d: Driver, used: nat) | Thrown(d: Driver) | ConnectPending

  /**
   * `connect(address, port)`: with an existing remote, drop it and rebuild
   * the odometry at time `now`; without one, leave the odometry alone. Then
   * up to five construction attempts.
   */
  function Connect(b: Build, d: Driver, now: real, attempts: seq<bool>): (r: ConnectOutcome)
    ensures r.Up? ==>
      && r.d.connected && 1 <= r.used <= MaxConnectAttempts && r.used <= |attempts|
      && attempts[r.used - 1] && forall j :: 0 <= j < r.used - 1 ==> !attempts[j]
    ensures r.Thrown? <==> MaxConnectAttempts <= |attempts| && forall j :: 0 <= j < MaxConnectAttempts ==> !attempts[j]
    ensures r.ConnectPending? <==> |attempts| < MaxConnectAttempts && forall j :: 0 <= j < |attempts| ==> !attempts[j]
    ensures r.Thrown? ==> !r.d.connected
    ensures r.Up? || r.Thrown? ==> r.d.odom == (if d.connected then ResetOdometry(b, d.odom, now) else d.odom)
  {
    var d1 := if d.connected then Driver(false, ResetOdometry(b, d.odom, now)) else d;
    match Retry(attempts, MaxConnectAttempts)
    case FirstSuccess(n) => Up(d1.(connected := true), n)
    case AllFailed => Thrown(d1)
    case AttemptsRanOut => ConnectPending
  }

  /**
   * Each construction attempt is one `Nav2Remote(address, port)`, given what
   * the resolver answered at that attempt; it succeeds when the constructor
   * does not throw. `connect` leaves the port check to the constructor.
   */
  function ConstructionAttempts(port: int, resolutions: seq<Connection.Resolution>): (attempts: seq<bool>)
    ensures |attempts| == |resolutions|
    ensures forall i :: 0 <= i < |resolutions| ==> (attempts[i] <==> Connection.Open(port, resolutions[i]).Opened?)
  {
    seq(|resolutions|, i requires 0 <= i < |resolutions| => Connection.Open(port, resolutions[i]).Opened?)
  }

  /** An invalid port fails every attempt, so `connect` throws after five of them. */
  lemma InvalidPortThrows(b: Build, d: Driver, now: real, port: int, resolutions: seq<Connection.Resolution>)
    requires !Connection.ValidPort(port) && MaxConnectAttempts <= |resolutions|
    ensures Connect(b, d, now, ConstructionAttempts(port, resolutions)).Thrown?
  {
  }

  /** One call on the remote: it failed (and the clock read `at` before reconnecting), or it gave `value`. */
  datatype Try<T> = Lost(at: real) | Done(value: T)

  /**
   * A supervised call: served by try number `tries` after `used` construction
   * attempts and `reconnects` calls of `connect`; escalated by `connect`'s
   * exception; or pending.
   */
  datatype Supervised<T> = Served(d: Driver, value: T, tries: nat, used: nat, reconnects: nat) | Escalated(d: Driver) | Pending

  /**
   * `while (!remote_ || call() < 0) connect(...)`: without a remote connect
   * first; after every failed call reconnect before trying again.
   */
  function Supervise<T>(b: Build, d: Driver, tries: seq<Try<T>>, attempts: seq<bool>): (r: Supervised<T>)
    ensures r.Served? ==>
      && r.d.connected && 1 <= r.tries <= |tries| && tries[r.tries - 1] == Done(r.value)
      && (forall j :: 0 <= j < r.tries - 1 ==> tries[j].Lost?)
      && r.used <= |attempts|
      && r.reconnects == r.tries - 1 + (if d.connected then 0 else 1)
    ensures r.Escalated? ==> !r.d.connected
    ensures d.connected && |tries| > 0 && tries[0].Done? ==> r == Served(d, tries[0].value, 1, 0, 0)
    ensures !d.connected && Connect(b, d, d.odom.lastTime, attempts).Thrown? ==> r.Escalated?
    ensures d.connected && |tries| > 0 && tries[0].Lost? && Connect(b, d, tries[0].at, attempts).Thrown? ==> r.Escalated?
    decreases |tries|, |attempts|
  {
    if !d.connected then
      // No remote, so connect resets nothing and its clock argument is unused.
      match Connect(b, d, d.odom.lastTime, attempts)
      case Up(d1, n) =>
        (match Supervise(b, d1, tries, attempts[n..])
         case Served(d2, v, k, u, c) => Served(d2, v, k, u + n, c + 1)
         case Escalated(d2) => Escalated(d2)
         case Pending => Pending)
      case Thrown(d1) => Escalated(d1)
      case ConnectPending => Pending
    else if |tries| == 0 then
      Pending
    else
      match tries[0]
      case Done(v) => Served(d, v, 1, 0, 0)
      case Lost(at) =>
        match Connect(b, d, at, attempts)
        case Up(d1, n) =>
          (match Supervise(b, d1, tries[1..], attempts[n..])
           case Served(d2, v, k, u, c) => Served(d2, v, k + 1, u + n, c + 1)
           case Escalated(d2) => Escalated(d2)
           case Pending => Pending)
        case Thrown(d1) => Escalated(d1)
        case ConnectPending => Pending
  }

  /**
   * The loop retries past every failed call: when each reconnect succeeds at
   * its first attempt, the first call that succeeds (number `k + 1`) serves,
   * after one reconnect per earlier failure and one more without a remote.
   */
  lemma {:induction false} ServedAtFirstDone<T>(b: Build, d: Driver, tries: seq<Try<T>>, attempts: seq<bool>, k: nat)
    requires k < |tries| && tries[k].Done? && forall j :: 0 <= j < k ==> tries[j].Lost?
    requires var need := k + (if d.connected then 0 else 1);
      need <= |attempts| && forall j :: 0 <= j < need ==> attempts[j]
    ensures var r := Supervise(b, d, tries, attempts); var need := k + (if d.connected then 0 else 1);
      && r.Served? && r.value == tries[k].value && r.tries == k + 1
      && r.used == need && r.reconnects == need
    decreases |tries|, if d.connected then 0 else 1
  {
    if !d.connected {
      var d1 := d.(connected := true);
      assert Connect(b, d, d.odom.lastTime, attempts) == Up(d1, 1);
      ServedAtFirstDone(b, d1, tries, attempts[1..], k);
    } else if k > 0 {
      var d1 := Driver(true, ResetOdometry(b, d.odom, tries[0].at));
      assert Connect(b, d, tries[0].at, attempts) == Up(d1, 1);
      assert tries[1..][k - 1] == tries[k];
      ServedAtFirstDone(b, d1, tries[1..], attempts[1..], k - 1);
    }
  }

  /**
   * What the reconnects of a served call leave in the odometry, starting
   * connected: nothing when the first try succeeds; otherwise a fresh pose.
   * As written the offset is the old accumulated pose after one reconnect and
   * zero after two or more; with the fix the published pose never changes.
   */
  lemma {:induction false} SupervisedOdometry<T>(b: Build, d: Driver, tries: seq<Try<T>>, attempts: seq<bool>)
    requires d.connected
    ensures var r := Supervise(b, d, tries, attempts);
      r.Served? ==>
        && (r.reconnects == 0 ==> r.d == d)
        && (r.reconnects > 0 ==> r.d.odom.pose == Origin && r.d.odom.prev == Origin)
        && (b == AsWritten && r.reconnects == 1 ==> r.d.odom.offset == d.odom.pose)
        && (b == AsWritten && r.reconnects >= 2 ==> r.d.odom.offset == Origin)
        && (b == Fixed ==> PublishedPose(r.d.odom) == PublishedPose(d.odom))
    decreases |tries|
  {
    if |tries| > 0 && tries[0].Lost? {
      match Connect(b, d, tries[0].at, attempts)
      case Up(d1, n) =>
        SupervisedOdometry(b, d1, tries[1..], attempts[n..]);
      case Thrown(_) =>
      case ConnectPending =>
    }
  }

  // ---------------------------------------------------------------------
  // The two supervised calls

  /** The timer callback published a message, escalated the connect failure, or is still retrying. */
  datatype Tick = Published(d: Driver, msg: Message) | TickEscalated(d: Driver) | TickPending

  /**
   * `publishOdometry`: get a pose sample under supervision, feed it to the
   * integrator at the time it was read, publish the message.
   */
  function PublishOdometry(b: Build, d: Driver, tries: seq<Try<Reading>>, attempts: seq<bool>): (r: Tick)
    ensures r.Published? ==>
      var s := Supervise(b, d, tries, attempts);
      && s.Served?
      && r.d.connected
      && r.d.odom == Update(b, s.d.odom, s.value.pose, s.value.at)
      && r.msg == GetMessage(b, r.d.odom)
    ensures r.TickEscalated? <==> Supervise(b, d, tries, attempts).Escalated?
  {
    match Supervise(b, d, tries, attempts)
    case Served(d1, reading, _, _, _) =>
      var o := Update(b, d1.odom, reading.pose, reading.at);
      Published(d1.(odom := o), GetMessage(b, o))
    case Escalated(d1) => TickEscalated(d1)
    case Pending => TickPending
  }

  /** A connected driver whose first query succeeds integrates the sample and touches no connection. */
  lemma PublishWithoutReconnect(b: Build, d: Driver, reading: Reading, tries: seq<Try<Reading>>, attempts: seq<bool>)
    requires d.connected && |tries| > 0 && tries[0] == Done(reading)
    ensures PublishOdometry(b, d, tries, attempts) ==
      var o := Update(b, d.odom, reading.pose, reading.at);
      Published(Driver(true, o), GetMessage(b, o))
  {
  }

  /** Right after a reset, a zero sample leaves the published pose at the offset. */
  lemma ZeroSamplePublishesOffset(b: Build, o: Odometry, sample: Pose2D, t: real)
    requires o.pose == Origin && o.prev == Origin && sample == Origin
    ensures var m := GetMessage(b, Update(b, o, sample, t));
      m.x == o.offset.x && m.y == o.offset.y && m.yaw == o.offset.th
  {
    UpdateAtRest(b, o, sample, t);
    MessageFields(b, Update(b, o, sample, t));
  }

  /** A served query is published as the integrated sample. */
  lemma PublishServed(b: Build, d: Driver, tries: seq<Try<Reading>>, attempts: seq<bool>)
    requires Supervise(b, d, tries, attempts).Served?
    ensures var s := Supervise(b, d, tries, attempts);
      var o := Update(b, s.d.odom, s.value.pose, s.value.at);
      PublishOdometry(b, d, tries, attempts) == Published(s.d.(odom := o), GetMessage(b, o))
  {
  }

  /**
   * As written, one reconnect followed by a zero sample publishes the old
   * accumulated pose, not the old published pose: continuity holds only when
   * the old offset was zero.
   */
  lemma ReconnectPublishesPoseOnly(d: Driver, t0: real, t1: real, attempts: seq<bool>)
    requires d.connected && |attempts| > 0 && attempts[0]
    ensures var r := PublishOdometry(AsWritten, d, [Lost(t0), Done(Reading(Origin, t1))], attempts);
      && r.Published?
      && r.msg.x == d.odom.pose.x && r.msg.y == d.odom.pose.y && r.msg.yaw == d.odom.pose.th
  {
    var tries := [Lost(t0), Done(Reading(Origin, t1))];
    var d1 := Driver(true, ResetOdometry(AsWritten, d.odom, t0));
    assert Retry(attempts, MaxConnectAttempts) == FirstSuccess(1);
    assert Connect(AsWritten, d, t0, attempts) == Up(d1, 1);
    assert tries[1..] == [Done(Reading(Origin, t1))];
    assert Supervise(AsWritten, d, tries, attempts) == Served(d1, Reading(Origin, t1), 2, 1, 1);
    PublishServed(AsWritten, d, tries, attempts);
    ZeroSamplePublishesOffset(AsWritten, d1.odom, Origin, t1);
  }

  /**
   * As written, two reconnects in a row followed by a zero sample publish the
   * origin whatever the robot's pose was: the first reconnect's offset is lost.
   */
  lemma TwoReconnectsLoseFirstOffset(d: Driver, t0: real, t1: real, t2: real, attempts: seq<bool>)
    requires d.connected && |attempts| > 1 && attempts[0] && attempts[1]
    ensures var r := PublishOdometry(AsWritten, d, [Lost(t0), Lost(t1), Done(Reading(Origin, t2))], attempts);
      && r.Published?
      && r.msg.x == 0.0 && r.msg.y == 0.0 && r.msg.yaw == 0.0
  {
    var tries := [Lost(t0), Lost(t1), Done(Reading(Origin, t2))];
    var d1 := Driver(true, ResetOdometry(AsWritten, d.odom, t0));
    var d2 := Driver(true, ResetOdometry(AsWritten, d1.odom, t1));
    assert Retry(attempts, MaxConnectAttempts) == FirstSuccess(1);
    assert Retry(attempts[1..], MaxConnectAttempts) == FirstSuccess(1);
    assert Connect(AsWritten, d, t0, attempts) == Up(d1, 1);
    assert Connect(AsWritten, d1, t1, attempts[1..]) == Up(d2, 1);
    assert tries[1..] == [Lost(t1), Done(Reading(Origin, t2))];
    assert tries[1..][1..] == [Done(Reading(Origin, t2))];
    assert attempts[1..][1..] == attempts[2..];
    assert Supervise(AsWritten, d2, tries[1..][1..], attempts[2..]) == Served(d2, Reading(Origin, t2), 1, 0, 0);
    assert Supervise(AsWritten, d1, tries[1..], attempts[1..]) == Served(d2, Reading(Origin, t2), 2, 1, 1);
    assert Supervise(AsWritten, d, tries, attempts) == Served(d2, Reading(Origin, t2), 3, 2, 2);
    PublishServed(AsWritten, d, tries, attempts);
    ZeroSamplePublishesOffset(AsWritten, d2.odom, Origin, t2);
  }

  /**
   * With the fix, any number of reconnects followed by a zero sample publish
   * exactly the pose published before the first of them.
   */
  lemma FixedReconnectsKeepPublishedPose(d: Driver, tries: seq<Try<Reading>>, attempts: seq<bool>)
    requires d.connected
    requires var s := Supervise(Fixed, d, tries, attempts);
      s.Served? && s.reconnects > 0 && s.value.pose == Origin
    ensures var r := PublishOdometry(Fixed, d, tries, attempts);
      && r.Published?
      && r.msg.x == PublishedPose(d.odom).x && r.msg.y == PublishedPose(d.odom).y
      && r.msg.yaw == PublishedPose(d.odom).th
  {
    FixedResetsKeepPublished(d, tries, attempts);
    var s := Supervise(Fixed, d, tries, attempts);
    PublishServed(Fixed, d, tries, attempts);
    ZeroSampleKeepsPublished(Fixed, d.odom, s.d.odom, s.value.pose, s.value.at);
  }

  lemma FixedResetsKeepPublished(d: Driver, tries: seq<Try<Reading>>, attempts: seq<bool>)
    requires d.connected
    requires var s := Supervise(Fixed, d, tries, attempts); s.Served? && s.reconnects > 0
    ensures var s := Supervise(Fixed, d, tries, attempts);
      s.d.odom.pose == Origin && s.d.odom.prev == Origin && PublishedPose(s.d.odom) == PublishedPose(d.odom)
  {
    SupervisedOdometry(Fixed, d, tries, attempts);
  }

  lemma ZeroSampleKeepsPublished(b: Build, before: Odometry, o: Odometry, sample: Pose2D, t: real)
    requires o.pose == Origin && o.prev == Origin && sample == Origin
    requires PublishedPose(o) == PublishedPose(before)
    ensures var m := GetMessage(b, Update(b, o, sample, t));
      m.x == PublishedPose(before).x && m.y == PublishedPose(before).y && m.yaw == PublishedPose(before).th
  {
    ZeroSamplePublishesOffset(b, o, sample, t);
  }

  /** One `write` of a command: the count it returned and the clock reading if it falls short. */
  datatype Write = Write(count: int, at: real)

  /** The command `setVelocity` sends: heading in the vx slot, speed in the vy slot, turn rate in degrees. */
  function VelocityCmd(direction: real, speed: real, turnRate: real): (cmd: Cmd)
    ensures cmd == Encode(RelativeVelocity(direction, speed, turnRate))
    ensures Decode(cmd) == Some(RelativeVelocity(direction, speed, turnRate))
  {
    EncodeRoundTrip(RelativeVelocity(direction, speed, turnRate));
    Cmd("v", [direction, speed, Angles.Degrees(turnRate)])
  }

  /** Each write of the command as a call on the remote: it succeeds exactly when the whole line went out. */
  function WriteTries(cmd: Cmd, fmt: real -> string, writes: seq<Write>): (tries: seq<Try<Cmd>>)
    ensures |tries| == |writes|
    ensures forall j :: 0 <= j < |writes| ==>
      (tries[j] == Done(cmd) <==> writes[j].count == |Render(cmd, fmt)|) &&
      (tries[j].Lost? <==> writes[j].count != |Render(cmd, fmt)|) &&
      (tries[j].Lost? ==> tries[j].at == writes[j].at)
  {
    seq(|writes|, i requires 0 <= i < |writes| =>
      if WriteStatus(cmd, fmt, writes[i].count) == 0 then Done(cmd) else Lost(writes[i].at))
  }

  /**
   * `setVelocity`: the base's relative-velocity command, sent with the
   * heading of the requested velocity (in degrees, as computed by the
   * caller) in the vx slot and its speed in the vy slot, retried under
   * supervision until a write is complete.
   */
  function SetVelocity(b: Build, d: Driver, direction: real, speed: real, turnRate: real,
                       fmt: real -> string, writes: seq<Write>, attempts: seq<bool>): (r: Supervised<Cmd>)
    ensures r.Served? ==>
      && r.value == Cmd("v", [direction, speed, Angles.Degrees(turnRate)])
      && 1 <= r.tries <= |writes|
      && writes[r.tries - 1].count == |Render(r.value, fmt)|
      && forall j :: 0 <= j < r.tries - 1 ==> writes[j].count != |Render(r.value, fmt)|
    ensures var full := |Render(Cmd("v", [direction, speed, Angles.Degrees(turnRate)]), fmt)|;
      d.connected && |writes| > 0 && writes[0].count == full ==>
        r == Served(d, Cmd("v", [direction, speed, Angles.Degrees(turnRate)]), 1, 0, 0)
    ensures var full := |Render(Cmd("v", [direction, speed, Angles.Degrees(turnRate)]), fmt)|;
      d.connected && |writes| > 0 && writes[0].count != full && Connect(b, d, writes[0].at, attempts).Thrown? ==>
        r.Escalated?
    ensures !d.connected && Connect(b, d, d.odom.lastTime, attempts).Thrown? ==> r.Escalated?
  {
    Supervise(b, d, WriteTries(VelocityCmd(direction, speed, turnRate), fmt, writes), attempts)
  }

  /**
   * Short writes are retried: when each reconnect succeeds at its first
   * attempt, the first write that sends the whole line (number `k + 1`)
   * serves the call.
   */
  lemma SetVelocityRetriesShortWrites(b: Build, d: Driver, direction: real, speed: real, turnRate: real,
                                      fmt: real -> string, writes: seq<Write>, attempts: seq<bool>, k: nat)
    requires var full := |Render(VelocityCmd(direction, speed, turnRate), fmt)|;
      k < |writes| && writes[k].count == full && forall j :: 0 <= j < k ==> writes[j].count != full
    requires var need := k + (if d.connected then 0 else 1);
      need <= |attempts| && forall j :: 0 <= j < need ==> attempts[j]
    ensures var r := SetVelocity(b, d, direction, speed, turnRate, fmt, writes, attempts);
      r.Served? && r.tries == k + 1 && r.reconnects == k + (if d.connected then 0 else 1)
  {
    var tries := WriteTries(VelocityCmd(direction, speed, turnRate), fmt, writes);
    ServedAtFirstDone(b, d, tries, attempts, k);
  }
}
