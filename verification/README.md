# nav2_driver in Dafny

A model of the core of `nav2_driver`, a ROS driver for the CrossWing Nav2 robot base. The model covers three parts:

- **`Nav2Remote`, the turtle-protocol client.**
  - The constructor checks the port and connects to the first resolved address that accepts.
  - `readLine` reads the reply stream one byte at a time. It drops carriage returns, ends a line at a newline, and discards lines that begin with `|` or `+`.
  - The write commands turn API calls, with arguments in meters and radians, into command lines with angles in degrees.
  - The queries are `estimatePosition`, the `get*` settings, `getQueueSize` and `wait`.
- **`Pose2D` and `BaseOdometry`.**
  - `Pose2D` arithmetic corrects theta for wrap-around.
  - `BaseOdometry` is the integrator. It accumulates absolute pose samples into a pose and a velocity, and adds an offset only when the odometry message is built.
- **The driver's connection supervision.**
  - `connect` rebuilds the odometry around an offset and makes up to five construction attempts.
  - `publishOdometry` and `setVelocity` reconnect and retry until a call on the remote succeeds.

## How the model works

The modules follow the program's structure:

| module | file | models |
|---|---|---|
| `Angles` | `angles.dfy` | `M_PI` and the radians/degrees conversions |
| `Pose` | `pose.dfy` | the `Pose2D` operators |
| `LineReader` | `line_reader.dfy` | `readLine`: a recursive scan, a reference definition by splitting at newlines, and the same loop over a growable buffer |
| `Commands` | `commands.dfy` | the write commands, the header's inline calls, the rendered line and the write status |
| `Queries` | `queries.dfy` | `estimatePosition`, `getQueueSize`, `get*`, `wait` |
| `Connection` | `connection.dfy` | the `Nav2Remote` constructor |
| `Odometry` | `odometry.dfy` | `BaseOdometry` and `getMessage` |
| `Driver` | `driver.dfy` | `connect`, and the `publishOdometry` and `setVelocity` reconnect loops |

Everything outside the program becomes a parameter:

- **The socket** is a finite byte sequence for reads, and an integer for what each `write` returned.
- **The resolver and connect outcomes** are a list of candidates.
- **Construction attempts** are a sequence of booleans.
- **`%lf` formatting and `sscanf`** are function parameters (`fmt`, `scan`, `scan1`).
- **The ROS clock** is an explicit `now` or `at` argument.

Numbers are `real`. `Pi` is the exact value of the double `M_PI`, so angle facts rest on its actual digits.

Each place where the code differs from its evident intent is modelled twice:

- The driver and the integrator take a `Build` argument. `AsWritten` follows the code; `Fixed` applies the correction.
- The command encoder has `Encode`, as written, and `EncodeFixed`.

When a finite environment runs out before the code would stop, the result is "pending" (`Pending`, `StillPolling`, `ConnectPending`, `TickPending`). The code itself would keep reading, polling or retrying.

## Model

| member | source | states |
|---|---|---|
| `Angles.RadiansOfDegrees` | nav2_driver/src/nav2remote.cpp:102-116 | The `180/M_PI` scaling on the way out and the `M_PI/180` scaling on the way in are inverse to each other. |
| `Pose.Sub` | nav2_driver/src/nav2_driver.cpp:142-156 | x and y are plain differences. Theta is the plain difference when it is at most pi in magnitude. Otherwise theta is shifted by +2pi when the subtrahend's theta is positive, and by -2pi when it is not. |
| `Pose.ScaleUndone` | nav2_driver/src/nav2_driver.cpp:157-162 | Dividing every component by a non-zero d and multiplying back by d restores the pose. |
| `Pose.SubWithinHalfTurn` | nav2_driver/src/nav2_driver.cpp:146-154 | For two thetas in (-pi, pi], the corrected difference lies in [-pi, pi]. It differs from the plain difference by 0, 2pi or -2pi. |
| `Pose.SubAcrossWrap` | nav2_driver/src/nav2_driver.cpp:146-154 | Going from 3.0 to -3.1 gives a small positive turn (between 0.18 and 0.19), not -6.1. |
| `Pose.RolloverUpwards` | nav2_driver/src/nav2_driver.cpp:147-149 | A difference below -pi with a positive subtrahend is corrected by a full turn upwards. |
| `Pose.SubSelf` | nav2_driver/src/nav2_driver.cpp:142-156 | A pose minus itself is the origin: a zero difference never triggers the rollover. |
| `Pose.AddSubRestores` | nav2_driver/src/nav2_driver.cpp:136-156 | Adding the difference back onto the subtrahend restores x and y exactly. Theta is restored up to the rollover correction, and exactly when no rollover applies. |
| `LineReader.Scan` | nav2_driver/src/nav2remote.cpp:56-83 | A returned line contains no CR and no LF, and is not noise. Everything up to and including a newline has been consumed. |
| `LineReader.ScanCompletesLine` | nav2_driver/src/nav2remote.cpp:58-81 | The byte loop, started from a partial line, completes the first raw line. Noise lines restart the loop at position 0 within the same call. |
| `LineReader.ReadLineIsFirstRealLine` | nav2_driver/src/nav2remote.cpp:56-83 | `readLine` returns the first newline-terminated line that is not noise once its CRs are removed, and leaves exactly the bytes after that newline unread. With no such line it returns -1. |
| `LineReader.NoNewlineMeansEnd` | nav2_driver/src/nav2remote.cpp:64 | A stream that ends before any newline makes the call return -1. |
| `LineReader.SkipsNoiseLine` | nav2_driver/src/nav2remote.cpp:74-78 | A line starting with `\|` or `+` in front of the rest of the stream is skipped. The call then returns what it would return on the rest. |
| `LineReader.ReturnsFirstRealLine` | nav2_driver/src/nav2remote.cpp:66-80 | A real line is returned without its CRs, the rest after its newline stays unread, and the return value is the count of its non-CR bytes. An empty line is returned with length 0. |
| `LineReader.Grow` | nav2_driver/src/nav2remote.cpp:59-63 | Reallocation adds exactly 32 bytes of capacity and keeps the bytes stored so far. |
| `LineReader.Place` | nav2_driver/src/nav2remote.cpp:64-81 | Storing one byte at `line[pos]` needs capacity above pos+1. A CR leaves pos in place. A newline either ends the line or, for noise, restarts at position 0. Any other byte advances pos. |
| `LineReader.ReadLineBuffered` | nav2_driver/src/nav2remote.cpp:56-83 | The buffered loop returns the same code, line and unread rest as the functional reader. The capacity only grows, in steps of 32. On success it exceeds the returned length plus one. |
| `Commands.EncodeConvertsAngles` | nav2_driver/src/nav2remote.cpp:85-166 | `setRelativeVelocity`, `setPosition`, `turnLeft` and `move` convert exactly their angle argument to degrees. Every other argument passes through unchanged. |
| `Commands.Encode` | nav2_driver/src/nav2remote.cpp:85-166 | Every write command sends a line the protocol accepts, with one argument per argument of the primitive call it stands for. |
| `Commands.TargetOrientationUnconverted` | nav2_driver/src/nav2remote.cpp:85-90 | `setTargetOrientation` puts its radians on the wire unchanged, although its argument is documented as an angle in radians. |
| `Commands.InlineCalls` | nav2_driver/include/nav2_driver/nav2remote.h:104-192 | `turnRight(a)` sends `turnLeft(-a)`'s command. `forward(d)` sends `move(d, 0)`'s and `back(d)` sends `move(-d, 0)`'s. `setRelativeVelocity(vx, vy)` sends the command with turn rate 0. |
| `Commands.EncodeRoundTrip` | nav2_driver/src/nav2remote.cpp:85-166 | Reading a sent command under the degrees convention recovers the call, up to the inline rewrites. `setTargetOrientation(o)` is the one exception: it is read as o degrees. |
| `Commands.TargetOrientationMisread` | nav2_driver/src/nav2remote.cpp:88 | A non-zero target orientation does not reach the base as the orientation the caller asked for. |
| `Commands.EncodeFixedRoundTrip` | nav2_driver/include/nav2_driver/nav2remote.h:54-65 | When `setTargetOrientation` also converts to degrees, every call reaches the base meaning what the caller asked. |
| `Commands.Render` | nav2_driver/src/nav2remote.cpp:88-89 | The formatted line starts with the verb and ends with a newline. A command without arguments is the verb and a newline. The argument text is stated by the rows below. |
| `Commands.RenderArgsAppend` | nav2_driver/src/nav2remote.cpp:102 | Rendering keeps the arguments in order: the text of a concatenated argument list is the text of each part in turn. |
| `Commands.RenderUpToThree` | nav2_driver/src/nav2remote.cpp:102 | A command with one, two or three arguments renders as the verb, then a space and the `%lf` text of each argument in order, then a newline. |
| `Commands.SprintfOneArg` | nav2_driver/src/nav2remote.cpp:85-166 | `setTargetOrientation`, `turnLeft`, `setMaxSpeed`, `setMaxAccel` and `setMaxCorneringError` format exactly `"o %lf\n"`, `"lt %lf\n"`, `"sms %lf\n"`, `"sma %lf\n"` and `"smce %lf\n"`; only `turnLeft`'s argument is converted to degrees. |
| `Commands.SprintfTwoArgs` | nav2_driver/src/nav2remote.cpp:92-145 | `setAbsoluteVelocity` formats `"av %lf %lf\n"` with both values as given; `move` formats `"mv %lf %lf\n"` with the direction in degrees. |
| `Commands.SprintfThreeArgs` | nav2_driver/src/nav2remote.cpp:99-126 | `setRelativeVelocity` and `setPosition` format `"v %lf %lf %lf\n"` and `"p %lf %lf %lf\n"`, with the third argument in degrees. |
| `Commands.WriteStatus` | nav2_driver/src/nav2remote.cpp:89 | A write command returns 0 or -1, and 0 exactly when `write` reported the full formatted length. |
| `Commands.Send` | nav2_driver/src/nav2remote.cpp:85-166 | Every write command returns 0 or -1, and 0 exactly when `write` reported the full length of the line that call formats. |
| `Commands.StopLine` | nav2_driver/src/nav2remote.cpp:128-131 | `stop` writes the two bytes `s\n` and succeeds exactly when both were written. |
| `Commands.InlineStatus` | nav2_driver/include/nav2_driver/nav2remote.h:156-192 | `turnRight(a)`, `forward(d)` and `back(d)` succeed exactly when `turnLeft(-a)`, `move(d, 0)` and `move(-d, 0)` do. |
| `Queries.Request` | nav2_driver/src/nav2remote.cpp:168-205 | Each request has the length the code passes to `write`: 2 for `q`, 4 for `qms` and `qma`, 5 for `qmce`. |
| `Queries.RequestIsCommand` | nav2_driver/src/nav2remote.cpp:109 | A request line is the argument-free command of the same verb. |
| `Queries.EstimatePosition` | nav2_driver/src/nav2remote.cpp:106-119 | Returns 0 or -1, and -1 exactly on a short write or a failed read. On failure the outputs are unchanged. On success the reply line has been consumed, x and y are the scanned fields (or the prior values), and the orientation is the scanned degrees scaled to radians whether or not the scan reached it. |
| `Queries.GetQueueSize` | nav2_driver/src/nav2remote.cpp:207-219 | Returns -1 on a short write or a failed read. Otherwise it returns the fourth scanned field, which is indeterminate when the scan stopped before it. |
| `Queries.PoseAndDepthShareQuery` | nav2_driver/src/nav2remote.cpp:207-219 | `estimatePosition` and `getQueueSize` consume the same reply and fail together. A depth of -1 can also be a base report. |
| `Queries.GetSetting` | nav2_driver/src/nav2remote.cpp:168-205 | Each `get*` returns -1 on a short write, leaving the stream unread, or on a failed read. Otherwise it consumes the reply line and returns the scanned value when the scan matched, and an indeterminate value when it did not. |
| `Queries.SettingAndDepthReadAlike` | nav2_driver/src/nav2remote.cpp:168-219 | After a complete request, a `get*` query and `getQueueSize` leave the stream in the same place. A `get*` returns -1 exactly when the read failed or the base reported -1, so the two are indistinguishable. |
| `Queries.Wait` | nav2_driver/src/nav2remote.cpp:221-228 | `wait` returns the first poll below 1. It sleeps once after each earlier poll, and those polls were all at least 1. |
| `Queries.WaitDrainsQueue` | nav2_driver/src/nav2remote.cpp:221-228 | Polls of 3, 2, 1, 0 end with 0 after four polls and three sleeps. |
| `Queries.WaitReturnsDocumentedCodes` | nav2_driver/include/nav2_driver/nav2remote.h:265-270 | When every poll is -1 or a real depth, `wait` returns 0 or -1, as documented. |
| `Connection.FirstConnecting` | nav2_driver/src/nav2remote.cpp:34-45 | The remote connects to the first candidate address whose socket connects, skipping the earlier ones. With none, construction fails with "Can't connect". |
| `Connection.Open` | nav2_driver/src/nav2remote.cpp:18-48 | A port outside 1..65535 is rejected first. Then an unresolvable host is rejected. Construction succeeds exactly when some candidate connects, and it starts with an empty line buffer. |
| `Connection.DefaultPortIsValid` | nav2_driver/include/nav2_driver/nav2remote.h:50 | The default port 5010 passes the constructor's port check. |
| `Odometry.WithOffset` | nav2_driver/src/nav2_driver.cpp:185 | A rebuilt integrator has the given offset, a zero pose, velocity and previous sample, and the construction time. |
| `Odometry.UpdateWithRelative` | nav2_driver/src/nav2_driver.cpp:192-199 | The pose moves by exactly the delta. The velocity is finite exactly when time has passed. The previous sample and offset are unchanged, and the time stamp is `now`. |
| `Odometry.VelocityTimesElapsed` | nav2_driver/src/nav2_driver.cpp:197 | The velocity times the elapsed time is the delta. |
| `Odometry.UpdateWithAbsoluteFixed` | nav2_driver/src/nav2_driver.cpp:187-190 | With the correction, the previous sample becomes the raw sample. The pose moves by the sample's wrap-corrected distance from the old previous sample. |
| `Odometry.UpdateWithAbsolute` | nav2_driver/src/nav2_driver.cpp:163-190 | As written, the pose gains the wrap-corrected difference from `prev_`, and `prev_` becomes that difference (the overwritten `abs`). The offset is kept and the time stamp is `now`. |
| `Odometry.UpdateAccumulates` | nav2_driver/src/nav2_driver.cpp:187-199 | In both builds an update adds the wrap-corrected difference from `prev_` to the pose, keeps the offset and stamps `now`. |
| `Odometry.PrevHoldsDelta` | nav2_driver/src/nav2_driver.cpp:163-190 | As written, `prev_` holds the delta, not the sample. When the step does not roll over, it equals the sample exactly when the old `prev_` was the origin. |
| `Odometry.FixedTracksSamples` | nav2_driver/src/nav2_driver.cpp:187-190 | With the correction, after any run of samples the pose has moved by the last sample minus the starting previous sample. On theta this holds when no step rolls over. |
| `Odometry.AsWrittenStepX` | nav2_driver/src/nav2_driver.cpp:187-190 | As written, one step adds `s.x - prev.x` to the pose and leaves that difference in `prev_`. |
| `Odometry.AsWrittenThreeX` | nav2_driver/src/nav2_driver.cpp:187-190 | As written, three steps add differences taken against the previous deltas, not the previous samples. |
| `Odometry.AsWrittenDrifts` | nav2_driver/src/nav2_driver.cpp:187-190 | Samples x = 1, 2, 3 from a fresh integrator end at x = 4 as written, and at x = 3 with the correction. |
| `Odometry.MessageFields` | nav2_driver/src/nav2_driver.cpp:234-265 | The message carries pose plus offset as its position and yaw, z = 0, the last velocity as its twist, and the last update time as its stamp. Off-diagonal covariance is zero. |
| `Odometry.GetMessage` | nav2_driver/src/nav2_driver.cpp:239-255 | The message's position is pose plus offset with z = 0, its yaw is the sum of the thetas, its twist is the last velocity, and its stamp is the last update time. |
| `Odometry.XorLiterals` | nav2_driver/src/nav2_driver.cpp:246-251 | The C++ expressions `10^-3`, `10^6` and `10^3` are XORs with the values -9, 12 and 9. |
| `Odometry.WrittenCovarianceNegative` | nav2_driver/src/nav2_driver.cpp:246-261 | As written, the diagonal is -9, -9, 12, 12, 12, 9, so the x and y variances are negative. |
| `Odometry.IntendedCovarianceValid` | nav2_driver/src/nav2_driver.cpp:246-261 | The intended diagonal is positive, and lower on x, y and yaw than on z, roll and pitch. |
| `Driver.ResetOdometry` | nav2_driver/src/nav2_driver.cpp:66-68 | A reconnect installs a fresh pose, velocity and previous sample. As written the offset is the old accumulated pose (`getPose`). With the correction the published pose is kept. |
| `Driver.Retry` | nav2_driver/src/nav2_driver.cpp:72-82 | The loop stops at the first success, after at most the budget of attempts, all earlier attempts having failed. It gives up exactly when the whole budget failed. |
| `Driver.Connect` | nav2_driver/src/nav2_driver.cpp:59-88 | Connects after 1 to 5 attempts, the last one succeeding. Throws exactly when the first five all fail, leaving the driver without a remote. Is pending exactly when fewer than five attempts are modelled and all of them fail, so a success among the first five always connects. The odometry is rebuilt only when a remote existed before. |
| `Driver.ConstructionAttempts` | nav2_driver/src/nav2_driver.cpp:74-75 | Each construction attempt succeeds exactly when the remote's constructor does, given the resolver's answer at that attempt. |
| `Driver.InvalidPortThrows` | nav2_driver/src/nav2_driver.cpp:72-86 | With a port outside 1..65535, every attempt fails, so `connect` throws after five. |
| `Driver.Supervise` | nav2_driver/src/nav2_driver.cpp:99-101 | The loop is served by the first call that succeeds, with all earlier calls failed. There is one reconnect per failed call, plus one when there was no remote. An escalation leaves no remote. A connected driver whose first call succeeds is served without touching the connection. A `connect` that throws, before the first call or after a failed one, escalates. |
| `Driver.ServedAtFirstDone` | nav2_driver/src/nav2_driver.cpp:99-101 | The loop retries past every failed call: when each reconnect succeeds at once, call number k+1, the first that succeeds, serves, after k reconnects plus one more without a remote. |
| `Driver.SupervisedOdometry` | nav2_driver/src/nav2_driver.cpp:62-69 | Without reconnects the driver is unchanged. After one, the pose restarts at the origin. As written the offset is the old pose after one reconnect and zero after two or more. With the correction the published pose is unchanged. |
| `Driver.PublishOdometry` | nav2_driver/src/nav2_driver.cpp:95-108 | A sample is integrated, at the time it was read, only after a query succeeded, and the message is built from the updated odometry. The callback escalates exactly when `connect` threw. |
| `Driver.PublishWithoutReconnect` | nav2_driver/src/nav2_driver.cpp:99-106 | A connected driver whose first query succeeds integrates that sample and publishes its message. |
| `Driver.ZeroSamplePublishesOffset` | nav2_driver/src/nav2_driver.cpp:242-245 | Right after a reset, a zero sample publishes the offset as the position and yaw. |
| `Driver.ReconnectPublishesPoseOnly` | nav2_driver/src/nav2_driver.cpp:66-68 | As written, one reconnect followed by a zero sample publishes the old accumulated pose, not the old published pose. |
| `Driver.TwoReconnectsLoseFirstOffset` | nav2_driver/src/nav2_driver.cpp:66-68 | As written, two reconnects in a row followed by a zero sample publish (0, 0, 0), whatever the robot's pose was. |
| `Driver.FixedReconnectsKeepPublishedPose` | nav2_driver/src/nav2_driver.cpp:66-68 | With the correction, any number of reconnects followed by a zero sample publish exactly the pose published before them. |
| `Driver.SetVelocity` | nav2_driver/src/nav2_driver.cpp:114-124 | Sends the relative-velocity command with the direction in the vx slot, the speed in the vy slot and the turn rate in degrees. It stops at the first write that reported the full line, all earlier writes having been short. A full first write on a live remote is served at once. A `connect` that throws escalates. |
| `Driver.SetVelocityRetriesShortWrites` | nav2_driver/src/nav2_driver.cpp:121-123 | Short writes are retried: when each reconnect succeeds at once, write number k+1, the first full one, serves the call. |
| `Driver.VelocityCmd` | nav2_driver/src/nav2_driver.cpp:121 | The command `setVelocity` sends is `setRelativeVelocity`'s, and the base reads it back as that call. |

## Left out

- ROS plumbing is left out because it is middleware wiring. That covers parameters, publishers, the subscriber, the timer, the tf broadcaster, the node constructor and `main`.
- `getTransform` and the quaternion in `getMessage` are left out because they are trigonometry inside the tf library. The message's yaw field is the angle handed to it.
- `setVelocity`'s `sqrt`/`atan2` conversion is left out. The model takes the resulting direction (in degrees) and speed as inputs.
- Sockets are abstract outcomes: `getaddrinfo`, `socket`, `connect`, `read`, `write` and `close`. A `read` returning 0 or an error is the byte sequence ending.
- `%lf` formatting and `sscanf` parsing are function parameters. No digit strings are modelled, and neither is the 128-byte `sprintf` buffer.
- IEEE double rounding is not modelled: numbers are `real`. A division by a zero elapsed time gives `NonFinite`, standing for infinity or NaN. The unqualified `abs` in the rollover test is read as the real absolute value.
- The two calls of `ros::Time::now()` in `updateWithRelative` are one `now` argument. Their nanosecond difference is not modelled.
- Sleeps are counted (`Wait`'s `sleeps`), not timed. The 200 ms connect delay is not counted.
- `realloc` failure (`bad_alloc`) is not modelled. Neither is 32-bit overflow of `pos` and `lineLen`, which would need lines of gigabytes.
- `ReadLineBuffered` returns the number of reallocations, which the code does not keep. It is there to state that capacity grows in steps of 32.
- The destructor and the object's non-copyability are left out: they are resource management.
- Concurrency is left out: the class is documented as not thread-safe, and the callbacks run on one thread.
- The finite environments stop where the code would go on. `Wait`, `Retry`, `Connect`, `Supervise`, `PublishOdometry` and `SetVelocity` report "pending" when the outcome sequences run out. The code would keep polling, retrying or blocking.
- Reconnect continuity is not claimed for the code. The comment at nav2_driver.cpp:66 and the constructor's doc at nav2_driver.cpp:182 present the offset as what carries the odometry over to the new connection, that is, the pose published so far. The code passes `getPose()`, which is `pose_` alone, so continuity holds only when the old offset was zero. The model follows the code (`ReconnectPublishesPoseOnly`), and the continuous behaviour is the `Fixed` build.

## Findings

| source | as written | input that shows it | evidently intended | confidence | as-written member | corrected member |
|---|---|---|---|---|---|---|
| nav2_driver/src/nav2_driver.cpp:164-189 | `abs - prev_` is `abs -= prev_`, so `prev_ = abs` stores the delta and the next delta is taken against it | samples x = 1, 2, 3 from a fresh integrator: the pose ends at x = 4 | `prev_` holds the raw sample, so the pose follows the samples (x = 3) | high (not executed) | `Odometry.AsWrittenDrifts` | `Odometry.FixedTracksSamples` |
| nav2_driver/src/nav2_driver.cpp:67-68 | a reconnect's offset is `getPose()`, the accumulated pose without the old offset | two reconnects in a row, then a zero sample: published pose (0, 0, 0) | the offset is the published pose (pose plus offset), so the published pose is continuous | high (not executed) | `Driver.TwoReconnectsLoseFirstOffset` | `Driver.FixedReconnectsKeepPublishedPose` |
| nav2_driver/src/nav2_driver.cpp:246-261 | `10^-3`, `10^6`, `10^3` are integer XOR: -9, 12, 9 | any message: covariance[0] = -9 | the powers 0.001, 1e6, 1e3 | high (not executed) | `Odometry.WrittenCovarianceNegative` | `Odometry.IntendedCovarianceValid` |
| nav2_driver/src/nav2remote.cpp:88 | `setTargetOrientation` writes its radians unconverted, while every other angle goes out in degrees | `setTargetOrientation(1.0)` is sent as `o 1.0`, one degree | the orientation converted by `180/M_PI`, as documented in radians | medium (not executed) | `Commands.TargetOrientationMisread` | `Commands.EncodeFixedRoundTrip` |
