/**
 * The write commands of `Nav2Remote`: each API call becomes one turtle
 * command line, a verb and its numeric arguments, written to the socket in
 * one `write`. Numbers are rendered by `sprintf("%lf")`, which this model
 * leaves abstract as a formatter parameter `fmt`.
 */
module Commands {
  import opened Angles

  datatype Option<T> = None | Some(value: T)

  /** A turtle command: a verb and its arguments in wire units. */
  datatype Cmd = Cmd(verb: string, args: seq<real>)

  /** The write operations of the API, with their arguments in API units (meters, radians). */
  datatype Call =
    | TargetOrientation(orientation: real)
    | AbsoluteVelocity(vx: real, vy: real)
    | RelativeVelocity(vx: real, vy: real, turnRate: real)
    | Position(x: real, y: real, orientation: real)
    | Stop
    | TurnLeft(angle: real)
    | TurnRight(angle: real)
    | Move(dist: real, direction: real)
    | Forward(dist: real)
    | Back(dist: real)
    | MaxSpeed(maxSpeed: real)
    | MaxAccel(maxAccel: real)
    | MaxCorneringError(error: real)

  /** `setRelativeVelocity(vx, vy)`: the header's default turn rate is 0.0. */
  function RelativeVelocityDefault(vx: real, vy: real): Call {
    RelativeVelocity(vx, vy, 0.0)
  }

  /** The calls the header defines inline in terms of others. */
  predicate IsInline(c: Call) {
    c.TurnRight? || c.Forward? || c.Back?
  }

  /** How many inline definitions a call goes through before a primitive one. */
  function InlineDepth(c: Call): nat {
    if c.Back? then 2 else if IsInline(c) then 1 else 0
  }

  /** The arguments of a call in the order the API takes them. */
  function Params(c: Call): seq<real> {
    match c
    case TargetOrientation(o) => [o]
    case AbsoluteVelocity(vx, vy) => [vx, vy]
    case RelativeVelocity(vx, vy, t) => [vx, vy, t]
    case Position(x, y, o) => [x, y, o]
    case Stop => []
    case TurnLeft(a) => [a]
    case TurnRight(a) => [a]
    case Move(d, dir) => [d, dir]
    case Forward(d) => [d]
    case Back(d) => [d]
    case MaxSpeed(v) => [v]
    case MaxAccel(v) => [v]
    case MaxCorneringError(v) => [v]
  }

  /** Which API arguments the header documents as angles in radians. */
  predicate IsAngle(c: Call, i: nat) {
    match c
    case TargetOrientation(_) => i == 0
    case RelativeVelocity(_, _, _) => i == 2
    case Position(_, _, _) => i == 2
    case TurnLeft(_) => i == 0
    case TurnRight(_) => i == 0
    case Move(_, _) => i == 1
    case _ => false
  }

  /**
   * The command each API call sends, as the code builds it: always a line
   * the protocol accepts, with one argument per argument of the primitive call.
   */
  function Encode(c: Call): (cmd: Cmd)
    ensures Decode(cmd).Some?
    ensures |cmd.args| == |Params(Canonical(c))|
    decreases InlineDepth(c)
  {
    match c
    case TargetOrientation(o) => Cmd("o", [o])
    case AbsoluteVelocity(vx, vy) => Cmd("av", [vx, vy])
    case RelativeVelocity(vx, vy, t) => Cmd("v", [vx, vy, Degrees(t)])
    case Position(x, y, o) => Cmd("p", [x, y, Degrees(o)])
    case Stop => Cmd("s", [])
    case TurnLeft(a) => Cmd("lt", [Degrees(a)])
    case TurnRight(a) => Encode(TurnLeft(-a))
    case Move(d, dir) => Cmd("mv", [d, Degrees(dir)])
    case Forward(d) => Encode(Move(d, 0.0))
    case Back(d) => Encode(Forward(-d))
    case MaxSpeed(v) => Cmd("sms", [v])
    case MaxAccel(v) => Cmd("sma", [v])
    case MaxCorneringError(v) => Cmd("smce", [v])
  }

  /**
   * Every angle argument except setTargetOrientation's is converted from
   * radians to degrees; every other argument passes through unchanged.
   */
  lemma EncodeConvertsAngles(c: Call)
    requires !IsInline(c) && !c.TargetOrientation?
    ensures |Encode(c).args| == |Params(c)|
    ensures forall i :: 0 <= i < |Params(c)| ==>
      Encode(c).args[i] == (if IsAngle(c, i) then Degrees(Params(c)[i]) else Params(c)[i])
  {
  }

  /** setTargetOrientation puts its radians on the wire as they are, though documented as an angle. */
  lemma TargetOrientationUnconverted(o: real)
    ensures IsAngle(TargetOrientation(o), 0)
    ensures Encode(TargetOrientation(o)) == Cmd("o", Params(TargetOrientation(o)))
  {
  }

  /** The header's inline calls send exactly what the call they are written in terms of sends. */
  lemma InlineCalls(a: real, d: real, vx: real, vy: real)
    ensures Encode(TurnRight(a)) == Encode(TurnLeft(-a))
    ensures Encode(Forward(d)) == Encode(Move(d, 0.0))
    ensures Encode(Back(d)) == Encode(Move(-d, 0.0))
    ensures Encode(RelativeVelocityDefault(vx, vy)) == Encode(RelativeVelocity(vx, vy, 0.0))
  {
  }

  // ---------------------------------------------------------------------
  // The wire meaning of a command

  /**
   * The call a command line stands for under the turtle protocol, which
   * carries every angle in degrees. Inline calls decode to the primitive
   * call they send.
   */
  function Decode(cmd: Cmd): (r: Option<Call>)
    ensures r.Some? ==> !IsInline(r.value)
  {
    var a := cmd.args;
    if cmd.verb == "o" && |a| == 1 then Some(TargetOrientation(Radians(a[0])))
    else if cmd.verb == "av" && |a| == 2 then Some(AbsoluteVelocity(a[0], a[1]))
    else if cmd.verb == "v" && |a| == 3 then Some(RelativeVelocity(a[0], a[1], Radians(a[2])))
    else if cmd.verb == "p" && |a| == 3 then Some(Position(a[0], a[1], Radians(a[2])))
    else if cmd.verb == "s" && |a| == 0 then Some(Stop)
    else if cmd.verb == "lt" && |a| == 1 then Some(TurnLeft(Radians(a[0])))
    else if cmd.verb == "mv" && |a| == 2 then Some(Move(a[0], Radians(a[1])))
    else if cmd.verb == "sms" && |a| == 1 then Some(MaxSpeed(a[0]))
    else if cmd.verb == "sma" && |a| == 1 then Some(MaxAccel(a[0]))
    else if cmd.verb == "smce" && |a| == 1 then Some(MaxCorneringError(a[0]))
    else None
  }

  /** Inline calls rewritten to the primitive call they send. */
  function Canonical(c: Call): (r: Call)
    ensures !IsInline(r)
  {
    match c
    case TurnRight(a) => TurnLeft(-a)
    case Forward(d) => Move(d, 0.0)
    case Back(d) => Move(-d, 0.0)
    case _ => c
  }

  /**
   * As written, every call except setTargetOrientation reaches the base
   * meaning what the caller asked; setTargetOrientation(o) reaches it as an
   * orientation of o degrees, that is o * pi / 180 radians.
   */
  lemma {:induction false} EncodeRoundTrip(c: Call)
    ensures !c.TargetOrientation? ==> Decode(Encode(c)) == Some(Canonical(c))
    ensures c.TargetOrientation? ==> Decode(Encode(c)) == Some(TargetOrientation(Radians(c.orientation)))
  {
    match c
    case RelativeVelocity(_, _, t) => RadiansOfDegrees(t);
    case Position(_, _, o) => RadiansOfDegrees(o);
    case TurnLeft(a) => RadiansOfDegrees(a);
    case TurnRight(a) => RadiansOfDegrees(-a);
    case Move(_, dir) => RadiansOfDegrees(dir);
    case Forward(_) => RadiansOfDegrees(0.0);
    case Back(d) =>
      assert Encode(c) == Encode(Move(-d, 0.0));
      RadiansOfDegrees(0.0);
    case _ =>
  }

  /** So a non-zero target orientation is not the orientation the base is told. */
  lemma TargetOrientationMisread(o: real)
    requires o != 0.0
    ensures Decode(Encode(TargetOrientation(o))) != Some(TargetOrientation(o))
  {
    EncodeRoundTrip(TargetOrientation(o));
    DegreesFixesOnlyZero(o);
  }

  /** The encoder with setTargetOrientation converting to degrees like the other angle commands. */
  function EncodeFixed(c: Call): Cmd {
    if c.TargetOrientation? then Cmd("o", [Degrees(c.orientation)]) else Encode(c)
  }

  /** With the correction every call reaches the base meaning what the caller asked. */
  lemma EncodeFixedRoundTrip(c: Call)
    ensures Decode(EncodeFixed(c)) == Some(Canonical(c))
  {
    EncodeRoundTrip(c);
    if c.TargetOrientation? {
      RadiansOfDegrees(c.orientation);
    }
  }

  // ---------------------------------------------------------------------
  // Rendering and the write status

  /** " <arg>" for each argument, each number rendered by `fmt` (the `%lf` conversion). */
  function RenderArgs(args: seq<real>, fmt: real -> string): string {
    if |args| == 0 then "" else " " + fmt(args[0]) + RenderArgs(args[1..], fmt)
  }

  /** The line `sprintf` builds: verb, space-separated arguments, newline. */
  function Render(cmd: Cmd, fmt: real -> string): (line: string)
    ensures |line| > |cmd.verb| && line[..|cmd.verb|] == cmd.verb && line[|line| - 1] == '\n'
    ensures |cmd.args| == 0 ==> line == cmd.verb + "\n"
  {
    cmd.verb + RenderArgs(cmd.args, fmt) + "\n"
  }

  /** Rendering a concatenation of argument lists renders each in turn: arguments keep their order. */
  lemma {:induction false} RenderArgsAppend(a: seq<real>, b: seq<real>, fmt: real -> string)
    ensures RenderArgs(a + b, fmt) == RenderArgs(a, fmt) + RenderArgs(b, fmt)
    decreases |a|
  {
    if |a| == 0 {
      assert a + b == b;
    } else {
      assert (a + b)[0] == a[0] && (a + b)[1..] == a[1..] + b;
      RenderArgsAppend(a[1..], b, fmt);
    }
  }

  /** Each argument contributes a space and its `%lf` text, in order, between the verb and the newline. */
  lemma RenderUpToThree(verb: string, x: real, y: real, z: real, fmt: real -> string)
    ensures Render(Cmd(verb, [x]), fmt) == verb + " " + fmt(x) + "\n"
    ensures Render(Cmd(verb, [x, y]), fmt) == verb + " " + fmt(x) + " " + fmt(y) + "\n"
    ensures Render(Cmd(verb, [x, y, z]), fmt) == verb + " " + fmt(x) + " " + fmt(y) + " " + fmt(z) + "\n"
  {
    assert [x, y] == [x] + [y] && [x, y, z] == [x] + [y] + [z];
    RenderArgsAppend([x], [y], fmt);
    RenderArgsAppend([x] + [y], [z], fmt);
    assert RenderArgs([x], fmt) == " " + fmt(x) + RenderArgs([], fmt);
    assert RenderArgs([y], fmt) == " " + fmt(y) + RenderArgs([], fmt);
    assert RenderArgs([z], fmt) == " " + fmt(z) + RenderArgs([], fmt);
  }

  /** The lines of the one-argument write commands: the code's `sprintf` formats, with `%lf` as `fmt`. */
  lemma SprintfOneArg(a: real, fmt: real -> string)
    ensures Render(Encode(TargetOrientation(a)), fmt) == "o" + " " + fmt(a) + "\n"
    ensures Render(Encode(TurnLeft(a)), fmt) == "lt" + " " + fmt(Degrees(a)) + "\n"
    ensures Render(Encode(MaxSpeed(a)), fmt) == "sms" + " " + fmt(a) + "\n"
    ensures Render(Encode(MaxAccel(a)), fmt) == "sma" + " " + fmt(a) + "\n"
    ensures Render(Encode(MaxCorneringError(a)), fmt) == "smce" + " " + fmt(a) + "\n"
  {
    RenderUpToThree("o", a, a, a, fmt);
    RenderUpToThree("lt", Degrees(a), a, a, fmt);
    RenderUpToThree("sms", a, a, a, fmt);
    RenderUpToThree("sma", a, a, a, fmt);
    RenderUpToThree("smce", a, a, a, fmt);
  }

  /** The lines of `setAbsoluteVelocity` and `move`. */
  lemma SprintfTwoArgs(a: real, b: real, fmt: real -> string)
    ensures Render(Encode(AbsoluteVelocity(a, b)), fmt) == "av" + " " + fmt(a) + " " + fmt(b) + "\n"
    ensures Render(Encode(Move(a, b)), fmt) == "mv" + " " + fmt(a) + " " + fmt(Degrees(b)) + "\n"
  {
    RenderUpToThree("av", a, b, b, fmt);
    RenderUpToThree("mv", a, Degrees(b), b, fmt);
  }

  /** The lines of `setRelativeVelocity` and `setPosition`: the third argument goes out in degrees. */
  lemma SprintfThreeArgs(a: real, b: real, c: real, fmt: real -> string)
    ensures Render(Encode(RelativeVelocity(a, b, c)), fmt) == "v" + " " + fmt(a) + " " + fmt(b) + " " + fmt(Degrees(c)) + "\n"
    ensures Render(Encode(Position(a, b, c)), fmt) == "p" + " " + fmt(a) + " " + fmt(b) + " " + fmt(Degrees(c)) + "\n"
  {
    RenderUpToThree("v", a, b, Degrees(c), fmt);
    RenderUpToThree("p", a, b, Degrees(c), fmt);
  }

  /**
   * A write command's return value: 0 if `write` reported the whole rendered
   * line (`written` is what it returned), -1 otherwise. There is no retry of
   * a short write.
   */
  function WriteStatus(cmd: Cmd, fmt: real -> string, written: int): (rc: int)
    ensures rc == 0 || rc == -1
    ensures rc == 0 <==> written == |Render(cmd, fmt)|
  {
    if written == |Render(cmd, fmt)| then 0 else -1
  }

  /** Calling a write operation: encode, render, write once. */
  function Send(c: Call, fmt: real -> string, written: int): (rc: int)
    ensures rc == 0 || rc == -1
    ensures rc == 0 <==> written == |Render(Encode(c), fmt)|
  {
    WriteStatus(Encode(c), fmt, written)
  }

  /** `stop` writes the two bytes "s\n", whatever the number format. */
  lemma StopLine(fmt: real -> string, written: int)
    ensures Render(Encode(Stop), fmt) == "s\n"
    ensures Send(Stop, fmt, written) == 0 <==> written == 2
  {
  }

  /** An inline call succeeds exactly when the call it is written in terms of does. */
  lemma InlineStatus(a: real, d: real, fmt: real -> string, written: int)
    ensures Send(TurnRight(a), fmt, written) == Send(TurnLeft(-a), fmt, written)
    ensures Send(Forward(d), fmt, written) == Send(Move(d, 0.0), fmt, written)
    ensures Send(Back(d), fmt, written) == Send(Move(-d, 0.0), fmt, written)
  {
    assert Encode(Back(d)) == Encode(Forward(-d)) == Encode(Move(-d, 0.0));
  }
}
