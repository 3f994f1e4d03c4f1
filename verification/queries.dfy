/**
 * The query operations of `Nav2Remote`: each writes a fixed request line,
 * then does one filtered readLine and parses the reply with `sscanf`.
 *
 * `sscanf` is left abstract: a scanner parameter reports the leading fields
 * it converted, in order, stopping at the first one that does not match.
 * Output variables the scan does not reach keep their previous value; a local
 * the code never initialised then holds an indeterminate value.
 */
module Queries {
  import opened Angles
  import opened Pose
  import opened LineReader
  import opened Commands

  /** The request lines, by verb. */
  datatype Query = QueryPose | QueryMaxSpeed | QueryMaxAccel | QueryMaxCorneringError

  function Verb(q: Query): string {
    match q
    case QueryPose => "q"
    case QueryMaxSpeed => "qms"
    case QueryMaxAccel => "qma"
    case QueryMaxCorneringError => "qmce"
  }

  /** The literal request the code writes, of the length it passes to `write`. */
  function Request(q: Query): (line: string)
    ensures |line| == (match q
      case QueryPose => 2
      case QueryMaxSpeed => 4
      case QueryMaxAccel => 4
      case QueryMaxCorneringError => 5)
  {
    Verb(q) + "\n"
  }

  /** A request is the argument-free command of the same verb, however numbers are formatted. */
  lemma RequestIsCommand(q: Query, fmt: real -> string)
    ensures Request(q) == Render(Cmd(Verb(q), []), fmt)
  {
  }

  /** What `sscanf(line, "%lf %lf %lf %d", ...)` converted: up to three doubles, then the int. */
  datatype Scanned = Scanned(reals: seq<real>, depth: Option<int>)

  /** A C return value that may be indeterminate (read from an uninitialised local). */
  datatype Value<T> = Known(value: T) | Indeterminate

  /** The result of estimatePosition: return code, the three output variables, the unread stream. */
  datatype Estimate = Estimate(rc: int, pose: Pose2D, rest: seq<byte>)

  /**
   * `estimatePosition(x, y, orientation)`: `prior` holds the output
   * variables on entry, `written` what `write` returned for "q\n". On
   * success the orientation is scaled from degrees to radians whether or not
   * `sscanf` reached it.
   */
  function EstimatePosition(input: seq<byte>, written: int, prior: Pose2D, scan: seq<byte> -> Scanned): (r: Estimate)
    ensures r.rc == 0 || r.rc == -1
    ensures r.rc == -1 <==> written != |Request(QueryPose)| || ReadLine(input).EndOfStream?
    ensures r.rc == -1 ==> r.pose == prior
    ensures written != |Request(QueryPose)| ==> r.rest == input
    ensures r.rc == 0 ==> r.rest == ReadLine(input).rest
    ensures r.rc == 0 ==>
      var f := scan(ReadLine(input).line).reals;
      && r.pose.x == (if |f| > 0 then f[0] else prior.x)
      && r.pose.y == (if |f| > 1 then f[1] else prior.y)
      && Degrees(r.pose.th) == (if |f| > 2 then f[2] else prior.th)
  {
    if written != 2 then
      Estimate(-1, prior, input)
    else
      match ReadLine(input)
      case EndOfStream => Estimate(-1, prior, [])
      case Line(line, rest) =>
        var f := scan(line).reals;
        var x := if |f| > 0 then f[0] else prior.x;
        var y := if |f| > 1 then f[1] else prior.y;
        var th := if |f| > 2 then f[2] else prior.th;
        RadiansOfDegrees(th);
        Estimate(0, Pose2D(x, y, Radians(th)), rest)
  }

  /** The result of getQueueSize: the returned count and the unread stream. */
  datatype Depth = Depth(rc: Value<int>, rest: seq<byte>)

  /**
   * `getQueueSize()`: -1 on a short write or a failed read; otherwise the
   * fourth field, which is indeterminate when `sscanf` did not reach it.
   */
  function GetQueueSize(input: seq<byte>, written: int, scan: seq<byte> -> Scanned): (r: Depth)
    ensures written != |Request(QueryPose)| ==> r == Depth(Known(-1), input)
    ensures written == |Request(QueryPose)| && ReadLine(input).EndOfStream? ==> r.rc == Known(-1)
    ensures written == |Request(QueryPose)| && ReadLine(input).Line? ==>
      var s := scan(ReadLine(input).line);
      && r.rest == ReadLine(input).rest
      && r.rc == (if |s.reals| >= 3 && s.depth.Some? then Known(s.depth.value) else Indeterminate)
  {
    if written != 2 then
      Depth(Known(-1), input)
    else
      match ReadLine(input)
      case EndOfStream => Depth(Known(-1), [])
      case Line(line, rest) =>
        var s := scan(line);
        Depth(if |s.reals| >= 3 && s.depth.Some? then Known(s.depth.value) else Indeterminate, rest)
  }

  /**
   * estimatePosition and getQueueSize send the same "q" request and read the
   * same reply line: they fail together and leave the stream in the same
   * place. A base reporting a depth of -1 is indistinguishable from an IO error.
   */
  lemma PoseAndDepthShareQuery(input: seq<byte>, written: int, prior: Pose2D, scan: seq<byte> -> Scanned)
    ensures EstimatePosition(input, written, prior, scan).rest == GetQueueSize(input, written, scan).rest
    ensures EstimatePosition(input, written, prior, scan).rc == -1 ==> GetQueueSize(input, written, scan).rc == Known(-1)
    ensures GetQueueSize(input, written, scan).rc == Known(-1) ==>
      EstimatePosition(input, written, prior, scan).rc == -1 || scan(ReadLine(input).line).depth == Some(-1)
  {
  }

  /** The settings a single-value query reads back. */
  predicate SettingQuery(q: Query) {
    !q.QueryPose?
  }

  /** The result of a `get*` query: the returned value and the unread stream. */
  datatype Setting = Setting(rc: Value<real>, rest: seq<byte>)

  /**
   * `getMaxSpeed`, `getMaxAccel`, `getMaxCorneringError`: -1 on a short
   * write or failed read, otherwise the one `%lf` field, indeterminate when
   * it did not match. `scan1` is the single-field `sscanf`. A successful read
   * consumes the reply line.
   */
  function GetSetting(q: Query, input: seq<byte>, written: int, scan1: seq<byte> -> Option<real>): (r: Setting)
    requires SettingQuery(q)
    ensures written != |Request(q)| ==> r == Setting(Known(-1.0), input)
    ensures written == |Request(q)| && ReadLine(input).EndOfStream? ==> r.rc == Known(-1.0)
    ensures written == |Request(q)| && ReadLine(input).Line? ==>
      && r.rest == ReadLine(input).rest
      && (r.rc.Known? <==> scan1(ReadLine(input).line).Some?)
      && (r.rc.Known? ==> r.rc.value == scan1(ReadLine(input).line).value)
  {
    if written != |Request(q)| then
      Setting(Known(-1.0), input)
    else
      match ReadLine(input)
      case EndOfStream => Setting(Known(-1.0), [])
      case Line(line, rest) =>
        match scan1(line)
        case Some(v) => Setting(Known(v), rest)
        case None => Setting(Indeterminate, rest)
  }

  /**
   * A `get*` query and `getQueueSize` read the reply the same way: on a
   * complete request they fail together and leave the stream in the same place.
   */
  lemma SettingAndDepthReadAlike(q: Query, input: seq<byte>, scan1: seq<byte> -> Option<real>, scan: seq<byte> -> Scanned)
    requires SettingQuery(q)
    ensures GetSetting(q, input, |Request(q)|, scan1).rest == GetQueueSize(input, |Request(QueryPose)|, scan).rest
    ensures GetSetting(q, input, |Request(q)|, scan1).rc == Known(-1.0) <==>
      ReadLine(input).EndOfStream? || (scan1(ReadLine(input).line) == Some(-1.0))
  {
  }

  /** How `wait` ended: with the first poll below 1, or still polling when the modelled polls ran out. */
  datatype WaitOutcome = Returned(rc: int, polls: nat, sleeps: nat) | StillPolling(sleeps: nat)

  /**
   * `wait()` over the values successive getQueueSize calls return: it
   * returns the first one below 1 and sleeps 100 ms after every earlier poll.
   */
  function Wait(polls: seq<int>): (r: WaitOutcome)
    ensures r.Returned? ==>
      && 1 <= r.polls <= |polls| && r.rc == polls[r.polls - 1] && r.rc < 1
      && r.sleeps == r.polls - 1
      && forall j :: 0 <= j < r.polls - 1 ==> polls[j] >= 1
    ensures r.StillPolling? ==> r.sleeps == |polls| && forall j :: 0 <= j < |polls| ==> polls[j] >= 1
  {
    if |polls| == 0 then
      StillPolling(0)
    else if polls[0] < 1 then
      Returned(polls[0], 1, 0)
    else
      match Wait(polls[1..])
      case Returned(rc, n, s) => Returned(rc, n + 1, s + 1)
      case StillPolling(s) => StillPolling(s + 1)
  }

  /** Queue depths 3, 2, 1, 0: success after four polls with three sleeps between them. */
  lemma WaitDrainsQueue()
    ensures Wait([3, 2, 1, 0]) == Returned(0, 4, 3)
  {
    assert [3, 2, 1, 0][1..] == [2, 1, 0];
    assert [2, 1, 0][1..] == [1, 0];
    assert [1, 0][1..] == [0];
  }

  /**
   * When every poll is an IO error (-1) or a real depth (0 or more), `wait`
   * returns one of the documented codes: 0 on an empty queue, -1 on IO error.
   */
  lemma WaitReturnsDocumentedCodes(polls: seq<int>)
    requires forall j :: 0 <= j < |polls| ==> polls[j] >= -1
    ensures Wait(polls).Returned? ==> Wait(polls).rc in {0, -1}
  {
  }
}
