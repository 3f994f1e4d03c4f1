/**
 * `Nav2Remote::readLine`: reads the response stream one byte at a time,
 * drops carriage returns, ends a line at a newline, and silently discards
 * every line whose first stored byte is `|` or `+` (asynchronous chatter from
 * the base), continuing with the next line in the same call.
 *
 * The stream is a finite byte sequence; `read` returning 0 or an error is
 * the sequence running out.
 */
module LineReader {

  newtype byte = b: int | 0 <= b < 256

  const CR: byte := 13
  const LF: byte := 10
  /** '|' */
  const Bar: byte := 124
  /** '+' */
  const Plus: byte := 43
  /** The line buffer grows by this many bytes at a time. */
  const Growth: nat := 32

  /** A line the reader throws away: its first byte is `|` or `+`. */
  predicate IsNoise(line: seq<byte>) {
    |line| > 0 && (line[0] == Bar || line[0] == Plus)
  }

  /** What one readLine call yields: the stream ended first (-1), or a line and the unread rest. */
  datatype LineResult = EndOfStream | Line(line: seq<byte>, rest: seq<byte>)

  /** `rest` is a suffix of `input` that is preceded by a newline. */
  ghost predicate ConsumedThroughNewline(input: seq<byte>, rest: seq<byte>) {
    |rest| < |input| && rest == input[|input| - |rest|..] && input[|input| - |rest| - 1] == LF
  }

  /**
   * The loop of readLine. `acc` holds the bytes stored so far at
   * `line[0..pos)`: never a carriage return, never a newline.
   */
  function Scan(input: seq<byte>, acc: seq<byte>): (r: LineResult)
    requires CR !in acc && LF !in acc
    ensures r.Line? ==> CR !in r.line && LF !in r.line && !IsNoise(r.line)
    ensures r.Line? ==> ConsumedThroughNewline(input, r.rest)
    decreases |input|
  {
    if |input| == 0 then
      EndOfStream
    else if input[0] == CR then
      Scan(input[1..], acc)
    else if input[0] == LF then
      if IsNoise(acc) then Scan(input[1..], []) else Line(acc, input[1..])
    else
      Scan(input[1..], acc + [input[0]])
  }

  /** One readLine call on a fresh line (pos starts at 0). */
  function ReadLine(input: seq<byte>): LineResult {
    Scan(input, [])
  }

  /** The value readLine returns: -1 when the stream ends first, otherwise the line's length. */
  function ReturnCode(r: LineResult): int {
    if r.EndOfStream? then -1 else |r.line|
  }

  // ---------------------------------------------------------------------
  // A reference definition by splitting at newlines

  /** A raw line (before its newline) and the stream after the newline. */
  datatype Split = NoNewline | SplitAt(raw: seq<byte>, after: seq<byte>)

  /** `input` cut at its first newline. */
  function SplitFirst(input: seq<byte>): (r: Split)
    ensures r.SplitAt? ==> input == r.raw + [LF] + r.after && LF !in r.raw
    ensures r.NoNewline? <==> LF !in input
  {
    if |input| == 0 then NoNewline
    else if input[0] == LF then SplitAt([], input[1..])
    else
      match SplitFirst(input[1..])
      case NoNewline => NoNewline
      case SplitAt(raw, after) => SplitAt([input[0]] + raw, after)
  }

  /** `s` with every carriage return removed. */
  function StripCR(s: seq<byte>): (r: seq<byte>)
    ensures CR !in r
    ensures LF !in s ==> LF !in r
    ensures |r| <= |s|
  {
    if |s| == 0 then []
    else (if s[0] == CR then [] else [s[0]]) + StripCR(s[1..])
  }

  /**
   * The first newline-terminated line of `input` that is not noise, with its
   * carriage returns removed, together with everything after its newline.
   */
  function FirstRealLine(input: seq<byte>): LineResult
    decreases |input|
  {
    match SplitFirst(input)
    case NoNewline => EndOfStream
    case SplitAt(raw, after) =>
      var line := StripCR(raw);
      if IsNoise(line) then FirstRealLine(after) else Line(line, after)
  }

  /** What scanning from a partial line `acc` yields, stated by splitting at the first newline. */
  function Completed(input: seq<byte>, acc: seq<byte>): LineResult {
    match SplitFirst(input)
    case NoNewline => EndOfStream
    case SplitAt(raw, after) =>
      var line := acc + StripCR(raw);
      if IsNoise(line) then FirstRealLine(after) else Line(line, after)
  }

  lemma FirstRealLineCompletesEmpty(input: seq<byte>)
    ensures Completed(input, []) == FirstRealLine(input)
  {
    if SplitFirst(input).SplitAt? {
      var raw := SplitFirst(input).raw;
      assert [] + StripCR(raw) == StripCR(raw);
    }
  }

  /** Consuming a byte that is not a newline moves it (unless it is a carriage return) from the stream to the partial line. */
  lemma ShiftPastByte(input: seq<byte>, acc: seq<byte>)
    requires |input| > 0 && input[0] != LF
    ensures Completed(input, acc) ==
      Completed(input[1..], acc + (if input[0] == CR then [] else [input[0]]))
  {
    var head: seq<byte> := if input[0] == CR then [] else [input[0]];
    match SplitFirst(input[1..])
    case NoNewline =>
    case SplitAt(raw, after) =>
      assert SplitFirst(input) == SplitAt([input[0]] + raw, after);
      StripCRCons(input[0], raw);
      AppendAssoc(acc, head, StripCR(raw));
  }

  lemma AppendAssoc(a: seq<byte>, b: seq<byte>, c: seq<byte>)
    ensures a + (b + c) == (a + b) + c
  {
  }

  lemma StripCRCons(x: byte, s: seq<byte>)
    ensures StripCR([x] + s) == (if x == CR then [] else [x]) + StripCR(s)
  {
    assert ([x] + s)[1..] == s;
  }

  /** At a newline the partial line `acc` is complete. */
  lemma AtNewline(input: seq<byte>, acc: seq<byte>)
    requires |input| > 0 && input[0] == LF
    ensures Completed(input, acc) ==
      if IsNoise(acc) then FirstRealLine(input[1..]) else Line(acc, input[1..])
  {
    assert acc + StripCR([]) == acc;
  }

  /** Scanning from a partial line `acc` completes the first raw line after it. */
  lemma {:induction false} ScanCompletesLine(input: seq<byte>, acc: seq<byte>)
    requires CR !in acc && LF !in acc
    ensures Scan(input, acc) == Completed(input, acc)
    decreases |input|
  {
    if |input| == 0 {
    } else if input[0] == LF {
      AtNewline(input, acc);
      if IsNoise(acc) {
        ScanCompletesLine(input[1..], []);
        FirstRealLineCompletesEmpty(input[1..]);
      }
    } else {
      ShiftPastByte(input, acc);
      var acc' := acc + (if input[0] == CR then [] else [input[0]]);
      assert input[0] == CR ==> acc' == acc;
      ScanCompletesLine(input[1..], acc');
    }
  }

  /** The byte-at-a-time reader and the split-at-newlines definition agree on every stream. */
  lemma ReadLineIsFirstRealLine(input: seq<byte>)
    ensures ReadLine(input) == FirstRealLine(input)
  {
    ScanCompletesLine(input, []);
    FirstRealLineCompletesEmpty(input);
  }

  /** A stream holding no newline always ends the call with -1. */
  lemma NoNewlineMeansEnd(input: seq<byte>)
    requires LF !in input
    ensures ReadLine(input) == EndOfStream && ReturnCode(ReadLine(input)) == -1
  {
    ScanCompletesLine(input, []);
  }

  /** The first newline of `raw + [LF] + input` is the one after `raw` when `raw` has none. */
  lemma {:induction false} SplitAtNewline(raw: seq<byte>, input: seq<byte>)
    requires LF !in raw
    ensures SplitFirst(raw + [LF] + input) == SplitAt(raw, input)
    decreases |raw|
  {
    var s := raw + [LF] + input;
    if |raw| == 0 {
      assert s == [LF] + input;
    } else {
      assert s[0] == raw[0] && s[1..] == raw[1..] + [LF] + input;
      SplitAtNewline(raw[1..], input);
      assert [raw[0]] + raw[1..] == raw;
    }
  }

  /** Noise lines in front of a real line are skipped within the same call. */
  lemma SkipsNoiseLine(noise: seq<byte>, input: seq<byte>)
    requires LF !in noise && IsNoise(StripCR(noise))
    ensures ReadLine(noise + [LF] + input) == ReadLine(input)
  {
    ReadLineIsFirstRealLine(noise + [LF] + input);
    SplitAtNewline(noise, input);
    ReadLineIsFirstRealLine(input);
  }

  /** A line that is not noise, carriage returns and all, is returned without them and ends the call. */
  lemma ReturnsFirstRealLine(raw: seq<byte>, input: seq<byte>)
    requires LF !in raw && !IsNoise(StripCR(raw))
    ensures ReadLine(raw + [LF] + input) == Line(StripCR(raw), input)
    ensures ReturnCode(ReadLine(raw + [LF] + input)) == |StripCR(raw)|
  {
    ReadLineIsFirstRealLine(raw + [LF] + input);
    SplitAtNewline(raw, input);
  }

  // ---------------------------------------------------------------------
  // The same loop over a growable buffer

  /** One turn of the loop: what storing the byte at `input[i]` does to the scan. */
  lemma ScanStep(input: seq<byte>, i: nat, acc: seq<byte>)
    requires i < |input| && CR !in acc && LF !in acc
    ensures input[i] == CR ==> Scan(input[i..], acc) == Scan(input[i + 1..], acc)
    ensures input[i] == LF && IsNoise(acc) ==> Scan(input[i..], acc) == Scan(input[i + 1..], [])
    ensures input[i] == LF && !IsNoise(acc) ==> Scan(input[i..], acc) == Line(acc, input[i + 1..])
    ensures input[i] != CR && input[i] != LF ==> Scan(input[i..], acc) == Scan(input[i + 1..], acc + [input[i]])
  {
    assert input[i..][0] == input[i] && input[i..][1..] == input[i + 1..];
  }

  /** `realloc(line, lineLen + 32)`: a larger buffer that keeps the first `pos` bytes. */
  method Grow(buf: array<byte>, pos: nat) returns (bigger: array<byte>)
    requires pos <= buf.Length
    ensures fresh(bigger) && bigger.Length == buf.Length + Growth
    ensures bigger[..pos] == buf[..pos]
  {
    bigger := new byte[buf.Length + Growth];
    forall k | 0 <= k < pos {
      bigger[k] := buf[k];
    }
  }

  /**
   * One turn of readLine's loop after the capacity check: store byte `x` at
   * `line[pos]`; a carriage return is then overwritten by the next byte, a
   * newline is replaced by the terminating 0 and ends the line unless the
   * line is noise, in which case the line restarts at position 0.
   */
  method Place(buf: array<byte>, pos: nat, x: byte, ghost acc: seq<byte>)
    returns (pos': nat, ended: bool, ghost acc': seq<byte>)
    requires pos + 1 < buf.Length && buf[..pos] == acc
    modifies buf
    ensures pos' <= pos + 1 && buf[..pos'] == acc'
    ensures x == CR ==> !ended && pos' == pos && acc' == acc
    ensures x == LF && IsNoise(acc) ==> !ended && pos' == 0 && acc' == []
    ensures x == LF && !IsNoise(acc) ==> ended && pos' == pos && acc' == acc
    ensures x != CR && x != LF ==> !ended && pos' == pos + 1 && acc' == acc + [x]
  {
    buf[pos] := x;
    assert buf[..pos] == acc;
    if x == CR {
      return pos, false, acc;
    }
    if x == LF {
      buf[pos] := 0;
      assert buf[..pos] == acc;
      if buf[0] == Bar || buf[0] == Plus {
        assert pos > 0 && acc[0] == buf[0];
        return 0, false, [];
      }
      assert pos > 0 ==> acc[0] == buf[0];
      return pos, true, acc;
    }
    assert buf[..pos + 1] == acc + [x];
    return pos + 1, false, acc + [x];
  }

  /**
   * readLine over a byte buffer whose capacity `lineLen` is kept between
   * calls (the object's `line`/`lineLen` members). Before each byte is stored
   * at `line[pos]` the capacity is raised by 32 if it is not above `pos + 1`.
   * Returns the C return value, the line, the unread rest, the new capacity
   * and how many times the buffer was reallocated.
   */
  method ReadLineBuffered(input: seq<byte>, lineLen: nat)
    returns (rc: int, line: seq<byte>, rest: seq<byte>, newLen: nat, reallocs: nat)
    ensures rc == ReturnCode(ReadLine(input))
    ensures rc >= 0 ==> ReadLine(input) == Line(line, rest)
    ensures newLen == lineLen + Growth * reallocs
    ensures rc >= 0 ==> newLen > rc + 1
    ensures reallocs == 0 || newLen <= |input| + Growth + 1
  {
    var buf := new byte[lineLen];
    var len := lineLen;
    var pos := 0;
    var i := 0;
    reallocs := 0;
    ghost var acc: seq<byte> := [];
    while true
      invariant 0 <= pos <= i <= |input|
      invariant fresh(buf) && buf.Length == len && pos <= len
      invariant len == lineLen + Growth * reallocs
      invariant reallocs == 0 || len <= i + Growth
      invariant buf[..pos] == acc
      invariant CR !in acc && LF !in acc
      invariant Scan(input[i..], acc) == ReadLine(input)
      decreases |input| - i
    {
      if len <= pos + 1 {
        buf := Grow(buf, pos);
        len, reallocs := len + Growth, reallocs + 1;
      }
      if i == |input| {
        return -1, [], [], len, reallocs;
      }
      ScanStep(input, i, acc);
      var ended;
      pos, ended, acc := Place(buf, pos, input[i], acc);
      i := i + 1;
      if ended {
        return pos, buf[..pos], input[i..], len, reallocs;
      }
    }
  }
}
