/**
 * The `Nav2Remote` constructor: validate the port, resolve the host, then
 * try each resolved address in order until one connects. Every failure is
 * an exception in the code and an `Err` value here. The socket calls are
 * abstract outcomes: the resolver's answer and, per candidate address,
 * whether `socket` or `connect` failed.
 */
module Connection {

  /** The port the header gives as the default. */
  const DefaultPort: int := 5010

  /** What happened at one resolved address. */
  datatype Candidate = SocketFails | ConnectFails | Connects

  /** The resolver's answer: `getaddrinfo` failed, or the candidate list. */
  datatype Resolution = Unresolvable | Resolved(candidates: seq<Candidate>)

  /** The constructor's exceptions: `invalid_argument` for the port, `runtime_error` otherwise. */
  datatype OpenError = InvalidPort | NoAddressInfo | CannotConnect

  /**
   * A constructed remote: the index of the address it is connected to and
   * its line buffer capacity, which starts at 0 (`line(NULL), lineLen(0)`).
   */
  datatype Opened = Opened(address: nat, lineLen: nat) | Failed(error: OpenError)

  predicate ValidPort(port: int) {
    1 <= port <= 65535
  }

  /** The index of the first candidate that connects, if any. */
  function FirstConnecting(candidates: seq<Candidate>): (r: Opened)
    ensures r.Opened? <==> Connects in candidates
    ensures r.Opened? ==>
      && r.address < |candidates| && candidates[r.address] == Connects
      && Connects !in candidates[..r.address]
      && r.lineLen == 0
    ensures r.Failed? ==> r.error == CannotConnect
  {
    if |candidates| == 0 then
      Failed(CannotConnect)
    else if candidates[0] == Connects then
      Opened(0, 0)
    else
      match FirstConnecting(candidates[1..])
      case Opened(i, _) =>
        assert candidates[..i + 1] == [candidates[0]] + candidates[1..][..i];
        Opened(i + 1, 0)
      case Failed(e) =>
        assert candidates == [candidates[0]] + candidates[1..];
        Failed(e)
  }

  /** `Nav2Remote(host, port)`. */
  function Open(port: int, resolution: Resolution): (r: Opened)
    ensures r.Failed? && r.error == InvalidPort <==> !ValidPort(port)
    ensures r.Failed? && r.error == NoAddressInfo <==> ValidPort(port) && resolution.Unresolvable?
    ensures r.Opened? <==> ValidPort(port) && resolution.Resolved? && Connects in resolution.candidates
    ensures r.Opened? ==> r == FirstConnecting(resolution.candidates)
  {
    if !ValidPort(port) then
      Failed(InvalidPort)
    else if resolution.Unresolvable? then
      Failed(NoAddressInfo)
    else
      FirstConnecting(resolution.candidates)
  }

  /** The default port passes the constructor's port check. */
  lemma DefaultPortIsValid()
    ensures ValidPort(DefaultPort)
  {
  }
}
