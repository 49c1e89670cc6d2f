/** The heartbeat client's view of one server: an active flag and the time its next ping
    is due. Times are readings of a nanosecond ticker, passed in as `now`. */
module Pull2ServerProxy {
  import opened Wrappers
  import opened Durations

  /** The argument checks of the constructor, in order; None when both are present. */
  function ProxyArgumentsError(pingFrequency: Option<Duration>, hasTicker: bool): (r: Option<string>)
    ensures r.None? <==> pingFrequency.Some? && hasTicker
    ensures pingFrequency.None? ==> r == Some("Ping frequency must NOT be null.")
    ensures pingFrequency.Some? && !hasTicker ==> r == Some("Ticker must NOT be null.")
  {
    if pingFrequency.None? then Some("Ping frequency must NOT be null.")
    else if !hasTicker then Some("Ticker must NOT be null.")
    else None
  }

  class ServerProxy {
    const endpoint: string
    const pingFrequency: Duration
    /** The ping frequency in nanoseconds, converted once at construction. */
    const frequency: int
    var isActive: bool
    var pingAt: int
    /** How many times the active flag flipped: each flip is one log line. */
    ghost var transitions: nat

    /** A new proxy is inactive and already due for a ping. */
    constructor (endpoint: string, pingFrequency: Duration, now: int)
      ensures this.endpoint == endpoint && this.pingFrequency == pingFrequency
      ensures frequency == ToNanos(pingFrequency)
      ensures !isActive && pingAt == now - 1 && transitions == 0
      ensures ShouldBePinged(now)
    {
      this.endpoint := endpoint;
      this.pingFrequency := pingFrequency;
      frequency := ToNanos(pingFrequency);
      isActive := false;
      pingAt := now - 1;
      transitions := 0;
    }

    predicate ShouldBePinged(now: int)
      reads this`pingAt
    {
      pingAt < now
    }

    /** Silent for a whole period past its ping time; with a non-negative frequency such a
        server is also due for a ping. */
    function ShouldBeDeactivated(now: int): (b: bool)
      reads this`pingAt
      ensures b <==> pingAt + frequency < now
      ensures b && frequency >= 0 ==> ShouldBePinged(now)
    {
      pingAt < now - frequency
    }

    /** activate: active afterwards whatever it was; only a change of state is logged. */
    method Activate()
      modifies this`isActive, this`transitions
      ensures isActive
      ensures transitions == old(transitions) + if old(isActive) then 0 else 1
    {
      if !isActive {
        isActive := true;
        transitions := transitions + 1;
      } else {
        isActive := true;
      }
    }

    /** deactivate: inactive afterwards whatever it was; only a change of state is logged. */
    method Deactivate()
      modifies this`isActive, this`transitions
      ensures !isActive
      ensures transitions == old(transitions) + if old(isActive) then 1 else 0
    {
      if isActive {
        isActive := false;
        transitions := transitions + 1;
      } else {
        isActive := false;
      }
    }

    /** refresh: the next ping is one period from now; the active flag is untouched. */
    method Refresh(now: int)
      modifies this`pingAt
      ensures pingAt == now + frequency
      ensures frequency > 0 ==> !ShouldBePinged(now)
    {
      pingAt := now + frequency;
    }
  }
}
