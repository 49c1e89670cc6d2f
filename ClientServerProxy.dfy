/** The client's view of one remote server: whether it answered lately, when to
    ping it next and when to give up on it. The clock is the `now` argument. */
module ClientServerProxy {
  import opened Wrappers
  import opened Commands
  import opened WireProtocol

  class ServerProxy {
    const endpoint: string
    /** Identity of the local host, written as the source frame of the pings. */
    const localId: string
    const pingInterval: int
    const ttl: int

    var isAlive: bool
    /** How many times the liveness flag flipped: each flip is one log line. */
    ghost var transitions: nat
    /** Send the next ping at this time. */
    var pingAt: int
    /** The server is considered gone after this time. */
    var timeoutAt: int

    /** A new proxy is not yet alive; its schedule starts at `now` (the constructor's refresh). */
    constructor (endpoint: string, pingInterval: int, ttl: int, localId: string, now: int)
      ensures this.endpoint == endpoint && this.pingInterval == pingInterval && this.ttl == ttl
      ensures this.localId == localId
      ensures !isAlive && pingAt == now + pingInterval && timeoutAt == now + ttl
      ensures transitions == 0
    {
      this.endpoint := endpoint;
      this.pingInterval := pingInterval;
      this.ttl := ttl;
      this.localId := localId;
      isAlive := false;
      transitions := 0;
      pingAt := now + pingInterval;
      timeoutAt := now + ttl;
    }

    /** Restart both schedules from `now`. */
    method Refresh(now: int)
      modifies this`pingAt, this`timeoutAt
      ensures pingAt == now + pingInterval && timeoutAt == now + ttl
      ensures ttl > 0 ==> timeoutAt > now
    {
      pingAt := now + pingInterval;
      timeoutAt := now + ttl;
    }

    /** enable: the server is alive afterwards; only a change of state is logged. */
    method Enable()
      modifies this`isAlive, this`transitions
      ensures isAlive
      ensures transitions == old(transitions) + if old(isAlive) then 0 else 1
    {
      if !isAlive {
        isAlive := true;
        transitions := transitions + 1;
      }
    }

    /** disable: the server is not alive afterwards; only a change of state is logged. */
    method Disable()
      modifies this`isAlive, this`transitions
      ensures !isAlive
      ensures transitions == old(transitions) + if old(isAlive) then 1 else 0
    {
      if isAlive {
        isAlive := false;
        transitions := transitions + 1;
      }
    }

    /** The ping this proxy sends: addressed to the server, from the local host. */
    function PingMessage(): (m: Message)
      requires endpoint != ""
      ensures m == [endpoint, "PING", localId]
      ensures Parse(FrameAt(m, 1)) == PING
    {
      ParseName(PING);
      Ping(Protocol(localId), Some(endpoint)).value
    }

    /** pingIfNoRecentActivity: once the ping time has come, send one ping and
        schedule the next; a second call at the same time sends nothing. */
    method PingIfNoRecentActivity(now: int) returns (sent: Option<Message>)
      requires endpoint != ""
      modifies this`pingAt
      ensures old(pingAt) <= now ==> sent == Some([endpoint, "PING", localId]) && pingAt == now + pingInterval
      ensures now < old(pingAt) ==> sent == None && pingAt == old(pingAt)
      ensures pingInterval > 0 ==> pingAt > now
    {
      if pingAt <= now {
        sent := Some(PingMessage());
        pingAt := now + pingInterval;
      } else {
        sent := None;
      }
    }

    /** send: a copy of the request with the server's endpoint pushed in front,
        which the router socket uses as the address. */
    function Addressed(request: Message): (m: Message)
      ensures |m| == |request| + 1 && m[0] == endpoint && m[1..] == request
    {
      [endpoint] + request
    }
  }
}
