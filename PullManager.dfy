/** The state machine behind the "pull" client's background thread: it owns the
    registry of servers, the single request in flight, the deadlines of both, and
    the messages it writes to the application pipe and to the router socket. */
module PullManager {
  import opened Wrappers
  import opened Decimal
  import opened Commands
  import opened WireProtocol
  import opened TimeoutQueue
  import opened ClientServerProxy

  /** If not a single server replies within this time, give up. */
  const REQUEST_TIMEOUT_IN_MILLIS: int := 10_000
  /** Ping interval for servers thought to be alive. */
  const PING_INTERVAL_IN_MILLIS: int := 2_000
  /** A server silent for this long is considered dead. */
  const SERVER_TTL_IN_MILLIS: int := 6_000
  /** TimeUnit.MINUTES.toMillis(1). */
  const ONE_MINUTE_IN_MILLIS: int := 60_000
  /** Integer.MAX_VALUE: the largest value Integer.parseInt accepts. */
  const INT_MAX: int := 0x7FFF_FFFF

  /** What handling a reply from a registered server leads to. */
  datatype ReplyOutcome =
    | Ignored                   // a PONG, or a reply that is neither PONG nor numbered (logged)
    | Stale                     // a numbered reply for another request (logged as too late)
    | Delivered                 // the answer to the request in flight, passed to the application
    | NumberFormatFailure       // Integer.parseInt threw: the thread ends
    | DeliveredThenNullPointer  // answer passed on again, then destroying the absent request threw

  /** doHandleReply as written. A SEQUENCE_NUMBER token goes through Integer.parseInt, which
      throws on the literal name and on values above Integer.MAX_VALUE; a matching number
      is delivered and the current request destroyed even when there is none. */
  function HandleReplyAsWritten(token: Option<string>, sequenceNumber: nat, inFlight: bool): (o: ReplyOutcome)
    ensures o == NumberFormatFailure <==>
      Parse(token) == SEQUENCE_NUMBER && (!IsNumeric(token.value) || ParseNat(token.value) > INT_MAX)
    ensures o in {Delivered, DeliveredThenNullPointer} <==>
      token.Some? && IsNumeric(token.value) && ParseNat(token.value) <= INT_MAX && ParseNat(token.value) == sequenceNumber
    ensures o == DeliveredThenNullPointer ==> !inFlight
  {
    if Parse(token) != SEQUENCE_NUMBER then Ignored
    else if !IsNumeric(token.value) || ParseNat(token.value) > INT_MAX then NumberFormatFailure
    else if ParseNat(token.value) == sequenceNumber then
      if inFlight then Delivered else DeliveredThenNullPointer
    else Stale
  }

  /** doHandleReply corrected: only the number of the request in flight is delivered; any
      other reply, the literal name and numbers out of int range included, is not. */
  function HandleReply(token: Option<string>, sequenceNumber: nat, inFlight: bool): (o: ReplyOutcome)
    ensures o == Delivered <==>
      inFlight && token.Some? && IsNumeric(token.value) && ParseNat(token.value) == sequenceNumber
    ensures o in {Ignored, Stale, Delivered}
  {
    if Parse(token) == SEQUENCE_NUMBER && IsNumeric(token.value) then
      if inFlight && ParseNat(token.value) == sequenceNumber then Delivered else Stale
    else Ignored
  }

  /** Wherever the code as written neither throws nor delivers twice, the correction agrees with it. */
  lemma HandleReplyAgrees(token: Option<string>, sequenceNumber: nat, inFlight: bool)
    requires HandleReplyAsWritten(token, sequenceNumber, inFlight) !in {NumberFormatFailure, DeliveredThenNullPointer}
    ensures HandleReply(token, sequenceNumber, inFlight) == HandleReplyAsWritten(token, sequenceNumber, inFlight)
  {
  }

  /** A second reply carrying the number just answered (another server answering the same
      request) is passed to the application again and then crashes the thread; the
      correction treats it as stale. */
  lemma DuplicateReplyCrashes(n: nat)
    requires 0 < n <= INT_MAX
    ensures HandleReplyAsWritten(Some(NatToString(n)), n, false) == DeliveredThenNullPointer
    ensures HandleReply(Some(NatToString(n)), n, false) == Stale
  {
    ParseNatToString(n);
  }

  /** The literal token "SEQUENCE_NUMBER" parses as that command and then fails Integer.parseInt. */
  lemma LiteralTokenCrashes(n: nat, inFlight: bool)
    ensures HandleReplyAsWritten(Some("SEQUENCE_NUMBER"), n, inFlight) == NumberFormatFailure
    ensures HandleReply(Some("SEQUENCE_NUMBER"), n, inFlight) == Ignored
  {
    ParseName(SEQUENCE_NUMBER);
    NamesAreNotNumeric(SEQUENCE_NUMBER);
  }

  /** A number beyond Integer.MAX_VALUE also fails Integer.parseInt. */
  lemma OverflowTokenCrashes(n: nat, inFlight: bool)
    ensures HandleReplyAsWritten(Some(NatToString(INT_MAX + 1)), n, inFlight) == NumberFormatFailure
  {
    ParseNatToString(INT_MAX + 1);
  }

  /** The number of leading servers of the queue whose time to live has run out. */
  function FirstUnexpired(q: seq<ServerProxy>, now: int): (k: nat)
    reads q`timeoutAt
    ensures k <= |q|
    ensures forall i :: 0 <= i < k ==> q[i].timeoutAt <= now
    ensures k < |q| ==> q[k].timeoutAt > now
    decreases |q|
  {
    if q == [] || q[0].timeoutAt > now then 0 else 1 + FirstUnexpired(q[1..], now)
  }

  /** The pings pingAllServers sends, in registry order: one per proxy whose ping time
      (`pingAt`, position by position) has come. */
  function DuePings(ps: seq<ServerProxy>, pingAt: seq<int>, localId: string, now: int): (r: seq<Message>)
    requires |pingAt| == |ps|
    ensures |r| <= |ps|
    ensures forall i :: 0 <= i < |r| ==> |r[i]| == 3 && r[i][1] == "PING" && r[i][2] == localId
  {
    if ps == [] then []
    else
      var n := |ps| - 1;
      DuePings(ps[..n], pingAt[..n], localId, now) + (if pingAt[n] <= now then [[ps[n].endpoint, "PING", localId]] else [])
  }

  /** The ping times of the proxies, in order. */
  function PingTimes(ps: seq<ServerProxy>): (r: seq<int>)
    reads ps`pingAt
    ensures |r| == |ps| && forall i :: 0 <= i < |ps| ==> r[i] == ps[i].pingAt
  {
    if ps == [] then [] else [ps[0].pingAt] + PingTimes(ps[1..])
  }

  /** The proxies registered under `es`, in that order (the values of the LinkedHashMap). */
  function ValuesInOrder(servers: map<string, ServerProxy>, es: seq<string>): (ps: seq<ServerProxy>)
    requires forall i :: 0 <= i < |es| ==> es[i] in servers
    ensures |ps| == |es| && forall i :: 0 <= i < |es| ==> ps[i] == servers[es[i]]
  {
    if es == [] then [] else [servers[es[0]]] + ValuesInOrder(servers, es[1..])
  }

  /** The registry: each endpoint maps to its own known proxy, and `order` lists the keys
      once each (the iteration order of the LinkedHashMap). */
  ghost predicate Registry(servers: map<string, ServerProxy>, order: seq<string>, known: set<ServerProxy>) {
    && (forall e :: e in servers ==> servers[e] in known && servers[e].endpoint == e)
    && (forall i, j :: 0 <= i < j < |order| ==> order[i] != order[j])
    && (forall e :: e in servers <==> e in order)
  }

  /** put(endpoint, proxy): a new key goes to the end of the order, a known key keeps its place. */
  lemma RegistryPut(servers: map<string, ServerProxy>, order: seq<string>, known: set<ServerProxy>, s: ServerProxy)
    requires Registry(servers, order, known)
    ensures Registry(servers[s.endpoint := s], if s.endpoint in servers then order else order + [s.endpoint], known + {s})
  {
    if s.endpoint !in servers {
      var order' := order + [s.endpoint];
      forall i, j | 0 <= i < j < |order'| ensures order'[i] != order'[j] {
        if j == |order| {
          assert order'[i] in order;
        } else {
          assert order'[i] == order[i] && order'[j] == order[j];
        }
      }
    }
  }

  /** Proxies are created by connectTo with the manager's settings and a real endpoint. */
  predicate Configured(s: ServerProxy, localId: string) {
    s.endpoint != "" && s.pingInterval == PING_INTERVAL_IN_MILLIS && s.ttl == SERVER_TTL_IN_MILLIS
    && s.localId == localId
  }

  /** Every known proxy is configured and queued ones are known; a live server is always queued. */
  ghost predicate Proxies(known: set<ServerProxy>, queue: seq<ServerProxy>, localId: string)
    reads known`isAlive
  {
    && (forall s :: s in known ==> Configured(s, localId))
    && (forall i :: 0 <= i < |queue| ==> queue[i] in known)
    && (forall s :: s in known && s.isAlive ==> s in queue)
  }

  /** Registering a configured proxy and queueing it keeps the invariant. */
  lemma ProxiesAppend(known: set<ServerProxy>, queue: seq<ServerProxy>, localId: string, s: ServerProxy)
    requires Proxies(known, queue, localId) && Configured(s, localId)
    ensures Proxies(known + {s}, queue + [s], localId)
  {
    var queue' := queue + [s];
    forall i | 0 <= i < |queue'| ensures queue'[i] in known + {s} {
      if i < |queue| {
        assert queue'[i] == queue[i];
      }
    }
    forall t | t in known + {s} && t.isAlive ensures t in queue' {
      if t != s {
        var i :| 0 <= i < |queue| && queue[i] == t;
        assert queue'[i] == t;
      }
    }
  }

  /** Dequeueing a head that is no longer alive keeps the invariant. */
  lemma ProxiesDequeue(known: set<ServerProxy>, queue: seq<ServerProxy>, localId: string)
    requires Proxies(known, queue, localId) && queue != [] && !queue[0].isAlive
    ensures Proxies(known, queue[1..], localId)
  {
    forall t | t in known && t.isAlive ensures t in queue[1..] {
      var i :| 0 <= i < |queue| && queue[i] == t;
      assert queue[1..][i - 1] == t;
    }
  }

  /** The manager's own fields at one moment (the proxies' fields are not part of it). */
  datatype Books = Books(
    servers: map<string, ServerProxy>, endpoints: seq<string>, activeServers: seq<ServerProxy>,
    timeouts: seq<int>, sequenceNumber: nat, currentRequest: Option<Message>, currentRequestTimeout: int,
    toPipe: seq<Message>, toRouter: seq<Message>, connected: seq<string>)

  /** What processOutbox does to the manager's fields. `created` is the proxy a CONNECT makes. */
  function AfterOutbox(b: Books, request: Message, now: int, created: Option<ServerProxy>): (r: Books)
    requires Parse(FrameAt(request, 1)) == CONNECT ==> created.Some?
    ensures r.toPipe == b.toPipe && r.toRouter == b.toRouter
    ensures Parse(FrameAt(request, 1)) == REQUEST && b.currentRequest.Some? ==> r == b
    ensures Parse(FrameAt(request, 1)) == REQUEST && b.currentRequest.None? ==>
      r.sequenceNumber == b.sequenceNumber + 1 && r.servers == b.servers
      && r.currentRequest == Some([NatToString(r.sequenceNumber)] + request[2..])
    ensures Parse(FrameAt(request, 1)) == CONNECT ==>
      r.servers == b.servers[request[0] := created.value] && request[0] in r.servers
      && r.activeServers == b.activeServers + [created.value] && r.currentRequest == b.currentRequest
    ensures Parse(FrameAt(request, 1)) !in {REQUEST, CONNECT} ==> r == b
  {
    match Parse(FrameAt(request, 1))
    case REQUEST =>
      if b.currentRequest.Some? then b
      else
        var n := b.sequenceNumber + 1;
        b.(sequenceNumber := n, currentRequest := Some([NatToString(n)] + request[2..]),
           currentRequestTimeout := now + REQUEST_TIMEOUT_IN_MILLIS,
           timeouts := Insert(b.timeouts, now + REQUEST_TIMEOUT_IN_MILLIS))
    case CONNECT =>
      var e := request[0];
      b.(servers := b.servers[e := created.value],
         endpoints := if e in b.servers then b.endpoints else b.endpoints + [e],
         activeServers := b.activeServers + [created.value],
         timeouts := Insert(b.timeouts, now + SERVER_TTL_IN_MILLIS),
         connected := b.connected + [e])
    case _ => b
  }

  /** What processInbox does to the manager's fields, given whether the sender was alive and
      its deadline before the reply. */
  function AfterInbox(b: Books, reply: Message, now: int, alive0: bool, deadline0: int): (r: Books)
    ensures r.servers == b.servers && r.endpoints == b.endpoints && r.connected == b.connected
    ensures r.sequenceNumber == b.sequenceNumber && r.toRouter == b.toRouter
    ensures r.currentRequest != b.currentRequest ==>
      b.currentRequest.Some? && r.currentRequest.None? && |reply| >= 2
      && HandleReply(FrameAt(reply, 1), b.sequenceNumber, true) == Delivered && r.toPipe == b.toPipe + [["OK"] + reply[2..]]
    ensures r.currentRequest == b.currentRequest ==> r.toPipe == b.toPipe
    ensures (|reply| == 0 || reply[0] !in b.servers) ==> r == b
  {
    if |reply| == 0 || reply[0] !in b.servers then b
    else
      var server := b.servers[reply[0]];
      var delivered := HandleReply(FrameAt(reply, 1), b.sequenceNumber, b.currentRequest.Some?) == Delivered;
      b.(activeServers := if alive0 then b.activeServers else b.activeServers + [server],
         timeouts := Insert(RemoveOne(b.timeouts, deadline0), now + SERVER_TTL_IN_MILLIS),
         currentRequest := if delivered then None else b.currentRequest,
         toPipe := if delivered then b.toPipe + [["OK"] + reply[2..]] else b.toPipe)
  }

  class Manager {
    /** Identity of the local host, the source frame of the pings. */
    const localId: string
    /** Registered servers by endpoint (a LinkedHashMap); `endpoints` is its key order. */
    var servers: map<string, ServerProxy>
    var endpoints: seq<string>
    /** Queue of servers to try, head first; a server may be queued more than once. */
    var activeServers: seq<ServerProxy>
    /** Pending deadlines (a PriorityQueue), ascending. */
    var timeouts: seq<int>
    /** Number of requests ever accepted. */
    var sequenceNumber: nat
    var currentRequest: Option<Message>
    var currentRequestTimeout: int
    /** Messages written to the application pipe, and to the router socket. */
    var toPipe: seq<Message>
    var toRouter: seq<Message>
    /** Endpoints passed to router.connect. */
    var connected: seq<string>
    ghost var Repr: set<ServerProxy>

    ghost predicate RegistryOk()
      reads this`servers, this`endpoints, this`Repr
    {
      Registry(servers, endpoints, Repr)
    }

    ghost predicate ProxiesOk()
      reads this`activeServers, this`Repr, Repr`isAlive
    {
      Proxies(Repr, activeServers, localId)
    }

    /** The request in flight carries the latest sequence number as its first frame, and
        every accepted request is answered exactly once: it is in flight or has its one answer. */
    predicate RequestsOk()
      reads this`currentRequest, this`sequenceNumber, this`toPipe
    {
      && (currentRequest.Some? ==> |currentRequest.value| > 0 && currentRequest.value[0] == NatToString(sequenceNumber))
      && |toPipe| + (if currentRequest.Some? then 1 else 0) == sequenceNumber
      && (forall i :: 0 <= i < |toPipe| ==> |toPipe[i]| > 0 && toPipe[i][0] in {"OK", "ERROR"})
    }

    ghost predicate Valid()
      reads this`servers, this`endpoints, this`Repr, this`activeServers, this`timeouts
      reads this`currentRequest, this`sequenceNumber, this`toPipe, Repr`isAlive
    {
      RegistryOk() && ProxiesOk() && Sorted(timeouts) && RequestsOk()
    }

    constructor (localId: string)
      ensures Valid() && this.localId == localId
      ensures servers == map[] && endpoints == [] && activeServers == [] && timeouts == []
      ensures sequenceNumber == 0 && currentRequest == None
      ensures toPipe == [] && toRouter == [] && connected == [] && Repr == {}
    {
      this.localId := localId;
      servers := map[];
      endpoints := [];
      activeServers := [];
      timeouts := [];
      sequenceNumber := 0;
      currentRequest := None;
      currentRequestTimeout := 0;
      toPipe := [];
      toRouter := [];
      connected := [];
      Repr := {};
    }

    /** The manager's fields as a value. */
    function Snapshot(): Books
      reads this
    {
      Books(servers, endpoints, activeServers, timeouts, sequenceNumber, currentRequest, currentRequestTimeout,
            toPipe, toRouter, connected)
    }

    function IsProcessingRequest(): (b: bool)
      reads this
      ensures b <==> currentRequest.Some?
    {
      currentRequest.Some?
    }

    /** nextTimeout: discard the deadlines already reached and wait until the earliest one
        left, or one minute when none is left. */
    method NextTimeout(now: int) returns (timeout: int)
      requires Valid()
      modifies this`timeouts
      ensures Valid()
      ensures timeouts == DropDue(old(timeouts), now)
      ensures forall t :: multiset(timeouts)[t] == if t > now then multiset(old(timeouts))[t] else 0
      ensures timeouts == [] ==> timeout == ONE_MINUTE_IN_MILLIS
      ensures timeouts != [] ==> timeout == timeouts[0] - now && forall t :: t in timeouts ==> timeouts[0] <= t
      ensures timeout > 0
    {
      DropDueKeepsFuture(old(timeouts), now);
      while timeouts != []
        invariant Valid()
        invariant DropDue(timeouts, now) == DropDue(old(timeouts), now)
        decreases |timeouts|
      {
        var nextTimeout := timeouts[0];
        if nextTimeout <= now {
          SortedTail(timeouts);
          timeouts := timeouts[1..];
          continue;
        }
        return nextTimeout - now;
      }
      return ONE_MINUTE_IN_MILLIS;
    }

    /** processOutbox: one message from the application. REQUEST takes ownership of the
        message under the next sequence number (a request already in flight fails the
        strict request-reply assertion: `ok` is false and nothing changes); CONNECT
        registers a server; anything else is dropped. */
    method ProcessOutbox(request: Message, now: int) returns (ok: bool)
      requires Valid()
      requires Parse(FrameAt(request, 1)) == CONNECT ==> request[0] != ""
      modifies this`sequenceNumber, this`currentRequest, this`currentRequestTimeout, this`timeouts
      modifies this`servers, this`endpoints, this`activeServers, this`Repr, this`connected
      ensures Valid()
      ensures ok <==> !(Parse(FrameAt(request, 1)) == REQUEST && old(currentRequest).Some?)
      ensures Parse(FrameAt(request, 1)) == REQUEST && ok ==>
        && sequenceNumber == old(sequenceNumber) + 1
        && currentRequest == Some([NatToString(sequenceNumber)] + request[2..])
        && currentRequestTimeout == now + REQUEST_TIMEOUT_IN_MILLIS
        && timeouts == Insert(old(timeouts), now + REQUEST_TIMEOUT_IN_MILLIS)
        && servers == old(servers) && endpoints == old(endpoints) && activeServers == old(activeServers)
        && connected == old(connected) && Repr == old(Repr)
      ensures Parse(FrameAt(request, 1)) == CONNECT ==>
        var e := request[0];
        && e in servers && fresh(servers[e]) && servers == old(servers)[e := servers[e]]
        && servers[e].endpoint == e && !servers[e].isAlive
        && servers[e].pingAt == now + PING_INTERVAL_IN_MILLIS && servers[e].timeoutAt == now + SERVER_TTL_IN_MILLIS
        && endpoints == (if e in old(servers) then old(endpoints) else old(endpoints) + [e])
        && activeServers == old(activeServers) + [servers[e]]
        && timeouts == Insert(old(timeouts), now + SERVER_TTL_IN_MILLIS)
        && connected == old(connected) + [e]
        && Repr == old(Repr) + {servers[e]}
        && sequenceNumber == old(sequenceNumber) && currentRequest == old(currentRequest)
        && currentRequestTimeout == old(currentRequestTimeout)
      ensures !ok || Parse(FrameAt(request, 1)) !in {REQUEST, CONNECT} ==> unchanged(this)
      ensures Snapshot() == AfterOutbox(old(Snapshot()), request, now,
        if Parse(FrameAt(request, 1)) == CONNECT then Some(servers[request[0]]) else None)
    {
      var command := Parse(FrameAt(request, 1));
      ok := true;
      match command {
        case REQUEST =>
          if currentRequest.Some? {
            ok := false;
            return;
          }
          Accept(request, now);
        case CONNECT =>
          var _ := ConnectTo(request[0], now);
        case _ =>
      }
    }

    /** A REQUEST when none is in flight: it takes the next sequence number in place of its
        command frame, and its deadline is armed. */
    method Accept(request: Message, now: int)
      requires Valid() && currentRequest.None? && |request| >= 2
      modifies this`sequenceNumber, this`currentRequest, this`currentRequestTimeout, this`timeouts
      ensures Valid()
      ensures sequenceNumber == old(sequenceNumber) + 1
      ensures currentRequest == Some([NatToString(sequenceNumber)] + request[2..])
      ensures currentRequestTimeout == now + REQUEST_TIMEOUT_IN_MILLIS
      ensures timeouts == Insert(old(timeouts), now + REQUEST_TIMEOUT_IN_MILLIS)
    {
      sequenceNumber := sequenceNumber + 1;
      currentRequest := Some([NatToString(sequenceNumber)] + request[2..]);
      currentRequestTimeout := now + REQUEST_TIMEOUT_IN_MILLIS;
      AddDeadline(currentRequestTimeout);
    }

    /** connectTo: register a new proxy (replacing any under the same endpoint), queue it,
        arm its time to live and connect the router. */
    method ConnectTo(endpoint: string, now: int) returns (server: ServerProxy)
      requires Valid() && endpoint != ""
      modifies this`servers, this`endpoints, this`activeServers, this`Repr, this`timeouts, this`connected
      ensures Valid()
      ensures fresh(server) && servers == old(servers)[endpoint := server]
      ensures server.endpoint == endpoint && !server.isAlive
      ensures server.pingAt == now + PING_INTERVAL_IN_MILLIS && server.timeoutAt == now + SERVER_TTL_IN_MILLIS
      ensures endpoints == (if endpoint in old(servers) then old(endpoints) else old(endpoints) + [endpoint])
      ensures activeServers == old(activeServers) + [server]
      ensures timeouts == Insert(old(timeouts), now + SERVER_TTL_IN_MILLIS)
      ensures connected == old(connected) + [endpoint]
      ensures Repr == old(Repr) + {server}
    {
      server := NewProxy(endpoint, localId, now);
      var deadline := server.timeoutAt;
      Register(server);
      AddDeadline(deadline);
      connected := connected + [endpoint];
    }

    /** new ServerProxy(...) followed by refresh(): a configured proxy, not yet alive. */
    static method NewProxy(endpoint: string, localId: string, now: int) returns (server: ServerProxy)
      requires endpoint != ""
      ensures fresh(server) && Configured(server, localId)
      ensures server.endpoint == endpoint && !server.isAlive
      ensures server.pingAt == now + PING_INTERVAL_IN_MILLIS && server.timeoutAt == now + SERVER_TTL_IN_MILLIS
    {
      server := new ServerProxy(endpoint, PING_INTERVAL_IN_MILLIS, SERVER_TTL_IN_MILLIS, localId, now);
      server.Refresh(now);
    }

    /** servers.put and activeServers.add for a new configured proxy. */
    method Register(server: ServerProxy)
      requires Valid() && Configured(server, localId) && server !in Repr
      modifies this`servers, this`endpoints, this`activeServers, this`Repr
      ensures Valid()
      ensures servers == old(servers)[server.endpoint := server]
      ensures endpoints == (if server.endpoint in old(servers) then old(endpoints) else old(endpoints) + [server.endpoint])
      ensures activeServers == old(activeServers) + [server]
      ensures Repr == old(Repr) + {server}
    {
      RegistryPut(servers, endpoints, Repr, server);
      ProxiesAppend(Repr, activeServers, localId, server);
      var endpoints' := if server.endpoint in servers then endpoints else endpoints + [server.endpoint];
      servers, endpoints, activeServers, Repr :=
        servers[server.endpoint := server], endpoints', activeServers + [server], Repr + {server};
    }

    /** timeouts.add: a new deadline joins the priority queue. */
    method AddDeadline(t: int)
      requires Valid()
      modifies this`timeouts
      ensures Valid()
      ensures timeouts == Insert(old(timeouts), t)
    {
      InsertSorted(timeouts, t);
      timeouts := Insert(timeouts, t);
    }

    /** The reply's first frame names a registered server. */
    predicate FromRegistered(reply: Message)
      reads this`servers
    {
      |reply| > 0 && reply[0] in servers
    }

    /** The proxy a reply's first frame names, if it is registered. */
    function Sender(reply: Message): (r: set<ServerProxy>)
      reads this`servers
      ensures FromRegistered(reply) ==> r == {servers[reply[0]]}
      ensures !FromRegistered(reply) ==> r == {}
    {
      if FromRegistered(reply) then {servers[reply[0]]} else {}
    }

    /** Whether the reply's sender is registered and alive. */
    function SenderAlive(reply: Message): bool
      reads this`servers, Sender(reply)`isAlive
    {
      FromRegistered(reply) && servers[reply[0]].isAlive
    }

    /** The deadline of the reply's sender, if it is registered. */
    function SenderDeadline(reply: Message): int
      reads this`servers, Sender(reply)`timeoutAt
    {
      if FromRegistered(reply) then servers[reply[0]].timeoutAt else 0
    }

    /** processInbox: a reply from the router. Replies from unknown senders are dropped. A
        registered sender is queued again if it was not alive, marked alive, and its
        schedule and deadline restart; then the reply is handled (corrected handling). */
    method ProcessInbox(reply: Message, now: int)
      requires Valid()
      modifies this`activeServers, this`timeouts, this`toPipe, this`currentRequest
      modifies Sender(reply)`isAlive, Sender(reply)`transitions, Sender(reply)`pingAt, Sender(reply)`timeoutAt
      ensures Valid()
      ensures !FromRegistered(reply) ==>
        activeServers == old(activeServers) && timeouts == old(timeouts)
        && toPipe == old(toPipe) && currentRequest == old(currentRequest)
      ensures FromRegistered(reply) ==>
        var server := servers[reply[0]];
        && server.isAlive
        && server.pingAt == now + PING_INTERVAL_IN_MILLIS && server.timeoutAt == now + SERVER_TTL_IN_MILLIS
        && activeServers == (if old(server.isAlive) then old(activeServers) else old(activeServers) + [server])
        && timeouts == Insert(RemoveOne(old(timeouts), old(server.timeoutAt)), now + SERVER_TTL_IN_MILLIS)
      ensures FromRegistered(reply) && HandleReply(FrameAt(reply, 1), sequenceNumber, old(currentRequest).Some?) == Delivered ==>
        currentRequest == None && toPipe == old(toPipe) + [["OK"] + reply[2..]]
      ensures FromRegistered(reply) && HandleReply(FrameAt(reply, 1), sequenceNumber, old(currentRequest).Some?) != Delivered ==>
        currentRequest == old(currentRequest) && toPipe == old(toPipe)
      ensures Snapshot() == AfterInbox(old(Snapshot()), reply, now, old(SenderAlive(reply)), old(SenderDeadline(reply)))
    {
      if |reply| == 0 || reply[0] !in servers {
        return;
      }
      var server := servers[reply[0]];
      Answered(server, reply, now);
    }

    /** processInbox for a reply from a registered server. */
    method Answered(server: ServerProxy, reply: Message, now: int)
      requires Valid() && FromRegistered(reply) && server == servers[reply[0]]
      modifies this`activeServers, this`timeouts, this`toPipe, this`currentRequest
      modifies server`isAlive, server`transitions, server`pingAt, server`timeoutAt
      ensures Valid()
      ensures server.isAlive
      ensures server.pingAt == now + PING_INTERVAL_IN_MILLIS && server.timeoutAt == now + SERVER_TTL_IN_MILLIS
      ensures activeServers == (if old(server.isAlive) then old(activeServers) else old(activeServers) + [server])
      ensures timeouts == Insert(RemoveOne(old(timeouts), old(server.timeoutAt)), now + SERVER_TTL_IN_MILLIS)
      ensures HandleReply(FrameAt(reply, 1), sequenceNumber, old(currentRequest).Some?) == Delivered ==>
        currentRequest == None && toPipe == old(toPipe) + [["OK"] + reply[2..]]
      ensures HandleReply(FrameAt(reply, 1), sequenceNumber, old(currentRequest).Some?) != Delivered ==>
        currentRequest == old(currentRequest) && toPipe == old(toPipe)
      ensures Snapshot() == AfterInbox(old(Snapshot()), reply, now, old(server.isAlive), old(server.timeoutAt))
    {
      MarkResponsive(server, now);
      Deliver(reply);
    }

    /** doHandleReply (corrected): the answer to the request in flight goes to the
        application as OK and the request is done; any other reply changes nothing. */
    method Deliver(reply: Message)
      requires RequestsOk()
      modifies this`toPipe, this`currentRequest
      ensures RequestsOk()
      ensures HandleReply(FrameAt(reply, 1), sequenceNumber, old(currentRequest).Some?) == Delivered ==>
        currentRequest == None && toPipe == old(toPipe) + [["OK"] + reply[2..]]
      ensures HandleReply(FrameAt(reply, 1), sequenceNumber, old(currentRequest).Some?) != Delivered ==>
        currentRequest == old(currentRequest) && toPipe == old(toPipe)
      ensures Snapshot() == old(Snapshot()).(currentRequest := currentRequest, toPipe := toPipe)
    {
      var outcome := HandleReply(FrameAt(reply, 1), sequenceNumber, currentRequest.Some?);
      if outcome == Delivered {
        toPipe := toPipe + [["OK"] + reply[2..]];
        currentRequest := None;
      }
    }

    /** The bookkeeping for a server that just replied: queue it again if it was not alive,
        mark it alive, and move its deadline. */
    method MarkResponsive(server: ServerProxy, now: int)
      requires Valid() && server in Repr
      modifies this`activeServers, this`timeouts, server`isAlive, server`transitions, server`pingAt, server`timeoutAt
      ensures Valid()
      ensures server.isAlive
      ensures server.pingAt == now + PING_INTERVAL_IN_MILLIS && server.timeoutAt == now + SERVER_TTL_IN_MILLIS
      ensures activeServers == (if old(server.isAlive) then old(activeServers) else old(activeServers) + [server])
      ensures timeouts == Insert(RemoveOne(old(timeouts), old(server.timeoutAt)), now + SERVER_TTL_IN_MILLIS)
      ensures Snapshot() == old(Snapshot()).(activeServers := activeServers, timeouts := timeouts)
    {
      Revive(server);
      Reschedule(server, now);
    }

    /** A server that was not alive is queued again and marked alive. */
    method Revive(server: ServerProxy)
      requires Valid() && server in Repr
      modifies this`activeServers, server`isAlive, server`transitions
      ensures Valid()
      ensures server.isAlive
      ensures activeServers == (if old(server.isAlive) then old(activeServers) else old(activeServers) + [server])
      ensures Snapshot() == old(Snapshot()).(activeServers := activeServers)
    {
      if !server.isAlive {
        ProxiesAppend(Repr, activeServers, localId, server);
        assert Repr + {server} == Repr;
        activeServers := activeServers + [server];
        server.Enable();
      }
    }

    /** The server's ping schedule and deadline restart, and its deadline moves in the queue. */
    method Reschedule(server: ServerProxy, now: int)
      requires Valid() && server in Repr
      modifies this`timeouts, server`pingAt, server`timeoutAt
      ensures Valid()
      ensures server.pingAt == now + PING_INTERVAL_IN_MILLIS && server.timeoutAt == now + SERVER_TTL_IN_MILLIS
      ensures timeouts == Insert(RemoveOne(old(timeouts), old(server.timeoutAt)), now + SERVER_TTL_IN_MILLIS)
      ensures Snapshot() == old(Snapshot()).(timeouts := timeouts)
    {
      RemoveOneSorted(timeouts, server.timeoutAt);
      InsertSorted(RemoveOne(timeouts, server.timeoutAt), now + SERVER_TTL_IN_MILLIS);
      timeouts := Insert(RemoveOne(timeouts, server.timeoutAt), now + SERVER_TTL_IN_MILLIS);
      server.Refresh(now);
    }

    /** destroyCurrentRequestAndReturnFailed: the request in flight is answered ERROR. */
    method DestroyCurrentRequestAndReturnFailed()
      requires Valid() && currentRequest.Some?
      modifies this`currentRequest, this`toPipe
      ensures Valid()
      ensures currentRequest == None && toPipe == old(toPipe) + [["ERROR"]]
    {
      currentRequest := None;
      toPipe := toPipe + [["ERROR"]];
    }

    /** isRequestExpired: the request's deadline has been reached. */
    function IsRequestExpired(now: int): (b: bool)
      reads this
      ensures b <==> currentRequestTimeout <= now
    {
      currentRequestTimeout <= now
    }

    /** activeServers.poll() and disable(): the head leaves the queue and is no longer alive. */
    method DropHead(head: ServerProxy)
      requires Valid() && activeServers != [] && head == activeServers[0]
      modifies this`activeServers, head`isAlive, head`transitions
      ensures Valid()
      ensures activeServers == old(activeServers)[1..] && !head.isAlive
    {
      head.Disable();
      ProxiesDequeue(Repr, activeServers, localId);
      activeServers := activeServers[1..];
    }

    /** firstActiveServer as written: looks at the head only; an expired head is dequeued and
        disabled but still returned. */
    method FirstActiveServerAsWritten(now: int) returns (server: Option<ServerProxy>)
      requires Valid()
      modifies this`activeServers, Repr`isAlive, Repr`transitions
      ensures Valid()
      ensures old(activeServers) == [] ==> server == None && activeServers == []
      ensures old(activeServers) != [] ==> server == Some(old(activeServers)[0])
      ensures old(activeServers) != [] && old(activeServers[0].timeoutAt) <= now ==>
        activeServers == old(activeServers)[1..] && !server.value.isAlive
      ensures old(activeServers) != [] && now < old(activeServers[0].timeoutAt) ==>
        activeServers == old(activeServers)
      ensures forall s :: s in Repr && (old(activeServers) == [] || s != old(activeServers)[0]) ==>
        s.isAlive == old(s.isAlive)
    {
      if activeServers == [] {
        return None;
      }
      var head := activeServers[0];
      if head.timeoutAt <= now {
        DropHead(head);
      }
      return Some(head);
    }

    /** firstActiveServer as documented: dequeue and disable expired servers until the head
        is still within its time to live, and return that one, or None when all expired. */
    method FirstActiveServer(now: int) returns (server: Option<ServerProxy>)
      requires Valid()
      modifies this`activeServers, Repr`isAlive, Repr`transitions
      ensures Valid()
      ensures var q := old(activeServers); var k := old(FirstUnexpired(activeServers, now));
        && activeServers == q[k..]
        && (server.None? <==> k == |q|)
        && (server.Some? ==> server.value == q[k] && server.value.timeoutAt > now)
        && (forall i :: 0 <= i < k ==> !q[i].isAlive)
        && (forall s :: s in Repr && s !in q[..k] ==> s.isAlive == old(s.isAlive))
      ensures server.None? <==> forall i :: 0 <= i < |old(activeServers)| ==> old(activeServers)[i].timeoutAt <= now
    {
      ghost var q := activeServers;
      ghost var alive0 := map s | s in Repr :: s.isAlive;
      ghost var k := 0;
      while activeServers != [] && activeServers[0].timeoutAt <= now
        invariant Draining(q, k, now, alive0)
        decreases |activeServers|
      {
        DrainHead(activeServers[0], q, k, now, alive0);
        k := k + 1;
      }
      FirstUnexpiredIs(q, now, k);
      if activeServers == [] {
        server := None;
      } else {
        server := Some(activeServers[0]);
      }
    }

    /** The servers q[..k] expired, left the queue and were disabled; every other proxy is
        as alive as it was before (as recorded in alive0). */
    ghost predicate Draining(q: seq<ServerProxy>, k: int, now: int, alive0: map<ServerProxy, bool>)
      reads this, Repr, q
    {
      && Valid()
      && 0 <= k <= |q| && activeServers == q[k..]
      && (forall i :: 0 <= i < k ==> q[i].timeoutAt <= now && !q[i].isAlive)
      && (forall s :: s in Repr && s !in q[..k] ==> s in alive0 && s.isAlive == alive0[s])
    }

    /** One turn of the loop of firstActiveServer: the expired head is dropped. */
    method DrainHead(head: ServerProxy, ghost q: seq<ServerProxy>, ghost k: int, now: int,
                     ghost alive0: map<ServerProxy, bool>)
      requires Draining(q, k, now, alive0)
      requires activeServers != [] && head == activeServers[0] && head.timeoutAt <= now
      modifies this`activeServers, head`isAlive, head`transitions
      ensures Draining(q, k + 1, now, alive0)
    {
      assert q[k] == head;
      assert q[..k + 1] == q[..k] + [head];
      DropHead(head);
    }

    /** sendRequestToFirstActiveServer: a copy of the request, addressed to the first server
        still within its time to live, goes to the router; nothing is sent when there is none. */
    method SendRequestToFirstActiveServer(now: int)
      requires Valid() && currentRequest.Some?
      modifies this`activeServers, this`toRouter, Repr`isAlive, Repr`transitions
      ensures Valid()
      ensures var q := old(activeServers); var k := old(FirstUnexpired(activeServers, now));
        && activeServers == q[k..]
        && toRouter == old(toRouter) + (if k < |q| then [q[k].Addressed(currentRequest.value)] else [])
        && (forall i :: 0 <= i < k ==> !q[i].isAlive)
        && (forall s :: s in Repr && s !in q[..k] ==> s.isAlive == old(s.isAlive))
    {
      var server := FirstActiveServer(now);
      if server.None? {
        return;
      }
      toRouter := toRouter + [server.value.Addressed(currentRequest.value)];
    }

    /** servers.values(): the registered proxies in registration order, each once. */
    function ServersInOrder(): (ps: seq<ServerProxy>)
      requires RegistryOk()
      reads this`servers, this`endpoints, this`Repr
      ensures |ps| == |endpoints| && forall i :: 0 <= i < |ps| ==> ps[i] == servers[endpoints[i]] && ps[i] in Repr
      ensures forall i, j :: 0 <= i < j < |ps| ==> ps[i] != ps[j] && ps[i].endpoint != ps[j].endpoint
    {
      var ps := ValuesInOrder(servers, endpoints);
      assert forall i, j :: 0 <= i < j < |ps| ==> ps[i].endpoint == endpoints[i] != endpoints[j] == ps[j].endpoint;
      ps
    }

    /** pingAllServers: in registry order, ping every server whose ping time has come. */
    method PingAllServers(now: int)
      requires Valid()
      modifies this`toRouter, Repr`pingAt
      ensures Valid()
      ensures var ps := ServersInOrder();
        && toRouter == old(toRouter) + DuePings(ps, old(PingTimes(ps)), localId, now)
        && forall i :: 0 <= i < |ps| ==> ps[i].pingAt == NextPing(old(ps[i].pingAt), now)
      ensures forall e :: e in servers ==> servers[e].pingAt > now
      ensures forall s :: s in Repr && s !in servers.Values ==> s.pingAt == old(s.pingAt)
    {
      var ps := ServersInOrder();
      var pings := PingEach(ps, localId, now);
      toRouter := toRouter + pings;
      EveryServerListed(servers, endpoints, Repr, ps, now);
    }
  }

  /** What holds of every proxy in registry order holds of every registered server. */
  lemma EveryServerListed(servers: map<string, ServerProxy>, order: seq<string>, known: set<ServerProxy>,
                          ps: seq<ServerProxy>, now: int)
    requires Registry(servers, order, known)
    requires |ps| == |order| && forall j :: 0 <= j < |ps| ==> ps[j] == servers[order[j]] && ps[j].pingAt > now
    ensures forall e :: e in servers ==> servers[e].pingAt > now
  {
    forall e | e in servers ensures servers[e].pingAt > now {
      var j :| 0 <= j < |order| && order[j] == e;
      assert ps[j] == servers[e];
    }
  }

  /** The loop of pingAllServers over the proxies: each one whose ping time has come sends
      a ping and is rescheduled, the others are left alone. */
  method PingEach(ps: seq<ServerProxy>, localId: string, now: int) returns (pings: seq<Message>)
    requires forall j :: 0 <= j < |ps| ==> Configured(ps[j], localId)
    requires forall j, k :: 0 <= j < k < |ps| ==> ps[j] != ps[k]
    modifies ps`pingAt
    ensures pings == DuePings(ps, old(PingTimes(ps)), localId, now)
    ensures forall j :: 0 <= j < |ps| ==> ps[j].pingAt == NextPing(old(ps[j].pingAt), now) && ps[j].pingAt > now
  {
    ghost var at := PingTimes(ps);
    pings := [];
    var i := 0;
    while i < |ps|
      invariant Pinging(ps, at, localId, now, i, pings)
      decreases |ps| - i
    {
      pings := PingNext(ps[i], ps, at, localId, now, i, pings);
      i := i + 1;
    }
    assert ps[..i] == ps && at[..i] == at;
  }

  /** The proxies before i were pinged if due and rescheduled, the later ones are untouched,
      and `pings` holds what was sent so far. */
  ghost predicate Pinging(ps: seq<ServerProxy>, at: seq<int>, localId: string, now: int, i: int,
                          pings: seq<Message>)
    reads ps`pingAt
  {
    && |at| == |ps| && 0 <= i <= |ps|
    && (forall j :: 0 <= j < |ps| ==> Configured(ps[j], localId))
    && (forall j, k :: 0 <= j < k < |ps| ==> ps[j] != ps[k])
    && pings == DuePings(ps[..i], at[..i], localId, now)
    && (forall j :: 0 <= j < i ==> ps[j].pingAt == NextPing(at[j], now))
    && (forall j :: i <= j < |ps| ==> ps[j].pingAt == at[j])
  }

  /** One turn of the loop of pingAllServers: proxy i pings if it is due. */
  method PingNext(p: ServerProxy, ps: seq<ServerProxy>, ghost at: seq<int>, localId: string, now: int,
                  i: int, pings: seq<Message>) returns (pings': seq<Message>)
    requires Pinging(ps, at, localId, now, i, pings) && i < |ps| && p == ps[i]
    modifies p`pingAt
    ensures Pinging(ps, at, localId, now, i + 1, pings')
  {
    DuePingsStep(ps, at, i, localId, now);
    var ping := p.PingIfNoRecentActivity(now);
    pings' := pings;
    if ping.Some? {
      pings' := pings + [ping.value];
    }
  }

  /** One more proxy adds its ping, if it is due. */
  lemma DuePingsStep(ps: seq<ServerProxy>, at: seq<int>, i: nat, localId: string, now: int)
    requires |at| == |ps| && i < |ps|
    ensures DuePings(ps[..i + 1], at[..i + 1], localId, now) ==
      DuePings(ps[..i], at[..i], localId, now) + (if at[i] <= now then [[ps[i].endpoint, "PING", localId]] else [])
  {
    assert ps[..i + 1][..i] == ps[..i] && at[..i + 1][..i] == at[..i];
  }

  /** A server is pinged exactly when its ping time has come. */
  lemma {:induction false} DuePingedIffDue(ps: seq<ServerProxy>, at: seq<int>, localId: string, now: int, e: string)
    requires |at| == |ps|
    ensures [e, "PING", localId] in DuePings(ps, at, localId, now) <==>
      exists i :: 0 <= i < |ps| && ps[i].endpoint == e && at[i] <= now
    decreases |ps|
  {
    if ps != [] {
      var n := |ps| - 1;
      DuePingedIffDue(ps[..n], at[..n], localId, now, e);
      if [e, "PING", localId] in DuePings(ps[..n], at[..n], localId, now) {
        var i :| 0 <= i < n && ps[..n][i].endpoint == e && at[..n][i] <= now;
        assert ps[i].endpoint == e && at[i] <= now;
      }
      if exists i :: 0 <= i < |ps| && ps[i].endpoint == e && at[i] <= now {
        var i :| 0 <= i < |ps| && ps[i].endpoint == e && at[i] <= now;
        if i < n {
          assert ps[..n][i].endpoint == e && at[..n][i] <= now;
        }
      }
    }
  }

  /** Every ping goes to a proxy whose ping time has come. */
  lemma {:induction false} DuePingsTo(ps: seq<ServerProxy>, at: seq<int>, localId: string, now: int)
    requires |at| == |ps|
    ensures forall m :: m in DuePings(ps, at, localId, now) ==>
      exists i :: 0 <= i < |ps| && m[0] == ps[i].endpoint && at[i] <= now
    decreases |ps|
  {
    if ps != [] {
      var n := |ps| - 1;
      DuePingsTo(ps[..n], at[..n], localId, now);
      forall m | m in DuePings(ps, at, localId, now)
        ensures exists i :: 0 <= i < |ps| && m[0] == ps[i].endpoint && at[i] <= now
      {
        if m in DuePings(ps[..n], at[..n], localId, now) {
          var i :| 0 <= i < n && m[0] == ps[..n][i].endpoint && at[..n][i] <= now;
          assert m[0] == ps[i].endpoint && at[i] <= now;
        } else {
          assert m[0] == ps[n].endpoint && at[n] <= now;
        }
      }
    }
  }

  /** With distinct endpoints, proxy i is pinged exactly when its ping time has come. */
  lemma PingedIffDueAt(ps: seq<ServerProxy>, at: seq<int>, localId: string, now: int)
    requires |at| == |ps|
    requires forall i, j :: 0 <= i < j < |ps| ==> ps[i].endpoint != ps[j].endpoint
    ensures forall i :: 0 <= i < |ps| ==> ([ps[i].endpoint, "PING", localId] in DuePings(ps, at, localId, now) <==> at[i] <= now)
  {
    forall i | 0 <= i < |ps| ensures [ps[i].endpoint, "PING", localId] in DuePings(ps, at, localId, now) <==> at[i] <= now {
      DuePingedIffDue(ps, at, localId, now, ps[i].endpoint);
    }
  }

  /** No two messages of `r` go to the same endpoint. */
  predicate DistinctRecipients(r: seq<Message>)
    requires forall i :: 0 <= i < |r| ==> |r[i]| > 0
  {
    forall i, j :: 0 <= i < j < |r| ==> r[i][0] != r[j][0]
  }

  /** With distinct endpoints, as the registry has, no server receives two pings in a round. */
  lemma {:induction false} DuePingedAtMostOnce(ps: seq<ServerProxy>, at: seq<int>, localId: string, now: int)
    requires |at| == |ps|
    requires forall i, j :: 0 <= i < j < |ps| ==> ps[i].endpoint != ps[j].endpoint
    ensures DistinctRecipients(DuePings(ps, at, localId, now))
    decreases |ps|
  {
    if ps != [] {
      var n := |ps| - 1;
      var prefix := DuePings(ps[..n], at[..n], localId, now);
      DuePingedAtMostOnce(ps[..n], at[..n], localId, now);
      DuePingsTo(ps[..n], at[..n], localId, now);
      var tail: seq<Message> := if at[n] <= now then [[ps[n].endpoint, "PING", localId]] else [];
      var r := DuePings(ps, at, localId, now);
      assert r == prefix + tail;
      forall i, j | 0 <= i < j < |r| ensures r[i][0] != r[j][0] {
        if j >= |prefix| {
          assert i < |prefix| && r[i] == prefix[i] && r[j] == tail[0];
          assert r[i] in prefix;
          var k :| 0 <= k < n && r[i][0] == ps[..n][k].endpoint && at[..n][k] <= now;
          assert r[j][0] == ps[n].endpoint;
          assert ps[k].endpoint != ps[n].endpoint;
        } else {
          assert r[i] == prefix[i] && r[j] == prefix[j];
        }
      }
    }
  }

  /** A server's ping time after a ping round at `now`: rescheduled if it was due. */
  function NextPing(pingAt: int, now: int): (next: int)
    ensures pingAt <= now ==> next == now + PING_INTERVAL_IN_MILLIS
    ensures now < pingAt ==> next == pingAt
    ensures next > now
  {
    if pingAt <= now then now + PING_INTERVAL_IN_MILLIS else pingAt
  }

  /** The request cycle end to end: the application's REQUEST, relayed under sequence number
      n (the server's ROUTER replaces the first frame by the client's identity, the client's
      by the server's endpoint), comes back as the server's answer and is delivered as OK
      with the server's identity, the UUID and the payload for that UUID. */
  lemma RequestIsAnswered(client: Protocol, server: Protocol, unused: string, uuid: string, n: nat,
                          clientId: string, endpoint: string, provider: string -> string)
    requires unused != ""
    ensures var app := Request(client, Some(unused), Some(uuid)).value;
      var answer := ReplyTo(server, [clientId] + ([NatToString(n)] + app[2..]), provider);
      && answer.Success?
      && var reply := [endpoint] + answer.value[1..];
         && HandleReply(FrameAt(reply, 1), n, true) == Delivered
         && ["OK"] + reply[2..] == ["OK", server.source, uuid, provider(uuid)]
         && (n <= INT_MAX ==> HandleReplyAsWritten(FrameAt(reply, 1), n, true) == Delivered)
  {
    var app := Request(client, Some(unused), Some(uuid)).value;
    var rest := app[2..];
    assert rest == [client.source, uuid];
    assert [clientId] + ([NatToString(n)] + rest) == [clientId, NatToString(n)] + rest;
    ReplyToSequenced(server, clientId, n, rest, provider);
    var reply := [endpoint, NatToString(n), server.source, uuid, provider(uuid)];
    assert FrameAt(reply, 1) == Some(NatToString(n));
    ParseSequenceNumber(n);
    NatToStringIsNumeric(n);
    ParseNatToString(n);
  }

  /** The first-active-server finding on a concrete run: one server connected at time 0 and
      silent until its time to live runs out. The code as written still hands out the dead
      (and now disabled) server. */
  method ExpiredHeadIsReturned() returns (server: Option<ServerProxy>)
    ensures server.Some? && server.value.timeoutAt <= SERVER_TTL_IN_MILLIS && !server.value.isAlive
  {
    var m := new Manager("client");
    var s := m.ConnectTo("tcp://server:5555", 0);
    assert m.activeServers == [s] && s.timeoutAt == SERVER_TTL_IN_MILLIS;
    server := m.FirstActiveServerAsWritten(SERVER_TTL_IN_MILLIS);
  }

  /** The same run with the corrected search: no server is handed out. */
  method ExpiredHeadIsSkipped() returns (server: Option<ServerProxy>)
    ensures server.None?
  {
    var m := new Manager("client");
    var s := m.ConnectTo("tcp://server:5555", 0);
    assert m.activeServers == [s] && s.timeoutAt == SERVER_TTL_IN_MILLIS;
    server := m.FirstActiveServer(SERVER_TTL_IN_MILLIS);
  }

  /** k is the first unexpired position once everything before it expired and q[k] did not. */
  lemma {:induction false} FirstUnexpiredIs(q: seq<ServerProxy>, now: int, k: nat)
    requires k <= |q|
    requires forall i :: 0 <= i < k ==> q[i].timeoutAt <= now
    requires k < |q| ==> q[k].timeoutAt > now
    ensures FirstUnexpired(q, now) == k
    decreases k
  {
    if k > 0 {
      FirstUnexpiredIs(q[1..], now, k - 1);
    }
  }
}
