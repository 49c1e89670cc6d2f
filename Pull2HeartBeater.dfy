/** The heartbeat thread of the second "pull" client. Each cycle pings every server whose
    ping time has passed (deactivating first the ones silent for a whole period), then polls
    its socket for one ping period, handling the PONG replies as they arrive. The clock is a
    nanosecond ticker whose readings are passed in. */
module Pull2HeartBeater {
  import opened Wrappers
  import opened Commands
  import opened WireProtocol
  import opened Durations
  import opened Pull2ServerProxy

  /** The argument checks of the constructor, in order; None when all four are present. */
  function HeartBeaterArgumentsError(hasSocket: bool, hasServers: bool, pingFrequency: Option<Duration>, hasTicker: bool)
    : (r: Option<string>)
    ensures r.None? <==> hasSocket && hasServers && pingFrequency.Some? && hasTicker
    ensures !hasSocket ==> r == Some("Socket must NOT be null.")
    ensures hasSocket && !hasServers ==> r == Some("Server repository must NOT be null.")
    ensures hasSocket && hasServers && pingFrequency.None? ==> r == Some("Ping frequency must NOT be null.")
    ensures hasSocket && hasServers && pingFrequency.Some? && !hasTicker ==> r == Some("Ticker must NOT be null.")
  {
    if !hasSocket then Some("Socket must NOT be null.")
    else if !hasServers then Some("Server repository must NOT be null.")
    else if pingFrequency.None? then Some("Ping frequency must NOT be null.")
    else if !hasTicker then Some("Ticker must NOT be null.")
    else None
  }

  /** toString of the heart beater, which is also the source identity of its pings. */
  function Identity(socketType: string, pingFrequency: Duration): string {
    "HeartBeater{socket=" + socketType + ", frequency=" + ToString(pingFrequency) + "}"
  }

  /** The server repository: every proxy is registered under its own endpoint, and `order`
      lists each key once (the iteration order of the map's values). */
  predicate Repository(servers: map<string, ServerProxy>, order: seq<string>) {
    && (forall i, j :: 0 <= i < j < |order| ==> order[i] != order[j])
    && (forall i :: 0 <= i < |order| ==> order[i] in servers)
    && (forall e :: e in servers ==> e in order)
    && (forall e :: e in servers ==> servers[e].endpoint == e)
  }

  /** A proxy whose ping time has passed is pinged; one silent for a whole period besides
      is deactivated first. */
  predicate Deactivates(pingAt: int, frequency: int, now: int) {
    pingAt < now && pingAt < now - frequency
  }

  /** A due server whose ping cannot go out: the protocol rejects an empty endpoint, and a
      failed send ends the thread. */
  predicate Blocks(endpoint: string, pingAt: int, sendOk: bool, now: int) {
    pingAt < now && (endpoint == "" || !sendOk)
  }

  function Endpoints(ps: seq<ServerProxy>): (r: seq<string>)
    ensures |r| == |ps| && forall i :: 0 <= i < |ps| ==> r[i] == ps[i].endpoint
  {
    if ps == [] then [] else [ps[0].endpoint] + Endpoints(ps[1..])
  }

  function PingTimes(ps: seq<ServerProxy>): (r: seq<int>)
    reads ps`pingAt
    ensures |r| == |ps| && forall i :: 0 <= i < |ps| ==> r[i] == ps[i].pingAt
  {
    if ps == [] then [] else [ps[0].pingAt] + PingTimes(ps[1..])
  }

  /** Where the ping phase stops: the first due server whose ping is blocked, or the end. */
  function Stop(endpoints: seq<string>, times: seq<int>, sendOk: seq<bool>, now: int): (k: nat)
    requires |times| == |endpoints| && |sendOk| == |endpoints|
    ensures k <= |endpoints|
    ensures forall i :: 0 <= i < k ==> !Blocks(endpoints[i], times[i], sendOk[i], now)
    ensures k < |endpoints| ==> Blocks(endpoints[k], times[k], sendOk[k], now)
  {
    if endpoints == [] then 0
    else if Blocks(endpoints[0], times[0], sendOk[0], now) then 0
    else 1 + Stop(endpoints[1..], times[1..], sendOk[1..], now)
  }

  /** The phase stops at `k` when no server before `k` is blocked and `k` is either the end
      or a blocked server. */
  lemma StopAt(endpoints: seq<string>, times: seq<int>, sendOk: seq<bool>, now: int, k: nat)
    requires |times| == |endpoints| && |sendOk| == |endpoints| && k <= |endpoints|
    requires forall i :: 0 <= i < k ==> !Blocks(endpoints[i], times[i], sendOk[i], now)
    requires k < |endpoints| ==> Blocks(endpoints[k], times[k], sendOk[k], now)
    ensures Stop(endpoints, times, sendOk, now) == k
  {
  }

  /** The pings of the servers due at `now`, in order. */
  function Pings(id: string, endpoints: seq<string>, times: seq<int>, now: int): (r: seq<Message>)
    requires |times| == |endpoints|
    ensures |r| <= |endpoints|
    ensures forall i :: 0 <= i < |r| ==> |r[i]| == 3 && r[i][1] == "PING" && r[i][2] == id
  {
    if endpoints == [] then []
    else
      var n := |endpoints| - 1;
      Pings(id, endpoints[..n], times[..n], now) + (if times[n] < now then [[endpoints[n], "PING", id]] else [])
  }

  /** A server is pinged exactly when it is due. */
  lemma {:induction false} PingedIffDue(id: string, endpoints: seq<string>, times: seq<int>, now: int, e: string)
    requires |times| == |endpoints|
    ensures [e, "PING", id] in Pings(id, endpoints, times, now) <==>
      exists i :: 0 <= i < |endpoints| && endpoints[i] == e && times[i] < now
    decreases |endpoints|
  {
    if endpoints != [] {
      var n := |endpoints| - 1;
      PingedIffDue(id, endpoints[..n], times[..n], now, e);
      var prefix := Pings(id, endpoints[..n], times[..n], now);
      var all := Pings(id, endpoints, times, now);
      assert all == prefix + if times[n] < now then [[endpoints[n], "PING", id]] else [];
      if [e, "PING", id] in prefix {
        var i :| 0 <= i < n && endpoints[..n][i] == e && times[..n][i] < now;
        assert endpoints[i] == e && times[i] < now;
      }
      if exists i :: 0 <= i < |endpoints| && endpoints[i] == e && times[i] < now {
        var i :| 0 <= i < |endpoints| && endpoints[i] == e && times[i] < now;
        if i < n {
          assert endpoints[..n][i] == e && times[..n][i] < now;
        }
      }
    }
  }

  /** With distinct endpoints, no server receives more than one ping in a phase. */
  lemma {:induction false} PingedAtMostOnce(id: string, endpoints: seq<string>, times: seq<int>, now: int, e: string)
    requires |times| == |endpoints|
    requires forall i, j :: 0 <= i < j < |endpoints| ==> endpoints[i] != endpoints[j]
    ensures |set m | m in Pings(id, endpoints, times, now) && m[0] == e| <= 1
    decreases |endpoints|
  {
    if endpoints != [] {
      var n := |endpoints| - 1;
      var prefix := Pings(id, endpoints[..n], times[..n], now);
      PingedAtMostOnce(id, endpoints[..n], times[..n], now, e);
      var all := Pings(id, endpoints, times, now);
      assert all == prefix + if times[n] < now then [[endpoints[n], "PING", id]] else [];
      if endpoints[n] == e {
        PingsTo(id, endpoints[..n], times[..n], now);
        assert forall i :: 0 <= i < n ==> endpoints[..n][i] != e;
        assert (set m | m in prefix && m[0] == e) == {};
        assert (set m | m in all && m[0] == e) <= {[e, "PING", id]};
        SubsetCard((set m | m in all && m[0] == e), {[e, "PING", id]});
      } else {
        assert (set m | m in all && m[0] == e) == (set m | m in prefix && m[0] == e);
      }
    }
  }

  /** Every ping is addressed to one of the endpoints. */
  lemma {:induction false} PingsTo(id: string, endpoints: seq<string>, times: seq<int>, now: int)
    requires |times| == |endpoints|
    ensures forall m :: m in Pings(id, endpoints, times, now) ==> exists i :: 0 <= i < |endpoints| && m[0] == endpoints[i]
    decreases |endpoints|
  {
    if endpoints != [] {
      var n := |endpoints| - 1;
      PingsTo(id, endpoints[..n], times[..n], now);
      forall m | m in Pings(id, endpoints, times, now)
        ensures exists i :: 0 <= i < |endpoints| && m[0] == endpoints[i]
      {
        if m in Pings(id, endpoints[..n], times[..n], now) {
          var i :| 0 <= i < n && m[0] == endpoints[..n][i];
          assert m[0] == endpoints[i];
        } else {
          assert m[0] == endpoints[n];
        }
      }
    }
  }

  lemma SubsetCard<T>(a: set<T>, b: set<T>)
    requires a <= b
    ensures |a| <= |b|
  {
    if a != {} {
      var x :| x in a;
      SubsetCard(a - {x}, b - {x});
    }
  }

  /** Taking one more server into the ping phase appends its ping, if it is due. */
  lemma PingsStep(id: string, endpoints: seq<string>, times: seq<int>, now: int, i: nat)
    requires |times| == |endpoints| && i < |endpoints|
    ensures Pings(id, endpoints[..i + 1], times[..i + 1], now)
         == Pings(id, endpoints[..i], times[..i], now) + (if times[i] < now then [[endpoints[i], "PING", id]] else [])
  {
    assert endpoints[..i + 1][..i] == endpoints[..i];
    assert times[..i + 1][..i] == times[..i];
  }

  /** The active flags of the proxies, in order. */
  function Actives(ps: seq<ServerProxy>): (r: seq<bool>)
    reads ps`isActive
    ensures |r| == |ps| && forall i :: 0 <= i < |ps| ==> r[i] == ps[i].isActive
  {
    if ps == [] then [] else [ps[0].isActive] + Actives(ps[1..])
  }

  /** The active flags after the first `done` proxies went through the ping phase. */
  ghost predicate DeactivatedUpTo(ps: seq<ServerProxy>, active: seq<bool>, at: seq<int>, done: int, now: int)
    requires |active| == |ps| && |at| == |ps|
    reads ps`isActive
  {
    forall j :: 0 <= j < |ps| ==> ps[j].isActive == (active[j] && !(j < done && Deactivates(at[j], ps[j].frequency, now)))
  }

  /** Where the ping phase stands after the first `i` servers: none of them was blocked
      (unless `blocked`, when the i-th one just was), the due ones were pinged in order, and
      the silent ones deactivated. */
  ghost predicate Progress(ps: seq<ServerProxy>, active: seq<bool>, es: seq<string>, at: seq<int>, sendOk: seq<bool>,
                           id: string, now: int, i: nat, blocked: bool, pings: seq<Message>)
    reads ps`isActive
  {
    && |active| == |ps| && |es| == |ps| && |at| == |ps| && |sendOk| == |ps| && i <= |ps|
    && (forall j :: 0 <= j < i ==> !Blocks(es[j], at[j], sendOk[j], now))
    && (blocked ==> i < |ps| && Blocks(es[i], at[i], sendOk[i], now))
    && pings == Pings(id, es[..i], at[..i], now)
    && DeactivatedUpTo(ps, active, at, if blocked then i + 1 else i, now)
  }

  /** The i-th server of the ping phase: if it is due, it is deactivated when silent for a
      whole period, then pinged unless its ping is blocked. */
  method PingNext(p: ServerProxy, ps: seq<ServerProxy>, ghost active: seq<bool>, ghost es: seq<string>, ghost at: seq<int>,
                  sendOk: seq<bool>, id: string, now: int, i: nat, pings: seq<Message>)
    returns (blocked: bool, next: nat, pings': seq<Message>)
    requires Progress(ps, active, es, at, sendOk, id, now, i, false, pings)
    requires i < |ps| && p == ps[i] && es[i] == p.endpoint && at[i] == p.pingAt
    requires forall j, k :: 0 <= j < k < |ps| ==> ps[j] != ps[k]
    modifies p`isActive, p`transitions
    ensures next == if blocked then i else i + 1
    ensures Progress(ps, active, es, at, sendOk, id, now, next, blocked, pings')
  {
    PingsStep(id, es, at, now, i);
    pings', blocked, next := pings, false, i + 1;
    if p.ShouldBePinged(now) {
      if p.ShouldBeDeactivated(now) {
        p.Deactivate();
      }
      if p.endpoint == "" || !sendOk[i] {
        blocked, next := true, i;
      } else {
        pings' := pings + [[p.endpoint, "PING", id]];
      }
    }
  }

  /** The ping phase over the proxies in iteration order: each due proxy is deactivated if
      it has been silent for a whole period, then pinged; the phase ends early, with
      `cont` false, at the first due proxy whose ping is blocked. No ping time moves. */
  method PingEach(ps: seq<ServerProxy>, id: string, now: int, sendOk: seq<bool>) returns (pings: seq<Message>, cont: bool)
    requires |sendOk| == |ps|
    requires forall i, j :: 0 <= i < j < |ps| ==> ps[i] != ps[j]
    modifies ps`isActive, ps`transitions
    ensures var at := old(PingTimes(ps)); var k := Stop(Endpoints(ps), at, sendOk, now);
      && (cont <==> k == |ps|)
      && pings == Pings(id, Endpoints(ps)[..k], at[..k], now)
      && DeactivatedUpTo(ps, old(Actives(ps)), at, k + 1, now)
  {
    ghost var es := Endpoints(ps);
    ghost var at := PingTimes(ps);
    ghost var active := Actives(ps);
    pings := [];
    var i, blocked := 0, false;
    assert es[..0] == [] && at[..0] == [];
    while i < |ps| && !blocked
      decreases |ps| - i, if blocked then 0 else 1
      invariant Progress(ps, active, es, at, sendOk, id, now, i, blocked, pings)
    {
      blocked, i, pings := PingNext(ps[i], ps, active, es, at, sendOk, id, now, i, pings);
    }
    cont := !blocked;
    StopAt(es, at, sendOk, now, i);
    if !blocked {
      assert es[..i] == es && at[..i] == at;
    }
  }

  /** Who a reply is a PONG from: its first frame, when its command is PONG. */
  function PongSender(m: Message): (r: Option<string>)
    ensures r.Some? <==> |m| >= 2 && Parse(Some(m[1])) == PONG
    ensures r.Some? ==> r.value == m[0]
  {
    if Parse(FrameAt(m, 1)) == PONG then Some(m[0]) else None
  }

  /** A server answers the heart beater's PING with a PONG the heart beater takes as coming
      from the endpoint it pinged. */
  lemma PongAnswersPing(server: Protocol, id: string, endpoint: string, provider: string -> string)
    requires endpoint != ""
    ensures var reply := ReplyTo(server, [endpoint, "PING", id], provider);
      reply.Success? && PongSender(reply.value) == Some(endpoint)
  {
    ReplyToPing(server, Protocol(id), endpoint, provider);
    ParseName(PONG);
  }

  /** What the receive after a wake returned. */
  datatype Receipt =
    | Nothing           // the socket was not readable: the poll timed out
    | NullReply         // recvMsg returned null
    | SigTerm           // recvMsg was interrupted by the context's termination
    | OtherError        // any other ZMQException, logged and ignored
    | Reply(msg: Message)

  /** One return of the poll: an error, or the clock reading at the wake and what was received. */
  datatype Wake = PollFailed | Woke(at: int, received: Receipt)

  /** A wake that ends the thread. */
  predicate Fatal(w: Wake) {
    w.PollFailed? || (w.Woke? && (w.received.NullReply? || w.received.SigTerm?))
  }

  /** The clock of the last wake among `ws` that delivered a PONG from `e`. */
  function LastPong(e: string, ws: seq<Wake>): (r: Option<int>)
    ensures r.Some? <==> exists i :: 0 <= i < |ws| && ws[i].Woke? && ws[i].received.Reply? && PongSender(ws[i].received.msg) == Some(e)
    ensures r.Some? ==> exists i :: 0 <= i < |ws| && ws[i].Woke? && ws[i].at == r.value && ws[i].received.Reply?
  {
    if ws == [] then None
    else
      var n := |ws| - 1;
      var w := ws[n];
      if w.Woke? && w.received.Reply? && PongSender(w.received.msg) == Some(e) then Some(w.at)
      else
        var r := LastPong(e, ws[..n]);
        assert r.Some? ==> exists i :: 0 <= i < n && ws[i].Woke? && ws[i].at == r.value && ws[i].received.Reply? by {
          if r.Some? {
            var i :| 0 <= i < n && ws[..n][i].Woke? && ws[..n][i].at == r.value && ws[..n][i].received.Reply?;
            assert ws[i] == ws[..n][i];
          }
        }
        assert (exists i :: 0 <= i < n && ws[..n][i].Woke? && ws[..n][i].received.Reply? && PongSender(ws[..n][i].received.msg) == Some(e))
          <==> (exists i :: 0 <= i < |ws| && ws[i].Woke? && ws[i].received.Reply? && PongSender(ws[i].received.msg) == Some(e)) by {
          if exists i :: 0 <= i < |ws| && ws[i].Woke? && ws[i].received.Reply? && PongSender(ws[i].received.msg) == Some(e) {
            var i :| 0 <= i < |ws| && ws[i].Woke? && ws[i].received.Reply? && PongSender(ws[i].received.msg) == Some(e);
            assert i < n && ws[..n][i] == ws[i];
          }
        }
        r
  }

  /** The clock from which poll `i` of the phase waits: the start, then each wake in turn. */
  function PollFrom(start: int, wakes: seq<Wake>, i: nat): int
    requires i <= |wakes| && (i > 0 ==> wakes[i - 1].Woke?)
  {
    if i == 0 then start else wakes[i - 1].at
  }

  class HeartBeater {
    const id: string
    const pingFrequency: Duration
    /** The ping frequency in nanoseconds, converted once at construction. */
    const period: int
    const servers: map<string, ServerProxy>
    const order: seq<string>

    ghost predicate Valid() {
      Repository(servers, order)
    }

    constructor (socketType: string, servers: map<string, ServerProxy>, order: seq<string>, pingFrequency: Duration)
      requires Repository(servers, order)
      ensures Valid()
      ensures id == Identity(socketType, pingFrequency) && this.pingFrequency == pingFrequency
      ensures period == ToNanos(pingFrequency)
      ensures this.servers == servers && this.order == order
    {
      id := Identity(socketType, pingFrequency);
      this.pingFrequency := pingFrequency;
      period := ToNanos(pingFrequency);
      this.servers := servers;
      this.order := order;
    }

    /** The proxies in iteration order; distinct, since each is registered under its own endpoint. */
    function Proxies(): (ps: seq<ServerProxy>)
      requires Valid()
      ensures |ps| == |order| && (forall i :: 0 <= i < |order| ==> ps[i] == servers[order[i]])
      ensures forall i, j :: 0 <= i < j < |ps| ==> ps[i] != ps[j]
      ensures Endpoints(ps) == order
    {
      var ps := seq(|order|, i requires 0 <= i < |order| => servers[order[i]]);
      assert forall i, j :: 0 <= i < j < |ps| ==> ps[i].endpoint != ps[j].endpoint;
      ps
    }

    /** The ping phase of one cycle, at clock `now`: `pings` are the messages sent on the
        socket, in order; `sendOk[i]` is whether sending to the i-th server in iteration
        order succeeds. */
    method PingPhase(now: int, sendOk: seq<bool>) returns (pings: seq<Message>, cont: bool)
      requires Valid() && |sendOk| == |order|
      modifies servers.Values`isActive, servers.Values`transitions
      ensures var ps := Proxies(); var at := old(PingTimes(ps)); var k := Stop(order, at, sendOk, now);
        && (cont <==> k == |order|)
        && pings == Pings(id, order[..k], at[..k], now)
        && DeactivatedUpTo(ps, old(Actives(ps)), at, k + 1, now)
    {
      pings, cont := PingEach(Proxies(), id, now, sendOk);
    }

    /** handle: a PONG from a registered server activates it and pushes its ping time one
        period past `now`; any other reply changes nothing. */
    method Handle(reply: Message, now: int)
      requires Valid()
      requires PongSender(reply).Some? ==> PongSender(reply).value in servers
      modifies servers.Values`isActive, servers.Values`transitions, servers.Values`pingAt
      ensures forall e :: e in servers ==>
        if PongSender(reply) == Some(e) then
          servers[e].isActive && servers[e].pingAt == now + servers[e].frequency
        else
          servers[e].isActive == old(servers[e].isActive) && servers[e].pingAt == old(servers[e].pingAt)
    {
      var sender := PongSender(reply);
      if sender.Some? {
        var server := servers[sender.value];
        server.Activate();
        server.Refresh(now);
      }
    }

    /** The flags and ping times of the registered proxies as the PONGs among `ws` leave
        them, starting from `active0` and `pingAt0`. */
    ghost predicate PongsApplied(active0: map<string, bool>, pingAt0: map<string, int>, ws: seq<Wake>)
      reads servers.Values`isActive, servers.Values`pingAt
    {
      forall e :: e in servers && e in active0 && e in pingAt0 ==>
        match LastPong(e, ws)
        case Some(t) => servers[e].isActive && servers[e].pingAt == t + servers[e].frequency
        case None => servers[e].isActive == active0[e] && servers[e].pingAt == pingAt0[e]
    }

    /** What a wake received is handled: a reply goes to `Handle`, anything else is ignored. */
    method Receive(w: Wake, ghost active0: map<string, bool>, ghost pingAt0: map<string, int>, ghost ws: seq<Wake>)
      requires Valid() && PongsApplied(active0, pingAt0, ws)
      requires w.Woke? && w.received.Reply? && PongSender(w.received.msg).Some? ==> PongSender(w.received.msg).value in servers
      modifies servers.Values`isActive, servers.Values`transitions, servers.Values`pingAt
      ensures PongsApplied(active0, pingAt0, ws + [w])
    {
      assert (ws + [w])[..|ws|] == ws;
      if w.Woke? && w.received.Reply? {
        Handle(w.received.msg, w.at);
      }
    }

    /** The polling half of a cycle, started at clock `start`: it polls for what remains of
        one ping period and handles what each wake received, until the period is over or a
        wake ends the thread (`cont` false). `waits` are the poll timeouts in milliseconds. */
    method PollPhase(start: int, wakes: seq<Wake>) returns (taken: nat, cont: bool, waits: seq<int>)
      requires Valid()
      requires forall i :: 0 <= i < |wakes| && wakes[i].Woke? && wakes[i].received.Reply? ==>
        var s := PongSender(wakes[i].received.msg); s.Some? ==> s.value in servers
      modifies servers.Values`isActive, servers.Values`transitions, servers.Values`pingAt
      ensures Budget(start, period, wakes, taken, waits, cont)
      ensures cont && taken < |wakes| ==>
        if taken == 0 then period <= 0 else start + period <= wakes[taken - 1].at
      ensures forall e :: e in servers ==>
        match LastPong(e, wakes[..taken])
        case Some(t) => servers[e].isActive && servers[e].pingAt == t + servers[e].frequency
        case None => servers[e].isActive == old(servers[e].isActive) && servers[e].pingAt == old(servers[e].pingAt)
    {
      ghost var active0 := map e | e in servers :: servers[e].isActive;
      ghost var pingAt0 := map e | e in servers :: servers[e].pingAt;
      var end := start + period;
      var remaining := period;
      taken, cont, waits := 0, true, [];
      assert wakes[..0] == [];
      while cont && remaining > 0 && taken < |wakes|
        decreases |wakes| - taken
        invariant Budget(start, period, wakes, taken, waits, cont)
        invariant cont && taken == 0 ==> remaining == period
        invariant cont && taken > 0 ==> wakes[taken - 1].Woke? && remaining == end - wakes[taken - 1].at
        invariant PongsApplied(active0, pingAt0, wakes[..taken])
      {
        var w := wakes[taken];
        assert remaining == if taken == 0 then period else start + period - wakes[taken - 1].at;
        BudgetStep(start, period, wakes, taken, waits, remaining);
        waits := waits + [remaining / 1000000];
        if w.Woke? {
          remaining := end - w.at;
        }
        Receive(w, active0, pingAt0, wakes[..taken]);
        PrefixStep(wakes, taken);
        taken := taken + 1;
        cont := !Fatal(w);
      }
    }
  }

  /** The bookkeeping of the polling loop after `taken` wakes: every wake but the last came
      before the end of the period and did not end the thread; the last ended it exactly
      when `cont` is false; and each poll's timeout, in whole milliseconds, reaches the end
      of the period to within a millisecond without passing it. */
  ghost predicate Budget(start: int, period: int, wakes: seq<Wake>, taken: nat, waits: seq<int>, cont: bool) {
    && taken <= |wakes| && |waits| == taken
    && (forall i :: 0 <= i < taken - 1 ==> !Fatal(wakes[i]) && wakes[i].at < start + period)
    && (cont <==> taken == 0 || !Fatal(wakes[taken - 1]))
    && forall i :: 0 <= i < taken ==>
         && 0 <= waits[i]
         && PollFrom(start, wakes, i) + waits[i] * 1000000 <= start + period < PollFrom(start, wakes, i) + (waits[i] + 1) * 1000000
  }

  /** One more poll keeps the loop's bookkeeping: its timeout is what remains of the period
      in whole milliseconds. */
  lemma BudgetStep(start: int, period: int, wakes: seq<Wake>, taken: nat, waits: seq<int>, remaining: int)
    requires Budget(start, period, wakes, taken, waits, true)
    requires taken < |wakes| && 0 < remaining
    requires remaining == if taken == 0 then period else start + period - wakes[taken - 1].at
    ensures Budget(start, period, wakes, taken + 1, waits + [remaining / 1000000], !Fatal(wakes[taken]))
  {
    var w := remaining / 1000000;
    assert w * 1000000 <= remaining < (w + 1) * 1000000;
    var waits' := waits + [w];
    forall i | 0 <= i < taken + 1
      ensures 0 <= waits'[i]
      ensures PollFrom(start, wakes, i) + waits'[i] * 1000000 <= start + period < PollFrom(start, wakes, i) + (waits'[i] + 1) * 1000000
    {
      if i == taken {
        assert PollFrom(start, wakes, i) == start + period - remaining;
      }
    }
  }

  lemma PrefixStep<T>(s: seq<T>, n: nat)
    requires n < |s|
    ensures s[..n + 1] == s[..n] + [s[n]]
  {
  }

  /** The ping phase over a single due server whose ping goes out. */
  lemma OneServer(id: string, endpoint: string, pingAt: int, now: int)
    requires endpoint != "" && pingAt < now
    ensures Stop([endpoint], [pingAt], [true], now) == 1
    ensures Pings(id, [endpoint][..1], [pingAt][..1], now) == [[endpoint, "PING", id]]
  {
    assert [endpoint][..1] == [endpoint] && [pingAt][..1] == [pingAt];
    assert [endpoint][..0] == [] && [pingAt][..0] == [];
  }

  /** The ping phase against a single registered server that is due: it is pinged, and
      deactivated if it was silent for a whole period. */
  method PingSingle(hb: HeartBeater, server: ServerProxy, now: int) returns (pings: seq<Message>)
    requires hb.Valid() && hb.servers == map[server.endpoint := server] && hb.order == [server.endpoint]
    requires server.endpoint != "" && server.pingAt < now
    modifies server`isActive, server`transitions
    ensures pings == [[server.endpoint, "PING", hb.id]]
    ensures server.isActive == (old(server.isActive) && !Deactivates(server.pingAt, server.frequency, now))
  {
    assert hb.servers[server.endpoint] == server;
    assert hb.Proxies() == [server];
    OneServer(hb.id, server.endpoint, server.pingAt, now);
    var cont;
    pings, cont := hb.PingPhase(now, [true]);
  }

  /** The poll phase against a single registered server, with one wake inside a positive
      period: a PONG from the server activates it and moves its ping time one period past the
      wake; anything else leaves it as it was. */
  method PollSingle(hb: HeartBeater, server: ServerProxy, start: int, w: Wake)
    requires hb.Valid() && hb.servers == map[server.endpoint := server] && hb.order == [server.endpoint]
    requires hb.period > 0 && w.Woke?
    requires w.received.Reply? && PongSender(w.received.msg).Some? ==> PongSender(w.received.msg) == Some(server.endpoint)
    modifies server`isActive, server`transitions, server`pingAt
    ensures w.received.Reply? && PongSender(w.received.msg).Some? ==>
      server.isActive && server.pingAt == w.at + server.frequency
    ensures !(w.received.Reply? && PongSender(w.received.msg).Some?) ==>
      server.isActive == old(server.isActive) && server.pingAt == old(server.pingAt)
  {
    assert hb.servers[server.endpoint] == server;
    var taken, cont, waits := hb.PollPhase(start, [w]);
    assert taken == 1 && [w][..taken] == [w];
  }

  /** A server that is active but never answers: the first cycle pings it and leaves it
      active; the next one, a whole period later, deactivates it and pings it again, so it
      is found unresponsive at its second ping. */
  method UnansweredServerIsDeactivatedOnSecondPing()
    returns (first: seq<Message>, activeAfterFirst: bool, second: seq<Message>, activeAfterSecond: bool)
    ensures first == [["tcp://192.168.1.1:1337", "PING", Identity("PAIR", Duration(50, MILLISECONDS))]] && activeAfterFirst
    ensures second == first && !activeAfterSecond
  {
    var endpoint := "tcp://192.168.1.1:1337";
    var frequency := Duration(50, MILLISECONDS);
    assert ToNanos(frequency) == 50000000;
    var server := new ServerProxy(endpoint, frequency, 0);
    server.Activate();
    var hb := new HeartBeater("PAIR", map[endpoint := server], [endpoint], frequency);
    first := PingSingle(hb, server, 10);
    activeAfterFirst := server.isActive;
    PollSingle(hb, server, 10, Woke(50000010, Nothing));
    second := PingSingle(hb, server, 50000010);
    activeAfterSecond := server.isActive;
  }

  /** A new server that answers its first ping: the PONG activates it and moves its ping time
      one period past the moment the reply was handled, which is between one and two periods
      after the ping time it had when it was pinged. */
  method AnsweredServerIsActivated(provider: string -> string) returns (before: int, after: int, active: bool)
    ensures active && before + 50000000 < after < before + 2 * 50000000
  {
    var endpoint := "tcp://192.168.1.1:1337";
    var frequency := Duration(50, MILLISECONDS);
    assert ToNanos(frequency) == 50000000;
    var server := new ServerProxy(endpoint, frequency, 0);
    var hb := new HeartBeater("PAIR", map[endpoint := server], [endpoint], frequency);
    var pings := PingSingle(hb, server, 10);
    before := server.pingAt;
    PongAnswersPing(Protocol(endpoint), hb.id, endpoint, provider);
    var reply := ReplyTo(Protocol(endpoint), pings[0], provider).value;
    PollSingle(hb, server, 10, Woke(10000010, Reply(reply)));
    after := server.pingAt;
    active := server.isActive;
  }

  /** A server that answers its ping with a PING instead of a PONG: the reply is ignored, so
      the server stays inactive and keeps its ping time. */
  method PingReplyIsIgnored() returns (before: int, after: int, active: bool)
    ensures !active && after == before
  {
    var endpoint := "tcp://192.168.1.1:1337";
    var frequency := Duration(50, MILLISECONDS);
    assert ToNanos(frequency) == 50000000;
    var server := new ServerProxy(endpoint, frequency, 0);
    var hb := new HeartBeater("PAIR", map[endpoint := server], [endpoint], frequency);
    var pings := PingSingle(hb, server, 10);
    before := server.pingAt;
    var reply := Ping(Protocol(endpoint), Some(endpoint)).value;
    ParseName(PING);
    assert PongSender(reply) == None;
    PollSingle(hb, server, 10, Woke(10000010, Reply(reply)));
    after := server.pingAt;
    active := server.isActive;
  }
}
