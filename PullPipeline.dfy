/** The background thread of the "pull" client: each turn of its loop waits on the
    application pipe and the router socket for at most the manager's next timeout, then
    processes what arrived, fails or re-sends the request in flight, and pings the servers. */
module PullPipeline {
  import opened Wrappers
  import opened Commands
  import opened WireProtocol
  import opened TimeoutQueue
  import opened ClientServerProxy
  import opened PullManager

  /** What one poll of the two sockets reports: an error (the context was shut down), or
      the message waiting on the pipe and the one waiting on the router, if any. */
  datatype Poll = PollError | Polled(outbox: Option<Message>, inbox: Option<Message>)

  /** One turn of the loop as seen from outside: the poll's outcome, the clock when the
      timeout is computed, and the clock for the rest of the turn. */
  datatype Turn = Turn(poll: Poll, before: int, now: int)

  /** A CONNECT from the application names a server (the client validates it before sending). */
  predicate ConnectNamesServer(poll: Poll) {
    poll.Polled? && poll.outbox.Some? && Parse(FrameAt(poll.outbox.value, 1)) == CONNECT ==>
      poll.outbox.value[0] != ""
  }

  /** The application sent a REQUEST while one is in flight: the strict request-reply
      assertion fails and ends the thread. */
  predicate SecondRequest(poll: Poll, inFlight: bool) {
    poll.Polled? && poll.outbox.Some? && Parse(FrameAt(poll.outbox.value, 1)) == REQUEST && inFlight
  }

  /** The message comes from endpoint `e` (its first frame, as the router reports it). */
  predicate From(msg: Message, e: string) {
    |msg| > 0 && msg[0] == e
  }

  /** The ping times of a set of proxies. */
  ghost function PingAtOf(ps: set<ServerProxy>): (r: map<ServerProxy, int>)
    reads ps`pingAt
    ensures r.Keys == ps && forall s :: s in ps ==> r[s] == s.pingAt
  {
    map s | s in ps :: s.pingAt
  }

  /** The server registered under `e` has the ping time it had (`pingAt0`, among the proxies
      `known0`), unless it is new or the reply came from it: then it starts again from `now`. */
  ghost predicate PingTimeKept(m: Manager, e: string, inbox: Option<Message>, now: int,
                               known0: set<ServerProxy>, pingAt0: map<ServerProxy, int>)
    requires e in m.servers && known0 <= pingAt0.Keys
    reads m`servers, m.servers.Values`pingAt
  {
    var s := m.servers[e];
    s.pingAt == if s in known0 && !(inbox.Some? && From(inbox.value, e)) then pingAt0[s] else now + PING_INTERVAL_IN_MILLIS
  }

  /** One iteration of the loop. `timeout` is what the poll waited for; `running` is false
      when the loop ends (a poll error, or a failed request-reply assertion). A turn that
      goes on ends with the ping round: `routed` is what the router had been sent before
      it, and `pingTimes` the ping times of the servers, in registry order, when it began. */
  method Step(m: Manager, turn: Turn) returns (timeout: int, running: bool, ghost routed: seq<Message>, ghost pingTimes: seq<int>)
    requires m.Valid() && ConnectNamesServer(turn.poll)
    modifies m, m.Repr
    ensures m.Valid()
    ensures timeout == (var d := DropDue(old(m.timeouts), turn.before);
      if d == [] then ONE_MINUTE_IN_MILLIS else d[0] - turn.before)
    ensures timeout > 0
    ensures forall s :: s in m.Repr ==> s in old(m.Repr) || fresh(s)
    ensures !running <==> turn.poll.PollError? || SecondRequest(turn.poll, old(m.currentRequest).Some?)
    ensures !running ==> m.currentRequest == old(m.currentRequest)
    ensures turn.poll.PollError? ==>
      && m.timeouts == DropDue(old(m.timeouts), turn.before)
      && m.Snapshot() == old(m.Snapshot()).(timeouts := m.timeouts)
      && m.Repr == old(m.Repr) && forall s :: s in old(m.Repr) ==> unchanged(s)
    ensures running && m.currentRequest.Some? ==> turn.now < m.currentRequestTimeout
    ensures running ==> forall e :: e in m.servers ==> m.servers[e].pingAt > turn.now
    ensures running ==>
      var ps := m.ServersInOrder();
      && |pingTimes| == |ps|
      && m.toRouter == routed + DuePings(ps, pingTimes, m.localId, turn.now)
      && |old(m.toRouter)| <= |routed| <= |old(m.toRouter)| + 1 && routed[..|old(m.toRouter)|] == old(m.toRouter)
      && forall i :: 0 <= i < |ps| ==>
        pingTimes[i] == TurnPingTime(ps[i], turn.poll.inbox, turn.now, old(m.Repr), old(PingAtOf(m.Repr)))
  {
    timeout := m.NextTimeout(turn.before);
    routed, pingTimes := m.toRouter, [];
    if turn.poll.PollError? {
      running := false;
      return;
    }
    running := Serve(m, turn.poll.outbox, turn.poll.inbox, turn.now);
    if !running {
      return;
    }
    routed, pingTimes := PingRound(m, turn.poll.inbox, turn.now, old(m.Repr), old(PingAtOf(m.Repr)));
  }

  /** The end of a turn: pingAllServers. `pingTimes` are the ping times of the servers in
      registry order when the round begins, as the turn left them. */
  method PingRound(m: Manager, inbox: Option<Message>, now: int, ghost known0: set<ServerProxy>,
                   ghost pingAt0: map<ServerProxy, int>) returns (ghost routed: seq<Message>, ghost pingTimes: seq<int>)
    requires m.Valid() && known0 <= pingAt0.Keys
    requires forall e :: e in m.servers ==> PingTimeKept(m, e, inbox, now, known0, pingAt0)
    modifies m`toRouter, m.Repr`pingAt
    ensures m.Valid()
    ensures routed == old(m.toRouter)
    ensures forall e :: e in m.servers ==> m.servers[e].pingAt > now
    ensures var ps := m.ServersInOrder();
      && |pingTimes| == |ps|
      && m.toRouter == routed + DuePings(ps, pingTimes, m.localId, now)
      && forall i :: 0 <= i < |ps| ==> pingTimes[i] == TurnPingTime(ps[i], inbox, now, known0, pingAt0)
  {
    routed := m.toRouter;
    ghost var ps := m.ServersInOrder();
    pingTimes := PingTimes(ps);
    PingTimesOfTurn(m, ps, pingTimes, inbox, now, known0, pingAt0);
    m.PingAllServers(now);
  }

  /** The ping time a proxy has when the ping round of a turn begins: the one it had, unless it
      is new or the reply came from it. */
  ghost function TurnPingTime(s: ServerProxy, inbox: Option<Message>, now: int,
                              known0: set<ServerProxy>, pingAt0: map<ServerProxy, int>): int
    requires known0 <= pingAt0.Keys
  {
    if s in known0 && !(inbox.Some? && From(inbox.value, s.endpoint)) then pingAt0[s] else now + PING_INTERVAL_IN_MILLIS
  }

  /** The ping times of the servers in registry order, position by position. */
  lemma PingTimesOfTurn(m: Manager, ps: seq<ServerProxy>, pingTimes: seq<int>, inbox: Option<Message>, now: int,
                        known0: set<ServerProxy>, pingAt0: map<ServerProxy, int>)
    requires m.RegistryOk() && ps == m.ServersInOrder() && pingTimes == PingTimes(ps) && known0 <= pingAt0.Keys
    requires forall e :: e in m.servers ==> PingTimeKept(m, e, inbox, now, known0, pingAt0)
    ensures |pingTimes| == |ps| && forall i :: 0 <= i < |ps| ==> pingTimes[i] == TurnPingTime(ps[i], inbox, now, known0, pingAt0)
  {
    forall i | 0 <= i < |ps| ensures pingTimes[i] == TurnPingTime(ps[i], inbox, now, known0, pingAt0) {
      assert PingTimeKept(m, m.endpoints[i], inbox, now, known0, pingAt0);
    }
  }

  /** The middle of a turn: the readable sockets are served, then the request in flight is
      failed or sent. Each registered server's ping time is still the one it had, unless it
      is new or just replied: then the ping time starts again from `now`. */
  method Serve(m: Manager, outbox: Option<Message>, inbox: Option<Message>, now: int) returns (ok: bool)
    requires m.Valid()
    requires outbox.Some? && Parse(FrameAt(outbox.value, 1)) == CONNECT ==> outbox.value[0] != ""
    modifies m, m.Repr
    ensures m.Valid()
    ensures forall s :: s in m.Repr ==> s in old(m.Repr) || fresh(s)
    ensures ok <==> !(outbox.Some? && Parse(FrameAt(outbox.value, 1)) == REQUEST && old(m.currentRequest).Some?)
    ensures !ok ==> m.currentRequest == old(m.currentRequest)
    ensures ok && m.currentRequest.Some? ==> now < m.currentRequestTimeout
    ensures |old(m.toRouter)| <= |m.toRouter| <= |old(m.toRouter)| + 1 && m.toRouter[..|old(m.toRouter)|] == old(m.toRouter)
    ensures ok ==> forall e :: e in m.servers ==> PingTimeKept(m, e, inbox, now, old(m.Repr), old(PingAtOf(m.Repr)))
  {
    ghost var created, alive0, deadline0;
    ghost var known0, pingAt0 := m.Repr, PingAtOf(m.Repr);
    ok, created, alive0, deadline0 := Receive(m, outbox, inbox, now);
    if !ok {
      return;
    }
    ghost var servers1 := m.servers;
    Advance(m, now);
    assert m.servers == servers1;
    assert forall e :: e in m.servers ==> PingTimeKept(m, e, inbox, now, known0, pingAt0);
  }

  /** The loop of the thread, over the turns it is given: it runs turn after turn until one
      of them ends it. `taken` counts the turns run, the last one included. */
  method Run(m: Manager, turns: seq<Turn>) returns (taken: nat, running: bool)
    requires m.Valid()
    requires forall i :: 0 <= i < |turns| ==> ConnectNamesServer(turns[i].poll)
    modifies m, m.Repr
    ensures m.Valid()
    ensures taken <= |turns|
    ensures running ==> taken == |turns|
    ensures !running ==> 0 < taken && (turns[taken - 1].poll.PollError? || SecondRequest(turns[taken - 1].poll, m.currentRequest.Some?))
    ensures forall i :: 0 <= i < taken && (running || i < taken - 1) ==> turns[i].poll.Polled?
  {
    taken, running := 0, true;
    while taken < |turns| && running
      invariant m.Valid() && taken <= |turns|
      invariant forall s :: s in m.Repr ==> s in old(m.Repr) || fresh(s)
      invariant !running ==> 0 < taken && (turns[taken - 1].poll.PollError? || SecondRequest(turns[taken - 1].poll, m.currentRequest.Some?))
      invariant forall i :: 0 <= i < taken && (running || i < taken - 1) ==> turns[i].poll.Polled?
    {
      var timeout;
      ghost var routed, pingTimes;
      timeout, running, routed, pingTimes := Step(m, turns[taken]);
      taken := taken + 1;
    }
  }

  /** The readable sockets are served, the application's pipe first: processOutbox, then
      processInbox. `ok` is false when the outbox held a second REQUEST (the assertion
      failed and the thread ends before the inbox is read). The manager's fields end as
      AfterOutbox then AfterInbox leave them; `created` is the proxy a CONNECT made, and
      `alive0`/`deadline0` what the reply's sender had when the reply was read. */
  method Receive(m: Manager, outbox: Option<Message>, inbox: Option<Message>, now: int)
    returns (ok: bool, ghost created: Option<ServerProxy>, ghost alive0: bool, ghost deadline0: int)
    requires m.Valid()
    requires outbox.Some? && Parse(FrameAt(outbox.value, 1)) == CONNECT ==> outbox.value[0] != ""
    modifies m, m.Repr
    ensures m.Valid()
    ensures forall s :: s in m.Repr ==> s in old(m.Repr) || fresh(s)
    ensures ok <==> !(outbox.Some? && Parse(FrameAt(outbox.value, 1)) == REQUEST && old(m.currentRequest).Some?)
    ensures !ok ==> m.Snapshot() == old(m.Snapshot())
    ensures m.toRouter == old(m.toRouter)
    ensures created.Some? <==> outbox.Some? && Parse(FrameAt(outbox.value, 1)) == CONNECT
    ensures created.Some? ==>
      fresh(created.value) && outbox.value[0] in m.servers && m.servers[outbox.value[0]] == created.value
      && created.value.pingAt == now + PING_INTERVAL_IN_MILLIS
    ensures forall s :: s in m.Repr ==> s in old(m.Repr) || created == Some(s)
    ensures ok ==>
      var mid := if outbox.Some? then AfterOutbox(old(m.Snapshot()), outbox.value, now, created) else old(m.Snapshot());
      m.Snapshot() == if inbox.Some? then AfterInbox(mid, inbox.value, now, alive0, deadline0) else mid
    ensures ok && inbox.Some? && created.Some? && From(inbox.value, created.value.endpoint) ==>
      !alive0 && deadline0 == now + SERVER_TTL_IN_MILLIS
    ensures ok && inbox.Some? && !(created.Some? && From(inbox.value, created.value.endpoint)) ==>
      alive0 == old(m.SenderAlive(inbox.value)) && deadline0 == old(m.SenderDeadline(inbox.value))
    ensures ok && inbox.Some? && m.FromRegistered(inbox.value) ==>
      var s := m.servers[inbox.value[0]];
      s.isAlive && s.pingAt == now + PING_INTERVAL_IN_MILLIS && s.timeoutAt == now + SERVER_TTL_IN_MILLIS
    ensures forall s :: s in old(m.Repr) && (!ok || inbox.None? || s !in m.Sender(inbox.value)) ==> unchanged(s)
    ensures ok ==> forall e :: e in m.servers ==> PingTimeKept(m, e, inbox, now, old(m.Repr), old(PingAtOf(m.Repr)))
  {
    alive0, deadline0 := false, 0;
    ghost var known0, pingAt0 := m.Repr, PingAtOf(m.Repr);
    ok, created := ReadOutbox(m, outbox, now);
    if !ok {
      return;
    }
    ghost var known1, pingAt1 := m.Repr, PingAtOf(m.Repr);
    KeptAfterOutbox(m, now, known0, pingAt0, known1, pingAt1);
    alive0, deadline0 := ReadInbox(m, inbox, now);
    KeptAcross(m, inbox, now, known0, pingAt0, known1, pingAt1);
  }

  /** After processOutbox, the ping times of the registered servers as values. */
  lemma KeptAfterOutbox(m: Manager, now: int, known0: set<ServerProxy>, pingAt0: map<ServerProxy, int>,
                        known1: set<ServerProxy>, pingAt1: map<ServerProxy, int>)
    requires m.RegistryOk() && known1 == m.Repr && pingAt1 == PingAtOf(m.Repr) && known0 <= pingAt0.Keys
    requires forall e :: e in m.servers ==> PingTimeKept(m, e, None, now, known0, pingAt0)
    ensures forall e :: e in m.servers ==>
      (m.servers[e] in known1 &&
       pingAt1[m.servers[e]] == if m.servers[e] in known0 then pingAt0[m.servers[e]] else now + PING_INTERVAL_IN_MILLIS)
  {
  }

  /** A ping time kept through processOutbox and then through processInbox is kept through both. */
  lemma KeptAcross(m: Manager, inbox: Option<Message>, now: int, known0: set<ServerProxy>, pingAt0: map<ServerProxy, int>,
                   known1: set<ServerProxy>, pingAt1: map<ServerProxy, int>)
    requires known0 <= pingAt0.Keys && known1 <= pingAt1.Keys
    requires forall e :: e in m.servers ==>
      (m.servers[e] in known1 &&
       pingAt1[m.servers[e]] == if m.servers[e] in known0 then pingAt0[m.servers[e]] else now + PING_INTERVAL_IN_MILLIS)
    requires forall e :: e in m.servers ==> PingTimeKept(m, e, inbox, now, known1, pingAt1)
    ensures forall e :: e in m.servers ==> PingTimeKept(m, e, inbox, now, known0, pingAt0)
  {
  }

  /** processOutbox, when the pipe had a message. */
  method ReadOutbox(m: Manager, outbox: Option<Message>, now: int) returns (ok: bool, ghost created: Option<ServerProxy>)
    requires m.Valid()
    requires outbox.Some? && Parse(FrameAt(outbox.value, 1)) == CONNECT ==> outbox.value[0] != ""
    modifies m
    ensures m.Valid()
    ensures forall s :: s in m.Repr ==> s in old(m.Repr) || fresh(s)
    ensures ok <==> !(outbox.Some? && Parse(FrameAt(outbox.value, 1)) == REQUEST && old(m.currentRequest).Some?)
    ensures created.Some? <==> outbox.Some? && Parse(FrameAt(outbox.value, 1)) == CONNECT
    ensures created.Some? ==>
      fresh(created.value) && outbox.value[0] in m.servers && m.servers[outbox.value[0]] == created.value
      && created.value.endpoint == outbox.value[0] && !created.value.isAlive
      && created.value.pingAt == now + PING_INTERVAL_IN_MILLIS && created.value.timeoutAt == now + SERVER_TTL_IN_MILLIS
    ensures forall s :: s in m.Repr ==> s in old(m.Repr) || created == Some(s)
    ensures forall e :: e in old(m.servers) && !(created.Some? && e == created.value.endpoint) ==>
      e in m.servers && m.servers[e] == old(m.servers[e])
    ensures m.Snapshot() == if outbox.Some? then AfterOutbox(old(m.Snapshot()), outbox.value, now, created) else old(m.Snapshot())
    ensures forall e :: e in m.servers ==> PingTimeKept(m, e, None, now, old(m.Repr), old(PingAtOf(m.Repr)))
  {
    ok, created := true, None;
    ghost var pingAt0 := PingAtOf(m.Repr);
    if outbox.Some? {
      ok := m.ProcessOutbox(outbox.value, now);
      if ok && Parse(FrameAt(outbox.value, 1)) == CONNECT {
        created := Some(m.servers[outbox.value[0]]);
      }
    }
    forall e | e in m.servers ensures PingTimeKept(m, e, None, now, old(m.Repr), pingAt0) {
      if m.servers[e] !in old(m.Repr) {
        assert created == Some(m.servers[e]);
      }
    }
  }

  /** processInbox, when the router had a message; `alive0` and `deadline0` are what its
      sender had before. */
  method ReadInbox(m: Manager, inbox: Option<Message>, now: int) returns (ghost alive0: bool, ghost deadline0: int)
    requires m.Valid()
    modifies m`activeServers, m`timeouts, m`toPipe, m`currentRequest, m.Repr
    ensures m.Valid()
    ensures inbox.Some? ==> alive0 == old(m.SenderAlive(inbox.value)) && deadline0 == old(m.SenderDeadline(inbox.value))
    ensures m.Snapshot() == if inbox.Some? then AfterInbox(old(m.Snapshot()), inbox.value, now, alive0, deadline0) else old(m.Snapshot())
    ensures inbox.Some? && m.FromRegistered(inbox.value) ==>
      var s := m.servers[inbox.value[0]];
      s.isAlive && s.pingAt == now + PING_INTERVAL_IN_MILLIS && s.timeoutAt == now + SERVER_TTL_IN_MILLIS
    ensures forall s :: s in m.Repr && (inbox.None? || s !in m.Sender(inbox.value)) ==> unchanged(s)
    ensures forall e :: e in m.servers ==> PingTimeKept(m, e, inbox, now, old(m.Repr), old(PingAtOf(m.Repr)))
  {
    alive0, deadline0 := false, 0;
    if inbox.Some? {
      alive0, deadline0 := m.SenderAlive(inbox.value), m.SenderDeadline(inbox.value);
      m.ProcessInbox(inbox.value, now);
    }
  }

  /** The request in flight, if any: failed with ERROR once its deadline has passed,
      otherwise sent (again) to the first server still within its time to live. */
  method Advance(m: Manager, now: int)
    requires m.Valid()
    modifies m`currentRequest, m`toPipe, m`activeServers, m`toRouter, m.Repr`isAlive, m.Repr`transitions
    ensures m.Valid()
    ensures old(m.currentRequest).Some? && m.currentRequestTimeout <= now ==>
      m.currentRequest == None && m.toPipe == old(m.toPipe) + [["ERROR"]] && m.toRouter == old(m.toRouter)
    ensures old(m.currentRequest).Some? && now < m.currentRequestTimeout ==>
      m.currentRequest == old(m.currentRequest) && m.toPipe == old(m.toPipe)
      && m.toRouter == old(m.toRouter) + (
        var q := old(m.activeServers); var k := old(FirstUnexpired(m.activeServers, now));
        if k < |q| then [q[k].Addressed(m.currentRequest.value)] else [])
    ensures old(m.currentRequest).None? ==>
      m.currentRequest == None && m.toPipe == old(m.toPipe) && m.toRouter == old(m.toRouter)
    ensures m.currentRequest.Some? ==> now < m.currentRequestTimeout
  {
    if m.IsProcessingRequest() {
      if m.IsRequestExpired(now) {
        m.DestroyCurrentRequestAndReturnFailed();
      } else {
        m.SendRequestToFirstActiveServer(now);
      }
    }
  }
}
