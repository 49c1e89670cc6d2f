# zeromq-prototype: the Java client and server core in Dafny

This project models the Java half of zeromq-prototype, a request-reply prototype built on
ZeroMQ. Clients send a request (a UUID) to a pool of servers and get back the payload the
server's provider computes for it. Servers are kept track of by heartbeats (PING/PONG).

What is modelled:

- **The wire protocol.** Every message is a list of text frames: destination, command (or
  sequence number), source, then the payload. This covers the command tokenizer (`Commands`),
  the message builders and the server's `reply` (`WireProtocol`), and the decimal text of
  sequence numbers (`Decimal`).
- **The first "pull" client.** This is a background thread (`PullPipeline`) that drives a
  `Manager` (`PullManager`). The manager:
  - keeps a registry of servers in insertion order and a queue of servers to try;
  - keeps a priority queue of deadlines (`TimeoutQueue`);
  - keeps the one request in flight, under a fresh sequence number;
  - keeps one `ServerProxy` per server, with its liveness and its ping and expiry times
    (`ClientServerProxy`).
- **The second "pull" client's heartbeat thread** (`Pull2HeartBeater`). Each cycle pings the
  due servers, deactivating the silent ones. It then polls for one ping period, and every
  PONG activates its server (`Pull2ServerProxy`).
- **Utilities:**
  - `Durations`: `Duration` and the `TimeUnit` conversions it relies on, with Java's
    truncating division and saturation at the `long` range.
  - `MillisTicker`: the millisecond ticker.
  - `RetryPolicy`: the run-once retry policy.
  - `Ports`: the free-port reservation used by the tests.

How the model is shaped:

- State the source updates in place is modelled as classes with `modifies` frames. This covers
  the manager, both kinds of server proxy, the heart beater, the retry policy and the received
  message.
- Everything else is datatypes and functions.
- The clock, the sockets and the operating system become parameters:
  - the clock reading `now`;
  - what a poll returned;
  - whether a send or a bind succeeds.
- Messages the code sends are collected in sequence fields (`toPipe`, `toRouter`) or
  returned as results.

## Model

All paths are below `zeromq-java-server/src/main/java/com/carmatech/zeromq/`, except those under `src/test`.

| member | source | states |
|---|---|---|
| Commands.TryParse | zeromq-java-server/src/main/java/com/carmatech/zeromq/api/Command.java:18-24 | valueOf or UNKNOWN: a non-UNKNOWN result is the variant whose name is the token, and a token that is some variant's name yields that variant |
| Commands.Parse | zeromq-java-server/src/main/java/com/carmatech/zeromq/api/Command.java:8-16 | null or empty gives UNKNOWN; a numeric token gives SEQUENCE_NUMBER; otherwise a non-UNKNOWN result carries the token as its name; SEQUENCE_NUMBER comes only from a numeric token or its own name |
| Commands.NamesAreNotNumeric | zeromq-java-server/src/main/java/com/carmatech/zeromq/api/Command.java:12-13 | no command name is numeric, so the digit test never hides a name |
| Commands.ParseName | zeromq-java-server/src/main/java/com/carmatech/zeromq/api/Command.java:8-16 | parsing a variant's own name gives that variant back (round trip) |
| Commands.ParseOther | zeromq-java-server/src/main/java/com/carmatech/zeromq/api/Command.java:18-24 | a non-numeric token that is no exact variant name parses as UNKNOWN |
| Commands.ParseSequenceNumber | zeromq-java-server/src/main/java/com/carmatech/zeromq/api/Command.java:12-13 | the decimal text of every natural number parses as SEQUENCE_NUMBER |
| Decimal.NatToStringIsNumeric | zeromq-java-server/src/main/java/com/carmatech/zeromq/api/Command.java:12-13 | the decimal text of a natural number passes the numeric test |
| Decimal.ParseNatToString | zeromq-java-server/src/main/java/com/carmatech/zeromq/client/pull/Manager.java:159 | parseInt of Long.toString(n) gives n back (decimal round trip) |
| Decimal.NatToStringInjective | zeromq-java-server/src/main/java/com/carmatech/zeromq/client/pull/Manager.java:159 | distinct sequence numbers have distinct texts |
| Decimal.IntToStringNumeric | zeromq-java-server/src/main/java/com/carmatech/zeromq/api/Protocol.java:183-190 | Integer.toString(i) is numeric exactly when i >= 0 |
| WireProtocol.FrameAt | zeromq-java-server/src/main/java/com/carmatech/zeromq/api/Protocol.java:240-244 | a frame is present exactly when the message has that many frames, and it is that frame |
| WireProtocol.Validate | zeromq-java-server/src/main/java/com/carmatech/zeromq/api/Protocol.java:48-52 | success exactly for a present non-empty value; null gives NPE "... must NOT be null."; empty gives IllegalArgument "... must NOT be empty." |
| WireProtocol.NewProtocol | zeromq-java-server/src/main/java/com/carmatech/zeromq/api/Protocol.java:44-46 | the constructor succeeds exactly for a present non-empty source identity, with the source's messages otherwise |
| WireProtocol.Connect | zeromq-java-server/src/main/java/com/carmatech/zeromq/api/Protocol.java:106-111 | [destination, CONNECT, source] exactly for a valid destination, else the validation error |
| WireProtocol.Ping | zeromq-java-server/src/main/java/com/carmatech/zeromq/api/Protocol.java:124-129 | [destination, PING, source] exactly for a valid destination, else the validation error |
| WireProtocol.Pong | zeromq-java-server/src/main/java/com/carmatech/zeromq/api/Protocol.java:142-146 | [destination, PONG, source] exactly for a valid destination, else the validation error |
| WireProtocol.Request | zeromq-java-server/src/main/java/com/carmatech/zeromq/api/Protocol.java:161-168 | [destination, REQUEST, source, uuid]; a null UUID is rejected first, then the destination is validated |
| WireProtocol.RequestNumbered | zeromq-java-server/src/main/java/com/carmatech/zeromq/api/Protocol.java:183-190 | as Request, with Integer.toString of the number as the command frame |
| WireProtocol.ErrorMessage | zeromq-java-server/src/main/java/com/carmatech/zeromq/api/Protocol.java:286-292 | [destination, ERROR, source, message], with a null message as the empty frame |
| WireProtocol.ReplyTo | zeromq-java-server/src/main/java/com/carmatech/zeromq/api/Protocol.java:192-238 | every answer goes back to the request's first frame from the replier's identity; it fails exactly on an empty message or a REQUEST/sequence-numbered message missing its UUID frame; any message whose command frame parses as PING is answered PONG, and any whose command frame parses as REQUEST is answered OK with its fourth frame and the provider's payload for it |
| WireProtocol.Msg.Pop | zeromq-java-server/src/main/java/com/carmatech/zeromq/api/Protocol.java:240-244 | popString: yields the first frame (null when none) and removes it |
| WireProtocol.Msg.Destroy | zeromq-java-server/src/main/java/com/carmatech/zeromq/api/Protocol.java:240-244 | the message is left without frames |
| WireProtocol.Reply | zeromq-java-server/src/main/java/com/carmatech/zeromq/api/Protocol.java:192-203 | popping the frames in place and answering agrees with ReplyTo on the frames received, and consumes the message |
| WireProtocol.ReplyToPing | zeromq-java-server/src/main/java/com/carmatech/zeromq/api/Protocol.java:214-228 | a PING is answered with a PONG to the pinger from the replier |
| WireProtocol.ReplyToRequest | zeromq-java-server/src/main/java/com/carmatech/zeromq/api/Protocol.java:214-228 | a REQUEST is answered OK with its UUID and the provider's payload for it |
| WireProtocol.ReplyToNumbered | zeromq-java-server/src/main/java/com/carmatech/zeromq/api/Protocol.java:214-228 | a numbered request echoes its number with the payload; a negative number is answered UNKNOWN |
| WireProtocol.ReplyToSequenced | zeromq-java-server/src/main/java/com/carmatech/zeromq/api/Protocol.java:214-228 | a request relayed under any sequence number is answered under that number with the UUID and payload |
| WireProtocol.ReplyToOther | zeromq-java-server/src/main/java/com/carmatech/zeromq/api/Protocol.java:252-258 | anything else is answered UNKNOWN, echoing the raw token |
| WireProtocol.ReplyToOneFrame | zeromq-java-server/src/test/java/com/carmatech/zeromq/api/ProtocolTest.java:156-168 | a one-frame message is answered UNKNOWN with the empty frame for the missing token |
| ClientServerProxy.ServerProxy.constructor | zeromq-java-server/src/main/java/com/carmatech/zeromq/client/ServerProxy.java:31-39 | a new proxy is not alive, and its ping and expiry times start from now |
| ClientServerProxy.ServerProxy.Refresh | zeromq-java-server/src/main/java/com/carmatech/zeromq/client/ServerProxy.java:41-52 | next ping one interval and expiry one TTL from now; with a positive TTL the expiry is in the future |
| ClientServerProxy.ServerProxy.Enable | zeromq-java-server/src/main/java/com/carmatech/zeromq/client/ServerProxy.java:62-67 | alive afterwards; a transition is counted (logged) only if it was not alive |
| ClientServerProxy.ServerProxy.Disable | zeromq-java-server/src/main/java/com/carmatech/zeromq/client/ServerProxy.java:69-74 | not alive afterwards; a transition is counted only if it was alive |
| ClientServerProxy.ServerProxy.PingMessage | zeromq-java-server/src/main/java/com/carmatech/zeromq/client/ServerProxy.java:76-84 | the ping is addressed to the server from the local host and parses as PING |
| ClientServerProxy.ServerProxy.PingIfNoRecentActivity | zeromq-java-server/src/main/java/com/carmatech/zeromq/client/ServerProxy.java:76-84 | due (pingAt <= now): one PING is sent and the next ping is one interval away; not due: nothing sent, nothing changed |
| ClientServerProxy.ServerProxy.Addressed | zeromq-java-server/src/main/java/com/carmatech/zeromq/client/ServerProxy.java:98-110 | the sent copy is the request with the server's endpoint pushed in front |
| TimeoutQueue.Insert | zeromq-java-server/src/main/java/com/carmatech/zeromq/client/pull/Manager.java:41 | add: the queue's multiset gains exactly the new deadline |
| TimeoutQueue.InsertSorted | zeromq-java-server/src/main/java/com/carmatech/zeromq/client/pull/Manager.java:41 | add keeps the queue in ascending order |
| TimeoutQueue.RemoveOne | zeromq-java-server/src/main/java/com/carmatech/zeromq/client/pull/Manager.java:142-146 | remove: the multiset loses one occurrence of the deadline |
| TimeoutQueue.RemoveOneSorted | zeromq-java-server/src/main/java/com/carmatech/zeromq/client/pull/Manager.java:142-146 | remove keeps the queue in ascending order |
| TimeoutQueue.DropDue | zeromq-java-server/src/main/java/com/carmatech/zeromq/client/pull/Manager.java:57-69 | polling the due heads never grows the queue |
| TimeoutQueue.DropDueSuffix | zeromq-java-server/src/main/java/com/carmatech/zeromq/client/pull/Manager.java:57-69 | what is left is a suffix of the queue |
| TimeoutQueue.DropDueSorted | zeromq-java-server/src/main/java/com/carmatech/zeromq/client/pull/Manager.java:57-69 | what is left is still sorted |
| TimeoutQueue.DropDueCount | zeromq-java-server/src/main/java/com/carmatech/zeromq/client/pull/Manager.java:57-69 | on a sorted queue, exactly the deadlines after now are kept, each as often as before |
| TimeoutQueue.DropDueKeepsFuture | zeromq-java-server/src/main/java/com/carmatech/zeromq/client/pull/Manager.java:57-69 | sorted, and exactly the future deadlines, for every deadline value |
| PullManager.HandleReplyAsWritten | zeromq-java-server/src/main/java/com/carmatech/zeromq/client/pull/Manager.java:154-171 | as written: the literal token or a number beyond Integer.MAX_VALUE throws; a matching number delivers, and after the request is gone it then throws NPE |
| PullManager.HandleReply | zeromq-java-server/src/main/java/com/carmatech/zeromq/client/pull/Manager.java:154-171 | corrected: delivered exactly when a numeric token names the request in flight; never throws |
| PullManager.HandleReplyAgrees | zeromq-java-server/src/main/java/com/carmatech/zeromq/client/pull/Manager.java:154-171 | the correction agrees with the code as written wherever that neither throws nor delivers twice |
| PullManager.DuplicateReplyCrashes | zeromq-java-server/src/main/java/com/carmatech/zeromq/client/pull/Manager.java:173-176 | a second reply to an answered request delivers again and then dereferences null; the correction calls it stale |
| PullManager.LiteralTokenCrashes | zeromq-java-server/src/main/java/com/carmatech/zeromq/client/pull/Manager.java:159 | the literal token "SEQUENCE_NUMBER" fails Integer.parseInt; the correction ignores it |
| PullManager.OverflowTokenCrashes | zeromq-java-server/src/main/java/com/carmatech/zeromq/client/pull/Manager.java:159 | Integer.MAX_VALUE + 1 fails Integer.parseInt |
| PullManager.FirstUnexpired | zeromq-java-server/src/main/java/com/carmatech/zeromq/client/pull/Manager.java:196-199 | the length of the run of expired servers at the head of the queue: all before it expired, the one at it did not |
| PullManager.FirstUnexpiredIs | zeromq-java-server/src/main/java/com/carmatech/zeromq/client/pull/Manager.java:196-199 | that position is unique: any k with expired servers before it and an unexpired one at it is it |
| PullManager.DuePings | zeromq-java-server/src/main/java/com/carmatech/zeromq/client/pull/Manager.java:215-218 | at most one ping per server, each a PING from the local host |
| PullManager.DuePingedIffDue | zeromq-java-server/src/main/java/com/carmatech/zeromq/client/pull/Manager.java:215-218 | an endpoint receives a ping exactly when some proxy of it has a ping time that has come |
| PullManager.DuePingsTo | zeromq-java-server/src/main/java/com/carmatech/zeromq/client/pull/Manager.java:215-218 | every ping goes to a listed proxy whose ping time has come |
| PullManager.DuePingedAtMostOnce | zeromq-java-server/src/main/java/com/carmatech/zeromq/client/pull/Manager.java:215-218 | with distinct endpoints, as in the registry, no endpoint is pinged twice in a round |
| PullManager.PingedIffDueAt | zeromq-java-server/src/main/java/com/carmatech/zeromq/client/pull/Manager.java:215-218 | with distinct endpoints, proxy i is pinged exactly when its own ping time has come |
| PullManager.AfterOutbox | zeromq-java-server/src/main/java/com/carmatech/zeromq/client/pull/Manager.java:83-100 | reference definition of processOutbox on the manager's fields: a REQUEST in flight refuses the next one unchanged; a new one takes the next number; CONNECT registers the new proxy under its endpoint and queues it; the pipe and the router are untouched |
| PullManager.AfterInbox | zeromq-java-server/src/main/java/com/carmatech/zeromq/client/pull/Manager.java:126-152 | reference definition of processInbox on the manager's fields: an unknown sender changes nothing; the registry, the number and the router never change; the request is cleared only by its own answer, which is passed on as OK (corrected `HandleReply`; see Left out) |
| PullManager.NextPing | zeromq-java-server/src/main/java/com/carmatech/zeromq/client/ServerProxy.java:76-84 | a due server is rescheduled one interval after now, one not due keeps its time; either way it is in the future |
| PullManager.PingEach | zeromq-java-server/src/main/java/com/carmatech/zeromq/client/pull/Manager.java:215-218 | the loop over the proxies sends exactly DuePings of their old ping times, and moves every proxy's ping time to NextPing |
| PullManager.EveryServerListed | zeromq-java-server/src/main/java/com/carmatech/zeromq/client/pull/Manager.java:215-218 | iterating servers.values() in order reaches every registered server |
| PullManager.RequestIsAnswered | zeromq-java-server/src/main/java/com/carmatech/zeromq/client/pull/Manager.java:154-171 | end to end: a relayed REQUEST is answered under its number, delivered as OK with server, UUID and payload, and the code as written agrees for numbers within int |
| PullManager.ExpiredHeadIsReturned | zeromq-java-server/src/main/java/com/carmatech/zeromq/client/pull/Manager.java:201-213 | as written, a server connected at 0 and silent past its TTL is still handed out, though disabled |
| PullManager.ExpiredHeadIsSkipped | zeromq-java-server/src/main/java/com/carmatech/zeromq/client/pull/Manager.java:196-199 | the corrected search hands out nothing in the same run |
| PullManager.Manager.constructor | zeromq-java-server/src/main/java/com/carmatech/zeromq/client/pull/Manager.java:38-45 | empty registry, queues and sequence number; no request in flight |
| PullManager.Manager.IsProcessingRequest | zeromq-java-server/src/main/java/com/carmatech/zeromq/client/pull/Manager.java:75-77 | true exactly when a request is in flight |
| PullManager.Manager.NextTimeout | zeromq-java-server/src/main/java/com/carmatech/zeromq/client/pull/Manager.java:57-69 | drops exactly the reached deadlines; waits until the earliest remaining one, or one minute; the wait is positive |
| PullManager.Manager.ProcessOutbox | zeromq-java-server/src/main/java/com/carmatech/zeromq/client/pull/Manager.java:83-100 | REQUEST takes the next number and a deadline, refused while one is in flight; CONNECT registers and queues a fresh proxy; anything else changes nothing; its fields end as AfterOutbox says |
| PullManager.Manager.Accept | zeromq-java-server/src/main/java/com/carmatech/zeromq/client/pull/Manager.java:102-110 | the request replaces its first frame by the new sequence number, and its deadline joins the queue |
| PullManager.Manager.ConnectTo | zeromq-java-server/src/main/java/com/carmatech/zeromq/client/pull/Manager.java:112-121 | a fresh not-alive proxy replaces any under the endpoint, keeps the endpoint's registry place, is queued, and its expiry joins the deadlines |
| PullManager.Manager.NewProxy | zeromq-java-server/src/main/java/com/carmatech/zeromq/client/pull/Manager.java:113-116 | a new proxy after refresh: not alive, ping and expiry from now |
| PullManager.Manager.Register | zeromq-java-server/src/main/java/com/carmatech/zeromq/client/pull/Manager.java:114-115 | put into the insertion-ordered registry and appended to the queue, keeping the registry invariant |
| PullManager.Manager.AddDeadline | zeromq-java-server/src/main/java/com/carmatech/zeromq/client/pull/Manager.java:117 | the deadline joins the sorted queue |
| PullManager.Manager.Sender | zeromq-java-server/src/main/java/com/carmatech/zeromq/client/pull/Manager.java:130-138 | the registered proxy the reply's first frame names, or none |
| PullManager.Manager.ProcessInbox | zeromq-java-server/src/main/java/com/carmatech/zeromq/client/pull/Manager.java:126-152 | unknown senders change nothing; a registered sender is alive, rescheduled, requeued if it was not alive, and its reply delivered exactly when HandleReply says so; its fields end as AfterInbox says |
| PullManager.Manager.Answered | zeromq-java-server/src/main/java/com/carmatech/zeromq/client/pull/Manager.java:140-151 | the registered-sender branch of processInbox, with the same promises |
| PullManager.Manager.Deliver | zeromq-java-server/src/main/java/com/carmatech/zeromq/client/pull/Manager.java:154-171 | the answer to the request in flight goes to the pipe as OK with the rest of the reply, and the request is cleared; anything else changes nothing |
| PullManager.Manager.MarkResponsive | zeromq-java-server/src/main/java/com/carmatech/zeromq/client/pull/Manager.java:140-146 | alive, rescheduled from now, requeued if it was not alive, its deadline moved in the queue |
| PullManager.Manager.Revive | zeromq-java-server/src/main/java/com/carmatech/zeromq/client/pull/Manager.java:140-143 | a server that was not alive is queued again and marked alive |
| PullManager.Manager.Reschedule | zeromq-java-server/src/main/java/com/carmatech/zeromq/client/pull/Manager.java:144-146 | its old deadline leaves the queue and the new one joins |
| PullManager.Manager.DestroyCurrentRequestAndReturnFailed | zeromq-java-server/src/main/java/com/carmatech/zeromq/client/pull/Manager.java:178-181 | the application receives ERROR and no request is in flight |
| PullManager.Manager.IsRequestExpired | zeromq-java-server/src/main/java/com/carmatech/zeromq/client/pull/Manager.java:183-185 | true exactly when the request's deadline has been reached |
| PullManager.Manager.DropHead | zeromq-java-server/src/main/java/com/carmatech/zeromq/client/pull/Manager.java:204-207 | poll and disable: the head leaves the queue and is not alive |
| PullManager.Manager.FirstActiveServerAsWritten | zeromq-java-server/src/main/java/com/carmatech/zeromq/client/pull/Manager.java:201-213 | returns the head whatever its expiry; an expired head is also dequeued and disabled |
| PullManager.Manager.FirstActiveServer | zeromq-java-server/src/main/java/com/carmatech/zeromq/client/pull/Manager.java:196-199 | dequeues and disables exactly the expired heads; returns the first unexpired server, none exactly when all expired; other proxies untouched |
| PullManager.Manager.SendRequestToFirstActiveServer | zeromq-java-server/src/main/java/com/carmatech/zeromq/client/pull/Manager.java:187-193 | with the corrected search (FirstActiveServer), a copy of the request addressed to the first unexpired server goes to the router, nothing when there is none |
| PullManager.Manager.ServersInOrder | zeromq-java-server/src/main/java/com/carmatech/zeromq/client/pull/Manager.java:38 | the registered proxies in insertion order, each once and with distinct endpoints |
| PullManager.Manager.PingAllServers | zeromq-java-server/src/main/java/com/carmatech/zeromq/client/pull/Manager.java:215-218 | the router gets exactly the due pings in registry order; afterwards every server's next ping is in the future, and a proxy no longer registered keeps its ping time |
| PullPipeline.Step | zeromq-java-server/src/main/java/com/carmatech/zeromq/client/pull/Pipeline.java:35-56 | one loop turn: waits exactly until the earliest deadline left once the reached ones are dropped, or one minute; stops exactly on a poll error or a second REQUEST (except on the `doHandleReply` crash paths listed under Findings), leaving the request in flight as it was; a poll error changes nothing but dropping the reached deadlines (registry, request, counters, outgoing messages and every proxy as they were); a turn that goes on ends by sending DuePings of the servers in registry order, each server's ping time being its old one unless it is new or just replied; afterwards a live request is unexpired and every ping is in the future |
| PullPipeline.Run | zeromq-java-server/src/main/java/com/carmatech/zeromq/client/pull/Pipeline.java:35-56 | runs turns until one ends the loop; every turn before it polled, and the one it stops at had a poll error or a second REQUEST while one was in flight (except on the `doHandleReply` crash paths listed under Findings) |
| PullPipeline.Receive | zeromq-java-server/src/main/java/com/carmatech/zeromq/client/pull/Pipeline.java:41-45 | outbox then inbox: the manager's fields end as AfterOutbox then AfterInbox leave them, the reply's sender taken as it was after the outbox (a proxy just made by CONNECT is not alive, its deadline one TTL ahead); a CONNECT leaves a fresh proxy registered under its endpoint; a registered sender ends alive with ping and expiry restarted; other proxies are unchanged; fails exactly on a REQUEST while one is in flight, and then changes nothing |
| PullPipeline.ReadOutbox | zeromq-java-server/src/main/java/com/carmatech/zeromq/client/pull/Pipeline.java:41-42 | processOutbox when the pipe is readable: the fields end as AfterOutbox says; only the proxy a CONNECT makes is new, and it is not alive with ping and expiry from now |
| PullPipeline.ReadInbox | zeromq-java-server/src/main/java/com/carmatech/zeromq/client/pull/Pipeline.java:44-45 | processInbox when the router is readable: the fields end as AfterInbox says (corrected `HandleReply`; see Left out) with the sender's state before; only the sender changes, alive with ping and expiry restarted |
| PullPipeline.Serve | zeromq-java-server/src/main/java/com/carmatech/zeromq/client/pull/Pipeline.java:41-53 | the sockets served, then the request failed or sent, ending only on a second REQUEST (except on the `doHandleReply` crash paths listed under Findings): the router gets at most one message; each registered server keeps its ping time unless it is new or just replied |
| PullPipeline.PingRound | zeromq-java-server/src/main/java/com/carmatech/zeromq/client/pull/Pipeline.java:55 | the router gets DuePings of the servers in registry order at the ping times the turn left them with; afterwards every ping is in the future |
| PullPipeline.PingTimesOfTurn | zeromq-java-server/src/main/java/com/carmatech/zeromq/client/pull/Pipeline.java:41-55 | the ping times the round starts from are, position by position, the old ones except for new servers and the reply's sender |
| PullPipeline.Advance | zeromq-java-server/src/main/java/com/carmatech/zeromq/client/pull/Pipeline.java:47-53 | an expired request fails with ERROR, a live one is sent to the first unexpired server; afterwards any request in flight is unexpired |
| Pull2ServerProxy.ProxyArgumentsError | zeromq-java-server/src/main/java/com/carmatech/zeromq/client/pull2/ServerProxy.java:24-30 | the null checks in order, with their messages; none exactly when all are present |
| Pull2ServerProxy.ServerProxy.constructor | zeromq-java-server/src/main/java/com/carmatech/zeromq/client/pull2/ServerProxy.java:24-30 | a new proxy is inactive and already due for a ping |
| Pull2ServerProxy.ServerProxy.ShouldBeDeactivated | zeromq-java-server/src/main/java/com/carmatech/zeromq/client/pull2/ServerProxy.java:40-42 | silent for a whole period past the ping time; with a non-negative period such a server is also due |
| Pull2ServerProxy.ServerProxy.Activate | zeromq-java-server/src/main/java/com/carmatech/zeromq/client/pull2/ServerProxy.java:52-58 | active afterwards; a transition only if it was inactive |
| Pull2ServerProxy.ServerProxy.Deactivate | zeromq-java-server/src/main/java/com/carmatech/zeromq/client/pull2/ServerProxy.java:60-66 | inactive afterwards; a transition only if it was active |
| Pull2ServerProxy.ServerProxy.Refresh | zeromq-java-server/src/main/java/com/carmatech/zeromq/client/pull2/ServerProxy.java:68-71 | next ping one period from now; with a positive period it is no longer due |
| Pull2HeartBeater.HeartBeaterArgumentsError | zeromq-java-server/src/main/java/com/carmatech/zeromq/client/pull2/HeartBeater.java:35-41 | the four null checks in order, with their messages |
| Pull2HeartBeater.Stop | zeromq-java-server/src/main/java/com/carmatech/zeromq/client/pull2/HeartBeater.java:54-61 | the ping loop stops at the first due server whose ping is blocked, or at the end |
| Pull2HeartBeater.Pings | zeromq-java-server/src/main/java/com/carmatech/zeromq/client/pull2/HeartBeater.java:91-101 | at most one ping per server, each a PING from the heart beater |
| Pull2HeartBeater.PingedIffDue | zeromq-java-server/src/main/java/com/carmatech/zeromq/client/pull2/HeartBeater.java:54-61 | a server is pinged if and only if it is due |
| Pull2HeartBeater.PingedAtMostOnce | zeromq-java-server/src/main/java/com/carmatech/zeromq/client/pull2/HeartBeater.java:54-61 | with distinct endpoints, no server gets two pings in one phase |
| Pull2HeartBeater.PingsTo | zeromq-java-server/src/main/java/com/carmatech/zeromq/client/pull2/HeartBeater.java:91-101 | every ping goes to a registered endpoint |
| Pull2HeartBeater.PingEach | zeromq-java-server/src/main/java/com/carmatech/zeromq/client/pull2/HeartBeater.java:54-61 | the loop sends exactly the due pings up to the stop point, deactivates the silent due servers up to it, continues exactly when nothing blocked |
| Pull2HeartBeater.PongSender | zeromq-java-server/src/main/java/com/carmatech/zeromq/client/pull2/HeartBeater.java:125-137 | a reply names a sender exactly when its command parses as PONG, and the sender is its first frame |
| Pull2HeartBeater.PongAnswersPing | zeromq-java-server/src/main/java/com/carmatech/zeromq/client/pull2/HeartBeater.java:125-137 | the server's answer to the heart beater's ping is taken as a PONG from the pinged endpoint |
| Pull2HeartBeater.LastPong | zeromq-java-server/src/main/java/com/carmatech/zeromq/client/pull2/HeartBeater.java:107-123 | the clock of a wake that received a PONG from the endpoint; present exactly when there is one |
| Pull2HeartBeater.BudgetStep | zeromq-java-server/src/main/java/com/carmatech/zeromq/client/pull2/HeartBeater.java:64-81 | one more poll keeps the bookkeeping: its timeout is the rest of the period in whole milliseconds |
| Pull2HeartBeater.HeartBeater.constructor | zeromq-java-server/src/main/java/com/carmatech/zeromq/client/pull2/HeartBeater.java:35-41 | keeps the registry and frequency; the identity is toString, the period in nanoseconds |
| Pull2HeartBeater.HeartBeater.Proxies | zeromq-java-server/src/main/java/com/carmatech/zeromq/client/pull2/HeartBeater.java:54 | the proxies in iteration order, distinct, with the registry's endpoints |
| Pull2HeartBeater.HeartBeater.PingPhase | zeromq-java-server/src/main/java/com/carmatech/zeromq/client/pull2/HeartBeater.java:54-61 | as PingEach, over the registry in iteration order |
| Pull2HeartBeater.HeartBeater.Handle | zeromq-java-server/src/main/java/com/carmatech/zeromq/client/pull2/HeartBeater.java:125-137 | a PONG activates its server and moves its ping time one period past now; every other server, and any other reply, changes nothing |
| Pull2HeartBeater.HeartBeater.Receive | zeromq-java-server/src/main/java/com/carmatech/zeromq/client/pull2/HeartBeater.java:107-123 | each wake's reply is handled, in order |
| Pull2HeartBeater.HeartBeater.PollPhase | zeromq-java-server/src/main/java/com/carmatech/zeromq/client/pull2/HeartBeater.java:64-81 | polls until the period ends or a wake is fatal, each timeout the rest of the period; each server ends as its last PONG left it, or unchanged |
| Pull2HeartBeater.PingSingle | zeromq-java-server/src/main/java/com/carmatech/zeromq/client/pull2/HeartBeater.java:54-61 | a single due server is pinged and deactivated only if silent for a period |
| Pull2HeartBeater.PollSingle | zeromq-java-server/src/main/java/com/carmatech/zeromq/client/pull2/HeartBeater.java:64-81 | a single wake's PONG activates the server and reschedules it |
| Pull2HeartBeater.UnansweredServerIsDeactivatedOnSecondPing | zeromq-java-server/src/test/java/com/carmatech/zeromq/client/pull2/HeartBeaterTest.java:85-106 | an active server that never answers is pinged on both cycles and inactive after the second |
| Pull2HeartBeater.AnsweredServerIsActivated | zeromq-java-server/src/test/java/com/carmatech/zeromq/client/pull2/HeartBeaterTest.java:58-83 | a PONG activates a new server and moves its ping time between one and two periods ahead |
| Pull2HeartBeater.PingReplyIsIgnored | zeromq-java-server/src/test/java/com/carmatech/zeromq/client/pull2/HeartBeaterTest.java:136-158 | a PING in reply leaves the server inactive and its ping time unchanged |
| RetryPolicy.RunOnce.constructor | zeromq-java-server/src/main/java/com/carmatech/zeromq/utilities/retry/RunOnce.java:17-19 | one attempt available |
| RetryPolicy.RunOnce.HasNextAttempt | zeromq-java-server/src/main/java/com/carmatech/zeromq/utilities/retry/RunOnce.java:21-24 | true exactly while the attempt is unspent |
| RetryPolicy.RunOnce.NextAttemptInMillis | zeromq-java-server/src/main/java/com/carmatech/zeromq/utilities/retry/RunOnce.java:26-34 | the first call spends the attempt and yields the duration in milliseconds; later calls fail with the exhausted message and change nothing |
| RetryPolicy.RunOnce.Attempts | zeromq-java-server/src/main/java/com/carmatech/zeromq/utilities/retry/RunOnce.java:36-39 | attempts made: 0 exactly while one is available |
| RetryPolicy.RunOnce.Reset | zeromq-java-server/src/main/java/com/carmatech/zeromq/utilities/retry/RunOnce.java:41-44 | the attempt is available again |
| RetryPolicy.RunOnceCycle | zeromq-java-server/src/test/java/com/carmatech/zeromq/utilities/retry/RunOnceTest.java:20-42 | granted, refused, then granted again after reset with the same delay |
| Durations.DivToZero | zeromq-java-server/src/main/java/com/carmatech/zeromq/utilities/Duration.java:33-59 | Java's long division by a positive divisor truncates toward zero |
| Durations.Saturate | zeromq-java-server/src/main/java/com/carmatech/zeromq/utilities/Duration.java:33-59 | multiplication to a finer unit is exact within range and clamps to Long.MAX_VALUE/MIN_VALUE outside it |
| Durations.Convert | zeromq-java-server/src/main/java/com/carmatech/zeromq/utilities/Duration.java:33-63 | to a finer unit: the exact product when it fits; to a coarser unit: truncating division by the ratio |
| Durations.NewDuration | zeromq-java-server/src/main/java/com/carmatech/zeromq/utilities/Duration.java:15-18 | a null unit is rejected; otherwise amount and unit are kept |
| Durations.ConvertRoundTrip | zeromq-java-server/src/main/java/com/carmatech/zeromq/utilities/Duration.java:33-59 | refining then coarsening back gives the original amount when nothing saturated |
| Durations.ConvertMonotone | zeromq-java-server/src/main/java/com/carmatech/zeromq/utilities/Duration.java:33-59 | conversion never reverses the order of two amounts |
| Durations.ConversionExamples | zeromq-java-server/src/test/java/com/carmatech/zeromq/utilities/DurationTest.java:24-64 | the conversions of the duration's tests, including 48 h as 2 days and 47 h as 1 |
| Durations.ConvertToOwnUnit | zeromq-java-server/src/main/java/com/carmatech/zeromq/utilities/Duration.java:61-63 | converting an amount in the duration's own unit leaves it unchanged |
| Durations.ToStringReadsBack | zeromq-java-server/src/main/java/com/carmatech/zeromq/utilities/Duration.java:28-31 | toString is the amount's digits, which read back as the amount, a space, and the unit's name |
| Durations.ToStringExample | zeromq-java-server/src/test/java/com/carmatech/zeromq/utilities/DurationTest.java:18-22 | 1337 seconds prints as "1337 SECONDS" |
| MillisTicker.NewTicker | zeromq-java-server/src/main/java/com/carmatech/zeromq/utilities/MillisecondsTicker.java:15-17 | a null ticker is rejected; otherwise it is decorated |
| MillisTicker.Read | zeromq-java-server/src/main/java/com/carmatech/zeromq/utilities/MillisecondsTicker.java:19-22 | read passes the decorated ticker's nanoseconds through |
| MillisTicker.ReadMillis | zeromq-java-server/src/main/java/com/carmatech/zeromq/utilities/MillisecondsTicker.java:24-27 | the reading in whole milliseconds, truncated toward zero |
| MillisTicker.ReadMillisMonotone | zeromq-java-server/src/main/java/com/carmatech/zeromq/utilities/MillisecondsTicker.java:24-27 | a later reading never reports fewer milliseconds |
| MillisTicker.ReadMillisOfWholeMillis | zeromq-java-server/src/main/java/com/carmatech/zeromq/utilities/MillisecondsTicker.java:24-27 | whole milliseconds read back exactly |
| Ports.ValidateInputs | zeromq-java-server/src/main/java/com/carmatech/zeromq/utilities/Ports.java:63-69 | the first violated argument check, in the source's order and with its message; none exactly for valid arguments |
| Ports.Range | zeromq-java-server/src/main/java/com/carmatech/zeromq/utilities/Ports.java:71-82 | the ports tried, lowest first |
| Ports.Filter | zeromq-java-server/src/main/java/com/carmatech/zeromq/utilities/Ports.java:103-109 | keeps the elements that pass, in order, never more |
| Ports.FilterMembers | zeromq-java-server/src/main/java/com/carmatech/zeromq/utilities/Ports.java:103-109 | an element is kept if and only if it is present and passes |
| Ports.ReservePorts | zeromq-java-server/src/main/java/com/carmatech/zeromq/utilities/Ports.java:71-82 | the first numPorts bindable ports of the range, lowest first (fewer when the range runs out) |
| Ports.EnoughPorts | zeromq-java-server/src/main/java/com/carmatech/zeromq/utilities/Ports.java:93-101 | an error exactly when the count is not numPorts |
| Ports.FreeSockets | zeromq-java-server/src/main/java/com/carmatech/zeromq/utilities/Ports.java:103-109 | exactly the ports whose socket closed, in order |
| Ports.Reserve | zeromq-java-server/src/main/java/com/carmatech/zeromq/utilities/Ports.java:45-61 | validation error, shortfall error, or the released ports, as ReserveOutcome states |
| Ports.ReserveCount | zeromq-java-server/src/main/java/com/carmatech/zeromq/utilities/Ports.java:41-43 | reserve over the default range [1024, 65535) |
| Ports.FirstPort | zeromq-java-server/src/main/java/com/carmatech/zeromq/utilities/Ports.java:33-39 | the first reserved port; an empty set fails as iterator().next() does |
| Ports.ReserveOneIn | zeromq-java-server/src/main/java/com/carmatech/zeromq/utilities/Ports.java:37-39 | one port of the given range |
| Ports.ReserveOne | zeromq-java-server/src/main/java/com/carmatech/zeromq/utilities/Ports.java:33-35 | one port of the default range |
| Ports.ReservedPorts | zeromq-java-server/src/main/java/com/carmatech/zeromq/utilities/Ports.java:45-61 | reserved ports are in range, bindable, closable, increasing, at most numPorts, and among the lowest numPorts bindable |
| Ports.ReserveExactCount | zeromq-java-server/src/main/java/com/carmatech/zeromq/utilities/Ports.java:45-61 | when every socket closes, exactly numPorts ports come back |
| Ports.ReserveFailsIffShort | zeromq-java-server/src/main/java/com/carmatech/zeromq/utilities/Ports.java:45-61 | valid arguments fail if and only if the range has fewer than numPorts bindable ports, with the count check's message |

## Left out

- Sockets, the ZeroMQ context, polling and sending are not modelled as I/O:
  - poll outcomes, received messages and send or bind results are parameters;
  - sent messages are sequence fields or results.
- Clocks are parameters. Each phase, or each wake, reads the clock once. In the source,
  `refresh` reads its own ticker slightly later.
- Thread interruption and the outer `while (!isInterrupted())` loops are out of scope. Concurrency and atomics are out too: the `AtomicBoolean`/`AtomicLong` fields are plain fields.
- The iteration order of the heart beater's `ConcurrentMap` is the `order` parameter.
- Log output is left out. Each logged state change is counted in a ghost `transitions` field.
- UUIDs are opaque strings, and the payload provider is an uninterpreted function.
- `StringUtils.isNumeric` is modelled on ASCII digits only.
- `sequenceNumber` is an unbounded natural. The `long` overflow after 2^63 requests is not modelled.
- Pull2ServerProxy.ServerProxy.Refresh: `now + toNanos()` is an unbounded integer. The `long` wrap-around of pull2/ServerProxy.java:69 is not modelled, because clock readings and periods are assumed far from the `long` range. With a period near Long.MAX_VALUE, the source stores a negative ping time, and the server is due at once; the model's "no longer due" clause does not hold there in the source. The constructor's `now - 1` (line 29), `Handle` and `PollPhase` rely on the same assumption.
- Pull2ServerProxy.ServerProxy.ShouldBeDeactivated: `pingAt < now - toNanos()` (pull2/ServerProxy.java:41) is compared over unbounded integers, with no `long` wrap-around, under the same assumption. After the wrapped `refresh` above, the source deactivates a server that has just answered.
- The manager's constructor null checks are out; the Dafny constructor takes the local identity directly.
- The `Client` wrappers, the application API and the servers' own loops are not part of this model. Neither is the Python client.
- `Duration.sleep` and `sleepUninterruptibly` are out, because they are blocking I/O.
- `RunOnce`'s null duration check is out: a datatype value cannot be null.
- `RunOnce.toString` is out: it only formats the policy for logs and is not part of the retry logic, although RunOnceTest.java:107-112 asserts its text.
- Binding and closing sockets in `Ports` are oracles (`canBind`, `canClose`).
- PullManager.Manager.ProcessOutbox: a REQUEST while one is in flight is the failed `assert` at Manager.java:103. It is modelled as `ok == false` with nothing changed, and the thread stops. With assertions disabled, the source would instead overwrite the request.
- PullManager.Manager.ProcessOutbox: CONNECT to an empty endpoint is a precondition. The client validates the destination before sending.
- Pull2HeartBeater.HeartBeater.Handle: a PONG from an unregistered endpoint is a precondition. The source dereferences the null lookup result (HeartBeater.java:131-132).
- Pull2HeartBeater.PingEach: a ping that cannot be sent, because of an empty endpoint or a failed send, ends the thread. The model stops the phase with `cont == false` and does not model what happens afterwards.
- Pull2HeartBeater.HeartBeater.PollPhase: `NANOSECONDS.toMillis(remaining)` is modelled as `remaining / 1000000`. This holds because `remaining` is positive there.
- PullManager.Manager.ProcessInbox: follows the corrected `HandleReply`, not `doHandleReply` as written. The inputs where they differ (a duplicate answer, the literal token, a number above 2^31-1) crash the source thread (see Findings).
- PullManager.Manager.Answered: follows the corrected `HandleReply` on the same inputs as ProcessInbox above.
- PullManager.Manager.Deliver: follows the corrected `HandleReply`. The code as written delivers a duplicate answer again and then throws, and throws on the literal token and on numbers above 2^31-1 (see Findings).
- PullManager.Manager.SendRequestToFirstActiveServer: uses the corrected `FirstActiveServer`. The code as written sends to an expired head (see Findings).
- PullPipeline.Advance: sends through the corrected `FirstActiveServer`, so an expired head is skipped, not sent to.
- PullPipeline.Receive: follows the corrected `HandleReply` through ProcessInbox.
- PullManager.AfterInbox: is the corrected `HandleReply` on the manager's fields. On the Findings inputs (a duplicate answer, the literal token, a number above 2^31-1) it leaves the pipe unchanged, while the code as written sends the duplicate answer to the pipe again and then the thread throws.
- PullPipeline.ReadInbox: ends as `AfterInbox` says, so it follows the corrected `HandleReply` on the same inputs.
- PullPipeline.Serve: follows the corrected `HandleReply` and the corrected `FirstActiveServer` (through `Advance`). `ok` is false only on a second REQUEST, while the code as written also ends the thread on the `doHandleReply` crash paths in Findings.
- PullPipeline.Step: stops exactly on a poll error or a second REQUEST, because it runs `Serve`. On the `doHandleReply` crash paths in Findings the source thread dies instead, and the model goes on running.
- PullPipeline.Run: the stopping turn is a poll error or a second REQUEST. The `doHandleReply` crash paths in Findings, which also end the source thread, are not among the stopping causes.
- The Javadoc of `firstActiveServer` (Manager.java:196-199) promises the first server still alive. The code (201-213) returns the head even when it has just expired. The model follows the code in `FirstActiveServerAsWritten`, and the rest of the model uses the documented behaviour (see Findings).

## Findings

| source | as written | input that shows it | evidently intended | confidence | as-written member | corrected member |
|---|---|---|---|---|---|---|
| zeromq-java-server/src/main/java/com/carmatech/zeromq/client/pull/Manager.java:201-213 | an expired head is dequeued and disabled, then still returned, and the request is sent to it | one server connected at time 0, no reply, request sent at 6000 (its TTL) | skip expired servers until one is within its TTL, or none (the method's Javadoc) | not executed | PullManager.ExpiredHeadIsReturned | PullManager.Manager.FirstActiveServer |
| zeromq-java-server/src/main/java/com/carmatech/zeromq/client/pull/Manager.java:154-176 | a reply carrying the number of a request already answered is delivered again, then `destroyCurrentRequest` dereferences the null current request | two servers answer the same request numbered n; the second reply arrives after the first | ignore a reply that does not answer the request in flight | not executed | PullManager.DuplicateReplyCrashes | PullManager.HandleReply |
| zeromq-java-server/src/main/java/com/carmatech/zeromq/client/pull/Manager.java:159 | the token parsed as SEQUENCE_NUMBER goes to Integer.parseInt, which throws for the literal name and for numbers above 2^31-1 | a reply with token "SEQUENCE_NUMBER", or "2147483648" | ignore tokens that are not the number of the request in flight | not executed | PullManager.LiteralTokenCrashes | PullManager.HandleReply |
