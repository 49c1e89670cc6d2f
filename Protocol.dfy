/** The wire protocol: every message is a list of frames
    [destination, command, source, arguments...]. Builders fill a fresh message;
    `Reply` decodes a received message and answers it, consuming the input. */
module WireProtocol {
  import opened Wrappers
  import opened Decimal
  import opened Commands

  type Message = seq<string>

  const SOURCE_NAME := "Source's identity"
  const DESTINATION_NAME := "Destination's endpoint"

  datatype Error =
    | NullPointer(message: string)
    | IllegalArgument(message: string)
      /** The NullPointerException the JDK raises when a frame the code needs is
          missing: frame 0 of an empty message, or the UUID frame of a request. */
    | MissingFrame(index: nat)

  /** A protocol instance: the local identity written as the source of every message. */
  datatype Protocol = Protocol(source: string)

  /** Frame i of a message, or None where ZMsg.popString would return null. */
  function FrameAt(m: Message, i: nat): (f: Option<string>)
    ensures f.Some? <==> i < |m|
    ensures f.Some? ==> f.value == m[i]
  {
    if i < |m| then Some(m[i]) else None
  }

  /** Null and emptiness checks on an identity, with the messages of Preconditions. */
  function Validate(value: Option<string>, name: string): (r: Result<string, Error>)
    ensures r.Success? <==> value.Some? && value.value != ""
    ensures r.Success? ==> r.value == value.value
    ensures value.None? ==> r == Failure(NullPointer(name + " must NOT be null."))
    ensures value == Some("") ==> r == Failure(IllegalArgument(name + " must NOT be empty."))
  {
    if value.None? then Failure(NullPointer(name + " must NOT be null."))
    else if value.value == "" then Failure(IllegalArgument(name + " must NOT be empty."))
    else Success(value.value)
  }

  /** The constructor: the source identity must be present and non-empty. */
  function NewProtocol(source: Option<string>): (r: Result<Protocol, Error>)
    ensures r.Success? <==> source.Some? && source.value != ""
    ensures r.Success? ==> r.value.source == source.value
    ensures source.None? ==> r == Failure(NullPointer("Source's identity must NOT be null."))
    ensures source == Some("") ==> r == Failure(IllegalArgument("Source's identity must NOT be empty."))
  {
    assert SOURCE_NAME + " must NOT be null." == "Source's identity must NOT be null.";
    assert SOURCE_NAME + " must NOT be empty." == "Source's identity must NOT be empty.";
    match Validate(source, SOURCE_NAME)
    case Success(s) => Success(Protocol(s))
    case Failure(e) => Failure(e)
  }

  /** The three header frames every message starts with. */
  function Create(p: Protocol, command: string, destination: string): Message {
    [destination, command, p.source]
  }

  function Connect(p: Protocol, destination: Option<string>): (r: Result<Message, Error>)
    ensures r.Success? <==> destination.Some? && destination.value != ""
    ensures r.Success? ==> r.value == [destination.value, "CONNECT", p.source]
    ensures r.Failure? ==> r == Failure(Validate(destination, DESTINATION_NAME).error)
  {
    match Validate(destination, DESTINATION_NAME)
    case Success(d) => Success(Create(p, Name(CONNECT), d))
    case Failure(e) => Failure(e)
  }

  function Ping(p: Protocol, destination: Option<string>): (r: Result<Message, Error>)
    ensures r.Success? <==> destination.Some? && destination.value != ""
    ensures r.Success? ==> r.value == [destination.value, "PING", p.source]
    ensures r.Failure? ==> r == Failure(Validate(destination, DESTINATION_NAME).error)
  {
    match Validate(destination, DESTINATION_NAME)
    case Success(d) => Success(Create(p, Name(PING), d))
    case Failure(e) => Failure(e)
  }

  function Pong(p: Protocol, destination: Option<string>): (r: Result<Message, Error>)
    ensures r.Success? <==> destination.Some? && destination.value != ""
    ensures r.Success? ==> r.value == [destination.value, "PONG", p.source]
    ensures r.Failure? ==> r == Failure(Validate(destination, DESTINATION_NAME).error)
  {
    match Validate(destination, DESTINATION_NAME)
    case Success(d) => Success(Create(p, Name(PONG), d))
    case Failure(e) => Failure(e)
  }

  /** request(destination, uuid): the UUID is checked before the destination. */
  function Request(p: Protocol, destination: Option<string>, uuid: Option<string>): (r: Result<Message, Error>)
    ensures r.Success? <==> uuid.Some? && destination.Some? && destination.value != ""
    ensures r.Success? ==> r.value == [destination.value, "REQUEST", p.source, uuid.value]
    ensures uuid.None? ==> r == Failure(NullPointer("Requested UUID must not be null."))
    ensures uuid.Some? && r.Failure? ==> r == Failure(Validate(destination, DESTINATION_NAME).error)
  {
    if uuid.None? then Failure(NullPointer("Requested UUID must not be null."))
    else match Validate(destination, DESTINATION_NAME)
      case Success(d) => Success(Create(p, Name(REQUEST), d) + [uuid.value])
      case Failure(e) => Failure(e)
  }

  /** request(destination, uuid, sequenceNumber): frame 1 is Integer.toString of the number. */
  function RequestNumbered(p: Protocol, destination: Option<string>, uuid: Option<string>, sequenceNumber: Int32)
    : (r: Result<Message, Error>)
    ensures r.Success? <==> uuid.Some? && destination.Some? && destination.value != ""
    ensures r.Success? ==> r.value == [destination.value, IntToString(sequenceNumber), p.source, uuid.value]
    ensures uuid.None? ==> r == Failure(NullPointer("Requested UUID must not be null."))
    ensures uuid.Some? && r.Failure? ==> r == Failure(Validate(destination, DESTINATION_NAME).error)
  {
    if uuid.None? then Failure(NullPointer("Requested UUID must not be null."))
    else match Validate(destination, DESTINATION_NAME)
      case Success(d) => Success(Create(p, IntToString(sequenceNumber), d) + [uuid.value])
      case Failure(e) => Failure(e)
  }

  /** error(destination, message): a null message becomes the empty frame. */
  function ErrorMessage(p: Protocol, destination: Option<string>, errorMessage: Option<string>): (r: Result<Message, Error>)
    ensures r.Success? <==> destination.Some? && destination.value != ""
    ensures r.Success? ==> r.value == [destination.value, "ERROR", p.source, errorMessage.GetOr("")]
    ensures r.Failure? ==> r == Failure(Validate(destination, DESTINATION_NAME).error)
  {
    match Validate(destination, DESTINATION_NAME)
    case Success(d) => Success(Create(p, Name(ERROR), d) + [errorMessage.GetOr("")])
    case Failure(e) => Failure(e)
  }

  /** The answer to a request or numbered request: the tag, the UUID and the provider's payload. */
  function BuildReply(p: Protocol, request: Message, provider: string -> string, destination: string, tag: string)
    : (r: Result<Message, Error>)
  {
    if |request| < 4 then Failure(MissingFrame(3))
    else Success(Create(p, tag, destination) + [request[3], provider(request[3])])
  }

  /** The answer to anything else: UNKNOWN, echoing the raw token (a missing token as the empty frame). */
  function Unknown(p: Protocol, token: Option<string>, destination: string): Message {
    Create(p, Name(UNKNOWN), destination) + [token.GetOr("")]
  }

  /** What `reply` answers to a received message. */
  function ReplyTo(p: Protocol, request: Message, provider: string -> string): (r: Result<Message, Error>)
    ensures r.Success? ==> |request| > 0 && |r.value| >= 3 && r.value[0] == request[0] && r.value[2] == p.source
    ensures r.Failure? <==>
      |request| == 0 || (Parse(FrameAt(request, 1)) in {REQUEST, SEQUENCE_NUMBER} && |request| < 4)
    ensures |request| > 0 && Parse(FrameAt(request, 1)) == PING ==> r == Success([request[0], "PONG", p.source])
    ensures |request| >= 4 && Parse(FrameAt(request, 1)) == REQUEST ==>
              r == Success([request[0], "OK", p.source, request[3], provider(request[3])])
  {
    if |request| == 0 then Failure(MissingFrame(0))
    else
      var destination := request[0];
      var token := FrameAt(request, 1);
      match Parse(token)
      case PING => Success(Create(p, Name(PONG), destination))
      case REQUEST =>
        assert |request| >= 4 ==> Create(p, Name(OK), destination) + [request[3], provider(request[3])]
                                  == [destination, "OK", p.source, request[3], provider(request[3])];
        BuildReply(p, request, provider, destination, Name(OK))
      case SEQUENCE_NUMBER => BuildReply(p, request, provider, destination, token.value)
      case _ => Success(Unknown(p, token, destination))
  }

  /** A received message, consumed frame by frame as ZMsg is. */
  class Msg {
    var frames: seq<string>

    constructor (frames: seq<string>)
      ensures this.frames == frames
    {
      this.frames := frames;
    }

    method Pop() returns (f: Option<string>)
      modifies this
      ensures f == FrameAt(old(frames), 0)
      ensures frames == if old(frames) == [] then [] else old(frames)[1..]
    {
      if frames == [] {
        f := None;
      } else {
        f := Some(frames[0]);
        frames := frames[1..];
      }
    }

    method Destroy()
      modifies this
      ensures frames == []
    {
      frames := [];
    }
  }

  /** reply: pops destination, command token and source, answers as ReplyTo says, and
      always leaves the request destroyed, whichever branch is taken. */
  method Reply(p: Protocol, request: Msg, provider: string -> string) returns (r: Result<Message, Error>)
    modifies request
    ensures request.frames == []
    ensures r == ReplyTo(p, old(request.frames), provider)
  {
    ghost var original := request.frames;
    var destination := request.Pop();
    var token := request.Pop();
    var command := Parse(token);
    var source := request.Pop();
    assert token == FrameAt(original, 1);
    if destination.None? {
      // An empty message: the UNKNOWN answer cannot be built without a destination frame.
      request.Destroy();
      return Failure(MissingFrame(0));
    }
    match command {
      case PING =>
        request.Destroy();
        r := Success(Create(p, Name(PONG), destination.value));
      case REQUEST =>
        var uuid := request.Pop();
        request.Destroy();
        r := if uuid.None? then Failure(MissingFrame(3))
             else Success(Create(p, Name(OK), destination.value) + [uuid.value, provider(uuid.value)]);
      case SEQUENCE_NUMBER =>
        var uuid := request.Pop();
        request.Destroy();
        r := if uuid.None? then Failure(MissingFrame(3))
             else Success(Create(p, token.value, destination.value) + [uuid.value, provider(uuid.value)]);
      case _ =>
        request.Destroy();
        r := Success(Unknown(p, token, destination.value));
    }
    request.Destroy();
  }

  /** A PING is answered with a PONG to the pinger, from the replier's identity. */
  lemma ReplyToPing(server: Protocol, client: Protocol, destination: string, provider: string -> string)
    requires destination != ""
    ensures ReplyTo(server, Ping(client, Some(destination)).value, provider)
         == Success([destination, "PONG", server.source])
  {
    ParseName(PING);
  }

  /** A REQUEST is answered OK with its UUID and the provider's payload for it. */
  lemma ReplyToRequest(server: Protocol, client: Protocol, destination: string, uuid: string, provider: string -> string)
    requires destination != ""
    ensures ReplyTo(server, Request(client, Some(destination), Some(uuid)).value, provider)
         == Success([destination, "OK", server.source, uuid, provider(uuid)])
  {
    var request := Request(client, Some(destination), Some(uuid)).value;
    ParseName(REQUEST);
    assert Parse(FrameAt(request, 1)) == REQUEST;
    assert |request| == 4 && request[3] == uuid;
    assert Create(server, "OK", destination) + [uuid, provider(uuid)]
        == [destination, "OK", server.source, uuid, provider(uuid)];
    assert BuildReply(server, request, provider, destination, "OK")
        == Success([destination, "OK", server.source, uuid, provider(uuid)]);
  }

  /** A numbered request echoes its number; a negative number is not numeric and is answered UNKNOWN. */
  lemma ReplyToNumbered(server: Protocol, client: Protocol, destination: string, uuid: string, n: Int32,
                        provider: string -> string)
    requires destination != ""
    ensures n >= 0 ==>
              ReplyTo(server, RequestNumbered(client, Some(destination), Some(uuid), n).value, provider)
              == Success([destination, IntToString(n), server.source, uuid, provider(uuid)])
    ensures n < 0 ==>
              ReplyTo(server, RequestNumbered(client, Some(destination), Some(uuid), n).value, provider)
              == Success([destination, "UNKNOWN", server.source, IntToString(n)])
  {
    IntToStringNumeric(n);
    var token := IntToString(n);
    var request := RequestNumbered(client, Some(destination), Some(uuid), n).value;
    assert FrameAt(request, 1) == Some(token);
    if n >= 0 {
      assert |request| == 4 && request[3] == uuid;
      assert Create(server, token, destination) + [uuid, provider(uuid)]
          == [destination, token, server.source, uuid, provider(uuid)];
      assert BuildReply(server, request, provider, destination, token)
          == Success([destination, token, server.source, uuid, provider(uuid)]);
    } else {
      assert token[0] == '-';
      assert Parse(Some(token)) == UNKNOWN;
      assert Unknown(server, Some(token), destination) == [destination, "UNKNOWN", server.source, token];
    }
  }

  /** A request relayed under a sequence number (the form the pull client sends) is answered
      under that number with the UUID in its fourth frame. */
  lemma ReplyToSequenced(server: Protocol, sender: string, n: nat, rest: Message, provider: string -> string)
    requires |rest| >= 2
    ensures ReplyTo(server, [sender, NatToString(n)] + rest, provider)
         == Success([sender, NatToString(n), server.source, rest[1], provider(rest[1])])
  {
    var request := [sender, NatToString(n)] + rest;
    ParseSequenceNumber(n);
    assert FrameAt(request, 1) == Some(NatToString(n));
    assert |request| >= 4 && request[3] == rest[1];
    assert Create(server, NatToString(n), sender) + [rest[1], provider(rest[1])]
        == [sender, NatToString(n), server.source, rest[1], provider(rest[1])];
  }

  /** Anything but PING, REQUEST or a sequence number is answered UNKNOWN, echoing the raw token. */
  lemma ReplyToOther(server: Protocol, request: Message, provider: string -> string)
    requires |request| > 0
    requires Parse(FrameAt(request, 1)) !in {PING, REQUEST, SEQUENCE_NUMBER}
    ensures ReplyTo(server, request, provider)
         == Success([request[0], "UNKNOWN", server.source, FrameAt(request, 1).GetOr("")])
  {
    var token := FrameAt(request, 1);
    assert Unknown(server, token, request[0]) == [request[0], "UNKNOWN", server.source, token.GetOr("")];
  }

  /** The one-frame message of the protocol's own test: the missing token becomes the empty frame. */
  lemma ReplyToOneFrame(server: Protocol, frame: string, provider: string -> string)
    ensures ReplyTo(server, [frame], provider) == Success([frame, "UNKNOWN", server.source, ""])
  {
    ReplyToOther(server, [frame], provider);
  }
}
