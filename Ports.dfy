/** Reservation of free TCP ports: bind the lowest available ports of a range,
    then release them and report their numbers. Binding and closing a socket
    are oracles (`canBind`, `canClose`) standing for the operating system. */
module Ports {
  import opened Wrappers
  import opened Decimal

  /** The last root port; valid ports lie strictly between it and MAX_PORT. */
  const MIN_PORT: int := 1023
  const MIN_VALID_PORT: int := MIN_PORT + 1
  const MAX_PORT: int := 65536
  const MAX_VALID_PORT: int := MAX_PORT - 1
  const MAX_NUMBER_OF_PORTS: int := MAX_PORT - MIN_PORT

  datatype PortsError =
    | IllegalArgument(message: string)   // a rejected argument (checkArgument)
    | Runtime(message: string)           // not enough ports could be reserved
    | NoSuchElement                      // the single-port variants found an empty set

  function Bracket(i: int): string { "[" + IntToString(i) + "]" }

  function MinPortMessage(minPort: int): string {
    "Invalid minimum port " + Bracket(minPort) + ": ports must be strictly greater than " + Bracket(MIN_PORT) + "."
  }

  function MaxPortMessage(maxPort: int): string {
    "Invalid maximum port " + Bracket(maxPort) + ": ports must be strictly less than " + Bracket(MAX_PORT) + "."
  }

  function OrderMessage(minPort: int, maxPort: int): string {
    "Invalid minimum/maximum port(s): minimum port " + Bracket(minPort)
      + " must be strictly less than maximum port " + Bracket(maxPort) + "."
  }

  function PositiveMessage(numPorts: int): string {
    "Number of ports must be strictly greater than zero, but was " + Bracket(numPorts) + "."
  }

  function TooManyMessage(numPorts: int): string {
    "Number of ports must be strictly less than " + Bracket(MAX_NUMBER_OF_PORTS) + ", but was " + Bracket(numPorts) + "."
  }

  /** Arguments reserve accepts. */
  predicate ValidInputs(numPorts: int, minPort: int, maxPort: int) {
    MIN_PORT < minPort && maxPort < MAX_PORT && minPort < maxPort && 0 < numPorts < MAX_NUMBER_OF_PORTS
  }

  /** validateInputs: the first violated condition, in the order the checks run. */
  function ValidateInputs(numPorts: Int32, minPort: Int32, maxPort: Int32): (r: Option<PortsError>)
    ensures r.None? <==> ValidInputs(numPorts, minPort, maxPort)
    ensures r.Some? ==> r.value.IllegalArgument?
    ensures minPort <= MIN_PORT ==> r == Some(IllegalArgument(MinPortMessage(minPort)))
    ensures MIN_PORT < minPort && MAX_PORT <= maxPort ==> r == Some(IllegalArgument(MaxPortMessage(maxPort)))
    ensures MIN_PORT < minPort && maxPort < MAX_PORT && maxPort <= minPort ==> r == Some(IllegalArgument(OrderMessage(minPort, maxPort)))
    ensures MIN_PORT < minPort < maxPort < MAX_PORT && numPorts <= 0 ==> r == Some(IllegalArgument(PositiveMessage(numPorts)))
    ensures MIN_PORT < minPort < maxPort < MAX_PORT && MAX_NUMBER_OF_PORTS <= numPorts ==> r == Some(IllegalArgument(TooManyMessage(numPorts)))
  {
    if !(MIN_PORT < minPort) then Some(IllegalArgument(MinPortMessage(minPort)))
    else if !(maxPort < MAX_PORT) then Some(IllegalArgument(MaxPortMessage(maxPort)))
    else if !(minPort < maxPort) then Some(IllegalArgument(OrderMessage(minPort, maxPort)))
    else if !(numPorts > 0) then Some(IllegalArgument(PositiveMessage(numPorts)))
    else if !(numPorts < MAX_NUMBER_OF_PORTS) then Some(IllegalArgument(TooManyMessage(numPorts)))
    else None
  }

  /** The ports lo, lo + 1, ..., hi - 1, in the order reservePorts tries them. */
  function Range(lo: int, hi: int): (s: seq<int>)
    ensures |s| == if lo < hi then hi - lo else 0
    ensures forall i :: 0 <= i < |s| ==> s[i] == lo + i
    decreases hi - lo
  {
    if hi <= lo then [] else Range(lo, hi - 1) + [hi - 1]
  }

  /** The elements of s that satisfy keep, in their order. */
  function Filter(s: seq<int>, keep: int -> bool): (r: seq<int>)
    ensures |r| <= |s|
  {
    if s == [] then [] else Filter(s[..|s| - 1], keep) + (if keep(s[|s| - 1]) then [s[|s| - 1]] else [])
  }

  /** Filter keeps exactly the elements that satisfy keep. */
  lemma {:induction false} FilterMembers(s: seq<int>, keep: int -> bool)
    ensures forall x :: x in Filter(s, keep) <==> x in s && keep(x)
    decreases |s|
  {
    if s != [] {
      var t := s[..|s| - 1];
      FilterMembers(t, keep);
      assert s == t + [s[|s| - 1]];
    }
  }

  predicate Increasing(s: seq<int>) {
    forall i, j :: 0 <= i < j < |s| ==> s[i] < s[j]
  }

  /** The first n elements of s, or all of s when it is shorter. */
  function Take(s: seq<int>, n: nat): (r: seq<int>)
    ensures |r| == if |s| <= n then |s| else n
    ensures r == s[..|r|]
  {
    if |s| <= n then s else s[..n]
  }

  /** Filtering a prefix gives a prefix of the filtered sequence. */
  lemma {:induction false} FilterPrefix(s: seq<int>, k: nat, keep: int -> bool)
    requires k <= |s|
    ensures |Filter(s[..k], keep)| <= |Filter(s, keep)|
    ensures Filter(s[..k], keep) == Filter(s, keep)[..|Filter(s[..k], keep)|]
    decreases |s|
  {
    if k < |s| {
      var t := s[..|s| - 1];
      assert t[..k] == s[..k];
      FilterPrefix(t, k, keep);
      var n := |Filter(t[..k], keep)|;
      assert Filter(s, keep)[..|Filter(t, keep)|] == Filter(t, keep);
      assert Filter(s, keep)[..n] == Filter(t, keep)[..n];
    } else {
      assert s[..k] == s;
    }
  }

  /** Filtering keeps an increasing sequence increasing. */
  lemma {:induction false} FilterIncreasing(s: seq<int>, keep: int -> bool)
    requires Increasing(s)
    ensures Increasing(Filter(s, keep))
    decreases |s|
  {
    if s != [] {
      var t := s[..|s| - 1];
      var last := s[|s| - 1];
      FilterIncreasing(t, keep);
      var f := Filter(t, keep);
      if keep(last) {
        var g := f + [last];
        forall i, j | 0 <= i < j < |g| ensures g[i] < g[j] {
          if j == |f| {
            FilterMembers(t, keep);
            assert g[i] in f;
            assert g[i] in t;
          }
        }
      }
    }
  }

  /** The ports of [minPort, maxPort) that can be bound, lowest first. */
  function Bindable(minPort: int, maxPort: int, canBind: int -> bool): seq<int> {
    Filter(Range(minPort, maxPort), canBind)
  }

  /** One more port of the range: it joins the bindable ones when it can be bound. */
  lemma BindableStep(minPort: int, port: int, canBind: int -> bool)
    requires minPort <= port
    ensures Bindable(minPort, port + 1, canBind)
      == Bindable(minPort, port, canBind) + (if canBind(port) then [port] else [])
  {
    var r := Range(minPort, port + 1);
    assert r[..|r| - 1] == Range(minPort, port);
  }

  /** Once the ports below p already give n bindable ones, the first n of the whole range are those. */
  lemma TakeAtBreak(minPort: int, p: int, maxPort: int, canBind: int -> bool)
    requires minPort <= p <= maxPort
    ensures Take(Bindable(minPort, maxPort, canBind), |Bindable(minPort, p, canBind)|) == Bindable(minPort, p, canBind)
  {
    var r := Range(minPort, maxPort);
    RangePrefix(minPort, p, maxPort);
    FilterPrefix(r, p - minPort, canBind);
    var f, g := Filter(r, canBind), Filter(r[..p - minPort], canBind);
    assert g == Bindable(minPort, p, canBind);
    if |f| <= |g| {
      assert f == f[..|g|];
    }
  }

  lemma RangePrefix(lo: int, mid: int, hi: int)
    requires lo <= mid <= hi
    ensures Range(lo, hi)[..mid - lo] == Range(lo, mid)
  {
  }

  /** reservePorts: bind ports upwards from minPort until numPorts are held or the range is spent. */
  method ReservePorts(numPorts: int, minPort: int, maxPort: int, canBind: int -> bool) returns (sockets: seq<int>)
    requires numPorts > 0 && minPort < maxPort
    ensures sockets == Take(Bindable(minPort, maxPort, canBind), numPorts)
  {
    sockets := [];
    var port := minPort;
    while port < maxPort
      invariant minPort <= port <= maxPort
      invariant sockets == Bindable(minPort, port, canBind)
      invariant |sockets| < numPorts
      decreases maxPort - port
    {
      BindableStep(minPort, port, canBind);
      if canBind(port) {
        sockets := sockets + [port];
        if |sockets| == numPorts {
          TakeAtBreak(minPort, port + 1, maxPort, canBind);
          return;
        }
      }
      port := port + 1;
    }
  }

  /** checkIfEnoughPorts: an error unless exactly numPorts were obtained. */
  function EnoughPorts(numPorts: int, minPort: int, maxPort: int, count: nat): (r: Option<PortsError>)
    ensures r.None? <==> count == numPorts
  {
    if count == numPorts then None
    else if numPorts > 1 then
      Some(Runtime("Could only reserve [" + IntToString(count) + "/" + IntToString(numPorts)
        + "] ports: not enough ports available within [" + IntToString(minPort) + ", " + IntToString(maxPort) + ") range."))
    else
      Some(Runtime("Failed to reserve port: no port available within [" + IntToString(minPort) + ", " + IntToString(maxPort) + ") range."))
  }

  /** freeSocketsAndAddPortsTo: close every held socket, keeping the ports whose socket closed. */
  method FreeSockets(sockets: seq<int>, canClose: int -> bool) returns (reserved: seq<int>)
    ensures reserved == Filter(sockets, canClose)
  {
    reserved := [];
    var i := 0;
    while i < |sockets|
      invariant 0 <= i <= |sockets|
      invariant reserved == Filter(sockets[..i], canClose)
    {
      assert sockets[..i + 1][..i] == sockets[..i];
      if canClose(sockets[i]) {
        reserved := reserved + [sockets[i]];
      }
      i := i + 1;
    }
    assert sockets[..i] == sockets;
  }

  /** What reserve(numPorts, minPort, maxPort) returns or throws. */
  function ReserveOutcome(numPorts: Int32, minPort: Int32, maxPort: Int32, canBind: int -> bool, canClose: int -> bool)
    : Result<seq<int>, PortsError>
  {
    var invalid := ValidateInputs(numPorts, minPort, maxPort);
    if invalid.Some? then Failure(invalid.value)
    else
      var sockets := Take(Bindable(minPort, maxPort, canBind), numPorts);
      var shortfall := EnoughPorts(numPorts, minPort, maxPort, |sockets|);
      if shortfall.Some? then Failure(shortfall.value)
      else Success(Filter(sockets, canClose))
  }

  /** reserve(numPorts, minPort, maxPort). When the first count check fails the
      error is raised whatever happens while freeing the sockets (the second check,
      if it runs, finds the same count and repeats the same message). */
  method Reserve(numPorts: Int32, minPort: Int32, maxPort: Int32, canBind: int -> bool, canClose: int -> bool)
    returns (r: Result<seq<int>, PortsError>)
    ensures r == ReserveOutcome(numPorts, minPort, maxPort, canBind, canClose)
  {
    var invalid := ValidateInputs(numPorts, minPort, maxPort);
    if invalid.Some? {
      return Failure(invalid.value);
    }
    var sockets := ReservePorts(numPorts, minPort, maxPort, canBind);
    var shortfall := EnoughPorts(numPorts, minPort, maxPort, |sockets|);
    var reserved := FreeSockets(sockets, canClose);
    if shortfall.Some? {
      return Failure(shortfall.value);
    }
    if |reserved| == |sockets| {
      var recheck := EnoughPorts(numPorts, minPort, maxPort, |reserved|);
      assert recheck.None?;
    }
    return Success(reserved);
  }

  /** reserve(numPorts): the default range [1024, 65535). */
  method ReserveCount(numPorts: Int32, canBind: int -> bool, canClose: int -> bool) returns (r: Result<seq<int>, PortsError>)
    ensures r == ReserveOutcome(numPorts, MIN_VALID_PORT, MAX_VALID_PORT, canBind, canClose)
  {
    r := Reserve(numPorts, MIN_VALID_PORT, MAX_VALID_PORT, canBind, canClose);
  }

  /** The first port of a one-port reservation; an empty set makes iterator().next() fail. */
  function FirstPort(r: Result<seq<int>, PortsError>): (p: Result<int, PortsError>)
    ensures r.Failure? ==> p == Failure(r.error)
    ensures r.Success? && r.value != [] ==> p == Success(r.value[0])
    ensures r.Success? && r.value == [] ==> p == Failure(NoSuchElement)
  {
    if r.Failure? then Failure(r.error)
    else if r.value == [] then Failure(NoSuchElement)
    else Success(r.value[0])
  }

  /** reserve(minPort, maxPort): one port of the range. */
  method ReserveOneIn(minPort: Int32, maxPort: Int32, canBind: int -> bool, canClose: int -> bool) returns (p: Result<int, PortsError>)
    ensures p == FirstPort(ReserveOutcome(1, minPort, maxPort, canBind, canClose))
  {
    var r := Reserve(1, minPort, maxPort, canBind, canClose);
    p := FirstPort(r);
  }

  /** reserve(): one port of the default range. */
  method ReserveOne(canBind: int -> bool, canClose: int -> bool) returns (p: Result<int, PortsError>)
    ensures p == FirstPort(ReserveOutcome(1, MIN_VALID_PORT, MAX_VALID_PORT, canBind, canClose))
  {
    var r := ReserveCount(1, canBind, canClose);
    p := FirstPort(r);
  }

  /** Every reserved port lies in the range, could be bound and released, and
      appears once; there are at most numPorts of them, exactly numPorts when every
      socket closed, and they are the lowest bindable ports of the range. */
  lemma {:induction false} ReservedPorts(numPorts: Int32, minPort: Int32, maxPort: Int32, canBind: int -> bool, canClose: int -> bool)
    requires ReserveOutcome(numPorts, minPort, maxPort, canBind, canClose).Success?
    ensures var ports := ReserveOutcome(numPorts, minPort, maxPort, canBind, canClose).value;
      && |ports| <= numPorts
      && Increasing(ports)
      && (forall p :: p in ports ==> minPort <= p < maxPort && canBind(p) && canClose(p))
      && (forall p :: p in ports ==> p in Bindable(minPort, maxPort, canBind)[..numPorts])
  {
    var b := Bindable(minPort, maxPort, canBind);
    var sockets := Take(b, numPorts);
    assert Increasing(Range(minPort, maxPort));
    FilterIncreasing(Range(minPort, maxPort), canBind);
    assert Increasing(sockets);
    FilterIncreasing(sockets, canClose);
    assert sockets == b[..numPorts];
    FilterMembers(sockets, canClose);
    FilterMembers(Range(minPort, maxPort), canBind);
    forall p | p in Filter(sockets, canClose)
      ensures minPort <= p < maxPort && canBind(p) && canClose(p)
    {
      assert p in sockets;
      assert p in b;
      assert p in Range(minPort, maxPort);
    }
  }

  /** When every held socket closes, exactly numPorts ports come back. */
  lemma {:induction false} ReserveExactCount(numPorts: Int32, minPort: Int32, maxPort: Int32, canBind: int -> bool, canClose: int -> bool)
    requires ReserveOutcome(numPorts, minPort, maxPort, canBind, canClose).Success?
    requires forall p :: canClose(p)
    ensures |ReserveOutcome(numPorts, minPort, maxPort, canBind, canClose).value| == numPorts
  {
    FilterAll(Take(Bindable(minPort, maxPort, canBind), numPorts), canClose);
  }

  lemma {:induction false} FilterAll(s: seq<int>, keep: int -> bool)
    requires forall x :: keep(x)
    ensures Filter(s, keep) == s
    decreases |s|
  {
    if s != [] {
      FilterAll(s[..|s| - 1], keep);
      assert s[..|s| - 1] + [s[|s| - 1]] == s;
    }
  }

  /** Valid arguments fail only when the range holds fewer than numPorts bindable ports,
      with the message the count check builds. */
  lemma ReserveFailsIffShort(numPorts: Int32, minPort: Int32, maxPort: Int32, canBind: int -> bool, canClose: int -> bool)
    requires ValidInputs(numPorts, minPort, maxPort)
    ensures var r := ReserveOutcome(numPorts, minPort, maxPort, canBind, canClose);
      && (r.Failure? <==> |Bindable(minPort, maxPort, canBind)| < numPorts)
      && (r.Failure? ==> r.error == EnoughPorts(numPorts, minPort, maxPort, |Bindable(minPort, maxPort, canBind)|).value)
  {
  }
}
