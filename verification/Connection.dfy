/** lib/net_client.cpp, node/peer_conn.cpp and the handlers of lib/app.cpp: what one connection does in each callback,
    as functions on `Conn` values. Class `NetClient` does the same by updating its fields. */
module Connection {
  import opened Text
  import opened Decimal
  import opened Messages
  import opened Framing
  import opened Endpoints

  datatype State =
    | NotConnected | Connecting | Connected | Accepted | Sending
    | Sent | Receiving | Received | Closing | Closed

  predicate Live(state: State) {
    state.Sending? || state.Receiving? || state.Received?
  }

  /** The classes NetClientIn, NetClientOut and PeerClientOut. */
  datatype Kind = Incoming | Outgoing(pings: int) | Peer

  /** What a message handler does to the connection the message came from. */
  datatype Call = Send(message: Message) | Shut

  /** What a message handler does: its calls, and how it dies after them if it does. */
  datatype Script = Script(calls: seq<Call>, fault: Option<Fault>)

  /** The application behind `myApp`. What a node does depends on its peer table, so here it is arbitrary:
      `handler(n, m)` handles `m` as the n-th message received, `gossip(n)` is the list sent after n libuv calls. */
  datatype App =
    | ClientApp
    | ServerApp(name: string)
    | NodeApp(name: string, handler: (nat, Message) -> Script, gossip: nat -> seq<Message>)

  function AppName(app: App): string {
    if app.ClientApp? then "_NONE_" else app.name
  }

  /** The fixed surroundings of a connection. `io(n)` is the result code of its n-th call into libuv. */
  datatype Party = Party(kind: Kind, app: App, host: string, port: int, io: nat -> int)

  function PeerAddr(p: Party): string {
    Key(p.host, p.port)
  }

  /** What has passed between the connection, libuv and the application. */
  datatype Log = Log(
    calls: nat,            // libuv calls that return a code
    connecting: bool,      // a connect callback is due
    reading: bool,         // the current stream has been told to read
    closing: bool,         // the current stream has been passed to uv_close
    timer: bool,           // the ping timer runs
    wrote: seq<string>,    // frames accepted by uv_write on the current stream
    returned: nat,         // how many of them have had their callback
    connects: nat,         // streams created
    closes: nat,           // streams passed to uv_close
    notified: nat,         // connectionClosed calls made to the application
    received: seq<Message> // messages handed to the application
  )

  datatype Conn = Conn(state: State, stream: bool, buffer: string, counter: nat, canon: string, log: Log)

  const NEW := Conn(NotConnected, false, "", 0, "", Log(0, false, false, false, false, [], 0, 0, 0, 0, []))

  /** How the process can die inside a callback. */
  datatype Fault = NullStream | WriteAssertion | ReadAssertion | UnhandledState | UnexpectedMessage | NumberFormat

  datatype Outcome<+T> = Ok(value: T) | Abort(fault: Fault) {
    predicate IsFailure() {
      Abort?
    }

    function PropagateFailure<U>(): Outcome<U>
      requires Abort?
    {
      Abort(fault)
    }

    function Extract(): T
      requires Ok?
    {
      value
    }
  }

  function OnClose(c: Conn): Conn {
    c.(state := Closed, log := c.log.(notified := c.log.notified + 1))
  }

  function Close(c: Conn): Conn {
    var c1 := c.(state := Closing, stream := false);
    if !c.stream then c1
    else if c.log.closing then OnClose(c1)
    else c1.(log := c.log.(closing := true, closes := c.log.closes + 1))
  }

  function SendMessage(p: Party, c: Conn, m: Message): (r: Outcome<Conn>)
    ensures r.Ok? ==> r.value.buffer == c.buffer
  {
    if c.state == Closing || c.state == Closed then Ok(c)
    else if !c.stream then Abort(NullStream)
    else
      var c1 := c.(state := Sending, log := c.log.(calls := c.log.calls + 1));
      if p.io(c.log.calls) != 0 then Ok(Close(c1))
      else Ok(c1.(log := c1.log.(wrote := c.log.wrote + [Frame(m)])))
  }

  function DoRead(p: Party, c: Conn): Outcome<Conn> {
    if !(c.state.Accepted? || c.state.Sent? || c.state.Sending? || c.state.Receiving?) then Abort(ReadAssertion)
    else if !c.stream then Abort(NullStream)
    else
      var c1 := c.(state := Receiving, log := c.log.(calls := c.log.calls + 1));
      if p.io(c.log.calls) < 0 then Ok(Close(c1))
      else Ok(c1.(log := c1.log.(reading := true)))
  }

  /** `isConnected`, for a stream whose descriptor libuv can still name. */
  predicate IsConnected(c: Conn) {
    c.stream && !(c.state.NotConnected? || c.state.Connecting? || c.state.Closing? || c.state.Closed?)
  }

  /** The sending loop of `sendOtherPeers`. */
  function SendWhileConnected(p: Party, c: Conn, ms: seq<Message>): (r: Outcome<Conn>)
    decreases |ms|
    ensures r.Ok? ==> r.value.buffer == c.buffer
  {
    if ms == [] || !IsConnected(c) then Ok(c)
    else
      var c1 :- SendMessage(p, c, ms[0]);
      SendWhileConnected(p, c1, ms[1..])
  }

  function Gossip(p: Party, c: Conn): seq<Message> {
    if p.app.NodeApp? then p.app.gossip(c.log.calls) else []
  }

  function PingFor(p: Party, c: Conn): Message {
    Ping("Ping_from_" + AppName(p.app) + "_to_" + PeerAddr(p) + "_" + ToString(c.counter))
  }

  function HandshakeFor(p: Party): Message {
    Handshake("V01", PeerAddr(p), AppName(p.app))
  }

  function OnTimer(p: Party, c: Conn): Outcome<Conn> {
    var c1 :- SendMessage(p, c, PingFor(p, c));
    SendWhileConnected(p, c1, Gossip(p, c1))
  }

  function ProcessOut(p: Party, c: Conn): Outcome<Conn>
    requires p.kind.Outgoing?
  {
    match c.state
    case Connected => SendMessage(p, c.(counter := 0), HandshakeFor(p))
    case Sending => DoRead(p, c.(counter := c.counter + 1))
    case Sent => DoRead(p, c)
    case Receiving => DoRead(p, c)
    case Received =>
      if c.counter >= 1 + p.kind.pings then Ok(Close(c))
      else if c.counter >= 1 then SendMessage(p, c, PingFor(p, c))
      else Ok(c)
    case _ => Abort(UnhandledState)
  }

  function ProcessPeer(p: Party, c: Conn): Outcome<Conn> {
    match c.state
    case Connected =>
      var c1 :- OnTimer(p, c);
      var c2 :- SendMessage(p, c1.(counter := 0, log := c1.log.(timer := true)), HandshakeFor(p));
      SendWhileConnected(p, c2, Gossip(p, c2))
    case Sending => DoRead(p, c.(counter := c.counter + 1))
    case Sent => DoRead(p, c)
    case Receiving => DoRead(p, c)
    case Received => Ok(c)
    case _ => Abort(UnhandledState)
  }

  /** The virtual `process`; an incoming connection inherits the empty one. */
  function Process(p: Party, c: Conn): Outcome<Conn> {
    match p.kind
    case Incoming => Ok(c)
    case Outgoing(_) => ProcessOut(p, c)
    case Peer => ProcessPeer(p, c)
  }

  function OnWrite(p: Party, c: Conn, status: int): Outcome<Conn> {
    var c1 := c.(log := c.log.(returned := c.log.returned + 1));
    if !Live(c.state) then Abort(WriteAssertion)
    else if status != 0 then Ok(Close(c1))
    else Process(p, c1)
  }

  /** `messageReceived` of the application, for the n-th message. */
  function React(p: Party, n: nat, m: Message): Script {
    match p.app
    case ClientApp => Script([], None)
    case ServerApp(name) => ServerReact(name, PeerAddr(p), m)
    case NodeApp(_, handler, _) => handler(n, m)
  }

  function ServerReact(name: string, peer: string, m: Message): Script {
    match m
    case Handshake(version, _, _) =>
      Script([if version != "V01" then Shut else Send(HandshakeResponse("V01", name, peer))], None)
    case Ping(text) => Script([Send(PingResponse("Resp_from_" + name + "_to_" + text))], None)
    case _ => Script([], Some(UnexpectedMessage))
  }

  function PerformOne(p: Party, c: Conn, call: Call): (r: Outcome<Conn>)
    ensures r.Ok? ==> r.value.buffer == c.buffer
  {
    match call
    case Send(m) => SendMessage(p, c, m)
    case Shut => Ok(Close(c))
  }

  function Perform(p: Party, c: Conn, calls: seq<Call>): (r: Outcome<Conn>)
    decreases |calls|
    ensures r.Ok? ==> r.value.buffer == c.buffer
  {
    if calls == [] then Ok(c)
    else
      var c1 :- PerformOne(p, c, calls[0]);
      Perform(p, c1, calls[1..])
  }

  lemma PerformSingle(p: Party, c: Conn, call: Call)
    ensures Perform(p, c, [call]) == PerformOne(p, c, call)
  {
    assert [call][1..] == [];
  }

  /** A handler at work on its connection. */
  function Act(p: Party, c: Conn, script: Script): (r: Outcome<Conn>)
    ensures r.Ok? ==> r.value.buffer == c.buffer
  {
    var c1 :- Perform(p, c, script.calls);
    if script.fault.Some? then Abort(script.fault.value) else Ok(c1)
  }

  function HandleMessage(p: Party, c: Conn, m: Message): (r: Outcome<Conn>)
    ensures r.Ok? ==> r.value.buffer == c.buffer
  {
    Act(p, c.(log := c.log.(received := c.log.received + [m])), React(p, |c.log.received|, m))
  }

  /** `doProcessReceivedBuffer`. */
  function Drain(p: Party, c: Conn): Outcome<Conn>
    decreases |c.buffer|
  {
    var i := Find(c.buffer, '\n');
    if i == |c.buffer| then Ok(c)
    else
      var c1 := c.(buffer := c.buffer[i + 1..]);
      match Read(c.buffer[..i])
      case NoMessage => Drain(p, c1)
      case BadNumber => Abort(NumberFormat)
      case Parsed(m) =>
        var c2 :- HandleMessage(p, c1.(state := Received), m);
        Drain(p, c2)
  }

  function OnRead(p: Party, c: Conn, nread: int, data: string): Outcome<Conn> {
    if nread <= 0 then Ok(Close(c))
    else
      var c1 :- Drain(p, c.(buffer := c.buffer + data));
      Process(p, c1)
  }

  function Connect(p: Party, c: Conn): Conn {
    if !(c.state.NotConnected? || c.state.Connecting? || c.state.Closed?) then c
    else
      Conn(Connecting, true, c.buffer, if p.kind.Peer? then c.counter else 0, c.canon,
           c.log.(calls := c.log.calls + 1, connecting := p.io(c.log.calls) == 0, reading := false, closing := false,
                  wrote := [], returned := 0, connects := c.log.connects + 1))
  }

  function OnConnect(p: Party, c: Conn, status: int, remoteHost: string): Outcome<Conn> {
    var c1 := c.(log := c.log.(connecting := false));
    if status != 0 then Ok(c1)
    else Process(p, c1.(state := Connected, canon := if remoteHost != p.host then Key(remoteHost, p.port) else c.canon))
  }

  /** NetHandler::onNewConnection: an accepted stream starts to be read (lib/net_handler.cpp:181-185). */
  function Accept(p: Party): Outcome<Conn> {
    DoRead(p, NEW.(state := Accepted, stream := true, log := NEW.log.(connects := 1)))
  }
}
