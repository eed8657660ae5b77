/** A client and a server joined by two byte streams: `NetClientOut` under `ClientApp` against `ServerApp`
    (lib/net_client.cpp, lib/app.cpp), without I/O errors and with writes reported before the next read. */
module Exchange {
  import opened Text
  import opened Decimal
  import opened Messages
  import opened Framing
  import opened Endpoints
  import opened Connection
  import opened Batches
  import opened Callbacks

  /** The server's address and name as configured, and the client's address as the server sees it. */
  datatype Setup = Setup(host: string, port: int, pings: nat, serverName: string, clientHost: string, clientPort: int)

  function NoError(n: nat): int {
    0
  }

  function Client(s: Setup): Party {
    Party(Outgoing(s.pings), ClientApp, s.host, s.port, NoError)
  }

  function Server(s: Setup): Party {
    Party(Incoming, ServerApp(s.serverName), s.clientHost, s.clientPort, NoError)
  }

  /** Both ends and the bytes under way; the server's end exists once the connection is accepted. */
  datatype Pair = Pair(client: Conn, server: Conn, accepted: bool, up: string, down: string)

  datatype Step =
    | Connected(remoteHost: string)
    | Accepted
    | ClientWrote
    | ServerWrote
    | ClientReads(n: nat)
    | ServerReads(n: nat)
    | ClientClosed
    | ServerEnds
    | ServerClosed

  /** The event a step is for the end it concerns. UV_EOF is -4095. */
  function EventOf(x: Pair, e: Step): Event
    requires e.ClientReads? ==> e.n <= |x.down|
    requires e.ServerReads? ==> e.n <= |x.up|
  {
    match e
    case Connected(remoteHost) => ConnectDone(0, remoteHost)
    case ClientReads(n) => ReadDone(n, x.down[..n])
    case ServerReads(n) => ReadDone(n, x.up[..n])
    case ServerEnds => ReadDone(-4095, "")
    case ClientClosed => CloseDone
    case ServerClosed => CloseDone
    case _ => WriteDone(0)
  }

  predicate ByClient(e: Step) {
    e.Connected? || e.ClientWrote? || e.ClientReads? || e.ClientClosed?
  }

  ghost predicate Possible(s: Setup, x: Pair, e: Step) {
    if e.Accepted? then !x.accepted
    else
      && (e.ClientReads? ==> 0 < e.n <= |x.down|)
      && (e.ServerReads? ==> 0 < e.n <= |x.up|)
      && (e.ServerEnds? ==> x.up == "" && !x.client.stream && x.client.log.closes > 0)
      && (!ByClient(e) ==> x.accepted)
      && var (p, c) := if ByClient(e) then (Client(s), x.client) else (Server(s), x.server);
         Enabled(p, c, EventOf(x, e)) && InOrder(c, EventOf(x, e))
  }

  /** The frames that `after` has written beyond those of `before`. */
  function NewBytes(before: Conn, after: Conn): string {
    if |before.log.wrote| <= |after.log.wrote| then Concat(after.log.wrote[|before.log.wrote|..]) else ""
  }

  function Next(s: Setup, x: Pair, e: Step): Outcome<Pair>
    requires e.ClientReads? ==> e.n <= |x.down|
    requires e.ServerReads? ==> e.n <= |x.up|
  {
    if e.Accepted? then
      var c :- Accept(Server(s));
      Ok(x.(server := c, accepted := true))
    else if ByClient(e) then
      var c :- Apply(Client(s), x.client, EventOf(x, e));
      Ok(x.(client := c, up := x.up + NewBytes(x.client, c), down := if e.ClientReads? then x.down[e.n..] else x.down))
    else
      var c :- Apply(Server(s), x.server, EventOf(x, e));
      Ok(x.(server := c, down := x.down + NewBytes(x.server, c), up := if e.ServerReads? then x.up[e.n..] else x.up))
  }

  function Init(s: Setup): Pair {
    Pair(Connect(Client(s), NEW), NEW, false, "", "")
  }

  /** The i-th request: the handshake, then pings numbered from 1. */
  function Request(s: Setup, i: nat): Message {
    var server := s.host + ":" + ToString(s.port);
    if i == 0 then Handshake("V01", server, "_NONE_")
    else Ping("Ping_from_" + "_NONE_" + "_to_" + server + "_" + ToString(i))
  }

  function Reply(s: Setup, i: nat): Message {
    if i == 0 then HandshakeResponse("V01", s.serverName, s.clientHost + ":" + ToString(s.clientPort))
    else PingResponse("Resp_from_" + s.serverName + "_to_" + Request(s, i).text)
  }

  function Requests(s: Setup, k: nat): (ms: seq<Message>)
    ensures |ms| == k
  {
    if k == 0 then [] else Requests(s, k - 1) + [Request(s, k - 1)]
  }

  function Replies(s: Setup, k: nat): (ms: seq<Message>)
    ensures |ms| == k
  {
    if k == 0 then [] else Replies(s, k - 1) + [Reply(s, k - 1)]
  }

  /** Names and hosts are words; everything the two ends say is then well-formed. */
  ghost predicate Proper(s: Setup) {
    IsToken(s.host) && IsToken(s.serverName) && IsToken(s.clientHost)
  }

  lemma TokenAppend(a: string, b: string)
    requires Spaceless(a) && IsToken(b)
    ensures IsToken(a + b)
  {
  }

  lemma AddressIsToken(host: string, port: int)
    requires Spaceless(host)
    ensures IsToken(Key(host, port))
  {
    PrintedShape(port);
    TokenAppend(host, ":");
    TokenAppend(host + ":", ToString(port));
  }

  lemma RequestProper(s: Setup, i: nat)
    requires Spaceless(s.host)
    ensures WellFormed(Request(s, i))
  {
    AddressIsToken(s.host, s.port);
    var a := PeerAddr(Client(s));
    if i > 0 {
      PrintedShape(i);
      TokenAppend("Ping_from_" + "_NONE_" + "_to_", a);
      TokenAppend("Ping_from_" + "_NONE_" + "_to_" + a, "_");
      TokenAppend("Ping_from_" + "_NONE_" + "_to_" + a + "_", ToString(i));
    }
  }

  lemma ReplyProper(s: Setup, i: nat)
    requires Proper(s)
    ensures WellFormed(Reply(s, i))
  {
    AddressIsToken(s.clientHost, s.clientPort);
    if i > 0 {
      RequestProper(s, i);
      TokenAppend("Resp_from_", s.serverName);
      TokenAppend("Resp_from_" + s.serverName, "_to_");
      TokenAppend("Resp_from_" + s.serverName + "_to_", Request(s, i).text);
    }
  }

  /** The client has sent requests 0 to i and waits for reply i. */
  ghost predicate ClientAt(s: Setup, c: Conn, i: nat) {
    && c.stream && !c.log.closing && !c.log.connecting
    && c.log.closes == 0 && c.log.notified == 0
    && c.log.wrote == Frames(Requests(s, i + 1))
    && c.log.received == Replies(s, i)
    && if c.state.Sending? then c.counter == i && c.log.returned == i && (i > 0 ==> c.log.reading)
       else c.state.Receiving? && c.counter == i + 1 && c.log.returned == i + 1 && c.log.reading
  }

  /** The server has answered requests 0 to k - 1. */
  ghost predicate ServerAt(s: Setup, c: Conn, k: nat) {
    && c.stream && !c.log.closing && !c.log.connecting && c.log.reading && (c.state.Receiving? || c.state.Sending?)
    && c.log.closes == 0 && c.log.notified == 0
    && c.log.wrote == Frames(Replies(s, k))
    && c.log.received == Requests(s, k)
    && c.log.returned <= k <= c.log.returned + 1
  }

  /** An end that has closed after sending `sent`, all reported; its close callback may be due. */
  ghost predicate Gone(c: Conn, sent: seq<string>, taken: seq<Message>) {
    && !c.stream && !c.log.connecting && c.log.closes == 1
    && c.log.wrote == sent && c.log.received == taken && c.log.returned == |sent|
    && c.log.notified == (if c.state.Closed? then 1 else 0)
    && (c.state.Closing? || c.state.Closed?)
  }

  ghost predicate Opening(s: Setup, x: Pair) {
    && x.client == Connect(Client(s), NEW) && x.up == "" && x.down == ""
    && if x.accepted then ServerAt(s, x.server, 0) && x.server.buffer == "" else x.server == NEW
  }

  ghost predicate Asking(s: Setup, x: Pair, i: nat) {
    && i <= s.pings
    && ClientAt(s, x.client, i) && x.client.buffer == "" && x.down == ""
    && x.up != ""
    && if x.accepted then ServerAt(s, x.server, i) && x.server.buffer + x.up == Frame(Request(s, i))
       else x.server == NEW && i == 0 && x.up == Frame(Request(s, i))
  }

  ghost predicate Answering(s: Setup, x: Pair, i: nat) {
    && i <= s.pings
    && x.accepted && ServerAt(s, x.server, i + 1) && x.server.buffer == "" && x.up == ""
    && ClientAt(s, x.client, i)
    && x.down != "" && x.client.buffer + x.down == Frame(Reply(s, i))
  }

  ghost predicate Ending(s: Setup, x: Pair) {
    && x.accepted && x.up == "" && x.down == ""
    && x.client.buffer == ""
    && Gone(x.client, Frames(Requests(s, s.pings + 1)), Replies(s, s.pings + 1))
    && (|| (ServerAt(s, x.server, s.pings + 1) && x.server.buffer == "")
        || Gone(x.server, Frames(Replies(s, s.pings + 1)), Requests(s, s.pings + 1)))
  }

  ghost predicate Inv(s: Setup, x: Pair) {
    var i := |x.client.log.received|;
    Opening(s, x) || Asking(s, x, i) || Answering(s, x, i) || Ending(s, x)
  }

  predicate Done(x: Pair) {
    x.client.state.Closed? && x.accepted && x.server.state.Closed?
  }

  // What each callback does to an end in one of the positions above.

  lemma ClientOpens(s: Setup, remoteHost: string) returns (d: Conn)
    ensures OnConnect(Client(s), Connect(Client(s), NEW), 0, remoteHost) == Ok(d)
    ensures ClientAt(s, d, 0) && d.state == Sending && d.buffer == "" && d.log.wrote == [Frame(Request(s, 0))]
  {
    hide Frame, Key, HandshakeFor, PingFor, Requests, Frames;
    var c := Connect(Client(s), NEW);
    d := OnConnect(Client(s), c, 0, remoteHost).value;
    HandshakeIsRequest(s);
    FirstRequest(s);
    assert [] + [Frame(Request(s, 0))] == [Frame(Request(s, 0))];
  }

  lemma HandshakeIsRequest(s: Setup)
    ensures HandshakeFor(Client(s)) == Request(s, 0)
  {
  }

  lemma FirstRequest(s: Setup)
    ensures Requests(s, 0) == [] && Requests(s, 1) == [Request(s, 0)]
    ensures Frames(Requests(s, 1)) == [Frame(Request(s, 0))]
  {
    hide Request, Frame;
    FramesAppend([], Request(s, 0));
    assert [] + [Request(s, 0)] == [Request(s, 0)] && [] + [Frame(Request(s, 0))] == [Frame(Request(s, 0))];
  }

  lemma ClientWrites(s: Setup, c: Conn, i: nat) returns (d: Conn)
    requires ClientAt(s, c, i) && c.state == Sending
    ensures OnWrite(Client(s), c, 0) == Ok(d)
    ensures ClientAt(s, d, i) && d.state == Receiving && d.buffer == c.buffer && d.log.wrote == c.log.wrote
  {
    hide Frames, Requests, Replies;
    d := OnWrite(Client(s), c, 0).value;
  }

  lemma ClientReadsPart(s: Setup, c: Conn, i: nat, data: string) returns (d: Conn)
    requires ClientAt(s, c, i) && c.state == Receiving && data != "" && '\n' !in c.buffer + data
    ensures OnRead(Client(s), c, |data|, data) == Ok(d)
    ensures ClientAt(s, d, i) && d.state == Receiving && d.buffer == c.buffer + data && d.log.wrote == c.log.wrote
  {
    hide Frames, Requests, Replies, Drain;
    DrainPartial(Client(s), c.(buffer := c.buffer + data));
    d := OnRead(Client(s), c, |data|, data).value;
  }

  lemma ClientReadsReply(s: Setup, c: Conn, i: nat, data: string) returns (d: Conn)
    requires Proper(s) && i <= s.pings
    requires ClientAt(s, c, i) && c.state == Receiving && data != "" && c.buffer + data == Frame(Reply(s, i))
    ensures OnRead(Client(s), c, |data|, data) == Ok(d)
    ensures i < s.pings ==> ClientAt(s, d, i + 1) && d.state == Sending && d.buffer == ""
                            && d.log.wrote == c.log.wrote + [Frame(Request(s, i + 1))]
    ensures i == s.pings ==> Gone(d, c.log.wrote, Replies(s, i + 1)) && d.state == Closing && d.buffer == ""
  {
    hide Frame, Frames, Reply, Drain;
    var m := Reply(s, i);
    var c1 := c.(buffer := c.buffer + data);
    ReplyProper(s, i);
    DrainFrame(Client(s), c1, m);
    var c2 := c.(state := Received, buffer := "", log := c.log.(received := c.log.received + [m]));
    assert Drain(Client(s), c1) == Ok(c2);
    assert c2.log.received == Replies(s, i + 1);
    ClientAnswers(s, c2, i + 1);
    d := Process(Client(s), c2).value;
    if i < s.pings {
      FramesAppend(Requests(s, i + 1), Request(s, i + 1));
    }
  }

  lemma ClientAnswers(s: Setup, c: Conn, i: nat)
    requires c.state == Received && c.counter == i >= 1 && c.stream && !c.log.closing
    ensures Process(Client(s), c)
         == Ok(if i >= 1 + s.pings
               then c.(state := Closing, stream := false, log := c.log.(closing := true, closes := c.log.closes + 1))
               else c.(state := Sending, log := c.log.(calls := c.log.calls + 1,
                                                       wrote := c.log.wrote + [Frame(Request(s, i))])))
  {
    hide Frame;
    assert PingFor(Client(s), c) == Request(s, i);
  }

  lemma ServerAccepts(s: Setup) returns (d: Conn)
    ensures Accept(Server(s)) == Ok(d) && ServerAt(s, d, 0) && d.buffer == ""
  {
    d := Accept(Server(s)).value;
  }

  lemma ServerWrites(s: Setup, c: Conn, k: nat) returns (d: Conn)
    requires ServerAt(s, c, k) && c.log.returned < k
    ensures OnWrite(Server(s), c, 0) == Ok(d)
    ensures ServerAt(s, d, k) && d.buffer == c.buffer && d.log.returned == k
  {
    hide Frames, Requests, Replies;
    d := OnWrite(Server(s), c, 0).value;
  }

  lemma ServerReadsPart(s: Setup, c: Conn, k: nat, data: string) returns (d: Conn)
    requires ServerAt(s, c, k) && data != "" && '\n' !in c.buffer + data
    ensures OnRead(Server(s), c, |data|, data) == Ok(d)
    ensures ServerAt(s, d, k) && d.buffer == c.buffer + data && d.log.returned == c.log.returned
  {
    hide Frames, Requests, Replies, Drain;
    DrainPartial(Server(s), c.(buffer := c.buffer + data));
    d := OnRead(Server(s), c, |data|, data).value;
  }

  lemma ServerReadsRequest(s: Setup, c: Conn, k: nat, data: string) returns (d: Conn)
    requires Spaceless(s.host) && ServerAt(s, c, k) && c.log.returned == k && data != "" && c.buffer + data == Frame(Request(s, k))
    ensures OnRead(Server(s), c, |data|, data) == Ok(d)
    ensures ServerAt(s, d, k + 1) && d.buffer == "" && d.log.returned == k
    ensures d.log.wrote == c.log.wrote + [Frame(Reply(s, k))]
  {
    hide Frame, Frames, Drain, HandleMessage;
    var m := Request(s, k);
    var c1 := c.(buffer := c.buffer + data);
    RequestProper(s, k);
    DrainFrame(Server(s), c1, m);
    ServerReplies(s, c1.(state := Received), k);
    d := Drain(Server(s), c1).value;
    FramesAppend(Replies(s, k), Reply(s, k));
    assert Replies(s, k + 1) == Replies(s, k) + [Reply(s, k)];
  }

  lemma ServerReplies(s: Setup, c: Conn, k: nat)
    requires c.state == Received && c.stream
    ensures HandleMessage(Server(s), c, Request(s, k))
         == Ok(c.(state := Sending, log := c.log.(calls := c.log.calls + 1, wrote := c.log.wrote + [Frame(Reply(s, k))],
                                                  received := c.log.received + [Request(s, k)])))
  {
    hide Frame;
    var c1 := c.(log := c.log.(received := c.log.received + [Request(s, k)]));
    PerformSingle(Server(s), c1, Send(Reply(s, k)));
  }

  /** The bytes of exchanges `i` to the last. */
  function Left(s: Setup, i: nat): nat
    decreases s.pings + 1 - i
  {
    if i > s.pings then 0 else |Frame(Request(s, i))| + |Frame(Reply(s, i))| + Left(s, i + 1)
  }

  function BytesToGo(s: Setup, x: Pair): nat {
    var i := |x.client.log.received|;
    if x.client.state.Connecting? then Left(s, 0)
    else
      |x.up| + |x.down| + Left(s, i + 1)
      + if i <= s.pings && |x.server.log.received| == i then |Frame(Reply(s, i))| else 0
  }

  function One(b: bool): nat {
    if b then 1 else 0
  }

  /** The work left: bytes to carry, write reports to make, the connection to set up and both ends to close. */
  function Work(s: Setup, x: Pair): int {
    BytesToGo(s, x)
    + (s.pings + 1 - x.client.log.returned) + (s.pings + 1 - x.server.log.returned)
    + One(x.client.state.Connecting?) + One(!x.accepted)
    + One(!x.client.state.Closed?)
    + One(!x.server.state.Closed?) + One(!x.server.state.Closed? && !x.server.state.Closing?)
  }

  ghost predicate Advances(s: Setup, x: Pair, e: Step)
    requires e.ClientReads? ==> e.n <= |x.down|
    requires e.ServerReads? ==> e.n <= |x.up|
  {
    var r := Next(s, x, e);
    r.Ok? && Inv(s, r.value) && Work(s, r.value) < Work(s, x)
  }

  lemma OneNewFrame(before: Conn, after: Conn, f: string)
    requires after.log.wrote == before.log.wrote + [f]
    ensures NewBytes(before, after) == f
  {
    assert after.log.wrote[|before.log.wrote|..] == [f];
    assert [f][1..] == [] && f + "" == f;
    assert Concat([f]) == f;
  }

  lemma NoNewFrame(before: Conn, after: Conn)
    requires after.log.wrote == before.log.wrote
    ensures NewBytes(before, after) == ""
  {
    assert after.log.wrote[|before.log.wrote|..] == [];
  }

  /** Part of a frame holds no terminator, and the rest of it is still to come. */
  lemma CutFrame(m: Message, held: string, coming: string, n: nat)
    requires WellFormed(m) && held + coming == Frame(m) && n <= |coming|
    ensures (held + coming[..n]) + coming[n..] == Frame(m)
    ensures n < |coming| ==> '\n' !in held + coming[..n]
    ensures n == |coming| ==> coming[..n] == coming && coming[n..] == ""
  {
    NoTerminatorInside(m);
    var text := Serialize(m);
    hide Serialize;
    assert coming[..n] + coming[n..] == coming;
    AppendAssoc(held, coming[..n], coming[n..]);
    if n < |coming| {
      StartOfLine(text, "", held + coming[..n], coming[n..]);
      assert text + "\n" + "" == text + "\n";
    }
  }

  lemma ConnectedAdvances(s: Setup, x: Pair, e: Step)
    requires Inv(s, x) && e.Connected? && Possible(s, x, e)
    ensures Advances(s, x, e)
  {
    hide OnConnect, Frame, Frames, Requests, Replies, Request, Reply, Next, Connect, ClientAt;
    NotYetOpen(s, x, e);
    var d := ClientOpens(s, e.remoteHost);
    ConnectedNext(s, x, e, d);
    OpenedAdvances(s, x, d);
  }

  lemma NotYetOpen(s: Setup, x: Pair, e: Step)
    requires Inv(s, x) && e.Connected? && Possible(s, x, e)
    ensures Opening(s, x)
  {
    hide Frame, Frames, Requests, Replies, Request, Reply;
  }

  lemma ConnectedNext(s: Setup, x: Pair, e: Step, d: Conn)
    requires Opening(s, x) && e.Connected?
    requires OnConnect(Client(s), Connect(Client(s), NEW), 0, e.remoteHost) == Ok(d) && d.log.wrote == [Frame(Request(s, 0))]
    ensures Next(s, x, e) == Ok(x.(client := d, up := Frame(Request(s, 0))))
  {
    hide OnConnect, Frame, Frames, Requests, Replies, Request, Reply, ServerAt;
    assert [] + [Frame(Request(s, 0))] == [Frame(Request(s, 0))];
    OneNewFrame(x.client, d, Frame(Request(s, 0)));
    assert "" + Frame(Request(s, 0)) == Frame(Request(s, 0));
  }

  lemma OpenedAdvances(s: Setup, x: Pair, d: Conn)
    requires Opening(s, x) && ClientAt(s, d, 0) && d.state == Sending && d.buffer == ""
    ensures var y := x.(client := d, up := Frame(Request(s, 0))); Inv(s, y) && Work(s, y) < Work(s, x)
  {
    hide Frame, Frames, Requests, Replies, Request, Reply;
    var y := x.(client := d, up := Frame(Request(s, 0)));
    assert d.log.received == [] && Asking(s, y, 0) by {
      NothingYet(s);
      assert "" + y.up == y.up;
    }
    assert Left(s, 0) == |Frame(Request(s, 0))| + |Frame(Reply(s, 0))| + Left(s, 1);
    NothingYet(s);
  }

  lemma AcceptedAdvances(s: Setup, x: Pair)
    requires Inv(s, x) && !x.accepted
    ensures Advances(s, x, Step.Accepted)
  {
    hide Accept, Connect, Frame, Frames, Requests, Replies, Request, Reply, Left;
    var d := ServerAccepts(s);
    assert ServerAt(s, d, 0) && d.log.received == [];
    assert "" + x.up == x.up;
  }

  lemma ClientWroteAdvances(s: Setup, x: Pair)
    requires Inv(s, x) && Possible(s, x, ClientWrote)
    ensures Advances(s, x, ClientWrote)
  {
    hide OnWrite, Frame, Frames, Requests, Replies, Request, Reply, Left;
    var i := |x.client.log.received|;
    var d := ClientWrites(s, x.client, i);
    NoNewFrame(x.client, d);
    assert x.up + "" == x.up;
  }

  lemma ServerWroteAdvances(s: Setup, x: Pair)
    requires Inv(s, x) && Possible(s, x, ServerWrote)
    ensures Advances(s, x, ServerWrote)
  {
    hide OnWrite, Frame, Frames, Requests, Replies, Request, Reply, Left;
    var k := |x.server.log.received|;
    var d := ServerWrites(s, x.server, k);
    NoNewFrame(x.server, d);
    assert x.down + "" == x.down;
  }

  lemma ServerReadsAdvances(s: Setup, x: Pair, n: nat)
    requires Spaceless(s.host) && Inv(s, x) && Possible(s, x, ServerReads(n))
    ensures Advances(s, x, ServerReads(n))
  {
    hide OnRead, Frame, Frames, Requests, Replies, Request, Reply;
    var i := |x.client.log.received|;
    var data := x.up[..n];
    RequestProper(s, i);
    CutFrame(Request(s, i), x.server.buffer, x.up, n);
    if n < |x.up| {
      var d := ServerReadsPart(s, x.server, i, data);
      NoNewFrame(x.server, d);
    } else {
      var d := ServerReadsRequest(s, x.server, i, data);
      OneNewFrame(x.server, d, Frame(Reply(s, i)));
      assert "" + Frame(Reply(s, i)) == Frame(Reply(s, i));
    }
  }

  lemma ClientReadsAdvances(s: Setup, x: Pair, n: nat)
    requires Proper(s) && Inv(s, x) && Possible(s, x, ClientReads(n))
    ensures Advances(s, x, ClientReads(n))
  {
    hide Advances, Apply, Frame, Frames, Requests, Replies, Request, Reply;
    var i := |x.client.log.received|;
    ReplyProper(s, i);
    CutFrame(Reply(s, i), x.client.buffer, x.down, n);
    if n < |x.down| {
      ClientReadsSome(s, x, i, n);
    } else {
      ClientReadsAll(s, x, i);
    }
  }

  lemma ClientReadsSome(s: Setup, x: Pair, i: nat, n: nat)
    requires Answering(s, x, i) && Possible(s, x, ClientReads(n)) && n < |x.down|
    requires '\n' !in x.client.buffer + x.down[..n]
    requires x.client.buffer + x.down[..n] + x.down[n..] == Frame(Reply(s, i))
    ensures Advances(s, x, ClientReads(n))
  {
    hide OnRead, Frame, Frames, Requests, Replies, Request, Reply;
    var d := ClientReadsPart(s, x.client, i, x.down[..n]);
    NoNewFrame(x.client, d);
    assert x.up + "" == x.up;
  }

  lemma ClientReadsAll(s: Setup, x: Pair, i: nat)
    requires Proper(s) && Answering(s, x, i) && Possible(s, x, ClientReads(|x.down|))
    ensures Advances(s, x, ClientReads(|x.down|))
  {
    hide OnRead, Frame, Frames, Requests, Replies, Request, Reply;
    assert x.down[..|x.down|] == x.down && x.down[|x.down|..] == "";
    var d := ClientReadsReply(s, x.client, i, x.down);
    if i < s.pings {
      OneNewFrame(x.client, d, Frame(Request(s, i + 1)));
      assert "" + Frame(Request(s, i + 1)) == Frame(Request(s, i + 1));
    } else {
      NoNewFrame(x.client, d);
    }
  }

  lemma ClientClosedAdvances(s: Setup, x: Pair)
    requires Inv(s, x) && Possible(s, x, ClientClosed)
    ensures Advances(s, x, ClientClosed)
  {
    hide Frame, Frames, Requests, Replies, Request, Reply, Left;
    NoNewFrame(x.client, OnClose(x.client));
    assert x.up + "" == x.up;
  }

  lemma ServerClosedAdvances(s: Setup, x: Pair)
    requires Inv(s, x) && Possible(s, x, ServerClosed)
    ensures Advances(s, x, ServerClosed)
  {
    hide Frame, Frames, Requests, Replies, Request, Reply, Left;
    NoNewFrame(x.server, OnClose(x.server));
    assert x.down + "" == x.down;
  }

  lemma ServerEndsAdvances(s: Setup, x: Pair)
    requires Inv(s, x) && Possible(s, x, ServerEnds)
    ensures Advances(s, x, ServerEnds)
  {
    hide Frame, Frames, Requests, Replies, Request, Reply, Left, Drain, Process;
    NoNewFrame(x.server, Close(x.server));
    assert x.down + "" == x.down;
  }

  /** Every step that can happen keeps the protocol in one of its four positions and uses up work. */
  lemma StepAdvances(s: Setup, x: Pair, e: Step)
    requires Proper(s) && Inv(s, x) && Possible(s, x, e)
    ensures Advances(s, x, e)
  {
    hide Advances, Inv;
    match e
    case Connected(_) => ConnectedAdvances(s, x, e);
    case Accepted => AcceptedAdvances(s, x);
    case ClientWrote => ClientWroteAdvances(s, x);
    case ServerWrote => ServerWroteAdvances(s, x);
    case ClientReads(n) => ClientReadsAdvances(s, x, n);
    case ServerReads(n) => ServerReadsAdvances(s, x, n);
    case ClientClosed => ClientClosedAdvances(s, x);
    case ServerEnds => ServerEndsAdvances(s, x);
    case ServerClosed => ServerClosedAdvances(s, x);
  }

  /** A step that can be taken now, as long as the exchange is not over. */
  function Pick(x: Pair): Step {
    if x.client.state.Connecting? then Step.Connected("")
    else if !x.accepted then Step.Accepted
    else if x.client.log.returned < |x.client.log.wrote| then ClientWrote
    else if x.server.log.returned < |x.server.log.wrote| then ServerWrote
    else if x.up != "" then ServerReads(|x.up|)
    else if x.down != "" then ClientReads(|x.down|)
    else if x.client.state.Closing? then ClientClosed
    else if x.server.stream then ServerEnds
    else ServerClosed
  }

  /** The exchange never gets stuck. */
  lemma AlwaysProceeds(s: Setup, x: Pair)
    requires Inv(s, x) && !Done(x)
    ensures Possible(s, x, Pick(x))
  {
    hide Frame, Requests, Replies, Frames;
    assert x.up[..|x.up|] == x.up && x.down[..|x.down|] == x.down;
  }

  lemma WorkNonNegative(s: Setup, x: Pair)
    requires Inv(s, x)
    ensures Work(s, x) >= 0
  {
    hide Frame, Requests, Replies, Frames, Left;
  }

  /** The state after a sequence of possible steps. */
  ghost predicate Reaches(s: Setup, x: Pair, steps: seq<Step>, y: Pair)
    decreases |steps|
  {
    if steps == [] then x == y
    else Possible(s, x, steps[0]) && match Next(s, x, steps[0]) case Ok(z) => Reaches(s, z, steps[1..], y) case Abort(_) => false
  }

  lemma {:induction false} RunAdvances(s: Setup, x: Pair, steps: seq<Step>, y: Pair)
    requires Proper(s) && Inv(s, x) && Reaches(s, x, steps, y)
    ensures Inv(s, y) && Work(s, y) + |steps| <= Work(s, x)
    decreases |steps|
  {
    if steps != [] {
      hide Inv, Work, Next, Possible;
      StepAdvances(s, x, steps[0]);
      RunAdvances(s, Next(s, x, steps[0]).value, steps[1..], y);
    }
  }

  lemma InitInv(s: Setup)
    ensures Inv(s, Init(s)) && Work(s, Init(s)) == Left(s, 0) + 2 * s.pings + 7
  {
    hide Left;
  }

  /** Strict alternation, exact transcripts, and a close exactly after the last reply. */
  ghost predicate Orderly(s: Setup, x: Pair) {
    var (asked, served) := (|x.client.log.wrote|, |x.server.log.received|);
    var (answered, got) := (|x.server.log.wrote|, |x.client.log.received|);
    && got <= answered == served <= asked <= got + 1 <= s.pings + 2
    && x.client.log.wrote == Frames(Requests(s, asked))
    && x.server.log.received == Requests(s, served)
    && x.server.log.wrote == Frames(Replies(s, answered))
    && x.client.log.received == Replies(s, got)
    && (x.client.state.Closing? || x.client.state.Closed? <==> got == s.pings + 1)
  }

  lemma InvOrderly(s: Setup, x: Pair)
    requires Inv(s, x)
    ensures Orderly(s, x)
  {
    hide Frame, Frames, Requests, Replies, Request, Reply;
    NothingYet(s);
  }

  lemma NothingYet(s: Setup)
    ensures Requests(s, 0) == [] && Replies(s, 0) == [] && Frames([]) == []
  {
  }

  /** Both ends have the full transcript and no byte is left anywhere. */
  ghost predicate Complete(s: Setup, x: Pair) {
    && x.client.log.received == Replies(s, s.pings + 1)
    && x.server.log.received == Requests(s, s.pings + 1)
    && x.up == x.down == "" && x.client.buffer == ""
  }

  lemma DoneIsComplete(s: Setup, x: Pair)
    requires Inv(s, x) && Done(x)
    ensures Complete(s, x)
  {
    hide Frame, Frames, Requests, Replies, Request, Reply;
  }

  /** The protocol theorem. After any steps from the start, however the bytes were cut and the callbacks interleaved,
      no callback has died, the exchange is orderly, the number of steps is within a bound fixed by the messages,
      and unless both ends are closed with the full transcript some step is possible. */
  lemma ExchangeCompletes(s: Setup, steps: seq<Step>, x: Pair)
    requires Proper(s) && Reaches(s, Init(s), steps, x)
    ensures Orderly(s, x)
    ensures |steps| <= Left(s, 0) + 2 * s.pings + 7
    ensures Done(x) || Possible(s, x, Pick(x))
    ensures Done(x) ==> Complete(s, x)
  {
    hide Work, Inv, Reaches, Possible, Next, Orderly, Complete;
    InitInv(s);
    RunAdvances(s, Init(s), steps, x);
    WorkNonNegative(s, x);
    InvOrderly(s, x);
    if Done(x) {
      DoneIsComplete(s, x);
    } else {
      AlwaysProceeds(s, x);
    }
  }

  /** No step that may come next makes a callback die. */
  lemma NoCallbackDies(s: Setup, steps: seq<Step>, x: Pair, e: Step)
    requires Proper(s) && Reaches(s, Init(s), steps, x) && Possible(s, x, e)
    ensures Next(s, x, e).Ok?
  {
    InitInv(s);
    RunAdvances(s, Init(s), steps, x);
    StepAdvances(s, x, e);
  }

  // The server application answers before its name is set (lib/app.cpp:30-35): an empty name.

  /** With an empty name the handshake response has three words, one too few for the parser. */
  lemma NamelessResponseUnreadable(s: Setup)
    requires s.serverName == "" && IsToken(s.clientHost)
    ensures Read(Serialize(Reply(s, 0))) == NoMessage
    ensures '\n' !in Serialize(Reply(s, 0))
  {
    hide Tokens, ToString;
    var a := s.clientHost + ":" + ToString(s.clientPort);
    AddressIsToken(s.clientHost, s.clientPort);
    CleanWords("HANDSHRESP ", "V01", "", a);
    var text := "HANDSHRESP" + " " + ("V01" + " " + (" " + a));
    TokensCons("HANDSHRESP", "V01" + " " + (" " + a));
    TokensCons("V01", " " + a);
    BlankFirst(a);
    TokensOfOne(a);
    assert Serialize(Reply(s, 0)) == text;
    assert Tokens(text) == ["HANDSHRESP", "V01", a];
  }

  lemma BlankFirst(a: string)
    ensures Tokens(" " + a) == Tokens(a)
  {
    assert (" " + a)[1..] == a;
    assert SkipSpaces(" " + a) == SkipSpaces(a);
  }

  lemma DrainUnreadable(p: Party, c: Conn, text: string)
    requires c.buffer == text + "\n" && '\n' !in text && Read(text) == NoMessage
    ensures Drain(p, c) == Ok(c.(buffer := ""))
  {
    hide Read;
    assert c.buffer[..|text|] == text && c.buffer[|text| + 1..] == "";
    FindIsUnique(c.buffer, '\n', |text|);
    DrainPartial(p, c.(buffer := ""));
  }

  lemma ClientIgnoresNameless(s: Setup, c: Conn, data: string) returns (d: Conn)
    requires s.serverName == "" && IsToken(s.clientHost)
    requires ClientAt(s, c, 0) && c.state == Receiving && data != "" && c.buffer + data == Frame(Reply(s, 0))
    ensures OnRead(Client(s), c, |data|, data) == Ok(d)
    ensures ClientAt(s, d, 0) && d.state == Receiving && d.log.wrote == c.log.wrote && d.log.returned == |d.log.wrote|
  {
    hide Frames, Requests, Replies, Reply, Drain, Serialize, Read;
    NamelessResponseUnreadable(s);
    DrainUnreadable(Client(s), c.(buffer := c.buffer + data), Serialize(Reply(s, 0)));
    d := OnRead(Client(s), c, |data|, data).value;
  }

  /** Every state that can be reached is either the end or can be left. */
  ghost predicate NeverStuck(s: Setup) {
    forall steps, x {:trigger Reaches(s, Init(s), steps, x)} | Reaches(s, Init(s), steps, x) ::
      Done(x) || exists e :: Possible(s, x, e)
  }

  lemma {:induction false} ReachesOneMore(s: Setup, x: Pair, steps: seq<Step>, y: Pair, e: Step)
    requires Reaches(s, x, steps, y) && Possible(s, y, e) && Next(s, y, e).Ok?
    ensures Reaches(s, x, steps + [e], Next(s, y, e).value)
    decreases |steps|
  {
    hide Next;
    if steps == [] {
      assert steps + [e] == [e] && [e][1..] == [];
    } else {
      ReachesOneMore(s, Next(s, x, steps[0]).value, steps[1..], y, e);
      assert (steps + [e])[1..] == steps[1..] + [e];
    }
  }

  /** Up to the first reply the server's name does not matter: that reply gets under way. */
  lemma {:induction false} UntilReply(s: Setup, steps: seq<Step>, x: Pair) returns (more: seq<Step>, y: Pair)
    requires Spaceless(s.host) && Reaches(s, Init(s), steps, x) && Inv(s, x) && x.client.log.received == []
    ensures Reaches(s, Init(s), more, y) && Answering(s, y, 0)
    ensures y.client.state == Receiving && y.server.log.returned == 1
    decreases Work(s, x)
  {
    WorkNonNegative(s, x);
    NotDoneYet(s, x);
    AlwaysProceeds(s, x);
    var e := Pick(x);
    if e.ClientReads? {
      more, y := steps, x;
    } else {
      BeforeReply(s, x, e);
      ReachesOneMore(s, Init(s), steps, x, e);
      WorkNonNegative(s, Next(s, x, e).value);
      more, y := UntilReply(s, steps + [e], Next(s, x, e).value);
    }
  }

  lemma NotDoneYet(s: Setup, x: Pair)
    requires Inv(s, x) && x.client.log.received == []
    ensures !Done(x) && !Pick(x).ClientClosed? && !Pick(x).ServerEnds? && !Pick(x).ServerClosed?
    ensures Pick(x).ClientReads? ==> Answering(s, x, 0) && x.client.state == Receiving && x.server.log.returned == 1
  {
    hide Frame, Frames, Requests, Replies, Request, Reply;
  }

  lemma BeforeReply(s: Setup, x: Pair, e: Step)
    requires Spaceless(s.host) && Inv(s, x) && x.client.log.received == [] && e == Pick(x) && Possible(s, x, e)
    requires !e.ClientReads? && !e.ClientClosed? && !e.ServerEnds? && !e.ServerClosed?
    ensures Advances(s, x, e) && Next(s, x, e).value.client.log.received == []
  {
    hide Inv, Frame, Requests, Replies;
    match e
    case Connected(_) => ConnectedAdvances(s, x, e);
    case Accepted => AcceptedAdvances(s, x);
    case ClientWrote => ClientWroteAdvances(s, x);
    case ServerWrote => ServerWroteAdvances(s, x);
    case ServerReads(n) => ServerReadsAdvances(s, x, n);
  }

  lemma NamelessStuck(s: Setup)
    requires IsToken(s.host) && IsToken(s.clientHost) && s.serverName == ""
    ensures !NeverStuck(s)
  {
    hide Inv, Work, Frame, Requests, Replies, Request, Reply, Reaches, OnRead;
    InitInv(s);
    StartReached(s);
    var steps, y := UntilReply(s, [], Init(s));
    var e := ClientReads(|y.down|);
    assert y.down[..|y.down|] == y.down && y.down[|y.down|..] == "";
    var d := ClientIgnoresNameless(s, y.client, y.down);
    NoNewFrame(y.client, d);
    assert y.up + "" == y.up;
    ReachesOneMore(s, Init(s), steps, y, e);
    var z := Next(s, y, e).value;
    assert z == y.(client := d, down := "");
    forall e' ensures !Possible(s, z, e') {
      NothingPossible(s, z, e');
    }
  }

  lemma NothingPossible(s: Setup, x: Pair, e: Step)
    requires x.accepted && x.up == x.down == ""
    requires ClientAt(s, x.client, 0) && x.client.log.returned == |x.client.log.wrote|
    requires ServerAt(s, x.server, 1) && x.server.log.returned == |x.server.log.wrote|
    ensures !Possible(s, x, e)
  {
    hide Frames, Requests, Replies;
  }

  lemma StartReached(s: Setup)
    ensures Reaches(s, Init(s), [], Init(s)) && Init(s).client.log.received == []
  {
  }

  /** Every run is orderly, short, goes on until it is over, and is over only with the full transcript. */
  ghost predicate Completes(s: Setup) {
    forall steps, x {:trigger Reaches(s, Init(s), steps, x)} | Reaches(s, Init(s), steps, x) ::
      && Orderly(s, x)
      && |steps| <= Left(s, 0) + 2 * s.pings + 7
      && (Done(x) || exists e :: Possible(s, x, e))
      && (Done(x) ==> Complete(s, x))
  }

  /** With word-like addresses and a name without blanks, the exchange always runs to its end
      if and only if the server has a name by the time it answers. */
  lemma CompletesIffNamed(s: Setup)
    requires IsToken(s.host) && IsToken(s.clientHost) && Spaceless(s.serverName)
    ensures Completes(s) <==> s.serverName != ""
    ensures NeverStuck(s) <==> s.serverName != ""
  {
    hide Reaches, Possible, Orderly, Complete, Left;
    if s.serverName == "" {
      NamelessStuck(s);
    } else {
      forall steps, x {:trigger Reaches(s, Init(s), steps, x)} | Reaches(s, Init(s), steps, x)
        ensures Orderly(s, x) && |steps| <= Left(s, 0) + 2 * s.pings + 7
        ensures (Done(x) || exists e :: Possible(s, x, e)) && (Done(x) ==> Complete(s, x))
      {
        ExchangeCompletes(s, steps, x);
      }
    }
  }
}
