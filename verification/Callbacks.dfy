/** Runs of one connection under libuv: which callbacks may come when, and what every run keeps. */
module Callbacks {
  import opened Text
  import opened Decimal
  import opened Messages
  import opened Framing
  import opened Endpoints
  import opened Connection
  import opened Batches

  datatype Event =
    | Dial
    | ConnectDone(status: int, remoteHost: string)
    | WriteDone(status: int)
    | ReadDone(nread: int, data: string)
    | CloseDone
    | Timer

  /** libuv's promises: one callback per accepted connect, write and close; write callbacks before the close
      callback; no read once the stream is closing. The applications dial a connection again only when it is over. */
  ghost predicate Enabled(p: Party, c: Conn, e: Event) {
    match e
    case Dial =>
      || (c.state == NotConnected && !p.kind.Incoming?)
      || (p.kind.Outgoing? && c.state == Closed && c.log.returned == |c.log.wrote| && c.log.notified == c.log.closes)
    case ConnectDone(_, _) => c.log.connecting
    case WriteDone(_) => c.log.returned < |c.log.wrote|
    case ReadDone(nread, data) => c.log.reading && c.stream && (nread > 0 ==> |data| == nread)
    case CloseDone => c.log.notified < c.log.closes && c.log.returned == |c.log.wrote|
    case Timer => c.log.timer
  }

  /** The further assumption that finished writes are reported before the next read. */
  predicate InOrder(c: Conn, e: Event) {
    e.ReadDone? ==> c.log.returned == |c.log.wrote|
  }

  function Apply(p: Party, c: Conn, e: Event): Outcome<Conn> {
    match e
    case Dial => Ok(Connect(p, c))
    case ConnectDone(status, remoteHost) => OnConnect(p, c, status, remoteHost)
    case WriteDone(status) => OnWrite(p, c, status)
    case ReadDone(nread, data) => OnRead(p, c, nread, data)
    case CloseDone => Ok(OnClose(c))
    case Timer => OnTimer(p, c)
  }

  ghost predicate NoErrors(p: Party) {
    forall n {:trigger p.io(n)} :: p.io(n) == 0
  }

  /** The pairs of connection class and application there are; a node's handler throws nothing but what `stoi` throws. */
  ghost predicate Sensible(p: Party) {
    && (p.kind.Outgoing? <==> p.app.ClientApp?)
    && (p.kind.Peer? ==> p.app.NodeApp?)
    && (p.app.NodeApp? ==>
          forall n, m {:trigger p.app.handler(n, m)} ::
            p.app.handler(n, m).fault.Some? ==> p.app.handler(n, m).fault.value == NumberFormat)
  }

  /** Closed by a handler or a failed write while a batch was handled, then marked as receiving by the next message. */
  predicate Stale(c: Conn) {
    c.state == Received && !c.stream
  }

  ghost predicate Inv(p: Party, c: Conn) {
    && !(c.state.Connected? || c.state.Accepted? || c.state.Sent?)
    && (c.stream ==> Live(c.state) || c.state == Connecting)
    && (c.state == Connecting ==> c.stream)
    && (Live(c.state) && !c.stream ==> Stale(c) && p.app.NodeApp?)
    && (c.stream ==> !c.log.closing)
    && (c.log.connecting ==> c.state == Connecting)
    && (p.kind.Incoming? ==> !(c.state.NotConnected? || c.state.Connecting?))
    && (c.state.NotConnected? || c.state.Connecting? ==> c.log.wrote == [] && !c.log.reading)
    && (c.log.timer ==> p.kind.Peer? && !(c.state.NotConnected? || c.state.Connecting?))
    && c.log.returned <= |c.log.wrote| && (c.state == Closed ==> c.log.returned == |c.log.wrote|)
    && c.log.connects == c.log.closes + (if c.stream then 1 else 0)
    && c.log.closes == c.log.notified + (if c.state == Closing || Stale(c) then 1 else 0)
    && (p.kind.Outgoing? && c.stream ==> c.counter + (if c.state == Sending then 1 else 0) <= |c.log.wrote|)
  }

  /** From `c` to `d` frames were handed out; if a write failed the connection is closing. */
  ghost predicate SentOn(c: Conn, d: Conn) {
    && d.log.received == c.log.received
    && if d.stream then Carried(c, d) && (d.state == c.state || d.state == Sending)
       else Ended(c, d) && d.state == Closing
  }

  lemma SendGoesOut(p: Party, c: Conn, m: Message)
    requires c.stream && !c.log.closing && !(c.state.Closing? || c.state.Closed?)
    ensures var r := SendMessage(p, c, m); r.Ok? && SentOn(c, r.value) && (r.value.stream ==> r.value.state == Sending)
  {
    hide Frame;
  }

  lemma {:induction false} GossipGoesOut(p: Party, c: Conn, ms: seq<Message>)
    requires if c.stream then !c.log.closing && !(c.state.Closing? || c.state.Closed?) else c.state == Closing
    ensures var r := SendWhileConnected(p, c, ms); r.Ok? && if c.stream then SentOn(c, r.value) else r.value == c
    decreases |ms|
  {
    hide SendMessage;
    if ms != [] && IsConnected(c) {
      SendGoesOut(p, c, ms[0]);
      GossipGoesOut(p, SendMessage(p, c, ms[0]).value, ms[1..]);
    }
  }

  /** Sending keeps the invariant. */
  lemma SentKeepsInv(p: Party, c: Conn, d: Conn)
    requires Inv(p, c) && c.stream && Live(c.state) && !p.kind.Outgoing? && SentOn(c, d)
    ensures Inv(p, d)
  {
  }

  lemma ProcessSafe(p: Party, c: Conn)
    requires Sensible(p) && (c.stream || Stale(c)) && Live(c.state) && Inv(p, c)
    ensures var r := Process(p, c); r.Ok? && Inv(p, r.value)
  {
    hide Frame, PingFor;
  }

  lemma ConnectedSafe(p: Party, c: Conn)
    requires Sensible(p) && !p.kind.Incoming? && c.state == Connected && Inv(p, c.(state := Connecting)) && !c.log.connecting
    ensures var r := Process(p, c); r.Ok? && Inv(p, r.value)
  {
    hide PingFor, HandshakeFor;
    if p.kind.Peer? {
      PeerOpens(p, c);
    } else {
      hide Frame;
    }
  }

  /** A node's outgoing connection opens: ping, gossip, handshake, gossip, as far as the writes succeed. */
  lemma PeerOpens(p: Party, c: Conn)
    requires p.kind.Peer? && c.state == Connected && Inv(p, c.(state := Connecting)) && !c.log.connecting
    ensures var r := ProcessPeer(p, c); r.Ok? && Inv(p, r.value)
  {
    hide PingFor, HandshakeFor, SendMessage, SendWhileConnected;
    SendGoesOut(p, c, PingFor(p, c));
    var c1 := SendMessage(p, c, PingFor(p, c)).value;
    GossipGoesOut(p, c1, Gossip(p, c1));
    var c2 := SendWhileConnected(p, c1, Gossip(p, c1)).value;
    var c3 := c2.(counter := 0, log := c2.log.(timer := true));
    if c3.stream {
      SendGoesOut(p, c3, HandshakeFor(p));
    } else {
      ClosingSends(p, c3, HandshakeFor(p));
    }
    var c4 := SendMessage(p, c3, HandshakeFor(p)).value;
    GossipGoesOut(p, c4, Gossip(p, c4));
  }

  lemma ClosingSends(p: Party, c: Conn, m: Message)
    requires c.state == Closing || c.state == Closed
    ensures SendMessage(p, c, m) == Ok(c)
  {
  }

  /** The timer may fire at any moment. It is fatal only for a connection that was closed during a batch and is
      still marked as receiving. */
  lemma TimerSafe(p: Party, c: Conn)
    requires Sensible(p) && Inv(p, c) && c.log.timer
    ensures var r := OnTimer(p, c);
            && (r.Abort? <==> Stale(c)) && (r.Abort? ==> r.fault == NullStream)
            && (r.Ok? ==> Inv(p, r.value))
            && (!c.stream && r.Ok? ==> r.value == c)
  {
    hide PingFor;
    if c.stream {
      hide SendMessage;
      SendGoesOut(p, c, PingFor(p, c));
      var c1 := SendMessage(p, c, PingFor(p, c)).value;
      GossipGoesOut(p, c1, Gossip(p, c1));
      SentKeepsInv(p, c, c1);
      if c1.stream {
        SentKeepsInv(p, c1, SendWhileConnected(p, c1, Gossip(p, c1)).value);
      }
    } else if !Stale(c) {
      ClosingSends(p, c, PingFor(p, c));
      assert SendWhileConnected(p, c, Gossip(p, c)) == Ok(c);
    }
  }

  // Reading.

  lemma {:induction false} BatchFaults(p: Party, c: Conn, calls: seq<Call>)
    ensures var r := Perform(p, c, calls); r.Abort? ==> r.fault == NullStream
    decreases |calls|
  {
    if calls != [] && PerformOne(p, c, calls[0]).Ok? {
      BatchFaults(p, PerformOne(p, c, calls[0]).value, calls[1..]);
    }
  }

  /** How a batch can be fatal. */
  ghost predicate ReadFault(p: Party, f: Fault) {
    if p.app.ClientApp? then f == NumberFormat
    else f == NumberFormat || f == NullStream || (p.app.ServerApp? && f == UnexpectedMessage) || (p.kind.Peer? && f == UnhandledState)
  }

  lemma {:induction false} HandleFaults(p: Party, c: Conn, ms: seq<Message>)
    requires Sensible(p)
    ensures var r := HandleAll(p, c, ms); r.Abort? ==> ReadFault(p, r.fault)
    decreases |ms|
  {
    hide Perform, HandleAll;
    if p.app.ClientApp? {
      ClientHandles(p, c, ms);
    } else if ms != [] {
      var script := React(p, |c.log.received|, ms[0]);
      HandleFirst(p, c, ms);
      BatchFaults(p, Taken(c, ms[0]), script.calls);
      var r := Perform(p, Taken(c, ms[0]), script.calls);
      if r.Ok? {
        HandleFaults(p, r.value, ms[1..]);
      }
    } else {
      HandleNone(p, c);
    }
  }

  /** A connection before the `process` that follows a chunk. */
  ghost predicate AfterChunk(p: Party, c: Conn) {
    if c.stream then Live(c.state) else Stale(c) || (c.state == Closing && !p.kind.Outgoing?)
  }

  /** What a survived batch leaves keeps the invariant; only a node can end up stale. */
  lemma HandledKeepsInv(p: Party, c: Conn, ms: seq<Message>, d: Conn, buffer: string)
    requires Sensible(p) && Inv(p, c) && c.stream && Live(c.state) && HandleAll(p, c, ms) == Ok(d)
    requires Handled(p, c, ms, d) && Survivable(p, c.log.calls, Scripts(p, |c.log.received|, ms))
    ensures Inv(p, d.(buffer := buffer)) && AfterChunk(p, d.(buffer := buffer))
  {
    hide Ends, HandleAll, Scripts, Quiet, React;
    if p.app.ClientApp? {
      ClientHandles(p, c, ms);
    } else if p.app.ServerApp? && ms != [] {
      ServerScript(p, |c.log.received| + |ms| - 1, ms[|ms| - 1]);
    }
  }

  lemma ReadSafe(p: Party, c: Conn, data: string)
    requires Sensible(p) && Inv(p, c) && c.stream && Live(c.state) && data != ""
    ensures var r := OnRead(p, c, |data|, data);
            && (r.Abort? <==> !ChunkSurvives(p, c, data))
            && (r.Abort? ==> ReadFault(p, r.fault))
            && (r.Ok? ==> Inv(p, r.value))
  {
    hide Process, HandleAll, Deliver, Lines, Rest, ReadFault, Inv, Handled, Survivable, EndsAt, Scripts, Live, AfterChunk;
    var c1 := c.(buffer := c.buffer + data);
    BufferIsFree(p, c, c1.buffer);
    ChunkSurvivesIff(p, c, data);
    var ms := Deliver(Lines(c1.buffer)).messages;
    DrainRefinesSplit(p, c1);
    HandleFaults(p, c1, ms);
    OpenHandles(p, c1, ms);
    NumberIsFault(p);
    if Drain(p, c1).Ok? {
      var d := HandleAll(p, c1, ms).value;
      HandledKeepsInv(p, c1, ms, d, Rest(c1.buffer));
      AfterBatch(p, d.(buffer := Rest(c1.buffer)));
    }
  }

  lemma NumberIsFault(p: Party)
    ensures ReadFault(p, NumberFormat)
  {
  }

  lemma BufferIsFree(p: Party, c: Conn, buffer: string)
    requires Inv(p, c) && c.stream
    ensures Inv(p, c.(buffer := buffer)) && !c.log.closing
  {
  }

  /** `process` after a survived batch. */
  lemma AfterBatch(p: Party, c: Conn)
    requires Sensible(p) && Inv(p, c) && AfterChunk(p, c)
    ensures var r := Process(p, c); (r.Abort? ==> ReadFault(p, r.fault)) && (r.Ok? ==> Inv(p, r.value))
  {
    hide Process;
    if c.state == Closing {
      ClosingProcess(p, c);
    } else {
      ProcessSafe(p, c);
    }
  }

  lemma ClosingProcess(p: Party, c: Conn)
    requires c.state == Closing
    ensures Process(p, c) == if p.kind.Incoming? then Ok(c) else Abort(UnhandledState)
  {
  }

  /** The callbacks that kill the process: a write reported to a closing connection, a chunk that is not survived,
      and the ping timer of a connection closed during a batch. */
  ghost predicate Fails(p: Party, c: Conn, e: Event) {
    match e
    case WriteDone(_) => c.state == Closing
    case ReadDone(nread, data) => nread > 0 && !ChunkSurvives(p, c, data)
    case Timer => Stale(c)
    case _ => false
  }

  /** One callback of any connection, whatever libuv returns: it is fatal exactly in the three cases, each in its own
      way, and otherwise keeps the invariant. The assertion in `doRead` never fails. */
  lemma StepSafe(p: Party, c: Conn, e: Event)
    requires Sensible(p) && Inv(p, c) && Enabled(p, c, e)
    ensures var r := Apply(p, c, e);
            && (r.Abort? <==> Fails(p, c, e))
            && (r == Abort(WriteAssertion) <==> e.WriteDone? && c.state == Closing)
            && (r.Abort? && e.Timer? ==> r.fault == NullStream)
            && (r.Abort? && e.ReadDone? ==> ReadFault(p, r.fault))
            && (r.Ok? ==> Inv(p, r.value))
  {
    hide Process, Drain, ChunkSurvives;
    match e
    case Dial =>
    case ConnectDone(status, remoteHost) =>
      if status == 0 {
        var canon := if remoteHost != p.host then Key(remoteHost, p.port) else c.canon;
        ConnectedSafe(p, c.(state := Connected, canon := canon, log := c.log.(connecting := false)));
      }
    case WriteDone(status) =>
      if Live(c.state) && status == 0 {
        ProcessSafe(p, c.(log := c.log.(returned := c.log.returned + 1)));
      }
    case ReadDone(nread, data) =>
      if nread > 0 {
        ReadSafe(p, c, data);
      }
    case CloseDone =>
    case Timer => TimerSafe(p, c);
  }

  /** For a client, whose handler does nothing, a chunk is fatal exactly if a peer line lacks a port. */
  lemma ClientChunk(p: Party, c: Conn, data: string)
    requires p.app.ClientApp?
    ensures ChunkSurvives(p, c, data) <==> !AnyBad(Lines(c.buffer + data))
  {
  }

  /** No callback attempts a write on a stream that was given up, but for the timer of a stale connection. */
  lemma NothingAfterClose(p: Party, c: Conn, e: Event)
    requires Sensible(p) && Inv(p, c) && Enabled(p, c, e) && !c.stream && !e.Dial?
    ensures var r := Apply(p, c, e);
            && (r == Abort(NullStream) <==> e.Timer? && Stale(c))
            && (r.Ok? ==> r.value.log.wrote == c.log.wrote && r.value.log.calls == c.log.calls && !r.value.stream)
  {
    hide Drain, ChunkSurvives;
    if e.Timer? {
      TimerSafe(p, c);
    } else {
      StepSafe(p, c, e);
    }
  }

  /** Whatever the order of reads and write reports, a client that closes of its own accord
      has sent its handshake and at least the pings it was asked for. */
  lemma VoluntaryClose(p: Party, c: Conn, e: Event)
    requires Sensible(p) && p.kind.Outgoing? && Inv(p, c) && Enabled(p, c, e) && c.stream
    requires p.io(c.log.calls) == 0
    requires (e.WriteDone? ==> e.status == 0) && (e.ReadDone? ==> e.nread > 0)
    ensures var r := Apply(p, c, e);
            r.Ok? && !r.value.stream ==> |r.value.log.wrote| >= 1 + p.kind.pings
  {
    if e.ReadDone? {
      hide HandleAll, Deliver, Process;
      var c1 := c.(buffer := c.buffer + e.data);
      DrainRefinesSplit(p, c1);
      ClientHandles(p, c1, Deliver(Lines(c1.buffer)).messages);
      var r := Drain(p, c1);
      if r.Ok? {
        ProcessCloses(p, r.value);
      }
    } else if e.WriteDone? {
      hide Process;
      ProcessCloses(p, c.(log := c.log.(returned := c.log.returned + 1)));
    }
  }

  lemma ProcessCloses(p: Party, c: Conn)
    requires p.kind.Outgoing? && c.stream && Live(c.state) && Inv(p, c) && p.io(c.log.calls) == 0
    ensures var r := Process(p, c);
            r.Ok? && !r.value.stream ==> |r.value.log.wrote| >= 1 + p.kind.pings
  {
  }

  /** In order, a client has at most one write outstanding, namely the one that made it `Sending`. */
  ghost predicate OneWrite(c: Conn) {
    |c.log.wrote| == c.log.returned + (if c.state == Sending then 1 else 0)
  }

  lemma OneWriteStep(p: Party, c: Conn, e: Event)
    requires Sensible(p) && p.kind.Outgoing? && Inv(p, c) && Enabled(p, c, e) && InOrder(c, e) && OneWrite(c)
    ensures var r := Apply(p, c, e); r.Ok? ==> OneWrite(r.value)
    ensures e.WriteDone? ==> c.stream
  {
    hide Process, Drain, HandleAll, Deliver;
    match e
    case ReadDone(nread, data) =>
      if nread > 0 {
        var c1 := c.(buffer := c.buffer + data);
        DrainRefinesSplit(p, c1);
        ClientHandles(p, c1, Deliver(Lines(c1.buffer)).messages);
        if Drain(p, c1).Ok? {
          ProcessOneWrite(p, Drain(p, c1).value);
        }
      }
    case WriteDone(status) => ProcessOneWrite(p, c.(log := c.log.(returned := c.log.returned + 1)));
    case ConnectDone(status, remoteHost) =>
      var canon := if remoteHost != p.host then Key(remoteHost, p.port) else c.canon;
      ProcessOneWrite(p, c.(state := Connected, canon := canon, log := c.log.(connecting := false)));
    case _ =>
  }

  lemma ProcessOneWrite(p: Party, c: Conn)
    requires p.kind.Outgoing? && |c.log.wrote| == c.log.returned
    ensures var r := Process(p, c); r.Ok? ==> OneWrite(r.value)
  {
    hide PingFor, HandshakeFor, SendMessage, DoRead;
    match c.state
    case Connected => SendOneWrite(p, c.(counter := 0), HandshakeFor(p));
    case Sending => ReadOneWrite(p, c.(counter := c.counter + 1));
    case Sent => ReadOneWrite(p, c);
    case Receiving => ReadOneWrite(p, c);
    case Received => SendOneWrite(p, c, PingFor(p, c));
    case _ =>
  }

  lemma SendOneWrite(p: Party, c: Conn, m: Message)
    requires |c.log.wrote| == c.log.returned && !c.state.Sending?
    ensures var r := SendMessage(p, c, m); r.Ok? ==> OneWrite(r.value)
  {
    hide Frame;
  }

  lemma ReadOneWrite(p: Party, c: Conn)
    requires |c.log.wrote| == c.log.returned
    ensures var r := DoRead(p, c); r.Ok? ==> OneWrite(r.value)
  {
  }

  function Start(p: Party): Outcome<Conn> {
    if p.kind.Incoming? then Accept(p) else Ok(NEW)
  }

  function Run(p: Party, c: Conn, events: seq<Event>): Outcome<Conn>
    decreases |events|
  {
    if events == [] then Ok(c)
    else
      var c1 :- Apply(p, c, events[0]);
      Run(p, c1, events[1..])
  }

  /** Every event is one libuv may deliver when it is delivered. */
  ghost predicate Admissible(p: Party, c: Conn, events: seq<Event>, ordered: bool)
    decreases |events|
  {
    events == [] ||
    (&& Enabled(p, c, events[0])
     && (ordered ==> InOrder(c, events[0]))
     && (Apply(p, c, events[0]).Ok? ==> Admissible(p, Apply(p, c, events[0]).value, events[1..], ordered)))
  }

  /** Event `i` is reached and fatal. */
  ghost predicate FatalAt(p: Party, c: Conn, events: seq<Event>, i: nat) {
    i < |events| && Run(p, c, events[..i]).Ok? && Fails(p, Run(p, c, events[..i]).value, events[i])
  }

  lemma {:induction false} RunExact(p: Party, c: Conn, events: seq<Event>, ordered: bool)
    requires Sensible(p) && Inv(p, c) && Admissible(p, c, events, ordered)
    ensures var r := Run(p, c, events);
            && (r.Abort? <==> exists i :: FatalAt(p, c, events, i))
            && (if r.Ok? then Inv(p, r.value) else r.fault == WriteAssertion || ReadFault(p, r.fault) || (p.kind.Peer? && r.fault == NullStream))
    decreases |events|
  {
    hide Apply, Inv, Fails, Enabled, InOrder, ReadFault;
    if events == [] {
    } else {
      StepSafe(p, c, events[0]);
      TimerOfPeer(p, c, events[0]);
      var r := Apply(p, c, events[0]);
      FatalCons(p, c, events);
      if r.Ok? {
        RunExact(p, r.value, events[1..], ordered);
      }
    }
  }

  lemma TimerOfPeer(p: Party, c: Conn, e: Event)
    requires Inv(p, c) && Enabled(p, c, e)
    ensures e.Timer? ==> p.kind.Peer?
    ensures Apply(p, c, e).Abort? && Fails(p, c, e) ==> e.WriteDone? || e.ReadDone? || e.Timer?
    ensures e.WriteDone? && Fails(p, c, e) ==> c.state == Closing
  {
    hide ChunkSurvives;
  }

  lemma FatalCons(p: Party, c: Conn, events: seq<Event>)
    requires events != []
    ensures (exists i :: FatalAt(p, c, events, i))
       <==> || Fails(p, c, events[0])
            || (Apply(p, c, events[0]).Ok? && exists i :: FatalAt(p, Apply(p, c, events[0]).value, events[1..], i))
  {
    hide Apply, Fails;
    var r := Apply(p, c, events[0]);
    assert FatalAt(p, c, events, 0) <==> Fails(p, c, events[0]);
    forall i: nat | 0 < i < |events|
      ensures FatalAt(p, c, events, i) <==> r.Ok? && FatalAt(p, r.value, events[1..], i - 1)
    {
      assert events[..i][1..] == events[1..][..i - 1] && events[..i][0] == events[0];
    }
    if r.Ok? {
      forall i: nat | FatalAt(p, r.value, events[1..], i) ensures FatalAt(p, c, events, i + 1) {
        assert FatalAt(p, c, events, i + 1) <==> r.Ok? && FatalAt(p, r.value, events[1..], (i + 1) - 1);
      }
    }
  }

  /** Callback safety of every connection, from its creation and through any I/O errors: a run dies exactly if it
      reaches a fatal callback, and never by the assertion in `doRead`; otherwise the state invariant holds, so a stream
      is passed to uv_close at most once per connect and reported closed at most once per close. */
  lemma CallbackSafety(p: Party, events: seq<Event>)
    requires Sensible(p)
    requires Start(p).Ok? && Admissible(p, Start(p).value, events, false)
    ensures var r := Run(p, Start(p).value, events);
            && (r.Abort? <==> exists i :: FatalAt(p, Start(p).value, events, i))
            && (r.Abort? ==> r.fault != ReadAssertion)
            && (r.Abort? && p.kind.Outgoing? ==> r.fault == WriteAssertion || r.fault == NumberFormat)
            && (r.Ok? ==> Inv(p, r.value) && r.value.log.notified <= r.value.log.closes <= r.value.log.connects)
  {
    StartKeepsInv(p);
    hide Inv, Start;
    RunExact(p, Start(p).value, events, false);
    if Run(p, Start(p).value, events).Ok? {
      CloseCounts(p, Run(p, Start(p).value, events).value);
    }
  }

  lemma StartKeepsInv(p: Party)
    requires Start(p).Ok?
    ensures Inv(p, Start(p).value)
  {
  }

  lemma CloseCounts(p: Party, c: Conn)
    requires Inv(p, c)
    ensures c.log.notified <= c.log.closes <= c.log.connects
  {
  }

  lemma {:induction false} OrderedRun(p: Party, c: Conn, events: seq<Event>)
    requires Sensible(p) && p.kind.Outgoing? && Inv(p, c) && OneWrite(c) && Admissible(p, c, events, true)
    ensures var r := Run(p, c, events);
            if r.Ok? then Inv(p, r.value) && OneWrite(r.value) else r.fault == NumberFormat
    decreases |events|
  {
    if events != [] {
      hide Apply, Inv, OneWrite, Fails, InOrder;
      StepSafe(p, c, events[0]);
      TimerOfPeer(p, c, events[0]);
      OneWriteStep(p, c, events[0]);
      if events[0].WriteDone? {
        OpenIsNotClosing(p, c);
      }
      var r := Apply(p, c, events[0]);
      if r.Ok? {
        OrderedRun(p, r.value, events[1..]);
      }
    }
  }

  lemma OpenIsNotClosing(p: Party, c: Conn)
    requires Inv(p, c) && c.stream
    ensures c.state != Closing
  {
  }

  /** The fatal callbacks of clients and servers in terms of what was received. */
  ghost predicate PlainFails(p: Party, c: Conn, e: Event) {
    || (e.WriteDone? && !c.stream)
    || (e.ReadDone? && e.nread > 0 &&
        var d := Deliver(Lines(c.buffer + e.data));
        AnyBad(Lines(c.buffer + e.data)) || (p.app.ServerApp? && !ServerSurvivable(p, c.log.calls, d.messages)))
  }

  /** One callback of a client or a server: it is fatal exactly if a write is reported after the close, or if a chunk
      has an unreadable port, or, for a server, is no survivable list of requests. */
  lemma PlainStep(p: Party, c: Conn, e: Event)
    requires Sensible(p) && !p.app.NodeApp?
    requires Inv(p, c) && Enabled(p, c, e)
    ensures Apply(p, c, e).Abort? <==> PlainFails(p, c, e)
    ensures Fails(p, c, e) <==> PlainFails(p, c, e)
    ensures Apply(p, c, e).Ok? ==> Inv(p, Apply(p, c, e).value)
  {
    hide Apply, ServerSurvivable, ChunkSurvives, Deliver, Lines, Scripts, Survivable, OnRead;
    StepSafe(p, c, e);
    if e.ReadDone? && e.nread > 0 {
      if p.app.ServerApp? {
        ServerSurvivesIff(p, c, e.data);
        ChunkSurvivesIff(p, c, e.data);
      } else {
        ClientChunk(p, c, e.data);
      }
    }
  }

  /** The state before event `i`, if the run gets there. */
  lemma {:induction false} Reached(p: Party, c: Conn, events: seq<Event>, ordered: bool, i: nat)
    requires Sensible(p) && Inv(p, c) && Admissible(p, c, events, ordered) && i < |events| && Run(p, c, events[..i]).Ok?
    ensures var d := Run(p, c, events[..i]).value; Inv(p, d) && Enabled(p, d, events[i])
    decreases i
  {
    hide Apply, Inv, Enabled, InOrder, Fails;
    if i > 0 {
      assert events[..i][1..] == events[1..][..i - 1];
      StepSafe(p, c, events[0]);
      Reached(p, Apply(p, c, events[0]).value, events[1..], ordered, i - 1);
    } else {
      assert events[..0] == [];
    }
  }

  /** Every run of a client or a server: it dies exactly if it reaches one of those callbacks. */
  lemma PlainSafety(p: Party, events: seq<Event>)
    requires Sensible(p) && !p.app.NodeApp?
    requires Start(p).Ok? && Admissible(p, Start(p).value, events, false)
    ensures Run(p, Start(p).value, events).Abort?
       <==> exists i :: 0 <= i < |events| && var r := Run(p, Start(p).value, events[..i]); r.Ok? && PlainFails(p, r.value, events[i])
  {
    hide Start, Inv, Fails, PlainFails, Enabled, Admissible, Run, Sensible;
    StartKeepsInv(p);
    var c := Start(p).value;
    CallbackSafety(p, events);
    forall i | 0 <= i < |events| && Run(p, c, events[..i]).Ok?
      ensures FatalAt(p, c, events, i) <==> PlainFails(p, Run(p, c, events[..i]).value, events[i])
    {
      Reached(p, c, events, false, i);
      PlainStep(p, Run(p, c, events[..i]).value, events[i]);
    }
  }

  /** The further assumption that a close is reported before the ping timer fires again, as in libuv's loop. */
  predicate ClosesFirst(c: Conn, e: Event) {
    e.Timer? ==> c.log.notified == c.log.closes
  }

  lemma TimerHarmless(p: Party, c: Conn)
    requires Sensible(p) && Inv(p, c) && Enabled(p, c, Timer) && ClosesFirst(c, Timer)
    ensures OnTimer(p, c).Ok?
  {
    TimerSafe(p, c);
  }

  /** With closes reported before timers no run dies in the timer: only a write report to a closing connection and a
      chunk that is not survived are left. */
  lemma TimersHarmless(p: Party, events: seq<Event>)
    requires Sensible(p) && Start(p).Ok? && Admissible(p, Start(p).value, events, false)
    requires forall i | 0 <= i < |events| :: var r := Run(p, Start(p).value, events[..i]); r.Ok? ==> ClosesFirst(r.value, events[i])
    ensures forall i: nat :: FatalAt(p, Start(p).value, events, i) ==> !events[i].Timer?
    ensures Run(p, Start(p).value, events).Abort?
       <==> exists i: nat :: FatalAt(p, Start(p).value, events, i) && (events[i].WriteDone? || events[i].ReadDone?)
  {
    hide Start, Inv, Enabled, Admissible, Run, Sensible, ChunkSurvives;
    StartKeepsInv(p);
    var c := Start(p).value;
    CallbackSafety(p, events);
    forall i: nat | FatalAt(p, c, events, i) ensures !events[i].Timer? && (events[i].WriteDone? || events[i].ReadDone?) {
      Reached(p, c, events, false, i);
      var d := Run(p, c, events[..i]).value;
      if events[i].Timer? {
        TimerHarmless(p, d);
        TimerSafe(p, d);
      }
    }
  }

  /** With writes reported before the next read, the assertion in `onWrite` holds as well
      and no two writes of a client overlap. */
  lemma OrderedSafety(p: Party, events: seq<Event>)
    requires Sensible(p) && p.kind.Outgoing? && Admissible(p, NEW, events, true)
    ensures var r := Run(p, NEW, events);
            && (r.Abort? ==> r.fault == NumberFormat)
            && (r.Ok? ==> |r.value.log.wrote| <= r.value.log.returned + 1)
  {
    OrderedRun(p, NEW, events);
  }

  /** Without that order the assertion in `onWrite` can fail: a ping is still being written when the
      server ends the connection, and libuv then reports the cancelled write to a closing client. */
  lemma CancelledWriteTrips(p: Party) returns (events: seq<Event>)
    requires p.app.ClientApp? && p.kind.Outgoing? && p.kind.pings >= 1 && NoErrors(p)
    ensures Admissible(p, NEW, events, false) && Run(p, NEW, events) == Abort(WriteAssertion)
  {
    hide Frame, PingFor, HandshakeFor, Run, Admissible;
    var data := Frame(PingResponse("x"));
    var e0, e1, e2, e3 := Dial, ConnectDone(0, p.host), WriteDone(0), ReadDone(|data|, data);
    var c1 := Apply(p, NEW, e0).value;
    var c2 := Apply(p, c1, e1).value;
    var c3 := Apply(p, c2, e2).value;
    var c4 := ReplyMakesClientPing(p, c3, PingResponse("x"));
    var end := EndedWhileSending(p, c4);
    RunCons(p, c3, e3, end, false);
    RunCons(p, c2, e2, [e3] + end, false);
    RunCons(p, c1, e1, [e2] + ([e3] + end), false);
    events := [e1] + ([e2] + ([e3] + end));
    RunCons(p, NEW, e0, events, false);
    events := [e0] + events;
  }

  /** The end of the stream closes a client that is still sending; its write is then reported as cancelled. */
  lemma EndedWhileSending(p: Party, c: Conn) returns (events: seq<Event>)
    requires c.stream && c.state == Sending && c.log.reading && !c.log.closing && c.log.returned < |c.log.wrote|
    ensures Admissible(p, c, events, false) && Run(p, c, events) == Abort(WriteAssertion)
  {
    hide Run, Admissible;
    var e4, e5 := ReadDone(-4095, ""), WriteDone(-125);
    var c5 := Apply(p, c, e4).value;
    RunCons(p, c5, e5, [], false);
    RunCons(p, c, e4, [e5], false);
    events := [e4] + [e5];
    assert [e5] + [] == [e5];
  }

  lemma RunCons(p: Party, c: Conn, e: Event, events: seq<Event>, ordered: bool)
    ensures Run(p, c, [e] + events)
         == match Apply(p, c, e) case Ok(c1) => Run(p, c1, events) case Abort(f) => Abort(f)
    ensures Admissible(p, c, [e] + events, ordered)
       <==> && Enabled(p, c, e) && (ordered ==> InOrder(c, e))
            && (Apply(p, c, e).Ok? ==> Admissible(p, Apply(p, c, e).value, events, ordered))
  {
    hide Apply, Enabled, InOrder;
    assert ([e] + events)[1..] == events;
  }

  lemma PingDependsOnCounter(p: Party, c: Conn, d: Conn)
    requires c.counter == d.counter
    ensures PingFor(p, c) == PingFor(p, d)
  {
  }

  lemma ReplyMakesClientPing(p: Party, c: Conn, m: Message) returns (d: Conn)
    requires p.app.ClientApp? && p.kind.Outgoing? && NoErrors(p) && WellFormed(m)
    requires c.stream && c.state == Receiving && c.buffer == "" && 1 <= c.counter < 1 + p.kind.pings
    ensures OnRead(p, c, |Frame(m)|, Frame(m)) == Ok(d)
    ensures d == c.(state := Sending,
                    log := c.log.(calls := c.log.calls + 1, received := c.log.received + [m],
                                  wrote := c.log.wrote + [Frame(PingFor(p, c))]))
  {
    hide Frame, Drain, PingFor;
    var c1 := c.(buffer := Frame(m));
    assert c.buffer + Frame(m) == Frame(m);
    DrainFrame(p, c1, m);
    var c2 := c.(state := Received, log := c.log.(received := c.log.received + [m]));
    assert Drain(p, c1) == Ok(c2);
    PingDependsOnCounter(p, c, c2);
    d := Process(p, c2).value;
  }

  /** For a server that order does not help: a ping and a wrong-version handshake in one chunk make it reply and
      close at once, and the cancelled reply is reported to the closing connection. */
  lemma CancelledReplyTrips(p: Party) returns (events: seq<Event>)
    requires p.app.ServerApp? && p.kind.Incoming? && NoErrors(p)
    ensures Start(p).Ok? && Admissible(p, Start(p).value, events, true)
    ensures Run(p, Start(p).value, events) == Abort(WriteAssertion)
  {
    hide Run, Admissible, Wire, Frame;
    var c := Start(p).value;
    var first, second := Ping("x"), Handshake("V02", "a", "b");
    var data := Wire([first, second]);
    WireNotEmpty([first, second]);
    var e0, e1 := ReadDone(|data|, data), WriteDone(-125);
    var d := ReplyThenClose(p, c, first, second);
    RunCons(p, d, e1, [], true);
    RunCons(p, c, e0, [e1], true);
    events := [e0] + [e1];
    assert [e1] + [] == [e1];
  }

  lemma ReplyThenClose(p: Party, c: Conn, first: Message, second: Message) returns (d: Conn)
    requires p.app.ServerApp? && p.kind.Incoming? && NoErrors(p) && c.stream && !c.log.closing && c.buffer == ""
    requires first == Ping("x") && second == Handshake("V02", "a", "b")
    ensures var data := Wire([first, second]); OnRead(p, c, |data|, data) == Ok(d)
    ensures d.state == Closing && d.log.returned == c.log.returned && |d.log.wrote| == |c.log.wrote| + 1
  {
    var ms := [first, second];
    assert IsToken("V02") && IsToken("a") && IsToken("b") && IsToken("x");
    WireHandled(p, c, ms);
    hide Wire, Frame;
    assert ms[1..] == [second] && [second][1..] == [];
    PerformSingle(p, Taken(c, first), React(p, |c.log.received|, first).calls[0]);
    HandleFirst(p, c, ms);
    var c2 := Perform(p, Taken(c, first), React(p, |c.log.received|, first).calls).value;
    PerformSingle(p, Taken(c2, second), Shut);
    HandleFirst(p, c2, [second]);
    d := Close(Taken(c2, second));
    HandleNone(p, d);
  }

  // What errors do, what is read and counted, and what a failed dial leaves behind.

  /** A bad write report, the end of the stream and a read error close an open connection, once, and do nothing else. */
  lemma ErrorsClose(p: Party, c: Conn, e: Event)
    requires Inv(p, c) && Enabled(p, c, e) && c.stream
    requires (e.WriteDone? && e.status != 0) || (e.ReadDone? && e.nread <= 0)
    ensures var r := Apply(p, c, e);
            && r.Ok? && r.value.state == Closing && !r.value.stream
            && r.value.log.closing && r.value.log.closes == c.log.closes + 1
            && r.value.log.wrote == c.log.wrote && r.value.log.received == c.log.received
            && r.value.buffer == c.buffer && r.value.log.notified == c.log.notified
  {
    hide Process, Drain;
  }

  /** A good write report makes an outgoing connection that has nothing to handle read on, or close if libuv refuses;
      it counts one message if the connection was sending. */
  lemma ReportReadsOn(p: Party, c: Conn)
    requires Inv(p, c) && !p.kind.Incoming? && c.stream && (c.state == Sending || c.state == Receiving)
    ensures var r := OnWrite(p, c, 0);
            && r.Ok? && r.value.counter == c.counter + (if c.state == Sending then 1 else 0)
            && r.value.log.calls == c.log.calls + 1 && r.value.log.wrote == c.log.wrote
            && if p.io(c.log.calls) < 0 then r.value.state == Closing && !r.value.stream
               else r.value.state == Receiving && r.value.stream && r.value.log.reading
  {
    hide OnTimer, SendMessage, HandshakeFor;
  }

  /** So does a chunk that completes no message. */
  lemma PartialReadsOn(p: Party, c: Conn, data: string)
    requires Inv(p, c) && !p.kind.Incoming? && c.stream && c.state == Receiving && data != "" && '\n' !in c.buffer + data
    ensures var r := OnRead(p, c, |data|, data);
            && r.Ok? && r.value.buffer == c.buffer + data && r.value.counter == c.counter
            && r.value.log.calls == c.log.calls + 1 && r.value.log.received == c.log.received
            && if p.io(c.log.calls) < 0 then r.value.state == Closing && !r.value.stream
               else r.value.state == Receiving && r.value.stream && r.value.log.reading
  {
    hide OnTimer, SendMessage, HandshakeFor, Drain;
    DrainPartial(p, c.(buffer := c.buffer + data));
  }

  /** The pings of a node are numbered by the writes reported while sending: nothing else moves the counter, but for
      a chunk whose last handler has answered. */
  lemma NodeCounter(p: Party, c: Conn, e: Event)
    requires Sensible(p) && p.kind.Peer? && Inv(p, c) && Enabled(p, c, e) && !e.ConnectDone? && Apply(p, c, e).Ok?
    ensures var d := Apply(p, c, e).value;
            && (e.WriteDone? && c.stream ==> d.counter == c.counter + (if e.status == 0 && c.state == Sending then 1 else 0))
            && (e.Timer? || e.CloseDone? || e.Dial? ==> d.counter == c.counter)
            && (e.ReadDone? ==> c.counter <= d.counter <= c.counter + 1)
            && (e.ReadDone? && d.counter == c.counter + 1 ==> d.state == Receiving || d.state == Closing)
  {
    hide Drain, SendMessage, HandshakeFor, SendWhileConnected, ProcessPeer, Inv;
    match e
    case Timer =>
      SendCounts(p, c, PingFor(p, c));
      var c1 := SendMessage(p, c, PingFor(p, c)).value;
      GossipCounts(p, c1, Gossip(p, c1));
    case WriteDone(status) =>
      hide OnTimer;
      PeerCounts(p, c.(log := c.log.(returned := c.log.returned + 1)));
      NeverConnected(p, c);
    case ReadDone(nread, data) =>
      hide OnTimer;
      OpenIsLive(p, c);
      if nread > 0 {
        NodeReadCounts(p, c, data);
      }
    case _ =>
  }

  lemma OpenIsLive(p: Party, c: Conn)
    requires Inv(p, c) && c.stream && c.log.reading
    ensures Live(c.state) && !c.log.closing
  {
  }

  lemma NeverConnected(p: Party, c: Conn)
    requires Inv(p, c)
    ensures c.state != Connected
  {
  }

  lemma SendCounts(p: Party, c: Conn, m: Message)
    ensures SendMessage(p, c, m).Ok? ==> SendMessage(p, c, m).value.counter == c.counter
  {
  }

  lemma {:induction false} GossipCounts(p: Party, c: Conn, ms: seq<Message>)
    ensures SendWhileConnected(p, c, ms).Ok? ==> SendWhileConnected(p, c, ms).value.counter == c.counter
    decreases |ms|
  {
    hide SendMessage;
    if ms != [] && IsConnected(c) {
      SendCounts(p, c, ms[0]);
      if SendMessage(p, c, ms[0]).Ok? {
        GossipCounts(p, SendMessage(p, c, ms[0]).value, ms[1..]);
      }
    }
  }

  lemma PeerCounts(p: Party, c: Conn)
    requires c.state != Connected
    ensures var r := ProcessPeer(p, c);
            r.Ok? ==> && r.value.counter == c.counter + (if c.state == Sending then 1 else 0)
                      && (c.state == Sending ==> r.value.state == Receiving || r.value.state == Closing || r.value.state == Closed)
  {
    hide OnTimer, SendMessage, SendWhileConnected, HandshakeFor;
  }

  lemma NodeReadCounts(p: Party, c: Conn, data: string)
    requires Sensible(p) && p.kind.Peer? && Inv(p, c) && c.stream && Live(c.state) && data != "" && OnRead(p, c, |data|, data).Ok?
    ensures var d := OnRead(p, c, |data|, data).value;
            && c.counter <= d.counter <= c.counter + 1
            && (d.counter == c.counter + 1 ==> d.state == Receiving || d.state == Closing)
  {
    hide HandleAll, Deliver, Lines, Rest, Survivable, EndsAt, Scripts, ProcessPeer;
    var c1 := c.(buffer := c.buffer + data);
    var ms := Deliver(Lines(c1.buffer)).messages;
    DrainRefinesSplit(p, c1);
    OpenHandles(p, c1, ms);
    var h := HandleAll(p, c1, ms).value;
    hide Inv;
    PeerCounts(p, h.(buffer := Rest(c1.buffer)));
    if h.state == Sending {
      PeerClosesOnce(p, h.(buffer := Rest(c1.buffer)));
    }
  }

  lemma PeerClosesOnce(p: Party, c: Conn)
    requires c.state == Sending && c.stream && !c.log.closing
    ensures var r := ProcessPeer(p, c); r.Ok? ==> r.value.state != Closed
  {
  }

  /** A failed dial is never reported to the application: the connection stays connecting, with its stream, and no
      callback of it will ever come. */
  lemma FailedDialIsSilent(p: Party, c: Conn, status: int, remoteHost: string)
    requires Inv(p, c) && Enabled(p, c, ConnectDone(status, remoteHost)) && status != 0
    ensures var r := Apply(p, c, ConnectDone(status, remoteHost));
            && r.Ok? && r.value.state == Connecting && r.value.stream
            && r.value.log.notified == c.log.notified && r.value.log.closes == c.log.closes && r.value.canon == c.canon
            && forall e :: !Enabled(p, r.value, e)
  {
  }

  /** A connection that is not over is not dialled again; one that is gets a fresh stream, and what the last stream left
      unread in its buffer stays in front of what the new one brings. */
  lemma Redial(p: Party, c: Conn)
    requires Inv(p, c)
    ensures Live(c.state) || c.state == Closing ==> Connect(p, c) == c
    ensures c.state == Closed || c.state == NotConnected ==>
              var d := Connect(p, c);
              && d.state == Connecting && d.stream && d.buffer == c.buffer && d.canon == c.canon
              && d.log.wrote == [] && d.log.returned == 0 && !d.log.reading && !d.log.closing
              && (d.log.connecting <==> p.io(c.log.calls) == 0)
              && (p.kind.Outgoing? ==> d.counter == 0) && (p.kind.Peer? ==> d.counter == c.counter)
  {
  }

  /** Between callbacks a connection counts as connected exactly while its stream is open and past the dial. */
  lemma ConnectedMeansOpen(p: Party, c: Conn)
    requires Inv(p, c)
    ensures IsConnected(c) <==> c.stream && c.state != Connecting
  {
  }

  /** The canonical address is the remote host with the dialled port, noted only if the host is not the one dialled. */
  lemma CanonicalNoted(p: Party, c: Conn, remoteHost: string)
    requires Sensible(p) && Inv(p, c) && c.log.connecting && !p.kind.Incoming?
    ensures var r := Apply(p, c, ConnectDone(0, remoteHost));
            r.Ok? && r.value.canon == if remoteHost == p.host then c.canon else remoteHost + ":" + ToString(p.port)
  {
    hide PingFor, HandshakeFor;
    var canon := if remoteHost != p.host then Key(remoteHost, p.port) else c.canon;
    var c1 := c.(state := Connected, canon := canon, log := c.log.(connecting := false));
    ConnectedSafe(p, c1);
    OpeningKeepsCanon(p, c1);
  }

  lemma OpeningKeepsCanon(p: Party, c: Conn)
    requires Process(p, c).Ok?
    ensures Process(p, c).value.canon == c.canon
  {
    hide SendMessage, SendWhileConnected, PingFor, HandshakeFor;
    assert forall d, m :: SendMessage(p, d, m).Ok? ==> SendMessage(p, d, m).value.canon == d.canon by {
      forall d, m ensures SendMessage(p, d, m).Ok? ==> SendMessage(p, d, m).value.canon == d.canon {
        SendKeepsCanon(p, d, m);
      }
    }
    assert forall d, ms :: SendWhileConnected(p, d, ms).Ok? ==> SendWhileConnected(p, d, ms).value.canon == d.canon by {
      forall d, ms ensures SendWhileConnected(p, d, ms).Ok? ==> SendWhileConnected(p, d, ms).value.canon == d.canon {
        GossipKeepsCanon(p, d, ms);
      }
    }
  }

  lemma SendKeepsCanon(p: Party, c: Conn, m: Message)
    ensures SendMessage(p, c, m).Ok? ==> SendMessage(p, c, m).value.canon == c.canon
  {
  }

  lemma {:induction false} GossipKeepsCanon(p: Party, c: Conn, ms: seq<Message>)
    ensures SendWhileConnected(p, c, ms).Ok? ==> SendWhileConnected(p, c, ms).value.canon == c.canon
    decreases |ms|
  {
    hide SendMessage;
    if ms != [] && IsConnected(c) {
      SendKeepsCanon(p, c, ms[0]);
      if SendMessage(p, c, ms[0]).Ok? {
        GossipKeepsCanon(p, SendMessage(p, c, ms[0]).value, ms[1..]);
      }
    }
  }

  /** An incoming connection does nothing of its own: a good write report is noted and nothing else, and a chunk
      leaves what its handlers leave. */
  lemma IncomingWaits(p: Party, c: Conn, data: string)
    requires p.kind.Incoming? && Live(c.state)
    ensures OnWrite(p, c, 0) == Ok(c.(log := c.log.(returned := c.log.returned + 1)))
    ensures data != "" ==> OnRead(p, c, |data|, data) == SplitThenHandle(p, c.(buffer := c.buffer + data), c.buffer + data)
  {
    hide SplitThenHandle, Drain;
    DrainRefinesSplit(p, c.(buffer := c.buffer + data));
  }
}
