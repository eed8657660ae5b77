/** A node's connections (node/node.cpp, node/peer_conn.cpp): which messages a node's handler throws on, and which
    chunks its incoming and outgoing connections survive, in terms of the messages and the peer table. */
module NodeBatches {
  import opened Text
  import opened Decimal
  import opened Messages
  import M = Messages
  import opened Framing
  import opened Endpoints
  import opened Connection
  import opened Batches
  import opened Callbacks
  import opened PeerTable
  import opened TableRuns

  /** The sender is listed as an incoming peer. */
  predicate IsKnown(n: Node, id: nat)
    requires id < |n.clients|
  {
    IsPeerConnected(n, Addr(n.clients[id]), false)
  }

  /** A handshake whose name is a colon and no number. */
  ghost predicate BadPort(m: Message) {
    m.Handshake? && m.myAddr != "" && m.myAddr[0] == ':' && NotAnInt(m.myAddr[1..])
  }

  predicate Greets(m: Message, known: bool) {
    m.Handshake? && m.version == "V01" && known
  }

  ghost predicate Throws(m: Message, known: bool) {
    Greets(m, known) && BadPort(m)
  }

  predicate Answered(m: Message, known: bool) {
    m.Ping? || Greets(m, known)
  }

  /** A node's handler throws exactly on a handshake of the right version, from a known peer, with an unreadable port. */
  lemma HandlerThrowsIff(n: Node, id: nat, m: Message, env: Env)
    requires id < |n.clients|
    ensures MessageReceived(n, id, m, env).Abort?
       <==> && m.Handshake? && m.version == "V01" && IsPeerConnected(n, Addr(n.clients[id]), false)
            && m.myAddr != "" && m.myAddr[0] == ':' && NotAnInt(m.myAddr[1..])
    ensures MessageReceived(n, id, m, env).Abort? ==> MessageReceived(n, id, m, env) == Abort(NumberFormat)
  {
    hide LearnPeer, SendOtherPeers, IsPeerConnected, Stoi, NotAnInt, TryOutConnections, AddCandidate, Addr;
    if m.Handshake? && m.myAddr != "" {
      StoiThrows(m.myAddr[1..]);
    }
  }

  /** A failing input: the line "HANDSH V01 a :x" from a known peer. */
  lemma HandlerThrows(n: Node, id: nat, env: Env)
    requires id < |n.clients| && IsPeerConnected(n, Addr(n.clients[id]), false)
    ensures Read("HANDSH V01 a :x") == Parsed(Handshake("V01", "a", ":x"))
    ensures MessageReceived(n, id, Handshake("V01", "a", ":x"), env) == Abort(NumberFormat)
  {
    hide IsPeerConnected, Addr;
    var m := Handshake("V01", "a", ":x");
    NotANumber();
    HandlerThrowsIff(n, id, m, env);
    assert IsToken("V01") && IsToken("a") && IsToken(":x");
    M.RoundTripIff(m);
    assert Serialize(m) == "HANDSH V01 a :x";
  }

  lemma NotANumber()
    ensures BadPort(Handshake("V01", "a", ":x"))
  {
    assert ":x"[1..] == "x";
    LetterIsNoInt();
  }

  /** What the script of a message says about it. */
  lemma ScriptOfMessage(n: Node, id: nat, m: Message, env: Env)
    requires id < |n.clients|
    ensures var script := NodeScript(n, id, m, env);
            && (script.fault.Some? <==> Throws(m, IsKnown(n, id)))
            && (script.fault.Some? ==> script.fault == Some(NumberFormat))
            && (Shut in script.calls <==> WrongVersion(m))
            && (Quiet(script.calls) <==> !Answered(m, IsKnown(n, id)))
  {
    hide LearnPeer, SendOtherPeers, IsPeerConnected, Stoi, NotAnInt, TryOutConnections, AddCandidate, Addr;
    HandlerThrowsIff(n, id, m, env);
  }

  // Handling a message does not change who is known.

  lemma SweepKeepsKnown(n: Node, res: string -> int, addr: string)
    requires TableInv(n)
    ensures var m := TryOutConnections(n, res);
            && |n.clients| <= |m.clients| && m.clients[..|n.clients|] == n.clients
            && (IsPeerConnected(m, addr, false) <==> IsPeerConnected(n, addr, false))
  {
    hide TryOutConnections, DialKeys, NewClients;
    var m := TryOutConnections(n, res);
    SweepExtends(n, res);
    InvIsSound(n);
    assert m.clients[..|n.clients|] == n.clients;
    forall i | 0 <= i < |n.peers| ensures Matches(m, m.peers[i], addr, false) <==> Matches(n, n.peers[i], addr, false) {
      assert m.peers[i] == n.peers[i];
    }
    forall i | |n.peers| <= i < |m.peers| ensures !Matches(m, m.peers[i], addr, false) {
      assert m.peers[i].out;
    }
  }

  lemma LearnKeepsKnown(n: Node, id: nat, c: Client)
    requires id < |n.clients| && Addr(c) == Addr(n.clients[id])
    ensures IsKnown(WithClient(n, id, c), id) <==> IsKnown(n, id)
  {
    hide Key;
    var m, addr := WithClient(n, id, c), Addr(n.clients[id]);
    forall i | 0 <= i < |n.peers| ensures Matches(m, m.peers[i], addr, false) <==> Matches(n, n.peers[i], addr, false) {
    }
  }

  lemma KnownStays(n: Node, id: nat, m: Message, env: Env)
    requires TableInv(n) && id < |n.clients|
    ensures var n1 := NodeAfter(n, id, m, env);
            TableInv(n1) && id < |n1.clients| && Addr(n1.clients[id]) == Addr(n.clients[id]) && (IsKnown(n1, id) <==> IsKnown(n, id))
  {
    hide TableInv, TryOutConnections, SendOtherPeers, IsPeerConnected, Stoi, FromString;
    MessageKeepsInv(n, id, m, env);
    match m
    case Handshake(_, _, myAddr) =>
      if myAddr != "" && Stoi(myAddr[1..]).Number? {
        KnownAfterLearning(n, id, Stoi(myAddr[1..]).n, env);
      }
    case OtherPeer(host, port) => KnownAfterAdding(n, id, host, port, env);
    case _ =>
  }

  lemma KnownAfterAdding(n: Node, id: nat, host: string, port: int32, env: Env)
    requires TableInv(n) && id < |n.clients|
    ensures var n1 := TryOutConnections(AddCandidate(n, host, port, 1), env.res);
            id < |n1.clients| && n1.clients[id] == n.clients[id] && (IsKnown(n1, id) <==> IsKnown(n, id))
  {
    hide TableInv, TryOutConnections, IsPeerConnected;
    var n0 := AddCandidate(n, host, port, 1);
    AddKeepsInv(n, host, port, 1);
    SamePeers(n, n0, Addr(n.clients[id]), false);
    SweepKeepsKnown(n0, env.res, Addr(n.clients[id]));
    var n1 := TryOutConnections(n0, env.res);
    assert n1.clients[id] == n1.clients[..|n0.clients|][id];
  }

  lemma KnownAfterLearning(n: Node, id: nat, port: int32, env: Env)
    requires TableInv(n) && id < |n.clients|
    ensures var n1 := LearnPeer(n, id, port, env);
            id < |n1.clients| && Addr(n1.clients[id]) == Addr(n.clients[id]) && (IsKnown(n1, id) <==> IsKnown(n, id))
  {
    hide TableInv, TryOutConnections, IsPeerConnected, AddCandidate, Key, FromString;
    var c := n.clients[id];
    var host := FromString(Addr(c)).host;
    var c1 := c.(canon := Key(host, port));
    LearnKeepsKnown(n, id, c1);
    ClientKeepsInv(n, id, c1);
    KnownAfterAdding(WithClient(n, id, c1), id, host, port, env);
  }

  // Batches.

  /** The connection's handler is the node's: from message `first` on, `ms` are handled as client `id` of the table `n`. */
  ghost predicate Follows(p: Party, first: nat, n: Node, id: nat, ms: seq<Message>, env: nat -> Env)
    requires id < |n.clients|
    decreases |ms|
  {
    p.app.NodeApp? &&
    (ms == [] ||
     var n1 := NodeAfter(n, id, ms[0], env(first));
     && p.app.handler(first, ms[0]) == NodeScript(n, id, ms[0], env(first))
     && id < |n1.clients| && Follows(p, first + 1, n1, id, ms[1..], env))
  }

  /** The scripts say of each message what the table says. */
  ghost predicate ScriptsMean(ss: seq<Script>, ms: seq<Message>, known: bool) {
    && |ss| == |ms|
    && (forall i | 0 <= i < |ms| :: ss[i].fault.Some? <==> Throws(ms[i], known))
    && (forall i | 0 <= i < |ms| :: Shut in ss[i].calls <==> WrongVersion(ms[i]))
    && (forall i | 0 <= i < |ms| :: Quiet(ss[i].calls) <==> !Answered(ms[i], known))
  }

  lemma {:induction false} FollowedScripts(p: Party, first: nat, n: Node, id: nat, ms: seq<Message>, env: nat -> Env)
    requires TableInv(n) && id < |n.clients| && Follows(p, first, n, id, ms, env)
    ensures ScriptsMean(Scripts(p, first, ms), ms, IsKnown(n, id))
    decreases |ms|
  {
    hide TableInv, NodeScript, NodeAfter, IsKnown, Throws, Answered, WrongVersion, Quiet, React;
    if ms != [] {
      var n1 := NodeAfter(n, id, ms[0], env(first));
      ScriptOfMessage(n, id, ms[0], env(first));
      KnownStays(n, id, ms[0], env(first));
      FollowedScripts(p, first + 1, n1, id, ms[1..], env);
      ScriptsCons(p, first, ms);
      NodeReacts(p, first, ms[0]);
      MeanCons(Scripts(p, first, ms), ms, IsKnown(n, id));
    }
  }

  lemma NodeReacts(p: Party, n: nat, m: Message)
    requires p.app.NodeApp?
    ensures React(p, n, m) == p.app.handler(n, m)
  {
  }

  lemma MeanCons(ss: seq<Script>, ms: seq<Message>, known: bool)
    requires ss != [] && ms != [] && ScriptsMean(ss[1..], ms[1..], known)
    requires && (ss[0].fault.Some? <==> Throws(ms[0], known)) && (Shut in ss[0].calls <==> WrongVersion(ms[0]))
             && (Quiet(ss[0].calls) <==> !Answered(ms[0], known))
    ensures ScriptsMean(ss, ms, known)
  {
    hide Throws, Answered, WrongVersion, Quiet;
    forall i | 0 < i < |ms| ensures ms[i] == ms[1..][i - 1] && ss[i] == ss[1..][i - 1] {
    }
  }

  /** Message `i` ends the connection: it has the wrong version, or one of the writes made for it fails. */
  ghost predicate Cut(p: Party, k: nat, ss: seq<Script>, ms: seq<Message>, i: nat)
    requires i < |ss| == |ms|
  {
    || WrongVersion(ms[i])
    || exists j {:trigger p.io(j)} :: k + CallsBefore(ss, i) <= j < k + CallsBefore(ss, i) + |ss[i].calls| && p.io(j) != 0
  }

  /** No handshake from a known peer has an unreadable port, and after the message that ended the connection come
      no pings and no handshakes of the right version from a known peer. */
  ghost predicate NodeSurvivable(p: Party, k: nat, ss: seq<Script>, ms: seq<Message>, known: bool)
    requires |ss| == |ms|
  {
    && (forall i | 0 <= i < |ms| :: !Throws(ms[i], known))
    && (forall i, j | 0 <= i < j < |ms| :: Cut(p, k, ss, ms, i) ==> !Answered(ms[j], known))
  }

  lemma MeaningSurvives(p: Party, k: nat, ss: seq<Script>, ms: seq<Message>, known: bool)
    requires ScriptsMean(ss, ms, known)
    ensures Survivable(p, k, ss) <==> NodeSurvivable(p, k, ss, ms, known)
    ensures forall i | 0 <= i < |ms| :: EndsAt(p, k, ss, i) <==> Cut(p, k, ss, ms, i)
  {
    hide Throws, Answered, Quiet, WrongVersion, CallsBefore;
    forall i | 0 <= i < |ms| ensures EndsAt(p, k, ss, i) <==> Cut(p, k, ss, ms, i) {
    }
    hide EndsAt, Cut;
  }

  ghost predicate NodeChunkSurvives(p: Party, c: Conn, data: string, known: bool) {
    var d := Deliver(Lines(c.buffer + data));
    var ms, ss := d.messages, Scripts(p, |c.log.received|, d.messages);
    && !AnyBad(Lines(c.buffer + data))
    && NodeSurvivable(p, c.log.calls, ss, ms, known)
    && (p.kind.Peer? && ms != [] ==> !Cut(p, c.log.calls, ss, ms, |ms| - 1))
  }

  /** A node's connection, incoming or outgoing and whatever libuv returns, survives a chunk if and only if no line
      has an unreadable port, no handshake from a known peer has one, nothing that needs an answer follows the message
      that ended the connection, and, if it is an outgoing one, the last message did not end it. */
  lemma NodeSurvivesIff(p: Party, c: Conn, data: string, n: Node, id: nat, env: nat -> Env)
    requires !p.kind.Outgoing? && c.stream && data != "" && (p.kind.Peer? ==> !c.log.closing && Live(c.state))
    requires TableInv(n) && id < |n.clients|
    requires Follows(p, |c.log.received|, n, id, Deliver(Lines(c.buffer + data)).messages, env)
    ensures OnRead(p, c, |data|, data).Ok? <==> NodeChunkSurvives(p, c, data, IsKnown(n, id))
  {
    hide OnRead, AnyBad, Deliver, Lines, Survivable, NodeSurvivable, Scripts, Follows, TableInv, IsKnown, EndsAt, Cut, ScriptsMean, Live;
    var ms := Deliver(Lines(c.buffer + data)).messages;
    ChunkSurvivesIff(p, c, data);
    FollowedScripts(p, |c.log.received|, n, id, ms, env);
    MeaningSurvives(p, c.log.calls, Scripts(p, |c.log.received|, ms), ms, IsKnown(n, id));
  }

  /** Without I/O errors the condition is about the messages and the sender alone. */
  lemma NodeSurvivesFlawless(p: Party, c: Conn, data: string, n: Node, id: nat, env: nat -> Env)
    requires !p.kind.Outgoing? && c.stream && data != "" && (p.kind.Peer? ==> !c.log.closing && Live(c.state))
    requires TableInv(n) && id < |n.clients| && NoErrors(p)
    requires Follows(p, |c.log.received|, n, id, Deliver(Lines(c.buffer + data)).messages, env)
    ensures var d := Deliver(Lines(c.buffer + data));
            var ms, known := d.messages, IsKnown(n, id);
            OnRead(p, c, |data|, data).Ok?
            <==> && !AnyBad(Lines(c.buffer + data))
                 && (forall i | 0 <= i < |ms| :: !Throws(ms[i], known))
                 && (forall i, j | 0 <= i < j < |ms| :: WrongVersion(ms[i]) ==> !Answered(ms[j], known))
                 && (p.kind.Peer? && ms != [] ==> !WrongVersion(ms[|ms| - 1]))
  {
    hide OnRead, AnyBad, Deliver, Lines, Scripts, Follows, TableInv, IsKnown, Throws, Answered, WrongVersion, NodeSurvivable, Live;
    NodeSurvivesIff(p, c, data, n, id, env);
    var ms := Deliver(Lines(c.buffer + data)).messages;
    OnlyVersionsCut(p, c.log.calls, Scripts(p, |c.log.received|, ms), ms, IsKnown(n, id));
  }

  lemma OnlyVersionsCut(p: Party, k: nat, ss: seq<Script>, ms: seq<Message>, known: bool)
    requires NoErrors(p) && |ss| == |ms|
    ensures forall i | 0 <= i < |ms| :: Cut(p, k, ss, ms, i) <==> WrongVersion(ms[i])
    ensures NodeSurvivable(p, k, ss, ms, known)
       <==> && (forall i | 0 <= i < |ms| :: !Throws(ms[i], known))
            && (forall i, j | 0 <= i < j < |ms| :: WrongVersion(ms[i]) ==> !Answered(ms[j], known))
  {
    hide Throws, Answered, WrongVersion, CallsBefore;
    forall i | 0 <= i < |ms| ensures Cut(p, k, ss, ms, i) <==> WrongVersion(ms[i]) {
    }
    hide Cut;
  }

  /** The fatal callbacks of a node's connection. */
  ghost predicate NodeFails(p: Party, c: Conn, e: Event, known: bool) {
    match e
    case WriteDone(_) => c.state == Closing
    case ReadDone(nread, data) => nread > 0 && !NodeChunkSurvives(p, c, data, known)
    case Timer => Stale(c)
    case _ => false
  }

  /** The table `n` is what a chunk read next would be handled with. */
  ghost predicate Serving(p: Party, c: Conn, e: Event, n: Node, id: nat, env: nat -> Env) {
    && TableInv(n) && id < |n.clients|
    && (e.ReadDone? ==> Follows(p, |c.log.received|, n, id, Deliver(Lines(c.buffer + e.data)).messages, env))
  }

  /** One callback of a node's connection is fatal exactly if a write is reported while it is closing, its timer
      fires while it is stale, or a chunk is not survived. */
  lemma NodeStep(p: Party, c: Conn, e: Event, n: Node, id: nat, env: nat -> Env)
    requires Sensible(p) && p.app.NodeApp? && Inv(p, c) && Enabled(p, c, e) && Serving(p, c, e, n, id, env)
    ensures Apply(p, c, e).Abort? <==> NodeFails(p, c, e, IsKnown(n, id))
    ensures Fails(p, c, e) <==> NodeFails(p, c, e, IsKnown(n, id))
  {
    hide Apply, ChunkSurvives, NodeChunkSurvives, AnyBad, Deliver, Lines, OnRead, Follows, TableInv, IsKnown;
    StepSafe(p, c, e);
    if e.ReadDone? && e.nread > 0 {
      ChunkSurvivesIff(p, c, e.data);
      NodeSurvivesIff(p, c, e.data, n, id, env);
    }
  }

  /** Every run of a node's connection, while the tables change in between in whatever way: it dies exactly if it
      reaches one of those callbacks. */
  lemma NodeSafety(p: Party, events: seq<Event>, tables: nat -> Node, id: nat, env: nat -> Env)
    requires Sensible(p) && p.app.NodeApp? && Start(p).Ok? && Admissible(p, Start(p).value, events, false)
    requires forall i | 0 <= i < |events| ::
               var r := Run(p, Start(p).value, events[..i]); r.Ok? ==> Serving(p, r.value, events[i], tables(i), id, env)
    ensures Run(p, Start(p).value, events).Abort?
       <==> exists i :: 0 <= i < |events| &&
              var r := Run(p, Start(p).value, events[..i]);
              r.Ok? && id < |tables(i).clients| && NodeFails(p, r.value, events[i], IsKnown(tables(i), id))
  {
    hide Start, Inv, Fails, NodeFails, Enabled, Admissible, Run, Sensible, IsKnown;
    StartKeepsInv(p);
    var c := Start(p).value;
    CallbackSafety(p, events);
    forall i | 0 <= i < |events| && Run(p, c, events[..i]).Ok?
      ensures id < |tables(i).clients|
      ensures FatalAt(p, c, events, i) <==> NodeFails(p, Run(p, c, events[..i]).value, events[i], IsKnown(tables(i), id))
    {
      Reached(p, c, events, false, i);
      NodeStep(p, Run(p, c, events[..i]).value, events[i], tables(i), id, env);
    }
  }

  /** A failing input for incoming connections: the chunk "HANDSH V01 a :x" and its terminator from a known peer. */
  lemma UnreadablePortKills(p: Party, c: Conn, n: Node, id: nat, env: Env)
    requires p.app.NodeApp? && c.stream && c.buffer == "" && id < |n.clients| && IsKnown(n, id)
    requires p.app.handler(|c.log.received|, Handshake("V01", "a", ":x")) == NodeScript(n, id, Handshake("V01", "a", ":x"), env)
    ensures var data := Wire([Handshake("V01", "a", ":x")]); OnRead(p, c, |data|, data) == Abort(NumberFormat)
  {
    hide IsKnown, Wire, NodeScript, Perform, MessageReceived;
    var m := Handshake("V01", "a", ":x");
    assert IsToken("V01") && IsToken("a") && IsToken(":x");
    NotANumber();
    ScriptOfMessage(n, id, m, env);
    WireHandled(p, c, [m]);
    OpenPerforms(p, Taken(c, m), NodeScript(n, id, m, env).calls);
    HandleFirst(p, c, [m]);
  }

  /** A failing input for outgoing connections: a wrong-version handshake alone closes, and `process` finds `Closing`. */
  lemma WrongVersionKillsPeer(p: Party, c: Conn, n: Node, id: nat, env: Env)
    requires p.kind.Peer? && p.app.NodeApp? && c.stream && !c.log.closing && c.buffer == "" && id < |n.clients|
    requires p.app.handler(|c.log.received|, Handshake("V02", "a", "b")) == NodeScript(n, id, Handshake("V02", "a", "b"), env)
    ensures var data := Wire([Handshake("V02", "a", "b")]); OnRead(p, c, |data|, data) == Abort(UnhandledState)
  {
    var m := Handshake("V02", "a", "b");
    assert NodeScript(n, id, m, env) == Script([Shut], None);
    assert IsToken("V02") && IsToken("a") && IsToken("b");
    hide NodeScript;
    ShutKillsPeer(p, c, m);
  }

  lemma ShutKillsPeer(p: Party, c: Conn, m: Message)
    requires p.kind.Peer? && p.app.NodeApp? && c.stream && !c.log.closing && c.buffer == "" && WellFormed(m)
    requires p.app.handler(|c.log.received|, m) == Script([Shut], None)
    ensures OnRead(p, c, |Wire([m])|, Wire([m])) == Abort(UnhandledState)
  {
    hide Wire, OnRead, Process, Perform, HandleAll, WellFormed;
    WireHandled(p, c, [m]);
    PerformSingle(p, Taken(c, m), Shut);
    HandleFirst(p, c, [m]);
    HandleNone(p, Close(Taken(c, m)));
    assert [m][1..] == [];
    ClosingProcess(p, Close(Taken(c, m)));
  }

  /** A wrong-version handshake followed by a message that needs no answer leaves an outgoing connection stale, and
      its timer, if it fired before the close is reported, would write to the null stream. */
  lemma StaleTimerTrips(p: Party, c: Conn, n: Node, id: nat, env: nat -> Env) returns (d: Conn)
    requires Sensible(p) && p.kind.Peer? && p.app.NodeApp? && Inv(p, c) && c.stream && Live(c.state) && c.buffer == "" && c.log.timer
    requires TableInv(n) && id < |n.clients|
    requires Follows(p, |c.log.received|, n, id, [Handshake("V02", "a", "b"), PingResponse("x")], env)
    ensures var data := Wire([Handshake("V02", "a", "b"), PingResponse("x")]); OnRead(p, c, |data|, data) == Ok(d)
    ensures Enabled(p, d, Timer) && Apply(p, d, Timer) == Abort(NullStream)
  {
    var first, second := Handshake("V02", "a", "b"), PingResponse("x");
    var ms := [first, second];
    assert IsToken("V02") && IsToken("a") && IsToken("b") && IsToken("x");
    var k := |c.log.received|;
    assert ms[1..] == [second];
    assert p.app.handler(k, first) == Script([Shut], None) && p.app.handler(k + 1, second) == Script([], None) by {
      QuietScripts(n, id, env(k));
      QuietScripts(NodeAfter(n, id, first, env(k)), id, env(k + 1));
    }
    d := ShutThenNothing(p, c, first, second);
  }

  lemma QuietScripts(n: Node, id: nat, env: Env)
    requires id < |n.clients|
    ensures NodeScript(n, id, Handshake("V02", "a", "b"), env) == Script([Shut], None)
    ensures NodeScript(n, id, PingResponse("x"), env) == Script([], None)
  {
  }

  lemma ShutThenNothing(p: Party, c: Conn, first: Message, second: Message) returns (d: Conn)
    requires p.kind.Peer? && p.app.NodeApp? && c.stream && !c.log.closing && c.buffer == "" && c.log.timer
    requires WellFormed(first) && WellFormed(second)
    requires p.app.handler(|c.log.received|, first) == Script([Shut], None)
    requires p.app.handler(|c.log.received| + 1, second) == Script([], None)
    ensures OnRead(p, c, |Wire([first, second])|, Wire([first, second])) == Ok(d)
    ensures d.log.timer && OnTimer(p, d) == Abort(NullStream)
  {
    hide Wire, OnRead, HandleAll, WellFormed, Frame, PingFor;
    var ms := [first, second];
    WireHandled(p, c, ms);
    assert ms[1..] == [second] && [second][1..] == [];
    PerformSingle(p, Taken(c, first), Shut);
    HandleFirst(p, c, ms);
    var c2 := Close(Taken(c, first));
    HandleFirst(p, c2, [second]);
    d := Taken(c2, second);
    HandleNone(p, d);
  }
}
