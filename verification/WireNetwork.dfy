/** Many nodes again, this time down to the bytes: a link is two connections and two byte streams, and everything that
    happens on it is a callback of module Callbacks, with whatever cutting of the bytes and whatever result codes. */
module WireNetwork {
  import opened Text
  import opened Messages
  import opened Framing
  import opened Endpoints
  import opened Connection
  import opened Batches
  import opened Callbacks
  import opened PeerTable
  import opened NodeBatches
  import opened Peering
  import TableRuns
  import C = Callbacks
  import N = Network
  import E = Exchange

  /** A connection dialled by node `a`; `b` has a connection for it once it has accepted. Both ends keep a receive
      buffer, `up` and `down` are the bytes between them. */
  datatype Link = Link(a: nat, aId: nat, b: nat, bId: Option<nat>, dialler: Conn, acceptor: Conn, up: string, down: string)

  datatype Net = Net(nodes: seq<Node>, links: seq<Link>)

  datatype Move =
    | Sweeps(i: nat, res: string -> int)
    | Dials(i: nat, id: nat, j: nat, remoteHost: string, alive: nat -> bool, p: Party)
    | Accepts(l: nat, fromHost: string, fromPort: int, p: Party)
    | Calls(l: nat, atB: bool, e: Event, p: Party, env: nat -> Env, alive: nat -> bool)

  /** The table after handling `ms`, the first of them as message `first`. */
  ghost function TableAfter(n: Node, id: nat, first: nat, ms: seq<Message>, env: nat -> Env): Node
    requires id < |n.clients|
    decreases |ms|
  {
    if ms == [] then n
    else
      var n1 := NodeAfter(n, id, ms[0], env(first));
      if id < |n1.clients| then TableAfter(n1, id, first + 1, ms[1..], env) else n1
  }

  ghost predicate Fits(s: Net, l: Link) {
    && l.a < |s.nodes| && l.b < |s.nodes| && l.aId < |s.nodes[l.a].clients|
    && (l.bId.Some? ==> l.bId.value < |s.nodes[l.b].clients|)
  }

  // One end of a link.

  function NodeOf(l: Link, atB: bool): nat {
    if atB then l.b else l.a
  }

  function ClientOf(l: Link, atB: bool): nat
    requires atB ==> l.bId.Some?
  {
    if atB then l.bId.value else l.aId
  }

  function ConnOf(l: Link, atB: bool): Conn {
    if atB then l.acceptor else l.dialler
  }

  function Arriving(l: Link, atB: bool): string {
    if atB then l.up else l.down
  }

  /** The party is this client of this node, and answers gossip and messages from its table. */
  ghost predicate Plays(p: Party, n: Node, id: nat, c: Conn, atB: bool, e: Event, env: nat -> Env, alive: nat -> bool)
    requires id < |n.clients|
  {
    && p.kind == (if atB then Kind.Incoming else Peer) && p.app.NodeApp?
    && (e.Timer? ==> Serves(p, n, id, alive))
    && (e.ReadDone? ==> Follows(p, |c.log.received|, n, id, Deliver(Lines(c.buffer + e.data)).messages, env))
  }

  /** The callback concerns an established connection, and what is read are the next bytes. */
  ghost predicate Delivers(p: Party, c: Conn, e: Event, incoming: string) {
    && (e.WriteDone? || e.ReadDone? || e.CloseDone? || e.Timer?) && Enabled(p, c, e)
    && (e.ReadDone? && e.nread > 0 ==> e.nread <= |incoming| && e.data == incoming[..e.nread])
  }

  /** What a callback does to the table of the node it happens in. */
  ghost function TableAfterCall(n: Node, id: nat, c: Conn, e: Event, env: nat -> Env): Node
    requires id < |n.clients|
  {
    if e.ReadDone? && e.nread > 0 then TableAfter(n, id, |c.log.received|, Deliver(Lines(c.buffer + e.data)).messages, env)
    else if e.CloseDone? then ConnectionClosed(n, id)
    else n
  }

  function LinkStep(l: Link, atB: bool, e: Event, d: Conn): Link {
    var sent := E.NewBytes(ConnOf(l, atB), d);
    var taken := if e.ReadDone? && 0 < e.nread <= |Arriving(l, atB)| then e.nread else 0;
    if atB then l.(acceptor := d, up := l.up[taken..], down := l.down + sent)
    else l.(dialler := d, down := l.down[taken..], up := l.up + sent)
  }

  /** A connection that has just been established, noted by the node that dialled it. */
  function NodeDialled(n: Node, id: nat, remoteHost: string): Node
    requires id < |n.clients|
  {
    var c := n.clients[id];
    WithClient(n, id, c.(canon := if remoteHost != c.host then Key(remoteHost, c.port) else c.canon, connected := true))
  }

  function Noted(n: Node, id: nat, d: Conn): Node
    requires id < |n.clients|
  {
    WithClient(n, id, n.clients[id].(connected := IsConnected(d)))
  }

  /** One move; a callback that dies makes none. */
  ghost predicate Moves(w: N.World, s: Net, m: Move, t: Net)
    requires |s.nodes| == |w.sites|
  {
    match m
    case Sweeps(i, res) => i < |s.nodes| && t == s.(nodes := s.nodes[i := TryOutConnections(s.nodes[i], res)])
    case Dials(i, id, j, remoteHost, alive, p) =>
      && i < |s.nodes| && id < |s.nodes[i].clients| && j < |s.nodes|
      && s.nodes[i].clients[id].port == w.sites[j].port && remoteHost in w.sites[j].addrs
      && var (n, r) := (NodeDialled(s.nodes[i], id, remoteHost), OnConnect(p, Connect(p, NEW), 0, remoteHost));
         && Serves(p, n, id, alive) && r.Ok?
         && t == Net(s.nodes[i := n], s.links + [Link(i, id, j, None, r.value, NEW, Concat(r.value.log.wrote), "")])
    case Accepts(l, fromHost, fromPort, p) =>
      && l < |s.links| && Fits(s, s.links[l]) && s.links[l].bId.None? && fromHost in w.sites[s.links[l].a].addrs
      && p.kind.Incoming? && p.app.NodeApp?
      && var (k, r) := (s.links[l], Accept(p));
         && r.Ok?
         && t == Net(s.nodes[k.b := InConnection(s.nodes[k.b], fromHost, fromPort)],
                     s.links[l := k.(bId := Some(|s.nodes[k.b].clients|), acceptor := r.value)])
    case Calls(l, atB, e, p, env, alive) =>
      && l < |s.links| && Fits(s, s.links[l]) && (atB ==> s.links[l].bId.Some?)
      && var k := s.links[l];
         var (i, id, c, r) := (NodeOf(k, atB), ClientOf(k, atB), ConnOf(k, atB), C.Apply(p, ConnOf(k, atB), e));
         && Plays(p, s.nodes[i], id, c, atB, e, env, alive) && Delivers(p, c, e, Arriving(k, atB)) && r.Ok?
         && var n := TableAfterCall(s.nodes[i], id, c, e, env);
            id < |n.clients| && t == Net(s.nodes[i := Noted(n, id, r.value)], s.links[l := LinkStep(k, atB, e, r.value)])
  }

  // The bytes.

  /** Honest messages of node `from`; only a dialler greets. */
  ghost predicate AllHonest(w: N.World, from: nat, ms: seq<Message>, greets: bool)
    requires from < |w.sites|
  {
    forall m | m in ms :: N.Honest(w, from, m) && (m.Handshake? ==> greets)
  }

  /** The bytes, from the receiver's buffer on, are whole frames of honest messages. */
  ghost predicate Carries(w: N.World, from: nat, bytes: string, greets: bool)
    requires from < |w.sites|
  {
    exists ms :: AllHonest(w, from, ms, greets) && bytes == Wire(ms)
  }

  lemma WireAppend(a: seq<Message>, b: seq<Message>)
    ensures Wire(a + b) == Wire(a) + Wire(b)
  {
    hide Wire, Frames;
    WireIsFrames(a);
    WireIsFrames(b);
    WireIsFrames(a + b);
    FramesConcat(a, b);
    ConcatAppend(Frames(a), Frames(b));
  }

  lemma CarriesMore(w: N.World, from: nat, bytes: string, greets: bool, ms: seq<Message>)
    requires from < |w.sites| && Carries(w, from, bytes, greets) && AllHonest(w, from, ms, greets)
    ensures Carries(w, from, bytes + Wire(ms), greets)
  {
    hide Wire, N.Honest;
    var old' :| AllHonest(w, from, old', greets) && bytes == Wire(old');
    WireAppend(old', ms);
    assert AllHonest(w, from, old' + ms, greets);
  }

  lemma CarriesNothing(w: N.World, from: nat, greets: bool)
    requires from < |w.sites|
    ensures Carries(w, from, "", greets)
  {
    assert Wire([]) == "" && AllHonest(w, from, [], greets);
  }

  lemma HonestWellFormed(w: N.World, from: nat, ms: seq<Message>, greets: bool)
    requires from < |w.sites| && AllHonest(w, from, ms, greets)
    ensures AllWellFormed(ms)
  {
    hide N.Real, WellFormed;
    forall m | m in ms ensures WellFormed(m) {
      assert N.Honest(w, from, m);
    }
  }

  lemma ReadTexts(ms: seq<Message>, read: string, later: string) returns (k: nat)
    requires AllWellFormed(ms) && read + later == Wire(ms)
    ensures k <= |ms| && Lines(read) == Texts(ms[..k]) && AllWellFormed(ms[..k])
  {
    hide Lines, Rest, Unlines, Serialize, AllWellFormed;
    TextsClean(ms);
    PrefixLines(Texts(ms), read, later);
    k := WholeLines(Texts(ms), |read|);
    PrefixWellFormed(ms, k);
    assert Texts(ms)[..k] == Texts(ms[..k]);
  }

  /** Some of the bytes of well-formed messages: the whole frames among them are delivered, the rest is kept. */
  lemma ReadSome(ms: seq<Message>, read: string, later: string) returns (k: nat)
    requires AllWellFormed(ms) && read + later == Wire(ms)
    ensures k <= |ms| && Deliver(Lines(read)) == Delivery(ms[..k], false) && Rest(read) + later == Wire(ms[k..])
  {
    hide Lines, Rest, Unlines, Deliver, Texts, AllWellFormed;
    k := ReadTexts(ms, read, later);
    TextsDeliver(ms[..k]);
    SplitLossless(read);
    assert Unlines(Lines(read)) == Wire(ms[..k]);
    hide Wire;
    WireAppend(ms[..k], ms[k..]);
    assert ms[..k] + ms[k..] == ms;
    SameTail(Wire(ms[..k]), Rest(read), later, read, Wire(ms[k..]));
  }

  lemma SameTail(done: string, kept: string, later: string, read: string, rest: string)
    requires done + kept == read && read + later == done + rest
    ensures kept + later == rest
  {
    AppendAssoc(done, kept, later);
    assert (done + (kept + later))[|done|..] == kept + later;
    assert (done + rest)[|done|..] == rest;
  }

  // What is written.

  /** Frames written between `c` and `d`. */
  ghost predicate Sent(c: Conn, d: Conn, ms: seq<Message>) {
    d.log.wrote == c.log.wrote + Frames(ms)
  }

  lemma SentBytes(c: Conn, d: Conn, ms: seq<Message>)
    requires Sent(c, d, ms)
    ensures E.NewBytes(c, d) == Wire(ms)
  {
    hide Wire, Frames;
    WireIsFrames(ms);
    assert d.log.wrote[|c.log.wrote|..] == Frames(ms);
  }

  lemma SentNothing(c: Conn, d: Conn)
    requires d.log.wrote == c.log.wrote
    ensures Sent(c, d, [])
  {
    assert c.log.wrote + [] == c.log.wrote;
  }

  lemma SentThen(c: Conn, d: Conn, e: Conn, a: seq<Message>, b: seq<Message>)
    requires Sent(c, d, a) && Sent(d, e, b)
    ensures Sent(c, e, a + b)
  {
    hide Frames;
    FramesConcat(a, b);
    AppendAssoc(c.log.wrote, Frames(a), Frames(b));
  }

  lemma OneSent(p: Party, c: Conn, call: Call) returns (sent: seq<Message>)
    requires PerformOne(p, c, call).Ok?
    ensures Sent(c, PerformOne(p, c, call).value, sent) && forall m | m in sent :: call == Send(m)
  {
    hide Frame, Frames;
    var d := PerformOne(p, c, call).value;
    if d.log.wrote == c.log.wrote {
      sent := [];
      SentNothing(c, d);
    } else {
      sent := [call.message];
      FramesAppend([], call.message);
      assert [] + [call.message] == [call.message];
      NoFrames();
      assert [] + [Frame(call.message)] == [Frame(call.message)];
    }
  }

  lemma NoFrames()
    ensures Frames([]) == []
  {
  }

  /** A handler's calls write only messages of its script. */
  lemma {:induction false} PerformSends(p: Party, c: Conn, calls: seq<Call>) returns (sent: seq<Message>)
    requires Perform(p, c, calls).Ok?
    ensures Sent(c, Perform(p, c, calls).value, sent) && forall m | m in sent :: m in N.Said(calls)
    decreases |calls|
  {
    hide Sent, PerformOne;
    if calls == [] {
      sent := [];
      SentNothing(c, c);
    } else {
      var first := OneSent(p, c, calls[0]);
      var d := PerformOne(p, c, calls[0]).value;
      var rest := PerformSends(p, d, calls[1..]);
      sent := first + rest;
      SentThen(c, d, Perform(p, c, calls).value, first, rest);
    }
  }

  /** A batch of honest messages: the table stays in order, and only honest messages are written. */
  lemma {:induction false} BatchHonest(w: N.World, i: nat, from: nat, p: Party, c: Conn, n: Node, id: nat, ms: seq<Message>,
                                       env: nat -> Env, greets: bool) returns (sent: seq<Message>)
    requires N.WellPosed(w) && i < |w.sites| && from < |w.sites| && N.NodeOk(w, i, n) && id < |n.clients|
    requires AllHonest(w, from, ms, greets) && (greets ==> n.clients[id].host in w.sites[from].addrs)
    requires Follows(p, |c.log.received|, n, id, ms, env) && HandleAll(p, c, ms).Ok?
    ensures var m := TableAfter(n, id, |c.log.received|, ms, env); N.NodeOk(w, i, m) && N.Persists(n, m)
    ensures AllHonest(w, i, sent, false) && Sent(c, HandleAll(p, c, ms).value, sent)
    decreases |ms|
  {
    hide N.NodeOk, N.Honest, HandleAll, Perform, Sent, NodeScript, NodeAfter;
    if ms == [] {
      HandleNone(p, c);
      SentNothing(c, c);
      N.Unchanged(n);
      sent := [];
    } else {
      assert ms[0] in ms;
      var first, d := FirstHonest(w, i, from, p, c, n, id, ms, env);
      var n1 := NodeAfter(n, id, ms[0], env(|c.log.received|));
      assert forall m | m in ms[1..] :: m in ms;
      var rest := BatchHonest(w, i, from, p, d, n1, id, ms[1..], env, greets);
      sent := first + rest;
      SentThen(c, d, HandleAll(p, c, ms).value, first, rest);
      PersistsThen(n, n1, TableAfter(n1, id, |d.log.received|, ms[1..], env));
    }
  }

  lemma PersistsThen(a: Node, b: Node, c: Node)
    requires N.Persists(a, b) && N.Persists(b, c)
    ensures N.Persists(a, c)
  {
  }

  lemma FirstHonest(w: N.World, i: nat, from: nat, p: Party, c: Conn, n: Node, id: nat, ms: seq<Message>, env: nat -> Env)
    returns (sent: seq<Message>, d: Conn)
    requires N.WellPosed(w) && i < |w.sites| && from < |w.sites| && N.NodeOk(w, i, n) && id < |n.clients| && ms != []
    requires N.Honest(w, from, ms[0]) && (ms[0].Handshake? ==> n.clients[id].host in w.sites[from].addrs)
    requires Follows(p, |c.log.received|, n, id, ms, env) && HandleAll(p, c, ms).Ok?
    ensures HandleAll(p, c, ms) == HandleAll(p, d, ms[1..]) && |d.log.received| == |c.log.received| + 1
    ensures var n1 := NodeAfter(n, id, ms[0], env(|c.log.received|));
            && N.NodeOk(w, i, n1) && N.Persists(n, n1) && id < |n1.clients|
            && n1.clients[id].host == n.clients[id].host
            && Follows(p, |d.log.received|, n1, id, ms[1..], env)
    ensures AllHonest(w, i, sent, false) && Sent(c, d, sent)
  {
    hide N.NodeOk, N.Honest, HandleAll, Perform, Sent, MessageReceived, N.Said;
    var k := |c.log.received|;
    N.MessageHandled(w, i, n, id, from, ms[0], env(k));
    NodeReacts(p, k, ms[0]);
    HandleFirst(p, c, ms);
    var calls := React(p, k, ms[0]).calls;
    var c1 := Taken(c, ms[0]);
    sent := PerformSends(p, c1, calls);
    d := Perform(p, c1, calls).value;
    KeepsReceived(p, c1, calls);
    SameSent(c, c1, d, sent);
  }

  lemma SameSent(c: Conn, c1: Conn, d: Conn, sent: seq<Message>)
    requires c1.log.wrote == c.log.wrote && Sent(c1, d, sent)
    ensures Sent(c, d, sent)
  {
  }

  lemma {:induction false} KeepsReceived(p: Party, c: Conn, calls: seq<Call>)
    requires Perform(p, c, calls).Ok?
    ensures Perform(p, c, calls).value.log.received == c.log.received
    decreases |calls|
  {
    hide Frame;
    if calls != [] {
      KeepsReceived(p, PerformOne(p, c, calls[0]).value, calls[1..]);
    }
  }

  // Callbacks.

  /** Once a connection is past its opening, `process` of a node's connection writes nothing. */
  lemma ProcessWritesNothing(p: Party, c: Conn)
    requires !p.kind.Outgoing? && c.state != Connected && Process(p, c).Ok?
    ensures var d := Process(p, c).value; d.log.wrote == c.log.wrote && d.buffer == c.buffer && d.state != Connected
  {
    hide OnTimer, SendMessage, SendWhileConnected, HandshakeFor, DoRead;
    ReadWritesNothing(p, c);
    ReadWritesNothing(p, c.(counter := c.counter + 1));
  }

  lemma ReadWritesNothing(p: Party, c: Conn)
    ensures var r := DoRead(p, c);
            r.Ok? ==> r.value.log.wrote == c.log.wrote && r.value.buffer == c.buffer && r.value.state != Connected
  {
  }

  lemma {:induction false} NotConnectedAfter(p: Party, c: Conn, ms: seq<Message>)
    requires HandleAll(p, c, ms).Ok? && c.state != Connected
    ensures HandleAll(p, c, ms).value.state != Connected
    decreases |ms|
  {
    hide HandleAll, Perform, React;
    if ms == [] {
      HandleNone(p, c);
    } else {
      HandleFirst(p, c, ms);
      var calls := React(p, |c.log.received|, ms[0]).calls;
      CallsStayOpened(p, Taken(c, ms[0]), calls);
      NotConnectedAfter(p, Perform(p, Taken(c, ms[0]), calls).value, ms[1..]);
    }
  }

  lemma {:induction false} CallsStayOpened(p: Party, c: Conn, calls: seq<Call>)
    requires Perform(p, c, calls).Ok? && c.state != Connected
    ensures Perform(p, c, calls).value.state != Connected
    decreases |calls|
  {
    hide Frame;
    if calls != [] {
      CallsStayOpened(p, PerformOne(p, c, calls[0]).value, calls[1..]);
    }
  }

  /** What a callback has done to its connection `c` and to the bytes it reads. */
  ghost predicate Done(w: N.World, i: nat, from: nat, c: Conn, d: Conn, sent: seq<Message>, left: string, greets: bool)
    requires i < |w.sites| && from < |w.sites|
  {
    && AllHonest(w, i, sent, false) && Sent(c, d, sent) && d.state != Connected
    && Carries(w, from, d.buffer + left, greets)
  }

  lemma QuietlyDone(w: N.World, i: nat, from: nat, c: Conn, d: Conn, left: string, greets: bool)
    requires i < |w.sites| && from < |w.sites| && Carries(w, from, c.buffer + left, greets)
    requires d.log.wrote == c.log.wrote && d.buffer == c.buffer && d.state != Connected
    ensures Done(w, i, from, c, d, [], left, greets)
  {
    hide Carries;
    SentNothing(c, d);
  }

  /** Reading some of the bytes. */
  lemma ReadHonest(w: N.World, i: nat, from: nat, p: Party, c: Conn, n: Node, id: nat, data: string, left: string,
                   env: nat -> Env, greets: bool) returns (sent: seq<Message>)
    requires N.WellPosed(w) && i < |w.sites| && from < |w.sites| && N.NodeOk(w, i, n) && id < |n.clients|
    requires !p.kind.Outgoing? && c.state != Connected && data != "" && OnRead(p, c, |data|, data).Ok?
    requires Carries(w, from, c.buffer + data + left, greets) && (greets ==> n.clients[id].host in w.sites[from].addrs)
    requires Follows(p, |c.log.received|, n, id, Deliver(Lines(c.buffer + data)).messages, env)
    ensures var m := TableAfter(n, id, |c.log.received|, Deliver(Lines(c.buffer + data)).messages, env);
            N.NodeOk(w, i, m) && N.Persists(n, m)
    ensures Done(w, i, from, c, OnRead(p, c, |data|, data).value, sent, left, greets)
  {
    hide N.NodeOk, N.Honest, HandleAll, Process, Wire, Deliver, Lines, Rest, Follows, TableAfter, Sent;
    var ms :| AllHonest(w, from, ms, greets) && c.buffer + data + left == Wire(ms);
    HonestWellFormed(w, from, ms, greets);
    var k := ReadSome(ms, c.buffer + data, left);
    var c1 := c.(buffer := c.buffer + data);
    DrainRefinesSplit(p, c1);
    var h := HandleAll(p, c1, ms[..k]).value;
    var h1 := h.(buffer := Rest(c1.buffer));
    assert forall m | m in ms[..k] :: m in ms;
    sent := BatchHonest(w, i, from, p, c1, n, id, ms[..k], env, greets);
    NotConnectedAfter(p, c1, ms[..k]);
    ProcessWritesNothing(p, h1);
    SameFrames(c, c1, h, Process(p, h1).value, sent);
    assert forall m | m in ms[k..] :: m in ms;
    assert AllHonest(w, from, ms[k..], greets);
  }

  lemma SameFrames(c: Conn, c1: Conn, d: Conn, d1: Conn, sent: seq<Message>)
    requires c1.log.wrote == c.log.wrote && d1.log.wrote == d.log.wrote && Sent(c1, d, sent)
    ensures Sent(c, d1, sent)
  {
  }

  /** The timer of a dialling connection. */
  lemma TimerHonest(w: N.World, i: nat, from: nat, p: Party, c: Conn, n: Node, id: nat, alive: nat -> bool, left: string)
    returns (sent: seq<Message>)
    requires N.WellPosed(w) && i < |w.sites| && from < |w.sites| && N.NodeOk(w, i, n) && id < |n.clients|
    requires Serves(p, n, id, alive) && OnTimer(p, c).Ok? && c.state != Connected && Carries(w, from, c.buffer + left, false)
    ensures Done(w, i, from, c, OnTimer(p, c).value, sent, left, false)
  {
    hide N.NodeOk, N.Honest, Serves, Carries, OnTimer, SendOtherPeers, N.OnTimerSays, Wrote, Sent;
    var d := OnTimer(p, c).value;
    TimerKeeps(p, c);
    if c.state == Closing || c.state == Closed {
      sent := [];
      QuietlyDone(w, i, from, c, d, left, false);
    } else {
      var said := N.OnTimerSays(n, id, alive, c.counter);
      TimerWrites(p, c, n, id, alive);
      var k := Successes(p, c.log.calls, |said|);
      sent := said[..k];
      WroteIsSent(p, c, said, d);
      forall m | m in sent ensures N.Honest(w, i, m) && !m.Handshake? {
        assert m in said;
        N.TimerHonest(w, i, n, id, alive, c.counter, m);
        TimerGreetsNobody(w, i, n, id, alive, c.counter, m);
      }
    }
  }

  lemma WroteIsSent(p: Party, c: Conn, ms: seq<Message>, d: Conn)
    requires Wrote(p, c, ms, d)
    ensures Sent(c, d, ms[..Successes(p, c.log.calls, |ms|)])
  {
    hide Frames;
  }

  lemma TimerKeeps(p: Party, c: Conn)
    requires OnTimer(p, c).Ok? && c.state != Connected
    ensures var d := OnTimer(p, c).value; d.buffer == c.buffer && d.state != Connected
    ensures (c.state == Closing || c.state == Closed ==> OnTimer(p, c).value == c) && (c.state == Closing || c.state == Closed || c.stream)
  {
    hide PingFor, Frame, SendWhileConnected;
    var c1 := SendMessage(p, c, PingFor(p, c)).value;
    GossipKeepsState(p, c1, Gossip(p, c1));
  }

  lemma {:induction false} GossipKeepsState(p: Party, c: Conn, ms: seq<Message>)
    requires SendWhileConnected(p, c, ms).Ok? && c.state != Connected
    ensures SendWhileConnected(p, c, ms).value.state != Connected
    ensures c.state == Closing || c.state == Closed ==> SendWhileConnected(p, c, ms).value == c
    decreases |ms|
  {
    hide Frame;
    if ms != [] && IsConnected(c) {
      GossipKeepsState(p, SendMessage(p, c, ms[0]).value, ms[1..]);
    }
  }

  lemma TimerGreetsNobody(w: N.World, i: nat, n: Node, id: nat, alive: nat -> bool, count: nat, m: Message)
    requires N.WellPosed(w) && i < |w.sites| && N.NodeOk(w, i, n) && id < |n.clients| && m in N.OnTimerSays(n, id, alive, count)
    ensures !m.Handshake?
  {
    hide N.NodeOk, SendOtherPeers, N.Honest;
    if m in SendOtherPeers(n, id, alive) {
      N.GossipHonest(w, i, n, id, alive, m);
    }
  }

  /** Any callback on an established link: the node's table stays in order, only honest messages that are no
      handshakes are written, and the bytes not yet taken are still whole frames of honest messages. */
  lemma CallHonest(w: N.World, i: nat, from: nat, p: Party, c: Conn, n: Node, id: nat, atB: bool, e: Event,
                   arriving: string, env: nat -> Env, alive: nat -> bool) returns (sent: seq<Message>)
    requires N.WellPosed(w) && i < |w.sites| && from < |w.sites| && N.NodeOk(w, i, n) && id < |n.clients|
    requires Plays(p, n, id, c, atB, e, env, alive) && Delivers(p, c, e, arriving) && C.Apply(p, c, e).Ok?
    requires c.state != Connected && Carries(w, from, c.buffer + arriving, atB)
    requires atB ==> n.clients[id].host in w.sites[from].addrs
    ensures var m := TableAfterCall(n, id, c, e, env); N.NodeOk(w, i, m) && N.Persists(n, m)
    ensures var left := arriving[if e.ReadDone? && 0 < e.nread <= |arriving| then e.nread else 0..];
            Done(w, i, from, c, C.Apply(p, c, e).value, sent, left, atB)
  {
    hide N.NodeOk, Serves, Follows, Carries, Done, OnTimer, OnRead, Deliver, Lines, Process, FilterKept, N.Persists;
    N.Unchanged(n);
    assert arriving[0..] == arriving;
    match e
    case ReadDone(nread, data) =>
      if nread > 0 {
        assert data + arriving[nread..] == arriving;
        AppendAssoc(c.buffer, data, arriving[nread..]);
        sent := ReadHonest(w, i, from, p, c, n, id, data, arriving[nread..], env, atB);
      } else {
        sent := [];
        EndOfFile(p, c, nread, data);
        QuietlyDone(w, i, from, c, Close(c), arriving, atB);
      }
    case WriteDone(status) =>
      sent := [];
      var d := OnWrite(p, c, status).value;
      ReportWritesNothing(p, c, status);
      QuietlyDone(w, i, from, c, d, arriving, atB);
    case CloseDone =>
      sent := [];
      N.ClosedOk(w, i, n, id);
      QuietlyDone(w, i, from, c, OnClose(c), arriving, atB);
    case Timer =>
      if atB {
        NoTimer(p, n, id, alive);
      }
      sent := TimerHonest(w, i, from, p, c, n, id, alive, arriving);
  }

  lemma NoTimer(p: Party, n: Node, id: nat, alive: nat -> bool)
    requires id < |n.clients| && Serves(p, n, id, alive)
    ensures p.kind == Peer
  {
  }

  lemma EndOfFile(p: Party, c: Conn, nread: int, data: string)
    requires nread <= 0
    ensures OnRead(p, c, nread, data) == Ok(Close(c))
    ensures var d := Close(c); d.log.wrote == c.log.wrote && d.buffer == c.buffer && d.state != Connected
  {
  }

  lemma ReportWritesNothing(p: Party, c: Conn, status: int)
    requires !p.kind.Outgoing? && OnWrite(p, c, status).Ok?
    ensures var d := OnWrite(p, c, status).value; d.log.wrote == c.log.wrote && d.buffer == c.buffer && d.state != Connected
  {
    hide Process;
    if status == 0 {
      ProcessWritesNothing(p, c.(log := c.log.(returned := c.log.returned + 1)));
    }
  }

  // The network.

  ghost predicate LinkGood(w: N.World, s: Net, l: Link)
    requires |s.nodes| == |w.sites|
  {
    && Fits(s, l) && l.dialler.state != Connected && l.acceptor.state != Connected
    && (if l.bId.Some? then s.nodes[l.b].clients[l.bId.value].host in w.sites[l.a].addrs else l.acceptor.buffer == "")
    && Carries(w, l.a, l.acceptor.buffer + l.up, true)
    && Carries(w, l.b, l.dialler.buffer + l.down, false)
  }

  ghost predicate NetGood(w: N.World, s: Net) {
    && |s.nodes| == |w.sites|
    && (forall i | 0 <= i < |s.nodes| :: N.NodeOk(w, i, s.nodes[i]))
    && (forall l | l in s.links :: LinkGood(w, s, l))
  }

  /** The network is in order and no candidate was lost. */
  ghost predicate MovedWell(w: N.World, s: Net, t: Net) {
    && NetGood(w, t) && |t.nodes| == |s.nodes|
    && forall i | 0 <= i < |s.nodes| :: s.nodes[i].cands.Keys <= t.nodes[i].cands.Keys
  }

  lemma LinkPersists(w: N.World, s: Net, t: Net, l: Link)
    requires |s.nodes| == |w.sites| == |t.nodes| && LinkGood(w, s, l)
    requires forall i | 0 <= i < |s.nodes| :: N.Persists(s.nodes[i], t.nodes[i])
    ensures LinkGood(w, t, l)
  {
    hide Carries;
    assert N.Persists(s.nodes[l.a], t.nodes[l.a]) && N.Persists(s.nodes[l.b], t.nodes[l.b]);
  }

  /** One node replaced by one in order, and perhaps one link replaced or added. */
  lemma Replaced(w: N.World, s: Net, i: nat, n: Node, t: Net)
    requires NetGood(w, s) && i < |s.nodes| && N.NodeOk(w, i, n) && N.Persists(s.nodes[i], n) && t.nodes == s.nodes[i := n]
    requires forall l | l in t.links :: l in s.links || LinkGood(w, t, l)
    ensures MovedWell(w, s, t)
  {
    hide N.NodeOk, LinkGood, N.Persists;
    forall j | 0 <= j < |s.nodes| ensures N.Persists(s.nodes[j], t.nodes[j]) && s.nodes[j].cands.Keys <= t.nodes[j].cands.Keys {
      N.Unchanged(s.nodes[j]);
      PersistKeys(s.nodes[j], t.nodes[j]);
    }
    forall l | l in t.links ensures LinkGood(w, t, l) {
      if l in s.links {
        LinkPersists(w, s, t, l);
      }
    }
  }

  lemma PersistKeys(n: Node, m: Node)
    ensures N.Persists(n, m) ==> n.cands.Keys <= m.cands.Keys
  {
  }

  /** How the clients of a node that persists relate to the former ones. */
  lemma PersistClients(n: Node, m: Node, id: nat)
    requires N.Persists(n, m) && id < |n.clients|
    ensures id < |m.clients| && m.clients[id].host == n.clients[id].host
  {
  }

  lemma NotedOk(w: N.World, i: nat, n: Node, m: Node, id: nat, d: Conn)
    requires i < |w.sites| && N.NodeOk(w, i, m) && N.Persists(n, m) && id < |m.clients|
    ensures N.NodeOk(w, i, Noted(m, id, d)) && N.Persists(n, Noted(m, id, d))
  {
    hide N.NodeOk, N.ClientOk, IsConnected;
    N.ClientInNode(w, i, m, id);
    var c := m.clients[id].(connected := IsConnected(d));
    SameClientOk(w, m.clients[id], IsConnected(d));
    N.ClientUpdateOk(w, i, m, id, c);
    PersistsThen(n, m, Noted(m, id, d));
  }

  lemma SameClientOk(w: N.World, c: Client, connected: bool)
    requires N.ClientOk(w, c)
    ensures N.ClientOk(w, c.(connected := connected))
  {
  }

  lemma CallsKeep(w: N.World, s: Net, m: Move, t: Net)
    requires N.WellPosed(w) && NetGood(w, s) && m.Calls? && Moves(w, s, m, t)
    ensures MovedWell(w, s, t)
  {
    hide N.NodeOk, Plays, Delivers, C.Apply, TableAfterCall, Carries, MovedWell, Done, N.Persists, Noted, LinkStep, N.WellPosed;
    var k := s.links[m.l];
    assert LinkGood(w, s, k);
    var i, id, c := NodeOf(k, m.atB), ClientOf(k, m.atB), ConnOf(k, m.atB);
    var from := NodeOf(k, !m.atB);
    var n, d := TableAfterCall(s.nodes[i], id, c, m.e, m.env), C.Apply(m.p, c, m.e).value;
    var sent := CallHonest(w, i, from, m.p, c, s.nodes[i], id, m.atB, m.e, Arriving(k, m.atB), m.env, m.alive);
    NotedOk(w, i, s.nodes[i], n, id, d);
    Unmoved(s, i, Noted(n, id, d));
    LinkPersists(w, s, t, k);
    StepKeepsLink(w, t, k, m.atB, m.e, d, sent);
    Replaced(w, s, i, Noted(n, id, d), t);
  }

  lemma Unmoved(s: Net, i: nat, n: Node)
    requires i < |s.nodes| && N.Persists(s.nodes[i], n)
    ensures forall j | 0 <= j < |s.nodes| :: N.Persists(s.nodes[j], s.nodes[i := n][j])
  {
    hide N.Persists;
    forall j | 0 <= j < |s.nodes| ensures N.Persists(s.nodes[j], s.nodes[i := n][j]) {
      N.Unchanged(s.nodes[j]);
    }
  }

  lemma StepKeepsLink(w: N.World, t: Net, k: Link, atB: bool, e: Event, d: Conn, sent: seq<Message>)
    requires |t.nodes| == |w.sites| && LinkGood(w, t, k) && (atB ==> k.bId.Some?)
    requires var (arriving, i) := (Arriving(k, atB), NodeOf(k, atB));
             var left := arriving[if e.ReadDone? && 0 < e.nread <= |arriving| then e.nread else 0..];
             Done(w, i, NodeOf(k, !atB), ConnOf(k, atB), d, sent, left, atB)
    ensures LinkGood(w, t, LinkStep(k, atB, e, d))
  {
    hide Carries, N.Honest, Wire, Sent;
    SentBytes(ConnOf(k, atB), d, sent);
    assert AllHonest(w, NodeOf(k, atB), sent, !atB);
    if atB {
      CarriesMore(w, k.b, k.dialler.buffer + k.down, false, sent);
      AppendAssoc(k.dialler.buffer, k.down, Wire(sent));
    } else {
      CarriesMore(w, k.a, k.acceptor.buffer + k.up, true, sent);
      AppendAssoc(k.acceptor.buffer, k.up, Wire(sent));
    }
  }

  lemma AcceptsKeep(w: N.World, s: Net, m: Move, t: Net)
    requires N.WellPosed(w) && NetGood(w, s) && m.Accepts? && Moves(w, s, m, t)
    ensures MovedWell(w, s, t)
  {
    hide N.NodeOk, Carries, MovedWell, N.Persists;
    var k := s.links[m.l];
    assert LinkGood(w, s, k) && N.GoodHost(m.fromHost);
    var n := InConnection(s.nodes[k.b], m.fromHost, m.fromPort);
    N.AcceptOk(w, k.b, s.nodes[k.b], m.fromHost, m.fromPort);
    AcceptState(m.p);
    Unmoved(s, k.b, n);
    LinkPersists(w, s, t, k);
    assert LinkGood(w, t, t.links[m.l]);
    Replaced(w, s, k.b, n, t);
  }

  lemma AcceptState(p: Party)
    ensures Accept(p).Ok? ==> Accept(p).value.buffer == "" && Accept(p).value.state != Connected
  {
  }

  lemma DialsKeep(w: N.World, s: Net, m: Move, t: Net)
    requires N.WellPosed(w) && NetGood(w, s) && m.Dials? && Moves(w, s, m, t)
    ensures MovedWell(w, s, t)
  {
    hide N.NodeOk, Carries, MovedWell, N.Persists, OnConnect, Connect, Serves, SendOtherPeers, N.OnConnectSays, Key, Wire;
    var n := NodeDialled(s.nodes[m.i], m.id, m.remoteHost);
    NodeDialledOk(w, m.i, s.nodes[m.i], m.id, m.j, m.remoteHost);
    var d := OnConnect(m.p, Connect(m.p, NEW), 0, m.remoteHost).value;
    var up := Concat(d.log.wrote);
    OpeningCarries(w, m.i, n, m.id, m.alive, m.remoteHost, m.p);
    Opened(m.p, n, m.id, m.alive, m.remoteHost);
    CarriesNothing(w, m.j, false);
    assert NEW.buffer + up == up && d.buffer + "" == "";
    assert N.Persists(s.nodes[m.i], n);
    PersistClients(s.nodes[m.i], n, m.id);
    assert LinkGood(w, t, Link(m.i, m.id, m.j, None, d, NEW, up, ""));
    Replaced(w, s, m.i, n, t);
  }

  lemma NodeDialledOk(w: N.World, i: nat, n: Node, id: nat, j: nat, remoteHost: string)
    requires i < |w.sites| && j < |w.sites| && N.NodeOk(w, i, n) && id < |n.clients|
    requires n.clients[id].port == w.sites[j].port && remoteHost in w.sites[j].addrs
    ensures var m := NodeDialled(n, id, remoteHost); N.NodeOk(w, i, m) && N.Persists(n, m)
  {
    hide N.NodeOk, Key, N.Persists;
    var c := n.clients[id];
    N.ClientInNode(w, i, n, id);
    assert N.Real(w, Key(remoteHost, c.port));
    var canon := if remoteHost != c.host then Key(remoteHost, c.port) else c.canon;
    N.ClientUpdateOk(w, i, n, id, c.(canon := canon, connected := true));
  }

  lemma OpeningCarries(w: N.World, i: nat, n: Node, id: nat, alive: nat -> bool, remoteHost: string, p: Party)
    requires N.WellPosed(w) && i < |w.sites| && N.NodeOk(w, i, n) && id < |n.clients| && Serves(p, n, id, alive)
    ensures OnConnect(p, Connect(p, NEW), 0, remoteHost).Ok?
    ensures Carries(w, i, Concat(OnConnect(p, Connect(p, NEW), 0, remoteHost).value.log.wrote), true)
  {
    hide N.NodeOk, N.Honest, Serves, OnConnect, Connect, SendOtherPeers, N.OnConnectSays, Wire, Frames;
    var said := N.OnConnectSays(n, id, alive);
    OpeningAgrees(p, n, id, alive, remoteHost);
    var sent := said[..Successes(p, 1, |said|)];
    WireIsFrames(sent);
    forall m | m in sent ensures N.Honest(w, i, m) {
      assert m in said;
      N.ConnectHonest(w, i, n, id, alive, m);
    }
    assert AllHonest(w, i, sent, true);
  }

  lemma Opened(p: Party, n: Node, id: nat, alive: nat -> bool, remoteHost: string)
    requires id < |n.clients| && Serves(p, n, id, alive)
    ensures var r := OnConnect(p, Connect(p, NEW), 0, remoteHost);
            r.Ok? && r.value.state != Connected && r.value.buffer == ""
  {
    hide SendOtherPeers, Key, ProcessPeer;
    var c0 := Connect(p, NEW);
    var canon := if remoteHost != p.host then Key(remoteHost, p.port) else "";
    var c := c0.(state := Connected, canon := canon, log := c0.log.(connecting := false));
    PeerOpens(p, c);
    OpeningKeepsBuffer(p, c);
  }

  lemma OpeningKeepsBuffer(p: Party, c: Conn)
    requires c.state == Connected && ProcessPeer(p, c).Ok?
    ensures ProcessPeer(p, c).value.buffer == c.buffer
  {
    hide SendMessage, SendWhileConnected, PingFor, HandshakeFor;
  }

  lemma MoveKeeps(w: N.World, s: Net, m: Move, t: Net)
    requires N.WellPosed(w) && NetGood(w, s) && Moves(w, s, m, t)
    ensures MovedWell(w, s, t)
  {
    match m
    case Sweeps(i, res) =>
      hide N.NodeOk, LinkGood, TryOutConnections, MovedWell, N.Persists;
      N.SweepOk(w, i, s.nodes[i], res);
      Replaced(w, s, i, TryOutConnections(s.nodes[i], res), t);
    case Dials(_, _, _, _, _, _) => hide Moves, NetGood, MovedWell; DialsKeep(w, s, m, t);
    case Accepts(_, _, _, _) => hide Moves, NetGood, MovedWell; AcceptsKeep(w, s, m, t);
    case Calls(_, _, _, _, _, _) => hide Moves, NetGood, MovedWell; CallsKeep(w, s, m, t);
  }

  /** A run of the network. */
  ghost predicate Runs(w: N.World, s: Net, moves: seq<(Move, Net)>, t: Net)
    decreases |moves|
  {
    if moves == [] then s == t
    else |s.nodes| == |w.sites| && Moves(w, s, moves[0].0, moves[0].1) && Runs(w, moves[0].1, moves[1..], t)
  }

  lemma {:induction false} RunKeeps(w: N.World, s: Net, moves: seq<(Move, Net)>, t: Net)
    requires N.WellPosed(w) && NetGood(w, s) && Runs(w, s, moves, t)
    ensures MovedWell(w, s, t)
    decreases |moves|
  {
    hide Moves, N.NodeOk, LinkGood;
    if moves != [] {
      var s1 := moves[0].1;
      MoveKeeps(w, s, moves[0].0, s1);
      RunKeeps(w, s1, moves[1..], t);
    }
  }

  ghost predicate Started(w: N.World, s: Net) {
    && |s.nodes| == |w.sites| && s.links == []
    && forall i | 0 <= i < |s.nodes| :: N.StartedNode(w, i, s.nodes[i])
  }

  lemma StartGood(w: N.World, s: Net)
    requires Started(w, s)
    ensures NetGood(w, s)
  {
    hide N.NodeOk, N.StartedNode;
    forall i | 0 <= i < |s.nodes| ensures N.NodeOk(w, i, s.nodes[i]) {
      N.StartedOk(w, i, s.nodes[i]);
    }
  }

  /** The bytes are whole frames of messages whose OPEERs all name real listening endpoints. */
  ghost predicate OnlyRealPeers(w: N.World, bytes: string) {
    exists ms :: bytes == Wire(ms) && AllWellFormed(ms) && forall m: Message | m in ms && m.OtherPeer? :: N.Real(w, Key(m.host, m.port))
  }

  /** Provenance down to the bytes. Over every run of any number of nodes, with any cutting of the byte streams, any order
      of callbacks and any result codes, each candidate is a seed or a real listening endpoint, each canonical address is
      a real one, what is in a receive buffer and behind it on the wire is nothing but frames whose OPEERs are
      real, and no candidate is ever lost. */
  lemma WireProvenance(w: N.World, start: Net, moves: seq<(Move, Net)>, t: Net)
    requires N.WellPosed(w) && Started(w, start) && Runs(w, start, moves, t)
    ensures |t.nodes| == |start.nodes|
    ensures forall i, k | 0 <= i < |t.nodes| && k in t.nodes[i].cands :: k in w.seeds || N.Real(w, k)
    ensures forall i, c | 0 <= i < |t.nodes| && c in t.nodes[i].clients :: c.canon == "" || N.Real(w, c.canon)
    ensures forall l | l in t.links ::
              OnlyRealPeers(w, l.acceptor.buffer + l.up) && OnlyRealPeers(w, l.dialler.buffer + l.down)
    ensures forall i | 0 <= i < |t.nodes| :: start.nodes[i].cands.Keys <= t.nodes[i].cands.Keys
  {
    hide N.Real, TableRuns.TableInv, Runs, Started, LinkGood, OnlyRealPeers;
    StartGood(w, start);
    RunKeeps(w, start, moves, t);
    forall i, k | 0 <= i < |t.nodes| && k in t.nodes[i].cands ensures k in w.seeds || N.Real(w, k) {
      assert N.NodeOk(w, i, t.nodes[i]) && N.Known(w, k);
    }
    forall i, c | 0 <= i < |t.nodes| && c in t.nodes[i].clients ensures c.canon == "" || N.Real(w, c.canon) {
      assert N.NodeOk(w, i, t.nodes[i]) && N.ClientOk(w, c);
    }
    hide N.NodeOk;
    forall l | l in t.links
      ensures OnlyRealPeers(w, l.acceptor.buffer + l.up) && OnlyRealPeers(w, l.dialler.buffer + l.down)
    {
      LinkIsReal(w, t, l);
    }
  }

  lemma LinkIsReal(w: N.World, s: Net, l: Link)
    requires |s.nodes| == |w.sites| && LinkGood(w, s, l)
    ensures OnlyRealPeers(w, l.acceptor.buffer + l.up) && OnlyRealPeers(w, l.dialler.buffer + l.down)
  {
    hide Carries, OnlyRealPeers;
    CarriesReal(w, l.a, l.acceptor.buffer + l.up, true);
    CarriesReal(w, l.b, l.dialler.buffer + l.down, false);
  }

  lemma CarriesReal(w: N.World, from: nat, bytes: string, greets: bool)
    requires from < |w.sites| && Carries(w, from, bytes, greets)
    ensures OnlyRealPeers(w, bytes)
  {
    hide Wire, N.Real, Key, WellFormed;
    var ms :| AllHonest(w, from, ms, greets) && bytes == Wire(ms);
    HonestWellFormed(w, from, ms, greets);
    forall m: Message | m in ms && m.OtherPeer? ensures N.Real(w, Key(m.host, m.port)) {
      assert N.Honest(w, from, m);
    }
  }
}
