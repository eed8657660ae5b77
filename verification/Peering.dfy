/** node/peer_conn.cpp meets node/node.cpp: what a node's outgoing connection writes when it opens and when its timer
    fires is what the network model puts on the link, as far as the writes succeed; and what honest nodes say
    is harmless to the connection that reads it. */
module Peering {
  import opened Text
  import opened Messages
  import opened Framing
  import opened Endpoints
  import opened Connection
  import opened Batches
  import opened Callbacks
  import opened PeerTable
  import opened NodeBatches
  import Network
  import TableRuns
  import Decimal

  /** How many of `count` libuv calls from call `k` on succeed before the first that fails. */
  function Successes(p: Party, k: nat, count: nat): (n: nat)
    ensures n <= count
    decreases count
  {
    if count == 0 || p.io(k) != 0 then 0 else 1 + Successes(p, k + 1, count - 1)
  }

  /** `d` is `c` after trying to write `ms`, one libuv call each, up to the first failure. */
  ghost predicate Wrote(p: Party, c: Conn, ms: seq<Message>, d: Conn) {
    var k := Successes(p, c.log.calls, |ms|);
    && d.log.wrote == c.log.wrote + Frames(ms[..k])
    && d.counter == c.counter && d.canon == c.canon && d.log.timer == c.log.timer
    && if k == |ms| then d.stream && IsConnected(d) && d.log.calls == c.log.calls + |ms|
       else !d.stream && (d.state == Closing || d.state == Closed)
  }

  lemma {:induction false} SuccessesAdd(p: Party, k: nat, a: nat, b: nat)
    ensures Successes(p, k, a + b)
         == if Successes(p, k, a) == a then a + Successes(p, k + a, b) else Successes(p, k, a)
    decreases a
  {
    if a > 0 && p.io(k) == 0 {
      SuccessesAdd(p, k + 1, a - 1, b);
    }
  }

  lemma {:induction false} SuccessesFlawless(p: Party, k: nat, count: nat)
    requires NoErrors(p)
    ensures Successes(p, k, count) == count
    decreases count
  {
    if count > 0 {
      SuccessesFlawless(p, k + 1, count - 1);
    }
  }

  /** Writing `a` and then, if the connection is still there, `b`. */
  lemma WroteThen(p: Party, c: Conn, a: seq<Message>, d: Conn, b: seq<Message>, e: Conn)
    requires Wrote(p, c, a, d) && if d.stream then Wrote(p, d, b, e) else e == d
    ensures Wrote(p, c, a + b, e)
  {
    hide Frames, IsConnected;
    SuccessesAdd(p, c.log.calls, |a|, |b|);
    var k := Successes(p, c.log.calls, |a|);
    if d.stream {
      var j := Successes(p, d.log.calls, |b|);
      FramesConcat(a, b[..j]);
      assert a[..k] == a && (a + b)[..|a| + j] == a + b[..j];
      AppendAssoc(c.log.wrote, Frames(a), Frames(b[..j]));
    } else {
      assert (a + b)[..k] == a[..k];
    }
  }

  lemma WroteNothing(p: Party, c: Conn)
    requires c.stream && IsConnected(c)
    ensures Wrote(p, c, [], c)
  {
    assert c.log.wrote + [] == c.log.wrote;
  }

  lemma SendWrites(p: Party, c: Conn, m: Message)
    requires c.stream && !(c.state.Closing? || c.state.Closed?)
    ensures SendMessage(p, c, m).Ok? && Wrote(p, c, [m], SendMessage(p, c, m).value)
  {
    hide Frame;
    FramesAppend([], m);
    assert [] + [m] == [m] && [] + [Frame(m)] == [Frame(m)];
    assert [m][..1] == [m] && [m][..0] == [] && c.log.wrote + [] == c.log.wrote;
    assert Successes(p, c.log.calls, 1) == if p.io(c.log.calls) == 0 then 1 else 0;
  }

  lemma {:induction false} GossipWrites(p: Party, c: Conn, ms: seq<Message>)
    requires c.stream && IsConnected(c)
    ensures SendWhileConnected(p, c, ms).Ok? && Wrote(p, c, ms, SendWhileConnected(p, c, ms).value)
    decreases |ms|, 0
  {
    hide Frame, SendMessage, Wrote, IsConnected;
    if ms == [] {
      WroteNothing(p, c);
    } else {
      ConnectedStates(c);
      SendWrites(p, c, ms[0]);
      var c1 := SendMessage(p, c, ms[0]).value;
      GossipAfter(p, c, [ms[0]], c1, ms[1..]);
      assert [ms[0]] + ms[1..] == ms;
    }
  }

  lemma ConnectedStates(c: Conn)
    ensures IsConnected(c) ==> !(c.state.Closing? || c.state.Closed?)
  {
  }

  lemma WroteFacts(p: Party, c: Conn, ms: seq<Message>, d: Conn)
    requires Wrote(p, c, ms, d)
    ensures if d.stream then IsConnected(d) && d.log.calls == c.log.calls + |ms|
            else !IsConnected(d) && (d.state == Closing || d.state == Closed)
    ensures d.counter == c.counter && d.canon == c.canon && d.log.timer == c.log.timer
  {
  }

  /** After writing `a` comes gossip, which is skipped if the connection is gone. */
  lemma {:induction false} GossipAfter(p: Party, c: Conn, a: seq<Message>, d: Conn, gossip: seq<Message>)
    requires Wrote(p, c, a, d)
    ensures SendWhileConnected(p, d, gossip).Ok? && Wrote(p, c, a + gossip, SendWhileConnected(p, d, gossip).value)
    decreases |gossip|, 1
  {
    hide Wrote, IsConnected, SendMessage;
    WroteFacts(p, c, a, d);
    if d.stream {
      GossipWrites(p, d, gossip);
    }
    WroteThen(p, c, a, d, gossip, SendWhileConnected(p, d, gossip).value);
  }

  /** The connection `p` serves client `id` of node `n`, and its application answers gossip from the node's table. */
  ghost predicate Serves(p: Party, n: Node, id: nat, alive: nat -> bool)
    requires id < |n.clients|
  {
    && p.kind.Peer? && p.app.NodeApp?
    && p.app.name == n.name && p.host == n.clients[id].host && p.port == n.clients[id].port
    && forall k {:trigger p.app.gossip(k)} :: p.app.gossip(k) == SendOtherPeers(n, id, alive)
  }

  /** The timer: up to the first write that fails, exactly what the network model says goes out. */
  lemma TimerWrites(p: Party, c: Conn, n: Node, id: nat, alive: nat -> bool)
    requires c.stream && !(c.state.Closing? || c.state.Closed?)
    requires id < |n.clients| && Serves(p, n, id, alive)
    ensures OnTimer(p, c).Ok? && Wrote(p, c, Network.OnTimerSays(n, id, alive, c.counter), OnTimer(p, c).value)
  {
    hide SendMessage, SendWhileConnected, Wrote, SendOtherPeers;
    var ping := Network.TimerPing(n, n.clients[id], c.counter);
    assert PingFor(p, c) == ping;
    hide PingFor, Network.TimerPing;
    SendWrites(p, c, ping);
    GossipAfter(p, c, [ping], SendMessage(p, c, ping).value, SendOtherPeers(n, id, alive));
  }

  /** A successful connect: the canonical address set and, up to the first write that fails, the frames written are
      those of the network model. */
  lemma OpeningAgrees(p: Party, n: Node, id: nat, alive: nat -> bool, remoteHost: string)
    requires id < |n.clients| && Serves(p, n, id, alive)
    ensures var r := OnConnect(p, Connect(p, NEW), 0, remoteHost);
            var said := Network.OnConnectSays(n, id, alive);
            var k := Successes(p, 1, |said|);
            && r.Ok?
            && r.value.log.wrote == Frames(said[..k]) && (r.value.stream <==> k == |said|)
            && r.value.canon == (if remoteHost != p.host then Key(remoteHost, p.port) else "")
            && r.value.counter == 0 && r.value.log.timer
  {
    hide SendMessage, SendWhileConnected, Wrote, SendOtherPeers, Key, Network.OnTimerSays, HandshakeFor, OnTimer, Frames, IsConnected;
    var g := SendOtherPeers(n, id, alive);
    var a := Network.OnTimerSays(n, id, alive, 0);
    var c0 := Connect(p, NEW);
    var canon := if remoteHost != p.host then Key(remoteHost, p.port) else "";
    var c := c0.(state := Connected, canon := canon, log := c0.log.(connecting := false));
    var h := Handshake("V01", Addr(n.clients[id]), n.name);
    SameHandshake(p, n, id, alive, h);
    TimerWrites(p, c, n, id, alive);
    var c1 := OnTimer(p, c).value;
    WroteFacts(p, c, a, c1);
    var c' := c.(log := c.log.(timer := true));
    var c2 := c1.(counter := 0, log := c1.log.(timer := true));
    TimerStarted(p, c, a, c1);
    HandshakeAfter(p, c', a, c2, h);
    var c3 := SendMessage(p, c2, h).value;
    GossipAfter(p, c', a + [h], c3, g);
    OpeningTranscript(p, c', a + [h] + g, SendWhileConnected(p, c3, g).value);
  }

  lemma SameHandshake(p: Party, n: Node, id: nat, alive: nat -> bool, h: Message)
    requires id < |n.clients| && Serves(p, n, id, alive) && h == Handshake("V01", Addr(n.clients[id]), n.name)
    ensures HandshakeFor(p) == h
  {
    hide SendOtherPeers;
  }

  /** Starting the timer and zeroing the counter do not change what was written. */
  lemma TimerStarted(p: Party, c: Conn, a: seq<Message>, d: Conn)
    requires Wrote(p, c, a, d) && c.counter == 0
    ensures Wrote(p, c.(log := c.log.(timer := true)), a, d.(counter := 0, log := d.log.(timer := true)))
  {
    hide Frames;
  }

  lemma HandshakeAfter(p: Party, c: Conn, a: seq<Message>, d: Conn, h: Message)
    requires Wrote(p, c, a, d)
    ensures SendMessage(p, d, h).Ok? && Wrote(p, c, a + [h], SendMessage(p, d, h).value)
  {
    hide Wrote, Frame;
    WroteFacts(p, c, a, d);
    if d.stream {
      SendWrites(p, d, h);
    }
    WroteThen(p, c, a, d, [h], SendMessage(p, d, h).value);
  }

  lemma OpeningTranscript(p: Party, c: Conn, said: seq<Message>, d: Conn)
    requires Wrote(p, c, said, d) && c.log.wrote == [] && c.log.calls == 1
    ensures var k := Successes(p, 1, |said|);
            d.log.wrote == Frames(said[..k]) && (d.stream <==> k == |said|)
    ensures d.canon == c.canon && d.counter == c.counter && d.log.timer == c.log.timer
  {
    hide Frames;
  }

  /** A dial in a reachable network: the connection writes what the network model puts on the new link, and whatever
      cuts the bytes suffer, the far end takes in just that: the ping, the known peers, the handshake and the peers
      again, in that order, up to the first write that failed. */
  lemma OpeningArrives(w: Network.World, start: Network.Net, events: seq<Network.Event>, t: Network.Net,
                       e: Network.Event, p: Party, chunks: seq<string>)
    requires Network.WellPosed(w) && Network.Started(w, start) && Network.NetRun(w, start, events, t)
    requires |t.nodes| == |w.sites| && e.DialDone? && Network.Can(w, t, e)
    requires Serves(p, Network.AfterDial(t, e), e.id, e.alive)
    requires var r := OnConnect(p, Connect(p, NEW), 0, e.remoteHost);
             r.Ok? && Concat(chunks) == Concat(r.value.log.wrote)
    ensures Network.Wired(w, t) && Network.Apply(w, t, e).Ok?
    ensures var said := Network.Apply(w, t, e).value.links[|t.links|].toB;
            && said == Network.OnConnectSays(Network.AfterDial(t, e), e.id, e.alive)
            && ReceiveAll(FRESH, chunks) == Receiver("", said[..Successes(p, 1, |said|)], false)
  {
    hide OnConnect, Connect, Serves, Network.OnConnectSays, SendOtherPeers, Wire, Frames, ReceiveAll, AllWellFormed, Network.NetRun;
    var said := Network.OnConnectSays(Network.AfterDial(t, e), e.id, e.alive);
    Network.DialIsHonest(w, start, events, t, e);
    OpeningAgrees(p, Network.AfterDial(t, e), e.id, e.alive, e.remoteHost);
    var sent := said[..Successes(p, 1, |said|)];
    PrefixWellFormed(said, |sent|);
    WireIsFrames(sent);
    EndToEnd(sent, chunks, |chunks|);
    assert chunks[..|chunks|] == chunks;
  }

  lemma PrefixWellFormed(ms: seq<Message>, k: nat)
    requires AllWellFormed(ms) && k <= |ms|
    ensures AllWellFormed(ms[..k])
  {
  }

  /** What honest nodes say never kills the connection that reads it, as long as its own writes succeed. */
  lemma HonestChunkSurvives(w: Network.World, from: nat, p: Party, c: Conn, data: string, n: Node, id: nat, env: nat -> Env)
    requires !p.kind.Outgoing? && c.stream && data != "" && (p.kind.Peer? ==> !c.log.closing && Live(c.state))
    requires TableRuns.TableInv(n) && id < |n.clients| && NoErrors(p) && from < |w.sites|
    requires var d := Deliver(Lines(c.buffer + data));
             && !AnyBad(Lines(c.buffer + data)) && (forall m | m in d.messages :: Network.Honest(w, from, m))
             && Follows(p, |c.log.received|, n, id, d.messages, env)
    ensures OnRead(p, c, |data|, data).Ok?
  {
    hide OnRead, AnyBad, Deliver, Lines, Follows, TableRuns.TableInv, Network.Real, Live;
    var ms := Deliver(Lines(c.buffer + data)).messages;
    NodeSurvivesFlawless(p, c, data, n, id, env);
    forall i | 0 <= i < |ms| ensures !Throws(ms[i], IsKnown(n, id)) && !WrongVersion(ms[i]) {
      assert Network.Honest(w, from, ms[i]);
      HonestIsHarmless(w, from, ms[i], IsKnown(n, id));
    }
  }

  lemma HonestIsHarmless(w: Network.World, from: nat, m: Message, known: bool)
    requires from < |w.sites| && Network.Honest(w, from, m)
    ensures !Throws(m, known) && !WrongVersion(m)
  {
    hide Decimal.Stoi, Decimal.NotAnInt, Network.Real, Decimal.ToString;
    Network.ReportedPort(w.sites[from].port);
    Decimal.StoiThrows((":" + Decimal.ToString(w.sites[from].port))[1..]);
  }
}
