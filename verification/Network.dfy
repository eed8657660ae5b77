/** Many nodes joined by connections: where every address in the system comes from. */
module Network {
  import opened Text
  import opened Decimal
  import opened Messages
  import opened Framing
  import opened Endpoints
  import opened Connection
  import opened Ordering
  import opened PeerTable
  import opened TableRuns
  import opened Gossip

  /** Where a node can be reached: its addresses and the port it listens on. */
  datatype Site = Site(addrs: set<string>, port: int32)

  /** The fixed surroundings: one site per node, and the keys the nodes are started with. */
  datatype World = World(sites: seq<Site>, seeds: set<string>)

  /** Addresses are words without colons (IPv4 text), seeds have no blanks. */
  ghost predicate WellPosed(w: World) {
    && (forall i, h | 0 <= i < |w.sites| && h in w.sites[i].addrs :: GoodHost(h))
    && (forall k | k in w.seeds :: Spaceless(k))
  }

  ghost predicate GoodHost(h: string) {
    IsToken(h) && ':' !in h
  }

  /** A real listening endpoint. */
  ghost predicate Real(w: World, ep: string) {
    exists i, h :: 0 <= i < |w.sites| && h in w.sites[i].addrs && ep == Key(h, w.sites[i].port)
  }

  /** A connection dialled by node `a` with its client `aId`; `b` has `bId` for it once it has accepted. */
  datatype Link = Link(a: nat, aId: nat, b: nat, bId: Option<nat>, toA: seq<Message>, toB: seq<Message>)

  datatype Net = Net(nodes: seq<Node>, links: seq<Link>)

  /** Callbacks, timers and accidents. `remoteHost` is the address at which a dial reached its peer,
      `fromHost` the address a dialler is seen under; a drop cuts the messages still under way. */
  datatype Event =
    | SweepAt(i: nat, res: string -> int)
    | DialDone(i: nat, id: nat, j: nat, remoteHost: string, alive: nat -> bool)
    | AcceptAt(l: nat, fromHost: string, fromPort: int)
    | ToB(l: nat, env: Env)
    | ToA(l: nat, env: Env)
    | TimerAt(l: nat, alive: nat -> bool, count: nat)
    | ClosedAt(i: nat, id: nat)
    | LostAt(i: nat, id: nat)
    | DropAt(l: nat, keptToA: nat, keptToB: nat)

  ghost predicate Can(w: World, s: Net, e: Event)
    requires |s.nodes| == |w.sites|
  {
    match e
    case SweepAt(i, _) => i < |s.nodes|
    case DialDone(i, id, j, remoteHost, _) =>
      && i < |s.nodes| && id < |s.nodes[i].clients| && j < |s.nodes|
      && s.nodes[i].clients[id].port == w.sites[j].port && remoteHost in w.sites[j].addrs
    case AcceptAt(l, fromHost, _) =>
      l < |s.links| && s.links[l].bId.None? && s.links[l].a < |w.sites| && fromHost in w.sites[s.links[l].a].addrs
    case ToB(l, _) => l < |s.links| && s.links[l].bId.Some? && s.links[l].toB != []
    case ToA(l, _) => l < |s.links| && s.links[l].toA != []
    case TimerAt(l, _, _) => l < |s.links|
    case ClosedAt(i, id) => i < |s.nodes| && id < |s.nodes[i].clients|
    case LostAt(i, id) => i < |s.nodes| && id < |s.nodes[i].clients|
    case DropAt(l, keptToA, keptToB) => l < |s.links| && keptToA <= |s.links[l].toA| && keptToB <= |s.links[l].toB|
  }

  function Said(calls: seq<Call>): seq<Message> {
    if calls == [] then [] else (if calls[0].Send? then [calls[0].message] else []) + Said(calls[1..])
  }

  /** The timer's ping, numbered by the connection's counter. */
  function TimerPing(n: Node, c: Client, count: nat): Message {
    Ping("Ping_from_" + n.name + "_to_" + Addr(c) + "_" + ToString(count))
  }

  ghost function OnTimerSays(n: Node, id: nat, alive: nat -> bool, count: nat): seq<Message>
    requires id < |n.clients|
  {
    [TimerPing(n, n.clients[id], count)] + SendOtherPeers(n, id, alive)
  }

  /** What `PeerClientOut::process` sends on a new connection: a ping and the known peers, the handshake, the peers again. */
  ghost function OnConnectSays(n: Node, id: nat, alive: nat -> bool): seq<Message>
    requires id < |n.clients|
  {
    OnTimerSays(n, id, alive, 0) + [Handshake("V01", Addr(n.clients[id]), n.name)] + SendOtherPeers(n, id, alive)
  }

  ghost predicate LinkFits(s: Net, l: Link) {
    && l.a < |s.nodes| && l.b < |s.nodes| && l.aId < |s.nodes[l.a].clients|
    && (l.bId.Some? ==> l.bId.value < |s.nodes[l.b].clients|)
  }

  /** The dialling node once it has noted the peer's canonical address. */
  function AfterDial(s: Net, e: Event): Node
    requires e.DialDone? && e.i < |s.nodes| && e.id < |s.nodes[e.i].clients|
  {
    var c := s.nodes[e.i].clients[e.id];
    var canon := if e.remoteHost != c.host then Key(e.remoteHost, c.port) else c.canon;
    WithClient(s.nodes[e.i], e.id, c.(canon := canon, connected := true))
  }

  /** The state after an event; an exception in a node ends the run. */
  ghost function Apply(w: World, s: Net, e: Event): Outcome<Net>
    requires |s.nodes| == |w.sites| && Can(w, s, e)
    requires forall l | l in s.links :: LinkFits(s, l)
  {
    match e
    case SweepAt(i, res) => Ok(s.(nodes := s.nodes[i := TryOutConnections(s.nodes[i], res)]))
    case DialDone(i, id, j, remoteHost, alive) =>
      var n := AfterDial(s, e);
      Ok(Net(s.nodes[i := n], s.links + [Link(i, id, j, None, [], OnConnectSays(n, id, alive))]))
    case AcceptAt(l, fromHost, fromPort) =>
      assert LinkFits(s, s.links[l]);
      var b := s.links[l].b;
      var id := |s.nodes[b].clients|;
      Ok(Net(s.nodes[b := InConnection(s.nodes[b], fromHost, fromPort)], s.links[l := s.links[l].(bId := Some(id))]))
    case ToB(l, env) =>
      assert LinkFits(s, s.links[l]);
      var k := s.links[l];
      var r :- MessageReceived(s.nodes[k.b], k.bId.value, k.toB[0], env);
      Ok(Net(s.nodes[k.b := r.node], s.links[l := k.(toB := k.toB[1..], toA := k.toA + Said(r.calls))]))
    case ToA(l, env) =>
      assert LinkFits(s, s.links[l]);
      var k := s.links[l];
      var r :- MessageReceived(s.nodes[k.a], k.aId, k.toA[0], env);
      Ok(Net(s.nodes[k.a := r.node], s.links[l := k.(toA := k.toA[1..], toB := k.toB + Said(r.calls))]))
    case TimerAt(l, alive, count) =>
      assert LinkFits(s, s.links[l]);
      var k := s.links[l];
      Ok(s.(links := s.links[l := k.(toB := k.toB + OnTimerSays(s.nodes[k.a], k.aId, alive, count))]))
    case ClosedAt(i, id) => Ok(s.(nodes := s.nodes[i := ConnectionClosed(s.nodes[i], id)]))
    case LostAt(i, id) =>
      Ok(s.(nodes := s.nodes[i := WithClient(s.nodes[i], id, s.nodes[i].clients[id].(connected := false))]))
    case DropAt(l, keptToA, keptToB) =>
      var k := s.links[l];
      Ok(s.(links := s.links[l := k.(toA := k.toA[..keptToA], toB := k.toB[..keptToB])]))
  }

  // The invariant.

  ghost predicate Known(w: World, key: string) {
    key in w.seeds || Real(w, key)
  }

  ghost predicate ClientOk(w: World, c: Client) {
    Spaceless(c.host) && (c.canon == "" || Real(w, c.canon))
  }

  ghost predicate NodeOk(w: World, i: nat, n: Node)
    requires i < |w.sites|
  {
    && TableInv(n)
    && n.name == ":" + ToString(w.sites[i].port)
    && (forall k | k in n.cands :: Known(w, k))
    && (forall c | c in n.clients :: ClientOk(w, c))
  }

  /** What an honest node `i` may have said. */
  ghost predicate Honest(w: World, i: nat, m: Message)
    requires i < |w.sites|
  {
    && WellFormed(m)
    && (m.Handshake? ==> m.version == "V01" && m.myAddr == ":" + ToString(w.sites[i].port))
    && (m.OtherPeer? ==> Real(w, Key(m.host, m.port)))
  }

  ghost predicate LinkOk(w: World, s: Net, l: Link)
    requires |s.nodes| == |w.sites|
  {
    && LinkFits(s, l)
    && (l.bId.Some? ==> s.nodes[l.b].clients[l.bId.value].host in w.sites[l.a].addrs)
    && (forall m | m in l.toB :: Honest(w, l.a, m))
    && (forall m | m in l.toA :: Honest(w, l.b, m) && !m.Handshake?)
  }

  ghost predicate NetInv(w: World, s: Net) {
    && |s.nodes| == |w.sites|
    && (forall i | 0 <= i < |s.nodes| :: NodeOk(w, i, s.nodes[i]))
    && (forall l | l in s.links :: LinkOk(w, s, l))
  }

  // Words.

  lemma RealParts(w: World, host: string, port: int)
    requires WellPosed(w) && Real(w, Key(host, port))
    ensures GoodHost(host)
  {
    hide Key;
    var i, h :| 0 <= i < |w.sites| && h in w.sites[i].addrs && Key(host, port) == Key(h, w.sites[i].port);
    KeyInjective(host, port, h, w.sites[i].port);
  }

  lemma RealIsCanonical(w: World, ep: string)
    requires WellPosed(w) && Real(w, ep)
    ensures Canonical(ep)
  {
    hide Key;
    var i, h :| 0 <= i < |w.sites| && h in w.sites[i].addrs && ep == Key(h, w.sites[i].port);
    assert GoodHost(h);
  }

  lemma KnownHost(w: World, host: string, port: int)
    requires WellPosed(w) && Known(w, Key(host, port))
    ensures Spaceless(host)
  {
    if Real(w, Key(host, port)) {
      RealParts(w, host, port);
    } else {
      assert forall i | 0 <= i < |host| :: host[i] == Key(host, port)[i];
    }
  }

  // What the node operations keep.

  /** Clients keep their number and address, candidates are not lost. */
  ghost predicate Persists(n: Node, m: Node) {
    && |n.clients| <= |m.clients| && n.cands.Keys <= m.cands.Keys
    && forall id | 0 <= id < |n.clients| :: m.clients[id].host == n.clients[id].host && m.clients[id].port == n.clients[id].port
  }

  lemma SweepOk(w: World, i: nat, n: Node, res: string -> int)
    requires WellPosed(w) && i < |w.sites| && NodeOk(w, i, n)
    ensures NodeOk(w, i, TryOutConnections(n, res)) && Persists(n, TryOutConnections(n, res))
  {
    hide TryOutConnections, TableInv, Known, DialKeys, NewClients, ClientOk, SortedKeys;
    SweepClients(n, res);
    SweepKeepsInv(n, res);
    var m := TryOutConnections(n, res);
    var d := DialKeys(n, SortedKeys(n.cands.Keys));
    NewClientsOk(w, i, n, d);
    forall c | c in m.clients ensures ClientOk(w, c) {
      assert c in n.clients || c in NewClients(n, d);
    }
  }

  lemma {:induction false} NewClientsOk(w: World, i: nat, n: Node, d: seq<string>)
    requires WellPosed(w) && i < |w.sites| && NodeOk(w, i, n) && forall k | k in d :: k in n.cands
    ensures forall c | c in NewClients(n, d) :: ClientOk(w, c)
    decreases |d|
  {
    hide ClientOk, TableInv, Known;
    if d != [] {
      assert d[0] in d && forall k | k in d[1..] :: k in d;
      NewClientOk(w, i, n, d[0]);
      NewClientsOk(w, i, n, d[1..]);
    }
  }

  lemma NewClientOk(w: World, i: nat, n: Node, k: string)
    requires WellPosed(w) && i < |w.sites| && NodeOk(w, i, n) && k in n.cands
    ensures ClientOk(w, Client(n.cands[k].host, n.cands[k].port, "", false))
  {
    assert GoodCandidate(k, n.cands[k]) && Known(w, k);
    KnownHost(w, n.cands[k].host, n.cands[k].port);
  }

  lemma AddOk(w: World, i: nat, n: Node, host: string, port: int32)
    requires i < |w.sites| && NodeOk(w, i, n) && Known(w, Key(host, port))
    ensures NodeOk(w, i, AddCandidate(n, host, port, 1)) && Persists(n, AddCandidate(n, host, port, 1))
  {
    hide TableInv, Known, Key;
    AddKeepsInv(n, host, port, 1);
  }

  lemma AddThenSweepOk(w: World, i: nat, n: Node, host: string, port: int32, res: string -> int)
    requires WellPosed(w) && i < |w.sites| && NodeOk(w, i, n) && Known(w, Key(host, port))
    ensures var m := TryOutConnections(AddCandidate(n, host, port, 1), res); NodeOk(w, i, m) && Persists(n, m)
  {
    hide NodeOk, TryOutConnections, AddCandidate;
    AddOk(w, i, n, host, port);
    SweepOk(w, i, AddCandidate(n, host, port, 1), res);
  }

  lemma ClientUpdateOk(w: World, i: nat, n: Node, id: nat, c: Client)
    requires i < |w.sites| && NodeOk(w, i, n) && id < |n.clients|
    requires ClientOk(w, c) && c.host == n.clients[id].host && c.port == n.clients[id].port
    ensures NodeOk(w, i, WithClient(n, id, c)) && Persists(n, WithClient(n, id, c))
  {
    hide TableInv, Known, ClientOk;
    ClientKeepsInv(n, id, c);
    forall c' | c' in WithClient(n, id, c).clients ensures ClientOk(w, c') {
    }
  }

  lemma AcceptOk(w: World, i: nat, n: Node, host: string, port: int)
    requires i < |w.sites| && NodeOk(w, i, n) && GoodHost(host)
    ensures NodeOk(w, i, InConnection(n, host, port)) && Persists(n, InConnection(n, host, port))
  {
    hide TableInv, Known;
    AcceptKeepsInv(n, host, port);
  }

  lemma ClosedOk(w: World, i: nat, n: Node, id: nat)
    requires i < |w.sites| && NodeOk(w, i, n) && id < |n.clients|
    ensures NodeOk(w, i, ConnectionClosed(n, id)) && Persists(n, ConnectionClosed(n, id))
  {
    hide TableInv, Known, FilterKept;
    ClosedKeepsInv(n, id);
  }

  lemma OfferedIsReal(w: World, i: nat, n: Node, a: string)
    requires i < |w.sites| && NodeOk(w, i, n) && Offered(n, a)
    ensures Real(w, a)
  {
    var p :| 0 <= p < |n.peers| && OffersAt(n, n.peers[p], a);
    assert n.clients[n.peers[p].client.value] in n.clients;
  }

  /** Gossip names only real endpoints. */
  lemma GossipHonest(w: World, i: nat, n: Node, id: nat, alive: nat -> bool, m: Message)
    requires WellPosed(w) && i < |w.sites| && NodeOk(w, i, n) && id < |n.clients| && m in SendOtherPeers(n, id, alive)
    ensures Honest(w, i, m) && m.OtherPeer?
  {
    hide NodeOk, SendOtherPeers, Key;
    forall a | Offered(n, a) ensures Canonical(a) {
      OfferedIsReal(w, i, n, a);
      RealIsCanonical(w, a);
    }
    SentIsOffered(n, id, alive, m);
    OfferedIsReal(w, i, n, Key(m.host, m.port));
    RealParts(w, m.host, m.port);
  }

  lemma NameIsToken(w: World, i: nat, n: Node)
    requires i < |w.sites| && n.name == ":" + ToString(w.sites[i].port)
    ensures IsToken(n.name)
  {
    PrintedShape(w.sites[i].port);
  }

  lemma AddrIsToken(c: Client)
    requires Spaceless(c.host)
    ensures IsToken(Addr(c))
  {
    PrintedShape(c.port);
  }

  lemma Joined(a: string, b: string)
    requires IsToken(a) && IsToken(b)
    ensures IsToken(a + b)
  {
  }

  lemma TimerPingHonest(w: World, i: nat, n: Node, c: Client, count: nat)
    requires i < |w.sites| && n.name == ":" + ToString(w.sites[i].port) && Spaceless(c.host)
    ensures Honest(w, i, TimerPing(n, c, count))
  {
    NameIsToken(w, i, n);
    AddrIsToken(c);
    PrintedShape(count);
    Joined("Ping_from_", n.name);
    Joined("Ping_from_" + n.name, "_to_");
    Joined("Ping_from_" + n.name + "_to_", Addr(c));
    Joined("Ping_from_" + n.name + "_to_" + Addr(c), "_");
    Joined("Ping_from_" + n.name + "_to_" + Addr(c) + "_", ToString(count));
  }

  lemma ConnectHonest(w: World, i: nat, n: Node, id: nat, alive: nat -> bool, m: Message)
    requires WellPosed(w) && i < |w.sites| && NodeOk(w, i, n) && id < |n.clients| && m in OnConnectSays(n, id, alive)
    ensures Honest(w, i, m)
  {
    hide TableInv, Known, SendOtherPeers, Real;
    var c := n.clients[id];
    assert ClientOk(w, c);
    NameIsToken(w, i, n);
    AddrIsToken(c);
    TimerPingHonest(w, i, n, c, 0);
    if m in SendOtherPeers(n, id, alive) {
      GossipHonest(w, i, n, id, alive, m);
    }
  }

  lemma TimerHonest(w: World, i: nat, n: Node, id: nat, alive: nat -> bool, count: nat, m: Message)
    requires WellPosed(w) && i < |w.sites| && NodeOk(w, i, n) && id < |n.clients| && m in OnTimerSays(n, id, alive, count)
    ensures Honest(w, i, m)
  {
    hide TableInv, Known, SendOtherPeers, Real, Honest, TimerPing;
    assert ClientOk(w, n.clients[id]);
    TimerPingHonest(w, i, n, n.clients[id], count);
    if m in SendOtherPeers(n, id, alive) {
      GossipHonest(w, i, n, id, alive, m);
    }
  }

  // Handling a message.

  lemma {:induction false} SaidSends(ms: seq<Message>)
    ensures Said(Sends(ms)) == ms && Shut !in Sends(ms)
    decreases |ms|
  {
    if ms != [] {
      assert Sends(ms)[1..] == Sends(ms[1..]);
      SaidSends(ms[1..]);
    }
  }

  lemma SaidNothing()
    ensures Said([]) == []
  {
  }

  lemma SaidCons(c: Call, calls: seq<Call>)
    ensures Said([c] + calls) == (if c.Send? then [c.message] else []) + Said(calls)
  {
    assert ([c] + calls)[1..] == calls;
  }

  /** An honest message, seen under a real host if it is a handshake, keeps the node in order, cannot make it die,
      and is answered honestly, without closing the connection. */
  ghost predicate HandledWell(w: World, i: nat, n: Node, r: Outcome<Reaction>)
    requires i < |w.sites|
  {
    && r.Ok? && Shut !in r.value.calls && NodeOk(w, i, r.value.node) && Persists(n, r.value.node)
    && forall m | m in Said(r.value.calls) :: Honest(w, i, m) && !m.Handshake?
  }

  lemma LearnOk(w: World, i: nat, n: Node, id: nat, from: nat, port: int32, env: Env)
    requires WellPosed(w) && i < |w.sites| && from < |w.sites| && NodeOk(w, i, n) && id < |n.clients|
    requires n.clients[id].host in w.sites[from].addrs && port == w.sites[from].port
    ensures var m := LearnPeer(n, id, port, env); NodeOk(w, i, m) && Persists(n, m)
  {
    hide NodeOk, TryOutConnections, AddCandidate, Key;
    var c := n.clients[id];
    assert GoodHost(c.host);
    AddressHost(c.host, c.port);
    assert Real(w, Key(c.host, port));
    var c1 := c.(canon := Key(c.host, port));
    ClientUpdateOk(w, i, n, id, c1);
    AddThenSweepOk(w, i, WithClient(n, id, c1), c.host, port, env.res);
  }

  lemma AddressHost(host: string, port: int)
    requires ':' !in host
    ensures FromString(Key(host, port)).host == host
  {
    var s := Key(host, port);
    assert s[..|host|] == host;
    FindIsUnique(s, ':', |host|);
  }

  lemma ReportedPort(port: int32)
    ensures var s := ":" + ToString(port); s != "" && s[0] == ':' && Stoi(s[1..]) == Number(port)
  {
    var s := ":" + ToString(port);
    assert s[1..] == ToString(port);
    RoundTrip(port);
  }

  lemma HandshakeHandled(w: World, i: nat, n: Node, id: nat, from: nat, m: Message, env: Env)
    requires WellPosed(w) && i < |w.sites| && from < |w.sites| && NodeOk(w, i, n) && id < |n.clients|
    requires Honest(w, from, m) && m.Handshake? && n.clients[id].host in w.sites[from].addrs
    ensures HandledWell(w, i, n, MessageReceived(n, id, m, env))
  {
    hide NodeOk, LearnPeer, SendOtherPeers, Said, Sends, Stoi, IsPeerConnected, Key;
    ReportedPort(w.sites[from].port);
    LearnOk(w, i, n, id, from, w.sites[from].port, env);
    if IsPeerConnected(n, Addr(n.clients[id]), false) {
      var n1 := LearnPeer(n, id, w.sites[from].port, env);
      var sent := SendOtherPeers(n1, id, env.alive);
      var response := HandshakeResponse("V01", n.name, Addr(n.clients[id]));
      ResponseHonest(w, i, n, id);
      SaidCons(Send(response), Sends(sent));
      SaidSends(sent);
      forall m' | m' in [response] + sent ensures Honest(w, i, m') && !m'.Handshake? {
        if m' in sent {
          GossipHonest(w, i, n1, id, env.alive, m');
        }
      }
    } else {
      NothingSaid(w, i, n);
    }
  }

  lemma ResponseHonest(w: World, i: nat, n: Node, id: nat)
    requires i < |w.sites| && NodeOk(w, i, n) && id < |n.clients|
    ensures Honest(w, i, HandshakeResponse("V01", n.name, Addr(n.clients[id])))
  {
    hide TableInv, Known, Real;
    NameIsToken(w, i, n);
    assert ClientOk(w, n.clients[id]);
    AddrIsToken(n.clients[id]);
  }

  lemma NothingSaid(w: World, i: nat, n: Node)
    requires i < |w.sites| && NodeOk(w, i, n)
    ensures HandledWell(w, i, n, Ok(Reaction(n, [])))
  {
    hide NodeOk;
    assert Said([]) == [];
  }

  lemma PingHandled(w: World, i: nat, n: Node, id: nat, m: Message, env: Env)
    requires i < |w.sites| && NodeOk(w, i, n) && id < |n.clients| && m.Ping? && WellFormed(m)
    ensures HandledWell(w, i, n, MessageReceived(n, id, m, env))
  {
    hide TableInv, Known, Real, Said;
    NameIsToken(w, i, n);
    Joined("Resp_from_", n.name);
    Joined("Resp_from_" + n.name, "_to_");
    Joined("Resp_from_" + n.name + "_to_", m.text);
    var response := PingResponse("Resp_from_" + n.name + "_to_" + m.text);
    SaidCons(Send(response), []);
    SaidNothing();
    assert [Send(response)] + [] == [Send(response)];
  }

  lemma MessageHandled(w: World, i: nat, n: Node, id: nat, from: nat, m: Message, env: Env)
    requires WellPosed(w) && i < |w.sites| && from < |w.sites| && NodeOk(w, i, n) && id < |n.clients|
    requires Honest(w, from, m) && (m.Handshake? ==> n.clients[id].host in w.sites[from].addrs)
    ensures HandledWell(w, i, n, MessageReceived(n, id, m, env))
  {
    hide NodeOk, TryOutConnections, AddCandidate, Said, Real;
    match m
    case Handshake(_, _, _) => HandshakeHandled(w, i, n, id, from, m, env);
    case Ping(_) => PingHandled(w, i, n, id, m, env);
    case OtherPeer(host, port) =>
      AddThenSweepOk(w, i, n, host, port, env.res);
      NothingSaid(w, i, TryOutConnections(AddCandidate(n, host, port, 1), env.res));
    case _ => NothingSaid(w, i, n);
  }

  // The network.

  /** Links stay in order when nodes change but persist. */
  lemma LinkPersists(w: World, s: Net, nodes: seq<Node>, links: seq<Link>, l: Link)
    requires |s.nodes| == |w.sites| == |nodes| && LinkOk(w, s, l)
    requires forall i | 0 <= i < |nodes| :: Persists(s.nodes[i], nodes[i])
    ensures LinkOk(w, Net(nodes, links), l)
  {
    hide Honest;
    assert Persists(s.nodes[l.a], nodes[l.a]) && Persists(s.nodes[l.b], nodes[l.b]);
  }

  lemma Unchanged(n: Node)
    ensures Persists(n, n)
  {
  }

  /** Replacing one node by one that is in order and persists. */
  lemma NodeReplaced(w: World, s: Net, i: nat, n: Node, links: seq<Link>)
    requires NetInv(w, s) && i < |s.nodes| && NodeOk(w, i, n) && Persists(s.nodes[i], n)
    ensures var nodes := s.nodes[i := n];
            && (forall j | 0 <= j < |nodes| :: NodeOk(w, j, nodes[j]) && Persists(s.nodes[j], nodes[j]))
            && forall l | l in s.links :: LinkOk(w, Net(nodes, links), l)
  {
    hide NodeOk, Persists, LinkOk;
    var nodes := s.nodes[i := n];
    forall j | 0 <= j < |nodes| ensures NodeOk(w, j, nodes[j]) && Persists(s.nodes[j], nodes[j]) {
      Unchanged(s.nodes[j]);
    }
    forall l | l in s.links ensures LinkOk(w, Net(nodes, links), l) {
      LinkPersists(w, s, nodes, links, l);
    }
  }

  /** Every event keeps the invariant, loses no candidate and kills no node. */
  ghost predicate EventOk(w: World, s: Net, r: Outcome<Net>) {
    && r.Ok? && NetInv(w, r.value) && |r.value.nodes| == |s.nodes|
    && forall i | 0 <= i < |s.nodes| :: s.nodes[i].cands.Keys <= r.value.nodes[i].cands.Keys
  }

  /** One node replaced, and possibly one link replaced or added, all in order. */
  lemma NetReplaced(w: World, s: Net, i: nat, n: Node, t: Net)
    requires NetInv(w, s) && i < |s.nodes| && NodeOk(w, i, n) && Persists(s.nodes[i], n)
    requires t.nodes == s.nodes[i := n]
    requires forall l | l in t.links :: l in s.links || LinkOk(w, t, l)
    ensures EventOk(w, s, Ok(t))
  {
    hide NodeOk, LinkOk;
    NodeReplaced(w, s, i, n, t.links);
    forall l | l in t.links ensures LinkOk(w, t, l) {
      if l in s.links {
        assert LinkOk(w, Net(t.nodes, t.links), l);
      }
    }
    forall j | 0 <= j < |s.nodes| ensures s.nodes[j].cands.Keys <= t.nodes[j].cands.Keys {
      assert Persists(s.nodes[j], t.nodes[j]);
    }
  }

  lemma NodesKept(w: World, s: Net, t: Net)
    requires NetInv(w, s) && t.nodes == s.nodes
    requires forall l | l in t.links :: l in s.links || LinkOk(w, t, l)
    ensures EventOk(w, s, Ok(t))
  {
    hide NodeOk, LinkOk, Persists;
    forall i | 0 <= i < |s.nodes| ensures Persists(s.nodes[i], t.nodes[i]) {
      Unchanged(s.nodes[i]);
    }
    forall l | l in t.links ensures LinkOk(w, t, l) {
      if l in s.links {
        LinkPersists(w, s, t.nodes, t.links, l);
        assert t == Net(t.nodes, t.links);
      }
    }
  }

  lemma NodeEventOk(w: World, s: Net, e: Event)
    requires WellPosed(w) && NetInv(w, s) && Can(w, s, e) && (e.SweepAt? || e.ClosedAt? || e.LostAt?)
    requires forall l | l in s.links :: LinkFits(s, l)
    ensures EventOk(w, s, Apply(w, s, e))
  {
    hide NodeOk, LinkOk, TryOutConnections, ConnectionClosed, EventOk, LinkFits, Persists;
    match e
    case SweepAt(i, res) =>
      SweepOk(w, i, s.nodes[i], res);
      NetReplaced(w, s, i, TryOutConnections(s.nodes[i], res), Apply(w, s, e).value);
    case ClosedAt(i, id) =>
      ClosedOk(w, i, s.nodes[i], id);
      NetReplaced(w, s, i, ConnectionClosed(s.nodes[i], id), Apply(w, s, e).value);
    case LostAt(i, id) =>
      var c := s.nodes[i].clients[id];
      ClientInNode(w, i, s.nodes[i], id);
      ClientUpdateOk(w, i, s.nodes[i], id, c.(connected := false));
      NetReplaced(w, s, i, WithClient(s.nodes[i], id, c.(connected := false)), Apply(w, s, e).value);
  }

  lemma ClientInNode(w: World, i: nat, n: Node, id: nat)
    requires i < |w.sites| && NodeOk(w, i, n) && id < |n.clients|
    ensures ClientOk(w, n.clients[id])
  {
  }

  lemma DialledOk(w: World, s: Net, e: Event)
    requires WellPosed(w) && NetInv(w, s) && e.DialDone? && Can(w, s, e)
    ensures var n := AfterDial(s, e); NodeOk(w, e.i, n) && Persists(s.nodes[e.i], n)
  {
    hide NodeOk, Persists, Key;
    var n0, c := s.nodes[e.i], s.nodes[e.i].clients[e.id];
    ClientInNode(w, e.i, n0, e.id);
    assert Real(w, Key(e.remoteHost, c.port));
    var canon := if e.remoteHost != c.host then Key(e.remoteHost, c.port) else c.canon;
    ClientUpdateOk(w, e.i, n0, e.id, c.(canon := canon, connected := true));
  }

  lemma DialDoneOk(w: World, s: Net, e: Event)
    requires WellPosed(w) && NetInv(w, s) && Can(w, s, e) && e.DialDone?
    requires forall l | l in s.links :: LinkFits(s, l)
    ensures EventOk(w, s, Apply(w, s, e))
  {
    hide NodeOk, EventOk, Persists, OnConnectSays, Key, Honest;
    DialledOk(w, s, e);
    var n, t := AfterDial(s, e), Apply(w, s, e).value;
    var added := Link(e.i, e.id, e.j, None, [], OnConnectSays(n, e.id, e.alive));
    forall m | m in added.toB ensures Honest(w, e.i, m) {
      ConnectHonest(w, e.i, n, e.id, e.alive, m);
    }
    assert LinkOk(w, t, added);
    NetReplaced(w, s, e.i, n, t);
  }

  lemma AcceptAtOk(w: World, s: Net, e: Event)
    requires WellPosed(w) && NetInv(w, s) && Can(w, s, e) && e.AcceptAt?
    requires forall l | l in s.links :: LinkFits(s, l)
    ensures EventOk(w, s, Apply(w, s, e))
  {
    hide NodeOk, EventOk, Honest;
    var k := s.links[e.l];
    assert LinkOk(w, s, k) && GoodHost(e.fromHost);
    AcceptOk(w, k.b, s.nodes[k.b], e.fromHost, e.fromPort);
    var t := Apply(w, s, e).value;
    assert LinkOk(w, t, t.links[e.l]);
    NetReplaced(w, s, k.b, InConnection(s.nodes[k.b], e.fromHost, e.fromPort), t);
  }

  lemma ToBOk(w: World, s: Net, e: Event)
    requires WellPosed(w) && NetInv(w, s) && Can(w, s, e) && e.ToB?
    requires forall l | l in s.links :: LinkFits(s, l)
    ensures EventOk(w, s, Apply(w, s, e))
  {
    hide NodeOk, EventOk, Honest, MessageReceived, Said;
    var k := s.links[e.l];
    assert LinkOk(w, s, k) && k.toB[0] in k.toB;
    MessageHandled(w, k.b, s.nodes[k.b], k.bId.value, k.a, k.toB[0], e.env);
    var r := MessageReceived(s.nodes[k.b], k.bId.value, k.toB[0], e.env).value;
    var t := Apply(w, s, e).value;
    assert LinkOk(w, t, t.links[e.l]);
    NetReplaced(w, s, k.b, r.node, t);
  }

  lemma ToAOk(w: World, s: Net, e: Event)
    requires WellPosed(w) && NetInv(w, s) && Can(w, s, e) && e.ToA?
    requires forall l | l in s.links :: LinkFits(s, l)
    ensures EventOk(w, s, Apply(w, s, e))
  {
    hide NodeOk, EventOk, Honest, MessageReceived, Said;
    var k := s.links[e.l];
    assert LinkOk(w, s, k) && k.toA[0] in k.toA;
    MessageHandled(w, k.a, s.nodes[k.a], k.aId, k.b, k.toA[0], e.env);
    var r := MessageReceived(s.nodes[k.a], k.aId, k.toA[0], e.env).value;
    var t := Apply(w, s, e).value;
    assert LinkOk(w, t, t.links[e.l]);
    NetReplaced(w, s, k.a, r.node, t);
  }

  lemma LinkEventOk(w: World, s: Net, e: Event)
    requires WellPosed(w) && NetInv(w, s) && Can(w, s, e) && (e.TimerAt? || e.DropAt?)
    requires forall l | l in s.links :: LinkFits(s, l)
    ensures EventOk(w, s, Apply(w, s, e))
  {
    hide NodeOk, EventOk, Honest, OnTimerSays;
    var k := s.links[e.l];
    assert LinkOk(w, s, k);
    var t := Apply(w, s, e).value;
    if e.TimerAt? {
      forall m | m in OnTimerSays(s.nodes[k.a], k.aId, e.alive, e.count) ensures Honest(w, k.a, m) {
        TimerHonest(w, k.a, s.nodes[k.a], k.aId, e.alive, e.count, m);
      }
    }
    assert LinkOk(w, t, t.links[e.l]);
    NodesKept(w, s, t);
  }

  lemma AllFit(w: World, s: Net)
    requires NetInv(w, s)
    ensures forall l | l in s.links :: LinkFits(s, l)
  {
    hide NodeOk, LinkFits, Honest;
    forall l | l in s.links ensures LinkFits(s, l) {
      assert LinkOk(w, s, l);
    }
  }

  lemma EventKeeps(w: World, s: Net, e: Event)
    requires WellPosed(w) && NetInv(w, s) && Can(w, s, e)
    ensures forall l | l in s.links :: LinkFits(s, l)
    ensures EventOk(w, s, Apply(w, s, e))
  {
    AllFit(w, s);
    hide NetInv, EventOk, LinkFits;
    match e
    case DialDone(_, _, _, _, _) => DialDoneOk(w, s, e);
    case AcceptAt(_, _, _) => AcceptAtOk(w, s, e);
    case ToB(_, _) => ToBOk(w, s, e);
    case ToA(_, _) => ToAOk(w, s, e);
    case TimerAt(_, _, _) => LinkEventOk(w, s, e);
    case DropAt(_, _, _) => LinkEventOk(w, s, e);
    case _ => NodeEventOk(w, s, e);
  }

  /** Nodes that have been started with seeds and listen; nothing has been dialled. */
  ghost predicate Started(w: World, s: Net) {
    && |s.nodes| == |w.sites| && s.links == []
    && forall i | 0 <= i < |s.nodes| :: StartedNode(w, i, s.nodes[i])
  }

  ghost predicate StartedNode(w: World, i: nat, n: Node)
    requires i < |w.sites|
  {
    && n.cands.Keys <= w.seeds
    && exists extras :: n == AddExtras(AddLocals(EMPTY), extras).(name := ":" + ToString(w.sites[i].port))
  }

  lemma {:induction false} ExtrasKeepInv(n: Node, extras: seq<string>)
    requires TableInv(n)
    ensures TableInv(AddExtras(n, extras)) && AddExtras(n, extras).clients == n.clients
    decreases |extras|
  {
    hide TableInv;
    if extras != [] {
      var ep := FromString(extras[0]);
      AddKeepsInv(n, ep.host, ep.port, 1000000);
      ExtrasKeepInv(if extras[0] == "" then n else AddCandidate(n, ep.host, ep.port, 1000000), extras[1..]);
    }
  }

  lemma StartedOk(w: World, i: nat, n: Node)
    requires i < |w.sites| && StartedNode(w, i, n)
    ensures NodeOk(w, i, n)
  {
    var name := ":" + ToString(w.sites[i].port);
    var extras :| n == AddExtras(AddLocals(EMPTY), extras).(name := name);
    EmptyNodeGood("");
    AddKeepsInv(EMPTY, "localhost", 5000, 1);
    AddKeepsInv(AddCandidate(EMPTY, "localhost", 5000, 1), "localhost", 5001, 1);
    ExtrasKeepInv(AddLocals(EMPTY), extras);
    Renamed(AddExtras(AddLocals(EMPTY), extras), name);
  }

  lemma Renamed(n: Node, name: string)
    requires TableInv(n)
    ensures TableInv(n.(name := name))
  {
    var m := n.(name := name);
    forall p | p in m.peers ensures GoodPeer(m, p) && PeerAddress(m, p) == PeerAddress(n, p) {
      assert GoodPeer(n, p);
    }
    assert forall p :: PeerAddress(m, p) == PeerAddress(n, p);
  }

  ghost predicate Wired(w: World, s: Net) {
    |s.nodes| == |w.sites| && forall l | l in s.links :: LinkFits(s, l)
  }

  ghost predicate NetRun(w: World, s: Net, events: seq<Event>, t: Net)
    decreases |events|
  {
    if events == [] then s == t
    else
      && Wired(w, s) && Can(w, s, events[0])
      && match Apply(w, s, events[0]) case Ok(s1) => NetRun(w, s1, events[1..], t) case Abort(_) => false
  }

  lemma {:induction false} RunOk(w: World, s: Net, events: seq<Event>, t: Net)
    requires WellPosed(w) && NetInv(w, s) && NetRun(w, s, events, t)
    ensures NetInv(w, t) && forall i | 0 <= i < |s.nodes| :: s.nodes[i].cands.Keys <= t.nodes[i].cands.Keys
    decreases |events|
  {
    if events != [] {
      hide Apply, Can, NodeOk, LinkOk;
      EventKeeps(w, s, events[0]);
      RunOk(w, Apply(w, s, events[0]).value, events[1..], t);
    }
  }

  lemma StartOk(w: World, s: Net)
    requires Started(w, s)
    ensures NetInv(w, s)
  {
    hide NodeOk, StartedNode;
    forall i | 0 <= i < |s.nodes| ensures NodeOk(w, i, s.nodes[i]) {
      StartedOk(w, i, s.nodes[i]);
    }
  }

  /** Provenance. However the dials, deliveries, timers, losses and closes interleave, every candidate of every node
      is a seed or a real listening endpoint, every canonical address and every endpoint gossiped is a real one,
      and no candidate is ever lost. */
  lemma Provenance(w: World, start: Net, events: seq<Event>, t: Net)
    requires WellPosed(w) && Started(w, start) && NetRun(w, start, events, t)
    ensures |t.nodes| == |start.nodes|
    ensures forall i, k | 0 <= i < |t.nodes| && k in t.nodes[i].cands :: k in w.seeds || Real(w, k)
    ensures forall i, c | 0 <= i < |t.nodes| && c in t.nodes[i].clients :: c.canon == "" || Real(w, c.canon)
    ensures forall l, m | l in t.links && m in l.toA + l.toB && m.OtherPeer? :: Real(w, Key(m.host, m.port))
    ensures forall i | 0 <= i < |t.nodes| :: start.nodes[i].cands.Keys <= t.nodes[i].cands.Keys
  {
    hide Real, TableInv, WellFormed;
    StartOk(w, start);
    RunOk(w, start, events, t);
    forall i, k | 0 <= i < |t.nodes| && k in t.nodes[i].cands ensures k in w.seeds || Real(w, k) {
      assert NodeOk(w, i, t.nodes[i]);
      assert Known(w, k);
    }
    forall i, c | 0 <= i < |t.nodes| && c in t.nodes[i].clients ensures c.canon == "" || Real(w, c.canon) {
      assert NodeOk(w, i, t.nodes[i]);
      assert ClientOk(w, c);
    }
    forall l, m | l in t.links && m in l.toA + l.toB && m.OtherPeer? ensures Real(w, Key(m.host, m.port)) {
      assert LinkOk(w, t, l);
      assert m in l.toA || m in l.toB;
    }
  }

  /** Among honest nodes no handler throws or fails an assertion, whatever happens next. */
  lemma NoHandlerDies(w: World, start: Net, events: seq<Event>, t: Net, e: Event)
    requires WellPosed(w) && Started(w, start) && NetRun(w, start, events, t)
    requires |t.nodes| == |w.sites| && Can(w, t, e)
    ensures Wired(w, t) && Apply(w, t, e).Ok?
  {
    hide Can, Apply, NodeOk, LinkOk;
    StartOk(w, start);
    RunOk(w, start, events, t);
    EventKeeps(w, t, e);
  }

  /** Nor does a handler ever close the connection its message came over. */
  lemma NoHandlerCloses(w: World, start: Net, events: seq<Event>, t: Net, e: Event)
    requires WellPosed(w) && Started(w, start) && NetRun(w, start, events, t)
    requires |t.nodes| == |w.sites| && Can(w, t, e)
    ensures Wired(w, t)
    ensures e.ToB? ==>
              var k := t.links[e.l];
              assert k in t.links;
              var r := MessageReceived(t.nodes[k.b], k.bId.value, k.toB[0], e.env); r.Ok? && Shut !in r.value.calls
    ensures e.ToA? ==>
              var k := t.links[e.l];
              assert k in t.links;
              var r := MessageReceived(t.nodes[k.a], k.aId, k.toA[0], e.env); r.Ok? && Shut !in r.value.calls
  {
    hide NodeOk, Honest, MessageReceived, Said, Persists;
    StartOk(w, start);
    RunOk(w, start, events, t);
    AllFit(w, t);
    if e.ToB? {
      var k := t.links[e.l];
      assert LinkOk(w, t, k) && k.toB[0] in k.toB;
      MessageHandled(w, k.b, t.nodes[k.b], k.bId.value, k.a, k.toB[0], e.env);
    }
    if e.ToA? {
      var k := t.links[e.l];
      assert LinkOk(w, t, k) && k.toA[0] in k.toA;
      MessageHandled(w, k.a, t.nodes[k.a], k.aId, k.b, k.toA[0], e.env);
    }
  }

  /** What goes onto the link of a new connection is well-formed. */
  lemma DialIsHonest(w: World, start: Net, events: seq<Event>, t: Net, e: Event)
    requires WellPosed(w) && Started(w, start) && NetRun(w, start, events, t)
    requires |t.nodes| == |w.sites| && e.DialDone? && Can(w, t, e)
    ensures Wired(w, t) && Apply(w, t, e).Ok?
    ensures var said := OnConnectSays(AfterDial(t, e), e.id, e.alive);
            AllWellFormed(said) && Apply(w, t, e).value.links[|t.links|].toB == said
  {
    hide NodeOk, Honest, OnConnectSays, Key, Persists;
    StartOk(w, start);
    RunOk(w, start, events, t);
    AllFit(w, t);
    DialledOk(w, t, e);
    forall m | m in OnConnectSays(AfterDial(t, e), e.id, e.alive) ensures WellFormed(m) {
      ConnectHonest(w, e.i, AfterDial(t, e), e.id, e.alive, m);
      HonestIsWellFormed(w, e.i, m);
    }
  }

  lemma HonestIsWellFormed(w: World, i: nat, m: Message)
    requires i < |w.sites| && Honest(w, i, m)
    ensures WellFormed(m)
  {
  }

  /** The messages under way on a link, either way, would survive being sent as bytes and cut in any way. */
  lemma LinksSurviveTheWire(w: World, start: Net, events: seq<Event>, t: Net, l: Link, toB: seq<string>, toA: seq<string>)
    requires WellPosed(w) && Started(w, start) && NetRun(w, start, events, t) && l in t.links
    requires Concat(toB) == Wire(l.toB) && Concat(toA) == Wire(l.toA)
    ensures ReceiveAll(FRESH, toB) == Receiver("", l.toB, false)
    ensures ReceiveAll(FRESH, toA) == Receiver("", l.toA, false)
  {
    hide NodeOk, Wire, ReceiveAll, WellFormed, LinkFits;
    StartOk(w, start);
    RunOk(w, start, events, t);
    assert LinkOk(w, t, l);
    assert AllWellFormed(l.toB) && AllWellFormed(l.toA);
    EndToEnd(l.toB, toB, |toB|);
    EndToEnd(l.toA, toA, |toA|);
    assert toB[..|toB|] == toB && toA[..|toA|] == toA;
  }
}
