/** node/node.cpp: the candidate map, the peer list and the gossip of one node, as functions on `Node` values.
    Connection objects are numbered; `clients` holds the fields of theirs that a node reads. */
module PeerTable {
  import opened Text
  import opened Decimal
  import opened Messages
  import opened Endpoints
  import opened Connection
  import opened Ordering

  datatype Candidate = Candidate(host: string, port: int32, toTry: int, tryCount: int, connectedCount: int)

  /** A connection object: its peer address is `Key(host, port)`, its canonical one may be unset (empty). */
  datatype Client = Client(host: string, port: int, canon: string, connected: bool)

  datatype PeerInfo = PeerInfo(client: Option<nat>, out: bool)

  /** `dials` and `adds` record the calls of tryOutConnection (by key) and addOutPeerCandidate (key and budget). */
  datatype Node = Node(
    name: string,
    cands: map<string, Candidate>,
    peers: seq<PeerInfo>,
    clients: seq<Client>,
    dials: seq<string>,
    adds: seq<(string, int)>
  )

  const EMPTY := Node("", map[], [], [], [], [])

  function Addr(c: Client): string {
    Key(c.host, c.port)
  }

  function AddCandidate(n: Node, host: string, port: int32, toTry: int): Node {
    var key := Key(host, port);
    var n1 := n.(adds := n.adds + [(key, toTry)]);
    if key in n.cands then
      var c := n.cands[key];
      n1.(cands := n.cands[key := c.(toTry := toTry + c.tryCount)])
    else
      n1.(cands := n.cands[key := Candidate(host, port, toTry, 0, 0)])
  }

  predicate Matches(n: Node, p: PeerInfo, addr: string, out: bool) {
    && p.out == out && p.client.Some? && p.client.value < |n.clients|
    && (Addr(n.clients[p.client.value]) == addr || n.clients[p.client.value].canon == addr)
  }

  predicate IsPeerConnected(n: Node, addr: string, out: bool) {
    exists i :: 0 <= i < |n.peers| && Matches(n, n.peers[i], addr, out)
  }

  predicate IsSelf(n: Node, host: string, port: int) {
    ":" + ToString(port) == n.name
    && (host == "localhost" || host == "127.0.0.1" || host == "::1" || host == "[::1]")
  }

  function PushOut(n: Node, host: string, port: int): Node {
    n.(clients := n.clients + [Client(host, port, "", false)], peers := n.peers + [PeerInfo(Some(|n.clients|), true)])
  }

  /** `tryOutConnection`, given what `connect` returns; the peer is listed even if `connect` fails. */
  function TryOutConnection(n: Node, host: string, port: int, res: int): (Node, int) {
    var n1 := n.(dials := n.dials + [Key(host, port)]);
    if IsSelf(n, host, port) then (n1, 0) else (PushOut(n1, host, port), res)
  }

  predicate Eligible(c: Candidate) {
    c.tryCount == 0 || c.tryCount < c.toTry
  }

  predicate Due(n: Node, key: string) {
    key in n.cands && Eligible(n.cands[key]) && !IsPeerConnected(n, key, true)
  }

  function Bumped(c: Candidate, ok: bool): Candidate {
    c.(tryCount := c.tryCount + 1, connectedCount := c.connectedCount + if ok then 1 else 0)
  }

  /** One turn of the loop in `tryOutConnections`; `res(key)` is what `connect` returns for that candidate. */
  function SweepKey(n: Node, key: string, res: string -> int): Node
    requires key in n.cands
  {
    if !Due(n, key) then n
    else
      var c := n.cands[key];
      var (n1, r) := TryOutConnection(n.(cands := n.cands[key := Bumped(c, false)]), c.host, c.port, res(key));
      if r == 0 then n1.(cands := n.cands[key := Bumped(c, true)]) else n1
  }

  function Sweep(n: Node, keys: seq<string>, res: string -> int): Node
    requires forall k | k in keys :: k in n.cands
    decreases |keys|
  {
    if keys == [] then n
    else
      var n1 := SweepKey(n, keys[0], res);
      assert n1.cands.Keys == n.cands.Keys;
      Sweep(n1, keys[1..], res)
  }

  ghost function TryOutConnections(n: Node, res: string -> int): Node {
    Sweep(n, SortedKeys(n.cands.Keys), res)
  }

  function AddLocals(n: Node): Node {
    AddCandidate(AddCandidate(n, "localhost", 5000, 1), "localhost", 5001, 1)
  }

  function AddExtras(n: Node, extraPeers: seq<string>): Node
    decreases |extraPeers|
  {
    if extraPeers == [] then n
    else
      var ep := FromString(extraPeers[0]);
      AddExtras(if extraPeers[0] == "" then n else AddCandidate(n, ep.host, ep.port, 1000000), extraPeers[1..])
  }

  function InConnection(n: Node, host: string, port: int): Node {
    n.(clients := n.clients + [Client(host, port, "", true)], peers := n.peers + [PeerInfo(Some(|n.clients|), false)])
  }

  /** An entry stays if it has a client that is neither the closed one nor at its address. */
  predicate Kept(n: Node, id: nat, p: PeerInfo)
    requires id < |n.clients|
  {
    && p.client.Some? && p.client.value != id
    && !(p.client.value < |n.clients| && Addr(n.clients[p.client.value]) == Addr(n.clients[id]))
  }

  function FilterKept(n: Node, id: nat, peers: seq<PeerInfo>): seq<PeerInfo>
    requires id < |n.clients|
  {
    if peers == [] then []
    else (if Kept(n, id, peers[0]) then [peers[0]] else []) + FilterKept(n, id, peers[1..])
  }

  // The two passes of `connectionClosed`: entries of the closed connection lose their client, then go.

  function ResetIfClosed(n: Node, id: nat, p: PeerInfo): PeerInfo
    requires id < |n.clients|
  {
    if Kept(n, id, p) then p else p.(client := None)
  }

  lemma KeptExactly(n: Node, id: nat, p: PeerInfo)
    requires id < |n.clients| && (p.client.Some? ==> p.client.value < |n.clients|)
    ensures ResetIfClosed(n, id, p)
         == if p.client.Some? && (p.client.value == id || Addr(n.clients[p.client.value]) == Addr(n.clients[id]))
            then p.(client := None) else p
  {
  }

  function NonNull(peers: seq<PeerInfo>): seq<PeerInfo> {
    if peers == [] then [] else (if peers[0].client.Some? then [peers[0]] else []) + NonNull(peers[1..])
  }

  function NullCount(peers: seq<PeerInfo>): nat {
    if peers == [] then 0 else (if peers[0].client.Some? then 0 else 1) + NullCount(peers[1..])
  }

  lemma {:induction false} NonNullAppend(a: seq<PeerInfo>, b: seq<PeerInfo>)
    ensures NonNull(a + b) == NonNull(a) + NonNull(b) && NullCount(a + b) == NullCount(a) + NullCount(b)
    decreases |a|
  {
    if a == [] {
      assert a + b == b;
    } else {
      NonNullAppend(a[1..], b);
      NonNullCons(a[0], a[1..]);
      NonNullCons(a[0], a[1..] + b);
      hide NonNull, NullCount;
      assert a == [a[0]] + a[1..] && a + b == [a[0]] + (a[1..] + b);
    }
  }

  lemma NonNullCons(p: PeerInfo, rest: seq<PeerInfo>)
    ensures NonNull([p] + rest) == (if p.client.Some? then [p] else []) + NonNull(rest)
    ensures NullCount([p] + rest) == (if p.client.Some? then 0 else 1) + NullCount(rest)
  {
    assert ([p] + rest)[1..] == rest;
  }

  lemma EraseOne(peers: seq<PeerInfo>, i: nat)
    requires i < |peers| && peers[i].client.None?
    ensures var erased := peers[..i] + peers[i + 1..];
            NonNull(erased) == NonNull(peers) && NullCount(erased) < NullCount(peers)
  {
    NonNullAppend(peers[..i], peers[i + 1..]);
    NonNullAppend(peers[..i], [peers[i]] + peers[i + 1..]);
    assert peers == peers[..i] + ([peers[i]] + peers[i + 1..]);
    assert ([peers[i]] + peers[i + 1..])[1..] == peers[i + 1..];
  }

  lemma {:induction false} NothingToErase(peers: seq<PeerInfo>)
    requires forall i | 0 <= i < |peers| :: peers[i].client.Some?
    ensures NonNull(peers) == peers
    decreases |peers|
  {
    if peers != [] {
      NothingToErase(peers[1..]);
    }
  }

  /** The two passes together keep exactly the entries of the filter, in order. */
  lemma {:induction false} ResetThenErase(n: Node, id: nat, peers: seq<PeerInfo>, reset: seq<PeerInfo>)
    requires id < |n.clients| && |reset| == |peers|
    requires forall j | 0 <= j < |peers| :: reset[j] == ResetIfClosed(n, id, peers[j])
    ensures NonNull(reset) == FilterKept(n, id, peers)
    decreases |peers|
  {
    if peers != [] {
      assert forall j | 0 <= j < |peers| - 1 :: reset[1..][j] == reset[j + 1] && peers[1..][j] == peers[j + 1];
      ResetThenErase(n, id, peers[1..], reset[1..]);
      assert reset[0] == ResetIfClosed(n, id, peers[0]);
    }
  }

  function ConnectionClosed(n: Node, id: nat): Node
    requires id < |n.clients|
  {
    n.(peers := FilterKept(n, id, n.peers))
  }

  function WithClient(n: Node, id: nat, c: Client): Node
    requires id < |n.clients|
  {
    n.(clients := n.clients[id := c])
  }

  ghost predicate Offered(n: Node, addr: string) {
    exists i :: 0 <= i < |n.peers| && OffersAt(n, n.peers[i], addr)
  }

  predicate OffersAt(n: Node, p: PeerInfo, addr: string) {
    && p.client.Some? && p.client.value < |n.clients|
    && n.clients[p.client.value].connected && n.clients[p.client.value].canon == addr != ""
  }

  ghost function OfferedSet(n: Node): (s: set<string>)
    ensures forall a :: a in s <==> Offered(n, a)
  {
    set i | 0 <= i < |n.peers| && OffersAt(n, n.peers[i], CanonAt(n, n.peers[i])) :: CanonAt(n, n.peers[i])
  }

  function CanonAt(n: Node, p: PeerInfo): string {
    if p.client.Some? && p.client.value < |n.clients| then n.clients[p.client.value].canon else ""
  }

  function ParseAll(keys: seq<string>): (eps: seq<Endpoint>)
    ensures |eps| == |keys|
  {
    if keys == [] then [] else [FromString(keys[0])] + ParseAll(keys[1..])
  }

  lemma ParseAllCons(key: string, keys: seq<string>)
    ensures ParseAll([key] + keys) == [FromString(key)] + ParseAll(keys)
  {
    assert ([key] + keys)[1..] == keys;
  }

  ghost function ConnectedPeers(n: Node): seq<Endpoint> {
    ParseAll(SortedKeys(OfferedSet(n)))
  }

  /** One OPEER per endpoint, except the recipient's own. */
  function Offers(eps: seq<Endpoint>, own: string): seq<Message> {
    if eps == [] then []
    else (if GetEndpoint(eps[0]) != own then [OtherPeer(eps[0].host, eps[0].port)] else []) + Offers(eps[1..], own)
  }

  lemma OffersCons(e: Endpoint, eps: seq<Endpoint>, own: string)
    ensures Offers([e] + eps, own) == (if GetEndpoint(e) != own then [OtherPeer(e.host, e.port)] else []) + Offers(eps, own)
  {
    hide GetEndpoint;
    assert ([e] + eps)[1..] == eps;
  }

  lemma {:induction false} OffersOneMore(eps: seq<Endpoint>, e: Endpoint, own: string)
    ensures Offers(eps + [e], own)
         == Offers(eps, own) + if GetEndpoint(e) != own then [OtherPeer(e.host, e.port)] else []
    decreases |eps|
  {
    var last := if GetEndpoint(e) != own then [OtherPeer(e.host, e.port)] else [];
    hide GetEndpoint;
    if eps == [] {
      OffersCons(e, [], own);
      assert eps + [e] == [e] + [] && last + [] == last && [] + last == last;
    } else {
      OffersOneMore(eps[1..], e, own);
      OffersCons(eps[0], eps[1..], own);
      OffersCons(eps[0], eps[1..] + [e], own);
      var first := if GetEndpoint(eps[0]) != own then [OtherPeer(eps[0].host, eps[0].port)] else [];
      assert eps == [eps[0]] + eps[1..] && eps + [e] == [eps[0]] + (eps[1..] + [e]);
      AppendAssoc(first, Offers(eps[1..], own), last);
    }
  }

  /** How many turns the gossip loop makes if `alive(i)` says whether the recipient is connected before turn i. */
  function Turns(k: nat, alive: nat -> bool): (t: nat)
    ensures t <= k && (forall i | 0 <= i < t :: alive(i)) && (t < k ==> !alive(t))
  {
    TurnsFrom(0, k, alive)
  }

  function TurnsFrom(i: nat, k: nat, alive: nat -> bool): (t: nat)
    requires i <= k
    ensures i <= t <= k && (forall j | i <= j < t :: alive(j)) && (t < k ==> !alive(t))
    decreases k - i
  {
    if i < k && alive(i) then TurnsFrom(i + 1, k, alive) else i
  }

  ghost function SendOtherPeers(n: Node, id: nat, alive: nat -> bool): seq<Message>
    requires id < |n.clients|
  {
    var eps := ConnectedPeers(n);
    Offers(eps[..Turns(|eps|, alive)], Addr(n.clients[id]))
  }

  function Sends(ms: seq<Message>): seq<Call> {
    seq(|ms|, i requires 0 <= i < |ms| => Send(ms[i]))
  }

  /** What the surroundings decide while a message is handled: dial results and the recipient's state. */
  datatype Env = Env(res: string -> int, alive: nat -> bool)

  datatype Reaction = Reaction(node: Node, calls: seq<Call>)

  /** The canonical address of an accepted peer: its connected host with the port it reports. */
  ghost function LearnPeer(n: Node, id: nat, port: int32, env: Env): Node
    requires id < |n.clients|
  {
    var c := n.clients[id];
    var host := FromString(Addr(c)).host;
    if Key(host, port) == Addr(c) then n
    else
      var n1 := WithClient(n, id, c.(canon := Key(host, port)));
      TryOutConnections(AddCandidate(n1, host, port, 1), env.res)
  }

  ghost function HandshakeReceived(n: Node, id: nat, version: string, myAddr: string, env: Env): Outcome<Reaction>
    requires id < |n.clients|
  {
    var peerEp := Addr(n.clients[id]);
    if version != "V01" then Ok(Reaction(n, [Shut]))
    else if !IsPeerConnected(n, peerEp, false) then Ok(Reaction(n, []))
    else
      var response := Send(HandshakeResponse("V01", n.name, peerEp));
      if myAddr == "" || myAddr[0] != ':' then Ok(Reaction(n, [response] + Sends(SendOtherPeers(n, id, env.alive))))
      else
        match Stoi(myAddr[1..])
        case Number(port) =>
          var n1 := LearnPeer(n, id, port, env);
          Ok(Reaction(n1, [response] + (if id < |n1.clients| then Sends(SendOtherPeers(n1, id, env.alive)) else [])))
        case _ => Abort(NumberFormat)
  }

  ghost function MessageReceived(n: Node, id: nat, m: Message, env: Env): Outcome<Reaction>
    requires id < |n.clients|
  {
    match m
    case Handshake(version, _, myAddr) => HandshakeReceived(n, id, version, myAddr, env)
    case Ping(text) => Ok(Reaction(n, [Send(PingResponse("Resp_from_" + n.name + "_to_" + text))]))
    case OtherPeer(host, port) => Ok(Reaction(TryOutConnections(AddCandidate(n, host, port, 1), env.res), []))
    case _ => Ok(Reaction(n, []))
  }

  /** The same seen from the sender's connection: an exception comes after the response has been sent. */
  ghost function NodeScript(n: Node, id: nat, m: Message, env: Env): Script
    requires id < |n.clients|
  {
    match MessageReceived(n, id, m, env)
    case Ok(reaction) => Script(reaction.calls, None)
    case Abort(f) => Script([Send(HandshakeResponse("V01", n.name, Addr(n.clients[id])))], Some(f))
  }

  ghost function NodeAfter(n: Node, id: nat, m: Message, env: Env): Node
    requires id < |n.clients|
  {
    match MessageReceived(n, id, m, env)
    case Ok(reaction) => reaction.node
    case Abort(_) => n
  }
}
