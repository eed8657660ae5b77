/** node/node.cpp: the node object. Its loops are proved against the functions of `PeerTable`. */
module NodeApps {
  import opened Text
  import opened Decimal
  import opened Messages
  import opened Endpoints
  import opened Connection
  import opened Ordering
  import opened PeerTable
  import T = PeerTable

  class NodeApp {
    var myName: string
    var myPeerCands: map<string, Candidate>
    var myPeers: seq<PeerInfo>
    var clients: seq<Client>
    ghost var dials: seq<string>
    ghost var adds: seq<(string, int)>

    ghost function Abs(): Node
      reads this
    {
      Node(myName, myPeerCands, myPeers, clients, dials, adds)
    }

    /** Peer entries refer to existing connection objects. */
    ghost predicate Valid()
      reads this
    {
      forall i | 0 <= i < |myPeers| && myPeers[i].client.Some? :: myPeers[i].client.value < |clients|
    }

    constructor ()
      ensures Valid() && Abs() == EMPTY
    {
      myName, myPeerCands, myPeers, clients, dials, adds := "", map[], [], [], [], [];
    }

    method AddOutPeerCandidate(host: string, port: int32, toTry: int)
      modifies this
      ensures Abs() == AddCandidate(old(Abs()), host, port, toTry)
      ensures myPeers == old(myPeers) && clients == old(clients)
    {
      var pc := Candidate(host, port, toTry, 0, 0);
      var key := host + ":" + ToString(port);
      adds := adds + [(key, toTry)];
      if key in myPeerCands {
        var c := myPeerCands[key];
        myPeerCands := myPeerCands[key := c.(toTry := toTry + c.tryCount)];
        return;
      }
      myPeerCands := myPeerCands[key := pc];
    }

    method IsPeerConnected(peerAddr: string, outDir: bool) returns (found: bool)
      requires Valid()
      ensures found <==> T.IsPeerConnected(Abs(), peerAddr, outDir)
    {
      hide Key;
      for i := 0 to |myPeers|
        invariant forall j | 0 <= j < i :: !Matches(Abs(), myPeers[j], peerAddr, outDir)
      {
        if myPeers[i].out == outDir {
          if myPeers[i].client.Some? {
            var c := clients[myPeers[i].client.value];
            if Addr(c) == peerAddr || c.canon == peerAddr {
              assert Matches(Abs(), myPeers[i], peerAddr, outDir);
              return true;
            }
          }
        }
      }
      return false;
    }

    /** `connectRes` is what `connect` on the new connection object returns. */
    method TryOutConnection(host: string, port: int, connectRes: int) returns (res: int)
      requires Valid()
      modifies this
      ensures Valid() && (Abs(), res) == T.TryOutConnection(old(Abs()), host, port, connectRes)
      ensures |old(clients)| <= |clients|
    {
      dials := dials + [Key(host, port)];
      if ":" + ToString(port) == myName {
        if host == "localhost" || host == "127.0.0.1" || host == "::1" || host == "[::1]" {
          return 0;
        }
      }
      var peerout := |clients|;
      clients := clients + [Client(host, port, "", false)];
      myPeers := myPeers + [PeerInfo(Some(peerout), true)];
      return connectRes;
    }

    method TryOutConnections(connectRes: string -> int)
      requires Valid()
      modifies this
      ensures Valid() && Abs() == T.TryOutConnections(old(Abs()), connectRes)
      ensures |old(clients)| <= |clients|
    {
      var todo := myPeerCands.Keys;
      while todo != {}
        invariant Valid() && todo <= myPeerCands.Keys && |old(clients)| <= |clients|
        invariant T.TryOutConnections(old(Abs()), connectRes) == Sweep(Abs(), SortedKeys(todo), connectRes)
        decreases |todo|
      {
        LeastExists(todo);
        var key :| IsLeast(key, todo);
        TakeLeast(key, todo);
        TryCandidate(key, connectRes);
        assert ([key] + SortedKeys(todo - {key}))[1..] == SortedKeys(todo - {key});
        todo := todo - {key};
      }
    }

    /** The loop body of `tryOutConnections`. */
    method TryCandidate(key: string, connectRes: string -> int)
      requires Valid() && key in myPeerCands
      modifies this
      ensures Valid() && Abs() == SweepKey(old(Abs()), key, connectRes)
      ensures myPeerCands.Keys == old(myPeerCands.Keys) && |old(clients)| <= |clients|
    {
      var c := myPeerCands[key];
      if c.tryCount == 0 || c.tryCount < c.toTry {
        var connected := IsPeerConnected(key, true);
        if !connected {
          myPeerCands := myPeerCands[key := c.(tryCount := c.tryCount + 1)];
          assert Abs() == old(Abs()).(cands := old(myPeerCands)[key := Bumped(c, false)]);
          var res := TryOutConnection(c.host, c.port, connectRes(key));
          if res == 0 {
            var c1 := myPeerCands[key];
            myPeerCands := myPeerCands[key := c1.(connectedCount := c1.connectedCount + 1)];
            assert myPeerCands == old(myPeerCands)[key := Bumped(c, true)];
          }
        }
      }
    }

    method InConnectionReceived(host: string, port: int) returns (id: nat)
      requires Valid()
      modifies this
      ensures Valid() && Abs() == InConnection(old(Abs()), host, port) && id == |old(clients)|
    {
      id := |clients|;
      clients := clients + [Client(host, port, "", true)];
      myPeers := myPeers + [PeerInfo(Some(id), false)];
    }

    method ConnectionClosed(id: nat)
      requires Valid() && id < |clients|
      modifies this`myPeers
      ensures Valid() && Abs() == T.ConnectionClosed(old(Abs()), id)
    {
      hide Key, Kept;
      ghost var n := Abs();
      ResetClosedClients(id);
      ResetThenErase(n, id, n.peers, myPeers);
      EraseNullClients();
    }

    method ResetClosedClients(id: nat)
      requires Valid() && id < |clients|
      modifies this`myPeers
      ensures Valid() && |myPeers| == |old(myPeers)|
      ensures forall j | 0 <= j < |myPeers| :: myPeers[j] == ResetIfClosed(old(Abs()), id, old(myPeers)[j])
    {
      hide Key, Kept;
      var cliaddr := Addr(clients[id]);
      ghost var n := Abs();
      for i := 0 to |myPeers|
        invariant |myPeers| == |n.peers| && Valid()
        invariant forall j | 0 <= j < i :: myPeers[j] == ResetIfClosed(n, id, n.peers[j])
        invariant forall j | i <= j < |myPeers| :: myPeers[j] == n.peers[j]
      {
        KeptExactly(n, id, n.peers[i]);
        if myPeers[i].client.Some? {
          var c := myPeers[i].client.value;
          if c == id || Addr(clients[c]) == cliaddr {
            myPeers := myPeers[i := myPeers[i].(client := None)];
          }
        }
      }
    }

    /** The restart-after-erase loop; every restart follows the loss of a null entry. */
    method EraseNullClients()
      requires Valid()
      modifies this`myPeers
      ensures Valid() && myPeers == NonNull(old(myPeers))
    {
      var changed := true;
      while changed
        invariant Valid() && NonNull(myPeers) == NonNull(old(myPeers))
        invariant !changed ==> forall i | 0 <= i < |myPeers| :: myPeers[i].client.Some?
        decreases NullCount(myPeers), changed
      {
        changed := false;
        ghost var before := myPeers;
        var i := 0;
        while i < |myPeers|
          invariant i <= |myPeers| && !changed && myPeers == before && Valid()
          invariant forall j | 0 <= j < i :: myPeers[j].client.Some?
        {
          if myPeers[i].client.None? {
            EraseOne(myPeers, i);
            myPeers := myPeers[..i] + myPeers[i + 1..];
            changed := true;
            break;
          }
          i := i + 1;
        }
      }
      NothingToErase(myPeers);
    }

    /** The canonical addresses of the connected peers, as the keys of a map. */
    method CollectCanonical() returns (peers: set<string>)
      requires Valid()
      ensures peers == OfferedSet(Abs())
    {
      hide OfferedSet;
      peers := {};
      for i := 0 to |myPeers|
        invariant forall a :: a in peers <==> exists j :: 0 <= j < i && OffersAt(Abs(), myPeers[j], a)
      {
        ghost var before := peers;
        if myPeers[i].client.Some? {
          var c := clients[myPeers[i].client.value];
          if c.connected && |c.canon| > 0 {
            peers := peers + {c.canon};
          }
        }
        forall a ensures a in peers <==> a in before || OffersAt(Abs(), myPeers[i], a) {
        }
      }
    }

    method GetConnectedPeers() returns (vec: seq<Endpoint>)
      requires Valid()
      ensures vec == ConnectedPeers(Abs())
    {
      hide OfferedSet, FromString, IsLeast, StrictlySorted, SortedKeys;
      var peers := CollectCanonical();
      SortedNone();
      vec := [];
      while peers != {}
        invariant ConnectedPeers(Abs()) == vec + ParseAll(SortedKeys(peers))
        decreases |peers|
      {
        LeastExists(peers);
        var key :| IsLeast(key, peers);
        TakeLeast(key, peers);
        ParseAllCons(key, SortedKeys(peers - {key}));
        vec := vec + [FromString(key)];
        peers := peers - {key};
      }
    }

    /** `alive(i)` is what `isConnected` returns in turn i; the OPEER messages sent are returned. */
    method SendOtherPeers(id: nat, alive: nat -> bool) returns (sent: seq<Message>)
      requires Valid() && id < |clients|
      ensures sent == T.SendOtherPeers(Abs(), id, alive)
    {
      hide ConnectedPeers, GetEndpoint, Addr, OfferedSet;
      var peers := GetConnectedPeers();
      var own := Addr(clients[id]);
      sent := [];
      var i := 0;
      while i < |peers|
        invariant i <= |peers| && sent == Offers(peers[..i], own)
        invariant Turns(|peers|, alive) == TurnsFrom(i, |peers|, alive)
      {
        if !alive(i) {
          return;
        }
        var ep := GetEndpoint(peers[i]);
        OffersOneMore(peers[..i], peers[i], own);
        assert peers[..i + 1] == peers[..i] + [peers[i]];
        if ep != own {
          sent := sent + [OtherPeer(peers[i].host, peers[i].port)];
        }
        i := i + 1;
      }
      assert peers[..|peers|] == peers;
    }

    /** The calls made on the sending connection are returned in order. */
    method MessageReceived(id: nat, m: Message, env: Env) returns (r: Outcome<seq<Call>>)
      requires Valid() && id < |clients|
      modifies this
      ensures match T.MessageReceived(old(Abs()), id, m, env)
              case Ok(reaction) => r == Ok(reaction.calls) && Abs() == reaction.node && Valid()
              case Abort(f) => r == Abort(f)
    {
      match m
      case Handshake(version, _, myAddr) => r := HandshakeReceived(id, version, myAddr, env);
      case Ping(text) => r := Ok([Send(PingResponse("Resp_from_" + myName + "_to_" + text))]);
      case OtherPeer(host, port) =>
        AddOutPeerCandidate(host, port, 1);
        TryOutConnections(env.res);
        r := Ok([]);
      case _ => r := Ok([]);
    }

    method HandshakeReceived(id: nat, version: string, myAddr: string, env: Env) returns (r: Outcome<seq<Call>>)
      requires Valid() && id < |clients|
      modifies this
      ensures match T.HandshakeReceived(old(Abs()), id, version, myAddr, env)
              case Ok(reaction) => r == Ok(reaction.calls) && Abs() == reaction.node && Valid()
              case Abort(f) => r == Abort(f)
    {
      if version != "V01" {
        return Ok([Shut]);
      }
      var peerEp := Addr(clients[id]);
      var known := IsPeerConnected(peerEp, false);
      if !known {
        return Ok([]);
      }
      var response := Send(HandshakeResponse("V01", myName, peerEp));
      if myAddr != "" && myAddr[0] == ':' {
        var port := Stoi(myAddr[1..]);
        if !port.Number? {
          return Abort(NumberFormat);
        }
        LearnPeer(id, port.n, env);
      }
      var offers := SendOtherPeers(id, env.alive);
      return Ok([response] + Sends(offers));
    }

    method LearnPeer(id: nat, canonPort: int32, env: Env)
      requires Valid() && id < |clients|
      modifies this
      ensures Abs() == T.LearnPeer(old(Abs()), id, canonPort, env) && Valid() && id < |clients|
    {
      hide T.TryOutConnections, AddCandidate, FromString, Key;
      var peerEp := Addr(clients[id]);
      var canonHost := FromString(peerEp).host;
      var canonEp := Key(canonHost, canonPort);
      if canonEp != peerEp {
        clients := clients[id := clients[id].(canon := canonEp)];
        AddOutPeerCandidate(canonHost, canonPort, 1);
        TryOutConnections(env.res);
      }
    }

    /** `start`: two local candidates, then the endpoints given on the command line. */
    method Start(extraPeers: seq<string>)
      modifies this
      ensures Abs() == AddExtras(AddLocals(old(Abs())), extraPeers)
    {
      AddOutPeerCandidate("localhost", 5000, 1);
      AddOutPeerCandidate("localhost", 5001, 1);
      for i := 0 to |extraPeers|
        invariant AddExtras(Abs(), extraPeers[i..]) == AddExtras(AddLocals(old(Abs())), extraPeers)
      {
        if |extraPeers[i]| > 0 {
          var ep := FromString(extraPeers[i]);
          AddOutPeerCandidate(ep.host, ep.port, 1000000);
        }
        assert extraPeers[i..][1..] == extraPeers[i + 1..];
      }
    }

    method ListenStarted(port: int, connectRes: string -> int)
      requires Valid()
      modifies this
      ensures Valid() && Abs() == T.TryOutConnections(old(Abs()).(name := ":" + ToString(port)), connectRes)
    {
      myName := ":" + ToString(port);
      TryOutConnections(connectRes);
    }
  }
}
