/** What a node's operations achieve, told on its candidates, its peer list and its messages only: who is dialled,
    what a start dials, what a message teaches, what is answered, who is forgotten, what is gossiped. */
module NodeLaws {
  import opened Text
  import opened Decimal
  import opened Messages
  import opened Framing
  import opened Endpoints
  import opened Connection
  import opened Ordering
  import opened PeerTable
  import opened TableRuns
  import opened Gossip
  import opened Batches
  import opened NodeBatches

  // The sweep.

  /** Some outgoing peer goes by this address, its own or its canonical one. */
  ghost predicate OutgoingAt(n: Node, k: string) {
    exists i :: 0 <= i < |n.peers| && n.peers[i].out && n.peers[i].client.Some? && n.peers[i].client.value < |n.clients| &&
      var c := n.clients[n.peers[i].client.value]; c.host + ":" + ToString(c.port) == k || c.canon == k
  }

  /** A candidate with attempts left, or never tried, that no outgoing peer goes by. */
  ghost predicate Wanted(n: Node, k: string) {
    k in n.cands && (n.cands[k].tryCount == 0 || n.cands[k].tryCount < n.cands[k].toTry) && !OutgoingAt(n, k)
  }

  /** A host by which a node listening on this port would reach itself. */
  ghost predicate IsItself(n: Node, host: string, port: int) {
    n.name == ":" + ToString(port) && host in ["localhost", "127.0.0.1", "::1", "[::1]"]
  }

  lemma OutgoingIsConnected(n: Node, k: string)
    ensures IsPeerConnected(n, k, true) <==> OutgoingAt(n, k)
  {
    forall i | 0 <= i < |n.peers|
      ensures Matches(n, n.peers[i], k, true)
         <==> n.peers[i].out && n.peers[i].client.Some? && n.peers[i].client.value < |n.clients| &&
              var c := n.clients[n.peers[i].client.value]; c.host + ":" + ToString(c.port) == k || c.canon == k
    {
    }
  }

  lemma WantedIsDue(n: Node, k: string)
    ensures Due(n, k) <==> Wanted(n, k)
  {
    hide IsPeerConnected, OutgoingAt;
    OutgoingIsConnected(n, k);
  }

  lemma ItselfIsSelf(n: Node, host: string, port: int)
    ensures IsSelf(n, host, port) <==> IsItself(n, host, port)
  {
  }

  /** Who is tried, and with what result: exactly the wanted candidates, once each; a try succeeds if `connect` does or
      if the candidate is the node itself; a new outgoing peer is listed for exactly the others, whatever `connect` says. */
  lemma TriedIff(n: Node, res: string -> int, k: string)
    requires TableInv(n)
    ensures var m := TryOutConnections(n, res);
            && multiset(m.dials)[k] == multiset(n.dials)[k] + One(Wanted(n, k))
            && (k in n.cands ==>
                  && k in m.cands
                  && m.cands[k].tryCount == n.cands[k].tryCount + One(Wanted(n, k))
                  && m.cands[k].connectedCount
                     == n.cands[k].connectedCount
                        + One(Wanted(n, k) && (IsItself(n, n.cands[k].host, n.cands[k].port) || res(k) == 0))
                  && m.cands[k].toTry == n.cands[k].toTry
                  && (HasOut(m, k) <==> HasOut(n, k) || (Wanted(n, k) && !IsItself(n, n.cands[k].host, n.cands[k].port))))
  {
    hide TryOutConnections, Wanted, IsPeerConnected, HasOut, IsSelf, IsItself;
    WantedIsDue(n, k);
    SweepAttempts(n, res, k);
    if k in n.cands {
      SweepCandidate(n, res, k);
      ItselfIsSelf(n, n.cands[k].host, n.cands[k].port);
      ListedAfter(n, res, k);
    }
  }

  lemma ListedAfter(n: Node, res: string -> int, k: string)
    requires TableInv(n) && k in n.cands
    ensures HasOut(TryOutConnections(n, res), k) <==> HasOut(n, k) || Dialled(n, k)
  {
    hide TryOutConnections, Dialled, Extended, SortedKeys, PeerAddress, TableInv, Sound, HasOut;
    var m, d := TryOutConnections(n, res), DialKeys(n, SortedKeys(n.cands.Keys));
    if Dialled(n, k) {
      NoRetry(n, res, k);
    } else if HasOut(n, k) {
      SweepKeepsListed(n, res, k);
    } else {
      SweepExtends(n, res);
      InvIsSound(n);
      NotListed(n, m, d, k);
    }
  }

  lemma NotListed(n: Node, m: Node, d: seq<string>, k: string)
    requires Sound(n) && Extended(n, m, d) && |m.peers| == |n.peers| + |d| && !HasOut(n, k) && k !in d
    ensures !HasOut(m, k)
  {
    hide Extended, PeerAddress, Sound, Matches;
    forall i | 0 <= i < |m.peers| && m.peers[i].out ensures PeerAddress(m, m.peers[i]) != k {
      if i < |n.peers| {
        OldPeerMatches(n, m, d, i, "x");
      } else {
        NewPeerMatches(n, m, d, i - |n.peers|, "x");
        assert d[i - |n.peers|] in d;
      }
    }
  }

  /** Budgets need not be positive: a candidate that was never tried is tried once in any case. */
  lemma FirstTryIsFree(n: Node, res: string -> int, k: string)
    requires Sound(n)
    ensures multiset(TryOutConnections(n, res).dials)[k] == multiset(n.dials)[k] + One(Wanted(n, k))
  {
    hide TryOutConnections, Wanted, Sound, Due;
    DueAreTried(n, res, k);
    WantedIsDue(n, k);
  }

  /** A peer reached under one name is not dialled again under its canonical one. */
  lemma CanonicalBlocks(n: Node, res: string -> int, i: nat, k: string)
    requires TableInv(n) && i < |n.peers| && n.peers[i].out && n.peers[i].client.Some?
    requires n.peers[i].client.value < |n.clients| && n.clients[n.peers[i].client.value].canon == k
    ensures multiset(TryOutConnections(n, res).dials)[k] == multiset(n.dials)[k]
  {
    hide TryOutConnections;
    TriedIff(n, res, k);
  }

  // Starting.

  /** A node that has just been started on `port`, without further peers, tries localhost:5000 and then
      localhost:5001, and lists the one or two that are not itself. */
  lemma FirstSweep(port: int32, res: string -> int)
    ensures var n := AddLocals(EMPTY).(name := ":" + ToString(port));
            var m := TryOutConnections(n, res);
            && n.cands == map["localhost:5000" := Candidate("localhost", 5000, 1, 0, 0), "localhost:5001" := Candidate("localhost", 5001, 1, 0, 0)]
            && m.dials == ["localhost:5000", "localhost:5001"]
            && m.clients == (if port == 5000 then [] else [Client("localhost", 5000, "", false)])
                            + (if port == 5001 then [] else [Client("localhost", 5001, "", false)])
  {
    var n := AddLocals(EMPTY).(name := ":" + ToString(port));
    LocalCandidates(n.name);
    var a, b := "localhost:5000", "localhost:5001";
    LocalOrder(n.cands.Keys);
    LocalSweep(n, port, res);
  }

  lemma LocalCandidates(name: string)
    ensures AddLocals(EMPTY).(name := name)
         == Node(name, map["localhost:5000" := Candidate("localhost", 5000, 1, 0, 0), "localhost:5001" := Candidate("localhost", 5001, 1, 0, 0)],
                 [], [], [], [("localhost:5000", 1), ("localhost:5001", 1)])
  {
    hide Key;
    KeyAt();
    assert [] + [("localhost:5000", 1)] + [("localhost:5001", 1)] == [("localhost:5000", 1), ("localhost:5001", 1)];
  }

  /** A `std::map` visits localhost:5000 first. */
  lemma LocalOrder(keys: set<string>)
    requires keys == {"localhost:5000", "localhost:5001"}
    ensures SortedKeys(keys) == ["localhost:5000", "localhost:5001"]
  {
    hide LessEq, SortedKeys;
    var a, b := "localhost:5000", "localhost:5001";
    assert a[..13] == b[..13] && a[13] < b[13];
    FirstDifferenceDecides(a, b, 13);
    SortedIsUnique([a, b], keys);
  }

  lemma LocalSweep(n: Node, port: int32, res: string -> int)
    requires n == Node(":" + ToString(port),
                       map["localhost:5000" := Candidate("localhost", 5000, 1, 0, 0), "localhost:5001" := Candidate("localhost", 5001, 1, 0, 0)],
                       [], [], [], [("localhost:5000", 1), ("localhost:5001", 1)])
    ensures var m := TryOutConnections(n, res);
            && m.dials == ["localhost:5000", "localhost:5001"]
            && m.clients == (if port == 5000 then [] else [Client("localhost", 5000, "", false)])
                            + (if port == 5001 then [] else [Client("localhost", 5001, "", false)])
  {
    hide TryOutConnections, Key, ToString, LessEq, SortedKeys, TableInv, IsSelf;
    var a, b := "localhost:5000", "localhost:5001";
    LocalsGood(n);
    LocalOrder(n.cands.Keys);
    TwoSweep(n, a, b, res);
    SelfPort(n, port, 5000);
    SelfPort(n, port, 5001);
  }

  lemma SelfPort(n: Node, port: int, other: int)
    requires n.name == ":" + ToString(port)
    ensures IsSelf(n, "localhost", other) <==> other == port
  {
    PortName(port, other);
  }

  /** The first sweep of a node with two candidates and nothing else. */
  lemma TwoSweep(n: Node, a: string, b: string, res: string -> int)
    requires TableInv(n) && a in n.cands && b in n.cands && SortedKeys(n.cands.Keys) == [a, b]
    requires n.peers == [] && n.clients == [] && n.dials == [] && Eligible(n.cands[a]) && Eligible(n.cands[b])
    ensures var m := TryOutConnections(n, res);
            var (ca, cb) := (n.cands[a], n.cands[b]);
            && m.dials == [a, b]
            && m.clients == (if IsSelf(n, ca.host, ca.port) then [] else [Client(ca.host, ca.port, "", false)])
                            + (if IsSelf(n, cb.host, cb.port) then [] else [Client(cb.host, cb.port, "", false)])
  {
    hide TryOutConnections, SortedKeys, TableInv, IsSelf, Eligible, Key, DueKeys, DialKeys, NewClients;
    SweepDials(n, res);
    SweepClients(n, res);
    TwoKeys(n, a, b);
    assert [a] + [b] == [a, b] && [] + [a, b] == [a, b];
    var cs := NewClients(n, DialKeys(n, [a, b]));
    assert [] + cs == cs;
  }

  lemma PortName(port: int, other: int)
    ensures ":" + ToString(port) == ":" + ToString(other) <==> port == other
  {
    hide ToString;
    assert (":" + ToString(port))[1..] == ToString(port) && (":" + ToString(other))[1..] == ToString(other);
    if ToString(port) == ToString(other) {
      PrintInjective(port, other);
    }
  }

  lemma LocalsGood(n: Node)
    requires n.cands == map["localhost:5000" := Candidate("localhost", 5000, 1, 0, 0), "localhost:5001" := Candidate("localhost", 5001, 1, 0, 0)]
    requires n.peers == []
    ensures TableInv(n)
  {
    hide Key;
    KeyAt();
  }

  lemma OneKey(n: Node, k: string)
    requires k in n.cands && n.peers == []
    ensures DueKeys(n, [k]) == if Eligible(n.cands[k]) then [k] else []
    ensures DialKeys(n, [k]) == if Eligible(n.cands[k]) && !IsSelf(n, n.cands[k].host, n.cands[k].port) then [k] else []
  {
    assert !IsPeerConnected(n, k, true);
    hide IsPeerConnected, IsSelf, Eligible;
    DialKeysCons(n, k, []);
    assert [k] + [] == [k];
  }

  /** The filters on two keys, spelled out. */
  lemma TwoKeys(n: Node, a: string, b: string)
    requires a in n.cands && b in n.cands && n.peers == []
    ensures DueKeys(n, [a, b]) == (if Eligible(n.cands[a]) then [a] else []) + (if Eligible(n.cands[b]) then [b] else [])
    ensures var sa, sb := IsSelf(n, n.cands[a].host, n.cands[a].port), IsSelf(n, n.cands[b].host, n.cands[b].port);
            var d := (if Eligible(n.cands[a]) && !sa then [a] else []) + (if Eligible(n.cands[b]) && !sb then [b] else []);
            && DialKeys(n, [a, b]) == d
            && NewClients(n, d) == (if Eligible(n.cands[a]) && !sa then [Client(n.cands[a].host, n.cands[a].port, "", false)] else [])
                                   + (if Eligible(n.cands[b]) && !sb then [Client(n.cands[b].host, n.cands[b].port, "", false)] else [])
  {
    OneKey(n, a);
    OneKey(n, b);
    assert Due(n, a) <==> a in DueKeys(n, [a]);
    assert Dialled(n, a) <==> a in DialKeys(n, [a]);
    hide IsSelf, Eligible, Due, Dialled, DueKeys, DialKeys;
    DialKeysCons(n, a, [b]);
    assert [a] + [b] == [a, b];
    TwoClients(n, a, b);
  }

  lemma TwoClients(n: Node, a: string, b: string)
    requires a in n.cands && b in n.cands
    ensures var (ca, cb) := (Client(n.cands[a].host, n.cands[a].port, "", false), Client(n.cands[b].host, n.cands[b].port, "", false));
            NewClients(n, [a, b]) == [ca, cb] && NewClients(n, [a]) == [ca] && NewClients(n, [b]) == [cb] && NewClients(n, []) == []
  {
  }

  /** Every peer given at the start becomes a candidate with a million attempts; an empty text is none. */
  lemma {:induction false} ExtrasGranted(n: Node, extras: seq<string>, i: nat)
    requires TableInv(n) && i < |extras|
    ensures var m := AddExtras(n, extras);
            var ep := FromString(extras[i]);
            var k := ep.host + ":" + ToString(ep.port);
            && TableInv(m)
            && (extras[i] != "" ==> k in m.cands && m.cands[k].toTry == m.cands[k].tryCount + 1000000)
    decreases |extras|
  {
    hide TableInv, FromString;
    var first := FromString(extras[0]);
    var n1 := if extras[0] == "" then n else AddCandidate(n, first.host, first.port, 1000000);
    AddKeepsInv(n, first.host, first.port, 1000000);
    var k := Key(first.host, first.port);
    AddGrants(n, first.host, first.port, 1000000);
    if i > 0 {
      ExtrasGranted(n1, extras[1..], i - 1);
    } else {
      ExtrasKeep(n1, extras[1..], k);
    }
  }

  lemma {:induction false} ExtrasKeep(n: Node, extras: seq<string>, k: string)
    requires TableInv(n)
    ensures var m := AddExtras(n, extras);
            && TableInv(m) && n.cands.Keys <= m.cands.Keys
            && (k in n.cands && Allowance(n.cands[k]) == 1000000 ==> Allowance(m.cands[k]) == 1000000)
    decreases |extras|
  {
    hide TableInv, FromString, Key;
    if extras != [] {
      var ep := FromString(extras[0]);
      AddKeepsInv(n, ep.host, ep.port, 1000000);
      AddGrants(n, ep.host, ep.port, 1000000);
      ExtrasKeep(if extras[0] == "" then n else AddCandidate(n, ep.host, ep.port, 1000000), extras[1..], k);
    }
  }

  /** And nothing else does: a candidate was there before or is one of these. */
  lemma {:induction false} ExtrasOnly(n: Node, extras: seq<string>, k: string)
    requires k in AddExtras(n, extras).cands
    ensures k in n.cands || exists i :: 0 <= i < |extras| && extras[i] != "" && k == GetEndpoint(FromString(extras[i]))
    decreases |extras|
  {
    hide FromString, Key;
    if extras != [] {
      var ep := FromString(extras[0]);
      var n1 := if extras[0] == "" then n else AddCandidate(n, ep.host, ep.port, 1000000);
      ExtrasOnly(n1, extras[1..], k);
      if k !in n1.cands {
        var i :| 0 <= i < |extras[1..]| && extras[1..][i] != "" && k == GetEndpoint(FromString(extras[1..][i]));
        assert extras[i + 1] == extras[1..][i];
      } else if k !in n.cands {
        assert k == GetEndpoint(FromString(extras[0]));
      }
    }
  }

  // What is learned.

  /** After an address is learned and the sweep made, it is a candidate, and it is the node itself or connected. */
  ghost predicate Pursued(n: Node, host: string, port: int) {
    Key(host, port) in n.cands && (IsItself(n, host, port) || OutgoingAt(n, Key(host, port)))
  }

  /** From `n` to `m` this address was given one more attempt than it had used, and no other add was made. */
  ghost predicate GrantedOne(n: Node, m: Node, host: string, port: int) {
    var k := Key(host, port);
    && m.adds == n.adds + [(k, 1)] && k in m.cands
    && m.cands[k].toTry == 1 + (if k in n.cands then n.cands[k].tryCount else 0)
  }

  lemma AddedIsGranted(n: Node, host: string, port: int32, res: string -> int)
    requires TableInv(n)
    ensures GrantedOne(n, TryOutConnections(AddCandidate(n, host, port, 1), res), host, port)
  {
    hide TryOutConnections, Key, TableInv, IsPeerConnected;
    var n1 := AddCandidate(n, host, port, 1);
    AddKeepsInv(n, host, port, 1);
    SweepAttempts(n1, res, Key(host, port));
    SweepCandidate(n1, res, Key(host, port));
  }

  lemma AddedIsPursued(n: Node, host: string, port: int32, res: string -> int)
    requires TableInv(n)
    ensures Pursued(TryOutConnections(AddCandidate(n, host, port, 1), res), host, port)
  {
    hide TryOutConnections, IsPeerConnected, OutgoingAt, IsItself, IsSelf, Key, TableInv;
    var n1 := AddCandidate(n, host, port, 1);
    var m := TryOutConnections(n1, res);
    var k := Key(host, port);
    AddKeepsInv(n, host, port, 1);
    AddGrants(n, host, port, 1);
    SweepPeers(n1, res, k);
    SweepSpends(n1, res, k);
    SweepKeepsInv(n1, res);
    SweepClients(n1, res);
    OutgoingIsConnected(m, k);
    ItselfIsSelf(m, host, port);
    SelfByName(n1, m, host, port);
    hide DialKeys, NewClients, SortedKeys;
    assert Dialled(n1, k) || !Due(n1, k) || IsSelf(n1, host, port);
  }

  lemma SelfByName(n: Node, m: Node, host: string, port: int)
    requires m.name == n.name
    ensures IsSelf(n, host, port) <==> IsSelf(m, host, port)
  {
  }

  /** Gossip is acted on. */
  lemma OfferIsPursued(n: Node, id: nat, host: string, port: int32, env: Env)
    requires TableInv(n) && id < |n.clients|
    ensures var r := MessageReceived(n, id, OtherPeer(host, port), env);
            r.Ok? && r.value.calls == [] && Pursued(r.value.node, host, port) && GrantedOne(n, r.value.node, host, port)
  {
    hide TryOutConnections, AddCandidate, Pursued, GrantedOne;
    AddedIsGranted(n, host, port, env.res);
    AddedIsPursued(n, host, port, env.res);
  }

  /** A greeting from a known peer that reports its listening port. The peer's host is what stands before the first
      colon of its address; unless host and port are that address, they become its canonical one, and it is pursued.
      Otherwise the table stays as it is. */
  lemma GreetingIsLearned(n: Node, id: nat, yourAddr: string, port: int32, env: Env, host: string, rest: string)
    requires TableInv(n) && id < |n.clients| && IsPeerConnected(n, Addr(n.clients[id]), false)
    requires ':' !in host && Addr(n.clients[id]) == host + ":" + rest
    ensures var r := MessageReceived(n, id, Handshake("V01", yourAddr, ":" + ToString(port)), env);
            && r.Ok?
            && if rest == ToString(port) then r.value.node == n
               else && Pursued(r.value.node, host, port) && GrantedOne(n, r.value.node, host, port)
                    && id < |r.value.node.clients|
                    && r.value.node.clients[id] == n.clients[id].(canon := host + ":" + ToString(port))
  {
    hide TryOutConnections, AddCandidate, Pursued, GrantedOne, IsPeerConnected, SendOtherPeers, TableInv, Stoi, ToString, LearnPeer, Addr;
    Reported(port);
    LearnsCanonical(n, id, port, env, host, rest);
  }

  lemma Reported(port: int32)
    ensures var s := ":" + ToString(port); s != "" && s[0] == ':' && Stoi(s[1..]) == Number(port)
  {
    var s := ":" + ToString(port);
    assert s[1..] == ToString(port);
    RoundTrip(port);
  }

  lemma LearnsCanonical(n: Node, id: nat, port: int32, env: Env, host: string, rest: string)
    requires TableInv(n) && id < |n.clients| && ':' !in host && Addr(n.clients[id]) == host + ":" + rest
    ensures var m := LearnPeer(n, id, port, env);
            if rest == ToString(port) then m == n
            else && Pursued(m, host, port) && GrantedOne(n, m, host, port) && id < |m.clients|
                 && m.clients[id] == n.clients[id].(canon := host + ":" + ToString(port))
  {
    hide TryOutConnections, AddCandidate, Pursued, TableInv, ToString, FromString, Addr;
    var c := n.clients[id];
    ParsedText(host, rest);
    SameAfterHost(host, ToString(port), rest);
    if rest != ToString(port) {
      var c1 := c.(canon := Key(host, port));
      var n1 := WithClient(n, id, c1);
      SameAddress(c, c1);
      ClientKeepsInv(n, id, c1);
      AddedIsPursued(n1, host, port, env.res);
      AddedIsGranted(n1, host, port, env.res);
      KnownAfterAdding(n1, id, host, port, env);
    }
  }

  lemma SameAddress(c: Client, d: Client)
    requires c.host == d.host && c.port == d.port
    ensures Addr(c) == Addr(d)
  {
  }

  lemma SameAfterHost(host: string, a: string, b: string)
    ensures host + ":" + a == host + ":" + b <==> a == b
  {
    assert (host + ":" + a)[|host| + 1..] == a && (host + ":" + b)[|host| + 1..] == b;
  }

  /** What teaches nothing: a wrong version, which closes; a stranger, who is not answered; a greeting without a
      listening port; a ping; a response. */
  lemma NothingLearned(n: Node, id: nat, m: Message, env: Env)
    requires id < |n.clients| && !m.OtherPeer?
    requires m.Handshake? ==>
               m.version != "V01" || !IsPeerConnected(n, Addr(n.clients[id]), false) || m.myAddr == "" || m.myAddr[0] != ':'
    ensures var r := MessageReceived(n, id, m, env);
            && r.Ok? && r.value.node == n
            && (m.Handshake? && m.version != "V01" ==> r.value.calls == [Shut])
            && (m.Handshake? && m.version == "V01" && !IsPeerConnected(n, Addr(n.clients[id]), false) ==> r.value.calls == [])
            && (m.HandshakeResponse? || m.PingResponse? ==> r.value.calls == [])
  {
    hide IsPeerConnected, SendOtherPeers, Addr;
  }

  /** An accepted connection is known from then on, also after other connections were accepted. */
  lemma AcceptedIsKnown(n: Node, host: string, port: int)
    ensures var m := InConnection(n, host, port);
            && m.clients == n.clients + [Client(host, port, "", true)]
            && |m.peers| == |n.peers| + 1 && m.peers[..|n.peers|] == n.peers
            && !m.peers[|n.peers|].out && m.peers[|n.peers|].client == Some(|n.clients|)
            && IsPeerConnected(m, host + ":" + ToString(port), false)
            && m.cands == n.cands && m.dials == n.dials
  {
    var m := InConnection(n, host, port);
    assert Matches(m, m.peers[|n.peers|], Key(host, port), false);
  }

  /** Outgoing peers make nobody known, and incoming ones block no dial. */
  lemma DirectionsApart(n: Node, k: string, out: bool)
    requires forall i | 0 <= i < |n.peers| :: n.peers[i].out != out
    ensures !IsPeerConnected(n, k, out)
  {
  }

  /** A dead entry makes nobody known; a live incoming one does, by its own address and by its canonical one. */
  lemma KnownIff(n: Node, k: string)
    ensures IsPeerConnected(n, k, false)
       <==> exists i :: 0 <= i < |n.peers| && !n.peers[i].out && n.peers[i].client.Some? && n.peers[i].client.value < |n.clients| &&
              var c := n.clients[n.peers[i].client.value]; c.host + ":" + ToString(c.port) == k || c.canon == k
  {
    forall i | 0 <= i < |n.peers|
      ensures Matches(n, n.peers[i], k, false)
         <==> !n.peers[i].out && n.peers[i].client.Some? && n.peers[i].client.value < |n.clients| &&
              var c := n.clients[n.peers[i].client.value]; c.host + ":" + ToString(c.port) == k || c.canon == k
    {
    }
  }

  /** A close removes exactly the entries of that connection and of its address. */
  lemma ClosedIff(n: Node, id: nat, p: PeerInfo)
    requires TableInv(n) && id < |n.clients|
    ensures p in ConnectionClosed(n, id).peers
       <==> p in n.peers && p.client != Some(id) &&
            !(p.client.Some? && p.client.value < |n.clients|
              && n.clients[p.client.value].host == n.clients[id].host && n.clients[p.client.value].port == n.clients[id].port)
    ensures ConnectionClosed(n, id) == n.(peers := ConnectionClosed(n, id).peers)
  {
    hide Key;
    FilterKeptContents(n, id, n.peers);
    if p in n.peers {
      assert GoodPeer(n, p);
      var c, d := n.clients[p.client.value], n.clients[id];
      if Addr(c) == Addr(d) {
        KeyInjective(c.host, c.port, d.host, d.port);
      }
    }
  }

  // What is answered.

  predicate IsUp(n: Node, p: PeerInfo, addr: string) {
    && p.client.Some? && p.client.value < |n.clients|
    && n.clients[p.client.value].connected && n.clients[p.client.value].canon == addr
  }

  /** The canonical address of a listed peer whose connection is up. */
  ghost predicate UpAt(n: Node, addr: string) {
    addr != "" && exists i :: 0 <= i < |n.peers| && IsUp(n, n.peers[i], addr)
  }

  lemma OfferedMeans(n: Node, addr: string)
    ensures Offered(n, addr) <==> UpAt(n, addr)
  {
    forall i | 0 <= i < |n.peers|
      ensures OffersAt(n, n.peers[i], addr)
         <==> addr != "" && IsUp(n, n.peers[i], addr)
    {
    }
  }

  lemma {:induction false} WithoutContent(keys: seq<string>, own: string, k: string)
    ensures k in Without(keys, own) <==> k in keys && k != own
    decreases |keys|
  {
    if keys != [] {
      WithoutContent(keys[1..], own, k);
      assert keys == [keys[0]] + keys[1..];
    }
  }

  lemma {:induction false} SentKeysIff(ms: seq<Message>, host: string, port: int32)
    ensures OtherPeer(host, port) in ms <==> Key(host, port) in SentKeys(ms)
    decreases |ms|
  {
    hide Key;
    if ms != [] {
      SentKeysIff(ms[1..], host, port);
      assert ms == [ms[0]] + ms[1..];
      if ms[0].OtherPeer? && Key(ms[0].host, ms[0].port) == Key(host, port) {
        KeyInjective(ms[0].host, ms[0].port, host, port);
      }
    }
  }

  /** Gossip to a recipient that stays connected: exactly the canonical addresses of the listed peers whose
      connections are up, without the recipient's own address. */
  lemma GossipIff(n: Node, id: nat, alive: nat -> bool, host: string, port: int32)
    requires id < |n.clients| && (forall a | UpAt(n, a) :: Canonical(a)) && (forall i {:trigger alive(i)} :: alive(i))
    ensures OtherPeer(host, port) in SendOtherPeers(n, id, alive)
       <==> Key(host, port) != Addr(n.clients[id]) && UpAt(n, Key(host, port))
    ensures forall m | m in SendOtherPeers(n, id, alive) :: m.OtherPeer?
  {
    hide SendOtherPeers, Canonical, Key, UpAt, Offered, SortedKeys, Addr;
    var k, keys := Key(host, port), SortedKeys(OfferedSet(n));
    forall a ensures Offered(n, a) <==> UpAt(n, a) {
      OfferedMeans(n, a);
    }
    GossipExact(n, id, alive);
    assert keys[..|keys|] == keys;
    WithoutContent(keys, Addr(n.clients[id]), k);
    SentKeysIff(SendOtherPeers(n, id, alive), host, port);
    forall m | m in SendOtherPeers(n, id, alive) ensures m.OtherPeer? {
      SentIsOffered(n, id, alive, m);
    }
    assert k in OfferedSet(n) <==> Offered(n, k);
  }

  /** A greeting from a known peer is answered with the version, the node's name and the peer's address, and then with
      gossip from the table as it is after learning, so that a peer is also told of its own canonical address. */
  lemma GreetingIsAnswered(n: Node, id: nat, yourAddr: string, myAddr: string, env: Env, host: string, port: int32)
    requires TableInv(n) && id < |n.clients| && IsPeerConnected(n, Addr(n.clients[id]), false)
    requires MessageReceived(n, id, Handshake("V01", yourAddr, myAddr), env).Ok?
    requires var m := MessageReceived(n, id, Handshake("V01", yourAddr, myAddr), env).value.node;
             (forall a | UpAt(m, a) :: Canonical(a)) && (forall i {:trigger env.alive(i)} :: env.alive(i))
    ensures var r := MessageReceived(n, id, Handshake("V01", yourAddr, myAddr), env).value;
            var peer := n.clients[id].host + ":" + ToString(n.clients[id].port);
            && r.calls != [] && r.calls[0] == Send(HandshakeResponse("V01", n.name, peer))
            && (forall i | 0 < i < |r.calls| :: r.calls[i].Send? && r.calls[i].message.OtherPeer?)
            && (Send(OtherPeer(host, port)) in r.calls <==> Key(host, port) != peer && UpAt(r.node, Key(host, port)))
  {
    hide SendOtherPeers, Canonical, UpAt, IsPeerConnected, LearnPeer, Stoi, TableInv, ToString;
    var r := MessageReceived(n, id, Handshake("V01", yourAddr, myAddr), env).value;
    NodeKeepsClient(n, id, Handshake("V01", yourAddr, myAddr), env);
    GossipIff(r.node, id, env.alive, host, port);
    var ms := SendOtherPeers(r.node, id, env.alive);
    var first := Send(HandshakeResponse("V01", n.name, Addr(n.clients[id])));
    assert r.calls == [first] + Sends(ms);
    SendsContent(ms, OtherPeer(host, port));
    assert Send(OtherPeer(host, port)) in r.calls <==> Send(OtherPeer(host, port)) in Sends(ms);
  }

  lemma NodeKeepsClient(n: Node, id: nat, m: Message, env: Env)
    requires TableInv(n) && id < |n.clients| && MessageReceived(n, id, m, env).Ok?
    ensures var n1 := MessageReceived(n, id, m, env).value.node; id < |n1.clients| && Addr(n1.clients[id]) == Addr(n.clients[id])
  {
    hide TableInv, MessageReceived, IsKnown, Addr;
    KnownStays(n, id, m, env);
  }

  lemma SendsContent(ms: seq<Message>, m: Message)
    ensures Send(m) in Sends(ms) <==> m in ms
    ensures forall i | 0 <= i < |ms| :: Sends(ms)[i] == Send(ms[i])
  {
    if m in ms {
      var i :| 0 <= i < |ms| && ms[i] == m;
      assert Sends(ms)[i] == Send(m);
    }
  }

  /** An unreadable port does not stop the answer: it goes out before the exception. */
  lemma AnsweredBeforeThrowing(n: Node, id: nat, m: Message, env: Env)
    requires id < |n.clients| && Throws(m, IsKnown(n, id))
    ensures var script := NodeScript(n, id, m, env);
            && script.calls == [Send(HandshakeResponse("V01", n.name, n.clients[id].host + ":" + ToString(n.clients[id].port)))]
            && script.fault == Some(NumberFormat)
  {
    hide IsPeerConnected, MessageReceived, ToString;
    HandlerThrowsIff(n, id, m, env);
  }

  /** A ping is answered, on the wire, with the node's name and the text. */
  lemma PingIsAnswered(p: Party, c: Conn, n: Node, id: nat, text: string, env: Env)
    requires p.kind.Incoming? && p.app.NodeApp? && c.stream && c.buffer == "" && id < |n.clients|
    requires !(c.state == Closing || c.state == Closed) && IsToken(text) && p.io(c.log.calls) == 0
    requires p.app.handler(|c.log.received|, Ping(text)) == NodeScript(n, id, Ping(text), env)
    ensures var r := OnRead(p, c, |Wire([Ping(text)])|, Wire([Ping(text)]));
            && r.Ok? && r.value.stream && r.value.log.received == c.log.received + [Ping(text)]
            && r.value.log.wrote == c.log.wrote + ["PINGRESP Resp_from_" + n.name + "_to_" + text + "\n"]
  {
    var m := Ping(text);
    var reply := PingResponse("Resp_from_" + n.name + "_to_" + text);
    assert NodeScript(n, id, m, env) == Script([Send(reply)], None);
    WireHandled(p, c, [m]);
    hide Wire, NodeScript, OnRead, HandleAll;
    PerformSingle(p, Taken(c, m), Send(reply));
    HandleFirst(p, c, [m]);
    assert [m][1..] == [];
    ReplyText(n.name, text);
    HandleNone(p, SendMessage(p, Taken(c, m), reply).value);
  }

  lemma ReplyText(name: string, text: string)
    ensures Frame(PingResponse("Resp_from_" + name + "_to_" + text)) == "PINGRESP Resp_from_" + name + "_to_" + text + "\n"
  {
    AppendAssoc("PINGRESP ", "Resp_from_" + name + "_to_", text);
    AppendAssoc("PINGRESP ", "Resp_from_" + name, "_to_");
    AppendAssoc("PINGRESP ", "Resp_from_", name);
    assert "PINGRESP " + "Resp_from_" == "PINGRESP Resp_from_";
  }
}
