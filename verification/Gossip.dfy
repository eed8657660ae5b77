/** What a node tells its peers about the others (node/node.cpp:323-362). */
module Gossip {
  import opened Decimal
  import opened Messages
  import opened Endpoints
  import opened Ordering
  import opened PeerTable

  /** The form of canonical addresses in an IPv4 network. */
  ghost predicate Canonical(a: string) {
    exists host, port: int32 :: ':' !in host && a == Key(host, port)
  }

  function Reprints(eps: seq<Endpoint>): (keys: seq<string>)
    ensures |keys| == |eps|
  {
    if eps == [] then [] else [GetEndpoint(eps[0])] + Reprints(eps[1..])
  }

  function SentKeys(ms: seq<Message>): seq<string> {
    if ms == [] then []
    else (if ms[0].OtherPeer? then [Key(ms[0].host, ms[0].port)] else []) + SentKeys(ms[1..])
  }

  function Without(keys: seq<string>, own: string): seq<string> {
    if keys == [] then [] else (if keys[0] != own then [keys[0]] else []) + Without(keys[1..], own)
  }

  lemma ReprintsParsed(k: string, keys: seq<string>)
    requires GetEndpoint(FromString(k)) == k
    ensures Reprints(ParseAll([k] + keys)) == [k] + Reprints(ParseAll(keys))
  {
    hide GetEndpoint, FromString;
    ParseAllCons(k, keys);
    assert ([FromString(k)] + ParseAll(keys))[1..] == ParseAll(keys);
  }

  lemma {:induction false} ParsedKeysReprint(keys: seq<string>)
    requires forall k | k in keys :: Canonical(k)
    ensures Reprints(ParseAll(keys)) == keys
    decreases |keys|
  {
    hide FromString, GetEndpoint, Canonical, Reprints, ParseAll;
    if keys == [] {
      NothingReprints();
    } else {
      assert keys[0] in keys && forall k | k in keys[1..] :: k in keys;
      CanonicalReprints(keys[0]);
      ParsedKeysReprint(keys[1..]);
      ReprintsParsed(keys[0], keys[1..]);
      assert keys == [keys[0]] + keys[1..];
    }
  }

  lemma NothingReprints()
    ensures Reprints(ParseAll([])) == []
  {
  }

  lemma CanonicalReprints(k: string)
    requires Canonical(k)
    ensures GetEndpoint(FromString(k)) == k
  {
    ReprintIff(k);
  }

  lemma {:induction false} OffersSend(eps: seq<Endpoint>, own: string)
    ensures SentKeys(Offers(eps, own)) == Without(Reprints(eps), own)
    decreases |eps|
  {
    if eps != [] {
      hide Key;
      OffersSend(eps[1..], own);
      var tail := Offers(eps[1..], own);
      assert Reprints(eps)[1..] == Reprints(eps[1..]);
      assert [] + tail == tail;
      if GetEndpoint(eps[0]) != own {
        assert ([OtherPeer(eps[0].host, eps[0].port)] + tail)[1..] == tail;
      }
    }
  }

  lemma {:induction false} ReprintsPrefix(eps: seq<Endpoint>, t: nat)
    requires t <= |eps|
    ensures Reprints(eps[..t]) == Reprints(eps)[..t]
    decreases |eps|
  {
    if t > 0 {
      hide GetEndpoint;
      ReprintsPrefix(eps[1..], t - 1);
      assert eps[..t][1..] == eps[1..][..t - 1];
    } else {
      assert eps[..0] == [];
    }
  }

  /** When canonical addresses have their proper form, the endpoints collected are exactly those of the connected
      peers, strictly sorted and so without duplicates, and each prints as the address it came from. */
  lemma ConnectedPeersExact(n: Node)
    requires forall a | Offered(n, a) :: Canonical(a)
    ensures var keys := Reprints(ConnectedPeers(n));
            && StrictlySorted(keys)
            && (forall a :: a in keys <==> Offered(n, a))
            && keys == SortedKeys(OfferedSet(n))
  {
    ParsedKeysReprint(SortedKeys(OfferedSet(n)));
  }

  /** The OPEER messages sent are, in order, the connected peers' canonical addresses up to where the recipient
      drops out, the recipient's own address left out; all of them if it stays. */
  lemma GossipExact(n: Node, id: nat, alive: nat -> bool)
    requires id < |n.clients| && forall a | Offered(n, a) :: Canonical(a)
    ensures var (all, own) := (SortedKeys(OfferedSet(n)), Addr(n.clients[id]));
            var t := Turns(|all|, alive);
            && SentKeys(SendOtherPeers(n, id, alive)) == Without(all[..t], own)
            && (t == |all| <==> forall i :: 0 <= i < |all| ==> alive(i))
  {
    hide SortedKeys, OfferedSet;
    ConnectedPeersExact(n);
    var eps := ConnectedPeers(n);
    var t := Turns(|eps|, alive);
    OffersSend(eps[..t], Addr(n.clients[id]));
    ReprintsPrefix(eps, t);
  }

  /** Every message sent is an OPEER for a connected peer. */
  lemma {:induction false} OffersContent(eps: seq<Endpoint>, own: string, m: Message)
    requires m in Offers(eps, own)
    ensures m.OtherPeer? && exists i :: 0 <= i < |eps| && eps[i] == Endpoint(m.host, m.port)
    decreases |eps|
  {
    hide GetEndpoint;
    var tail := Offers(eps[1..], own);
    if m in tail {
      OffersContent(eps[1..], own, m);
      var i :| 0 <= i < |eps[1..]| && eps[1..][i] == Endpoint(m.host, m.port);
      assert eps[i + 1] == Endpoint(m.host, m.port);
    } else {
      assert eps[0] == Endpoint(m.host, m.port);
    }
  }

  lemma {:induction false} ParseAllAt(keys: seq<string>, i: nat)
    requires i < |keys|
    ensures ParseAll(keys)[i] == FromString(keys[i])
    decreases |keys|
  {
    hide FromString;
    if i > 0 {
      ParseAllAt(keys[1..], i - 1);
    }
  }

  lemma SentIsOffered(n: Node, id: nat, alive: nat -> bool, m: Message)
    requires id < |n.clients| && m in SendOtherPeers(n, id, alive)
    requires forall a | Offered(n, a) :: Canonical(a)
    ensures m.OtherPeer? && Offered(n, Key(m.host, m.port))
  {
    hide FromString, Turns, Canonical;
    var keys := SortedKeys(OfferedSet(n));
    var eps := ConnectedPeers(n);
    var t := Turns(|eps|, alive);
    OffersContent(eps[..t], Addr(n.clients[id]), m);
    var i :| 0 <= i < t && eps[i] == Endpoint(m.host, m.port);
    ParseAllAt(keys, i);
    assert keys[i] in keys;
    CanonicalReprints(keys[i]);
  }
}
