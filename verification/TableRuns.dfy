/** What the peer table keeps: the dial sweep as a filter, its fixpoint, dial budgets and the table invariant over every run. */
module TableRuns {
  import opened Text
  import opened Decimal
  import opened Messages
  import opened Endpoints
  import opened Connection
  import opened Ordering
  import opened PeerTable

  ghost predicate GoodCandidate(key: string, c: Candidate) {
    key == Key(c.host, c.port) && 0 <= c.connectedCount <= c.tryCount <= c.toTry && 1 <= c.toTry
  }

  /** The address of a peer entry; an entry without a client has none. */
  function PeerAddress(n: Node, p: PeerInfo): string {
    if p.client.Some? && p.client.value < |n.clients| then Addr(n.clients[p.client.value]) else ""
  }

  ghost predicate OutDistinct(n: Node, peers: seq<PeerInfo>) {
    forall i, j | 0 <= i < j < |peers| && peers[i].out && peers[j].out :: PeerAddress(n, peers[i]) != PeerAddress(n, peers[j])
  }

  ghost predicate GoodPeer(n: Node, p: PeerInfo) {
    p.client.Some? && p.client.value < |n.clients| && (p.out ==> PeerAddress(n, p) in n.cands)
  }

  ghost predicate TableInv(n: Node) {
    && (forall k | k in n.cands :: GoodCandidate(k, n.cands[k]))
    && (forall p | p in n.peers :: GoodPeer(n, p))
    && OutDistinct(n, n.peers)
  }

  // The sweep.

  ghost predicate Dialled(n: Node, key: string) {
    Due(n, key) && !IsSelf(n, n.cands[key].host, n.cands[key].port)
  }

  /** The keys whose turn makes an attempt, in iteration order. */
  ghost function DueKeys(n: Node, keys: seq<string>): (ks: seq<string>)
    ensures forall k :: k in ks <==> k in keys && Due(n, k)
  {
    if keys == [] then [] else (if Due(n, keys[0]) then [keys[0]] else []) + DueKeys(n, keys[1..])
  }

  /** The keys whose attempt is not a dial to the node itself. */
  ghost function DialKeys(n: Node, keys: seq<string>): (ks: seq<string>)
    ensures forall k :: k in ks <==> k in keys && Dialled(n, k)
  {
    if keys == [] then [] else (if Dialled(n, keys[0]) then [keys[0]] else []) + DialKeys(n, keys[1..])
  }

  /** New connection objects for the dialled keys. */
  ghost function NewClients(n: Node, keys: seq<string>): (cs: seq<Client>)
    requires forall k | k in keys :: k in n.cands
    ensures |cs| == |keys|
    ensures forall i | 0 <= i < |keys| :: cs[i] == Client(n.cands[keys[i]].host, n.cands[keys[i]].port, "", false)
  {
    if keys == [] then []
    else [Client(n.cands[keys[0]].host, n.cands[keys[0]].port, "", false)] + NewClients(n, keys[1..])
  }

  ghost function NewEntries(first: nat, count: nat): (ps: seq<PeerInfo>)
    ensures |ps| == count && forall i | 0 <= i < count :: ps[i] == PeerInfo(Some(first + i), true)
    decreases count
  {
    if count == 0 then [] else [PeerInfo(Some(first), true)] + NewEntries(first + 1, count - 1)
  }

  ghost function Counted(n: Node, key: string, res: string -> int): Candidate
    requires key in n.cands
  {
    var c := n.cands[key];
    if Due(n, key) then Bumped(c, IsSelf(n, c.host, c.port) || res(key) == 0) else c
  }

  /** Keys are printed from their entries, and peers refer to existing connections. */
  ghost predicate Sound(n: Node) {
    && (forall k | k in n.cands :: k == Key(n.cands[k].host, n.cands[k].port))
    && (forall i | 0 <= i < |n.peers| && n.peers[i].client.Some? :: n.peers[i].client.value < |n.clients|)
  }

  lemma SamePeers(n: Node, m: Node, addr: string, out: bool)
    requires m.peers == n.peers && m.clients == n.clients
    ensures IsPeerConnected(m, addr, out) <==> IsPeerConnected(n, addr, out)
  {
    forall i | 0 <= i < |n.peers| ensures Matches(m, m.peers[i], addr, out) <==> Matches(n, n.peers[i], addr, out) {
    }
  }

  /** One more outgoing peer makes its own address connected and no other. */
  lemma PushConnects(n: Node, host: string, port: int, addr: string)
    requires Sound(n) && addr != ""
    ensures IsPeerConnected(PushOut(n, host, port), addr, true) <==> IsPeerConnected(n, addr, true) || addr == Key(host, port)
  {
    var m := PushOut(n, host, port);
    var last := |n.peers|;
    assert Matches(m, m.peers[last], addr, true) <==> addr == Key(host, port);
    forall i | 0 <= i < last ensures Matches(m, m.peers[i], addr, true) <==> Matches(n, n.peers[i], addr, true) {
      assert m.peers[i] == n.peers[i];
    }
  }

  /** A turn that makes an attempt leaves everything but its own entry, one peer and the log alone. */
  lemma SweepKeyEffect(n: Node, key: string, res: string -> int)
    requires Sound(n) && key in n.cands
    ensures var n1 := SweepKey(n, key, res);
            var c := n.cands[key];
            && Sound(n1)
            && n1 == (if Dialled(n, key) then PushOut(n, c.host, c.port) else n)
                     .(cands := n.cands[key := Counted(n, key, res)],
                       dials := n.dials + if Due(n, key) then [key] else [])
  {
    var n1 := SweepKey(n, key, res);
    assert n.cands[key := n.cands[key]] == n.cands;
    assert n.dials + [] == n.dials;
    forall k | k in n1.cands ensures k == Key(n1.cands[k].host, n1.cands[k].port) {
      assert k in n.cands;
    }
  }

  lemma SweepKeyLocal(n: Node, key: string, res: string -> int, other: string)
    requires Sound(n) && key in n.cands && other in n.cands && other != key
    ensures var n1 := SweepKey(n, key, res);
            && n1.cands.Keys == n.cands.Keys && n1.cands[other] == n.cands[other] && n1.name == n.name
            && (Due(n1, other) <==> Due(n, other))
  {
    SweepKeyEffect(n, key, res);
    var n1 := SweepKey(n, key, res);
    var c := n.cands[key];
    PushConnects(n, c.host, c.port, other);
    SamePeers(if Dialled(n, key) then PushOut(n, c.host, c.port) else n, n1, other, true);
  }

  lemma {:induction false} FilterAgrees(n: Node, m: Node, keys: seq<string>)
    requires m.name == n.name
    requires forall k | k in keys :: k in n.cands && k in m.cands && m.cands[k] == n.cands[k] && (Due(m, k) <==> Due(n, k))
    ensures DueKeys(m, keys) == DueKeys(n, keys) && DialKeys(m, keys) == DialKeys(n, keys)
    decreases |keys|
  {
    if keys != [] {
      assert keys[0] in keys;
      assert forall k | k in keys[1..] :: k in keys;
      FilterAgrees(n, m, keys[1..]);
    }
  }

  ghost predicate Distinct(keys: seq<string>) {
    forall i, j | 0 <= i < j < |keys| :: keys[i] != keys[j]
  }

  /** Where the sweep loop ends up after visiting `keys`, told entirely in terms of where it started. */
  ghost predicate Filtered(n: Node, keys: seq<string>, res: string -> int, m: Node)
    requires forall k | k in keys :: k in n.cands
  {
    && m.name == n.name && m.adds == n.adds
    && FilteredPeers(n, DialKeys(n, keys), m)
    && m.dials == n.dials + DueKeys(n, keys)
    && FilteredCands(n, keys, res, m)
  }

  ghost predicate FilteredPeers(n: Node, d: seq<string>, m: Node)
    requires forall k | k in d :: k in n.cands
  {
    m.clients == n.clients + NewClients(n, d) && m.peers == n.peers + NewEntries(|n.clients|, |d|)
  }

  ghost predicate FilteredCands(n: Node, keys: seq<string>, res: string -> int, m: Node) {
    && m.cands.Keys == n.cands.Keys
    && forall k | k in n.cands :: m.cands[k] == if k in keys then Counted(n, k, res) else n.cands[k]
  }

  lemma {:induction false} SweepIsFilter(n: Node, keys: seq<string>, res: string -> int)
    requires Sound(n) && Distinct(keys) && forall k | k in keys :: k in n.cands
    ensures Filtered(n, keys, res, Sweep(n, keys, res))
    ensures Sound(Sweep(n, keys, res))
    decreases |keys|
  {
    hide SweepKey, Filtered, Sound, Due;
    if keys == [] {
      NothingFiltered(n, res);
    } else {
      var key, tail := keys[0], keys[1..];
      var n1 := SweepKey(n, key, res);
      SweepKeyEffect(n, key, res);
      forall k | k in tail
        ensures k != key && k in n.cands && k in n1.cands && n1.cands[k] == n.cands[k] && (Due(n1, k) <==> Due(n, k))
      {
        var i :| 0 <= i < |tail| && tail[i] == k;
        assert keys[i + 1] == k;
        SweepKeyLocal(n, key, res, k);
      }
      FilterAgrees(n, n1, tail);
      SweepIsFilter(n1, tail, res);
      FilterCons(n, key, tail, res, n1, Sweep(n1, tail, res));
      assert keys == [key] + tail;
    }
  }

  lemma {:induction false} NewClientsAgree(n: Node, m: Node, keys: seq<string>)
    requires forall k | k in keys :: k in n.cands && k in m.cands && m.cands[k] == n.cands[k]
    ensures NewClients(m, keys) == NewClients(n, keys)
    decreases |keys|
  {
    if keys != [] {
      assert keys[0] in keys && forall k | k in keys[1..] :: k in keys;
      NewClientsAgree(n, m, keys[1..]);
    }
  }

  lemma DialKeysCons(n: Node, key: string, tail: seq<string>)
    ensures DialKeys(n, [key] + tail) == if Dialled(n, key) then [key] + DialKeys(n, tail) else DialKeys(n, tail)
    ensures DueKeys(n, [key] + tail) == if Due(n, key) then [key] + DueKeys(n, tail) else DueKeys(n, tail)
  {
    hide Dialled, Due;
    assert ([key] + tail)[1..] == tail;
  }

  lemma NewClientsCons(n: Node, key: string, keys: seq<string>)
    requires key in n.cands && forall k | k in keys :: k in n.cands
    ensures NewClients(n, [key] + keys) == [Client(n.cands[key].host, n.cands[key].port, "", false)] + NewClients(n, keys)
  {
    assert ([key] + keys)[1..] == keys;
  }

  /** The first turn of the loop and the filtered rest give the filtered whole. */
  lemma FilterCons(n: Node, key: string, tail: seq<string>, res: string -> int, n1: Node, m: Node)
    requires Sound(n) && key in n.cands && n1 == SweepKey(n, key, res)
    requires forall k | k in tail ::
               k != key && k in n.cands && k in n1.cands && n1.cands[k] == n.cands[k] && (Due(n1, k) <==> Due(n, k))
    requires DueKeys(n1, tail) == DueKeys(n, tail) && DialKeys(n1, tail) == DialKeys(n, tail)
    requires Filtered(n1, tail, res, m)
    ensures Filtered(n, [key] + tail, res, m)
  {
    CountedCons(n, key, tail, res, n1, m);
    hide SweepKey, Sound, Counted, Due, Dialled, DueKeys, DialKeys, FilteredPeers, FilteredCands;
    DialKeysCons(n, key, tail);
    PeersCons(n, key, DialKeys(n, tail), res, n1, m);
    DialsCons(n, key, tail, res, n1, m);
  }

  lemma DialsCons(n: Node, key: string, tail: seq<string>, res: string -> int, n1: Node, m: Node)
    requires Sound(n) && key in n.cands && n1 == SweepKey(n, key, res)
    requires m.dials == n1.dials + DueKeys(n, tail) && m.name == n1.name && m.adds == n1.adds
    ensures m.dials == n.dials + DueKeys(n, [key] + tail) && m.name == n.name && m.adds == n.adds
  {
    hide SweepKey, Sound, Counted, Due, Dialled, DueKeys;
    SweepKeyEffect(n, key, res);
    DialKeysCons(n, key, tail);
    AppendAssoc(n.dials, if Due(n, key) then [key] else [], DueKeys(n, tail));
    assert [] + DueKeys(n, tail) == DueKeys(n, tail);
  }

  /** Peers and connection objects of the first turn and of the rest. */
  lemma PeersCons(n: Node, key: string, d: seq<string>, res: string -> int, n1: Node, m: Node)
    requires Sound(n) && key in n.cands && n1 == SweepKey(n, key, res)
    requires forall k | k in d :: k in n.cands && k in n1.cands && n1.cands[k] == n.cands[k]
    requires FilteredPeers(n1, d, m)
    ensures FilteredPeers(n, if Dialled(n, key) then [key] + d else d, m)
  {
    hide SweepKey, Sound, Counted, Due, Dialled, NewClients;
    SweepKeyEffect(n, key, res);
    NewClientsAgree(n, n1, d);
    if Dialled(n, key) {
      var c := n.cands[key];
      NewClientsCons(n, key, d);
      AppendAssoc(n.clients, [Client(c.host, c.port, "", false)], NewClients(n, d));
      AppendAssoc(n.peers, [PeerInfo(Some(|n.clients|), true)], NewEntries(|n.clients| + 1, |d|));
    }
  }

  lemma CountedCons(n: Node, key: string, tail: seq<string>, res: string -> int, n1: Node, m: Node)
    requires Sound(n) && key in n.cands && n1 == SweepKey(n, key, res)
    requires forall k | k in tail ::
               k != key && k in n.cands && k in n1.cands && n1.cands[k] == n.cands[k] && (Due(n1, k) <==> Due(n, k))
    requires FilteredCands(n1, tail, res, m)
    ensures FilteredCands(n, [key] + tail, res, m)
  {
    hide SweepKey, Sound, Due;
    SweepKeyEffect(n, key, res);
  }

  lemma NothingFiltered(n: Node, res: string -> int)
    ensures Filtered(n, [], res, n)
  {
    assert n.clients + [] == n.clients && n.peers + [] == n.peers && n.dials + [] == n.dials;
  }

  /** The dial sweep refines a one-shot filter: although each push is read by the next turn, the peers afterwards
      are the old ones followed, in key order, by exactly the candidates that were eligible, unconnected and
      not the node itself before the first turn; the attempts logged are exactly the due ones. */
  lemma SweepRefinesFilter(n: Node, res: string -> int)
    requires TableInv(n)
    ensures forall k :: k in SortedKeys(n.cands.Keys) ==> k in n.cands
    ensures Filtered(n, SortedKeys(n.cands.Keys), res, TryOutConnections(n, res))
  {
    InvIsSound(n);
    SweepIsFilter(n, SortedKeys(n.cands.Keys), res);
  }

  lemma InvIsSound(n: Node)
    requires TableInv(n)
    ensures Sound(n)
  {
    forall i | 0 <= i < |n.peers| && n.peers[i].client.Some? ensures n.peers[i].client.value < |n.clients| {
      assert GoodPeer(n, n.peers[i]);
    }
  }

  /** `m` has the peers of `n` and new ones at the addresses `d`. */
  ghost predicate Extended(n: Node, m: Node, d: seq<string>) {
    && (forall k | k in d :: k in n.cands)
    && m.clients == n.clients + NewClients(n, d) && m.peers == n.peers + NewEntries(|n.clients|, |d|)
  }

  lemma OldPeerMatches(n: Node, m: Node, d: seq<string>, i: nat, k: string)
    requires Sound(n) && Extended(n, m, d) && i < |n.peers|
    ensures m.peers[i] == n.peers[i]
    ensures Matches(m, m.peers[i], k, true) <==> Matches(n, n.peers[i], k, true)
    ensures PeerAddress(m, m.peers[i]) == PeerAddress(n, n.peers[i])
  {
  }

  lemma NewPeerMatches(n: Node, m: Node, d: seq<string>, i: nat, k: string)
    requires Sound(n) && Extended(n, m, d) && i < |d| && k != ""
    ensures m.peers[|n.peers| + i] == PeerInfo(Some(|n.clients| + i), true)
    ensures Matches(m, m.peers[|n.peers| + i], k, true) <==> d[i] == k
    ensures PeerAddress(m, m.peers[|n.peers| + i]) == d[i]
  {
    hide Key;
    assert d[i] in d;
    assert m.clients[|n.clients| + i] == Client(n.cands[d[i]].host, n.cands[d[i]].port, "", false);
  }

  lemma ExtendedConnected(n: Node, m: Node, d: seq<string>, k: string)
    requires Sound(n) && Extended(n, m, d) && k != ""
    ensures IsPeerConnected(m, k, true) <==> IsPeerConnected(n, k, true) || k in d
  {
    hide Matches, Extended, Sound;
    var was := |n.peers|;
    assert |m.peers| == was + |d| by { ExtendedLength(n, m, d); }
    if i :| 0 <= i < was && Matches(n, n.peers[i], k, true) {
      OldPeerMatches(n, m, d, i, k);
      assert Matches(m, m.peers[i], k, true);
    } else if i :| 0 <= i < |d| && d[i] == k {
      NewPeerMatches(n, m, d, i, k);
      assert Matches(m, m.peers[was + i], k, true);
    } else {
      forall i | 0 <= i < |m.peers| ensures !Matches(m, m.peers[i], k, true) {
        if i < was {
          OldPeerMatches(n, m, d, i, k);
        } else {
          NewPeerMatches(n, m, d, i - was, k);
        }
      }
    }
  }

  lemma ExtendedLength(n: Node, m: Node, d: seq<string>)
    requires Extended(n, m, d)
    ensures |m.peers| == |n.peers| + |d|
  {
  }

  /** What the filtered sweep leaves behind: the former peers as they were, new peers exactly at the dialled keys. */
  lemma SweepPeers(n: Node, res: string -> int, k: string)
    requires TableInv(n) && k in n.cands
    ensures var m := TryOutConnections(n, res);
            IsPeerConnected(m, k, true) <==> IsPeerConnected(n, k, true) || Dialled(n, k)
  {
    hide TryOutConnections, Dialled, Matches, Extended, IsPeerConnected, Sound;
    InvIsSound(n);
    SweepExtends(n, res);
    KeyIsNotEmpty(n.cands[k].host, n.cands[k].port);
    assert k != "" by { assert GoodCandidate(k, n.cands[k]); }
    ExtendedConnected(n, TryOutConnections(n, res), DialKeys(n, SortedKeys(n.cands.Keys)), k);
  }

  lemma SweepExtends(n: Node, res: string -> int)
    requires TableInv(n)
    ensures var (m, d) := (TryOutConnections(n, res), DialKeys(n, SortedKeys(n.cands.Keys)));
            Extended(n, m, d) && |m.peers| == |n.peers| + |d|
  {
    hide TryOutConnections;
    SweepRefinesFilter(n, res);
  }

  /** Name and connection objects after a sweep. */
  lemma SweepClients(n: Node, res: string -> int)
    requires TableInv(n)
    ensures var m := TryOutConnections(n, res);
            var d := DialKeys(n, SortedKeys(n.cands.Keys));
            && m.name == n.name && m.cands.Keys == n.cands.Keys
            && (forall k | k in d :: k in n.cands) && m.clients == n.clients + NewClients(n, d)
  {
    hide TryOutConnections, Counted, NewEntries, Dialled, Due;
    SweepRefinesFilter(n, res);
  }

  lemma SweepDials(n: Node, res: string -> int)
    requires TableInv(n)
    ensures TryOutConnections(n, res).dials == n.dials + DueKeys(n, SortedKeys(n.cands.Keys))
  {
    hide TryOutConnections, Counted, NewEntries, NewClients, Dialled, Due;
    SweepRefinesFilter(n, res);
  }

  lemma KeyIsNotEmpty(host: string, port: int)
    ensures Key(host, port) != ""
  {
  }

  /** A sweep leaves nothing to dial: every candidate is the node itself, connected outgoing, or exhausted. */
  lemma SweepSettles(n: Node, res: string -> int, k: string)
    requires TableInv(n) && k in n.cands
    ensures var m := TryOutConnections(n, res);
            && k in m.cands && !Dialled(m, k)
            && (IsSelf(m, m.cands[k].host, m.cands[k].port) || IsPeerConnected(m, k, true) || !Eligible(m.cands[k]))
  {
    hide TryOutConnections, IsPeerConnected;
    SweepRefinesFilter(n, res);
    SweepPeers(n, res, k);
    assert k in SortedKeys(n.cands.Keys);
  }

  /** A second sweep with nothing in between leaves the peers as they are. */
  lemma SweepIsFixpoint(n: Node, res: string -> int, res': string -> int)
    requires TableInv(n)
    ensures var m := TryOutConnections(n, res);
            TryOutConnections(m, res').peers == m.peers && TryOutConnections(m, res').clients == m.clients
  {
    hide TryOutConnections, Dialled;
    var m := TryOutConnections(n, res);
    SweepKeepsInv(n, res);
    SweepRefinesFilter(n, res);
    SweepRefinesFilter(m, res');
    var d := DialKeys(m, SortedKeys(m.cands.Keys));
    if d != [] {
      assert d[0] in d;
      SweepSettles(n, res, d[0]);
      assert false;
    }
  }

  lemma SweepCandidate(n: Node, res: string -> int, k: string)
    requires TableInv(n) && k in n.cands
    ensures var m := TryOutConnections(n, res); k in m.cands && m.cands[k] == Counted(n, k, res)
  {
    hide TryOutConnections, Counted, NewClients, NewEntries, DialKeys, DueKeys;
    SweepRefinesFilter(n, res);
    assert k in SortedKeys(n.cands.Keys);
  }

  lemma SweepAttempts(n: Node, res: string -> int, k: string)
    requires TableInv(n)
    ensures var m := TryOutConnections(n, res);
            && m.adds == n.adds && m.cands.Keys == n.cands.Keys
            && multiset(m.dials)[k] == multiset(n.dials)[k] + (if Due(n, k) then 1 else 0)
  {
    hide TryOutConnections, TableInv, Sound, Due;
    InvIsSound(n);
    DueAreTried(n, res, k);
  }

  /** Each due key is tried once, and no other, whatever the budgets. */
  lemma DueAreTried(n: Node, res: string -> int, k: string)
    requires Sound(n)
    ensures var m := TryOutConnections(n, res);
            && m.adds == n.adds && m.cands.Keys == n.cands.Keys
            && multiset(m.dials)[k] == multiset(n.dials)[k] + (if Due(n, k) then 1 else 0)
  {
    hide Counted, NewClients, NewEntries, DialKeys, IsPeerConnected, FilteredPeers, Sweep, Sound;
    SweepIsFilter(n, SortedKeys(n.cands.Keys), res);
    var keys := SortedKeys(n.cands.Keys);
    var due := DueKeys(n, keys);
    DialKeysDistinct(n, keys);
    CountDistinct(due, k);
    hide DueKeys, SortedKeys, FilteredCands;
    assert k in due <==> Due(n, k);
    assert multiset(n.dials + due) == multiset(n.dials) + multiset(due);
  }

  lemma SweepKeepsInv(n: Node, res: string -> int)
    requires TableInv(n)
    ensures TableInv(TryOutConnections(n, res))
    ensures TryOutConnections(n, res).cands.Keys == n.cands.Keys
  {
    hide TryOutConnections, Extended, DialKeys, GoodPeer, OutDistinct, Counted, GoodCandidate, SortedKeys, NewClients;
    SweepClients(n, res);
    SweepExtends(n, res);
    var m := TryOutConnections(n, res);
    forall k | k in m.cands ensures GoodCandidate(k, m.cands[k]) {
      SweepCandidate(n, res, k);
      CountedStaysGood(n, k, res);
    }
    NewPeersGood(n, m, DialKeys(n, SortedKeys(n.cands.Keys)));
  }

  lemma CountedStaysGood(n: Node, k: string, res: string -> int)
    requires k in n.cands && GoodCandidate(k, n.cands[k])
    ensures GoodCandidate(k, Counted(n, k, res))
  {
  }

  lemma {:induction false} DialKeysDistinct(n: Node, keys: seq<string>)
    requires Distinct(keys)
    ensures Distinct(DialKeys(n, keys)) && Distinct(DueKeys(n, keys))
    decreases |keys|
  {
    hide Dialled, Due;
    if keys != [] {
      DialKeysDistinct(n, keys[1..]);
      assert keys[0] !in keys[1..];
    }
  }

  /** The addresses of the extended list: the former ones, then the dialled keys. */
  lemma ExtendedAddress(n: Node, m: Node, d: seq<string>, i: nat)
    requires TableInv(n) && Extended(n, m, d) && m.cands.Keys == n.cands.Keys && i < |m.peers|
    ensures GoodPeer(m, m.peers[i])
    ensures if i < |n.peers| then m.peers[i] == n.peers[i] && PeerAddress(m, m.peers[i]) == PeerAddress(n, n.peers[i])
            else PeerAddress(m, m.peers[i]) == d[i - |n.peers|]
  {
    hide Extended, PeerAddress, Sound, GoodPeer, OutDistinct;
    InvIsSound(n);
    ExtendedLength(n, m, d);
    if i < |n.peers| {
      assert GoodPeer(n, n.peers[i]);
      OldEntry(n, m, d, i);
    } else {
      NewEntry(n, m, d, i - |n.peers|);
    }
  }

  lemma OldEntry(n: Node, m: Node, d: seq<string>, i: nat)
    requires Sound(n) && Extended(n, m, d) && m.cands.Keys == n.cands.Keys && i < |n.peers| && GoodPeer(n, n.peers[i])
    ensures i < |m.peers| && m.peers[i] == n.peers[i] && PeerAddress(m, m.peers[i]) == PeerAddress(n, n.peers[i])
    ensures GoodPeer(m, m.peers[i])
  {
    ExtendedLength(n, m, d);
    OldPeerMatches(n, m, d, i, "");
    hide Sound, Matches, PeerAddress;
  }

  lemma NewEntry(n: Node, m: Node, d: seq<string>, i: nat)
    requires Sound(n) && Extended(n, m, d) && m.cands.Keys == n.cands.Keys && i < |d|
    ensures |n.peers| + i < |m.peers| && PeerAddress(m, m.peers[|n.peers| + i]) == d[i] && GoodPeer(m, m.peers[|n.peers| + i])
  {
    hide Matches, PeerAddress;
    ExtendedLength(n, m, d);
    NewPeerMatches(n, m, d, i, "x");
    assert d[i] in d;
  }

  lemma NewPeersGood(n: Node, m: Node, d: seq<string>)
    requires TableInv(n) && d == DialKeys(n, SortedKeys(n.cands.Keys))
    requires m.cands.Keys == n.cands.Keys && Extended(n, m, d)
    ensures (forall p | p in m.peers :: GoodPeer(m, p)) && OutDistinct(m, m.peers)
  {
    hide DialKeys, SortedKeys, NewClients, Dialled, PeerAddress;
    DialKeysDistinct(n, SortedKeys(n.cands.Keys));
    forall i | 0 <= i < |m.peers| ensures GoodPeer(m, m.peers[i]) {
      ExtendedAddress(n, m, d, i);
    }
    forall i, j | 0 <= i < j < |m.peers| && m.peers[i].out && m.peers[j].out
      ensures PeerAddress(m, m.peers[i]) != PeerAddress(m, m.peers[j])
    {
      ExtendedAddress(n, m, d, i);
      ExtendedAddress(n, m, d, j);
      if i < |n.peers| <= j {
        assert d[j - |n.peers|] in d && GoodPeer(n, n.peers[i]);
        NotConnectedYet(n, i, d[j - |n.peers|]);
      }
    }
  }

  /** A dialled key is not the address of a peer that was already there. */
  lemma NotConnectedYet(n: Node, i: nat, key: string)
    requires i < |n.peers| && n.peers[i].out && GoodPeer(n, n.peers[i]) && Dialled(n, key)
    ensures PeerAddress(n, n.peers[i]) != key
  {
    assert !Matches(n, n.peers[i], key, true);
  }

  // Closing.

  lemma {:induction false} FilterKeptContents(n: Node, id: nat, peers: seq<PeerInfo>)
    requires id < |n.clients|
    ensures forall p :: p in FilterKept(n, id, peers) <==> p in peers && Kept(n, id, p)
    decreases |peers|
  {
    if peers != [] {
      FilterKeptContents(n, id, peers[1..]);
      assert peers == [peers[0]] + peers[1..];
    }
  }

  lemma {:induction false} FilterKeepsDistinct(n: Node, id: nat, peers: seq<PeerInfo>)
    requires id < |n.clients| && OutDistinct(n, peers)
    ensures OutDistinct(n, FilterKept(n, id, peers))
    decreases |peers|
  {
    if peers != [] {
      FilterKeepsDistinct(n, id, peers[1..]);
      FilterKeptContents(n, id, peers[1..]);
      var tail := FilterKept(n, id, peers[1..]);
      forall j | 0 <= j < |tail| && peers[0].out && tail[j].out ensures PeerAddress(n, peers[0]) != PeerAddress(n, tail[j]) {
        assert tail[j] in peers[1..];
        var i :| 0 <= i < |peers[1..]| && peers[1..][i] == tail[j];
        assert peers[i + 1] == tail[j];
      }
    }
  }

  lemma ClosedKeepsInv(n: Node, id: nat)
    requires TableInv(n) && id < |n.clients|
    ensures TableInv(ConnectionClosed(n, id))
    ensures forall p :: p in ConnectionClosed(n, id).peers ==>
              p.client != Some(id) && PeerAddress(n, p) != Addr(n.clients[id])
  {
    var m := ConnectionClosed(n, id);
    FilterKeptContents(n, id, n.peers);
    FilterKeepsDistinct(n, id, n.peers);
    forall p | p in m.peers ensures GoodPeer(m, p) && p.client != Some(id) && PeerAddress(n, p) != Addr(n.clients[id]) {
      assert GoodPeer(n, p);
    }
    assert OutDistinct(m, m.peers) by {
      assert forall p :: PeerAddress(m, p) == PeerAddress(n, p);
    }
  }

  /** The entries that stay are exactly the kept ones, each at its place in the former order. */
  lemma {:induction false} KeptInOrder(n: Node, id: nat, peers: seq<PeerInfo>) returns (at: seq<nat>)
    requires id < |n.clients|
    ensures var kept := FilterKept(n, id, peers);
            && |at| == |kept|
            && (forall k | 0 <= k < |at| :: at[k] < |peers| && peers[at[k]] == kept[k])
            && (forall j, k | 0 <= j < k < |at| :: at[j] < at[k])
            && (forall i | 0 <= i < |peers| :: Kept(n, id, peers[i]) <==> i in at)
    decreases |peers|
  {
    hide Kept;
    if peers == [] {
      at := [];
    } else {
      var rest := KeptInOrder(n, id, peers[1..]);
      var kept := FilterKept(n, id, peers[1..]);
      at := ShiftedPositions(peers, Kept(n, id, peers[0]), kept, rest);
      forall i | 0 < i < |peers| ensures Kept(n, id, peers[i]) <==> i in at {
        assert peers[i] == peers[1..][i - 1];
      }
    }
  }

  /** Positions in the tail, moved by one, with the head put in front when it stays. */
  lemma ShiftedPositions(peers: seq<PeerInfo>, first: bool, kept: seq<PeerInfo>, rest: seq<nat>) returns (at: seq<nat>)
    requires |peers| > 0 && |rest| == |kept|
    requires forall k | 0 <= k < |rest| :: rest[k] < |peers| - 1 && peers[1..][rest[k]] == kept[k]
    requires forall j, k | 0 <= j < k < |rest| :: rest[j] < rest[k]
    ensures var all := (if first then [peers[0]] else []) + kept;
            && |at| == |all|
            && (forall k | 0 <= k < |at| :: at[k] < |peers| && peers[at[k]] == all[k])
    ensures forall j, k | 0 <= j < k < |at| :: at[j] < at[k]
    ensures first <==> 0 in at
    ensures forall i | 0 < i < |peers| :: i - 1 in rest <==> i in at
  {
    var moved := seq(|rest|, k requires 0 <= k < |rest| => rest[k] + 1);
    at := (if first then [0] else []) + moved;
    forall i | 0 < i < |peers| ensures i - 1 in rest <==> i in at {
      if i - 1 in rest {
        var k :| 0 <= k < |rest| && rest[k] == i - 1;
        assert moved[k] == i;
      }
    }
  }

  // The other updates.

  lemma AddKeepsInv(n: Node, host: string, port: int32, toTry: int)
    requires TableInv(n) && toTry >= 1
    ensures TableInv(AddCandidate(n, host, port, toTry))
  {
    var m := AddCandidate(n, host, port, toTry);
    forall k | k in m.cands ensures GoodCandidate(k, m.cands[k]) {
      if k in n.cands {
        assert GoodCandidate(k, n.cands[k]);
      }
    }
    forall p | p in m.peers ensures GoodPeer(m, p) {
      assert GoodPeer(n, p);
    }
    assert forall p :: PeerAddress(m, p) == PeerAddress(n, p);
  }

  lemma AcceptKeepsInv(n: Node, host: string, port: int)
    requires TableInv(n)
    ensures TableInv(InConnection(n, host, port))
  {
    var m := InConnection(n, host, port);
    forall i | 0 <= i < |m.peers|
      ensures GoodPeer(m, m.peers[i])
      ensures i < |n.peers| ==> m.peers[i] == n.peers[i] && PeerAddress(m, m.peers[i]) == PeerAddress(n, n.peers[i])
    {
      if i < |n.peers| {
        assert GoodPeer(n, n.peers[i]);
      }
    }
  }

  /** Canonical address and connection state may change freely. */
  lemma ClientKeepsInv(n: Node, id: nat, c: Client)
    requires TableInv(n) && id < |n.clients| && Addr(c) == Addr(n.clients[id])
    ensures TableInv(WithClient(n, id, c))
  {
    var m := WithClient(n, id, c);
    forall p | p in n.peers ensures GoodPeer(m, p) && PeerAddress(m, p) == PeerAddress(n, p) {
      assert GoodPeer(n, p);
    }
    forall i, j | 0 <= i < j < |n.peers| && n.peers[i].out && n.peers[j].out
      ensures PeerAddress(m, m.peers[i]) != PeerAddress(m, m.peers[j])
    {
      assert n.peers[i] in n.peers && n.peers[j] in n.peers;
    }
  }

  lemma MessageKeepsInv(n: Node, id: nat, m: Message, env: Env)
    requires TableInv(n) && id < |n.clients|
    ensures var r := MessageReceived(n, id, m, env);
            r.Ok? ==> TableInv(r.value.node) && n.cands.Keys <= r.value.node.cands.Keys
  {
    hide TableInv, TryOutConnections, AddCandidate, HandshakeReceived;
    match m
    case Handshake(version, _, myAddr) => HandshakeKeepsInv(n, id, version, myAddr, env);
    case OtherPeer(host, port) => AddThenSweepKeepsInv(n, host, port, env.res);
    case _ =>
  }

  lemma AddThenSweepKeepsInv(n: Node, host: string, port: int32, res: string -> int)
    requires TableInv(n)
    ensures var m := TryOutConnections(AddCandidate(n, host, port, 1), res); TableInv(m) && n.cands.Keys <= m.cands.Keys
  {
    hide TableInv, TryOutConnections, Key;
    AddKeepsInv(n, host, port, 1);
    SweepKeepsInv(AddCandidate(n, host, port, 1), res);
  }

  lemma HandshakeKeepsInv(n: Node, id: nat, version: string, myAddr: string, env: Env)
    requires TableInv(n) && id < |n.clients|
    ensures var r := HandshakeReceived(n, id, version, myAddr, env);
            r.Ok? ==> TableInv(r.value.node) && n.cands.Keys <= r.value.node.cands.Keys
  {
    hide TableInv, LearnPeer, IsPeerConnected, SendOtherPeers, Stoi, Sends, Key;
    if myAddr != "" && Stoi(myAddr[1..]).Number? {
      LearnKeepsInv(n, id, Stoi(myAddr[1..]).n, env);
    }
  }

  lemma LearnKeepsInv(n: Node, id: nat, port: int32, env: Env)
    requires TableInv(n) && id < |n.clients|
    ensures var m := LearnPeer(n, id, port, env); TableInv(m) && n.cands.Keys <= m.cands.Keys
  {
    hide TableInv, TryOutConnections, AddCandidate, FromString;
    var c := n.clients[id];
    var host := FromString(Addr(c)).host;
    ClientKeepsInv(n, id, c.(canon := Key(host, port)));
    AddThenSweepKeepsInv(WithClient(n, id, c.(canon := Key(host, port))), host, port, env.res);
  }

  // Budgets.

  /** The sum of the budgets of all adds for a key. */
  function Budget(adds: seq<(string, int)>, key: string): int {
    if adds == [] then 0
    else Budget(adds[..|adds| - 1], key) + if adds[|adds| - 1].0 == key then adds[|adds| - 1].1 else 0
  }

  lemma BudgetAppend(adds: seq<(string, int)>, key: string, add: (string, int))
    ensures Budget(adds + [add], key) == Budget(adds, key) + if add.0 == key then add.1 else 0
  {
    assert (adds + [add])[..|adds|] == adds;
  }

  /** For each key: attempts made == its count, and its allowance is within the budgets given so far. */
  ghost predicate KeyWithinBudget(n: Node, k: string) {
    if k in n.cands then multiset(n.dials)[k] == n.cands[k].tryCount && n.cands[k].toTry <= Budget(n.adds, k)
    else multiset(n.dials)[k] == 0 && Budget(n.adds, k) == 0
  }

  ghost predicate BudgetInv(n: Node) {
    forall k :: KeyWithinBudget(n, k)
  }

  lemma AddKeepsBudget(n: Node, host: string, port: int32, toTry: int, k: string)
    requires TableInv(n) && KeyWithinBudget(n, k)
    ensures KeyWithinBudget(AddCandidate(n, host, port, toTry), k)
  {
    BudgetAppend(n.adds, k, (Key(host, port), toTry));
    if k in n.cands {
      assert GoodCandidate(k, n.cands[k]);
    }
  }

  /** How many attempts a candidate still has. */
  function Allowance(c: Candidate): int {
    c.toTry - c.tryCount
  }

  /** An add grants exactly its budget from now on, whether it raises or lowers what was left; nothing else changes. */
  lemma AddGrants(n: Node, host: string, port: int32, toTry: int)
    requires TableInv(n)
    ensures var m := AddCandidate(n, host, port, toTry);
            var key := Key(host, port);
            && m.cands.Keys == n.cands.Keys + {key}
            && Allowance(m.cands[key]) == toTry
            && (m.cands[key].host, m.cands[key].port) == (host, port)
            && (key in n.cands ==> m.cands[key] == n.cands[key].(toTry := m.cands[key].toTry))
            && (key !in n.cands ==> m.cands[key].tryCount == m.cands[key].connectedCount == 0)
            && (forall k | k in n.cands && k != key :: m.cands[k] == n.cands[k])
            && m.peers == n.peers && m.clients == n.clients && m.name == n.name
  {
    var key := Key(host, port);
    if key in n.cands {
      assert GoodCandidate(key, n.cands[key]);
      KeyInjective(host, port, n.cands[key].host, n.cands[key].port);
    }
  }

  /** A sweep takes one attempt from every candidate it tries and none from the others,
      and it tries exactly the unconnected ones that have attempts left. */
  lemma SweepSpends(n: Node, res: string -> int, k: string)
    requires TableInv(n) && k in n.cands
    ensures var m := TryOutConnections(n, res);
            && k in m.cands
            && Allowance(m.cands[k]) == Allowance(n.cands[k]) - (if Due(n, k) then 1 else 0)
            && multiset(m.dials)[k] == multiset(n.dials)[k] + (if Due(n, k) then 1 else 0)
    ensures Due(n, k) <==> Allowance(n.cands[k]) > 0 && !IsPeerConnected(n, k, true)
  {
    hide TryOutConnections, IsPeerConnected;
    assert GoodCandidate(k, n.cands[k]);
    SweepCandidate(n, res, k);
    SweepAttempts(n, res, k);
  }

  lemma {:induction false} CountDistinct(ks: seq<string>, k: string)
    requires Distinct(ks)
    ensures multiset(ks)[k] == if k in ks then 1 else 0
    decreases |ks|
  {
    if ks != [] {
      CountDistinct(ks[1..], k);
      assert ks == [ks[0]] + ks[1..];
      assert ks[0] !in ks[1..];
    }
  }

  lemma SweepKeepsBudget(n: Node, res: string -> int, k: string)
    requires TableInv(n) && KeyWithinBudget(n, k)
    ensures KeyWithinBudget(TryOutConnections(n, res), k)
  {
    hide TryOutConnections, IsPeerConnected, TableInv;
    SweepAttempts(n, res, k);
    if k in n.cands {
      SweepCandidate(n, res, k);
    }
  }

  // Runs.

  datatype NodeEvent =
    | AddEvent(host: string, port: int32, toTry: int)
    | SweepEvent(res: string -> int)
    | AcceptEvent(remoteHost: string, remotePort: int)
    | StatusEvent(id: nat, canon: string, connected: bool)
    | ClosedEvent(id: nat)
    | MessageEvent(id: nat, message: Message, env: Env)

  /** Callers give positive budgets; callbacks concern connections that exist. */
  predicate Allowed(n: Node, e: NodeEvent) {
    match e
    case AddEvent(_, _, toTry) => toTry >= 1
    case StatusEvent(id, _, _) => id < |n.clients|
    case ClosedEvent(id) => id < |n.clients|
    case MessageEvent(id, _, _) => id < |n.clients|
    case _ => true
  }

  ghost function TableStep(n: Node, e: NodeEvent): Outcome<Node>
    requires Allowed(n, e)
  {
    match e
    case AddEvent(host, port, toTry) => Ok(AddCandidate(n, host, port, toTry))
    case SweepEvent(res) => Ok(TryOutConnections(n, res))
    case AcceptEvent(host, port) => Ok(InConnection(n, host, port))
    case StatusEvent(id, canon, connected) => Ok(WithClient(n, id, n.clients[id].(canon := canon, connected := connected)))
    case ClosedEvent(id) => Ok(ConnectionClosed(n, id))
    case MessageEvent(id, m, env) =>
      var r :- MessageReceived(n, id, m, env);
      Ok(r.node)
  }

  /** The node after a run; an exception ends the process, so a run has only completed events. */
  ghost predicate NodeRun(n: Node, events: seq<NodeEvent>, m: Node)
    decreases |events|
  {
    if events == [] then n == m
    else Allowed(n, events[0]) && match TableStep(n, events[0]) case Ok(n1) => NodeRun(n1, events[1..], m) case Abort(_) => false
  }

  lemma AddThenSweepKeepsBudget(n: Node, host: string, port: int32, res: string -> int, k: string)
    requires TableInv(n) && KeyWithinBudget(n, k)
    ensures KeyWithinBudget(TryOutConnections(AddCandidate(n, host, port, 1), res), k)
  {
    hide TryOutConnections, TableInv, KeyWithinBudget, AddCandidate;
    AddKeepsInv(n, host, port, 1);
    AddKeepsBudget(n, host, port, 1, k);
    SweepKeepsBudget(AddCandidate(n, host, port, 1), res, k);
  }

  lemma MessageKeepsBudget(n: Node, id: nat, m: Message, env: Env, k: string)
    requires TableInv(n) && id < |n.clients| && KeyWithinBudget(n, k)
    ensures var r := MessageReceived(n, id, m, env); r.Ok? ==> KeyWithinBudget(r.value.node, k)
  {
    hide TableInv, TryOutConnections, AddCandidate, IsPeerConnected, SendOtherPeers;
    match m
    case Handshake(_, _, myAddr) =>
      if myAddr != "" && Stoi(myAddr[1..]).Number? {
        var c, port := n.clients[id], Stoi(myAddr[1..]).n;
        var host := FromString(Addr(c)).host;
        ClientKeepsInv(n, id, c.(canon := Key(host, port)));
        AddThenSweepKeepsBudget(WithClient(n, id, c.(canon := Key(host, port))), host, port, env.res, k);
      }
    case OtherPeer(host, port) => AddThenSweepKeepsBudget(n, host, port, env.res, k);
    case _ =>
  }

  lemma StepKeeps(n: Node, e: NodeEvent)
    requires TableInv(n) && BudgetInv(n) && Allowed(n, e) && TableStep(n, e).Ok?
    ensures var m := TableStep(n, e).value;
            TableInv(m) && BudgetInv(m) && n.cands.Keys <= m.cands.Keys
  {
    hide TableInv, KeyWithinBudget, TryOutConnections, MessageReceived;
    var m := TableStep(n, e).value;
    match e {
      case AddEvent(host, port, toTry) => AddKeepsInv(n, host, port, toTry);
      case SweepEvent(res) => SweepKeepsInv(n, res);
      case AcceptEvent(host, port) => AcceptKeepsInv(n, host, port);
      case StatusEvent(id, canon, connected) =>
        ClientKeepsInv(n, id, n.clients[id].(canon := canon, connected := connected));
      case ClosedEvent(id) => ClosedKeepsInv(n, id);
      case MessageEvent(id, message, env) => MessageKeepsInv(n, id, message, env);
    }
    forall k ensures KeyWithinBudget(m, k) {
      assert KeyWithinBudget(n, k);
      StepKeepsBudget(n, e, k);
    }
  }

  lemma StepKeepsBudget(n: Node, e: NodeEvent, k: string)
    requires TableInv(n) && KeyWithinBudget(n, k) && Allowed(n, e) && TableStep(n, e).Ok?
    ensures KeyWithinBudget(TableStep(n, e).value, k)
  {
    hide TableInv, TryOutConnections, MessageReceived, AddCandidate;
    match e
    case AddEvent(host, port, toTry) => AddKeepsBudget(n, host, port, toTry, k);
    case SweepEvent(res) => SweepKeepsBudget(n, res, k);
    case MessageEvent(id, message, env) => MessageKeepsBudget(n, id, message, env, k);
    case _ =>
  }

  /** Over every run the table invariant holds, candidates are never lost, and the attempts made for a key are
      exactly its count, which never exceeds the sum of the budgets given for that key. */
  lemma {:induction false} RunKeeps(n: Node, events: seq<NodeEvent>, m: Node)
    requires TableInv(n) && BudgetInv(n) && NodeRun(n, events, m)
    ensures TableInv(m) && BudgetInv(m) && n.cands.Keys <= m.cands.Keys
    decreases |events|
  {
    if events != [] {
      hide TableInv, BudgetInv, TableStep;
      StepKeeps(n, events[0]);
      RunKeeps(TableStep(n, events[0]).value, events[1..], m);
    }
  }

  lemma EmptyNodeGood(name: string)
    ensures TableInv(EMPTY.(name := name)) && BudgetInv(EMPTY.(name := name))
  {
  }

  lemma DialBudget(name: string, events: seq<NodeEvent>, m: Node, k: string)
    requires NodeRun(EMPTY.(name := name), events, m)
    ensures TableInv(m) && multiset(m.dials)[k] <= Budget(m.adds, k)
    ensures k in m.cands ==> multiset(m.dials)[k] == m.cands[k].tryCount <= m.cands[k].toTry
  {
    EmptyNodeGood(name);
    RunKeeps(EMPTY.(name := name), events, m);
    assert KeyWithinBudget(m, k);
    if k in m.cands {
      assert GoodCandidate(k, m.cands[k]);
    }
  }

  // Dials and closes.

  /** An outgoing peer at this address is listed. */
  ghost predicate HasOut(n: Node, key: string) {
    exists i :: 0 <= i < |n.peers| && n.peers[i].out && PeerAddress(n, n.peers[i]) == key
  }

  function One(b: bool): int {
    if b then 1 else 0
  }

  /** Attempts for a key beyond the one that its listed peer accounts for. */
  ghost function Spare(n: Node, key: string): int {
    multiset(n.dials)[key] - One(HasOut(n, key))
  }

  lemma ListedBlocks(n: Node, key: string)
    requires TableInv(n) && HasOut(n, key) && key != ""
    ensures IsPeerConnected(n, key, true)
  {
    var i :| 0 <= i < |n.peers| && n.peers[i].out && PeerAddress(n, n.peers[i]) == key;
    assert Matches(n, n.peers[i], key, true);
  }

  /** A candidate that has been dialled is not dialled again while its peer is listed, however the dial went and
      whatever budget is left. */
  lemma NoRetry(n: Node, res: string -> int, k: string)
    requires TableInv(n) && Dialled(n, k)
    ensures !Due(TryOutConnections(n, res), k) && HasOut(TryOutConnections(n, res), k)
  {
    hide TryOutConnections, IsPeerConnected, Extended, DialKeys, SortedKeys;
    SweepPeers(n, res, k);
    SweepExtends(n, res);
    InvIsSound(n);
    var m, d := TryOutConnections(n, res), DialKeys(n, SortedKeys(n.cands.Keys));
    assert k in SortedKeys(n.cands.Keys) && k in d;
    var i :| 0 <= i < |d| && d[i] == k;
    assert GoodCandidate(k, n.cands[k]);
    KeyIsNotEmpty(n.cands[k].host, n.cands[k].port);
    NewPeerMatches(n, m, d, i, k);
    assert m.peers[|n.peers| + i].out;
  }

  lemma SweepKeepsListed(n: Node, res: string -> int, key: string)
    requires TableInv(n) && HasOut(n, key)
    ensures HasOut(TryOutConnections(n, res), key)
  {
    hide TryOutConnections, Extended, DialKeys, SortedKeys, PeerAddress;
    SweepExtends(n, res);
    InvIsSound(n);
    var m := TryOutConnections(n, res);
    var i :| 0 <= i < |n.peers| && n.peers[i].out && PeerAddress(n, n.peers[i]) == key;
    OldPeerMatches(n, m, DialKeys(n, SortedKeys(n.cands.Keys)), i, key);
    assert m.peers[i].out && PeerAddress(m, m.peers[i]) == key;
  }

  /** A sweep tries a key that is not the node itself only when no peer is listed for it. */
  lemma SweepSpares(n: Node, res: string -> int, host: string, port: int)
    requires TableInv(n) && !IsSelf(n, host, port)
    ensures Spare(TryOutConnections(n, res), Key(host, port)) <= Spare(n, Key(host, port))
  {
    hide TryOutConnections, IsPeerConnected, HasOut, Key;
    var key := Key(host, port);
    SweepAttempts(n, res, key);
    if Due(n, key) {
      assert GoodCandidate(key, n.cands[key]);
      KeyInjective(host, port, n.cands[key].host, n.cands[key].port);
      NoRetry(n, res, key);
      KeyIsNotEmpty(host, port);
      if HasOut(n, key) {
        ListedBlocks(n, key);
      }
    } else if HasOut(n, key) {
      SweepKeepsListed(n, res, key);
    }
  }

  lemma AddThenSweepSpares(n: Node, h: string, p: int32, res: string -> int, host: string, port: int)
    requires TableInv(n) && !IsSelf(n, host, port)
    ensures Spare(TryOutConnections(AddCandidate(n, h, p, 1), res), Key(host, port)) <= Spare(n, Key(host, port))
  {
    hide TryOutConnections, Key;
    var n1 := AddCandidate(n, h, p, 1);
    AddKeepsInv(n, h, p, 1);
    SweepSpares(n1, res, host, port);
    SameListed(n, n1, Key(host, port));
  }

  /** The listing depends on the peers and on the addresses of the connection objects. */
  lemma SameListed(n: Node, m: Node, key: string)
    requires TableInv(n) && m.peers == n.peers && |m.clients| == |n.clients|
    requires forall id | 0 <= id < |n.clients| :: Addr(m.clients[id]) == Addr(n.clients[id])
    ensures HasOut(m, key) <==> HasOut(n, key)
  {
    hide Addr;
    forall i | 0 <= i < |n.peers| ensures PeerAddress(m, m.peers[i]) == PeerAddress(n, n.peers[i]) {
      assert GoodPeer(n, n.peers[i]);
    }
  }

  lemma AcceptKeepsListed(n: Node, host: string, port: int, key: string)
    requires TableInv(n)
    ensures HasOut(InConnection(n, host, port), key) <==> HasOut(n, key)
  {
    hide Addr;
    var m := InConnection(n, host, port);
    forall i | 0 <= i < |n.peers| ensures m.peers[i] == n.peers[i] && PeerAddress(m, m.peers[i]) == PeerAddress(n, n.peers[i]) {
      assert GoodPeer(n, n.peers[i]);
    }
    assert !m.peers[|n.peers|].out;
  }

  lemma CloseKeepsListed(n: Node, id: nat, key: string)
    requires id < |n.clients| && TableInv(n) && Addr(n.clients[id]) != key && HasOut(n, key)
    ensures HasOut(ConnectionClosed(n, id), key)
  {
    var i :| 0 <= i < |n.peers| && n.peers[i].out && PeerAddress(n, n.peers[i]) == key;
    FilterKeptContents(n, id, n.peers);
    assert GoodPeer(n, n.peers[i]) && Kept(n, id, n.peers[i]);
    var m := ConnectionClosed(n, id);
    var j :| 0 <= j < |m.peers| && m.peers[j] == n.peers[i];
    assert PeerAddress(m, m.peers[j]) == key;
  }

  /** The close is one at the address `key`. */
  predicate ClosesKey(n: Node, e: NodeEvent, key: string) {
    e.ClosedEvent? && e.id < |n.clients| && Addr(n.clients[e.id]) == key
  }

  ghost function ClosesAt(n: Node, events: seq<NodeEvent>, key: string): nat
    decreases |events|
  {
    if events == [] || !Allowed(n, events[0]) || TableStep(n, events[0]).Abort? then 0
    else (if ClosesKey(n, events[0], key) then 1 else 0) + ClosesAt(TableStep(n, events[0]).value, events[1..], key)
  }

  lemma MessageSpares(n: Node, id: nat, m: Message, env: Env, host: string, port: int)
    requires TableInv(n) && id < |n.clients| && !IsSelf(n, host, port)
    ensures var r := MessageReceived(n, id, m, env);
            r.Ok? ==> Spare(r.value.node, Key(host, port)) <= Spare(n, Key(host, port)) && r.value.node.name == n.name
  {
    hide TableInv, TryOutConnections, AddCandidate, IsPeerConnected, SendOtherPeers, Spare, Key, IsSelf, Stoi, FromString;
    match m
    case Handshake(_, _, myAddr) =>
      if myAddr != "" && Stoi(myAddr[1..]).Number? {
        LearnSpares(n, id, Stoi(myAddr[1..]).n, env, host, port);
      }
    case OtherPeer(h, p) =>
      AddThenSweepSpares(n, h, p, env.res, host, port);
      AddThenSweepName(n, h, p, env.res);
    case _ =>
  }

  lemma AddThenSweepName(n: Node, h: string, p: int32, res: string -> int)
    requires TableInv(n)
    ensures TryOutConnections(AddCandidate(n, h, p, 1), res).name == n.name
  {
    hide TableInv, TryOutConnections, Key;
    AddKeepsInv(n, h, p, 1);
    SweepClients(AddCandidate(n, h, p, 1), res);
  }

  lemma LearnSpares(n: Node, id: nat, p: int32, env: Env, host: string, port: int)
    requires TableInv(n) && id < |n.clients| && !IsSelf(n, host, port)
    ensures var m := LearnPeer(n, id, p, env);
            Spare(m, Key(host, port)) <= Spare(n, Key(host, port)) && m.name == n.name
  {
    hide TableInv, TryOutConnections, AddCandidate, Key, FromString, HasOut;
    var c := n.clients[id];
    var h := FromString(Addr(c)).host;
    var c1 := c.(canon := Key(h, p));
    var n1 := WithClient(n, id, c1);
    ClientKeepsInv(n, id, c1);
    AddThenSweepSpares(n1, h, p, env.res, host, port);
    AddThenSweepName(n1, h, p, env.res);
    SameListed(n, n1, Key(host, port));
  }

  lemma StepSpares(n: Node, e: NodeEvent, host: string, port: int)
    requires TableInv(n) && Allowed(n, e) && TableStep(n, e).Ok? && !IsSelf(n, host, port)
    ensures var m := TableStep(n, e).value;
            && Spare(m, Key(host, port)) <= Spare(n, Key(host, port)) + One(ClosesKey(n, e, Key(host, port)))
            && m.name == n.name
  {
    hide TableInv, TryOutConnections, MessageReceived, HasOut, Key, FilterKept;
    var key, m := Key(host, port), TableStep(n, e).value;
    match e
    case AddEvent(_, _, _) => SameListed(n, m, key);
    case SweepEvent(res) =>
      SweepSpares(n, res, host, port);
      SweepClients(n, res);
    case AcceptEvent(h, p) => AcceptKeepsListed(n, h, p, key);
    case StatusEvent(_, _, _) => SameListed(n, m, key);
    case ClosedEvent(id) =>
      if HasOut(n, key) && Addr(n.clients[id]) != key {
        CloseKeepsListed(n, id, key);
      }
    case MessageEvent(id, message, env) => MessageSpares(n, id, message, env, host, port);
  }

  lemma {:induction false} RunSpares(n: Node, events: seq<NodeEvent>, m: Node, host: string, port: int)
    requires TableInv(n) && BudgetInv(n) && NodeRun(n, events, m) && !IsSelf(n, host, port)
    ensures Spare(m, Key(host, port)) <= Spare(n, Key(host, port)) + ClosesAt(n, events, Key(host, port))
    decreases |events|
  {
    if events != [] {
      hide TableInv, BudgetInv, TableStep, Spare, Key, ClosesKey;
      StepSpares(n, events[0], host, port);
      StepKeeps(n, events[0]);
      RunSpares(TableStep(n, events[0]).value, events[1..], m, host, port);
    }
  }

  /** Over every run, an address that is not the node itself is tried at most once more than connections at it are
      closed. A failed dial is not reported as closed, so its candidate is not tried again, whatever its budget. */
  lemma DialsBoundedByCloses(name: string, events: seq<NodeEvent>, m: Node, host: string, port: int)
    requires NodeRun(EMPTY.(name := name), events, m) && !IsSelf(EMPTY.(name := name), host, port)
    ensures multiset(m.dials)[Key(host, port)] <= 1 + ClosesAt(EMPTY.(name := name), events, Key(host, port))
  {
    hide NodeRun, ClosesAt, Key;
    EmptyNodeGood(name);
    RunSpares(EMPTY.(name := name), events, m, host, port);
  }
}
