/** lib/net_client.cpp and node/peer_conn.cpp: the connection object, updated in place by its callbacks. */
module NetClients {
  import opened Text
  import opened Decimal
  import opened Messages
  import opened Framing
  import opened Connection
  import C = Connection

  /** The connection object. A pointer field is represented by whether it is null. */
  class NetClient {
    const party: Party
    var myState: State
    var myUvStream: bool
    var myReceiveBuffer: string
    var mySendCounter: nat
    var myCanonPeerAddr: string
    var log: Log

    function Abs(): Conn
      reads this
    {
      Conn(myState, myUvStream, myReceiveBuffer, mySendCounter, myCanonPeerAddr, log)
    }

    /** The object agrees with what the function says, down to the way of dying. */
    ghost predicate Meets(r: Outcome<()>, expected: Outcome<Conn>)
      reads this
    {
      match expected
      case Ok(c) => r == Ok(()) && Abs() == c
      case Abort(f) => r == Abort(f)
    }

    constructor (party: Party)
      ensures this.party == party && Abs() == NEW
    {
      this.party := party;
      myState, myUvStream, myReceiveBuffer, mySendCounter, myCanonPeerAddr := NotConnected, false, "", 0, "";
      log := NEW.log;
    }

    method SendMessage(m: Message) returns (r: Outcome<()>)
      modifies this
      ensures Meets(r, C.SendMessage(party, old(Abs()), m))
    {
      hide Serialize, C.Close;
      if myState == Closing || myState == Closed {
        return Ok(());
      }
      myState := Sending;
      var visitor := new SerializerMessageVisitor();
      visitor.Visit(m);
      var msg := visitor.myMessage + "\n";
      assert msg == Frame(m);
      hide Frame;
      assert Abs() == old(Abs()).(state := Sending);
      if !myUvStream {
        return Abort(NullStream);
      }
      var res := party.io(log.calls);
      log := log.(calls := log.calls + 1);
      if res != 0 {
        Close();
      } else {
        log := log.(wrote := log.wrote + [msg]);
      }
      return Ok(());
    }

    method OnClose()
      modifies this
      ensures Abs() == C.OnClose(old(Abs()))
    {
      log := log.(notified := log.notified + 1);
      myState := Closed;
    }

    method Close()
      modifies this
      ensures Abs() == C.Close(old(Abs()))
    {
      myState := Closing;
      if !myUvStream {
        return;
      }
      myUvStream := false;
      if log.closing {
        OnClose();
        return;
      }
      log := log.(closing := true, closes := log.closes + 1);
    }

    method OnWrite(status: int) returns (r: Outcome<()>)
      modifies this
      ensures Meets(r, C.OnWrite(party, old(Abs()), status))
    {
      hide C.Process;
      log := log.(returned := log.returned + 1);
      if !(myState == Sending || myState == Receiving || myState == Received) {
        return Abort(WriteAssertion);
      }
      if status != 0 {
        Close();
        return Ok(());
      }
      r := Process();
    }

    /** `messageReceived` of the three applications, which act through this connection. */
    method MessageReceived(m: Message) returns (r: Outcome<()>)
      requires myState == Received
      modifies this
      ensures Meets(r, HandleMessage(party, old(Abs()), m))
    {
      var script := if party.app.NodeApp? then party.app.handler(|log.received|, m) else Script([], None);
      log := log.(received := log.received + [m]);
      match party.app
      case ClientApp => r := Ok(());
      case ServerApp(name) => r := ServerMessageReceived(name, m);
      case NodeApp(_, _, _) =>
        r := PerformAll(script.calls);
        if r.Ok? && script.fault.Some? {
          r := Abort(script.fault.value);
        }
    }

    method ServerMessageReceived(name: string, m: Message) returns (r: Outcome<()>)
      modifies this
      ensures Meets(r, Act(party, old(Abs()), ServerReact(name, PeerAddr(party), m)))
    {
      hide C.SendMessage;
      ghost var script := ServerReact(name, PeerAddr(party), m);
      if script.calls != [] {
        PerformSingle(party, Abs(), script.calls[0]);
      }
      match m
      case Handshake(version, _, _) =>
        if version != "V01" {
          Close();
          r := Ok(());
        } else {
          r := SendMessage(HandshakeResponse("V01", name, PeerAddr(party)));
        }
      case Ping(text) =>
        r := SendMessage(PingResponse("Resp_from_" + name + "_to_" + text));
      case _ =>
        r := Abort(UnexpectedMessage);
    }

    method PerformAll(calls: seq<Call>) returns (r: Outcome<()>)
      modifies this
      ensures Meets(r, Perform(party, old(Abs()), calls))
    {
      var i := 0;
      while i < |calls|
        invariant i <= |calls|
        invariant Perform(party, old(Abs()), calls) == Perform(party, Abs(), calls[i..])
      {
        if calls[i].Send? {
          r := SendMessage(calls[i].message);
          if r.Abort? {
            return;
          }
        } else {
          Close();
        }
        assert calls[i..][1..] == calls[i + 1..];
        i := i + 1;
      }
      r := Ok(());
    }

    method DoProcessReceivedBuffer() returns (r: Outcome<()>)
      modifies this
      ensures Meets(r, Drain(party, old(Abs())))
    {
      hide ParseMessage, HandleMessage;
      while true
        invariant Drain(party, old(Abs())) == Drain(party, Abs())
        decreases |myReceiveBuffer|
      {
        var terminatorIdx := Find(myReceiveBuffer, '\n');
        if terminatorIdx == |myReceiveBuffer| {
          break;
        }
        var msg1 := myReceiveBuffer[..terminatorIdx];
        myReceiveBuffer := myReceiveBuffer[terminatorIdx + 1..];
        var tokens := Tokenize(msg1);
        match ParseMessage(tokens)
        case NoMessage =>
        case BadNumber =>
          return Abort(NumberFormat);
        case Parsed(m) =>
          myState := Received;
          r := MessageReceived(m);
          if r.Abort? {
            return;
          }
      }
      r := Ok(());
    }

    method OnRead(nread: int, data: string) returns (r: Outcome<()>)
      modifies this
      ensures Meets(r, C.OnRead(party, old(Abs()), nread, data))
    {
      hide C.Process, Drain;
      if nread <= 0 {
        Close();
        return Ok(());
      }
      myReceiveBuffer := myReceiveBuffer + data;
      r := DoProcessReceivedBuffer();
      if r.Ok? {
        r := Process();
      }
    }

    method DoRead() returns (r: Outcome<()>)
      modifies this
      ensures Meets(r, C.DoRead(party, old(Abs())))
    {
      hide C.Close;
      if !(myState == Accepted || myState == Sent || myState == Sending || myState == Receiving) {
        return Abort(ReadAssertion);
      }
      myState := Receiving;
      if !myUvStream {
        return Abort(NullStream);
      }
      var res := party.io(log.calls);
      log := log.(calls := log.calls + 1);
      if res < 0 {
        Close();
      } else {
        log := log.(reading := true);
      }
      return Ok(());
    }

    method SendOtherPeers() returns (r: Outcome<()>)
      modifies this
      ensures Meets(r, SendWhileConnected(party, old(Abs()), Gossip(party, old(Abs()))))
    {
      hide C.SendMessage;
      ghost var start := Abs();
      var peers := if party.app.NodeApp? then party.app.gossip(log.calls) else [];
      var i := 0;
      while i < |peers| && IsConnected(Abs())
        invariant i <= |peers|
        invariant SendWhileConnected(party, start, peers) == SendWhileConnected(party, Abs(), peers[i..])
      {
        r := SendMessage(peers[i]);
        if r.Abort? {
          return;
        }
        assert peers[i..][1..] == peers[i + 1..];
        i := i + 1;
      }
      r := Ok(());
    }

    method SendPing() returns (r: Outcome<()>)
      modifies this
      ensures Meets(r, C.SendMessage(party, old(Abs()), PingFor(party, old(Abs()))))
    {
      r := SendMessage(Ping("Ping_from_" + AppName(party.app) + "_to_" + PeerAddr(party) + "_" + ToString(mySendCounter)));
    }

    method OnTimer() returns (r: Outcome<()>)
      modifies this
      ensures Meets(r, C.OnTimer(party, old(Abs())))
    {
      r := SendPing();
      if r.Ok? {
        r := SendOtherPeers();
      }
    }

    method Connect() returns (res: int)
      requires !party.kind.Incoming?
      modifies this
      ensures Abs() == C.Connect(party, old(Abs()))
      ensures res == 0 <==> (old(myState) == NotConnected || old(myState) == Connecting || old(myState) == Closed) && log.connecting
    {
      if !(myState == NotConnected || myState == Connecting || myState == Closed) {
        return -1;
      }
      myState := Connecting;
      if !party.kind.Peer? {
        mySendCounter := 0;
      }
      myUvStream := true;
      res := party.io(log.calls);
      log := log.(calls := log.calls + 1, connecting := res == 0, reading := false, closing := false,
                  wrote := [], returned := 0, connects := log.connects + 1);
    }

    method OnConnect(status: int, remoteHost: string) returns (r: Outcome<()>)
      modifies this
      ensures Meets(r, C.OnConnect(party, old(Abs()), status, remoteHost))
    {
      log := log.(connecting := false);
      if status != 0 {
        return Ok(());
      }
      if remoteHost != party.host {
        myCanonPeerAddr := remoteHost + ":" + ToString(party.port);
      }
      myState := Connected;
      r := Process();
    }

    method Process() returns (r: Outcome<()>)
      modifies this
      ensures Meets(r, C.Process(party, old(Abs())))
    {
      match party.kind
      case Incoming => r := Ok(());
      case Outgoing(_) => r := ProcessOut();
      case Peer => r := ProcessPeer();
    }

    method ProcessOut() returns (r: Outcome<()>)
      requires party.kind.Outgoing?
      modifies this
      ensures Meets(r, C.ProcessOut(party, old(Abs())))
    {
      match myState
      case Connected =>
        mySendCounter := 0;
        r := SendMessage(Handshake("V01", PeerAddr(party), AppName(party.app)));
      case Sending =>
        mySendCounter := mySendCounter + 1;
        r := DoRead();
      case Sent => r := DoRead();
      case Receiving => r := DoRead();
      case Received =>
        r := Ok(());
        if mySendCounter >= 1 + party.kind.pings {
          Close();
        } else if mySendCounter >= 1 {
          r := SendPing();
        }
      case _ => r := Abort(UnhandledState);
    }

    method ProcessPeer() returns (r: Outcome<()>)
      modifies this
      ensures Meets(r, C.ProcessPeer(party, old(Abs())))
    {
      match myState
      case Connected =>
        r := OnTimer();
        if r.Ok? {
          log := log.(timer := true);
          mySendCounter := 0;
          r := SendMessage(Handshake("V01", PeerAddr(party), AppName(party.app)));
        }
        if r.Ok? {
          r := SendOtherPeers();
        }
      case Sending =>
        mySendCounter := mySendCounter + 1;
        r := DoRead();
      case Sent => r := DoRead();
      case Receiving => r := DoRead();
      case Received => r := Ok(());
      case _ => r := Abort(UnhandledState);
    }
  }
}
