/** node/endpoint.cpp and node/endpoint.hpp: "host:port" text. */
module Endpoints {
  import opened Text
  import opened Decimal

  datatype Endpoint = Endpoint(host: string, port: int32)

  /** The printer `getEndpoint`, also the key and address format of the peer tables. */
  function Key(host: string, port: int): string {
    host + ":" + ToString(port)
  }

  function GetEndpoint(e: Endpoint): string {
    Key(e.host, e.port)
  }

  /** The string constructor: split at the first colon; a port that is missing or unreadable becomes 0. */
  function FromString(s: string): Endpoint {
    var colon := Find(s, ':');
    if colon == |s| then Endpoint(s, 0)
    else
      match Stoi(s[colon + 1..])
      case Number(port) => Endpoint(s[..colon], port)
      case _ => Endpoint(s[..colon], 0)
  }

  /** Parsing a printed endpoint gives it back if and only if the host has no colon. */
  lemma RoundTripIff(host: string, port: int32)
    ensures FromString(Key(host, port)) == Endpoint(host, port) <==> ':' !in host
  {
    var s := Key(host, port);
    if ':' !in host {
      assert s[..|host|] == host && s[|host| + 1..] == ToString(port);
      FindIsUnique(s, ':', |host|);
      RoundTrip(port);
    }
  }

  /** A string reprints to itself if and only if it is a colon-free host followed by a printed port. */
  lemma ReprintIff(s: string)
    ensures GetEndpoint(FromString(s)) == s
       <==> exists host, port: int32 :: ':' !in host && s == Key(host, port)
  {
    var e := FromString(s);
    if GetEndpoint(e) == s {
      assert ':' !in e.host by {
        assert s[..|s|] == s;
      }
    }
    forall host, port: int32 | ':' !in host && s == Key(host, port) ensures GetEndpoint(e) == s {
      RoundTripIff(host, port);
    }
  }

  lemma LastColon(host: string, port: int, i: nat)
    requires i < |Key(host, port)| && Key(host, port)[i] == ':'
    ensures i <= |host| && Key(host, port)[|host|] == ':'
  {
    PrintedShape(port);
  }

  /** Distinct endpoints never share a key, whatever their hosts contain. */
  lemma KeyInjective(h1: string, p1: int, h2: string, p2: int)
    requires Key(h1, p1) == Key(h2, p2)
    ensures h1 == h2 && p1 == p2
  {
    var s := Key(h1, p1);
    LastColon(h1, p1, |h1|);
    LastColon(h2, p2, |h2|);
    LastColon(h1, p1, |h2|);
    LastColon(h2, p2, |h1|);
    assert h1 == s[..|h1|] && h2 == s[..|h2|];
    assert ToString(p1) == s[|h1| + 1..] == ToString(p2);
    PrintInjective(p1, p2);
  }

  /** Without a colon the whole text is the host; with one, text that is no `int` gives port 0. */
  lemma ParsedText(host: string, text: string)
    requires ':' !in host
    ensures FromString(host) == Endpoint(host, 0)
    ensures FromString(host + ":" + text) == Endpoint(host, if NotAnInt(text) then 0 else SignedValue(text))
  {
    assert host[..|host|] == host;
    FindIsUnique(host, ':', |host|);
    var s := host + ":" + text;
    assert s[..|host|] == host && s[|host| + 1..] == text;
    FindIsUnique(s, ':', |host|);
    StoiExact(text);
  }

  lemma KeyAt()
    ensures Key("localhost", 5000) == "localhost:5000" && Key("localhost", 5001) == "localhost:5001"
  {
    assert ToString(5000) == "5000" && ToString(5001) == "5001" by {
      FourDigits();
    }
  }

  lemma FourDigits()
    ensures ToString(5000) == "5000" && ToString(5001) == "5001"
  {
    assert Digits(5) == "5" && Digits(50) == "50" && Digits(500) == "500";
  }
}
