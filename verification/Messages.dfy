/** lib/message.cpp: the five messages, their printer and their parser, and the tokeniser between them. */
module Messages {
  import opened Text
  import opened Decimal

  datatype Message =
    | Handshake(version: string, yourAddr: string, myAddr: string)
    | HandshakeResponse(version: string, myAddr: string, yourAddr: string)
    | Ping(text: string)
    | PingResponse(text: string)
    | OtherPeer(host: string, port: int32)

  function Serialize(m: Message): string {
    match m
    case Handshake(version, yourAddr, myAddr) => "HANDSH " + version + " " + yourAddr + " " + myAddr
    case HandshakeResponse(version, myAddr, yourAddr) => "HANDSHRESP " + version + " " + myAddr + " " + yourAddr
    case Ping(text) => "PING " + text
    case PingResponse(text) => "PINGRESP " + text
    case OtherPeer(host, port) => "OPEER " + host + " " + ToString(port)
  }

  /** The printer: visiting a message leaves its text in `myMessage`. */
  class SerializerMessageVisitor {
    var myMessage: string

    constructor ()
      ensures myMessage == ""
    {
      myMessage := "";
    }

    method Visit(m: Message)
      modifies this
      ensures myMessage == Serialize(m)
    {
      match m
      case Handshake(version, yourAddr, myAddr) =>
        myMessage := "HANDSH " + version + " " + yourAddr + " " + myAddr;
      case HandshakeResponse(version, myAddr, yourAddr) =>
        myMessage := "HANDSHRESP " + version + " " + myAddr + " " + yourAddr;
      case Ping(text) => myMessage := "PING " + text;
      case PingResponse(text) => myMessage := "PINGRESP " + text;
      case OtherPeer(host, port) => myMessage := "OPEER " + host + " " + ToString(port);
    }
  }

  /** The leading run of characters that are not blank. */
  function Word(s: string): (w: string)
    ensures |w| <= |s| && w == s[..|w|] && Spaceless(w)
    ensures |w| < |s| ==> IsSpace(s[|w|])
    ensures s != [] && !IsSpace(s[0]) ==> w != []
  {
    if s == [] || IsSpace(s[0]) then "" else [s[0]] + Word(s[1..])
  }

  /** The words of a line, as repeated `stream >> word` extracts them. */
  function Tokens(line: string): seq<string>
    decreases |line|
  {
    var t := SkipSpaces(line);
    if t == [] then [] else [Word(t)] + Tokens(t[|Word(t)|..])
  }

  method Tokenize(line: string) returns (tokens: seq<string>)
    ensures tokens == Tokens(line)
  {
    tokens := [];
    var stream := SkipSpaces(line);
    SkipTwice(line);
    while stream != []
      invariant stream != [] ==> !IsSpace(stream[0])
      invariant Tokens(line) == tokens + Tokens(stream)
      decreases |stream|
    {
      var word := Word(stream);
      SkipTwice(stream[|word|..]);
      tokens := tokens + [word];
      stream := SkipSpaces(stream[|word|..]);
    }
  }

  lemma SkipTwice(s: string)
    ensures Tokens(SkipSpaces(s)) == Tokens(s)
  {
    assert SkipSpaces(SkipSpaces(s)) == SkipSpaces(s);
  }

  /** Gaps and words laid out alternately, gaps at both ends. */
  function Weave(gaps: seq<string>, words: seq<string>): string
    requires |gaps| == |words| + 1
  {
    if words == [] then gaps[0] else gaps[0] + (words[0] + Weave(gaps[1..], words[1..]))
  }

  /** Gaps are blank, words are words, and neighbouring words do not touch. */
  ghost predicate Separates(gaps: seq<string>, words: seq<string>) {
    && |gaps| == |words| + 1
    && (forall i | 0 <= i < |gaps| :: AllSpace(gaps[i]))
    && (forall i | 0 <= i < |words| :: IsToken(words[i]))
    && (forall i | 0 < i < |words| :: gaps[i] != "")
  }

  lemma {:induction false} WordStops(w: string, rest: string)
    requires Spaceless(w) && (rest == [] || IsSpace(rest[0]))
    ensures Word(w + rest) == w
  {
    if w == [] {
      assert w + rest == rest;
    } else {
      assert (w + rest)[1..] == w[1..] + rest;
      WordStops(w[1..], rest);
    }
  }

  lemma {:induction false} TokensOfWeave(gaps: seq<string>, words: seq<string>)
    requires Separates(gaps, words)
    ensures Tokens(Weave(gaps, words)) == words
  {
    if words == [] {
      SpacesSkipped(gaps[0], "");
      assert gaps[0] + "" == gaps[0];
    } else {
      var rest := Weave(gaps[1..], words[1..]);
      SpacesSkipped(gaps[0], words[0] + rest);
      assert rest == [] || IsSpace(rest[0]) by {
        if |words| > 1 {
          assert gaps[1] != "";
        }
      }
      WordStops(words[0], rest);
      assert (words[0] + rest)[|words[0]|..] == rest;
      TokensOfWeave(gaps[1..], words[1..]);
    }
  }

  lemma {:induction false} SkippedIsSpace(s: string) returns (blanks: string)
    ensures AllSpace(blanks) && s == blanks + SkipSpaces(s)
  {
    if s != [] && IsSpace(s[0]) {
      var more := SkippedIsSpace(s[1..]);
      blanks := [s[0]] + more;
    } else {
      blanks := "";
    }
  }

  lemma SeparatesCons(gap: string, word: string, gaps: seq<string>, words: seq<string>)
    requires Separates(gaps, words) && AllSpace(gap) && IsToken(word)
    requires words != [] ==> gaps[0] != ""
    ensures Separates([gap] + gaps, [word] + words)
    ensures Weave([gap] + gaps, [word] + words) == gap + (word + Weave(gaps, words))
  {
    assert ([gap] + gaps)[1..] == gaps && ([word] + words)[1..] == words;
    forall i | 0 < i < |words| + 1 ensures ([gap] + gaps)[i] != "" {
      assert ([gap] + gaps)[i] == gaps[i - 1];
    }
  }

  lemma {:induction false} GapsOf(line: string) returns (gaps: seq<string>)
    ensures Separates(gaps, Tokens(line)) && Weave(gaps, Tokens(line)) == line
    ensures line != [] && IsSpace(line[0]) ==> gaps[0] != ""
    decreases |line|
  {
    var blanks := SkippedIsSpace(line);
    var t := SkipSpaces(line);
    if t == [] {
      gaps := [blanks];
    } else {
      var word, rest := Word(t), t[|Word(t)|..];
      var more := GapsOf(rest);
      assert rest == [] ==> Tokens(rest) == [];
      SeparatesCons(blanks, word, more, Tokens(rest));
      assert t == word + rest;
      gaps := [blanks] + more;
    }
  }

  /** `Tokens` is the one and only way to read a line as words with blanks around them. */
  lemma TokensCharacterised(line: string, words: seq<string>)
    ensures Tokens(line) == words
       <==> exists gaps :: Separates(gaps, words) && Weave(gaps, words) == line
  {
    var gaps := GapsOf(line);
    forall gaps | Separates(gaps, words) && Weave(gaps, words) == line ensures Tokens(line) == words {
      TokensOfWeave(gaps, words);
    }
  }

  datatype ParseResult = NoMessage | BadNumber | Parsed(message: Message)

  /** `parseMessage`: a null result, an exception out of `stoi`, or a message. */
  function ParseMessage(tokens: seq<string>): ParseResult {
    if |tokens| == 0 then NoMessage
    else if tokens[0] == "HANDSH" && |tokens| >= 4 then Parsed(Handshake(tokens[1], tokens[2], tokens[3]))
    else if tokens[0] == "HANDSHRESP" && |tokens| >= 4 then Parsed(HandshakeResponse(tokens[1], tokens[2], tokens[3]))
    else if tokens[0] == "PING" && |tokens| >= 2 then Parsed(Ping(tokens[1]))
    else if tokens[0] == "PINGRESP" && |tokens| >= 2 then Parsed(PingResponse(tokens[1]))
    else if tokens[0] == "OPEER" && |tokens| >= 3 then
      match Stoi(tokens[2])
      case Number(port) => Parsed(OtherPeer(tokens[1], port))
      case _ => BadNumber
    else NoMessage
  }

  function Read(line: string): ParseResult {
    ParseMessage(Tokens(line))
  }

  /** A peer line whose third word is no port. */
  ghost predicate BadLine(line: string) {
    var words := Tokens(line);
    |words| >= 3 && words[0] == "OPEER" && NotAnInt(words[2])
  }

  /** The parser throws on exactly these lines. */
  lemma BadLineIff(line: string)
    ensures Read(line) == BadNumber <==> BadLine(line)
  {
    hide Tokens, NotAnInt, Stoi;
    var words := Tokens(line);
    if |words| >= 3 {
      StoiThrows(words[2]);
    }
  }

  /** Every text field is one word. */
  ghost predicate WellFormed(m: Message) {
    match m
    case Handshake(version, yourAddr, myAddr) => IsToken(version) && IsToken(yourAddr) && IsToken(myAddr)
    case HandshakeResponse(version, myAddr, yourAddr) => IsToken(version) && IsToken(myAddr) && IsToken(yourAddr)
    case Ping(text) => IsToken(text)
    case PingResponse(text) => IsToken(text)
    case OtherPeer(host, _) => IsToken(host)
  }

  lemma TokensAreTokens(line: string)
    ensures forall w | w in Tokens(line) :: IsToken(w)
  {
    var gaps := GapsOf(line);
  }

  function Words(m: Message): seq<string> {
    match m
    case Handshake(version, yourAddr, myAddr) => ["HANDSH", version, yourAddr, myAddr]
    case HandshakeResponse(version, myAddr, yourAddr) => ["HANDSHRESP", version, myAddr, yourAddr]
    case Ping(text) => ["PING", text]
    case PingResponse(text) => ["PINGRESP", text]
    case OtherPeer(host, port) => ["OPEER", host, ToString(port)]
  }

  lemma TokensCons(a: string, rest: string)
    requires IsToken(a)
    ensures Tokens(a + " " + rest) == [a] + Tokens(rest)
  {
    assert a + " " + rest == a + (" " + rest);
    WordStops(a, " " + rest);
    assert (a + (" " + rest))[|a|..] == " " + rest;
    SpacesSkipped(" ", rest);
  }

  lemma TokensOfOne(a: string)
    requires IsToken(a)
    ensures Tokens(a) == [a]
  {
    WordStops(a, "");
    assert a + "" == a;
    assert a[|a|..] == "";
  }

  lemma TwoWords(tag: string, a: string)
    requires IsToken(tag) && IsToken(a)
    ensures Tokens(tag + " " + a) == [tag, a]
  {
    TokensCons(tag, a);
    TokensOfOne(a);
  }

  lemma ThreeWords(tag: string, a: string, b: string)
    requires IsToken(tag) && IsToken(a) && IsToken(b)
    ensures Tokens(tag + " " + a + " " + b) == [tag, a, b]
  {
    TokensCons(tag, a + " " + b);
    TwoWords(a, b);
    AppendAssoc(tag + " ", a + " ", b);
    AppendAssoc(tag + " ", a, " ");
  }

  lemma FourWords(tag: string, a: string, b: string, c: string)
    requires IsToken(tag) && IsToken(a) && IsToken(b) && IsToken(c)
    ensures Tokens(tag + " " + a + " " + b + " " + c) == [tag, a, b, c]
  {
    TokensCons(tag, a + " " + b + " " + c);
    ThreeWords(a, b, c);
    AppendAssoc(tag + " ", a + " " + b + " ", c);
    AppendAssoc(tag + " ", a + " " + b, " ");
    AppendAssoc(tag + " ", a + " ", b);
    AppendAssoc(tag + " ", a, " ");
  }

  lemma SerializedWords(m: Message)
    requires WellFormed(m)
    ensures Tokens(Serialize(m)) == Words(m)
  {
    hide Tokens;
    match m
    case Handshake(a, b, c) =>
      FourWords("HANDSH", a, b, c);
      assert "HANDSH" + " " == "HANDSH ";
    case HandshakeResponse(a, b, c) =>
      FourWords("HANDSHRESP", a, b, c);
      assert "HANDSHRESP" + " " == "HANDSHRESP ";
    case Ping(text) =>
      TwoWords("PING", text);
      assert "PING" + " " == "PING ";
    case PingResponse(text) =>
      TwoWords("PINGRESP", text);
      assert "PINGRESP" + " " == "PINGRESP ";
    case OtherPeer(host, port) =>
      PrintedShape(port);
      ThreeWords("OPEER", host, ToString(port));
      assert "OPEER" + " " == "OPEER ";
  }

  /** What the parser yields always has one-word fields. */
  lemma ParserImage(line: string)
    ensures Read(line).Parsed? ==> WellFormed(Read(line).message)
  {
    TokensAreTokens(line);
  }

  /** A message survives printing, tokenising and parsing if and only if its fields are words. */
  lemma RoundTripIff(m: Message)
    ensures Read(Serialize(m)) == Parsed(m) <==> WellFormed(m)
  {
    hide Tokens, Serialize, Stoi, ToString;
    ParserImage(Serialize(m));
    if WellFormed(m) {
      SerializedWords(m);
      if m.OtherPeer? {
        RoundTrip(m.port);
      }
    }
  }

  /** A readable line rewritten in the printer's own form; other lines are left alone. */
  function Normalize(line: string): string {
    match Read(line)
    case Parsed(m) => Serialize(m)
    case _ => line
  }

  /** Padded numbers, surplus words and odd spacing all vanish in one normalisation that loses no meaning. */
  lemma NormalForm(line: string)
    ensures Read(Normalize(line)) == Read(line)
    ensures Normalize(Normalize(line)) == Normalize(line)
  {
    ParserImage(line);
    if Read(line).Parsed? {
      RoundTripIff(Read(line).message);
    }
  }

  /** The terminator never occurs inside the text of a well-formed message. */
  lemma NoTerminatorInside(m: Message)
    requires WellFormed(m)
    ensures '\n' !in Serialize(m)
  {
    match m
    case Handshake(version, yourAddr, myAddr) => CleanWords("HANDSH ", version, yourAddr, myAddr);
    case HandshakeResponse(version, myAddr, yourAddr) => CleanWords("HANDSHRESP ", version, myAddr, yourAddr);
    case Ping(text) => CleanPair("PING ", text);
    case PingResponse(text) => CleanPair("PINGRESP ", text);
    case OtherPeer(host, port) =>
      PrintedShape(port);
      CleanPair("OPEER ", host);
      CleanPair("OPEER " + host, " ");
      CleanPair("OPEER " + host + " ", ToString(port));
  }

  lemma CleanPair(a: string, b: string)
    requires '\n' !in a && '\n' !in b
    ensures '\n' !in a + b
  {
  }

  lemma CleanWords(tag: string, a: string, b: string, c: string)
    requires '\n' !in tag && '\n' !in a && '\n' !in b && '\n' !in c
    ensures '\n' !in tag + a + " " + b + " " + c
  {
    CleanPair(tag, a);
    CleanPair(tag + a, " ");
    CleanPair(tag + a + " ", b);
    CleanPair(tag + a + " " + b, " ");
    CleanPair(tag + a + " " + b + " ", c);
  }

  // The printer and the parser, without naming how they branch.

  function Joined(words: seq<string>): string {
    if words == [] then "" else if |words| == 1 then words[0] else words[0] + " " + Joined(words[1..])
  }

  /** A message is printed as its words with single blanks between them. */
  lemma PrintedForm(m: Message)
    ensures Serialize(m) == Joined(Words(m))
  {
    match m
    case Handshake(a, b, c) =>
      JoinedFour("HANDSH", a, b, c);
      assert "HANDSH" + " " == "HANDSH ";
    case HandshakeResponse(a, b, c) =>
      JoinedFour("HANDSHRESP", a, b, c);
      assert "HANDSHRESP" + " " == "HANDSHRESP ";
    case Ping(text) => assert "PING" + " " == "PING " && ["PING", text][1..] == [text];
    case PingResponse(text) => assert "PINGRESP" + " " == "PINGRESP " && ["PINGRESP", text][1..] == [text];
    case OtherPeer(host, port) =>
      JoinedThree("OPEER", host, ToString(port));
      assert "OPEER" + " " == "OPEER ";
  }

  lemma JoinedThree(a: string, b: string, c: string)
    ensures Joined([a, b, c]) == a + " " + b + " " + c
  {
    assert [a, b, c][1..] == [b, c] && [b, c][1..] == [c];
    assert Joined([b, c]) == b + " " + c;
    AppendAssoc(a + " ", b + " ", c);
    AppendAssoc(a + " ", b, " ");
  }

  lemma JoinedFour(a: string, b: string, c: string, d: string)
    ensures Joined([a, b, c, d]) == a + " " + b + " " + c + " " + d
  {
    assert [a, b, c, d][1..] == [b, c, d];
    JoinedThree(b, c, d);
    AppendAssoc(a + " ", b + " " + c + " ", d);
    AppendAssoc(a + " ", b + " " + c, " ");
    AppendAssoc(a + " ", b + " ", c);
    AppendAssoc(a + " ", b, " ");
  }

  /** The five texts at inputs. */
  lemma PrintedAt()
    ensures Serialize(Handshake("V01", "a:1", "b:2")) == "HANDSH V01 a:1 b:2"
    ensures Serialize(HandshakeResponse("V01", "a:1", "b:2")) == "HANDSHRESP V01 a:1 b:2"
    ensures Serialize(Ping("x")) == "PING x" && Serialize(PingResponse("x")) == "PINGRESP x"
    ensures Serialize(OtherPeer("h", 7)) == "OPEER h 7"
  {
    assert ToString(7) == "7";
  }

  /** These words say `m`: its own words, the port in any spelling, and possibly more words after them. */
  ghost predicate Says(words: seq<string>, m: Message) {
    match m
    case Handshake(version, yourAddr, myAddr) => |words| >= 4 && words[..4] == ["HANDSH", version, yourAddr, myAddr]
    case HandshakeResponse(version, myAddr, yourAddr) => |words| >= 4 && words[..4] == ["HANDSHRESP", version, myAddr, yourAddr]
    case Ping(text) => |words| >= 2 && words[..2] == ["PING", text]
    case PingResponse(text) => |words| >= 2 && words[..2] == ["PINGRESP", text]
    case OtherPeer(host, port) =>
      |words| >= 3 && words[..2] == ["OPEER", host] && !NotAnInt(words[2]) && SignedValue(words[2]) == port
  }

  /** A line is read as `m` exactly if its words say `m`. */
  lemma ReadIff(line: string, m: Message)
    ensures Read(line) == Parsed(m) <==> Says(Tokens(line), m)
  {
    hide Tokens, NotAnInt, SignedValue, Stoi;
    WordsSay(Tokens(line), m);
  }

  lemma WordsSay(words: seq<string>, m: Message)
    ensures ParseMessage(words) == Parsed(m) <==> Says(words, m)
  {
    hide NotAnInt, SignedValue, Stoi;
    if |words| >= 4 {
      assert words[..4] == [words[0], words[1], words[2], words[3]];
    }
    if |words| >= 3 {
      StoiThrows(words[2]);
      StoiValue(words[2]);
    }
    if |words| >= 2 {
      assert words[..2] == [words[0], words[1]];
    }
  }

  lemma StoiValue(s: string)
    ensures Stoi(s).Number? ==> Stoi(s).n == SignedValue(s)
  {
    StoiExact(s);
  }

  /** How many words a line with this first word must have; 0 if no message starts with it. */
  function WordsNeeded(first: string): nat {
    match first
    case "HANDSH" => 4
    case "HANDSHRESP" => 4
    case "PING" => 2
    case "PINGRESP" => 2
    case "OPEER" => 3
    case _ => 0
  }

  /** A line is no message exactly if it is blank, starts with another word, or has too few words. */
  lemma NoMessageIff(line: string)
    ensures var words := Tokens(line);
            Read(line) == NoMessage <==> words == [] || WordsNeeded(words[0]) == 0 || |words| < WordsNeeded(words[0])
  {
    hide Tokens, Stoi;
  }

  /** The words of a line, a blank and another line. */
  lemma {:induction false} TokensAppend(a: string, b: string)
    ensures Tokens(a + " " + b) == Tokens(a) + Tokens(b)
    decreases |a|
  {
    var blanks := SkippedIsSpace(a);
    var t := SkipSpaces(a);
    if t == [] {
      assert a == blanks && a + " " + b == (a + " ") + b;
      SpacesSkipped(a + " ", b);
      assert Tokens(a) == [];
      SkippedSame(a + " " + b, b);
    } else {
      var w, rest := Word(t), t[|Word(t)|..];
      assert a == blanks + (w + rest);
      var later := rest + " " + b;
      AppendAssoc(blanks, w + rest, " " + b);
      AppendAssoc(w, rest, " " + b);
      AppendAssoc(rest, " ", b);
      AppendAssoc(a, " ", b);
      assert a + " " + b == blanks + (w + later);
      SpacesSkipped(blanks, w + later);
      WordStops(w, later);
      assert (w + later)[|w|..] == later;
      assert Tokens(a + " " + b) == [w] + Tokens(later);
      TokensAppend(rest, b);
      AppendAssoc([w], Tokens(rest), Tokens(b));
    }
  }

  lemma SkippedSame(a: string, b: string)
    requires SkipSpaces(a) == SkipSpaces(b)
    ensures Tokens(a) == Tokens(b)
  {
  }

  /** Whatever follows a printed message on its line is ignored. */
  lemma SurplusVanishes(m: Message, more: string)
    requires WellFormed(m)
    ensures Read(Serialize(m) + " " + more) == Parsed(m)
  {
    hide Tokens, Serialize, Stoi;
    TokensAppend(Serialize(m), more);
    SerializedWords(m);
    ReadIff(Serialize(m) + " " + more, m);
    var words := Words(m) + Tokens(more);
    assert words[..|Words(m)|] == Words(m);
    if m.OtherPeer? {
      PortWord(m.port);
      assert words[..2] == words[..3][..2];
    }
  }

  lemma PortWord(port: int32)
    ensures !NotAnInt(ToString(port)) && SignedValue(ToString(port)) == port
  {
    PrintedCanonical(port);
    RoundTrip(port);
    StoiThrows(ToString(port));
  }
}
