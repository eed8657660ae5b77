/** Stream framing: lines re-assembled from arbitrary chunks (lib/net_client.cpp:153-183), and end-to-end delivery. */
module Framing {
  import opened Text
  import opened Messages

  /** The complete lines of a byte string, terminators removed. */
  function Lines(s: string): seq<string>
    decreases |s|
  {
    var i := Find(s, '\n');
    if i == |s| then [] else [s[..i]] + Lines(s[i + 1..])
  }

  /** What follows the last terminator. */
  function Rest(s: string): (r: string)
    decreases |s|
    ensures |r| <= |s|
  {
    var i := Find(s, '\n');
    if i == |s| then s else Rest(s[i + 1..])
  }

  function Unlines(lines: seq<string>): string {
    if lines == [] then "" else lines[0] + "\n" + Unlines(lines[1..])
  }

  lemma UnlinesCons(line: string, lines: seq<string>, rest: string)
    ensures Unlines([line] + lines) + rest == line + "\n" + (Unlines(lines) + rest)
  {
    assert ([line] + lines)[1..] == lines;
    AppendAssoc(line + "\n", Unlines(lines), rest);
  }

  lemma {:induction false} SplitLossless(s: string)
    ensures Unlines(Lines(s)) + Rest(s) == s
    ensures '\n' !in Rest(s) && forall line | line in Lines(s) :: '\n' !in line
    decreases |s|
  {
    var i := Find(s, '\n');
    if i < |s| {
      var line, t := s[..i], s[i + 1..];
      SplitLossless(t);
      CutAt(s, i, "");
      UnlinesCons(line, Lines(t), Rest(t));
    } else {
      assert s[..i] == s;
    }
  }

  lemma CutAt(s: string, i: nat, more: string)
    requires i < |s| && s[i] == '\n'
    ensures s[..i] + "\n" + s[i + 1..] == s
    ensures s[..i] + "\n" + (s[i + 1..] + more) == s + more
  {
  }

  lemma FirstLine(line: string, s: string)
    requires '\n' !in line
    ensures Lines(line + "\n" + s) == [line] + Lines(s)
    ensures Rest(line + "\n" + s) == Rest(s)
  {
    var t := line + "\n" + s;
    assert t[..|line|] == line && t[|line| + 1..] == s;
    FindIsUnique(t, '\n', |line|);
  }

  lemma NoLine(s: string)
    requires '\n' !in s
    ensures Lines(s) == [] && Rest(s) == s
  {
    assert s[..|s|] == s;
    FindIsUnique(s, '\n', |s|);
  }

  lemma {:induction false} SplitOfJoin(lines: seq<string>, rest: string)
    requires '\n' !in rest && forall line | line in lines :: '\n' !in line
    ensures Lines(Unlines(lines) + rest) == lines && Rest(Unlines(lines) + rest) == rest
  {
    if lines == [] {
      assert "" + rest == rest;
      NoLine(rest);
    } else {
      SplitOfJoin(lines[1..], rest);
      FirstLine(lines[0], Unlines(lines[1..]) + rest);
      UnlinesCons(lines[0], lines[1..], rest);
      assert [lines[0]] + lines[1..] == lines;
    }
  }

  /** Splitting is lossless and unambiguous: it is the only way to read a byte string as terminated lines. */
  lemma SplitCharacterised(s: string, lines: seq<string>, rest: string)
    ensures Lines(s) == lines && Rest(s) == rest
       <==> Unlines(lines) + rest == s && '\n' !in rest && forall line | line in lines :: '\n' !in line
  {
    SplitLossless(s);
    if Unlines(lines) + rest == s && '\n' !in rest && forall line | line in lines :: '\n' !in line {
      SplitOfJoin(lines, rest);
    }
  }

  /** Bytes already held back and bytes arriving later split as if they had come at once. */
  lemma {:induction false} SplitAcross(a: string, b: string)
    ensures Lines(a + b) == Lines(a) + Lines(Rest(a) + b)
    ensures Rest(a + b) == Rest(Rest(a) + b)
    decreases |a|
  {
    var i := Find(a, '\n');
    if i < |a| {
      var line, t := a[..i], a[i + 1..];
      SplitAcross(t, b);
      CutAt(a, i, b);
      FirstLine(line, t + b);
      AppendAssoc([line], Lines(t), Lines(Rest(t) + b));
    }
  }

  /** The messages handed to the application, and whether an exception out of `stoi` ended the work. */
  datatype Delivery = Delivery(messages: seq<Message>, crashed: bool)

  function Deliver(lines: seq<string>): Delivery {
    if lines == [] then Delivery([], false)
    else
      match Read(lines[0])
      case NoMessage => Deliver(lines[1..])
      case BadNumber => Delivery([], true)
      case Parsed(m) =>
        var d := Deliver(lines[1..]);
        Delivery([m] + d.messages, d.crashed)
  }

  lemma DeliverCons(line: string, lines: seq<string>)
    ensures Deliver([line] + lines)
         == match Read(line)
            case NoMessage => Deliver(lines)
            case BadNumber => Delivery([], true)
            case Parsed(m) => Delivery([m] + Deliver(lines).messages, Deliver(lines).crashed)
  {
    hide ParseMessage;
    assert ([line] + lines)[1..] == lines;
  }

  ghost predicate AnyBad(lines: seq<string>) {
    exists i :: 0 <= i < |lines| && BadLine(lines[i])
  }

  /** An exception ends the work if and only if some line is a peer line without a port. */
  lemma {:induction false} CrashesIff(lines: seq<string>)
    ensures Deliver(lines).crashed <==> AnyBad(lines)
  {
    hide BadLine, Read;
    if lines != [] {
      BadLineIff(lines[0]);
      CrashesIff(lines[1..]);
      assert forall i | 0 < i < |lines| :: lines[i] == lines[1..][i - 1];
      assert BadLine(lines[0]) ==> AnyBad(lines);
      if i :| 0 <= i < |lines[1..]| && BadLine(lines[1..][i]) {
        assert BadLine(lines[i + 1]);
      }
    }
  }

  lemma {:induction false} DeliverAcross(a: seq<string>, b: seq<string>)
    ensures Deliver(a + b) == if Deliver(a).crashed then Deliver(a)
                              else Delivery(Deliver(a).messages + Deliver(b).messages, Deliver(b).crashed)
  {
    hide Read;
    if a == [] {
      assert a + b == b;
    } else {
      DeliverAcross(a[1..], b);
      DeliverCons(a[0], a[1..] + b);
      DeliverCons(a[0], a[1..]);
      assert a + b == [a[0]] + (a[1..] + b) && a == [a[0]] + a[1..];
      if Read(a[0]).Parsed? {
        AppendAssoc([Read(a[0]).message], Deliver(a[1..]).messages, Deliver(b).messages);
      }
    }
  }

  /** A receiver between two chunks. */
  datatype Receiver = Receiver(buffer: string, delivered: seq<Message>, crashed: bool)

  const FRESH := Receiver("", [], false)

  function Receive(r: Receiver, chunk: string): Receiver {
    if r.crashed then r
    else
      var d := Deliver(Lines(r.buffer + chunk));
      Receiver(Rest(r.buffer + chunk), r.delivered + d.messages, d.crashed)
  }

  function ReceiveAll(r: Receiver, chunks: seq<string>): Receiver
    decreases |chunks|
  {
    if chunks == [] then r else ReceiveAll(Receive(r, chunks[0]), chunks[1..])
  }

  lemma ReceiveStep(r: Receiver, chunk: string, later: string)
    requires '\n' !in r.buffer && !r.crashed
    ensures var next := Receive(r, chunk);
            var d := Deliver(Lines(r.buffer + (chunk + later)));
            var e := Deliver(Lines(next.buffer + later));
            && '\n' !in next.buffer
            && Rest(r.buffer + (chunk + later)) == Rest(next.buffer + later)
            && d.crashed == (next.crashed || e.crashed)
            && r.delivered + d.messages == next.delivered + if next.crashed then [] else e.messages
  {
    var now := r.buffer + chunk;
    AppendAssoc(r.buffer, chunk, later);
    SplitAcross(now, later);
    SplitLossless(now);
    var a, b := Lines(now), Lines(Rest(now) + later);
    DeliverAcross(a, b);
    AppendAssoc(r.delivered, Deliver(a).messages, Deliver(b).messages);
  }

  lemma {:induction false} ReceiveAllFrom(r: Receiver, chunks: seq<string>)
    requires '\n' !in r.buffer && !r.crashed
    ensures var whole := r.buffer + Concat(chunks);
            var end := ReceiveAll(r, chunks);
            && end.delivered == r.delivered + Deliver(Lines(whole)).messages
            && end.crashed == Deliver(Lines(whole)).crashed
            && (!end.crashed ==> end.buffer == Rest(whole))
    decreases |chunks|
  {
    if chunks == [] {
      NoLine(r.buffer);
      assert r.buffer + "" == r.buffer;
    } else {
      var next := Receive(r, chunks[0]);
      ReceiveStep(r, chunks[0], Concat(chunks[1..]));
      if next.crashed {
        CrashedForGood(next, chunks[1..]);
      } else {
        ReceiveAllFrom(next, chunks[1..]);
      }
    }
  }

  lemma {:induction false} CrashedForGood(r: Receiver, chunks: seq<string>)
    requires r.crashed
    ensures ReceiveAll(r, chunks) == r
  {
    if chunks != [] {
      CrashedForGood(r, chunks[1..]);
    }
  }

  /** Chunk invariance: for any byte string, well-formed or not, only the bytes matter, not how they were cut. */
  lemma ChunkInvariance(chunks: seq<string>)
    ensures var whole := Concat(chunks);
            var end := ReceiveAll(FRESH, chunks);
            && end.delivered == Deliver(Lines(whole)).messages
            && end.crashed == Deliver(Lines(whole)).crashed == AnyBad(Lines(whole))
            && (!end.crashed ==> end.buffer == Rest(whole) && '\n' !in end.buffer)
  {
    ReceiveAllFrom(FRESH, chunks);
    CrashesIff(Lines(Concat(chunks)));
    assert "" + Concat(chunks) == Concat(chunks);
    SplitLossless(Concat(chunks));
  }

  /** What `sendMessage` hands to the socket for one message (lib/net_client.cpp:44-50). */
  function Frame(m: Message): (f: string)
    ensures f != ""
  {
    Serialize(m) + "\n"
  }

  /** How many whole terminated texts fit into the first `n` bytes. */
  function WholeLines(texts: seq<string>, n: nat): (k: nat)
    ensures k <= |texts|
  {
    if texts == [] || n < |texts[0]| + 1 then 0 else 1 + WholeLines(texts[1..], n - |texts[0]| - 1)
  }

  lemma {:induction false} WholeLinesExact(texts: seq<string>, n: nat)
    requires n <= |Unlines(texts)|
    ensures var k := WholeLines(texts, n);
            |Unlines(texts[..k])| <= n && (k < |texts| ==> n < |Unlines(texts[..k + 1])|)
    ensures n == |Unlines(texts)| ==> WholeLines(texts, n) == |texts|
  {
    if texts != [] && n >= |texts[0]| + 1 {
      var k := WholeLines(texts, n);
      WholeLinesExact(texts[1..], n - |texts[0]| - 1);
      assert texts[..k][1..] == texts[1..][..k - 1];
      if k < |texts| {
        assert texts[..k + 1][1..] == texts[1..][..k];
      }
    } else if texts != [] {
      assert texts[..1][1..] == [];
    }
  }

  lemma TakeLine(text: string, later: string, p: string, q: string) returns (p': string)
    requires p + q == text + "\n" + later && |p| > |text|
    ensures p == text + "\n" + p' && p' + q == later
  {
    var f := text + "\n";
    p' := p[|f|..];
    assert p[..|f|] == (p + q)[..|f|] == f;
    assert p' + q == (p + q)[|f|..] == later;
  }

  lemma StartOfLine(text: string, later: string, p: string, q: string)
    requires p + q == text + "\n" + later && |p| <= |text| && '\n' !in text
    ensures '\n' !in p
  {
    assert p == (p + q)[..|p|] == text[..|p|];
  }

  lemma {:induction false} PrefixLines(texts: seq<string>, p: string, q: string)
    requires (forall t | t in texts :: '\n' !in t) && p + q == Unlines(texts)
    ensures Lines(p) == texts[..WholeLines(texts, |p|)]
    ensures q == "" ==> Rest(p) == ""
  {
    hide Lines, Rest;
    if texts == [] {
      NoLine(p);
    } else if |p| <= |texts[0]| {
      StartOfLine(texts[0], Unlines(texts[1..]), p, q);
      NoLine(p);
    } else {
      var p' := TakeLine(texts[0], Unlines(texts[1..]), p, q);
      FirstLine(texts[0], p');
      PrefixLines(texts[1..], p', q);
      var k := WholeLines(texts[1..], |p'|);
      assert texts[..k + 1] == [texts[0]] + texts[1..][..k];
    }
  }

  function Texts(ms: seq<Message>): (texts: seq<string>)
    ensures |texts| == |ms| && forall i | 0 <= i < |ms| :: texts[i] == Serialize(ms[i])
  {
    if ms == [] then [] else [Serialize(ms[0])] + Texts(ms[1..])
  }

  /** The bytes `sendMessage` hands to the socket for a list of messages. */
  function Wire(ms: seq<Message>): string {
    Unlines(Texts(ms))
  }

  function Frames(ms: seq<Message>): (fs: seq<string>)
    ensures |fs| == |ms|
  {
    if ms == [] then [] else Frames(ms[..|ms| - 1]) + [Frame(ms[|ms| - 1])]
  }

  lemma FramesAppend(ms: seq<Message>, m: Message)
    ensures Frames(ms + [m]) == Frames(ms) + [Frame(m)]
  {
    assert (ms + [m])[..|ms|] == ms;
  }

  lemma {:induction false} FramesConcat(a: seq<Message>, b: seq<Message>)
    ensures Frames(a + b) == Frames(a) + Frames(b)
    decreases |b|
  {
    hide Frame;
    if b == [] {
      assert a + b == a && Frames(a) + [] == Frames(a);
    } else {
      var front, last := b[..|b| - 1], b[|b| - 1];
      FramesConcat(a, front);
      FramesAppend(a + front, last);
      assert a + b == (a + front) + [last];
      AppendAssoc(Frames(a), Frames(front), [Frame(last)]);
    }
  }

  /** The byte stream is the frames one after the other. */
  lemma {:induction false} WireIsFrames(ms: seq<Message>)
    ensures Concat(Frames(ms)) == Wire(ms)
    decreases |ms|
  {
    hide Serialize;
    if ms != [] {
      WireIsFrames(ms[1..]);
      FramesConcat([ms[0]], ms[1..]);
      FramesAppend([], ms[0]);
      assert [] + [ms[0]] == [ms[0]] && [ms[0]] + ms[1..] == ms && [] + [Frame(ms[0])] == [Frame(ms[0])];
      assert Frames(ms)[1..] == Frames(ms[1..]);
      assert Texts(ms)[1..] == Texts(ms[1..]);
    }
  }

  ghost predicate AllWellFormed(ms: seq<Message>) {
    forall m | m in ms :: WellFormed(m)
  }

  lemma {:induction false} TextsDeliver(ms: seq<Message>)
    requires AllWellFormed(ms)
    ensures Deliver(Texts(ms)) == Delivery(ms, false)
  {
    if ms != [] {
      RoundTripIff(ms[0]);
      TextsDeliver(ms[1..]);
      assert Texts(ms)[1..] == Texts(ms[1..]);
    }
  }

  lemma TextsClean(ms: seq<Message>)
    requires AllWellFormed(ms)
    ensures forall t | t in Texts(ms) :: '\n' !in t
  {
    forall t | t in Texts(ms) ensures '\n' !in t {
      var i :| 0 <= i < |ms| && t == Serialize(ms[i]);
      NoTerminatorInside(ms[i]);
    }
  }

  lemma WireDelivers(ms: seq<Message>)
    requires AllWellFormed(ms)
    ensures Deliver(Lines(Wire(ms))) == Delivery(ms, false) && Rest(Wire(ms)) == ""
  {
    TextsClean(ms);
    SplitOfJoin(Texts(ms), "");
    assert Wire(ms) + "" == Wire(ms);
    TextsDeliver(ms);
  }

  lemma FrameDelivers(m: Message)
    requires WellFormed(m)
    ensures Deliver(Lines(Frame(m))) == Delivery([m], false) && Rest(Frame(m)) == ""
  {
    hide Serialize, Read;
    NoTerminatorInside(m);
    FirstLine(Serialize(m), "");
    assert Frame(m) + "" == Frame(m);
    NoLine("");
    assert [Serialize(m)] + [] == [Serialize(m)];
    DeliverCons(Serialize(m), []);
    RoundTripIff(m);
  }

  /** End-to-end delivery: after every chunk exactly the messages whose frames have arrived whole have been
      delivered, in order; when all bytes are in, all of them have, and no byte is left over. */
  lemma EndToEnd(ms: seq<Message>, chunks: seq<string>, j: nat)
    requires AllWellFormed(ms) && Concat(chunks) == Wire(ms) && j <= |chunks|
    ensures var seen := Concat(chunks[..j]);
            var r := ReceiveAll(FRESH, chunks[..j]);
            && !r.crashed && |seen| <= |Wire(ms)|
            && r.delivered == ms[..WholeLines(Texts(ms), |seen|)]
            && (j == |chunks| ==> r.delivered == ms && r.buffer == "")
  {
    hide Serialize, Deliver, Lines, Rest, Unlines, AnyBad;
    var seen, later := Concat(chunks[..j]), Concat(chunks[j..]);
    assert chunks == chunks[..j] + chunks[j..];
    ConcatAppend(chunks[..j], chunks[j..]);
    ChunkInvariance(chunks[..j]);
    TextsClean(ms);
    PrefixLines(Texts(ms), seen, later);
    var k := WholeLines(Texts(ms), |seen|);
    assert Texts(ms)[..k] == Texts(ms[..k]);
    TextsDeliver(ms[..k]);
    WholeLinesExact(Texts(ms), |seen|);
    if j == |chunks| {
      assert later == "" && chunks[..j] == chunks;
      assert ms[..|ms|] == ms;
    }
  }
}
