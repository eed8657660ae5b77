/** What a chunk of bytes does to a connection once its lines are known: the buffer loop refines
    "split once, then handle each message", and which chunks a connection survives. */
module Batches {
  import opened Text
  import opened Decimal
  import opened Messages
  import opened Framing
  import opened Connection

  function HandleAll(p: Party, c: Conn, ms: seq<Message>): Outcome<Conn>
    decreases |ms|
  {
    if ms == [] then Ok(c)
    else
      var c1 :- HandleMessage(p, c.(state := Received), ms[0]);
      HandleAll(p, c1, ms[1..])
  }

  function WithBuffer(r: Outcome<Conn>, buffer: string): Outcome<Conn> {
    match r
    case Ok(c) => Ok(c.(buffer := buffer))
    case Abort(f) => Abort(f)
  }

  lemma SendIgnoresBuffer(p: Party, c: Conn, m: Message, b: string)
    ensures SendMessage(p, c.(buffer := b), m) == WithBuffer(SendMessage(p, c, m), b)
  {
  }

  lemma {:induction false} PerformIgnoresBuffer(p: Party, c: Conn, calls: seq<Call>, b: string)
    ensures Perform(p, c.(buffer := b), calls) == WithBuffer(Perform(p, c, calls), b)
    decreases |calls|
  {
    if calls != [] {
      var r := PerformOne(p, c, calls[0]);
      if calls[0].Send? {
        SendIgnoresBuffer(p, c, calls[0].message, b);
      }
      if r.Ok? {
        PerformIgnoresBuffer(p, r.value, calls[1..], b);
      }
    }
  }

  lemma HandleIgnoresBuffer(p: Party, c: Conn, m: Message, b: string)
    ensures HandleMessage(p, c.(buffer := b), m) == WithBuffer(HandleMessage(p, c, m), b)
  {
    var script := React(p, |c.log.received|, m);
    PerformIgnoresBuffer(p, c.(log := c.log.(received := c.log.received + [m])), script.calls, b);
  }

  lemma {:induction false} HandleAllIgnoresBuffer(p: Party, c: Conn, ms: seq<Message>, b: string)
    ensures HandleAll(p, c.(buffer := b), ms) == WithBuffer(HandleAll(p, c, ms), b)
    decreases |ms|
  {
    if ms != [] {
      HandleIgnoresBuffer(p, c.(state := Received), ms[0], b);
      var r := HandleMessage(p, c.(state := Received), ms[0]);
      if r.Ok? {
        HandleAllIgnoresBuffer(p, r.value, ms[1..], b);
      }
    }
  }

  /** The outcome of handling every message delivered from `buffer`, then keeping the unfinished line. */
  function SplitThenHandle(p: Party, c: Conn, buffer: string): Outcome<Conn> {
    var d := Deliver(Lines(buffer));
    var c1 :- HandleAll(p, c, d.messages);
    if d.crashed then Abort(NumberFormat) else Ok(c1.(buffer := Rest(buffer)))
  }

  lemma HandleNone(p: Party, c: Conn)
    ensures HandleAll(p, c, []) == Ok(c)
  {
  }

  lemma SplitIgnoresBuffer(p: Party, c: Conn, buffer: string)
    ensures SplitThenHandle(p, c.(buffer := buffer), buffer) == SplitThenHandle(p, c, buffer)
  {
    hide Deliver;
    HandleAllIgnoresBuffer(p, c, Deliver(Lines(buffer)).messages, buffer);
  }

  /** The buffer loop, which interleaves cutting and handling, equals splitting first and handling afterwards. */
  lemma {:induction false} DrainRefinesSplit(p: Party, c: Conn)
    ensures Drain(p, c) == SplitThenHandle(p, c, c.buffer)
    decreases |c.buffer|
  {
    hide HandleMessage, HandleAll, ParseMessage;
    HandleNone(p, c);
    var i := Find(c.buffer, '\n');
    if i == |c.buffer| {
      assert Lines(c.buffer) == [] && Rest(c.buffer) == c.buffer;
    } else {
      var line, later := c.buffer[..i], c.buffer[i + 1..];
      DeliverCons(line, Lines(later));
      var c1 := c.(buffer := later);
      assert c.buffer[..|c.buffer|] == c.buffer;
      match Read(line)
      case NoMessage =>
        DrainRefinesSplit(p, c1);
        SplitIgnoresBuffer(p, c, later);
      case BadNumber =>
      case Parsed(m) => DrainOne(p, c, m, later);
    }
  }

  lemma {:induction false} DrainOne(p: Party, c: Conn, m: Message, later: string)
    requires |later| < |c.buffer|
    ensures var c1 := HandleMessage(p, c.(buffer := later, state := Received), m);
            var d := Deliver(Lines(later));
            var all := HandleAll(p, c, [m] + d.messages);
            var drained := match c1 case Ok(c2) => Drain(p, c2) case Abort(f) => Abort(f);
            drained == if all.Abort? then all
                       else if d.crashed then Abort(NumberFormat)
                       else Ok(all.value.(buffer := Rest(later)))
    decreases |c.buffer|, 0
  {
    hide HandleMessage, Deliver;
    var d := Deliver(Lines(later));
    HandleIgnoresBuffer(p, c.(state := Received), m, later);
    assert ([m] + d.messages)[1..] == d.messages;
    var r := HandleMessage(p, c.(state := Received), m);
    if r.Ok? {
      var c2 := r.value.(buffer := later);
      DrainRefinesSplit(p, c2);
      HandleAllIgnoresBuffer(p, r.value, d.messages, later);
    }
  }

  /** A client only notes what it received. */
  lemma {:induction false} ClientHandles(p: Party, c: Conn, ms: seq<Message>)
    requires p.app.ClientApp?
    ensures HandleAll(p, c, ms)
         == Ok(c.(state := if ms == [] then c.state else Received,
                  log := c.log.(received := c.log.received + ms)))
    decreases |ms|
  {
    if ms == [] {
      assert c.log.received + ms == c.log.received;
    } else {
      var c1 := c.(state := Received, log := c.log.(received := c.log.received + [ms[0]]));
      ClientHandles(p, c1, ms[1..]);
      assert c.log.received + [ms[0]] + ms[1..] == c.log.received + ms;
    }
  }

  /** The buffer loop of a client is one step of the framing receiver: same buffer, same messages, same exception. */
  lemma ClientReceives(p: Party, c: Conn, chunk: string)
    requires p.app.ClientApp?
    ensures var r := Receive(Receiver(c.buffer, c.log.received, false), chunk);
            match Drain(p, c.(buffer := c.buffer + chunk))
            case Ok(d) => r == Receiver(d.buffer, d.log.received, false)
            case Abort(f) => f == NumberFormat && r.crashed
  {
    hide Deliver, Lines, Rest, HandleAll;
    var c1 := c.(buffer := c.buffer + chunk);
    DrainRefinesSplit(p, c1);
    ClientHandles(p, c1, Deliver(Lines(c1.buffer)).messages);
  }

  /** A chunk that completes exactly one frame: its message is handled and the buffer left empty. */
  lemma DrainFrame(p: Party, c: Conn, m: Message)
    requires WellFormed(m) && c.buffer == Frame(m)
    ensures Drain(p, c) == WithBuffer(HandleMessage(p, c.(state := Received), m), "")
  {
    hide Deliver, Frame, HandleMessage;
    FrameDelivers(m);
    DrainRefinesSplit(p, c);
    assert [m][1..] == [];
    var r := HandleMessage(p, c.(state := Received), m);
    if r.Ok? {
      HandleNone(p, r.value);
    }
  }

  lemma DrainPartial(p: Party, c: Conn)
    requires '\n' !in c.buffer
    ensures Drain(p, c) == Ok(c)
  {
    FindIsUnique(c.buffer, '\n', |c.buffer|);
    assert c.buffer[..|c.buffer|] == c.buffer;
  }

  // Which chunks a connection survives. The condition is about the scripts of the handlers.

  /** The scripts by which `ms` are handled, the first of them as message `n`. */
  function Scripts(p: Party, n: nat, ms: seq<Message>): (ss: seq<Script>)
    ensures |ss| == |ms| && forall i | 0 <= i < |ms| :: ss[i] == React(p, n + i, ms[i])
    decreases |ms|
  {
    if ms == [] then [] else [React(p, n, ms[0])] + Scripts(p, n + 1, ms[1..])
  }

  /** A script ends an open connection, its libuv calls being numbered from `k`: it closes, or one of its writes fails. */
  ghost predicate Ends(p: Party, k: nat, calls: seq<Call>) {
    Shut in calls || exists j {:trigger p.io(j)} :: k <= j < k + |calls| && p.io(j) != 0
  }

  /** A closed connection survives a script that does nothing, or that closes again before it sends. */
  predicate Quiet(calls: seq<Call>) {
    calls == [] || calls[0].Shut?
  }

  function CallsBefore(ss: seq<Script>, i: nat): nat
    requires i <= |ss|
  {
    if i == 0 then 0 else |ss[0].calls| + CallsBefore(ss[1..], i - 1)
  }

  ghost predicate EndsAt(p: Party, k: nat, ss: seq<Script>, i: nat)
    requires i < |ss|
  {
    Ends(p, k + CallsBefore(ss, i), ss[i].calls)
  }

  /** No handler dies of itself, and after the one that ended the connection nothing is sent. */
  ghost predicate Survivable(p: Party, k: nat, ss: seq<Script>) {
    && (forall i | 0 <= i < |ss| :: ss[i].fault.None?)
    && (forall i, j | 0 <= i < j < |ss| :: EndsAt(p, k, ss, i) ==> Quiet(ss[j].calls))
  }

  ghost predicate AllQuiet(ss: seq<Script>) {
    forall i | 0 <= i < |ss| :: ss[i].fault.None? && Quiet(ss[i].calls)
  }

  lemma SurvivableCons(p: Party, k: nat, ss: seq<Script>)
    requires ss != []
    ensures Survivable(p, k, ss)
       <==> && ss[0].fault.None?
            && if Ends(p, k, ss[0].calls) then AllQuiet(ss[1..]) else Survivable(p, k + |ss[0].calls|, ss[1..])
    ensures |ss| > 1 ==> (EndsAt(p, k, ss, |ss| - 1) <==> EndsAt(p, k + |ss[0].calls|, ss[1..], |ss| - 2))
  {
    hide Ends, Quiet;
    var tail, k' := ss[1..], k + |ss[0].calls|;
    assert EndsAt(p, k, ss, 0) <==> Ends(p, k, ss[0].calls);
    forall i | 0 < i < |ss| ensures ss[i] == tail[i - 1] && (EndsAt(p, k, ss, i) <==> EndsAt(p, k', tail, i - 1)) {
      assert k + CallsBefore(ss, i) == k' + CallsBefore(tail, i - 1);
    }
    SurvivableShift(p, k, ss);
  }

  lemma SurvivableShift(p: Party, k: nat, ss: seq<Script>)
    requires ss != []
    requires forall i | 0 < i < |ss| ::
               ss[i] == ss[1..][i - 1] && (EndsAt(p, k, ss, i) <==> EndsAt(p, k + |ss[0].calls|, ss[1..], i - 1))
    requires EndsAt(p, k, ss, 0) <==> Ends(p, k, ss[0].calls)
    ensures Survivable(p, k, ss)
       <==> && ss[0].fault.None?
            && if Ends(p, k, ss[0].calls) then AllQuiet(ss[1..]) else Survivable(p, k + |ss[0].calls|, ss[1..])
  {
    hide EndsAt, Ends, Quiet;
    var tail, k' := ss[1..], k + |ss[0].calls|;
    assert forall j | 0 <= j < |tail| :: tail[j] == ss[j + 1];
    if Survivable(p, k, ss) {
      forall i, j | 0 <= i < j < |tail| && EndsAt(p, k', tail, i) ensures Quiet(tail[j].calls) {
        assert EndsAt(p, k, ss, i + 1);
      }
    }
    if ss[0].fault.None? && !Ends(p, k, ss[0].calls) && Survivable(p, k', tail) {
      forall i, j | 0 <= i < j < |ss| && EndsAt(p, k, ss, i) ensures Quiet(ss[j].calls) {
        assert EndsAt(p, k', tail, i - 1);
      }
    }
  }

  lemma {:induction false} ClosingPerforms(p: Party, c: Conn, calls: seq<Call>)
    requires (c.state == Closing || c.state == Closed) && !c.stream
    ensures var r := Perform(p, c, calls);
            r.Ok? && r.value == c.(state := r.value.state) && (c.state == Closing ==> r.value == c)
    decreases |calls|
  {
    if calls != [] {
      ClosingPerforms(p, PerformOne(p, c, calls[0]).value, calls[1..]);
    }
  }

  lemma ClosedPerforms(p: Party, c: Conn, calls: seq<Call>)
    requires c.state == Received && !c.stream
    ensures var r := Perform(p, c, calls);
            && (r.Ok? <==> Quiet(calls))
            && (r.Ok? ==> r.value == c.(state := if calls != [] then Closing else Received))
  {
    if calls != [] && calls[0].Shut? {
      ClosingPerforms(p, Close(c), calls[1..]);
    }
  }

  /** From `c` to `d` messages were taken in and frames handed out, on a stream that stayed open. */
  ghost predicate Carried(c: Conn, d: Conn) {
    && d == c.(state := d.state, log := c.log.(calls := d.log.calls, wrote := d.log.wrote, received := d.log.received))
    && c.log.wrote <= d.log.wrote
  }

  /** The same, but the stream was passed to `uv_close` on the way. */
  ghost predicate Ended(c: Conn, d: Conn) {
    && d == c.(state := d.state, stream := false,
               log := c.log.(calls := d.log.calls, wrote := d.log.wrote, received := d.log.received,
                             closing := true, closes := c.log.closes + 1))
    && c.log.wrote <= d.log.wrote
  }

  lemma {:induction false} OpenPerforms(p: Party, c: Conn, calls: seq<Call>)
    requires c.stream && !(c.state == Closing || c.state == Closed)
    ensures var r := Perform(p, c, calls);
            && r.Ok? && r.value.log.received == c.log.received
            && (r.value.stream <==> !Ends(p, c.log.calls, calls))
            && (r.value.stream ==> Carried(c, r.value) && r.value.log.calls == c.log.calls + |calls|
                                   && r.value.state == if calls == [] then c.state else Sending)
            && (!r.value.stream && !c.log.closing ==> Ended(c, r.value) && r.value.state == Closing)
    decreases |calls|
  {
    hide Frame;
    if calls != [] {
      EndsCons(p, c.log.calls, calls);
      var c1 := PerformOne(p, c, calls[0]).value;
      if c1.stream {
        hide Ends;
        OpenPerforms(p, c1, calls[1..]);
      } else {
        ClosingPerforms(p, c1, calls[1..]);
      }
    }
  }

  lemma EndsCons(p: Party, k: nat, calls: seq<Call>)
    requires calls != []
    ensures Ends(p, k, calls) <==> calls[0].Shut? || p.io(k) != 0 || Ends(p, k + 1, calls[1..])
  {
    assert calls == [calls[0]] + calls[1..];
  }

  lemma QuietEnds(p: Party, k: nat, calls: seq<Call>)
    requires Quiet(calls)
    ensures Ends(p, k, calls) <==> calls != []
  {
    if calls != [] {
      assert calls[0] == Shut;
    }
  }

  lemma ScriptsCons(p: Party, n: nat, ms: seq<Message>)
    requires ms != []
    ensures var ss := Scripts(p, n, ms);
            && ss == [React(p, n, ms[0])] + Scripts(p, n + 1, ms[1..]) && ss[1..] == Scripts(p, n + 1, ms[1..])
            && (AllQuiet(ss) <==> ss[0].fault.None? && Quiet(ss[0].calls) && AllQuiet(ss[1..]))
  {
    hide React, Quiet;
    var ss := Scripts(p, n, ms);
    assert ss[1..] == Scripts(p, n + 1, ms[1..]);
    assert forall i | 0 < i < |ss| :: ss[i] == ss[1..][i - 1];
  }

  /** `c` has been handed the message `m`. */
  function Taken(c: Conn, m: Message): Conn {
    c.(state := Received, log := c.log.(received := c.log.received + [m]))
  }

  lemma HandleFirst(p: Party, c: Conn, ms: seq<Message>)
    requires ms != []
    ensures var script := React(p, |c.log.received|, ms[0]);
            var r := Perform(p, Taken(c, ms[0]), script.calls);
            HandleAll(p, c, ms) == if r.Abort? then r
                                   else if script.fault.Some? then Abort(script.fault.value)
                                   else HandleAll(p, r.value, ms[1..])
  {
    hide Perform, React;
  }

  lemma {:induction false} ClosedHandles(p: Party, c: Conn, ms: seq<Message>)
    requires !c.stream
    ensures var r := HandleAll(p, c, ms);
            var ss := Scripts(p, |c.log.received|, ms);
            && (r.Ok? <==> AllQuiet(ss))
            && (r.Ok? && ms != [] ==>
                  r.value == c.(state := if ss[|ss| - 1].calls != [] then Closing else Received,
                                log := c.log.(received := c.log.received + ms)))
    decreases |ms|
  {
    hide Perform, React, Quiet, HandleAll, AllQuiet, Scripts;
    if ms == [] {
      HandleNone(p, c);
      AllQuietNone();
    } else {
      var n, c1 := |c.log.received|, Taken(c, ms[0]);
      var script := React(p, n, ms[0]);
      HandleFirst(p, c, ms);
      ScriptsCons(p, n, ms);
      ClosedPerforms(p, c1, script.calls);
      if script.fault.None? && Quiet(script.calls) {
        var c2 := Perform(p, c1, script.calls).value;
        ClosedHandles(p, c2, ms[1..]);
        HandleNone(p, c2);
        TakenThen(c, ms);
      }
    }
  }

  lemma TakenThen(c: Conn, ms: seq<Message>)
    requires ms != []
    ensures Taken(c, ms[0]).log.received + ms[1..] == c.log.received + ms
  {
    AppendAssoc(c.log.received, [ms[0]], ms[1..]);
    assert [ms[0]] + ms[1..] == ms;
  }

  lemma AllQuietNone()
    ensures AllQuiet([])
  {
  }

  /** Where an open connection is after surviving a batch. */
  ghost predicate Handled(p: Party, c: Conn, ms: seq<Message>, d: Conn) {
    var ss := Scripts(p, |c.log.received|, ms);
    && d.log.received == c.log.received + ms
    && if d.stream then
         && Carried(c, d)
         && if ms == [] then d.state == c.state
            else (d.state.Received? || d.state.Sending?) && !EndsAt(p, c.log.calls, ss, |ss| - 1)
       else
         && Ended(c, d) && ms != []
         && if EndsAt(p, c.log.calls, ss, |ss| - 1) then d.state == Closing
            else d.state == Received && ss[|ss| - 1].calls == []
  }

  /** An open connection survives a batch exactly if the scripts are survivable. */
  lemma {:induction false} OpenHandles(p: Party, c: Conn, ms: seq<Message>)
    requires c.stream
    ensures var r := HandleAll(p, c, ms);
            && (r.Ok? <==> Survivable(p, c.log.calls, Scripts(p, |c.log.received|, ms)))
            && (r.Ok? && !c.log.closing ==> Handled(p, c, ms, r.value))
    decreases |ms|
  {
    hide Perform, React, Quiet, Ends, Survivable, EndsAt, AllQuiet, HandleAll, Scripts, Handled, HandledFirst;
    if ms == [] {
      HandleNone(p, c);
      HandledNone(p, c);
    } else {
      var n := |c.log.received|;
      var script := React(p, n, ms[0]);
      HandleFirst(p, c, ms);
      ScriptsCons(p, n, ms);
      SurvivableCons(p, c.log.calls, Scripts(p, n, ms));
      OpenFirst(p, c, ms[0], script.calls);
      if script.fault.None? {
        OpenRest(p, c, ms, Perform(p, Taken(c, ms[0]), script.calls).value);
      }
    }
  }

  lemma OpenFirst(p: Party, c: Conn, m: Message, calls: seq<Call>)
    requires c.stream
    ensures var r := Perform(p, Taken(c, m), calls);
            && r.Ok? && |r.value.log.received| == |c.log.received| + 1
            && (r.value.stream <==> !Ends(p, c.log.calls, calls))
            && (r.value.stream ==> r.value.log.calls == c.log.calls + |calls| && r.value.log.closing == c.log.closing)
            && (!c.log.closing ==> HandledFirst(p, c, m, calls, r.value))
  {
    hide Perform, Ends;
    OpenPerforms(p, Taken(c, m), calls);
  }

  /** The induction step of `OpenHandles`. */
  lemma {:induction false} OpenRest(p: Party, c: Conn, ms: seq<Message>, c2: Conn)
    requires c.stream && ms != [] && |c2.log.received| == |c.log.received| + 1
    requires c2.stream ==> c2.log.closing == c.log.closing
    requires !c.log.closing ==> HandledFirst(p, c, ms[0], React(p, |c.log.received|, ms[0]).calls, c2)
    ensures var r, tail := HandleAll(p, c2, ms[1..]), Scripts(p, |c.log.received| + 1, ms[1..]);
            && (r.Ok? <==> if c2.stream then Survivable(p, c2.log.calls, tail) else AllQuiet(tail))
            && (r.Ok? && !c.log.closing ==> Handled(p, c, ms, r.value))
    decreases |ms|, 0
  {
    hide React, Quiet, Survivable, EndsAt, AllQuiet, HandleAll, Scripts, Handled, HandledFirst;
    var r := HandleAll(p, c2, ms[1..]);
    if c2.stream {
      OpenHandles(p, c2, ms[1..]);
      if r.Ok? && !c.log.closing {
        HandledOpen(p, c, ms, c2, r.value);
      }
    } else {
      ClosedHandles(p, c2, ms[1..]);
      HandleNone(p, c2);
      if r.Ok? && !c.log.closing {
        HandledClosed(p, c, ms, c2, r.value);
      }
    }
  }

  lemma HandledNone(p: Party, c: Conn)
    requires c.stream
    ensures Survivable(p, c.log.calls, Scripts(p, |c.log.received|, [])) && Handled(p, c, [], c)
  {
    assert c.log.received + [] == c.log.received;
  }

  /** `c2` is `c` after the script `calls` for the message `m` on an open stream. */
  ghost predicate HandledFirst(p: Party, c: Conn, m: Message, calls: seq<Call>, c2: Conn) {
    && c2.log.received == c.log.received + [m]
    && (c2.stream <==> !Ends(p, c.log.calls, calls))
    && if c2.stream then Carried(c, c2) && c2.log.calls == c.log.calls + |calls|
                         && (c2.state.Received? || c2.state.Sending?)
       else Ended(c, c2) && c2.state == Closing
  }

  lemma HandledOpen(p: Party, c: Conn, ms: seq<Message>, c2: Conn, d: Conn)
    requires ms != [] && HandledFirst(p, c, ms[0], React(p, |c.log.received|, ms[0]).calls, c2)
    requires c2.stream && Handled(p, c2, ms[1..], d)
    ensures Handled(p, c, ms, d)
  {
    hide React, Ends, EndsAt, Scripts;
    var ss := Scripts(p, |c.log.received|, ms);
    ScriptsCons(p, |c.log.received|, ms);
    SurvivableCons(p, c.log.calls, ss);
    AppendAssoc(c.log.received, [ms[0]], ms[1..]);
    assert [ms[0]] + ms[1..] == ms;
    if |ss| == 1 {
      LastEnds(p, c.log.calls, ss);
    } else {
      assert |ss[1..]| - 1 == |ss| - 2;
    }
  }

  lemma LastEnds(p: Party, k: nat, ss: seq<Script>)
    requires |ss| == 1
    ensures EndsAt(p, k, ss, |ss| - 1) <==> Ends(p, k, ss[0].calls)
  {
  }

  lemma HandledClosed(p: Party, c: Conn, ms: seq<Message>, c2: Conn, d: Conn)
    requires ms != [] && HandledFirst(p, c, ms[0], React(p, |c.log.received|, ms[0]).calls, c2)
    requires !c2.stream && c.stream
    requires var ss := Scripts(p, |c.log.received| + 1, ms[1..]);
             && AllQuiet(ss)
             && d == if ss == [] then c2
                     else c2.(state := if ss[|ss| - 1].calls != [] then Closing else Received,
                              log := c2.log.(received := c2.log.received + ms[1..]))
    ensures Handled(p, c, ms, d)
  {
    hide React, Quiet, Ends, Scripts, EndsAt, AllQuiet, CallsBefore;
    var ss := Scripts(p, |c.log.received|, ms);
    ScriptsCons(p, |c.log.received|, ms);
    if |ss| == 1 {
      LastEnds(p, c.log.calls, ss);
    } else {
      LastIsQuiet(p, c.log.calls, ss);
    }
    AppendAssoc(c.log.received, [ms[0]], ms[1..]);
    assert [ms[0]] + ms[1..] == ms;
  }

  lemma LastIsQuiet(p: Party, k: nat, ss: seq<Script>)
    requires |ss| > 1 && AllQuiet(ss[1..])
    ensures EndsAt(p, k, ss, |ss| - 1) <==> ss[|ss| - 1].calls != []
  {
    hide Quiet, Ends;
    assert ss[1..][|ss| - 2] == ss[|ss| - 1];
    QuietEnds(p, k + CallsBefore(ss, |ss| - 1), ss[|ss| - 1].calls);
  }

  /** A chunk that a reading connection survives: no peer line without a port, survivable scripts, and for a node's outgoing
      connection a last script that does not end it, since `process` has no case for `Closing`. */
  ghost predicate ChunkSurvives(p: Party, c: Conn, data: string) {
    var d := Deliver(Lines(c.buffer + data));
    var ss := Scripts(p, |c.log.received|, d.messages);
    && !AnyBad(Lines(c.buffer + data))
    && Survivable(p, c.log.calls, ss)
    && (p.kind.Peer? && ss != [] ==> !EndsAt(p, c.log.calls, ss, |ss| - 1))
  }

  /** Whatever libuv returns, a chunk is survived exactly in this case. */
  lemma ChunkSurvivesIff(p: Party, c: Conn, data: string)
    requires c.stream && data != ""
    requires !p.kind.Incoming? ==> !c.log.closing && Live(c.state)
    requires p.kind.Outgoing? ==> p.app.ClientApp?
    ensures OnRead(p, c, |data|, data).Ok? <==> ChunkSurvives(p, c, data)
  {
    CrashesIff(Lines(c.buffer + data));
    hide AnyBad, Deliver, HandleAll, Process, Survivable, EndsAt, Scripts, React, Lines, Rest;
    var c1 := c.(buffer := c.buffer + data);
    var ms := Deliver(Lines(c1.buffer)).messages;
    DrainRefinesSplit(p, c1);
    OpenHandles(p, c1, ms);
    if Drain(p, c1).Ok? && !p.kind.Incoming? {
      var d := HandleAll(p, c1, ms).value;
      if p.kind.Outgoing? {
        ClientHandles(p, c1, ms);
      }
      ProcessAfterBatch(p, d.(buffer := Rest(c1.buffer)));
    }
    IncomingProcess(p);
  }

  lemma ProcessAfterBatch(p: Party, c: Conn)
    requires p.kind.Peer? || (p.kind.Outgoing? && c.stream)
    requires (Live(c.state) && (c.stream || c.state.Received?)) || c.state == Closing
    ensures Process(p, c).Ok? <==> c.state != Closing
  {
  }

  lemma IncomingProcess(p: Party)
    ensures p.kind.Incoming? ==> forall c :: Process(p, c) == Ok(c)
  {
  }

  // The server.

  predicate IsRequest(m: Message) {
    m.Handshake? || m.Ping?
  }

  predicate WrongVersion(m: Message) {
    m.Handshake? && m.version != "V01"
  }

  /** While the stream is open every request costs one libuv call, so call `calls + i` belongs to message `i`. */
  predicate ServerEnds(p: Party, calls: nat, ms: seq<Message>, i: nat)
    requires i < |ms|
  {
    WrongVersion(ms[i]) || p.io(calls + i) != 0
  }

  /** Everything is a request, and after the message that ends the connection only wrong-version handshakes follow. */
  ghost predicate ServerSurvivable(p: Party, calls: nat, ms: seq<Message>) {
    && (forall i | 0 <= i < |ms| :: IsRequest(ms[i]))
    && (forall i, j | 0 <= i < j < |ms| :: ServerEnds(p, calls, ms, i) ==> WrongVersion(ms[j]))
  }

  lemma ServerScript(p: Party, n: nat, m: Message)
    requires p.app.ServerApp?
    ensures var script := React(p, n, m);
            && (script.fault.None? <==> IsRequest(m))
            && |script.calls| == (if IsRequest(m) then 1 else 0)
            && (IsRequest(m) ==> (Quiet(script.calls) <==> WrongVersion(m)) && (Shut in script.calls <==> WrongVersion(m)))
  {
  }

  lemma {:induction false} UnitCalls(ss: seq<Script>, i: nat)
    requires i <= |ss| && forall j | 0 <= j < |ss| :: |ss[j].calls| == 1
    ensures CallsBefore(ss, i) == i
    decreases i
  {
    if i > 0 {
      UnitCalls(ss[1..], i - 1);
    }
  }

  lemma ServerScripts(p: Party, k: nat, n: nat, ms: seq<Message>)
    requires p.app.ServerApp?
    ensures Survivable(p, k, Scripts(p, n, ms)) <==> ServerSurvivable(p, k, ms)
  {
    hide React, IsRequest, WrongVersion, Quiet, Scripts;
    var ss := Scripts(p, n, ms);
    forall i | 0 <= i < |ms|
      ensures ss[i].fault.None? <==> IsRequest(ms[i])
      ensures IsRequest(ms[i]) ==>
                |ss[i].calls| == 1 && (Quiet(ss[i].calls) <==> WrongVersion(ms[i])) && (Shut in ss[i].calls <==> WrongVersion(ms[i]))
    {
      ServerScript(p, n + i, ms[i]);
    }
    if forall i | 0 <= i < |ms| :: IsRequest(ms[i]) {
      forall i | 0 <= i < |ms| ensures EndsAt(p, k, ss, i) <==> ServerEnds(p, k, ms, i) {
        UnitCalls(ss, i);
      }
      hide EndsAt, ServerEnds;
      SameSurvivable(p, k, ss, ms);
    }
  }

  lemma SameSurvivable(p: Party, k: nat, ss: seq<Script>, ms: seq<Message>)
    requires |ss| == |ms|
    requires forall i | 0 <= i < |ms| :: ss[i].fault.None? && IsRequest(ms[i])
    requires forall i | 0 <= i < |ms| :: Quiet(ss[i].calls) <==> WrongVersion(ms[i])
    requires forall i | 0 <= i < |ms| :: EndsAt(p, k, ss, i) <==> ServerEnds(p, k, ms, i)
    ensures Survivable(p, k, ss) <==> ServerSurvivable(p, k, ms)
  {
    hide EndsAt, ServerEnds, IsRequest, WrongVersion, Quiet;
  }

  /** A server that is reading survives a chunk if and only if no peer line lacks a port, every message is a request, and nothing that needs an answer follows the message that ended the connection. */
  lemma ServerSurvivesIff(p: Party, c: Conn, data: string)
    requires p.kind.Incoming? && p.app.ServerApp? && c.stream && data != ""
    ensures var d := Deliver(Lines(c.buffer + data));
            OnRead(p, c, |data|, data).Ok? <==> !AnyBad(Lines(c.buffer + data)) && ServerSurvivable(p, c.log.calls, d.messages)
  {
    hide OnRead, AnyBad, Deliver, Lines, Survivable, ServerSurvivable, Scripts;
    ChunkSurvivesIff(p, c, data);
    ServerScripts(p, c.log.calls, |c.log.received|, Deliver(Lines(c.buffer + data)).messages);
  }

  /** A chunk of whole frames into an empty buffer: its messages are handled in turn, then comes `process`. */
  lemma WireHandled(p: Party, c: Conn, ms: seq<Message>)
    requires c.buffer == "" && AllWellFormed(ms) && ms != []
    ensures var r := HandleAll(p, c, ms);
            OnRead(p, c, |Wire(ms)|, Wire(ms)) == if r.Abort? then r else Process(p, r.value)
  {
    hide HandleAll, Process, Deliver, Lines, Rest, Unlines;
    var data := Wire(ms);
    assert data != "" by { WireNotEmpty(ms); }
    assert c.buffer + data == data;
    WireDelivers(ms);
    DrainRefinesSplit(p, c.(buffer := data));
    HandleAllIgnoresBuffer(p, c, ms, data);
    HandleAllIgnoresBuffer(p, c, ms, "");
    assert c.(buffer := "") == c;
  }

  lemma WireNotEmpty(ms: seq<Message>)
    requires ms != []
    ensures Wire(ms) != ""
  {
  }

  /** A failing batch: a wrong-version handshake and a ping in one chunk make a server
      write to a stream it has already given up. */
  lemma WriteAfterCloseInBatch(p: Party, c: Conn)
    requires p.kind.Incoming? && p.app.ServerApp? && c.stream && c.buffer == ""
    ensures var data := Wire([Handshake("V02", "a", "b"), Ping("x")]);
            OnRead(p, c, |data|, data) == Abort(NullStream)
  {
    var first, second := Handshake("V02", "a", "b"), Ping("x");
    var ms := [first, second];
    assert IsToken("V02") && IsToken("a") && IsToken("b") && IsToken("x");
    WireHandled(p, c, ms);
    hide Wire;
    assert ms[1..] == [second];
    PerformSingle(p, Taken(c, first), Shut);
    var c2 := Close(Taken(c, first));
    HandleFirst(p, c, ms);
    PerformSingle(p, Taken(c2, second), React(p, |c2.log.received|, second).calls[0]);
    HandleFirst(p, c2, [second]);
  }

  /** A peer line without a port kills whatever connection reads it. */
  lemma BadLineIsFatal(p: Party, c: Conn, line: string)
    requires c.buffer == "" && '\n' !in line && BadLine(line)
    ensures OnRead(p, c, |line + "\n"|, line + "\n") == Abort(NumberFormat)
  {
    hide Read, HandleAll, Lines, Rest, BadLine, Process;
    var data := line + "\n";
    BadLineIff(line);
    assert data + "" == data && c.buffer + data == data;
    FirstLine(line, "");
    NoLine("");
    DeliverCons(line, []);
    assert [line] + [] == [line];
    DrainRefinesSplit(p, c.(buffer := data));
    HandleNone(p, c.(buffer := data));
  }

  lemma PeerLine(host: string, port: string)
    requires IsToken(host) && IsToken(port) && NotAnInt(port)
    ensures var line := "OPEER" + " " + host + " " + port; BadLine(line) && '\n' !in line
  {
    hide Tokens, NotAnInt;
    ThreeWords("OPEER", host, port);
    CleanPair("OPEER" + " ", host);
    CleanPair("OPEER" + " " + host, " ");
    CleanPair("OPEER" + " " + host + " ", port);
  }

  /** A failing chunk for every connection. */
  lemma BadLineKills(p: Party, c: Conn)
    requires c.buffer == ""
    ensures OnRead(p, c, 10, "OPEER a x\n") == Abort(NumberFormat)
  {
    hide OnRead, BadLine, NotAnInt;
    LetterIsNoInt();
    PeerLine("a", "x");
    ThatLine();
    BadLineIsFatal(p, c, "OPEER" + " " + "a" + " " + "x");
  }

  lemma ThatLine()
    ensures "OPEER" + " " + "a" + " " + "x" + "\n" == "OPEER a x\n" && |"OPEER a x\n"| == 10
  {
  }

  /** A failing chunk for servers: anything but a request, here a ping response. */
  lemma ResponseKillsServer(p: Party, c: Conn)
    requires p.app.ServerApp? && c.stream && c.buffer == ""
    ensures var data := Wire([PingResponse("x")]); OnRead(p, c, |data|, data) == Abort(UnexpectedMessage)
  {
    var m := PingResponse("x");
    assert IsToken("x");
    WireHandled(p, c, [m]);
    hide Wire;
    HandleFirst(p, c, [m]);
  }
}
