# A verified model of the libuv peer-to-peer sample

The program is a small TCP library on top of libuv with three applications: a client that sends a handshake and some
pings, a server that answers them, and a node that listens, dials other nodes and gossips about those it knows.
This project restates its logic in Dafny and proves what that logic promises. `dafny verify dfyconfig.toml` checks it.

## How it is laid out

| file | about |
|---|---|
| Text, Decimal | strings, `>>` extraction, `to_string` and `stoi` with the 32-bit range |
| Messages | the five messages, the printing visitor, the tokeniser, the parser |
| Framing | lines out of arbitrary chunks, end-to-end delivery |
| Endpoint | `host:port` text |
| Connection, NetClient | one connection: each callback as a function on values, and the object that does it in place |
| Batches | what one chunk does to a connection, which chunks it survives |
| Callbacks | runs of one connection under libuv |
| NodeBatches | the same for a node's connections, in terms of the messages and the peer table |
| Exchange | a client and a server joined by two byte streams |
| Ordering, PeerTable, NodeApp | the node: `std::map` order, its operations as functions, and the object that does them in place |
| TableRuns, Gossip | what the peer table keeps over every run, what gossip says |
| NodeLaws | what a node's operations achieve: who is dialled, learned, answered, forgotten and gossiped |
| Network, Peering | many nodes exchanging messages; the link between a node's connection and the network model |
| WireNetwork | many nodes joined by byte streams and driven by callbacks |

The two objects, `NetClient` and `NodeApp`, are classes whose methods update fields; each method is proved to do exactly
what a function on values says, down to the way the process dies. The theorems are then about those functions.
A failed `assert`, an exception nobody catches and a write to a null stream are outcomes (`Abort`), not excluded inputs.

## What is assumed of the surroundings

libuv is a relation on events (`Callbacks.Enabled`): each accepted connect, write and close has one callback, a write's
callback comes before its stream's close callback, nothing is read on a stream that is closing, and `connect` never calls
back at once. Result codes of libuv calls come from an arbitrary function `io`. That finished writes are reported before the
next read (`Callbacks.InOrder`), and that a close is reported before a timer fires again (`Callbacks.ClosesFirst`), are separate
assumptions, made only where a statement says so. `myUvStream` starts null,
which the constructor at lib/net_client.cpp:18-23 leaves unsaid. Characters stand for bytes, and text is in the "C" locale.

## Results where the code falls short of what one would expect

Each failure below is proved at an input or a run, with the exact condition under which it happens; the last has the
condition only.

* A write reported to a closing connection trips the assertion in `onWrite`. For a client this takes a stream that ends while
  a ping is still being written (`Callbacks.CancelledWriteTrips`), and it cannot happen when writes are reported in order
  (`Callbacks.OrderedSafety`). For a server order is no help: a ping and a wrong-version handshake in one chunk suffice
  (`Callbacks.CancelledReplyTrips`). `Callbacks.StepSafe` has the condition for every kind of connection.
* The loop in `doProcessReceivedBuffer` goes on after a handler, or a failed write, has closed the connection and sets
  `Received` again, so a later request in the same chunk is written to a null stream (`Batches.WriteAfterCloseInBatch`). The
  `process` of an outgoing connection has no case for one that the last handler closed (`NodeBatches.WrongVersionKillsPeer`).
  `Batches.ServerSurvivesIff` and `NodeBatches.NodeSurvivesIff` say exactly which chunks are survived.
* A connection left in `Received` in this way would write to a null stream if its ping timer fired before its close is
  reported (`NodeBatches.StaleTimerTrips`). libuv's loop reports closes first, and then no run dies in the timer
  (`Callbacks.TimersHarmless`): here the program leans on that order.
* A node dies on a handshake of the right version from a known peer whose name is a colon and no number: nobody catches what
  `stoi` throws (`NodeBatches.HandlerThrows`, `NodeBatches.HandlerThrowsIff`, and `NodeBatches.UnreadablePortKills` for the
  connection). A peer line whose third word is no 32-bit number kills whoever reads it (`Batches.BadLineKills`,
  `Messages.BadLineIff`, `Framing.CrashesIff`).
* A server dies on any message that is no request (`Batches.ResponseKillsServer`, `Batches.ServerSurvivesIff`); a node ignores
  responses (`NodeBatches.HandlerThrowsIff`).
* A failed dial is not reported as closed, so its entry stays in the peer list and blocks its candidate
  (`TableRuns.NoRetry`): the million attempts granted to extra peers are never used for retries, and an address is tried at
  most once more than connections at it are closed (`TableRuns.DialsBoundedByCloses`).
* `ServerApp::start` sets the name after listening has begun (lib/app.cpp:30-35). A handshake answered before that carries an
  empty name, the answer has a word too few, the client cannot read it and both ends wait for ever
  (`Exchange.NamelessStuck`); the exchange runs to its end if and only if there is a name (`Exchange.CompletesIffNamed`).
* A message survives the wire if and only if its fields are non-empty and free of blanks (`Messages.RoundTripIff`), an
  endpoint if and only if its host has no colon (`Endpoints.RoundTripIff`).

## Model

| member | source | states |
|---|---|---|
| Decimal.AccumulateExact | lib/message.cpp:152 | `strtol`'s digit loop gives up exactly when the number written exceeds the limit, and otherwise yields it |
| Decimal.StoiExact | lib/message.cpp:152 | `stoi` returns the number written; it throws invalid-argument exactly when there is no digit and out-of-range exactly when the number is not a 32-bit int |
| Decimal.PrintThenParse | lib/message.cpp:125 | any printed integer, after blanks and before a non-digit, parses back to itself if it is a 32-bit int and is out of range otherwise |
| Decimal.RoundTrip | node/endpoint.cpp:23 | `stoi(to_string(p)) == p` on the whole 32-bit range, minimum included |
| Decimal.PrintInjective | node/node.cpp:79 | different numbers print differently |
| Decimal.PrintedCanonical | lib/message.cpp:125 | a printed number has no leading zero and no needless sign, and denotes the number |
| Decimal.NumeralParses | lib/message.cpp:152 | blanks, an optional plus or minus, digits with any leading zeros, then anything: parses to that number or is out of range |
| Decimal.OthersDoNot | lib/message.cpp:152 | text of any other form has no number |
| Decimal.IntRange | lib/message.cpp:152 | the range ends at 2147483647 and -2147483648 |
| Messages.SerializerMessageVisitor.constructor | lib/message.cpp:103-126 | a new visitor holds no text |
| Messages.SerializerMessageVisitor.Visit | lib/message.cpp:103-126 | visiting a message leaves exactly its text in `myMessage`, whatever was there before |
| Messages.Tokenize | lib/net_client.cpp:165-171 | the extraction loop yields the words of the line |
| Text.SixBlanks | lib/net_client.cpp:170 | the blanks between words are exactly the six of the C locale |
| Messages.TokensCharacterised | lib/net_client.cpp:165-171 | a list of words is the result if and only if the line is those words with blank gaps around and non-empty blank gaps between them |
| Messages.ParserImage | lib/message.cpp:128-155 | whatever line is parsed, a resulting message has non-empty, blank-free fields |
| Messages.RoundTripIff | lib/message.cpp:103-155 | printing, tokenising and parsing gives a message back if and only if its fields are non-empty and blank-free |
| Messages.NormalForm | lib/message.cpp:103-155 | print-after-parse keeps the meaning of every line and is idempotent; with `Messages.ReadIff`, padded numbers and surplus words vanish at once |
| Messages.PrintedForm | lib/message.cpp:103-126 | a message is printed as its words with single blanks between them |
| Messages.PrintedAt | lib/message.cpp:103-126 | the five texts at inputs |
| Messages.ReadIff | lib/message.cpp:128-155 | a line is read as a message if and only if its words start with those of the message, the port in any spelling, whatever words follow |
| Messages.NoMessageIff | lib/message.cpp:128-155 | a line is no message if and only if it is blank, starts with another word, or has too few words |
| Messages.SurplusVanishes | lib/message.cpp:128-155 | whatever follows a printed message on its line is ignored |
| Messages.BadLineIff | lib/message.cpp:150-153 | parsing throws on exactly the lines of at least three words whose first is OPEER and whose third starts with no number or with one outside 32 bits |
| Messages.NoTerminatorInside | lib/net_client.cpp:46-48 | the text of a well-formed message never contains the terminator |
| Framing.SplitLossless | lib/net_client.cpp:153-183 | lines rejoined with terminators plus the remaining buffer are the input; no line and no rest holds a terminator |
| Framing.SplitCharacterised | lib/net_client.cpp:159-163 | the split is the only one with these properties |
| Framing.SplitAcross | lib/net_client.cpp:235-240 | bytes held back and bytes arriving later split as if they had come together |
| Framing.ChunkInvariance | lib/net_client.cpp:153-183 | for any bytes and any cutting, messages delivered, exception and remaining buffer depend on the bytes only, and the buffer holds no terminator |
| Framing.CrashesIff | lib/net_client.cpp:159-182 | the work ends in an exception if and only if some line is such a line |
| Framing.WholeLinesExact | lib/net_client.cpp:159-163 | the count of frames that have arrived whole: that many fit into the bytes so far, one more does not |
| Framing.WireIsFrames | lib/net_client.cpp:44-57 | the byte stream is the concatenation of the buffers passed to `uv_write` |
| Framing.EndToEnd | lib/net_client.cpp:153-183 | for well-formed messages and any cutting of their bytes, after each chunk exactly the messages that have arrived whole are delivered, in order; at the end all of them, with an empty buffer |
| Endpoints.RoundTripIff | node/endpoint.cpp:8-29 | parsing a printed endpoint gives it back if and only if the host has no colon |
| Endpoints.ReprintIff | node/endpoint.hpp:19 | a string reprints to itself if and only if it is a colon-free host, a colon and a printed 32-bit port |
| Endpoints.ParsedText | node/endpoint.cpp:8-29 | text without a colon is the host with port 0; otherwise the host ends at the first colon and the port is the number after it, or 0 if that is no 32-bit number |
| Endpoints.KeyAt | node/endpoint.hpp:19 | two keys at inputs |
| Endpoints.KeyInjective | node/node.cpp:79-86 | equal keys mean equal host and equal port, for all hosts, so a re-add never merges two candidates |
| NetClients.NetClient.constructor | lib/net_client.cpp:18-23 | a new connection is not connected, with no stream and an empty buffer |
| NetClients.NetClient.SendMessage | lib/net_client.cpp:36-70 | nothing when closing or closed; otherwise the printed message and terminator go out and the state is Sending, or the connection closes on an error code |
| NetClients.NetClient.OnClose | lib/net_client.cpp:84-96 | the application is told once and the state is Closed |
| NetClients.NetClient.Close | lib/net_client.cpp:98-115 | state Closing, the stream given up, passed to `uv_close` unless already closing |
| NetClients.NetClient.OnWrite | lib/net_client.cpp:139-151 | the assertion, the close on a bad status, or the next step of the state diagram |
| NetClients.NetClient.DoProcessReceivedBuffer | lib/net_client.cpp:153-183 | the loop on the buffer does what the recursive specification does, exceptions included, and ends |
| NetClients.NetClient.OnRead | lib/net_client.cpp:209-244 | end of file, zero bytes and errors close; data is appended, processed and followed by `process` |
| NetClients.NetClient.DoRead | lib/net_client.cpp:246-265 | the assertion on the state, then Receiving, or a close on an error |
| NetClients.NetClient.Connect | lib/net_client.cpp:335-362 | refused when connected; otherwise Connecting on a new stream with the counter at zero, the receive buffer kept |
| NetClients.NetClient.OnConnect | lib/net_client.cpp:307-333 | nothing on failure; otherwise the canonical address is recorded when the remote host differs, and `process` runs in Connected |
| NetClients.NetClient.Process | lib/net_client.hpp:51 | dispatch on the class of the connection |
| NetClients.NetClient.ProcessOut | lib/net_client.cpp:364-407 | handshake, reads, numbered pings, close once enough were sent, and death in every other state |
| NetClients.NetClient.ProcessPeer | node/peer_conn.cpp:50-93 | opening sequence and timer, reads, and death in every other state |
| NetClients.NetClient.OnTimer | node/peer_conn.cpp:42-48 | a ping, then gossip while connected |
| NetClients.NetClient.SendPing | lib/net_client.cpp:397-398 | the ping text with application name, peer address and counter |
| NetClients.NetClient.SendOtherPeers | node/node.cpp:323-342 | the loop stops as soon as the connection is gone |
| NetClients.NetClient.MessageReceived | lib/net_client.cpp:178-180 | the message is handed to the application, whose calls act on this connection in order, and whose exception or failed assertion ends the process |
| NetClients.NetClient.ServerMessageReceived | lib/app.cpp:66-98 | a right-version handshake and a ping are answered, a wrong version closes, anything else dies |
| NetClients.NetClient.PerformAll | node/node.cpp:238-321 | a handler's calls on the connection take effect in order |
| Batches.DrainRefinesSplit | lib/net_client.cpp:153-183 | the buffer loop, which interleaves cutting and handling, equals cutting everything first and then handling message by message |
| Batches.ClientReceives | lib/net_client.cpp:153-183 | for a client, one pass over the buffer is one step of the framing receiver of `Framing.ChunkInvariance` |
| Batches.ClientHandles | lib/app.cpp:134-137 | a client handles any batch without sending or closing |
| Batches.ChunkSurvivesIff | lib/net_client.cpp:209-244 | any connection, whatever libuv returns: a chunk is survived if and only if no peer line lacks a port, no handler dies of itself, nothing is sent after the handler that ended the connection, and on a node's outgoing connection the last handler did not end it |
| Batches.OpenHandles | lib/net_client.cpp:178-180 | after a survived batch the connection is open with all frames handed out, or was passed to `uv_close` exactly once, and is in the state the last handler left |
| Batches.ServerSurvivesIff | lib/app.cpp:66-98 | a reading server survives a chunk if and only if no peer line lacks a port, all messages are requests, and only wrong-version handshakes follow the one that ended the connection, be it by its version or by a failed write |
| Batches.WriteAfterCloseInBatch | lib/net_client.cpp:178-180 | the failing input: after a wrong-version handshake a ping in the same chunk is written to the null stream |
| Batches.BadLineIsFatal | lib/message.cpp:152 | a peer line without a port, read into an empty buffer, ends any connection in the exception |
| Batches.BadLineKills | lib/message.cpp:152 | the failing chunk: OPEER a x and its terminator |
| Batches.ResponseKillsServer | lib/app.cpp:95-96 | the failing chunk for a server: a ping response ends in the assertion |
| Callbacks.StepSafe | lib/net_client.cpp:139-151 | one callback of any connection, I/O errors included: fatal exactly for a write reported while closing, a chunk that is not survived, or the timer of a connection that was closed during a batch, each in its own way; otherwise the state invariant is kept |
| Callbacks.CallbackSafety | lib/net_client.cpp:98-115 | every run of any connection: it dies exactly if it reaches such a callback, never by the `doRead` assertion, a client only in `onWrite` or `stoi`; otherwise a stream was passed to `uv_close` at most once per connect |
| Callbacks.PlainStep | lib/app.cpp:66-98 | one callback of a client or server: fatal exactly for a write reported after the close, a peer line without a port, or, for a server, a chunk that is no survivable list of requests |
| Callbacks.PlainSafety | lib/app.cpp:66-98 | every run of a client or server, whatever libuv returns, dies exactly if it reaches one of these |
| Callbacks.OrderedSafety | lib/net_client.cpp:139-151 | with writes reported before the next read the `onWrite` assertion holds too, and at most one write is outstanding |
| Callbacks.CancelledWriteTrips | lib/net_client.cpp:142 | the failing run without that order, for every client with at least one ping |
| Callbacks.CancelledReplyTrips | lib/net_client.cpp:142 | the failing run of every server, in that order too |
| Callbacks.NothingAfterClose | lib/net_client.cpp:39-42 | on a stream that was given up no callback writes or tries to, but for the timer of a connection closed during a batch |
| Callbacks.VoluntaryClose | lib/net_client.cpp:390-394 | whatever the order of reads and write reports, a client closes of its own accord only after its handshake and at least the requested pings were sent |
| Callbacks.TimerSafe | node/peer_conn.cpp:42-48 | the timer may fire at any moment and with any I/O errors; it is fatal exactly for a connection closed during a batch, and does nothing after any other close |
| Callbacks.TimersHarmless | node/peer_conn.cpp:42-48 | if closes are reported before timers, no run dies in the timer, and it dies exactly by a write report to a closing connection or a chunk that is not survived |
| Callbacks.ErrorsClose | lib/net_client.cpp:139-234 | a bad write report, the end of the stream and a read error close an open connection, once, and do nothing else |
| Callbacks.ReportReadsOn | lib/net_client.cpp:377-388 | a good write report makes an outgoing connection read on, or close if libuv refuses, and counts one message if it was sending |
| Callbacks.PartialReadsOn | lib/net_client.cpp:235-264 | so does a chunk that completes no message, which is kept |
| Callbacks.NodeCounter | node/peer_conn.cpp:71-85 | a node's ping counter moves with write reports while sending, and at most once with a chunk whose last handler answered; a timer or a close leaves it |
| Callbacks.FailedDialIsSilent | lib/net_client.cpp:310-315 | a failed dial changes nothing, is not reported to the application, and no callback of the connection can follow |
| Callbacks.Redial | lib/net_client.cpp:335-362 | a live or closing connection is not dialled; one that is over gets a fresh stream, and unread bytes of the last one stay in the buffer |
| Callbacks.ConnectedMeansOpen | lib/net_client.cpp:267-275 | between callbacks a connection counts as connected exactly while its stream is open and past the dial |
| Callbacks.CanonicalNoted | lib/net_client.cpp:317-328 | the canonical address is the remote host with the dialled port, noted only if the host is not the one dialled |
| Callbacks.IncomingWaits | lib/net_client.hpp:51 | an incoming connection does nothing of its own: write reports are only noted, and a chunk leaves what its handlers leave |
| NodeBatches.HandlerThrowsIff | node/node.cpp:246-278 | a node's handler throws if and only if the message is a handshake of version V01 from a peer listed as incoming, with a name that is a colon followed by no number or by one outside 32 bits |
| NodeBatches.HandlerThrows | node/node.cpp:278 | the failing input: the line HANDSH V01 a :x |
| NodeBatches.ScriptOfMessage | node/node.cpp:238-321 | which messages a node closes on, answers, or throws on |
| NodeBatches.KnownStays | node/node.cpp:258 | handling a message changes neither the sender's address nor whether it is listed as incoming |
| NodeBatches.NodeSurvivesIff | node/node.cpp:238-321 | a node's connection, incoming or outgoing, whatever libuv returns, survives a chunk if and only if no peer line lacks a port, no handshake from a known peer has an unreadable one, no ping and no right-version handshake from a known peer follows the message that ended the connection, and on an outgoing one the last message did not end it |
| NodeBatches.NodeSurvivesFlawless | node/node.cpp:238-321 | without I/O errors this is a condition on the messages and on whether the sender is known: a wrong version is what ends a connection |
| NodeBatches.NodeStep | node/peer_conn.cpp:50-93 | one callback of a node's connection is fatal exactly if a write is reported while closing, the timer fires after a close during a batch, or the chunk is not survived in this sense |
| NodeBatches.NodeSafety | node/peer_conn.cpp:50-93 | every run of a node's connection, while the tables change in between in any way, dies exactly if it reaches one of these |
| NodeBatches.UnreadablePortKills | node/node.cpp:278 | the failing chunk for any connection of a node whose peer is known |
| NodeBatches.WrongVersionKillsPeer | node/peer_conn.cpp:87-90 | the failing chunk for an outgoing connection: a wrong-version handshake alone ends in the default branch of `process` |
| NodeBatches.StaleTimerTrips | node/peer_conn.cpp:42-46 | the failing order: wrong version, a message without answer, and the timer before the close is reported |
| Exchange.StepAdvances | lib/net_client.cpp:364-407 | each step of client, server or wire keeps the pair in one of four positions of the protocol and uses up work |
| Exchange.ExchangeCompletes | lib/net_client.cpp:364-407 | after any steps, with any cutting both ways: strict alternation, exact transcripts (handshake, then pings 1 to N, and their replies), close exactly after reply N+1; steps are bounded, and unless both ends have finished with the full transcript one more is possible |
| Exchange.NoCallbackDies | lib/app.cpp:66-98 | no callback that may come next fails |
| Exchange.AlwaysProceeds | lib/net_client.cpp:364-407 | in every position short of the end some step is possible |
| Exchange.NamelessResponseUnreadable | lib/app.cpp:81-82 | the handshake response of a server without a name is not a message to the client |
| Exchange.NamelessStuck | lib/app.cpp:28-36 | with such a server the exchange reaches a state that is not the end and that no step leaves |
| Exchange.CompletesIffNamed | lib/app.cpp:28-36 | every run is orderly, bounded, never stuck and ends with the full transcript on both sides if and only if the server has a name; never being stuck alone is equivalent too |
| Ordering.SortedIsUnique | node/node.cpp:119 | iteration over a `std::map` is the one strictly sorted list of its keys |
| Ordering.LexicographicIff | node/node.cpp:119 | the order is the lexicographic one: a proper prefix first, else the smaller character at the first difference |
| Ordering.TakeLeast | node/node.cpp:119 | the iterator's next key is the least one left |
| NodeApps.NodeApp.constructor | node/node.cpp:37-41 | a new node knows and has no one |
| NodeApps.NodeApp.Start | node/node.cpp:43-65 | two local candidates with one attempt each, then each non-empty extra peer with a million |
| NodeApps.NodeApp.ListenStarted | node/node.cpp:67-73 | the name is the port, then a sweep |
| NodeApps.NodeApp.AddOutPeerCandidate | node/node.cpp:76-89 | a new entry, or a new budget on top of the attempts made, and nothing else changes |
| NodeApps.NodeApp.TryOutConnections | node/node.cpp:115-137 | the iterator loop visits the keys in order and does one turn for each |
| NodeApps.NodeApp.TryCandidate | node/node.cpp:122-135 | one turn: eligibility, connection check, counts and dial |
| NodeApps.NodeApp.IsPeerConnected | node/node.cpp:139-155 | true if and only if some live entry of that direction has the address as its own or canonical one |
| NodeApps.NodeApp.TryOutConnection | node/node.cpp:157-186 | a dial to itself is a success without effect; otherwise the entry is listed whatever `connect` returns |
| NodeApps.NodeApp.InConnectionReceived | node/node.cpp:193-203 | one incoming entry at the end |
| NodeApps.NodeApp.ConnectionClosed | node/node.cpp:205-236 | both passes together are the order-preserving filter, and the restarting loop ends |
| NodeApps.NodeApp.ResetClosedClients | node/node.cpp:210-220 | exactly the entries of the closed connection or its address lose their client |
| NodeApps.NodeApp.EraseNullClients | node/node.cpp:221-235 | exactly the entries without a client go; each restart has one fewer of them |
| NodeApps.NodeApp.MessageReceived | node/node.cpp:238-321 | new table and calls on the sender, for every message, the exception included |
| NodeApps.NodeApp.HandshakeReceived | node/node.cpp:246-293 | version check, known-peer check, response, learning of the listening port, gossip, in that order |
| NodeApps.NodeApp.LearnPeer | node/node.cpp:268-290 | the connected host with the reported port becomes canonical and a candidate, unless it is the peer address itself |
| NodeApps.NodeApp.SendOtherPeers | node/node.cpp:323-342 | the messages sent, in order, until the recipient drops out |
| NodeApps.NodeApp.GetConnectedPeers | node/node.cpp:344-362 | the endpoints of the specification, in key order |
| NodeApps.NodeApp.CollectCanonical | node/node.cpp:346-354 | the set of canonical addresses of connected peers, each once |
| PeerTable.ResetThenErase | node/node.cpp:205-236 | resetting and erasing yields the filter |
| PeerTable.EraseOne | node/node.cpp:226-234 | one erase leaves the live entries as they are and one null entry fewer |
| TableRuns.SweepRefinesFilter | node/node.cpp:115-186 | although each push is read by later turns, the sweep equals a one-shot filter: old peers, then in key order exactly the candidates that were eligible, unconnected and not the node itself; counts and attempts likewise |
| TableRuns.SweepPeers | node/node.cpp:115-186 | after a sweep a candidate is connected outgoing if and only if it was or was dialled |
| TableRuns.SweepSettles | node/node.cpp:115-186 | after a sweep every candidate is the node itself, connected outgoing, or exhausted |
| TableRuns.SweepIsFixpoint | node/node.cpp:115-186 | a second sweep leaves peers and connections unchanged, whatever `connect` would return |
| TableRuns.SweepKeepsInv | node/node.cpp:115-137 | a sweep keeps the table invariant and loses no candidate |
| TableRuns.KeptInOrder | node/node.cpp:205-236 | the entries left after a close are exactly the kept ones, each at its place in the former order |
| TableRuns.ClosedKeepsInv | node/node.cpp:205-236 | a close keeps the invariant and leaves no entry of that connection or address |
| TableRuns.AddKeepsInv | node/node.cpp:76-89 | an add keeps the invariant |
| TableRuns.AcceptKeepsInv | node/node.cpp:193-203 | an accepted connection keeps the invariant |
| TableRuns.MessageKeepsInv | node/node.cpp:238-321 | every message keeps the invariant and loses no candidate |
| TableRuns.AddGrants | node/node.cpp:83 | after an add exactly the budget given is left, whether that raises or lowers what was left; host, port, counts and all other entries stay |
| TableRuns.SweepSpends | node/node.cpp:119-135 | a sweep takes exactly one attempt from each candidate that has one left and is not connected, none from the others |
| TableRuns.RunKeeps | node/node.cpp:76-236 | over every run of adds, sweeps, accepts, closes and messages: keys match entries, outgoing addresses are distinct and are candidates, no entry has a null client, connectedCount <= tryCount <= toTry, and the budgets hold |
| TableRuns.DialBudget | node/node.cpp:119-135 | the attempts made for a key over any run are its count, and never exceed the sum of all budgets given for it |
| TableRuns.NoRetry | node/node.cpp:122-183 | a candidate dialled in a sweep is not due again afterwards, whatever the dial returned and whatever budget is left: its entry is listed |
| TableRuns.DialsBoundedByCloses | node/node.cpp:115-236 | over every run, the attempts for an address that is not the node itself are at most one more than the closes of connections at it |
| Gossip.ConnectedPeersExact | node/node.cpp:344-362 | with addresses in canonical form: a strictly sorted list of exactly the connected peers' canonical addresses, each endpoint reprinting to its key |
| Gossip.GossipExact | node/node.cpp:323-342 | what is sent is a prefix of that list without the recipient's own address, all of it if and only if the recipient stays connected |
| Gossip.SentIsOffered | node/node.cpp:323-342 | everything sent is an OPEER for the canonical address of a connected peer |
| NodeLaws.TriedIff | node/node.cpp:115-186 | a sweep tries exactly the candidates with attempts left, or never tried, that no outgoing peer goes by, under its own or its canonical address; counts, successes and new entries follow, the node itself excepted |
| NodeLaws.FirstTryIsFree | node/node.cpp:122 | whatever the budgets, a candidate that was never tried and that no outgoing peer goes by is tried |
| NodeLaws.CanonicalBlocks | node/node.cpp:147 | a peer reached under one name is not dialled again under its canonical one |
| NodeLaws.FirstSweep | node/node.cpp:43-73 | a node started on a port tries localhost:5000 and then localhost:5001 once each and lists those that are not itself |
| NodeLaws.ExtrasGranted | node/node.cpp:52-62 | every non-empty peer given at the start is a candidate with a million attempts left |
| NodeLaws.ExtrasOnly | node/node.cpp:52-62 | and nothing else becomes one |
| NodeLaws.OfferIsPursued | node/node.cpp:304-311 | after an OPEER its address is a candidate, granted one attempt, and is the node itself or connected outgoing |
| NodeLaws.GreetingIsLearned | node/node.cpp:267-290 | a known peer's greeting with its listening port makes the text before the first colon of its address, with that port, its canonical address, a candidate granted one attempt, and the node itself or connected outgoing; if that is its address already, nothing changes |
| NodeLaws.NothingLearned | node/node.cpp:238-321 | a wrong version closes, a stranger gets no answer, and neither these nor a greeting without a port, a ping or a response changes the table |
| NodeLaws.AcceptedIsKnown | node/node.cpp:193-203 | an accepted connection is listed last as incoming and is known from then on |
| NodeLaws.KnownIff | node/node.cpp:139-155 | known means: some live incoming entry goes by the address, its own or its canonical one |
| NodeLaws.ClosedIff | node/node.cpp:205-236 | a close removes exactly the entries of that connection and of its host and port |
| NodeLaws.GossipIff | node/node.cpp:323-362 | to a recipient that stays connected exactly the canonical addresses of listed peers whose connections are up are sent, without its own |
| NodeLaws.GreetingIsAnswered | node/node.cpp:264-291 | a known peer's greeting is answered first with version, node name and the peer's address, then with gossip from the table after learning, the peer's own canonical address included |
| NodeLaws.AnsweredBeforeThrowing | node/node.cpp:264-278 | also a greeting whose port cannot be read is answered, before the exception |
| NodeLaws.PingIsAnswered | node/node.cpp:295-301 | a ping puts exactly the line with the node's name and the text on the wire |
| Network.MessageHandled | node/node.cpp:238-321 | a node that receives a message of an honest node stays in order, cannot die, does not close, and answers honestly |
| Network.EventKeeps | node/node.cpp:43-362 | every dial, accept, delivery, timer, close, loss and drop keeps the network invariant |
| Network.Provenance | node/node.cpp:246-311 | over every run of any number of nodes, each candidate is a seed or a real listening endpoint, each canonical address and each OPEER under way is a real one, and no candidate is ever lost |
| Network.NoHandlerDies | node/node.cpp:238-321 | no handler in such a network throws or fails an assertion |
| Network.NoHandlerCloses | node/node.cpp:250-255 | nor does any close the connection its message came over |
| Network.LinksSurviveTheWire | lib/net_client.cpp:153-183 | the messages on a link, in both directions, would arrive complete and in order through any cutting of their bytes |
| Peering.TimerWrites | node/peer_conn.cpp:42-48 | what a connection writes on its timer is what the network model puts on the link, one frame each, up to the first write that fails |
| Peering.OpeningAgrees | node/peer_conn.cpp:50-69 | what a connection writes and records on opening is what the network model puts on the link, up to the first write that fails |
| Peering.OpeningArrives | node/peer_conn.cpp:50-69 | for a dial in any reachable network the far end takes in exactly the messages of the new link in order, up to the first write that failed, however the bytes are cut |
| Peering.HonestChunkSurvives | node/node.cpp:238-321 | a chunk of messages of an honest node never kills the node's connection that reads it, as long as its own writes succeed |
| WireNetwork.ReadSome | lib/net_client.cpp:153-183 | reading some of the bytes of well-formed messages delivers the whole ones among them and keeps bytes that, with those to come, are the rest |
| WireNetwork.BatchHonest | node/node.cpp:238-321 | handling a batch of honest messages keeps the table in order and writes only honest messages, also when writes fail |
| WireNetwork.CallHonest | lib/net_client.cpp:139-244 | so does any callback of an established link, at either end |
| WireNetwork.MoveKeeps | node/node.cpp:43-362 | every sweep, dial, accept and callback keeps the byte-level network invariant and loses no candidate |
| WireNetwork.WireProvenance | node/node.cpp:246-311 | provenance over byte streams: with any cutting, order of callbacks and result codes, candidates are seeds or real endpoints, canonical addresses are real, every receive buffer with the bytes behind it is whole frames whose OPEERs are real, and no candidate is lost |

## Left out

- libuv itself, sockets, address lookup and file descriptors: `isConnected` takes for granted that an open stream still has a descriptor, and a lookup gives an arbitrary remote host.
- Ownership and lifetime of handles, write requests and connection objects, and what `sendMessage` and `close` return (they end without a return statement).
- The loop and thread management of `NetHandler` and its probing of listening ports: only the start of an accepted connection is modelled.
- Time: a timer is an event that may happen at any moment once it was started.
- Logging, `toString`, `debugPrint*`, command-line handling and the main programs.
- `ServerApp::myClients`, `UvWriteRequest`, and `ClientApp::start`, which dials three such clients: easy members only.
- Hosts with colons (IPv6 text) and failed lookups in gossip: the first-colon split does not support them, so `Gossip` and `Network` speak of canonical addresses with colon-free hosts.
- Overflow of attempt counters and of the `int` that indexes the receive buffer: mathematical integers; ports keep their 32 bits.
- A positive `nread` with a null buffer: libuv does not deliver one.
- Connection objects are numbered in the node's table; `Connection` and `PeerTable` meet through the handler's calls (`handler`, `gossip`, `alive`, `connectRes`). `NodeBatches.Follows` and `Peering.Serves` tie these to the table; one object is not shared between the two.
- NetClients.NetClient.Close: whether the stream is closing already is what this connection itself did; `NetHandler::on_walk`, which closes handles after the loop has ended and just before it is deleted, is not modelled.
- Network.Provenance: links carry messages, not bytes; `WireNetwork.WireProvenance` is the same over byte streams. A node's own death and restart are not modelled in either.
- Network.NoHandlerDies: about message handlers; write reports are no events of the network model, and what they can do is in `Callbacks.StepSafe`.
- Exchange.ExchangeCompletes: without I/O errors and with writes reported before the next read, as `Callbacks.CancelledWriteTrips` shows it must.
- TableRuns.RunKeeps: budgets are at least one, as at every call in the source; with less, tryCount could exceed toTry after the first attempt.
