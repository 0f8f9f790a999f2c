# Bedrock WebSocket session layer, modelled in Dafny

This project models the per-connection session layer of a Minecraft Bedrock
WebSocket bridge (`lib/server.js`). The game connects to the server over a
WebSocket. Each such connection is a `Connection`, and it:

- correlates `commandRequest` frames with the `commandResponse` frames the
  game answers them with, through a table keyed by a random request id;
- subscribes to the game's raw event channels;
- re-emits the events it receives on the server's event hub under public names;
- keeps a roster of the players in its world, by polling `list` once a second.

The server (`BedrockServer`) keeps the set of live connections. It also keeps
the list of raw channels every world must be subscribed to. Registering a
listener with `on` for a public name that has a raw channel (`MC_EVENT_MAP`)
does two things: it adds the channel to that list, and it subscribes the
channel on every live connection. A new connection replays the whole list.

The modules follow the source's structure:

- `Values`: parsed JSON, JavaScript property access, truthiness.
- `Text`: `split(", ")` and the two chained escaping replaces.
- `Protocol`: event names, `MC_EVENT_MAP` and the dispatch table, the request
  envelopes, classification of inbound frames, the `tellraw` texts and the
  parse of the `list` result.
- `Roster`: the diff one poll tick performs, as functions on the roster's
  iteration order.
- `Session`: the `Connection` class.
- `Server`: the `BedrockServer` class.

Things the source takes from the environment are explicit in the model:

- The transport's `readyState === 1` is the `open` field.
- Each fresh `randomUUID()` is an id parameter that the caller guarantees is
  not in use.
- A promise is a ticket number. `settled` records every settlement, so "each
  promise is settled at most once, and never while still pending" is an
  invariant (`CorrelationValid`).
- The expiry of a deadline, and each firing of the poll interval, is a method
  call. A poll tick is split in two: `PollRequest` sends the `list` command,
  and `PollTick` applies the result once it has settled.
- Emissions on the hub are appended to `emitted`, and frames sent to the peer
  to `sent`.

Behaviour the model keeps from the code, where a design reading might expect
something else:

- The `close` handler does not settle pending requests. They stay in the
  table, and only their deadlines can still settle them (`Close`).
- The stored subscribe `resolve` reads `res.statusCode` before settling. For a
  response whose body is undefined or null, the entry is removed and its
  deadline cleared, but the promise is never settled (`Resolves`, `Resolve`).
- `subscribe` always sends a fresh frame, even for a channel it already
  records. The set itself never holds a channel twice.
- A connection adds the sender of any chat message to its roster, if absent.
  The next poll tick that does not list that name removes it again, unless the
  name is the sentinel `外部`.

## Model

| member | source | states |
|---|---|---|
| Text.JoinSplit | lib/server.js:122 | joining the pieces of `s.split(", ")` with ", " gives back `s`, for every string |
| Text.SplitPiecesHaveNoSeparator | lib/server.js:122 | no piece of the split contains ", " |
| Text.SplitJoin | lib/server.js:122 | splitting the join of separator-free pieces gives back those pieces, so with JoinSplit the split is the unique separator-free decomposition of the text |
| Text.EscapeIsCharwise | lib/server.js:234 | the two chained global replaces (backslashes first, then quotes) equal a one-pass, character-by-character escape |
| Text.UnescapeEscape | lib/server.js:234 | the escaped text has no bare quote and no dangling backslash, so it closes no string literal early, and it reads back as the original message |
| Text.EscapePlain | lib/server.js:36 | text without backslashes or quotes is embedded unchanged |
| Text.EscapeQuotedWord | lib/server.js:36 | any message of the form `words "word"\`, with plain words, is embedded as `words \"word\"\\` |
| Protocol.McEventName | lib/server.js:22-27 | the table's own entries: a raw channel exists exactly for chat, command_executed, player_transform and player_travelled, and the dispatcher maps that channel back to the same public name |
| Protocol.ChannelTablesAgree | lib/server.js:22-27 | the subscription table and the inbound dispatch table are inverse to each other, in both directions |
| Protocol.GuardAsWrittenWidensLookup | lib/server.js:315-316 | the `if (mcEventName)` guard as written accepts exactly the four public names plus every member name inherited from `Object.prototype` |
| Protocol.InheritedNamePassesGuard | lib/server.js:315-316 | "constructor" passes the guard as written although it names no event |
| Protocol.ChatOf | lib/server.js:260-263 | a chat event is kept exactly when its body is present, its sender is a truthy string and its message is truthy; the kept sender and message are the body's own fields |
| Protocol.Classify | lib/server.js:238-290 | a malformed frame is dropped, and so is a frame whose purpose is neither `commandResponse` nor `event`; a response carries the header's request id and the frame's body; a chat message is ChatOf of a `PlayerMessage` event's body; only the three non-chat public names are ever forwarded, each from an event on its own raw channel with the frame's body |
| Protocol.ClassifyResponse | lib/server.js:248-256 | any frame whose header says `commandResponse` with a string request id yields that id and the frame's body, whatever else the envelope holds |
| Protocol.ClassifyResponseWithoutId | lib/server.js:248-249 | a `commandResponse` frame without a string request id is dropped |
| Protocol.ClassifyForwarded | lib/server.js:277-285 | any event frame on a subscribable non-chat channel is re-emitted, body and all, under the public name it was subscribed for |
| Protocol.ClassifyChat | lib/server.js:260-276 | any `PlayerMessage` event frame whose body has a non-empty string sender and a truthy message yields that chat message |
| Protocol.ClassifyChatIncomplete | lib/server.js:260-263 | any `PlayerMessage` event frame whose body is absent, or has a falsy sender or message, is dropped |
| Protocol.ClassifyUnknownChannel | lib/server.js:257-286 | any event frame whose channel is missing, not a string, or not one of the four raw channels is dropped |
| Protocol.OwnFramesIgnored | lib/server.js:156-168 | the session's own request envelopes, were they echoed back, are neither responses nor events |
| Protocol.BroadcastCommand | lib/server.js:233-235 | the broadcast command is a `tellraw` command (so it bypasses correlation) whose embedded text field reads back as the message |
| Protocol.TellCommand | lib/server.js:35-38 | the per-player command is a `tellraw` command whose embedded text field reads back as the message |
| Protocol.ParseList | lib/server.js:118-124 | an undefined or null result throws; a non-zero status lists nobody; with a zero status, a falsy `players` lists nobody, a truthy non-string one throws, and a string one is listed as names that join back to it with ", " and contain no separator |
| Protocol.HostNameQueryIsCorrelated | lib/server.js:169-175 | the host-name query is not a raw-text command, so it waits for its response in the table |
| Protocol.ListOfStatus | lib/server.js:121 | a status-only result and the timeout result list nobody |
| Roster.KeptElems | lib/server.js:126-132 | the players kept by a tick are exactly the known names that are the sentinel or listed, without repetition |
| Roster.DepartedElems | lib/server.js:126-132 | the players a tick removes are exactly the known names that are neither the sentinel nor listed, without repetition |
| Roster.ArrivalsElems | lib/server.js:134-140 | the players a tick adds are exactly the listed names not yet known, each once |
| Roster.TickRoster | lib/server.js:115-142 | one tick takes the roster P to {n in P, n the sentinel or listed} plus the listed names, and never holds a name twice |
| Roster.TickEventsExactly | lib/server.js:126-140 | one tick emits `leave` exactly for the known non-sentinel names not listed, and `join` exactly for the listed names not known, each at most once |
| Roster.EmptyListingEvicts | lib/server.js:119-132 | a `list` result with a non-zero status (a failed or timed-out `list`) or without a truthy `players` lists nobody, and that tick evicts every known player except the sentinel |
| Roster.TickExample | lib/server.js:115-142 | for any distinct names A, B, C with A not the sentinel, roster [A, B] with listing [B, C] becomes [B, C] and emits only `leave(A)`, then `join(C)` |
| Session.SettleKeepsCorrelation | lib/server.js:250-255 | removing a pending entry and settling its promise keeps every promise settled at most once, and never while pending |
| Session.AddPlayerKeepsRoster | lib/server.js:265-269 | a player added under its own name, at the end of the order, keeps the roster keyed by name and duplicate-free |
| Session.SubscribeEntriesAt | lib/server.js:81-83 | with distinct ids, the replayed subscriptions add one entry per id, the k-th for the k-th channel, on promise first + k with a 2 s deadline, and nothing else |
| Session.AfterSubscribe | lib/server.js:192-231 | `subscribe` on a state: nothing when not open; otherwise the channel is in the set, a frame is sent and the id is pending; it never touches the transport, the players, the hub or the settlements |
| Session.Connection.constructor | lib/server.js:44-51 | a new connection starts with only PlayerMessage subscribed and runs `init`; afterwards it is subscribed to exactly PlayerMessage and the server's channels, has sent their frames in order followed by the `getlocalplayername` command, has those requests pending on promises 0, 1, ..., and is polling |
| Session.Connection.Init | lib/server.js:77-86 | `init` emits the world-added event, subscribes each server channel in order under its own id (frames, entries, fresh promises), sends the `getlocalplayername` command pending on the next promise, and starts polling, keeping the session invariant |
| Session.Connection.IdentifyHost | lib/server.js:98-100 | the synchronous part of `identifyHost`: one `getlocalplayername` frame is sent and waits under its id with a 10 s deadline on a fresh promise |
| Session.Connection.RunCommand | lib/server.js:152-190 | closed: status -1 and nothing sent; `tellraw`/`titleraw`: sent and status 0 at once, no entry; otherwise sent and pending under its id with a 10 s deadline on a fresh promise |
| Session.Connection.Subscribe | lib/server.js:192-231 | closed: nothing; open: the channel joins the set, and a frame is sent and pending under its id with a 2 s deadline, even for a channel already subscribed |
| Session.Connection.Broadcast | lib/server.js:233-236 | exactly one `tellraw @a` frame with the escaped message when open, an immediate status, and no table entry |
| Session.Connection.SendToPlayer | lib/server.js:35-39 | exactly one `tellraw "<name>"` frame with the escaped message when open, an immediate status, and no table entry |
| Session.Connection.Timeout | lib/server.js:175-178 | an expired deadline removes its entry and settles its promise with the timeout value; for an id no longer pending nothing changes |
| Session.Connection.Resolve | lib/server.js:248-256 | a response for a pending id removes it and settles its promise once with the body (not for a subscription with no body); unknown, late or duplicate ids change nothing |
| Session.Connection.RecordChat | lib/server.js:265-275 | the sender is in the roster afterwards, added at the end only if absent, and exactly one chat event is emitted |
| Session.Connection.Dispatch | lib/server.js:248-285 | the effect of each kind of classified frame, on the table, the settlements, the roster and the hub, and nothing else |
| Session.Connection.HandleMessage | lib/server.js:238-290 | `_handleMessage` = Dispatch of Classify: a dropped frame changes nothing, and no frame sends anything or alters the subscriptions |
| Session.Connection.PollRequest | lib/server.js:115-118 | a tick on an open, polling connection sends one `list` command pending under its id; otherwise it does nothing |
| Session.Connection.PollTick | lib/server.js:118-141 | a result that throws changes nothing; otherwise the roster becomes NextOrder and the events are TickEvents, with the table and transport untouched |
| Session.Connection.ApplyListing | lib/server.js:126-140 | the two loops of a tick take the roster to NextOrder and emit TickEvents, keeping the roster keyed by name and duplicate-free |
| Session.Connection.EvictUnlisted | lib/server.js:126-132 | the first loop keeps the Kept players in order and emits one `leave` per Departed player, in map order |
| Session.Connection.AdmitListed | lib/server.js:134-140 | the second loop appends the Arrivals in listing order and emits one `join` each |
| Session.Connection.TransportClosing | lib/server.js:153 | the transport leaves the open state; the session invariant is kept |
| Session.Connection.Close | lib/server.js:89-93 | polling stops, the roster is emptied, one world-removed event is emitted, and pending requests stay in the table |
| Server.Added | lib/server.js:317 | `Set.add` on the insertion-ordered channel list: the channel is in it, the order of the others is kept, nothing is repeated, and adding a present channel changes nothing |
| Server.BedrockServer.constructor | lib/server.js:298-301 | no connections, and the channel list is [PlayerMessage] |
| Server.BedrockServer.Accept | lib/server.js:327-330 | a fresh connection joins the set, subscribed to exactly the server's channels, with their frames sent in the server's order followed by the `getlocalplayername` command; every open connection still covers the list |
| Server.BedrockServer.On | lib/server.js:312-322 | a name with a raw channel adds it to the list and subscribes it on every connection under that connection's id (closed ones unchanged); any other name changes nothing; every open connection still covers the list |
| Server.BedrockServer.SubscribeEverywhere | lib/server.js:319 | each connection of the set runs `subscribe(channel)` once, under its own id, and stays sound |
| Server.BedrockServer.HandleClose | lib/server.js:89-94 | the connection is closed as in Close (polling stopped, roster emptied, one world-removed event; its table, settlements, subscriptions, frames and promise count unchanged, and still sound) and leaves the set; every remaining open connection still covers the list |

## Left out

- Session.Connection.IdentifyHost: only the part of `identifyHost` before its first `await` is modelled, which is the `getlocalplayername` request (line 100). What follows once that request settles is left out: setting the world's local-player display name, and the possible second request `testfor @s` (lines 101-108). It only writes the `World` descriptor (lines 58-72), which is not modelled either.
- `getPlayers` (lines 63-69) is not a member of its own. Its result is ParseList's; unlike the poll tick, it passes a thrown error on to its caller as a rejection.
- The hub itself is not modelled: `EventEmitter` storage, handler invocation order, payload objects such as `{ player, world }` and the `open` emission of `setupWss`. Emissions are recorded as `Event` values instead. `super.on` is not modelled. Handlers are assumed to return normally. A handler that throws inside the poll tick's `emit` (lines 130 and 138) ends the tick at the catch on line 141 and leaves the roster half-updated, and one that throws on `chat` is caught at line 287. PollTick and ApplyListing assume both loops run to the end.
- Timers are not modelled as objects. Clearing a deadline is implicit: a deadline fires only while its id is pending, which `Timeout` models as a no-op for any other id. A second `startPlayerPolling` is not modelled, because it happens only once per connection.
- Logging (`console.error`) is not modelled, and neither is the transport `error` handler.
- JSON numbers are integers in the model, and JSON text is not parsed: an inbound frame is either `Malformed` or an already parsed document.
- Protocol.ChatOf: a truthy chat sender that is not a string (a number, say) is dropped. The source instead stores a player under that non-string key.
- Session.Connection.Init: the server's channel list is a sequence in insertion order, as a JavaScript `Set` iterates. The connection's own channel set is a Dafny `set`, since only membership is ever read from it.
- Text.UnescapeEscape: the round trip covers quotes and backslashes only, as the source escapes only those. Control characters (U+0000 to U+001F) pass through unescaped, so the embedded text is not always a well-formed JSON string under section 7 of RFC 8259.
- Server.BedrockServer.On: the channel is looked up with McEventName, the corrected lookup over the table's own entries, not with the lookup as written (see Findings).
- Server.BedrockServer.On: `connections.forEach` visits the connections in insertion order, but the model visits them in an unspecified order. Each connection's effect is independent of the others.
- The second `readyState` check inside the promise executor of `runCommand` (lines 182-188) is not a separate branch. The executor runs synchronously right after the check at line 153, so the transport is still open there and that branch cannot be taken.
- Poll ticks that overlap are modelled only as separate `PollRequest` and `PollTick` calls in any interleaving. Each call is atomic, as on the single JavaScript thread.
- `tcpexposer/tcpexposer_handler.js` is not part of this model.

## Findings

| source | as written | input that shows it | evidently intended | confidence | as-written member | corrected member |
|---|---|---|---|---|---|---|
| lib/server.js:315-316 | `MC_EVENT_MAP[eventName]` reads a plain object literal, so the members inherited from `Object.prototype` are found too, and they are truthy | `server.on("constructor", f)` adds the `Object` function to the channel list and sends a subscribe for it on every connection | only the four own entries of the table map to a channel | not executed | Protocol.InheritedNamePassesGuard | Protocol.McEventName |
