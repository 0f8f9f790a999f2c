/** The wire vocabulary of the session layer: public event names, the table
    from public names to the game's raw event channels, outbound request
    envelopes, classification of inbound frames, the results a command can
    resolve with, and the `tellraw` command texts. */
module Protocol {
  import opened Values
  import opened Text

  type Id = string

  // ---------------------------------------------------------------------
  // Event names
  // ---------------------------------------------------------------------

  const ChatEvent: string := "chat"
  const CommandExecutedEvent: string := "command_executed"
  const TransformEvent: string := "player_transform"
  const TravelledEvent: string := "player_travelled"

  const PlayerMessage: string := "PlayerMessage"
  const SlashCommandExecuted: string := "SlashCommandExecuted"
  const PlayerTransform: string := "PlayerTransform"
  const PlayerTravelled: string := "PlayerTravelled"

  /** The public names a consumer can register for that need a subscription. */
  const SubscribableEvents: set<string> :=
    {ChatEvent, CommandExecutedEvent, TransformEvent, TravelledEvent}

  const RawChannels: set<string> :=
    {PlayerMessage, SlashCommandExecuted, PlayerTransform, PlayerTravelled}

  /** The inbound dispatch table: the public event a raw event channel is
      re-emitted under. */
  function PublicNameOf(channel: string): Option<string>
  {
    if channel == PlayerMessage then Some(ChatEvent)
    else if channel == SlashCommandExecuted then Some(CommandExecutedEvent)
    else if channel == PlayerTransform then Some(TransformEvent)
    else if channel == PlayerTravelled then Some(TravelledEvent)
    else None
  }

  /** `MC_EVENT_MAP[name]`, looked up among the table's own entries: the raw
      channel to subscribe to when a consumer registers for `name`. The
      subscription table and the dispatch table are inverse to each other, so
      a consumer registered for `name` receives what the channel carries. */
  function McEventName(name: string): (r: Option<string>)
    ensures r.Some? <==> name in SubscribableEvents
    ensures r.Some? ==> r.value in RawChannels && PublicNameOf(r.value) == Some(name)
  {
    if name == ChatEvent then Some(PlayerMessage)
    else if name == CommandExecutedEvent then Some(SlashCommandExecuted)
    else if name == TransformEvent then Some(PlayerTransform)
    else if name == TravelledEvent then Some(PlayerTravelled)
    else None
  }

  /** Every raw channel the dispatcher knows is reached from exactly one public name. */
  lemma ChannelTablesAgree(name: string, channel: string)
    ensures McEventName(name) == Some(channel) <==> PublicNameOf(channel) == Some(name)
  {
  }

  // ---------------------------------------------------------------------
  // The table as written: a plain object literal
  // ---------------------------------------------------------------------

  /** Names every plain JavaScript object inherits from `Object.prototype`. */
  const ObjectPrototypeKeys: set<string> := {
    "constructor", "__proto__", "toString", "toLocaleString", "valueOf",
    "hasOwnProperty", "isPrototypeOf", "propertyIsEnumerable",
    "__defineGetter__", "__defineSetter__", "__lookupGetter__", "__lookupSetter__"
  }

  datatype Lookup = Absent | OwnEntry(channel: string) | Inherited(member: string)

  /** `MC_EVENT_MAP[name]` as written: a property read on an object literal,
      which also finds the members inherited from `Object.prototype`. */
  function McEventLookupAsWritten(name: string): Lookup
  {
    match McEventName(name)
    case Some(channel) => OwnEntry(channel)
    case None => if name in ObjectPrototypeKeys then Inherited(name) else Absent
  }

  /** `if (mcEventName)` as written: every own entry is a non-empty string and
      every inherited member is a function or an object, all truthy. */
  predicate PassesGuardAsWritten(name: string)
  {
    !McEventLookupAsWritten(name).Absent?
  }

  /** Registering a listener for "constructor" passes the guard as written, so
      the `Object` function would be added to the subscription sets and
      subscribed on every connection, although "constructor" names no event. */
  lemma InheritedNamePassesGuard()
    ensures PassesGuardAsWritten("constructor") && McEventName("constructor").None?
  {
  }

  /** The guard as written accepts exactly the four public names plus the
      inherited member names; the own-entry lookup accepts only the four. */
  lemma GuardAsWrittenWidensLookup(name: string)
    ensures PassesGuardAsWritten(name) <==> name in SubscribableEvents || name in ObjectPrototypeKeys
  {
  }

  // ---------------------------------------------------------------------
  // What a session emits on the hub
  // ---------------------------------------------------------------------

  /** One emission on the server's event hub, for the session's own world. */
  datatype Event =
    | WorldAdded
    | WorldRemoved
    | Joined(name: string)
    | Left(name: string)
    | Chatted(sender: string, message: Json)
    | Forwarded(event: string, body: Option<Json>)

  // ---------------------------------------------------------------------
  // Outbound frames
  // ---------------------------------------------------------------------

  datatype Outbound =
    | CommandRequest(requestId: Id, commandLine: string)
    | SubscribeRequest(requestId: Id, eventName: string)

  /** The JSON envelope a frame is serialised from. */
  function Encode(frame: Outbound): Json
  {
    match frame
    case CommandRequest(id, line) =>
      JObj(map[
        "header" := JObj(map[
          "requestId" := JStr(id), "messagePurpose" := JStr("commandRequest"),
          "version" := JNum(1), "messageType" := JStr("commandRequest")]),
        "body" := JObj(map[
          "origin" := JObj(map["type" := JStr("player")]),
          "commandLine" := JStr(line), "version" := JNum(1)])])
    case SubscribeRequest(id, eventName) =>
      JObj(map[
        "header" := JObj(map[
          "version" := JNum(1), "requestId" := JStr(id),
          "messageType" := JStr("commandRequest"), "messagePurpose" := JStr("subscribe")]),
        "body" := JObj(map["eventName" := JStr(eventName)])])
  }

  // ---------------------------------------------------------------------
  // Inbound frames
  // ---------------------------------------------------------------------

  /** A received text frame: `Malformed` when `JSON.parse` fails. */
  datatype Frame = Malformed | Parsed(msg: Json)

  /** What `_handleMessage` makes of a frame, before it looks at the session state. */
  datatype Inbound =
    | Ignored
    | Response(requestId: Id, body: Option<Json>)
    | ChatMessage(sender: string, message: Json)
    | Forward(event: string, body: Option<Json>)

  /** `msg.header[key]`: None when the header is absent or null (reading it
      then throws) and when the header has no such field. */
  function HeaderField(msg: Json, key: string): Option<Json>
  {
    match Prop(msg, "header")
    case Some(header) => Prop(header, key)
    case None => None
  }

  /** A `PlayerMessage` event body: reading a field of an undefined or null
      body throws (the frame is dropped); a falsy sender or message ends the
      handling. */
  function ChatOf(body: Option<Json>): (r: Inbound)
    ensures r.Ignored? || r.ChatMessage?
    ensures r.ChatMessage? <==>
      && !Nullish(body)
      && Truthy(Prop(body.value, "sender")) && Prop(body.value, "sender").value.JStr?
      && Truthy(Prop(body.value, "message"))
    ensures r.ChatMessage? ==>
      && r.sender != "" && Truthy(Some(r.message))
      && Prop(body.value, "sender") == Some(JStr(r.sender))
      && Prop(body.value, "message") == Some(r.message)
  {
    if Nullish(body) then Ignored
    else
      var sender := Prop(body.value, "sender");
      var message := Prop(body.value, "message");
      if !Truthy(sender) || !Truthy(message) then Ignored
      else if sender.value.JStr? then ChatMessage(sender.value.s, message.value)
      else Ignored
  }

  /** Classification of a frame by `messagePurpose` and `eventName`. Access to
      `header` fields throws when the document or its header is null or absent,
      and the frame is then dropped like a malformed one. A response is taken
      only from a `commandResponse` frame with a string request id, a chat
      message and a forwarded event only from an `event` frame on the channel
      of that event; a frame of any other purpose is dropped. */
  function Classify(frame: Frame): (r: Inbound)
    ensures frame.Malformed? ==> r.Ignored?
    ensures frame.Parsed? ==>
      var purpose := HeaderField(frame.msg, "messagePurpose");
      purpose != Some(JStr("commandResponse")) && purpose != Some(JStr("event")) ==> r.Ignored?
    ensures r.Response? ==>
      && HeaderField(frame.msg, "messagePurpose") == Some(JStr("commandResponse"))
      && HeaderField(frame.msg, "requestId") == Some(JStr(r.requestId))
      && r.body == Prop(frame.msg, "body")
    ensures r.ChatMessage? ==>
      && HeaderField(frame.msg, "messagePurpose") == Some(JStr("event"))
      && HeaderField(frame.msg, "eventName") == Some(JStr(PlayerMessage))
      && ChatOf(Prop(frame.msg, "body")) == r
    ensures r.Forward? ==>
      && r.event in {CommandExecutedEvent, TransformEvent, TravelledEvent}
      && HeaderField(frame.msg, "messagePurpose") == Some(JStr("event"))
      && HeaderField(frame.msg, "eventName") == Some(JStr(McEventName(r.event).value))
      && r.body == Prop(frame.msg, "body")
  {
    match frame
    case Malformed => Ignored
    case Parsed(msg) =>
      if msg.JNull? then Ignored
      else
        var header := Prop(msg, "header");
        if Nullish(header) then Ignored
        else
          var purpose := Prop(header.value, "messagePurpose");
          var body := Prop(msg, "body");
          if purpose == Some(JStr("commandResponse")) then
            match Prop(header.value, "requestId")
            case Some(JStr(id)) => Response(id, body)
            case _ => Ignored
          else if purpose == Some(JStr("event")) then
            match Prop(header.value, "eventName")
            case Some(JStr(channel)) =>
              if channel == PlayerMessage then ChatOf(body)
              else if PublicNameOf(channel).Some? then Forward(PublicNameOf(channel).value, body)
              else Ignored
            case _ => Ignored
          else Ignored
  }

  /** Any `commandResponse` frame with a string request id, whatever else its
      header and envelope carry, yields that id and the frame's body. */
  lemma ClassifyResponse(msg: Json, id: Id)
    requires HeaderField(msg, "messagePurpose") == Some(JStr("commandResponse"))
    requires HeaderField(msg, "requestId") == Some(JStr(id))
    ensures Classify(Parsed(msg)) == Response(id, Prop(msg, "body"))
  {
  }

  /** A `commandResponse` frame whose request id is missing or not a string is dropped. */
  lemma ClassifyResponseWithoutId(msg: Json)
    requires HeaderField(msg, "messagePurpose") == Some(JStr("commandResponse"))
    requires !(HeaderField(msg, "requestId").Some? && HeaderField(msg, "requestId").value.JStr?)
    ensures Classify(Parsed(msg)) == Ignored
  {
  }

  /** Any event frame on the channel of a subscribable non-chat event is
      re-emitted, body and all, under the public name the subscription was
      made for. */
  lemma ClassifyForwarded(msg: Json, name: string)
    requires name in SubscribableEvents && name != ChatEvent
    requires HeaderField(msg, "messagePurpose") == Some(JStr("event"))
    requires HeaderField(msg, "eventName") == Some(JStr(McEventName(name).value))
    ensures Classify(Parsed(msg)) == Forward(name, Prop(msg, "body"))
  {
  }

  /** Any `PlayerMessage` event whose body has a non-empty string sender and a
      truthy message yields that chat message. */
  lemma ClassifyChat(msg: Json, body: Json, sender: string)
    requires HeaderField(msg, "messagePurpose") == Some(JStr("event"))
    requires HeaderField(msg, "eventName") == Some(JStr(PlayerMessage))
    requires Prop(msg, "body") == Some(body)
    requires Prop(body, "sender") == Some(JStr(sender)) && sender != ""
    requires Truthy(Prop(body, "message"))
    ensures Classify(Parsed(msg)) == ChatMessage(sender, Prop(body, "message").value)
  {
  }

  /** A chat event whose body is undefined or null, or has a falsy sender or
      message, is dropped. */
  lemma ClassifyChatIncomplete(msg: Json)
    requires HeaderField(msg, "messagePurpose") == Some(JStr("event"))
    requires HeaderField(msg, "eventName") == Some(JStr(PlayerMessage))
    requires var body := Prop(msg, "body");
      Nullish(body) || !Truthy(Prop(body.value, "sender")) || !Truthy(Prop(body.value, "message"))
    ensures Classify(Parsed(msg)) == Ignored
  {
  }

  /** An event frame whose channel is missing, not a string, or not one of
      the four raw channels is dropped. */
  lemma ClassifyUnknownChannel(msg: Json)
    requires HeaderField(msg, "messagePurpose") == Some(JStr("event"))
    requires var channel := HeaderField(msg, "eventName");
      !(channel.Some? && channel.value.JStr? && channel.value.s in RawChannels)
    ensures Classify(Parsed(msg)) == Ignored
  {
  }

  /** The session's own requests, were the peer to echo them, are ignored. */
  lemma OwnFramesIgnored(frame: Outbound)
    ensures Classify(Parsed(Encode(frame))) == Ignored
  {
  }

  // ---------------------------------------------------------------------
  // Command results
  // ---------------------------------------------------------------------

  /** `{statusCode: code}`. */
  function StatusOnly(code: int): Json
  {
    JObj(map["statusCode" := JNum(code)])
  }

  /** `{statusCode: -1, statusMessage: 'Timeout'}`. */
  const TimedOut: Json := JObj(map["statusCode" := JNum(-1), "statusMessage" := JStr("Timeout")])

  const CommandTimeoutMs: nat := 10000
  const SubscribeTimeoutMs: nat := 2000

  /** The first command `identifyHost` sends, asking for the local player's name. */
  const HostNameQuery: string := "getlocalplayername"

  /** The host-name query is answered by the peer, so it goes through the table. */
  lemma HostNameQueryIsCorrelated()
    ensures !IsRawText(HostNameQuery)
  {
    assert HostNameQuery[0] == 'g';
  }

  /** Commands the peer never answers; they are sent without correlation. */
  predicate IsRawText(command: string)
  {
    "tellraw" <= command || "titleraw" <= command
  }

  const RawTextPrefix: string := "{\"rawtext\":[{\"text\":\""
  const RawTextSuffix: string := "\"}]}"

  /** `tellraw @a {"rawtext":[{"text":"<escaped message>"}]}`: the embedded
      text field reads back as the message. */
  function BroadcastCommand(message: string): (cmd: string)
    ensures IsRawText(cmd)
    ensures var head := |"tellraw @a " + RawTextPrefix|;
      head <= |cmd| - |RawTextSuffix| &&
      Unescape(cmd[head..|cmd| - |RawTextSuffix|]) == Some(message)
  {
    UnescapeEscape(message);
    var cmd := "tellraw @a " + RawTextPrefix + Escape(message) + RawTextSuffix;
    assert cmd[..7] == "tellraw";
    assert cmd[|"tellraw @a " + RawTextPrefix|..|cmd| - |RawTextSuffix|] == Escape(message);
    cmd
  }

  /** `tellraw "<name>" {"rawtext":[{"text":"<escaped message>"}]}` for one
      player; the player name itself is embedded as it is. */
  function TellCommand(name: string, message: string): (cmd: string)
    ensures IsRawText(cmd)
    ensures var head := |"tellraw \"" + name + "\" " + RawTextPrefix|;
      head <= |cmd| - |RawTextSuffix| &&
      Unescape(cmd[head..|cmd| - |RawTextSuffix|]) == Some(message)
  {
    UnescapeEscape(message);
    var cmd := "tellraw \"" + name + "\" " + RawTextPrefix + Escape(message) + RawTextSuffix;
    assert cmd[..7] == "tellraw";
    assert cmd[|"tellraw \"" + name + "\" " + RawTextPrefix|..|cmd| - |RawTextSuffix|] == Escape(message);
    cmd
  }

  // ---------------------------------------------------------------------
  // The `list` result
  // ---------------------------------------------------------------------

  datatype Listing = ListFailed | Listed(names: seq<string>)

  /** `res.statusCode === 0 && res.players ? res.players.split(', ') : []`.
      `ListFailed` is a thrown TypeError: the result is undefined or null, or
      its `players` field is truthy but not a string. */
  function ParseList(res: Option<Json>): (r: Listing)
    ensures Nullish(res) ==> r.ListFailed?
    ensures !Nullish(res) && Prop(res.value, "statusCode") != Some(JNum(0)) ==> r == Listed([])
    ensures !Nullish(res) && Prop(res.value, "statusCode") == Some(JNum(0)) ==>
      var players := Prop(res.value, "players");
      && (!Truthy(players) ==> r == Listed([]))
      && (Truthy(players) && !players.value.JStr? ==> r.ListFailed?)
      && (Truthy(players) && players.value.JStr? ==> r.Listed? && Join(r.names) == players.value.s)
    ensures r.Listed? && r.names != [] ==>
      res.Some? && Prop(res.value, "statusCode") == Some(JNum(0)) &&
      Prop(res.value, "players") == Some(JStr(Join(r.names))) &&
      forall k :: 0 <= k < |r.names| ==> NoSeparator(r.names[k])
  {
    if Nullish(res) then ListFailed
    else
      var players := Prop(res.value, "players");
      if Prop(res.value, "statusCode") == Some(JNum(0)) && Truthy(players) then
        match players.value
        case JStr(s) =>
          JoinSplit(s);
          SplitPiecesHaveNoSeparator(s);
          Listed(Split(s))
        case _ => ListFailed
      else Listed([])
  }

  /** A `list` command that timed out, or any result without a zero status,
      lists nobody. */
  lemma ListOfStatus(code: int)
    ensures ParseList(Some(StatusOnly(code))) == Listed([])
    ensures ParseList(Some(TimedOut)) == Listed([])
  {
  }
}
