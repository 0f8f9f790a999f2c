/** One game-world connection: the correlation table of outstanding requests,
    the players known in that world, the raw event channels subscribed on it,
    and what the connection sends to the peer and emits on the server's hub.

    The transport, the timers and the random request ids are inputs: `open`
    stands for `ws.readyState === 1`, every request takes a fresh id from its
    caller, and the expiry of a deadline or a poll interval is a method call. */
module Session {
  import opened Values
  import opened Text
  import opened Protocol
  import opened Roster

  /** A player known in this world; the connection that holds it is its owner. */
  datatype Player = Player(name: string)

  datatype PendingKind = CommandEntry | SubscriptionEntry(eventName: string)

  /** An entry of the correlation table: the promise its `resolve` settles and its deadline. */
  datatype Pending = Pending(kind: PendingKind, promise: nat, timeoutMs: nat)

  /** The promise `promise` was settled with `value` (None is `undefined`). */
  datatype Settlement = Settlement(promise: nat, value: Option<Json>)

  /** What a request call returns: a value at once, or a promise still pending. */
  datatype Reply = Done(value: Option<Json>) | Awaiting(promise: nat)

  /** What an expired deadline settles its promise with. */
  function TimeoutValue(kind: PendingKind): Json
  {
    if kind.CommandEntry? then TimedOut else StatusOnly(-1)
  }

  /** Whether the stored `resolve` settles the promise on `body`: the subscribe
      wrapper reads `res.statusCode` first, which throws on undefined or null. */
  predicate Resolves(kind: PendingKind, body: Option<Json>)
  {
    kind.CommandEntry? || !Nullish(body)
  }

  /** Every player is keyed by its own name, and `order` is the map's iteration order. */
  ghost predicate RosterValid(players: map<string, Player>, order: seq<string>)
  {
    && (forall n :: n in players ==> players[n] == Player(n))
    && Elems(order) == players.Keys
    && Distinct(order)
  }

  /** Each promise is pending under at most one id, and a promise is settled at
      most once and never while it is still pending. */
  ghost predicate CorrelationValid(queue: map<Id, Pending>, settled: seq<Settlement>, count: nat)
  {
    && (forall id :: id in queue ==> queue[id].promise < count)
    && (forall a, b :: a in queue && b in queue && a != b ==> queue[a].promise != queue[b].promise)
    && (forall k :: 0 <= k < |settled| ==> settled[k].promise < count)
    && (forall id, k :: id in queue && 0 <= k < |settled| ==> queue[id].promise != settled[k].promise)
    && (forall j, k :: 0 <= j < k < |settled| ==> settled[j].promise != settled[k].promise)
  }

  /** Removing a pending entry and settling its promise keeps the table sound. */
  lemma SettleKeepsCorrelation(queue: map<Id, Pending>, settled: seq<Settlement>, count: nat,
                               id: Id, value: Option<Json>, resolves: bool)
    requires CorrelationValid(queue, settled, count) && id in queue
    ensures CorrelationValid(queue - {id},
      settled + (if resolves then [Settlement(queue[id].promise, value)] else []), count)
  {
    var s := settled + (if resolves then [Settlement(queue[id].promise, value)] else []);
    forall j, k | 0 <= j < k < |s| ensures s[j].promise != s[k].promise {
      if k >= |settled| {
        assert s[j] == settled[j];
      } else {
        assert s[j] == settled[j] && s[k] == settled[k];
      }
    }
  }

  /** A player added under its own name, at the end of the order, keeps the roster sound. */
  lemma AddPlayerKeepsRoster(players: map<string, Player>, order: seq<string>, name: string)
    requires RosterValid(players, order) && name !in players
    ensures RosterValid(players[name := Player(name)], order + [name])
  {
    assert Elems(order + [name]) == Elems(order) + {name};
    assert name !in order;
    forall i, j | 0 <= i < j < |order + [name]| ensures (order + [name])[i] != (order + [name])[j] {
      if j == |order| {
        assert (order + [name])[i] == order[i];
      } else {
        assert (order + [name])[i] == order[i] && (order + [name])[j] == order[j];
      }
    }
  }

  lemma AppendAssoc<T>(a: seq<T>, b: seq<T>, c: seq<T>)
    ensures (a + b) + c == a + (b + c)
  {
  }

  /** The subscribe frames `init` sends for `channels`, in order. */
  function SubscribeFrames(channels: seq<string>, ids: seq<Id>): seq<Outbound>
    requires |ids| == |channels|
  {
    seq(|channels|, k requires 0 <= k < |channels| => SubscribeRequest(ids[k], channels[k]))
  }

  /** The table entries those subscriptions add: the k-th waits under `ids[k]`
      on promise `first + k` with a 2 s deadline. */
  function SubscribeEntries(channels: seq<string>, ids: seq<Id>, first: nat): map<Id, Pending>
    requires |ids| == |channels|
  {
    if channels == [] then map[]
    else
      var n := |channels| - 1;
      SubscribeEntries(channels[..n], ids[..n], first)[ids[n] := Pending(SubscriptionEntry(channels[n]), first + n, SubscribeTimeoutMs)]
  }

  /** The frames `init` sends: one subscribe frame per channel, in order, then
      the host-name query. */
  function InitFrames(channels: seq<string>, ids: seq<Id>, hostId: Id): seq<Outbound>
    requires |ids| == |channels|
  {
    SubscribeFrames(channels, ids) + [CommandRequest(hostId, HostNameQuery)]
  }

  /** The table after `init` on `queue0`: the subscriptions' entries on
      promises `first`, `first + 1`, ..., then the host-name query's entry on
      the next promise with a 10 s deadline. */
  function InitEntries(queue0: map<Id, Pending>, channels: seq<string>, ids: seq<Id>, first: nat, hostId: Id)
    : map<Id, Pending>
    requires |ids| == |channels|
  {
    (queue0 + SubscribeEntries(channels, ids, first))[hostId := Pending(CommandEntry, first + |channels|, CommandTimeoutMs)]
  }

  /** With distinct ids, the k-th channel's entry is found under the k-th id, and nothing else is added. */
  lemma {:induction false} SubscribeEntriesAt(channels: seq<string>, ids: seq<Id>, first: nat)
    requires |ids| == |channels| && Distinct(ids)
    ensures SubscribeEntries(channels, ids, first).Keys == Elems(ids)
    ensures forall k :: 0 <= k < |ids| ==>
      SubscribeEntries(channels, ids, first)[ids[k]] == Pending(SubscriptionEntry(channels[k]), first + k, SubscribeTimeoutMs)
    decreases |channels|
  {
    if channels != [] {
      var n := |channels| - 1;
      assert ids == ids[..n] + [ids[n]];
      DistinctInit(ids);
      SubscribeEntriesAt(channels[..n], ids[..n], first);
      forall k | 0 <= k < n
        ensures SubscribeEntries(channels, ids, first)[ids[k]] == Pending(SubscriptionEntry(channels[k]), first + k, SubscribeTimeoutMs)
      {
        assert ids[k] == ids[..n][k] && channels[k] == channels[..n][k];
      }
    }
  }

  /** An id that none of the replayed subscriptions uses gets no entry. */
  lemma SubscribeEntriesOmit(channels: seq<string>, ids: seq<Id>, first: nat, id: Id)
    requires |ids| == |channels| && Distinct(ids) && id !in ids
    ensures id !in SubscribeEntries(channels, ids, first)
  {
    SubscribeEntriesAt(channels, ids, first);
  }

  lemma MergeUpdate<K, V>(a: map<K, V>, m: map<K, V>, k: K, v: V)
    ensures a + m[k := v] == (a + m)[k := v]
  {
  }

  /** The prefix functions of the replay grow by the i-th subscription. */
  lemma ReplayStep(channels: seq<string>, ids: seq<Id>, i: nat, first: nat)
    requires |ids| == |channels| && i < |channels|
    ensures channels[..i + 1][..i] == channels[..i] && ids[..i + 1][..i] == ids[..i]
    ensures Elems(channels[..i + 1]) == Elems(channels[..i]) + {channels[i]}
    ensures SubscribeFrames(channels[..i + 1], ids[..i + 1])
      == SubscribeFrames(channels[..i], ids[..i]) + [SubscribeRequest(ids[i], channels[i])]
    ensures SubscribeEntries(channels[..i + 1], ids[..i + 1], first)
      == SubscribeEntries(channels[..i], ids[..i], first)[ids[i] := Pending(SubscriptionEntry(channels[i]), first + i, SubscribeTimeoutMs)]
  {
    assert channels[..i + 1] == channels[..i] + [channels[i]];
  }

  /** The table, the frames, the channel set and the promise count after
      `init` replayed the first `i` channels onto `subscribed0`, `sent0`,
      `queue0` and `first`. */
  ghost predicate Replayed(channels: seq<string>, ids: seq<Id>, i: nat, subscribed0: set<string>,
                           sent0: seq<Outbound>, queue0: map<Id, Pending>, first: nat,
                           subscribed: set<string>, sent: seq<Outbound>, queue: map<Id, Pending>, count: nat)
    requires |ids| == |channels| && i <= |channels|
  {
    && subscribed == subscribed0 + Elems(channels[..i])
    && sent == sent0 + SubscribeFrames(channels[..i], ids[..i])
    && queue == queue0 + SubscribeEntries(channels[..i], ids[..i], first)
    && count == first + i
    && (forall k :: i <= k < |ids| ==> ids[k] !in queue)
  }

  /** Subscribing the i-th channel under the i-th id takes the replay one step further. */
  lemma ReplayedStep(channels: seq<string>, ids: seq<Id>, i: nat, subscribed0: set<string>,
                     sent0: seq<Outbound>, queue0: map<Id, Pending>, first: nat,
                     subscribed: set<string>, sent: seq<Outbound>, queue: map<Id, Pending>, count: nat)
    requires |ids| == |channels| && Distinct(ids) && i < |channels|
    requires Replayed(channels, ids, i, subscribed0, sent0, queue0, first, subscribed, sent, queue, count)
    ensures ids[i] !in queue
    ensures Replayed(channels, ids, i + 1, subscribed0, sent0, queue0, first,
                     subscribed + {channels[i]}, sent + [SubscribeRequest(ids[i], channels[i])],
                     queue[ids[i] := Pending(SubscriptionEntry(channels[i]), count, SubscribeTimeoutMs)], count + 1)
  {
    ReplayStep(channels, ids, i, first);
    var entries := SubscribeEntries(channels[..i], ids[..i], first);
    var entry := Pending(SubscriptionEntry(channels[i]), first + i, SubscribeTimeoutMs);
    MergeUpdate(queue0, entries, ids[i], entry);
    var after := queue[ids[i] := entry];
    forall k | i + 1 <= k < |ids| ensures ids[k] !in after {
      assert ids[k] != ids[i];
    }
  }

  /** The replay of the whole list adds every channel, frame and entry. */
  lemma ReplayedAll(channels: seq<string>, ids: seq<Id>, subscribed0: set<string>,
                    sent0: seq<Outbound>, queue0: map<Id, Pending>, first: nat,
                    subscribed: set<string>, sent: seq<Outbound>, queue: map<Id, Pending>, count: nat)
    requires |ids| == |channels|
    requires Replayed(channels, ids, |channels|, subscribed0, sent0, queue0, first, subscribed, sent, queue, count)
    ensures subscribed == subscribed0 + Elems(channels)
    ensures sent == sent0 + SubscribeFrames(channels, ids)
    ensures queue == queue0 + SubscribeEntries(channels, ids, first)
    ensures count == first + |channels|
  {
    assert channels[..|channels|] == channels && ids[..|ids|] == ids;
  }

  /** A connection's fields, as one value. */
  datatype State = State(
    open: bool, polling: bool, commandQueue: map<Id, Pending>,
    players: map<string, Player>, playerOrder: seq<string>, subscribedEvents: set<string>,
    sent: seq<Outbound>, emitted: seq<Event>, settled: seq<Settlement>, promiseCount: nat)

  /** `subscribe(channel)` under `id`, on a connection's state: nothing on a
      transport that is not open; otherwise the channel joins the set and its
      frame is sent and waits in the table on a fresh promise with a 2 s deadline. */
  function AfterSubscribe(s: State, channel: string, id: Id): (r: State)
    ensures r.open == s.open && r.players == s.players && r.emitted == s.emitted && r.settled == s.settled
    ensures !s.open ==> r == s
    ensures r.subscribedEvents == if s.open then s.subscribedEvents + {channel} else s.subscribedEvents
    ensures s.open ==> id in r.commandQueue && |r.sent| == |s.sent| + 1
  {
    if !s.open then s
    else s.(subscribedEvents := s.subscribedEvents + {channel},
            sent := s.sent + [SubscribeRequest(id, channel)],
            commandQueue := s.commandQueue[id := Pending(SubscriptionEntry(channel), s.promiseCount, SubscribeTimeoutMs)],
            promiseCount := s.promiseCount + 1)
  }

  class Connection {
    var open: bool
    var polling: bool
    var commandQueue: map<Id, Pending>
    var players: map<string, Player>
    var playerOrder: seq<string>
    var subscribedEvents: set<string>
    /** Frames sent to the peer, oldest first. */
    var sent: seq<Outbound>
    /** Events emitted on the server's hub for this world, oldest first. */
    var emitted: seq<Event>
    /** Promises settled, in the order they were settled. */
    var settled: seq<Settlement>
    /** Number of promises created so far. */
    var promiseCount: nat

    ghost function Snapshot(): State
      reads this
    {
      State(open, polling, commandQueue, players, playerOrder, subscribedEvents, sent, emitted, settled, promiseCount)
    }

    ghost predicate Valid()
      reads this`subscribedEvents, this`players, this`playerOrder
      reads this`commandQueue, this`settled, this`promiseCount
    {
      && PlayerMessage in subscribedEvents
      && RosterValid(players, playerOrder)
      && CorrelationValid(commandQueue, settled, promiseCount)
    }

    /** The constructor: a connection on an open transport starts with only
        `PlayerMessage` subscribed and an empty table, then runs `init` with
        the server's channel list. */
    constructor (channels: seq<string>, ids: seq<Id>, hostId: Id)
      requires |ids| == |channels| && Distinct(ids) && hostId !in ids
      ensures Valid() && open && polling
      ensures players == map[] && playerOrder == [] && settled == []
      ensures emitted == [WorldAdded]
      ensures subscribedEvents == {PlayerMessage} + Elems(channels)
      ensures sent == InitFrames(channels, ids, hostId)
      ensures commandQueue == InitEntries(map[], channels, ids, 0, hostId)
      ensures promiseCount == |channels| + 1
    {
      open := true;
      polling := false;
      commandQueue := map[];
      players := map[];
      playerOrder := [];
      subscribedEvents := {PlayerMessage};
      sent := [];
      emitted := [];
      settled := [];
      promiseCount := 0;
      new;
      Init(channels, ids, hostId);
    }

    /** `init`: the world is reported added, every channel the server has
        subscribed so far is subscribed on this connection, in the server's
        order and each under its own fresh id, `identifyHost` sends its first
        command, `getlocalplayername`, under `hostId`, and polling starts. */
    method Init(channels: seq<string>, ids: seq<Id>, hostId: Id)
      requires Valid() && open
      requires |ids| == |channels| && Distinct(ids) && hostId !in ids
      requires forall k :: 0 <= k < |ids| ==> ids[k] !in commandQueue
      requires hostId !in commandQueue
      modifies this`emitted, this`polling, this`subscribedEvents, this`commandQueue, this`sent, this`promiseCount
      ensures Valid() && open && polling
      ensures emitted == old(emitted) + [WorldAdded]
      ensures subscribedEvents == old(subscribedEvents) + Elems(channels)
      ensures sent == old(sent) + InitFrames(channels, ids, hostId)
      ensures commandQueue == InitEntries(old(commandQueue), channels, ids, old(promiseCount), hostId)
      ensures promiseCount == old(promiseCount) + |channels| + 1
    {
      emitted := emitted + [WorldAdded];
      assert commandQueue == old(commandQueue) && promiseCount == old(promiseCount);
      SubscribeAndIdentify(channels, ids, hostId);
      polling := true;
    }

    /** The requests `init` sends: the subscriptions, in order, then the host-name query. */
    method SubscribeAndIdentify(channels: seq<string>, ids: seq<Id>, hostId: Id)
      requires Valid() && open
      requires |ids| == |channels| && Distinct(ids) && hostId !in ids
      requires forall k :: 0 <= k < |ids| ==> ids[k] !in commandQueue
      requires hostId !in commandQueue
      modifies this`subscribedEvents, this`commandQueue, this`sent, this`promiseCount
      ensures Valid() && open
      ensures subscribedEvents == old(subscribedEvents) + Elems(channels)
      ensures sent == old(sent) + InitFrames(channels, ids, hostId)
      ensures commandQueue == InitEntries(old(commandQueue), channels, ids, old(promiseCount), hostId)
      ensures promiseCount == old(promiseCount) + |channels| + 1
    {
      ReplayAll(channels, ids);
      SubscribeEntriesOmit(channels, ids, old(promiseCount), hostId);
      ghost var replayed := commandQueue;
      ghost var entry := Pending(CommandEntry, promiseCount, CommandTimeoutMs);
      assert entry == Pending(CommandEntry, old(promiseCount) + |channels|, CommandTimeoutMs);
      assert replayed == old(commandQueue) + SubscribeEntries(channels, ids, old(promiseCount));
      IdentifyHost(hostId);
      assert commandQueue == replayed[hostId := entry];
      assert sent == old(sent) + SubscribeFrames(channels, ids) + [CommandRequest(hostId, HostNameQuery)];
    }

    /** The part of `identifyHost` that runs before its first `await`: the
        `getlocalplayername` command is sent and waits under `hostId` with a
        10 s deadline. */
    method IdentifyHost(hostId: Id)
      requires Valid() && open && hostId !in commandQueue
      modifies this`commandQueue, this`sent, this`promiseCount
      ensures Valid()
      ensures sent == old(sent) + [CommandRequest(hostId, HostNameQuery)]
      ensures commandQueue == old(commandQueue)[hostId := Pending(CommandEntry, old(promiseCount), CommandTimeoutMs)]
      ensures promiseCount == old(promiseCount) + 1
    {
      HostNameQueryIsCorrelated();
      var _ := RunCommand(HostNameQuery, hostId);
    }

    /** `init`'s loop: every channel of the list is subscribed, in order. */
    method ReplayAll(channels: seq<string>, ids: seq<Id>)
      requires Valid() && open
      requires |ids| == |channels| && Distinct(ids)
      requires forall k :: 0 <= k < |ids| ==> ids[k] !in commandQueue
      modifies this`subscribedEvents, this`commandQueue, this`sent, this`promiseCount
      ensures Valid() && open
      ensures subscribedEvents == old(subscribedEvents) + Elems(channels)
      ensures sent == old(sent) + SubscribeFrames(channels, ids)
      ensures commandQueue == old(commandQueue) + SubscribeEntries(channels, ids, old(promiseCount))
      ensures promiseCount == old(promiseCount) + |channels|
    {
      var i := 0;
      while i < |channels|
        invariant 0 <= i <= |channels|
        invariant Valid() && open
        invariant Replayed(channels, ids, i, old(subscribedEvents), old(sent), old(commandQueue), old(promiseCount),
                           subscribedEvents, sent, commandQueue, promiseCount)
      {
        ReplayOne(channels, ids, i, old(subscribedEvents), old(sent), old(commandQueue), old(promiseCount));
        i := i + 1;
      }
      ReplayedAll(channels, ids, old(subscribedEvents), old(sent), old(commandQueue), old(promiseCount),
                  subscribedEvents, sent, commandQueue, promiseCount);
    }

    /** One round of the replay: the i-th channel is subscribed under the i-th id. */
    method ReplayOne(channels: seq<string>, ids: seq<Id>, i: nat, ghost subscribed0: set<string>,
                     ghost sent0: seq<Outbound>, ghost queue0: map<Id, Pending>, ghost first: nat)
      requires Valid() && open
      requires |ids| == |channels| && Distinct(ids) && i < |channels|
      requires Replayed(channels, ids, i, subscribed0, sent0, queue0, first,
                        subscribedEvents, sent, commandQueue, promiseCount)
      modifies this`subscribedEvents, this`commandQueue, this`sent, this`promiseCount
      ensures Valid() && open
      ensures Replayed(channels, ids, i + 1, subscribed0, sent0, queue0, first,
                       subscribedEvents, sent, commandQueue, promiseCount)
    {
      ReplayedStep(channels, ids, i, subscribed0, sent0, queue0, first,
                   subscribedEvents, sent, commandQueue, promiseCount);
      var _ := Subscribe(channels[i], ids[i]);
    }

    /** `runCommand`: on a closed transport, `{statusCode: -1}` and nothing else;
        a `tellraw`/`titleraw` command is sent and answers `{statusCode: 0}` at
        once; any other command is sent and waits in the table under `id` with
        a 10 s deadline. */
    method RunCommand(command: string, id: Id) returns (reply: Reply)
      requires Valid()
      requires !IsRawText(command) ==> id !in commandQueue
      modifies this`commandQueue, this`sent, this`promiseCount
      ensures Valid()
      ensures open == old(open) && polling == old(polling)
      ensures players == old(players) && playerOrder == old(playerOrder)
      ensures subscribedEvents == old(subscribedEvents) && emitted == old(emitted)
      ensures settled == old(settled)
      ensures !old(open) ==>
        reply == Done(Some(StatusOnly(-1))) && sent == old(sent) &&
        commandQueue == old(commandQueue) && promiseCount == old(promiseCount)
      ensures old(open) ==> sent == old(sent) + [CommandRequest(id, command)]
      ensures old(open) && IsRawText(command) ==>
        reply == Done(Some(StatusOnly(0))) &&
        commandQueue == old(commandQueue) && promiseCount == old(promiseCount)
      ensures old(open) && !IsRawText(command) ==>
        reply == Awaiting(old(promiseCount)) &&
        commandQueue == old(commandQueue)[id := Pending(CommandEntry, old(promiseCount), CommandTimeoutMs)] &&
        promiseCount == old(promiseCount) + 1
    {
      if !open {
        return Done(Some(StatusOnly(-1)));
      }
      if IsRawText(command) {
        sent := sent + [CommandRequest(id, command)];
        return Done(Some(StatusOnly(0)));
      }
      commandQueue := commandQueue[id := Pending(CommandEntry, promiseCount, CommandTimeoutMs)];
      reply := Awaiting(promiseCount);
      promiseCount := promiseCount + 1;
      sent := sent + [CommandRequest(id, command)];
    }

    /** `subscribe`: on a closed transport nothing happens; otherwise the
        channel joins the set (nothing leaves it), and a subscribe frame is sent
        and waits in the table under `id` with a 2 s deadline, even when the
        channel was already subscribed. */
    method Subscribe(eventName: string, id: Id) returns (reply: Reply)
      requires Valid()
      requires id !in commandQueue
      modifies this`subscribedEvents, this`commandQueue, this`sent, this`promiseCount
      ensures Valid()
      ensures !old(open) ==>
        reply == Done(None) && sent == old(sent) && subscribedEvents == old(subscribedEvents) &&
        commandQueue == old(commandQueue) && promiseCount == old(promiseCount)
      ensures old(open) ==>
        reply == Awaiting(old(promiseCount)) &&
        subscribedEvents == old(subscribedEvents) + {eventName} &&
        sent == old(sent) + [SubscribeRequest(id, eventName)] &&
        commandQueue == old(commandQueue)[id := Pending(SubscriptionEntry(eventName), old(promiseCount), SubscribeTimeoutMs)] &&
        promiseCount == old(promiseCount) + 1
    {
      if !open {
        return Done(None);
      }
      if eventName !in subscribedEvents {
        subscribedEvents := subscribedEvents + {eventName};
      }
      commandQueue := commandQueue[id := Pending(SubscriptionEntry(eventName), promiseCount, SubscribeTimeoutMs)];
      reply := Awaiting(promiseCount);
      promiseCount := promiseCount + 1;
      sent := sent + [SubscribeRequest(id, eventName)];
    }

    /** `broadcast`: the escaped text goes out in one `tellraw @a` frame and the
        call answers at once; the correlation table is never touched. */
    method Broadcast(message: string, id: Id) returns (reply: Reply)
      requires Valid()
      modifies this
      ensures Valid()
      ensures open == old(open) && polling == old(polling)
      ensures players == old(players) && playerOrder == old(playerOrder)
      ensures subscribedEvents == old(subscribedEvents) && emitted == old(emitted)
      ensures settled == old(settled)
      ensures commandQueue == old(commandQueue) && promiseCount == old(promiseCount)
      ensures reply == Done(Some(StatusOnly(if old(open) then 0 else -1)))
      ensures sent == old(sent) + (if old(open) then [CommandRequest(id, BroadcastCommand(message))] else [])
    {
      reply := RunCommand(BroadcastCommand(message), id);
    }

    /** `Player.sendMessage` on a player of this connection: one `tellraw`
        frame addressed to the player, answered at once. */
    method SendToPlayer(player: Player, message: string, id: Id) returns (reply: Reply)
      requires Valid()
      modifies this
      ensures Valid()
      ensures open == old(open) && polling == old(polling)
      ensures players == old(players) && playerOrder == old(playerOrder)
      ensures subscribedEvents == old(subscribedEvents) && emitted == old(emitted)
      ensures settled == old(settled)
      ensures commandQueue == old(commandQueue) && promiseCount == old(promiseCount)
      ensures reply == Done(Some(StatusOnly(if old(open) then 0 else -1)))
      ensures sent == old(sent) + (if old(open) then [CommandRequest(id, TellCommand(player.name, message))] else [])
    {
      reply := RunCommand(TellCommand(player.name, message), id);
    }

    /** The deadline of the request under `id` expires: the entry leaves the
        table and its promise is settled with the timeout value. A deadline
        whose entry was already answered was cleared and never fires. */
    method Timeout(id: Id)
      requires Valid()
      modifies this
      ensures Valid()
      ensures open == old(open) && polling == old(polling)
      ensures players == old(players) && playerOrder == old(playerOrder)
      ensures subscribedEvents == old(subscribedEvents) && emitted == old(emitted)
      ensures sent == old(sent) && promiseCount == old(promiseCount)
      ensures id !in commandQueue
      ensures id !in old(commandQueue) ==> commandQueue == old(commandQueue) && settled == old(settled)
      ensures id in old(commandQueue) ==>
        var entry := old(commandQueue)[id];
        commandQueue == old(commandQueue) - {id} &&
        settled == old(settled) + [Settlement(entry.promise, Some(TimeoutValue(entry.kind)))]
    {
      if id in commandQueue {
        var entry := commandQueue[id];
        SettleKeepsCorrelation(commandQueue, settled, promiseCount, id, Some(TimeoutValue(entry.kind)), true);
        commandQueue := commandQueue - {id};
        settled := settled + [Settlement(entry.promise, Some(TimeoutValue(entry.kind)))];
      }
    }

    /** The effect of a classified frame: a response for a pending id removes the entry and
        settles its promise with the body; a response for any other id, and
        a frame classified as ignored change nothing; a
        chat event records its sender if new and emits `chat`; the other
        subscribed channels are re-emitted under their public names. */
    method Dispatch(inbound: Inbound)
      requires Valid()
      modifies this
      ensures Valid()
      ensures open == old(open) && polling == old(polling)
      ensures subscribedEvents == old(subscribedEvents)
      ensures sent == old(sent) && promiseCount == old(promiseCount)
      ensures match inbound
        case Ignored =>
          && commandQueue == old(commandQueue) && settled == old(settled)
          && players == old(players) && playerOrder == old(playerOrder)
          && emitted == old(emitted)
        case Response(requestId, body) =>
          && requestId !in commandQueue
          && players == old(players) && playerOrder == old(playerOrder)
          && emitted == old(emitted)
          && (requestId !in old(commandQueue) ==>
                commandQueue == old(commandQueue) && settled == old(settled))
          && (requestId in old(commandQueue) ==>
                var entry := old(commandQueue)[requestId];
                && commandQueue == old(commandQueue) - {requestId}
                && settled == old(settled) +
                     (if Resolves(entry.kind, body) then [Settlement(entry.promise, body)] else []))
        case ChatMessage(sender, message) =>
          && commandQueue == old(commandQueue) && settled == old(settled)
          && sender in players
          && (sender in old(players) ==> players == old(players) && playerOrder == old(playerOrder))
          && (sender !in old(players) ==>
                players == old(players)[sender := Player(sender)] &&
                playerOrder == old(playerOrder) + [sender])
          && emitted == old(emitted) + [Chatted(sender, message)]
        case Forward(event, body) =>
          && commandQueue == old(commandQueue) && settled == old(settled)
          && players == old(players) && playerOrder == old(playerOrder)
          && emitted == old(emitted) + [Forwarded(event, body)]
    {
      match inbound
      case Ignored =>
      case Response(requestId, body) =>
        Resolve(requestId, body);
      case ChatMessage(sender, message) =>
        RecordChat(sender, message);
      case Forward(event, body) =>
        emitted := emitted + [Forwarded(event, body)];
    }

    /** A response for `requestId`: a pending entry is removed and its promise
        settled with the body (unless the subscribe wrapper throws on it); an
        unknown, late or duplicate id changes nothing. */
    method Resolve(requestId: Id, body: Option<Json>)
      requires Valid()
      modifies this`commandQueue, this`settled
      ensures Valid()
      ensures requestId !in commandQueue
      ensures requestId !in old(commandQueue) ==>
        commandQueue == old(commandQueue) && settled == old(settled)
      ensures requestId in old(commandQueue) ==>
        var entry := old(commandQueue)[requestId];
        && commandQueue == old(commandQueue) - {requestId}
        && settled == old(settled) +
             (if Resolves(entry.kind, body) then [Settlement(entry.promise, body)] else [])
    {
      if requestId in commandQueue {
        var entry := commandQueue[requestId];
        SettleKeepsCorrelation(commandQueue, settled, promiseCount, requestId, body, Resolves(entry.kind, body));
        commandQueue := commandQueue - {requestId};
        if Resolves(entry.kind, body) {
          settled := settled + [Settlement(entry.promise, body)];
        }
      }
    }

    /** A chat message: the sender is looked up, created if absent (existing
        entries are left as they are), and one `chat` event is emitted. */
    method RecordChat(sender: string, message: Json)
      requires Valid()
      modifies this`players, this`playerOrder, this`emitted
      ensures Valid()
      ensures sender in players
      ensures sender in old(players) ==> players == old(players) && playerOrder == old(playerOrder)
      ensures sender !in old(players) ==>
        players == old(players)[sender := Player(sender)] && playerOrder == old(playerOrder) + [sender]
      ensures emitted == old(emitted) + [Chatted(sender, message)]
    {
      if sender !in players {
        AddPlayerKeepsRoster(players, playerOrder, sender);
        players := players[sender := Player(sender)];
        playerOrder := playerOrder + [sender];
      }
      emitted := emitted + [Chatted(sender, message)];
    }

    /** `_handleMessage`: a malformed frame and an unknown purpose or channel
        change nothing; otherwise the frame takes effect as Dispatch says. */
    method HandleMessage(frame: Frame)
      requires Valid()
      modifies this
      ensures Valid()
      ensures open == old(open) && polling == old(polling)
      ensures subscribedEvents == old(subscribedEvents)
      ensures sent == old(sent) && promiseCount == old(promiseCount)
      ensures match Classify(frame)
        case Ignored =>
          && commandQueue == old(commandQueue) && settled == old(settled)
          && players == old(players) && playerOrder == old(playerOrder)
          && emitted == old(emitted)
        case Response(requestId, body) =>
          && requestId !in commandQueue
          && players == old(players) && playerOrder == old(playerOrder)
          && emitted == old(emitted)
          && (requestId !in old(commandQueue) ==>
                commandQueue == old(commandQueue) && settled == old(settled))
          && (requestId in old(commandQueue) ==>
                var entry := old(commandQueue)[requestId];
                && commandQueue == old(commandQueue) - {requestId}
                && settled == old(settled) +
                     (if Resolves(entry.kind, body) then [Settlement(entry.promise, body)] else []))
        case ChatMessage(sender, message) =>
          && commandQueue == old(commandQueue) && settled == old(settled)
          && sender in players
          && (sender in old(players) ==> players == old(players) && playerOrder == old(playerOrder))
          && (sender !in old(players) ==>
                players == old(players)[sender := Player(sender)] &&
                playerOrder == old(playerOrder) + [sender])
          && emitted == old(emitted) + [Chatted(sender, message)]
        case Forward(event, body) =>
          && commandQueue == old(commandQueue) && settled == old(settled)
          && players == old(players) && playerOrder == old(playerOrder)
          && emitted == old(emitted) + [Forwarded(event, body)]
    {
      Dispatch(Classify(frame));
    }

    /** One firing of the poll interval: on an open transport, a `list` command
        is sent and its promise is returned; otherwise the tick ends at once. */
    method PollRequest(id: Id) returns (awaiting: Option<nat>)
      requires Valid()
      requires id !in commandQueue
      modifies this
      ensures Valid()
      ensures open == old(open) && polling == old(polling)
      ensures players == old(players) && playerOrder == old(playerOrder)
      ensures subscribedEvents == old(subscribedEvents) && emitted == old(emitted)
      ensures settled == old(settled)
      ensures !(old(polling) && old(open)) ==>
        awaiting == None && sent == old(sent) &&
        commandQueue == old(commandQueue) && promiseCount == old(promiseCount)
      ensures old(polling) && old(open) ==>
        awaiting == Some(old(promiseCount)) &&
        sent == old(sent) + [CommandRequest(id, "list")] &&
        commandQueue == old(commandQueue)[id := Pending(CommandEntry, old(promiseCount), CommandTimeoutMs)] &&
        promiseCount == old(promiseCount) + 1
    {
      if !polling || !open {
        return None;
      }
      var reply := RunCommand("list", id);
      awaiting := Some(reply.promise);
    }

    /** The rest of a poll tick, once the `list` command settled with `result`:
        known players that are not listed leave (the sentinel never does), then
        listed players that are not known join. A result that makes the parse
        throw ends the tick with no change. */
    method PollTick(result: Option<Json>)
      requires Valid()
      modifies this
      ensures Valid()
      ensures open == old(open) && polling == old(polling)
      ensures commandQueue == old(commandQueue) && settled == old(settled)
      ensures subscribedEvents == old(subscribedEvents)
      ensures sent == old(sent) && promiseCount == old(promiseCount)
      ensures ParseList(result).ListFailed? ==>
        players == old(players) && playerOrder == old(playerOrder) && emitted == old(emitted)
      ensures ParseList(result).Listed? ==>
        var names := ParseList(result).names;
        && players.Keys == (set n | n in old(players) && (n == Sentinel || n in names)) + Elems(names)
        && playerOrder == NextOrder(old(playerOrder), names)
        && emitted == old(emitted) + TickEvents(old(playerOrder), names)
    {
      var listing := ParseList(result);
      if listing.Listed? {
        ApplyListing(listing.names);
      }
    }

    /** The roster diff of a tick whose `list` result listed `names`. */
    method ApplyListing(names: seq<string>)
      requires Valid()
      modifies this`players, this`playerOrder, this`emitted
      ensures Valid()
      ensures players.Keys == (set n | n in old(players) && (n == Sentinel || n in names)) + Elems(names)
      ensures playerOrder == NextOrder(old(playerOrder), names)
      ensures emitted == old(emitted) + TickEvents(old(playerOrder), names)
    {
      ghost var order0 := playerOrder;
      var snapshot := Elems(names);
      TickRoster(order0, names);
      EvictUnlisted(snapshot);
      AdmitListed(names);
      assert playerOrder == NextOrder(order0, names);
      assert players.Keys == Elems(playerOrder);
      AppendAssoc(old(emitted), LeaveEvents(Departed(order0, snapshot)),
                  JoinEvents(Arrivals(names, Elems(Kept(order0, snapshot)))));
    }

    /** The first loop of a tick: every known player that is neither the
        sentinel nor listed is deleted, with one `leave` each, in map order. */
    method EvictUnlisted(snapshot: set<string>)
      requires Valid()
      modifies this`players, this`playerOrder, this`emitted
      ensures Valid()
      ensures playerOrder == Kept(old(playerOrder), snapshot)
      ensures emitted == old(emitted) + LeaveEvents(Departed(old(playerOrder), snapshot))
    {
      var roster, kept, events := EvictFrom(players, playerOrder, emitted, snapshot);
      players, playerOrder, emitted := roster, kept, events;
    }

    /** `EvictUnlisted`'s loop over the roster `roster0` in iteration order `order`. */
    static method EvictFrom(roster0: map<string, Player>, order: seq<string>, events0: seq<Event>,
                            snapshot: set<string>)
      returns (roster: map<string, Player>, kept: seq<string>, events: seq<Event>)
      requires RosterValid(roster0, order)
      ensures RosterValid(roster, kept)
      ensures kept == Kept(order, snapshot)
      ensures events == events0 + LeaveEvents(Departed(order, snapshot))
    {
      roster := roster0;
      events := events0;
      kept := [];
      var i := 0;
      while i < |order|
        invariant i <= |order|
        invariant Evicting(order, i, snapshot, roster, kept, events0, events)
      {
        roster, kept, events := EvictOne(order, i, snapshot, roster, kept, events0, events);
        i := i + 1;
      }
      assert order[..|order|] == order;
      KeptElems(order, snapshot);
      DepartedElems(order, snapshot);
    }

    /** Where `EvictFrom`'s loop stands after the first `i` known names. */
    static ghost predicate Evicting(order: seq<string>, i: nat, snapshot: set<string>,
                                    roster: map<string, Player>, kept: seq<string>,
                                    events0: seq<Event>, events: seq<Event>)
      requires i <= |order|
    {
      && kept == Kept(order[..i], snapshot)
      && roster.Keys == Elems(order) - Elems(Departed(order[..i], snapshot))
      && (forall n :: n in roster ==> roster[n] == Player(n))
      && events == events0 + LeaveEvents(Departed(order[..i], snapshot))
    }

    /** One round of `EvictFrom`'s loop: the `i`-th known name leaves unless
        it is the sentinel or listed. */
    static method EvictOne(order: seq<string>, i: nat, snapshot: set<string>,
                           roster0: map<string, Player>, kept0: seq<string>,
                           events0: seq<Event>, events1: seq<Event>)
      returns (roster: map<string, Player>, kept: seq<string>, events: seq<Event>)
      requires i < |order| && Evicting(order, i, snapshot, roster0, kept0, events0, events1)
      ensures Evicting(order, i + 1, snapshot, roster, kept, events0, events)
    {
      roster, kept, events := roster0, kept0, events1;
      var name := order[i];
      ghost var gone := Departed(order[..i], snapshot);
      EvictStep(order, i, snapshot);
      if name != Sentinel && name !in snapshot {
        roster := roster - {name};
        LeaveEventsSnoc(gone, name);
        events := events + [Left(name)];
        ElemsSnoc(gone, name);
      } else {
        kept := kept + [name];
      }
    }

    /** The second loop of a tick: every listed name not yet known is added,
        with one `join` each, in listing order. */
    method AdmitListed(names: seq<string>)
      requires Valid()
      modifies this`players, this`playerOrder, this`emitted
      ensures Valid()
      ensures playerOrder == old(playerOrder) + Arrivals(names, Elems(old(playerOrder)))
      ensures emitted == old(emitted) + JoinEvents(Arrivals(names, Elems(old(playerOrder))))
    {
      var roster, order, events := AdmitInto(players, playerOrder, emitted, names);
      players, playerOrder, emitted := roster, order, events;
    }

    /** `AdmitListed`'s loop over the listed `names`, starting from the roster
        `roster0` in iteration order `order0`. */
    static method AdmitInto(roster0: map<string, Player>, order0: seq<string>, events0: seq<Event>,
                            names: seq<string>)
      returns (roster: map<string, Player>, order: seq<string>, events: seq<Event>)
      requires RosterValid(roster0, order0)
      ensures RosterValid(roster, order)
      ensures order == order0 + Arrivals(names, Elems(order0))
      ensures events == events0 + JoinEvents(Arrivals(names, Elems(order0)))
    {
      roster := roster0;
      order := order0;
      events := events0;
      var arrivals: seq<string> := [];
      var j := 0;
      while j < |names|
        invariant j <= |names|
        invariant Admitting(names, j, order0, events0, roster, order, events, arrivals)
      {
        roster, order, events, arrivals := AdmitOne(names, j, order0, events0, roster, order, events, arrivals);
        j := j + 1;
      }
      assert names[..|names|] == names;
    }

    /** Where `AdmitInto`'s loop stands after the first `j` listed names. */
    static ghost predicate Admitting(names: seq<string>, j: nat, order0: seq<string>, events0: seq<Event>,
                                     roster: map<string, Player>, order: seq<string>, events: seq<Event>,
                                     arrivals: seq<string>)
      requires j <= |names|
    {
      && arrivals == Arrivals(names[..j], Elems(order0))
      && order == order0 + arrivals
      && RosterValid(roster, order)
      && roster.Keys == Elems(order0) + Elems(arrivals)
      && events == events0 + JoinEvents(arrivals)
    }

    /** One round of `AdmitInto`'s loop: the `j`-th listed name joins unless it is known. */
    static method AdmitOne(names: seq<string>, j: nat, order0: seq<string>, events0: seq<Event>,
                           roster1: map<string, Player>, order1: seq<string>, events1: seq<Event>,
                           arrivals1: seq<string>)
      returns (roster: map<string, Player>, order: seq<string>, events: seq<Event>, arrivals: seq<string>)
      requires j < |names| && Admitting(names, j, order0, events0, roster1, order1, events1, arrivals1)
      ensures Admitting(names, j + 1, order0, events0, roster, order, events, arrivals)
    {
      roster, order, events, arrivals := roster1, order1, events1, arrivals1;
      var name := names[j];
      AdmitStep(names, j, Elems(order0));
      if name !in roster {
        AddPlayerKeepsRoster(roster, order, name);
        roster := roster[name := Player(name)];
        order := order + [name];
        JoinEventsSnoc(arrivals, name);
        events := events + [Joined(name)];
        ElemsSnoc(arrivals, name);
        arrivals := arrivals + [name];
      }
    }

    /** The transport leaves the open state (closing or closed). */
    method TransportClosing()
      requires Valid()
      modifies this`open
      ensures Valid() && !open
    {
      open := false;
    }

    /** The `close` handler: polling stops, the players are forgotten and the
        world is reported removed. Pending requests stay in the table; only
        their deadlines can still settle them. */
    method Close()
      requires Valid()
      modifies this
      ensures Valid()
      ensures !open && !polling
      ensures players == map[] && playerOrder == []
      ensures emitted == old(emitted) + [WorldRemoved]
      ensures commandQueue == old(commandQueue) && settled == old(settled)
      ensures subscribedEvents == old(subscribedEvents)
      ensures sent == old(sent) && promiseCount == old(promiseCount)
    {
      open := false;
      polling := false;
      players := map[];
      playerOrder := [];
      emitted := emitted + [WorldRemoved];
    }
  }
}
