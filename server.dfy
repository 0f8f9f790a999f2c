/** The server hub: the live connections and the raw channels every world
    must be subscribed to. Registering a handler for a public event name that
    has a raw channel adds the channel to the list and subscribes it on every
    connection; a new connection replays the whole list. */
module Server {
  import opened Values
  import opened Protocol
  import opened Session

  /** `Set.prototype.add` on an insertion-ordered set. */
  function Added(channels: seq<string>, channel: string): (r: seq<string>)
    ensures Elems(r) == Elems(channels) + {channel}
    ensures Distinct(channels) ==> Distinct(r)
    ensures channels <= r
    ensures channel in channels ==> r == channels
  {
    if channel in channels then channels else channels + [channel]
  }

  /** What `on` does to one connection `c`. */
  twostate predicate SubscribedOn(c: Connection, channel: string, id: Id)
    reads c
  {
    c.Snapshot() == AfterSubscribe(old(c.Snapshot()), channel, id)
  }

  class BedrockServer {
    var connections: set<Connection>
    /** The server-wide channel list, in insertion order. */
    var subscribedEvents: seq<string>

    /** Every connection is sound, and every connection whose transport is
        still open is subscribed to every channel of the server's list. */
    ghost predicate Valid()
      reads this, connections
    {
      && PlayerMessage in subscribedEvents
      && Distinct(subscribedEvents)
      && (forall c :: c in connections ==> c.Valid())
      && (forall c :: c in connections && c.open ==> Elems(subscribedEvents) <= c.subscribedEvents)
    }

    constructor ()
      ensures Valid()
      ensures connections == {} && subscribedEvents == [PlayerMessage]
    {
      connections := {};
      subscribedEvents := [PlayerMessage];
    }

    /** The `connection` handler: a fresh connection runs `init` with the
        server's channel list (one fresh id per channel, and one for the
        `getlocalplayername` request) and joins the set. */
    method Accept(ids: seq<Id>, hostId: Id) returns (c: Connection)
      requires Valid()
      requires |ids| == |subscribedEvents| && Distinct(ids) && hostId !in ids
      modifies this
      ensures Valid() && fresh(c)
      ensures connections == old(connections) + {c}
      ensures subscribedEvents == old(subscribedEvents)
      ensures c.open && c.polling && c.players == map[] && c.settled == []
      ensures c.emitted == [WorldAdded]
      ensures c.subscribedEvents == Elems(subscribedEvents)
      ensures c.promiseCount == |subscribedEvents| + 1
      ensures c.sent == InitFrames(subscribedEvents, ids, hostId)
      ensures c.commandQueue == InitEntries(map[], subscribedEvents, ids, 0, hostId)
    {
      c := new Connection(subscribedEvents, ids, hostId);
      connections := connections + {c};
    }

    /** `on`: an event name with a raw channel adds the channel to the list
        and sends a subscribe request on every connection under that
        connection's fresh id (a connection whose transport is not open
        ignores it); any other name changes nothing here. */
    method On(eventName: string, ids: map<Connection, Id>)
      requires Valid()
      requires forall c :: c in connections ==> c in ids && ids[c] !in c.commandQueue
      modifies this, connections
      ensures Valid()
      ensures connections == old(connections)
      ensures McEventName(eventName).None? ==>
        subscribedEvents == old(subscribedEvents) && forall c :: c in connections ==> unchanged(c)
      ensures McEventName(eventName).Some? ==>
        subscribedEvents == Added(old(subscribedEvents), McEventName(eventName).value)
      ensures McEventName(eventName).Some? ==>
        forall c :: c in connections ==> SubscribedOn(c, McEventName(eventName).value, ids[c])
    {
      var mapped := McEventName(eventName);
      if mapped.None? {
        return;
      }
      var channel := mapped.value;
      subscribedEvents := Added(subscribedEvents, channel);
      SubscribeEverywhere(connections, channel, ids);
    }

    /** `on`'s loop over the connections: each one runs `subscribe(channel)`
        under its own id. */
    static method SubscribeEverywhere(conns: set<Connection>, channel: string, ids: map<Connection, Id>)
      requires forall c :: c in conns ==> c.Valid() && c in ids && ids[c] !in c.commandQueue
      modifies conns
      ensures forall c :: c in conns ==> c.Valid() && SubscribedOn(c, channel, ids[c])
    {
      var rest := conns;
      while rest != {}
        invariant rest <= conns
        invariant forall c :: c in rest ==> c.Valid() && unchanged(c)
        invariant forall c :: c in conns - rest ==> c.Valid() && SubscribedOn(c, channel, ids[c])
        decreases rest
      {
        var c :| c in rest;
        SubscribeOne(c, channel, ids[c]);
        forall d | d in conns - (rest - {c}) ensures d.Valid() && SubscribedOn(d, channel, ids[d]) {
          if d != c {
            assert d in conns - rest;
          }
        }
        rest := rest - {c};
      }
    }

    /** One round of `on`'s loop: `c.subscribe(channel)` under `id`. */
    static method SubscribeOne(c: Connection, channel: string, id: Id)
      requires c.Valid() && id !in c.commandQueue
      modifies c
      ensures c.Valid() && SubscribedOn(c, channel, id)
    {
      var _ := c.Subscribe(channel, id);
    }

    /** The `close` handler of connection `c`: `c` stops polling, forgets its
        players, reports its world removed and leaves the set. */
    method HandleClose(c: Connection)
      requires Valid() && c in connections
      modifies this, c
      ensures Valid()
      ensures connections == old(connections) - {c}
      ensures subscribedEvents == old(subscribedEvents)
      ensures c.Valid()
      ensures !c.open && !c.polling && c.players == map[] && c.playerOrder == []
      ensures c.emitted == old(c.emitted) + [WorldRemoved]
      ensures c.commandQueue == old(c.commandQueue) && c.settled == old(c.settled)
      ensures c.subscribedEvents == old(c.subscribedEvents)
      ensures c.sent == old(c.sent) && c.promiseCount == old(c.promiseCount)
    {
      c.Close();
      connections := connections - {c};
    }
  }
}
