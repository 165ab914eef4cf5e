/**
 * `WebSocketManager`: the server's table of connected sessions and the
 * table of channel subscribers, as the Socket.IO handlers and the stale
 * cleanup change them. The clock is a parameter, the Socket.IO rooms
 * themselves are left to the library, and each handler is taken as atomic.
 */
module WebSocketServer {
  import opened Wrappers

  /** Seconds without a ping after which the cleanup drops a connection. */
  const StaleAfter: real := 120.0

  datatype Connection = Connection(clientId: string, connectedAt: real, lastPing: real, subscriptions: set<string>)

  /** `active_connections` and `room_subscribers`. */
  datatype Tables = Tables(connections: map<string, Connection>, rooms: map<string, set<string>>)

  /** What a handler emits back to the requesting client. */
  datatype Reply = Welcome(clientId: string) | ErrorReply(message: string) | Subscribed(channel: string)
                 | Unsubscribed(channel: string) | Pong

  const ChannelRequired := "Channel is required"

  /**
   * Every channel a connected session has subscribed to lists that session
   * among its subscribers.
   */
  predicate Consistent(t: Tables) {
    forall sid, c :: sid in t.connections && c in t.connections[sid].subscriptions ==>
      c in t.rooms && sid in t.rooms[c]
  }

  /** `data.get('channel')` is falsy. */
  predicate NoChannel(channel: Option<string>) {
    channel.None? || channel.value == ""
  }

  // ---------------------------------------------------------------------------
  // The handlers, on values
  // ---------------------------------------------------------------------------

  /** `handle_connect`: a fresh entry with no subscriptions, replacing any earlier one. */
  function Connect(t: Tables, sid: string, clientId: string, now: real): Tables {
    t.(connections := t.connections[sid := Connection(clientId, now, now, {})])
  }

  /** The subscriber sets after `sid` leaves the channels `subs`. */
  function Leave(rooms: map<string, set<string>>, sid: string, subs: set<string>): map<string, set<string>> {
    map c | c in rooms :: if c in subs then rooms[c] - {sid} else rooms[c]
  }

  /** `handle_disconnect`. */
  function Disconnect(t: Tables, sid: string): Tables {
    if sid !in t.connections then t
    else Tables(t.connections - {sid}, Leave(t.rooms, sid, t.connections[sid].subscriptions))
  }

  /** `handle_subscribe` with a channel. */
  function Subscribe(t: Tables, sid: string, channel: string): Tables {
    var conns := if sid in t.connections
      then t.connections[sid := t.connections[sid].(subscriptions := t.connections[sid].subscriptions + {channel})]
      else t.connections;
    var members := if channel in t.rooms then t.rooms[channel] else {};
    Tables(conns, t.rooms[channel := members + {sid}])
  }

  /** `handle_unsubscribe` with a channel. */
  function Unsubscribe(t: Tables, sid: string, channel: string): Tables {
    var conns := if sid in t.connections
      then t.connections[sid := t.connections[sid].(subscriptions := t.connections[sid].subscriptions - {channel})]
      else t.connections;
    var rooms := if channel in t.rooms then t.rooms[channel := t.rooms[channel] - {sid}] else t.rooms;
    Tables(conns, rooms)
  }

  /** `handle_ping`. */
  function Ping(t: Tables, sid: string, now: real): Tables {
    if sid !in t.connections then t
    else t.(connections := t.connections[sid := t.connections[sid].(lastPing := now)])
  }

  /** A connection the cleanup keeps: pinged at most two minutes ago. */
  predicate Fresh(c: Connection, now: real) {
    now - c.lastPing <= StaleAfter
  }

  /** One pass of `cleanup_stale_connections`. */
  function Sweep(t: Tables, now: real): Tables {
    t.(connections := map sid | sid in t.connections && Fresh(t.connections[sid], now) :: t.connections[sid])
  }

  /** `broadcast_to_channel` emits exactly when the channel has a subscriber. */
  predicate Broadcasts(t: Tables, channel: string) {
    channel in t.rooms && t.rooms[channel] != {}
  }

  // ---------------------------------------------------------------------------
  // Properties
  // ---------------------------------------------------------------------------

  /** Connecting, subscribing, unsubscribing and pinging keep the subscription tables consistent. */
  lemma HandlersKeepConsistent(t: Tables, sid: string, clientId: string, channel: string, now: real)
    requires Consistent(t)
    ensures Consistent(Connect(t, sid, clientId, now))
    ensures Consistent(Subscribe(t, sid, channel))
    ensures Consistent(Unsubscribe(t, sid, channel))
    ensures Consistent(Ping(t, sid, now))
  {
  }

  /** Disconnecting and the cleanup keep them consistent too. */
  lemma RemovalsKeepConsistent(t: Tables, sid: string, now: real)
    requires Consistent(t)
    ensures Consistent(Disconnect(t, sid))
    ensures Consistent(Sweep(t, now))
  {
    var u := Disconnect(t, sid);
    forall s, c | s in u.connections && c in u.connections[s].subscriptions
      ensures c in u.rooms && s in u.rooms[c]
    {
      assert s != sid || sid !in t.connections;
    }
  }

  /**
   * Disconnecting removes the session's entry and takes it out of exactly the
   * channels it had subscribed to; it changes nothing for an unknown session.
   */
  lemma DisconnectLeavesRooms(t: Tables, sid: string, c: string)
    requires sid in t.connections && c in t.rooms
    ensures var u := Disconnect(t, sid);
      sid !in u.connections && c in u.rooms
      && (c in t.connections[sid].subscriptions ==> u.rooms[c] == t.rooms[c] - {sid})
      && (c !in t.connections[sid].subscriptions ==> u.rooms[c] == t.rooms[c])
    ensures Disconnect(t, sid).rooms.Keys == t.rooms.Keys
    ensures forall other :: other in t.connections && other != sid ==>
      other in Disconnect(t, sid).connections && Disconnect(t, sid).connections[other] == t.connections[other]
  {
  }

  /**
   * Subscribing lists the session under the channel (creating the channel's
   * set if needed) and, for a connected session, records the channel;
   * unsubscribing undoes both and is idempotent.
   */
  lemma SubscribeUnsubscribe(t: Tables, sid: string, channel: string)
    ensures var u := Subscribe(t, sid, channel);
      channel in u.rooms && sid in u.rooms[channel]
      && (sid in t.connections ==> channel in u.connections[sid].subscriptions)
      && u.connections.Keys == t.connections.Keys
    ensures var u := Unsubscribe(t, sid, channel);
      (channel in u.rooms ==> sid !in u.rooms[channel])
      && (sid in t.connections ==> channel !in u.connections[sid].subscriptions)
      && Unsubscribe(u, sid, channel) == u
  {
    var u := Unsubscribe(t, sid, channel);
    if sid in u.connections {
      var cn := u.connections[sid];
      assert cn.subscriptions - {channel} == cn.subscriptions;
      assert cn.(subscriptions := cn.subscriptions - {channel}) == cn;
    }
    if channel in u.rooms {
      assert u.rooms[channel] - {sid} == u.rooms[channel];
    }
  }

  /**
   * The cleanup keeps exactly the connections pinged within two minutes,
   * unchanged, and leaves the subscriber sets alone: a dropped session stays
   * listed, so broadcasts to its channels go on.
   */
  lemma SweepKeepsFresh(t: Tables, now: real, channel: string)
    ensures forall sid :: sid in Sweep(t, now).connections <==> sid in t.connections && Fresh(t.connections[sid], now)
    ensures forall sid :: sid in Sweep(t, now).connections ==> Sweep(t, now).connections[sid] == t.connections[sid]
    ensures Sweep(t, now).rooms == t.rooms
    ensures Broadcasts(Sweep(t, now), channel) == Broadcasts(t, channel)
  {
  }

  /** A ping at the moment of the cleanup always saves the connection. */
  lemma PingSavesConnection(t: Tables, sid: string, now: real)
    requires sid in t.connections
    ensures sid in Sweep(Ping(t, sid, now), now).connections
  {
  }

  // ---------------------------------------------------------------------------
  // The manager object
  // ---------------------------------------------------------------------------

  class WebSocketManager {
    var connections: map<string, Connection>
    var rooms: map<string, set<string>>
    /** Broadcasts emitted, as (event, channel) pairs. */
    var broadcasts: seq<(string, string)>

    function View(): Tables
      reads this
    {
      Tables(connections, rooms)
    }

    constructor ()
      ensures View() == Tables(map[], map[]) && broadcasts == []
    {
      connections := map[];
      rooms := map[];
      broadcasts := [];
    }

    method HandleConnect(sid: string, clientId: string, now: real) returns (reply: Reply)
      modifies this
      ensures View() == Connect(old(View()), sid, clientId, now) && broadcasts == old(broadcasts)
      ensures reply == Welcome(clientId)
    {
      connections := connections[sid := Connection(clientId, now, now, {})];
      reply := Welcome(clientId);
    }

    /** Leaves every subscribed channel, one at a time, then drops the entry. */
    method HandleDisconnect(sid: string)
      modifies this
      ensures View() == Disconnect(old(View()), sid) && broadcasts == old(broadcasts)
    {
      if sid !in connections {
        return;
      }
      var subs := connections[sid].subscriptions;
      var todo := subs;
      ghost var start := rooms;
      while todo != {}
        invariant todo <= subs
        invariant rooms == Leave(start, sid, subs - todo)
        invariant connections == old(connections) && broadcasts == old(broadcasts) && start == old(rooms)
        decreases todo
      {
        var c :| c in todo;
        if c in rooms {
          rooms := rooms[c := rooms[c] - {sid}];
        }
        LeaveOneMore(start, sid, subs - todo, c);
        assert subs - (todo - {c}) == (subs - todo) + {c};
        todo := todo - {c};
      }
      connections := connections - {sid};
    }

    method HandleSubscribe(sid: string, channel: Option<string>) returns (reply: Reply)
      modifies this
      ensures NoChannel(channel) ==> View() == old(View()) && reply == ErrorReply(ChannelRequired)
      ensures !NoChannel(channel) ==> View() == Subscribe(old(View()), sid, channel.value) && reply == Subscribed(channel.value)
      ensures broadcasts == old(broadcasts)
    {
      if NoChannel(channel) {
        return ErrorReply(ChannelRequired);
      }
      var c := channel.value;
      if sid in connections {
        connections := connections[sid := connections[sid].(subscriptions := connections[sid].subscriptions + {c})];
      }
      if c !in rooms {
        rooms := rooms[c := {}];
      }
      rooms := rooms[c := rooms[c] + {sid}];
      reply := Subscribed(c);
    }

    method HandleUnsubscribe(sid: string, channel: Option<string>) returns (reply: Reply)
      modifies this
      ensures NoChannel(channel) ==> View() == old(View()) && reply == ErrorReply(ChannelRequired)
      ensures !NoChannel(channel) ==> View() == Unsubscribe(old(View()), sid, channel.value) && reply == Unsubscribed(channel.value)
      ensures broadcasts == old(broadcasts)
    {
      if NoChannel(channel) {
        return ErrorReply(ChannelRequired);
      }
      var c := channel.value;
      if sid in connections {
        connections := connections[sid := connections[sid].(subscriptions := connections[sid].subscriptions - {c})];
      }
      if c in rooms {
        rooms := rooms[c := rooms[c] - {sid}];
      }
      reply := Unsubscribed(c);
    }

    method HandlePing(sid: string, now: real) returns (reply: Reply)
      modifies this
      ensures View() == Ping(old(View()), sid, now) && broadcasts == old(broadcasts) && reply == Pong
    {
      if sid in connections {
        connections := connections[sid := connections[sid].(lastPing := now)];
      }
      reply := Pong;
    }

    method BroadcastToChannel(channel: string, event: string)
      modifies this
      ensures View() == old(View())
      ensures broadcasts == old(broadcasts) + if Broadcasts(View(), channel) then [(event, channel)] else []
    {
      if channel in rooms && rooms[channel] != {} {
        broadcasts := broadcasts + [(event, channel)];
      }
    }

    /** One pass of the cleanup loop: collect the stale sessions, then delete them. */
    method CleanupStaleConnections(now: real)
      modifies this
      ensures View() == Sweep(old(View()), now) && broadcasts == old(broadcasts)
    {
      var stale := set sid | sid in connections && !Fresh(connections[sid], now);
      var todo := stale;
      while todo != {}
        invariant todo <= stale
        invariant connections == old(connections) - (stale - todo)
        invariant rooms == old(rooms) && broadcasts == old(broadcasts)
        decreases todo
      {
        var sid :| sid in todo;
        if sid in connections {
          connections := connections - {sid};
        }
        assert stale - (todo - {sid}) == (stale - todo) + {sid};
        todo := todo - {sid};
      }
      assert connections == Sweep(old(View()), now).connections;
    }
  }

  /** Leaving one more channel extends the set of channels left. */
  lemma LeaveOneMore(rooms: map<string, set<string>>, sid: string, done: set<string>, c: string)
    requires c !in done
    ensures var before := Leave(rooms, sid, done);
      Leave(rooms, sid, done + {c}) == if c in before then before[c := before[c] - {sid}] else before
  {
  }
}
