/**
 * `WebSocketClient`: the browser side of the real-time channel. It keeps
 * the connection flag, the reconnect counter and its timers, the channels to
 * subscribe to, and the message handlers and connection listeners. The
 * Socket.IO library is reduced to "a socket exists" plus the events it
 * delivers; handlers and listeners are reduced to identities, and what they
 * receive is recorded instead of run.
 */
module WebSocketClient {
  import opened Wrappers

  const MaxReconnectAttempts := 5
  /** Milliseconds before the first reconnect attempt. */
  const ReconnectInterval := 1000
  /** The ceiling on any reconnect delay, in milliseconds. */
  const MaxDelay := 30000
  /** The reason Socket.IO gives for a disconnect the client asked for. */
  const ClientDisconnect := "io client disconnect"

  /** What the client emits to the server. */
  datatype Emit = SubscribeMsg(channel: string) | UnsubscribeMsg(channel: string) | PingMsg

  /** One `notifyConnectionListeners` call: the state and the listeners it reached. */
  datatype Notice = Notice(state: string, reached: set<nat>)

  /** The client's fields, with pending reconnect timers by id. */
  datatype Client = Client(
    hasSocket: bool,
    isConnected: bool,
    reconnectAttempts: nat,
    autoReconnect: bool,
    timers: map<nat, int>,
    reconnectTimeout: Option<nat>,
    nextTimer: nat,
    pinging: bool,
    clientId: Option<string>,
    storedClientId: Option<string>,
    lastPing: Option<string>,
    subscriptions: seq<string>,
    handlers: map<string, seq<nat>>,
    listeners: set<nat>,
    outbox: seq<Emit>,
    notices: seq<Notice>)

  // ---------------------------------------------------------------------------
  // Insertion-ordered sets (JavaScript `Set`)
  // ---------------------------------------------------------------------------

  predicate NoDup<T(==,!new)>(s: seq<T>) {
    forall i, j :: 0 <= i < j < |s| ==> s[i] != s[j]
  }

  /** `Set.add`: appended when new, otherwise nothing changes. */
  function Inserted<T(==,!new)>(s: seq<T>, x: T): (r: seq<T>)
    ensures forall y :: y in r <==> y in s || y == x
    ensures |s| <= |r| && r[..|s|] == s
    ensures NoDup(s) ==> NoDup(r)
  {
    if x in s then s else s + [x]
  }

  /** `Set.delete`: every other element stays, in its order. */
  function Removed<T(==,!new)>(s: seq<T>, x: T): (r: seq<T>)
    ensures forall y :: y in r <==> y in s && y != x
    ensures |r| <= |s|
    ensures x !in s ==> r == s
  {
    if s == [] then []
    else if s[0] == x then Removed(s[1..], x)
    else [s[0]] + Removed(s[1..], x)
  }

  /** Deleting from a set keeps its elements distinct. */
  lemma {:induction false} RemovedNoDup<T(!new)>(s: seq<T>, x: T)
    requires NoDup(s)
    ensures NoDup(Removed(s, x))
  {
    if s != [] {
      RemovedNoDup(s[1..], x);
      if s[0] != x {
        assert s[0] !in s[1..];
      }
    }
  }

  /** The handlers registered for an event, none if the event has no entry. */
  function Get(m: map<string, seq<nat>>, e: string): seq<nat> {
    if e in m then m[e] else []
  }

  // ---------------------------------------------------------------------------
  // Reconnect delays
  // ---------------------------------------------------------------------------

  function Pow2(n: nat): nat {
    if n == 0 then 1 else 2 * Pow2(n - 1)
  }

  /** `Math.min(reconnectInterval * 2 ** attempts, 30000)`. */
  function Delay(attempts: nat): int {
    var d := ReconnectInterval * Pow2(attempts);
    if d < MaxDelay then d else MaxDelay
  }

  lemma {:induction false} Pow2AtLeast32(n: nat)
    requires n >= 5
    ensures Pow2(n) >= 32
  {
    if n > 5 {
      Pow2AtLeast32(n - 1);
    }
  }

  lemma {:induction false} Pow2Positive(n: nat)
    ensures Pow2(n) >= 1
  {
    if n > 0 {
      Pow2Positive(n - 1);
    }
  }

  /**
   * The attempts the client allows wait 1, 2, 4, 8 and 16 seconds; every
   * delay lies between one second and the thirty-second ceiling, which the
   * doubling reaches from the fifth attempt on.
   */
  lemma DelaySchedule(n: nat)
    ensures [Delay(0), Delay(1), Delay(2), Delay(3), Delay(4)] == [1000, 2000, 4000, 8000, 16000]
    ensures ReconnectInterval <= Delay(n) <= MaxDelay
    ensures n >= MaxReconnectAttempts ==> Delay(n) == MaxDelay
    ensures n < MaxReconnectAttempts ==> Delay(n) <= 16000
  {
    Pow2Positive(n);
    if n >= 5 {
      Pow2AtLeast32(n);
    }
  }

  // ---------------------------------------------------------------------------
  // Transitions
  // ---------------------------------------------------------------------------

  /** The constructor's fields. */
  const Initial := Client(false, false, 0, true, map[], None, 0, false, None, None, None, [], map[], {}, [], [])

  /** The fields the client keeps consistent. */
  predicate Valid(c: Client) {
    NoDup(c.subscriptions)
    && (forall e :: e in c.handlers ==> NoDup(c.handlers[e]))
    && c.reconnectAttempts <= MaxReconnectAttempts
    && (forall id :: id in c.timers ==> id < c.nextTimer && ReconnectInterval <= c.timers[id] <= 16000)
    && (c.isConnected ==> c.hasSocket)
  }

  /** `notifyConnectionListeners(state)`: every current listener is called. */
  function Notified(c: Client, state: string): Client {
    c.(notices := c.notices + [Notice(state, c.listeners)])
  }

  /** `scheduleReconnect`. */
  function Rescheduled(c: Client): Client {
    if c.reconnectAttempts >= MaxReconnectAttempts then Notified(c, "max_reconnect_attempts")
    else c.(reconnectAttempts := c.reconnectAttempts + 1,
            timers := c.timers[c.nextTimer := Delay(c.reconnectAttempts)],
            reconnectTimeout := Some(c.nextTimer),
            nextTimer := c.nextTimer + 1)
  }

  /** `handleConnectionError`, also what the 'connect_error' event runs. */
  function ConnectionError(c: Client): Client {
    var d := Notified(c.(isConnected := false), "error");
    if d.autoReconnect then Rescheduled(d) else d
  }

  /** `connect`: nothing when connected; otherwise a new socket, or an error when the library fails to load. */
  function Connecting(c: Client, loads: bool): Client {
    if c.hasSocket && c.isConnected then c
    else if loads then c.(hasSocket := true)
    else ConnectionError(c)
  }

  /** The 'subscribe' emits of `resubscribeToChannels`, in the set's order. */
  function Resubscriptions(subs: seq<string>): (r: seq<Emit>)
    ensures |r| == |subs| && forall i :: 0 <= i < |subs| ==> r[i] == SubscribeMsg(subs[i])
  {
    if subs == [] then [] else Resubscriptions(subs[..|subs| - 1]) + [SubscribeMsg(subs[|subs| - 1])]
  }

  /** The 'connect' event. */
  function Connected(c: Client): Client {
    var d := Notified(c.(isConnected := true, reconnectAttempts := 0, pinging := true), "connected");
    d.(outbox := d.outbox + Resubscriptions(d.subscriptions))
  }

  /** The 'disconnect' event. */
  function Dropped(c: Client, reason: string): Client {
    var d := Notified(c.(isConnected := false, pinging := false), "disconnected");
    if d.autoReconnect && reason != ClientDisconnect then Rescheduled(d) else d
  }

  /** A pending reconnect timer firing. */
  function Fired(c: Client, id: nat, loads: bool): Client
    requires id in c.timers
  {
    Connecting(c.(timers := Cancelled(c.timers, Some(id))), loads)
  }

  /** `subscribe`. */
  function SubscribedTo(c: Client, channel: string): Client {
    c.(outbox := if c.isConnected then c.outbox + [SubscribeMsg(channel)] else c.outbox,
       subscriptions := Inserted(c.subscriptions, channel))
  }

  /** `unsubscribe`. */
  function UnsubscribedFrom(c: Client, channel: string): Client {
    c.(outbox := if c.isConnected then c.outbox + [UnsubscribeMsg(channel)] else c.outbox,
       subscriptions := Removed(c.subscriptions, channel))
  }

  /** `onMessage(eventType, handler)`. */
  function WithHandler(m: map<string, seq<nat>>, e: string, h: nat): map<string, seq<nat>> {
    m[e := Inserted(Get(m, e), h)]
  }

  /** The function `onMessage` returns, when called. */
  function WithoutHandler(m: map<string, seq<nat>>, e: string, h: nat): map<string, seq<nat>> {
    if e in m then m[e := Removed(m[e], h)] else m
  }

  /** The ping interval's tick. */
  function Ticked(c: Client): Client {
    if c.pinging && c.isConnected then c.(outbox := c.outbox + [PingMsg]) else c
  }

  /** The pending timers once `clearTimeout` cancels the one `latest` names. */
  function Cancelled(timers: map<nat, int>, latest: Option<nat>): map<nat, int> {
    if latest.Some? then timers - {latest.value} else timers
  }

  /** `disconnect`: only the timer `reconnectTimeout` names is cleared. */
  function Closed(c: Client): Client {
    c.(autoReconnect := false, timers := Cancelled(c.timers, c.reconnectTimeout), reconnectTimeout := None, pinging := false,
       isConnected := false, subscriptions := [], handlers := map[], listeners := {})
  }

  // ---------------------------------------------------------------------------
  // Properties
  // ---------------------------------------------------------------------------

  /**
   * Scheduling a reconnect below the cap arms one new timer with the delay
   * for the current count and then counts the attempt; at the cap it tells
   * the listeners, arms nothing and leaves the count alone.
   */
  lemma ReschedulePlan(c: Client)
    requires Valid(c)
    ensures var d := Rescheduled(c);
      Valid(d)
      && (c.reconnectAttempts >= MaxReconnectAttempts ==>
            d.timers == c.timers && d.reconnectAttempts == c.reconnectAttempts
            && d.notices == c.notices + [Notice("max_reconnect_attempts", c.listeners)])
      && (c.reconnectAttempts < MaxReconnectAttempts ==>
            d.reconnectAttempts == c.reconnectAttempts + 1 && d.notices == c.notices
            && c.nextTimer !in c.timers && d.timers == c.timers[c.nextTimer := Delay(c.reconnectAttempts)])
  {
    DelaySchedule(c.reconnectAttempts);
  }

  /** `n` reconnect timers firing in turn, the library failing to load every time. */
  function FailedRetries(c: Client, n: nat): Client
    decreases n
  {
    if n == 0 || c.reconnectTimeout.None? || c.reconnectTimeout.value !in c.timers then c
    else FailedRetries(Fired(c, c.reconnectTimeout.value, false), n - 1)
  }

  /** One failed attempt: the latest timer fires and the library fails to load. */
  lemma OneFailedRetry(c: Client)
    requires Valid(c) && c.autoReconnect && !c.isConnected
    requires c.reconnectTimeout.Some? && c.reconnectTimeout.value in c.timers
    ensures var f := Fired(c, c.reconnectTimeout.value, false);
      Valid(f) && f.autoReconnect && !f.isConnected
      && (c.reconnectAttempts < MaxReconnectAttempts ==>
            f.reconnectAttempts == c.reconnectAttempts + 1
            && f.reconnectTimeout.Some? && f.reconnectTimeout.value in f.timers
            && Cancelled(f.timers, f.reconnectTimeout) == Cancelled(c.timers, c.reconnectTimeout))
      && (c.reconnectAttempts >= MaxReconnectAttempts ==>
            f.reconnectAttempts == c.reconnectAttempts
            && f.timers == Cancelled(c.timers, c.reconnectTimeout)
            && f.notices[|f.notices| - 1].state == "max_reconnect_attempts")
  {
    var id := c.reconnectTimeout.value;
    var e := Notified(c.(timers := Cancelled(c.timers, Some(id)), isConnected := false), "error");
    assert Fired(c, id, false) == Rescheduled(e);
    ReschedulePlan(e);
  }

  /**
   * With the latest timer pending and nothing connected, failed attempts
   * keep arming one more timer until five attempts are counted; the next
   * failure gives up and leaves no timer of its own.
   */
  lemma {:induction false} RetriesGiveUp(c: Client)
    requires Valid(c) && c.autoReconnect && !c.isConnected
    requires c.reconnectTimeout.Some? && c.reconnectTimeout.value in c.timers
    ensures var d := FailedRetries(c, MaxReconnectAttempts - c.reconnectAttempts + 1);
      d.reconnectAttempts == MaxReconnectAttempts && d.timers == Cancelled(c.timers, c.reconnectTimeout)
      && |d.notices| > 0 && d.notices[|d.notices| - 1].state == "max_reconnect_attempts"
    decreases MaxReconnectAttempts - c.reconnectAttempts
  {
    var f := Fired(c, c.reconnectTimeout.value, false);
    OneFailedRetry(c);
    if c.reconnectAttempts < MaxReconnectAttempts {
      RetriesGiveUp(f);
    } else {
      assert FailedRetries(f, 0) == f;
    }
  }

  /** A successful connection resets the count and asks again for every stored channel. */
  lemma ConnectResubscribes(c: Client)
    requires Valid(c) && c.hasSocket
    ensures var d := Connected(c);
      Valid(d) && d.isConnected && d.reconnectAttempts == 0
      && d.outbox[..|c.outbox|] == c.outbox
      && (forall ch :: ch in c.subscriptions <==> SubscribeMsg(ch) in d.outbox[|c.outbox|..])
      && d.subscriptions == c.subscriptions && d.timers == c.timers
  {
    var d := Connected(c);
    var sent := Resubscriptions(c.subscriptions);
    assert d.outbox[|c.outbox|..] == sent;
    forall ch | SubscribeMsg(ch) in sent
      ensures ch in c.subscriptions
    {
      var i :| 0 <= i < |sent| && sent[i] == SubscribeMsg(ch);
      assert c.subscriptions[i] == ch;
    }
    forall ch | ch in c.subscriptions
      ensures SubscribeMsg(ch) in sent
    {
      var i :| 0 <= i < |c.subscriptions| && c.subscriptions[i] == ch;
      assert sent[i] == SubscribeMsg(ch);
    }
  }

  /** `subscribe` records the channel whether or not the client is connected and emits only when it is. */
  lemma SubscriptionsKept(c: Client, ch: string)
    requires Valid(c)
    ensures var d := SubscribedTo(c, ch);
      Valid(d) && ch in d.subscriptions
      && (forall x :: x in d.subscriptions <==> x in c.subscriptions || x == ch)
      && d.outbox == (if c.isConnected then c.outbox + [SubscribeMsg(ch)] else c.outbox)
  {
  }

  /** `unsubscribe` drops the channel in both states and emits only when connected. */
  lemma UnsubscriptionsKept(c: Client, ch: string)
    requires Valid(c)
    ensures var d := UnsubscribedFrom(c, ch);
      Valid(d) && ch !in d.subscriptions
      && (forall x :: x in d.subscriptions <==> x in c.subscriptions && x != ch)
      && d.outbox == (if c.isConnected then c.outbox + [UnsubscribeMsg(ch)] else c.outbox)
  {
    RemovedNoDup(c.subscriptions, ch);
  }

  /** Unsubscribing undoes a subscription to a channel that was not stored before. */
  lemma UnsubscribeUndoes(c: Client, ch: string)
    requires ch !in c.subscriptions
    ensures UnsubscribedFrom(SubscribedTo(c, ch), ch).subscriptions == c.subscriptions
  {
    assert Inserted(c.subscriptions, ch) == c.subscriptions + [ch];
    RemovedLast(c.subscriptions, ch);
  }

  /** Removing an element appended to a sequence without it gives the sequence back. */
  lemma {:induction false} RemovedLast<T(!new)>(s: seq<T>, x: T)
    requires x !in s
    ensures Removed(s + [x], x) == s
  {
    if s != [] {
      assert (s + [x])[1..] == s[1..] + [x];
      RemovedLast(s[1..], x);
    }
  }

  /**
   * The function `onMessage` returns removes that handler from that event
   * and no other; registering a new handler and calling its remover leaves
   * every event's handlers as they were.
   */
  lemma RemoverRemovesOnlyThat(m: map<string, seq<nat>>, e: string, h: nat)
    ensures forall e', h' :: h' in Get(WithoutHandler(m, e, h), e') <==> h' in Get(m, e') && (e' != e || h' != h)
    ensures h in Get(WithHandler(m, e, h), e)
    ensures forall e' :: e' != e ==> Get(WithHandler(m, e, h), e') == Get(m, e')
    ensures h !in Get(m, e) ==>
      forall e' :: Get(WithoutHandler(WithHandler(m, e, h), e, h), e') == Get(m, e')
  {
    if h !in Get(m, e) {
      assert Inserted(Get(m, e), h) == Get(m, e) + [h];
      RemovedLast(Get(m, e), h);
    }
  }

  /**
   * After `disconnect` the client no longer reconnects on its own: a later
   * error or drop arms no timer and counts no attempt, and a firing timer
   * only removes itself. Only the most recent timer is cleared, so a timer
   * armed by an earlier error can still be pending.
   */
  lemma ClosedStaysClosed(c: Client, reason: string, id: nat, loads: bool)
    requires Valid(c)
    ensures var d := Closed(c);
      Valid(d) && !d.autoReconnect && d.subscriptions == [] && d.handlers == map[] && d.listeners == {}
      && d.reconnectTimeout.None? && d.timers.Keys <= c.timers.Keys
    ensures var d := Closed(c);
      ConnectionError(d).timers == d.timers && ConnectionError(d).reconnectAttempts == d.reconnectAttempts
      && Dropped(d, reason).timers == d.timers && Dropped(d, reason).reconnectAttempts == d.reconnectAttempts
      && (id in d.timers ==> Fired(d, id, loads).timers == Cancelled(d.timers, Some(id)))
  {
  }

  /** Two errors in a row arm two timers, and `disconnect` cancels only the second. */
  lemma EarlierTimerOutlivesClose()
    ensures var c := ConnectionError(ConnectionError(Initial));
      c.timers == map[0 := 1000, 1 := 2000] && Closed(c).timers == map[0 := 1000]
  {
  }

  /** The connection events keep the client's fields consistent. */
  lemma EventsKeepValid(c: Client, loads: bool)
    requires Valid(c)
    ensures Valid(ConnectionError(c)) && Valid(Connecting(c, loads))
    ensures c.hasSocket ==> Valid(Connected(c))
  {
    ReschedulePlan(Notified(c.(isConnected := false), "error"));
  }

  /** So does a drop, for any reason. */
  lemma DropKeepsValid(c: Client, reason: string)
    requires Valid(c)
    ensures Valid(Dropped(c, reason))
  {
    ReschedulePlan(Notified(c.(isConnected := false, pinging := false), "disconnected"));
  }

  /** So does a firing timer. */
  lemma FiredKeepsValid(c: Client, id: nat, loads: bool)
    requires Valid(c) && id in c.timers
    ensures Valid(Fired(c, id, loads))
  {
    ReschedulePlan(Notified(c.(timers := Cancelled(c.timers, Some(id)), isConnected := false), "error"));
  }

  /** So do the handler registry, the ping and `disconnect`. */
  lemma OperationsKeepValid(c: Client, e: string, h: nat)
    requires Valid(c)
    ensures Valid(c.(handlers := WithHandler(c.handlers, e, h))) && Valid(c.(handlers := WithoutHandler(c.handlers, e, h)))
    ensures Valid(Ticked(c)) && Valid(Closed(c))
  {
    if e in c.handlers {
      RemovedNoDup(c.handlers[e], h);
    }
  }

  // ---------------------------------------------------------------------------
  // The client object
  // ---------------------------------------------------------------------------

  class WebSocketClientObject {
    var hasSocket: bool
    var isConnected: bool
    var reconnectAttempts: nat
    var autoReconnect: bool
    /** Pending `setTimeout` reconnect timers: id to delay in milliseconds. */
    var timers: map<nat, int>
    /** `reconnectTimeout`: the id of the most recently armed timer. */
    var reconnectTimeout: Option<nat>
    var nextTimer: nat
    /** Whether the ping interval is running. */
    var pinging: bool
    var clientId: Option<string>
    /** `localStorage['ws_client_id']`. */
    var storedClientId: Option<string>
    var lastPing: Option<string>
    var subscriptions: seq<string>
    var messageHandlers: map<string, seq<nat>>
    var connectionListeners: set<nat>
    /** Everything emitted to the server so far. */
    var outbox: seq<Emit>
    /** Every listener notification so far. */
    var notices: seq<Notice>

    function View(): Client
      reads this
    {
      Client(hasSocket, isConnected, reconnectAttempts, autoReconnect, timers, reconnectTimeout, nextTimer,
             pinging, clientId, storedClientId, lastPing, subscriptions, messageHandlers, connectionListeners,
             outbox, notices)
    }

    constructor ()
      ensures View() == Initial
    {
      hasSocket, isConnected, reconnectAttempts, autoReconnect := false, false, 0, true;
      timers, reconnectTimeout, nextTimer, pinging := map[], None, 0, false;
      clientId, storedClientId, lastPing := None, None, None;
      subscriptions, messageHandlers, connectionListeners := [], map[], {};
      outbox, notices := [], [];
    }

    method Notify(state: string)
      modifies this
      ensures View() == Notified(old(View()), state)
    {
      notices := notices + [Notice(state, connectionListeners)];
    }

    method ScheduleReconnect()
      modifies this
      ensures View() == Rescheduled(old(View()))
    {
      if reconnectAttempts >= MaxReconnectAttempts {
        Notify("max_reconnect_attempts");
        return;
      }
      var delay := Delay(reconnectAttempts);
      reconnectAttempts := reconnectAttempts + 1;
      timers := timers[nextTimer := delay];
      reconnectTimeout := Some(nextTimer);
      nextTimer := nextTimer + 1;
    }

    method HandleConnectionError()
      modifies this
      ensures View() == ConnectionError(old(View()))
    {
      isConnected := false;
      Notify("error");
      if autoReconnect {
        ScheduleReconnect();
      }
    }

    /** `connect`; `loads` is whether the Socket.IO module could be imported. */
    method Connect(loads: bool)
      modifies this
      ensures View() == Connecting(old(View()), loads)
    {
      if hasSocket && isConnected {
        return;
      }
      if loads {
        hasSocket := true;
      } else {
        HandleConnectionError();
      }
    }

    /** The 'connect' event. */
    method OnConnect()
      modifies this
      ensures View() == Connected(old(View()))
    {
      ghost var c := old(View()).(isConnected := true, reconnectAttempts := 0, pinging := true);
      isConnected := true;
      reconnectAttempts := 0;
      pinging := true;
      assert View() == c;
      Notify("connected");
      ghost var d := Notified(c, "connected");
      assert View() == d;
      ResubscribeToChannels();
    }

    /** `resubscribeToChannels`: one 'subscribe' emit per stored channel, in order. */
    method ResubscribeToChannels()
      modifies this
      ensures View() == old(View()).(outbox := old(outbox) + Resubscriptions(subscriptions))
    {
      var i := 0;
      while i < |subscriptions|
        invariant 0 <= i <= |subscriptions|
        invariant View() == old(View()).(outbox := old(outbox) + Resubscriptions(subscriptions[..i]))
      {
        assert subscriptions[..i + 1][..i] == subscriptions[..i];
        outbox := outbox + [SubscribeMsg(subscriptions[i])];
        i := i + 1;
      }
      assert subscriptions[..i] == subscriptions;
    }

    /** The 'connect_error' event. */
    method OnConnectError()
      modifies this
      ensures View() == ConnectionError(old(View()))
    {
      isConnected := false;
      HandleConnectionError();
    }

    /** The 'disconnect' event. */
    method OnDisconnect(reason: string)
      modifies this
      ensures View() == Dropped(old(View()), reason)
    {
      isConnected := false;
      pinging := false;
      Notify("disconnected");
      if autoReconnect && reason != ClientDisconnect {
        ScheduleReconnect();
      }
    }

    /** The 'connected' welcome: the id is kept and stored. */
    method OnWelcome(id: string)
      modifies this
      ensures View() == old(View()).(clientId := Some(id), storedClientId := Some(id))
    {
      clientId := Some(id);
      storedClientId := Some(id);
    }

    /** The 'pong' event. */
    method OnPong(timestamp: string)
      modifies this
      ensures View() == old(View()).(lastPing := Some(timestamp))
    {
      lastPing := Some(timestamp);
    }

    /** A pending reconnect timer firing. */
    method FireReconnect(id: nat, loads: bool)
      requires id in timers
      modifies this
      ensures View() == Fired(old(View()), id, loads)
    {
      timers := Cancelled(timers, Some(id));
      Connect(loads);
    }

    /** The ping interval's tick. */
    method Tick()
      modifies this
      ensures View() == Ticked(old(View()))
    {
      if pinging && isConnected {
        outbox := outbox + [PingMsg];
      }
    }

    /**
     * `handleMessage`: every handler registered for the event is called, in
     * registration order, whether or not an earlier one threw; `throwing`
     * names the handlers that throw, and each of them is reported.
     */
    method HandleMessage(eventType: string, throwing: set<nat>) returns (called: seq<nat>, failed: seq<nat>)
      ensures called == Get(messageHandlers, eventType)
      ensures forall h :: h in failed <==> h in called && h in throwing
      ensures |failed| <= |called|
    {
      called, failed := [], [];
      if eventType !in messageHandlers {
        return;
      }
      var handlers := messageHandlers[eventType];
      var i := 0;
      while i < |handlers|
        invariant 0 <= i <= |handlers|
        invariant called == handlers[..i]
        invariant forall h :: h in failed <==> h in called && h in throwing
        invariant |failed| <= |called|
      {
        var h := handlers[i];
        if h in throwing {
          failed := failed + [h];
        }
        called := called + [h];
        i := i + 1;
      }
      assert handlers[..i] == handlers;
    }

    method Subscribe(channel: string)
      modifies this
      ensures View() == SubscribedTo(old(View()), channel)
    {
      if !isConnected {
        subscriptions := Inserted(subscriptions, channel);
        return;
      }
      outbox := outbox + [SubscribeMsg(channel)];
      subscriptions := Inserted(subscriptions, channel);
    }

    method Unsubscribe(channel: string)
      modifies this
      ensures View() == UnsubscribedFrom(old(View()), channel)
    {
      if !isConnected {
        subscriptions := Removed(subscriptions, channel);
        return;
      }
      outbox := outbox + [UnsubscribeMsg(channel)];
      subscriptions := Removed(subscriptions, channel);
    }

    /** `onMessage`; the remover it returns is `RemoveHandler` with the same arguments. */
    method OnMessage(eventType: string, handler: nat)
      modifies this
      ensures View() == old(View()).(handlers := WithHandler(old(messageHandlers), eventType, handler))
    {
      messageHandlers := WithHandler(messageHandlers, eventType, handler);
    }

    method RemoveHandler(eventType: string, handler: nat)
      modifies this
      ensures View() == old(View()).(handlers := WithoutHandler(old(messageHandlers), eventType, handler))
    {
      if eventType in messageHandlers {
        messageHandlers := messageHandlers[eventType := Removed(messageHandlers[eventType], handler)];
      }
    }

    /** `onConnectionChange`; its remover is `RemoveListener`. */
    method OnConnectionChange(listener: nat)
      modifies this
      ensures View() == old(View()).(listeners := old(connectionListeners) + {listener})
    {
      connectionListeners := connectionListeners + {listener};
    }

    method RemoveListener(listener: nat)
      modifies this
      ensures View() == old(View()).(listeners := old(connectionListeners) - {listener})
    {
      connectionListeners := connectionListeners - {listener};
    }

    method ClearReconnect()
      modifies this
      ensures View() == old(View()).(timers := Cancelled(old(timers), old(reconnectTimeout)), reconnectTimeout := None)
    {
      timers := Cancelled(timers, reconnectTimeout);
      reconnectTimeout := None;
    }

    method Disconnect()
      modifies this
      ensures View() == Closed(old(View()))
    {
      autoReconnect := false;
      ClearReconnect();
      pinging := false;
      isConnected := false;
      Forget();
    }

    /** The last step of `disconnect`: subscriptions, handlers and listeners are emptied. */
    method Forget()
      modifies this
      ensures View() == old(View()).(subscriptions := [], handlers := map[], listeners := {})
    {
      subscriptions := [];
      messageHandlers := map[];
      connectionListeners := {};
    }
  }
}
