/**
 * The session layer (src/chat.ts): `chat(driver, user)` binds one driver to
 * one user and offers enterRoom (with its leave closure), sendMessage,
 * onMessage, onEnterRoom and disconnect, each of which works only through the
 * bound driver's `listen`, `trigger` and `disconnect`.
 *
 * The drivers are the local driver and the mock driver; `BoundDriver`
 * dispatches to whichever `chat` was given.
 */
module Session {
  import opened Events
  import LocalChatDriver
  import MockChatDriver

  // ---------------------------------------------------------------------------
  // The bound driver
  // ---------------------------------------------------------------------------

  /** The `driver` argument of `chat`: the local driver over one store of tables, or a function made by `mockDriver(...)`. */
  datatype DriverFactory =
    | LocalFactory(store: LocalChatDriver.LocalStore)
    | MockFactory(hub: MockChatDriver.MockHub)

  /** `driver(user)`: the object the connection is bound to. */
  datatype BoundDriver =
    | Local(local: LocalChatDriver.LocalDriver)
    | Mock(mock: MockChatDriver.MockDriver)
  {
    /** `this.user` of the bound driver. */
    function BoundUser(): User {
      match this
      case Local(l) => l.user
      case Mock(m) => m.user
    }

    /** The objects whose state the driver's operations change. */
    ghost function Objects(): set<object> {
      match this
      case Local(l) => {l, l.store}
      case Mock(m) => {m.hub}
    }

    ghost predicate Valid()
      reads Objects()
    {
      match this
      case Local(l) => l.store.Valid()
      case Mock(m) => m.hub.Valid()
    }
  }

  /** A `trigger(e)` of the bound driver happened, and its promise settled as `o`. */
  twostate predicate Triggered(d: BoundDriver, e: ChatEvent, ids: FreshIds, o: Outcome)
    reads d.Objects()
  {
    match d
    case Local(l) =>
      LocalChatDriver.Step(l.State(), o) == LocalChatDriver.TriggerStep(old(l.State()), e, ids)
    case Mock(m) =>
      MockChatDriver.Step(m.hub.State(), o) == MockChatDriver.TriggerStep(m.hub.Settings(), old(m.hub.State()), e)
  }

  /** A `trigger(e)` of the bound driver happened, and its promise was dropped. */
  twostate predicate Stepped(d: BoundDriver, e: ChatEvent, ids: FreshIds)
    reads d.Objects()
  {
    match d
    case Local(l) =>
      l.State() == LocalChatDriver.TriggerStep(old(l.State()), e, ids).state
    case Mock(m) =>
      m.hub.State() == MockChatDriver.TriggerStep(m.hub.Settings(), old(m.hub.State()), e).state
  }

  /** `listen(x)` of the bound driver happened: `x` was appended to the listeners and nothing else changed. */
  twostate predicate Registered(d: BoundDriver, x: Listener)
    reads d.Objects()
  {
    match d
    case Local(l) =>
      && l.store.Contents() == old(l.store.Contents()).(listeners := old(l.store.listeners) + [x])
      && l.enteredRoom == old(l.enteredRoom)
    case Mock(m) =>
      m.hub.State() == old(m.hub.State()).(listeners := old(m.hub.listeners) + [x])
  }

  /** `disconnect()` of the bound driver happened. */
  twostate predicate Disconnected(d: BoundDriver, clock: Clock, ids: FreshIds)
    reads d.Objects()
  {
    match d
    case Local(l) =>
      l.State() == LocalChatDriver.DisconnectStep(old(l.State()), l.user, clock.millis, ids).state
    case Mock(m) =>
      m.hub.State() == MockChatDriver.DisconnectStep(m.hub.Settings(), old(m.hub.State()), m.user, clock.iso).state
  }

  /** `this.trigger(e)` on the bound driver. */
  method Trigger(d: BoundDriver, e: ChatEvent, ids: FreshIds) returns (o: Outcome)
    modifies d.Objects()
    ensures Triggered(d, e, ids, o)
    ensures old(d.Valid()) ==> d.Valid()
  {
    match d
    case Local(l) =>
      o := l.Trigger(e, ids);
    case Mock(m) =>
      o := m.Trigger(e);
  }

  /** `this.listen(x)` on the bound driver. */
  method Listen(d: BoundDriver, x: Listener)
    modifies d.Objects()
    ensures Registered(d, x)
    ensures old(d.Valid()) ==> d.Valid()
  {
    match d
    case Local(l) =>
      l.Listen(x);
    case Mock(m) =>
      var _ := m.Listen(x);
  }

  // ---------------------------------------------------------------------------
  // The connection
  // ---------------------------------------------------------------------------

  /** The closure `enterRoom(roomId)` returns: it leaves `roomId` as the bound user. */
  datatype LeaveClosure = LeaveClosure(driver: BoundDriver, roomId: string)
  {
    /** Calling the closure: one leave-room for the same room and user; its promise is returned. */
    method Call(now: int, ids: FreshIds) returns (o: Outcome)
      modifies driver.Objects()
      ensures Triggered(driver, ChatEvent.LeaveRoom(Millis(now), driver.BoundUser(), Some(Room(roomId))), ids, o)
      ensures old(driver.Valid()) ==> driver.Valid()
    {
      o := Trigger(driver, ChatEvent.LeaveRoom(Millis(now), driver.BoundUser(), Some(Room(roomId))), ids);
    }
  }

  /** What `chat(driver, user)` returns. Every method acts on the one driver bound at construction. */
  class Connection {
    const driver: BoundDriver

    /** `chat(driver, user)`: calls `driver(user)` once and binds every method to the result. */
    constructor Chat(factory: DriverFactory, user: User)
      ensures driver.BoundUser() == user
      ensures factory.LocalFactory? ==>
        && driver.Local? && fresh(driver.local)
        && driver.local.store == factory.store && driver.local.enteredRoom == None
      ensures factory.MockFactory? ==>
        driver.Mock? && fresh(driver.mock) && driver.mock.hub == factory.hub
    {
      match factory
      case LocalFactory(store) =>
        var l := new LocalChatDriver.LocalDriver(store, user);
        driver := Local(l);
      case MockFactory(hub) =>
        var m := new MockChatDriver.MockDriver(hub, user);
        driver := Mock(m);
    }

    /**
     * `enterRoom(roomId)`: one enter-room for `{id: roomId}` and the bound
     * user, whose promise is dropped; returns the leave closure for the
     * same room.
     */
    method EnterRoom(roomId: string, now: int, ids: FreshIds) returns (leave: LeaveClosure)
      modifies driver.Objects()
      ensures Stepped(driver, ChatEvent.EnterRoom(Millis(now), driver.BoundUser(), Room(roomId)), ids)
      ensures leave == LeaveClosure(driver, roomId)
      ensures old(driver.Valid()) ==> driver.Valid()
    {
      var _ := Trigger(driver, ChatEvent.EnterRoom(Millis(now), driver.BoundUser(), Room(roomId)), ids);
      leave := LeaveClosure(driver, roomId);
    }

    /** `sendMessage(message)`: one "message" event wrapping the message; resolves true whatever the trigger does. */
    method SendMessage(message: ChatMessage, now: int, ids: FreshIds) returns (r: bool)
      modifies driver.Objects()
      ensures Stepped(driver, ChatEvent.Message(Millis(now), message), ids)
      ensures r
      ensures old(driver.Valid()) ==> driver.Valid()
    {
      var _ := Trigger(driver, ChatEvent.Message(Millis(now), message), ids);
      r := true;
    }

    /** `onMessage(fn)`: registers exactly one listener, the message filter around `fn`. */
    method OnMessage(handler: nat)
      modifies driver.Objects()
      ensures Registered(driver, OnMessageSub(handler))
      ensures old(driver.Valid()) ==> driver.Valid()
    {
      Listen(driver, OnMessageSub(handler));
    }

    /** `onEnterRoom(fn)`: registers exactly one listener, the others' entries filter around `fn`. */
    method OnEnterRoom(handler: nat)
      modifies driver.Objects()
      ensures Registered(driver, OnEnterRoomSub(driver.BoundUser().id, handler))
      ensures old(driver.Valid()) ==> driver.Valid()
    {
      Listen(driver, OnEnterRoomSub(driver.BoundUser().id, handler));
    }

    /** `disconnect()`: delegates to the bound driver's `disconnect`. */
    method Disconnect(clock: Clock, ids: FreshIds)
      modifies driver.Objects()
      ensures Disconnected(driver, clock, ids)
      ensures old(driver.Valid()) ==> driver.Valid()
    {
      match driver
      case Local(l) =>
        l.Disconnect(clock.millis, ids);
      case Mock(m) =>
        m.Disconnect(clock.iso);
    }
  }

  // ---------------------------------------------------------------------------
  // What the registered listeners do with the events they receive
  // ---------------------------------------------------------------------------

  /** One call of a caller's handler. */
  datatype HandlerCall =
    | Raw(handler: nat, event: Delivered)             // a function given to `listen` directly
    | GotMessage(handler: nat, message: ChatMessage)   // `fn(event.content)` of onMessage
    | GotEntry(handler: nat, user: User, room: Room)   // `fn(user, room)` of onEnterRoom

  /**
   * The arrow functions of onMessage (src/chat.ts:61-65) and onEnterRoom
   * (src/chat.ts:72-79): the handler call a listener makes for one event.
   */
  function Handle(l: Listener, d: Delivered): Option<HandlerCall> {
    match l
    case Callback(h) => Some(Raw(h, d))
    case OnMessageSub(h) =>
      if d.event.Message? then Some(GotMessage(h, d.event.content)) else None
    case OnEnterRoomSub(selfId, h) =>
      if d.event.EnterRoom? && d.event.user.id != selfId then Some(GotEntry(h, d.event.user, d.event.room)) else None
  }

  function AsSeq<T>(o: Option<T>): seq<T> {
    if o.Some? then [o.value] else []
  }

  /** The handler calls a log of listener calls produces, in order. */
  function Calls(log: seq<Delivery>): (r: seq<HandlerCall>)
    ensures |r| <= |log|
  {
    if log == [] then [] else AsSeq(Handle(log[0].listener, log[0].event)) + Calls(log[1..])
  }

  predicate Produces(x: Delivery, c: HandlerCall) {
    Handle(x.listener, x.event) == Some(c)
  }

  /** Handler calls follow the listener calls in order: the calls of a longer log extend those of its prefix. */
  lemma {:induction false} CallsAppend(a: seq<Delivery>, b: seq<Delivery>)
    ensures Calls(a + b) == Calls(a) + Calls(b)
  {
    if a != [] {
      CallsAppend(a[1..], b);
      assert (a + b)[0] == a[0] && (a + b)[1..] == a[1..] + b;
      var head := AsSeq(Handle(a[0].listener, a[0].event));
      assert Calls(a + b) == head + Calls(a[1..] + b);
      assert Calls(a) == head + Calls(a[1..]);
      assert head + (Calls(a[1..]) + Calls(b)) == (head + Calls(a[1..])) + Calls(b);
    } else {
      assert a + b == b;
    }
  }

  /** A handler call happens exactly when some listener call in the log produces it. */
  lemma {:induction false} CallIn(log: seq<Delivery>, c: HandlerCall)
    ensures c in Calls(log) <==> exists i :: 0 <= i < |log| && Produces(log[i], c)
  {
    if log != [] {
      CallIn(log[1..], c);
      assert c in AsSeq(Handle(log[0].listener, log[0].event)) <==> Produces(log[0], c);
      if exists i :: 0 <= i < |log[1..]| && Produces(log[1..][i], c) {
        var i :| 0 <= i < |log[1..]| && Produces(log[1..][i], c);
        assert Produces(log[i + 1], c);
      }
      if exists i :: 0 <= i < |log| && Produces(log[i], c) {
        var i :| 0 <= i < |log| && Produces(log[i], c);
        if i > 0 {
          assert Produces(log[1..][i - 1], c);
        }
      }
    }
  }

  /**
   * The onMessage handler is called with `m` exactly when its listener
   * receives a "message" event whose content is `m`: no room filter and no
   * sender filter.
   */
  lemma ProducesMessage(x: Delivery, h: nat, m: ChatMessage)
    ensures Produces(x, GotMessage(h, m)) <==>
      x.listener == OnMessageSub(h) && x.event.event.Message? && x.event.event.content == m
  {
  }

  /**
   * The onEnterRoom handler is called with `(u, r)` exactly when its
   * listener receives an enter-room event of `u` into `r` and `u` is not the
   * user whose connection registered it.
   */
  lemma ProducesEntry(x: Delivery, h: nat, u: User, r: Room)
    ensures Produces(x, GotEntry(h, u, r)) <==>
      && x.listener.OnEnterRoomSub? && x.listener.handler == h
      && x.event.event.EnterRoom? && x.event.event.user == u && x.event.event.room == r
      && u.id != x.listener.selfId
  {
  }

  /**
   * Fan-out of one "message" event: a message handler is called with its
   * content exactly when an onMessage listener for it is registered. That
   * includes the onMessage listener of the sender's own connection.
   */
  lemma MessageReachesEverySubscriber(listeners: seq<Listener>, d: Delivered, h: nat)
    requires d.event.Message?
    ensures GotMessage(h, d.event.content) in Calls(Deliveries(listeners, d)) <==> OnMessageSub(h) in listeners
  {
    var log := Deliveries(listeners, d);
    CallIn(log, GotMessage(h, d.event.content));
    if OnMessageSub(h) in listeners {
      var i :| 0 <= i < |listeners| && listeners[i] == OnMessageSub(h);
      assert Produces(log[i], GotMessage(h, d.event.content));
    }
  }

  /**
   * Fan-out of one enter-room event of `u`: an entry handler is called
   * exactly when an onEnterRoom listener for it was registered by a
   * connection of a user other than `u`.
   */
  lemma EntryReachesOthersOnly(listeners: seq<Listener>, d: Delivered, h: nat)
    requires d.event.EnterRoom?
    ensures GotEntry(h, d.event.user, d.event.room) in Calls(Deliveries(listeners, d)) <==>
      exists self :: OnEnterRoomSub(self, h) in listeners && self != d.event.user.id
  {
    var log := Deliveries(listeners, d);
    var c := GotEntry(h, d.event.user, d.event.room);
    CallIn(log, c);
    if exists self :: OnEnterRoomSub(self, h) in listeners && self != d.event.user.id {
      var self :| OnEnterRoomSub(self, h) in listeners && self != d.event.user.id;
      var i :| 0 <= i < |listeners| && listeners[i] == OnEnterRoomSub(self, h);
      assert Produces(log[i], c);
    }
    if c in Calls(log) {
      var i :| 0 <= i < |log| && Produces(log[i], c);
      assert listeners[i] in listeners;
    }
  }

  /** A connection's own enter-room never reaches its own onEnterRoom handler. */
  lemma OwnEntrySuppressed(self: User, h: nat, d: Delivered)
    requires d.event.EnterRoom? && d.event.user.id == self.id
    ensures Handle(OnEnterRoomSub(self.id, h), d) == None
  {
  }

  /**
   * A `sendMessage` through the local driver, from any state (whether or
   * not the sender was ever allowed into a room or entered one): the
   * trigger resolves true, and an onMessage handler is called with the
   * message exactly when its listener is registered.
   */
  lemma LocalMessageReachesSubscribers(s: LocalChatDriver.DriverState, ts: Timestamp, m: ChatMessage,
                                       ids: FreshIds, h: nat)
    ensures var r := LocalChatDriver.TriggerStep(s, ChatEvent.Message(ts, m), ids);
      var t := s.tables;
      && r.outcome == Resolved(true)
      && r.state.tables.deliveries[..|t.deliveries|] == t.deliveries
      && (GotMessage(h, m) in Calls(r.state.tables.deliveries[|t.deliveries|..]) <==> OnMessageSub(h) in t.listeners)
  {
    var d := Delivered(ChatEvent.Message(ts, m), Some(ids.eventId), None);
    var t := s.tables;
    LocalChatDriver.SessionMessageNotStored(s, ts, m, ids);
    var t' := LocalChatDriver.TriggerStep(s, ChatEvent.Message(ts, m), ids).state.tables;
    assert t'.deliveries[|t.deliveries|..] == Deliveries(t.listeners, d);
    MessageReachesEverySubscriber(t.listeners, d, h);
  }
}
