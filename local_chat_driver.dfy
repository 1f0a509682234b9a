/**
 * The reference in-memory driver (src/localChatDriver.ts).
 *
 * The source keeps its tables in module-level objects shared by every driver
 * it creates; here they are the fields of one `LocalStore` object, and a
 * `LocalDriver` is what `localChatDriver(user)` returns: the bound user, the
 * per-instance `enteredRoom`, and a reference to the shared store.
 *
 * `TriggerStep` is the specification of `trigger` on the value of the state;
 * `LocalDriver.Trigger` is proved to implement it, and the lemmas below prove
 * what the source promises about it.
 */
module LocalChatDriver {
  import opened Events

  /** A message as the driver stores it: `freeze(addId(content))`. */
  datatype StoredMessage = StoredMessage(id: string, message: ChatMessage)

  /** The module-level tables of src/localChatDriver.ts:21-50, plus the record of listener calls. */
  datatype Tables = Tables(
    rooms: map<string, seq<User>>,
    permissions: map<string, seq<User>>,
    roomsMessages: map<string, seq<string>>,
    messages: map<string, StoredMessage>,
    events: map<string, Delivered>,
    listeners: seq<Listener>,
    deliveries: seq<Delivery>)

  /** What one driver instance sees: the shared tables and its own `enteredRoom`. */
  datatype DriverState = DriverState(tables: Tables, enteredRoom: Option<Room>)

  /** The state after a `trigger`, and how its promise settles. */
  datatype Step = Step(state: DriverState, outcome: Outcome)

  // ---------------------------------------------------------------------------
  // The array expressions of the source
  // ---------------------------------------------------------------------------

  /** `users.filter(u => u.id === id).length` */
  function CountId(users: seq<User>, id: string): (n: nat)
    ensures n <= |users|
    ensures n == 0 <==> forall u :: u in users ==> u.id != id
  {
    if users == [] then 0
    else (if users[0].id == id then 1 else 0) + CountId(users[1..], id)
  }

  /** `users.filter(u => u.id !== id)` */
  function WithoutUser(users: seq<User>, id: string): (r: seq<User>)
    ensures |r| <= |users|
    ensures forall u :: u in r ==> u in users && u.id != id
  {
    if users == [] then []
    else (if users[0].id != id then [users[0]] else []) + WithoutUser(users[1..], id)
  }

  lemma {:induction false} CountIdAppend(users: seq<User>, u: User, id: string)
    ensures CountId(users + [u], id) == CountId(users, id) + (if u.id == id then 1 else 0)
  {
    if users == [] {
      assert users + [u] == [u];
    } else {
      assert (users + [u])[1..] == users[1..] + [u];
      CountIdAppend(users[1..], u, id);
    }
  }

  /** Leaving removes every entry of the leaving user and keeps every other user's entries. */
  lemma {:induction false} WithoutUserCount(users: seq<User>, id: string, other: string)
    ensures CountId(WithoutUser(users, id), other) == if other == id then 0 else CountId(users, other)
  {
    if users != [] {
      WithoutUserCount(users[1..], id, other);
      var rest := WithoutUser(users[1..], id);
      if users[0].id != id {
        assert ([users[0]] + rest)[1..] == rest;
      } else {
        assert [] + rest == rest;
      }
    }
  }

  /** Filtering distributes over concatenation: the kept entries stay in their order. */
  lemma {:induction false} WithoutUserConcat(a: seq<User>, b: seq<User>, id: string)
    ensures WithoutUser(a + b, id) == WithoutUser(a, id) + WithoutUser(b, id)
  {
    if a == [] {
      assert a + b == b;
    } else {
      assert (a + b)[1..] == a[1..] + b;
      WithoutUserConcat(a[1..], b, id);
    }
  }

  /** Filtering out a user who is not there changes nothing. */
  lemma {:induction false} WithoutAbsentUser(users: seq<User>, id: string)
    requires CountId(users, id) == 0
    ensures WithoutUser(users, id) == users
  {
    if users != [] {
      WithoutAbsentUser(users[1..], id);
      assert [users[0]] + users[1..] == users;
    }
  }

  // ---------------------------------------------------------------------------
  // Pure reads of the tables
  // ---------------------------------------------------------------------------

  /** `isAllowed(user, roomId)`: the room has a permission list holding the user's id exactly once. */
  predicate IsAllowed(permissions: map<string, seq<User>>, user: User, roomId: string) {
    roomId in permissions && CountId(permissions[roomId], user.id) == 1
  }

  /** `usersInRoom(roomId)`: the room's members, or undefined for a room never entered. */
  function UsersInRoom(rooms: map<string, seq<User>>, roomId: string): Option<seq<User>> {
    if roomId in rooms then Some(rooms[roomId]) else None
  }

  /** The list stored under `key`, or the `[]` the source creates for a missing key. */
  function ListAt<T>(table: map<string, seq<T>>, key: string): seq<T> {
    if key in table then table[key] else []
  }

  /** Every listed message id is stored, and every stored message carries its own key as id. */
  ghost predicate MessagesConsistent(roomsMessages: map<string, seq<string>>, messages: map<string, StoredMessage>) {
    && (forall r, i :: r in roomsMessages && 0 <= i < |roomsMessages[r]| ==> roomsMessages[r][i] in messages)
    && (forall k :: k in messages ==> messages[k].id == k)
  }

  /**
   * `getMessages(roomId)`: the room's stored messages in the order they were
   * sent. A room without a message list makes `.map` throw on undefined.
   */
  function GetMessages(roomsMessages: map<string, seq<string>>, messages: map<string, StoredMessage>, roomId: string)
    : (r: Result<seq<StoredMessage>>)
    requires MessagesConsistent(roomsMessages, messages)
    ensures r.Err? <==> roomId !in roomsMessages
    ensures r.Err? ==> r.error == TypeError
    ensures r.Ok? ==> |r.value| == |roomsMessages[roomId]|
    ensures r.Ok? ==> forall i :: 0 <= i < |r.value| ==> r.value[i].id == roomsMessages[roomId][i]
    ensures r.Ok? ==> forall i :: 0 <= i < |r.value| ==> r.value[i] == messages[roomsMessages[roomId][i]]
  {
    if roomId !in roomsMessages then Err(TypeError)
    else
      var ids := roomsMessages[roomId];
      Ok(seq(|ids|, i requires 0 <= i < |ids| => messages[ids[i]]))
  }

  // ---------------------------------------------------------------------------
  // Invariant of the tables
  // ---------------------------------------------------------------------------

  /** Each user id appears at most once in each list of the table. */
  ghost predicate UniqueIds(table: map<string, seq<User>>) {
    forall r, id {:trigger CountId(table[r], id)} :: r in table ==> CountId(table[r], id) <= 1
  }

  ghost predicate EventsConsistent(events: map<string, Delivered>) {
    forall k :: k in events ==> events[k].id == Some(k)
  }

  /** What every reachable state of the tables satisfies. */
  ghost predicate Inv(t: Tables) {
    && UniqueIds(t.rooms)
    && UniqueIds(t.permissions)
    && MessagesConsistent(t.roomsMessages, t.messages)
    && EventsConsistent(t.events)
  }

  function EmptyTables(): Tables {
    Tables(map[], map[], map[], map[], map[], [], [])
  }

  // ---------------------------------------------------------------------------
  // Specification of trigger, disconnect and allowUser
  // ---------------------------------------------------------------------------

  function NotAllowedMessage(user: User): string {
    "User " + user.id + " is not allowed to enter this room"
  }

  /** What the `switch` of `trigger` does with an event: reject it, or apply it. */
  datatype Change =
    | Reject(reason: Failure)
    | Apply(state: DriverState, delivered: Delivered)   // the new state, and the event as listeners get it

  /** The `switch` of `trigger` (src/localChatDriver.ts:76-118), with the values `uuid()` yields given by `ids`. */
  function Switch(s: DriverState, e: ChatEvent, ids: FreshIds): Change {
    var t := s.tables;
    var d := Delivered(e, Some(ids.eventId), None);
    match e
    case EnterRoom(_, user, room) =>
      if !IsAllowed(t.permissions, user, room.id) then
        Reject(Error(NotAllowedMessage(user)))
      else if CountId(ListAt(t.rooms, room.id), user.id) == 0 then
        var rooms' := t.rooms[room.id := ListAt(t.rooms, room.id) + [user]];
        Apply(DriverState(t.(rooms := rooms'), Some(room)), d)
      else
        Apply(s, d)
    case LeaveRoom(_, user, leaving) =>
      if leaving.None? || leaving.value.id !in t.rooms then
        Reject(TypeError)
      else
        var id := leaving.value.id;
        Apply(s.(tables := t.(rooms := t.rooms[id := WithoutUser(t.rooms[id], user.id)])), d)
    case OnMessage(_, content) =>
      if s.enteredRoom.None? then
        Reject(TypeError)
      else
        var key := s.enteredRoom.value.id;
        var stored := StoredMessage(ids.messageId, content);
        var t' := t.(roomsMessages := t.roomsMessages[key := ListAt(t.roomsMessages, key) + [stored.id]],
                     messages := t.messages[stored.id := stored]);
        Apply(s.(tables := t'), d.(contentId := Some(stored.id)))
    case _ =>
      Apply(s, d)
  }

  /**
   * `trigger(e)` of src/localChatDriver.ts:74-124: a rejected event leaves the
   * state alone; an applied one is delivered to every listener and logged
   * under its id, and the promise resolves true.
   */
  function TriggerStep(s: DriverState, e: ChatEvent, ids: FreshIds): Step {
    match Switch(s, e, ids)
    case Reject(reason) => Step(s, Rejected(reason))
    case Apply(s', d) =>
      var t := s'.tables;
      Step(s'.(tables := t.(deliveries := t.deliveries + Deliveries(t.listeners, d),
                             events := t.events[ids.eventId := d])),
           Resolved(true))
  }

  /** `disconnect()`: a leave-room for whatever `enteredRoom` holds. */
  function DisconnectStep(s: DriverState, user: User, now: int, ids: FreshIds): Step {
    TriggerStep(s, LeaveRoom(Millis(now), user, s.enteredRoom), ids)
  }

  /** `allowUser(user, roomId)` on the permission table. */
  function AllowUserTable(permissions: map<string, seq<User>>, user: User, roomId: string): map<string, seq<User>> {
    if IsAllowed(permissions, user, roomId) then permissions
    else permissions[roomId := ListAt(permissions, roomId) + [user]]
  }

  // ---------------------------------------------------------------------------
  // The module-level tables and the driver instances
  // ---------------------------------------------------------------------------

  /**
   * `clearObject(obj)`: deletes the keys of `obj` one by one. Dafny maps are
   * values, so the emptied table is returned for the caller to store.
   */
  method ClearObject<V>(obj: map<string, V>) returns (cleared: map<string, V>)
    ensures cleared == map[]
  {
    cleared := obj;
    var keys := obj.Keys;
    while keys != {}
      invariant cleared.Keys == keys
      decreases keys
    {
      var k :| k in keys;
      cleared := cleared - {k};
      keys := keys - {k};
    }
  }

  /** The module-level state of src/localChatDriver.ts, shared by every driver instance. */
  class LocalStore {
    var rooms: map<string, seq<User>>
    var permissions: map<string, seq<User>>
    var roomsMessages: map<string, seq<string>>
    var messages: map<string, StoredMessage>
    var events: map<string, Delivered>
    var listeners: seq<Listener>
    /** Every listener call made so far, in order. */
    var deliveries: seq<Delivery>

    constructor ()
      ensures Contents() == EmptyTables() && Valid()
    {
      rooms, permissions, roomsMessages, messages, events := map[], map[], map[], map[], map[];
      listeners, deliveries := [], [];
    }

    function Contents(): Tables
      reads this
    {
      Tables(rooms, permissions, roomsMessages, messages, events, listeners, deliveries)
    }

    ghost predicate Valid()
      reads this
    {
      Inv(Contents())
    }

    /** `allowUser(user, roomId)` (src/localChatDriver.ts:185-192). */
    method AllowUser(user: User, roomId: string)
      modifies this`permissions
      ensures permissions == AllowUserTable(old(permissions), user, roomId)
      ensures old(Valid()) ==> Valid()
    {
      if roomId !in permissions {
        permissions := permissions[roomId := []];
      }
      if !IsAllowed(permissions, user, roomId) {
        permissions := permissions[roomId := permissions[roomId] + [user]];
      }
      if old(Valid()) {
        AllowUserKeepsInv(old(Contents()), user, roomId);
      }
    }

    /** `clearRooms()` */
    method ClearRooms()
      modifies this`rooms
      ensures rooms == map[]
      ensures old(Valid()) ==> Valid()
    {
      rooms := ClearObject(rooms);
    }

    /** `clearMessages()`: both message tables. */
    method ClearMessages()
      modifies this`roomsMessages, this`messages
      ensures roomsMessages == map[] && messages == map[]
      ensures old(Valid()) ==> Valid()
    {
      roomsMessages := ClearObject(roomsMessages);
      messages := ClearObject(messages);
    }

    /** `clearPermissions()` */
    method ClearPermissions()
      modifies this`permissions
      ensures permissions == map[]
      ensures old(Valid()) ==> Valid()
    {
      permissions := ClearObject(permissions);
    }

    /** `clearEvents()` */
    method ClearEvents()
      modifies this`events
      ensures events == map[]
      ensures old(Valid()) ==> Valid()
    {
      events := ClearObject(events);
    }
  }

  /** What `localChatDriver(user)` returns. */
  class LocalDriver {
    const store: LocalStore
    const user: User
    var enteredRoom: Option<Room>

    constructor (store: LocalStore, user: User)
      ensures this.store == store && this.user == user && enteredRoom == None
    {
      this.store := store;
      this.user := user;
      enteredRoom := None;
    }

    function State(): DriverState
      reads this, store
    {
      DriverState(store.Contents(), enteredRoom)
    }

    /** `connect()` resolves true. */
    method Connect() returns (r: bool)
      ensures r
    {
      r := true;
    }

    /** `listen(fn)` appends to the shared listener array. */
    method Listen(l: Listener)
      modifies store`listeners
      ensures store.listeners == old(store.listeners) + [l]
    {
      store.listeners := store.listeners + [l];
    }

    /** `trigger(e)`: the only write path. */
    method Trigger(e: ChatEvent, ids: FreshIds) returns (o: Outcome)
      modifies this, store
      ensures Step(State(), o) == TriggerStep(old(State()), e, ids)
      ensures old(store.Valid()) ==> store.Valid()
    {
      ghost var s := State();
      var delivered := Delivered(e, Some(ids.eventId), None);
      match e {
        case EnterRoom(_, u, room) =>
          if !IsAllowed(store.permissions, u, room.id) {
            o := Rejected(Error(NotAllowedMessage(u)));
            return;
          }
          if room.id !in store.rooms {
            store.rooms := store.rooms[room.id := []];
          }
          if CountId(store.rooms[room.id], u.id) == 0 {
            store.rooms := store.rooms[room.id := store.rooms[room.id] + [u]];
            enteredRoom := Some(room);
          }
        case LeaveRoom(_, u, leaving) =>
          if leaving.None? || leaving.value.id !in store.rooms {
            o := Rejected(TypeError);
            return;
          }
          var id := leaving.value.id;
          store.rooms := store.rooms[id := WithoutUser(store.rooms[id], u.id)];
        case OnMessage(_, content) =>
          if enteredRoom.None? {
            o := Rejected(TypeError);
            return;
          }
          var key := enteredRoom.value.id;
          if key !in store.roomsMessages {
            store.roomsMessages := store.roomsMessages[key := []];
          }
          var stored := StoredMessage(ids.messageId, content);
          delivered := delivered.(contentId := Some(stored.id));
          store.roomsMessages := store.roomsMessages[key := store.roomsMessages[key] + [stored.id]];
          store.messages := store.messages[stored.id := stored];
        case _ =>
      }
      assert Switch(s, e, ids) == Apply(State(), delivered);
      store.deliveries := Notify(store.listeners, delivered, store.deliveries);
      store.events := store.events[ids.eventId := delivered];
      o := Resolved(true);
      if Inv(s.tables) {
        TriggerKeepsInv(s, e, ids);
      }
    }

    /** `disconnect()`: triggers a leave-room for `enteredRoom`; the promise is dropped. */
    method Disconnect(now: int, ids: FreshIds)
      modifies this, store
      ensures State() == DisconnectStep(old(State()), user, now, ids).state
      ensures old(store.Valid()) ==> store.Valid()
    {
      var _ := Trigger(LeaveRoom(Millis(now), user, enteredRoom), ids);
    }
  }

  // ---------------------------------------------------------------------------
  // Properties
  // ---------------------------------------------------------------------------

  /** Appending a user who is not yet listed keeps each id at most once per list. */
  lemma AppendNewKeepsUnique(table: map<string, seq<User>>, user: User, key: string)
    requires UniqueIds(table) && CountId(ListAt(table, key), user.id) == 0
    ensures UniqueIds(table[key := ListAt(table, key) + [user]])
  {
    var table' := table[key := ListAt(table, key) + [user]];
    forall r, id | r in table' ensures CountId(table'[r], id) <= 1 {
      if r == key {
        CountIdAppend(ListAt(table, key), user, id);
      }
    }
  }

  /** Filtering a list keeps each id at most once per list. */
  lemma FilterKeepsUnique(table: map<string, seq<User>>, user: User, key: string)
    requires UniqueIds(table) && key in table
    ensures UniqueIds(table[key := WithoutUser(table[key], user.id)])
  {
    var table' := table[key := WithoutUser(table[key], user.id)];
    forall r, id | r in table' ensures CountId(table'[r], id) <= 1 {
      if r == key {
        WithoutUserCount(table[key], user.id, id);
      }
    }
  }

  /** The switch of every trigger keeps the invariant and hands listeners the event under its new id. */
  lemma SwitchKeepsInv(s: DriverState, e: ChatEvent, ids: FreshIds)
    requires Inv(s.tables)
    ensures var c := Switch(s, e, ids);
      c.Apply? ==> (Inv(c.state.tables) && c.delivered.id == Some(ids.eventId)
                    && c.state.tables.events == s.tables.events)
  {
    var t := s.tables;
    match e {
      case EnterRoom(_, user, room) =>
        if IsAllowed(t.permissions, user, room.id) && CountId(ListAt(t.rooms, room.id), user.id) == 0 {
          AppendNewKeepsUnique(t.rooms, user, room.id);
        }
      case LeaveRoom(_, user, leaving) =>
        if leaving.Some? && leaving.value.id in t.rooms {
          FilterKeepsUnique(t.rooms, user, leaving.value.id);
        }
      case _ =>
    }
  }

  /** Every trigger keeps the tables' invariant. */
  lemma TriggerKeepsInv(s: DriverState, e: ChatEvent, ids: FreshIds)
    requires Inv(s.tables)
    ensures Inv(TriggerStep(s, e, ids).state.tables)
  {
    SwitchKeepsInv(s, e, ids);
  }

  /** allowUser keeps the tables' invariant. */
  lemma AllowUserKeepsInv(t: Tables, user: User, roomId: string)
    requires Inv(t)
    ensures Inv(t.(permissions := AllowUserTable(t.permissions, user, roomId)))
  {
    if !IsAllowed(t.permissions, user, roomId) {
      var list := ListAt(t.permissions, roomId);
      if roomId in t.permissions {
        assert CountId(list, user.id) <= 1;
      }
      AppendNewKeepsUnique(t.permissions, user, roomId);
    }
  }

  /**
   * A trigger either resolves true, or rejects and changes nothing at all:
   * no table, no listener call, no event log entry, no `enteredRoom`.
   */
  lemma RejectBeforeEffect(s: DriverState, e: ChatEvent, ids: FreshIds)
    ensures var r := TriggerStep(s, e, ids);
      (r.outcome.Rejected? ==> r.state == s) && (r.outcome.Resolved? ==> r.outcome.value)
    ensures var r := TriggerStep(s, e, ids);
      r.outcome.Rejected? <==>
        || (e.EnterRoom? && !IsAllowed(s.tables.permissions, e.user, e.room.id))
        || (e.LeaveRoom? && (e.leaving.None? || e.leaving.value.id !in s.tables.rooms))
        || (e.OnMessage? && s.enteredRoom.None?)
  {
  }

  /** An enter-room by a user without permission rejects with the source's message, and nothing changes. */
  lemma EnterWithoutPermission(s: DriverState, ts: Timestamp, user: User, room: Room, ids: FreshIds)
    requires !IsAllowed(s.tables.permissions, user, room.id)
    ensures TriggerStep(s, EnterRoom(ts, user, room), ids)
         == Step(s, Rejected(Error("User " + user.id + " is not allowed to enter this room")))
  {
  }

  /** A permitted enter-room by a member leaves the membership lists and `enteredRoom` as they were. */
  lemma EnterAgain(s: DriverState, ts: Timestamp, user: User, room: Room, ids: FreshIds)
    requires IsAllowed(s.tables.permissions, user, room.id)
    requires CountId(ListAt(s.tables.rooms, room.id), user.id) > 0
    ensures var r := TriggerStep(s, EnterRoom(ts, user, room), ids);
      r.outcome == Resolved(true) && r.state.tables.rooms == s.tables.rooms && r.state.enteredRoom == s.enteredRoom
  {
  }

  /**
   * A permitted first enter-room appends the user after the earlier members,
   * touches no other room, and makes the room the driver's `enteredRoom`.
   */
  lemma EnterFirstTime(s: DriverState, ts: Timestamp, user: User, room: Room, ids: FreshIds)
    requires IsAllowed(s.tables.permissions, user, room.id)
    requires CountId(ListAt(s.tables.rooms, room.id), user.id) == 0
    ensures var r := TriggerStep(s, EnterRoom(ts, user, room), ids);
      && r.outcome == Resolved(true)
      && UsersInRoom(r.state.tables.rooms, room.id) == Some(ListAt(s.tables.rooms, room.id) + [user])
      && (forall id :: id != room.id ==> UsersInRoom(r.state.tables.rooms, id) == UsersInRoom(s.tables.rooms, id))
      && r.state.enteredRoom == Some(room)
  {
  }

  /** Entering twice leaves exactly one membership entry for the user, whichever drivers sent the two events. */
  lemma {:induction false} EnterTwiceOneEntry(t: Tables, entered1: Option<Room>, entered2: Option<Room>,
                                              ts1: Timestamp, ts2: Timestamp, user: User, room: Room,
                                              ids1: FreshIds, ids2: FreshIds)
    requires Inv(t)
    requires IsAllowed(t.permissions, user, room.id)
    ensures var t1 := TriggerStep(DriverState(t, entered1), EnterRoom(ts1, user, room), ids1).state.tables;
      var t2 := TriggerStep(DriverState(t1, entered2), EnterRoom(ts2, user, room), ids2).state.tables;
      room.id in t2.rooms && CountId(t2.rooms[room.id], user.id) == 1
  {
    var list := ListAt(t.rooms, room.id);
    CountIdAppend(list, user, user.id);
    if room.id in t.rooms {
      assert CountId(t.rooms[room.id], user.id) <= 1;
    }
  }

  /**
   * A leave-room for an existing room removes exactly the entries with the
   * leaving user's id, keeps every other user's entries in their order, and
   * never clears `enteredRoom`.
   */
  lemma LeaveRemovesOnlyTheUser(s: DriverState, ts: Timestamp, user: User, room: Room, ids: FreshIds)
    requires room.id in s.tables.rooms
    ensures var r := TriggerStep(s, LeaveRoom(ts, user, Some(room)), ids);
      var before := s.tables.rooms[room.id];
      && r.outcome == Resolved(true)
      && room.id in r.state.tables.rooms
      && CountId(r.state.tables.rooms[room.id], user.id) == 0
      && (forall other :: other != user.id ==> CountId(r.state.tables.rooms[room.id], other) == CountId(before, other))
      && (forall a, b :: before == a + b ==> r.state.tables.rooms[room.id] == WithoutUser(a, user.id) + WithoutUser(b, user.id))
      && (forall id :: id != room.id ==> UsersInRoom(r.state.tables.rooms, id) == UsersInRoom(s.tables.rooms, id))
      && r.state.enteredRoom == s.enteredRoom
  {
    var before := s.tables.rooms[room.id];
    WithoutUserCount(before, user.id, user.id);
    forall other | other != user.id
      ensures CountId(WithoutUser(before, user.id), other) == CountId(before, other)
    {
      WithoutUserCount(before, user.id, other);
    }
    forall a, b | before == a + b
      ensures WithoutUser(before, user.id) == WithoutUser(a, user.id) + WithoutUser(b, user.id)
    {
      WithoutUserConcat(a, b, user.id);
    }
  }

  /** A leave-room naming a room whose key was never created, or no room at all, rejects. */
  lemma LeaveUnknownRoom(s: DriverState, ts: Timestamp, user: User, leaving: Option<Room>, ids: FreshIds)
    requires leaving.None? || leaving.value.id !in s.tables.rooms
    ensures TriggerStep(s, LeaveRoom(ts, user, leaving), ids) == Step(s, Rejected(TypeError))
  {
  }

  /** Entering and then leaving leaves no entry for the user in the room. */
  lemma {:induction false} EnterThenLeave(t: Tables, entered1: Option<Room>, entered2: Option<Room>,
                                          ts1: Timestamp, ts2: Timestamp, user: User, room: Room,
                                          ids1: FreshIds, ids2: FreshIds)
    requires IsAllowed(t.permissions, user, room.id)
    ensures var t1 := TriggerStep(DriverState(t, entered1), EnterRoom(ts1, user, room), ids1).state.tables;
      var r := TriggerStep(DriverState(t1, entered2), LeaveRoom(ts2, user, Some(room)), ids2);
      r.outcome == Resolved(true) && room.id in r.state.tables.rooms
      && CountId(r.state.tables.rooms[room.id], user.id) == 0
  {
    var t1 := TriggerStep(DriverState(t, entered1), EnterRoom(ts1, user, room), ids1).state.tables;
    WithoutUserCount(t1.rooms[room.id], user.id, user.id);
  }

  /** Before the driver has newly entered any room, an on-message rejects and nothing changes. */
  lemma MessageBeforeEntering(t: Tables, ts: Timestamp, content: ChatMessage, ids: FreshIds)
    ensures TriggerStep(DriverState(t, None), OnMessage(ts, content), ids) == Step(DriverState(t, None), Rejected(TypeError))
  {
  }

  /**
   * Otherwise an on-message appends its new message id to the list of the
   * driver's `enteredRoom` (whatever room the message is meant for), stores
   * the message under that id, logs the event with the id on its content,
   * and leaves the other rooms' lists and the memberships alone.
   */
  lemma MessageStoredInEnteredRoom(s: DriverState, ts: Timestamp, content: ChatMessage, ids: FreshIds)
    requires s.enteredRoom.Some?
    ensures var r := TriggerStep(s, OnMessage(ts, content), ids);
      var key := s.enteredRoom.value.id;
      var t := s.tables;
      && r.outcome == Resolved(true)
      && r.state.tables.roomsMessages == t.roomsMessages[key := ListAt(t.roomsMessages, key) + [ids.messageId]]
      && r.state.tables.messages == t.messages[ids.messageId := StoredMessage(ids.messageId, content)]
      && r.state.tables.rooms == t.rooms
      && r.state.tables.events == t.events[ids.eventId := Delivered(OnMessage(ts, content), Some(ids.eventId), Some(ids.messageId))]
  {
  }

  /**
   * With a fresh message id, getMessages for the entered room returns the
   * messages it returned before (none if the room had no list) followed by
   * the new one: messages come back in send order.
   */
  lemma GetMessagesAfterSend(s: DriverState, ts: Timestamp, content: ChatMessage, ids: FreshIds)
    requires Inv(s.tables) && s.enteredRoom.Some?
    requires ids.messageId !in s.tables.messages
    ensures var t' := TriggerStep(s, OnMessage(ts, content), ids).state.tables;
      var key := s.enteredRoom.value.id;
      var before := if key in s.tables.roomsMessages
        then GetMessages(s.tables.roomsMessages, s.tables.messages, key).value else [];
      Inv(t') && GetMessages(t'.roomsMessages, t'.messages, key) == Ok(before + [StoredMessage(ids.messageId, content)])
  {
    var t := s.tables;
    var t' := TriggerStep(s, OnMessage(ts, content), ids).state.tables;
    var key := s.enteredRoom.value.id;
    TriggerKeepsInv(s, OnMessage(ts, content), ids);
    var before := if key in t.roomsMessages then GetMessages(t.roomsMessages, t.messages, key).value else [];
    var after := GetMessages(t'.roomsMessages, t'.messages, key).value;
    var list := ListAt(t.roomsMessages, key);
    assert t'.roomsMessages[key] == list + [ids.messageId];
    assert |after| == |before| + 1;
    var stored := StoredMessage(ids.messageId, content);
    assert t'.messages == t.messages[ids.messageId := stored];
    forall i | 0 <= i < |after|
      ensures after[i] == (before + [stored])[i]
    {
      if i < |list| {
        assert list[i] in t.messages;
        assert list[i] != ids.messageId;
        assert after[i] == t'.messages[list[i]] == t.messages[list[i]];
        assert before[i] == t.messages[list[i]];
      } else {
        assert after[i] == t'.messages[ids.messageId] == stored;
      }
    }
    assert after == before + [stored];
  }

  /**
   * The session layer's sendMessage emits type "message", which this driver
   * does not store: the message tables stay as they were, while the event is
   * still delivered and logged.
   */
  lemma SessionMessageNotStored(s: DriverState, ts: Timestamp, content: ChatMessage, ids: FreshIds)
    ensures var r := TriggerStep(s, Message(ts, content), ids);
      && r.outcome == Resolved(true)
      && r.state.tables.roomsMessages == s.tables.roomsMessages
      && r.state.tables.messages == s.tables.messages
      && r.state.tables.rooms == s.tables.rooms
      && r.state.tables.deliveries == s.tables.deliveries + Deliveries(s.tables.listeners, Delivered(Message(ts, content), Some(ids.eventId), None))
      && r.state.tables.events == s.tables.events[ids.eventId := Delivered(Message(ts, content), Some(ids.eventId), None)]
  {
  }

  /**
   * Every accepted trigger calls every listener, in registration order, with
   * the event carrying its new id, records that event in `events` under the
   * id, resolves true, and registers no listener.
   */
  lemma AcceptedFanOut(s: DriverState, e: ChatEvent, ids: FreshIds)
    requires TriggerStep(s, e, ids).outcome.Resolved?
    ensures var r := TriggerStep(s, e, ids);
      var t := s.tables;
      var t' := r.state.tables;
      && r.outcome == Resolved(true)
      && ids.eventId in t'.events
      && t'.events == t.events[ids.eventId := t'.events[ids.eventId]]
      && t'.events[ids.eventId].event == e
      && t'.events[ids.eventId].id == Some(ids.eventId)
      && t'.listeners == t.listeners
      && |t'.deliveries| == |t.deliveries| + |t.listeners|
      && t'.deliveries[..|t.deliveries|] == t.deliveries
      && (forall i :: 0 <= i < |t.listeners| ==>
            t'.deliveries[|t.deliveries| + i] == Delivery(t.listeners[i], t'.events[ids.eventId]))
  {
  }

  /** `enteredRoom` only changes on a first-time enter, to that enter's room; a leave never clears it. */
  lemma EnteredRoomIsLastNewEntry(s: DriverState, e: ChatEvent, ids: FreshIds)
    ensures var r := TriggerStep(s, e, ids);
      r.state.enteredRoom != s.enteredRoom ==>
        && e.EnterRoom?
        && r.state.enteredRoom == Some(e.room)
        && CountId(ListAt(s.tables.rooms, e.room.id), e.user.id) == 0
  {
  }

  /**
   * disconnect sends one leave-room for `enteredRoom`: with no entered room,
   * or one whose key was cleared, it rejects and changes nothing; otherwise
   * it is the leave-room of the driver's user for that room.
   */
  lemma DisconnectLeavesEnteredRoom(s: DriverState, user: User, now: int, ids: FreshIds)
    ensures s.enteredRoom.None? || s.enteredRoom.value.id !in s.tables.rooms ==>
      DisconnectStep(s, user, now, ids) == Step(s, Rejected(TypeError))
    ensures s.enteredRoom.Some? && s.enteredRoom.value.id in s.tables.rooms ==>
      var r := DisconnectStep(s, user, now, ids);
      var id := s.enteredRoom.value.id;
      && r.outcome == Resolved(true)
      && r.state.tables.rooms == s.tables.rooms[id := WithoutUser(s.tables.rooms[id], user.id)]
      && r.state.tables.events[ids.eventId].event == LeaveRoom(Millis(now), user, s.enteredRoom)
      && r.state.enteredRoom == s.enteredRoom
  {
  }

  /**
   * allowUser makes the user allowed with exactly one entry in the room's
   * permission list, touches no other room, and a second call changes nothing.
   */
  lemma AllowUserIdempotent(p: map<string, seq<User>>, user: User, roomId: string)
    requires UniqueIds(p)
    ensures var p' := AllowUserTable(p, user, roomId);
      && IsAllowed(p', user, roomId)
      && CountId(p'[roomId], user.id) == 1
      && (forall r :: r != roomId ==> (r in p' <==> r in p) && (r in p ==> p'[r] == p[r]))
      && AllowUserTable(p', user, roomId) == p'
  {
    var list := ListAt(p, roomId);
    CountIdAppend(list, user, user.id);
    if roomId in p {
      assert CountId(p[roomId], user.id) <= 1;
    }
  }

  /**
   * The scenario of the source's tests: two permitted users entering a new
   * room one after the other are listed in that order.
   */
  lemma TwoUsersEnterInOrder(t: Tables, entered1: Option<Room>, entered2: Option<Room>,
                             ts1: Timestamp, ts2: Timestamp, a: User, b: User, room: Room,
                             ids1: FreshIds, ids2: FreshIds)
    requires IsAllowed(t.permissions, a, room.id) && IsAllowed(t.permissions, b, room.id)
    requires a.id != b.id && room.id !in t.rooms
    ensures var t1 := TriggerStep(DriverState(t, entered1), EnterRoom(ts1, a, room), ids1).state.tables;
      var t2 := TriggerStep(DriverState(t1, entered2), EnterRoom(ts2, b, room), ids2).state.tables;
      UsersInRoom(t2.rooms, room.id) == Some([a, b])
  {
    var t1 := TriggerStep(DriverState(t, entered1), EnterRoom(ts1, a, room), ids1).state.tables;
    assert t1.rooms == t.rooms[room.id := [a]] by {
      assert [] + [a] == [a];
    }
    assert t1.permissions == t.permissions;
    assert CountId([a], b.id) == 0 by {
      assert [a][1..] == [];
    }
    assert [a] + [b] == [a, b];
  }
}
