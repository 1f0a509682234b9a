/**
 * The mock driver (src/__mocks__/chatDriver.ts).
 *
 * One call `mockDriver(failEvents, allowedRooms)` creates a listener array
 * and a room table that every driver it then makes with `chat(user)` shares:
 * here that shared closure state is one `MockHub` object, and each driver is
 * a `MockDriver` holding its user and a reference to the hub.
 *
 * `TriggerStep` specifies `trigger` on the value of the hub's state;
 * `MockDriver.Trigger` is proved to implement it.
 */
module MockChatDriver {
  import opened Events

  // ---------------------------------------------------------------------------
  // The array expressions of the source
  // ---------------------------------------------------------------------------

  /** `xs.filter(y => y === x).length` */
  function Occurrences(xs: seq<string>, x: string): (n: nat)
    ensures n <= |xs|
    ensures n == 0 <==> x !in xs
  {
    if xs == [] then 0
    else (if xs[0] == x then 1 else 0) + Occurrences(xs[1..], x)
  }

  lemma {:induction false} OccurrencesAppend(xs: seq<string>, y: string, x: string)
    ensures Occurrences(xs + [y], x) == Occurrences(xs, x) + (if y == x then 1 else 0)
  {
    if xs == [] {
      assert xs + [y] == [y];
    } else {
      assert (xs + [y])[1..] == xs[1..] + [y];
      OccurrencesAppend(xs[1..], y, x);
    }
  }

  /** `eventShoudFail(event, failEvents)`: the event's type is listed exactly once. */
  predicate EventShouldFail(e: ChatEvent, failEvents: seq<string>) {
    Occurrences(failEvents, e.Type()) == 1
  }

  /** `isAllowedRoom(u, roomId)`: the room has an allow-list holding the user's id exactly once. */
  predicate IsAllowedRoom(allowedRooms: map<string, seq<string>>, u: User, roomId: string) {
    roomId in allowedRooms && Occurrences(allowedRooms[roomId], u.id) == 1
  }

  // ---------------------------------------------------------------------------
  // The order in which `Object.keys` lists the keys of a plain object
  // ---------------------------------------------------------------------------

  predicate IsDigit(c: char) {
    '0' <= c <= '9'
  }

  predicate AllDigits(s: string) {
    forall i :: 0 <= i < |s| ==> IsDigit(s[i])
  }

  /** The number a string of decimal digits denotes (used only on such strings). */
  function DecimalValue(s: string): int {
    if s == [] then 0 else 10 * DecimalValue(s[..|s| - 1]) + (s[|s| - 1] as int - '0' as int)
  }

  /**
   * An array-index key: the canonical decimal form of a number below
   * 2^32 - 1. `Object.keys` lists these first, in ascending numeric order,
   * and then every other key in the order it was created.
   */
  predicate IsArrayIndex(k: string) {
    && |k| > 0
    && AllDigits(k)
    && (k[0] != '0' || |k| == 1)
    && DecimalValue(k) < 0xFFFF_FFFF
  }

  function IndexKeys(ks: seq<string>): (r: seq<string>)
    ensures forall k :: k in r ==> IsArrayIndex(k)
  {
    if ks == [] then []
    else (if IsArrayIndex(ks[0]) then [ks[0]] else []) + IndexKeys(ks[1..])
  }

  function OtherKeys(ks: seq<string>): (r: seq<string>)
    ensures forall k :: k in r ==> !IsArrayIndex(k)
  {
    if ks == [] then []
    else (if IsArrayIndex(ks[0]) then [] else [ks[0]]) + OtherKeys(ks[1..])
  }

  ghost predicate Ascending(ks: seq<string>) {
    forall i, j :: 0 <= i < j < |ks| ==> DecimalValue(ks[i]) <= DecimalValue(ks[j])
  }

  /** Inserts a key before the first key of `ks` whose value is not below its own. */
  function InsertByValue(k: string, ks: seq<string>): (r: seq<string>)
    ensures multiset(r) == multiset(ks) + multiset{k}
  {
    if ks == [] || DecimalValue(k) <= DecimalValue(ks[0]) then
      [k] + ks
    else
      assert ks == [ks[0]] + ks[1..];
      [ks[0]] + InsertByValue(k, ks[1..])
  }

  /** Orders keys by ascending numeric value (stable insertion sort). */
  function SortByValue(ks: seq<string>): (r: seq<string>)
    ensures multiset(r) == multiset(ks)
  {
    if ks == [] then []
    else
      assert ks == [ks[0]] + ks[1..];
      InsertByValue(ks[0], SortByValue(ks[1..]))
  }

  /** Every key of `rest` is at least `k`: then `[k] + rest` stays ascending. */
  lemma PrependAscending(k: string, rest: seq<string>)
    requires Ascending(rest)
    requires forall x :: x in rest ==> DecimalValue(k) <= DecimalValue(x)
    ensures Ascending([k] + rest)
  {
    var r := [k] + rest;
    forall i, j | 0 <= i < j < |r| ensures DecimalValue(r[i]) <= DecimalValue(r[j]) {
      assert r[j] == rest[j - 1];
      if i > 0 {
        assert r[i] == rest[i - 1];
      }
    }
  }

  lemma {:induction false} InsertAscending(k: string, ks: seq<string>)
    requires Ascending(ks)
    ensures Ascending(InsertByValue(k, ks))
  {
    if ks == [] || DecimalValue(k) <= DecimalValue(ks[0]) {
      forall x | x in ks ensures DecimalValue(k) <= DecimalValue(x) {
        var j :| 0 <= j < |ks| && ks[j] == x;
      }
      PrependAscending(k, ks);
    } else {
      var rest := InsertByValue(k, ks[1..]);
      InsertAscending(k, ks[1..]);
      forall x | x in rest ensures DecimalValue(ks[0]) <= DecimalValue(x) {
        assert x in multiset(rest);
        if x != k {
          assert x in multiset(ks[1..]);
          var j :| 0 <= j < |ks[1..]| && ks[1..][j] == x;
          assert ks[j + 1] == x;
        }
      }
      PrependAscending(ks[0], rest);
    }
  }

  lemma {:induction false} SortAscending(ks: seq<string>)
    ensures Ascending(SortByValue(ks))
  {
    if ks != [] {
      SortAscending(ks[1..]);
      InsertAscending(ks[0], SortByValue(ks[1..]));
    }
  }

  /** `Object.keys(obj)` for an object whose keys were created in the order `created`. */
  function ObjectKeys(created: seq<string>): seq<string> {
    SortByValue(IndexKeys(created)) + OtherKeys(created)
  }

  lemma {:induction false} KeysPartition(ks: seq<string>)
    ensures multiset(IndexKeys(ks)) + multiset(OtherKeys(ks)) == multiset(ks)
  {
    if ks != [] {
      KeysPartition(ks[1..]);
      assert ks == [ks[0]] + ks[1..];
    }
  }

  /** `Object.keys` lists every key exactly as often as it was created, array indices first and ascending. */
  lemma ObjectKeysPermutes(created: seq<string>)
    ensures multiset(ObjectKeys(created)) == multiset(created)
    ensures var keys := ObjectKeys(created);
      forall i, j :: 0 <= i < j < |keys| && IsArrayIndex(keys[j]) ==>
        IsArrayIndex(keys[i]) && DecimalValue(keys[i]) <= DecimalValue(keys[j])
  {
    KeysPartition(created);
    SortAscending(IndexKeys(created));
    var sorted := SortByValue(IndexKeys(created));
    var keys := ObjectKeys(created);
    forall x | x in sorted ensures IsArrayIndex(x) {
      assert x in multiset(sorted);
    }
    forall i, j | 0 <= i < j < |keys| && IsArrayIndex(keys[j])
      ensures IsArrayIndex(keys[i]) && DecimalValue(keys[i]) <= DecimalValue(keys[j])
    {
      assert keys[i] == sorted[i] && keys[j] == sorted[j];
    }
  }

  // ---------------------------------------------------------------------------
  // State and specification
  // ---------------------------------------------------------------------------

  /** The two arguments of `mockDriver(failEvents, allowedRooms)`. */
  datatype Config = Config(failEvents: seq<string>, allowedRooms: map<string, seq<string>>)

  /**
   * The state one `mockDriver(...)` call shares among its drivers: the
   * listener array, the room table (room id to the ids that entered it), the
   * order in which the table's keys were created, and the record of
   * listener calls.
   */
  datatype MockState = MockState(
    listeners: seq<Listener>,
    rooms: map<string, seq<string>>,
    roomKeys: seq<string>,
    deliveries: seq<Delivery>)

  datatype Step = Step(state: MockState, outcome: Outcome)

  /** `roomKeys` lists each key of `rooms` once. */
  ghost predicate KeysConsistent(s: MockState) {
    && (forall k :: k in s.roomKeys <==> k in s.rooms)
    && (forall i, j :: 0 <= i < j < |s.roomKeys| ==> s.roomKeys[i] != s.roomKeys[j])
  }

  /** `rooms[roomId]`, with the `[]` that `trigger` stores first when the room's entry is undefined. */
  function RoomList(rooms: map<string, seq<string>>, roomId: string): seq<string> {
    if roomId in rooms then rooms[roomId] else []
  }

  /** `${e.room.id}` for the room of a leave-room event. */
  function RoomIdText(leaving: Option<Room>): string {
    if leaving.Some? then leaving.value.id else "undefined"
  }

  /** The `switch` of `trigger` (src/__mocks__/chatDriver.ts:33-56): an error thrown, or the new state. */
  function Switch(c: Config, s: MockState, e: ChatEvent): Result<MockState> {
    match e
    case EnterRoom(_, user, room) =>
      if EventShouldFail(e, c.failEvents) then Err(Error("Cannot enter room"))
      else if !IsAllowedRoom(c.allowedRooms, user, room.id) then Err(Error("Room not allowed"))
      else
        Ok(s.(rooms := s.rooms[room.id := RoomList(s.rooms, room.id) + [user.id]],
              roomKeys := if room.id in s.rooms then s.roomKeys else s.roomKeys + [room.id]))
    case LeaveRoom(_, _, leaving) =>
      if EventShouldFail(e, c.failEvents) then Err(Error("Cannot leave room " + RoomIdText(leaving)))
      else Ok(s)
    case OnMessage(_, _) =>
      if EventShouldFail(e, c.failEvents) then Err(Error("Cannot send message"))
      else Ok(s)
    case _ =>
      Ok(s)
  }

  /**
   * `trigger(e)` (src/__mocks__/chatDriver.ts:32-60): a rejected event
   * changes nothing and reaches no listener; an accepted one reaches every
   * shared listener in registration order, and the promise resolves true.
   */
  function TriggerStep(c: Config, s: MockState, e: ChatEvent): Step {
    match Switch(c, s, e)
    case Err(reason) => Step(s, Rejected(reason))
    case Ok(s') =>
      Step(s'.(deliveries := s'.deliveries + Deliveries(s'.listeners, Delivered(e, None, None))), Resolved(true))
  }

  /**
   * The `filter` of `disconnect`: the user's id is in the room's list, and
   * the room id is not the empty string (the filter callback returns the id
   * itself, and "" is falsy).
   */
  predicate Selected(rooms: map<string, seq<string>>, roomId: string, userId: string) {
    roomId in rooms && userId in rooms[roomId] && roomId != ""
  }

  /** The position of the first selected key, or |keys| when there is none. */
  function FirstSelected(keys: seq<string>, rooms: map<string, seq<string>>, userId: string): (i: nat)
    ensures i <= |keys|
    ensures i < |keys| ==> Selected(rooms, keys[i], userId)
    ensures forall j :: 0 <= j < i ==> !Selected(rooms, keys[j], userId)
  {
    if keys == [] then 0
    else if Selected(rooms, keys[0], userId) then 0
    else 1 + FirstSelected(keys[1..], rooms, userId)
  }

  /** The room `disconnect` names: the first selected key of `Object.keys(rooms)`, or none (`{id: undefined}`). */
  function DisconnectRoom(s: MockState, userId: string): Option<Room> {
    var keys := ObjectKeys(s.roomKeys);
    var i := FirstSelected(keys, s.rooms, userId);
    if i < |keys| then Some(Room(keys[i])) else None
  }

  /** `disconnect()` (src/__mocks__/chatDriver.ts:15-27); the promise is dropped. */
  function DisconnectStep(c: Config, s: MockState, user: User, isoNow: string): Step {
    TriggerStep(c, s, LeaveRoom(Iso(isoNow), user, DisconnectRoom(s, user.id)))
  }

  // ---------------------------------------------------------------------------
  // The shared closure state and the drivers
  // ---------------------------------------------------------------------------

  /** What one `mockDriver(failEvents, allowedRooms)` call creates and shares. */
  class MockHub {
    const failEvents: seq<string>
    const allowedRooms: map<string, seq<string>>
    var listeners: seq<Listener>
    var rooms: map<string, seq<string>>
    /** The keys of `rooms` in the order they were created. */
    var roomKeys: seq<string>
    /** Every listener call made so far, in order. */
    var deliveries: seq<Delivery>

    /** `mockDriver(failEvents, allowedRooms)`; the source's defaults are `[]` and `{}`. */
    constructor (failEvents: seq<string>, allowedRooms: map<string, seq<string>>)
      ensures Settings() == Config(failEvents, allowedRooms)
      ensures State() == MockState([], map[], [], []) && Valid()
    {
      this.failEvents := failEvents;
      this.allowedRooms := allowedRooms;
      listeners, rooms, roomKeys, deliveries := [], map[], [], [];
    }

    function Settings(): Config {
      Config(failEvents, allowedRooms)
    }

    function State(): MockState
      reads this
    {
      MockState(listeners, rooms, roomKeys, deliveries)
    }

    ghost predicate Valid()
      reads this
    {
      KeysConsistent(State())
    }
  }

  /** What the inner `chat(user)` returns. */
  class MockDriver {
    const hub: MockHub
    const user: User

    constructor (hub: MockHub, user: User)
      ensures this.hub == hub && this.user == user
    {
      this.hub := hub;
      this.user := user;
    }

    /** `connect()` resolves true. */
    method Connect() returns (r: bool)
      ensures r
    {
      r := true;
    }

    /** `listen(fn)`: appends to the listeners shared by the hub's drivers and resolves true. */
    method Listen(l: Listener) returns (r: bool)
      modifies hub`listeners
      ensures hub.listeners == old(hub.listeners) + [l] && r
    {
      hub.listeners := hub.listeners + [l];
      r := true;
    }

    /** `trigger(e)` */
    method Trigger(e: ChatEvent) returns (o: Outcome)
      modifies hub
      ensures Step(hub.State(), o) == TriggerStep(hub.Settings(), old(hub.State()), e)
      ensures old(hub.Valid()) ==> hub.Valid()
    {
      ghost var s := hub.State();
      match e {
        case EnterRoom(_, u, room) =>
          if EventShouldFail(e, hub.failEvents) {
            o := Rejected(Error("Cannot enter room"));
            return;
          }
          if !IsAllowedRoom(hub.allowedRooms, u, room.id) {
            o := Rejected(Error("Room not allowed"));
            return;
          }
          if room.id !in hub.rooms {
            hub.rooms := hub.rooms[room.id := []];
            hub.roomKeys := hub.roomKeys + [room.id];
          }
          assert hub.rooms[room.id] == RoomList(s.rooms, room.id);
          hub.rooms := hub.rooms[room.id := hub.rooms[room.id] + [u.id]];
          assert hub.rooms == s.rooms[room.id := RoomList(s.rooms, room.id) + [u.id]];
        case LeaveRoom(_, _, leaving) =>
          if EventShouldFail(e, hub.failEvents) {
            o := Rejected(Error("Cannot leave room " + RoomIdText(leaving)));
            return;
          }
        case OnMessage(_, _) =>
          if EventShouldFail(e, hub.failEvents) {
            o := Rejected(Error("Cannot send message"));
            return;
          }
        case _ =>
      }
      assert Switch(hub.Settings(), s, e) == Ok(hub.State());
      hub.deliveries := Notify(hub.listeners, Delivered(e, None, None), hub.deliveries);
      o := Resolved(true);
      if KeysConsistent(s) {
        TriggerKeepsKeys(hub.Settings(), s, e);
      }
    }

    /** `disconnect()`: a leave-room for the first room holding the user's id. */
    method Disconnect(isoNow: string)
      modifies hub
      ensures hub.State() == DisconnectStep(hub.Settings(), old(hub.State()), user, isoNow).state
      ensures old(hub.Valid()) ==> hub.Valid()
    {
      var room := DisconnectRoom(hub.State(), user.id);
      var _ := Trigger(LeaveRoom(Iso(isoNow), user, room));
    }
  }

  // ---------------------------------------------------------------------------
  // Properties
  // ---------------------------------------------------------------------------

  /** Every trigger keeps `roomKeys` in step with the keys of `rooms`. */
  lemma TriggerKeepsKeys(c: Config, s: MockState, e: ChatEvent)
    requires KeysConsistent(s)
    ensures KeysConsistent(TriggerStep(c, s, e).state)
  {
  }

  /**
   * A trigger either resolves true, or rejects and changes nothing: no room
   * list, no listener call. Only an enter-room changes the room table.
   */
  lemma RejectBeforeEffect(c: Config, s: MockState, e: ChatEvent)
    ensures var r := TriggerStep(c, s, e);
      && (r.outcome.Rejected? ==> r.state == s)
      && (r.outcome.Resolved? ==> r.outcome.value)
      && (!e.EnterRoom? ==> r.state.rooms == s.rooms && r.state.roomKeys == s.roomKeys)
      && r.state.listeners == s.listeners
  {
  }

  /**
   * An enter-room whose type is listed exactly once in `failEvents` rejects
   * with "Cannot enter room", whatever the permissions: that check comes
   * first.
   */
  lemma EnterFailureComesFirst(c: Config, s: MockState, ts: Timestamp, user: User, room: Room)
    requires Occurrences(c.failEvents, "enter-room") == 1
    ensures TriggerStep(c, s, EnterRoom(ts, user, room)) == Step(s, Rejected(Error("Cannot enter room")))
  {
  }

  /** Otherwise an enter-room without permission rejects with "Room not allowed". */
  lemma EnterNotAllowed(c: Config, s: MockState, ts: Timestamp, user: User, room: Room)
    requires Occurrences(c.failEvents, "enter-room") != 1
    requires !IsAllowedRoom(c.allowedRooms, user, room.id)
    ensures TriggerStep(c, s, EnterRoom(ts, user, room)) == Step(s, Rejected(Error("Room not allowed")))
  {
  }

  /**
   * An accepted enter-room appends the user's id to the room's list without
   * looking for an earlier entry: the id's count in the list grows by one.
   */
  lemma {:induction false} EnterAppendsWithoutDedup(c: Config, s: MockState, ts: Timestamp, user: User, room: Room)
    requires Occurrences(c.failEvents, "enter-room") != 1
    requires IsAllowedRoom(c.allowedRooms, user, room.id)
    ensures var r := TriggerStep(c, s, EnterRoom(ts, user, room));
      var before := RoomList(s.rooms, room.id);
      && r.outcome == Resolved(true)
      && r.state.rooms == s.rooms[room.id := before + [user.id]]
      && Occurrences(r.state.rooms[room.id], user.id) == Occurrences(before, user.id) + 1
  {
    OccurrencesAppend(RoomList(s.rooms, room.id), user.id, user.id);
  }

  /** Entering twice lists the user twice: the mock keeps no membership invariant. */
  lemma {:induction false} EnterTwiceListsTwice(c: Config, s: MockState, ts1: Timestamp, ts2: Timestamp, user: User, room: Room)
    requires Occurrences(c.failEvents, "enter-room") != 1
    requires IsAllowedRoom(c.allowedRooms, user, room.id)
    requires room.id !in s.rooms
    ensures var s2 := TriggerStep(c, TriggerStep(c, s, EnterRoom(ts1, user, room)).state, EnterRoom(ts2, user, room)).state;
      s2.rooms[room.id] == [user.id, user.id]
  {
    EnterAppendsWithoutDedup(c, s, ts1, user, room);
    var s1 := TriggerStep(c, s, EnterRoom(ts1, user, room)).state;
    EnterAppendsWithoutDedup(c, s1, ts2, user, room);
    assert [] + [user.id] == [user.id];
    assert [user.id] + [user.id] == [user.id, user.id];
  }

  /**
   * A leave-room or on-message event rejects, with its own message, exactly
   * when its type is listed once in `failEvents`.
   */
  lemma LeaveAndMessageFailures(c: Config, s: MockState, e: ChatEvent)
    requires e.LeaveRoom? || e.OnMessage?
    ensures var r := TriggerStep(c, s, e);
      && (r.outcome.Rejected? <==> Occurrences(c.failEvents, e.Type()) == 1)
      && (r.outcome.Rejected? && e.LeaveRoom? ==> r.outcome.reason == Error("Cannot leave room " + RoomIdText(e.leaving)))
      && (r.outcome.Rejected? && e.OnMessage? ==> r.outcome.reason == Error("Cannot send message"))
  {
  }

  /** An accepted trigger calls every shared listener, in registration order, with the event as it is. */
  lemma AcceptedNotifiesAll(c: Config, s: MockState, e: ChatEvent)
    requires TriggerStep(c, s, e).outcome.Resolved?
    ensures var r := TriggerStep(c, s, e);
      && r.outcome == Resolved(true)
      && |r.state.deliveries| == |s.deliveries| + |s.listeners|
      && r.state.deliveries[..|s.deliveries|] == s.deliveries
      && (forall i :: 0 <= i < |s.listeners| ==>
            r.state.deliveries[|s.deliveries| + i] == Delivery(s.listeners[i], Delivered(e, None, None)))
  {
  }

  /**
   * disconnect sends one leave-room, for the first key `Object.keys(rooms)`
   * lists whose list holds the user's id and which is not "", or for
   * `{id: undefined}` when there is none.
   */
  lemma DisconnectNamesFirstRoom(c: Config, s: MockState, user: User, isoNow: string, i: nat)
    requires |ObjectKeys(s.roomKeys)| >= i
    requires i < |ObjectKeys(s.roomKeys)| ==> Selected(s.rooms, ObjectKeys(s.roomKeys)[i], user.id)
    requires forall j :: 0 <= j < i ==> !Selected(s.rooms, ObjectKeys(s.roomKeys)[j], user.id)
    ensures var keys := ObjectKeys(s.roomKeys);
      DisconnectStep(c, s, user, isoNow)
        == TriggerStep(c, s, LeaveRoom(Iso(isoNow), user, if i < |keys| then Some(Room(keys[i])) else None))
  {
  }

  /** A room named "" is never the room disconnect leaves, even when it holds the user. */
  lemma DisconnectSkipsEmptyRoomId(s: MockState, userId: string)
    ensures DisconnectRoom(s, userId) != Some(Room(""))
  {
  }
}
