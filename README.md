# Chat protocol layer — a Dafny model

This project models the protocol core of a small chat library. A connection
binds one user to one pluggable *driver*. Joining rooms, sending messages and
subscribing to events all happen through the driver's `listen` and `trigger`.
Three parts are modelled:

- **The local driver** (`src/localChatDriver.ts`, module `LocalChatDriver`).
  - The in-memory reference driver keeps module-level tables:
    - rooms with their members;
    - permissions;
    - per-room message id lists;
    - messages by id;
    - events by id;
    - an ordered listener array.
  - The tables are the fields of a `LocalStore` object shared by every driver instance.
  - A `LocalDriver` holds the bound user and its own `enteredRoom`.
  - `trigger` is specified by the pure function `TriggerStep` on the value of the state, and `LocalDriver.Trigger` is proved to implement it.
  - The lemmas prove:
    - reject-before-effect;
    - at most one membership per user and room;
    - ordered appends;
    - removal by filter;
    - on-message storage in the driver's entered room;
    - ordered fan-out and event logging;
    - idempotent `allowUser`;
    - the invariant of the tables.
- **The mock driver** (`src/__mocks__/chatDriver.ts`, module `MockChatDriver`).
  - One `mockDriver(failEvents, allowedRooms)` call creates a listener array and a room table. Every driver it makes shares them; here that shared state is a `MockHub` object.
  - Its `trigger` has these rules:
    - an event type can be failure-injected;
    - entries are checked against an allow-list;
    - membership is appended without deduplication.
  - Its `disconnect` sends one leave-room. It names the first key, in `Object.keys` order, whose list holds the user's id and which is not the empty string; when no key qualifies it names `{id: undefined}`. The `Object.keys` order is modelled: array-index keys come first in ascending numeric order, then the other keys in creation order.
- **The session layer** (`src/chat.ts`, module `Session`).
  - `chat(driver, user)` is the constructor `Connection.Chat`, which creates exactly one bound driver.
  - The connection's methods act only through the bound driver.
  - Listeners are data descriptors (`Events.Listener`), not closures. What the `onMessage` and `onEnterRoom` filters do with each delivered event is the function `Session.Handle`.
  - The lemmas characterise which handler calls a log of listener calls produces.

The shared data contract is module `Events`:
- users, rooms, messages;
- the event union, including the `"on-message"` kind that the drivers switch on;
- listener descriptors;
- the ordered fan-out `Notify`.

How the source's effects appear in the model:
- `uuid()` is the `FreshIds` parameter.
- `Date.now()` and `new Date().toISOString()` are the `now`/`Clock` parameters.
- A rejected promise is `Outcome.Rejected`.
  - `Error(...)` is a thrown error with its message.
  - `TypeError` is a TypeError from a property read or an `in` test on `undefined`.

Behaviour of this code that a reader of its tests might not expect:
- `onMessage` filters neither by room nor by sender, so a sender's own message reaches its own subscription (`Session.MessageReachesEverySubscriber`).
- `sendMessage` triggers an event of type `"message"`, and resolves true whatever the trigger does. The local driver stores only `"on-message"` events, so a session message is delivered but never stored (`LocalChatDriver.SessionMessageNotStored`).
- Leaving a room whose key was never created makes the local driver's `.filter` run on `undefined`, so the trigger rejects instead of being a no-op (`LocalChatDriver.LeaveUnknownRoom`).
- `enterRoom` returns the leave closure at once and drops the enter promise. There is no `onLeaveRoom`, and no room-scoped session object.
- An on-message event is stored under the driver's own `enteredRoom` (the last room it newly entered), not the message's room. The stored content gains only an id.
- Permission lists are lists, and a user is allowed only when listed exactly once. `allowUser` never creates a second entry.

Several of the scenario tests in src/__tests__/chat.test.ts target a different API version (`onLeaveRoom`, a permission-free enter, a sender filter), and only what this code does is modelled. Five of the scenarios do hold for this code; "## Left out" lists them with the lemmas that state them.

## Model

| member | source | states |
|---|---|---|
| Events.Deliveries | src/localChatDriver.ts:120 | one listener call per registered listener, in registration order, each with the same event |
| Events.Notify | src/localChatDriver.ts:120 | the fan-out loop appends exactly `Deliveries(listeners, e)` to the log of listener calls |
| LocalChatDriver.CountId | src/localChatDriver.ts:93 | the number of entries with a user id is at most the list length, and it is zero exactly when no entry has that id |
| LocalChatDriver.WithoutUser | src/localChatDriver.ts:100-102 | the filtered list is no longer than the original and keeps only original entries whose id differs |
| LocalChatDriver.CountIdAppend | src/localChatDriver.ts:95 | pushing a user raises that user's id count by one and leaves every other id's count as it was |
| LocalChatDriver.WithoutUserCount | src/localChatDriver.ts:100-102 | after the filter the leaving id occurs zero times and every other id as often as before |
| LocalChatDriver.WithoutUserConcat | src/localChatDriver.ts:100-102 | the filter works entry by entry, so the remaining users keep their relative order |
| LocalChatDriver.WithoutAbsentUser | src/localChatDriver.ts:100-102 | filtering an id that is not in the list leaves the list unchanged |
| LocalChatDriver.GetMessages | src/localChatDriver.ts:156-160 | `getMessages` fails (a TypeError) exactly when the room has no message list; otherwise it returns, in list order, the message stored under each listed id, which carries that id |
| LocalChatDriver.ClearObject | src/localChatDriver.ts:136-138 | deleting the keys one by one leaves an empty table |
| LocalChatDriver.LocalStore.constructor | src/localChatDriver.ts:21-50 | all module-level tables start empty, and the invariant holds |
| LocalChatDriver.LocalStore.AllowUser | src/localChatDriver.ts:185-192 | the permission table becomes `AllowUserTable` of the old one, no other table changes, and the invariant is kept |
| LocalChatDriver.LocalStore.ClearRooms | src/localChatDriver.ts:143-145 | empties the rooms table and nothing else |
| LocalChatDriver.LocalStore.ClearMessages | src/localChatDriver.ts:147-150 | empties both message tables and nothing else |
| LocalChatDriver.LocalStore.ClearPermissions | src/localChatDriver.ts:152-154 | empties the permission table and nothing else |
| LocalChatDriver.LocalStore.ClearEvents | src/localChatDriver.ts:166-168 | empties the event log and nothing else |
| LocalChatDriver.LocalDriver.constructor | src/localChatDriver.ts:57-61 | a driver instance is bound to its user and the shared tables, with no entered room |
| LocalChatDriver.LocalDriver.Connect | src/localChatDriver.ts:62 | connect resolves true |
| LocalChatDriver.LocalDriver.Listen | src/localChatDriver.ts:71-73 | listen appends the listener to the shared array and changes nothing else |
| LocalChatDriver.LocalDriver.Trigger | src/localChatDriver.ts:74-124 | the new state and the outcome are exactly `TriggerStep` of the old state, and the tables' invariant is kept |
| LocalChatDriver.LocalDriver.Disconnect | src/localChatDriver.ts:63-70 | the new state is that of a trigger of one leave-room for the driver's user and its `enteredRoom` |
| LocalChatDriver.AppendNewKeepsUnique | src/localChatDriver.ts:93-96 | appending a user not yet listed keeps every id at most once in every list |
| LocalChatDriver.FilterKeepsUnique | src/localChatDriver.ts:100-102 | filtering a room's list keeps every id at most once in every list |
| LocalChatDriver.SwitchKeepsInv | src/localChatDriver.ts:76-118 | every accepted case of the switch keeps the invariant, gives the event its fresh id and leaves the event log alone until after fan-out |
| LocalChatDriver.TriggerKeepsInv | src/localChatDriver.ts:74-124 | every trigger keeps the invariant: unique memberships, unique permissions, every listed message id stored under its own id, every logged event under its own id |
| LocalChatDriver.AllowUserKeepsInv | src/localChatDriver.ts:185-192 | allowUser keeps the invariant |
| LocalChatDriver.RejectBeforeEffect | src/localChatDriver.ts:74-124 | a rejected trigger changes no table, notifies no listener, logs nothing and keeps `enteredRoom`; an accepted one resolves true; it rejects exactly for a disallowed enter, a leave of an absent room, or an on-message with no entered room |
| LocalChatDriver.EnterWithoutPermission | src/localChatDriver.ts:85-87 | an enter-room without permission rejects with "User <id> is not allowed to enter this room", and the state is unchanged |
| LocalChatDriver.EnterAgain | src/localChatDriver.ts:93-97 | a permitted enter by a current member resolves true and changes neither the memberships nor `enteredRoom` |
| LocalChatDriver.EnterFirstTime | src/localChatDriver.ts:89-97 | a permitted first enter appends the user after the earlier members, touches no other room and sets `enteredRoom` to the room |
| LocalChatDriver.EnterTwiceOneEntry | src/localChatDriver.ts:89-97 | two enters by one user, through any drivers, leave exactly one membership entry |
| LocalChatDriver.LeaveRemovesOnlyTheUser | src/localChatDriver.ts:99-102 | a leave removes every entry of the leaving id, keeps every other id's entries and their order, touches no other room and keeps `enteredRoom` |
| LocalChatDriver.LeaveUnknownRoom | src/localChatDriver.ts:99-102 | a leave naming no room, or a room whose key does not exist, rejects with a TypeError and changes nothing |
| LocalChatDriver.EnterThenLeave | src/localChatDriver.ts:79-103 | a permitted enter followed by a leave of the same user leaves no entry for the user in the room |
| LocalChatDriver.MessageBeforeEntering | src/localChatDriver.ts:104-105 | an on-message before any newly entered room rejects with a TypeError and changes nothing |
| LocalChatDriver.MessageStoredInEnteredRoom | src/localChatDriver.ts:104-117 | an on-message appends its fresh message id to the list of the driver's `enteredRoom`, stores the message under that id, leaves memberships alone and logs the event with the id on its content |
| LocalChatDriver.GetMessagesAfterSend | src/localChatDriver.ts:156-160 | after an on-message with a fresh id, `getMessages` of the entered room returns the earlier messages followed by the new one |
| LocalChatDriver.SessionMessageNotStored | src/localChatDriver.ts:78-122 | a "message" event resolves true, is delivered to every listener in order and logged in `events` under its fresh id, and is stored in neither message table; the rooms stay as they were |
| LocalChatDriver.AcceptedFanOut | src/localChatDriver.ts:120-122 | an accepted trigger calls all listeners in order with the id-augmented event, logs exactly that event under its id, registers no listener and resolves true |
| LocalChatDriver.EnteredRoomIsLastNewEntry | src/localChatDriver.ts:94-97 | `enteredRoom` changes only on a first-time enter, to that enter's room; no leave clears it |
| LocalChatDriver.DisconnectLeavesEnteredRoom | src/localChatDriver.ts:63-70 | disconnect rejects without effect when no room is entered or its key is gone; otherwise it is the user's leave of `enteredRoom`, and `enteredRoom` is kept |
| LocalChatDriver.AllowUserIdempotent | src/localChatDriver.ts:185-192 | after allowUser the user is allowed with exactly one entry, other rooms are untouched, and a second call changes nothing |
| LocalChatDriver.TwoUsersEnterInOrder | src/localChatDriver.ts:93-96 | two permitted users entering a new room one after the other are listed in that order |
| MockChatDriver.Occurrences | src/__mocks__/chatDriver.ts:67 | the count of a value is at most the list length, and it is zero exactly when the value is absent |
| MockChatDriver.OccurrencesAppend | src/__mocks__/chatDriver.ts:44 | pushing a value raises its count by one and leaves other counts alone |
| MockChatDriver.ObjectKeysPermutes | src/__mocks__/chatDriver.ts:16 | `Object.keys` lists every created key exactly once, with array-index keys first in ascending numeric order |
| MockChatDriver.FirstSelected | src/__mocks__/chatDriver.ts:16-20 | the position found is that of the first key whose list holds the user id and which is not "", or the end when there is none |
| MockChatDriver.MockHub.constructor | src/__mocks__/chatDriver.ts:3-11 | one `mockDriver` call starts with no listeners and an empty room table, keeping its two arguments |
| MockChatDriver.MockDriver.constructor | src/__mocks__/chatDriver.ts:12-13 | each inner `chat(user)` driver is bound to its user and to the shared state of its `mockDriver` call |
| MockChatDriver.MockDriver.Connect | src/__mocks__/chatDriver.ts:14 | connect resolves true |
| MockChatDriver.MockDriver.Listen | src/__mocks__/chatDriver.ts:28-31 | listen appends to the listeners shared by all drivers of one `mockDriver` call and resolves true |
| MockChatDriver.MockDriver.Trigger | src/__mocks__/chatDriver.ts:32-60 | the new shared state and the outcome are exactly `TriggerStep` of the old state, and the room-key order stays consistent |
| MockChatDriver.MockDriver.Disconnect | src/__mocks__/chatDriver.ts:15-27 | the new state is that of a trigger of one leave-room for the first selected room, or for no room |
| MockChatDriver.TriggerKeepsKeys | src/__mocks__/chatDriver.ts:41-44 | the recorded key-creation order lists each room key once, and only room keys |
| MockChatDriver.RejectBeforeEffect | src/__mocks__/chatDriver.ts:32-60 | a rejected trigger changes nothing and notifies no one; an accepted one resolves true; only an enter-room changes the room table; no trigger registers a listener |
| MockChatDriver.EnterFailureComesFirst | src/__mocks__/chatDriver.ts:35-37 | with "enter-room" listed exactly once in `failEvents`, an enter-room rejects with "Cannot enter room", whatever the permissions |
| MockChatDriver.EnterNotAllowed | src/__mocks__/chatDriver.ts:38-40 | otherwise an enter-room not on the allow-list rejects with "Room not allowed" and changes nothing |
| MockChatDriver.EnterAppendsWithoutDedup | src/__mocks__/chatDriver.ts:41-44 | an accepted enter-room appends the user id to the room's list, creating it if needed, and the id's count grows by one |
| MockChatDriver.EnterTwiceListsTwice | src/__mocks__/chatDriver.ts:41-44 | two accepted enters of one user into a new room list the user twice |
| MockChatDriver.LeaveAndMessageFailures | src/__mocks__/chatDriver.ts:46-55 | a leave-room or on-message rejects exactly when its type is listed once in `failEvents`, with "Cannot leave room <id>" or "Cannot send message" |
| MockChatDriver.AcceptedNotifiesAll | src/__mocks__/chatDriver.ts:58-59 | an accepted trigger calls every shared listener in registration order with the unchanged event and resolves true |
| MockChatDriver.DisconnectNamesFirstRoom | src/__mocks__/chatDriver.ts:15-27 | disconnect's leave-room names the first key, in `Object.keys` order, whose list holds the user id, or no room when there is none |
| MockChatDriver.DisconnectSkipsEmptyRoomId | src/__mocks__/chatDriver.ts:17-19 | a room named "" is never the one disconnect leaves, because the filter callback returns the falsy id |
| Session.Trigger | src/chat.ts:94 | a trigger through the bound driver is exactly that driver's trigger step, and keeps its invariant |
| Session.Listen | src/chat.ts:61 | a listen through the bound driver appends one listener and changes nothing else |
| Session.LeaveClosure.Call | src/chat.ts:96-102 | each call of the closure triggers one leave-room for the same room and user, and returns that trigger's outcome |
| Session.Connection.Chat | src/chat.ts:110-120 | `chat` creates exactly one new driver, for its user and the given factory, and binds it for good |
| Session.Connection.EnterRoom | src/chat.ts:86-103 | enterRoom triggers one enter-room for `{id: roomId}` and the bound user, and returns the leave closure for the same room and driver |
| Session.Connection.SendMessage | src/chat.ts:105-108 | sendMessage triggers one "message" event wrapping the message, and resolves true whatever the trigger does |
| Session.Connection.OnMessage | src/chat.ts:57-66 | onMessage registers exactly one listener, the message filter around the handler |
| Session.Connection.OnEnterRoom | src/chat.ts:68-80 | onEnterRoom registers exactly one listener, the entries filter carrying the bound user's id |
| Session.Connection.Disconnect | src/chat.ts:82-84 | disconnect only delegates to the bound driver's disconnect |
| Session.CallsAppend | src/chat.ts:61-79 | handler calls follow listener calls in order: the calls of a longer log extend those of its prefix |
| Session.CallIn | src/chat.ts:61-79 | a handler call happens exactly when some listener call in the log produces it |
| Session.ProducesMessage | src/chat.ts:61-65 | the onMessage handler receives `m` exactly when its listener receives a "message" event with content `m` |
| Session.ProducesEntry | src/chat.ts:72-79 | the onEnterRoom handler receives `(u, r)` exactly when its listener receives an enter-room of `u` into `r` and `u` is not the subscribing user |
| Session.MessageReachesEverySubscriber | src/chat.ts:57-66 | in the fan-out of a "message" event, a message handler is called exactly when its onMessage listener is registered, the sender's own included |
| Session.EntryReachesOthersOnly | src/chat.ts:68-80 | in the fan-out of an enter-room by `u`, an entry handler is called exactly when some connection of a user other than `u` registered it |
| Session.OwnEntrySuppressed | src/chat.ts:74 | a connection's own enter-room never reaches its own onEnterRoom handler |
| Session.LocalMessageReachesSubscribers | src/localChatDriver.ts:76-122 | a "message" event (what `sendMessage` triggers) through the local driver resolves true from any state, permitted or not, and calls an onMessage handler with the message exactly when its listener is registered |

## Left out

- `uuid()`, `Date.now()` and `new Date().toISOString()` are calls into code outside the model. Their values are parameters (`FreshIds`, `now`, `Clock`). Lemmas that need a fresh id require it not to be a key yet.
- Promise scheduling is not modelled. Each `trigger` runs to completion as one step, which matches the source: the Promise executor and the `async` body both run synchronously up to their end. A promise the source drops (in `enterRoom`, `sendMessage` and both `disconnect`s) is dropped in the model too.
- Listener bodies are not modelled. A listener is a descriptor, and each call of it is recorded in `deliveries`.
  - An exception thrown by a listener is not modelled. Such an exception rejects the trigger after part of the fan-out, when the switch has already changed the tables: a stored message, a pushed member or a filtered list stays, and the local driver never logs the event in `events`. The mock's push (src/__mocks__/chatDriver.ts:44) stays too. So `LocalChatDriver.RejectBeforeEffect` and `MockChatDriver.RejectBeforeEffect` hold only for listeners that return normally.
  - A listener that re-enters the driver is not modelled.
- `addId` is not modelled in two respects.
  - Its object spread lets an `id` already on the event or message override the fresh one. The declared types carry no such field, so the model always uses the fresh id.
  - `Object.freeze` is not modelled: Dafny values are immutable.
- The local driver's stored message (`StoredMessage`) keeps the fresh id and the on-message content's `content` and `user`. It drops the content's `type: "message"` field, which the declared type fixes, and any further field the content object may carry.
- `LocalChatDriver.UsersInRoom` and `LocalChatDriver.IsAllowed` are plain reads, with no contract of their own. Their properties are stated by the lemmas that use them (`EnterFirstTime`, `AllowUserIdempotent`).
- `MockChatDriver.EventShouldFail`, `MockChatDriver.IsAllowedRoom` and `Session.Handle` are plain predicates and functions, with no contract of their own.
  - `EventShouldFail` (src/__mocks__/chatDriver.ts:66-68) is stated by `EnterFailureComesFirst` and `LeaveAndMessageFailures`.
  - `IsAllowedRoom` (src/__mocks__/chatDriver.ts:70-78) is stated by `EnterNotAllowed` and `EnterAppendsWithoutDedup`.
  - `Handle` (src/chat.ts:61-65, 72-79) is stated by `ProducesMessage`, `ProducesEntry` and `OwnEntrySuppressed`.
- LocalChatDriver.IsAllowed, LocalChatDriver.AllowUserTable, LocalChatDriver.Switch, MockChatDriver.IsAllowedRoom, MockChatDriver.Switch: room ids are assumed not to name a property that every plain object inherits (`constructor`, `toString`, `hasOwnProperty`, `__proto__`, ...). The tables are plain `{}` objects, so for such an id the source finds an inherited value that is not an array. The model treats the key as absent. In the source:
  - `allowUser` throws a TypeError, because `.filter` is called on that value (src/localChatDriver.ts:132, 186-189).
  - A local enter-room into such a room rejects with a TypeError from `isAllowed`, not with the not-allowed error.
  - A mock enter-room into such a room rejects with a TypeError.
    - With the room on the allow-list, `push` is missing (src/__mocks__/chatDriver.ts:41-44).
    - Without it, `.filter` is missing, and the TypeError comes instead of "Room not allowed" (src/__mocks__/chatDriver.ts:71-74).
- `usersInRoom` in the `ChatDriver` interface of src/chat.ts is implemented by neither driver, so it is not part of this model.
- The `driver` field of the connection record is the constant `Session.Connection.driver`.
- src/__mocks__/WebSocket.ts and src/__helpers__/helpers.ts are driven by timers, and they are not part of this model.
- The scenario tests are not modelled as tests. These scenarios of src/__tests__/chat.test.ts hold for this code, and the lemmas that state them are:
  - Two users enter a room and are listed in order (lines 35-60): `LocalChatDriver.TwoUsersEnterInOrder`. Both users need `allowUser` first.
  - Entering twice leaves one entry (lines 62-75): `LocalChatDriver.EnterTwiceOneEntry`. The user needs `allowUser` first.
  - Entering and then leaving leaves no entry (lines 77-89): `LocalChatDriver.EnterThenLeave`. The user needs `allowUser` first.
  - Another user's enter-room reaches an onEnterRoom handler (lines 91-112): `Session.EntryReachesOthersOnly` with `LocalChatDriver.AcceptedFanOut`. The entering user needs `allowUser` first; without it the enter rejects (`LocalChatDriver.EnterWithoutPermission`) and nothing is delivered.
  - A sent message reaches another user's onMessage handler (lines 191-218): `Session.LocalMessageReachesSubscribers`. This needs no permission: the enters may reject, and the "message" event is delivered all the same.
  - The other scenarios fail for this code: `onLeaveRoom` does not exist; a session message is never stored, and sending it never throws (`LocalChatDriver.SessionMessageNotStored`); `onMessage` never throws and filters neither by sender nor by room (`Session.MessageReachesEverySubscriber`).
