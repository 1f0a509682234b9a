/**
 * The data contract shared by the session layer (src/chat.ts) and the two
 * drivers: users, rooms, messages, the tagged union of chat events, the
 * descriptors that stand for registered listeners, and the ordered fan-out of
 * one event to every listener.
 */
module Events {

  datatype Option<T> = None | Some(value: T)

  /** A chat user. Only `id` identifies a user; the names are informational. */
  datatype User = User(id: string, firstName: Option<string>, lastName: Option<string>)

  datatype Room = Room(id: string)

  /**
   * A time stamp, kept opaque. The session layer stamps events with
   * `Date.now()` (a number of milliseconds); the mock driver's disconnect
   * stamps its leave-room event with an ISO-8601 string.
   */
  datatype Timestamp = Millis(ms: int) | Iso(text: string)

  /** A message as its author writes it (its `type` field is always "message"). */
  datatype ChatMessage = ChatMessage(content: string, user: User)

  /**
   * The events that travel through a driver. The first five are the union
   * `ChatEvent` of src/chat.ts; `OnMessage` is the "on-message" kind that both
   * drivers switch on although the union does not list it.
   *
   * `leaving` is the room a leave-room event names. `None` stands for a room
   * that is not there: the local driver's disconnect sends `room: enteredRoom`
   * before any room was entered (undefined), and the mock driver's disconnect
   * sends `room: {id: undefined}` when the user is in no room.
   */
  datatype ChatEvent =
    | Message(ts: Timestamp, content: ChatMessage)
    | UserOnline(ts: Timestamp, user: User)
    | UserOffline(ts: Timestamp, user: User)
    | EnterRoom(ts: Timestamp, user: User, room: Room)
    | LeaveRoom(ts: Timestamp, user: User, leaving: Option<Room>)
    | OnMessage(ts: Timestamp, content: ChatMessage)
  {
    /** The event's `type` tag. */
    function Type(): string {
      match this
      case Message(_, _) => "message"
      case UserOnline(_, _) => "user-online"
      case UserOffline(_, _) => "user-offline"
      case EnterRoom(_, _, _) => "enter-room"
      case LeaveRoom(_, _, _) => "leave-room"
      case OnMessage(_, _) => "on-message"
    }
  }

  /**
   * A registered listener. Listener bodies are not modelled as closures: a
   * listener is a descriptor of what was registered. `Callback` is a function
   * handed to a driver's `listen` directly; the other two are the arrow
   * functions that `onMessage` and `onEnterRoom` of src/chat.ts register, each
   * wrapping the caller's handler (an opaque number here). `selfId` is the id
   * of the user whose connection registered the `onEnterRoom` listener.
   */
  datatype Listener =
    | Callback(handler: nat)
    | OnMessageSub(handler: nat)
    | OnEnterRoomSub(selfId: string, handler: nat)

  /**
   * An event as a listener receives it. The local driver adds an `id` to
   * every event, and to the content of an on-message event; the mock driver
   * passes the event on as it is.
   */
  datatype Delivered = Delivered(event: ChatEvent, id: Option<string>, contentId: Option<string>)

  /** One call of one listener with one event. */
  datatype Delivery = Delivery(listener: Listener, event: Delivered)

  /** Why a driver's `trigger` promise was rejected. */
  datatype Failure =
    | Error(message: string)   // an `Error` the driver throws on purpose
    | TypeError                // a property read or an `in` test on `undefined`

  /** How the promise a driver's `trigger` returns settles. */
  datatype Outcome = Resolved(value: bool) | Rejected(reason: Failure)

  datatype Result<T> = Ok(value: T) | Err(error: Failure)

  /**
   * The values `uuid()` yields during one local `trigger`: the id added to the
   * event, and the id added to the content of an on-message event.
   */
  datatype FreshIds = FreshIds(eventId: string, messageId: string)

  /** The two readings of the clock the source takes: `Date.now()` and `new Date().toISOString()`. */
  datatype Clock = Clock(millis: int, iso: string)

  /** What `listeners.forEach(listener => listener(e))` does: one call per listener, in registration order. */
  function Deliveries(listeners: seq<Listener>, e: Delivered): (r: seq<Delivery>)
    ensures |r| == |listeners|
    ensures forall i :: 0 <= i < |listeners| ==> r[i] == Delivery(listeners[i], e)
  {
    if listeners == [] then [] else [Delivery(listeners[0], e)] + Deliveries(listeners[1..], e)
  }

  /**
   * The fan-out loop of both drivers: calls every registered listener with
   * `e`, in registration order, recording each call after those in `log`.
   */
  method Notify(listeners: seq<Listener>, e: Delivered, log: seq<Delivery>) returns (newLog: seq<Delivery>)
    ensures newLog == log + Deliveries(listeners, e)
  {
    newLog := log;
    var i := 0;
    while i < |listeners|
      invariant 0 <= i <= |listeners|
      invariant |newLog| == |log| + i
      invariant newLog[..|log|] == log
      invariant forall k :: 0 <= k < i ==> newLog[|log| + k] == Delivery(listeners[k], e)
    {
      newLog := newLog + [Delivery(listeners[i], e)];
      i := i + 1;
    }
    assert newLog == log + Deliveries(listeners, e);
  }
}
