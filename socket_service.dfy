/**
 * The real-time service (src/services/socketService.ts): a registry of event
 * listeners, updated in place, in front of a transport that is never
 * connected. `connect` is an empty stub, so the `socket` field keeps its
 * initial null for the object's whole life, and every branch that needs a
 * socket is dead.
 */
module SocketService {
  import opened Wrappers

  /** A listener function, known only by its identity (sets of functions compare by reference). */
  datatype Callback = Callback(id: nat)

  /** The handle a connected transport would be; none is ever created. */
  datatype SocketHandle = SocketHandle(id: nat)

  datatype SocketServiceConfig = SocketServiceConfig(url: string, token: Option<string>)

  datatype UserStatus = Online | Offline | Away

  /** An event payload (`any` in the source), reduced to a record of named string fields. */
  datatype EventData = EventData(fields: map<string, string>)

  type Registry = map<string, set<Callback>>

  /** The listeners of an event, none when it has no entry. */
  function ListenersOf(listeners: Registry, event: string): (r: set<Callback>)
    ensures event in listeners ==> r == listeners[event]
    ensures event !in listeners ==> r == {}
  {
    if event in listeners then listeners[event] else {}
  }

  /** What `on` does to the registry: create an empty entry if needed, then add the callback. */
  function WithListener(listeners: Registry, event: string, cb: Callback): (r: Registry)
    ensures r.Keys == listeners.Keys + {event}
    ensures r[event] == ListenersOf(listeners, event) + {cb}
    ensures forall e :: e in listeners && e != event ==> r[e] == listeners[e]
  {
    var created := if event !in listeners then listeners[event := {}] else listeners;
    created[event := created[event] + {cb}]
  }

  /** What `off` does: remove the callback if the event has an entry; no entry is created or dropped. */
  function WithoutListener(listeners: Registry, event: string, cb: Callback): (r: Registry)
    ensures r.Keys == listeners.Keys
    ensures event in listeners ==> r[event] == listeners[event] - {cb}
    ensures forall e :: e in listeners && e != event ==> r[e] == listeners[e]
  {
    if event in listeners then listeners[event := listeners[event] - {cb}] else listeners
  }

  /** Registering the same callback twice is registering it once. */
  lemma OnIdempotent(listeners: Registry, event: string, cb: Callback)
    ensures WithListener(WithListener(listeners, event, cb), event, cb) == WithListener(listeners, event, cb)
  {
  }

  /** `off` undoes an `on` of a callback that was not registered under an existing entry. */
  lemma OffUndoesOn(listeners: Registry, event: string, cb: Callback)
    requires event in listeners && cb !in listeners[event]
    ensures WithoutListener(WithListener(listeners, event, cb), event, cb) == listeners
  {
  }

  /** After `off`, the entry stays even when its set is now empty. */
  lemma OffKeepsEmptyEntry(listeners: Registry, event: string, cb: Callback)
    requires event in listeners && listeners[event] == {cb}
    ensures event in WithoutListener(listeners, event, cb)
    ensures WithoutListener(listeners, event, cb)[event] == {}
  {
  }

  const MessageSendEvent := "message:send"
  const ChatJoinEvent := "chat:join"
  const ChatLeaveEvent := "chat:leave"
  const UserStatusEvent := "user:status"

  function StatusName(status: UserStatus): string {
    match status
    case Online => "online"
    case Offline => "offline"
    case Away => "away"
  }

  /**
   * The payload of `sendMessage`, `{ chatId, ...message }`: the spread comes
   * last, so a `chatId` field of the message overrides the argument.
   */
  function SendMessagePayload(chatId: string, message: EventData): (d: EventData)
    ensures d.fields.Keys == message.fields.Keys + {"chatId"}
    ensures forall k :: k in message.fields ==> d.fields[k] == message.fields[k]
    ensures "chatId" !in message.fields ==> d.fields["chatId"] == chatId
  {
    EventData(map["chatId" := chatId] + message.fields)
  }

  class SocketService {
    var socket: Option<SocketHandle>
    var listeners: Registry

    /** The state every reachable service is in: no socket. */
    predicate Valid()
      reads this
    {
      socket == None
    }

    constructor ()
      ensures Valid() && listeners == map[]
    {
      socket := None;
      listeners := map[];
    }

    /** An empty stub: the transport is never created, so the socket stays as it was. */
    method Connect(config: SocketServiceConfig)
      ensures socket == old(socket) && listeners == old(listeners)
      ensures old(Valid()) ==> Valid()
    {
    }

    /** With a socket, the callback would also be registered on it (a transport call, not modelled). */
    method On(event: string, cb: Callback)
      modifies this
      ensures socket == old(socket)
      ensures listeners == WithListener(old(listeners), event, cb)
      ensures cb in listeners[event]
      ensures old(Valid()) ==> Valid()
    {
      if event !in listeners {
        listeners := listeners[event := {}];
      }
      listeners := listeners[event := listeners[event] + {cb}];
    }

    /** With a socket, the callback would also be removed from it (a transport call, not modelled). */
    method Off(event: string, cb: Callback)
      modifies this
      ensures socket == old(socket)
      ensures listeners == WithoutListener(old(listeners), event, cb)
      ensures event in listeners ==> cb !in listeners[event]
      ensures old(Valid()) ==> Valid()
    {
      if event in listeners {
        listeners := listeners[event := listeners[event] - {cb}];
      }
    }

    /** Hands the event to the socket if there is one; the registry is never touched. */
    method Emit(event: string, data: Option<EventData>)
      ensures socket == old(socket) && listeners == old(listeners)
      ensures old(Valid()) ==> Valid()
    {
    }

    /**
     * Drops the socket and clears the registry only when a socket exists; without
     * one (the only reachable case) every registered listener survives.
     */
    method Disconnect()
      modifies this
      ensures Valid()
      ensures old(socket) == None ==> listeners == old(listeners)
      ensures old(socket) != None ==> listeners == map[]
    {
      if socket != None {
        socket := None;
        listeners := map[];
      }
    }

    method SendMessage(chatId: string, message: EventData)
      ensures socket == old(socket) && listeners == old(listeners)
      ensures old(Valid()) ==> Valid()
    {
      Emit(MessageSendEvent, Some(SendMessagePayload(chatId, message)));
    }

    method JoinChat(chatId: string)
      ensures socket == old(socket) && listeners == old(listeners)
      ensures old(Valid()) ==> Valid()
    {
      Emit(ChatJoinEvent, Some(EventData(map["chatId" := chatId])));
    }

    method LeaveChat(chatId: string)
      ensures socket == old(socket) && listeners == old(listeners)
      ensures old(Valid()) ==> Valid()
    {
      Emit(ChatLeaveEvent, Some(EventData(map["chatId" := chatId])));
    }

    method SetUserStatus(status: UserStatus)
      ensures socket == old(socket) && listeners == old(listeners)
      ensures old(Valid()) ==> Valid()
    {
      Emit(UserStatusEvent, Some(EventData(map["status" := StatusName(status)])));
    }
  }

  /**
   * A client run: register two listeners, join a chat, remove the first
   * listener, disconnect. Without a socket, the second listener is still
   * registered at the end, and nothing else is.
   */
  method ListenersSurvive(a: Callback, b: Callback) returns (final: Registry)
    requires a != b
    ensures final == map["message" := {b}]
  {
    var service := new SocketService();
    service.On("message", a);
    service.On("message", b);
    service.JoinChat("c1");
    service.Off("message", a);
    service.Disconnect();
    assert service.listeners.Keys == {"message"};
    assert service.listeners["message"] == {a, b} - {a} == {b};
    final := service.listeners;
  }
}
