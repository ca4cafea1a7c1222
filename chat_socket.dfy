/**
  The chat socket hook. While a user with a `userId` is logged in, its effect
  connects the shared socket, registers the user, and binds eight listeners;
  its cleanup unbinds them and disconnects. Each listener turns one inbound
  event into actions dispatched to the store and, for a message in the open
  chat, a read receipt emitted on the socket.

  The socket is a listener table (event name to the listeners bound to it, in
  binding order) and a log of what the hook does to the world outside it:
  connect, disconnect and emit calls on the socket and dispatches to the
  store, in the order they happen. A listener is the closure one run of the
  effect created, so it is represented by what it closes over: the user's
  `userId` and the `_id` of the chat partner open at that render.
 */
module ChatSocket {
  import opened Js

  /** The message states the handlers report (`"sent"`, `"delivered"`, `"read"`). */
  datatype Status = Sent | Delivered | Read

  /** A `receive_message` payload: the message object and its `from` object. */
  datatype ChatMessage = ChatMessage(fields: Obj, from: Obj)

  /** `message.from._id`. */
  function SenderOf(m: ChatMessage): Value
  {
    Get(m.from, "_id")
  }

  /** `message._id`. */
  function MessageIdOf(m: ChatMessage): Value
  {
    Get(m.fields, "_id")
  }

  /** The chat-slice and notifications-slice actions the hook dispatches. The
      chat slice's reducers are not part of this model, so its actions are
      records of their arguments only. */
  datatype Action =
    | SetOnlineUsers(userIds: seq<Value>)
    | UpdateMessageStatus(messageId: Value, status: Status, userId: Value)
    | AddMessage(message: ChatMessage)
    | IncrementUnread(partner: Value)
    | ClearUnread(partner: Value)
    | SetTyping(userId: Value, typing: Value)
    | AddNotification(notification: Obj)
    | FetchUnreadCounts

  /** The payloads the hook emits: `register`'s user id, `read_message`'s
      `{ messageId, userId }`. */
  datatype EmitPayload =
    | UserId(id: Value)
    | ReadReceipt(messageId: Value, userId: Value)

  /** One thing the hook does to the outside world. */
  datatype Effect =
    | Connect
    | Disconnect
    | Emit(event: string, payload: EmitPayload)
    | Dispatch(action: Action)

  /** An inbound socket event with its payload. `OnlineUsers(None)` is a
      `null` or missing user list. */
  datatype Inbound =
    | OnlineUsers(userIds: Option<seq<Value>>)
    | MessageSent(data: Obj)
    | ReceiveMessage(message: ChatMessage)
    | UserTyping(data: Obj)
    | MessageDelivered(data: Obj)
    | MessageRead(data: Obj)
    | Notification(notification: Obj)
    | Connected

  /** What the listeners of one run of the effect close over. */
  datatype Context = Context(userId: Value, currentChatId: Value)

  /** The eight events the effect binds. */
  datatype Event =
    | OnlineUsersEvent | MessageSentEvent | ReceiveMessageEvent | UserTypingEvent
    | MessageDeliveredEvent | MessageReadEvent | NotificationEvent | ConnectEvent

  /** The name each event has on the wire. */
  function WireName(ev: Event): string
  {
    match ev
    case OnlineUsersEvent => "online_users"
    case MessageSentEvent => "message_sent"
    case ReceiveMessageEvent => "receive_message"
    case UserTypingEvent => "user_typing"
    case MessageDeliveredEvent => "message_delivered"
    case MessageReadEvent => "message_read"
    case NotificationEvent => "notification"
    case ConnectEvent => "connect"
  }

  const AllEvents: set<Event> := {
    OnlineUsersEvent, MessageSentEvent, ReceiveMessageEvent, UserTypingEvent,
    MessageDeliveredEvent, MessageReadEvent, NotificationEvent, ConnectEvent}

  /** The effect binds and its cleanup unbinds the eight wire names
      `online_users`, `message_sent`, `receive_message`, `user_typing`,
      `message_delivered`, `message_read`, `notification` and `connect`, no
      two of them alike, so the eight events stand for eight distinct
      listener-table entries. */
  lemma WireNamesOfBoundEvents()
    ensures forall e1, e2 :: WireName(e1) == WireName(e2) ==> e1 == e2
    ensures (set ev | ev in AllEvents :: WireName(ev)) ==
      {"online_users", "message_sent", "receive_message", "user_typing",
       "message_delivered", "message_read", "notification", "connect"}
  {
    var names := set ev | ev in AllEvents :: WireName(ev);
    assert WireName(OnlineUsersEvent) in names && WireName(MessageSentEvent) in names;
    assert WireName(ReceiveMessageEvent) in names && WireName(UserTypingEvent) in names;
    assert WireName(MessageDeliveredEvent) in names && WireName(MessageReadEvent) in names;
    assert WireName(NotificationEvent) in names && WireName(ConnectEvent) in names;
  }

  /** The event an inbound payload arrives under. */
  function EventOf(e: Inbound): Event
  {
    match e
    case OnlineUsers(_) => OnlineUsersEvent
    case MessageSent(_) => MessageSentEvent
    case ReceiveMessage(_) => ReceiveMessageEvent
    case UserTyping(_) => UserTypingEvent
    case MessageDelivered(_) => MessageDeliveredEvent
    case MessageRead(_) => MessageReadEvent
    case Notification(_) => NotificationEvent
    case Connected => ConnectEvent
  }

  /** The context of the listeners bound for `user` while `currentChatUser`
      is open (`user.userId`, `currentChatUser?._id`). */
  function ContextFor(user: Option<Obj>, currentChatUser: Option<Obj>): Context
  {
    Context(GetOpt(user, "userId"), GetOpt(currentChatUser, "_id"))
  }

  /** The guard of the effect: `user?.userId` is truthy. */
  predicate HasUserId(user: Option<Obj>)
  {
    Truthy(GetOpt(user, "userId"))
  }

  /** The `receive_message` listener. The message is always added first. A
      message the user sent produces nothing more. A message from anybody else
      counts as unread unless its sender is the open chat partner, in which
      case a read receipt is emitted and that partner's unread count cleared. */
  function ReceiveMessageStep(ctx: Context, m: ChatMessage): (effs: seq<Effect>)
    ensures 1 <= |effs| <= 3 && effs[0] == Dispatch(AddMessage(m))
    ensures |effs| == (if SenderOf(m) == ctx.userId then 1
                       else if SenderOf(m) != ctx.currentChatId then 2 else 3)
    ensures |effs| == 3 ==> effs[1].Emit?
    ensures SenderOf(m) == ctx.userId ==> effs == [Dispatch(AddMessage(m))]
    ensures Dispatch(IncrementUnread(SenderOf(m))) in effs <==>
      SenderOf(m) != ctx.userId && SenderOf(m) != ctx.currentChatId
    ensures Dispatch(ClearUnread(SenderOf(m))) in effs <==>
      SenderOf(m) != ctx.userId && SenderOf(m) == ctx.currentChatId
    ensures Emit("read_message", ReadReceipt(MessageIdOf(m), ctx.userId)) in effs <==>
      SenderOf(m) != ctx.userId && SenderOf(m) == ctx.currentChatId
    ensures forall x :: x in effs && !x.Dispatch? ==>
      x == Emit("read_message", ReadReceipt(MessageIdOf(m), ctx.userId))
    ensures forall x :: x in effs[1..] ==>
      x.Emit? || x == Dispatch(IncrementUnread(SenderOf(m))) || x == Dispatch(ClearUnread(SenderOf(m)))
  {
    var fromId := SenderOf(m);
    [Dispatch(AddMessage(m))] +
    if fromId == ctx.userId then []
    else if fromId != ctx.currentChatId then [Dispatch(IncrementUnread(fromId))]
    else [Emit("read_message", ReadReceipt(MessageIdOf(m), ctx.userId)),
          Dispatch(ClearUnread(fromId))]
  }

  /** The `notification` listener: the notification is added exactly when it
      is addressed to the user (`notification.to === user.userId`). */
  function NotificationStep(ctx: Context, n: Obj): (effs: seq<Effect>)
    ensures |effs| <= 1
    ensures effs != [] <==> Get(n, "to") == ctx.userId
    ensures forall x :: x in effs ==> x == Dispatch(AddNotification(n))
  {
    if Get(n, "to") == ctx.userId then [Dispatch(AddNotification(n))] else []
  }

  /** What the listener for `e`'s event, bound with context `ctx`, does when
      `e` arrives. No listener connects or disconnects; only `receive_message`
      emits or counts a message as unread; the status events report their own
      status for the payload's message; `connect` only refetches the unread
      counts (it does not register again). */
  function Step(ctx: Context, e: Inbound): (effs: seq<Effect>)
    ensures forall x :: x in effs ==> !x.Connect? && !x.Disconnect?
    ensures !e.ReceiveMessage? ==> forall x :: x in effs ==> x.Dispatch?
    ensures !e.ReceiveMessage? ==>
      forall x :: x in effs ==> !x.action.IncrementUnread?
    ensures e.MessageSent? ==> (effs ==
      [Dispatch(UpdateMessageStatus(Get(e.data, "messageId"), Sent, Get(e.data, "userId")))])
    ensures e.MessageDelivered? ==> (effs ==
      [Dispatch(UpdateMessageStatus(Get(e.data, "messageId"), Delivered, Get(e.data, "userId")))])
    ensures e.MessageRead? ==> (effs ==
      [Dispatch(UpdateMessageStatus(Get(e.data, "messageId"), Read, Get(e.data, "userId"))),
       Dispatch(ClearUnread(Get(e.data, "userId")))])
    ensures e.Connected? ==> effs == [Dispatch(FetchUnreadCounts)]
    ensures e.OnlineUsers? ==> effs == [Dispatch(SetOnlineUsers(
      if e.userIds.Some? then e.userIds.value else []))]
    ensures e.UserTyping? ==> effs == [Dispatch(SetTyping(Get(e.data, "from"), Get(e.data, "typing")))]
  {
    match e
    case OnlineUsers(ids) =>
      [Dispatch(SetOnlineUsers(match ids case Some(l) => l case None => []))]
    case MessageSent(data) =>
      [Dispatch(UpdateMessageStatus(Get(data, "messageId"), Sent, Get(data, "userId")))]
    case ReceiveMessage(m) =>
      ReceiveMessageStep(ctx, m)
    case UserTyping(data) =>
      [Dispatch(SetTyping(Get(data, "from"), Get(data, "typing")))]
    case MessageDelivered(data) =>
      [Dispatch(UpdateMessageStatus(Get(data, "messageId"), Delivered, Get(data, "userId")))]
    case MessageRead(data) =>
      [Dispatch(UpdateMessageStatus(Get(data, "messageId"), Read, Get(data, "userId"))),
       Dispatch(ClearUnread(Get(data, "userId")))]
    case Notification(n) =>
      NotificationStep(ctx, n)
    case Connected =>
      [Dispatch(FetchUnreadCounts)]
  }

  /** The socket runs every listener bound to the event, in binding order.
      Whatever listeners are bound, delivering an event never connects or
      disconnects the socket. */
  function Fire(ls: seq<Context>, e: Inbound): (effs: seq<Effect>)
    ensures ls == [] ==> effs == []
    ensures forall x :: x in effs ==> !x.Connect? && !x.Disconnect?
  {
    if ls == [] then [] else Step(ls[0], e) + Fire(ls[1..], e)
  }

  /** The socket's listener table: each event's listeners in binding order. */
  type Table = map<Event, seq<Context>>

  /** The listeners bound to `ev` (none when it has no entry). */
  function Lookup(t: Table, ev: Event): seq<Context>
  {
    if ev in t then t[ev] else []
  }

  /** The table after binding one more listener with context `ctx` to each
      event in `evs`: those events gain it at the end of their lists, and the
      other entries are kept. */
  function Bind(t: Table, evs: set<Event>, ctx: Context): (r: Table)
    ensures r.Keys == t.Keys + evs
    ensures forall ev :: ev in evs ==> r[ev] == Lookup(t, ev) + [ctx]
    ensures forall ev :: ev in t && ev !in evs ==> r[ev] == t[ev]
  {
    map ev | ev in t.Keys + evs :: if ev in evs then Lookup(t, ev) + [ctx] else t[ev]
  }

  /** The table after the effect's eight `socket.on` calls with context `ctx`. */
  function BindAll(t: Table, ctx: Context): Table
  {
    Bind(t, AllEvents, ctx)
  }

  /** `r` is `t` with one more listener `ctx` bound to each event in `evs`. */
  ghost predicate BoundTo(r: Table, t: Table, evs: set<Event>, ctx: Context)
  {
    && r.Keys == t.Keys + evs
    && (forall ev :: ev in evs ==> r[ev] == Lookup(t, ev) + [ctx])
    && (forall ev :: ev in t && ev !in evs ==> r[ev] == t[ev])
  }

  /** One more `socket.on(ev, ...)` extends a partial binding by `ev`. */
  lemma BindOneMore(r: Table, t: Table, evs: set<Event>, ev: Event, ctx: Context)
    requires ev !in evs && BoundTo(r, t, evs, ctx)
    ensures BoundTo(r[ev := Lookup(r, ev) + [ctx]], t, evs + {ev}, ctx)
  {
  }

  /** Binding all eight events is what `BindAll` gives. */
  lemma BoundToAll(r: Table, t: Table, ctx: Context)
    requires BoundTo(r, t, AllEvents, ctx)
    ensures r == BindAll(t, ctx)
  {
  }

  /** The table after the cleanup's eight `socket.off` calls. */
  function UnbindAll(t: Table): Table
  {
    t - AllEvents
  }

  /** One more `socket.off(ev)` extends a partial unbinding by `ev`. */
  lemma UnbindOneMore(t: Table, evs: set<Event>, ev: Event)
    ensures (t - evs) - {ev} == t - (evs + {ev})
  {
  }

  /** The eight events are all the events there are. */
  lemma AllEventsComplete(ev: Event)
    ensures ev in AllEvents
  {
  }

  /** The table the hook leaves on a socket nobody else binds: nothing between
      runs, exactly one listener per event while a run is set up. */
  function TableOf(active: Option<Context>): Table
  {
    match active
    case None => map[]
    case Some(ctx) => BindAll(map[], ctx)
  }

  /** Cleanup unbinds every event setup bound, whatever was bound before: after
      setup and cleanup the table is empty. */
  lemma CleanupUndoesSetup(t: Table, ctx: Context)
    ensures BindAll(t, ctx).Keys == AllEvents
    ensures UnbindAll(BindAll(t, ctx)) == map[]
  {
    forall ev | ev in t ensures ev in AllEvents {
      AllEventsComplete(ev);
    }
    assert UnbindAll(BindAll(t, ctx)).Keys == {};
  }

  /** On a socket with no listeners, setup binds exactly the eight events,
      each to one listener with the effect's context. */
  lemma SetupOnFreshSocket(ctx: Context)
    ensures BindAll(map[], ctx).Keys == AllEvents
    ensures forall ev :: ev in AllEvents ==> BindAll(map[], ctx)[ev] == [ctx]
  {
  }

  /** After cleanup no listener is left to fire: every inbound event produces
      nothing. */
  lemma NoStaleListener(t: Table, e: Inbound)
    ensures Fire(Lookup(UnbindAll(t), EventOf(e)), e) == []
  {
    AllEventsComplete(EventOf(e));
  }

  /** While one run's listeners are bound on an otherwise empty socket, an
      inbound event is handled exactly once, by that run's listener. */
  lemma {:induction false} ActiveRunFiresOnce(ctx: Context, e: Inbound)
    ensures Fire(Lookup(TableOf(Some(ctx)), EventOf(e)), e) == Step(ctx, e)
  {
    AllEventsComplete(EventOf(e));
    assert Lookup(TableOf(Some(ctx)), EventOf(e)) == [ctx];
    assert Fire([ctx], e) == Step(ctx, e) + Fire([], e);
  }

  /** The shared socket, as the hook sees it. */
  class Socket {
    var listeners: Table
    var log: seq<Effect>

    constructor ()
      ensures listeners == map[] && log == []
    {
      listeners := map[];
      log := [];
    }

    method Connect()
      modifies this
      ensures log == old(log) + [Effect.Connect] && listeners == old(listeners)
    {
      log := log + [Effect.Connect];
    }

    method Disconnect()
      modifies this
      ensures log == old(log) + [Effect.Disconnect] && listeners == old(listeners)
    {
      log := log + [Effect.Disconnect];
    }

    method Emit(event: string, payload: EmitPayload)
      modifies this
      ensures log == old(log) + [Effect.Emit(event, payload)] && listeners == old(listeners)
    {
      log := log + [Effect.Emit(event, payload)];
    }

    /** `socket.on(ev, listener)`: adds a listener after those already bound. */
    method On(ev: Event, ctx: Context)
      modifies this
      ensures listeners == old(listeners)[ev := Lookup(old(listeners), ev) + [ctx]]
      ensures log == old(log)
    {
      listeners := listeners[ev := Lookup(listeners, ev) + [ctx]];
    }

    /** `socket.off(ev)` with no listener argument: removes every listener of
        the event. */
    method Off(ev: Event)
      modifies this
      ensures listeners == old(listeners) - {ev}
      ensures log == old(log)
    {
      listeners := listeners - {ev};
    }

    /** An inbound event arrives: the socket runs the listeners bound to it. */
    method Deliver(e: Inbound)
      modifies this
      ensures log == old(log) + Fire(Lookup(old(listeners), EventOf(e)), e)
      ensures listeners == old(listeners)
    {
      log := log + Fire(Lookup(listeners, EventOf(e)), e);
    }
  }

  /** The effect body for the current `user` and `currentChatUser`. Without a
      truthy `user.userId` it returns at once, touching nothing and leaving no
      cleanup. Otherwise it connects, emits `register` with the user's id, and
      binds the eight listeners with this render's context; `cleanup` tells
      whether a cleanup function was returned. */
  method Setup(socket: Socket, user: Option<Obj>, currentChatUser: Option<Obj>)
    returns (cleanup: bool)
    modifies socket
    ensures cleanup == HasUserId(user)
    ensures !cleanup ==>
      socket.listeners == old(socket.listeners) && socket.log == old(socket.log)
    ensures cleanup ==> (socket.log == old(socket.log) +
      [Connect, Emit("register", UserId(GetOpt(user, "userId")))])
    ensures cleanup ==>
      socket.listeners == BindAll(old(socket.listeners), ContextFor(user, currentChatUser))
  {
    if !HasUserId(user) {
      return false;
    }
    socket.Connect();
    socket.Emit("register", UserId(user.value["userId"]));
    BindListeners(socket, ContextFor(user, currentChatUser));
    cleanup := true;
  }

  /** The eight `socket.on` calls of the effect body, in the order it makes
      them, each binding a listener that closes over `ctx`. */
  method BindListeners(socket: Socket, ctx: Context)
    modifies socket
    ensures socket.listeners == BindAll(old(socket.listeners), ctx)
    ensures socket.log == old(socket.log)
  {
    ghost var t := socket.listeners;
    ghost var evs: set<Event> := {};
    BindOneMore(socket.listeners, t, evs, OnlineUsersEvent, ctx);
    socket.On(OnlineUsersEvent, ctx);
    evs := evs + {OnlineUsersEvent};
    BindOneMore(socket.listeners, t, evs, MessageSentEvent, ctx);
    socket.On(MessageSentEvent, ctx);
    evs := evs + {MessageSentEvent};
    BindOneMore(socket.listeners, t, evs, ReceiveMessageEvent, ctx);
    socket.On(ReceiveMessageEvent, ctx);
    evs := evs + {ReceiveMessageEvent};
    BindOneMore(socket.listeners, t, evs, UserTypingEvent, ctx);
    socket.On(UserTypingEvent, ctx);
    evs := evs + {UserTypingEvent};
    BindOneMore(socket.listeners, t, evs, MessageDeliveredEvent, ctx);
    socket.On(MessageDeliveredEvent, ctx);
    evs := evs + {MessageDeliveredEvent};
    BindOneMore(socket.listeners, t, evs, MessageReadEvent, ctx);
    socket.On(MessageReadEvent, ctx);
    evs := evs + {MessageReadEvent};
    BindOneMore(socket.listeners, t, evs, NotificationEvent, ctx);
    socket.On(NotificationEvent, ctx);
    evs := evs + {NotificationEvent};
    BindOneMore(socket.listeners, t, evs, ConnectEvent, ctx);
    socket.On(ConnectEvent, ctx);
    evs := evs + {ConnectEvent};
    assert evs == AllEvents;
    BoundToAll(socket.listeners, t, ctx);
  }

  /** The cleanup function the effect returns: unbinds the eight events, then
      disconnects. */
  method Cleanup(socket: Socket)
    modifies socket
    ensures socket.listeners == UnbindAll(old(socket.listeners))
    ensures socket.log == old(socket.log) + [Disconnect]
  {
    UnbindListeners(socket);
    socket.Disconnect();
  }

  /** The eight `socket.off` calls of the cleanup, in the order it makes them. */
  method UnbindListeners(socket: Socket)
    modifies socket
    ensures socket.listeners == UnbindAll(old(socket.listeners))
    ensures socket.log == old(socket.log)
  {
    ghost var t := socket.listeners;
    ghost var evs: set<Event> := {};
    assert socket.listeners == t - evs;
    UnbindOneMore(t, evs, OnlineUsersEvent);
    socket.Off(OnlineUsersEvent);
    evs := evs + {OnlineUsersEvent};
    assert socket.listeners == t - evs;
    UnbindOneMore(t, evs, ReceiveMessageEvent);
    socket.Off(ReceiveMessageEvent);
    evs := evs + {ReceiveMessageEvent};
    assert socket.listeners == t - evs;
    UnbindOneMore(t, evs, MessageSentEvent);
    socket.Off(MessageSentEvent);
    evs := evs + {MessageSentEvent};
    assert socket.listeners == t - evs;
    UnbindOneMore(t, evs, UserTypingEvent);
    socket.Off(UserTypingEvent);
    evs := evs + {UserTypingEvent};
    assert socket.listeners == t - evs;
    UnbindOneMore(t, evs, MessageDeliveredEvent);
    socket.Off(MessageDeliveredEvent);
    evs := evs + {MessageDeliveredEvent};
    assert socket.listeners == t - evs;
    UnbindOneMore(t, evs, MessageReadEvent);
    socket.Off(MessageReadEvent);
    evs := evs + {MessageReadEvent};
    assert socket.listeners == t - evs;
    UnbindOneMore(t, evs, NotificationEvent);
    socket.Off(NotificationEvent);
    evs := evs + {NotificationEvent};
    assert socket.listeners == t - evs;
    UnbindOneMore(t, evs, ConnectEvent);
    socket.Off(ConnectEvent);
    evs := evs + {ConnectEvent};
    assert socket.listeners == t - evs;
    assert evs == AllEvents;
  }

  /** One mounted instance of the hook, on a socket nobody else binds. React
      runs the pending cleanup before every re-run of the effect (a new `user`
      or `currentChatUser`) and on unmount; `active` is the context of the run
      whose cleanup is pending. The listener table always holds exactly the
      listeners of that run, so none of an earlier user or chat survives. */
  class Mounted {
    const socket: Socket
    var active: Option<Context>

    ghost predicate Valid()
      reads this, socket
    {
      socket.listeners == TableOf(active)
    }

    constructor (s: Socket)
      requires s.listeners == map[]
      ensures socket == s && active == None && Valid()
    {
      socket := s;
      active := None;
    }

    /** The effect runs for a new `user` / `currentChatUser`. */
    method Run(user: Option<Obj>, currentChatUser: Option<Obj>)
      requires Valid()
      modifies this, socket
      ensures Valid()
      ensures active == if HasUserId(user) then Some(ContextFor(user, currentChatUser)) else None
      ensures socket.log == old(socket.log)
        + (if old(active).Some? then [Disconnect] else [])
        + (if HasUserId(user) then [Connect, Emit("register", UserId(GetOpt(user, "userId")))] else [])
    {
      if active.Some? {
        Cleanup(socket);
        CleanupUndoesSetup(map[], active.value);
      }
      var hasCleanup := Setup(socket, user, currentChatUser);
      active := if hasCleanup then Some(ContextFor(user, currentChatUser)) else None;
    }

    /** The component unmounts: the pending cleanup, if any, runs. */
    method Unmount()
      requires Valid()
      modifies this, socket
      ensures Valid() && active == None
      ensures socket.listeners == map[]
      ensures socket.log == old(socket.log) + (if old(active).Some? then [Disconnect] else [])
    {
      if active.Some? {
        Cleanup(socket);
        CleanupUndoesSetup(map[], active.value);
        active := None;
      }
    }
  }
}
