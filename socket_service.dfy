/** The real-time layer of services/socketService.ts: one service object that
    owns a notification channel and a chat channel, each either absent or a
    live socket, plus one listener registry per channel that outlives the
    sockets. A socket is an abstract record (connected flag, handlers per
    event, log of emitted messages); the transport's 'connect' event is
    stood for by the SimulateNotificationConnect / SimulateChatConnect
    methods. */
module Sockets {
  import opened Common

  /** A function handed to `socket.on`; only its identity matters here. */
  datatype Callback = Callback(id: nat)

  datatype Channel = NotificationChannel | ChatChannel

  /** A client-to-server message: an event name and a flat numeric payload
      such as `{ userId: 7 }` or `{ sessionId: 3, page: 2 }`. */
  datatype Message = Message(event: string, payload: seq<(string, int)>)

  /** Event names the service registers listeners for. */
  const RentalNotificationEvent := "rentalNotification"
  const MessageNotificationEvent := "messageNotification"
  const ChatListMessageEvent := "chatListMessage"
  const ChatListMessageUpdateEvent := "chatListMessageUpdate"
  const ChatSessionMessageEvent := "chatSessionMessage"
  const ChatSessionMessageUpdateEvent := "chatSessionMessageUpdate"

  /** The payload rule of `joinSession` and `joinChatList`: the identifying
      key is always present, `page` and `limit` only when truthy (so 0 and
      undefined are both left out). */
  function JoinPayload(key: string, id: int, page: Option<int>, limit: Option<int>): (p: seq<(string, int)>)
    ensures |p| >= 1 && p[0] == (key, id)
    ensures (exists i :: 0 < i < |p| && p[i].0 == "page") <==> TruthyInt(page)
    ensures TruthyInt(page) ==> exists i :: 0 < i < |p| && p[i] == ("page", page.value)
    ensures (exists i :: 0 < i < |p| && p[i].0 == "limit") <==> TruthyInt(limit)
    ensures TruthyInt(limit) ==> exists i :: 0 < i < |p| && p[i] == ("limit", limit.value)
    ensures |p| == 1 + (if TruthyInt(page) then 1 else 0) + (if TruthyInt(limit) then 1 else 0)
  {
    var withPage := if TruthyInt(page) then [(key, id), ("page", page.value)] else [(key, id)];
    var p := if TruthyInt(limit) then withPage + [("limit", limit.value)] else withPage;
    assert TruthyInt(page) ==> p[1] == ("page", page.value);
    assert TruthyInt(limit) ==> p[|p| - 1] == ("limit", limit.value);
    p
  }

  /** The callbacks a socket runs for an event. */
  function HandlersOf(h: map<string, seq<Callback>>, event: string): seq<Callback> {
    if event in h then h[event] else []
  }

  /** A socket.io client socket, reduced to what the service observes.
      `on` appends (socket.io keeps every callback registered for an
      event), `off(event)` drops all of them. */
  class Socket {
    const channel: Channel
    const accessToken: string
    /** The user id that the service's 'connect' handler captured. */
    const userId: int
    var connected: bool
    var handlers: map<string, seq<Callback>>
    var emitted: seq<Message>

    constructor (channel: Channel, accessToken: string, userId: int)
      ensures this.channel == channel && this.accessToken == accessToken && this.userId == userId
      ensures !connected && handlers == map[] && emitted == []
    {
      this.channel := channel;
      this.accessToken := accessToken;
      this.userId := userId;
      connected := false;
      handlers := map[];
      emitted := [];
    }

    function Listeners(event: string): seq<Callback>
      reads this
    {
      HandlersOf(handlers, event)
    }

    method On(event: string, cb: Callback)
      modifies this
      ensures handlers == old(handlers)[event := old(Listeners(event)) + [cb]]
      ensures connected == old(connected) && emitted == old(emitted)
    {
      handlers := handlers[event := Listeners(event) + [cb]];
    }

    method Off(event: string)
      modifies this
      ensures handlers == old(handlers) - {event}
      ensures connected == old(connected) && emitted == old(emitted)
    {
      handlers := handlers - {event};
    }

    method Emit(event: string, payload: seq<(string, int)>)
      modifies this
      ensures emitted == old(emitted) + [Message(event, payload)]
      ensures connected == old(connected) && handlers == old(handlers)
    {
      emitted := emitted + [Message(event, payload)];
    }

    method Disconnect()
      modifies this
      ensures !connected
      ensures handlers == old(handlers) && emitted == old(emitted)
    {
      connected := false;
    }
  }

  /** The handler table after attaching, for every event in `done`, the
      registry's callback for it. */
  function Attached(h: map<string, seq<Callback>>, listeners: map<string, Callback>, done: set<string>): (r: map<string, seq<Callback>>)
    requires done <= listeners.Keys
    ensures r.Keys == h.Keys + done
  {
    map e | e in h.Keys + done :: HandlersOf(h, e) + (if e in done then [listeners[e]] else [])
  }

  /** After attaching, an event in `done` runs its old callbacks followed by
      the registry's one; every other event is as before. */
  lemma AttachedLookup(h: map<string, seq<Callback>>, listeners: map<string, Callback>, done: set<string>, e: string)
    requires done <= listeners.Keys
    ensures e in done ==> HandlersOf(Attached(h, listeners, done), e) == HandlersOf(h, e) + [listeners[e]]
    ensures e !in done ==> HandlersOf(Attached(h, listeners, done), e) == HandlersOf(h, e)
  {
  }

  lemma AttachedNone(h: map<string, seq<Callback>>, listeners: map<string, Callback>)
    ensures Attached(h, listeners, {}) == h
  {
    var a := Attached(h, listeners, {});
    forall x | x in a.Keys
      ensures a[x] == h[x]
    {
      assert HandlersOf(a, x) == a[x];
    }
  }

  /** Attaching one more event extends the table by that event's callback. */
  lemma AttachedStep(h: map<string, seq<Callback>>, listeners: map<string, Callback>, done: set<string>, e: string)
    requires done <= listeners.Keys && e in listeners && e !in done
    ensures Attached(h, listeners, done + {e}) ==
            Attached(h, listeners, done)[e := HandlersOf(Attached(h, listeners, done), e) + [listeners[e]]]
  {
    var a, b := Attached(h, listeners, done + {e}), Attached(h, listeners, done)[e := HandlersOf(Attached(h, listeners, done), e) + [listeners[e]]];
    assert a.Keys == b.Keys;
    forall x | x in a.Keys
      ensures a[x] == b[x]
    {
      assert HandlersOf(a, x) == a[x] && HandlersOf(b, x) == b[x];
    }
  }

  class SocketService {
    var notificationSocket: Socket?
    var chatSocket: Socket?
    var notificationListeners: map<string, Callback>
    var chatListeners: map<string, Callback>
    /** Every handle this service has dropped. */
    ghost var retired: set<Socket>

    /** Each field holds a socket of its own channel, and every dropped
        handle is disconnected: at most one live socket per channel. */
    ghost predicate Valid()
      reads this, retired
    {
      && (notificationSocket != null ==> notificationSocket.channel == NotificationChannel && notificationSocket !in retired)
      && (chatSocket != null ==> chatSocket.channel == ChatChannel && chatSocket !in retired)
      && (forall s :: s in retired ==> !s.connected)
    }

    predicate NotificationConnected()
      reads this, notificationSocket
    {
      notificationSocket != null && notificationSocket.connected
    }

    predicate ChatConnected()
      reads this, chatSocket
    {
      chatSocket != null && chatSocket.connected
    }

    constructor ()
      ensures Valid()
      ensures notificationSocket == null && chatSocket == null
      ensures notificationListeners == map[] && chatListeners == map[]
    {
      notificationSocket := null;
      chatSocket := null;
      notificationListeners := map[];
      chatListeners := map[];
      retired := {};
    }

    // --- Notification channel -------------------------------------------

    /** Safe when no handle exists; afterwards there is none. */
    method DisconnectNotification()
      requires Valid()
      modifies this, notificationSocket
      ensures Valid()
      ensures notificationSocket == null
      ensures old(notificationSocket) != null ==>
                !old(notificationSocket).connected && retired == old(retired) + {old(notificationSocket)}
      ensures old(notificationSocket) == null ==> retired == old(retired)
      ensures chatSocket == old(chatSocket)
      ensures notificationListeners == old(notificationListeners) && chatListeners == old(chatListeners)
      ensures old(notificationSocket) != null ==>
                old(notificationSocket).handlers == old(notificationSocket.handlers) &&
                old(notificationSocket).emitted == old(notificationSocket.emitted)
    {
      if notificationSocket != null {
        notificationSocket.Disconnect();
        retired := retired + {notificationSocket};
      }
      notificationSocket := null;
    }

    /** A no-op while the current handle is connected; otherwise the old handle
        is torn down before a fresh, not yet connected one is created. */
    method ConnectNotification(userId: int, accessToken: string)
      requires Valid()
      modifies this, notificationSocket
      ensures Valid()
      ensures old(NotificationConnected()) ==>
                notificationSocket == old(notificationSocket) && retired == old(retired) &&
                unchanged(notificationSocket)
      ensures !old(NotificationConnected()) ==>
                && notificationSocket != null && fresh(notificationSocket)
                && !notificationSocket.connected
                && notificationSocket.handlers == map[] && notificationSocket.emitted == []
                && notificationSocket.userId == userId && notificationSocket.accessToken == accessToken
                && (old(notificationSocket) != null ==> old(notificationSocket) in retired)
      ensures chatSocket == old(chatSocket)
      ensures notificationListeners == old(notificationListeners) && chatListeners == old(chatListeners)
    {
      if notificationSocket != null && notificationSocket.connected {
        return;
      }
      DisconnectNotification();
      notificationSocket := new Socket(NotificationChannel, accessToken, userId);
    }

    /** The transport's 'connect' event on the current notification socket:
        it becomes connected, every stored listener is attached to it, and
        `joinRoom { userId }` is emitted. With no socket nothing happens. */
    method SimulateNotificationConnect()
      requires Valid()
      modifies notificationSocket
      ensures Valid()
      ensures notificationSocket != null ==>
                && notificationSocket.connected
                && notificationSocket.handlers ==
                     Attached(old(notificationSocket.handlers), notificationListeners, notificationListeners.Keys)
                && notificationSocket.emitted ==
                     old(notificationSocket.emitted) + [Message("joinRoom", [("userId", notificationSocket.userId)])]
    {
      if notificationSocket != null {
        notificationSocket.connected := true;
        AttachAll(notificationSocket, notificationListeners);
        notificationSocket.Emit("joinRoom", [("userId", notificationSocket.userId)]);
      }
    }

    // --- Chat channel -----------------------------------------------------

    method DisconnectChat()
      requires Valid()
      modifies this, chatSocket
      ensures Valid()
      ensures chatSocket == null
      ensures old(chatSocket) != null ==>
                !old(chatSocket).connected && retired == old(retired) + {old(chatSocket)}
      ensures old(chatSocket) == null ==> retired == old(retired)
      ensures notificationSocket == old(notificationSocket)
      ensures notificationListeners == old(notificationListeners) && chatListeners == old(chatListeners)
      ensures old(chatSocket) != null ==>
                old(chatSocket).handlers == old(chatSocket.handlers) &&
                old(chatSocket).emitted == old(chatSocket.emitted)
    {
      if chatSocket != null {
        chatSocket.Disconnect();
        retired := retired + {chatSocket};
      }
      chatSocket := null;
    }

    method ConnectChat(userId: int, accessToken: string)
      requires Valid()
      modifies this, chatSocket
      ensures Valid()
      ensures old(ChatConnected()) ==>
                chatSocket == old(chatSocket) && retired == old(retired) && unchanged(chatSocket)
      ensures !old(ChatConnected()) ==>
                && chatSocket != null && fresh(chatSocket)
                && !chatSocket.connected
                && chatSocket.handlers == map[] && chatSocket.emitted == []
                && chatSocket.userId == userId && chatSocket.accessToken == accessToken
                && (old(chatSocket) != null ==> old(chatSocket) in retired)
      ensures notificationSocket == old(notificationSocket)
      ensures notificationListeners == old(notificationListeners) && chatListeners == old(chatListeners)
    {
      if chatSocket != null && chatSocket.connected {
        return;
      }
      DisconnectChat();
      chatSocket := new Socket(ChatChannel, accessToken, userId);
    }

    /** The 'connect' event on the current chat socket: stored listeners are
        attached, then `joinChatList { userId }` goes out (the handler passes
        no page or limit). */
    method SimulateChatConnect()
      requires Valid()
      modifies chatSocket
      ensures Valid()
      ensures chatSocket != null ==>
                && chatSocket.connected
                && chatSocket.handlers == Attached(old(chatSocket.handlers), chatListeners, chatListeners.Keys)
                && chatSocket.emitted ==
                     old(chatSocket.emitted) + [Message("joinChatList", [("userId", chatSocket.userId)])]
    {
      if chatSocket != null {
        chatSocket.connected := true;
        AttachAll(chatSocket, chatListeners);
        JoinChatList(chatSocket.userId, None, None);
      }
    }

    /** The `forEach` of the 'connect' handlers: `socket.on(event, callback)`
        for every stored entry. */
    static method AttachAll(s: Socket, listeners: map<string, Callback>)
      modifies s
      ensures s.handlers == Attached(old(s.handlers), listeners, listeners.Keys)
      ensures s.connected == old(s.connected) && s.emitted == old(s.emitted)
    {
      var todo := listeners.Keys;
      ghost var done: set<string> := {};
      AttachedNone(s.handlers, listeners);
      while todo != {}
        invariant todo + done == listeners.Keys && todo !! done
        invariant s.handlers == Attached(old(s.handlers), listeners, done)
        invariant s.connected == old(s.connected) && s.emitted == old(s.emitted)
        decreases todo
      {
        var e :| e in todo;
        AttachedStep(old(s.handlers), listeners, done, e);
        s.On(e, listeners[e]);
        todo := todo - {e};
        done := done + {e};
      }
    }

    // --- Listener registration ---------------------------------------------

    /** Shared body of the notification-channel `on*` methods: the registry
        entry is overwritten (last registration wins) and, if a handle
        exists, connected or not, the callback is attached to it at once. */
    method RegisterNotificationListener(event: string, cb: Callback)
      requires Valid()
      modifies this, notificationSocket
      ensures Valid()
      ensures notificationListeners == old(notificationListeners)[event := cb]
      ensures chatListeners == old(chatListeners)
      ensures notificationSocket == old(notificationSocket) && chatSocket == old(chatSocket)
      ensures retired == old(retired)
      ensures notificationSocket != null ==>
                && notificationSocket.handlers ==
                     old(notificationSocket.handlers)[event := old(notificationSocket.Listeners(event)) + [cb]]
                && notificationSocket.connected == old(notificationSocket.connected)
                && notificationSocket.emitted == old(notificationSocket.emitted)
    {
      notificationListeners := notificationListeners[event := cb];
      if notificationSocket != null {
        notificationSocket.On(event, cb);
      }
    }

    /** Shared body of the chat-channel `on*` methods. */
    method RegisterChatListener(event: string, cb: Callback)
      requires Valid()
      modifies this, chatSocket
      ensures Valid()
      ensures chatListeners == old(chatListeners)[event := cb]
      ensures notificationListeners == old(notificationListeners)
      ensures notificationSocket == old(notificationSocket) && chatSocket == old(chatSocket)
      ensures retired == old(retired)
      ensures chatSocket != null ==>
                && chatSocket.handlers == old(chatSocket.handlers)[event := old(chatSocket.Listeners(event)) + [cb]]
                && chatSocket.connected == old(chatSocket.connected)
                && chatSocket.emitted == old(chatSocket.emitted)
    {
      chatListeners := chatListeners[event := cb];
      if chatSocket != null {
        chatSocket.On(event, cb);
      }
    }

    method OnRentalNotification(cb: Callback)
      requires Valid()
      modifies this, notificationSocket
      ensures Valid()
      ensures notificationListeners == old(notificationListeners)[RentalNotificationEvent := cb]
      ensures chatListeners == old(chatListeners) && retired == old(retired)
      ensures notificationSocket == old(notificationSocket) && chatSocket == old(chatSocket)
      ensures notificationSocket != null ==>
                && notificationSocket.handlers ==
                     old(notificationSocket.handlers)[RentalNotificationEvent := old(notificationSocket.Listeners(RentalNotificationEvent)) + [cb]]
                && notificationSocket.connected == old(notificationSocket.connected)
                && notificationSocket.emitted == old(notificationSocket.emitted)
    {
      RegisterNotificationListener(RentalNotificationEvent, cb);
    }

    method OnMessageNotification(cb: Callback)
      requires Valid()
      modifies this, notificationSocket
      ensures Valid()
      ensures notificationListeners == old(notificationListeners)[MessageNotificationEvent := cb]
      ensures chatListeners == old(chatListeners) && retired == old(retired)
      ensures notificationSocket == old(notificationSocket) && chatSocket == old(chatSocket)
      ensures notificationSocket != null ==>
                && notificationSocket.handlers ==
                     old(notificationSocket.handlers)[MessageNotificationEvent := old(notificationSocket.Listeners(MessageNotificationEvent)) + [cb]]
                && notificationSocket.connected == old(notificationSocket.connected)
                && notificationSocket.emitted == old(notificationSocket.emitted)
    {
      RegisterNotificationListener(MessageNotificationEvent, cb);
    }

    method OnChatListMessage(cb: Callback)
      requires Valid()
      modifies this, chatSocket
      ensures Valid()
      ensures chatListeners == old(chatListeners)[ChatListMessageEvent := cb]
      ensures notificationListeners == old(notificationListeners) && retired == old(retired)
      ensures notificationSocket == old(notificationSocket) && chatSocket == old(chatSocket)
      ensures chatSocket != null ==>
                && chatSocket.handlers == old(chatSocket.handlers)[ChatListMessageEvent := old(chatSocket.Listeners(ChatListMessageEvent)) + [cb]]
                && chatSocket.connected == old(chatSocket.connected)
                && chatSocket.emitted == old(chatSocket.emitted)
    {
      RegisterChatListener(ChatListMessageEvent, cb);
    }

    method OnChatListMessageUpdate(cb: Callback)
      requires Valid()
      modifies this, chatSocket
      ensures Valid()
      ensures chatListeners == old(chatListeners)[ChatListMessageUpdateEvent := cb]
      ensures notificationListeners == old(notificationListeners) && retired == old(retired)
      ensures notificationSocket == old(notificationSocket) && chatSocket == old(chatSocket)
      ensures chatSocket != null ==>
                && chatSocket.handlers == old(chatSocket.handlers)[ChatListMessageUpdateEvent := old(chatSocket.Listeners(ChatListMessageUpdateEvent)) + [cb]]
                && chatSocket.connected == old(chatSocket.connected)
                && chatSocket.emitted == old(chatSocket.emitted)
    {
      RegisterChatListener(ChatListMessageUpdateEvent, cb);
    }

    method OnChatSessionMessage(cb: Callback)
      requires Valid()
      modifies this, chatSocket
      ensures Valid()
      ensures chatListeners == old(chatListeners)[ChatSessionMessageEvent := cb]
      ensures notificationListeners == old(notificationListeners) && retired == old(retired)
      ensures notificationSocket == old(notificationSocket) && chatSocket == old(chatSocket)
      ensures chatSocket != null ==>
                && chatSocket.handlers == old(chatSocket.handlers)[ChatSessionMessageEvent := old(chatSocket.Listeners(ChatSessionMessageEvent)) + [cb]]
                && chatSocket.connected == old(chatSocket.connected)
                && chatSocket.emitted == old(chatSocket.emitted)
    {
      RegisterChatListener(ChatSessionMessageEvent, cb);
    }

    method OnChatSessionMessageUpdate(cb: Callback)
      requires Valid()
      modifies this, chatSocket
      ensures Valid()
      ensures chatListeners == old(chatListeners)[ChatSessionMessageUpdateEvent := cb]
      ensures notificationListeners == old(notificationListeners) && retired == old(retired)
      ensures notificationSocket == old(notificationSocket) && chatSocket == old(chatSocket)
      ensures chatSocket != null ==>
                && chatSocket.handlers == old(chatSocket.handlers)[ChatSessionMessageUpdateEvent := old(chatSocket.Listeners(ChatSessionMessageUpdateEvent)) + [cb]]
                && chatSocket.connected == old(chatSocket.connected)
                && chatSocket.emitted == old(chatSocket.emitted)
    {
      RegisterChatListener(ChatSessionMessageUpdateEvent, cb);
    }

    // --- Emitting -----------------------------------------------------------

    /** Emits only on a connected chat socket (otherwise the source logs an
        error and does nothing). */
    method JoinSession(sessionId: int, page: Option<int>, limit: Option<int>)
      requires Valid()
      modifies chatSocket
      ensures Valid()
      ensures chatSocket != null ==> chatSocket.handlers == old(chatSocket.handlers) && chatSocket.connected == old(chatSocket.connected)
      ensures old(ChatConnected()) ==>
                chatSocket.emitted == old(chatSocket.emitted) + [Message("joinSession", JoinPayload("sessionId", sessionId, page, limit))]
      ensures !old(ChatConnected()) ==> chatSocket != null ==> chatSocket.emitted == old(chatSocket.emitted)
    {
      if chatSocket != null && chatSocket.connected {
        chatSocket.Emit("joinSession", JoinPayload("sessionId", sessionId, page, limit));
      }
    }

    /** Private in the source; called by the chat 'connect' handler. Silent
        when the chat socket is not connected. */
    method JoinChatList(userId: int, page: Option<int>, limit: Option<int>)
      requires Valid()
      modifies chatSocket
      ensures Valid()
      ensures chatSocket != null ==> chatSocket.handlers == old(chatSocket.handlers) && chatSocket.connected == old(chatSocket.connected)
      ensures old(ChatConnected()) ==>
                chatSocket.emitted == old(chatSocket.emitted) + [Message("joinChatList", JoinPayload("userId", userId, page, limit))]
      ensures !old(ChatConnected()) ==> chatSocket != null ==> chatSocket.emitted == old(chatSocket.emitted)
    {
      if chatSocket != null && chatSocket.connected {
        chatSocket.Emit("joinChatList", JoinPayload("userId", userId, page, limit));
      }
    }

    /** Removes the event from both registries and detaches it from both live
        sockets; every other registration is kept. */
    method Off(event: string)
      requires Valid()
      modifies this, notificationSocket, chatSocket
      ensures Valid()
      ensures notificationListeners == old(notificationListeners) - {event}
      ensures chatListeners == old(chatListeners) - {event}
      ensures notificationSocket == old(notificationSocket) && chatSocket == old(chatSocket)
      ensures retired == old(retired)
      ensures notificationSocket != null ==>
                notificationSocket.handlers == old(notificationSocket.handlers) - {event} &&
                notificationSocket.connected == old(notificationSocket.connected) &&
                notificationSocket.emitted == old(notificationSocket.emitted)
      ensures chatSocket != null ==>
                chatSocket.handlers == old(chatSocket.handlers) - {event} &&
                chatSocket.connected == old(chatSocket.connected) &&
                chatSocket.emitted == old(chatSocket.emitted)
    {
      notificationListeners := notificationListeners - {event};
      if notificationSocket != null {
        notificationSocket.Off(event);
      }
      chatListeners := chatListeners - {event};
      if chatSocket != null {
        chatSocket.Off(event);
      }
    }
  }

  /** A listener registered before any connection exists is attached exactly
      once after the next successful connect, and the join message follows. */
  method RegisterBeforeConnect(cb: Callback, userId: int, token: string)
  {
    var service := new SocketService();
    service.OnChatListMessage(cb);
    service.ConnectChat(userId, token);
    service.SimulateChatConnect();
    assert service.chatSocket.Listeners(ChatListMessageEvent) == [cb];
    assert service.chatSocket.emitted == [Message("joinChatList", [("userId", userId)])];
    service.JoinSession(5, Some(0), Some(20));
    assert service.chatSocket.emitted[1] == Message("joinSession", [("sessionId", 5), ("limit", 20)]);
  }

  /** Registering while a handle exists but has not yet connected (the order
      in which the application's login flow runs) attaches the callback
      immediately and again when 'connect' fires, so it runs twice per event. */
  method RegisterBetweenCreateAndConnect(cb: Callback, userId: int, token: string)
  {
    var service := new SocketService();
    service.ConnectNotification(userId, token);
    service.OnRentalNotification(cb);
    service.SimulateNotificationConnect();
    assert service.notificationSocket.Listeners(RentalNotificationEvent) == [cb, cb];
  }
}
