/** components/AppContext.tsx: the global session state of the application.
    The list updates its socket handlers perform are pure functions over the
    previous list (they are React state updaters); the provider itself is a
    class whose methods are the context's operations and the handlers'
    effects on its state. */
module AppContext {
  import opened Common
  import opened ChatTypes
  import opened Sockets

  // ---------------------------------------------------------------------
  // The notification list

  predicate HasId(l: seq<ClientNotification>, id: Option<int>) {
    exists i :: 0 <= i < |l| && l[i].base.id == id
  }

  predicate UniqueIds(l: seq<ClientNotification>) {
    forall i, j :: 0 <= i < j < |l| ==> l[i].base.id != l[j].base.id
  }

  /** The updater both notification handlers pass to `setNotifications`: a
      notification whose id is already listed is dropped, any other one goes
      to the top, unread. */
  function AddNotification(prev: seq<ClientNotification>, n: Notification, clientId: string): (r: seq<ClientNotification>)
    ensures HasId(prev, n.id) ==> r == prev
    ensures !HasId(prev, n.id) ==> r == [ClientNotification(n, clientId, false)] + prev
    ensures HasId(r, n.id)
  {
    if HasId(prev, n.id) then prev
    else
      var r := [ClientNotification(n, clientId, false)] + prev;
      assert r[0].base.id == n.id;
      r
  }

  /** No two listed notifications share an id, whatever is delivered. */
  lemma AddKeepsIdsUnique(prev: seq<ClientNotification>, n: Notification, clientId: string)
    requires UniqueIds(prev)
    ensures UniqueIds(AddNotification(prev, n, clientId))
  {
    var r := AddNotification(prev, n, clientId);
    if !HasId(prev, n.id) {
      forall i, j | 0 <= i < j < |r|
        ensures r[i].base.id != r[j].base.id
      {
        if i == 0 {
          assert r[j] == prev[j - 1];
        } else {
          assert r[i] == prev[i - 1] && r[j] == prev[j - 1];
        }
      }
    }
  }

  /** A redelivered notification (same id, any payload) changes nothing. */
  lemma AddRedeliveryIsNoOp(prev: seq<ClientNotification>, n: Notification, m: Notification, c1: string, c2: string)
    requires m.id == n.id
    ensures AddNotification(AddNotification(prev, n, c1), m, c2) == AddNotification(prev, n, c1)
  {
  }

  /** `markNotificationAsRead`: exactly the entries with that id become read. */
  function MarkRead(prev: seq<ClientNotification>, id: int): (r: seq<ClientNotification>)
    ensures |r| == |prev|
    ensures forall i :: 0 <= i < |r| ==>
              r[i].base == prev[i].base && r[i].clientId == prev[i].clientId &&
              r[i].isRead == (prev[i].isRead || prev[i].base.id == Some(id))
  {
    seq(|prev|, i requires 0 <= i < |prev| =>
      if prev[i].base.id == Some(id) then prev[i].(isRead := true) else prev[i])
  }

  predicate AllRead(l: seq<ClientNotification>) {
    forall i :: 0 <= i < |l| ==> l[i].isRead
  }

  /** `markAllNotificationsAsRead`. */
  function MarkAll(prev: seq<ClientNotification>): (r: seq<ClientNotification>)
    ensures |r| == |prev| && AllRead(r)
    ensures forall i :: 0 <= i < |r| ==> r[i].base == prev[i].base && r[i].clientId == prev[i].clientId
  {
    seq(|prev|, i requires 0 <= i < |prev| => prev[i].(isRead := true))
  }

  lemma MarkReadIdempotent(l: seq<ClientNotification>, id: int)
    ensures MarkRead(MarkRead(l, id), id) == MarkRead(l, id)
  {
  }

  lemma MarkAllIdempotent(l: seq<ClientNotification>)
    ensures MarkAll(MarkAll(l)) == MarkAll(l)
  {
  }

  /** Marking one entry first makes no difference to "mark all". */
  lemma MarkAllAbsorbsMarkRead(l: seq<ClientNotification>, id: int)
    ensures MarkAll(MarkRead(l, id)) == MarkAll(l)
  {
  }

  /** Marking read never changes membership, order or ids, so the no-duplicate
      property survives it. */
  lemma MarkReadKeepsIdsUnique(l: seq<ClientNotification>, id: int)
    requires UniqueIds(l)
    ensures UniqueIds(MarkRead(l, id)) && UniqueIds(MarkAll(l))
  {
  }

  /** Once a delivered notification is marked read, the list holds exactly
      one entry for that id and it is read. */
  lemma DeliverThenMarkRead(prev: seq<ClientNotification>, n: Notification, clientId: string, id: int)
    requires UniqueIds(prev) && n.id == Some(id)
    ensures var r := MarkRead(AddNotification(prev, n, clientId), id);
            exists i :: 0 <= i < |r| && r[i].base.id == Some(id) && r[i].isRead &&
              forall j :: 0 <= j < |r| && j != i ==> r[j].base.id != Some(id)
  {
    var a := AddNotification(prev, n, clientId);
    AddKeepsIdsUnique(prev, n, clientId);
    var i :| 0 <= i < |a| && a[i].base.id == n.id;
    var r := MarkRead(a, id);
    assert r[i].base.id == Some(id) && r[i].isRead;
  }

  // ---------------------------------------------------------------------
  // Toasts

  /** Where pressing a toast navigates. */
  datatype Route =
    | RentalHistory
    | VehicleRentals(vehicleId: int)
    | ChatDetail(sessionId: int, receiverId: int)

  datatype Toast = Toast(kind: string, title: string, body: string, onPress: Route)

  /** The rental toast: renters are sent to their history, everybody else
      (owners) to the vehicle's rental list. */
  function RentalToast(user: User, d: RentalEventData): (t: Toast)
    ensures t.kind == "info" && t.title == "Rental Update"
    ensures t.body == "Tap to view details for rental #" + IntToString(d.rentalId) + "."
    ensures t.onPress == RentalHistory <==> d.renterId == Some(user.id)
    ensures t.onPress != RentalHistory ==> t.onPress == VehicleRentals(d.vehicleId)
  {
    var route := if d.renterId == Some(user.id) then RentalHistory else VehicleRentals(d.vehicleId);
    Toast("info", "Rental Update", "Tap to view details for rental #" + IntToString(d.rentalId) + ".", route)
  }

  /** The message toast: the sender name falls back to 'a user' when empty,
      an image is announced, any other message is quoted. */
  function MessageToast(d: ChatEventData): (t: Toast)
    ensures t.kind == "info"
    ensures t.title == "New Message from " + OrElse(d.senderName, "a user")
    ensures t.body == "Sent an image." <==> d.msgType == "image"
    ensures d.msgType != "image" ==>
              |t.body| == |d.content| + 2 && t.body[0] == '"' && t.body[|t.body| - 1] == '"' &&
              t.body[1..|t.body| - 1] == d.content
    ensures t.onPress == ChatDetail(d.sessionId, d.senderId)
  {
    var body := if d.msgType == "image" then "Sent an image." else "\"" + d.content + "\"";
    assert d.msgType != "image" ==> body[0] == '"' && "Sent an image."[0] == 'S';
    Toast("info", "New Message from " + OrElse(d.senderName, "a user"), body, ChatDetail(d.sessionId, d.senderId))
  }

  // ---------------------------------------------------------------------
  // The chat list

  /** One row of the 'chatListMessage' snapshot: the first receiver names the
      conversation, and missing parts get the source's placeholders. */
  function Summarize(s: ChatSession, clientId: string): (r: ChatSummary)
    ensures r.clientId == clientId && r.sessionId == s.sessionId && r.unreadCount == 0
    ensures |s.receivers| == 0 ==>
              r.receiverId == None && r.nickname == "New Conversation" && r.receiverAvatar == None
    ensures |s.receivers| > 0 ==>
              r.receiverId == Some(s.receivers[0].receiverId) &&
              r.nickname == s.receivers[0].receiverName &&
              r.receiverAvatar == s.receivers[0].receiverAvatar
    ensures s.data.None? ==> r.lastMessage == "No messages yet" && r.lastMessageTime == None
    ensures s.data.Some? ==>
              r.lastMessage == s.data.value.content && r.lastMessageTime == Some(s.data.value.createdAt)
  {
    var main: Option<Receiver> := if |s.receivers| > 0 then Some(s.receivers[0]) else None;
    ChatSummary(
      clientId,
      s.sessionId,
      if main.Some? then Some(main.value.receiverId) else None,
      if main.Some? then main.value.receiverName else "New Conversation",
      if main.Some? then main.value.receiverAvatar else None,
      if s.data.Some? then s.data.value.content else "No messages yet",
      if s.data.Some? then Some(s.data.value.createdAt) else None,
      0)
  }

  /** The snapshot replaces the list; `freshId(i)` is the key generated for
      the i-th row. */
  function SummarizeSessions(sessions: seq<ChatSession>, freshId: nat -> string): (r: seq<ChatSummary>)
    ensures |r| == |sessions|
    ensures forall i :: 0 <= i < |r| ==> r[i] == Summarize(sessions[i], freshId(i))
  {
    seq(|sessions|, i requires 0 <= i < |sessions| => Summarize(sessions[i], freshId(i)))
  }

  /** The snapshot keeps the server's order of sessions and starts every
      counter at zero. */
  lemma SnapshotKeepsOrder(sessions: seq<ChatSession>, freshId: nat -> string)
    ensures var r := SummarizeSessions(sessions, freshId);
            (forall i :: 0 <= i < |r| ==> r[i].sessionId == sessions[i].sessionId && r[i].unreadCount == 0) &&
            (UniqueSessionIds(sessions) ==> UniqueSessions(r))
  {
  }

  function SessionKey(s: ChatSummary): int {
    s.sessionId
  }

  predicate UniqueSessionIds(l: seq<ChatSession>) {
    forall i, j :: 0 <= i < j < |l| ==> l[i].sessionId != l[j].sessionId
  }

  predicate UniqueSessions(l: seq<ChatSummary>) {
    forall i, j :: 0 <= i < j < |l| ==> l[i].sessionId != l[j].sessionId
  }

  /** `prevSessions.find(s => s.sessionId === id)`, as an index. */
  function FindSession(l: seq<ChatSummary>, id: int): (r: Option<nat>)
    ensures r.Some? ==> r.value < |l| && l[r.value].sessionId == id &&
                        forall j :: 0 <= j < r.value ==> l[j].sessionId != id
    ensures r.None? ==> forall j :: 0 <= j < |l| ==> l[j].sessionId != id
    decreases |l|
  {
    if |l| == 0 then None
    else if l[0].sessionId == id then Some(0)
    else
      var t := FindSession(l[1..], id);
      if t.Some? then Some(t.value + 1) else None
  }

  /** The 'chatListMessageUpdate' updater: the matching row gets the new
      preview and time and moves to the top; an update for an unknown
      session leaves the list alone. The preview is the content as sent. */
  function ApplyListUpdate(l: seq<ChatSummary>, id: int, content: string, createdAt: string): (r: seq<ChatSummary>)
    ensures (forall j :: 0 <= j < |l| ==> l[j].sessionId != id) ==> r == l
  {
    match FindSession(l, id)
    case None => l
    case Some(i) =>
      [l[i].(lastMessage := content, lastMessageTime := Some(createdAt))] + Without(l, SessionKey, id)
  }

  /** An update for a listed session puts that session first with the new
      preview (every other field as before), followed by all other sessions
      in their old order. */
  lemma ListUpdatePresent(l: seq<ChatSummary>, id: int, content: string, createdAt: string, k: nat)
    requires k < |l| && l[k].sessionId == id
    ensures var r := ApplyListUpdate(l, id, content, createdAt);
            && |r| == |l| - CountKey(l, SessionKey, id) + 1
            && r[0].sessionId == id && r[0].lastMessage == content && r[0].lastMessageTime == Some(createdAt)
            && FindSession(l, id).Some?
            && r[0] == l[FindSession(l, id).value].(lastMessage := content, lastMessageTime := Some(createdAt))
            && r[1..] == Without(l, SessionKey, id)
            && (forall x :: x in l && x.sessionId != id ==> x in r[1..])
            && (forall x :: x in r[1..] ==> x in l && x.sessionId != id)
  {
    var f := FindSession(l, id);
    assert f.Some?;
    WithoutMembers(l, SessionKey, id);
    var r := ApplyListUpdate(l, id, content, createdAt);
    assert r[1..] == Without(l, SessionKey, id);
  }

  lemma CountKeyUnique(l: seq<ChatSummary>, k: nat)
    requires UniqueSessions(l) && k < |l|
    ensures CountKey(l, SessionKey, l[k].sessionId) == 1
    decreases |l|
  {
    if k == 0 {
      WithoutAbsentCount(l[1..], l[0].sessionId);
    } else {
      CountKeyUnique(l[1..], k - 1);
    }
  }

  lemma WithoutAbsentCount(l: seq<ChatSummary>, id: int)
    requires forall j :: 0 <= j < |l| ==> l[j].sessionId != id
    ensures CountKey(l, SessionKey, id) == 0
    decreases |l|
  {
    if l != [] {
      WithoutAbsentCount(l[1..], id);
    }
  }

  /** With unique session ids (which the snapshot gives whenever the server
      sends them) an update is a reordering: the length stays and the ids
      stay unique. */
  lemma ListUpdateKeepsUnique(l: seq<ChatSummary>, id: int, content: string, createdAt: string)
    requires UniqueSessions(l)
    ensures var r := ApplyListUpdate(l, id, content, createdAt);
            |r| == |l| && UniqueSessions(r) &&
            (forall x :: x in l ==> exists y :: y in r && y.sessionId == x.sessionId)
  {
    var r := ApplyListUpdate(l, id, content, createdAt);
    var f := FindSession(l, id);
    if f.Some? {
      var k := f.value;
      ListUpdatePresent(l, id, content, createdAt, k);
      CountKeyUnique(l, k);
      WithoutMembers(l, SessionKey, id);
      var w := Without(l, SessionKey, id);
      WithoutUnique(l, id);
      forall i, j | 0 <= i < j < |r|
        ensures r[i].sessionId != r[j].sessionId
      {
        if i == 0 {
          assert r[j] == w[j - 1];
        } else {
          assert r[i] == w[i - 1] && r[j] == w[j - 1];
        }
      }
      forall x | x in l
        ensures exists y :: y in r && y.sessionId == x.sessionId
      {
        if x.sessionId == id {
          assert r[0] in r;
        } else {
          assert x in r[1..];
        }
      }
    }
  }

  /** Dropping rows keeps the session ids unique. */
  lemma {:induction false} WithoutUnique(l: seq<ChatSummary>, id: int)
    requires UniqueSessions(l)
    ensures UniqueSessions(Without(l, SessionKey, id))
    decreases |l|
  {
    if l != [] {
      WithoutUnique(l[1..], id);
      WithoutMembers(l[1..], SessionKey, id);
      if l[0].sessionId != id {
        var w := Without(l[1..], SessionKey, id);
        var r := Without(l, SessionKey, id);
        assert r == [l[0]] + w;
        forall i, j | 0 <= i < j < |r|
          ensures r[i].sessionId != r[j].sessionId
        {
          if i == 0 {
            assert r[j] == w[j - 1];
            assert w[j - 1] in l[1..];
          } else {
            assert r[i] == w[i - 1] && r[j] == w[j - 1];
          }
        }
      }
    }
  }

  /** Delivering the same update twice has the effect of delivering it once. */
  lemma ListUpdateIdempotent(l: seq<ChatSummary>, id: int, content: string, createdAt: string)
    ensures ApplyListUpdate(ApplyListUpdate(l, id, content, createdAt), id, content, createdAt) ==
            ApplyListUpdate(l, id, content, createdAt)
  {
    var r := ApplyListUpdate(l, id, content, createdAt);
    var f := FindSession(l, id);
    if f.Some? {
      var w := Without(l, SessionKey, id);
      assert r == [r[0]] + w;
      WithoutMembers(l, SessionKey, id);
      WithoutAbsent(w, SessionKey, id);
      assert Without(r, SessionKey, id) == w;
      assert FindSession(r, id) == Some(0);
    }
  }

  /** A snapshot with one 'hi' conversation followed by an image update: the
      row keeps its place and shows the update's content verbatim. */
  lemma SnapshotThenUpdateExample(freshId: nat -> string)
    ensures var snap := SummarizeSessions(
                [ChatSession(1, Some(SessionData(2, "text", "hi", "T1", "Ann", "a.png")), [Receiver(2, "Ann", None)])],
                freshId);
            var after := ApplyListUpdate(snap, 1, "img.png", "T2");
            |after| == 1 && after[0].lastMessage == "img.png" && after[0].lastMessageTime == Some("T2") &&
            after[0].nickname == "Ann"
  {
    var snap := SummarizeSessions(
                [ChatSession(1, Some(SessionData(2, "text", "hi", "T1", "Ann", "a.png")), [Receiver(2, "Ann", None)])],
                freshId);
    assert snap[0].sessionId == 1;
    ListUpdatePresent(snap, 1, "img.png", "T2", 0);
  }

  // ---------------------------------------------------------------------
  // The provider

  /** What `authAPI.getUser()` produced: a rejection, or a body with a status
      and possibly a user. */
  datatype UserReply = RequestFailed | Replied(bodyStatus: int, user: Option<User>)

  function Lookup(storage: map<string, string>, key: string): Option<string> {
    if key in storage then Some(storage[key]) else None
  }

  /** The four callbacks the provider registers while a user is signed in. */
  const RentalHandler := Callback(1)
  const MessageHandler := Callback(2)
  const ChatListHandler := Callback(3)
  const ChatListUpdateHandler := Callback(4)

  const ProviderEvents := {RentalNotificationEvent, MessageNotificationEvent, ChatListMessageEvent, ChatListMessageUpdateEvent}

  class AppProvider {
    const sockets: SocketService
    var currentUser: Option<User>
    var isLoadingUser: bool
    var notifications: seq<ClientNotification>
    var chatSessions: seq<ChatSummary>
    var loadingChatSessions: bool
    var chatSessionsError: Option<string>
    /** The device's key-value store (AsyncStorage). */
    var storage: map<string, string>
    /** Whether the listener effect's registrations are in place. */
    var listenersActive: bool

    ghost predicate Valid()
      reads this, sockets, sockets.retired
    {
      sockets.Valid()
    }

    /** The state `logout` leaves behind. */
    predicate SignedOut()
      reads this, sockets
    {
      storage == map[] && currentUser == None && notifications == [] &&
      sockets.notificationSocket == null && sockets.chatSocket == null
    }

    constructor (sockets: SocketService, storage: map<string, string>)
      requires sockets.Valid()
      ensures Valid()
      ensures this.sockets == sockets && this.storage == storage
      ensures currentUser == None && isLoadingUser && notifications == [] && chatSessions == []
      ensures loadingChatSessions && chatSessionsError == None && !listenersActive
    {
      this.sockets := sockets;
      this.storage := storage;
      currentUser := None;
      isLoadingUser := true;
      notifications := [];
      chatSessions := [];
      loadingChatSessions := true;
      chatSessionsError := None;
      listenersActive := false;
    }

    /** Clears storage, the user and the notifications and closes both
        channels; the chat list is kept. */
    method Logout()
      requires Valid()
      modifies this, sockets, sockets.notificationSocket, sockets.chatSocket
      ensures loadingChatSessions == old(loadingChatSessions) && chatSessionsError == old(chatSessionsError)
      ensures Valid() && SignedOut()
      ensures chatSessions == old(chatSessions) && isLoadingUser == old(isLoadingUser)
      ensures listenersActive == old(listenersActive)
      ensures sockets.notificationListeners == old(sockets.notificationListeners)
      ensures sockets.chatListeners == old(sockets.chatListeners)
      ensures old(sockets.notificationSocket) != null ==> !old(sockets.notificationSocket).connected
      ensures old(sockets.chatSocket) != null ==> !old(sockets.chatSocket).connected
    {
      storage := map[];
      currentUser := None;
      notifications := [];
      sockets.DisconnectNotification();
      sockets.DisconnectChat();
    }

    /** Signs the stored session in. `reply` is what the profile request
        produced and `storageAfter` the store as that request left it (the
        HTTP client may have rotated the tokens). Without a stored token the
        user is simply cleared; with one, a 200 body holding a user and a
        token still in storage opens both channels for that user; every
        other outcome logs out. */
    method FetchUserAndConnect(reply: UserReply, storageAfter: map<string, string>)
      requires Valid()
      modifies this, sockets, sockets.notificationSocket, sockets.chatSocket
      ensures loadingChatSessions == old(loadingChatSessions) && chatSessionsError == old(chatSessionsError)
      ensures listenersActive == old(listenersActive)
      ensures Valid()
      ensures !isLoadingUser && chatSessions == old(chatSessions)
      ensures !Truthy(Lookup(old(storage), "accessToken")) ==>
                && currentUser == None && storage == old(storage) && notifications == old(notifications)
                && sockets.notificationSocket == null && sockets.chatSocket == null
      ensures Truthy(Lookup(old(storage), "accessToken")) ==>
                if SignInSucceeds(reply, storageAfter) then SignedIn(reply.user.value, storageAfter, old(notifications))
                else SignedOut()
      ensures Truthy(Lookup(old(storage), "accessToken")) && SignInSucceeds(reply, storageAfter) ==>
                fresh(sockets.notificationSocket) && fresh(sockets.chatSocket)
      ensures sockets.notificationListeners == old(sockets.notificationListeners)
      ensures sockets.chatListeners == old(sockets.chatListeners)
      ensures old(sockets.notificationSocket) != null ==> !old(sockets.notificationSocket).connected
      ensures old(sockets.chatSocket) != null ==> !old(sockets.chatSocket).connected
    {
      isLoadingUser := true;
      sockets.DisconnectNotification();
      sockets.DisconnectChat();
      var token := Lookup(storage, "accessToken");
      if Truthy(token) {
        SignIn(reply, storageAfter);
      } else {
        currentUser := None;
      }
      isLoadingUser := false;
    }

    /** The profile answer is usable: a 200 body holding a user, with a
        token still in storage afterwards. */
    static predicate SignInSucceeds(reply: UserReply, storageAfter: map<string, string>) {
      reply.Replied? && reply.bodyStatus == 200 && reply.user.Some? && Truthy(Lookup(storageAfter, "accessToken"))
    }

    /** Both channels open (not yet connected) for `user` with the stored
        token, and the user and store in place. */
    predicate SignedIn(user: User, storageAfter: map<string, string>, notes: seq<ClientNotification>)
      reads this, sockets, sockets.notificationSocket, sockets.chatSocket
    {
      && currentUser == Some(user) && storage == storageAfter && notifications == notes
      && "accessToken" in storageAfter
      && sockets.notificationSocket != null && sockets.chatSocket != null
      && sockets.notificationSocket.userId == user.id && sockets.chatSocket.userId == user.id
      && sockets.notificationSocket.accessToken == storageAfter["accessToken"]
      && sockets.chatSocket.accessToken == storageAfter["accessToken"]
      && !sockets.notificationSocket.connected && !sockets.chatSocket.connected
    }

    /** The branch of `fetchUserAndConnect` taken with a stored token, after
        both channels were closed. */
    method SignIn(reply: UserReply, storageAfter: map<string, string>)
      requires Valid() && sockets.notificationSocket == null && sockets.chatSocket == null
      modifies this, sockets
      ensures loadingChatSessions == old(loadingChatSessions) && chatSessionsError == old(chatSessionsError)
      ensures listenersActive == old(listenersActive)
      ensures Valid()
      ensures isLoadingUser == old(isLoadingUser) && chatSessions == old(chatSessions)
      ensures if SignInSucceeds(reply, storageAfter) then SignedIn(reply.user.value, storageAfter, old(notifications))
              else SignedOut()
      ensures SignInSucceeds(reply, storageAfter) ==> fresh(sockets.notificationSocket) && fresh(sockets.chatSocket)
      ensures sockets.notificationListeners == old(sockets.notificationListeners)
      ensures sockets.chatListeners == old(sockets.chatListeners)
    {
      match reply
      case RequestFailed =>
        Logout();
      case Replied(status, user) =>
        storage := storageAfter;
        if status == 200 && user.Some? {
          currentUser := user;
          var freshToken := Lookup(storage, "accessToken");
          if Truthy(freshToken) {
            sockets.ConnectNotification(user.value.id, freshToken.value);
            sockets.ConnectChat(user.value.id, freshToken.value);
          } else {
            Logout();
          }
        } else {
          Logout();
        }
    }

    /** One run of the effect keyed on `currentUser`: the previous run's
        cleanup removes the four events, then, if a user is signed in, the
        four handlers are registered again. Registrations of other events are
        untouched. */
    method SyncListeners()
      requires Valid()
      modifies this, sockets, sockets.notificationSocket, sockets.chatSocket
      ensures isLoadingUser == old(isLoadingUser) && loadingChatSessions == old(loadingChatSessions)
      ensures chatSessionsError == old(chatSessionsError)
      ensures Valid()
      ensures listenersActive == currentUser.Some? && currentUser == old(currentUser)
      ensures notifications == old(notifications) && chatSessions == old(chatSessions) && storage == old(storage)
      ensures sockets.notificationSocket == old(sockets.notificationSocket)
      ensures sockets.chatSocket == old(sockets.chatSocket)
      ensures currentUser.Some? ==>
                && sockets.notificationListeners == Cleared(old(sockets.notificationListeners), old(listenersActive))
                     [RentalNotificationEvent := RentalHandler][MessageNotificationEvent := MessageHandler]
                && sockets.chatListeners == Cleared(old(sockets.chatListeners), old(listenersActive))
                     [ChatListMessageEvent := ChatListHandler][ChatListMessageUpdateEvent := ChatListUpdateHandler]
      ensures currentUser.None? ==>
                && sockets.notificationListeners == Cleared(old(sockets.notificationListeners), old(listenersActive))
                && sockets.chatListeners == Cleared(old(sockets.chatListeners), old(listenersActive))
      ensures sockets.notificationSocket != null ==>
                && sockets.notificationSocket.handlers ==
                     (var h := Cleared(old(sockets.notificationSocket.handlers), old(listenersActive));
                      if currentUser.Some? then WithNotificationHandlers(h) else h)
                && sockets.notificationSocket.connected == old(sockets.notificationSocket.connected)
                && sockets.notificationSocket.emitted == old(sockets.notificationSocket.emitted)
      ensures sockets.chatSocket != null ==>
                && sockets.chatSocket.handlers ==
                     (var h := Cleared(old(sockets.chatSocket.handlers), old(listenersActive));
                      if currentUser.Some? then WithChatHandlers(h) else h)
                && sockets.chatSocket.connected == old(sockets.chatSocket.connected)
                && sockets.chatSocket.emitted == old(sockets.chatSocket.emitted)
    {
      if listenersActive {
        RemoveListeners();
      }
      if currentUser.Some? {
        AddListeners();
      }
    }

    /** The effect's cleanup: `off` for each of the four events. */
    method RemoveListeners()
      requires Valid()
      modifies this, sockets, sockets.notificationSocket, sockets.chatSocket
      ensures isLoadingUser == old(isLoadingUser) && loadingChatSessions == old(loadingChatSessions)
      ensures chatSessionsError == old(chatSessionsError)
      ensures Valid() && !listenersActive
      ensures currentUser == old(currentUser) && notifications == old(notifications)
      ensures chatSessions == old(chatSessions) && storage == old(storage)
      ensures sockets.notificationSocket == old(sockets.notificationSocket)
      ensures sockets.chatSocket == old(sockets.chatSocket)
      ensures sockets.notificationListeners == old(sockets.notificationListeners) - ProviderEvents
      ensures sockets.chatListeners == old(sockets.chatListeners) - ProviderEvents
      ensures sockets.notificationSocket != null ==>
                && sockets.notificationSocket.handlers == old(sockets.notificationSocket.handlers) - ProviderEvents
                && sockets.notificationSocket.connected == old(sockets.notificationSocket.connected)
                && sockets.notificationSocket.emitted == old(sockets.notificationSocket.emitted)
      ensures sockets.chatSocket != null ==>
                && sockets.chatSocket.handlers == old(sockets.chatSocket.handlers) - ProviderEvents
                && sockets.chatSocket.connected == old(sockets.chatSocket.connected)
                && sockets.chatSocket.emitted == old(sockets.chatSocket.emitted)
    {
      ghost var n0, c0 := sockets.notificationListeners, sockets.chatListeners;
      ghost var nh := if sockets.notificationSocket != null then sockets.notificationSocket.handlers else map[];
      ghost var ch := if sockets.chatSocket != null then sockets.chatSocket.handlers else map[];
      sockets.Off(RentalNotificationEvent);
      sockets.Off(MessageNotificationEvent);
      sockets.Off(ChatListMessageEvent);
      sockets.Off(ChatListMessageUpdateEvent);
      listenersActive := false;
      OffEach(n0);
      OffEach(c0);
      OffEach(nh);
      OffEach(ch);
    }

    /** The effect's setup: the four handlers are registered. */
    method AddListeners()
      requires Valid()
      modifies this, sockets, sockets.notificationSocket, sockets.chatSocket
      ensures isLoadingUser == old(isLoadingUser) && loadingChatSessions == old(loadingChatSessions)
      ensures chatSessionsError == old(chatSessionsError)
      ensures Valid() && listenersActive
      ensures currentUser == old(currentUser) && notifications == old(notifications)
      ensures chatSessions == old(chatSessions) && storage == old(storage)
      ensures sockets.notificationSocket == old(sockets.notificationSocket)
      ensures sockets.chatSocket == old(sockets.chatSocket)
      ensures sockets.notificationListeners ==
                old(sockets.notificationListeners)[RentalNotificationEvent := RentalHandler][MessageNotificationEvent := MessageHandler]
      ensures sockets.chatListeners ==
                old(sockets.chatListeners)[ChatListMessageEvent := ChatListHandler][ChatListMessageUpdateEvent := ChatListUpdateHandler]
      ensures sockets.notificationSocket != null ==>
                && sockets.notificationSocket.handlers == WithNotificationHandlers(old(sockets.notificationSocket.handlers))
                && sockets.notificationSocket.connected == old(sockets.notificationSocket.connected)
                && sockets.notificationSocket.emitted == old(sockets.notificationSocket.emitted)
      ensures sockets.chatSocket != null ==>
                && sockets.chatSocket.handlers == WithChatHandlers(old(sockets.chatSocket.handlers))
                && sockets.chatSocket.connected == old(sockets.chatSocket.connected)
                && sockets.chatSocket.emitted == old(sockets.chatSocket.emitted)
    {
      sockets.OnRentalNotification(RentalHandler);
      sockets.OnMessageNotification(MessageHandler);
      sockets.OnChatListMessage(ChatListHandler);
      sockets.OnChatListMessageUpdate(ChatListUpdateHandler);
      listenersActive := true;
    }

    /** 'rentalNotification' with a user signed in: the toast is shown (also
        for a duplicate) and the list updated. */
    method ReceiveRentalNotification(n: Notification, clientId: string) returns (toast: Toast)
      requires n.RentalNotification? && currentUser.Some?
      modifies this
      ensures isLoadingUser == old(isLoadingUser) && loadingChatSessions == old(loadingChatSessions)
      ensures chatSessionsError == old(chatSessionsError) && listenersActive == old(listenersActive)
      ensures currentUser == old(currentUser) && chatSessions == old(chatSessions) && storage == old(storage)
      ensures toast == RentalToast(currentUser.value, n.rental)
      ensures notifications == AddNotification(old(notifications), n, clientId)
    {
      toast := RentalToast(currentUser.value, n.rental);
      notifications := AddNotification(notifications, n, clientId);
    }

    method ReceiveMessageNotification(n: Notification, clientId: string) returns (toast: Toast)
      requires n.ChatNotification?
      modifies this
      ensures isLoadingUser == old(isLoadingUser) && loadingChatSessions == old(loadingChatSessions)
      ensures chatSessionsError == old(chatSessionsError) && listenersActive == old(listenersActive)
      ensures toast == MessageToast(n.chat)
      ensures notifications == AddNotification(old(notifications), n, clientId)
      ensures currentUser == old(currentUser) && chatSessions == old(chatSessions) && storage == old(storage)
    {
      toast := MessageToast(n.chat);
      notifications := AddNotification(notifications, n, clientId);
    }

    method ReceiveChatList(sessions: seq<ChatSession>, freshId: nat -> string)
      modifies this
      ensures isLoadingUser == old(isLoadingUser) && chatSessionsError == old(chatSessionsError)
      ensures listenersActive == old(listenersActive)
      ensures chatSessions == SummarizeSessions(sessions, freshId) && !loadingChatSessions
      ensures notifications == old(notifications) && currentUser == old(currentUser) && storage == old(storage)
    {
      chatSessions := SummarizeSessions(sessions, freshId);
      loadingChatSessions := false;
    }

    method ReceiveChatListUpdate(sessionId: int, content: string, createdAt: string)
      modifies this
      ensures isLoadingUser == old(isLoadingUser) && chatSessionsError == old(chatSessionsError)
      ensures listenersActive == old(listenersActive)
      ensures chatSessions == ApplyListUpdate(old(chatSessions), sessionId, content, createdAt)
      ensures notifications == old(notifications) && currentUser == old(currentUser) && storage == old(storage)
      ensures loadingChatSessions == old(loadingChatSessions)
    {
      chatSessions := ApplyListUpdate(chatSessions, sessionId, content, createdAt);
    }

    method MarkNotificationAsRead(id: int)
      modifies this
      ensures isLoadingUser == old(isLoadingUser) && loadingChatSessions == old(loadingChatSessions)
      ensures chatSessionsError == old(chatSessionsError) && listenersActive == old(listenersActive)
      ensures notifications == MarkRead(old(notifications), id)
      ensures chatSessions == old(chatSessions) && currentUser == old(currentUser) && storage == old(storage)
    {
      notifications := MarkRead(notifications, id);
    }

    method MarkAllNotificationsAsRead()
      modifies this
      ensures isLoadingUser == old(isLoadingUser) && loadingChatSessions == old(loadingChatSessions)
      ensures chatSessionsError == old(chatSessionsError) && listenersActive == old(listenersActive)
      ensures notifications == MarkAll(old(notifications))
      ensures chatSessions == old(chatSessions) && currentUser == old(currentUser) && storage == old(storage)
    {
      notifications := MarkAll(notifications);
    }
  }

  /** Taking the four events off one by one removes exactly them. */
  lemma OffEach<V>(m: map<string, V>)
    ensures m - {RentalNotificationEvent} - {MessageNotificationEvent} - {ChatListMessageEvent} - {ChatListMessageUpdateEvent}
            == m - ProviderEvents
  {
  }

  /** A live notification socket's handlers after the effect's setup: each
      of the two handlers is appended to what its event already had. */
  function WithNotificationHandlers(h: map<string, seq<Callback>>): (r: map<string, seq<Callback>>)
    ensures HandlersOf(r, RentalNotificationEvent) == HandlersOf(h, RentalNotificationEvent) + [RentalHandler]
    ensures HandlersOf(r, MessageNotificationEvent) == HandlersOf(h, MessageNotificationEvent) + [MessageHandler]
    ensures forall e :: e != RentalNotificationEvent && e != MessageNotificationEvent ==> HandlersOf(r, e) == HandlersOf(h, e)
  {
    h[RentalNotificationEvent := HandlersOf(h, RentalNotificationEvent) + [RentalHandler]]
     [MessageNotificationEvent := HandlersOf(h, MessageNotificationEvent) + [MessageHandler]]
  }

  /** The same for a live chat socket and the two chat-list handlers. */
  function WithChatHandlers(h: map<string, seq<Callback>>): (r: map<string, seq<Callback>>)
    ensures HandlersOf(r, ChatListMessageEvent) == HandlersOf(h, ChatListMessageEvent) + [ChatListHandler]
    ensures HandlersOf(r, ChatListMessageUpdateEvent) == HandlersOf(h, ChatListMessageUpdateEvent) + [ChatListUpdateHandler]
    ensures forall e :: e != ChatListMessageEvent && e != ChatListMessageUpdateEvent ==> HandlersOf(r, e) == HandlersOf(h, e)
  {
    h[ChatListMessageEvent := HandlersOf(h, ChatListMessageEvent) + [ChatListHandler]]
     [ChatListMessageUpdateEvent := HandlersOf(h, ChatListMessageUpdateEvent) + [ChatListUpdateHandler]]
  }

  /** A registry after the effect's cleanup, if one was due. */
  function Cleared<V>(m: map<string, V>, due: bool): (r: map<string, V>)
    ensures due ==> forall e :: e in ProviderEvents ==> e !in r
    ensures forall e :: e !in ProviderEvents ==> (e in r <==> e in m) && (e in r ==> r[e] == m[e])
  {
    if due then m - ProviderEvents else m
  }
}
