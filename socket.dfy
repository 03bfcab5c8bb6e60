/** The real-time side of messaging: the presence registry kept by the
    Socket.IO server, and the `send-message`, `mark-read`, typing and status
    handlers. Every emission and every call into the store is appended to one
    trace, so the order between persistence and notification is part of what
    the contracts say. Transport, rooms and authentication are not modelled:
    a `Session` is a socket whose handshake has already resolved a user. */
module Socket {
  import opened Common
  import opened ChatStore

  /** Socket.IO socket ids are non-empty, so a stored id is always truthy. */
  type SocketId = id: string | |id| > 0 witness "s"

  /** An authenticated socket: its id, the user id and the user record the handshake attached. */
  datatype Session = Session(socketId: SocketId, userId: UserId, user: User)

  /** Where an emission goes: one socket, a named room, or every socket but one (`socket.broadcast`). */
  datatype Target = ToSocket(socket: SocketId) | ToRoom(room: string) | AllBut(socket: SocketId)

  datatype Event =
    | MessageError(reason: Failure)
    | MessageSent(message: Message, conversationId: ConvId)
    | NewMessage(message: Message, conversationId: ConvId, sender: User)
    | BusinessMessage(message: Message, conversationId: ConvId, sender: User)
    | MarkReadError(reason: Failure)
    | MessageRead(messageId: MessageId, conversationId: ConvId, readBy: UserId, readAt: Option<int>)
    | MarkReadSuccess(messageId: MessageId, conversationId: ConvId)
    | UserTyping(userId: UserId, userName: string, business: Option<BusinessId>, conversation: Option<ConvId>)
    | UserStoppedTyping(userId: UserId, business: Option<BusinessId>, conversation: Option<ConvId>)
    | UserStatusChange(userId: UserId, status: Value, userType: UserType)
    | Notification(name: string, data: Value)

  /** The store calls a handler makes, in the order it makes them. */
  datatype StoreOp =
    | LookupUser(user: UserId)
    | LookupOwnedConversation(business: BusinessId, owner: UserId)
    | FindOrCreateConv(customer: UserId, business: BusinessId)
    | SaveMsg(conversation: ConvId)
    | UpdateLast(conversation: ConvId, message: MessageId)
    | IncrementUnread(conversation: ConvId, user: UserId)
    | LookupMessage(message: MessageId)
    | MarkMessageRead(message: MessageId)
    | LookupConversation(conversation: ConvId)
    | ResetUnread(conversation: ConvId, user: UserId)

  datatype Step = Did(op: StoreOp) | Emit(target: Target, event: Event)

  /** The `message` field of a `message-error` or `mark-read-error` payload. */
  datatype Failure = InvalidMessageData | ReceiverNotFound | FailedToSend | InvalidData | MessageNotFound
  {
    function Text(): string {
      match this
      case InvalidMessageData => "Invalid message data"
      case ReceiverNotFound => "Receiver not found"
      case FailedToSend => "Failed to send message"
      case InvalidData => "Invalid data"
      case MessageNotFound => "Message not found"
    }
  }

  // ---------------------------------------------------------------------------
  // The presence registry

  /** `connectedUsers` (user -> socket) and `userSockets` (socket -> user). */
  datatype Registry = Registry(connectedUsers: map<UserId, SocketId>, userSockets: map<SocketId, UserId>)
  {
    predicate IsOnline(u: UserId) {
      u in connectedUsers
    }

    /** A connection writes both maps; an earlier socket of the same user keeps its reverse entry. */
    function Connect(u: UserId, s: SocketId): (r: Registry)
      ensures r.IsOnline(u) && r.connectedUsers[u] == s && s in r.userSockets && r.userSockets[s] == u
      ensures forall v :: v != u ==> (v in r.connectedUsers <==> v in connectedUsers)
      ensures forall v :: v != u && v in connectedUsers ==> r.connectedUsers[v] == connectedUsers[v]
      ensures forall t :: t != s ==> (t in r.userSockets <==> t in userSockets)
      ensures forall t :: t != s && t in userSockets ==> r.userSockets[t] == userSockets[t]
    {
      Registry(connectedUsers[u := s], userSockets[s := u])
    }

    /** A disconnect of socket `s` of user `u` removes `u` whichever socket it is
        registered under, and only the entry of `s` from the reverse map. */
    function Disconnect(u: UserId, s: SocketId): (r: Registry)
      ensures !r.IsOnline(u) && s !in r.userSockets
      ensures forall v :: v != u ==> (v in r.connectedUsers <==> v in connectedUsers)
      ensures forall v :: v != u && v in connectedUsers ==> r.connectedUsers[v] == connectedUsers[v]
      ensures forall t :: t != s ==> (t in r.userSockets <==> t in userSockets)
      ensures forall t :: t != s && t in userSockets ==> r.userSockets[t] == userSockets[t]
    {
      Registry(connectedUsers - {u}, userSockets - {s})
    }

    /** Every connected user's socket maps back to that user. */
    predicate ForwardConsistent() {
      forall u :: u in connectedUsers ==> connectedUsers[u] in userSockets && userSockets[connectedUsers[u]] == u
    }

    /** Every registered socket is its user's current socket. */
    predicate BackwardConsistent() {
      forall t :: t in userSockets ==> userSockets[t] in connectedUsers && connectedUsers[userSockets[t]] == t
    }
  }

  const NoOne := Registry(map[], map[])

  /** A second connection of the same user wins the forward entry; both sockets stay in the reverse map. */
  lemma NewestConnectionWins(r: Registry, u: UserId, s1: SocketId, s2: SocketId)
    ensures var r2 := r.Connect(u, s1).Connect(u, s2);
            r2.connectedUsers[u] == s2 && r2.userSockets[s1] == u && r2.userSockets[s2] == u
  {
  }

  /** Closing the older of two sockets takes the user offline although the newer one is still open. */
  lemma {:induction false} StaleDisconnectDropsLiveSession(r: Registry, u: UserId, s1: SocketId, s2: SocketId)
    requires s1 != s2
    ensures var r3 := r.Connect(u, s1).Connect(u, s2).Disconnect(u, s1);
            !r3.IsOnline(u) && s2 in r3.userSockets && r3.userSockets[s2] == u
  {
    var r2 := r.Connect(u, s1).Connect(u, s2);
    assert r2.userSockets[s2] == u;
  }

  /** A connection on a fresh socket keeps every connected user's socket mapping back to it. */
  lemma {:induction false} ConnectKeepsForward(r: Registry, u: UserId, s: SocketId)
    requires r.ForwardConsistent() && s !in r.userSockets
    ensures r.Connect(u, s).ForwardConsistent()
  {
    var r2 := r.Connect(u, s);
    forall v | v in r2.connectedUsers
      ensures r2.connectedUsers[v] in r2.userSockets && r2.userSockets[r2.connectedUsers[v]] == v
    {
      if v != u {
        var t := r.connectedUsers[v];
        assert t in r.userSockets;
        assert t != s;
      }
    }
  }

  /** Disconnecting a socket that belongs to `u` keeps the forward maps consistent. */
  lemma {:induction false} DisconnectKeepsForward(r: Registry, u: UserId, s: SocketId)
    requires r.ForwardConsistent()
    requires s in r.userSockets ==> r.userSockets[s] == u
    ensures r.Disconnect(u, s).ForwardConsistent()
  {
    var r2 := r.Disconnect(u, s);
    forall v | v in r2.connectedUsers
      ensures r2.connectedUsers[v] in r2.userSockets && r2.userSockets[r2.connectedUsers[v]] == v
    {
      var t := r.connectedUsers[v];
      assert r.userSockets[t] == v;
      assert t != s;
    }
  }

  /** The two maps are not kept mutual inverses: a reconnect leaves the old socket registered to the user. */
  lemma ReconnectBreaksBackward(u: UserId, s1: SocketId, s2: SocketId)
    requires s1 != s2
    ensures NoOne.Connect(u, s1).BackwardConsistent()
    ensures !NoOne.Connect(u, s1).Connect(u, s2).BackwardConsistent()
  {
    var r2 := NoOne.Connect(u, s1).Connect(u, s2);
    assert s1 in r2.userSockets && r2.connectedUsers[r2.userSockets[s1]] != s1;
  }

  // ---------------------------------------------------------------------------
  // send-message

  datatype SendPayload = SendPayload(
    receiverId: UserId,
    businessId: BusinessId,
    content: string,
    messageType: Option<string>,
    attachments: Option<seq<string>>)

  /** What a handler reads: the users, the business owners, the store and the registry's forward map. */
  datatype World = World(
    users: map<UserId, User>,
    owners: map<BusinessId, UserId>,
    convs: seq<Conversation>,
    msgs: seq<Message>,
    online: map<UserId, SocketId>)

  /** The trace a handler appends and the store it leaves. */
  datatype Outcome = Outcome(steps: seq<Step>, convs: seq<Conversation>, msgs: seq<Message>)

  datatype Resolution = Resolution(ops: seq<Step>, index: Option<nat>, convs: seq<Conversation>)

  /** The conversation a message is filed under. A business sender takes the first
      conversation of that business it owns, and only when there is none falls back
      to find-or-create with the receiver as customer; any other sender is the
      customer of find-or-create. */
  function Resolve(convs: seq<Conversation>, owners: map<BusinessId, UserId>, s: Session,
                   receiver: UserId, b: BusinessId): (r: Resolution)
    ensures r.index.Some? ==> r.index.value < |r.convs|
    ensures forall k :: 0 <= k < |r.ops| ==> r.ops[k].Did?
  {
    if s.user.userType == Business then
      match FindByOwner(convs, b, s.userId)
      case Some(i) => Resolution([Did(LookupOwnedConversation(b, s.userId))], Some(i), convs)
      case None =>
        var f := FindOrCreate(convs, owners, receiver, b);
        Resolution([Did(LookupOwnedConversation(b, s.userId)), Did(FindOrCreateConv(receiver, b))], f.index, f.convs)
    else
      var f := FindOrCreate(convs, owners, s.userId, b);
      Resolution([Did(FindOrCreateConv(s.userId, b))], f.index, f.convs)
  }

  /** Resolution by sender kind: a customer (or admin) sender is always the customer of the
      conversation; a business sender gets its first owned conversation of that business, or,
      when it owns none there, the one whose customer is the receiver. Conversation ids stay unique. */
  lemma {:induction false} ResolveBySender(convs: seq<Conversation>, owners: map<BusinessId, UserId>, s: Session,
                                           receiver: UserId, b: BusinessId)
    ensures var r := Resolve(convs, owners, s, receiver, b);
            (UniqueIds(convs) ==> UniqueIds(r.convs)) &&
            (s.user.userType != Business ==>
               r.ops == [Did(FindOrCreateConv(s.userId, b))] &&
               FindOrCreate(convs, owners, s.userId, b) == FindOrCreateResult(r.index, r.convs)) &&
            (s.user.userType != Business && r.index.Some? ==> r.convs[r.index.value].id == ConvId(s.userId, b)) &&
            (s.user.userType == Business && FindByOwner(convs, b, s.userId).Some? ==>
               r.ops == [Did(LookupOwnedConversation(b, s.userId))] && r.convs == convs &&
               r.index == FindByOwner(convs, b, s.userId)) &&
            (s.user.userType == Business && FindByOwner(convs, b, s.userId).None? ==>
               r.ops == [Did(LookupOwnedConversation(b, s.userId)), Did(FindOrCreateConv(receiver, b))] &&
               FindOrCreate(convs, owners, receiver, b) == FindOrCreateResult(r.index, r.convs)) &&
            (s.user.userType == Business && r.index.Some? ==>
               (r.convs[r.index.value].businessId == b && r.convs[r.index.value].businessOwner == s.userId)
               || r.convs[r.index.value].id == ConvId(receiver, b))
  {
  }

  /** A business owner replying to one customer can have the message filed in another
      customer's conversation: the owner lookup does not look at the receiver. */
  lemma OwnerReplyCanLandElsewhere()
    ensures var other := Conversation(ConvId("alice", "shop"), "alice", "owner", "shop", None, "", Some(0), Some(0), true);
            var s := Session("sock", "owner", User("O", "W", Business));
            var r := Resolve([other], map["shop" := "owner"], s, "bob", "shop");
            r.index == Some(0) && r.convs[0].customer != "bob" && !r.convs[0].HasParticipant("bob")
  {
  }

  predicate PushesNewMessage(steps: seq<Step>) {
    exists k :: 0 <= k < |steps| && steps[k].Emit? && steps[k].event.NewMessage?
  }

  predicate PushesBusinessMessage(steps: seq<Step>) {
    exists k :: 0 <= k < |steps| && steps[k].Emit? && steps[k].event.BusinessMessage?
  }

  predicate PushesMessageRead(steps: seq<Step>) {
    exists k :: 0 <= k < |steps| && steps[k].Emit? && steps[k].event.MessageRead?
  }

  /** A send succeeds when the receiver exists, a conversation is resolved and the content is non-empty. */
  predicate Delivers(w: World, s: Session, p: SendPayload) {
    p.receiverId in w.users && Resolve(w.convs, w.owners, s, p.receiverId, p.businessId).index.Some? && p.content != ""
  }

  /** The pushes after the acknowledgement: to the receiver's socket when it is
      connected, and to the business room when the receiver is a business. */
  function Fanout(online: map<UserId, SocketId>, receiver: User, s: Session, p: SendPayload,
                  m: Message, cid: ConvId): (r: seq<Step>)
    ensures |r| <= 2
    ensures forall k :: 0 <= k < |r| ==> r[k].Emit? && (r[k].event.NewMessage? || r[k].event.BusinessMessage?)
  {
    (if p.receiverId in online then [Emit(ToSocket(online[p.receiverId]), NewMessage(m, cid, s.user))] else [])
    + (if receiver.userType == Business then [Emit(ToRoom("business_" + p.businessId), BusinessMessage(m, cid, s.user))] else [])
  }

  /** The fan-out holds at most one push to the receiver's socket, present exactly when the receiver is
      connected, and at most one to the business room, present exactly when the receiver is a business. */
  lemma {:induction false} FanoutTargets(online: map<UserId, SocketId>, receiver: User, s: Session, p: SendPayload,
                                         m: Message, cid: ConvId)
    ensures var r := Fanout(online, receiver, s, p, m, cid);
            |r| <= 2 &&
            (forall k :: 0 <= k < |r| ==> r[k].Emit? && (r[k].event.NewMessage? || r[k].event.BusinessMessage?) && r[k].event.message == m) &&
            (PushesNewMessage(r) <==> p.receiverId in online) &&
            (PushesBusinessMessage(r) <==> receiver.userType == Business) &&
            (p.receiverId in online ==> Emit(ToSocket(online[p.receiverId]), NewMessage(m, cid, s.user)) in r) &&
            (receiver.userType == Business ==> Emit(ToRoom("business_" + p.businessId), BusinessMessage(m, cid, s.user)) in r)
  {
    var r := Fanout(online, receiver, s, p, m, cid);
    var direct := if p.receiverId in online then [Emit(ToSocket(online[p.receiverId]), NewMessage(m, cid, s.user))] else [];
    var room := if receiver.userType == Business then [Emit(ToRoom("business_" + p.businessId), BusinessMessage(m, cid, s.user))] else [];
    assert r == direct + room;
    if p.receiverId in online {
      assert r[0] == direct[0];
    }
    if receiver.userType == Business {
      assert r[|direct|] == room[0];
    }
  }

  /** The store calls and the acknowledgement for a message `m` that was saved. */
  function Persist(me: SocketId, m: Message): (r: seq<Step>)
    ensures |r| == 4 && r[|r| - 1] == Emit(ToSocket(me), MessageSent(m, m.conversationId))
    ensures forall k :: 0 <= k < |r| - 1 ==> r[k].Did?
    ensures r[0] == Did(SaveMsg(m.conversationId))
  {
    [Did(SaveMsg(m.conversationId)), Did(UpdateLast(m.conversationId, m.id)), Did(IncrementUnread(m.conversationId, m.receiver)),
     Emit(ToSocket(me), MessageSent(m, m.conversationId))]
  }

  /** The part of `send-message` after the conversation is resolved to position `index` of `w.convs`:
      save, update the conversation, acknowledge and fan out, or report the failure. */
  function AfterResolve(w: World, s: Session, p: SendPayload, index: Option<nat>): (o: Outcome)
    requires p.receiverId in w.users
    requires index.Some? ==> index.value < |w.convs|
    ensures |o.convs| == |w.convs|
    ensures index.None? || p.content == "" ==>
              o.steps != [] && o.steps[|o.steps| - 1] == Emit(ToSocket(s.socketId), MessageError(FailedToSend))
    ensures index.Some? && p.content != "" ==>
              |o.msgs| == |w.msgs| + 1 && o.msgs[|w.msgs|].id == |w.msgs| && o.msgs[|w.msgs|].sender == s.userId
              && o.msgs[|w.msgs|].receiver == p.receiverId && o.msgs[|w.msgs|].content == p.content
              && o.msgs[|w.msgs|].conversationId == w.convs[index.value].id
  {
    var me := ToSocket(s.socketId);
    if index.None? then Outcome([Emit(me, MessageError(FailedToSend))], w.convs, w.msgs)
    else
      var i := index.value;
      var cid := w.convs[i].id;
      if p.content == "" then Outcome([Did(SaveMsg(cid)), Emit(me, MessageError(FailedToSend))], w.convs, w.msgs)
      else
        var m := CreatedMessage(|w.msgs|, cid, s.userId, p.receiverId, p.businessId, p.content, p.messageType, p.attachments);
        Outcome(Persist(s.socketId, m) + Fanout(w.online, w.users[p.receiverId], s, p, m, cid),
                w.convs[i := Incremented(WithLastMessage(w.convs[i], m.id, p.content), p.receiverId)], w.msgs + [m])
  }

  /** Without a conversation or with empty content nothing is saved and only the sender hears of it;
      otherwise exactly one message is appended. Conversation ids stay unique either way. */
  lemma {:induction false} AfterResolveSavesAtMostOne(w: World, s: Session, p: SendPayload, index: Option<nat>)
    requires p.receiverId in w.users
    requires index.Some? ==> index.value < |w.convs|
    ensures var o := AfterResolve(w, s, p, index);
            (index.None? || p.content == "" ==> o.msgs == w.msgs && o.convs == w.convs) &&
            (index.None? || p.content == "" ==>
               forall k :: 0 <= k < |o.steps| && o.steps[k].Emit? ==>
                 o.steps[k].target == ToSocket(s.socketId) && o.steps[k].event.MessageError?) &&
            (index.Some? && p.content != "" ==> |o.msgs| == |w.msgs| + 1 && o.msgs[..|w.msgs|] == w.msgs) &&
            (UniqueIds(w.convs) ==> UniqueIds(o.convs))
  {
    var o := AfterResolve(w, s, p, index);
    if index.Some? && p.content != "" {
      var i := index.value;
      assert forall j :: 0 <= j < |o.convs| ==> o.convs[j].id == w.convs[j].id;
    }
  }

  /** The whole `send-message` handler on values. */
  function SendSpec(w: World, s: Session, data: Option<SendPayload>): (o: Outcome)
    ensures data.None? ==> o == Outcome([Emit(ToSocket(s.socketId), MessageError(InvalidMessageData))], w.convs, w.msgs)
    ensures data.Some? && data.value.receiverId !in w.users ==>
              o == Outcome([Did(LookupUser(data.value.receiverId)), Emit(ToSocket(s.socketId), MessageError(ReceiverNotFound))], w.convs, w.msgs)
  {
    var me := ToSocket(s.socketId);
    if data.None? then Outcome([Emit(me, MessageError(InvalidMessageData))], w.convs, w.msgs)
    else
      var p := data.value;
      var look := [Did(LookupUser(p.receiverId))];
      if p.receiverId !in w.users then Outcome(look + [Emit(me, MessageError(ReceiverNotFound))], w.convs, w.msgs)
      else
        var o := Proceed(w, s, p);
        Outcome(look + o.steps, o.convs, o.msgs)
  }

  /** Lines 106-191 of `send-message`, once the receiver is known to exist. */
  function Proceed(w: World, s: Session, p: SendPayload): (o: Outcome)
    requires p.receiverId in w.users
    ensures |w.convs| <= |o.convs| <= |w.convs| + 1
    ensures |w.msgs| <= |o.msgs| <= |w.msgs| + 1
  {
    var res := Resolve(w.convs, w.owners, s, p.receiverId, p.businessId);
    var after := AfterResolve(w.(convs := res.convs), s, p, res.index);
    Outcome(res.ops + after.steps, after.convs, after.msgs)
  }

  /** Exactly one message is appended when the send delivers, none otherwise; conversation ids stay unique. */
  lemma {:induction false} SendSavesOnlyOnDelivery(w: World, s: Session, data: Option<SendPayload>)
    ensures var o := SendSpec(w, s, data);
            (data.Some? && Delivers(w, s, data.value) ==> |o.msgs| == |w.msgs| + 1 && o.msgs[..|w.msgs|] == w.msgs) &&
            (!(data.Some? && Delivers(w, s, data.value)) ==> o.msgs == w.msgs) &&
            (UniqueIds(w.convs) ==> UniqueIds(o.convs))
  {
    if data.Some? && data.value.receiverId in w.users {
      var p := data.value;
      ResolveBySender(w.convs, w.owners, s, p.receiverId, p.businessId);
      var res := Resolve(w.convs, w.owners, s, p.receiverId, p.businessId);
      AfterResolveSavesAtMostOne(w.(convs := res.convs), s, p, res.index);
    }
  }

  /** A send that does not deliver saves nothing and tells only the sender, with a `message-error`. */
  lemma {:induction false} FailedSendTellsOnlySender(w: World, s: Session, data: Option<SendPayload>)
    requires !(data.Some? && Delivers(w, s, data.value))
    ensures var o := SendSpec(w, s, data);
            o.msgs == w.msgs &&
            forall k :: 0 <= k < |o.steps| && o.steps[k].Emit? ==>
              o.steps[k].target == ToSocket(s.socketId) && o.steps[k].event.MessageError?
  {
    var o := SendSpec(w, s, data);
    if data.Some? && data.value.receiverId in w.users {
      var p := data.value;
      var res := Resolve(w.convs, w.owners, s, p.receiverId, p.businessId);
      var after := AfterResolve(w.(convs := res.convs), s, p, res.index);
      AfterResolveSavesAtMostOne(w.(convs := res.convs), s, p, res.index);
      var pre := [Did(LookupUser(p.receiverId))] + res.ops;
      assert o.steps == pre + after.steps;
      assert forall k :: 0 <= k < |pre| ==> pre[k].Did?;
      forall k | 0 <= k < |o.steps| && o.steps[k].Emit?
        ensures o.steps[k].target == ToSocket(s.socketId) && o.steps[k].event.MessageError?
      {
        assert o.steps[k] == after.steps[k - |pre|];
      }
    }
  }

  /** At position `k` of `steps` come, in this order, the save of `m`, the update of its
      conversation's last message, the increment of the receiver's unread counter and the
      acknowledgement to socket `me`; only store calls come before and only pushes of `m` after. */
  predicate AckedAt(steps: seq<Step>, k: nat, me: SocketId, m: Message) {
    k + 4 <= |steps| &&
    steps[k] == Did(SaveMsg(m.conversationId)) &&
    steps[k + 1] == Did(UpdateLast(m.conversationId, m.id)) &&
    steps[k + 2] == Did(IncrementUnread(m.conversationId, m.receiver)) &&
    steps[k + 3] == Emit(ToSocket(me), MessageSent(m, m.conversationId)) &&
    (forall j :: 0 <= j < k ==> steps[j].Did?) &&
    (forall j :: k + 4 <= j < |steps| ==>
       steps[j].Emit? && (steps[j].event.NewMessage? || steps[j].event.BusinessMessage?) && steps[j].event.message == m)
  }

  /** A delivered message is saved, then the conversation's last message is updated, then the
      receiver's unread counter is incremented, then the sender is acknowledged, whether or not
      the receiver is connected. */
  lemma {:induction false} SendPersistsBeforeAck(w: World, s: Session, p: SendPayload)
    requires Delivers(w, s, p)
    ensures var o := SendSpec(w, s, Some(p));
            exists k :: AckedAt(o.steps, k, s.socketId, o.msgs[|w.msgs|])
  {
    var o := SendSpec(w, s, Some(p));
    var res := Resolve(w.convs, w.owners, s, p.receiverId, p.businessId);
    SendSavesOnlyOnDelivery(w, s, Some(p));
    var m := o.msgs[|w.msgs|];
    var pre := [Did(LookupUser(p.receiverId))] + res.ops;
    var fan := Fanout(w.online, w.users[p.receiverId], s, p, m, m.conversationId);
    FanoutTargets(w.online, w.users[p.receiverId], s, p, m, m.conversationId);
    assert o.steps == pre + (Persist(s.socketId, m) + fan);
    assert forall j :: 0 <= j < |res.ops| ==> res.ops[j].Did?;
    AckedAfterLookups(pre, s.socketId, m, fan);
  }

  lemma {:induction false} AckedAfterLookups(pre: seq<Step>, me: SocketId, m: Message, fan: seq<Step>)
    requires forall j :: 0 <= j < |pre| ==> pre[j].Did?
    requires forall j :: 0 <= j < |fan| ==>
               fan[j].Emit? && (fan[j].event.NewMessage? || fan[j].event.BusinessMessage?) && fan[j].event.message == m
    ensures AckedAt(pre + (Persist(me, m) + fan), |pre|, me, m)
  {
    var steps := pre + (Persist(me, m) + fan);
    forall j | |pre| + 4 <= j < |steps|
      ensures steps[j] == fan[j - |pre| - 4]
    {
    }
  }

  /** The receiver's socket gets `new-message` exactly when the receiver is connected,
      and the business room gets `business-message` exactly when the receiver is a business. */
  lemma {:induction false} SendFansOut(w: World, s: Session, p: SendPayload)
    requires Delivers(w, s, p)
    ensures var o := SendSpec(w, s, Some(p));
            var m := o.msgs[|w.msgs|];
            (PushesNewMessage(o.steps) <==> p.receiverId in w.online) &&
            (PushesBusinessMessage(o.steps) <==> w.users[p.receiverId].userType == Business) &&
            (p.receiverId in w.online ==> Emit(ToSocket(w.online[p.receiverId]), NewMessage(m, m.conversationId, s.user)) in o.steps) &&
            (w.users[p.receiverId].userType == Business ==>
               Emit(ToRoom("business_" + p.businessId), BusinessMessage(m, m.conversationId, s.user)) in o.steps)
  {
    var o := SendSpec(w, s, Some(p));
    var res := Resolve(w.convs, w.owners, s, p.receiverId, p.businessId);
    var after := AfterResolve(w.(convs := res.convs), s, p, res.index);
    var look := [Did(LookupUser(p.receiverId))];
    assert o.steps == look + (res.ops + after.steps);
    var m := o.msgs[|w.msgs|];
    var fan := Fanout(w.online, w.users[p.receiverId], s, p, m, m.conversationId);
    assert after.steps == Persist(s.socketId, m) + fan;
    FanoutTargets(w.online, w.users[p.receiverId], s, p, m, m.conversationId);
    PushesAfterQuietPrefix(Persist(s.socketId, m), fan);
    PushesAfterQuietPrefix(res.ops, after.steps);
    PushesAfterQuietPrefix(look, res.ops + after.steps);
  }

  /** Pushes of a message in `a + b` are those in `b` when `a` holds none. */
  lemma {:induction false} PushesAfterQuietPrefix(a: seq<Step>, b: seq<Step>)
    requires forall j :: 0 <= j < |a| ==> !(a[j].Emit? && (a[j].event.NewMessage? || a[j].event.BusinessMessage?))
    ensures PushesNewMessage(a + b) <==> PushesNewMessage(b)
    ensures PushesBusinessMessage(a + b) <==> PushesBusinessMessage(b)
  {
    if PushesNewMessage(a + b) {
      var k :| 0 <= k < |a + b| && (a + b)[k].Emit? && (a + b)[k].event.NewMessage?;
      assert b[k - |a|] == (a + b)[k];
    }
    if PushesNewMessage(b) {
      var k :| 0 <= k < |b| && b[k].Emit? && b[k].event.NewMessage?;
      assert (a + b)[k + |a|] == b[k];
    }
    if PushesBusinessMessage(a + b) {
      var k :| 0 <= k < |a + b| && (a + b)[k].Emit? && (a + b)[k].event.BusinessMessage?;
      assert b[k - |a|] == (a + b)[k];
    }
    if PushesBusinessMessage(b) {
      var k :| 0 <= k < |b| && b[k].Emit? && b[k].event.BusinessMessage?;
      assert (a + b)[k + |a|] == b[k];
    }
  }

  // ---------------------------------------------------------------------------
  // mark-read

  datatype ReadPayload = ReadPayload(messageId: MessageId, conversationId: ConvId)

  /** The whole `mark-read` handler on values, at time `now`. */
  function MarkReadSpec(w: World, s: Session, data: Option<ReadPayload>, now: int): (o: Outcome)
    ensures data.None? ==> o == Outcome([Emit(ToSocket(s.socketId), MarkReadError(InvalidData))], w.convs, w.msgs)
    ensures data.Some? && data.value.messageId >= |w.msgs| ==>
              o == Outcome([Did(LookupMessage(data.value.messageId)), Emit(ToSocket(s.socketId), MarkReadError(MessageNotFound))], w.convs, w.msgs)
  {
    var me := ToSocket(s.socketId);
    if data.None? then Outcome([Emit(me, MarkReadError(InvalidData))], w.convs, w.msgs)
    else
      var id := data.value.messageId;
      var look := [Did(LookupMessage(id))];
      if id >= |w.msgs| then Outcome(look + [Emit(me, MarkReadError(MessageNotFound))], w.convs, w.msgs)
      else if w.msgs[id].receiver != s.userId then Outcome(look, w.convs, w.msgs)
      else
        var r := ReceiverReads(w, s, id, data.value.conversationId, now);
        Outcome(look + r.steps, r.convs, r.msgs)
  }

  /** Lines 222-242 of `mark-read`, once the caller is known to be the receiver of message `id`. */
  function ReceiverReads(w: World, s: Session, id: MessageId, cid: ConvId, now: int): (o: Outcome)
    requires id < |w.msgs|
    ensures |o.msgs| == |w.msgs| && o.msgs[id].isRead
    ensures forall j :: 0 <= j < |w.msgs| && j != id ==> o.msgs[j] == w.msgs[j]
    ensures |o.convs| == |w.convs|
    ensures |o.steps| >= 3 && o.steps[0] == Did(MarkMessageRead(id))
    ensures o.steps[|o.steps| - 1] == Emit(ToSocket(s.socketId), MarkReadSuccess(id, cid))
  {
    var m := MarkedRead(w.msgs[id], now);
    var found := FindConversation(w.convs, cid);
    var reset := if found.Some? then [Did(LookupConversation(cid)), Did(ResetUnread(cid, s.userId))] else [Did(LookupConversation(cid))];
    var convs := if found.Some? then w.convs[found.value := Reset(w.convs[found.value], s.userId)] else w.convs;
    var notify := if m.sender in w.online then [Emit(ToSocket(w.online[m.sender]), MessageRead(id, cid, s.userId, m.readAt))] else [];
    Outcome([Did(MarkMessageRead(id))] + reset + notify + [Emit(ToSocket(s.socketId), MarkReadSuccess(id, cid))],
            convs, w.msgs[id := m])
  }

  /** Mark-read changes no message but the one named, and keeps every conversation id in place. */
  lemma MarkReadChangesOnlyItsMessage(w: World, s: Session, data: Option<ReadPayload>, now: int)
    ensures var o := MarkReadSpec(w, s, data, now);
            |o.msgs| == |w.msgs| && |o.convs| == |w.convs| &&
            (forall j :: 0 <= j < |w.convs| ==> o.convs[j].id == w.convs[j].id) &&
            (forall j :: 0 <= j < |w.msgs| && (data.None? || j != data.value.messageId) ==> o.msgs[j] == w.msgs[j])
  {
  }

  /** A caller who is not the message's receiver gets no event at all and changes nothing. */
  lemma MarkReadIgnoresNonReceiver(w: World, s: Session, p: ReadPayload, now: int)
    requires p.messageId < |w.msgs| && w.msgs[p.messageId].receiver != s.userId
    ensures var o := MarkReadSpec(w, s, Some(p), now);
            o.convs == w.convs && o.msgs == w.msgs &&
            forall k :: 0 <= k < |o.steps| ==> o.steps[k].Did?
  {
  }

  /** For the receiver: the message is marked read first, the conversation's counter is
      reset next, the sender hears of it only when connected, and the success event comes last. */
  lemma {:induction false} MarkReadByReceiver(w: World, s: Session, p: ReadPayload, now: int)
    requires p.messageId < |w.msgs| && w.msgs[p.messageId].receiver == s.userId
    ensures var o := MarkReadSpec(w, s, Some(p), now);
            o.msgs[p.messageId].isRead &&
            |o.steps| >= 4 &&
            o.steps[1] == Did(MarkMessageRead(p.messageId)) &&
            o.steps[2] == Did(LookupConversation(p.conversationId)) &&
            o.steps[|o.steps| - 1] == Emit(ToSocket(s.socketId), MarkReadSuccess(p.messageId, p.conversationId)) &&
            (PushesMessageRead(o.steps) <==> w.msgs[p.messageId].sender in w.online) &&
            (w.msgs[p.messageId].sender in w.online ==>
               Emit(ToSocket(w.online[w.msgs[p.messageId].sender]),
                    MessageRead(p.messageId, p.conversationId, s.userId, o.msgs[p.messageId].readAt)) in o.steps) &&
            (forall k :: 0 <= k < |o.steps| && o.steps[k].Emit? && o.steps[k].event.MessageRead? ==>
               w.msgs[p.messageId].sender in w.online && o.steps[k].target == ToSocket(w.online[w.msgs[p.messageId].sender]))
  {
    var o := MarkReadSpec(w, s, Some(p), now);
    var m := MarkedRead(w.msgs[p.messageId], now);
    var found := FindConversation(w.convs, p.conversationId);
    var n := if found.Some? then 4 else 3;
    assert forall j :: 0 <= j < n ==> o.steps[j].Did?;
    if m.sender in w.online {
      assert o.steps[n] == Emit(ToSocket(w.online[m.sender]), MessageRead(p.messageId, p.conversationId, s.userId, m.readAt));
      assert |o.steps| == n + 2;
    } else {
      assert |o.steps| == n + 1;
    }
  }

  /** When the conversation is found and the reader takes part in it, the reader's unread count becomes zero. */
  lemma {:induction false} MarkReadClearsReadersCount(w: World, s: Session, p: ReadPayload, now: int)
    requires p.messageId < |w.msgs| && w.msgs[p.messageId].receiver == s.userId
    requires FindConversation(w.convs, p.conversationId).Some?
    requires w.convs[FindConversation(w.convs, p.conversationId).value].HasParticipant(s.userId)
    ensures var o := MarkReadSpec(w, s, Some(p), now);
            UnreadFor(o.convs[FindConversation(w.convs, p.conversationId).value], s.userId) == 0
  {
    var i := FindConversation(w.convs, p.conversationId).value;
    ResetClearsReader(w.convs[i], s.userId);
  }

  // ---------------------------------------------------------------------------
  // typing-start / typing-stop

  datatype TypingPayload = TypingPayload(receiverId: Option<UserId>, businessId: Option<BusinessId>, conversationId: Option<ConvId>)

  /** The typing signal: forwarded to the receiver's socket only when the payload
      names a receiver that is connected; otherwise nothing is emitted. */
  function TypingSteps(online: map<UserId, SocketId>, s: Session, data: Option<TypingPayload>, started: bool): (r: seq<Step>)
    ensures |r| <= 1
    ensures |r| == 1 <==> data.Some? && Present(data.value.receiverId) && data.value.receiverId.value in online
    ensures |r| == 1 ==> r[0].Emit? && r[0].target == ToSocket(online[data.value.receiverId.value])
    ensures |r| == 1 && started ==>
              r[0].event == UserTyping(s.userId, s.user.firstName + " " + s.user.lastName, data.value.businessId, data.value.conversationId)
    ensures |r| == 1 && !started ==>
              r[0].event == UserStoppedTyping(s.userId, data.value.businessId, data.value.conversationId)
  {
    if data.None? || !Present(data.value.receiverId) || data.value.receiverId.value !in online then []
    else
      var d := data.value;
      var ev := if started then UserTyping(s.userId, s.user.firstName + " " + s.user.lastName, d.businessId, d.conversationId)
                else UserStoppedTyping(s.userId, d.businessId, d.conversationId);
      [Emit(ToSocket(online[d.receiverId.value]), ev)]
  }

  /** Appending steps in two goes is appending them in one. */
  lemma StepsAssoc(a: seq<Step>, b: seq<Step>, c: seq<Step>)
    ensures a + b + c == a + (b + c)
  {
  }

  lemma StepsAssoc4(a: seq<Step>, b: seq<Step>, c: seq<Step>, d: seq<Step>, e: seq<Step>)
    ensures a + b + c + d + e == a + (b + c + d + e)
  {
  }

  // ---------------------------------------------------------------------------
  // The server

  class SocketServer {
    const store: Store
    var connectedUsers: map<UserId, SocketId>
    var userSockets: map<SocketId, UserId>
    var trace: seq<Step>

    constructor (store: Store)
      ensures this.store == store && connectedUsers == map[] && userSockets == map[] && trace == []
    {
      this.store := store;
      connectedUsers := map[];
      userSockets := map[];
      trace := [];
    }

    function Presence(): Registry
      reads this`connectedUsers, this`userSockets
    {
      Registry(connectedUsers, userSockets)
    }

    function Snapshot(): World
      reads this`connectedUsers, store
    {
      World(store.users, store.owners, store.conversations, store.messages, connectedUsers)
    }

    /** `isUserOnline(userId)`. */
    function IsUserOnline(u: UserId): (r: bool)
      reads this
      ensures r <==> Presence().IsOnline(u)
    {
      u in connectedUsers
    }

    /** `getConnectedUsers()`: the users with a registered socket. */
    function GetConnectedUsers(): (r: set<UserId>)
      reads this
      ensures forall u :: u in r <==> IsUserOnline(u)
    {
      connectedUsers.Keys
    }

    /** The `connection` handler's registry update. */
    method Connect(s: Session)
      modifies this
      ensures Presence() == old(Presence()).Connect(s.userId, s.socketId)
      ensures trace == old(trace)
    {
      connectedUsers := connectedUsers[s.userId := s.socketId];
      userSockets := userSockets[s.socketId := s.userId];
    }

    /** The `disconnect` handler: unregister, then tell every other socket the user is offline. */
    method Disconnect(s: Session)
      modifies this
      ensures Presence() == old(Presence()).Disconnect(s.userId, s.socketId)
      ensures trace == old(trace) + [Emit(AllBut(s.socketId), UserStatusChange(s.userId, Str("offline"), s.user.userType))]
    {
      connectedUsers := connectedUsers - {s.userId};
      userSockets := userSockets - {s.socketId};
      trace := trace + [Emit(AllBut(s.socketId), UserStatusChange(s.userId, Str("offline"), s.user.userType))];
    }

    /** The `user-status` handler: the status is broadcast as given. */
    method UserStatus(s: Session, status: Value)
      modifies this
      ensures Presence() == old(Presence())
      ensures trace == old(trace) + [Emit(AllBut(s.socketId), UserStatusChange(s.userId, status, s.user.userType))]
    {
      trace := trace + [Emit(AllBut(s.socketId), UserStatusChange(s.userId, status, s.user.userType))];
    }

    /** `sendNotificationToUser(userId, event, data)`: emitted only to a connected user. */
    method NotifyUser(u: UserId, name: string, data: Value)
      modifies this
      ensures Presence() == old(Presence())
      ensures u in connectedUsers ==> trace == old(trace) + [Emit(ToSocket(connectedUsers[u]), Notification(name, data))]
      ensures u !in connectedUsers ==> trace == old(trace)
    {
      if u in connectedUsers {
        trace := trace + [Emit(ToSocket(connectedUsers[u]), Notification(name, data))];
      }
    }

    /** `typing-start` (`started`) and `typing-stop`. */
    method Typing(s: Session, data: Option<TypingPayload>, started: bool)
      modifies this
      ensures Presence() == old(Presence())
      ensures trace == old(trace) + TypingSteps(connectedUsers, s, data, started)
    {
      if data.None? {
        return;
      }
      var d := data.value;
      if !Present(d.receiverId) {
        return;
      }
      if d.receiverId.value in connectedUsers {
        var ev := if started then UserTyping(s.userId, s.user.firstName + " " + s.user.lastName, d.businessId, d.conversationId)
                  else UserStoppedTyping(s.userId, d.businessId, d.conversationId);
        trace := trace + [Emit(ToSocket(connectedUsers[d.receiverId.value]), ev)];
      }
    }

    /** The `send-message` handler. */
    method SendMessage(s: Session, data: Option<SendPayload>)
      requires store.Valid()
      modifies this, store
      ensures store.Valid()
      ensures Presence() == old(Presence())
      ensures store.users == old(store.users) && store.owners == old(store.owners)
      ensures var o := SendSpec(old(Snapshot()), s, data);
              trace == old(trace) + o.steps && store.conversations == o.convs && store.messages == o.msgs
    {
      var me := ToSocket(s.socketId);
      if data.None? {
        trace := trace + [Emit(me, MessageError(InvalidMessageData))];
        return;
      }
      var p := data.value;
      trace := trace + [Did(LookupUser(p.receiverId))];
      if p.receiverId !in store.users {
        trace := trace + [Emit(me, MessageError(ReceiverNotFound))];
        return;
      }
      ghost var t0 := old(trace);
      ProceedWith(s, p);
      ghost var o := Proceed(old(Snapshot()), s, p);
      StepsAssoc(t0, [Did(LookupUser(p.receiverId))], o.steps);
    }

    /** Lines 106-191: resolve the conversation, then deliver. */
    method ProceedWith(s: Session, p: SendPayload)
      requires store.Valid() && p.receiverId in store.users
      modifies this, store
      ensures store.Valid()
      ensures Presence() == old(Presence())
      ensures store.users == old(store.users) && store.owners == old(store.owners)
      ensures var o := Proceed(old(Snapshot()), s, p);
              trace == old(trace) + o.steps && store.conversations == o.convs && store.messages == o.msgs
    {
      ghost var w := Snapshot();
      var index := ResolveConversation(s, p.receiverId, p.businessId);
      ghost var res := Resolve(w.convs, w.owners, s, p.receiverId, p.businessId);
      ghost var t0 := trace;
      assert Snapshot() == w.(convs := res.convs);
      Deliver(s, p, index);
    }

    /** Lines 134-191 of `send-message`: save, update the conversation, acknowledge, fan out. */
    method Deliver(s: Session, p: SendPayload, index: Option<nat>)
      requires store.Valid() && p.receiverId in store.users
      requires index.Some? ==> index.value < |store.conversations|
      modifies this, store
      ensures store.Valid()
      ensures Presence() == old(Presence())
      ensures store.users == old(store.users) && store.owners == old(store.owners)
      ensures var o := AfterResolve(old(Snapshot()), s, p, index);
              trace == old(trace) + o.steps && store.conversations == o.convs && store.messages == o.msgs
    {
      ghost var w := Snapshot();
      ghost var o := AfterResolve(w, s, p, index);
      if index.None? {
        trace := trace + [Emit(ToSocket(s.socketId), MessageError(FailedToSend))];
        return;
      }
      var receiver := store.users[p.receiverId];
      var cid := store.conversations[index.value].id;
      var saved := SaveAndAcknowledge(s, p, index.value);
      if saved.Some? {
        ghost var t0 := trace;
        PushMessage(s, p, receiver, saved.value, cid);
        assert trace == t0 + Fanout(w.online, receiver, s, p, saved.value, cid);
      }
    }

    /** Lines 134-160: the message is saved before the conversation is updated, and the
        sender is acknowledged last; an empty message fails to save and changes nothing. */
    method SaveAndAcknowledge(s: Session, p: SendPayload, i: nat) returns (saved: Option<Message>)
      requires store.Valid() && i < |store.conversations|
      modifies this, store
      ensures store.Valid()
      ensures Presence() == old(Presence())
      ensures store.users == old(store.users) && store.owners == old(store.owners)
      ensures var cid := old(store.conversations)[i].id;
              var m := CreatedMessage(|old(store.messages)|, cid, s.userId, p.receiverId, p.businessId, p.content, p.messageType, p.attachments);
              if p.content == "" then
                saved.None? && store.messages == old(store.messages) && store.conversations == old(store.conversations) &&
                trace == old(trace) + [Did(SaveMsg(cid)), Emit(ToSocket(s.socketId), MessageError(FailedToSend))]
              else
                saved == Some(m) && store.messages == old(store.messages) + [m] &&
                store.conversations == old(store.conversations)[i := Incremented(WithLastMessage(old(store.conversations)[i], m.id, p.content), p.receiverId)] &&
                trace == old(trace) + Persist(s.socketId, m)
    {
      var me := ToSocket(s.socketId);
      var cid := store.conversations[i].id;
      trace := trace + [Did(SaveMsg(cid))];
      var id := store.SaveMessage(cid, s.userId, p.receiverId, p.businessId, p.content, p.messageType, p.attachments);
      if id.None? {
        trace := trace + [Emit(me, MessageError(FailedToSend))];
        return None;
      }
      var m := store.messages[id.value];
      trace := trace + [Did(UpdateLast(cid, m.id))];
      store.UpdateLastMessage(i, m.id, p.content);
      trace := trace + [Did(IncrementUnread(cid, p.receiverId))];
      store.IncrementUnreadCount(i, p.receiverId);
      trace := trace + [Emit(me, MessageSent(m, cid))];
      saved := Some(m);
    }

    /** Lines 163-191: the push to the receiver's socket and to the business room. */
    method PushMessage(s: Session, p: SendPayload, receiver: User, m: Message, cid: ConvId)
      modifies this
      ensures Presence() == old(Presence())
      ensures trace == old(trace) + Fanout(connectedUsers, receiver, s, p, m, cid)
    {
      if p.receiverId in connectedUsers {
        trace := trace + [Emit(ToSocket(connectedUsers[p.receiverId]), NewMessage(m, cid, s.user))];
      }
      if receiver.userType == Business {
        trace := trace + [Emit(ToRoom("business_" + p.businessId), BusinessMessage(m, cid, s.user))];
      }
    }

    /** Steps 108-124 of `send-message`: the conversation the message is filed under. */
    method ResolveConversation(s: Session, receiver: UserId, b: BusinessId) returns (index: Option<nat>)
      requires store.Valid()
      modifies this, store
      ensures store.Valid()
      ensures Presence() == old(Presence())
      ensures store.users == old(store.users) && store.owners == old(store.owners) && store.messages == old(store.messages)
      ensures var r := Resolve(old(store.conversations), store.owners, s, receiver, b);
              index == r.index && store.conversations == r.convs && trace == old(trace) + r.ops
    {
      if s.user.userType == Business {
        trace := trace + [Did(LookupOwnedConversation(b, s.userId))];
        index := FindByOwner(store.conversations, b, s.userId);
        if index.None? {
          trace := trace + [Did(FindOrCreateConv(receiver, b))];
          index := store.FindOrCreateConversation(receiver, b);
        }
      } else {
        trace := trace + [Did(FindOrCreateConv(s.userId, b))];
        index := store.FindOrCreateConversation(s.userId, b);
      }
    }

    /** The `mark-read` handler, at time `now`. */
    method MarkRead(s: Session, data: Option<ReadPayload>, now: int)
      requires store.Valid()
      modifies this, store
      ensures store.Valid()
      ensures Presence() == old(Presence())
      ensures store.users == old(store.users) && store.owners == old(store.owners)
      ensures var o := MarkReadSpec(old(Snapshot()), s, data, now);
              trace == old(trace) + o.steps && store.conversations == o.convs && store.messages == o.msgs
    {
      ghost var w := Snapshot();
      ghost var o := MarkReadSpec(w, s, data, now);
      var me := ToSocket(s.socketId);
      if data.None? {
        trace := trace + [Emit(me, MarkReadError(InvalidData))];
        return;
      }
      var id := data.value.messageId;
      var cid := data.value.conversationId;
      trace := trace + [Did(LookupMessage(id))];
      if id >= |store.messages| {
        trace := trace + [Emit(me, MarkReadError(MessageNotFound))];
        return;
      }
      if store.messages[id].receiver != s.userId {
        return;
      }
      ReadAsReceiver(s, id, cid, now);
      StepsAssoc(old(trace), [Did(LookupMessage(id))], ReceiverReads(w, s, id, cid, now).steps);
    }

    /** Lines 222-242: mark the message read, reset the reader's counter, tell the sender, confirm. */
    method ReadAsReceiver(s: Session, id: MessageId, cid: ConvId, now: int)
      requires store.Valid() && id < |store.messages|
      modifies this, store
      ensures store.Valid()
      ensures Presence() == old(Presence())
      ensures store.users == old(store.users) && store.owners == old(store.owners)
      ensures var o := ReceiverReads(old(Snapshot()), s, id, cid, now);
              trace == old(trace) + o.steps && store.conversations == o.convs && store.messages == o.msgs
    {
      ghost var w := Snapshot();
      ghost var o := ReceiverReads(w, s, id, cid, now);
      trace := trace + [Did(MarkMessageRead(id))];
      store.MarkAsRead(id, now);
      var m := store.messages[id];
      assert m == MarkedRead(w.msgs[id], now) && store.messages == o.msgs;
      ghost var t0 := trace;
      trace := trace + [Did(LookupConversation(cid))];
      var found := FindConversation(store.conversations, cid);
      if found.Some? {
        trace := trace + [Did(ResetUnread(cid, s.userId))];
        store.ResetUnreadCount(found.value, s.userId);
      }
      assert store.conversations == o.convs;
      ghost var t1 := trace;
      var notify: seq<Step> := [];
      if m.sender in connectedUsers {
        notify := [Emit(ToSocket(connectedUsers[m.sender]), MessageRead(id, cid, s.userId, m.readAt))];
      }
      ghost var reset := if found.Some? then [Did(LookupConversation(cid)), Did(ResetUnread(cid, s.userId))] else [Did(LookupConversation(cid))];
      assert t1 == t0 + reset;
      var last := [Emit(ToSocket(s.socketId), MarkReadSuccess(id, cid))];
      trace := trace + notify + last;
      StepsAssoc4(old(trace), [Did(MarkMessageRead(id))], reset, notify, last);
    }
  }
}
