/** The HTTP messaging routes: the caller's conversations, starting a
    conversation with a business, reading a conversation's messages, marking a
    message read, the caller's unread total and deleting a conversation for the
    caller only. The caller's id comes from the verified token; every handler
    works on the shared `Store`. */
module MessagingRoutes {
  import opened Common
  import opened ChatStore

  /** The JSON body a handler answers with: one success shape per route, or
      an error status with its message. */
  datatype Reply =
    | ConversationList(conversations: seq<Conversation>)
    | ConversationReady(conversation: Conversation)
    | MessageList(messages: seq<Message>)
    | UnreadCount(count: nat)
    | Success(message: string)
    | Refused(status: nat, message: string)

  const AccessDenied := Refused(403, "Access denied to this conversation")

  // ---------------------------------------------------------------------------
  // GET /conversations

  /** The caller's conversations, as `getUserConversations` returns them. */
  function ListConversations(convs: seq<Conversation>, u: UserId): (r: Reply)
    ensures r.ConversationList?
    ensures forall c :: c in r.conversations <==> c in convs && c.isActive && c.HasParticipant(u)
  {
    ConversationList(ActiveConversationsOf(convs, u))
  }

  // ---------------------------------------------------------------------------
  // POST /conversations/:businessId/start

  /** The caller is always passed as the customer; a business without a known
      owner makes `findOrCreateConversation` throw, answered with 500. */
  method StartConversation(store: Store, u: UserId, b: BusinessId) returns (r: Reply)
    requires store.Valid()
    modifies store
    ensures store.Valid()
    ensures var f := FindOrCreate(old(store.conversations), store.owners, u, b);
            store.conversations == f.convs &&
            r == if f.index.Some? then ConversationReady(f.convs[f.index.value])
                 else Refused(500, "Failed to start conversation")
    ensures r.ConversationReady? ==> r.conversation.id == ConvId(u, b)
    ensures store.users == old(store.users) && store.owners == old(store.owners) && store.messages == old(store.messages)
  {
    var index := store.FindOrCreateConversation(u, b);
    if index.Some? {
      r := ConversationReady(store.conversations[index.value]);
    } else {
      r := Refused(500, "Failed to start conversation");
    }
  }

  // ---------------------------------------------------------------------------
  // GET /conversations/:conversationId/messages

  /** What the route answers: 403 unless the caller takes part in a
      conversation with that id, otherwise the messages the caller has not
      deleted, oldest first. */
  function MessagesReply(convs: seq<Conversation>, msgs: seq<Message>, u: UserId, cid: ConvId): (r: Reply)
    ensures r == AccessDenied <==> !exists j :: 0 <= j < |convs| && convs[j].id == cid && convs[j].HasParticipant(u)
    ensures r.MessageList? ==> forall m :: m in r.messages <==> m in msgs && m.conversationId == cid && u !in m.deletedFor
  {
    if FindParticipantConversation(convs, cid, u).None? then AccessDenied
    else MessageList(Visible(msgs, cid, u))
  }

  /** `messages.reverse()`: reverses the array in place. */
  method ReverseInPlace<T>(a: array<T>)
    modifies a
    ensures a[..] == Reverse(old(a[..]))
  {
    var lo, hi := 0, a.Length - 1;
    while lo < hi
      invariant 0 <= lo <= a.Length - lo && hi == a.Length - 1 - lo
      invariant forall k :: 0 <= k < lo ==> a[k] == old(a[a.Length - 1 - k]) && a[a.Length - 1 - k] == old(a[k])
      invariant forall k :: lo <= k <= hi ==> a[k] == old(a[k])
    {
      a[lo], a[hi] := a[hi], a[lo];
      lo, hi := lo + 1, hi - 1;
    }
  }

  lemma {:induction false} ReverseReverse<T>(s: seq<T>)
    ensures Reverse(Reverse(s)) == s
  {
    var r := Reverse(s);
    assert forall i :: 0 <= i < |s| ==> Reverse(r)[i] == r[|s| - 1 - i] == s[i];
  }

  /** The handler: the participant check, then `getConversationMessages`
      (newest first), reversed in place before it is sent. */
  method GetMessages(store: Store, u: UserId, cid: ConvId) returns (r: Reply)
    ensures r == MessagesReply(store.conversations, store.messages, u, cid)
  {
    if FindParticipantConversation(store.conversations, cid, u).None? {
      return AccessDenied;
    }
    var newest := NewestFirst(store.messages, cid, u);
    var a := new Message[|newest|](i requires 0 <= i < |newest| => newest[i]);
    assert a[..] == newest;
    ReverseInPlace(a);
    ReverseReverse(Visible(store.messages, cid, u));
    r := MessageList(a[..]);
  }

  /** Message ids grow along the sequence. */
  predicate IdsIncreasing(ms: seq<Message>) {
    forall i, j :: 0 <= i < j < |ms| ==> ms[i].id < ms[j].id
  }

  /** Filtering keeps the store's order. */
  lemma {:induction false} VisibleKeepsOrder(msgs: seq<Message>, cid: ConvId, u: UserId)
    requires IdsIncreasing(msgs)
    ensures IdsIncreasing(Visible(msgs, cid, u))
  {
    if msgs != [] {
      var rest := Visible(msgs[1..], cid, u);
      assert IdsIncreasing(msgs[1..]) by {
        forall i, j | 0 <= i < j < |msgs[1..]|
          ensures msgs[1..][i].id < msgs[1..][j].id
        {
          assert msgs[1..][i] == msgs[i + 1] && msgs[1..][j] == msgs[j + 1];
        }
      }
      VisibleKeepsOrder(msgs[1..], cid, u);
      if msgs[0].conversationId == cid && u !in msgs[0].deletedFor {
        forall m | m in rest
          ensures msgs[0].id < m.id
        {
          var k :| 0 <= k < |msgs[1..]| && msgs[1..][k] == m;
          assert msgs[k + 1] == m;
        }
        PrependKeepsOrder(msgs[0], rest);
      }
    }
  }

  /** A message older than every message of an ordered list can go in front. */
  lemma PrependKeepsOrder(x: Message, rest: seq<Message>)
    requires IdsIncreasing(rest)
    requires forall m :: m in rest ==> x.id < m.id
    ensures IdsIncreasing([x] + rest)
  {
    var v := [x] + rest;
    forall i, j | 0 <= i < j < |v|
      ensures v[i].id < v[j].id
    {
      assert v[j] == rest[j - 1];
      if i > 0 {
        assert v[i] == rest[i - 1];
      }
    }
  }

  /** Listing is refused, with no message, unless the caller takes part in the
      conversation; a participant gets exactly the conversation's messages not
      deleted for them, oldest first. */
  lemma MessagesOnlyForParticipants(convs: seq<Conversation>, msgs: seq<Message>, u: UserId, cid: ConvId)
    requires forall i :: 0 <= i < |msgs| ==> msgs[i].id == i
    ensures var r := MessagesReply(convs, msgs, u, cid);
            (r.MessageList? <==> exists j :: 0 <= j < |convs| && convs[j].id == cid && convs[j].HasParticipant(u))
            && (!r.MessageList? ==> r == Refused(403, "Access denied to this conversation"))
            && (r.MessageList? ==> IdsIncreasing(r.messages))
            && (r.MessageList? ==> forall m :: m in r.messages <==> m in msgs && m.conversationId == cid && u !in m.deletedFor)
  {
    var k := FindParticipantConversation(convs, cid, u);
    if k.Some? {
      assert convs[k.value].id == cid && convs[k.value].HasParticipant(u);
    }
    VisibleKeepsOrder(msgs, cid, u);
  }

  // ---------------------------------------------------------------------------
  // POST /mark-read

  /** The reply together with the conversations and messages afterwards. */
  datatype Effect = Effect(reply: Reply, convs: seq<Conversation>, msgs: seq<Message>)

  /** The mark-read ladder: not a participant (403), no such message (404),
      not the message's receiver (403); otherwise `markAsRead` on the message
      and then `resetUnreadCount` for the caller on the conversation found. */
  function MarkReadEffect(convs: seq<Conversation>, msgs: seq<Message>, u: UserId,
                          messageId: Option<MessageId>, cid: ConvId, now: int): (e: Effect)
    ensures |e.convs| == |convs| && |e.msgs| == |msgs|
    ensures !e.reply.Success? ==> e.convs == convs && e.msgs == msgs
    ensures e.reply.Success? ==> messageId.Some? && messageId.value < |msgs| && e.msgs[messageId.value].isRead
                                 && msgs[messageId.value].receiver == u
  {
    match FindParticipantConversation(convs, cid, u)
    case None => Effect(AccessDenied, convs, msgs)
    case Some(k) =>
      if messageId.None? || messageId.value >= |msgs| then Effect(Refused(404, "Message not found"), convs, msgs)
      else if msgs[messageId.value].receiver != u then
        Effect(Refused(403, "You can only mark messages you received as read"), convs, msgs)
      else
        Effect(Success("Message marked as read"),
               convs[k := Reset(convs[k], u)],
               msgs[messageId.value := MarkedRead(msgs[messageId.value], now)])
  }

  method MarkRead(store: Store, u: UserId, messageId: Option<MessageId>, cid: ConvId, now: int) returns (r: Reply)
    requires store.Valid()
    modifies store
    ensures store.Valid()
    ensures var e := MarkReadEffect(old(store.conversations), old(store.messages), u, messageId, cid, now);
            r == e.reply && store.conversations == e.convs && store.messages == e.msgs
    ensures store.users == old(store.users) && store.owners == old(store.owners)
  {
    var k := FindParticipantConversation(store.conversations, cid, u);
    if k.None? {
      return AccessDenied;
    }
    if messageId.None? || messageId.value >= |store.messages| {
      return Refused(404, "Message not found");
    }
    var id := messageId.value;
    if store.messages[id].receiver == u {
      store.MarkAsRead(id, now);
      store.ResetUnreadCount(k.value, u);
      r := Success("Message marked as read");
    } else {
      r := Refused(403, "You can only mark messages you received as read");
    }
  }

  /** The checks run in order: a non-participant is refused whatever the
      message id, a missing message before the receiver check, and nothing is
      written unless every check passes. */
  lemma MarkReadLadder(convs: seq<Conversation>, msgs: seq<Message>, u: UserId,
                       messageId: Option<MessageId>, cid: ConvId, now: int)
    ensures var e := MarkReadEffect(convs, msgs, u, messageId, cid, now);
            (FindParticipantConversation(convs, cid, u).None? ==> e.reply == Refused(403, "Access denied to this conversation"))
            && ((FindParticipantConversation(convs, cid, u).Some? && (messageId.None? || messageId.value >= |msgs|))
                  ==> e.reply == Refused(404, "Message not found"))
            && ((FindParticipantConversation(convs, cid, u).Some? && messageId.Some? && messageId.value < |msgs|
                 && msgs[messageId.value].receiver != u)
                  ==> e.reply == Refused(403, "You can only mark messages you received as read"))
            && (!e.reply.Success? ==> e.convs == convs && e.msgs == msgs)
            && (e.reply.Success? ==> messageId.Some? && messageId.value < |msgs| && msgs[messageId.value].receiver == u)
  {
  }

  /** A successful mark-read changes only the one message, which is then
      read, and the caller's counter on the conversation found, which is then 0. */
  lemma MarkReadTouchesOnlyTarget(convs: seq<Conversation>, msgs: seq<Message>, u: UserId,
                                  messageId: Option<MessageId>, cid: ConvId, now: int)
    requires MarkReadEffect(convs, msgs, u, messageId, cid, now).reply.Success?
    ensures var e := MarkReadEffect(convs, msgs, u, messageId, cid, now);
            var k := FindParticipantConversation(convs, cid, u).value;
            |e.msgs| == |msgs| && e.msgs[messageId.value].isRead
            && (forall j :: 0 <= j < |msgs| && j != messageId.value ==> e.msgs[j] == msgs[j])
            && |e.convs| == |convs| && UnreadFor(e.convs[k], u) == 0
            && (forall j :: 0 <= j < |convs| && j != k ==> e.convs[j] == convs[j])
  {
    var k := FindParticipantConversation(convs, cid, u).value;
    ResetClearsReader(convs[k], u);
  }

  /** The route never checks that the message belongs to the conversation in
      the request: the receiver of a message in one conversation can mark it
      read through another conversation they take part in, whose counter is the
      one reset. */
  lemma MarkReadAcceptsForeignMessage()
    ensures var other := NewConversation("carol", "bob", "cafe");
            var mine := NewConversation("carol", "bob", "shop").(unreadCustomer := Some(2));
            var m := CreatedMessage(0, other.id, "bob", "carol", "cafe", "hi", None, None);
            var e := MarkReadEffect([mine, other], [m], "carol", Some(0), mine.id, 7);
            m.conversationId != mine.id && e.reply.Success? && e.msgs[0].isRead
            && UnreadFor(e.convs[0], "carol") == 0 && e.convs[1] == other
  {
    var other := NewConversation("carol", "bob", "cafe");
    var mine := NewConversation("carol", "bob", "shop").(unreadCustomer := Some(2));
    assert FindParticipantConversation([mine, other], mine.id, "carol") == Some(0);
  }

  // ---------------------------------------------------------------------------
  // GET /unread-count

  /** The sum, over `cs`, of the counter the caller's role selects. */
  function UnreadTotal(cs: seq<Conversation>, u: UserId): (n: nat)
    ensures forall i :: 0 <= i < |cs| ==> UnreadFor(cs[i], u) <= n
    ensures n == 0 <==> forall i :: 0 <= i < |cs| ==> UnreadFor(cs[i], u) == 0
  {
    if cs == [] then 0 else UnreadFor(cs[0], u) + UnreadTotal(cs[1..], u)
  }

  lemma {:induction false} UnreadTotalAppend(a: seq<Conversation>, b: seq<Conversation>, u: UserId)
    ensures UnreadTotal(a + b, u) == UnreadTotal(a, u) + UnreadTotal(b, u)
  {
    if a == [] {
      assert a + b == b;
    } else {
      assert (a + b)[1..] == a[1..] + b;
      UnreadTotalAppend(a[1..], b, u);
    }
  }

  /** The caller's unread total over the whole store: the active conversations they take part in. */
  function Unread(convs: seq<Conversation>, u: UserId): (n: nat)
    ensures forall c :: c in convs && c.isActive ==> UnreadFor(c, u) <= n
    ensures n == 0 <==> forall c :: c in convs && c.isActive ==> UnreadFor(c, u) == 0
  {
    var cs := ActiveConversationsOf(convs, u);
    assert forall c :: c in cs <==> c in convs && c.isActive && c.HasParticipant(u);
    UnreadTotal(cs, u)
  }

  /** The handler: `Conversation.find({ participants, isActive: true })`, then
      a loop adding the customer's counter when the caller is the customer, else
      the owner's counter when the caller is the owner, a missing counter as 0. */
  method GetUnreadCount(store: Store, u: UserId) returns (r: Reply)
    ensures r == UnreadCount(Unread(store.conversations, u))
  {
    var cs := ActiveConversationsOf(store.conversations, u);
    var unreadCount := 0;
    var i := 0;
    while i < |cs|
      invariant 0 <= i <= |cs|
      invariant unreadCount == UnreadTotal(cs[..i], u)
    {
      var conv := cs[i];
      UnreadTotalAppend(cs[..i], [conv], u);
      assert cs[..i + 1] == cs[..i] + [conv];
      if conv.customer == u {
        unreadCount := unreadCount + (if conv.unreadCustomer.Some? then conv.unreadCustomer.value else 0);
      } else if conv.businessOwner == u {
        unreadCount := unreadCount + (if conv.unreadOwner.Some? then conv.unreadOwner.value else 0);
      }
      i := i + 1;
    }
    assert cs[..i] == cs;
    r := UnreadCount(unreadCount);
  }

  /** Replacing one conversation by another with the same participants and
      activity moves the caller's total by the difference of their counters. */
  lemma {:induction false} UnreadAfterUpdate(convs: seq<Conversation>, i: nat, c: Conversation, u: UserId)
    requires i < |convs|
    requires c.isActive == convs[i].isActive && c.customer == convs[i].customer && c.businessOwner == convs[i].businessOwner
    ensures convs[i].isActive ==> Unread(convs[i := c], u) + UnreadFor(convs[i], u) == Unread(convs, u) + UnreadFor(c, u)
    ensures !convs[i].isActive ==> Unread(convs[i := c], u) == Unread(convs, u)
  {
    var after := convs[i := c];
    if i == 0 {
      assert after[1..] == convs[1..];
    } else {
      assert after[1..] == convs[1..][i - 1 := c];
      UnreadAfterUpdate(convs[1..], i - 1, c, u);
    }
  }

  /** Each message sent to `u` in an active conversation adds exactly one to `u`'s total. */
  lemma SendRaisesReceiverTotal(convs: seq<Conversation>, i: nat, u: UserId)
    requires i < |convs| && convs[i].isActive && convs[i].HasParticipant(u)
    ensures Unread(convs[i := Incremented(convs[i], u)], u) == Unread(convs, u) + 1
  {
    UnreadAfterUpdate(convs, i, Incremented(convs[i], u), u);
  }

  /** A reset for `u` removes exactly that conversation's counter from `u`'s total. */
  lemma ReadRemovesConversationFromTotal(convs: seq<Conversation>, i: nat, u: UserId)
    requires i < |convs| && convs[i].HasParticipant(u)
    ensures convs[i].isActive ==> Unread(convs[i := Reset(convs[i], u)], u) == Unread(convs, u) - UnreadFor(convs[i], u)
    ensures !convs[i].isActive ==> Unread(convs[i := Reset(convs[i], u)], u) == Unread(convs, u)
  {
    ResetClearsReader(convs[i], u);
    UnreadAfterUpdate(convs, i, Reset(convs[i], u), u);
  }

  // ---------------------------------------------------------------------------
  // DELETE /conversations/:conversationId

  /** Every message of conversation `cid` soft-deleted for `u`; the others as they were. */
  function SoftDeleteConversation(msgs: seq<Message>, cid: ConvId, u: UserId): (r: seq<Message>)
    ensures |r| == |msgs|
    ensures forall i :: 0 <= i < |msgs| ==>
              r[i] == if msgs[i].conversationId == cid then SoftDeleted(msgs[i], u) else msgs[i]
  {
    if msgs == [] then []
    else [if msgs[0].conversationId == cid then SoftDeleted(msgs[0], u) else msgs[0]]
         + SoftDeleteConversation(msgs[1..], cid, u)
  }

  /** The handler: 404 unless the caller takes part in the conversation; then
      `softDeleteForUser(caller)` on every message of the conversation. */
  method DeleteConversation(store: Store, u: UserId, cid: ConvId) returns (r: Reply)
    requires store.Valid()
    modifies store
    ensures store.Valid()
    ensures FindParticipantConversation(old(store.conversations), cid, u).None? ==>
              r == Refused(404, "Conversation not found") && store.messages == old(store.messages)
    ensures FindParticipantConversation(old(store.conversations), cid, u).Some? ==>
              r == Success("Conversation deleted successfully")
              && store.messages == SoftDeleteConversation(old(store.messages), cid, u)
    ensures store.users == old(store.users) && store.owners == old(store.owners)
    ensures store.conversations == old(store.conversations)
  {
    if FindParticipantConversation(store.conversations, cid, u).None? {
      return Refused(404, "Conversation not found");
    }
    ghost var before := store.messages;
    var k := 0;
    while k < |store.messages|
      invariant store.Valid()
      invariant 0 <= k <= |store.messages| == |before|
      invariant forall j :: 0 <= j < k ==>
                  store.messages[j] == if before[j].conversationId == cid then SoftDeleted(before[j], u) else before[j]
      invariant forall j :: k <= j < |store.messages| ==> store.messages[j] == before[j]
      invariant store.users == old(store.users) && store.owners == old(store.owners)
      invariant store.conversations == old(store.conversations)
    {
      if store.messages[k].conversationId == cid {
        store.SoftDeleteForUser(k, u);
      }
      k := k + 1;
    }
    r := Success("Conversation deleted successfully");
  }

  /** Afterwards the caller sees none of the conversation's messages. */
  lemma {:induction false} DeleteEmptiesCallersView(msgs: seq<Message>, cid: ConvId, u: UserId)
    ensures Visible(SoftDeleteConversation(msgs, cid, u), cid, u) == []
  {
    if msgs != [] {
      var d := SoftDeleteConversation(msgs, cid, u);
      assert d[1..] == SoftDeleteConversation(msgs[1..], cid, u);
      DeleteEmptiesCallersView(msgs[1..], cid, u);
    }
  }

  /** Another user still sees the same messages, now carrying the caller's deletion mark. */
  lemma {:induction false} DeleteKeepsOthersView(msgs: seq<Message>, cid: ConvId, u: UserId, c: ConvId, v: UserId)
    requires v != u
    ensures Visible(SoftDeleteConversation(msgs, cid, u), c, v) == SoftDeleteConversation(Visible(msgs, c, v), cid, u)
  {
    if msgs != [] {
      var d := SoftDeleteConversation(msgs, cid, u);
      assert d == [d[0]] + SoftDeleteConversation(msgs[1..], cid, u);
      DeleteKeepsOthersView(msgs[1..], cid, u, c, v);
      var rest := Visible(msgs[1..], c, v);
      if msgs[0].conversationId == c && v !in msgs[0].deletedFor {
        assert Visible(msgs, c, v) == [msgs[0]] + rest;
        assert SoftDeleteConversation([msgs[0]] + rest, cid, u)[1..] == SoftDeleteConversation(rest, cid, u);
      } else {
        assert Visible(msgs, c, v) == rest;
      }
    }
  }

  /** The caller's view of every other conversation is unchanged. */
  lemma {:induction false} DeleteKeepsOtherConversations(msgs: seq<Message>, cid: ConvId, u: UserId, c: ConvId)
    requires c != cid
    ensures Visible(SoftDeleteConversation(msgs, cid, u), c, u) == Visible(msgs, c, u)
  {
    if msgs != [] {
      var d := SoftDeleteConversation(msgs, cid, u);
      assert d == [d[0]] + SoftDeleteConversation(msgs[1..], cid, u);
      DeleteKeepsOtherConversations(msgs[1..], cid, u, c);
    }
  }
}
