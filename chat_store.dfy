/** The persisted side of the messaging core: users, the business -> owner
    directory, conversations and messages, as the socket handlers and the
    messaging routes see them.

    The Conversation and Message models themselves are not part of this
    model; the operations the handlers call on them (findOrCreateConversation,
    updateLastMessage, incrementUnreadCount, resetUnreadCount, markAsRead,
    softDeleteForUser, getConversationMessages, getUserConversations) are given
    here the smallest behaviour the handlers rely on, stated once as functions
    on values and implemented by the methods of `Store`. */
module ChatStore {
  import opened Common

  type UserId = string
  type BusinessId = string
  type MessageId = nat

  datatype User = User(firstName: string, lastName: string, userType: UserType)

  /** A conversation id is computed from the (customer, business) pair, never drawn at random. */
  datatype ConvId = ConvId(customer: UserId, business: BusinessId)

  datatype Conversation = Conversation(
    id: ConvId,
    customer: UserId,
    businessOwner: UserId,
    businessId: BusinessId,
    lastMessage: Option<MessageId>,
    lastMessageContent: string,
    unreadCustomer: Option<nat>,
    unreadOwner: Option<nat>,
    isActive: bool)
  {
    /** `participants` holds exactly the customer and the business owner. */
    predicate HasParticipant(u: UserId) {
      u == customer || u == businessOwner
    }
  }

  datatype Message = Message(
    id: MessageId,
    conversationId: ConvId,
    sender: UserId,
    receiver: UserId,
    businessId: BusinessId,
    content: string,
    messageType: string,
    attachments: seq<string>,
    isRead: bool,
    readAt: Option<int>,
    deletedFor: set<UserId>)

  // ---------------------------------------------------------------------------
  // Conversation operations, on values

  /** Index of the first conversation with id `cid` (`Conversation.findOne({ conversationId })`). */
  function FindConversation(convs: seq<Conversation>, cid: ConvId): (r: Option<nat>)
    ensures r.Some? ==> r.value < |convs| && convs[r.value].id == cid
    ensures r.Some? ==> forall j :: 0 <= j < r.value ==> convs[j].id != cid
    ensures r.None? ==> forall j :: 0 <= j < |convs| ==> convs[j].id != cid
  {
    if convs == [] then None
    else if convs[0].id == cid then Some(0)
    else match FindConversation(convs[1..], cid)
      case None => None
      case Some(k) => Some(k + 1)
  }

  /** Index of the first conversation with id `cid` that `u` takes part in
      (`Conversation.findOne({ conversationId, participants: userId })`). */
  function FindParticipantConversation(convs: seq<Conversation>, cid: ConvId, u: UserId): (r: Option<nat>)
    ensures r.Some? ==> r.value < |convs| && convs[r.value].id == cid && convs[r.value].HasParticipant(u)
    ensures r.None? ==> forall j :: 0 <= j < |convs| ==> !(convs[j].id == cid && convs[j].HasParticipant(u))
  {
    if convs == [] then None
    else if convs[0].id == cid && convs[0].HasParticipant(u) then Some(0)
    else match FindParticipantConversation(convs[1..], cid, u)
      case None => None
      case Some(k) => Some(k + 1)
  }

  /** Index of the first conversation of business `b` owned by `owner`
      (`Conversation.findOne({ businessId, businessOwner })`). */
  function FindByOwner(convs: seq<Conversation>, b: BusinessId, owner: UserId): (r: Option<nat>)
    ensures r.Some? ==> r.value < |convs| && convs[r.value].businessId == b && convs[r.value].businessOwner == owner
    ensures r.Some? ==> forall j :: 0 <= j < r.value ==> !(convs[j].businessId == b && convs[j].businessOwner == owner)
    ensures r.None? ==> forall j :: 0 <= j < |convs| ==> !(convs[j].businessId == b && convs[j].businessOwner == owner)
  {
    if convs == [] then None
    else if convs[0].businessId == b && convs[0].businessOwner == owner then Some(0)
    else match FindByOwner(convs[1..], b, owner)
      case None => None
      case Some(k) => Some(k + 1)
  }

  /** Each conversation id occurs at most once in the store. */
  ghost predicate UniqueIds(convs: seq<Conversation>) {
    forall i, j :: 0 <= i < j < |convs| ==> convs[i].id != convs[j].id
  }

  /** A fresh conversation between `customer` and the owner of business `b`. */
  function NewConversation(customer: UserId, owner: UserId, b: BusinessId): Conversation {
    Conversation(ConvId(customer, b), customer, owner, b, None, "", Some(0), Some(0), true)
  }

  datatype FindOrCreateResult = FindOrCreateResult(index: Option<nat>, convs: seq<Conversation>)

  /** `findOrCreateConversation(customerId, businessId)`: the conversation with
      the computed id if one exists, otherwise a new one appended to the store.
      It fails (throws) when the business has no known owner. */
  function FindOrCreate(convs: seq<Conversation>, owners: map<BusinessId, UserId>, customer: UserId, b: BusinessId): (r: FindOrCreateResult)
    ensures r.index.Some? ==> r.index.value < |r.convs| && r.convs[r.index.value].id == ConvId(customer, b)
    ensures r.index.None? <==> FindConversation(convs, ConvId(customer, b)).None? && b !in owners
    ensures r.index.None? ==> r.convs == convs
    ensures FindConversation(convs, ConvId(customer, b)).Some? ==> r.convs == convs
    ensures FindConversation(convs, ConvId(customer, b)).None? && b in owners ==>
              r.convs == convs + [NewConversation(customer, owners[b], b)]
    ensures UniqueIds(convs) ==> UniqueIds(r.convs)
  {
    match FindConversation(convs, ConvId(customer, b))
    case Some(i) => FindOrCreateResult(Some(i), convs)
    case None =>
      if b in owners then FindOrCreateResult(Some(|convs|), convs + [NewConversation(customer, owners[b], b)])
      else FindOrCreateResult(None, convs)
  }

  /** A second call with the same pair finds what the first one returned and changes nothing. */
  lemma FindOrCreateIdempotent(convs: seq<Conversation>, owners: map<BusinessId, UserId>, customer: UserId, b: BusinessId)
    requires UniqueIds(convs)
    ensures var r1 := FindOrCreate(convs, owners, customer, b);
            var r2 := FindOrCreate(r1.convs, owners, customer, b);
            r2.convs == r1.convs && r2.index == r1.index
  {
    var r1 := FindOrCreate(convs, owners, customer, b);
    if r1.index.Some? {
      var i := r1.index.value;
      var f := FindConversation(r1.convs, ConvId(customer, b));
      assert f.Some? && f.value <= i;
    }
  }

  /** `updateLastMessage(messageId, content)`: an unconditional overwrite. */
  function WithLastMessage(c: Conversation, id: MessageId, content: string): (r: Conversation)
    ensures r.lastMessage == Some(id) && r.lastMessageContent == content
    ensures r.id == c.id && r.customer == c.customer && r.businessOwner == c.businessOwner
    ensures r.unreadCustomer == c.unreadCustomer && r.unreadOwner == c.unreadOwner && r.isActive == c.isActive
  {
    c.(lastMessage := Some(id), lastMessageContent := content)
  }

  function Bump(n: Option<nat>): nat {
    match n
    case None => 1
    case Some(k) => k + 1
  }

  /** `incrementUnreadCount(userId)`: adds one to the counter of the role `u` holds;
      a user who holds neither role changes nothing. */
  function Incremented(c: Conversation, u: UserId): (r: Conversation)
    ensures r.id == c.id && r.customer == c.customer && r.businessOwner == c.businessOwner
    ensures r.lastMessage == c.lastMessage && r.lastMessageContent == c.lastMessageContent && r.isActive == c.isActive
    ensures u == c.customer ==> r.unreadCustomer == Some(Bump(c.unreadCustomer)) && r.unreadOwner == c.unreadOwner
    ensures u != c.customer && u == c.businessOwner ==> r.unreadOwner == Some(Bump(c.unreadOwner)) && r.unreadCustomer == c.unreadCustomer
    ensures !c.HasParticipant(u) ==> r == c
  {
    if u == c.customer then c.(unreadCustomer := Some(Bump(c.unreadCustomer)))
    else if u == c.businessOwner then c.(unreadOwner := Some(Bump(c.unreadOwner)))
    else c
  }

  /** `resetUnreadCount(userId)`: sets the counter of the role `u` holds to zero. */
  function Reset(c: Conversation, u: UserId): (r: Conversation)
    ensures r.id == c.id && r.customer == c.customer && r.businessOwner == c.businessOwner
    ensures r.lastMessage == c.lastMessage && r.lastMessageContent == c.lastMessageContent && r.isActive == c.isActive
    ensures u == c.customer ==> r.unreadCustomer == Some(0) && r.unreadOwner == c.unreadOwner
    ensures u != c.customer && u == c.businessOwner ==> r.unreadOwner == Some(0) && r.unreadCustomer == c.unreadCustomer
    ensures !c.HasParticipant(u) ==> r == c
  {
    if u == c.customer then c.(unreadCustomer := Some(0))
    else if u == c.businessOwner then c.(unreadOwner := Some(0))
    else c
  }

  /** Incrementing one participant's counter never touches the other participant's. */
  lemma IncrementLeavesOtherCounter(c: Conversation, u: UserId, v: UserId)
    requires c.customer != c.businessOwner
    requires c.HasParticipant(u) && c.HasParticipant(v) && u != v
    ensures UnreadFor(Incremented(c, u), v) == UnreadFor(c, v)
    ensures UnreadFor(Incremented(c, u), u) == UnreadFor(c, u) + 1
  {
  }

  /** What the unread-count route adds for conversation `c` and caller `u`:
      the customer's counter if `u` is the customer, otherwise the owner's
      counter if `u` is the owner; a missing counter counts as 0. */
  function UnreadFor(c: Conversation, u: UserId): (n: nat)
    ensures !c.HasParticipant(u) ==> n == 0
    ensures u == c.customer ==> n == (if c.unreadCustomer.Some? then c.unreadCustomer.value else 0)
    ensures u != c.customer && u == c.businessOwner ==> n == (if c.unreadOwner.Some? then c.unreadOwner.value else 0)
  {
    if u == c.customer then (match c.unreadCustomer case Some(k) => k case None => 0)
    else if u == c.businessOwner then (match c.unreadOwner case Some(k) => k case None => 0)
    else 0
  }

  /** After a reset the reader's own counter is zero, whatever it was. */
  lemma ResetClearsReader(c: Conversation, u: UserId)
    requires c.HasParticipant(u)
    ensures UnreadFor(Reset(c, u), u) == 0
    ensures UnreadFor(Reset(Incremented(c, u), u), u) == 0
  {
  }

  // ---------------------------------------------------------------------------
  // Message operations, on values

  /** `message.markAsRead()`: sets `isRead` and `readAt` once; a repeat call is a no-op. */
  function MarkedRead(m: Message, now: int): (r: Message)
    ensures r.isRead
    ensures m.isRead ==> r == m
    ensures !m.isRead ==> r.readAt == Some(now)
    ensures r.id == m.id && r.content == m.content && r.sender == m.sender && r.receiver == m.receiver
    ensures r.conversationId == m.conversationId && r.deletedFor == m.deletedFor
  {
    if m.isRead then m else m.(isRead := true, readAt := Some(now))
  }

  /** `message.softDeleteForUser(userId)`: adds `u` to `deletedFor`. */
  function SoftDeleted(m: Message, u: UserId): (r: Message)
    ensures r.deletedFor == m.deletedFor + {u}
    ensures r.id == m.id && r.content == m.content && r.isRead == m.isRead && r.readAt == m.readAt
    ensures r.conversationId == m.conversationId && r.sender == m.sender && r.receiver == m.receiver
  {
    m.(deletedFor := m.deletedFor + {u})
  }

  /** The messages of conversation `cid` that `u` has not deleted, in store (creation) order. */
  function Visible(msgs: seq<Message>, cid: ConvId, u: UserId): (r: seq<Message>)
    ensures |r| <= |msgs|
    ensures forall m :: m in r ==> m in msgs && m.conversationId == cid && u !in m.deletedFor
    ensures forall m :: m in msgs && m.conversationId == cid && u !in m.deletedFor ==> m in r
  {
    if msgs == [] then []
    else
      var rest := Visible(msgs[1..], cid, u);
      assert forall m :: m in msgs[1..] ==> m in msgs;
      if msgs[0].conversationId == cid && u !in msgs[0].deletedFor then [msgs[0]] + rest else rest
  }

  function Reverse<T>(s: seq<T>): (r: seq<T>)
    ensures |r| == |s|
    ensures forall i :: 0 <= i < |s| ==> r[i] == s[|s| - 1 - i]
  {
    if s == [] then [] else Reverse(s[1..]) + [s[0]]
  }

  /** `getConversationMessages(conversationId, userId)`: the conversation's
      messages not deleted for the caller, newest first. */
  function NewestFirst(msgs: seq<Message>, cid: ConvId, u: UserId): (r: seq<Message>)
    ensures |r| == |Visible(msgs, cid, u)|
    ensures forall m :: m in r <==> m in msgs && m.conversationId == cid && u !in m.deletedFor
  {
    var v := Visible(msgs, cid, u);
    assert forall m :: m in Reverse(v) <==> m in v by {
      forall m | m in v ensures m in Reverse(v) {
        var i :| 0 <= i < |v| && v[i] == m;
        assert Reverse(v)[|v| - 1 - i] == m;
      }
    }
    Reverse(v)
  }

  /** `getUserConversations(userId)`: the active conversations the user takes part in. */
  function ActiveConversationsOf(convs: seq<Conversation>, u: UserId): (r: seq<Conversation>)
    ensures |r| <= |convs|
    ensures forall c :: c in r ==> c in convs && c.isActive && c.HasParticipant(u)
    ensures forall c :: c in convs && c.isActive && c.HasParticipant(u) ==> c in r
  {
    if convs == [] then []
    else
      var rest := ActiveConversationsOf(convs[1..], u);
      assert forall c :: c in convs[1..] ==> c in convs;
      if convs[0].isActive && convs[0].HasParticipant(u) then [convs[0]] + rest else rest
  }

  /** The message a send persists: `messageType` defaults to 'text', unread, deleted for nobody. */
  function CreatedMessage(id: MessageId, cid: ConvId, sender: UserId, receiver: UserId, b: BusinessId,
                      content: string, messageType: Option<string>, attachments: Option<seq<string>>): (m: Message)
    ensures m.id == id && m.conversationId == cid && m.sender == sender && m.receiver == receiver
    ensures m.content == content && !m.isRead && m.readAt.None? && m.deletedFor == {}
    ensures m.messageType == (if messageType.Some? then messageType.value else "text")
  {
    Message(id, cid, sender, receiver, b, content,
            match messageType case Some(t) => t case None => "text",
            match attachments case Some(a) => a case None => [],
            false, None, {})
  }

  // ---------------------------------------------------------------------------
  // The store

  class Store {
    var users: map<UserId, User>
    var owners: map<BusinessId, UserId>
    var conversations: seq<Conversation>
    var messages: seq<Message>

    /** Message ids are their positions in the log; conversation ids are unique. */
    ghost predicate Valid()
      reads this
    {
      (forall i :: 0 <= i < |messages| ==> messages[i].id == i) && UniqueIds(conversations)
    }

    constructor (users: map<UserId, User>, owners: map<BusinessId, UserId>)
      ensures Valid()
      ensures this.users == users && this.owners == owners && conversations == [] && messages == []
    {
      this.users := users;
      this.owners := owners;
      conversations := [];
      messages := [];
    }

    method FindOrCreateConversation(customer: UserId, b: BusinessId) returns (index: Option<nat>)
      requires Valid()
      modifies this
      ensures Valid()
      ensures FindOrCreate(old(conversations), owners, customer, b) == FindOrCreateResult(index, conversations)
      ensures users == old(users) && owners == old(owners) && messages == old(messages)
    {
      var r := FindOrCreate(conversations, owners, customer, b);
      conversations := r.convs;
      index := r.index;
    }

    /** `message.save()`. The Message model is assumed to reject empty content. */
    method SaveMessage(cid: ConvId, sender: UserId, receiver: UserId, b: BusinessId, content: string,
                       messageType: Option<string>, attachments: Option<seq<string>>) returns (id: Option<MessageId>)
      requires Valid()
      modifies this
      ensures Valid()
      ensures content == "" ==> id.None? && messages == old(messages)
      ensures content != "" ==> id == Some(|old(messages)|)
      ensures content != "" ==>
                messages == old(messages) + [CreatedMessage(|old(messages)|, cid, sender, receiver, b, content, messageType, attachments)]
      ensures users == old(users) && owners == old(owners) && conversations == old(conversations)
    {
      if content == "" {
        id := None;
      } else {
        id := Some(|messages|);
        messages := messages + [CreatedMessage(|messages|, cid, sender, receiver, b, content, messageType, attachments)];
      }
    }

    method UpdateLastMessage(i: nat, id: MessageId, content: string)
      requires Valid() && i < |conversations|
      modifies this
      ensures Valid()
      ensures conversations == old(conversations)[i := WithLastMessage(old(conversations)[i], id, content)]
      ensures users == old(users) && owners == old(owners) && messages == old(messages)
    {
      conversations := conversations[i := WithLastMessage(conversations[i], id, content)];
      assert forall j :: 0 <= j < |conversations| ==> conversations[j].id == old(conversations)[j].id;
    }

    method IncrementUnreadCount(i: nat, u: UserId)
      requires Valid() && i < |conversations|
      modifies this
      ensures Valid()
      ensures conversations == old(conversations)[i := Incremented(old(conversations)[i], u)]
      ensures users == old(users) && owners == old(owners) && messages == old(messages)
    {
      conversations := conversations[i := Incremented(conversations[i], u)];
      assert forall j :: 0 <= j < |conversations| ==> conversations[j].id == old(conversations)[j].id;
    }

    method ResetUnreadCount(i: nat, u: UserId)
      requires Valid() && i < |conversations|
      modifies this
      ensures Valid()
      ensures conversations == old(conversations)[i := Reset(old(conversations)[i], u)]
      ensures users == old(users) && owners == old(owners) && messages == old(messages)
    {
      conversations := conversations[i := Reset(conversations[i], u)];
      assert forall j :: 0 <= j < |conversations| ==> conversations[j].id == old(conversations)[j].id;
    }

    method MarkAsRead(id: MessageId, now: int)
      requires Valid() && id < |messages|
      modifies this
      ensures Valid()
      ensures messages == old(messages)[id := MarkedRead(old(messages)[id], now)]
      ensures users == old(users) && owners == old(owners) && conversations == old(conversations)
    {
      messages := messages[id := MarkedRead(messages[id], now)];
    }

    method SoftDeleteForUser(id: MessageId, u: UserId)
      requires Valid() && id < |messages|
      modifies this
      ensures Valid()
      ensures messages == old(messages)[id := SoftDeleted(old(messages)[id], u)]
      ensures users == old(users) && owners == old(owners) && conversations == old(conversations)
    {
      messages := messages[id := SoftDeleted(messages[id], u)];
    }
  }
}
