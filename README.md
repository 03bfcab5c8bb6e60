# AAA Services back end: messaging, accounts, admin panel and caches in Dafny

This project models the core of the Node.js back end of the AAA Services marketplace. Customers find service businesses there, message them and review them. The model covers these parts:

- **Real-time messaging** (`socket.js`): the presence registry of connected users, and the `send-message`, `mark-read`, typing and status handlers. Everything a handler emits and every call it makes into the chat store is appended to one trace.
- **Messaging HTTP routes** (`routes/messaging.js`): conversations, reading messages, mark-read, the unread total and deleting a conversation for one participant.
- **User model** (`models/user.js`): the pre-save hooks (username generation, password hashing and the user-type tag), `fullName`, and the reset and e-mail-verification token methods.
- **Account routes** (`routes/auth.js`): `sanitizeUser`, the two input validators, customer and business registration, the two login ladders, and forgot-password, reset-password and verify-email.
- **Admin panel** (`routes/admin.js`): the `authenticateAdmin` middleware, admin login, the status whitelists, pagination, the query and update objects, user deletion and the admin-user guards.
- **Service categories** (`routes/serviceCategories.js`): the list query, the slug-to-business-type map and the business count, and the lookup by ObjectId or slug.
- **Redis cache wrapper** (`config/redis.js`): canonical keys, the commands guarded by the connection flag, the TTLs, and business invalidation.
- **Help-center contact form** (`routes/helpCenter.js`).

The project is split into one module per source file:

| file | module | source |
|---|---|---|
| `common.dfy` | `Common` | shared helpers: `Option`, `Value` (a JSON body field), JavaScript truthiness, `trim`, lower-casing |
| `chat_store.dfy` | `ChatStore` | the Conversation and Message operations the handlers call, as a `Store` class |
| `socket.dfy` | `Socket` | `socket.js` |
| `messaging.dfy` | `MessagingRoutes` | `routes/messaging.js` |
| `user_model.dfy` | `UserModel` | `models/user.js` |
| `auth.dfy` | `AuthRoutes` | `routes/auth.js` |
| `admin.dfy` | `AdminRoutes` | `routes/admin.js` |
| `service_categories.dfy` | `ServiceCategories` | `routes/serviceCategories.js` |
| `redis_cache.dfy` | `RedisCache` | `config/redis.js` |
| `help_center.dfy` | `HelpCenter` | `routes/helpCenter.js` |

Code that mutates state is modelled as classes with `modifies` clauses:

- the presence maps and trace (`Socket.SocketServer`);
- the chat store (`ChatStore.Store`);
- a user document (`UserModel.UserDoc`);
- the admin collection (`AdminRoutes.AdminStore`);
- the Redis wrapper (`RedisCache.Cache`).

Each such method is proved against a function on values that specifies it, and the properties are proved as lemmas about those functions.

Guard chains and object construction are modelled as functions. Loops in the source are modelled as methods with loop invariants:

- the username search;
- the unread-count fold;
- the soft-delete loop;
- `messages.reverse()` on an array;
- the verification-token search;
- the update-object builders.

Things outside the code become parameters:

- **Foreign libraries:**
  - bcrypt's compare is `compare`; the hash a save stores is `hashed`.
  - SHA-256 is `hash`; random token bytes are `raw`.
  - `jwt.verify` is `verify`.
  - The e-mail regular expression of `routes/auth.js` is `emailPattern`.
- **Clock and outcomes:**
  - `Date.now()` is `now`.
  - Whether a mail could be sent is `mailSent`, `teamMailOk` or `senderMailOk`.
  - Whether a Redis command fails is `fails`.

The Conversation and Message models are not part of this model. `ChatStore` gives the operations the handlers call on them the smallest behaviour the handlers rely on. For example, a conversation id is computed from the (customer, business) pair, and `save` rejects empty content.

Where the code and its documentation disagree, the model follows the code:

- A disconnect removes the user from `connectedUsers` even when the closing socket is not the user's current one.
- The business-owner lookup of `send-message` ignores the receiver.
- Reset-password compares the token only against the first user with a pending reset.

Each of these is proved as a lemma about the code as written: `Socket.StaleDisconnectDropsLiveSession`, `Socket.OwnerReplyCanLandElsewhere` and `AuthRoutes.ResetOnlyReachesFirstPending`.

## Model

| member | source | states |
|---|---|---|
| Common.TrimStart | Back-End/server/routes/auth.js:34-35 | `trimStart`: the result is a suffix, does not start with white space, and only white space was dropped |
| Common.TrimEnd | Back-End/server/routes/auth.js:34-35 | `trimEnd`: the result is a prefix, does not end with white space, and only white space was dropped |
| Common.TrimDropsOnlySpace | Back-End/server/routes/auth.js:34-35 | `trim` returns the middle slice of the string with white space dropped at both ends only, and its ends are not white space |
| Common.ToLower | Back-End/server/routes/auth.js:241 | lower-casing keeps the length and maps each character by `LowerChar` |
| Common.Before | Back-End/server/models/user.js:131 | `email.split('@')[0]`: the longest prefix without '@', followed by '@' when shorter than the string |
| Common.NatToStringInjective | Back-End/server/models/user.js:137 | two different counters render to different decimal strings |
| ChatStore.FindConversation | Back-End/server/socket.js:226 | `findOne({ conversationId })`: the first conversation with that id, or none has it |
| ChatStore.FindParticipantConversation | Back-End/server/routes/messaging.js:61-64 | the first conversation with that id in which the caller takes part, or none |
| ChatStore.FindByOwner | Back-End/server/socket.js:112-115 | `findOne({ businessId, businessOwner })`: the first conversation of that business with that owner, or none |
| ChatStore.FindOrCreate | Back-End/server/socket.js:123 | finds the conversation with the computed (customer, business) id, or appends a new one; fails when the business has no owner; ids stay unique |
| ChatStore.FindOrCreateIdempotent | Back-End/server/routes/messaging.js:36 | a second call with the same pair returns the same conversation and changes nothing |
| ChatStore.WithLastMessage | Back-End/server/socket.js:148 | `updateLastMessage` overwrites the last message and leaves id and participants alone |
| ChatStore.Incremented | Back-End/server/socket.js:149 | `incrementUnreadCount(u)` adds one to the counter of the role `u` holds and nothing else |
| ChatStore.Reset | Back-End/server/socket.js:228 | `resetUnreadCount(u)` sets the counter of the role `u` holds to zero and nothing else |
| ChatStore.IncrementLeavesOtherCounter | Back-End/server/socket.js:149 | incrementing one participant never changes what the other participant reads as unread |
| ChatStore.UnreadFor | Back-End/server/routes/messaging.js:162-168 | the customer's counter for the customer, else the owner's for the owner, a missing counter as 0 |
| ChatStore.ResetClearsReader | Back-End/server/routes/messaging.js:131 | after a reset the reader's unread count is 0 |
| ChatStore.MarkedRead | Back-End/server/socket.js:223 | `markAsRead` sets `isRead` and `readAt` once; a repeat call is a no-op |
| ChatStore.SoftDeleted | Back-End/server/routes/messaging.js:208 | `softDeleteForUser(u)` adds `u` to `deletedFor` and changes nothing else |
| ChatStore.Visible | Back-End/server/routes/messaging.js:74 | exactly the conversation's messages not deleted for the caller, in store order |
| ChatStore.Reverse | Back-End/server/routes/messaging.js:78 | the reversed sequence: same length, element `i` is element `n-1-i` |
| ChatStore.NewestFirst | Back-End/server/routes/messaging.js:74 | as many messages as the visible ones, and exactly the conversation's messages the caller has not deleted |
| ChatStore.ActiveConversationsOf | Back-End/server/routes/messaging.js:11 | exactly the active conversations the user takes part in, by membership in both directions |
| ChatStore.CreatedMessage | Back-End/server/socket.js:135-143 | the new message carries the resolved conversation, sender, receiver and content, is unread and deleted for nobody |
| ChatStore.Store.FindOrCreateConversation | Back-End/server/socket.js:123 | the store changes as `FindOrCreate` says and the index returned is its answer |
| ChatStore.Store.SaveMessage | Back-End/server/socket.js:145 | appends exactly one message with the next id, or rejects empty content and changes nothing |
| ChatStore.Store.UpdateLastMessage | Back-End/server/socket.js:148 | only conversation `i` changes, as `WithLastMessage` says |
| ChatStore.Store.IncrementUnreadCount | Back-End/server/socket.js:149 | only conversation `i` changes, as `Incremented` says |
| ChatStore.Store.ResetUnreadCount | Back-End/server/socket.js:228 | only conversation `i` changes, as `Reset` says |
| ChatStore.Store.MarkAsRead | Back-End/server/socket.js:223 | only message `id` changes, as `MarkedRead` says |
| ChatStore.Store.SoftDeleteForUser | Back-End/server/routes/messaging.js:208 | only message `id` changes, as `SoftDeleted` says |
| Socket.Registry.Connect | Back-End/server/socket.js:55-56 | both maps get the new pair; no other entry changes |
| Socket.Registry.Disconnect | Back-End/server/socket.js:317-318 | the user leaves `connectedUsers` whichever socket it is under; only the closing socket leaves `userSockets` |
| Socket.NewestConnectionWins | Back-End/server/socket.js:55-56 | a second connection of a user takes the forward entry; both sockets stay in the reverse map |
| Socket.StaleDisconnectDropsLiveSession | Back-End/server/socket.js:313-318 | closing the older of two sockets takes the user offline while the newer one is still open |
| Socket.ConnectKeepsForward | Back-End/server/socket.js:55-56 | a connection on a fresh socket keeps every online user's socket mapped back to that user |
| Socket.DisconnectKeepsForward | Back-End/server/socket.js:317-318 | a disconnect keeps every online user's socket mapped back to that user |
| Socket.ReconnectBreaksBackward | Back-End/server/socket.js:55-56 | the two maps are not kept inverse: after a reconnect the old socket still names the user |
| Socket.Resolve | Back-End/server/socket.js:108-124 | the conversation a message is filed under, or a failure when the business has no owner |
| Socket.ResolveBySender | Back-End/server/socket.js:108-124 | a customer sender is always the conversation's customer; a business sender gets its first owned conversation of that business, else the one whose customer is the receiver |
| Socket.OwnerReplyCanLandElsewhere | Back-End/server/socket.js:112-115 | an owner replying to one customer can file the message in another customer's conversation |
| Socket.FanoutTargets | Back-End/server/socket.js:163-191 | at most one `new-message`, present iff the receiver is online, and at most one `business-message`, present iff the receiver is a business |
| Socket.Fanout | Back-End/server/socket.js:162-191 | at most two steps, all pushes of `new-message` or `business-message`, no store call |
| Socket.Persist | Back-End/server/socket.js:145-160 | the save first, every store call before the `message-sent` acknowledgement, which goes to the sender last |
| Socket.AfterResolveSavesAtMostOne | Back-End/server/socket.js:134-160 | without a conversation or with empty content nothing is saved and only the sender hears; otherwise exactly one message is appended |
| Socket.AfterResolve | Back-End/server/socket.js:134-191 | the store keeps its conversation count; a failure ends with `message-error` to the sender; a delivery saves the next id with the caller as sender, the receiver, the content and the resolved conversation |
| Socket.SendSpec | Back-End/server/socket.js:87-201 | the whole `send-message` handler on values: a null payload or an unknown receiver gives a `message-error` and no store call |
| Socket.Proceed | Back-End/server/socket.js:106-191 | at most one conversation and at most one message are added |
| Socket.SendSavesOnlyOnDelivery | Back-End/server/socket.js:87-201 | exactly one message is appended when the send delivers, none otherwise; conversation ids stay unique |
| Socket.FailedSendTellsOnlySender | Back-End/server/socket.js:88-104 | a send that does not deliver saves nothing and emits only a `message-error` to the sender |
| Socket.SendPersistsBeforeAck | Back-End/server/socket.js:145-160 | save, then `updateLastMessage`, then `incrementUnreadCount(receiver)`, then `message-sent`, whether or not the receiver is online |
| Socket.SendFansOut | Back-End/server/socket.js:163-191 | the receiver's socket gets `new-message` iff the receiver is online; the business room gets `business-message` iff the receiver is a business |
| Socket.MarkReadSpec | Back-End/server/socket.js:205-252 | the whole `mark-read` handler on values: an invalid payload and a missing message give `mark-read-error` |
| Socket.MarkReadChangesOnlyItsMessage | Back-End/server/socket.js:215-243 | mark-read changes no message but the one named and keeps every conversation id |
| Socket.MarkReadIgnoresNonReceiver | Back-End/server/socket.js:221 | a caller who is not the receiver gets no event and changes nothing |
| Socket.MarkReadByReceiver | Back-End/server/socket.js:221-242 | for the receiver: mark read, reset the counter, `mark-read-success` last; a `message-read` carrying the reader and `readAt` goes to the sender's socket when the sender is online, and no `message-read` goes anywhere else |
| Socket.ReceiverReads | Back-End/server/socket.js:222-242 | only the named message changes, and it is read; `markAsRead` is the first step and `mark-read-success` to the reader the last |
| Socket.MarkReadClearsReadersCount | Back-End/server/socket.js:226-229 | when the conversation exists and the reader takes part, the reader's unread count becomes 0 |
| Socket.TypingSteps | Back-End/server/socket.js:255-300 | a typing signal is forwarded once to the receiver's socket only when the payload names an online receiver; otherwise nothing |
| Socket.SocketServer.constructor | Back-End/server/socket.js:8-9 | both maps and the trace start empty |
| Socket.SocketServer.IsUserOnline | Back-End/server/socket.js:341-343 | `isUserOnline(u)` holds iff `u` is a key of `connectedUsers` |
| Socket.SocketServer.GetConnectedUsers | Back-End/server/socket.js:336-338 | `getConnectedUsers()` returns exactly the users for which `isUserOnline` holds, as a set (the array's insertion order is not modelled) |
| Socket.SocketServer.Connect | Back-End/server/socket.js:55-56 | the registry becomes `Registry.Connect`; nothing is emitted |
| Socket.SocketServer.Disconnect | Back-End/server/socket.js:313-329 | the registry becomes `Registry.Disconnect`; every other socket is told the user is offline |
| Socket.SocketServer.UserStatus | Back-End/server/socket.js:303-310 | the status is broadcast to every other socket as given; the registry is unchanged |
| Socket.SocketServer.NotifyUser | Back-End/server/socket.js:346-352 | emitted to the user's socket when online; nothing otherwise |
| Socket.SocketServer.Typing | Back-End/server/socket.js:255-300 | the trace grows by `TypingSteps`; the registry is unchanged |
| Socket.SocketServer.SendMessage | Back-End/server/socket.js:87-201 | trace and store end as `SendSpec` says; the registry, users and owners are unchanged |
| Socket.SocketServer.ProceedWith | Back-End/server/socket.js:106-191 | resolve then deliver, ending as the spec's `Proceed` says |
| Socket.SocketServer.Deliver | Back-End/server/socket.js:134-191 | save, update, acknowledge and fan out, ending as `AfterResolve` says |
| Socket.SocketServer.SaveAndAcknowledge | Back-End/server/socket.js:134-160 | the message is saved before the conversation is updated and the sender is acknowledged last; empty content changes nothing |
| Socket.SocketServer.PushMessage | Back-End/server/socket.js:163-191 | the trace grows by exactly `Fanout` |
| Socket.SocketServer.ResolveConversation | Back-End/server/socket.js:108-124 | the conversations change as `Resolve` says; messages are untouched |
| Socket.SocketServer.MarkRead | Back-End/server/socket.js:205-252 | trace and store end as `MarkReadSpec` says |
| Socket.SocketServer.ReadAsReceiver | Back-End/server/socket.js:222-242 | trace and store end as `ReceiverReads` says |
| MessagingRoutes.ListConversations | Back-End/server/routes/messaging.js:8-16 | the reply lists exactly the caller's active conversations |
| MessagingRoutes.StartConversation | Back-End/server/routes/messaging.js:28-50 | the caller is always the customer of `findOrCreateConversation`; a business without an owner gives 500 and changes nothing |
| MessagingRoutes.ReverseInPlace | Back-End/server/routes/messaging.js:78 | the array afterwards is the reverse of what it held |
| MessagingRoutes.ReverseReverse | Back-End/server/routes/messaging.js:74-78 | reversing twice gives the original, so newest-first reversed is oldest-first |
| MessagingRoutes.GetMessages | Back-End/server/routes/messaging.js:55-86 | 403 with no messages for a non-participant; otherwise the caller's visible messages oldest first; the store is unchanged |
| MessagingRoutes.MessagesReply | Back-End/server/routes/messaging.js:55-86 | 403 iff the caller takes part in no conversation with that id; otherwise exactly the conversation's messages the caller has not deleted |
| MessagingRoutes.VisibleKeepsOrder | Back-End/server/routes/messaging.js:74-78 | the filtered messages keep the store's order, so the ids increase along the reply |
| MessagingRoutes.MessagesOnlyForParticipants | Back-End/server/routes/messaging.js:61-78 | refused unless the caller takes part; a participant gets exactly the undeleted messages of that conversation |
| MessagingRoutes.MarkRead | Back-End/server/routes/messaging.js:91-145 | reply and store end as the ladder `MarkReadEffect` says |
| MessagingRoutes.MarkReadLadder | Back-End/server/routes/messaging.js:99-138 | non-participant 403, then missing message 404, then non-receiver 403; nothing is written unless all pass |
| MessagingRoutes.MarkReadEffect | Back-End/server/routes/messaging.js:99-138 | store sizes kept; a refusal changes nothing; success only for the receiver of an existing message, which is then read |
| MessagingRoutes.MarkReadTouchesOnlyTarget | Back-End/server/routes/messaging.js:124-131 | success changes only that message, now read, and the caller's counter on that conversation, now 0 |
| MessagingRoutes.MarkReadAcceptsForeignMessage | Back-End/server/routes/messaging.js:112-131 | the message is never checked against the conversation: a receiver can mark a message of another conversation read |
| MessagingRoutes.UnreadTotalAppend | Back-End/server/routes/messaging.js:162-168 | the fold over a concatenation is the sum of the folds |
| MessagingRoutes.GetUnreadCount | Back-End/server/routes/messaging.js:150-172 | the loop's total is the sum, over the caller's active conversations, of the counter the caller's role selects |
| MessagingRoutes.Unread | Back-End/server/routes/messaging.js:155-168 | the caller's total is at least the counter of each active conversation, and zero exactly when all of them are zero |
| MessagingRoutes.UnreadTotal | Back-End/server/routes/messaging.js:150-172 | the total is at least every single counter, and zero exactly when every counter is zero |
| MessagingRoutes.UnreadAfterUpdate | Back-End/server/routes/messaging.js:162-168 | replacing one conversation moves the total by the difference of its counters |
| MessagingRoutes.SendRaisesReceiverTotal | Back-End/server/socket.js:149 | each message received in an active conversation adds exactly one to the receiver's total |
| MessagingRoutes.ReadRemovesConversationFromTotal | Back-End/server/routes/messaging.js:131 | a reset removes exactly that conversation's counter from the reader's total |
| MessagingRoutes.SoftDeleteConversation | Back-End/server/routes/messaging.js:206-209 | every message of the conversation gets the caller's mark; the others are unchanged |
| MessagingRoutes.DeleteConversation | Back-End/server/routes/messaging.js:185-223 | 404 for a non-participant with nothing changed; otherwise the messages end as `SoftDeleteConversation` says |
| MessagingRoutes.DeleteEmptiesCallersView | Back-End/server/routes/messaging.js:206-209 | afterwards the caller sees none of the conversation's messages |
| MessagingRoutes.DeleteKeepsOthersView | Back-End/server/routes/messaging.js:206-209 | another user still sees the same messages |
| MessagingRoutes.DeleteKeepsOtherConversations | Back-End/server/routes/messaging.js:206-209 | the caller's view of every other conversation is unchanged |
| UserModel.FullName | Back-End/server/models/user.js:118-120 | first name, one space, last name |
| UserModel.UserDoc.FullNameOf | Back-End/server/models/user.js:118-120 | the document's first and last names can be read back around the one space |
| UserModel.FullNameSplits | Back-End/server/models/user.js:118-120 | a first name without spaces is recovered from the full name |
| UserModel.Candidate | Back-End/server/models/user.js:131-138 | candidate 0 is the prefix, candidate k is the prefix followed by the digits of k |
| UserModel.CandidateInjective | Back-End/server/models/user.js:136-138 | different counters give different candidates, so the loop never repeats a name |
| UserModel.GenerateUsername | Back-End/server/models/user.js:130-141 | returns the first candidate not taken: it is free and every earlier candidate is taken |
| UserModel.TaggedFor | Back-End/server/models/user.js:157-173 | the user type's tag is appended only when absent; no tag is removed or reordered |
| UserModel.TagHookIdempotent | Back-End/server/models/user.js:157-173 | running the hook twice adds nothing the second time |
| UserModel.Issue | Back-End/server/models/user.js:193-207 | a new token stores the digest of the raw token and expires `lifetime` after now |
| UserModel.IssuedTokenAccepted | Back-End/server/models/user.js:216-227 | a fresh token is accepted exactly until its expiry; a token with another digest never is |
| UserModel.Accepts | Back-End/server/models/user.js:216-227 | an accepted token's digest is the stored, non-empty one and the expiry lies ahead; a cleared slot accepts nothing |
| UserModel.UserDoc.IsResetTokenValid | Back-End/server/models/user.js:216-227 | valid only when `resetToken` is the token's digest and `resetTokenExpiry` lies ahead; false when either is missing |
| UserModel.UserDoc.IsEmailVerificationTokenValid | Back-End/server/models/user.js:253-264 | valid only when `emailVerificationToken` is the token's digest and its expiry lies ahead; false when either is missing |
| UserModel.ClearedAcceptsNothing | Back-End/server/models/user.js:216-220 | with no stored digest or expiry no token is valid |
| UserModel.UserDoc.constructor | Back-End/server/models/user.js:128 | the document holds the given fields |
| UserModel.UserDoc.PreSaveUsernameAndPassword | Back-End/server/models/user.js:128-155 | a given username is kept; a missing one becomes the first free candidate from the e-mail prefix; a modified password is replaced by its hash |
| UserModel.UserDoc.PreSaveTag | Back-End/server/models/user.js:157-173 | missing tags become empty, then `TaggedFor` applies; nothing else changes |
| UserModel.Saved | Back-End/server/models/user.js:128-173 | what a save writes: the type's tag is present; the earlier tags (none when missing) are kept in front with at most one tag added; the password changes only when a hash is given; every field other than username, password and tags is kept |
| UserModel.SavedAgain | Back-End/server/models/user.js:128-173 | a second save that does not modify the password adds no tag and keeps the first save's hash |
| UserModel.UserDoc.Save | Back-End/server/models/user.js:128-173 | `save()` runs both hooks in order: the username is kept when present and is otherwise the first free candidate; the new state is `Saved` |
| UserModel.UserDoc.GeneratePasswordResetToken | Back-End/server/models/user.js:193-207 | stores the digest with an expiry one hour later, returns the raw token, and changes nothing else |
| UserModel.UserDoc.ClearPasswordResetToken | Back-End/server/models/user.js:210-213 | both reset fields cleared, nothing else changes |
| UserModel.UserDoc.GenerateEmailVerificationToken | Back-End/server/models/user.js:230-244 | stores the digest with an expiry 24 hours later, returns the raw token |
| UserModel.UserDoc.ClearEmailVerificationToken | Back-End/server/models/user.js:247-250 | both verification fields cleared, nothing else changes |
| UserModel.UserDoc.VerifyEmail | Back-End/server/models/user.js:267-271 | `emailVerified` and `isVerified` set and the verification token cleared; nothing else changes |
| AuthRoutes.SanitizeUser | Back-End/server/routes/auth.js:11-27 | the public fields are copied; missing tags become the empty list |
| AuthRoutes.SanitizeIgnoresSecrets | Back-End/server/routes/auth.js:11-27 | the password hash and both stored tokens cannot influence the result |
| AuthRoutes.FailuresAreFailingRules | Back-End/server/routes/auth.js:33-58 | over any ordered rule list, a message is reported iff its rule is listed and fails, in rule order |
| AuthRoutes.ValidateRegistrationInput | Back-End/server/routes/auth.js:30-66 | every rule runs in order and each failing one adds its message |
| AuthRoutes.FailuresUnrolled | Back-End/server/routes/auth.js:33-64 | the validator's outcome is the six rule checks concatenated in the order they run |
| AuthRoutes.RegistrationErrorsAreFailingRules | Back-End/server/routes/auth.js:33-64 | every failing rule is reported, not just the first; only those; in rule order; the request passes iff no rule fails |
| AuthRoutes.PassesValidation | Back-End/server/routes/auth.js:33-64 | the validator lets a request through iff names, e-mail, password, confirmation and city are all valid |
| AuthRoutes.Texts | Back-End/server/routes/auth.js:33-58 | the messages of the errors, one for one |
| AuthRoutes.ValidateLoginInput | Back-End/server/routes/auth.js:69-90 | one message per missing field, e-mail first; empty iff both are present |
| AuthRoutes.Rejection | Back-End/server/routes/auth.js:59-65 | 400 with every message, or pass when there are none |
| AuthRoutes.FindByEmail | Back-End/server/routes/auth.js:98 | the first account with the normalised e-mail, or none has it |
| AuthRoutes.NormalEmail | Back-End/server/routes/auth.js:98 | the normalised address is no longer than the input, has no white space at either end and no upper-case ASCII letter |
| AuthRoutes.NormalEmailIdempotent | Back-End/server/routes/auth.js:629 | normalising twice is normalising once, so a stored address looks up its own account |
| AuthRoutes.FirstWithEmail | Back-End/server/routes/auth.js:98 | the first account whose stored e-mail is the given one, or none has it |
| AuthRoutes.Usernames | Back-End/server/routes/auth.js:109 | exactly the usernames the accounts hold |
| AuthRoutes.ParseUserType | Back-End/server/routes/auth.js:118-125 | exactly 'customer', 'business' and 'admin' are user types |
| AuthRoutes.RegisterGuard | Back-End/server/routes/auth.js:98-125 | lets the request through iff the e-mail is free, a given username is free once trimmed (the schema's `trim` setter applies to the query) and the type is known; every refusal is a 400 |
| AuthRoutes.PaddedUsernameRefused | Back-End/server/routes/auth.js:107-115 | a stored username padded with white space is refused as taken, as the trimmed query finds it |
| AuthRoutes.RegisterLadder | Back-End/server/routes/auth.js:98-125 | a taken e-mail wins; the username is checked, trimmed, only when given; the type is checked last |
| AuthRoutes.NewCustomerAccount | Back-End/server/routes/auth.js:128-143 | the new account: trimmed username and names, normalised e-mail, the 'Customer' tag, unverified, active |
| AuthRoutes.CreateCustomer | Back-End/server/routes/auth.js:128-145 | after the save: the hashed password, the type's tag; the trimmed username is kept when present, otherwise it is generated; either way no other account has it |
| AuthRoutes.Register | Back-End/server/routes/auth.js:93-192 | 400 when invalid or a guard fires; 201 exactly when a fresh document is created, with the normalised e-mail, hash, tags, the trimmed or generated username that no other account has, and the sanitized reply |
| AuthRoutes.RegisterTagsBusinessAsCustomer | Back-End/server/routes/auth.js:142 | a business signing up through the customer form carries both 'Customer' and 'Service Provider' |
| AuthRoutes.CustomerLoginGuard | Back-End/server/routes/auth.js:362-390 | before the password: the request goes on iff the account exists, is active and is not a business; every refusal is a non-200 without a user |
| AuthRoutes.BusinessLoginGuard | Back-End/server/routes/auth.js:433-477 | before the password: the request goes on iff the account exists, is active, has a verified e-mail and is not a customer |
| AuthRoutes.BusinessRegisterGuard | Back-End/server/routes/auth.js:206-235 | passes iff the e-mail is free, the trimmed name has at least 2 characters, a type is given, and the trimmed description has at least 20 |
| AuthRoutes.BusinessLocationOf | Back-End/server/routes/auth.js:268-292 | business fields fall back to personal ones; coordinates are deleted exactly when both end up 0; service areas default to the city |
| AuthRoutes.CustomerLoginLadder | Back-End/server/routes/auth.js:362-411 | unknown 401, inactive 401, business 403 before the password matters; 200 iff active, not business, and the password matches |
| AuthRoutes.CustomerLogin | Back-End/server/routes/auth.js:362-411 | a user object is returned exactly on a 200, and only the sanitised account found, after the password matched |
| AuthRoutes.BusinessLoginLadder | Back-End/server/routes/auth.js:433-506 | unverified e-mail 401 and customer 403, both before the password; 200 iff active, verified, not customer, and the password matches |
| AuthRoutes.BusinessLogin | Back-End/server/routes/auth.js:433-506 | a user object is returned exactly on a 200, and only the sanitised account found, after the password matched |
| AuthRoutes.AdminsPassBothPortals | Back-End/server/routes/auth.js:379-390 | neither portal refuses an active, verified admin account with the right password |
| AuthRoutes.PortalLogin | Back-End/server/routes/auth.js:357-506 | 200 iff the account exists, is active and the password matches, and, per portal, it is verified and not a customer (business) or not a business (customer) |
| AuthRoutes.LoginAccount | Back-End/server/routes/auth.js:362-411 | answers as the portal's ladder; on success `lastLogin` becomes now and the account is saved, so the hooks may set a missing username and add the type's tag (`Saved`), and the reply is taken after the save; otherwise nothing changes |
| AuthRoutes.Login | Back-End/server/routes/auth.js:357-423 | 400 on missing input; otherwise the ladder on the first account with that e-mail; on success only that account changes, with `lastLogin` set and the save hooks applied (`Saved`); nothing changes otherwise |
| AuthRoutes.ForgotPasswordHidesUnknownEmail | Back-End/server/routes/auth.js:629-637 | an unknown address gets the same generic 200 as a success |
| AuthRoutes.ForgotPasswordRefusesInactiveOrOtherType | Back-End/server/routes/auth.js:639-653 | a registered address whose account is deactivated, or is not of the requested type, gets 400 and no token |
| AuthRoutes.ForgotPasswordTarget | Back-End/server/routes/auth.js:613-653 | answers 200 or 400; the generic 200 exactly when the input is valid and no account has the e-mail; a token is issued exactly to the first account with that e-mail when it is active and of the requested type, if one is named |
| AuthRoutes.IssueResetToken | Back-End/server/routes/auth.js:656-691 | the account gets a one-hour token and is saved when the mail goes out; otherwise the token is cleared, the account is saved a second time and the answer is 500; either way the new state is `Saved` (one tag at most) and a present username is kept |
| AuthRoutes.ForgotPassword | Back-End/server/routes/auth.js:608-700 | answers and changes as the guard says; the target gets a one-hour token when the mail goes out and the token is cleared with a 500 when it does not, and it is saved with the hooks applied; no other account changes |
| AuthRoutes.FirstPendingReset | Back-End/server/routes/auth.js:724-727 | the first account with a stored, unexpired reset token, or none has one |
| AuthRoutes.ResetChecksInputFirst | Back-End/server/routes/auth.js:709-721 | a missing token or a short password is refused whatever the accounts are |
| AuthRoutes.ResetPasswordTarget | Back-End/server/routes/auth.js:709-742 | every refusal is 400; the reset goes ahead iff the input is valid and the token is accepted by the first account with a pending reset, which is the account reset |
| AuthRoutes.ResetOnlyReachesFirstPending | Back-End/server/routes/auth.js:724-742 | a second pending account's valid token is refused, because only the first pending account is compared |
| AuthRoutes.ResetPassword | Back-End/server/routes/auth.js:704-759 | answers as the ladder says; on success only the target changes: the save hashes the new password, the reset token is cleared, and the hooks' username and tag apply |
| AuthRoutes.ResetAccount | Back-End/server/routes/auth.js:744-747 | the new password is hashed by the save, the reset token is cleared, and the hooks apply |
| AuthRoutes.FirstVerifiable | Back-End/server/routes/auth.js:816-843 | the first pending account whose verification token accepts the token, or none does |
| AuthRoutes.FindVerifiable | Back-End/server/routes/auth.js:831-843 | the search loop returns exactly `FirstVerifiable` |
| AuthRoutes.VerifyEmailTarget | Back-End/server/routes/auth.js:816-870 | the account verified is exactly the first pending account whose token accepts, when it is not yet verified; 400 exactly when no account accepts the token; the 200 without change means that account was already verified |
| AuthRoutes.FirstVerifiableIsFirst | Back-End/server/routes/auth.js:831-843 | the least accepting index is what `FirstVerifiable` returns |
| AuthRoutes.VerifyEmailRoute | Back-End/server/routes/auth.js:804-892 | 400 when no account matches; 200 unchanged when already verified; otherwise only that account is verified, its token cleared and the save hooks applied |
| AuthRoutes.VerifyAccount | Back-End/server/routes/auth.js:873-874 | `verifyEmail()` then the save: both flags set, token cleared, the hooks' username and tag |
| AuthRoutes.VerifiedTokenIsSpent | Back-End/server/routes/auth.js:873 | after a successful verification the same token no longer finds that account |
| AdminRoutes.FindAdmin | Back-End/server/routes/admin.js:38 | the first admin whose key has the value, or none has it |
| AdminRoutes.ReplaceFirst | Back-End/server/routes/admin.js:23 | `replace('Bearer ', '')`: a string starting with the pattern loses it; one without it is unchanged |
| AdminRoutes.AuthenticateAdminLadder | Back-End/server/routes/admin.js:21-54 | let through iff the token verifies, names a stored admin and that admin is active; every refusal is 401 |
| AdminRoutes.AuthenticateAdmin | Back-End/server/routes/admin.js:21-54 | the admin attached to the request is a stored, active admin; a refusal carries one of the four messages |
| AdminRoutes.BearerPrefixStripped | Back-End/server/routes/admin.js:23 | a "Bearer <token>" header yields the token |
| AdminRoutes.AdminLogin | Back-End/server/routes/admin.js:64-91 | a login succeeds only for an active admin with a password set whose password matches |
| AdminRoutes.AdminLoginLadder | Back-End/server/routes/admin.js:68-91 | missing field 400, non-string username 500, then unknown, inactive or no password 401, then wrong password 401; success iff all pass |
| AdminRoutes.AdminStore.constructor | Back-End/server/routes/admin.js:72 | the collection holds the given admins |
| AdminRoutes.AdminStore.Login | Back-End/server/routes/admin.js:64-116 | answers as `AdminLogin`; only on success is `lastLogin` of that admin set to now; nothing else changes |
| AdminRoutes.UpdateStatusLadder | Back-End/server/routes/admin.js:315-346 | a status outside the whitelist gives 400 whether or not the document exists; a listed status gives 404 or 200 |
| AdminRoutes.UpdateStatus | Back-End/server/routes/admin.js:315-346 | the answer is 200, 400 or 404, and 404 exactly when the status is listed but the document is missing |
| AdminRoutes.WhitelistsDiffer | Back-End/server/routes/admin.js:325 | example: the whitelists have 5, 4 and 6 distinct entries, and a status valid for one endpoint can be refused by another |
| AdminRoutes.ComplaintNote | Back-End/server/routes/admin.js:465 | the given note when truthy, else "Status changed to <status>" |
| AdminRoutes.CeilDiv | Back-End/server/routes/admin.js:296 | the least number of pages of `limit` documents that holds `total` |
| AdminRoutes.Skip | Back-End/server/routes/admin.js:245 | for page 1 or later, the documents before the page: none for page 1, and the skip plus one page is `page * limit` |
| AdminRoutes.ComplaintPagination | Back-End/server/routes/admin.js:294-300 | the page and total echoed; `totalPages` is the least page count holding the total; `hasPrevPage` iff page 2 or later; a next page only when there is something to show |
| AdminRoutes.PaginationConsistent | Back-End/server/routes/admin.js:245-300 | `hasNextPage` iff the page is not the last, `hasPrevPage` iff it is not the first; `skip` counts the documents on earlier pages |
| AdminRoutes.UserFilter | Back-End/server/routes/admin.js:667-696 | `userType` unless 'all'; the status sets at most one flag; a search adds the `$or` over four fields |
| AdminRoutes.UserStatusFilterMeaning | Back-End/server/routes/admin.js:673-687 | a user passes the status filter iff their account or e-mail flag matches the status; other statuses let everyone through |
| AdminRoutes.BusinessFilter | Back-End/server/routes/admin.js:160-175 | the status unless 'all'; a search over name, contact e-mail and city |
| AdminRoutes.ReviewFilter | Back-End/server/routes/admin.js:378-393 | the status unless 'all'; a search over comment and title |
| AdminRoutes.ComplaintFilter | Back-End/server/routes/admin.js:248-254 | the status unless 'all', plus exactly the other filter fields that are given |
| AdminRoutes.SortDirection | Back-End/server/routes/admin.js:261 | -1 exactly for 'desc', otherwise 1 |
| AdminRoutes.UserUpdate | Back-End/server/routes/admin.js:743-750 | the update holds exactly the listed fields the body defines, with the body's values |
| AdminRoutes.DeleteUserLadder | Back-End/server/routes/admin.js:774-794 | deleted iff the user exists, owns no business and wrote no review; a business owner is told about businesses first |
| AdminRoutes.DeleteUser | Back-End/server/routes/admin.js:770-794 | the answer is 200, 400 or 404, and 404 exactly when the user does not exist |
| AdminRoutes.RequireSuperAdmin | Back-End/server/routes/admin.js:1087-1089 | 403 exactly when the caller is not a super admin |
| AdminRoutes.SelfDeletionNeverDecides | Back-End/server/routes/admin.js:1087-1107 | for a stored caller, the self-deletion check never decides: the super-admin checks answer first |
| AdminRoutes.DeleteAdminUser | Back-End/server/routes/admin.js:1084-1107 | 403 exactly for a caller who is not a super admin, then 404 exactly for an unknown id; a deleted admin is neither the caller nor a super admin |
| AdminRoutes.StripSensitive | Back-End/server/routes/admin.js:1053-1058 | the body without `password`, `passwordResetToken` and `passwordResetExpires`, every other field kept |
| AdminRoutes.UpdateAdminUser | Back-End/server/routes/admin.js:1045-1080 | 403 for a non-super admin, 404 for an unknown id; otherwise the stripped body is the update |
| AdminRoutes.AddAdminKeepsNamesUnique | Back-End/server/routes/admin.js:928-960 | only a super admin creates, with all four fields, and never with a lower-cased username or e-mail already in use |
| AdminRoutes.AddAdminGuard | Back-End/server/routes/admin.js:928-953 | a caller who is not a super admin is refused with 403; every refusal is 400, 403 or 500, and a 500 only for a username or e-mail that is not a string |
| AdminRoutes.AdminUserFilter | Back-End/server/routes/admin.js:887-904 | a search over username, e-mail and full name; the role unless 'all' |
| ServiceCategories.CategoryQuery | Back-End/server/routes/serviceCategories.js:18-41 | always active and approved; `$or` iff a search; `isFeatured` iff exactly 'true'; `parentCategory` null for 'null', else the value |
| ServiceCategories.CategoryQueryBase | Back-End/server/routes/serviceCategories.js:18-41 | without parameters only the two base conditions; 'True' or '1' do not constrain `isFeatured` |
| ServiceCategories.EchoedFilters | Back-End/server/routes/serviceCategories.js:96-98 | the echo is `search` or null, `featured === 'true'`, and `parent` or null |
| ServiceCategories.BusinessTypeOf | Back-End/server/routes/serviceCategories.js:53-76 | a listed slug maps to its type; any other slug maps to 'other' |
| ServiceCategories.BusinessTypesAreKnown | Back-End/server/routes/serviceCategories.js:53-76 | every result is one of the sixteen business types |
| ServiceCategories.BusinessCount | Back-End/server/routes/serviceCategories.js:79-86 | the count is at most the number of businesses |
| ServiceCategories.CountOnlyActive | Back-End/server/routes/serviceCategories.js:79-86 | only active businesses count, each once; the count adds over concatenation |
| ServiceCategories.CountedOnce | Back-End/server/routes/serviceCategories.js:80-83 | example: a business matching by type and by slug counts once |
| ServiceCategories.FindCategory | Back-End/server/routes/serviceCategories.js:174-181 | the first category with that id or slug, or none has it |
| ServiceCategories.GetCategory | Back-End/server/routes/serviceCategories.js:167-200 | a category is served only when stored, active and approved |
| ServiceCategories.GetCategoryLadder | Back-End/server/routes/serviceCategories.js:172-200 | served iff the lookup finds an active, approved category; 24 hex digits are only looked up as an id |
| ServiceCategories.Lookup | Back-End/server/routes/serviceCategories.js:172-185 | 24 hex digits find the first category with that id (lower-cased), anything else the first with that slug, or none has it |
| ServiceCategories.ObjectIdNeedsExactly24 | Back-End/server/routes/serviceCategories.js:172 | examples: 23 hex digits are a slug; 24 are an id; a non-hex character makes a slug |
| RedisCache.Insert | Back-End/server/config/redis.js:128-129 | inserting a property keeps the multiset, adds one element and keeps key order |
| RedisCache.InsertSorted | Back-End/server/config/redis.js:128-129 | inserting into a key-sorted list gives a key-sorted list |
| RedisCache.SortParams | Back-End/server/config/redis.js:128-129 | sorting keeps every property and nothing else |
| RedisCache.SortParamsSorted | Back-End/server/config/redis.js:128-129 | properties with distinct keys come out in strictly increasing key order |
| RedisCache.LexLess | Back-End/server/config/redis.js:128-129 | a string is never less than itself and nothing is less than the empty string |
| RedisCache.SortedUnique | Back-End/server/config/redis.js:128-131 | two key-sorted lists with the same properties are equal |
| RedisCache.GenerateKeyOrderIndependent | Back-End/server/config/redis.js:127-134 | the key does not depend on the order in which properties were added |
| RedisCache.GenerateKeyShapes | Back-End/server/config/redis.js:127-134 | no params give 'aaa:type:'; one gives 'aaa:type:k:v'; two are joined by '\|' in key order |
| RedisCache.JoinParams | Back-End/server/config/redis.js:130-131 | empty exactly for no properties; otherwise starts with the first `key:value`, followed by `\|` when more follow |
| RedisCache.GenerateKey | Back-End/server/config/redis.js:127-134 | every key starts with `aaa:<type>:` |
| RedisCache.BusinessKey | Back-End/server/config/redis.js:149-158 | the key of a business is `aaa:business:id:<id>` |
| RedisCache.WithoutSearches | Back-End/server/config/redis.js:166-169 | exactly the keys not starting with 'aaa:business_search:', values kept |
| RedisCache.Cache.constructor | Back-End/server/config/redis.js:5-9 | no client, not connected, the server's keys as given |
| RedisCache.Cache.Connect | Back-End/server/config/redis.js:11-57 | a client exists afterwards; a failed connection leaves the flag cleared |
| RedisCache.Cache.OnEvent | Back-End/server/config/redis.js:26-44 | 'connect'/'ready' set the flag and 'error'/'close' clear it |
| RedisCache.Cache.Disconnect | Back-End/server/config/redis.js:119-124 | the flag is cleared only when a client exists |
| RedisCache.Cache.Get | Back-End/server/config/redis.js:59-69 | null unless ready, the command succeeds and the key is held; then the stored value |
| RedisCache.Cache.Set | Back-End/server/config/redis.js:71-81 | true iff ready and the command succeeds; the key then holds the value with the given TTL or 300 |
| RedisCache.Cache.Del | Back-End/server/config/redis.js:83-93 | true iff ready and the command succeeds; the key is then gone |
| RedisCache.Cache.Exists | Back-End/server/config/redis.js:95-105 | true iff ready, the command succeeds and the key is held |
| RedisCache.Cache.Flush | Back-End/server/config/redis.js:107-117 | true iff ready and the command succeeds; the database is then empty |
| RedisCache.Cache.CacheBusinessSearch | Back-End/server/config/redis.js:137-140 | stores the results under the search key with TTL 600 |
| RedisCache.Cache.GetCachedBusinessSearch | Back-End/server/config/redis.js:143-146 | reads under the same search key |
| RedisCache.Cache.CacheBusiness | Back-End/server/config/redis.js:149-152 | stores the business under its key with TTL 1800 |
| RedisCache.Cache.GetCachedBusiness | Back-End/server/config/redis.js:155-158 | reads under the business key |
| RedisCache.Cache.InvalidateBusinessCache | Back-End/server/config/redis.js:161-170 | the business key through the guarded `del`, then every search key via the unguarded client; rejects without a client |
| RedisCache.SetThenGet | Back-End/server/config/redis.js:59-105 | when ready, a set value is read back and exists |
| RedisCache.CacheThenRead | Back-End/server/config/redis.js:137-158 | a cached business and a cached search (params in any order) are read back |
| RedisCache.BusinessKeyIsNotASearch | Back-End/server/config/redis.js:150-166 | a business key never starts with the search prefix, so invalidating searches keeps businesses |
| RedisCache.SearchKeyIsNotBusinessKey | Back-End/server/config/redis.js:137-158 | a business key never equals a business-search key, so caching one never overwrites the other |
| HelpCenter.FirstAt | Back-End/server/routes/helpCenter.js:19 | the index of the first '@', or there is none |
| HelpCenter.ValidEmailIsPattern | Back-End/server/routes/helpCenter.js:19-25 | the check in words (no white space, one '@' not first, an inner '.' after it) accepts exactly what the pattern matches |
| HelpCenter.ValidEmail | Back-End/server/routes/helpCenter.js:19-25 | an accepted address has at least five characters and neither starts nor ends with '@' |
| HelpCenter.EmailAccepted | Back-End/server/routes/helpCenter.js:19-20 | example: 'a@b.c' is accepted |
| HelpCenter.EmailRefused | Back-End/server/routes/helpCenter.js:19-20 | examples: 'a@b.', 'a@.b' and 'a@b@c.d' are refused |
| HelpCenter.Normalise | Back-End/server/routes/helpCenter.js:28-34 | name, subject and message trimmed; e-mail trimmed and lower-cased; category unchanged |
| HelpCenter.Contact | Back-End/server/routes/helpCenter.js:8-62 | 400 exactly for a missing field or an invalid address, with nothing sent; `success` iff 200 |
| HelpCenter.ContactMailOrder | Back-End/server/routes/helpCenter.js:37-62 | the team mail goes first, the sender's second with the same data, and 200 only when both went out |

## Left out

- Socket.IO transport, rooms, CORS and the handshake (`authenticateSocket`): a `Session` is a socket whose user is already resolved. The `join-business` and `error` handlers are not modelled.
- The `message.populate` calls, console logging, and the `catch` branches of unexpected store errors, other than those the model names.
- AdminRoutes.UpdateStatusLadder, AdminRoutes.DeleteUserLadder, AdminRoutes.UpdateAdminUser, AdminRoutes.DeleteAdminUser and MessagingRoutes.MarkReadLadder: an id that is not a valid ObjectId makes `findById`/`findByIdAndUpdate` throw a CastError, which the routes' `catch` answers with 500 (routes/admin.js:332 and 350-352, routes/messaging.js:112 and 139). The model has no malformed ids: such an id is simply one that names no document, answered with 404.
- AdminRoutes.AuthenticateAdmin: a truthy `adminId` in the token that is not a valid ObjectId makes `Admin.findById` throw (routes/admin.js:38), and the `catch` answers 401 "Invalid token." (routes/admin.js:54-57). The model looks such an id up, finds no admin and answers 401 "Access denied. Invalid token.": the status is the same, the message differs.
- Socket.SocketServer.GetConnectedUsers: returns a set; the source returns an array in the insertion order of `connectedUsers`, and that order is not modelled.
- ChatStore.ActiveConversationsOf: the order of the list `getUserConversations` returns (by last-message time, newest first) is not modelled; the contract states membership only.
- AuthRoutes.FindByEmail: e-mail lookups compare against `ToLower(Trim(e))`. This assumes that the schema's `trim` and `lowercase` setters also apply to the value of an `{ email }` query.
- Concurrency: interleavings of awaited store calls across events, and presence across several server instances.
- The Conversation and Message models: only the behaviour listed under `ChatStore` is assumed. The `attachments` field of a message is not modelled.
- bcrypt, SHA-256, random bytes, JWT signing and verification, and nodemailer: they are parameters, and the model does not state their properties.
- The registration and forgot-password e-mail regular expression of `routes/auth.js`: it is the opaque predicate `emailPattern`.
- `routes/auth.js`: the routes refresh, logout, `/me`, verify-reset-token, verify-email-info and resend-verification are not modelled.
- `routes/auth.js`, business register: only the guards and the business location are modelled, not the Business document's other fields or its save.
- `AuthRoutes.VerifyEmailRoute`: takes the token from the path only; the `?token=` fallback is not modelled.
- `AuthRoutes.Register`: a save can still fail on schema rules (lengths, enums) that are not modelled; the model takes every save as successful.
- AuthRoutes.RegisterGuard: the trimmed comparison assumes that the schema's `trim` setter applies to the `{ username }` query, as for e-mail. Without that, the unique index would refuse a padded duplicate at save time with a 500.
- AuthRoutes.IssueResetToken: when the mail fails, the account is saved twice. The model counts the username stored by the first save as taken during the second. It states the exact hook result only for the single save on success; for the double save it states that a present username is kept and that a generated one is not among the stored names.
- `routes/admin.js`: the routes dashboard-stats, service-provider deletion, complaint resolve and notes, profile read and update, logout, `GET /users/:id`, `GET /admin-users/:id`, validate-token and setup-password are not modelled. The e-mails the admin routes send are not modelled either.
- `routes/admin.js`: `page` and `limit` arrive as strings and go through JavaScript arithmetic; the model takes them as positive naturals.
- `routes/serviceCategories.js`: the `/tree` and `/featured` routes are not modelled. Neither are `sort`, `populate` or the ServiceCategory model itself.
- `ServiceCategories.BusinessTypeOf`: an object-prototype name used as a slug (such as `constructor`) reads an inherited property in JavaScript; the model maps it to 'other'.
- `RedisCache.LexLess`: compares Dafny characters; JavaScript's default sort compares UTF-16 code units, which differ only for characters outside the Basic Multilingual Plane.
- `RedisCache.Cache.Connect`: the ioredis options, retry strategy and the network are not modelled; a connection attempt either fails or creates a client.
- `RedisCache.Cache.Get`: JSON encoding and decoding of values are left out: a value is stored and returned as is.
- RedisCache.Cache.Get: entries never expire. The TTL (300, 600 or 1800 seconds) is recorded with each entry, but there is no clock, so after expiry Redis answers null while `Get` and `Exists` still return the value. `RedisCache.SetThenGet` and `RedisCache.CacheThenRead` hold only before the entry expires.
- `Common.ToLower`: lower-cases ASCII letters only, where JavaScript's `toLowerCase` also maps other alphabets.
- `HelpCenter.Contact`: an e-mail field that is not a string is refused as invalid. In JavaScript the pattern is tested against the value's string form, so an array holding one valid address passes the test and then makes `trim` throw, which is a 500.
- Server wiring (`server.js`), the database connection (`config/db.js`), `addDefaultProfilePicture.js`, `routes/services.js` and `models/ServiceProvider.js` are not part of this model.
- Dates are integers of milliseconds, and floating-point arithmetic is not modelled.
