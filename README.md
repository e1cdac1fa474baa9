# Chatty: a verified model of the chat data layer, the real-time rooms and the account rules

Chatty is a Django messenger. It has direct, group and AI conversations with
encrypted message bodies. It pushes real-time room events over WebSockets
(Django Channels) and uses email-based accounts, with verification codes and
magic login links.

This project models the logic of that application in Dafny. The database is
an in-memory store: the sequences of two classes.

- `ChatModels.ChatDb` holds conversations, participants, messages, read receipts and AI bots.
- `AccountModels.AccountDb` holds users, verification codes and login links.

Views and consumers are methods with `modifies` clauses on those stores.
Every decision they make is a function whose contract states its meaning,
and lemmas prove the properties the application relies on:

- content round trip, soft-delete tombstone and unread counting;
- direct-conversation get-or-create;
- the history page and its `has_more` flag;
- the sender-only delete and the archive and mute toggles;
- group and AI chat creation;
- the WebSocket connection life cycle, dispatch and per-recipient filtering;
- presence, code and link validity and single-use consumption;
- the form validators.

The outside world enters as parameters:

- **Clock:** `timezone.now()` is an `int` parameter `now` (seconds).
- **Identifiers:** fresh UUIDs are string parameters with a freshness precondition.
- **Randomness:** `random.choices` and `random.choice` become the parameters `draws` and `pick`.
- **Cipher:** Fernet is an abstract pair of functions, `Codec.Cipher`. `Codec.Sound` states the round-trip hypothesis.
- **ORM:** `order_by`, `first()`, `filter` and slicing are explicit sequence functions in `Base`.
- **Channel layer:** channel groups, the outgoing frames of each socket and the user behind each socket form the state of the class `ChatConsumers.ChannelLayer`.

One module per source file:

| file | module | models |
|---|---|---|
| base.dfy | `Base` | Option/Result, Python `str.strip`/`lower`/`split`/`rsplit`, stable descending sort, filters |
| codec.dfy | `Codec` | `encrypt_message`, `decrypt_message` over an abstract cipher |
| accounts_models.dfy | `AccountModels` | `accounts/models.py` |
| accounts_forms.dfy | `AccountForms` | `accounts/forms.py` |
| accounts_views.dfy | `AccountViews` | `accounts/views.py` |
| chat_models.dfy | `ChatModels` | `chat/models.py` |
| chat_views.dfy | `ChatViews` | `chat/views.py` |
| chat_api.dfy | `ChatApi` | `chat/api_views.py` |
| chat_consumers.dfy | `ChatConsumers` | `chat/consumers.py` |

The model follows the code in four places where a reader might expect otherwise:

- `mark_as_read` sets `last_read_at` to the current time, with no maximum against the old value (chat/models.py:179-182).
- A connection announces "online" on every connect. No per-room session count suppresses repeated announcements (chat/consumers.py:40-52).
- Django's `CharField` strips its input by default, so passwords and verification codes are stripped before their length checks.
- The sign-up password has no maximum length on the form field. Because `password` is a listed model field, model validation after `clean()` still applies the 128-character column limit (accounts/forms.py:33-35).

## Model

| member | source | states |
|---|---|---|
| Codec.Encrypt | chat/models.py:23-28 | An empty text is passed through unchanged. With a sound cipher, a non-empty text gives a non-empty token that opens to the text. |
| Codec.Decrypt | chat/models.py:31-39 | An empty token gives the empty text. Any other token gives the opened text, or exactly "[Unable to decrypt message]" when it does not open. |
| Codec.RoundTrip | chat/models.py:23-39 | With a sound cipher, decrypting what was encrypted gives back the text, the empty text included. |
| Codec.DecryptTotal | chat/models.py:35-39 | Decryption is total: every token gives either its plaintext or the fixed sentinel, never an error. |
| Codec.MarkerCipherSound | chat/models.py:23-39 | The round-trip hypothesis can be met: a concrete cipher satisfies it. |
| ChatModels.Content | chat/models.py:236-241 | A deleted message reads "[Message deleted]" whatever is stored. An empty stored body reads as empty. |
| ChatModels.WithContent | chat/models.py:243-246 | The setter changes only the stored body. It is empty exactly for empty text when the cipher is sound. |
| ChatModels.ContentRoundTrip | chat/models.py:236-246 | Setting `content` to x and reading it back gives x for a non-deleted message under a sound cipher. |
| ChatModels.SoftDeleted | chat/models.py:258-264 | After `soft_delete`, the message is deleted and has no body and no file. It reads as the placeholder under every cipher, and its identity, sender, type, reply and creation time are kept. |
| ChatModels.SoftDeleteIdempotent | chat/models.py:258-264 | A second `soft_delete` only re-stamps `updated_at`. |
| ChatModels.ConversationById | chat/models.py:49-83 | The lookup finds a conversation iff one has that id, and what it finds has that id. |
| ChatModels.MessageById | chat/models.py:185-234 | The lookup finds a message iff one has that id, and what it finds has that id. |
| ChatModels.ParticipantRow | chat/models.py:146-174 | The participant row exists iff the user is a member of the conversation. |
| ChatModels.SenderOf | chat/models.py:271-276 | The sender block: "System" for a message without sender. Otherwise the sender's id, username, display name and picture. |
| ChatModels.ReplyOf | chat/models.py:291-296 | A reply block is present iff the replied-to message exists. Its content is the first 100 characters of that message's content, or all of it when shorter. Its sender is that message's sender's username, or "Unknown" when it has no sender. |
| ChatModels.ToDict | chat/models.py:266-298 | The dictionary carries the message's id, conversation, sender block, type, decrypted content, time, edited and deleted flags and reply block. It carries a file block iff the message has a file. |
| ChatModels.DeletedDict | chat/models.py:258-298 | A soft-deleted message serialises with the placeholder content, the deleted flag and no file block. |
| ChatModels.ChatFilePath | chat/models.py:42-46 | An attachment path lies under `chat_files/<conversation>/<hex>.` and keeps the upload's last dot-field as extension. |
| ChatModels.ChatFilePathExtension | chat/models.py:42-46 | `a.b.ext` keeps `ext`. A name without a dot becomes its own extension. |
| ChatModels.OtherParticipant | chat/models.py:102-106 | Non-direct conversations have no other participant. A found one is a member who is not the user. None is returned only when no such member exists. |
| ChatModels.ConversationDisplayName | chat/models.py:93-100 | The name if set. Otherwise "Group Chat" for a non-direct conversation. For a direct one, the other participant's display name, or "Unknown". |
| ChatModels.DirectPeer | chat/models.py:93-106 | In a direct conversation whose only other member is `peer`, the other participant is `peer` and the unnamed conversation is shown under `peer`'s display name. |
| ChatModels.LastMessage | chat/models.py:108-110 | None iff the conversation has no message. Otherwise a message of the conversation that no other message of it postdates. |
| ChatModels.UnreadCount | chat/models.py:112-119 | 0 for a non-member. For a member, 0 iff no message of the conversation from someone else is newer than `last_read_at`. |
| ChatModels.UnreadAfterInsert | chat/models.py:112-119 | The count starts at 0 and grows by one exactly for each message that is unread for the member, so it is the number of unread messages. |
| ChatModels.MarkAsRead | chat/models.py:179-182 | Reading changes no row's key. `MarkAsReadOnly` gives the rest. |
| ChatModels.MarkAsReadOnly | chat/models.py:179-182 | Only the user's row of that conversation changes, and in it only `last_read_at`, which becomes the read time. |
| ChatModels.MarkReadClearsUnread | chat/models.py:179-182 | Right after `mark_as_read` at t, with no message newer than t, the unread count is 0. |
| ChatModels.FindDirect | chat/models.py:124-133 | The lookup finds a direct conversation with both users iff one exists. |
| ChatModels.FindDirectNewest | chat/models.py:124-133 | `first()` under the `-updated_at` ordering returns the most recently updated such conversation. |
| ChatModels.Touch | chat/models.py:251-256 | The bump keeps every row's id. `TouchOnly` gives the rest. |
| ChatModels.TouchOnly | chat/models.py:251-256 | Only the conversation with that id changes, and in it only `updated_at`, which becomes the save time. |
| ChatModels.InsertKeepsRecent | chat/models.py:251-256 | Bumping the conversation when a message is saved keeps every conversation's `updated_at` at or after its newest message. |
| ChatModels.SaveBumpAsWritten | chat/models.py:251-256 | As written, a message that already has a primary key leaves the conversations unchanged. |
| ChatModels.SaveBumpNeverFires | chat/models.py:251-256 | An example where the save as written leaves a conversation behind its newest message and the bump does not. |
| ChatModels.FlipArchived | chat/views.py:388-390 | The archive flip keeps every row's key. |
| ChatModels.FlipMuted | chat/views.py:407-409 | The mute flip keeps every row's key. |
| ChatModels.ToggleTwice | chat/views.py:388-409 | Toggling archive or mute twice restores the participants exactly. |
| ChatModels.FlipArchivedOnly | chat/views.py:388-390 | Only the requester's row changes, and only its archived flag. |
| ChatModels.FlipMutedOnly | chat/views.py:407-409 | Only the requester's row changes, and only its muted flag. |
| ChatModels.DeleteMessage | chat/models.py:258-264 | Soft deletion keeps every message's id and conversation. |
| ChatViews.DeleteMessageOnly | chat/models.py:258-264 | Only the message with that id changes: it becomes its soft-deleted form; every other message is kept. |
| ChatModels.ConversationKeysKeepValid | chat/models.py:49-83 | Rewriting conversations without changing ids keeps the store's key and foreign-key invariants. |
| ChatModels.MessageKeysKeepValid | chat/models.py:185-234 | Rewriting messages without changing ids or conversations keeps the message and receipt invariants. |
| ChatModels.ParticipantKeysKeepValid | chat/models.py:146-174 | Rewriting participant rows without changing keys keeps the participant invariant. |
| ChatModels.ParticipantKeysKeepMembers | chat/models.py:146-174 | Rewriting participant rows without changing keys keeps membership. |
| ChatModels.ChatDb.constructor | chat/models.py:49-326 | An empty chat store holding the given bots. |
| ChatModels.ChatDb.AddConversation | chat/models.py:49-83 | Appends one conversation with a fresh id and changes nothing else. |
| ChatModels.ChatDb.AddParticipant | chat/models.py:146-174 | Succeeds iff the user is not yet a member, as `unique_together` requires. On success it appends exactly that row. |
| ChatModels.ChatDb.InsertMessage | chat/models.py:251-256 | Appends the message and bumps its conversation's `updated_at` to now. |
| ChatModels.ChatDb.SoftDelete | chat/models.py:258-264 | The messages become `DeleteMessage` of the old ones. |
| ChatModels.ChatDb.MarkRead | chat/models.py:179-182 | The participants become `MarkAsRead` of the old ones. |
| ChatModels.ChatDb.ToggleArchived | chat/views.py:388-390 | The participants become their archived flip. |
| ChatModels.ChatDb.ToggleMuted | chat/views.py:407-409 | The participants become their muted flip. |
| ChatModels.ChatDb.GetOrCreateReceipt | chat/models.py:301-309 | Creates a receipt iff none exists for (message, user). Afterwards one exists, and at most one per pair is kept. |
| ChatModels.ChatDb.GetOrCreateDirect | chat/models.py:121-143 | An existing direct conversation with both users is returned with False, and nothing changes. Otherwise exactly one new direct conversation created by u1 and the rows for u1 and u2 are added, and it is returned with True. For u1 = u2 the second row breaks `unique_together`. |
| ChatViews.ActiveUserById | chat/views.py:110 | Finds the user iff a user with that id exists and is active. |
| ChatViews.StartChat | chat/views.py:107-123 | An unknown or inactive peer gives 404 and the requester gives "yourself", both with nothing changed. An active peer other than the requester always opens a chat: the existing direct conversation unchanged, or a new one with both users as members. |
| ChatModels.AppendMember | chat/models.py:146-174 | Adding one row adds exactly that membership. |
| ChatViews.AddMembersAppends | chat/views.py:160-171 | The loop only appends rows, each a member of the new group. |
| ChatViews.AddMembersMembership | chat/views.py:160-171 | After the loop, the members are the earlier ones plus exactly the listed ids of active users other than the creator. |
| ChatViews.AddMembersSucceeds | chat/views.py:160-171 | With distinct ids, none of them already a member, no insert breaks uniqueness. |
| ChatViews.AddGroupMembers | chat/views.py:160-171 | The loop leaves the participants and the success flag exactly as the reference definition `AddMembers` gives them. |
| ChatViews.CreateGroup | chat/views.py:126-189 | A blank name or no ids are rejected with nothing saved. A non-blank name with ids always creates the group: the group, the creator as owner, the members from the loop and a system message are saved. A failed row insert leaves the group and the rows added so far. |
| ChatViews.ActiveBot | chat/views.py:198 | Finds a bot only if it has that id and is active. None means no such active bot. |
| ChatViews.FindAiChat | chat/views.py:200-205 | Finds an AI conversation by this creator for this model iff one exists, and the one found was updated no earlier than any other that qualifies. |
| ChatViews.StartAiChat | chat/views.py:195-232 | An unknown bot gives 404. An existing AI chat is reused with nothing changed. Otherwise one conversation, the user as owner and one sender-less AI welcome message are added. |
| ChatViews.KindFor | chat/views.py:258 | 'text' iff there is no file, 'image' iff the content type starts with "image/", otherwise 'file'. |
| ChatViews.ReplyTarget | chat/views.py:269-276 | `reply_to` is kept iff it names a message of the same conversation. Otherwise it is dropped. |
| ChatViews.ComposeMessage | chat/views.py:255-276 | The new message has the sender, type, reply and time. It reads back the content under a sound cipher and records the file's path, name and size. |
| ChatViews.SendMessage | chat/views.py:235-287 | A non-participant gets 404. For a participant the message is sent iff its stripped content or its file is present, and a dropped `reply_to` does not stop it. A sent message is appended and the conversation bumped by the corrected save (see Findings). Otherwise nothing is saved. |
| ChatViews.NewestFirstSpec | chat/views.py:302 | `order_by('-created_at')` is sorted and holds exactly the conversation's messages. |
| ChatViews.HistoryBeforeSpec | chat/views.py:302-309 | The history is newest first and holds exactly the messages strictly older than a known `before` message. An unknown `before` is ignored. |
| ChatViews.LoadMore | chat/views.py:290-316 | A non-participant gets 404 and a negative limit fails. A participant with no limit or a non-negative one always gets a page: the rows reversed into oldest-first dictionaries, with `has_more` iff the row count equals the limit. |
| ChatViews.PageRowsSpec | chat/views.py:302-314 | At most `limit` eligible rows. They are the newest eligible ones, oldest first once reversed, and all of them when fewer than `limit`. |
| ChatViews.DeleteMessageView | chat/views.py:319-331 | An unknown id gives 404. Anyone but the sender is refused with nothing changed. The sender's message is soft-deleted. |
| ChatViews.MarkReadView | chat/views.py:334-347 | A participant's row is marked read. Otherwise 404 with nothing changed. |
| ChatViews.ArchiveChat | chat/views.py:379-395 | A participant's archived flag is flipped and its new value returned. Otherwise 404 with nothing changed. |
| ChatViews.MuteChat | chat/views.py:398-414 | A participant's muted flag is flipped and its new value returned. Otherwise 404 with nothing changed. |
| ChatApi.MessageList | chat/api_views.py:48-55 | 404 iff the requester may not open the conversation. Otherwise at most 50 rows. |
| ChatApi.MessageListSpec | chat/api_views.py:55 | The rows are the conversation's newest messages, newest first, and all of them when fewer than 50. |
| ChatApi.OnlineUsers | chat/api_views.py:87-96 | Every listed user exists, is online and is not the requester. |
| ChatApi.UniqueUsersDistinct | chat/api_views.py:89-91 | A user table with unique ids has no duplicate rows, which is what `distinct()` relies on. |
| ChatApi.OnlineUsersSpec | chat/api_views.py:89-93 | The list is exactly the online users sharing a conversation with the requester, in the table order, each once. |
| ChatApi.GenerateAiResponse | chat/api_views.py:148-163 | The reply is one of the four fixed strings. |
| ChatApi.EveryResponseReachable | chat/api_views.py:155-163 | Each of the four strings can be chosen. |
| ChatApi.UserTurn | chat/api_views.py:123-129 | The user's message is text from the user, with the stripped request as content. |
| ChatApi.AiTurn | chat/api_views.py:135-141 | The AI's message has type 'ai', no sender and the chosen reply as content. |
| ChatApi.AiChatPost | chat/api_views.py:104-146 | 400 iff the conversation id is missing or the message strips to empty. 404 iff the conversation is not an AI chat of the user. Both save nothing. Otherwise exactly the user's message then the AI's message are appended, and both are returned as dictionaries. |
| ChatApi.TouchTwice | chat/api_views.py:129-141 | Under the corrected save (see Findings), the conversation carries the second save's time after the two saves. |
| ChatConsumers.RoomName | chat/consumers.py:24 | Room groups are named `chat_<id>`. |
| ChatConsumers.UserGroupName | chat/consumers.py:299 | Notification groups are named `user_<id>`. |
| ChatConsumers.GroupNamesDistinct | chat/consumers.py:24 | Different conversations have different rooms, and no room is a user's notification group. |
| ChatConsumers.EventOf | chat/consumers.py:167-208 | Every outgoing frame but the error frame comes from a group event. |
| ChatConsumers.Deliver | chat/consumers.py:167-208 | A frame is withheld iff the event is typing or status and the receiving user caused it. Otherwise the receiver gets the event's frame. |
| ChatConsumers.Push | chat/consumers.py:93-96 | `send` appends one frame to one socket and leaves every other socket untouched. |
| ChatConsumers.Broadcast | chat/consumers.py:167-208 | `group_send` leaves non-members untouched and adds at most one frame per socket. |
| ChatConsumers.BroadcastReachesAll | chat/consumers.py:167-172 | Message, read and deleted events reach every member, the originator included. |
| ChatConsumers.BroadcastSkipsOriginator | chat/consumers.py:174-193 | Typing and status events reach every member except sockets of the user who caused them. |
| ChatConsumers.Joined | chat/consumers.py:33-36 | `group_add` puts the channel in the group and removes nothing. |
| ChatConsumers.Left | chat/consumers.py:69-72 | `group_discard` takes the channel out of the group and changes no other group. |
| ChatConsumers.JoinThenLeave | chat/consumers.py:33-72 | Joining then leaving restores the groups exactly. |
| ChatConsumers.ChannelLayer.constructor | chat/consumers.py:33-72 | The layer starts with no groups, no sockets and no frames. |
| ChatConsumers.ChannelLayer.GroupAdd | chat/consumers.py:33-36 | The groups become `Joined`, and the channel's user is recorded. |
| ChatConsumers.ChannelLayer.GroupDiscard | chat/consumers.py:69-72 | The groups become `Left`, with nothing else changed. |
| ChatConsumers.ChannelLayer.GroupSend | chat/consumers.py:44-52 | The frames become `Broadcast` to the group's members. |
| ChatConsumers.ChannelLayer.Send | chat/consumers.py:93-96 | The frames become `Push` to the one socket. |
| ChatConsumers.ConnectResult | chat/consumers.py:15-38 | Accepted iff authenticated and a participant. Otherwise closed. The room is named iff the user is authenticated. |
| ChatConsumers.OfflineRoom | chat/consumers.py:54-72 | The intended disconnect announces "offline" to a room only if the connection was accepted into it. |
| ChatConsumers.RejectedDisconnectAnnounces | chat/consumers.py:23-30 | A rejected non-participant has a room name, so the disconnect as written announces "offline" to the room's members. |
| ChatConsumers.Dispatch | chat/consumers.py:80-91 | A missing type means 'message'. The four known names pick their handler. Any other name picks none. |
| ChatConsumers.DispatchByName | chat/consumers.py:84-91 | Every handler is reached by its own type name. |
| ChatConsumers.SocketMessage | chat/consumers.py:98-107 | A message is saved iff the stripped content is non-empty and the conversation exists. It is text from the user, with a reply only into the same conversation. |
| ChatConsumers.ChatConsumer.constructor | chat/consumers.py:12-17 | A consumer starts connecting, with no room. |
| ChatConsumers.ChatConsumer.Connect | chat/consumers.py:15-52 | A rejected connection is closed and joins nothing. An accepted one joins the room, bumps `last_seen` and announces "online" to the room. |
| ChatConsumers.ChatConsumer.Disconnect | chat/consumers.py:54-76 | Closes the consumer. Only a consumer that was in the room announces "offline" and leaves it. The offline status update changes nothing. |
| ChatConsumers.ChatConsumer.DisconnectAsWritten | chat/consumers.py:54-76 | As written, the offline broadcast and the discard happen whenever a room name was set. |
| ChatConsumers.ChatConsumer.OnMessage | chat/consumers.py:98-117 | Empty content saves and sends nothing. Otherwise one message is appended, the conversation is bumped by the corrected save (see Findings) and its dictionary is broadcast. |
| ChatConsumers.ChatConsumer.OnTyping | chat/consumers.py:119-131 | A typing event with the given flag, false when absent, is broadcast. |
| ChatConsumers.ChatConsumer.OnRead | chat/consumers.py:133-147 | Without an id nothing happens. With one, a receipt is got or created when the message exists, and a read event is broadcast even when it does not. |
| ChatConsumers.ChatConsumer.OnDelete | chat/consumers.py:149-163 | Only the sender's own message is soft-deleted and announced. Anything else changes nothing. |
| ChatConsumers.ChatConsumer.Receive | chat/consumers.py:78-96 | Unparseable text sends one "Invalid JSON" error frame to this socket only. Parsed text has exactly the effect of the handler chosen by `Dispatch`, as the handler's effect predicate states it, and an unknown type changes nothing. |
| ChatConsumers.NotificationConsumer.constructor | chat/consumers.py:288-293 | A notification consumer starts connecting, with no group. |
| ChatConsumers.NotificationConsumer.Connect | chat/consumers.py:291-306 | An anonymous visitor is closed. A user joins `user_<id>` and is accepted. |
| ChatConsumers.NotificationConsumer.Disconnect | chat/consumers.py:308-314 | Leaves the user group only if it was joined. |
| AccountModels.DisplayName | accounts/models.py:101-102 | The name if non-empty, else the username. |
| AccountModels.OnlineWindow | accounts/models.py:108-113 | Seen at t, a user is online at `now` iff `now - t < 300`. |
| AccountModels.NeverSeenIsOffline | accounts/models.py:111-113 | A user never seen is offline. |
| AccountModels.DigitChar | accounts/models.py:14-16 | A drawn digit is a character '0' to '9'. |
| AccountModels.GenerateCode | accounts/models.py:14-16 | A code is six decimal digits. |
| AccountModels.CodeDetermined | accounts/models.py:14-16 | The code spells out the drawn digits in order. |
| AccountModels.EveryCodeReachable | accounts/models.py:14-16 | Every six-digit string can be drawn. |
| AccountModels.ExpiryOnSave | accounts/models.py:128-156 | A given expiry is kept. A missing one becomes save time plus the lifetime. |
| AccountModels.NewVerification | accounts/models.py:116-131 | A new verification carries a six-digit code. |
| AccountModels.NewVerificationLifetime | accounts/models.py:128-135 | A fresh code is valid at t iff t is less than an hour after it was created. |
| AccountModels.NewLoginLinkLifetime | accounts/models.py:153-160 | A fresh link is valid at t iff t is less than 15 minutes after it was created. |
| AccountModels.UsedIsInvalid | accounts/models.py:133-160 | A used code or link is never valid. |
| AccountModels.ProfilePicPath | accounts/models.py:47-51 | A picture path lies under `profile_pics/` and keeps the upload's extension. |
| AccountModels.NormalizeEmail | accounts/models.py:28 | An address without '@' is left as it is. |
| AccountModels.NormalizedParts | accounts/models.py:28 | Normalising lower-cases only the domain part, after the last '@'. |
| AccountModels.LowerKeepsSepFree | accounts/models.py:28 | Lower-casing introduces no '@'. |
| AccountModels.CreateUserOutcome | accounts/models.py:22-32 | A missing email or username is an error. Success stores the normalised email. A duplicate id, email or username is an integrity error. |
| AccountModels.SuperuserExtra | accounts/models.py:35-37 | Staff, superuser and verified default to true. Given values are kept. |
| AccountModels.CreateSuperuserOutcome | accounts/models.py:34-44 | An explicit non-true staff or superuser flag is rejected. With both flags absent or true, the outcome is `create_user`'s on the defaulted flags. A created superuser is staff, superuser and, unless told otherwise, verified. |
| AccountModels.SetLastSeen | accounts/models.py:104-106 | Only that user's `last_seen` becomes now. |
| AccountModels.SeenIsOnline | accounts/models.py:104-113 | A user just seen stays online for 300 seconds. |
| AccountModels.UserById | accounts/models.py:54-96 | The lookup finds a user iff one has that id. |
| AccountModels.AppendUser | accounts/models.py:57-59 | Adding a user with a new id, email and username keeps ids, emails and usernames unique. |
| AccountModels.AccountDb.constructor | accounts/models.py:54-160 | An empty account store. |
| AccountModels.AccountDb.CreateUser | accounts/models.py:22-32 | The store grows by the created user exactly when `CreateUserOutcome` succeeds. |
| AccountModels.AccountDb.CreateSuperuser | accounts/models.py:34-44 | The store grows by the created user exactly when `CreateSuperuserOutcome` succeeds. |
| AccountModels.AccountDb.UpdateLastSeen | accounts/models.py:104-106 | The users become `SetLastSeen`. |
| AccountModels.AccountDb.MarkVerified | accounts/views.py:119-120 | The one user becomes verified. |
| AccountModels.AccountDb.CreateVerification | accounts/models.py:116-131 | Appends one fresh code for an existing user. |
| AccountModels.AccountDb.UseVerification | accounts/views.py:116-117 | The one code becomes used. |
| AccountModels.AccountDb.UseAllVerifications | accounts/views.py:150 | Every unused code of the user becomes used. |
| AccountModels.AccountDb.CreateLoginLink | accounts/models.py:141-156 | Appends one link with a fresh token. |
| AccountModels.AccountDb.UseLoginLink | accounts/views.py:259-260 | The link with that token becomes used. |
| AccountForms.CleanCharField | accounts/forms.py:16-31 | The value is stripped. Empty is an error iff required. A non-empty value outside the length bounds is rejected. |
| AccountForms.CleanSignUpEmail | accounts/forms.py:60-64 | Accepted iff the lower-cased email is not registered, and then returned lower-cased. |
| AccountForms.CleanUsername | accounts/forms.py:66-72 | The name is lower-cased. A taken name and then one shorter than 3 are rejected, in that order. |
| AccountForms.CleanAge | accounts/forms.py:74-78 | Rejected iff a present, non-zero age is below 13. |
| AccountForms.SignUpAccepted | accounts/forms.py:16-88 | An accepted sign-up has a free lower-case email, a free username of at least 3 characters, an age of 13 to 150 if given, and a password of 8 to 128 characters equal to its confirmation. |
| AccountForms.SignUpPasswordColumn | accounts/forms.py:33-35 | The password column's check reports an error iff the form-cleaned password is longer than 128 characters. |
| AccountForms.SignUpMismatchReported | accounts/forms.py:80-88 | The mismatch error is raised iff both passwords cleaned and differ. |
| AccountForms.CleanEmailLogin | accounts/forms.py:129-133 | Accepted, as the lower-cased stripped email, exactly when that is the email of a verified account. Otherwise "no verified account", or "required" for a blank field. |
| AccountForms.CleanLogin | accounts/forms.py:101-115 | Valid iff both email and password are non-empty after stripping. |
| AccountForms.CleanCode | accounts/forms.py:139-150 | Valid iff the stripped code has exactly six characters. |
| AccountForms.PasswordChangeAccepted | accounts/forms.py:197-225 | An accepted change has a current password, a new one of at least 8 characters, and a matching confirmation. |
| AccountViews.ClientIp | accounts/views.py:26-33 | Without `X-Forwarded-For` it is `REMOTE_ADDR`. With it, the header's prefix up to the first comma. |
| AccountViews.ClientIpSingle | accounts/views.py:26-33 | A header without a comma is the address itself. |
| AccountViews.MatchingCode | accounts/views.py:109-113 | Finds an unused code of the user with that value iff one exists, and the one found was created no earlier than any other such code. |
| AccountViews.VerifyDecision | accounts/views.py:95-131 | No pending entry, a missing user and a malformed code are each reported exactly in their case. Past those checks, verification succeeds iff the newest unused matching code is still valid. A verified code is one of the user's valid codes. |
| AccountViews.VerifyEmail | accounts/views.py:95-138 | On success, exactly the matched code becomes used, the user verified and the session signed in. Otherwise nothing changes. |
| AccountViews.VerifiedCodeIsSpent | accounts/views.py:115-117 | After use, the spent code can never match again. |
| AccountViews.SpendCodesLeavesNone | accounts/views.py:150 | After invalidation the user has no unused code, and other users' codes are untouched. |
| AccountViews.ResendVerification | accounts/views.py:141-167 | Without a pending user, or with an unknown one, nothing changes. A pending, existing user always gets a code: every earlier code is spent and exactly one new unused code exists. |
| AccountViews.Authenticate | accounts/views.py:182 | Finds a user iff some active user has that email and password, and only such a user. |
| AccountViews.Login | accounts/views.py:170-207 | Bad credentials are reported iff authentication finds nobody. A found unverified user is not signed in and gets a new code and a pending session. A found verified user is signed in and `last_seen` is bumped. Anything else changes nothing. |
| AccountViews.UserByEmail | accounts/views.py:219 | Finds the user with that email or reports none exists. |
| AccountViews.RequestLoginLink | accounts/views.py:210-243 | A signed-in session is told so. Otherwise the form error is reported iff the email is not that of a verified account, and an accepted email always gets a link, appended for that account. |
| AccountViews.LinkByToken | accounts/views.py:252 | Finds the link iff one has that token. |
| AccountViews.MagicLogin | accounts/views.py:250-270 | An unknown token gives 404. A link signs in iff it is valid, and then it is marked used and `last_seen` is bumped. |
| AccountViews.MagicLinkSingleUse | accounts/views.py:252-264 | Once used, the same token is rejected. |
| AccountViews.SearchUsers | accounts/views.py:356-372 | A query shorter than 2 characters after stripping gives nothing. Otherwise at most 10 active, verified users other than the requester whose username or name contains the query. |
| AccountViews.SearchComplete | chat/api_views.py:63-79 | The hits are newest account first and complete when fewer than 10. No hit left out joined later than a listed one. The search API view runs the same query. |

## Left out

- Fernet, SHA-256 and base64 (chat/models.py:15-39) are an abstract cipher with a round-trip hypothesis. Their cryptography is out of scope.
- The async transport, `await` and concurrent interleaving of consumers. One event is processed at a time.
- JSON decoding beyond "parseable or not". Inbound fields are optional strings, and `is_typing` is an optional boolean.
- Channels' own error when a group event has no handler on the receiving consumer. Both consumer kinds read one frame table.
- The user behind each socket is recorded in the channel layer. It stands for the receiving consumer's `self.user` that the outbound filters compare.
- Malformed UUIDs, which raise `ValidationError` in the ORM, and a non-numeric `limit`, which raises in `int()`. Ids are opaque strings and the limit is an optional integer.
- File storage and `file.url`: the stored path stands for the URL. Deleting a file and `group_image` uploads are left out.
- `log_activity`, email sending, console printing, `messages`, `render`, `redirect` and templates.
- Sessions are reduced to two fields, the pending-verification user and the signed-in user. `remember_me` expiry, `login` and `logout` are left out.
- Password hashing: the model keeps the password as given, so `authenticate` compares it directly.
- `EmailField` syntax validation is left out. Lower-casing is ASCII only.
- `ChatModels.ChatDb.Valid` does not require foreign keys from conversations, messages and participants to users. The user table lives in `AccountDb`.
- `ChatApi.AiChatPost` reads two clock values, `t1` and `t2`, one for each save.
- Serializers, the conversation list and detail API views, `search_chats_view`, the backup views, profile editing, password change and account deletion are not part of this model. Only the password-change form is modelled.
- `ChatModels.MarkAsRead` states only key preservation as its own contract. The rest of its frame is in `ChatModels.MarkAsReadOnly`, and its effect on unread counts is in `ChatModels.MarkReadClearsUnread`.
- `ChatModels.Touch` states only key preservation as its own contract. The rest of its frame is in `ChatModels.TouchOnly`, and its ordering consequence is in `ChatModels.InsertKeepsRecent`.
- Views and consumers save messages through the corrected `ChatModels.ChatDb.InsertMessage`, which bumps the conversation's `updated_at`. As written, `send_message_view`, `AIChatAPIView.post` and `handle_message` leave `updated_at` unchanged, because `Message.save` never bumps (see Findings).
- Authentication of the requester: `login_required` on the chat views and the 401 that `user_search_view` returns for an anonymous request (accounts/views.py:357-358) are not modelled. Every view's requester is an authenticated user.

## Findings

| source | as written | input that shows it | evidently intended | confidence | as-written member | corrected member |
|---|---|---|---|---|---|---|
| chat/models.py:251-256 | `Message.save` bumps the conversation's `updated_at` only when `self.pk` is unset. The UUID primary key gets its default when the instance is built, so the bump never runs. | A conversation updated at 0 receives a message at 10. Its `updated_at` stays 0, so `-updated_at` ordering misplaces it. | A new message bumps its conversation to the save time. | not executed | ChatModels.SaveBumpAsWritten, ChatModels.SaveBumpNeverFires | ChatModels.ChatDb.InsertMessage, ChatModels.InsertKeepsRecent |
| chat/consumers.py:54-66 | `connect` sets `room_group_name` before the participant check, and `disconnect` tests only `hasattr(room_group_name)`. | An authenticated user who is not a participant connects and is closed. The disconnect then sends "offline" for that user to every member of the room. | Only a connection accepted into the room announces that it left. | not executed | ChatConsumers.ChatConsumer.DisconnectAsWritten, ChatConsumers.RejectedDisconnectAnnounces | ChatConsumers.ChatConsumer.Disconnect, ChatConsumers.OfflineRoom |
