/**
 * The WebSocket side of the chat (`chat/consumers.py`), as a sequential
 * state machine: one event is processed at a time. The channel layer is a
 * class holding the groups (group name to set of channel names), the user
 * each channel's consumer runs for, and the frames each channel has written
 * to its socket. A `ChatConsumer` moves from connecting to accepted or
 * closed; its inbound frames are dispatched on their `type`, and every
 * group event is filtered by the receiving consumer before it reaches the
 * socket.
 */
module ChatConsumers {
  import opened Base
  import opened Codec
  import opened AccountModels
  import opened ChatModels
  import opened ChatViews

  const ROOM_PREFIX := "chat_"
  const USER_GROUP_PREFIX := "user_"
  const INVALID_JSON := "Invalid JSON"

  /** The group of a conversation's room. */
  function RoomName(conv: string): (g: string)
    ensures StartsWith(g, ROOM_PREFIX)
  {
    ROOM_PREFIX + conv
  }

  /** The personal notification group of a user. */
  function UserGroupName(uid: string): (g: string)
    ensures StartsWith(g, USER_GROUP_PREFIX)
  {
    USER_GROUP_PREFIX + uid
  }

  /** Distinct conversations have distinct rooms, and no room is a user group. */
  lemma GroupNamesDistinct(a: string, b: string, u: string)
    ensures RoomName(a) == RoomName(b) ==> a == b
    ensures RoomName(a) != UserGroupName(u)
  {
    assert RoomName(a)[|ROOM_PREFIX|..] == a;
    assert RoomName(b)[|ROOM_PREFIX|..] == b;
    assert RoomName(a)[0] != UserGroupName(u)[0];
  }

  // ---------------------------------------------------------------------------
  // Events and frames
  // ---------------------------------------------------------------------------

  /** Group events, one constructor per handler name (`user_status`, `typing_indicator`, ...). */
  datatype Event =
    | StatusEvent(userId: string, username: string, isOnline: bool)
    | TypingEvent(userId: string, username: string, isTyping: bool)
    | ChatMessageEvent(message: MessageInfo)
    | ReadEvent(userId: string, messageId: string)
    | DeletedEvent(messageId: string)
    | NewMessageEvent(conversationId: string, message: MessageInfo)
    | ConversationUpdateEvent(conversationId: string, updateType: string)

  /** The JSON frames a consumer writes to its socket, one constructor per `type` value. */
  datatype Frame =
    | StatusFrame(userId: string, username: string, isOnline: bool)
    | TypingFrame(userId: string, username: string, isTyping: bool)
    | MessageFrame(message: MessageInfo)
    | ReadFrame(userId: string, messageId: string)
    | DeletedFrame(messageId: string)
    | ErrorFrame(text: string)
    | NewMessageFrame(conversationId: string, message: MessageInfo)
    | ConversationUpdateFrame(conversationId: string, updateType: string)

  /** Events about a user that are not echoed back to that user's own connections. */
  predicate SelfSuppressed(e: Event) {
    e.StatusEvent? || e.TypingEvent?
  }

  /** The group event a frame reports; an error frame reports none. */
  function EventOf(f: Frame): (r: Option<Event>)
    ensures r.None? <==> f.ErrorFrame?
  {
    match f
    case StatusFrame(u, n, o) => Some(StatusEvent(u, n, o))
    case TypingFrame(u, n, t) => Some(TypingEvent(u, n, t))
    case MessageFrame(m) => Some(ChatMessageEvent(m))
    case ReadFrame(u, m) => Some(ReadEvent(u, m))
    case DeletedFrame(m) => Some(DeletedEvent(m))
    case ErrorFrame(_) => None
    case NewMessageFrame(c, m) => Some(NewMessageEvent(c, m))
    case ConversationUpdateFrame(c, t) => Some(ConversationUpdateEvent(c, t))
  }

  /**
   * The outbound handlers: what the consumer of user `viewer` writes for a
   * group event. Typing and status events caused by the viewer are
   * dropped; everything else is forwarded as it is.
   */
  function Deliver(viewer: string, e: Event): (r: Option<Frame>)
    ensures r.None? <==> SelfSuppressed(e) && e.userId == viewer
    ensures r.Some? ==> EventOf(r.value) == Some(e)
  {
    match e
    case StatusEvent(u, n, o) => if u != viewer then Some(StatusFrame(u, n, o)) else None
    case TypingEvent(u, n, t) => if u != viewer then Some(TypingFrame(u, n, t)) else None
    case ChatMessageEvent(m) => Some(MessageFrame(m))
    case ReadEvent(u, m) => Some(ReadFrame(u, m))
    case DeletedEvent(m) => Some(DeletedFrame(m))
    case NewMessageEvent(c, m) => Some(NewMessageFrame(c, m))
    case ConversationUpdateEvent(c, t) => Some(ConversationUpdateFrame(c, t))
  }

  // ---------------------------------------------------------------------------
  // Sockets and groups
  // ---------------------------------------------------------------------------

  /** The frames a channel has written so far. */
  function Sent(outbox: map<string, seq<Frame>>, ch: string): seq<Frame> {
    if ch in outbox then outbox[ch] else []
  }

  /** `self.send(...)`: one frame more on one socket. */
  function Push(outbox: map<string, seq<Frame>>, ch: string, f: Frame): (r: map<string, seq<Frame>>)
    ensures Sent(r, ch) == Sent(outbox, ch) + [f]
    ensures forall x :: x != ch ==> Sent(r, x) == Sent(outbox, x)
  {
    outbox[ch := Sent(outbox, ch) + [f]]
  }

  /**
   * `group_send`: each channel of the group runs the event's handler for
   * its own user and writes at most one frame; other channels are untouched.
   */
  function Broadcast(outbox: map<string, seq<Frame>>, members: set<string>, viewers: map<string, string>,
                     e: Event): (r: map<string, seq<Frame>>)
    requires members <= viewers.Keys
    ensures forall ch :: ch !in members ==> Sent(r, ch) == Sent(outbox, ch)
    ensures forall ch :: Sent(outbox, ch) <= Sent(r, ch) && |Sent(r, ch)| <= |Sent(outbox, ch)| + 1
  {
    map ch | ch in outbox.Keys + members ::
      if ch in members then Sent(outbox, ch) + OptionToSeq(Deliver(viewers[ch], e)) else outbox[ch]
  }

  /** Message, read and deleted events, and notifications, reach every channel of the group, the sender's included. */
  lemma BroadcastReachesAll(outbox: map<string, seq<Frame>>, members: set<string>, viewers: map<string, string>,
                            e: Event, ch: string)
    requires members <= viewers.Keys && !SelfSuppressed(e) && ch in members
    ensures var r := Broadcast(outbox, members, viewers, e);
      && |Sent(r, ch)| == |Sent(outbox, ch)| + 1
      && Sent(r, ch)[..|Sent(outbox, ch)|] == Sent(outbox, ch)
      && EventOf(Sent(r, ch)[|Sent(outbox, ch)|]) == Some(e)
  {
    var r := Broadcast(outbox, members, viewers, e);
    var f := Deliver(viewers[ch], e).value;
    assert Sent(r, ch) == Sent(outbox, ch) + [f];
  }

  /** Typing and status events reach every channel of the group except those run for the user they are about. */
  lemma BroadcastSkipsOriginator(outbox: map<string, seq<Frame>>, members: set<string>, viewers: map<string, string>,
                                 e: Event, ch: string)
    requires members <= viewers.Keys && SelfSuppressed(e) && ch in members
    ensures var r := Broadcast(outbox, members, viewers, e);
      && (viewers[ch] == e.userId ==> Sent(r, ch) == Sent(outbox, ch))
      && (viewers[ch] != e.userId ==>
            && |Sent(r, ch)| == |Sent(outbox, ch)| + 1
            && EventOf(Sent(r, ch)[|Sent(outbox, ch)|]) == Some(e))
  {
    var r := Broadcast(outbox, members, viewers, e);
    assert Sent(r, ch) == Sent(outbox, ch) + OptionToSeq(Deliver(viewers[ch], e));
  }

  /** A group with the channel added. */
  function Joined(groups: map<string, set<string>>, g: string, ch: string): (r: map<string, set<string>>)
    ensures g in r && ch in r[g]
    ensures forall x :: x in groups ==> x in r && groups[x] <= r[x]
    ensures forall x :: x in r && x != g ==> x in groups && r[x] == groups[x]
  {
    groups[g := (if g in groups then groups[g] else {}) + {ch}]
  }

  /** A group with the channel discarded; discarding from an unknown group does nothing. */
  function Left(groups: map<string, set<string>>, g: string, ch: string): (r: map<string, set<string>>)
    ensures r.Keys == groups.Keys
    ensures g in r ==> ch !in r[g]
    ensures forall x :: x in r && x != g ==> r[x] == groups[x]
  {
    if g in groups then groups[g := groups[g] - {ch}] else groups
  }

  /** Joining and then leaving the same group restores a group the channel was not in. */
  lemma JoinThenLeave(groups: map<string, set<string>>, g: string, ch: string)
    requires g in groups && ch !in groups[g]
    ensures Left(Joined(groups, g, ch), g, ch) == groups
  {
    var r := Left(Joined(groups, g, ch), g, ch);
    assert r[g] == groups[g];
  }

  class ChannelLayer {
    var groups: map<string, set<string>>
    /** The user each channel's consumer runs for, as `str(self.user.id)`. */
    var viewers: map<string, string>
    var outbox: map<string, seq<Frame>>

    /** Every grouped channel belongs to a known consumer. */
    ghost predicate Valid()
      reads this
    {
      forall g :: g in groups ==> groups[g] <= viewers.Keys
    }

    constructor ()
      ensures Valid()
      ensures groups == map[] && viewers == map[] && outbox == map[]
    {
      groups := map[];
      viewers := map[];
      outbox := map[];
    }

    function Members(g: string): set<string>
      reads this
    {
      if g in groups then groups[g] else {}
    }

    /** `group_add`, recording the user the channel runs for. */
    method GroupAdd(g: string, ch: string, viewer: string)
      requires Valid()
      modifies this
      ensures Valid()
      ensures groups == Joined(old(groups), g, ch)
      ensures viewers == old(viewers)[ch := viewer] && outbox == old(outbox)
    {
      groups := Joined(groups, g, ch);
      viewers := viewers[ch := viewer];
    }

    method GroupDiscard(g: string, ch: string)
      requires Valid()
      modifies this
      ensures Valid()
      ensures groups == Left(old(groups), g, ch)
      ensures viewers == old(viewers) && outbox == old(outbox)
    {
      groups := Left(groups, g, ch);
    }

    method GroupSend(g: string, e: Event)
      requires Valid()
      modifies this
      ensures Valid()
      ensures groups == old(groups) && viewers == old(viewers)
      ensures outbox == Broadcast(old(outbox), Members(g), viewers, e)
    {
      outbox := Broadcast(outbox, Members(g), viewers, e);
    }

    method Send(ch: string, f: Frame)
      modifies this
      ensures outbox == Push(old(outbox), ch, f)
      ensures groups == old(groups) && viewers == old(viewers)
    {
      outbox := Push(outbox, ch, f);
    }
  }

  // ---------------------------------------------------------------------------
  // Connection life cycle
  // ---------------------------------------------------------------------------

  datatype ConnState = Connecting | Accepted | Closed

  /** The part of a consumer that `disconnect` looks at: its state and whether `room_group_name` is set. */
  datatype Connection = Connection(state: ConnState, room: Option<string>)

  /** `check_participant`: the conversation exists and the user takes part in it. */
  predicate Admitted(cs: seq<Conversation>, ps: seq<Participant>, conv: string, user: Option<User>) {
    user.Some? && CanOpen(cs, ps, conv, user.value.id)
  }

  /**
   * Where `connect` leaves a consumer: an anonymous visitor is closed
   * before the room is named; a user who is not a participant is closed
   * after it; a participant is accepted into the room.
   */
  function ConnectResult(user: Option<User>, conv: string, admitted: bool): (r: Connection)
    ensures r.state == Accepted <==> user.Some? && admitted
    ensures r.state != Accepted ==> r.state == Closed
    ensures r.room.Some? <==> user.Some?
    ensures r.room.Some? ==> r.room.value == RoomName(conv)
  {
    if user.None? then Connection(Closed, None)
    else if !admitted then Connection(Closed, Some(RoomName(conv)))
    else Connection(Accepted, Some(RoomName(conv)))
  }

  /** `disconnect` as written: the offline broadcast is sent to any room whose name was set. */
  function OfflineRoomAsWritten(c: Connection): Option<string> {
    c.room
  }

  /** The intended `disconnect`: the offline broadcast goes only to a room the consumer joined. */
  function OfflineRoom(c: Connection): (r: Option<string>)
    ensures r.Some? ==> c.state == Accepted && r == c.room
    ensures c.state == Accepted ==> r == c.room
  {
    if c.state == Accepted then c.room else None
  }

  /**
   * A user who is refused because they do not take part in the
   * conversation still has the room name set, so the disconnect as written
   * tells every other channel of the room that this user went offline,
   * although they never joined it; the intended disconnect sends nothing.
   */
  lemma RejectedDisconnectAnnounces(outbox: map<string, seq<Frame>>, members: set<string>,
                                    viewers: map<string, string>, u: User, conv: string, ch: string)
    requires members <= viewers.Keys && ch in members && viewers[ch] != u.id
    ensures var c := ConnectResult(Some(u), conv, false);
      && c.state == Closed
      && OfflineRoomAsWritten(c) == Some(RoomName(conv))
      && OfflineRoom(c).None?
      && Sent(Broadcast(outbox, members, viewers, StatusEvent(u.id, u.username, false)), ch)
         == Sent(outbox, ch) + [StatusFrame(u.id, u.username, false)]
  {
    var r := Broadcast(outbox, members, viewers, StatusEvent(u.id, u.username, false));
    assert Sent(r, ch) == Sent(outbox, ch) + OptionToSeq(Deliver(viewers[ch], StatusEvent(u.id, u.username, false)));
  }

  // ---------------------------------------------------------------------------
  // Inbound frames
  // ---------------------------------------------------------------------------

  /** The keys of an inbound JSON object the handlers read; absent keys are None. */
  datatype Inbound = Inbound(kind: Option<string>, content: Option<string>, replyTo: Option<string>,
                             isTyping: Option<bool>, messageId: Option<string>)

  /** The text of an inbound frame: not JSON, or a parsed object. */
  datatype TextData = Unparseable | Parsed(data: Inbound)

  datatype Handler = HandleMessage | HandleTyping | HandleRead | HandleDelete | NoHandler

  /** The `type` value each handler answers to. */
  function TypeName(h: Handler): string {
    match h
    case HandleMessage => "message"
    case HandleTyping => "typing"
    case HandleRead => "read"
    case HandleDelete => "delete"
    case NoHandler => ""
  }

  /** `receive`: the `type` key picks the handler; a missing key means "message"; unknown types are ignored. */
  function Dispatch(kind: Option<string>): (h: Handler)
    ensures kind.None? ==> h == HandleMessage
    ensures h == NoHandler <==> kind.Some? && kind.value !in {"message", "typing", "read", "delete"}
    ensures h != NoHandler && kind.Some? ==> kind.value == TypeName(h)
  {
    var t := if kind.Some? then kind.value else "message";
    if t == "message" then HandleMessage
    else if t == "typing" then HandleTyping
    else if t == "read" then HandleRead
    else if t == "delete" then HandleDelete
    else NoHandler
  }

  /** Each handler is reached by its own name. */
  lemma DispatchByName(h: Handler)
    requires h != NoHandler
    ensures Dispatch(Some(TypeName(h))) == h
  {
  }

  /** A `message_id` the read and delete handlers act on: present and non-empty. */
  predicate GivenId(id: Option<string>) {
    id.Some? && id.value != ""
  }

  /**
   * `handle_message` with `save_message`: the stripped content, when not
   * empty and when the conversation still exists, becomes a text message
   * from the user that replies to the named message only if that message
   * is in the same conversation.
   */
  function SocketMessage(c: Cipher, cs: seq<Conversation>, ms: seq<Message>, conv: string, sender: string,
                         d: Inbound, msgId: string, now: int): (r: Option<Message>)
    ensures r.Some? <==> Strip(OrEmpty(d.content)) != "" && HasConversation(cs, conv)
    ensures r.Some? ==>
      && r.value.id == msgId && r.value.conversation == conv && r.value.sender == Some(sender)
      && r.value.kind == Text && r.value.replyTo == ReplyTarget(ms, conv, d.replyTo)
      && !r.value.isDeleted && r.value.file.None? && r.value.createdAt == now
      && (Sound(c) ==> Content(c, r.value) == Strip(OrEmpty(d.content)))
  {
    var content := Strip(OrEmpty(d.content));
    if content == "" || !HasConversation(cs, conv) then None
    else Some(ComposeMessage(c, ms, conv, sender, content, d.replyTo, None, msgId, "", now))
  }

  /** `delete_message`: the named message exists and was sent by the user. */
  predicate OwnsMessage(ms: seq<Message>, id: string, uid: string) {
    MessageById(ms, id).Some? && MessageById(ms, id).value.sender == Some(uid)
  }

  class ChatConsumer {
    const channel: string
    /** `scope['user']`: None for an anonymous visitor. */
    const user: Option<User>
    /** The conversation id of the URL route. */
    const route: string
    var conversation: Option<string>
    var room: Option<string>
    var state: ConnState

    /** The room name, once set, is the route's room and belongs to an authenticated user; accepted means joined. */
    ghost predicate Valid()
      reads this
    {
      && (room.Some? ==> user.Some? && room.value == RoomName(route) && conversation == Some(route))
      && (state == Accepted ==> room.Some?)
    }

    constructor (channel: string, user: Option<User>, route: string)
      ensures Valid()
      ensures this.channel == channel && this.user == user && this.route == route
      ensures conversation.None? && room.None? && state == Connecting
    {
      this.channel := channel;
      this.user := user;
      this.route := route;
      conversation := None;
      room := None;
      state := Connecting;
    }

    /**
     * `connect`: anonymous visitors and non-participants are closed with
     * no group change, no presence update and no frame; a participant joins
     * the room, is accepted, has `last_seen` refreshed and is announced
     * online to the room.
     */
    method Connect(db: ChatDb, accounts: AccountDb, layer: ChannelLayer, now: int)
      requires Valid() && state == Connecting && layer.Valid() && accounts.Valid()
      modifies this, layer, accounts
      ensures Valid() && layer.Valid() && accounts.Valid()
      ensures Connection(state, room) == ConnectResult(user, route, Admitted(db.conversations, db.participants, route, user))
      ensures state == Closed ==>
        && layer.groups == old(layer.groups) && layer.viewers == old(layer.viewers) && layer.outbox == old(layer.outbox)
        && accounts.users == old(accounts.users)
      ensures state == Accepted ==>
        var u := user.value;
        && layer.groups == Joined(old(layer.groups), RoomName(route), channel)
        && layer.viewers == old(layer.viewers)[channel := u.id]
        && layer.outbox == Broadcast(old(layer.outbox), layer.Members(RoomName(route)), layer.viewers,
                                     StatusEvent(u.id, u.username, true))
        && accounts.users == SetLastSeen(old(accounts.users), u.id, now)
      ensures accounts.verifications == old(accounts.verifications) && accounts.loginLinks == old(accounts.loginLinks)
    {
      if user.None? {
        state := Closed;
        return;
      }
      conversation := Some(route);
      room := Some(RoomName(route));
      if !CanOpen(db.conversations, db.participants, route, user.value.id) {
        state := Closed;
        return;
      }
      layer.GroupAdd(RoomName(route), channel, user.value.id);
      state := Accepted;
      accounts.UpdateLastSeen(user.value.id, now);
      layer.GroupSend(RoomName(route), StatusEvent(user.value.id, user.value.username, true));
    }

    /**
     * The intended `disconnect`: a consumer that joined its room announces
     * that it went offline and leaves the group; any other consumer changes
     * nothing. Clearing the online status is a no-op in the source.
     */
    method Disconnect(layer: ChannelLayer)
      requires Valid() && layer.Valid()
      modifies this, layer
      ensures Valid() && layer.Valid() && state == Closed
      ensures layer.viewers == old(layer.viewers) && room == old(room)
      ensures OfflineRoom(Connection(old(state), room)).Some? ==>
        var u := user.value;
        && layer.outbox == Broadcast(old(layer.outbox), old(layer.Members(RoomName(route))), layer.viewers,
                                     StatusEvent(u.id, u.username, false))
        && layer.groups == Left(old(layer.groups), RoomName(route), channel)
      ensures OfflineRoom(Connection(old(state), room)).None? ==>
        layer.outbox == old(layer.outbox) && layer.groups == old(layer.groups)
    {
      if state == Accepted {
        layer.GroupSend(room.value, StatusEvent(user.value.id, user.value.username, false));
        layer.GroupDiscard(room.value, channel);
      }
      state := Closed;
    }

    /** `disconnect` as written: the offline broadcast and the discard happen whenever the room name was set. */
    method DisconnectAsWritten(layer: ChannelLayer)
      requires Valid() && layer.Valid()
      modifies this, layer
      ensures Valid() && layer.Valid() && state == Closed
      ensures layer.viewers == old(layer.viewers) && room == old(room)
      ensures OfflineRoomAsWritten(Connection(old(state), room)).Some? ==>
        var u := user.value;
        && layer.outbox == Broadcast(old(layer.outbox), old(layer.Members(RoomName(route))), layer.viewers,
                                     StatusEvent(u.id, u.username, false))
        && layer.groups == Left(old(layer.groups), RoomName(route), channel)
      ensures OfflineRoomAsWritten(Connection(old(state), room)).None? ==>
        layer.outbox == old(layer.outbox) && layer.groups == old(layer.groups)
    {
      if room.Some? {
        layer.GroupSend(room.value, StatusEvent(user.value.id, user.value.username, false));
        layer.GroupDiscard(room.value, channel);
      }
      state := Closed;
    }

    /** The handler state every inbound frame of a joined consumer finds. */
    ghost predicate Ready(db: ChatDb, layer: ChannelLayer)
      reads this, db, layer
    {
      Valid() && state == Accepted && db.Valid() && layer.Valid()
    }

    /**
     * What `handle_message` leaves behind, given the conversations, messages,
     * receipts and outbox before it: nothing for empty content or a vanished
     * conversation; otherwise the message is saved, its conversation bumped
     * and its dictionary broadcast to the room.
     */
    ghost predicate MessageEffect(db: ChatDb, layer: ChannelLayer, c: Cipher, users: seq<User>, d: Inbound,
                                  msgId: string, now: int, cs0: seq<Conversation>, ms0: seq<Message>,
                                  rs0: seq<Receipt>, out0: map<string, seq<Frame>>)
      reads this, db, layer
    {
      user.Some? && layer.Valid() &&
      var m := SocketMessage(c, cs0, ms0, route, user.value.id, d, msgId, now);
      && db.messages == ms0 + OptionToSeq(m)
      && db.conversations == (if m.Some? then Touch(cs0, route, now) else cs0)
      && db.receipts == rs0
      && layer.outbox == (if m.Some? then Broadcast(out0, layer.Members(RoomName(route)), layer.viewers,
                                                    ChatMessageEvent(ToDict(c, users, db.messages, m.value)))
                          else out0)
    }

    /** What `handle_typing` leaves behind: the tables as they were, the indicator (false when absent) broadcast. */
    ghost predicate TypingEffect(db: ChatDb, layer: ChannelLayer, d: Inbound, cs0: seq<Conversation>,
                                 ms0: seq<Message>, rs0: seq<Receipt>, out0: map<string, seq<Frame>>)
      reads this, db, layer
    {
      && user.Some? && layer.Valid()
      && db.messages == ms0 && db.conversations == cs0 && db.receipts == rs0
      && layer.outbox == Broadcast(out0, layer.Members(RoomName(route)), layer.viewers,
                                   TypingEvent(user.value.id, user.value.username,
                                               d.isTyping.Some? && d.isTyping.value))
    }

    /**
     * What `handle_read` leaves behind: without a message id, nothing; with
     * one, a receipt for an existing message is got or created, and the read
     * event is broadcast whether or not the message exists.
     */
    ghost predicate ReadEffect(db: ChatDb, layer: ChannelLayer, d: Inbound, now: int, cs0: seq<Conversation>,
                               ms0: seq<Message>, rs0: seq<Receipt>, out0: map<string, seq<Frame>>)
      reads this, db, layer
    {
      && user.Some? && layer.Valid()
      && db.messages == ms0 && db.conversations == cs0
      && (!GivenId(d.messageId) ==> db.receipts == rs0 && layer.outbox == out0)
      && (GivenId(d.messageId) ==>
            var id := d.messageId.value;
            && db.receipts == (if HasMessage(ms0, id) && !HasReceipt(rs0, id, user.value.id)
                               then rs0 + [Receipt(id, user.value.id, now)] else rs0)
            && layer.outbox == Broadcast(out0, layer.Members(RoomName(route)), layer.viewers,
                                         ReadEvent(user.value.id, id)))
    }

    /** What `handle_delete` leaves behind: only the sender's own message is soft-deleted, and only then is it announced. */
    ghost predicate DeleteEffect(db: ChatDb, layer: ChannelLayer, d: Inbound, now: int, cs0: seq<Conversation>,
                                 ms0: seq<Message>, rs0: seq<Receipt>, out0: map<string, seq<Frame>>)
      reads this, db, layer
    {
      && user.Some? && layer.Valid()
      && db.conversations == cs0 && db.receipts == rs0
      && (GivenId(d.messageId) && OwnsMessage(ms0, d.messageId.value, user.value.id) ==>
            && db.messages == DeleteMessage(ms0, d.messageId.value, now)
            && layer.outbox == Broadcast(out0, layer.Members(RoomName(route)), layer.viewers,
                                         DeletedEvent(d.messageId.value)))
      && (!(GivenId(d.messageId) && OwnsMessage(ms0, d.messageId.value, user.value.id)) ==>
            db.messages == ms0 && layer.outbox == out0)
    }

    /** `handle_message`, with `save_message`. */
    method OnMessage(db: ChatDb, c: Cipher, users: seq<User>, layer: ChannelLayer, d: Inbound, msgId: string, now: int)
      requires Ready(db, layer) && !HasMessage(db.messages, msgId)
      modifies db, layer
      ensures Ready(db, layer)
      ensures MessageEffect(db, layer, c, users, d, msgId, now,
                            old(db.conversations), old(db.messages), old(db.receipts), old(layer.outbox))
      ensures db.participants == old(db.participants) && db.bots == old(db.bots)
      ensures layer.groups == old(layer.groups) && layer.viewers == old(layer.viewers)
    {
      var m := SocketMessage(c, db.conversations, db.messages, route, user.value.id, d, msgId, now);
      if m.Some? {
        db.InsertMessage(m.value, now);
        layer.GroupSend(room.value, ChatMessageEvent(ToDict(c, users, db.messages, m.value)));
      }
    }

    /** `handle_typing`. */
    method OnTyping(db: ChatDb, layer: ChannelLayer, d: Inbound)
      requires Ready(db, layer)
      modifies layer
      ensures Ready(db, layer)
      ensures TypingEffect(db, layer, d, db.conversations, db.messages, db.receipts, old(layer.outbox))
      ensures layer.groups == old(layer.groups) && layer.viewers == old(layer.viewers)
    {
      var typing := d.isTyping.Some? && d.isTyping.value;
      layer.GroupSend(room.value, TypingEvent(user.value.id, user.value.username, typing));
    }

    /** `handle_read`; afterwards an existing message named by the frame has the user's receipt. */
    method OnRead(db: ChatDb, layer: ChannelLayer, d: Inbound, now: int)
      requires Ready(db, layer)
      modifies db, layer
      ensures Ready(db, layer)
      ensures ReadEffect(db, layer, d, now, old(db.conversations), old(db.messages), old(db.receipts), old(layer.outbox))
      ensures GivenId(d.messageId) && HasMessage(db.messages, d.messageId.value) ==>
        HasReceipt(db.receipts, d.messageId.value, user.value.id)
      ensures db.participants == old(db.participants) && db.bots == old(db.bots)
      ensures layer.groups == old(layer.groups) && layer.viewers == old(layer.viewers)
    {
      if GivenId(d.messageId) {
        var id := d.messageId.value;
        if HasMessage(db.messages, id) {
          var _ := db.GetOrCreateReceipt(id, user.value.id, now);
        }
        layer.GroupSend(room.value, ReadEvent(user.value.id, id));
      }
    }

    /** `handle_delete`. */
    method OnDelete(db: ChatDb, layer: ChannelLayer, d: Inbound, now: int)
      requires Ready(db, layer)
      modifies db, layer
      ensures Ready(db, layer)
      ensures DeleteEffect(db, layer, d, now, old(db.conversations), old(db.messages), old(db.receipts), old(layer.outbox))
      ensures db.participants == old(db.participants) && db.bots == old(db.bots)
      ensures layer.groups == old(layer.groups) && layer.viewers == old(layer.viewers)
    {
      if GivenId(d.messageId) && OwnsMessage(db.messages, d.messageId.value, user.value.id) {
        db.SoftDelete(d.messageId.value, now);
        layer.GroupSend(room.value, DeletedEvent(d.messageId.value));
      }
    }

    /**
     * `receive`: text that is not JSON gets exactly one error frame on this
     * socket and changes nothing else; a parsed frame has exactly the effect
     * of the handler its `type` names; an unknown type changes nothing.
     */
    method Receive(db: ChatDb, c: Cipher, users: seq<User>, layer: ChannelLayer, text: TextData,
                   msgId: string, now: int)
      returns (handler: Option<Handler>)
      requires Ready(db, layer) && !HasMessage(db.messages, msgId)
      modifies db, layer
      ensures Ready(db, layer)
      ensures text.Unparseable? <==> handler.None?
      ensures text.Parsed? ==> handler == Some(Dispatch(text.data.kind))
      ensures text.Unparseable? ==>
        && layer.outbox == Push(old(layer.outbox), channel, ErrorFrame(INVALID_JSON))
        && db.messages == old(db.messages) && db.receipts == old(db.receipts)
        && db.conversations == old(db.conversations)
      ensures handler == Some(NoHandler) ==>
        && layer.outbox == old(layer.outbox)
        && db.messages == old(db.messages) && db.receipts == old(db.receipts)
        && db.conversations == old(db.conversations)
      ensures handler == Some(HandleMessage) ==>
        MessageEffect(db, layer, c, users, text.data, msgId, now,
                      old(db.conversations), old(db.messages), old(db.receipts), old(layer.outbox))
      ensures handler == Some(HandleTyping) ==>
        TypingEffect(db, layer, text.data, old(db.conversations), old(db.messages), old(db.receipts), old(layer.outbox))
      ensures handler == Some(HandleRead) ==>
        ReadEffect(db, layer, text.data, now, old(db.conversations), old(db.messages), old(db.receipts), old(layer.outbox))
      ensures handler == Some(HandleDelete) ==>
        DeleteEffect(db, layer, text.data, now, old(db.conversations), old(db.messages), old(db.receipts), old(layer.outbox))
      ensures db.participants == old(db.participants) && db.bots == old(db.bots)
      ensures layer.groups == old(layer.groups) && layer.viewers == old(layer.viewers)
    {
      match text
      case Unparseable =>
        layer.Send(channel, ErrorFrame(INVALID_JSON));
        handler := None;
      case Parsed(d) =>
        var h := Dispatch(d.kind);
        handler := Some(h);
        match h
        case HandleMessage => OnMessage(db, c, users, layer, d, msgId, now);
        case HandleTyping => OnTyping(db, layer, d);
        case HandleRead => OnRead(db, layer, d, now);
        case HandleDelete => OnDelete(db, layer, d, now);
        case NoHandler =>
    }
  }

  // ---------------------------------------------------------------------------
  // Notification consumer
  // ---------------------------------------------------------------------------

  class NotificationConsumer {
    const channel: string
    const user: Option<User>
    var group: Option<string>
    var state: ConnState

    constructor (channel: string, user: Option<User>)
      ensures this.channel == channel && this.user == user
      ensures group.None? && state == Connecting
    {
      this.channel := channel;
      this.user := user;
      group := None;
      state := Connecting;
    }

    /** `connect`: an anonymous visitor is closed; a user joins their personal group and is accepted. */
    method Connect(layer: ChannelLayer)
      requires state == Connecting && group.None? && layer.Valid()
      modifies this, layer
      ensures layer.Valid()
      ensures user.None? ==> state == Closed && group.None? && layer.groups == old(layer.groups)
      ensures user.None? ==> layer.viewers == old(layer.viewers)
      ensures user.Some? ==>
        && state == Accepted && group == Some(UserGroupName(user.value.id))
        && layer.groups == Joined(old(layer.groups), UserGroupName(user.value.id), channel)
        && layer.viewers == old(layer.viewers)[channel := user.value.id]
      ensures layer.outbox == old(layer.outbox)
    {
      if user.None? {
        state := Closed;
        return;
      }
      group := Some(UserGroupName(user.value.id));
      layer.GroupAdd(group.value, channel, user.value.id);
      state := Accepted;
    }

    /** `disconnect`: the personal group is left when it was joined. */
    method Disconnect(layer: ChannelLayer)
      requires layer.Valid()
      modifies this, layer
      ensures layer.Valid() && state == Closed
      ensures old(group).Some? ==> layer.groups == Left(old(layer.groups), old(group).value, channel)
      ensures old(group).None? ==> layer.groups == old(layer.groups)
      ensures layer.viewers == old(layer.viewers) && layer.outbox == old(layer.outbox)
    {
      if group.Some? {
        layer.GroupDiscard(group.value, channel);
      }
      state := Closed;
    }
  }
}
