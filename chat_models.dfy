/**
 * The chat data layer: conversations, their participant rows, messages with
 * encrypted bodies, read receipts and AI bots. The pure rules of the model
 * classes (the `content` property, the tombstone, display names, unread
 * counts, the message dictionary, the upload path) are functions; the
 * database holding the tables is the class `ChatDb`, whose methods are the
 * row writes the views and consumers perform.
 */
module ChatModels {
  import opened Base
  import opened Codec
  import opened AccountModels

  const DELETED_PLACEHOLDER := "[Message deleted]"
  const UNKNOWN_NAME := "Unknown"
  const GROUP_CHAT_NAME := "Group Chat"
  const SYSTEM_NAME := "System"
  const CHAT_FILES := "chat_files/"
  const REPLY_PREVIEW_LENGTH: nat := 100

  datatype ConversationType = Direct | Group | AiChat
  datatype Role = Member | Admin | Owner
  datatype MessageType = Text | Image | File | System | AiReply

  datatype Conversation = Conversation(
    id: string, name: string, kind: ConversationType, createdBy: Option<string>,
    createdAt: int, updatedAt: int, description: string, aiModel: string)

  datatype Participant = Participant(
    conversation: string, user: string, role: Role, joinedAt: int, lastReadAt: int,
    isMuted: bool, isArchived: bool, nickname: string)

  /** A stored message; `stored` is the encrypted body column, `file` the stored upload path. */
  datatype Message = Message(
    id: string, conversation: string, sender: Option<string>, kind: MessageType,
    stored: string, file: Option<string>, fileName: string, fileSize: Option<nat>,
    createdAt: int, updatedAt: int, isEdited: bool, isDeleted: bool, replyTo: Option<string>)

  datatype Receipt = Receipt(message: string, user: string, readAt: int)

  datatype Bot = Bot(id: string, name: string, modelName: string, isActive: bool)

  datatype DbError = IntegrityError

  // ---------------------------------------------------------------------------
  // Message body and tombstone
  // ---------------------------------------------------------------------------

  /** The `content` property: a deleted message reads as the placeholder, any other as its decrypted body. */
  function Content(c: Cipher, m: Message): (text: string)
    ensures m.isDeleted ==> text == DELETED_PLACEHOLDER
    ensures !m.isDeleted && m.stored == "" ==> text == ""
  {
    if m.isDeleted then DELETED_PLACEHOLDER else Decrypt(c, m.stored)
  }

  /** The `content` setter: only the encrypted body column changes. */
  function WithContent(c: Cipher, m: Message, text: string): (r: Message)
    ensures r == m.(stored := r.stored)
    ensures text == "" ==> r.stored == ""
    ensures Sound(c) && text != "" ==> r.stored != ""
  {
    m.(stored := Encrypt(c, text))
  }

  /** Writing a text and reading it back gives the text, for a message that is not deleted. */
  lemma ContentRoundTrip(c: Cipher, m: Message, text: string)
    requires Sound(c) && !m.isDeleted
    ensures Content(c, WithContent(c, m, text)) == text
  {
    RoundTrip(c, text);
  }

  /** `soft_delete`: deleted, body emptied, file removed; `updated_at` is refreshed by the save. */
  function SoftDeleted(m: Message, now: int): (r: Message)
    ensures r.isDeleted && r.stored == "" && r.file.None? && r.updatedAt == now
    ensures forall c :: Content(c, r) == DELETED_PLACEHOLDER
    ensures r.id == m.id && r.conversation == m.conversation && r.sender == m.sender
    ensures r.createdAt == m.createdAt && r.kind == m.kind && r.replyTo == m.replyTo
  {
    m.(isDeleted := true, stored := "", file := None, updatedAt := now)
  }

  /** A second soft delete leaves the tombstone as it was; only the save time moves. */
  lemma SoftDeleteIdempotent(m: Message, t1: int, t2: int)
    ensures SoftDeleted(SoftDeleted(m, t1), t2) == SoftDeleted(m, t2)
    ensures SoftDeleted(SoftDeleted(m, t1), t2) == SoftDeleted(m, t1).(updatedAt := t2)
  {
  }

  // ---------------------------------------------------------------------------
  // Lookups
  // ---------------------------------------------------------------------------

  predicate HasConversation(cs: seq<Conversation>, id: string) {
    exists i :: 0 <= i < |cs| && cs[i].id == id
  }

  predicate UniqueConversations(cs: seq<Conversation>) {
    forall i, j :: 0 <= i < j < |cs| ==> cs[i].id != cs[j].id
  }

  predicate HasMessage(ms: seq<Message>, id: string) {
    exists i :: 0 <= i < |ms| && ms[i].id == id
  }

  predicate UniqueMessages(ms: seq<Message>) {
    forall i, j :: 0 <= i < j < |ms| ==> ms[i].id != ms[j].id
  }

  /** Whether `user` has a participant row in the conversation. */
  predicate IsMember(ps: seq<Participant>, conv: string, user: string) {
    exists i :: 0 <= i < |ps| && ps[i].conversation == conv && ps[i].user == user
  }

  /** `unique_together = ['conversation', 'user']`. */
  predicate UniqueMembers(ps: seq<Participant>) {
    forall i, j :: 0 <= i < j < |ps| ==>
      !(ps[i].conversation == ps[j].conversation && ps[i].user == ps[j].user)
  }

  predicate HasReceipt(rs: seq<Receipt>, message: string, user: string) {
    exists i :: 0 <= i < |rs| && rs[i].message == message && rs[i].user == user
  }

  /** `unique_together = ['message', 'user']`. */
  predicate UniqueReceipts(rs: seq<Receipt>) {
    forall i, j :: 0 <= i < j < |rs| ==> !(rs[i].message == rs[j].message && rs[i].user == rs[j].user)
  }

  function ConversationById(cs: seq<Conversation>, id: string): (r: Option<Conversation>)
    ensures r.Some? <==> HasConversation(cs, id)
    ensures r.Some? ==> r.value in cs && r.value.id == id
  {
    var found := Filter(cs, (c: Conversation) => c.id == id);
    if found == [] then
      assert forall i :: 0 <= i < |cs| ==> cs[i].id != id;
      None
    else
      var i :| 0 <= i < |cs| && cs[i] == found[0];
      Some(found[0])
  }

  function MessageById(ms: seq<Message>, id: string): (r: Option<Message>)
    ensures r.Some? <==> HasMessage(ms, id)
    ensures r.Some? ==> r.value in ms && r.value.id == id
  {
    var found := Filter(ms, (m: Message) => m.id == id);
    if found == [] then
      assert forall i :: 0 <= i < |ms| ==> ms[i].id != id;
      None
    else
      var i :| 0 <= i < |ms| && ms[i] == found[0];
      Some(found[0])
  }

  /** The participant row of `user` in the conversation. */
  function ParticipantRow(ps: seq<Participant>, conv: string, user: string): (r: Option<Participant>)
    ensures r.Some? <==> IsMember(ps, conv, user)
    ensures r.Some? ==> r.value in ps && r.value.conversation == conv && r.value.user == user
  {
    var found := Filter(ps, (p: Participant) => p.conversation == conv && p.user == user);
    if found == [] then
      assert forall i :: 0 <= i < |ps| ==> !(ps[i].conversation == conv && ps[i].user == user);
      None
    else
      var i :| 0 <= i < |ps| && ps[i] == found[0];
      Some(found[0])
  }

  // ---------------------------------------------------------------------------
  // Message dictionary, upload path
  // ---------------------------------------------------------------------------

  datatype SenderInfo = SenderInfo(id: Option<string>, username: string, name: string, profilePic: Option<string>)
  datatype FileInfo = FileInfo(url: string, name: string, size: Option<nat>)
  datatype ReplyInfo = ReplyInfo(id: string, content: string, sender: string)
  datatype MessageInfo = MessageInfo(
    id: string, conversationId: string, sender: SenderInfo, kind: MessageType, content: string,
    createdAt: int, isEdited: bool, isDeleted: bool, file: Option<FileInfo>, replyTo: Option<ReplyInfo>)

  /** The sender block of `to_dict`: the user's fields, or "System" for a message without a sender. */
  function SenderOf(users: seq<User>, sender: Option<string>): (s: SenderInfo)
    ensures sender.None? ==> s == SenderInfo(None, SYSTEM_NAME, SYSTEM_NAME, None)
    ensures sender.Some? && HasUserId(users, sender.value) ==>
      var u := UserById(users, sender.value).value;
      s == SenderInfo(Some(u.id), u.username, DisplayName(u), u.profilePic)
  {
    var u := if sender.Some? then UserById(users, sender.value) else None;
    match u
    case None => SenderInfo(None, SYSTEM_NAME, SYSTEM_NAME, None)
    case Some(x) => SenderInfo(Some(x.id), x.username, DisplayName(x), x.profilePic)
  }

  /** The reply block: the replied-to message's id, its content cut to 100 characters, its sender's username. */
  function ReplyOf(c: Cipher, users: seq<User>, ms: seq<Message>, replyTo: Option<string>): (r: Option<ReplyInfo>)
    ensures r.Some? <==> replyTo.Some? && HasMessage(ms, replyTo.value)
    ensures r.Some? ==>
      var target := MessageById(ms, replyTo.value).value;
      && r.value.id == target.id
      && |r.value.content| <= REPLY_PREVIEW_LENGTH && |r.value.content| <= |Content(c, target)|
      && r.value.content == Content(c, target)[..|r.value.content|]
      && (|Content(c, target)| <= REPLY_PREVIEW_LENGTH ==> r.value.content == Content(c, target))
      && (target.sender.None? ==> r.value.sender == UNKNOWN_NAME)
      && (target.sender.Some? && HasUserId(users, target.sender.value) ==>
            r.value.sender == UserById(users, target.sender.value).value.username)
  {
    if replyTo.None? then None
    else match MessageById(ms, replyTo.value)
      case None => None
      case Some(t) =>
        var sender := if t.sender.Some? && HasUserId(users, t.sender.value)
          then UserById(users, t.sender.value).value.username else UNKNOWN_NAME;
        var text := Content(c, t);
        assert Take(text, REPLY_PREVIEW_LENGTH) == text[..|Take(text, REPLY_PREVIEW_LENGTH)|];
        Some(ReplyInfo(t.id, Take(text, REPLY_PREVIEW_LENGTH), sender))
  }

  /** `Message.to_dict`. */
  function ToDict(c: Cipher, users: seq<User>, ms: seq<Message>, m: Message): (d: MessageInfo)
    ensures d.id == m.id && d.conversationId == m.conversation && d.kind == m.kind
    ensures d.content == Content(c, m) && d.createdAt == m.createdAt
    ensures d.isEdited == m.isEdited && d.isDeleted == m.isDeleted
    ensures d.sender == SenderOf(users, m.sender) && d.replyTo == ReplyOf(c, users, ms, m.replyTo)
    ensures d.file.Some? <==> m.file.Some?
    ensures d.file.Some? ==> d.file.value == FileInfo(m.file.value, m.fileName, m.fileSize)
  {
    MessageInfo(m.id, m.conversation, SenderOf(users, m.sender), m.kind, Content(c, m),
                m.createdAt, m.isEdited, m.isDeleted,
                if m.file.Some? then Some(FileInfo(m.file.value, m.fileName, m.fileSize)) else None,
                ReplyOf(c, users, ms, m.replyTo))
  }

  /** Once soft-deleted, a message serialises as the placeholder and without its file. */
  lemma DeletedDict(c: Cipher, users: seq<User>, ms: seq<Message>, m: Message, now: int)
    ensures var d := ToDict(c, users, ms, SoftDeleted(m, now));
      d.content == DELETED_PLACEHOLDER && d.isDeleted && d.file.None? && d.id == m.id
  {
  }

  /** `chat_file_path`: `chat_files/<conversation>/<random hex>.<extension>`. */
  function ChatFilePath(conv: string, filename: string, hex: string): (path: string)
    ensures StartsWith(path, CHAT_FILES + conv + "/" + hex + ".")
    ensures LastField(path, '.') == LastField(filename, '.')
  {
    var ext := LastField(filename, '.');
    var prefix := CHAT_FILES + conv + "/" + hex;
    LastFieldAfterSep(prefix, '.', ext);
    assert (prefix + ".") + ext == prefix + ['.'] + ext;
    prefix + "." + ext
  }

  /** The extension is what follows the upload name's last dot; a name without a dot is its own extension. */
  lemma ChatFilePathExtension(conv: string, stem: string, ext: string, hex: string)
    requires '.' !in ext
    ensures LastField(ChatFilePath(conv, stem + "." + ext, hex), '.') == ext
    ensures '.' !in stem ==> LastField(ChatFilePath(conv, stem, hex), '.') == stem
  {
    LastFieldAfterSep(stem, '.', ext);
    assert stem + "." + ext == stem + ['.'] + ext;
    if '.' !in stem {
      assert stem[0..] == stem;
    }
  }

  // ---------------------------------------------------------------------------
  // Conversation queries
  // ---------------------------------------------------------------------------

  /** `conversation.participants.exclude(id=user)`: the other members, in the user table's order. */
  function OtherMembers(ps: seq<Participant>, users: seq<User>, conv: string, user: string): seq<User> {
    Filter(UsersByJoinDate(users), (u: User) => IsMember(ps, conv, u.id) && u.id != user)
  }

  /** The other members are user rows; when there are none, no user row is another member. */
  lemma OtherMembersSpec(ps: seq<Participant>, users: seq<User>, conv: string, user: string)
    ensures forall u :: u in OtherMembers(ps, users, conv, user) ==> u in users
    ensures OtherMembers(ps, users, conv, user) == [] ==>
      forall u :: u in users ==> !(IsMember(ps, conv, u.id) && u.id != user)
  {
    var key := (u: User) => u.dateJoined;
    var p := (u: User) => IsMember(ps, conv, u.id) && u.id != user;
    var sorted := UsersByJoinDate(users);
    var others := OtherMembers(ps, users, conv, user);
    assert sorted == SortDesc(users, key) && others == Filter(sorted, p);
    forall u | u in others ensures u in users {
      SortDescHas(users, key, u);
    }
    forall u | u in users ensures others == [] ==> !p(u) {
      SortDescHas(users, key, u);
      FilterHas(sorted, p, u);
    }
  }

  /** `get_other_participant`: the first other member of a direct conversation. */
  function OtherParticipant(conv: Conversation, ps: seq<Participant>, users: seq<User>, user: string): (r: Option<User>)
    ensures conv.kind != Direct ==> r.None?
    ensures r.Some? ==> r.value in users && IsMember(ps, conv.id, r.value.id) && r.value.id != user
    ensures conv.kind == Direct && r.None? ==>
      forall u :: u in users ==> !(IsMember(ps, conv.id, u.id) && u.id != user)
  {
    if conv.kind != Direct then None
    else
      var others := OtherMembers(ps, users, conv.id, user);
      OtherMembersSpec(ps, users, conv.id, user);
      if others == [] then None
      else
        assert others[0] in others;
        Some(others[0])
  }

  /**
   * `get_display_name(for_user)`: the conversation's own name when set; for
   * a direct conversation the other member's display name, or "Unknown";
   * otherwise "Group Chat".
   */
  function ConversationDisplayName(conv: Conversation, ps: seq<Participant>, users: seq<User>, user: string): (name: string)
    ensures conv.name != "" ==> name == conv.name
    ensures conv.name == "" && conv.kind != Direct ==> name == GROUP_CHAT_NAME
    ensures conv.name == "" && conv.kind == Direct ==>
      match OtherParticipant(conv, ps, users, user)
      case None => name == UNKNOWN_NAME
      case Some(u) => name == DisplayName(u)
  {
    if conv.name != "" then conv.name
    else if conv.kind == Direct then
      match OtherParticipant(conv, ps, users, user)
      case None => UNKNOWN_NAME
      case Some(u) => DisplayName(u)
    else GROUP_CHAT_NAME
  }

  /**
   * In a direct conversation whose only members are `me` and `peer`, the
   * other participant is `peer`'s user row, and an unnamed conversation is
   * shown under `peer`'s display name.
   */
  lemma DirectPeer(conv: Conversation, ps: seq<Participant>, users: seq<User>, me: string, peer: string)
    requires conv.kind == Direct && me != peer
    requires UniqueUsers(users) && HasUserId(users, peer) && IsMember(ps, conv.id, peer)
    requires forall u :: u in users && u.id != me && u.id != peer ==> !IsMember(ps, conv.id, u.id)
    ensures OtherParticipant(conv, ps, users, me) == UserById(users, peer)
    ensures conv.name == "" ==> ConversationDisplayName(conv, ps, users, me) == DisplayName(UserById(users, peer).value)
  {
    var p := UserById(users, peer).value;
    var r := OtherParticipant(conv, ps, users, me);
    assert r.Some? by {
      assert !(IsMember(ps, conv.id, p.id) && p.id != me) ==> false;
    }
    var x := r.value;
    assert x.id == peer;
    var i :| 0 <= i < |users| && users[i] == x;
    var j :| 0 <= j < |users| && users[j] == p;
  }

  /** The messages of one conversation, in table order. */
  function MessagesOf(ms: seq<Message>, conv: string): seq<Message> {
    Filter(ms, (m: Message) => m.conversation == conv)
  }

  /** `get_last_message`: the conversation's message with the latest `created_at`. */
  function LastMessage(ms: seq<Message>, conv: string): (r: Option<Message>)
    ensures r.None? <==> forall i :: 0 <= i < |ms| ==> ms[i].conversation != conv
    ensures r.Some? ==>
      && r.value in ms && r.value.conversation == conv
      && forall m :: m in ms && m.conversation == conv ==> m.createdAt <= r.value.createdAt
  {
    var own := MessagesOf(ms, conv);
    var sorted := SortDesc(own, (m: Message) => m.createdAt);
    if sorted == [] then
      assert |own| == 0;
      None
    else
      assert sorted[0] in multiset(own);
      forall m | m in ms && m.conversation == conv ensures m.createdAt <= sorted[0].createdAt {
        var k :| 0 <= k < |ms| && ms[k] == m;
        SortDescHeadIsMax(own, (m: Message) => m.createdAt, m);
      }
      Some(sorted[0])
  }

  /** A message newer than `since`, in the conversation, not sent by `user`. */
  predicate IsUnread(m: Message, conv: string, user: string, since: int) {
    m.conversation == conv && m.createdAt > since && m.sender != Some(user)
  }

  function UnreadSince(ms: seq<Message>, conv: string, user: string, since: int): seq<Message> {
    Filter(ms, (m: Message) => IsUnread(m, conv, user, since))
  }

  /**
   * `get_unread_count`: 0 for a non-member; otherwise the number of the
   * conversation's messages after the member's `last_read_at` that others sent.
   */
  function UnreadCount(ps: seq<Participant>, ms: seq<Message>, conv: string, user: string): (n: nat)
    ensures !IsMember(ps, conv, user) ==> n == 0
    ensures n <= |ms|
    ensures IsMember(ps, conv, user) ==>
      var since := ParticipantRow(ps, conv, user).value.lastReadAt;
      (n == 0 <==> forall m :: m in ms ==> !IsUnread(m, conv, user, since))
  {
    match ParticipantRow(ps, conv, user)
    case None => 0
    case Some(p) =>
      var unread := UnreadSince(ms, conv, user, p.lastReadAt);
      if unread == [] then
        forall m | m in ms ensures !IsUnread(m, conv, user, p.lastReadAt) {
          var k :| 0 <= k < |ms| && ms[k] == m;
        }
        0
      else
        assert unread[0] in ms && IsUnread(unread[0], conv, user, p.lastReadAt);
        |unread|
  }

  /** `mark_as_read`: the member's `last_read_at` becomes `now`, whatever it was. */
  function MarkAsRead(ps: seq<Participant>, conv: string, user: string, now: int): (r: seq<Participant>)
    ensures |r| == |ps|
    ensures forall i :: 0 <= i < |ps| ==> r[i].conversation == ps[i].conversation && r[i].user == ps[i].user
  {
    Map(ps, (p: Participant) => if p.conversation == conv && p.user == user then p.(lastReadAt := now) else p)
  }

  /** `mark_as_read` stamps `last_read_at` on the user's row of the conversation and changes nothing else. */
  lemma MarkAsReadOnly(ps: seq<Participant>, conv: string, user: string, now: int, i: nat)
    requires i < |ps|
    ensures var r := MarkAsRead(ps, conv, user, now);
      && |r| == |ps|
      && (ps[i].conversation == conv && ps[i].user == user ==> r[i] == ps[i].(lastReadAt := now))
      && (!(ps[i].conversation == conv && ps[i].user == user) ==> r[i] == ps[i])
  {
  }

  /** Right after `mark_as_read` at `now`, with no message of the conversation newer than `now`, nothing is unread. */
  lemma MarkReadClearsUnread(ps: seq<Participant>, ms: seq<Message>, conv: string, user: string, now: int)
    requires forall m :: m in ms && m.conversation == conv ==> m.createdAt <= now
    ensures UnreadCount(MarkAsRead(ps, conv, user, now), ms, conv, user) == 0
  {
    var after := MarkAsRead(ps, conv, user, now);
    var row := ParticipantRow(after, conv, user);
    if row.Some? {
      var k :| 0 <= k < |after| && after[k] == row.value;
      assert row.value.lastReadAt == now;
      FilterNone(ms, (m: Message) => IsUnread(m, conv, user, now));
    }
  }

  /**
   * Counting, message by message: a new message adds one to a member's
   * count exactly when it is unread for them; with an empty table counting
   * 0, this fixes the count as the number of unread messages.
   */
  lemma UnreadAfterInsert(ps: seq<Participant>, ms: seq<Message>, m: Message, conv: string, user: string)
    requires IsMember(ps, conv, user)
    ensures UnreadCount(ps, [], conv, user) == 0
    ensures var since := ParticipantRow(ps, conv, user).value.lastReadAt;
      UnreadCount(ps, ms + [m], conv, user)
        == UnreadCount(ps, ms, conv, user) + (if IsUnread(m, conv, user, since) then 1 else 0)
  {
    var since := ParticipantRow(ps, conv, user).value.lastReadAt;
    FilterAppend(ms, [m], (x: Message) => IsUnread(x, conv, user, since));
  }

  /** A direct conversation having both users as members. */
  predicate IsDirectWith(ps: seq<Participant>, c: Conversation, u1: string, u2: string) {
    c.kind == Direct && IsMember(ps, c.id, u1) && IsMember(ps, c.id, u2)
  }

  /** The lookup half of `get_or_create_direct`: the first direct conversation with both users, most recently updated first. */
  function FindDirect(cs: seq<Conversation>, ps: seq<Participant>, u1: string, u2: string): (r: Option<Conversation>)
    ensures r.None? <==> forall c :: c in cs ==> !IsDirectWith(ps, c, u1, u2)
    ensures r.Some? ==> r.value in cs && IsDirectWith(ps, r.value, u1, u2)
  {
    var key := (c: Conversation) => c.updatedAt;
    var p := (c: Conversation) => IsDirectWith(ps, c, u1, u2);
    var sorted := SortDesc(cs, key);
    var hits := Filter(sorted, p);
    if hits == [] then
      forall c | c in cs ensures !p(c) {
        SortDescHas(cs, key, c);
        FilterHas(sorted, p, c);
      }
      None
    else
      SortDescHas(cs, key, hits[0]);
      Some(hits[0])
  }

  /** The conversation found is one of the most recently updated among those that qualify. */
  lemma FindDirectNewest(cs: seq<Conversation>, ps: seq<Participant>, u1: string, u2: string, c: Conversation)
    requires c in cs && IsDirectWith(ps, c, u1, u2)
    ensures FindDirect(cs, ps, u1, u2).Some?
    ensures c.updatedAt <= FindDirect(cs, ps, u1, u2).value.updatedAt
  {
    var key := (c: Conversation) => c.updatedAt;
    var p := (c: Conversation) => IsDirectWith(ps, c, u1, u2);
    var sorted := SortDesc(cs, key);
    var hits := Filter(sorted, p);
    SortDescHas(cs, key, c);
    FilterHas(sorted, p, c);
    var h :| 0 <= h < |hits| && hits[h] == c;
    FilterKeepsOrder(sorted, p, key);
    assert FindDirect(cs, ps, u1, u2) == Some(hits[0]);
    if h > 0 {
      assert key(hits[0]) >= key(hits[h]);
    }
  }

  // ---------------------------------------------------------------------------
  // New rows
  // ---------------------------------------------------------------------------

  function NewDirect(id: string, creator: string, now: int): Conversation {
    Conversation(id, "", Direct, Some(creator), now, now, "", "")
  }

  function NewParticipant(conv: string, user: string, role: Role, now: int): Participant {
    Participant(conv, user, role, now, now, false, false, "")
  }

  /** `Message(...)` before any body or file is set: created and updated now, not edited, not deleted. */
  function NewMessage(id: string, conv: string, sender: Option<string>, kind: MessageType, now: int): Message {
    Message(id, conv, sender, kind, "", None, "", None, now, now, false, false, None)
  }

  /** The conversation's `updated_at` set to `now`, every other row as it was. */
  function Touch(cs: seq<Conversation>, id: string, now: int): (r: seq<Conversation>)
    ensures |r| == |cs|
    ensures forall i :: 0 <= i < |cs| ==> r[i].id == cs[i].id
  {
    Map(cs, (c: Conversation) => if c.id == id then c.(updatedAt := now) else c)
  }

  /** The bump sets `updated_at` on the conversation with that id and changes nothing else. */
  lemma TouchOnly(cs: seq<Conversation>, id: string, now: int, i: nat)
    requires i < |cs|
    ensures var r := Touch(cs, id, now);
      && |r| == |cs|
      && (cs[i].id == id ==> r[i] == cs[i].(updatedAt := now))
      && (cs[i].id != id ==> r[i] == cs[i])
  {
  }

  /** Every conversation was updated no earlier than each of its messages was created. */
  ghost predicate Recent(cs: seq<Conversation>, ms: seq<Message>) {
    forall c, m :: c in cs && m in ms && m.conversation == c.id ==> m.createdAt <= c.updatedAt
  }

  /**
   * Saving a new message bumps its conversation to `now`: with a clock
   * that does not run backwards, each conversation's `updated_at` stays at or
   * after its newest message, which is what ordering by `-updated_at` relies on.
   */
  lemma InsertKeepsRecent(cs: seq<Conversation>, ms: seq<Message>, m: Message, now: int)
    requires Recent(cs, ms)
    requires m.createdAt <= now
    requires forall x :: x in ms ==> x.createdAt <= now
    ensures Recent(Touch(cs, m.conversation, now), ms + [m])
  {
    var after := Touch(cs, m.conversation, now);
    forall c, x | c in after && x in ms + [m] && x.conversation == c.id ensures x.createdAt <= c.updatedAt {
      var k :| 0 <= k < |after| && after[k] == c;
      if cs[k].id == m.conversation {
        assert c.updatedAt == now;
      } else {
        assert c == cs[k];
        assert x != m;
        assert x in ms;
      }
    }
  }

  /** The primary key of a `Message` instance: the UUID field default is assigned when the object is built. */
  function MessagePk(m: Message): Option<string> {
    Some(m.id)
  }

  /** `Message.save` as written: the conversation is bumped only when the instance has no primary key. */
  function SaveBumpAsWritten(cs: seq<Conversation>, m: Message, now: int): (r: seq<Conversation>)
    ensures MessagePk(m).Some? ==> r == cs
  {
    if MessagePk(m).None? then Touch(cs, m.conversation, now) else cs
  }

  /** A conversation updated at 0 receives a message at 10: as written its `updated_at` stays 0, behind its newest message. */
  lemma SaveBumpNeverFires()
    ensures var cs := [NewDirect("c", "u", 0)];
      var m := NewMessage("m", "c", Some("u"), Text, 10);
      && SaveBumpAsWritten(cs, m, 10)[0].updatedAt == 0
      && !Recent(SaveBumpAsWritten(cs, m, 10), [m])
      && Recent(Touch(cs, m.conversation, 10), [m])
  {
    var cs := [NewDirect("c", "u", 0)];
    var m := NewMessage("m", "c", Some("u"), Text, 10);
    assert cs[0] in cs && m in [m];
    var t := Touch(cs, m.conversation, 10);
    assert t[0].updatedAt == 10;
    assert t == [t[0]];
  }

  /** One boolean of one participant row flipped. */
  function FlipArchived(ps: seq<Participant>, conv: string, user: string): (r: seq<Participant>)
    ensures |r| == |ps|
    ensures forall i :: 0 <= i < |ps| ==> r[i].conversation == ps[i].conversation && r[i].user == ps[i].user
  {
    Map(ps, (p: Participant) => if p.conversation == conv && p.user == user then p.(isArchived := !p.isArchived) else p)
  }

  function FlipMuted(ps: seq<Participant>, conv: string, user: string): (r: seq<Participant>)
    ensures |r| == |ps|
    ensures forall i :: 0 <= i < |ps| ==> r[i].conversation == ps[i].conversation && r[i].user == ps[i].user
  {
    Map(ps, (p: Participant) => if p.conversation == conv && p.user == user then p.(isMuted := !p.isMuted) else p)
  }

  /** Toggling archive or mute twice restores the table. */
  lemma {:induction false} ToggleTwice(ps: seq<Participant>, conv: string, user: string)
    ensures FlipArchived(FlipArchived(ps, conv, user), conv, user) == ps
    ensures FlipMuted(FlipMuted(ps, conv, user), conv, user) == ps
  {
    var a := FlipArchived(FlipArchived(ps, conv, user), conv, user);
    var b := FlipMuted(FlipMuted(ps, conv, user), conv, user);
    assert forall i :: 0 <= i < |ps| ==> a[i] == ps[i];
    assert forall i :: 0 <= i < |ps| ==> b[i] == ps[i];
  }

  /** A flip changes only the requester's row, and on that row only the one flag. */
  lemma FlipArchivedOnly(ps: seq<Participant>, conv: string, user: string, i: nat)
    requires i < |ps|
    ensures var r := FlipArchived(ps, conv, user);
      && |r| == |ps|
      && (ps[i].conversation == conv && ps[i].user == user ==> r[i] == ps[i].(isArchived := !ps[i].isArchived))
      && (!(ps[i].conversation == conv && ps[i].user == user) ==> r[i] == ps[i])
  {
  }

  lemma FlipMutedOnly(ps: seq<Participant>, conv: string, user: string, i: nat)
    requires i < |ps|
    ensures var r := FlipMuted(ps, conv, user);
      && |r| == |ps|
      && (ps[i].conversation == conv && ps[i].user == user ==> r[i] == ps[i].(isMuted := !ps[i].isMuted))
      && (!(ps[i].conversation == conv && ps[i].user == user) ==> r[i] == ps[i])
  {
  }

  /** The table with one message soft-deleted. */
  function DeleteMessage(ms: seq<Message>, id: string, now: int): (r: seq<Message>)
    ensures |r| == |ms|
    ensures forall i :: 0 <= i < |ms| ==> r[i].id == ms[i].id && r[i].conversation == ms[i].conversation
  {
    Map(ms, (m: Message) => if m.id == id then SoftDeleted(m, now) else m)
  }

  // ---------------------------------------------------------------------------
  // Table constraints
  // ---------------------------------------------------------------------------

  /** Message ids are unique, and every message's conversation exists; one receipt per pair, on an existing message. */
  ghost predicate MessagesValid(cs: seq<Conversation>, ms: seq<Message>, rs: seq<Receipt>) {
    && UniqueMessages(ms)
    && (forall m :: m in ms ==> HasConversation(cs, m.conversation))
    && UniqueReceipts(rs)
    && (forall r :: r in rs ==> HasMessage(ms, r.message))
  }

  /** One row per (conversation, user), on an existing conversation. */
  ghost predicate ParticipantsValid(cs: seq<Conversation>, ps: seq<Participant>) {
    && UniqueMembers(ps)
    && (forall p :: p in ps ==> HasConversation(cs, p.conversation))
  }

  lemma ConversationKeysKeepValid(a: seq<Conversation>, b: seq<Conversation>, ps: seq<Participant>,
                                  ms: seq<Message>, rs: seq<Receipt>)
    requires UniqueConversations(a) && ParticipantsValid(a, ps) && MessagesValid(a, ms, rs)
    requires |a| == |b| && forall i :: 0 <= i < |a| ==> a[i].id == b[i].id
    ensures UniqueConversations(b) && ParticipantsValid(b, ps) && MessagesValid(b, ms, rs)
  {
    forall id | HasConversation(a, id) ensures HasConversation(b, id) {
      var i :| 0 <= i < |a| && a[i].id == id;
      assert b[i].id == id;
    }
  }

  lemma MessageKeysKeepValid(cs: seq<Conversation>, a: seq<Message>, b: seq<Message>, rs: seq<Receipt>)
    requires MessagesValid(cs, a, rs)
    requires |a| == |b|
    requires forall i :: 0 <= i < |a| ==> a[i].id == b[i].id && a[i].conversation == b[i].conversation
    ensures MessagesValid(cs, b, rs)
  {
    forall r | r in rs ensures HasMessage(b, r.message) {
      var i :| 0 <= i < |a| && a[i].id == r.message;
      assert b[i].id == r.message;
    }
    forall m | m in b ensures HasConversation(cs, m.conversation) {
      var k :| 0 <= k < |b| && b[k] == m;
      assert a[k] in a;
    }
  }

  lemma ParticipantKeysKeepValid(cs: seq<Conversation>, a: seq<Participant>, b: seq<Participant>)
    requires ParticipantsValid(cs, a)
    requires |a| == |b|
    requires forall i :: 0 <= i < |a| ==> a[i].conversation == b[i].conversation && a[i].user == b[i].user
    ensures ParticipantsValid(cs, b)
  {
    forall p | p in b ensures HasConversation(cs, p.conversation) {
      var k :| 0 <= k < |b| && b[k] == p;
      assert a[k] in a;
    }
  }

  /** Rewriting participant rows without touching their keys keeps every membership as it was. */
  lemma ParticipantKeysKeepMembers(a: seq<Participant>, b: seq<Participant>, c: string, u: string)
    requires |a| == |b|
    requires forall i :: 0 <= i < |a| ==> a[i].conversation == b[i].conversation && a[i].user == b[i].user
    ensures IsMember(a, c, u) <==> IsMember(b, c, u)
  {
    if IsMember(a, c, u) {
      var k :| 0 <= k < |a| && a[k].conversation == c && a[k].user == u;
      assert b[k].conversation == c && b[k].user == u;
    }
    if IsMember(b, c, u) {
      var k :| 0 <= k < |b| && b[k].conversation == c && b[k].user == u;
      assert a[k].conversation == c && a[k].user == u;
    }
  }

  /** Appending a row adds exactly that row's membership. */
  lemma AppendMember(ps: seq<Participant>, row: Participant, c: string, uid: string)
    ensures IsMember(ps + [row], c, uid) <==> IsMember(ps, c, uid) || (row.conversation == c && row.user == uid)
  {
    var t := ps + [row];
    if IsMember(ps, c, uid) {
      var k :| 0 <= k < |ps| && ps[k].conversation == c && ps[k].user == uid;
      assert t[k] == ps[k];
    }
    if row.conversation == c && row.user == uid {
      assert t[|ps|] == row;
    }
    if IsMember(t, c, uid) {
      var k :| 0 <= k < |t| && t[k].conversation == c && t[k].user == uid;
      if k < |ps| {
        assert t[k] == ps[k];
      }
    }
  }

  /** Appending a message adds exactly that message's id. */
  lemma AppendMessageIds(ms: seq<Message>, m: Message, id: string)
    ensures HasMessage(ms + [m], id) <==> HasMessage(ms, id) || m.id == id
  {
    var t := ms + [m];
    if HasMessage(ms, id) {
      var k :| 0 <= k < |ms| && ms[k].id == id;
      assert t[k] == ms[k];
    }
    if m.id == id {
      assert t[|ms|] == m;
    }
    if HasMessage(t, id) {
      var k :| 0 <= k < |t| && t[k].id == id;
      if k < |ms| {
        assert t[k] == ms[k];
      }
    }
  }

  /** Bumping `updated_at` keeps the set of conversation ids. */
  lemma TouchKeepsIds(cs: seq<Conversation>, id: string, now: int, x: string)
    ensures HasConversation(Touch(cs, id, now), x) <==> HasConversation(cs, x)
  {
    var t := Touch(cs, id, now);
    if HasConversation(cs, x) {
      var k :| 0 <= k < |cs| && cs[k].id == x;
      assert t[k].id == x;
    }
    if HasConversation(t, x) {
      var k :| 0 <= k < |t| && t[k].id == x;
      assert cs[k].id == x;
    }
  }

  /** A conversation id not in the table has no participant rows. */
  lemma FreshConversationHasNoRows(cs: seq<Conversation>, ps: seq<Participant>, id: string, u: string)
    requires ParticipantsValid(cs, ps) && !HasConversation(cs, id)
    ensures !IsMember(ps, id, u)
  {
    forall k | 0 <= k < |ps| ensures ps[k].conversation != id {
      assert ps[k] in ps;
    }
  }

  // ---------------------------------------------------------------------------
  // The database
  // ---------------------------------------------------------------------------

  class ChatDb {
    var conversations: seq<Conversation>
    var participants: seq<Participant>
    var messages: seq<Message>
    var receipts: seq<Receipt>
    var bots: seq<Bot>

    /** Primary keys and unique pairs hold, and every row's conversation or message exists. */
    ghost predicate Valid()
      reads this
    {
      && UniqueConversations(conversations)
      && ParticipantsValid(conversations, participants)
      && MessagesValid(conversations, messages, receipts)
    }

    constructor (bots: seq<Bot>)
      ensures Valid()
      ensures conversations == [] && participants == [] && messages == [] && receipts == []
      ensures this.bots == bots
    {
      conversations := [];
      participants := [];
      messages := [];
      receipts := [];
      this.bots := bots;
    }

    /** `Conversation.objects.create(...)` with a fresh id. */
    method AddConversation(c: Conversation)
      requires Valid() && !HasConversation(conversations, c.id)
      modifies this
      ensures Valid()
      ensures conversations == old(conversations) + [c]
      ensures participants == old(participants) && messages == old(messages)
      ensures receipts == old(receipts) && bots == old(bots)
    {
      var before := conversations;
      conversations := conversations + [c];
      forall id | HasConversation(before, id) ensures HasConversation(conversations, id) {
        var i :| 0 <= i < |before| && before[i].id == id;
        assert conversations[i].id == id;
      }
    }

    /**
     * `ConversationParticipant.objects.create(...)`: refused with an
     * integrity error when the user already has a row in the conversation.
     */
    method AddParticipant(conv: string, user: string, role: Role, now: int) returns (ok: bool)
      requires Valid() && HasConversation(conversations, conv)
      modifies this
      ensures Valid()
      ensures ok <==> !IsMember(old(participants), conv, user)
      ensures participants == if ok then old(participants) + [NewParticipant(conv, user, role, now)] else old(participants)
      ensures conversations == old(conversations) && messages == old(messages)
      ensures receipts == old(receipts) && bots == old(bots)
    {
      ok := !IsMember(participants, conv, user);
      if ok {
        var before := participants;
        participants := participants + [NewParticipant(conv, user, role, now)];
        forall i, j | 0 <= i < j < |participants|
          ensures !(participants[i].conversation == participants[j].conversation && participants[i].user == participants[j].user)
        {
          if j == |before| {
            assert participants[i] == before[i];
          }
        }
      }
    }

    /**
     * Inserting a new message row. The conversation's `updated_at` moves to
     * `now`; this is the intended reading of `Message.save` (see
     * `SaveBumpAsWritten` for the code as written).
     */
    method InsertMessage(m: Message, now: int)
      requires Valid() && !HasMessage(messages, m.id) && HasConversation(conversations, m.conversation)
      modifies this
      ensures Valid()
      ensures messages == old(messages) + [m]
      ensures conversations == Touch(old(conversations), m.conversation, now)
      ensures participants == old(participants) && receipts == old(receipts) && bots == old(bots)
    {
      var beforeC := conversations;
      var beforeM := messages;
      conversations := Touch(conversations, m.conversation, now);
      ConversationKeysKeepValid(beforeC, conversations, participants, messages, receipts);
      assert HasConversation(conversations, m.conversation) by {
        var i :| 0 <= i < |beforeC| && beforeC[i].id == m.conversation;
        assert conversations[i].id == m.conversation;
      }
      messages := messages + [m];
      forall id | HasMessage(beforeM, id) ensures HasMessage(messages, id) {
        var i :| 0 <= i < |beforeM| && beforeM[i].id == id;
        assert messages[i].id == id;
      }
      forall i, j | 0 <= i < j < |messages| ensures messages[i].id != messages[j].id {
        if j == |beforeM| {
          assert messages[i] == beforeM[i];
        }
      }
    }

    /** `soft_delete` on the row with this id. */
    method SoftDelete(id: string, now: int)
      requires Valid()
      modifies this
      ensures Valid()
      ensures messages == DeleteMessage(old(messages), id, now)
      ensures conversations == old(conversations) && participants == old(participants)
      ensures receipts == old(receipts) && bots == old(bots)
    {
      var before := messages;
      messages := DeleteMessage(messages, id, now);
      MessageKeysKeepValid(conversations, before, messages, receipts);
    }

    /** `mark_as_read` on the member's row. */
    method MarkRead(conv: string, user: string, now: int)
      requires Valid()
      modifies this
      ensures Valid()
      ensures participants == MarkAsRead(old(participants), conv, user, now)
      ensures conversations == old(conversations) && messages == old(messages)
      ensures receipts == old(receipts) && bots == old(bots)
    {
      var before := participants;
      participants := MarkAsRead(participants, conv, user, now);
      ParticipantKeysKeepValid(conversations, before, participants);
    }

    method ToggleArchived(conv: string, user: string)
      requires Valid()
      modifies this
      ensures Valid()
      ensures participants == FlipArchived(old(participants), conv, user)
      ensures conversations == old(conversations) && messages == old(messages)
      ensures receipts == old(receipts) && bots == old(bots)
    {
      var before := participants;
      participants := FlipArchived(participants, conv, user);
      ParticipantKeysKeepValid(conversations, before, participants);
    }

    method ToggleMuted(conv: string, user: string)
      requires Valid()
      modifies this
      ensures Valid()
      ensures participants == FlipMuted(old(participants), conv, user)
      ensures conversations == old(conversations) && messages == old(messages)
      ensures receipts == old(receipts) && bots == old(bots)
    {
      var before := participants;
      participants := FlipMuted(participants, conv, user);
      ParticipantKeysKeepValid(conversations, before, participants);
    }

    /**
     * `MessageReadReceipt.objects.get_or_create(message=..., user=...)`: a
     * receipt is added only when none exists for the pair, so there is never
     * more than one.
     */
    method GetOrCreateReceipt(message: string, user: string, now: int) returns (created: bool)
      requires Valid() && HasMessage(messages, message)
      modifies this
      ensures Valid()
      ensures created <==> !HasReceipt(old(receipts), message, user)
      ensures receipts == if created then old(receipts) + [Receipt(message, user, now)] else old(receipts)
      ensures HasReceipt(receipts, message, user)
      ensures conversations == old(conversations) && participants == old(participants)
      ensures messages == old(messages) && bots == old(bots)
    {
      created := !HasReceipt(receipts, message, user);
      if created {
        var before := receipts;
        receipts := receipts + [Receipt(message, user, now)];
        forall i, j | 0 <= i < j < |receipts|
          ensures !(receipts[i].message == receipts[j].message && receipts[i].user == receipts[j].user)
        {
          if j == |before| {
            assert receipts[i] == before[i];
          }
        }
        assert receipts[|before|].message == message && receipts[|before|].user == user;
      }
    }

    /**
     * `Conversation.get_or_create_direct(u1, u2)`: the existing direct
     * conversation with both users and `False`, or a new one created by `u1`
     * with exactly the two participant rows and `True`. When `u1 == u2` and
     * no conversation is found, the second row violates the unique pair: the
     * conversation and the first row stay, and the call fails.
     */
    method GetOrCreateDirect(u1: string, u2: string, newId: string, now: int)
      returns (r: Result<(Conversation, bool), DbError>)
      requires Valid() && !HasConversation(conversations, newId)
      modifies this
      ensures Valid()
      ensures FindDirect(old(conversations), old(participants), u1, u2).Some? ==>
        && r == Ok((FindDirect(old(conversations), old(participants), u1, u2).value, false))
        && conversations == old(conversations) && participants == old(participants)
      ensures FindDirect(old(conversations), old(participants), u1, u2).None? && u1 != u2 ==>
        && r == Ok((NewDirect(newId, u1, now), true))
        && conversations == old(conversations) + [NewDirect(newId, u1, now)]
        && participants == old(participants) + [NewParticipant(newId, u1, Member, now), NewParticipant(newId, u2, Member, now)]
      ensures FindDirect(old(conversations), old(participants), u1, u2).None? && u1 == u2 ==>
        && r == Err(IntegrityError)
        && conversations == old(conversations) + [NewDirect(newId, u1, now)]
        && participants == old(participants) + [NewParticipant(newId, u1, Member, now)]
      ensures messages == old(messages) && receipts == old(receipts) && bots == old(bots)
    {
      var found := FindDirect(conversations, participants, u1, u2);
      if found.Some? {
        return Ok((found.value, false));
      }
      FreshConversationHasNoRows(conversations, participants, newId, u1);
      FreshConversationHasNoRows(conversations, participants, newId, u2);
      var c := NewDirect(newId, u1, now);
      AddConversation(c);
      assert HasConversation(conversations, newId) by {
        assert conversations[|conversations| - 1].id == newId;
      }
      var row1 := NewParticipant(newId, u1, Member, now);
      var ok1 := AddParticipant(newId, u1, Member, now);
      AppendMember(old(participants), row1, newId, u2);
      var ok2 := AddParticipant(newId, u2, Member, now);
      if u1 == u2 {
        r := Err(IntegrityError);
      } else {
        r := Ok((c, true));
      }
    }
  }
}
