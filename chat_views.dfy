/**
 * The chat views' store logic: starting direct, group and AI
 * conversations, sending a message, paging back through history, deleting a
 * message, marking a conversation read and the archive and mute toggles.
 * The requester is the logged-in user; each view returns an outcome naming
 * the response it would give. Rendering, redirects and activity logging
 * are left out.
 */
module ChatViews {
  import opened Base
  import opened Codec
  import opened AccountModels
  import opened ChatModels

  const DEFAULT_PAGE_LIMIT: nat := 50
  const IMAGE_PREFIX := "image/"
  const AI_CHAT_PREFIX := "Chat with "

  /** `get_object_or_404(Conversation, id=..., participants=user)` succeeds. */
  predicate CanOpen(cs: seq<Conversation>, ps: seq<Participant>, conv: string, user: string) {
    HasConversation(cs, conv) && IsMember(ps, conv, user)
  }

  /** `User.objects.get(id=..., is_active=True)`, or nothing. */
  function ActiveUserById(users: seq<User>, id: string): (r: Option<User>)
    ensures r.Some? ==> r.value in users && r.value.id == id && r.value.isActive
    ensures r.None? <==> UserById(users, id).None? || !UserById(users, id).value.isActive
  {
    match UserById(users, id)
    case None => None
    case Some(u) => if u.isActive then Some(u) else None
  }

  // ---------------------------------------------------------------------------
  // start_chat_view
  // ---------------------------------------------------------------------------

  datatype StartChatOutcome = PeerNotFound | ChatWithSelf | ChatOpened(conv: Conversation, created: bool)

  /**
   * `start_chat_view`: the peer must be an active user other than the
   * requester; the direct conversation is then found or created.
   */
  method StartChat(db: ChatDb, users: seq<User>, me: string, peerId: string, newId: string, now: int)
    returns (outcome: StartChatOutcome)
    requires db.Valid() && !HasConversation(db.conversations, newId)
    modifies db
    ensures db.Valid()
    ensures ActiveUserById(users, peerId).None? ==> outcome == PeerNotFound
    ensures ActiveUserById(users, peerId).Some? && peerId == me ==> outcome == ChatWithSelf
    ensures ActiveUserById(users, peerId).Some? && peerId != me ==> outcome.ChatOpened?
    ensures !outcome.ChatOpened? ==>
      db.conversations == old(db.conversations) && db.participants == old(db.participants)
    ensures outcome.ChatOpened? ==>
      var found := FindDirect(old(db.conversations), old(db.participants), me, peerId);
      && ActiveUserById(users, peerId).Some? && peerId != me
      && (found.Some? ==>
            && outcome == ChatOpened(found.value, false)
            && db.conversations == old(db.conversations) && db.participants == old(db.participants))
      && (found.None? ==>
            && outcome == ChatOpened(NewDirect(newId, me, now), true)
            && db.conversations == old(db.conversations) + [NewDirect(newId, me, now)]
            && db.participants == old(db.participants)
                 + [NewParticipant(newId, me, Member, now), NewParticipant(newId, peerId, Member, now)])
    ensures db.messages == old(db.messages) && db.receipts == old(db.receipts) && db.bots == old(db.bots)
  {
    var peer := ActiveUserById(users, peerId);
    if peer.None? {
      return PeerNotFound;
    }
    if peer.value.id == me {
      return ChatWithSelf;
    }
    var r := db.GetOrCreateDirect(me, peerId, newId, now);
    outcome := ChatOpened(r.value.0, r.value.1);
  }

  // ---------------------------------------------------------------------------
  // create_group_view
  // ---------------------------------------------------------------------------

  /** The participant table after the loop over the submitted ids, and whether every insert succeeded. */
  datatype Added = Added(rows: seq<Participant>, ok: bool)

  /**
   * The loop of `create_group_view`: each id naming an active user other
   * than the creator gets a member row; unknown and inactive ids and the
   * creator's own id are skipped; a second row for the same user is an
   * integrity error that ends the loop with the rows added so far.
   */
  function AddMembers(ps: seq<Participant>, conv: string, users: seq<User>, me: string,
                      ids: seq<string>, now: int): (r: Added)
    decreases |ids|
  {
    if ids == [] then Added(ps, true)
    else
      var u := ActiveUserById(users, ids[0]);
      if u.None? || u.value.id == me then AddMembers(ps, conv, users, me, ids[1..], now)
      else if IsMember(ps, conv, u.value.id) then Added(ps, false)
      else AddMembers(ps + [NewParticipant(conv, u.value.id, Member, now)], conv, users, me, ids[1..], now)
  }

  /** One turn of the loop. */
  lemma AddMembersStep(ps: seq<Participant>, conv: string, users: seq<User>, me: string, ids: seq<string>, now: int)
    requires ids != []
    ensures var u := ActiveUserById(users, ids[0]);
      if u.None? || u.value.id == me then
        AddMembers(ps, conv, users, me, ids, now) == AddMembers(ps, conv, users, me, ids[1..], now)
      else if IsMember(ps, conv, u.value.id) then
        AddMembers(ps, conv, users, me, ids, now) == Added(ps, false)
      else
        AddMembers(ps, conv, users, me, ids, now)
          == AddMembers(ps + [NewParticipant(conv, u.value.id, Member, now)], conv, users, me, ids[1..], now)
  {
  }

  /** An id the loop adds: it names an active user who is not the creator. */
  predicate Addable(users: seq<User>, me: string, id: string) {
    ActiveUserById(users, id).Some? && id != me
  }

  /** The loop only appends, and what it appends are member rows of the new conversation. */
  lemma {:induction false} AddMembersAppends(ps: seq<Participant>, conv: string, users: seq<User>,
                                             me: string, ids: seq<string>, now: int)
    ensures var rows := AddMembers(ps, conv, users, me, ids, now).rows;
      && |ps| <= |rows| && rows[..|ps|] == ps
      && forall k :: |ps| <= k < |rows| ==> rows[k].conversation == conv && rows[k].role == Member
    decreases |ids|
  {
    if ids == [] {
      assert ps[..|ps|] == ps;
    } else {
      AddMembersStep(ps, conv, users, me, ids, now);
      var u := ActiveUserById(users, ids[0]);
      if u.None? || u.value.id == me {
        AddMembersAppends(ps, conv, users, me, ids[1..], now);
      } else if !IsMember(ps, conv, u.value.id) {
        var row := NewParticipant(conv, u.value.id, Member, now);
        var ps' := ps + [row];
        AddMembersAppends(ps', conv, users, me, ids[1..], now);
        var rows := AddMembers(ps', conv, users, me, ids[1..], now).rows;
        assert rows[..|ps|] == ps by {
          assert rows[..|ps|] == rows[..|ps'|][..|ps|];
          assert ps'[..|ps|] == ps;
        }
        forall k | |ps| <= k < |rows| ensures rows[k].conversation == conv && rows[k].role == Member {
          if k == |ps| {
            assert rows[k] == rows[..|ps'|][k] == row;
          }
        }
      } else {
        assert ps[..|ps|] == ps;
      }
    }
  }

  /**
   * When the loop succeeds, a user is a member afterwards exactly when they
   * were before, or their id was submitted and names an active user other
   * than the creator.
   */
  lemma {:induction false} AddMembersMembership(ps: seq<Participant>, conv: string, users: seq<User>,
                                                 me: string, ids: seq<string>, now: int, c: string, uid: string)
    requires AddMembers(ps, conv, users, me, ids, now).ok
    ensures var rows := AddMembers(ps, conv, users, me, ids, now).rows;
      IsMember(rows, c, uid) <==> IsMember(ps, c, uid) || (c == conv && uid in ids && Addable(users, me, uid))
    decreases |ids|
  {
    if ids != [] {
      var u := ActiveUserById(users, ids[0]);
      assert ids == [ids[0]] + ids[1..];
      if u.None? || u.value.id == me {
        AddMembersMembership(ps, conv, users, me, ids[1..], now, c, uid);
        assert !Addable(users, me, ids[0]);
      } else {
        var row := NewParticipant(conv, u.value.id, Member, now);
        AddMembersMembership(ps + [row], conv, users, me, ids[1..], now, c, uid);
        AppendMember(ps, row, c, uid);
      }
    }
  }

  /** Distinct ids, none naming an existing member, never hit the integrity error. */
  lemma {:induction false} AddMembersSucceeds(ps: seq<Participant>, conv: string, users: seq<User>,
                                              me: string, ids: seq<string>, now: int)
    requires forall i, j :: 0 <= i < j < |ids| ==> ids[i] != ids[j]
    requires forall id :: id in ids && Addable(users, me, id) ==> !IsMember(ps, conv, id)
    ensures AddMembers(ps, conv, users, me, ids, now).ok
    decreases |ids|
  {
    if ids != [] {
      var u := ActiveUserById(users, ids[0]);
      var rest := ids[1..];
      assert forall i, j :: 0 <= i < j < |rest| ==> rest[i] != rest[j] by {
        forall i, j | 0 <= i < j < |rest| ensures rest[i] != rest[j] {
          assert rest[i] == ids[i + 1] && rest[j] == ids[j + 1];
        }
      }
      if u.None? || u.value.id == me {
        AddMembersSucceeds(ps, conv, users, me, rest, now);
      } else {
        assert ids[0] in ids;
        var ps' := ps + [NewParticipant(conv, u.value.id, Member, now)];
        forall id | id in rest && Addable(users, me, id) ensures !IsMember(ps', conv, id) {
          var j :| 0 <= j < |rest| && rest[j] == id;
          assert ids[j + 1] == id;
          assert id != ids[0];
          assert id in ids;
          AppendMember(ps, NewParticipant(conv, u.value.id, Member, now), conv, id);
        }
        AddMembersSucceeds(ps', conv, users, me, rest, now);
      }
    }
  }

  /** The system message text of a new group. */
  function GroupCreatedText(creator: User, name: string): string {
    DisplayName(creator) + " created the group \"" + name + "\""
  }

  function NewGroup(id: string, name: string, description: string, creator: string, now: int): Conversation {
    Conversation(id, name, Group, Some(creator), now, now, description, "")
  }

  datatype GroupOutcome = GroupNameRequired | GroupNeedsParticipants | GroupFailed | GroupCreated(conv: Conversation)

  /**
   * `create_group_view` on POST. The name and description are stripped; a
   * blank name or an empty id list is refused before anything is written.
   * Otherwise the group is created, the creator added as owner, the ids
   * added one at a time, and a system message from the creator appended.
   */
  method CreateGroup(db: ChatDb, c: Cipher, users: seq<User>, me: User, rawName: Option<string>,
                     rawDescription: Option<string>, ids: seq<string>, convId: string, msgId: string, now: int)
    returns (outcome: GroupOutcome)
    requires db.Valid() && !HasConversation(db.conversations, convId) && !HasMessage(db.messages, msgId)
    modifies db
    ensures db.Valid()
    ensures Strip(OrEmpty(rawName)) == "" ==> outcome == GroupNameRequired
    ensures Strip(OrEmpty(rawName)) != "" && ids == [] ==> outcome == GroupNeedsParticipants
    ensures Strip(OrEmpty(rawName)) != "" && ids != [] ==> outcome.GroupCreated? || outcome.GroupFailed?
    ensures outcome.GroupNameRequired? || outcome.GroupNeedsParticipants? ==>
      db.conversations == old(db.conversations) && db.participants == old(db.participants)
      && db.messages == old(db.messages)
    ensures outcome.GroupCreated? || outcome.GroupFailed? ==>
      var name := Strip(OrEmpty(rawName));
      var g := NewGroup(convId, name, Strip(OrEmpty(rawDescription)), me.id, now);
      var owner := NewParticipant(convId, me.id, Owner, now);
      var added := AddMembers(old(db.participants) + [owner], convId, users, me.id, ids, now);
      && name != "" && ids != []
      && db.participants == added.rows
      && (outcome.GroupCreated? <==> added.ok)
      && (outcome.GroupCreated? ==>
            && outcome.conv == g
            && db.conversations == Touch(old(db.conversations) + [g], convId, now)
            && db.messages == old(db.messages)
                 + [WithContent(c, NewMessage(msgId, convId, Some(me.id), System, now), GroupCreatedText(me, name))])
      && (outcome.GroupFailed? ==> db.conversations == old(db.conversations) + [g] && db.messages == old(db.messages))
    ensures db.receipts == old(db.receipts) && db.bots == old(db.bots)
  {
    var name := Strip(OrEmpty(rawName));
    var description := Strip(OrEmpty(rawDescription));
    if name == "" {
      return GroupNameRequired;
    }
    if |ids| < 1 {
      return GroupNeedsParticipants;
    }
    var g := NewGroup(convId, name, description, me.id, now);
    db.AddConversation(g);
    assert HasConversation(db.conversations, convId) by {
      assert db.conversations[|db.conversations| - 1].id == convId;
    }
    var owner := NewParticipant(convId, me.id, Owner, now);
    forall k | 0 <= k < |db.participants| ensures db.participants[k].conversation != convId {
      assert db.participants[k] in old(db.participants);
    }
    var _ := db.AddParticipant(convId, me.id, Owner, now);
    var ok := AddGroupMembers(db, convId, users, me.id, ids, now);
    if !ok {
      return GroupFailed;
    }
    var m := WithContent(c, NewMessage(msgId, convId, Some(me.id), System, now), GroupCreatedText(me, name));
    forall k | 0 <= k < |db.messages| ensures db.messages[k].id != msgId {
      assert db.messages[k] in old(db.messages);
    }
    db.InsertMessage(m, now);
    outcome := GroupCreated(g);
  }

  /** The loop of `create_group_view`, one insert per addable id, stopping at the first integrity error. */
  method AddGroupMembers(db: ChatDb, conv: string, users: seq<User>, me: string, ids: seq<string>, now: int)
    returns (ok: bool)
    requires db.Valid() && HasConversation(db.conversations, conv)
    modifies db
    ensures db.Valid()
    ensures db.participants == AddMembers(old(db.participants), conv, users, me, ids, now).rows
    ensures ok == AddMembers(old(db.participants), conv, users, me, ids, now).ok
    ensures db.conversations == old(db.conversations) && db.messages == old(db.messages)
    ensures db.receipts == old(db.receipts) && db.bots == old(db.bots)
  {
    var i := 0;
    while i < |ids|
      invariant 0 <= i <= |ids|
      invariant db.Valid()
      invariant db.conversations == old(db.conversations) && db.messages == old(db.messages)
      invariant db.receipts == old(db.receipts) && db.bots == old(db.bots)
      invariant AddMembers(db.participants, conv, users, me, ids[i..], now)
             == AddMembers(old(db.participants), conv, users, me, ids, now)
      decreases |ids| - i
    {
      AddMembersStep(db.participants, conv, users, me, ids[i..], now);
      assert ids[i..][0] == ids[i] && ids[i..][1..] == ids[i + 1..];
      var u := ActiveUserById(users, ids[i]);
      if u.Some? && u.value.id != me {
        var added := db.AddParticipant(conv, u.value.id, Member, now);
        if !added {
          return false;
        }
      }
      i := i + 1;
    }
    assert ids[|ids|..] == [];
    ok := true;
  }

  // ---------------------------------------------------------------------------
  // start_ai_chat_view
  // ---------------------------------------------------------------------------

  function ActiveBot(bots: seq<Bot>, id: string): (r: Option<Bot>)
    ensures r.Some? ==> r.value in bots && r.value.id == id && r.value.isActive
    ensures r.None? ==> forall b :: b in bots && b.id == id ==> !b.isActive
  {
    var found := Filter(bots, (b: Bot) => b.id == id && b.isActive);
    if found == [] then
      assert forall i :: 0 <= i < |bots| ==> !(bots[i].id == id && bots[i].isActive);
      None
    else Some(found[0])
  }

  /** A conversation of type "ai" that `user` created for this model. */
  predicate IsAiChatFor(c: Conversation, user: string, model: string) {
    c.kind == AiChat && c.createdBy == Some(user) && c.aiModel == model
  }

  /** The existing AI conversation, most recently updated first. */
  function FindAiChat(cs: seq<Conversation>, user: string, model: string): (r: Option<Conversation>)
    ensures r.None? <==> forall c :: c in cs ==> !IsAiChatFor(c, user, model)
    ensures r.Some? ==> r.value in cs && IsAiChatFor(r.value, user, model)
    ensures r.Some? ==> forall c :: c in cs && IsAiChatFor(c, user, model) ==> c.updatedAt <= r.value.updatedAt
  {
    var key := (c: Conversation) => c.updatedAt;
    var p := (c: Conversation) => IsAiChatFor(c, user, model);
    var sorted := SortDesc(cs, key);
    var hits := Filter(sorted, p);
    if hits == [] then
      forall c | c in cs ensures !p(c) {
        SortDescHas(cs, key, c);
        FilterHas(sorted, p, c);
      }
      None
    else
      SortDescHas(cs, key, hits[0]);
      forall c | c in cs && p(c) ensures key(c) <= key(hits[0]) {
        SortDescHas(cs, key, c);
        FilterSortedHead(sorted, p, key, c);
      }
      Some(hits[0])
  }

  function WelcomeText(bot: Bot): string {
    "Hello! I'm " + bot.name + ". How can I help you today?"
  }

  function NewAiChat(id: string, bot: Bot, user: string, now: int): Conversation {
    Conversation(id, AI_CHAT_PREFIX + bot.name, AiChat, Some(user), now, now, "", bot.modelName)
  }

  datatype AiChatOutcome = BotNotFound | AiChatOpened(conv: Conversation, created: bool)

  /**
   * `start_ai_chat_view`: the existing AI conversation of the requester for
   * the bot's model is reused; otherwise one is created with the requester
   * as owner and a welcome message that has no sender.
   */
  method StartAiChat(db: ChatDb, c: Cipher, me: string, botId: string, convId: string, msgId: string, now: int)
    returns (outcome: AiChatOutcome)
    requires db.Valid() && !HasConversation(db.conversations, convId) && !HasMessage(db.messages, msgId)
    modifies db
    ensures db.Valid()
    ensures ActiveBot(db.bots, botId).None? ==> outcome == BotNotFound
    ensures ActiveBot(db.bots, botId).Some? ==>
      var bot := ActiveBot(db.bots, botId).value;
      var existing := FindAiChat(old(db.conversations), me, bot.modelName);
      && (existing.Some? ==> outcome == AiChatOpened(existing.value, false))
      && (existing.None? ==>
            && outcome == AiChatOpened(NewAiChat(convId, bot, me, now), true)
            && db.conversations == Touch(old(db.conversations) + [NewAiChat(convId, bot, me, now)], convId, now)
            && db.participants == old(db.participants) + [NewParticipant(convId, me, Owner, now)]
            && db.messages == old(db.messages)
                 + [WithContent(c, NewMessage(msgId, convId, None, AiReply, now), WelcomeText(bot))])
    ensures !(outcome.AiChatOpened? && outcome.created) ==>
      db.conversations == old(db.conversations) && db.participants == old(db.participants)
      && db.messages == old(db.messages)
    ensures db.receipts == old(db.receipts) && db.bots == old(db.bots)
  {
    var bot := ActiveBot(db.bots, botId);
    if bot.None? {
      return BotNotFound;
    }
    var existing := FindAiChat(db.conversations, me, bot.value.modelName);
    if existing.Some? {
      return AiChatOpened(existing.value, false);
    }
    var conv := NewAiChat(convId, bot.value, me, now);
    db.AddConversation(conv);
    assert HasConversation(db.conversations, convId) by {
      assert db.conversations[|db.conversations| - 1].id == convId;
    }
    forall k | 0 <= k < |db.participants| ensures db.participants[k].conversation != convId {
      assert db.participants[k] in old(db.participants);
    }
    var _ := db.AddParticipant(convId, me, Owner, now);
    var m := WithContent(c, NewMessage(msgId, convId, None, AiReply, now), WelcomeText(bot.value));
    db.InsertMessage(m, now);
    outcome := AiChatOpened(conv, true);
  }

  // ---------------------------------------------------------------------------
  // send_message_view
  // ---------------------------------------------------------------------------

  /** An uploaded file as the request carries it. */
  datatype Upload = Upload(name: string, contentType: string, size: nat)

  /** The message type chosen from the upload. */
  function KindFor(upload: Option<Upload>): (k: MessageType)
    ensures k == Text <==> upload.None?
    ensures k == Image <==> upload.Some? && StartsWith(upload.value.contentType, IMAGE_PREFIX)
    ensures k == File <==> upload.Some? && !StartsWith(upload.value.contentType, IMAGE_PREFIX)
  {
    if upload.None? then Text
    else if StartsWith(upload.value.contentType, IMAGE_PREFIX) then Image
    else File
  }

  /** The reply target kept on a new message: a non-empty id of a message in the same conversation. */
  function ReplyTarget(ms: seq<Message>, conv: string, replyTo: Option<string>): (r: Option<string>)
    ensures r.Some? <==>
      replyTo.Some? && replyTo.value != "" && exists m :: m in ms && m.id == replyTo.value && m.conversation == conv
    ensures r.Some? ==> r == replyTo
  {
    if replyTo.None? || replyTo.value == "" then None
    else
      var found := Filter(ms, (m: Message) => m.id == replyTo.value && m.conversation == conv);
      if found == [] then
        forall m | m in ms ensures !(m.id == replyTo.value && m.conversation == conv) {
          var k :| 0 <= k < |ms| && ms[k] == m;
        }
        None
      else
        assert found[0] in ms;
        replyTo
  }

  /** The message row `send_message_view` builds before saving it. */
  function ComposeMessage(c: Cipher, ms: seq<Message>, conv: string, sender: string, content: string,
                          replyTo: Option<string>, upload: Option<Upload>, msgId: string, hex: string,
                          now: int): (m: Message)
    ensures m.id == msgId && m.conversation == conv && m.sender == Some(sender)
    ensures m.kind == KindFor(upload) && m.replyTo == ReplyTarget(ms, conv, replyTo)
    ensures !m.isDeleted && !m.isEdited && m.createdAt == now
    ensures Sound(c) ==> Content(c, m) == content
    ensures upload.None? ==> m.file.None? && m.fileName == "" && m.fileSize.None?
    ensures upload.Some? ==>
      && m.file == Some(ChatFilePath(conv, upload.value.name, hex))
      && m.fileName == upload.value.name && m.fileSize == Some(upload.value.size)
  {
    var base := NewMessage(msgId, conv, Some(sender), KindFor(upload), now);
    var withBody := if content != "" then WithContent(c, base, content) else base;
    var withFile := if upload.Some?
      then withBody.(file := Some(ChatFilePath(conv, upload.value.name, hex)),
                     fileName := upload.value.name, fileSize := Some(upload.value.size))
      else withBody;
    withFile.(replyTo := ReplyTarget(ms, conv, replyTo))
  }

  datatype SendOutcome = SendNotFound | SendEmpty | Sent(message: Message)

  /**
   * `send_message_view`: the requester must be a participant; the content
   * is stripped; a message with neither content nor file is refused and
   * nothing is written; otherwise the composed message is saved.
   */
  method SendMessage(db: ChatDb, c: Cipher, me: string, conv: string, rawContent: Option<string>,
                     replyTo: Option<string>, upload: Option<Upload>, msgId: string, hex: string, now: int)
    returns (outcome: SendOutcome)
    requires db.Valid() && !HasMessage(db.messages, msgId)
    modifies db
    ensures db.Valid()
    ensures !CanOpen(old(db.conversations), old(db.participants), conv, me) ==> outcome == SendNotFound
    ensures CanOpen(old(db.conversations), old(db.participants), conv, me) ==>
      (outcome == SendEmpty <==> Strip(OrEmpty(rawContent)) == "" && upload.None?)
    ensures CanOpen(old(db.conversations), old(db.participants), conv, me) ==>
      (outcome.Sent? <==> !(Strip(OrEmpty(rawContent)) == "" && upload.None?))
    ensures outcome.Sent? ==>
      && outcome.message == ComposeMessage(c, old(db.messages), conv, me, Strip(OrEmpty(rawContent)),
                                           replyTo, upload, msgId, hex, now)
      && db.messages == old(db.messages) + [outcome.message]
      && db.conversations == Touch(old(db.conversations), conv, now)
    ensures !outcome.Sent? ==> db.messages == old(db.messages) && db.conversations == old(db.conversations)
    ensures db.participants == old(db.participants) && db.receipts == old(db.receipts) && db.bots == old(db.bots)
  {
    if !CanOpen(db.conversations, db.participants, conv, me) {
      return SendNotFound;
    }
    var content := Strip(OrEmpty(rawContent));
    if content == "" && upload.None? {
      return SendEmpty;
    }
    var m := ComposeMessage(c, db.messages, conv, me, content, replyTo, upload, msgId, hex, now);
    db.InsertMessage(m, now);
    outcome := Sent(m);
  }

  // ---------------------------------------------------------------------------
  // load_more_messages_view
  // ---------------------------------------------------------------------------

  /** The conversation's messages, newest first, cut at the `before` message when it exists anywhere. */
  function HistoryBefore(ms: seq<Message>, conv: string, before: Option<string>): seq<Message> {
    var newestFirst := SortDesc(MessagesOf(ms, conv), (m: Message) => m.createdAt);
    if before.Some? && before.value != "" && HasMessage(ms, before.value) then
      var cut := MessageById(ms, before.value).value.createdAt;
      Filter(newestFirst, (m: Message) => m.createdAt < cut)
    else newestFirst
  }

  /** Whether a message may appear on the page: in the conversation and older than the `before` message. */
  predicate Eligible(ms: seq<Message>, conv: string, before: Option<string>, m: Message) {
    m.conversation == conv
    && (before.Some? && before.value != "" && HasMessage(ms, before.value) ==>
          m.createdAt < MessageById(ms, before.value).value.createdAt)
  }

  /** The conversation's messages newest first: exactly its rows, ordered by `-created_at`. */
  lemma NewestFirstSpec(ms: seq<Message>, conv: string)
    ensures var n := SortDesc(MessagesOf(ms, conv), (m: Message) => m.createdAt);
      && SortedDesc(n, (m: Message) => m.createdAt)
      && forall m :: m in n <==> m in ms && m.conversation == conv
  {
    var own := MessagesOf(ms, conv);
    var n := SortDesc(own, (m: Message) => m.createdAt);
    forall m | m in ms && m.conversation == conv ensures m in n {
      var k :| 0 <= k < |ms| && ms[k] == m;
      assert m in multiset(n);
    }
    forall m | m in n ensures m in ms && m.conversation == conv {
      assert m in multiset(own);
    }
  }

  /**
   * The history before a message: newest first, every row eligible, and
   * every eligible message present.
   */
  lemma HistoryBeforeSpec(ms: seq<Message>, conv: string, before: Option<string>)
    ensures var h := HistoryBefore(ms, conv, before);
      && SortedDesc(h, (m: Message) => m.createdAt)
      && (forall i :: 0 <= i < |h| ==> h[i] in ms && Eligible(ms, conv, before, h[i]))
      && (forall m :: m in ms && Eligible(ms, conv, before, m) ==> m in h)
  {
    var key := (m: Message) => m.createdAt;
    var newestFirst := SortDesc(MessagesOf(ms, conv), key);
    NewestFirstSpec(ms, conv);
    var h := HistoryBefore(ms, conv, before);
    if before.Some? && before.value != "" && HasMessage(ms, before.value) {
      var cut := MessageById(ms, before.value).value.createdAt;
      var p := (m: Message) => m.createdAt < cut;
      assert h == Filter(newestFirst, p);
      FilterKeepsOrder(newestFirst, p, key);
      forall m | m in ms && Eligible(ms, conv, before, m) ensures m in h {
        var k :| 0 <= k < |newestFirst| && newestFirst[k] == m;
      }
      forall i | 0 <= i < |h| ensures h[i] in ms && Eligible(ms, conv, before, h[i]) {
        assert h[i] in newestFirst && p(h[i]);
      }
    } else {
      assert h == newestFirst;
    }
  }

  datatype Page = Page(messages: seq<MessageInfo>, hasMore: bool)
  datatype PageError = PageNotFound | NegativeLimit

  /** The page itself, newest first: the first `limit` eligible messages. */
  function PageRows(ms: seq<Message>, conv: string, before: Option<string>, limit: nat): seq<Message> {
    Take(HistoryBefore(ms, conv, before), limit)
  }

  /**
   * `load_more_messages_view`: for a participant, the newest `limit`
   * (default 50) messages older than the `before` message, presented
   * oldest first, with `has_more` set when the page is full. A negative
   * limit makes the slice fail.
   */
  function LoadMore(c: Cipher, users: seq<User>, cs: seq<Conversation>, ps: seq<Participant>, ms: seq<Message>,
                    me: string, conv: string, before: Option<string>, rawLimit: Option<int>): (r: Result<Page, PageError>)
    ensures !CanOpen(cs, ps, conv, me) ==> r == Err(PageNotFound)
    ensures CanOpen(cs, ps, conv, me) && rawLimit.Some? && rawLimit.value < 0 ==> r == Err(NegativeLimit)
    ensures CanOpen(cs, ps, conv, me) && (rawLimit.None? || rawLimit.value >= 0) ==> r.Ok?
    ensures r.Ok? ==>
      var limit := if rawLimit.Some? then rawLimit.value else DEFAULT_PAGE_LIMIT;
      var rows := PageRows(ms, conv, before, limit);
      && limit >= 0
      && r.value.messages == Map(Reverse(rows), (m: Message) => ToDict(c, users, ms, m))
      && (r.value.hasMore <==> |rows| == limit)
  {
    if !CanOpen(cs, ps, conv, me) then Err(PageNotFound)
    else
      var limit := if rawLimit.Some? then rawLimit.value else DEFAULT_PAGE_LIMIT;
      if limit < 0 then Err(NegativeLimit)
      else
        var rows := PageRows(ms, conv, before, limit);
        Ok(Page(Map(Reverse(rows), (m: Message) => ToDict(c, users, ms, m)), |rows| == limit))
  }

  /**
   * The page holds at most `limit` eligible messages, in ascending time
   * order once reversed; every eligible message left off is no newer than
   * any on the page; a page shorter than `limit` holds every eligible one.
   */
  lemma PageRowsSpec(ms: seq<Message>, conv: string, before: Option<string>, limit: nat)
    ensures var rows := PageRows(ms, conv, before, limit);
      && |rows| <= limit
      && (forall i :: 0 <= i < |rows| ==> rows[i] in ms && Eligible(ms, conv, before, rows[i]))
      && SortedDesc(rows, (m: Message) => m.createdAt)
      && SortedAsc(Reverse(rows), (m: Message) => m.createdAt)
      && (forall m, x :: m in ms && Eligible(ms, conv, before, m) && m !in rows && x in rows ==>
            m.createdAt <= x.createdAt)
      && (|rows| < limit ==> forall m :: m in ms && Eligible(ms, conv, before, m) ==> m in rows)
  {
    var key := (m: Message) => m.createdAt;
    var h := HistoryBefore(ms, conv, before);
    HistoryBeforeSpec(ms, conv, before);
    var rows := PageRows(ms, conv, before, limit);
    TakeSorted(h, limit, key);
    ReverseOfDescIsAsc(rows, key);
    forall i | 0 <= i < |rows| ensures rows[i] in ms && Eligible(ms, conv, before, rows[i]) {
      assert rows[i] == h[i];
    }
  }

  // ---------------------------------------------------------------------------
  // delete_message_view, mark_read_view, archive_chat_view, mute_chat_view
  // ---------------------------------------------------------------------------

  datatype DeleteOutcome = DeleteNotFound | DeleteForbidden | DeleteDone

  /**
   * `delete_message_view`: any message may be named, but only its sender may
   * delete it; a message without a sender can be deleted by nobody.
   */
  method DeleteMessageView(db: ChatDb, me: string, msgId: string, now: int) returns (outcome: DeleteOutcome)
    requires db.Valid()
    modifies db
    ensures db.Valid()
    ensures !HasMessage(old(db.messages), msgId) ==> outcome == DeleteNotFound
    ensures HasMessage(old(db.messages), msgId) ==>
      (outcome == DeleteDone <==> MessageById(old(db.messages), msgId).value.sender == Some(me))
    ensures outcome == DeleteDone ==> db.messages == DeleteMessage(old(db.messages), msgId, now)
    ensures outcome != DeleteDone ==> db.messages == old(db.messages)
    ensures db.conversations == old(db.conversations) && db.participants == old(db.participants)
    ensures db.receipts == old(db.receipts) && db.bots == old(db.bots)
  {
    var m := MessageById(db.messages, msgId);
    if m.None? {
      return DeleteNotFound;
    }
    if m.value.sender != Some(me) {
      return DeleteForbidden;
    }
    db.SoftDelete(msgId, now);
    outcome := DeleteDone;
  }

  /** With unique ids, deleting soft-deletes exactly the named message and leaves every other row as it was. */
  lemma DeleteMessageOnly(ms: seq<Message>, id: string, now: int, i: nat)
    requires i < |ms|
    ensures ms[i].id == id ==> DeleteMessage(ms, id, now)[i] == SoftDeleted(ms[i], now)
    ensures ms[i].id != id ==> DeleteMessage(ms, id, now)[i] == ms[i]
    ensures |DeleteMessage(ms, id, now)| == |ms|
  {
  }

  datatype ToggleOutcome = ToggleNotFound | Toggled(value: bool)

  /** `mark_read_view`. */
  method MarkReadView(db: ChatDb, me: string, conv: string, now: int) returns (found: bool)
    requires db.Valid()
    modifies db
    ensures db.Valid()
    ensures found <==> CanOpen(old(db.conversations), old(db.participants), conv, me)
    ensures found ==> db.participants == MarkAsRead(old(db.participants), conv, me, now)
    ensures !found ==> db.participants == old(db.participants)
    ensures db.conversations == old(db.conversations) && db.messages == old(db.messages)
    ensures db.receipts == old(db.receipts) && db.bots == old(db.bots)
  {
    found := CanOpen(db.conversations, db.participants, conv, me);
    if found {
      db.MarkRead(conv, me, now);
    }
  }

  /** `archive_chat_view`: flips the requester's `is_archived` and answers with the new value. */
  method ArchiveChat(db: ChatDb, me: string, conv: string) returns (outcome: ToggleOutcome)
    requires db.Valid()
    modifies db
    ensures db.Valid()
    ensures !CanOpen(old(db.conversations), old(db.participants), conv, me) ==>
      outcome == ToggleNotFound && db.participants == old(db.participants)
    ensures CanOpen(old(db.conversations), old(db.participants), conv, me) ==>
      && outcome == Toggled(!ParticipantRow(old(db.participants), conv, me).value.isArchived)
      && db.participants == FlipArchived(old(db.participants), conv, me)
    ensures db.conversations == old(db.conversations) && db.messages == old(db.messages)
    ensures db.receipts == old(db.receipts) && db.bots == old(db.bots)
  {
    if !CanOpen(db.conversations, db.participants, conv, me) {
      return ToggleNotFound;
    }
    var row := ParticipantRow(db.participants, conv, me).value;
    db.ToggleArchived(conv, me);
    outcome := Toggled(!row.isArchived);
  }

  /** `mute_chat_view`: flips the requester's `is_muted` and answers with the new value. */
  method MuteChat(db: ChatDb, me: string, conv: string) returns (outcome: ToggleOutcome)
    requires db.Valid()
    modifies db
    ensures db.Valid()
    ensures !CanOpen(old(db.conversations), old(db.participants), conv, me) ==>
      outcome == ToggleNotFound && db.participants == old(db.participants)
    ensures CanOpen(old(db.conversations), old(db.participants), conv, me) ==>
      && outcome == Toggled(!ParticipantRow(old(db.participants), conv, me).value.isMuted)
      && db.participants == FlipMuted(old(db.participants), conv, me)
    ensures db.conversations == old(db.conversations) && db.messages == old(db.messages)
    ensures db.receipts == old(db.receipts) && db.bots == old(db.bots)
  {
    if !CanOpen(db.conversations, db.participants, conv, me) {
      return ToggleNotFound;
    }
    var row := ParticipantRow(db.participants, conv, me).value;
    db.ToggleMuted(conv, me);
    outcome := Toggled(!row.isMuted);
  }
}
