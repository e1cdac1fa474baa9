/**
 * The REST endpoints of the chat application (`chat/api_views.py`): the
 * message list, the online-users list and the AI chat request. The user
 * search endpoint runs the same query as the account search view and is
 * modelled by `AccountViews.SearchUsers`; serialisation to JSON is left to
 * the message dictionary of `ChatModels.ToDict`.
 */
module ChatApi {
  import opened Base
  import opened Codec
  import opened AccountModels
  import opened ChatModels
  import opened ChatViews

  /** The message list returns at most this many rows. */
  const MESSAGE_LIST_LIMIT: nat := 50

  /** The canned replies of the placeholder AI. */
  const AI_RESPONSES: seq<string> := [
    "That's an interesting thought! Could you tell me more?",
    "I understand. How can I help you with that?",
    "Great question! Let me think about that...",
    "Thanks for sharing. What would you like to explore further?"
  ]

  datatype ApiError = BadRequest | NotFound

  // ---------------------------------------------------------------------------
  // MessageListAPIView
  // ---------------------------------------------------------------------------

  /**
   * `MessageListAPIView.get_queryset`: for a participant, the conversation's
   * messages newest first, cut at fifty; anyone else gets a 404.
   */
  function MessageList(cs: seq<Conversation>, ps: seq<Participant>, ms: seq<Message>,
                       me: string, conv: string): (r: Result<seq<Message>, ApiError>)
    ensures r.Err? <==> !CanOpen(cs, ps, conv, me)
    ensures r.Err? ==> r.error == NotFound
    ensures r.Ok? ==> |r.value| <= MESSAGE_LIST_LIMIT
  {
    if !CanOpen(cs, ps, conv, me) then Err(NotFound)
    else Ok(PageRows(ms, conv, None, MESSAGE_LIST_LIMIT))
  }

  /**
   * The list holds only the conversation's messages, newest first; every
   * message of the conversation that is left out is no newer than any
   * listed one; fewer than fifty rows means the whole conversation.
   */
  lemma MessageListSpec(cs: seq<Conversation>, ps: seq<Participant>, ms: seq<Message>, me: string, conv: string)
    requires CanOpen(cs, ps, conv, me)
    ensures var r := MessageList(cs, ps, ms, me, conv).value;
      && SortedDesc(r, (m: Message) => m.createdAt)
      && (forall i :: 0 <= i < |r| ==> r[i] in ms && r[i].conversation == conv)
      && (forall m, x :: m in ms && m.conversation == conv && m !in r && x in r ==> m.createdAt <= x.createdAt)
      && (|r| < MESSAGE_LIST_LIMIT ==> forall m :: m in ms && m.conversation == conv ==> m in r)
  {
    PageRowsSpec(ms, conv, None, MESSAGE_LIST_LIMIT);
    forall m | m in ms && m.conversation == conv ensures Eligible(ms, conv, None, m) {
    }
  }

  // ---------------------------------------------------------------------------
  // OnlineUsersAPIView
  // ---------------------------------------------------------------------------

  /** Whether `other` is a participant of some conversation `me` takes part in. */
  predicate SharesConversation(ps: seq<Participant>, me: string, other: string) {
    exists p :: p in ps && p.user == me && IsMember(ps, p.conversation, other)
  }

  /** A user the online list shows. */
  predicate OnlinePeer(ps: seq<Participant>, me: string, now: int, u: User) {
    u.id != me && SharesConversation(ps, me, u.id) && IsOnline(u, now)
  }

  /**
   * `OnlineUsersAPIView.get`: the users of the requester's conversations,
   * the requester excluded, each once, in the table's default order, kept
   * when they are online.
   */
  function OnlineUsers(users: seq<User>, ps: seq<Participant>, me: string, now: int): (r: seq<User>)
    ensures forall i :: 0 <= i < |r| ==> r[i] in users && r[i].id != me && IsOnline(r[i], now)
  {
    var key := (u: User) => u.dateJoined;
    var sorted := SortDesc(users, key);
    var r := Filter(sorted, (u: User) => OnlinePeer(ps, me, now, u));
    forall i | 0 <= i < |r| ensures r[i] in users {
      SortDescHas(users, key, r[i]);
    }
    r
  }

  /** A table with unique ids holds no row twice. */
  lemma UniqueUsersDistinct(users: seq<User>)
    requires UniqueUsers(users)
    ensures Distinct(users)
  {
    forall i, j | 0 <= i < j < |users| ensures users[i] != users[j] {
      assert users[i].id != users[j].id;
    }
  }

  /**
   * The online list is exactly the online users sharing a conversation with
   * the requester: newest account first and, over a table with unique ids,
   * without repetition.
   */
  lemma OnlineUsersSpec(users: seq<User>, ps: seq<Participant>, me: string, now: int)
    ensures var r := OnlineUsers(users, ps, me, now);
      && SortedDesc(r, (u: User) => u.dateJoined)
      && (forall u :: u in r ==> SharesConversation(ps, me, u.id))
      && (forall u :: u in users && OnlinePeer(ps, me, now, u) ==> u in r)
      && (UniqueUsers(users) ==> Distinct(r))
  {
    var key := (u: User) => u.dateJoined;
    var sorted := SortDesc(users, key);
    var p := (u: User) => OnlinePeer(ps, me, now, u);
    var r := OnlineUsers(users, ps, me, now);
    assert r == Filter(sorted, p);
    FilterKeepsOrder(sorted, p, key);
    forall u | u in users && p(u) ensures u in r {
      SortDescHas(users, key, u);
      FilterHas(sorted, p, u);
    }
    forall u | u in r ensures SharesConversation(ps, me, u.id) {
      var k :| 0 <= k < |r| && r[k] == u;
    }
    if UniqueUsers(users) {
      UniqueUsersDistinct(users);
      PermutationDistinct(users, sorted);
      FilterDistinct(sorted, p);
    }
  }

  // ---------------------------------------------------------------------------
  // AIChatAPIView
  // ---------------------------------------------------------------------------

  /** `generate_ai_response`: the random choice among the canned replies is the parameter `pick`. */
  function GenerateAiResponse(pick: nat): (r: string)
    ensures r in AI_RESPONSES
  {
    AI_RESPONSES[pick % |AI_RESPONSES|]
  }

  /** Every canned reply can be chosen. */
  lemma EveryResponseReachable(r: string)
    requires r in AI_RESPONSES
    ensures exists pick: nat :: GenerateAiResponse(pick) == r
  {
    var i :| 0 <= i < |AI_RESPONSES| && AI_RESPONSES[i] == r;
    assert GenerateAiResponse(i) == r;
  }

  /** The request is refused before any lookup: no conversation id, or a message that strips to nothing. */
  predicate AiRequestInvalid(rawConv: Option<string>, rawMessage: Option<string>) {
    rawConv.None? || rawConv.value == "" || Strip(OrEmpty(rawMessage)) == ""
  }

  /** `get_object_or_404(Conversation, id=..., participants=user, conversation_type='ai')`. */
  predicate AiChatOpenTo(cs: seq<Conversation>, ps: seq<Participant>, conv: string, user: string) {
    CanOpen(cs, ps, conv, user) && ConversationById(cs, conv).value.kind == AiChat
  }

  /** The user's turn: a text message from the user with the stripped request as body. */
  function UserTurn(c: Cipher, id: string, conv: string, me: string, text: string, now: int): (m: Message)
    ensures m.id == id && m.conversation == conv && m.sender == Some(me) && m.kind == Text
    ensures !m.isDeleted && m.createdAt == now && m.replyTo.None? && m.file.None?
    ensures Sound(c) ==> Content(c, m) == text
  {
    WithContent(c, NewMessage(id, conv, Some(me), Text, now), text)
  }

  /** The AI's turn: a message of type `ai` with no sender. */
  function AiTurn(c: Cipher, id: string, conv: string, text: string, now: int): (m: Message)
    ensures m.id == id && m.conversation == conv && m.sender.None? && m.kind == AiReply
    ensures !m.isDeleted && m.createdAt == now && m.replyTo.None? && m.file.None?
    ensures Sound(c) ==> Content(c, m) == text
  {
    WithContent(c, NewMessage(id, conv, None, AiReply, now), text)
  }

  datatype AiOutcome = AiRefused(error: ApiError) | AiReplied(userMessage: MessageInfo, aiMessage: MessageInfo)

  /**
   * `AIChatAPIView.post`: an invalid request is a 400 and a conversation the
   * user may not open as an AI chat a 404, both with nothing saved;
   * otherwise the user's message and then the AI's reply are saved, each
   * save bumping the conversation, and both are returned as dictionaries.
   * The two saves may see different clock readings, `t1` and `t2`.
   */
  method AiChatPost(db: ChatDb, c: Cipher, users: seq<User>, me: string, rawConv: Option<string>,
                    rawMessage: Option<string>, userMsgId: string, aiMsgId: string, pick: nat, t1: int, t2: int)
    returns (outcome: AiOutcome)
    requires db.Valid() && userMsgId != aiMsgId
    requires !HasMessage(db.messages, userMsgId) && !HasMessage(db.messages, aiMsgId)
    modifies db
    ensures db.Valid()
    ensures outcome == AiRefused(BadRequest) <==> AiRequestInvalid(rawConv, rawMessage)
    ensures outcome == AiRefused(NotFound) <==>
      !AiRequestInvalid(rawConv, rawMessage) && !AiChatOpenTo(old(db.conversations), old(db.participants), rawConv.value, me)
    ensures outcome.AiRefused? ==> db.conversations == old(db.conversations) && db.messages == old(db.messages)
    ensures outcome.AiReplied? ==>
      var conv := rawConv.value;
      var um := UserTurn(c, userMsgId, conv, me, Strip(OrEmpty(rawMessage)), t1);
      var am := AiTurn(c, aiMsgId, conv, GenerateAiResponse(pick), t2);
      && db.messages == old(db.messages) + [um, am]
      && db.conversations == Touch(Touch(old(db.conversations), conv, t1), conv, t2)
      && outcome == AiReplied(ToDict(c, users, db.messages, um), ToDict(c, users, db.messages, am))
    ensures db.participants == old(db.participants) && db.receipts == old(db.receipts) && db.bots == old(db.bots)
  {
    var text := Strip(OrEmpty(rawMessage));
    if rawConv.None? || rawConv.value == "" || text == "" {
      return AiRefused(BadRequest);
    }
    var conv := rawConv.value;
    if !AiChatOpenTo(db.conversations, db.participants, conv, me) {
      return AiRefused(NotFound);
    }
    ghost var ms0 := db.messages;
    var um := UserTurn(c, userMsgId, conv, me, text, t1);
    TouchKeepsIds(db.conversations, conv, t1, conv);
    AppendMessageIds(db.messages, um, aiMsgId);
    db.InsertMessage(um, t1);
    var am := AiTurn(c, aiMsgId, conv, GenerateAiResponse(pick), t2);
    db.InsertMessage(am, t2);
    assert db.messages == ms0 + [um, am];
    outcome := AiReplied(ToDict(c, users, db.messages, um), ToDict(c, users, db.messages, am));
  }

  /** After a reply, the conversation's `updated_at` is the clock reading of the second save. */
  lemma TouchTwice(cs: seq<Conversation>, id: string, t1: int, t2: int)
    ensures Touch(Touch(cs, id, t1), id, t2) == Touch(cs, id, t2)
  {
    var a := Touch(Touch(cs, id, t1), id, t2);
    var b := Touch(cs, id, t2);
    forall i | 0 <= i < |cs| ensures a[i] == b[i] {
    }
  }
}
