/**
 * /api/messages (src/app/api/messages/route.ts): GET lists a conversation's messages and
 * marks them read, POST stores a message (and an agent's reply), PATCH sets one
 * message's status.
 */
module MessagesApi {
  import opened Common
  import opened Wire
  import opened Store
  import Sorting
  import Agents
  import UnreadApi

  /** The `sender` sub-document of a listed message; a field the lookup did not find is None. */
  datatype SenderView = SenderView(id: Option<UserId>, name: Option<string>, avatar: Option<string>, isAgent: Option<bool>)

  /** A message as the routes return it (no image: attachments are never stored). */
  datatype MessageView = MessageView(
    id: MessageId,
    content: string,
    status: string,
    createdAt: Time,
    senderId: UserId,
    sender: SenderView)

  const NoSender: SenderView := SenderView(None, None, None, None)

  /** The `$lookup` of the sender followed by the `$project` stage. */
  function Project(m: MessageDoc, us: seq<UserDoc>): (v: MessageView)
    ensures v.id == m.id && v.content == m.content && v.status == m.status
    ensures v.createdAt == m.createdAt && v.senderId == m.senderId
    ensures FindUser(us, m.senderId).None? ==> v.sender == NoSender
    ensures FindUser(us, m.senderId).Some? ==>
      var x := FindUser(us, m.senderId).value;
      v.sender == SenderView(Some(m.senderId), Some(x.name), x.avatar, Some(x.isAgent))
  {
    var sender := FindUser(us, m.senderId);
    MessageView(m.id, m.content, m.status, m.createdAt, m.senderId,
      if sender.Some? then SenderView(Some(sender.value.id), Some(sender.value.name), sender.value.avatar, Some(sender.value.isAgent))
      else NoSender)
  }

  /** The `$match` stage: the messages of conversation `c`, in natural order. */
  function InConversation(ms: seq<MessageDoc>, c: ConversationId): (r: seq<MessageDoc>)
    ensures forall m :: m in r <==> m in ms && m.conversationId == c
    ensures multiset(r) <= multiset(ms)
    decreases |ms|
  {
    if ms == [] then []
    else
      var rest := InConversation(ms[1..], c);
      assert ms == [ms[0]] + ms[1..];
      if ms[0].conversationId == c then [ms[0]] + rest else rest
  }

  predicate CreatedNoLater(a: MessageView, b: MessageView) {
    a.createdAt <= b.createdAt
  }

  lemma CreatedNoLaterOrders()
    ensures Sorting.TotalPreorder(CreatedNoLater)
  {
  }

  /** The aggregation's result: `$match`, `$lookup`, `$project`, then `$sort: { createdAt: 1 }`. */
  function Listing(ms: seq<MessageDoc>, us: seq<UserDoc>, c: ConversationId): seq<MessageView> {
    var matched := InConversation(ms, c);
    Sorting.SortBy(seq(|matched|, i requires 0 <= i < |matched| => Project(matched[i], us)), CreatedNoLater)
  }

  /**
   * The listing holds exactly the projections of the conversation's messages, each as
   * often as it occurs, and runs in ascending `createdAt` order.
   */
  lemma ListingIsConversationInOrder(ms: seq<MessageDoc>, us: seq<UserDoc>, c: ConversationId)
    ensures var r := Listing(ms, us, c);
      var matched := InConversation(ms, c);
      && multiset(r) == multiset(seq(|matched|, i requires 0 <= i < |matched| => Project(matched[i], us)))
      && (forall i, j :: 0 <= i < j < |r| ==> r[i].createdAt <= r[j].createdAt)
      && (forall v :: v in r ==> exists m :: m in ms && m.conversationId == c && v == Project(m, us))
  {
    var matched := InConversation(ms, c);
    var projected := seq(|matched|, i requires 0 <= i < |matched| => Project(matched[i], us));
    CreatedNoLaterOrders();
    Sorting.SortBySorted(projected, CreatedNoLater);
    Sorting.SortByPermutes(projected, CreatedNoLater);
    var r := Listing(ms, us, c);
    forall v | v in r ensures exists m :: m in ms && m.conversationId == c && v == Project(m, us) {
      assert v in multiset(r);
      assert v in multiset(projected);
      var i :| 0 <= i < |projected| && projected[i] == v;
      assert matched[i] in matched;
    }
  }

  /** The update GET issues after listing: `$push` the caller's seen entry and set 'seen' on unseen messages from others. */
  function ReadChange(u: UserId, now: Time): Change {
    Change("seen", Push(SeenEntry(u, now)), now)
  }

  function MarkedRead(ms: seq<MessageDoc>, c: ConversationId, u: UserId, now: Time): seq<MessageDoc> {
    UpdatedMany(ms, UnseenIn(c, u), ReadChange(u, now))
  }

  /** After a read, every message of the conversation from someone else has the caller's seen entry. */
  lemma ReadLeavesNothingUnseen(ms: seq<MessageDoc>, c: ConversationId, u: UserId, now: Time, i: nat)
    requires i < |ms| && ms[i].conversationId == c && ms[i].senderId != u
    ensures SeenBy(MarkedRead(ms, c, u, now)[i], u)
    ensures !SeenBy(ms[i], u) ==> MarkedRead(ms, c, u, now)[i].status == "seen"
  {
    var r := MarkedRead(ms, c, u, now);
    if !SeenBy(ms[i], u) {
      assert r[i].seenBy[|ms[i].seenBy|].userId == u;
    } else {
      assert r[i] == ms[i];
    }
  }

  /**
   * A message that already has the caller's seen entry keeps its status, so one whose
   * status a later 'delivered' update regressed stays 'delivered' however often it is read.
   */
  lemma ReadKeepsRegressedStatus(ms: seq<MessageDoc>, c: ConversationId, u: UserId, now: Time, i: nat)
    requires i < |ms| && SeenBy(ms[i], u) && ms[i].status == "delivered"
    ensures MarkedRead(ms, c, u, now)[i].status == "delivered"
  {
  }

  /** A second read adds no seen entries and changes nothing. */
  lemma ReadTwiceIsReadOnce(ms: seq<MessageDoc>, c: ConversationId, u: UserId, t1: Time, t2: Time)
    ensures MarkedRead(MarkedRead(ms, c, u, t1), c, u, t2) == MarkedRead(ms, c, u, t1)
  {
    var once := MarkedRead(ms, c, u, t1);
    var twice := MarkedRead(once, c, u, t2);
    forall i | 0 <= i < |ms| ensures twice[i] == once[i] {
      if Matches(UnseenIn(c, u), ms[i]) {
        assert once[i].seenBy[|ms[i].seenBy|].userId == u;
      }
    }
  }

  /** After a read of one of the caller's conversations, it contributes nothing to the caller's unread count. */
  lemma ReadClearsConversationFromCount(ms: seq<MessageDoc>, ids: set<ConversationId>, c: ConversationId, u: UserId, now: Time)
    requires c in ids
    ensures UnreadApi.UnreadCount(MarkedRead(ms, c, u, now), ids, u) == UnreadApi.UnreadCount(ms, ids - {c}, u)
  {
    var after := MarkedRead(ms, c, u, now);
    forall i | 0 <= i < |after| ensures UnreadApi.Unread(after[i], ids, u) <==> UnreadApi.Unread(ms[i], ids - {c}, u) {
      if ms[i].conversationId == c && ms[i].senderId != u {
        ReadLeavesNothingUnseen(ms, c, u, now, i);
      } else {
        assert after[i] == ms[i];
      }
    }
    UnreadApi.CountPointwise(ms, after, ids - {c}, ids, u);
  }

  // ------------------------------------------------------------------------ GET

  /**
   * GET: 401 without a session, 400 without a conversation id, 500 for an id that is
   * not an ObjectId, 404 unless the caller takes part in the conversation (the id is
   * compared after the cast, so its letter case does not matter). Otherwise the
   * listing is computed first and then the conversation is marked read, so the reply
   * shows the statuses from before the read.
   */
  method Get(db: Db, session: Option<UserId>, conversationId: Option<string>, now: Time)
    returns (reply: Reply<seq<MessageView>>)
    requires db.Valid()
    modifies db`messages
    ensures db.Valid()
    ensures session.None? ==> reply == Fail(401, "Unauthorized") && db.messages == old(db.messages)
    ensures session.Some? && !Present(conversationId) ==>
      reply == Fail(400, "Conversation ID required") && db.messages == old(db.messages)
    ensures session.Some? && Present(conversationId) && !IsObjectId(conversationId.value) ==>
      reply == Fail(500, "Internal server error") && db.messages == old(db.messages)
    ensures session.Some? && Present(conversationId) && IsObjectId(conversationId.value)
            && FindMembership(db.conversations, CastId(conversationId.value), session.value).None? ==>
      reply == Fail(404, "Conversation not found") && db.messages == old(db.messages)
    ensures session.Some? && Present(conversationId) && IsObjectId(conversationId.value)
            && FindMembership(db.conversations, CastId(conversationId.value), session.value).Some? ==>
      && reply == Ok(200, Listing(old(db.messages), db.users, CastId(conversationId.value)))
      && db.messages == MarkedRead(old(db.messages), CastId(conversationId.value), session.value, now)
  {
    if session.None? {
      return Fail(401, "Unauthorized");
    }
    if !Present(conversationId) {
      return Fail(400, "Conversation ID required");
    }
    var u := session.value;
    if !IsObjectId(conversationId.value) {
      return Fail(500, "Internal server error");
    }
    var c := CastId(conversationId.value);
    if FindMembership(db.conversations, c, u).None? {
      return Fail(404, "Conversation not found");
    }
    var listing := Listing(db.messages, db.users, c);
    db.UpdateMany(UnseenIn(c, u), ReadChange(u, now));
    reply := Ok(200, listing);
  }

  // ----------------------------------------------------------------------- POST

  /** `conversation.participants.find(p => p != u)`: the first participant who is not the caller. */
  function OtherParticipant(participants: seq<UserId>, u: UserId): (r: Option<UserId>)
    ensures r.Some? ==> exists k :: (0 <= k < |participants| && participants[k] == r.value && r.value != u
      && forall j :: 0 <= j < k ==> participants[j] == u)
    ensures r.None? <==> forall p :: p in participants ==> p == u
    decreases |participants|
  {
    if participants == [] then None
    else if participants[0] != u then
      assert participants[0] in participants;
      Some(participants[0])
    else
      var rest := OtherParticipant(participants[1..], u);
      assert participants == [participants[0]] + participants[1..];
      assert (forall p :: p in participants[1..] ==> p == u) ==> forall p :: p in participants ==> p == u by {
        forall p | p in participants && p != participants[0] ensures p in participants[1..] {
          var i :| 0 <= i < |participants| && participants[i] == p;
          assert participants[1..][i - 1] == p;
        }
      }
      assert rest.Some? ==> rest.value in participants && exists k :: (0 <= k < |participants| && participants[k] == rest.value
        && rest.value != u && forall j :: 0 <= j < k ==> participants[j] == u) by {
        if rest.Some? {
          var k :| 0 <= k < |participants[1..]| && participants[1..][k] == rest.value && rest.value != u
            && forall j :: 0 <= j < k ==> participants[1..][j] == u;
          assert participants[k + 1] == rest.value;
          assert rest.value in participants;
          assert forall j :: 0 <= j < k + 1 ==> participants[j] == u by {
            forall j | 0 <= j < k + 1 ensures participants[j] == u {
              if j > 0 {
                assert participants[j] == participants[1..][j - 1];
              }
            }
          }
        }
      }
      rest
  }

  /** The agent that answers in conversation `conv` when `u` writes: the other participant, if it is a stored agent. */
  function AgentPeer(us: seq<UserDoc>, conv: ConversationDoc, u: UserId): (r: Option<UserDoc>)
    ensures r.Some? ==> r.value.isAgent && r.value in us && r.value.id in conv.participants && r.value.id != u
    ensures r.Some? ==> r.value.id == OtherParticipant(conv.participants, u).value
    ensures OtherParticipant(conv.participants, u).None? ==> r.None?
    ensures var other := OtherParticipant(conv.participants, u);
      other.Some? && FindUser(us, other.value).Some? && FindUser(us, other.value).value.isAgent ==> r.Some?
  {
    var other := OtherParticipant(conv.participants, u);
    if other.None? then None
    else
      var user := FindUser(us, other.value);
      if user.Some? && user.value.isAgent then user else None
  }

  /** The POST reply: the caller's message, and the agent's reply or null. */
  datatype PostReply = PostReply(message: MessageView, agentMessage: Option<MessageView>)

  /** The request's validation outcome before the store is read; an empty `content` (an image-only send) is refused. */
  function PostCheck(session: Option<UserId>, conversationId: Option<string>, content: Option<string>): (r: Option<Reply<PostReply>>)
    ensures session.None? ==> r == Some(Fail(401, "Unauthorized"))
    ensures session.Some? && (!Present(conversationId) || !Present(content)) ==>
      r == Some(Fail(400, "Conversation ID and content required"))
    ensures session.Some? && Present(conversationId) && Present(content) && !IsObjectId(conversationId.value) ==>
      r == Some(Fail(500, "Internal server error"))
    ensures r.None? <==> session.Some? && Present(conversationId) && Present(content) && IsObjectId(conversationId.value)
  {
    if session.None? then Some(Fail(401, "Unauthorized"))
    else if !Present(conversationId) || !Present(content) then Some(Fail(400, "Conversation ID and content required"))
    else if !IsObjectId(conversationId.value) then Some(Fail(500, "Internal server error"))
    else None
  }

  /** The `sender` of the POST reply: the caller's record, with `isAgent` always false. */
  function PostSender(us: seq<UserDoc>, u: UserId): SenderView {
    var sender := FindUser(us, u);
    if sender.Some? then SenderView(Some(sender.value.id), Some(sender.value.name), sender.value.avatar, Some(false))
    else SenderView(None, None, None, Some(false))
  }

  /**
   * POST. After the checks (and 404 for a non-participant) it stores the caller's
   * message with status 'sent' and makes it the conversation's last message. When the
   * other participant is an agent, its reply is generated from the agent's lower-cased
   * name. If that throws (an agent renamed to an inherited key such as "Constructor"),
   * the route answers 500 with the caller's message already stored. Otherwise the reply
   * (chosen by `pick`, stamped `later`) is stored after it and becomes the last message.
   */
  method Post(db: Db, session: Option<UserId>, conversationId: Option<string>, content: Option<string>,
              messageId: MessageId, agentMessageId: MessageId, now: Time, later: Time, pick: nat)
    returns (reply: Reply<PostReply>)
    requires db.Valid() && !db.HasMessageId(messageId) && !db.HasMessageId(agentMessageId) && messageId != agentMessageId
    modifies db`messages, db`conversations
    ensures db.Valid() && db.users == old(db.users)
    ensures PostCheck(session, conversationId, content).Some? ==>
      reply == PostCheck(session, conversationId, content).value && unchanged(db)
    ensures PostCheck(session, conversationId, content).None?
            && FindMembership(old(db.conversations), CastId(conversationId.value), session.value).None? ==>
      reply == Fail(404, "Conversation not found") && unchanged(db)
    ensures PostCheck(session, conversationId, content).None?
            && FindMembership(old(db.conversations), CastId(conversationId.value), session.value).Some? ==>
      var c := CastId(conversationId.value);
      var u := session.value;
      var conv := FindMembership(old(db.conversations), c, u).value;
      var mine := MessageDoc(messageId, c, u, content.value, "sent", [], now, now);
      var view := MessageView(messageId, content.value, "sent", now, u, PostSender(db.users, u));
      var agent := AgentPeer(db.users, conv, u);
      && (agent.None? ==>
            && reply == Ok(200, PostReply(view, None))
            && db.messages == old(db.messages) + [mine]
            && db.conversations == WithLastMessage(old(db.conversations), c, messageId, now))
      && (agent.Some? ==>
            var outcome := Agents.GenerateAgentResponseAsWritten(ToLower(agent.value.name), content.value, pick);
            && (outcome.ThrewTypeError? ==>
                  && reply == Fail(500, "Internal server error")
                  && db.messages == old(db.messages) + [mine]
                  && db.conversations == WithLastMessage(old(db.conversations), c, messageId, now))
            && (outcome.Returned? ==>
                  && reply.Ok? && reply.code == 200 && reply.body.message == view
                  && reply.body.agentMessage == Some(MessageView(agentMessageId, outcome.value, "sent", later, agent.value.id,
                       SenderView(Some(agent.value.id), Some(agent.value.name), agent.value.avatar, Some(true))))
                  && db.messages == old(db.messages) + [mine, MessageDoc(agentMessageId, c, agent.value.id, outcome.value, "sent", [], later, later)]
                  && db.conversations == WithLastMessage(WithLastMessage(old(db.conversations), c, messageId, now), c, agentMessageId, later)))
  {
    var early := PostCheck(session, conversationId, content);
    if early.Some? {
      return early.value;
    }
    var c := CastId(conversationId.value);
    var u := session.value;
    var found := FindMembership(db.conversations, c, u);
    if found.None? {
      return Fail(404, "Conversation not found");
    }
    var conv := found.value;
    var mine := MessageDoc(messageId, c, u, content.value, "sent", [], now, now);
    Deliver(db, mine);
    var message := MessageView(messageId, content.value, "sent", now, u, PostSender(db.users, u));
    var agent := AgentPeer(db.users, conv, u);
    if agent.None? {
      return Ok(200, PostReply(message, None));
    }
    var peer := agent.value;
    var outcome := Agents.GenerateAgentResponseAsWritten(ToLower(peer.name), content.value, pick);
    if outcome.ThrewTypeError? {
      return Fail(500, "Internal server error");
    }
    var text := outcome.value;
    assert !db.HasMessageId(agentMessageId) by {
      assert forall k :: 0 <= k < |old(db.messages)| ==> db.messages[k] == old(db.messages)[k];
    }
    Deliver(db, MessageDoc(agentMessageId, c, peer.id, text, "sent", [], later, later));
    var agentView := MessageView(agentMessageId, text, "sent", later, peer.id,
                                 SenderView(Some(peer.id), Some(peer.name), peer.avatar, Some(true)));
    reply := Ok(200, PostReply(message, Some(agentView)));
  }

  /** `Message.create` followed by the conversation update: `m` is stored and becomes its conversation's last message. */
  method Deliver(db: Db, m: MessageDoc)
    requires db.Valid() && !db.HasMessageId(m.id)
    modifies db`messages, db`conversations
    ensures db.Valid() && db.users == old(db.users)
    ensures db.messages == old(db.messages) + [m]
    ensures db.conversations == WithLastMessage(old(db.conversations), m.conversationId, m.id, m.createdAt)
  {
    db.InsertMessage(m);
    db.SetLastMessage(m.conversationId, m.id, m.createdAt);
  }

  /** After a POST the conversation's last message is the newest stored one: the agent's reply when there is one. */
  lemma LastMessageIsNewest(cs: seq<ConversationDoc>, c: ConversationId, mine: MessageId, agent: MessageId,
                            now: Time, later: Time, i: nat)
    requires i < |cs| && cs[i].id == c
    ensures WithLastMessage(cs, c, mine, now)[i].lastMessage == Some(mine)
    ensures WithLastMessage(WithLastMessage(cs, c, mine, now), c, agent, later)[i].lastMessage == Some(agent)
    ensures WithLastMessage(WithLastMessage(cs, c, mine, now), c, agent, later)[i].lastMessageAt == Some(later)
  {
    assert WithLastMessage(cs, c, mine, now)[i].id == c;
  }

  // ---------------------------------------------------------------------- PATCH

  /** The single-message update: the status, plus `$push` of the caller's seen entry for 'seen'. */
  function PatchChange(status: string, u: UserId, now: Time): (ch: Change)
    ensures ch.status == status && ch.at == now
    ensures ch.seen.Push? <==> status == "seen"
    ensures ch.seen.Push? ==> ch.seen.entry == SeenEntry(u, now)
    ensures !ch.seen.Push? ==> ch.seen.KeepSeen?
  {
    Change(status, if status == "seen" then Push(SeenEntry(u, now)) else KeepSeen, now)
  }

  /**
   * PATCH: 401 without a session, 400 unless both `messageId` and `status` are present,
   * 500 for an id that is not an ObjectId. Otherwise the message with that id (sent by
   * anyone) takes the status, whatever string it is, and 'seen' pushes a seen entry.
   */
  method Patch(db: Db, session: Option<UserId>, messageId: Option<string>, status: Option<string>, now: Time)
    returns (reply: Reply<()>)
    requires db.Valid()
    modifies db`messages
    ensures db.Valid()
    ensures session.None? ==> reply == Fail(401, "Unauthorized") && db.messages == old(db.messages)
    ensures session.Some? && (!Present(messageId) || !Present(status)) ==>
      reply == Fail(400, "Message ID and status required") && db.messages == old(db.messages)
    ensures session.Some? && Present(messageId) && Present(status) && !IsObjectId(messageId.value) ==>
      reply == Fail(500, "Internal server error") && db.messages == old(db.messages)
    ensures session.Some? && Present(messageId) && Present(status) && IsObjectId(messageId.value) ==>
      && reply == Ok(200, ())
      && db.messages == UpdatedMany(old(db.messages), IdIs(CastId(messageId.value)), PatchChange(status.value, session.value, now))
  {
    if session.None? {
      return Fail(401, "Unauthorized");
    }
    if !Present(messageId) || !Present(status) {
      return Fail(400, "Message ID and status required");
    }
    if !IsObjectId(messageId.value) {
      return Fail(500, "Internal server error");
    }
    db.UpdateMany(IdIs(CastId(messageId.value)), PatchChange(status.value, session.value, now));
    reply := Ok(200, ());
  }

  /**
   * Unlike the batch route, PATCH checks neither the sender nor the status: anyone can
   * set any string, 'sending' or not, on a message, and each 'seen' appends another entry.
   */
  lemma PatchAcceptsAnything(m: MessageDoc, u: UserId, status: string, t1: Time, t2: Time)
    ensures UpdatedMany([m], IdIs(m.id), PatchChange(status, u, t1))[0].status == status
    ensures var once := UpdatedMany([m], IdIs(m.id), PatchChange("seen", u, t1));
      UpdatedMany(once, IdIs(m.id), PatchChange("seen", u, t2))[0].seenBy == m.seenBy + [SeenEntry(u, t1), SeenEntry(u, t2)]
  {
    var once := UpdatedMany([m], IdIs(m.id), PatchChange("seen", u, t1));
    assert once[0].id == m.id;
  }
}
