/**
 * /api/conversations (src/app/api/conversations/route.ts): GET lists the caller's
 * conversations with the other participant and the last message, newest first; POST
 * finds or creates the conversation between the caller and another user.
 */
module ConversationsApi {
  import opened Common
  import opened Wire
  import opened Store
  import Sorting

  /** The `otherParticipant` sub-document; every field is absent when no user was found. */
  datatype ParticipantView = ParticipantView(
    id: Option<UserId>,
    name: Option<string>,
    avatar: Option<string>,
    isAgent: Option<bool>,
    isOnline: Option<bool>,
    personality: Option<string>)

  /** The projection of a participant's record, or of none. */
  function ParticipantOf(user: Option<UserDoc>): (v: ParticipantView)
    ensures user.None? ==> v == ParticipantView(None, None, None, None, None, None)
    ensures user.Some? ==>
      v.id == Some(user.value.id) && v.name == Some(user.value.name)
      && v.isAgent == Some(user.value.isAgent) && v.isOnline == Some(user.value.isOnline)
      && v.avatar == user.value.avatar && v.personality == user.value.personality
  {
    if user.None? then ParticipantView(None, None, None, None, None, None)
    else
      var p := user.value;
      ParticipantView(Some(p.id), Some(p.name), p.avatar, Some(p.isAgent), Some(p.isOnline), p.personality)
  }

  // ----------------------------------------------------------------------- POST

  /** `findOne({ participants: { $all: [a, b] } })`: the first conversation that contains both users. */
  function FindBoth(cs: seq<ConversationDoc>, a: UserId, b: UserId): (r: Option<ConversationDoc>)
    ensures r.Some? <==> exists k :: 0 <= k < |cs| && a in cs[k].participants && b in cs[k].participants
    ensures r.Some? ==> r.value in cs && a in r.value.participants && b in r.value.participants
    decreases |cs|
  {
    if cs == [] then None
    else if a in cs[0].participants && b in cs[0].participants then Some(cs[0])
    else
      var rest := FindBoth(cs[1..], a, b);
      assert forall k :: 1 <= k < |cs| ==> cs[k] == cs[1..][k - 1];
      rest
  }

  /** `$all` ignores order: B opening a chat with A finds the one A opened with B. */
  lemma {:induction false} FindBothSymmetric(cs: seq<ConversationDoc>, a: UserId, b: UserId)
    ensures FindBoth(cs, a, b) == FindBoth(cs, b, a)
    decreases |cs|
  {
    if cs != [] {
      FindBothSymmetric(cs[1..], a, b);
    }
  }

  /** A conversation appended later never shadows one that is already found. */
  lemma {:induction false} FindBothStable(cs: seq<ConversationDoc>, extra: ConversationDoc, a: UserId, b: UserId)
    ensures FindBoth(cs, a, b).Some? ==> FindBoth(cs + [extra], a, b) == FindBoth(cs, a, b)
    ensures FindBoth(cs, a, b).None? && a in extra.participants && b in extra.participants ==>
      FindBoth(cs + [extra], a, b) == Some(extra)
    decreases |cs|
  {
    if cs == [] {
      assert cs + [extra] == [extra];
    } else {
      assert (cs + [extra])[1..] == cs[1..] + [extra];
      FindBothStable(cs[1..], extra, a, b);
    }
  }

  /**
   * Asking for a chat with oneself matches any conversation that merely contains the
   * caller: `$all: [u, u]` is `u in participants`.
   */
  lemma SelfChatMatchesAnyConversation(cs: seq<ConversationDoc>, u: UserId, k: nat)
    requires k < |cs| && u in cs[k].participants
    ensures FindBoth(cs, u, u).Some?
  {
  }

  datatype ConversationReply = ConversationReply(id: ConversationId, otherParticipant: ParticipantView)

  /**
   * POST: 401 without a session, 400 without `participantId`, 500 when it is not an
   * ObjectId. The requested id is compared after the cast, so its letter case does not
   * matter. Otherwise the first conversation holding both users is returned and the
   * store is unchanged, or else exactly one conversation `[caller, participant]` is
   * added; either way `otherParticipant` is the requested user's record (empty when
   * there is no such user: nothing checks that the user exists).
   */
  method Post(db: Db, session: Option<UserId>, participantId: Option<string>, newId: ConversationId, now: Time)
    returns (reply: Reply<ConversationReply>)
    requires db.Valid() && !db.HasConversationId(newId)
    modifies db`conversations
    ensures db.Valid()
    ensures session.None? ==> reply == Fail(401, "Unauthorized") && unchanged(db)
    ensures session.Some? && !Present(participantId) ==> reply == Fail(400, "Participant ID required") && unchanged(db)
    ensures session.Some? && Present(participantId) && !IsObjectId(participantId.value) ==>
      reply == Fail(500, "Internal server error") && unchanged(db)
    ensures session.Some? && Present(participantId) && IsObjectId(participantId.value) ==>
      var u := session.value;
      var p := CastId(participantId.value);
      var found := FindBoth(old(db.conversations), u, p);
      && reply.Ok? && reply.code == 200
      && reply.body.otherParticipant == ParticipantOf(FindUser(db.users, p))
      && (found.Some? ==> reply.body.id == found.value.id && unchanged(db))
      && (found.None? ==>
            && reply.body.id == newId
            && db.conversations == old(db.conversations) + [ConversationDoc(newId, [u, p], None, None, now, now)])
  {
    if session.None? {
      return Fail(401, "Unauthorized");
    }
    if !Present(participantId) {
      return Fail(400, "Participant ID required");
    }
    var u := session.value;
    if !IsObjectId(participantId.value) {
      return Fail(500, "Internal server error");
    }
    var p := CastId(participantId.value);
    var found := FindBoth(db.conversations, u, p);
    var id: ConversationId;
    if found.Some? {
      id := found.value.id;
    } else {
      db.InsertConversation(ConversationDoc(newId, [u, p], None, None, now, now));
      id := newId;
    }
    reply := Ok(200, ConversationReply(id, ParticipantOf(FindUser(db.users, p))));
  }

  /**
   * Opening a chat twice, from either side, yields one conversation: the second request
   * returns the id the first one produced and adds nothing. Session ids are ids as
   * `ObjectId.toString()` writes them, so each is its own cast.
   */
  method OpenFromBothSides(db: Db, a: UserId, b: UserId, newId: ConversationId, otherId: ConversationId, now: Time, later: Time)
    returns (first: Reply<ConversationReply>, second: Reply<ConversationReply>)
    requires db.Valid() && !db.HasConversationId(newId) && !db.HasConversationId(otherId) && newId != otherId
    requires IsObjectId(a) && CastId(a) == a && IsObjectId(b) && CastId(b) == b
    modifies db`conversations
    ensures first.Ok? && second.Ok? && first.body.id == second.body.id
    ensures |db.conversations| <= |old(db.conversations)| + 1
  {
    first := Post(db, Some(a), Some(b), newId, now);
    ghost var afterFirst := db.conversations;
    assert !db.HasConversationId(otherId) by {
      assert forall k :: 0 <= k < |old(db.conversations)| ==> old(db.conversations)[k] in afterFirst;
    }
    FindBothSymmetric(afterFirst, a, b);
    FindBothStable(old(db.conversations), ConversationDoc(newId, [a, b], None, None, now, now), a, b);
    second := Post(db, Some(b), Some(a), otherId, later);
  }

  // ------------------------------------------------------------------------ GET

  datatype LastMessageView = LastMessageView(content: Option<string>, createdAt: Option<Time>, senderId: Option<UserId>)

  datatype ConversationView = ConversationView(
    id: ConversationId,
    otherParticipant: ParticipantView,
    lastMessage: LastMessageView,
    lastMessageAt: Option<Time>,
    updatedAt: Time)

  /**
   * The first `participantDetails` entry that is not the caller. `$lookup` yields the
   * participants' records in the users collection's order, not in `participants` order.
   */
  function FirstOtherUser(us: seq<UserDoc>, participants: seq<UserId>, u: UserId): (r: Option<UserDoc>)
    ensures r.Some? <==> exists k :: 0 <= k < |us| && us[k].id in participants && us[k].id != u
    ensures r.Some? ==> exists k :: (0 <= k < |us| && us[k] == r.value && r.value.id in participants && r.value.id != u
      && forall j :: 0 <= j < k ==> !(us[j].id in participants && us[j].id != u))
    decreases |us|
  {
    if us == [] then None
    else if us[0].id in participants && us[0].id != u then Some(us[0])
    else
      var rest := FirstOtherUser(us[1..], participants, u);
      assert forall k :: 1 <= k < |us| ==> us[k] == us[1..][k - 1];
      assert rest.Some? ==> exists k :: (0 <= k < |us| && us[k] == rest.value && rest.value.id in participants && rest.value.id != u
        && forall j :: 0 <= j < k ==> !(us[j].id in participants && us[j].id != u)) by {
        if rest.Some? {
          var k :| 0 <= k < |us[1..]| && us[1..][k] == rest.value && rest.value.id in participants && rest.value.id != u
            && forall j :: 0 <= j < k ==> !(us[1..][j].id in participants && us[1..][j].id != u);
          assert us[k + 1] == rest.value;
        }
      }
      rest
  }

  /**
   * The `lastMessageDetails` projection: the content, time and sender of the first stored
   * message with the referenced id (`LastMessageOfFound`), or nothing when there is no
   * reference or no such message.
   */
  function LastMessageOf(ms: seq<MessageDoc>, id: Option<MessageId>): (v: LastMessageView)
    ensures id.None? ==> v == LastMessageView(None, None, None)
    ensures id.Some? && (forall k :: 0 <= k < |ms| ==> ms[k].id != id.value) ==> v == LastMessageView(None, None, None)
    decreases |ms|
  {
    if id.None? || ms == [] then LastMessageView(None, None, None)
    else if ms[0].id == id.value then LastMessageView(Some(ms[0].content), Some(ms[0].createdAt), Some(ms[0].senderId))
    else
      assert forall k :: 1 <= k < |ms| ==> ms[k] == ms[1..][k - 1];
      LastMessageOf(ms[1..], id)
  }

  /** A referenced message that is stored is shown: the first one with that id gives content, time and sender. */
  lemma {:induction false} LastMessageOfFound(ms: seq<MessageDoc>, id: MessageId, k: nat)
    requires k < |ms| && ms[k].id == id
    requires forall j :: 0 <= j < k ==> ms[j].id != id
    ensures LastMessageOf(ms, Some(id)) == LastMessageView(Some(ms[k].content), Some(ms[k].createdAt), Some(ms[k].senderId))
    decreases k
  {
    if k > 0 {
      assert forall j :: 0 <= j < k - 1 ==> ms[1..][j] == ms[j + 1];
      LastMessageOfFound(ms[1..], id, k - 1);
    }
  }

  function View(c: ConversationDoc, us: seq<UserDoc>, ms: seq<MessageDoc>, u: UserId): ConversationView {
    ConversationView(c.id, ParticipantOf(FirstOtherUser(us, c.participants, u)), LastMessageOf(ms, c.lastMessage),
                     c.lastMessageAt, c.updatedAt)
  }

  /** `$match: { participants: u }`, in natural order. */
  function Mine(cs: seq<ConversationDoc>, u: UserId): (r: seq<ConversationDoc>)
    ensures forall c :: c in r <==> c in cs && u in c.participants
    decreases |cs|
  {
    if cs == [] then []
    else
      var rest := Mine(cs[1..], u);
      assert cs == [cs[0]] + cs[1..];
      if u in cs[0].participants then [cs[0]] + rest else rest
  }

  /** `x` sorts no later than `y` under descending order, where a missing time is smaller than any time. */
  predicate NotOlder(x: Option<Time>, y: Option<Time>) {
    y.None? || (x.Some? && x.value >= y.value)
  }

  /** `$sort: { lastMessageAt: -1, updatedAt: -1 }`. */
  predicate NewerFirst(a: ConversationView, b: ConversationView) {
    if a.lastMessageAt == b.lastMessageAt then a.updatedAt >= b.updatedAt else NotOlder(a.lastMessageAt, b.lastMessageAt)
  }

  lemma NewerFirstOrders()
    ensures Sorting.TotalPreorder(NewerFirst)
  {
  }

  /** The aggregation's result. */
  function Listing(cs: seq<ConversationDoc>, us: seq<UserDoc>, ms: seq<MessageDoc>, u: UserId): seq<ConversationView> {
    var mine := Mine(cs, u);
    Sorting.SortBy(seq(|mine|, i requires 0 <= i < |mine| => View(mine[i], us, ms, u)), NewerFirst)
  }

  /** GET: 401 without a session, else the caller's conversations, newest first. */
  function Get(session: Option<UserId>, cs: seq<ConversationDoc>, us: seq<UserDoc>, ms: seq<MessageDoc>): (r: Reply<seq<ConversationView>>)
    ensures session.None? ==> r == Fail(401, "Unauthorized")
    ensures session.Some? ==> r == Ok(200, Listing(cs, us, ms, session.value))
  {
    if session.None? then Fail(401, "Unauthorized") else Ok(200, Listing(cs, us, ms, session.value))
  }

  /** The listing holds the caller's conversations and nothing else, each viewed by the caller. */
  lemma ListingIsMine(cs: seq<ConversationDoc>, us: seq<UserDoc>, ms: seq<MessageDoc>, u: UserId)
    ensures forall v :: v in Listing(cs, us, ms, u) ==> exists c :: c in cs && u in c.participants && v == View(c, us, ms, u)
  {
    var mine := Mine(cs, u);
    var views := seq(|mine|, i requires 0 <= i < |mine| => View(mine[i], us, ms, u));
    Sorting.SortByPermutes(views, NewerFirst);
    forall v | v in Listing(cs, us, ms, u) ensures exists c :: c in cs && u in c.participants && v == View(c, us, ms, u) {
      assert v in multiset(views);
      var i :| 0 <= i < |views| && views[i] == v;
      assert mine[i] in mine;
    }
  }

  /** Every conversation of the caller's appears in the listing as many times as it is stored. */
  lemma ListingComplete(cs: seq<ConversationDoc>, us: seq<UserDoc>, ms: seq<MessageDoc>, u: UserId)
    ensures |Listing(cs, us, ms, u)| == |Mine(cs, u)|
    ensures forall c :: c in cs && u in c.participants ==> View(c, us, ms, u) in Listing(cs, us, ms, u)
  {
    var mine := Mine(cs, u);
    var views := seq(|mine|, i requires 0 <= i < |mine| => View(mine[i], us, ms, u));
    Sorting.SortByPermutes(views, NewerFirst);
    assert |Listing(cs, us, ms, u)| == |multiset(views)|;
    forall c | c in cs && u in c.participants ensures View(c, us, ms, u) in Listing(cs, us, ms, u) {
      var i :| 0 <= i < |mine| && mine[i] == c;
      assert views[i] == View(c, us, ms, u);
      assert View(c, us, ms, u) in multiset(views);
    }
  }

  /** The participant shown is never the caller. */
  lemma ListingShowsOthers(cs: seq<ConversationDoc>, us: seq<UserDoc>, ms: seq<MessageDoc>, u: UserId)
    ensures forall v :: v in Listing(cs, us, ms, u) && v.otherParticipant.id.Some? ==> v.otherParticipant.id.value != u
  {
    ListingIsMine(cs, us, ms, u);
  }

  /** The listing runs newest first, every conversation with a last message ahead of every one without. */
  lemma ListingNewestFirst(cs: seq<ConversationDoc>, us: seq<UserDoc>, ms: seq<MessageDoc>, u: UserId)
    ensures var r := Listing(cs, us, ms, u);
      && (forall i, j :: 0 <= i < j < |r| ==> NewerFirst(r[i], r[j]))
      && (forall i, j :: 0 <= i < |r| && 0 <= j < |r| && r[i].lastMessageAt.Some? && r[j].lastMessageAt.None? ==> i < j)
  {
    var mine := Mine(cs, u);
    var views := seq(|mine|, i requires 0 <= i < |mine| => View(mine[i], us, ms, u));
    NewerFirstOrders();
    Sorting.SortBySorted(views, NewerFirst);
    var r := Listing(cs, us, ms, u);
    forall i, j | 0 <= i < |r| && 0 <= j < |r| && r[i].lastMessageAt.Some? && r[j].lastMessageAt.None? ensures i < j {
      if j < i {
        assert false;
      }
    }
  }
}
