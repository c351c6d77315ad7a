/** GET /api/messages/unread (src/app/api/messages/unread/route.ts): the caller's unread count. */
module UnreadApi {
  import opened Common
  import opened Wire
  import opened Store

  /** The ids of the conversations `u` takes part in (`Conversation.find({ participants: u })`). */
  function MemberConversations(cs: seq<ConversationDoc>, u: UserId): (r: set<ConversationId>)
    ensures forall c :: c in r <==> exists k :: 0 <= k < |cs| && cs[k].id == c && u in cs[k].participants
  {
    set k | 0 <= k < |cs| && u in cs[k].participants :: cs[k].id
  }

  /** A message the count includes: in one of `ids`, sent by someone else, with no seen entry for `u`. */
  predicate Unread(m: MessageDoc, ids: set<ConversationId>, u: UserId) {
    m.conversationId in ids && m.senderId != u && !SeenBy(m, u)
  }

  /** `Message.countDocuments(...)` over the collection. */
  function UnreadCount(ms: seq<MessageDoc>, ids: set<ConversationId>, u: UserId): (n: nat)
    ensures n <= |ms|
    decreases |ms|
  {
    if ms == [] then 0 else (if Unread(ms[0], ids, u) then 1 else 0) + UnreadCount(ms[1..], ids, u)
  }

  /** The handler: 401 without a session, otherwise the count over the caller's conversations. */
  function Get(session: Option<UserId>, cs: seq<ConversationDoc>, ms: seq<MessageDoc>): (r: Reply<nat>)
    ensures session.None? ==> r == Fail(401, "Unauthorized")
    ensures session.Some? ==> r == Ok(200, UnreadCount(ms, MemberConversations(cs, session.value), session.value))
    ensures session.Some? ==> r.Ok? && r.code == 200 && r.body <= |ms|
    ensures session.Some? ==> (r.body == 0 <==> forall i :: 0 <= i < |ms| ==> !Unread(ms[i], MemberConversations(cs, session.value), session.value))
  {
    if session.None? then Fail(401, "Unauthorized")
    else
      var u := session.value;
      var ids := MemberConversations(cs, u);
      CountZeroIff(ms, ids, u);
      Ok(200, UnreadCount(ms, ids, u))
  }

  /** The count is zero exactly when no message qualifies. */
  lemma {:induction false} CountZeroIff(ms: seq<MessageDoc>, ids: set<ConversationId>, u: UserId)
    ensures UnreadCount(ms, ids, u) == 0 <==> forall i :: 0 <= i < |ms| ==> !Unread(ms[i], ids, u)
    decreases |ms|
  {
    if ms != [] {
      CountZeroIff(ms[1..], ids, u);
      assert forall i :: 1 <= i < |ms| ==> ms[i] == ms[1..][i - 1];
    }
  }

  /** Counting a concatenation adds the counts of the parts. */
  lemma {:induction false} CountAppend(a: seq<MessageDoc>, b: seq<MessageDoc>, ids: set<ConversationId>, u: UserId)
    ensures UnreadCount(a + b, ids, u) == UnreadCount(a, ids, u) + UnreadCount(b, ids, u)
    decreases |a|
  {
    if a == [] {
      assert a + b == b;
    } else {
      assert (a + b)[1..] == a[1..] + b;
      CountAppend(a[1..], b, ids, u);
    }
  }

  /** When each message of `after` qualifies only if its counterpart in `before` did, the count cannot grow. */
  lemma {:induction false} CountMonotone(before: seq<MessageDoc>, after: seq<MessageDoc>, ids: set<ConversationId>, ids': set<ConversationId>, u: UserId)
    requires |before| == |after|
    requires forall i :: 0 <= i < |after| && Unread(after[i], ids', u) ==> Unread(before[i], ids, u)
    ensures UnreadCount(after, ids', u) <= UnreadCount(before, ids, u)
    decreases |before|
  {
    if before != [] {
      CountMonotone(before[1..], after[1..], ids, ids', u);
    }
  }

  /** When each message qualifies exactly when its counterpart does, the counts agree. */
  lemma CountPointwise(before: seq<MessageDoc>, after: seq<MessageDoc>, ids: set<ConversationId>, ids': set<ConversationId>, u: UserId)
    requires |before| == |after|
    requires forall i :: 0 <= i < |after| ==> (Unread(after[i], ids', u) <==> Unread(before[i], ids, u))
    ensures UnreadCount(after, ids', u) == UnreadCount(before, ids, u)
  {
    CountMonotone(before, after, ids, ids', u);
    CountMonotone(after, before, ids', ids, u);
  }

  /** The caller's own new message never changes the caller's count. */
  lemma OwnMessageNeverCounts(ms: seq<MessageDoc>, m: MessageDoc, ids: set<ConversationId>, u: UserId)
    requires m.senderId == u
    ensures UnreadCount(ms + [m], ids, u) == UnreadCount(ms, ids, u)
  {
    CountAppend(ms, [m], ids, u);
  }

  /** A message in a conversation the caller is not part of never changes the caller's count. */
  lemma ForeignMessageNeverCounts(cs: seq<ConversationDoc>, ms: seq<MessageDoc>, m: MessageDoc, u: UserId)
    requires m.conversationId !in MemberConversations(cs, u)
    ensures UnreadCount(ms + [m], MemberConversations(cs, u), u) == UnreadCount(ms, MemberConversations(cs, u), u)
  {
    CountAppend(ms, [m], MemberConversations(cs, u), u);
  }

  /**
   * The count depends on `seenBy` only: an update that keeps every `seenBy` (a status
   * change to 'delivered', say) leaves everyone's count as it was.
   */
  lemma StatusOnlyUpdateKeepsCount(ms: seq<MessageDoc>, sel: Selector, status: string, at: Time, ids: set<ConversationId>, u: UserId)
    ensures UnreadCount(UpdatedMany(ms, sel, Change(status, KeepSeen, at)), ids, u) == UnreadCount(ms, ids, u)
  {
    var after := UpdatedMany(ms, sel, Change(status, KeepSeen, at));
    forall i | 0 <= i < |after| ensures Unread(after[i], ids, u) <==> Unread(ms[i], ids, u) {
      assert after[i].seenBy == ms[i].seenBy;
    }
    CountPointwise(ms, after, ids, ids, u);
  }

  /** No update the routes issue raises anyone's count: `seenBy` only ever grows. */
  lemma UpdatesNeverRaiseCount(ms: seq<MessageDoc>, sel: Selector, ch: Change, ids: set<ConversationId>, u: UserId)
    ensures UnreadCount(UpdatedMany(ms, sel, ch), ids, u) <= UnreadCount(ms, ids, u)
  {
    var after := UpdatedMany(ms, sel, ch);
    forall i | 0 <= i < |after| ensures Unread(after[i], ids, u) ==> Unread(ms[i], ids, u) {
      SeenByKept(ms[i], after[i], u);
    }
    CountMonotone(ms, after, ids, ids, u);
  }

  /** A seen entry survives any growth of `seenBy`. */
  lemma SeenByKept(m: MessageDoc, m': MessageDoc, u: UserId)
    requires m.seenBy <= m'.seenBy
    ensures SeenBy(m, u) ==> SeenBy(m', u)
  {
    if SeenBy(m, u) {
      var k :| 0 <= k < |m.seenBy| && m.seenBy[k].userId == u;
      assert m'.seenBy[k].userId == u;
    }
  }
}
