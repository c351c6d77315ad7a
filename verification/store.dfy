/**
 * The MongoDB collections the API routes read and write (the schemas under src/models), held in memory:
 * users, conversations and messages in insertion (natural) order, with the update
 * operators the routes use written out as a small first-order filter/update language.
 */
module Store {
  import opened Common
  import opened Wire

  predicate IsHexDigit(c: char) {
    '0' <= c <= '9' || 'a' <= c <= 'f' || 'A' <= c <= 'F'
  }

  /** A string that casts to an ObjectId: 24 hexadecimal digits. Any other id string makes mongoose throw. */
  predicate IsObjectId(s: string) {
    |s| == 24 && forall i :: 0 <= i < |s| ==> IsHexDigit(s[i])
  }

  /**
   * The id a request's id string names once mongoose casts it to an ObjectId. The cast
   * reads hex digits in either case, and stored ids are written as `ObjectId.toString()`
   * writes them, in lower case; so ids that differ only in case name the same document.
   */
  function CastId(s: string): (r: string)
    ensures IsObjectId(s) ==> IsObjectId(r)
    ensures forall i :: 0 <= i < |r| ==> !('A' <= r[i] <= 'Z')
    ensures ToLower(r) == ToLower(s)
  {
    ToLower(s)
  }

  /** `ids.map(id => new ObjectId(id))`. */
  function CastIds(ids: seq<string>): seq<MessageId> {
    seq(|ids|, i requires 0 <= i < |ids| => CastId(ids[i]))
  }

  /** One `seenBy` element of a message. */
  datatype SeenEntry = SeenEntry(userId: UserId, seenAt: Time)

  /** A message document; `status` is a plain string because updates bypass the schema enum. */
  datatype MessageDoc = MessageDoc(
    id: MessageId,
    conversationId: ConversationId,
    senderId: UserId,
    content: string,
    status: string,
    seenBy: seq<SeenEntry>,
    createdAt: Time,
    updatedAt: Time)

  datatype ConversationDoc = ConversationDoc(
    id: ConversationId,
    participants: seq<UserId>,
    lastMessage: Option<MessageId>,
    lastMessageAt: Option<Time>,
    createdAt: Time,
    updatedAt: Time)

  datatype Location = Location(lat: real, lng: real, city: Option<string>, country: Option<string>)

  /** A bcrypt digest, kept symbolic: the plain text and the cost it was hashed with. */
  datatype Digest = Bcrypt(plain: string, rounds: nat)

  datatype UserDoc = UserDoc(
    id: UserId,
    email: string,
    password: Digest,
    name: string,
    avatar: Option<string>,
    isAgent: bool,
    personality: Option<string>,
    location: Option<Location>,
    deviceInfo: Option<DeviceInfo>,
    isOnline: bool,
    lastSeen: Time,
    createdAt: Time,
    updatedAt: Time)

  /** Some `seenBy` element names `u` (the negation of `'seenBy.userId': { $ne: u }`). */
  predicate SeenBy(m: MessageDoc, u: UserId) {
    exists k :: 0 <= k < |m.seenBy| && m.seenBy[k].userId == u
  }

  // ------------------------------------------------------------ update language

  /** The message filters the routes pass to `updateMany` / `findByIdAndUpdate`. */
  datatype Selector =
    | IdIn(ids: seq<MessageId>, notFrom: UserId)          // `{ _id: { $in: ids }, senderId: { $ne: u } }`
    | UnseenIn(conversationId: ConversationId, user: UserId) // `{ conversationId, senderId: { $ne: u }, 'seenBy.userId': { $ne: u } }`
    | IdIs(id: MessageId)                                  // `findByIdAndUpdate(id, ...)`

  predicate Matches(sel: Selector, m: MessageDoc) {
    match sel
    case IdIn(ids, u) => m.id in ids && m.senderId != u
    case UnseenIn(c, u) => m.conversationId == c && m.senderId != u && !SeenBy(m, u)
    case IdIs(id) => m.id == id
  }

  /**
   * What an update does to `seenBy`: nothing, `$addToSet` or `$push`. `seenBy` elements are
   * sub-documents, and mongoose gives each cast element a fresh `_id`, so the element
   * `$addToSet` adds never equals a stored one and it appends just as `$push` does.
   */
  datatype SeenOp = KeepSeen | AddToSet(entry: SeenEntry) | Push(entry: SeenEntry)

  /** An update document: the new `status`, the `seenBy` operator, and the `updatedAt` stamp. */
  datatype Change = Change(status: string, seen: SeenOp, at: Time)

  /** One document after an update: only `status`, `seenBy` and `updatedAt` can change. */
  function Apply(ch: Change, m: MessageDoc): (r: MessageDoc)
    ensures r == m.(status := ch.status, seenBy := r.seenBy, updatedAt := ch.at)
    ensures ch.seen.KeepSeen? ==> r.seenBy == m.seenBy
    ensures ch.seen.Push? ==> r.seenBy == m.seenBy + [ch.seen.entry]
    ensures ch.seen.AddToSet? ==> r.seenBy == m.seenBy + [ch.seen.entry]
  {
    var seenBy :=
      match ch.seen
      case KeepSeen => m.seenBy
      case AddToSet(e) => m.seenBy + [e]
      case Push(e) => m.seenBy + [e];
    m.(status := ch.status, seenBy := seenBy, updatedAt := ch.at)
  }

  /** The collection after `updateMany(sel, ch)`. */
  function UpdatedMany(ms: seq<MessageDoc>, sel: Selector, ch: Change): (r: seq<MessageDoc>)
    ensures |r| == |ms|
  {
    seq(|ms|, i requires 0 <= i < |ms| => if Matches(sel, ms[i]) then Apply(ch, ms[i]) else ms[i])
  }

  /** An update changes the matched documents only, and never an id, a sender or a conversation. */
  lemma UpdatedManyTouchesOnlyMatches(ms: seq<MessageDoc>, sel: Selector, ch: Change, i: nat)
    requires i < |ms|
    ensures var r := UpdatedMany(ms, sel, ch);
      && r[i].id == ms[i].id && r[i].senderId == ms[i].senderId && r[i].conversationId == ms[i].conversationId
      && (!Matches(sel, ms[i]) ==> r[i] == ms[i])
      && (Matches(sel, ms[i]) ==> r[i].status == ch.status)
  {
  }

  // ------------------------------------------------------------------ queries

  /** `User.findById(id)`: the first user with the id, or null. */
  function FindUser(us: seq<UserDoc>, id: UserId): (r: Option<UserDoc>)
    ensures r.Some? <==> exists k :: 0 <= k < |us| && us[k].id == id
    ensures r.Some? ==> r.value in us && r.value.id == id
    decreases |us|
  {
    if us == [] then None
    else if us[0].id == id then Some(us[0])
    else
      var rest := FindUser(us[1..], id);
      assert forall k :: 1 <= k < |us| ==> us[k] == us[1..][k - 1];
      rest
  }

  /** Some user holds this email (what the unique index on `email` compares). */
  predicate EmailTaken(us: seq<UserDoc>, email: string) {
    exists k :: 0 <= k < |us| && us[k].email == email
  }

  /** `Conversation.findOne({ _id: c, participants: u })`: the conversation `c` when `u` takes part in it. */
  function FindMembership(cs: seq<ConversationDoc>, c: ConversationId, u: UserId): (r: Option<ConversationDoc>)
    ensures r.Some? <==> exists k :: 0 <= k < |cs| && cs[k].id == c && u in cs[k].participants
    ensures r.Some? ==> r.value in cs && r.value.id == c && u in r.value.participants
    decreases |cs|
  {
    if cs == [] then None
    else if cs[0].id == c && u in cs[0].participants then Some(cs[0])
    else
      var rest := FindMembership(cs[1..], c, u);
      assert forall k :: 1 <= k < |cs| ==> cs[k] == cs[1..][k - 1];
      rest
  }

  /** The conversations after `findByIdAndUpdate(c, { lastMessage: m, lastMessageAt: at })`. */
  function WithLastMessage(cs: seq<ConversationDoc>, c: ConversationId, m: MessageId, at: Time): (r: seq<ConversationDoc>)
    ensures |r| == |cs|
    ensures forall i :: 0 <= i < |cs| && cs[i].id != c ==> r[i] == cs[i]
    ensures forall i :: 0 <= i < |cs| && cs[i].id == c ==>
      r[i] == cs[i].(lastMessage := Some(m), lastMessageAt := Some(at), updatedAt := at)
  {
    seq(|cs|, i requires 0 <= i < |cs| =>
      if cs[i].id == c then cs[i].(lastMessage := Some(m), lastMessageAt := Some(at), updatedAt := at) else cs[i])
  }

  predicate UniqueUsers(us: seq<UserDoc>) {
    forall i, j :: 0 <= i < j < |us| ==> us[i].id != us[j].id && us[i].email != us[j].email
  }

  predicate UniqueConversations(cs: seq<ConversationDoc>) {
    forall i, j :: 0 <= i < j < |cs| ==> cs[i].id != cs[j].id
  }

  predicate UniqueMessages(ms: seq<MessageDoc>) {
    forall i, j :: 0 <= i < j < |ms| ==> ms[i].id != ms[j].id
  }

  /** The three collections. Ids are unique in each, and so are user emails (the unique index). */
  class Db {
    var users: seq<UserDoc>
    var conversations: seq<ConversationDoc>
    var messages: seq<MessageDoc>

    ghost predicate Valid()
      reads this
    {
      UniqueUsers(users) && UniqueConversations(conversations) && UniqueMessages(messages)
    }

    constructor ()
      ensures Valid() && users == [] && conversations == [] && messages == []
    {
      users, conversations, messages := [], [], [];
    }

    predicate HasUserId(id: UserId)
      reads this
    {
      exists k :: 0 <= k < |users| && users[k].id == id
    }

    predicate HasConversationId(id: ConversationId)
      reads this
    {
      exists k :: 0 <= k < |conversations| && conversations[k].id == id
    }

    predicate HasMessageId(id: MessageId)
      reads this
    {
      exists k :: 0 <= k < |messages| && messages[k].id == id
    }

    /** `User.create(doc)`: refused with duplicate-key error 11000 when the email is taken. */
    method InsertUser(u: UserDoc) returns (ok: bool)
      requires Valid() && !HasUserId(u.id)
      modifies this`users
      ensures Valid()
      ensures ok <==> !EmailTaken(old(users), u.email)
      ensures users == if ok then old(users) + [u] else old(users)
    {
      ok := !EmailTaken(users, u.email);
      if ok {
        users := users + [u];
      }
    }

    /** `Conversation.create(doc)` with a fresh id. */
    method InsertConversation(c: ConversationDoc)
      requires Valid() && !HasConversationId(c.id)
      modifies this`conversations
      ensures Valid() && conversations == old(conversations) + [c]
    {
      conversations := conversations + [c];
    }

    /** `Message.create(doc)` with a fresh id. */
    method InsertMessage(m: MessageDoc)
      requires Valid() && !HasMessageId(m.id)
      modifies this`messages
      ensures Valid() && messages == old(messages) + [m]
    {
      messages := messages + [m];
    }

    /** `Conversation.findByIdAndUpdate(c, { lastMessage: m, lastMessageAt: at })`. */
    method SetLastMessage(c: ConversationId, m: MessageId, at: Time)
      requires Valid()
      modifies this`conversations
      ensures Valid() && conversations == WithLastMessage(old(conversations), c, m, at)
    {
      conversations := WithLastMessage(conversations, c, m, at);
    }

    /** `Message.updateMany(filter, update)`: one pass over the collection, updating each matching document. */
    method UpdateMany(sel: Selector, ch: Change)
      requires Valid()
      modifies this`messages
      ensures Valid() && messages == UpdatedMany(old(messages), sel, ch)
    {
      var i := 0;
      while i < |messages|
        invariant 0 <= i <= |messages| == |old(messages)|
        invariant forall k :: 0 <= k < i ==>
          messages[k] == if Matches(sel, old(messages)[k]) then Apply(ch, old(messages)[k]) else old(messages)[k]
        invariant messages[i..] == old(messages)[i..]
      {
        if Matches(sel, messages[i]) {
          messages := messages[i := Apply(ch, messages[i])];
        }
        i := i + 1;
      }
      assert forall k :: 0 <= k < |messages| ==> messages[k].id == old(messages)[k].id;
    }
  }
}
