/** PATCH /api/messages/status (src/app/api/messages/status/route.ts): batch status update. */
module StatusApi {
  import opened Common
  import opened Wire
  import opened Store

  /** The `messageIds` field of the JSON body: absent or falsy, some other non-array value, or an array of ids. */
  datatype IdsField = NoIds | NotArray | Ids(ids: seq<string>)

  /** The statuses a client may request. */
  const Requestable: set<string> := {"sent", "delivered", "seen"}

  /** The `updateData` the route builds: the status, plus `$addToSet` of the caller's seen entry for 'seen'. */
  function StatusChange(status: string, u: UserId, now: Time): (ch: Change)
    ensures ch.status == status && ch.at == now
    ensures ch.seen.AddToSet? <==> status == "seen"
    ensures ch.seen.AddToSet? ==> ch.seen.entry == SeenEntry(u, now)
    ensures !ch.seen.AddToSet? ==> ch.seen.KeepSeen?
  {
    Change(status, if status == "seen" then AddToSet(SeenEntry(u, now)) else KeepSeen, now)
  }

  /** The request's validation outcome, before the store is touched. */
  function Check(session: Option<UserId>, messageIds: IdsField, status: Option<string>): (r: Option<Reply<int>>)
    ensures session.None? ==> r == Some(Fail(401, "Unauthorized"))
    ensures session.Some? && (messageIds.NoIds? || messageIds.NotArray? || messageIds.ids == []) ==>
      r == Some(Fail(400, "Message IDs required"))
    ensures session.Some? && messageIds.Ids? && messageIds.ids != [] && !(status.Some? && status.value in Requestable) ==>
      r == Some(Fail(400, "Invalid status"))
    ensures session.Some? && messageIds.Ids? && messageIds.ids != [] && status.Some? && status.value in Requestable ==>
      r == None
  {
    if session.None? then Some(Fail(401, "Unauthorized"))
    else if !messageIds.Ids? || messageIds.ids == [] then Some(Fail(400, "Message IDs required"))
    else if !(status.Some? && status.value in Requestable) then Some(Fail(400, "Invalid status"))
    else None
  }

  /**
   * The handler. Checks fail in the order session, ids, status; an id that is not an
   * ObjectId makes the route answer 500. Otherwise every listed message not sent by the
   * caller (ids compared after the cast, whatever their letter case) gets the status,
   * whatever it had; 'seen' also adds the caller's seen entry. The reply's `updated` is
   * the number of ids sent, not the number matched.
   */
  method Patch(db: Db, session: Option<UserId>, messageIds: IdsField, status: Option<string>, now: Time)
    returns (reply: Reply<int>)
    requires db.Valid()
    modifies db`messages
    ensures db.Valid()
    ensures Check(session, messageIds, status).Some? ==>
      reply == Check(session, messageIds, status).value && db.messages == old(db.messages)
    ensures Check(session, messageIds, status).None? && !(forall i :: 0 <= i < |messageIds.ids| ==> IsObjectId(messageIds.ids[i])) ==>
      reply == Fail(500, "Internal server error") && db.messages == old(db.messages)
    ensures Check(session, messageIds, status).None? && (forall i :: 0 <= i < |messageIds.ids| ==> IsObjectId(messageIds.ids[i])) ==>
      && reply == Ok(200, |messageIds.ids|)
      && db.messages == StatusUpdated(old(db.messages), CastIds(messageIds.ids), session.value, status.value, now)
  {
    var early := Check(session, messageIds, status);
    if early.Some? {
      return early.value;
    }
    var ids := messageIds.ids;
    if !(forall i :: 0 <= i < |ids| ==> IsObjectId(ids[i])) {
      return Fail(500, "Internal server error");
    }
    db.UpdateMany(IdIn(CastIds(ids), session.value), StatusChange(status.value, session.value, now));
    reply := Ok(200, |ids|);
  }

  /** The messages after a successful batch update. */
  function StatusUpdated(ms: seq<MessageDoc>, ids: seq<MessageId>, u: UserId, status: string, now: Time): seq<MessageDoc> {
    UpdatedMany(ms, IdIn(ids, u), StatusChange(status, u, now))
  }

  /**
   * What one batch update does to message `i`: a listed message from someone else takes
   * the status whatever it was before (no forward-only guard) and gains the caller's seen
   * entry only for 'seen'; the caller's own and unlisted messages are untouched.
   */
  lemma StatusUpdateEffect(ms: seq<MessageDoc>, ids: seq<MessageId>, u: UserId, status: string, now: Time, i: nat)
    requires i < |ms|
    ensures var r := StatusUpdated(ms, ids, u, status, now);
      && (ms[i].id !in ids || ms[i].senderId == u ==> r[i] == ms[i])
      && (ms[i].id in ids && ms[i].senderId != u ==>
            && r[i].status == status
            && (status != "seen" ==> r[i].seenBy == ms[i].seenBy)
            && (status == "seen" ==> SeenBy(r[i], u)))
  {
    var r := StatusUpdated(ms, ids, u, status, now);
    if ms[i].id in ids && ms[i].senderId != u && status == "seen" {
      var e := SeenEntry(u, now);
      assert e in r[i].seenBy;
      var k :| 0 <= k < |r[i].seenBy| && r[i].seenBy[k] == e;
    }
  }

  /** A later 'delivered' batch turns a message marked 'seen' back into 'delivered'. */
  lemma DeliveredAfterSeenRegresses(ms: seq<MessageDoc>, ids: seq<MessageId>, u: UserId, t1: Time, t2: Time, i: nat)
    requires i < |ms| && ms[i].id in ids && ms[i].senderId != u
    ensures StatusUpdated(StatusUpdated(ms, ids, u, "seen", t1), ids, u, "delivered", t2)[i].status == "delivered"
  {
    var once := StatusUpdated(ms, ids, u, "seen", t1);
    assert once[i].id == ms[i].id && once[i].senderId == ms[i].senderId;
  }

  /**
   * `$addToSet` never finds its fresh sub-document already stored, so two 'seen' batches,
   * even at the same instant, leave two seen entries for the caller.
   */
  lemma RepeatedSeenDuplicatesEntries(m: MessageDoc, u: UserId, t1: Time, t2: Time)
    requires m.senderId != u && m.seenBy == []
    ensures StatusUpdated(StatusUpdated([m], [m.id], u, "seen", t1), [m.id], u, "seen", t2)[0].seenBy
            == [SeenEntry(u, t1), SeenEntry(u, t2)]
  {
    var once := StatusUpdated([m], [m.id], u, "seen", t1);
    assert once[0].seenBy == [SeenEntry(u, t1)];
  }

  /** The reply counts the ids sent: listing one's own message still reports it as updated while nothing changes. */
  method OwnMessageCountedAsUpdated(db: Db, u: UserId, m: MessageDoc, now: Time) returns (reply: Reply<int>)
    requires db.Valid() && db.messages == [m] && m.senderId == u && IsObjectId(m.id)
    modifies db`messages
    ensures reply == Ok(200, 1) && db.messages == old(db.messages)
  {
    reply := Patch(db, Some(u), Ids([m.id]), Some("delivered"), now);
    assert !Matches(IdIn(CastIds([m.id]), u), m);
    assert db.messages[0] == m;
  }
}
