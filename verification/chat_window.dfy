/**
 * The chat window of src/components/Chat/ChatWindow.tsx: the pure updaters it hands to
 * `setMessages` for each socket event, the seen sweep, and the component state that the
 * typing debouncer and the optimistic send change step by step.
 */
module ChatWindow {
  import opened Common
  import opened Wire
  import ImageUtils

  /** Some entry of the list has this id. */
  predicate HasId(msgs: seq<Message>, id: MessageId) {
    exists i :: 0 <= i < |msgs| && msgs[i].id == id
  }

  /** No two entries share an id. */
  predicate DistinctIds(msgs: seq<Message>) {
    forall i, j :: 0 <= i < j < |msgs| ==> msgs[i].id != msgs[j].id
  }

  // ---------------------------------------------------------------- message:new

  /** The `handleNewMessage` updater: append unless an entry already has the id. */
  function AppendNew(prev: seq<Message>, m: Message): (r: seq<Message>)
    ensures HasId(r, m.id)
    ensures prev <= r && |r| <= |prev| + 1
    ensures HasId(prev, m.id) ==> r == prev
    ensures !HasId(prev, m.id) ==> r == prev + [m]
    ensures DistinctIds(prev) ==> DistinctIds(r)
  {
    if HasId(prev, m.id) then prev
    else
      assert (prev + [m])[|prev|].id == m.id;
      prev + [m]
  }

  /** A message event whose effect runs later: `setTimeout(..., delayMs)`. */
  datatype Scheduled = After(delayMs: nat, event: ClientEvent)

  datatype NewMessageEffect = NewMessageEffect(messages: seq<Message>, scheduled: seq<Scheduled>)

  /**
   * `handleNewMessage`: an event for this conversation is appended without duplicating an
   * id, and when its `senderId` is not the current user a delivered report (after 100 ms)
   * and a seen report (after 1000 ms) for its id are scheduled; an event for another
   * conversation changes nothing.
   */
  function OnNewMessage(prev: seq<Message>, conversationId: ConversationId, currentUserId: UserId,
                        c: ConversationId, m: Message, senderId: UserId): (r: NewMessageEffect)
    ensures c != conversationId ==> r == NewMessageEffect(prev, [])
    ensures c == conversationId ==> r.messages == AppendNew(prev, m)
    ensures r.scheduled != [] <==> c == conversationId && senderId != currentUserId
    ensures r.scheduled != [] ==>
      r.scheduled == [After(100, MessageDelivered(c, [m.id], currentUserId)),
                      After(1000, MessageSeen(c, [m.id], currentUserId))]
  {
    if c != conversationId then NewMessageEffect(prev, [])
    else if senderId != currentUserId then
      NewMessageEffect(AppendNew(prev, m),
                       [After(100, MessageDelivered(c, [m.id], currentUserId)),
                        After(1000, MessageSeen(c, [m.id], currentUserId))])
    else NewMessageEffect(AppendNew(prev, m), [])
  }

  /** However many `message:new` events arrive, the list never holds two entries with one id. */
  lemma {:induction false} NewMessagesKeepIdsDistinct(prev: seq<Message>, incoming: seq<Message>)
    requires DistinctIds(prev)
    ensures DistinctIds(AppendAll(prev, incoming))
    decreases |incoming|
  {
    if incoming != [] {
      NewMessagesKeepIdsDistinct(AppendNew(prev, incoming[0]), incoming[1..]);
    }
  }

  /** The list after a sequence of `message:new` events for this conversation. */
  function AppendAll(prev: seq<Message>, incoming: seq<Message>): seq<Message>
    decreases |incoming|
  {
    if incoming == [] then prev else AppendAll(AppendNew(prev, incoming[0]), incoming[1..])
  }

  // ------------------------------------------------------ pointwise list updaters

  /** The entry after `handleMessageSent` saw `{tempId, messageId}`. */
  function ResolveOne(m: Message, tempId: MessageId, messageId: MessageId): Message {
    if m.id == tempId then m.(id := messageId, status := Sent) else m
  }

  /** The `handleMessageSent` updater: entries with the temporary id take the permanent id and status sent. */
  function ResolveTemp(prev: seq<Message>, tempId: MessageId, messageId: MessageId): (r: seq<Message>)
    ensures |r| == |prev|
    ensures forall i :: 0 <= i < |prev| && prev[i].id != tempId ==> r[i] == prev[i]
    ensures forall i :: 0 <= i < |prev| && prev[i].id == tempId ==>
      r[i] == prev[i].(id := messageId, status := Sent)
  {
    seq(|prev|, i requires 0 <= i < |prev| => ResolveOne(prev[i], tempId, messageId))
  }

  /** The entry after a delivered/seen notice: only own messages named in `ids` change. */
  function MarkOne(m: Message, ids: seq<MessageId>, currentUserId: UserId, st: Status): Message {
    if m.id in ids && m.senderId == currentUserId then m.(status := st) else m
  }

  /**
   * The `handleDelivered` (st = Delivered) and `handleSeen` (st = Seen) updaters: the
   * status of every own message named in `ids` is overwritten, whatever it was; order,
   * length, ids and every other field stay.
   */
  function MarkStatus(prev: seq<Message>, ids: seq<MessageId>, currentUserId: UserId, st: Status): (r: seq<Message>)
    ensures |r| == |prev|
    ensures forall i :: 0 <= i < |prev| ==> r[i].id == prev[i].id && r[i] == prev[i].(status := r[i].status)
    ensures forall i :: 0 <= i < |prev| ==>
      (r[i].status == st <== prev[i].id in ids && prev[i].senderId == currentUserId)
    ensures forall i :: 0 <= i < |prev| && !(prev[i].id in ids && prev[i].senderId == currentUserId) ==> r[i] == prev[i]
  {
    seq(|prev|, i requires 0 <= i < |prev| => MarkOne(prev[i], ids, currentUserId, st))
  }

  /**
   * No forward-only guard: a delivered notice that arrives after the seen notice turns a
   * seen message back into a delivered one.
   */
  lemma LateDeliveredRegressesSeen(prev: seq<Message>, k: nat, currentUserId: UserId)
    requires k < |prev| && prev[k].senderId == currentUserId
    ensures MarkStatus(MarkStatus(prev, [prev[k].id], currentUserId, Seen), [prev[k].id], currentUserId, Delivered)[k].status
            == Delivered
  {
    var seen := MarkStatus(prev, [prev[k].id], currentUserId, Seen);
    assert seen[k].id == prev[k].id && seen[k].senderId == currentUserId;
  }

  /** The `handleSendMessage` success updater: the temporary entry becomes the server's message with status sent. */
  function ReplaceTemp(prev: seq<Message>, tempId: MessageId, saved: Message): (r: seq<Message>)
    ensures |r| == |prev|
    ensures forall i :: 0 <= i < |prev| && prev[i].id != tempId ==> r[i] == prev[i]
    ensures forall i :: 0 <= i < |prev| && prev[i].id == tempId ==> r[i] == saved.(status := Sent)
  {
    seq(|prev|, i requires 0 <= i < |prev| => if prev[i].id == tempId then saved.(status := Sent) else prev[i])
  }

  /** The `handleSendMessage` failure updater: every entry with the temporary id is dropped, the rest keep their order. */
  function RemoveId(prev: seq<Message>, tempId: MessageId): (r: seq<Message>)
    ensures !HasId(r, tempId)
    ensures |r| <= |prev|
    ensures forall m :: m in r <==> m in prev && m.id != tempId
    decreases |prev|
  {
    if prev == [] then []
    else if prev[|prev| - 1].id == tempId then RemoveId(prev[..|prev| - 1], tempId)
    else RemoveId(prev[..|prev| - 1], tempId) + [prev[|prev| - 1]]
  }

  /** Removing an id that the list does not hold changes nothing. */
  lemma {:induction false} RemoveAbsentId(prev: seq<Message>, tempId: MessageId)
    requires !HasId(prev, tempId)
    ensures RemoveId(prev, tempId) == prev
    decreases |prev|
  {
    if prev != [] {
      var init := prev[..|prev| - 1];
      assert !HasId(init, tempId) by {
        forall i | 0 <= i < |init| ensures init[i].id != tempId { assert init[i] == prev[i]; }
      }
      RemoveAbsentId(init, tempId);
      assert prev == init + [prev[|prev| - 1]];
    }
  }

  /** Removing from a concatenation removes from each part. */
  lemma {:induction false} RemoveIdAppend(a: seq<Message>, b: seq<Message>, tempId: MessageId)
    ensures RemoveId(a + b, tempId) == RemoveId(a, tempId) + RemoveId(b, tempId)
    decreases |b|
  {
    if b == [] {
      assert a + b == a;
    } else {
      var last := b[|b| - 1];
      assert (a + b)[..|a + b| - 1] == a + b[..|b| - 1];
      RemoveIdAppend(a, b[..|b| - 1], tempId);
    }
  }

  /**
   * A failed send removes exactly its own temporary entry: everything before and after
   * it is kept, in order.
   */
  lemma FailedSendRemovesOnlyTemp(before: seq<Message>, temp: Message, after: seq<Message>)
    requires !HasId(before, temp.id) && !HasId(after, temp.id)
    ensures RemoveId(before + [temp] + after, temp.id) == before + after
  {
    RemoveIdAppend(before + [temp], after, temp.id);
    RemoveIdAppend(before, [temp], temp.id);
    RemoveAbsentId(before, temp.id);
    RemoveAbsentId(after, temp.id);
    assert RemoveId([temp], temp.id) == [] by {
      assert [temp][..0] == [];
    }
  }

  /**
   * A successful send replaces its temporary entry in place, so the `message:sent` echo
   * that arrives afterwards finds no temporary id and changes nothing.
   */
  lemma LateSentEchoIsNoOp(prev: seq<Message>, tempId: MessageId, saved: Message)
    requires saved.id != tempId
    ensures ResolveTemp(ReplaceTemp(prev, tempId, saved), tempId, saved.id) == ReplaceTemp(prev, tempId, saved)
  {
  }

  /** An optimistic send that succeeds: the entry appended last is now the saved message with status sent. */
  lemma SucceededSendReplacesLast(prev: seq<Message>, temp: Message, saved: Message)
    requires !HasId(prev, temp.id)
    ensures ReplaceTemp(prev + [temp], temp.id, saved) == prev + [saved.(status := Sent)]
  {
    var r := ReplaceTemp(prev + [temp], temp.id, saved);
    forall i | 0 <= i < |prev| ensures r[i] == prev[i] {
      assert (prev + [temp])[i] == prev[i];
    }
  }

  // ---------------------------------------------------------------- the seen sweep

  /** The ids of the messages the sweep selects: not sent by the current user and not seen, in list order. */
  function UnseenIds(msgs: seq<Message>, currentUserId: UserId): (r: seq<MessageId>)
    ensures |r| <= |msgs|
    ensures forall id :: id in r <==>
      exists i :: 0 <= i < |msgs| && msgs[i].id == id && msgs[i].senderId != currentUserId && msgs[i].status != Seen
    decreases |msgs|
  {
    if msgs == [] then []
    else
      var rest := UnseenIds(msgs[1..], currentUserId);
      assert forall i :: 0 < i < |msgs| ==> msgs[i] == msgs[1..][i - 1];
      if msgs[0].senderId != currentUserId && msgs[0].status != Seen then [msgs[0].id] + rest else rest
  }

  /**
   * The seen-sweep effect: with a signed-in user and some unseen messages, it emits
   * `message:seen` for exactly their ids and PATCHes /api/messages/status with the same
   * ids and 'seen'; otherwise it does nothing (None).
   */
  function SeenSweep(msgs: seq<Message>, currentUserId: UserId): (r: Option<seq<MessageId>>)
    ensures r.Some? <==> currentUserId != "" && UnseenIds(msgs, currentUserId) != []
    ensures r.Some? ==> r.value == UnseenIds(msgs, currentUserId)
  {
    if currentUserId == "" || |msgs| == 0 then None
    else
      var ids := UnseenIds(msgs, currentUserId);
      if |ids| > 0 then Some(ids) else None
  }

  /**
   * Status notices only touch own messages, which the sweep never selects, and nothing
   * marks a received message seen in the list: so the sweep selects the same ids again
   * on every later change of the list.
   */
  lemma {:induction false} StatusNoticesKeepUnseen(msgs: seq<Message>, ids: seq<MessageId>, currentUserId: UserId, st: Status)
    ensures UnseenIds(MarkStatus(msgs, ids, currentUserId, st), currentUserId) == UnseenIds(msgs, currentUserId)
    decreases |msgs|
  {
    if msgs != [] {
      var marked := MarkStatus(msgs, ids, currentUserId, st);
      assert marked[1..] == MarkStatus(msgs[1..], ids, currentUserId, st);
      StatusNoticesKeepUnseen(msgs[1..], ids, currentUserId, st);
    }
  }

  // ---------------------------------------------------------------- typing notices

  datatype TypingView = TypingView(isTyping: bool, typingUser: Option<string>)

  /**
   * The receiving `handleTyping`: a notice from someone else in this conversation is
   * shown as is (a name only while typing); any other notice is ignored. Nothing
   * clears a stale "typing" on its own.
   */
  function OnTypingNotice(v: TypingView, conversationId: ConversationId, currentUserId: UserId,
                          c: ConversationId, u: UserId, userName: Option<string>, isTyping: bool): (r: TypingView)
    ensures c == conversationId && u != currentUserId ==>
      r.isTyping == isTyping && r.typingUser == (if isTyping then userName else None)
    ensures !(c == conversationId && u != currentUserId) ==> r == v
  {
    if c == conversationId && u != currentUserId then
      TypingView(isTyping, if isTyping then userName else None)
    else v
  }

  // ------------------------------------------------------------- component state

  type TimerId = nat

  /** The file picked for attachment: its MIME type and size in bytes. */
  datatype PickedFile = PickedFile(mimeType: string, size: int)

  /** The JSON body `handleSendMessage` POSTs to /api/messages. */
  datatype SendBody = SendBody(conversationId: Option<string>, content: Option<string>, image: Option<ImageData>)

  /** What POST /api/messages answers on success: the saved message and the agent's reply, if any. */
  datatype SendReply = SendReply(message: Message, agentMessage: Option<Message>)

  /** The list after a successful send: temporary entry replaced, the agent's reply appended when present. */
  function AfterSendOk(prev: seq<Message>, tempId: MessageId, reply: SendReply): (r: seq<Message>)
    ensures reply.agentMessage.None? ==> r == ReplaceTemp(prev, tempId, reply.message)
    ensures reply.agentMessage.Some? ==> r == ReplaceTemp(prev, tempId, reply.message) + [reply.agentMessage.value]
  {
    var replaced := ReplaceTemp(prev, tempId, reply.message);
    if reply.agentMessage.Some? then replaced + [reply.agentMessage.value] else replaced
  }

  /**
   * The optimistic entry `handleSendMessage` appends: status 'sending', stamped now, the
   * session user as sender, with the session name or "" when it has none.
   */
  function TempMessage(tempId: MessageId, content: string, now: Time, image: Option<ImageData>,
                       currentUserId: UserId, userName: Option<string>, userImage: Option<string>): (m: Message)
    ensures m.id == tempId && m.status == Sending && m.senderId == currentUserId && m.content == content
    ensures m.image == image && m.createdAt == now
    ensures m.sender.id == currentUserId && m.sender.avatar == OrNull(userImage) && !m.sender.isAgent
    ensures Present(userName) ==> m.sender.name == userName.value
    ensures !Present(userName) ==> m.sender.name == ""
  {
    Message(tempId, content, Sending, now, currentUserId, image,
            SenderInfo(currentUserId, if Present(userName) then userName.value else "", OrNull(userImage), false))
  }

  /** The attachment that goes with the next send: only a selected file that has a preview. */
  function PendingImage(selected: Option<PickedFile>, preview: Option<string>): (r: Option<ImageData>)
    ensures r.Some? <==> selected.Some? && Present(preview)
    ensures r.Some? ==> r.value == ImageData(preview.value, selected.value.mimeType, selected.value.size)
  {
    if selected.Some? && Present(preview) then
      Some(ImageData(preview.value, selected.value.mimeType, selected.value.size))
    else None
  }

  /** The early return of `handleSendMessage`: nothing to send, a send in flight, or no connection. */
  predicate SendBlocked(text: string, selected: Option<PickedFile>, sending: bool, isConnected: bool) {
    (Trim(text) == "" && selected.None?) || sending || !isConnected
  }

  class ChatView {
    const conversationId: ConversationId
    /** The session's user id; "" when there is no session user. */
    const currentUserId: UserId
    const userName: Option<string>
    const userImage: Option<string>
    /** Whether a socket object exists at all. */
    const hasSocket: bool
    /** Whether a session exists (it may lack a user id). */
    const hasSession: bool
    var isConnected: bool
    var messages: seq<Message>
    var newMessage: string
    var sending: bool
    var selectedImage: Option<PickedFile>
    var imagePreview: Option<string>
    var imageError: Option<string>
    /** `typingTimeoutRef.current`. */
    var typingTimer: Option<TimerId>
    /** Stop timers that are scheduled and have neither fired nor been cleared. */
    var pendingTimers: set<TimerId>

    /** At most one stop timer is pending, and it is the one the ref holds. */
    ghost predicate Valid()
      reads this
    {
      pendingTimers <= (if typingTimer.Some? then {typingTimer.value} else {})
    }

    constructor (conversationId: ConversationId, currentUserId: UserId, userName: Option<string>,
                 userImage: Option<string>, hasSocket: bool, hasSession: bool, isConnected: bool)
      ensures Valid()
      ensures this.conversationId == conversationId && this.currentUserId == currentUserId
      ensures this.userName == userName && this.userImage == userImage
      ensures this.hasSocket == hasSocket && this.hasSession == hasSession && this.isConnected == isConnected
      ensures messages == [] && newMessage == "" && !sending
      ensures selectedImage == None && imagePreview == None && imageError == None
      ensures typingTimer == None && pendingTimers == {}
    {
      this.conversationId := conversationId;
      this.currentUserId := currentUserId;
      this.userName := userName;
      this.userImage := userImage;
      this.hasSocket := hasSocket;
      this.hasSession := hasSession;
      this.isConnected := isConnected;
      messages := [];
      newMessage := "";
      sending := false;
      selectedImage := None;
      imagePreview := None;
      imageError := None;
      typingTimer := None;
      pendingTimers := {};
    }

    /** `session?.user?.name || 'User'`. */
    function TypingName(): string
      reads this
    {
      if Present(userName) then userName.value else "User"
    }

    /**
     * The sending `handleTyping`: with a socket and a user, every keystroke emits
     * `typing:start`, clears the pending stop timer and arms a fresh one, so exactly one
     * stop timer is pending afterwards.
     */
    method HandleTyping(t: TimerId) returns (out: seq<ClientEvent>)
      requires Valid() && t !in pendingTimers
      modifies this`typingTimer, this`pendingTimers
      ensures Valid()
      ensures !hasSocket || currentUserId == "" ==>
        out == [] && typingTimer == old(typingTimer) && pendingTimers == old(pendingTimers)
      ensures hasSocket && currentUserId != "" ==>
        && out == [TypingStart(conversationId, currentUserId, TypingName())]
        && typingTimer == Some(t) && pendingTimers == {t}
    {
      if !hasSocket || currentUserId == "" {
        return [];
      }
      out := [TypingStart(conversationId, currentUserId, TypingName())];
      if typingTimer.Some? {
        pendingTimers := pendingTimers - {typingTimer.value};
      }
      typingTimer := Some(t);
      pendingTimers := pendingTimers + {t};
    }

    /** The text input's `onChange`: store the text, then `handleTyping`. */
    method InputChange(text: string, t: TimerId) returns (out: seq<ClientEvent>)
      requires Valid() && t !in pendingTimers
      modifies this`newMessage, this`typingTimer, this`pendingTimers
      ensures Valid() && newMessage == text
      ensures hasSocket && currentUserId != "" ==>
        out == [TypingStart(conversationId, currentUserId, TypingName())] && pendingTimers == {t}
    {
      newMessage := text;
      out := HandleTyping(t);
    }

    /** The pending stop timer fires: `typing:stop` is emitted and nothing is pending any more. */
    method StopTimerFires(t: TimerId) returns (out: seq<ClientEvent>)
      requires Valid() && t in pendingTimers
      modifies this`pendingTimers
      ensures Valid() && pendingTimers == {}
      ensures out == [TypingStop(conversationId, currentUserId)]
    {
      pendingTimers := pendingTimers - {t};
      out := [TypingStop(conversationId, currentUserId)];
    }

    /**
     * `handleImageSelect` without the file reading: the error is cleared, a file that
     * fails `validateFile` leaves its error and no selection, a valid one is selected
     * with its data-URL preview.
     */
    method SelectImage(file: PickedFile, preview: string)
      modifies this`selectedImage, this`imagePreview, this`imageError
      ensures var check := ImageUtils.ValidateFile(file.mimeType, file.size);
        if check.valid then selectedImage == Some(file) && imagePreview == Some(preview) && imageError == None
        else (imageError == Some(if Present(check.error) then check.error.value else "Invalid file")
              && selectedImage == old(selectedImage) && imagePreview == old(imagePreview))
    {
      imageError := None;
      var check := ImageUtils.ValidateFile(file.mimeType, file.size);
      if !check.valid {
        imageError := Some(if Present(check.error) then check.error.value else "Invalid file");
        return;
      }
      selectedImage := Some(file);
      imagePreview := Some(preview);
    }

    /** `removeImage`: the selected file, its preview and the image error are all cleared. */
    method RemoveImage()
      modifies this`selectedImage, this`imagePreview, this`imageError
      ensures selectedImage == None && imagePreview == None && imageError == None
    {
      selectedImage, imagePreview, imageError := None, None, None;
    }

    /**
     * The synchronous part of `handleSendMessage`. Nothing happens when the trimmed text
     * is empty and no image is selected, or a send is in flight, or the socket is
     * disconnected. Otherwise the input is cleared, `sending` is set, `typing:stop` is
     * emitted, a 'sending' entry with the fresh temporary id is appended at the end, the
     * attachment is cleared, and the POST body is returned.
     */
    method BeginSend(tempId: MessageId, now: Time) returns (started: bool, out: seq<ClientEvent>, body: Option<SendBody>)
      requires Valid() && !HasId(messages, tempId)
      modifies this`messages, this`newMessage, this`sending, this`selectedImage, this`imagePreview, this`imageError
      ensures Valid()
      ensures started <==> !SendBlocked(old(newMessage), old(selectedImage), old(sending), isConnected)
      ensures !started ==> out == [] && body == None && unchanged(this)
      ensures started ==> sending && newMessage == "" && selectedImage == None && imagePreview == None && imageError == None
      ensures started ==> out == (if hasSocket then [TypingStop(conversationId, currentUserId)] else [])
      ensures started ==>
        var image := PendingImage(old(selectedImage), old(imagePreview));
        var content := Trim(old(newMessage));
        && messages == old(messages) + [TempMessage(tempId, content, now, image, currentUserId, userName, userImage)]
        && body == Some(SendBody(Some(conversationId), Some(content), image))
    {
      if SendBlocked(newMessage, selectedImage, sending, isConnected) {
        return false, [], None;
      }
      started := true;
      var content := Trim(newMessage);
      newMessage := "";
      sending := true;
      out := if hasSocket then [TypingStop(conversationId, currentUserId)] else [];
      var image := PendingImage(selectedImage, imagePreview);
      messages := messages + [TempMessage(tempId, content, now, image, currentUserId, userName, userImage)];
      RemoveImage();
      body := Some(SendBody(Some(conversationId), Some(content), image));
    }

    /**
     * The POST succeeded: the temporary entry is replaced in place by the saved message
     * with status sent, `message:send` goes out (when there is a socket and a session;
     * the recipient list the window passes is dropped),
     * the agent's reply is appended after it, and `sending` is cleared.
     */
    method FinishSendOk(tempId: MessageId, reply: SendReply) returns (out: seq<ClientEvent>)
      modifies this`messages, this`sending
      ensures messages == AfterSendOk(old(messages), tempId, reply) && !sending
      ensures out == if hasSocket && hasSession then [MessageSend(conversationId, reply.message, currentUserId, tempId)] else []
    {
      messages := ReplaceTemp(messages, tempId, reply.message);
      out := if hasSocket && hasSession then [MessageSend(conversationId, reply.message, currentUserId, tempId)] else [];
      if reply.agentMessage.Some? {
        messages := messages + [reply.agentMessage.value];
      }
      sending := false;
    }

    /**
     * The POST failed (an error reply, with its `error` text if any, or a thrown
     * request): the error is shown, exactly the temporary entry is removed and
     * `sending` is cleared.
     */
    method FinishSendFailed(tempId: MessageId, error: Option<string>)
      modifies this`messages, this`sending, this`imageError
      ensures messages == RemoveId(old(messages), tempId) && !sending
      ensures imageError == Some(if Present(error) then error.value else "Failed to send message")
    {
      imageError := Some(if Present(error) then error.value else "Failed to send message");
      messages := RemoveId(messages, tempId);
      sending := false;
    }
  }

  /** One optimistic send that fails: the list ends as it began and nothing is left in flight. */
  method FailedSendRestoresList(v: ChatView, tempId: MessageId, now: Time)
    requires v.Valid() && !HasId(v.messages, tempId)
    modifies v
    ensures v.messages == old(v.messages) && v.newMessage == (if SendBlocked(old(v.newMessage), old(v.selectedImage), old(v.sending), v.isConnected) then old(v.newMessage) else "")
    ensures !SendBlocked(old(v.newMessage), old(v.selectedImage), old(v.sending), v.isConnected) ==> !v.sending
  {
    ghost var before := v.messages;
    var started, _, _ := v.BeginSend(tempId, now);
    if started {
      FailedSendRemovesOnlyTemp(before, v.messages[|v.messages| - 1], []);
      assert before + [v.messages[|v.messages| - 1]] + [] == v.messages;
      v.FinishSendFailed(tempId, None);
    }
  }
}
