/**
 * The socket relay of server.js: one handler per incoming event, each an atomic step over
 * the relay's maps that returns the events it emits.
 */
module Relay {
  import opened Common
  import opened Wire

  /** One emitted event and the sockets it is delivered to. */
  datatype Emission = Emission(to: set<SocketId>, event: ServerEvent)

  /** The sockets in room `c` of a socket.io room table. */
  function Members(rooms: map<ConversationId, set<SocketId>>, c: ConversationId): set<SocketId> {
    if c in rooms then rooms[c] else {}
  }

  /** A socket is in a room exactly when that conversation is on the socket's join list. */
  ghost predicate RoomsMatchJoins(rooms: map<ConversationId, set<SocketId>>, joined: map<SocketId, seq<ConversationId>>) {
    && (forall c, s :: s in Members(rooms, c) ==> s in joined && c in joined[s])
    && (forall s, c :: s in joined && c in joined[s] ==> s in Members(rooms, c))
  }

  /** The join list after `conversation:join(c)` on socket `s`. */
  function Joined(joined: map<SocketId, seq<ConversationId>>, s: SocketId, c: ConversationId): map<SocketId, seq<ConversationId>> {
    joined[s := (if s in joined then joined[s] else []) + [c]]
  }

  /** Joining a room and appending to the join list keeps the two in step. */
  lemma JoinKeepsRoomsMatched(rooms: map<ConversationId, set<SocketId>>, joined: map<SocketId, seq<ConversationId>>,
                              s: SocketId, c: ConversationId)
    requires RoomsMatchJoins(rooms, joined)
    ensures RoomsMatchJoins(rooms[c := Members(rooms, c) + {s}], Joined(joined, s, c))
  {
    var rooms', joined' := rooms[c := Members(rooms, c) + {s}], Joined(joined, s, c);
    forall c', s' | s' in Members(rooms', c') ensures s' in joined' && c' in joined'[s'] {
      if s' == s && c' != c {
        assert s in Members(rooms, c');
      } else if s' != s {
        assert s' in Members(rooms, c');
      }
    }
    forall s', c' | s' in joined' && c' in joined'[s'] ensures s' in Members(rooms', c') {
      if s' != s {
        assert c' in joined[s'];
        assert s' in Members(rooms, c');
      } else if c' != c {
        assert s in joined && c' in joined[s];
        assert s in Members(rooms, c');
      }
    }
  }

  /** Dropping a socket from every room and its join list keeps the two in step. */
  lemma LeaveKeepsRoomsMatched(rooms: map<ConversationId, set<SocketId>>, joined: map<SocketId, seq<ConversationId>>, s: SocketId)
    requires RoomsMatchJoins(rooms, joined)
    ensures RoomsMatchJoins(map c | c in rooms :: rooms[c] - {s}, joined - {s})
  {
    var rooms' := map c | c in rooms :: rooms[c] - {s};
    forall c' ensures Members(rooms', c') == Members(rooms, c') - {s} {
    }
  }

  class RelayServer {
    /** `userSockets`: identity to the socket that last announced it. */
    var userSockets: map<UserId, SocketId>
    /** `conversationRooms`: socket to the conversations it joined, in join order, repeats kept. */
    var conversationRooms: map<SocketId, seq<ConversationId>>
    /** `socket.userId` of every connected socket that has announced an identity. */
    var socketUser: map<SocketId, UserId>
    /** The sockets currently connected (socket.io's namespace). */
    var connected: set<SocketId>
    /** socket.io's room table: the sockets that joined each conversation room. */
    var rooms: map<ConversationId, set<SocketId>>

    /** The sockets in room `c`. */
    function Room(c: ConversationId): set<SocketId>
      reads this`rooms
    {
      Members(rooms, c)
    }

    /**
     * Only connected sockets carry bookkeeping, and a socket is in a room exactly when
     * that conversation is in its `conversationRooms` list.
     */
    ghost predicate Valid()
      reads this
    {
      && socketUser.Keys <= connected
      && conversationRooms.Keys <= connected
      && RoomsMatchJoins(rooms, conversationRooms)
    }

    constructor ()
      ensures Valid()
      ensures userSockets == map[] && conversationRooms == map[] && socketUser == map[]
      ensures connected == {} && rooms == map[]
    {
      userSockets := map[];
      conversationRooms := map[];
      socketUser := map[];
      connected := {};
      rooms := map[];
    }

    /** `io.on('connection')`: a new socket with an id socket.io has not handed out before. */
    method Connect(s: SocketId)
      requires Valid() && s !in connected
      modifies this
      ensures Valid()
      ensures connected == old(connected) + {s}
      ensures userSockets == old(userSockets) && conversationRooms == old(conversationRooms)
      ensures socketUser == old(socketUser) && rooms == old(rooms)
    {
      connected := connected + {s};
    }

    /**
     * `user:online`: the identity now maps to this socket (replacing any earlier socket),
     * the socket records the identity, and every other socket hears one online notice.
     */
    method UserOnline(s: SocketId, u: UserId) returns (out: seq<Emission>)
      requires Valid() && s in connected
      modifies this
      ensures Valid()
      ensures userSockets == old(userSockets)[u := s]
      ensures socketUser == old(socketUser)[s := u]
      ensures connected == old(connected) && conversationRooms == old(conversationRooms)
      ensures rooms == old(rooms)
      ensures out == [Emission(connected - {s}, UserStatus(u, true))]
    {
      userSockets := userSockets[u := s];
      socketUser := socketUser[s := u];
      out := [Emission(connected - {s}, UserStatus(u, true))];
    }

    /**
     * `conversation:join`: the socket enters the room, and `c` is appended to its list,
     * which is created empty on the first join; a repeated join appends `c` again.
     */
    method Join(s: SocketId, c: ConversationId) returns (out: seq<Emission>)
      requires Valid() && s in connected
      modifies this
      ensures Valid()
      ensures rooms == old(rooms)[c := old(Room(c)) + {s}]
      ensures conversationRooms ==
        old(conversationRooms)[s := (if s in old(conversationRooms) then old(conversationRooms)[s] else []) + [c]]
      ensures userSockets == old(userSockets) && socketUser == old(socketUser)
      ensures connected == old(connected)
      ensures out == []
    {
      JoinKeepsRoomsMatched(rooms, conversationRooms, s, c);
      ghost var joined := Joined(conversationRooms, s, c);
      rooms := rooms[c := Room(c) + {s}];
      if s !in conversationRooms {
        conversationRooms := conversationRooms[s := []];
      }
      conversationRooms := conversationRooms[s := conversationRooms[s] + [c]];
      assert conversationRooms == joined;
      out := [];
    }

    /**
     * `message:send`: the message goes, unchanged, to the room's other sockets, and the
     * sender alone gets its confirmation with the message's own id. Nothing is stored and
     * no personal notification is sent.
     */
    method Send(s: SocketId, c: ConversationId, message: Message, senderId: UserId, tempId: string)
      returns (out: seq<Emission>)
      requires Valid() && s in connected
      ensures |out| == 2
      ensures out[0] == Emission(Room(c) - {s}, MessageNew(c, message, senderId))
      ensures out[1] == Emission({s}, MessageSent(tempId, message.id, Sent))
    {
      out := [Emission(Room(c) - {s}, MessageNew(c, message, senderId)),
              Emission({s}, MessageSent(tempId, message.id, Sent))];
    }

    /** `message:delivered`: the report is forwarded to the room's other sockets as is. */
    method Delivered(s: SocketId, c: ConversationId, ids: seq<MessageId>, u: UserId, now: Time)
      returns (out: seq<Emission>)
      requires Valid() && s in connected
      ensures out == [Emission(Room(c) - {s}, StatusDelivered(ids, u, now))]
    {
      out := [Emission(Room(c) - {s}, StatusDelivered(ids, u, now))];
    }

    /** `message:seen`: the report is forwarded to the room's other sockets as is. */
    method SeenReport(s: SocketId, c: ConversationId, ids: seq<MessageId>, u: UserId, now: Time)
      returns (out: seq<Emission>)
      requires Valid() && s in connected
      ensures out == [Emission(Room(c) - {s}, StatusSeen(ids, u, now))]
    {
      out := [Emission(Room(c) - {s}, StatusSeen(ids, u, now))];
    }

    /** `typing:start` / `typing:stop`: a typing notice for the room's other sockets; a stop notice carries no name. */
    method Typing(s: SocketId, c: ConversationId, u: UserId, userName: string, start: bool)
      returns (out: seq<Emission>)
      requires Valid() && s in connected
      ensures out == [Emission(Room(c) - {s}, TypingUser(c, u, if start then Some(userName) else None, start))]
    {
      if start {
        out := [Emission(Room(c) - {s}, TypingUser(c, u, Some(userName), true))];
      } else {
        out := [Emission(Room(c) - {s}, TypingUser(c, u, None, false))];
      }
    }

    /**
     * `disconnect`: a socket whose `userId` is set (a non-empty string) removes that
     * identity's mapping, whichever socket it points at now, and every other socket hears
     * one offline notice; the socket's join list is dropped and socket.io takes the socket
     * out of every room.
     */
    method Disconnect(s: SocketId) returns (out: seq<Emission>)
      requires Valid() && s in connected
      modifies this
      ensures Valid()
      ensures connected == old(connected) - {s}
      ensures s !in conversationRooms && s !in socketUser
      ensures conversationRooms == old(conversationRooms) - {s}
      ensures socketUser == old(socketUser) - {s}
      ensures forall c :: Room(c) == old(Room(c)) - {s}
      ensures s in old(socketUser) && old(socketUser)[s] != "" ==>
        && userSockets == old(userSockets) - {old(socketUser)[s]}
        && out == [Emission(old(connected) - {s}, UserStatus(old(socketUser)[s], false))]
      ensures !(s in old(socketUser) && old(socketUser)[s] != "") ==>
        userSockets == old(userSockets) && out == []
    {
      LeaveKeepsRoomsMatched(rooms, conversationRooms, s);
      out := [];
      if s in socketUser && socketUser[s] != "" {
        var u := socketUser[s];
        userSockets := userSockets - {u};
        out := [Emission(connected - {s}, UserStatus(u, false))];
      }
      conversationRooms := conversationRooms - {s};
      socketUser := socketUser - {s};
      connected := connected - {s};
      rooms := map c | c in rooms :: rooms[c] - {s};
    }

    /** `error`: logged only. */
    method Error(s: SocketId) returns (out: seq<Emission>)
      requires Valid() && s in connected
      ensures out == []
    {
      out := [];
    }

    /** Routes one client event to its handler. */
    method Handle(s: SocketId, ev: ClientEvent, now: Time) returns (out: seq<Emission>)
      requires Valid() && s in connected
      modifies this
      ensures Valid() && connected == old(connected)
      ensures !ev.UserOnline? && !ev.ConversationJoin? ==> unchanged(this)
      ensures forall e :: e in out ==>
        (e.to <= connected - {s} || (ev.MessageSend? && e == Emission({s}, MessageSent(ev.tempId, ev.message.id, Sent))))
    {
      match ev
      case UserOnline(u) => out := UserOnline(s, u);
      case ConversationJoin(c) => out := Join(s, c);
      case MessageSend(c, m, sender, tempId) => out := Send(s, c, m, sender, tempId);
      case MessageDelivered(c, ids, u) => out := Delivered(s, c, ids, u, now);
      case MessageSeen(c, ids, u) => out := SeenReport(s, c, ids, u, now);
      case TypingStart(c, u, name) => out := Typing(s, c, u, name, true);
      case TypingStop(c, u) => out := Typing(s, c, u, "", false);
    }
  }

  /**
   * A later `user:online` for the same identity from another socket takes the mapping
   * over: the relay keeps one socket per identity, the most recent one.
   */
  method LastAnnouncerWins(r: RelayServer, s1: SocketId, s2: SocketId, u: UserId)
    requires r.Valid() && s1 in r.connected && s2 in r.connected
    modifies r
    ensures r.Valid() && u in r.userSockets && r.userSockets[u] == s2
    ensures s1 in r.socketUser && s2 in r.socketUser && r.socketUser[s1] == u && r.socketUser[s2] == u
  {
    var _ := r.UserOnline(s1, u);
    var _ := r.UserOnline(s2, u);
  }

  /**
   * Closing an older socket of an identity removes the identity's mapping even though a
   * newer socket took it over and is still connected, and announces the identity offline.
   */
  method StaleDisconnect(r: RelayServer, s1: SocketId, s2: SocketId, u: UserId)
    requires r.Valid() && s1 in r.connected && s2 in r.connected && s1 != s2 && u != ""
    modifies r
    ensures r.Valid() && s2 in r.connected && s2 in r.socketUser && r.socketUser[s2] == u
    ensures u !in r.userSockets
  {
    var _ := r.UserOnline(s1, u);
    var _ := r.UserOnline(s2, u);
    var out := r.Disconnect(s1);
    assert out == [Emission(r.connected, UserStatus(u, false))];
  }

  /** Joining twice lists the conversation twice. */
  method DoubleJoin(r: RelayServer, s: SocketId, c: ConversationId)
    requires r.Valid() && s in r.connected && s !in r.conversationRooms
    modifies r
    ensures r.Valid() && s in r.conversationRooms && r.conversationRooms[s] == [c, c]
    ensures r.Room(c) == old(r.Room(c)) + {s}
  {
    var _ := r.Join(s, c);
    var _ := r.Join(s, c);
  }
}
