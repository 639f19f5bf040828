/** Real-time chat: `ChatConnectionManager` (a map from room id to the sockets subscribed to that
    room) and `websocket_chat_endpoint`, which admits participants only and, for every incoming
    event, records the message and then broadcasts it to the room. Socket actions are appended to
    the manager's `outbox`; the message table is a `ChatStore`. */
module Chat {
  import opened Common
  import opened Models

  /** A stored `ChatMessage` row. `kind` and `content` are whatever the client sent under `type`
      and `content` (`content` is null when absent). */
  datatype ChatMessage = ChatMessage(id: nat, roomId: int, userId: int, kind: Json, content: Json)

  /** The payload broadcast for a stored message (its timestamp is not modelled). */
  datatype ChatOut = ChatOut(id: nat, user: string, kind: Json, content: Json)

  /** How the receive loop stops: the client disconnects, or sends a frame that is not JSON. */
  datatype Ending = PeerDisconnected | MalformedFrame

  /** `data.get('type', 'text')`. */
  function KindOf(event: Json): (r: Json)
    ensures event.JObj? && "type" in event.fields ==> r == event.fields["type"]
    ensures event.JObj? && "type" !in event.fields ==> r == JStr("text")
  {
    if event.JObj? then FieldOr(event.fields, "type", JStr("text")) else JNull
  }

  /** `data.get('content')`. */
  function ContentOf(event: Json): (r: Json)
    ensures event.JObj? && "content" in event.fields ==> r == event.fields["content"]
    ensures event.JObj? && "content" !in event.fields ==> r == JNull
  {
    if event.JObj? then FieldOr(event.fields, "content", JNull) else JNull
  }

  /** What the room hears about a stored message. */
  function Outgoing(username: string, m: ChatMessage): ChatOut
  {
    ChatOut(m.id, username, m.kind, m.content)
  }

  /** The rows stored for a run of events by one author in one room: the i-th event becomes the
      row with id `firstId + i`, carrying that event's type and content. */
  function Stored(roomId: int, userId: int, events: seq<Json>, firstId: nat): seq<ChatMessage>
  {
    seq(|events|, i requires 0 <= i < |events| => ChatMessage(firstId + i, roomId, userId, KindOf(events[i]), ContentOf(events[i])))
  }

  /** The broadcasts for a run of stored messages: each one to every socket of the room, in order. */
  function Broadcasts(targets: seq<SocketId>, username: string, msgs: seq<ChatMessage>): seq<Delivery<ChatOut>>
  {
    if msgs == [] then []
    else Broadcasts(targets, username, msgs[..|msgs| - 1]) + Fanout(targets, Outgoing(username, msgs[|msgs| - 1]))
  }

  /** One more event adds one row, with the next id. */
  lemma StoredStep(roomId: int, userId: int, events: seq<Json>, firstId: nat, i: nat)
    requires i < |events|
    ensures Stored(roomId, userId, events[..i + 1], firstId) ==
            Stored(roomId, userId, events[..i], firstId) +
              [ChatMessage(firstId + i, roomId, userId, KindOf(events[i]), ContentOf(events[i]))]
  {
  }

  /** One more stored message adds its fan-out to the room at the end. */
  lemma BroadcastsStep(targets: seq<SocketId>, username: string, msgs: seq<ChatMessage>, m: ChatMessage)
    ensures Broadcasts(targets, username, msgs + [m]) ==
            Broadcasts(targets, username, msgs) + Fanout(targets, Outgoing(username, m))
  {
    assert (msgs + [m])[..|msgs|] == msgs;
  }

  /** Nothing is broadcast that was not stored first: every delivery goes to a room member and
      carries a stored row, with the id the database gave it. */
  lemma {:induction false} BroadcastsCarryStored(targets: seq<SocketId>, username: string, msgs: seq<ChatMessage>, j: nat)
    requires j < |Broadcasts(targets, username, msgs)|
    ensures var d := Broadcasts(targets, username, msgs)[j];
            d.Sent? && d.to in targets && exists m :: m in msgs && d.msg == Outgoing(username, m)
  {
    var p := msgs[..|msgs| - 1];
    var last := msgs[|msgs| - 1];
    var prefix := Broadcasts(targets, username, p);
    if j < |prefix| {
      BroadcastsCarryStored(targets, username, p, j);
      var m :| m in p && prefix[j].msg == Outgoing(username, m);
      assert m in msgs;
    } else {
      var i := j - |prefix|;
      assert Broadcasts(targets, username, msgs)[j] == Fanout(targets, Outgoing(username, last))[i];
      FanoutAt(targets, Outgoing(username, last), i);
      assert last in msgs;
    }
  }

  /** Every stored message is sent once to every socket of the room. */
  lemma {:induction false} BroadcastsLength(targets: seq<SocketId>, username: string, msgs: seq<ChatMessage>)
    ensures |Broadcasts(targets, username, msgs)| == |msgs| * |targets|
  {
    if msgs != [] {
      var p := msgs[..|msgs| - 1];
      BroadcastsLength(targets, username, p);
      assert |Broadcasts(targets, username, msgs)| ==
             |Broadcasts(targets, username, p)| + |Fanout(targets, Outgoing(username, msgs[|msgs| - 1]))|;
      assert |msgs| * |targets| == |p| * |targets| + |targets|;
    }
  }

  /** Conversely, every stored message reaches every member: message `k` goes to socket `i` at
      position `k * |targets| + i`, so messages keep their order. */
  lemma {:induction false} BroadcastsReachEveryMember(targets: seq<SocketId>, username: string, msgs: seq<ChatMessage>,
                                                      k: nat, i: nat)
    requires k < |msgs| && i < |targets|
    ensures k * |targets| + i < |Broadcasts(targets, username, msgs)|
    ensures Broadcasts(targets, username, msgs)[k * |targets| + i] == Sent(targets[i], Outgoing(username, msgs[k]))
  {
    var p := msgs[..|msgs| - 1];
    var prefix := Broadcasts(targets, username, p);
    BroadcastsLength(targets, username, msgs);
    BroadcastsLength(targets, username, p);
    if k < |p| {
      BroadcastsReachEveryMember(targets, username, p, k, i);
      assert p[k] == msgs[k];
    } else {
      assert |prefix| == k * |targets|;
      FanoutAt(targets, Outgoing(username, msgs[k]), i);
    }
  }

  /** Length of the longest run of JSON objects at the head of `events`: the events the loop
      handles before `data.get` fails on a non-object. */
  function ObjectPrefix(events: seq<Json>): (n: nat)
    ensures n <= |events|
    ensures forall j :: 0 <= j < n ==> events[j].JObj?
    ensures n < |events| ==> !events[n].JObj?
  {
    if events == [] || !events[0].JObj? then 0 else 1 + ObjectPrefix(events[1..])
  }

  /** The list of sockets for a room, empty when the room has none. */
  function Members(rooms: map<int, seq<SocketId>>, roomId: int): seq<SocketId>
  {
    if roomId in rooms then rooms[roomId] else []
  }

  class ChatConnectionManager {
    var rooms: map<int, seq<SocketId>>
    var outbox: seq<Delivery<ChatOut>>

    constructor ()
      ensures rooms == map[] && outbox == []
    {
      rooms := map[];
      outbox := [];
    }

    /** `connect`: accept, create an empty list for an unseen room, append; other rooms untouched. */
    method Connect(roomId: int, ws: SocketId)
      modifies this
      ensures rooms == old(rooms)[roomId := Members(old(rooms), roomId) + [ws]]
      ensures outbox == old(outbox) + [Accepted(ws)]
    {
      outbox := outbox + [Accepted(ws)];
      if roomId !in rooms {
        rooms := rooms[roomId := []];
      }
      rooms := rooms[roomId := rooms[roomId] + [ws]];
    }

    /** `disconnect`: nothing for an unknown room; otherwise `list.remove`, which raises when the
        socket is absent. The room key stays even when its list becomes empty. */
    method Disconnect(roomId: int, ws: SocketId) returns (r: Result<(), Error>)
      modifies this
      ensures roomId !in old(rooms) ==> r.Success? && rooms == old(rooms)
      ensures roomId in old(rooms) && ws in old(rooms)[roomId] ==>
                r.Success? && rooms == old(rooms)[roomId := RemoveFirst(old(rooms)[roomId], ws)]
      ensures roomId in old(rooms) && ws !in old(rooms)[roomId] ==>
                r == Failure(Uncaught("ValueError")) && rooms == old(rooms)
      ensures outbox == old(outbox)
    {
      if roomId !in rooms {
        return Success(());
      }
      if ws !in rooms[roomId] {
        return Failure(Uncaught("ValueError"));
      }
      rooms := rooms[roomId := RemoveFirst(rooms[roomId], ws)];
      r := Success(());
    }

    /** `broadcast_to_room`: one send per socket of that room, in list order; nothing for an
        unknown room, and no other room is addressed. */
    method BroadcastToRoom(roomId: int, msg: ChatOut)
      modifies this
      ensures outbox == old(outbox) + Fanout(Members(rooms, roomId), msg)
      ensures rooms == old(rooms)
    {
      if roomId !in rooms {
        assert Fanout(Members(rooms, roomId), msg) == [];
        return;
      }
      var targets := rooms[roomId];
      for i := 0 to |targets|
        invariant rooms == old(rooms)
        invariant outbox == old(outbox) + Fanout(targets[..i], msg)
      {
        assert targets[..i + 1][..i] == targets[..i];
        outbox := outbox + [Sent(targets[i], msg)];
      }
      assert targets[..|targets|] == targets;
    }
  }

  /** The `ChatMessage` table: rows in insertion order, ids handed out in increasing order. */
  class ChatStore {
    var messages: seq<ChatMessage>
    var nextId: nat

    /** Every stored id is below the next one to be handed out, and ids grow in table order, so
        no two rows share one. */
    ghost predicate Valid()
      reads this
    {
      && (forall i | 0 <= i < |messages| :: messages[i].id < nextId)
      && (forall i, j | 0 <= i < j < |messages| :: messages[i].id < messages[j].id)
    }

    constructor ()
      ensures Valid()
      ensures messages == [] && nextId == 1
    {
      messages := [];
      nextId := 1;
    }

    /** `db.add` + `commit` + `refresh`: the row is stored and given a fresh id. */
    method Add(roomId: int, userId: int, kind: Json, content: Json) returns (m: ChatMessage)
      requires Valid()
      modifies this
      ensures Valid()
      ensures forall x | x in old(messages) :: x.id < m.id
      ensures m == ChatMessage(old(nextId), roomId, userId, kind, content)
      ensures messages == old(messages) + [m] && nextId == old(nextId) + 1
    {
      m := ChatMessage(nextId, roomId, userId, kind, content);
      messages := messages + [m];
      nextId := nextId + 1;
    }
  }

  /** One turn of the receive loop: store the event, then broadcast the stored row to the room. */
  method HandleEvent(mgr: ChatConnectionManager, store: ChatStore, roomId: int, user: User, data: Json)
    returns (m: ChatMessage)
    requires store.Valid()
    modifies mgr, store
    ensures store.Valid()
    ensures m == ChatMessage(old(store.nextId), roomId, user.id, KindOf(data), ContentOf(data))
    ensures store.messages == old(store.messages) + [m] && store.nextId == old(store.nextId) + 1
    ensures mgr.outbox == old(mgr.outbox) + Fanout(Members(old(mgr.rooms), roomId), Outgoing(user.username, m))
    ensures mgr.rooms == old(mgr.rooms)
  {
    m := store.Add(roomId, user.id, KindOf(data), ContentOf(data));
    mgr.BroadcastToRoom(roomId, Outgoing(user.username, m));
  }

  /** The receive loop: each object event is stored, then broadcast to the room; the loop stops
      at the first event that is not an object. Returns how many events were handled. */
  method SaveAndBroadcast(mgr: ChatConnectionManager, store: ChatStore, roomId: int, user: User, events: seq<Json>)
    returns (handled: nat)
    requires store.Valid()
    modifies mgr, store
    ensures store.Valid()
    ensures handled == ObjectPrefix(events)
    ensures store.messages == old(store.messages) + Stored(roomId, user.id, events[..handled], old(store.nextId))
    ensures store.nextId == old(store.nextId) + handled
    ensures mgr.outbox == old(mgr.outbox) +
              Broadcasts(Members(old(mgr.rooms), roomId), user.username, Stored(roomId, user.id, events[..handled], old(store.nextId)))
    ensures mgr.rooms == old(mgr.rooms)
  {
    var targets := Members(mgr.rooms, roomId);
    ghost var msgs: seq<ChatMessage> := [];
    ghost var first := store.nextId;
    ghost var stored0 := store.messages;
    ghost var out0 := mgr.outbox;
    handled := 0;
    while handled < |events| && events[handled].JObj?
      invariant handled <= |events|
      invariant forall j :: 0 <= j < handled ==> events[j].JObj?
      invariant msgs == Stored(roomId, user.id, events[..handled], first)
      invariant store.nextId == first + handled
      invariant store.Valid()
      invariant store.messages == stored0 + msgs
      invariant mgr.outbox == out0 + Broadcasts(targets, user.username, msgs)
      invariant mgr.rooms == old(mgr.rooms)
      decreases |events| - handled
    {
      var m := HandleEvent(mgr, store, roomId, user, events[handled]);
      StoredStep(roomId, user.id, events, first, handled);
      BroadcastsStep(targets, user.username, msgs, m);
      msgs := msgs + [m];
      handled := handled + 1;
    }
    ObjectPrefixUnique(events, handled);
  }

  /** The count of leading objects is determined by where the first non-object sits. */
  lemma {:induction false} ObjectPrefixUnique(events: seq<Json>, n: nat)
    requires n <= |events|
    requires forall j :: 0 <= j < n ==> events[j].JObj?
    requires n < |events| ==> !events[n].JObj?
    ensures ObjectPrefix(events) == n
  {
    if n > 0 {
      ObjectPrefixUnique(events[1..], n - 1);
    }
  }

  /** How the handler ends once the receive loop stops: a non-object event (`crashed`) or an
      undecodable frame escapes and leaves the socket subscribed; a disconnect unsubscribes it. */
  method FinishSession(mgr: ChatConnectionManager, roomId: int, ws: SocketId, crashed: bool, ending: Ending)
    returns (r: Result<(), Error>)
    requires roomId in mgr.rooms && ws in mgr.rooms[roomId]
    modifies mgr
    ensures crashed ==> r == Failure(Uncaught("AttributeError")) && mgr.rooms == old(mgr.rooms)
    ensures !crashed && ending == MalformedFrame ==> r == Failure(Uncaught("JSONDecodeError")) && mgr.rooms == old(mgr.rooms)
    ensures !crashed && ending == PeerDisconnected ==>
              r.Success? && mgr.rooms == old(mgr.rooms)[roomId := RemoveFirst(old(mgr.rooms)[roomId], ws)]
    ensures mgr.outbox == old(mgr.outbox)
  {
    if crashed {
      return Failure(Uncaught("AttributeError"));
    }
    if ending == MalformedFrame {
      return Failure(Uncaught("JSONDecodeError"));
    }
    r := mgr.Disconnect(roomId, ws);
  }

  /** The endpoint once the user is known to be a participant: subscribe, run the receive loop,
      then end as `FinishSession` says. */
  method ServeParticipant(mgr: ChatConnectionManager, store: ChatStore, ws: SocketId, roomId: int,
                          user: User, inbound: seq<Json>, ending: Ending)
    returns (r: Result<(), Error>)
    requires store.Valid()
    modifies mgr, store
    ensures store.Valid()
    ensures store.nextId == old(store.nextId) + ObjectPrefix(inbound)
    ensures var handled := Stored(roomId, user.id, inbound[..ObjectPrefix(inbound)], old(store.nextId));
            && store.messages == old(store.messages) + handled
            && mgr.outbox == old(mgr.outbox) + [Accepted(ws)] + Broadcasts(Members(old(mgr.rooms), roomId) + [ws], user.username, handled)
    ensures ObjectPrefix(inbound) < |inbound| ==>
              r == Failure(Uncaught("AttributeError")) &&
              mgr.rooms == old(mgr.rooms)[roomId := Members(old(mgr.rooms), roomId) + [ws]]
    ensures ObjectPrefix(inbound) == |inbound| && ending == MalformedFrame ==>
              r == Failure(Uncaught("JSONDecodeError")) &&
              mgr.rooms == old(mgr.rooms)[roomId := Members(old(mgr.rooms), roomId) + [ws]]
    ensures ObjectPrefix(inbound) == |inbound| && ending == PeerDisconnected ==>
              r.Success? &&
              mgr.rooms == old(mgr.rooms)[roomId := RemoveFirst(Members(old(mgr.rooms), roomId) + [ws], ws)]
  {
    ghost var rooms0 := mgr.rooms;
    ghost var room := Members(rooms0, roomId) + [ws];
    mgr.Connect(roomId, ws);
    ghost var joined := mgr.rooms;
    assert joined == rooms0[roomId := room];
    assert Members(joined, roomId) == room && joined[roomId] == room;
    var handled := SaveAndBroadcast(mgr, store, roomId, user, inbound);
    assert mgr.rooms == joined && handled == ObjectPrefix(inbound);
    r := FinishSession(mgr, roomId, ws, handled < |inbound|, ending);
  }

  /** `websocket_chat_endpoint`. `user` is what the token resolves to, `participants` the
      (room id, user id) rows of `ChatParticipant`, `inbound` the JSON documents received. */
  method ChatEndpoint(mgr: ChatConnectionManager, store: ChatStore, ws: SocketId, roomId: int,
                      user: Option<User>, participants: set<(int, int)>, inbound: seq<Json>, ending: Ending)
    returns (r: Result<(), Error>)
    requires store.Valid()
    modifies mgr, store
    ensures store.Valid()
    // message ids stay fresh: the counter moves by the number of events stored
    ensures store.nextId == old(store.nextId) + (if user.Some? && (roomId, user.value.id) in participants then ObjectPrefix(inbound) else 0)
    // refused sockets are closed with 1008, never join a room, and nothing is stored
    ensures user.None? ==>
              r.Success? && mgr.outbox == old(mgr.outbox) + [Closed(ws, PolicyViolation, "Invalid token")] &&
              mgr.rooms == old(mgr.rooms) && store.messages == old(store.messages)
    ensures user.Some? && (roomId, user.value.id) !in participants ==>
              r.Success? && mgr.outbox == old(mgr.outbox) + [Closed(ws, PolicyViolation, "Not a member of this room")] &&
              mgr.rooms == old(mgr.rooms) && store.messages == old(store.messages)
    // an admitted socket joins the room, then each event is stored and broadcast to the room
    ensures user.Some? && (roomId, user.value.id) in participants ==>
              var handled := Stored(roomId, user.value.id, inbound[..ObjectPrefix(inbound)], old(store.nextId));
              && store.messages == old(store.messages) + handled
              && mgr.outbox == old(mgr.outbox) + [Accepted(ws)] + Broadcasts(Members(old(mgr.rooms), roomId) + [ws], user.value.username, handled)
    // a non-object event or an undecodable frame escapes the handler and the socket stays subscribed
    ensures user.Some? && (roomId, user.value.id) in participants && (ObjectPrefix(inbound) < |inbound| || ending == MalformedFrame) ==>
              r.Failure? && mgr.rooms == old(mgr.rooms)[roomId := Members(old(mgr.rooms), roomId) + [ws]]
    // a disconnect unsubscribes the socket again
    ensures user.Some? && (roomId, user.value.id) in participants && ObjectPrefix(inbound) == |inbound| &&
            ending == PeerDisconnected ==>
              r.Success? &&
              mgr.rooms == old(mgr.rooms)[roomId := RemoveFirst(Members(old(mgr.rooms), roomId) + [ws], ws)]
    ensures user.Some? && (roomId, user.value.id) in participants && ObjectPrefix(inbound) == |inbound| &&
            ending == PeerDisconnected && ws !in Members(old(mgr.rooms), roomId) ==>
              mgr.rooms == old(mgr.rooms)[roomId := Members(old(mgr.rooms), roomId)]
  {
    if user.None? {
      mgr.outbox := mgr.outbox + [Closed(ws, PolicyViolation, "Invalid token")];
      return Success(());
    }
    if (roomId, user.value.id) !in participants {
      mgr.outbox := mgr.outbox + [Closed(ws, PolicyViolation, "Not a member of this room")];
      return Success(());
    }
    ghost var before := Members(mgr.rooms, roomId);
    r := ServeParticipant(mgr, store, ws, roomId, user.value, inbound, ending);
    if ws !in before {
      RemoveFirstOfAppended(before, ws);
    }
  }
}
