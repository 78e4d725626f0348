/**
 * What becomes of a client's request, from the room list and the request alone: whether a join succeeds, who is
 * then where, and exactly what the client and everybody else is sent.
 */
module Requests {
  import opened Common
  import opened Coordinator
  import opened HubSafety
  import opened Delivery

  // ----- Offers of short post lists -----

  lemma OffersOne(a: Post, q: PeerId)
    ensures Offers([a], q) == if q in a.to then [a.env] else []
  {
    assert [a][..0] == [];
  }

  lemma OffersTwo(a: Post, b: Post, q: PeerId)
    ensures Offers([a, b], q) == (if q in a.to then [a.env] else []) + (if q in b.to then [b.env] else [])
  {
    hide Offers;
    assert [a, b] == [a] + [b];
    OffersConcat([a], [b], q);
    OffersOne(a, q);
    OffersOne(b, q);
  }

  lemma OffersThree(a: Post, b: Post, c: Post, q: PeerId)
    ensures Offers([a, b, c], q) == (if q in a.to then [a.env] else []) + (if q in b.to then [b.env] else [])
                                    + (if q in c.to then [c.env] else [])
  {
    hide Offers;
    assert [a, b, c] == [a, b] + [c];
    OffersConcat([a, b], [c], q);
    OffersTwo(a, b, q);
    OffersOne(c, q);
  }

  /** A leaver hears nothing of its own departure. */
  lemma NoOwnFarewell(h: State, p: PeerId)
    requires p in h.clients
    ensures Offers(Farewell(h, p), p) == []
  {
    if Farewell(h, p) != [] {
      assert Farewell(h, p) == [Farewell(h, p)[0]];
      OffersOne(Farewell(h, p)[0], p);
    }
  }

  // ----- Joining -----

  /** The room is on the list and has a place left. */
  predicate HasPlace(h: State, roomId: RoomId) {
    roomId in h.rooms && |h.rooms[roomId].peers| < 5
  }

  lemma PlaceOrFault(h: State, roomId: RoomId)
    ensures JoinFault(h, roomId) ==
              if HasPlace(h, roomId) then NoFault else if roomId in h.rooms then RoomIsFull else RoomNotFound
  {
  }

  lemma Granted(h: State, p: PeerId, env: Envelope, newId: RoomId)
    requires Sound(h) && Registered(h) && p in h.clients && env.kind == JoinRoom && HasPlace(h, env.roomId)
    ensures var e := Message(p, env, newId);
            && p in MovedBy(h, e).clients && MovedBy(h, e).clients[p].roomId == env.roomId
            && MovedBy(h, e).clients[p].nick == (if env.nick != "" then env.nick else h.clients[p].nick)
            && Offered(h, e, p) == [Welcome(h, p, env.roomId), RoomList(MovedBy(h, e).rooms)]
            && JoinTarget(h, p, env.roomId).peers == h.rooms[env.roomId].peers + {p}
  {
    var e := Message(p, env, newId);
    PlaceOrFault(h, env.roomId);
    hide RoomsWithout, Farewell, RoomList, JoinTarget, Offers, Sound, HasPlace;
    LeavingRoom(h, p, env.roomId);
    TargetHolds(h, p, env.roomId);
    var room := JoinTarget(h, p, env.roomId);
    var arrived := Post(room.peers - {p}, Bare(PeerJoined).(roomId := env.roomId, peerId := p,
                                                              nick := Renamed(h.clients[p].nick, env), payload := env.payload));
    var welcome := Post({p}, Welcome(h, p, env.roomId));
    var rooms := Post(MovedBy(h, e).clients.Keys, RoomList(MovedBy(h, e).rooms));
    assert PostsOf(h, e) == Farewell(h, p) + [welcome, arrived, rooms];
    OffersConcat(Farewell(h, p), [welcome, arrived, rooms], p);
    NoOwnFarewell(h, p);
    OffersThree(welcome, arrived, rooms, p);
  }

  lemma TargetHolds(h: State, p: PeerId, roomId: RoomId)
    requires Sound(h) && Registered(h) && p in h.clients && roomId in h.rooms
    ensures JoinTarget(h, p, roomId).peers == h.rooms[roomId].peers + {p}
  {
    hide RoomsWithout;
    LeavingRoom(h, p, roomId);
  }

  lemma Refused(h: State, p: PeerId, env: Envelope, newId: RoomId, q: PeerId)
    requires Sound(h) && Registered(h) && p in h.clients && env.kind == JoinRoom && !HasPlace(h, env.roomId)
    ensures var e := Message(p, env, newId);
            && MovedBy(h, e) == h
            && Offered(h, e, q) == (if q == p then [Bare(Error).(error := if env.roomId in h.rooms then RoomIsFull else RoomNotFound)]
                                    else [])
  {
    PlaceOrFault(h, env.roomId);
    hide Offers, Sound, Registered, HasPlace;
    var e := Message(p, env, newId);
    OffersOne(PostsOf(h, e)[0], q);
  }

  /**
   * Who gets in. A join is granted exactly when the room is listed with fewer than five peers: the client then names
   * it, is among its peers if the list still has it, and is sent the room and the new list. Otherwise nobody moves, and
   * the client is sent exactly one error, that the room is full when it is listed with five, and that there is none
   * when it is not.
   */
  lemma JoinExactly(h: State, p: PeerId, env: Envelope, newId: RoomId)
    requires Sound(h) && Registered(h) && p in h.clients && env.kind == JoinRoom
    ensures var e := Message(p, env, newId);
            var after := Step(h, e);
            var id := env.roomId;
            && p in after.clients
            && (id in h.rooms ==> |h.rooms[id].peers| <= 5)
            && if id in h.rooms && |h.rooms[id].peers| < 5 then
                 && after.clients[p].roomId == id
                 && after.clients[p].nick == (if env.nick != "" then env.nick else h.clients[p].nick)
                 && (id in after.rooms <==> h.rooms[id].peers != {p})
                 && (id in after.rooms ==> after.rooms[id].peers == h.rooms[id].peers + {p})
                 && Offered(h, e, p) == [Bare(JoinedRoom).(roomId := id, room := Offered(h, e, p)[0].room), RoomList(after.rooms)]
                 && Offered(h, e, p)[0].room.Some? && Offered(h, e, p)[0].room.value.peers == h.rooms[id].peers + {p}
               else
                 && after.rooms == h.rooms && after.clients[p].roomId == h.clients[p].roomId
                 && after.clients[p].nick == h.clients[p].nick
                 && Offered(h, e, p) == [Bare(Error).(error := if id in h.rooms && |h.rooms[id].peers| == 5 then RoomIsFull
                                                                else RoomNotFound)]
                 && forall q | q != p :: Offered(h, e, q) == []
  {
    var e := Message(p, env, newId);
    var id := env.roomId;
    if id in h.rooms {
      assert RoomSound(h, id);
    }
    hide PostsOf, MovedBy, Sound, RoomList, Offers, JoinTarget, Registered, RoomsWithout, Offered;
    DeliveryKeeps(MovedBy(h, e).clients, PostsOf(h, e));
    if HasPlace(h, id) {
      Granted(h, p, env, newId);
      JoinedRooms(h, p, env, newId);
    } else {
      forall q ensures Offered(h, e, q) == (if q == p then [Bare(Error).(error := if id in h.rooms then RoomIsFull else RoomNotFound)]
                                            else [])
      {
        Refused(h, p, env, newId, q);
      }
      Refused(h, p, env, newId, p);
    }
  }

  lemma JoinedRooms(h: State, p: PeerId, env: Envelope, newId: RoomId)
    requires Sound(h) && Registered(h) && p in h.clients && env.kind == JoinRoom && HasPlace(h, env.roomId)
    ensures var rooms := MovedBy(h, Message(p, env, newId)).rooms;
            && (env.roomId in rooms <==> h.rooms[env.roomId].peers != {p})
            && (env.roomId in rooms ==> rooms[env.roomId].peers == h.rooms[env.roomId].peers + {p})
  {
    PlaceOrFault(h, env.roomId);
    hide RoomsWithout, Sound, HasPlace;
    LeavingRoom(h, p, env.roomId);
  }

  // ----- The other requests -----

  /** What `q` is sent when one message goes to `p` alone. */
  function ToOne(p: PeerId, q: PeerId, env: Envelope): seq<Envelope> {
    if q == p then [env] else []
  }

  /** A room list shows each room once, under its own data, and no members. */
  lemma ListShows(rooms: map<RoomId, RoomRec>, s: Snapshot)
    ensures RoomList(rooms) == Bare(Rooms).(rooms := RoomList(rooms).rooms)
    ensures s in RoomList(rooms).rooms <==>
              && s.id in rooms && s.name == rooms[s.id].name && s.hostId == rooms[s.id].hostId
              && s.hostNick == rooms[s.id].hostNick && s.peerCount == |rooms[s.id].peers| && s.locked == rooms[s.id].locked
              && s.peers == {}
  {
    if s.id in rooms {
      assert SnapshotOf(s.id, rooms[s.id], false) in RoomList(rooms).rooms;
    }
  }

  /** Creating a room: the client is alone in it and its host, under the names it gave or the defaults, and is sent it. */
  lemma CreateExactly(h: State, p: PeerId, env: Envelope, newId: RoomId)
    requires Sound(h) && Registered(h) && Legal(h, Message(p, env, newId)) && env.kind == CreateRoom
    ensures var e := Message(p, env, newId);
            var after := Step(h, e);
            var name := if env.room.Some? && env.room.value.name != "" then env.room.value.name else "Squad room";
            var nick := if env.nick != "" then env.nick else h.clients[p].nick;
            var locked := env.room.Some? && env.room.value.locked;
            && p in after.clients && after.clients[p].roomId == newId && after.clients[p].nick == nick
            && newId in after.rooms && after.rooms[newId] == RoomRec(name, p, nick, locked, {p})
            && Offered(h, e, p) == [Bare(RoomCreated).(roomId := newId, room := Some(Snapshot(newId, name, p, nick, 1, locked, {p}))),
                                    RoomList(after.rooms)]
  {
    var e := Message(p, env, newId);
    hide RoomsWithout, Farewell, RoomList, Offers, Sound;
    DeliveryKeeps(MovedBy(h, e).clients, PostsOf(h, e));
    var created := Post({p}, Bare(RoomCreated).(roomId := newId, room := Some(SnapshotOf(newId, NewRoom(h, p, env), true))));
    var rooms := Post(MovedBy(h, e).clients.Keys, RoomList(MovedBy(h, e).rooms));
    assert PostsOf(h, e) == Farewell(h, p) + [created, rooms];
    OffersConcat(Farewell(h, p), [created, rooms], p);
    NoOwnFarewell(h, p);
    OffersTwo(created, rooms, p);
  }

  /** Leaving: the client names no room and is sent the new list. */
  lemma LeaveExactly(h: State, p: PeerId, env: Envelope, newId: RoomId)
    requires Sound(h) && Registered(h) && p in h.clients && env.kind == LeaveRoom
    ensures var e := Message(p, env, newId);
            p in Step(h, e).clients && Step(h, e).clients[p].roomId == "" && Offered(h, e, p) == [RoomList(Step(h, e).rooms)]
  {
    var e := Message(p, env, newId);
    hide RoomsWithout, Farewell, RoomList, Offers, Sound;
    DeliveryKeeps(MovedBy(h, e).clients, PostsOf(h, e));
    var rooms := Post(MovedBy(h, e).clients.Keys, RoomList(MovedBy(h, e).rooms));
    assert PostsOf(h, e) == Farewell(h, p) + [rooms];
    OffersConcat(Farewell(h, p), [rooms], p);
    NoOwnFarewell(h, p);
    OffersOne(rooms, p);
  }

  /** The requests that move nobody: a greeting is answered with the client's id and the list, the rest with one message. */
  lemma AnsweredExactly(h: State, p: PeerId, env: Envelope, newId: RoomId, q: PeerId)
    requires Registered(h) && Legal(h, Message(p, env, newId))
    requires env.kind != CreateRoom && env.kind != JoinRoom && env.kind != LeaveRoom && !IsRelayed(env.kind)
    ensures var e := Message(p, env, newId);
            && Step(h, e).rooms == h.rooms && p in Step(h, e).clients
            && Step(h, e).clients[p].nick == (if env.kind == Hello && env.nick != "" then env.nick else h.clients[p].nick)
            && Offered(h, e, q) ==
                 if env.kind == Hello then ToOne(p, q, Bare(Hello).(peerId := p)) + ToOne(p, q, RoomList(h.rooms))
                 else if env.kind == ListRooms then ToOne(p, q, RoomList(h.rooms))
                 else if env.kind == Heartbeat then ToOne(p, q, Bare(HeartbeatAck))
                 else ToOne(p, q, Bare(Error).(error := UnknownType))
  {
    var e := Message(p, env, newId);
    hide RoomList, Offers, Registered;
    var posts := PostsOf(h, e);
    DeliveryKeeps(MovedBy(h, e).clients, posts);
    if env.kind == Hello {
      OffersTwo(posts[0], posts[1], q);
    } else {
      assert posts == [posts[0]];
      OffersOne(posts[0], q);
    }
  }

  /** A new client is nameless, roomless, and has been sent nothing. */
  lemma ConnectExactly(h: State, p: PeerId)
    requires Registered(h) && Legal(h, Connect(p))
    ensures var after := Step(h, Connect(p));
            after == State(h.rooms, h.clients[p := ClientRec("Player", "", [], 0)])
  {
  }
}
