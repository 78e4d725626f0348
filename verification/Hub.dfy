/**
 * The coordinator's hub in its own form: objects for clients and rooms, two maps of pointers, and methods
 * that change them in place while broadcasting. Each method is proved to take the coordinator from its
 * abstract contents to the step that module Coordinator describes.
 *
 * JSON and the sockets are not part of this model; a call holds the hub's lock from start to end.
 */
module Hub {
  import opened Common
  import opened Coordinator
  import opened HubSafety

  class Client {
    const id: PeerId
    var nick: string
    var roomId: RoomId
    var send: seq<Envelope>
    var dropped: nat  // one for every "dropping message" line in the log

    constructor (id: PeerId)
      ensures this.id == id && View() == ClientRec(DEFAULT_NICK, "", [], 0)
    {
      this.id := id;
      nick := DEFAULT_NICK;
      roomId := "";
      send := [];
      dropped := 0;
    }

    ghost function View(): ClientRec
      reads this
    {
      ClientRec(nick, roomId, send, dropped)
    }
  }

  class Room {
    const id: RoomId
    const name: string
    const locked: bool
    var hostId: PeerId
    var hostNick: string
    var peers: map<PeerId, Client>

    constructor (id: RoomId, name: string, locked: bool, host: Client)
      ensures this.id == id && peers == map[host.id := host]
      ensures View() == RoomRec(name, host.id, host.nick, locked, {host.id})
    {
      this.id := id;
      this.name := name;
      this.locked := locked;
      hostId := host.id;
      hostNick := host.nick;
      peers := map[host.id := host];
    }

    ghost function View(): RoomRec
      reads this
    {
      RoomRec(name, hostId, hostNick, locked, peers.Keys)
    }

    function Snapshot(includePeers: bool): (s: Snapshot)
      reads this
      ensures s == SnapshotOf(id, View(), includePeers)
    {
      Coordinator.Snapshot(id, name, hostId, hostNick, |peers.Keys|, locked, if includePeers then peers.Keys else {})
    }
  }

  class Hub {
    var rooms: map<RoomId, Room>
    var clients: map<PeerId, Client>

    constructor ()
      ensures Valid() && Contents() == EMPTY
    {
      rooms := map[];
      clients := map[];
    }

    /** Keys are the objects' own ids, and rooms point at the registered clients. */
    ghost predicate Linked()
      reads this, rooms.Values
    {
      (forall p | p in clients :: clients[p].id == p) &&
      (forall r | r in rooms :: rooms[r].id == r && Points(rooms[r]))
    }

    ghost predicate Points(room: Room)
      reads this, room
    {
      forall p | p in room.peers :: p in clients && room.peers[p] == clients[p]
    }

    ghost function RoomsView(): (view: map<RoomId, RoomRec>)
      reads this, rooms.Values
      ensures view.Keys == rooms.Keys
    {
      map r | r in rooms :: rooms[r].View()
    }

    ghost function ClientsView(): (view: map<PeerId, ClientRec>)
      reads this, clients.Values
      ensures view.Keys == clients.Keys
    {
      map p | p in clients :: clients[p].View()
    }

    ghost function Contents(): State
      reads this, rooms.Values, clients.Values
    {
      State(RoomsView(), ClientsView())
    }

    ghost predicate Valid()
      reads this, rooms.Values, clients.Values
    {
      Linked() && Sound(Contents())
    }

    lemma ClientSeen(p: PeerId)
      requires p in clients
      ensures ClientsView()[p] == clients[p].View()
    {
    }

    lemma RoomSeen(id: RoomId)
      requires id in rooms
      ensures RoomsView()[id] == rooms[id].View()
    {
    }

    // ----- Queues -----

    method Enqueue(c: Client, env: Envelope)
      requires Linked() && c.id in clients && clients[c.id] == c
      modifies c
      ensures Linked()
      ensures RoomsView() == old(RoomsView())
      ensures ClientsView() == Delivered(old(ClientsView()), Post({c.id}, env))
    {
      hide RoomsView, ClientsView;
      ClientSeen(c.id);
      DeliveredAlone(ClientsView(), c.id, env);
      if |c.send| < QUEUE_LENGTH {
        c.send := c.send + [env];
      } else {
        c.dropped := c.dropped + 1;
      }
      ClientChanged(c);
    }

    method BroadcastLocked(env: Envelope, room: Room)
      requires Linked() && Points(room)
      modifies clients.Values
      ensures Linked()
      ensures ClientsView() == Delivered(old(ClientsView()), Post(Audience(room.peers.Keys, env), env))
      ensures RoomsView() == old(RoomsView())
    {
      hide Delivered, ClientsView, RoomsView, Audience;
      ghost var before := ClientsView();
      var peers := room.peers;
      var todo := peers.Keys;
      ghost var visited: set<PeerId> := {};
      AudienceNone(before, env);
      while todo != {}
        invariant visited !! todo && visited + todo == peers.Keys
        invariant Linked()
        invariant RoomsView() == old(RoomsView())
        invariant ClientsView() == Delivered(before, Post(Audience(visited, env), env))
        decreases |todo|
      {
        var peerId :| peerId in todo;
        todo := todo - {peerId};
        AudienceMore(before, visited, peerId, env);
        visited := visited + {peerId};
        assert peers[peerId] == clients[peerId];
        if peerId != env.peerId || env.kind == RoomClosed {
          Enqueue(peers[peerId], env);
        }
      }
      assert visited == peers.Keys;
    }

    method BroadcastRoomsLocked()
      requires Linked()
      modifies clients.Values
      ensures Linked()
      ensures RoomsView() == old(RoomsView())
      ensures ClientsView() == Delivered(old(ClientsView()), Post(clients.Keys, RoomList(old(RoomsView()))))
    {
      hide Delivered, ClientsView, RoomsView;
      ghost var before := ClientsView();
      var list := RoomSnapshotsLocked(false);
      var env := Bare(Rooms).(rooms := list);
      ListingAll(RoomsView());
      var todo := clients.Keys;
      DeliveredNone(before, env);
      assert clients.Keys - todo == {};
      while todo != {}
        invariant todo <= clients.Keys
        invariant Linked()
        invariant RoomsView() == old(RoomsView())
        invariant ClientsView() == Delivered(before, Post(clients.Keys - todo, env))
        decreases |todo|
      {
        var p :| p in todo;
        ghost var done := clients.Keys - todo;
        todo := todo - {p};
        Enqueue(clients[p], env);
        DeliveredMore(before, done, p, env);
        assert clients.Keys - todo == done + {p};
      }
      assert clients.Keys - todo == clients.Keys;
    }

    method RoomSnapshotsLocked(includePeers: bool) returns (list: set<Snapshot>)
      requires Linked()
      ensures list == Listing(RoomsView(), rooms.Keys, includePeers)
    {
      hide Listing, SnapshotOf;
      ghost var view := RoomsView();
      list := {};
      var todo := rooms.Keys;
      ListingNone(view, includePeers);
      assert rooms.Keys - todo == {};
      while todo != {}
        invariant todo <= rooms.Keys
        invariant list == Listing(view, rooms.Keys - todo, includePeers)
        decreases |todo|
      {
        var id :| id in todo;
        ListingMore(view, rooms.Keys - todo, id, includePeers);
        assert rooms.Keys - (todo - {id}) == (rooms.Keys - todo) + {id};
        todo := todo - {id};
        list := list + {rooms[id].Snapshot(includePeers)};
      }
      assert rooms.Keys - todo == rooms.Keys;
    }

    // ----- Single assignments, each with its effect on the contents -----

    /** When only one room object changed, only its entry in the contents did. */
    twostate lemma RoomChanged(room: Room)
      requires rooms == old(rooms) && clients == old(clients)
      requires forall r | r in rooms :: rooms[r].id == r
      requires forall r | r in rooms && rooms[r] != room :: unchanged(rooms[r])
      requires forall p | p in clients :: unchanged(clients[p])
      ensures RoomsView() == if room.id in rooms && rooms[room.id] == room
                             then old(RoomsView())[room.id := room.View()] else old(RoomsView())
      ensures ClientsView() == old(ClientsView())
    {
    }

    /** When only one client object changed, only its entry in the contents did. */
    twostate lemma ClientChanged(c: Client)
      requires rooms == old(rooms) && clients == old(clients)
      requires forall p | p in clients :: clients[p].id == p
      requires c.id in clients && clients[c.id] == c
      requires forall p | p in clients && clients[p] != c :: unchanged(clients[p])
      requires forall r | r in rooms :: unchanged(rooms[r])
      ensures RoomsView() == old(RoomsView())
      ensures ClientsView() == old(ClientsView())[c.id := c.View()]
    {
    }

    method SetClient(c: Client, nick: string, roomId: RoomId)
      requires Linked() && c.id in clients && clients[c.id] == c
      modifies c
      ensures Linked() && c.nick == nick && c.roomId == roomId
      ensures RoomsView() == old(RoomsView())
      ensures ClientsView() == old(ClientsView())[c.id := old(c.View()).(nick := nick, roomId := roomId)]
    {
      hide RoomsView, ClientsView;
      c.nick := nick;
      c.roomId := roomId;
      ClientChanged(c);
    }

    method DropPeer(room: Room, peerId: PeerId)
      requires Linked() && room.id in rooms && rooms[room.id] == room
      modifies room
      ensures Linked() && Points(room)
      ensures room.peers == old(room.peers) - {peerId} && room.View() == old(room.View()).(peers := old(room.View()).peers - {peerId})
      ensures RoomsView() == old(RoomsView())[room.id := room.View()]
      ensures ClientsView() == old(ClientsView())
    {
      hide RoomsView, ClientsView;
      room.peers := room.peers - {peerId};
      RoomChanged(room);
    }

    method DeleteRoom(room: Room)
      requires Linked() && room.id in rooms && rooms[room.id] == room
      modifies this`rooms
      ensures Linked() && rooms == old(rooms) - {room.id}
      ensures RoomsView() == Without(old(RoomsView()), room.id)
      ensures ClientsView() == old(ClientsView())
    {
      rooms := rooms - {room.id};
    }

    method SetHost(room: Room, next: Client)
      requires Linked() && room.id in rooms && rooms[room.id] == room
      modifies room
      ensures Linked() && room.peers == old(room.peers)
      ensures room.View() == old(room.View()).(hostId := next.id, hostNick := next.nick)
      ensures RoomsView() == old(RoomsView())[room.id := room.View()]
      ensures ClientsView() == old(ClientsView())
    {
      hide RoomsView, ClientsView;
      room.hostId := next.id;
      room.hostNick := next.nick;
      RoomChanged(room);
    }

    method PromoteRoomHost(room: Room)
      requires Linked() && room.id in rooms && rooms[room.id] == room && room.peers.Keys != {}
      modifies room
      ensures Linked() && room.peers == old(room.peers)
      ensures room.peers.Keys <= ClientsView().Keys && room.View() == Promoted(old(room.View()), old(ClientsView()))
      ensures RoomsView() == old(RoomsView())[room.id := room.View()]
      ensures ClientsView() == old(ClientsView())
    {
      hide RoomsView;
      var least := LeastOf(room.peers.Keys);
      assert Points(room);
      assert ClientsView()[least] == room.peers[least].View();
      SetHost(room, room.peers[least]);
    }

    // ----- Leaving -----

    /** The rest of a departure, once `p` is out of the room: delete the empty room, or find a host and tell the others. */
    method Depart(room: Room, p: PeerId, nick: string)
      requires Linked() && room.id in rooms && rooms[room.id] == room && p !in room.peers
      modifies this`rooms, room, clients.Values
      ensures Linked() && Points(room) && room.peers == old(room.peers)
      ensures room.peers.Keys <= old(ClientsView()).Keys
      ensures rooms == if room.peers.Keys == {} then old(rooms) - {room.id} else old(rooms)
      ensures room.peers.Keys == {} ==> room.View() == old(room.View())
      ensures RoomsView() == Departed(old(RoomsView()), room.id, old(room.View()), p, old(ClientsView()))
      ensures ClientsView() == Delivered(old(ClientsView()), Goodbye(room.id, room.peers.Keys, p, nick))
    {
      hide RoomsView, ClientsView, Delivered, Promoted, Audience;
      assert Points(room);
      RoomSeen(room.id);
      AudienceOfGoodbye(room.id, room.peers.Keys, p, nick);
      if room.peers.Keys == {} {
        DeleteRoom(room);
        BroadcastLocked(Bare(RoomClosed).(roomId := room.id), room);
        return;
      }
      if room.hostId == p {
        PromoteRoomHost(room);
      }
      BroadcastLocked(Bare(PeerLeft).(roomId := room.id, peerId := p, nick := nick), room);
    }

    /** The one room object that a departure of `c` touches. */
    function RoomOf(c: Client): set<Room>
      reads this, c
    {
      if c.roomId in rooms then {rooms[c.roomId]} else {}
    }

    method LeaveRoomLocked(c: Client)
      requires Valid() && c.id in clients && clients[c.id] == c
      modifies this`rooms, RoomOf(c), clients.Values
      ensures Linked()
      ensures c.id in old(Contents()).clients && Registered(old(Contents()))
      ensures RoomsView() == RoomsWithout(old(Contents()), c.id)
      ensures ClientsView() == AllDelivered(Left(old(Contents()), c.id).clients, Farewell(old(Contents()), c.id))
      ensures forall id | id in rooms :: id in old(rooms) && rooms[id] == old(rooms)[id]
      ensures var id := old(c.roomId);
              id in old(rooms) ==> LeftBehind(old(rooms)[id], old(rooms[id].View()), old(rooms[id].peers), c.id)
    {
      hide RoomsView, ClientsView, RoomsWithout, Farewell, AllDelivered, Delivered, Departed, Goodbye, RoomSound, HomeSound;
      ghost var h := Contents();
      SoundRegistered(h);
      NotElsewhere(h, c.id);
      ClientSeen(c.id);
      if c.roomId == "" || c.roomId !in rooms {
        LeaveNothing(h, c.id);
        SetClient(c, c.nick, "");
        return;
      }
      var room := rooms[c.roomId];
      RoomSeen(c.roomId);
      LeaveListed(h, c.id);
      var nick := c.nick;
      SetClient(c, nick, "");
      DropPeer(room, c.id);
      Depart(room, c.id, nick);
    }

    /** A room object after `p` left the hub's rooms: `p` is gone from it, and if it is off the list nothing else changed. */
    ghost predicate LeftBehind(room: Room, view: RoomRec, peers: map<PeerId, Client>, p: PeerId)
      reads this, room
    {
      Points(room) && room.peers == peers - {p} && (room.id !in rooms ==> room.View() == view.(peers := {}))
    }

    /** createRoom and joinRoom leave first only when the client names a room; leaving no room changes nothing. */
    method LeaveFirst(c: Client)
      requires Valid() && c.id in clients && clients[c.id] == c
      modifies this`rooms, RoomOf(c), clients.Values
      ensures Linked()
      ensures c.id in old(Contents()).clients && Registered(old(Contents()))
      ensures RoomsView() == RoomsWithout(old(Contents()), c.id)
      ensures ClientsView() == AllDelivered(Left(old(Contents()), c.id).clients, Farewell(old(Contents()), c.id))
      ensures forall id | id in rooms :: id in old(rooms) && rooms[id] == old(rooms)[id]
      ensures var id := old(c.roomId);
              id in old(rooms) ==> LeftBehind(old(rooms)[id], old(rooms[id].View()), old(rooms[id].peers), c.id)
    {
      hide RoomsView, ClientsView, RoomsWithout, Farewell, AllDelivered, RoomSound, HomeSound;
      if c.roomId != "" {
        LeaveRoomLocked(c);
      } else {
        SoundRegistered(Contents());
        RoomsNamed(Contents());
        ClientSeen(c.id);
        LeaveNothing(Contents(), c.id);
        assert ClientsView()[c.id := ClientsView()[c.id].(roomId := "")] == ClientsView();
      }
    }

    // ----- Creating -----

    /** A room was put on the list and nothing else changed. */
    twostate lemma RoomListed(id: RoomId, new room: Room)
      requires id !in old(rooms) && rooms == old(rooms)[id := room] && clients == old(clients)
      requires forall r | r in old(rooms) :: unchanged(old(rooms)[r])
      requires forall p | p in clients :: unchanged(clients[p])
      ensures RoomsView() == old(RoomsView())[id := room.View()]
      ensures ClientsView() == old(ClientsView())
    {
    }

    method ListRoom(c: Client, name: string, locked: bool, newId: RoomId) returns (room: Room)
      requires Linked() && c.id in clients && clients[c.id] == c && newId !in rooms
      modifies this`rooms
      ensures Linked() && rooms == old(rooms)[newId := room] && room.id == newId
      ensures room.View() == RoomRec(name, c.id, c.nick, locked, {c.id})
      ensures RoomsView() == old(RoomsView())[newId := room.View()]
      ensures ClientsView() == old(ClientsView())
    {
      hide RoomsView, ClientsView;
      room := new Room(newId, name, locked, c);
      rooms := rooms[newId := room];
      RoomListed(newId, room);
    }

    /** Leave the old room, take the new nick and name the new room. */
    method Settle(c: Client, nick: string, roomId: RoomId)
      requires Valid() && c.id in clients && clients[c.id] == c
      modifies this`rooms, RoomOf(c), clients.Values
      ensures Linked() && clients == old(clients) && c.nick == nick && c.roomId == roomId
      ensures c.id in old(Contents()).clients && Registered(old(Contents()))
      ensures RoomsView() == RoomsWithout(old(Contents()), c.id)
      ensures ClientsView() == AllDelivered(Placed(old(Contents()).clients, c.id, nick, roomId), Farewell(old(Contents()), c.id))
      ensures forall id | id in rooms :: id in old(rooms) && rooms[id] == old(rooms)[id]
      ensures var id := old(c.roomId);
              id in old(rooms) ==> LeftBehind(old(rooms)[id], old(rooms[id].View()), old(rooms[id].peers), c.id)
    {
      hide RoomsView, ClientsView, RoomsWithout, Farewell, AllDelivered, RoomSound, HomeSound;
      ghost var h := Contents();
      LeaveFirst(c);
      ClientSeen(c.id);
      Renaming(Left(h, c.id).clients, Farewell(h, c.id), c.id, nick, roomId);
      PlacedLeft(h, c.id, nick, roomId);
      SetClient(c, nick, roomId);
    }

    method OpenRoom(c: Client, name: string, locked: bool, newId: RoomId)
      requires Linked() && c.id in clients && clients[c.id] == c && newId !in rooms
      modifies this`rooms, clients.Values
      ensures Linked()
      ensures RoomsView() == old(RoomsView())[newId := RoomRec(name, c.id, old(c.nick), locked, {c.id})]
      ensures var created := Bare(RoomCreated).(roomId := newId, room := Some(SnapshotOf(newId, RoomsView()[newId], true)));
              ClientsView() == Delivered(Delivered(old(ClientsView()), Post({c.id}, created)),
                                         Post(clients.Keys, RoomList(RoomsView())))
    {
      hide RoomsView, ClientsView, Delivered, RoomList;
      var room := ListRoom(c, name, locked, newId);
      var snapshot := room.Snapshot(true);
      Enqueue(c, Bare(RoomCreated).(roomId := newId, room := Some(snapshot)));
      BroadcastRoomsLocked();
    }

    method CreateRoom(c: Client, env: Envelope, newId: RoomId)
      requires Valid() && c.id in clients && clients[c.id] == c
      requires env.kind == Kind.CreateRoom && Legal(Contents(), Message(c.id, env, newId))
      modifies this`rooms, RoomOf(c), clients.Values
      ensures Valid()
      ensures Takes(old(Contents()), Message(c.id, env, newId), Contents())
    {
      hide RoomsView, ClientsView, RoomsWithout, Farewell, AllDelivered, Delivered, RoomList, Sound, Step;
      ghost var h := Contents();
      assert newId !in rooms;
      SoundRegistered(h);
      SoundStep(h, Message(c.id, env, newId));
      LeavingRoom(h, c.id, newId);
      CreateStep(h, c.id, env, newId);
      ClientSeen(c.id);
      var nick := if env.nick != "" then env.nick else c.nick;
      var name := if env.room.Some? && env.room.value.name != "" then env.room.value.name else DEFAULT_ROOM_NAME;
      var locked := env.room.Some? && env.room.value.locked;
      assert NewRoom(h, c.id, env) == RoomRec(name, c.id, nick, locked, {c.id});
      assert Placed(h.clients, c.id, nick, newId).Keys == clients.Keys;
      Settle(c, nick, newId);
      assert newId !in rooms;
      OpenRoom(c, name, locked, newId);
      assert Contents() == Step(h, Message(c.id, env, newId));
    }

    // ----- Joining -----

    method AddPeer(room: Room, c: Client)
      requires Linked() && Points(room) && (room.id in rooms ==> rooms[room.id] == room)
      requires c.id in clients && clients[c.id] == c
      modifies room
      ensures Linked() && Points(room)
      ensures room.View() == old(room.View()).(peers := old(room.View()).peers + {c.id})
      ensures RoomsView() == if room.id in rooms then old(RoomsView())[room.id := room.View()] else old(RoomsView())
      ensures ClientsView() == old(ClientsView())
    {
      hide RoomsView, ClientsView;
      room.peers := room.peers[c.id := c];
      RoomChanged(room);
    }

    /** The client leaves its old room and is put into the room object it asked for, listed or not. */
    method MoveInto(c: Client, nick: string, roomId: RoomId) returns (room: Room)
      requires Valid() && c.id in clients && clients[c.id] == c && roomId in rooms
      modifies this`rooms, rooms.Values, clients.Values
      ensures Linked() && clients == old(clients) && Points(room) && c.nick == nick
      ensures c.id in old(Contents()).clients && Registered(old(Contents()))
      ensures room.id == roomId && room.View() == JoinTarget(old(Contents()), c.id, roomId)
      ensures var left := RoomsWithout(old(Contents()), c.id);
              RoomsView() == if roomId in left then left[roomId := room.View()] else left
      ensures ClientsView() == AllDelivered(Placed(old(Contents()).clients, c.id, nick, roomId), Farewell(old(Contents()), c.id))
    {
      hide RoomsView, ClientsView, RoomsWithout, Farewell, AllDelivered, Placed, RoomSound, HomeSound;
      ghost var h := Contents();
      SoundRegistered(h);
      LeavingRoom(h, c.id, roomId);
      OwnRoom(h, c.id, roomId);
      ClientSeen(c.id);
      RoomSeen(roomId);
      room := rooms[roomId];
      Settle(c, nick, roomId);
      if roomId in rooms {
        RoomSeen(roomId);
      }
      AddPeer(room, c);
    }

    method Greet(c: Client, room: Room, payload: string)
      requires Linked() && Points(room) && c.id in clients && clients[c.id] == c
      modifies clients.Values
      ensures Linked() && RoomsView() == old(RoomsView())
      ensures ClientsView() == Greeted(old(ClientsView()), c.id, old(c.nick), room.id, room.View(), payload, RoomsView())
    {
      hide RoomsView, ClientsView, Delivered, RoomList, Audience;
      var nick := c.nick;
      var snapshot := room.Snapshot(true);
      Enqueue(c, Bare(JoinedRoom).(roomId := room.id, room := Some(snapshot)));
      var arrived := Bare(PeerJoined).(roomId := room.id, peerId := c.id, nick := nick, payload := payload);
      AudienceOfArrival(room.peers.Keys, arrived);
      BroadcastLocked(arrived, room);
      BroadcastRoomsLocked();
    }

    method JoinRoom(c: Client, env: Envelope)
      requires Valid() && c.id in clients && clients[c.id] == c && env.kind == Kind.JoinRoom
      modifies this`rooms, rooms.Values, clients.Values
      ensures Valid()
      ensures Takes(old(Contents()), Message(c.id, env, ""), Contents())
    {
      hide RoomsView, ClientsView, RoomsWithout, Farewell, AllDelivered, Delivered, RoomList, Sound, Step, JoinTarget, Greeted, Placed;
      ghost var h := Contents();
      SoundRegistered(h);
      SoundStep(h, Message(c.id, env, ""));
      ClientSeen(c.id);
      if env.roomId !in rooms {
        RefusedStep(h, c.id, env);
        Enqueue(c, Bare(Error).(error := RoomNotFound));
        return;
      }
      var room := rooms[env.roomId];
      RoomSeen(env.roomId);
      if |room.peers.Keys| >= MAX_PEERS {
        RefusedStep(h, c.id, env);
        Enqueue(c, Bare(Error).(error := RoomIsFull));
        return;
      }
      JoinStep(h, c.id, env);
      var nick := if env.nick != "" then env.nick else c.nick;
      var joined := MoveInto(c, nick, env.roomId);
      Greet(c, joined, env.payload);
    }

    // ----- The other messages -----

    method LeaveRoom(c: Client, env: Envelope)
      requires Valid() && c.id in clients && clients[c.id] == c && env.kind == Kind.LeaveRoom
      modifies this`rooms, RoomOf(c), clients.Values
      ensures Valid()
      ensures Takes(old(Contents()), Message(c.id, env, ""), Contents())
    {
      hide RoomsView, ClientsView, RoomsWithout, Farewell, AllDelivered, Delivered, RoomList, Sound, Step;
      ghost var h := Contents();
      SoundRegistered(h);
      SoundStep(h, Message(c.id, env, ""));
      LeaveStep(h, c.id, env);
      LeaveRoomLocked(c);
      BroadcastRoomsLocked();
    }

    method RouteToPeer(c: Client, env: Envelope)
      requires Valid() && c.id in clients && clients[c.id] == c && IsIce(env.kind)
      modifies clients.Values
      ensures Valid()
      ensures Takes(old(Contents()), Message(c.id, env, ""), Contents())
    {
      hide RoomsView, ClientsView, Delivered, Sound, Step;
      ghost var h := Contents();
      SoundRegistered(h);
      SoundStep(h, Message(c.id, env, ""));
      RelayStep(h, c.id, env);
      ClientSeen(c.id);
      if env.targetId in clients {
        ClientSeen(env.targetId);
      }
      if env.targetId !in clients || c.roomId == "" || clients[env.targetId].roomId != c.roomId {
        Enqueue(c, Bare(Error).(error := TargetUnavailable));
        return;
      }
      Enqueue(clients[env.targetId], env.(peerId := c.id, nick := c.nick, roomId := c.roomId));
    }

    method BroadcastPeerStatus(c: Client, env: Envelope)
      requires Valid() && c.id in clients && clients[c.id] == c && IsStatus(env.kind)
      modifies clients.Values
      ensures Valid()
      ensures Takes(old(Contents()), Message(c.id, env, ""), Contents())
    {
      hide RoomsView, ClientsView, Delivered, Sound, Step;
      ghost var h := Contents();
      SoundRegistered(h);
      SoundStep(h, Message(c.id, env, ""));
      RelayStep(h, c.id, env);
      ClientSeen(c.id);
      if c.roomId !in rooms {
        return;
      }
      RoomSeen(c.roomId);
      BroadcastLocked(env.(peerId := c.id, nick := c.nick, roomId := c.roomId), rooms[c.roomId]);
    }

    method BroadcastVoiceFrame(c: Client, env: Envelope)
      requires Valid() && c.id in clients && clients[c.id] == c && env.kind == VoiceFrame
      modifies clients.Values
      ensures Valid()
      ensures Takes(old(Contents()), Message(c.id, env, ""), Contents())
    {
      hide RoomsView, ClientsView, Delivered, Sound, Step;
      ghost var h := Contents();
      SoundRegistered(h);
      SoundStep(h, Message(c.id, env, ""));
      RelayStep(h, c.id, env);
      ClientSeen(c.id);
      if c.roomId !in rooms {
        return;
      }
      if |env.payload| == 0 || |env.payload| > MAX_VOICE_PAYLOAD {
        return;
      }
      RoomSeen(c.roomId);
      BroadcastLocked(env.(kind := VoiceFrame, peerId := c.id, nick := c.nick, roomId := c.roomId, targetId := ""),
                      rooms[c.roomId]);
    }

    method SendRooms(c: Client)
      requires Linked() && c.id in clients && clients[c.id] == c
      modifies c
      ensures Linked() && RoomsView() == old(RoomsView())
      ensures ClientsView() == Delivered(old(ClientsView()), Post({c.id}, RoomList(RoomsView())))
    {
      hide RoomsView, ClientsView, Delivered, RoomList;
      var list := RoomSnapshotsLocked(false);
      ListingAll(RoomsView());
      Enqueue(c, Bare(Rooms).(rooms := list));
    }

    method SayHello(c: Client, env: Envelope)
      requires Valid() && c.id in clients && clients[c.id] == c && env.kind == Hello
      modifies c
      ensures Valid()
      ensures Takes(old(Contents()), Message(c.id, env, ""), Contents())
    {
      hide RoomsView, ClientsView, Delivered, RoomList, Sound, Step;
      ghost var h := Contents();
      SoundRegistered(h);
      SoundStep(h, Message(c.id, env, ""));
      HelloStep(h, c.id, env);
      ClientSeen(c.id);
      SetClient(c, if env.nick != "" then env.nick else c.nick, c.roomId);
      Enqueue(c, Bare(Hello).(peerId := c.id));
      SendRooms(c);
    }

    /** The message dispatcher. Only create_room looks at the random id. */
    method Handle(c: Client, env: Envelope, newId: RoomId)
      requires Valid() && c.id in clients && clients[c.id] == c && Legal(Contents(), Message(c.id, env, newId))
      modifies this`rooms, rooms.Values, clients.Values
      ensures Valid()
      ensures Takes(old(Contents()), Message(c.id, env, newId), Contents())
    {
      hide RoomsView, ClientsView, Delivered, RoomList, Sound, Step;
      ghost var h := Contents();
      SoundRegistered(h);
      SoundStep(h, Message(c.id, env, newId));
      IdUnused(h, c.id, env, newId);
      match env.kind
      case Hello => SayHello(c, env);
      case ListRooms =>
        ReplyStep(h, c.id, env, RoomList(h.rooms));
        SendRooms(c);
      case CreateRoom => CreateRoom(c, env, newId);
      case JoinRoom => JoinRoom(c, env);
      case LeaveRoom => LeaveRoom(c, env);
      case IceOffer | IceAnswer | IceCandidate => RouteToPeer(c, env);
      case MuteStatus | PeerStatus => BroadcastPeerStatus(c, env);
      case VoiceFrame => BroadcastVoiceFrame(c, env);
      case Heartbeat =>
        ReplyStep(h, c.id, env, Bare(HeartbeatAck));
        Enqueue(c, Bare(HeartbeatAck));
      case _ =>
        ReplyStep(h, c.id, env, Bare(Error).(error := UnknownType));
        Enqueue(c, Bare(Error).(error := UnknownType));
    }

    // ----- Connections -----

    method Register(c: Client)
      requires Linked() && c.id !in clients
      modifies this`clients
      ensures Linked() && clients == old(clients)[c.id := c]
      ensures RoomsView() == old(RoomsView())
      ensures ClientsView() == old(ClientsView())[c.id := c.View()]
    {
      clients := clients[c.id := c];
    }

    method AddClient(c: Client)
      requires Valid() && Legal(Contents(), Connect(c.id)) && c.View() == ClientRec(DEFAULT_NICK, "", [], 0)
      modifies this`clients
      ensures Valid() && clients == old(clients)[c.id := c]
      ensures Takes(old(Contents()), Connect(c.id), Contents())
    {
      hide RoomsView, ClientsView, Sound;
      SoundRegistered(Contents());
      SoundStep(Contents(), Connect(c.id));
      Register(c);
    }

    method Forget(c: Client)
      requires Linked() && c.id in clients && forall r | r in rooms :: c.id !in rooms[r].peers
      modifies this`clients
      ensures Linked() && clients == old(clients) - {c.id}
      ensures RoomsView() == old(RoomsView())
      ensures ClientsView() == Without(old(ClientsView()), c.id)
    {
      clients := clients - {c.id};
    }

    /** The two deletions of removeClient: from the clients, and from the peers of the room it names. */
    method ForgetMember(c: Client, room: Room)
      requires Linked() && c.id in clients && room.id in rooms && rooms[room.id] == room
      requires forall r | r in rooms && r != room.id :: c.id !in rooms[r].peers
      modifies this`clients, room
      ensures Linked() && clients == old(clients) - {c.id}
      ensures room.peers == old(room.peers) - {c.id} && room.View() == old(room.View()).(peers := old(room.View()).peers - {c.id})
      ensures RoomsView() == old(RoomsView())[room.id := room.View()]
      ensures ClientsView() == Without(old(ClientsView()), c.id)
    {
      hide RoomsView, ClientsView;
      DropPeer(room, c.id);
      Forget(c);
    }

    /** Delete the client, and tell the room it was in. */
    method RemoveMember(c: Client, room: Room)
      requires Linked() && c.id in clients && room.id in rooms && rooms[room.id] == room
      requires forall r | r in rooms && r != room.id :: c.id !in rooms[r].peers
      modifies this, room, clients.Values
      ensures Linked() && clients == old(clients) - {c.id}
      ensures var left := old(room.View()).(peers := old(room.View()).peers - {c.id});
              var others := Without(old(ClientsView()), c.id);
              left.peers <= others.Keys &&
              RoomsView() == Departed(old(RoomsView())[room.id := left], room.id, left, c.id, others) &&
              ClientsView() == Delivered(others, Goodbye(room.id, left.peers, c.id, old(c.nick)))
    {
      hide RoomsView, ClientsView, Delivered, Departed, Goodbye;
      ForgetMember(c, room);
      Depart(room, c.id, c.nick);
    }

    method RemoveClient(c: Client)
      requires Valid() && c.id in clients && clients[c.id] == c
      modifies this, RoomOf(c), clients.Values
      ensures Valid() && clients == old(clients) - {c.id}
      ensures Takes(old(Contents()), Disconnect(c.id), Contents())
    {
      hide RoomsView, ClientsView, RoomsWithout, Farewell, AllDelivered, Delivered, Departed, Goodbye, Step, RoomList, Sound;
      ghost var h := Contents();
      SoundRegistered(h);
      SoundStep(h, Disconnect(c.id));
      NotElsewhere(h, c.id);
      ClientSeen(c.id);
      forall id | id in rooms ensures h.rooms[id] == rooms[id].View() {
        RoomSeen(id);
      }
      if c.roomId == "" || c.roomId !in rooms {
        GoneQuietly(h, c.id);
        Forget(c);
        return;
      }
      GoneRooms(h, c.id);
      GoneFromRoom(h, c.id);
      RemoveMember(c, rooms[c.roomId]);
      BroadcastRoomsLocked();
    }

    /** One turn of the write loop. */
    method TakeOldest(c: Client) returns (env: Envelope)
      requires Valid() && c.id in clients && clients[c.id] == c && c.send != []
      modifies c
      ensures Valid()
      ensures env == old(c.send)[0] && Takes(old(Contents()), Write(c.id), Contents())
    {
      hide RoomsView, ClientsView, Sound;
      ghost var h := Contents();
      SoundRegistered(h);
      ClientSeen(c.id);
      SoundStep(h, Write(c.id));
      env := TakeSend(c);
    }

    method TakeSend(c: Client) returns (env: Envelope)
      requires Linked() && c.id in clients && clients[c.id] == c && c.send != []
      modifies c
      ensures Linked() && env == old(c.send)[0]
      ensures RoomsView() == old(RoomsView())
      ensures ClientsView() == old(ClientsView())[c.id := old(c.View()).(queue := old(c.send)[1..])]
    {
      hide RoomsView, ClientsView;
      env := c.send[0];
      ClientSeen(c.id);
      c.send := c.send[1..];
      ClientChanged(c);
    }
  }

  function Placed(clients: map<PeerId, ClientRec>, p: PeerId, nick: string, roomId: RoomId): map<PeerId, ClientRec>
    requires p in clients
  {
    clients[p := clients[p].(nick := nick, roomId := roomId)]
  }

  ghost function Listing(rooms: map<RoomId, RoomRec>, ids: set<RoomId>, includePeers: bool): set<Snapshot>
    requires ids <= rooms.Keys
  {
    set id | id in ids :: SnapshotOf(id, rooms[id], includePeers)
  }

  lemma ListingNone(rooms: map<RoomId, RoomRec>, includePeers: bool)
    ensures Listing(rooms, {}, includePeers) == {}
  {
  }

  lemma ListingMore(rooms: map<RoomId, RoomRec>, ids: set<RoomId>, id: RoomId, includePeers: bool)
    requires ids <= rooms.Keys && id in rooms
    ensures Listing(rooms, ids + {id}, includePeers) == Listing(rooms, ids, includePeers) + {SnapshotOf(id, rooms[id], includePeers)}
  {
  }

  lemma ListingAll(rooms: map<RoomId, RoomRec>)
    ensures Bare(Rooms).(rooms := Listing(rooms, rooms.Keys, false)) == RoomList(rooms)
  {
  }

  /** Everybody in the room but the envelope's peer, unless the room is closed. */
  function Audience(peers: set<PeerId>, env: Envelope): set<PeerId> {
    if env.kind == RoomClosed then peers else peers - {env.peerId}
  }

  // ----- Leaving, case by case -----

  lemma NotElsewhere(h: State, p: PeerId)
    requires Sound(h) && p in h.clients
    ensures forall id | id in h.rooms && id != h.clients[p].roomId :: p !in h.rooms[id].peers
    ensures h.clients[p].roomId in h.rooms ==> h.clients[p].roomId != ""
  {
    forall id | id in h.rooms ensures RoomSound(h, id) {
    }
  }

  lemma LeaveNothing(h: State, p: PeerId)
    requires p in h.clients && Registered(h) && (h.clients[p].roomId == "" || h.clients[p].roomId !in h.rooms)
    ensures RoomsWithout(h, p) == h.rooms
    ensures AllDelivered(Left(h, p).clients, Farewell(h, p)) == h.clients[p := h.clients[p].(roomId := "")]
  {
  }

  /** The list once `left`, which `p` is no longer in, has found its host or was deleted. */
  ghost function Departed(rooms: map<RoomId, RoomRec>, id: RoomId, left: RoomRec, p: PeerId,
                          clients: map<PeerId, ClientRec>): map<RoomId, RoomRec>
    requires left.peers <= clients.Keys
  {
    if left.peers == {} then Without(rooms, id)
    else rooms[id := if left.hostId == p then Promoted(left, clients) else left]
  }

  function Goodbye(id: RoomId, others: set<PeerId>, p: PeerId, nick: string): Post {
    if others == {} then Post({}, Bare(RoomClosed).(roomId := id))
    else Post(others, Bare(PeerLeft).(roomId := id, peerId := p, nick := nick))
  }

  // ----- Operations, post by post -----

  lemma TwoMore(clients: map<PeerId, ClientRec>, posts: seq<Post>, a: Post, b: Post)
    ensures AllDelivered(clients, posts + [a, b]) == Delivered(Delivered(AllDelivered(clients, posts), a), b)
  {
    assert posts + [a, b] == (posts + [a]) + [b];
    DeliveredLast(clients, posts, a);
    DeliveredLast(clients, posts + [a], b);
  }

  lemma ThreeMore(clients: map<PeerId, ClientRec>, posts: seq<Post>, a: Post, b: Post, c: Post)
    ensures AllDelivered(clients, posts + [a, b, c]) == Delivered(Delivered(Delivered(AllDelivered(clients, posts), a), b), c)
  {
    assert posts + [a, b, c] == (posts + [a, b]) + [c];
    TwoMore(clients, posts, a, b);
    DeliveredLast(clients, posts + [a, b], c);
  }

  lemma PlacedLeft(h: State, p: PeerId, nick: string, roomId: RoomId)
    requires p in h.clients && Registered(h)
    ensures Placed(Left(h, p).clients, p, nick, roomId) == Placed(h.clients, p, nick, roomId)
  {
  }

  lemma CreateStep(h: State, p: PeerId, env: Envelope, newId: RoomId)
    requires Registered(h) && env.kind == CreateRoom && Legal(h, Message(p, env, newId))
    ensures var c := h.clients[p];
            var room := NewRoom(h, p, env);
            var rooms := RoomsWithout(h, p)[newId := room];
            var clients := Placed(h.clients, p, Renamed(c.nick, env), newId);
            var created := Post({p}, Bare(RoomCreated).(roomId := newId, room := Some(SnapshotOf(newId, room, true))));
            Step(h, Message(p, env, newId)) ==
              State(rooms, Delivered(Delivered(AllDelivered(clients, Farewell(h, p)), created),
                                     Post(clients.Keys, RoomList(rooms))))
  {
    hide RoomsWithout, Farewell, AllDelivered, Delivered, RoomList;
    var room := NewRoom(h, p, env);
    var moved := Moved(h, p, env, newId);
    TwoMore(moved.clients, Farewell(h, p),
            Post({p}, Bare(RoomCreated).(roomId := newId, room := Some(SnapshotOf(newId, room, true)))),
            Post(moved.clients.Keys, RoomList(moved.rooms)));
  }

  lemma OwnRoom(h: State, p: PeerId, roomId: RoomId)
    requires Sound(h) && p in h.clients && roomId in h.rooms
    ensures h.rooms[roomId].peers == {p} ==> h.clients[p].roomId == roomId
  {
    assert RoomSound(h, roomId);
  }

  lemma AudienceOfArrival(peers: set<PeerId>, env: Envelope)
    requires env.kind == PeerJoined
    ensures Audience(peers, env) == peers - {env.peerId}
  {
  }

  /** The three posts of a successful join. */
  ghost function Greeted(clients: map<PeerId, ClientRec>, p: PeerId, nick: string, roomId: RoomId, room: RoomRec,
                         payload: string, rooms: map<RoomId, RoomRec>): map<PeerId, ClientRec>
  {
    var joined := Post({p}, Bare(JoinedRoom).(roomId := roomId, room := Some(SnapshotOf(roomId, room, true))));
    var arrived := Bare(PeerJoined).(roomId := roomId, peerId := p, nick := nick, payload := payload);
    Delivered(Delivered(Delivered(clients, joined), Post(room.peers - {p}, arrived)), Post(clients.Keys, RoomList(rooms)))
  }

  lemma JoinStep(h: State, p: PeerId, env: Envelope)
    requires Registered(h) && p in h.clients && env.kind == JoinRoom && JoinFault(h, env.roomId) == NoFault
    ensures var nick := Renamed(h.clients[p].nick, env);
            var left := RoomsWithout(h, p);
            var room := JoinTarget(h, p, env.roomId);
            var rooms := if env.roomId in left then left[env.roomId := room] else left;
            var clients := AllDelivered(Placed(h.clients, p, nick, env.roomId), Farewell(h, p));
            Step(h, Message(p, env, "")) == State(rooms, Greeted(clients, p, nick, env.roomId, room, env.payload, rooms))
  {
    hide RoomsWithout, Farewell, AllDelivered, Delivered, RoomList, JoinTarget;
    var nick := Renamed(h.clients[p].nick, env);
    var room := JoinTarget(h, p, env.roomId);
    var moved := Moved(h, p, env, "");
    DeliveryKeeps(moved.clients, Farewell(h, p));
    ThreeMore(moved.clients, Farewell(h, p),
              Post({p}, Bare(JoinedRoom).(roomId := env.roomId, room := Some(SnapshotOf(env.roomId, room, true)))),
              Post(room.peers - {p}, Bare(PeerJoined).(roomId := env.roomId, peerId := p, nick := nick, payload := env.payload)),
              Post(moved.clients.Keys, RoomList(moved.rooms)));
  }

  lemma RefusedStep(h: State, p: PeerId, env: Envelope)
    requires Registered(h) && p in h.clients && env.kind == JoinRoom && JoinFault(h, env.roomId) != NoFault
    ensures Step(h, Message(p, env, ""))
         == State(h.rooms, Delivered(h.clients, Post({p}, Bare(Error).(error := JoinFault(h, env.roomId)))))
  {
    DeliveredOne(h.clients, Post({p}, Bare(Error).(error := JoinFault(h, env.roomId))));
  }

  lemma LeaveStep(h: State, p: PeerId, env: Envelope)
    requires Registered(h) && p in h.clients && env.kind == LeaveRoom
    ensures var told := AllDelivered(Left(h, p).clients, Farewell(h, p));
            Step(h, Message(p, env, "")) ==
              State(RoomsWithout(h, p), Delivered(told, Post(told.Keys, RoomList(RoomsWithout(h, p)))))
  {
    hide RoomsWithout, Farewell, AllDelivered, Delivered, RoomList;
    DeliveryKeeps(Left(h, p).clients, Farewell(h, p));
    DeliveredLast(Left(h, p).clients, Farewell(h, p), Post(Left(h, p).clients.Keys, RoomList(RoomsWithout(h, p))));
  }

  lemma ReplyStep(h: State, p: PeerId, env: Envelope, reply: Envelope)
    requires Registered(h) && p in h.clients && Posts(h, p, env, "") == [Post({p}, reply)] && Moved(h, p, env, "") == h
    requires env.kind != CreateRoom
    ensures Step(h, Message(p, env, "")) == State(h.rooms, Delivered(h.clients, Post({p}, reply)))
  {
    DeliveredOne(h.clients, Post({p}, reply));
  }

  lemma HelloStep(h: State, p: PeerId, env: Envelope)
    requires Registered(h) && p in h.clients && env.kind == Hello
    ensures var c := h.clients[p];
            var named := h.clients[p := c.(nick := Renamed(c.nick, env))];
            Step(h, Message(p, env, "")) ==
              State(h.rooms, Delivered(Delivered(named, Post({p}, Bare(Hello).(peerId := p))), Post({p}, RoomList(h.rooms))))
  {
    var c := h.clients[p];
    var named := h.clients[p := c.(nick := Renamed(c.nick, env))];
    assert [] + [Post({p}, Bare(Hello).(peerId := p)), Post({p}, RoomList(h.rooms))]
        == [Post({p}, Bare(Hello).(peerId := p)), Post({p}, RoomList(h.rooms))];
    TwoMore(named, [], Post({p}, Bare(Hello).(peerId := p)), Post({p}, RoomList(h.rooms)));
  }

  /** A relayed message has one post, to one client or to everybody else in the room. */
  lemma RelayStep(h: State, p: PeerId, env: Envelope)
    requires Registered(h) && p in h.clients && (IsIce(env.kind) || IsStatus(env.kind) || env.kind == VoiceFrame)
    ensures var posts := Relayed(h, p, env);
            |posts| <= 1 &&
            Step(h, Message(p, env, "")) ==
              State(h.rooms, if posts == [] then h.clients else Delivered(h.clients, posts[0]))
  {
    var posts := Relayed(h, p, env);
    if posts != [] {
      assert posts == [posts[0]];
      DeliveredOne(h.clients, posts[0]);
    }
  }

  lemma IdUnused(h: State, p: PeerId, env: Envelope, newId: RoomId)
    requires Registered(h) && Legal(h, Message(p, env, newId))
    ensures env.kind != CreateRoom ==> Step(h, Message(p, env, newId)) == Step(h, Message(p, env, ""))
  {
  }

  lemma GoneQuietly(h: State, p: PeerId)
    requires Registered(h) && p in h.clients && (h.clients[p].roomId == "" || h.clients[p].roomId !in h.rooms)
    ensures Step(h, Disconnect(p)) == State(h.rooms, Without(h.clients, p))
  {
  }

  lemma GoneRooms(h: State, p: PeerId)
    requires p in h.clients && Registered(h) && h.clients[p].roomId != "" && h.clients[p].roomId in h.rooms
    ensures var id := h.clients[p].roomId;
            var left := h.rooms[id].(peers := h.rooms[id].peers - {p});
            left.peers <= Without(h.clients, p).Keys &&
            RoomsWithout(h, p) == Departed(h.rooms[id := left], id, left, p, Without(h.clients, p)) &&
            Farewell(h, p) == [Goodbye(id, left.peers, p, h.clients[p].nick)]
  {
  }

  lemma GoneFromRoom(h: State, p: PeerId)
    requires p in h.clients && Registered(h) && h.clients[p].roomId != "" && h.clients[p].roomId in h.rooms
    ensures var clients := Without(h.clients, p);
            var told := AllDelivered(clients, Farewell(h, p));
            told == Delivered(clients, Farewell(h, p)[0]) &&
            Step(h, Disconnect(p)) == State(RoomsWithout(h, p), Delivered(told, Post(told.Keys, RoomList(RoomsWithout(h, p)))))
  {
    hide RoomList, Delivered, RoomsWithout;
    var clients := Without(h.clients, p);
    DeliveredOne(clients, Farewell(h, p)[0]);
    DeliveryKeeps(clients, Farewell(h, p));
    DeliveredLast(clients, Farewell(h, p), Post(clients.Keys, RoomList(RoomsWithout(h, p))));
  }

  lemma AudienceOfGoodbye(id: RoomId, others: set<PeerId>, p: PeerId, nick: string)
    requires p !in others
    ensures Audience(others, Goodbye(id, others, p, nick).env) == Goodbye(id, others, p, nick).to
  {
  }

  /** Leaving a listed room, as Coordinator puts it and as the code goes about it. */
  lemma LeaveListed(h: State, p: PeerId)
    requires p in h.clients && Registered(h) && h.clients[p].roomId != "" && h.clients[p].roomId in h.rooms
    ensures var id := h.clients[p].roomId;
            var left := h.rooms[id].(peers := h.rooms[id].peers - {p});
            var clients := h.clients[p := h.clients[p].(roomId := "")];
            RoomsWithout(h, p) == Departed(h.rooms[id := left], id, left, p, clients) &&
            AllDelivered(Left(h, p).clients, Farewell(h, p)) == Delivered(clients, Goodbye(id, left.peers, p, h.clients[p].nick))
  {
    DeliveredOne(Left(h, p).clients, Farewell(h, p)[0]);
  }

  // ----- Delivery, one client at a time -----

  lemma DeliveredOne(clients: map<PeerId, ClientRec>, post: Post)
    ensures AllDelivered(clients, [post]) == Delivered(clients, post)
  {
    assert [post][..0] == [];
    assert AllDelivered(clients, [post]) == Delivered(AllDelivered(clients, [post][..0]), post);
  }

  lemma DeliveredLast(clients: map<PeerId, ClientRec>, posts: seq<Post>, post: Post)
    ensures AllDelivered(clients, posts + [post]) == Delivered(AllDelivered(clients, posts), post)
  {
    assert (posts + [post])[..|posts|] == posts;
  }

  /** A nick and a room may be changed before or after delivery. */
  lemma {:induction false} Renaming(clients: map<PeerId, ClientRec>, posts: seq<Post>, p: PeerId, nick: string, roomId: RoomId)
    requires p in clients
    ensures p in AllDelivered(clients, posts)
    ensures var told := AllDelivered(clients, posts);
            Placed(told, p, nick, roomId) == AllDelivered(Placed(clients, p, nick, roomId), posts)
    decreases posts
  {
    if posts != [] {
      Renaming(clients, posts[..|posts| - 1], p, nick, roomId);
    }
  }

  lemma DeliveredAlone(clients: map<PeerId, ClientRec>, p: PeerId, env: Envelope)
    requires p in clients
    ensures Delivered(clients, Post({p}, env)) == clients[p := Push(clients[p], env)]
  {
  }

  lemma DeliveredNone(clients: map<PeerId, ClientRec>, env: Envelope)
    ensures Delivered(clients, Post({}, env)) == clients
  {
  }

  lemma AudienceNone(clients: map<PeerId, ClientRec>, env: Envelope)
    ensures Delivered(clients, Post(Audience({}, env), env)) == clients
  {
  }

  lemma AudienceMore(clients: map<PeerId, ClientRec>, visited: set<PeerId>, p: PeerId, env: Envelope)
    requires p in clients && p !in visited
    ensures var before := Delivered(clients, Post(Audience(visited, env), env));
            Delivered(clients, Post(Audience(visited + {p}, env), env)) ==
              (if p != env.peerId || env.kind == RoomClosed then Delivered(before, Post({p}, env)) else before)
  {
    if p != env.peerId || env.kind == RoomClosed {
      assert Audience(visited + {p}, env) == Audience(visited, env) + {p};
    } else {
      assert Audience(visited + {p}, env) == Audience(visited, env);
    }
  }

  lemma DeliveredMore(clients: map<PeerId, ClientRec>, done: set<PeerId>, p: PeerId, env: Envelope)
    requires p in clients && p !in done
    ensures Delivered(Delivered(clients, Post(done, env)), Post({p}, env)) == Delivered(clients, Post(done + {p}, env))
  {
  }
}
