/**
 * Who is in which room, on every run of the coordinator: rooms hold one to five registered clients,
 * the host among them, and nobody is in two rooms. That a client's room is always on the list is
 * false; the one step that breaks it, and the steps that mend it, are characterised exactly.
 */
module HubSafety {
  import opened Common
  import opened Coordinator

  // ----- Runs -----

  /** Each event is legal where it happens. */
  ghost predicate Run(events: seq<Event>)
    decreases events, 0
  {
    events == [] ||
    (Run(events[..|events| - 1]) &&
     Registered(After(events[..|events| - 1])) &&
     Legal(After(events[..|events| - 1]), events[|events| - 1]))
  }

  /** The coordinator after a run that started empty. */
  ghost function After(events: seq<Event>): State
    requires Run(events)
    decreases events, 1
  {
    if events == [] then EMPTY else Step(After(events[..|events| - 1]), events[|events| - 1])
  }

  // ----- The invariant -----

  predicate RoomSound(h: State, id: RoomId)
    requires id in h.rooms
  {
    var r := h.rooms[id];
    IsRoomId(id) && 1 <= |r.peers| <= MAX_PEERS && r.hostId in r.peers &&
    forall p | p in r.peers :: p in h.clients && h.clients[p].roomId == id
  }

  /** A client names a room or none, and a listed room it names has it among its peers. */
  predicate HomeSound(h: State, p: PeerId)
    requires p in h.clients
  {
    && IsPeerId(p)
    && (h.clients[p].roomId == "" || IsRoomId(h.clients[p].roomId))
    && (h.clients[p].roomId in h.rooms ==> p in h.rooms[h.clients[p].roomId].peers)
  }

  /** Rooms agree with their members, and members of listed rooms with their rooms. */
  predicate Sound(h: State) {
    (forall id | id in h.rooms :: RoomSound(h, id)) && (forall p | p in h.clients :: HomeSound(h, p))
  }

  lemma SoundRegistered(h: State)
    requires Sound(h)
    ensures Registered(h)
  {
    forall id | id in h.rooms ensures h.rooms[id].peers <= h.clients.Keys {
      assert RoomSound(h, id);
    }
  }

  lemma RoomsNamed(h: State)
    requires Sound(h)
    ensures "" !in h.rooms
  {
    assert forall id | id in h.rooms :: RoomSound(h, id);
  }

  /** The room `p` is in, seen after it left. */
  lemma VacatedRoom(h: State, p: PeerId)
    requires Sound(h) && p in h.clients && h.clients[p].roomId in h.rooms
    ensures var r := h.rooms[h.clients[p].roomId];
            match Vacated(r, p, h.clients)
            case None => r.peers == {p}
            case Some(v) => r.peers != {p} && v.peers == r.peers - {p} && v.hostId in v.peers && 1 <= |v.peers| <= MAX_PEERS
  {
    assert RoomSound(h, h.clients[p].roomId) && HomeSound(h, p);
    Shrinks(h.rooms[h.clients[p].roomId].peers, p);
  }

  /** RoomsWithout takes `p` out of the one room it is in, and a room off the list when it was alone there. */
  lemma LeavingRoom(h: State, p: PeerId, id: RoomId)
    requires Sound(h) && p in h.clients
    ensures id in RoomsWithout(h, p) <==> id in h.rooms && h.rooms[id].peers != {p}
    ensures id in RoomsWithout(h, p) ==>
              var r := RoomsWithout(h, p)[id];
              r.peers == h.rooms[id].peers - {p} && r.hostId in r.peers && 1 <= |r.peers| <= MAX_PEERS
  {
    var mine := h.clients[p].roomId;
    assert HomeSound(h, p);
    if mine in h.rooms {
      assert RoomSound(h, mine);
      VacatedRoom(h, p);
    }
    hide Vacated;
    if id in h.rooms && id != mine {
      assert RoomSound(h, id);
      assert p !in h.rooms[id].peers;
    }
  }

  lemma Shrinks(s: set<PeerId>, p: PeerId)
    requires p in s
    ensures |s - {p}| == |s| - 1
    ensures s - {p} == {} <==> s == {p}
  {
    assert s == (s - {p}) + {p};
  }

  /** Everybody but `p` stays; `p` is afterwards in no room, or in `home`. */
  ghost predicate Resettles(h: State, p: PeerId, after: State, home: RoomId) {
    && p in h.clients && IsPeerId(p) && (home == "" || IsRoomId(home))
    && (forall q | q in after.clients && q != p :: q in h.clients && after.clients[q].roomId == h.clients[q].roomId)
    && (forall q | q in h.clients && q != p :: q in after.clients)
    && (p in after.clients ==> after.clients[p].roomId == home)
    && (home != "" ==> p in after.clients)
    && (forall id | id in after.rooms :: RoomKept(h, p, after.rooms[id], id, home))
  }

  ghost predicate RoomKept(h: State, p: PeerId, r: RoomRec, id: RoomId, home: RoomId) {
    && IsRoomId(id) && r.hostId in r.peers && 1 <= |r.peers| <= MAX_PEERS
    && (p in r.peers <==> id == home)
    && (id in h.rooms ==> forall q | q != p :: q in r.peers <==> q in h.rooms[id].peers)
    && (id !in h.rooms ==> (forall q | q != p :: q !in r.peers) && forall q | q in h.clients :: h.clients[q].roomId != id)
  }

  lemma ResettledRoom(h: State, p: PeerId, after: State, home: RoomId, id: RoomId)
    requires Sound(h) && Resettles(h, p, after, home) && id in after.rooms
    ensures RoomSound(after, id)
  {
    assert RoomKept(h, p, after.rooms[id], id, home);
    if id in h.rooms {
      assert RoomSound(h, id);
    }
    hide Sound;
  }

  lemma ResettledHome(h: State, p: PeerId, after: State, home: RoomId, q: PeerId)
    requires Sound(h) && Resettles(h, p, after, home) && q in after.clients
    ensures HomeSound(after, q)
  {
    var id := after.clients[q].roomId;
    if id in after.rooms {
      assert RoomKept(h, p, after.rooms[id], id, home);
    }
    if q != p {
      assert HomeSound(h, q);
    }
    hide Sound;
  }

  lemma Resettled(h: State, p: PeerId, after: State, home: RoomId)
    requires Sound(h) && Resettles(h, p, after, home)
    ensures Sound(after)
  {
    hide Resettles, RoomSound, HomeSound;
    forall id | id in after.rooms {
      ResettledRoom(h, p, after, home, id);
    }
    forall q | q in after.clients {
      ResettledHome(h, p, after, home, q);
    }
  }

  lemma RemovedKept(h: State, p: PeerId, id: RoomId)
    requires Sound(h) && p in h.clients && Registered(h) && id in RoomsWithout(h, p)
    ensures RoomKept(h, p, RoomsWithout(h, p)[id], id, "")
  {
    hide RoomsWithout;
    LeavingRoom(h, p, id);
    assert RoomSound(h, id);
  }

  lemma RemovedSound(h: State, p: PeerId)
    requires Sound(h) && p in h.clients
    ensures Sound(Left(h, p)) && Sound(Removed(h, p))
  {
    hide RoomsWithout, RoomSound, RoomKept;
    SoundRegistered(h);
    assert HomeSound(h, p);
    forall id | id in RoomsWithout(h, p) {
      RemovedKept(h, p, id);
    }
    hide Sound;
    Resettled(h, p, Left(h, p), "");
    Resettled(h, p, Removed(h, p), "");
  }

  lemma CreateKept(h: State, p: PeerId, env: Envelope, newId: RoomId, id: RoomId)
    requires Sound(h) && Legal(h, Message(p, env, newId)) && env.kind == CreateRoom
    requires id in Moved(h, p, env, newId).rooms
    ensures RoomKept(h, p, Moved(h, p, env, newId).rooms[id], id, newId)
  {
    hide RoomsWithout;
    if id != newId {
      LeavingRoom(h, p, id);
      assert RoomSound(h, id);
    }
  }

  lemma CreateSound(h: State, p: PeerId, env: Envelope, newId: RoomId)
    requires Sound(h) && Legal(h, Message(p, env, newId)) && env.kind == CreateRoom
    ensures Sound(Moved(h, p, env, newId))
  {
    hide RoomsWithout, RoomSound, RoomKept;
    SoundRegistered(h);
    assert HomeSound(h, p);
    var after := Moved(h, p, env, newId);
    forall id | id in after.rooms {
      CreateKept(h, p, env, newId, id);
    }
    Resettled(h, p, after, newId);
  }

  /** The rooms a successful join leaves on the list. */
  lemma JoinRooms(h: State, p: PeerId, env: Envelope, newId: RoomId, id: RoomId)
    requires p in h.clients && Registered(h) && env.kind == JoinRoom && JoinFault(h, env.roomId) == NoFault
    requires id in Moved(h, p, env, newId).rooms
    ensures id in RoomsWithout(h, p)
    ensures var left := RoomsWithout(h, p)[id];
            Moved(h, p, env, newId).rooms[id] == if id == env.roomId then left.(peers := left.peers + {p}) else left
    ensures env.roomId in h.rooms && |h.rooms[env.roomId].peers| < MAX_PEERS
  {
    hide RoomsWithout;
  }

  lemma JoinKept(h: State, p: PeerId, env: Envelope, newId: RoomId, id: RoomId)
    requires Sound(h) && p in h.clients && env.kind == JoinRoom && JoinFault(h, env.roomId) == NoFault
    requires id in Moved(h, p, env, newId).rooms
    ensures RoomKept(h, p, Moved(h, p, env, newId).rooms[id], id, env.roomId)
  {
    hide Moved, JoinTarget, RoomsWithout, JoinFault;
    JoinRooms(h, p, env, newId, id);
    LeavingRoom(h, p, id);
    assert RoomSound(h, id);
    if id == env.roomId {
      JoinedSize(h.rooms[id].peers, p);
    }
  }

  lemma JoinSound(h: State, p: PeerId, env: Envelope, newId: RoomId)
    requires Sound(h) && p in h.clients && env.kind == JoinRoom && JoinFault(h, env.roomId) == NoFault
    ensures Sound(Moved(h, p, env, newId))
  {
    assert IsPeerId(p) && IsRoomId(env.roomId) by {
      assert HomeSound(h, p) && RoomSound(h, env.roomId);
    }
    var after := Moved(h, p, env, newId);
    forall id | id in after.rooms ensures RoomKept(h, p, after.rooms[id], id, env.roomId) {
      hide *;
      JoinKept(h, p, env, newId, id);
    }
    hide RoomsWithout, RoomSound, HomeSound, Sound, RoomKept, JoinTarget;
    Resettled(h, p, after, env.roomId);
  }

  lemma JoinedSize(s: set<PeerId>, p: PeerId)
    requires |s| < MAX_PEERS
    ensures 1 <= |s - {p} + {p}| <= MAX_PEERS
  {
    if p in s {
      assert s - {p} + {p} == s;
    } else {
      assert s - {p} == s;
    }
    assert p in s - {p} + {p};
  }

  lemma SoundMove(h: State, e: Event)
    requires Sound(h) && Legal(h, e)
    ensures Sound(MovedBy(h, e))
  {
    match e
    case Connect(id) =>
      var after := MovedBy(h, e);
      forall r | r in after.rooms ensures RoomSound(after, r) {
        assert RoomSound(h, r);
      }
      RoomsNamed(h);
    case Disconnect(id) => RemovedSound(h, id);
    case Message(p, env, newId) =>
      if env.kind == CreateRoom {
        CreateSound(h, p, env, newId);
      } else if env.kind == JoinRoom && JoinFault(h, env.roomId) == NoFault {
        JoinSound(h, p, env, newId);
      } else if env.kind == LeaveRoom {
        RemovedSound(h, p);
      } else {
        SameRooms(h, MovedBy(h, e));
      }
    case Write(id) => SameRooms(h, MovedBy(h, e));
  }

  /** Soundness looks at rooms and at who names which room, not at nicks or queues. */
  lemma SameRooms(h: State, k: State)
    requires Sound(h) && k.rooms == h.rooms && k.clients.Keys == h.clients.Keys
    requires forall p | p in h.clients :: k.clients[p].roomId == h.clients[p].roomId
    ensures Sound(k)
  {
    forall id | id in k.rooms ensures RoomSound(k, id) {
      assert RoomSound(h, id);
    }
    forall p | p in k.clients ensures HomeSound(k, p) {
      assert HomeSound(h, p);
    }
  }

  /** Every legal step keeps the invariant. */
  lemma SoundStep(h: State, e: Event)
    requires Sound(h) && Legal(h, e)
    ensures Sound(Step(h, e))
  {
    SoundMove(h, e);
    var moved := MovedBy(h, e);
    DeliveryKeeps(moved.clients, PostsOf(h, e));
    hide MovedBy, PostsOf;
    SameRooms(moved, Step(h, e));
  }

  /** So every reachable coordinator is sound. */
  lemma {:induction false} SoundRun(events: seq<Event>)
    requires Run(events)
    ensures Sound(After(events))
    decreases events
  {
    if events != [] {
      SoundRun(events[..|events| - 1]);
      SoundStep(After(events[..|events| - 1]), events[|events| - 1]);
    }
  }

  /** On every run a client is in at most one listed room. */
  lemma OneRoomEach(events: seq<Event>, p: PeerId, id: RoomId, id': RoomId)
    requires Run(events)
    requires id in After(events).rooms && id' in After(events).rooms
    requires p in After(events).rooms[id].peers && p in After(events).rooms[id'].peers
    ensures id == id'
  {
    SoundRun(events);
    assert RoomSound(After(events), id) && RoomSound(After(events), id');
  }

  // ----- Dangling room names -----

  /** `p` names a room that is not on the list. */
  predicate Dangling(h: State, p: PeerId) {
    p in h.clients && h.clients[p].roomId != "" && h.clients[p].roomId !in h.rooms
  }

  /** A client joins the room it is the only member of. */
  predicate SoleRejoin(h: State, e: Event) {
    e.Message? && e.env.kind == JoinRoom && e.from in h.clients && h.clients[e.from].roomId == e.env.roomId &&
    e.env.roomId in h.rooms && h.rooms[e.env.roomId].peers == {e.from}
  }

  /** The messages by which a client changes the room it names. */
  predicate Moves(h: State, e: Event, p: PeerId) {
    e.Message? && e.from == p &&
    (e.env.kind == CreateRoom || e.env.kind == LeaveRoom ||
     (e.env.kind == JoinRoom && JoinFault(h, e.env.roomId) == NoFault))
  }

  /** A client dangles after a step exactly when it just rejoined its own room alone, or dangled and did not move. */
  lemma DanglingExactly(h: State, e: Event, p: PeerId)
    requires Sound(h) && Legal(h, e)
    ensures Dangling(Step(h, e), p) <==>
            (SoleRejoin(h, e) && e.from == p) ||
            (Dangling(h, p) && !Moves(h, e, p) && e != Disconnect(p))
  {
    var moved := MovedBy(h, e);
    DeliveryKeeps(moved.clients, PostsOf(h, e));
    assert Dangling(Step(h, e), p) == Dangling(moved, p);
    ListedAfter(h, e);
    NamesAfter(h, e, p);
    forall id | id in h.rooms ensures RoomSound(h, id) {}
    hide MovedBy, PostsOf, RoomsWithout;
  }

  /** The client that is taken out of its room by an event. */
  function Leaver(h: State, e: Event): Option<PeerId> {
    if e.Disconnect? then Some(e.id)
    else if e.Message? && Moves(h, e, e.from) then Some(e.from)
    else None
  }

  /** A room goes off the list exactly when its last member leaves it. */
  lemma ListedAfter(h: State, e: Event)
    requires Sound(h) && Legal(h, e)
    ensures forall id :: id in MovedBy(h, e).rooms <==>
              (e.Message? && e.env.kind == CreateRoom && id == e.newId) ||
              (id in h.rooms && !(Leaver(h, e).Some? && h.rooms[id].peers == {Leaver(h, e).value}))
  {
    hide RoomsWithout, RoomSound, HomeSound;
    SoundRegistered(h);
    forall id
      ensures id in MovedBy(h, e).rooms <==>
              (e.Message? && e.env.kind == CreateRoom && id == e.newId) ||
              (id in h.rooms && !(Leaver(h, e).Some? && h.rooms[id].peers == {Leaver(h, e).value}))
    {
      if Leaver(h, e).Some? {
        LeavingRoom(h, Leaver(h, e).value, id);
      }
    }
  }

  /** What `p` calls its room after a step. */
  lemma NamesAfter(h: State, e: Event, p: PeerId)
    requires Sound(h) && Legal(h, e)
    ensures p in MovedBy(h, e).clients <==> (p in h.clients && e != Disconnect(p)) || e == Connect(p)
    ensures p in MovedBy(h, e).clients ==>
              MovedBy(h, e).clients[p].roomId ==
                if e == Connect(p) then ""
                else if !Moves(h, e, p) then h.clients[p].roomId
                else if e.env.kind == CreateRoom then e.newId
                else if e.env.kind == JoinRoom then e.env.roomId
                else ""
  {
    hide RoomsWithout;
  }

  /** No event of the run is a lone client joining its own room. */
  ghost predicate NoSoleRejoin(events: seq<Event>)
    requires Run(events)
    decreases events
  {
    events == [] ||
    (NoSoleRejoin(events[..|events| - 1]) &&
     !SoleRejoin(After(events[..|events| - 1]), events[|events| - 1]))
  }

  /** Without such an event every client's room is on the list, with the client in it. */
  lemma NobodyDangles(events: seq<Event>, p: PeerId)
    requires Run(events) && NoSoleRejoin(events)
    requires p in After(events).clients && After(events).clients[p].roomId != ""
    ensures After(events).clients[p].roomId in After(events).rooms
    ensures p in After(events).rooms[After(events).clients[p].roomId].peers
  {
    SoundRun(events);
    assert HomeSound(After(events), p);
    NeverDangles(events, p);
  }

  lemma {:induction false} NeverDangles(events: seq<Event>, p: PeerId)
    requires Run(events) && NoSoleRejoin(events)
    ensures !Dangling(After(events), p)
    decreases events
  {
    if events != [] {
      hide Step, Sound;
      var before := events[..|events| - 1];
      NeverDangles(before, p);
      SoundRun(before);
      DanglingExactly(After(before), events[|events| - 1], p);
    }
  }

  /** The excluded event does happen: a client creates a room, joins it again, and names a room nobody lists. */
  lemma DanglingHappens(p: PeerId, id: RoomId) returns (events: seq<Event>)
    requires IsPeerId(p) && IsRoomId(id)
    ensures Run(events) && Dangling(After(events), p)
  {
    var e0 := Connect(p);
    var e1 := Message(p, Bare(CreateRoom), id);
    var e2 := Message(p, Bare(JoinRoom).(roomId := id), "");
    var h1 := Step(EMPTY, e0);
    RunExtends([], e0);
    assert [] + [e0] == [e0];
    RunExtends([e0], e1);
    var two := [e0] + [e1];
    var h2 := Step(h1, e1);
    DeliveryKeeps(MovedBy(h1, e1).clients, PostsOf(h1, e1));
    assert h2.rooms[id].peers == {p} && h2.clients[p].roomId == id;
    RunExtends(two, e2);
    events := two + [e2];
    SoundRun(two);
    DanglingExactly(h2, e2, p);
  }

  /** Legality is all a run asks of its next event. */
  lemma RunExtends(events: seq<Event>, e: Event)
    requires Run(events) && Legal(After(events), e)
    ensures Registered(After(events))
    ensures Run(events + [e]) && After(events + [e]) == Step(After(events), e)
  {
    SoundRun(events);
    SoundRegistered(After(events));
    assert (events + [e])[..|events|] == events;
  }

  // ----- Hosts -----

  lemma HostWithout(h: State, p: PeerId, id: RoomId)
    requires Sound(h) && p in h.clients && id in h.rooms && h.rooms[id].peers != {p}
    ensures id in RoomsWithout(h, p)
    ensures var r := h.rooms[id];
            var left := r.peers - {p};
            && left != {} && Least(left) in h.clients
            && RoomsWithout(h, p)[id].hostId == (if r.hostId == p then Least(left) else r.hostId)
            && RoomsWithout(h, p)[id].hostNick == if r.hostId == p then h.clients[Least(left)].nick else r.hostNick
  {
    assert RoomSound(h, id);
    LeavingRoom(h, p, id);
  }

  /** A room keeps its host until the host leaves it; then the smallest remaining id takes over, with its nick. */
  lemma HostSuccession(h: State, e: Event, id: RoomId)
    requires Sound(h) && Legal(h, e) && id in h.rooms && id in Step(h, e).rooms
    ensures var r := h.rooms[id];
            var left := r.peers - {r.hostId};
            if Leaver(h, e) == Some(r.hostId) then
              && left != {} && Least(left) in h.clients
              && Step(h, e).rooms[id].hostId == Least(left) && Step(h, e).rooms[id].hostNick == h.clients[Least(left)].nick
            else
              Step(h, e).rooms[id].hostId == r.hostId && Step(h, e).rooms[id].hostNick == r.hostNick
  {
    hide RoomsWithout, AllDelivered, PostsOf, Vacated, RoomSound;
    SoundRegistered(h);
    ListedAfter(h, e);
    if Leaver(h, e).Some? {
      HostWithout(h, Leaver(h, e).value, id);
    }
  }
}
