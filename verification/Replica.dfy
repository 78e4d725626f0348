/**
 * The client's picture of its room. A client learns who is with it only from the messages in its
 * queue; once it has handled them all it knows exactly the coordinator's list, whatever happened
 * meanwhile, provided it entered one room, could read that room's members, and lost no message since.
 */
module Replica {
  import opened Common
  import opened Coordinator
  import opened HubSafety
  import opened Delivery
  import opened ServerMessage
  import JsonFields
  import JsonText

  // ----- Handling messages -----

  /** The peers a session knows after handling a message, as handleSignalingEvent does. */
  function Apply(known: set<PeerId>, env: Envelope, self: PeerId): set<PeerId> {
    match env.kind
    case JoinedRoom =>
      if env.room.Some? && Readable(env.room.value) then known + (env.room.value.peers - {self, ""}) else known
    case PeerStatus | PeerJoined => known + ({env.peerId} - {self, ""})
    case PeerLeft => known - ({env.peerId} - {""})
    case RoomClosed => {}
    case _ => known
  }

  function ApplyAll(known: set<PeerId>, envs: seq<Envelope>, self: PeerId): set<PeerId>
    decreases envs
  {
    if envs == [] then known else ApplyAll(Apply(known, envs[0], self), envs[1..], self)
  }

  lemma {:induction false} ApplyConcat(known: set<PeerId>, a: seq<Envelope>, b: seq<Envelope>, self: PeerId)
    ensures ApplyAll(known, a + b, self) == ApplyAll(ApplyAll(known, a, self), b, self)
    decreases a
  {
    if a == [] {
      assert a + b == b;
    } else {
      assert (a + b)[1..] == a[1..] + b;
      ApplyConcat(Apply(known, a[0], self), a[1..], b, self);
    }
  }

  /** The effect on `q` of being posted to. */
  function Told(known: set<PeerId>, posts: seq<Post>, q: PeerId): set<PeerId> {
    ApplyAll(known, Offers(posts, q), q)
  }

  lemma ToldConcat(known: set<PeerId>, a: seq<Post>, b: seq<Post>, q: PeerId)
    ensures Told(known, a + b, q) == Told(Told(known, a, q), b, q)
  {
    OffersConcat(a, b, q);
    ApplyConcat(known, Offers(a, q), Offers(b, q), q);
  }

  lemma ToldNothing(known: set<PeerId>, q: PeerId)
    ensures Told(known, [], q) == known
  {
  }

  lemma ToldOne(known: set<PeerId>, post: Post, q: PeerId)
    ensures Told(known, [post], q) == if q in post.to then Apply(known, post.env, q) else known
  {
    assert [post][..0] == [];
    assert Offers([post], q) == if q in post.to then [post.env] else [];
    assert ApplyAll(known, [post.env], q) == ApplyAll(Apply(known, post.env, q), [post.env][1..], q);
    assert ApplyAll(Apply(known, post.env, q), [], q) == Apply(known, post.env, q);
  }

  lemma ToldTwo(known: set<PeerId>, a: Post, b: Post, q: PeerId)
    ensures Told(known, [a, b], q) == Told(Told(known, [a], q), [b], q)
  {
    assert [a] + [b] == [a, b];
    ToldConcat(known, [a], [b], q);
  }

  lemma ToldThree(known: set<PeerId>, a: Post, b: Post, c: Post, q: PeerId)
    ensures Told(known, [a, b, c], q) == Told(Told(Told(known, [a], q), [b], q), [c], q)
  {
    assert [a, b] + [c] == [a, b, c];
    ToldConcat(known, [a, b], [c], q);
    ToldTwo(known, a, b, q);
  }

  // ----- What each operation tells a client -----

  /** A departure removes the leaver from the picture of those it leaves behind. */
  lemma FarewellTold(h: State, p: PeerId, q: PeerId, known: set<PeerId>)
    requires Sound(h) && p in h.clients && q in h.clients
    ensures Told(known, Farewell(h, p), q)
         == if q != p && SameRoom(h, p, q) && h.clients[p].roomId in h.rooms then known - {p} else known
  {
    var id := h.clients[p].roomId;
    assert HomeSound(h, p) && HomeSound(h, q);
    ToldNothing(known, q);
    if id in h.rooms {
      assert RoomSound(h, id);
      assert Farewell(h, p) == [Farewell(h, p)[0]];
      ToldOne(known, Farewell(h, p)[0], q);
    }
  }

  lemma RoomsTold(known: set<PeerId>, post: Post, q: PeerId)
    requires post.env.kind == Rooms
    ensures Told(known, [post], q) == known
  {
    ToldOne(known, post, q);
  }

  /** The newcomer can read the member list it is sent. */
  ghost predicate Shown(h: State, p: PeerId, roomId: RoomId)
    requires p in h.clients && Registered(h) && roomId in h.rooms
  {
    Readable(SnapshotOf(roomId, JoinTarget(h, p, roomId), true))
  }

  ghost function Arrival(h: State, p: PeerId, env: Envelope): Post
    requires p in h.clients && Registered(h) && env.roomId in h.rooms
  {
    Post(JoinTarget(h, p, env.roomId).peers - {p},
         Coordinator.Bare(PeerJoined).(roomId := env.roomId, peerId := p, nick := Renamed(h.clients[p].nick, env),
                                       payload := env.payload))
  }

  lemma JoinableListed(h: State, roomId: RoomId)
    ensures JoinFault(h, roomId) == NoFault ==> roomId in h.rooms
  {
  }

  lemma JoinPosts(h: State, p: PeerId, env: Envelope, newId: RoomId) returns (rooms: Post)
    requires Registered(h) && p in h.clients && env.kind == JoinRoom && JoinFault(h, env.roomId) == NoFault
    ensures rooms.env.kind == Rooms
    ensures Posts(h, p, env, newId) == Farewell(h, p) + [Post({p}, Welcome(h, p, env.roomId)), Arrival(h, p, env), rooms]
  {
    hide RoomsWithout, Farewell, JoinTarget, RoomList;
    var after := Moved(h, p, env, newId);
    rooms := Post(after.clients.Keys, RoomList(after.rooms));
    RoomListKind(after.rooms);
  }

  lemma WelcomeTold(h: State, p: PeerId, roomId: RoomId, q: PeerId, known: set<PeerId>)
    requires p in h.clients && Registered(h) && roomId in h.rooms
    ensures Told(known, [Post({p}, Welcome(h, p, roomId))], q)
         == if q == p && Shown(h, p, roomId) then known + (JoinTarget(h, p, roomId).peers - {p, ""}) else known
  {
    hide JoinTarget, Told, Readable, Registered;
    ToldOne(known, Post({p}, Welcome(h, p, roomId)), q);
  }

  lemma ArrivalTold(h: State, p: PeerId, env: Envelope, q: PeerId, known: set<PeerId>)
    requires p in h.clients && Registered(h) && env.roomId in h.rooms && p != ""
    ensures Told(known, [Arrival(h, p, env)], q)
         == if q != p && q in JoinTarget(h, p, env.roomId).peers then known + {p} else known
  {
    hide JoinTarget, Told, Registered;
    ToldOne(known, Arrival(h, p, env), q);
  }

  /** A successful join: the newcomer learns the whole room if it can read the list, the others learn the newcomer. */
  lemma JoinTold(h: State, p: PeerId, env: Envelope, newId: RoomId, q: PeerId, known: set<PeerId>)
    requires Sound(h) && Registered(h) && p in h.clients && q in h.clients
    requires env.kind == JoinRoom && JoinFault(h, env.roomId) == NoFault
    ensures var peers := JoinTarget(h, p, env.roomId).peers;
            var known' := Told(known, Farewell(h, p), q);
            Told(known, Posts(h, p, env, newId), q) ==
              (if q == p then known' + (if Shown(h, p, env.roomId) then peers - {p, ""} else {})
               else if q in peers then known' + {p} else known')
  {
    hide *;
    NamedClients(h, p);
    JoinableListed(h, env.roomId);
    var rooms := JoinPosts(h, p, env, newId);
    var joined, arrived := Post({p}, Welcome(h, p, env.roomId)), Arrival(h, p, env);
    var known' := Told(known, Farewell(h, p), q);
    ToldConcat(known, Farewell(h, p), [joined, arrived, rooms], q);
    ToldThree(known', joined, arrived, rooms, q);
    WelcomeTold(h, p, env.roomId, q, known');
    ArrivalTold(h, p, env, q, Told(known', [joined], q));
    RoomsTold(Told(Told(known', [joined], q), [arrived], q), rooms, q);
  }

  lemma NamedClients(h: State, p: PeerId)
    requires Sound(h) && p in h.clients
    ensures p != ""
  {
    assert HomeSound(h, p);
  }

  lemma CreateTold(h: State, p: PeerId, env: Envelope, newId: RoomId, q: PeerId, known: set<PeerId>)
    requires Sound(h) && Registered(h) && p in h.clients && env.kind == CreateRoom
    ensures Told(known, Posts(h, p, env, newId), q) == Told(known, Farewell(h, p), q)
  {
    hide RoomsWithout, Farewell, Told, RoomList;
    var created := Post({p}, Bare(RoomCreated).(roomId := newId,
                                                room := Some(SnapshotOf(newId, NewRoom(h, p, env), true))));
    var after := Moved(h, p, env, newId);
    var rooms := Post(after.clients.Keys, RoomList(after.rooms));
    assert Posts(h, p, env, newId) == Farewell(h, p) + [created, rooms];
    var known' := Told(known, Farewell(h, p), q);
    ToldConcat(known, Farewell(h, p), [created, rooms], q);
    ToldTwo(known', created, rooms, q);
    ToldOne(known', created, q);
    RoomListKind(after.rooms);
    RoomsTold(Told(known', [created], q), rooms, q);
  }

  /** Leaving by request or by disconnecting. */
  lemma LeaveTold(h: State, e: Event, q: PeerId, known: set<PeerId>)
    requires Sound(h) && Registered(h) && Legal(h, e) && q in h.clients
    requires e.Disconnect? || (e.Message? && e.env.kind == LeaveRoom)
    ensures Told(known, PostsOf(h, e), q) == Told(known, Farewell(h, if e.Disconnect? then e.id else e.from), q)
  {
    hide RoomsWithout, Told, RoomList;
    var p := if e.Disconnect? then e.id else e.from;
    var after := MovedBy(h, e);
    var rooms := Post(after.clients.Keys, RoomList(after.rooms));
    var known' := Told(known, Farewell(h, p), q);
    ToldConcat(known, Farewell(h, p), [rooms], q);
    RoomListKind(after.rooms);
    RoomsTold(known', rooms, q);
    if PostsOf(h, e) != [] {
      assert PostsOf(h, e) == Farewell(h, p) + [rooms];
    }
  }

  /** The sender of an event shows itself to `q`: it sends its status to the listed room they share. */
  predicate Appears(h: State, e: Event, q: PeerId) {
    e.Message? && e.env.kind == PeerStatus && e.from != q && SameRoom(h, e.from, q) && h.clients[q].roomId in h.rooms
  }

  /** Relays and replies: only a status changes a picture, and it adds its sender. */
  lemma RelayTold(h: State, e: Event, q: PeerId, known: set<PeerId>)
    requires Sound(h) && Registered(h) && Legal(h, e) && q in h.clients
    requires !e.Disconnect? && !(e.Message? && Moves(h, e, e.from))
    ensures Told(known, PostsOf(h, e), q) == if Appears(h, e, q) then known + {e.from} else known
  {
    hide Told, Sound, Registered, SameRoom, PostsOf;
    ToldNothing(known, q);
    if !e.Message? {
      NoPosts(h, e);
    } else if e.env.kind == Hello {
      HelloTold(h, e, q, known);
    } else if IsStatus(e.env.kind) {
      StatusTold(h, e, q, known);
    } else {
      AnswerTold(h, e, q, known);
    }
  }

  lemma NoPosts(h: State, e: Event)
    requires Registered(h) && Legal(h, e) && !e.Message? && !e.Disconnect?
    ensures PostsOf(h, e) == []
  {
  }

  /** A single message that changes no picture, or none. */
  lemma AnswerTold(h: State, e: Event, q: PeerId, known: set<PeerId>)
    requires Registered(h) && Legal(h, e) && e.Message? && !Moves(h, e, e.from)
    requires e.env.kind != Hello && !IsStatus(e.env.kind)
    ensures Told(known, PostsOf(h, e), q) == known
  {
    hide RoomList, Told, Registered, Readable;
    RoomListKind(h.rooms);
    ToldNothing(known, q);
    var posts := PostsOf(h, e);
    assert |posts| <= 1 && (posts != [] ==> !ChangesPicture(posts[0].env.kind));
    if posts != [] {
      assert posts == [posts[0]];
      hide PostsOf;
      ToldOne(known, posts[0], q);
    }
  }

  lemma HelloTold(h: State, e: Event, q: PeerId, known: set<PeerId>)
    requires Registered(h) && Legal(h, e) && e.Message? && e.env.kind == Hello
    ensures Told(known, PostsOf(h, e), q) == known
  {
    hide RoomList, Told, Readable;
    RoomListKind(h.rooms);
    var posts := PostsOf(h, e);
    ToldTwo(known, posts[0], posts[1], q);
    ToldOne(known, posts[0], q);
    ToldOne(known, posts[1], q);
  }

  lemma StatusTold(h: State, e: Event, q: PeerId, known: set<PeerId>)
    requires Sound(h) && Registered(h) && Legal(h, e) && q in h.clients && e.Message? && IsStatus(e.env.kind)
    ensures Told(known, PostsOf(h, e), q) == if Appears(h, e, q) then known + {e.from} else known
  {
    hide Told, Readable;
    var r := h.clients[e.from].roomId;
    assert r in h.rooms ==> RoomSound(h, r);
    assert HomeSound(h, e.from) && HomeSound(h, q);
    hide Sound, IsPeerId, IsRoomId;
    ToldNothing(known, q);
    if r in h.rooms {
      var post := Post(h.rooms[r].peers - {e.from}, Stamped(h.clients[e.from], e.from, e.env));
      assert PostsOf(h, e) == [post];
      ToldOne(known, post, q);
    }
  }

  // ----- What each operation makes true -----

  /** The members of the listed room `q` is in, without `q`. */
  function Others(h: State, q: PeerId): set<PeerId>
    requires q in h.clients
  {
    if h.clients[q].roomId in h.rooms then h.rooms[h.clients[q].roomId].peers - {q} else {}
  }

  /** `q` enters a room other than the one it names. */
  predicate Enters(h: State, e: Event, q: PeerId) {
    q in h.clients && e.Message? && e.from == q &&
    (e.env.kind == CreateRoom ||
     (e.env.kind == JoinRoom && JoinFault(h, e.env.roomId) == NoFault && e.env.roomId != h.clients[q].roomId))
  }

  /** The leaver of an event is gone from everybody else's company, and nobody else is, before anyone is added. */
  lemma OthersWithout(h: State, p: PeerId, q: PeerId)
    requires Sound(h) && Registered(h) && p in h.clients && q in h.clients && q != p
    ensures var id := h.clients[q].roomId;
            (id in RoomsWithout(h, p) <==> id in h.rooms) &&
            (id in h.rooms ==> RoomsWithout(h, p)[id].peers - {q} == Others(h, q) - {p}) &&
            (id in h.rooms && !SameRoom(h, p, q) ==> p !in Others(h, q))
  {
    hide RoomsWithout;
    var id := h.clients[q].roomId;
    if id in h.rooms {
      assert HomeSound(h, q) && RoomSound(h, id);
      LeavingRoom(h, p, id);
    } else {
      LeavingRoom(h, p, id);
    }
  }

  /**
   * The members of its room that `q` has not been told of. Those of a room it enters without being able to read
   * the list, until they show themselves by a status, leave, or are shown by a list it can read.
   */
  ghost function Missed(h: State, missed: set<PeerId>, e: Event, q: PeerId): set<PeerId>
    requires Registered(h) && Legal(h, e) && q in h.clients
  {
    if e.Disconnect? then missed - {e.id}
    else if !e.Message? then missed
    else if e.from != q then (if Moves(h, e, e.from) || e.env.kind == PeerStatus then missed - {e.from} else missed)
    else if !Moves(h, e, q) then missed
    else if e.env.kind == JoinRoom && !Shown(h, q, e.env.roomId) then
      (if Enters(h, e, q) then JoinTarget(h, q, e.env.roomId).peers - {q} else missed)
    else {}
  }

  /** A departure told is a departure made. */
  lemma DepartureAgrees(h: State, e: Event, q: PeerId, m: set<PeerId>)
    requires Sound(h) && Registered(h) && Legal(h, e) && q in h.clients
    requires (e.Disconnect? && e.id != q) || (e.Message? && e.from != q && (e.env.kind == LeaveRoom || e.env.kind == CreateRoom))
    ensures q in MovedBy(h, e).clients
    ensures Told(Others(h, q) - m, PostsOf(h, e), q) == Others(MovedBy(h, e), q) - Missed(h, m, e, q)
  {
    hide RoomsWithout, Told, Posts, RemovalPosts, Farewell, Sound;
    var p := if e.Disconnect? then e.id else e.from;
    OthersWithout(h, p, q);
    FarewellTold(h, p, q, Others(h, q) - m);
    if e.Message? && e.env.kind == CreateRoom {
      CreateTold(h, p, e.env, e.newId, q, Others(h, q) - m);
    } else {
      LeaveTold(h, e, q, Others(h, q) - m);
    }
  }

  lemma JoinAgrees(h: State, e: Event, q: PeerId, m: set<PeerId>)
    requires Sound(h) && Registered(h) && Legal(h, e) && q in h.clients
    requires e.Message? && e.from != q && e.env.kind == JoinRoom && JoinFault(h, e.env.roomId) == NoFault
    ensures q in MovedBy(h, e).clients
    ensures Told(Others(h, q) - m, PostsOf(h, e), q) == Others(MovedBy(h, e), q) - Missed(h, m, e, q)
  {
    hide RoomsWithout, Told, Posts, Farewell, Sound;
    var p := e.from;
    OthersWithout(h, p, q);
    FarewellTold(h, p, q, Others(h, q) - m);
    JoinTold(h, p, e.env, e.newId, q, Others(h, q) - m);
    TargetPeers(h, p, e.env.roomId, q);
  }

  /** The room a join works on holds exactly those who name it, and the newcomer. */
  lemma TargetPeers(h: State, p: PeerId, id: RoomId, q: PeerId)
    requires Sound(h) && Registered(h) && p in h.clients && id in h.rooms && q in h.clients
    ensures JoinTarget(h, p, id).peers == h.rooms[id].peers + {p}
    ensures q in JoinTarget(h, p, id).peers <==> q == p || h.clients[q].roomId == id
    ensures "" !in JoinTarget(h, p, id).peers
  {
    hide RoomsWithout;
    LeavingRoom(h, p, id);
    assert RoomSound(h, id) && HomeSound(h, q) && HomeSound(h, p);
    forall x | x in h.rooms[id].peers ensures x != "" {
      assert HomeSound(h, x);
    }
  }

  lemma RelayAgrees(h: State, e: Event, q: PeerId, m: set<PeerId>)
    requires Sound(h) && Registered(h) && Legal(h, e) && q in h.clients
    requires !e.Disconnect? && !(e.Message? && Moves(h, e, e.from))
    ensures q in MovedBy(h, e).clients
    ensures Told(Others(h, q) - m, PostsOf(h, e), q) == Others(MovedBy(h, e), q) - Missed(h, m, e, q)
  {
    RelayTold(h, e, q, Others(h, q) - m);
    if e.Message? && h.clients[q].roomId in h.rooms {
      assert RoomSound(h, h.clients[q].roomId);
      assert HomeSound(h, e.from);
    }
    hide Told, PostsOf, Sound, IsPeerId, IsRoomId;
  }

  /** Entering adds the whole new company to the picture if the list can be read, and forgets nobody. */
  lemma EntryTold(h: State, e: Event, q: PeerId, known: set<PeerId>)
    requires Sound(h) && Registered(h) && Legal(h, e) && e.Message? && e.from == q && q in h.clients
    requires Enters(h, e, q) || (e.env.kind == JoinRoom && JoinFault(h, e.env.roomId) == NoFault && !SoleRejoin(h, e))
    ensures q in MovedBy(h, e).clients
    ensures Told(known, PostsOf(h, e), q)
         == known + if e.env.kind == CreateRoom || Shown(h, q, e.env.roomId) then Others(MovedBy(h, e), q) else {}
    ensures Others(MovedBy(h, e), q)
         == if e.env.kind == CreateRoom then {} else JoinTarget(h, q, e.env.roomId).peers - {q}
  {
    hide RoomsWithout, Told, Posts, Farewell, Shown, JoinTarget, Sound, Registered;
    if e.env.kind == CreateRoom {
      FarewellTold(h, q, q, known);
      CreateTold(h, q, e.env, e.newId, q, known);
    } else {
      JoinableListed(h, e.env.roomId);
      JoinEntryTold(h, q, e.env, e.newId, known);
      JoinEntryOthers(h, e, q);
    }
  }

  lemma JoinEntryTold(h: State, q: PeerId, env: Envelope, newId: RoomId, known: set<PeerId>)
    requires Sound(h) && Registered(h) && q in h.clients && env.kind == JoinRoom && JoinFault(h, env.roomId) == NoFault
    requires env.roomId in h.rooms
    ensures Told(known, Posts(h, q, env, newId), q)
         == known + if Shown(h, q, env.roomId) then JoinTarget(h, q, env.roomId).peers - {q} else {}
  {
    hide *;
    FarewellTold(h, q, q, known);
    JoinTold(h, q, env, newId, q, known);
    TargetPeers(h, q, env.roomId, q);
    var peers := JoinTarget(h, q, env.roomId).peers;
    assert peers - {q, ""} == peers - {q};
    assert known + {} == known;
  }

  lemma JoinEntryOthers(h: State, e: Event, q: PeerId)
    requires Sound(h) && Registered(h) && Legal(h, e) && e.Message? && e.from == q && e.env.kind == JoinRoom
    requires JoinFault(h, e.env.roomId) == NoFault && e.env.roomId in h.rooms && !SoleRejoin(h, e)
    ensures q in MovedBy(h, e).clients && Others(MovedBy(h, e), q) == JoinTarget(h, q, e.env.roomId).peers - {q}
  {
    hide RoomsWithout, Registered;
    var id := e.env.roomId;
    TargetPeers(h, q, id, q);
    LeavingRoom(h, q, id);
    assert RoomSound(h, id);
    hide Sound;
  }

  /** Told of a step, a client that did not go elsewhere knows its company again, less what it missed. */
  lemma StepAgrees(h: State, e: Event, q: PeerId, m: set<PeerId>)
    requires Sound(h) && Registered(h) && Legal(h, e) && q in h.clients && e != Disconnect(q) && !Enters(h, e, q)
    requires h.clients[q].roomId in h.rooms || h.clients[q].roomId == ""
    ensures q in MovedBy(h, e).clients
    ensures MovedBy(h, e).clients[q].roomId == h.clients[q].roomId || MovedBy(h, e).clients[q].roomId == ""
    ensures MovedBy(h, e).clients[q].roomId == h.clients[q].roomId && !(SoleRejoin(h, e) && e.from == q)
        ==> Told(Others(h, q) - m, PostsOf(h, e), q) == Others(MovedBy(h, e), q) - Missed(h, m, e, q)
  {
    hide RoomsWithout, Told, PostsOf, MovedBy, Sound, Missed;
    NamesAfter(h, e, q);
    if e.Disconnect? {
      DepartureAgrees(h, e, q, m);
    } else if e.Message? && Moves(h, e, e.from) {
      if e.from == q {
        if !SoleRejoin(h, e) {
          OwnMoveAgrees(h, e, q, m);
        }
      } else if e.env.kind == JoinRoom {
        JoinAgrees(h, e, q, m);
      } else {
        DepartureAgrees(h, e, q, m);
      }
    } else {
      RelayAgrees(h, e, q, m);
    }
  }

  lemma OwnMoveAgrees(h: State, e: Event, q: PeerId, m: set<PeerId>)
    requires Sound(h) && Registered(h) && Legal(h, e) && q in h.clients && e.Message? && e.from == q
    requires Moves(h, e, q) && !Enters(h, e, q) && !SoleRejoin(h, e)
    ensures q in MovedBy(h, e).clients
    ensures MovedBy(h, e).clients[q].roomId == h.clients[q].roomId
        ==> Told(Others(h, q) - m, PostsOf(h, e), q) == Others(MovedBy(h, e), q) - Missed(h, m, e, q)
  {
    hide RoomsWithout, Told, Posts, Farewell, Shown;
    var known := Others(h, q) - m;
    if e.env.kind == JoinRoom {
      EntryTold(h, e, q, known);
      TargetPeers(h, q, e.env.roomId, q);
      assert HomeSound(h, q);
    } else {
      LeaveTold(h, e, q, known);
      FarewellTold(h, q, q, known);
      RoomsNamed(h);
      LeavingRoom(h, q, "");
    }
  }

  // ----- A client roomless so far -----

  predicate ChangesPicture(kind: Kind) {
    kind == JoinedRoom || kind == PeerStatus || kind == PeerJoined || kind == PeerLeft || kind == RoomClosed
  }

  lemma {:induction false} HarmlessAll(known: set<PeerId>, envs: seq<Envelope>, self: PeerId)
    requires forall i | 0 <= i < |envs| :: !ChangesPicture(envs[i].kind)
    ensures ApplyAll(known, envs, self) == known
    decreases envs
  {
    if envs != [] {
      assert !ChangesPicture(envs[0].kind);
      HarmlessAll(known, envs[1..], self);
    }
  }

  /** A client that is in no room and does not enter one hears nothing about members. */
  lemma RoomlessHearsNothing(h: State, e: Event, q: PeerId, i: nat)
    requires Sound(h) && Registered(h) && Legal(h, e) && q in h.clients && h.clients[q].roomId == ""
    requires !Enters(h, e, q) && i < |Offered(h, e, q)|
    ensures !ChangesPicture(Offered(h, e, q)[i].kind)
  {
    hide MovedBy, PostsOf;
    OfferedProper(h, e, q, i);
    NamesAfter(h, e, q);
    RoomsNamed(h);
  }

  // ----- Coordinator and client together -----

  /**
   * The client end for `q`: messages received and not yet handled, the peers its session knows, whether the
   * session is open, how often it entered a room, how many messages had been dropped before it last did, and the members it was not told of.
   */
  datatype Link = Link(open: bool, known: set<PeerId>, inbox: seq<Envelope>, entries: nat, baseline: nat, missed: set<PeerId>)

  datatype Sys = Sys(hub: State, link: Link)

  datatype SysEvent =
    | Hub(event: Event)
    | Open    // the client's own joinRoom or createRoom clears the session before its first pump
    | Handle  // one event of the client's pump

  const NEW_LINK := Link(false, {}, [], 0, 0, {})

  ghost predicate SysLegal(s: Sys, q: PeerId, e: SysEvent) {
    match e
    case Hub(event) => Registered(s.hub) && Legal(s.hub, event)
    case Open => !s.link.open
    case Handle => s.link.open && s.link.inbox != []
  }

  ghost function LinkStep(s: Sys, q: PeerId, e: Event): Link
    requires Registered(s.hub) && Legal(s.hub, e)
  {
    if e == Connect(q) then NEW_LINK
    else if q !in s.hub.clients then s.link
    else
      var link := s.link.(missed := Missed(s.hub, s.link.missed, e, q));
      if e == Write(q) then link.(inbox := link.inbox + [s.hub.clients[q].queue[0]])
      else if Enters(s.hub, e, q) then link.(entries := link.entries + 1, baseline := s.hub.clients[q].dropped)
      else link
  }

  ghost function SysStep(s: Sys, q: PeerId, e: SysEvent): Sys
    requires SysLegal(s, q, e)
  {
    match e
    case Hub(event) => Sys(Step(s.hub, event), LinkStep(s, q, event))
    case Open => s.(link := s.link.(open := true, known := {}))
    case Handle => s.(link := s.link.(known := Apply(s.link.known, s.link.inbox[0], q), inbox := s.link.inbox[1..]))
  }

  ghost predicate SysRun(events: seq<SysEvent>, q: PeerId)
    decreases events, 0
  {
    events == [] ||
    (SysRun(events[..|events| - 1], q) && SysLegal(SysAfter(events[..|events| - 1], q), q, events[|events| - 1]))
  }

  ghost function SysAfter(events: seq<SysEvent>, q: PeerId): Sys
    requires SysRun(events, q)
    decreases events, 1
  {
    if events == [] then Sys(EMPTY, NEW_LINK) else SysStep(SysAfter(events[..|events| - 1], q), q, events[|events| - 1])
  }

  /** What the client will know once it has handled everything under way to it. */
  function Eventually(s: Sys, q: PeerId): set<PeerId>
    requires q in s.hub.clients
  {
    ApplyAll(s.link.known, s.link.inbox + s.hub.clients[q].queue, q)
  }

  /** Nothing for `q` was dropped since it last entered a room. */
  predicate NothingLost(s: Sys, q: PeerId)
    requires q in s.hub.clients
  {
    s.hub.clients[q].dropped == s.link.baseline
  }

  ghost predicate Faithful(s: Sys, q: PeerId) {
    && Sound(s.hub)
    && (!s.link.open ==> s.link.known == {})
    && (q in s.hub.clients ==>
          var c := s.hub.clients[q];
          && |c.queue| <= QUEUE_LENGTH && c.dropped >= s.link.baseline
          && (s.link.entries == 0 ==> c.roomId == "" && Eventually(s, q) == {})
          && (s.link.entries == 1 && NothingLost(s, q) && c.roomId in s.hub.rooms
              ==> Eventually(s, q) == Others(s.hub, q) - s.link.missed))
  }

  /** How a coordinator step changes what the client will eventually know. */
  lemma EventuallyStep(s: Sys, q: PeerId, e: Event) returns (taken: seq<Envelope>)
    requires SysLegal(s, q, Hub(e)) && q in s.hub.clients && e != Disconnect(q) && |s.hub.clients[q].queue| <= QUEUE_LENGTH
    ensures q in Step(s.hub, e).clients && |Step(s.hub, e).clients[q].queue| <= QUEUE_LENGTH
    ensures taken <= Offered(s.hub, e, q)
    ensures Step(s.hub, e).clients[q].dropped == s.hub.clients[q].dropped + |Offered(s.hub, e, q)| - |taken|
    ensures Eventually(SysStep(s, q, Hub(e)), q) == ApplyAll(Eventually(s, q), taken, q)
  {
    hide PostsOf, MovedBy, Step;
    QueueStep(s.hub, e, q);
    var c := s.hub.clients[q];
    var before := if e == Write(q) then c.queue[1..] else c.queue;
    var offer := Offered(s.hub, e, q);
    taken := offer[..Min(|offer|, QUEUE_LENGTH - |before|)];
    var t := SysStep(s, q, Hub(e));
    assert t.link.inbox + t.hub.clients[q].queue == s.link.inbox + c.queue + taken by {
      if e == Write(q) {
        assert c.queue == [c.queue[0]] + c.queue[1..];
      }
    }
    ApplyConcat(s.link.known, s.link.inbox + c.queue, taken, q);
  }

  /** A client that has entered no room. */
  lemma RoomlessStep(s: Sys, q: PeerId, e: Event)
    requires Faithful(s, q) && SysLegal(s, q, Hub(e)) && q in s.hub.clients && e != Disconnect(q)
    requires s.link.entries == 0 && !Enters(s.hub, e, q)
    ensures q in Step(s.hub, e).clients && Step(s.hub, e).clients[q].roomId == ""
    ensures Eventually(SysStep(s, q, Hub(e)), q) == {}
  {
    hide PostsOf, MovedBy, RoomsWithout;
    var taken := EventuallyStep(s, q, e);
    forall i | 0 <= i < |taken| ensures !ChangesPicture(taken[i].kind) {
      RoomlessHearsNothing(s.hub, e, q, i);
    }
    HarmlessAll(Eventually(s, q), taken, q);
    NamesAfter(s.hub, e, q);
    RoomsNamed(s.hub);
    DeliveryKeeps(MovedBy(s.hub, e).clients, PostsOf(s.hub, e));
  }

  /** A client in its one room, nothing lost, whatever the step is. */
  lemma MemberStep(s: Sys, q: PeerId, e: Event)
    requires Faithful(s, q) && SysLegal(s, q, Hub(e)) && q in s.hub.clients && e != Disconnect(q)
    requires s.link.entries == (if Enters(s.hub, e, q) then 0 else 1)
    ensures var t := SysStep(s, q, Hub(e));
            q in t.hub.clients &&
            (NothingLost(t, q) && t.hub.clients[q].roomId in t.hub.rooms
             ==> Eventually(t, q) == Others(t.hub, q) - t.link.missed)
  {
    hide PostsOf, MovedBy, RoomsWithout, Eventually, Dangling, Shown, Missed;
    var h := s.hub;
    var t := SysStep(s, q, Hub(e));
    var taken := EventuallyStep(s, q, e);
    var moved := MovedBy(h, e);
    DeliveryKeeps(moved.clients, PostsOf(h, e));
    assert t.hub.rooms == moved.rooms && t.hub.clients[q].roomId == moved.clients[q].roomId;
    if NothingLost(t, q) && t.hub.clients[q].roomId in t.hub.rooms {
      assert taken == Offered(h, e, q);
      if Enters(h, e, q) {
        EntryTold(h, e, q, {});
        EntryMissed(h, e, q, s.link.missed);
      } else {
        StillListed(h, e, q);
        StepAgrees(h, e, q, s.link.missed);
      }
    }
  }

  lemma EntryMissed(h: State, e: Event, q: PeerId, m: set<PeerId>)
    requires Registered(h) && Legal(h, e) && Enters(h, e, q)
    ensures Missed(h, m, e, q)
         == if e.env.kind == CreateRoom || Shown(h, q, e.env.roomId) then {} else JoinTarget(h, q, e.env.roomId).peers - {q}
  {
  }

  /** A listed room that `q` names after a step it did not enter a room by was its room before. */
  lemma StillListed(h: State, e: Event, q: PeerId)
    requires Sound(h) && Registered(h) && Legal(h, e) && q in h.clients && e != Disconnect(q) && !Enters(h, e, q)
    requires q in MovedBy(h, e).clients && MovedBy(h, e).clients[q].roomId in MovedBy(h, e).rooms
    ensures h.clients[q].roomId in h.rooms && MovedBy(h, e).clients[q].roomId == h.clients[q].roomId
    ensures e.Message? && e.from == q ==> !SoleRejoin(h, e)
  {
    hide MovedBy, RoomSound, HomeSound;
    NamesAfter(h, e, q);
    ListedAfter(h, e);
    RoomsNamed(h);
  }

  /** The replica invariant is kept by every step of either side. */
  lemma FaithfulStep(s: Sys, q: PeerId, e: SysEvent)
    requires Faithful(s, q) && SysLegal(s, q, e)
    ensures Faithful(SysStep(s, q, e), q)
  {
    hide Step, Sound, Apply, Others;
    match e
    case Hub(event) =>
      SoundStep(s.hub, event);
      ClientsAfter(s.hub, event, q);
      if event == Connect(q) {
        QueueConnect(s.hub, event, q);
      } else if q in s.hub.clients && event != Disconnect(q) {
        var taken := EventuallyStep(s, q, event);
        if s.link.entries == 0 && !Enters(s.hub, event, q) {
          RoomlessStep(s, q, event);
        } else if s.link.entries == (if Enters(s.hub, event, q) then 0 else 1) {
          MemberStep(s, q, event);
        } else {
          assert SysStep(s, q, e).link.entries >= 2;
        }
        assert Step(s.hub, event).clients[q].dropped >= SysStep(s, q, e).link.baseline;
        assert !SysStep(s, q, e).link.open ==> SysStep(s, q, e).link.known == {};
        assert SysStep(s, q, e).link.entries == 0 ==> Eventually(SysStep(s, q, e), q) == {};
      }
    case Open =>
    case Handle =>
      if q in s.hub.clients {
        var queue := s.hub.clients[q].queue;
        assert (s.link.inbox + queue)[1..] == s.link.inbox[1..] + queue;
      }
  }

  /**
   * Replica agreement. On every run of the coordinator and the client, a client that entered one room, and to
   * which nothing was dropped since, ends up knowing exactly the other members of that room that it has not missed,
   * once it has handled what is under way to it.
   */
  lemma {:induction false} ReplicaAgrees(events: seq<SysEvent>, q: PeerId)
    requires SysRun(events, q)
    ensures Faithful(SysAfter(events, q), q)
    ensures var s := SysAfter(events, q);
            q in s.hub.clients && s.link.entries == 1 && NothingLost(s, q) && s.hub.clients[q].roomId in s.hub.rooms ==>
              var others := s.hub.rooms[s.hub.clients[q].roomId].peers - {q};
              Eventually(s, q) == others - s.link.missed && (Eventually(s, q) == others <==> others !! s.link.missed)
    decreases events
  {
    hide SysStep, Sound, Eventually;
    if events == [] {
      EmptyFaithful(q);
    } else {
      ReplicaAgrees(events[..|events| - 1], q);
      FaithfulStep(SysAfter(events[..|events| - 1], q), q, events[|events| - 1]);
    }
  }

  lemma EmptyFaithful(q: PeerId)
    ensures Faithful(Sys(EMPTY, NEW_LINK), q)
  {
  }

  /** A join of `q` is answered with a list it can read. */
  ghost predicate Answered(s: Sys, q: PeerId, e: SysEvent)
    requires SysLegal(s, q, e)
  {
    e.Hub? && Moves(s.hub, e.event, q) && e.event.env.kind == JoinRoom ==> Shown(s.hub, q, e.event.env.roomId)
  }

  ghost predicate AlwaysAnswered(events: seq<SysEvent>, q: PeerId)
    requires SysRun(events, q)
    decreases events
  {
    events == [] ||
    (AlwaysAnswered(events[..|events| - 1], q) && Answered(SysAfter(events[..|events| - 1], q), q, events[|events| - 1]))
  }

  /** A client that could read every list it was sent has missed nobody, so its picture is its room. */
  lemma {:induction false} ReadersMissNobody(events: seq<SysEvent>, q: PeerId)
    requires SysRun(events, q) && AlwaysAnswered(events, q)
    ensures SysAfter(events, q).link.missed == {}
    decreases events
  {
    hide Step, Shown;
    if events != [] {
      ReadersMissNobody(events[..|events| - 1], q);
    }
  }

  /** Who is in the room that `env` asks to enter. */
  function Company(h: State, env: Envelope): set<PeerId> {
    if env.kind == JoinRoom && env.roomId in h.rooms then h.rooms[env.roomId].peers else {}
  }

  /** Nothing in the way of reading its members: a created room has none to read. */
  predicate CompanyReadable(h: State, env: Envelope) {
    env.kind == JoinRoom && env.roomId in h.rooms ==> Readable(SnapshotOf(env.roomId, h.rooms[env.roomId], true))
  }

  lemma EnteredRoom(h: State, e: Event, q: PeerId)
    requires Sound(h) && Registered(h) && Legal(h, e) && Enters(h, e, q) && e.env.kind == JoinRoom
    ensures JoinTarget(h, q, e.env.roomId).peers - {q} == h.rooms[e.env.roomId].peers
    ensures Shown(h, q, e.env.roomId) <==> Readable(SnapshotOf(e.env.roomId, h.rooms[e.env.roomId], true))
  {
    hide JsonText.Hits;
    var id := e.env.roomId;
    assert RoomSound(h, id);
    assert q !in h.rooms[id].peers;
    OtherRoomKept(h, q, id);
    hide RoomsWithout, Sound;
  }

  lemma OtherRoomKept(h: State, p: PeerId, id: RoomId)
    requires p in h.clients && Registered(h) && id in h.rooms && h.clients[p].roomId != id
    ensures id in RoomsWithout(h, p) && RoomsWithout(h, p)[id] == h.rooms[id]
  {
  }

  /** Entering a further room when nothing is dropped. */
  lemma NextRoomTold(s: Sys, q: PeerId, e: Event)
    requires Faithful(s, q) && SysLegal(s, q, Hub(e)) && Enters(s.hub, e, q)
    requires |s.hub.clients[q].queue| + |Offered(s.hub, e, q)| <= QUEUE_LENGTH
    ensures var t := SysStep(s, q, Hub(e));
            && q in t.hub.clients && Others(t.hub, q) == Company(s.hub, e.env)
            && Eventually(t, q) == Eventually(s, q) + (if CompanyReadable(s.hub, e.env) then Company(s.hub, e.env) else {})
  {
    hide PostsOf, MovedBy, RoomsWithout, Eventually, Shown, Readable, JoinTarget, Sound;
    var h := s.hub;
    QueueStep(h, e, q);
    var taken := EventuallyStep(s, q, e);
    assert taken == Offered(h, e, q);
    DeliveryKeeps(MovedBy(h, e).clients, PostsOf(h, e));
    EntryTold(h, e, q, Eventually(s, q));
    if e.env.kind == JoinRoom {
      EnteredRoom(h, e, q);
    }
  }

  /**
   * Why one room only: entering another one forgets nobody, so the picture is right again exactly when everybody
   * already known is a member of that room, and its list can be read or has nobody new on it.
   */
  lemma NextRoomAgreesExactly(s: Sys, q: PeerId, e: Event)
    requires Faithful(s, q) && SysLegal(s, q, Hub(e)) && Enters(s.hub, e, q)
    requires |s.hub.clients[q].queue| + |Offered(s.hub, e, q)| <= QUEUE_LENGTH
    ensures var t := SysStep(s, q, Hub(e));
            var company := Company(s.hub, e.env);
            && q in t.hub.clients && Others(t.hub, q) == company
            && Eventually(t, q) == Eventually(s, q) + (if CompanyReadable(s.hub, e.env) then company else {})
            && (Eventually(t, q) == company <==>
                Eventually(s, q) <= company && (CompanyReadable(s.hub, e.env) || company <= Eventually(s, q)))
  {
    hide SysStep, Faithful, SysLegal, Offered, Eventually, Others, Company, CompanyReadable;
    NextRoomTold(s, q, e);
    WithCompany(Eventually(s, q), Company(s.hub, e.env), CompanyReadable(s.hub, e.env));
  }

  lemma WithCompany(known: set<PeerId>, company: set<PeerId>, told: bool)
    ensures known + (if told then company else {}) == company <==> known <= company && (told || company <= known)
  {
    assert known + company == company <==> known <= company;
    assert known + {} == known;
  }

  // ----- The messages under way can be written and read -----

  /** Everybody in the room a join works on, its host included, is a client. */
  lemma TargetClients(h: State, p: PeerId, roomId: RoomId, id: PeerId)
    requires Sound(h) && Registered(h) && p in h.clients && roomId in h.rooms
    requires id in JoinTarget(h, p, roomId).peers || id == JoinTarget(h, p, roomId).hostId
    ensures IsPeerId(id) && IsRoomId(roomId)
  {
    hide RoomsWithout, IsPeerId, IsRoomId;
    LeavingRoom(h, p, roomId);
    assert RoomSound(h, roomId);
    assert HomeSound(h, id);
  }

  lemma WelcomePosted(h: State, p: PeerId, roomId: RoomId)
    requires Sound(h) && Registered(h) && p in h.clients && roomId in h.rooms
    ensures Posted(Welcome(h, p, roomId))
  {
    hide JoinTarget, IsPeerId, IsRoomId, Sound, Registered;
    var target := JoinTarget(h, p, roomId);
    TargetClients(h, p, roomId, target.hostId);
    forall id | id in target.peers ensures IsPeerId(id) {
      TargetClients(h, p, roomId, id);
    }
  }

  lemma NewsPosted(h: State, e: Event, env: Envelope, q: PeerId)
    requires Sound(h) && Legal(h, e) && Registered(h) && Proper(h, e, env, q)
    requires IsRelayed(env.kind) || env.kind == PeerJoined || env.kind == PeerLeft
    ensures Posted(env)
  {
    hide IsPeerId, IsRoomId, MovedBy, RoomList, Registered, Welcome;
    var p := if env.kind == PeerLeft then env.peerId else e.from;
    assert HomeSound(h, p);
    SoundMove(h, e);
    assert env.kind == PeerJoined ==> HomeSound(MovedBy(h, e), p);
  }

  lemma ProperPosted(h: State, e: Event, env: Envelope, q: PeerId)
    requires Sound(h) && Legal(h, e) && Registered(h) && Proper(h, e, env, q)
    ensures Posted(env)
  {
    hide MovedBy, Sound, Registered, SameRoom, IsPeerId, IsRoomId, RoomList, Welcome, JoinFault;
    RoomListKind(MovedBy(h, e).rooms);
    if IsRelayed(env.kind) || env.kind == PeerJoined || env.kind == PeerLeft {
      NewsPosted(h, e, env, q);
    } else if env.kind == JoinedRoom {
      JoinableListed(h, e.env.roomId);
      WelcomePosted(h, e.from, e.env.roomId);
    }
  }

  /** Whatever waits in a queue is a message whose text a client reads as it is meant. */
  lemma QueuedPosted(events: seq<Event>, q: PeerId, k: nat)
    requires Run(events) && q in After(events).clients && k < |After(events).clients[q].queue|
    ensures Posted(After(events).clients[q].queue[k])
  {
    hide Proper, Posted, Sound;
    var i := QueuedProper(events, q, k);
    SoundRun(events[..i]);
    ProperPosted(After(events[..i]), events[i], After(events).clients[q].queue[k], q);
  }

  // ----- The two ways to be wrong do happen -----

  lemma SysExtends(events: seq<SysEvent>, q: PeerId, e: SysEvent)
    requires SysRun(events, q) && SysLegal(SysAfter(events, q), q, e)
    ensures SysRun(events + [e], q) && SysAfter(events + [e], q) == SysStep(SysAfter(events, q), q, e)
  {
    assert (events + [e])[..|events|] == events;
  }

  lemma {:induction false} FewOffers(posts: seq<Post>, q: PeerId)
    ensures |Offers(posts, q)| <= |posts|
    decreases posts
  {
    if posts != [] {
      FewOffers(posts[..|posts| - 1], q);
    }
  }

  lemma FewPosts(h: State, e: Event)
    requires Registered(h) && Legal(h, e)
    ensures |PostsOf(h, e)| <= 4
  {
    hide RoomsWithout, RoomList;
  }

  /** A step that drops nothing for `q`. */
  lemma NothingDropped(h: State, e: Event, q: PeerId)
    requires Registered(h) && Legal(h, e) && q in h.clients && e != Disconnect(q) && |h.clients[q].queue| <= 60
    ensures |Offered(h, e, q)| <= 4
    ensures q in Step(h, e).clients
    ensures |Step(h, e).clients[q].queue| <= |h.clients[q].queue| + 4
    ensures Step(h, e).clients[q].dropped == h.clients[q].dropped
  {
    hide PostsOf, Step;
    QueueStep(h, e, q);
    FewPosts(h, e);
    FewOffers(PostsOf(h, e), q);
  }

  const NEW_CLIENT := ClientRec(DEFAULT_NICK, "", [], 0)

  /** Two clients have connected. */
  lemma TwoConnected(p: PeerId, q: PeerId) returns (events: seq<SysEvent>)
    requires IsPeerId(p) && IsPeerId(q) && p != q
    ensures SysRun(events, q)
    ensures SysAfter(events, q) == Sys(State(map[], map[p := NEW_CLIENT, q := NEW_CLIENT]), NEW_LINK)
  {
    hide IsPeerId;
    var h := Step(EMPTY, Connect(p));
    assert h == State(map[], map[p := NEW_CLIENT]);
    SysExtends([], q, SysEvent.Hub(Connect(p)));
    assert [] + [SysEvent.Hub(Connect(p))] == [SysEvent.Hub(Connect(p))];
    SysExtends([SysEvent.Hub(Connect(p))], q, SysEvent.Hub(Connect(q)));
    assert Step(h, Connect(q)) == State(map[], map[p := NEW_CLIENT, q := NEW_CLIENT]);
    events := [SysEvent.Hub(Connect(p))] + [SysEvent.Hub(Connect(q))];
  }

  /** The room that `p` creates under a nick. */
  function FirstRoom(p: PeerId, nick: string, peers: set<PeerId>): RoomRec {
    RoomRec(DEFAULT_ROOM_NAME, p, if nick == "" then DEFAULT_NICK else nick, false, peers)
  }

  /** `p` has created a room. */
  lemma OneInARoom(p: PeerId, q: PeerId, a: RoomId, nick: string) returns (events: seq<SysEvent>)
    requires IsPeerId(p) && IsPeerId(q) && p != q && IsRoomId(a)
    ensures SysRun(events, q)
    ensures var s := SysAfter(events, q);
            && s.hub.rooms == map[a := FirstRoom(p, nick, {p})] && s.hub.clients.Keys == {p, q}
            && s.hub.clients[p].roomId == a && s.hub.clients[q].roomId == ""
            && |s.hub.clients[q].queue| <= 4 && s.link == NEW_LINK
  {
    hide IsPeerId, IsRoomId, RoomList, MovedBy, PostsOf, Missed;
    events := TwoConnected(p, q);
    var h := SysAfter(events, q).hub;
    var e := Message(p, Coordinator.Bare(Kind.CreateRoom).(nick := nick), a);
    FirstCreates(p, q, a, nick);
    SysExtends(events, q, SysEvent.Hub(e));
    events := events + [SysEvent.Hub(e)];
    NothingDropped(h, e, q);
    DeliveryKeeps(MovedBy(h, e).clients, PostsOf(h, e));
  }

  lemma FirstCreates(p: PeerId, q: PeerId, a: RoomId, nick: string)
    requires p != q && IsRoomId(a)
    ensures var e := Message(p, Coordinator.Bare(Kind.CreateRoom).(nick := nick), a);
            var h := State(map[], map[p := NEW_CLIENT, q := NEW_CLIENT]);
            && Registered(h) && Legal(h, e) && Missed(h, {}, e, q) == {}
            && MovedBy(h, e).rooms == map[a := FirstRoom(p, nick, {p})] && MovedBy(h, e).clients.Keys == {p, q}
            && MovedBy(h, e).clients[p].roomId == a && MovedBy(h, e).clients[q].roomId == ""
  {
    hide IsRoomId;
  }

  lemma SecondJoins(h: State, p: PeerId, q: PeerId, a: RoomId, r: RoomRec)
    requires p != q && h.rooms == map[a := r] && r.peers == {p} && h.clients.Keys == {p, q}
    requires h.clients[q].roomId == "" && h.clients[p].roomId == a && a != ""
    ensures var e := Message(q, Coordinator.Bare(Kind.JoinRoom).(roomId := a), "");
            && Registered(h) && Legal(h, e) && Enters(h, e, q)
            && MovedBy(h, e).rooms == map[a := r.(peers := {p, q})] && MovedBy(h, e).clients.Keys == {p, q}
            && MovedBy(h, e).clients[p].roomId == a && MovedBy(h, e).clients[q].roomId == a
            && JoinTarget(h, q, a) == r.(peers := {p, q})
  {
    assert {p} + {q} == {p, q};
  }

  /** `q` has joined it. */
  lemma TwoInARoom(p: PeerId, q: PeerId, a: RoomId, nick: string) returns (events: seq<SysEvent>)
    requires IsPeerId(p) && IsPeerId(q) && p != q && IsRoomId(a)
    ensures SysRun(events, q)
    ensures var s := SysAfter(events, q);
            && s.hub.rooms == map[a := FirstRoom(p, nick, {p, q})] && s.hub.clients.Keys == {p, q}
            && s.hub.clients[p].roomId == a && s.hub.clients[q].roomId == a
            && |s.hub.clients[q].queue| <= 8 && s.link.entries == 1 && NothingLost(s, q)
            && s.link.missed == if Readable(SnapshotOf(a, FirstRoom(p, nick, {p, q}), true)) then {} else {p}
  {
    hide IsPeerId, IsRoomId, RoomList, Readable, FirstRoom, MovedBy, PostsOf, JoinTarget, Enters, Legal, Missed, SnapshotOf;
    events := OneInARoom(p, q, a, nick);
    var s := SysAfter(events, q);
    var e := Message(q, Coordinator.Bare(Kind.JoinRoom).(roomId := a), "");
    FirstRoomPeers(p, nick);
    SecondJoins(s.hub, p, q, a, FirstRoom(p, nick, {p}));
    SecondMisses(s.hub, p, q, a, FirstRoom(p, nick, {p}));
    SysExtends(events, q, SysEvent.Hub(e));
    events := events + [SysEvent.Hub(e)];
    NothingDropped(s.hub, e, q);
    DeliveryKeeps(MovedBy(s.hub, e).clients, PostsOf(s.hub, e));
  }

  lemma SecondMisses(h: State, p: PeerId, q: PeerId, a: RoomId, r: RoomRec)
    requires p != q && h.rooms == map[a := r] && r.peers == {p} && h.clients.Keys == {p, q}
    requires h.clients[q].roomId == "" && h.clients[p].roomId == a && a != ""
    ensures var e := Message(q, Coordinator.Bare(Kind.JoinRoom).(roomId := a), "");
            && Registered(h) && Legal(h, e)
            && Missed(h, {}, e, q) == if Readable(SnapshotOf(a, r.(peers := {p, q}), true)) then {} else {p}
  {
    hide MovedBy, JoinTarget, RoomsWithout, SnapshotOf, Readable;
    SecondJoins(h, p, q, a, r);
    assert {p, q} - {q} == {p};
  }

  lemma FirstRoomPeers(p: PeerId, nick: string)
    ensures forall peers :: FirstRoom(p, nick, peers).peers == peers
    ensures forall peers, more :: FirstRoom(p, nick, peers).(peers := more) == FirstRoom(p, nick, more)
  {
  }

  /** A host that calls itself `peers`: whoever joins it ends up with an empty picture of a room of two. */
  lemma UnreadableRoomHappens(p: PeerId, q: PeerId, a: RoomId) returns (events: seq<SysEvent>)
    requires IsPeerId(p) && IsPeerId(q) && p != q && IsRoomId(a)
    ensures SysRun(events, q) && q in SysAfter(events, q).hub.clients
    ensures Others(SysAfter(events, q).hub, q) == {p} && Eventually(SysAfter(events, q), q) == {}
  {
    events := TwoInARoom(p, q, a, "peers");
    ReplicaAgrees(events, q);
    var s := SysAfter(events, q);
    assert {p, q} - {q} == {p};
    hide SysRun, SysAfter, Eventually, Faithful;
  }

  lemma DefaultsReadable(p: PeerId, a: RoomId, peers: set<PeerId>)
    ensures Readable(SnapshotOf(a, FirstRoom(p, "", peers), true))
  {
    JsonFields.NoQuotedEnd(DEFAULT_ROOM_NAME, "peers");
    JsonFields.NoQuotedEnd(DEFAULT_NICK, "peers");
  }

  /** A second room: whoever creates one after it was in another still knows the people it left. */
  lemma StalePictureHappens(p: PeerId, q: PeerId, a: RoomId, b: RoomId) returns (events: seq<SysEvent>)
    requires IsPeerId(p) && IsPeerId(q) && p != q && IsRoomId(a) && IsRoomId(b) && a != b
    ensures SysRun(events, q) && q in SysAfter(events, q).hub.clients
    ensures Others(SysAfter(events, q).hub, q) == {} && Eventually(SysAfter(events, q), q) == {p}
  {
    hide IsPeerId, IsRoomId, RoomsWithout, Offered, Step, Eventually, Readable;
    events := TwoInARoom(p, q, a, "");
    ReplicaAgrees(events, q);
    DefaultsReadable(p, a, {p, q});
    FirstRoomPeers(p, "");
    var s := SysAfter(events, q);
    assert {p, q} - {q} == {p};
    var e := Message(q, Coordinator.Bare(Kind.CreateRoom), b);
    assert Registered(s.hub) && Legal(s.hub, e);
    SysExtends(events, q, SysEvent.Hub(e));
    events := events + [SysEvent.Hub(e)];
    NothingDropped(s.hub, e, q);
    NextRoomAgreesExactly(s, q, e);
  }
}
