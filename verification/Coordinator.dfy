/**
 * The room coordinator as a state machine on values: who is where, and which envelopes each
 * operation posts. One locked hub operation is one step.
 *
 * An operation first moves clients between rooms and then posts envelopes to sets of clients;
 * the two commute, because membership never looks at queues. Module Hub proves that the
 * interleaved in-place code computes exactly this.
 */
module Coordinator {
  import opened Common

  type PeerId = string
  type RoomId = string

  predicate IsHex(text: string) {
    forall i | 0 <= i < |text| :: '0' <= text[i] <= '9' || 'a' <= text[i] <= 'f'
  }

  /** An id is a prefix and the digits of 8 random bytes. */
  predicate IsPeerId(id: PeerId): (b: bool)
    ensures b ==> id != ""
  {
    |id| == 21 && id[..5] == "peer_" && IsHex(id[5..])
  }

  predicate IsRoomId(id: RoomId): (b: bool)
    ensures b ==> id != ""
  {
    |id| == 21 && id[..5] == "room_" && IsHex(id[5..])
  }

  const MAX_PEERS := 5
  const QUEUE_LENGTH := 64
  const MAX_VOICE_PAYLOAD := 4096
  const DEFAULT_NICK := "Player"
  const DEFAULT_ROOM_NAME := "Squad room"

  // ----- Envelopes -----

  datatype Kind =
    | Hello | ListRooms | CreateRoom | JoinRoom | LeaveRoom
    | IceOffer | IceAnswer | IceCandidate | MuteStatus | PeerStatus | VoiceFrame | Heartbeat
    | Rooms | RoomCreated | JoinedRoom | PeerJoined | PeerLeft | RoomClosed | HeartbeatAck | Error
    | Other(name: string)

  datatype Fault = NoFault | RoomNotFound | RoomIsFull | TargetUnavailable | UnknownType | Text(text: string)

  datatype Snapshot = Snapshot(id: RoomId, name: string, hostId: PeerId, hostNick: string, peerCount: nat,
                               locked: bool, peers: set<PeerId>)

  datatype Envelope = Envelope(kind: Kind, roomId: RoomId, peerId: PeerId, targetId: PeerId, nick: string,
                               room: Option<Snapshot>, rooms: set<Snapshot>, payload: string, error: Fault)

  function Bare(kind: Kind): Envelope {
    Envelope(kind, "", "", "", "", None, {}, "", NoFault)
  }

  predicate IsIce(kind: Kind) {
    kind == IceOffer || kind == IceAnswer || kind == IceCandidate
  }

  predicate IsStatus(kind: Kind) {
    kind == MuteStatus || kind == PeerStatus
  }

  // ----- State -----

  datatype RoomRec = RoomRec(name: string, hostId: PeerId, hostNick: string, locked: bool, peers: set<PeerId>)

  /** `dropped` counts the messages refused because the queue was full. */
  datatype ClientRec = ClientRec(nick: string, roomId: RoomId, queue: seq<Envelope>, dropped: nat)

  datatype State = State(rooms: map<RoomId, RoomRec>, clients: map<PeerId, ClientRec>)

  const EMPTY := State(map[], map[])

  function SnapshotOf(id: RoomId, r: RoomRec, includePeers: bool): Snapshot {
    Snapshot(id, r.name, r.hostId, r.hostNick, |r.peers|, r.locked, if includePeers then r.peers else {})
  }

  function RoomList(rooms: map<RoomId, RoomRec>): Envelope {
    Bare(Rooms).(rooms := set id | id in rooms :: SnapshotOf(id, rooms[id], false))
  }

  function Without<K, V>(m: map<K, V>, key: K): map<K, V> {
    m - {key}
  }

  // ----- Queues -----

  /** Envelopes posted to a set of clients. */
  datatype Post = Post(to: set<PeerId>, env: Envelope)

  function Push(c: ClientRec, env: Envelope): ClientRec {
    if |c.queue| < QUEUE_LENGTH then c.(queue := c.queue + [env]) else c.(dropped := c.dropped + 1)
  }

  function Delivered(clients: map<PeerId, ClientRec>, post: Post): map<PeerId, ClientRec> {
    map p | p in clients :: if p in post.to then Push(clients[p], post.env) else clients[p]
  }

  function AllDelivered(clients: map<PeerId, ClientRec>, posts: seq<Post>): map<PeerId, ClientRec>
    decreases posts
  {
    if posts == [] then clients
    else Delivered(AllDelivered(clients, posts[..|posts| - 1]), posts[|posts| - 1])
  }

  // ----- Hosts -----

  predicate IsLeast(x: PeerId, ids: set<PeerId>) {
    x in ids && forall y | y in ids :: y == x || LexLess(x, y)
  }

  lemma {:induction false} LeastExists(ids: set<PeerId>)
    requires ids != {}
    ensures exists x :: IsLeast(x, ids)
    decreases |ids|
  {
    var x :| x in ids;
    var rest := ids - {x};
    if rest == {} {
      assert ids == rest + {x};
      assert IsLeast(x, ids);
    } else {
      LeastExists(rest);
      var l :| IsLeast(l, rest);
      LexLessTotal(x, l);
      if LexLess(x, l) {
        forall y | y in ids && y != x ensures LexLess(x, y) {
          assert y in rest;
          if y != l {
            LexLessTransitive(x, l, y);
          }
        }
        assert IsLeast(x, ids);
      } else {
        assert IsLeast(l, ids);
      }
    }
  }

  ghost function Least(ids: set<PeerId>): (least: PeerId)
    requires ids != {}
    ensures IsLeast(least, ids)
  {
    LeastExists(ids);
    var least :| IsLeast(least, ids);
    least
  }

  lemma LeastUnique(ids: set<PeerId>, x: PeerId)
    requires IsLeast(x, ids)
    ensures Least(ids) == x
  {
    LexLessAsymmetric(x, Least(ids));
  }

  /** The first of the sorted ids. */
  method LeastOf(ids: set<PeerId>) returns (least: PeerId)
    requires ids != {}
    ensures least == Least(ids)
  {
    least :| least in ids;
    var todo := ids - {least};
    while todo != {}
      invariant todo <= ids && IsLeast(least, ids - todo)
      decreases |todo|
    {
      var peerId :| peerId in todo;
      StillLeast(least, ids - todo, peerId);
      assert ids - (todo - {peerId}) == (ids - todo) + {peerId};
      todo := todo - {peerId};
      if LexLess(peerId, least) {
        least := peerId;
      }
    }
    assert ids - todo == ids;
    LeastUnique(ids, least);
  }

  lemma StillLeast(least: PeerId, seen: set<PeerId>, p: PeerId)
    requires IsLeast(least, seen)
    ensures IsLeast(if LexLess(p, least) then p else least, seen + {p})
  {
    LexLessTotal(p, least);
    forall y | y in seen && LexLess(p, least) && y != p ensures LexLess(p, y) {
      if y != least {
        LexLessTransitive(p, least, y);
      }
    }
  }

  // ----- Leaving -----

  ghost function Promoted(r: RoomRec, clients: map<PeerId, ClientRec>): RoomRec
    requires r.peers != {} && r.peers <= clients.Keys
  {
    r.(hostId := Least(r.peers), hostNick := clients[Least(r.peers)].nick)
  }

  /** Room `r` after `p` is gone from it; None when nobody is left. */
  ghost function Vacated(r: RoomRec, p: PeerId, clients: map<PeerId, ClientRec>): Option<RoomRec>
    requires r.peers <= clients.Keys + {p}
  {
    var left := r.(peers := r.peers - {p});
    if left.peers == {} then None
    else if r.hostId == p then Some(Promoted(left, clients))
    else Some(left)
  }

  /** Each peer of a listed room is a registered client. */
  predicate Registered(h: State) {
    forall id | id in h.rooms :: h.rooms[id].peers <= h.clients.Keys
  }

  /** The listed rooms once `p` has left the one it names. */
  ghost function RoomsWithout(h: State, p: PeerId): map<RoomId, RoomRec>
    requires p in h.clients && Registered(h)
  {
    var id := h.clients[p].roomId;
    if id == "" || id !in h.rooms then h.rooms
    else
      match Vacated(h.rooms[id], p, h.clients)
      case None => Without(h.rooms, id)
      case Some(r) => h.rooms[id := r]
  }

  /** What the members of the room are told when `p` leaves it. Nobody is left to hear room_closed. */
  function Farewell(h: State, p: PeerId): seq<Post>
    requires p in h.clients
  {
    var id := h.clients[p].roomId;
    if id == "" || id !in h.rooms then []
    else
      var others := h.rooms[id].peers - {p};
      if others == {} then [Post({}, Bare(RoomClosed).(roomId := id))]
      else [Post(others, Bare(PeerLeft).(roomId := id, peerId := p, nick := h.clients[p].nick))]
  }

  ghost function Left(h: State, p: PeerId): State
    requires p in h.clients && Registered(h)
  {
    State(RoomsWithout(h, p), h.clients[p := h.clients[p].(roomId := "")])
  }

  // ----- Client messages -----

  function Renamed(nick: string, env: Envelope): string {
    if env.nick != "" then env.nick else nick
  }

  /** Errors of joinRoom, in the order it checks them. */
  function JoinFault(h: State, roomId: RoomId): Fault {
    if roomId !in h.rooms then RoomNotFound
    else if |h.rooms[roomId].peers| >= MAX_PEERS then RoomIsFull
    else NoFault
  }

  /**
   * The room object a successful join works on. When the joining client was its only member,
   * leaving has already taken it off the list, and the join fills an object nobody can find.
   */
  ghost function JoinTarget(h: State, p: PeerId, roomId: RoomId): RoomRec
    requires p in h.clients && Registered(h) && roomId in h.rooms
  {
    var rooms := RoomsWithout(h, p);
    var r := if roomId in rooms then rooms[roomId] else h.rooms[roomId].(peers := {});
    r.(peers := r.peers + {p})
  }

  function NewRoom(h: State, p: PeerId, env: Envelope): RoomRec
    requires p in h.clients
  {
    RoomRec(if env.room.Some? && env.room.value.name != "" then env.room.value.name else DEFAULT_ROOM_NAME,
            p, Renamed(h.clients[p].nick, env), env.room.Some? && env.room.value.locked, {p})
  }

  /** Rooms and clients after the message, before anything is posted. `newId` names a created room. */
  ghost function Moved(h: State, p: PeerId, env: Envelope, newId: RoomId): State
    requires p in h.clients && Registered(h)
  {
    var c := h.clients[p];
    match env.kind
    case Hello => h.(clients := h.clients[p := c.(nick := Renamed(c.nick, env))])
    case CreateRoom =>
      State(RoomsWithout(h, p)[newId := NewRoom(h, p, env)],
            h.clients[p := c.(nick := Renamed(c.nick, env), roomId := newId)])
    case JoinRoom =>
      if JoinFault(h, env.roomId) != NoFault then h
      else
        var rooms := RoomsWithout(h, p);
        State(if env.roomId in rooms then rooms[env.roomId := JoinTarget(h, p, env.roomId)] else rooms,
              h.clients[p := c.(nick := Renamed(c.nick, env), roomId := env.roomId)])
    case LeaveRoom => Left(h, p)
    case _ => h
  }

  /** The sender's own id, nick and room, whatever the envelope claimed. */
  function Stamped(c: ClientRec, p: PeerId, env: Envelope): Envelope {
    env.(peerId := p, nick := c.nick, roomId := c.roomId)
  }

  predicate Reachable(h: State, p: PeerId, target: PeerId)
    requires p in h.clients
  {
    target in h.clients && h.clients[p].roomId != "" && h.clients[target].roomId == h.clients[p].roomId
  }

  /** Signals go to the named client of the same room; status and voice to everybody else in the room. */
  function Relayed(h: State, p: PeerId, env: Envelope): seq<Post>
    requires p in h.clients
  {
    var c := h.clients[p];
    if IsIce(env.kind) then
      if Reachable(h, p, env.targetId) then [Post({env.targetId}, Stamped(c, p, env))]
      else [Post({p}, Bare(Error).(error := TargetUnavailable))]
    else if IsStatus(env.kind) then
      if c.roomId in h.rooms then [Post(h.rooms[c.roomId].peers - {p}, Stamped(c, p, env))] else []
    else if env.kind == VoiceFrame then
      if c.roomId in h.rooms && 0 < |env.payload| <= MAX_VOICE_PAYLOAD
      then [Post(h.rooms[c.roomId].peers - {p}, Stamped(c, p, env).(targetId := ""))]
      else []
    else [Post({p}, Bare(Error).(error := UnknownType))]
  }

  /** The posts of a message, in order. */
  ghost function Posts(h: State, p: PeerId, env: Envelope, newId: RoomId): seq<Post>
    requires p in h.clients && Registered(h)
  {
    var c := h.clients[p];
    var after := Moved(h, p, env, newId);
    var rooms := Post(after.clients.Keys, RoomList(after.rooms));
    match env.kind
    case Hello => [Post({p}, Bare(Hello).(peerId := p)), Post({p}, RoomList(h.rooms))]
    case ListRooms => [Post({p}, RoomList(h.rooms))]
    case CreateRoom =>
      Farewell(h, p) +
      [Post({p}, Bare(RoomCreated).(roomId := newId, room := Some(SnapshotOf(newId, NewRoom(h, p, env), true)))), rooms]
    case JoinRoom =>
      if JoinFault(h, env.roomId) != NoFault then [Post({p}, Bare(Error).(error := JoinFault(h, env.roomId)))]
      else
        var room := JoinTarget(h, p, env.roomId);
        Farewell(h, p) +
        [Post({p}, Bare(JoinedRoom).(roomId := env.roomId, room := Some(SnapshotOf(env.roomId, room, true)))),
         Post(room.peers - {p}, Bare(PeerJoined).(roomId := env.roomId, peerId := p, nick := Renamed(c.nick, env),
                                                  payload := env.payload)),
         rooms]
    case LeaveRoom => Farewell(h, p) + [rooms]
    case Heartbeat => [Post({p}, Bare(HeartbeatAck))]
    case _ => Relayed(h, p, env)
  }

  // ----- Steps -----

  datatype Event =
    | Connect(id: PeerId)
    | Disconnect(id: PeerId)
    | Message(from: PeerId, env: Envelope, newId: RoomId)
    | Write(id: PeerId)  // the write loop takes the oldest queued envelope

  /** Ids are fresh, as 8 random bytes are taken to be, and only registered clients act. */
  predicate Legal(h: State, e: Event) {
    match e
    case Connect(id) => IsPeerId(id) && id !in h.clients
    case Disconnect(id) => id in h.clients
    case Message(p, env, newId) =>
      p in h.clients &&
      (env.kind == CreateRoom ==>
         IsRoomId(newId) && newId !in h.rooms && forall q | q in h.clients :: h.clients[q].roomId != newId)
    case Write(id) => id in h.clients && h.clients[id].queue != []
  }

  ghost function Removed(h: State, p: PeerId): State
    requires p in h.clients && Registered(h)
  {
    State(RoomsWithout(h, p), Without(h.clients, p))
  }

  /** A disconnect tells the room, and then everybody if a room was involved. */
  ghost function RemovalPosts(h: State, p: PeerId): seq<Post>
    requires p in h.clients && Registered(h)
  {
    if h.clients[p].roomId == "" || h.clients[p].roomId !in h.rooms then []
    else Farewell(h, p) + [Post(h.clients.Keys - {p}, RoomList(RoomsWithout(h, p)))]
  }

  ghost function MovedBy(h: State, e: Event): State
    requires Legal(h, e) && Registered(h)
  {
    match e
    case Connect(id) => h.(clients := h.clients[id := ClientRec(DEFAULT_NICK, "", [], 0)])
    case Disconnect(id) => Removed(h, id)
    case Message(p, env, newId) => Moved(h, p, env, newId)
    case Write(id) => h.(clients := h.clients[id := h.clients[id].(queue := h.clients[id].queue[1..])])
  }

  ghost function PostsOf(h: State, e: Event): seq<Post>
    requires Legal(h, e) && Registered(h)
  {
    match e
    case Connect(id) => []
    case Disconnect(id) => RemovalPosts(h, id)
    case Message(p, env, newId) => Posts(h, p, env, newId)
    case Write(id) => []
  }

  ghost function Step(h: State, e: Event): State
    requires Legal(h, e) && Registered(h)
  {
    var moved := MovedBy(h, e);
    State(moved.rooms, AllDelivered(moved.clients, PostsOf(h, e)))
  }

  /** The event takes the hub from one state to the other. */
  ghost predicate Takes(h: State, e: Event, after: State) {
    Registered(h) && Legal(h, e) && after == Step(h, e)
  }

  // ----- What delivery leaves alone -----

  lemma {:induction false} DeliveryKeeps(clients: map<PeerId, ClientRec>, posts: seq<Post>)
    ensures AllDelivered(clients, posts).Keys == clients.Keys
    ensures forall p | p in clients ::
              var d := AllDelivered(clients, posts)[p];
              d.nick == clients[p].nick && d.roomId == clients[p].roomId
    decreases posts
  {
    if posts != [] {
      DeliveryKeeps(clients, posts[..|posts| - 1]);
    }
  }
}
