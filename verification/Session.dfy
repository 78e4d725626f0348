/**
 * The client's session object, and the dispatcher that feeds it one signaling message at a time.
 * From the text of a message on, the client's code is proved to change the known peers as Replica.Apply
 * says, which is what carries replica agreement over to it.
 *
 * Microphone levels, spectra, icons and timestamps are not part of this model.
 */
module Session {
  import opened Common
  import opened Coordinator
  import opened ServerMessage
  import RelayFrame
  import Replica

  datatype MediaState = Silent | Speaking | Muted | Disconnected

  datatype PeerInfo = PeerInfo(id: PeerId, nick: string, muted: bool, speaking: bool, media: MediaState)

  datatype RoomInfo = RoomInfo(id: RoomId, hostId: PeerId, hostNick: string, peerCount: nat, maxPeers: nat)

  const NOBODY := PeerInfo("", "", false, false, Disconnected)

  function MediaOf(p: PeerInfo): MediaState {
    if p.muted then Muted else if p.speaking then Speaking else Silent
  }

  class VoiceSession {
    var room: Option<RoomInfo>
    var local: PeerInfo
    var peers: map<PeerId, PeerInfo>

    constructor ()
      ensures Valid() && room == None && peers == map[]
    {
      room := None;
      local := NOBODY;
      peers := map[];
    }

    /** The session never lists itself or a nameless peer, and files everybody under its own id. */
    ghost predicate Valid()
      reads this
    {
      forall p | p in peers :: p != "" && p != local.id && peers[p].id == p
    }

    method CreateRoom(info: RoomInfo, localId: PeerId, nick: string)
      modifies this
      ensures Valid() && peers == map[] && local == PeerInfo(localId, nick, false, false, Silent)
      ensures room == Some(RoomInfo(info.id, localId, nick, 1,
                                    if 1 <= info.maxPeers <= MAX_PEERS then info.maxPeers else MAX_PEERS))
    {
      var maxPeers := if info.maxPeers == 0 || info.maxPeers > MAX_PEERS then MAX_PEERS else info.maxPeers;
      room := Some(info.(maxPeers := maxPeers, peerCount := 1, hostId := localId, hostNick := nick));
      peers := map[];
      local := PeerInfo(localId, nick, false, false, Silent);
    }

    /** A full room is refused and nothing changes. */
    method JoinRoom(info: RoomInfo, localId: PeerId, nick: string) returns (ok: bool)
      modifies this
      ensures ok == (info.peerCount < info.maxPeers)
      ensures ok ==> Valid() && peers == map[] && local == PeerInfo(localId, nick, false, false, Silent)
                     && room == Some(info.(peerCount := info.peerCount + 1)) && room.value.peerCount <= info.maxPeers
      ensures !ok ==> room == old(room) && peers == old(peers) && local == old(local)
    {
      if info.peerCount >= info.maxPeers {
        return false;
      }
      room := Some(info.(peerCount := info.peerCount + 1));
      peers := map[];
      local := PeerInfo(localId, nick, false, false, Silent);
      ok := true;
    }

    method LeaveRoom()
      modifies this
      ensures Valid() && room == None && peers == map[] && local == NOBODY
    {
      room := None;
      peers := map[];
      local := NOBODY;
    }

    predicate Listable(id: PeerId)
      reads this
    {
      id != "" && id != local.id
    }

    /** The peer is filed under its id with its media state, and counted up to the maximum; the nameless and the
        client itself are ignored. */
    method AddOrUpdatePeer(peer: PeerInfo)
      requires Valid()
      modifies this`room, this`peers
      ensures Valid()
      ensures Listable(peer.id) ==>
                var media := if peer.muted then Muted else if peer.speaking then Speaking else Silent;
                && peers == old(peers)[peer.id := peer.(media := media)]
                && room == if old(room).Some? then Some(old(room).value.(peerCount := Min(old(room).value.maxPeers, |peers| + 1)))
                           else None
      ensures !Listable(peer.id) ==> peers == old(peers) && room == old(room)
    {
      if peer.id == "" || peer.id == local.id {
        return;
      }
      peers := peers[peer.id := peer.(media := MediaOf(peer))];
      if room.Some? {
        room := Some(room.value.(peerCount := Min(room.value.maxPeers, |peers| + 1)));
      }
    }

    method RemovePeer(id: PeerId)
      requires Valid()
      modifies this`room, this`peers
      ensures Valid() && peers == old(peers) - {id}
      ensures room == if old(room).Some? then Some(old(room).value.(peerCount := |peers| + 1)) else None
    {
      peers := peers - {id};
      if room.Some? {
        room := Some(room.value.(peerCount := |peers| + 1));
      }
    }

    function Head(): seq<PeerInfo>
      reads this
    {
      if local.id != "" then [local] else []
    }

    /** The local peer first, when there is one, then every known peer in the order of the ids. */
    method Peers() returns (all: seq<PeerInfo>)
      requires Valid()
      ensures all == Head() + Infos(peers, Ordered(peers.Keys))
    {
      hide Ordered, Infos, Least, Valid;
      all := Head();
      var todo := peers.Keys;
      ghost var done: seq<PeerId> := [];
      NoInfos(peers, all);
      OneMore([], Ordered(todo));
      while todo != {}
        invariant todo <= peers.Keys
        invariant Ordered(peers.Keys) == done + Ordered(todo)
        invariant all == Head() + Infos(peers, done)
        decreases |todo|
      {
        var id := LeastOf(todo);
        OrderedFirst(todo);
        OneMore(done, Ordered(todo - {id}), id);
        InfosMore(peers, done, id);
        todo := todo - {id};
        all := all + [peers[id]];
        done := done + [id];
      }
      OrderedNone();
      OneMore(done, []);
    }
  }

  /** A set of ids in ascending order. */
  ghost function Ordered(ids: set<PeerId>): seq<PeerId>
    decreases |ids|
  {
    if ids == {} then [] else [Least(ids)] + Ordered(ids - {Least(ids)})
  }

  lemma OrderedFirst(ids: set<PeerId>)
    requires ids != {}
    ensures Least(ids) in ids && Ordered(ids) == [Least(ids)] + Ordered(ids - {Least(ids)})
  {
  }

  lemma OrderedNone()
    ensures Ordered({}) == []
  {
  }

  lemma OneMore(done: seq<PeerId>, rest: seq<PeerId>, id: PeerId := "")
    ensures done + ([id] + rest) == (done + [id]) + rest && [] + rest == rest && done + [] == done
  {
  }

  lemma NoInfos(peers: map<PeerId, PeerInfo>, all: seq<PeerInfo>)
    ensures all + Infos(peers, []) == all
  {
  }

  /** ... holds each of them once, each smaller than the next ones. */
  lemma {:induction false} OrderedIs(ids: set<PeerId>)
    ensures |Ordered(ids)| == |ids| && forall id :: id in Ordered(ids) <==> id in ids
    ensures forall i, j | 0 <= i < j < |Ordered(ids)| :: LexLess(Ordered(ids)[i], Ordered(ids)[j])
    decreases |ids|
  {
    if ids != {} {
      var least := Least(ids);
      var rest := Ordered(ids - {least});
      OrderedIs(ids - {least});
      forall j | 0 <= j < |rest| ensures LexLess(least, rest[j]) {
        assert rest[j] in rest;
      }
    }
  }

  function Infos(peers: map<PeerId, PeerInfo>, ids: seq<PeerId>): seq<PeerInfo> {
    if ids == [] then []
    else
      var last := ids[|ids| - 1];
      Infos(peers, ids[..|ids| - 1]) + if last in peers then [peers[last]] else []
  }

  lemma InfosMore(peers: map<PeerId, PeerInfo>, ids: seq<PeerId>, id: PeerId)
    requires id in peers
    ensures Infos(peers, ids + [id]) == Infos(peers, ids) + [peers[id]]
  {
    assert (ids + [id])[..|ids|] == ids;
  }

  // ----- The dispatcher -----

  /** What a message makes the application ask of the direct transport and of the player. */
  datatype Call =
    | Ensure(peer: PeerId, initiate: bool)
    | Pass(from: PeerId, kind: Kind, payload: string)
    | Remove(peer: PeerId)
    | Stop
    | Play(from: PeerId, frame: RelayFrame.Frame)

  /** Of two distinct clients exactly one offers: the one with the smaller id. */
  predicate Initiates(self: PeerId, peer: PeerId) {
    self != "" && peer != "" && LexLess(self, peer)
  }

  lemma OneInitiates(a: PeerId, b: PeerId)
    requires a != "" && b != "" && a != b
    ensures Initiates(a, b) != Initiates(b, a)
  {
    LexLessTotal(a, b);
    LexLessAsymmetric(a, b);
  }

  function EnsureAll(ids: seq<PeerId>, self: PeerId): seq<Call>
    decreases ids
  {
    if ids == [] then []
    else
      var id := ids[|ids| - 1];
      EnsureAll(ids[..|ids| - 1], self) + if id == self then [] else [Ensure(id, Initiates(self, id))]
  }

  function CallsOf(n: Notice, self: PeerId, hears: set<PeerId>): seq<Call> {
    match n
    case Members(ids) => EnsureAll(ids, self)
    case Joined(id) => if id == "" then [] else [Ensure(id, Initiates(self, id))]
    case Gone(id) => if id == "" then [] else [Remove(id)]
    case Signal(id, kind, payload) => [Pass(id, kind, payload)]
    case Voice(id, frame) => if frame.payload == [] || id in hears then [] else [Play(id, frame)]
    case Closed => [Stop]
    case _ => []
  }

  function SetOf(ids: seq<PeerId>): set<PeerId> {
    set p | p in ids
  }

  /** The peers known afterwards. */
  function Known(known: set<PeerId>, n: Notice, self: PeerId): set<PeerId> {
    match n
    case Members(ids) => known + (SetOf(ids) - {self, ""})
    case Status(id) => known + ({id} - {self, ""})
    case Joined(id) => known + ({id} - {self, ""})
    case Gone(id) => known - ({id} - {""})
    case Closed => {}
    case _ => known
  }

  /** Handling what a message means is applying the message. */
  lemma KnownIsApplied(known: set<PeerId>, env: Envelope, ids: seq<PeerId>, self: PeerId)
    requires Posted(env) && Lists(ids, env)
    ensures Known(known, Meant(env, ids), self) == Replica.Apply(known, env, self)
  {
    hide Readable, IsPeerId, IsRoomId, RelayFrame.Read;
  }

  /** A peer is filed under its id, once, unless it is nameless or the client itself. */
  lemma KeysPut(peers: map<PeerId, PeerInfo>, peer: PeerInfo, self: PeerId)
    ensures (if peer.id != "" && peer.id != self then peers[peer.id := peer] else peers).Keys == peers.Keys + ({peer.id} - {self, ""})
  {
  }

  /** The members named by a joined_room message, in order. */
  method MeetAll(session: VoiceSession, ids: seq<PeerId>) returns (calls: seq<Call>)
    requires session.Valid()
    modifies session
    ensures session.Valid() && session.local == old(session.local)
    ensures session.peers.Keys == old(session.peers.Keys) + (SetOf(ids) - {session.local.id, ""})
    ensures calls == EnsureAll(ids, session.local.id)
  {
    hide SetOf, EnsureAll, VoiceSession.Valid;
    calls := [];
    var i := 0;
    NobodyMet(session.local.id);
    while i < |ids|
      invariant 0 <= i <= |ids| && session.Valid() && session.local == old(session.local)
      invariant session.peers.Keys == old(session.peers.Keys) + (SetOf(ids[..i]) - {session.local.id, ""})
      invariant calls == EnsureAll(ids[..i], session.local.id)
    {
      OneMoreMet(ids, i, session.local.id);
      if ids[i] != session.local.id {
        AddPeer(session, PeerInfo(ids[i], DEFAULT_NICK, false, false, Disconnected));
        calls := calls + [Ensure(ids[i], Initiates(session.local.id, ids[i]))];
      }
      i := i + 1;
    }
    assert ids[..i] == ids;
  }

  lemma NobodyMet(self: PeerId)
    ensures SetOf([]) == {} && EnsureAll([], self) == []
  {
  }

  lemma OneMoreMet(ids: seq<PeerId>, i: nat, self: PeerId)
    requires i < |ids|
    ensures SetOf(ids[..i + 1]) == SetOf(ids[..i]) + {ids[i]}
    ensures EnsureAll(ids[..i + 1], self)
         == EnsureAll(ids[..i], self) + if ids[i] == self then [] else [Ensure(ids[i], Initiates(self, ids[i]))]
  {
    assert ids[..i + 1] == ids[..i] + [ids[i]] && ids[..i + 1][..i] == ids[..i];
  }

  method AddPeer(session: VoiceSession, peer: PeerInfo)
    requires session.Valid()
    modifies session
    ensures session.Valid() && session.local == old(session.local)
    ensures session.peers.Keys == old(session.peers.Keys) + ({peer.id} - {session.local.id, ""})
  {
    hide VoiceSession.Valid;
    KeysPut(session.peers, peer.(media := MediaOf(peer)), session.local.id);
    session.AddOrUpdatePeer(peer);
  }

  /** handleSignalingEvent. `peer` holds the nick and the levels parsed from a status, and `hears` are the peers heard
      over a direct connection. */
  method HandleSignalingEvent(session: VoiceSession, n: Notice, peer: PeerInfo, hears: set<PeerId>) returns (calls: seq<Call>)
    requires session.Valid()
    modifies session
    ensures session.Valid()
    ensures session.peers.Keys == Known(old(session.peers.Keys), n, old(session.local.id))
    ensures calls == CallsOf(n, old(session.local.id), hears)
    ensures n != Closed ==> session.local == old(session.local)
  {
    hide SetOf, EnsureAll, VoiceSession.Valid;
    calls := [];
    match n
    case Members(ids) =>
      calls := MeetAll(session, ids);
    case Status(id) =>
      if id != "" {
        AddPeer(session, peer.(id := id));
      }
    case Joined(id) =>
      if id != "" {
        AddPeer(session, peer.(id := id));
        calls := [Ensure(id, Initiates(session.local.id, id))];
      }
    case Signal(id, kind, payload) =>
      calls := [Pass(id, kind, payload)];
    case Voice(id, frame) =>
      if frame.payload != [] && id !in hears {
        calls := [Play(id, frame)];
      }
    case Gone(id) =>
      if id != "" {
        session.RemovePeer(id);
        calls := [Remove(id)];
      }
    case Closed =>
      calls := [Stop];
      session.LeaveRoom();
    case Nothing =>
  }

  /** What each message asks for. */
  lemma CallsAsked(env: Envelope, ids: seq<PeerId>, self: PeerId, hears: set<PeerId>)
    requires Posted(env)
    ensures var calls := CallsOf(Meant(env, ids), self, hears);
            && (env.kind == VoiceFrame ==>
                  var frame := RelayFrame.Read(env.payload);
                  calls == if frame.payload != [] && env.peerId !in hears then [Play(env.peerId, frame)] else [])
            && (IsIce(env.kind) ==> calls == [Pass(env.peerId, env.kind, env.payload)])
            && (env.kind == PeerJoined ==> calls == [Ensure(env.peerId, Initiates(self, env.peerId))])
            && (env.kind == PeerLeft ==> calls == [Remove(env.peerId)])
            && (env.kind == JoinedRoom ==> calls == EnsureAll(if Readable(env.room.value) then ids else [], self))
            && (!Noticed(env.kind) || env.kind == PeerStatus ==> calls == [])
            && (env.kind == RoomClosed <==> calls == [Stop])
  {
    hide RelayFrame.Read, Readable, Initiates, EnsureAll;
    if env.kind == JoinedRoom {
      EnsuresOnly(if Readable(env.room.value) then ids else [], self);
    }
  }

  lemma {:induction false} EnsuresOnly(ids: seq<PeerId>, self: PeerId)
    ensures forall c | c in EnsureAll(ids, self) :: c.Ensure? && c.initiate == Initiates(self, c.peer)
    ensures EnsureAll(ids, self) != [Stop]
    decreases ids
  {
    if ids != [] {
      EnsuresOnly(ids[..|ids| - 1], self);
    }
    assert EnsureAll(ids, self) == [Stop] ==> EnsureAll(ids, self)[0] in EnsureAll(ids, self);
  }

  /**
   * From the text on the wire to the session: whatever the message, the client's code changes the known peers as the
   * replica theorem says, and asks of the transport and the player what the message means.
   */
  method Receive(session: VoiceSession, text: string, peer: PeerInfo, hears: set<PeerId>,
                 ghost env: Envelope, ghost ids: seq<PeerId>, ghost at: Times)
    returns (calls: seq<Call>)
    requires session.Valid()
    requires text == Written(env, ids, at) && Posted(env) && Sent(env) && Lists(ids, env)
    modifies session
    ensures session.Valid()
    ensures session.peers.Keys == Replica.Apply(old(session.peers.Keys), env, old(session.local.id))
    ensures calls == CallsOf(Meant(env, ids), old(session.local.id), hears)
    ensures env.kind == VoiceFrame ==>
              var frame := RelayFrame.Read(env.payload);
              calls == if frame.payload != [] && env.peerId !in hears then [Play(env.peerId, frame)] else []
    ensures IsIce(env.kind) ==> calls == [Pass(env.peerId, env.kind, env.payload)]
    ensures env.kind == PeerJoined ==> calls == [Ensure(env.peerId, Initiates(old(session.local.id), env.peerId))]
    ensures env.kind == PeerLeft ==> calls == [Remove(env.peerId)]
  {
    hide *;
    CallsAsked(env, ids, session.local.id, hears);
    ReadIsMeant(env, ids, at);
    KnownIsApplied(session.peers.Keys, env, ids, session.local.id);
    var n := HandleServerMessage(text);
    calls := HandleSignalingEvent(session, n, peer, hears);
  }
}
