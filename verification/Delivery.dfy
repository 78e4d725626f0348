/**
 * What reaches a client's queue: first in, first out, at most 64 at a time, relayed envelopes only
 * from somebody in the same room and always under the sender's own name.
 */
module Delivery {
  import opened Common
  import opened Coordinator
  import opened HubSafety

  // ----- Offers -----

  /** The envelopes the posts offer to `q`, in order. */
  function Offers(posts: seq<Post>, q: PeerId): seq<Envelope>
    decreases posts
  {
    if posts == [] then []
    else
      var post := posts[|posts| - 1];
      Offers(posts[..|posts| - 1], q) + if q in post.to then [post.env] else []
  }

  lemma {:induction false} OffersConcat(a: seq<Post>, b: seq<Post>, q: PeerId)
    ensures Offers(a + b, q) == Offers(a, q) + Offers(b, q)
    decreases b
  {
    if b == [] {
      assert a + b == a;
    } else {
      assert (a + b)[..|a + b| - 1] == a + b[..|b| - 1];
      OffersConcat(a, b[..|b| - 1], q);
    }
  }

  function PushAll(c: ClientRec, envs: seq<Envelope>): ClientRec
    decreases envs
  {
    if envs == [] then c else Push(PushAll(c, envs[..|envs| - 1]), envs[|envs| - 1])
  }

  /** Delivery to many clients is, for each, pushing what it is offered. */
  lemma {:induction false} DeliveredOffers(clients: map<PeerId, ClientRec>, posts: seq<Post>, q: PeerId)
    requires q in clients
    ensures q in AllDelivered(clients, posts) && AllDelivered(clients, posts)[q] == PushAll(clients[q], Offers(posts, q))
    decreases posts
  {
    if posts != [] {
      var before := posts[..|posts| - 1];
      DeliveredOffers(clients, before, q);
      var offers := Offers(posts, q);
      if q in posts[|posts| - 1].to {
        assert offers[..|offers| - 1] == Offers(before, q);
      } else {
        assert offers == Offers(before, q);
      }
    }
  }

  /** A queue takes what fits, in order, and counts the rest. */
  lemma {:induction false} PushAllFits(c: ClientRec, envs: seq<Envelope>)
    requires |c.queue| <= QUEUE_LENGTH
    ensures var k := Min(|envs|, QUEUE_LENGTH - |c.queue|);
            PushAll(c, envs) == c.(queue := c.queue + envs[..k], dropped := c.dropped + |envs| - k)
    decreases envs
  {
    if envs == [] {
      assert c.queue + envs[..0] == c.queue;
    } else {
      var before := envs[..|envs| - 1];
      PushAllFits(c, before);
      var k := Min(|envs|, QUEUE_LENGTH - |c.queue|);
      if k == |envs| {
        assert envs == before + [envs[|envs| - 1]];
        assert envs[..k] == envs && before[..k - 1] == before;
        assert c.queue + envs == c.queue + before + [envs[|envs| - 1]];
      } else {
        assert envs[..k] == before[..k];
      }
    }
  }

  /** What a step offers to `q`. */
  ghost function Offered(h: State, e: Event, q: PeerId): seq<Envelope>
    requires Legal(h, e) && Registered(h)
  {
    Offers(PostsOf(h, e), q)
  }

  /** The queue of `q` after a step: its queue before, less a written head, plus what fits of the offer. */
  lemma QueueStep(h: State, e: Event, q: PeerId)
    requires Legal(h, e) && Registered(h) && q in h.clients && e != Disconnect(q)
    requires |h.clients[q].queue| <= 64
    ensures q in Step(h, e).clients
    ensures var before := if e == Write(q) then h.clients[q].queue[1..] else h.clients[q].queue;
            var offer := Offered(h, e, q);
            var k := Min(|offer|, 64 - |before|);
            Step(h, e).clients[q].queue == before + offer[..k] &&
            Step(h, e).clients[q].dropped == h.clients[q].dropped + |offer| - k
  {
    hide PostsOf;
    var moved := MovedBy(h, e);
    DeliveredOffers(moved.clients, PostsOf(h, e), q);
    PushAllFits(moved.clients[q], Offered(h, e, q));
  }

  lemma QueueConnect(h: State, e: Event, q: PeerId)
    requires Legal(h, e) && Registered(h) && e == Connect(q)
    ensures q in Step(h, e).clients && Step(h, e).clients[q] == ClientRec(DEFAULT_NICK, "", [], 0)
  {
  }

  // ----- First in, first out -----

  /** Since `q` connected: everything offered to it, and everything its write loop took. */
  datatype Ledger = Ledger(offered: seq<Envelope>, written: seq<Envelope>)

  ghost function LedgerAfter(events: seq<Event>, q: PeerId): Ledger
    requires Run(events)
    decreases events
  {
    if events == [] then Ledger([], [])
    else
      var before := events[..|events| - 1];
      var e := events[|events| - 1];
      var l := LedgerAfter(before, q);
      var h := After(before);
      if e == Connect(q) then Ledger([], [])
      else Ledger(l.offered + Offered(h, e, q), if e == Write(q) then l.written + [h.clients[q].queue[0]] else l.written)
  }

  predicate Increasing(kept: seq<nat>, bound: nat) {
    (forall i | 0 <= i < |kept| :: kept[i] < bound) && (forall i, j | 0 <= i < j < |kept| :: kept[i] < kept[j])
  }

  function Select<T>(s: seq<T>, kept: seq<nat>): seq<T>
    requires Increasing(kept, |s|)
  {
    seq(|kept|, i requires 0 <= i < |kept| => s[kept[i]])
  }

  /** `out` is `s` without some of its elements, in the same order; `missing` of them are gone. */
  ghost predicate Thinned<T(!new)>(s: seq<T>, out: seq<T>, missing: nat) {
    exists kept :: Increasing(kept, |s|) && out == Select(s, kept) && |s| == |kept| + missing
  }

  lemma IncreasingExtends(kept: seq<nat>, bound: nat, k: nat, more: nat)
    requires Increasing(kept, bound) && k <= more
    ensures Increasing(kept + seq(k, i requires 0 <= i < k => bound + i), bound + more)
  {
  }

  lemma SelectExtends<T>(s: seq<T>, kept: seq<nat>, more: seq<T>, k: nat)
    requires Increasing(kept, |s|) && k <= |more|
    requires Increasing(kept + seq(k, i requires 0 <= i < k => |s| + i), |s + more|)
    ensures Select(s + more, kept + seq(k, i requires 0 <= i < k => |s| + i)) == Select(s, kept) + more[..k]
  {
    var all := kept + seq(k, i requires 0 <= i < k => |s| + i);
    forall i | 0 <= i < |all| ensures Select(s + more, all)[i] == (Select(s, kept) + more[..k])[i] {
      if i < |kept| {
        assert all[i] == kept[i] < |s|;
      } else {
        assert all[i] == |s| + (i - |kept|);
      }
    }
  }

  lemma ThinnedExtends<T(!new)>(s: seq<T>, out: seq<T>, missing: nat, more: seq<T>, k: nat)
    requires Thinned(s, out, missing) && k <= |more|
    ensures Thinned(s + more, out + more[..k], missing + |more| - k)
  {
    hide Increasing, Select;
    var kept: seq<nat> :| Increasing(kept, |s|) && out == Select(s, kept) && |s| == |kept| + missing;
    var added := seq(k, i requires 0 <= i < k => |s| + i);
    IncreasingExtends(kept, |s|, k, |more|);
    SelectExtends(s, kept, more, k);
    assert |kept + added| == |kept| + k;
  }

  /** What a client was sent and what still waits is, in order, what it was offered without the dropped ones. */
  lemma {:induction false} FirstInFirstOut(events: seq<Event>, q: PeerId)
    requires Run(events) && q in After(events).clients
    ensures |After(events).clients[q].queue| <= 64
    ensures var l := LedgerAfter(events, q);
            var c := After(events).clients[q];
            Thinned(l.offered, l.written + c.queue, c.dropped)
    decreases events
  {
    var before := events[..|events| - 1];
    var e := events[|events| - 1];
    var h := After(before);
    if e == Connect(q) {
      QueueConnect(h, e, q);
      NothingThinned();
    } else {
      ClientsAfter(h, e, q);
      FirstInFirstOut(before, q);
      QueueStep(h, e, q);
      var l := LedgerAfter(before, q);
      var c := h.clients[q];
      var offer := Offered(h, e, q);
      var queue := if e == Write(q) then c.queue[1..] else c.queue;
      var k := Min(|offer|, QUEUE_LENGTH - |queue|);
      ThinnedExtends(l.offered, l.written + c.queue, c.dropped, offer, k);
      LedgerStep(l.written, c.queue, e == Write(q), offer[..k]);
    }
  }

  lemma NothingThinned()
    ensures Thinned<Envelope>([], [] + [], 0)
  {
    var none: seq<nat> := [];
    assert Increasing(none, 0) && Select<Envelope>([], none) == [] + [];
  }

  lemma LedgerStep(written: seq<Envelope>, queue: seq<Envelope>, write: bool, more: seq<Envelope>)
    requires write ==> queue != []
    ensures (if write then written + [queue[0]] else written) + ((if write then queue[1..] else queue) + more)
         == written + queue + more
  {
    if write {
      assert queue == [queue[0]] + queue[1..];
    }
  }

  lemma ClientsAfter(h: State, e: Event, q: PeerId)
    requires Legal(h, e) && Registered(h)
    ensures q in Step(h, e).clients <==> (q in h.clients && e != Disconnect(q)) || e == Connect(q)
  {
    hide PostsOf, RoomsWithout;
    DeliveryKeeps(MovedBy(h, e).clients, PostsOf(h, e));
  }

  // ----- Isolation -----

  predicate SameRoom(h: State, p: PeerId, q: PeerId) {
    p in h.clients && q in h.clients && h.clients[p].roomId != "" && h.clients[q].roomId == h.clients[p].roomId
  }

  predicate IsRelayed(kind: Kind) {
    IsIce(kind) || IsStatus(kind) || kind == VoiceFrame
  }

  /** Answers to the client that asked. */
  predicate IsReply(kind: Kind) {
    kind == Hello || kind == RoomCreated || kind == JoinedRoom || kind == HeartbeatAck || kind == Error
  }

  /** What a client that joins a room is answered: the room as it is with the newcomer in it. */
  ghost function Welcome(h: State, p: PeerId, roomId: RoomId): Envelope
    requires p in h.clients && Registered(h) && roomId in h.rooms
  {
    Bare(JoinedRoom).(roomId := roomId, room := Some(SnapshotOf(roomId, JoinTarget(h, p, roomId), true)))
  }

  /**
   * The reason an event may put an envelope before `q`. Relayed envelopes come from a client in the same room,
   * signed with its id, nick and room, the content untouched; signals reach the client they name and
   * broadcasts never their sender. Arrivals and departures are told to those who share or shared the room, and
   * room lists show the rooms as the event left them. No other kind is ever delivered, room_closed included.
   */
  ghost predicate Proper(h: State, e: Event, env: Envelope, q: PeerId)
    requires Legal(h, e) && Registered(h)
  {
    if IsRelayed(env.kind) then
      && e.Message? && SameRoom(h, e.from, q)
      && env.peerId == e.from && env.nick == h.clients[e.from].nick && env.roomId == h.clients[e.from].roomId
      && env.kind == e.env.kind && env.payload == e.env.payload
      && env == e.env.(peerId := env.peerId, nick := env.nick, roomId := env.roomId, targetId := env.targetId)
      && env.targetId == (if env.kind == VoiceFrame then "" else e.env.targetId)
      && (if IsIce(env.kind) then q == e.env.targetId else q != e.from)
    else if env.kind == PeerJoined then
      && e.Message? && e.env.kind == JoinRoom && q != e.from && SameRoom(MovedBy(h, e), e.from, q)
      && env.peerId == e.from && env.nick == MovedBy(h, e).clients[e.from].nick
      && env.roomId == e.env.roomId == MovedBy(h, e).clients[e.from].roomId && env.payload == e.env.payload
    else if env.kind == PeerLeft then
      && Leaver(h, e) == Some(env.peerId) && q != env.peerId && SameRoom(h, env.peerId, q)
      && env.nick == h.clients[env.peerId].nick && env.roomId == h.clients[env.peerId].roomId
    else if IsReply(env.kind) then
      && e.Message? && q == e.from
      && (env.kind == JoinedRoom ==>
            e.env.kind == JoinRoom && JoinFault(h, e.env.roomId) == NoFault && env == Welcome(h, e.from, e.env.roomId))
    else env == RoomList(MovedBy(h, e).rooms)
  }

  lemma {:induction false} OfferedByPost(posts: seq<Post>, q: PeerId, k: nat) returns (i: nat)
    requires k < |Offers(posts, q)|
    ensures i < |posts| && q in posts[i].to && posts[i].env == Offers(posts, q)[k]
    decreases posts
  {
    var before := posts[..|posts| - 1];
    if k < |Offers(before, q)| {
      i := OfferedByPost(before, q, k);
    } else {
      i := |posts| - 1;
    }
  }

  lemma FarewellProper(h: State, e: Event, p: PeerId, i: nat, q: PeerId)
    requires Sound(h) && Legal(h, e) && Registered(h) && Leaver(h, e) == Some(p) && p in h.clients
    requires i < |Farewell(h, p)| && q in Farewell(h, p)[i].to
    ensures Proper(h, e, Farewell(h, p)[i].env, q)
  {
    assert RoomSound(h, h.clients[p].roomId);
  }

  /** Room lists go to anybody, answers to the client that asked. */
  lemma PlainProper(h: State, e: Event, env: Envelope, q: PeerId)
    requires Legal(h, e) && Registered(h)
    requires env == RoomList(MovedBy(h, e).rooms) || (IsReply(env.kind) && env.kind != JoinedRoom && e.Message? && q == e.from)
    ensures Proper(h, e, env, q)
  {
  }

  lemma WelcomeProper(h: State, e: Event, q: PeerId)
    requires Legal(h, e) && Registered(h) && e.Message? && e.env.kind == JoinRoom && q == e.from
    requires JoinFault(h, e.env.roomId) == NoFault
    ensures Proper(h, e, Welcome(h, e.from, e.env.roomId), q)
  {
  }

  lemma JoinedProper(h: State, e: Event, q: PeerId)
    requires Sound(h) && Legal(h, e) && Registered(h) && e.Message? && e.env.kind == JoinRoom
    requires JoinFault(h, e.env.roomId) == NoFault
    requires q in JoinTarget(h, e.from, e.env.roomId).peers - {e.from}
    ensures Proper(h, e, Bare(PeerJoined).(roomId := e.env.roomId, peerId := e.from,
                                           nick := Renamed(h.clients[e.from].nick, e.env), payload := e.env.payload), q)
  {
    hide RoomsWithout, JoinTarget, Sound;
    JoinedShare(h, e.from, e.env, e.newId, q);
  }

  lemma JoinPostsProper(h: State, e: Event, i: nat, q: PeerId)
    requires Sound(h) && Legal(h, e) && Registered(h) && e.Message? && e.env.kind == JoinRoom
    requires i < |PostsOf(h, e)| && q in PostsOf(h, e)[i].to
    ensures Proper(h, e, PostsOf(h, e)[i].env, q)
  {
    hide RoomsWithout, Sound, Proper, JoinTarget, Farewell, RoomList, SnapshotOf, Moved;
    var p := e.from;
    var n := |Farewell(h, p)|;
    if JoinFault(h, e.env.roomId) == NoFault {
      if i < n {
        assert PostsOf(h, e)[i] == Farewell(h, p)[i];
        FarewellProper(h, e, p, i, q);
      } else if i == n + 1 {
        JoinedProper(h, e, q);
      } else if i == n {
        WelcomeProper(h, e, q);
      } else {
        RoomListKind(Moved(h, p, e.env, e.newId).rooms);
        PlainProper(h, e, PostsOf(h, e)[i].env, q);
      }
    } else {
      PlainProper(h, e, PostsOf(h, e)[i].env, q);
    }
  }

  lemma RoomListKind(rooms: map<RoomId, RoomRec>)
    ensures RoomList(rooms).kind == Rooms
  {
  }

  /** Those told of an arrival are in the room with it. */
  lemma JoinedShare(h: State, p: PeerId, env: Envelope, newId: RoomId, q: PeerId)
    requires Sound(h) && p in h.clients && Registered(h) && env.kind == JoinRoom && JoinFault(h, env.roomId) == NoFault
    requires q in JoinTarget(h, p, env.roomId).peers && q != p
    ensures SameRoom(Moved(h, p, env, newId), p, q)
  {
    hide RoomsWithout;
    LeavingRoom(h, p, env.roomId);
    assert RoomSound(h, env.roomId);
  }

  lemma RelayProper(h: State, e: Event, i: nat, q: PeerId)
    requires Sound(h) && Legal(h, e) && Registered(h) && e.Message?
    requires i < |Relayed(h, e.from, e.env)| && q in Relayed(h, e.from, e.env)[i].to
    ensures Proper(h, e, Relayed(h, e.from, e.env)[i].env, q)
  {
    var r := h.clients[e.from].roomId;
    assert r in h.rooms ==> RoomSound(h, r);
  }

  /** Leaving by disconnecting, by creating another room or by asking to. */
  lemma DeparturePostsProper(h: State, e: Event, i: nat, q: PeerId)
    requires Sound(h) && Legal(h, e) && Registered(h)
    requires e.Disconnect? || (e.Message? && (e.env.kind == CreateRoom || e.env.kind == LeaveRoom))
    requires i < |PostsOf(h, e)| && q in PostsOf(h, e)[i].to
    ensures Proper(h, e, PostsOf(h, e)[i].env, q)
  {
    hide RoomsWithout, Sound, Proper, Farewell, RoomList, SnapshotOf, Moved, NewRoom;
    var p := if e.Disconnect? then e.id else e.from;
    var n := |Farewell(h, p)|;
    if i < n {
      assert PostsOf(h, e)[i] == Farewell(h, p)[i];
      FarewellProper(h, e, p, i, q);
    } else {
      RoomListKind(RoomsWithout(h, p));
      if e.Message? {
        RoomListKind(Moved(h, p, e.env, e.newId).rooms);
      }
      PlainProper(h, e, PostsOf(h, e)[i].env, q);
    }
  }

  lemma RoomsUnmoved(h: State, p: PeerId, env: Envelope, newId: RoomId)
    requires Registered(h) && p in h.clients
    requires env.kind == Hello || env.kind == ListRooms || env.kind == Heartbeat
    ensures Moved(h, p, env, newId).rooms == h.rooms
  {
  }

  lemma PostsProper(h: State, e: Event, i: nat, q: PeerId)
    requires Sound(h) && Legal(h, e) && Registered(h)
    requires i < |PostsOf(h, e)| && q in PostsOf(h, e)[i].to
    ensures Proper(h, e, PostsOf(h, e)[i].env, q)
  {
    hide RoomsWithout, Sound, Proper, Farewell, RoomList, SnapshotOf, Moved, NewRoom, JoinTarget, JoinFault, Relayed;
    if e.Disconnect? || e.env.kind == CreateRoom || e.env.kind == LeaveRoom {
      DeparturePostsProper(h, e, i, q);
    } else if e.env.kind == JoinRoom {
      JoinPostsProper(h, e, i, q);
    } else if e.env.kind == Hello || e.env.kind == ListRooms || e.env.kind == Heartbeat {
      RoomListKind(h.rooms);
      RoomsUnmoved(h, e.from, e.env, e.newId);
      PlainProper(h, e, PostsOf(h, e)[i].env, q);
    } else {
      RelayProper(h, e, i, q);
    }
  }

  /** Every envelope a step offers to a client has a proper reason. */
  lemma OfferedProper(h: State, e: Event, q: PeerId, k: nat)
    requires Sound(h) && Legal(h, e) && Registered(h) && k < |Offered(h, e, q)|
    ensures Proper(h, e, Offered(h, e, q)[k], q)
  {
    var i := OfferedByPost(PostsOf(h, e), q, k);
    PostsProper(h, e, i, q);
  }

  lemma QueueBound(events: seq<Event>, q: PeerId)
    requires Run(events) && q in After(events).clients
    ensures |After(events).clients[q].queue| <= QUEUE_LENGTH
  {
    FirstInFirstOut(events, q);
  }

  /** An entry of a queue after a step is an entry of the queue before it, or newly offered. */
  lemma QueueEntry(h: State, e: Event, q: PeerId, k: nat) returns (waited: bool, j: nat)
    requires Legal(h, e) && Registered(h) && q in h.clients && e != Disconnect(q) && |h.clients[q].queue| <= QUEUE_LENGTH
    requires q in Step(h, e).clients && k < |Step(h, e).clients[q].queue|
    ensures waited ==> j < |h.clients[q].queue| && Step(h, e).clients[q].queue[k] == h.clients[q].queue[j]
    ensures !waited ==> j < |Offered(h, e, q)| && Step(h, e).clients[q].queue[k] == Offered(h, e, q)[j]
  {
    hide Step, Offered;
    QueueStep(h, e, q);
    var before := if e == Write(q) then h.clients[q].queue[1..] else h.clients[q].queue;
    waited := k < |before|;
    j := if !waited then k - |before| else if e == Write(q) then k + 1 else k;
  }

  /** On every run, each queued envelope was offered by an earlier event that had a proper reason. */
  lemma {:induction false} QueuedProper(events: seq<Event>, q: PeerId, k: nat) returns (i: nat)
    requires Run(events) && q in After(events).clients && k < |After(events).clients[q].queue|
    ensures i < |events| && Run(events[..i]) && Registered(After(events[..i])) && Legal(After(events[..i]), events[i])
    ensures Proper(After(events[..i]), events[i], After(events).clients[q].queue[k], q)
    decreases events
  {
    hide Proper, Step, Offered, Sound, Legal;
    var before := events[..|events| - 1];
    var e := events[|events| - 1];
    var h := After(before);
    SoundRun(before);
    ClientsAfter(h, e, q);
    if e == Connect(q) {
      QueueConnect(h, e, q);
    }
    QueueBound(before, q);
    var waited, j := QueueEntry(h, e, q, k);
    if waited {
      i := QueuedProper(before, q, j);
      assert before[..i] == events[..i];
    } else {
      i := |events| - 1;
      OfferedProper(h, e, q, j);
    }
  }

  /** The documented room_closed message reaches nobody: it is only ever posted to an empty room. */
  lemma RoomClosedReachesNobody(events: seq<Event>, q: PeerId, k: nat)
    requires Run(events) && q in After(events).clients && k < |After(events).clients[q].queue|
    ensures After(events).clients[q].queue[k].kind != RoomClosed
  {
    hide RoomList;
    var i := QueuedProper(events, q, k);
    RoomListKind(MovedBy(After(events[..i]), events[i]).rooms);
  }

  // ----- Exactly whom a relayed message reaches -----

  /** Status, and voice of 1 to 4096 bytes, reach everybody else in the sender's listed room once, and nobody else;
      from anywhere else, or with no or more bytes, they reach nobody. */
  lemma BroadcastExact(h: State, e: Event, q: PeerId)
    requires Sound(h) && Legal(h, e) && Registered(h) && e.Message? && (IsStatus(e.env.kind) || e.env.kind == VoiceFrame)
    ensures var sends := h.clients[e.from].roomId in h.rooms && (e.env.kind == VoiceFrame ==> 1 <= |e.env.payload| <= 4096);
            |Offered(h, e, q)| == if sends && q != e.from && SameRoom(h, e.from, q) then 1 else 0
  {
    var r := h.clients[e.from].roomId;
    assert PostsOf(h, e) == Relayed(h, e.from, e.env) && |PostsOf(h, e)| <= 1;
    if r in h.rooms {
      assert RoomSound(h, r);
      if q in h.clients && h.clients[q].roomId == r {
        assert HomeSound(h, q);
      }
    }
    if |PostsOf(h, e)| == 1 {
      assert Offers(PostsOf(h, e)[..0], q) == [];
    }
  }

  /** A signal reaches the one client it names, if that shares the sender's room; otherwise the sender hears an error. */
  lemma SignalExact(h: State, e: Event, q: PeerId)
    requires Sound(h) && Legal(h, e) && Registered(h) && e.Message? && IsIce(e.env.kind)
    ensures var reached := SameRoom(h, e.from, e.env.targetId);
            |Offered(h, e, q)| == (if q == (if reached then e.env.targetId else e.from) then 1 else 0) &&
            (Offered(h, e, q) != [] ==> Offered(h, e, q)[0].kind == if reached then e.env.kind else Error)
  {
    assert PostsOf(h, e) == Relayed(h, e.from, e.env) && |PostsOf(h, e)| == 1;
    assert Offers(PostsOf(h, e)[..0], q) == [];
  }

  // ----- Room lists -----

  /** The last room list among some messages. */
  function LatestList(envs: seq<Envelope>): Option<Envelope>
    decreases envs
  {
    if envs == [] then None
    else if envs[|envs| - 1].kind == Rooms then Some(envs[|envs| - 1])
    else LatestList(envs[..|envs| - 1])
  }

  lemma {:induction false} LatestOf(a: seq<Envelope>, b: seq<Envelope>)
    ensures LatestList(a + b) == if LatestList(b).Some? then LatestList(b) else LatestList(a)
    decreases b
  {
    if b == [] {
      assert a + b == a;
    } else {
      assert (a + b)[..|a + b| - 1] == a + b[..|b| - 1];
      LatestOf(a, b[..|b| - 1]);
    }
  }

  lemma {:induction false} LatestIsOne(envs: seq<Envelope>) returns (k: nat)
    ensures LatestList(envs).Some? ==> k < |envs| && envs[k] == LatestList(envs).value && envs[k].kind == Rooms
    decreases envs
  {
    k := 0;
    if envs != [] {
      if envs[|envs| - 1].kind == Rooms {
        k := |envs| - 1;
      } else {
        k := LatestIsOne(envs[..|envs| - 1]);
      }
    }
  }

  /** A step that changes a room ends by telling everybody. */
  lemma ChangeAnnounced(h: State, e: Event, q: PeerId)
    requires Sound(h) && Legal(h, e) && Registered(h) && q in MovedBy(h, e).clients
    requires MovedBy(h, e).rooms != h.rooms
    ensures LatestList(Offered(h, e, q)).Some?
  {
    hide MovedBy, PostsOf, RoomList, Sound, Legal;
    RoomListKind(MovedBy(h, e).rooms);
    LastPost(h, e, q);
  }

  lemma LastPost(h: State, e: Event, q: PeerId)
    requires Legal(h, e) && Registered(h) && q in MovedBy(h, e).clients && MovedBy(h, e).rooms != h.rooms
    ensures var posts := PostsOf(h, e);
            posts != [] && q in posts[|posts| - 1].to && posts[|posts| - 1].env == RoomList(MovedBy(h, e).rooms)
  {
    hide RoomsWithout, Farewell, RoomList, JoinTarget, NewRoom, SnapshotOf;
    NothingToLeave(h, e);
  }

  /** A disconnect of a client in no listed room changes no room. */
  lemma NothingToLeave(h: State, e: Event)
    requires Legal(h, e) && Registered(h)
    ensures e.Disconnect? && (h.clients[e.id].roomId == "" || h.clients[e.id].roomId !in h.rooms)
        ==> RoomsWithout(h, e.id) == h.rooms
  {
  }

  /** On every run the last room list a client was offered shows the rooms as they are now. */
  lemma {:induction false} ListsAreCurrent(events: seq<Event>, q: PeerId)
    requires Run(events) && q in After(events).clients
    ensures var latest := LatestList(LedgerAfter(events, q).offered);
            latest.Some? ==> latest.value == RoomList(After(events).rooms)
    decreases events
  {
    hide MovedBy, PostsOf, Sound, Offered, RoomList;
    var before := events[..|events| - 1];
    var e := events[|events| - 1];
    var h := After(before);
    SoundRun(before);
    ClientsAfter(h, e, q);
    ClientsMoved(h, e, q);
    if e != Connect(q) {
      ListsAreCurrent(before, q);
      var offer := Offered(h, e, q);
      LatestOf(LedgerAfter(before, q).offered, offer);
      var k := LatestIsOne(offer);
      if LatestList(offer).Some? {
        OfferedProper(h, e, q, k);
      } else if MovedBy(h, e).rooms != h.rooms {
        ChangeAnnounced(h, e, q);
      }
    }
  }

  lemma ClientsMoved(h: State, e: Event, q: PeerId)
    requires Legal(h, e) && Registered(h)
    ensures q in MovedBy(h, e).clients <==> q in Step(h, e).clients
    ensures Step(h, e).rooms == MovedBy(h, e).rooms
  {
    hide PostsOf, RoomsWithout;
    DeliveryKeeps(MovedBy(h, e).clients, PostsOf(h, e));
  }
}
