/**
 * The client's application object between its parts: a message's text goes through the session, and what the
 * dispatcher asks for goes to the direct transport and the player. Per peer, each message is shown to make exactly
 * the one move of the handshake that it means, and each relayed frame exactly one call of the player or none.
 */
module Client {
  import opened Common
  import opened Coordinator
  import opened ServerMessage
  import opened Session
  import H = Handshake
  import RelayFrame
  import Replica

  // ----- What calls do to the transport -----

  /** The peer and the action of the handshake that a call stands for. */
  function MoveOf(c: Call, now: int): Option<(PeerId, H.Action)> {
    match c
    case Ensure(q, _) => Some((q, H.Meet(now)))
    case Pass(q, kind, payload) => Some((q, H.Receive(kind, payload, now)))
    case Remove(q) => Some((q, H.Forget))
    case Stop => None
    case Play(_, _) => None
  }

  function AfterCall(e: H.Endpoint, self: PeerId, c: Call, now: int): H.Endpoint {
    if c.Stop? then H.Endpoint(false, [], map[])
    else
      match MoveOf(c, now)
      case None => e
      case Some((q, a)) => H.EndpointAfter(e, self, q, a)
  }

  function SaidBy(e: H.Endpoint, self: PeerId, c: Call, now: int): seq<H.Outgoing> {
    match MoveOf(c, now)
    case None => []
    case Some((q, a)) => H.Utters(e, self, q, a)
  }

  function AfterCalls(e: H.Endpoint, self: PeerId, calls: seq<Call>, now: int): H.Endpoint
    decreases calls
  {
    if calls == [] then e
    else AfterCall(AfterCalls(e, self, calls[..|calls| - 1], now), self, calls[|calls| - 1], now)
  }

  function Said(e: H.Endpoint, self: PeerId, calls: seq<Call>, now: int): seq<H.Outgoing>
    decreases calls
  {
    if calls == [] then []
    else
      var before := calls[..|calls| - 1];
      Said(e, self, before, now) + SaidBy(AfterCalls(e, self, before, now), self, calls[|calls| - 1], now)
  }

  /** A frame handed to the player. */
  datatype Played = Played(from: PeerId, frame: RelayFrame.Frame)

  function PlaysOf(calls: seq<Call>): seq<Played>
    decreases calls
  {
    if calls == [] then []
    else
      var c := calls[|calls| - 1];
      PlaysOf(calls[..|calls| - 1]) + if c.Play? then [Played(c.from, c.frame)] else []
  }

  /** The calls name the right side to make the offer. */
  predicate Directed(calls: seq<Call>, self: PeerId) {
    forall c | c in calls :: c.Ensure? ==> c.initiate == Initiates(self, c.peer)
  }

  method PerformCall(transport: H.Transport, c: Call, now: int)
    requires c.Ensure? ==> c.initiate == Initiates(transport.localId, c.peer)
    modifies transport
    ensures transport.View() == AfterCall(old(transport.View()), transport.localId, c, now)
    ensures transport.signals == old(transport.signals) + SaidBy(old(transport.View()), transport.localId, c, now)
  {
    hide H.EndpointAfter, H.Utters;
    match c
    case Ensure(q, initiate) => transport.EnsurePeer(q, initiate, now);
    case Pass(q, kind, payload) => transport.HandleSignal(q, kind, payload, now);
    case Remove(q) =>
      ForgetsSilently(transport.View(), transport.localId, q);
      transport.RemovePeer(q);
    case Stop => transport.Stop();
    case Play(_, _) =>
  }

  lemma ForgetsSilently(e: H.Endpoint, self: PeerId, q: PeerId)
    ensures H.Utters(e, self, q, H.Forget) == []
  {
  }

  method Perform(transport: H.Transport, calls: seq<Call>, now: int) returns (plays: seq<Played>)
    requires Directed(calls, transport.localId)
    modifies transport
    ensures transport.View() == AfterCalls(old(transport.View()), transport.localId, calls, now)
    ensures transport.signals == old(transport.signals) + Said(old(transport.View()), transport.localId, calls, now)
    ensures plays == PlaysOf(calls)
  {
    hide AfterCall, SaidBy;
    plays := [];
    var i := 0;
    while i < |calls|
      invariant 0 <= i <= |calls|
      invariant transport.View() == AfterCalls(old(transport.View()), transport.localId, calls[..i], now)
      invariant transport.signals == old(transport.signals) + Said(old(transport.View()), transport.localId, calls[..i], now)
      invariant plays == PlaysOf(calls[..i])
    {
      assert calls[..i + 1][..i] == calls[..i] && calls[i] in calls;
      PerformCall(transport, calls[i], now);
      if calls[i].Play? {
        plays := plays + [Played(calls[i].from, calls[i].frame)];
      }
      i := i + 1;
    }
    assert calls[..i] == calls;
  }

  // ----- Peer by peer -----

  function RouteAt(e: H.Endpoint, q: PeerId): Option<H.Route> {
    if q in e.routes then Some(e.routes[q]) else None
  }

  /** The moves about `q` among some calls. */
  function MovesAbout(calls: seq<Call>, q: PeerId, now: int): seq<H.Action>
    decreases calls
  {
    if calls == [] then []
    else
      var m := MoveOf(calls[|calls| - 1], now);
      MovesAbout(calls[..|calls| - 1], q, now) + if m.Some? && m.value.0 == q then [m.value.1] else []
  }

  /** An action looks at no route but that of its peer. */
  lemma SameMove(e: H.Endpoint, f: H.Endpoint, self: PeerId, q: PeerId, a: H.Action)
    requires e.running == f.running && e.local == f.local && RouteAt(e, q) == RouteAt(f, q)
    ensures RouteAt(H.EndpointAfter(e, self, q, a), q) == RouteAt(H.EndpointAfter(f, self, q, a), q)
    ensures H.Utters(e, self, q, a) == H.Utters(f, self, q, a)
  {
    hide H.C.ParsePayload, H.PayloadOf, Initiates;
  }

  /** ... changes no other ... */
  lemma OtherRoute(e: H.Endpoint, self: PeerId, q: PeerId, a: H.Action, q': PeerId)
    ensures H.EndpointAfter(e, self, q, a).running == e.running && H.EndpointAfter(e, self, q, a).local == e.local
    ensures q' != q ==> RouteAt(H.EndpointAfter(e, self, q, a), q') == RouteAt(e, q')
  {
    hide H.RouteAfter, H.Heeded;
  }

  /** ... and tells nobody else. */
  lemma OtherMove(e: H.Endpoint, self: PeerId, q: PeerId, a: H.Action, q': PeerId)
    ensures H.EndpointAfter(e, self, q, a).running == e.running && H.EndpointAfter(e, self, q, a).local == e.local
    ensures q' != q ==> RouteAt(H.EndpointAfter(e, self, q, a), q') == RouteAt(e, q')
    ensures q' != q ==> H.OutgoingTo(H.Utters(e, self, q, a), q') == []
    ensures H.OutgoingTo(H.Utters(e, self, q, a), q) == H.Utters(e, self, q, a)
  {
    hide H.EndpointAfter, H.OutgoingTo, H.Utters, RouteAt;
    OtherRoute(e, self, q, a, q');
    H.OutgoingNone();
    H.OutgoingMore([], H.Utters(e, self, q, a), q);
    assert [] + H.Utters(e, self, q, a) == H.Utters(e, self, q, a);
  }

  /** The endpoint after at most one move about `q`, as far as `q` is concerned. */
  function Moved(e: H.Endpoint, self: PeerId, q: PeerId, moves: seq<H.Action>): H.Endpoint {
    if moves == [] then e else H.EndpointAfter(e, self, q, moves[0])
  }

  function Uttered(e: H.Endpoint, self: PeerId, q: PeerId, moves: seq<H.Action>): seq<H.Outgoing> {
    if moves == [] then [] else H.Utters(e, self, q, moves[0])
  }

  lemma {:induction false} CallsAt(e: H.Endpoint, self: PeerId, calls: seq<Call>, q: PeerId, now: int)
    requires Stop !in calls && |MovesAbout(calls, q, now)| <= 1
    ensures var f := AfterCalls(e, self, calls, now);
            && f.running == e.running && f.local == e.local
            && RouteAt(f, q) == RouteAt(Moved(e, self, q, MovesAbout(calls, q, now)), q)
            && H.OutgoingTo(Said(e, self, calls, now), q) == Uttered(e, self, q, MovesAbout(calls, q, now))
    decreases calls
  {
    hide H.EndpointAfter, H.Utters, H.OutgoingTo, RouteAt;
    H.OutgoingNone();
    if calls != [] {
      var before, c := calls[..|calls| - 1], calls[|calls| - 1];
      CallsAt(e, self, before, q, now);
      var mid := AfterCalls(e, self, before, now);
      var m := MoveOf(c, now);
      if m.None? {
        assert Said(e, self, calls, now) == Said(e, self, before, now);
      } else {
        H.OutgoingMore(Said(e, self, before, now), H.Utters(mid, self, m.value.0, m.value.1), m.value.0);
        OtherMove(mid, self, m.value.0, m.value.1, q);
        if m.value.0 == q {
          assert MovesAbout(before, q, now) == [];
          SameMove(mid, e, self, q, m.value.1);
        } else {
          assert MovesAbout(calls, q, now) == MovesAbout(before, q, now);
        }
      }
    }
  }

  // ----- What a message means to the transport and the player -----

  /** The move about `q` that a message means: meeting the members of a readable room and those who arrive, passing a
      signal on, forgetting who left. */
  function MeantFor(env: Envelope, self: PeerId, q: PeerId, now: int): (moves: seq<H.Action>)
    ensures |moves| <= 1
  {
    match env.kind
    case JoinedRoom =>
      if env.room.Some? && Readable(env.room.value) && q in env.room.value.peers && q != self then [H.Meet(now)] else []
    case PeerJoined => if q == env.peerId then [H.Meet(now)] else []
    case PeerLeft => if q == env.peerId then [H.Forget] else []
    case IceOffer | IceAnswer | IceCandidate => if q == env.peerId then [H.Receive(env.kind, env.payload, now)] else []
    case _ => []
  }

  /** What it gives the player: a relayed frame with sound, from somebody not heard directly. */
  function MeantToPlay(env: Envelope, heard: set<PeerId>): seq<Played> {
    if env.kind == VoiceFrame && RelayFrame.Read(env.payload).payload != [] && env.peerId !in heard
    then [Played(env.peerId, RelayFrame.Read(env.payload))]
    else []
  }

  predicate Distinct(ids: seq<PeerId>) {
    forall i, j | 0 <= i < j < |ids| :: ids[i] != ids[j]
  }

  lemma OneMoreCall(calls: seq<Call>, c: Call, q: PeerId, now: int)
    ensures var m := MoveOf(c, now);
            MovesAbout(calls + [c], q, now) == MovesAbout(calls, q, now) + if m.Some? && m.value.0 == q then [m.value.1] else []
    ensures PlaysOf(calls + [c]) == PlaysOf(calls) + if c.Play? then [Played(c.from, c.frame)] else []
    ensures Stop in calls + [c] <==> Stop in calls || c == Stop
  {
    assert (calls + [c])[..|calls|] == calls;
  }

  lemma OneMoreDirected(calls: seq<Call>, c: Call, self: PeerId)
    requires Directed(calls, self) && (c.Ensure? ==> c.initiate == Initiates(self, c.peer))
    ensures Directed(calls + [c], self)
  {
  }

  lemma EnsureOneMore(ids: seq<PeerId>, id: PeerId, self: PeerId)
    ensures EnsureAll(ids + [id], self) == if id == self then EnsureAll(ids, self) else EnsureAll(ids, self) + [Ensure(id, Initiates(self, id))]
  {
    assert (ids + [id])[..|ids|] == ids;
  }

  lemma {:induction false} MeetsEachOnce(ids: seq<PeerId>, self: PeerId, q: PeerId, now: int)
    requires Distinct(ids)
    ensures MovesAbout(EnsureAll(ids, self), q, now) == if q in ids && q != self then [H.Meet(now)] else []
    ensures Directed(EnsureAll(ids, self), self) && PlaysOf(EnsureAll(ids, self)) == [] && Stop !in EnsureAll(ids, self)
    decreases ids
  {
    if ids == [] {
      NoCalls(q, now);
      assert EnsureAll([], self) == [];
    } else {
      hide Initiates, EnsureAll, MovesAbout, PlaysOf, Directed;
      var before, id := ids[..|ids| - 1], ids[|ids| - 1];
      assert ids == before + [id] && (q in ids <==> q in before || q == id);
      MeetsEachOnce(before, self, q, now);
      EnsureOneMore(before, id, self);
      if id != self {
        var c := Ensure(id, Initiates(self, id));
        OneMoreCall(EnsureAll(before, self), c, q, now);
        OneMoreDirected(EnsureAll(before, self), c, self);
      }
    }
  }

  lemma OneCall(c: Call, q: PeerId, now: int)
    ensures MovesAbout([c], q, now) ==
              if MoveOf(c, now).Some? && MoveOf(c, now).value.0 == q then [MoveOf(c, now).value.1] else []
    ensures PlaysOf([c]) == if c.Play? then [Played(c.from, c.frame)] else []
  {
    assert [c][..0] == [];
  }

  /** The calls the dispatcher makes are what the message means. */
  lemma CallsAreMeant(env: Envelope, ids: seq<PeerId>, self: PeerId, heard: set<PeerId>, q: PeerId, now: int)
    requires Posted(env) && Lists(ids, env) && Distinct(ids)
    ensures var calls := CallsOf(Meant(env, ids), self, heard);
            && Directed(calls, self)
            && MovesAbout(calls, q, now) == MeantFor(env, self, q, now)
            && PlaysOf(calls) == MeantToPlay(env, heard)
            && (env.kind != RoomClosed ==> Stop !in calls)
            && (env.kind == RoomClosed ==> calls == [Stop])
  {
    hide CallsOf, Meant, RelayFrame.Read, Readable, Initiates, MovesAbout, PlaysOf, EnsureAll;
    CallsAsked(env, ids, self, heard);
    var calls := CallsOf(Meant(env, ids), self, heard);
    NoCalls(q, now);
    if env.kind == JoinedRoom {
      var read := if Readable(env.room.value) then ids else [];
      MeetsEachOnce(read, self, q, now);
      assert q in ids <==> q in (set id | id in ids);
    } else if calls != [] {
      assert calls == [calls[0]];
      OneCall(calls[0], q, now);
    }
  }

  lemma NoCalls(q: PeerId, now: int)
    ensures MovesAbout([], q, now) == [] && PlaysOf([]) == []
  {
  }

  // ----- Calls are steps of the handshake -----

  /** The signal that a passed-on message carried. */
  predicate Carries(s: H.Sig, p: PeerId, c: Call) {
    c.Pass? && s.to == p && s.from == c.from && s.kind == c.kind && H.PayloadOf(s.local) == c.payload
  }

  /** The event of the handshake that a call at client `p` is; `i` is the signal it carries, if it carries one. */
  function EventOf(p: PeerId, c: Call, now: int, i: nat): H.Event
    requires MoveOf(c, now).Some?
  {
    if c.Pass? then H.Deliver(i, now) else H.Act(p, MoveOf(c, now).value.0, MoveOf(c, now).value.1)
  }

  lemma CallIsEvent(w: H.World, p: PeerId, c: Call, now: int, i: nat)
    requires p in w.ends && (c.Ensure? || c.Remove? || (i < |w.sent| && Carries(w.sent[i], p, c)))
    ensures H.Possible(w, EventOf(p, c, now, i))
    ensures var next := H.Next(w, EventOf(p, c, now, i));
            && p in next.ends && next.ends[p] == AfterCall(w.ends[p], p, c, now)
            && next.ends == w.ends[p := next.ends[p]]
  {
    hide H.EndpointAfter, H.SentBy, H.LogAfter, H.Heeded, H.PayloadOf;
  }

  /** The calls of a message that names peers are a run of the handshake that goes on from any other. */
  lemma {:induction false} CallsAreRun(events: seq<H.Event>, p: PeerId, calls: seq<Call>, now: int) returns (more: seq<H.Event>)
    requires H.Run(events) && p in H.After(events).ends
    requires forall c | c in calls :: c.Ensure? || c.Remove?
    ensures |more| == |calls| && H.Run(events + more) && p in H.After(events + more).ends
    ensures H.After(events + more).ends[p] == AfterCalls(H.After(events).ends[p], p, calls, now)
    decreases calls
  {
    hide H.Run, H.After, H.Next, H.Possible, AfterCall;
    if calls == [] {
      more := [];
      assert events + more == events;
    } else {
      var c := calls[|calls| - 1];
      var before := CallsAreRun(events, p, calls[..|calls| - 1], now);
      assert c in calls;
      CallIsEvent(H.After(events + before), p, c, now, 0);
      H.RunExtends(events + before, EventOf(p, c, now, 0));
      more := before + [EventOf(p, c, now, 0)];
      assert events + more == (events + before) + [EventOf(p, c, now, 0)];
    }
  }

  // ----- The code -----

  /** hasPeerConnection, for every peer. */
  function Heard(e: H.Endpoint): set<PeerId> {
    set q | q in e.routes && e.routes[q].heard
  }

  /**
   * One message, from its text to session, transport and player. The known peers change as in the replica theorem;
   * every route, and what is said to its peer, changes by exactly the move the message means for that peer; and the
   * player gets a relayed frame exactly when it sounds and its sender is not heard directly.
   */
  method Receive(session: VoiceSession, transport: H.Transport, text: string, peer: PeerInfo, now: int,
                 ghost env: Envelope, ghost ids: seq<PeerId>, ghost at: Times)
    returns (plays: seq<Played>)
    requires session.Valid() && session.local.id == transport.localId
    requires text == Written(env, ids, at) && Posted(env) && Sent(env) && Lists(ids, env) && Distinct(ids)
    modifies session, transport
    ensures session.Valid()
    ensures session.peers.Keys == Replica.Apply(old(session.peers.Keys), env, transport.localId)
    ensures env.kind == RoomClosed ==> transport.View() == H.Endpoint(false, [], map[])
    ensures env.kind != RoomClosed ==>
              && transport.running == old(transport.running) && transport.local == old(transport.local)
              && |transport.signals| >= |old(transport.signals)|
              && transport.signals[..|old(transport.signals)|] == old(transport.signals)
              && forall q :: MovedAsMeant(old(transport.View()), transport.View(), transport.signals[|old(transport.signals)|..],
                                          transport.localId, q, MeantFor(env, transport.localId, q, now))
    ensures plays == MeantToPlay(env, Heard(old(transport.View())))
  {
    hide CallsOf, Meant, H.EndpointAfter, MeantFor, MeantToPlay, VoiceSession.Valid, Written, Posted, Sent, Lists, Distinct,
         MovedAsMeant, AfterCalls, Said;
    ghost var e := transport.View();
    ghost var self := transport.localId;
    var heard := Heard(transport.View());
    var calls := Session.Receive(session, text, peer, heard, env, ids, at);
    CallsAreMeant(env, ids, self, heard, "", now);
    ClosedStops(e, self, now);
    assert transport.View() == e;
    plays := Perform(transport, calls, now);
    if env.kind != RoomClosed {
      AllMoved(env, ids, e, self, heard, now);
    }
  }

  lemma AllMoved(env: Envelope, ids: seq<PeerId>, e: H.Endpoint, self: PeerId, heard: set<PeerId>, now: int)
    requires Posted(env) && Lists(ids, env) && Distinct(ids) && env.kind != RoomClosed
    ensures var calls := CallsOf(Meant(env, ids), self, heard);
            var f := AfterCalls(e, self, calls, now);
            && f.running == e.running && f.local == e.local
            && forall q :: MovedAsMeant(e, f, Said(e, self, calls, now), self, q, MeantFor(env, self, q, now))
  {
    hide *;
    var calls := CallsOf(Meant(env, ids), self, heard);
    forall q
      ensures MovedAsMeant(e, AfterCalls(e, self, calls, now), Said(e, self, calls, now), self, q, MeantFor(env, self, q, now))
    {
      CallsAreMeant(env, ids, self, heard, q, now);
      MovedByCalls(e, self, calls, q, now, MeantFor(env, self, q, now));
    }
    CallsAreMeant(env, ids, self, heard, "", now);
    MovedByCalls(e, self, calls, "", now, MeantFor(env, self, "", now));
  }

  /** As far as `q` is concerned, the endpoint made these moves, and said to `q` what they say. */
  predicate MovedAsMeant(e: H.Endpoint, f: H.Endpoint, said: seq<H.Outgoing>, self: PeerId, q: PeerId, moves: seq<H.Action>) {
    RouteAt(f, q) == RouteAt(Moved(e, self, q, moves), q) && H.OutgoingTo(said, q) == Uttered(e, self, q, moves)
  }

  lemma MovedByCalls(e: H.Endpoint, self: PeerId, calls: seq<Call>, q: PeerId, now: int, moves: seq<H.Action>)
    requires Stop !in calls && MovesAbout(calls, q, now) == moves && |moves| <= 1
    ensures AfterCalls(e, self, calls, now).running == e.running && AfterCalls(e, self, calls, now).local == e.local
    ensures MovedAsMeant(e, AfterCalls(e, self, calls, now), Said(e, self, calls, now), self, q, moves)
  {
    CallsAt(e, self, calls, q, now);
  }

  lemma ClosedStops(e: H.Endpoint, self: PeerId, now: int)
    ensures AfterCalls(e, self, [Stop], now) == H.Endpoint(false, [], map[])
  {
  }
}
