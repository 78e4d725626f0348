/**
 * The offer/answer handshake of the direct voice transport, for any number of clients. Signals may be
 * delivered in any order, late and more than once; clients may start, stop, meet and lose peers at any
 * time. Routes are the per-peer records of the transport; a route's life runs from its creation to its
 * removal.
 *
 * Time is in milliseconds. Sockets and endpoint lookups are not part of this model.
 */
module Handshake {
  import opened Common
  import C = Candidates
  import JsonScan
  import opened Coordinator
  import opened Session

  const SIGNAL_LIMIT := 8
  const FIRST_SIGNAL_AFTER := 2000
  const SIGNAL_EVERY := 3000

  /** `lastSignalAt` is None until the first ice_candidate, `heard` is false until the first packet. */
  datatype Route = Route(candidates: seq<C.Candidate>, offerSent: bool, answerSent: bool, heard: bool,
                         signals: nat, createdAt: int, lastSignalAt: Option<int>)

  datatype Endpoint = Endpoint(running: bool, local: seq<C.Candidate>, routes: map<PeerId, Route>)

  // ----- One endpoint, one route -----

  datatype Action =
    | Meet(now: int)                                     // ensurePeer
    | Receive(kind: Kind, payload: string, now: int)     // handleSignal
    | Pump(now: int)                                     // pump, for this route
    | Hear(now: int)                                     // a packet that names the peer as its source
    | Forget                                             // removePeer

  function NewRoute(now: int): Route {
    Route([], false, false, false, 0, now, None)
  }

  function RouteOr(e: Endpoint, q: PeerId, now: int): Route {
    if q in e.routes then e.routes[q] else NewRoute(now)
  }

  /** An unheard peer is due another ice_candidate. */
  predicate Due(r: Route, now: int) {
    !r.heard && r.signals < SIGNAL_LIMIT && now - r.createdAt > FIRST_SIGNAL_AFTER &&
    (r.lastSignalAt.None? || now - r.lastSignalAt.value > SIGNAL_EVERY)
  }

  /** Calls about a nameless peer, about the client itself or outside a session are ignored. */
  predicate Heeded(e: Endpoint, self: PeerId, q: PeerId, a: Action) {
    a.Forget? || (a.Pump? && e.running && q in e.routes) ||
    ((a.Meet? || a.Receive? || a.Hear?) && e.running && q != "" && q != self)
  }

  function RouteAfter(e: Endpoint, self: PeerId, q: PeerId, a: Action): Route
    requires Heeded(e, self, q, a) && !a.Forget?
  {
    var r := RouteOr(e, q, a.now);
    match a
    case Meet(now) => r.(createdAt := now, offerSent := r.offerSent || Initiates(self, q))
    case Receive(kind, payload, _) =>
      r.(candidates := C.ParsePayload(payload), answerSent := r.answerSent || kind == IceOffer)
    case Pump(now) => if Due(r, now) then r.(signals := r.signals + 1, lastSignalAt := Some(now)) else r
    case Hear(_) => r.(heard := true)
  }

  function EndpointAfter(e: Endpoint, self: PeerId, q: PeerId, a: Action): Endpoint {
    if !Heeded(e, self, q, a) then e
    else if a.Forget? then e.(routes := e.routes - {q})
    else e.(routes := e.routes[q := RouteAfter(e, self, q, a)])
  }

  /** The signal an action sends to the peer, if any. */
  function Sends(e: Endpoint, self: PeerId, q: PeerId, a: Action): Option<Kind> {
    if !Heeded(e, self, q, a) || a.Forget? then None
    else
      var r := RouteOr(e, q, a.now);
      match a
      case Meet(_) => if Initiates(self, q) && !r.offerSent then Some(IceOffer) else None
      case Receive(kind, _, _) => if kind == IceOffer && !r.answerSent then Some(IceAnswer) else None
      case Pump(now) => if Due(r, now) then Some(IceCandidate) else None
      case Hear(_) => None
  }

  function PayloadOf(local: seq<C.Candidate>): string {
    JsonScan.Print(C.PayloadJson(local))
  }

  // ----- The transport object -----

  datatype Outgoing = Outgoing(to: PeerId, kind: Kind, payload: string)

  /** The same, as the call the signal callback gets. */
  function Utters(e: Endpoint, self: PeerId, q: PeerId, a: Action): (out: seq<Outgoing>)
    ensures |out| <= 1 && forall o | o in out :: o.to == q
  {
    var kind := Sends(e, self, q, a);
    if kind.Some? then [Outgoing(q, kind.value, PayloadOf(e.local))] else []
  }

  /** A known route after its turn in a pump. */
  function Pumped(e: Endpoint, self: PeerId, q: PeerId, now: int): Route
    requires q in e.routes
  {
    if e.running then RouteAfter(e, self, q, Pump(now)) else e.routes[q]
  }

  class Transport {
    const localId: PeerId
    var running: bool
    var local: seq<C.Candidate>
    var peers: map<PeerId, Route>
    var signals: seq<Outgoing>  // everything handed to the signal callback

    constructor (id: PeerId)
      ensures localId == id && View() == Endpoint(false, [], map[]) && signals == []
    {
      localId := id;
      running := false;
      local := [];
      peers := map[];
      signals := [];
    }

    function View(): Endpoint
      reads this
    {
      Endpoint(running, local, peers)
    }

    function Said(q: PeerId, a: Action): seq<Outgoing>
      reads this
    {
      Utters(View(), localId, q, a)
    }

    method Start(gathered: seq<C.Candidate>)
      modifies this
      ensures View() == Endpoint(true, gathered, map[]) && signals == old(signals)
    {
      running := true;
      local := gathered;
      peers := map[];
    }

    method Stop()
      modifies this
      ensures View() == Endpoint(false, [], map[]) && signals == old(signals)
    {
      running := false;
      local := [];
      peers := map[];
    }

    method Send(q: PeerId, kind: Kind)
      modifies this`signals
      ensures signals == old(signals) + [Outgoing(q, kind, PayloadOf(local))]
    {
      var payload := C.MakeLocalPayloadJson(local);
      signals := signals + [Outgoing(q, kind, payload)];
    }

    method EnsurePeer(q: PeerId, initiateOffer: bool, now: int)
      requires initiateOffer == Initiates(localId, q)
      modifies this`peers, this`signals
      ensures View() == EndpointAfter(old(View()), localId, q, Meet(now))
      ensures signals == old(signals) + old(Said(q, Meet(now)))
    {
      if !running || q == "" || q == localId {
        return;
      }
      var route := if q in peers then peers[q] else NewRoute(now);
      route := route.(createdAt := now);
      if initiateOffer && !route.offerSent {
        route := route.(offerSent := true);
        Send(q, IceOffer);
      }
      peers := peers[q := route];
    }

    method RemovePeer(q: PeerId)
      modifies this`peers
      ensures View() == EndpointAfter(old(View()), localId, q, Forget)
    {
      peers := peers - {q};
    }

    method HandleSignal(q: PeerId, kind: Kind, payload: string, now: int)
      modifies this`peers, this`signals
      ensures View() == EndpointAfter(old(View()), localId, q, Receive(kind, payload, now))
      ensures signals == old(signals) + old(Said(q, Receive(kind, payload, now)))
    {
      if !running || q == "" || q == localId {
        return;
      }
      var route := if q in peers then peers[q] else NewRoute(now);
      var candidates := C.ParseCandidates(payload);
      route := route.(candidates := candidates);
      if kind == IceOffer && !route.answerSent {
        route := route.(answerSent := true);
        Send(q, IceAnswer);
      }
      peers := peers[q := route];
    }

    method PacketHeard(q: PeerId, now: int)
      modifies this`peers
      ensures View() == EndpointAfter(old(View()), localId, q, Hear(now))
    {
      if !running || q == "" || q == localId {
        return;
      }
      var route := if q in peers then peers[q] else NewRoute(now);
      peers := peers[q := route.(heard := true)];
    }

    method PumpRoute(q: PeerId, now: int)
      requires q in peers
      modifies this`peers, this`signals
      ensures peers == old(peers)[q := Pumped(old(View()), localId, q, now)]
      ensures View() == EndpointAfter(old(View()), localId, q, Pump(now))
      ensures signals == old(signals) + old(Said(q, Pump(now)))
    {
      var route := peers[q];
      if running && !route.heard && route.signals < SIGNAL_LIMIT && now - route.createdAt > FIRST_SIGNAL_AFTER &&
         (route.lastSignalAt.None? || now - route.lastSignalAt.value > SIGNAL_EVERY)
      {
        route := route.(lastSignalAt := Some(now), signals := route.signals + 1);
        Send(q, IceCandidate);
      }
      peers := peers[q := route];
    }

    /** One pump gives every route its turn, in whatever order the map has. */
    method PumpAll(now: int)
      modifies this`peers, this`signals
      ensures peers.Keys == old(peers).Keys
      ensures forall q | q in peers :: peers[q] == Pumped(old(View()), localId, q, now)
      ensures |signals| >= |old(signals)| && signals[..|old(signals)|] == old(signals)
      ensures forall q | q in peers ::
                OutgoingTo(signals[|old(signals)|..], q) == Utters(old(View()), localId, q, Pump(now))
    {
      hide Utters, Pumped, EndpointAfter, OutgoingTo, PumpedSoFar;
      ghost var before := View();
      ghost var said: seq<Outgoing> := [];
      var todo := peers.Keys;
      PumpStarts(before, localId, now);
      while todo != {}
        invariant todo <= peers.Keys && running == before.running && local == before.local
        invariant PumpedSoFar(before, localId, now, peers, said, todo)
        invariant signals == old(signals) + said
        decreases |todo|
      {
        var q :| q in todo;
        PumpTurn(before, localId, now, peers, said, todo, q);
        todo := todo - {q};
        said := said + Said(q, Pump(now));
        PumpRoute(q, now);
      }
      PumpEnds(before, localId, now, peers, said);
      assert signals[|old(signals)|..] == said;
    }
  }

  /** Every route but those of `todo` has had its turn. */
  ghost predicate PumpedSoFar(e: Endpoint, self: PeerId, now: int, routes: map<PeerId, Route>, said: seq<Outgoing>,
                              todo: set<PeerId>)
  {
    && routes.Keys == e.routes.Keys
    && (forall q | q in routes ::
          routes[q] == (if q in todo then e.routes[q] else Pumped(e, self, q, now)) &&
          OutgoingTo(said, q) == (if q in todo then [] else Utters(e, self, q, Pump(now))))
  }

  lemma PumpStarts(e: Endpoint, self: PeerId, now: int)
    ensures PumpedSoFar(e, self, now, e.routes, [], e.routes.Keys)
  {
    OutgoingNone();
  }

  lemma PumpTurn(e: Endpoint, self: PeerId, now: int, routes: map<PeerId, Route>, said: seq<Outgoing>,
                 todo: set<PeerId>, q: PeerId)
    requires q in todo && q in routes && PumpedSoFar(e, self, now, routes, said, todo)
    ensures var mid := e.(routes := routes);
            PumpedSoFar(e, self, now, routes[q := Pumped(mid, self, q, now)], said + Utters(mid, self, q, Pump(now)), todo - {q})
  {
    hide Pumped, Utters, OutgoingTo;
    var mid := e.(routes := routes);
    SameTurn(e, mid, self, q, now);
    OutgoingMore(said, Utters(mid, self, q, Pump(now)), q);
  }

  lemma PumpEnds(e: Endpoint, self: PeerId, now: int, routes: map<PeerId, Route>, said: seq<Outgoing>)
    requires PumpedSoFar(e, self, now, routes, said, {})
    ensures routes.Keys == e.routes.Keys
    ensures forall q | q in routes ::
              routes[q] == Pumped(e, self, q, now) && OutgoingTo(said, q) == Utters(e, self, q, Pump(now))
  {
  }

  /** A route's turn looks at nothing but that route. */
  lemma SameTurn(e: Endpoint, f: Endpoint, self: PeerId, q: PeerId, now: int)
    requires q in e.routes && q in f.routes && e.routes[q] == f.routes[q] && e.running == f.running && e.local == f.local
    ensures Pumped(e, self, q, now) == Pumped(f, self, q, now)
    ensures Utters(e, self, q, Pump(now)) == Utters(f, self, q, Pump(now))
  {
  }

  lemma OutgoingNone()
    ensures forall q :: OutgoingTo([], q) == []
  {
  }

  function OutgoingTo(out: seq<Outgoing>, q: PeerId): seq<Outgoing>
    decreases out
  {
    if out == [] then []
    else OutgoingTo(out[..|out| - 1], q) + if out[|out| - 1].to == q then [out[|out| - 1]] else []
  }

  lemma OutgoingMore(out: seq<Outgoing>, more: seq<Outgoing>, q: PeerId)
    requires |more| <= 1 && forall o | o in more :: o.to == q
    ensures forall r :: OutgoingTo(out + more, r) == OutgoingTo(out, r) + if r == q then more else []
  {
    if more == [] {
      assert out + more == out;
    } else {
      assert (out + more)[..|out|] == out;
      assert more == [more[0]];
    }
  }

  // ----- Any number of clients -----

  /** A signal on its way, with the candidates its payload prints. */
  datatype Sig = Sig(from: PeerId, to: PeerId, kind: Kind, local: seq<C.Candidate>, at: int)

  /** What a route has sent in its present life, and how much of it before it first heard the peer. */
  datatype Log = Log(entries: seq<Sig>, heardAt: Option<nat>)

  const NEW_LOG := Log([], None)

  datatype World = World(ends: map<PeerId, Endpoint>, sent: seq<Sig>, logs: map<(PeerId, PeerId), Log>)

  /** Signals reach whom they name, from whom they say: the coordinator stamps and routes them. */
  datatype Event =
    | Start(p: PeerId, gathered: seq<C.Candidate>)
    | Stop(p: PeerId)
    | Act(p: PeerId, q: PeerId, a: Action)
    | Deliver(i: nat, now: int)

  predicate Possible(w: World, e: Event) {
    match e
    case Start(p, _) => p != ""
    case Stop(p) => p in w.ends
    case Act(p, _, a) => p in w.ends && !a.Receive?
    case Deliver(i, _) => i < |w.sent| && w.sent[i].to in w.ends
  }

  function LogOf(w: World, p: PeerId, q: PeerId): Log {
    if (p, q) in w.logs then w.logs[(p, q)] else NEW_LOG
  }

  function NowOf(a: Action): int {
    if a.Forget? then 0 else a.now
  }

  function SentBy(e: Endpoint, p: PeerId, q: PeerId, a: Action): seq<Sig> {
    var kind := Sends(e, p, q, a);
    if kind.Some? then [Sig(p, q, kind.value, e.local, NowOf(a))] else []
  }

  function LogAfter(l: Log, out: seq<Sig>, a: Action): Log {
    Log(l.entries + out, if a.Hear? && l.heardAt.None? then Some(|l.entries|) else l.heardAt)
  }

  function Done(w: World, p: PeerId, q: PeerId, a: Action): World
    requires p in w.ends
  {
    var e := w.ends[p];
    var out := SentBy(e, p, q, a);
    World(w.ends[p := EndpointAfter(e, p, q, a)], w.sent + out,
          if !Heeded(e, p, q, a) then w.logs
          else if a.Forget? then w.logs - {(p, q)}
          else w.logs[(p, q) := LogAfter(LogOf(w, p, q), out, a)])
  }

  /** A start or a stop ends the life of every route of the client. */
  ghost function Reset(w: World, p: PeerId, e: Endpoint): World {
    World(w.ends[p := e], w.sent, map k | k in w.logs && k.0 != p :: w.logs[k])
  }

  ghost function Next(w: World, e: Event): World
    requires Possible(w, e)
  {
    match e
    case Start(p, gathered) => Reset(w, p, Endpoint(true, gathered, map[]))
    case Stop(p) => Reset(w, p, Endpoint(false, [], map[]))
    case Act(p, q, a) => Done(w, p, q, a)
    case Deliver(i, now) =>
      var s := w.sent[i];
      Done(w, s.to, s.from, Receive(s.kind, PayloadOf(s.local), now))
  }

  ghost predicate Run(events: seq<Event>)
    decreases events, 0
  {
    events == [] || (Run(events[..|events| - 1]) && Possible(After(events[..|events| - 1]), events[|events| - 1]))
  }

  ghost function After(events: seq<Event>): World
    requires Run(events)
    decreases events, 1
  {
    if events == [] then World(map[], [], map[]) else Next(After(events[..|events| - 1]), events[|events| - 1])
  }

  // ----- What always holds -----

  function Count(entries: seq<Sig>, kind: Kind): nat
    decreases entries
  {
    if entries == [] then 0
    else Count(entries[..|entries| - 1], kind) + if entries[|entries| - 1].kind == kind then 1 else 0
  }

  lemma CountMore(entries: seq<Sig>, out: seq<Sig>, kind: Kind)
    requires |out| <= 1
    ensures Count(entries + out, kind) == Count(entries, kind) + if out != [] && out[0].kind == kind then 1 else 0
  {
    if out == [] {
      assert entries + out == entries;
    } else {
      assert (entries + out)[..|entries|] == entries;
    }
  }

  predicate OfferFor(sent: seq<Sig>, j: nat, answer: Sig)
    requires j < |sent|
  {
    sent[j].kind == IceOffer && sent[j].from == answer.to && sent[j].to == answer.from
  }

  /** Offers go from the smaller id to the larger, answers back, and only after an offer. */
  ghost predicate Lawful(sent: seq<Sig>, i: nat)
    requires i < |sent|
  {
    var s := sent[i];
    && s.from != "" && s.from != s.to
    && (s.kind == IceOffer ==> LexLess(s.from, s.to))
    && (s.kind == IceAnswer ==> LexLess(s.to, s.from) && exists j | 0 <= j < i :: OfferFor(sent, j, s))
  }

  /** In a route's life: at most one offer, at most one answer, at most eight candidates. */
  ghost predicate KeptCounts(r: Route, l: Log, p: PeerId, q: PeerId) {
    && Count(l.entries, IceOffer) == (if r.offerSent then 1 else 0)
    && (r.offerSent ==> Initiates(p, q))
    && Count(l.entries, IceAnswer) == (if r.answerSent then 1 else 0)
    && (r.answerSent ==> LexLess(q, p))
    && Count(l.entries, IceCandidate) == r.signals <= SIGNAL_LIMIT
  }

  predicate IsCandidate(l: Log, k: nat)
    requires k < |l.entries|
  {
    l.entries[k].kind == IceCandidate
  }

  /** Its candidates are sent before the peer is heard, and well apart. */
  ghost predicate KeptTimes(r: Route, l: Log, p: PeerId, q: PeerId) {
    && (forall k | 0 <= k < |l.entries| :: l.entries[k].from == p && l.entries[k].to == q)
    && (r.heard <==> l.heardAt.Some?)
    && (l.heardAt.Some? ==> l.heardAt.value <= |l.entries|)
    && (forall k | 0 <= k < |l.entries| && IsCandidate(l, k) :: l.heardAt.Some? ==> k < l.heardAt.value)
    && (forall k | 0 <= k < |l.entries| && IsCandidate(l, k) ::
          r.lastSignalAt.Some? && l.entries[k].at <= r.lastSignalAt.value)
    && (forall k, m | 0 <= k < m < |l.entries| && IsCandidate(l, k) && IsCandidate(l, m) ::
          l.entries[m].at - l.entries[k].at > SIGNAL_EVERY)
  }

  ghost predicate Kept(r: Route, l: Log, p: PeerId, q: PeerId) {
    KeptCounts(r, l, p, q) && KeptTimes(r, l, p, q)
  }

  lemma KeptCountsAction(e: Endpoint, l: Log, p: PeerId, q: PeerId, a: Action)
    requires Heeded(e, p, q, a) && !a.Forget?
    requires a.Receive? && a.kind == IceOffer ==> LexLess(q, p)
    requires if q in e.routes then KeptCounts(e.routes[q], l, p, q) else l == NEW_LOG
    ensures KeptCounts(RouteAfter(e, p, q, a), LogAfter(l, SentBy(e, p, q, a), a), p, q)
  {
    hide Initiates, LexLess, Count, PayloadOf, C.ParsePayload;
    var out := SentBy(e, p, q, a);
    CountNone();
    CountMore(l.entries, out, IceOffer);
    CountMore(l.entries, out, IceAnswer);
    CountMore(l.entries, out, IceCandidate);
    assert LogAfter(l, out, a).entries == l.entries + out;
    match a
    case Meet(_) =>
    case Receive(_, _, _) =>
    case Pump(_) =>
    case Hear(_) =>
  }

  lemma CountNone()
    ensures forall kind :: Count([], kind) == 0
  {
  }

  lemma KeptTimesAction(e: Endpoint, l: Log, p: PeerId, q: PeerId, a: Action)
    requires Heeded(e, p, q, a) && !a.Forget?
    requires if q in e.routes then KeptTimes(e.routes[q], l, p, q) else l == NEW_LOG
    ensures KeptTimes(RouteAfter(e, p, q, a), LogAfter(l, SentBy(e, p, q, a), a), p, q)
  {
    hide Initiates, C.ParsePayload;
    var out := SentBy(e, p, q, a);
    var l' := LogAfter(l, out, a);
    assert forall k | 0 <= k < |l.entries| :: l'.entries[k] == l.entries[k];
    assert forall k | 0 <= k < |l.entries| :: IsCandidate(l', k) == IsCandidate(l, k);
  }

  /** The signal `s` taught route `r` its candidates. */
  predicate Taught(r: Route, s: Sig, p: PeerId, q: PeerId) {
    s.from == q && s.to == p && r.candidates == C.Survivors(s.local)
  }

  /** A route's candidates are those of a signal the peer really sent to this client. */
  ghost predicate Learned(r: Route, sent: seq<Sig>, p: PeerId, q: PeerId) {
    r.candidates == [] || exists i | 0 <= i < |sent| :: Taught(r, sent[i], p, q)
  }

  ghost predicate RouteGood(w: World, p: PeerId, q: PeerId)
    requires p in w.ends && q in w.ends[p].routes
  {
    q != "" && q != p && (p, q) in w.logs && Kept(w.ends[p].routes[q], w.logs[(p, q)], p, q) &&
    Learned(w.ends[p].routes[q], w.sent, p, q)
  }

  ghost predicate Good(w: World) {
    && (forall i | 0 <= i < |w.sent| :: Lawful(w.sent, i))
    && (forall p | p in w.ends :: p != "")
    && (forall p, q | p in w.ends && q in w.ends[p].routes :: RouteGood(w, p, q))
    && (forall k | k in w.logs :: k.0 in w.ends && k.1 in w.ends[k.0].routes)
  }

  /** An action is honest if what it receives is a signal that was sent. */
  predicate Honest(w: World, p: PeerId, q: PeerId, a: Action, i: nat) {
    a.Receive? ==> i < |w.sent| && w.sent[i].from == q && w.sent[i].to == p && w.sent[i].kind == a.kind &&
                   a.payload == PayloadOf(w.sent[i].local)
  }

  lemma LawfulGrows(sent: seq<Sig>, out: seq<Sig>, i: nat)
    requires i < |sent| && Lawful(sent, i)
    ensures Lawful(sent + out, i)
  {
    var all := sent + out;
    assert all[i] == sent[i];
    if sent[i].kind == IceAnswer {
      var j :| 0 <= j < i && OfferFor(sent, j, sent[i]);
      assert all[j] == sent[j] && OfferFor(all, j, all[i]);
    }
  }

  /** What an honest action sends is lawful. */
  lemma LawfulAction(w: World, p: PeerId, q: PeerId, a: Action, i: nat)
    requires Good(w) && p in w.ends && Honest(w, p, q, a, i)
    requires SentBy(w.ends[p], p, q, a) != []
    ensures |SentBy(w.ends[p], p, q, a)| == 1
    ensures Lawful(w.sent + SentBy(w.ends[p], p, q, a), |w.sent|)
  {
    hide Kept, Learned, PayloadOf, C.ParsePayload;
    var out := SentBy(w.ends[p], p, q, a);
    var all := w.sent + out;
    assert all[|w.sent|] == out[0];
    if a.Pump? {
      assert RouteGood(w, p, q);
    }
    if out[0].kind == IceAnswer {
      assert Lawful(w.sent, i);
      assert all[i] == w.sent[i] && OfferFor(all, i, out[0]);
    }
  }

  lemma SentLawful(w: World, k: nat)
    requires Good(w) && k < |w.sent|
    ensures Lawful(w.sent, k)
  {
  }

  lemma LawfulStep(w: World, p: PeerId, q: PeerId, a: Action, i: nat)
    requires Good(w) && p in w.ends && Honest(w, p, q, a, i)
    ensures forall k | 0 <= k < |Done(w, p, q, a).sent| :: Lawful(Done(w, p, q, a).sent, k)
  {
    hide Good, Honest, Lawful, SentBy, EndpointAfter, Heeded, LogAfter;
    var out := SentBy(w.ends[p], p, q, a);
    if out != [] {
      LawfulAction(w, p, q, a, i);
    }
    forall k | 0 <= k < |w.sent + out| ensures Lawful(w.sent + out, k) {
      if k < |w.sent| {
        SentLawful(w, k);
        LawfulGrows(w.sent, out, k);
      }
    }
  }

  lemma LearnedGrows(r: Route, sent: seq<Sig>, out: seq<Sig>, p: PeerId, q: PeerId)
    requires Learned(r, sent, p, q)
    ensures Learned(r, sent + out, p, q)
  {
    if r.candidates != [] {
      var i :| 0 <= i < |sent| && Taught(r, sent[i], p, q);
      assert (sent + out)[i] == sent[i];
    }
  }

  lemma LearnedAction(w: World, p: PeerId, q: PeerId, a: Action, i: nat)
    requires Good(w) && p in w.ends && Honest(w, p, q, a, i) && Heeded(w.ends[p], p, q, a) && !a.Forget?
    ensures Learned(RouteAfter(w.ends[p], p, q, a), w.sent, p, q)
  {
    hide Kept, Lawful;
    var r := RouteAfter(w.ends[p], p, q, a);
    if q in w.ends[p].routes {
      assert RouteGood(w, p, q);
      if !a.Receive? && r.candidates != [] {
        var before := w.ends[p].routes[q];
        var j :| 0 <= j < |w.sent| && Taught(before, w.sent[j], p, q);
        assert Taught(r, w.sent[j], p, q);
      }
    }
    if a.Receive? {
      C.PayloadRoundTrip(w.sent[i].local);
      assert Taught(r, w.sent[i], p, q);
    }
  }

  lemma OffersComeFromSmaller(w: World, p: PeerId, q: PeerId, a: Action, i: nat)
    requires Good(w) && Honest(w, p, q, a, i) && a.Receive? && a.kind == IceOffer
    ensures LexLess(q, p)
  {
    assert Lawful(w.sent, i);
  }

  /** The route an action is about. */
  lemma ActedRoute(w: World, p: PeerId, q: PeerId, a: Action, i: nat)
    requires Good(w) && p in w.ends && Honest(w, p, q, a, i) && Heeded(w.ends[p], p, q, a) && !a.Forget?
    ensures RouteGood(Done(w, p, q, a), p, q)
  {
    hide KeptCounts, KeptTimes, Lawful, RouteAfter, SentBy, LogAfter, Learned;
    var e := w.ends[p];
    if q in e.routes {
      assert RouteGood(w, p, q);
    } else {
      assert (p, q) !in w.logs;
    }
    var l := LogOf(w, p, q);
    if a.Receive? && a.kind == IceOffer {
      OffersComeFromSmaller(w, p, q, a, i);
    }
    KeptCountsAction(e, l, p, q, a);
    KeptTimesAction(e, l, p, q, a);
    LearnedAction(w, p, q, a, i);
    LearnedGrows(RouteAfter(e, p, q, a), w.sent, SentBy(e, p, q, a), p, q);
  }

  /** Every other route stays as it was. */
  lemma OtherRoute(w: World, p: PeerId, q: PeerId, a: Action, p': PeerId, q': PeerId)
    requires Good(w) && p in w.ends && p' in w.ends && q' in w.ends[p'].routes
    requires (p', q') != (p, q) || !Heeded(w.ends[p], p, q, a)
    ensures var w' := Done(w, p, q, a);
            p' in w'.ends && q' in w'.ends[p'].routes && RouteGood(w', p', q')
  {
    hide Kept, Lawful, RouteAfter, SentBy, LogAfter, Learned;
    assert RouteGood(w, p', q');
    LearnedGrows(w.ends[p'].routes[q'], w.sent, SentBy(w.ends[p], p, q, a), p', q');
  }

  lemma GoodAction(w: World, p: PeerId, q: PeerId, a: Action, i: nat)
    requires Good(w) && p in w.ends && Honest(w, p, q, a, i)
    ensures Good(Done(w, p, q, a))
  {
    hide Kept, Lawful, RouteAfter, SentBy, LogAfter, Learned, RouteGood;
    var w' := Done(w, p, q, a);
    LawfulStep(w, p, q, a, i);
    forall p', q' | p' in w'.ends && q' in w'.ends[p'].routes ensures RouteGood(w', p', q') {
      if (p', q') == (p, q) && Heeded(w.ends[p], p, q, a) {
        ActedRoute(w, p, q, a, i);
      } else {
        OtherRoute(w, p, q, a, p', q');
      }
    }
  }

  lemma GoodReset(w: World, p: PeerId, e: Endpoint)
    requires Good(w) && p != "" && e.routes == map[]
    ensures Good(Reset(w, p, e))
  {
    hide Kept, Lawful, Learned;
    var w' := Reset(w, p, e);
    forall p', q' | p' in w'.ends && q' in w'.ends[p'].routes ensures RouteGood(w', p', q') {
      assert RouteGood(w, p', q');
    }
  }

  lemma GoodStep(w: World, e: Event)
    requires Good(w) && Possible(w, e)
    ensures Good(Next(w, e))
  {
    hide Done, Good, Reset, PayloadOf;
    match e
    case Start(p, gathered) => GoodReset(w, p, Endpoint(true, gathered, map[]));
    case Stop(p) =>
      KnownNamed(w, p);
      GoodReset(w, p, Endpoint(false, [], map[]));
    case Act(p, q, a) => GoodAction(w, p, q, a, 0);
    case Deliver(i, now) =>
      var s := w.sent[i];
      GoodAction(w, s.to, s.from, Receive(s.kind, PayloadOf(s.local), now), i);
  }

  lemma KnownNamed(w: World, p: PeerId)
    requires Good(w) && p in w.ends
    ensures p != ""
  {
  }

  lemma {:induction false} GoodRun(events: seq<Event>)
    requires Run(events)
    ensures Good(After(events))
    decreases events
  {
    if events != [] {
      GoodRun(events[..|events| - 1]);
      GoodStep(After(events[..|events| - 1]), events[|events| - 1]);
    }
  }

  // ----- The handshake -----

  /** In one life of a route at most one offer, and only by the smaller id; at most one answer, and only by the
      larger; at most eight candidates, more than three seconds apart, none of them once the peer was heard. */
  lemma HandshakeBounded(events: seq<Event>, p: PeerId, q: PeerId)
    requires Run(events) && p in After(events).ends && q in After(events).ends[p].routes
    ensures (p, q) in After(events).logs
    ensures var l := After(events).logs[(p, q)];
            && Count(l.entries, IceOffer) <= (if LexLess(p, q) then 1 else 0)
            && Count(l.entries, IceAnswer) <= (if LexLess(q, p) then 1 else 0)
            && Count(l.entries, IceCandidate) <= SIGNAL_LIMIT
            && (After(events).ends[p].routes[q].heard <==> l.heardAt.Some?)
            && (forall k | 0 <= k < |l.entries| && IsCandidate(l, k) :: l.heardAt.Some? ==> k < l.heardAt.value)
            && (forall k, m | 0 <= k < m < |l.entries| && IsCandidate(l, k) && IsCandidate(l, m) ::
                  l.entries[m].at - l.entries[k].at > SIGNAL_EVERY)
  {
    GoodRun(events);
    assert RouteGood(After(events), p, q);
  }

  /** No glare: whatever was ever sent, no two clients offered to each other, nor answered each other. */
  lemma NoGlare(events: seq<Event>, i: nat, j: nat)
    requires Run(events) && i < |After(events).sent| && j < |After(events).sent|
    requires After(events).sent[i].from == After(events).sent[j].to && After(events).sent[i].to == After(events).sent[j].from
    ensures var x := After(events).sent[i];
            var y := After(events).sent[j];
            !(x.kind == IceOffer && y.kind == IceOffer) && !(x.kind == IceAnswer && y.kind == IceAnswer)
  {
    GoodRun(events);
    var sent := After(events).sent;
    assert Lawful(sent, i) && Lawful(sent, j);
    LexLessAsymmetric(sent[i].from, sent[i].to);
  }

  /** Each answer ever sent goes from the larger id to the smaller, after an offer that went the other way. */
  lemma AnswersFollowOffers(events: seq<Event>, i: nat) returns (j: nat)
    requires Run(events) && i < |After(events).sent| && After(events).sent[i].kind == IceAnswer
    ensures j < i && OfferFor(After(events).sent, j, After(events).sent[i])
    ensures LexLess(After(events).sent[i].to, After(events).sent[i].from)
  {
    GoodRun(events);
    var sent := After(events).sent;
    assert Lawful(sent, i);
    j :| 0 <= j < i && OfferFor(sent, j, sent[i]);
  }

  /** What a route knows of its peer is what the peer printed in a signal to this client, and all of it if the
      peer's candidates are addresses and ports as a start gathers them. */
  lemma CandidatesArrive(events: seq<Event>, p: PeerId, q: PeerId) returns (i: nat)
    requires Run(events) && p in After(events).ends && q in After(events).ends[p].routes
    requires After(events).ends[p].routes[q].candidates != []
    ensures i < |After(events).sent| && Taught(After(events).ends[p].routes[q], After(events).sent[i], p, q)
    ensures (forall k | 0 <= k < |After(events).sent[i].local| :: C.Gathered(After(events).sent[i].local[k]))
        ==> After(events).ends[p].routes[q].candidates == After(events).sent[i].local
  {
    GoodRun(events);
    assert RouteGood(After(events), p, q);
    i :| 0 <= i < |After(events).sent| && Taught(After(events).ends[p].routes[q], After(events).sent[i], p, q);
    var local := After(events).sent[i].local;
    if forall k | 0 <= k < |local| :: C.Gathered(local[k]) {
      C.AllGatheredSurvive(local);
    }
  }

  lemma RunExtends(events: seq<Event>, e: Event)
    requires Run(events) && Possible(After(events), e)
    ensures Run(events + [e]) && After(events + [e]) == Next(After(events), e)
  {
    assert (events + [e])[..|events|] == events;
  }

  /** The offer is not forgotten either: after the smaller id met the larger, its route has made exactly one. */
  lemma OfferMade(events: seq<Event>, p: PeerId, q: PeerId, now: int)
    requires Run(events) && p in After(events).ends && After(events).ends[p].running && q != "" && LexLess(p, q)
    ensures Run(events + [Act(p, q, Meet(now))])
    ensures var w := After(events + [Act(p, q, Meet(now))]);
            (p, q) in w.logs && Count(w.logs[(p, q)].entries, IceOffer) == 1
  {
    var e := Act(p, q, Meet(now));
    RunExtends(events, e);
    GoodRun(events);
    GoodRun(events + [e]);
    KnownNamed(After(events), p);
    LexLessAsymmetric(p, p);
    assert RouteGood(After(events + [e]), p, q);
  }

  /** ... and after an offer arrived at a running client, its route has made exactly one answer. */
  lemma AnswerMade(events: seq<Event>, i: nat, now: int)
    requires Run(events) && i < |After(events).sent| && After(events).sent[i].kind == IceOffer
    requires After(events).sent[i].to in After(events).ends && After(events).ends[After(events).sent[i].to].running
    ensures Run(events + [Deliver(i, now)])
    ensures var s := After(events).sent[i];
            var w := After(events + [Deliver(i, now)]);
            (s.to, s.from) in w.logs && Count(w.logs[(s.to, s.from)].entries, IceAnswer) == 1
  {
    hide PayloadOf, C.ParsePayload;
    var e := Deliver(i, now);
    var s := After(events).sent[i];
    RunExtends(events, e);
    GoodRun(events);
    GoodRun(events + [e]);
    SentLawful(After(events), i);
    assert RouteGood(After(events + [e]), s.to, s.from);
  }

  /** Meeting a peer again restarts the clock of its candidates and keeps everything else it has learned. */
  lemma MeetingRestarts(events: seq<Event>, p: PeerId, q: PeerId, now: int)
    requires Run(events) && p in After(events).ends && After(events).ends[p].running && q != "" && q != p
    ensures Run(events + [Act(p, q, Meet(now))])
    ensures var e := After(events).ends[p];
            var routes := After(events + [Act(p, q, Meet(now))]).ends[p].routes;
            && q in routes && routes[q].createdAt == now
            && (q in e.routes ==>
                  && routes[q].candidates == e.routes[q].candidates && routes[q].heard == e.routes[q].heard
                  && routes[q].signals == e.routes[q].signals && routes[q].lastSignalAt == e.routes[q].lastSignalAt)
            && (q !in e.routes ==> routes[q].candidates == [] && !routes[q].heard && routes[q].signals == 0)
  {
    RunExtends(events, Act(p, q, Meet(now)));
    hide Run, Initiates, SentBy, LogAfter;
  }

  /** The latest signal counts: once it is delivered, the route has what survives of its candidates, and no others. */
  lemma LatestSignalCounts(events: seq<Event>, i: nat, now: int)
    requires Run(events) && i < |After(events).sent| && After(events).sent[i].to in After(events).ends
    requires After(events).ends[After(events).sent[i].to].running
    ensures Run(events + [Deliver(i, now)])
    ensures var s := After(events).sent[i];
            var routes := After(events + [Deliver(i, now)]).ends[s.to].routes;
            s.from in routes && routes[s.from].candidates == C.Survivors(s.local)
  {
    var s := After(events).sent[i];
    RunExtends(events, Deliver(i, now));
    GoodRun(events);
    SentLawful(After(events), i);
    C.PayloadRoundTrip(s.local);
    hide Run, Good, SentBy, LogAfter, C.ParsePayload, C.Survivors;
  }

  lemma PumpSends(w: World, p: PeerId, q: PeerId, now: int)
    requires p in w.ends && q in w.ends[p].routes && w.ends[p].running
    ensures var r := w.ends[p].routes[q];
            var due := !r.heard && r.signals < 8 && now - r.createdAt > 2000 &&
                       (r.lastSignalAt.Some? ==> now - r.lastSignalAt.value > 3000);
            Next(w, Act(p, q, Pump(now))).sent
              == w.sent + if due then [Sig(p, q, IceCandidate, w.ends[p].local, now)] else []
  {
    hide EndpointAfter, LogAfter;
  }

  lemma CandidatesCounted(w: World, p: PeerId, q: PeerId)
    requires Good(w) && p in w.ends && q in w.ends[p].routes
    ensures (p, q) in w.logs && Count(w.logs[(p, q)].entries, IceCandidate) == w.ends[p].routes[q].signals
  {
    assert RouteGood(w, p, q);
    hide Learned, KeptTimes;
  }

  /** Candidates are not forgotten: a pump sends one exactly when fewer than eight were sent in this life of the route, it
      is over two seconds since the peer was met, over three since the last one, and the peer was not heard. */
  lemma CandidateMade(events: seq<Event>, p: PeerId, q: PeerId, now: int)
    requires Run(events) && p in After(events).ends && q in After(events).ends[p].routes && After(events).ends[p].running
    ensures Run(events + [Act(p, q, Pump(now))])
    ensures (p, q) in After(events).logs
    ensures var w := After(events);
            var r := w.ends[p].routes[q];
            var sent := Count(w.logs[(p, q)].entries, IceCandidate);
            var due := !r.heard && sent < 8 && now - r.createdAt > 2000 &&
                       (r.lastSignalAt.Some? ==> now - r.lastSignalAt.value > 3000);
            After(events + [Act(p, q, Pump(now))]).sent
              == w.sent + if due then [Sig(p, q, IceCandidate, w.ends[p].local, now)] else []
  {
    hide Run, After, Next, Good, Count;
    RunExtends(events, Act(p, q, Pump(now)));
    GoodRun(events);
    CandidatesCounted(After(events), p, q);
    PumpSends(After(events), p, q, now);
  }
}
