/**
 * The whole way of a voice: recording, framing, gating and numbering at the sender; datagrams that may be
 * lost, repeated and reordered, with copies relayed by the coordinator; de-duplication, the jitter queue and
 * playing at the receiver.
 *
 * One sender run and one receiver, among any other traffic the receiver gets. The payload of each sent frame
 * is whatever the encoder made of it. Packets that name the sender as their source come from the sender.
 */
module VoicePath {
  import opened Common
  import Adpcm
  import Capture
  import Coordinator
  import Gate
  import Packet
  import Playback
  import RelayFrame
  import ServerMessage
  import Session
  import VoicePayload

  /** What the encoder and the clock add to a numbered frame. */
  datatype Voiced = Voiced(captureMs: Packet.int64, payload: seq<byte>)

  /** Who speaks, in which room, and who listens. */
  datatype Link = Link(source: seq<byte>, room: seq<byte>, listener: Playback.PeerId)

  datatype World = World(capture: Capture.History, gate: Gate.History, voiced: seq<Voiced>, lastDirect: Option<uint32>,
                         hears: bool, play: Playback.History)

  /** `library` and `stretched` are what the Opus library and the interpolation would make of the payload. */
  datatype Event =
    | Record(samples: seq<int16>)   // the capture device delivers a buffer
    | Speak(tick: Gate.Tick, voiced: seq<Voiced>)
    | Direct(i: nat, tail: seq<byte>, library: Option<seq<int16>>, stretched: VoicePayload.WireFrame, now: int)
    | Relayed(i: nat, library: Option<seq<int16>>, stretched: VoicePayload.WireFrame, now: int)
    | Else(event: Playback.Event)   // other peers' frames, and playing
    | RouteGone                     // the sender left and came back

  function Name(l: Link): Playback.PeerId {
    seq(|l.source|, i requires 0 <= i < |l.source| => l.source[i] as char)
  }

  // ----- The two ways -----

  function PacketOf(l: Link, w: World, i: nat): Packet.Packet
    requires i < |w.gate.sent| && |w.voiced| == |w.gate.sent|
  {
    Packet.Packet(Packet.VOICE, l.room, l.source, w.gate.sent[i].sequence, w.voiced[i].captureMs, w.voiced[i].payload)
  }

  function RelayOf(w: World, i: nat): RelayFrame.Frame
    requires i < |w.gate.sent| && |w.voiced| == |w.gate.sent|
  {
    RelayFrame.Frame(w.gate.sent[i].sequence, Max(0, w.voiced[i].captureMs), w.voiced[i].payload)
  }

  /** playRemoteFrame, on the history of the receiver. */
  function Heard(t: Adpcm.StepTable, h: Playback.History, name: Playback.PeerId, sequence: uint32, payload: seq<byte>,
                 library: Option<seq<int16>>, stretched: VoicePayload.WireFrame, now: int): Playback.History
  {
    if |payload| < 2 then h
    else
      VoicePayload.VoiceNeverEmpty(t, payload, library, stretched);
      Playback.Next(h, Playback.Arrive(Playback.NameOf(name), sequence,
                                       VoicePayload.VoiceSamples(t, payload, library, stretched), now))
  }

  /** A datagram at the receiver: another room's or broken ones are ignored, repeated voice is dropped. */
  function AfterDatagram(t: Adpcm.StepTable, l: Link, w: World, data: seq<byte>, e: Event): World
    requires e.Direct?
  {
    match Packet.Decoded(data)
    case None => w
    case Some(p) =>
      if p.room != l.room || p.source != l.source || p.source == [] then w
      else if p.kind != Packet.VOICE then w.(hears := true)
      else if w.lastDirect.Some? && p.sequence <= w.lastDirect.value then w.(hears := true)
      else
        w.(hears := true, lastDirect := Some(p.sequence),
           play := Heard(t, w.play, Name(l), p.sequence, p.payload, e.library, e.stretched, e.now))
  }

  /** The message by which the coordinator relays a sent frame. */
  function MessageOf(l: Link, w: World, i: nat): Coordinator.Envelope
    requires i < |w.gate.sent| && |w.voiced| == |w.gate.sent|
  {
    Coordinator.Bare(Coordinator.VoiceFrame).(peerId := Name(l), payload := RelayFrame.Printed(RelayOf(w, i)))
  }

  /** What the listener's dispatcher asks for when that message comes. */
  function CallsFor(l: Link, w: World, i: nat): seq<Session.Call>
    requires i < |w.gate.sent| && |w.voiced| == |w.gate.sent|
  {
    Session.CallsOf(ServerMessage.Meant(MessageOf(l, w, i), []), l.listener, if w.hears then {Name(l)} else {})
  }

  /** A call to play a frame, as the dispatcher makes it. */
  function AfterCall(t: Adpcm.StepTable, w: World, call: Session.Call, e: Event): World
    requires e.Relayed?
  {
    if call.Play? && call.frame.sequence < 0x1_0000_0000 then
      w.(play := Heard(t, w.play, call.from, call.frame.sequence, call.frame.payload, e.library, e.stretched, e.now))
    else w
  }

  function AfterRelay(t: Adpcm.StepTable, l: Link, w: World, e: Event): World
    requires e.Relayed? && e.i < |w.gate.sent| && |w.voiced| == |w.gate.sent|
  {
    var calls := CallsFor(l, w, e.i);
    if calls == [] then w else AfterCall(t, w, calls[0], e)
  }

  /** A relayed frame is played only while the sender is not heard directly, and then as it was sent. */
  lemma RelayedExactly(t: Adpcm.StepTable, l: Link, w: World, e: Event)
    requires e.Relayed? && e.i < |w.gate.sent| && |w.voiced| == |w.gate.sent|
    ensures AfterRelay(t, l, w, e) ==
              if w.hears || w.voiced[e.i].payload == [] then w
              else w.(play := Heard(t, w.play, Name(l), w.gate.sent[e.i].sequence, w.voiced[e.i].payload, e.library, e.stretched, e.now))
    ensures |CallsFor(l, w, e.i)| <= 1
  {
    hide Heard, RelayFrame.Read, RelayFrame.Printed;
    RelayFrame.RelayRoundTrip(RelayOf(w, e.i));
  }

  /** A tick takes every waiting frame of the device, unless it is muted or has no device. */
  predicate Takes(w: World, tick: Gate.Tick) {
    tick.drained == if tick.capture && !tick.muted then w.capture.pending else []
  }

  /** The sender sends at most 2^32 frames; a direct packet must fit; others do not use the sender's name. */
  predicate Possible(l: Link, w: World, e: Event) {
    |w.voiced| == |w.gate.sent| &&
    match e
    case Record(_) => true
    case Speak(tick, voiced) =>
      Takes(w, tick) && |voiced| == |Gate.Out(w.gate.state, tick)| && |w.gate.sent| + |voiced| <= Gate.SEQUENCES
    case Direct(i, _, _, _, _) => i < |w.gate.sent| && Packet.Fits(PacketOf(l, w, i))
    case Relayed(i, _, _, _) => i < |w.gate.sent|
    case Else(event) => event.Arrive? ==> event.q != Playback.NameOf(Name(l))
    case RouteGone => true
  }

  ghost function Next(t: Adpcm.StepTable, l: Link, w: World, e: Event): World
    requires Possible(l, w, e) && Gate.KeptRight(w.gate)
  {
    match e
    case Record(samples) => w.(capture := Capture.Next(w.capture, Capture.Enqueue(samples)))
    case Speak(tick, voiced) =>
      w.(gate := Gate.Extend(w.gate, tick), voiced := w.voiced + voiced,
         capture := if tick.capture && !tick.muted then Capture.Next(w.capture, Capture.Drain) else w.capture)
    case Direct(i, tail, _, _, _) => AfterDatagram(t, l, w, Packet.Encoded(PacketOf(l, w, i)) + tail, e)
    case Relayed(i, _, _, _) => AfterRelay(t, l, w, e)
    case Else(event) => w.(play := Playback.Next(w.play, event))
    case RouteGone => w.(lastDirect := None, hears := false)
  }

  // ----- What always holds -----

  predicate IsDecoding(t: Adpcm.StepTable, pcm: Playback.Pcm, payload: seq<byte>, library: Option<seq<int16>>,
                       stretched: VoicePayload.WireFrame)
  {
    pcm == VoicePayload.VoiceSamples(t, payload, library, stretched)
  }

  /** An accepted frame is the decoded payload of the sent frame with its number. */
  ghost predicate Authentic(t: Adpcm.StepTable, voiced: seq<Voiced>, h: Playback.Heard) {
    h.sequence < |voiced| &&
    exists library, stretched :: IsDecoding(t, h.pcm, voiced[h.sequence].payload, library, stretched)
  }

  /** Frames of the sender that were accepted are sent ones, and the queues are in order. */
  ghost predicate GoodPlay(t: Adpcm.StepTable, l: Link, voiced: seq<Voiced>, play: Playback.History) {
    && Playback.AllOrderly(play)
    && (Playback.NameOf(Name(l)) in play.lives ==>
          forall h | h in play.lives[Playback.NameOf(Name(l))].accepted :: Authentic(t, voiced, h))
  }

  ghost predicate Good(t: Adpcm.StepTable, l: Link, w: World) {
    && Gate.KeptRight(w.gate) && Gate.SentRight(w.gate)
    && |w.voiced| == |w.gate.sent| <= Gate.SEQUENCES
    && GoodPlay(t, l, w.voiced, w.play)
  }

  lemma AuthenticGrows(t: Adpcm.StepTable, voiced: seq<Voiced>, more: seq<Voiced>, h: Playback.Heard)
    requires Authentic(t, voiced, h)
    ensures Authentic(t, voiced + more, h)
  {
    assert (voiced + more)[h.sequence] == voiced[h.sequence];
  }

  lemma GoodSpeak(t: Adpcm.StepTable, l: Link, w: World, e: Event)
    requires Good(t, l, w) && Possible(l, w, e) && e.Speak?
    ensures Good(t, l, Next(t, l, w, e))
  {
    hide Authentic, Playback.AllOrderly, Gate.Out, Gate.StateAfter, Gate.Number, Gate.Picks;
    Gate.KeptExtends(w.gate, e.tick);
    Gate.SentExtends(w.gate, e.tick);
    SentLength(w.gate, e.tick);
    var name := Playback.NameOf(Name(l));
    if name in w.play.lives {
      forall h | h in w.play.lives[name].accepted ensures Authentic(t, w.voiced + e.voiced, h) {
        AuthenticGrows(t, w.voiced, e.voiced, h);
      }
    }
  }

  lemma SentLength(h: Gate.History, tick: Gate.Tick)
    requires 0 <= Gate.FirstOut(h)
    ensures |Gate.Extend(h, tick).sent| == |h.sent| + |Gate.Out(h.state, tick)|
  {
  }

  lemma SentNumber(t: Adpcm.StepTable, l: Link, w: World, i: nat)
    requires Good(t, l, w) && i < |w.gate.sent|
    ensures w.gate.sent[i].sequence == i
  {
    hide GoodPlay, Gate.KeptRight;
    assert w.gate.sent[i].sequence == i % Gate.SEQUENCES == i;
  }

  /** Hearing the sent frame `i`, by whichever way. */
  lemma GoodHeard(t: Adpcm.StepTable, l: Link, voiced: seq<Voiced>, play: Playback.History, i: uint32,
                  library: Option<seq<int16>>, stretched: VoicePayload.WireFrame, now: int)
    requires GoodPlay(t, l, voiced, play) && i < |voiced|
    ensures GoodPlay(t, l, voiced, Heard(t, play, Name(l), i, voiced[i].payload, library, stretched, now))
  {
    hide Playback.Orderly, VoicePayload.VoiceSamples;
    var name := Playback.NameOf(Name(l));
    var payload := voiced[i].payload;
    if |payload| >= 2 {
      VoicePayload.VoiceNeverEmpty(t, payload, library, stretched);
      var pcm: Playback.Pcm := VoicePayload.VoiceSamples(t, payload, library, stretched);
      Playback.OrderlyStep(play, Playback.Arrive(name, i, pcm, now));
      assert IsDecoding(t, pcm, payload, library, stretched);
      assert Authentic(t, voiced, Playback.Heard(i, pcm));
    }
    hide Authentic, Playback.Arrived;
  }

  lemma GoodElse(t: Adpcm.StepTable, l: Link, w: World, e: Event)
    requires Good(t, l, w) && Possible(l, w, e) && e.Else?
    ensures Good(t, l, Next(t, l, w, e))
  {
    hide Authentic, Playback.Orderly, Gate.KeptRight, Gate.SentRight, Playback.Arrived, Playback.Turn;
    Playback.OrderlyStep(w.play, e.event);
    var name := Playback.NameOf(Name(l));
    var play := Playback.Next(w.play, e.event);
    if name in play.lives {
      SameAccepted(w.play, e.event, name);
    }
  }

  /** Only the peer's own frames are accepted under its name. */
  lemma SameAccepted(h: Playback.History, e: Playback.Event, name: Playback.PeerId)
    requires Playback.AllOrderly(h) && (e.Arrive? ==> e.q != name) && name in Playback.Next(h, e).lives
    ensures name in h.lives && Playback.Next(h, e).lives[name].accepted == h.lives[name].accepted
  {
    hide Playback.Orderly, Playback.Turn, Playback.Arrived;
  }

  lemma GoodStep(t: Adpcm.StepTable, l: Link, w: World, e: Event)
    requires Good(t, l, w) && Possible(l, w, e)
    ensures Good(t, l, Next(t, l, w, e))
  {
    match e
    case Record(_) =>
    case Speak(_, _) => GoodSpeak(t, l, w, e);
    case Direct(i, tail, library, stretched, now) =>
      GoodDirect(t, l, w, e);
    case Relayed(i, library, stretched, now) =>
      GoodRelayed(t, l, w, e);
    case Else(_) => GoodElse(t, l, w, e);
    case RouteGone =>
  }

  lemma GoodDirect(t: Adpcm.StepTable, l: Link, w: World, e: Event)
    requires Good(t, l, w) && Possible(l, w, e) && e.Direct?
    ensures Good(t, l, Next(t, l, w, e))
  {
    hide Playback.AllOrderly, Gate.SentRight, Authentic, Heard, Packet.Decoded, Packet.Encoded;
    Packet.RoundTrip(PacketOf(l, w, e.i), e.tail);
    SentNumber(t, l, w, e.i);
    GoodHeard(t, l, w.voiced, w.play, e.i, e.library, e.stretched, e.now);
  }

  lemma GoodRelayed(t: Adpcm.StepTable, l: Link, w: World, e: Event)
    requires Good(t, l, w) && Possible(l, w, e) && e.Relayed?
    ensures Good(t, l, Next(t, l, w, e))
  {
    hide Playback.AllOrderly, Gate.SentRight, Authentic, Heard, AfterRelay;
    RelayedExactly(t, l, w, e);
    SentNumber(t, l, w, e.i);
    GoodHeard(t, l, w.voiced, w.play, e.i, e.library, e.stretched, e.now);
  }

  /** The frames the gate has had are those the device handed out, which are frames of the recording in order. */
  ghost predicate Recorded(w: World) {
    w.gate.captured == w.capture.drained && exists places :: Capture.Framed(w.capture, places)
  }

  /** A tick that takes frames is one that drains the device. */
  predicate Drains(e: Event) {
    e.Speak? && e.tick.capture && !e.tick.muted
  }

  /** What an event does to the device, and to what the gate has had. */
  lemma CaptureStep(t: Adpcm.StepTable, l: Link, w: World, e: Event)
    requires Possible(l, w, e) && Gate.KeptRight(w.gate)
    ensures var next := Next(t, l, w, e);
            && next.capture == (if e.Record? then Capture.Next(w.capture, Capture.Enqueue(e.samples))
                                else if Drains(e) then Capture.Next(w.capture, Capture.Drain) else w.capture)
            && next.gate.captured == w.gate.captured + if Drains(e) then w.capture.pending else []
  {
    hide Gate.KeptRight, Capture.Next, Heard, RelayFrame.Read, Packet.Decoded, Playback.Next, Gate.Out, Gate.StateAfter, CallsFor;
    assert w.gate.captured + [] == w.gate.captured;
  }

  lemma Taken(h: Capture.History, samples: seq<int16>)
    ensures Capture.Next(h, Capture.Enqueue(samples)).drained == h.drained
    ensures Capture.Next(h, Capture.Drain).drained == h.drained + h.pending && h.drained + [] == h.drained
  {
  }

  lemma RecordedStep(t: Adpcm.StepTable, l: Link, w: World, e: Event)
    requires Recorded(w) && Possible(l, w, e) && Gate.KeptRight(w.gate)
    ensures Recorded(Next(t, l, w, e))
  {
    hide Capture.Framed, Capture.Next, Gate.KeptRight, Next, Possible;
    var places :| Capture.Framed(w.capture, places);
    CaptureStep(t, l, w, e);
    Taken(w.capture, if e.Record? then e.samples else []);
    if e.Record? {
      Capture.EnqueueFramed(w.capture, e.samples, places);
    } else if Drains(e) {
      places := Capture.DrainFramed(w.capture, places);
    }
    assert Capture.Framed(Next(t, l, w, e).capture, places);
  }

  // ----- Runs -----

  const SILENCE := World(Capture.History([], [], [], []), Gate.History(Gate.START, [], [], [], 0), [], None, false,
                         Playback.History(Playback.START, 0, 0, map[]))

  /** The world after a run of possible events. */
  ghost predicate Run(t: Adpcm.StepTable, l: Link, events: seq<Event>)
    decreases events, 0
  {
    events == [] ||
    (Run(t, l, events[..|events| - 1]) && Possible(l, After(t, l, events[..|events| - 1]), events[|events| - 1]))
  }

  ghost function After(t: Adpcm.StepTable, l: Link, events: seq<Event>): (w: World)
    requires Run(t, l, events)
    ensures Gate.KeptRight(w.gate)
    decreases events, 1
  {
    if events == [] then SILENCE
    else
      var w := After(t, l, events[..|events| - 1]);
      GateKept(t, l, w, events[|events| - 1]);
      Next(t, l, w, events[|events| - 1])
  }

  lemma GateKept(t: Adpcm.StepTable, l: Link, w: World, e: Event)
    requires Gate.KeptRight(w.gate) && Possible(l, w, e)
    ensures Gate.KeptRight(Next(t, l, w, e).gate)
  {
    hide Gate.KeptRight, Gate.Extend, Heard, Packet.Decoded, Packet.Encoded;
    if e.Speak? {
      Gate.KeptExtends(w.gate, e.tick);
    } else if e.Relayed? {
      RelayedExactly(t, l, w, e);
    }
  }

  lemma {:induction false} RunKeeps(t: Adpcm.StepTable, l: Link, events: seq<Event>)
    requires Run(t, l, events)
    ensures Good(t, l, After(t, l, events)) && Recorded(After(t, l, events))
    decreases events
  {
    hide Good, Recorded, Possible, Next, Gate.KeptRight;
    StartsWell(t, l);
    if events != [] {
      RunKeeps(t, l, events[..|events| - 1]);
      StaysWell(t, l, After(t, l, events[..|events| - 1]), events[|events| - 1]);
    }
  }

  lemma StartsWell(t: Adpcm.StepTable, l: Link)
    ensures Good(t, l, SILENCE) && Recorded(SILENCE)
  {
    Capture.NothingFramed();
    hide Capture.Framed;
  }

  lemma StaysWell(t: Adpcm.StepTable, l: Link, w: World, e: Event)
    requires Good(t, l, w) && Recorded(w) && Possible(l, w, e)
    ensures Good(t, l, Next(t, l, w, e)) && Recorded(Next(t, l, w, e))
  {
    hide Recorded, Possible, Next, Gate.KeptRight, Gate.SentRight, Playback.AllOrderly, Authentic;
    GoodStep(t, l, w, e);
    RecordedStep(t, l, w, e);
  }

  // ----- The claims -----

  /** The captured frame behind an accepted one. */
  function Origin(w: World, h: Playback.Heard): nat
    requires h.sequence < |w.gate.chosen|
  {
    w.gate.chosen[h.sequence]
  }

  /**
   * End-to-end order. Whatever the channel loses, repeats or reorders and however relayed copies mix in, the
   * frames accepted from the sender since its entry was made are frames it captured, in capture order, none
   * twice; and what was played of them is in capture order too.
   */
  lemma HeardInCaptureOrder(t: Adpcm.StepTable, l: Link, events: seq<Event>)
    requires Run(t, l, events)
    requires Playback.NameOf(Name(l)) in After(t, l, events).play.lives
    ensures var w := After(t, l, events);
            var life := w.play.lives[Playback.NameOf(Name(l))];
            && (forall h | h in life.accepted :: h.sequence < |w.gate.chosen| && Origin(w, h) < |w.gate.captured|)
            && (forall i, j | 0 <= i < j < |life.accepted| :: Origin(w, life.accepted[i]) < Origin(w, life.accepted[j]))
            && (forall h | h in life.played :: h in life.accepted)
            && (forall i, j | 0 <= i < j < |life.played| :: Origin(w, life.played[i]) < Origin(w, life.played[j]))
  {
    RunKeeps(t, l, events);
    var w := After(t, l, events);
    var name := Playback.NameOf(Name(l));
    var life := w.play.lives[name];
    LifeFacts(w.play, name);
    forall h | h in life.accepted ensures h.sequence < |w.gate.chosen| && Origin(w, h) < |w.gate.captured| {
      assert Authentic(t, w.voiced, h);
    }
    hide Playback.AllOrderly, Playback.Orderly, Authentic, Gate.KeptRight;
    forall i, j | 0 <= i < j < |life.played| ensures Origin(w, life.played[i]) < Origin(w, life.played[j]) {
      assert life.played[i] in life.played && life.played[j] in life.played;
    }
    forall i, j | 0 <= i < j < |life.accepted| ensures Origin(w, life.accepted[i]) < Origin(w, life.accepted[j]) {
      assert life.accepted[i] in life.accepted && life.accepted[j] in life.accepted;
    }
  }

  lemma LifeFacts(h: Playback.History, name: Playback.PeerId)
    requires Playback.AllOrderly(h) && name in h.lives
    ensures Playback.Rising(h.lives[name].accepted) && Playback.Rising(h.lives[name].played)
    ensures forall p | p in h.lives[name].played :: p in h.lives[name].accepted
  {
    var l := h.lives[name];
    var r := h.state.sources[name];
    assert Playback.Orderly(l, r);
    forall p | p in l.played ensures p in l.accepted {
      assert p in l.accepted[..|l.accepted| - |r.frames|];
    }
  }

  /** The frame of the recording behind an accepted one. */
  function FrameOf(w: World, places: seq<nat>, h: Playback.Heard): Capture.Frame
    requires h.sequence < |w.gate.chosen| && Origin(w, h) < |places| && places[Origin(w, h)] < |Capture.Frames(w.capture.recorded)|
  {
    Capture.Frames(w.capture.recorded)[places[Origin(w, h)]]
  }

  /**
   * From the microphone to the ear. The frames accepted and played are the numbered frames of the recording, cut
   * every 320 samples, in the order of the recording and none twice; sent as PCM they are heard sample for sample,
   * sent as ADPCM as the encoder's reconstruction.
   */
  lemma HeardFromRecording(t: Adpcm.StepTable, l: Link, events: seq<Event>) returns (places: seq<nat>)
    requires Run(t, l, events)
    requires Playback.NameOf(Name(l)) in After(t, l, events).play.lives
    ensures var w := After(t, l, events);
            var life := w.play.lives[Playback.NameOf(Name(l))];
            && Capture.Framed(w.capture, places)
            && (forall h | h in life.accepted :: HeardRight(t, w, places, h))
            && (forall h | h in life.played :: h in life.accepted)
            && InOrder(w, places, life.accepted) && InOrder(w, places, life.played)
  {
    hide Playback.AllOrderly, Authentic, Gate.KeptRight, Gate.SentRight, Run, After, HeardRight, Capture.Frames;
    RunKeeps(t, l, events);
    var w := After(t, l, events);
    var life := w.play.lives[Playback.NameOf(Name(l))];
    HeardInCaptureOrder(t, l, events);
    places :| Capture.Framed(w.capture, places);
    forall h | h in life.accepted ensures HeardRight(t, w, places, h) {
      HeardAsRecorded(t, l, w, places, h);
    }
    OrderKept(w, places, life.accepted);
    assert forall h | h in life.played :: h in life.accepted;
    OrderKept(w, places, life.played);
  }

  predicate Placed(w: World, places: seq<nat>, h: Playback.Heard) {
    h.sequence < |w.gate.chosen| && Origin(w, h) < |places|
  }

  /** Each of the frames comes from a later place in the recording than those before it. */
  ghost predicate InOrder(w: World, places: seq<nat>, hs: seq<Playback.Heard>) {
    forall i, j | 0 <= i < j < |hs| ::
      Placed(w, places, hs[i]) && Placed(w, places, hs[j]) && places[Origin(w, hs[i])] < places[Origin(w, hs[j])]
  }

  lemma OrderKept(w: World, places: seq<nat>, hs: seq<Playback.Heard>)
    requires forall i, j | 0 <= i < j < |places| :: places[i] < places[j]
    requires forall h | h in hs :: Placed(w, places, h)
    requires forall i, j | 0 <= i < j < |hs| && Placed(w, places, hs[i]) && Placed(w, places, hs[j]) ::
               Origin(w, hs[i]) < Origin(w, hs[j])
    ensures InOrder(w, places, hs)
  {
    forall i, j | 0 <= i < j < |hs|
      ensures Placed(w, places, hs[i]) && Placed(w, places, hs[j]) && places[Origin(w, hs[i])] < places[Origin(w, hs[j])]
    {
      assert hs[i] in hs && hs[j] in hs;
    }
  }

  /** What is heard is the sent frame with its number, as the codec renders it. */
  ghost predicate HeardRight(t: Adpcm.StepTable, w: World, places: seq<nat>, h: Playback.Heard) {
    && h.sequence < |w.gate.chosen| == |w.voiced| && Origin(w, h) < |places|
    && places[Origin(w, h)] < |Capture.Frames(w.capture.recorded)|
    && var frame := FrameOf(w, places, h);
       && (w.voiced[h.sequence].payload == VoicePayload.PcmPayload(frame) ==> h.pcm == frame)
       && (w.voiced[h.sequence].payload == Adpcm.Payload(t, frame) ==> h.pcm == Adpcm.Reconstruction(t, frame))
  }

  lemma HeardAsRecorded(t: Adpcm.StepTable, l: Link, w: World, places: seq<nat>, h: Playback.Heard)
    requires Good(t, l, w) && Recorded(w) && Capture.Framed(w.capture, places) && Authentic(t, w.voiced, h)
    ensures HeardRight(t, w, places, h)
  {
    hide Playback.AllOrderly, Gate.KeptRight, VoicePayload.VoiceSamples, VoicePayload.PcmPayload, Adpcm.Payload,
         Adpcm.Reconstruction;
    var library, stretched :| IsDecoding(t, h.pcm, w.voiced[h.sequence].payload, library, stretched);
    assert h.sequence < |w.gate.chosen| && Origin(w, h) < |w.gate.captured| == |places|;
    var frame := FrameOf(w, places, h);
    VoicePayload.PcmHeardExactly(t, frame, library, stretched);
    VoicePayload.AdpcmHeardExactly(t, frame, library, stretched);
  }

  /** Nothing newer than everything accepted is turned away: it is accepted next, by either way. */
  lemma NewFrameAccepted(t: Adpcm.StepTable, l: Link, w: World, e: Event)
    requires Good(t, l, w) && Possible(l, w, e) && l.source != []
    requires e.Direct? || (e.Relayed? && !w.hears)
    requires |w.voiced[e.i].payload| >= 2
    requires e.Direct? && w.lastDirect.Some? ==> e.i > w.lastDirect.value
    requires var name := Playback.NameOf(Name(l));
             name in w.play.lives ==> forall h | h in w.play.lives[name].accepted :: h.sequence < e.i
    ensures var name := Playback.NameOf(Name(l));
            var next := Next(t, l, w, e);
            name in next.play.lives &&
            var before := Playback.LifeOf(w.play, name).accepted;
            var after := next.play.lives[name].accepted;
            |after| == |before| + 1 && after[..|before|] == before && after[|before|].sequence == e.i
  {
    hide Packet.Decoded, Packet.Encoded, AfterRelay, VoicePayload.VoiceSamples, Gate.SentRight, Gate.KeptRight, Authentic;
    var name := Playback.NameOf(Name(l));
    SentNumber(t, l, w, e.i);
    if name in w.play.lives {
      assert Playback.Orderly(w.play.lives[name], w.play.state.sources[name]);
    }
    if e.Direct? {
      Packet.RoundTrip(PacketOf(l, w, e.i), e.tail);
    } else {
      RelayedExactly(t, l, w, e);
    }
    VoicePayload.VoiceNeverEmpty(t, w.voiced[e.i].payload, e.library, e.stretched);
  }

  /** What a datagram does: of another room or another source, nothing; a ping, or a number not above the last direct one,
      only shows that the sender is heard; any other is played. */
  lemma DatagramExactly(t: Adpcm.StepTable, l: Link, w: World, p: Packet.Packet, tail: seq<byte>, e: Event)
    requires e.Direct? && Packet.Fits(p)
    ensures var next := AfterDatagram(t, l, w, Packet.Encoded(p) + tail, e);
            if p.room != l.room || p.source != l.source || p.source == [] then next == w
            else if p.kind != 2 || (w.lastDirect.Some? && p.sequence <= w.lastDirect.value) then next == w.(hears := true)
            else next == w.(hears := true, lastDirect := Some(p.sequence),
                            play := Heard(t, w.play, Name(l), p.sequence, p.payload, e.library, e.stretched, e.now))
  {
    hide Heard, Packet.Decoded, Packet.Encoded;
    Packet.RoundTrip(p, tail);
  }

  /** A route made anew has no past: whatever number came last before, the next new frame is accepted, by either way. */
  lemma ReturnAccepted(t: Adpcm.StepTable, l: Link, w: World, e: Event)
    requires Good(t, l, w) && Possible(l, w, RouteGone) && Possible(l, w, e) && l.source != [] && (e.Direct? || e.Relayed?)
    requires |w.voiced[e.i].payload| >= 2
    requires var name := Playback.NameOf(Name(l));
             name in w.play.lives ==> forall h | h in w.play.lives[name].accepted :: h.sequence < e.i
    ensures var name := Playback.NameOf(Name(l));
            var back := Next(t, l, w, RouteGone);
            && Possible(l, back, e)
            && name in Next(t, l, back, e).play.lives
            && |Next(t, l, back, e).play.lives[name].accepted| == |Playback.LifeOf(w.play, name).accepted| + 1
  {
    hide Good, Playback.LifeOf;
    GoodStep(t, l, w, RouteGone);
    NewFrameAccepted(t, l, Next(t, l, w, RouteGone), e);
  }

  // ----- When a relayed copy is sent -----

  /** HybridVoiceTransport: the frame also goes to the coordinator when some other peer is not heard directly. */
  method NeedsRelay(peers: seq<Playback.PeerId>, self: Playback.PeerId, hears: set<Playback.PeerId>) returns (r: bool)
    ensures r <==> exists p | p in peers :: p != "" && p != self && p !in hears
  {
    var i := 0;
    while i < |peers|
      invariant 0 <= i <= |peers|
      invariant forall k | 0 <= k < i :: peers[k] == "" || peers[k] == self || peers[k] in hears
    {
      if peers[i] != "" && peers[i] != self && peers[i] !in hears {
        return true;
      }
      i := i + 1;
    }
    r := false;
  }
}
