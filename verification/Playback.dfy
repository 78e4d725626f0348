/**
 * The receiving side of the voice engine: a short jitter queue per peer, filled by arriving frames and
 * emptied by a pump every 20 ms. Playback is open throughout; the audio device is not part of this model.
 */
module Playback {
  import opened Common
  import opened Sums
  import Adpcm
  import VoicePayload

  type PeerId = string
  type Pcm = VoicePayload.WireFrame

  const JITTER_TARGET := 2
  const MAX_FRAMES := 12
  const INTERVAL := 20
  const STALE_AFTER := 2000
  const UNKNOWN := "_unknown"

  /** One remote peer: queued frames, when the last one came and under which number, and whether playing has begun. */
  datatype Source = Source(frames: seq<Pcm>, received: int, last: Option<uint32>, primed: bool)

  datatype State = State(sources: map<PeerId, Source>, dropped: nat, lastMix: Option<int>)

  const START := State(map[], 0, None)

  // ----- A frame arrives -----

  function NameOf(from: PeerId): PeerId {
    if from == "" then UNKNOWN else from
  }

  function SourceOr(s: State, q: PeerId, now: int): Source {
    if q in s.sources then s.sources[q] else Source([], now, None, false)
  }

  /** A frame is new if its number exceeds the last one accepted from the peer. */
  predicate New(s: State, q: PeerId, sequence: uint32) {
    q in s.sources && s.sources[q].last.Some? ==> sequence > s.sources[q].last.value
  }

  function Arrived(s: State, q: PeerId, sequence: uint32, pcm: Pcm, now: int): State {
    if !New(s, q, sequence) then s.(dropped := s.dropped + 1)
    else
      var frames := SourceOr(s, q, now).frames + [pcm];
      var over := Max(0, |frames| - MAX_FRAMES);
      State(s.sources[q := Source(frames[over..], now, Some(sequence), SourceOr(s, q, now).primed)],
            s.dropped + over, s.lastMix)
  }

  // ----- A pump -----

  predicate Stale(r: Source, now: int) {
    r.frames == [] && now - r.received > STALE_AFTER
  }

  predicate Plays(r: Source) {
    r.frames != [] && (r.primed || |r.frames| >= JITTER_TARGET)
  }

  /** A peer's turn; None when it is forgotten. */
  function Turn(r: Source, now: int): Option<Source> {
    if Stale(r, now) then None
    else if Plays(r) then Some(r.(frames := r.frames[1..], primed := true))
    else if r.frames == [] then Some(r.(primed := false))
    else Some(r)
  }

  predicate Idle(s: State, now: int) {
    s.sources == map[] || (s.lastMix.Some? && now - s.lastMix.value < INTERVAL)
  }

  function Pumped(s: State, now: int): State {
    if Idle(s, now) then s
    else State(map q | q in s.sources && Turn(s.sources[q], now).Some? :: Turn(s.sources[q], now).value, s.dropped, Some(now))
  }

  /** The frames a pump takes from the queues. */
  function Heads(s: State, now: int): map<PeerId, Pcm> {
    if Idle(s, now) then map[]
    else map q | q in s.sources && Plays(s.sources[q]) :: s.sources[q].frames[0]
  }

  // ----- What is loud enough to mix -----

  function SumSquares(samples: seq<int16>): (sum: nat)
    decreases samples
  {
    if samples == [] then 0
    else
      var x: int := samples[|samples| - 1];
      Square(x) + SumSquares(samples[..|samples| - 1])
  }

  function Square(x: int): (y: nat)
    ensures y == x * x
  {
    if x < 0 then
      assert x * x == (-x) * (-x);
      (-x) * (-x)
    else x * x
  }

  /** Peak at least 900 or root mean square at least 260, without the root. */
  predicate Audible(samples: seq<int16>) {
    samples != [] &&
    ((exists i | 0 <= i < |samples| :: Abs(samples[i]) >= 900) || SumSquares(samples) >= 260 * 260 * |samples|)
  }

  lemma {:induction false} SquaresBetween(samples: seq<int16>, low: nat, high: nat)
    requires forall i | 0 <= i < |samples| :: low <= Abs(samples[i]) <= high
    ensures low * low * |samples| <= SumSquares(samples) <= high * high * |samples|
    decreases samples
  {
    if samples != [] {
      hide Square;
      var before, x := samples[..|samples| - 1], samples[|samples| - 1];
      SquaresBetween(before, low, high);
      SquareBetween(Abs(x), low, high);
      SquareIs(x);
      OneMoreTime(low * low, |before|);
      OneMoreTime(high * high, |before|);
    }
  }

  lemma SquareIs(x: int)
    ensures Square(x) == Abs(x) * Abs(x)
  {
  }

  lemma OneMoreTime(c: nat, n: nat)
    ensures c * (n + 1) == c * n + c
  {
  }

  lemma SquareBetween(x: nat, low: nat, high: nat)
    requires low <= x <= high
    ensures low * low <= x * x <= high * high
  {
    assert x * x - low * low == (x - low) * (x + low);
    assert high * high - x * x == (high - x) * (high + x);
  }

  /** Loud enough is a frame with one sample of 900 or more, or with none below 260; one with none of 260 or more is not. */
  lemma AudibleBetween(samples: seq<int16>)
    requires samples != []
    ensures (exists i | 0 <= i < |samples| :: Abs(samples[i]) >= 900) ==> Audible(samples)
    ensures (forall i | 0 <= i < |samples| :: Abs(samples[i]) >= 260) ==> Audible(samples)
    ensures (forall i | 0 <= i < |samples| :: Abs(samples[i]) < 260) ==> !Audible(samples)
  {
    if forall i | 0 <= i < |samples| :: Abs(samples[i]) >= 260 {
      SquaresBetween(samples, 260, 32768);
    }
    if forall i | 0 <= i < |samples| :: Abs(samples[i]) < 260 {
      SquaresBetween(samples, 0, 259);
      assert 259 * 259 * |samples| < 260 * 260 * |samples|;
    }
  }

  method IsAudible(samples: seq<int16>) returns (r: bool)
    ensures r == Audible(samples)
  {
    if |samples| == 0 {
      return false;
    }
    var sum := 0;
    var peak := 0;
    var i := 0;
    while i < |samples|
      invariant 0 <= i <= |samples| && sum == SumSquares(samples[..i])
      invariant peak >= 900 <==> exists k | 0 <= k < i :: Abs(samples[k]) >= 900
    {
      assert samples[..i + 1][..i] == samples[..i];
      var value := Abs(samples[i]);
      peak := Max(peak, value);
      sum := sum + Square(samples[i]);
      i := i + 1;
    }
    assert samples[..i] == samples;
    r := peak >= 900 || sum >= 260 * 260 * |samples|;
  }

  /** The audible frames of a pump, and their sum at one position. */
  function Voices(heads: map<PeerId, Pcm>): map<PeerId, Pcm> {
    map q | q in heads && Audible(heads[q]) :: heads[q]
  }

  function Column(voices: map<PeerId, Pcm>, i: nat): map<PeerId, int>
    requires i < VoicePayload.FRAME
  {
    map q | q in voices :: voices[q][i]
  }

  ghost function MixedAt(voices: map<PeerId, Pcm>, i: nat): int
    requires i < VoicePayload.FRAME
  {
    Sum(Column(voices, i))
  }

  // ----- The engine -----

  class Player {
    var sources: map<PeerId, Source>
    var dropped: nat
    var lastMix: Option<int>

    constructor ()
      ensures View() == START
    {
      sources := map[];
      dropped := 0;
      lastMix := None;
    }

    function View(): State
      reads this
    {
      State(sources, dropped, lastMix)
    }

    /** playRemoteFrame; payloads of less than two bytes are ignored. */
    method PlayRemoteFrame(t: Adpcm.StepTable, from: PeerId, sequence: uint32, payload: seq<byte>,
                           library: Option<seq<int16>>, stretched: Pcm, now: int)
      modifies this
      ensures |payload| < 2 ==> View() == old(View())
      ensures |payload| >= 2 ==>
                |VoicePayload.VoiceSamples(t, payload, library, stretched)| == VoicePayload.FRAME &&
                View() == Arrived(old(View()), NameOf(from), sequence,
                                  VoicePayload.VoiceSamples(t, payload, library, stretched), now)
    {
      hide VoicePayload.VoiceSamples;
      VoicePayload.VoiceNeverEmpty(t, payload, library, stretched);
      if |payload| < 2 {
        return;
      }
      var q := if from == "" then UNKNOWN else from;
      if q in sources && sources[q].last.Some? && sequence <= sources[q].last.value {
        dropped := dropped + 1;
        return;
      }
      var remote := if q in sources then sources[q] else Source([], now, None, false);
      remote := remote.(last := Some(sequence), received := now);
      var pcm := VoicePayload.DecodeVoice(t, payload, library, stretched);
      var over;
      remote, over := Trimmed(remote.(frames := remote.frames + [pcm]));
      dropped := dropped + over;
      sources := sources[q := remote];
    }

    /** Drop the oldest frames of a queue that has grown too long. */
    static method Trimmed(r: Source) returns (r': Source, over: nat)
      ensures over == Max(0, |r.frames| - MAX_FRAMES) && r' == r.(frames := r.frames[over..])
    {
      r', over := r, 0;
      while |r'.frames| > MAX_FRAMES
        invariant over <= Max(0, |r.frames| - MAX_FRAMES) && r' == r.(frames := r.frames[over..])
        decreases |r'.frames|
      {
        r' := r'.(frames := r'.frames[1..]);
        over := over + 1;
      }
    }

    /** One peer's turn: forget it, take its oldest frame, or leave it. */
    method TakeTurn(q: PeerId, now: int) returns (frame: Option<Pcm>)
      requires q in sources
      modifies this`sources
      ensures var r := old(sources)[q];
              sources == if Turn(r, now).Some? then old(sources)[q := Turn(r, now).value] else old(sources) - {q}
      ensures var r := old(sources)[q];
              frame == if Plays(r) then Some(r.frames[0]) else None
    {
      frame := None;
      var state := sources[q];
      if |state.frames| == 0 && now - state.received > STALE_AFTER {
        sources := sources - {q};
        return;
      }
      if |state.frames| > 0 {
        if !state.primed && |state.frames| < JITTER_TARGET {
          assert sources == sources[q := state];
          return;
        }
        frame := Some(state.frames[0]);
        sources := sources[q := state.(frames := state.frames[1..], primed := true)];
      } else {
        sources := sources[q := state.(primed := false)];
      }
    }

    /** pumpRemotePlayback up to the mixed samples; `active` counts the audible frames. */
    method PumpRemotePlayback(now: int) returns (mixed: seq<int>, active: nat)
      modifies this
      ensures View() == Pumped(old(View()), now)
      ensures IsMix(mixed, active, Voices(Heads(old(View()), now)))
    {
      hide IsMix, Audible, Turn, TurnsDone, Pumped, Heads, Voices;
      mixed, active := seq(VoicePayload.FRAME, _ => 0), 0;
      ghost var voices: map<PeerId, Pcm> := map[];
      NothingMixed();
      ghost var before := View();
      if sources == map[] || (lastMix.Some? && now - lastMix.value < INTERVAL) {
        IdlePump(before, now);
        return;
      }
      lastMix := Some(now);
      var todo := sources.Keys;
      TurnsStart(sources, now);
      while todo != {}
        invariant todo <= before.sources.Keys && dropped == before.dropped && lastMix == Some(now)
        invariant TurnsDone(before.sources, now, sources, voices, todo)
        invariant IsMix(mixed, active, voices)
        decreases |todo|
      {
        var q :| q in todo;
        TurnNext(before.sources, now, sources, voices, todo, q);
        todo := todo - {q};
        var frame := TakeTurn(q, now);
        if frame.Some? {
          var audible := IsAudible(frame.value);
          if audible {
            MixMore(mixed, active, voices, q, frame.value);
            mixed := AddFrame(mixed, frame.value);
            active := active + 1;
            voices := voices[q := frame.value];
          }
        }
      }
      TurnsEnd(before, now, sources, voices);
    }
  }

  /** Every position holds the sum of the voices there. */
  ghost predicate IsMix(mixed: seq<int>, active: nat, voices: map<PeerId, Pcm>) {
    |mixed| == VoicePayload.FRAME && active == |voices| &&
    forall i | 0 <= i < VoicePayload.FRAME :: mixed[i] == MixedAt(voices, i)
  }

  lemma IdlePump(s: State, now: int)
    requires Idle(s, now)
    ensures Pumped(s, now) == s && Voices(Heads(s, now)) == map[]
  {
  }

  method AddFrame(mixed: seq<int>, frame: Pcm) returns (sum: seq<int>)
    ensures sum == Added(mixed, frame)
  {
    sum := [];
    var samples := Min(|frame|, |mixed|);
    var i := 0;
    while i < samples
      invariant 0 <= i <= samples && sum == Added(mixed, frame)[..i]
    {
      sum := sum + [mixed[i] + frame[i]];
      i := i + 1;
    }
    sum := sum + mixed[samples..];
  }

  function Added(mixed: seq<int>, frame: Pcm): seq<int> {
    seq(|mixed|, i requires 0 <= i < |mixed| => if i < |frame| then mixed[i] + frame[i] as int else mixed[i])
  }

  lemma NothingMixed()
    ensures IsMix(seq(VoicePayload.FRAME, _ => 0), 0, map[])
  {
    var none: map<PeerId, Pcm> := map[];
    forall i | 0 <= i < VoicePayload.FRAME ensures MixedAt(none, i) == 0 {
      assert Column(none, i) == map[];
    }
  }

  lemma ColumnMore(voices: map<PeerId, Pcm>, q: PeerId, frame: Pcm, i: nat)
    requires q !in voices && i < VoicePayload.FRAME
    ensures MixedAt(voices[q := frame], i) == MixedAt(voices, i) + frame[i]
  {
    SumAdd(Column(voices, i), q, frame[i]);
    assert Column(voices[q := frame], i) == Column(voices, i)[q := frame[i] as int];
  }

  lemma MixMore(mixed: seq<int>, active: nat, voices: map<PeerId, Pcm>, q: PeerId, frame: Pcm)
    requires q !in voices && IsMix(mixed, active, voices)
    ensures IsMix(Added(mixed, frame), active + 1, voices[q := frame])
  {
    hide MixedAt;
    forall i | 0 <= i < VoicePayload.FRAME ensures Added(mixed, frame)[i] == MixedAt(voices[q := frame], i) {
      ColumnMore(voices, q, frame, i);
    }
  }

  // ----- The pump, peer by peer -----

  /** Every peer but those of `todo` has had its turn; `voices` are the audible frames taken so far. */
  ghost predicate TurnsDone(before: map<PeerId, Source>, now: int, sources: map<PeerId, Source>,
                            voices: map<PeerId, Pcm>, todo: set<PeerId>)
  {
    && (forall q | q in sources :: q in before)
    && (forall q | q in before ::
          if q in todo then q in sources && sources[q] == before[q] && q !in voices
          else (q in sources <==> Turn(before[q], now).Some?) && (q in sources ==> sources[q] == Turn(before[q], now).value))
    && (forall q | q in voices :: q in before && q !in todo && Plays(before[q]) && Audible(before[q].frames[0]) &&
                                  voices[q] == before[q].frames[0])
    && (forall q | q in before && q !in todo && Plays(before[q]) && Audible(before[q].frames[0]) :: q in voices)
  }

  lemma TurnsStart(before: map<PeerId, Source>, now: int)
    ensures TurnsDone(before, now, before, map[], before.Keys)
  {
  }

  lemma TurnNext(before: map<PeerId, Source>, now: int, sources: map<PeerId, Source>, voices: map<PeerId, Pcm>,
                 todo: set<PeerId>, q: PeerId)
    requires q in todo && todo <= before.Keys && TurnsDone(before, now, sources, voices, todo)
    ensures q in sources && sources[q] == before[q] && q !in voices
    ensures var r := before[q];
            var after := if Turn(r, now).Some? then sources[q := Turn(r, now).value] else sources - {q};
            TurnsDone(before, now, after,
                      if Plays(r) && Audible(r.frames[0]) then voices[q := r.frames[0]] else voices, todo - {q})
  {
    hide Turn, Plays, Audible;
  }

  lemma TurnsEnd(s: State, now: int, sources: map<PeerId, Source>, voices: map<PeerId, Pcm>)
    requires !Idle(s, now) && TurnsDone(s.sources, now, sources, voices, {})
    ensures State(sources, s.dropped, Some(now)) == Pumped(s, now)
    ensures voices == Voices(Heads(s, now))
  {
    hide Turn, Plays, Audible;
    assert sources == Pumped(s, now).sources;
  }

  // ----- Runs -----

  /** A frame with at least two bytes of payload arrives, decoded; or the pump runs. */
  datatype Event =
    | Arrive(q: PeerId, sequence: uint32, pcm: Pcm, now: int)
    | Tick(now: int)

  datatype Heard = Heard(sequence: uint32, pcm: Pcm)

  /** What was accepted from a peer since its entry was made, and what of it was played. */
  datatype Life = Life(accepted: seq<Heard>, played: seq<Heard>)

  datatype History = History(state: State, offered: nat, popped: nat, lives: map<PeerId, Life>)

  function LifeOf(h: History, q: PeerId): Life {
    if q in h.lives then h.lives[q] else Life([], [])
  }

  function PlayedOne(l: Life, r: Source): Life {
    if Plays(r) && |r.frames| <= |l.accepted|
    then l.(played := l.played + [l.accepted[|l.accepted| - |r.frames|]])
    else l
  }

  function LivesAfter(h: History, now: int): map<PeerId, Life> {
    map q | q in h.state.sources && Turn(h.state.sources[q], now).Some? :: PlayedOne(LifeOf(h, q), h.state.sources[q])
  }

  function Next(h: History, e: Event): History {
    match e
    case Arrive(q, sequence, pcm, now) =>
      var l := LifeOf(h, q);
      History(Arrived(h.state, q, sequence, pcm, now), h.offered + 1, h.popped,
              if New(h.state, q, sequence) then h.lives[q := l.(accepted := l.accepted + [Heard(sequence, pcm)])] else h.lives)
    case Tick(now) =>
      History(Pumped(h.state, now), h.offered, h.popped + |Heads(h.state, now)|,
              if Idle(h.state, now) then h.lives else LivesAfter(h, now))
  }

  function After(events: seq<Event>): History
    decreases events
  {
    if events == [] then History(START, 0, 0, map[]) else Next(After(events[..|events| - 1]), events[|events| - 1])
  }

  // ----- Conservation -----

  function Lengths(sources: map<PeerId, Source>): map<PeerId, int> {
    map q | q in sources :: |sources[q].frames|
  }

  ghost function Queued(sources: map<PeerId, Source>): int {
    Sum(Lengths(sources))
  }

  function Turned(sources: map<PeerId, Source>, now: int): map<PeerId, Source> {
    map q | q in sources && Turn(sources[q], now).Some? :: Turn(sources[q], now).value
  }

  function HeadsOf(sources: map<PeerId, Source>): map<PeerId, Pcm> {
    map q | q in sources && Plays(sources[q]) :: sources[q].frames[0]
  }

  lemma QueuedWith(sources: map<PeerId, Source>, q: PeerId, r: Source)
    requires q !in sources
    ensures Queued(sources[q := r]) == Queued(sources) + |r.frames|
  {
    SumAdd(Lengths(sources), q, |r.frames|);
    assert Lengths(sources[q := r]) == Lengths(sources)[q := |r.frames|];
  }

  /** A pump takes from the queues exactly the frames it plays; what it forgets was empty. */
  lemma {:induction false} PumpTakesHeads(sources: map<PeerId, Source>, now: int)
    ensures Queued(Turned(sources, now)) + |HeadsOf(sources)| == Queued(sources)
    decreases |sources|
  {
    if sources == map[] {
      assert Turned(sources, now) == map[] && HeadsOf(sources) == map[];
    } else {
      var q :| q in sources;
      var rest := sources - {q};
      var r := sources[q];
      PumpTakesHeads(rest, now);
      assert sources == rest[q := r];
      QueuedWith(rest, q, r);
      TurnedWith(rest, q, r, now);
      if Turn(r, now).Some? {
        QueuedWith(Turned(rest, now), q, Turn(r, now).value);
      }
    }
  }

  lemma TurnedWith(rest: map<PeerId, Source>, q: PeerId, r: Source, now: int)
    requires q !in rest
    ensures q !in Turned(rest, now) && q !in HeadsOf(rest)
    ensures Turned(rest[q := r], now) == if Turn(r, now).Some? then Turned(rest, now)[q := Turn(r, now).value] else Turned(rest, now)
    ensures HeadsOf(rest[q := r]) == if Plays(r) then HeadsOf(rest)[q := r.frames[0]] else HeadsOf(rest)
  {
    hide Turn, Plays;
  }

  lemma ArrivalAdds(s: State, q: PeerId, sequence: uint32, pcm: Pcm, now: int)
    requires New(s, q, sequence)
    ensures var s' := Arrived(s, q, sequence, pcm, now);
            s'.dropped + Queued(s'.sources) == s.dropped + Queued(s.sources) + 1
  {
    var s' := Arrived(s, q, sequence, pcm, now);
    var r := s'.sources[q];
    if q in s.sources {
      var rest := s.sources - {q};
      assert s.sources == rest[q := s.sources[q]] && s'.sources == rest[q := r];
      QueuedWith(rest, q, s.sources[q]);
      QueuedWith(rest, q, r);
    } else {
      QueuedWith(s.sources, q, r);
    }
  }

  ghost predicate Conserved(h: History) {
    h.offered == h.state.dropped + h.popped + Queued(h.state.sources)
  }

  lemma ConservedStep(h: History, e: Event)
    requires Conserved(h)
    ensures Conserved(Next(h, e))
  {
    hide Queued;
    match e
    case Arrive(q, sequence, pcm, now) =>
      if New(h.state, q, sequence) {
        ArrivalAdds(h.state, q, sequence, pcm, now);
      }
    case Tick(now) =>
      PumpTakesHeads(h.state.sources, now);
  }

  // ----- Order -----

  predicate Rising(heard: seq<Heard>) {
    forall i, j | 0 <= i < j < |heard| :: heard[i].sequence < heard[j].sequence
  }

  function Pcms(heard: seq<Heard>): seq<Pcm> {
    seq(|heard|, i requires 0 <= i < |heard| => heard[i].pcm)
  }

  /** The queue is the end of what was accepted. */
  ghost predicate QueueIsTail(accepted: seq<Heard>, r: Source) {
    && |r.frames| <= MAX_FRAMES && |r.frames| <= |accepted|
    && r.frames == Pcms(accepted[|accepted| - |r.frames|..])
    && accepted != [] && r.last == Some(accepted[|accepted| - 1].sequence)
  }

  /** What was played lies among the first `gone` accepted frames, in the order of the numbers. */
  ghost predicate PlayedBefore(l: Life, gone: nat) {
    && gone <= |l.accepted| && Rising(l.accepted) && Rising(l.played)
    && forall p | p in l.played :: p in l.accepted[..gone]
  }

  ghost predicate Orderly(l: Life, r: Source) {
    QueueIsTail(l.accepted, r) && PlayedBefore(l, |l.accepted| - |r.frames|)
  }

  lemma PlayedStill(l: Life, more: seq<Heard>, gone: nat, gone': nat)
    requires PlayedBefore(l, gone) && gone <= gone' <= |l.accepted + more| && Rising(l.accepted + more)
    ensures PlayedBefore(l.(accepted := l.accepted + more), gone')
  {
    var accepted := l.accepted + more;
    forall p | p in l.played ensures p in accepted[..gone'] {
      var i :| 0 <= i < gone && l.accepted[..gone][i] == p;
      assert accepted[..gone'][i] == p;
    }
  }

  lemma TailArrival(accepted: seq<Heard>, r: Source, h: Heard, now: int)
    requires QueueIsTail(accepted, r)
    ensures var frames := r.frames + [h.pcm];
            QueueIsTail(accepted + [h], Source(frames[Max(0, |frames| - MAX_FRAMES)..], now, Some(h.sequence), r.primed))
  {
    var frames := r.frames + [h.pcm];
    var n := |accepted| - |r.frames|;
    assert frames == Pcms((accepted + [h])[n..]);
  }

  lemma OrderlyArrival(l: Life, r: Source, h: Heard, now: int)
    requires Orderly(l, r) && h.sequence > r.last.value
    ensures var frames := r.frames + [h.pcm];
            Orderly(l.(accepted := l.accepted + [h]),
                    Source(frames[Max(0, |frames| - MAX_FRAMES)..], now, Some(h.sequence), r.primed))
  {
    hide Pcms;
    TailArrival(l.accepted, r, h, now);
    var over := Max(0, |r.frames| + 1 - MAX_FRAMES);
    PlayedStill(l, [h], |l.accepted| - |r.frames|, |l.accepted| - |r.frames| + over);
  }

  lemma OrderlyFirst(h: Heard, now: int)
    ensures Orderly(Life([h], []), Source([h.pcm], now, Some(h.sequence), false))
  {
  }

  lemma PlayedNext(l: Life, gone: nat)
    requires PlayedBefore(l, gone) && gone < |l.accepted|
    ensures PlayedBefore(l.(played := l.played + [l.accepted[gone]]), gone + 1)
  {
    var next := l.accepted[gone];
    forall p | p in l.played ensures p in l.accepted[..gone + 1] && p.sequence < next.sequence {
      var i :| 0 <= i < gone && l.accepted[..gone][i] == p;
      assert l.accepted[..gone + 1][i] == p;
    }
    assert l.accepted[..gone + 1][gone] == next;
    forall i | 0 <= i < |l.played| ensures l.played[i].sequence < next.sequence {
      assert l.played[i] in l.played;
    }
  }

  lemma OrderlyTurn(l: Life, r: Source, now: int)
    requires Orderly(l, r) && Turn(r, now).Some?
    ensures Orderly(PlayedOne(l, r), Turn(r, now).value)
  {
    hide PlayedBefore;
    var n := |l.accepted| - |r.frames|;
    if Plays(r) {
      assert r.frames[1..] == Pcms(l.accepted[n + 1..]);
      PlayedNext(l, n);
    }
  }

  ghost predicate AllOrderly(h: History) {
    && h.lives.Keys == h.state.sources.Keys
    && forall q | q in h.state.sources :: Orderly(h.lives[q], h.state.sources[q])
  }

  lemma OrderlyStep(h: History, e: Event)
    requires AllOrderly(h)
    ensures AllOrderly(Next(h, e))
  {
    hide Orderly, Turn, PlayedOne, Pcms;
    match e
    case Arrive(q, sequence, pcm, now) =>
      if New(h.state, q, sequence) {
        if q in h.state.sources {
          LastKnown(h.lives[q], h.state.sources[q]);
          OrderlyArrival(h.lives[q], h.state.sources[q], Heard(sequence, pcm), now);
        } else {
          assert [] + [pcm] == [pcm] && [] + [Heard(sequence, pcm)] == [Heard(sequence, pcm)];
          assert [pcm][0..] == [pcm];
          OrderlyFirst(Heard(sequence, pcm), now);
        }
      }
    case Tick(now) =>
      forall q | q in h.state.sources && Turn(h.state.sources[q], now).Some?
        ensures Orderly(PlayedOne(h.lives[q], h.state.sources[q]), Turn(h.state.sources[q], now).value)
      {
        OrderlyTurn(h.lives[q], h.state.sources[q], now);
      }
  }

  lemma LastKnown(l: Life, r: Source)
    requires Orderly(l, r)
    ensures r.last.Some?
  {
  }

  /** On every run the frames offered are the frames dropped, played and still queued; no queue holds more than
      twelve, each of 320 samples; and what a peer's entry has played, and then queues, is in the order of the
      numbers the frames came with, none twice. */
  lemma {:induction false} PlaybackConserves(events: seq<Event>)
    ensures Conserved(After(events)) && AllOrderly(After(events))
    decreases events
  {
    if events == [] {
      assert Lengths(map[]) == map[];
    } else {
      PlaybackConserves(events[..|events| - 1]);
      ConservedStep(After(events[..|events| - 1]), events[|events| - 1]);
      OrderlyStep(After(events[..|events| - 1]), events[|events| - 1]);
    }
  }

  // ----- What is played, when -----

  /** A pump does something: some peer is known, and the last mix was at least 20 ms ago. */
  predicate DueAt(h: History, now: int) {
    h.state.sources != map[] && (h.state.lastMix.Some? ==> now - h.state.lastMix.value >= 20)
  }

  predicate IsDue(h: History, e: Event) {
    e.Tick? && DueAt(h, e.now)
  }

  /** Playing `q` has begun and has not run dry since: a due pump played a frame of it, and none found its queue
      empty after that. */
  predicate Begun(events: seq<Event>, q: PeerId)
    decreases events
  {
    events != [] &&
    var before := events[..|events| - 1];
    var h := After(before);
    if IsDue(h, events[|events| - 1]) && q in h.state.sources then
      h.state.sources[q].frames != [] &&
      (Begun(before, q) || |LifeOf(After(events), q).played| > |LifeOf(h, q).played|)
    else Begun(before, q)
  }

  /** A peer's entry before and after a due pump. */
  lemma DueTurn(h: History, q: PeerId, now: int)
    requires AllOrderly(h) && DueAt(h, now) && q in h.state.sources
    ensures q in h.lives && |h.state.sources[q].frames| <= |h.lives[q].accepted|
    ensures var r := h.state.sources[q];
            var next := Next(h, Tick(now));
            var n := |r.frames|;
            var l := h.lives[q];
            && (q in Heads(h.state, now) <==> n >= 2 || (n == 1 && r.primed))
            && (q in Heads(h.state, now) ==>
                  && Heads(h.state, now)[q] == r.frames[0] == l.accepted[|l.accepted| - n].pcm
                  && q in next.lives && q in next.state.sources
                  && next.lives[q] == l.(played := l.played + [l.accepted[|l.accepted| - n]])
                  && next.state.sources[q].frames == r.frames[1..] && next.state.sources[q].primed)
            && (q !in Heads(h.state, now) ==>
                  && (q !in next.state.sources <==> n == 0 && now - r.received > 2000)
                  && (q in next.state.sources ==>
                        q in next.lives && next.lives[q] == l && next.state.sources[q] == r.(primed := n > 0 && r.primed)))
            && next.state.lastMix == Some(now) && next.state.dropped == h.state.dropped
  {
    var r := h.state.sources[q];
    assert Orderly(h.lives[q], r);
    hide AllOrderly, PlayedBefore;
    if r.frames != [] {
      assert Pcms(h.lives[q].accepted[|h.lives[q].accepted| - |r.frames|..])[0] == r.frames[0];
    }
  }

  lemma NotDue(h: History, now: int)
    requires !DueAt(h, now)
    ensures Next(h, Tick(now)) == h && Heads(h.state, now) == map[]
  {
  }

  lemma {:induction false} PrimedIsBegun(events: seq<Event>, q: PeerId)
    ensures Begun(events, q) <==> q in After(events).state.sources && After(events).state.sources[q].primed
    decreases events
  {
    if events != [] {
      hide Arrived, Turn, Plays, Pumped, Heads, AllOrderly, LivesAfter, IsDue, DueAt;
      var before := events[..|events| - 1];
      PrimedIsBegun(before, q);
      PlaybackConserves(before);
      PrimedStep(After(before), events[|events| - 1], q);
    }
  }

  lemma PrimedStep(h: History, e: Event, q: PeerId)
    requires AllOrderly(h)
    ensures var next := Next(h, e);
            var before := q in h.state.sources && h.state.sources[q].primed;
            (q in next.state.sources && next.state.sources[q].primed) <==>
              if IsDue(h, e) && q in h.state.sources then
                h.state.sources[q].frames != [] && (before || |LifeOf(next, q).played| > |LifeOf(h, q).played|)
              else before
  {
    match e
    case Arrive(_, _, _, _) =>
    case Tick(now) =>
      if DueAt(h, now) {
        if q in h.state.sources {
          DueTurn(h, q, now);
        }
        hide AllOrderly, Plays, Turn, Orderly;
      } else {
        NotDue(h, now);
      }
  }

  /**
   * When a frame is played. A pump at least 20 ms after the last one plays a peer's oldest frame exactly when two or
   * more are queued, or one is and playing it has begun and not run dry; it forgets the peer exactly when nothing is
   * queued and nothing came for two seconds. A pump before that does nothing.
   */
  lemma PlaysExactly(events: seq<Event>, q: PeerId, now: int)
    requires q in After(events).state.sources
    ensures q in After(events).lives
    ensures var h := After(events);
            var next := After(events + [Tick(now)]);
            var r := h.state.sources[q];
            var n := |r.frames|;
            var l := h.lives[q];
            var due := h.state.lastMix.Some? ==> now - h.state.lastMix.value >= 20;
            var plays := due && (n >= 2 || (n == 1 && Begun(events, q)));
            && n <= |l.accepted|
            && (q in Heads(h.state, now) <==> plays)
            && (plays ==>
                  && Heads(h.state, now)[q] == r.frames[0] == l.accepted[|l.accepted| - n].pcm
                  && q in next.lives && next.lives[q] == l.(played := l.played + [l.accepted[|l.accepted| - n]])
                  && q in next.state.sources && next.state.sources[q].frames == r.frames[1..])
            && (!plays ==>
                  && (q !in next.state.sources <==> due && n == 0 && now - r.received > 2000)
                  && (q in next.state.sources ==>
                        q in next.lives && next.lives[q] == l && next.state.sources[q].frames == r.frames))
  {
    hide Arrived, Turn, Plays, Pumped, Heads, LivesAfter, Next, Begun, Orderly;
    var h := After(events);
    PlaybackConserves(events);
    PrimedIsBegun(events, q);
    assert (events + [Tick(now)])[..|events|] == events;
    assert Orderly(h.lives[q], h.state.sources[q]);
    if DueAt(h, now) {
      DueTurn(h, q, now);
    } else {
      NotDue(h, now);
      QueueWithin(h.lives[q], h.state.sources[q]);
    }
  }

  lemma QueueWithin(l: Life, r: Source)
    requires Orderly(l, r)
    ensures |r.frames| <= |l.accepted|
  {
  }

  lemma ArrivalAtKnown(h: History, q: PeerId, sequence: uint32, pcm: Pcm, now: int)
    requires q in h.state.sources && q in h.lives && Orderly(h.lives[q], h.state.sources[q])
    ensures h.lives[q].accepted != []
    ensures var accepted := h.lives[q].accepted;
            var queue := h.state.sources[q].frames;
            && (New(h.state, q, sequence) <==> sequence > accepted[|accepted| - 1].sequence)
            && (New(h.state, q, sequence) ==> Queued12(h, Next(h, Arrive(q, sequence, pcm, now)), q, queue, pcm, now))
  {
    var queue := h.state.sources[q].frames;
    assert |queue| == 12 ==> (queue + [pcm])[1..] == queue[1..] + [pcm];
    assert (queue + [pcm])[0..] == queue + [pcm];
  }

  /** The frame has been queued behind `queue`, and only a thirteenth costs the oldest. */
  predicate Queued12(h: History, next: History, q: PeerId, queue: seq<Pcm>, pcm: Pcm, now: int) {
    && |queue| <= 12
    && q in next.state.sources && next.state.sources[q].received == now
    && next.state.sources[q].frames == (if |queue| < 12 then queue + [pcm] else queue[1..] + [pcm])
    && next.state.dropped == h.state.dropped + if |queue| < 12 then 0 else 1
  }

  lemma ArrivalAtUnknown(h: History, q: PeerId, sequence: uint32, pcm: Pcm, now: int)
    requires q !in h.state.sources
    ensures New(h.state, q, sequence) && Queued12(h, Next(h, Arrive(q, sequence, pcm, now)), q, [], pcm, now)
  {
    assert [] + [pcm] == [pcm] && [pcm][0..] == [pcm];
  }

  /** Who is known has sent something. */
  lemma KnownHasAccepted(h: History, q: PeerId)
    requires AllOrderly(h)
    ensures q in h.state.sources <==> LifeOf(h, q).accepted != []
    ensures q in h.state.sources <==> q in h.lives
  {
    if q in h.state.sources {
      assert Orderly(h.lives[q], h.state.sources[q]);
    }
    hide Orderly;
  }

  lemma ArrivalCounted(h: History, q: PeerId, sequence: uint32, pcm: Pcm, now: int)
    ensures var next := Next(h, Arrive(q, sequence, pcm, now));
            if New(h.state, q, sequence) then
              q in next.lives && next.lives[q].accepted == LifeOf(h, q).accepted + [Heard(sequence, pcm)]
            else
              next.state.sources == h.state.sources && next.lives == h.lives && next.state.dropped == h.state.dropped + 1
  {
  }

  /**
   * What becomes of an arriving frame: it is accepted exactly when its number exceeds that of the last one accepted
   * since the peer's entry was made. Then it is queued behind the others, and only a thirteenth costs the oldest.
   */
  lemma ArrivesExactly(events: seq<Event>, q: PeerId, sequence: uint32, pcm: Pcm, now: int)
    ensures var h := After(events);
            var next := After(events + [Arrive(q, sequence, pcm, now)]);
            var accepted := LifeOf(h, q).accepted;
            var queue := if q in h.state.sources then h.state.sources[q].frames else [];
            if accepted == [] || sequence > accepted[|accepted| - 1].sequence then
              && q in next.lives && next.lives[q].accepted == accepted + [Heard(sequence, pcm)]
              && Queued12(h, next, q, queue, pcm, now)
            else
              next.state.sources == h.state.sources && next.lives == h.lives && next.state.dropped == h.state.dropped + 1
  {
    hide Next, New, Orderly, AllOrderly, Queued12, Conserved;
    var h := After(events);
    PlaybackConserves(events);
    assert (events + [Arrive(q, sequence, pcm, now)])[..|events|] == events;
    KnownHasAccepted(h, q);
    ArrivalCounted(h, q, sequence, pcm, now);
    if q in h.state.sources {
      OneOrderly(h, q);
      ArrivalAtKnown(h, q, sequence, pcm, now);
    } else {
      ArrivalAtUnknown(h, q, sequence, pcm, now);
    }
  }

  lemma OneOrderly(h: History, q: PeerId)
    requires AllOrderly(h) && q in h.state.sources
    ensures q in h.lives && Orderly(h.lives[q], h.state.sources[q])
  {
  }

  // ----- Progress -----

  /** The due pumps among some events. */
  function DuePumps(events: seq<Event>, more: seq<Event>): nat
    decreases more
  {
    if more == [] then 0
    else
      var before := more[..|more| - 1];
      DuePumps(events, before) + if IsDue(After(events + before), more[|more| - 1]) then 1 else 0
  }

  predicate NoArrivalOf(more: seq<Event>, q: PeerId) {
    forall i | 0 <= i < |more| :: more[i].Arrive? ==> more[i].q != q
  }

  /** The first `d` of the `n` frames that waited for `q` have been played, and the rest waits. */
  predicate PlayedOff(h: History, next: History, q: PeerId, n: nat, d: nat)
    requires q in h.lives && n <= |h.lives[q].accepted| && d <= n
  {
    var l := h.lives[q];
    var first := |l.accepted| - n;
    && q in next.lives && q in next.state.sources && next.lives[q].accepted == l.accepted
    && next.lives[q].played == l.played + l.accepted[first..first + d]
    && |next.state.sources[q].frames| == n - d
    && (d > 0 ==> next.state.sources[q].primed)
  }

  lemma PlayedOffMore(h: History, next: History, after: History, q: PeerId, n: nat, d: nat)
    requires q in h.lives && n <= |h.lives[q].accepted| && d < n && PlayedOff(h, next, q, n, d)
    requires q in after.lives && q in after.state.sources
    requires var l := next.lives[q];
             after.lives[q] == l.(played := l.played + [l.accepted[|l.accepted| - (n - d)]])
    requires |after.state.sources[q].frames| == n - d - 1 && after.state.sources[q].primed
    ensures PlayedOff(h, after, q, n, d + 1)
  {
    var l := h.lives[q];
    var first := |l.accepted| - n;
    assert l.accepted[first..first + d] + [l.accepted[first + d]] == l.accepted[first..first + d + 1];
  }

  lemma OtherEvent(h: History, e: Event, q: PeerId)
    requires q in h.state.sources && q in h.lives && !IsDue(h, e) && (e.Arrive? ==> e.q != q)
    ensures var next := Next(h, e);
            q in next.state.sources && q in next.lives && next.state.sources[q] == h.state.sources[q] && next.lives[q] == h.lives[q]
  {
    if e.Tick? {
      NotDue(h, e.now);
    }
  }

  /** Frames get played: of n >= 2 frames that wait, d due pumps without a new arrival play the first d, in order; so n
      of them play all. */
  lemma {:induction false} QueueIsPlayed(events: seq<Event>, q: PeerId, more: seq<Event>)
    requires q in After(events).state.sources && |After(events).state.sources[q].frames| >= 2
    requires NoArrivalOf(more, q) && DuePumps(events, more) <= |After(events).state.sources[q].frames|
    ensures var h := After(events);
            q in h.lives && |h.state.sources[q].frames| <= |h.lives[q].accepted| &&
            PlayedOff(h, After(events + more), q, |h.state.sources[q].frames|, DuePumps(events, more))
    decreases more
  {
    hide Next, Orderly, IsDue, DueAt;
    var h := After(events);
    var n := |h.state.sources[q].frames|;
    PlaybackConserves(events);
    assert Orderly(h.lives[q], h.state.sources[q]);
    QueueWithin(h.lives[q], h.state.sources[q]);
    if more == [] {
      assert events + more == events;
      assert h.lives[q].accepted[|h.lives[q].accepted| - n..|h.lives[q].accepted| - n] == [];
    } else {
      var before := more[..|more| - 1];
      var e := more[|more| - 1];
      assert (events + more)[..|events + more| - 1] == events + before;
      QueueIsPlayed(events, q, before);
      var mid := After(events + before);
      PlaybackConserves(events + before);
      if IsDue(mid, e) {
        DueIsTick(mid, e);
        DueTurn(mid, q, e.now);
        PlayedOffMore(h, mid, After(events + more), q, n, DuePumps(events, before));
      } else {
        OtherEvent(mid, e, q);
      }
    }
  }

  lemma DueIsTick(h: History, e: Event)
    ensures IsDue(h, e) ==> e.Tick? && DueAt(h, e.now) && e == Tick(e.now)
  {
  }
}
