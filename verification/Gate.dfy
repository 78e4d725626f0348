/**
 * Transmit gating: which of the captured frames the voice engine sends, and under which numbers.
 *
 * One tick is one call of VoiceEngine::pump; what the tick finds (loudness, the talk key, the frames
 * drained from the microphone) is its input. Encoding, metrics and callbacks are not part of this model.
 */
module Gate {
  import opened Common

  type Frame = seq<int16>

  const PRE_SPEECH := 6
  const HANGOVER := 28
  const KEY_TAIL := 8
  const SEQUENCES := 0x1_0000_0000

  /** `drained` are the frames taken from the capture device; without one there are none. */
  datatype Tick = Tick(muted: bool, pushToTalk: bool, held: bool, loud: bool, transport: bool, capture: bool,
                       drained: seq<Frame>)

  datatype Numbered = Numbered(sequence: uint32, pcm: Frame)

  /** The fields of the engine that gating uses. */
  datatype State = State(hangover: nat, tail: nat, transmitting: bool, sequence: uint32, pre: seq<Frame>)

  const START := State(0, 0, false, 0, [])

  predicate Sane(t: Tick) {
    t.capture || t.drained == []
  }

  // ----- One tick -----

  function HangoverAfter(s: State, t: Tick): nat {
    if t.muted || t.pushToTalk then 0
    else if t.loud then HANGOVER
    else if s.hangover > 0 then s.hangover - 1
    else 0
  }

  function TailAfter(s: State, t: Tick): nat {
    if t.muted || !t.pushToTalk then 0
    else if t.held then KEY_TAIL
    else if s.tail > 0 then s.tail - 1
    else 0
  }

  predicate Wants(s: State, t: Tick) {
    !t.muted &&
    (if t.pushToTalk then t.held || TailAfter(s, t) > 0 else t.loud || HangoverAfter(s, t) > 0)
  }

  predicate Transmits(s: State, t: Tick) {
    Wants(s, t) && t.transport
  }

  function KeepLast(frames: seq<Frame>): seq<Frame> {
    if |frames| <= PRE_SPEECH then frames else frames[|frames| - PRE_SPEECH..]
  }

  /** Frames without samples are passed over. */
  function Sounding(frames: seq<Frame>): seq<Frame>
    decreases frames
  {
    if frames == [] then []
    else
      var last := frames[|frames| - 1];
      Sounding(frames[..|frames| - 1]) + if last == [] then [] else [last]
  }

  /** What a tick sends: at the start of a burst what was kept, then what was just drained. */
  function Out(s: State, t: Tick): seq<Frame> {
    if !Transmits(s, t) then []
    else if s.transmitting then Sounding(t.drained)
    else Sounding(s.pre + t.drained)
  }

  function StateAfter(s: State, t: Tick): State {
    var hangover := HangoverAfter(s, t);
    var tail := TailAfter(s, t);
    if t.muted then State(0, 0, false, s.sequence, [])
    else if Transmits(s, t) then
      State(hangover, tail, true, (s.sequence + |Out(s, t)|) % SEQUENCES, if s.transmitting then s.pre else [])
    else if t.capture then State(hangover, tail, false, s.sequence, KeepLast(s.pre + t.drained))
    else s.(hangover := hangover, tail := tail)
  }

  function Number(frames: seq<Frame>, first: uint32): seq<Numbered> {
    seq(|frames|, i requires 0 <= i < |frames| => Numbered((first + i) % SEQUENCES, frames[i]))
  }

  // ----- The engine -----

  class VoiceSender {
    var hangover: nat
    var tail: nat
    var transmitting: bool
    var sequence: uint32
    var pre: seq<Frame>
    var sent: seq<Numbered>  // everything handed to the transport

    constructor ()
      ensures View() == START && sent == []
    {
      hangover := 0;
      tail := 0;
      transmitting := false;
      sequence := 0;
      pre := [];
      sent := [];
    }

    function View(): State
      reads this
    {
      State(hangover, tail, transmitting, sequence, pre)
    }

    method SendPcmFrame(pcm: Frame)
      modifies this`sequence, this`sent
      ensures sent == old(sent) + Number(Sounding([pcm]), old(sequence))
      ensures sequence == (old(sequence) + |Sounding([pcm])|) % SEQUENCES
    {
      assert [pcm][..0] == [];
      assert Sounding([pcm]) == Sounding([pcm][..0]) + (if pcm == [] then [] else [pcm]);
      if pcm == [] {
        return;
      }
      var frame := Numbered(sequence, pcm);
      sequence := (sequence + 1) % SEQUENCES;
      sent := sent + [frame];
    }

    method SendAll(frames: seq<Frame>)
      modifies this`sequence, this`sent
      ensures sent == old(sent) + Number(Sounding(frames), old(sequence))
      ensures sequence == (old(sequence) + |Sounding(frames)|) % SEQUENCES
    {
      var i := 0;
      while i < |frames|
        invariant 0 <= i <= |frames|
        invariant sent == old(sent) + Number(Sounding(frames[..i]), old(sequence))
        invariant sequence == (old(sequence) + |Sounding(frames[..i])|) % SEQUENCES
      {
        SoundingMore(frames[..i], [frames[i]]);
        NumberMore(Sounding(frames[..i]), Sounding([frames[i]]), old(sequence));
        assert frames[..i] + [frames[i]] == frames[..i + 1];
        SendPcmFrame(frames[i]);
        i := i + 1;
      }
      assert frames[..i] == frames;
    }

    method Keep(frames: seq<Frame>)
      requires |pre| <= PRE_SPEECH
      modifies this`pre
      ensures pre == KeepLast(old(pre) + frames)
    {
      var i := 0;
      assert old(pre) + frames[..0] == old(pre);
      while i < |frames|
        invariant 0 <= i <= |frames| && |pre| <= PRE_SPEECH
        invariant pre == KeepLast(old(pre) + frames[..i])
      {
        KeepOneMore(old(pre) + frames[..i], frames[i]);
        assert old(pre) + frames[..i] + [frames[i]] == old(pre) + frames[..i + 1];
        pre := pre + [frames[i]];
        while |pre| > PRE_SPEECH
          invariant PRE_SPEECH <= |pre| || pre == KeepLast(old(pre) + frames[..i]) + [frames[i]]
          invariant KeepLast(pre) == KeepLast(KeepLast(old(pre) + frames[..i]) + [frames[i]])
          decreases |pre|
        {
          pre := pre[1..];
        }
        i := i + 1;
      }
      assert frames[..i] == frames;
    }

    /** One pump of the sending side. */
    method Pump(t: Tick)
      requires Sane(t) && |pre| <= PRE_SPEECH
      modifies this
      ensures View() == StateAfter(old(View()), t)
      ensures sent == old(sent) + Number(Out(old(View()), t), old(sequence))
    {
      hide Number, Sounding, KeepLast;
      NumberNone(sequence);
      if t.muted {
        hangover := 0;
        tail := 0;
        transmitting := false;
        pre := [];
        return;
      }
      var shouldTransmit := false;
      if t.pushToTalk {
        if t.held {
          tail := KEY_TAIL;
        } else if tail > 0 {
          tail := tail - 1;
        }
        hangover := 0;
        shouldTransmit := t.held || tail > 0;
      } else {
        if t.loud {
          hangover := HANGOVER;
        } else if hangover > 0 {
          hangover := hangover - 1;
        }
        tail := 0;
        shouldTransmit := t.loud || hangover > 0;
      }
      if shouldTransmit && t.transport {
        if !transmitting {
          SoundingMore(pre, t.drained);
          NumberMore(Sounding(pre), Sounding(t.drained), sequence);
          SendAll(pre);
          pre := [];
        }
        SendAll(t.drained);
        transmitting := true;
      } else if t.capture {
        transmitting := false;
        Keep(t.drained);
      }
    }
  }

  lemma KeepOneMore(frames: seq<Frame>, f: Frame)
    ensures KeepLast(frames + [f]) == KeepLast(KeepLast(frames) + [f])
  {
  }

  lemma {:induction false} SoundingMore(a: seq<Frame>, b: seq<Frame>)
    ensures Sounding(a + b) == Sounding(a) + Sounding(b)
    decreases b
  {
    if b == [] {
      assert a + b == a;
    } else {
      assert (a + b)[..|a + b| - 1] == a + b[..|b| - 1];
      SoundingMore(a, b[..|b| - 1]);
    }
  }

  lemma NumberNone(first: uint32)
    ensures Number([], first) == []
  {
  }

  lemma ModPlus(a: nat, b: nat)
    ensures (a % SEQUENCES + b) % SEQUENCES == (a + b) % SEQUENCES
  {
  }

  lemma NumberMore(a: seq<Frame>, b: seq<Frame>, first: uint32)
    ensures Number(a + b, first) == Number(a, first) + Number(b, (first + |a|) % SEQUENCES)
    ensures ((first + |a|) % SEQUENCES + |b|) % SEQUENCES == (first + |a + b|) % SEQUENCES
  {
    var whole := Number(a + b, first);
    var parts := Number(a, first) + Number(b, (first + |a|) % SEQUENCES);
    forall i | 0 <= i < |whole| ensures whole[i] == parts[i] {
      if i >= |a| {
        ModPlus(first + |a|, i - |a|);
      }
    }
    ModPlus(first + |a|, |b|);
  }

  // ----- Runs -----

  /** The positions from `from` on that hold samples. */
  function Picks(all: seq<Frame>, from: nat): seq<nat>
    requires from <= |all|
    decreases all
  {
    if from == |all| then []
    else Picks(all[..|all| - 1], from) + if all[|all| - 1] == [] then [] else [|all| - 1 as nat]
  }

  /**
   * A run of ticks: everything drained so far, which of it was sent and under which number, and the position
   * since which nothing was sent or thrown away by muting.
   */
  datatype History = History(state: State, captured: seq<Frame>, chosen: seq<nat>, sent: seq<Numbered>, since: nat)

  /** Where the frames a transmitting tick sends begin. */
  function FirstOut(h: History): int {
    |h.captured| - if h.state.transmitting then 0 else |h.state.pre|
  }

  predicate Ticks(ticks: seq<Tick>) {
    forall i | 0 <= i < |ticks| :: Sane(ticks[i])
  }

  function Extend(h: History, t: Tick): History
    requires 0 <= FirstOut(h)
  {
    var captured := if t.muted then h.captured else h.captured + t.drained;
    History(StateAfter(h.state, t), captured,
            h.chosen + (if Transmits(h.state, t) then Picks(captured, FirstOut(h)) else []),
            h.sent + Number(Out(h.state, t), h.state.sequence),
            if t.muted || Transmits(h.state, t) then |captured| else h.since)
  }

  /** The kept frames are the last ones, at most six, of those not sent and not muted away. */
  predicate KeptRight(h: History) {
    && h.since <= |h.captured|
    && |h.state.pre| == Min(PRE_SPEECH, |h.captured| - h.since)
    && h.state.pre == h.captured[|h.captured| - |h.state.pre|..]
    && (h.state.transmitting ==> h.state.pre == [])
  }

  /** The sent frames are captured ones, in order, none twice, numbered from 0. */
  predicate SentRight(h: History) {
    && |h.sent| == |h.chosen|
    && h.state.sequence == |h.sent| % SEQUENCES
    && (forall i | 0 <= i < |h.chosen| :: h.chosen[i] < h.since <= |h.captured|)
    && (forall i, j | 0 <= i < j < |h.chosen| :: h.chosen[i] < h.chosen[j])
    && (forall i | 0 <= i < |h.sent| :: h.sent[i] == Numbered(i % SEQUENCES, h.captured[h.chosen[i]]))
  }

  lemma {:induction false} PicksMembers(all: seq<Frame>, from: nat)
    requires from <= |all|
    ensures forall i :: i in Picks(all, from) <==> from <= i < |all| && all[i] != []
    decreases all
  {
    if from < |all| {
      var before := all[..|all| - 1];
      PicksMembers(before, from);
      var last := if all[|all| - 1] == [] then [] else [|all| - 1 as nat];
      assert Picks(all, from) == Picks(before, from) + last;
    }
  }

  lemma {:induction false} PicksIncrease(all: seq<Frame>, from: nat)
    requires from <= |all|
    ensures forall k | 0 <= k < |Picks(all, from)| :: from <= Picks(all, from)[k] < |all|
    ensures forall k, m | 0 <= k < m < |Picks(all, from)| :: Picks(all, from)[k] < Picks(all, from)[m]
    decreases all
  {
    if from < |all| {
      PicksIncrease(all[..|all| - 1], from);
    }
  }

  lemma {:induction false} PicksSound(all: seq<Frame>, from: nat)
    requires from <= |all|
    ensures |Picks(all, from)| == |Sounding(all[from..])|
    ensures forall k | 0 <= k < |Picks(all, from)| ::
              0 <= Picks(all, from)[k] < |all| && all[Picks(all, from)[k]] == Sounding(all[from..])[k]
    decreases all
  {
    if from < |all| {
      var before := all[..|all| - 1];
      PicksSound(before, from);
      assert all[from..][..|all[from..]| - 1] == before[from..];
      assert all[from..][|all[from..]| - 1] == all[|all| - 1];
    }
  }

  lemma KeepIsLast(captured: seq<Frame>, pre: seq<Frame>, since: nat, drained: seq<Frame>)
    requires since <= |captured| && |pre| == Min(PRE_SPEECH, |captured| - since) && pre == captured[|captured| - |pre|..]
    ensures var kept := KeepLast(pre + drained);
            var all := captured + drained;
            |kept| == Min(PRE_SPEECH, |all| - since) && kept == all[|all| - |kept|..]
  {
    assert pre + drained == (captured + drained)[|captured| - |pre|..];
  }

  lemma KeptExtends(h: History, t: Tick)
    requires KeptRight(h) && Sane(t)
    ensures KeptRight(Extend(h, t))
  {
    hide Number, Picks, Sounding, KeepLast, Transmits;
    KeepIsLast(h.captured, h.state.pre, h.since, t.drained);
    var all := h.captured + t.drained;
    assert all[|all|..] == [] && h.captured[|h.captured|..] == [];
    if t.drained == [] {
      assert all == h.captured;
    }
  }

  /** What a transmitting tick sends is what it picks. */
  lemma OutIsPicked(h: History, t: Tick)
    requires KeptRight(h) && Sane(t) && Transmits(h.state, t)
    ensures var all := h.captured + t.drained;
            Out(h.state, t) == Sounding(all[FirstOut(h)..]) && FirstOut(h) >= h.since
  {
    var all := h.captured + t.drained;
    if h.state.transmitting {
      assert all[|h.captured|..] == t.drained;
    } else {
      assert all[FirstOut(h)..] == h.state.pre + t.drained;
    }
  }

  lemma ChosenExtends(chosen: seq<nat>, picks: seq<nat>, since: nat, end: nat)
    requires since <= end
    requires forall i | 0 <= i < |chosen| :: chosen[i] < since
    requires forall i, j | 0 <= i < j < |chosen| :: chosen[i] < chosen[j]
    requires forall i | 0 <= i < |picks| :: since <= picks[i] < end
    requires forall i, j | 0 <= i < j < |picks| :: picks[i] < picks[j]
    ensures var all := chosen + picks;
            (forall i | 0 <= i < |all| :: all[i] < end) &&
            (forall i, j | 0 <= i < j < |all| :: all[i] < all[j])
  {
  }

  lemma NumberExtends(h: History, more: seq<Frame>, out: seq<Frame>, picks: seq<nat>)
    requires SentRight(h)
    requires |picks| == |out|
    requires forall k | 0 <= k < |picks| :: picks[k] < |h.captured + more| && (h.captured + more)[picks[k]] == out[k]
    ensures var sent := h.sent + Number(out, h.state.sequence);
            var chosen := h.chosen + picks;
            |sent| == |chosen| &&
            (h.state.sequence + |out|) % SEQUENCES == |sent| % SEQUENCES &&
            forall i | 0 <= i < |sent| ::
              chosen[i] < |h.captured + more| && sent[i] == Numbered(i % SEQUENCES, (h.captured + more)[chosen[i]])
  {
    var n := |h.sent|;
    var numbered := Number(out, h.state.sequence);
    ModPlus(n, |out|);
    forall k | 0 <= k < |out| ensures numbered[k] == Numbered((n + k) % SEQUENCES, out[k]) {
      ModPlus(n, k);
    }
    hide Number;
  }

  lemma SentExtends(h: History, t: Tick)
    requires KeptRight(h) && SentRight(h) && Sane(t)
    ensures SentRight(Extend(h, t))
  {
    hide KeptRight, SentRight, Sounding, Picks, KeepLast, Number, Extend, Transmits;
    MutedIsOff(h.state, t);
    if Transmits(h.state, t) {
      BurstSent(h, t);
    } else {
      NothingSent(h, t);
    }
  }

  lemma BurstSent(h: History, t: Tick)
    requires KeptRight(h) && SentRight(h) && Sane(t) && Transmits(h.state, t) && !t.muted
    ensures SentRight(Extend(h, t))
  {
    hide Sounding, Picks, KeepLast, Number, Out, Transmits;
    OutIsPicked(h, t);
    var all := h.captured + t.drained;
    var from := FirstOut(h);
    PicksIncrease(all, from);
    PicksSound(all, from);
    ChosenExtends(h.chosen, Picks(all, from), h.since, |all|);
    NumberExtends(h, t.drained, Out(h.state, t), Picks(all, from));
  }

  lemma NothingSent(h: History, t: Tick)
    requires KeptRight(h) && SentRight(h) && Sane(t) && !Transmits(h.state, t)
    ensures SentRight(Extend(h, t))
  {
    hide Sounding, Picks, KeepLast, Number, Transmits;
    var more := if t.muted then [] else t.drained;
    NumberNone(h.state.sequence);
    NumberExtends(h, more, [], []);
    assert h.captured + [] == h.captured && h.chosen + [] == h.chosen && h.sent + [] == h.sent;
  }

  /** The history of a run, right after every tick. */
  ghost function After(ticks: seq<Tick>): (h: History)
    requires Ticks(ticks)
    ensures KeptRight(h)
    decreases ticks
  {
    if ticks == [] then
      NothingYet();
      History(START, [], [], [], 0)
    else
      var h := After(ticks[..|ticks| - 1]);
      KeptExtends(h, ticks[|ticks| - 1]);
      Extend(h, ticks[|ticks| - 1])
  }

  lemma NothingYet()
    ensures KeptRight(History(START, [], [], [], 0)) && SentRight(History(START, [], [], [], 0))
  {
  }

  lemma {:induction false} SentOnRuns(ticks: seq<Tick>)
    requires Ticks(ticks)
    ensures SentRight(After(ticks))
    decreases ticks
  {
    hide SentRight, Extend, KeptRight;
    NothingYet();
    if ticks != [] {
      var before := ticks[..|ticks| - 1];
      SentOnRuns(before);
      SentExtends(After(before), ticks[|ticks| - 1]);
    }
  }

  // ----- The claims -----

  /** On every run the sent frames are an in-order, duplicate-free selection of the captured ones, numbered
      consecutively modulo 2^32, and a transmitting engine keeps nothing back. */
  lemma SentInOrder(ticks: seq<Tick>)
    requires Ticks(ticks)
    ensures var h := After(ticks);
            && |h.sent| == |h.chosen|
            && (forall i | 0 <= i < |h.chosen| :: h.chosen[i] < |h.captured|)
            && (forall i, j | 0 <= i < j < |h.chosen| :: h.chosen[i] < h.chosen[j])
            && (forall i | 0 <= i < |h.sent| :: h.sent[i] == Numbered(i % 0x1_0000_0000, h.captured[h.chosen[i]]))
            && (h.state.transmitting ==> h.state.pre == [])
  {
    SentOnRuns(ticks);
  }

  /** Where a transmitting tick starts to send. */
  function BurstFrom(h: History): int {
    if h.state.transmitting then |h.captured| else Max(h.since, |h.captured| - PRE_SPEECH)
  }

  lemma BurstExtends(h: History, t: Tick, i: nat)
    requires KeptRight(h) && Sane(t) && Transmits(h.state, t)
    ensures var picks := Extend(h, t).chosen[|h.chosen|..];
            i in picks <==> BurstFrom(h) <= i < |h.captured + t.drained| && (h.captured + t.drained)[i] != []
  {
    hide Sounding, Picks, KeepLast, Number, StateAfter;
    var all := h.captured + t.drained;
    PicksMembers(all, FirstOut(h));
    assert (h.chosen + Picks(all, FirstOut(h)))[|h.chosen|..] == Picks(all, FirstOut(h));
  }

  lemma AfterOneMore(ticks: seq<Tick>, t: Tick)
    requires Ticks(ticks) && Sane(t)
    ensures Ticks(ticks + [t]) && KeptRight(After(ticks)) && 0 <= FirstOut(After(ticks))
    ensures After(ticks + [t]) == Extend(After(ticks), t)
  {
    hide SentRight, Extend;
    assert (ticks + [t])[..|ticks|] == ticks;
  }

  /** A burst starts with the last six frames not yet sent nor muted away, or all of them if they are fewer, and
      misses no frame while it lasts. */
  lemma BurstExact(h: History, t: Tick)
    requires KeptRight(h) && Sane(t) && Transmits(h.state, t)
    ensures var h' := Extend(h, t);
            && h'.captured == h.captured + t.drained
            && |h.chosen| <= |h'.chosen| && h'.chosen[..|h.chosen|] == h.chosen
            && forall i: nat :: i in h'.chosen[|h.chosen|..] <==>
                                  BurstFrom(h) <= i < |h'.captured| && h'.captured[i] != []
  {
    hide SentRight, BurstFrom, StateAfter, Picks, Sounding, Number;
    forall i: nat {
      BurstExtends(h, t, i);
    }
  }

  // ----- How long a burst lasts -----

  /** Ticks since the last loud one; None when muting or the talk key came after it, or it never was loud. */
  function QuietFor(ticks: seq<Tick>): Option<nat>
    decreases ticks
  {
    if ticks == [] then None
    else
      var t := ticks[|ticks| - 1];
      if t.muted || t.pushToTalk then None
      else if t.loud then Some(0)
      else
        var before := QuietFor(ticks[..|ticks| - 1]);
        if before.Some? then Some(before.value + 1) else None
  }

  /** Ticks since the talk key was last held; None when muting or voice activation came after it. */
  function ReleasedFor(ticks: seq<Tick>): Option<nat>
    decreases ticks
  {
    if ticks == [] then None
    else
      var t := ticks[|ticks| - 1];
      if t.muted || !t.pushToTalk then None
      else if t.held then Some(0)
      else
        var before := ReleasedFor(ticks[..|ticks| - 1]);
        if before.Some? then Some(before.value + 1) else None
  }

  lemma {:induction false} TimersExact(ticks: seq<Tick>)
    requires Ticks(ticks)
    ensures After(ticks).state.hangover == (if QuietFor(ticks).Some? then Max(0, HANGOVER - QuietFor(ticks).value) else 0)
    ensures After(ticks).state.tail == (if ReleasedFor(ticks).Some? then Max(0, KEY_TAIL - ReleasedFor(ticks).value) else 0)
    decreases ticks
  {
    hide KeptRight, SentRight;
    if ticks != [] {
      TimersExact(ticks[..|ticks| - 1]);
    }
  }

  /** Voice activation goes on for exactly 27 ticks after the last loud one, the talk key for exactly 7 after its
      release, whatever happened before. */
  lemma BurstLastsExactly(ticks: seq<Tick>, t: Tick)
    requires Ticks(ticks) && Sane(t) && !t.muted
    ensures var all := ticks + [t];
            Wants(After(ticks).state, t) <==>
              if t.pushToTalk then ReleasedFor(all).Some? && ReleasedFor(all).value <= 7
              else QuietFor(all).Some? && QuietFor(all).value <= 27
  {
    hide KeptRight, SentRight;
    assert (ticks + [t])[..|ticks|] == ticks;
    TimersExact(ticks);
  }

  /** Voice activation was loud at most 27 ticks ago, or the talk key was held at most 7 ticks ago. */
  predicate TurnedOn(ticks: seq<Tick>) {
    ticks != [] &&
    if ticks[|ticks| - 1].pushToTalk then ReleasedFor(ticks).Some? && ReleasedFor(ticks).value <= 7
    else QuietFor(ticks).Some? && QuietFor(ticks).value <= 27
  }

  /**
   * What is sent, from the ticks alone. With a transport and unmuted, a tick sends exactly while the last loud tick is
   * at most 27 or the last held one at most 7 ticks ago: then every frame with samples it drains, and at the start of
   * a burst the last six before them that were neither sent nor muted away. In every other case it sends nothing.
   */
  lemma SendsExactly(ticks: seq<Tick>, t: Tick)
    requires Ticks(ticks) && Sane(t)
    ensures Ticks(ticks + [t])
    ensures var h := After(ticks);
            var h' := After(ticks + [t]);
            var on := !t.muted && t.transport && TurnedOn(ticks + [t]);
            var from := if h.state.transmitting then |h.captured| else Max(h.since, |h.captured| - 6);
            && h'.captured == (if t.muted then h.captured else h.captured + t.drained)
            && |h.chosen| <= |h'.chosen| && h'.chosen[..|h.chosen|] == h.chosen
            && (forall i: nat :: i in h'.chosen[|h.chosen|..] <==> on && from <= i < |h'.captured| && h'.captured[i] != [])
            && (!on ==> h'.chosen == h.chosen && h'.sent == h.sent)
            && h'.state.transmitting == (on || (!t.muted && !t.capture && h.state.transmitting))
            && h'.since == (if t.muted || on then |h'.captured| else h.since)
  {
    hide *;
    AfterOneMore(ticks, t);
    TransmitsIs(After(ticks).state, t);
    TurnedOnNow(ticks, t);
    if !t.muted {
      BurstLastsExactly(ticks, t);
    }
    if Transmits(After(ticks).state, t) {
      BurstExact(After(ticks), t);
      BurstStart(After(ticks));
    }
    TickExact(After(ticks), t);
  }

  lemma TransmitsIs(s: State, t: Tick)
    ensures Transmits(s, t) <==> !t.muted && t.transport && Wants(s, t)
  {
  }

  lemma TurnedOnNow(ticks: seq<Tick>, t: Tick)
    ensures var all := ticks + [t];
            TurnedOn(all) <==>
              if t.pushToTalk then ReleasedFor(all).Some? && ReleasedFor(all).value <= 7
              else QuietFor(all).Some? && QuietFor(all).value <= 27
  {
    hide QuietFor, ReleasedFor;
  }

  lemma BurstStart(h: History)
    ensures BurstFrom(h) == if h.state.transmitting then |h.captured| else Max(h.since, |h.captured| - 6)
  {
  }

  /** What a tick leaves behind. */
  lemma TickExact(h: History, t: Tick)
    requires KeptRight(h) && 0 <= FirstOut(h) && Sane(t)
    ensures var h' := Extend(h, t);
            && h'.captured == (if t.muted then h.captured else h.captured + t.drained)
            && (t.muted ==> !Transmits(h.state, t))
            && (Transmits(h.state, t) ==> h'.state.transmitting && h'.since == |h'.captured|)
            && (!Transmits(h.state, t) ==>
                  && h'.chosen == h.chosen && h'.sent == h.sent
                  && h'.state.transmitting == (!t.muted && !t.capture && h.state.transmitting)
                  && h'.since == if t.muted then |h'.captured| else h.since)
  {
    NumberNone(h.state.sequence);
    hide Number, Picks, Sounding, KeepLast, HangoverAfter, TailAfter, Wants;
    assert h.chosen + [] == h.chosen && h.sent + [] == h.sent;
    assert !Transmits(h.state, t) ==> Out(h.state, t) == [];
    assert t.muted ==> !Transmits(h.state, t) by {
      MutedIsOff(h.state, t);
    }
  }

  lemma MutedIsOff(s: State, t: Tick)
    ensures t.muted ==> !Transmits(s, t)
  {
  }
}
