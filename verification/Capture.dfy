/**
 * Capture framing: device buffers of any length become frames of exactly 320 samples, in the branch where
 * the device already runs at the wire rate.
 *
 * Each sample passes gain and limiter first; both together are the function `shape`.
 */
module Capture {
  import opened Common

  const FRAME := 320
  const MAX_BUFFERED := 3200
  const MAX_PENDING := 25

  type Frame = seq<int16>

  // ----- Cutting -----

  /** The whole frames at the start of a stream, and the samples left over. */
  function Frames(samples: seq<int16>): (frames: seq<Frame>)
    ensures |frames| == |samples| / FRAME
    ensures forall i | 0 <= i < |frames| :: |frames[i]| == FRAME
    decreases |samples|
  {
    if |samples| < FRAME then [] else [samples[..FRAME]] + Frames(samples[FRAME..])
  }

  function Rest(samples: seq<int16>): (rest: seq<int16>)
    ensures |rest| == |samples| % FRAME
    decreases |samples|
  {
    if |samples| < FRAME then samples else Rest(samples[FRAME..])
  }

  function Flat(frames: seq<Frame>): seq<int16>
    decreases frames
  {
    if frames == [] then [] else frames[0] + Flat(frames[1..])
  }

  /** Cutting loses nothing and invents nothing. */
  lemma {:induction false} CutUndone(samples: seq<int16>)
    ensures Flat(Frames(samples)) + Rest(samples) == samples
    decreases |samples|
  {
    if |samples| >= FRAME {
      CutUndone(samples[FRAME..]);
      assert Frames(samples)[1..] == Frames(samples[FRAME..]);
    }
  }

  /** Where the buffers end does not matter: cutting goes on from what was left over. */
  lemma {:induction false} CutGoesOn(a: seq<int16>, b: seq<int16>)
    ensures Frames(a + b) == Frames(a) + Frames(Rest(a) + b)
    ensures Rest(a + b) == Rest(Rest(a) + b)
    decreases |a|
  {
    if |a| >= FRAME {
      assert (a + b)[..FRAME] == a[..FRAME] && (a + b)[FRAME..] == a[FRAME..] + b;
      CutGoesOn(a[FRAME..], b);
    }
  }

  function Last(frames: seq<Frame>, n: nat): seq<Frame> {
    if |frames| <= n then frames else frames[|frames| - n..]
  }

  function Shaped(samples: seq<int16>, shape: int16 -> int16): seq<int16> {
    seq(|samples|, i requires 0 <= i < |samples| => shape(samples[i]))
  }

  // ----- The device -----

  class Capture {
    var accumulator: seq<int16>
    var pending: seq<Frame>

    constructor ()
      ensures accumulator == [] && pending == []
    {
      accumulator := [];
      pending := [];
    }

    /** enqueueVoiceFrames. The branch that would shorten the accumulator to
        MAX_BUFFERED samples is dead, as its place asserts: less than a frame is left by then. */
    method EnqueueVoiceFrames(samples: seq<int16>, bytesRecorded: nat, shape: int16 -> int16)
      modifies this
      ensures var shaped := Shaped(samples[..Min(|samples|, bytesRecorded / 2)], shape);
              var stream := old(accumulator) + shaped;
              if shaped == [] then accumulator == old(accumulator) && pending == old(pending)
              else accumulator == Rest(stream) && pending == Last(old(pending) + Frames(stream), MAX_PENDING)
    {
      var sampleCount := Min(|samples|, bytesRecorded / 2);
      if sampleCount == 0 {
        return;
      }
      var i := 0;
      while i < sampleCount
        invariant 0 <= i <= sampleCount && pending == old(pending)
        invariant accumulator == old(accumulator) + Shaped(samples[..sampleCount], shape)[..i]
      {
        accumulator := accumulator + [shape(samples[i])];
        i := i + 1;
      }
      ghost var stream := accumulator;
      assert stream == old(accumulator) + Shaped(samples[..sampleCount], shape);
      Cut();
      assert |accumulator| < FRAME < MAX_BUFFERED;
      if |pending| > MAX_PENDING {
        pending := pending[|pending| - MAX_PENDING..];
      }
    }

    method Cut()
      modifies this
      ensures accumulator == Rest(old(accumulator))
      ensures pending == old(pending) + Frames(old(accumulator))
    {
      while |accumulator| >= FRAME
        invariant Rest(accumulator) == Rest(old(accumulator))
        invariant pending + Frames(accumulator) == old(pending) + Frames(old(accumulator))
        decreases |accumulator|
      {
        ghost var before := accumulator;
        pending := pending + [accumulator[..FRAME]];
        accumulator := accumulator[FRAME..];
        assert Frames(before) == [before[..FRAME]] + Frames(accumulator);
      }
    }

    method DrainVoiceFrames() returns (frames: seq<Frame>)
      modifies this`pending
      ensures frames == old(pending) && pending == []
    {
      frames := pending;
      pending := [];
    }
  }

  // ----- Runs -----

  datatype Event = Enqueue(samples: seq<int16>) | Drain

  /** Everything recorded, and everything handed out, next to the device's own fields. */
  datatype History = History(recorded: seq<int16>, accumulator: seq<int16>, pending: seq<Frame>, drained: seq<Frame>)

  function Next(h: History, e: Event): History {
    match e
    case Enqueue(samples) =>
      if samples == [] then h
      else
        History(h.recorded + samples, Rest(h.accumulator + samples),
                Last(h.pending + Frames(h.accumulator + samples), MAX_PENDING), h.drained)
    case Drain => h.(pending := [], drained := h.drained + h.pending)
  }

  function After(events: seq<Event>): History
    decreases events
  {
    if events == [] then History([], [], [], []) else Next(After(events[..|events| - 1]), events[|events| - 1])
  }

  /** The frames of the recording that have been handed out or wait, by their place in it. */
  ghost predicate InPlace(h: History, places: seq<nat>) {
    var all := Frames(h.recorded);
    && |places| == |h.drained| && |h.pending| <= |all|
    && (forall i | 0 <= i < |places| :: places[i] < |all| - |h.pending| && h.drained[i] == all[places[i]])
    && (forall i, j | 0 <= i < j < |places| :: places[i] < places[j])
    && h.pending == all[|all| - |h.pending|..]
  }

  ghost predicate Framed(h: History, places: seq<nat>) {
    InPlace(h, places) && h.accumulator == Rest(h.recorded) && |h.pending| <= MAX_PENDING
  }

  lemma EnqueueFramed(h: History, samples: seq<int16>, places: seq<nat>)
    requires Framed(h, places)
    ensures Framed(Next(h, Enqueue(samples)), places)
  {
    hide Frames, Rest;
    CutGoesOn(h.recorded, samples);
    var all := Frames(h.recorded);
    var more := Frames(h.accumulator + samples);
    assert h.pending + more == (all + more)[|all| - |h.pending|..];
  }

  lemma DrainFramed(h: History, places: seq<nat>) returns (places': seq<nat>)
    requires Framed(h, places)
    ensures Framed(Next(h, Drain), places') && places <= places'
  {
    hide Frames, Rest;
    var all := Frames(h.recorded);
    var first := |all| - |h.pending|;
    var more := seq(|h.pending|, i requires 0 <= i < |h.pending| => first + i);
    places' := places + more;
    forall i | 0 <= i < |places'| ensures places'[i] < |all| && (h.drained + h.pending)[i] == all[places'[i]] {
      if i >= |places| {
        assert places'[i] == first + (i - |places|) && h.pending[i - |places|] == all[first..][i - |places|];
      }
    }
    assert all[|all|..] == [];
  }

  /** On every run the frames handed out are frames of the recording cut every 320 samples, in order and none
      twice; the waiting ones are its last, at most 25; and what is left over is its end. */
  lemma {:induction false} FramesInOrder(events: seq<Event>) returns (places: seq<nat>)
    ensures Framed(After(events), places)
    decreases events
  {
    hide Frames, Rest, Next;
    if events == [] {
      places := [];
      NothingFramed();
    } else {
      var h := After(events[..|events| - 1]);
      places := FramesInOrder(events[..|events| - 1]);
      match events[|events| - 1]
      case Enqueue(samples) => EnqueueFramed(h, samples, places);
      case Drain => places := DrainFramed(h, places);
    }
  }

  lemma NothingFramed()
    ensures Framed(History([], [], [], []), [])
  {
  }

  /** While nothing overflowed, the samples handed out, waiting and left over are the recording itself. */
  lemma NothingMissing(events: seq<Event>, places: seq<nat>)
    requires Framed(After(events), places)
    requires |places| + |After(events).pending| == |Frames(After(events).recorded)|
    ensures var h := After(events);
            Flat(h.drained + h.pending) + h.accumulator == h.recorded
  {
    var h := After(events);
    var all := Frames(h.recorded);
    CutUndone(h.recorded);
    forall i | 0 <= i < |places| ensures places[i] == i {
      AllPlaces(places, i);
    }
    assert h.drained + h.pending == all;
  }

  /** Strictly rising places that leave no gap below their number are the first ones. */
  lemma AllPlaces(places: seq<nat>, i: nat)
    requires i < |places|
    requires forall k | 0 <= k < |places| :: places[k] < |places|
    requires forall k, m | 0 <= k < m < |places| :: places[k] < places[m]
    ensures places[i] == i
  {
    RisesAtLeast(places, 0, i);
    RisesAtLeast(places, i, |places| - 1);
  }

  lemma {:induction false} RisesAtLeast(places: seq<nat>, i: nat, j: nat)
    requires i <= j < |places|
    requires forall k, m | 0 <= k < m < |places| :: places[k] < places[m]
    ensures places[j] >= places[i] + (j - i)
    decreases j - i
  {
    if i < j {
      RisesAtLeast(places, i, j - 1);
      assert places[j - 1] < places[j];
    }
  }

  /** What waits after a buffer: everything that waited and was cut, or the last 25 of it when that is more. */
  lemma WaitingExactly(h: History, samples: seq<int16>)
    requires samples != []
    ensures var all := h.pending + Frames(h.accumulator + samples);
            var next := Next(h, Enqueue(samples));
            && |next.pending| == Min(25, |all|) && next.pending == all[|all| - |next.pending|..]
            && |Frames(h.accumulator + samples)| == (|h.accumulator| + |samples|) / 320
            && |next.accumulator| == (|h.accumulator| + |samples|) % 320
  {
    hide Frames, Rest;
  }
}
