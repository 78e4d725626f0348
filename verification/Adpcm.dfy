/**
 * The IMA ADPCM codec of the voice engine.
 *
 * Encoder and decoder carry the same state, a predictor and a step index.  The methods at the end
 * are the two loops; everything before them is the specification they are proved against and the
 * laws of that specification: what the decoder returns for the encoder's bytes, how far its samples
 * can be from the originals, and how long the quantiser can stay overloaded.
 */
module Adpcm {
  import opened Common

  const MAGIC: seq<byte> := [0x54, 0x56, 0x41, 0x31]  // "TVA1"

  type StepSize = s: int | 7 <= s <= 32767 witness 7

  /** The laws below hold for whatever table both ends share, except where they name STEP_TABLE. */
  type StepTable = t: seq<int> | |t| == 89 && forall i | 0 <= i < 89 :: 7 <= t[i] <= 32767
    witness seq(89, _ => 7)

  const STEP_ROWS: seq<seq<StepSize>> := [
    [7, 8, 9, 10, 11, 12, 13, 14, 16, 17],
    [19, 21, 23, 25, 28, 31, 34, 37, 41, 45],
    [50, 55, 60, 66, 73, 80, 88, 97, 107, 118],
    [130, 143, 157, 173, 190, 209, 230, 253, 279, 307],
    [337, 371, 408, 449, 494, 544, 598, 658, 724, 796],
    [876, 963, 1060, 1166, 1282, 1411, 1552, 1707, 1878, 2066],
    [2272, 2499, 2749, 3024, 3327, 3660, 4026, 4428, 4871, 5358],
    [5894, 6484, 7132, 7845, 8630, 9493, 10442, 11487, 12635, 13899],
    [15289, 16818, 18500, 20350, 22385, 24623, 27086, 29794, 32767]]

  /** The source's table, laid out there in the same rows of ten. */
  const STEP_TABLE: StepTable := seq(89, i requires 0 <= i < 89 => STEP_ROWS[i / 10][i % 10])

  lemma StepTableIsImaShaped()
    ensures ImaShaped(STEP_TABLE) && STEP_TABLE[0] == 7 && STEP_TABLE[88] == 32767
  {
    forall k | 0 <= k < 10
      ensures 2 * STEP_TABLE[8 * k] < STEP_TABLE[8 * k + 8]
    {
      match k
      case 0 =>
      case 1 =>
      case 2 =>
      case 3 =>
      case 4 =>
      case 5 =>
      case 6 =>
      case 7 =>
      case 8 =>
      case 9 =>
    }
  }

  type StepIndex = i: int | 0 <= i <= 88
  type Nibble = n: int | 0 <= n < 16

  datatype Coder = Coder(predictor: int16, index: StepIndex)

  // ----- One sample -----

  /** The magnitude a code stands for; `/ 2`, `/ 4` and `/ 8` are the source's right shifts. */
  function Delta(step: int, code: Nibble): int {
    step / 8 + (if code / 4 % 2 == 1 then step else 0)
    + (if code / 2 % 2 == 1 then step / 2 else 0)
    + (if code % 2 == 1 then step / 4 else 0)
  }

  /** The sixteen-entry index table: -1 for the four small magnitudes, then 2, 4, 6 and 8. */
  function IndexChange(code: Nibble): int {
    if code % 8 < 4 then -1 else 2 * (code % 8) - 6
  }

  /** The state change both ends make for a code. */
  function Advance(t: StepTable, c: Coder, code: Nibble): Coder {
    var delta := Delta(t[c.index], code);
    Coder(
      Clamp(c.predictor + (if code >= 8 then -delta else delta), -32768, 32767),
      Clamp(c.index + IndexChange(code), 0, 88))
  }

  /** The three-bit successive approximation of a magnitude, by the same shifts. */
  function Quantise(step: int, magnitude: nat): (code: Nibble)
    requires step > 0
    ensures code < 8
  {
    var b2 := magnitude >= step;
    var r2 := if b2 then magnitude - step else magnitude;
    var b1 := r2 >= step / 2;
    var r1 := if b1 then r2 - step / 2 else r2;
    var b0 := r1 >= step / 4;
    (if b2 then 4 else 0) + (if b1 then 2 else 0) + (if b0 then 1 else 0)
  }

  function CodeFor(t: StepTable, c: Coder, sample: int16): Nibble {
    var diff := sample - c.predictor;
    (if diff < 0 then 8 else 0) + Quantise(t[c.index], Abs(diff))
  }

  function Track(t: StepTable, c: Coder, sample: int16): Coder {
    Advance(t, c, CodeFor(t, c, sample))
  }

  /** The quantiser cannot express the difference: it is at least twice the step. */
  predicate Overloaded(t: StepTable, c: Coder, sample: int16) {
    Distance(sample, c.predictor) >= 2 * t[c.index]
  }

  lemma QuantiseError(step: int, magnitude: nat)
    requires step > 0 && magnitude < 2 * step
    ensures -(step / 8) <= magnitude - Delta(step, Quantise(step, magnitude)) <= step / 8 + 2
    ensures Delta(step, Quantise(step, magnitude) + 8) == Delta(step, Quantise(step, magnitude))
  {
  }

  lemma QuantiseSaturates(step: int, magnitude: nat)
    requires step >= 7 && magnitude >= 2 * step
    ensures Quantise(step, magnitude) == 7
    ensures Delta(step, 7) == Delta(step, 15) == step / 8 + step + step / 2 + step / 4
  {
  }

  /** In range, one step lands within an eighth of the step (plus two) of the sample. */
  lemma TrackingBound(t: StepTable, c: Coder, sample: int16)
    requires !Overloaded(t, c, sample)
    ensures Distance(sample, Track(t, c, sample).predictor) <= t[c.index] / 8 + 2
  {
    QuantiseError(t[c.index], Distance(sample, c.predictor));
  }

  /** Overloaded, one step moves towards the sample without overshoot and opens the quantiser. */
  lemma OverloadRecovery(t: StepTable, c: Coder, sample: int16)
    requires Overloaded(t, c, sample)
    ensures var c' := Track(t, c, sample);
            && (c.predictor < sample ==> c.predictor < c'.predictor < sample)
            && (sample < c.predictor ==> sample < c'.predictor < c.predictor)
            && Distance(sample, c'.predictor) + 11 <= Distance(sample, c.predictor)
            && c'.index == Min(c.index + 8, 88)
  {
    QuantiseSaturates(t[c.index], Distance(sample, c.predictor));
  }

  // ----- Runs of samples -----

  function After(t: StepTable, c: Coder, samples: seq<int16>): Coder
    decreases samples
  {
    if samples == [] then c else After(t, Track(t, c, samples[0]), samples[1..])
  }

  /** Every sample of the run meets an overloaded quantiser. */
  predicate AllOverloaded(t: StepTable, c: Coder, samples: seq<int16>)
    decreases samples
  {
    samples == [] || (Overloaded(t, c, samples[0]) && AllOverloaded(t, Track(t, c, samples[0]), samples[1..]))
  }

  /** What bounds an overload: the nine largest steps, and a table that doubles every eight entries. */
  ghost predicate ImaShaped(t: StepTable) {
    && (forall i | 80 <= i < 89 :: 15289 <= t[i])
    && t[80] < 16384
    && (forall k | 0 <= k < 10 :: 2 * t[8 * k] < t[8 * k + 8])
  }

  /** From index 80 on, an overloaded step stops so far from both ends of the range that the next
      sample, whatever it is, is within reach of the largest step. */
  lemma LastOverload(t: StepTable, c: Coder, sample: int16, next: int16)
    requires ImaShaped(t) && t[88] == 32767
    requires Overloaded(t, c, sample) && c.index >= 80
    ensures !Overloaded(t, Track(t, c, sample), next)
  {
    OverloadRecovery(t, c, sample);
    QuantiseSaturates(t[c.index], Distance(sample, c.predictor));
  }

  lemma {:induction false} OverloadBudget(t: StepTable, c: Coder, samples: seq<int16>)
    requires ImaShaped(t) && t[88] == 32767
    requires AllOverloaded(t, c, samples)
    ensures |samples| <= if c.index >= 80 then 1 else 1 + (87 - c.index) / 8
    decreases samples
  {
    if |samples| >= 2 {
      if c.index >= 80 {
        LastOverload(t, c, samples[0], samples[1]);
      } else {
        OverloadRecovery(t, c, samples[0]);
        OverloadBudget(t, Track(t, c, samples[0]), samples[1..]);
      }
    }
  }

  /** Slope overload lasts at most 11 consecutive samples, in whatever state it starts. */
  lemma SlopeOverloadEnds(c: Coder, samples: seq<int16>)
    requires AllOverloaded(STEP_TABLE, c, samples)
    ensures |samples| <= 11
  {
    StepTableIsImaShaped();
    OverloadBudget(STEP_TABLE, c, samples);
  }

  lemma {:induction false} Climb(t: StepTable, k: nat, predictor: int16, jump: seq<int16>)
    requires ImaShaped(t) && k + |jump| == 11
    requires predictor <= 2 * t[8 * k] - 32768
    requires forall i | 0 <= i < |jump| :: jump[i] == 32767
    ensures AllOverloaded(t, Coder(predictor, 8 * k), jump)
    decreases jump
  {
    if jump != [] {
      var c := Coder(predictor, 8 * k);
      StepsBelow(t, k);
      OverloadRecovery(t, c, jump[0]);
      if |jump| > 1 {
        QuantiseSaturates(t[c.index], Distance(jump[0], c.predictor));
        Climb(t, k + 1, Track(t, c, jump[0]).predictor, jump[1..]);
      }
    }
  }

  lemma {:induction false} StepsBelow(t: StepTable, k: nat)
    requires ImaShaped(t) && k <= 10
    ensures t[8 * k] < 16384
    decreases 10 - k
  {
    if k < 10 {
      StepsBelow(t, k + 1);
    }
  }

  /** ... and 11 is reached: from the bottom of the range to its top, at the smallest step. */
  lemma SlopeOverloadReachesEleven()
    ensures exists jump: seq<int16> :: |jump| == 11 && AllOverloaded(STEP_TABLE, Coder(-32768, 0), jump)
  {
    var jump: seq<int16> := seq(11, _ => 32767);
    StepTableIsImaShaped();
    Climb(STEP_TABLE, 0, -32768, jump);
  }

  // ----- Adaptation -----

  /** What the three bits of a magnitude weigh, by the source's shifts. */
  function Weight(step: int, code: nat): int {
    (if code / 4 % 2 == 1 then step else 0) + (if code / 2 % 2 == 1 then step / 2 else 0) + (if code % 2 == 1 then step / 4 else 0)
  }

  lemma Weights(step: int)
    requires step > 0
    ensures Weight(step, 0) == 0 && Weight(step, 1) == step / 4 && Weight(step, 2) == step / 2
    ensures Weight(step, 3) == step / 2 + step / 4 && Weight(step, 4) == step && Weight(step, 5) == step + step / 4
    ensures Weight(step, 6) == step + step / 2 && Weight(step, 7) == step + step / 2 + step / 4
  {
  }

  lemma QuantiseIsLargest(step: int, magnitude: nat, m: nat)
    requires step >= 7 && m < 8
    ensures m <= Quantise(step, magnitude) <==> Weight(step, m) <= magnitude
  {
    Weights(step);
    hide Weight;
    match m
    case 0 =>
    case 1 =>
    case 2 =>
    case 3 =>
    case 4 =>
    case 5 =>
    case 6 =>
    case 7 =>
  }

  /** A code is the sign of the difference and the largest magnitude that does not weigh more than it. */
  lemma CodeIsLargest(t: StepTable, c: Coder, sample: int16)
    ensures var code := CodeFor(t, c, sample);
            && (code >= 8 <==> sample < c.predictor)
            && forall m: nat | m < 8 :: m <= code % 8 <==> Weight(t[c.index], m) <= Distance(sample, c.predictor)
  {
    hide Quantise, Weight;
    forall m: nat | m < 8
      ensures m <= CodeFor(t, c, sample) % 8 <==> Weight(t[c.index], m) <= Distance(sample, c.predictor)
    {
      QuantiseIsLargest(t[c.index], Distance(sample, c.predictor), m);
    }
  }

  /** Nearer than the step, the step goes down one entry; otherwise up by 2, 4, 6 or 8, by the quarter of the step that
      the rest of the difference fills. */
  lemma StepAdapts(t: StepTable, c: Coder, sample: int16)
    ensures var step := t[c.index];
            var d := Distance(sample, c.predictor);
            Track(t, c, sample).index ==
              if d < step then Max(0, c.index - 1)
              else Min(88, c.index + if d < step + step / 4 then 2
                                     else if d < step + step / 2 then 4
                                     else if d < step + step / 2 + step / 4 then 6 else 8)
  {
  }

  /** Each sample of the run is nearer to the predictor than the step. */
  predicate AllNear(t: StepTable, c: Coder, samples: seq<int16>)
    decreases samples
  {
    samples == [] || (Distance(samples[0], c.predictor) < t[c.index] && AllNear(t, Track(t, c, samples[0]), samples[1..]))
  }

  /** As long as samples are near, each lowers the index by one, down to 0. */
  lemma {:induction false} NearLowersStep(t: StepTable, c: Coder, samples: seq<int16>)
    requires AllNear(t, c, samples)
    ensures After(t, c, samples).index == Max(0, c.index - |samples|)
    decreases samples
  {
    hide Track;
    if samples != [] {
      StepAdapts(t, c, samples[0]);
      NearLowersStep(t, Track(t, c, samples[0]), samples[1..]);
    }
  }

  /** Steps that never shrink, and at most double, from one entry to the next. */
  ghost predicate Gentle(t: StepTable) {
    forall i | 0 <= i < 88 :: Next(t[i], t[i + 1])
  }

  /** Two entries that follow one another. */
  predicate Next(a: int, b: int) {
    a <= b <= 2 * a
  }

  lemma LowRows(r: nat)
    requires r < 5
    ensures |STEP_ROWS[r]| == 10 && forall k | 0 <= k < 9 :: Next(STEP_ROWS[r][k], STEP_ROWS[r][k + 1])
    ensures Next(STEP_ROWS[r][9], STEP_ROWS[r + 1][0])
  {
  }

  lemma HighRows(r: nat)
    requires 5 <= r < 9
    ensures |STEP_ROWS[r]| == if r < 8 then 10 else 9
    ensures forall k | 0 <= k < |STEP_ROWS[r]| - 1 :: Next(STEP_ROWS[r][k], STEP_ROWS[r][k + 1])
    ensures r < 8 ==> Next(STEP_ROWS[r][9], STEP_ROWS[r + 1][0])
  {
  }

  lemma EntriesFollow(rows: seq<seq<int>>, k: nat)
    requires |rows| == 9 && k < 88 && forall r | 0 <= r < 9 :: |rows[r]| == if r < 8 then 10 else 9
    requires forall r, i | 0 <= r < 9 && 0 <= i < |rows[r]| - 1 :: Next(rows[r][i], rows[r][i + 1])
    requires forall r | 0 <= r < 8 :: Next(rows[r][9], rows[r + 1][0])
    ensures Next(rows[k / 10][k % 10], rows[(k + 1) / 10][(k + 1) % 10])
  {
    if k % 10 == 9 {
      assert (k + 1) / 10 == k / 10 + 1 && (k + 1) % 10 == 0;
    } else {
      assert (k + 1) / 10 == k / 10 && (k + 1) % 10 == k % 10 + 1;
    }
  }

  lemma StepTableIsGentle()
    ensures Gentle(STEP_TABLE)
  {
    var rows: seq<seq<int>> := STEP_ROWS;
    forall r | 0 <= r < 9
      ensures |rows[r]| == (if r < 8 then 10 else 9)
      ensures forall i | 0 <= i < |rows[r]| - 1 :: Next(rows[r][i], rows[r][i + 1])
      ensures r < 8 ==> Next(rows[r][9], rows[r + 1][0])
    {
      if r < 5 {
        LowRows(r);
      } else {
        HighRows(r);
      }
    }
    forall k | 0 <= k < 88 ensures Next(STEP_TABLE[k], STEP_TABLE[k + 1]) {
      EntriesFollow(rows, k);
    }
  }

  lemma {:induction false} Grows(t: StepTable, i: nat, j: nat)
    requires Gentle(t) && i <= j < 89
    ensures t[i] <= t[j]
    decreases j
  {
    if i < j {
      Grows(t, i, j - 1);
    }
  }

  /** A constant signal. */
  function Held(x: int16, n: nat): (samples: seq<int16>)
    ensures |samples| == n
  {
    if n == 0 then [] else [x] + Held(x, n - 1)
  }

  lemma {:induction false} HeldOn(t: StepTable, c: Coder, x: int16, n: nat, k: nat)
    ensures After(t, c, Held(x, n + k)) == After(t, After(t, c, Held(x, n)), Held(x, k))
    decreases n
  {
    hide Track;
    if n > 0 {
      assert Held(x, n + k)[1..] == Held(x, n + k - 1) && Held(x, n)[1..] == Held(x, n - 1);
      HeldOn(t, Track(t, c, x), x, n - 1, k);
    }
  }

  /** Once the quantiser reaches a constant signal, it stays near. */
  lemma StaysNear(t: StepTable, c: Coder, x: int16)
    requires Gentle(t) && !Overloaded(t, c, x)
    ensures var c' := Track(t, c, x);
            Distance(x, c'.predictor) <= t[c.index] / 8 + 2 && Distance(x, c'.predictor) < t[c'.index]
  {
    TrackingBound(t, c, x);
    StepAdapts(t, c, x);
    hide Track;
    var i := Track(t, c, x).index;
    if i >= c.index {
      Grows(t, c.index, i);
    } else {
      assert Next(t[i], t[i + 1]);
    }
  }

  lemma {:induction false} HeldIsNear(t: StepTable, c: Coder, x: int16, n: nat)
    requires Gentle(t) && Distance(x, c.predictor) < t[c.index]
    ensures AllNear(t, c, Held(x, n))
    ensures n > c.index ==> Distance(x, After(t, c, Held(x, n)).predictor) <= t[0] / 8 + 2
    decreases n
  {
    hide Track, Distance;
    if n > 0 {
      assert Held(x, n)[1..] == Held(x, n - 1);
      StepAdapts(t, c, x);
      StaysNear(t, c, x);
      HeldIsNear(t, Track(t, c, x), x, n - 1);
    }
  }

  /** How many samples of a constant signal the quantiser needs to reach it. */
  lemma {:induction false} Reaches(t: StepTable, c: Coder, x: int16) returns (k: nat)
    ensures AllOverloaded(t, c, Held(x, k)) && !Overloaded(t, After(t, c, Held(x, k)), x)
    decreases Distance(x, c.predictor)
  {
    hide Track;
    if Overloaded(t, c, x) {
      OverloadRecovery(t, c, x);
      var rest := Reaches(t, Track(t, c, x), x);
      k := rest + 1;
      assert Held(x, k)[1..] == Held(x, rest);
    } else {
      k := 0;
    }
  }

  /**
   * A constant signal is found and the quantiser fine again: from any coder state, after 101 equal samples the step is
   * the smallest, 7, and the predictor within 2 of the signal.
   */
  lemma ConstantSettles(c: Coder, x: int16, n: nat)
    requires n >= 101
    ensures var c' := After(STEP_TABLE, c, Held(x, n));
            c'.index == 0 && STEP_TABLE[c'.index] == 7 && Distance(x, c'.predictor) <= 2
  {
    StepTableIsGentle();
    StepTableIsImaShaped();
    hide STEP_TABLE, Track, ImaShaped, Gentle, Distance, Overloaded;
    var k := Reaches(STEP_TABLE, c, x);
    SlopeOverloadEnds(c, Held(x, k));
    HeldOn(STEP_TABLE, c, x, k, n - k);
    var reached := After(STEP_TABLE, c, Held(x, k));
    StaysNear(STEP_TABLE, reached, x);
    var near := Track(STEP_TABLE, reached, x);
    assert Held(x, n - k)[1..] == Held(x, n - k - 1);
    HeldIsNear(STEP_TABLE, near, x, n - k - 1);
    NearLowersStep(STEP_TABLE, near, Held(x, n - k - 1));
  }

  // ----- The byte stream -----

  function Codes(t: StepTable, c: Coder, samples: seq<int16>): (codes: seq<Nibble>)
    ensures |codes| == |samples|
    decreases samples
  {
    if samples == [] then []
    else [CodeFor(t, c, samples[0])] + Codes(t, Track(t, c, samples[0]), samples[1..])
  }

  /** The encoder's own predictor after each sample. */
  function Predictors(t: StepTable, c: Coder, samples: seq<int16>): (ps: seq<int16>)
    ensures |ps| == |samples|
    decreases samples
  {
    if samples == [] then []
    else [Track(t, c, samples[0]).predictor] + Predictors(t, Track(t, c, samples[0]), samples[1..])
  }

  function Decoded(t: StepTable, c: Coder, codes: seq<Nibble>): (out: seq<int16>)
    ensures |out| == |codes|
    decreases codes
  {
    if codes == [] then []
    else [Advance(t, c, codes[0]).predictor] + Decoded(t, Advance(t, c, codes[0]), codes[1..])
  }

  function Joined(low: Nibble, high: Nibble): byte { low + 16 * high }

  /** The low nibble comes first. */
  function CodeAt(byte: byte, half: nat): Nibble {
    if half == 0 then byte % 16 else byte / 16
  }

  /** Two codes a byte, low nibble first; an odd last code sits alone in its byte. */
  function Pack(codes: seq<Nibble>): (bytes: seq<byte>)
    ensures |bytes| == (|codes| + 1) / 2
  {
    if codes == [] then []
    else if |codes| == 1 then [codes[0]]
    else [Joined(codes[0], codes[1])] + Pack(codes[2..])
  }

  /** The first `n` codes of a byte string, or all of them when there are fewer. */
  function Unpack(bytes: seq<byte>, n: nat): seq<Nibble> {
    if n == 0 || bytes == [] then []
    else if n == 1 then [CodeAt(bytes[0], 0)]
    else [CodeAt(bytes[0], 0), CodeAt(bytes[0], 1)] + Unpack(bytes[1..], n - 2)
  }

  lemma JoinedIs(low: Nibble, high: Nibble)
    ensures Joined(low, high) as int == low as int + 16 * (high as int)
  {
  }

  /** Byte i holds code 2i in its low half and the next one, if there is one, in its high half. */
  lemma {:induction false} PackedAt(codes: seq<Nibble>, i: nat)
    requires i < |Pack(codes)|
    ensures 2 * i < |codes|
    ensures Pack(codes)[i] as int == codes[2 * i] as int + if 2 * i + 1 < |codes| then 16 * (codes[2 * i + 1] as int) else 0
    decreases i
  {
    hide Joined;
    if i > 0 {
      PackedAt(codes[2..], i - 1);
      assert Pack(codes)[i] == Pack(codes[2..])[i - 1];
    } else if |codes| >= 2 {
      JoinedIs(codes[0], codes[1]);
    }
  }

  lemma {:induction false} UnpackPack(codes: seq<Nibble>, tail: seq<byte>)
    ensures Unpack(Pack(codes) + tail, |codes|) == codes
  {
    if |codes| == 1 {
      assert (Pack(codes) + tail)[0] == codes[0];
    } else if |codes| >= 2 {
      var rest := Pack(codes[2..]);
      assert Pack(codes) + tail == [Joined(codes[0], codes[1])] + (rest + tail);
      UnpackPack(codes[2..], tail);
    }
  }

  lemma {:induction false} Lockstep(t: StepTable, c: Coder, samples: seq<int16>)
    ensures Decoded(t, c, Codes(t, c, samples)) == Predictors(t, c, samples)
    decreases samples
  {
    if samples != [] {
      var rest := Codes(t, Track(t, c, samples[0]), samples[1..]);
      assert Codes(t, c, samples)[1..] == rest;
      Lockstep(t, Track(t, c, samples[0]), samples[1..]);
    }
  }

  /** Nine bytes: the magic, the first sample, a zero step index, the sample count. */
  function Header(first: int16, count: uint16): (header: seq<byte>)
    ensures |header| == 9
  {
    var bits := ToUnsigned16(first);
    MAGIC + [LowByte(bits), HighByte(bits), 0, LowByte(count), HighByte(count)]
  }

  /** The payload of a normalised sample vector; empty when there is nothing to encode or the count
      does not fit its field. */
  function Payload(t: StepTable, samples: seq<int16>): (payload: seq<byte>)
    ensures 1 <= |samples| <= 0xffff ==> |payload| == 9 + |samples| / 2
  {
    if |samples| == 0 || |samples| > 0xffff then []
    else Header(samples[0], |samples|) + Pack(Codes(t, Coder(samples[0], 0), samples[1..]))
  }

  /** "TVA1", the first sample, the index 0, the count, two bytes each low byte first, and then the packed codes. */
  lemma PayloadLayout(t: StepTable, samples: seq<int16>)
    requires 1 <= |samples| <= 65535
    ensures var payload := Payload(t, samples);
            && |payload| == 9 + |samples| / 2 && payload[..4] == [0x54, 0x56, 0x41, 0x31] && payload[6] == 0
            && payload[4] as int + 256 * payload[5] as int == samples[0] as int + (if samples[0] < 0 then 65536 else 0)
            && payload[7] as int + 256 * payload[8] as int == |samples|
            && payload[9..] == Pack(Codes(t, Coder(samples[0], 0), samples[1..]))
  {
    hide Pack, Codes;
  }

  function Samples(t: StepTable, payload: seq<byte>): (r: Option<seq<int16>>) {
    if |payload| < 9 || payload[..4] != MAGIC then None
    else
      var predictor := ToSigned16(FromLe16(payload[4], payload[5]));
      var count := FromLe16(payload[7], payload[8]);
      if count == 0 then None
      else
        var out := [predictor]
                   + Decoded(t, Coder(predictor, Clamp(payload[6], 0, 88)), Unpack(payload[9..], count - 1));
        if |out| == count then Some(out) else None
  }

  /** What a listener hears: the first sample exactly, then the encoder's own predictor after every
      further sample. */
  function Reconstruction(t: StepTable, samples: seq<int16>): (out: seq<int16>)
    requires samples != []
    ensures |out| == |samples|
  {
    [samples[0]] + Predictors(t, Coder(samples[0], 0), samples[1..])
  }

  /** What the decoder makes of a header and the codes behind it. */
  lemma SamplesBehindHeader(t: StepTable, payload: seq<byte>, first: int16, codes: seq<Nibble>)
    requires |payload| >= 9 && payload[..4] == MAGIC && payload[6] == 0 && |codes| < 0xffff
    requires ToSigned16(FromLe16(payload[4], payload[5])) == first
    requires FromLe16(payload[7], payload[8]) == |codes| + 1
    requires Unpack(payload[9..], |codes|) == codes
    ensures Samples(t, payload) == Some([first] + Decoded(t, Coder(first, 0), codes))
  {
    hide Decoded, Unpack, ToSigned16, FromLe16;
    assert Clamp(payload[6], 0, 88) == 0;
  }

  /** The decoder accepts the encoder's bytes and returns that, for odd and even counts alike. */
  lemma DecodeEncode(t: StepTable, samples: seq<int16>)
    requires 1 <= |samples| <= 0xffff
    ensures Samples(t, Payload(t, samples)) == Some(Reconstruction(t, samples))
  {
    hide Samples, Codes, Pack, Unpack, Decoded, Predictors, Header, ToSigned16, FromLe16;
    var start := Coder(samples[0], 0);
    var codes := Codes(t, start, samples[1..]);
    HeaderFields(samples[0], |samples|, Pack(codes));
    assert Pack(codes) == Pack(codes) + [];
    UnpackPack(codes, []);
    Lockstep(t, start, samples[1..]);
    SamplesBehindHeader(t, Payload(t, samples), samples[0], codes);
  }

  lemma HeaderFields(first: int16, count: uint16, body: seq<byte>)
    ensures var payload := Header(first, count) + body;
            && payload[..4] == MAGIC
            && ToSigned16(FromLe16(payload[4], payload[5])) == first
            && payload[6] == 0
            && FromLe16(payload[7], payload[8]) == count
            && payload[9..] == body
  {
    var payload := Header(first, count) + body;
    assert payload[..4] == MAGIC;
    assert payload[4] == LowByte(ToUnsigned16(first)) && payload[5] == HighByte(ToUnsigned16(first));
    assert payload[7] == LowByte(count) && payload[8] == HighByte(count);
  }

  lemma {:induction false} PredictorAt(t: StepTable, c: Coder, samples: seq<int16>, i: nat)
    requires i < |samples|
    ensures Predictors(t, c, samples)[i] == Track(t, After(t, c, samples[..i]), samples[i]).predictor
    decreases samples
  {
    if i > 0 {
      assert samples[1..][..i - 1] == samples[..i][1..];
      PredictorAt(t, Track(t, c, samples[0]), samples[1..], i - 1);
    }
  }

  /** The state in which both ends meet sample `i` of a payload. */
  function Before(t: StepTable, samples: seq<int16>, i: nat): Coder
    requires 1 <= i <= |samples|
  {
    After(t, Coder(samples[0], 0), samples[1..i])
  }

  /** Every decoded sample is within an eighth of its step (plus two) of the original, unless the
      quantiser was overloaded there. */
  lemma DecodedNearOriginal(t: StepTable, samples: seq<int16>, i: nat)
    requires 1 <= i < |samples|
    ensures Reconstruction(t, samples)[i] == Track(t, Before(t, samples, i), samples[i]).predictor
    ensures Overloaded(t, Before(t, samples, i), samples[i])
         || Distance(samples[i], Reconstruction(t, samples)[i]) <= t[Before(t, samples, i).index] / 8 + 2
  {
    assert samples[1..][..i - 1] == samples[1..i];
    PredictorAt(t, Coder(samples[0], 0), samples[1..], i - 1);
    if !Overloaded(t, Before(t, samples, i), samples[i]) {
      TrackingBound(t, Before(t, samples, i), samples[i]);
    }
  }

  lemma {:induction false} AfterAppend(t: StepTable, c: Coder, samples: seq<int16>, sample: int16)
    ensures After(t, c, samples + [sample]) == Track(t, After(t, c, samples), sample)
    decreases samples
  {
    if samples == [] {
      assert samples + [sample] == [sample];
    } else {
      assert (samples + [sample])[1..] == samples[1..] + [sample];
      AfterAppend(t, Track(t, c, samples[0]), samples[1..], sample);
    }
  }

  lemma OverloadedCons(t: StepTable, c: Coder, sample: int16, rest: seq<int16>)
    requires Overloaded(t, c, sample) && AllOverloaded(t, Track(t, c, sample), rest)
    ensures AllOverloaded(t, c, [sample] + rest)
  {
    assert ([sample] + rest)[1..] == rest;
  }

  lemma BeforeNext(t: StepTable, samples: seq<int16>, i: nat)
    requires 1 <= i < |samples|
    ensures Before(t, samples, i + 1) == Track(t, Before(t, samples, i), samples[i])
  {
    assert samples[1..i] + [samples[i]] == samples[1..i + 1];
    AfterAppend(t, Coder(samples[0], 0), samples[1..i], samples[i]);
  }

  lemma {:induction false} OverloadedRun(t: StepTable, samples: seq<int16>, i: nat, n: nat)
    requires 1 <= i && i + n <= |samples|
    requires forall j | i <= j < i + n :: Overloaded(t, Before(t, samples, j), samples[j])
    ensures AllOverloaded(t, Before(t, samples, i), samples[i..i + n])
    decreases n
  {
    hide Track, Before;
    if n > 0 {
      BeforeNext(t, samples, i);
      OverloadedRun(t, samples, i + 1, n - 1);
      assert samples[i..i + n] == [samples[i]] + samples[i + 1..i + n];
      OverloadedCons(t, Before(t, samples, i), samples[i], samples[i + 1..i + n]);
    }
  }

  lemma CloseWhereNotOverloaded(t: StepTable, samples: seq<int16>, j: nat)
    requires 1 <= j < |samples| && !Overloaded(t, Before(t, samples, j), samples[j])
    ensures Distance(samples[j], Reconstruction(t, samples)[j]) <= 4097
  {
    hide Reconstruction, Before, Overloaded, Distance;
    DecodedNearOriginal(t, samples, j);
  }

  /** So no stretch of twelve decoded samples is without one that is close to its original. */
  lemma CloseWithinTwelve(samples: seq<int16>, i: nat)
    requires 1 <= i && i + 12 <= |samples|
    ensures exists j :: i <= j < i + 12
                     && Distance(samples[j], Reconstruction(STEP_TABLE, samples)[j]) <= 4097
  {
    hide Reconstruction, Before, Overloaded, Distance, AllOverloaded;
    if forall j | i <= j < i + 12 :: Overloaded(STEP_TABLE, Before(STEP_TABLE, samples, j), samples[j]) {
      OverloadedRun(STEP_TABLE, samples, i, 12);
      SlopeOverloadEnds(Before(STEP_TABLE, samples, i), samples[i..i + 12]);
    } else {
      var j :| i <= j < i + 12 && !Overloaded(STEP_TABLE, Before(STEP_TABLE, samples, j), samples[j]);
      CloseWhereNotOverloaded(STEP_TABLE, samples, j);
    }
  }

  // ----- The two loops -----

  /** The body both loops end with: the predictor and index after a code. */
  method ApplyCode(t: StepTable, c: Coder, code: Nibble) returns (c': Coder)
    ensures c' == Advance(t, c, code)
  {
    var step := t[c.index];
    var delta := step / 8;
    if code / 4 % 2 == 1 {
      delta := delta + step;
    }
    if code / 2 % 2 == 1 {
      delta := delta + step / 2;
    }
    if code % 2 == 1 {
      delta := delta + step / 4;
    }
    var predictor: int := c.predictor + (if code >= 8 then -delta else delta);
    c' := Coder(Clamp(predictor, -32768, 32767), Clamp(c.index + IndexChange(code), 0, 88));
  }

  /** The start of the encoder's body: the code for one sample. */
  method ChooseCode(t: StepTable, c: Coder, sample: int16) returns (code: Nibble)
    ensures code == CodeFor(t, c, sample)
  {
    var diff: int := sample as int - c.predictor;
    code := 0;
    if diff < 0 {
      code := 8;
      diff := -diff;
    }
    var tempStep := t[c.index];
    if diff >= tempStep {
      code := code + 4;
      diff := diff - tempStep;
    }
    tempStep := tempStep / 2;
    if diff >= tempStep {
      code := code + 2;
      diff := diff - tempStep;
    }
    tempStep := tempStep / 2;
    if diff >= tempStep {
      code := code + 1;
    }
  }

  /** What the encoder still has to write: a half-filled byte and the samples ahead. */
  ghost function Unwritten(t: StepTable, c: Coder, pending: seq<Nibble>, samples: seq<int16>): seq<byte> {
    Pack(pending + Codes(t, c, samples))
  }

  lemma UnwrittenStep(t: StepTable, c: Coder, packed: Nibble, samples: seq<int16>)
    requires samples != []
    ensures var code := CodeFor(t, c, samples[0]);
            var c' := Advance(t, c, code);
            && Unwritten(t, c, [], samples) == Unwritten(t, c', [code], samples[1..])
            && Unwritten(t, c, [packed], samples)
               == [Joined(packed, code)] + Unwritten(t, c', [], samples[1..])
  {
    var code := CodeFor(t, c, samples[0]);
    var rest := Codes(t, Track(t, c, samples[0]), samples[1..]);
    assert [] + ([code] + rest) == [code] + rest;
    assert [] + rest == rest;
    assert ([packed] + ([code] + rest))[2..] == rest;
  }

  lemma UnwrittenAtStart(t: StepTable, samples: seq<int16>)
    requires 1 <= |samples| <= 0xffff
    ensures Payload(t, samples)
         == Header(samples[0], |samples|) + Unwritten(t, Coder(samples[0], 0), [], samples[1..])
  {
    var codes := Codes(t, Coder(samples[0], 0), samples[1..]);
    assert [] + codes == codes;
  }

  lemma UnwrittenAtEnd(t: StepTable, c: Coder, pending: seq<Nibble>)
    requires |pending| <= 1
    ensures Unwritten(t, c, pending, []) == pending
  {
    assert pending + [] == pending;
  }

  lemma NothingToEncode(t: StepTable, samples: seq<int16>)
    requires |samples| == 0 || |samples| > 0xffff
    ensures Payload(t, samples) == []
  {
  }

  /** encodeAdpcmPayload, on the normalised samples. */
  method Encode(t: StepTable, samples: seq<int16>) returns (out: seq<byte>)
    ensures out == Payload(t, samples)
  {
    hide *;
    if |samples| == 0 || |samples| > 0xffff {
      NothingToEncode(t, samples);
      return [];
    }
    out := Header(samples[0], |samples|);
    var c := Coder(samples[0], 0);
    var lowNibble := true;
    var packed: Nibble := 0;
    ghost var payload := Payload(t, samples);
    UnwrittenAtStart(t, samples);
    for i := 1 to |samples|
      invariant payload == out + Unwritten(t, c, if lowNibble then [] else [packed], samples[i..])
    {
      assert samples[i..][1..] == samples[i + 1..];
      UnwrittenStep(t, c, packed, samples[i..]);
      var code := ChooseCode(t, c, samples[i]);
      c := ApplyCode(t, c, code);
      if lowNibble {
        packed := code;
        lowNibble := false;
      } else {
        out := out + [Joined(packed, code)];
        packed := 0;
        lowNibble := true;
      }
    }
    assert samples[|samples|..] == [];
    UnwrittenAtEnd(t, c, if lowNibble then [] else [packed]);
    if !lowNibble {
      out := out + [packed];
    }
  }

  /** The codes a decoder has ahead of it, `half` nibbles into a byte. */
  ghost function Ahead(byte: byte, half: nat, rest: seq<byte>, n: nat): seq<Nibble> {
    if n == 0 || half >= 2 then Unpack(rest, n)
    else if half == 1 then [CodeAt(byte, 1)] + Unpack(rest, n - 1)
    else Unpack([byte] + rest, n)
  }

  /** What the decoder will have produced in the end, from any point of its loops. */
  ghost function Outcome(t: StepTable, out: seq<int16>, c: Coder, codes: seq<Nibble>): seq<int16> {
    out + Decoded(t, c, codes)
  }

  lemma OutcomeStep(t: StepTable, out: seq<int16>, c: Coder, byte: byte, half: nat, rest: seq<byte>, n: nat)
    requires half < 2 && n > 0
    ensures var code := CodeAt(byte, half);
            var c' := Advance(t, c, code);
            Outcome(t, out, c, Ahead(byte, half, rest, n))
            == Outcome(t, out + [c'.predictor], c', Ahead(byte, half + 1, rest, n - 1))
  {
    var code := CodeAt(byte, half);
    assert ([byte] + rest)[1..] == rest;
    var codes := Ahead(byte, half + 1, rest, n - 1);
    assert Ahead(byte, half, rest, n) == [code] + codes;
    assert ([code] + codes)[1..] == codes;
  }

  /** The inner loop: up to two samples from one byte. */
  method DecodeByte(t: StepTable, byte: byte, c: Coder, out: seq<int16>, count: nat, ghost rest: seq<byte>)
    returns (c': Coder, out': seq<int16>)
    requires |out| < count
    ensures |out'| <= count
    ensures Outcome(t, out', c', Unpack(rest, count - |out'|))
         == Outcome(t, out, c, Unpack([byte] + rest, count - |out|))
  {
    hide Advance, Decoded, Unpack;
    c', out' := c, out;
    ghost var total := Outcome(t, out, c, Unpack([byte] + rest, count - |out|));
    var half := 0;
    while half < 2 && |out'| < count
      invariant half <= 2 && |out'| <= count
      invariant total == Outcome(t, out', c', Ahead(byte, half, rest, count - |out'|))
    {
      OutcomeStep(t, out', c', byte, half, rest, count - |out'|);
      var code := CodeAt(byte, half);
      c' := ApplyCode(t, c', code);
      out' := out' + [c'.predictor];
      half := half + 1;
    }
  }

  /** decodeAdpcmPayload; None is its `return false`. */
  method Decode(t: StepTable, payload: seq<byte>) returns (r: Option<seq<int16>>)
    ensures r == Samples(t, payload)
  {
    if |payload| < 9 || payload[..4] != MAGIC {
      return None;
    }
    var predictor := ToSigned16(FromLe16(payload[4], payload[5]));
    var c := Coder(predictor, Clamp(payload[6], 0, 88));
    var count := FromLe16(payload[7], payload[8]);
    if count == 0 {
      return None;
    }

    var out := [predictor];
    ghost var total := Outcome(t, out, c, Unpack(payload[9..], count - 1));
    var byteIndex := 9;
    while byteIndex < |payload| && |out| < count
      invariant 9 <= byteIndex <= |payload| && |out| <= count
      invariant total == Outcome(t, out, c, Unpack(payload[byteIndex..], count - |out|))
    {
      ghost var rest := payload[byteIndex + 1..];
      assert payload[byteIndex..] == [payload[byteIndex]] + rest;
      c, out := DecodeByte(t, payload[byteIndex], c, out, count, rest);
      byteIndex := byteIndex + 1;
    }
    assert Unpack(payload[byteIndex..], count - |out|) == [];
    assert total == out;
    r := if |out| == count then Some(out) else None;
  }
}
