/**
 * Headroom of the mixer, over the reals: however many voices are mixed and however the smoothed gain got
 * where it is, the scaled mix stays below the peak target and the limited output fits in 16 bits.
 *
 * Floating-point rounding is not part of this model. The square root is any number that squares to the
 * voice count, and the exponential any function with the two bounds below.
 */
module Mixer {
  import opened Common

  const PEAK_TARGET: real := 28000.0
  const KNEE: real := 0.82
  const CEILING: real := 0.98
  const SMOOTHING: real := 0.15

  function AbsR(x: real): real {
    if x < 0.0 then -x else x
  }

  function MinR(x: real, y: real): real {
    if x <= y then x else y
  }

  /** Rounding half away from zero. */
  function Round(x: real): int {
    if x >= 0.0 then (x + 0.5).Floor else -((-x + 0.5).Floor)
  }

  // ----- Limiting -----

  /** All that limiting needs of the exponential. */
  ghost predicate IsExp(exp: real -> real) {
    (forall x: real | x <= 0.0 :: 0.0 < exp(x) <= 1.0) && (forall x: real :: exp(x) >= 1.0 + x)
  }

  function Limited(magnitude: real, exp: real -> real): real {
    MinR(if magnitude > KNEE then KNEE + (1.0 - KNEE) * (1.0 - exp(-((magnitude - KNEE) / (1.0 - KNEE)))) else magnitude,
         CEILING)
  }

  function SoftLimit(value: real, exp: real -> real): int {
    var normalized := value / 32768.0;
    var sign := if normalized < 0.0 then -1.0 else 1.0;
    Round(sign * Limited(AbsR(normalized), exp) * 32767.0)
  }

  /** Limiting never amplifies and never exceeds the ceiling. */
  lemma LimitedBounds(magnitude: real, exp: real -> real)
    requires IsExp(exp) && magnitude >= 0.0
    ensures 0.0 <= Limited(magnitude, exp) <= CEILING && Limited(magnitude, exp) <= magnitude
    ensures magnitude <= KNEE ==> Limited(magnitude, exp) == magnitude
  {
    if magnitude > KNEE {
      var over := (magnitude - KNEE) / (1.0 - KNEE);
      var e := exp(-over);
      assert 0.0 < e <= 1.0 && e >= 1.0 - over;
      assert (1.0 - KNEE) * over == magnitude - KNEE;
      assert (1.0 - KNEE) * (1.0 - e) <= (1.0 - KNEE) * over;
    }
  }

  /** Every sample the limiter makes fits in 16 bits, and is louder than its input by at most half a step. */
  lemma LimitFits(value: real, exp: real -> real)
    requires IsExp(exp)
    ensures -32112 <= SoftLimit(value, exp) <= 32112
    ensures AbsR(SoftLimit(value, exp) as real) <= AbsR(value) + 0.5
    ensures value >= 0.0 ==> SoftLimit(value, exp) >= 0
    ensures value <= 0.0 ==> SoftLimit(value, exp) <= 0
  {
    var m := AbsR(value / 32768.0);
    LimitedBounds(m, exp);
    var l := Limited(m, exp);
    assert l * 32767.0 <= CEILING * 32767.0;
    assert l * 32767.0 <= m * 32768.0;
    assert m * 32768.0 == AbsR(value);
  }

  /** Limiting keeps what it can: up to 82 % of full scale a sample is only rounded, and beyond that it stays there. */
  lemma LimitKeeps(value: real, exp: real -> real)
    requires IsExp(exp)
    ensures AbsR(value) <= 26869.0 ==> AbsR(SoftLimit(value, exp) as real - value * 32767.0 / 32768.0) <= 0.5
    ensures value > 26869.0 ==> SoftLimit(value, exp) >= 26868
    ensures value < -26869.0 ==> SoftLimit(value, exp) <= -26868
  {
    var m := AbsR(value / 32768.0);
    LimitedBounds(m, exp);
    LimitedAbove(m, exp);
    hide IsExp, Limited;
    assert m * 32768.0 == AbsR(value);
    assert value > 26869.0 ==> Limited(m, exp) * 32767.0 >= 26868.0;
    assert value < -26869.0 ==> Limited(m, exp) * 32767.0 >= 26868.0;
  }

  lemma LimitedAbove(magnitude: real, exp: real -> real)
    requires IsExp(exp) && magnitude >= 0.0
    ensures magnitude > KNEE ==> Limited(magnitude, exp) >= KNEE
  {
    if magnitude > KNEE {
      var e := exp(-((magnitude - KNEE) / (1.0 - KNEE)));
      assert 0.0 < e <= 1.0;
    }
  }

  // ----- Gain -----

  /** The gain for this many voices; `root` is the square root of their number. */
  function ByCount(active: nat, root: real): real
    requires root > 0.0
  {
    if active > 1 then 0.72 / root else 0.95
  }

  function ByPeak(peak: nat): real
    requires peak > 0
  {
    PEAK_TARGET / (peak as real)
  }

  /** The gain aimed at. */
  function Target(active: nat, root: real, peak: nat): real
    requires active > 0 && root > 0.0
  {
    if peak > 0 then MinR(ByCount(active, root), ByPeak(peak)) else ByCount(active, root)
  }

  function Smoothed(gain: real, target: real): real {
    if target < gain then target else gain + (target - gain) * SMOOTHING
  }

  predicate IsRoot(root: real, active: nat) {
    root > 0.0 && root * root == active as real
  }

  /** A mix with this peak stays below the target under this gain. */
  predicate Bounded(gain: real, peak: nat) {
    gain * (peak as real) <= PEAK_TARGET
  }

  lemma TargetInRange(active: nat, root: real, peak: nat)
    requires active > 0 && IsRoot(root, active)
    ensures 0.0 < Target(active, root, peak) < 1.0
    ensures Bounded(Target(active, root, peak), peak)
  {
    if active > 1 {
      RootAboveOne(root);
      DivideWithin(0.72, root);
    }
    if peak > 0 {
      PeakWithin(peak as real, Target(active, root, peak));
    }
  }

  /** The gain aimed at is the largest under which one voice keeps 0.95, several share 0.72 of the root of their number,
      and the peak stays at 28000. */
  lemma TargetIsLargest(active: nat, root: real, peak: nat, gain: real)
    requires active > 0 && IsRoot(root, active)
    ensures gain <= Target(active, root, peak) <==>
              (if active > 1 then gain * root <= 0.72 else gain <= 0.95) && gain * (peak as real) <= 28000.0
  {
    if active > 1 {
      QuotientBound(gain, 0.72, root);
    }
    if peak > 0 {
      QuotientBound(gain, 28000.0, peak as real);
    }
  }

  lemma QuotientBound(x: real, a: real, b: real)
    requires b > 0.0
    ensures x <= a / b <==> x * b <= a
  {
    assert (a / b) * b == a;
    assert (a / b - x) * b == a - x * b;
    if a - x * b > 0.0 {
      PositiveFactor(a / b - x, b);
    } else if x < a / b {
      assert (a / b - x) * b > 0.0;
    }
  }

  /** Down at once, up by 15 % of the way. */
  lemma SmoothedExactly(gain: real, target: real)
    ensures target < gain ==> Smoothed(gain, target) == target
    ensures target >= gain ==> target - Smoothed(gain, target) == 0.85 * (target - gain)
  {
  }

  lemma RootAboveOne(root: real)
    requires root > 0.0 && root * root > 1.0
    ensures root > 1.0
  {
    var x := root - 1.0;
    assert root * root == x * x + 2.0 * x + 1.0;
    assert x * (x + 2.0) == x * x + 2.0 * x;
    PositiveFactor(x, x + 2.0);
  }

  /** Both factors of a positive product are positive if one is. */
  lemma PositiveFactor(x: real, y: real)
    requires x * y > 0.0 && y > 0.0
    ensures x > 0.0
  {
  }

  lemma DivideWithin(a: real, b: real)
    requires 0.0 < a < b
    ensures 0.0 < a / b < 1.0
  {
    assert (a / b) * b == a;
    assert (1.0 - a / b) * b == b - a;
    PositiveFactor(a / b, b);
    PositiveFactor(1.0 - a / b, b);
  }

  lemma PeakWithin(peak: real, gain: real)
    requires peak > 0.0
    ensures PEAK_TARGET / peak > 0.0
    ensures gain <= PEAK_TARGET / peak ==> gain * peak <= PEAK_TARGET
  {
    assert (PEAK_TARGET / peak) * peak == PEAK_TARGET;
  }

  /** Smoothing keeps the gain in range and never above what is aimed at. */
  lemma SmoothedInRange(gain: real, target: real)
    requires 0.0 < gain <= 1.0 && 0.0 < target < 1.0
    ensures 0.0 < Smoothed(gain, target) <= 1.0 && Smoothed(gain, target) <= target
    ensures MinR(gain, target) <= Smoothed(gain, target)
  {
  }

  // ----- The mixer -----

  function PeakOf(mixed: seq<int>): (peak: nat)
    ensures forall i | 0 <= i < |mixed| :: Abs(mixed[i]) <= peak
    ensures mixed == [] ==> peak == 0
    decreases mixed
  {
    if mixed == [] then 0 else Max(PeakOf(mixed[..|mixed| - 1]), Abs(mixed[|mixed| - 1]))
  }

  /** The peak is the magnitude of some sample. */
  lemma {:induction false} PeakIsReached(mixed: seq<int>)
    ensures mixed != [] ==> exists i | 0 <= i < |mixed| :: Abs(mixed[i]) == PeakOf(mixed)
    decreases mixed
  {
    if mixed != [] {
      var before := mixed[..|mixed| - 1];
      PeakIsReached(before);
      if before != [] && PeakOf(mixed) == PeakOf(before) {
        var i :| 0 <= i < |before| && Abs(before[i]) == PeakOf(before);
        assert Abs(mixed[i]) == PeakOf(mixed);
      } else {
        assert Abs(mixed[|mixed| - 1]) == PeakOf(mixed);
      }
    }
  }

  function Scaled(x: int, gain: real): real {
    x as real * gain
  }

  lemma MulMonotone(a: real, b: real, g: real)
    requires a <= b && g > 0.0
    ensures a * g <= b * g
  {
    assert (b - a) * g >= 0.0;
    assert (b - a) * g == b * g - a * g;
  }

  lemma ScaledWithin(x: int, peak: nat, gain: real)
    requires Abs(x) <= peak && gain > 0.0 && Bounded(gain, peak)
    ensures AbsR(Scaled(x, gain)) <= PEAK_TARGET
  {
    MulMonotone(x as real, peak as real, gain);
    MulMonotone(-(peak as real), x as real, gain);
    assert -(peak as real) * gain == -(peak as real * gain);
    assert gain * (peak as real) == peak as real * gain;
  }

  /** Each sample scaled, within the peak target, and limited. */
  ghost predicate IsOutput(out: seq<int16>, mixed: seq<int>, gain: real, exp: real -> real) {
    |out| == |mixed| &&
    forall i | 0 <= i < |mixed| ::
      AbsR(Scaled(mixed[i], gain)) <= PEAK_TARGET && out[i] == SoftLimit(Scaled(mixed[i], gain), exp)
  }

  class Mixer {
    var gain: real

    constructor ()
      ensures gain == 1.0
    {
      gain := 1.0;
    }

    /** One mix of `active` voices: gain, scaling and limiting. Without a voice nothing happens. */
    method Mix(mixed: seq<int>, active: nat, root: real, exp: real -> real) returns (output: Option<seq<int16>>)
      requires 0.0 < gain <= 1.0 && root > 0.0 && IsRoot(root, active) && IsExp(exp)
      modifies this
      ensures active == 0 ==> output == None && gain == old(gain)
      ensures active > 0 ==> gain == Smoothed(old(gain), Target(active, root, PeakOf(mixed))) && output.Some?
      ensures 0.0 < gain <= 1.0
      ensures active > 0 ==> gain <= Target(active, root, PeakOf(mixed))
      ensures output.Some? ==> IsOutput(output.value, mixed, gain, exp)
    {
      if active == 0 {
        return None;
      }
      hide IsExp, IsOutput, PeakOf, ByCount, ByPeak, IsRoot, Bounded;
      var peak := FindPeak(mixed);
      var targetGain := ByCount(active, root);
      if peak > 0 {
        targetGain := MinR(targetGain, ByPeak(peak));
      }
      TargetInRange(active, root, peak);
      SmoothedInRange(gain, targetGain);
      if targetGain < gain {
        gain := targetGain;
      } else {
        gain := gain + (targetGain - gain) * SMOOTHING;
      }
      GainedPeak(gain, targetGain, peak);
      var out := Scale(mixed, gain, exp);
      output := Some(out);
    }

    static method FindPeak(mixed: seq<int>) returns (peak: nat)
      ensures peak == PeakOf(mixed)
    {
      peak := 0;
      var i := 0;
      while i < |mixed|
        invariant 0 <= i <= |mixed| && peak == PeakOf(mixed[..i])
      {
        assert mixed[..i + 1][..i] == mixed[..i];
        peak := Max(peak, Abs(mixed[i]));
        i := i + 1;
      }
      assert mixed[..i] == mixed;
    }

    static method Scale(mixed: seq<int>, gain: real, exp: real -> real) returns (out: seq<int16>)
      requires gain > 0.0 && Bounded(gain, PeakOf(mixed)) && IsExp(exp)
      ensures IsOutput(out, mixed, gain, exp)
    {
      hide SoftLimit, Scaled, PeakOf, IsExp, AbsR, Bounded;
      out := [];
      var i := 0;
      while i < |mixed|
        invariant 0 <= i <= |mixed| && |out| == i
        invariant forall k | 0 <= k < i ::
                    AbsR(Scaled(mixed[k], gain)) <= PEAK_TARGET && out[k] == SoftLimit(Scaled(mixed[k], gain), exp)
      {
        ScaledWithin(mixed[i], PeakOf(mixed), gain);
        LimitFits(Scaled(mixed[i], gain), exp);
        out := out + [SoftLimit(Scaled(mixed[i], gain), exp)];
        i := i + 1;
      }
    }
  }

  lemma GainedPeak(gain: real, target: real, peak: nat)
    requires 0.0 < gain <= target && Bounded(target, peak)
    ensures Bounded(gain, peak)
  {
    if peak > 0 {
      MulMonotone(gain, target, peak as real);
    }
  }

  // ----- Runs -----

  /** One mix: its voices, the root of their number, and the mixed samples. */
  datatype Mixing = Mixing(active: nat, root: real, mixed: seq<int>)

  predicate MixingOk(r: Mixing) {
    r.active > 0 && IsRoot(r.root, r.active)
  }

  ghost function GainAfter(rounds: seq<Mixing>): real
    requires forall i | 0 <= i < |rounds| :: MixingOk(rounds[i])
    decreases rounds
  {
    if rounds == [] then 1.0
    else
      var r := rounds[|rounds| - 1];
      assert MixingOk(r);
      Smoothed(GainAfter(rounds[..|rounds| - 1]), Target(r.active, r.root, PeakOf(r.mixed)))
  }

  /** After any run of mixes the gain lies in (0, 1] and not above the last target, so each sample of the last mix
      times the gain is at most 28000 in magnitude and its limited form fits in 16 bits. */
  lemma {:induction false} Headroom(rounds: seq<Mixing>, exp: real -> real)
    requires forall i | 0 <= i < |rounds| :: MixingOk(rounds[i])
    requires IsExp(exp)
    ensures 0.0 < GainAfter(rounds) <= 1.0
    ensures rounds != [] ==>
              var r := rounds[|rounds| - 1];
              GainAfter(rounds) <= Target(r.active, r.root, PeakOf(r.mixed)) &&
              forall k | 0 <= k < |r.mixed| ::
                AbsR(Scaled(r.mixed[k], GainAfter(rounds))) <= PEAK_TARGET &&
                -0x8000 <= SoftLimit(Scaled(r.mixed[k], GainAfter(rounds)), exp) < 0x8000
    decreases rounds
  {
    hide SoftLimit, Target, Scaled, PeakOf, IsExp, AbsR, Bounded;
    if rounds != [] {
      var before := rounds[..|rounds| - 1];
      var r := rounds[|rounds| - 1];
      Headroom(before, exp);
      assert MixingOk(r);
      TargetInRange(r.active, r.root, PeakOf(r.mixed));
      var target := Target(r.active, r.root, PeakOf(r.mixed));
      SmoothedInRange(GainAfter(before), target);
      var gain := GainAfter(rounds);
      GainedPeak(gain, target, PeakOf(r.mixed));
      forall k | 0 <= k < |r.mixed|
        ensures AbsR(Scaled(r.mixed[k], gain)) <= PEAK_TARGET && -0x8000 <= SoftLimit(Scaled(r.mixed[k], gain), exp) < 0x8000
      {
        ScaledWithin(r.mixed[k], PeakOf(r.mixed), gain);
        LimitFits(Scaled(r.mixed[k], gain), exp);
      }
    }
  }
}
