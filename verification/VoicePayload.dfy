/**
 * Voice payloads: the plain PCM form, and the receiver's choice among the forms it understands.
 *
 * Samples lie in memory little-endian. The Opus library is an input (what it would answer), and so is the
 * interpolation that stretches a frame of another length to 320 samples. `t` is the ADPCM step table.
 */
module VoicePayload {
  import opened Common
  import Adpcm

  const FRAME := 320
  const PCM_MAGIC: seq<byte> := [0x54, 0x56, 0x50, 0x31]   // "TVP1"
  const OPUS_MAGIC: seq<byte> := [0x54, 0x56, 0x4f, 0x31]  // "TVO1"

  type WireFrame = s: seq<int16> | |s| == FRAME witness seq(FRAME, _ => 0)

  /** normalizeFrameSamples: nothing stays nothing, everything else becomes 320 samples. */
  function Normalize(samples: seq<int16>, stretched: WireFrame): (out: seq<int16>)
    ensures out == [] <==> samples == []
    ensures out != [] ==> |out| == FRAME
  {
    if samples == [] || |samples| == FRAME then samples
    else if |samples| == 1 then seq(FRAME, _ => samples[0])
    else stretched
  }

  // ----- Samples as bytes -----

  function SampleBytes(samples: seq<int16>): (bytes: seq<byte>)
    ensures |bytes| == 2 * |samples|
    decreases samples
  {
    if samples == [] then []
    else
      var x := ToUnsigned16(samples[|samples| - 1]);
      SampleBytes(samples[..|samples| - 1]) + [LowByte(x), HighByte(x)]
  }

  /** The samples in a run of bytes; an odd last byte is left over. */
  function BytesSamples(bytes: seq<byte>): (samples: seq<int16>)
    ensures |samples| == |bytes| / 2
  {
    seq(|bytes| / 2, i requires 0 <= i < |bytes| / 2 => ToSigned16(FromLe16(bytes[2 * i], bytes[2 * i + 1])))
  }

  lemma {:induction false} BytesUndone(samples: seq<int16>)
    ensures BytesSamples(SampleBytes(samples)) == samples
    decreases samples
  {
    if samples != [] {
      var before := samples[..|samples| - 1];
      BytesUndone(before);
      var bytes := SampleBytes(samples);
      forall i | 0 <= i < |samples| ensures BytesSamples(bytes)[i] == samples[i] {
        if i < |before| {
          assert bytes[2 * i] == SampleBytes(before)[2 * i] && bytes[2 * i + 1] == SampleBytes(before)[2 * i + 1];
          assert BytesSamples(SampleBytes(before))[i] == before[i];
        }
      }
    }
  }

  // ----- Plain PCM -----

  function PcmHeader(count: uint16): seq<byte> {
    PCM_MAGIC + [LowByte(count), HighByte(count)]
  }

  /** encodePcmPayload after normalisation; empty when there is nothing to send or too much for the count. */
  function PcmPayload(samples: seq<int16>): seq<byte> {
    if samples == [] || |samples| > 0xffff then [] else PcmHeader(|samples|) + SampleBytes(samples)
  }

  function PcmSamples(payload: seq<byte>): Option<seq<int16>> {
    if |payload| < 6 || payload[..4] != PCM_MAGIC then None
    else
      var count := FromLe16(payload[4], payload[5]);
      if count == 0 || |payload| != 6 + 2 * count then None else Some(BytesSamples(payload[6..]))
  }

  /** Decoding undoes encoding, and exactly the lengths the encoder writes are accepted. */
  lemma PcmRoundTrip(samples: seq<int16>)
    requires 1 <= |samples| <= 0xffff
    ensures PcmSamples(PcmPayload(samples)) == Some(samples)
    ensures |PcmPayload(samples)| == 6 + 2 * |samples|
  {
    var payload := PcmPayload(samples);
    assert payload[..4] == PCM_MAGIC;
    assert payload[4] == LowByte(|samples|) && payload[5] == HighByte(|samples|);
    assert payload[6..] == SampleBytes(samples);
    BytesUndone(samples);
  }

  /** A payload cut short or added to is refused. */
  lemma PcmLengthMatters(samples: seq<int16>, other: seq<byte>)
    requires 1 <= |samples| <= 0xffff
    requires other != PcmPayload(samples) && (other <= PcmPayload(samples) || PcmPayload(samples) <= other)
    ensures PcmSamples(other) == None
  {
    var payload := PcmPayload(samples);
    if |other| >= 6 {
      assert other[4] == payload[4] && other[5] == payload[5];
      assert payload[4] == LowByte(|samples|) && payload[5] == HighByte(|samples|);
      assert |other| == |payload| ==> other == payload;
    }
  }

  // ----- The receiver's choice -----

  /** What the Opus decoder makes of a payload, given what the library would answer. */
  function OpusSamples(payload: seq<byte>, library: Option<seq<int16>>): (r: Option<seq<int16>>)
    ensures r.Some? ==> r.value != []
  {
    if |payload| < 7 || payload[..4] != OPUS_MAGIC then None
    else
      var count := FromLe16(payload[4], payload[5]);
      if count == 0 || count > 3 * FRAME then None
      else if library.Some? && 0 < |library.value| <= count then library
      else None
  }

  /** decodeVoicePayload before normalisation: Opus, PCM, ADPCM, or the bytes taken as bare samples. */
  function Chosen(t: Adpcm.StepTable, payload: seq<byte>, library: Option<seq<int16>>): seq<int16> {
    OrElse(OpusSamples(payload, library), OrElse(PcmSamples(payload), OrElse(Adpcm.Samples(t, payload), BytesSamples(payload))))
  }

  

  function VoiceSamples(t: Adpcm.StepTable, payload: seq<byte>, library: Option<seq<int16>>, stretched: WireFrame): seq<int16> {
    Normalize(Chosen(t, payload, library), stretched)
  }

  /** Two bytes or more always give one frame of exactly 320 samples, whatever they are. */
  lemma VoiceNeverEmpty(t: Adpcm.StepTable, payload: seq<byte>, library: Option<seq<int16>>, stretched: WireFrame)
    ensures |VoiceSamples(t, payload, library, stretched)| == FRAME <==> |payload| >= 2
    ensures VoiceSamples(t, payload, library, stretched) == [] <==> |payload| < 2
  {
    hide Adpcm.Decoded, Adpcm.Unpack;
    var adpcm := Adpcm.Samples(t, payload);
    assert adpcm.Some? ==> |payload| >= 9 && adpcm.value != [];
    assert PcmSamples(payload).Some? ==> |payload| >= 6 && PcmSamples(payload).value != [];
  }

  lemma PcmMagic(samples: seq<int16>)
    requires 1 <= |samples| <= 0xffff
    ensures var payload := PcmPayload(samples);
            |payload| >= 6 && payload[..4] != OPUS_MAGIC
  {
    var payload := PcmPayload(samples);
    assert payload[..4] == PCM_MAGIC && payload[..4][2] != OPUS_MAGIC[2];
  }

  /** A frame sent as PCM is heard unchanged, whatever the Opus library would say. */
  lemma PcmHeardExactly(t: Adpcm.StepTable, frame: WireFrame, library: Option<seq<int16>>, stretched: WireFrame)
    ensures VoiceSamples(t, PcmPayload(frame), library, stretched) == frame
  {
    hide PcmPayload, PcmSamples, Adpcm.Samples, BytesSamples;
    PcmRoundTrip(frame);
    PcmMagic(frame);
  }

  /** A payload of a single sample is heard as that sample held for a whole frame. */
  lemma SingleSampleHeld(t: Adpcm.StepTable, x: int16, library: Option<seq<int16>>, stretched: WireFrame)
    ensures VoiceSamples(t, PcmPayload([x]), library, stretched) == seq(320, _ => x)
  {
    hide PcmPayload, PcmSamples, Adpcm.Samples, BytesSamples;
    PcmRoundTrip([x]);
    PcmMagic([x]);
  }

  /** "TVP1", the count, and each sample, low byte first. */
  lemma PcmLayout(samples: seq<int16>)
    requires 1 <= |samples| <= 65535
    ensures var payload := PcmPayload(samples);
            && |payload| == 6 + 2 * |samples|
            && payload[..4] == [0x54, 0x56, 0x50, 0x31] && payload[4] as int + 256 * payload[5] as int == |samples|
            && payload[6..] == SampleBytes(samples)
  {
    hide SampleBytes;
  }

  /** An Opus payload is heard as the library decodes it, if that is a frame and no longer than announced. */
  lemma OpusHeardExactly(t: Adpcm.StepTable, payload: seq<byte>, frame: WireFrame, stretched: WireFrame)
    requires |payload| >= 7 && payload[..4] == [0x54, 0x56, 0x4F, 0x31]
    requires 320 <= payload[4] as int + 256 * payload[5] as int <= 960
    ensures VoiceSamples(t, payload, Some(frame), stretched) == frame
  {
    hide PcmSamples, Adpcm.Samples, BytesSamples;
  }

  /** Bytes under no magic are the samples themselves, low byte first. */
  lemma BareHeardExactly(t: Adpcm.StepTable, frame: WireFrame, library: Option<seq<int16>>, stretched: WireFrame)
    requires SampleBytes(frame)[..4] !in [[0x54, 0x56, 0x4F, 0x31], [0x54, 0x56, 0x50, 0x31], [0x54, 0x56, 0x41, 0x31]]
    ensures VoiceSamples(t, SampleBytes(frame), library, stretched) == frame
    ensures forall i | 0 <= i < 320 ::
              SampleBytes(frame)[2 * i] as int + 256 * SampleBytes(frame)[2 * i + 1] as int
                == if frame[i] < 0 then frame[i] as int + 65536 else frame[i] as int
  {
    BytesUndone(frame);
    var bytes := SampleBytes(frame);
    hide SampleBytes, Adpcm.Decoded, Adpcm.Unpack;
    forall i | 0 <= i < 320
      ensures bytes[2 * i] as int + 256 * bytes[2 * i + 1] as int == if frame[i] < 0 then frame[i] as int + 65536 else frame[i] as int
    {
      assert BytesSamples(bytes)[i] == frame[i];
    }
  }

  /** Whichever of its own codecs the sender uses, a captured frame never comes out empty. */
  lemma FrameAlwaysSent(t: Adpcm.StepTable, frame: WireFrame)
    ensures |PcmPayload(frame)| == 646 && |Adpcm.Payload(t, frame)| >= 9
  {
    hide PcmPayload, Adpcm.Payload;
    PcmRoundTrip(frame);
    AdpcmMagic(t, frame);
  }

  /** A frame sent as ADPCM is heard as the encoder's own reconstruction of it. */
  lemma AdpcmHeardExactly(t: Adpcm.StepTable, frame: WireFrame, library: Option<seq<int16>>, stretched: WireFrame)
    ensures VoiceSamples(t, Adpcm.Payload(t, frame), library, stretched)
         == Adpcm.Reconstruction(t, frame)
  {
    hide Adpcm.Payload, Adpcm.Samples, Adpcm.Reconstruction;
    var payload := Adpcm.Payload(t, frame);
    Adpcm.DecodeEncode(t, frame);
    AdpcmMagic(t, frame);
    ReconstructionLength(t, frame);
  }

  lemma AdpcmMagic(t: Adpcm.StepTable, frame: WireFrame)
    ensures var payload := Adpcm.Payload(t, frame);
            |payload| >= 9 && payload[..4] != PCM_MAGIC && payload[..4] != OPUS_MAGIC
  {
    hide Adpcm.Codes, Adpcm.Pack;
    var payload := Adpcm.Payload(t, frame);
    assert payload[..4][2] == Adpcm.MAGIC[2];
  }

  lemma ReconstructionLength(t: Adpcm.StepTable, frame: WireFrame)
    ensures |Adpcm.Reconstruction(t, frame)| == FRAME
  {
  }

  // ----- The code -----

  method EncodePcm(input: seq<int16>, stretched: WireFrame) returns (out: seq<byte>)
    ensures out == PcmPayload(Normalize(input, stretched))
    ensures input != [] ==> PcmSamples(out) == Some(Normalize(input, stretched))
  {
    hide SampleBytes, PcmSamples;
    var samples := Normalize(input, stretched);
    if |samples| == 0 || |samples| > 0xffff {
      return [];
    }
    PcmRoundTrip(samples);
    var bytes := WriteSamples(samples);
    out := PCM_MAGIC + [LowByte(|samples|), HighByte(|samples|)] + bytes;
  }

  method WriteSamples(samples: seq<int16>) returns (bytes: seq<byte>)
    ensures bytes == SampleBytes(samples)
  {
    bytes := [];
    var i := 0;
    while i < |samples|
      invariant 0 <= i <= |samples| && bytes == SampleBytes(samples[..i])
    {
      assert samples[..i + 1][..i] == samples[..i];
      var x := ToUnsigned16(samples[i]);
      bytes := bytes + [LowByte(x), HighByte(x)];
      i := i + 1;
    }
    assert samples[..i] == samples;
  }

  method DecodePcm(payload: seq<byte>) returns (r: Option<seq<int16>>)
    ensures r == PcmSamples(payload)
  {
    if |payload| < 6 || payload[..4] != PCM_MAGIC {
      return None;
    }
    var count: int := FromLe16(payload[4], payload[5]);
    if count == 0 || |payload| != 6 + 2 * count {
      return None;
    }
    var out := CopySamples(payload[6..]);
    r := Some(out);
  }

  /** Copying bytes over an array of samples. */
  method CopySamples(bytes: seq<byte>) returns (out: seq<int16>)
    ensures out == BytesSamples(bytes)
  {
    out := [];
    var i := 0;
    while i < |bytes| / 2
      invariant 0 <= i <= |bytes| / 2 && out == BytesSamples(bytes)[..i]
    {
      out := out + [ToSigned16(FromLe16(bytes[2 * i], bytes[2 * i + 1]))];
      i := i + 1;
    }
  }

  method DecodeVoice(t: Adpcm.StepTable, payload: seq<byte>, library: Option<seq<int16>>, stretched: WireFrame) returns (samples: seq<int16>)
    ensures samples == VoiceSamples(t, payload, library, stretched)
  {
    var opus := OpusSamples(payload, library);
    if opus.Some? {
      return Normalize(opus.value, stretched);
    }
    var pcm := DecodePcm(payload);
    if pcm.Some? {
      return Normalize(pcm.value, stretched);
    }
    var adpcm := Adpcm.Decode(t, payload);
    if adpcm.Some? {
      return Normalize(adpcm.value, stretched);
    }
    var raw := CopySamples(payload);
    samples := Normalize(raw, stretched);
  }
}
