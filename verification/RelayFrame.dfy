/**
 * A voice frame on its way through the coordinator: two numbers and the base64 text of the payload, printed
 * into a JSON object by the sender and searched for by key at the receiver.
 *
 * The coordinator passes the object on as the bytes it received. Numbers that do not fit their fields, which
 * only foreign text holds, are not part of this model.
 */
module RelayFrame {
  import opened Common
  import opened JsonText
  import opened JsonScan
  import opened JsonFields
  import Base64

  /** What the receiver makes of the object; a missing number counts as 0, missing or broken audio as nothing. */
  datatype Frame = Frame(sequence: nat, captureMs: nat, payload: seq<byte>)

  function FrameJson(f: Frame): Json {
    Obj([NumberField("sequence", f.sequence), NumberField("captureUnixMs", f.captureMs),
         TextField("audio", Base64.Encoded(f.payload))])
  }

  function Printed(f: Frame): string {
    Print(FrameJson(f))
  }

  function NumberOr(json: string, key: string): nat {
    var n := NumberValue(json, key);
    if n.Some? then n.value else 0
  }

  function AudioIn(json: string): seq<byte> {
    match StringValue(json, "audio")
    case None => []
    case Some(text) =>
      var bytes := Base64.Decode(text);
      if bytes.Some? then bytes.value else []
  }

  function Read(json: string): Frame {
    Frame(NumberOr(json, "sequence"), NumberOr(json, "captureUnixMs"), AudioIn(json))
  }

  // ----- Searching -----

  lemma Keys()
    ensures IsKey("audio") && IsKey("captureUnixMs") && IsKey("sequence")
    ensures PlainChars("captureUnixMs") && PlainChars("sequence")
  {
  }

  lemma SequenceRead(f: Frame)
    ensures NumberValue(Printed(f), "sequence") == Some(f.sequence)
  {
    Keys();
    hide NumberValue, Print, IsKey, NumberField;
    var s, c, a := NumberField("sequence", f.sequence), NumberField("captureUnixMs", f.captureMs),
                   TextField("audio", Base64.Encoded(f.payload));
    NumberFieldRead([], "sequence", f.sequence, [c, a]);
    assert [] + ([s] + [c, a]) == [s, c, a];
  }

  lemma CaptureRead(f: Frame)
    ensures NumberValue(Printed(f), "captureUnixMs") == Some(f.captureMs)
  {
    Keys();
    NumberFieldIs("sequence", f.sequence);
    hide NumberValue, Print, IsKey, Scalar, FieldHits;
    var s, c, a := NumberField("sequence", f.sequence), NumberField("captureUnixMs", f.captureMs),
                   TextField("audio", Base64.Encoded(f.payload));
    NumberFieldRead([s], "captureUnixMs", f.captureMs, [a]);
    assert [s] + ([c] + [a]) == [s, c, a];
  }

  lemma AudioRead(f: Frame)
    ensures StringValue(Printed(f), "audio") == Some(Clean(Base64.Encoded(f.payload)))
  {
    Keys();
    NumberFieldIs("sequence", f.sequence);
    NumberFieldIs("captureUnixMs", f.captureMs);
    hide StringValue, Print, IsKey, Scalar, FieldHits;
    var s, c, a := NumberField("sequence", f.sequence), NumberField("captureUnixMs", f.captureMs),
                   TextField("audio", Base64.Encoded(f.payload));
    StringFieldRead([s, c], "audio", Base64.Encoded(f.payload), []);
    assert [s, c] + ([a] + []) == [s, c, a];
  }

  // ----- Round trip -----

  lemma {:induction false} Base64IsPlain(bytes: seq<byte>)
    ensures PlainChars(Base64.Encoded(bytes))
    decreases |bytes|
  {
    if bytes != [] {
      Base64IsPlain(Base64.Drop3(bytes));
      QuadIsPlain(bytes[0], Base64.At(bytes, 1), Base64.At(bytes, 2));
      hide Base64.Quad;
    }
  }

  lemma QuadIsPlain(b0: byte, b1: Option<byte>, b2: Option<byte>)
    ensures PlainChars(Base64.Quad(b0, b1, b2))
  {
    hide Base64.SextetOf;
  }

  lemma {:induction false} PlainIsStripped(text: string)
    requires PlainChars(text)
    ensures Base64.Stripped(text) == text
    decreases text
  {
    if text != [] {
      PlainIsStripped(text[1..]);
      assert text == [text[0]] + text[1..];
    }
  }

  /** A relayed frame comes back with its number, its time and every byte of its payload. */
  lemma RelayRoundTrip(f: Frame)
    ensures Read(Printed(f)) == f
  {
    hide Printed, StringValue, NumberValue, Base64.Decode, Base64.Encoded, Clean;
    SequenceRead(f);
    CaptureRead(f);
    AudioRead(f);
    var text := Base64.Encoded(f.payload);
    Base64IsPlain(f.payload);
    EscapeOfPlain(text);
    PlainIsStripped(text);
    Base64.RoundTrip(f.payload, text);
  }

  /** Missing numbers count as 0 and missing audio as nothing. */
  lemma DefaultsRead(text: string)
    requires QUOTE !in text
    ensures Read(text) == Frame(0, 0, [])
  {
    NothingQuoted(text, "sequence");
    NothingQuoted(text, "captureUnixMs");
    NothingQuoted(text, "audio");
    hide Value;
  }

  /** Audio that is no base64 counts as nothing, so such a frame is not delivered. */
  lemma BrokenAudioRead(sequence: nat, captureMs: nat, audio: string)
    requires Base64.Decode(Clean(audio)) == None
    ensures Read(Print(Obj([NumberField("sequence", sequence), NumberField("captureUnixMs", captureMs),
                            TextField("audio", audio)]))).payload == []
  {
    Keys();
    NumberFieldIs("sequence", sequence);
    NumberFieldIs("captureUnixMs", captureMs);
    hide StringValue, Print, IsKey, Scalar, FieldHits, Base64.Decode, Clean, NumberValue;
    var s, c, a := NumberField("sequence", sequence), NumberField("captureUnixMs", captureMs), TextField("audio", audio);
    StringFieldRead([s, c], "audio", audio, []);
    assert [s, c] + ([a] + []) == [s, c, a];
  }

  // ----- The code -----

  /** The payload object of SignalingClient::sendVoiceFrame. */
  method PrintFrame(f: Frame) returns (text: string)
    ensures text == Printed(f) && Read(text) == f
  {
    hide *;
    RelayRoundTrip(f);
    FrameText(f);
    var audio := Base64.Base64Encode(f.payload);
    text := "{" + Needle("sequence") + ":" + Decimal(f.sequence);
    text := text + "," + Needle("captureUnixMs") + ":" + Decimal(f.captureMs);
    text := text + "," + Needle("audio") + ":" + ([QUOTE] + audio + [QUOTE]) + "}";
  }

  lemma FrameText(f: Frame)
    ensures Printed(f) == "{" + Needle("sequence") + ":" + Decimal(f.sequence) + "," + Needle("captureUnixMs") + ":"
                          + Decimal(f.captureMs) + "," + Needle("audio") + ":"
                          + ([QUOTE] + Base64.Encoded(f.payload) + [QUOTE]) + "}"
  {
    Keys();
    Base64IsPlain(f.payload);
    EscapeOfPlain(Base64.Encoded(f.payload));
    hide Needle, Decimal, Base64.Encoded, IsKey, PlainChars;
    PrintThree(NumberField("sequence", f.sequence), NumberField("captureUnixMs", f.captureMs),
               TextField("audio", Base64.Encoded(f.payload)));
  }

  /** The voice_frame branch of handleServerMessage. */
  method ReadFrame(json: string) returns (f: Frame)
    ensures f == Read(json)
  {
    var sequence := ExtractJsonNumber(json, "sequence");
    var captureMs := ExtractJsonNumber(json, "captureUnixMs");
    var payload: seq<byte> := [];
    var audio := ExtractJsonString(json, "audio");
    if audio.Some? {
      var decoded := Base64.Base64Decode(audio.value);
      if decoded.Some? {
        payload := decoded.value;
      }
    }
    f := Frame(if sequence.Some? then sequence.value else 0, if captureMs.Some? then captureMs.value else 0, payload);
  }
}
